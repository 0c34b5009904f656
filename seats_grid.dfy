/** The demo seat grid: row-major seats with ids A1, A2, ..., each booked or
    free by a random draw. */
module SeatsGrid {
  import opened Common

  /** The placeholder passenger shown on a booked seat. */
  datatype Passenger = Passenger(name: string, nickname: string)

  const DemoPassenger: Passenger := Passenger("Passenger", "Nickname")

  datatype GridSeat = GridSeat(id: string, number: string, isBooked: bool, user: Option<Passenger>)

  /** The id of the seat in row `row` (from 0) and column `col` (from 1):
      the row's letter, `String.fromCharCode(65 + row)`, then the column in
      decimal. */
  function SeatId(row: nat, col: nat): (id: string)
    requires 65 + row < 0xD800
    ensures |id| >= 2 && id[0] as int == 65 + row && id[1..] == Decimal(col)
  {
    [(65 + row) as char] + Decimal(col)
  }

  /** Distinct positions have distinct ids. */
  lemma SeatIdInjective(r1: nat, c1: nat, r2: nat, c2: nat)
    requires 65 + r1 < 0xD800 && 65 + r2 < 0xD800
    requires SeatId(r1, c1) == SeatId(r2, c2)
    ensures r1 == r2 && c1 == c2
  {
    var id := SeatId(r1, c1);
    assert id[0] == SeatId(r2, c2)[0];
    assert Decimal(c1) == Decimal(c2);
    DecimalRoundTrip(c1);
    DecimalRoundTrip(c2);
  }

  /** The seat at a position, given the draw for it. */
  function SeatAt(row: nat, col: nat, booked: bool): (s: GridSeat)
    requires 65 + row < 0xD800
    ensures s.id == SeatId(row, col) && s.number == s.id
    ensures s.isBooked == booked && (s.user.Some? <==> booked)
  {
    var id := SeatId(row, col);
    GridSeat(id, id, booked, if booked then Some(DemoPassenger) else None)
  }

  /** Where the seat of row `row`, column `col` sits in the list. */
  function Pos(row: nat, col: nat, cols: nat): nat
    requires 1 <= col
  {
    row * cols + (col - 1)
  }

  lemma MulMono(a: nat, b: nat, c: nat)
    requires a <= b
    ensures a * c <= b * c
  {
  }

  lemma AppendAssoc<T>(a: seq<T>, b: seq<T>, c: seq<T>)
    ensures (a + b) + c == a + (b + c)
  {
  }

  /** `a * c` built by repeated addition: the offset of row `a` when each
      row holds `c` seats. */
  function Times(a: nat, c: nat): nat {
    if a == 0 then 0 else Times(a - 1, c) + c
  }

  lemma {:induction false} TimesIsMul(a: nat, c: nat)
    ensures Times(a, c) == a * c
  {
    if a > 0 {
      TimesIsMul(a - 1, c);
    }
  }

  lemma {:induction false} TimesMono(a: nat, b: nat, c: nat)
    requires a <= b
    ensures Times(a, c) <= Times(b, c)
  {
    if a < b {
      TimesMono(a, b - 1, c);
    }
  }

  /** The list is the grid in row-major order: the seat of row r and
      column c is at position r * cols + c - 1 and its draw is the one made
      for that position. */
  ghost predicate IsGrid(seats: seq<GridSeat>, rows: nat, cols: nat, random: seq<bool>)
    requires 65 + rows <= 0xD800
  {
    && |seats| == rows * cols == |random|
    && forall r, c :: 0 <= r < rows && 1 <= c <= cols ==>
         Pos(r, c, cols) < |seats| && seats[Pos(r, c, cols)] == SeatAt(r, c, random[Pos(r, c, cols)])
  }

  /** The first `n` seats of row `row`, whose draws start at `random[base]`. */
  function RowSeats(row: nat, n: nat, random: seq<bool>, base: nat): seq<GridSeat>
    requires 65 + row < 0xD800 && base + n <= |random|
  {
    if n == 0 then [] else RowSeats(row, n - 1, random, base) + [SeatAt(row, n, random[base + n - 1])]
  }

  /** The first `rows` rows of `cols` seats each, in row-major order. */
  function Grid(rows: nat, cols: nat, random: seq<bool>): seq<GridSeat>
    requires 65 + rows <= 0xD800 && Times(rows, cols) <= |random|
  {
    if rows == 0 then []
    else Grid(rows - 1, cols, random) + RowSeats(rows - 1, cols, random, Times(rows - 1, cols))
  }

  /** One more seat of a row is one seat appended. */
  lemma RowSeatsNext(row: nat, n: nat, random: seq<bool>, base: nat)
    requires 65 + row < 0xD800 && base + n <= |random| && n >= 1
    ensures RowSeats(row, n, random, base) == RowSeats(row, n - 1, random, base) + [SeatAt(row, n, random[base + n - 1])]
  {
  }

  /** One more row of the grid is one row appended. */
  lemma GridNext(rows: nat, cols: nat, random: seq<bool>)
    requires 65 + rows < 0xD800 && Times(rows + 1, cols) <= |random|
    ensures Times(rows, cols) + cols <= |random|
    ensures Grid(rows + 1, cols, random) == Grid(rows, cols, random) + RowSeats(rows, cols, random, Times(rows, cols))
  {
  }

  /** Seat `c` of a row is the seat drawn for it. */
  lemma {:induction false} RowSeatsAt(row: nat, n: nat, random: seq<bool>, base: nat, c: nat)
    requires 65 + row < 0xD800 && base + n <= |random|
    requires 1 <= c <= n
    ensures |RowSeats(row, n, random, base)| == n
    ensures RowSeats(row, n, random, base)[c - 1] == SeatAt(row, c, random[base + c - 1])
  {
    RowSeatsLength(row, n - 1, random, base);
    if c < n {
      RowSeatsAt(row, n - 1, random, base, c);
    }
  }

  lemma {:induction false} RowSeatsLength(row: nat, n: nat, random: seq<bool>, base: nat)
    requires 65 + row < 0xD800 && base + n <= |random|
    ensures |RowSeats(row, n, random, base)| == n
  {
    if n > 0 {
      RowSeatsLength(row, n - 1, random, base);
    }
  }

  lemma {:induction false} GridLength(rows: nat, cols: nat, random: seq<bool>)
    requires 65 + rows <= 0xD800 && Times(rows, cols) <= |random|
    ensures |Grid(rows, cols, random)| == Times(rows, cols)
  {
    if rows > 0 {
      GridLength(rows - 1, cols, random);
      RowSeatsLength(rows - 1, cols, random, Times(rows - 1, cols));
    }
  }

  /** The seat of row r, column c sits at offset Times(r, cols) + c - 1 of
      the grid, with the draw made for that position. */
  lemma {:induction false} GridAt(rows: nat, cols: nat, random: seq<bool>, r: nat, c: nat)
    requires 65 + rows <= 0xD800 && Times(rows, cols) <= |random|
    requires r < rows && 1 <= c <= cols
    ensures Times(r, cols) + c - 1 < |Grid(rows, cols, random)| <= |random|
    ensures Grid(rows, cols, random)[Times(r, cols) + c - 1] == SeatAt(r, c, random[Times(r, cols) + c - 1])
  {
    var k := rows - 1;
    GridLength(k, cols, random);
    GridLength(rows, cols, random);
    if r == k {
      RowSeatsAt(k, cols, random, Times(k, cols), c);
    } else {
      TimesMono(r + 1, k, cols);
      GridAt(k, cols, random, r, c);
    }
  }

  /** The whole grid has the shape IsGrid describes. */
  lemma GridIsGrid(rows: nat, cols: nat, random: seq<bool>)
    requires 65 + rows <= 0xD800 && |random| == rows * cols
    ensures Times(rows, cols) == |random|
    ensures IsGrid(Grid(rows, cols, random), rows, cols, random)
  {
    TimesIsMul(rows, cols);
    GridLength(rows, cols, random);
    forall r, c | 0 <= r < rows && 1 <= c <= cols
      ensures Pos(r, c, cols) < |Grid(rows, cols, random)|
      ensures Grid(rows, cols, random)[Pos(r, c, cols)] == SeatAt(r, c, random[Pos(r, c, cols)])
    {
      GridPos(rows, cols, random, r, c);
    }
  }

  /** GridAt at the position IsGrid names. */
  lemma GridPos(rows: nat, cols: nat, random: seq<bool>, r: nat, c: nat)
    requires 65 + rows <= 0xD800 && Times(rows, cols) <= |random|
    requires r < rows && 1 <= c <= cols
    ensures Pos(r, c, cols) < |Grid(rows, cols, random)| <= |random|
    ensures Grid(rows, cols, random)[Pos(r, c, cols)] == SeatAt(r, c, random[Pos(r, c, cols)])
  {
    TimesIsMul(r, cols);
    GridAt(rows, cols, random, r, c);
  }

  /** Every seat of a grid shows its id as its number, is booked by its own
      draw, and carries the placeholder passenger exactly when booked. */
  lemma GridSeatFacts(seats: seq<GridSeat>, rows: nat, cols: nat, random: seq<bool>)
    requires 65 + rows <= 0xD800
    requires IsGrid(seats, rows, cols, random)
    ensures forall k :: 0 <= k < |seats| ==>
      seats[k].number == seats[k].id && seats[k].isBooked == random[k]
      && (seats[k].user.Some? <==> seats[k].isBooked)
  {
    forall k | 0 <= k < |seats|
      ensures seats[k].number == seats[k].id && seats[k].isBooked == random[k]
      ensures seats[k].user.Some? <==> seats[k].isBooked
    {
      var r, c := PosOf(k, rows, cols);
      assert seats[k] == SeatAt(r, c, random[k]);
    }
  }

  /** `generateSeats(rows, cols)`, with `random[k]` standing for the k-th
      `Math.random() < 0.3` draw. */
  method GenerateSeats(rows: nat, cols: nat, random: seq<bool>) returns (seats: seq<GridSeat>)
    requires 65 + rows <= 0xD800
    requires |random| == rows * cols
    ensures IsGrid(seats, rows, cols, random)
    ensures forall k :: 0 <= k < |seats| ==>
      seats[k].number == seats[k].id && seats[k].isBooked == random[k]
      && (seats[k].user.Some? <==> seats[k].isBooked)
  {
    GridIsGrid(rows, cols, random);
    seats := [];
    var draws: nat := 0;
    var row: nat := 0;
    while row < rows
      invariant 0 <= row <= rows
      invariant draws == Times(row, cols) <= |random|
      invariant seats == Grid(row, cols, random)
    {
      TimesMono(row + 1, rows, cols);
      ghost var front := seats;
      var rowLetter := (65 + row) as char;
      var col: nat := 1;
      while col <= cols
        invariant 1 <= col <= cols + 1
        invariant draws == Times(row, cols) + (col - 1)
        invariant seats == front + RowSeats(row, col - 1, random, Times(row, cols))
      {
        var seatId := [rowLetter] + Decimal(col);
        var booked := random[draws];
        assert GridSeat(seatId, seatId, booked, if booked then Some(DemoPassenger) else None) == SeatAt(row, col, booked);
        AppendAssoc(front, RowSeats(row, col - 1, random, Times(row, cols)), [SeatAt(row, col, booked)]);
        RowSeatsNext(row, col, random, Times(row, cols));
        seats := seats + [GridSeat(seatId, seatId, booked, if booked then Some(DemoPassenger) else None)];
        draws := draws + 1;
        col := col + 1;
      }
      GridNext(row, cols, random);
      row := row + 1;
    }
    GridSeatFacts(seats, rows, cols, random);
  }

  /** Every seat of a grid has its own id. */
  lemma GridIdsDistinct(seats: seq<GridSeat>, rows: nat, cols: nat, random: seq<bool>)
    requires 65 + rows <= 0xD800
    requires IsGrid(seats, rows, cols, random)
    ensures forall i, j :: 0 <= i < j < |seats| ==> seats[i].id != seats[j].id
  {
    forall i, j | 0 <= i < j < |seats|
      ensures seats[i].id != seats[j].id
    {
      GridIdsDiffer(seats, rows, cols, random, i, j);
    }
  }

  /** Two different positions of a grid carry different ids. */
  lemma GridIdsDiffer(seats: seq<GridSeat>, rows: nat, cols: nat, random: seq<bool>, i: nat, j: nat)
    requires 65 + rows <= 0xD800
    requires IsGrid(seats, rows, cols, random)
    requires i < j < |seats|
    ensures seats[i].id != seats[j].id
  {
    var ri, ci := PosOf(i, rows, cols);
    var rj, cj := PosOf(j, rows, cols);
    assert seats[i] == SeatAt(ri, ci, random[i]);
    assert seats[j] == SeatAt(rj, cj, random[j]);
    if seats[i].id == seats[j].id {
      SeatIdInjective(ri, ci, rj, cj);
    }
  }

  /** Each index of a rows × cols list is the position of one (row, column). */
  lemma PosOf(k: nat, rows: nat, cols: nat) returns (r: nat, c: nat)
    requires k < rows * cols
    ensures r < rows && 1 <= c <= cols && Pos(r, c, cols) == k
  {
    assert cols > 0;
    r, c := k / cols, k % cols + 1;
    if r >= rows {
      MulMono(rows, r, cols);
    }
  }

  /** The component's grid: 10 rows of 8, 80 seats, A1 first and J8 last,
      all ids distinct. */
  method Seats(random: seq<bool>) returns (seats: seq<GridSeat>)
    requires |random| == 80
    ensures |seats| == 80
    ensures seats[0].id == "A1" && seats[79].id == "J8"
    ensures forall i, j :: 0 <= i < j < |seats| ==> seats[i].id != seats[j].id
  {
    seats := GenerateSeats(10, 8, random);
    GridIdsDistinct(seats, 10, 8, random);
    assert seats[Pos(0, 1, 8)] == SeatAt(0, 1, random[0]);
    assert seats[Pos(9, 8, 8)] == SeatAt(9, 8, random[79]);
  }
}
