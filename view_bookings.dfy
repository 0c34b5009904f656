/** The admin's booking list for one game: the seats that are booked by a
    known user. */
module ViewBookings {
  import opened Common

  /** One row of the list (the booking date is left out). */
  datatype BookingRow = BookingRow(seatNumber: int, userName: string, price: int)

  /** A seat is listed when it is occupied and has a user. */
  predicate Listed(s: ServerSeat) {
    s.isOccupied && s.owner.Some?
  }

  /** `filter(seat => seat.isOccupied && seat.userId).map(...)`. */
  function BookedRows(seats: seq<ServerSeat>): (r: seq<BookingRow>)
    ensures |r| <= |seats|
    ensures forall row :: row in r <==>
      exists i :: 0 <= i < |seats| && Listed(seats[i])
        && row == BookingRow(seats[i].seatNumber, seats[i].owner.value, seats[i].price)
  {
    if seats == [] then []
    else
      var last := seats[|seats| - 1];
      var front := seats[..|seats| - 1];
      var r := BookedRows(front) + (if Listed(last) then [BookingRow(last.seatNumber, last.owner.value, last.price)] else []);
      assert forall i :: 0 <= i < |front| ==> front[i] == seats[i];
      r
  }

  /** The rows follow the seats' order: the list of a concatenation is the
      concatenation of the lists. */
  lemma {:induction false} BookedRowsAppend(a: seq<ServerSeat>, b: seq<ServerSeat>)
    ensures BookedRows(a + b) == BookedRows(a) + BookedRows(b)
    decreases |b|
  {
    if b == [] {
      assert a + b == a;
    } else {
      var b' := b[..|b| - 1];
      assert (a + b)[..|a + b| - 1] == a + b';
      BookedRowsAppend(a, b');
    }
  }

  /** There are never more rows than occupied seats. */
  lemma {:induction false} BookedRowsBound(seats: seq<ServerSeat>)
    ensures |BookedRows(seats)| <= CountOccupied(seats)
  {
    if seats != [] {
      BookedRowsBound(seats[..|seats| - 1]);
    }
  }

  class BookingsPage {
    var seats: seq<BookingRow>
    var loading: bool

    /** The page starts loading with no rows. */
    constructor ()
      ensures loading && seats == []
    {
      seats, loading := [], true;
    }

    /** The fetch: a 200 reply replaces the rows; any other reply, or a
        failed call, leaves them; loading ends false either way. */
    method Load(reply: Reply<seq<ServerSeat>>)
      modifies this
      ensures !loading
      ensures reply.Response? && reply.status == 200 ==> seats == BookedRows(reply.data)
      ensures !(reply.Response? && reply.status == 200) ==> seats == old(seats)
    {
      loading := true;
      if reply.Response? && reply.status == 200 {
        seats := BookedRows(reply.data);
      }
      loading := false;
    }
  }
}
