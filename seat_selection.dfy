/** The user's seat picker: the seat list shown, the single selected seat,
    the refresh from the server and the two ways to book. */
module SeatSelection {
  import opened Common

  /** The comment on the seat state names three statuses; only two are ever stored. */
  datatype SeatStatus = Available | Selected | Booked

  datatype SeatView = SeatView(id: int, status: SeatStatus, price: int)

  datatype Color = Red | Yellow | Green

  /** `getSeatColor` */
  function SeatColor(status: SeatStatus): (c: Color)
    ensures c == Red <==> status == Booked
    ensures c == Green <==> status == Available
    ensures c == Yellow <==> status == Selected
  {
    match status
    case Booked => Red
    case Selected => Yellow
    case Available => Green
  }

  /** `status: seat.isOccupied ? 'booked' : 'available'` */
  function StatusOf(s: ServerSeat): SeatStatus {
    if s.isOccupied then Booked else Available
  }

  /** The server's seat list as shown: one entry per server seat, in order,
      with the seat number as id, booked exactly when occupied, and the
      price copied. */
  function Project(data: seq<ServerSeat>): (r: seq<SeatView>)
    ensures |r| == |data|
    ensures forall i :: 0 <= i < |data| ==>
      && r[i].id == data[i].seatNumber
      && (r[i].status == Booked <==> data[i].isOccupied)
      && r[i].status != Selected
      && r[i].price == data[i].price
  {
    seq(|data|, i requires 0 <= i < |data| => SeatView(data[i].seatNumber, StatusOf(data[i]), data[i].price))
  }

  /** `seats.find(seat => seat.id === id)`: the first seat with that id. */
  function FindSeat(seats: seq<SeatView>, id: int): (r: Option<SeatView>)
    ensures r.Some? ==> r.value in seats && r.value.id == id
    ensures r.None? ==> forall i :: 0 <= i < |seats| ==> seats[i].id != id
  {
    if seats == [] then None
    else if seats[0].id == id then Some(seats[0])
    else FindSeat(seats[1..], id)
  }

  /** The seat found is the first one carrying that id: a seat at `i` whose
      id no earlier seat shares is exactly what `FindSeat` returns. */
  lemma {:induction false} FindSeatIsFirst(seats: seq<SeatView>, id: int, i: int)
    requires 0 <= i < |seats| && seats[i].id == id
    requires forall j :: 0 <= j < i ==> seats[j].id != id
    ensures FindSeat(seats, id) == Some(seats[i])
  {
    if i > 0 {
      FindSeatIsFirst(seats[1..], id, i - 1);
    }
  }

  /** No stored seat is ever `Selected`. */
  ghost predicate NoSelectedStatus(seats: seq<SeatView>) {
    forall i :: 0 <= i < |seats| ==> seats[i].status != Selected
  }

  /** On a list the page can hold, the yellow colour is never used. */
  lemma {:induction false} NeverYellow(seats: seq<SeatView>, i: int)
    requires NoSelectedStatus(seats) && 0 <= i < |seats|
    ensures SeatColor(seats[i].status) != Yellow
  {
  }

  /** What `handleTestBooking` did. */
  datatype TestBookingOutcome =
    | NoSelection       // "Please select a seat first", no call
    | SeatMissing       // `seatToBook` undefined: the handler throws before calling
    | AlreadyBooked     // "This seat is already booked", no call
    | BookingConfirmed  // the booking answered 200
    | BookingFailed     // any other answer, or the call failed

  class SeatSelectionPage {
    var seats: seq<SeatView>
    var selectedSeat: Option<int>
    var loading: bool

    /** Only `available`/`booked` are stored, a selection is a positive seat
        id (so `!selectedSeat` is "nothing selected"), and no request is in flight. */
    ghost predicate Valid()
      reads this
    {
      NoSelectedStatus(seats) && (selectedSeat.Some? ==> selectedSeat.value >= 1) && !loading
    }

    /** The placeholder list shown before the server answers: 20 seats
        numbered 1..20, all available at price 100, nothing selected. */
    constructor ()
      ensures Valid()
      ensures |seats| == 20 && selectedSeat == None
      ensures forall i :: 0 <= i < 20 ==> seats[i] == SeatView(i + 1, Available, 100)
    {
      seats := seq(20, i => SeatView(i + 1, Available, 100));
      selectedSeat := None;
      loading := false;
    }

    /** `handleSeatClick`: the seat at position `seatId - 1` decides; only an
        available one becomes the selection. A position outside the list
        throws and changes nothing. */
    method HandleSeatClick(seatId: int)
      requires Valid()
      modifies this
      ensures Valid() && seats == old(seats)
      ensures selectedSeat ==
        if 1 <= seatId <= |seats| && seats[seatId - 1].status == Available then Some(seatId)
        else old(selectedSeat)
    {
      if 1 <= seatId <= |seats| && seats[seatId - 1].status == Available {
        selectedSeat := Some(seatId);
      }
    }

    /** The mount-time fetch: a 200 reply replaces the list by its projection;
        anything else leaves it. The selection is not touched. */
    method Refresh(reply: Reply<seq<ServerSeat>>)
      requires Valid()
      modifies this
      ensures Valid() && selectedSeat == old(selectedSeat)
      ensures seats == if reply.Response? && reply.status == 200 then Project(reply.data) else old(seats)
    {
      loading := true;
      if reply.Response? && reply.status == 200 {
        seats := Project(reply.data);
      }
      loading := false;
    }

    /** `handleTestBooking`. `booking` is the test-booking reply and `reload`
        the seat list fetched after a 200. The booking call is made only for a
        selected seat that is not booked; after a 200 the list is reloaded and
        the selection cleared, unless the reload itself failed (reading its
        status then throws before the selection is cleared). */
    method HandleTestBooking(booking: Reply<string>, reload: Reply<seq<ServerSeat>>)
      returns (outcome: TestBookingOutcome)
      requires Valid()
      modifies this
      ensures Valid()
      ensures old(selectedSeat).None? ==> outcome == NoSelection
      ensures old(selectedSeat).Some? ==>
        var found := FindSeat(old(seats), old(selectedSeat).value);
        outcome == (if found.None? then SeatMissing
                    else if found.value.status == Booked then AlreadyBooked
                    else if booking.Response? && booking.status == 200 then BookingConfirmed
                    else BookingFailed)
      ensures outcome != BookingConfirmed ==> seats == old(seats) && selectedSeat == old(selectedSeat)
      ensures outcome == BookingConfirmed ==>
        && seats == (if reload.Response? && reload.status == 200 then Project(reload.data) else old(seats))
        && selectedSeat == (if reload.Response? then None else old(selectedSeat))
    {
      if selectedSeat.None? {
        return NoSelection;
      }
      var seatToBook := FindSeat(seats, selectedSeat.value);
      if seatToBook.None? {
        return SeatMissing;
      }
      if seatToBook.value.status == Booked {
        return AlreadyBooked;
      }
      loading := true;
      if booking.Response? && booking.status == 200 {
        outcome := BookingConfirmed;
        if reload.Response? {
          if reload.status == 200 {
            seats := Project(reload.data);
          }
          selectedSeat := None;
        }
      } else {
        outcome := BookingFailed;
      }
      loading := false;
    }

    /** `handleBookSeat`: go to the payment page for the selected seat,
        unless nothing is selected, the seat is not in the list, or it is booked. */
    method HandleBookSeat(gameId: string) returns (nav: Option<Route>)
      requires Valid()
      ensures nav.Some? <==>
        && selectedSeat.Some?
        && FindSeat(seats, selectedSeat.value).Some?
        && FindSeat(seats, selectedSeat.value).value.status != Booked
      ensures nav.Some? ==> nav.value == Payment(selectedSeat.value, gameId)
    {
      nav := None;
      if selectedSeat.Some? {
        var seatToBook := FindSeat(seats, selectedSeat.value);
        if seatToBook.None? {
          return;
        }
        if seatToBook.value.status == Booked {
          return;
        }
        nav := Some(Payment(selectedSeat.value, gameId));
      }
    }
  }

  /** The click handler checks a seat by position (`seats[seatId - 1]`) and
      the booking handlers look it up by id (`find`). When the ids are the
      positions counted from 1, as in the placeholder list and in a server
      list numbered from 1, both reach the same seat. */
  lemma FindByPosition(seats: seq<SeatView>, id: int)
    requires 1 <= id <= |seats|
    requires forall i :: 0 <= i < |seats| ==> seats[i].id == i + 1
    ensures FindSeat(seats, id) == Some(seats[id - 1])
  {
    FindShifted(seats, id, 1);
  }

  lemma {:induction false} FindShifted(seats: seq<SeatView>, id: int, base: int)
    requires base <= id < base + |seats|
    requires forall i :: 0 <= i < |seats| ==> seats[i].id == i + base
    ensures FindSeat(seats, id) == Some(seats[id - base])
  {
    if id > base {
      var rest := seats[1..];
      assert forall i :: 0 <= i < |rest| ==> rest[i].id == i + base + 1;
      FindShifted(rest, id, base + 1);
    }
  }
}
