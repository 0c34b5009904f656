/** The admin's game-creation form: seat count, free/paid split, per-seat
    pricing and gifts, the validation run on submit and the payload sent to
    the server. */
module CreateGame {
  import opened Common

  /** The raw text of a numeric input as the handlers read it:
      `value === '' ? '' : parseInt(value)`. */
  datatype Input = Blank | Number(n: int) | NotANumber

  /** What an accepted input stores: `''` or the parsed number. */
  function Stored(i: Input): Option<int> {
    match i
    case Number(n) => Some(n)
    case _ => None
  }

  /** `x || ''` on an "empty or number" value: 0 is falsy and becomes empty. */
  function OrEmpty(o: Option<int>): (r: Option<int>)
    ensures r == None <==> (o == None || o == Some(0))
    ensures r.Some? ==> r == o
  {
    if o == Some(0) then None else o
  }

  /** One entry of `gameDetails.seats`. */
  datatype SeatConfig = SeatConfig(seatNumber: int, price: Option<int>, gift: string, isPaid: bool)

  /** The fields of `gameDetails` the rules read. */
  datatype GameDetails = GameDetails(
    gameName: string,
    totalSeats: Option<int>,
    freeSeats: Option<int>,
    paidSeats: Option<int>,
    seats: seq<SeatConfig>)

  // ---------------------------------------------------------------------
  // Input guards. NaN fails every comparison, so NotANumber is never accepted.

  /** `numSeats === '' || (numSeats >= 0 && numSeats <= 100)` */
  predicate AcceptsTotal(i: Input) {
    i.Blank? || (i.Number? && 0 <= i.n <= 100)
  }

  /** `count === '' || (count >= 0 && count <= totalSeats)` with
      `totalSeats = parseInt(gameDetails.totalSeats) || 0`. */
  predicate AcceptsCount(i: Input, total: Option<int>) {
    i.Blank? || (i.Number? && 0 <= i.n <= OrZero(total))
  }

  /** `price === '' || price >= 0` */
  predicate AcceptsPrice(i: Input) {
    i.Blank? || (i.Number? && i.n >= 0)
  }

  // ---------------------------------------------------------------------
  // The per-seat rewrites the handlers apply.

  /** The seat list built when the total changes: `numSeats ? Array.from(...) : []`. */
  function FreshSeats(n: int): (r: seq<SeatConfig>)
    ensures |r| == if n > 0 then n else 0
    ensures forall i :: 0 <= i < |r| ==> r[i] == SeatConfig(i + 1, None, "", false)
  {
    if n > 0 then seq(n, i => SeatConfig(i + 1, None, "", false)) else []
  }

  /** Every seat back to unpaid with an empty price (free-seat edit). */
  function ResetPricing(s: seq<SeatConfig>): (r: seq<SeatConfig>)
    ensures |r| == |s|
    ensures forall i :: 0 <= i < |s| ==> r[i] == s[i].(isPaid := false, price := None)
  {
    seq(|s|, i requires 0 <= i < |s| => s[i].(isPaid := false, price := None))
  }

  /** The checkbox edit of seat `index`: its flag, and its price from the
      universal price (or empty) when paid, empty when unpaid. Every other
      seat, and the seat's number and gift, stay as they were. */
  function MarkSeat(s: seq<SeatConfig>, index: int, isPaid: bool, universal: Option<int>): (r: seq<SeatConfig>)
    ensures |r| == |s|
    ensures forall i :: 0 <= i < |s| && i != index ==> r[i] == s[i]
    ensures 0 <= index < |s| ==>
      && r[index].isPaid == isPaid
      && r[index].seatNumber == s[index].seatNumber && r[index].gift == s[index].gift
      && (isPaid ==> r[index].price == OrEmpty(universal))
      && (!isPaid ==> r[index].price == None)
  {
    if 0 <= index < |s| then
      s[index := s[index].(isPaid := isPaid, price := if isPaid then OrEmpty(universal) else None)]
    else s
  }

  /** The universal price applied to the paid seats; unpaid seats get an empty price. */
  function PriceAll(s: seq<SeatConfig>, price: Option<int>): (r: seq<SeatConfig>)
    ensures |r| == |s|
    ensures forall i :: 0 <= i < |s| ==>
      r[i] == s[i].(price := if s[i].isPaid then OrEmpty(price) else None)
  {
    seq(|s|, i requires 0 <= i < |s| => s[i].(price := if s[i].isPaid then OrEmpty(price) else None))
  }

  /** The price edit of seat `index`: only that seat's price changes, and a
      price of 0 is stored as empty. */
  function PriceSeat(s: seq<SeatConfig>, index: int, price: Option<int>): (r: seq<SeatConfig>)
    ensures |r| == |s|
    ensures forall i :: 0 <= i < |s| && i != index ==> r[i] == s[i]
    ensures 0 <= index < |s| ==> r[index] == s[index].(price := OrEmpty(price))
    ensures 0 <= index < |s| ==> r[index].price != Some(0)
  {
    if 0 <= index < |s| then s[index := s[index].(price := OrEmpty(price))] else s
  }

  /** The gift edit of seat `index`: only that seat's gift changes. */
  function GiftSeat(s: seq<SeatConfig>, index: int, gift: string): (r: seq<SeatConfig>)
    ensures |r| == |s|
    ensures forall i :: 0 <= i < |s| && i != index ==> r[i] == s[i]
    ensures 0 <= index < |s| ==> r[index] == s[index].(gift := gift)
  {
    if 0 <= index < |s| then s[index := s[index].(gift := gift)] else s
  }

  // ---------------------------------------------------------------------
  // Counting paid seats.

  /** `seats.filter(seat => seat.isPaid).length` */
  function CountPaid(s: seq<SeatConfig>): (n: nat)
    ensures n <= |s|
  {
    if s == [] then 0 else CountPaid(s[..|s| - 1]) + (if s[|s| - 1].isPaid then 1 else 0)
  }

  /** `seats.filter((seat, i) => i !== index && seat.isPaid).length` */
  function CountPaidOthers(s: seq<SeatConfig>, index: int): (n: nat)
    ensures n <= |s|
  {
    if s == [] then 0
    else CountPaidOthers(s[..|s| - 1], index) + (if |s| - 1 != index && s[|s| - 1].isPaid then 1 else 0)
  }

  /** The paid seats other than `index`, plus `index` itself when it is paid,
      are all the paid seats. */
  lemma {:induction false} CountPaidSplit(s: seq<SeatConfig>, index: int)
    ensures CountPaid(s) == CountPaidOthers(s, index) + (if 0 <= index < |s| && s[index].isPaid then 1 else 0)
  {
    if s != [] {
      CountPaidSplit(s[..|s| - 1], index);
    }
  }

  /** Replacing seat `index` leaves the count of the other paid seats alone. */
  lemma {:induction false} CountPaidOthersUpdate(s: seq<SeatConfig>, index: int, seat: SeatConfig)
    requires 0 <= index < |s|
    ensures CountPaidOthers(s[index := seat], index) == CountPaidOthers(s, index)
  {
    if |s| - 1 != index {
      assert s[index := seat][..|s| - 1] == s[..|s| - 1][index := seat];
      CountPaidOthersUpdate(s[..|s| - 1], index, seat);
    } else {
      assert s[index := seat][..|s| - 1] == s[..|s| - 1];
    }
  }

  /** After replacing seat `index`, the paid count is the other paid seats
      plus the new seat's flag. */
  lemma CountPaidAfterUpdate(s: seq<SeatConfig>, index: int, seat: SeatConfig)
    requires 0 <= index < |s|
    ensures CountPaid(s[index := seat]) == CountPaidOthers(s, index) + (if seat.isPaid then 1 else 0)
  {
    CountPaidSplit(s[index := seat], index);
    CountPaidOthersUpdate(s, index, seat);
  }

  /** Two seat lists with the same paid flags have the same paid count. */
  lemma {:induction false} CountPaidSameFlags(a: seq<SeatConfig>, b: seq<SeatConfig>)
    requires |a| == |b|
    requires forall i :: 0 <= i < |a| ==> a[i].isPaid == b[i].isPaid
    ensures CountPaid(a) == CountPaid(b)
  {
    if a != [] {
      CountPaidSameFlags(a[..|a| - 1], b[..|b| - 1]);
    }
  }

  /** A list with no paid seat has a paid count of zero. */
  lemma {:induction false} CountPaidNone(s: seq<SeatConfig>)
    requires forall i :: 0 <= i < |s| ==> !s[i].isPaid
    ensures CountPaid(s) == 0
  {
    if s != [] {
      CountPaidNone(s[..|s| - 1]);
    }
  }

  // ---------------------------------------------------------------------
  // The state the handlers keep.

  /** What every handler preserves: the total is empty or within 0..100, the
      seats are numbered 1..total, every stored seat price is empty or
      positive (`price || ''` never stores 0), the free and paid counts are
      empty or within 0..total, and the universal price is empty or not
      negative. */
  predicate WellFormed(d: GameDetails, universal: Option<int>) {
    && (d.totalSeats.Some? ==> 0 <= d.totalSeats.value <= 100)
    && |d.seats| == OrZero(d.totalSeats)
    && (forall i :: 0 <= i < |d.seats| ==> d.seats[i].seatNumber == i + 1)
    && (forall i :: 0 <= i < |d.seats| ==> d.seats[i].price.Some? ==> d.seats[i].price.value > 0)
    && (d.freeSeats.Some? ==> 0 <= d.freeSeats.value <= OrZero(d.totalSeats))
    && (d.paidSeats.Some? ==> 0 <= d.paidSeats.value <= OrZero(d.totalSeats))
    && (universal.Some? ==> universal.value >= 0)
  }

  // ---------------------------------------------------------------------
  // Validation on submit.

  /** The messages of `handleSubmit`, in the order they are pushed; the
      interpolated numbers are carried as fields. */
  datatype ValidationError =
    | NameRequired                                       // "Game name is required"
    | TotalSeatsRequired                                 // "Total seats is required"
    | InvalidSeatCount                                   // "Please enter a valid number of seats"
    | NegativeSeatCounts                                 // "Number of free and paid seats cannot be negative"
    | SeatSumMismatch(total: int, free: int, paid: int)  // "Total seats (..) must equal sum of free (..) and paid seats (..)"
    | PaidSeatWithoutPrice                               // "All paid seats must have a price set"
    | PaidSelectionMismatch(selected: int, paid: int)    // "Number of selected paid seats (..) must match ..."

  /** The position of each message in the fixed order. */
  function Rank(e: ValidationError): nat {
    match e
    case NameRequired => 0
    case TotalSeatsRequired => 1
    case InvalidSeatCount => 2
    case NegativeSeatCounts => 3
    case SeatSumMismatch(_, _, _) => 4
    case PaidSeatWithoutPrice => 5
    case PaidSelectionMismatch(_, _) => 6
  }

  /** `seat.isPaid && (!seat.price && seat.price !== 0)` holds for some seat:
      only an empty price counts as missing. */
  predicate HasUnpricedPaidSeat(s: seq<SeatConfig>) {
    exists i :: 0 <= i < |s| && s[i].isPaid && s[i].price == None
  }

  /** The conditions under which a game may be submitted, stated field by field. */
  predicate SubmissionAllowed(d: GameDetails) {
    && !IsBlank(d.gameName)
    && d.totalSeats.Some? && d.totalSeats.value > 0
    && OrZero(d.freeSeats) >= 0 && OrZero(d.paidSeats) >= 0
    && OrZero(d.freeSeats) + OrZero(d.paidSeats) == d.totalSeats.value
    && (forall i :: 0 <= i < |d.seats| && d.seats[i].isPaid ==> d.seats[i].price.Some?)
    && CountPaid(d.seats) == OrZero(d.paidSeats)
  }

  /** One `if (cond) validationErrors.push(e)`. */
  function Check(cond: bool, e: ValidationError): (r: seq<ValidationError>)
    ensures |r| <= 1 && (r != [] <==> cond) && (cond ==> r[0] == e)
  {
    if cond then [e] else []
  }

  /** The `validationErrors` list of `handleSubmit`. It is empty exactly when
      the game may be submitted. */
  function ValidationErrors(d: GameDetails): (errs: seq<ValidationError>)
    ensures errs == [] <==> SubmissionAllowed(d)
  {
    var total := OrZero(d.totalSeats);
    var free := OrZero(d.freeSeats);
    var paid := OrZero(d.paidSeats);
    var selected := CountPaid(d.seats);
    Check(IsBlank(d.gameName), NameRequired)
    + Check(d.totalSeats == None || d.totalSeats == Some(0), TotalSeatsRequired)
    + Check(total <= 0, InvalidSeatCount)
    + Check(free < 0 || paid < 0, NegativeSeatCounts)
    + Check(free + paid != total, SeatSumMismatch(total, free, paid))
    + Check(HasUnpricedPaidSeat(d.seats), PaidSeatWithoutPrice)
    + Check(selected != paid, PaidSelectionMismatch(selected, paid))
  }

  /** Ranks strictly increase along `e`, and all stay below `bound`. */
  predicate RankedBelow(e: seq<ValidationError>, bound: nat) {
    && (forall i, j :: 0 <= i < j < |e| ==> Rank(e[i]) < Rank(e[j]))
    && (forall k :: 0 <= k < |e| ==> Rank(e[k]) < bound)
  }

  lemma AppendRanked(e: seq<ValidationError>, cond: bool, x: ValidationError)
    requires RankedBelow(e, Rank(x))
    ensures RankedBelow(e + Check(cond, x), Rank(x) + 1)
  {
  }

  /** Seven checks pushed in order give strictly increasing ranks. */
  lemma ChecksRanked(c1: bool, c2: bool, c3: bool, c4: bool, c5: bool, c6: bool, c7: bool,
                     total: int, free: int, paid: int, selected: int)
    ensures RankedBelow(
      Check(c1, NameRequired) + Check(c2, TotalSeatsRequired) + Check(c3, InvalidSeatCount)
      + Check(c4, NegativeSeatCounts) + Check(c5, SeatSumMismatch(total, free, paid))
      + Check(c6, PaidSeatWithoutPrice) + Check(c7, PaidSelectionMismatch(selected, paid)), 7)
  {
    var e := Check(c1, NameRequired);
    assert RankedBelow(e, 1);
    AppendRanked(e, c2, TotalSeatsRequired);
    e := e + Check(c2, TotalSeatsRequired);
    AppendRanked(e, c3, InvalidSeatCount);
    e := e + Check(c3, InvalidSeatCount);
    AppendRanked(e, c4, NegativeSeatCounts);
    e := e + Check(c4, NegativeSeatCounts);
    AppendRanked(e, c5, SeatSumMismatch(total, free, paid));
    e := e + Check(c5, SeatSumMismatch(total, free, paid));
    AppendRanked(e, c6, PaidSeatWithoutPrice);
    e := e + Check(c6, PaidSeatWithoutPrice);
    AppendRanked(e, c7, PaidSelectionMismatch(selected, paid));
  }

  /** The messages always come in the fixed order, each at most once. */
  lemma ErrorsInFixedOrder(d: GameDetails)
    ensures forall i, j :: 0 <= i < j < |ValidationErrors(d)| ==>
      Rank(ValidationErrors(d)[i]) < Rank(ValidationErrors(d)[j])
  {
    var total := OrZero(d.totalSeats);
    var free := OrZero(d.freeSeats);
    var paid := OrZero(d.paidSeats);
    var selected := CountPaid(d.seats);
    ChecksRanked(IsBlank(d.gameName), d.totalSeats == None || d.totalSeats == Some(0), total <= 0,
      free < 0 || paid < 0, free + paid != total, HasUnpricedPaidSeat(d.seats), selected != paid,
      total, free, paid, selected);
    assert RankedBelow(ValidationErrors(d), 7);
  }

  /** A form kept by the handlers never reports negative counts: that check
      is dead once the inputs go through the guards. */
  lemma NoNegativeCountsWhenWellFormed(d: GameDetails, universal: Option<int>)
    requires WellFormed(d, universal)
    ensures NegativeSeatCounts !in ValidationErrors(d)
  {
  }

  /** A paid seat whose price was edited to 0 is stored with an empty price,
      so the game can no longer be submitted. */
  lemma ZeroPriceBlocksSubmission(d: GameDetails, index: int)
    requires 0 <= index < |d.seats| && d.seats[index].isPaid
    ensures PaidSeatWithoutPrice in ValidationErrors(d.(seats := PriceSeat(d.seats, index, Stored(Number(0)))))
  {
    var s := PriceSeat(d.seats, index, Stored(Number(0)));
    assert s[index].isPaid && s[index].price == None;
  }

  /** When the count of seats marked paid differs from `paidSeats` (as a
      paid-count edit can leave it), submission reports exactly that. */
  lemma PaidSelectionMismatchReported(d: GameDetails)
    requires CountPaid(d.seats) != OrZero(d.paidSeats)
    ensures PaidSelectionMismatch(CountPaid(d.seats), OrZero(d.paidSeats)) in ValidationErrors(d)
    ensures !SubmissionAllowed(d)
  {
  }

  // ---------------------------------------------------------------------
  // The submitted payload.

  datatype SeatPayload = SeatPayload(seatNumber: int, price: int, gift: string, isPaid: bool)

  datatype GamePayload = GamePayload(
    gameName: string,
    totalSeats: Option<int>,
    freeSeats: Option<int>,
    paidSeats: Option<int>,
    seats: seq<SeatPayload>)

  /** `{...seat, price: seat.isPaid ? (seat.price || 0) : 0, gift: seat.gift || ''}`;
      the gift is always a string here, so `|| ''` leaves it as it is. */
  function SubmittedSeat(s: SeatConfig): SeatPayload {
    SeatPayload(s.seatNumber, if s.isPaid then OrZero(s.price) else 0, s.gift, s.isPaid)
  }

  /** `gameData`: every field passed through, the seats normalised one by one. */
  function Payload(d: GameDetails): (p: GamePayload)
    ensures p.gameName == d.gameName && p.totalSeats == d.totalSeats
    ensures p.freeSeats == d.freeSeats && p.paidSeats == d.paidSeats
    ensures |p.seats| == |d.seats|
    ensures forall i :: 0 <= i < |d.seats| ==>
      && p.seats[i].seatNumber == d.seats[i].seatNumber
      && p.seats[i].isPaid == d.seats[i].isPaid
      && p.seats[i].gift == d.seats[i].gift
      && p.seats[i].price == (if d.seats[i].isPaid && d.seats[i].price.Some? then d.seats[i].price.value else 0)
  {
    GamePayload(d.gameName, d.totalSeats, d.freeSeats, d.paidSeats,
      seq(|d.seats|, i requires 0 <= i < |d.seats| => SubmittedSeat(d.seats[i])))
  }

  /** Number of paid entries of a payload. */
  function CountPaidPayload(s: seq<SeatPayload>): nat {
    if s == [] then 0 else CountPaidPayload(s[..|s| - 1]) + (if s[|s| - 1].isPaid then 1 else 0)
  }

  lemma {:induction false} CountPaidPayloadMatches(s: seq<SeatConfig>, p: seq<SeatPayload>)
    requires |p| == |s|
    requires forall i :: 0 <= i < |s| ==> p[i].isPaid == s[i].isPaid
    ensures CountPaidPayload(p) == CountPaid(s)
  {
    if s != [] {
      CountPaidPayloadMatches(s[..|s| - 1], p[..|p| - 1]);
    }
  }

  /** A game that passes validation from a form the handlers kept is sent
      with exactly `totalSeats` seats numbered 1..totalSeats, `paidSeats` of
      them paid, each paid seat at a positive price and each free seat at 0,
      and free + paid = total. */
  lemma SubmittedGameMeetsInvariants(d: GameDetails, universal: Option<int>)
    requires WellFormed(d, universal)
    requires ValidationErrors(d) == []
    ensures var p := Payload(d);
      && 1 <= |p.seats| == d.totalSeats.value <= 100
      && OrZero(p.freeSeats) + OrZero(p.paidSeats) == |p.seats|
      && CountPaidPayload(p.seats) == OrZero(p.paidSeats)
      && (forall i :: 0 <= i < |p.seats| ==> p.seats[i].seatNumber == i + 1)
      && (forall i :: 0 <= i < |p.seats| ==> if p.seats[i].isPaid then p.seats[i].price > 0 else p.seats[i].price == 0)
  {
    var p := Payload(d);
    CountPaidPayloadMatches(d.seats, p.seats);
  }

  // ---------------------------------------------------------------------
  // The paid-seat checkbox.

  /** `disabled={!paidSeats || (paid seats >= paidSeats && !seat.isPaid)}`: a ticked
      box is disabled only when no paid seats are configured, and an unticked
      one is enabled only while the paid seats leave room. */
  predicate CheckboxDisabled(d: GameDetails, index: int): (disabled: bool)
    requires 0 <= index < |d.seats|
    ensures disabled && d.seats[index].isPaid ==> OrZero(d.paidSeats) == 0
    ensures !disabled && !d.seats[index].isPaid ==> CountPaid(d.seats) < OrZero(d.paidSeats)
  {
    d.paidSeats == None || d.paidSeats == Some(0)
    || (CountPaid(d.seats) >= d.paidSeats.value && !d.seats[index].isPaid)
  }

  /** The refusal rule of `handleSeatStatusChange`: marking a seat paid is
      refused when the other paid seats plus this one exceed `paidSeats`. */
  predicate MarkRefused(s: seq<SeatConfig>, paidSeats: Option<int>, index: int, isPaid: bool) {
    isPaid && CountPaidOthers(s, index) + 1 > OrZero(paidSeats)
  }

  /** For an unpaid seat the checkbox is enabled exactly when ticking it
      would be accepted, so the disabled state and the handler's own check agree. */
  lemma CheckboxMatchesQuota(d: GameDetails, index: int)
    requires 0 <= index < |d.seats| && !d.seats[index].isPaid
    requires OrZero(d.paidSeats) >= 0
    ensures CheckboxDisabled(d, index) <==> MarkRefused(d.seats, d.paidSeats, index, true)
  {
    CountPaidSplit(d.seats, index);
  }

  /** Ticking an unpaid seat is weighed against the other paid seats, which
      are all the paid seats, and adds one to the paid count. */
  lemma MarkAddsOne(s: seq<SeatConfig>, index: int, universal: Option<int>)
    requires 0 <= index < |s| && !s[index].isPaid
    ensures CountPaidOthers(s, index) == CountPaid(s)
    ensures CountPaid(MarkSeat(s, index, true, universal)) == CountPaid(s) + 1
  {
    CountPaidSplit(s, index);
    CountPaidAfterUpdate(s, index, s[index].(isPaid := true, price := OrEmpty(universal)));
  }

  /** An accepted checkbox edit keeps the paid count within `paidSeats`. */
  lemma MarkKeepsQuota(s: seq<SeatConfig>, paidSeats: Option<int>, index: int, isPaid: bool, universal: Option<int>)
    requires CountPaid(s) <= OrZero(paidSeats)
    requires !MarkRefused(s, paidSeats, index, isPaid)
    ensures CountPaid(MarkSeat(s, index, isPaid, universal)) <= OrZero(paidSeats)
  {
    if 0 <= index < |s| {
      CountPaidSplit(s, index);
      CountPaidAfterUpdate(s, index, s[index].(isPaid := isPaid, price := if isPaid then OrEmpty(universal) else None));
    }
  }

  /** The pricing rewrites leave every paid flag, and so the paid count, as it was. */
  lemma PricingKeepsPaidCount(s: seq<SeatConfig>, index: int, p: Option<int>, g: string)
    ensures CountPaid(PriceAll(s, p)) == CountPaid(s)
    ensures CountPaid(PriceSeat(s, index, p)) == CountPaid(s)
    ensures CountPaid(GiftSeat(s, index, g)) == CountPaid(s)
  {
    CountPaidSameFlags(PriceAll(s, p), s);
    CountPaidSameFlags(PriceSeat(s, index, p), s);
    CountPaidSameFlags(GiftSeat(s, index, g), s);
  }

  /** After a free-seat edit no seat is paid. */
  lemma ResetLeavesNoPaidSeat(s: seq<SeatConfig>)
    ensures CountPaid(ResetPricing(s)) == 0
  {
    CountPaidNone(ResetPricing(s));
  }

  // ---------------------------------------------------------------------
  // The component state and its handlers.

  class GameForm {
    var gameName: string
    var totalSeats: Option<int>
    var freeSeats: Option<int>
    var paidSeats: Option<int>
    var seats: seq<SeatConfig>
    var universalPaidPrice: Option<int>
    var loading: bool

    function Details(): GameDetails
      reads this`gameName, this`totalSeats, this`freeSeats, this`paidSeats, this`seats
    {
      GameDetails(gameName, totalSeats, freeSeats, paidSeats, seats)
    }

    ghost predicate Valid()
      reads this
    {
      WellFormed(Details(), universalPaidPrice) && !loading
    }

    /** `initialGameState` and the empty universal price. */
    constructor ()
      ensures Valid()
      ensures gameName == "" && totalSeats == None && freeSeats == None && paidSeats == None
      ensures seats == [] && universalPaidPrice == None
    {
      gameName, totalSeats, freeSeats, paidSeats := "", None, None, None;
      seats, universalPaidPrice, loading := [], None, false;
    }

    /** The game-name text field. */
    method SetGameName(name: string)
      requires Valid()
      modifies this
      ensures Valid()
      ensures gameName == name
      ensures totalSeats == old(totalSeats) && freeSeats == old(freeSeats) && paidSeats == old(paidSeats)
      ensures seats == old(seats) && universalPaidPrice == old(universalPaidPrice)
    {
      gameName := name;
    }

    /** `handleNumberOfSeatsChange`: an accepted total regenerates the seat
        list and clears the counts and the universal price; anything else is
        ignored. */
    method HandleNumberOfSeatsChange(input: Input)
      requires Valid()
      modifies this
      ensures Valid()
      ensures gameName == old(gameName)
      ensures AcceptsTotal(input) ==>
        && totalSeats == Stored(input) && freeSeats == None && paidSeats == None
        && seats == FreshSeats(OrZero(Stored(input))) && universalPaidPrice == None
      ensures !AcceptsTotal(input) ==>
        && totalSeats == old(totalSeats) && freeSeats == old(freeSeats) && paidSeats == old(paidSeats)
        && seats == old(seats) && universalPaidPrice == old(universalPaidPrice)
    {
      if AcceptsTotal(input) {
        totalSeats := Stored(input);
        freeSeats, paidSeats := None, None;
        seats := FreshSeats(OrZero(Stored(input)));
        universalPaidPrice := None;
      }
    }

    /** `handleFreeSeatsChange`: an accepted count sets `paidSeats` to the
        rest of the total and resets every seat's pricing. */
    method HandleFreeSeatsChange(input: Input)
      requires Valid()
      modifies this
      ensures Valid()
      ensures gameName == old(gameName) && totalSeats == old(totalSeats)
      ensures universalPaidPrice == old(universalPaidPrice)
      ensures AcceptsCount(input, old(totalSeats)) ==>
        && freeSeats == Stored(input)
        && paidSeats == (if input.Blank? then None else Some(OrZero(totalSeats) - input.n))
        && seats == ResetPricing(old(seats))
      ensures !AcceptsCount(input, old(totalSeats)) ==>
        freeSeats == old(freeSeats) && paidSeats == old(paidSeats) && seats == old(seats)
    {
      var total := OrZero(totalSeats);
      if AcceptsCount(input, totalSeats) {
        var calculated := if input.Blank? then None
                          else Some(if total >= input.n then total - input.n else 0);
        freeSeats := Stored(input);
        paidSeats := calculated;
        seats := ResetPricing(seats);
      }
    }

    /** `handlePaidSeatsChange`: an accepted count changes `paidSeats` and
        nothing else; the free count and the seats are left as they are. */
    method HandlePaidSeatsChange(input: Input)
      requires Valid()
      modifies this
      ensures Valid()
      ensures gameName == old(gameName) && totalSeats == old(totalSeats) && freeSeats == old(freeSeats)
      ensures seats == old(seats) && universalPaidPrice == old(universalPaidPrice)
      ensures paidSeats == if AcceptsCount(input, old(totalSeats)) then Stored(input) else old(paidSeats)
    {
      if AcceptsCount(input, totalSeats) {
        paidSeats := Stored(input);
      }
    }

    /** `handleSeatStatusChange`: refused, with nothing changed, when marking
        the seat paid would exceed `paidSeats`; otherwise only seat `index`
        changes. */
    method HandleSeatStatusChange(index: int, isPaid: bool) returns (accepted: bool)
      requires Valid()
      modifies this
      ensures Valid()
      ensures accepted == !MarkRefused(old(seats), old(paidSeats), index, isPaid)
      ensures seats == if accepted then MarkSeat(old(seats), index, isPaid, old(universalPaidPrice)) else old(seats)
      ensures gameName == old(gameName) && totalSeats == old(totalSeats)
      ensures freeSeats == old(freeSeats) && paidSeats == old(paidSeats)
      ensures universalPaidPrice == old(universalPaidPrice)
    {
      var count := CountPaidOthers(seats, index) + (if isPaid then 1 else 0);
      var totalPaid := OrZero(paidSeats);
      if isPaid && count > totalPaid {
        accepted := false;
        return;
      }
      accepted := true;
      seats := MarkSeat(seats, index, isPaid, universalPaidPrice);
    }

    /** `handleUniversalPaidPriceChange`: an accepted price is stored as
        typed and copied (with 0 turned into empty) to every paid seat;
        unpaid seats get an empty price. */
    method HandleUniversalPaidPriceChange(input: Input)
      requires Valid()
      modifies this
      ensures Valid()
      ensures gameName == old(gameName) && totalSeats == old(totalSeats)
      ensures freeSeats == old(freeSeats) && paidSeats == old(paidSeats)
      ensures AcceptsPrice(input) ==>
        universalPaidPrice == Stored(input) && seats == PriceAll(old(seats), Stored(input))
      ensures !AcceptsPrice(input) ==>
        universalPaidPrice == old(universalPaidPrice) && seats == old(seats)
    {
      if AcceptsPrice(input) {
        universalPaidPrice := Stored(input);
        seats := PriceAll(seats, Stored(input));
      }
    }

    /** `handleSeatPriceChange`: an accepted price (0 turned into empty)
        replaces the price of seat `index` only. */
    method HandleSeatPriceChange(index: int, input: Input)
      requires Valid()
      modifies this
      ensures Valid()
      ensures gameName == old(gameName) && totalSeats == old(totalSeats)
      ensures freeSeats == old(freeSeats) && paidSeats == old(paidSeats)
      ensures universalPaidPrice == old(universalPaidPrice)
      ensures seats == if AcceptsPrice(input) then PriceSeat(old(seats), index, Stored(input)) else old(seats)
    {
      if AcceptsPrice(input) {
        seats := PriceSeat(seats, index, Stored(input));
      }
    }

    /** The gift text field of seat `index`. */
    method HandleGiftChange(index: int, gift: string)
      requires Valid()
      modifies this
      ensures Valid()
      ensures gameName == old(gameName) && totalSeats == old(totalSeats)
      ensures freeSeats == old(freeSeats) && paidSeats == old(paidSeats)
      ensures universalPaidPrice == old(universalPaidPrice)
      ensures seats == GiftSeat(old(seats), index, gift)
    {
      seats := GiftSeat(seats, index, gift);
    }

    /** The checks of `handleSubmit`, pushed one by one in their fixed order. */
    method CollectErrors() returns (errors: seq<ValidationError>)
      ensures errors == ValidationErrors(Details())
    {
      errors := [];
      if IsBlank(gameName) {
        errors := errors + [NameRequired];
      }
      assert errors == Check(IsBlank(gameName), NameRequired);
      ghost var e := errors;
      if totalSeats == None || totalSeats == Some(0) {
        errors := errors + [TotalSeatsRequired];
      }
      assert errors == e + Check(totalSeats == None || totalSeats == Some(0), TotalSeatsRequired);
      var total := OrZero(totalSeats);
      var free := OrZero(freeSeats);
      var paid := OrZero(paidSeats);
      e := errors;
      if total <= 0 {
        errors := errors + [InvalidSeatCount];
      }
      assert errors == e + Check(total <= 0, InvalidSeatCount);
      e := errors;
      if free < 0 || paid < 0 {
        errors := errors + [NegativeSeatCounts];
      }
      assert errors == e + Check(free < 0 || paid < 0, NegativeSeatCounts);
      e := errors;
      if free + paid != total {
        errors := errors + [SeatSumMismatch(total, free, paid)];
      }
      assert errors == e + Check(free + paid != total, SeatSumMismatch(total, free, paid));
      e := errors;
      if HasUnpricedPaidSeat(seats) {
        errors := errors + [PaidSeatWithoutPrice];
      }
      assert errors == e + Check(HasUnpricedPaidSeat(seats), PaidSeatWithoutPrice);
      e := errors;
      var selected := CountPaid(seats);
      if selected != paid {
        errors := errors + [PaidSelectionMismatch(selected, paid)];
      }
      assert errors == e + Check(selected != paid, PaidSelectionMismatch(selected, paid));
      assert Details() == GameDetails(gameName, totalSeats, freeSeats, paidSeats, seats);
      assert errors == ValidationErrors(GameDetails(gameName, totalSeats, freeSeats, paidSeats, seats));
    }

    /** `handleSubmit`: the error list is built check by check; when it is
        empty the payload is sent, and the page moves to the dashboard when
        the server answers (`created` holds the answer's message, None when
        the request failed). Loading is over in every case. */
    method HandleSubmit(created: Option<string>)
      returns (errors: seq<ValidationError>, sent: Option<GamePayload>, nav: Option<Route>)
      requires Valid()
      modifies this`loading
      ensures Valid()
      ensures errors == ValidationErrors(Details())
      ensures sent == if errors == [] then Some(Payload(Details())) else None
      ensures nav == if errors == [] && created.Some? then Some(AdminDashboardPage) else None
    {
      loading := true;
      errors := CollectErrors();
      if errors != [] {
        loading := false;
        sent, nav := None, None;
        return;
      }
      sent := Some(Payload(Details()));
      nav := if created.Some? then Some(AdminDashboardPage) else None;
      loading := false;
    }
  }

  /** The seat list after ticking seats 0 to k - 1 as paid, one after another,
      at the universal price. */
  function TickFirst(s: seq<SeatConfig>, k: nat, universal: Option<int>): (r: seq<SeatConfig>)
    requires k <= |s|
    ensures |r| == |s|
  {
    if k == 0 then s else MarkSeat(TickFirst(s, k - 1, universal), k - 1, true, universal)
  }

  /** From a list with no paid seat, ticking the first k seats makes exactly
      those k seats paid at the universal price and leaves the rest alone. */
  lemma {:induction false} TickFirstFacts(s: seq<SeatConfig>, k: nat, universal: Option<int>)
    requires k <= |s| && forall i :: 0 <= i < |s| ==> !s[i].isPaid
    ensures var t := TickFirst(s, k, universal);
      && CountPaid(t) == k
      && (forall i :: 0 <= i < k ==> t[i].isPaid && t[i].price == OrEmpty(universal))
      && (forall i :: k <= i < |s| ==> t[i] == s[i])
  {
    if k == 0 {
      CountPaidNone(s);
    } else {
      var t' := TickFirst(s, k - 1, universal);
      TickFirstFacts(s, k - 1, universal);
      MarkAddsOne(t', k - 1, universal);
    }
  }

  /** With `paidSeats` set to q and no seat paid yet, ticking the seats in
      order is accepted q times, each ticked seat taking the universal price,
      and the next tick (when there is a seat left) is refused. */
  lemma QuotaTicks(s: seq<SeatConfig>, q: nat, universal: Option<int>)
    requires q <= |s| && forall i :: 0 <= i < |s| ==> !s[i].isPaid
    ensures forall k :: 0 <= k < q ==> !MarkRefused(TickFirst(s, k, universal), Some(q), k, true)
    ensures forall i :: 0 <= i < q ==>
      TickFirst(s, q, universal)[i].isPaid && TickFirst(s, q, universal)[i].price == OrEmpty(universal)
    ensures q < |s| ==> MarkRefused(TickFirst(s, q, universal), Some(q), q, true)
  {
    forall k | 0 <= k < q
      ensures !MarkRefused(TickFirst(s, k, universal), Some(q), k, true)
    {
      TickFirstFacts(s, k, universal);
      CountPaidSplit(TickFirst(s, k, universal), k);
    }
    TickFirstFacts(s, q, universal);
    if q < |s| {
      CountPaidSplit(TickFirst(s, q, universal), q);
    }
  }
}
