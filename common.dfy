/** Values shared by the pages: optional values, server replies, routes,
    the browser's local storage and the character classes the pages' string
    handling relies on. */
module Common {

  /** `null` / `undefined` / `''` versus a present value. */
  datatype Option<+T> = None | Some(value: T)

  /** The reply to one HTTP call as the page sees it. `NoResponse` stands for
      the cases where the request helper threw or swallowed the error and
      returned `undefined`. */
  datatype Reply<+T> = NoResponse | Response(status: int, data: T)

  /** The client-side routes the pages navigate to. */
  datatype Route =
    | Home                          // "/"
    | AdminLogin                    // "/admin"
    | AdminDashboardPage            // "/admin/dashboard"
    | Games                         // "/games"
    | Login                         // "/login"
    | Payment(seat: int, game: string)        // "/payment/<seat>/<game>"
    | Leaderboard(game: string)     // "/leaderboard/<game>"
    | SelectSeat(game: string)      // "/select-seat/<game>"
    | GameControl(game: string)     // "/admin/game-control/<game>"
    | ManageRequests(game: string)  // "/admin/manage-requests/<game>"

  /** A seat as the server lists it. `owner` is the populated `userId`
      reference reduced to its `username` (None when `userId` is null). */
  datatype ServerSeat = ServerSeat(seatNumber: int, isOccupied: bool, price: int, owner: Option<string>)

  /** An entry of a game's `Pending_Requests`. */
  datatype JoinRequest = JoinRequest(id: string, userId: string, username: string, status: string)

  /** A game as the server lists it; `approvedUsers` holds the `_id`s of
      `Approved_Users`. */
  datatype ServerGame = ServerGame(
    id: string,
    gameName: string,
    seats: seq<ServerSeat>,
    totalSeats: int,
    status: string,
    pendingRequests: seq<JoinRequest>,
    approvedUsers: seq<string>)

  /** A string is truthy in JavaScript when it is present and not empty. */
  predicate Truthy(s: Option<string>) {
    s.Some? && s.value != ""
  }

  /** `parseInt(v) || 0` on a stored "empty or number" field. */
  function OrZero(o: Option<int>): int {
    match o
    case None => 0
    case Some(n) => n
  }

  /** Number of seats whose `isOccupied` flag is set. */
  function CountOccupied(seats: seq<ServerSeat>): (n: nat)
    ensures n <= |seats|
  {
    if seats == [] then 0
    else CountOccupied(seats[..|seats| - 1]) + (if seats[|seats| - 1].isOccupied then 1 else 0)
  }

  /** Number of seats whose `isOccupied` flag is clear. */
  function CountFree(seats: seq<ServerSeat>): (n: nat)
    ensures n <= |seats|
  {
    if seats == [] then 0
    else CountFree(seats[..|seats| - 1]) + (if seats[|seats| - 1].isOccupied then 0 else 1)
  }

  /** Every seat is either occupied or free: the two counts partition the list. */
  lemma {:induction false} OccupiedPlusFree(seats: seq<ServerSeat>)
    ensures CountOccupied(seats) + CountFree(seats) == |seats|
  {
    if seats != [] {
      OccupiedPlusFree(seats[..|seats| - 1]);
    }
  }

  /** The characters matched by JavaScript's `\s` (and removed by `trim`):
      WhiteSpace and LineTerminator of ECMA-262. */
  predicate IsWhitespace(c: char) {
    var k := c as int;
    (0x09 <= k <= 0x0D) || k == 0x20 || k == 0xA0 || k == 0x1680
    || (0x2000 <= k <= 0x200A) || k == 0x2028 || k == 0x2029
    || k == 0x202F || k == 0x205F || k == 0x3000 || k == 0xFEFF
  }

  /** The characters matched by JavaScript's `\d`. */
  predicate IsDigit(c: char) {
    '0' <= c <= '9'
  }

  predicate AllDigits(s: string) {
    forall i :: 0 <= i < |s| ==> IsDigit(s[i])
  }

  /** `s.trim() === ''`. */
  predicate IsBlank(s: string) {
    forall i :: 0 <= i < |s| ==> IsWhitespace(s[i])
  }

  /** The decimal spelling of a positive integer, as `${n}` writes it. */
  function Decimal(n: nat): (s: string)
    ensures |s| >= 1 && AllDigits(s)
    ensures n >= 1 ==> s[0] != '0'
  {
    if n < 10 then [('0' as int + n) as char]
    else Decimal(n / 10) + [('0' as int + n % 10) as char]
  }

  /** Reads a string of digits back as a number. */
  function DecimalValue(s: string): nat
    requires AllDigits(s)
  {
    if s == [] then 0
    else DecimalValue(s[..|s| - 1]) * 10 + (s[|s| - 1] as int - '0' as int)
  }

  /** Reading back what `Decimal` writes gives the number again, so distinct
      numbers have distinct spellings. */
  lemma {:induction false} DecimalRoundTrip(n: nat)
    ensures DecimalValue(Decimal(n)) == n
  {
    if n >= 10 {
      DecimalRoundTrip(n / 10);
      var s := Decimal(n);
      assert s[..|s| - 1] == Decimal(n / 10);
    }
  }

  /** `getItem` on a storage snapshot: null when the key is absent. */
  function Lookup(items: map<string, string>, key: string): (v: Option<string>)
    ensures v.Some? <==> key in items
    ensures v.Some? ==> v.value == items[key]
  {
    if key in items then Some(items[key]) else None
  }

  /**
   * What a later `getItem` sees after `setItem` or `removeItem`: the key just
   * written reads back its value, the key just removed reads back null, and
   * every other key reads back what it did before.
   */
  lemma LookupAfterWrite(items: map<string, string>, key: string, value: string, other: string)
    ensures Lookup(items[key := value], key) == Some(value)
    ensures other != key ==> Lookup(items[key := value], other) == Lookup(items, other)
    ensures Lookup(items - {key}, key) == None
    ensures other != key ==> Lookup(items - {key}, other) == Lookup(items, other)
  {
  }

  /** The browser's `localStorage`: a string-to-string map updated in place. */
  class LocalStorage {
    var items: map<string, string>

    constructor (initial: map<string, string>)
      ensures items == initial
    {
      items := initial;
    }

    /** `localStorage.setItem(key, value)`. */
    method SetItem(key: string, value: string)
      modifies this
      ensures items == old(items)[key := value]
      ensures Lookup(items, key) == Some(value)
    {
      items := items[key := value];
    }

    /** `localStorage.removeItem(key)`. */
    method RemoveItem(key: string)
      modifies this
      ensures items == old(items) - {key}
      ensures Lookup(items, key) == None
    {
      items := items - {key};
    }
  }
}
