/** The payment page: the card form's formatting and validation, the
    payment-then-booking chain behind its submit button, and the page's
    payment status. */
module PaymentGateway {
  import opened Common

  // ---------------------------------------------------------------------
  // String helpers written out for the specific regular expressions used
  // ---------------------------------------------------------------------

  /** `s.replace(/\s/g, '')`: every whitespace character removed. */
  function StripWhitespace(s: string): (r: string)
    ensures |r| <= |s|
  {
    if s == [] then []
    else (if IsWhitespace(s[0]) then [] else [s[0]]) + StripWhitespace(s[1..])
  }

  /** No whitespace character survives the stripping. */
  lemma {:induction false} StripLeavesNoWhitespace(s: string)
    ensures forall i :: 0 <= i < |StripWhitespace(s)| ==> !IsWhitespace(StripWhitespace(s)[i])
  {
    if s != [] {
      StripLeavesNoWhitespace(s[1..]);
    }
  }

  /** `s` starts with four digits (`\d{4}` matches at its start). */
  predicate FourDigits(s: string) {
    |s| >= 4 && IsDigit(s[0]) && IsDigit(s[1]) && IsDigit(s[2]) && IsDigit(s[3])
  }

  /** `s.replace(/(\d{4})/g, '$1 ')`: scanning from the left, every run of
      four digits found is followed by a space; the scan resumes after it. */
  function GroupDigits(s: string): string
    decreases |s|
  {
    if FourDigits(s) then s[..4] + " " + GroupDigits(s[4..])
    else if s == [] then []
    else [s[0]] + GroupDigits(s[1..])
  }

  /** Leading whitespace removed. */
  function TrimStart(s: string): string {
    if s != [] && IsWhitespace(s[0]) then TrimStart(s[1..]) else s
  }

  /** Trailing whitespace removed. */
  function TrimEnd(s: string): string {
    if s != [] && IsWhitespace(s[|s| - 1]) then TrimEnd(s[..|s| - 1]) else s
  }

  /** `s.trim()`. */
  function Trim(s: string): string {
    TrimEnd(TrimStart(s))
  }

  /** What the card-number field stores for a typed `value`. The number sent
      for payment is the field with its spaces taken out, and that is the
      typed value with its spaces taken out: formatting never loses or
      invents a character other than whitespace. */
  function FormatCardNumber(value: string): (r: string)
    ensures StripWhitespace(r) == StripWhitespace(value)
  {
    var s := StripWhitespace(value);
    StripTrim(GroupDigits(s));
    StripGroupDigits(s);
    StripLeavesNoWhitespace(value);
    StripNoWhitespace(s);
    Trim(GroupDigits(s))
  }

  /** `s.replace(/\D/g, '')`: only the digits, in order. */
  function DigitsOnly(s: string): (r: string)
    ensures |r| <= |s|
  {
    if s == [] then []
    else (if IsDigit(s[0]) then [s[0]] else []) + DigitsOnly(s[1..])
  }

  /** `s.replace(/\//g, '')`: every slash removed. */
  function RemoveSlashes(s: string): (r: string)
    ensures |r| <= |s|
  {
    if s == [] then []
    else (if s[0] == '/' then [] else [s[0]]) + RemoveSlashes(s[1..])
  }

  /** Only digits are kept. */
  lemma {:induction false} DigitsOnlyDigits(s: string)
    ensures AllDigits(DigitsOnly(s))
  {
    if s != [] {
      DigitsOnlyDigits(s[1..]);
    }
  }

  /** `d.replace(/(\d{2})(\d{0,2})/, '$1/$2')` on a string of digits: the
      first match starts at the beginning, takes two digits and then up to
      two more, and a slash goes between the two groups. */
  function InsertSlash(d: string): string
    requires AllDigits(d)
  {
    if |d| < 2 then d
    else
      var m := if |d| < 4 then |d| else 4;
      d[..2] + "/" + d[2..m] + d[m..]
  }

  /** `s.substr(0, n)`. */
  function Prefix(s: string, n: nat): string {
    if |s| <= n then s else s[..n]
  }

  /** What the expiry field stores for a typed `value`: at most five
      characters, and the typed digits unchanged while fewer than two. */
  function FormatExpiry(value: string): (r: string)
    ensures |r| <= 5
    ensures |DigitsOnly(value)| < 2 ==> r == DigitsOnly(value)
  {
    DigitsOnlyDigits(value);
    Prefix(InsertSlash(DigitsOnly(value)), 5)
  }

  /** The expiry field holds at most five characters; a slash at index 2
      exactly when two digits were typed and digits everywhere else; and,
      with the slash taken out, the first (up to four) digits typed. */
  lemma ExpiryLayout(value: string)
    ensures var d := DigitsOnly(value);
      var r := FormatExpiry(value);
      && |r| <= 5
      && (|d| < 2 ==> r == d)
      && (|d| >= 2 ==> |r| >= 3 && r[2] == '/')
      && (forall i :: 0 <= i < |r| && i != 2 ==> IsDigit(r[i]))
      && RemoveSlashes(r) == d[..if |d| < 4 then |d| else 4]
  {
    var d := DigitsOnly(value);
    DigitsOnlyDigits(value);
    if |d| < 2 {
      NoSlashes(d);
    } else {
      ExpiryLayoutLong(d);
    }
  }

  /** With two digits or more: the first two, a slash, then up to two more. */
  lemma ExpiryLayoutLong(d: string)
    requires AllDigits(d) && |d| >= 2
    ensures var m := if |d| < 4 then |d| else 4;
      var r := Prefix(InsertSlash(d), 5);
      && r == d[..2] + "/" + d[2..m]
      && (forall i :: 0 <= i < |r| && i != 2 ==> IsDigit(r[i]))
      && RemoveSlashes(r) == d[..m]
  {
    var m := if |d| < 4 then |d| else 4;
    ExpiryShape(d);
    SlashedDigits(d[..2], d[2..m]);
    assert d[..2] + d[2..m] == d[..m];
  }

  /** The first five characters of the slashed digits. */
  lemma ExpiryShape(d: string)
    requires AllDigits(d) && |d| >= 2
    ensures var m := if |d| < 4 then |d| else 4;
      Prefix(InsertSlash(d), 5) == d[..2] + "/" + d[2..m]
  {
    var m := if |d| < 4 then |d| else 4;
    var t := d[..2] + "/" + d[2..m];
    assert InsertSlash(d) == t + d[m..];
    if |d| > 4 {
      assert (t + d[m..])[..5] == t;
    } else {
      assert d[m..] == [];
      assert t + d[m..] == t;
    }
  }

  /** Two runs of digits with a slash between them: digits everywhere but
      at the slash, and the digits back when the slash is removed. */
  lemma SlashedDigits(a: string, b: string)
    requires AllDigits(a) && AllDigits(b)
    ensures var r := a + "/" + b;
      && (forall i :: 0 <= i < |r| && i != |a| ==> IsDigit(r[i]))
      && RemoveSlashes(r) == a + b
  {
    var r := a + "/" + b;
    forall i | 0 <= i < |r| && i != |a|
      ensures IsDigit(r[i])
    {
      SlashedAt(a, b, i);
    }
    SlashedRemove(a, b);
  }

  lemma SlashedAt(a: string, b: string, i: int)
    requires AllDigits(a) && AllDigits(b)
    requires 0 <= i < |a| + 1 + |b| && i != |a|
    ensures IsDigit((a + "/" + b)[i])
  {
    if i < |a| {
      assert (a + "/" + b)[i] == a[i];
    } else {
      assert (a + "/" + b)[i] == b[i - |a| - 1];
    }
  }

  lemma SlashedRemove(a: string, b: string)
    requires AllDigits(a) && AllDigits(b)
    ensures RemoveSlashes(a + "/" + b) == a + b
  {
    var sb := "/" + b;
    assert a + "/" + b == a + sb;
    RemoveSlashesAppend(a, sb);
    NoSlashes(a);
    SlashThenDigits(b);
  }

  lemma SlashThenDigits(b: string)
    requires AllDigits(b)
    ensures RemoveSlashes("/" + b) == b
  {
    var sb := "/" + b;
    assert sb[0] == '/' && sb[1..] == b;
    NoSlashes(b);
  }

  lemma {:induction false} NoSlashes(d: string)
    requires AllDigits(d)
    ensures RemoveSlashes(d) == d
  {
    if d != [] {
      NoSlashes(d[1..]);
    }
  }

  lemma {:induction false} RemoveSlashesAppend(a: string, b: string)
    ensures RemoveSlashes(a + b) == RemoveSlashes(a) + RemoveSlashes(b)
  {
    if a != [] {
      assert (a + b)[0] == a[0] && (a + b)[1..] == a[1..] + b;
      RemoveSlashesAppend(a[1..], b);
    } else {
      assert a + b == b;
    }
  }

  /** `/^\d{2}\/\d{2}$/`: an accepted expiry is month digits, a slash and
      year digits, so taking the slash out leaves exactly four digits. */
  predicate IsMMYY(e: string): (ok: bool)
    ensures ok ==> |e| == 5 && e[2] == '/'
    ensures ok ==> |RemoveSlashes(e)| == 4 && AllDigits(RemoveSlashes(e))
  {
    if |e| == 5 && IsDigit(e[0]) && IsDigit(e[1]) && e[2] == '/' && IsDigit(e[3]) && IsDigit(e[4]) then
      assert e == e[..2] + "/" + e[3..];
      SlashedRemove(e[..2], e[3..]);
      true
    else false
  }

  // ---------------------------------------------------------------------
  // Card-number formatting: round trip and layout
  // ---------------------------------------------------------------------

  lemma {:induction false} StripAppend(a: string, b: string)
    ensures StripWhitespace(a + b) == StripWhitespace(a) + StripWhitespace(b)
  {
    if a != [] {
      assert (a + b)[0] == a[0] && (a + b)[1..] == a[1..] + b;
      StripAppend(a[1..], b);
    } else {
      assert a + b == b;
    }
  }

  /** A string without whitespace is left as it is. */
  lemma {:induction false} StripNoWhitespace(s: string)
    requires forall i :: 0 <= i < |s| ==> !IsWhitespace(s[i])
    ensures StripWhitespace(s) == s
  {
    if s != [] {
      StripNoWhitespace(s[1..]);
    }
  }

  /** Grouping only adds spaces. */
  lemma {:induction false} StripGroupDigits(s: string)
    ensures StripWhitespace(GroupDigits(s)) == StripWhitespace(s)
    decreases |s|
  {
    if FourDigits(s) {
      StripAppend(s[..4] + " ", GroupDigits(s[4..]));
      StripAppend(s[..4], " ");
      StripGroupDigits(s[4..]);
      StripAppend(s[..4], s[4..]);
      assert s[..4] + s[4..] == s;
    } else if s != [] {
      StripAppend([s[0]], GroupDigits(s[1..]));
      StripGroupDigits(s[1..]);
      StripAppend([s[0]], s[1..]);
      assert [s[0]] + s[1..] == s;
    }
  }

  /** Trimming only removes whitespace. */
  lemma {:induction false} StripTrim(s: string)
    ensures StripWhitespace(Trim(s)) == StripWhitespace(s)
  {
    StripTrimStart(s);
    StripTrimEnd(TrimStart(s));
  }

  lemma {:induction false} StripTrimStart(s: string)
    ensures StripWhitespace(TrimStart(s)) == StripWhitespace(s)
  {
    if s != [] && IsWhitespace(s[0]) {
      StripTrimStart(s[1..]);
    }
  }

  lemma {:induction false} StripTrimEnd(s: string)
    ensures StripWhitespace(TrimEnd(s)) == StripWhitespace(s)
  {
    if s != [] && IsWhitespace(s[|s| - 1]) {
      var t := s[..|s| - 1];
      StripTrimEnd(t);
      StripAppend(t, [s[|s| - 1]]);
      assert t + [s[|s| - 1]] == s;
    }
  }

  /** Fewer than four digits are not grouped. */
  lemma {:induction false} GroupShort(d: string)
    requires AllDigits(d) && |d| < 4
    ensures GroupDigits(d) == d
  {
    if d != [] {
      GroupShort(d[1..]);
    }
  }

  /** On digits, grouping puts a space at every fifth position and the
      digits, in order, everywhere else. */
  lemma {:induction false} GroupLayout(d: string)
    requires AllDigits(d)
    ensures |GroupDigits(d)| == |d| + |d| / 4
    ensures forall i :: 0 <= i < |GroupDigits(d)| ==>
      && (GroupDigits(d)[i] == ' ' <==> i % 5 == 4)
      && (i % 5 != 4 ==> GroupDigits(d)[i] == d[i / 5 * 4 + i % 5])
    decreases |d|
  {
    var g := GroupDigits(d);
    if |d| < 4 {
      GroupShort(d);
    } else {
      var rest := d[4..];
      var g' := GroupDigits(rest);
      GroupLayout(rest);
      assert g == d[..4] + " " + g';
      forall i | 0 <= i < |g|
        ensures (g[i] == ' ' <==> i % 5 == 4)
        ensures i % 5 != 4 ==> g[i] == d[i / 5 * 4 + i % 5]
      {
        if i >= 5 {
          assert g[i] == g'[i - 5];
          assert (i - 5) % 5 == i % 5 && (i - 5) / 5 == i / 5 - 1;
          assert (i - 5) / 5 * 4 + (i - 5) % 5 + 4 == i / 5 * 4 + i % 5;
        }
      }
    }
  }

  /** One position of the grouped digits: a space at every fifth position,
      otherwise the digit that lands there. */
  lemma GroupAt(d: string, i: int)
    requires AllDigits(d) && 0 <= i < |GroupDigits(d)|
    ensures GroupDigits(d)[i] == ' ' <==> i % 5 == 4
    ensures i % 5 != 4 ==> i / 5 * 4 + i % 5 < |d|
    ensures i % 5 != 4 ==> GroupDigits(d)[i] == d[i / 5 * 4 + i % 5] && IsDigit(GroupDigits(d)[i])
  {
    GroupLayout(d);
  }

  /** Grouping adds one space per complete group of four. */
  lemma GroupLength(d: string)
    requires AllDigits(d)
    ensures |GroupDigits(d)| == |d| + |d| / 4
  {
    GroupLayout(d);
  }

  /** A string that starts with a non-whitespace character keeps its start. */
  lemma TrimStartKeeps(s: string)
    requires s != [] && !IsWhitespace(s[0])
    ensures TrimStart(s) == s
  {
  }

  /** A string that ends with a non-whitespace character keeps its end. */
  lemma TrimEndKeeps(s: string)
    requires s != [] && !IsWhitespace(s[|s| - 1])
    ensures TrimEnd(s) == s
  {
  }

  lemma TrimEndOne(s: string)
    requires |s| >= 2 && IsWhitespace(s[|s| - 1]) && !IsWhitespace(s[|s| - 2])
    ensures TrimEnd(s) == s[..|s| - 1]
  {
    var t := s[..|s| - 1];
    assert t[|t| - 1] == s[|s| - 2];
    TrimEndKeeps(t);
  }

  lemma DivMod5(q: nat, r: int)
    requires 0 <= r < 5
    ensures (5 * q + r) % 5 == r && (5 * q + r) / 5 == q
  {
  }

  /** Digits ending on a complete group: the trailing space is trimmed. */
  lemma TrimGroupedComplete(d: string)
    requires AllDigits(d) && d != [] && |d| % 4 == 0
    ensures var g := GroupDigits(d); |g| >= 1 && Trim(g) == g[..|g| - 1]
  {
    var g := GroupDigits(d);
    GroupLength(d);
    var q := |d| / 4;
    assert |g| == 5 * q;
    var last := 5 * (q - 1) + 4;
    DivMod5(q - 1, 4);
    DivMod5(q - 1, 3);
    DivMod5(0, 0);
    GroupAt(d, 0);
    GroupAt(d, last);
    GroupAt(d, last - 1);
    TrimStartKeeps(g);
    TrimEndOne(g);
  }

  /** Otherwise the grouped digits have nothing to trim. */
  lemma TrimGroupedPartial(d: string)
    requires AllDigits(d) && (d == [] || |d| % 4 != 0)
    ensures Trim(GroupDigits(d)) == GroupDigits(d)
  {
    var g := GroupDigits(d);
    if d != [] {
      GroupLength(d);
      var q := |d| / 4;
      var rem := |d| % 4;
      assert |g| == 5 * q + rem;
      var last := 5 * q + (rem - 1);
      DivMod5(0, 0);
      DivMod5(q, rem - 1);
      GroupAt(d, 0);
      GroupAt(d, last);
      TrimStartKeeps(g);
      TrimEndKeeps(g);
    }
  }

  /** For digits, the card-number field holds the digits with one space
      after each complete group of four, except at the very end: position i
      is a space exactly when i % 5 == 4, there is no leading or trailing
      space, and the length grows by one per inner group boundary. */
  lemma CardNumberLayout(d: string)
    requires AllDigits(d)
    ensures var r := FormatCardNumber(d);
      && |r| == (if d == [] then 0 else |d| + (|d| - 1) / 4)
      && (r != [] ==> r[0] != ' ' && r[|r| - 1] != ' ')
      && (forall i :: 0 <= i < |r| ==>
            && (r[i] == ' ' <==> i % 5 == 4)
            && (i % 5 != 4 ==> r[i] == d[i / 5 * 4 + i % 5]))
  {
    assert forall i :: 0 <= i < |d| ==> !IsWhitespace(d[i]);
    StripNoWhitespace(d);
    assert FormatCardNumber(d) == Trim(GroupDigits(d));
    if d != [] && |d| % 4 == 0 {
      CompleteLayout(d);
    } else {
      PartialLayout(d);
    }
  }

  /** CardNumberLayout when the digits end on a complete group. */
  lemma CompleteLayout(d: string)
    requires AllDigits(d) && d != [] && |d| % 4 == 0
    ensures var r := Trim(GroupDigits(d));
      && |r| == |d| + (|d| - 1) / 4
      && r[0] != ' ' && r[|r| - 1] != ' '
      && (forall i :: 0 <= i < |r| ==>
            && (r[i] == ' ' <==> i % 5 == 4)
            && (i % 5 != 4 ==> r[i] == d[i / 5 * 4 + i % 5]))
  {
    var g := GroupDigits(d);
    TrimGroupedComplete(d);
    GroupLength(d);
    var r := g[..|g| - 1];
    var q := |d| / 4;
    assert |r| == 5 * q - 1;
    forall i | 0 <= i < |r|
      ensures (r[i] == ' ' <==> i % 5 == 4) && (i % 5 != 4 ==> r[i] == d[i / 5 * 4 + i % 5])
    {
      GroupAt(d, i);
    }
    DivMod5(q - 1, 3);
    DivMod5(0, 0);
  }

  /** CardNumberLayout otherwise: the grouped digits are the field. */
  lemma PartialLayout(d: string)
    requires AllDigits(d) && (d == [] || |d| % 4 != 0)
    ensures var r := Trim(GroupDigits(d));
      && |r| == (if d == [] then 0 else |d| + (|d| - 1) / 4)
      && (r != [] ==> r[0] != ' ' && r[|r| - 1] != ' ')
      && (forall i :: 0 <= i < |r| ==>
            && (r[i] == ' ' <==> i % 5 == 4)
            && (i % 5 != 4 ==> r[i] == d[i / 5 * 4 + i % 5]))
  {
    var g := GroupDigits(d);
    TrimGroupedPartial(d);
    GroupLength(d);
    forall i | 0 <= i < |g|
      ensures (g[i] == ' ' <==> i % 5 == 4) && (i % 5 != 4 ==> g[i] == d[i / 5 * 4 + i % 5])
    {
      GroupAt(d, i);
    }
    if d != [] {
      var q := |d| / 4;
      var rem := |d| % 4;
      assert |g| == 5 * q + rem;
      DivMod5(q, rem - 1);
      DivMod5(0, 0);
    }
  }

  /** Because the length check counts the formatting spaces, a formatted
      number passes it from thirteen digits on. */
  lemma FormattedNumberPassesFrom13(d: string)
    requires AllDigits(d)
    ensures |FormatCardNumber(d)| >= 16 <==> |d| >= 13
  {
    CardNumberLayout(d);
  }

  /** A formatted expiry has the MM/YY shape exactly when at least four
      digits were typed. */
  lemma ExpiryAcceptedIffFourDigits(value: string)
    ensures IsMMYY(FormatExpiry(value)) <==> |DigitsOnly(value)| >= 4
  {
    var d := DigitsOnly(value);
    DigitsOnlyDigits(value);
    if |d| >= 2 {
      ExpiryLayoutLong(d);
    }
  }

  // ---------------------------------------------------------------------
  // Validation
  // ---------------------------------------------------------------------

  /** The messages `validateCardDetails` returns. */
  datatype CardError = InvalidCardNumber | InvalidExpiry | InvalidCvc

  /** `validateCardDetails`: no message when the number has at least 16
      characters (spaces included), the expiry is MM/YY and the CVC has at
      least 3 characters; otherwise the message of the first failing check,
      in the order number, expiry, CVC. */
  function ValidateCardDetails(number: string, expiry: string, cvc: string): (r: Option<CardError>)
    ensures r.None? <==> |number| >= 16 && IsMMYY(expiry) && |cvc| >= 3
    ensures r == Some(InvalidCardNumber) <==> |number| < 16
    ensures r == Some(InvalidExpiry) <==> |number| >= 16 && !IsMMYY(expiry)
    ensures r == Some(InvalidCvc) <==> |number| >= 16 && IsMMYY(expiry) && |cvc| < 3
  {
    if number == "" || |number| < 16 then Some(InvalidCardNumber)
    else if expiry == "" || !IsMMYY(expiry) then Some(InvalidExpiry)
    else if cvc == "" || |cvc| < 3 then Some(InvalidCvc)
    else None
  }

  // ---------------------------------------------------------------------
  // The card form
  // ---------------------------------------------------------------------

  /** The three inputs of the form, by their `name`. */
  datatype Field = NumberField | ExpiryField | CvcField

  /** The answer to the process-payment call: the call threw (with the
      server's or the transport's message), or it answered. */
  datatype PaymentReply = PaymentThrew(reason: string) | PaymentAnswered(status: string, message: string)

  /** The answer to the select-seat call. */
  datatype BookingReply = BookingThrew(reason: string) | BookingAnswered(message: string)

  /** The messages the form shows. */
  datatype FormError =
    | CardInvalid(card: CardError)     // the validator's message
    | PaymentFailed(message: string)   // "Payment failed: " + message
    | BookingNotConfirmed              // "Failed to book seat"
    | BookingError(reason: string)     // "Failed to book seat: " + reason
    | Unexpected(reason: string)       // "An unexpected error occurred: " + reason

  /** The body of the process-payment call. */
  datatype CardPayload = CardPayload(transactionId: string, number: string, expiry: string, cvc: string)

  /** The body of the select-seat call. */
  datatype SeatRequest = SeatRequest(gameId: string, seatNumber: int, paymentIntentId: string)

  /** The confirmation the booking endpoint sends; any other message is a failure. */
  const SeatBooked: string := "Seat booked successfully"

  class PaymentForm {
    var number: string
    var expiry: string
    var cvc: string
    var processing: bool
    var error: Option<FormError>

    /** Between submits nothing is being processed. */
    ghost predicate Valid()
      reads this
    {
      !processing
    }

    constructor ()
      ensures Valid()
      ensures number == "" && expiry == "" && cvc == "" && error == None
    {
      number, expiry, cvc := "", "", "";
      processing, error := false, None;
    }

    /** `handleInputChange`: the number and the expiry are stored formatted,
        the CVC as typed; the other fields keep their values. */
    method HandleInputChange(field: Field, value: string)
      requires Valid()
      modifies this`number, this`expiry, this`cvc
      ensures Valid()
      ensures number == if field == NumberField then FormatCardNumber(value) else old(number)
      ensures expiry == if field == ExpiryField then FormatExpiry(value) else old(expiry)
      ensures cvc == if field == CvcField then value else old(cvc)
    {
      match field
      case NumberField => number := FormatCardNumber(value);
      case ExpiryField => expiry := FormatExpiry(value);
      case CvcField => cvc := value;
    }

    /** `handleSubmit`. `payment` and `booking` are the answers of the two
        calls. Validation failure makes no call; the payment call carries
        the card fields with spaces and slashes removed; the booking call is
        made only after a payment answered with status "success"; success
        (the caller's `onSuccess`) only on the exact confirmation message;
        every other outcome leaves a message; processing ends false. */
    method HandleSubmit(clientSecret: string, gameId: string, seatNumber: int,
                        payment: PaymentReply, booking: BookingReply)
      returns (charge: Option<CardPayload>, seatCall: Option<SeatRequest>, succeeded: bool)
      requires Valid()
      modifies this`processing, this`error
      ensures Valid()
      ensures var v := ValidateCardDetails(number, expiry, cvc);
        && (charge.Some? <==> v.None?)
        && (v.Some? ==> error == Some(CardInvalid(v.value)))
      ensures charge.Some? ==>
        charge.value == CardPayload(clientSecret, StripWhitespace(number), RemoveSlashes(expiry), cvc)
      ensures seatCall.Some? <==> charge.Some? && payment.PaymentAnswered? && payment.status == "success"
      ensures seatCall.Some? ==> seatCall.value == SeatRequest(gameId, seatNumber, clientSecret)
      ensures succeeded <==> seatCall.Some? && booking == BookingAnswered(SeatBooked)
      ensures succeeded <==> error.None?
      ensures charge.Some? && payment.PaymentThrew? ==> error == Some(Unexpected(payment.reason))
      ensures charge.Some? && payment.PaymentAnswered? && payment.status != "success" ==>
        error == Some(PaymentFailed(payment.message))
      ensures seatCall.Some? && booking.BookingThrew? ==> error == Some(BookingError(booking.reason))
      ensures seatCall.Some? && booking.BookingAnswered? && booking.message != SeatBooked ==>
        error == Some(BookingNotConfirmed)
    {
      processing := true;
      error := None;
      charge, seatCall, succeeded := None, None, false;
      var validationError := ValidateCardDetails(number, expiry, cvc);
      if validationError.Some? {
        error := Some(CardInvalid(validationError.value));
        processing := false;
        return;
      }
      charge := Some(CardPayload(clientSecret, StripWhitespace(number), RemoveSlashes(expiry), cvc));
      match payment {
        case PaymentThrew(reason) =>
          error := Some(Unexpected(reason));
        case PaymentAnswered(status, message) =>
          if status == "success" {
            seatCall := Some(SeatRequest(gameId, seatNumber, clientSecret));
            match booking {
              case BookingThrew(reason) =>
                error := Some(BookingError(reason));
              case BookingAnswered(seatMessage) =>
                if seatMessage == SeatBooked {
                  succeeded := true;
                } else {
                  error := Some(BookingNotConfirmed);
                }
            }
          } else {
            error := Some(PaymentFailed(message));
          }
      }
      processing := false;
    }
  }

  // ---------------------------------------------------------------------
  // The page and its payment status
  // ---------------------------------------------------------------------

  datatype PaymentStatus = Pending | Success | Failed

  /** What can change the status: the form's `onSuccess`, and the
      "Try Again" button, which is rendered only on the failed screen. */
  datatype StatusEvent = PaymentSucceeded | RetryClicked

  /** The status after one event: a reported success always gives success;
      a retry turns failed back into pending and changes nothing else;
      failed is never entered. */
  function NextStatus(s: PaymentStatus, e: StatusEvent): (r: PaymentStatus)
    ensures r == Success <==> e == PaymentSucceeded || s == Success
    ensures r == Pending <==> e == RetryClicked && s != Success
    ensures r != Failed
  {
    match e
    case PaymentSucceeded => Success
    case RetryClicked => if s == Success then Success else Pending
  }

  function Run(s: PaymentStatus, events: seq<StatusEvent>): PaymentStatus
    decreases |events|
  {
    if events == [] then s else Run(NextStatus(s, events[0]), events[1..])
  }

  /** Starting from any status but `failed`, no sequence of events reaches
      `failed` (nothing sets it), and `success` is reached exactly when it
      was already there or the form reported a success. */
  lemma {:induction false} StatusNeverFails(s: PaymentStatus, events: seq<StatusEvent>)
    requires s != Failed
    ensures Run(s, events) != Failed
    ensures Run(s, events) == Success <==> s == Success || PaymentSucceeded in events
    decreases |events|
  {
    if events != [] {
      StatusNeverFails(NextStatus(s, events[0]), events[1..]);
      assert events == [events[0]] + events[1..];
    }
  }

  /** The answer to the create-payment-intent call made on mount. */
  datatype IntentReply = IntentThrew(reason: string) | IntentAnswered(clientSecret: Option<string>, amount: int)

  class PaymentPage {
    const gameId: string
    const seatNumber: int
    var clientSecret: Option<string>
    var price: int
    var error: Option<string>
    var isLoading: bool
    var paymentStatus: PaymentStatus

    /** The failed status is never held. */
    ghost predicate Valid()
      reads this
    {
      paymentStatus != Failed
    }

    /** The page as first rendered: loading, pending, no client secret, price 0. */
    constructor (gameId: string, seatNumber: int)
      ensures Valid()
      ensures this.gameId == gameId && this.seatNumber == seatNumber
      ensures paymentStatus == Pending && isLoading && clientSecret == None && price == 0 && error == None
    {
      this.gameId, this.seatNumber := gameId, seatNumber;
      clientSecret, price, error := None, 0, None;
      isLoading, paymentStatus := true, Pending;
    }

    /** `createPaymentIntent`: an answer stores the client secret and the
        amount; a failure stores the message; loading ends either way. */
    method InitPaymentIntent(reply: IntentReply)
      requires Valid()
      modifies this`clientSecret, this`price, this`error, this`isLoading
      ensures Valid() && !isLoading
      ensures reply.IntentAnswered? ==>
        clientSecret == reply.clientSecret && price == reply.amount && error == old(error)
      ensures reply.IntentThrew? ==>
        clientSecret == old(clientSecret) && price == old(price)
        && error == Some("Failed to initialize payment: " + reply.reason)
      ensures reply.IntentThrew? ==> !FormShown()
      ensures reply.IntentAnswered? && old(error).None? ==>
        (FormShown() <==> paymentStatus == Pending && Truthy(reply.clientSecret))
    {
      isLoading := true;
      match reply {
        case IntentAnswered(secret, amount) =>
          clientSecret := secret;
          price := amount;
        case IntentThrew(reason) =>
          error := Some("Failed to initialize payment: " + reason);
      }
      isLoading := false;
    }

    /** The card form is rendered exactly on the main screen (no error, not
        loading) while the status is pending and the client secret is a
        non-empty string. */
    function FormShown(): (shown: bool)
      reads this
      ensures shown <==>
        error.None? && !isLoading && paymentStatus == Pending
        && clientSecret.Some? && clientSecret.value != ""
    {
      error.None? && !isLoading && paymentStatus == Pending && Truthy(clientSecret)
    }

    /** `handlePaymentSuccess`: the status becomes success and the redirect
        to the game's leaderboard is scheduled. */
    method HandlePaymentSuccess() returns (redirect: Route)
      requires Valid()
      modifies this`paymentStatus
      ensures Valid()
      ensures paymentStatus == NextStatus(old(paymentStatus), PaymentSucceeded) == Success
      ensures redirect == Leaderboard(gameId)
    {
      paymentStatus := Success;
      redirect := Leaderboard(gameId);
    }
  }
}
