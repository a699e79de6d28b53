/** Shared vocabulary of the controllers: optional values, request bodies as JSON,
    handler responses, the bearer-token guard, and the few JavaScript string
    conversions (split, parseInt, number-to-string) that the controllers rely on. */
module Common {

  datatype Option<T> = None | Some(value: T)

  /** A point in time: milliseconds of local wall-clock time. */
  type Instant = int

  const MinuteMs: int := 60_000
  const HourMs: int := 3_600_000
  const DayMs: int := 86_400_000

  /** date-fns `startOfDay`: midnight of the day that contains `t`. */
  function StartOfDay(t: Instant): (r: Instant)
    ensures r <= t < r + DayMs
    ensures r % DayMs == 0
  {
    t - t % DayMs
  }

  /** Adding less than a day to a midnight stays on that day. */
  lemma StartOfDayWithin(midnight: Instant, offset: int)
    requires midnight % DayMs == 0 && 0 <= offset < DayMs
    ensures StartOfDay(midnight + offset) == midnight
  {
    var k := midnight / DayMs;
    assert midnight == k * DayMs;
    assert midnight + offset == k * DayMs + offset;
  }

  /** A JSON value as `express.json()` hands it to a handler. Numbers are exact. */
  datatype Json =
    | JNull
    | JBool(b: bool)
    | JNumber(n: real)
    | JString(s: string)
    | JArray(items: seq<Json>)
    | JObject(fields: map<string, Json>)

  /** A request body: a JSON object. */
  type Body = map<string, Json>

  /** One Zod issue: the offending key and the message. */
  datatype Issue = Issue(path: string, message: string)

  /** What a handler sends back. */
  datatype Response<T> =
    | Ok(status: int, value: T)            // 200 or 201 with a payload
    | Refused(status: int, reason: string) // a plain error status (401, 403, 404, 500, ...)
    | BadRequest(issues: seq<Issue>)       // 400 with the validation issues
  {
    function Code(): int {
      match this
      case Ok(s, _) => s
      case Refused(s, _) => s
      case BadRequest(_) => 400
    }
  }

  /** Outcome of the bearer-token guard that opens most handlers. */
  datatype Auth = Forbidden | Unauthorised | Caller(usersId: string)

  /** `if (!token) 403; usersId = await getUser(token); if (!usersId) 401`.
      `getUser` stands for the identity provider (src/utils.ts), which is not part of this model. */
  function Authenticate(token: Option<string>, getUser: string -> Option<string>): (a: Auth)
    ensures a == Forbidden <==> token == None || token == Some("")
    ensures a.Caller? ==> a.usersId != "" && token.Some? && getUser(token.value) == Some(a.usersId)
    ensures a == Unauthorised ==> getUser(token.value) in {None, Some("")}
  {
    if token == None || token.value == "" then Forbidden
    else
      match getUser(token.value)
      case None => Unauthorised
      case Some(u) => if u == "" then Unauthorised else Caller(u)
  }

  // ---------------------------------------------------------------------------
  // Reading JSON fields

  function StringField(body: Body, key: string): Option<string> {
    if key in body && body[key].JString? then Some(body[key].s) else None
  }

  function NumberField(body: Body, key: string): Option<real> {
    if key in body && body[key].JNumber? then Some(body[key].n) else None
  }

  // ---------------------------------------------------------------------------
  // String.prototype.split with a one-character separator

  /** `s.split(sep)`: the pieces between occurrences of `sep`; never empty. */
  function Split(s: string, sep: char): (parts: seq<string>)
    ensures |parts| >= 1
    ensures forall i :: 0 <= i < |parts| ==> sep !in parts[i]
  {
    if |s| == 0 then [""]
    else
      var rest := Split(s[1..], sep);
      if s[0] == sep then [""] + rest else [[s[0]] + rest[0]] + rest[1..]
  }

  lemma {:induction false} SplitWithoutSeparator(a: string, sep: char)
    requires sep !in a
    ensures Split(a, sep) == [a]
  {
    if |a| > 0 {
      SplitWithoutSeparator(a[1..], sep);
      assert [a[0]] + a[1..] == a;
    }
  }

  /** Splitting at the first separator: the text before it, then the split of the rest. */
  lemma {:induction false} SplitAtFirst(a: string, sep: char, b: string)
    requires sep !in a
    ensures Split(a + [sep] + b, sep) == [a] + Split(b, sep)
  {
    if |a| == 0 {
      assert a + [sep] + b == [sep] + b;
      assert ([sep] + b)[1..] == b;
    } else {
      var s := a + [sep] + b;
      SplitAtFirst(a[1..], sep, b);
      assert s[1..] == a[1..] + [sep] + b;
      var rest := Split(s[1..], sep);
      assert rest[0] == a[1..] && rest[1..] == Split(b, sep);
      assert s[0] == a[0] && a[0] != sep;
      assert Split(s, sep) == [[a[0]] + rest[0]] + rest[1..];
      assert [a[0]] + a[1..] == a;
    }
  }

  // ---------------------------------------------------------------------------
  // String length as JavaScript counts it

  /** `s.length`: UTF-16 code units, so a character outside the Basic
      Multilingual Plane (a surrogate pair) counts twice. */
  function Utf16Length(s: string): (n: nat)
    ensures |s| <= n <= 2 * |s|
  {
    if s == [] then 0 else (if s[0] as int >= 0x1_0000 then 2 else 1) + Utf16Length(s[1..])
  }

  /** Text of the Basic Multilingual Plane has as many code units as characters. */
  lemma {:induction false} Utf16LengthOfBmp(s: string)
    requires forall i :: 0 <= i < |s| ==> s[i] as int < 0x1_0000
    ensures Utf16Length(s) == |s|
  {
    if s != [] {
      assert forall i :: 0 <= i < |s| - 1 ==> s[1..][i] == s[i + 1];
      Utf16LengthOfBmp(s[1..]);
    }
  }

  /** A single emoji is one character but two code units. */
  lemma AstralCharacterLength()
    ensures |"\U{1F600}"| == 1 && Utf16Length("\U{1F600}") == 2
  {
  }

  // ---------------------------------------------------------------------------
  // Decimal digits

  predicate IsDigit(c: char) {
    '0' <= c <= '9'
  }

  function DigitValue(c: char): (d: nat)
    requires IsDigit(c)
    ensures d < 10
  {
    (c as int - '0' as int)
  }

  function DigitChar(d: nat): (c: char)
    requires d < 10
    ensures IsDigit(c) && DigitValue(c) == d
  {
    ('0' as int + d) as char
  }

  /** The number a string of digits spells, most significant digit first. */
  function DigitsValue(ds: string): nat
    requires forall i :: 0 <= i < |ds| ==> IsDigit(ds[i])
  {
    if ds == [] then 0 else DigitsValue(ds[..|ds| - 1]) * 10 + DigitValue(ds[|ds| - 1])
  }

  lemma DigitsValueOfOne(s: string)
    requires |s| == 1 && IsDigit(s[0])
    ensures DigitsValue(s) == DigitValue(s[0])
  {
    assert s[..0] == [];
  }

  lemma DigitsValueOfTwo(s: string)
    requires |s| == 2 && IsDigit(s[0]) && IsDigit(s[1])
    ensures DigitsValue(s) == DigitValue(s[0]) * 10 + DigitValue(s[1])
  {
    DigitsValueOfOne(s[..1]);
  }

  /** The white space `parseInt` skips before the number. */
  predicate IsSpace(c: char) {
    || c == ' ' || c == '\t' || c == '\n' || c == '\r' || c == '\U{000B}'
    || c == '\U{000C}' || c == '\U{00A0}' || c == '\U{FEFF}' || c == '\U{2028}' || c == '\U{2029}'
  }

  /** Where the white space that starts at `i` ends. */
  function SpaceEnd(s: string, i: nat): (j: nat)
    requires i <= |s|
    ensures i <= j <= |s|
    ensures j < |s| ==> !IsSpace(s[j])
    decreases |s| - i
  {
    if i == |s| || !IsSpace(s[i]) then i else SpaceEnd(s, i + 1)
  }

  /** Where the run of digits that starts at `i` ends. */
  function DigitsEnd(s: string, i: nat): (j: nat)
    requires i <= |s|
    ensures i <= j <= |s|
    ensures j < |s| ==> !IsDigit(s[j])
    decreases |s| - i
  {
    if i == |s| || !IsDigit(s[i]) then i else DigitsEnd(s, i + 1)
  }

  /** The number the digits `s[i..j]` spell, read in place (a character that is
      not a digit counts as 0; `parseInt` only reads runs of digits). */
  function SpanValue(s: string, i: nat, j: nat): nat
    requires i <= j <= |s|
    decreases j
  {
    if j == i then 0 else SpanValue(s, i, j - 1) * 10 + if IsDigit(s[j - 1]) then DigitValue(s[j - 1]) else 0
  }

  /** `parseInt(s, 10)`: skip white space, read an optional sign and the leading
      digits; `None` stands for NaN (no digit at all). */
  function ParseInt(s: string): Option<int> {
    var i := SpaceEnd(s, 0);
    var signed := i < |s| && (s[i] == '-' || s[i] == '+');
    var start := if signed then i + 1 else i;
    var end := DigitsEnd(s, start);
    if end == start then None
    else
      var magnitude: int := SpanValue(s, start, end);
      if signed && s[i] == '-' then Some(-magnitude) else Some(magnitude)
  }

  /** Reading in place agrees with reading the slice. */
  lemma {:induction false} SpanValueOfSlice(s: string, i: nat, j: nat)
    requires i <= j <= |s| && forall k :: i <= k < j ==> IsDigit(s[k])
    ensures SpanValue(s, i, j) == DigitsValue(s[i..j])
    decreases j
  {
    if j > i {
      SpanValueOfSlice(s, i, j - 1);
      assert s[i..j][..j - i - 1] == s[i..j - 1];
    }
  }

  /** A run of digits from `i` to the end is read whole. */
  lemma {:induction false} DigitsEndOfDigits(s: string, i: nat)
    requires i <= |s| && forall k :: i <= k < |s| ==> IsDigit(s[k])
    ensures DigitsEnd(s, i) == |s|
    decreases |s| - i
  {
    if i < |s| {
      DigitsEndOfDigits(s, i + 1);
    }
  }

  /** `parseInt` of a plain run of digits is the number they spell. */
  lemma ParseIntOfDigits(ds: string)
    requires |ds| >= 1 && forall i :: 0 <= i < |ds| ==> IsDigit(ds[i])
    ensures ParseInt(ds) == Some(DigitsValue(ds))
  {
    assert IsDigit(ds[0]);
    assert SpaceEnd(ds, 0) == 0;
    DigitsEndOfDigits(ds, 0);
    SpanValueOfSlice(ds, 0, |ds|);
    assert ds[0..|ds|] == ds;
  }

  /** `String(n)` for a nonnegative integer: decimal digits, no leading zero. */
  function NatToString(n: nat): (s: string)
    ensures |s| >= 1
    ensures forall i :: 0 <= i < |s| ==> IsDigit(s[i])
    decreases n
  {
    if n < 10 then [DigitChar(n)] else NatToString(n / 10) + [DigitChar(n % 10)]
  }

  /** `String(i)` for any integer. */
  function IntToString(i: int): (s: string)
    ensures |s| >= 1
  {
    if i < 0 then "-" + NatToString(-i) else NatToString(i)
  }

  lemma {:induction false} DigitsValueOfNatToString(n: nat)
    ensures DigitsValue(NatToString(n)) == n
    decreases n
  {
    if n >= 10 {
      DigitsValueOfNatToString(n / 10);
      var s := NatToString(n / 10) + [DigitChar(n % 10)];
      assert s[..|s| - 1] == NatToString(n / 10);
    }
  }

  /** `parseInt` reads back what `String` wrote. */
  lemma ParseIntOfIntToString(i: int)
    ensures ParseInt(IntToString(i)) == Some(i)
  {
    var n: nat := if i < 0 then -i else i;
    var digits := NatToString(n);
    DigitsValueOfNatToString(n);
    if i < 0 {
      var s := "-" + digits;
      assert SpaceEnd(s, 0) == 0;
      DigitsEndOfDigits(s, 1);
      SpanValueOfSlice(s, 1, |s|);
      assert s[1..|s|] == digits;
    } else {
      ParseIntOfDigits(digits);
    }
  }

  /** Two different numbers never print the same. */
  lemma NatToStringInjective(m: nat, n: nat)
    requires NatToString(m) == NatToString(n)
    ensures m == n
  {
    DigitsValueOfNatToString(m);
    DigitsValueOfNatToString(n);
  }

  /** `Number(s)` where the result keys an integer column: a plain run of decimal
      digits (the empty string reads as 0); anything else stands for NaN or a
      non-integer, which the store refuses as a key. */
  function NumberValue(s: string): (r: Option<nat>)
    ensures r.Some? <==> forall i :: 0 <= i < |s| ==> IsDigit(s[i])
  {
    if forall i :: 0 <= i < |s| ==> IsDigit(s[i]) then Some(DigitsValue(s)) else None
  }

}
