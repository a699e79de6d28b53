/** The 12-hour start-time format the event and tee schemas validate:
    `^(0?[1-9]|1[0-2]):[0-5][0-9] [ap]m$` for events, the same with `[AP]M` for tees.
    The two regular expressions differ only in the case of the modifier, so the
    shape is written once with the casing as a parameter. The module also gives an
    independent reading of a 12-hour time as a minute of the day. */
module Clock {
  import opened Common

  datatype Casing = Lower | Upper

  /** The modifier as the format spells it. */
  function Meridiem(pm: bool, casing: Casing): string {
    match casing
    case Lower => if pm then "pm" else "am"
    case Upper => if pm then "PM" else "AM"
  }

  /** `0?[1-9]|1[0-2]`, read from the first `k` characters of `s`. */
  predicate HourChars(s: string, k: nat)
    requires k <= |s|
  {
    || (k == 1 && '1' <= s[0] <= '9')
    || (k == 2 && s[0] == '0' && '1' <= s[1] <= '9')
    || (k == 2 && s[0] == '1' && '0' <= s[1] <= '2')
  }

  /** An hour text on its own. */
  predicate HourField(h: string) {
    HourChars(h, |h|)
  }

  /** `[0-5][0-9]` */
  predicate MinuteChars(a: char, b: char) {
    '0' <= a <= '5' && IsDigit(b)
  }

  predicate MinuteField(m: string) {
    |m| == 2 && MinuteChars(m[0], m[1])
  }

  /** `[ap]m` or `[AP]M`. */
  predicate ModifierChars(a: char, b: char, casing: Casing) {
    match casing
    case Lower => (a == 'a' || a == 'p') && b == 'm'
    case Upper => (a == 'A' || a == 'P') && b == 'M'
  }

  /** Whether the first letter of the modifier says afternoon. */
  predicate IsPm(a: char, casing: Casing) {
    a == (if casing == Lower then 'p' else 'P')
  }

  /** The whole anchored pattern. The hour takes one or two characters, so the
      length (7 or 8) fixes where every other part sits. */
  predicate MatchesTwelveHour(s: string, casing: Casing) {
    var n := |s|;
    && (n == 7 || n == 8)
    && HourChars(s, n - 6)
    && s[n - 6] == ':'
    && MinuteChars(s[n - 5], s[n - 4])
    && s[n - 3] == ' '
    && ModifierChars(s[n - 2], s[n - 1], casing)
  }

  /** A reading on a 12-hour clock. */
  datatype ClockTime = ClockTime(hour: nat, minute: nat, pm: bool) {
    predicate Valid() {
      1 <= hour <= 12 && minute < 60
    }
  }

  function HourText(h: nat, padded: bool): (s: string)
    requires 1 <= h <= 12
    ensures HourField(s)
  {
    if h < 10 then (if padded then "0" else "") + [DigitChar(h)] else ['1', DigitChar(h - 10)]
  }

  function MinuteText(m: nat): (s: string)
    requires m < 60
    ensures MinuteField(s)
  {
    [DigitChar(m / 10), DigitChar(m % 10)]
  }

  /** How a reading is written in the format, with or without a leading zero on a one-digit hour. */
  function Render(t: ClockTime, padded: bool, casing: Casing): string
    requires t.Valid()
  {
    HourText(t.hour, padded) + ":" + MinuteText(t.minute) + " " + Meridiem(t.pm, casing)
  }

  /** The number the first `k` characters of a matching hour spell. */
  function HourValue(s: string, k: nat): (h: nat)
    requires k <= |s| && HourChars(s, k)
    ensures 1 <= h <= 12
  {
    if k == 1 then DigitValue(s[0]) else DigitValue(s[0]) * 10 + DigitValue(s[1])
  }

  /** The reading a matching string denotes. */
  function ReadClock(s: string, casing: Casing): (t: ClockTime)
    requires MatchesTwelveHour(s, casing)
    ensures t.Valid()
  {
    var n := |s|;
    ClockTime(HourValue(s, n - 6), DigitValue(s[n - 5]) * 10 + DigitValue(s[n - 4]), IsPm(s[n - 2], casing))
  }

  /** Whether a matching string writes its hour with a leading zero. */
  function Padded(s: string): bool {
    |s| == 8 && s[0] == '0'
  }

  /** A matching string cut into its hour, minute and modifier texts, with the
      numbers they spell. */
  lemma ClockPieces(s: string, casing: Casing) returns (h: string, m: string, w: string)
    requires MatchesTwelveHour(s, casing)
    ensures s == h + [':'] + m + [' '] + w
    ensures HourField(h) && MinuteField(m)
    ensures forall i :: 0 <= i < |h| ==> IsDigit(h[i])
    ensures forall i :: 0 <= i < |m| ==> IsDigit(m[i])
    ensures var t := ReadClock(s, casing);
            && w == Meridiem(t.pm, casing) && DigitsValue(h) == t.hour && DigitsValue(m) == t.minute
    ensures Padded(s) <==> |h| == 2 && h[0] == '0'
  {
    var n := |s|;
    h, m, w := s[..n - 6], s[n - 5..n - 3], s[n - 2..];
    assert s == h + [':'] + m + [' '] + w;
    assert HourChars(h, |h|);
    if |h| == 1 { DigitsValueOfOne(h); } else { DigitsValueOfTwo(h); }
    DigitsValueOfTwo(m);
  }

  /** Every rendering matches the pattern and reads back as the same reading. */
  lemma RenderMatches(t: ClockTime, padded: bool, casing: Casing)
    requires t.Valid()
    ensures MatchesTwelveHour(Render(t, padded, casing), casing)
    ensures ReadClock(Render(t, padded, casing), casing) == t
  {
    var h := HourText(t.hour, padded);
    var m := MinuteText(t.minute);
    var w := Meridiem(t.pm, casing);
    var s := Render(t, padded, casing);
    assert s == h + ":" + m + " " + w;
    HourTextValue(t.hour, padded);
    MinuteTextValue(t.minute);
    Pieces(h, m, w);
    if |h| == 1 { DigitsValueOfOne(h); } else { DigitsValueOfTwo(h); }
    DigitsValueOfTwo(m);
  }

  /** Where the characters of `h:mm xm` sit, for an hour of one or two characters. */
  lemma Pieces(h: string, m: string, w: string)
    requires 1 <= |h| <= 2 && |m| == 2 && |w| == 2
    ensures var s := h + ":" + m + " " + w;
            var n := |s|;
            && n == |h| + 6
            && (forall i :: 0 <= i < |h| ==> s[i] == h[i])
            && s[n - 6] == ':' && s[n - 5] == m[0] && s[n - 4] == m[1] && s[n - 3] == ' '
            && s[n - 2] == w[0] && s[n - 1] == w[1]
  {
  }

  /** Every matching string is a rendering: the pattern accepts exactly
      `h:mm am|pm` with h in 1..12 (optionally zero-padded) and mm in 00..59. */
  lemma MatchesIsRendering(s: string, casing: Casing)
    requires MatchesTwelveHour(s, casing)
    ensures s == Render(ReadClock(s, casing), Padded(s), casing)
  {
    var h, m, w := ClockPieces(s, casing);
    HourFieldIsHourText(h, Padded(s));
    MinuteFieldIsMinuteText(m);
  }

  lemma HourFieldValue(h: string)
    requires HourField(h)
    ensures forall i :: 0 <= i < |h| ==> IsDigit(h[i])
    ensures 1 <= DigitsValue(h) <= 12
  {
    if |h| == 1 { DigitsValueOfOne(h); } else { DigitsValueOfTwo(h); }
  }

  lemma MinuteFieldValue(m: string)
    requires MinuteField(m)
    ensures DigitsValue(m) < 60
  {
    DigitsValueOfTwo(m);
  }

  lemma HourTextValue(h: nat, padded: bool)
    requires 1 <= h <= 12
    ensures DigitsValue(HourText(h, padded)) == h
  {
    var s := HourText(h, padded);
    if |s| == 1 { DigitsValueOfOne(s); } else { DigitsValueOfTwo(s); }
  }

  lemma MinuteTextValue(m: nat)
    requires m < 60
    ensures DigitsValue(MinuteText(m)) == m
  {
    DigitsValueOfTwo(MinuteText(m));
  }

  lemma HourFieldIsHourText(h: string, padded: bool)
    requires HourField(h)
    requires padded <==> |h| == 2 && h[0] == '0'
    ensures 1 <= DigitsValue(h) <= 12
    ensures HourText(DigitsValue(h), padded) == h
  {
    HourFieldValue(h);
    if |h| == 1 {
      OneDigitHour(h);
    } else if h[0] == '0' {
      PaddedHour(h);
    } else {
      TwoDigitHour(h);
    }
  }

  lemma OneDigitHour(h: string)
    requires |h| == 1 && '1' <= h[0] <= '9'
    ensures DigitsValue(h) == DigitValue(h[0]) && HourText(DigitsValue(h), false) == h
  {
    DigitsValueOfOne(h);
    DigitCharOfValue(h[0]);
    assert HourText(DigitValue(h[0]), false) == [h[0]];
  }

  lemma PaddedHour(h: string)
    requires |h| == 2 && h[0] == '0' && '1' <= h[1] <= '9'
    ensures DigitsValue(h) == DigitValue(h[1]) && HourText(DigitsValue(h), true) == h
  {
    DigitsValueOfTwo(h);
    DigitCharOfValue(h[1]);
    assert HourText(DigitValue(h[1]), true) == ['0', h[1]];
  }

  lemma TwoDigitHour(h: string)
    requires |h| == 2 && h[0] == '1' && '0' <= h[1] <= '2'
    ensures DigitsValue(h) == 10 + DigitValue(h[1]) && HourText(DigitsValue(h), false) == h
  {
    DigitsValueOfTwo(h);
    DigitCharOfValue(h[1]);
    assert HourText(10 + DigitValue(h[1]), false) == ['1', h[1]];
  }

  lemma DigitCharOfValue(c: char)
    requires IsDigit(c)
    ensures DigitChar(DigitValue(c)) == c
  {
  }

  lemma MinuteFieldIsMinuteText(m: string)
    requires MinuteField(m)
    ensures DigitsValue(m) < 60
    ensures MinuteText(DigitsValue(m)) == m
  {
    DigitsValueOfTwo(m);
  }

  // ---------------------------------------------------------------------------
  // 12-hour readings as minutes of the day

  /** The minute of the day a reading denotes: 12 am is midnight, 12 pm is noon. */
  function MinuteOfDay(t: ClockTime): (m: nat)
    requires t.Valid()
    ensures m < 24 * 60
    ensures m % 60 == t.minute
  {
    ((t.hour % 12) + (if t.pm then 12 else 0)) * 60 + t.minute
  }

  /** The whole hours of a reading's minute of the day: 12 counts as 0 and pm adds 12. */
  lemma HoursOfDay(t: ClockTime)
    requires t.Valid()
    ensures MinuteOfDay(t) == ((if t.hour == 12 then 0 else t.hour) + (if t.pm then 12 else 0)) * 60 + t.minute
  {
  }

  /** The reading of a minute of the day on a 12-hour clock. */
  function ClockOfMinute(m: nat): (t: ClockTime)
    requires m < 24 * 60
    ensures t.Valid()
  {
    var h := m / 60;
    ClockTime(if h % 12 == 0 then 12 else h % 12, m % 60, h >= 12)
  }

  /** Readings and minutes of the day correspond one to one (one direction). */
  lemma ClockOfMinuteOfDay(t: ClockTime)
    requires t.Valid()
    ensures ClockOfMinute(MinuteOfDay(t)) == t
  {
    var h := (t.hour % 12) + (if t.pm then 12 else 0);
    assert MinuteOfDay(t) / 60 == h;
  }

  /** Readings and minutes of the day correspond one to one (other direction). */
  lemma MinuteOfDayOfClock(m: nat)
    requires m < 24 * 60
    ensures MinuteOfDay(ClockOfMinute(m)) == m
  {
  }
}
