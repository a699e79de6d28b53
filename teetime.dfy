/** The tee start time: a 12-hour reading with an upper-case modifier, set on the
    requested day with `setHours` (no shift; seconds and milliseconds of the day's
    instant are kept). */
module TeeTime {
  import opened Common
  import opened Clock

  /** `timeRegex`: `h:mm AM` or `h:mm PM`, upper-case modifier. */
  predicate IsTeeTime(s: string) {
    MatchesTwelveHour(s, Upper)
  }

  /** The upper-case pattern refuses the lower-case modifier the event pattern takes. */
  lemma TeeTimeRefusesLowerCase(s: string)
    requires MatchesTwelveHour(s, Lower)
    ensures !IsTeeTime(s)
  {
  }

  /** `Date.prototype.setHours(hours, minutes)` in local time: the day of `date`,
      the given hours and minutes (out-of-range values carry over), and the
      seconds and milliseconds `date` already had. */
  function SetHours(date: Instant, hours: int, minutes: int): (r: Instant)
    ensures r % MinuteMs == date % MinuteMs
  {
    StartOfDay(date) + hours * HourMs + minutes * MinuteMs + date % MinuteMs
  }

  /** The hours `combineDateAndTime` hands to `setHours`, read from the hour text
      (`None` when there is no time text, so the `"09"` default applies; the inner
      `None` is NaN). "12" first becomes "00"; with `PM` and a non-empty hour text,
      the text becomes `String(parseInt(hours) + 12)`, which `parseInt` reads back
      as that number (`ParseIntOfIntToString`); NaN stays NaN. */
  function TeeHours(hours: Option<string>, modifier: Option<string>): Option<int> {
    if hours.None? then Some(9)
    else
      var h := if hours.value == "12" then "00" else hours.value;
      if modifier == Some("PM") && h != "" then
        match ParseInt(h)
        case None => None
        case Some(n) => Some(n + 12)
      else ParseInt(h)
  }

  /** The tee `combineDateAndTime`: `None` is an invalid date (a NaN field). */
  function TeeCombine(date: Instant, startTime: string): Option<Instant> {
    var parts := Split(startTime, ' ');
    var time := parts[0];
    var modifier := if |parts| > 1 then Some(parts[1]) else None;
    var fields := Split(time, ':');
    var hours := if time != "" then Some(fields[0]) else None;
    var minutes := if time != "" && |fields| > 1 then ParseInt(fields[1]) else Some(0);
    var h := TeeHours(hours, modifier);
    if h.None? || minutes.None? then None else Some(SetHours(date, h.value, minutes.value))
  }

  /** The day of `date` at the reading's minute of the day, keeping the seconds and milliseconds. */
  function TeeStart(date: Instant, t: ClockTime): Instant
    requires t.Valid()
  {
    StartOfDay(date) + MinuteOfDay(t) * MinuteMs + date % MinuteMs
  }

  // ---------------------------------------------------------------------------
  // What `combineDateAndTime` computes on admitted times

  /** Where `split(' ')` and then `split(':')` cut a time written `h:mm XM`. */
  lemma TimePieces(h: string, m: string, w: string)
    requires forall i :: 0 <= i < |h| ==> IsDigit(h[i])
    requires forall i :: 0 <= i < |m| ==> IsDigit(m[i])
    requires ' ' !in w
    ensures Split(h + [':'] + m + [' '] + w, ' ') == [h + [':'] + m] + [w]
    ensures Split(h + [':'] + m, ':') == [h] + [m]
  {
    var time := h + [':'] + m;
    assert ' ' !in h && ':' !in h by {
      forall i | 0 <= i < |h| ensures h[i] != ' ' && h[i] != ':' { assert IsDigit(h[i]); }
    }
    assert ' ' !in m && ':' !in m by {
      forall i | 0 <= i < |m| ensures m[i] != ' ' && m[i] != ':' { assert IsDigit(m[i]); }
    }
    assert ' ' !in time;
    SplitAtFirst(time, ' ', w);
    SplitWithoutSeparator(w, ' ');
    SplitAtFirst(h, ':', m);
    SplitWithoutSeparator(m, ':');
  }

  /** The hour arithmetic on an admitted hour text: 12 counts as 0 and `PM` adds 12. */
  lemma TeeHoursOfField(h: string, pm: bool)
    requires HourField(h)
    ensures DigitsValue(h) <= 12
    ensures TeeHours(Some(h), Some(Meridiem(pm, Upper)))
            == Some((if DigitsValue(h) == 12 then 0 else DigitsValue(h)) + if pm then 12 else 0)
  {
    HourFieldValue(h);
    if h == "12" {
      TeeHoursOfTwelveField(h, pm);
    } else {
      TeeHoursOfOtherField(h, pm);
    }
  }

  lemma TeeHoursOfTwelveField(h: string, pm: bool)
    requires h == "12"
    ensures DigitsValue(h) == 12
    ensures TeeHours(Some(h), Some(Meridiem(pm, Upper))) == Some(if pm then 12 else 0)
  {
    DigitsValueOfTwo(h);
    TeeHoursOfTwelve(pm);
  }

  lemma TeeHoursOfOtherField(h: string, pm: bool)
    requires HourField(h) && h != "12"
    ensures DigitsValue(h) < 12
    ensures TeeHours(Some(h), Some(Meridiem(pm, Upper))) == Some(DigitsValue(h) + if pm then 12 else 0)
  {
    HourFieldBelowTwelve(h);
    TeeHoursOfDigits(h, pm);
  }

  /** The only admitted hour text worth 12 is "12". */
  lemma HourFieldBelowTwelve(h: string)
    requires HourField(h) && h != "12"
    ensures (forall i :: 0 <= i < |h| ==> IsDigit(h[i])) && DigitsValue(h) < 12
  {
    HourFieldValue(h);
    if |h| == 2 {
      DigitsValueOfTwo(h);
      assert h[0] != '1' || h[1] != '2';
    } else {
      DigitsValueOfOne(h);
    }
  }

  lemma TeeHoursOfReading(h: string, w: string, t: ClockTime)
    requires t.Valid() && HourField(h) && w == Meridiem(t.pm, Upper)
    requires forall i :: 0 <= i < |h| ==> IsDigit(h[i])
    requires DigitsValue(h) == t.hour
    ensures TeeHours(Some(h), Some(w)) == Some((if t.hour == 12 then 0 else t.hour) + if t.pm then 12 else 0)
  {
    TeeHoursOfField(h, t.pm);
  }

  lemma TeeHoursOfTwelve(pm: bool)
    ensures TeeHours(Some("12"), Some(Meridiem(pm, Upper))) == Some(if pm then 12 else 0)
  {
    ParseIntOfZeroZero();
  }

  lemma TeeHoursOfDigits(h: string, pm: bool)
    requires |h| >= 1 && forall i :: 0 <= i < |h| ==> IsDigit(h[i])
    requires h != "12"
    ensures TeeHours(Some(h), Some(Meridiem(pm, Upper))) == Some(DigitsValue(h) + if pm then 12 else 0)
  {
    var n := DigitsValue(h);
    ParseIntOfDigits(h);
    TeeHoursOfParsed(h, pm, n);
  }

  lemma TeeHoursOfParsed(h: string, pm: bool, n: int)
    requires h != "" && h != "12" && ParseInt(h) == Some(n)
    ensures TeeHours(Some(h), Some(Meridiem(pm, Upper))) == Some(n + if pm then 12 else 0)
  {
    MeridiemIsPm(pm);
  }

  lemma MeridiemIsPm(pm: bool)
    ensures (Meridiem(pm, Upper) == "PM") == pm
  {
    if !pm {
      assert Meridiem(pm, Upper)[0] == 'A';
    }
  }

  lemma ParseIntOfZeroZero()
    ensures ParseInt("00") == Some(0)
  {
    var zero := "00";
    DigitsValueOfTwo(zero);
    ParseIntOfDigits(zero);
  }

  /** On every time the schema admits, `setHours` gets the reading's hour on a
      24-hour clock and its minutes. */
  lemma TeeCombineValid(date: Instant, s: string)
    requires IsTeeTime(s)
    ensures TeeCombine(date, s) == Some(TeeStart(date, ReadClock(s, Upper)))
  {
    var h, m, w := TeeTimePieces(s);
    TeeCombineOfReading(date, s, h, m, w, ReadClock(s, Upper));
  }

  /** `combineDateAndTime` on a text cut into the pieces of a reading. */
  lemma TeeCombineOfReading(date: Instant, s: string, h: string, m: string, w: string, t: ClockTime)
    requires t.Valid()
    requires Split(s, ' ') == [h + [':'] + m] + [w]
    requires Split(h + [':'] + m, ':') == [h] + [m]
    requires HourField(h) && MinuteField(m)
    requires forall i :: 0 <= i < |h| ==> IsDigit(h[i])
    requires forall i :: 0 <= i < |m| ==> IsDigit(m[i])
    requires w == Meridiem(t.pm, Upper) && DigitsValue(h) == t.hour && DigitsValue(m) == t.minute
    ensures TeeCombine(date, s) == Some(TeeStart(date, t))
  {
    var hours := (if t.hour == 12 then 0 else t.hour) + if t.pm then 12 else 0;
    TeeHoursOfReading(h, w, t);
    ParseIntOfDigits(m);
    TeeCombineOfPieces(date, s, h, m, w, hours, t.minute);
    SetHoursOfReading(date, t);
  }

  /** An admitted time cut into its hour, minute and modifier texts. */
  lemma TeeTimePieces(s: string) returns (h: string, m: string, w: string)
    requires IsTeeTime(s)
    ensures Split(s, ' ') == [h + [':'] + m] + [w]
    ensures Split(h + [':'] + m, ':') == [h] + [m]
    ensures HourField(h) && MinuteField(m)
    ensures forall i :: 0 <= i < |h| ==> IsDigit(h[i])
    ensures forall i :: 0 <= i < |m| ==> IsDigit(m[i])
    ensures var t := ReadClock(s, Upper);
            && w == Meridiem(t.pm, Upper) && DigitsValue(h) == t.hour && DigitsValue(m) == t.minute
  {
    h, m, w := ClockPieces(s, Upper);
    TimePieces(h, m, w);
  }

  /** `setHours` with a reading's 24-hour hour and its minutes lands on the reading's minute of the day. */
  lemma SetHoursOfReading(date: Instant, t: ClockTime)
    requires t.Valid()
    ensures SetHours(date, (if t.hour == 12 then 0 else t.hour) + (if t.pm then 12 else 0), t.minute) == TeeStart(date, t)
  {
    HoursOfDay(t);
  }

  /** `combineDateAndTime` on a text that splits into an hour, a minute and a modifier. */
  lemma TeeCombineOfPieces(date: Instant, s: string, h: string, m: string, w: string, hours: int, minutes: int)
    requires Split(s, ' ') == [h + [':'] + m] + [w]
    requires Split(h + [':'] + m, ':') == [h] + [m]
    requires TeeHours(Some(h), Some(w)) == Some(hours) && ParseInt(m) == Some(minutes)
    ensures TeeCombine(date, s) == Some(SetHours(date, hours, minutes))
  {
    var time := h + [':'] + m;
    assert time != "";
  }

  /** The tee stays on the requested day: no shift, the reading's minute of the
      day, and the seconds and milliseconds of the requested instant. */
  lemma TeeStartSameDay(date: Instant, t: ClockTime)
    requires t.Valid()
    ensures StartOfDay(TeeStart(date, t)) == StartOfDay(date)
    ensures TeeStart(date, t) % MinuteMs == date % MinuteMs
    ensures (TeeStart(date, t) - StartOfDay(date)) / MinuteMs == MinuteOfDay(t)
  {
    var midnight, m, r := StartOfDay(date), MinuteOfDay(t), date % MinuteMs;
    var offset := m * MinuteMs + r;
    assert TeeStart(date, t) == midnight + offset;
    StartOfDayWithin(midnight, offset);
    var k := midnight / DayMs;
    assert midnight == k * DayMs;
    assert midnight + offset == (k * 1440 + m) * MinuteMs + r;
    WholeMinutes(k * 1440 + m, r);
    WholeMinutes(m, r);
  }

  /** Whole minutes plus a remainder below a minute split back into the two. */
  lemma WholeMinutes(q: int, r: int)
    requires 0 <= r < MinuteMs
    ensures (q * MinuteMs + r) % MinuteMs == r && (q * MinuteMs + r) / MinuteMs == q
  {
  }

  /** Every minute of the day is reached by some admitted time. */
  lemma TeeTimeCoversDay(date: Instant, minute: nat)
    requires minute < 24 * 60
    ensures exists s {:trigger TeeCombine(date, s)} ::
              IsTeeTime(s) && TeeCombine(date, s) == Some(StartOfDay(date) + minute * MinuteMs + date % MinuteMs)
  {
    TeeStartOfMinute(date, minute);
    var s := TeeRendering(date, ClockOfMinute(minute));
  }

  lemma TeeStartOfMinute(date: Instant, minute: nat)
    requires minute < 24 * 60
    ensures TeeStart(date, ClockOfMinute(minute)) == StartOfDay(date) + minute * MinuteMs + date % MinuteMs
  {
    MinuteOfDayOfClock(minute);
  }

  /** The unpadded rendering of a reading is admitted and starts the tee at that reading. */
  lemma TeeRendering(date: Instant, t: ClockTime) returns (s: string)
    requires t.Valid()
    ensures IsTeeTime(s) && TeeCombine(date, s) == Some(TeeStart(date, t))
  {
    s := Render(t, false, Upper);
    RenderMatches(t, false, Upper);
    TeeCombineValid(date, s);
  }

  /** An empty start time falls back to 09:00. */
  lemma TeeDefaultTime(date: Instant)
    ensures TeeCombine(date, "") == Some(SetHours(date, 9, 0))
  {
    SplitWithoutSeparator("", ' ');
  }

  /** A time text without a colon keeps its hour and falls back to minute 0. */
  lemma TeeDefaultMinutes(date: Instant, h: string)
    requires |h| >= 1 && forall i :: 0 <= i < |h| ==> IsDigit(h[i])
    requires h != "12"
    ensures TeeCombine(date, h) == Some(SetHours(date, DigitsValue(h), 0))
  {
    DigitsAreNotSeparators(h);
    SplitWithoutSeparator(h, ' ');
    SplitWithoutSeparator(h, ':');
    ParseIntOfDigits(h);
    var n := DigitsValue(h);
    TeeCombineOfBareHour(date, h, n);
  }

  lemma DigitsAreNotSeparators(h: string)
    requires forall i :: 0 <= i < |h| ==> IsDigit(h[i])
    ensures ' ' !in h && ':' !in h
  {
    forall i | 0 <= i < |h| ensures h[i] != ' ' && h[i] != ':' { assert IsDigit(h[i]); }
  }

  /** `combineDateAndTime` on an hour text with no separator at all. */
  lemma TeeCombineOfBareHour(date: Instant, h: string, n: int)
    requires h != "" && h != "12" && ParseInt(h) == Some(n)
    requires Split(h, ' ') == [h] && Split(h, ':') == [h]
    ensures TeeCombine(date, h) == Some(SetHours(date, n, 0))
  {
  }
}
