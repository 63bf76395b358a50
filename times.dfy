/** Timestamps and durations. Every timestamp lies in the fixed year 2000
    (a leap year), so a timestamp is a month, a day, an hour and a minute,
    and durations are whole minutes. */
module Times {
  import opened Wrappers
  import opened Text

  datatype Moment = Moment(month: int, day: int, hour: int, minute: int)

  /** Number of days in `month`; `leap` selects a 29-day February. */
  function DaysIn(month: int, leap: bool): int
  {
    if month == 2 then (if leap then 29 else 28)
    else if month == 4 || month == 6 || month == 9 || month == 11 then 30
    else 31
  }

  /** A real calendar moment (of a leap year when `leap`, else of a common year). */
  predicate InCalendar(m: Moment, leap: bool)
  {
    && 1 <= m.month <= 12
    && 1 <= m.day <= DaysIn(m.month, leap)
    && 0 <= m.hour < 24
    && 0 <= m.minute < 60
  }

  /** A datetime of the year 2000 at minute resolution. */
  type Stamp = m: Moment | InCalendar(m, true) witness Moment(1, 1, 0, 0)

  /** Days of the year 2000 before the first of `month`. */
  function DaysBefore(month: int): (r: nat)
    requires 1 <= month <= 12
  {
    if month == 1 then 0 else DaysBefore(month - 1) + DaysIn(month - 1, true)
  }

  /** Minutes from 2000-01-01 00:00 to `t`. */
  function Minutes(t: Stamp): nat
  {
    ((DaysBefore(t.month) + t.day - 1) * 24 + t.hour) * 60 + t.minute
  }

  /** Chronological order of two datetimes of the same year. */
  predicate Earlier(a: Stamp, b: Stamp)
  {
    || a.month < b.month
    || (a.month == b.month && a.day < b.day)
    || (a.month == b.month && a.day == b.day && a.hour < b.hour)
    || (a.month == b.month && a.day == b.day && a.hour == b.hour && a.minute < b.minute)
  }

  lemma {:induction false} DaysBeforeGrows(m1: int, m2: int)
    requires 1 <= m1 < m2 <= 12
    ensures DaysBefore(m1) + DaysIn(m1, true) <= DaysBefore(m2)
    decreases m2 - m1
  {
    if m1 + 1 < m2 {
      DaysBeforeGrows(m1 + 1, m2);
    }
  }

  /** Minutes is faithful to the calendar: it orders timestamps as datetime
      comparison does and tells different timestamps apart. */
  lemma EarlierIffFewerMinutes(a: Stamp, b: Stamp)
    ensures Earlier(a, b) <==> Minutes(a) < Minutes(b)
    ensures Minutes(a) == Minutes(b) <==> a == b
  {
    if a.month < b.month {
      DaysBeforeGrows(a.month, b.month);
    } else if b.month < a.month {
      DaysBeforeGrows(b.month, a.month);
    }
  }

  /** `strftime('%m-%d %H:%M')`: each field as two zero-padded digits. */
  function FmtTime(t: Stamp): string
  {
    [DigitChar(t.month / 10), DigitChar(t.month % 10), '-',
     DigitChar(t.day / 10), DigitChar(t.day % 10), ' ',
     DigitChar(t.hour / 10), DigitChar(t.hour % 10), ':',
     DigitChar(t.minute / 10), DigitChar(t.minute % 10)]
  }

  /** The shape of a date token as `fmt_time` writes it: `MM-DD HH:MM`. */
  predicate DateToken(f: string)
  {
    && |f| == 11 && f[2] == '-' && f[5] == ' ' && f[8] == ':'
    && forall k :: 0 <= k < 11 && k != 2 && k != 5 && k != 8 ==> IsDigit(f[k])
  }

  /** A formatted timestamp is a date token. */
  lemma FmtTimeToken(t: Stamp)
    ensures DateToken(FmtTime(t))
  {
    DigitRoundTrip(t.month / 10);
    DigitRoundTrip(t.month % 10);
    DigitRoundTrip(t.day / 10);
    DigitRoundTrip(t.day % 10);
    DigitRoundTrip(t.hour / 10);
    DigitRoundTrip(t.hour % 10);
    DigitRoundTrip(t.minute / 10);
    DigitRoundTrip(t.minute % 10);
  }

  /** First index at or after `i` that is not a digit. */
  function DigitsEnd(s: string, i: nat): (r: nat)
    requires i <= |s|
    ensures i <= r <= |s|
    ensures r < |s| ==> !IsDigit(s[r])
    decreases |s| - i
  {
    if i < |s| && IsDigit(s[i]) then DigitsEnd(s, i + 1) else i
  }

  /** What `DigitsEnd` passes over is digits. */
  lemma {:induction false} DigitsEndDigits(s: string, i: nat)
    requires i <= |s|
    ensures forall k :: i <= k < DigitsEnd(s, i) ==> IsDigit(s[k])
    decreases |s| - i
  {
    if i < |s| && IsDigit(s[i]) {
      DigitsEndDigits(s, i + 1);
    }
  }

  /** The separators of a date token `\d+-\d+[ ]\d\d:\d\d` starting at `i`:
      the index of its dash and of its space; the token ends six characters
      after the space. */
  function DateSplit(s: string, i: nat): (r: Option<(nat, nat)>)
    requires i <= |s|
    ensures r.Some? ==> var (a, b) := r.value;
      && i < a && a + 1 < b && b + 6 <= |s|
      && s[a] == '-' && s[b] == ' ' && s[b + 3] == ':'
      && IsDigit(s[b + 1]) && IsDigit(s[b + 2]) && IsDigit(s[b + 4]) && IsDigit(s[b + 5])
  {
    var a := DigitsEnd(s, i);
    if a == i || a == |s| || s[a] != '-' then None
    else
      var b := DigitsEnd(s, a + 1);
      if b == a + 1 || b + 6 > |s| || s[b] != ' ' || !IsDigit(s[b + 1]) || !IsDigit(s[b + 2])
         || s[b + 3] != ':' || !IsDigit(s[b + 4]) || !IsDigit(s[b + 5])
      then None
      else Some((a, b))
  }

  /** Where a date token starting at `i` ends, if one starts there. */
  function DateEnd(s: string, i: nat): (r: Option<nat>)
    requires i <= |s|
    ensures r.Some? ==> i < r.value <= |s|
  {
    match DateSplit(s, i)
    case None => None
    case Some((_, b)) => Some(b + 6)
  }

  /** A date token that does not start with digits followed by a dash is none. */
  lemma DateEndNeedsDash(s: string, i: nat)
    requires i <= |s|
    requires forall k :: i <= k < |s| ==> s[k] != '-'
    ensures DateEnd(s, i).None?
  {
  }

  /** The value of the decimal digits `s[i..j]`, read in place. */
  function NumberAt(s: string, i: nat, j: nat): int
    requires i <= j <= |s|
    decreases j - i
  {
    if j == i then 0 else NumberAt(s, i, j - 1) * 10 + (s[j - 1] as int - '0' as int)
  }

  /** The ValueError that `strptime` raises for the stripped text. */
  function Unparsed(s: string): (r: Result<Stamp>)
    ensures r.Err? && r.error.ValueError?
  {
    Err(ValueError("time data '" + Strip(s) + "' does not match format '%H:%M'"))
  }

  /** `datetime.strptime(s.strip(), '%m-%d %H:%M')` for the date tokens the
      line grammar captures, in a year with (`leap`) or without a February 29;
      a failure raises the ValueError of the `'%H:%M'` retry. The stripped
      text is the stretch of `s` from its first to its last non-whitespace
      character, and its fields are read where they stand. */
  function ParseTimeIn(s: string, leap: bool): (r: Result<Stamp>)
    ensures r.Ok? ==> InCalendar(r.value, leap)
    ensures r.Err? ==> r.error.ValueError?
  {
    var i := SkipSpaces(s, 0);
    match DateSplit(s, i)
    case None => Unparsed(s)
    case Some((a, b)) =>
      var m := Moment(NumberAt(s, i, a), NumberAt(s, a + 1, b),
                      NumberAt(s, b + 1, b + 3), NumberAt(s, b + 4, b + 6));
      if b + 6 == TrimEnd(s, |s|) && a - i <= 2 && b - (a + 1) <= 2 && InCalendar(m, leap) then
        assert DaysIn(m.month, leap) <= DaysIn(m.month, true);
        Ok(m)
      else Unparsed(s)
  }

  /** `parse_time` as written: `strptime` gives the datetime the year 1900
      before it is moved to 2000, so a February 29 is refused. */
  function ParseTimeAsWritten(s: string): (r: Result<Stamp>)
    ensures r.Ok? ==> r.value.month != 2 || r.value.day != 29
  {
    ParseTimeIn(s, false)
  }

  /** `parse_time` with the day checked against the year 2000 it stands for. */
  function ParseTime(s: string): (r: Result<Stamp>)
  {
    ParseTimeIn(s, true)
  }

  /** A date token splits at its dash and its space. */
  lemma DateSplitToken(s: string, i: nat, f: string)
    requires i + 11 <= |s| && DateToken(f)
    requires forall k :: 0 <= k < 11 ==> s[i + k] == f[k]
    ensures DateSplit(s, i) == Some((i + 2, i + 5))
  {
    assert s[i + 0] == f[0] && s[i + 1] == f[1] && s[i + 2] == f[2];
    assert s[i + 3] == f[3] && s[i + 4] == f[4] && s[i + 5] == f[5];
    assert s[i + 5 + 1] == f[6] && s[i + 5 + 2] == f[7] && s[i + 5 + 3] == f[8];
    assert s[i + 5 + 4] == f[9] && s[i + 5 + 5] == f[10];
    assert DigitsEnd(s, i + 2) == i + 2;
    assert DigitsEnd(s, i + 1) == i + 2;
    assert DigitsEnd(s, i) == i + 2;
    assert DigitsEnd(s, i + 5) == i + 5;
    assert DigitsEnd(s, i + 4) == i + 5;
    assert DigitsEnd(s, i + 3) == i + 5;
  }

  /** Two digits read in place are their tens and their units. */
  lemma NumberAtTwo(s: string, i: nat, d: nat)
    requires i + 2 <= |s| && d < 100
    requires s[i] == DigitChar(d / 10) && s[i + 1] == DigitChar(d % 10)
    ensures NumberAt(s, i, i + 2) == d
  {
    DigitRoundTrip(d / 10);
    DigitRoundTrip(d % 10);
    assert NumberAt(s, i, i) == 0;
  }

  /** A text whose stripped part is a date token holds that token at its
      first non-whitespace character. */
  lemma StripToken(s: string, f: string)
    requires Strip(s) == f && |f| == 11
    ensures SkipSpaces(s, 0) + 11 == TrimEnd(s, |s|) <= |s|
    ensures forall k :: 0 <= k < 11 ==> s[SkipSpaces(s, 0) + k] == f[k]
  {
    var i := SkipSpaces(s, 0);
    forall k | 0 <= k < 11
      ensures s[i + k] == f[k]
    {
      assert s[i..TrimEnd(s, |s|)][k] == s[i + k];
    }
  }

  /** A formatted timestamp held at `i`, with only whitespace around it,
      parses back to itself when the calendar in use has that day. */
  lemma ParseAt(s: string, i: nat, t: Stamp, leap: bool)
    requires SkipSpaces(s, 0) == i && i + 11 == TrimEnd(s, |s|) <= |s|
    requires forall k :: 0 <= k < 11 ==> s[i + k] == FmtTime(t)[k]
    ensures ParseTimeIn(s, leap) == if InCalendar(t, leap) then Ok(t)
      else Err(ValueError("time data '" + Strip(s) + "' does not match format '%H:%M'"))
  {
    var f := FmtTime(t);
    FmtTimeToken(t);
    DateSplitToken(s, i, f);
    assert s[i] == f[0] && s[i + 1] == f[1] && s[i + 3] == f[3] && s[i + 4] == f[4];
    assert s[i + 6] == f[6] && s[i + 7] == f[7] && s[i + 9] == f[9] && s[i + 10] == f[10];
    NumberAtTwo(s, i, t.month);
    NumberAtTwo(s, i + 3, t.day);
    NumberAtTwo(s, i + 6, t.hour);
    NumberAtTwo(s, i + 9, t.minute);
  }

  /** A text that strips to a formatted timestamp parses back to it, when the
      calendar in use has that day; otherwise it is refused with the stripped
      text in the message. */
  lemma ParseStripped(s: string, t: Stamp, leap: bool)
    requires Strip(s) == FmtTime(t)
    ensures ParseTimeIn(s, leap) == if InCalendar(t, leap) then Ok(t)
      else Err(ValueError("time data '" + FmtTime(t) + "' does not match format '%H:%M'"))
  {
    StripToken(s, FmtTime(t));
    ParseAt(s, SkipSpaces(s, 0), t, leap);
  }

  /** A token that strips to a formatted timestamp parses back to it. */
  lemma ParseStrippedTime(s: string, t: Stamp)
    requires Strip(s) == FmtTime(t)
    ensures ParseTime(s) == Ok(t)
  {
    ParseStripped(s, t, true);
  }

  /** A formatted timestamp is its own stripped text. */
  lemma StripFmtTime(t: Stamp)
    ensures Strip(FmtTime(t)) == FmtTime(t)
  {
    var s := FmtTime(t);
    FmtTimeToken(t);
    StripSurrounded("", s, "");
    assert "" + s + "" == s;
  }

  /** Formatting a timestamp and parsing it back gives it back. */
  lemma ParseFmtTime(t: Stamp)
    ensures ParseTime(FmtTime(t)) == Ok(t)
  {
    StripFmtTime(t);
    ParseStripped(FmtTime(t), t, true);
  }

  /** As written, every formatted timestamp but a February 29 parses back. */
  lemma ParseFmtTimeAsWritten(t: Stamp)
    ensures ParseTimeAsWritten(FmtTime(t)) == (if t.month == 2 && t.day == 29 then
      Err(ValueError("time data '" + FmtTime(t) + "' does not match format '%H:%M'")) else Ok(t))
  {
    StripFmtTime(t);
    ParseStripped(FmtTime(t), t, false);
  }

  /** `fmt_delta`: a duration of `m` minutes as `(HH:MM)`, hours being the
      floor of m / 60 (unbounded, possibly negative) and minutes m mod 60. */
  function FmtDelta(m: int): string
  {
    "(" + Fmt02(m / 60) + ":" + Fmt02(m % 60) + ")"
  }

  /** Below one hundred hours a duration renders as `(HH:MM)` in seven
      characters, and the two fields read back give the duration. */
  lemma FmtDeltaChars(m: int)
    requires 0 <= m < 6000
    ensures var h, n := m / 60, m % 60;
            FmtDelta(m) == ['(', DigitChar(h / 10), DigitChar(h % 10), ':',
                            DigitChar(n / 10), DigitChar(n % 10), ')']
    ensures var r := FmtDelta(m);
            && IsDigit(r[1]) && IsDigit(r[2]) && IsDigit(r[4]) && IsDigit(r[5])
            && DecimalValue(r[1..3]) * 60 + DecimalValue(r[4..6]) == m
  {
    Fmt02TwoDigits(m / 60);
    Fmt02TwoDigits(m % 60);
    TwoDigitValue(m / 60);
    TwoDigitValue(m % 60);
    var r := FmtDelta(m);
    assert r[1..3] == [DigitChar(m / 60 / 10), DigitChar(m / 60 % 10)];
    assert r[4..6] == [DigitChar(m % 60 / 10), DigitChar(m % 60 % 10)];
  }

  /** Sixty-five minutes render as one hour and five minutes. */
  lemma SixtyFiveMinutes()
    ensures FmtDelta(25 + 40) == "(01:05)"
  {
    FmtDeltaChars(65);
  }

  /** A negative duration renders with a sign, outside the `(HH:MM)` shape. */
  lemma NegativeDelta()
    ensures FmtDelta(-1) == "(-1:59)"
  {
  }
}
