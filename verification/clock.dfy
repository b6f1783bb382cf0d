/**
 * Times of day as the bot reads and writes them: `datetime.strptime(text, "%H:%M")`,
 * `time.strftime('%H:%M')`, and the shift of a host-local time of day to UTC that
 * `datetime.combine(today, t).astimezone(pytz.UTC).time()` performs.
 */
module Clock {
  import opened Wrappers
  import opened Text

  /** A `datetime.time` with zero seconds. */
  datatype TimeOfDay = TimeOfDay(hour: nat, minute: nat)

  const MinutesPerDay: nat := 1440

  predicate Valid(t: TimeOfDay)
  {
    t.hour < 24 && t.minute < 60
  }

  function MinuteOfDay(t: TimeOfDay): nat
  {
    t.hour * 60 + t.minute
  }

  /**
   * Length of what strptime's `%H` pattern `2[0-3]|[0-1]\d|\d` matches at the start of `s`
   * (alternatives tried in that order), or 0 when none matches.
   */
  function HourWidth(s: string): (w: nat)
    ensures w <= 2 && w <= |s| && AllDigits(s[..w])
  {
    if |s| >= 2 && ((s[0] == '2' && '0' <= s[1] <= '3') || ('0' <= s[0] <= '1' && IsDigit(s[1]))) then 2
    else if |s| >= 1 && IsDigit(s[0]) then 1
    else 0
  }

  /** Length of what strptime's `%M` pattern `[0-5]\d|\d` matches at the start of `s`, or 0. */
  function MinuteWidth(s: string): (w: nat)
    ensures w <= 2 && w <= |s| && AllDigits(s[..w])
  {
    if |s| >= 2 && '0' <= s[0] <= '5' && IsDigit(s[1]) then 2
    else if |s| >= 1 && IsDigit(s[0]) then 1
    else 0
  }

  lemma TwoDigitsValue(s: string)
    requires |s| == 2 && AllDigits(s)
    ensures DigitsValue(s) == 10 * DigitValue(s[0]) + DigitValue(s[1])
  {
    assert s[..|s| - 1] == s[..1];
    OneDigitValue(s[..1]);
  }

  lemma OneDigitValue(s: string)
    requires |s| == 1 && AllDigits(s)
    ensures DigitsValue(s) == DigitValue(s[0]) < 10
  {
    assert s[..0] == [];
  }

  /**
   * `datetime.strptime(s, "%H:%M").time()`: an hour of one or two digits, a colon, a minute of one
   * or two digits, and nothing after it ("unconverted data remains" otherwise). None stands for the
   * ValueError. Backtracking into the one-digit hour alternative never helps, because after a
   * two-digit hour the second character is a digit and not the colon.
   */
  function ParseClock(s: string): (r: Option<TimeOfDay>)
    ensures r.Some? ==> Valid(r.value)
  {
    var hw := HourWidth(s);
    if hw == 0 || |s| <= hw || s[hw] != ':' then None
    else
      var rest := s[hw + 1..];
      var mw := MinuteWidth(rest);
      if mw == 0 || mw != |rest| then None
      else
        assert rest[..mw] == rest;
        var h, m := DigitsValue(s[..hw]), DigitsValue(rest);
        assert h < 24 by {
          if hw == 2 { TwoDigitsValue(s[..2]); } else { OneDigitValue(s[..1]); }
        }
        assert m < 60 by {
          if mw == 2 { TwoDigitsValue(rest); } else { OneDigitValue(rest); }
        }
        Some(TimeOfDay(h, m))
  }

  /** `t.strftime('%H:%M')`: two zero-padded digits each. */
  function FormatClock(t: TimeOfDay): (s: string)
    requires Valid(t)
    ensures |s| == 5 && s[2] == ':'
  {
    [DigitChar(t.hour / 10), DigitChar(t.hour % 10), ':', DigitChar(t.minute / 10), DigitChar(t.minute % 10)]
  }

  /** Parsing a five-character `HH:MM` literal accepts exactly the in-range hours and minutes. */
  lemma FiveCharForm(s: string)
    requires |s| == 5 && s[2] == ':'
    requires IsDigit(s[0]) && IsDigit(s[1]) && IsDigit(s[3]) && IsDigit(s[4])
    ensures var h, m := 10 * DigitValue(s[0]) + DigitValue(s[1]), 10 * DigitValue(s[3]) + DigitValue(s[4]);
            ParseClock(s) == if h < 24 && m < 60 then Some(TimeOfDay(h, m)) else None
  {
    var h, m := 10 * DigitValue(s[0]) + DigitValue(s[1]), 10 * DigitValue(s[3]) + DigitValue(s[4]);
    TwoDigitsValue(s[..2]);
    assert s[3..][..2] == s[3..] == s[3..5];
    TwoDigitsValue(s[3..]);
    if h < 24 {
      assert HourWidth(s) == 2;
    } else {
      assert HourWidth(s) == 1;
    }
  }

  /** What strftime prints, strptime reads back. */
  lemma ParseFormat(t: TimeOfDay)
    requires Valid(t)
    ensures ParseClock(FormatClock(t)) == Some(t)
  {
    var s := FormatClock(t);
    FiveCharForm(s);
  }

  /** A five-character literal that parses is printed back unchanged. */
  lemma FormatParse(s: string)
    requires |s| == 5 && ParseClock(s).Some?
    ensures FormatClock(ParseClock(s).value) == s
  {
    var hw := HourWidth(s);
    assert hw == 2;
    assert s[3..][..2] == s[3..];
    assert IsDigit(s[3]) && IsDigit(s[4]);
    FiveCharForm(s);
  }

  /** The out-of-range literal "25:99" is a ValueError. */
  lemma RejectsOutOfRange()
    ensures ParseClock("25:99") == None
  {
    FiveCharForm("25:99");
  }

  /**
   * The UTC time of day of the host-local time `t`, for a host whose UTC offset is
   * `offsetMinutes`; the shift wraps around midnight.
   */
  function ToUtc(t: TimeOfDay, offsetMinutes: int): (u: TimeOfDay)
    ensures Valid(u)
    ensures (MinuteOfDay(u) + offsetMinutes) % MinutesPerDay == MinuteOfDay(t) % MinutesPerDay
  {
    var k := (MinuteOfDay(t) - offsetMinutes) % MinutesPerDay;
    assert (k + offsetMinutes) % MinutesPerDay == MinuteOfDay(t) % MinutesPerDay by {
      ShiftBack(MinuteOfDay(t), offsetMinutes);
    }
    TimeOfDay(k / 60, k % 60)
  }

  lemma ShiftBack(x: int, d: int)
    ensures ((x - d) % 1440 + d) % 1440 == x % 1440
  {
    var k := (x - d) % 1440;
    var q := (x - d) / 1440;
    assert x - d == 1440 * q + k;
    assert k + d == x - 1440 * q;
    ModMultiple(x, -q);
  }

  lemma ModMultiple(x: int, q: int)
    ensures (x + 1440 * q) % 1440 == x % 1440
  {
  }

  /** With no offset, the UTC time of a valid time is that time itself. */
  lemma ToUtcZeroOffset(t: TimeOfDay)
    requires Valid(t)
    ensures ToUtc(t, 0) == t
  {
  }

  /** Two local times that map to the same UTC time are the same time. */
  lemma ToUtcInjective(t1: TimeOfDay, t2: TimeOfDay, offsetMinutes: int)
    requires Valid(t1) && Valid(t2)
    requires ToUtc(t1, offsetMinutes) == ToUtc(t2, offsetMinutes)
    ensures t1 == t2
  {
    var u := ToUtc(t1, offsetMinutes);
    var r := (MinuteOfDay(u) + offsetMinutes) % MinutesPerDay;
    assert r == MinuteOfDay(t1) % MinutesPerDay;
    assert r == MinuteOfDay(t2) % MinutesPerDay;
    SameResidue(MinuteOfDay(t1), MinuteOfDay(t2));
    MinuteOfDayInjective(t1, t2);
  }

  lemma SameResidue(a: nat, b: nat)
    requires a < MinutesPerDay && b < MinutesPerDay && a % MinutesPerDay == b % MinutesPerDay
    ensures a == b
  {
  }

  lemma MinuteOfDayInjective(t1: TimeOfDay, t2: TimeOfDay)
    requires Valid(t1) && Valid(t2) && MinuteOfDay(t1) == MinuteOfDay(t2)
    ensures t1 == t2
  {
    assert t1.hour * 60 <= MinuteOfDay(t1) < t1.hour * 60 + 60;
    assert t2.hour * 60 <= MinuteOfDay(t2) < t2.hour * 60 + 60;
  }
}
