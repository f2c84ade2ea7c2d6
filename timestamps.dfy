/** DateTime.ToString("yyyyMMdd_HHmmss") for the saver's file names, with its inverse. */
module Timestamps {
  import opened Text

  /** A local date and time to the second, in the Gregorian calendar. */
  datatype DateTime = DateTime(year: nat, month: nat, day: nat, hour: nat, minute: nat, second: nat)

  /** The Gregorian leap-year rule. */
  predicate IsLeapYear(year: nat) {
    year % 4 == 0 && (year % 100 != 0 || year % 400 == 0)
  }

  /** The number of days in a month of the Gregorian calendar. */
  function DaysInMonth(year: nat, month: nat): (days: nat)
    requires 1 <= month <= 12
    ensures 28 <= days <= 31
    ensures days == 29 <==> month == 2 && IsLeapYear(year)
  {
    if month == 2 then (if IsLeapYear(year) then 29 else 28)
    else if month == 4 || month == 6 || month == 9 || month == 11 then 30
    else 31
  }

  /** The ranges System.DateTime guarantees for its components. */
  predicate ValidDateTime(t: DateTime) {
    1 <= t.year <= 9999 && 1 <= t.month <= 12 && 1 <= t.day <= DaysInMonth(t.year, t.month)
    && t.hour < 24 && t.minute < 60 && t.second < 60
  }

  /**
   * The custom format "yyyyMMdd_HHmmss": fixed-width, zero-padded fields of
   * the Gregorian calendar (the current culture's calendar when it is Gregorian).
   */
  function FormatTimestamp(t: DateTime): (s: string)
    requires ValidDateTime(t)
    ensures |s| == 15 && s[8] == '_'
    ensures AllDigits(s[..8]) && AllDigits(s[9..])
  {
    assert Pow10(2) == 100 && Pow10(4) == 10000;
    var s := PadDigits(t.year, 4) + PadDigits(t.month, 2) + PadDigits(t.day, 2) + "_"
      + PadDigits(t.hour, 2) + PadDigits(t.minute, 2) + PadDigits(t.second, 2);
    assert s[..8] == PadDigits(t.year, 4) + PadDigits(t.month, 2) + PadDigits(t.day, 2);
    assert s[9..] == PadDigits(t.hour, 2) + PadDigits(t.minute, 2) + PadDigits(t.second, 2);
    s
  }

  /** Reads the fields back out of a formatted timestamp. */
  function ParseTimestamp(s: string): DateTime
    requires |s| == 15 && AllDigits(s[..8]) && AllDigits(s[9..])
  {
    assert AllDigits(s[..4]) && AllDigits(s[4..6]) && AllDigits(s[6..8]) by {
      assert s[..4] == s[..8][..4] && s[4..6] == s[..8][4..6] && s[6..8] == s[..8][6..8];
    }
    assert AllDigits(s[9..11]) && AllDigits(s[11..13]) && AllDigits(s[13..]) by {
      assert s[9..11] == s[9..][..2] && s[11..13] == s[9..][2..4] && s[13..] == s[9..][4..];
    }
    DateTime(ParseNat(s[..4]), ParseNat(s[4..6]), ParseNat(s[6..8]),
             ParseNat(s[9..11]), ParseNat(s[11..13]), ParseNat(s[13..]))
  }

  /** Formatting loses nothing: the timestamp can be read back from the text. */
  lemma FormatTimestampRoundTrip(t: DateTime)
    requires ValidDateTime(t)
    ensures ParseTimestamp(FormatTimestamp(t)) == t
  {
    assert Pow10(2) == 100 && Pow10(4) == 10000;
    var s := FormatTimestamp(t);
    assert s[..4] == PadDigits(t.year, 4);
    assert s[4..6] == PadDigits(t.month, 2);
    assert s[6..8] == PadDigits(t.day, 2);
    assert s[9..11] == PadDigits(t.hour, 2);
    assert s[11..13] == PadDigits(t.minute, 2);
    assert s[13..] == PadDigits(t.second, 2);
    ParsePadDigits(t.year, 4);
    ParsePadDigits(t.month, 2);
    ParsePadDigits(t.day, 2);
    ParsePadDigits(t.hour, 2);
    ParsePadDigits(t.minute, 2);
    ParsePadDigits(t.second, 2);
  }

  /** Different seconds give different timestamps; only runs within one second can collide. */
  lemma FormatTimestampInjective(a: DateTime, b: DateTime)
    requires ValidDateTime(a) && ValidDateTime(b)
    requires FormatTimestamp(a) == FormatTimestamp(b)
    ensures a == b
  {
    FormatTimestampRoundTrip(a);
    FormatTimestampRoundTrip(b);
  }
}
