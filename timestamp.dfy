/**
  The text of a <timestamp> element: SimpleDateFormat("yyyy-MM-dd HH:mm:ss",
  Locale.US) applied to the broken-down local time of the test start.  The
  clock and the process time zone are inputs: a listener receives the
  already broken-down DateTime.  FromEpochMillisUtc gives the UTC breakdown
  of an epoch instant, for the epoch-0 case the tests pin down.
*/
module Timestamp {
  import opened Wrappers
  import opened Decimal

  datatype DateTime = DateTime(year: int, month: int, day: int, hour: int, minute: int, second: int)

  /** Field ranges only (day 1 to 31 in every month), for years 1 to 9999 and a 24-hour time. */
  predicate ValidDateTime(t: DateTime) {
    && 1 <= t.year <= 9999 && 1 <= t.month <= 12 && 1 <= t.day <= 31
    && 0 <= t.hour < 24 && 0 <= t.minute < 60 && 0 <= t.second < 60
  }

  /** The six padded fields joined with the pattern's separators; each field can be read back at its offset. */
  lemma JoinShape(y: string, mo: string, d: string, h: string, mi: string, se: string)
    requires |y| == 4 && |mo| == 2 && |d| == 2 && |h| == 2 && |mi| == 2 && |se| == 2
    ensures var s := y + "-" + mo + "-" + d + " " + h + ":" + mi + ":" + se;
      && |s| == 19
      && s[4] == '-' && s[7] == '-' && s[10] == ' ' && s[13] == ':' && s[16] == ':'
      && s[..4] == y && s[5..7] == mo && s[8..10] == d && s[11..13] == h && s[14..16] == mi && s[17..] == se
  {
    var date := y + "-" + mo + "-" + d;
    var time := h + ":" + mi + ":" + se;
    assert |date| == 10 && |time| == 8;
    assert date[..4] == y && date[5..7] == mo && date[8..] == d;
    assert time[..2] == h && time[3..5] == mi && time[6..] == se;
    var s := date + " " + time;
    assert s == y + "-" + mo + "-" + d + " " + h + ":" + mi + ":" + se;
    assert s[..10] == date && s[11..] == time;
    assert s[..4] == s[..10][..4];
    assert s[5..7] == s[..10][5..7];
    assert s[8..10] == s[..10][8..];
    assert s[11..13] == s[11..][..2];
    assert s[14..16] == s[11..][3..5];
    assert s[17..] == s[11..][6..];
  }

  /** "yyyy-MM-dd HH:mm:ss": every field zero-padded, four digits for the year and two for the others. */
  function Format(t: DateTime): (s: string)
    requires ValidDateTime(t)
    ensures |s| == 19
    ensures s[4] == '-' && s[7] == '-' && s[10] == ' ' && s[13] == ':' && s[16] == ':'
    ensures AllDigits(s[..4]) && AllDigits(s[5..7]) && AllDigits(s[8..10])
    ensures AllDigits(s[11..13]) && AllDigits(s[14..16]) && AllDigits(s[17..])
  {
    assert Pow10(2) == 100 && Pow10(4) == 10000;
    ZeroPadLength(t.year, 4);
    ZeroPadLength(t.month, 2);
    ZeroPadLength(t.day, 2);
    ZeroPadLength(t.hour, 2);
    ZeroPadLength(t.minute, 2);
    ZeroPadLength(t.second, 2);
    JoinShape(ZeroPad(t.year, 4), ZeroPad(t.month, 2), ZeroPad(t.day, 2), ZeroPad(t.hour, 2), ZeroPad(t.minute, 2), ZeroPad(t.second, 2));
    ZeroPad(t.year, 4) + "-" + ZeroPad(t.month, 2) + "-" + ZeroPad(t.day, 2) + " "
    + ZeroPad(t.hour, 2) + ":" + ZeroPad(t.minute, 2) + ":" + ZeroPad(t.second, 2)
  }

  /** Reads back a "yyyy-MM-dd HH:mm:ss" text. */
  function Parse(s: string): Option<DateTime>
  {
    if |s| == 19 && s[4] == '-' && s[7] == '-' && s[10] == ' ' && s[13] == ':' && s[16] == ':'
       && AllDigits(s[..4]) && AllDigits(s[5..7]) && AllDigits(s[8..10])
       && AllDigits(s[11..13]) && AllDigits(s[14..16]) && AllDigits(s[17..])
    then Some(DateTime(DigitsValue(s[..4]), DigitsValue(s[5..7]), DigitsValue(s[8..10]),
                       DigitsValue(s[11..13]), DigitsValue(s[14..16]), DigitsValue(s[17..])))
    else None
  }

  /** The formatted text determines the time it was made from. */
  lemma FormatRoundTrip(t: DateTime)
    requires ValidDateTime(t)
    ensures Parse(Format(t)) == Some(t)
  {
    assert Pow10(2) == 100 && Pow10(4) == 10000;
    ZeroPadLength(t.year, 4);
    ZeroPadLength(t.month, 2);
    ZeroPadLength(t.day, 2);
    ZeroPadLength(t.hour, 2);
    ZeroPadLength(t.minute, 2);
    ZeroPadLength(t.second, 2);
    JoinShape(ZeroPad(t.year, 4), ZeroPad(t.month, 2), ZeroPad(t.day, 2), ZeroPad(t.hour, 2), ZeroPad(t.minute, 2), ZeroPad(t.second, 2));
    ZeroPadValue(t.year, 4);
    ZeroPadValue(t.month, 2);
    ZeroPadValue(t.day, 2);
    ZeroPadValue(t.hour, 2);
    ZeroPadValue(t.minute, 2);
    ZeroPadValue(t.second, 2);
  }

  lemma FormatInjective(a: DateTime, b: DateTime)
    requires ValidDateTime(a) && ValidDateTime(b)
    ensures Format(a) == Format(b) <==> a == b
  {
    FormatRoundTrip(a);
    FormatRoundTrip(b);
  }

  /**
    The proleptic Gregorian UTC breakdown of `ms` milliseconds after
    1970-01-01T00:00:00Z (days to civil date after H. Hinnant's algorithm;
    Dafny's / and % are floor division and modulus for a positive divisor, as
    the calendar needs).
  */
  function FromEpochMillisUtc(ms: int): DateTime
  {
    var secs := ms / 1000;
    var days := secs / 86400;
    var sod := secs % 86400;
    var z := days + 719468;
    var era := z / 146097;
    var doe := z % 146097;
    var yoe := (doe - doe / 1460 + doe / 36524 - doe / 146096) / 365;
    var doy := doe - (365 * yoe + yoe / 4 - yoe / 100);
    var mp := (5 * doy + 2) / 153;
    var day := doy - (153 * mp + 2) / 5 + 1;
    var month := if mp < 10 then mp + 3 else mp - 9;
    var year := yoe + era * 400 + (if month <= 2 then 1 else 0);
    DateTime(year, month, day, sod / 3600, sod % 3600 / 60, sod % 60)
  }

  /** Epoch 0 in UTC is midnight of 1 January 1970. */
  lemma EpochZeroUtc()
    ensures FromEpochMillisUtc(0) == DateTime(1970, 1, 1, 0, 0, 0)
  {
    var z := 719468;
    assert z / 146097 == 4 && z % 146097 == 135080;
    var doe := 135080;
    assert doe / 1460 == 92 && doe / 36524 == 3 && doe / 146096 == 0;
    assert (doe - 92 + 3 - 0) / 365 == 369;
    assert doe - (365 * 369 + 369 / 4 - 369 / 100) == 306;
    assert (5 * 306 + 2) / 153 == 10;
    assert 306 - (153 * 10 + 2) / 5 + 1 == 1;
  }

  /** Formatting epoch 0 in UTC gives "1970-01-01 00:00:00". */
  lemma EpochZeroTimestamp()
    ensures FromEpochMillisUtc(0) == DateTime(1970, 1, 1, 0, 0, 0)
    ensures Format(DateTime(1970, 1, 1, 0, 0, 0)) == "1970-01-01 00:00:00"
  {
    EpochZeroUtc();
    EpochFields();
    var t := DateTime(1970, 1, 1, 0, 0, 0);
    assert Format(t) == "1970" + "-" + "01" + "-" + "01" + " " + "00" + ":" + "00" + ":" + "00";
    EpochText();
  }

  /** The zero-padded fields of 1970-01-01 00:00:00. */
  lemma EpochFields()
    ensures ZeroPad(1970, 4) == "1970" && ZeroPad(1, 2) == "01" && ZeroPad(0, 2) == "00"
  {
    assert NatToString(1970) == "1970" by {
      assert NatToString(1) == "1";
      assert NatToString(19) == "19";
      assert NatToString(197) == "197";
    }
  }

  /** The joined epoch fields spell the expected text. */
  lemma EpochText()
    ensures "1970" + "-" + "01" + "-" + "01" + " " + "00" + ":" + "00" + ":" + "00" == "1970-01-01 00:00:00"
  {
  }
}
