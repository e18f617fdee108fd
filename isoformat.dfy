/**
 * `date.isoformat()` and `datetime.isoformat()` for values without fractional
 * seconds or an offset: "YYYY-MM-DD" and "YYYY-MM-DDTHH:MM:SS", that is an
 * RFC 3339 full-date, and a full-date, "T" and a partial-time without
 * fractional seconds (section 5.6 of RFC 3339; with no time-offset the second
 * form is not an RFC 3339 date-time). Parsing is the inverse against which the
 * formatting is proved.
 */
module IsoFormat {
  import opened Wrappers
  import opened Calendar

  function Pow10(k: nat): nat
  {
    if k == 0 then 1 else 10 * Pow10(k - 1)
  }

  predicate IsDigit(c: char)
  {
    '0' <= c <= '9'
  }

  predicate AllDigits(s: string)
  {
    forall i :: 0 <= i < |s| ==> IsDigit(s[i])
  }

  function DigitChar(n: int): char
    requires 0 <= n <= 9
  {
    ('0' as int + n) as char
  }

  /** The number written by a string of decimal digits. */
  function DigitsValue(s: string): nat
    requires AllDigits(s)
  {
    if s == [] then 0 else DigitsValue(s[..|s| - 1]) * 10 + (s[|s| - 1] as int - '0' as int)
  }

  /** `"%0<width>d" % n`: n in decimal, left-padded with zeros to exactly width digits. */
  function Padded(n: nat, width: nat): (s: string)
    requires n < Pow10(width)
    ensures |s| == width && AllDigits(s)
  {
    if width == 0 then "" else Padded(n / 10, width - 1) + [DigitChar(n % 10)]
  }

  /** Padding keeps the value: the digits read back as the number padded. */
  lemma {:induction false} PaddedValue(n: nat, width: nat)
    requires n < Pow10(width)
    ensures DigitsValue(Padded(n, width)) == n
  {
    if width > 0 {
      var prefix := Padded(n / 10, width - 1);
      PaddedValue(n / 10, width - 1);
      assert Padded(n, width)[..width - 1] == prefix;
    }
  }

  /** Two-digit padding spelled out: tens digit, then units digit. */
  lemma PaddedTwoDigits(n: nat)
    requires n < 100
    ensures Padded(n, 2) == [DigitChar(n / 10), DigitChar(n % 10)]
  {
    assert Padded(n / 10, 1) == Padded(n / 10 / 10, 0) + [DigitChar(n / 10 % 10)];
  }

  /** Four-digit padding spelled out, thousands digit first. */
  lemma PaddedFourDigits(n: nat)
    requires n < 10000
    ensures Padded(n, 4) == [DigitChar(n / 1000), DigitChar(n / 100 % 10), DigitChar(n / 10 % 10), DigitChar(n % 10)]
  {
    assert n / 10 / 10 == n / 100 && n / 100 / 10 == n / 1000;
    assert Padded(n, 4) == Padded(n / 10, 3) + [DigitChar(n % 10)];
    assert Padded(n / 10, 3) == Padded(n / 100, 2) + [DigitChar(n / 10 % 10)];
    PaddedTwoDigits(n / 100);
  }

  /** A digit string is the padded form of its own value at its own width. */
  lemma {:induction false} PaddedOfDigits(s: string)
    requires AllDigits(s)
    ensures DigitsValue(s) < Pow10(|s|)
    ensures Padded(DigitsValue(s), |s|) == s
  {
    if s != [] {
      var prefix := s[..|s| - 1];
      PaddedOfDigits(prefix);
      var n := DigitsValue(s);
      var d := s[|s| - 1] as int - '0' as int;
      assert n / 10 == DigitsValue(prefix) && n % 10 == d;
      assert s == prefix + [DigitChar(d)];
    }
  }

  /** `date.isoformat()`: "YYYY-MM-DD". */
  function FormatDate(d: Date): string
    requires ValidDate(d)
  {
    Padded(d.year, 4) + "-" + Padded(d.month, 2) + "-" + Padded(d.day, 2)
  }

  /** `datetime.isoformat()` with zero microseconds and no time zone: "YYYY-MM-DDTHH:MM:SS". */
  function FormatDateTime(dt: DateTime): string
    requires ValidDateTime(dt)
  {
    FormatDate(dt.date) + "T" + Padded(dt.hour, 2) + ":" + Padded(dt.minute, 2) + ":" + Padded(dt.second, 2)
  }

  /** Reads an RFC 3339 full-date naming a date Python can hold. */
  function ParseDate(s: string): Option<Date>
  {
    if |s| == 10 && s[4] == '-' && s[7] == '-'
       && AllDigits(s[..4]) && AllDigits(s[5..7]) && AllDigits(s[8..])
       && ValidDate(Date(DigitsValue(s[..4]), DigitsValue(s[5..7]), DigitsValue(s[8..])))
    then Some(Date(DigitsValue(s[..4]), DigitsValue(s[5..7]), DigitsValue(s[8..])))
    else None
  }

  /** Reads "YYYY-MM-DDTHH:MM:SS" naming a date-time Python can hold. */
  function ParseDateTime(s: string): Option<DateTime>
  {
    if |s| == 19 && s[10] == 'T' && s[13] == ':' && s[16] == ':'
       && AllDigits(s[11..13]) && AllDigits(s[14..16]) && AllDigits(s[17..])
       && ParseDate(s[..10]).Some?
       && ValidDateTime(DateTime(ParseDate(s[..10]).value, DigitsValue(s[11..13]), DigitsValue(s[14..16]), DigitsValue(s[17..])))
    then Some(DateTime(ParseDate(s[..10]).value, DigitsValue(s[11..13]), DigitsValue(s[14..16]), DigitsValue(s[17..])))
    else None
  }

  /** Formatting a date gives a ten-character full-date that reads back as the same date. */
  lemma ParseFormatDate(d: Date)
    requires ValidDate(d)
    ensures |FormatDate(d)| == 10
    ensures ParseDate(FormatDate(d)) == Some(d)
  {
    var year, month, day := Padded(d.year, 4), Padded(d.month, 2), Padded(d.day, 2);
    PaddedValue(d.year, 4);
    PaddedValue(d.month, 2);
    PaddedValue(d.day, 2);
    var s := FormatDate(d);
    assert s == year + "-" + month + "-" + day;
    assert s[..4] == year && s[5..7] == month && s[8..] == day;
    assert s[4] == '-' && s[7] == '-';
  }

  /** Every full-date the parser accepts is the formatted form of what it reads. */
  lemma FormatParseDate(s: string)
    requires ParseDate(s).Some?
    ensures FormatDate(ParseDate(s).value) == s
  {
    PaddedOfDigits(s[..4]);
    PaddedOfDigits(s[5..7]);
    PaddedOfDigits(s[8..]);
    assert s == s[..4] + "-" + s[5..7] + "-" + s[8..];
  }

  /** Formatting a date-time gives "date T time" that reads back as the same date-time. */
  lemma ParseFormatDateTime(dt: DateTime)
    requires ValidDateTime(dt)
    ensures |FormatDateTime(dt)| == 19
    ensures FormatDateTime(dt)[..10] == FormatDate(dt.date)
    ensures ParseDateTime(FormatDateTime(dt)) == Some(dt)
  {
    ParseFormatDate(dt.date);
    var date, hour, minute, second := FormatDate(dt.date), Padded(dt.hour, 2), Padded(dt.minute, 2), Padded(dt.second, 2);
    PaddedValue(dt.hour, 2);
    PaddedValue(dt.minute, 2);
    PaddedValue(dt.second, 2);
    var s := FormatDateTime(dt);
    assert s == date + "T" + hour + ":" + minute + ":" + second;
    assert s[..10] == date;
    assert s[11..13] == hour;
    assert s[14..16] == minute;
    assert s[17..] == second;
    assert s[10] == 'T' && s[13] == ':' && s[16] == ':';
  }

  /** Every date-time the parser accepts is the formatted form of what it reads. */
  lemma FormatParseDateTime(s: string)
    requires ParseDateTime(s).Some?
    ensures FormatDateTime(ParseDateTime(s).value) == s
  {
    FormatParseDate(s[..10]);
    PaddedOfDigits(s[11..13]);
    PaddedOfDigits(s[14..16]);
    PaddedOfDigits(s[17..]);
    assert s == s[..10] + "T" + s[11..13] + ":" + s[14..16] + ":" + s[17..];
  }

  /** Formatting keeps distinct dates apart. */
  lemma FormatDateInjective(a: Date, b: Date)
    requires ValidDate(a) && ValidDate(b) && FormatDate(a) == FormatDate(b)
    ensures a == b
  {
    ParseFormatDate(a);
    ParseFormatDate(b);
  }
}
