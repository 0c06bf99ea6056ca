/** The date-time value `datetime.fromisoformat` yields and the text
    `strftime("%Y-%m-%d %H:%M:%S.%f")` prints for it. */
module PyDateTime {
  import opened Wrappers

  /** The fields of a parsed date-time. `utcOffset` is the offset in seconds
      of an aware value and `None` for a naive one. */
  datatype Fields = Fields(year: int, month: int, day: int,
                           hour: int, minute: int, second: int,
                           microsecond: int, utcOffset: Option<int>)
  {
    predicate InRange()
    {
      && 1 <= year <= 9999 && 1 <= month <= 12 && 1 <= day <= 31
      && 0 <= hour < 24 && 0 <= minute < 60 && 0 <= second < 60
      && 0 <= microsecond < 1000000
    }
  }

  /** A `datetime` object: every field lies in the range Python enforces. */
  type DateTime = f: Fields | f.InRange() witness Fields(1, 1, 1, 0, 0, 0, 0, None)

  /** Wall-clock fields read back from a display string, milliseconds last. */
  datatype WallClock = WallClock(year: int, month: int, day: int,
                                 hour: int, minute: int, second: int, millisecond: int)

  function Pow10(n: nat): (r: nat)
    ensures r >= 1
  {
    if n == 0 then 1 else 10 * Pow10(n - 1)
  }

  predicate IsDigit(c: char)
  {
    '0' <= c <= '9'
  }

  function DigitChar(d: nat): (c: char)
    requires d < 10
    ensures IsDigit(c)
  {
    ['0', '1', '2', '3', '4', '5', '6', '7', '8', '9'][d]
  }

  function DigitValue(c: char): (d: nat)
    requires IsDigit(c)
    ensures d < 10
  {
    (c as int - '0' as int) as nat
  }

  /** The `w` lowest decimal digits of `n`, zero-padded: `%0wd`. */
  function Digits(n: nat, w: nat): (s: string)
    ensures |s| == w
    ensures forall i :: 0 <= i < w ==> IsDigit(s[i])
  {
    if w == 0 then [] else Digits(n / 10, w - 1) + [DigitChar(n % 10)]
  }

  /** The number a string of decimal digits spells. */
  function ReadDigits(s: string): nat
    requires forall i :: 0 <= i < |s| ==> IsDigit(s[i])
  {
    if s == [] then 0 else 10 * ReadDigits(s[..|s| - 1]) + DigitValue(s[|s| - 1])
  }

  lemma DigitRoundTrip(d: nat)
    requires d < 10
    ensures DigitValue(DigitChar(d)) == d
  {
  }

  /** Reading back a padded number gives the number, when it fits the width. */
  lemma {:induction false} ReadDigitsOfDigits(n: nat, w: nat)
    requires n < Pow10(w)
    ensures ReadDigits(Digits(n, w)) == n
  {
    if w > 0 {
      var s := Digits(n, w);
      assert s[..w - 1] == Digits(n / 10, w - 1);
      ReadDigitsOfDigits(n / 10, w - 1);
      DigitRoundTrip(n % 10);
    }
  }

  /** Dropping the last `1` digit of a padded number pads the number divided by ten. */
  lemma {:induction false} DigitsDropLast(n: nat, w: nat)
    ensures Digits(n, w + 1)[..w] == Digits(n / 10, w)
  {
  }

  /** Dropping the last three of the six `%f` digits leaves the milliseconds. */
  lemma {:induction false} MicrosToMillis(us: nat)
    ensures Digits(us, 6)[..3] == Digits(us / 1000, 3)
  {
    DigitsDropLast(us, 5);
    DigitsDropLast(us / 10, 4);
    DigitsDropLast(us / 100, 3);
    assert Digits(us, 6)[..3] == Digits(us, 6)[..5][..4][..3];
    assert Digits(us / 10, 5)[..3] == Digits(us / 10, 5)[..4][..3];
    assert us / 10 / 10 / 10 == us / 1000;
  }

  /** `dt.strftime("%Y-%m-%d %H:%M:%S.%f")`: 26 characters, the wall-clock
      fields only; the UTC offset is not printed. */
  function Strftime(dt: DateTime): (s: string)
    ensures |s| == 26
  {
    Digits(dt.year, 4) + "-" + Digits(dt.month, 2) + "-" + Digits(dt.day, 2) + " "
    + Digits(dt.hour, 2) + ":" + Digits(dt.minute, 2) + ":" + Digits(dt.second, 2)
    + "." + Digits(dt.microsecond, 6)
  }

  /** The shape `YYYY-MM-DD HH:MM:SS.mmm`. */
  predicate DisplayShape(s: string)
  {
    && |s| == 23
    && s[4] == '-' && s[7] == '-' && s[10] == ' ' && s[13] == ':' && s[16] == ':' && s[19] == '.'
    && forall i :: 0 <= i < 23 && i !in {4, 7, 10, 13, 16, 19} ==> IsDigit(s[i])
  }

  /** Reads the wall-clock fields back from a string of the display shape. */
  function ReadDisplay(s: string): WallClock
    requires DisplayShape(s)
  {
    WallClock(ReadDigits(s[0..4]), ReadDigits(s[5..7]), ReadDigits(s[8..10]),
              ReadDigits(s[11..13]), ReadDigits(s[14..16]), ReadDigits(s[17..19]),
              ReadDigits(s[20..23]))
  }

  /** Where each field lies in the `strftime` text. */
  lemma StrftimeLayout(dt: DateTime)
    ensures var s := Strftime(dt);
      && s[0..4] == Digits(dt.year, 4) && s[5..7] == Digits(dt.month, 2)
      && s[8..10] == Digits(dt.day, 2) && s[11..13] == Digits(dt.hour, 2)
      && s[14..16] == Digits(dt.minute, 2) && s[17..19] == Digits(dt.second, 2)
      && s[20..26] == Digits(dt.microsecond, 6)
      && s[4] == '-' && s[7] == '-' && s[10] == ' ' && s[13] == ':' && s[16] == ':' && s[19] == '.'
  {
    var s := Strftime(dt);
    var y, mo, da := Digits(dt.year, 4), Digits(dt.month, 2), Digits(dt.day, 2);
    var h, mi, se := Digits(dt.hour, 2), Digits(dt.minute, 2), Digits(dt.second, 2);
    var us := Digits(dt.microsecond, 6);
    var p1 := y + "-";
    var p2 := p1 + mo + "-";
    var p3 := p2 + da + " ";
    var p4 := p3 + h + ":";
    var p5 := p4 + mi + ":";
    var p6 := p5 + se + ".";
    assert s == p6 + us;
    assert s[..20] == p6 && s[20..26] == us;
    assert p6[..17] == p5 && p6[17..19] == se && p6[19] == '.';
    assert p5[..14] == p4 && p5[14..16] == mi && p5[16] == ':';
    assert p4[..11] == p3 && p4[11..13] == h && p4[13] == ':';
    assert p3[..8] == p2 && p3[8..10] == da && p3[10] == ' ';
    assert p2[..5] == p1 && p2[5..7] == mo && p2[7] == '-';
    assert p1[..4] == y && p1[4] == '-';
  }

  /** `strftime(...)[:-3]` has the shape `YYYY-MM-DD HH:MM:SS.mmm`. */
  lemma DisplayShapeOfStrftime(dt: DateTime)
    ensures DisplayShape(Strftime(dt)[..23])
  {
    var s := Strftime(dt);
    StrftimeLayout(dt);
    forall i | 0 <= i < 23 && i !in {4, 7, 10, 13, 16, 19}
      ensures IsDigit(s[..23][i])
    {
      if i < 4 { assert s[i] == s[0..4][i]; }
      else if i < 7 { assert s[i] == s[5..7][i - 5]; }
      else if i < 10 { assert s[i] == s[8..10][i - 8]; }
      else if i < 13 { assert s[i] == s[11..13][i - 11]; }
      else if i < 16 { assert s[i] == s[14..16][i - 14]; }
      else if i < 19 { assert s[i] == s[17..19][i - 17]; }
      else { assert s[i] == s[20..26][i - 20]; }
    }
  }

  /** `strftime(...)[:-3]` reads back as the wall-clock fields with the
      microseconds truncated to milliseconds; the UTC offset is neither
      applied nor shown. */
  lemma DisplayRoundTrip(dt: DateTime)
    ensures DisplayShape(Strftime(dt)[..23])
    ensures ReadDisplay(Strftime(dt)[..23])
            == WallClock(dt.year, dt.month, dt.day, dt.hour, dt.minute, dt.second,
                         dt.microsecond / 1000)
  {
    var s := Strftime(dt);
    var d := s[..23];
    DisplayShapeOfStrftime(dt);
    StrftimeLayout(dt);
    MicrosToMillis(dt.microsecond);
    assert d[0..4] == Digits(dt.year, 4);
    assert d[5..7] == Digits(dt.month, 2);
    assert d[8..10] == Digits(dt.day, 2);
    assert d[11..13] == Digits(dt.hour, 2);
    assert d[14..16] == Digits(dt.minute, 2);
    assert d[17..19] == Digits(dt.second, 2);
    assert d[20..23] == s[20..26][..3];
    ReadDigitsOfDigits(dt.year, 4);
    ReadDigitsOfDigits(dt.month, 2);
    ReadDigitsOfDigits(dt.day, 2);
    ReadDigitsOfDigits(dt.hour, 2);
    ReadDigitsOfDigits(dt.minute, 2);
    ReadDigitsOfDigits(dt.second, 2);
    ReadDigitsOfDigits(dt.microsecond / 1000, 3);
  }
}
