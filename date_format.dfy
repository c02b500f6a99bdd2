/**
 * Calendar dates written as zero-padded `YYYY-MM-DD` text, the form the
 * exporter sends as `start_date` and `end_date`, and a reader for that form
 * that serves as the formatter's inverse.
 */
module DateFormat {
  import opened Wrappers

  datatype Date = Date(year: nat, month: nat, day: nat)

  function Pow10(width: nat): (p: nat)
    ensures p >= 1
  {
    if width == 0 then 1 else 10 * Pow10(width - 1)
  }

  predicate IsDigit(c: char) {
    '0' <= c <= '9'
  }

  predicate AllDigits(s: string) {
    forall i :: 0 <= i < |s| ==> IsDigit(s[i])
  }

  function DigitChar(d: nat): (c: char)
    requires d < 10
    ensures IsDigit(c)
  {
    ('0' as int + d) as char
  }

  function DigitValue(c: char): (d: nat)
    requires IsDigit(c)
    ensures d < 10
  {
    c as int - '0' as int
  }

  /** The lowest `width` decimal digits of `n`, most significant first, zero-padded. */
  function Pad(n: nat, width: nat): (s: string)
    ensures |s| == width && AllDigits(s)
  {
    if width == 0 then [] else Pad(n / 10, width - 1) + [DigitChar(n % 10)]
  }

  /** The number a string of decimal digits denotes. */
  function ReadNat(s: string): nat
    requires AllDigits(s)
  {
    if s == [] then 0 else 10 * ReadNat(s[..|s| - 1]) + DigitValue(s[|s| - 1])
  }

  lemma {:induction false} ReadPad(n: nat, width: nat)
    requires n < Pow10(width)
    ensures ReadNat(Pad(n, width)) == n
  {
    if width > 0 {
      var s := Pad(n, width);
      var q, d := n / 10, n % 10;
      assert n == 10 * q + d;
      assert q < Pow10(width - 1);
      assert s[..|s| - 1] == Pad(q, width - 1);
      assert DigitValue(s[|s| - 1]) == d;
      ReadPad(q, width - 1);
    }
  }

  /** The `%Y-%m-%d` rendering of a date: four-digit year, two-digit month and day. */
  function FormatDate(d: Date): (s: string)
    ensures |s| == 10 && s[4] == '-' && s[7] == '-'
  {
    Pad(d.year, 4) + "-" + Pad(d.month, 2) + "-" + Pad(d.day, 2)
  }

  /** Reads a `YYYY-MM-DD` string back into a date; anything else is None. */
  function ParseDate(s: string): Option<Date> {
    if |s| == 10 && s[4] == '-' && s[7] == '-'
       && AllDigits(s[..4]) && AllDigits(s[5..7]) && AllDigits(s[8..])
    then Some(Date(ReadNat(s[..4]), ReadNat(s[5..7]), ReadNat(s[8..])))
    else None
  }

  /** Formatting loses nothing for any date whose fields fit their widths. */
  lemma ParseFormat(d: Date)
    requires d.year < 10000 && d.month < 100 && d.day < 100
    ensures ParseDate(FormatDate(d)) == Some(d)
  {
    var y, m, dd := Pad(d.year, 4), Pad(d.month, 2), Pad(d.day, 2);
    var s := FormatDate(d);
    assert s[..4] == y;
    assert s[5..7] == m;
    assert s[8..] == dd;
    ReadPad(d.year, 4);
    ReadPad(d.month, 2);
    ReadPad(d.day, 2);
  }

  /** Two dates with fields in range format identically only if they are equal. */
  lemma FormatInjective(a: Date, b: Date)
    requires a.year < 10000 && a.month < 100 && a.day < 100
    requires b.year < 10000 && b.month < 100 && b.day < 100
    ensures FormatDate(a) == FormatDate(b) <==> a == b
  {
    ParseFormat(a);
    ParseFormat(b);
  }

  /** Zero padding of the month on the first of March 2024. */
  lemma FormatMarch2024()
    ensures FormatDate(Date(2024, 3, 1)) == "2024-03-01"
  {
    assert Pad(2, 1) == "2";
    assert Pad(20, 2) == "20";
    assert Pad(202, 3) == "202";
    assert Pad(2024, 4) == "2024";
    assert Pad(0, 1) == "0";
    assert Pad(3, 2) == "03";
    assert Pad(1, 2) == "01";
  }

  /** Zero padding of the month on the first of April 2024. */
  lemma FormatApril2024()
    ensures FormatDate(Date(2024, 4, 1)) == "2024-04-01"
  {
    assert Pad(2, 1) == "2";
    assert Pad(20, 2) == "20";
    assert Pad(202, 3) == "202";
    assert Pad(2024, 4) == "2024";
    assert Pad(0, 1) == "0";
    assert Pad(4, 2) == "04";
    assert Pad(1, 2) == "01";
  }

  /** A two-digit month needs no padding: the first of December 2023. */
  lemma FormatDecember2023()
    ensures FormatDate(Date(2023, 12, 1)) == "2023-12-01"
  {
    assert Pad(2023, 4) == "2023";
    assert Pad(12, 2) == "12";
    assert Pad(1, 2) == "01";
  }

  /** The first of January 2024. */
  lemma FormatJanuary2024()
    ensures FormatDate(Date(2024, 1, 1)) == "2024-01-01"
  {
    assert Pad(2024, 4) == "2024";
    assert Pad(1, 2) == "01";
  }
}
