/** Text formatting the pipeline needs: decimal numbers in log lines and the
    two renderings of the current date ("yyyy-MM-dd" and "dd/MM/yyyy"). */
module Text {

  predicate IsDigit(c: char) {
    '0' <= c <= '9'
  }

  /** The decimal digit for 0 <= d < 10. */
  function DigitChar(d: nat): (c: char)
    requires d < 10
    ensures IsDigit(c)
    ensures c as int - '0' as int == d
  {
    "0123456789"[d]
  }

  /** Java's string rendering of a non-negative int: decimal, no leading zeros. */
  function NatToString(n: nat): (s: string)
    ensures |s| >= 1
    ensures forall i :: 0 <= i < |s| ==> IsDigit(s[i])
    ensures |s| > 1 ==> s[0] != '0'
    decreases n
  {
    if n < 10 then [DigitChar(n)] else NatToString(n / 10) + [DigitChar(n % 10)]
  }

  /** The value a string of decimal digits denotes. */
  function DecimalValue(s: string): nat
    requires forall i :: 0 <= i < |s| ==> IsDigit(s[i])
  {
    if s == [] then 0
    else
      assert IsDigit(s[|s| - 1]);
      DecimalValue(s[..|s| - 1]) * 10 + (s[|s| - 1] as int - '0' as int)
  }

  /** NatToString is a faithful decimal rendering: reading it back gives n. */
  lemma {:induction false} NatToStringValue(n: nat)
    ensures DecimalValue(NatToString(n)) == n
  {
    if n >= 10 {
      NatToStringValue(n / 10);
      var s := NatToString(n);
      assert s[..|s| - 1] == NatToString(n / 10);
    }
  }

  /** Exactly `width` digits of n, zero-padded on the left (n < 10^width). */
  function Padded(n: nat, width: nat): (s: string)
    ensures |s| == width
    ensures forall i :: 0 <= i < |s| ==> IsDigit(s[i])
    decreases width
  {
    if width == 0 then "" else Padded(n / 10, width - 1) + [DigitChar(n % 10)]
  }

  function Pow10(w: nat): (p: nat)
    ensures p >= 1
  {
    if w == 0 then 1 else 10 * Pow10(w - 1)
  }

  /** Padding loses nothing: a number below 10^width reads back from its padded digits. */
  lemma {:induction false} PaddedValue(n: nat, width: nat)
    ensures n < Pow10(width) ==> DecimalValue(Padded(n, width)) == n
    decreases width
  {
    if width > 0 && n < Pow10(width) {
      PaddedValue(n / 10, width - 1);
      var s := Padded(n, width);
      assert s[..|s| - 1] == Padded(n / 10, width - 1);
    }
  }

  /** A calendar date, standing for the value of the system clock. */
  datatype Date = Date(year: nat, month: nat, day: nat) {

    /** A date the clock can report in the four-digit-year range. */
    predicate Valid() {
      1 <= year <= 9999 && 1 <= month <= 12 && 1 <= day <= 31
    }

    /** The "yyyy-MM-dd" rendering: the year, the month and the day, in that
        order, as four, two and two digits. */
    function Iso(): (s: string)
      ensures |s| == 10 && s[4] == '-' && s[7] == '-'
      ensures forall i :: 0 <= i < 10 && i != 4 && i != 7 ==> IsDigit(s[i])
      ensures Valid() ==> DecimalValue(s[..4]) == year && DecimalValue(s[5..7]) == month && DecimalValue(s[8..]) == day
    {
      var y, m, d := Padded(year, 4), Padded(month, 2), Padded(day, 2);
      PaddedValue(year, 4);
      PaddedValue(month, 2);
      PaddedValue(day, 2);
      Slices(y, '-', m, '-', d);
      y + "-" + m + "-" + d
    }

    /** The "dd/MM/yyyy" rendering: the day, the month and the year, in that
        order, as two, two and four digits. */
    function Dmy(): (s: string)
      ensures |s| == 10 && s[2] == '/' && s[5] == '/'
      ensures forall i :: 0 <= i < 10 && i != 2 && i != 5 ==> IsDigit(s[i])
      ensures Valid() ==> DecimalValue(s[..2]) == day && DecimalValue(s[3..5]) == month && DecimalValue(s[6..]) == year
    {
      var d, m, y := Padded(day, 2), Padded(month, 2), Padded(year, 4);
      PaddedValue(day, 2);
      PaddedValue(month, 2);
      PaddedValue(year, 4);
      Slices(d, '/', m, '/', y);
      d + "/" + m + "/" + y
    }
  }

  /** The three fields of a rendering joined by two separators are its slices. */
  lemma Slices(a: string, x: char, b: string, y: char, c: string)
    ensures var s := a + [x] + b + [y] + c;
            && s[..|a|] == a && s[|a|] == x
            && s[|a| + 1..|a| + 1 + |b|] == b && s[|a| + 1 + |b|] == y
            && s[|a| + 2 + |b|..] == c
  {
    var s := a + [x] + b + [y] + c;
    assert s[..|a|] == a;
    assert s[|a| + 1..|a| + 1 + |b|] == b;
    assert s[|a| + 2 + |b|..] == c;
  }

  /** Both renderings carry the same day, month and year digits. */
  lemma SameDigits(d: Date)
    ensures d.Iso()[..4] == d.Dmy()[6..]
    ensures d.Iso()[5..7] == d.Dmy()[3..5]
    ensures d.Iso()[8..] == d.Dmy()[..2]
  {
  }
}
