/** Money rounding and Rupiah formatting: `round_half_up` and the rounding
    `format_rupiah` of utils/helpers.py, and the truncating `format_rupiah`
    that utils.py and utils/generate_pdf.py both define.

    A value reaches the formatters as `Option<real>`: `None` when `float(value)`
    raises or the rounding raises (non-numeric text, NaN, infinity); otherwise
    the exact real the float stands for. */
module Rupiah {
  import opened Wrappers
  import opened PyStr

  function Floor(x: real): (r: int) { x.Floor }

  /** `math.ceil`. */
  function Ceil(x: real): (r: int)
    ensures x <= r as real < x + 1.0
  {
    -((-x).Floor)
  }

  /** `round_half_up`: the nearest integer, ties away from zero. */
  function RoundHalfUp(x: real): (r: int)
    ensures r as real - x <= 0.5 && x - r as real <= 0.5
    ensures r as real - x == 0.5 ==> x >= 0.0
    ensures x - r as real == 0.5 ==> x < 0.0
  {
    if x >= 0.0 then Floor(x + 0.5) else Ceil(x - 0.5)
  }

  /** Integers are left as they are. */
  lemma RoundHalfUpInteger(k: int)
    ensures RoundHalfUp(k as real) == k
  {
  }

  /** Ties go away from zero: k + 1/2 rounds to k + 1 and -(k + 1/2) to -(k + 1). */
  lemma RoundHalfUpTies(k: nat)
    ensures RoundHalfUp(k as real + 0.5) == k + 1
    ensures RoundHalfUp(-(k as real + 0.5)) == -(k + 1)
  {
  }

  /** Rounding commutes with negation. */
  lemma RoundHalfUpOdd(x: real)
    ensures RoundHalfUp(-x) == -RoundHalfUp(x)
  {
  }

  /** `int(x)`: truncation toward zero. */
  function Truncate(x: real): (r: int)
    ensures x >= 0.0 ==> 0 <= r && r as real <= x < r as real + 1.0
    ensures x < 0.0 ==> r <= 0 && r as real - 1.0 < x <= r as real
  {
    if x >= 0.0 then Floor(x) else -Floor(-x)
  }

  // ---------------------------------------------------------------------
  // f"{n:,}".replace(",", ".")
  // ---------------------------------------------------------------------

  /** Exactly three decimal digits of `n`, with leading zeros. */
  function ThreeDigits(n: nat): (r: string)
    requires n < 1000
    ensures |r| == 3 && AllDigits(r)
  {
    [DigitChar(n / 100), DigitChar(n / 10 % 10), DigitChar(n % 10)]
  }

  /** Decimal digits of `n` with '.' before every group of three from the right. */
  function Grouped(n: nat): (r: string)
    decreases n
  {
    if n < 1000 then NatToDecimal(n) else Grouped(n / 1000) + "." + ThreeDigits(n % 1000)
  }

  /** `f"{i:,}".replace(",", ".")` for any integer. */
  function Thousands(i: int): (r: string) {
    if i < 0 then "-" + Grouped(-i) else Grouped(i)
  }

  /** The string with every '.' deleted. */
  function Undot(s: string): (r: string)
    ensures |r| <= |s|
  {
    if s == [] then [] else (if s[0] == '.' then [] else [s[0]]) + Undot(s[1..])
  }

  /** A separator sits exactly at every fourth position counted from the right,
      every other character is a digit, and the string does not start with a
      separator: "1.234.567", "12", "999.000". */
  predicate WellGrouped(s: string) {
    && |s| > 0
    && |s| % 4 != 0
    && forall i :: 0 <= i < |s| ==> if (|s| - i) % 4 == 0 then s[i] == '.' else IsDigit(s[i])
  }

  lemma {:induction false} UndotAppend(a: string, b: string)
    ensures Undot(a + b) == Undot(a) + Undot(b)
    decreases |a|
  {
    if a == [] {
      assert a + b == b;
    } else {
      var head := if a[0] == '.' then [] else [a[0]];
      assert (a + b)[0] == a[0] && (a + b)[1..] == a[1..] + b;
      UndotAppend(a[1..], b);
      assert Undot(a + b) == head + (Undot(a[1..]) + Undot(b));
    }
  }

  lemma {:induction false} UndotDigits(s: string)
    requires AllDigits(s)
    ensures Undot(s) == s
    decreases |s|
  {
    if s != [] {
      UndotDigits(s[1..]);
    }
  }

  lemma DivMod10(q: nat, d: nat)
    requires d < 10
    ensures (10 * q + d) / 10 == q && (10 * q + d) % 10 == d
  {
  }

  /** One more decimal digit after a positive number. */
  lemma DecimalStep(q: nat, d: nat)
    requires q >= 1 && d < 10
    ensures NatToDecimal(10 * q + d) == NatToDecimal(q) + [DigitChar(d)]
  {
    DivMod10(q, d);
  }

  lemma ThreeDigitParts(m: nat)
    requires m < 1000
    ensures m == 100 * (m / 100) + 10 * (m / 10 % 10) + m % 10 && m / 100 < 10
  {
  }

  /** Three more decimal digits: str(n) is str(n // 1000) followed by the last three. */
  lemma DecimalSplit(n: nat)
    requires n >= 1000
    ensures NatToDecimal(n) == NatToDecimal(n / 1000) + ThreeDigits(n % 1000)
  {
    var c, m := n / 1000, n % 1000;
    var d2, d1, d0 := m / 100, m / 10 % 10, m % 10;
    ThreeDigitParts(m);
    assert n == 10 * (10 * (10 * c + d2) + d1) + d0;
    DecimalStep(10 * (10 * c + d2) + d1, d0);
    DecimalStep(10 * c + d2, d1);
    DecimalStep(c, d2);
    assert ThreeDigits(m) == [DigitChar(d2), DigitChar(d1), DigitChar(d0)];
    SnocThree(NatToDecimal(c), DigitChar(d2), DigitChar(d1), DigitChar(d0));
  }

  lemma SnocThree<T>(x: seq<T>, a: T, b: T, c: T)
    ensures x + [a] + [b] + [c] == x + [a, b, c]
  {
  }

  /** Deleting the separators gives back `str(n)`. */
  lemma {:induction false} GroupedUndot(n: nat)
    ensures Undot(Grouped(n)) == NatToDecimal(n)
    decreases n
  {
    if n < 1000 {
      UndotDigits(NatToDecimal(n));
    } else {
      GroupedUndot(n / 1000);
      UndotAppend(Grouped(n / 1000) + ".", ThreeDigits(n % 1000));
      UndotAppend(Grouped(n / 1000), ".");
      UndotDigits(ThreeDigits(n % 1000));
      DecimalSplit(n);
    }
  }

  /** Up to three digits need no separator. */
  lemma ShortDecimal(n: nat)
    requires n < 1000
    ensures |NatToDecimal(n)| <= 3
  {
    if n >= 10 {
      assert |NatToDecimal(n / 10)| <= 2 by {
        if n / 10 >= 10 {
          assert |NatToDecimal(n / 100)| == 1;
        }
      }
    }
  }

  lemma Mod4Shift(x: int)
    ensures (x + 4) % 4 == x % 4
  {
  }

  /** One more group of three keeps every separator in its place. */
  lemma GroupStep(g: string, t: string)
    requires WellGrouped(g) && |t| == 3 && AllDigits(t)
    ensures WellGrouped(g + "." + t)
  {
    var s := g + "." + t;
    assert |s| == |g| + 4;
    Mod4Shift(|g|);
    forall i | 0 <= i < |s|
      ensures if (|s| - i) % 4 == 0 then s[i] == '.' else IsDigit(s[i])
    {
      if i < |g| {
        Mod4Shift(|g| - i);
        assert s[i] == g[i];
      } else if i > |g| {
        assert s[i] == t[i - |g| - 1];
        assert 0 < |s| - i < 4;
      } else {
        assert |s| - i == 4;
      }
    }
  }

  /** The separators are where they belong. */
  lemma {:induction false} GroupedShape(n: nat)
    ensures WellGrouped(Grouped(n))
    decreases n
  {
    if n < 1000 {
      ShortDecimal(n);
    } else {
      GroupedShape(n / 1000);
      GroupStep(Grouped(n / 1000), ThreeDigits(n % 1000));
    }
  }

  // ---------------------------------------------------------------------
  // The two format_rupiah functions
  // ---------------------------------------------------------------------

  /** `format_rupiah` of utils/helpers.py: round half away from zero, then group. */
  function FormatRupiah(v: Option<real>): (r: string)
    ensures v.None? ==> r == "0"
    ensures v.Some? ==> Undot(r) == IntToDecimal(RoundHalfUp(v.value))
    ensures v.Some? && RoundHalfUp(v.value) >= 0 ==> WellGrouped(r)
    ensures v.Some? && RoundHalfUp(v.value) < 0 ==> r[0] == '-' && WellGrouped(r[1..])
  {
    match v
    case None => "0"
    case Some(x) => ThousandsChecked(RoundHalfUp(x))
  }

  /** `format_rupiah` of utils.py and utils/generate_pdf.py: truncate toward
      zero, then group. */
  function FormatRupiahTruncating(v: Option<real>): (r: string)
    ensures v.None? ==> r == "0"
    ensures v.Some? ==> Undot(r) == IntToDecimal(Truncate(v.value))
    ensures v.Some? && Truncate(v.value) >= 0 ==> WellGrouped(r)
    ensures v.Some? && Truncate(v.value) < 0 ==> r[0] == '-' && WellGrouped(r[1..])
  {
    match v
    case None => "0"
    case Some(x) => ThousandsChecked(Truncate(x))
  }

  /** `Thousands` with the facts both formatters promise about it. */
  function ThousandsChecked(i: int): (r: string)
    ensures Undot(r) == IntToDecimal(i)
    ensures i >= 0 ==> WellGrouped(r)
    ensures i < 0 ==> r[0] == '-' && WellGrouped(r[1..])
  {
    var n: nat := if i < 0 then -i else i;
    GroupedUndot(n);
    GroupedShape(n);
    if i < 0 then
      UndotAppend("-", Grouped(n));
      assert ("-" + Grouped(n))[1..] == Grouped(n);
      Thousands(i)
    else Thousands(i)
  }

  /** Reading the printed amount back: the digits, without the separators,
      are the magnitude of the rounded value. */
  lemma FormatRupiahReadBack(x: real)
    ensures var r := FormatRupiah(Some(x));
            var digits := if RoundHalfUp(x) < 0 then Undot(r)[1..] else Undot(r);
            AllDigits(digits) &&
            DecimalValue(digits) == if RoundHalfUp(x) < 0 then -RoundHalfUp(x) else RoundHalfUp(x)
  {
    var i := RoundHalfUp(x);
    var n: nat := if i < 0 then -i else i;
    DecimalRoundTrip(n);
    if i < 0 {
      assert IntToDecimal(i)[1..] == NatToDecimal(n);
    }
  }

  lemma GroupedExamples()
    ensures Grouped(10000) == "10.000" && Grouped(2000) == "2.000" && Grouped(1999) == "1.999"
  {
    assert Grouped(10000) == Grouped(10) + "." + ThreeDigits(0);
    assert Grouped(2000) == Grouped(2) + "." + ThreeDigits(0);
    assert Grouped(1999) == Grouped(1) + "." + ThreeDigits(999);
  }

  /** The documented example: 10000 -> "10.000". */
  lemma FormatRupiahTenThousand()
    ensures FormatRupiah(Some(10000.0)) == "10.000"
  {
    assert RoundHalfUp(10000.0) == 10000;
    GroupedExamples();
  }

  /** A tie rounds away from zero, on either side. */
  lemma FormatRupiahTies()
    ensures FormatRupiah(Some(1999.5)) == "2.000"
    ensures FormatRupiah(Some(-2.5)) == "-3"
  {
    assert RoundHalfUp(1999.5) == 2000;
    assert RoundHalfUp(-2.5) == -3;
    GroupedExamples();
  }

  /** The truncating formatter cuts the fraction off instead: 1999.9 -> "1.999". */
  lemma FormatRupiahTruncatingExamples()
    ensures FormatRupiahTruncating(Some(1999.9)) == "1.999"
    ensures FormatRupiahTruncating(Some(-1999.9)) == "-1.999"
    ensures FormatRupiahTruncating(Some(-0.5)) == "0"
  {
    assert Truncate(1999.9) == 1999;
    assert Truncate(-1999.9) == -1999;
    assert Truncate(-0.5) == 0;
    GroupedExamples();
  }
}
