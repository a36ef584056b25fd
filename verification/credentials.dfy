/** The two password rules of the payslip code.

    - The slip and login password is `str(TTL).zfill(8)`: the birth-date
      cell's text, left-padded with '0' to eight characters (app.py builds its
      login column this way; both `generate_pdf` variants protect the PDF with
      it).
    - The seeding password is `ddmmyyyy` of a date pandas has already parsed
      (seed_user.py). */
module Credentials {
  import opened PyStr
  import opened Cells

  // ---------------------------------------------------------------------
  // zfill(str(TTL), 8)
  // ---------------------------------------------------------------------

  /** `str(data.get("TTL", "")).zfill(8)`, the password `generate_pdf` protects the slip with. */
  function TtlPassword(rec: Record): (r: string) {
    ZFill(Str(Get(rec, "TTL", Text(""))), 8)
  }

  /** The `password` column app.py derives when it loads the sheet:
      `df['TTL'].astype(str).str.zfill(8)`. */
  function LoginPassword(row: Record): (r: string)
    requires "TTL" in row
  {
    ZFill(Str(row["TTL"]), 8)
  }

  /** What the slip password is: never shorter than eight characters, the
      birth-date text itself when that is already eight or more long, and
      "00000000" when the record has no TTL column at all. */
  lemma TtlPasswordShape(rec: Record)
    ensures |TtlPassword(rec)| >= 8
    ensures "TTL" !in rec ==> TtlPassword(rec) == "00000000"
    ensures "TTL" in rec && |Str(rec["TTL"])| >= 8 ==> TtlPassword(rec) == Str(rec["TTL"])
    ensures "TTL" in rec && |Str(rec["TTL"])| < 8 && AllDigits(Str(rec["TTL"])) ==>
              AllDigits(TtlPassword(rec)) && |TtlPassword(rec)| == 8
              && EndsWith(TtlPassword(rec), Str(rec["TTL"]))
  {
    if "TTL" !in rec {
      assert Str(Text("")) == "";
      assert Zeros(8) == "00000000";
    }
  }

  /** For the cells modelled here (text, integers, NaN) the login password
      and the slip password of a row are the same string, so an employee
      opens their slip with the password they log in with. A TTL column read
      as dates breaks this: `astype(str)` prints "1990-04-25", while `str()`
      of the row's Timestamp prints "1990-04-25 00:00:00". */
  lemma LoginMatchesSlipPassword(row: Record)
    requires "TTL" in row
    ensures LoginPassword(row) == TtlPassword(row)
    ensures |LoginPassword(row)| >= 8
  {
  }

  /** Zero-padding a digit string keeps its numeric value and keeps it a digit string. */
  lemma ZFillKeepsValue(s: string, width: nat)
    requires AllDigits(s)
    ensures AllDigits(ZFill(s, width))
    ensures DecimalValue(ZFill(s, width)) == DecimalValue(s)
  {
    if |s| < width {
      var k := width - |s|;
      if |s| > 0 {
        assert !(s[0] == '+' || s[0] == '-') by { assert IsDigit(s[0]); }
      }
      assert ZFill(s, width) == Zeros(k) + s;
      LeadingZerosValue(k, s);
    }
  }

  /** Padding twice is padding once. */
  lemma ZFillIdempotent(s: string, width: nat)
    ensures ZFill(ZFill(s, width), width) == ZFill(s, width)
  {
  }

  lemma Decimal1011990()
    ensures IntToDecimal(1011990) == "1011990"
  {
    assert NatToDecimal(1) == "1";
    assert NatToDecimal(10) == "10";
    assert NatToDecimal(101) == "101";
    assert NatToDecimal(1011) == "1011";
    assert NatToDecimal(10119) == "10119";
    assert NatToDecimal(101199) == "101199";
  }

  /** A birth date typed as a number loses its leading zero in the sheet;
      zfill puts it back. */
  lemma TtlPasswordNumericDate()
    ensures TtlPassword(map["TTL" := Int(1011990)]) == "01011990"
  {
    Decimal1011990();
    assert Zeros(1) == "0";
  }

  /** A date typed with dashes is kept as it is, dashes and all. */
  lemma TtlPasswordDashedDate()
    ensures TtlPassword(map["TTL" := Text("25-04-1990")]) == "25-04-1990"
  {
  }

  /** An empty cell reads as "nan", padded to "00000nan". */
  lemma TtlPasswordEmptyCell()
    ensures TtlPassword(map["TTL" := Missing]) == "00000nan"
  {
    assert Zeros(5) == "00000";
  }

  /** zfill puts the zeros after a leading sign. */
  lemma TtlPasswordNegative()
    ensures TtlPassword(map["TTL" := Int(-5)]) == "-0000005"
  {
    assert IntToDecimal(-5) == "-5";
    assert Zeros(6) == "000000";
  }

  // ---------------------------------------------------------------------
  // ddmmyyyy of a parsed date
  // ---------------------------------------------------------------------

  /** A calendar date (day, month, year). */
  datatype Date = Date(day: int, month: int, year: int)

  function DaysInMonth(month: int, year: int): (r: int)
    requires 1 <= month <= 12
  {
    if month == 2 then
      (if year % 4 == 0 && (year % 100 != 0 || year % 400 == 0) then 29 else 28)
    else if month == 4 || month == 6 || month == 9 || month == 11 then 30
    else 31
  }

  /** A date a pandas Timestamp can hold: a real calendar day in the years
      1677..2262 that Timestamp's 64-bit nanosecond range covers. */
  predicate ValidDate(d: Date) {
    && 1677 <= d.year <= 2262
    && 1 <= d.month <= 12
    && 1 <= d.day <= DaysInMonth(d.month, d.year)
  }

  type Timestamp = d: Date | ValidDate(d) witness Date(1, 1, 1970)

  function TwoDigits(n: nat): (r: string)
    requires n < 100
    ensures |r| == 2 && AllDigits(r)
  {
    [DigitChar(n / 10), DigitChar(n % 10)]
  }

  /** `strftime('%d%m%Y')`. */
  function DdMmYyyy(d: Timestamp): (r: string)
    ensures |r| == 8 && AllDigits(r)
  {
    FourDigitYear(d.year);
    TwoDigits(d.day) + TwoDigits(d.month) + NatToDecimal(d.year)
  }

  lemma FourDigitYear(y: nat)
    requires 1000 <= y <= 9999
    ensures |NatToDecimal(y)| == 4
  {
    assert |NatToDecimal(y / 1000)| == 1;
    assert NatToDecimal(y / 100) == NatToDecimal(y / 1000) + [DigitChar(y / 100 % 10)];
    assert NatToDecimal(y / 10) == NatToDecimal(y / 100) + [DigitChar(y / 10 % 10)];
  }

  lemma TwoDigitsValue(n: nat)
    requires n < 100
    ensures DecimalValue(TwoDigits(n)) == n
  {
    var t := TwoDigits(n);
    assert t[..1] == [DigitChar(n / 10)];
    assert t[..1][..0] == [];
    assert DecimalValue(t[..1]) == n / 10;
  }

  /** Reading `ddmmyyyy` back: day, month and year as written. */
  function ReadDdMmYyyy(s: string): (r: Date)
    requires |s| == 8 && AllDigits(s)
  {
    Date(DecimalValue(s[0..2]), DecimalValue(s[2..4]), DecimalValue(s[4..8]))
  }

  /** The seeding password encodes the date without loss; in particular two
      different birth dates never share a seeding password. */
  lemma DdMmYyyyRoundTrip(d: Timestamp)
    ensures ReadDdMmYyyy(DdMmYyyy(d)) == d
  {
    var r := DdMmYyyy(d);
    FourDigitYear(d.year);
    assert r[0..2] == TwoDigits(d.day);
    assert r[2..4] == TwoDigits(d.month);
    assert r[4..8] == NatToDecimal(d.year);
    TwoDigitsValue(d.day);
    TwoDigitsValue(d.month);
    DecimalRoundTrip(d.year);
  }

  lemma DdMmYyyyInjective(a: Timestamp, b: Timestamp)
    requires DdMmYyyy(a) == DdMmYyyy(b)
    ensures a == b
  {
    DdMmYyyyRoundTrip(a);
    DdMmYyyyRoundTrip(b);
  }

  lemma DdMmYyyyExample()
    ensures DdMmYyyy(Date(25, 4, 1990)) == "25041990"
  {
    assert NatToDecimal(1990) == "1990" by {
      assert NatToDecimal(1) == "1";
      assert NatToDecimal(19) == "19";
      assert NatToDecimal(199) == "199";
    }
  }
}
