/** The Python string primitives the payslip code relies on: `strip`, `replace`
    of one character, `upper`/`lower`, `startswith`/`endswith`, `zfill`,
    `str(int)` and `int(str)`, all over `seq<char>`. */
module PyStr {
  import opened Wrappers

  /** `str.isspace()` for one character: exactly the characters `str.strip()` removes. */
  predicate IsSpace(c: char) {
    || c == ' '
    || '\t' <= c <= '\r'
    || '\U{1c}' <= c <= '\U{1f}'
    || c == '\U{85}' || c == '\U{a0}' || c == '\U{1680}'
    || '\U{2000}' <= c <= '\U{200a}'
    || c == '\U{2028}' || c == '\U{2029}' || c == '\U{202f}' || c == '\U{205f}' || c == '\U{3000}'
  }

  /** `s.lstrip()`: drops the leading whitespace and nothing else. */
  function LStrip(s: string): (r: string)
    ensures |r| <= |s| && r == s[|s| - |r|..]
    ensures forall i :: 0 <= i < |s| - |r| ==> IsSpace(s[i])
    ensures r == [] || !IsSpace(r[0])
  {
    if |s| > 0 && IsSpace(s[0]) then LStrip(s[1..]) else s
  }

  /** `s.rstrip()`: drops the trailing whitespace and nothing else. */
  function RStrip(s: string): (r: string)
    ensures |r| <= |s| && r == s[..|r|]
    ensures forall i :: |r| <= i < |s| ==> IsSpace(s[i])
    ensures r == [] || !IsSpace(r[|r| - 1])
  {
    if |s| > 0 && IsSpace(s[|s| - 1]) then RStrip(s[..|s| - 1]) else s
  }

  /** No whitespace at either end. */
  predicate Trimmed(s: string) {
    s == [] || (!IsSpace(s[0]) && !IsSpace(s[|s| - 1]))
  }

  /** `s.strip()`. */
  function Strip(s: string): (r: string)
    ensures |r| <= |s|
    ensures Trimmed(r)
  {
    var l := LStrip(s);
    var r := RStrip(l);
    assert r == [] || r[0] == l[0];
    r
  }

  lemma StripTrimmed(s: string)
    requires Trimmed(s)
    ensures Strip(s) == s
  {
  }

  /** One blank on each side of a trimmed, non-empty text is stripped off. */
  lemma StripPadded(s: string)
    requires |s| > 0 && Trimmed(s)
    ensures Strip(" " + s + " ") == s
  {
    var t := " " + s + " ";
    assert t[1..] == s + " ";
    assert LStrip(t) == LStrip(s + " ");
    assert (s + " ")[0] == s[0];
    assert LStrip(s + " ") == s + " ";
    assert (s + " ")[..|s|] == s;
    assert RStrip(s + " ") == RStrip(s);
  }

  /** `s.replace(a, b)` for single characters `a` and `b`. */
  function ReplaceChar(s: string, a: char, b: char): (r: string)
    ensures |r| == |s|
    ensures forall i :: 0 <= i < |s| ==> r[i] == if s[i] == a then b else s[i]
  {
    seq(|s|, i requires 0 <= i < |s| => if s[i] == a then b else s[i])
  }

  predicate IsLowerAscii(c: char) { 'a' <= c <= 'z' }

  /** `str.upper()` on one character; only the ASCII letters are mapped. */
  function UpperChar(c: char): (r: char) {
    if IsLowerAscii(c) then (c as int - 32) as char else c
  }

  function Upper(s: string): (r: string)
    ensures |r| == |s|
    ensures forall i :: 0 <= i < |s| ==> r[i] == UpperChar(s[i])
  {
    seq(|s|, i requires 0 <= i < |s| => UpperChar(s[i]))
  }

  /** `str.lower()` on one character: the ASCII letters, and KELVIN SIGN, whose
      lowercase is the ASCII letter 'k'. */
  function LowerChar(c: char): (r: char) {
    if 'A' <= c <= 'Z' then (c as int + 32) as char
    else if c == '\U{212a}' then 'k'
    else c
  }

  function Lower(s: string): (r: string)
    ensures |r| == |s|
    ensures forall i :: 0 <= i < |s| ==> r[i] == LowerChar(s[i])
  {
    seq(|s|, i requires 0 <= i < |s| => LowerChar(s[i]))
  }

  predicate StartsWith(s: string, p: string) {
    |p| <= |s| && s[..|p|] == p
  }

  predicate EndsWith(s: string, x: string) {
    |x| <= |s| && s[|s| - |x|..] == x
  }

  /** A concatenation starts with its first part and ends with its last. */
  lemma Affixes(a: string, b: string, c: string)
    ensures StartsWith(a + b + c, a) && EndsWith(a + b + c, c)
  {
    assert (a + b + c)[..|a|] == a;
    assert (a + b + c)[|a + b|..] == c;
  }

  /** `s` is `prefix`, then `middle`, then `suffix`, read off by position. */
  predicate Framed(s: string, prefix: string, middle: string, suffix: string) {
    && |s| == |prefix| + |middle| + |suffix|
    && StartsWith(s, prefix) && EndsWith(s, suffix)
    && s[|prefix|..|prefix| + |middle|] == middle
  }

  /** Reading the three parts off by position is the same as concatenating them. */
  lemma FramedIff(s: string, prefix: string, middle: string, suffix: string)
    ensures Framed(s, prefix, middle, suffix) <==> s == prefix + middle + suffix
  {
    var t := prefix + middle + suffix;
    Affixes(prefix, middle, suffix);
    assert t[|prefix|..|prefix| + |middle|] == middle;
    if Framed(s, prefix, middle, suffix) {
      assert s == s[..|prefix|] + s[|prefix|..|prefix| + |middle|] + s[|prefix| + |middle|..];
    }
  }

  // ---------------------------------------------------------------------
  // os.path.join
  // ---------------------------------------------------------------------

  /** A POSIX path that starts at the root. */
  predicate Absolute(p: string) {
    |p| > 0 && p[0] == '/'
  }

  /** `os.path.join(a, b)` (posixpath): an absolute `b` discards `a`;
      otherwise `b` is appended, with a '/' in between unless `a` is empty or
      already ends with one. */
  function PathJoin(a: string, b: string): (r: string)
    ensures Absolute(b) ==> r == b
    ensures !Absolute(b) ==> StartsWith(r, a) && EndsWith(r, b)
    ensures !Absolute(b) ==> (|r| == |a| + |b| <==> a == [] || EndsWith(a, "/"))
    ensures !Absolute(b) ==> |a| + |b| <= |r| <= |a| + |b| + 1
    ensures !Absolute(b) && |r| == |a| + |b| + 1 ==> r[|a|] == '/'
  {
    if Absolute(b) then b
    else if a == [] || a[|a| - 1] == '/' then
      Affixes(a, [], b);
      a + b
    else
      Affixes(a, "/", b);
      a + "/" + b
  }

  // ---------------------------------------------------------------------
  // Decimal digits: str(int) and int(str)
  // ---------------------------------------------------------------------

  predicate IsDigit(c: char) { '0' <= c <= '9' }

  predicate AllDigits(s: string) {
    forall i :: 0 <= i < |s| ==> IsDigit(s[i])
  }

  function DigitChar(d: nat): (c: char)
    requires d < 10
    ensures IsDigit(c) && c as int == '0' as int + d
  {
    ('0' as int + d) as char
  }

  function DigitValue(c: char): (d: nat)
    requires IsDigit(c)
    ensures d < 10 && DigitChar(d) == c
  {
    c as int - '0' as int
  }

  /** `str(n)` for a non-negative integer: canonical decimal, no leading zero. */
  function NatToDecimal(n: nat): (r: string)
    ensures |r| >= 1 && AllDigits(r)
    ensures (r[0] == '0') == (n == 0)
    decreases n
  {
    if n < 10 then [DigitChar(n)] else NatToDecimal(n / 10) + [DigitChar(n % 10)]
  }

  /** The value of a string of decimal digits (leading zeros allowed). */
  function DecimalValue(s: string): (r: nat)
    requires AllDigits(s)
  {
    if s == [] then 0 else DecimalValue(s[..|s| - 1]) * 10 + DigitValue(s[|s| - 1])
  }

  lemma {:induction false} DecimalRoundTrip(n: nat)
    ensures DecimalValue(NatToDecimal(n)) == n
    decreases n
  {
    var r := NatToDecimal(n);
    if n >= 10 {
      DecimalRoundTrip(n / 10);
      assert r[..|r| - 1] == NatToDecimal(n / 10);
    }
  }

  /** `str(i)` for any integer. */
  function IntToDecimal(i: int): (r: string)
    ensures |r| >= 1
    ensures i >= 0 ==> AllDigits(r)
    ensures i < 0 ==> r[0] == '-' && AllDigits(r[1..])
  {
    if i < 0 then "-" + NatToDecimal(-i) else NatToDecimal(i)
  }

  function Zeros(n: nat): (r: string)
    ensures |r| == n && AllDigits(r)
    ensures forall i :: 0 <= i < n ==> r[i] == '0'
  {
    seq(n, _ => '0')
  }

  lemma {:induction false} LeadingZerosValue(k: nat, s: string)
    requires AllDigits(s)
    ensures AllDigits(Zeros(k) + s)
    ensures DecimalValue(Zeros(k) + s) == DecimalValue(s)
    decreases |s|
  {
    var z := Zeros(k) + s;
    if s == [] {
      assert z == Zeros(k);
      ZerosValue(k);
    } else {
      assert z[..|z| - 1] == Zeros(k) + s[..|s| - 1];
      LeadingZerosValue(k, s[..|s| - 1]);
    }
  }

  lemma {:induction false} ZerosValue(k: nat)
    ensures DecimalValue(Zeros(k)) == 0
    decreases k
  {
    if k > 0 {
      assert Zeros(k)[..k - 1] == Zeros(k - 1);
      ZerosValue(k - 1);
    }
  }

  /** Python's `s.zfill(width)`: left-pad with '0' to `width` characters; when
      `s` starts with a sign, the sign stays in front of the padding. */
  function ZFill(s: string, width: nat): (r: string)
    ensures |r| == if |s| >= width then |s| else width
    ensures |s| >= width ==> r == s
    ensures |s| < width && |s| > 0 && (s[0] == '+' || s[0] == '-') ==>
              r[0] == s[0] && r[|r| - (|s| - 1)..] == s[1..]
              && forall i :: 1 <= i <= width - |s| ==> r[i] == '0'
    ensures |s| < width && !(|s| > 0 && (s[0] == '+' || s[0] == '-')) ==>
              r[|r| - |s|..] == s && forall i :: 0 <= i < width - |s| ==> r[i] == '0'
  {
    if |s| >= width then s
    else if |s| > 0 && (s[0] == '+' || s[0] == '-') then [s[0]] + Zeros(width - |s|) + s[1..]
    else Zeros(width - |s|) + s
  }

  // ---------------------------------------------------------------------
  // int(str)
  // ---------------------------------------------------------------------

  /** The digit body `int()` accepts: ASCII digits, with single underscores
      allowed between two digits. */
  predicate DigitBody(b: string) {
    && |b| > 0
    && IsDigit(b[0]) && IsDigit(b[|b| - 1])
    && (forall i :: 0 <= i < |b| ==> IsDigit(b[i]) || b[i] == '_')
    && (forall i :: 0 <= i < |b| - 1 ==> !(b[i] == '_' && b[i + 1] == '_'))
  }

  function DropUnderscores(b: string): (r: string)
    requires forall i :: 0 <= i < |b| ==> IsDigit(b[i]) || b[i] == '_'
    ensures AllDigits(r)
    ensures AllDigits(b) ==> r == b
  {
    if b == [] then []
    else (if b[0] == '_' then [] else [b[0]]) + DropUnderscores(b[1..])
  }

  /** The digit body of `int()`'s argument, as a natural number. */
  function ParseBody(b: string): (r: Option<nat>)
    ensures r.Some? <==> DigitBody(b)
  {
    if DigitBody(b) then Some(DecimalValue(DropUnderscores(b))) else None
  }

  /** `int()` of an already stripped string: optional sign, then the body. */
  function ParseStripped(t: string): (r: Option<int>) {
    if |t| > 0 && (t[0] == '+' || t[0] == '-') then
      match ParseBody(t[1..])
      case None => None
      case Some(v) => Some(if t[0] == '-' then -(v as int) else v as int)
    else
      match ParseBody(t)
      case None => None
      case Some(v) => Some(v)
  }

  /** Python's `int(s)` on a string (base 10); `None` where `int` raises ValueError. */
  function ParseInt(s: string): (r: Option<int>)
    ensures r.Some? ==> |Strip(s)| > 0
  {
    ParseStripped(Strip(s))
  }

  lemma ParseBodyDigits(d: string)
    requires AllDigits(d) && |d| > 0
    ensures ParseBody(d) == Some(DecimalValue(d))
  {
    assert DigitBody(d);
  }

  lemma ParseStrippedDecimal(i: int)
    ensures ParseStripped(IntToDecimal(i)) == Some(i)
  {
    var n: nat := if i < 0 then -i else i;
    var d := NatToDecimal(n);
    var s := IntToDecimal(i);
    DecimalRoundTrip(n);
    ParseBodyDigits(d);
    if i < 0 {
      assert s[1..] == d;
    } else {
      assert s == d && IsDigit(s[0]);
    }
  }

  lemma DecimalTrimmed(i: int)
    ensures Trimmed(IntToDecimal(i))
  {
    var s := IntToDecimal(i);
    assert s[0] == '-' || IsDigit(s[0]);
    assert IsDigit(s[|s| - 1]);
  }

  /** `int(str(i)) == i`: the decimal form of any integer parses back. */
  lemma ParseIntDecimal(i: int)
    ensures ParseInt(IntToDecimal(i)) == Some(i)
  {
    DecimalTrimmed(i);
    StripTrimmed(IntToDecimal(i));
    ParseStrippedDecimal(i);
  }
}
