/** Column-header normalisation (`clean_column_names` in utils/helpers.py):
    strip, spaces and hyphens to '_', upper case. */
module Columns {
  import opened PyStr

  /** What a normalised header looks like. */
  predicate Normalised(h: string) {
    && Trimmed(h)
    && (forall i :: 0 <= i < |h| ==> h[i] != ' ' && h[i] != '-' && !IsLowerAscii(h[i]))
  }

  /** Upper-casing one character never yields a lower-case letter and moves
      no character into or out of the blanks, ' ' and '-'. */
  lemma UpperCharKeeps(c: char)
    ensures !IsLowerAscii(UpperChar(c))
    ensures IsSpace(UpperChar(c)) == IsSpace(c)
    ensures (UpperChar(c) == ' ') == (c == ' ') && (UpperChar(c) == '-') == (c == '-')
  {
  }

  /** Replacing ' ' and '-' by '_' in a trimmed text and upper-casing the
      result gives a normalised header. */
  lemma ReplacedUpperNormalised(t: string)
    requires Trimmed(t)
    ensures Normalised(Upper(ReplaceChar(ReplaceChar(t, ' ', '_'), '-', '_')))
  {
    var u := ReplaceChar(ReplaceChar(t, ' ', '_'), '-', '_');
    var r := Upper(u);
    forall i | 0 <= i < |u|
      ensures u[i] != ' ' && u[i] != '-' && (!IsSpace(t[i]) ==> !IsSpace(u[i]))
    {
    }
    forall i | 0 <= i < |r|
      ensures r[i] != ' ' && r[i] != '-' && !IsLowerAscii(r[i]) && (!IsSpace(t[i]) ==> !IsSpace(r[i]))
    {
      UpperCharKeeps(u[i]);
    }
  }

  /** What `.replace(' ', '_').replace('-', '_')` leaves in place of `c`. */
  function Underscored(c: char): (r: char) {
    if c == ' ' || c == '-' then '_' else c
  }

  /** The two replacements and the upper-casing act on each character on its own. */
  lemma ReplacedUpperAt(t: string)
    ensures |Upper(ReplaceChar(ReplaceChar(t, ' ', '_'), '-', '_'))| == |t|
    ensures forall i :: 0 <= i < |t| ==>
              Upper(ReplaceChar(ReplaceChar(t, ' ', '_'), '-', '_'))[i] == UpperChar(Underscored(t[i]))
  {
    var u := ReplaceChar(ReplaceChar(t, ' ', '_'), '-', '_');
    forall i | 0 <= i < |t|
      ensures u[i] == Underscored(t[i])
    {
    }
  }

  /** One header: `h.strip().replace(' ', '_').replace('-', '_').upper()`.
      Character by character, the stripped header with ' ' and '-' turned
      into '_' and upper-cased; nothing is dropped or added. */
  function CleanColumnName(h: string): (r: string)
    ensures Normalised(r)
    ensures |r| == |Strip(h)| <= |h|
    ensures forall i :: 0 <= i < |r| ==> r[i] == UpperChar(Underscored(Strip(h)[i]))
  {
    var t := Strip(h);
    ReplacedUpperNormalised(t);
    ReplacedUpperAt(t);
    Upper(ReplaceChar(ReplaceChar(t, ' ', '_'), '-', '_'))
  }

  /** Every header of a sheet, one by one, in their column order. */
  function CleanColumnNames(hs: seq<string>): (r: seq<string>)
    ensures |r| == |hs|
    ensures forall i :: 0 <= i < |hs| ==> r[i] == CleanColumnName(hs[i])
    ensures forall i :: 0 <= i < |r| ==> Normalised(r[i])
  {
    seq(|hs|, i requires 0 <= i < |hs| => CleanColumnName(hs[i]))
  }

  /** A normalised header is its own normal form. */
  lemma NormalisedFixed(h: string)
    requires Normalised(h)
    ensures CleanColumnName(h) == h
  {
    StripTrimmed(h);
    var a := ReplaceChar(h, ' ', '_');
    assert a == h;
    var b := ReplaceChar(a, '-', '_');
    assert b == h;
    assert Upper(b) == h;
  }

  /** Cleaning twice is cleaning once. */
  lemma CleanColumnNameIdempotent(h: string)
    ensures CleanColumnName(CleanColumnName(h)) == CleanColumnName(h)
  {
    NormalisedFixed(CleanColumnName(h));
  }

  /** Cleaning written one character at a time, front to back. */
  function CleanChars(s: string): (r: string) {
    if s == [] then [] else [UpperChar(Underscored(s[0]))] + CleanChars(s[1..])
  }

  lemma {:induction false} CleanCharsAt(s: string)
    ensures |CleanChars(s)| == |s|
    ensures forall i :: 0 <= i < |s| ==> CleanChars(s)[i] == UpperChar(Underscored(s[i]))
  {
    if s != [] {
      CleanCharsAt(s[1..]);
    }
  }

  /** The header cleaning is the character-by-character cleaning of the stripped header. */
  lemma CleanColumnNameByChars(h: string)
    ensures CleanColumnName(h) == CleanChars(Strip(h))
  {
    CleanCharsAt(Strip(h));
  }

  /** The blanks around a trimmed header are stripped before anything else. */
  lemma CleanColumnNamePadded(s: string)
    requires |s| > 0 && Trimmed(s)
    ensures CleanColumnName(" " + s + " ") == CleanChars(s)
  {
    StripPadded(s);
    CleanColumnNameByChars(" " + s + " ");
  }

  lemma NamaLengkapPadded()
    ensures " nama-lengkap " == " " + "nama-lengkap" + " "
  {
  }

  /** " nama-lengkap " becomes "NAMA_LENGKAP". */
  lemma CleanColumnNameExample()
    ensures CleanColumnName(" nama-lengkap ") == "NAMA_LENGKAP"
  {
    NamaLengkapPadded();
    CleanColumnNamePadded("nama-lengkap");
    CleanCharsExample();
  }

  /** Cleaning character by character works piecewise. */
  lemma {:induction false} CleanCharsAppend(a: string, b: string)
    ensures CleanChars(a + b) == CleanChars(a) + CleanChars(b)
    decreases |a|
  {
    if a == [] {
      assert a + b == b;
    } else {
      assert (a + b)[0] == a[0] && (a + b)[1..] == a[1..] + b;
      CleanCharsAppend(a[1..], b);
    }
  }

  lemma CleanCharsNama()
    ensures CleanChars("nama") == "NAMA"
  {
    assert CleanChars("a") == "A";
    assert CleanChars("ma") == "MA";
    assert CleanChars("ama") == "AMA";
  }

  lemma CleanCharsLengkap()
    ensures CleanChars("lengkap") == "LENGKAP"
  {
    assert CleanChars("p") == "P";
    assert CleanChars("ap") == "AP";
    assert CleanChars("kap") == "KAP";
    assert CleanChars("gkap") == "GKAP";
    assert CleanChars("ngkap") == "NGKAP";
    assert CleanChars("engkap") == "ENGKAP";
  }

  lemma NamaLengkapParts()
    ensures "nama-lengkap" == "nama" + ("-" + "lengkap")
    ensures "NAMA_LENGKAP" == "NAMA" + ("_" + "LENGKAP")
  {
  }

  lemma CleanCharsExample()
    ensures CleanChars("nama-lengkap") == "NAMA_LENGKAP"
  {
    NamaLengkapParts();
    CleanCharsAppend("nama", "-" + "lengkap");
    CleanCharsAppend("-", "lengkap");
    CleanCharsNama();
    CleanCharsLengkap();
  }

  lemma CleanColumnNamesIdempotent(hs: seq<string>)
    ensures CleanColumnNames(CleanColumnNames(hs)) == CleanColumnNames(hs)
  {
    var once := CleanColumnNames(hs);
    forall i | 0 <= i < |hs|
      ensures CleanColumnName(once[i]) == once[i]
    {
      NormalisedFixed(once[i]);
    }
  }
}
