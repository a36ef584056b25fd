/** The compensation classifier `get_komponen_by_status` (utils/helpers.py):
    the lower-cased employment status picks one of three fixed layouts, and
    each layout lists, in display order, which column feeds which slip label
    in the take-home (THP), other-income and deduction tables. */
module Komponen {
  import opened PyStr
  import opened Cells

  /** The lower-cased status: "pkwtt" (permanent), "pkwt" (fixed term),
      "tambahan" (supplemental), or anything else. */
  datatype Status = Pkwtt | Pkwt | Tambahan | Other

  /** One slip label and the column its amount is read from. */
  datatype Field = Field(name: string, column: string)

  /** One line of a table: a label and the cell copied from the record. */
  datatype Entry = Entry(name: string, value: Cell)

  /** The three ordered tables: take-home pay, other income, deductions. */
  datatype Tables = Tables(thp: seq<Entry>, lain: seq<Entry>, potongan: seq<Entry>)

  datatype Layout = Layout(thp: seq<Field>, lain: seq<Field>, potongan: seq<Field>)

  const PkwttLayout := Layout(
    [ Field("Gaji Dasar 1", "GAJI_DASAR_1"),
      Field("Gaji Dasar 2", "GAJI_DASAR_2"),
      Field("Tunjangan Grade", "TUNJ_GRADE") ],
    [ Field("Insentif", "INSENTIF"),
      Field("Rapel", "RAPEL"),
      Field("Tunjangan Struktural", "TUNJ_STRUKTURAL"),
      Field("Uang Makan", "FOODING"),
      Field("Uang Transport", "TRANSPORT"),
      Field("Telpon", "TELPON"),
      Field("Uang Bensin", "BENSIN"),
      Field("Uang Perumahan", "PERUMAHAN"),
      Field("EToll", "ETOLL"),
      Field("Tunjangan Kendaraan", "KENDARAAN") ],
    [ Field("IDP", "IDP"),
      Field("PIP", "PIP"),
      Field("DPLK", "DPLK"),
      Field("Simp. Wajib Koperasi", "SIKOP"),
      Field("Pinjaman Koperasi", "PINKOP"),
      Field("Serikat Pekerja", "SP"),
      Field("BPJS Ketenagakerjaan - JHT", "JAMSOSTEK"),
      Field("BPJS Ketenagakerjaan - JP", "JAMINAN_PENSIUN"),
      Field("BPJS Kesehatan", "BPJS_KESEHATAN"),
      Field("Lain-Lain", "LAIN_LAIN") ])

  const PkwtLayout := Layout(
    [ Field("Honorarium", "GAJI_KONTRAK"),
      Field("Bantuan DPLK", "BANTUAN_DPLK") ],
    [ Field("Insentif", "INSENTIF"),
      Field("Uang Makan", "FOODING"),
      Field("Uang Transport", "TRANSPORT") ],
    [ Field("DPLK", "DPLK"),
      Field("Simp. Wajib Koperasi", "SIKOP"),
      Field("Pinjaman Koperasi", "PINKOP"),
      Field("Serikat Pekerja", "SP"),
      Field("BPJS Ketenagakerjaan - JHT", "JAMSOSTEK"),
      Field("BPJS Ketenagakerjaan - JP", "JAMINAN_PENSIUN"),
      Field("BPJS Kesehatan", "BPJS_KESEHATAN"),
      Field("Lain-Lain", "LAIN_LAIN") ])

  const TambahanLayout := Layout(
    [ Field("Honorarium", "GAJI_KONTRAK") ],
    [ Field("Uang Perumahan", "PERUMAHAN"),
      Field("Uang Transport", "TRANSPORT") ],
    [ Field("Simp. Wajib Koperasi", "SIKOP"),
      Field("Pinjaman Koperasi", "PINKOP"),
      Field("BPJS Ketenagakerjaan - JHT", "JAMSOSTEK"),
      Field("BPJS Ketenagakerjaan - JP", "JAMINAN_PENSIUN"),
      Field("BPJS Kesehatan", "BPJS_KESEHATAN") ])

  const EmptyLayout := Layout([], [], [])

  /** `str(user_dict.get('STATUS_PEGAWAI', '')).lower()`, compared without trimming. */
  function StatusOf(rec: Record): (r: Status) {
    var s := Lower(Str(Get(rec, "STATUS_PEGAWAI", Text(""))));
    if s == "pkwtt" then Pkwtt
    else if s == "pkwt" then Pkwt
    else if s == "tambahan" then Tambahan
    else Other
  }

  function LayoutOf(st: Status): (r: Layout) {
    match st
    case Pkwtt => PkwttLayout
    case Pkwt => PkwtLayout
    case Tambahan => TambahanLayout
    case Other => EmptyLayout
  }

  /** The table `{label: user_dict.get(column, 0), ...}` for a list of fields:
      same labels in the same order, each value the record's cell or 0. */
  predicate FilledFrom(entries: seq<Entry>, rec: Record, fields: seq<Field>) {
    && |entries| == |fields|
    && forall i :: 0 <= i < |fields| ==>
         && entries[i].name == fields[i].name
         && (fields[i].column in rec ==> entries[i].value == rec[fields[i].column])
         && (fields[i].column !in rec ==> entries[i].value == Int(0))
  }

  function Fill(rec: Record, fields: seq<Field>): (r: seq<Entry>)
    ensures FilledFrom(r, rec, fields)
  {
    seq(|fields|, i requires 0 <= i < |fields| => Entry(fields[i].name, Get(rec, fields[i].column, Int(0))))
  }

  /** The three tables of a layout, filled from a record. */
  function TablesFrom(rec: Record, lay: Layout): (r: Tables) {
    Tables(Fill(rec, lay.thp), Fill(rec, lay.lain), Fill(rec, lay.potongan))
  }

  /** `get_komponen_by_status`. It never fails: an unrecognised or missing
      status gives three empty tables. */
  function GetKomponenByStatus(rec: Record): (k: Tables)
    ensures var lay := LayoutOf(StatusOf(rec));
            FilledFrom(k.thp, rec, lay.thp) && FilledFrom(k.lain, rec, lay.lain)
            && FilledFrom(k.potongan, rec, lay.potongan)
    ensures StatusOf(rec) == Other <==> k == Tables([], [], [])
    ensures StatusOf(rec) == Pkwtt ==> |k.thp| == 3 && |k.lain| == 10 && |k.potongan| == 10
    ensures StatusOf(rec) == Pkwt ==> |k.thp| == 2 && |k.lain| == 3 && |k.potongan| == 8
    ensures StatusOf(rec) == Tambahan ==> |k.thp| == 1 && |k.lain| == 2 && |k.potongan| == 5
  {
    TablesFrom(rec, LayoutOf(StatusOf(rec)))
  }

  // ---------------------------------------------------------------------
  // Properties of the classifier
  // ---------------------------------------------------------------------

  /** The labels of a list of fields, in order. */
  function Names(fs: seq<Field>): (r: seq<string>)
    ensures |r| == |fs|
  {
    seq(|fs|, i requires 0 <= i < |fs| => fs[i].name)
  }

  /** The labels of a layout, table after table. */
  function AllLabels(lay: Layout): (r: seq<string>) {
    Names(lay.thp) + Names(lay.lain) + Names(lay.potongan)
  }

  predicate Distinct<T(==)>(xs: seq<T>) {
    forall i, j :: 0 <= i < j < |xs| ==> xs[i] != xs[j]
  }

  /** No element of `a` occurs in `b`. */
  predicate Disjoint<T(==)>(a: seq<T>, b: seq<T>) {
    forall i, j :: 0 <= i < |a| && 0 <= j < |b| ==> a[i] != b[j]
  }

  /** Three tables without repeats, no two sharing an element, make one list
      without repeats. */
  lemma DistinctJoin<T>(a: seq<T>, b: seq<T>, c: seq<T>)
    requires Distinct(a) && Distinct(b) && Distinct(c)
    requires Disjoint(a, b) && Disjoint(a, c) && Disjoint(b, c)
    ensures Distinct(a + b + c)
  {
    var xs := a + b + c;
    forall i, j | 0 <= i < j < |xs|
      ensures xs[i] != xs[j]
    {
      if j < |a| {
        assert xs[i] == a[i] && xs[j] == a[j];
      } else if j < |a| + |b| {
        if i < |a| {
          assert xs[i] == a[i] && xs[j] == b[j - |a|];
        } else {
          assert xs[i] == b[i - |a|] && xs[j] == b[j - |a|];
        }
      } else if i < |a| {
        assert xs[i] == a[i] && xs[j] == c[j - |a| - |b|];
      } else if i < |a| + |b| {
        assert xs[i] == b[i - |a|] && xs[j] == c[j - |a| - |b|];
      } else {
        assert xs[i] == c[i - |a| - |b|] && xs[j] == c[j - |a| - |b|];
      }
    }
  }

  /** A cheap fingerprint of a label: its length, first and last character. */
  function Sketch(s: string): (int, char, char) {
    if s == [] then (0, ' ', ' ') else (|s|, s[0], s[|s| - 1])
  }

  function Sketches(xs: seq<string>): (r: seq<(int, char, char)>)
    ensures |r| == |xs|
  {
    seq(|xs|, i requires 0 <= i < |xs| => Sketch(xs[i]))
  }

  /** The fingerprints of a layout's three tables. */
  datatype Prints = Prints(thp: seq<(int, char, char)>, lain: seq<(int, char, char)>, potongan: seq<(int, char, char)>)

  /** Labels with pairwise different fingerprints are pairwise different. */
  lemma LayoutDistinctByPrints(lay: Layout, pr: Prints)
    requires Sketches(Names(lay.thp)) == pr.thp
    requires Sketches(Names(lay.lain)) == pr.lain
    requires Sketches(Names(lay.potongan)) == pr.potongan
    requires Distinct(pr.thp + pr.lain + pr.potongan)
    ensures Distinct(AllLabels(lay))
  {
    var xs := AllLabels(lay);
    var ks := pr.thp + pr.lain + pr.potongan;
    assert Sketches(xs) == ks;
    forall i, j | 0 <= i < j < |xs|
      ensures xs[i] != xs[j]
    {
      assert ks[i] != ks[j];
    }
  }

  const PkwttPrints := Prints(
    [(12, 'G', '1'), (12, 'G', '2'), (15, 'T', 'e')],
    [
      (8, 'I', 'f'), (5, 'R', 'l'), (20, 'T', 'l'), (10, 'U', 'n'), (14, 'U', 't'),
      (6, 'T', 'n'), (11, 'U', 'n'), (14, 'U', 'n'), (5, 'E', 'l'), (19, 'T', 'n') ],
    [
      (3, 'I', 'P'), (3, 'P', 'P'), (4, 'D', 'K'), (20, 'S', 'i'), (17, 'P', 'i'),
      (15, 'S', 'a'), (26, 'B', 'T'), (25, 'B', 'P'), (14, 'B', 'n'), (9, 'L', 'n') ])

  lemma PkwttPrintsEachDistinct()
    ensures Distinct(PkwttPrints.thp) && Distinct(PkwttPrints.lain)
  {
  }

  lemma PkwttPrintsPotonganDistinct()
    ensures Distinct(PkwttPrints.potongan)
  {
  }

  lemma PkwttPrintsApart()
    ensures Disjoint(PkwttPrints.thp, PkwttPrints.lain) && Disjoint(PkwttPrints.thp, PkwttPrints.potongan)
  {
  }

  lemma PkwttPrintsOtherApart()
    ensures Disjoint(PkwttPrints.lain, PkwttPrints.potongan)
  {
  }

  lemma PkwttPrintsDistinct()
    ensures Distinct(PkwttPrints.thp + PkwttPrints.lain + PkwttPrints.potongan)
  {
    PkwttPrintsEachDistinct();
    PkwttPrintsPotonganDistinct();
    PkwttPrintsApart();
    PkwttPrintsOtherApart();
    DistinctJoin(PkwttPrints.thp, PkwttPrints.lain, PkwttPrints.potongan);
  }

  lemma PkwttPrintsOfThp()
    ensures Sketches(Names(PkwttLayout.thp)) == PkwttPrints.thp
  {
  }

  lemma PkwttPrintsOfLain()
    ensures Sketches(Names(PkwttLayout.lain)) == PkwttPrints.lain
  {
  }

  lemma PkwttPrintsOfPotongan()
    ensures Sketches(Names(PkwttLayout.potongan)) == PkwttPrints.potongan
  {
  }

  lemma PkwttLabelsDistinct()
    ensures Distinct(AllLabels(PkwttLayout))
  {
    PkwttPrintsOfThp();
    PkwttPrintsOfLain();
    PkwttPrintsOfPotongan();
    PkwttPrintsDistinct();
    LayoutDistinctByPrints(PkwttLayout, PkwttPrints);
  }

  const PkwtPrints := Prints(
    [(10, 'H', 'm'), (12, 'B', 'K')],
    [(8, 'I', 'f'), (10, 'U', 'n'), (14, 'U', 't')],
    [
      (4, 'D', 'K'), (20, 'S', 'i'), (17, 'P', 'i'), (15, 'S', 'a'), (26, 'B', 'T'),
      (25, 'B', 'P'), (14, 'B', 'n'), (9, 'L', 'n') ])

  lemma PkwtPrintsEachDistinct()
    ensures Distinct(PkwtPrints.thp) && Distinct(PkwtPrints.lain)
  {
  }

  lemma PkwtPrintsPotonganDistinct()
    ensures Distinct(PkwtPrints.potongan)
  {
  }

  lemma PkwtPrintsApart()
    ensures Disjoint(PkwtPrints.thp, PkwtPrints.lain) && Disjoint(PkwtPrints.thp, PkwtPrints.potongan)
  {
  }

  lemma PkwtPrintsOtherApart()
    ensures Disjoint(PkwtPrints.lain, PkwtPrints.potongan)
  {
  }

  lemma PkwtPrintsDistinct()
    ensures Distinct(PkwtPrints.thp + PkwtPrints.lain + PkwtPrints.potongan)
  {
    PkwtPrintsEachDistinct();
    PkwtPrintsPotonganDistinct();
    PkwtPrintsApart();
    PkwtPrintsOtherApart();
    DistinctJoin(PkwtPrints.thp, PkwtPrints.lain, PkwtPrints.potongan);
  }

  lemma PkwtPrintsOfThp()
    ensures Sketches(Names(PkwtLayout.thp)) == PkwtPrints.thp
  {
  }

  lemma PkwtPrintsOfLain()
    ensures Sketches(Names(PkwtLayout.lain)) == PkwtPrints.lain
  {
  }

  lemma PkwtPrintsOfPotongan()
    ensures Sketches(Names(PkwtLayout.potongan)) == PkwtPrints.potongan
  {
  }

  lemma PkwtLabelsDistinct()
    ensures Distinct(AllLabels(PkwtLayout))
  {
    PkwtPrintsOfThp();
    PkwtPrintsOfLain();
    PkwtPrintsOfPotongan();
    PkwtPrintsDistinct();
    LayoutDistinctByPrints(PkwtLayout, PkwtPrints);
  }

  const TambahanPrints := Prints(
    [(10, 'H', 'm')],
    [(14, 'U', 'n'), (14, 'U', 't')],
    [(20, 'S', 'i'), (17, 'P', 'i'), (26, 'B', 'T'), (25, 'B', 'P'), (14, 'B', 'n')])

  lemma TambahanPrintsEachDistinct()
    ensures Distinct(TambahanPrints.thp) && Distinct(TambahanPrints.lain)
  {
  }

  lemma TambahanPrintsPotonganDistinct()
    ensures Distinct(TambahanPrints.potongan)
  {
  }

  lemma TambahanPrintsApart()
    ensures Disjoint(TambahanPrints.thp, TambahanPrints.lain) && Disjoint(TambahanPrints.thp, TambahanPrints.potongan)
  {
  }

  lemma TambahanPrintsOtherApart()
    ensures Disjoint(TambahanPrints.lain, TambahanPrints.potongan)
  {
  }

  lemma TambahanPrintsDistinct()
    ensures Distinct(TambahanPrints.thp + TambahanPrints.lain + TambahanPrints.potongan)
  {
    TambahanPrintsEachDistinct();
    TambahanPrintsPotonganDistinct();
    TambahanPrintsApart();
    TambahanPrintsOtherApart();
    DistinctJoin(TambahanPrints.thp, TambahanPrints.lain, TambahanPrints.potongan);
  }

  lemma TambahanPrintsOfThp()
    ensures Sketches(Names(TambahanLayout.thp)) == TambahanPrints.thp
  {
  }

  lemma TambahanPrintsOfLain()
    ensures Sketches(Names(TambahanLayout.lain)) == TambahanPrints.lain
  {
  }

  lemma TambahanPrintsOfPotongan()
    ensures Sketches(Names(TambahanLayout.potongan)) == TambahanPrints.potongan
  {
  }

  lemma TambahanLabelsDistinct()
    ensures Distinct(AllLabels(TambahanLayout))
  {
    TambahanPrintsOfThp();
    TambahanPrintsOfLain();
    TambahanPrintsOfPotongan();
    TambahanPrintsDistinct();
    LayoutDistinctByPrints(TambahanLayout, TambahanPrints);
  }

  /** No label repeats within a table, so the Python dict literal keeps every
      entry and the ordered table is exactly that dict; and no label is shared
      between the three tables of one status. */
  lemma LayoutLabelsDistinct(st: Status)
    ensures Distinct(AllLabels(LayoutOf(st)))
  {
    match st
    case Pkwtt => PkwttLabelsDistinct();
    case Pkwt => PkwtLabelsDistinct();
    case Tambahan => TambahanLabelsDistinct();
    case Other =>
  }

  /** Dispatch is case-insensitive: the status cells' lower-cased text is all that matters. */
  lemma StatusCaseInsensitive(a: Record, b: Record)
    requires "STATUS_PEGAWAI" in a && "STATUS_PEGAWAI" in b
    requires Lower(Str(a["STATUS_PEGAWAI"])) == Lower(Str(b["STATUS_PEGAWAI"]))
    ensures StatusOf(a) == StatusOf(b)
  {
  }

  /** The columns a layout reads. */
  function ColumnsOf(lay: Layout): (r: set<string>) {
    set f | f in lay.thp + lay.lain + lay.potongan :: f.column
  }

  lemma FillDependsOnColumns(a: Record, b: Record, fields: seq<Field>, cols: set<string>)
    requires forall i :: 0 <= i < |fields| ==> fields[i].column in cols
    requires forall c :: c in cols ==> Get(a, c, Int(0)) == Get(b, c, Int(0))
    ensures Fill(a, fields) == Fill(b, fields)
  {
  }

  lemma TablesFromDependOnColumns(a: Record, b: Record, lay: Layout)
    requires forall c :: c in ColumnsOf(lay) ==> Get(a, c, Int(0)) == Get(b, c, Int(0))
    ensures TablesFrom(a, lay) == TablesFrom(b, lay)
  {
    var all := lay.thp + lay.lain + lay.potongan;
    var cols := ColumnsOf(lay);
    forall i | 0 <= i < |lay.thp| ensures lay.thp[i].column in cols {
      assert lay.thp[i] == all[i];
    }
    forall i | 0 <= i < |lay.lain| ensures lay.lain[i].column in cols {
      assert lay.lain[i] == all[|lay.thp| + i];
    }
    forall i | 0 <= i < |lay.potongan| ensures lay.potongan[i].column in cols {
      assert lay.potongan[i] == all[|lay.thp| + |lay.lain| + i];
    }
    FillDependsOnColumns(a, b, lay.thp, cols);
    FillDependsOnColumns(a, b, lay.lain, cols);
    FillDependsOnColumns(a, b, lay.potongan, cols);
  }

  /** The tables depend on the record only through the status and the columns
      the selected layout reads. */
  lemma TablesDependOnLayoutColumns(a: Record, b: Record)
    requires StatusOf(a) == StatusOf(b)
    requires forall c :: c in ColumnsOf(LayoutOf(StatusOf(a))) ==> Get(a, c, Int(0)) == Get(b, c, Int(0))
    ensures GetKomponenByStatus(a) == GetKomponenByStatus(b)
  {
    TablesFromDependOnColumns(a, b, LayoutOf(StatusOf(a)));
  }

  lemma StatusTexts()
    ensures Lower("PKWTT") == "pkwtt" && Lower("Tambahan") == "tambahan"
    ensures Lower(" pkwtt") != "pkwtt" && Lower("nan") == "nan" && Lower("") == ""
  {
    assert Lower("PKWTT") == [LowerChar('P'), LowerChar('K'), LowerChar('W'), LowerChar('T'), LowerChar('T')];
    assert Lower(" pkwtt")[0] == ' ';
  }

  /** Upper and lower case select the same tables. */
  lemma StatusExamples(rec: Record)
    ensures StatusOf(rec["STATUS_PEGAWAI" := Text("PKWTT")]) == Pkwtt
    ensures StatusOf(rec["STATUS_PEGAWAI" := Text("pkwtt")]) == Pkwtt
    ensures StatusOf(rec["STATUS_PEGAWAI" := Text("Tambahan")]) == Tambahan
  {
    StatusTexts();
  }

  /** A leading space or a missing status falls through to the empty tables. */
  lemma StatusFallThrough(rec: Record)
    ensures StatusOf(rec["STATUS_PEGAWAI" := Text(" pkwtt")]) == Other
    ensures StatusOf(rec["STATUS_PEGAWAI" := Missing]) == Other
    ensures StatusOf(rec - {"STATUS_PEGAWAI"}) == Other
    ensures GetKomponenByStatus(rec - {"STATUS_PEGAWAI"}) == Tables([], [], [])
  {
    StatusTexts();
  }

  /** A permanent employee whose sheet has only the first base salary column:
      that amount is copied, the other two THP lines read 0. */
  lemma PkwttZeroFill()
    ensures var k := GetKomponenByStatus(map["STATUS_PEGAWAI" := Text("PKWTT"), "GAJI_DASAR_1" := Int(5000000)]);
            k.thp == [ Entry("Gaji Dasar 1", Int(5000000)),
                       Entry("Gaji Dasar 2", Int(0)),
                       Entry("Tunjangan Grade", Int(0)) ]
  {
    assert Lower("PKWTT") == "pkwtt";
  }
}
