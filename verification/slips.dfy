/** Where a slip is written, how it is protected, and how the admin dashboard
    looks for it again.

    - `generate_pdf` of utils.py (the one app.py imports) and of
      utils/generate_pdf.py: the output folder `static/slips/<tahun>-<bulan>`,
      the file name `slip_<NUP>_<NAMA>_<bulan>_<tahun>.pdf`, and the decision
      to protect the PDF with the TTL password.
    - `protect_pdf`: reduced to the encryption settings it hands to the PDF
      library.
    - `admin_dashboard` (app.py): the month label of a row and the search, in
      a folder listing, for the first file with the slip's prefix and suffix.

    Rendering (Jinja, wkhtmltopdf) and the file system are not modelled: a
    folder listing is an input, `None` when the folder does not exist. */
module Slips {
  import opened Wrappers
  import opened PyStr
  import opened Cells
  import opened Credentials

  /** `pikepdf.Encryption(owner=..., user=..., R=...)`. */
  datatype Encryption = Encryption(owner: string, user: string, revision: int)

  /** A generated slip: its folder, its file name, and the encryption
      `protect_pdf` applied to it (`None` if it was left unprotected). */
  datatype Slip = Slip(folder: string, fileName: string, protection: Option<Encryption>)

  /** `os.path.join(folder_path, filename)`. */
  function OutputPath(s: Slip): (r: string) {
    PathJoin(s.folder, s.fileName)
  }

  /** `protect_pdf(path, path, password)`: the same password for owner and
      user, revision 4. */
  function ProtectPdf(password: string): (e: Encryption)
    ensures e.owner == password && e.user == password && e.revision == 4
  {
    Encryption(password, password, 4)
  }

  /** `ttl = str(data.get("TTL", "")).zfill(8)`, then `if ttl: protect_pdf(...)`. */
  function ProtectionFor(data: Record): (p: Option<Encryption>)
    ensures p == Some(ProtectPdf(TtlPassword(data)))
  {
    var ttl := TtlPassword(data);
    TtlPasswordShape(data);
    if |ttl| > 0 then Some(ProtectPdf(ttl)) else None
  }

  /** `str(cell).strip()` of a period cell. Only text can carry blanks: the
      decimal text of an integer and the "nan" of an empty cell are their
      own strip (`PeriodTextStrips`). */
  function PeriodText(c: Cell): (r: string) {
    match c
    case Text(s) => Strip(s)
    case Int(i) => IntToDecimal(i)
    case Missing => "nan"
  }

  lemma PeriodTextStrips(c: Cell)
    ensures PeriodText(c) == Strip(Str(c))
  {
    match c
    case Text(_) =>
    case Int(i) =>
      DecimalTrimmed(i);
      StripTrimmed(IntToDecimal(i));
    case Missing =>
      StripTrimmed("nan");
  }

  /** `str(data.get('BULAN', 'Unknown')).strip()` (`PeriodDefaults`). */
  function PeriodBulan(data: Record): (r: string) {
    if "BULAN" in data then PeriodText(data["BULAN"]) else "Unknown"
  }

  /** `str(data.get('TAHUN', '0000')).strip()`; the dashboard computes the same. */
  function PeriodTahun(data: Record): (r: string) {
    if "TAHUN" in data then PeriodText(data["TAHUN"]) else "0000"
  }

  /** `os.path.join("static", "slips")`, the root of every slip folder. */
  const SlipsRoot: string := "static/slips"

  lemma SlipsRootJoin()
    ensures PathJoin("static", "slips") == SlipsRoot
  {
    assert !Absolute("slips") && "static"[5] == 'c';
  }

  /** `os.path.join("static", "slips", f"{tahun}-{month}")`: the folder of a
      period, for the month text `generate_pdf` or the dashboard uses. */
  function PeriodFolder(data: Record, month: string): (r: string) {
    PathJoin(SlipsRoot, PeriodTahun(data) + "-" + month)
  }

  /** `static/slips/<tahun>-`, the part of a slip folder both `generate_pdf`
      and the dashboard agree on; a TAHUN starting with '/' makes the folder
      absolute, and then the root is dropped. */
  function FolderHead(data: Record): (r: string) {
    (if Absolute(PeriodTahun(data)) then "" else SlipsRoot + "/") + PeriodTahun(data) + "-"
  }

  /** Joining `<tahun>-<month>` below a root that does not end in '/': the
      root and a '/' come first unless the year text is absolute. */
  lemma RootJoin(root: string, t: string, month: string)
    requires |root| > 0 && root[|root| - 1] != '/'
    ensures PathJoin(root, t + "-" + month)
            == (if Absolute(t) then "" else root + "/") + t + "-" + month
  {
    var b := t + "-" + month;
    if Absolute(t) {
      assert b[0] == t[0];
      assert "" + t + "-" + month == b;
    } else {
      assert !Absolute(b) by {
        if |t| > 0 { assert b[0] == t[0]; } else { assert b[0] == '-'; }
      }
      assert root + "/" + b == root + "/" + t + "-" + month;
    }
  }

  /** A period folder is the common head followed by the month text. */
  lemma FolderSplit(data: Record, month: string)
    ensures PeriodFolder(data, month) == FolderHead(data) + month
  {
    assert SlipsRoot[|SlipsRoot| - 1] == 's';
    RootJoin(SlipsRoot, PeriodTahun(data), month);
  }

  /** The folder `generate_pdf` writes to. */
  function SlipFolder(data: Record): (r: string) {
    PeriodFolder(data, PeriodBulan(data))
  }

  /** The prefix every slip file of an employee starts with: `slip_<NUP>_`. */
  function SlipPrefix(nup: Cell): (r: string) {
    "slip_" + Str(nup) + "_"
  }

  /** `_<bulan>_<tahun>.pdf`. */
  function SlipSuffix(bulan: string, tahun: string): (r: string) {
    "_" + bulan + "_" + tahun + ".pdf"
  }

  /** No slip file name is absolute: it starts with "slip_". */
  lemma SlipPrefixRelative(name: string, nup: Cell)
    requires StartsWith(name, SlipPrefix(nup))
    ensures !Absolute(name)
  {
    assert name[0] == SlipPrefix(nup)[0] == 's';
  }

  /** `f"slip_{nup}_{nama}_{bulan}_{tahun}.pdf"`: the prefix, then NAMA,
      then the suffix. */
  function SlipName(nup: Cell, nama: string, bulan: string, tahun: string): (r: string)
    ensures Framed(r, SlipPrefix(nup), nama, SlipSuffix(bulan, tahun))
  {
    FramedIff(SlipPrefix(nup) + nama + SlipSuffix(bulan, tahun), SlipPrefix(nup), nama, SlipSuffix(bulan, tahun));
    SlipPrefix(nup) + nama + SlipSuffix(bulan, tahun)
  }

  /** `generate_pdf` of utils.py. The folder uses the stripped period values,
      the file name NUP, NAMA and the raw `data['BULAN']` and `data['TAHUN']`; reading
      `data['NUP']`, `data['NAMA']`, `data['BULAN']`, `data['TAHUN']` (in that
      order) raises KeyError for the first one missing, so the 'Unknown' and
      '0000' folder defaults never reach a generated slip. */
  function GeneratePdf(data: Record): (r: Result<Slip, string>)
    ensures r.Success? <==> "NUP" in data && "NAMA" in data && "BULAN" in data && "TAHUN" in data
    ensures r.Failure? ==>
              r.error == (if "NUP" !in data then "NUP" else if "NAMA" !in data then "NAMA"
                          else if "BULAN" !in data then "BULAN" else "TAHUN")
    ensures r.Success? ==>
              && r.value.folder == PathJoin(SlipsRoot, PeriodTahun(data) + "-" + PeriodBulan(data))
              && Framed(r.value.fileName, SlipPrefix(data["NUP"]), Str(data["NAMA"]),
                        SlipSuffix(Str(data["BULAN"]), Str(data["TAHUN"])))
              && r.value.protection.Some?
              && r.value.protection.value.owner == r.value.protection.value.user == TtlPassword(data)
              && r.value.protection.value.revision == 4
  {
    if "NUP" !in data then Failure("NUP")
    else if "NAMA" !in data then Failure("NAMA")
    else if "BULAN" !in data then Failure("BULAN")
    else if "TAHUN" !in data then Failure("TAHUN")
    else
      var name := SlipName(data["NUP"], Str(data["NAMA"]), Str(data["BULAN"]), Str(data["TAHUN"]));
      Success(Slip(SlipFolder(data), name, ProtectionFor(data)))
  }

  /** `generate_pdf` of utils/generate_pdf.py: like utils.py's, except that the
      file name uses the same stripped, defaulted period values as the folder,
      so only `data['NUP']` and `data['NAMA']` can raise. */
  function GeneratePdfStripped(data: Record): (r: Result<Slip, string>)
    ensures r.Success? <==> "NUP" in data && "NAMA" in data
    ensures r.Failure? ==> r.error == if "NUP" !in data then "NUP" else "NAMA"
    ensures r.Success? ==>
              && r.value.folder == PathJoin(SlipsRoot, PeriodTahun(data) + "-" + PeriodBulan(data))
              && Framed(r.value.fileName, SlipPrefix(data["NUP"]), Str(data["NAMA"]),
                        SlipSuffix(PeriodBulan(data), PeriodTahun(data)))
              && r.value.protection == Some(Encryption(TtlPassword(data), TtlPassword(data), 4))
  {
    if "NUP" !in data then Failure("NUP")
    else if "NAMA" !in data then Failure("NAMA")
    else
      var name := SlipName(data["NUP"], Str(data["NAMA"]), PeriodBulan(data), PeriodTahun(data));
      Success(Slip(SlipFolder(data), name, ProtectionFor(data)))
  }

  /** The period defaults 'Unknown' and '0000' are their own `strip()`. */
  lemma DefaultTexts()
    ensures Strip("Unknown") == "Unknown" && Strip("0000") == "0000"
  {
    StripTrimmed("Unknown");
    StripTrimmed("0000");
  }

  /** The period is `str(data.get(key, default)).strip()` in full, defaults
      included. */
  lemma PeriodDefaults(data: Record)
    ensures PeriodBulan(data) == Strip(Str(Get(data, "BULAN", Text("Unknown"))))
    ensures PeriodTahun(data) == Strip(Str(Get(data, "TAHUN", Text("0000"))))
  {
    DefaultTexts();
    if "BULAN" in data {
      PeriodTextStrips(data["BULAN"]);
    }
    if "TAHUN" in data {
      PeriodTextStrips(data["TAHUN"]);
    }
  }

  lemma DefaultSlipTexts()
    ensures SlipSuffix("Unknown", "0000") == "_Unknown_0000.pdf"
    ensures SlipsRoot + "/" + "0000" + "-" + "Unknown" == "static/slips/0000-Unknown"
    ensures !Absolute("0000")
  {
  }

  /** Without BULAN and TAHUN columns the stripped variant files the slip
      under the defaults. */
  lemma GeneratePdfStrippedDefaults(data: Record)
    requires "NUP" in data && "NAMA" in data && "BULAN" !in data && "TAHUN" !in data
    ensures GeneratePdfStripped(data).Success?
    ensures GeneratePdfStripped(data).value.folder == "static/slips/0000-Unknown"
    ensures EndsWith(GeneratePdfStripped(data).value.fileName, "_Unknown_0000.pdf")
  {
    PeriodDefaults(data);
    DefaultSlipTexts();
    FolderSplit(data, "Unknown");
  }

  /** Splitting at the last occurrence of a separator is unique. */
  lemma SplitAtLast(x: string, t: string, y: string, u: string, c: char)
    requires c !in t && c !in u && x + [c] + t == y + [c] + u
    ensures x == y && t == u
  {
    var s := x + [c] + t;
    assert |t| == |u| by {
      assert s[|s| - |t| - 1] == c && s[|s| - |u| - 1] == c;
    }
    assert t == s[|s| - |t|..] == u;
    assert x == s[..|x|] == y;
  }

  /** A file name ends with at most one slip suffix whose month and year
      contain no '_'. */
  lemma SuffixDetermined(name: string, b: string, t: string, b': string, t': string)
    requires '_' !in b && '_' !in t && '_' !in b' && '_' !in t'
    requires EndsWith(name, SlipSuffix(b, t)) && EndsWith(name, SlipSuffix(b', t'))
    ensures b == b' && t == t'
  {
    var w := name[..|name| - |SlipSuffix(b, t)|];
    var w' := name[..|name| - |SlipSuffix(b', t')|];
    assert name == w + SlipSuffix(b, t) == w' + SlipSuffix(b', t');
    var core := name[..|name| - 4];
    assert core == (w + "_" + b) + "_" + t;
    assert core == (w' + "_" + b') + "_" + t';
    SplitAtLast(w + "_" + b, t, w' + "_" + b', t', '_');
    SplitAtLast(w, b, w', b', '_');
  }

  /** The name utils/generate_pdf.py writes passes a search for
      `slip_<NUP>_` and `_<bulan>_<tahun>.pdf` exactly when that search's
      month and year are the ones the generator used (none of them holding
      a '_'). */
  lemma StrippedNameMatchesSearch(data: Record, bulan: string, tahun: string)
    requires GeneratePdfStripped(data).Success?
    requires '_' !in bulan && '_' !in tahun && '_' !in PeriodBulan(data) && '_' !in PeriodTahun(data)
    ensures var name := GeneratePdfStripped(data).value.fileName;
            StartsWith(name, SlipPrefix(data["NUP"])) && EndsWith(name, SlipSuffix(bulan, tahun))
            <==> bulan == PeriodBulan(data) && tahun == PeriodTahun(data)
  {
    var name := GeneratePdfStripped(data).value.fileName;
    if EndsWith(name, SlipSuffix(bulan, tahun)) {
      SuffixDetermined(name, bulan, tahun, PeriodBulan(data), PeriodTahun(data));
    }
  }

  // ---------------------------------------------------------------------
  // The admin dashboard
  // ---------------------------------------------------------------------

  /** `calendar.month_name`: "" at index 0, then the English month names. */
  const MonthNames: seq<string> := ["", "January", "February", "March", "April", "May", "June",
    "July", "August", "September", "October", "November", "December"]

  /** `int(user.get("BULAN", 0))`; `None` where `int` raises (NaN, text that is
      not an integer). */
  function MonthNumber(data: Record): (r: Option<int>) {
    match Get(data, "BULAN", Int(0))
    case Int(i) => Some(i)
    case Text(s) => ParseInt(s)
    case Missing => None
  }

  /** `calendar.month_name[int(BULAN)]`, or "Unknown" when the conversion or
      the list index raises. Python indexing lets -13..-1 count from the end. */
  function MonthLabel(data: Record): (r: string)
    ensures MonthNumber(data).None? ==> r == "Unknown"
    ensures MonthNumber(data).Some? ==>
              var k := MonthNumber(data).value;
              && (0 <= k <= 12 ==> r == MonthNames[k])
              && (-13 <= k < 0 ==> r == MonthNames[k + 13])
              && (k > 12 || k < -13 ==> r == "Unknown")
  {
    match MonthNumber(data)
    case None => "Unknown"
    case Some(k) =>
      if 0 <= k <= 12 then MonthNames[k]
      else if -13 <= k < 0 then MonthNames[k + 13]
      else "Unknown"
  }

  /** The folder the dashboard looks in: `static/slips/<tahun>-<month label>`. */
  function DashboardFolder(data: Record): (r: string) {
    PeriodFolder(data, MonthLabel(data))
  }

  /** Index of the first file in listing order whose name starts with `prefix`
      and ends with `suffix`. */
  function FirstWithAffixes(files: seq<string>, prefix: string, suffix: string): (r: Option<nat>)
    ensures r.None? <==> forall i :: 0 <= i < |files| ==> !(StartsWith(files[i], prefix) && EndsWith(files[i], suffix))
    ensures r.Some? ==> r.value < |files| && StartsWith(files[r.value], prefix) && EndsWith(files[r.value], suffix)
    ensures r.Some? ==> forall j :: 0 <= j < r.value ==> !(StartsWith(files[j], prefix) && EndsWith(files[j], suffix))
    decreases |files|
  {
    if files == [] then None
    else if StartsWith(files[0], prefix) && EndsWith(files[0], suffix) then Some(0)
    else
      match FirstWithAffixes(files[1..], prefix, suffix)
      case None => None
      case Some(k) =>
        assert files[1..][k] == files[k + 1];
        Some(k + 1)
  }

  /** The dashboard's search as written: the first file in the dashboard
      folder's listing (`None` when the folder does not exist) that starts
      with `slip_<NUP>_` and ends with `_<month label>_<tahun>.pdf`. */
  function DashboardSlipPath(data: Record, listing: Option<seq<string>>): (r: Option<string>)
    requires "NUP" in data
    ensures listing.None? ==> r.None?
    ensures listing.Some? ==>
              var hit := FirstWithAffixes(listing.value, SlipPrefix(data["NUP"]),
                                          SlipSuffix(MonthLabel(data), PeriodTahun(data)));
              && (r.Some? <==> hit.Some?)
              && (r.Some? ==> r.value == PathJoin(DashboardFolder(data), listing.value[hit.value]))
  {
    match listing
    case None => None
    case Some(files) =>
      match FirstWithAffixes(files, SlipPrefix(data["NUP"]), SlipSuffix(MonthLabel(data), PeriodTahun(data)))
      case None => None
      case Some(i) => Some(PathJoin(DashboardFolder(data), files[i]))
  }

  /** The suffix `generate_pdf` of utils.py gives a slip: the raw BULAN and
      TAHUN text. */
  function GeneratedSuffix(data: Record): (r: string) {
    SlipSuffix(Str(Get(data, "BULAN", Text("Unknown"))), Str(Get(data, "TAHUN", Text("0000"))))
  }

  /** The corrected search: look in the folder `generate_pdf` writes to, for
      the suffix it writes. */
  function DashboardSlipPathFixed(data: Record, listing: Option<seq<string>>): (r: Option<string>)
    requires "NUP" in data
    ensures listing.None? ==> r.None?
    ensures listing.Some? ==>
              var hit := FirstWithAffixes(listing.value, SlipPrefix(data["NUP"]), GeneratedSuffix(data));
              && (r.Some? <==> hit.Some?)
              && (r.Some? ==> r.value == PathJoin(SlipFolder(data), listing.value[hit.value]))
  {
    match listing
    case None => None
    case Some(files) =>
      match FirstWithAffixes(files, SlipPrefix(data["NUP"]), GeneratedSuffix(data))
      case None => None
      case Some(i) => Some(PathJoin(SlipFolder(data), files[i]))
  }

  /** One line of the admin dashboard. */
  datatype DashboardEntry = DashboardEntry(
    nup: Cell, nama: Cell, email: Cell, filePath: Option<string>,
    bulan: string, tahun: string, statusKirim: Cell)

  /** Which slip search a dashboard line uses: the one app.py has, or the
      corrected one (see `DashboardMissesGeneratedSlip`). */
  datatype Search = AsWritten | Corrected

  /** The slip path a search reports for a row, given the folder listings. */
  function SearchSlip(data: Record, fs: string -> Option<seq<string>>, search: Search): (r: Option<string>)
    requires "NUP" in data
  {
    match search
    case AsWritten => DashboardSlipPath(data, fs(DashboardFolder(data)))
    case Corrected => DashboardSlipPathFixed(data, fs(SlipFolder(data)))
  }

  /** The dashboard line of one row, given the folder listings (`fs(folder)`,
      `None` for a folder that does not exist). `user['NUP']` and
      `user['NAMA']` raise KeyError, which fails the whole page. With
      `AsWritten` the slip is searched as app.py does; `Corrected` is the
      search that finds what `generate_pdf` wrote. */
  function DashboardRow(data: Record, fs: string -> Option<seq<string>>, search: Search): (r: Result<DashboardEntry, string>)
    ensures r.Success? <==> "NUP" in data && "NAMA" in data
    ensures r.Failure? ==> r.error == if "NUP" !in data then "NUP" else "NAMA"
    ensures r.Success? ==>
              && r.value.nup == data["NUP"] && r.value.nama == data["NAMA"]
              && r.value.email == Get(data, "EMAIL", Text(""))
              && r.value.statusKirim == Get(data, "status_kirim", Text("Belum"))
              && r.value.bulan == MonthLabel(data) && r.value.tahun == PeriodTahun(data)
    ensures r.Success? && search == AsWritten ==>
              r.value.filePath == DashboardSlipPath(data, fs(DashboardFolder(data)))
    ensures r.Success? && search == Corrected ==>
              r.value.filePath == DashboardSlipPathFixed(data, fs(SlipFolder(data)))
  {
    if "NUP" !in data then Failure("NUP")
    else if "NAMA" !in data then Failure("NAMA")
    else
      Success(DashboardEntry(data["NUP"], data["NAMA"], Get(data, "EMAIL", Text("")),
                             SearchSlip(data, fs, search),
                             MonthLabel(data), PeriodTahun(data), Get(data, "status_kirim", Text("Belum"))))
  }

  /** A row the dashboard can show: it has an NUP and a NAMA. */
  predicate Listable(data: Record) {
    "NUP" in data && "NAMA" in data
  }

  /** Index of the first row the dashboard cannot show. */
  function FirstUnlistable(rows: seq<Record>): (r: Option<nat>)
    ensures r.None? <==> forall i :: 0 <= i < |rows| ==> Listable(rows[i])
    ensures r.Some? ==> r.value < |rows| && !Listable(rows[r.value])
    ensures r.Some? ==> forall j :: 0 <= j < r.value ==> Listable(rows[j])
    decreases |rows|
  {
    if rows == [] then None
    else if !Listable(rows[0]) then Some(0)
    else
      match FirstUnlistable(rows[1..])
      case None => None
      case Some(k) =>
        assert rows[1..][k] == rows[k + 1];
        Some(k + 1)
  }

  /** `admin_dashboard`: one line per row, in row order, or the KeyError of
      the first row without NUP or NAMA. `Dashboard(rows, fs, AsWritten)` is
      the page app.py builds. */
  function Dashboard(rows: seq<Record>, fs: string -> Option<seq<string>>, search: Search): (r: Result<seq<DashboardEntry>, string>)
    ensures r.Success? <==> forall i :: 0 <= i < |rows| ==> DashboardRow(rows[i], fs, search).Success?
    ensures r.Success? ==> |r.value| == |rows|
    ensures r.Success? ==> forall i :: 0 <= i < |rows| ==> r.value[i] == DashboardRow(rows[i], fs, search).value
    ensures r.Failure? ==>
              var i := FirstUnlistable(rows).value;
              && DashboardRow(rows[i], fs, search).Failure? && r.error == DashboardRow(rows[i], fs, search).error
              && forall j :: 0 <= j < i ==> DashboardRow(rows[j], fs, search).Success?
  {
    match FirstUnlistable(rows)
    case Some(i) => Failure(DashboardRow(rows[i], fs, search).error)
    case None => Success(seq(|rows|, i requires 0 <= i < |rows| => DashboardRow(rows[i], fs, search).value))
  }

  // ---------------------------------------------------------------------
  // The dashboard and generate_pdf disagree on the folder
  // ---------------------------------------------------------------------

  /** A month label for 1..12 starts with a letter. */
  lemma MonthNameStartsWithLetter(k: int)
    requires 1 <= k <= 12
    ensures |MonthNames[k]| > 0 && !IsDigit(MonthNames[k][0])
  {
  }

  /** Two strings that share a head and then differ in the next character
      differ, whatever follows. */
  lemma DifferAfterHead(head: string, a: string, b: string, x: string, y: string)
    requires |a| > 0 && |b| > 0 && a[0] != b[0]
    ensures head + a + x != head + b + y
    ensures head + a != head + b
  {
    assert (head + a)[|head|] == a[0];
    assert (head + b)[|head|] == b[0];
    assert (head + a + x)[|head|] == a[0];
    assert (head + b + y)[|head|] == b[0];
  }

  /** The month part of the two folders of a row with a numeric BULAN k. */
  lemma NumericMonthFolders(data: Record, k: int)
    requires "TAHUN" in data && "BULAN" in data && data["BULAN"] == Int(k) && 1 <= k <= 12
    ensures PeriodBulan(data) == IntToDecimal(k)
    ensures MonthLabel(data) == MonthNames[k]
    ensures |IntToDecimal(k)| > 0 && |MonthNames[k]| > 0 && IntToDecimal(k)[0] != MonthNames[k][0]
  {
    MonthNameStartsWithLetter(k);
    assert MonthNumber(data) == Some(k);
  }

  /** For a numeric BULAN of 1..12 the dashboard folder and the folder
      `generate_pdf` writes to share their head and then differ in the
      month's first character. */
  lemma FoldersDiffer(data: Record, k: int)
    requires "TAHUN" in data && "BULAN" in data && data["BULAN"] == Int(k) && 1 <= k <= 12
    ensures DashboardFolder(data) == FolderHead(data) + MonthLabel(data)
    ensures SlipFolder(data) == FolderHead(data) + PeriodBulan(data)
    ensures |MonthLabel(data)| > 0 && |PeriodBulan(data)| > 0 && MonthLabel(data)[0] != PeriodBulan(data)[0]
    ensures DashboardFolder(data) != SlipFolder(data)
  {
    NumericMonthFolders(data, k);
    FolderSplit(data, MonthLabel(data));
    FolderSplit(data, PeriodBulan(data));
    DifferAfterHead(FolderHead(data), MonthLabel(data), PeriodBulan(data), "", "");
  }

  /** Relative names joined below two folders that part ways right after a
      common head give different paths. */
  lemma JoinsDiffer(head: string, a: string, b: string, f: string, g: string)
    requires |a| > 0 && |b| > 0 && a[0] != b[0] && !Absolute(f) && !Absolute(g)
    ensures PathJoin(head + a, f) != PathJoin(head + b, g)
  {
    var p := PathJoin(head + a, f);
    var q := PathJoin(head + b, g);
    assert p[..|head + a|] == head + a;
    assert q[..|head + b|] == head + b;
    assert p[|head|] == (head + a)[|head|] == a[0];
    assert q[|head|] == (head + b)[|head|] == b[0];
  }

  /** The dashboard's search never yields a path in the folder `generate_pdf`
      writes to, whatever the listing holds. */
  lemma DashboardPathAvoidsSlipFolder(data: Record, k: int, listing: Option<seq<string>>, name: string)
    requires "NUP" in data && "TAHUN" in data && "BULAN" in data && data["BULAN"] == Int(k) && 1 <= k <= 12
    requires !Absolute(name)
    ensures DashboardSlipPath(data, listing) != Some(PathJoin(SlipFolder(data), name))
  {
    if DashboardSlipPath(data, listing).Some? {
      var files := listing.value;
      var f := files[FirstWithAffixes(files, SlipPrefix(data["NUP"]), SlipSuffix(MonthLabel(data), PeriodTahun(data))).value];
      SlipPrefixRelative(f, data["NUP"]);
      FoldersDiffer(data, k);
      JoinsDiffer(FolderHead(data), MonthLabel(data), PeriodBulan(data), f, name);
    }
  }

  /** Both `generate_pdf` variants write a row to the same folder. */
  lemma GeneratorsShareFolder(data: Record)
    requires "NUP" in data && "NAMA" in data && "BULAN" in data && "TAHUN" in data
    ensures GeneratePdf(data).Success? && GeneratePdfStripped(data).Success?
    ensures GeneratePdf(data).value.folder == SlipFolder(data)
    ensures GeneratePdfStripped(data).value.folder == SlipFolder(data)
  {
    GeneratedSlipAffixes(data);
  }

  /** As written: for a numeric BULAN of 1..12, the folder the dashboard
      searches is not the folder either `generate_pdf` writes the slip to,
      so the dashboard never reports the path of a generated slip. */
  lemma DashboardMissesGeneratedSlip(data: Record, k: int)
    requires "NUP" in data && "NAMA" in data && "TAHUN" in data
    requires "BULAN" in data && data["BULAN"] == Int(k) && 1 <= k <= 12
    ensures GeneratePdf(data).Success? && GeneratePdfStripped(data).Success?
    ensures GeneratePdfStripped(data).value.folder == GeneratePdf(data).value.folder
    ensures DashboardFolder(data) != GeneratePdf(data).value.folder
    ensures forall listing :: DashboardSlipPath(data, listing) != Some(OutputPath(GeneratePdf(data).value))
  {
    GeneratorsShareFolder(data);
    var slip := GeneratePdf(data).value;
    FoldersDiffer(data, k);
    SlipPrefixRelative(slip.fileName, data["NUP"]);
    forall listing: Option<seq<string>>
      ensures DashboardSlipPath(data, listing) != Some(OutputPath(slip))
    {
      DashboardPathAvoidsSlipFolder(data, k, listing, slip.fileName);
    }
  }

  /** The row of the counterexample: NUP 7, Budi, April 2025. */
  predicate IsApril2025(d: Record) {
    && "NUP" in d && d["NUP"] == Int(7) && "NAMA" in d && d["NAMA"] == Text("Budi")
    && "BULAN" in d && d["BULAN"] == Int(4) && "TAHUN" in d && d["TAHUN"] == Int(2025)
  }

  lemma SmallDecimals()
    ensures IntToDecimal(2025) == "2025" && IntToDecimal(4) == "4"
  {
    assert NatToDecimal(2) == "2";
    assert NatToDecimal(20) == "20";
    assert NatToDecimal(202) == "202";
  }

  lemma April2025Period(d: Record)
    requires IsApril2025(d)
    ensures PeriodTahun(d) == "2025" && PeriodBulan(d) == "4"
  {
    SmallDecimals();
  }

  lemma April2025Label(d: Record)
    requires IsApril2025(d)
    ensures MonthLabel(d) == "April"
  {
    assert MonthNumber(d) == Some(4);
  }

  lemma April2025Name()
    ensures SlipName(Int(7), "Budi", "4", "2025") == "slip_7_Budi_4_2025.pdf"
  {
    assert Str(Int(7)) == "7";
  }

  lemma April2025NameMissesSearch()
    ensures !EndsWith("slip_7_Budi_4_2025.pdf", SlipSuffix("April", "2025"))
  {
    var name := "slip_7_Budi_4_2025.pdf";
    assert |SlipSuffix("April", "2025")| == 15;
    assert name[|name| - 15] == 'B';
  }

  lemma April2025FolderTexts()
    ensures SlipsRoot + "/" + "2025" + "-" + "4" == "static/slips/2025-4"
    ensures SlipsRoot + "/" + "2025" + "-" + "April" == "static/slips/2025-April"
    ensures !Absolute("2025")
  {
  }

  lemma April2025Folders(d: Record)
    requires IsApril2025(d)
    ensures SlipFolder(d) == "static/slips/2025-4"
    ensures DashboardFolder(d) == "static/slips/2025-April"
  {
    April2025Period(d);
    April2025Label(d);
    April2025FolderTexts();
    FolderSplit(d, "4");
    FolderSplit(d, "April");
  }

  lemma April2025Slip(d: Record)
    requires IsApril2025(d)
    ensures GeneratePdf(d).Success?
    ensures GeneratePdf(d).value.fileName == "slip_7_Budi_4_2025.pdf"
  {
    SmallDecimals();
    April2025Name();
    assert GeneratePdf(d).value.fileName == SlipName(Int(7), "Budi", IntToDecimal(4), IntToDecimal(2025));
  }

  /** utils.py writes `static/slips/2025-4/slip_7_Budi_4_2025.pdf`; the
      dashboard looks in `static/slips/2025-April` for `_April_2025.pdf`, so
      even a listing holding the slip's name yields no path. */
  lemma DashboardMissesExample(d: Record)
    requires IsApril2025(d)
    ensures GeneratePdf(d).Success?
    ensures GeneratePdf(d).value.folder == "static/slips/2025-4"
    ensures GeneratePdf(d).value.fileName == "slip_7_Budi_4_2025.pdf"
    ensures DashboardFolder(d) == "static/slips/2025-April"
    ensures DashboardSlipPath(d, Some(["slip_7_Budi_4_2025.pdf"])) == None
  {
    April2025Slip(d);
    GeneratedSlipAffixes(d);
    April2025Folders(d);
    April2025Period(d);
    April2025Label(d);
    April2025NameMissesSearch();
  }

  /** A slip from utils.py's `generate_pdf` lies in `SlipFolder` and carries
      the prefix and the suffix the corrected search looks for. */
  lemma GeneratedSlipAffixes(data: Record)
    requires GeneratePdf(data).Success?
    ensures GeneratePdf(data).value.folder == SlipFolder(data)
    ensures StartsWith(GeneratePdf(data).value.fileName, SlipPrefix(data["NUP"]))
    ensures EndsWith(GeneratePdf(data).value.fileName, GeneratedSuffix(data))
  {
    assert Get(data, "BULAN", Text("Unknown")) == data["BULAN"];
    assert Get(data, "TAHUN", Text("0000")) == data["TAHUN"];
  }

  /** Corrected: once the slip `generate_pdf` wrote is listed, the corrected
      search reports a file of that employee and period in the folder it
      was written to. */
  lemma DashboardFixedFindsGeneratedSlip(data: Record, files: seq<string>)
    requires GeneratePdf(data).Success?
    requires GeneratePdf(data).value.fileName in files
    ensures DashboardSlipPathFixed(data, Some(files)).Some?
    ensures exists f :: f in files && StartsWith(f, SlipPrefix(data["NUP"])) && EndsWith(f, GeneratedSuffix(data))
                        && DashboardSlipPathFixed(data, Some(files)).value == PathJoin(GeneratePdf(data).value.folder, f)
  {
    var slip := GeneratePdf(data).value;
    GeneratedSlipAffixes(data);
    var i :| 0 <= i < |files| && files[i] == slip.fileName;
    var hit := FirstWithAffixes(files, SlipPrefix(data["NUP"]), GeneratedSuffix(data));
    assert files[hit.value] in files;
  }

  /** Corrected: when no other file of that employee is in the folder, the
      corrected search reports exactly the path of the generated slip. */
  lemma DashboardFixedReportsSlipPath(data: Record, files: seq<string>)
    requires GeneratePdf(data).Success?
    requires GeneratePdf(data).value.fileName in files
    requires forall f :: f in files && f != GeneratePdf(data).value.fileName ==> !StartsWith(f, SlipPrefix(data["NUP"]))
    ensures DashboardSlipPathFixed(data, Some(files)) == Some(OutputPath(GeneratePdf(data).value))
  {
    var slip := GeneratePdf(data).value;
    GeneratedSlipAffixes(data);
    var i :| 0 <= i < |files| && files[i] == slip.fileName;
    var hit := FirstWithAffixes(files, SlipPrefix(data["NUP"]), GeneratedSuffix(data));
    assert files[hit.value] == slip.fileName;
  }

  /** As written, on the page: the line of a row with a numeric BULAN of
      1..12 never shows the path its slip was written to. */
  lemma DashboardPageMissesSlip(data: Record, k: int, fs: string -> Option<seq<string>>)
    requires "NUP" in data && "NAMA" in data && "TAHUN" in data
    requires "BULAN" in data && data["BULAN"] == Int(k) && 1 <= k <= 12
    ensures DashboardRow(data, fs, AsWritten).Success?
    ensures DashboardRow(data, fs, AsWritten).value.filePath != Some(OutputPath(GeneratePdf(data).value))
  {
    DashboardMissesGeneratedSlip(data, k);
  }

  /** Corrected, on the page: once the slip is in its folder, the row's line
      shows a path. */
  lemma DashboardPageFindsSlip(data: Record, fs: string -> Option<seq<string>>)
    requires GeneratePdf(data).Success?
    requires fs(SlipFolder(data)).Some? && GeneratePdf(data).value.fileName in fs(SlipFolder(data)).value
    ensures DashboardRow(data, fs, Corrected).Success?
    ensures DashboardRow(data, fs, Corrected).value.filePath.Some?
  {
    DashboardFixedFindsGeneratedSlip(data, fs(SlipFolder(data)).value);
  }

  /** `os.path.join` restarts at an absolute part: TAHUN "/tmp" with BULAN 4
      puts the slip folder at "/tmp-4", outside `static/slips`. */
  lemma AbsoluteYearFolder(data: Record)
    requires "TAHUN" in data && data["TAHUN"] == Text("/tmp")
    requires "BULAN" in data && data["BULAN"] == Int(4)
    ensures SlipFolder(data) == "/tmp-4"
  {
    StripTrimmed("/tmp");
    SmallDecimals();
    FolderSplit(data, "4");
  }

  /** A numeric BULAN picks the month name, counting from the end for
      -13..-1; out of range it is "Unknown". */
  lemma MonthLabelNumbers(data: Record)
    ensures MonthLabel(data["BULAN" := Int(4)]) == "April"
    ensures MonthLabel(data["BULAN" := Int(-1)]) == "December"
    ensures MonthLabel(data["BULAN" := Int(13)]) == "Unknown"
  {
    assert MonthNumber(data["BULAN" := Int(4)]) == Some(4);
    assert MonthNumber(data["BULAN" := Int(-1)]) == Some(-1);
    assert MonthNumber(data["BULAN" := Int(13)]) == Some(13);
  }

  /** Without a BULAN column `int(0)` names month 0, the empty string. */
  lemma MonthLabelNoColumn(data: Record)
    ensures MonthLabel(data - {"BULAN"}) == ""
  {
    assert MonthNumber(data - {"BULAN"}) == Some(0);
  }

  /** `int(t)` raises for a text that starts with neither a sign nor a digit. */
  lemma WordUnreadable(t: string)
    requires Trimmed(t) && |t| > 0 && !IsDigit(t[0]) && t[0] != '+' && t[0] != '-'
    ensures ParseInt(t) == None
  {
    StripTrimmed(t);
    assert !DigitBody(t);
  }

  /** `int("April")` raises: a word is no integer. */
  lemma MonthWordUnreadable()
    ensures ParseInt("April") == None
  {
    WordUnreadable("April");
  }

  /** NaN and a month written as a word both make `int` raise. */
  lemma MonthLabelUnreadable(data: Record)
    ensures MonthLabel(data["BULAN" := Missing]) == "Unknown"
    ensures MonthLabel(data["BULAN" := Text("April")]) == "Unknown"
  {
    MonthWordUnreadable();
  }
}
