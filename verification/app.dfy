/** The decisions app.py's request handlers make, with Flask, sessions, the
    spreadsheet loader and the mail and PDF libraries replaced by inputs:

    - `allowed_file`, the `.xlsx` check of the upload form;
    - the login decision: an admin first, then an employee by the text of NUP;
    - `/admin/resend/<nup>`: the first row with that NUP, slip and mail;
    - `/sendall`: every row in order, counting deliveries and listing
      failures without stopping.

    The employee sheet is a `seq<Record>` in row order. What the foreign code
    does for a row (render the template, write and encrypt the PDF, send the
    mail) is an abstract `Effects` value: `Some(message)` where it raises. */
module App {
  import opened Wrappers
  import opened PyStr
  import opened Cells
  import opened Credentials
  import opened Slips

  // ---------------------------------------------------------------------
  // allowed_file
  // ---------------------------------------------------------------------

  /** Position of the last '.' of `s`, if any. */
  function LastDot(s: string): (r: Option<nat>)
    ensures r.None? <==> '.' !in s
    ensures r.Some? ==> r.value < |s| && s[r.value] == '.' && '.' !in s[r.value + 1..]
    decreases |s|
  {
    if s == [] then None
    else if s[|s| - 1] == '.' then Some(|s| - 1)
    else
      var init := s[..|s| - 1];
      assert s == init + [s[|s| - 1]];
      match LastDot(init)
      case None => None
      case Some(i) =>
        assert s[i + 1..] == init[i + 1..] + [s[|s| - 1]];
        Some(i)
  }

  /** `allowed_file`: the name has a '.', and the text after the last one,
      lower-cased, is in `ALLOWED_EXTENSIONS = {'xlsx'}`. */
  function AllowedFile(filename: string): (r: bool)
    ensures r ==> '.' in filename
  {
    match LastDot(filename)
    case None => false
    case Some(i) => Lower(filename[i + 1..]) in {"xlsx"}
  }

  /** A name that splits at its last '.' into `p` and `e` is accepted iff the
      lower-cased `e` is "xlsx"; a name with no '.' is never accepted. */
  lemma AllowedFileIff(p: string, e: string)
    requires '.' !in e
    ensures AllowedFile(p + "." + e) <==> Lower(e) == "xlsx"
  {
    var s := p + "." + e;
    var i := LastDot(s).value;
    assert s[|p|] == '.';
    assert i == |p|;
    assert s[i + 1..] == e;
  }

  lemma LowerExtensions()
    ensures Lower("XLSX") == "xlsx" && Lower("xlsx") == "xlsx" && Lower("exe") == "exe"
  {
    assert Lower("XLSX") == [LowerChar('X'), LowerChar('L'), LowerChar('S'), LowerChar('X')];
    assert Lower("xlsx") == [LowerChar('x'), LowerChar('l'), LowerChar('s'), LowerChar('x')];
    assert Lower("exe") == [LowerChar('e'), LowerChar('x'), LowerChar('e')];
  }

  lemma FileNameTexts()
    ensures "a" + "." + "XLSX" == "a.XLSX" && "" + "." + "xlsx" == ".xlsx"
    ensures "a.xlsx" + "." + "exe" == "a.xlsx.exe"
  {
  }

  /** Upper-case extensions are accepted, and so is a bare ".xlsx" with
      nothing before the dot. */
  lemma AllowedFileAccepts()
    ensures AllowedFile("a.XLSX") && AllowedFile(".xlsx")
  {
    AllowedFileIff("a", "XLSX");
    AllowedFileIff("", "xlsx");
    LowerExtensions();
    FileNameTexts();
  }

  /** Only the last extension counts, and a name without '.' is refused,
      even when it is the extension itself. */
  lemma AllowedFileRejects()
    ensures !AllowedFile("a.xlsx.exe") && !AllowedFile("xlsx")
  {
    AllowedFileIff("a.xlsx", "exe");
    LowerExtensions();
    FileNameTexts();
  }

  // ---------------------------------------------------------------------
  // Login
  // ---------------------------------------------------------------------

  /** An entry of `ADMINS`. */
  datatype Admin = Admin(passwordHash: string, role: string)

  /** Where a login attempt ends: the admin dashboard, the employee's slip,
      the login form with an error, or an exception out of the handler. */
  datatype Session = AdminSession(username: string) | EmployeeSession(nup: string) | LoginFailed
                   | LoginRaised(error: string)

  /** `admin and check_password_hash(admin['password'], password)`: every
      entry of `ADMINS` is a non-empty dict, so `admin` is truthy exactly when
      the username is a key. */
  predicate AdminAccepts(admins: map<string, Admin>, checkHash: (string, string) -> bool,
                         username: string, password: string) {
    username in admins && checkHash(admins[username].passwordHash, password)
  }

  /** The POST branch of `login`, on a sheet with the given columns. The
      sheet has a TTL column: app.py derives its `password` column from it at
      start-up, which raises before any request otherwise. Without an NUP
      column the employee lookup `df['NUP']` raises KeyError. */
  function Login(admins: map<string, Admin>, checkHash: (string, string) -> bool,
                 columns: set<string>, rows: seq<Record>, username: string, password: string): (r: Session)
    requires "TTL" in columns && HasColumns(rows, columns)
    ensures AdminAccepts(admins, checkHash, username, password) ==> r == AdminSession(username)
    ensures r.AdminSession? ==> AdminAccepts(admins, checkHash, username, password)
    ensures r.LoginRaised? <==> !AdminAccepts(admins, checkHash, username, password) && "NUP" !in columns
    ensures r.LoginRaised? ==> (ColumnKeysPlain(); r.error == KeyErrorText("NUP"))
    ensures r.EmployeeSession? ==> r.nup == username
    ensures r.EmployeeSession? <==>
              && !AdminAccepts(admins, checkHash, username, password)
              && "NUP" in columns
              && FirstMatch(rows, "NUP", username).Some?
              && LoginPassword(rows[FirstMatch(rows, "NUP", username).value]) == password
  {
    if AdminAccepts(admins, checkHash, username, password) then AdminSession(username)
    else if "NUP" !in columns then ColumnKeysPlain(); LoginRaised(KeyErrorText("NUP"))
    else
      match FirstMatch(rows, "NUP", username)
      case None => LoginFailed
      case Some(i) => if LoginPassword(rows[i]) == password then EmployeeSession(username) else LoginFailed
  }

  /** Employee login, stated without the search: it succeeds iff some row's
      NUP text equals the username and the first such row's password is the
      one supplied. */
  lemma LoginEmployeeIff(admins: map<string, Admin>, checkHash: (string, string) -> bool,
                         rows: seq<Record>, username: string, password: string)
    requires HasColumns(rows, {"NUP", "TTL"})
    requires !AdminAccepts(admins, checkHash, username, password)
    ensures Login(admins, checkHash, {"NUP", "TTL"}, rows, username, password).EmployeeSession? <==>
              exists i :: 0 <= i < |rows| && Str(rows[i]["NUP"]) == username
                          && (forall j :: 0 <= j < i ==> Str(rows[j]["NUP"]) != username)
                          && LoginPassword(rows[i]) == password
  {
    var m := FirstMatch(rows, "NUP", username);
    if exists i :: 0 <= i < |rows| && Str(rows[i]["NUP"]) == username
                   && (forall j :: 0 <= j < i ==> Str(rows[j]["NUP"]) != username)
                   && LoginPassword(rows[i]) == password {
      var i :| 0 <= i < |rows| && Str(rows[i]["NUP"]) == username
               && (forall j :: 0 <= j < i ==> Str(rows[j]["NUP"]) != username)
               && LoginPassword(rows[i]) == password;
      assert m.Some?;
      assert m.value == i;
    } else if m.Some? {
      assert !(LoginPassword(rows[m.value]) == password);
    }
  }

  /** An employee who types their NUP as the sheet prints it and their slip
      password logs in, unless an admin of that name accepts the password. */
  lemma LoginWithSlipPassword(admins: map<string, Admin>, checkHash: (string, string) -> bool,
                              rows: seq<Record>, i: nat)
    requires HasColumns(rows, {"NUP", "TTL"})
    requires i < |rows|
    requires forall j :: 0 <= j < i ==> Str(rows[j]["NUP"]) != Str(rows[i]["NUP"])
    requires !AdminAccepts(admins, checkHash, Str(rows[i]["NUP"]), TtlPassword(rows[i]))
    ensures Login(admins, checkHash, {"NUP", "TTL"}, rows, Str(rows[i]["NUP"]), TtlPassword(rows[i]))
            == EmployeeSession(Str(rows[i]["NUP"]))
  {
    var u := Str(rows[i]["NUP"]);
    LoginMatchesSlipPassword(rows[i]);
    var m := FirstMatch(rows, "NUP", u);
    assert m.Some?;
    assert m.value == i;
  }

  /** The NUP match is textual: "007" is not the NUP 7, "7" is. */
  lemma LoginNupIsTextual(admins: map<string, Admin>, checkHash: (string, string) -> bool,
                          row: Record, password: string)
    requires "NUP" in row && row["NUP"] == Int(7) && "TTL" in row
    requires "007" !in admins && "7" !in admins
    ensures Login(admins, checkHash, {"NUP", "TTL"}, [row], "007", password) == LoginFailed
    ensures Login(admins, checkHash, {"NUP", "TTL"}, [row], "7", LoginPassword(row)) == EmployeeSession("7")
  {
    assert Str(row["NUP"]) == "7";
    assert [row][0] == row;
  }

  // ---------------------------------------------------------------------
  // One row: generate_pdf, then send_email
  // ---------------------------------------------------------------------

  /** What the foreign code does for a row, `Some(message)` where it raises:
      rendering the template, writing and encrypting the PDF, and the part of
      `send_email` that can escape it (the Graph transport or reading the PDF;
      SMTP failures are caught and printed inside `send_email`). */
  datatype Effects = Effects(
    render: Record -> Option<string>,
    pdf: Record -> Option<string>,
    mail: Record -> Option<string>)

  /** A key `repr()` prints between single quotes unchanged: printable
      ASCII, without a quote or a backslash. The column names the handlers
      index with are such keys. */
  predicate PlainKey(key: string) {
    |key| == 0 || (' ' <= key[0] <= '~' && key[0] != '\'' && key[0] != '\\' && PlainKey(key[1..]))
  }

  /** The column names the handlers raise KeyError for are plain. */
  lemma ColumnKeysPlain()
    ensures PlainKey("NUP") && PlainKey("NAMA") && PlainKey("BULAN") && PlainKey("TAHUN") && PlainKey("EMAIL")
  {
  }

  /** `str(KeyError(key))` for a plain key: the key in single quotes. */
  function KeyErrorText(key: string): (r: string)
    requires PlainKey(key)
    ensures |r| == |key| + 2 && r[0] == '\'' && r[|r| - 1] == '\'' && r[1..|r| - 1] == key
  {
    "'" + key + "'"
  }

  /** `generate_pdf(data)` of utils.py with its foreign steps: rendering
      comes first, then the file name (KeyError), then writing and
      protecting the PDF. */
  function GenerateSlip(fx: Effects, data: Record): (r: Result<Slip, string>)
    ensures r.Success? <==> fx.render(data).None? && GeneratePdf(data).Success? && fx.pdf(data).None?
    ensures r.Success? ==> r.value == GeneratePdf(data).value
    ensures fx.render(data).Some? ==> r == Failure(fx.render(data).value)
    ensures fx.render(data).None? && GeneratePdf(data).Failure? ==> (ColumnKeysPlain(); r == Failure(KeyErrorText(GeneratePdf(data).error)))
  {
    match fx.render(data)
    case Some(e) => Failure(e)
    case None =>
      match GeneratePdf(data)
      case Failure(k) => ColumnKeysPlain(); Failure(KeyErrorText(k))
      case Success(slip) =>
        match fx.pdf(data)
        case Some(e) => Failure(e)
        case None => Success(slip)
  }

  /** The body of the `try` in `/sendall`, and the work of `/admin/resend`
      once the row is found: the slip, then `send_email(to_email=data['EMAIL'], ...)`. */
  function SendRow(fx: Effects, data: Record): (r: Result<Slip, string>)
    ensures r.Success? <==> GenerateSlip(fx, data).Success? && "EMAIL" in data && fx.mail(data).None?
    ensures r.Success? ==> r == GenerateSlip(fx, data)
    ensures GenerateSlip(fx, data).Failure? ==> r == GenerateSlip(fx, data)
    ensures GenerateSlip(fx, data).Success? && "EMAIL" !in data ==> (ColumnKeysPlain(); r == Failure(KeyErrorText("EMAIL")))
  {
    match GenerateSlip(fx, data)
    case Failure(e) => Failure(e)
    case Success(slip) =>
      if "EMAIL" !in data then ColumnKeysPlain(); Failure(KeyErrorText("EMAIL"))
      else
        match fx.mail(data)
        case Some(e) => Failure(e)
        case None => Success(slip)
  }

  /** A row without NUP or NAMA never goes through; a row that goes through
      carries a slip protected with its TTL password, owner and user alike. */
  lemma SendRowFacts(fx: Effects, data: Record)
    ensures !Listable(data) ==> SendRow(fx, data).Failure?
    ensures SendRow(fx, data).Success? ==>
              && Listable(data)
              && SendRow(fx, data).value.protection == Some(Encryption(TtlPassword(data), TtlPassword(data), 4))
  {
  }

  // ---------------------------------------------------------------------
  // /admin/resend/<nup>
  // ---------------------------------------------------------------------

  /** What `resend_email` answers. */
  datatype ResendOutcome = NotFound | Resent(message: string) | Raised(error: string)

  /** `resend_email(nup)` on a sheet with the given columns: KeyError('NUP')
      without an NUP column; 404 when no row's NUP text is `nup`; otherwise
      the first such row's slip and mail, and the confirmation naming its
      EMAIL. */
  function Resend(fx: Effects, columns: set<string>, rows: seq<Record>, nup: string): (r: ResendOutcome)
    requires HasColumns(rows, columns)
    ensures "NUP" !in columns ==> (ColumnKeysPlain(); r == Raised(KeyErrorText("NUP")))
    ensures "NUP" in columns ==> (r.NotFound? <==> forall i :: 0 <= i < |rows| ==> Str(rows[i]["NUP"]) != nup)
    ensures "NUP" in columns && !r.NotFound? ==>
              var i := FirstMatch(rows, "NUP", nup).value;
              && (r.Resent? <==> SendRow(fx, rows[i]).Success?)
              && (r.Resent? ==> r.message == "Slip gaji berhasil dikirim ulang ke " + Str(rows[i]["EMAIL"]) + ".")
              && (r.Raised? ==> r.error == SendRow(fx, rows[i]).error)
  {
    if "NUP" !in columns then ColumnKeysPlain(); Raised(KeyErrorText("NUP"))
    else
      match FirstMatch(rows, "NUP", nup)
      case None => NotFound
      case Some(i) =>
        match SendRow(fx, rows[i])
        case Failure(e) => Raised(e)
        case Success(_) => Resent("Slip gaji berhasil dikirim ulang ke " + Str(rows[i]["EMAIL"]) + ".")
  }

  /** Rows after the first match never matter to the lookup. */
  lemma FirstMatchPrefix(rows: seq<Record>, more: seq<Record>, key: string)
    requires HasColumns(rows + more, {"NUP"})
    requires exists i :: 0 <= i < |rows| && Str((rows + more)[i]["NUP"]) == key
    ensures HasColumns(rows, {"NUP"})
    ensures FirstMatch(rows + more, "NUP", key) == FirstMatch(rows, "NUP", key)
  {
    assert forall i :: 0 <= i < |rows| ==> rows[i] == (rows + more)[i];
    var a := FirstMatch(rows + more, "NUP", key);
    var b := FirstMatch(rows, "NUP", key);
    assert a.Some? && b.Some?;
    assert a.value == b.value;
  }

  /** Appending rows to the sheet does not change a resend whose NUP is
      already there: the first matching row wins. */
  lemma ResendIgnoresLaterRows(fx: Effects, columns: set<string>, rows: seq<Record>, more: seq<Record>, nup: string)
    requires "NUP" in columns && HasColumns(rows + more, columns)
    requires exists i :: 0 <= i < |rows| && Str((rows + more)[i]["NUP"]) == nup
    ensures HasColumns(rows, columns)
    ensures Resend(fx, columns, rows + more, nup) == Resend(fx, columns, rows, nup)
  {
    assert forall i :: 0 <= i < |rows| ==> rows[i] == (rows + more)[i];
    FirstMatchPrefix(rows, more, nup);
    var i := FirstMatch(rows, "NUP", nup).value;
    assert (rows + more)[i] == rows[i];
  }

  // ---------------------------------------------------------------------
  // /sendall
  // ---------------------------------------------------------------------

  /** An entry of the `gagal` list. */
  datatype FailedRow = FailedRow(nup: Cell, nama: Cell, error: string)

  /** What `/sendall` answers: `berhasil` and `gagal`. */
  datatype Report = Report(berhasil: nat, gagal: seq<FailedRow>)

  /** The `except` clause, `failed.append({'nup': user_data['NUP'],
      'nama': user_data['NAMA'], 'error': str(e)})`: reading NUP or NAMA
      there raises out of the handler. */
  function FailureEntry(data: Record, e: string): (r: Result<FailedRow, string>)
    ensures r.Success? <==> Listable(data)
  {
    ColumnKeysPlain();
    if "NUP" !in data then Failure(KeyErrorText("NUP"))
    else if "NAMA" !in data then Failure(KeyErrorText("NAMA"))
    else Success(FailedRow(data["NUP"], data["NAMA"], e))
  }

  /** What the loop body does with one row, `Failure` when the `try`
      raises; `RowSender` below is the one `/sendall` uses. Every sender the
      loop is run with fails on a row without NUP or NAMA, as `generate_pdf`
      does. */
  ghost predicate FailsUnlisted(send: Record -> Result<Slip, string>) {
    forall d :: !Listable(d) ==> send(d).Failure?
  }

  /** The `try` body of `/sendall`: `generate_pdf`, then `send_email`. */
  function RowSender(fx: Effects): (send: Record -> Result<Slip, string>)
    ensures FailsUnlisted(send)
    ensures forall d :: send(d) == SendRow(fx, d)
  {
    var send := (d: Record) => SendRow(fx, d);
    assert forall d :: !Listable(d) ==> send(d).Failure? by {
      forall d | !Listable(d)
        ensures send(d).Failure?
      {
        SendRowFacts(fx, d);
      }
    }
    send
  }

  /** One pass of the loop body on the report so far. */
  function Step(send: Record -> Result<Slip, string>, rep: Report, data: Record): (r: Result<Report, string>) {
    match send(data)
    case Success(_) => Success(Report(rep.berhasil + 1, rep.gagal))
    case Failure(e) =>
      match FailureEntry(data, e)
      case Failure(k) => Failure(k)
      case Success(f) => Success(Report(rep.berhasil, rep.gagal + [f]))
  }

  /** The loop of `/sendall` as a left fold over the rows; `Failure` when the
      `except` clause itself raises. */
  function SendAllFold(send: Record -> Result<Slip, string>, rows: seq<Record>): (r: Result<Report, string>)
    decreases |rows|
  {
    if rows == [] then Success(Report(0, []))
    else
      match SendAllFold(send, rows[..|rows| - 1])
      case Failure(k) => Failure(k)
      case Success(rep) => Step(send, rep, rows[|rows| - 1])
  }

  /** Reference count: the rows that go through. */
  function Delivered(send: Record -> Result<Slip, string>, rows: seq<Record>): (r: nat)
    decreases |rows|
  {
    if rows == [] then 0
    else (if send(rows[0]).Success? then 1 else 0) + Delivered(send, rows[1..])
  }

  /** The failure entry of one row: none if it goes through. */
  function FailedOf(send: Record -> Result<Slip, string>, data: Record): (r: seq<FailedRow>)
    requires Listable(data)
  {
    match send(data)
    case Success(_) => []
    case Failure(e) => [FailedRow(data["NUP"], data["NAMA"], e)]
  }

  /** Reference list: one entry per failing row, in row order. */
  function Failed(send: Record -> Result<Slip, string>, rows: seq<Record>): (r: seq<FailedRow>)
    requires forall i :: 0 <= i < |rows| ==> Listable(rows[i])
    decreases |rows|
  {
    if rows == [] then [] else FailedOf(send, rows[0]) + Failed(send, rows[1..])
  }

  lemma {:induction false} DeliveredSnoc(send: Record -> Result<Slip, string>, rows: seq<Record>, x: Record)
    ensures Delivered(send, rows + [x]) == Delivered(send, rows) + (if send(x).Success? then 1 else 0)
    decreases |rows|
  {
    if rows == [] {
      assert [] + [x] == [x];
    } else {
      assert (rows + [x])[0] == rows[0] && (rows + [x])[1..] == rows[1..] + [x];
      DeliveredSnoc(send, rows[1..], x);
    }
  }

  lemma {:induction false} FailedSnoc(send: Record -> Result<Slip, string>, rows: seq<Record>, x: Record)
    requires forall i :: 0 <= i < |rows| ==> Listable(rows[i])
    requires Listable(x)
    ensures forall i :: 0 <= i < |rows + [x]| ==> Listable((rows + [x])[i])
    ensures Failed(send, rows + [x]) == Failed(send, rows) + FailedOf(send, x)
    decreases |rows|
  {
    assert forall i :: 0 <= i < |rows + [x]| ==> (rows + [x])[i] == if i < |rows| then rows[i] else x;
    if rows == [] {
      assert [] + [x] == [x];
      assert Failed(send, [x]) == FailedOf(send, x) + Failed(send, []);
    } else {
      assert (rows + [x])[1..] == rows[1..] + [x];
      FailedSnoc(send, rows[1..], x);
    }
  }

  /** Every row lands in exactly one of the two outcomes. */
  lemma {:induction false} DeliveredPlusFailed(send: Record -> Result<Slip, string>, rows: seq<Record>)
    requires forall i :: 0 <= i < |rows| ==> Listable(rows[i])
    ensures Delivered(send, rows) + |Failed(send, rows)| == |rows|
    decreases |rows|
  {
    if rows != [] {
      DeliveredPlusFailed(send, rows[1..]);
    }
  }

  /** A row that joins the end never changes which row is the first one
      without NUP or NAMA. */
  lemma {:induction false} FirstUnlistableSnoc(rows: seq<Record>, x: Record)
    ensures FirstUnlistable(rows).Some? ==> FirstUnlistable(rows + [x]) == FirstUnlistable(rows)
    ensures FirstUnlistable(rows).None? && !Listable(x) ==> FirstUnlistable(rows + [x]) == Some(|rows|)
    ensures FirstUnlistable(rows).None? && Listable(x) ==> FirstUnlistable(rows + [x]).None?
    decreases |rows|
  {
    if rows == [] {
      assert rows + [x] == [x];
    } else {
      assert (rows + [x])[0] == rows[0] && (rows + [x])[1..] == rows[1..] + [x];
      FirstUnlistableSnoc(rows[1..], x);
    }
  }

  /** What the fold computes: it fails exactly when some row lacks NUP or
      NAMA, with the KeyError of the first such row; otherwise `berhasil`
      counts the rows that go through and `gagal` lists the others, in row
      order. */
  lemma {:induction false} SendAllFoldSpec(send: Record -> Result<Slip, string>, rows: seq<Record>)
    requires FailsUnlisted(send)
    ensures SendAllFold(send, rows).Success? <==> forall i :: 0 <= i < |rows| ==> Listable(rows[i])
    ensures SendAllFold(send, rows).Success? ==>
              && SendAllFold(send, rows).value.berhasil == Delivered(send, rows)
              && SendAllFold(send, rows).value.gagal == Failed(send, rows)
    ensures SendAllFold(send, rows).Failure? ==>
              var k := FirstUnlistable(rows).value;
              (ColumnKeysPlain();
               SendAllFold(send, rows).error == (if "NUP" !in rows[k] then KeyErrorText("NUP") else KeyErrorText("NAMA")))
    decreases |rows|
  {
    if rows != [] {
      var init, x := rows[..|rows| - 1], rows[|rows| - 1];
      assert rows == init + [x];
      SendAllFoldSpec(send, init);
      FirstUnlistableSnoc(init, x);
      assert forall i :: 0 <= i < |init| ==> rows[i] == init[i];
      match SendAllFold(send, init)
      case Failure(_) =>
      case Success(rep) =>
        DeliveredSnoc(send, init, x);
        if Listable(x) {
          FailedSnoc(send, init, x);
        }
    }
  }

  /** Once the handler has raised, the rest of the rows change nothing. */
  lemma {:induction false} FoldFailureSticks(send: Record -> Result<Slip, string>, rows: seq<Record>, n: nat)
    requires n <= |rows| && SendAllFold(send, rows[..n]).Failure?
    ensures SendAllFold(send, rows) == SendAllFold(send, rows[..n])
    decreases |rows| - n
  {
    if n < |rows| {
      assert rows[..n + 1][..n] == rows[..n];
      FoldFailureSticks(send, rows, n + 1);
    } else {
      assert rows[..n] == rows;
    }
  }

  /** A failing row never stops the rows after it: the outcomes of a sheet
      are those of its two halves put together. */
  lemma {:induction false} FailedAppend(send: Record -> Result<Slip, string>, a: seq<Record>, b: seq<Record>)
    requires forall i :: 0 <= i < |a| ==> Listable(a[i])
    requires forall i :: 0 <= i < |b| ==> Listable(b[i])
    ensures forall i :: 0 <= i < |a + b| ==> Listable((a + b)[i])
    ensures Failed(send, a + b) == Failed(send, a) + Failed(send, b)
    ensures Delivered(send, a + b) == Delivered(send, a) + Delivered(send, b)
    decreases |a|
  {
    assert forall i :: 0 <= i < |a + b| ==> (a + b)[i] == if i < |a| then a[i] else b[i - |a|];
    if a == [] {
      assert a + b == b;
    } else {
      assert (a + b)[0] == a[0] && (a + b)[1..] == a[1..] + b;
      FailedAppend(send, a[1..], b);
    }
  }

  /** The report of a sheet is the reports of its two halves added up. */
  lemma SendAllAppend(send: Record -> Result<Slip, string>, a: seq<Record>, b: seq<Record>)
    requires FailsUnlisted(send)
    requires SendAllFold(send, a).Success? && SendAllFold(send, b).Success?
    ensures SendAllFold(send, a + b).Success?
    ensures SendAllFold(send, a + b).value.berhasil == SendAllFold(send, a).value.berhasil + SendAllFold(send, b).value.berhasil
    ensures SendAllFold(send, a + b).value.gagal == SendAllFold(send, a).value.gagal + SendAllFold(send, b).value.gagal
  {
    SendAllFoldSpec(send, a);
    SendAllFoldSpec(send, b);
    FailedAppend(send, a, b);
    SendAllFoldSpec(send, a + b);
  }

  /** `/sendall`: the loop over the rows, counting and collecting; the
      handler runs it with `RowSender(fx)`. */
  method SendAll(send: Record -> Result<Slip, string>, rows: seq<Record>) returns (r: Result<Report, string>)
    requires FailsUnlisted(send)
    ensures r == SendAllFold(send, rows)
    ensures r.Success? <==> forall i :: 0 <= i < |rows| ==> Listable(rows[i])
    ensures r.Success? ==> r.value.berhasil + |r.value.gagal| == |rows|
    ensures r.Success? ==> r.value.berhasil == Delivered(send, rows)
    ensures r.Success? ==> r.value.gagal == Failed(send, rows)
  {
    SendAllFoldSpec(send, rows);
    var berhasil := 0;
    var gagal := [];
    var i := 0;
    while i < |rows|
      invariant 0 <= i <= |rows|
      invariant SendAllFold(send, rows[..i]) == Success(Report(berhasil, gagal))
    {
      assert rows[..i + 1][..i] == rows[..i];
      match send(rows[i]) {
        case Success(_) =>
          berhasil := berhasil + 1;
        case Failure(e) =>
          if "NUP" !in rows[i] || "NAMA" !in rows[i] {
            FoldFailureSticks(send, rows, i + 1);
            ColumnKeysPlain();
            r := Failure(if "NUP" !in rows[i] then KeyErrorText("NUP") else KeyErrorText("NAMA"));
            return;
          }
          gagal := gagal + [FailedRow(rows[i]["NUP"], rows[i]["NAMA"], e)];
      }
      i := i + 1;
    }
    assert rows[..|rows|] == rows;
    DeliveredPlusFailed(send, rows);
    r := Success(Report(berhasil, gagal));
  }
}
