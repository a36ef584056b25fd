# Payslip pipeline in Dafny

This is a model of the decision and string logic of a small Flask payslip
application. The application loads an employee sheet (one row per employee),
lets admins and employees log in, writes a password-protected PDF slip per
employee and mails it. It also seeds a user table from a second sheet.
These parts are covered:

- **PyStr** (`pystr.dfy`): the Python string primitives the code relies on.
  These are `strip`, one-character `replace`, `upper`/`lower`,
  `startswith`/`endswith`, `zfill`, `str(int)`, `int(str)` and
  `os.path.join` under POSIX path rules.
- **Cells** (`cells.dfy`): a sheet row as a map from column name to cell
  (text, integer or NaN), `str()` of a cell, `.get` with a default, and the
  first row whose `str(row[col])` equals a key.
- **Columns** (`columns.dfy`): `clean_column_names`.
- **Rupiah** (`rupiah.dfy`): `round_half_up`, the rounding `format_rupiah`
  of `utils/helpers.py`, and the truncating `format_rupiah` of `utils.py` and
  `utils/generate_pdf.py`. Both print with '.' as the thousands separator.
- **Komponen** (`komponen.dfy`): `get_komponen_by_status`, the three
  status-dependent tables (take-home pay, other income, deductions).
- **Credentials** (`credentials.dfy`): the slip and login password
  `str(TTL).zfill(8)`, and the seeding password `ddmmyyyy`.
- **Slips** (`slips.dfy`): both `generate_pdf` variants (output folder, file
  name, KeyErrors, the protect decision), `protect_pdf`, and the admin
  dashboard: its month label, its slip search as written, and a corrected
  search.
- **App** (`app.dfy`):
  - `allowed_file`;
  - the login decision;
  - `/admin/resend/<nup>`;
  - `/sendall` as a fold over the rows, written both as a function and as a
    loop.
- **Seed** (`seed.dfy`): `seed_users_from_excel`, the row checks and the
  counters.

Foreign effects are inputs:

- A folder listing is an `Option<seq<string>>`; `None` means the folder does
  not exist.
- A sheet's column set is an input of the handlers that index a column with
  `df[col]` or `row[col]`; every row carries exactly those columns.
- Rendering, writing and encrypting a PDF and sending a mail form an
  `Effects` value that says, per row, which step raises and with what message.
- The `/sendall` loop is proved for any per-row sender that fails on a row
  without NUP or NAMA. `App.RowSender` is the sender the handler uses.

## Model

| member | source | states |
|---|---|---|
| PyStr.ZFill | app.py:17 | `zfill` pads to exactly `max(width, len)` characters, leaves long enough strings unchanged, keeps the original as a suffix and puts the zeros after a leading sign |
| PyStr.ParseIntDecimal | app.py:101 | `int(str(i)) == i` for every integer, so a numeric BULAN reads back as itself |
| PyStr.FramedIff | utils.py:63 | a string read off by position as a prefix, a middle and a suffix is exactly their concatenation, and back |
| PyStr.PathJoin | utils.py:59 | `os.path.join(a, b)`: an absolute `b` replaces `a`; otherwise the result starts with `a` and ends with `b`, with one '/' between them exactly when `a` is non-empty and does not already end with '/' |
| Cells.FirstMatch | app.py:53 | `None` exactly when no row's `str(row[col])` equals the key; otherwise the first row that matches |
| Columns.CleanColumnName | utils/helpers.py:15-20 | a cleaned header is exactly as long as the stripped header, and each of its characters is the stripped header's character at the same place, with ' ' and '-' turned into '_' and then upper-cased; so it has no surrounding whitespace, no ' ', no '-' and no lower-case letter |
| Columns.CleanColumnNameByChars | utils/helpers.py:15-20 | the header cleaning equals an independent front-to-back, one-character-at-a-time definition applied to the stripped header |
| Columns.CleanColumnNamePadded | utils/helpers.py:15-20 | one blank on each side of a trimmed, non-empty header is stripped away before the replacements and the upper-casing |
| Columns.CleanColumnNameExample | utils/helpers.py:15-20 | " nama-lengkap " is cleaned to "NAMA_LENGKAP" |
| Columns.CleanColumnNames | utils/helpers.py:19 | the cleaned headers keep the number and order of the columns, each header cleaned on its own |
| Columns.NormalisedFixed | utils/helpers.py:19 | a header that is already clean is left unchanged |
| Columns.CleanColumnNameIdempotent | utils/helpers.py:15-20 | cleaning a header twice gives the same result as cleaning it once |
| Columns.CleanColumnNamesIdempotent | utils/helpers.py:15-20 | cleaning the header row twice gives the same result as cleaning it once |
| Rupiah.RoundHalfUp | utils/helpers.py:22-29 | the result is within 1/2 of the input, and a tie goes away from zero |
| Rupiah.RoundHalfUpInteger | utils/helpers.py:22-29 | integers are unchanged |
| Rupiah.RoundHalfUpTies | utils/helpers.py:22-29 | k + 1/2 rounds to k + 1 and -(k + 1/2) to -(k + 1) |
| Rupiah.RoundHalfUpOdd | utils/helpers.py:22-29 | rounding commutes with negation |
| Rupiah.Truncate | utils.py:26 | `int(x)` rounds toward zero: below x for positive x, above it for negative x, never by a whole unit |
| Rupiah.GroupedUndot | utils/helpers.py:38 | deleting the '.' separators gives back the decimal form of the number |
| Rupiah.GroupedShape | utils/helpers.py:38 | a '.' sits at every fourth position from the right and nowhere else; every other character is a digit |
| Rupiah.FormatRupiah | utils/helpers.py:31-40 | "0" when conversion or rounding raises; otherwise the rounded value grouped with '.', with a leading '-' when negative |
| Rupiah.FormatRupiahTruncating | utils.py:23-29 | the same shape for the value truncated toward zero; "0" when conversion raises (utils/generate_pdf.py:9-14 is identical) |
| Rupiah.FormatRupiahReadBack | utils/helpers.py:35-38 | the printed digits, without separators and sign, are the magnitude of the rounded value |
| Rupiah.FormatRupiahTenThousand | utils/helpers.py:33 | 10000 prints as "10.000" |
| Rupiah.FormatRupiahTies | utils/helpers.py:36-38 | 1999.5 prints as "2.000" and -2.5 as "-3" |
| Rupiah.FormatRupiahTruncatingExamples | utils/generate_pdf.py:9-14 | 1999.9 prints as "1.999", -1999.9 as "-1.999" and -0.5 as "0" |
| Komponen.GetKomponenByStatus | utils/helpers.py:117-196 | each table lists its layout's labels in order; a present column's cell is copied and an absent one gives 0; the sizes are 3/10/10, 2/3/8 and 1/2/5; any other status gives three empty tables |
| Komponen.LayoutLabelsDistinct | utils/helpers.py:123-189 | no label repeats within or across the tables of a status, so each dict literal keeps every entry |
| Komponen.StatusCaseInsensitive | utils/helpers.py:121 | two records whose status texts agree after `lower()` get the same status |
| Komponen.TablesDependOnLayoutColumns | utils/helpers.py:123-189 | the tables depend only on the status and on the columns the chosen layout reads |
| Komponen.StatusExamples | utils/helpers.py:121-123 | "PKWTT" and "pkwtt" select the permanent layout; "Tambahan" selects the supplemental one |
| Komponen.StatusFallThrough | utils/helpers.py:191-196 | " pkwtt" (untrimmed), a NaN status and a missing status column all fall through, the last giving three empty tables |
| Komponen.PkwttZeroFill | utils/helpers.py:124-128 | a permanent employee's table copies the first base salary and gives 0 for the two absent columns |
| Credentials.TtlPasswordShape | utils.py:80-81 | the slip password is at least 8 characters; "00000000" without a TTL column; the TTL text itself when that is 8 or longer; 8 digits ending in the TTL text when that is a shorter digit string |
| Credentials.LoginMatchesSlipPassword | app.py:17 | the login password column and the slip password of a row are the same string |
| Credentials.ZFillKeepsValue | app.py:17 | zero-padding a digit string keeps it a digit string with the same numeric value |
| Credentials.ZFillIdempotent | utils/generate_pdf.py:63-64 | padding twice gives the same result as padding once |
| Credentials.TtlPasswordNumericDate | utils/generate_pdf.py:63-64 | a birth date stored as the number 1011990 gets its leading zero back: "01011990" |
| Credentials.TtlPasswordDashedDate | utils.py:79-81 | "25-04-1990" is kept with its dashes; the padding does not remove them |
| Credentials.TtlPasswordEmptyCell | utils.py:80-81 | an empty TTL cell reads as "nan" and becomes "00000nan" |
| Credentials.TtlPasswordNegative | utils.py:81 | the zeros go after a leading '-': -5 becomes "-0000005" |
| Credentials.DdMmYyyy | seed_user.py:33 | `strftime('%d%m%Y')` of a Timestamp date is exactly 8 digits |
| Credentials.DdMmYyyyRoundTrip | seed_user.py:33 | reading day, month and year back from the 8 digits gives the date |
| Credentials.DdMmYyyyInjective | seed_user.py:33 | two different birth dates never share a seeding password |
| Credentials.DdMmYyyyExample | seed_user.py:33 | 25 April 1990 gives "25041990" |
| Slips.ProtectPdf | utils.py:89-91 | the owner and user passwords are both the given password, with revision 4 |
| Slips.ProtectionFor | utils.py:80-84 | the padded password is never empty, so the PDF is always protected with it |
| Slips.SlipName | utils.py:63 | the file name is `slip_<NUP>_`, then NAMA, then `_<bulan>_<tahun>.pdf`, each part at its position |
| Slips.GeneratePdf | utils.py:55-64 | succeeds iff NUP, NAMA, BULAN and TAHUN are present, failing otherwise with the first missing key in that order; the folder is `os.path.join("static/slips", f"{tahun}-{bulan}")` of the stripped period; the name is `slip_<NUP>_`, NAMA and the raw `_<BULAN>_<TAHUN>.pdf`; protection is always applied with the TTL password |
| Slips.GeneratePdfStripped | utils/generate_pdf.py:39-46 | succeeds iff NUP and NAMA are present; the folder as above; the name is `slip_<NUP>_`, NAMA and the stripped, defaulted `_<bulan>_<tahun>.pdf`; protection as above |
| Slips.FolderSplit | utils.py:59 | a period folder is a head shared by every month (`static/slips/<tahun>-`, or just `<tahun>-` when TAHUN is absolute) followed by the month text |
| Slips.AbsoluteYearFolder | utils.py:59 | `os.path.join` restarts at an absolute part: TAHUN "/tmp" with BULAN 4 gives the folder "/tmp-4" |
| Slips.PeriodDefaults | utils/generate_pdf.py:40-41 | the period texts are `str(data.get('BULAN', 'Unknown')).strip()` and `str(data.get('TAHUN', '0000')).strip()`, defaults and integer cells included |
| Slips.GeneratePdfStrippedDefaults | utils/generate_pdf.py:40-45 | without period columns the slip goes to `static/slips/0000-Unknown` and its name ends in `_Unknown_0000.pdf` |
| Slips.SuffixDetermined | app.py:114 | a file name carries at most one slip suffix whose month and year contain no '_' |
| Slips.StrippedNameMatchesSearch | utils/generate_pdf.py:45 | when neither the searched month and year nor the generator's stripped month and year contain '_', the generated name passes the dashboard's prefix and suffix test exactly when the searched month and year are the ones the generator used |
| Slips.MonthLabel | app.py:100-104 | `int(BULAN)` in 0..12 gives `calendar.month_name`, -13..-1 counts from the end, and anything else or an unreadable BULAN gives "Unknown" |
| Slips.FirstWithAffixes | app.py:111-116 | none exactly when no file has both the prefix and the suffix; otherwise the first such file in listing order |
| Slips.DashboardSlipPath | app.py:106-116 | as written: no path without the folder; otherwise `os.path.join` of the dashboard folder and the first listed file matching `slip_<NUP>_` and `_<month label>_<tahun>.pdf` |
| Slips.DashboardSlipPathFixed | app.py:106-116 | corrected: the same search in the folder `generate_pdf` writes to, for the suffix it writes |
| Slips.DashboardRow | app.py:98-126 | a row fails iff NUP or NAMA is missing (NUP first); otherwise its line copies NUP and NAMA, defaults EMAIL to "" and status_kirim to "Belum", and carries the month label and the year; its slip path is the as-written search in the dashboard folder for `AsWritten`, the corrected search for `Corrected` |
| Slips.FirstUnlistable | app.py:119-120 | none exactly when every row has NUP and NAMA; otherwise the first row missing one |
| Slips.Dashboard | app.py:96-128 | one line per row in row order, or the KeyError of the first row missing NUP or NAMA; with `AsWritten` this is the page app.py builds |
| Slips.DashboardMissesGeneratedSlip | app.py:106-116 | as written: for a numeric BULAN in 1..12 the dashboard folder is not the folder either `generate_pdf` writes to, so no listing ever yields the generated slip's path |
| Slips.DashboardMissesExample | utils.py:56-63 | NUP 7, Budi, April 2025: the slip is written to `static/slips/2025-4/slip_7_Budi_4_2025.pdf`, the dashboard looks in `static/slips/2025-April`, and a listing holding the slip's name yields nothing |
| Slips.GeneratorsShareFolder | utils/generate_pdf.py:40-42 | both `generate_pdf` variants write a row to the same folder |
| Slips.GeneratedSlipAffixes | utils.py:59-63 | a generated slip lies in the slip folder and carries the prefix and suffix the corrected search looks for |
| Slips.DashboardFixedFindsGeneratedSlip | utils.py:59-64 | corrected: once the slip is in the listing, the corrected search reports `os.path.join` of the folder `generate_pdf` wrote to and a listed file with that employee's prefix and that period's suffix |
| Slips.DashboardFixedReportsSlipPath | app.py:113-115 | corrected: with no other file of that employee in the folder, the search reports exactly the slip's output path |
| Slips.DashboardPageMissesSlip | app.py:106-122 | as written, on the page: for a numeric BULAN of 1..12 a row's line never shows the path its slip was written to, whatever the folders hold |
| Slips.DashboardPageFindsSlip | app.py:106-122 | corrected, on the page: once the slip is in its folder, the row's line shows a path |
| Slips.MonthLabelNumbers | app.py:101-102 | BULAN 4 gives "April", -1 gives "December" and 13 gives "Unknown" |
| Slips.MonthLabelNoColumn | app.py:101 | a missing BULAN column reads as 0, the empty month name |
| Slips.MonthLabelUnreadable | app.py:103-104 | NaN and the word "April" make `int` raise, giving "Unknown" |
| App.LastDot | app.py:36 | the position of the last '.', with no '.' after it; none iff the name has no '.' |
| App.AllowedFileIff | app.py:35-36 | a name that splits at its last '.' into p and e is accepted iff `e.lower()` is "xlsx" |
| App.AllowedFileAccepts | app.py:36 | "a.XLSX" and a bare ".xlsx" are accepted: the extension is compared lower-cased, and the part before the dot may be empty |
| App.AllowedFileRejects | app.py:35-36 | "a.xlsx.exe" and "xlsx" are refused |
| App.Login | app.py:40-59 | an accepted admin always gets the admin session; otherwise KeyError('NUP') when the sheet has no NUP column; otherwise the employee session iff the first row whose NUP text equals the username has that password; otherwise failure |
| App.LoginEmployeeIff | app.py:53-59 | employee login, stated without the search: some row's NUP text equals the username, no earlier row matches, and that row's password is the one supplied |
| App.LoginWithSlipPassword | app.py:53-57 | an employee who types their NUP and their slip password logs in, unless an admin of that name accepts it |
| App.LoginNupIsTextual | app.py:53 | the match is textual: "007" does not log in as NUP 7, "7" does |
| App.KeyErrorText | app.py:175 | for a plain key (printable ASCII with no single quote and no backslash, as every column name the handlers index with is) `str(KeyError(k))` is the key in single quotes |
| App.GenerateSlip | utils.py:33-86 | rendering is the first step that can fail, then the KeyError of the file name, then writing and protecting; on success the slip of `generate_pdf` |
| App.SendRow | app.py:164-172 | succeeds iff the slip succeeds, the row has an EMAIL and the mail step does not raise; a missing EMAIL gives KeyError('EMAIL') |
| App.SendRowFacts | app.py:165-173 | a row without NUP or NAMA never goes through; a row that does carries the TTL-protected slip |
| App.Resend | app.py:137-151 | KeyError('NUP') when the sheet has no NUP column; otherwise not found iff no row's NUP text equals the given NUP, and else the first such row is sent, confirming with its EMAIL or passing the error up |
| App.ResendIgnoresLaterRows | app.py:137-141 | appending rows never changes a resend whose NUP is already in the sheet |
| App.FailureEntry | app.py:174-175 | the `gagal` entry exists iff the row has NUP and NAMA |
| App.RowSender | app.py:164-173 | the sender the handler uses is the per-row pipeline and fails on every row without NUP or NAMA |
| App.DeliveredPlusFailed | app.py:159-175 | every row is either counted as delivered or listed as failed, never both |
| App.SendAllFoldSpec | app.py:159-181 | the loop raises iff some row lacks NUP or NAMA, with the first such row's KeyError; otherwise `berhasil` counts the rows that went through and `gagal` lists the rest in row order |
| App.FoldFailureSticks | app.py:174-175 | once the except clause has raised, later rows change nothing |
| App.FailedAppend | app.py:162-175 | a failing row never stops the rows after it: outcomes of a sheet are those of its two halves joined |
| App.SendAllAppend | app.py:159-181 | the report of a sheet is the two halves' reports added up |
| App.SendAll | app.py:159-181 | the loop computes the fold: `berhasil + len(gagal)` equals the row count, `berhasil` is the delivered count and `gagal` the failures in row order |
| Seed.CallFor | seed_user.py:30-36 | an accepted row's call has the row's NUP stripped, a password of 8 digits that read back as the row's birth date, and role 'pegawai' |
| Seed.CallsAppend | seed_user.py:13 | the calls of a sheet are the calls of its two halves, in order |
| Seed.CallsShape | seed_user.py:30-36 | every call the seeding makes has an 8-digit password, a trimmed NUP and role 'pegawai' |
| Seed.CallsMembers | seed_user.py:13-37 | every accepted row makes its call, and every call comes from an accepted row |
| Seed.SeedUsers | seed_user.py:10-37 | a non-empty sheet without an NUP (first) or TTL column raises KeyError before any call; otherwise success + fail equals the row count, the calls are those of the accepted rows in row order, one each, and success counts the calls whatever `add_user` returns |
| Seed.NupKeepsLeadingZeros | seed_user.py:8-30 | NUP stays text: " 0042 " is called as "0042" |

## Left out

- PDF rendering (Jinja templates, pdfkit and wkhtmltopdf) and pikepdf's encryption are foreign libraries. They appear only as the `Effects` steps that may raise, and `protect_pdf` only as the `Encryption` settings it passes on.
- Mail transport (SMTP and Microsoft Graph in `utils.py:102-158`, `utils/send_email.py`, `graph_email.py`, `utils/graph_email.py`) is network I/O. It is an `Effects` step. SMTP failures are caught and printed inside `send_email` (utils.py:141-158), so they never reach `/sendall`'s `gagal` list. Only the Graph path and opening the PDF can raise out of it.
- The database user functions of utils/helpers.py (`add_user` and its neighbours) are SQL persistence. `Seed.SeedUsers` records the `add_user` calls instead of making them. The loop ignores their result, so nothing else depends on them.
- Flask routing, sessions, redirects, templates, the `/slip` and `/download` pages, `/logout` and the upload save are left out. So are `os.listdir`, `os.path.exists` and `os.makedirs`: listings and rows are inputs. The `print` calls are left out too.
- `utils/generate_barcode.py` wraps the qrcode and base64 libraries and is not part of this model.
- `check_password_hash` is a parameter (`checkHash`), since the hashing is opaque.
- Rupiah.FormatRupiah: IEEE floats and `float()` parsing are not modelled. A value is an `Option<real>`: `None` where `float()` or the rounding raises, otherwise the exact real the float stands for. The rounding is done exactly.
- Rupiah.FormatRupiahTruncating: the same `Option<real>` abstraction of `float()`.
- Cells cannot be floats, dates or Timestamps. Their `str()` form is pandas and float formatting. A TTL or NUP typed as a date or a decimal number is therefore outside the model.
- Seed.SeedUsers: `pd.to_datetime(..., errors='coerce')` is not modelled. A row's TTL arrives already parsed, or `None` for NaT. The years are limited to 1677..2262, the range of a pandas Timestamp.
- Columns.CleanColumnName: upper-cases ASCII letters only. Unicode case mapping (`'ß'.upper() == 'SS'`, accented letters) is left out.
- PyStr.PathJoin: models `posixpath.join` only. On Windows `os.path.join` is `ntpath.join`: it joins with '\\', treats '\\' as a separator as well as '/', and a drive part such as "C:" resets the join. `Slips.AbsoluteYearFolder` ("/tmp-4") therefore shows POSIX behaviour. The dashboard finding does not depend on this choice: `generate_pdf` and the dashboard build their paths with the same join, and the finding is about the file name they look for.
- App.KeyErrorText requires a plain key. For a key holding a single quote `repr()` switches to double quotes, and a backslash or a non-printable character is escaped; no column name the handlers use is like that.
- PyStr.LowerChar maps ASCII letters and KELVIN SIGN only. Other Unicode lower-casing does not affect the comparisons with "xlsx", "pkwtt", "pkwt" and "tambahan".
- App.Login requires a TTL column. app.py:17 reads `df['TTL']` when it loads the sheet, so without one the application raises before it serves any request. A missing NUP column is modelled: App.Login and App.Resend raise KeyError('NUP'), as app.py:53 and app.py:137 do.
- App.Login, App.Resend and Cells.FirstMatch require every row to carry the sheet's columns, which pandas rows always do.
- App.SendAll requires a sender that fails on rows without NUP or NAMA. `App.RowSender`, the sender `/sendall` uses, is proved to meet that requirement.
- Slips.MonthLabel: `int()` in Python also accepts the other Unicode decimal digits, so BULAN "٤" (ARABIC-INDIC DIGIT FOUR) reads as 4 and gives "April". `PyStr.ParseInt` reads ASCII digits and '_' only, so the model gives "Unknown" there.
- Credentials.LoginMatchesSlipPassword holds for text, integer and NaN TTL cells only. For a TTL column pandas reads as dates, `astype(str)` at app.py:17 prints "1990-04-25", while `str(data['TTL'])` at utils.py:80 prints "1990-04-25 00:00:00". The login and slip passwords then differ. Date cells are outside the model, as stated above.
- The comment at utils.py:79 says "25-04-1990" becomes "25041990", but the code only zero-pads. The model follows the code (`Credentials.TtlPasswordDashedDate`).
- `send_email`'s subject and body texts are not modelled; they do not influence any outcome.

## Findings

| source | as written | input that shows it | evidently intended | confidence | as-written member | corrected member |
|---|---|---|---|---|---|---|
| app.py:100-116 against utils.py:56-63 | the dashboard searches `static/slips/<tahun>-<English month name>` for names ending `_<month name>_<tahun>.pdf`, but `generate_pdf` (the one app.py imports) writes to `static/slips/<tahun>-<str(BULAN)>` with the raw BULAN in the name | NUP 7, NAMA Budi, BULAN 4, TAHUN 2025: slip written as `static/slips/2025-4/slip_7_Budi_4_2025.pdf`, dashboard looks in `static/slips/2025-April` for `_April_2025.pdf` and shows no file | the dashboard finds the slip in the folder and with the suffix `generate_pdf` used | not executed | Slips.DashboardMissesGeneratedSlip | Slips.DashboardFixedFindsGeneratedSlip |
