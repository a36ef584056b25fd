/** Spreadsheet cells and rows as the payslip code sees them after pandas has
    loaded a sheet and `row.to_dict()` has turned a row into a dict. */
module Cells {
  import opened PyStr

  /** One cell value: text, an integer, or pandas' missing marker (NaN). */
  datatype Cell = Text(s: string) | Int(i: int) | Missing

  /** A row as a dict from column name to cell. A key is absent only when the
      sheet has no such column, so `.get(key, default)` falls back only then. */
  type Record = map<string, Cell>

  /** Python's `str(value)` (also what an f-string interpolates). */
  function Str(c: Cell): (r: string) {
    match c
    case Text(s) => s
    case Int(i) => IntToDecimal(i)
    case Missing => "nan"
  }

  /** `row.get(key, default)`. */
  function Get(r: Record, key: string, default: Cell): (c: Cell)
    ensures key in r ==> c == r[key]
    ensures key !in r ==> c == default
  {
    if key in r then r[key] else default
  }

  /** Every row of a sheet has the given columns (`df[col]` does not raise). */
  predicate HasColumns(rows: seq<Record>, cols: set<string>) {
    forall i, k :: 0 <= i < |rows| && k in cols ==> k in rows[i]
  }

  /** Index of the first row whose `str(row[col])` equals `key`, the shape of
      pandas' `df[df[col].astype(str) == key].iloc[0]`. */
  function FirstMatch(rows: seq<Record>, col: string, key: string): (r: Wrappers.Option<nat>)
    requires HasColumns(rows, {col})
    ensures r.None? <==> forall i :: 0 <= i < |rows| ==> Str(rows[i][col]) != key
    ensures r.Some? ==> r.value < |rows| && Str(rows[r.value][col]) == key
                        && forall j :: 0 <= j < r.value ==> Str(rows[j][col]) != key
    decreases |rows|
  {
    if |rows| == 0 then Wrappers.None
    else if Str(rows[0][col]) == key then Wrappers.Some(0)
    else
      match FirstMatch(rows[1..], col, key)
      case None => Wrappers.None
      case Some(k) => Wrappers.Some(k + 1)
  }
}
