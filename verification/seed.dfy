/** `seed_users_from_excel` (seed_user.py): one `add_user` call per row with
    an NUP and a birth date, counting the rows it takes and the rows it skips.

    The sheet is read with NUP as text, so a row's NUP is text or missing.
    `pd.to_datetime(..., errors='coerce')` is not modelled: a row's TTL comes
    in already parsed, `None` where pandas gives NaT. A sheet without an NUP
    or a TTL column raises KeyError at its first row. `add_user` is a database
    write whose result the loop ignores; the model records its arguments. */
module Seed {
  import opened Wrappers
  import opened PyStr
  import opened Credentials

  /** A row of the seeding sheet: the NUP text (`None` for NaN) and the
      parsed birth date (`None` for NaT). */
  datatype SeedRow = SeedRow(nup: Option<string>, ttl: Option<Timestamp>)

  /** One `add_user(nup, plain_password, role)` call. */
  datatype UserCall = UserCall(nup: string, password: string, role: string)

  /** The two counters and the calls made, in order. */
  datatype SeedReport = SeedReport(success: nat, fail: nat, calls: seq<UserCall>)

  /** The row is taken: it has an NUP and a valid birth date. */
  predicate Accepted(row: SeedRow) {
    row.nup.Some? && row.ttl.Some?
  }

  /** The call an accepted row makes: stripped NUP, `ddmmyyyy`, 'pegawai'.
      The password is eight digits that read back as the row's birth date. */
  function CallFor(row: SeedRow): (c: UserCall)
    requires Accepted(row)
    ensures c.nup == Strip(row.nup.value) && Trimmed(c.nup)
    ensures |c.password| == 8 && AllDigits(c.password) && ReadDdMmYyyy(c.password) == row.ttl.value
    ensures c.role == "pegawai"
  {
    DdMmYyyyRoundTrip(row.ttl.value);
    UserCall(Strip(row.nup.value), DdMmYyyy(row.ttl.value), "pegawai")
  }

  /** The calls one row makes: its own call when accepted, none otherwise. */
  function CallsOf(row: SeedRow): (r: seq<UserCall>) {
    if Accepted(row) then [CallFor(row)] else []
  }

  /** Reference: the calls of the accepted rows, in row order. */
  function Calls(rows: seq<SeedRow>): (r: seq<UserCall>)
    decreases |rows|
  {
    if rows == [] then [] else CallsOf(rows[0]) + Calls(rows[1..])
  }

  lemma {:induction false} CallsAppend(a: seq<SeedRow>, b: seq<SeedRow>)
    ensures Calls(a + b) == Calls(a) + Calls(b)
    decreases |a|
  {
    if a == [] {
      assert a + b == b;
    } else {
      assert (a + b)[0] == a[0] && (a + b)[1..] == a[1..] + b;
      CallsAppend(a[1..], b);
      assert Calls(a + b) == CallsOf(a[0]) + (Calls(a[1..]) + Calls(b));
    }
  }

  /** The calls of one more row come after the calls before it. */
  lemma CallsSnoc(rows: seq<SeedRow>, i: nat)
    requires i < |rows|
    ensures Calls(rows[..i + 1]) == Calls(rows[..i]) + CallsOf(rows[i])
  {
    var last := [rows[i]];
    assert rows[..i + 1] == rows[..i] + last;
    CallsAppend(rows[..i], last);
    assert last[0] == rows[i] && last[1..] == [];
  }

  /** Every call the seeding makes has an eight-digit password, a trimmed NUP
      and the role 'pegawai'. */
  lemma {:induction false} CallsShape(rows: seq<SeedRow>)
    ensures forall c :: c in Calls(rows) ==>
              |c.password| == 8 && AllDigits(c.password) && Trimmed(c.nup) && c.role == "pegawai"
    decreases |rows|
  {
    if rows != [] {
      CallsShape(rows[1..]);
    }
  }

  /** The calls are exactly those of the accepted rows: every accepted row
      makes its call, and every call comes from an accepted row. */
  lemma {:induction false} CallsMembers(rows: seq<SeedRow>)
    ensures forall i :: 0 <= i < |rows| && Accepted(rows[i]) ==> CallFor(rows[i]) in Calls(rows)
    ensures forall c :: c in Calls(rows) ==> exists i :: 0 <= i < |rows| && Accepted(rows[i]) && c == CallFor(rows[i])
    decreases |rows|
  {
    if rows != [] {
      CallsMembers(rows[1..]);
      assert forall i :: 1 <= i < |rows| ==> rows[i] == rows[1..][i - 1];
      forall c | c in Calls(rows)
        ensures exists i :: 0 <= i < |rows| && Accepted(rows[i]) && c == CallFor(rows[i])
      {
        if c !in Calls(rows[1..]) {
          assert Accepted(rows[0]) && c == CallFor(rows[0]);
        } else {
          var j :| 0 <= j < |rows[1..]| && Accepted(rows[1..][j]) && c == CallFor(rows[1..][j]);
          assert rows[j + 1] == rows[1..][j];
        }
      }
    }
  }

  /** `seed_users_from_excel` on a sheet with the given columns: the
      `add_user` calls in the order made, and the two counters. The loop
      ignores what `add_user` returns, so a row counts as a success whatever
      the database does with it. `row['NUP']`, then `row['TTL']`, raise
      KeyError at the first row when the sheet lacks that column, before any
      call is made. */
  method SeedUsers(columns: set<string>, rows: seq<SeedRow>) returns (r: Result<SeedReport, string>)
    ensures r.Failure? <==> |rows| > 0 && !("NUP" in columns && "TTL" in columns)
    ensures r.Failure? ==> r.error == if "NUP" !in columns then "NUP" else "TTL"
    ensures r.Success? ==> r.value.success + r.value.fail == |rows|
    ensures r.Success? ==> r.value.calls == Calls(rows)
    ensures r.Success? ==> r.value.success == |r.value.calls|
  {
    var success, fail := 0, 0;
    var calls: seq<UserCall> := [];
    for i := 0 to |rows|
      invariant success + fail == i
      invariant calls == Calls(rows[..i])
      invariant success == |calls|
      invariant i > 0 ==> "NUP" in columns && "TTL" in columns
    {
      if "NUP" !in columns {
        return Failure("NUP");
      }
      if "TTL" !in columns {
        return Failure("TTL");
      }
      var row := rows[i];
      CallsSnoc(rows, i);
      if row.nup.None? || row.ttl.None? {
        // an empty NUP, or a TTL pandas could not read: skipped
        fail := fail + 1;
      } else {
        calls := calls + [CallFor(row)];
        success := success + 1;
      }
    }
    assert rows[..|rows|] == rows;
    r := Success(SeedReport(success, fail, calls));
  }

  /** NUP stays text: leading zeros survive, surrounding blanks do not. */
  lemma NupKeepsLeadingZeros(d: Timestamp)
    ensures CallFor(SeedRow(Some(" 0042 "), Some(d))).nup == "0042"
  {
    StripPadded("0042");
    assert " " + "0042" + " " == " 0042 ";
  }
}
