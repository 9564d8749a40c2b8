/** The append-only ledger and the checker of its history. */
module Ledger {
  import opened Prelude
  import opened Strings

  // ----- rows of a text -----

  /** Line boundaries of str.splitlines(); taking "\r\n" as two only adds an empty line, which is no row. */
  predicate IsBreak(c: char) {
    c == '\n' || c == '\r' || c == '\U{0b}' || c == '\U{0c}' || ('\U{1c}' <= c <= '\U{1e}') || c == '\U{85}'
    || c == '\U{2028}' || c == '\U{2029}'
  }

  function BreakAt(t: string): (n: nat)
    ensures n <= |t|
  {
    if t == "" || IsBreak(t[0]) then 0 else 1 + BreakAt(t[1..])
  }

  function Lines(t: string): seq<string>
    decreases |t|
  {
    var i := BreakAt(t);
    if t == "" then [] else if i == |t| then [t] else [t[..i]] + Lines(t[i + 1..])
  }

  predicate IsRow(line: string) {
    "| " <= line
  }

  function OnlyRows(lines: seq<string>): seq<string> {
    if lines == [] then [] else (if IsRow(lines[0]) then [lines[0]] else []) + OnlyRows(lines[1..])
  }

  function Rows(t: string): seq<string> {
    OnlyRows(Lines(t))
  }

  // ----- acceptable rows -----

  function TrimLeft(s: string): string {
    if s != "" && s[0] == '|' then TrimLeft(s[1..]) else s
  }

  function TrimRight(s: string): string {
    if s != "" && s[|s| - 1] == '|' then TrimRight(s[..|s| - 1]) else s
  }

  predicate Approved(t: string) {
    t == "unit_tests" || t == "prd_matrix" || t == "loopguard" || t == "scenario_mock" || t == "final_gate_mock"
    || t == "prd_acceptance" || t == "ledger_check"
  }

  function Cells(row: string): seq<string> {
    Split(TrimRight(TrimLeft(row)), '|')
  }

  predicate Acceptable(row: string) {
    |Cells(row)| < 7 ||
    var t := Strip(Cells(row)[5]);
    "---" <= t || t == "evidence-type" || Approved(t)
  }

  // ----- the checker -----

  datatype Violation = Shrunk(commit: nat) | Edited(commit: nat, row: nat) | BadType(commit: nat, text: string)

  function EditedRows(commit: nat, prev: seq<string>, rows: seq<string>, i: nat): seq<Violation>
    decreases |prev| - i
  {
    if i >= |prev| || i >= |rows| then []
    else (if prev[i] != rows[i] then [Edited(commit, i)] else []) + EditedRows(commit, prev, rows, i + 1)
  }

  function BadRows(commit: nat, rows: seq<string>, i: nat): seq<Violation>
    decreases |rows| - i
  {
    if i >= |rows| then []
    else BadRow(commit, rows[i]) + BadRows(commit, rows, i + 1)
  }

  function BadRow(commit: nat, row: string): seq<Violation> {
    if Acceptable(row) then [] else [BadType(commit, row)]
  }

  function Report(commit: nat, prev: seq<string>, rows: seq<string>): seq<Violation> {
    (if |rows| < |prev| then [Shrunk(commit)] else []) + EditedRows(commit, prev, rows, 0) + BadRows(commit, rows, |prev|)
  }

  /** All violations from commit n on; a commit whose ledger cannot be shown is skipped. */
  function Reports(history: seq<Option<string>>, n: nat, prev: seq<string>): seq<Violation>
    requires n <= |history|
    decreases |history| - n
  {
    if n == |history| then []
    else match history[n]
         case None => Reports(history, n + 1, prev)
         case Some(text) => Report(n, prev, Rows(text)) + Reports(history, n + 1, Rows(text))
  }

  method Check(history: seq<Option<string>>) returns (violations: seq<Violation>)
    ensures violations == Reports(history, 0, [])
    ensures forall v :: v in violations <==> exists n: nat :: ViolatesAt(history, n, v)
    ensures violations == [] <==> Clean(ReadableRows(history), [])
  {
    violations := [];
    var prev: seq<string> := [];
    for n := 0 to |history|
      invariant violations + Reports(history, n, prev) == Reports(history, 0, [])
    {
      if history[n].Some? {
        var rows := Rows(history[n].value);
        var found := CheckVersion(n, prev, rows);
        violations := violations + found;
        prev := rows;
      }
    }
    ReportsFromStart(history);
  }

  lemma ReportsFromStart(history: seq<Option<string>>)
    ensures forall v :: v in Reports(history, 0, []) <==> exists n: nat :: ViolatesAt(history, n, v)
    ensures Reports(history, 0, []) == [] <==> Clean(ReadableRows(history), [])
  {
    forall v ensures v in Reports(history, 0, []) <==> exists n: nat :: ViolatesAt(history, n, v) {
      ReportsAre(history, 0, v);
      assert SomeFrom(history, 0, v) <==> exists n: nat :: ViolatesAt(history, n, v);
    }
    ReportsEmptyIffClean(history, 0, []);
    assert history[0..] == history;
  }

  const APPROVED: set<string> := {"unit_tests", "prd_matrix", "loopguard", "scenario_mock", "final_gate_mock",
                                  "prd_acceptance", "ledger_check"}

  /** Seven cells or more, the sixth of which is no approved type, no rule and not the header. */
  ghost predicate Rejected(row: string) {
    && |Cells(row)| >= 7
    && var t := Strip(Cells(row)[5]);
       t !in APPROVED && t != "evidence-type" && !("---" <= t)
  }

  lemma RejectedIff(row: string)
    ensures Rejected(row) <==> !Acceptable(row)
  {
  }

  lemma {:induction false} EditsFound(commit: nat, prev: seq<string>, rows: seq<string>, i: nat, v: Violation)
    ensures v in EditedRows(commit, prev, rows, i)
       <==> v.Edited? && v.commit == commit && i <= v.row < |prev| && v.row < |rows| && prev[v.row] != rows[v.row]
    decreases |prev| - i
  {
    if i < |prev| && i < |rows| {
      EditsFound(commit, prev, rows, i + 1, v);
    }
  }

  /** The text is among the rows from i on. */
  ghost predicate RowFrom(rows: seq<string>, i: nat, text: string) {
    exists k :: i <= k < |rows| && rows[k] == text
  }

  lemma RowNext(rows: seq<string>, i: nat, text: string)
    requires i < |rows|
    ensures RowFrom(rows, i, text) <==> rows[i] == text || RowFrom(rows, i + 1, text)
  {
  }

  lemma BadRowIs(commit: nat, row: string, v: Violation)
    ensures v in BadRow(commit, row) <==> v == BadType(commit, row) && Rejected(row)
  {
    RejectedIff(row);
  }

  lemma {:induction false} BadRowsFound(commit: nat, rows: seq<string>, i: nat, v: Violation)
    ensures v in BadRows(commit, rows, i)
       <==> v.BadType? && v.commit == commit && RowFrom(rows, i, v.text) && Rejected(v.text)
    decreases |rows| - i
  {
    if i < |rows| {
      BadRowsFound(commit, rows, i + 1, v);
      BadRowIs(commit, rows[i], v);
      if v.BadType? {
        RowNext(rows, i, v.text);
      }
    }
  }

  /** Exactly the violations of one version against the one before it. */
  ghost predicate Violates(commit: nat, prev: seq<string>, rows: seq<string>, v: Violation) {
    match v
    case Shrunk(c) => c == commit && |rows| < |prev|
    case Edited(c, i) => c == commit && i < |prev| && i < |rows| && prev[i] != rows[i]
    case BadType(c, row) => c == commit && RowFrom(rows, |prev|, row) && Rejected(row)
  }

  lemma ReportIs(commit: nat, prev: seq<string>, rows: seq<string>, v: Violation)
    ensures v in Report(commit, prev, rows) <==> Violates(commit, prev, rows, v)
  {
    EditsFound(commit, prev, rows, 0, v);
    BadRowsFound(commit, rows, |prev|, v);
  }

  /** The rows of the last readable version before commit n. */
  ghost function RowsBefore(history: seq<Option<string>>, n: nat): seq<string>
    requires n <= |history|
  {
    if n == 0 then [] else if history[n - 1].Some? then Rows(history[n - 1].value) else RowsBefore(history, n - 1)
  }

  ghost predicate ViolatesAt(history: seq<Option<string>>, n: nat, v: Violation) {
    n < |history| && history[n].Some? && Violates(n, RowsBefore(history, n), Rows(history[n].value), v)
  }

  ghost predicate SomeFrom(history: seq<Option<string>>, n: nat, v: Violation) {
    exists m: nat :: n <= m && ViolatesAt(history, m, v)
  }

  lemma SomeNext(history: seq<Option<string>>, n: nat, v: Violation)
    ensures SomeFrom(history, n, v) <==> ViolatesAt(history, n, v) || SomeFrom(history, n + 1, v)
    ensures n >= |history| ==> !SomeFrom(history, n, v)
  {
  }

  lemma {:induction false} ReportsAre(history: seq<Option<string>>, n: nat, v: Violation)
    requires n <= |history|
    ensures v in Reports(history, n, RowsBefore(history, n)) <==> SomeFrom(history, n, v)
    decreases |history| - n
  {
    SomeNext(history, n, v);
    if n < |history| {
      ReportsAre(history, n + 1, v);
      NextReport(history, n, v);
    }
  }

  lemma NextReport(history: seq<Option<string>>, n: nat, v: Violation)
    requires n < |history|
    ensures v in Reports(history, n, RowsBefore(history, n))
       <==> ViolatesAt(history, n, v) || v in Reports(history, n + 1, RowsBefore(history, n + 1))
  {
    if history[n].Some? {
      ReportIs(n, RowsBefore(history, n), Rows(history[n].value), v);
    }
  }

  method CheckVersion(commit: nat, prev: seq<string>, rows: seq<string>) returns (found: seq<Violation>)
    ensures found == Report(commit, prev, rows)
    ensures forall v :: v in found <==> Violates(commit, prev, rows, v)
  {
    forall v ensures v in Report(commit, prev, rows) <==> Violates(commit, prev, rows, v) {
      ReportIs(commit, prev, rows, v);
    }
    found := [];
    if prev != [] {
      if |rows| < |prev| {
        found := [Shrunk(commit)];
      }
      var edits := FindEdits(commit, prev, rows);
      found := found + edits;
    }
    var bad := FindBad(commit, rows, |prev|);
    found := found + bad;
  }

  method FindEdits(commit: nat, prev: seq<string>, rows: seq<string>) returns (found: seq<Violation>)
    ensures found == EditedRows(commit, prev, rows, 0)
  {
    found := [];
    var i := 0;
    while i < |prev| && i < |rows|
      invariant 0 <= i <= |prev| && i <= |rows|
      invariant found + EditedRows(commit, prev, rows, i) == EditedRows(commit, prev, rows, 0)
    {
      if prev[i] != rows[i] {
        found := found + [Edited(commit, i)];
      }
      i := i + 1;
    }
  }

  method FindBad(commit: nat, rows: seq<string>, from: nat) returns (found: seq<Violation>)
    ensures found == BadRows(commit, rows, from)
  {
    found := [];
    var k := from;
    while k < |rows|
      invariant from <= k && found + BadRows(commit, rows, k) == BadRows(commit, rows, from)
    {
      var bad := BadRow(commit, rows[k]);
      NextBadRow(found, bad, commit, rows, k);
      found := found + bad;
      k := k + 1;
    }
  }

  lemma NextBadRow(found: seq<Violation>, bad: seq<Violation>, commit: nat, rows: seq<string>, k: nat)
    requires k < |rows| && bad == BadRow(commit, rows[k])
    ensures (found + bad) + BadRows(commit, rows, k + 1) == found + BadRows(commit, rows, k)
  {
    Regroup(found, bad, BadRows(commit, rows, k + 1));
  }

  // ----- the whole-history specification -----

  function ReadableRows(history: seq<Option<string>>): seq<seq<string>> {
    if history == [] then []
    else (if history[0].Some? then [Rows(history[0].value)] else []) + ReadableRows(history[1..])
  }

  /** Each version's rows are a prefix of the next, and every row it adds is acceptable. */
  ghost predicate Clean(versions: seq<seq<string>>, prev: seq<string>)
    decreases |versions|
  {
    versions == [] ||
    (prev <= versions[0] && (forall i :: |prev| <= i < |versions[0]| ==> Acceptable(versions[0][i]))
     && Clean(versions[1..], versions[0]))
  }

  lemma {:induction false} NoEditsIff(commit: nat, prev: seq<string>, rows: seq<string>, i: nat)
    ensures EditedRows(commit, prev, rows, i) == [] <==> forall k :: i <= k < |prev| && k < |rows| ==> prev[k] == rows[k]
    decreases |prev| - i
  {
    if i < |prev| && i < |rows| {
      NoEditsIff(commit, prev, rows, i + 1);
    }
  }

  lemma {:induction false} NoBadRowsIff(commit: nat, rows: seq<string>, i: nat)
    ensures BadRows(commit, rows, i) == [] <==> forall k :: i <= k < |rows| ==> Acceptable(rows[k])
    decreases |rows| - i
  {
    if i < |rows| {
      NoBadRowsIff(commit, rows, i + 1);
      BadRowIff(commit, rows[i]);
    }
  }

  lemma BadRowIff(commit: nat, row: string)
    ensures BadRow(commit, row) == [] <==> Acceptable(row)
  {
  }

  lemma ReportEmptyIff(commit: nat, prev: seq<string>, rows: seq<string>)
    ensures Report(commit, prev, rows) == [] <==>
              prev <= rows && forall k :: |prev| <= k < |rows| ==> Acceptable(rows[k])
  {
    NoEditsIff(commit, prev, rows, 0);
    NoBadRowsIff(commit, rows, |prev|);
  }

  lemma {:induction false} ReportsEmptyIffClean(history: seq<Option<string>>, n: nat, prev: seq<string>)
    requires n <= |history|
    ensures Reports(history, n, prev) == [] <==> Clean(ReadableRows(history[n..]), prev)
    decreases |history| - n
  {
    if n < |history| {
      assert history[n..][0] == history[n] && history[n..][1..] == history[n + 1..];
      if history[n].Some? {
        var rows := Rows(history[n].value);
        ReportEmptyIff(n, prev, rows);
        ReportsEmptyIffClean(history, n + 1, rows);
        var later := ReadableRows(history[n + 1..]);
        assert ReadableRows(history[n..]) == [rows] + later;
        assert ([rows] + later)[1..] == later;
      } else {
        ReportsEmptyIffClean(history, n + 1, prev);
        assert ReadableRows(history[n..]) == ReadableRows(history[n + 1..]);
      }
    }
  }

  /** Checking only the added rows covers every row of every version, and no version forgets an earlier one. */
  lemma {:induction false} CleanCoversAll(versions: seq<seq<string>>, prev: seq<string>, i: nat)
    requires Clean(versions, prev) && i < |versions| && forall k :: 0 <= k < |prev| ==> Acceptable(prev[k])
    ensures prev <= versions[i]
    ensures forall k :: 0 <= k < |versions[i]| ==> Acceptable(versions[i][k])
    decreases |versions|
  {
    assert forall k :: 0 <= k < |versions[0]| ==> Acceptable(versions[0][k]);
    if i > 0 {
      CleanCoversAll(versions[1..], versions[0], i - 1);
    }
  }
}
