/** Appending to the ledger keeps its history clean and numbers rows upwards. */
module LedgerAppend {
  import opened Prelude
  import opened Strings
  import opened Ledger

  /** What one run of the append script writes besides the number. */
  datatype Request = Request(date: string, phase: string, fr: string, commit: string, evidence: string, sha: string)

  function CellsOf(n: nat, r: Request): seq<string> {
    [" " + Decimal(n) + " ", " " + r.date + " ", " " + r.phase + " ", " " + r.fr + " ", " " + r.commit + " ",
     " " + r.evidence + " ", " " + r.sha + " "]
  }

  /** The row, without its newline: a bar, the cells between bars, a bar. */
  function RowOf(n: nat, r: Request): string {
    "|" + Join(CellsOf(n, r), '|') + "|"
  }

  /** The number int() reads from the second field of a split row, if it is a decimal. */
  function NumberOf(row: string): Option<nat> {
    var parts := Split(row, '|');
    if |parts| < 2 then None else ParseDecimal(Strip(parts[1]))
  }

  /** The largest number among the rows, or 0. */
  function MaxNumber(rows: seq<string>): nat {
    if rows == [] then 0
    else
      var m, n := MaxNumber(rows[..|rows| - 1]), NumberOf(rows[|rows| - 1]);
      if n.Some? && n.value > m then n.value else m
  }

  method NextIter(text: string) returns (n: nat)
    ensures n == MaxNumber(Rows(text)) + 1
    ensures forall i :: 0 <= i < |Rows(text)| && NumberOf(Rows(text)[i]).Some? ==> NumberOf(Rows(text)[i]).value < n
    ensures n == 1 || exists i :: 0 <= i < |Rows(text)| && NumberOf(Rows(text)[i]) == Some(n - 1)
  {
    var rows := Rows(text);
    n := LargestNumber(rows);
    MaxIsUpper(rows);
    MaxIsThere(rows);
    n := n + 1;
  }

  /** The loop over the rows, with its running maximum. */
  method LargestNumber(rows: seq<string>) returns (n: nat)
    ensures n == MaxNumber(rows)
  {
    n := 0;
    for i := 0 to |rows|
      invariant n == MaxNumber(rows[..i])
    {
      MaxStep(rows, i);
      var parts := Split(rows[i], '|');
      if |parts| >= 2 {
        var v := ParseDecimal(Strip(parts[1]));
        if v.Some? && v.value > n {
          n := v.value;
        }
      }
    }
    assert rows[..|rows|] == rows;
  }

  lemma MaxStep(rows: seq<string>, i: nat)
    requires i < |rows|
    ensures MaxNumber(rows[..i + 1])
         == var m, v := MaxNumber(rows[..i]), NumberOf(rows[i]); if v.Some? && v.value > m then v.value else m
  {
    assert rows[..i + 1][..i] == rows[..i];
  }

  lemma {:induction false} MaxIsUpper(rows: seq<string>)
    ensures forall i :: 0 <= i < |rows| && NumberOf(rows[i]).Some? ==> NumberOf(rows[i]).value <= MaxNumber(rows)
    decreases |rows|
  {
    if rows != [] {
      var init := rows[..|rows| - 1];
      MaxIsUpper(init);
      assert forall i :: 0 <= i < |init| ==> init[i] == rows[i];
    }
  }

  lemma {:induction false} MaxIsThere(rows: seq<string>)
    ensures MaxNumber(rows) == 0 || exists i :: 0 <= i < |rows| && NumberOf(rows[i]) == Some(MaxNumber(rows))
    decreases |rows|
  {
    if rows != [] {
      var k := |rows| - 1;
      var init := rows[..k];
      MaxIsThere(init);
      if MaxNumber(rows) == MaxNumber(init) && MaxNumber(init) != 0 {
        var i :| 0 <= i < |init| && NumberOf(init[i]) == Some(MaxNumber(init));
        assert NumberOf(rows[i]) == Some(MaxNumber(rows));
      } else if MaxNumber(rows) != 0 {
        assert NumberOf(rows[k]) == Some(MaxNumber(rows));
      }
    }
  }

  /** An approved type, and fields without bars or line breaks. */
  predicate Proper(r: Request) {
    Approved(r.evidence) && forall f :: f in {r.date, r.phase, r.fr, r.commit, r.sha} ==> PlainField(f)
  }

  predicate PlainField(f: string) {
    forall c :: c in f ==> c != '|' && !IsBreak(c)
  }

  // ----- a proper row is accepted and carries its number -----

  lemma ApprovedIsPlain(t: string)
    requires Approved(t)
    ensures PlainField(t) && Strip(" " + t + " ") == t
  {
    ApprovedLetters(t);
    LettersArePlain(t);
    StripPads(t);
  }

  predicate Letters(t: string) {
    forall i :: 0 <= i < |t| ==> 'a' <= t[i] <= 'z' || t[i] == '_'
  }

  lemma LettersArePlain(t: string)
    requires t != "" && Letters(t)
    ensures PlainField(t) && !IsSpace(t[0]) && !IsSpace(t[|t| - 1])
  {
  }

  lemma ApprovedLetters(t: string)
    requires Approved(t)
    ensures t != "" && Letters(t)
  {
  }

  lemma StripPads(t: string)
    requires t != "" && !IsSpace(t[0]) && !IsSpace(t[|t| - 1])
    ensures Strip(" " + t + " ") == t
  {
    var s := " " + t + " ";
    assert s[1..] == t + " ";
    assert LStrip(s) == LStrip(t + " ") == t + " ";
    assert (t + " ")[..|t|] == t;
    assert RStrip(t + " ") == RStrip(t) == t;
  }

  lemma DecimalIsPlain(n: nat)
    ensures PlainField(Decimal(n)) && Strip(" " + Decimal(n) + " ") == Decimal(n)
  {
    var d := Decimal(n);
    assert IsDigit(d[0]) by { assert d[0] in d; }
    assert IsDigit(d[|d| - 1]) by { assert d[|d| - 1] in d; }
    StripPads(d);
  }

  predicate PlainRequest(r: Request) {
    && PlainField(r.date) && PlainField(r.phase) && PlainField(r.fr) && PlainField(r.commit) && PlainField(r.evidence)
    && PlainField(r.sha)
  }

  lemma ProperIsPlain(r: Request)
    requires Proper(r)
    ensures PlainRequest(r)
  {
    ApprovedIsPlain(r.evidence);
    assert PlainField(r.date) && PlainField(r.phase) && PlainField(r.fr) && PlainField(r.commit) && PlainField(r.sha);
  }

  lemma CellsAreBarFree(n: nat, r: Request)
    requires PlainRequest(r)
    ensures forall p :: p in CellsOf(n, r) ==> '|' !in p
  {
    DecimalIsPlain(n);
  }

  /** The joined cells start and end with a space, so only the outer bars are trimmed. */
  lemma JoinedEnds(n: nat, r: Request)
    ensures var j := Join(CellsOf(n, r), '|'); j != "" && j[0] == ' ' && j[|j| - 1] == ' '
  {
    var cells := CellsOf(n, r);
    JoinEnds(cells, '|');
  }

  lemma TrimOuter(j: string)
    requires j != "" && j[0] != '|' && j[|j| - 1] != '|'
    ensures TrimRight(TrimLeft("|" + j + "|")) == j
  {
  }

  lemma RowCells(n: nat, r: Request)
    requires PlainRequest(r)
    ensures Cells(RowOf(n, r)) == CellsOf(n, r)
  {
    JoinedEnds(n, r);
    TrimOuter(Join(CellsOf(n, r), '|'));
    CellsAreBarFree(n, r);
    SplitOfJoin(CellsOf(n, r), '|');
  }

  lemma RowIsAccepted(n: nat, r: Request)
    requires Proper(r)
    ensures Acceptable(RowOf(n, r))
  {
    ProperIsPlain(r);
    RowCells(n, r);
    ApprovedIsPlain(r.evidence);
  }

  /** Of the rows the script would write for any plain fields, the checker rejects exactly those of another type. */
  lemma RowIsRejectedIff(n: nat, r: Request)
    requires PlainRequest(r) && r.evidence != ""
    requires !IsSpace(r.evidence[0]) && !IsSpace(r.evidence[|r.evidence| - 1])
    ensures Rejected(RowOf(n, r)) <==>
              r.evidence !in APPROVED && r.evidence != "evidence-type" && !("---" <= r.evidence)
  {
    RowCells(n, r);
    StripPads(r.evidence);
  }

  /** The keys of the script's command table. */
  predicate HasCommand(t: string) {
    t in {"unit_tests", "prd_matrix", "loopguard", "scenario_mock", "final_gate_mock", "prd_acceptance", "ledger_check"}
  }

  /** The script takes exactly the types the checker approves. */
  lemma EnumsAgree(t: string)
    ensures HasCommand(t) <==> Approved(t)
  {
  }

  lemma SecondPart(a: string, tail: string)
    requires '|' !in a
    ensures |Split("|" + (a + ['|'] + tail), '|')| >= 2 && Split("|" + (a + ['|'] + tail), '|')[1] == a
  {
    SplitAt("", '|', a + ['|'] + tail);
    SplitAt(a, '|', tail);
    assert "" + ['|'] + (a + ['|'] + tail) == "|" + (a + ['|'] + tail);
  }

  lemma RowSplits(cells: seq<string>)
    requires |cells| >= 2
    ensures "|" + Join(cells, '|') + "|" == "|" + (cells[0] + ['|'] + (Join(cells[1..], '|') + "|"))
  {
  }

  lemma RowNumber(n: nat, r: Request)
    requires Proper(r)
    ensures NumberOf(RowOf(n, r)) == Some(n)
  {
    var cells := CellsOf(n, r);
    ProperIsPlain(r);
    CellsAreBarFree(n, r);
    RowSplits(cells);
    assert cells[0] in cells;
    SecondPart(cells[0], Join(cells[1..], '|') + "|");
    DecimalIsPlain(n);
    DecimalRoundTrip(n);
  }

  // ----- appending to the text -----

  function AppendRow(text: string, row: string): string {
    text + (row + "\n")
  }

  /** The text is empty or ends with a line break. */
  predicate Closed(text: string) {
    text != "" ==> IsBreak(text[|text| - 1])
  }

  lemma {:induction false} BreakAtPrefix(a: string, b: string)
    requires exists i :: 0 <= i < |a| && IsBreak(a[i])
    ensures BreakAt(a + b) == BreakAt(a) < |a|
    decreases |a|
  {
    assert (a + b)[0] == a[0];
    if !IsBreak(a[0]) {
      assert (a + b)[1..] == a[1..] + b;
      BreakAtPrefix(a[1..], b);
    }
  }

  lemma {:induction false} LinesStep(t: string)
    requires BreakAt(t) < |t|
    ensures Lines(t) == [t[..BreakAt(t)]] + Lines(t[BreakAt(t) + 1..])
  {
  }

  lemma Slices(a: string, b: string, i: nat)
    requires i < |a|
    ensures (a + b)[..i] == a[..i] && (a + b)[i + 1..] == a[i + 1..] + b
  {
  }

  lemma Cons(x: string, p: seq<string>, q: seq<string>)
    ensures [x] + (p + q) == ([x] + p) + q
  {
  }

  /** The first line of a closed text is the first line of whatever follows it too. */
  lemma LinesHead(a: string, b: string)
    requires Closed(a) && a != ""
    ensures var i := BreakAt(a);
            && i < |a| && Closed(a[i + 1..])
            && Lines(a) == [a[..i]] + Lines(a[i + 1..]) && Lines(a + b) == [a[..i]] + Lines(a[i + 1..] + b)
  {
    BreakAtPrefix(a, b);
    Slices(a, b, BreakAt(a));
    LinesStep(a + b);
    LinesStep(a);
  }

  lemma {:induction false} LinesOfClosed(a: string, b: string)
    requires Closed(a)
    ensures Lines(a + b) == Lines(a) + Lines(b)
    decreases |a|
  {
    if a == "" {
      assert a + b == b && Lines(a) == [];
    } else {
      var i := BreakAt(a);
      LinesHead(a, b);
      LinesOfClosed(a[i + 1..], b);
      Cons(a[..i], Lines(a[i + 1..]), Lines(b));
    }
  }

  lemma {:induction false} OnlyRowsConcat(a: seq<string>, b: seq<string>)
    ensures OnlyRows(a + b) == OnlyRows(a) + OnlyRows(b)
    decreases |a|
  {
    if a == [] {
      assert a + b == b;
    } else {
      assert (a + b)[1..] == a[1..] + b;
      OnlyRowsConcat(a[1..], b);
    }
  }

  lemma {:induction false} NoBreak(row: string, b: string)
    requires forall i :: 0 <= i < |row| ==> !IsBreak(row[i])
    ensures BreakAt(row) == |row|
    ensures b != "" && IsBreak(b[0]) ==> BreakAt(row + b) == |row|
    decreases |row|
  {
    if row == "" {
      assert row + b == b;
    } else {
      assert (row + b)[0] == row[0] && (row + b)[1..] == row[1..] + b;
      NoBreak(row[1..], b);
    }
  }

  /** A row to append: it starts like one and has no line break inside. */
  predicate PlainLine(row: string) {
    IsRow(row) && forall i :: 0 <= i < |row| ==> !IsBreak(row[i])
  }

  lemma ClosedAppend(text: string, row: string)
    requires PlainLine(row) && Closed(text)
    ensures Rows(AppendRow(text, row)) == Rows(text) + [row] && Closed(AppendRow(text, row))
  {
    LinesOfClosed(text, row + "\n");
    EndedLine(row);
    OnlyRowsConcat(Lines(text), [row]);
    assert OnlyRows([row]) == [row];
    assert AppendRow(text, row)[|AppendRow(text, row)| - 1] == '\n';
  }

  /** An open text splits into a closed part and a last line without its break. */
  lemma {:induction false} LastLine(text: string) returns (head: string, last: string)
    requires !Closed(text)
    ensures text == head + last && Closed(head) && last != "" && forall i :: 0 <= i < |last| ==> !IsBreak(last[i])
    decreases |text|
  {
    var init, c := text[..|text| - 1], text[|text| - 1];
    if Closed(init) {
      head, last := init, [c];
    } else {
      var h, l := LastLine(init);
      head, last := h, l + [c];
    }
    assert text == init + [c];
  }

  lemma OpenAppend(text: string, row: string)
    requires PlainLine(row) && !Closed(text)
    ensures Rows(AppendRow(text, row)) != Rows(text) + [row]
  {
    var head, last := LastLine(text);
    RowsOfOpen(head, last);
    JoinedLine(head, last, row);
    NotTheSame(Rows(head), last, row);
  }

  lemma NotTheSame(rows: seq<string>, last: string, row: string)
    requires last != ""
    ensures rows + (if IsRow(last + row) then [last + row] else [])
         != (rows + (if IsRow(last) then [last] else [])) + [row]
  {
    assert |last + row| != |row|;
    if !IsRow(last) && IsRow(last + row) {
      assert (rows + [last + row])[|rows|] != (rows + [row])[|rows|];
    }
  }

  ghost predicate Unbroken(s: string) {
    forall i :: 0 <= i < |s| ==> !IsBreak(s[i])
  }

  lemma RowsOfOpen(head: string, last: string)
    requires Closed(head) && last != "" && Unbroken(last)
    ensures Rows(head + last) == Rows(head) + (if IsRow(last) then [last] else [])
  {
    LinesOfClosed(head, last);
    NoBreak(last, "");
    OnlyRowsConcat(Lines(head), [last]);
  }

  /** The appended row is glued to the open last line. */
  lemma JoinedLine(head: string, last: string, row: string)
    requires Closed(head) && Unbroken(last) && PlainLine(row)
    ensures Rows(AppendRow(head + last, row)) == Rows(head) + (if IsRow(last + row) then [last + row] else [])
  {
    var line := last + row;
    assert Unbroken(line);
    EndedLine(line);
    assert AppendRow(head + last, row) == head + (line + "\n");
    LinesOfClosed(head, line + "\n");
    OnlyRowsConcat(Lines(head), [line]);
  }

  lemma EndedLine(line: string)
    requires Unbroken(line)
    ensures Lines(line + "\n") == [line]
  {
    NoBreak(line, "\n");
    assert (line + "\n")[..|line|] == line && (line + "\n")[|line| + 1..] == "";
  }

  /** Appending adds exactly one row at the end if and only if the text is empty or ends with a line break. */
  lemma AppendAddsRowIffClosed(text: string, row: string)
    requires PlainLine(row)
    ensures Rows(AppendRow(text, row)) == Rows(text) + [row] <==> Closed(text)
  {
    if Closed(text) {
      ClosedAppend(text, row);
    } else {
      OpenAppend(text, row);
    }
  }

  // ----- a ledger grown by the script -----

  function Grow(text: string, r: Request): string {
    AppendRow(text, RowOf(MaxNumber(Rows(text)) + 1, r))
  }

  /** The versions after each append, each committed. */
  function Versions(text: string, rs: seq<Request>): seq<Option<string>>
    decreases |rs|
  {
    if rs == [] then [] else [Some(Grow(text, rs[0]))] + Versions(Grow(text, rs[0]), rs[1..])
  }

  lemma RowIsPlainLine(n: nat, r: Request)
    requires Proper(r)
    ensures PlainLine(RowOf(n, r))
  {
    var cells := CellsOf(n, r);
    JoinedEnds(n, r);
    ApprovedIsPlain(r.evidence);
    DecimalIsPlain(n);
    assert PlainField(r.date) && PlainField(r.phase) && PlainField(r.fr) && PlainField(r.commit) && PlainField(r.sha);
    assert forall p :: p in cells ==> forall c :: c in p ==> !IsBreak(c);
    JoinHasNoBreak(cells);
    var row, j := RowOf(n, r), Join(cells, '|');
    assert row[0] == '|' && row[1] == j[0] == ' ';
    assert forall i :: 0 <= i < |row| ==> row[i] == '|' || row[i] in j;
  }

  lemma {:induction false} JoinHasNoBreak(parts: seq<string>)
    requires parts != [] && forall p :: p in parts ==> forall c :: c in p ==> !IsBreak(c)
    ensures forall c :: c in Join(parts, '|') ==> !IsBreak(c)
    decreases |parts|
  {
    assert parts[0] in parts;
    if |parts| > 1 {
      assert forall p :: p in parts[1..] ==> p in parts;
      JoinHasNoBreak(parts[1..]);
    }
  }

  lemma GrowAdds(text: string, r: Request)
    requires Closed(text) && Proper(r)
    ensures Closed(Grow(text, r)) && Rows(Grow(text, r)) == Rows(text) + [RowOf(MaxNumber(Rows(text)) + 1, r)]
  {
    RowAppends(text, MaxNumber(Rows(text)) + 1, r);
  }

  lemma RowAppends(text: string, n: nat, r: Request)
    requires Closed(text) && Proper(r)
    ensures var t := AppendRow(text, RowOf(n, r)); Closed(t) && Rows(t) == Rows(text) + [RowOf(n, r)]
  {
    RowIsPlainLine(n, r);
    ClosedAppend(text, RowOf(n, r));
  }

  lemma GrowIsGood(text: string, r: Request)
    requires Closed(text) && Proper(r)
    ensures var t := Grow(text, r);
            Closed(t) && Rows(text) <= Rows(t) && forall i :: |Rows(text)| <= i < |Rows(t)| ==> Acceptable(Rows(t)[i])
  {
    GrowAdds(text, r);
    RowIsAccepted(MaxNumber(Rows(text)) + 1, r);
    OneMoreRow(Rows(text), RowOf(MaxNumber(Rows(text)) + 1, r));
  }

  lemma OneMoreRow(rows: seq<string>, row: string)
    requires Acceptable(row)
    ensures rows <= rows + [row] && forall i :: |rows| <= i < |rows + [row]| ==> Acceptable((rows + [row])[i])
  {
  }

  /**
   Any number of appends with approved types and plain fields, to a text that is empty or ends
   with a line break, gives a history the checker accepts.
   */
  lemma {:induction false} GrownHistoryIsClean(text: string, rs: seq<Request>)
    requires Closed(text) && forall r :: r in rs ==> Proper(r)
    ensures Clean(ReadableRows(Versions(text, rs)), Rows(text))
    decreases |rs|
  {
    if rs != [] {
      assert rs[0] in rs && forall r :: r in rs[1..] ==> r in rs;
      var t := Grow(text, rs[0]);
      GrowIsGood(text, rs[0]);
      GrownHistoryIsClean(t, rs[1..]);
      CleanGrows(t, Versions(t, rs[1..]), Rows(text));
    }
  }

  lemma CleanGrows(t: string, later: seq<Option<string>>, prev: seq<string>)
    requires prev <= Rows(t) && (forall i :: |prev| <= i < |Rows(t)| ==> Acceptable(Rows(t)[i]))
    requires Clean(ReadableRows(later), Rows(t))
    ensures Clean(ReadableRows([Some(t)] + later), prev)
  {
  }

  /** The appended row is numbered above every row before it. */
  lemma NumbersGrow(text: string, r: Request, i: nat)
    requires Closed(text) && Proper(r) && i < |Rows(text)| && NumberOf(Rows(text)[i]).Some?
    ensures var rows := Rows(Grow(text, r));
            && |rows| == |Rows(text)| + 1 && rows[i] == Rows(text)[i]
            && NumberOf(rows[|rows| - 1]).Some? && NumberOf(rows[i]).value < NumberOf(rows[|rows| - 1]).value
  {
    GrowAdds(text, r);
    RowNumber(MaxNumber(Rows(text)) + 1, r);
    MaxIsUpper(Rows(text));
  }
}
