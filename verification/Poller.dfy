/**
 The polling fallback of the Feishu adapter: it rebuilds an append-only chat log from
 overlapping pages of the newest 20 messages, newest first, deduplicating by message id.
 */
module Poller {
  import opened Prelude

  const PAGE_SIZE := 20

  /** id is "" when the message carries none. */
  datatype Msg = Msg(id: string, body: Json)
  datatype Poll = Poll(seen: set<string>, bootstrap: bool, queue: seq<Msg>)

  function Init(): Poll {
    Poll({}, true, [])
  }

  // ----- one poll -----

  /** The items whose id is present, not in seen, and not repeated, in page order. */
  function Fresh(items: seq<Msg>, seen: set<string>): seq<Msg> {
    if items == [] then []
    else if items[0].id == "" || items[0].id in seen then Fresh(items[1..], seen)
    else [items[0]] + Fresh(items[1..], seen + {items[0].id})
  }

  function Ids(items: seq<Msg>): set<string> {
    set m | m in items && m.id != "" :: m.id
  }

  function Reversed(s: seq<Msg>): (r: seq<Msg>)
    ensures |r| == |s| && forall i :: 0 <= i < |s| ==> r[i] == s[|s| - 1 - i]
  {
    if s == [] then [] else Reversed(s[1..]) + [s[0]]
  }

  /** A successful poll; a response without items changes nothing. */
  function Step(p: Poll, items: seq<Msg>): Poll {
    if items == [] then p
    else Poll(p.seen + Ids(items), false, p.queue + Reversed(Gathers(p.bootstrap, items, p.seen)))
  }

  class ChatPoller {
    var seen: set<string>
    var bootstrap: bool
    var queue: seq<Msg>

    ghost function View(): Poll
      reads this
    {
      Poll(seen, bootstrap, queue)
    }

    constructor ()
      ensures View() == Init()
    {
      seen, bootstrap, queue := {}, true, [];
    }

    method OnPage(items: seq<Msg>)
      modifies this
      ensures View() == Step(old(View()), items)
    {
      if items == [] {
        return;
      }
      var known, batch := Collect(items, seen, bootstrap);
      seen := known;
      var i := |batch|;
      while i > 0
        invariant 0 <= i <= |batch|
        invariant bootstrap == old(bootstrap) && seen == known
        invariant queue == old(queue) + Reversed(batch)[..|batch| - i]
      {
        i := i - 1;
        queue := queue + [batch[i]];
      }
      assert queue == old(queue) + Reversed(batch);
      bootstrap := false;
    }
  }

  /** Marks every id on the page as seen and gathers what is new, unless this is the first page. */
  method Collect(items: seq<Msg>, seen: set<string>, bootstrap: bool) returns (known: set<string>, batch: seq<Msg>)
    ensures known == seen + Ids(items)
    ensures batch == Gathers(bootstrap, items, seen)
  {
    known, batch := seen, [];
    for i := 0 to |items|
      invariant known == seen + Ids(items[..i])
      invariant batch + Gathers(bootstrap, items[i..], known) == Gathers(bootstrap, items, seen)
    {
      var m := items[i];
      IdsGrow(items, i);
      GatherStep(bootstrap, items, i, known, batch);
      if m.id != "" && m.id !in known {
        known := known + {m.id};
        if !bootstrap {
          batch := batch + [m];
        }
      }
    }
    assert items[..|items|] == items && items[|items|..] == [];
  }

  function Gathers(bootstrap: bool, items: seq<Msg>, seen: set<string>): seq<Msg> {
    if bootstrap then [] else Fresh(items, seen)
  }

  /** Item i has an id that was not seen before and is not on the page before it. */
  ghost predicate IsNew(items: seq<Msg>, seen: set<string>, i: nat)
    requires i < |items|
  {
    items[i].id != "" && items[i].id !in seen && forall j :: 0 <= j < i ==> items[j].id != items[i].id
  }

  /** Reference: the new items from index i on, in page order. */
  ghost function NewFrom(items: seq<Msg>, seen: set<string>, i: nat): seq<Msg>
    requires i <= |items|
    decreases |items| - i
  {
    if i == |items| then [] else (if IsNew(items, seen, i) then [items[i]] else []) + NewFrom(items, seen, i + 1)
  }

  /** What a page adds is exactly its new items: no message without an id, none seen before, none twice. */
  lemma FreshIsNew(items: seq<Msg>, seen: set<string>)
    ensures Fresh(items, seen) == NewFrom(items, seen, 0)
  {
    FreshFrom(items, seen, 0);
    assert items[0..] == items && seen + Ids(items[..0]) == seen;
  }

  lemma {:induction false} FreshFrom(items: seq<Msg>, seen: set<string>, i: nat)
    requires i <= |items|
    ensures Fresh(items[i..], seen + Ids(items[..i])) == NewFrom(items, seen, i)
    decreases |items| - i
  {
    if i < |items| {
      var known, m := seen + Ids(items[..i]), items[i];
      FreshFrom(items, seen, i + 1);
      IdsGrow(items, i);
      assert items[i..][0] == m && items[i..][1..] == items[i + 1..];
      assert IsNew(items, seen, i) <==> m.id != "" && m.id !in known by {
        if m.id != "" && m.id in Ids(items[..i]) {
          var x :| x in items[..i] && x.id == m.id;
          var j :| 0 <= j < i && items[j] == x;
        }
        assert forall j :: 0 <= j < i ==> items[j] in items[..i];
      }
      var next := seen + Ids(items[..i + 1]);
      if IsNew(items, seen, i) {
        assert next == known + {m.id};
        assert Fresh(items[i..], known) == [m] + Fresh(items[i + 1..], next);
      } else {
        assert next == known;
        assert Fresh(items[i..], known) == Fresh(items[i + 1..], next);
      }
    }
  }

  lemma GatherStep(bootstrap: bool, items: seq<Msg>, i: nat, seen: set<string>, batch: seq<Msg>)
    requires i < |items|
    ensures var m := items[i];
            var isNew := m.id != "" && m.id !in seen;
            (batch + if isNew && !bootstrap then [m] else [])
            + Gathers(bootstrap, items[i + 1..], if isNew then seen + {m.id} else seen)
            == batch + Gathers(bootstrap, items[i..], seen)
  {
  }

  lemma IdsGrow(items: seq<Msg>, i: nat)
    requires i < |items|
    ensures Ids(items[..i + 1]) == Ids(items[..i]) + (if items[i].id == "" then {} else {items[i].id})
  {
  }

  // ----- pages of a growing log -----

  ghost predicate IsLog(log: seq<Msg>) {
    (forall i {:trigger log[i].id} :: 0 <= i < |log| ==> log[i].id != "") &&
    (forall i, j {:trigger log[i].id, log[j].id} :: 0 <= i < j < |log| ==> log[i].id != log[j].id)
  }

  /** First index on the page when the log has n messages. */
  ghost function PageStart(n: nat): nat {
    if n <= PAGE_SIZE then 0 else n - PAGE_SIZE
  }

  ghost function Page(log: seq<Msg>, n: nat): seq<Msg>
    requires n <= |log|
  {
    Reversed(log[PageStart(n)..n])
  }

  /** ns are the log lengths at the successful polls, in order. */
  ghost predicate Grows(from: nat, ns: seq<nat>, log: seq<Msg>)
    decreases |ns|
  {
    from <= |log| && (ns != [] ==> from <= ns[0] && Grows(ns[0], ns[1..], log))
  }

  ghost function RunPolls(p: Poll, log: seq<Msg>, from: nat, ns: seq<nat>): Poll
    requires Grows(from, ns, log)
    decreases |ns|
  {
    if ns == [] then p
    else
      assert Grows(ns[0], ns[1..], log);
      RunPolls(Step(p, Page(log, ns[0])), log, ns[0], ns[1..])
  }

  ghost function Max(a: nat, b: nat): nat {
    if a < b then b else a
  }

  /** What the polls at ns deliver, given that everything on the page at from is already known. */
  ghost function Delivered(log: seq<Msg>, from: nat, ns: seq<nat>): seq<Msg>
    requires Grows(from, ns, log)
    decreases |ns|
  {
    if ns == [] then []
    else
      assert Grows(ns[0], ns[1..], log);
      log[Max(from, PageStart(ns[0]))..ns[0]] + Delivered(log, ns[0], ns[1..])
  }

  /** Only messages before n were seen, and those on the page at n all were. */
  ghost predicate Knows(seen: set<string>, log: seq<Msg>, n: nat)
    requires n <= |log|
  {
    forall i {:trigger log[i].id} :: 0 <= i < |log| ==>
      (log[i].id in seen ==> i < n) && (PageStart(n) <= i < n ==> log[i].id in seen)
  }

  /** If the first k items are new and distinct and the rest are seen, the first k are fresh. */
  lemma {:induction false} FreshPrefix(items: seq<Msg>, seen: set<string>, k: nat)
    requires k <= |items|
    requires forall i :: 0 <= i < |items| ==> items[i].id != "" && (items[i].id in seen <==> k <= i)
    requires forall i, j :: 0 <= i < j < |items| ==> items[i].id != items[j].id
    ensures Fresh(items, seen) == items[..k]
    decreases |items|
  {
    if items != [] {
      var rest := items[1..];
      if k == 0 {
        FreshPrefix(rest, seen, 0);
      } else {
        FreshPrefix(rest, seen + {items[0].id}, k - 1);
        assert items[..k] == [items[0]] + rest[..k - 1];
      }
    }
  }

  lemma PageIds(log: seq<Msg>, n: nat, i: nat)
    requires IsLog(log) && n <= |log| && i < |log|
    ensures log[i].id in Ids(Page(log, n)) <==> PageStart(n) <= i < n
  {
    var page, lo := Page(log, n), PageStart(n);
    if lo <= i < n {
      assert page[n - 1 - i] == log[i];
    } else {
      forall j | 0 <= j < |page| ensures page[j].id != log[i].id {
        assert page[j] == log[n - 1 - j];
      }
    }
  }

  lemma StepKnows(seen: set<string>, log: seq<Msg>, from: nat, n: nat)
    requires IsLog(log) && from <= n <= |log| && Knows(seen, log, from)
    ensures Knows(seen + Ids(Page(log, n)), log, n)
  {
    forall i | 0 <= i < |log| ensures log[i].id in Ids(Page(log, n)) <==> PageStart(n) <= i < n {
      PageIds(log, n, i);
    }
  }

  lemma PageIsFresh(seen: set<string>, log: seq<Msg>, from: nat, n: nat)
    requires IsLog(log) && from <= n <= |log| && Knows(seen, log, from)
    ensures Reversed(Fresh(Page(log, n), seen)) == log[Max(from, PageStart(n))..n]
  {
    var page, lo, start := Page(log, n), PageStart(n), Max(from, PageStart(n));
    FreshPrefix(page, seen, n - start);
    NewestPart(log, n, start);
  }

  lemma NewestPart(log: seq<Msg>, n: nat, start: nat)
    requires PageStart(n) <= start <= n <= |log|
    ensures Reversed(Page(log, n)[..n - start]) == log[start..n]
  {
  }

  lemma StepDelivers(p: Poll, log: seq<Msg>, from: nat, n: nat)
    requires IsLog(log) && 0 < from <= n <= |log| && !p.bootstrap && Knows(p.seen, log, from)
    ensures var q := Step(p, Page(log, n));
            !q.bootstrap && Knows(q.seen, log, n) && q.queue == p.queue + log[Max(from, PageStart(n))..n]
  {
    PageIsFresh(p.seen, log, from, n);
    StepKnows(p.seen, log, from, n);
  }

  lemma {:induction false} PollsDeliver(p: Poll, log: seq<Msg>, from: nat, ns: seq<nat>)
    requires IsLog(log) && Grows(from, ns, log) && 0 < from && !p.bootstrap && Knows(p.seen, log, from)
    ensures RunPolls(p, log, from, ns).queue == p.queue + Delivered(log, from, ns)
    decreases |ns|
  {
    if ns != [] {
      var n, rest := ns[0], ns[1..];
      var q := Step(p, Page(log, n));
      assert Grows(n, rest, log);
      StepDelivers(p, log, from, n);
      PollsDeliver(q, log, n, rest);
      Regroup(p.queue, log[Max(from, PageStart(n))..n], Delivered(log, n, rest));
    }
  }

  /**
   The exact queue of every run: the first non-empty page, at length first, is only
   remembered; each later poll delivers what it shows that no earlier page showed.
   */
  lemma QueueIsDelivered(log: seq<Msg>, first: nat, ns: seq<nat>)
    requires IsLog(log) && 0 < first <= |log| && Grows(first, ns, log)
    ensures RunPolls(Step(Init(), Page(log, first)), log, first, ns).queue == Delivered(log, first, ns)
  {
    var p := Step(Init(), Page(log, first));
    StepKnows({}, log, 0, first);
    assert {} + Ids(Page(log, first)) == p.seen;
    PollsDeliver(p, log, first, ns);
  }

  /** Polls that find the chat still empty change nothing, so the first message decides where delivery begins. */
  lemma {:induction false} EmptyPollsDoNothing(p: Poll, log: seq<Msg>, zeros: nat, ns: seq<nat>)
    requires Grows(0, ns, log)
    ensures Grows(0, seq(zeros, _ => 0) + ns, log)
    ensures RunPolls(p, log, 0, seq(zeros, _ => 0) + ns) == RunPolls(p, log, 0, ns)
    decreases zeros
  {
    var all := seq(zeros, _ => 0) + ns;
    if zeros == 0 {
      assert all == ns;
    } else {
      assert all[1..] == seq(zeros - 1, _ => 0) + ns && all[0] == 0;
      EmptyPollsDoNothing(p, log, zeros - 1, ns);
      assert Page(log, 0) == [];
    }
  }

  // ----- nothing missed exactly when no gap exceeds a page -----

  ghost predicate GapsFit(from: nat, ns: seq<nat>)
    decreases |ns|
  {
    ns != [] ==> ns[0] <= from + PAGE_SIZE && GapsFit(ns[0], ns[1..])
  }

  ghost function Last(from: nat, ns: seq<nat>): nat
    decreases |ns|
  {
    if ns == [] then from else Last(ns[0], ns[1..])
  }

  lemma {:induction false} DeliveredCount(log: seq<Msg>, from: nat, ns: seq<nat>)
    requires Grows(from, ns, log)
    ensures from <= Last(from, ns) <= |log|
    ensures |Delivered(log, from, ns)| <= Last(from, ns) - from
    ensures |Delivered(log, from, ns)| == Last(from, ns) - from ==> GapsFit(from, ns)
    ensures GapsFit(from, ns) ==> Delivered(log, from, ns) == log[from..Last(from, ns)]
    decreases |ns|
  {
    if ns != [] {
      var n, rest := ns[0], ns[1..];
      assert Grows(n, rest, log);
      DeliveredCount(log, n, rest);
      if GapsFit(from, ns) {
        assert log[from..n] + log[n..Last(n, rest)] == log[from..Last(n, rest)];
      }
    }
  }

  /** The queue is the whole log suffix, in order, if and only if at most 20 messages arrive between polls. */
  lemma SuffixIffGapsFit(log: seq<Msg>, first: nat, ns: seq<nat>)
    requires IsLog(log) && 0 < first <= |log| && Grows(first, ns, log)
    ensures first <= Last(first, ns) <= |log|
    ensures RunPolls(Step(Init(), Page(log, first)), log, first, ns).queue == log[first..Last(first, ns)]
       <==> GapsFit(first, ns)
  {
    QueueIsDelivered(log, first, ns);
    DeliveredCount(log, first, ns);
  }

  // ----- in every run: log order, no duplicate -----

  /** The indices behind Delivered. */
  ghost function Indices(from: nat, ns: seq<nat>): seq<nat>
    decreases |ns|
  {
    if ns == [] then []
    else
      var start := Max(from, PageStart(ns[0]));
      seq(if start <= ns[0] then ns[0] - start else 0, i requires 0 <= i => start + i) + Indices(ns[0], ns[1..])
  }

  lemma {:induction false} DeliveredInOrder(log: seq<Msg>, from: nat, ns: seq<nat>)
    requires Grows(from, ns, log)
    ensures var ix := Indices(from, ns);
            && |ix| == |Delivered(log, from, ns)|
            && (forall i :: 0 <= i < |ix| ==> from <= ix[i] < |log| && Delivered(log, from, ns)[i] == log[ix[i]])
            && (forall i, j :: 0 <= i < j < |ix| ==> ix[i] < ix[j])
    decreases |ns|
  {
    if ns != [] {
      assert Grows(ns[0], ns[1..], log);
      DeliveredInOrder(log, ns[0], ns[1..]);
    }
  }

  /** However large the gaps, the queue is a subsequence of the log after the first page, without repeats. */
  lemma QueueInLogOrder(log: seq<Msg>, first: nat, ns: seq<nat>)
    requires IsLog(log) && 0 < first <= |log| && Grows(first, ns, log)
    ensures var q, ix := RunPolls(Step(Init(), Page(log, first)), log, first, ns).queue, Indices(first, ns);
            && |ix| == |q|
            && (forall i :: 0 <= i < |q| ==> first <= ix[i] < |log| && q[i] == log[ix[i]])
            && (forall i, j :: 0 <= i < j < |q| ==> ix[i] < ix[j] && q[i].id != q[j].id)
  {
    QueueIsDelivered(log, first, ns);
    DeliveredInOrder(log, first, ns);
  }
}
