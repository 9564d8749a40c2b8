/**
 A link that drops in the middle of a reconnect attempt: which topics the next attempt
 still knows, over every run between the end of the reader and the next connect.
 */
module ChannelDrops {
  import opened Prelude
  import opened ChannelModel
  import opened ChannelScope
  import opened ChannelReconnect

  /** The re-join that loop id awaits is its own and not yet refused. */
  ghost predicate AwaitsOwn(id: nat, l: Loop, b: Book, counter: nat) {
    l.phase.Awaiting? ==>
      var r := l.phase.ref;
      && r < counter && r in b.joiners && b.joiners[r].loop == Some(id)
      && b.joiners[r].topic in l.asked && b.joiners[r].topic !in l.refused
  }

  /** The part of an attempt of loop id, begun in s, that does not depend on the link being up. */
  ghost predicate Tracks(s: Client, id: nat, others: set<string>, c: Client) {
    && id in c.loops && id < c.nextLoop && s.topics.handlers.Keys !! others && s.net.counter <= c.net.counter
    && TopicsRestored(s.topics.handlers, s.net.counter, c.loops[id], Rest(c.topics, others))
    && AwaitsOwn(id, c.loops[id], c.book, c.net.counter)
  }

  lemma AttemptTracks(s: Client, id: nat, others: set<string>, c: Client)
    requires Loopy(c) && Attempt(s, id, others, c)
    ensures Tracks(s, id, others, c)
  {
  }

  ghost predicate QuietLife(l: Life, id: nat) {
    || l == LoopRejoin(id) || l.LoopFlush? || l.SocketClose? || l.ReaderEnd?
    || l.LoopConnectFail? || l.CloseBegin? || l.CloseEnd?
  }

  /** Steps between the end of the reader and the next connect: no reply arrives, only topics of others are joined. */
  ghost predicate Quiet(c: Client, a: Action, id: nat, others: set<string>) {
    match a
    case Ask(q) => CalmAsk(q, others)
    case Tell(g) => CalmTell(c, g, id, others) && !(g.Inbound? && g.event == PhxReply)
    case Lives(l) => QuietLife(l, id)
  }

  ghost predicate QuietRun(c: Client, acts: seq<Action>, id: nat, others: set<string>)
    decreases |acts|
  {
    acts == [] || (Quiet(c, acts[0], id, others) && QuietRun(Step(c, acts[0]), acts[1..], id, others))
  }

  // ----- what the drop leaves possible -----

  ghost predicate IsResolved(b: Book, r: nat) {
    r in b.futures && b.futures[r].Resolved?
  }

  /** The loop awaits no answer, or has one that accepts. */
  ghost predicate CanMove(l: Loop, b: Book) {
    l.phase.Awaiting? ==> IsResolved(b, l.phase.ref) && !Refuses(b.futures[l.phase.ref].payload)
  }

  /** No topic was refused, and the ones left to ask can still be recorded. */
  ghost predicate CanCatchUp(l: Loop, b: Book) {
    l.refused == {} && (l.todo == [] || CanMove(l, b))
  }

  /** Every topic was asked, none was refused, and no refusal is on its way to the loop. */
  ghost predicate AllKept(l: Loop, b: Book) {
    && l.todo == [] && l.refused == {}
    && (l.phase.Awaiting? && IsResolved(b, l.phase.ref) ==> !Refuses(b.futures[l.phase.ref].payload))
  }

  /** The awaited answer has not come, and without a reader it never will. */
  ghost predicate Stuck(l: Loop, b: Book) {
    l.phase.Awaiting? && !IsResolved(b, l.phase.ref)
  }

  /** What a quiet step may do to the attempt: d is still tracked, and what the drop decided stays decided. */
  ghost predicate Follows(s: Client, id: nat, others: set<string>, c: Client, d: Client)
    requires id in c.loops
  {
    && Tracks(s, id, others, d) && c.nextLoop <= d.nextLoop
    && (CanCatchUp(d.loops[id], d.book) ==> CanCatchUp(c.loops[id], c.book))
    && (AllKept(c.loops[id], c.book) ==> AllKept(d.loops[id], d.book))
    && (Stuck(c.loops[id], c.book) ==> Stuck(d.loops[id], d.book) && d.loops[id] == c.loops[id])
  }

  /** The reader of the attempt has ended: a newer reconnect loop is there. */
  ghost predicate Dropped(s: Client, id: nat, others: set<string>, c: Client) {
    Tracks(s, id, others, c) && id + 1 < c.nextLoop
  }

  /** Nothing the attempt depends on has changed. */
  ghost predicate Leaves(id: nat, others: set<string>, c: Client, d: Client)
    requires id in c.loops
  {
    && id in d.loops && d.loops[id] == c.loops[id] && c.nextLoop <= d.nextLoop && c.net.counter <= d.net.counter
    && Rest(d.topics, others) == Rest(c.topics, others)
    && (c.loops[id].phase.Awaiting? ==>
          var r := c.loops[id].phase.ref;
          && (r in c.book.joiners ==> r in d.book.joiners && d.book.joiners[r] == c.book.joiners[r])
          && (IsResolved(d.book, r) <==> IsResolved(c.book, r))
          && (IsResolved(c.book, r) ==> d.book.futures[r] == c.book.futures[r]))
  }

  lemma LeavesFollows(s: Client, id: nat, others: set<string>, c: Client, d: Client)
    requires Tracks(s, id, others, c) && Leaves(id, others, c, d)
    ensures Follows(s, id, others, c, d)
  {
  }

  ghost predicate Waits(id: nat, c: Client) {
    id in c.loops && AwaitsOwn(id, c.loops[id], c.book, c.net.counter)
  }

  /** Only the counter, the wire, the queue, the link flags or newer loops changed. */
  lemma SameLeaves(id: nat, others: set<string>, c: Client, d: Client)
    requires id in c.loops && id in d.loops && d.loops[id] == c.loops[id]
    requires c.nextLoop <= d.nextLoop && c.net.counter <= d.net.counter && d.topics == c.topics && d.book == c.book
    ensures Leaves(id, others, c, d)
  {
  }

  lemma JoinLeaves(id: nat, others: set<string>, c: Client, topic: string, handler: Handler)
    requires Waits(id, c) && topic in others
    ensures Leaves(id, others, c, StartJoin(c, topic, handler, None))
  {
    RestFollows(c.topics, others, topic, handler, c.net.counter);
  }

  lemma CallLeaves(id: nat, others: set<string>, c: Client, e: Entry)
    requires Waits(id, c)
    ensures Leaves(id, others, c, DoCall(c, e))
  {
  }

  lemma AskLeaves(id: nat, others: set<string>, c: Client, q: Request)
    requires Waits(id, c) && CalmAsk(q, others)
    ensures Leaves(id, others, c, Serve(c, q))
  {
    match q
    case Join(topic, handler) => JoinLeaves(id, others, c, topic, handler);
    case Call(e) => CallLeaves(id, others, c, e);
    case _ => SameLeaves(id, others, c, Serve(c, q));
  }

  lemma ForeignLeaves(id: nat, others: set<string>, c: Client, r: nat)
    requires Waits(id, c) && r in c.book.joiners && Foreign(c, r, id, others)
    ensures Leaves(id, others, c, DoJoinResume(c, r))
  {
    RestFollows(c.topics, others, c.book.joiners[r].topic, 0, 0);
  }

  lemma TellLeaves(id: nat, others: set<string>, c: Client, g: Signal)
    requires Waits(id, c) && !(g.Inbound? && g.event == PhxReply)
    requires g.JoinResume? && g.ref in c.book.joiners ==> Foreign(c, g.ref, id, others)
    ensures Leaves(id, others, c, Hear(c, g))
  {
    if g.JoinResume? && g.ref in c.book.joiners {
      ForeignLeaves(id, others, c, g.ref);
    }
  }

  lemma OwnResumeFollows(s: Client, id: nat, others: set<string>, c: Client, r: nat)
    requires Tracks(s, id, others, c) && c.loops[id].phase == Awaiting(r)
    ensures Follows(s, id, others, c, DoJoinResume(c, r))
  {
    if IsResolved(c.book, r) {
      var l, j, no := c.loops[id], c.book.joiners[r], Refuses(c.book.futures[r].payload);
      ResumeKeepsTopics(s.topics.handlers, s.net.counter, l, Rest(c.topics, others), j.topic, no);
      RestFollows(c.topics, others, j.topic, 0, 0);
      ResumeDecides(l, c.book, j.topic);
    }
  }

  /** Reading the answer decides nothing that was not decided when it came. */
  lemma ResumeDecides(l: Loop, b: Book, x: string)
    requires l.phase.Awaiting? && IsResolved(b, l.phase.ref)
    ensures var no := Refuses(b.futures[l.phase.ref].payload);
            var l1 := l.(phase := Rejoining, refused := if no then l.refused + {x} else l.refused);
            && (l1.refused == {} ==> CanCatchUp(l, b) && l.refused == {} && !no)
            && (AllKept(l, b) ==> l1.todo == [] && l1.refused == {})
            && !Stuck(l, b)
  {
    assert x in l.refused + {x};
  }

  /** The loop as it is after starting its next re-join, on an open socket or a dead one. */
  ghost predicate AsksNext(c: Client, id: nat, d: Client) {
    && In(c, id, Rejoining) && c.loops[id].todo != [] && c.loops[id].todo[0] in c.loops[id].snapshot
    && var l, n := c.loops[id], c.net.counter;
    && id in d.loops && d.loops[id] == Asking(l, n).(phase := d.loops[id].phase)
    && d.topics == Record(c.topics, l.todo[0], l.snapshot[l.todo[0]], n)
    && d.nextLoop == c.nextLoop && d.net.counter == n + 1
    && (d.loops[id].phase == Rejoining ||
        (d.loops[id].phase == Awaiting(n) && n in d.book.joiners && d.book.joiners[n] == Joiner(l.todo[0], Some(id))))
  }

  lemma RejoinAsksNext(c: Client, id: nat)
    requires In(c, id, Rejoining) && c.loops[id].todo != [] && c.loops[id].todo[0] in c.loops[id].snapshot
    ensures AsksNext(c, id, DoLoopRejoin(c, id))
  {
  }

  lemma AsksNextFollows(s: Client, id: nat, others: set<string>, c: Client, d: Client)
    requires Tracks(s, id, others, c) && AsksNext(c, id, d)
    ensures Follows(s, id, others, c, d)
  {
    var l, n := c.loops[id], c.net.counter;
    RejoinKeepsTopics(s.topics.handlers, s.net.counter, l, Rest(c.topics, others), n);
    RestFollows(c.topics, others, l.todo[0], s.topics.handlers[l.todo[0]], n);
    PhaseOnly(s.topics.handlers, s.net.counter, Asking(l, n), Rest(d.topics, others), d.loops[id].phase);
    RejoiningFollows(s, id, others, c, d);
  }

  /** A loop that was free to move has decided nothing by moving, if no topic was refused in doing so. */
  lemma RejoiningFollows(s: Client, id: nat, others: set<string>, c: Client, d: Client)
    requires In(c, id, Rejoining) && Tracks(s, id, others, d) && c.nextLoop <= d.nextLoop
    requires c.loops[id].todo != [] && d.loops[id].refused == c.loops[id].refused
    ensures Follows(s, id, others, c, d)
  {
  }

  lemma RejoinFollows(s: Client, id: nat, others: set<string>, c: Client)
    requires Tracks(s, id, others, c)
    ensures Follows(s, id, others, c, DoLoopRejoin(c, id))
  {
    var l := c.loops[id];
    if l.phase == Rejoining && l.todo != [] {
      assert l.todo[0] in l.snapshot;
      RejoinAsksNext(c, id);
      AsksNextFollows(s, id, others, c, DoLoopRejoin(c, id));
    } else if l.phase == Rejoining {
      MovesOn(s, id, others, c, DoLoopRejoin(c, id), Flushing);
    } else {
      assert DoLoopRejoin(c, id) == c;
    }
  }

  /** With every topic asked, the loop goes on to its flush, or from its flush to its end. */
  lemma MovesOn(s: Client, id: nat, others: set<string>, c: Client, d: Client, p: Phase)
    requires Tracks(s, id, others, c) && c.loops[id].todo == [] && !c.loops[id].phase.Awaiting?
    requires p == Flushing || p == Finished
    requires d == c.(loops := c.loops[id := c.loops[id].(phase := p)])
    ensures Follows(s, id, others, c, d)
  {
    PhaseOnly(s.topics.handlers, s.net.counter, c.loops[id], Rest(c.topics, others), p);
  }

  lemma FlushFollows(s: Client, id: nat, others: set<string>, c: Client)
    requires Tracks(s, id, others, c)
    ensures Follows(s, id, others, c, DoLoopFlush(c, id))
  {
    if c.loops[id].phase == Flushing && c.queue == [] {
      MovesOn(s, id, others, c, DoLoopFlush(c, id), Finished);
    } else {
      SameLeaves(id, others, c, DoLoopFlush(c, id));
      LeavesFollows(s, id, others, c, DoLoopFlush(c, id));
    }
  }

  lemma CloseLeaves(id: nat, others: set<string>, c: Client)
    requires Waits(id, c) && id + 1 < c.nextLoop
    ensures Leaves(id, others, c, DoCloseBegin(c))
  {
  }

  lemma LifeLeaves(id: nat, others: set<string>, c: Client, l: Life)
    requires Waits(id, c) && id + 1 < c.nextLoop && QuietLife(l, id) && l != LoopRejoin(id) && l != LoopFlush(id)
    ensures Leaves(id, others, c, Live(c, l))
  {
    if l.CloseBegin? {
      CloseLeaves(id, others, c);
    } else {
      SameLeaves(id, others, c, Live(c, l));
    }
  }

  lemma StepFollows(s: Client, id: nat, others: set<string>, c: Client, a: Action)
    requires Loopy(c) && Dropped(s, id, others, c) && Quiet(c, a, id, others)
    ensures Follows(s, id, others, c, Step(c, a))
  {
    match a
    case Ask(q) =>
      AskLeaves(id, others, c, q);
      LeavesFollows(s, id, others, c, Step(c, a));
    case Tell(g) =>
      if g.JoinResume? && g.ref in c.book.joiners && c.book.joiners[g.ref].loop == Some(id) {
        OwnResumeFollows(s, id, others, c, g.ref);
      } else {
        TellLeaves(id, others, c, g);
        LeavesFollows(s, id, others, c, Step(c, a));
      }
    case Lives(l) =>
      if l == LoopRejoin(id) {
        RejoinFollows(s, id, others, c);
      } else if l == LoopFlush(id) {
        FlushFollows(s, id, others, c);
      } else {
        LifeLeaves(id, others, c, l);
        LeavesFollows(s, id, others, c, Step(c, a));
      }
  }

  lemma {:induction false} RunFollows(s: Client, id: nat, others: set<string>, c: Client, acts: seq<Action>)
    requires Loopy(c) && Dropped(s, id, others, c) && QuietRun(c, acts, id, others)
    ensures Follows(s, id, others, c, Run(c, acts))
    decreases |acts|
  {
    if acts != [] {
      StepFollows(s, id, others, c, acts[0]);
      StepKeepsLoops(c, acts[0]);
      RunFollows(s, id, others, Step(c, acts[0]), acts[1..]);
    }
  }

  // ----- the next attempt -----

  /** Loop j connects in e, iterating its snapshot in this order, and has every topic of the set to re-join. */
  ghost predicate Covers(e: Client, j: nat, order: seq<string>, topics: set<string>) {
    && In(e, j, Connecting) && Enumerates(order, e.topics.handlers.Keys)
    && forall x :: x in topics ==> x in Live(e, LoopConnectOk(j, order)).loops[j].todo
  }

  lemma CoversIff(s: Client, id: nat, others: set<string>, e: Client, j: nat, order: seq<string>)
    requires Tracks(s, id, others, e) && In(e, j, Connecting) && Enumerates(order, e.topics.handlers.Keys)
    ensures Covers(e, j, order, s.topics.handlers.Keys) <==> e.loops[id].todo == [] && e.loops[id].refused == {}
  {
    var l, rest := e.loops[id], Rest(e.topics, others);
    assert Live(e, LoopConnectOk(j, order)).loops[j].todo == order;
    assert forall x :: x in order <==> x in e.topics.handlers;
    assert forall x :: x in s.topics.handlers ==> (x in e.topics.handlers <==> x in rest.handlers);
    if l.todo != [] {
      assert l.todo[0] in l.todo && l.todo[0] in s.topics.handlers && l.todo[0] !in rest.handlers;
    } else if l.refused != {} {
      var x :| x in l.refused;
      assert x in s.topics.handlers && x !in rest.handlers;
    }
  }

  lemma EndOfReader(s: Client, id: nat, others: set<string>, c: Client)
    requires Loopy(c) && Tracks(s, id, others, c) && c.autoReconnect && !c.shutdown
    ensures var d := Live(c, ReaderEnd);
            && Loopy(d) && Dropped(s, id, others, d) && d.loops[id] == c.loops[id] && d.book == c.book
            && d.topics == c.topics && In(d, c.nextLoop, Connecting)
  {
    StepKeepsLoops(c, Lives(ReaderEnd));
    SameLeaves(id, others, c, Live(c, ReaderEnd));
    LeavesFollows(s, id, others, c, Live(c, ReaderEnd));
  }

  /**
   The link drops while the loop awaits an answer that has not come.  Whatever happens between
   the end of the reader and the next connect, the next attempt covers all the topics of the
   old one if and only if none was left to ask and none was refused.
   */
  lemma DropMidRejoinForgets(s: Client, id: nat, others: set<string>, c: Client, acts: seq<Action>, e: Client,
                             j: nat, order: seq<string>)
    requires Loopy(c) && Tracks(s, id, others, c) && c.autoReconnect && !c.shutdown
    requires Stuck(c.loops[id], c.book)
    requires QuietRun(Live(c, ReaderEnd), acts, id, others) && e == Run(Live(c, ReaderEnd), acts)
    requires In(e, j, Connecting) && Enumerates(order, e.topics.handlers.Keys)
    ensures Covers(e, j, order, s.topics.handlers.Keys) <==> c.loops[id].todo == [] && c.loops[id].refused == {}
  {
    EndOfReader(s, id, others, c);
    RunFollows(s, id, others, Live(c, ReaderEnd), acts);
    CoversIff(s, id, others, e, j, order);
  }

  // ----- without that guard -----

  /** Some, or every, next attempt after the end of the reader in c covers the old topics. */
  ghost predicate MayCover(s: Client, id: nat, others: set<string>, c: Client) {
    exists acts, j, order :: QuietRun(c, acts, id, others) && Covers(Run(c, acts), j, order, s.topics.handlers.Keys)
  }

  ghost predicate MustCover(s: Client, id: nat, others: set<string>, c: Client) {
    forall acts, j, order ::
      QuietRun(c, acts, id, others) && In(Run(c, acts), j, Connecting)
      && Enumerates(order, Run(c, acts).topics.handlers.Keys)
      ==> Covers(Run(c, acts), j, order, s.topics.handlers.Keys)
  }

  lemma {:induction false} Enumeration(keys: set<string>) returns (order: seq<string>)
    ensures Enumerates(order, keys)
    decreases keys
  {
    if keys == {} {
      order := [];
    } else {
      var x :| x in keys;
      var rest := Enumeration(keys - {x});
      order := [x] + rest;
      assert forall y :: y in order <==> y == x || y in rest;
      assert forall y :: y in rest <==> y in keys - {x};
      assert (set y | y in order) == keys;
    }
  }

  ghost predicate ReadyToCatchUp(s: Client, id: nat, others: set<string>, c: Client) {
    Loopy(c) && Dropped(s, id, others, c) && c.loops[id].refused == {} && (c.loops[id].todo == [] || In(c, id, Rejoining))
  }

  /** On a dead link the loop records every topic left to ask, one failed re-join after the other. */
  lemma {:induction false} CatchesUp(s: Client, id: nat, others: set<string>, c: Client, j: nat) returns (acts: seq<Action>)
    requires ReadyToCatchUp(s, id, others, c) && c.net.link != Open && In(c, j, Connecting)
    ensures QuietRun(c, acts, id, others)
    ensures var e := Run(c, acts);
            Tracks(s, id, others, e) && e.loops[id].todo == [] && e.loops[id].refused == {} && In(e, j, Connecting)
    decreases |c.loops[id].todo|
  {
    acts := [];
    if c.loops[id].todo != [] {
      var a := Lives(LoopRejoin(id));
      var d := Step(c, a);
      assert c.loops[id].todo[0] in c.loops[id].snapshot;
      FailedRejoin(c, id);
      StepKeepsLoops(c, a);
      StepFollows(s, id, others, c, a);
      var rest := CatchesUp(s, id, others, d, j);
      acts := [a] + rest;
      assert acts[1..] == rest;
    }
  }

  lemma FailedRejoin(c: Client, id: nat)
    requires In(c, id, Rejoining) && c.net.link != Open
    requires c.loops[id].todo != [] && c.loops[id].todo[0] in c.loops[id].snapshot
    ensures var d := DoLoopRejoin(c, id);
            && In(d, id, Rejoining)
            && d.loops[id].todo == c.loops[id].todo[1..] && d.loops[id].refused == c.loops[id].refused
            && d.loops == c.loops[id := d.loops[id]] && d.net.link != Open
  {
  }

  lemma OwnResume(c: Client, id: nat, r: nat)
    requires In(c, id, Awaiting(r)) && r in c.book.joiners && c.book.joiners[r].loop == Some(id)
    requires IsResolved(c.book, r) && !Refuses(c.book.futures[r].payload)
    ensures var d := DoJoinResume(c, r);
            && d.loops == c.loops[id := c.loops[id].(phase := Rejoining)] && d.net == c.net
  {
  }

  lemma ShutLeaves(c: Client)
    ensures var d := Live(c, SocketClose); d == c.(net := d.net) && d.net.link != Open
  {
  }

  /** The run that lets the loop catch up before loop j connects. */
  lemma CatchUpRun(s: Client, id: nat, others: set<string>, c: Client, j: nat) returns (acts: seq<Action>)
    requires Loopy(c) && Dropped(s, id, others, c) && CanCatchUp(c.loops[id], c.book) && In(c, j, Connecting)
    ensures QuietRun(c, acts, id, others)
    ensures var e := Run(c, acts);
            Tracks(s, id, others, e) && e.loops[id].todo == [] && e.loops[id].refused == {} && In(e, j, Connecting)
  {
    var shut := Lives(SocketClose);
    var d := Step(c, shut);
    ShutLeaves(c);
    StepKeepsLoops(c, shut);
    StepFollows(s, id, others, c, shut);
    var rest: seq<Action>;
    if c.loops[id].todo != [] && c.loops[id].phase.Awaiting? {
      var a := Tell(JoinResume(c.loops[id].phase.ref));
      OwnResume(d, id, c.loops[id].phase.ref);
      StepKeepsLoops(d, a);
      StepFollows(s, id, others, d, a);
      var tail := CatchesUp(s, id, others, Step(d, a), j);
      rest := [a] + tail;
      assert rest[1..] == tail;
    } else {
      rest := CatchesUp(s, id, others, d, j);
    }
    acts := [shut] + rest;
    assert acts[1..] == rest;
  }

  /**
   For any drop inside an attempt: some next attempt covers the old topics if and only if none
   was refused and the loop either has none left to ask or is not held up by its awaited answer.
   */
  lemma MayCoverIff(s: Client, id: nat, others: set<string>, c: Client)
    requires Loopy(c) && Tracks(s, id, others, c) && c.autoReconnect && !c.shutdown
    ensures MayCover(s, id, others, Live(c, ReaderEnd)) <==> CanCatchUp(c.loops[id], c.book)
  {
    var d := Live(c, ReaderEnd);
    EndOfReader(s, id, others, c);
    if CanCatchUp(c.loops[id], c.book) {
      var acts := CatchUpRun(s, id, others, d, c.nextLoop);
      var e := Run(d, acts);
      var order := Enumeration(e.topics.handlers.Keys);
      CoversIff(s, id, others, e, c.nextLoop, order);
    }
    forall acts, j, order | QuietRun(d, acts, id, others) && Covers(Run(d, acts), j, order, s.topics.handlers.Keys)
      ensures CanCatchUp(c.loops[id], c.book)
    {
      RunFollows(s, id, others, d, acts);
      CoversIff(s, id, others, Run(d, acts), j, order);
    }
  }

  /** Every next attempt covers them if and only if all were asked, none refused, and no refusal is on its way. */
  lemma MustCoverIff(s: Client, id: nat, others: set<string>, c: Client)
    requires Loopy(c) && Tracks(s, id, others, c) && c.autoReconnect && !c.shutdown
    ensures MustCover(s, id, others, Live(c, ReaderEnd)) <==> AllKept(c.loops[id], c.book)
  {
    var d := Live(c, ReaderEnd);
    EndOfReader(s, id, others, c);
    if AllKept(c.loops[id], c.book) {
      forall acts, j, order | QuietRun(d, acts, id, others) && In(Run(d, acts), j, Connecting)
                              && Enumerates(order, Run(d, acts).topics.handlers.Keys)
        ensures Covers(Run(d, acts), j, order, s.topics.handlers.Keys)
      {
        RunFollows(s, id, others, d, acts);
        CoversIff(s, id, others, Run(d, acts), j, order);
      }
    } else {
      MayLose(s, id, others, d, c.nextLoop);
    }
  }

  lemma MayLose(s: Client, id: nat, others: set<string>, c: Client, j: nat)
    requires Loopy(c) && Dropped(s, id, others, c) && !AllKept(c.loops[id], c.book) && In(c, j, Connecting)
    ensures !MustCover(s, id, others, c)
  {
    var l := c.loops[id];
    var acts := if l.todo == [] && l.refused == {} then [Tell(JoinResume(l.phase.ref))] else [];
    LosesOne(s, id, others, c, acts, j);
    Uncovered(s, id, others, c, acts, j);
  }

  lemma Uncovered(s: Client, id: nat, others: set<string>, c: Client, acts: seq<Action>, j: nat)
    requires QuietRun(c, acts, id, others) && In(Run(c, acts), j, Connecting) && Tracks(s, id, others, Run(c, acts))
    requires Run(c, acts).loops[id].todo != [] || Run(c, acts).loops[id].refused != {}
    ensures !MustCover(s, id, others, c)
  {
    var order := Enumeration(Run(c, acts).topics.handlers.Keys);
    CoversIff(s, id, others, Run(c, acts), j, order);
  }

  lemma LosesOne(s: Client, id: nat, others: set<string>, c: Client, acts: seq<Action>, j: nat)
    requires Loopy(c) && Dropped(s, id, others, c) && !AllKept(c.loops[id], c.book) && In(c, j, Connecting)
    requires acts == if c.loops[id].todo == [] && c.loops[id].refused == {}
                     then [Tell(JoinResume(c.loops[id].phase.ref))] else []
    ensures QuietRun(c, acts, id, others) && In(Run(c, acts), j, Connecting) && Tracks(s, id, others, Run(c, acts))
    ensures Run(c, acts).loops[id].todo != [] || Run(c, acts).loops[id].refused != {}
  {
    if acts != [] {
      var r := c.loops[id].phase.ref;
      var d := DoJoinResume(c, r);
      assert acts[1..] == [];
      assert QuietRun(d, [], id, others);
      assert Run(d, []) == d && Step(c, acts[0]) == d;
      StepFollows(s, id, others, c, acts[0]);
      RefusalIsRecorded(c, id, r, j);
    }
  }

  lemma RefusalIsRecorded(c: Client, id: nat, r: nat, j: nat)
    requires id in c.loops && r in c.book.joiners && c.book.joiners[r].loop == Some(id) && j != id && In(c, j, Connecting)
    requires IsResolved(c.book, r) && Refuses(c.book.futures[r].payload)
    ensures In(DoJoinResume(c, r), j, Connecting) && id in DoJoinResume(c, r).loops
    ensures c.book.joiners[r].topic in DoJoinResume(c, r).loops[id].refused
  {
  }

  // ----- both happen -----

  /** Two topics are joined and the link drops. */
  ghost function TwoJoined(): Client {
    var c1 := Step(Init(true), Ask(Connect));
    var c2 := Step(c1, Ask(Join("a", 0)));
    var c3 := Step(c2, Ask(Join("b", 1)));
    Step(Step(c3, Lives(SocketClose)), Lives(ReaderEnd))
  }

  lemma TwoJoinedState()
    ensures var c := TwoJoined();
            && c.autoReconnect && !c.shutdown && c.nextLoop == 1 && c.net.counter == 3
            && c.topics.handlers == map["a" := 0, "b" := 1] && c.loops == map[0 := Loop(Connecting, [], map[], map[], {})]
  {
    var c1 := Step(Init(true), Ask(Connect));
    var c2 := Step(c1, Ask(Join("a", 0)));
    var c3 := Step(c2, Ask(Join("b", 1)));
    assert c3.topics.handlers == map["a" := 0, "b" := 1];
    var c4 := Step(c3, Lives(SocketClose));
    var c5 := Step(c4, Lives(ReaderEnd));
    assert TwoJoined() == c5;
  }

  /** The reconnect loop has asked "a" on the new link and has "b" left. */
  ghost function MidRejoin(): Client {
    Step(Step(TwoJoined(), Lives(LoopConnectOk(0, ["a", "b"]))), Lives(LoopRejoin(0)))
  }

  ghost predicate HasAskedA(c: Client) {
    && c.autoReconnect && !c.shutdown && c.nextLoop == 1 && c.topics == Topics(map["a" := 3], map["a" := 0])
    && 0 in c.loops && c.loops[0] == Loop(Awaiting(3), ["b"], map["a" := 0, "b" := 1], map["a" := 3], {})
    && 3 in c.book.joiners && c.book.joiners[3] == Joiner("a", Some(0))
    && 3 in c.book.pending && 3 in c.book.futures && c.book.futures[3] == Waiting
  }

  lemma MidRejoinState()
    ensures HasAskedA(MidRejoin())
  {
    TwoJoinedState();
    var c, order := TwoJoined(), ["a", "b"];
    assert (set t | t in order) == {"a", "b"} == c.topics.handlers.Keys;
    var d := Step(c, Lives(LoopConnectOk(0, order)));
    assert order[1..] == ["b"];
    AsksA(d);
  }

  lemma AsksA(c: Client)
    requires c.autoReconnect && !c.shutdown && c.nextLoop == 1 && c.net.link == Open && c.net.counter == 3
    requires c.topics == Topics(map[], map[])
    requires 0 in c.loops && c.loops[0] == Loop(Rejoining, ["a", "b"], map["a" := 0, "b" := 1], map[], {})
    ensures HasAskedA(Step(c, Lives(LoopRejoin(0))))
  {
    assert ["a", "b"][1..] == ["b"];
  }

  /** The link drops there: the next attempt asks for "a" alone, and "b" is forgotten. */
  lemma DropForgetsTopic()
    ensures var c := Step(Step(MidRejoin(), Lives(SocketClose)), Lives(ReaderEnd));
            var d := Step(c, Lives(LoopConnectOk(1, ["a"])));
            In(d, 1, Rejoining) && d.loops[1].todo == ["a"]
  {
    MidRejoinState();
    var c1 := Step(MidRejoin(), Lives(SocketClose));
    var c2 := Step(c1, Lives(ReaderEnd));
    ConnectsWith(c2, ["a"]);
  }

  lemma ConnectsWith(c: Client, order: seq<string>)
    requires In(c, 1, Connecting) && Enumerates(order, c.topics.handlers.Keys)
    ensures var d := Step(c, Lives(LoopConnectOk(1, order))); In(d, 1, Rejoining) && d.loops[1].todo == order
  {
  }

  /** There the answer to "a" is read before the close, and the old loop resumes before the next connect. */
  ghost function Answered(reply: Json): Client {
    var c1 := Step(MidRejoin(), Tell(Inbound(Some(3), PhxReply, reply)));
    var c2 := Step(c1, Lives(SocketClose));
    var c3 := Step(c2, Lives(ReaderEnd));
    Step(c3, Tell(JoinResume(3)))
  }

  lemma AnsweredState(reply: Json)
    requires !Refuses(reply)
    ensures var c := Answered(reply);
            && c.topics == Topics(map["a" := 3], map["a" := 0]) && c.net.link != Open && In(c, 1, Connecting)
            && 0 in c.loops && c.loops[0] == Loop(Rejoining, ["b"], map["a" := 0, "b" := 1], map["a" := 3], {})
  {
    MidRejoinState();
    var c1 := Step(MidRejoin(), Tell(Inbound(Some(3), PhxReply, reply)));
    ReplyIsTaken(MidRejoin(), reply);
    var c2 := Step(c1, Lives(SocketClose));
    ShutLeaves(c1);
    var c3 := Step(c2, Lives(ReaderEnd));
    assert c3.loops == c2.loops[1 := Loop(Connecting, [], map[], map[], {})] && c3.book == c2.book && c3.net == c2.net;
    OwnResume(c3, 0, 3);
    assert DoJoinResume(c3, 3).topics == c3.topics;
  }

  lemma ReplyIsTaken(c: Client, reply: Json)
    requires HasAskedA(c)
    ensures var d := Step(c, Tell(Inbound(Some(3), PhxReply, reply)));
            && d == c.(book := d.book) && d.book.joiners == c.book.joiners
            && IsResolved(d.book, 3) && d.book.futures[3].payload == reply
  {
  }

  /** Then the loop records "b" on the dead link, and nothing is forgotten. */
  lemma DropAfterAnswerKeepsTopic(reply: Json)
    requires !Refuses(reply)
    ensures var c := Step(Answered(reply), Lives(LoopRejoin(0)));
            var d := Step(c, Lives(LoopConnectOk(1, ["a", "b"])));
            In(d, 1, Rejoining) && d.loops[1].todo == ["a", "b"]
  {
    AnsweredState(reply);
    RecordsOnDeadLink(Answered(reply));
    var c, order := Step(Answered(reply), Lives(LoopRejoin(0))), ["a", "b"];
    assert (set t | t in order) == {"a", "b"} == c.topics.handlers.Keys;
    ConnectsWith(c, order);
  }

  lemma RecordsOnDeadLink(c: Client)
    requires c.topics == Topics(map["a" := 3], map["a" := 0]) && c.net.link != Open && In(c, 1, Connecting)
    requires 0 in c.loops && c.loops[0] == Loop(Rejoining, ["b"], map["a" := 0, "b" := 1], map["a" := 3], {})
    ensures var d := Step(c, Lives(LoopRejoin(0)));
            d.topics.handlers == map["a" := 0, "b" := 1] && In(d, 1, Connecting)
  {
  }

  // ----- a flush on a dead link that never ends -----

  /** A push is queued while the link is down, and the reconnect loop has asked its topic on the new link. */
  ghost function PushQueued(e: Entry): Client {
    var c1 := Step(Init(true), Ask(Connect));
    var c2 := Step(c1, Ask(Join("t", 0)));
    var c3 := Step(c2, Lives(SocketClose));
    var c4 := Step(c3, Lives(ReaderEnd));
    var c5 := Step(c4, Ask(Push(e)));
    var c6 := Step(c5, Lives(LoopConnectOk(0, ["t"])));
    Step(c6, Lives(LoopRejoin(0)))
  }

  lemma PushQueuedState(e: Entry)
    requires e.topic == "t"
    ensures var c := PushQueued(e);
            && c.autoReconnect && !c.shutdown && c.nextLoop == 1 && c.queue == [e] && "t" in c.topics.joinRefs
            && 0 in c.loops && c.loops[0].phase == Awaiting(2) && c.loops[0].todo == []
            && 2 in c.book.joiners && c.book.joiners[2] == Joiner("t", Some(0))
            && 2 in c.book.pending && 2 in c.book.futures && c.book.futures[2] == Waiting
  {
    var c1 := Step(Init(true), Ask(Connect));
    var c2 := Step(c1, Ask(Join("t", 0)));
    assert c2.topics == Topics(map["t" := 1], map["t" := 0]);
    var c3 := Step(c2, Lives(SocketClose));
    var c4 := Step(c3, Lives(ReaderEnd));
    var c5 := Step(c4, Ask(Push(e)));
    var order := ["t"];
    assert Enumerates(order, c5.topics.handlers.Keys);
    var c6 := Step(c5, Lives(LoopConnectOk(0, order)));
    var c7 := Step(c6, Lives(LoopRejoin(0)));
    assert PushQueued(e) == c7;
  }

  /** The answer is read, the link drops again, and the loop goes on to its flush. */
  ghost function FlushOnDeadLink(e: Entry, reply: Json): Client {
    var c1 := Step(PushQueued(e), Tell(Inbound(Some(2), PhxReply, reply)));
    var c2 := Step(c1, Lives(SocketClose));
    var c3 := Step(c2, Lives(ReaderEnd));
    var c4 := Step(c3, Tell(JoinResume(2)));
    Step(c4, Lives(LoopRejoin(0)))
  }

  /** The spin is reachable: the flush turns the one queued push over for ever. */
  lemma SpinIsReachable(e: Entry, reply: Json)
    requires e.topic == "t" && !Refuses(reply)
    ensures var c := FlushOnDeadLink(e, reply); DownFlushing(c, 0) && forall n: nat :: Flush(c, 0, n).queue != []
  {
    PushQueuedState(e);
    var c := PushQueued(e);
    var c1 := Step(c, Tell(Inbound(Some(2), PhxReply, reply)));
    assert c1 == c.(book := c1.book) && c1.book.joiners == c.book.joiners && IsResolved(c1.book, 2);
    assert c1.book.futures[2].payload == reply;
    ShutLeaves(c1);
    ResumesIntoFlush(Step(c1, Lives(SocketClose)), e, reply);
    DownFlushEndsIffNoSurvivor(FlushOnDeadLink(e, reply), 0);
  }

  lemma ResumesIntoFlush(c: Client, e: Entry, reply: Json)
    requires c.autoReconnect && !c.shutdown && c.nextLoop == 1 && c.queue == [e] && e.topic in c.topics.joinRefs
    requires In(c, 0, Awaiting(2)) && c.loops[0].todo == []
    requires 2 in c.book.joiners && c.book.joiners[2].loop == Some(0)
    requires IsResolved(c.book, 2) && c.book.futures[2].payload == reply && !Refuses(reply)
    ensures var d := Step(Step(Step(c, Lives(ReaderEnd)), Tell(JoinResume(2))), Lives(LoopRejoin(0)));
            DownFlushing(d, 0) && Surviving(d.queue, d.topics.joinRefs.Keys) != []
  {
    var c1 := Step(c, Lives(ReaderEnd));
    assert c1 == c.(loops := c1.loops, nextLoop := 2, disconnected := true) && c1.loops[0] == c.loops[0];
    OwnResume(c1, 0, 2);
    var c2 := Step(c1, Tell(JoinResume(2)));
    assert c2 == c1.(book := c2.book, loops := c2.loops);
  }
}
