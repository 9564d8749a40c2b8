/**
 One reconnect attempt whose new socket stays open, interleaved with pushes, calls,
 heartbeats and inbound frames: what it restores, and what the queue does when the
 link is down.
 */
module ChannelReconnect {
  import opened Prelude
  import opened ChannelModel
  import opened ChannelScope

  // ----- suspended re-joins belong to the loop that awaits them -----

  ghost predicate LoopsWF(joiners: map<nat, Joiner>, loops: map<nat, Loop>, nextLoop: nat) {
    (forall r :: r in joiners && joiners[r].loop.Some? ==>
       joiners[r].loop.value in loops && loops[joiners[r].loop.value].phase == Awaiting(r)) &&
    (forall i :: i in loops ==> i < nextLoop)
  }

  ghost predicate Sound(c: Client) {
    Settled(c.book, c.net.counter) && Expected(c.book) && RefsAscend(c.net) && Loopy(c) && Planned(c.loops)
    && |c.queue| <= PENDING_PUSH_CAP
  }

  /** A loop re-joins topics of its own snapshot only. */
  ghost predicate Planned(loops: map<nat, Loop>) {
    forall id, x :: id in loops && x in loops[id].todo ==> x in loops[id].snapshot
  }

  lemma PlanStep(loops: map<nat, Loop>, id: nat, l: Loop)
    requires Planned(loops) && forall x :: x in l.todo ==> x in l.snapshot
    ensures Planned(loops[id := l])
  {
  }

  lemma StepKeepsPlans(c: Client, a: Action)
    requires Planned(c.loops)
    ensures Planned(Step(c, a).loops)
  {
    match a
    case Ask(q) => assert Serve(c, q).loops == c.loops;
    case Tell(g) =>
      var d := Hear(c, g);
      if d.loops != c.loops {
        var id := c.book.joiners[g.ref].loop.value;
        PlanStep(c.loops, id, d.loops[id]);
      }
    case Lives(l) => LiveKeepsPlans(c, l);
  }

  lemma LiveKeepsPlans(c: Client, l: Life)
    requires Planned(c.loops)
    ensures Planned(Live(c, l).loops)
  {
    var d := Live(c, l);
    match l
    case ReaderEnd => PlanStep(c.loops, c.nextLoop, Loop(Connecting, [], map[], map[], {}));
    case LoopConnectOk(id, order) =>
      if d != c {
        assert forall x :: x in order ==> x in (set t | t in order);
        PlanStep(c.loops, id, d.loops[id]);
      }
    case LoopRejoin(id) =>
      if d != c {
        PlanStep(c.loops, id, d.loops[id]);
      }
    case LoopFlush(id) =>
      if d.loops != c.loops {
        PlanStep(c.loops, id, d.loops[id]);
      }
    case _ =>
  }

  ghost predicate Loopy(c: Client) {
    LoopsWF(c.book.joiners, c.loops, c.nextLoop)
  }

  lemma HearKeepsLoops(c: Client, g: Signal)
    requires Loopy(c)
    ensures Loopy(Hear(c, g))
  {
  }

  lemma ReaderEndKeepsLoops(c: Client)
    requires Loopy(c)
    ensures Loopy(DoReaderEnd(c))
  {
  }

  lemma ConnectOkKeepsLoops(c: Client, id: nat, order: seq<string>)
    requires Loopy(c)
    ensures Loopy(DoLoopConnectOk(c, id, order))
  {
  }

  lemma MoveKeepsLoops(js: map<nat, Joiner>, loops: map<nat, Loop>, next: nat, id: nat, l: Loop, n: nat, j: Joiner)
    requires LoopsWF(js, loops, next) && id in loops && !loops[id].phase.Awaiting?
    ensures LoopsWF(js, loops[id := l], next)
    ensures l.phase == Awaiting(n) && j.loop == Some(id) ==> LoopsWF(js[n := j], loops[id := l], next)
  {
  }

  lemma RejoinKeepsLoops(c: Client, id: nat)
    requires Loopy(c)
    ensures Loopy(DoLoopRejoin(c, id))
  {
    if In(c, id, Rejoining) && c.loops[id].todo != [] {
      var d := DoLoopRejoin(c, id);
      MoveKeepsLoops(c.book.joiners, c.loops, c.nextLoop, id, d.loops[id], c.net.counter,
                     Joiner(c.loops[id].todo[0], Some(id)));
    }
  }

  lemma FlushKeepsLoops(c: Client, id: nat)
    requires Loopy(c)
    ensures Loopy(DoLoopFlush(c, id))
  {
  }

  lemma CloseKeepsLoops(c: Client)
    requires Loopy(c)
    ensures Loopy(DoCloseBegin(c))
  {
  }

  lemma LiveKeepsLoops(c: Client, l: Life)
    requires Loopy(c)
    ensures Loopy(Live(c, l))
  {
    match l
    case ReaderEnd => ReaderEndKeepsLoops(c);
    case LoopConnectOk(id, order) => ConnectOkKeepsLoops(c, id, order);
    case LoopRejoin(id) => RejoinKeepsLoops(c, id);
    case LoopFlush(id) => FlushKeepsLoops(c, id);
    case CloseBegin => CloseKeepsLoops(c);
    case _ =>
  }

  lemma ServeKeepsLoops(c: Client, q: Request)
    requires Loopy(c)
    ensures Loopy(Serve(c, q))
  {
  }

  lemma StepKeepsSound(c: Client, a: Action)
    requires Sound(c)
    ensures Sound(Step(c, a))
  {
    StepSettles(c, a);
    StepGrowsNet(c, a);
    StepExpects(c, a);
    StepKeepsLoops(c, a);
    StepKeepsPlans(c, a);
    QueueStaysBounded(c, a);
  }

  lemma PushIsBounded(c: Client, e: Entry, o: Origin)
    requires |c.queue| <= PENDING_PUSH_CAP
    ensures |DoPush(c, e, o).queue| <= PENDING_PUSH_CAP
  {
  }

  lemma QueueStaysBounded(c: Client, a: Action)
    requires |c.queue| <= PENDING_PUSH_CAP
    ensures |Step(c, a).queue| <= PENDING_PUSH_CAP
  {
    match a
    case Ask(q) =>
      if q.Push? {
        PushIsBounded(c, q.entry, ByPush);
      }
    case Tell(g) =>
    case Lives(l) => LiveIsBounded(c, l);
  }

  lemma LiveIsBounded(c: Client, l: Life)
    requires |c.queue| <= PENDING_PUSH_CAP
    ensures |Live(c, l).queue| <= PENDING_PUSH_CAP
  {
    if l.LoopFlush? && c.queue != [] {
      PushIsBounded(c.(queue := c.queue[1..]), c.queue[0], ByFlush);
    }
  }

  lemma StepKeepsLoops(c: Client, a: Action)
    requires Loopy(c)
    ensures Loopy(Step(c, a))
  {
    match a
    case Ask(q) => ServeKeepsLoops(c, q);
    case Tell(g) => HearKeepsLoops(c, g);
    case Lives(l) => LiveKeepsLoops(c, l);
  }

  lemma {:induction false} RunKeepsSound(c: Client, acts: seq<Action>)
    requires Sound(c)
    ensures Sound(Run(c, acts))
    decreases |acts|
  {
    if acts != [] {
      StepKeepsSound(c, acts[0]);
      RunKeepsSound(Step(c, acts[0]), acts[1..]);
    }
  }

  // ----- the attempt -----

  /** The join under ref r is no re-join of loop id, and it concerns a topic of others or was accepted. */
  ghost predicate Foreign(c: Client, r: nat, id: nat, others: set<string>)
    requires r in c.book.joiners
  {
    && c.book.joiners[r].loop != Some(id)
    && (c.book.joiners[r].topic in others
        || (r in c.book.futures && c.book.futures[r].Resolved? ==> !Refuses(c.book.futures[r].payload)))
  }

  ghost predicate CalmAsk(q: Request, others: set<string>) {
    q.Push? || q.Call? || q.Heartbeat? || (q.Join? && q.topic in others)
  }

  ghost predicate CalmTell(c: Client, g: Signal, id: nat, others: set<string>) {
    g.JoinResume? && g.ref in c.book.joiners ==>
      c.book.joiners[g.ref].loop == Some(id) || Foreign(c, g.ref, id, others)
  }

  /** Steps that may happen around loop id while its socket stays open; only topics of others are joined besides. */
  ghost predicate Calm(c: Client, a: Action, id: nat, others: set<string>) {
    match a
    case Ask(q) => CalmAsk(q, others)
    case Tell(g) => CalmTell(c, g, id, others)
    case Lives(l) => l == LoopRejoin(id) || l == LoopFlush(id)
  }

  ghost predicate CalmRun(c: Client, acts: seq<Action>, id: nat, others: set<string>)
    decreases |acts|
  {
    acts == [] || (Calm(c, acts[0], id, others) && CalmRun(Step(c, acts[0]), acts[1..], id, others))
  }

  /** The topics that are not in others. */
  ghost function Rest(t: Topics, others: set<string>): Topics {
    Topics(t.joinRefs - others, t.handlers - others)
  }

  ghost predicate QueueApart(q: seq<Entry>, others: set<string>) {
    forall i :: 0 <= i < |q| ==> q[i].topic !in others
  }

  /** others has no topic the attempt from s restores or flushes to. */
  ghost predicate Apart(s: Client, others: set<string>) {
    s.topics.handlers.Keys !! others && QueueApart(s.queue, others)
  }

  lemma RestFollows(t: Topics, others: set<string>, x: string, handler: Handler, ref: nat)
    ensures x in others ==> Rest(Record(t, x, handler, ref), others) == Rest(t, others) == Rest(Forget(t, x), others)
    ensures x !in others ==> Rest(Record(t, x, handler, ref), others) == Record(Rest(t, others), x, handler, ref)
    ensures x !in others ==> Rest(Forget(t, x), others) == Forget(Rest(t, others), x)
  {
  }

  /** The queued pushes whose topic is still joined, in order. */
  ghost function Surviving(q: seq<Entry>, joined: set<string>): seq<Entry> {
    if q == [] then [] else (if q[0].topic in joined then [q[0]] else []) + Surviving(q[1..], joined)
  }

  /** The pushes a flush wrote on connection k, in wire order. */
  ghost function FlushedOn(w: seq<Sent>, k: nat): seq<Entry> {
    if w == [] then []
    else
      var s := w[|w| - 1];
      FlushedOn(w[..|w| - 1], k) +
      (if s.conn == k && s.origin == ByFlush then [Entry(s.frame.topic, s.frame.event, s.frame.payload)] else [])
  }

  /** Joined topics are those asked so far and not refused, under the snapshot's handlers and the attempt's refs. */
  ghost predicate TopicsRestored(was: map<string, Handler>, since: nat, l: Loop, t: Topics) {
    && l.snapshot == was
    && NoDup(l.todo)
    && (forall x :: x in was <==> x in l.todo || x in l.asked)
    && (forall x :: x in l.asked ==> x !in l.todo)
    && (forall x :: x in l.refused ==> x in l.asked)
    && (forall x :: x in t.joinRefs <==> x in l.asked && x !in l.refused)
    && (forall x :: x in t.handlers <==> x in t.joinRefs)
    && (forall x :: x in t.joinRefs ==> t.handlers[x] == was[x] && t.joinRefs[x] == l.asked[x])
    && (forall x :: x in l.asked ==> since <= l.asked[x])
    && l.phase != Connecting
    && (l.phase == Flushing || l.phase == Finished ==> l.todo == [])
  }

  /** Topic x has its answer, and it is refused exactly when that answer refuses. */
  ghost predicate Answered(l: Loop, b: Book, x: string)
    requires x in l.asked
  {
    && l.asked[x] in b.futures && b.futures[l.asked[x]].Resolved?
    && (x in l.refused <==> Refuses(b.futures[l.asked[x]].payload))
  }

  ghost predicate AnswersKept(id: nat, l: Loop, b: Book, counter: nat) {
    && (forall x :: x in l.asked ==> l.asked[x] < counter)
    && (forall x, y :: x in l.asked && y in l.asked && x != y ==> l.asked[x] != l.asked[y])
    && (forall x :: x in l.asked && l.phase != Awaiting(l.asked[x]) ==> Answered(l, b, x))
    && (l.phase.Awaiting? ==>
          var r := l.phase.ref;
          && r in b.joiners && b.joiners[r].loop == Some(id) && b.joiners[r].topic in l.asked
          && l.asked[b.joiners[r].topic] == r && b.joiners[r].topic !in l.refused)
  }

  /** The flush so far plus what is left of the queue is the old queue, restricted to joined topics. */
  ghost predicate QueueKept(was: seq<Entry>, k: nat, l: Loop, n: Net, q: seq<Entry>, joined: set<string>) {
    && n.link == Open && n.conn == k
    && (forall x :: x in l.asked ==> Introduced(n.wire, k, x, l.asked[x]))
    && (l.phase != Flushing && l.phase != Finished ==> q == was && FlushedOn(n.wire, k) == [])
    && (l.phase == Flushing || l.phase == Finished ==>
          FlushedOn(n.wire, k) + Surviving(q, joined) == Surviving(was, joined))
    && (l.phase == Finished ==> q == [])
  }

  /** c is inside the attempt that loop id started from s, while callers may join the topics of others. */
  ghost predicate Attempt(s: Client, id: nat, others: set<string>, c: Client) {
    && id in c.loops && !c.disconnected && QueueApart(c.queue, others) && s.topics.handlers.Keys !! others
    && s.net.counter <= c.net.counter
    && TopicsRestored(s.topics.handlers, s.net.counter, c.loops[id], Rest(c.topics, others))
    && AnswersKept(id, c.loops[id], c.book, c.net.counter)
    && QueueKept(s.queue, s.net.conn + 1, c.loops[id], c.net, c.queue, Rest(c.topics, others).joinRefs.Keys)
  }

  lemma {:induction false} NothingFlushedYet(w: seq<Sent>, k: nat)
    requires forall i :: 0 <= i < |w| ==> w[i].conn < k
    ensures FlushedOn(w, k) == []
    decreases |w|
  {
    if w != [] {
      NothingFlushedYet(w[..|w| - 1], k);
    }
  }

  lemma FlushedAppend(w: seq<Sent>, s: Sent, k: nat)
    ensures FlushedOn(w + [s], k) == FlushedOn(w, k) +
              (if s.conn == k && s.origin == ByFlush then [Entry(s.frame.topic, s.frame.event, s.frame.payload)] else [])
  {
  }

  lemma AttemptBegins(s: Client, id: nat, others: set<string>, order: seq<string>)
    requires Sound(s) && In(s, id, Connecting) && Enumerates(order, s.topics.handlers.Keys) && Apart(s, others)
    ensures Attempt(s, id, others, Live(s, LoopConnectOk(id, order)))
  {
    NothingFlushedYet(s.net.wire, s.net.conn + 1);
    assert Rest(Topics(map[], map[]), others) == Topics(map[], map[]);
  }

  /** A write that is no flush keeps the queue account. */
  lemma EmitKeepsQueue(was: seq<Entry>, k: nat, l: Loop, n: Net, q: seq<Entry>, joined: set<string>,
                       jr: Option<nat>, e: Entry, o: Origin)
    requires QueueKept(was, k, l, n, q, joined) && o != ByFlush
    ensures QueueKept(was, k, l, Emit(n, jr, e, o), q, joined)
  {
    var s := Sent(n.conn, Frame(jr, n.counter, e.topic, e.event, e.payload), o);
    FlushedAppend(n.wire, s, k);
    forall x | x in l.asked ensures Introduced(n.wire + [s], k, x, l.asked[x]) {
      IntroducedAppend(n.wire, s, k, x, l.asked[x]);
    }
  }

  /** Answers survive any step that keeps settled futures and the awaited joiner. */
  lemma AnswersFollow(id: nat, l: Loop, b: Book, n: nat, b1: Book, n1: nat)
    requires AnswersKept(id, l, b, n) && n <= n1
    requires forall r :: r in b.futures && b.futures[r].Resolved? ==> r in b1.futures && b1.futures[r] == b.futures[r]
    requires l.phase.Awaiting? ==> l.phase.ref in b1.joiners && b1.joiners[l.phase.ref] == b.joiners[l.phase.ref]
    ensures AnswersKept(id, l, b1, n1)
  {
  }

  /** The three accounts carry over to a step that leaves loop id and the topics outside others alone. */
  lemma AttemptFollows(s: Client, id: nat, others: set<string>, c: Client, d: Client)
    requires Attempt(s, id, others, c)
    requires Rest(d.topics, others) == Rest(c.topics, others) && d.disconnected == c.disconnected
    requires id in d.loops && d.loops[id] == c.loops[id] && c.net.counter <= d.net.counter && QueueApart(d.queue, others)
    requires AnswersKept(id, c.loops[id], d.book, d.net.counter)
    requires QueueKept(s.queue, s.net.conn + 1, c.loops[id], d.net, d.queue, Rest(c.topics, others).joinRefs.Keys)
    ensures Attempt(s, id, others, d)
  {
  }

  lemma AskKeepsAttempt(s: Client, id: nat, others: set<string>, c: Client, q: Request)
    requires Settled(c.book, c.net.counter) && Attempt(s, id, others, c) && CalmAsk(q, others)
    ensures Attempt(s, id, others, Serve(c, q))
  {
    AskKeepsAnswers(id, others, c, q);
    AskKeepsQueue(s, c.loops[id], others, c, q);
    AskKeepsRest(others, c, q);
    AttemptFollows(s, id, others, c, Serve(c, q));
  }

  lemma AskKeepsRest(others: set<string>, c: Client, q: Request)
    requires CalmAsk(q, others) && !c.disconnected
    ensures var d := Serve(c, q);
            && Rest(d.topics, others) == Rest(c.topics, others) && d.loops == c.loops
            && d.disconnected == c.disconnected && d.queue == c.queue && c.net.counter <= d.net.counter
  {
    if q.Join? {
      RestFollows(c.topics, others, q.topic, q.handler, c.net.counter);
    }
  }

  lemma AskKeepsAnswers(id: nat, others: set<string>, c: Client, q: Request)
    requires Settled(c.book, c.net.counter) && id in c.loops && AnswersKept(id, c.loops[id], c.book, c.net.counter)
    requires CalmAsk(q, others)
    ensures AnswersKept(id, c.loops[id], Serve(c, q).book, Serve(c, q).net.counter)
  {
    ServeSettles(c, q);
    ServeKeepsJoiners(c, q);
    var d := Serve(c, q);
    AnswersFollow(id, c.loops[id], c.book, c.net.counter, d.book, d.net.counter);
  }

  lemma ServeKeepsJoiners(c: Client, q: Request)
    ensures c.net.counter <= Serve(c, q).net.counter
    ensures forall r :: r in c.book.joiners && r < c.net.counter ==>
              r in Serve(c, q).book.joiners && Serve(c, q).book.joiners[r] == c.book.joiners[r]
  {
  }

  lemma AskKeepsQueue(s: Client, l: Loop, others: set<string>, c: Client, q: Request)
    requires QueueKept(s.queue, s.net.conn + 1, l, c.net, c.queue, Rest(c.topics, others).joinRefs.Keys)
    requires CalmAsk(q, others) && !c.disconnected
    ensures QueueKept(s.queue, s.net.conn + 1, l, Serve(c, q).net, c.queue, Rest(c.topics, others).joinRefs.Keys)
  {
    var k, joined := s.net.conn + 1, Rest(c.topics, others).joinRefs.Keys;
    match q
    case Push(e) =>
      if e.topic in c.topics.joinRefs {
        EmitKeepsQueue(s.queue, k, l, c.net, c.queue, joined, Some(c.topics.joinRefs[e.topic]), e, ByPush);
      }
    case Call(e) =>
      if e.topic in c.topics.joinRefs {
        EmitKeepsQueue(s.queue, k, l, c.net, c.queue, joined, Some(c.topics.joinRefs[e.topic]), e, ByCall);
      }
    case Join(topic, _) =>
      EmitKeepsQueue(s.queue, k, l, c.net, c.queue, joined, Some(c.net.counter), Entry(topic, PhxJoin, EMPTY_OBJ), ByJoin);
    case Heartbeat =>
      EmitKeepsQueue(s.queue, k, l, c.net, c.queue, joined, None, Entry("phoenix", Beat, EMPTY_OBJ), ByHeartbeat);
  }

  lemma TellKeepsAnswers(id: nat, c: Client, g: Signal)
    requires Settled(c.book, c.net.counter) && id in c.loops && AnswersKept(id, c.loops[id], c.book, c.net.counter)
    requires g.JoinResume? && g.ref in c.book.joiners ==> c.book.joiners[g.ref].loop != Some(id)
    ensures AnswersKept(id, c.loops[id], Hear(c, g).book, c.net.counter)
  {
    HearSettles(c, g);
    AnswersFollow(id, c.loops[id], c.book, c.net.counter, Hear(c, g).book, c.net.counter);
  }

  lemma TellKeepsAttempt(s: Client, id: nat, others: set<string>, c: Client, g: Signal)
    requires Settled(c.book, c.net.counter) && Attempt(s, id, others, c)
    requires g.JoinResume? && g.ref in c.book.joiners ==> Foreign(c, g.ref, id, others)
    ensures Attempt(s, id, others, Hear(c, g))
  {
    TellKeepsAnswers(id, c, g);
    if g.JoinResume? && g.ref in c.book.joiners {
      RestFollows(c.topics, others, c.book.joiners[g.ref].topic, 0, 0);
    }
    AttemptFollows(s, id, others, c, Hear(c, g));
  }

  lemma ResumeKeepsTopics(was: map<string, Handler>, since: nat, l: Loop, t: Topics, x: string, no: bool)
    requires TopicsRestored(was, since, l, t) && x in l.asked && x !in l.refused && l.phase.Awaiting?
    ensures TopicsRestored(was, since, l.(phase := Rejoining, refused := if no then l.refused + {x} else l.refused),
                           if no then Forget(t, x) else t)
  {
  }

  lemma ResumeKeepsAnswers(id: nat, l: Loop, b: Book, n: nat, r: nat)
    requires AnswersKept(id, l, b, n) && l.phase == Awaiting(r) && r in b.futures && b.futures[r].Resolved?
    ensures var x, no := b.joiners[r].topic, Refuses(b.futures[r].payload);
            AnswersKept(id, l.(phase := Rejoining, refused := if no then l.refused + {x} else l.refused),
                        b.(joiners := b.joiners - {r}), n)
  {
  }

  lemma ResumeKeepsAttempt(s: Client, id: nat, others: set<string>, c: Client, r: nat)
    requires Loopy(c) && Attempt(s, id, others, c) && r in c.book.joiners && c.book.joiners[r].loop == Some(id)
    ensures Attempt(s, id, others, DoJoinResume(c, r))
  {
    if r in c.book.futures && c.book.futures[r].Resolved? {
      var l, j, no := c.loops[id], c.book.joiners[r], Refuses(c.book.futures[r].payload);
      ResumeKeepsTopics(s.topics.handlers, s.net.counter, l, Rest(c.topics, others), j.topic, no);
      ResumeKeepsAnswers(id, l, c.book, c.net.counter, r);
      RestFollows(c.topics, others, j.topic, 0, 0);
    }
  }

  // ----- the loop's own moves -----

  function Asking(l: Loop, n: nat): Loop
    requires l.todo != []
  {
    l.(todo := l.todo[1..], asked := l.asked[l.todo[0] := n], phase := Awaiting(n))
  }

  lemma RejoinKeepsTopics(was: map<string, Handler>, since: nat, l: Loop, t: Topics, n: nat)
    requires TopicsRestored(was, since, l, t) && l.phase == Rejoining && l.todo != [] && since <= n
    ensures l.todo[0] in was && l.todo[0] !in l.asked && l.todo[0] !in l.refused
    ensures TopicsRestored(was, since, Asking(l, n), Record(t, l.todo[0], was[l.todo[0]], n))
  {
    var x, rest := l.todo[0], l.todo[1..];
    assert l.todo == [x] + rest;
    assert forall y :: y in l.todo <==> y == x || y in rest;
    assert x !in rest;
  }

  lemma RejoinKeepsAnswers(id: nat, l: Loop, b: Book, n: nat)
    requires AnswersKept(id, l, b, n) && l.phase == Rejoining && l.todo != []
    requires l.todo[0] !in l.asked && l.todo[0] !in l.refused
    ensures AnswersKept(id, Asking(l, n), Register(b, n).(joiners := b.joiners[n := Joiner(l.todo[0], Some(id))]), n + 1)
  {
  }

  lemma RejoinKeepsQueue(was: seq<Entry>, k: nat, l: Loop, n: Net, q: seq<Entry>, j: set<string>, j1: set<string>)
    requires QueueKept(was, k, l, n, q, j) && l.phase == Rejoining && l.todo != []
    ensures QueueKept(was, k, Asking(l, n.counter),
                      Emit(n, Some(n.counter), Entry(l.todo[0], PhxJoin, EMPTY_OBJ), ByJoin), q, j1)
  {
    var e := Entry(l.todo[0], PhxJoin, EMPTY_OBJ);
    EmitKeepsQueue(was, k, l, n, q, j, Some(n.counter), e, ByJoin);
    var s := Sent(n.conn, Frame(Some(n.counter), n.counter, e.topic, e.event, e.payload), ByJoin);
    IntroducedAppend(n.wire, s, k, l.todo[0], n.counter);
  }

  /** d is c after loop id has started its next re-join on an open socket. */
  ghost predicate Asks(c: Client, id: nat, d: Client) {
    && In(c, id, Rejoining) && c.loops[id].todo != [] && c.loops[id].todo[0] in c.loops[id].snapshot
    && var l, n := c.loops[id], c.net.counter;
    && d.loops == c.loops[id := Asking(l, n)] && d.disconnected == c.disconnected && d.queue == c.queue
    && d.topics == Record(c.topics, l.todo[0], l.snapshot[l.todo[0]], n)
    && d.book == Register(c.book, n).(joiners := c.book.joiners[n := Joiner(l.todo[0], Some(id))])
    && d.net == Emit(c.net, Some(n), Entry(l.todo[0], PhxJoin, EMPTY_OBJ), ByJoin)
  }

  lemma RejoinAsks(c: Client, id: nat)
    requires In(c, id, Rejoining) && c.loops[id].todo != [] && c.loops[id].todo[0] in c.loops[id].snapshot
    requires c.net.link == Open
    ensures Asks(c, id, DoLoopRejoin(c, id))
  {
  }

  lemma AsksKeepsAttempt(s: Client, id: nat, others: set<string>, c: Client, d: Client)
    requires Attempt(s, id, others, c) && Asks(c, id, d)
    ensures Attempt(s, id, others, d)
  {
    var l, n := c.loops[id], c.net.counter;
    RejoinKeepsTopics(s.topics.handlers, s.net.counter, l, Rest(c.topics, others), n);
    RestFollows(c.topics, others, l.todo[0], s.topics.handlers[l.todo[0]], n);
    RejoinKeepsAnswers(id, l, c.book, n);
    RejoinKeepsQueue(s.queue, s.net.conn + 1, l, c.net, c.queue, Rest(c.topics, others).joinRefs.Keys,
                     Rest(d.topics, others).joinRefs.Keys);
  }

  lemma AllAskedKeepsAttempt(s: Client, id: nat, others: set<string>, c: Client, d: Client)
    requires Attempt(s, id, others, c) && In(c, id, Rejoining) && c.loops[id].todo == []
    requires d == c.(loops := c.loops[id := c.loops[id].(phase := Flushing)])
    ensures Attempt(s, id, others, d)
  {
    PhaseOnly(s.topics.handlers, s.net.counter, c.loops[id], Rest(c.topics, others), Flushing);
    FlushBegins(id, s.queue, s.net.conn + 1, c.loops[id], c.book, c.net, c.queue, Rest(c.topics, others).joinRefs.Keys);
  }

  lemma PhaseOnly(was: map<string, Handler>, since: nat, l: Loop, t: Topics, p: Phase)
    requires TopicsRestored(was, since, l, t) && p != Connecting && (p == Flushing || p == Finished ==> l.todo == [])
    ensures TopicsRestored(was, since, l.(phase := p), t)
  {
  }

  lemma FlushBegins(id: nat, was: seq<Entry>, k: nat, l: Loop, b: Book, n: Net, q: seq<Entry>, joined: set<string>)
    requires l.phase == Rejoining && AnswersKept(id, l, b, n.counter) && QueueKept(was, k, l, n, q, joined)
    ensures AnswersKept(id, l.(phase := Flushing), b, n.counter) && QueueKept(was, k, l.(phase := Flushing), n, q, joined)
  {
  }

  lemma NextIsKnown(s: Client, id: nat, others: set<string>, c: Client)
    requires Attempt(s, id, others, c) && c.loops[id].todo != []
    ensures c.loops[id].todo[0] in c.loops[id].snapshot && c.net.link == Open
  {
  }

  lemma RejoinKeepsAttempt(s: Client, id: nat, others: set<string>, c: Client)
    requires Attempt(s, id, others, c)
    ensures Attempt(s, id, others, DoLoopRejoin(c, id))
  {
    if c.loops[id].phase != Rejoining {
      assert DoLoopRejoin(c, id) == c;
    } else if c.loops[id].todo == [] {
      AllAskedKeepsAttempt(s, id, others, c, DoLoopRejoin(c, id));
    } else {
      NextIsKnown(s, id, others, c);
      RejoinAsks(c, id);
      AsksKeepsAttempt(s, id, others, c, DoLoopRejoin(c, id));
    }
  }

  lemma FlushKeepsQueue(was: seq<Entry>, k: nat, l: Loop, n: Net, q: seq<Entry>, joinRefs: map<string, nat>)
    requires QueueKept(was, k, l, n, q, joinRefs.Keys) && l.phase == Flushing && q != []
    ensures QueueKept(was, k, l,
                      if q[0].topic in joinRefs then Emit(n, Some(joinRefs[q[0].topic]), q[0], ByFlush) else n,
                      q[1..], joinRefs.Keys)
  {
    var e := q[0];
    if e.topic in joinRefs {
      var s := Sent(n.conn, Frame(Some(joinRefs[e.topic]), n.counter, e.topic, e.event, e.payload), ByFlush);
      FlushedAppend(n.wire, s, k);
      forall x | x in l.asked ensures Introduced(n.wire + [s], k, x, l.asked[x]) {
        IntroducedAppend(n.wire, s, k, x, l.asked[x]);
      }
      assert FlushedOn(n.wire, k) + Surviving(q, joinRefs.Keys)
          == (FlushedOn(n.wire, k) + [e]) + Surviving(q[1..], joinRefs.Keys);
    }
  }

  /** d is c after one queued push was written, or dropped because its topic is gone. */
  ghost predicate Flushes(c: Client, d: Client) {
    && c.queue != [] && d.queue == c.queue[1..] && d.book == c.book && d.topics == c.topics && d.loops == c.loops
    && d.disconnected == c.disconnected
    && d.net == if c.queue[0].topic in c.topics.joinRefs
                then Emit(c.net, Some(c.topics.joinRefs[c.queue[0].topic]), c.queue[0], ByFlush) else c.net
  }

  /** One flush step on an open link moves one push from the queue's account to the wire's. */
  lemma FlushAccount(c: Client, d: Client)
    requires Flushes(c, d) && c.net.link == Open
    ensures FlushedOn(d.net.wire, d.net.conn) + Surviving(d.queue, d.topics.joinRefs.Keys)
         == FlushedOn(c.net.wire, c.net.conn) + Surviving(c.queue, c.topics.joinRefs.Keys)
    ensures d.net.link == Open && d.net.conn == c.net.conn
  {
  }

  lemma FlushesKeepsAttempt(s: Client, id: nat, others: set<string>, c: Client, d: Client)
    requires Attempt(s, id, others, c) && c.loops[id].phase == Flushing && Flushes(c, d)
    ensures Attempt(s, id, others, d)
  {
    FlushKeepsQueue(s.queue, s.net.conn + 1, c.loops[id], c.net, c.queue, Rest(c.topics, others).joinRefs);
    AnswersFollow(id, c.loops[id], c.book, c.net.counter, d.book, d.net.counter);
    AttemptFollows(s, id, others, c, d);
  }

  lemma FlushKeepsAttempt(s: Client, id: nat, others: set<string>, c: Client)
    requires Attempt(s, id, others, c)
    ensures Attempt(s, id, others, DoLoopFlush(c, id))
  {
    if c.loops[id].phase == Flushing && c.queue != [] {
      FlushWrites(c, id);
      FlushesKeepsAttempt(s, id, others, c, DoLoopFlush(c, id));
    }
  }

  lemma FlushWrites(c: Client, id: nat)
    requires In(c, id, Flushing) && c.queue != [] && !c.disconnected
    ensures Flushes(c, DoLoopFlush(c, id))
  {
  }

  lemma OwnMoveKeepsAttempt(s: Client, id: nat, others: set<string>, c: Client, l: Life)
    requires Attempt(s, id, others, c) && (l == LoopRejoin(id) || l == LoopFlush(id))
    ensures Attempt(s, id, others, Live(c, l))
  {
    if l == LoopRejoin(id) {
      RejoinKeepsAttempt(s, id, others, c);
    } else {
      FlushKeepsAttempt(s, id, others, c);
    }
  }

  lemma HearKeepsAttempt(s: Client, id: nat, others: set<string>, c: Client, g: Signal)
    requires Sound(c) && Attempt(s, id, others, c) && CalmTell(c, g, id, others)
    ensures Attempt(s, id, others, Hear(c, g))
  {
    if g.JoinResume? && g.ref in c.book.joiners && c.book.joiners[g.ref].loop == Some(id) {
      ResumeKeepsAttempt(s, id, others, c, g.ref);
    } else {
      TellKeepsAttempt(s, id, others, c, g);
    }
  }

  lemma StepKeepsAttempt(s: Client, id: nat, others: set<string>, c: Client, a: Action)
    requires Sound(c) && Attempt(s, id, others, c) && Calm(c, a, id, others)
    ensures Attempt(s, id, others, Step(c, a))
  {
    match a
    case Ask(q) => AskKeepsAttempt(s, id, others, c, q);
    case Tell(g) => HearKeepsAttempt(s, id, others, c, g);
    case Lives(l) => OwnMoveKeepsAttempt(s, id, others, c, l);
  }

  lemma {:induction false} RunKeepsAttempt(s: Client, id: nat, others: set<string>, c: Client, acts: seq<Action>)
    requires Sound(c) && Attempt(s, id, others, c) && CalmRun(c, acts, id, others)
    ensures Attempt(s, id, others, Run(c, acts))
    decreases |acts|
  {
    if acts != [] {
      StepKeepsAttempt(s, id, others, c, acts[0]);
      StepKeepsSound(c, acts[0]);
      RunKeepsAttempt(s, id, others, Step(c, acts[0]), acts[1..]);
    }
  }

  /** Moves loop id still has to make: two per topic, one to start the flush, one per entry, one to return. */
  ghost function Left(l: Loop, q: seq<Entry>): nat {
    match l.phase
    case Awaiting(_) => 2 * |l.todo| + 2 + |q| + 1
    case Rejoining => 2 * |l.todo| + 1 + |q| + 1
    case Flushing => |q| + 1
    case _ => 0
  }

  /** A move of loop id that is enabled in c. */
  ghost predicate Moves(c: Client, a: Action, id: nat)
    requires id in c.loops
  {
    match c.loops[id].phase
    case Awaiting(r) => a == Tell(JoinResume(r)) && r in c.book.futures && c.book.futures[r].Resolved?
    case Rejoining => a == Lives(LoopRejoin(id))
    case Flushing => a == Lives(LoopFlush(id))
    case _ => false
  }

  /** d keeps loop id, with one move less if a was one of its moves and as many otherwise. */
  ghost predicate Counts(c: Client, a: Action, id: nat, d: Client)
    requires id in c.loops
  {
    id in d.loops && Left(d.loops[id], d.queue) == Left(c.loops[id], c.queue) - (if Moves(c, a, id) then 1 else 0)
  }

  lemma AskCounts(id: nat, others: set<string>, c: Client, q: Request)
    requires id in c.loops && !c.disconnected && CalmAsk(q, others)
    ensures Counts(c, Ask(q), id, Serve(c, q))
  {
  }

  lemma TellCounts(id: nat, others: set<string>, c: Client, g: Signal)
    requires Loopy(c) && id in c.loops && AnswersKept(id, c.loops[id], c.book, c.net.counter)
    requires CalmTell(c, g, id, others)
    ensures Counts(c, Tell(g), id, Hear(c, g))
  {
  }

  lemma RejoinCounts(id: nat, c: Client)
    requires id in c.loops && c.net.link == Open
    requires c.loops[id].todo != [] ==> c.loops[id].todo[0] in c.loops[id].snapshot
    ensures Counts(c, Lives(LoopRejoin(id)), id, DoLoopRejoin(c, id))
  {
  }

  lemma FlushCounts(id: nat, c: Client)
    requires id in c.loops && !c.disconnected
    ensures Counts(c, Lives(LoopFlush(id)), id, DoLoopFlush(c, id))
  {
  }

  lemma OwnCounts(id: nat, c: Client, l: Life)
    requires id in c.loops && !c.disconnected && c.net.link == Open && (l == LoopRejoin(id) || l == LoopFlush(id))
    requires c.loops[id].todo != [] ==> c.loops[id].todo[0] in c.loops[id].snapshot
    ensures Counts(c, Lives(l), id, Live(c, l))
  {
    if l == LoopRejoin(id) {
      RejoinCounts(id, c);
    } else {
      FlushCounts(id, c);
    }
  }

  /**
   While the link is up the flush terminates: every move of the loop uses up exactly one of
   the moves left, and nothing else changes their number.
   */
  lemma MovesRunOut(s: Client, id: nat, others: set<string>, c: Client, a: Action)
    requires Loopy(c) && Attempt(s, id, others, c) && Calm(c, a, id, others)
    ensures Counts(c, a, id, Step(c, a))
  {
    match a
    case Ask(q) => AskCounts(id, others, c, q);
    case Tell(g) => TellCounts(id, others, c, g);
    case Lives(l) =>
      if c.loops[id].todo != [] {
        NextIsKnown(s, id, others, c);
      }
      OwnCounts(id, c, l);
  }

  /** No move is left exactly when the loop has returned; until then it can move unless it awaits an answer. */
  lemma MovesLeft(s: Client, id: nat, others: set<string>, c: Client)
    requires Attempt(s, id, others, c)
    ensures Left(c.loops[id], c.queue) == 0 <==> c.loops[id].phase == Finished
    ensures c.loops[id].phase == Finished || c.loops[id].phase.Awaiting?
         || Moves(c, Lives(LoopRejoin(id)), id) || Moves(c, Lives(LoopFlush(id)), id)
  {
  }

  /** A recorded reply under ref r decides: the topic is kept unless that is an object whose status is not "ok". */
  ghost predicate DecidedBy(r: nat, b: Book, kept: bool) {
    exists reply :: (r, reply) in b.replies
                    && (kept <==> (reply.JObj? ==> "status" in reply.fields && reply.fields["status"] == JStr("ok")))
  }

  lemma AnsweredDecides(l: Loop, b: Book, n: nat, x: string, kept: bool)
    requires Settled(b, n) && x in l.asked && Answered(l, b, x) && (kept <==> x !in l.refused)
    ensures DecidedBy(l.asked[x], b, kept)
  {
    var reply := b.futures[l.asked[x]].payload;
    assert (l.asked[x], reply) in b.replies;
  }

  /**
   What an attempt leaves behind: apart from the topics other callers joined meanwhile, the
   joined topics are exactly the old ones minus those whose re-join the server refused, by a
   reply whose status is not "ok"; they have the old handlers and fresh refs introduced on the
   new connection; the pushes flushed onto that connection are exactly the queued ones with
   surviving topics, once each, in FIFO order.
   */
  ghost predicate Restored(s: Client, l: Loop, others: set<string>, e: Client) {
    && l.asked.Keys == s.topics.handlers.Keys
    && e.topics.joinRefs.Keys - others == s.topics.handlers.Keys - l.refused
    && e.topics.handlers.Keys - others == e.topics.joinRefs.Keys - others
    && (forall x :: x in s.topics.handlers ==> DecidedBy(l.asked[x], e.book, x in e.topics.joinRefs))
    && (forall x :: x in e.topics.joinRefs && x !in others ==>
          && x in e.topics.handlers && x in s.topics.handlers && e.topics.handlers[x] == s.topics.handlers[x]
          && s.net.counter <= e.topics.joinRefs[x]
          && Introduced(e.net.wire, s.net.conn + 1, x, e.topics.joinRefs[x]))
    && e.queue == []
    && FlushedOn(e.net.wire, s.net.conn + 1) == Surviving(s.queue, e.topics.joinRefs.Keys - others)
  }

  lemma AttemptEnds(s: Client, id: nat, others: set<string>, e: Client)
    requires Settled(e.book, e.net.counter) && Attempt(s, id, others, e) && In(e, id, Finished)
    ensures Restored(s, e.loops[id], others, e)
  {
    AllDecided(s, id, others, e);
    var rest, l := Rest(e.topics, others), e.loops[id];
    AllAsked(s.topics.handlers, s.net.counter, l, rest);
    assert rest.joinRefs.Keys == e.topics.joinRefs.Keys - others && rest.handlers.Keys == e.topics.handlers.Keys - others;
    assert Surviving([], rest.joinRefs.Keys) == [];
    forall x | x in e.topics.joinRefs && x !in others
      ensures x in e.topics.handlers && x in s.topics.handlers && e.topics.handlers[x] == s.topics.handlers[x]
      ensures s.net.counter <= e.topics.joinRefs[x] && Introduced(e.net.wire, s.net.conn + 1, x, e.topics.joinRefs[x])
    {
      assert x in rest.joinRefs && x in rest.handlers && x in l.asked;
      assert e.topics.joinRefs[x] == rest.joinRefs[x] == l.asked[x];
    }
  }

  lemma AllDecided(s: Client, id: nat, others: set<string>, e: Client)
    requires Settled(e.book, e.net.counter) && Attempt(s, id, others, e) && In(e, id, Finished)
    ensures var l := e.loops[id];
            forall x :: x in s.topics.handlers ==> x in l.asked && DecidedBy(l.asked[x], e.book, x in e.topics.joinRefs)
  {
    var l, rest := e.loops[id], Rest(e.topics, others);
    forall x | x in s.topics.handlers ensures x in l.asked && DecidedBy(l.asked[x], e.book, x in e.topics.joinRefs) {
      assert x in rest.joinRefs <==> x in e.topics.joinRefs;
      AnsweredDecides(l, e.book, e.net.counter, x, x in e.topics.joinRefs);
    }
  }

  lemma AllAsked(was: map<string, Handler>, since: nat, l: Loop, t: Topics)
    requires TopicsRestored(was, since, l, t) && l.phase == Finished
    ensures l.asked.Keys == was.Keys && t.handlers.Keys == t.joinRefs.Keys == was.Keys - l.refused
    ensures forall x :: x in t.joinRefs ==> t.handlers[x] == was[x] && t.joinRefs[x] == l.asked[x] && since <= t.joinRefs[x]
  {
  }

  /**
   Any reachable state s, any loop id that connects, any calm run while its socket stays open:
   pushes, calls, heartbeats, inbound frames, and joins of any topics that are neither to be
   re-joined nor the topic of a queued push.
   */
  lemma ReconnectRestores(auto: bool, before: seq<Action>, s: Client, id: nat, order: seq<string>, others: set<string>,
                          acts: seq<Action>, e: Client)
    requires s == Run(Init(auto), before) && In(s, id, Connecting) && Enumerates(order, s.topics.handlers.Keys)
    requires Apart(s, others) && CalmRun(Live(s, LoopConnectOk(id, order)), acts, id, others)
    requires e == Run(Live(s, LoopConnectOk(id, order)), acts) && In(e, id, Finished)
    ensures Restored(s, e.loops[id], others, e)
  {
    RunKeepsSound(Init(auto), before);
    StepKeepsSound(s, Lives(LoopConnectOk(id, order)));
    AttemptBegins(s, id, others, order);
    RunKeepsAttempt(s, id, others, Live(s, LoopConnectOk(id, order)), acts);
    RunKeepsSound(Live(s, LoopConnectOk(id, order)), acts);
    AttemptEnds(s, id, others, e);
  }

  // ----- the queue while the link is down -----

  /** The pushes of a run that found their topic joined. */
  ghost function Accepted(c: Client, acts: seq<Action>): seq<Entry>
    decreases |acts|
  {
    if acts == [] then []
    else
      (match acts[0]
       case Ask(Push(e)) => if e.topic in c.topics.joinRefs then [e] else []
       case _ => [])
      + Accepted(Step(c, acts[0]), acts[1..])
  }

  /** Nothing reconnects or flushes. */
  ghost predicate StaysDown(acts: seq<Action>) {
    forall i :: 0 <= i < |acts| ==>
      acts[i] != Ask(Connect) && !(acts[i].Lives? && (acts[i].life.LoopConnectOk? || acts[i].life.LoopFlush?))
  }

  lemma DownStep(c: Client, a: Action)
    requires c.disconnected && StaysDown([a])
    ensures Step(c, a).disconnected
    ensures Step(c, a).queue == match a
                                case Ask(Push(e)) =>
                                  if e.topic in c.topics.joinRefs then Enqueue(c.queue, e) else c.queue
                                case _ => c.queue
  {
    assert [a][0] == a;
    match a
    case Ask(q) =>
    case Tell(g) =>
    case Lives(l) =>
  }

  /**
   While disconnected, after any run the queue is exactly the last 1000 of what it held
   followed by the pushes accepted since, in order.
   */
  lemma {:induction false} QueueKeepsNewest(c: Client, acts: seq<Action>)
    requires c.disconnected && |c.queue| <= PENDING_PUSH_CAP && StaysDown(acts)
    ensures Run(c, acts).queue == LastN(c.queue + Accepted(c, acts), PENDING_PUSH_CAP)
    decreases |acts|
  {
    if acts != [] {
      assert StaysDown([acts[0]]) && StaysDown(acts[1..]);
      DownStep(c, acts[0]);
      var d := Step(c, acts[0]);
      QueueKeepsNewest(d, acts[1..]);
      var rest := Accepted(d, acts[1..]);
      if acts[0].Ask? && acts[0].req.Push? && acts[0].req.entry.topic in c.topics.joinRefs {
        EnqueueThenLast(c.queue, acts[0].req.entry, rest);
      } else {
        assert Accepted(c, acts) == [] + rest;
      }
    }
  }

  /** What happens around connects that fail: nobody joins, and nothing resumes from a join. */
  ghost predicate Backoff(a: Action) {
    match a
    case Ask(q) => q.Push? || q.Call? || q.Heartbeat?
    case Tell(g) => g.Inbound? || g.CallTimeout? || g.CallReturn?
    case Lives(l) => l.LoopConnectFail? || l.SocketClose? || l.ReaderEnd?
  }

  lemma BackoffStep(c: Client, a: Action)
    requires Loopy(c) && Backoff(a)
    ensures Step(c, a).topics == c.topics
    ensures forall id :: id in c.loops ==> id in Step(c, a).loops && Step(c, a).loops[id] == c.loops[id]
  {
    match a
    case Ask(q) => assert Serve(c, q).loops == c.loops;
    case Tell(g) => assert Hear(c, g).loops == c.loops;
    case Lives(l) => assert l.ReaderEnd? || Live(c, l).loops == c.loops;
  }

  /**
   However many connects fail, with whatever pushes, calls and frames in between: both topic
   maps stay as they were, every reconnect loop is still where it was, and the queue loses
   nothing but its oldest entries beyond 1000.
   */
  lemma {:induction false} FailedConnectsKeepAll(c: Client, acts: seq<Action>)
    requires Loopy(c) && c.disconnected && |c.queue| <= PENDING_PUSH_CAP
    requires forall i :: 0 <= i < |acts| ==> Backoff(acts[i])
    ensures var d := Run(c, acts);
            && d.topics == c.topics && d.disconnected
            && (forall id :: id in c.loops ==> id in d.loops && d.loops[id] == c.loops[id])
            && d.queue == LastN(c.queue + Accepted(c, acts), PENDING_PUSH_CAP)
    decreases |acts|
  {
    QueueKeepsNewest(c, acts);
    if acts != [] {
      BackoffStep(c, acts[0]);
      StepKeepsLoops(c, acts[0]);
      assert StaysDown([acts[0]]) by {
        assert Backoff(acts[0]);
      }
      DownStep(c, acts[0]);
      QueueStaysBounded(c, acts[0]);
      FailedConnectsKeepAll(Step(c, acts[0]), acts[1..]);
    }
  }

  lemma EnqueueThenLast(q: seq<Entry>, e: Entry, rest: seq<Entry>)
    requires |q| <= PENDING_PUSH_CAP
    ensures LastN(Enqueue(q, e) + rest, PENDING_PUSH_CAP) == LastN(q + ([e] + rest), PENDING_PUSH_CAP)
  {
  }

  // ----- a flush that meets a dropped link -----

  ghost function Flush(c: Client, id: nat, n: nat): Client
    decreases n
  {
    if n == 0 then c else Flush(DoLoopFlush(c, id), id, n - 1)
  }

  ghost predicate DownFlushing(c: Client, id: nat) {
    In(c, id, Flushing) && c.disconnected && |c.queue| <= PENDING_PUSH_CAP
  }

  /** With the link down one flush step moves the head to the tail, or drops it when its topic is not joined. */
  lemma DownFlushStep(c: Client, id: nat)
    requires DownFlushing(c, id) && c.queue != []
    ensures DoLoopFlush(c, id) == c.(queue := c.queue[1..] +
              (if c.queue[0].topic in c.topics.joinRefs then [c.queue[0]] else []))
  {
  }

  lemma {:induction false} SurvivingConcat(p: seq<Entry>, q: seq<Entry>, joined: set<string>)
    ensures Surviving(p + q, joined) == Surviving(p, joined) + Surviving(q, joined)
    decreases |p|
  {
    if p == [] {
      assert p + q == q;
    } else {
      assert (p + q)[1..] == p[1..] + q;
      SurvivingConcat(p[1..], q, joined);
    }
  }

  lemma RotateOne(q: seq<Entry>, tail: seq<Entry>, n: nat, joined: set<string>)
    requires 0 < n <= |q| && tail == if q[0].topic in joined then [q[0]] else []
    ensures (q[1..] + tail)[n - 1..] + Surviving((q[1..] + tail)[..n - 1], joined) == q[n..] + Surviving(q[..n], joined)
  {
    var d := q[1..] + tail;
    assert d[n - 1..] == q[n..] + tail;
    assert d[..n - 1] == q[..n][1..];
    assert q[..n][0] == q[0];
  }

  /** n steps into one round, the untouched part leads and the survivors of the rest follow. */
  lemma {:induction false} DownFlushRotates(c: Client, id: nat, n: nat)
    requires DownFlushing(c, id) && n <= |c.queue|
    ensures Flush(c, id, n) == c.(queue := c.queue[n..] + Surviving(c.queue[..n], c.topics.joinRefs.Keys))
    decreases n
  {
    var joined := c.topics.joinRefs.Keys;
    if n > 0 {
      DownFlushStep(c, id);
      var tail := if c.queue[0].topic in joined then [c.queue[0]] else [];
      var d := DoLoopFlush(c, id);
      DownFlushRotates(d, id, n - 1);
      RotateOne(c.queue, tail, n, joined);
    } else {
      assert c.queue[0..] + [] == c.queue;
    }
  }

  /** After one round every entry with a joined topic is still queued, once and in order. */
  lemma DownFlushLosesNothing(c: Client, id: nat)
    requires DownFlushing(c, id)
    ensures Flush(c, id, |c.queue|) == c.(queue := Surviving(c.queue, c.topics.joinRefs.Keys))
  {
    DownFlushRotates(c, id, |c.queue|);
    assert c.queue[..|c.queue|] == c.queue;
  }

  lemma {:induction false} DownFlushKeepsSurvivors(c: Client, id: nat, n: nat)
    requires DownFlushing(c, id) && Surviving(c.queue, c.topics.joinRefs.Keys) != []
    ensures DownFlushing(Flush(c, id, n), id) && Flush(c, id, n).queue != []
    decreases n
  {
    assert c.queue != [];
    if n > 0 {
      DownFlushStep(c, id);
      var joined := c.topics.joinRefs.Keys;
      var d := DoLoopFlush(c, id);
      SurvivingConcat(c.queue[1..], if c.queue[0].topic in joined then [c.queue[0]] else [], joined);
      assert Surviving([c.queue[0]], joined) == if c.queue[0].topic in joined then [c.queue[0]] else [];
      DownFlushKeepsSurvivors(d, id, n - 1);
    }
  }

  /**
   The flush loop has no suspension point while the link is down: it ever reaches an empty
   queue exactly when no queued push has a joined topic, and otherwise spins for good.
   */
  lemma DownFlushEndsIffNoSurvivor(c: Client, id: nat)
    requires DownFlushing(c, id)
    ensures (exists n: nat :: Flush(c, id, n).queue == []) <==> Surviving(c.queue, c.topics.joinRefs.Keys) == []
  {
    if Surviving(c.queue, c.topics.joinRefs.Keys) == [] {
      DownFlushLosesNothing(c, id);
      assert Flush(c, id, |c.queue|).queue == [];
    } else {
      forall n: nat ensures Flush(c, id, n).queue != [] {
        DownFlushKeepsSurvivors(c, id, n);
      }
    }
  }
}
