/**
 What every run of the channel client keeps: frames stay inside the join that opened
 their topic on their connection, refs never repeat, and a reply settles one future.
 */
module ChannelScope {
  import opened Prelude
  import opened ChannelModel

  // ----- one more step -----

  lemma {:induction false} RunAppend(c: Client, acts: seq<Action>, a: Action)
    ensures Run(c, acts + [a]) == Step(Run(c, acts), a)
    ensures CleanConnects(c, acts + [a])
       <==> CleanConnects(c, acts) && (a == Ask(Connect) ==> Run(c, acts).topics.joinRefs == map[])
    decreases |acts|
  {
    if acts == [] {
      assert acts + [a] == [a] && [a][1..] == [];
      assert CleanConnects(Step(c, a), []);
    } else {
      assert (acts + [a])[1..] == acts[1..] + [a];
      RunAppend(Step(c, acts[0]), acts[1..], a);
    }
  }

  // ----- frames carry a join_ref introduced on their own connection -----

  ghost predicate Introduces(f: Frame, topic: string, ref: nat) {
    f.event == PhxJoin && f.topic == topic && f.ref == ref && f.joinRef == Some(ref)
  }

  ghost predicate Introduced(w: seq<Sent>, conn: nat, topic: string, ref: nat) {
    exists k :: 0 <= k < |w| && w[k].conn == conn && Introduces(w[k].frame, topic, ref)
  }

  /** Frame i is a heartbeat, or carries a join_ref that a phx_join at or before i introduced. */
  ghost predicate FrameScoped(w: seq<Sent>, i: nat)
    requires i < |w|
  {
    match w[i].frame.joinRef
    case None => w[i].origin == ByHeartbeat
    case Some(j) => Introduced(w[..i + 1], w[i].conn, w[i].frame.topic, j)
  }

  ghost predicate FramesScoped(w: seq<Sent>) {
    forall i {:trigger FrameScoped(w, i)} :: 0 <= i < |w| ==> FrameScoped(w, i)
  }

  /** While the socket is open, every held join_ref was introduced on it. */
  ghost predicate MapScoped(n: Net, joinRefs: map<string, nat>) {
    n.link == Open ==> forall t :: t in joinRefs ==> Introduced(n.wire, n.conn, t, joinRefs[t])
  }

  ghost predicate NetScoped(n: Net, joinRefs: map<string, nat>) {
    FramesScoped(n.wire) && MapScoped(n, joinRefs)
  }

  ghost predicate Scoped(c: Client) {
    NetScoped(c.net, c.topics.joinRefs)
  }

  lemma IntroducedAppend(w: seq<Sent>, s: Sent, conn: nat, topic: string, ref: nat)
    requires Introduced(w, conn, topic, ref) || (s.conn == conn && Introduces(s.frame, topic, ref))
    ensures Introduced(w + [s], conn, topic, ref)
  {
    var w1 := w + [s];
    if Introduced(w, conn, topic, ref) {
      var k :| 0 <= k < |w| && w[k].conn == conn && Introduces(w[k].frame, topic, ref);
      assert w1[k] == w[k];
    } else {
      assert w1[|w|] == s;
    }
  }

  lemma FramesScopedAppend(w: seq<Sent>, s: Sent)
    requires FramesScoped(w)
    requires FrameScoped(w + [s], |w|)
    ensures FramesScoped(w + [s])
  {
    var w1 := w + [s];
    forall i | 0 <= i < |w1| ensures FrameScoped(w1, i) {
      if i < |w| {
        assert FrameScoped(w, i);
        assert w1[..i + 1] == w[..i + 1];
      }
    }
  }

  /** A write keeps both halves when its join_ref is held, is none, or is introduced by the write itself. */
  lemma EmitKeepsScoped(n: Net, joinRefs: map<string, nat>, jr: Option<nat>, e: Entry, o: Origin)
    requires NetScoped(n, joinRefs)
    requires match jr
             case None => o == ByHeartbeat
             case Some(j) => (e.topic in joinRefs && joinRefs[e.topic] == j) || (j == n.counter && e.event == PhxJoin)
    ensures NetScoped(Emit(n, jr, e, o), joinRefs)
    ensures jr == Some(n.counter) && e.event == PhxJoin
            ==> NetScoped(Emit(n, jr, e, o), joinRefs[e.topic := n.counter])
  {
    if n.link == Open {
      var s := Sent(n.conn, Frame(jr, n.counter, e.topic, e.event, e.payload), o);
      var w1 := n.wire + [s];
      assert w1[..|n.wire| + 1] == w1;
      if jr.Some? {
        IntroducedAppend(n.wire, s, n.conn, e.topic, jr.value);
      }
      FramesScopedAppend(n.wire, s);
      forall t | t in joinRefs ensures Introduced(w1, n.conn, t, joinRefs[t]) {
        IntroducedAppend(n.wire, s, n.conn, t, joinRefs[t]);
      }
    }
  }

  lemma StartJoinKeepsScoped(c: Client, topic: string, handler: Handler, loop: Option<nat>)
    requires Scoped(c)
    ensures Scoped(StartJoin(c, topic, handler, loop))
  {
    EmitKeepsScoped(c.net, c.topics.joinRefs, Some(c.net.counter), Entry(topic, PhxJoin, EMPTY_OBJ), ByJoin);
  }

  lemma PushKeepsScoped(c: Client, e: Entry, o: Origin)
    requires Scoped(c)
    ensures Scoped(DoPush(c, e, o))
  {
    if e.topic in c.topics.joinRefs {
      EmitKeepsScoped(c.net, c.topics.joinRefs, Some(c.topics.joinRefs[e.topic]), e, o);
    }
  }

  lemma ServeKeepsScoped(c: Client, q: Request)
    requires Scoped(c)
    requires q == Connect ==> c.topics.joinRefs == map[]
    ensures Scoped(Serve(c, q))
  {
    match q
    case Connect =>
    case Join(topic, handler) => StartJoinKeepsScoped(c, topic, handler, None);
    case Push(e) => PushKeepsScoped(c, e, ByPush);
    case Call(e) =>
      if e.topic in c.topics.joinRefs {
        EmitKeepsScoped(c.net, c.topics.joinRefs, Some(c.topics.joinRefs[e.topic]), e, ByCall);
      }
    case Heartbeat => EmitKeepsScoped(c.net, c.topics.joinRefs, None, Entry("phoenix", Beat, EMPTY_OBJ), ByHeartbeat);
  }

  lemma HearKeepsScoped(c: Client, g: Signal)
    requires Scoped(c)
    ensures Scoped(Hear(c, g))
  {
  }

  lemma LiveKeepsScoped(c: Client, l: Life)
    requires Scoped(c)
    ensures Scoped(Live(c, l))
  {
    match l
    case LoopRejoin(id) =>
      if id in c.loops && c.loops[id].todo != [] && c.loops[id].todo[0] in c.loops[id].snapshot {
        StartJoinKeepsScoped(c, c.loops[id].todo[0], c.loops[id].snapshot[c.loops[id].todo[0]], Some(id));
      }
    case LoopFlush(id) =>
      if c.queue != [] {
        PushKeepsScoped(c.(queue := c.queue[1..]), c.queue[0], ByFlush);
      }
    case _ =>
  }

  lemma StepKeepsScoped(c: Client, a: Action)
    requires Scoped(c)
    requires a == Ask(Connect) ==> c.topics.joinRefs == map[]
    ensures Scoped(Step(c, a))
  {
    match a
    case Ask(q) => ServeKeepsScoped(c, q);
    case Tell(g) => HearKeepsScoped(c, g);
    case Lives(l) => LiveKeepsScoped(c, l);
  }

  /** The public connect() is only called while no topic is recorded as joined. */
  ghost predicate CleanConnects(c: Client, acts: seq<Action>)
    decreases |acts|
  {
    acts == [] ||
    ((acts[0] == Ask(Connect) ==> c.topics.joinRefs == map[]) && CleanConnects(Step(c, acts[0]), acts[1..]))
  }

  lemma {:induction false} RunKeepsScoped(c: Client, acts: seq<Action>)
    requires Scoped(c)
    requires CleanConnects(c, acts)
    ensures Scoped(Run(c, acts))
    decreases |acts|
  {
    if acts != [] {
      StepKeepsScoped(c, acts[0]);
      RunKeepsScoped(Step(c, acts[0]), acts[1..]);
    }
  }

  /** Over any number of drops and reconnects, every frame on every connection is in scope. */
  lemma EveryFrameIsScoped(auto: bool, acts: seq<Action>)
    requires CleanConnects(Init(auto), acts)
    ensures FramesScoped(Run(Init(auto), acts).net.wire)
  {
    RunKeepsScoped(Init(auto), acts);
  }

  /**
   A second public connect() keeps the join map of the connection before it.  From a state
   in scope it is safe for every continuation exactly when that map is empty.
   */
  lemma ConnectIsSafeIffMapEmpty(c: Client)
    requires Scoped(c) && RefsAscend(c.net)
    ensures (forall acts :: CleanConnects(Step(c, Ask(Connect)), acts)
                            ==> FramesScoped(Run(Step(c, Ask(Connect)), acts).net.wire))
       <==> c.topics.joinRefs == map[]
  {
    var c1 := Step(c, Ask(Connect));
    if c.topics.joinRefs == map[] {
      StepKeepsScoped(c, Ask(Connect));
      forall acts | CleanConnects(c1, acts) ensures FramesScoped(Run(c1, acts).net.wire) {
        RunKeepsScoped(c1, acts);
      }
    } else {
      var t :| t in c.topics.joinRefs;
      var acts := [Ask(Push(Entry(t, Beat, JNull)))];
      StalePushEscapes(c, t);
      assert acts[1..] == [];
      assert CleanConnects(Step(c1, acts[0]), []);
      assert CleanConnects(c1, acts);
      assert Run(c1, acts) == Run(Step(c1, acts[0]), []) == Step(c1, acts[0]);
      assert !FramesScoped(Run(c1, acts).net.wire);
    }
  }

  lemma StalePushEscapes(c: Client, t: string)
    requires RefsAscend(c.net) && t in c.topics.joinRefs
    ensures !FramesScoped(Step(Step(c, Ask(Connect)), Ask(Push(Entry(t, Beat, JNull)))).net.wire)
  {
    var w := Step(Step(c, Ask(Connect)), Ask(Push(Entry(t, Beat, JNull)))).net.wire;
    var n := |c.net.wire|;
    assert w == c.net.wire + [Sent(c.net.conn + 1, Frame(Some(c.topics.joinRefs[t]), c.net.counter, t, Beat, JNull), ByPush)];
    assert w[..n + 1] == w;
    assert !FrameScoped(w, n);
  }

  /** Connect, join, close and connect again: the next push goes out under a join_ref of the dead socket. */
  lemma StaleJoinRefAfterManualReconnect()
    ensures var c := Step(Step(Step(Step(Init(false), Ask(Connect)), Ask(Join("t", 0))), Lives(CloseBegin)), Lives(CloseEnd));
            !FramesScoped(Step(Step(c, Ask(Connect)), Ask(Push(Entry("t", Beat, JNull)))).net.wire)
  {
    var c1 := Step(Init(false), Ask(Connect));
    var c2 := Step(c1, Ask(Join("t", 0)));
    var c3 := Step(c2, Lives(CloseBegin));
    StalePushEscapes(Step(c3, Lives(CloseEnd)), "t");
  }

  // ----- refs never repeat -----

  ghost predicate RefsAscend(n: Net) {
    (forall i :: 0 <= i < |n.wire| ==> n.wire[i].frame.ref < n.counter && n.wire[i].conn <= n.conn) &&
    (forall i, j :: 0 <= i < j < |n.wire| ==> n.wire[i].frame.ref < n.wire[j].frame.ref)
  }

  ghost predicate NetGrows(n: Net, m: Net) {
    n.counter <= m.counter && n.wire <= m.wire && (RefsAscend(n) ==> RefsAscend(m))
  }

  lemma StepGrowsNet(c: Client, a: Action)
    ensures NetGrows(c.net, Step(c, a).net)
  {
    match a
    case Ask(q) => ServeGrowsNet(c, q);
    case Tell(g) => assert Hear(c, g).net == c.net;
    case Lives(l) => LiveGrowsNet(c, l);
  }

  lemma EmitGrowsNet(n: Net, jr: Option<nat>, e: Entry, o: Origin)
    ensures NetGrows(n, Emit(n, jr, e, o))
  {
  }

  lemma ServeGrowsNet(c: Client, q: Request)
    ensures NetGrows(c.net, Serve(c, q).net)
  {
    match q
    case Connect =>
    case Join(topic, _) => EmitGrowsNet(c.net, Some(c.net.counter), Entry(topic, PhxJoin, EMPTY_OBJ), ByJoin);
    case Push(e) => PushGrowsNet(c, e, ByPush);
    case Call(e) =>
      if e.topic in c.topics.joinRefs {
        EmitGrowsNet(c.net, Some(c.topics.joinRefs[e.topic]), e, ByCall);
      }
    case Heartbeat => EmitGrowsNet(c.net, None, Entry("phoenix", Beat, EMPTY_OBJ), ByHeartbeat);
  }

  lemma PushGrowsNet(c: Client, e: Entry, o: Origin)
    ensures NetGrows(c.net, DoPush(c, e, o).net)
  {
    if e.topic in c.topics.joinRefs {
      EmitGrowsNet(c.net, Some(c.topics.joinRefs[e.topic]), e, o);
    }
  }

  lemma LiveGrowsNet(c: Client, l: Life)
    ensures NetGrows(c.net, Live(c, l).net)
  {
    match l
    case LoopRejoin(id) => RejoinGrowsNet(c, id);
    case LoopFlush(id) =>
      if c.queue != [] {
        PushGrowsNet(c.(queue := c.queue[1..]), c.queue[0], ByFlush);
      }
    case _ => assert Live(c, l).net.wire == c.net.wire && Live(c, l).net.counter == c.net.counter;
  }

  lemma RejoinGrowsNet(c: Client, id: nat)
    ensures NetGrows(c.net, DoLoopRejoin(c, id).net)
  {
    if In(c, id, Rejoining) && c.loops[id].todo != [] && c.loops[id].todo[0] in c.loops[id].snapshot {
      EmitGrowsNet(c.net, Some(c.net.counter), Entry(c.loops[id].todo[0], PhxJoin, EMPTY_OBJ), ByJoin);
    }
  }

  /**
   Joins, re-joins, pushes, flushed pushes, calls and heartbeats of one client never share
   a ref, on one connection or across connections.
   */
  lemma {:induction false} RefsNeverRepeat(c: Client, acts: seq<Action>)
    requires RefsAscend(c.net)
    ensures RefsAscend(Run(c, acts).net)
    ensures c.net.wire <= Run(c, acts).net.wire && c.net.counter <= Run(c, acts).net.counter
    decreases |acts|
  {
    if acts != [] {
      StepGrowsNet(c, acts[0]);
      RefsNeverRepeat(Step(c, acts[0]), acts[1..]);
    }
  }

  // ----- no writes without a socket -----

  ghost predicate Connects(a: Action) {
    a == Ask(Connect) || (a.Lives? && a.life.LoopConnectOk?)
  }

  lemma SilentStep(c: Client, a: Action)
    requires c.net.link != Open && !Connects(a)
    ensures Step(c, a).net.link != Open && Step(c, a).net.wire == c.net.wire
  {
    match a
    case Ask(q) => SilentServe(c, q);
    case Tell(g) => assert Hear(c, g).net == c.net;
    case Lives(l) => SilentLive(c, l);
  }

  lemma SilentServe(c: Client, q: Request)
    requires c.net.link != Open && q != Connect
    ensures Serve(c, q).net == c.net.(counter := Serve(c, q).net.counter)
  {
  }

  lemma SilentLive(c: Client, l: Life)
    requires c.net.link != Open && !l.LoopConnectOk?
    ensures Live(c, l).net.link != Open && Live(c, l).net.wire == c.net.wire
  {
    match l
    case LoopRejoin(id) => assert DoLoopRejoin(c, id).net == c.net.(counter := DoLoopRejoin(c, id).net.counter);
    case LoopFlush(id) => assert DoLoopFlush(c, id).net == c.net.(counter := DoLoopFlush(c, id).net.counter);
    case _ =>
  }

  /** Once the socket is closed or gone, nothing is written by any run until the next connect. */
  lemma {:induction false} ClosedStaysSilent(c: Client, acts: seq<Action>)
    requires c.net.link != Open && forall i :: 0 <= i < |acts| ==> !Connects(acts[i])
    ensures Run(c, acts).net.wire == c.net.wire && Run(c, acts).net.link != Open
    decreases |acts|
  {
    if acts != [] {
      SilentStep(c, acts[0]);
      ClosedStaysSilent(Step(c, acts[0]), acts[1..]);
    }
  }

  // ----- no reconnects after close -----

  lemma LiveKeepsLoopNumbers(c: Client, l: Life)
    requires c.shutdown || !c.autoReconnect
    ensures var d := Live(c, l);
            d.nextLoop == c.nextLoop && d.loops.Keys <= c.loops.Keys && (d.shutdown || !d.autoReconnect)
  {
  }

  lemma StepKeepsLoopNumbers(c: Client, a: Action)
    requires c.shutdown || !c.autoReconnect
    ensures var d := Step(c, a);
            d.nextLoop == c.nextLoop && d.loops.Keys <= c.loops.Keys && (d.shutdown || !d.autoReconnect)
  {
    match a
    case Ask(q) => assert Serve(c, q) == c.(net := Serve(c, q).net, topics := Serve(c, q).topics, book := Serve(c, q).book,
                                            queue := Serve(c, q).queue, disconnected := Serve(c, q).disconnected);
    case Tell(g) => assert Hear(c, g).loops.Keys == c.loops.Keys;
    case Lives(l) => LiveKeepsLoopNumbers(c, l);
  }

  /** After close(), or without auto_reconnect, no run starts another reconnect loop. */
  lemma {:induction false} NoLoopAfterClose(c: Client, acts: seq<Action>)
    requires c.shutdown || !c.autoReconnect
    ensures Run(c, acts).nextLoop == c.nextLoop && Run(c, acts).loops.Keys <= c.loops.Keys
    decreases |acts|
  {
    if acts != [] {
      StepKeepsLoopNumbers(c, acts[0]);
      NoLoopAfterClose(Step(c, acts[0]), acts[1..]);
    }
  }

  // ----- one reply settles one future -----

  ghost predicate Settled(b: Book, counter: nat) {
    (forall r :: r in b.futures ==> r < counter) &&
    b.pending <= b.futures.Keys && b.calls <= b.futures.Keys &&
    (forall r :: r in b.outcomes ==> r < counter && r !in b.pending && r !in b.calls) &&
    (forall r :: r in b.futures && b.futures[r].Resolved? ==> (r, b.futures[r].payload) in b.replies) &&
    (forall r :: r in b.outcomes && b.outcomes[r].Returned? ==> (r, b.outcomes[r].payload) in b.replies)
  }

  /**
   How one step may treat the bookkeeping: outcomes are final, and a future leaves Waiting
   only through a phx_reply with its own ref, its own call's timeout or the cancellation of
   the join that awaits it, and then stays put.
   */
  ghost predicate SettlesBy(b: Book, a: Action, b1: Book) {
    (forall r :: r in b.outcomes ==> r in b1.outcomes && b1.outcomes[r] == b.outcomes[r]) &&
    (forall r :: r in b.futures ==>
       && r in b1.futures
       && (b1.futures[r] == b.futures[r] ||
           (b.futures[r] == Waiting &&
            ((a == Tell(CallTimeout(r)) && r in b.calls && b1.futures[r] == Cancelled) ||
             ((a == Tell(JoinAbandon(r)) || a == Lives(CloseBegin))
              && r in b.joiners && r !in b1.joiners && b1.futures[r] == Cancelled) ||
             (b1.futures[r].Resolved? && r in b.pending
              && a == Tell(Inbound(Some(r), PhxReply, b1.futures[r].payload)))))))
  }

  ghost predicate Settles(b: Book, n: nat, a: Action, b1: Book, n1: nat) {
    Settled(b, n) ==> Settled(b1, n1) && SettlesBy(b, a, b1)
  }

  /** Changing only the suspended joiners, or only raising the counter, settles nothing. */
  lemma SameSettles(b: Book, n: nat, a: Action, b1: Book, n1: nat)
    requires n <= n1 && b1 == b.(joiners := b1.joiners)
    ensures Settles(b, n, a, b1, n1)
  {
  }

  lemma RegisterSettles(b: Book, n: nat, a: Action, b1: Book)
    requires b1 == Register(b, n).(joiners := b1.joiners, calls := b1.calls)
    requires b1.calls == b.calls || b1.calls == b.calls + {n}
    ensures Settles(b, n, a, b1, n + 1)
  {
  }

  lemma SendFailedSettles(b: Book, n: nat, a: Action)
    ensures Settles(b, n, a, b.(outcomes := b.outcomes[n := SendFailed]), n + 1)
  {
  }

  lemma TakeReplySettles(b: Book, n: nat, r: nat, payload: Json)
    ensures Settles(b, n, Tell(Inbound(Some(r), PhxReply, payload)), TakeReply(b, r, payload), n)
  {
  }

  lemma ReturnCallSettles(b: Book, n: nat, r: nat, late: bool)
    ensures Settles(b, n, Tell(CallReturn(r, late)), ReturnCall(b, r, late), n)
  {
  }

  lemma CancelSettles(b: Book, n: nat, a: Action, refs: set<nat>)
    requires refs <= b.joiners.Keys
    requires a == Lives(CloseBegin) || (a.Tell? && a.sig.JoinAbandon? && refs == {a.sig.ref})
    ensures Settles(b, n, a, b.(joiners := b.joiners - refs, futures := CancelWaits(b.futures, refs)), n)
  {
  }

  lemma StartJoinSettles(c: Client, a: Action, topic: string, handler: Handler, loop: Option<nat>)
    ensures var c1 := StartJoin(c, topic, handler, loop); Settles(c.book, c.net.counter, a, c1.book, c1.net.counter)
  {
    RegisterSettles(c.book, c.net.counter, a, StartJoin(c, topic, handler, loop).book);
  }

  lemma ServeSettles(c: Client, q: Request)
    ensures Settles(c.book, c.net.counter, Ask(q), Serve(c, q).book, Serve(c, q).net.counter)
  {
    match q
    case Join(topic, handler) =>
      if c.net.link == NoSocket {
        SameSettles(c.book, c.net.counter, Ask(q), c.book, c.net.counter);
      } else {
        StartJoinSettles(c, Ask(q), topic, handler, None);
      }
    case Call(e) =>
      if e.topic !in c.topics.joinRefs {
        SameSettles(c.book, c.net.counter, Ask(q), c.book, c.net.counter);
      } else if c.net.link == Open {
        RegisterSettles(c.book, c.net.counter, Ask(q), Serve(c, q).book);
      } else {
        SendFailedSettles(c.book, c.net.counter, Ask(q));
      }
    case _ => SameSettles(c.book, c.net.counter, Ask(q), c.book, Serve(c, q).net.counter);
  }

  lemma HearSettles(c: Client, g: Signal)
    ensures Settles(c.book, c.net.counter, Tell(g), Hear(c, g).book, c.net.counter)
  {
    match g
    case Inbound(r, event, payload) =>
      if event == PhxReply && r.Some? {
        TakeReplySettles(c.book, c.net.counter, r.value, payload);
      } else {
        SameSettles(c.book, c.net.counter, Tell(g), c.book, c.net.counter);
      }
    case CallTimeout(r) =>
    case CallReturn(r, late) => ReturnCallSettles(c.book, c.net.counter, r, late);
    case JoinAbandon(r) =>
      if r in c.book.joiners && c.book.joiners[r].loop.None? {
        CancelSettles(c.book, c.net.counter, Tell(g), {r});
      } else {
        SameSettles(c.book, c.net.counter, Tell(g), c.book, c.net.counter);
      }
    case _ => SameSettles(c.book, c.net.counter, Tell(g), Hear(c, g).book, c.net.counter);
  }

  lemma LiveSettles(c: Client, l: Life)
    ensures Settles(c.book, c.net.counter, Lives(l), Live(c, l).book, Live(c, l).net.counter)
  {
    var c1 := Live(c, l);
    if l.LoopRejoin? && In(c, l.id, Rejoining) && c.loops[l.id].todo != []
       && c.loops[l.id].todo[0] in c.loops[l.id].snapshot {
      StartJoinSettles(c, Lives(l), c.loops[l.id].todo[0], c.loops[l.id].snapshot[c.loops[l.id].todo[0]], Some(l.id));
    } else if l.CloseBegin? && c.nextLoop > 0 {
      CancelSettles(c.book, c.net.counter, Lives(l), JoinsOf(c.book.joiners, c.nextLoop - 1));
    } else {
      SameSettles(c.book, c.net.counter, Lives(l), c1.book, c1.net.counter);
    }
  }

  lemma StepSettles(c: Client, a: Action)
    ensures Settles(c.book, c.net.counter, a, Step(c, a).book, Step(c, a).net.counter)
  {
    match a
    case Ask(q) => ServeSettles(c, q);
    case Tell(g) =>
      HearSettles(c, g);
      assert Hear(c, g).net == c.net;
    case Lives(l) => LiveSettles(c, l);
  }

  lemma {:induction false} RunSettles(c: Client, acts: seq<Action>)
    requires Settled(c.book, c.net.counter)
    ensures Settled(Run(c, acts).book, Run(c, acts).net.counter)
    ensures forall r :: r in c.book.outcomes ==>
              r in Run(c, acts).book.outcomes && Run(c, acts).book.outcomes[r] == c.book.outcomes[r]
    decreases |acts|
  {
    if acts != [] {
      StepSettles(c, acts[0]);
      RunSettles(Step(c, acts[0]), acts[1..]);
    }
  }

  /**
   Once call r has ended, by reply, timeout or failed send, then after any further run its
   outcome is unchanged, its key is not pending, and another reply with its ref changes
   nothing the client reads.  A returned payload came from a phx_reply with that ref.
   */
  lemma EndedCallStaysEnded(auto: bool, before: seq<Action>, after: seq<Action>, r: nat, payload: Json)
    requires r in Run(Init(auto), before).book.outcomes
    ensures var c := Run(Init(auto), before);
            var d := Run(c, after);
            && r in d.book.outcomes && d.book.outcomes[r] == c.book.outcomes[r]
            && r !in d.book.pending && r !in d.book.calls
            && Step(d, Tell(Inbound(Some(r), PhxReply, payload)))
               == d.(book := d.book.(replies := d.book.replies + [(r, payload)]))
            && (c.book.outcomes[r].Returned? ==> (r, c.book.outcomes[r].payload) in c.book.replies)
  {
    var c := Run(Init(auto), before);
    RunSettles(Init(auto), before);
    RunSettles(c, after);
    var b := Run(c, after).book;
    assert b.pending - {r} == b.pending;
  }

  // ----- a reply reaches the coroutine that waits for it -----

  ghost predicate Awaited(b: Book, r: nat) {
    r in b.calls || r in b.joiners
  }

  /** Every call or join that still waits for its reply has its key, so the reply will find it. */
  ghost predicate Expected(b: Book) {
    forall r {:trigger Awaited(b, r)} :: Awaited(b, r) ==> r in b.futures && (b.futures[r] == Waiting ==> r in b.pending)
  }

  /** Nobody new waits, no key goes and no future changes but for those that stop waiting. */
  lemma FewerExpected(b: Book, b1: Book)
    requires Expected(b) && b1.calls <= b.calls && b1.joiners.Keys <= b.joiners.Keys
    requires forall r :: r in b.futures ==>
               r in b1.futures && (b1.futures[r] == Waiting && Awaited(b1, r) ==> b.futures[r] == Waiting)
    requires forall r :: Awaited(b1, r) && r in b.pending ==> r in b1.pending || r !in b1.futures || b1.futures[r] != Waiting
    ensures Expected(b1)
  {
    forall r | Awaited(b1, r) ensures r in b1.futures && (b1.futures[r] == Waiting ==> r in b1.pending) {
      assert Awaited(b, r);
    }
  }

  lemma RegisterExpects(b: Book, n: nat, b1: Book)
    requires Expected(b) && b1.pending == b.pending + {n} && b1.futures == b.futures[n := Waiting]
    requires b1.calls <= b.calls + {n} && b1.joiners.Keys <= b.joiners.Keys + {n}
    ensures Expected(b1)
  {
    forall r | Awaited(b1, r) ensures r in b1.futures && (b1.futures[r] == Waiting ==> r in b1.pending) {
      assert r != n ==> Awaited(b, r);
    }
  }

  lemma TakeReplyExpects(b: Book, r: nat, payload: Json)
    requires Expected(b)
    ensures Expected(TakeReply(b, r, payload))
  {
    FewerExpected(b, TakeReply(b, r, payload));
  }

  lemma ServeExpects(c: Client, q: Request)
    requires Expected(c.book)
    ensures Expected(Serve(c, q).book)
  {
    match q
    case Join(topic, handler) =>
      if c.net.link != NoSocket {
        RegisterExpects(c.book, c.net.counter, StartJoin(c, topic, handler, None).book);
      }
    case Call(e) => CallExpects(c, e);
    case _ => assert Serve(c, q).book == c.book;
  }

  lemma CallExpects(c: Client, e: Entry)
    requires Expected(c.book)
    ensures Expected(DoCall(c, e).book)
  {
    if e.topic in c.topics.joinRefs {
      if c.net.link == Open {
        RegisterExpects(c.book, c.net.counter, DoCall(c, e).book);
      } else {
        FewerExpected(c.book, DoCall(c, e).book);
      }
    }
  }

  lemma HearExpects(c: Client, g: Signal)
    requires Expected(c.book)
    ensures Expected(Hear(c, g).book)
  {
    match g
    case Inbound(r, event, payload) =>
      if event == PhxReply && r.Some? {
        TakeReplyExpects(c.book, r.value, payload);
      }
    case _ => FewerExpected(c.book, Hear(c, g).book);
  }

  lemma RejoinExpects(c: Client, id: nat)
    requires Expected(c.book)
    ensures Expected(DoLoopRejoin(c, id).book)
  {
    if In(c, id, Rejoining) && c.loops[id].todo != [] && c.loops[id].todo[0] in c.loops[id].snapshot {
      RegisterExpects(c.book, c.net.counter, DoLoopRejoin(c, id).book);
    }
  }

  lemma LiveExpects(c: Client, l: Life)
    requires Expected(c.book)
    ensures Expected(Live(c, l).book)
  {
    match l
    case LoopRejoin(id) => RejoinExpects(c, id);
    case CloseBegin => FewerExpected(c.book, DoCloseBegin(c).book);
    case _ => assert Live(c, l).book == c.book;
  }

  lemma StepExpects(c: Client, a: Action)
    requires Expected(c.book)
    ensures Expected(Step(c, a).book)
  {
    match a
    case Ask(q) => ServeExpects(c, q);
    case Tell(g) => HearExpects(c, g);
    case Lives(l) => LiveExpects(c, l);
  }

  /** In every reachable state. */
  lemma {:induction false} RunExpects(c: Client, acts: seq<Action>)
    requires Expected(c.book)
    ensures Expected(Run(c, acts).book)
    decreases |acts|
  {
    if acts != [] {
      StepExpects(c, acts[0]);
      RunExpects(Step(c, acts[0]), acts[1..]);
    }
  }

  /** Call r has its reply p and is about to return it, or has returned it. */
  ghost predicate Replied(b: Book, r: nat, p: Json) {
    || (r in b.calls && r in b.futures && b.futures[r] == Resolved(p))
    || (r in b.outcomes && b.outcomes[r] == Returned(p))
  }

  lemma CallStays(c: Client, a: Action, r: nat)
    requires r in c.book.calls && !(a.Tell? && a.sig.CallReturn? && a.sig.ref == r)
    ensures r in Step(c, a).book.calls
  {
    match a
    case Ask(q) => ServeKeepsCallers(c, q);
    case Tell(g) => HearKeepsCallers(c, g, r);
    case Lives(l) => LiveKeepsCallers(c, l);
  }

  lemma ServeKeepsCallers(c: Client, q: Request)
    ensures c.book.calls <= Serve(c, q).book.calls
  {
  }

  lemma HearKeepsCallers(c: Client, g: Signal, r: nat)
    requires r in c.book.calls && !(g.CallReturn? && g.ref == r)
    ensures r in Hear(c, g).book.calls
  {
  }

  lemma LiveKeepsCallers(c: Client, l: Life)
    ensures Live(c, l).book.calls == c.book.calls
  {
    match l
    case LoopRejoin(id) => assert DoLoopRejoin(c, id).book.calls == c.book.calls;
    case LoopFlush(id) => assert DoLoopFlush(c, id).book == c.book;
    case _ =>
  }

  lemma StepKeepsReplied(c: Client, a: Action, r: nat, p: Json)
    requires Settled(c.book, c.net.counter) && Replied(c.book, r, p) && a != Tell(CallReturn(r, true))
    ensures Replied(Step(c, a).book, r, p)
  {
    StepSettles(c, a);
    if r in c.book.calls && !(r in c.book.outcomes) {
      if a == Tell(CallReturn(r, false)) {
        assert Step(c, a).book.outcomes[r] == Returned(p);
      } else {
        CallStays(c, a, r);
      }
    }
  }

  lemma {:induction false} RunKeepsReplied(c: Client, acts: seq<Action>, r: nat, p: Json)
    requires Settled(c.book, c.net.counter) && Replied(c.book, r, p)
    requires forall i :: 0 <= i < |acts| ==> acts[i] != Tell(CallReturn(r, true))
    ensures Replied(Run(c, acts).book, r, p)
    decreases |acts|
  {
    if acts != [] {
      StepKeepsReplied(c, acts[0], r, p);
      StepSettles(c, acts[0]);
      RunKeepsReplied(Step(c, acts[0]), acts[1..], r, p);
    }
  }

  /**
   A call that waits is answered by the first phx_reply with its ref: over any further run in
   which its timer does not beat its resume, it is about to return that reply or has returned
   it, and when it resumes it returns exactly that.
   */
  lemma ReplyIsReturned(auto: bool, before: seq<Action>, d: Client, r: nat, p: Json, after: seq<Action>, e: Client)
    requires d == Run(Init(auto), before) && r in d.book.calls && r in d.book.futures && d.book.futures[r] == Waiting
    requires e == Run(Step(d, Tell(Inbound(Some(r), PhxReply, p))), after)
    requires forall i :: 0 <= i < |after| ==> after[i] != Tell(CallReturn(r, true))
    ensures Replied(e.book, r, p)
    ensures r in e.book.calls ==>
              var b := Step(e, Tell(CallReturn(r, false))).book;
              r in b.outcomes && b.outcomes[r] == Returned(p) && r !in b.calls && r !in b.pending
  {
    RunSettles(Init(auto), before);
    RunExpects(Init(auto), before);
    assert Awaited(d.book, r);
    var c := Step(d, Tell(Inbound(Some(r), PhxReply, p)));
    StepSettles(d, Tell(Inbound(Some(r), PhxReply, p)));
    RunKeepsReplied(c, after, r, p);
    RunSettles(c, after);
    if r in e.book.calls {
      ReturnsReply(e, r, p);
    }
  }

  lemma ReturnsReply(c: Client, r: nat, p: Json)
    requires Settled(c.book, c.net.counter) && r in c.book.calls && Replied(c.book, r, p)
    ensures var b := Step(c, Tell(CallReturn(r, false))).book;
            r in b.outcomes && b.outcomes[r] == Returned(p) && r !in b.calls && r !in b.pending
  {
  }

  /** Call r does not resume. */
  ghost predicate StaysAsleep(acts: seq<Action>, r: nat) {
    forall i :: 0 <= i < |acts| ==> !(acts[i].Tell? && acts[i].sig.CallReturn? && acts[i].sig.ref == r)
  }

  /** A call whose timer fires before any reply ends expired, whatever replies come before it resumes. */
  lemma TimeoutExpires(d: Client, r: nat, acts: seq<Action>, late: bool)
    requires Settled(d.book, d.net.counter) && r in d.book.calls && r in d.book.futures && d.book.futures[r] == Waiting
    requires StaysAsleep(acts, r)
    ensures var e := Run(Step(d, Tell(CallTimeout(r))), acts);
            var b := Step(e, Tell(CallReturn(r, late))).book;
            r in b.outcomes && b.outcomes[r] == Expired && r !in b.pending
  {
    var c := Step(d, Tell(CallTimeout(r)));
    StepSettles(d, Tell(CallTimeout(r)));
    RunKeepsCancelled(c, acts, r);
  }

  lemma {:induction false} RunKeepsCancelled(c: Client, acts: seq<Action>, r: nat)
    requires Settled(c.book, c.net.counter) && r in c.book.calls && r in c.book.futures && c.book.futures[r] == Cancelled
    requires StaysAsleep(acts, r)
    ensures var b := Run(c, acts).book; r in b.calls && r in b.futures && b.futures[r] == Cancelled
    decreases |acts|
  {
    if acts != [] {
      StepSettles(c, acts[0]);
      CallStays(c, acts[0], r);
      RunKeepsCancelled(Step(c, acts[0]), acts[1..], r);
    }
  }

  // ----- the answer to a join decides about its topic -----

  /**
   In any reachable state a join that has its reply resumes.  If the reply is an object whose
   status is not "ok" its topic is gone from both maps and nothing else is; otherwise both
   maps stay as they are.
   */
  lemma JoinAnswerDecides(auto: bool, before: seq<Action>, d: Client, r: nat, reply: Json)
    requires d == Run(Init(auto), before) && r in d.book.joiners && r in d.book.futures
    requires d.book.futures[r] == Resolved(reply)
    ensures (r, reply) in d.book.replies
    ensures var t, e := d.book.joiners[r].topic, Step(d, Tell(JoinResume(r)));
            && r !in e.book.joiners
            && match reply
               case JObj(f) =>
                 if "status" in f && f["status"] == JStr("ok") then e.topics == d.topics
                 else e.topics == Topics(d.topics.joinRefs - {t}, d.topics.handlers - {t})
               case _ => e.topics == d.topics
  {
    RunSettles(Init(auto), before);
  }

  /** A join that waits gets the payload of the first phx_reply with its ref. */
  lemma ReplyReachesJoin(auto: bool, before: seq<Action>, d: Client, r: nat, p: Json)
    requires d == Run(Init(auto), before) && r in d.book.joiners && r in d.book.futures && d.book.futures[r] == Waiting
    ensures var b := Step(d, Tell(Inbound(Some(r), PhxReply, p))).book;
            r in b.joiners && r in b.futures && b.futures[r] == Resolved(p) && r !in b.pending
  {
    RunExpects(Init(auto), before);
    assert Awaited(d.book, r);
  }
}
