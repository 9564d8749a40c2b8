/**
 Over every run, whatever drops and reconnects it has: no accepted push is delivered twice,
 and one that is neither on a wire nor queued was lost by exactly one of three causes.
 */
module ChannelDelivery {
  import opened Prelude
  import opened ChannelModel
  import opened ChannelReconnect

  predicate IsPush(s: Sent) {
    s.origin == ByPush || s.origin == ByFlush
  }

  /** The pushes on the wire, direct or flushed, over all connections. */
  ghost function Written(w: seq<Sent>): multiset<Entry> {
    if w == [] then multiset{}
    else
      var s := w[|w| - 1];
      Written(w[..|w| - 1])
      + (if IsPush(s) then multiset{Entry(s.frame.topic, s.frame.event, s.frame.payload)} else multiset{})
  }

  /** Pushes written or still queued. */
  ghost function Held(c: Client): multiset<Entry> {
    Written(c.net.wire) + multiset(c.queue)
  }

  // ----- losses -----

  /** The queue was full, the socket took no write, or the topic was no longer joined at the flush. */
  datatype Cause = Overflow | DeadSocket | TopicGone

  /** What push() loses when it accepts e: the oldest queued push, e itself, or nothing. */
  ghost function PushLoses(c: Client, e: Entry, why: Cause): multiset<Entry> {
    if e.topic !in c.topics.joinRefs then multiset{}
    else if c.disconnected then
      (if |c.queue| == PENDING_PUSH_CAP && why == Overflow then multiset{c.queue[0]} else multiset{})
    else (if c.net.link != Open && why == DeadSocket then multiset{e} else multiset{})
  }

  ghost function FlushLoses(c: Client, id: nat, why: Cause): multiset<Entry> {
    if !In(c, id, Flushing) || c.queue == [] then multiset{}
    else if c.queue[0].topic !in c.topics.joinRefs then (if why == TopicGone then multiset{c.queue[0]} else multiset{})
    else PushLoses(c.(queue := c.queue[1..]), c.queue[0], why)
  }

  ghost function Loses(c: Client, a: Action, why: Cause): multiset<Entry> {
    match a
    case Ask(Push(e)) => PushLoses(c, e, why)
    case Lives(LoopFlush(id)) => FlushLoses(c, id, why)
    case _ => multiset{}
  }

  /** The pushes a run loses by one cause. */
  ghost function Lost(c: Client, acts: seq<Action>, why: Cause): multiset<Entry>
    decreases |acts|
  {
    if acts == [] then multiset{} else Loses(c, acts[0], why) + Lost(Step(c, acts[0]), acts[1..], why)
  }

  ghost function LosesAny(c: Client, a: Action): multiset<Entry> {
    Loses(c, a, Overflow) + Loses(c, a, DeadSocket) + Loses(c, a, TopicGone)
  }

  // ----- one step -----

  ghost function Accepts(c: Client, a: Action): multiset<Entry> {
    multiset(Accepted(c, [a]))
  }

  lemma AcceptsOne(c: Client, a: Action)
    ensures Accepts(c, a) == match a
                             case Ask(Push(e)) => if e.topic in c.topics.joinRefs then multiset{e} else multiset{}
                             case _ => multiset{}
  {
    assert Accepted(Step(c, a), [a][1..]) == [];
  }

  lemma EmitHolds(n: Net, jr: Option<nat>, e: Entry, o: Origin)
    ensures Written(Emit(n, jr, e, o).wire)
         == Written(n.wire) + if n.link == Open && (o == ByPush || o == ByFlush) then multiset{e} else multiset{}
  {
  }

  lemma EnqueueHolds(q: seq<Entry>, e: Entry)
    ensures multiset(Enqueue(q, e)) + (if |q| == PENDING_PUSH_CAP then multiset{q[0]} else multiset{})
         == multiset(q) + multiset{e}
  {
    if |q| == PENDING_PUSH_CAP {
      assert q == [q[0]] + q[1..];
    }
  }

  lemma PushHolds(c: Client, e: Entry, o: Origin)
    requires o == ByPush || o == ByFlush
    ensures Held(DoPush(c, e, o)) + PushLoses(c, e, Overflow) + PushLoses(c, e, DeadSocket)
         == Held(c) + if e.topic in c.topics.joinRefs then multiset{e} else multiset{}
  {
    if e.topic !in c.topics.joinRefs {
      assert PushLoses(c, e, Overflow) == PushLoses(c, e, DeadSocket) == multiset{};
    } else if c.disconnected {
      QueuedHolds(c, e, o);
    } else {
      WrittenHolds(c, e, o);
    }
  }

  lemma QueuedHolds(c: Client, e: Entry, o: Origin)
    requires e.topic in c.topics.joinRefs && c.disconnected
    ensures Held(DoPush(c, e, o)) + PushLoses(c, e, Overflow) + PushLoses(c, e, DeadSocket) == Held(c) + multiset{e}
  {
    EnqueueHolds(c.queue, e);
    var w, q, over := Written(c.net.wire), multiset(Enqueue(c.queue, e)), PushLoses(c, e, Overflow);
    assert over == if |c.queue| == PENDING_PUSH_CAP then multiset{c.queue[0]} else multiset{};
    assert Held(DoPush(c, e, o)) == w + q && PushLoses(c, e, DeadSocket) == multiset{};
    assert (w + q) + over == w + (q + over);
    assert w + (multiset(c.queue) + multiset{e}) == Held(c) + multiset{e};
  }

  lemma WrittenHolds(c: Client, e: Entry, o: Origin)
    requires e.topic in c.topics.joinRefs && !c.disconnected && (o == ByPush || o == ByFlush)
    ensures Held(DoPush(c, e, o)) + PushLoses(c, e, Overflow) + PushLoses(c, e, DeadSocket) == Held(c) + multiset{e}
  {
    EmitHolds(c.net, Some(c.topics.joinRefs[e.topic]), e, o);
    assert PushLoses(c, e, Overflow) == multiset{};
  }

  /** A flush step writes its entry, queues it again or loses it by a named cause; it never doubles it. */
  lemma FlushHolds(c: Client, id: nat)
    ensures Held(DoLoopFlush(c, id))
            + FlushLoses(c, id, Overflow) + FlushLoses(c, id, DeadSocket) + FlushLoses(c, id, TopicGone) == Held(c)
  {
    if In(c, id, Flushing) && c.queue != [] {
      assert c.queue == [c.queue[0]] + c.queue[1..];
      PushHolds(c.(queue := c.queue[1..]), c.queue[0], ByFlush);
    }
  }

  lemma JoinHolds(c: Client, topic: string, handler: Handler, loop: Option<nat>)
    ensures Held(StartJoin(c, topic, handler, loop)) == Held(c)
  {
    EmitHolds(c.net, Some(c.net.counter), Entry(topic, PhxJoin, EMPTY_OBJ), ByJoin);
  }

  lemma ServeHolds(c: Client, q: Request)
    ensures Held(Serve(c, q)) + LosesAny(c, Ask(q)) == Held(c) + Accepts(c, Ask(q))
  {
    AcceptsOne(c, Ask(q));
    match q
    case Connect =>
    case Join(topic, handler) => JoinHolds(c, topic, handler, None);
    case Push(e) => PushHolds(c, e, ByPush);
    case Call(e) =>
      if e.topic in c.topics.joinRefs {
        EmitHolds(c.net, Some(c.topics.joinRefs[e.topic]), e, ByCall);
      }
    case Heartbeat => EmitHolds(c.net, None, Entry("phoenix", Beat, EMPTY_OBJ), ByHeartbeat);
  }

  lemma RejoinHolds(c: Client, id: nat)
    ensures Held(DoLoopRejoin(c, id)) == Held(c)
  {
    if In(c, id, Rejoining) && c.loops[id].todo != [] && c.loops[id].todo[0] in c.loops[id].snapshot {
      JoinHolds(c, c.loops[id].todo[0], c.loops[id].snapshot[c.loops[id].todo[0]], Some(id));
    }
  }

  lemma OtherLifeHolds(c: Client, l: Life)
    requires !l.LoopRejoin? && !l.LoopFlush?
    ensures Live(c, l).net.wire == c.net.wire && Live(c, l).queue == c.queue
  {
  }

  lemma LiveHolds(c: Client, l: Life)
    ensures Held(Live(c, l)) + LosesAny(c, Lives(l)) == Held(c)
  {
    if l.LoopFlush? {
      FlushHolds(c, l.id);
    } else {
      assert LosesAny(c, Lives(l)) == multiset{};
      if l.LoopRejoin? {
        RejoinHolds(c, l.id);
      } else {
        OtherLifeHolds(c, l);
      }
    }
  }

  lemma HearHolds(c: Client, g: Signal)
    ensures Held(Hear(c, g)) == Held(c)
  {
  }

  lemma StepHolds(c: Client, a: Action)
    ensures Held(Step(c, a)) + LosesAny(c, a) == Held(c) + Accepts(c, a)
  {
    AcceptsOne(c, a);
    match a
    case Ask(q) => ServeHolds(c, q);
    case Tell(g) => HearHolds(c, g);
    case Lives(l) => LiveHolds(c, l);
  }

  // ----- runs -----

  ghost function LostAny(c: Client, acts: seq<Action>): multiset<Entry> {
    Lost(c, acts, Overflow) + Lost(c, acts, DeadSocket) + Lost(c, acts, TopicGone)
  }

  lemma Regroups<T>(a: multiset<T>, b: multiset<T>, c: multiset<T>, x: multiset<T>, y: multiset<T>, z: multiset<T>)
    ensures (a + x) + (b + y) + (c + z) == (a + b + c) + (x + y + z)
  {
  }

  lemma LostSplits(c: Client, acts: seq<Action>)
    requires acts != []
    ensures LostAny(c, acts) == LosesAny(c, acts[0]) + LostAny(Step(c, acts[0]), acts[1..])
    ensures multiset(Accepted(c, acts)) == Accepts(c, acts[0]) + multiset(Accepted(Step(c, acts[0]), acts[1..]))
  {
    AcceptsOne(c, acts[0]);
    var d, a, rest := Step(c, acts[0]), acts[0], acts[1..];
    Regroups(Loses(c, a, Overflow), Loses(c, a, DeadSocket), Loses(c, a, TopicGone),
             Lost(d, rest, Overflow), Lost(d, rest, DeadSocket), Lost(d, rest, TopicGone));
  }

  lemma Balance<T>(h0: multiset<T>, h1: multiset<T>, h2: multiset<T>, l0: multiset<T>, l1: multiset<T>,
                   a0: multiset<T>, a1: multiset<T>)
    requires h1 + l0 == h0 + a0 && h2 + l1 == h1 + a1
    ensures h2 + (l0 + l1) == h0 + (a0 + a1)
  {
    assert h2 + (l0 + l1) == (h2 + l1) + l0;
    assert (h1 + a1) + l0 == (h1 + l0) + a1;
    assert (h0 + a0) + a1 == h0 + (a0 + a1);
  }

  /**
   In every run, counted with multiplicity, the pushes held at the start and accepted since are
   exactly those on some wire, those still queued, and those lost to a full queue, to a socket
   that took no write, or to a topic no longer joined at the flush.
   */
  lemma {:induction false} EveryPushAccounted(c: Client, acts: seq<Action>)
    ensures Held(Run(c, acts)) + LostAny(c, acts) == Held(c) + multiset(Accepted(c, acts))
    decreases |acts|
  {
    if acts != [] {
      var d, rest := Step(c, acts[0]), acts[1..];
      StepHolds(c, acts[0]);
      EveryPushAccounted(d, rest);
      LostSplits(c, acts);
      Balance(Held(c), Held(d), Held(Run(d, rest)), LosesAny(c, acts[0]), LostAny(d, rest),
              Accepts(c, acts[0]), multiset(Accepted(d, rest)));
    }
  }

  lemma Part<T>(a: multiset<T>, b: multiset<T>, c: multiset<T>)
    requires a + b == multiset{} + c
    ensures a <= c
  {
    assert multiset{} + c == c;
    assert a <= a + b;
  }

  /** At most once: the pushes on all wires and in the queue are among those accepted. */
  lemma NeverDuplicated(auto: bool, acts: seq<Action>)
    ensures Held(Run(Init(auto), acts)) <= multiset(Accepted(Init(auto), acts))
  {
    EveryPushAccounted(Init(auto), acts);
    assert Held(Init(auto)) == multiset{};
    Part(Held(Run(Init(auto), acts)), LostAny(Init(auto), acts), multiset(Accepted(Init(auto), acts)));
  }
}
