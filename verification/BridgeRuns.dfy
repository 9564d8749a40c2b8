/** What every interleaving of the bridge keeps. */
module BridgeRuns {
  import opened Prelude
  import opened BridgeModel

  // ----- a call is either waiting in one place or finished, and a finished call holds no key -----

  /** Waiters and calls awaiting an ack name each other; pending keys and futures belong to live calls. */
  ghost predicate Linked(m: Mcp, waiters: map<nat, Option<string>>, calls: map<string, Phase>, counter: nat) {
    (forall q :: q in m.pending ==> q in calls && !calls[q].Done?) &&
    (forall q :: q in m.results ==> q in calls) &&
    (forall q :: q in calls && !calls[q].Done? ==> q in m.results && (m.results[q] == ToolWaiting ==> q in m.pending)) &&
    (forall q :: q in calls && calls[q].AwaitAck? ==> calls[q].ref in waiters && waiters[calls[q].ref] == Some(q)) &&
    (forall r :: r in waiters && waiters[r].Some? ==>
       waiters[r].value in calls && calls[waiters[r].value] == AwaitAck(r)) &&
    (forall r :: r in waiters ==> r <= counter)
  }

  ghost predicate CallsWF(b: Bridge) {
    Linked(b.mcp, b.waiters, b.calls, b.phx.counter)
  }

  lemma RefuseLinks(m: Mcp, w: map<nat, Option<string>>, calls: map<string, Phase>, n: nat, q: string, o: Outcome)
    requires Linked(m, w, calls, n) && q !in calls
    ensures Linked(m, w, calls[q := Done(o)], n)
    ensures Linked(m.(results := m.results[q := ToolWaiting]), w, calls[q := Done(o)], n)
  {
  }

  lemma StartLinks(m: Mcp, w: map<nat, Option<string>>, calls: map<string, Phase>, n: nat, q: string)
    requires Linked(m, w, calls, n) && q !in calls
    ensures Linked(m.(pending := m.pending + {q}, results := m.results[q := ToolWaiting]), w[n + 1 := Some(q)],
                   calls[q := AwaitAck(n + 1)], n + 1)
  {
  }

  lemma AckLinks(m: Mcp, w: map<nat, Option<string>>, calls: map<string, Phase>, n: nat, r: nat, o: Outcome)
    requires Linked(m, w, calls, n) && r in w
    ensures w[r].None? ==> Linked(m, w - {r}, calls, n)
    ensures w[r].Some? ==> Linked(m, w - {r}, calls[w[r].value := AwaitResult], n)
    ensures w[r].Some? ==> Linked(Drop(m, w[r].value), w - {r}, calls[w[r].value := Done(o)], n)
  {
  }

  lemma EndLinks(m: Mcp, w: map<nat, Option<string>>, calls: map<string, Phase>, n: nat, q: string, o: Outcome)
    requires Linked(m, w, calls, n) && q in calls && calls[q] == AwaitResult
    ensures Linked(Drop(m, q), w, calls[q := Done(o)], n)
  {
  }

  lemma LeavePushKeepsCalls(b: Bridge, r: nat, sent: bool)
    requires CallsWF(b)
    ensures CallsWF(LeavePush(b, r, sent))
  {
    var d := LeavePush(b, r, sent);
    if d != b {
      var next := if b.waiters[r].Some? then d.calls[b.waiters[r].value] else AwaitResult;
      AckLinks(b.mcp, b.waiters, b.calls, b.phx.counter, r, if next.Done? then next.outcome else Raised);
    }
  }

  lemma TakeKeepsCalls(b: Bridge)
    requires CallsWF(b)
    ensures CallsWF(Take(b))
  {
  }

  lemma WaitKeepsCalls(b: Bridge, q: string, late: bool)
    requires CallsWF(b)
    ensures CallsWF(LeaveWait(b, q, late)) && CallsWF(Cancel(b, q))
  {
    if q in b.calls && b.calls[q] == AwaitResult {
      var d := LeaveWait(b, q, late).calls[q];
      EndLinks(b.mcp, b.waiters, b.calls, b.phx.counter, q, if d.Done? then d.outcome else Raised);
      EndLinks(b.mcp, b.waiters, b.calls, b.phx.counter, q, Raised);
    }
  }

  lemma DispatchKeepsCalls(b: Bridge, q: string)
    requires CallsWF(b)
    ensures CallsWF(Dispatch(b, q))
  {
    if q !in b.calls {
      RefuseLinks(b.mcp, b.waiters, b.calls, b.phx.counter, q, NotConfigured);
      RefuseLinks(b.mcp, b.waiters, b.calls, b.phx.counter, q, Raised);
      StartLinks(b.mcp, b.waiters, b.calls, b.phx.counter, q);
    }
  }

  lemma TaskKeepsCalls(b: Bridge, t: TaskStep)
    requires CallsWF(b)
    ensures CallsWF(OnTask(b, t))
  {
    match t
    case Takes => TakeKeepsCalls(b);
    case Dispatches(q) => DispatchKeepsCalls(b, q);
    case LeavesPush(r, sent) => LeavePushKeepsCalls(b, r, sent);
    case LeavesWait(q, late) => WaitKeepsCalls(b, q, late);
    case Cancels(q) => WaitKeepsCalls(b, q, false);
    case _ =>
  }

  lemma WireKeepsCalls(b: Bridge, w: WireStep)
    requires CallsWF(b)
    ensures CallsWF(OnWire(b, w))
  {
  }

  // ----- results come from their own tool_result -----

  ghost predicate FromOwnResult(taken: seq<Frame>, q: string, payload: Payload) {
    exists i :: 0 <= i < |taken| && taken[i].payload == payload && Read(taken[i]) == Result(Some(q))
  }

  ghost predicate ResultsOwn(b: Bridge) {
    (forall q :: q in b.mcp.results && b.mcp.results[q].ToolResult? ==>
       FromOwnResult(b.log.taken, q, b.mcp.results[q].payload)) &&
    (forall q :: q in b.calls && b.calls[q].Done? && b.calls[q].outcome.Content? ==>
       FromOwnResult(b.log.taken, q, b.calls[q].outcome.payload))
  }

  lemma OwnResultGrows(taken: seq<Frame>, f: Frame, q: string, payload: Payload)
    requires FromOwnResult(taken, q, payload) || (f.payload == payload && Read(f) == Result(Some(q)))
    ensures FromOwnResult(taken + [f], q, payload)
  {
    var t1 := taken + [f];
    if FromOwnResult(taken, q, payload) {
      var i :| 0 <= i < |taken| && taken[i].payload == payload && Read(taken[i]) == Result(Some(q));
      assert t1[i] == taken[i];
    } else {
      assert t1[|taken|] == f;
    }
  }

  lemma TakeKeepsOwn(b: Bridge)
    requires ResultsOwn(b)
    ensures ResultsOwn(Take(b))
  {
    if b.alive && b.phx.inbox != [] {
      var f, d := b.phx.inbox[0], Take(b);
      assert d.log.taken == b.log.taken + [f] && d.calls == b.calls;
      forall q | q in d.mcp.results && d.mcp.results[q].ToolResult?
        ensures FromOwnResult(d.log.taken, q, d.mcp.results[q].payload)
      {
        OwnResultGrows(b.log.taken, f, q, d.mcp.results[q].payload);
      }
      forall q | q in d.calls && d.calls[q].Done? && d.calls[q].outcome.Content?
        ensures FromOwnResult(d.log.taken, q, d.calls[q].outcome.payload)
      {
        OwnResultGrows(b.log.taken, f, q, d.calls[q].outcome.payload);
      }
    }
  }

  lemma TaskKeepsOwn(b: Bridge, t: TaskStep)
    requires ResultsOwn(b)
    ensures ResultsOwn(OnTask(b, t))
  {
    match t
    case Takes => TakeKeepsOwn(b);
    case _ =>
  }

  // ----- outcomes and futures are final -----

  ghost predicate CallsFinal(c: map<string, Phase>, d: map<string, Phase>) {
    forall q :: q in c ==> q in d && (c[q].Done? ==> d[q] == c[q])
  }

  ghost predicate ResultsFinal(m: Mcp, n: Mcp) {
    forall q :: q in m.results && m.results[q] != ToolWaiting ==> q in n.results && n.results[q] == m.results[q]
  }

  ghost predicate AcksFinal(p: Phx, o: Phx) {
    forall r :: r in p.acks && p.acks[r] != AckWaiting ==> r in o.acks && o.acks[r] == p.acks[r]
  }

  ghost predicate Final(b: Bridge, d: Bridge) {
    CallsFinal(b.calls, d.calls) && ResultsFinal(b.mcp, d.mcp) && AcksFinal(b.phx, d.phx)
  }

  lemma LeavePushIsFinal(b: Bridge, r: nat, sent: bool)
    requires CallsWF(b)
    ensures Final(b, LeavePush(b, r, sent))
  {
  }

  lemma DispatchIsFinal(b: Bridge, q: string)
    requires CallsWF(b) && PhxWF(b.phx)
    ensures Final(b, Dispatch(b, q))
  {
  }

  lemma TaskIsFinal(b: Bridge, t: TaskStep)
    requires CallsWF(b) && PhxWF(b.phx)
    ensures Final(b, OnTask(b, t))
  {
    match t
    case LeavesPush(r, sent) => LeavePushIsFinal(b, r, sent);
    case Dispatches(q) => DispatchIsFinal(b, q);
    case _ =>
  }

  lemma WireIsFinal(b: Bridge, w: WireStep)
    requires PhxWF(b.phx)
    ensures Final(b, OnWire(b, w))
  {
  }

  // ----- the phx client: one place per frame, nothing left waiting after close -----

  ghost predicate PhxWF(p: Phx) {
    (forall r :: r in p.acks ==> r <= p.counter) &&
    (forall r :: r in p.pending ==> r in p.acks && p.acks[r] != AckFailed) &&
    (p.ended ==> !p.up && p.closing && p.pending == {})
  }

  /** Every suspended push is still pending or already settled; none waits once close() is through. */
  ghost predicate WaitersWF(p: Phx, waiters: map<nat, Option<string>>) {
    forall r :: r in waiters ==> r in p.acks && (p.acks[r] != AckWaiting || r in p.pending)
  }

  ghost function Kept(arrived: seq<Frame>, fates: seq<Fate>): seq<Frame>
    requires |arrived| == |fates|
  {
    if arrived == [] then []
    else
      var n := |arrived| - 1;
      Kept(arrived[..n], fates[..n]) + (if fates[n] == ToInbox then [arrived[n]] else [])
  }

  /**
   Each arrived frame has one fate: the frames kept are the inbox traffic in arrival order;
   a frame sent to a future is the only one to settle its ref, and the ref's result is its
   payload; a dropped frame is a reply to a ref settled by an earlier frame.
   */
  ghost predicate Routed(p: Phx, arrived: seq<Frame>, fates: seq<Fate>, at: map<nat, nat>, taken: seq<Frame>) {
    && |arrived| == |fates|
    && Kept(arrived, fates) == taken + p.inbox
    && (forall r :: r in at <==> r in p.acks && p.acks[r].Acked?)
    && (forall r :: r in at ==>
          && at[r] < |arrived| && fates[at[r]] == ToFuture
          && arrived[at[r]] == Frame(Some(r), PhxReply, p.acks[r].payload))
    && (forall i :: 0 <= i < |fates| && fates[i] == ToFuture ==>
          arrived[i].ref.Some? && arrived[i].ref.value in at && at[arrived[i].ref.value] == i)
    && (forall i :: 0 <= i < |fates| && fates[i] == Dropped ==>
          arrived[i].event == PhxReply && arrived[i].ref.Some? && arrived[i].ref.value in at && at[arrived[i].ref.value] < i)
  }

  lemma KeptGrows(arrived: seq<Frame>, fates: seq<Fate>, f: Frame, t: Fate)
    requires |arrived| == |fates|
    ensures Kept(arrived + [f], fates + [t]) == Kept(arrived, fates) + (if t == ToInbox then [f] else [])
  {
  }

  lemma SettleRoutes(p: Phx, arrived: seq<Frame>, fates: seq<Fate>, at: map<nat, nat>, taken: seq<Frame>, f: Frame)
    requires PhxWF(p) && Routed(p, arrived, fates, at, taken) && FateOf(p, f) == ToFuture
    ensures Routed(Receive(p, f), arrived + [f], fates + [ToFuture], Settle(p, at, f, |arrived|), taken)
  {
    KeptGrows(arrived, fates, f, ToFuture);
    assert f.ref.value !in at;
  }

  lemma PassRoutes(p: Phx, arrived: seq<Frame>, fates: seq<Fate>, at: map<nat, nat>, taken: seq<Frame>, f: Frame)
    requires PhxWF(p) && Routed(p, arrived, fates, at, taken) && FateOf(p, f) != ToFuture
    ensures Routed(Receive(p, f), arrived + [f], fates + [FateOf(p, f)], at, taken)
  {
  }

  lemma ReceiveRoutes(p: Phx, arrived: seq<Frame>, fates: seq<Fate>, at: map<nat, nat>, taken: seq<Frame>, f: Frame)
    requires PhxWF(p) && Routed(p, arrived, fates, at, taken)
    ensures Routed(Receive(p, f), arrived + [f], fates + [FateOf(p, f)], Settle(p, at, f, |arrived|), taken)
  {
    if FateOf(p, f) == ToFuture {
      SettleRoutes(p, arrived, fates, at, taken, f);
    } else {
      PassRoutes(p, arrived, fates, at, taken, f);
    }
  }

  lemma RegisterIsWF(p: Phx, w: map<nat, Option<string>>, q: Option<string>, j: bool)
    requires PhxWF(p) && p.up
    ensures PhxWF(Register(p).(joined := j))
    ensures WaitersWF(p, w) ==> WaitersWF(Register(p).(joined := j), w[p.counter + 1 := q])
  {
  }

  lemma LeaveIsWF(p: Phx, w: map<nat, Option<string>>, r: nat)
    requires PhxWF(p)
    ensures PhxWF(p.(pending := p.pending - {r}))
    ensures WaitersWF(p, w) ==> WaitersWF(p.(pending := p.pending - {r}), w - {r})
  {
  }

  ghost predicate PhxGood(b: Bridge) {
    PhxWF(b.phx) && WaitersWF(b.phx, b.waiters)
  }

  lemma WireIsGood(b: Bridge, w: WireStep)
    requires PhxGood(b)
    ensures PhxGood(OnWire(b, w))
  {
    match w
    case Joins =>
      if b.phx.up {
        RegisterIsWF(b.phx, b.waiters, None, true);
      }
    case EndsClose => CloseIsWF(b.phx, b.waiters);
    case _ =>
  }

  lemma CloseIsWF(p: Phx, w: map<nat, Option<string>>)
    requires PhxWF(p) && WaitersWF(p, w)
    ensures PhxWF(EndClose(p)) && WaitersWF(EndClose(p), w)
  {
  }

  lemma TaskIsGood(b: Bridge, t: TaskStep)
    requires PhxGood(b)
    ensures PhxGood(OnTask(b, t))
  {
    match t
    case Dispatches(q) =>
      if b.phx.up {
        RegisterIsWF(b.phx, b.waiters, Some(q), b.phx.joined);
      }
    case LeavesPush(r, sent) => LeaveIsWF(b.phx, b.waiters, r);
    case _ =>
  }

  ghost predicate FramesRouted(b: Bridge) {
    Routed(b.phx, b.log.arrived, b.log.fates, b.log.settledBy, b.log.taken)
  }

  /** A step that leaves the history of arrivals alone. */
  lemma NoArrival(b: Bridge, d: Bridge)
    requires FramesRouted(b)
    requires d.log == b.log.(taken := d.log.taken)
    requires b.log.taken + b.phx.inbox == d.log.taken + d.phx.inbox
    requires forall r :: r in b.phx.acks && b.phx.acks[r].Acked? ==> r in d.phx.acks && d.phx.acks[r] == b.phx.acks[r]
    requires forall r :: r in d.phx.acks && d.phx.acks[r].Acked? ==> r in b.phx.acks && b.phx.acks[r].Acked?
    ensures FramesRouted(d)
  {
  }

  lemma WireRoutes(b: Bridge, w: WireStep)
    requires PhxWF(b.phx) && FramesRouted(b)
    ensures FramesRouted(OnWire(b, w))
  {
    if w.Arrives? {
      ReceiveRoutes(b.phx, b.log.arrived, b.log.fates, b.log.settledBy, b.log.taken, w.frame);
    } else {
      WireTraffic(b, w);
      NoArrival(b, OnWire(b, w));
    }
  }

  lemma WireTraffic(b: Bridge, w: WireStep)
    requires PhxWF(b.phx) && !w.Arrives?
    ensures var d := OnWire(b, w);
            && d.log == b.log && d.phx.inbox == b.phx.inbox
            && (forall r :: r in b.phx.acks && b.phx.acks[r].Acked? ==> r in d.phx.acks && d.phx.acks[r] == b.phx.acks[r])
            && (forall r :: r in d.phx.acks && d.phx.acks[r].Acked? ==> r in b.phx.acks && b.phx.acks[r].Acked?)
  {
  }

  /** d settles no ack, and only moves frames from the inbox to the taken ones. */
  ghost predicate KeepsTraffic(b: Bridge, d: Bridge) {
    && d.phx.ended == b.phx.ended && d.log == b.log.(taken := d.log.taken)
    && b.log.taken + b.phx.inbox == d.log.taken + d.phx.inbox
    && (d.phx.acks == b.phx.acks || d.phx.acks == b.phx.acks[b.phx.counter + 1 := AckWaiting])
  }

  lemma TakeKeepsTraffic(b: Bridge)
    ensures KeepsTraffic(b, Take(b))
  {
  }

  lemma DispatchKeepsTraffic(b: Bridge, q: string)
    ensures KeepsTraffic(b, Dispatch(b, q))
  {
  }

  lemma LeavePushKeepsTraffic(b: Bridge, r: nat, sent: bool)
    ensures KeepsTraffic(b, LeavePush(b, r, sent))
  {
  }

  lemma TaskTraffic(b: Bridge, t: TaskStep)
    ensures KeepsTraffic(b, OnTask(b, t))
  {
    match t
    case Takes => TakeKeepsTraffic(b);
    case Dispatches(q) => DispatchKeepsTraffic(b, q);
    case LeavesPush(r, sent) => LeavePushKeepsTraffic(b, r, sent);
    case _ =>
  }

  lemma TaskRoutes(b: Bridge, t: TaskStep)
    requires PhxWF(b.phx) && FramesRouted(b)
    ensures FramesRouted(OnTask(b, t))
  {
    TaskTraffic(b, t);
    NoArrival(b, OnTask(b, t));
  }

  // ----- both correlations are the call's own -----

  /** The push under ref r was acknowledged, and not with an error. */
  ghost predicate AckedOk(acks: map<nat, Ack>, r: nat) {
    r in acks && acks[r].Acked? && acks[r].payload.Obj? && !acks[r].payload.isError
  }

  /** What the phase of a call says about the ack of its own push. */
  ghost predicate AckFits(acks: map<nat, Ack>, r: nat, p: Phase) {
    match p
    case AwaitAck(x) => x == r
    case AwaitResult => AckedOk(acks, r)
    case Done(Content(_)) => AckedOk(acks, r)
    case Done(TimedOut) => AckedOk(acks, r)
    case Done(PushError(reply)) => r in acks && acks[r] == Acked(reply) && reply.Obj? && reply.isError
    case _ => true
  }

  ghost predicate NeedsRef(p: Phase) {
    !p.Done? || p.outcome.Content? || p.outcome.TimedOut? || p.outcome.PushError?
  }

  ghost predicate AcksOwn(b: Bridge) {
    (forall q :: q in b.calls && NeedsRef(b.calls[q]) ==>
       q in b.refOf && AckFits(b.phx.acks, b.refOf[q], b.calls[q])) &&
    (forall q :: q in b.refOf ==> q in b.calls && b.refOf[q] <= b.phx.counter) &&
    (forall p, q :: p in b.refOf && q in b.refOf && p != q ==> b.refOf[p] != b.refOf[q])
  }

  /** A step that keeps settled acks and leaves the calls alone. */
  lemma AcksFollow(b: Bridge, d: Bridge)
    requires AcksOwn(b) && AcksFinal(b.phx, d.phx) && d.calls == b.calls && d.refOf == b.refOf
    requires b.phx.counter <= d.phx.counter
    ensures AcksOwn(d)
  {
  }

  /** A step that moves one call, whose new phase fits the ack of its push. */
  lemma OneCallMoves(b: Bridge, d: Bridge, q: string, p: Phase)
    requires AcksOwn(b) && d.calls == b.calls[q := p] && d.refOf == b.refOf && d.phx.acks == b.phx.acks
    requires d.phx.counter == b.phx.counter
    requires NeedsRef(p) ==> q in b.refOf && AckFits(b.phx.acks, b.refOf[q], p)
    ensures AcksOwn(d)
  {
  }

  lemma DispatchAcksOwn(b: Bridge, q: string)
    requires AcksOwn(b) && PhxWF(b.phx) && CallsWF(b)
    ensures AcksOwn(Dispatch(b, q))
  {
    if q !in b.calls && b.mcp.configured && b.phx.up && b.phx.joined {
      var d := Dispatch(b, q);
      forall p | p in d.calls && NeedsRef(d.calls[p])
        ensures p in d.refOf && AckFits(d.phx.acks, d.refOf[p], d.calls[p])
      {
        if p != q {
          assert AckFits(b.phx.acks, b.refOf[p], b.calls[p]);
          assert b.refOf[p] <= b.phx.counter;
        }
      }
      assert d.refOf == b.refOf[q := b.phx.counter + 1];
    } else {
      RefusedAcksOwn(b, q);
    }
  }

  lemma RefusedAcksOwn(b: Bridge, q: string)
    requires AcksOwn(b) && (q in b.calls || !b.mcp.configured || !b.phx.up || !b.phx.joined)
    ensures AcksOwn(Dispatch(b, q))
  {
    if q !in b.calls {
      OneCallMoves(b, Dispatch(b, q), q, Dispatch(b, q).calls[q]);
    }
  }

  lemma LeavePushAcksOwn(b: Bridge, r: nat, sent: bool)
    requires AcksOwn(b) && CallsWF(b)
    ensures AcksOwn(LeavePush(b, r, sent))
  {
    var d := LeavePush(b, r, sent);
    if d != b {
      if b.waiters[r].None? {
        AcksFollow(b, d);
      } else {
        var q := b.waiters[r].value;
        assert b.calls[q] == AwaitAck(r);
        OneCallMoves(b, d, q, d.calls[q]);
      }
    }
  }

  lemma WaitAcksOwn(b: Bridge, q: string, late: bool)
    requires AcksOwn(b)
    ensures AcksOwn(LeaveWait(b, q, late)) && AcksOwn(Cancel(b, q))
  {
    if q in b.calls && b.calls[q] == AwaitResult {
      var d, e := LeaveWait(b, q, late), Cancel(b, q);
      if d != b {
        OneCallMoves(b, d, q, d.calls[q]);
      }
      OneCallMoves(b, e, q, e.calls[q]);
    }
  }

  lemma TaskAcksOwn(b: Bridge, t: TaskStep)
    requires AcksOwn(b) && PhxWF(b.phx) && CallsWF(b)
    ensures AcksOwn(OnTask(b, t))
  {
    match t
    case Dispatches(q) => DispatchAcksOwn(b, q);
    case LeavesPush(r, sent) => LeavePushAcksOwn(b, r, sent);
    case LeavesWait(q, late) => WaitAcksOwn(b, q, late);
    case Cancels(q) => WaitAcksOwn(b, q, false);
    case _ => AcksFollow(b, OnTask(b, t));
  }

  lemma WireAcksOwn(b: Bridge, w: WireStep)
    requires AcksOwn(b) && PhxWF(b.phx)
    ensures AcksOwn(OnWire(b, w))
  {
    WireIsFinal(b, w);
    AcksFollow(b, OnWire(b, w));
  }

  // ----- runs -----

  ghost predicate Sound(b: Bridge) {
    CallsWF(b) && ResultsOwn(b) && AcksOwn(b) && PhxGood(b) && FramesRouted(b)
  }

  lemma WireKeeps(b: Bridge, w: WireStep)
    requires Sound(b)
    ensures Sound(OnWire(b, w)) && Final(b, OnWire(b, w))
  {
    WireKeepsCalls(b, w);
    WireAcksOwn(b, w);
    WireIsGood(b, w);
    WireRoutes(b, w);
    WireIsFinal(b, w);
  }

  lemma TaskKeeps(b: Bridge, t: TaskStep)
    requires Sound(b)
    ensures Sound(OnTask(b, t)) && Final(b, OnTask(b, t))
  {
    TaskKeepsCalls(b, t);
    TaskKeepsOwn(b, t);
    TaskAcksOwn(b, t);
    TaskIsGood(b, t);
    TaskRoutes(b, t);
    TaskIsFinal(b, t);
  }

  lemma StepKeeps(b: Bridge, a: Action)
    requires Sound(b)
    ensures Sound(Step(b, a)) && Final(b, Step(b, a))
  {
    match a
    case Wire(w) => WireKeeps(b, w);
    case Task(t) => TaskKeeps(b, t);
  }

  lemma {:induction false} RunKeeps(b: Bridge, acts: seq<Action>)
    requires Sound(b)
    ensures Sound(Run(b, acts)) && Final(b, Run(b, acts))
    decreases |acts|
  {
    if acts != [] {
      StepKeeps(b, acts[0]);
      RunKeeps(Step(b, acts[0]), acts[1..]);
    }
  }

  lemma {:induction false} RunAppend(b: Bridge, acts: seq<Action>, a: Action)
    ensures Run(b, acts + [a]) == Step(Run(b, acts), a)
    decreases |acts|
  {
    if acts == [] {
      assert acts + [a] == [a] && [a][1..] == [];
    } else {
      assert (acts + [a])[1..] == acts[1..] + [a];
      RunAppend(Step(b, acts[0]), acts[1..], a);
    }
  }

  lemma InitIsSound(configured: bool)
    ensures Sound(Init(configured))
  {
  }

  /** What it means for a call to have ended in b, seen from a later state d. */
  ghost predicate EndedOnce(b: Bridge, d: Bridge, q: string)
    requires q in b.calls && b.calls[q].Done?
  {
    && q in d.calls && d.calls[q] == b.calls[q]
    && q !in d.mcp.pending
    && (forall payload :: Resolve(d.mcp, q, payload) == d.mcp)
    && (b.calls[q].outcome.Content? ==>
          && FromOwnResult(b.log.taken, q, b.calls[q].outcome.payload)
          && b.calls[q].outcome.payload.Obj? && b.calls[q].outcome.payload.reqId == Some(q)
          && q in b.refOf && AckedOk(b.phx.acks, b.refOf[q]))
    && (b.calls[q].outcome.PushError? ==> q in b.refOf && AckFits(b.phx.acks, b.refOf[q], b.calls[q]))
  }

  lemma SoundEnds(b: Bridge, d: Bridge, q: string)
    requires CallsWF(d) && ResultsOwn(b) && AcksOwn(b) && CallsFinal(b.calls, d.calls)
    requires q in b.calls && b.calls[q].Done?
    ensures EndedOnce(b, d, q)
  {
  }

  /**
   A tool call returns at most once: after any further run its outcome is the same, it holds
   no key, and a tool_result for it, late or repeated, changes no call and no result.  Success
   content is the payload of a tool_result envelope the receive loop took with its own req_id,
   after the push under the call's own phx ref was acknowledged without an error.
   */
  lemma ToolCallEndsOnce(configured: bool, before: seq<Action>, b: Bridge, after: seq<Action>, d: Bridge, q: string)
    requires b == Run(Init(configured), before) && d == Run(b, after)
    requires q in b.calls && b.calls[q].Done?
    ensures EndedOnce(b, d, q)
  {
    InitIsSound(configured);
    RunKeeps(Init(configured), before);
    RunKeeps(b, after);
    SoundEnds(b, d, q);
  }

  /** The result of call q is there before its push is over, or the call ended with it or without asking for it. */
  ghost predicate EarlyKept(b: Bridge, q: string, payload: Payload) {
    && q in b.calls && q in b.mcp.results && b.mcp.results[q] == ToolResult(payload)
    && match b.calls[q]
       case AwaitAck(_) => true
       case AwaitResult => false
       case Done(o) => o == Content(payload) || o.PushError? || o == Raised
  }

  lemma TaskKeepsEarly(b: Bridge, t: TaskStep, q: string, payload: Payload)
    requires CallsWF(b) && EarlyKept(b, q, payload) && ResultsFinal(b.mcp, OnTask(b, t).mcp)
    ensures EarlyKept(OnTask(b, t), q, payload)
  {
    var d := OnTask(b, t);
    match t
    case LeavesPush(r, sent) => LeavePushKeepsEarly(b, r, sent, q, payload);
    case Dispatches(x) => assert q in d.calls && d.calls[q] == b.calls[q];
    case Takes => assert d.calls == b.calls;
    case LoopDies =>
    case TimesOut(x) => assert d.calls == b.calls;
    case LeavesWait(x, late) => assert d.calls[q] == b.calls[q];
    case Cancels(x) => assert d.calls[q] == b.calls[q];
  }

  lemma LeavePushKeepsEarly(b: Bridge, r: nat, sent: bool, q: string, payload: Payload)
    requires CallsWF(b) && EarlyKept(b, q, payload)
    ensures EarlyKept(LeavePush(b, r, sent), q, payload)
  {
    var d := LeavePush(b, r, sent);
    if d != b && b.waiters[r] == Some(q) {
      assert d.calls[q] == AfterPush(b.phx.acks[r], sent, ToolResult(payload));
    } else if d != b {
      assert d.calls[q] == b.calls[q];
    }
  }

  lemma WireKeepsEarly(b: Bridge, w: WireStep, q: string, payload: Payload)
    requires EarlyKept(b, q, payload)
    ensures EarlyKept(OnWire(b, w), q, payload)
  {
  }

  lemma {:induction false} RunKeepsEarly(b: Bridge, acts: seq<Action>, q: string, payload: Payload)
    requires Sound(b) && EarlyKept(b, q, payload)
    ensures EarlyKept(Run(b, acts), q, payload)
    decreases |acts|
  {
    if acts != [] {
      StepKeeps(b, acts[0]);
      match acts[0] {
        case Wire(w) => WireKeepsEarly(b, w, q, payload);
        case Task(t) => TaskKeepsEarly(b, t, q, payload);
      }
      RunKeepsEarly(Step(b, acts[0]), acts[1..], q, payload);
    }
  }

  /**
   A tool_result that comes before the push ack is never lost to a timeout or to a later
   result: in every later state the call still awaits the ack of its push, or has ended with
   that result, with the error ack of its push, or by a push that failed.  When the ok ack
   comes, leaving the push ends the call with that result.
   */
  lemma EarlyResultIsReturned(configured: bool, before: seq<Action>, b: Bridge, after: seq<Action>, d: Bridge,
                              q: string, payload: Payload)
    requires b == Run(Init(configured), before) && d == Run(b, after)
    requires q in b.calls && b.calls[q].AwaitAck?
    requires q in b.mcp.results && b.mcp.results[q] == ToolResult(payload)
    ensures EarlyKept(d, q, payload)
    ensures d.calls[q].AwaitAck? && AckedOk(d.phx.acks, d.calls[q].ref)
            ==> LeavePush(d, d.calls[q].ref, true).calls[q] == Done(Content(payload))
  {
    InitIsSound(configured);
    RunKeeps(Init(configured), before);
    RunKeeps(b, after);
    RunKeepsEarly(b, after, q, payload);
  }

  // ----- answers that come in time are taken -----

  /** The frame is a tool_result envelope for q, by its JSON. */
  ghost predicate IsResultFor(f: Frame, q: string) {
    && f.event == Envelope && f.payload.Obj? && f.payload.whole.JObj? && f.payload == Decode(f.payload.whole)
    && var m := f.payload.whole.fields;
       "kind" in m && m["kind"] == JStr("tool_result") && "req_id" in m && m["req_id"] == JStr(q)
  }

  /** A call that has not ended takes the first tool_result with its req_id. */
  lemma ResultReachesCall(b: Bridge, q: string)
    requires CallsWF(b) && b.alive && b.phx.inbox != [] && IsResultFor(b.phx.inbox[0], q)
    requires q in b.calls && !b.calls[q].Done? && q in b.mcp.results && b.mcp.results[q] == ToolWaiting
    ensures var d := Take(b);
            && q in d.mcp.results && d.mcp.results[q] == ToolResult(b.phx.inbox[0].payload)
            && d.calls == b.calls && d.alive && q !in d.mcp.pending
  {
  }

  /** Call q has its result and is about to return it, or has returned it. */
  ghost predicate ResultKept(b: Bridge, q: string, payload: Payload) {
    && q in b.calls && q in b.mcp.results && b.mcp.results[q] == ToolResult(payload)
    && (b.calls[q] == AwaitResult || b.calls[q] == Done(Content(payload)))
  }

  lemma StepKeepsResult(b: Bridge, a: Action, q: string, payload: Payload)
    requires CallsWF(b) && Final(b, Step(b, a)) && ResultKept(b, q, payload)
    requires a != Task(LeavesWait(q, true)) && a != Task(Cancels(q))
    ensures ResultKept(Step(b, a), q, payload)
  {
    match a
    case Wire(w) => WireKeepsResult(b, w, q, payload);
    case Task(t) => TaskKeepsResult(b, t, q, payload);
  }

  lemma WireKeepsResult(b: Bridge, w: WireStep, q: string, payload: Payload)
    requires ResultKept(b, q, payload)
    ensures ResultKept(OnWire(b, w), q, payload)
  {
  }

  lemma TaskKeepsResult(b: Bridge, t: TaskStep, q: string, payload: Payload)
    requires CallsWF(b) && ResultKept(b, q, payload) && t != LeavesWait(q, true) && t != Cancels(q)
    requires CallsFinal(b.calls, OnTask(b, t).calls) && ResultsFinal(b.mcp, OnTask(b, t).mcp)
    ensures ResultKept(OnTask(b, t), q, payload)
  {
    var d := OnTask(b, t);
    match t
    case LeavesPush(r, sent) => assert d.calls[q] == b.calls[q];
    case Dispatches(x) => assert d.calls[q] == b.calls[q];
    case LeavesWait(x, late) => assert x != q ==> d.calls[q] == b.calls[q];
    case Cancels(x) => assert d.calls[q] == b.calls[q];
    case _ => assert d.calls == b.calls;
  }

  lemma {:induction false} RunKeepsResult(b: Bridge, acts: seq<Action>, q: string, payload: Payload)
    requires Sound(b) && ResultKept(b, q, payload)
    requires forall i :: 0 <= i < |acts| ==> acts[i] != Task(LeavesWait(q, true)) && acts[i] != Task(Cancels(q))
    ensures ResultKept(Run(b, acts), q, payload)
    decreases |acts|
  {
    if acts != [] {
      StepKeeps(b, acts[0]);
      StepKeepsResult(b, acts[0], q, payload);
      RunKeepsResult(Step(b, acts[0]), acts[1..], q, payload);
    }
  }

  /**
   A call waits for its result and the receive loop takes a tool_result with its req_id: over
   any further run in which the call is not cancelled and its timer does not beat its resume,
   it is about to return that envelope or has returned it, and when it resumes it does.
   */
  lemma TimelyResultIsReturned(configured: bool, before: seq<Action>, b: Bridge, q: string, after: seq<Action>, d: Bridge)
    requires b == Run(Init(configured), before) && q in b.calls && b.calls[q] == AwaitResult
    requires q in b.mcp.results && b.mcp.results[q] == ToolWaiting
    requires b.alive && b.phx.inbox != [] && IsResultFor(b.phx.inbox[0], q) && d == Run(Take(b), after)
    requires forall i :: 0 <= i < |after| ==> after[i] != Task(LeavesWait(q, true)) && after[i] != Task(Cancels(q))
    ensures ResultKept(d, q, b.phx.inbox[0].payload)
    ensures d.calls[q] == AwaitResult ==> LeaveWait(d, q, false).calls[q] == Done(Content(b.phx.inbox[0].payload))
  {
    ReachableIsSound(configured, before);
    TakenIsKept(b, q);
    RunKeepsResult(Take(b), after, q, b.phx.inbox[0].payload);
    ReturnsResult(d, q, b.phx.inbox[0].payload);
  }

  lemma ReachableIsSound(configured: bool, acts: seq<Action>)
    ensures Sound(Run(Init(configured), acts))
  {
    InitIsSound(configured);
    RunKeeps(Init(configured), acts);
  }

  lemma TakenIsKept(b: Bridge, q: string)
    requires Sound(b) && q in b.calls && b.calls[q] == AwaitResult && q in b.mcp.results && b.mcp.results[q] == ToolWaiting
    requires b.alive && b.phx.inbox != [] && IsResultFor(b.phx.inbox[0], q)
    ensures Sound(Take(b)) && ResultKept(Take(b), q, b.phx.inbox[0].payload)
  {
    ResultReachesCall(b, q);
    TaskKeeps(b, Takes);
  }

  lemma ReturnsResult(b: Bridge, q: string, payload: Payload)
    requires ResultKept(b, q, payload)
    ensures b.calls[q] == AwaitResult ==> LeaveWait(b, q, false).calls[q] == Done(Content(payload))
  {
  }

  /** What the reply to the push of a call makes of it, by its JSON; t is the result future of the call. */
  ghost predicate AckDecided(reply: Json, t: ToolFuture, p: Phase) {
    if !reply.JObj? then p == Done(Raised)
    else if "status" in reply.fields && reply.fields["status"] == JStr("error") then p == Done(PushError(Decode(reply)))
    else if t.ToolResult? then p == Done(Content(t.payload))
    else p == AwaitResult
  }

  lemma AckRead(reply: Json, t: ToolFuture)
    ensures AckDecided(reply, t, AfterPush(Acked(Decode(reply)), true, t))
  {
  }

  /**
   A push that waits for its ack is answered by the first phx_reply with its ref: an object
   with status "error" ends the call with that error, any other object sends it on to its
   result (or returns the one that is there), and a reply that is no object makes it raise.
   A call that ends leaves no key.
   */
  lemma AckDecides(configured: bool, before: seq<Action>, b: Bridge, r: nat, q: string, reply: Json)
    requires b == Run(Init(configured), before) && r in b.waiters && b.waiters[r] == Some(q)
    requires r in b.phx.acks && b.phx.acks[r] == AckWaiting
    ensures var c := Arrive(b, Frame(Some(r), PhxReply, Decode(reply)));
            var d := LeavePush(c, r, true);
            && c.phx.acks == b.phx.acks[r := Acked(Decode(reply))] && c.phx.inbox == b.phx.inbox
            && q in d.calls && AckDecided(reply, ResultOf(b.mcp, q), d.calls[q])
            && d.mcp.pending == (if d.calls[q].Done? then b.mcp.pending - {q} else b.mcp.pending)
  {
    ReachableIsGood(configured, before);
    AckLands(b, r, q, Decode(reply));
    AckRead(reply, ResultOf(b.mcp, q));
  }

  lemma ReachableIsGood(configured: bool, acts: seq<Action>)
    ensures PhxGood(Run(Init(configured), acts))
  {
    RunIsGood(Init(configured), acts);
  }

  lemma AckLands(b: Bridge, r: nat, q: string, payload: Payload)
    requires PhxGood(b) && r in b.waiters && b.waiters[r] == Some(q) && r in b.phx.acks && b.phx.acks[r] == AckWaiting
    ensures var c := Arrive(b, Frame(Some(r), PhxReply, payload));
            && c.phx == b.phx.(acks := b.phx.acks[r := Acked(payload)]) && c.mcp == b.mcp
            && LeavePush(c, r, true).calls == b.calls[q := AfterPush(Acked(payload), true, ResultOf(b.mcp, q))]
            && LeavePush(c, r, true).mcp
               == if AfterPush(Acked(payload), true, ResultOf(b.mcp, q)).Done? then Drop(b.mcp, q) else b.mcp
  {
    var c := Arrive(b, Frame(Some(r), PhxReply, payload));
    assert c.phx == b.phx.(acks := b.phx.acks[r := Acked(payload)]);
    assert c == b.(phx := c.phx, log := c.log);
  }

  /** A send that fails makes its call raise and drop its key, whatever has come for it meanwhile. */
  lemma FailedSendRaises(b: Bridge, r: nat, q: string)
    requires r in b.waiters && b.waiters[r] == Some(q) && r in b.phx.acks
    ensures var d := LeavePush(b, r, false);
            q in d.calls && d.calls[q] == Done(Raised) && q !in d.mcp.pending && r !in d.phx.pending && r !in d.waiters
  {
  }

  /** A call whose timer fires before its result ends timed out, whatever results come before it resumes. */
  lemma TimeoutIsFinal(configured: bool, before: seq<Action>, b: Bridge, q: string, after: seq<Action>, d: Bridge,
                       late: bool)
    requires b == Run(Init(configured), before) && q in b.calls && b.calls[q] == AwaitResult
    requires q in b.mcp.results && b.mcp.results[q] == ToolWaiting
    requires d == Run(Timeout(b, q), after) && q in d.calls && d.calls[q] == AwaitResult
    ensures LeaveWait(d, q, late).calls[q] == Done(TimedOut) && q !in LeaveWait(d, q, late).mcp.pending
  {
    ReachableIsSound(configured, before);
    TimerCancels(b, q);
    TimerIsSound(b, q);
    ResultStays(Timeout(b, q), after, q);
    ReturnsTimedOut(d, q, late);
  }

  lemma TimerCancels(b: Bridge, q: string)
    requires q in b.calls && b.calls[q] == AwaitResult && q in b.mcp.results && b.mcp.results[q] == ToolWaiting
    ensures var c := Timeout(b, q); q in c.mcp.results && c.mcp.results[q] == ToolCancelled
  {
  }

  lemma TimerIsSound(b: Bridge, q: string)
    requires Sound(b)
    ensures Sound(Timeout(b, q))
  {
    TaskKeeps(b, TimesOut(q));
    assert OnTask(b, TimesOut(q)) == Timeout(b, q);
  }

  lemma ResultStays(b: Bridge, acts: seq<Action>, q: string)
    requires Sound(b) && q in b.mcp.results && b.mcp.results[q] != ToolWaiting
    ensures q in Run(b, acts).mcp.results && Run(b, acts).mcp.results[q] == b.mcp.results[q]
  {
    RunKeeps(b, acts);
  }

  lemma ReturnsTimedOut(b: Bridge, q: string, late: bool)
    requires q in b.calls && b.calls[q] == AwaitResult && q in b.mcp.results && b.mcp.results[q] == ToolCancelled
    ensures LeaveWait(b, q, late).calls[q] == Done(TimedOut) && q !in LeaveWait(b, q, late).mcp.pending
  {
  }

  /** What an envelope with this JSON is to the receive loop. */
  ghost predicate EndsLoop(v: Json) {
    match v
    case JObj(f) => "kind" in f && f["kind"] == JStr("session_killed")
    case JNull => false
    case JBool(x) => x
    case JNum(n) => n != 0
    case JStr(s) => s != ""
    case JList(items) => items != []
  }

  ghost predicate IsToolResult(v: Json) {
    v.JObj? && "kind" in v.fields && v.fields["kind"] == JStr("tool_result")
    && "req_id" in v.fields && v.fields["req_id"].JStr?
  }

  /**
   One turn of the receive loop on an envelope, by its JSON: a session_killed object or a truthy
   value that is no object ends the loop, nothing else does, and only a tool_result with a text
   req_id touches a pending call.
   */
  lemma EnvelopeIsRead(b: Bridge, v: Json)
    requires b.alive && b.phx.inbox != [] && b.phx.inbox[0].event == Envelope && b.phx.inbox[0].payload == Decode(v)
    ensures Take(b).alive <==> !EndsLoop(v)
    ensures !IsToolResult(v) ==> Take(b).mcp == b.mcp
    ensures IsToolResult(v) ==> Take(b).mcp == Resolve(b.mcp, v.fields["req_id"].s, Decode(v))
  {
  }

  /** Of the other frames the end of the channel ends the loop, and none touches a call. */
  lemma OtherFramesPass(b: Bridge)
    requires b.alive && b.phx.inbox != [] && b.phx.inbox[0].event != Envelope
    ensures Take(b).alive <==> b.phx.inbox[0].event != PhxClose && b.phx.inbox[0].event != PhxError
    ensures Take(b).mcp == b.mcp && Take(b).calls == b.calls
  {
  }

  /** A dispatched call waits for its ack exactly when the bridge is configured, connected and joined. */
  lemma DispatchDecides(b: Bridge, q: string)
    requires q !in b.calls
    ensures var d := Dispatch(b, q);
            && q in d.calls
            && (d.calls[q] == Done(NotConfigured) <==> !b.mcp.configured)
            && (d.calls[q].AwaitAck? <==> b.mcp.configured && b.phx.up && b.phx.joined)
            && (d.calls[q].AwaitAck? || d.calls[q] == Done(NotConfigured) || d.calls[q] == Done(Raised))
  {
  }

  /**
   Without a socket a join is refused, and without one or while closing no heartbeat goes out,
   so no ref is drawn; otherwise a join waits under the next ref and leaves the topic joined,
   and a heartbeat only draws a ref.
   */
  lemma RefsNeedSocket(b: Bridge)
    ensures !b.phx.up ==> OnWire(b, Joins) == b
    ensures !b.phx.up || b.phx.closing ==> OnWire(b, Beats) == b
    ensures b.phx.up ==>
              var j := OnWire(b, Joins);
              && j.phx.counter == b.phx.counter + 1 && j.phx.joined
              && j.phx.pending == b.phx.pending + {b.phx.counter + 1} && j.waiters == b.waiters[b.phx.counter + 1 := None]
    ensures b.phx.up && !b.phx.closing ==> OnWire(b, Beats) == b.(phx := b.phx.(counter := b.phx.counter + 1))
  {
  }

  /** In every run each inbound frame has gone to exactly one place. */
  lemma EveryFrameHasOneFate(configured: bool, acts: seq<Action>)
    ensures FramesRouted(Run(Init(configured), acts))
  {
    InitIsSound(configured);
    RunKeeps(Init(configured), acts);
  }

  /** Once close() is through, now and after any further run, nothing is pending and no push waits for its ack. */
  lemma CloseLeavesNothingWaiting(configured: bool, before: seq<Action>, b: Bridge, after: seq<Action>, d: Bridge)
    requires b == Run(Init(configured), before) && d == Run(Step(b, Wire(EndsClose)), after)
    ensures d.phx.pending == {} && forall r :: r in d.waiters ==> r in d.phx.acks && d.phx.acks[r] != AckWaiting
  {
    RunIsGood(Init(configured), before);
    WireIsGood(b, EndsClose);
    RunIsGood(Step(b, Wire(EndsClose)), after);
    NothingWaits(d);
  }

  lemma EndStays(b: Bridge, a: Action)
    requires b.phx.ended
    ensures Step(b, a).phx.ended
  {
    match a
    case Wire(w) => WireStaysEnded(b, w);
    case Task(t) => TaskTraffic(b, t);
  }

  lemma WireStaysEnded(b: Bridge, w: WireStep)
    requires b.phx.ended
    ensures OnWire(b, w).phx.ended
  {
  }

  lemma StepIsGood(b: Bridge, a: Action)
    requires PhxGood(b)
    ensures PhxGood(Step(b, a))
  {
    match a
    case Wire(w) => WireIsGood(b, w);
    case Task(t) => TaskIsGood(b, t);
  }

  lemma {:induction false} RunIsGood(b: Bridge, acts: seq<Action>)
    requires PhxGood(b)
    ensures PhxGood(Run(b, acts)) && (b.phx.ended ==> Run(b, acts).phx.ended)
    decreases |acts|
  {
    if acts != [] {
      StepIsGood(b, acts[0]);
      if b.phx.ended {
        EndStays(b, acts[0]);
      }
      RunIsGood(Step(b, acts[0]), acts[1..]);
    }
  }

  lemma NothingWaits(d: Bridge)
    requires PhxGood(d) && d.phx.ended
    ensures d.phx.pending == {} && forall r :: r in d.waiters ==> r in d.phx.acks && d.phx.acks[r] != AckWaiting
  {
  }
}
