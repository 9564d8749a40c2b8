/**
 The stdio bridge: a tool call is correlated twice, first by the phx ref of its push ack,
 then by the req_id of its tool_result envelope.  The step system interleaves dispatches,
 acks, inbound frames, the receive loop, timeouts, cancellations and close.  A step is the
 code between two suspension points; a step that is not enabled changes nothing.
 */
module BridgeModel {
  import opened Prelude

  datatype Event = PhxReply | Envelope | PhxClose | PhxError | Other(name: string)

  datatype Kind = ToolResultKind | SessionKilled | OtherKind
  /**
   A payload by the fields the bridge reads: no object, falsy or not, or an object with its
   kind, its req_id if that is a string, whether its status is "error", and the whole object.
   */
  datatype Payload =
    | Falsy
    | NoObject
    | Obj(kind: Kind, reqId: Option<string>, isError: bool, whole: Json)

  function TextOf(f: map<string, Json>, k: string): Option<string> {
    if k in f && f[k].JStr? then Some(f[k].s) else None
  }

  function KindOf(f: map<string, Json>): Kind {
    match TextOf(f, "kind")
    case None => OtherKind
    case Some(k) => if k == "tool_result" then ToolResultKind else if k == "session_killed" then SessionKilled else OtherKind
  }

  /** How the bridge reads a decoded JSON value. */
  function Decode(v: Json): Payload {
    match v
    case JObj(f) => Obj(KindOf(f), TextOf(f, "req_id"), TextOf(f, "status") == Some("error"), v)
    case JNull => Falsy
    case JBool(b) => if b then NoObject else Falsy
    case JNum(n) => if n != 0 then NoObject else Falsy
    case JStr(s) => if s != "" then NoObject else Falsy
    case JList(items) => if items != [] then NoObject else Falsy
  }

  datatype Frame = Frame(ref: Option<nat>, event: Event, payload: Payload)

  datatype Ack = AckWaiting | Acked(payload: Payload) | AckFailed
  datatype ToolFuture = ToolWaiting | ToolResult(payload: Payload) | ToolCancelled

  datatype Outcome =
    | NotConfigured
    | PushError(reply: Payload)
    | TimedOut
    | Raised
    | Content(payload: Payload)
  datatype Phase = AwaitAck(ref: nat) | AwaitResult | Done(outcome: Outcome)

  /** Where an inbound frame went. */
  datatype Fate = ToFuture | ToInbox | Dropped

  /** PhoenixChannelClient; pending is the key set of _pending, a future being named by its ref. */
  datatype Phx = Phx(up: bool, closing: bool, ended: bool, joined: bool, counter: nat,
                     pending: set<nat>, acks: map<nat, Ack>, inbox: seq<Frame>)

  /** BridgeMCPServer; pending is the key set of _pending_tool_calls. */
  datatype Mcp = Mcp(configured: bool, pending: set<string>, results: map<string, ToolFuture>)

  /** History of inbound frames; settledBy maps a ref to the index of the frame that settled it. */
  datatype Log = Log(arrived: seq<Frame>, fates: seq<Fate>, settledBy: map<nat, nat>, taken: seq<Frame>)

  /** waiters are the coroutines inside _push_and_await: a tool call, or none for a join. */
  datatype Bridge = Bridge(
    phx: Phx,
    mcp: Mcp,
    waiters: map<nat, Option<string>>,
    calls: map<string, Phase>,
    alive: bool,
    refOf: map<string, nat>,  // history: the phx ref each tool call was pushed under
    log: Log)

  function Init(configured: bool): Bridge {
    Bridge(Phx(false, false, false, false, 0, {}, map[], []), Mcp(configured, {}, map[]), map[], map[], true, map[],
           Log([], [], map[], []))
  }

  // ----- phx client -----

  function Register(p: Phx): Phx {
    var r := p.counter + 1;
    p.(counter := r, pending := p.pending + {r}, acks := p.acks[r := AckWaiting])
  }

  function FateOf(p: Phx, f: Frame): Fate {
    if f.event == PhxReply && f.ref.Some? && f.ref.value in p.pending then
      if f.ref.value in p.acks && p.acks[f.ref.value] == AckWaiting then ToFuture else Dropped
    else ToInbox
  }

  function Receive(p: Phx, f: Frame): Phx {
    match FateOf(p, f)
    case ToFuture => p.(acks := p.acks[f.ref.value := Acked(f.payload)])
    case ToInbox => p.(inbox := p.inbox + [f])
    case Dropped => p
  }

  function FailPending(p: Phx): map<nat, Ack> {
    map r | r in p.acks :: if r in p.pending && p.acks[r] == AckWaiting then AckFailed else p.acks[r]
  }

  function EndClose(p: Phx): Phx {
    p.(closing := true, ended := true, up := false, acks := FailPending(p), pending := {})
  }

  // ----- receive loop -----

  datatype Body = Result(reqId: Option<string>) | Shutdown | Pass

  /** How the receive loop reads a frame; Shutdown ends the loop, by signal or by an error. */
  function Read(f: Frame): Body {
    match f.event
    case Envelope =>
      (match f.payload
       case Falsy => Pass
       case NoObject => Shutdown
       case Obj(ToolResultKind, q, _, _) => Result(q)
       case Obj(SessionKilled, _, _, _) => Shutdown
       case Obj(OtherKind, _, _, _) => Pass)
    case PhxClose => Shutdown
    case PhxError => Shutdown
    case PhxReply => Pass
    case Other(_) => Pass
  }

  function Resolve(m: Mcp, q: string, payload: Payload): Mcp {
    if q !in m.pending then m
    else m.(pending := m.pending - {q},
            results := if q in m.results && m.results[q] == ToolWaiting
                       then m.results[q := ToolResult(payload)] else m.results)
  }

  function Consume(m: Mcp, f: Frame): Mcp {
    var body := Read(f);
    if body.Result? && body.reqId.Some? then Resolve(m, body.reqId.value, f.payload) else m
  }

  function Take(b: Bridge): Bridge {
    if b.alive && b.phx.inbox != [] then
      var f := b.phx.inbox[0];
      b.(phx := b.phx.(inbox := b.phx.inbox[1..]), log := b.log.(taken := b.log.taken + [f]),
         mcp := Consume(b.mcp, f), alive := !Read(f).Shutdown?)
    else b
  }

  // ----- tool dispatch -----

  /** _dispatch_tool up to the await of its push. */
  function Dispatch(b: Bridge, q: string): Bridge {
    if q in b.calls then b
    else if !b.mcp.configured then b.(calls := b.calls[q := Done(NotConfigured)])
    else if !b.phx.up || !b.phx.joined then
      b.(calls := b.calls[q := Done(Raised)], mcp := b.mcp.(results := b.mcp.results[q := ToolWaiting]))
    else
      var r := b.phx.counter + 1;
      b.(phx := Register(b.phx), waiters := b.waiters[r := Some(q)], calls := b.calls[q := AwaitAck(r)],
         refOf := b.refOf[q := r],
         mcp := b.mcp.(pending := b.mcp.pending + {q}, results := b.mcp.results[q := ToolWaiting]))
  }

  function Drop(m: Mcp, q: string): Mcp {
    m.(pending := m.pending - {q})
  }

  /** The call returns or raises; its finally clause removes the key. */
  function Finish(b: Bridge, q: string, o: Outcome): Bridge {
    b.(calls := b.calls[q := Done(o)], mcp := Drop(b.mcp, q))
  }

  /** None when the push was acked and the call goes on to wait for its result. */
  function AckOutcome(a: Ack): Option<Outcome> {
    if a.Acked? && a.payload.Obj? then (if a.payload.isError then Some(PushError(a.payload)) else None)
    else Some(Raised)
  }

  /**
   What becomes of the call when its push is over: sent says whether the send itself went
   through.  A result that is already there is returned at once, it cannot time out.
   */
  function AfterPush(a: Ack, sent: bool, result: ToolFuture): Phase {
    var o := if sent then AckOutcome(a) else Some(Raised);
    if o.Some? then Done(o.value) else if result.ToolResult? then Done(Content(result.payload)) else AwaitResult
  }

  function ResultOf(m: Mcp, q: string): ToolFuture {
    if q in m.results then m.results[q] else ToolWaiting
  }

  /** The coroutine inside _push_and_await leaves it, and a call that ends here removes its key. */
  function LeavePush(b: Bridge, r: nat, sent: bool): Bridge {
    if r in b.waiters && r in b.phx.acks && (sent ==> b.phx.acks[r] != AckWaiting) then
      var p := b.phx.(pending := b.phx.pending - {r});
      if b.waiters[r].None? then b.(phx := p, waiters := b.waiters - {r})
      else
        var q := b.waiters[r].value;
        var next := AfterPush(b.phx.acks[r], sent, ResultOf(b.mcp, q));
        b.(phx := p, waiters := b.waiters - {r}, calls := b.calls[q := next],
           mcp := if next.Done? then Drop(b.mcp, q) else b.mcp)
    else b
  }

  function Timeout(b: Bridge, q: string): Bridge {
    if q in b.calls && b.calls[q] == AwaitResult && q in b.mcp.results && b.mcp.results[q] == ToolWaiting
    then b.(mcp := b.mcp.(results := b.mcp.results[q := ToolCancelled])) else b
  }

  function WaitOutcome(t: ToolFuture, late: bool): Outcome {
    if t.ToolResult? && !late then Content(t.payload) else TimedOut
  }

  /** The wait for the tool result ends; late means the timer beat the resume of a settled future. */
  function LeaveWait(b: Bridge, q: string, late: bool): Bridge {
    if q in b.calls && b.calls[q] == AwaitResult && q in b.mcp.results && b.mcp.results[q] != ToolWaiting
    then Finish(b, q, WaitOutcome(b.mcp.results[q], late)) else b
  }

  function Cancel(b: Bridge, q: string): Bridge {
    if q in b.calls && b.calls[q] == AwaitResult then Finish(b, q, Raised) else b
  }

  // ----- steps -----

  datatype WireStep = Connects | Joins | Beats | Arrives(frame: Frame) | BeginsClose | EndsClose

  datatype TaskStep =
    | Takes
    | LoopDies
    | Dispatches(reqId: string)
    | LeavesPush(ref: nat, sent: bool)
    | TimesOut(reqId: string)
    | LeavesWait(reqId: string, late: bool)
    | Cancels(reqId: string)

  datatype Action = Wire(w: WireStep) | Task(t: TaskStep)

  function Settle(p: Phx, settledBy: map<nat, nat>, f: Frame, i: nat): map<nat, nat> {
    if FateOf(p, f) == ToFuture then settledBy[f.ref.value := i] else settledBy
  }

  function Arrive(b: Bridge, f: Frame): Bridge {
    b.(phx := Receive(b.phx, f),
       log := b.log.(arrived := b.log.arrived + [f], fates := b.log.fates + [FateOf(b.phx, f)],
                     settledBy := Settle(b.phx, b.log.settledBy, f, |b.log.arrived|)))
  }

  function Join(b: Bridge): Bridge {
    if !b.phx.up then b
    else b.(phx := Register(b.phx).(joined := true), waiters := b.waiters[b.phx.counter + 1 := None])
  }

  function OnWire(b: Bridge, w: WireStep): Bridge {
    match w
    case Connects => if b.phx.closing then b else b.(phx := b.phx.(up := true))
    case Joins => Join(b)
    case Beats => if b.phx.up && !b.phx.closing then b.(phx := b.phx.(counter := b.phx.counter + 1)) else b
    case Arrives(f) => Arrive(b, f)
    case BeginsClose => b.(phx := b.phx.(closing := true))
    case EndsClose => b.(phx := EndClose(b.phx))
  }

  function OnTask(b: Bridge, t: TaskStep): Bridge {
    match t
    case Takes => Take(b)
    case LoopDies => b.(alive := false)
    case Dispatches(q) => Dispatch(b, q)
    case LeavesPush(r, sent) => LeavePush(b, r, sent)
    case TimesOut(q) => Timeout(b, q)
    case LeavesWait(q, late) => LeaveWait(b, q, late)
    case Cancels(q) => Cancel(b, q)
  }

  function Step(b: Bridge, a: Action): Bridge {
    match a
    case Wire(w) => OnWire(b, w)
    case Task(t) => OnTask(b, t)
  }

  function Run(b: Bridge, acts: seq<Action>): Bridge
    decreases |acts|
  {
    if acts == [] then b else Run(Step(b, acts[0]), acts[1..])
  }
}
