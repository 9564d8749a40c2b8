/**
 The reconnecting Phoenix Channels client as a step system.  One action is the code
 between two suspension points of the event loop: a counter draw, the map updates and
 the socket write that follow it run without a switch.  A socket that has closed takes
 no writes and never reopens; a reconnect makes a new connection with a new number.
 Actions that are not enabled leave the client unchanged.
 */
module ChannelModel {
  import opened Prelude

  const PENDING_PUSH_CAP := 1000

  type Handler = nat  // identity of the callback registered for a topic

  /** Event names: the ones the protocol reserves, and every other string. */
  datatype Event = PhxJoin | PhxReply | Beat | Named(name: string)

  datatype Frame = Frame(joinRef: Option<nat>, ref: nat, topic: string, event: Event, payload: Json)
  datatype Origin = ByJoin | ByPush | ByFlush | ByCall | ByHeartbeat
  /** A frame accepted by the socket of connection number conn. */
  datatype Sent = Sent(conn: nat, frame: Frame, origin: Origin)

  datatype Entry = Entry(topic: string, event: Event, payload: Json)
  datatype SocketState = NoSocket | Open | Closed
  datatype Future = Waiting | Resolved(payload: Json) | Cancelled
  datatype Outcome = Returned(payload: Json) | Expired | SendFailed
  /** A coroutine suspended in _join_internal; loop is the reconnect loop running it, if any. */
  datatype Joiner = Joiner(topic: string, loop: Option<nat>)
  datatype Phase = Connecting | Rejoining | Awaiting(ref: nat) | Flushing | Finished
  /** A _reconnect_loop task; asked and refused record the re-joins of the current attempt. */
  datatype Loop = Loop(phase: Phase, todo: seq<string>, snapshot: map<string, Handler>,
                       asked: map<string, nat>, refused: set<string>)

  /** The ref counter and the socket; conn and wire are history, the client never reads them. */
  datatype Net = Net(counter: nat, link: SocketState, conn: nat, wire: seq<Sent>)

  datatype Topics = Topics(joinRefs: map<string, nat>, handlers: map<string, Handler>)

  /** pending is the key set of _pending_replies, a future being named by its ref; replies and outcomes are history. */
  datatype Book = Book(
    pending: set<nat>, futures: map<nat, Future>, joiners: map<nat, Joiner>, calls: set<nat>,
    replies: seq<(nat, Json)>, outcomes: map<nat, Outcome>)

  datatype Client = Client(
    net: Net,
    topics: Topics,
    book: Book,
    queue: seq<Entry>,
    disconnected: bool,
    shutdown: bool,
    autoReconnect: bool,
    loops: map<nat, Loop>,
    nextLoop: nat)

  /** What the owner of the client calls, and the heartbeat timer. */
  datatype Request =
    | Connect
    | Join(topic: string, handler: Handler)
    | Push(entry: Entry)
    | Call(entry: Entry)
    | Heartbeat

  /** Inbound frames, and coroutines that resume from a reply future. */
  datatype Signal =
    | Inbound(inRef: Option<nat>, event: Event, payload: Json)
    | JoinResume(ref: nat)
    | JoinAbandon(ref: nat)
    | CallTimeout(ref: nat)
    | CallReturn(ref: nat, late: bool)

  /** The socket, its read loop, the reconnect loops and close(). */
  datatype Life =
    | SocketClose
    | ReaderEnd
    | LoopConnectFail(id: nat)
    | LoopConnectOk(id: nat, order: seq<string>)
    | LoopRejoin(id: nat)
    | LoopFlush(id: nat)
    | CloseBegin
    | CloseEnd

  datatype Action = Ask(req: Request) | Tell(sig: Signal) | Lives(life: Life)

  function Init(auto: bool): Client {
    Client(Net(1, NoSocket, 0, []), Topics(map[], map[]), Book({}, map[], map[], {}, [], map[]),
           [], false, false, auto, map[], 0)
  }

  // ----- the socket -----

  /** Draw a ref and write a frame under it; a socket that is not open takes no frame but the ref is gone. */
  function Emit(n: Net, joinRef: Option<nat>, e: Entry, o: Origin): Net {
    n.(counter := n.counter + 1,
       wire := if n.link == Open
               then n.wire + [Sent(n.conn, Frame(joinRef, n.counter, e.topic, e.event, e.payload), o)]
               else n.wire)
  }

  function Reopen(n: Net): Net {
    n.(conn := n.conn + 1, link := Open)
  }

  function Shut(n: Net): Net {
    if n.link == Open then n.(link := Closed) else n
  }

  // ----- futures -----

  function Register(b: Book, r: nat): Book {
    b.(pending := b.pending + {r}, futures := b.futures[r := Waiting])
  }

  function TakeReply(b: Book, r: nat, payload: Json): Book {
    b.(replies := b.replies + [(r, payload)],
       pending := b.pending - {r},
       futures := if r in b.pending && r in b.futures && b.futures[r] == Waiting
                  then b.futures[r := Resolved(payload)] else b.futures)
  }

  function TimeOut(b: Book, r: nat): Book {
    if r in b.calls && r in b.futures && b.futures[r] == Waiting
    then b.(futures := b.futures[r := Cancelled]) else b
  }

  /** The call coroutine resumes; late means the timer fired after the reply but before the resume. */
  function ReturnCall(b: Book, r: nat, late: bool): Book {
    if r in b.calls && r in b.futures && b.futures[r] != Waiting then
      b.(calls := b.calls - {r}, pending := b.pending - {r},
         outcomes := b.outcomes[r := if b.futures[r].Resolved? && !late
                                     then Returned(b.futures[r].payload) else Expired])
    else b
  }

  /** Cancelling a coroutine that awaits a reply cancels the future it awaits, unless that is done. */
  function CancelWaits(futures: map<nat, Future>, refs: set<nat>): map<nat, Future> {
    map r | r in futures :: if r in refs && futures[r] == Waiting then Cancelled else futures[r]
  }

  // ----- client operations -----

  function Enqueue(q: seq<Entry>, e: Entry): seq<Entry> {
    (if |q| == PENDING_PUSH_CAP then q[1..] else q) + [e]
  }

  /** The reply is an object whose status is not ok; a reply that is no object raises and refuses nothing. */
  predicate Refuses(reply: Json) {
    reply.JObj? && !("status" in reply.fields && reply.fields["status"] == JStr("ok"))
  }

  function Record(t: Topics, topic: string, handler: Handler, ref: nat): Topics {
    Topics(t.joinRefs[topic := ref], t.handlers[topic := handler])
  }

  function Forget(t: Topics, topic: string): Topics {
    Topics(t.joinRefs - {topic}, t.handlers - {topic})
  }

  /** _join_internal up to its await; the topic is recorded even when the write fails. */
  function StartJoin(c: Client, topic: string, handler: Handler, loop: Option<nat>): Client {
    var r := c.net.counter;
    var b := Register(c.book, r);
    c.(net := Emit(c.net, Some(r), Entry(topic, PhxJoin, EMPTY_OBJ), ByJoin),
       topics := Record(c.topics, topic, handler, r),
       book := if c.net.link == Open then b.(joiners := b.joiners[r := Joiner(topic, loop)]) else b)
  }

  function DoPush(c: Client, e: Entry, o: Origin): Client {
    if e.topic !in c.topics.joinRefs then c
    else if c.disconnected then c.(queue := Enqueue(c.queue, e))
    else c.(net := Emit(c.net, Some(c.topics.joinRefs[e.topic]), e, o))
  }

  function DoCall(c: Client, e: Entry): Client {
    if e.topic !in c.topics.joinRefs then c
    else
      var r := c.net.counter;
      c.(net := Emit(c.net, Some(c.topics.joinRefs[e.topic]), e, ByCall),
         book := if c.net.link == Open then Register(c.book, r).(calls := c.book.calls + {r})
                 else c.book.(outcomes := c.book.outcomes[r := SendFailed]))
  }

  function DoInbound(c: Client, inRef: Option<nat>, event: Event, payload: Json): Client {
    if event == PhxReply && inRef.Some? then c.(book := TakeReply(c.book, inRef.value, payload)) else c
  }

  function ResumeLoop(loops: map<nat, Loop>, loop: Option<nat>, topic: string, no: bool): map<nat, Loop> {
    if loop.Some? && loop.value in loops then
      var l := loops[loop.value];
      loops[loop.value := l.(phase := Rejoining, refused := if no then l.refused + {topic} else l.refused)]
    else loops
  }

  function DoJoinResume(c: Client, r: nat): Client {
    if r in c.book.joiners && r in c.book.futures && c.book.futures[r].Resolved? then
      var j := c.book.joiners[r];
      var no := Refuses(c.book.futures[r].payload);
      c.(book := c.book.(joiners := c.book.joiners - {r}),
         topics := if no then Forget(c.topics, j.topic) else c.topics,
         loops := ResumeLoop(c.loops, j.loop, j.topic, no))
    else c
  }

  /** The owner cancels a join; its topic stays recorded. */
  function DoJoinAbandon(c: Client, r: nat): Client {
    if r in c.book.joiners && c.book.joiners[r].loop.None?
    then c.(book := c.book.(joiners := c.book.joiners - {r}, futures := CancelWaits(c.book.futures, {r}))) else c
  }

  function DoReaderEnd(c: Client): Client {
    if c.autoReconnect && !c.shutdown then
      c.(disconnected := true, loops := c.loops[c.nextLoop := Loop(Connecting, [], map[], map[], {})],
         nextLoop := c.nextLoop + 1)
    else c.(disconnected := true)
  }

  predicate Enumerates(order: seq<string>, keys: set<string>) {
    NoDup(order) && (set t | t in order) == keys
  }

  predicate In(c: Client, id: nat, phase: Phase) {
    id in c.loops && c.loops[id].phase == phase
  }

  /** order is the iteration order of the handler dict. */
  function DoLoopConnectOk(c: Client, id: nat, order: seq<string>): Client {
    if In(c, id, Connecting) && Enumerates(order, c.topics.handlers.Keys) then
      c.(net := Reopen(c.net), disconnected := false, topics := Topics(map[], map[]),
         loops := c.loops[id := Loop(Rejoining, order, c.topics.handlers, map[], {})])
    else c
  }

  function DoLoopRejoin(c: Client, id: nat): Client {
    if In(c, id, Rejoining) then
      var l := c.loops[id];
      if l.todo == [] then c.(loops := c.loops[id := l.(phase := Flushing)])
      else if l.todo[0] in l.snapshot then
        StartJoin(c, l.todo[0], l.snapshot[l.todo[0]], Some(id)).(
          loops := c.loops[id := l.(todo := l.todo[1..],
                                    asked := l.asked[l.todo[0] := c.net.counter],
                                    phase := if c.net.link == Open then Awaiting(c.net.counter) else Rejoining)])
      else c
    else c
  }

  function DoLoopFlush(c: Client, id: nat): Client {
    if In(c, id, Flushing) then
      if c.queue == [] then c.(loops := c.loops[id := c.loops[id].(phase := Finished)])
      else DoPush(c.(queue := c.queue[1..]), c.queue[0], ByFlush)
    else c
  }

  function JoinsOf(joiners: map<nat, Joiner>, id: nat): set<nat> {
    set r | r in joiners && joiners[r].loop == Some(id)
  }

  function CancelLoop(b: Book, id: nat): Book {
    b.(joiners := b.joiners - JoinsOf(b.joiners, id), futures := CancelWaits(b.futures, JoinsOf(b.joiners, id)))
  }

  /** close() up to its first await: stop reconnecting and cancel the newest reconnect loop. */
  function DoCloseBegin(c: Client): Client {
    if c.nextLoop == 0 then c.(shutdown := true)
    else
      c.(shutdown := true, loops := c.loops - {c.nextLoop - 1},
         book := CancelLoop(c.book, c.nextLoop - 1))
  }

  // ----- the step system -----

  function Serve(c: Client, q: Request): Client {
    match q
    case Connect => c.(net := Reopen(c.net), disconnected := false)
    case Join(topic, handler) => if c.net.link == NoSocket then c else StartJoin(c, topic, handler, None)
    case Push(e) => DoPush(c, e, ByPush)
    case Call(e) => DoCall(c, e)
    case Heartbeat =>
      if c.net.link == Open then c.(net := Emit(c.net, None, Entry("phoenix", Beat, EMPTY_OBJ), ByHeartbeat)) else c
  }

  function Hear(c: Client, g: Signal): Client {
    match g
    case Inbound(r, event, payload) => DoInbound(c, r, event, payload)
    case JoinResume(r) => DoJoinResume(c, r)
    case JoinAbandon(r) => DoJoinAbandon(c, r)
    case CallTimeout(r) => c.(book := TimeOut(c.book, r))
    case CallReturn(r, late) => c.(book := ReturnCall(c.book, r, late))
  }

  function Live(c: Client, l: Life): Client {
    match l
    case SocketClose => c.(net := Shut(c.net))
    case ReaderEnd => DoReaderEnd(c)
    case LoopConnectFail(id) => if In(c, id, Connecting) then c.(net := Shut(c.net)) else c
    case LoopConnectOk(id, order) => DoLoopConnectOk(c, id, order)
    case LoopRejoin(id) => DoLoopRejoin(c, id)
    case LoopFlush(id) => DoLoopFlush(c, id)
    case CloseBegin => DoCloseBegin(c)
    case CloseEnd => c.(net := c.net.(link := NoSocket))
  }

  function Step(c: Client, a: Action): Client {
    match a
    case Ask(q) => Serve(c, q)
    case Tell(g) => Hear(c, g)
    case Lives(l) => Live(c, l)
  }

  function Run(c: Client, acts: seq<Action>): Client
    decreases |acts|
  {
    if acts == [] then c else Run(Step(c, acts[0]), acts[1..])
  }
}
