/**
 The client object.  Valid() says that it is in a state some run of the step system reaches,
 with everything such runs keep, so the theorems about runs hold of every object; a reconnect
 attempt in progress is carried along.
 */
module ChannelClientClass {
  import opened Prelude
  import opened ChannelModel
  import opened ChannelScope
  import opened ChannelReconnect
  import opened ChannelParts

  /** A reconnect attempt: the state it started from, its loop, and the topics other callers may join meanwhile. */
  datatype Tried = Tried(start: Client, id: nat, others: set<string>)

  ghost predicate InAttempt(t: Option<Tried>, c: Client) {
    t.Some? ==> Attempt(t.value.start, t.value.id, t.value.others, c)
  }

  /** The attempt goes on as long as the steps around it are calm. */
  ghost function Carry(t: Option<Tried>, c: Client, a: Action): Option<Tried> {
    if t.Some? && Calm(c, a, t.value.id, t.value.others) then t else None
  }

  /** c is what the actions done lead to, with all that runs keep. */
  ghost predicate Reached(auto: bool, done: seq<Action>, c: Client) {
    c == Run(Init(auto), done) && Sound(c) && (CleanConnects(Init(auto), done) ==> Scoped(c))
  }

  lemma NextReached(auto: bool, done: seq<Action>, c: Client, a: Action, t: Option<Tried>)
    requires Reached(auto, done, c) && InAttempt(t, c)
    ensures Reached(auto, done + [a], Step(c, a)) && InAttempt(Carry(t, c, a), Step(c, a))
  {
    RunAppend(Init(auto), done, a);
    StepKeepsSound(c, a);
    if CleanConnects(Init(auto), done + [a]) {
      StepKeepsScoped(c, a);
    }
    if Carry(t, c, a).Some? {
      StepKeepsAttempt(t.value.start, t.value.id, t.value.others, c, a);
    }
  }

  /** Cancelling the newest loop leaves no join of it suspended, and no future of theirs waiting. */
  lemma CloseCancels(c: Client)
    ensures var d := DoCloseBegin(c);
            && d.shutdown && d.nextLoop == c.nextLoop
            && (d.nextLoop > 0 ==> d.nextLoop - 1 !in d.loops && JoinsOf(d.book.joiners, d.nextLoop - 1) == {})
            && (forall r :: r in c.book.joiners && r !in d.book.joiners && r in d.book.futures ==>
                  d.book.futures[r] != Waiting)
  {
  }

  /** The push went out under its topic's join_ref and a fresh ref, or is the newest of the queue, or is nowhere. */
  ghost predicate PushedOk(c: Client, e: Entry, err: Option<Fault>, d: Client) {
    && (err == None && c.disconnected ==> d.queue == LastN(c.queue + [e], PENDING_PUSH_CAP))
    && (err != None || !c.disconnected ==> d.queue == c.queue)
    && (err != None || c.disconnected ==> d.net.wire == c.net.wire)
    && (err == None && !c.disconnected ==>
          && |d.net.wire| == |c.net.wire| + 1 && c.net.wire <= d.net.wire && e.topic in c.topics.joinRefs
          && var s := d.net.wire[|c.net.wire|];
             && s.conn == c.net.conn && s.frame.joinRef == Some(c.topics.joinRefs[e.topic])
             && Entry(s.frame.topic, s.frame.event, s.frame.payload) == e
             && forall i :: 0 <= i < |c.net.wire| ==> d.net.wire[i].frame.ref < s.frame.ref)
  }

  lemma PushIsOk(c: Client, e: Entry, err: Option<Fault>)
    requires RefsAscend(c.net) && |c.queue| <= PENDING_PUSH_CAP
    requires err == if e.topic !in c.topics.joinRefs then Some(NotJoined)
                    else if c.disconnected then None else FaultOf(c.net.link)
    ensures PushedOk(c, e, err, DoPush(c, e, ByPush))
  {
  }

  /**
   A call that raises nothing wrote one frame with its own topic, event and payload and waits
   under its ref; otherwise no frame went out, and a failed send has ended the call.
   */
  ghost predicate CalledOk(c: Client, e: Entry, err: Option<Fault>, d: Client) {
    && (err != None ==> d.net.wire == c.net.wire && d.book.calls == c.book.calls && d.book.pending == c.book.pending)
    && (err != None && err != Some(NotJoined) ==>
          c.net.counter in d.book.outcomes && d.book.outcomes[c.net.counter] == SendFailed)
    && (err == None ==>
          && e.topic in c.topics.joinRefs && c.net.counter in d.book.calls && c.net.counter in d.book.pending
          && d.net.wire == c.net.wire + [Sent(c.net.conn, Frame(Some(c.topics.joinRefs[e.topic]), c.net.counter, e.topic,
                                                                e.event, e.payload), ByCall)])
  }

  lemma CallIsOk(c: Client, e: Entry, err: Option<Fault>)
    requires err == if e.topic !in c.topics.joinRefs then Some(NotJoined) else FaultOf(c.net.link)
    ensures CalledOk(c, e, err, DoCall(c, e))
  {
  }

  class ChannelClient {
    const autoReconnect: bool
    const link: Link
    const table: ReplyTable
    const pendingPushes: PushQueue
    var topicJoinRefs: map<string, nat>
    var topicHandlers: map<string, Handler>
    var isDisconnected: bool
    var shutdown: bool
    var loops: map<nat, Loop>  // reconnect tasks
    var nextLoop: nat
    ghost var done: seq<Action>
    ghost var attempt: Option<Tried>

    ghost function View(): Client
      requires pendingPushes.Valid()
      reads this, link, table, pendingPushes, pendingPushes.slots
    {
      Client(link.View(), Topics(topicJoinRefs, topicHandlers), table.View(), pendingPushes.Contents(),
             isDisconnected, shutdown, autoReconnect, loops, nextLoop)
    }

    ghost predicate Valid()
      reads this, link, table, pendingPushes, pendingPushes.slots
    {
      pendingPushes.Valid() && Reached(autoReconnect, done, View()) && InAttempt(attempt, View())
    }

    /** The object has made the step a from the state before, and is valid again. */
    ghost predicate Did(before: Client, earlier: seq<Action>, tried: Option<Tried>, a: Action)
      reads this, link, table, pendingPushes, pendingPushes.slots
    {
      Valid() && View() == Step(before, a) && done == earlier + [a] && attempt == Carry(tried, before, a)
    }

    /** The fields have been brought from the state before to its next; record the step. */
    ghost method Note(before: Client, a: Action)
      requires pendingPushes.Valid() && View() == Step(before, a)
      requires Reached(autoReconnect, done, before) && InAttempt(attempt, before)
      modifies this`done, this`attempt
      ensures Did(before, old(done), old(attempt), a)
    {
      NextReached(autoReconnect, done, before, a, attempt);
      done, attempt := done + [a], Carry(attempt, before, a);
    }

    constructor (auto: bool)
      ensures Valid() && View() == Init(auto) && done == [] && attempt == None
      ensures fresh(link) && fresh(table) && fresh(pendingPushes) && fresh(pendingPushes.slots)
    {
      autoReconnect := auto;
      link := new Link();
      table := new ReplyTable();
      pendingPushes := new PushQueue();
      topicJoinRefs, topicHandlers := map[], map[];
      isDisconnected, shutdown, loops, nextLoop, done, attempt := false, false, map[], 0, [], None;
    }

    // ----- connect, join, push, call -----

    /** The new connection carries no frame yet; frames stay in scope exactly if no join was recorded. */
    method Connect()
      requires Valid()
      modifies this, link
      ensures Did(old(View()), old(done), old(attempt), Ask(ChannelModel.Connect))
      ensures link.ws == Open && !isDisconnected && topicJoinRefs == old(topicJoinRefs)
      ensures link.wire == old(link.wire) && forall i :: 0 <= i < |link.wire| ==> link.wire[i].conn < link.conn
      ensures CleanConnects(Init(autoReconnect), done)
         <==> CleanConnects(Init(autoReconnect), old(done)) && topicJoinRefs == map[]
    {
      ghost var c := View();
      link.OpenNew();
      isDisconnected := false;
      RunAppend(Init(autoReconnect), done, Ask(ChannelModel.Connect));
      Note(c, Ask(ChannelModel.Connect));
    }

    /** Up to its await; the topic stays recorded even when the write fails. */
    method JoinInternal(topic: string, onMsg: Handler, loop: Option<nat>) returns (err: Option<Fault>, ref: nat)
      requires pendingPushes.Valid()
      modifies this`topicJoinRefs, this`topicHandlers, link, table
      ensures View() == StartJoin(old(View()), topic, onMsg, loop)
      ensures err == FaultOf(link.ws) && ref == old(link.refCounter)
    {
      err, ref := link.WriteJoin(topic);
      topicJoinRefs, topicHandlers := topicJoinRefs[topic := ref], topicHandlers[topic := onMsg];
      table.Expect(ref);
      if err == None {
        table.AwaitJoin(ref, topic, loop);
      }
    }

    /** Without a socket nothing changes; otherwise the topic is held under a ref above every ref written before. */
    method Join(topic: string, onMsg: Handler) returns (err: Option<Fault>)
      requires Valid()
      modifies this, link, table
      ensures Did(old(View()), old(done), old(attempt), Ask(ChannelModel.Join(topic, onMsg)))
      ensures err == FaultOf(link.ws)
      ensures link.ws == NoSocket ==> View() == old(View())
      ensures link.ws != NoSocket ==>
                && topic in topicJoinRefs && topic in topicHandlers && topicHandlers[topic] == onMsg
                && forall i :: 0 <= i < |old(link.wire)| ==> old(link.wire)[i].frame.ref < topicJoinRefs[topic]
    {
      ghost var c := View();
      if link.ws == NoSocket {
        err := Some(NotConnected);
      } else {
        var ref;
        err, ref := JoinInternal(topic, onMsg, None);
      }
      Note(c, Ask(ChannelModel.Join(topic, onMsg)));
    }

    /** The body of push(), which the flush shares. */
    method PushEntry(e: Entry, ghost o: Origin) returns (err: Option<Fault>)
      requires pendingPushes.Valid()
      modifies link, pendingPushes, pendingPushes.slots
      ensures pendingPushes.Valid() && View() == DoPush(old(View()), e, o)
      ensures err == if e.topic !in topicJoinRefs then Some(NotJoined) else if isDisconnected then None else FaultOf(link.ws)
    {
      if e.topic !in topicJoinRefs {
        return Some(NotJoined);
      }
      if isDisconnected {
        pendingPushes.Append(e);
        return None;
      }
      var ref;
      err, ref := link.Write(topicJoinRefs[e.topic], e, o);
    }

    /**
     No error means the push is on the current connection under the topic's join_ref and a
     fresh ref, or is the newest of the queue, whose oldest entry gave way if it was full; an
     error means it is in neither place.
     */
    method Push(e: Entry) returns (err: Option<Fault>)
      requires Valid()
      modifies this, link, pendingPushes, pendingPushes.slots
      ensures Did(old(View()), old(done), old(attempt), Ask(ChannelModel.Push(e)))
      ensures err == if e.topic !in topicJoinRefs then Some(NotJoined) else if isDisconnected then None else FaultOf(link.ws)
      ensures PushedOk(old(View()), e, err, View())
    {
      ghost var c := View();
      err := PushEntry(e, ByPush);
      PushIsOk(c, e, err);
      Note(c, Ask(ChannelModel.Push(e)));
    }

    /** call() up to its await: on a failed send the key is popped again and the call has ended. */
    method Call(e: Entry) returns (err: Option<Fault>, ref: nat)
      requires Valid()
      modifies this, link, table
      ensures Did(old(View()), old(done), old(attempt), Ask(ChannelModel.Call(e)))
      ensures err == if e.topic !in topicJoinRefs then Some(NotJoined) else FaultOf(link.ws)
      ensures err == None ==> ref !in old(table.futures) && ref in table.calls && table.pending == old(table.pending) + {ref}
      ensures err != None ==> table.pending == old(table.pending) && table.futures == old(table.futures)
      ensures CalledOk(old(View()), e, err, View())
    {
      ghost var c := View();
      ref := 0;
      if e.topic !in topicJoinRefs {
        err := Some(NotJoined);
      } else {
        err, ref := StartCall(e);
      }
      CallIsOk(c, e, err);
      Note(c, Ask(ChannelModel.Call(e)));
    }

    method StartCall(e: Entry) returns (err: Option<Fault>, ref: nat)
      requires pendingPushes.Valid() && e.topic in topicJoinRefs && Settled(View().book, link.refCounter)
      modifies link, table
      ensures View() == DoCall(old(View()), e)
      ensures err == FaultOf(link.ws) && ref == old(link.refCounter)
    {
      err, ref := link.Write(topicJoinRefs[e.topic], e, ByCall);
      table.Expect(ref);
      if err == None {
        table.AwaitCall(ref);
      } else {
        table.GiveUp(ref);
        assert old(table.pending) + {ref} - {ref} == old(table.pending);
        assert old(table.futures)[ref := Waiting] - {ref} == old(table.futures);
      }
    }

    /** A call whose future is done resumes; what it returns came in a phx_reply with its own ref. */
    method FinishCall(ref: nat, late: bool) returns (result: Option<Json>)
      requires Valid() && ref in table.calls && ref in table.futures && table.futures[ref] != Waiting
      modifies this, table
      ensures Did(old(View()), old(done), old(attempt), Tell(CallReturn(ref, late)))
      ensures ref !in table.pending && ref !in table.calls
      ensures result == if old(table.futures)[ref].Resolved? && !late then Some(old(table.futures)[ref].payload) else None
      ensures result.Some? ==> (ref, result.value) in table.replies
    {
      ghost var c := View();
      result := table.EndCall(ref, late);
      Note(c, Tell(CallReturn(ref, late)));
    }

    /** A join that has its reply resumes; the result says whether it raises "join rejected". */
    method ResumeJoin(ref: nat) returns (rejected: bool)
      requires Valid() && ref in table.joiners && ref in table.futures && table.futures[ref].Resolved?
      modifies this, table
      ensures Did(old(View()), old(done), old(attempt), Tell(JoinResume(ref)))
      ensures rejected ==> old(table.joiners)[ref].topic !in topicJoinRefs && old(table.joiners)[ref].topic !in topicHandlers
      ensures !rejected ==> topicJoinRefs == old(topicJoinRefs) && topicHandlers == old(topicHandlers)
      ensures var reply := old(table.futures)[ref].payload;
              && (ref, reply) in table.replies
              && (rejected <==> reply.JObj? && !("status" in reply.fields && reply.fields["status"] == JStr("ok")))
    {
      ghost var c := View();
      rejected := LeaveJoin(ref);
      Note(c, Tell(JoinResume(ref)));
      assert (ref, c.book.futures[ref].payload) in table.replies;
    }

    method LeaveJoin(ref: nat) returns (rejected: bool)
      requires pendingPushes.Valid() && ref in table.joiners && ref in table.futures && table.futures[ref].Resolved?
      modifies this`topicJoinRefs, this`topicHandlers, this`loops, table
      ensures View() == DoJoinResume(old(View()), ref)
      ensures rejected == Refuses(old(table.futures)[ref].payload)
    {
      var j := table.joiners[ref];
      rejected := Refuses(table.futures[ref].payload);
      table.LeaveJoin(ref);
      if rejected {
        topicJoinRefs, topicHandlers := topicJoinRefs - {j.topic}, topicHandlers - {j.topic};
      }
      if j.loop.Some? && j.loop.value in loops {
        var l := loops[j.loop.value];
        loops := loops[j.loop.value := l.(phase := Rejoining,
                                          refused := if rejected then l.refused + {j.topic} else l.refused)];
      }
    }

    /** The timer of a call fires: its future waits no longer. */
    method ExpireCall(ref: nat)
      requires Valid() && ref in table.calls
      modifies this, table
      ensures Did(old(View()), old(done), old(attempt), Tell(CallTimeout(ref)))
      ensures ref in table.futures && table.futures[ref] != Waiting
    {
      ghost var c := View();
      table.Expire(ref);
      Note(c, Tell(CallTimeout(ref)));
    }

    /** The owner cancels a join: its future waits no longer, and its topic stays recorded. */
    method AbandonJoin(ref: nat)
      requires Valid() && ref in table.joiners && table.joiners[ref].loop.None?
      modifies this, table
      ensures Did(old(View()), old(done), old(attempt), Tell(JoinAbandon(ref)))
      ensures ref !in table.joiners && (ref in table.futures ==> table.futures[ref] != Waiting)
      ensures topicJoinRefs == old(topicJoinRefs) && topicHandlers == old(topicHandlers)
    {
      ghost var c := View();
      table.Abandon(ref);
      Note(c, Tell(JoinAbandon(ref)));
    }

    // ----- heartbeat and read loop -----

    /** A frame without join_ref under a fresh ref, exactly on an open socket. */
    method Heartbeat()
      requires Valid()
      modifies this, link
      ensures Did(old(View()), old(done), old(attempt), Ask(ChannelModel.Heartbeat))
      ensures link.ws != Open ==> View() == old(View())
      ensures link.ws == Open ==>
                && |link.wire| == |old(link.wire)| + 1 && old(link.wire) <= link.wire
                && var s := link.wire[|old(link.wire)|];
                   && s.conn == link.conn && s.frame == Frame(None, s.frame.ref, "phoenix", Beat, EMPTY_OBJ)
                   && forall i :: 0 <= i < |old(link.wire)| ==> link.wire[i].frame.ref < s.frame.ref
    {
      ghost var c := View();
      if link.ws == Open {
        link.WriteHeartbeat();
      }
      Note(c, Ask(ChannelModel.Heartbeat));
    }

    /**
     One turn of the read loop.  A reply settles the waiting future of the call or join it
     names, with its payload, and no other; no key but that one goes; a reply for a call that
     has ended changes no key and no future.
     */
    method OnFrame(inRef: Option<nat>, event: Event, payload: Json)
      requires Valid()
      modifies this, table
      ensures Did(old(View()), old(done), old(attempt), Tell(Inbound(inRef, event, payload)))
      ensures table.pending == old(table.pending) - if event == PhxReply && inRef.Some? then {inRef.value} else {}
      ensures forall r :: r in old(table.futures) ==>
                && r in table.futures
                && (table.futures[r] != old(table.futures)[r] ==>
                      && old(table.futures)[r] == Waiting && table.futures[r] == Resolved(payload)
                      && event == PhxReply && inRef == Some(r))
      ensures event == PhxReply && inRef.Some? && Awaited(old(View()).book, inRef.value) ==>
                && inRef.value in old(table.futures) && inRef.value in table.futures
                && (old(table.futures)[inRef.value] == Waiting ==> table.futures[inRef.value] == Resolved(payload))
      ensures inRef.Some? && inRef.value in old(table.outcomes) ==>
                table.pending == old(table.pending) && table.futures == old(table.futures)
    {
      ghost var c := View();
      assert inRef.Some? && Awaited(c.book, inRef.value) ==> inRef.value in table.futures;
      if event == PhxReply && inRef.Some? {
        table.Settle(inRef.value, payload);
      }
      Note(c, Tell(Inbound(inRef, event, payload)));
    }

    /** The end of the read loop: pushes are queued from now on, and at most one new loop starts, to connect. */
    method ReaderEnds()
      requires Valid()
      modifies this
      ensures Did(old(View()), old(done), old(attempt), Lives(ReaderEnd))
      ensures isDisconnected && attempt == None && old(nextLoop) !in old(loops)
      ensures loops.Keys == old(loops).Keys + if autoReconnect && !shutdown then {old(nextLoop)} else {}
      ensures forall id :: id in loops ==>
                if id in old(loops) then loops[id] == old(loops)[id] else loops[id].phase == Connecting
    {
      ghost var c := View();
      isDisconnected := true;
      if autoReconnect && !shutdown {
        loops := loops[nextLoop := Loop(Connecting, [], map[], map[], {})];
        nextLoop := nextLoop + 1;
      }
      Note(c, Lives(ReaderEnd));
    }

    /** The peer or the network closes the socket. */
    method SocketCloses()
      requires Valid()
      modifies this, link
      ensures Did(old(View()), old(done), old(attempt), Lives(SocketClose))
      ensures link.ws == (if old(link.ws) == Open then Closed else old(link.ws)) && link.wire == old(link.wire)
    {
      ghost var c := View();
      link.Close();
      Note(c, Lives(SocketClose));
    }

    // ----- reconnect loop -----

    /** A connect fails: the old socket is closed, topics, queue and loops stay as they are. */
    method ConnectFails(id: nat)
      requires Valid() && id in loops && loops[id].phase == Connecting
      modifies this, link
      ensures Did(old(View()), old(done), old(attempt), Lives(LoopConnectFail(id)))
      ensures topicJoinRefs == old(topicJoinRefs) && topicHandlers == old(topicHandlers) && loops == old(loops)
      ensures link.ws != Open && link.wire == old(link.wire)
    {
      ghost var c := View();
      link.Close();
      Note(c, Lives(LoopConnectFail(id)));
    }

    /**
     A reconnect attempt gets its socket: it snapshots the handlers and forgets every join.
     From here the object is inside an attempt that started from the state before.
     */
    method Reconnected(id: nat, order: seq<string>, ghost others: set<string>)
      requires Valid() && id in loops && loops[id].phase == Connecting
      requires Enumerates(order, topicHandlers.Keys) && Apart(View(), others)
      modifies this, link
      ensures Valid() && View() == Step(old(View()), Lives(LoopConnectOk(id, order)))
      ensures done == old(done) + [Lives(LoopConnectOk(id, order))]
      ensures attempt == Some(Tried(old(View()), id, others)) && Attempt(old(View()), id, others, View())
    {
      ghost var c := View();
      StartAttempt(id, order);
      NoteAttempt(c, id, order, others);
    }

    ghost method NoteAttempt(before: Client, id: nat, order: seq<string>, others: set<string>)
      requires pendingPushes.Valid() && View() == DoLoopConnectOk(before, id, order) && Reached(autoReconnect, done, before)
      requires In(before, id, Connecting) && Enumerates(order, before.topics.handlers.Keys) && Apart(before, others)
      modifies this`done, this`attempt
      ensures Valid() && done == old(done) + [Lives(LoopConnectOk(id, order))] && attempt == Some(Tried(before, id, others))
    {
      AttemptBegins(before, id, others, order);
      NextReached(autoReconnect, done, before, Lives(LoopConnectOk(id, order)), None);
      done, attempt := done + [Lives(LoopConnectOk(id, order))], Some(Tried(before, id, others));
    }

    method StartAttempt(id: nat, order: seq<string>)
      requires pendingPushes.Valid() && id in loops && loops[id].phase == Connecting && Enumerates(order, topicHandlers.Keys)
      modifies this`isDisconnected, this`loops, this`topicJoinRefs, this`topicHandlers, link
      ensures View() == DoLoopConnectOk(old(View()), id, order)
    {
      link.OpenNew();
      isDisconnected := false;
      loops := loops[id := Loop(Rejoining, order, topicHandlers, map[], {})];
      topicJoinRefs, topicHandlers := map[], map[];
    }

    /** The next topic of the loop is held under its old handler and a fresh ref, or the flush begins. */
    method RejoinNext(id: nat)
      requires Valid() && id in loops && loops[id].phase == Rejoining
      modifies this, link, table
      ensures Did(old(View()), old(done), old(attempt), Lives(LoopRejoin(id)))
      ensures id in loops && (old(loops)[id].todo == [] ==> loops[id].phase == Flushing)
      ensures old(loops)[id].todo != [] ==>
                var topic := old(loops)[id].todo[0];
                && topic in old(loops)[id].snapshot && topic in topicHandlers
                && topicHandlers[topic] == old(loops)[id].snapshot[topic]
                && topic in topicJoinRefs && topicJoinRefs[topic] == old(link.refCounter)
    {
      ghost var c := View();
      assert loops[id].todo != [] ==> loops[id].todo[0] in loops[id].todo;
      MoveLoop(id);
      Note(c, Lives(LoopRejoin(id)));
    }

    method MoveLoop(id: nat)
      requires pendingPushes.Valid() && id in loops && loops[id].phase == Rejoining
      requires loops[id].todo != [] ==> loops[id].todo[0] in loops[id].snapshot
      modifies this`topicJoinRefs, this`topicHandlers, this`loops, link, table
      ensures View() == DoLoopRejoin(old(View()), id)
    {
      var l := loops[id];
      if l.todo == [] {
        loops := loops[id := l.(phase := Flushing)];
      } else {
        var err, ref := JoinInternal(l.todo[0], l.snapshot[l.todo[0]], Some(id));
        loops := loops[id := l.(todo := l.todo[1..], asked := l.asked[l.todo[0] := ref],
                                phase := if err == None then Awaiting(ref) else Rejoining)];
      }
    }

    /** One turn of the flush: the head of the queue goes through push(). */
    method FlushOne(id: nat)
      requires Valid() && id in loops && loops[id].phase == Flushing && pendingPushes.Contents() != []
      modifies this, link, pendingPushes, pendingPushes.slots
      ensures Did(old(View()), old(done), old(attempt), Lives(LoopFlush(id)))
    {
      ghost var c := View();
      var e := pendingPushes.PopLeft();
      assert View() == c.(queue := c.queue[1..]);
      var _ := PushEntry(e, ByFlush);
      Note(c, Lives(LoopFlush(id)));
    }

    /**
     The flush loop run to its end on an open link, and the return of the reconnect loop: the
     queue is empty and exactly the queued pushes with a joined topic were written, in order.
     If this was the loop of the attempt in progress, all that an attempt restores is restored.
     */
    method FlushPending(id: nat)
      requires Valid() && id in loops && loops[id].phase == Flushing && link.ws == Open && !isDisconnected
      modifies this, link, pendingPushes, pendingPushes.slots
      ensures Valid() && pendingPushes.count == 0 && topicJoinRefs == old(topicJoinRefs)
      ensures id in loops && loops[id].phase == Finished
      ensures FlushedOn(link.wire, link.conn)
           == old(FlushedOn(link.wire, link.conn)) + Surviving(old(pendingPushes.Contents()), topicJoinRefs.Keys)
      ensures RestoredBy(old(attempt), id)
    {
      DrainQueue(id);
      ReturnLoop(id);
    }

    /** The loop over the queue. */
    method DrainQueue(id: nat)
      requires Valid() && id in loops && loops[id].phase == Flushing && link.ws == Open && !isDisconnected
      modifies this, link, pendingPushes, pendingPushes.slots
      ensures Valid() && pendingPushes.count == 0 && topicJoinRefs == old(topicJoinRefs) && loops == old(loops)
      ensures FlushedOn(link.wire, link.conn)
           == old(FlushedOn(link.wire, link.conn)) + Surviving(old(pendingPushes.Contents()), topicJoinRefs.Keys)
      ensures old(attempt).Some? && old(attempt).value.id == id ==> attempt == old(attempt)
    {
      ghost var account := FlushedOn(link.wire, link.conn) + Surviving(pendingPushes.Contents(), topicJoinRefs.Keys);
      while pendingPushes.count != 0
        invariant Valid() && link.ws == Open && !isDisconnected && topicJoinRefs == old(topicJoinRefs) && loops == old(loops)
        invariant FlushedOn(link.wire, link.conn) + Surviving(pendingPushes.Contents(), topicJoinRefs.Keys) == account
        invariant old(attempt).Some? && old(attempt).value.id == id ==> attempt == old(attempt)
        decreases pendingPushes.count
      {
        FlushUp(id);
      }
      assert pendingPushes.Contents() == [];
    }

    /** On an open link one turn moves one push from the account of the queue to that of the wire. */
    method FlushUp(id: nat)
      requires Valid() && id in loops && loops[id].phase == Flushing && pendingPushes.Contents() != []
      requires link.ws == Open && !isDisconnected
      modifies this, link, pendingPushes, pendingPushes.slots
      ensures Did(old(View()), old(done), old(attempt), Lives(LoopFlush(id)))
      ensures link.ws == Open && !isDisconnected && topicJoinRefs == old(topicJoinRefs) && loops == old(loops)
      ensures pendingPushes.count < old(pendingPushes.count)
      ensures FlushedOn(link.wire, link.conn) + Surviving(pendingPushes.Contents(), topicJoinRefs.Keys)
           == old(FlushedOn(link.wire, link.conn) + Surviving(pendingPushes.Contents(), topicJoinRefs.Keys))
      ensures old(attempt).Some? && old(attempt).value.id == id ==> attempt == old(attempt)
    {
      ghost var c := View();
      FlushOne(id);
      FlushWrites(c, id);
      FlushAccount(c, View());
    }

    /** If t is an attempt of loop id, all that an attempt restores is restored. */
    ghost predicate RestoredBy(t: Option<Tried>, id: nat)
      requires pendingPushes.Valid() && id in loops
      reads this, link, table, pendingPushes, pendingPushes.slots
    {
      t.Some? && t.value.id == id ==> Restored(t.value.start, loops[id], t.value.others, View())
    }

    /** With nothing left to flush the loop returns. */
    method ReturnLoop(id: nat)
      requires Valid() && id in loops && loops[id].phase == Flushing && pendingPushes.count == 0
      modifies this
      ensures Valid() && topicJoinRefs == old(topicJoinRefs)
      ensures id in loops && loops[id].phase == Finished
      ensures RestoredBy(old(attempt), id)
    {
      ghost var c := View();
      loops := loops[id := loops[id].(phase := Finished)];
      Note(c, Lives(LoopFlush(id)));
      if attempt.Some? && attempt.value.id == id {
        AttemptEnds(attempt.value.start, id, attempt.value.others, View());
      }
    }

    // ----- close -----

    /** Closing first stops reconnects and cancels the newest loop: it and its join are gone, no future of theirs waits. */
    method BeginClose()
      requires Valid()
      modifies this, table
      ensures Did(old(View()), old(done), old(attempt), Lives(CloseBegin))
      ensures shutdown && nextLoop == old(nextLoop)
      ensures forall acts :: Run(View(), acts).loops.Keys <= loops.Keys
      ensures nextLoop > 0 ==> nextLoop - 1 !in loops && JoinsOf(table.joiners, nextLoop - 1) == {}
      ensures forall r :: r in old(table.joiners) && r !in table.joiners && r in table.futures ==>
                table.futures[r] != Waiting
    {
      ghost var c := View();
      StopReconnects();
      Note(c, Lives(CloseBegin));
      CloseCancels(c);
      forall acts ensures Run(View(), acts).loops.Keys <= loops.Keys {
        NoLoopAfterClose(View(), acts);
      }
    }

    method StopReconnects()
      requires pendingPushes.Valid()
      modifies this`shutdown, this`loops, table
      ensures View() == DoCloseBegin(old(View()))
    {
      shutdown := true;
      if nextLoop > 0 {
        loops := loops - {nextLoop - 1};
        table.CancelJoinsOf(nextLoop - 1);
      }
    }

    /** Then the socket goes; until the next connect no run writes a frame. */
    method EndClose()
      requires Valid()
      modifies this, link
      ensures Did(old(View()), old(done), old(attempt), Lives(CloseEnd))
      ensures forall acts :: (forall i :: 0 <= i < |acts| ==> !Connects(acts[i])) ==> Run(View(), acts).net.wire == link.wire
    {
      ghost var c := View();
      link.Discard();
      Note(c, Lives(CloseEnd));
      forall acts | forall i :: 0 <= i < |acts| ==> !Connects(acts[i]) ensures Run(View(), acts).net.wire == link.wire {
        ClosedStaysSilent(View(), acts);
      }
    }
  }
}
