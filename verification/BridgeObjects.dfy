/**
 The bridge as objects: the phx client and the MCP server, each with its own maps, and the
 process that runs the tool calls over the two.  Valid() of the process says that it is in a
 state some run of the step system reaches, with everything such runs keep.
 */
module BridgeObjects {
  import opened Prelude
  import opened BridgeModel
  import opened BridgeRuns

  class PhoenixChannelClient {
    var open: bool
    var closing: bool
    var ended: bool
    var joined: bool
    var refCounter: nat
    var pending: set<nat>
    var futures: map<nat, Ack>
    var inbox: seq<Frame>

    ghost function View(): Phx
      reads this
    {
      Phx(open, closing, ended, joined, refCounter, pending, futures, inbox)
    }

    ghost predicate Valid()
      reads this
    {
      PhxWF(View())
    }

    constructor ()
      ensures Valid() && View() == BridgeModel.Init(true).phx
    {
      open, closing, ended, joined, refCounter, pending, futures, inbox := false, false, false, false, 0, {}, map[], [];
    }

    method Connect()
      requires Valid() && !closing
      modifies this`open
      ensures Valid() && View() == old(View()).(up := true)
    {
      open := true;
    }

    /** push() and join() up to the await of their future: no push before had this ref. */
    method StartPush() returns (ref: nat)
      requires Valid() && open
      modifies this`refCounter, this`pending, this`futures
      ensures Valid() && View() == Register(old(View()))
      ensures ref !in old(futures) && ref == refCounter && ref in pending && futures[ref] == AckWaiting
    {
      refCounter := refCounter + 1;
      ref := refCounter;
      futures, pending := futures[ref := AckWaiting], pending + {ref};
    }

    method StartJoin() returns (ref: nat)
      requires Valid() && open
      modifies this`refCounter, this`pending, this`futures, this`joined
      ensures Valid() && View() == Register(old(View())).(joined := true)
      ensures ref !in old(futures) && ref == refCounter
    {
      ref := StartPush();
      joined := true;
    }

    /** The finally clause of _push_and_await. */
    method LeavePush(ref: nat)
      requires Valid()
      modifies this`pending
      ensures Valid() && View() == old(View()).(pending := old(pending) - {ref})
    {
      pending := pending - {ref};
    }

    /**
     One turn of the recv loop on a well-formed frame.  It goes to exactly one place: the
     waiting future of its ref, which no later frame can settle again; the end of the inbox;
     or nowhere, when an earlier reply has settled that future.
     */
    method ReceiveOne(f: Frame) returns (fate: Fate)
      requires Valid()
      modifies this`futures, this`inbox
      ensures Valid() && View() == Receive(old(View()), f) && fate == FateOf(old(View()), f)
      ensures fate == ToFuture ==>
                && f.ref.Some? && f.ref.value in old(pending) && old(futures)[f.ref.value] == AckWaiting
                && futures == old(futures)[f.ref.value := Acked(f.payload)] && inbox == old(inbox)
      ensures fate == ToInbox ==> inbox == old(inbox) + [f] && futures == old(futures)
      ensures fate == Dropped ==>
                && f.ref.Some? && f.ref.value in futures && futures[f.ref.value].Acked?
                && futures == old(futures) && inbox == old(inbox)
      ensures fate == ToInbox <==> f.event != PhxReply || f.ref.None? || f.ref.value !in old(pending)
    {
      if f.event == PhxReply && f.ref.Some? && f.ref.value in pending {
        if futures[f.ref.value] == AckWaiting {
          futures, fate := futures[f.ref.value := Acked(f.payload)], ToFuture;
        } else {
          fate := Dropped;
        }
      } else {
        inbox, fate := inbox + [f], ToInbox;
      }
    }

    method Heartbeat()
      requires Valid()
      modifies this`refCounter
      ensures Valid() && View() == old(View()).(counter := old(refCounter) + 1)
    {
      refCounter := refCounter + 1;
    }

    method StartClose()
      requires Valid()
      modifies this`closing
      ensures Valid() && View() == old(View()).(closing := true)
    {
      closing := true;
    }

    method NextFrame() returns (f: Frame)
      requires Valid() && inbox != []
      modifies this`inbox
      ensures Valid() && f == old(inbox)[0] && View() == old(View()).(inbox := old(inbox)[1..])
    {
      f := inbox[0];
      inbox := inbox[1..];
    }

    /** The tail of close(): drop the socket, then fail every pending future that is not done. */
    method FinishClose()
      requires Valid()
      modifies this`open, this`closing, this`ended, this`futures, this`pending
      ensures Valid() && View() == EndClose(old(View()))
      ensures pending == {} && forall r :: r in old(pending) ==> r in futures && futures[r] != AckWaiting
    {
      open, closing, ended := false, true, true;
      var todo := pending;
      while todo != {}
        invariant todo <= pending && pending == old(pending) && !open && closing && ended
        invariant futures.Keys == old(futures).Keys
        invariant forall r :: r in futures ==>
          futures[r] == if r in pending - todo && old(futures)[r] == AckWaiting then AckFailed else old(futures)[r]
        decreases todo
      {
        var r :| r in todo;
        if futures[r] == AckWaiting {
          futures := futures[r := AckFailed];
        }
        todo := todo - {r};
      }
      pending := {};
      assert futures == FailPending(old(View()));
    }
  }

  class BridgeMCPServer {
    const configured: bool
    var pendingToolCalls: set<string>
    var results: map<string, ToolFuture>

    ghost function View(): Mcp
      reads this
    {
      Mcp(configured, pendingToolCalls, results)
    }

    /** Every key has its future. */
    ghost predicate Valid()
      reads this
    {
      pendingToolCalls <= results.Keys
    }

    constructor (configured: bool)
      ensures Valid() && this.configured == configured && View() == BridgeModel.Init(configured).mcp
    {
      this.configured, pendingToolCalls, results := configured, {}, map[];
    }

    method Expect(reqId: string)
      requires Valid()
      modifies this
      ensures Valid() && pendingToolCalls == old(pendingToolCalls) + {reqId} && results == old(results)[reqId := ToolWaiting]
    {
      pendingToolCalls, results := pendingToolCalls + {reqId}, results[reqId := ToolWaiting];
    }

    /** The finally clause of _dispatch_tool. */
    method Pop(reqId: string)
      requires Valid()
      modifies this`pendingToolCalls
      ensures Valid() && View() == Drop(old(View()), reqId)
    {
      pendingToolCalls := pendingToolCalls - {reqId};
    }

    /** The timer cancels a future that is still waiting. */
    method Expire(reqId: string)
      requires Valid() && reqId in results && results[reqId] == ToolWaiting
      modifies this`results
      ensures Valid() && View() == old(View()).(results := old(results)[reqId := ToolCancelled])
    {
      results := results[reqId := ToolCancelled];
    }

    /** _resolve_pending_tool_call: the key goes with the first result, a done future keeps its value. */
    method ResolvePendingToolCall(reqId: string, payload: Payload)
      requires Valid()
      modifies this
      ensures Valid() && View() == Resolve(old(View()), reqId, payload)
      ensures reqId !in pendingToolCalls
      ensures forall q :: q in old(results) ==>
                && q in results
                && (q != reqId || old(results)[q] != ToolWaiting || q !in old(pendingToolCalls)
                    ==> results[q] == old(results)[q])
    {
      if reqId in pendingToolCalls {
        pendingToolCalls := pendingToolCalls - {reqId};
        if results[reqId] == ToolWaiting {
          results := results[reqId := ToolResult(payload)];
        }
      }
    }
  }

  /** b is what the actions done lead to, with all that runs keep. */
  ghost predicate Reached(configured: bool, done: seq<Action>, b: Bridge) {
    b == Run(Init(configured), done) && Sound(b)
  }

  lemma NextReached(configured: bool, done: seq<Action>, b: Bridge, a: Action)
    requires Reached(configured, done, b)
    ensures Reached(configured, done + [a], Step(b, a)) && Final(b, Step(b, a))
  {
    RunAppend(Init(configured), done, a);
    StepKeeps(b, a);
  }

  /** A fresh call is refused, has raised, or waits for the ack of a ref no other call was pushed under. */
  lemma DispatchStarts(b: Bridge, q: string)
    requires Sound(b) && q !in b.calls
    ensures var d := Dispatch(b, q);
            && q in d.calls && d.calls[q] != AwaitResult
            && (d.calls[q].AwaitAck? ==>
                  && q in d.mcp.pending && d.calls[q].ref !in b.phx.acks
                  && forall p :: p in b.refOf ==> b.refOf[p] != d.calls[q].ref)
  {
  }

  /** A push that is over leaves nothing behind; its call has ended, or had an ok ack and waits for its result. */
  lemma PushEnds(b: Bridge, r: nat, sent: bool)
    requires r in b.waiters && r in b.phx.acks && (sent ==> b.phx.acks[r] != AckWaiting)
    ensures var d := LeavePush(b, r, sent);
            && r !in d.phx.pending && r !in d.waiters && d.phx.acks == b.phx.acks
            && (b.waiters[r].Some? ==>
                  var q := b.waiters[r].value;
                  q in d.calls && (d.calls[q].Done? || (d.calls[q] == AwaitResult && AckedOk(b.phx.acks, r))))
  {
    if b.waiters[r].Some? {
      var q := b.waiters[r].value;
      assert LeavePush(b, r, sent).calls[q] == AfterPush(b.phx.acks[r], sent, ResultOf(b.mcp, q));
    }
  }

  /** One turn of the receive loop returns no call, and settles at most the waiting future its frame names. */
  lemma TakeSettles(b: Bridge)
    requires b.alive && b.phx.inbox != []
    ensures var d, f := Take(b), b.phx.inbox[0];
            && d.calls == b.calls && d.log.taken == b.log.taken + [f] && d.mcp.results.Keys == b.mcp.results.Keys
            && (forall q :: q in b.mcp.results && d.mcp.results[q] != b.mcp.results[q] ==>
                  b.mcp.results[q] == ToolWaiting && Read(f) == Result(Some(q)) && d.mcp.results[q] == ToolResult(f.payload))
            && (d.alive <==> !Read(f).Shutdown?)
  {
  }

  class BridgeProcess {
    const phx: PhoenixChannelClient
    const mcp: BridgeMCPServer
    var waiters: map<nat, Option<string>>  // coroutines inside _push_and_await
    var calls: map<string, Phase>          // coroutines inside _dispatch_tool, and how they ended
    var alive: bool                        // phx_receive_loop
    ghost var refOf: map<string, nat>
    ghost var log: Log
    ghost var done: seq<Action>

    ghost function View(): Bridge
      reads this, phx, mcp
    {
      Bridge(phx.View(), mcp.View(), waiters, calls, alive, refOf, log)
    }

    ghost predicate Intact()
      reads phx, mcp
    {
      phx.Valid() && mcp.Valid()
    }

    ghost predicate Valid()
      reads this, phx, mcp
    {
      Intact() && Reached(mcp.configured, done, View())
    }

    /** The process has made the step a: it is valid again, and no outcome and no settled future changed. */
    ghost predicate Did(before: Bridge, earlier: seq<Action>, a: Action)
      reads this, phx, mcp
    {
      Valid() && View() == Step(before, a) && done == earlier + [a] && Final(before, View())
    }

    /** If call q has ended: its key is gone, a late result changes nothing, and what it returned is its own. */
    ghost predicate EndedWell(q: string)
      reads this, phx, mcp
    {
      q in calls && (calls[q].Done? ==> EndedOnce(View(), View(), q))
    }

    ghost method Note(before: Bridge, a: Action)
      requires Intact() && View() == Step(before, a) && Reached(mcp.configured, done, before)
      modifies this`done
      ensures Did(before, old(done), a)
    {
      NextReached(mcp.configured, done, before, a);
      done := done + [a];
    }

    lemma Ended(q: string)
      requires Valid() && q in calls
      ensures EndedWell(q)
    {
      if calls[q].Done? {
        SoundEnds(View(), View(), q);
      }
    }

    constructor (configured: bool)
      ensures Valid() && View() == BridgeModel.Init(configured) && done == [] && fresh(phx) && fresh(mcp)
    {
      phx := new PhoenixChannelClient();
      mcp := new BridgeMCPServer(configured);
      waiters, calls, alive, refOf, log, done := map[], map[], true, map[], Log([], [], map[], []), [];
      new;
      InitIsSound(configured);
    }

    // ----- the phx side -----

    method Connect()
      requires Valid() && !phx.closing
      modifies this, phx
      ensures Did(old(View()), old(done), Wire(Connects))
    {
      ghost var b := View();
      phx.Connect();
      Note(b, Wire(Connects));
    }

    /** join() raises without a socket; otherwise it waits under a ref no push had before. */
    method Join() returns (ref: Option<nat>)
      requires Valid()
      modifies this, phx
      ensures Did(old(View()), old(done), Wire(Joins))
      ensures ref.None? <==> !old(phx.open)
      ensures ref.None? ==> View() == old(View())
      ensures ref.Some? ==> ref.value !in old(phx.futures) && ref.value in waiters && phx.joined
    {
      ghost var b := View();
      if phx.open {
        var r := phx.StartJoin();
        waiters, ref := waiters[r := None], Some(r);
      } else {
        ref := None;
      }
      Note(b, Wire(Joins));
    }

    method Heartbeat()
      requires Valid()
      modifies this, phx
      ensures Did(old(View()), old(done), Wire(Beats))
      ensures phx.refCounter == old(phx.refCounter) + if phx.open && !phx.closing then 1 else 0
    {
      ghost var b := View();
      if phx.open && !phx.closing {
        phx.Heartbeat();
      }
      Note(b, Wire(Beats));
    }

    method BeginClose()
      requires Valid()
      modifies this, phx
      ensures Did(old(View()), old(done), Wire(BeginsClose))
    {
      ghost var b := View();
      phx.StartClose();
      Note(b, Wire(BeginsClose));
    }

    /** A frame arrives: with the ones before it, it has gone to exactly one place. */
    method Receive(f: Frame) returns (fate: Fate)
      requires Valid()
      modifies this, phx
      ensures Did(old(View()), old(done), Wire(Arrives(f)))
      ensures FramesRouted(View()) && log.arrived == old(log).arrived + [f] && log.fates == old(log).fates + [fate]
    {
      ghost var b := View();
      fate := phx.ReceiveOne(f);
      log := Log(log.arrived + [f], log.fates + [fate], Settle(b.phx, log.settledBy, f, |log.arrived|), log.taken);
      Note(b, Wire(Arrives(f)));
    }

    /** Once close() is through, nothing is pending and every suspended push has its answer or its failure. */
    method Close()
      requires Valid()
      modifies this, phx
      ensures Did(old(View()), old(done), Wire(EndsClose))
      ensures phx.pending == {} && forall r :: r in waiters ==> r in phx.futures && phx.futures[r] != AckWaiting
    {
      ghost var b := View();
      phx.FinishClose();
      Note(b, Wire(EndsClose));
      NothingWaits(View());
    }

    // ----- tool calls -----

    /** _dispatch_tool up to the await of its push; a push that raises at once still removes the key. */
    method DispatchTool(reqId: string)
      requires Valid() && reqId !in calls
      modifies this, phx, mcp
      ensures Did(old(View()), old(done), Task(Dispatches(reqId)))
      ensures EndedWell(reqId)
      ensures calls[reqId] == Done(NotConfigured) <==> !mcp.configured
      ensures calls[reqId].AwaitAck? <==> mcp.configured && old(phx.open) && old(phx.joined)
      ensures calls[reqId].AwaitAck? ==>
                && reqId in mcp.pendingToolCalls && calls[reqId].ref !in old(phx.futures)
                && forall q :: q in old(refOf) ==> old(refOf)[q] != calls[reqId].ref
    {
      ghost var b := View();
      StartCall(reqId);
      Note(b, Task(Dispatches(reqId)));
      DispatchStarts(b, reqId);
      DispatchDecides(b, reqId);
      Ended(reqId);
    }

    method StartCall(reqId: string)
      requires Intact() && reqId !in calls && reqId !in mcp.pendingToolCalls
      modifies this`waiters, this`calls, this`refOf, phx, mcp
      ensures Intact() && View() == Dispatch(old(View()), reqId)
    {
      if !mcp.configured {
        calls := calls[reqId := Done(NotConfigured)];
        return;
      }
      mcp.Expect(reqId);
      if !phx.open || !phx.joined {
        mcp.Pop(reqId);
        assert old(mcp.pendingToolCalls) + {reqId} - {reqId} == old(mcp.pendingToolCalls);
        calls := calls[reqId := Done(Raised)];
        return;
      }
      var ref := phx.StartPush();
      waiters, calls, refOf := waiters[ref := Some(reqId)], calls[reqId := AwaitAck(ref)], refOf[reqId := ref];
    }

    /**
     The push of a tool call is over: by its ack, by close(), or by a failed send.  The call
     then has ended well, or waits for its result after an ok ack of its own ref.
     */
    method AfterPush(ref: nat, sent: bool)
      requires Valid() && ref in waiters && ref in phx.futures && (sent ==> phx.futures[ref] != AckWaiting)
      modifies this, phx, mcp
      ensures Did(old(View()), old(done), Task(LeavesPush(ref, sent)))
      ensures ref !in phx.pending && ref !in waiters
      ensures forall q :: old(waiters)[ref] == Some(q) ==>
                && EndedWell(q) && (!calls[q].Done? ==> calls[q] == AwaitResult && AckedOk(phx.futures, ref))
                && (!sent ==> calls[q] == Done(Raised))
    {
      ghost var b := View();
      EndPush(ref, sent);
      Note(b, Task(LeavesPush(ref, sent)));
      PushEnds(b, ref, sent);
      if !sent && b.waiters[ref].Some? {
        FailedSendRaises(b, ref, b.waiters[ref].value);
      }
      if b.waiters[ref].Some? {
        Ended(b.waiters[ref].value);
      }
    }

    method EndPush(ref: nat, sent: bool)
      requires Intact() && ref in waiters && ref in phx.futures && (sent ==> phx.futures[ref] != AckWaiting)
      modifies this`waiters, this`calls, phx, mcp
      ensures Intact() && View() == BridgeModel.LeavePush(old(View()), ref, sent)
    {
      var ack, who := phx.futures[ref], waiters[ref];
      phx.LeavePush(ref);
      waiters := waiters - {ref};
      if who.None? {
        return;
      }
      var q := who.value;
      var next := AwaitResult;
      if !sent || !ack.Acked? || !ack.payload.Obj? {
        next := Done(Raised);
      } else if ack.payload.isError {
        next := Done(PushError(ack.payload));
      } else if q in mcp.results && mcp.results[q].ToolResult? {
        next := Done(Content(mcp.results[q].payload));
      }
      assert next == BridgeModel.AfterPush(ack, sent, ResultOf(mcp.View(), q));
      calls := calls[q := next];
      if next.Done? {
        mcp.Pop(q);
      }
    }

    /** The timer of the wait fires first. */
    method ExpireWait(reqId: string)
      requires Valid() && reqId in calls && calls[reqId] == AwaitResult
      requires reqId in mcp.results && mcp.results[reqId] == ToolWaiting
      modifies this, mcp
      ensures Did(old(View()), old(done), Task(TimesOut(reqId)))
      ensures reqId in mcp.results && mcp.results[reqId] == ToolCancelled
    {
      ghost var b := View();
      mcp.Expire(reqId);
      Note(b, Task(TimesOut(reqId)));
    }

    /** The call is cancelled while it waits for its result; its key goes too. */
    method CancelCall(reqId: string)
      requires Valid() && reqId in calls && calls[reqId] == AwaitResult
      modifies this, mcp
      ensures Did(old(View()), old(done), Task(Cancels(reqId)))
      ensures EndedWell(reqId) && calls[reqId] == Done(Raised)
    {
      ghost var b := View();
      RaiseCall(reqId);
      Note(b, Task(Cancels(reqId)));
      Ended(reqId);
    }

    method RaiseCall(reqId: string)
      requires Intact() && reqId in calls && calls[reqId] == AwaitResult
      modifies this`calls, mcp
      ensures Intact() && View() == Cancel(old(View()), reqId)
      ensures reqId in calls && calls[reqId] == Done(Raised)
    {
      calls := calls[reqId := Done(Raised)];
      mcp.Pop(reqId);
    }

    /** The wait for the result is over, by the result or by the timer: the call has ended well. */
    method AfterWait(reqId: string, late: bool) returns (content: Option<Payload>)
      requires Valid() && reqId in calls && calls[reqId] == AwaitResult
      requires reqId in mcp.results && mcp.results[reqId] != ToolWaiting
      modifies this, mcp
      ensures Did(old(View()), old(done), Task(LeavesWait(reqId, late)))
      ensures EndedWell(reqId) && calls[reqId].Done?
      ensures content == if old(mcp.results)[reqId].ToolResult? && !late then Some(old(mcp.results)[reqId].payload) else None
      ensures content.None? ==> calls[reqId] == Done(TimedOut)
      ensures content.Some? ==>
                calls[reqId] == Done(Content(content.value)) && FromOwnResult(log.taken, reqId, content.value)
    {
      ghost var b := View();
      content := EndWait(reqId, late);
      Note(b, Task(LeavesWait(reqId, late)));
      Ended(reqId);
      assert EndedOnce(View(), View(), reqId);
    }

    method EndWait(reqId: string, late: bool) returns (content: Option<Payload>)
      requires Intact() && reqId in calls && calls[reqId] == AwaitResult
      requires reqId in mcp.results && mcp.results[reqId] != ToolWaiting
      modifies this`calls, mcp
      ensures Intact() && View() == LeaveWait(old(View()), reqId, late)
      ensures content == if old(mcp.results)[reqId].ToolResult? && !late then Some(old(mcp.results)[reqId].payload) else None
      ensures reqId in calls && calls[reqId] == Done(if content.Some? then Content(content.value) else TimedOut)
    {
      content := if mcp.results[reqId].ToolResult? && !late then Some(mcp.results[reqId].payload) else None;
      calls := calls[reqId := Done(if content.Some? then Content(content.value) else TimedOut)];
      mcp.Pop(reqId);
    }

    // ----- the receive loop -----

    /** One turn of phx_receive_loop. */
    method ReceiveTurn()
      requires Valid() && alive && phx.inbox != []
      modifies this, phx, mcp
      ensures Did(old(View()), old(done), Task(Takes))
      ensures calls == old(calls) && log.taken == old(log).taken + [old(phx.inbox)[0]]
      ensures forall q :: q in old(mcp.results) ==>
                && q in mcp.results
                && (mcp.results[q] != old(mcp.results)[q] ==>
                      && old(mcp.results)[q] == ToolWaiting && Read(old(phx.inbox)[0]) == Result(Some(q))
                      && mcp.results[q] == ToolResult(old(phx.inbox)[0].payload))
      ensures forall q :: IsResultFor(old(phx.inbox)[0], q) && q in calls && !calls[q].Done? ==>
                && q in old(mcp.results) && q in mcp.results && mcp.results[q] != ToolWaiting
                && (old(mcp.results)[q] == ToolWaiting ==> mcp.results[q] == ToolResult(old(phx.inbox)[0].payload))
    {
      ghost var b := View();
      DispatchFrame();
      Note(b, Task(Takes));
      TakeSettles(b);
      forall q | IsResultFor(b.phx.inbox[0], q) && q in b.calls && !b.calls[q].Done? && b.mcp.results[q] == ToolWaiting
        ensures mcp.results[q] == ToolResult(b.phx.inbox[0].payload)
      {
        ResultReachesCall(b, q);
      }
    }

    method DispatchFrame()
      requires Intact() && alive && phx.inbox != []
      modifies this`alive, this`log, phx, mcp
      ensures Intact() && View() == Take(old(View()))
    {
      var f := phx.NextFrame();
      log := log.(taken := log.taken + [f]);
      if f.event == Envelope {
        if f.payload.NoObject? || (f.payload.Obj? && f.payload.kind == SessionKilled) {
          alive := false;
        } else if f.payload.Obj? && f.payload.kind == ToolResultKind && f.payload.reqId.Some? {
          mcp.ResolvePendingToolCall(f.payload.reqId.value, f.payload);
        }
      } else if f.event == PhxClose || f.event == PhxError {
        alive := false;
      }
    }
  }
}
