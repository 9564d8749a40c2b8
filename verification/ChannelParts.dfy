/** The parts of the client object: its socket with the ref counter, its reply table, its queue of pending pushes. */
module ChannelParts {
  import opened Prelude
  import opened ChannelModel

  datatype Fault = NotConnected | NotJoined | SendError

  /** What a write on the socket raises. */
  function FaultOf(ws: SocketState): Option<Fault> {
    match ws
    case Open => None
    case NoSocket => Some(NotConnected)
    case Closed => Some(SendError)
  }

  // ----- _ref_counter and _ws -----

  class Link {
    var refCounter: nat
    var ws: SocketState
    ghost var conn: nat
    ghost var wire: seq<Sent>

    ghost function View(): Net
      reads this
    {
      Net(refCounter, ws, conn, wire)
    }

    constructor ()
      ensures View() == Net(1, NoSocket, 0, [])
    {
      refCounter, ws, conn, wire := 1, NoSocket, 0, [];
    }

    method NextRef() returns (ref: nat)
      modifies this`refCounter
      ensures ref == old(refCounter) && refCounter == ref + 1
    {
      ref := refCounter;
      refCounter := ref + 1;
    }

    method SendFrame(f: Frame, ghost o: Origin) returns (err: Option<Fault>)
      modifies this`wire
      ensures wire == old(wire) + (if ws == Open then [Sent(conn, f, o)] else [])
      ensures err == FaultOf(ws)
    {
      if ws == NoSocket {
        return Some(NotConnected);
      }
      if ws == Closed {
        return Some(SendError);
      }
      wire := wire + [Sent(conn, f, o)];
      return None;
    }

    /** A push or call on a joined topic: one fresh ref, and one frame if the socket is open. */
    method Write(joinRef: nat, e: Entry, ghost o: Origin) returns (err: Option<Fault>, ref: nat)
      modifies this`refCounter, this`wire
      ensures View() == Emit(old(View()), Some(joinRef), e, o) && ref == old(refCounter)
      ensures err == FaultOf(ws)
    {
      ref := NextRef();
      err := SendFrame(Frame(Some(joinRef), ref, e.topic, e.event, e.payload), o);
    }

    /** A join introduces its own ref as the join_ref of its topic. */
    method WriteJoin(topic: string) returns (err: Option<Fault>, ref: nat)
      modifies this`refCounter, this`wire
      ensures View() == Emit(old(View()), Some(ref), Entry(topic, PhxJoin, EMPTY_OBJ), ByJoin) && ref == old(refCounter)
      ensures err == FaultOf(ws)
    {
      ref := NextRef();
      err := SendFrame(Frame(Some(ref), ref, topic, PhxJoin, EMPTY_OBJ), ByJoin);
    }

    method WriteHeartbeat()
      modifies this`refCounter, this`wire
      ensures View() == Emit(old(View()), None, Entry("phoenix", Beat, EMPTY_OBJ), ByHeartbeat)
    {
      var ref := NextRef();
      var _ := SendFrame(Frame(None, ref, "phoenix", Beat, EMPTY_OBJ), ByHeartbeat);
    }

    method OpenNew()
      modifies this`ws, this`conn
      ensures View() == Reopen(old(View()))
    {
      ws, conn := Open, conn + 1;
    }

    method Close()
      modifies this`ws
      ensures View() == Shut(old(View()))
    {
      if ws == Open {
        ws := Closed;
      }
    }

    method Discard()
      modifies this`ws
      ensures View() == old(View()).(link := NoSocket)
    {
      ws := NoSocket;
    }
  }

  // ----- _pending_replies and the coroutines that await its futures -----

  class ReplyTable {
    var pending: set<nat>
    var futures: map<nat, Future>
    var joiners: map<nat, Joiner>
    var calls: set<nat>
    ghost var replies: seq<(nat, Json)>
    ghost var outcomes: map<nat, Outcome>

    ghost function View(): Book
      reads this
    {
      Book(pending, futures, joiners, calls, replies, outcomes)
    }

    constructor ()
      ensures View() == Book({}, map[], map[], {}, [], map[])
    {
      pending, futures, joiners, calls, replies, outcomes := {}, map[], map[], {}, [], map[];
    }

    method Expect(ref: nat)
      modifies this`pending, this`futures
      ensures View() == Register(old(View()), ref)
    {
      futures, pending := futures[ref := Waiting], pending + {ref};
    }

    method AwaitJoin(ref: nat, topic: string, loop: Option<nat>)
      modifies this`joiners
      ensures View() == old(View()).(joiners := old(joiners)[ref := Joiner(topic, loop)])
    {
      joiners := joiners[ref := Joiner(topic, loop)];
    }

    method AwaitCall(ref: nat)
      modifies this`calls
      ensures View() == old(View()).(calls := old(calls) + {ref})
    {
      calls := calls + {ref};
    }

    /** The send failed: the call pops its key, and nobody holds its future any more. */
    method GiveUp(ref: nat)
      modifies this`pending, this`futures, this`outcomes
      ensures pending == old(pending) - {ref} && futures == old(futures) - {ref}
      ensures outcomes == old(outcomes)[ref := SendFailed]
    {
      pending, futures, outcomes := pending - {ref}, futures - {ref}, outcomes[ref := SendFailed];
    }

    /** A phx_reply pops its key, and settles the future if that was there and not done. */
    method Settle(ref: nat, payload: Json)
      modifies this`pending, this`futures, this`replies
      ensures View() == TakeReply(old(View()), ref, payload)
    {
      var known := ref in pending;
      replies, pending := replies + [(ref, payload)], pending - {ref};
      if known && ref in futures && futures[ref] == Waiting {
        futures := futures[ref := Resolved(payload)];
      }
    }

    method LeaveJoin(ref: nat)
      modifies this`joiners
      ensures View() == old(View()).(joiners := old(joiners) - {ref})
    {
      joiners := joiners - {ref};
    }

    /** The finally clause of call() pops the key whatever the result. */
    method EndCall(ref: nat, late: bool) returns (result: Option<Json>)
      requires ref in calls && ref in futures && futures[ref] != Waiting
      modifies this`calls, this`pending, this`outcomes
      ensures View() == ReturnCall(old(View()), ref, late)
      ensures result == if futures[ref].Resolved? && !late then Some(futures[ref].payload) else None
    {
      result := if futures[ref].Resolved? && !late then Some(futures[ref].payload) else None;
      calls, pending := calls - {ref}, pending - {ref};
      outcomes := outcomes[ref := if result.Some? then Returned(result.value) else Expired];
    }

    /** The timer of call() cancels a future that is still waiting. */
    method Expire(ref: nat)
      modifies this`futures
      ensures View() == TimeOut(old(View()), ref)
    {
      if ref in calls && ref in futures && futures[ref] == Waiting {
        futures := futures[ref := Cancelled];
      }
    }

    method Abandon(ref: nat)
      modifies this`joiners, this`futures
      ensures View() == old(View()).(joiners := old(joiners) - {ref}, futures := CancelWaits(old(futures), {ref}))
    {
      joiners, futures := joiners - {ref}, CancelWaits(futures, {ref});
    }

    method CancelJoinsOf(id: nat)
      modifies this`joiners, this`futures
      ensures View() == CancelLoop(old(View()), id)
    {
      var gone := JoinsOf(joiners, id);
      joiners, futures := joiners - gone, CancelWaits(futures, gone);
    }
  }

  // ----- _pending_pushes -----

  /** The count entries of a ring that start at slot first and wrap around. */
  ghost function Unrolled<T>(ring: seq<T>, first: nat, count: nat): seq<T>
    requires first < |ring| && count <= |ring|
  {
    (ring + ring)[first..first + count]
  }

  function SlotAfter(first: nat, count: nat, size: nat): (slot: nat)
    requires first < size && count <= size
    ensures slot < size && (slot == first + count || slot + size == first + count)
  {
    if first + count < size then first + count else first + count - size
  }

  /** Writing the slot after the last entry appends to the contents. */
  lemma WriteAppends<T>(ring: seq<T>, first: nat, count: nat, x: T)
    requires first < |ring| && count < |ring|
    ensures Unrolled(ring[SlotAfter(first, count, |ring|) := x], first, count + 1) == Unrolled(ring, first, count) + [x]
  {
    var slot := SlotAfter(first, count, |ring|);
    var was, now := Unrolled(ring, first, count) + [x], Unrolled(ring[slot := x], first, count + 1);
    forall i | 0 <= i <= count ensures now[i] == was[i] {
      if first + i < |ring| {
        assert now[i] == ring[slot := x][first + i];
      } else {
        assert now[i] == ring[slot := x][first + i - |ring|];
      }
    }
  }

  /** Moving the first slot on by one drops the oldest entry. */
  lemma AdvanceDrops<T>(ring: seq<T>, first: nat, count: nat)
    requires first < |ring| && 0 < count <= |ring|
    ensures Unrolled(ring, SlotAfter(first, 1, |ring|), count - 1) == Unrolled(ring, first, count)[1..]
    ensures Unrolled(ring, first, count)[0] == ring[first]
  {
    var next := SlotAfter(first, 1, |ring|);
    var was, now := Unrolled(ring, first, count)[1..], Unrolled(ring, next, count - 1);
    forall i | 0 <= i < count - 1 ensures now[i] == was[i] {
      assert was[i] == (ring + ring)[first + 1 + i];
      assert now[i] == (ring + ring)[next + i];
    }
  }

  /** A bounded queue over a ring of slots, in which the oldest entry gives way. */
  class PushQueue {
    const slots: array<Entry>
    var first: nat
    var count: nat

    ghost predicate Valid()
      reads this
    {
      slots.Length == PENDING_PUSH_CAP && first < PENDING_PUSH_CAP && count <= PENDING_PUSH_CAP
    }

    ghost function Contents(): (q: seq<Entry>)
      requires Valid()
      reads this, slots
      ensures |q| == count
    {
      Unrolled(slots[..], first, count)
    }

    constructor ()
      ensures Valid() && fresh(slots) && Contents() == []
    {
      slots := new Entry[PENDING_PUSH_CAP];
      first, count := 0, 0;
    }

    /** A full queue drops its oldest entry first. */
    method Append(e: Entry)
      requires Valid()
      modifies this, slots
      ensures Valid() && Contents() == Enqueue(old(Contents()), e)
    {
      if count == PENDING_PUSH_CAP {
        AdvanceDrops(slots[..], first, count);
        first, count := SlotAfter(first, 1, PENDING_PUSH_CAP), count - 1;
      }
      ghost var kept := Contents();
      var slot := SlotAfter(first, count, PENDING_PUSH_CAP);
      WriteAppends(slots[..], first, count, e);
      slots[slot] := e;
      count := count + 1;
      assert Contents() == kept + [e];
    }

    method PopLeft() returns (e: Entry)
      requires Valid() && Contents() != []
      modifies this
      ensures Valid() && e == old(Contents())[0] && Contents() == old(Contents())[1..]
    {
      AdvanceDrops(slots[..], first, count);
      e := slots[first];
      first, count := SlotAfter(first, 1, PENDING_PUSH_CAP), count - 1;
    }
  }
}
