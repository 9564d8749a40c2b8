/** The thread-proxy handler: bounded dedup of inbound messages, and the reply chat. */
module FeishuThread {
  import opened Prelude
  import opened Actions
  import opened Sorting
  import opened Worker
  import opened StateCodec

  const DEDUP_CAP := 1000

  datatype State = State(threadId: string, chatId: string, dedup: set<string>, order: seq<string>, ack: Option<string>)

  const EMPTY := State("", "", {}, [], None)

  function WithAddedDedup(s: State, id: string): State {
    if id in s.dedup then s
    else
      var order, dedup := s.order + [id], s.dedup + {id};
      if |order| > DEDUP_CAP then s.(order := order[1..], dedup := dedup - {order[0]})
      else s.(order := order, dedup := dedup)
  }

  function WithChatId(s: State, chat: string): State {
    s.(chatId := chat)
  }

  function HandleInbound(show: Show, s: State, ev: Event): (State, seq<Action>) {
    var id, chat := Arg(show, ev, "message_id"), Arg(show, ev, "chat_id");
    if id != "" && id in s.dedup then (s, [])
    else
      var s1 := if id != "" then WithAddedDedup(s, id) else s;
      var s2 := if chat != "" && s1.chatId == "" then WithChatId(s1, chat) else s1;
      (s2, [Emit("esr-channel", "notify_session",
                 map["session_id" := JStr(s.threadId), "source" := JStr("feishu"), "chat_id" := JStr(chat),
                     "message_id" := JStr(id), "user" := JStr(Arg(show, ev, "sender_id")),
                     "content" := JStr(Arg(show, ev, "content"))])])
  }

  function HandleOutbound(show: Show, s: State, ev: Event): (State, seq<Action>) {
    if s.chatId == "" then (s, [])
    else (s, [Emit("feishu", "send_message",
                   map["chat_id" := JStr(s.chatId), "content" := JStr(Arg(show, ev, "text"))])])
  }

  function OnMsg(show: Show, s: State, ev: Event): (State, seq<Action>) {
    if ev.eventType == JStr("msg_received") then HandleInbound(show, s, ev)
    else if ev.eventType == JStr("cc_output") then HandleOutbound(show, s, ev)
    else (s, [])
  }

  // ----- runs -----

  function Run(show: Show, s: State, evs: seq<Event>): State
    decreases |evs|
  {
    if evs == [] then s else Run(show, OnMsg(show, s, evs[0]).0, evs[1..])
  }

  /** Event ev is an inbound message with a non-empty id that state s notifies. */
  predicate Notifies(show: Show, s: State, ev: Event) {
    && ev.eventType == JStr("msg_received") && Arg(show, ev, "message_id") != ""
    && OnMsg(show, s, ev).1 != []
  }

  /** The non-empty ids notified along a run, oldest first. */
  function Notified(show: Show, s: State, evs: seq<Event>): seq<string>
    decreases |evs|
  {
    if evs == [] then []
    else
      (if Notifies(show, s, evs[0]) then [Arg(show, evs[0], "message_id")] else [])
      + Notified(show, OnMsg(show, s, evs[0]).0, evs[1..])
  }

  /** The dedup window holds exactly the last 1000 ids of past, each once. */
  ghost predicate Window(s: State, past: seq<string>) {
    && (forall x :: x in s.dedup <==> x in s.order)
    && NoDup(s.order)
    && s.order == LastN(past, DEDUP_CAP)
  }

  lemma StepKeepsWindow(show: Show, s: State, past: seq<string>, ev: Event)
    requires Window(s, past)
    ensures Window(OnMsg(show, s, ev).0,
                   past + if Notifies(show, s, ev) then [Arg(show, ev, "message_id")] else [])
  {
    var id := Arg(show, ev, "message_id");
    assert past + [] == past;
    if Notifies(show, s, ev) {
      DedupSlides(s, past, id);
      var s1, s2 := WithAddedDedup(s, id), OnMsg(show, s, ev).0;
      assert s2.dedup == s1.dedup && s2.order == s1.order;
    } else if ev.eventType == JStr("msg_received") {
      assert OnMsg(show, s, ev).0.dedup == s.dedup && OnMsg(show, s, ev).0.order == s.order;
    }
  }

  lemma WindowSlides(past: seq<string>, order: seq<string>, id: string)
    requires order == LastN(past, DEDUP_CAP)
    ensures LastN(past + [id], DEDUP_CAP) == if |order| + 1 > DEDUP_CAP then (order + [id])[1..] else order + [id]
  {
  }

  lemma DedupSlides(s: State, past: seq<string>, id: string)
    requires Window(s, past) && id !in s.dedup
    ensures Window(WithAddedDedup(s, id), past + [id])
  {
    WindowSlides(past, s.order, id);
    AppendDistinct(s.order, id);
    DropDistinct(s.order + [id]);
  }

  lemma AppendDistinct(order: seq<string>, id: string)
    requires NoDup(order) && id !in order
    ensures NoDup(order + [id]) && forall x :: x in order + [id] <==> x in order || x == id
  {
  }

  lemma DropDistinct(order: seq<string>)
    requires NoDup(order) && order != []
    ensures NoDup(order[1..]) && forall x :: x in order[1..] <==> x in order && x != order[0]
  {
    assert order == [order[0]] + order[1..];
  }

  /** Remembering an id again changes nothing, and a new one slides the window. */
  lemma AddKeepsWindow(s: State, past: seq<string>, id: string)
    requires Window(s, past)
    ensures id in s.dedup ==> WithAddedDedup(s, id) == s
    ensures id !in s.dedup ==> Window(WithAddedDedup(s, id), past + [id])
  {
    if id !in s.dedup {
      DedupSlides(s, past, id);
    }
  }

  /** From any state whose window is the tail of past, a run keeps it the tail of past and what it notified. */
  lemma {:induction false} WindowIsLastNotified(show: Show, s: State, past: seq<string>, evs: seq<Event>)
    requires Window(s, past)
    ensures Window(Run(show, s, evs), past + Notified(show, s, evs))
    decreases |evs|
  {
    if evs == [] {
      assert past + [] == past;
    } else {
      var now := if Notifies(show, s, evs[0]) then [Arg(show, evs[0], "message_id")] else [];
      var s1 := OnMsg(show, s, evs[0]).0;
      StepKeepsWindow(show, s, past, evs[0]);
      WindowIsLastNotified(show, s1, past + now, evs[1..]);
      Regroup(past, now, Notified(show, s1, evs[1..]));
    }
  }

  /**
   Over every run from the empty state: a message with an id is notified if and only if its id
   is not among the last 1000 ids notified before it.
   */
  lemma NotifiedIffNotRecent(show: Show, evs: seq<Event>, ev: Event)
    requires ev.eventType == JStr("msg_received") && Arg(show, ev, "message_id") != ""
    ensures Notifies(show, Run(show, EMPTY, evs), ev)
       <==> Arg(show, ev, "message_id") !in LastN(Notified(show, EMPTY, evs), DEDUP_CAP)
  {
    WindowIsLastNotified(show, EMPTY, [], evs);
    assert [] + Notified(show, EMPTY, evs) == Notified(show, EMPTY, evs);
  }

  /** The first non-empty chat id among the inbound messages a run lets through, or empty. */
  function FirstChat(show: Show, s: State, evs: seq<Event>): string
    decreases |evs|
  {
    if evs == [] then ""
    else
      var r := OnMsg(show, s, evs[0]);
      if evs[0].eventType == JStr("msg_received") && r.1 != [] && Arg(show, evs[0], "chat_id") != ""
      then Arg(show, evs[0], "chat_id")
      else FirstChat(show, r.0, evs[1..])
  }

  lemma ChatStep(show: Show, s: State, ev: Event)
    ensures var r := OnMsg(show, s, ev);
            r.0.chatId == if s.chatId == "" && ev.eventType == JStr("msg_received") && r.1 != []
                          then Arg(show, ev, "chat_id") else s.chatId
  {
  }

  /** Over every run the reply chat is the first chat heard from; once set it never changes. */
  lemma {:induction false} ReplyChatIsFirst(show: Show, s: State, evs: seq<Event>)
    ensures Run(show, s, evs).chatId == if s.chatId != "" then s.chatId else FirstChat(show, s, evs)
    decreases |evs|
  {
    if evs != [] {
      ChatStep(show, s, evs[0]);
      ReplyChatIsFirst(show, OnMsg(show, s, evs[0]).0, evs[1..]);
    }
  }

  /** Over every run from the empty state, output goes to the first chat heard from, and is dropped before there is one. */
  lemma RepliesGoToFirstChat(show: Show, evs: seq<Event>, ev: Event)
    requires ev.eventType == JStr("cc_output")
    ensures var chat := FirstChat(show, EMPTY, evs);
            OnMsg(show, Run(show, EMPTY, evs), ev).1
            == if chat == "" then []
               else [Emit("feishu", "send_message",
                          map["chat_id" := JStr(chat), "content" := JStr(Arg(show, ev, "text"))])]
  {
    ReplyChatIsFirst(show, EMPTY, evs);
  }

  // ----- what the session is told -----

  /** A message as the session is notified of it. */
  datatype Note = Note(id: string, chat: string, user: string, content: string)

  function NoteOf(show: Show, ev: Event): Note {
    Note(Arg(show, ev, "message_id"), Arg(show, ev, "chat_id"), Arg(show, ev, "sender_id"), Arg(show, ev, "content"))
  }

  function Field(args: map<string, Json>, k: string): Option<string> {
    if k in args && args[k].JStr? then Some(args[k].s) else None
  }

  /** Reading a notification for session back; None for any other action. */
  function ReadNote(session: string, a: Action): Option<Note> {
    if a.Emit? && a.adapter == "esr-channel" && a.action == "notify_session" && Field(a.args, "session_id") == Some(session)
    then
      match (Field(a.args, "message_id"), Field(a.args, "chat_id"), Field(a.args, "user"), Field(a.args, "content"))
      case (Some(id), Some(chat), Some(user), Some(content)) => Some(Note(id, chat, user, content))
      case _ => None
    else None
  }

  /** All actions of a run, in order. */
  function Emitted(show: Show, s: State, evs: seq<Event>): seq<Action>
    decreases |evs|
  {
    if evs == [] then [] else OnMsg(show, s, evs[0]).1 + Emitted(show, OnMsg(show, s, evs[0]).0, evs[1..])
  }

  /** The notifications among the actions, read back. */
  function Notes(session: string, acts: seq<Action>): seq<Note> {
    if acts == [] then []
    else (match ReadNote(session, acts[0]) case Some(n) => [n] case None => []) + Notes(session, acts[1..])
  }

  /**
   Reference: the inbound messages in order, without those whose id is among the last 1000
   non-empty ids let through.  It keeps the ids only, no state of the handler.
   */
  function LetThrough(show: Show, past: seq<string>, evs: seq<Event>): seq<Note>
    decreases |evs|
  {
    if evs == [] then []
    else
      var id := Arg(show, evs[0], "message_id");
      if evs[0].eventType != JStr("msg_received") || (id != "" && id in LastN(past, DEDUP_CAP))
      then LetThrough(show, past, evs[1..])
      else [NoteOf(show, evs[0])] + LetThrough(show, past + (if id == "" then [] else [id]), evs[1..])
  }

  lemma {:induction false} NotesConcat(session: string, a: seq<Action>, b: seq<Action>)
    ensures Notes(session, a + b) == Notes(session, a) + Notes(session, b)
    decreases |a|
  {
    if a == [] {
      assert a + b == b;
    } else {
      assert (a + b)[1..] == a[1..] + b;
      NotesConcat(session, a[1..], b);
    }
  }

  lemma StepNotes(show: Show, s: State, past: seq<string>, ev: Event)
    requires Window(s, past)
    ensures var id, r := Arg(show, ev, "message_id"), OnMsg(show, s, ev);
            && r.0.threadId == s.threadId
            && Notes(s.threadId, r.1)
               == (if ev.eventType != JStr("msg_received") || (id != "" && id in LastN(past, DEDUP_CAP)) then []
                   else [NoteOf(show, ev)])
            && (Notifies(show, s, ev)
                <==> ev.eventType == JStr("msg_received") && id != "" && id !in LastN(past, DEDUP_CAP))
  {
    var r := OnMsg(show, s, ev);
    if r.1 != [] {
      assert r.1 == [r.1[0]] && r.1[1..] == [];
      if ev.eventType == JStr("msg_received") {
        assert ReadNote(s.threadId, r.1[0]) == Some(NoteOf(show, ev));
      } else {
        assert ReadNote(s.threadId, r.1[0]) == None;
      }
    }
  }

  /**
   Over every run the session is told exactly the messages the reference lets through, in
   order and with their own ids, chats, senders and contents, under the thread's session id.
   */
  lemma {:induction false} SessionHearsLetThrough(show: Show, s: State, past: seq<string>, evs: seq<Event>)
    requires Window(s, past)
    ensures Notes(s.threadId, Emitted(show, s, evs)) == LetThrough(show, past, evs)
    decreases |evs|
  {
    if evs != [] {
      var r := OnMsg(show, s, evs[0]);
      StepNotes(show, s, past, evs[0]);
      StepKeepsWindow(show, s, past, evs[0]);
      var past1 := past + if Notifies(show, s, evs[0]) then [Arg(show, evs[0], "message_id")] else [];
      assert past + [] == past;
      NotesConcat(s.threadId, r.1, Emitted(show, r.0, evs[1..]));
      SessionHearsLetThrough(show, r.0, past1, evs[1..]);
    }
  }

  /** Any 1001 ids notified in a row are distinct: an id comes again only after 1000 others. */
  lemma {:induction false} RepeatsAreFarApart(show: Show, s: State, past: seq<string>, evs: seq<Event>, i: nat, j: nat)
    requires Window(s, past)
    requires i < j < |past + Notified(show, s, evs)| && |past| <= j
    requires (past + Notified(show, s, evs))[i] == (past + Notified(show, s, evs))[j]
    ensures j - i > DEDUP_CAP
    decreases |evs|
  {
    assert past + [] == past;
    if evs != [] {
      var now := if Notifies(show, s, evs[0]) then [Arg(show, evs[0], "message_id")] else [];
      var s1 := OnMsg(show, s, evs[0]).0;
      var all := past + Notified(show, s, evs);
      assert all == (past + now) + Notified(show, s1, evs[1..]);
      StepKeepsWindow(show, s, past, evs[0]);
      StepNotes(show, s, past, evs[0]);
      if now != [] && j == |past| {
        assert all[j] == now[0] && all[i] == past[i];
        NotInLast(past, i);
      } else {
        RepeatsAreFarApart(show, s1, past + now, evs[1..], i, j);
      }
    }
  }

  lemma NotInLast(past: seq<string>, i: nat)
    requires i < |past| && past[i] !in LastN(past, DEDUP_CAP)
    ensures |past| - i > DEDUP_CAP
  {
    if |past| <= i + DEDUP_CAP {
      InLast(past, i);
    }
  }

  lemma InLast(past: seq<string>, i: nat)
    requires i < |past| <= i + DEDUP_CAP
    ensures past[i] in LastN(past, DEDUP_CAP)
  {
    var w := LastN(past, DEDUP_CAP);
    assert w[i - (|past| - |w|)] == past[i];
  }

  // ----- persistence -----

  function Dump(iter: set<string> -> seq<string>, s: State): map<string, PyVal> {
    map["thread_id" := PStr(s.threadId), "chat_id" := PStr(s.chatId), "dedup" := PSet(iter(s.dedup)),
        "dedup_order" := PTuple(PStrings(s.order)),
        "ack_msg_id" := match s.ack case None => PNone case Some(id) => PStr(id)]
  }

  function Load(d: map<string, Json>): Loaded<State> {
    match (LoadText(d, "thread_id"), LoadText(d, "chat_id"), LoadTexts(d, "dedup"), LoadTexts(d, "dedup_order"),
           LoadOptText(d, "ack_msg_id"))
    case (Loaded(t), Loaded(c), Loaded(dedup), Loaded(order), Loaded(ack)) =>
      Loaded(State(t, c, (set x | x in dedup), order, ack))
    case _ => Invalid
  }

  function Registered(iter: set<string> -> seq<string>, show: Show): Entry<State> {
    Entry(1, d => Load(d), s => Dump(iter, s), (s, ev) => var r := OnMsg(show, s, ev); Handled(r.0, r.1))
  }

  lemma LoadUndoesDump(iter: set<string> -> seq<string>, show: Show, s: State)
    requires IsIteration(iter)
    ensures Load(DumpState(Registered(iter, show), s) - {SCHEMA_KEY}) == Loaded(s)
  {
    var fields := Dump(iter, s);
    var d := DumpState(Registered(iter, show), s) - {SCHEMA_KEY};
    NativePStrings(s.order);
    assert d["thread_id"] == JStr(s.threadId) && d["chat_id"] == JStr(s.chatId);
    assert d["dedup"] == JList(Strings(Sort(iter(s.dedup))));
    assert d["dedup_order"] == JList(Strings(s.order));
    assert d["ack_msg_id"] == match s.ack case None => JNull case Some(id) => JStr(id);
    TextsLoad(d, "dedup", Sort(iter(s.dedup)));
    TextsLoad(d, "dedup_order", s.order);
    assert (set x | x in Sort(iter(s.dedup))) == s.dedup;
  }

  /** The thread handler behaves the same through the worker as in memory, whatever Python's set order. */
  lemma PersistsFaithfully(order: KeyOrder, iter: set<string> -> seq<string>, show: Show, key: string, s: State,
                           evs: seq<Event>)
    requires IsIteration(iter)
    ensures var e := Registered(iter, show);
            var m := InMemory(e, s, evs);
            Persisted(order, map[key := Some(e)], key, DumpState(e, s), evs) == (DumpState(e, m.0), SerialiseRuns(m.1))
  {
    var e := Registered(iter, show);
    forall t ensures e.load(DumpState(e, t) - {SCHEMA_KEY}) == Loaded(t) {
      LoadUndoesDump(iter, show, t);
    }
    PersistedAgrees(order, map[key := Some(e)], key, e, s, evs);
  }

  /** A first call without any state starts from the empty one. */
  lemma NoStateIsEmpty()
    ensures Load(map[]) == Loaded(EMPTY)
  {
    var none: seq<string> := [];
    assert (set x | x in none) == {};
  }
}
