/** The app-proxy handler: session commands, at-routing, and the active thread of each chat. */
module FeishuApp {
  import opened Prelude
  import opened Actions
  import opened Sorting
  import opened Strings
  import opened Worker
  import opened StateCodec

  const NEW_SESSION := "/new-session "
  const NEW_THREAD := "/new-thread "

  datatype State = State(appId: string, bound: set<string>, active: map<string, string>, lastChat: string)

  const EMPTY := State("", {}, map[], "")

  // ----- the option loop of /new-session -----

  datatype Options = Options(name: string, cwd: string, worktree: string)

  const NO_OPTIONS := Options("", "", "")

  function Apply(o: Options, p: string): Options {
    if "name=" <= p then o.(name := p[5..])
    else if "cwd=" <= p then o.(cwd := p[4..])
    else if "worktree=" <= p then o.(worktree := p[9..])
    else if "tag=" <= p then (if o.name == "" then o.(name := p[4..]) else o)
    else o
  }

  function Fold(o: Options, tokens: seq<string>): Options
    decreases |tokens|
  {
    if tokens == [] then o else Fold(Apply(o, tokens[0]), tokens[1..])
  }

  method ParseOptions(tokens: seq<string>) returns (name: string, cwd: string, worktree: string)
    ensures Options(name, cwd, worktree) == Fold(NO_OPTIONS, tokens)
  {
    name, cwd, worktree := "", "", "";
    for i := 0 to |tokens|
      invariant Fold(Options(name, cwd, worktree), tokens[i..]) == Fold(NO_OPTIONS, tokens)
    {
      var p := tokens[i];
      assert tokens[i..][0] == p && tokens[i..][1..] == tokens[i + 1..];
      if "name=" <= p {
        name := p[5..];
      } else if "cwd=" <= p {
        cwd := p[4..];
      } else if "worktree=" <= p {
        worktree := p[9..];
      } else if "tag=" <= p {
        if name == "" {
          name := p[4..];
        }
      }
    }
  }

  // ----- the handler -----

  datatype Session = Session(name: string, workspace: string, options: Options)

  function DefaultName(mid: string): (r: string)
    ensures r != ""
  {
    var rest := if '_' in mid then After(mid, '_') else mid;
    var short := if |rest| <= 12 then rest else rest[..12];
    if short == "" then "sess" else short
  }

  /** The session a message asks for, if it is an accepted session command; it depends on the event alone. */
  function SessionOf(show: Show, ev: Event): (r: Option<Session>)
    ensures r.Some? ==> r.value.name != "" && r.value.workspace != ""
  {
    var content := Arg(show, ev, "content");
    if ev.eventType != JStr("msg_received") then None
    else if NEW_SESSION <= content then
      var body := Strip(content[|NEW_SESSION|..]);
      if body == "" then None
      else
        var parts := Words(body);
        var o := Fold(NO_OPTIONS, parts[1..]);
        assert parts[0] in parts;
        Some(Session(if o.name != "" then o.name else DefaultName(Arg(show, ev, "message_id")), parts[0], o))
    else if NEW_THREAD <= content then
      var body := Strip(content[|NEW_THREAD|..]);
      if body == "" then None
      else
        var parts := Words(body);
        assert parts[0] in parts;
        Some(Session(parts[0], "legacy", NO_OPTIONS))
    else None
  }

  function Open(show: Show, s: State, ev: Event, n: Session): (State, seq<Action>) {
    var chat := Arg(show, ev, "chat_id");
    (s.(bound := s.bound + {n.name}, active := if chat != "" then s.active[chat := n.name] else s.active),
     [InvokeCommand("feishu-thread-session",
                    map["thread_id" := JStr(n.name), "chat_id" := JStr(chat), "workspace" := JStr(n.workspace),
                        "tag" := JStr(n.name), "name" := JStr(n.name), "cwd" := JStr(n.options.cwd),
                        "worktree" := JStr(n.options.worktree)])])
  }

  function RouteTo(thread: string, args: map<string, Json>): Action {
    Route("thread:" + thread, JObj(map["event_type" := JStr("msg_received"), "args" := JObj(args)]))
  }

  function AtRouted(s: State, ev: Event, content: string): seq<Action>
    requires content != ""
  {
    var rest := content[1..];
    if ' ' !in rest || Before(rest, ' ') !in s.bound then []
    else [RouteTo(Before(rest, ' '), ev.args["content" := JStr(After(rest, ' '))])]
  }

  function Plain(s: State, ev: Event, chat: string): seq<Action> {
    if chat in s.active && s.active[chat] != "" && s.active[chat] in s.bound
    then [RouteTo(s.active[chat], ev.args)] else []
  }

  predicate IsCommand(content: string) {
    NEW_SESSION <= content || NEW_THREAD <= content
  }

  function OnMsg(show: Show, s: State, ev: Event): (State, seq<Action>) {
    if ev.eventType != JStr("msg_received") then (s, [])
    else
      var content, chat := Arg(show, ev, "content"), Arg(show, ev, "chat_id");
      var s1 := if chat != "" && chat != s.lastChat then s.(lastChat := chat) else s;
      if IsCommand(content) then
        match SessionOf(show, ev) case Some(n) => Open(show, s1, ev, n) case None => (s1, [])
      else if "@" <= content then (s1, AtRouted(s1, ev, content))
      else (s1, Plain(s1, ev, chat))
  }

  // ----- reading a written command -----

  predicate IsWord(w: string) {
    w != "" && forall i :: 0 <= i < |w| ==> !IsSpace(w[i])
  }

  lemma {:induction false} WordEndAt(w: string, rest: string)
    requires (forall i :: 0 <= i < |w| ==> !IsSpace(w[i])) && (rest == "" || IsSpace(rest[0]))
    ensures WordEnd(w + rest) == |w|
    decreases |w|
  {
    if w == "" {
      assert w + rest == rest;
    } else {
      assert (w + rest)[1..] == w[1..] + rest;
      WordEndAt(w[1..], rest);
    }
  }

  lemma FirstWord(w: string, rest: string)
    requires IsWord(w) && (rest == "" || IsSpace(rest[0]))
    ensures Words(w + rest) == [w] + Words(rest)
  {
    WordEndAt(w, rest);
    var s := w + rest;
    assert s[0] == w[0] && s[..|w|] == w && s[|w|..] == rest;
  }

  lemma {:induction false} WordsOfJoin(ws: seq<string>)
    requires ws != [] && forall w :: w in ws ==> IsWord(w)
    ensures Words(Join(ws, ' ')) == ws
    decreases |ws|
  {
    assert ws[0] in ws;
    if |ws| == 1 {
      FirstWord(ws[0], "");
      assert ws[0] + "" == ws[0] && ws == [ws[0]];
    } else {
      assert forall w :: w in ws[1..] ==> w in ws;
      WordsOfJoin(ws[1..]);
      var rest := [' '] + Join(ws[1..], ' ');
      assert rest[1..] == Join(ws[1..], ' ');
      FirstWord(ws[0], rest);
      assert ws[0] + rest == Join(ws, ' ');
      assert ws == [ws[0]] + ws[1..];
    }
  }

  /** A command written as a workspace and tokens, one space apart, is read as exactly those. */
  lemma CommandIsRead(show: Show, ev: Event, workspace: string, tokens: seq<string>)
    requires ev.eventType == JStr("msg_received") && forall w :: w in [workspace] + tokens ==> IsWord(w)
    requires Arg(show, ev, "content") == NEW_SESSION + Join([workspace] + tokens, ' ')
    ensures var o := Fold(NO_OPTIONS, tokens);
            SessionOf(show, ev)
            == Some(Session(if o.name != "" then o.name else DefaultName(Arg(show, ev, "message_id")), workspace, o))
  {
    var ws := [workspace] + tokens;
    var body := Join(ws, ' ');
    WordsOfJoin(ws);
    forall i | 0 <= i < |ws| ensures IsWord(ws[i]) {
      assert ws[i] in ws;
    }
    JoinEnds(ws, ' ');
    assert Arg(show, ev, "content")[|NEW_SESSION|..] == body;
    assert Strip(body) == body;
    assert ws[1..] == tokens;
  }

  /** "/new-thread w ..." opens thread w in the legacy workspace without options. */
  lemma ThreadCommandIsRead(show: Show, ev: Event, words: seq<string>)
    requires ev.eventType == JStr("msg_received") && words != [] && forall w :: w in words ==> IsWord(w)
    requires Arg(show, ev, "content") == NEW_THREAD + Join(words, ' ')
    ensures SessionOf(show, ev) == Some(Session(words[0], "legacy", NO_OPTIONS))
  {
    var body := Join(words, ' ');
    WordsOfJoin(words);
    forall i | 0 <= i < |words| ensures IsWord(words[i]) {
      assert words[i] in words;
    }
    JoinEnds(words, ' ');
    var content := Arg(show, ev, "content");
    assert content[|NEW_THREAD|..] == body && content[5] == 't';
    assert !(NEW_SESSION <= content) by {
      assert NEW_SESSION[5] == 's';
    }
    assert Strip(body) == body;
  }

  /** Without a name the session is called by the first twelve characters after the first underscore of the message id. */
  lemma DefaultNameIs(head: string, tail: string)
    requires '_' !in head
    ensures DefaultName(head + ['_'] + tail) == if tail == "" then "sess" else if |tail| <= 12 then tail else tail[..12]
    ensures DefaultName(head) == if head == "" then "sess" else if |head| <= 12 then head else head[..12]
  {
    PartitionAt(head, '_', tail);
  }

  // ----- runs -----

  function Run(show: Show, s: State, evs: seq<Event>): State
    decreases |evs|
  {
    if evs == [] then s else OnMsg(show, Run(show, s, evs[..|evs| - 1]), evs[|evs| - 1]).0
  }

  /** The name of the most recent accepted session command in the chat. */
  function Latest(show: Show, evs: seq<Event>, chat: string): Option<string>
    decreases |evs|
  {
    if evs == [] then None
    else
      var ev := evs[|evs| - 1];
      if SessionOf(show, ev).Some? && Arg(show, ev, "chat_id") == chat then Some(SessionOf(show, ev).value.name)
      else Latest(show, evs[..|evs| - 1], chat)
  }

  function Names(show: Show, evs: seq<Event>): set<string>
    decreases |evs|
  {
    if evs == [] then {}
    else
      Names(show, evs[..|evs| - 1])
      + (var n := SessionOf(show, evs[|evs| - 1]); if n.Some? then {n.value.name} else {})
  }

  /** The bound threads are all accepted names, and the active thread of a chat its latest one. */
  ghost predicate Tracks(show: Show, s: State, evs: seq<Event>) {
    && s.bound == Names(show, evs)
    && (forall c :: c in s.active <==> c != "" && Latest(show, evs, c).Some?)
    && (forall c :: c in s.active ==> s.active[c] == Latest(show, evs, c).value && s.active[c] in s.bound && s.active[c] != "")
  }

  lemma StepTracks(show: Show, s: State, evs: seq<Event>, ev: Event)
    requires Tracks(show, s, evs)
    ensures Tracks(show, OnMsg(show, s, ev).0, evs + [ev])
  {
    OneMore(show, evs, ev);
    StepOpens(show, s, ev);
    TracksNext(show, s, evs, ev, OnMsg(show, s, ev).0);
  }

  /** How one more event changes the accepted names and the latest ones. */
  lemma OneMore(show: Show, evs: seq<Event>, ev: Event)
    ensures var n := SessionOf(show, ev);
            && Names(show, evs + [ev]) == Names(show, evs) + (if n.Some? then {n.value.name} else {})
            && forall c :: Latest(show, evs + [ev], c)
                           == if n.Some? && Arg(show, ev, "chat_id") == c then Some(n.value.name) else Latest(show, evs, c)
  {
    var all := evs + [ev];
    assert all[..|all| - 1] == evs && all[|all| - 1] == ev;
  }

  /** An accepted command binds its name and makes it active in its chat; nothing else changes either. */
  lemma StepOpens(show: Show, s: State, ev: Event)
    ensures var n, chat, d := SessionOf(show, ev), Arg(show, ev, "chat_id"), OnMsg(show, s, ev).0;
            && d.bound == s.bound + (if n.Some? then {n.value.name} else {})
            && d.active == if n.Some? && chat != "" then s.active[chat := n.value.name] else s.active
  {
  }

  lemma TracksNext(show: Show, s: State, evs: seq<Event>, ev: Event, d: State)
    requires Tracks(show, s, evs)
    requires var n, chat := SessionOf(show, ev), Arg(show, ev, "chat_id");
             && Names(show, evs + [ev]) == Names(show, evs) + (if n.Some? then {n.value.name} else {})
             && (forall c :: Latest(show, evs + [ev], c)
                             == if n.Some? && chat == c then Some(n.value.name) else Latest(show, evs, c))
             && d.bound == s.bound + (if n.Some? then {n.value.name} else {})
             && d.active == if n.Some? && chat != "" then s.active[chat := n.value.name] else s.active
    ensures Tracks(show, d, evs + [ev])
  {
  }

  lemma {:induction false} RunTracks(show: Show, evs: seq<Event>)
    ensures Tracks(show, Run(show, EMPTY, evs), evs)
    decreases |evs|
  {
    if evs != [] {
      var n := |evs| - 1;
      RunTracks(show, evs[..n]);
      StepTracks(show, Run(show, EMPTY, evs[..n]), evs[..n], evs[n]);
      assert evs[..n] + [evs[n]] == evs;
    }
  }

  /**
   Over every run from the empty state, a plain message goes to the thread of the most recent
   accepted session command in its chat, and nowhere exactly when there was none.
   */
  lemma PlainGoesToLatest(show: Show, evs: seq<Event>, ev: Event)
    requires ev.eventType == JStr("msg_received")
    requires !IsCommand(Arg(show, ev, "content")) && !("@" <= Arg(show, ev, "content"))
    ensures var chat := Arg(show, ev, "chat_id");
            OnMsg(show, Run(show, EMPTY, evs), ev).1
            == if chat != "" && Latest(show, evs, chat).Some?
               then [RouteTo(Latest(show, evs, chat).value, ev.args)] else []
  {
    RunTracks(show, evs);
  }

  /** "@tag body" goes to that thread, with the body as its content, exactly when some accepted command named it. */
  lemma AtGoesToNamed(show: Show, evs: seq<Event>, ev: Event, tag: string, body: string)
    requires ev.eventType == JStr("msg_received") && ' ' !in tag
    requires Arg(show, ev, "content") == "@" + (tag + [' '] + body)
    ensures OnMsg(show, Run(show, EMPTY, evs), ev).1
         == if tag in Names(show, evs) then [RouteTo(tag, ev.args["content" := JStr(body)])] else []
  {
    RunTracks(show, evs);
    AtRoutes(show, Run(show, EMPTY, evs), ev, tag, body);
  }

  lemma AtIsRead(content: string, tag: string, body: string)
    requires ' ' !in tag && content == "@" + (tag + [' '] + body)
    ensures !IsCommand(content) && "@" <= content
    ensures ' ' in content[1..] && Before(content[1..], ' ') == tag && After(content[1..], ' ') == body
  {
    PartitionAt(tag, ' ', body);
    assert content[0] == '@' && content[1..] == tag + [' '] + body;
    assert NEW_SESSION[0] == '/' && NEW_THREAD[0] == '/';
  }

  lemma AtRoutes(show: Show, s: State, ev: Event, tag: string, body: string)
    requires ev.eventType == JStr("msg_received") && ' ' !in tag
    requires Arg(show, ev, "content") == "@" + (tag + [' '] + body)
    ensures OnMsg(show, s, ev).1 == if tag in s.bound then [RouteTo(tag, ev.args["content" := JStr(body)])] else []
  {
    AtIsRead(Arg(show, ev, "content"), tag, body);
  }

  /** The parameters of a session command spell out the session, its thread and tag being its name. */
  ghost predicate Carries(params: map<string, Json>, n: Session, chat: string) {
    && {"thread_id", "tag", "name", "workspace", "chat_id", "cwd", "worktree"} <= params.Keys
    && params["thread_id"] == params["tag"] == params["name"] == JStr(n.name)
    && params["workspace"] == JStr(n.workspace) && params["chat_id"] == JStr(chat)
    && params["cwd"] == JStr(n.options.cwd) && params["worktree"] == JStr(n.options.worktree)
  }

  /**
   An accepted session command makes the handler invoke exactly one command, which carries the
   session; any other command text, and any event that is no message, makes it do nothing.
   */
  lemma CommandOpensSession(show: Show, s: State, ev: Event)
    requires ev.eventType != JStr("msg_received") || IsCommand(Arg(show, ev, "content"))
    ensures var acts, n := OnMsg(show, s, ev).1, SessionOf(show, ev);
            if n.None? then acts == []
            else |acts| == 1 && acts[0].InvokeCommand? && acts[0].name == "feishu-thread-session"
                 && Carries(acts[0].params, n.value, Arg(show, ev, "chat_id"))
  {
    if SessionOf(show, ev).Some? {
      OpenCarries(show, s, ev, SessionOf(show, ev).value);
    }
  }

  /** The chat of the last message that has one. */
  function LastChat(show: Show, evs: seq<Event>): string
    decreases |evs|
  {
    if evs == [] then ""
    else
      var ev := evs[|evs| - 1];
      if ev.eventType == JStr("msg_received") && Arg(show, ev, "chat_id") != "" then Arg(show, ev, "chat_id")
      else LastChat(show, evs[..|evs| - 1])
  }

  lemma {:induction false} LastChatIsKept(show: Show, evs: seq<Event>)
    ensures Run(show, EMPTY, evs).lastChat == LastChat(show, evs)
    decreases |evs|
  {
    if evs != [] {
      LastChatIsKept(show, evs[..|evs| - 1]);
      LastChatStep(show, Run(show, EMPTY, evs[..|evs| - 1]), evs[|evs| - 1]);
    }
  }

  lemma LastChatStep(show: Show, s: State, ev: Event)
    ensures OnMsg(show, s, ev).0.lastChat
         == if ev.eventType == JStr("msg_received") && Arg(show, ev, "chat_id") != ""
            then Arg(show, ev, "chat_id") else s.lastChat
  {
  }

  /** Every route leads to a bound thread; every command names a thread and a workspace. */
  lemma ActionsAreBound(show: Show, evs: seq<Event>, ev: Event, a: Action)
    requires a in OnMsg(show, Run(show, EMPTY, evs), ev).1
    ensures a.Route? || a.InvokeCommand?
    ensures a.Route? ==> exists t :: t in Names(show, evs) && a.target == "thread:" + t
    ensures a.InvokeCommand? ==>
              && SessionOf(show, ev).Some? && Carries(a.params, SessionOf(show, ev).value, Arg(show, ev, "chat_id"))
              && a.params["thread_id"] != JStr("") && a.params["workspace"] != JStr("")
  {
    RunTracks(show, evs);
    var s := Run(show, EMPTY, evs);
    OneAction(show, s, ev, a);
  }

  lemma OneAction(show: Show, s: State, ev: Event, a: Action)
    requires a in OnMsg(show, s, ev).1
    ensures a.Route? || a.InvokeCommand?
    ensures a.Route? ==> exists t :: t in s.bound && a.target == "thread:" + t
    ensures a.InvokeCommand? ==>
              SessionOf(show, ev).Some? && Carries(a.params, SessionOf(show, ev).value, Arg(show, ev, "chat_id"))
  {
    var n := SessionOf(show, ev);
    if IsCommand(Arg(show, ev, "content")) && n.Some? {
      OpenCarries(show, s, ev, n.value);
    }
  }

  lemma OpenCarries(show: Show, s: State, ev: Event, n: Session)
    ensures forall a :: a in Open(show, s, ev, n).1 ==> a.InvokeCommand? && Carries(a.params, n, Arg(show, ev, "chat_id"))
  {
  }

  /** Bound threads only grow: after more events every thread is still bound. */
  lemma {:induction false} BoundGrows(show: Show, s: State, evs: seq<Event>)
    ensures s.bound <= Run(show, s, evs).bound
    decreases |evs|
  {
    if evs != [] {
      BoundGrows(show, s, evs[..|evs| - 1]);
    }
  }

  // ----- persistence -----

  function PDicts(m: map<string, string>): map<string, PyVal> {
    map k | k in m :: PStr(m[k])
  }

  function Dump(iter: set<string> -> seq<string>, s: State): map<string, PyVal> {
    map["app_id" := PStr(s.appId), "bound_threads" := PSet(iter(s.bound)),
        "active_thread_by_chat" := PDict(PDicts(s.active)), "last_chat_id" := PStr(s.lastChat)]
  }

  function LoadDict(d: map<string, Json>, k: string): Loaded<map<string, string>> {
    if k !in d then Loaded(map[])
    else if d[k].JObj? && forall x :: x in d[k].fields ==> d[k].fields[x].JStr?
    then Loaded(map x | x in d[k].fields :: d[k].fields[x].s)
    else Invalid
  }

  function Load(d: map<string, Json>): Loaded<State> {
    match (LoadText(d, "app_id"), LoadTexts(d, "bound_threads"), LoadDict(d, "active_thread_by_chat"),
           LoadText(d, "last_chat_id"))
    case (Loaded(app), Loaded(bound), Loaded(active), Loaded(last)) =>
      Loaded(State(app, (set x | x in bound), active, last))
    case _ => Invalid
  }

  function Registered(iter: set<string> -> seq<string>, show: Show): Entry<State> {
    Entry(1, d => Load(d), s => Dump(iter, s), (s, ev) => var r := OnMsg(show, s, ev); Handled(r.0, r.1))
  }

  lemma DictLoads(d: map<string, Json>, k: string, m: map<string, string>)
    requires k in d && d[k] == ToNative(PDict(PDicts(m)))
    ensures LoadDict(d, k) == Loaded(m)
  {
    var fields := d[k].fields;
    assert fields.Keys == m.Keys;
    assert forall x :: x in m ==> fields[x] == JStr(m[x]);
    assert (map x | x in fields :: fields[x].s) == m;
  }

  lemma LoadUndoesDump(iter: set<string> -> seq<string>, show: Show, s: State)
    requires IsIteration(iter)
    ensures Load(DumpState(Registered(iter, show), s) - {SCHEMA_KEY}) == Loaded(s)
  {
    var d := DumpState(Registered(iter, show), s) - {SCHEMA_KEY};
    assert d["app_id"] == JStr(s.appId) && d["last_chat_id"] == JStr(s.lastChat);
    assert d["bound_threads"] == JList(Worker.Strings(Sort(iter(s.bound))));
    assert d["active_thread_by_chat"] == ToNative(PDict(PDicts(s.active)));
    TextsLoad(d, "bound_threads", Sort(iter(s.bound)));
    DictLoads(d, "active_thread_by_chat", s.active);
    assert (set x | x in Sort(iter(s.bound))) == s.bound;
  }

  /** The app handler behaves the same through the worker as in memory, whatever Python's set order. */
  lemma PersistsFaithfully(order: KeyOrder, iter: set<string> -> seq<string>, show: Show, key: string, s: State,
                           evs: seq<Event>)
    requires IsIteration(iter)
    ensures var e := Registered(iter, show);
            var m := InMemory(e, s, evs);
            Persisted(order, map[key := Some(e)], key, DumpState(e, s), evs) == (DumpState(e, m.0), SerialiseRuns(m.1))
  {
    var e := Registered(iter, show);
    forall t ensures e.load(DumpState(e, t) - {SCHEMA_KEY}) == Loaded(t) {
      LoadUndoesDump(iter, show, t);
    }
    PersistedAgrees(order, map[key := Some(e)], key, e, s, evs);
  }

  /** A first call without any state starts from the empty one. */
  lemma NoStateIsEmpty()
    ensures Load(map[]) == Loaded(EMPTY)
  {
    var none: seq<string> := [];
    assert (set x | x in none) == {};
  }
}
