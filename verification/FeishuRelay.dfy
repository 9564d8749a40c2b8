/**
 From a chat to its session: what the app handler routes, read as the event it is, and fed to
 the thread handler that the route names.
 */
module FeishuRelay {
  import opened Prelude
  import opened Actions
  import opened Worker
  import opened StateCodec
  import opened Strings
  import App = FeishuApp
  import Thread = FeishuThread

  /** A routed message read back: its thread, and the event it stands for; None for any other action. */
  function ReadRoute(a: Action): Option<(string, Event)> {
    if a.Route? && "thread:" <= a.target && a.msg.JObj?
       && "event_type" in a.msg.fields && "args" in a.msg.fields && a.msg.fields["args"].JObj?
    then Some((a.target[|"thread:"|..], Event(JStr(""), a.msg.fields["event_type"], a.msg.fields["args"].fields)))
    else None
  }

  /** The routed event is the original one, but for its content when that is given. */
  ghost predicate SameMessage(ev: Event, out: Event, content: Option<string>) {
    && out.eventType == JStr("msg_received")
    && (forall k :: k in ev.args && (k != "content" || content.None?) ==> k in out.args && out.args[k] == ev.args[k])
    && (forall k :: k in out.args ==> k in ev.args || (k == "content" && content.Some?))
    && (content.Some? ==> "content" in out.args && out.args["content"] == JStr(content.value))
  }

  lemma RouteReads(thread: string, args: map<string, Json>)
    ensures ReadRoute(App.RouteTo(thread, args)) == Some((thread, Event(JStr(""), JStr("msg_received"), args)))
  {
    var target := "thread:" + thread;
    assert target[|"thread:"|..] == thread;
  }

  /** The one action of the app handler, read back: to that thread, with that message. */
  ghost predicate RoutesOnly(acts: seq<Action>, ev: Event, thread: string, content: Option<string>) {
    && |acts| == 1 && ReadRoute(acts[0]).Some?
    && ReadRoute(acts[0]).value.0 == thread && SameMessage(ev, ReadRoute(acts[0]).value.1, content)
  }

  /**
   Over every run from the empty state a plain message is routed, whole, to the thread of the
   latest accepted session command in its chat, and nowhere exactly when there was none.
   */
  lemma PlainIsRelayed(show: Show, evs: seq<Event>, ev: Event)
    requires ev.eventType == JStr("msg_received")
    requires !App.IsCommand(Arg(show, ev, "content")) && !("@" <= Arg(show, ev, "content"))
    ensures var chat, acts := Arg(show, ev, "chat_id"), App.OnMsg(show, App.Run(show, App.EMPTY, evs), ev).1;
            if chat != "" && App.Latest(show, evs, chat).Some?
            then RoutesOnly(acts, ev, App.Latest(show, evs, chat).value, None)
            else acts == []
  {
    App.PlainGoesToLatest(show, evs, ev);
    var chat := Arg(show, ev, "chat_id");
    if chat != "" && App.Latest(show, evs, chat).Some? {
      RouteReads(App.Latest(show, evs, chat).value, ev.args);
    }
  }

  /** "@tag body" is routed to that thread with body for its content and all else as it was, exactly when it is known. */
  lemma AtIsRelayed(show: Show, evs: seq<Event>, ev: Event, tag: string, body: string)
    requires ev.eventType == JStr("msg_received") && ' ' !in tag
    requires Arg(show, ev, "content") == "@" + (tag + [' '] + body)
    ensures var acts := App.OnMsg(show, App.Run(show, App.EMPTY, evs), ev).1;
            if tag in App.Names(show, evs) then RoutesOnly(acts, ev, tag, Some(body)) else acts == []
  {
    App.AtGoesToNamed(show, evs, ev, tag, body);
    RouteReads(tag, ev.args["content" := JStr(body)]);
  }

  /** str() of a decoded string is that string. */
  ghost predicate ShowsText(show: Show) {
    forall s :: show(JStr(s)) == s
  }

  lemma SameArgs(show: Show, ev: Event, out: Event, content: Option<string>, k: string)
    requires SameMessage(ev, out, content) && k != "content"
    ensures Arg(show, out, k) == Arg(show, ev, k)
  {
  }

  /**
   End to end: whatever the thread has notified before, the routed message makes it tell its
   session the original id, chat and sender with the original content, or the body after the
   tag, unless that id is among the last 1000 it notified.
   */
  lemma RelayReachesSession(show: Show, ev: Event, acts: seq<Action>, thread: string, content: Option<string>,
                            s: Thread.State, past: seq<string>)
    requires ShowsText(show) && RoutesOnly(acts, ev, thread, content) && Thread.Window(s, past)
    ensures var out, id := ReadRoute(acts[0]).value.1, Arg(show, ev, "message_id");
            Thread.Notes(s.threadId, Thread.OnMsg(show, s, out).1)
            == if id != "" && id in LastN(past, Thread.DEDUP_CAP) then []
               else [Thread.Note(id, Arg(show, ev, "chat_id"), Arg(show, ev, "sender_id"),
                                 if content.Some? then content.value else Arg(show, ev, "content"))]
  {
    var out := ReadRoute(acts[0]).value.1;
    Thread.StepNotes(show, s, past, out);
    SameArgs(show, ev, out, content, "message_id");
    SameArgs(show, ev, out, content, "chat_id");
    SameArgs(show, ev, out, content, "sender_id");
  }
}
