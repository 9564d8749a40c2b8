/**
 The handler worker: each call rebuilds the state from its persisted form, runs the
 handler, and dumps the new state under the registered schema version.
 */
module Worker {
  import opened Prelude
  import opened Actions
  import opened Sorting

  // ----- dumping -----

  /** The values pydantic hands back; a set comes as one of its iteration orders. */
  datatype PyVal =
    | PNone
    | PStr(s: string)
    | PSet(order: seq<string>)
    | PTuple(items: seq<PyVal>)
    | PDict(fields: map<string, PyVal>)

  function Strings(s: seq<string>): (r: seq<Json>)
    ensures |r| == |s| && forall i :: 0 <= i < |s| ==> r[i] == JStr(s[i])
  {
    seq(|s|, i requires 0 <= i < |s| => JStr(s[i]))
  }

  /** _to_json_native: sets become sorted lists, tuples lists, dicts keep their keys. */
  function ToNative(v: PyVal): Json
    decreases v
  {
    match v
    case PNone => JNull
    case PStr(s) => JStr(s)
    case PSet(order) => JList(Strings(Sort(order)))
    case PTuple(items) => JList(NativeItems(items))
    case PDict(fields) => JObj(map k | k in fields :: ToNative(fields[k]))
  }

  function NativeItems(items: seq<PyVal>): (r: seq<Json>)
    decreases items
  {
    if items == [] then [] else [ToNative(items[0])] + NativeItems(items[1..])
  }

  /** Equal Python values: sets equal as sets, whatever their iteration orders. */
  ghost predicate SameValue(v: PyVal, w: PyVal)
    decreases v
  {
    match (v, w)
    case (PNone, PNone) => true
    case (PStr(s), PStr(t)) => s == t
    case (PSet(s), PSet(t)) => NoDup(s) && NoDup(t) && forall x :: x in s <==> x in t
    case (PTuple(s), PTuple(t)) => |s| == |t| && forall i :: 0 <= i < |s| ==> SameValue(s[i], t[i])
    case (PDict(s), PDict(t)) => s.Keys == t.Keys && forall k :: k in s ==> SameValue(s[k], t[k])
    case _ => false
  }

  /** Equal values dump equally, through any nesting of tuples and dicts. */
  lemma {:induction false} DumpIgnoresOrder(v: PyVal, w: PyVal)
    requires SameValue(v, w)
    ensures ToNative(v) == ToNative(w)
    decreases v
  {
    match (v, w)
    case (PSet(s), PSet(t)) => SortIgnoresOrder(s, t);
    case (PTuple(s), PTuple(t)) =>
      forall i | 0 <= i < |s| ensures ToNative(s[i]) == ToNative(t[i]) {
        DumpIgnoresOrder(s[i], t[i]);
      }
      SameItems(s, t);
    case (PDict(s), PDict(t)) =>
      forall k | k in s ensures ToNative(s[k]) == ToNative(t[k]) {
        DumpIgnoresOrder(s[k], t[k]);
      }
    case _ =>
  }

  lemma SameItems(s: seq<PyVal>, t: seq<PyVal>)
    requires |s| == |t|
    requires forall i :: 0 <= i < |s| ==> ToNative(s[i]) == ToNative(t[i])
    ensures NativeItems(s) == NativeItems(t)
    decreases |s|
  {
  }

  // ----- one call -----

  datatype Event = Event(source: Json, eventType: Json, args: map<string, Json>)

  datatype Loaded<S> = Loaded(state: S) | Invalid
  /** A handler returns a state and actions, raises, or returns something that is no state or holds no actions. */
  datatype Handled<S> = Handled(state: S, actions: seq<Action>) | Failed | IllTyped

  /** A registered state model with its handler. */
  datatype Entry<!S> = Entry(
    version: int,
    load: map<string, Json> -> Loaded<S>,
    dump: S -> map<string, PyVal>,
    fn: (S, Event) -> Handled<S>)

  /** Handlers by key; a handler whose actor type has no state model maps to None. */
  type Registry<!S> = map<string, Option<Entry<S>>>

  datatype Error =
    | MalformedEnvelope | HandlerNotRegistered | StateNotRegistered | SchemaVersionMismatch | InvalidState | HandlerFailed

  /** Raises stands for an exception that leaves process_handler_call. */
  datatype Reply = Done(newState: map<string, Json>, actions: seq<map<string, Json>>) | ErrorReply(error: Error) | Raises

  const SCHEMA_KEY := "_schema_version"

  function DumpState<S>(e: Entry<S>, s: S): map<string, Json> {
    var fields := e.dump(s);
    (map k | k in fields :: ToNative(fields[k]))[SCHEMA_KEY := JNum(e.version)]
  }

  /** A version tag that is absent or null, or equal to the registered number; true and false are 1 and 0. */
  predicate VersionFits(state: map<string, Json>, version: int) {
    SCHEMA_KEY !in state ||
    match state[SCHEMA_KEY]
    case JNull => true
    case JBool(b) => version == if b then 1 else 0
    case JNum(n) => n == version
    case _ => false
  }

  function RunHandler<S>(e: Entry<S>, state: map<string, Json>, ev: Event): Reply {
    if !VersionFits(state, e.version) then ErrorReply(SchemaVersionMismatch)
    else
      match e.load(state - {SCHEMA_KEY})
      case Invalid => ErrorReply(InvalidState)
      case Loaded(s) =>
        match e.fn(s, ev)
        case Failed => ErrorReply(HandlerFailed)
        case IllTyped => Raises
        case Handled(s1, actions) => Done(DumpState(e, s1), SerialiseAll(actions))
  }

  // ----- dict() of a decoded value -----

  /** The keys of a decoded object in their order in the text. */
  type KeyOrder = map<string, Json> -> seq<string>

  datatype Coerced = Dict(fields: map<string, Json>) | RaisesType | RaisesValue

  datatype Pair = Pair(key: Json, value: Json) | NoSequence | WrongLength

  /** An item of a list given to dict(): strings, lists and objects are sequences, and must have length two. */
  function AsPair(order: KeyOrder, v: Json): Pair {
    match v
    case JStr(s) => if |s| == 2 then Pair(JStr(s[..1]), JStr(s[1..])) else WrongLength
    case JList(items) => if |items| == 2 then Pair(items[0], items[1]) else WrongLength
    case JObj(fields) =>
      var keys := order(fields);
      if |keys| == 2 then Pair(JStr(keys[0]), JStr(keys[1])) else WrongLength
    case _ => NoSequence
  }

  predicate Hashable(v: Json) {
    !v.JList? && !v.JObj?
  }

  /** Later pairs win; a key that is no string is kept by dict() but no handler looks it up. */
  function FromPairs(order: KeyOrder, items: seq<Json>, acc: map<string, Json>): Coerced {
    if items == [] then Dict(acc)
    else
      match AsPair(order, items[0])
      case NoSequence => RaisesType
      case WrongLength => RaisesValue
      case Pair(k, v) =>
        if !Hashable(k) then RaisesType
        else FromPairs(order, items[1..], if k.JStr? then acc[k.s := v] else acc)
  }

  function DictOf(order: KeyOrder, v: Json): Coerced {
    match v
    case JObj(fields) => Dict(fields)
    case JStr(s) => if s == "" then Dict(map[]) else RaisesValue
    case JList(items) => FromPairs(order, items, map[])
    case _ => RaisesType
  }

  /** dict() takes the item as a key and a value. */
  predicate GoodPair(order: KeyOrder, v: Json) {
    var p := AsPair(order, v);
    p.Pair? && Hashable(p.key)
  }

  ghost predicate FirstBadAt(order: KeyOrder, items: seq<Json>, i: nat) {
    i < |items| && AsPair(order, items[i]) == WrongLength && forall k :: 0 <= k < i ==> GoodPair(order, items[k])
  }

  /** The first item dict() does not take is a sequence, but not one of length two. */
  ghost predicate FirstBadIsWrongLength(order: KeyOrder, items: seq<Json>) {
    exists i: nat :: FirstBadAt(order, items, i)
  }

  lemma {:induction false} PairsRaiseIff(order: KeyOrder, items: seq<Json>, acc: map<string, Json>)
    ensures FromPairs(order, items, acc) == RaisesValue <==> FirstBadIsWrongLength(order, items)
    ensures FromPairs(order, items, acc).Dict? <==> forall i :: 0 <= i < |items| ==> GoodPair(order, items[i])
    decreases |items|
  {
    if items != [] && GoodPair(order, items[0]) {
      var p, rest := AsPair(order, items[0]), items[1..];
      PairsRaiseIff(order, rest, if p.key.JStr? then acc[p.key.s := p.value] else acc);
      if FirstBadIsWrongLength(order, rest) {
        var i: nat :| FirstBadAt(order, rest, i);
        assert FirstBadAt(order, items, i + 1);
      }
      if FirstBadIsWrongLength(order, items) {
        var i: nat :| FirstBadAt(order, items, i);
        assert FirstBadAt(order, rest, i - 1);
      }
      assert forall i :: 0 < i < |items| ==> items[i] == rest[i - 1];
    } else if items != [] && AsPair(order, items[0]) == WrongLength {
      assert FirstBadAt(order, items, 0);
    }
  }

  /** The pairs as a list of two-item lists. */
  function PairItems(ps: seq<(string, Json)>): seq<Json> {
    seq(|ps|, i requires 0 <= i < |ps| => JList([JStr(ps[i].0), ps[i].1]))
  }

  ghost predicate LastPair(ps: seq<(string, Json)>, i: int) {
    0 <= i < |ps| && forall j :: i < j < |ps| ==> ps[j].0 != ps[i].0
  }

  ghost predicate NoKey(ps: seq<(string, Json)>, k: string) {
    forall i :: 0 <= i < |ps| ==> ps[i].0 != k
  }

  ghost predicate LastWins(ps: seq<(string, Json)>, m: map<string, Json>) {
    forall i {:trigger LastPair(ps, i)} :: LastPair(ps, i) ==> ps[i].0 in m && m[ps[i].0] == ps[i].1
  }

  ghost predicate OthersKept(ps: seq<(string, Json)>, acc: map<string, Json>, m: map<string, Json>) {
    forall k {:trigger NoKey(ps, k)} :: NoKey(ps, k) ==> (k in m <==> k in acc) && (k in acc ==> m[k] == acc[k])
  }

  lemma PairStep(order: KeyOrder, ps: seq<(string, Json)>, acc: map<string, Json>)
    requires ps != []
    ensures FromPairs(order, PairItems(ps), acc) == FromPairs(order, PairItems(ps[1..]), acc[ps[0].0 := ps[0].1])
  {
    var items := PairItems(ps);
    assert items[1..] == PairItems(ps[1..]);
    assert AsPair(order, items[0]) == Pair(JStr(ps[0].0), ps[0].1);
  }

  lemma ReadsStep(p: (string, Json), rest: seq<(string, Json)>, acc: map<string, Json>, m: map<string, Json>)
    requires LastWins(rest, m) && OthersKept(rest, acc[p.0 := p.1], m)
    ensures LastWins([p] + rest, m)
  {
    var ps := [p] + rest;
    forall i | LastPair(ps, i) ensures ps[i].0 in m && m[ps[i].0] == ps[i].1 {
      LastOfRest(p, rest, i);
      if i == 0 {
        assert ps[0] == p && NoKey(rest, p.0);
      } else {
        assert ps[i] == rest[i - 1];
      }
    }
  }

  lemma OthersStep(p: (string, Json), rest: seq<(string, Json)>, acc: map<string, Json>, m: map<string, Json>)
    requires OthersKept(rest, acc[p.0 := p.1], m)
    ensures OthersKept([p] + rest, acc, m)
  {
    var ps := [p] + rest;
    forall k | NoKey(ps, k) ensures (k in m <==> k in acc) && (k in acc ==> m[k] == acc[k]) {
      assert ps[0] == p;
      assert NoKey(rest, k) by {
        assert forall j :: 0 <= j < |rest| ==> ps[j + 1] == rest[j];
      }
    }
  }

  lemma LastOfRest(p: (string, Json), rest: seq<(string, Json)>, i: int)
    requires LastPair([p] + rest, i)
    ensures i > 0 ==> LastPair(rest, i - 1)
    ensures i == 0 ==> forall j :: 0 <= j < |rest| ==> rest[j].0 != p.0
  {
    var ps := [p] + rest;
    forall j | 0 <= j < |rest| && i <= j ensures rest[j].0 != ps[i].0 {
      assert ps[j + 1] == rest[j];
    }
  }

  /** A list of pairs with text keys is read as the dict in which later pairs win. */
  lemma {:induction false} PairsAreRead(order: KeyOrder, ps: seq<(string, Json)>, acc: map<string, Json>)
    ensures var d := FromPairs(order, PairItems(ps), acc); d.Dict? && LastWins(ps, d.fields) && OthersKept(ps, acc, d.fields)
    decreases |ps|
  {
    if ps != [] {
      PairStep(order, ps, acc);
      PairsAreRead(order, ps[1..], acc[ps[0].0 := ps[0].1]);
      ReadsStep(ps[0], ps[1..], acc, FromPairs(order, PairItems(ps), acc).fields);
      OthersStep(ps[0], ps[1..], acc, FromPairs(order, PairItems(ps), acc).fields);
      assert ps == [ps[0]] + ps[1..];
    }
  }

  lemma OneItem(order: KeyOrder, v: Json)
    ensures var p, d := AsPair(order, v), DictOf(order, JList([v]));
            && (p.Pair? && p.key.JStr? ==> d == Dict(map[p.key.s := p.value]))
            && (p.Pair? && Hashable(p.key) && !p.key.JStr? ==> d == Dict(map[]))
            && (p.Pair? && !Hashable(p.key) ==> d == RaisesType)
  {
    assert [v][1..] == [] && [v][0] == v;
    var none: map<string, Json> := map[];
    assert FromPairs(order, [], none) == Dict(none);
    var p := AsPair(order, v);
    if p.Pair? && p.key.JStr? {
      assert FromPairs(order, [], none[p.key.s := p.value]) == Dict(none[p.key.s := p.value]);
    }
  }

  /** Other items dict() takes or refuses: two characters, two keys, and keys that are no text. */
  lemma OddItemsAreRead(order: KeyOrder, a: char, b: char, f: map<string, Json>, key: Json, value: Json)
    ensures DictOf(order, JList([JStr([a, b])])) == Dict(map[[a] := JStr([b])])
    ensures |order(f)| == 2 ==> DictOf(order, JList([JObj(f)])) == Dict(map[order(f)[0] := JStr(order(f)[1])])
    ensures key.JList? || key.JObj? ==> DictOf(order, JList([JList([key, value])])) == RaisesType
    ensures key.JNull? || key.JBool? || key.JNum? ==> DictOf(order, JList([JList([key, value])])) == Dict(map[])
  {
    OneItem(order, JStr([a, b]));
    OneItem(order, JObj(f));
    OneItem(order, JList([key, value]));
    assert [a, b][..1] == [a] && [a, b][1..] == [b];
  }

  // ----- the envelope -----

  datatype Envelope = Envelope(event: Event) | Malformed | Unread

  /** The event of a payload; Malformed is an error the call catches, Unread one it does not. */
  function ReadEvent(order: KeyOrder, payload: map<string, Json>): Envelope {
    if "event" !in payload || !payload["event"].JObj? || "event_type" !in payload["event"].fields then Malformed
    else
      var d := payload["event"].fields;
      match DictOf(order, if "args" in d then d["args"] else EMPTY_OBJ)
      case RaisesType => Malformed
      case RaisesValue => Unread
      case Dict(args) => Envelope(Event(if "source" in d then d["source"] else JStr(""), d["event_type"], args))
  }

  function Process<S>(order: KeyOrder, registry: Registry<S>, payload: Json): Reply {
    if !payload.JObj? || "handler" !in payload.fields then ErrorReply(MalformedEnvelope)
    else
      var key := payload.fields["handler"];
      match ReadEvent(order, payload.fields)
      case Malformed => ErrorReply(MalformedEnvelope)
      case Unread => Raises
      case Envelope(ev) =>
        if !Hashable(key) then Raises
        else if !key.JStr? || key.s !in registry then ErrorReply(HandlerNotRegistered)
        else if registry[key.s].None? then ErrorReply(StateNotRegistered)
        else if "state" !in payload.fields then RunHandler(registry[key.s].value, map[], ev)
        else if !payload.fields["state"].JObj? then Raises
        else RunHandler(registry[key.s].value, payload.fields["state"].fields, ev)
  }

  /** The args a payload gives its event, when it has a handler and an event with a type. */
  ghost function ArgsOf(payload: Json): Option<Json> {
    if payload.JObj? && "handler" in payload.fields && "event" in payload.fields
       && payload.fields["event"].JObj? && "event_type" in payload.fields["event"].fields
    then var d := payload.fields["event"].fields; Some(if "args" in d then d["args"] else EMPTY_OBJ)
    else None
  }

  /** Args that dict() refuses with an error the call does not catch: a non-empty string, or a list gone wrong by length. */
  ghost predicate ArgsEscape(order: KeyOrder, args: Json) {
    (args.JStr? && args.s != "") || (args.JList? && FirstBadIsWrongLength(order, args.items))
  }

  /** Args that dict() takes. */
  ghost predicate ArgsTaken(order: KeyOrder, args: Json) {
    args.JObj? || args == JStr("") || (args.JList? && forall i :: 0 <= i < |args.items| ==> GoodPair(order, args.items[i]))
  }

  lemma ArgsRead(order: KeyOrder, args: Json)
    ensures DictOf(order, args) == RaisesValue <==> ArgsEscape(order, args)
    ensures DictOf(order, args).Dict? <==> ArgsTaken(order, args)
  {
    if args.JList? {
      PairsRaiseIff(order, args.items, map[]);
    }
  }

  /** A registered handler with its state model, called with a state that is no object or whose result is ill typed. */
  ghost predicate HandlerEscapes<S>(order: KeyOrder, registry: Registry<S>, payload: Json, key: string)
    requires payload.JObj?
  {
    && key in registry && registry[key].Some?
    && var state := if "state" in payload.fields then payload.fields["state"] else EMPTY_OBJ;
       var e, ev := registry[key].value, ReadEvent(order, payload.fields);
       || !state.JObj?
       || (ev.Envelope? && VersionFits(state.fields, e.version) && e.load(state.fields - {SCHEMA_KEY}).Loaded?
           && e.fn(e.load(state.fields - {SCHEMA_KEY}).state, ev.event).IllTyped?)
  }

  /**
   The call is documented never to raise.  It does, exactly when the payload names a handler
   and an event type and either dict() refuses the args with a ValueError, or it takes them
   and the handler key is a list or an object, or the handler and its state model are
   registered and the state given is not an object or the handler returns an ill-typed result.
   */
  lemma RaisesIff<S>(order: KeyOrder, registry: Registry<S>, payload: Json)
    ensures Process(order, registry, payload) == Raises <==>
              && ArgsOf(payload).Some?
              && (|| ArgsEscape(order, ArgsOf(payload).value)
                  || (&& ArgsTaken(order, ArgsOf(payload).value)
                      && var key := payload.fields["handler"];
                         || !Hashable(key)
                         || (key.JStr? && HandlerEscapes(order, registry, payload, key.s))))
  {
    if ArgsOf(payload).Some? {
      ArgsRead(order, ArgsOf(payload).value);
    }
  }

  /** Which error each refused call is answered with. */
  lemma RefusalsAre<S>(order: KeyOrder, registry: Registry<S>, payload: Json)
    ensures Process(order, registry, payload) == ErrorReply(MalformedEnvelope) <==>
              || ArgsOf(payload).None?
              || (!ArgsTaken(order, ArgsOf(payload).value) && !ArgsEscape(order, ArgsOf(payload).value))
    ensures ArgsOf(payload).Some? && ArgsTaken(order, ArgsOf(payload).value) ==>
              var key := payload.fields["handler"];
              && (Process(order, registry, payload) == ErrorReply(HandlerNotRegistered) <==>
                    Hashable(key) && !(key.JStr? && key.s in registry))
              && (Process(order, registry, payload) == ErrorReply(StateNotRegistered) <==>
                    key.JStr? && key.s in registry && registry[key.s].None?)
  {
    if ArgsOf(payload).Some? {
      ArgsRead(order, ArgsOf(payload).value);
    }
  }

  /** What a registered handler answers to a readable event, by what its state model and its body do. */
  lemma HandlerAnswers<S>(order: KeyOrder, registry: Registry<S>, key: string, e: Entry<S>, ev: Event,
                          state: map<string, Json>)
    requires key in registry && registry[key] == Some(e) && SCHEMA_KEY !in state
    ensures var r, l := Process(order, registry, Payload(key, state, ev)), e.load(state);
            && (r == ErrorReply(InvalidState) <==> l.Invalid?)
            && (l.Loaded? ==>
                  && (r == ErrorReply(HandlerFailed) <==> e.fn(l.state, ev).Failed?)
                  && (r == Raises <==> e.fn(l.state, ev).IllTyped?)
                  && (r.Done? <==> e.fn(l.state, ev).Handled?)
                  && (r.Done? ==> r.newState == DumpState(e, e.fn(l.state, ev).state)
                                  && r.actions == SerialiseAll(e.fn(l.state, ev).actions)))
  {
    assert ReadEvent(order, Payload(key, state, ev).fields) == Envelope(ev);
    assert state - {SCHEMA_KEY} == state;
  }

  function CallWith(key: string, kind: Json, args: Json): Json {
    JObj(map["handler" := JStr(key), "event" := JObj(map["event_type" := kind, "args" := args])])
  }

  /** For any registry the args "abc" and ["abc"] make the call raise, while "" and [] are read as no args. */
  lemma TextArgsRaise<S>(order: KeyOrder, registry: Registry<S>, key: string, kind: Json)
    ensures Process(order, registry, CallWith(key, kind, JStr("abc"))) == Raises
    ensures Process(order, registry, CallWith(key, kind, JList([JStr("abc")]))) == Raises
    ensures var bare := Process(order, registry, CallWith(key, kind, EMPTY_OBJ));
            && Process(order, registry, CallWith(key, kind, JStr(""))) == bare
            && Process(order, registry, CallWith(key, kind, JList([]))) == bare
  {
    assert AsPair(order, JStr("abc")) == WrongLength;
    assert FromPairs(order, [JStr("abc")], map[]) == RaisesValue;
  }

  /**
   A call for a registered handler with a readable event is refused for its version exactly
   when the state carries a tag that is neither null nor the registered number, as a number or
   as the boolean Python takes for it.
   */
  lemma WrongVersionIsRefused<S>(order: KeyOrder, registry: Registry<S>, key: string, e: Entry<S>, ev: Event,
                                 state: map<string, Json>)
    requires key in registry && registry[key] == Some(e)
    ensures Process(order, registry, Payload(key, state, ev)) == ErrorReply(SchemaVersionMismatch) <==>
              && SCHEMA_KEY in state && state[SCHEMA_KEY] != JNull && state[SCHEMA_KEY] != JNum(e.version)
              && !(state[SCHEMA_KEY] == JBool(true) && e.version == 1)
              && !(state[SCHEMA_KEY] == JBool(false) && e.version == 0)
  {
    assert ReadEvent(order, Payload(key, state, ev).fields) == Envelope(ev);
  }

  // ----- runs -----

  function Payload(key: string, state: map<string, Json>, ev: Event): Json {
    JObj(map["handler" := JStr(key), "state" := JObj(state),
             "event" := JObj(map["event_type" := ev.eventType, "source" := ev.source, "args" := JObj(ev.args)])])
  }

  /** The state survives only in its dumped form; a call that fails leaves it as it was. */
  function Persisted<S>(order: KeyOrder, registry: Registry<S>, key: string, state: map<string, Json>, evs: seq<Event>)
    : (map<string, Json>, seq<seq<map<string, Json>>>)
    decreases |evs|
  {
    if evs == [] then (state, [])
    else
      var r := Process(order, registry, Payload(key, state, evs[0]));
      var next := if r.Done? then r.newState else state;
      var rest := Persisted(order, registry, key, next, evs[1..]);
      (rest.0, [if r.Done? then r.actions else []] + rest.1)
  }

  function InMemory<S>(e: Entry<S>, s: S, evs: seq<Event>): (S, seq<seq<Action>>)
    decreases |evs|
  {
    if evs == [] then (s, [])
    else
      var r := e.fn(s, evs[0]);
      var rest := InMemory(e, if r.Handled? then r.state else s, evs[1..]);
      (rest.0, [if r.Handled? then r.actions else []] + rest.1)
  }

  function SerialiseRuns(runs: seq<seq<Action>>): seq<seq<map<string, Json>>> {
    if runs == [] then [] else [SerialiseAll(runs[0])] + SerialiseRuns(runs[1..])
  }

  /** Loading undoes dumping. */
  ghost predicate Faithful<S(!new)>(e: Entry<S>) {
    forall s {:trigger e.dump(s)} :: e.load(DumpState(e, s) - {SCHEMA_KEY}) == Loaded(s)
  }

  /** A state dumped under another version of its model is refused on reload, never read as the current one. */
  lemma DriftIsRefused<S, T>(order: KeyOrder, registry: Registry<S>, key: string, e: Entry<S>, former: Entry<T>, s: T,
                             ev: Event)
    requires key in registry && registry[key] == Some(e) && former.version != e.version
    ensures Process(order, registry, Payload(key, DumpState(former, s), ev)) == ErrorReply(SchemaVersionMismatch)
  {
    WrongVersionIsRefused(order, registry, key, e, ev, DumpState(former, s));
  }

  lemma CallAgrees<S(!new)>(order: KeyOrder, registry: Registry<S>, key: string, e: Entry<S>, s: S, ev: Event)
    requires key in registry && registry[key] == Some(e) && Faithful(e)
    ensures Process(order, registry, Payload(key, DumpState(e, s), ev))
         == match e.fn(s, ev)
            case Failed => ErrorReply(HandlerFailed)
            case IllTyped => Raises
            case Handled(s1, actions) => Done(DumpState(e, s1), SerialiseAll(actions))
  {
  }

  /**
   Any event sequence, run through the worker with a dump and a reload at every call, ends in
   the dump of the state the handler reaches in memory and gives the same actions, call by call.
   */
  lemma {:induction false} PersistedAgrees<S(!new)>(order: KeyOrder, registry: Registry<S>, key: string, e: Entry<S>,
                                                    s: S, evs: seq<Event>)
    requires key in registry && registry[key] == Some(e) && Faithful(e)
    ensures var m := InMemory(e, s, evs);
            Persisted(order, registry, key, DumpState(e, s), evs) == (DumpState(e, m.0), SerialiseRuns(m.1))
    decreases |evs|
  {
    if evs != [] {
      CallAgrees(order, registry, key, e, s, evs[0]);
      var r := e.fn(s, evs[0]);
      PersistedAgrees(order, registry, key, e, if r.Handled? then r.state else s, evs[1..]);
      var m := InMemory(e, s, evs);
      assert m.1[1..] == InMemory(e, if r.Handled? then r.state else s, evs[1..]).1;
    }
  }
}
