/** Handler actions and their wire form. */
module Actions {
  import opened Prelude

  datatype Action =
    | Emit(adapter: string, action: string, args: map<string, Json>)
    | Route(target: string, msg: Json)
    | InvokeCommand(name: string, params: map<string, Json>)
    | Reply(text: string, replyTo: Option<string>)
    | SendInput(text: string)

  datatype Error = UnknownType | MissingKey | IllTyped

  function Serialise(a: Action): map<string, Json> {
    match a
    case Emit(adapter, action, args) =>
      map["type" := JStr("emit"), "adapter" := JStr(adapter), "action" := JStr(action), "args" := JObj(args)]
    case Route(target, msg) => map["type" := JStr("route"), "target" := JStr(target), "msg" := msg]
    case InvokeCommand(name, params) =>
      map["type" := JStr("invoke_command"), "name" := JStr(name), "params" := JObj(params)]
    case Reply(text, None) => map["type" := JStr("reply"), "text" := JStr(text)]
    case Reply(text, Some(id)) =>
      map["type" := JStr("reply"), "text" := JStr(text), "reply_to_message_id" := JStr(id)]
    case SendInput(text) => map["type" := JStr("send_input"), "text" := JStr(text)]
  }

  function Text(d: map<string, Json>, k: string): Result<string, Error> {
    if k !in d then Err(MissingKey) else if d[k].JStr? then Ok(d[k].s) else Err(IllTyped)
  }

  /** dict(d.get(k, {})) */
  function Object(d: map<string, Json>, k: string): Result<map<string, Json>, Error> {
    if k !in d then Ok(map[]) else if d[k].JObj? then Ok(d[k].fields) else Err(IllTyped)
  }

  /** d.get(k), where null and absent are the same. */
  function OptText(d: map<string, Json>, k: string): Result<Option<string>, Error> {
    if k !in d || d[k] == JNull then Ok(None) else if d[k].JStr? then Ok(Some(d[k].s)) else Err(IllTyped)
  }

  function Deserialise(d: map<string, Json>): Result<Action, Error> {
    if "type" !in d || !d["type"].JStr? then Err(UnknownType)
    else
      var t := d["type"].s;
      if t == "emit" then
        match (Text(d, "adapter"), Text(d, "action"), Object(d, "args"))
        case (Ok(adapter), Ok(action), Ok(args)) => Ok(Emit(adapter, action, args))
        case _ => Err(IllTyped)
      else if t == "route" then
        if "msg" !in d then Err(MissingKey)
        else match Text(d, "target") case Ok(target) => Ok(Route(target, d["msg"])) case Err(e) => Err(e)
      else if t == "invoke_command" then
        match (Text(d, "name"), Object(d, "params"))
        case (Ok(name), Ok(params)) => Ok(InvokeCommand(name, params))
        case _ => Err(IllTyped)
      else if t == "reply" then
        match (Text(d, "text"), OptText(d, "reply_to_message_id"))
        case (Ok(text), Ok(id)) => Ok(Reply(text, id))
        case _ => Err(IllTyped)
      else if t == "send_input" then
        match Text(d, "text") case Ok(text) => Ok(SendInput(text)) case Err(e) => Err(e)
      else Err(UnknownType)
  }

  lemma RoundTrip(a: Action)
    ensures Deserialise(Serialise(a)) == Ok(a)
  {
  }

  /** d says what w says, but for an object that is empty when absent. */
  ghost predicate Spells(d: map<string, Json>, w: map<string, Json>) {
    forall k :: k in w ==> (k in d && d[k] == w[k]) || (k !in d && k in {"args", "params"} && w[k] == EMPTY_OBJ)
  }

  /** Only the wire form of an action is read as that action: unknown types and missing keys are refused. */
  lemma ReadIsSpelled(d: map<string, Json>)
    ensures Deserialise(d).Ok? ==> Spells(d, Serialise(Deserialise(d).value))
  {
    if Deserialise(d).Ok? {
      var a := Deserialise(d).value;
      match a
      case Emit(_, _, _) =>
      case Route(_, _) =>
      case InvokeCommand(_, _) =>
      case Reply(_, _) =>
      case SendInput(_) =>
    }
  }

  function SerialiseAll(acts: seq<Action>): seq<map<string, Json>> {
    if acts == [] then [] else [Serialise(acts[0])] + SerialiseAll(acts[1..])
  }

  /** The action list of a reply determines the actions: each is recovered at its place. */
  lemma {:induction false} AllRoundTrip(acts: seq<Action>)
    ensures |SerialiseAll(acts)| == |acts|
    ensures forall i :: 0 <= i < |acts| ==> Deserialise(SerialiseAll(acts)[i]) == Ok(acts[i])
    decreases |acts|
  {
    if acts != [] {
      RoundTrip(acts[0]);
      AllRoundTrip(acts[1..]);
    }
  }
}
