/** Reading event arguments, and the field types the state models are dumped to and loaded from. */
module StateCodec {
  import opened Prelude
  import opened Worker

  /** str() of a decoded JSON value. */
  type Show = Json -> string

  function Arg(show: Show, ev: Event, key: string): string {
    if key in ev.args then show(ev.args[key]) else ""
  }

  /** Python's iteration order of a set of strings. */
  ghost predicate IsIteration(iter: set<string> -> seq<string>) {
    forall s :: NoDup(iter(s)) && forall x :: x in iter(s) <==> x in s
  }

  function PStrings(s: seq<string>): (r: seq<PyVal>)
    ensures |r| == |s| && forall i :: 0 <= i < |s| ==> r[i] == PStr(s[i])
  {
    seq(|s|, i requires 0 <= i < |s| => PStr(s[i]))
  }

  function LoadText(d: map<string, Json>, k: string): Loaded<string> {
    if k !in d then Loaded("") else if d[k].JStr? then Loaded(d[k].s) else Invalid
  }

  function LoadOptText(d: map<string, Json>, k: string): Loaded<Option<string>> {
    if k !in d || d[k] == JNull then Loaded(None) else if d[k].JStr? then Loaded(Some(d[k].s)) else Invalid
  }

  function LoadTexts(d: map<string, Json>, k: string): Loaded<seq<string>> {
    if k !in d then Loaded([])
    else if d[k].JList? && AllTexts(d[k].items) then Loaded(Texts(d[k].items))
    else Invalid
  }

  predicate AllTexts(items: seq<Json>) {
    forall i :: 0 <= i < |items| ==> items[i].JStr?
  }

  function Texts(items: seq<Json>): (r: seq<string>)
    requires AllTexts(items)
    ensures |r| == |items| && forall i :: 0 <= i < |items| ==> items[i] == JStr(r[i])
  {
    seq(|items|, i requires 0 <= i < |items| => items[i].s)
  }

  lemma TextsLoad(d: map<string, Json>, k: string, s: seq<string>)
    requires k in d && d[k] == JList(Strings(s))
    ensures LoadTexts(d, k) == Loaded(s)
  {
    var items := Strings(s);
    assert AllTexts(items);
    assert Texts(items) == s;
  }

  lemma {:induction false} NativePStrings(s: seq<string>)
    ensures NativeItems(PStrings(s)) == Strings(s)
    decreases |s|
  {
    if s != [] {
      NativePStrings(s[1..]);
      assert PStrings(s)[1..] == PStrings(s[1..]);
      assert Strings(s) == [JStr(s[0])] + Strings(s[1..]);
    }
  }
}
