/** The option loop of /new-session does not care about token order, and exactly when it does not. */
module SessionOptions {
  import opened Prelude
  import opened FeishuApp

  datatype Key = Name | Cwd | Worktree | Tag

  function Prefix(k: Key): string {
    match k case Name => "name=" case Cwd => "cwd=" case Worktree => "worktree=" case Tag => "tag="
  }

  /** Token p sets option k. */
  predicate Sets(k: Key, p: string) {
    Prefix(k) <= p
  }

  function Value(k: Key, p: string): string
    requires Sets(k, p)
  {
    p[|Prefix(k)|..]
  }

  lemma OneKey(j: Key, k: Key, p: string)
    requires Sets(j, p) && Sets(k, p)
    ensures j == k
  {
    assert p[0] == Prefix(j)[0] == Prefix(k)[0];
  }

  /** At most one token sets each option; other tokens are free. */
  ghost predicate Distinct(tokens: multiset<string>) {
    forall k, p, q :: p in tokens && q in tokens && Sets(k, p) && Sets(k, q) ==> p == q && tokens[p] == 1
  }

  // ----- what the fold computes -----

  lemma {:induction false} FoldLast(o: Options, tokens: seq<string>, p: string)
    ensures Fold(o, tokens + [p]) == Apply(Fold(o, tokens), p)
    decreases |tokens|
  {
    if tokens == [] {
      assert [p][1..] == [] && tokens + [p] == [p];
    } else {
      assert (tokens + [p])[1..] == tokens[1..] + [p];
      FoldLast(Apply(o, tokens[0]), tokens[1..], p);
    }
  }

  /** v is the value of the token that sets k, or empty when there is none. */
  ghost predicate IsValue(tokens: seq<string>, k: Key, v: string) {
    (forall p :: p in tokens && Sets(k, p) ==> v == Value(k, p)) &&
    ((forall p :: p in tokens ==> !Sets(k, p)) ==> v == "")
  }

  /** A non-empty name= decides; without any name=, tag= does; when all of them are empty the name is. */
  ghost predicate IsName(tokens: seq<string>, v: string) {
    (forall p :: p in tokens && Sets(Name, p) && Value(Name, p) != "" ==> v == Value(Name, p)) &&
    ((forall p :: p in tokens ==> !Sets(Name, p)) ==> IsValue(tokens, Tag, v)) &&
    ((forall p :: p in tokens && (Sets(Name, p) || Sets(Tag, p)) ==> Value(if Sets(Name, p) then Name else Tag, p) == "")
     ==> v == "")
  }

  ghost predicate Reads(tokens: seq<string>, o: Options) {
    IsValue(tokens, Cwd, o.cwd) && IsValue(tokens, Worktree, o.worktree) && IsName(tokens, o.name)
  }

  lemma ApplyByKey(o: Options, p: string)
    ensures Sets(Name, p) ==> Apply(o, p) == o.(name := Value(Name, p))
    ensures Sets(Cwd, p) ==> Apply(o, p) == o.(cwd := Value(Cwd, p))
    ensures Sets(Worktree, p) ==> Apply(o, p) == o.(worktree := Value(Worktree, p))
    ensures Sets(Tag, p) ==> Apply(o, p) == if o.name == "" then o.(name := Value(Tag, p)) else o
    ensures !Sets(Name, p) && !Sets(Cwd, p) && !Sets(Worktree, p) && !Sets(Tag, p) ==> Apply(o, p) == o
  {
    if Sets(Cwd, p) && Sets(Name, p) {
      OneKey(Cwd, Name, p);
    }
    if Sets(Worktree, p) && Sets(Name, p) {
      OneKey(Worktree, Name, p);
    }
    if Sets(Worktree, p) && Sets(Cwd, p) {
      OneKey(Worktree, Cwd, p);
    }
    if Sets(Tag, p) && Sets(Name, p) {
      OneKey(Tag, Name, p);
    }
    if Sets(Tag, p) && Sets(Cwd, p) {
      OneKey(Tag, Cwd, p);
    }
    if Sets(Tag, p) && Sets(Worktree, p) {
      OneKey(Tag, Worktree, p);
    }
  }

  lemma Appended(init: seq<string>, p: string)
    ensures forall x :: x in init + [p] <==> x in init || x == p
    ensures multiset(init + [p]) == multiset(init) + multiset{p}
  {
  }

  /** In a distinct list no earlier token sets the option the last one sets. */
  lemma LastIsOnly(init: seq<string>, p: string, k: Key)
    requires Distinct(multiset(init + [p])) && Sets(k, p)
    ensures forall x :: x in init ==> !Sets(k, x)
  {
  }

  lemma PrefixIsDistinct(init: seq<string>, p: string)
    requires Distinct(multiset(init + [p]))
    ensures Distinct(multiset(init))
  {
  }

  lemma ValueAppends(init: seq<string>, p: string, k: Key, v: string)
    requires IsValue(init, k, v)
    ensures !Sets(k, p) ==> IsValue(init + [p], k, v)
  {
  }

  lemma ValueSet(init: seq<string>, p: string, k: Key)
    requires Distinct(multiset(init + [p])) && Sets(k, p)
    ensures IsValue(init + [p], k, Value(k, p))
  {
  }

  lemma NameByName(init: seq<string>, p: string)
    requires Distinct(multiset(init + [p])) && Sets(Name, p)
    ensures IsName(init + [p], Value(Name, p))
  {
  }

  lemma NameByTag(init: seq<string>, p: string, v: string)
    requires Distinct(multiset(init + [p])) && Sets(Tag, p) && IsName(init, v)
    ensures IsName(init + [p], if v == "" then Value(Tag, p) else v)
  {
    Appended(init, p);
    LastIsOnly(init, p, Tag);
    if Sets(Name, p) {
      OneKey(Name, Tag, p);
    }
    ValueSet(init, p, Tag);
    assert p in init + [p];
  }

  lemma NameByOther(init: seq<string>, p: string, v: string)
    requires !Sets(Name, p) && !Sets(Tag, p) && IsName(init, v)
    ensures IsName(init + [p], v)
  {
  }

  lemma StepReads(init: seq<string>, p: string, o: Options)
    requires Reads(init, o) && Distinct(multiset(init + [p]))
    ensures Reads(init + [p], Apply(o, p))
  {
    ApplyByKey(o, p);
    CwdStep(init, p, o);
    WorktreeStep(init, p, o);
    if Sets(Name, p) {
      NameByName(init, p);
    } else if Sets(Tag, p) {
      NameByTag(init, p, o.name);
    } else {
      NameByOther(init, p, o.name);
      NameStays(o, p);
    }
  }

  lemma NameStays(o: Options, p: string)
    requires !Sets(Name, p) && !Sets(Tag, p)
    ensures Apply(o, p).name == o.name
  {
  }

  lemma CwdStep(init: seq<string>, p: string, o: Options)
    requires IsValue(init, Cwd, o.cwd) && Distinct(multiset(init + [p]))
    ensures IsValue(init + [p], Cwd, Apply(o, p).cwd)
  {
    ApplyByKey(o, p);
    ValueAppends(init, p, Cwd, o.cwd);
    if Sets(Cwd, p) {
      ValueSet(init, p, Cwd);
    }
  }

  lemma WorktreeStep(init: seq<string>, p: string, o: Options)
    requires IsValue(init, Worktree, o.worktree) && Distinct(multiset(init + [p]))
    ensures IsValue(init + [p], Worktree, Apply(o, p).worktree)
  {
    ApplyByKey(o, p);
    ValueAppends(init, p, Worktree, o.worktree);
    if Sets(Worktree, p) {
      ValueSet(init, p, Worktree);
    }
  }

  lemma {:induction false} FoldReads(tokens: seq<string>)
    requires Distinct(multiset(tokens))
    ensures Reads(tokens, Fold(NO_OPTIONS, tokens))
    decreases |tokens|
  {
    if tokens != [] {
      var init, p := tokens[..|tokens| - 1], tokens[|tokens| - 1];
      assert tokens == init + [p];
      PrefixIsDistinct(init, p);
      FoldReads(init);
      StepReads(init, p, Fold(NO_OPTIONS, init));
      FoldLast(NO_OPTIONS, init, p);
    }
  }

  // ----- order -----

  /** An empty name= together with a non-empty tag=. */
  ghost predicate Ambiguous(tokens: seq<string>) {
    exists p, q :: p in tokens && q in tokens && Sets(Name, p) && Value(Name, p) == "" && Sets(Tag, q) && Value(Tag, q) != ""
  }

  lemma SameValueRead(s: seq<string>, t: seq<string>, k: Key, v: string, w: string)
    requires (forall x :: x in s <==> x in t) && IsValue(s, k, v) && IsValue(t, k, w)
    ensures v == w
  {
  }

  lemma SameNameRead(s: seq<string>, t: seq<string>, v: string, w: string)
    requires (forall x :: x in s <==> x in t) && IsName(s, v) && IsName(t, w) && !Ambiguous(s)
    ensures v == w
  {
  }

  /** Every permutation of an unambiguous list of distinct options reads the same, name= beating tag= in any order. */
  lemma OrderDoesNotMatter(tokens: seq<string>, perm: seq<string>)
    requires Distinct(multiset(tokens)) && multiset(perm) == multiset(tokens) && !Ambiguous(tokens)
    ensures Fold(NO_OPTIONS, perm) == Fold(NO_OPTIONS, tokens)
  {
    FoldReads(tokens);
    FoldReads(perm);
    forall x ensures x in tokens <==> x in perm {
      assert x in tokens <==> x in multiset(tokens);
      assert x in perm <==> x in multiset(perm);
    }
    var o, r := Fold(NO_OPTIONS, tokens), Fold(NO_OPTIONS, perm);
    SameValueRead(tokens, perm, Cwd, o.cwd, r.cwd);
    SameValueRead(tokens, perm, Worktree, o.worktree, r.worktree);
    SameNameRead(tokens, perm, o.name, r.name);
  }

  // ----- and when it does -----

  function Without(tokens: seq<string>, p: string): (r: seq<string>)
    requires p in tokens
    ensures multiset(tokens) == multiset{p} + multiset(r)
  {
    if tokens[0] == p then
      assert tokens == [p] + tokens[1..];
      tokens[1..]
    else
      assert tokens == [tokens[0]] + tokens[1..];
      [tokens[0]] + Without(tokens[1..], p)
  }

  lemma {:induction false} NameSurvives(o: Options, rest: seq<string>)
    requires forall x :: x in rest ==> !Sets(Name, x) && !Sets(Tag, x)
    ensures Fold(o, rest).name == o.name
    decreases |rest|
  {
    if rest != [] {
      assert rest[0] in rest;
      NameStays(o, rest[0]);
      NameSurvives(Apply(o, rest[0]), rest[1..]);
    }
  }

  lemma FoldTwo(p: string, q: string, rest: seq<string>)
    ensures Fold(NO_OPTIONS, [p, q] + rest) == Fold(Apply(Apply(NO_OPTIONS, p), q), rest)
  {
  }

  lemma RestIsFree(tokens: seq<string>, p: string, q: string, rest: seq<string>)
    requires Distinct(multiset(tokens)) && multiset(tokens) == multiset{p, q} + multiset(rest)
    requires Sets(Name, p) && Sets(Tag, q)
    ensures forall x :: x in rest ==> !Sets(Name, x) && !Sets(Tag, x)
  {
  }

  /** Two orders of an ambiguous list give different names. */
  lemma AmbiguousOrders(tokens: seq<string>, p: string, q: string, rest: seq<string>)
    requires Distinct(multiset(tokens)) && multiset(tokens) == multiset{p, q} + multiset(rest)
    requires Sets(Name, p) && Value(Name, p) == "" && Sets(Tag, q) && Value(Tag, q) != ""
    ensures Fold(NO_OPTIONS, [p, q] + rest).name != Fold(NO_OPTIONS, [q, p] + rest).name
  {
    RestIsFree(tokens, p, q, rest);
    FoldTwo(p, q, rest);
    FoldTwo(q, p, rest);
    ApplyByKey(NO_OPTIONS, p);
    ApplyByKey(NO_OPTIONS, q);
    ApplyByKey(Apply(NO_OPTIONS, p), q);
    ApplyByKey(Apply(NO_OPTIONS, q), p);
    NameSurvives(Apply(Apply(NO_OPTIONS, p), q), rest);
    NameSurvives(Apply(Apply(NO_OPTIONS, q), p), rest);
  }

  lemma TakeTwo(tokens: seq<string>, p: string, q: string) returns (rest: seq<string>)
    requires p in tokens && q in tokens && p != q
    ensures multiset(tokens) == multiset{p, q} + multiset(rest)
    ensures multiset([p, q] + rest) == multiset(tokens) && multiset([q, p] + rest) == multiset(tokens)
  {
    var one := Without(tokens, p);
    assert q in multiset(tokens);
    assert q in multiset(one);
    rest := Without(one, q);
  }

  /**
   With one token per option, the reading is the same for every permutation if and only if
   there is no empty name= beside a non-empty tag=.
   */
  lemma OrderFreeIffUnambiguous(tokens: seq<string>)
    requires Distinct(multiset(tokens))
    ensures (forall perm :: multiset(perm) == multiset(tokens) ==> Fold(NO_OPTIONS, perm) == Fold(NO_OPTIONS, tokens))
       <==> !Ambiguous(tokens)
  {
    if !Ambiguous(tokens) {
      forall perm | multiset(perm) == multiset(tokens) ensures Fold(NO_OPTIONS, perm) == Fold(NO_OPTIONS, tokens) {
        OrderDoesNotMatter(tokens, perm);
      }
    } else {
      var p, q :| p in tokens && q in tokens && Sets(Name, p) && Value(Name, p) == "" && Sets(Tag, q) && Value(Tag, q) != "";
      if p == q {
        OneKey(Name, Tag, p);
      }
      var rest := TakeTwo(tokens, p, q);
      AmbiguousOrders(tokens, p, q, rest);
      var one, two := [p, q] + rest, [q, p] + rest;
      assert Fold(NO_OPTIONS, one) != Fold(NO_OPTIONS, tokens) || Fold(NO_OPTIONS, two) != Fold(NO_OPTIONS, tokens);
    }
  }
}
