/** The file-backed capability checker: grant matching, and a cache gated by the file's mtime. */
module Capabilities {
  import opened Prelude
  import opened Strings

  // ----- matching -----

  datatype Cap = Cap(prefix: string, name: string, perm: string)

  function SplitCap(s: string): Option<Cap> {
    if '/' !in s then None
    else
      var scope := Before(s, '/');
      if ':' !in scope then None else Some(Cap(Before(scope, ':'), After(scope, ':'), After(s, '/')))
  }

  predicate SegmentMatch(held: string, required: string) {
    held == "*" || held == required
  }

  predicate Matches(held: string, required: string) {
    held == "*" ||
    var h, r := SplitCap(held), SplitCap(required);
    && h.Some? && r.Some? && h.value.prefix == r.value.prefix
    && SegmentMatch(h.value.name, r.value.name) && SegmentMatch(h.value.perm, r.value.perm)
  }

  lemma SplitOf(prefix: string, name: string, perm: string)
    requires ':' !in prefix && '/' !in prefix && '/' !in name
    ensures SplitCap(prefix + [':'] + name + ['/'] + perm) == Some(Cap(prefix, name, perm))
  {
    var scope := prefix + [':'] + name;
    PartitionAt(scope, '/', perm);
    PartitionAt(prefix, ':', name);
  }

  /**
   Matching on written-out grants: the prefix is literal, the name and the permission are
   literal or a whole-segment star, and a bare star grants everything.
   */
  lemma MatchesIff(p: string, n: string, m: string, p1: string, n1: string, m1: string)
    requires ':' !in p && '/' !in p && '/' !in n && ':' !in p1 && '/' !in p1 && '/' !in n1
    ensures Matches(p + [':'] + n + ['/'] + m, p1 + [':'] + n1 + ['/'] + m1)
       <==> p == p1 && (n == "*" || n == n1) && (m == "*" || m == m1)
    ensures Matches("*", p1 + [':'] + n1 + ['/'] + m1)
  {
    SplitOf(p, n, m);
    SplitOf(p1, n1, m1);
    assert |p + [':'] + n + ['/'] + m| >= 2;
  }

  /** A string without a slash, or without a colon before its first slash. */
  predicate Shapeless(s: string) {
    '/' !in s || ':' !in Before(s, '/')
  }

  /** Such a string is granted by the bare star alone, and held it grants nothing unless it is the star. */
  lemma ShapelessNeedsStar(s: string, other: string)
    requires Shapeless(s)
    ensures Matches(other, s) <==> other == "*"
    ensures Matches(s, other) <==> s == "*"
  {
  }

  lemma MatchesTransitive(a: string, b: string, c: string)
    requires Matches(a, b) && Matches(b, c)
    ensures Matches(a, c)
  {
  }

  predicate Grants(held: seq<string>, required: string) {
    exists i :: 0 <= i < |held| && Matches(held[i], required)
  }

  function Drop(held: seq<string>, i: nat): seq<string>
    requires i < |held|
  {
    held[..i] + held[i + 1..]
  }

  lemma DropKeeps(held: seq<string>, i: nat, m: nat)
    requires i < |held| && m < |held| && m != i
    ensures held[m] in Drop(held, i)
  {
  }

  lemma GrantsByMember(held: seq<string>, h: string, required: string)
    requires h in held && Matches(h, required)
    ensures Grants(held, required)
  {
  }

  /** Dropping a grant that another held grant matches never changes an answer. */
  lemma RedundantGrantDrops(held: seq<string>, i: nat, j: nat, required: string)
    requires i < |held| && j < |held| && i != j && Matches(held[j], held[i])
    ensures Grants(Drop(held, i), required) <==> Grants(held, required)
  {
    if Grants(held, required) {
      var k :| 0 <= k < |held| && Matches(held[k], required);
      if k == i {
        MatchesTransitive(held[j], held[i], required);
      }
      var m := if k == i then j else k;
      DropKeeps(held, i, m);
      GrantsByMember(Drop(held, i), held[m], required);
    }
    if Grants(Drop(held, i), required) {
      DropAddsNothing(held, i, required);
    }
  }

  lemma DropAddsNothing(held: seq<string>, i: nat, required: string)
    requires i < |held| && Grants(Drop(held, i), required)
    ensures Grants(held, required)
  {
  }

  // ----- the file -----

  datatype Entry = Principal(id: string, caps: seq<string>) | Skipped
  /** Decoded contents: malformed YAML, a document reload cannot walk and raises on, or a list of entries. */
  datatype Content = Malformed | Unwalkable | Doc(entries: seq<Entry>)
  datatype File = Missing | Present(mtime: int, content: Content)

  type Snapshot = map<string, seq<string>>

  /** Later entries for the same id win. */
  function Principals(entries: seq<Entry>): Snapshot {
    if entries == [] then map[]
    else
      var m, e := Principals(entries[..|entries| - 1]), entries[|entries| - 1];
      if e.Principal? then m[e.id := e.caps] else m
  }

  /** Entry i is the last one with id p. */
  ghost predicate LastFor(entries: seq<Entry>, p: string, i: int) {
    && 0 <= i < |entries| && entries[i].Principal? && entries[i].id == p
    && forall k :: i < k < |entries| ==> !(entries[k].Principal? && entries[k].id == p)
  }

  ghost predicate Named(entries: seq<Entry>, p: string) {
    exists k :: 0 <= k < |entries| && entries[k].Principal? && entries[k].id == p
  }

  /** A loaded document gives p exactly the grants of the last entry with its id, and none without one. */
  lemma {:induction false} DocumentGrants(entries: seq<Entry>, p: string)
    ensures forall i :: LastFor(entries, p, i) ==> HeldBy(Principals(entries), p) == entries[i].caps
    ensures !Named(entries, p) ==> p !in Principals(entries) && HeldBy(Principals(entries), p) == []
    ensures Named(entries, p) ==> exists i :: LastFor(entries, p, i)
    decreases |entries|
  {
    if entries != [] {
      var n := |entries| - 1;
      var init, e := entries[..n], entries[n];
      DocumentGrants(init, p);
      if e.Principal? && e.id == p {
        assert LastFor(entries, p, n);
      } else {
        forall i | LastFor(entries, p, i) ensures LastFor(init, p, i) {
        }
        forall i | LastFor(init, p, i) ensures LastFor(entries, p, i) {
        }
        if Named(entries, p) {
          var k :| 0 <= k < |entries| && entries[k].Principal? && entries[k].id == p;
          assert init[k] == entries[k];
        }
      }
    }
  }

  /** Some grant of the last entry with id p matches the permission. */
  ghost predicate DocumentHolds(entries: seq<Entry>, p: string, permission: string) {
    exists i :: LastFor(entries, p, i) && exists k :: 0 <= k < |entries[i].caps| && Matches(entries[i].caps[k], permission)
  }

  lemma DocumentAnswers(entries: seq<Entry>, p: string, permission: string)
    ensures Holds(Principals(entries), p, permission) <==> DocumentHolds(entries, p, permission)
  {
    DocumentGrants(entries, p);
    if Named(entries, p) {
      var i :| LastFor(entries, p, i);
      assert HeldBy(Principals(entries), p) == entries[i].caps;
    }
  }

  function HeldBy(s: Snapshot, principal: string): seq<string> {
    if principal in s then s[principal] else []
  }

  predicate Holds(s: Snapshot, principal: string, permission: string) {
    Grants(HeldBy(s, principal), permission)
  }

  /** What reload sees when it rereads: the new snapshot, or None when it raises. */
  function Reread(s: Snapshot, f: File): Option<Snapshot> {
    match f
    case Missing => Some(map[])
    case Present(_, Malformed) => Some(s)
    case Present(_, Unwalkable) => None
    case Present(_, Doc(entries)) => Some(Principals(entries))
  }

  datatype Cache = Cache(snapshot: Snapshot, mtime: Option<int>)

  const FRESH := Cache(map[], None)

  /** Reload of the cached checker, and whether it raised. */
  function Reload(c: Cache, f: File): (Cache, bool) {
    match f
    case Missing => (Cache(map[], None), false)
    case Present(mtime, content) =>
      if c.mtime == Some(mtime) then (c, false)
      else match Reread(c.snapshot, f)
           case None => (c, true)
           case Some(s) => (Cache(s, Some(mtime)), false)
  }

  class CapabilitiesChecker {
    var snapshot: Snapshot
    var mtime: Option<int>

    ghost function View(): Cache
      reads this
    {
      Cache(snapshot, mtime)
    }

    constructor ()
      ensures View() == FRESH
    {
      snapshot, mtime := map[], None;
    }

    /** Construction reloads once; when that raises there is no checker. */
    static method Open(f: File) returns (checker: CapabilitiesChecker?)
      ensures checker == null <==> f.Present? && f.content == Unwalkable
      ensures checker != null ==> fresh(checker) && checker.View() == Reload(FRESH, f).0
      ensures checker != null && f.Present? && f.content.Doc? ==>
                forall p, permission ::
                  Holds(checker.snapshot, p, permission) <==> DocumentHolds(f.content.entries, p, permission)
      ensures checker != null && !(f.Present? && f.content.Doc?) ==> checker.snapshot == map[]
    {
      if f.Present? && f.content.Doc? {
        forall p, permission
          ensures Holds(Principals(f.content.entries), p, permission) <==> DocumentHolds(f.content.entries, p, permission)
        {
          DocumentAnswers(f.content.entries, p, permission);
        }
      }
      checker := new CapabilitiesChecker();
      var raised := checker.ReloadFile(f);
      if raised {
        checker := null;
      }
    }

    method ReloadFile(f: File) returns (raised: bool)
      modifies this
      ensures (View(), raised) == Reload(old(View()), f)
      ensures raised <==> f.Present? && f.content == Unwalkable && old(mtime) != Some(f.mtime)
      ensures f.Missing? ==> snapshot == map[] && mtime == None
      ensures f.Present? && (old(mtime) == Some(f.mtime) || !f.content.Doc?) ==> snapshot == old(snapshot)
      ensures f.Present? ==> mtime == if raised then old(mtime) else Some(f.mtime)
      ensures f.Present? && old(mtime) != Some(f.mtime) && f.content.Doc? ==>
                && mtime == Some(f.mtime)
                && forall p, i :: LastFor(f.content.entries, p, i) ==> HeldBy(snapshot, p) == f.content.entries[i].caps
      ensures f.Present? && old(mtime) != Some(f.mtime) && f.content.Doc? ==>
                forall p :: !Named(f.content.entries, p) ==> HeldBy(snapshot, p) == []
    {
      if f.Missing? {
        if mtime != None || snapshot != map[] {
          snapshot, mtime := map[], None;
        }
        return false;
      }
      if mtime != None && mtime.value == f.mtime {
        return false;
      }
      match f.content
      case Malformed =>
        mtime := Some(f.mtime);
        return false;
      case Unwalkable =>
        return true;
      case Doc(entries) =>
        var s: Snapshot := map[];
        for i := 0 to |entries|
          invariant s == Principals(entries[..i])
          invariant View() == old(View())
        {
          assert entries[..i + 1][..i] == entries[..i];
          if entries[i].Principal? {
            s := s[entries[i].id := entries[i].caps];
          }
        }
        assert entries[..|entries|] == entries;
        snapshot, mtime := s, Some(f.mtime);
        forall p ensures forall i :: LastFor(entries, p, i) ==> HeldBy(snapshot, p) == entries[i].caps
                 ensures !Named(entries, p) ==> HeldBy(snapshot, p) == []
        {
          DocumentGrants(entries, p);
        }
        return false;
    }

    /** None when the reload raises. */
    method Has(f: File, principal: string, permission: string) returns (answer: Option<bool>)
      modifies this
      ensures View() == Reload(old(View()), f).0
      ensures answer == if Reload(old(View()), f).1 then None else Some(Holds(View().snapshot, principal, permission))
      ensures f.Present? && f.content.Doc? && old(mtime) != Some(f.mtime) ==>
                answer == Some(DocumentHolds(f.content.entries, principal, permission))
      ensures f.Missing? ==> answer == Some(false)
    {
      if f.Present? && f.content.Doc? {
        DocumentAnswers(f.content.entries, principal, permission);
      }
      var raised := ReloadFile(f);
      if raised {
        return None;
      }
      var held := HeldBy(snapshot, principal);
      var i := 0;
      while i < |held|
        invariant 0 <= i <= |held|
        invariant forall k :: 0 <= k < i ==> !Matches(held[k], permission)
        invariant View() == Reload(old(View()), f).0
      {
        if Matches(held[i], permission) {
          return Some(true);
        }
        i := i + 1;
      }
      return Some(false);
    }
  }

  // ----- cached answers are the answers of a checker that always rereads -----

  datatype Query = Query(file: File, principal: string, permission: string)

  function CachedAnswers(c: Cache, qs: seq<Query>): seq<Option<bool>>
    decreases |qs|
  {
    if qs == [] then []
    else
      var r := Reload(c, qs[0].file);
      [if r.1 then None else Some(Holds(r.0.snapshot, qs[0].principal, qs[0].permission))] + CachedAnswers(r.0, qs[1..])
  }

  function RereadAnswers(s: Snapshot, qs: seq<Query>): seq<Option<bool>>
    decreases |qs|
  {
    if qs == [] then []
    else
      match Reread(s, qs[0].file)
      case None => [None] + RereadAnswers(s, qs[1..])
      case Some(s1) => [Some(Holds(s1, qs[0].principal, qs[0].permission))] + RereadAnswers(s1, qs[1..])
  }

  /** Every file state seen with mtime m has the contents version(m): equal mtimes imply equal contents. */
  ghost predicate Versioned(qs: seq<Query>, version: int -> Content) {
    forall i :: 0 <= i < |qs| && qs[i].file.Present? ==> qs[i].file.content == version(qs[i].file.mtime)
  }

  /** The cached snapshot is what rereading the remembered version would leave in place. */
  ghost predicate Coherent(c: Cache, version: int -> Content) {
    c.mtime.Some? ==> Reread(c.snapshot, Present(c.mtime.value, version(c.mtime.value))) == Some(c.snapshot)
  }

  lemma {:induction false} CacheAgrees(c: Cache, qs: seq<Query>, version: int -> Content)
    requires Coherent(c, version) && Versioned(qs, version)
    ensures CachedAnswers(c, qs) == RereadAnswers(c.snapshot, qs)
    decreases |qs|
  {
    if qs != [] {
      var f := qs[0].file;
      var r := Reload(c, f);
      assert Versioned(qs[1..], version);
      assert Coherent(r.0, version);
      CacheAgrees(r.0, qs[1..], version);
    }
  }

  /**
   For any sequence of edits, corruptions, deletions and checks in which equal mtimes imply
   equal contents, the mtime-gated checker gives the answers of one that rereads every time.
   */
  lemma FreshCacheAgrees(qs: seq<Query>, version: int -> Content)
    requires Versioned(qs, version)
    ensures CachedAnswers(FRESH, qs) == RereadAnswers(map[], qs)
  {
    CacheAgrees(FRESH, qs, version);
  }

  // ----- an edit that keeps the mtime -----

  /** Every grant of a that can match anything is granted by b. */
  ghost predicate CoveredBy(a: seq<string>, b: seq<string>) {
    forall i :: 0 <= i < |a| && Matches(a[i], a[i]) ==> Grants(b, a[i])
  }

  lemma CoveredGrants(a: seq<string>, b: seq<string>, required: string)
    requires CoveredBy(a, b) && Grants(a, required)
    ensures Grants(b, required)
  {
    var i :| 0 <= i < |a| && Matches(a[i], required);
    assert Matches(a[i], a[i]);
    var j :| 0 <= j < |b| && Matches(b[j], a[i]);
    MatchesTransitive(b[j], a[i], required);
  }

  /** Two grant lists give the same answers if and only if each covers the other. */
  lemma SameGrantsIff(a: seq<string>, b: seq<string>)
    ensures (forall required :: Grants(a, required) <==> Grants(b, required)) <==> CoveredBy(a, b) && CoveredBy(b, a)
  {
    if CoveredBy(a, b) && CoveredBy(b, a) {
      forall required ensures Grants(a, required) <==> Grants(b, required) {
        if Grants(a, required) {
          CoveredGrants(a, b, required);
        }
        if Grants(b, required) {
          CoveredGrants(b, a, required);
        }
      }
    }
    if forall required :: Grants(a, required) <==> Grants(b, required) {
      forall i | 0 <= i < |a| && Matches(a[i], a[i]) ensures Grants(b, a[i]) {
        assert Grants(a, a[i]);
      }
      forall i | 0 <= i < |b| && Matches(b[i], b[i]) ensures Grants(a, b[i]) {
        assert Grants(b, b[i]);
      }
    }
  }

  /** Every check of file f is answered by the cache as by rereading it. */
  ghost predicate GateIsInvisible(c: Cache, f: File) {
    forall p, perm {:trigger Query(f, p, perm)} ::
      CachedAnswers(c, [Query(f, p, perm)]) == RereadAnswers(c.snapshot, [Query(f, p, perm)])
  }

  lemma OneAnswer(c: Cache, f: File, p: string, perm: string)
    requires f.Present? && c.mtime == Some(f.mtime)
    ensures CachedAnswers(c, [Query(f, p, perm)]) == [Some(Grants(HeldBy(c.snapshot, p), perm))]
    ensures RereadAnswers(c.snapshot, [Query(f, p, perm)])
         == match Reread(c.snapshot, f)
            case None => [None]
            case Some(s) => [Some(Grants(HeldBy(s, p), perm))]
  {
    assert [Query(f, p, perm)][1..] == [];
  }

  /**
   A file changed without a change of mtime, seen by any cache that remembers that mtime: no
   check is answered differently if and only if rereading does not raise and gives every
   principal grants that cover the remembered ones and are covered by them.
   */
  lemma SameMtimeHidesEdit(c: Cache, f: File)
    requires f.Present? && c.mtime == Some(f.mtime)
    ensures GateIsInvisible(c, f) <==>
              && Reread(c.snapshot, f).Some?
              && forall p {:trigger HeldBy(c.snapshot, p)} ::
                   && CoveredBy(HeldBy(c.snapshot, p), HeldBy(Reread(c.snapshot, f).value, p))
                   && CoveredBy(HeldBy(Reread(c.snapshot, f).value, p), HeldBy(c.snapshot, p))
  {
    var r := Reread(c.snapshot, f);
    if r.None? {
      OneAnswer(c, f, "", "");
      assert CachedAnswers(c, [Query(f, "", "")]) != RereadAnswers(c.snapshot, [Query(f, "", "")]);
    } else {
      forall p ensures (forall perm :: Grants(HeldBy(c.snapshot, p), perm) <==> Grants(HeldBy(r.value, p), perm))
                  <==> && CoveredBy(HeldBy(c.snapshot, p), HeldBy(r.value, p))
                       && CoveredBy(HeldBy(r.value, p), HeldBy(c.snapshot, p))
      {
        SameGrantsIff(HeldBy(c.snapshot, p), HeldBy(r.value, p));
      }
      forall p, perm ensures CachedAnswers(c, [Query(f, p, perm)]) == RereadAnswers(c.snapshot, [Query(f, p, perm)])
                        <==> (Grants(HeldBy(c.snapshot, p), perm) <==> Grants(HeldBy(r.value, p), perm))
      {
        OneAnswer(c, f, p, perm);
        assert [Some(Grants(HeldBy(c.snapshot, p), perm))][0] == Some(Grants(HeldBy(c.snapshot, p), perm));
        assert [Some(Grants(HeldBy(r.value, p), perm))][0] == Some(Grants(HeldBy(r.value, p), perm));
      }
    }
  }

  /** For instance every grant revoked under an old mtime is still honoured. */
  lemma RevokedGrantSurvives(who: string, cap: string, mtime: int)
    requires Matches(cap, cap)
    ensures !GateIsInvisible(Cache(map[who := [cap]], Some(mtime)), Present(mtime, Doc([])))
  {
    var c, f := Cache(map[who := [cap]], Some(mtime)), Present(mtime, Doc([]));
    SameMtimeHidesEdit(c, f);
    assert HeldBy(c.snapshot, who) == [cap] && HeldBy(Reread(c.snapshot, f).value, who) == [];
    assert !CoveredBy([cap], []) by {
      assert Matches([cap][0], [cap][0]);
    }
  }
}
