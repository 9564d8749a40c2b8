/** sorted(value, key=str) on strings: the result depends on the set alone, not on its iteration order. */
module Sorting {
  import opened Prelude

  predicate Less(a: string, b: string) {
    b != "" && (a == "" || a[0] < b[0] || (a[0] == b[0] && Less(a[1..], b[1..])))
  }

  lemma {:induction false} LessTotal(a: string, b: string)
    ensures a == b || Less(a, b) || Less(b, a)
    decreases |a|
  {
    if a != "" && b != "" && a[0] == b[0] {
      LessTotal(a[1..], b[1..]);
      assert a == [a[0]] + a[1..] && b == [b[0]] + b[1..];
    }
  }

  lemma {:induction false} LessAsymmetric(a: string, b: string)
    requires Less(a, b)
    ensures !Less(b, a) && a != b
    decreases |a|
  {
    if a != "" && a[0] == b[0] {
      LessAsymmetric(a[1..], b[1..]);
    }
  }

  lemma {:induction false} LessTransitive(a: string, b: string, c: string)
    requires Less(a, b) && Less(b, c)
    ensures Less(a, c)
    decreases |a|
  {
    if a != "" && a[0] == b[0] && b[0] == c[0] {
      LessTransitive(a[1..], b[1..], c[1..]);
    }
  }

  /** a and b agree before i, where a ends or has the smaller character. */
  ghost predicate FirstDifference(a: string, b: string, i: nat) {
    i <= |a| && i < |b| && a[..i] == b[..i] && (i == |a| || a[i] < b[i])
  }

  lemma DiffersAtOnce(a: string, b: string, i: nat)
    requires FirstDifference(a, b, i)
    ensures i > 0 ==> a[0] == b[0]
  {
    assert i > 0 ==> a[..i][0] == a[0] && b[..i][0] == b[0];
  }

  /** The order is the one of code points, character by character, a prefix coming first. */
  lemma {:induction false} LessIff(a: string, b: string)
    ensures Less(a, b) <==> exists i: nat :: FirstDifference(a, b, i)
    decreases |a|
  {
    if a != "" && b != "" && a[0] == b[0] {
      var x, y := a[1..], b[1..];
      LessIff(x, y);
      if Less(a, b) {
        var i: nat :| FirstDifference(x, y, i);
        assert a[..i + 1] == [a[0]] + x[..i] && b[..i + 1] == [b[0]] + y[..i];
        assert FirstDifference(a, b, i + 1);
      }
      if i: nat :| FirstDifference(a, b, i) {
        assert i > 0;
        assert x[..i - 1] == a[..i][1..] && y[..i - 1] == b[..i][1..];
        assert FirstDifference(x, y, i - 1);
      }
    } else if b != "" {
      if Less(a, b) {
        assert FirstDifference(a, b, 0);
      }
      forall i: nat | FirstDifference(a, b, i) ensures i == 0 {
        DiffersAtOnce(a, b, i);
      }
    }
  }

  function Insert(x: string, s: seq<string>): (r: seq<string>)
    ensures forall y :: y in r <==> y == x || y in s
  {
    if s == [] then [x] else if Less(x, s[0]) then [x] + s else [s[0]] + Insert(x, s[1..])
  }

  function Sort(s: seq<string>): (r: seq<string>)
    ensures forall y :: y in r <==> y in s
  {
    if s == [] then [] else Insert(s[0], Sort(s[1..]))
  }

  /** Strictly ascending. */
  ghost predicate Ascending(s: seq<string>) {
    s != [] ==> (forall y :: y in s[1..] ==> Less(s[0], y)) && Ascending(s[1..])
  }

  lemma {:induction false} InsertAscends(x: string, s: seq<string>)
    requires Ascending(s) && x !in s
    ensures Ascending(Insert(x, s))
    decreases |s|
  {
    if s != [] {
      if Less(x, s[0]) {
        assert ([x] + s)[1..] == s;
        forall y | y in s ensures Less(x, y) {
          if y != s[0] {
            assert y in s[1..];
            LessTransitive(x, s[0], y);
          }
        }
      } else {
        InsertAscends(x, s[1..]);
        LessTotal(x, s[0]);
        assert Insert(x, s)[1..] == Insert(x, s[1..]);
      }
    }
  }

  lemma {:induction false} SortAscends(s: seq<string>)
    requires NoDup(s)
    ensures Ascending(Sort(s))
    decreases |s|
  {
    if s != [] {
      SortAscends(s[1..]);
      InsertAscends(s[0], Sort(s[1..]));
    }
  }

  /** A strictly ascending sequence is determined by its elements. */
  lemma {:induction false} AscendingUnique(s: seq<string>, t: seq<string>)
    requires Ascending(s) && Ascending(t)
    requires forall y :: y in s <==> y in t
    ensures s == t
    decreases |s|
  {
    if s == [] {
      if t != [] {
        HasElement(t);
      }
    } else {
      assert s[0] in s && s[0] in t;
      assert t[0] in t && t[0] in s;
      SameHead(s, t);
      forall y ensures y in s[1..] <==> y in t[1..] {
        if y in s[1..] {
          LessAsymmetric(s[0], y);
          assert y in s;
        }
        if y in t[1..] {
          LessAsymmetric(t[0], y);
          assert y in t;
        }
      }
      AscendingUnique(s[1..], t[1..]);
      assert s == [s[0]] + s[1..] && t == [t[0]] + t[1..];
    }
  }

  lemma HasElement(s: seq<string>)
    requires s != []
    ensures exists y :: y in s
  {
    assert s[0] in s;
  }

  lemma HeadIsLeast(s: seq<string>, y: string)
    requires Ascending(s) && y in s
    ensures y == s[0] || Less(s[0], y)
  {
  }

  lemma SameHead(s: seq<string>, t: seq<string>)
    requires Ascending(s) && Ascending(t) && s != [] && t != []
    requires s[0] in t && t[0] in s
    ensures s[0] == t[0]
  {
    HeadIsLeast(s, t[0]);
    HeadIsLeast(t, s[0]);
    if Less(s[0], t[0]) {
      LessAsymmetric(s[0], t[0]);
    }
  }

  /** Two iteration orders of the same set sort to the same list. */
  lemma SortIgnoresOrder(s: seq<string>, t: seq<string>)
    requires NoDup(s) && NoDup(t) && forall y :: y in s <==> y in t
    ensures Sort(s) == Sort(t)
  {
    SortAscends(s);
    SortAscends(t);
    AscendingUnique(Sort(s), Sort(t));
  }
}
