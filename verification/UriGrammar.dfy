/**
 The generic syntax behind parse(): scheme, authority, path and query, as in section 3 of
 RFC 3986, with the esr conditions on each.  A string is accepted exactly when it is written
 that way, and then parse() returns what was written.
 */
module UriGrammar {
  import opened Prelude
  import opened Strings
  import opened Uri

  /** A port is the text after its colon, a query the text after its question mark. */
  datatype Parts = Parts(org: Option<string>, host: string, port: Option<string>, raw: seq<string>, query: Option<string>)

  ghost function HostPortText(p: Parts): string {
    if p.port.Some? then p.host + [':'] + p.port.value else p.host
  }

  ghost function AuthorityText(p: Parts): string {
    if p.org.Some? then p.org.value + ['@'] + HostPortText(p) else HostPortText(p)
  }

  ghost function PathText(p: Parts): string
    requires p.raw != []
  {
    AuthorityText(p) + ['/'] + Join(p.raw, '/')
  }

  ghost function TextOf(p: Parts): string
    requires p.raw != []
  {
    SCHEME + if p.query.Some? then PathText(p) + ['?'] + p.query.value else PathText(p)
  }

  ghost predicate AuthorityOk(p: Parts) {
    && (p.org.Some? ==> p.org.value != "" && Free(p.org.value, {'@', '/', '?'}))
    && p.host != "" && Free(p.host, {':', '/', '?'}) && (p.org.None? ==> '@' !in p.host)
    && (p.port.Some? ==> forall c :: c in p.port.value ==> IsDigit(c))
  }

  /** At least a type and an id besides empty segments; the legacy types take exactly an id. */
  ghost predicate SegmentsOk(raw: seq<string>) {
    var parts := NonEmpty(raw);
    && |parts| >= 2
    && Typed(parts[0]) && (TakesOnlyId(parts[0]) ==> |parts| == 2)
  }

  ghost predicate TakesOnlyId(t: string) {
    t in {"adapter", "actor", "command"}
  }

  ghost predicate Typed(t: string) {
    TakesOnlyId(t) || t in {"adapters", "workspaces", "chats", "users", "sessions", "resources"}
  }

  lemma TypesAre(t: string)
    ensures TakesOnlyId(t) <==> IsLegacy(t)
    ensures Typed(t) <==> IsLegacy(t) || IsPathStyle(t)
  {
  }

  ghost predicate Grammatical(p: Parts) {
    && AuthorityOk(p) && SegmentsOk(p.raw)
    && p.raw != [] && forall i :: 0 <= i < |p.raw| ==> Free(p.raw[i], {'/', '?'})
  }

  /** What a grammatical text stands for: an empty port is none, empty segments do not count. */
  ghost function ValueOf(p: Parts): EsrUri
    requires Grammatical(p)
  {
    EsrUri(p.org, p.host, if p.port.Some? && p.port.value != "" then Some(ParseDigits(p.port.value)) else None,
           NonEmpty(p.raw), if p.query.Some? then p.query.value else "")
  }

  // ----- what is written so is accepted, and read as it is written -----

  lemma PortReads(p: Parts)
    requires AuthorityOk(p)
    ensures ParsePort(if p.port.Some? then p.port.value else "")
         == Ok(if p.port.Some? && p.port.value != "" then Some(ParseDigits(p.port.value)) else None)
  {
  }

  lemma HostPortReads(p: Parts)
    requires AuthorityOk(p)
    ensures Before(HostPortText(p), ':') == p.host
    ensures After(HostPortText(p), ':') == if p.port.Some? then p.port.value else ""
  {
    if p.port.Some? {
      PartitionAt(p.host, ':', p.port.value);
    } else {
      PartitionNone(p.host, ':');
    }
  }

  lemma NoAtSign(p: Parts)
    requires AuthorityOk(p) && p.org.None?
    ensures '@' !in HostPortText(p)
  {
  }

  lemma AuthorityReads(p: Parts)
    requires AuthorityOk(p)
    ensures ParseAuthority(AuthorityText(p))
         == Ok(Authority(p.org, p.host,
                         if p.port.Some? && p.port.value != "" then Some(ParseDigits(p.port.value)) else None))
  {
    PortReads(p);
    HostPortReads(p);
    if p.org.Some? {
      PartitionAt(p.org.value, '@', HostPortText(p));
    } else {
      NoAtSign(p);
    }
  }

  lemma AuthorityIsFree(p: Parts)
    requires AuthorityOk(p)
    ensures '/' !in AuthorityText(p) && '?' !in AuthorityText(p)
  {
    assert '/' !in HostPortText(p) && '?' !in HostPortText(p);
  }

  lemma PathReads(raw: seq<string>)
    requires raw != [] && SegmentsOk(raw) && forall i :: 0 <= i < |raw| ==> Free(raw[i], {'/', '?'})
    ensures ParsePath(Join(raw, '/')) == Ok(NonEmpty(raw)) && '?' !in Join(raw, '/')
  {
    SplitOfJoinAt(raw, '/');
    JoinWithin(raw, '/', '?');
    LegalPath(Join(raw, '/'), raw);
  }

  lemma LegalPath(path: string, raw: seq<string>)
    requires Split(path, '/') == raw && SegmentsOk(raw)
    ensures ParsePath(path) == Ok(NonEmpty(raw))
  {
    TypesAre(NonEmpty(raw)[0]);
  }

  lemma GrammarParses(p: Parts)
    requires Grammatical(p)
    ensures Parse(TextOf(p)) == Ok(ValueOf(p))
  {
    var a, path := AuthorityText(p), Join(p.raw, '/');
    AuthorityReads(p);
    AuthorityIsFree(p);
    PathReads(p.raw);
    PartitionAt(a, '/', path);
    assert '?' !in PathText(p);
    SplitsQuery(p);
  }

  lemma SplitsQuery(p: Parts)
    requires p.raw != [] && '?' !in PathText(p)
    ensures Parse(TextOf(p)) == ParseRest(PathText(p), if p.query.Some? then p.query.value else "")
  {
    var rest := if p.query.Some? then PathText(p) + ['?'] + p.query.value else PathText(p);
    assert TextOf(p) == SCHEME + rest && (SCHEME + rest)[|SCHEME|..] == rest;
    if p.query.Some? {
      PartitionAt(PathText(p), '?', p.query.value);
    } else {
      PartitionNone(PathText(p), '?');
    }
  }

  // ----- what is accepted is written so -----

  lemma Whole(s: string, c: char)
    ensures c in s ==> s == Before(s, c) + [c] + After(s, c)
    ensures c !in s ==> s == Before(s, c)
  {
  }

  ghost function AfterIf(s: string, c: char): Option<string> {
    if c in s then Some(After(s, c)) else None
  }

  /** The parts of a string, found by the separators in the order parse() looks for them. */
  ghost function PartsOf(s: string): Parts
    requires SCHEME <= s
  {
    var rest := s[|SCHEME|..];
    var pathPart := Before(rest, '?');
    var a := Before(pathPart, '/');
    var hp := if '@' in a then After(a, '@') else a;
    Parts(if '@' in a then Some(Before(a, '@')) else None, Before(hp, ':'), AfterIf(hp, ':'),
          Split(After(pathPart, '/'), '/'), AfterIf(rest, '?'))
  }

  lemma {:induction false} JoinOfSplit(s: string, c: char)
    ensures Join(Split(s, c), c) == s
    decreases |s|
  {
    if c in s {
      var x, y := Before(s, c), After(s, c);
      Whole(s, c);
      JoinOfSplit(y, c);
      SplitAt(x, c, y);
      JoinCons(x, Split(y, c), c);
    } else {
      assert Split(s, c) == [s];
    }
  }

  lemma JoinCons(x: string, tail: seq<string>, c: char)
    requires tail != []
    ensures Join([x] + tail, c) == x + [c] + Join(tail, c)
  {
    assert ([x] + tail)[1..] == tail;
  }

  lemma AuthorityIsWritten(a: string, p: Parts)
    requires p.org == (if '@' in a then Some(Before(a, '@')) else None)
    requires var hp := if '@' in a then After(a, '@') else a; p.host == Before(hp, ':') && p.port == AfterIf(hp, ':')
    ensures AuthorityText(p) == a
    ensures ParseAuthority(a).Ok? && Free(a, {'/', '?'}) ==> AuthorityOk(p)
  {
    var hp := if '@' in a then After(a, '@') else a;
    Whole(a, '@');
    Whole(hp, ':');
    assert HostPortText(p) == hp;
    assert Within(hp, a) && Within(p.host, hp);
    if p.org.Some? {
      assert Within(p.org.value, a);
    }
  }

  lemma SegmentsAreWritten(path: string)
    requires '?' !in path
    ensures Join(Split(path, '/'), '/') == path
    ensures forall i :: 0 <= i < |Split(path, '/')| ==> Free(Split(path, '/')[i], {'/', '?'})
    ensures ParsePath(path).Ok? ==> SegmentsOk(Split(path, '/'))
  {
    JoinOfSplit(path, '/');
    SplitPieces(path, '/');
    var raw := Split(path, '/');
    if NonEmpty(raw) != [] {
      TypesAre(NonEmpty(raw)[0]);
    }
    forall i | 0 <= i < |raw| ensures Free(raw[i], {'/', '?'}) {
      assert raw[i] in raw;
    }
  }

  lemma AcceptedIsGrammatical(s: string)
    requires Parse(s).Ok?
    ensures Grammatical(PartsOf(s)) && TextOf(PartsOf(s)) == s
  {
    var rest := s[|SCHEME|..];
    var pathPart, p := Before(rest, '?'), PartsOf(s);
    var a, path := Before(pathPart, '/'), After(pathPart, '/');
    Whole(rest, '?');
    Whole(pathPart, '/');
    assert Within(a, pathPart) && Within(path, pathPart);
    AuthorityIsWritten(a, p);
    SegmentsAreWritten(path);
    assert s == SCHEME + rest;
  }

  /** parse() accepts exactly the grammatical texts. */
  lemma AcceptsIff(s: string)
    ensures Parse(s).Ok? <==> exists p: Parts :: Grammatical(p) && TextOf(p) == s
  {
    if Parse(s).Ok? {
      AcceptedIsGrammatical(s);
    }
    forall p: Parts | Grammatical(p) && TextOf(p) == s ensures Parse(s).Ok? {
      GrammarParses(p);
    }
  }
}
