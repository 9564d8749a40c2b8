/** esr:// URIs: parsing, building, and the canonical form of every accepted string. */
module Uri {
  import opened Prelude
  import opened Strings

  datatype Error = BadScheme | MissingPath | EmptyOrg | EmptyHost | BadPort | BadPath | UnknownType | MissingId
                 | EmptyId | TooFewSegments | EmptySegment

  /** The type is the first segment and the id the last; the query is kept undecoded. */
  datatype EsrUri = EsrUri(org: Option<string>, host: string, port: Option<nat>, segments: seq<string>, query: string)

  const SCHEME := "esr://"

  predicate IsLegacy(t: string) {
    t == "adapter" || t == "actor" || t == "command"
  }

  predicate IsPathStyle(t: string) {
    t == "adapters" || t == "workspaces" || t == "chats" || t == "users" || t == "sessions" || t == "resources"
  }

  // ----- parse -----

  datatype Authority = Authority(org: Option<string>, host: string, port: Option<nat>)

  function ParsePort(s: string): Result<Option<nat>, Error> {
    if s == "" then Ok(None)
    else match ParseDecimal(s)
         case Some(n) => Ok(Some(n))
         case None => Err(BadPort)
  }

  function ParseHostPort(org: Option<string>, s: string): Result<Authority, Error> {
    var host := Before(s, ':');
    if host == "" then Err(EmptyHost)
    else match ParsePort(After(s, ':'))
         case Ok(port) => Ok(Authority(org, host, port))
         case Err(e) => Err(e)
  }

  function ParseAuthority(a: string): Result<Authority, Error> {
    if '@' in a then
      if Before(a, '@') == "" then Err(EmptyOrg) else ParseHostPort(Some(Before(a, '@')), After(a, '@'))
    else ParseHostPort(None, a)
  }

  function ParsePath(path: string): Result<seq<string>, Error> {
    var raw := Split(path, '/');
    var trailing := raw[|raw| - 1] == "" && |raw| > 1;
    var parts := NonEmpty(raw);
    if |parts| < 2 && !trailing then Err(BadPath)
    else if parts == [] then Err(BadPath)
    else if !IsLegacy(parts[0]) && !IsPathStyle(parts[0]) then Err(UnknownType)
    else if IsLegacy(parts[0]) then
      if |parts| == 1 then Err(MissingId) else if |parts| != 2 then Err(BadPath) else Ok(parts)
    else if |parts| < 2 then Err(MissingId)
    else Ok(parts)
  }

  function ParseRest(pathPart: string, query: string): Result<EsrUri, Error> {
    if '/' !in pathPart then Err(MissingPath)
    else
      match ParseAuthority(Before(pathPart, '/'))
      case Err(e) => Err(e)
      case Ok(a) =>
        match ParsePath(After(pathPart, '/'))
        case Err(e) => Err(e)
        case Ok(segments) => Ok(EsrUri(a.org, a.host, a.port, segments, query))
  }

  function Parse(s: string): Result<EsrUri, Error> {
    if !(SCHEME <= s) then Err(BadScheme)
    else ParseRest(Before(s[|SCHEME|..], '?'), After(s[|SCHEME|..], '?'))
  }

  // ----- build -----

  function BuildAuthority(org: Option<string>, host: string, port: Option<nat>): string {
    (match org case Some(o) => if o == "" then "" else o + "@" case None => "")
    + host
    + (match port case Some(n) => ":" + Decimal(n) case None => "")
  }

  /** build without query parameters: the two-segment form. */
  function Build(type_: string, id: string, host: string, port: Option<nat>, org: Option<string>): Result<string, Error> {
    if !IsLegacy(type_) && !IsPathStyle(type_) then Err(UnknownType)
    else if host == "" then Err(EmptyHost)
    else if id == "" then Err(EmptyId)
    else Ok(SCHEME + (BuildAuthority(org, host, port) + "/" + (type_ + "/" + id)))
  }

  /** build_path without query parameters. */
  function BuildPath(segments: seq<string>, host: string, port: Option<nat>, org: Option<string>): Result<string, Error> {
    if |segments| < 2 then Err(TooFewSegments)
    else if !IsPathStyle(segments[0]) then Err(UnknownType)
    else if host == "" then Err(EmptyHost)
    else if "" in segments then Err(EmptySegment)
    else Ok(SCHEME + (BuildAuthority(org, host, port) + "/" + Join(segments, '/')))
  }

  /** Rebuild a parsed URI from its org, host, port and segments with the builder for its type. */
  function Rebuild(u: EsrUri): Result<string, Error> {
    if |u.segments| == 2 && IsLegacy(u.segments[0])
    then Build(u.segments[0], u.segments[1], u.host, u.port, u.org)
    else BuildPath(u.segments, u.host, u.port, u.org)
  }

  // ----- what a parsed URI looks like -----

  predicate Free(s: string, cs: set<char>) {
    forall c :: c in s ==> c !in cs
  }

  predicate AuthorityWF(a: Authority) {
    && a.host != "" && Free(a.host, {'/', '?', ':'})
    && (a.org.Some? ==> a.org.value != "" && Free(a.org.value, {'/', '?', '@'}))
    && (a.org.None? ==> Free(a.host, {'@'}))
  }

  predicate SegmentsWF(segments: seq<string>) {
    && |segments| >= 2
    && (forall p :: p in segments ==> p != "" && Free(p, {'/', '?'}))
    && (IsPathStyle(segments[0]) || (IsLegacy(segments[0]) && |segments| == 2))
  }

  predicate WF(u: EsrUri) {
    AuthorityWF(Authority(u.org, u.host, u.port)) && SegmentsWF(u.segments)
  }

  lemma AuthorityIsWF(a: string)
    requires Free(a, {'/', '?'}) && ParseAuthority(a).Ok?
    ensures AuthorityWF(ParseAuthority(a).value)
  {
  }

  lemma PathIsWF(path: string)
    requires '?' !in path && ParsePath(path).Ok?
    ensures SegmentsWF(ParsePath(path).value)
  {
    SplitPieces(path, '/');
  }

  lemma ParsedIsWF(s: string)
    ensures Parse(s).Ok? ==> WF(Parse(s).value)
  {
    if Parse(s).Ok? {
      AcceptedIsWF(s);
    }
  }

  lemma AcceptedIsWF(s: string)
    requires Parse(s).Ok?
    ensures WF(Parse(s).value)
  {
    var p := Before(s[|SCHEME|..], '?');
    var a, path := Before(p, '/'), After(p, '/');
    assert forall c :: c in a ==> c in p;
    assert forall c :: c in path ==> c in p;
    AuthorityIsWF(a);
    PathIsWF(path);
  }

  // ----- parsing undoes building -----

  lemma PortRoundTrip(port: Option<nat>)
    ensures ParsePort(match port case Some(n) => Decimal(n) case None => "") == Ok(port)
  {
    if port.Some? {
      DecimalRoundTrip(port.value);
    }
  }

  lemma HostPortRoundTrip(org: Option<string>, host: string, port: Option<nat>)
    requires host != "" && ':' !in host
    ensures ParseHostPort(org, HostPort(host, port)) == Ok(Authority(org, host, port))
  {
    PortRoundTrip(port);
    if port.Some? {
      PartitionAt(host, ':', Decimal(port.value));
      assert host + (":" + Decimal(port.value)) == host + [':'] + Decimal(port.value);
    } else {
      PartitionNone(host, ':');
      assert host + "" == host;
    }
  }

  /** BuildAuthority with its parts named. */
  ghost function HostPort(host: string, port: Option<nat>): string {
    host + (match port case Some(n) => ":" + Decimal(n) case None => "")
  }

  lemma AuthorityParts(org: Option<string>, host: string, port: Option<nat>)
    requires org.Some? ==> org.value != ""
    ensures BuildAuthority(org, host, port)
         == if org.Some? then org.value + ['@'] + HostPort(host, port) else HostPort(host, port)
  {
  }

  lemma HostPortFree(host: string, port: Option<nat>, x: char)
    requires x !in host && x != ':' && !IsDigit(x)
    ensures x !in HostPort(host, port)
  {
  }

  lemma AuthorityFree(a: Authority, x: char)
    requires AuthorityWF(a) && (x == '/' || x == '?')
    ensures x !in BuildAuthority(a.org, a.host, a.port)
  {
  }

  lemma AuthorityRoundTrip(a: Authority)
    requires AuthorityWF(a)
    ensures ParseAuthority(BuildAuthority(a.org, a.host, a.port)) == Ok(a)
  {
    var hp := HostPort(a.host, a.port);
    HostPortRoundTrip(a.org, a.host, a.port);
    AuthorityParts(a.org, a.host, a.port);
    if a.org.Some? {
      PartitionAt(a.org.value, '@', hp);
    } else {
      HostPortFree(a.host, a.port, '@');
    }
  }

  lemma PathRoundTrip(segments: seq<string>)
    requires SegmentsWF(segments)
    ensures ParsePath(Join(segments, '/')) == Ok(segments)
    ensures '?' !in Join(segments, '/')
  {
    PathParts(segments);
    PathParses(Join(segments, '/'), segments);
    JoinWithin(segments, '/', '?');
  }

  lemma PathParses(path: string, segments: seq<string>)
    requires SegmentsWF(segments) && Split(path, '/') == segments && NonEmpty(segments) == segments
    requires segments[|segments| - 1] != ""
    ensures ParsePath(path) == Ok(segments)
  {
  }

  lemma PathParts(segments: seq<string>)
    requires segments != [] && forall p :: p in segments ==> p != "" && '/' !in p
    ensures Split(Join(segments, '/'), '/') == segments && NonEmpty(segments) == segments
    ensures segments[|segments| - 1] != ""
  {
    SplitOfJoin(segments, '/');
    NonEmptyKeeps(segments);
    assert segments[|segments| - 1] in segments;
  }

  ghost function Text(u: EsrUri): string
    requires u.segments != []
  {
    SCHEME + (BuildAuthority(u.org, u.host, u.port) + "/" + Join(u.segments, '/'))
  }

  lemma RestRoundTrip(u: EsrUri)
    requires WF(u)
    ensures ParseRest(BuildAuthority(u.org, u.host, u.port) + ['/'] + Join(u.segments, '/'), "")
         == Ok(u.(query := ""))
  {
    var a := Authority(u.org, u.host, u.port);
    AuthorityRoundTrip(a);
    AuthorityFree(a, '/');
    PathRoundTrip(u.segments);
    PartitionAt(BuildAuthority(u.org, u.host, u.port), '/', Join(u.segments, '/'));
  }

  lemma SchemeDrops(rest: string)
    requires '?' !in rest
    ensures Parse(SCHEME + rest) == ParseRest(rest, "")
  {
    assert (SCHEME + rest)[|SCHEME|..] == rest;
    PartitionNone(rest, '?');
  }

  /** An authority and a path that parse make a URI that parses to their parts. */
  lemma PartsParse(a: string, path: string, authority: Authority, segments: seq<string>)
    requires '/' !in a && '?' !in a && '?' !in path
    requires ParseAuthority(a) == Ok(authority) && ParsePath(path) == Ok(segments)
    ensures Parse(SCHEME + (a + "/" + path)) == Ok(EsrUri(authority.org, authority.host, authority.port, segments, ""))
  {
    PartitionAt(a, '/', path);
    assert a + "/" + path == a + ['/'] + path;
    SchemeDrops(a + ['/'] + path);
  }

  lemma TextRoundTrip(u: EsrUri)
    requires WF(u)
    ensures Parse(Text(u)) == Ok(u.(query := ""))
  {
    var a := BuildAuthority(u.org, u.host, u.port);
    var rest := a + ['/'] + Join(u.segments, '/');
    AuthorityFree(Authority(u.org, u.host, u.port), '?');
    PathRoundTrip(u.segments);
    assert '?' !in rest;
    RestRoundTrip(u);
    SchemeDrops(rest);
  }

  lemma RebuildIsText(u: EsrUri)
    requires WF(u)
    ensures Rebuild(u) == Ok(Text(u))
  {
    if |u.segments| == 2 && IsLegacy(u.segments[0]) {
      assert u.segments[0] in u.segments && u.segments[1] in u.segments;
      JoinTwo(u.segments);
    } else {
      PathBuilds(u.segments, u.host, u.port, u.org);
    }
  }

  lemma JoinTwo(segments: seq<string>)
    requires |segments| == 2
    ensures Join(segments, '/') == segments[0] + "/" + segments[1]
  {
    assert segments[1..] == [segments[1]];
  }

  lemma PathBuilds(segments: seq<string>, host: string, port: Option<nat>, org: Option<string>)
    requires |segments| >= 2 && IsPathStyle(segments[0]) && host != "" && "" !in segments
    ensures BuildPath(segments, host, port, org)
         == Ok(SCHEME + (BuildAuthority(org, host, port) + "/" + Join(segments, '/')))
  {
  }

  /** Building from well-formed parts always succeeds, and parsing gives the parts back. */
  lemma BuildThenParse(u: EsrUri)
    requires WF(u)
    ensures Rebuild(u).Ok? && Parse(Rebuild(u).value) == Ok(u.(query := ""))
  {
    RebuildIsText(u);
    TextRoundTrip(u);
  }

  /**
   Canonicalisation: every accepted string, whatever empty segments, empty port or extra '@'
   it has, can be rebuilt; the rebuilt string parses to the same URI without the query, and
   rebuilding once more gives the same string.
   */
  lemma Canonical(s: string)
    ensures Parse(s).Ok? ==>
              var u := Parse(s).value;
              && Rebuild(u).Ok?
              && Parse(Rebuild(u).value) == Ok(u.(query := ""))
              && Rebuild(Parse(Rebuild(u).value).value) == Rebuild(u)
  {
    if Parse(s).Ok? {
      AcceptedIsWF(s);
      var u := Parse(s).value;
      BuildThenParse(u);
      RebuildIsText(u);
      RebuildIsText(u.(query := ""));
    }
  }

  /** build refuses exactly an unknown type, an empty host or an empty id; build_path what makes no path-style URI. */
  lemma BuildersRefuse(type_: string, id: string, segments: seq<string>, host: string, port: Option<nat>,
                       org: Option<string>)
    ensures Build(type_, id, host, port, org).Err? <==>
              (!IsLegacy(type_) && !IsPathStyle(type_)) || host == "" || id == ""
    ensures BuildPath(segments, host, port, org).Err? <==>
              |segments| < 2 || !IsPathStyle(segments[0]) || host == "" || "" in segments
  {
  }

  /** A query changes nothing but the query: the rest parses as without it. */
  lemma QueryIsKept(s: string, query: string)
    requires '?' !in s && Parse(s).Ok?
    ensures Parse(s + ['?'] + query) == Ok(Parse(s).value.(query := query))
  {
    var rest := s[|SCHEME|..];
    assert (s + ['?'] + query)[|SCHEME|..] == rest + ['?'] + query;
    assert forall c :: c in rest ==> c in s;
    PartitionAt(rest, '?', query);
    PartitionNone(rest, '?');
    assert SCHEME <= s + ['?'] + query;
  }
}
