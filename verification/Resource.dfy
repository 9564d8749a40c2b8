/** resources URIs: esr://env@host/resources/<media type>/<sha>.<ext>. */
module Resource {
  import opened Prelude
  import opened Strings
  import Uri

  datatype Error = Malformed(e: Uri.Error) | NotResources | BadCount | UnknownMediaType | MissingExt | BadSha | BadExt

  datatype Parsed = Parsed(mediaType: string, sha: string, ext: string, env: Option<string>, host: string)

  /** The extension allowlist of the URI module. */
  predicate AllowedExt(mt: string, ext: string) {
    (mt == "image" && ext in {"png", "jpg", "jpeg", "gif", "webp", "heic"}) ||
    (mt == "file" && ext in {"bin", "pdf", "doc", "docx", "xls", "xlsx", "zip", "txt", "md", "csv"}) ||
    (mt == "audio" && ext in {"opus", "mp3", "wav", "m4a", "aac"})
  }

  predicate IsMediaType(mt: string) {
    mt == "image" || mt == "file" || mt == "audio"
  }

  predicate IsHex(s: string) {
    forall c :: c in s ==> '0' <= c <= '9' || 'a' <= c <= 'f'
  }

  predicate IsSha(s: string) {
    |s| == 64 && IsHex(s)
  }

  /** What the pattern accepts: its final anchor also matches before one trailing newline. */
  predicate ShaMatches(s: string) {
    IsSha(s) || (|s| == 65 && s[64] == '\n' && IsSha(s[..64]))
  }

  /** Index of the last c, given that there is one. */
  function LastIndexOf(s: string, c: char): (r: nat)
    requires c in s
    ensures r < |s| && s[r] == c && c !in s[r + 1..]
  {
    if s[|s| - 1] == c then |s| - 1
    else
      var k := LastIndexOf(s[..|s| - 1], c);
      assert s[k + 1..] == s[..|s| - 1][k + 1..] + [s[|s| - 1]];
      k
  }

  function ParseName(mt: string, name: string, env: Option<string>, host: string): Result<Parsed, Error> {
    if '.' !in name then Err(MissingExt)
    else
      var i := LastIndexOf(name, '.');
      var sha, ext := name[..i], Lower(name[i + 1..]);
      if !ShaMatches(sha) then Err(BadSha)
      else if !AllowedExt(mt, ext) then Err(BadExt)
      else Ok(Parsed(mt, sha, ext, env, host))
  }

  function ParseResource(uri: string): Result<Parsed, Error> {
    match Uri.Parse(uri)
    case Err(e) => Err(Malformed(e))
    case Ok(u) =>
      if u.segments == [] || u.segments[0] != "resources" then Err(NotResources)
      else if |u.segments| != 3 then Err(BadCount)
      else if !IsMediaType(u.segments[1]) then Err(UnknownMediaType)
      else ParseName(u.segments[1], u.segments[2], u.org, u.host)
  }

  function BuildResource(mt: string, sha: string, ext: string, env: string, host: string): Result<string, Error> {
    var e := Lower(ext);
    if !ShaMatches(sha) then Err(BadSha)
    else if !IsMediaType(mt) then Err(UnknownMediaType)
    else if !AllowedExt(mt, e) then Err(BadExt)
    else match Uri.BuildPath(["resources", mt, sha + "." + e], host, None, Some(env))
         case Ok(s) => Ok(s)
         case Err(x) => Err(Malformed(x))
  }

  // ----- extensions and names are plain -----

  predicate Plain(s: string) {
    forall c :: c in s ==> 'a' <= c <= 'z' || '0' <= c <= '9'
  }

  lemma AllowedIsPlain(mt: string, ext: string)
    requires AllowedExt(mt, ext)
    ensures Plain(ext) && ext != "" && IsMediaType(mt) && Plain(mt) && mt != ""
  {
  }

  lemma LowerPlain(s: string)
    requires Plain(s)
    ensures Lower(s) == s
  {
    assert forall i :: 0 <= i < |s| ==> s[i] in s;
  }

  lemma {:induction false} LastDot(sha: string, ext: string)
    requires '.' !in ext
    ensures '.' in sha + "." + ext && LastIndexOf(sha + "." + ext, '.') == |sha|
    decreases |ext|
  {
    var s := sha + "." + ext;
    assert s[|sha|] == '.';
    if ext != "" {
      LastDot(sha, ext[..|ext| - 1]);
      assert s[..|s| - 1] == sha + "." + ext[..|ext| - 1];
      assert s[|s| - 1] == ext[|ext| - 1];
    }
  }

  lemma NameRoundTrip(mt: string, sha: string, ext: string, env: Option<string>, host: string)
    requires IsSha(sha) && AllowedExt(mt, ext)
    ensures ParseName(mt, sha + "." + ext, env, host) == Ok(Parsed(mt, sha, ext, env, host))
  {
    AllowedIsPlain(mt, ext);
    LowerPlain(ext);
    LastDot(sha, ext);
    var name := sha + "." + ext;
    assert name[..|sha|] == sha && name[|sha| + 1..] == ext;
  }

  /** 64 lower-case hex digits, and at most a newline after them. */
  ghost predicate LooksLikeSha(s: string) {
    && 64 <= |s| <= 65 && (|s| == 65 ==> s[64] == '\n')
    && forall i :: 0 <= i < 64 ==> '0' <= s[i] <= '9' || 'a' <= s[i] <= 'f'
  }

  lemma ShaLooks(s: string)
    ensures ShaMatches(s) <==> LooksLikeSha(s)
  {
    if LooksLikeSha(s) {
      assert IsHex(s[..64]);
      assert |s| == 64 ==> s[..64] == s;
    }
    if ShaMatches(s) {
      var h := s[..64];
      assert IsHex(h) by {
        assert |s| == 64 ==> h == s;
      }
      assert forall i :: 0 <= i < 64 ==> h[i] in h && h[i] == s[i];
    }
  }

  /** The name of a resource is a hash, a dot and an allowed extension in any case; nothing else is. */
  lemma NameIsReadIff(mt: string, name: string, env: Option<string>, host: string)
    requires IsMediaType(mt)
    ensures ParseName(mt, name, env, host).Ok? <==>
              '.' in name && LooksLikeSha(name[..LastIndexOf(name, '.')])
              && AllowedExt(mt, Lower(name[LastIndexOf(name, '.') + 1..]))
    ensures ParseName(mt, name, env, host).Ok? ==>
              var p := ParseName(mt, name, env, host).value;
              p == Parsed(mt, p.sha, p.ext, env, host) && LooksLikeSha(p.sha) && AllowedExt(mt, p.ext)
              && exists e :: name == p.sha + "." + e && '.' !in e && p.ext == Lower(e)
  {
    if '.' in name {
      var i := LastIndexOf(name, '.');
      ShaLooks(name[..i]);
      assert name == name[..i] + "." + name[i + 1..];
    }
  }

  /** The segments of a resource URI: the type, a known media type and a name. */
  ghost predicate NamesResource(segments: seq<string>) {
    |segments| == 3 && segments[0] == "resources" && IsMediaType(segments[1])
  }

  /** parse_resource accepts exactly the URIs of that shape with a readable name, and keeps their instance and host. */
  lemma ResourceIsReadIff(uri: string, u: Uri.EsrUri)
    requires Uri.Parse(uri) == Ok(u)
    ensures ParseResource(uri).Ok? <==>
              NamesResource(u.segments) && ParseName(u.segments[1], u.segments[2], u.org, u.host).Ok?
    ensures ParseResource(uri).Ok? ==> ParseResource(uri) == ParseName(u.segments[1], u.segments[2], u.org, u.host)
  {
  }

  /** build_resource refuses exactly a bad hash, a pair outside the allowlist and an empty host. */
  lemma BuildResourceRefuses(mt: string, sha: string, ext: string, env: string, host: string)
    ensures BuildResource(mt, sha, ext, env, host).Err? <==>
              !LooksLikeSha(sha) || !AllowedExt(mt, Lower(ext)) || host == ""
  {
    ShaLooks(sha);
    if LooksLikeSha(sha) && AllowedExt(mt, Lower(ext)) {
      AllowedIsPlain(mt, Lower(ext));
    }
  }

  // ----- the instance and host:port a URI is built with -----

  ghost predicate HostOk(hostPort: string) {
    Uri.Free(hostPort, {'/', '?', '@'}) && Uri.ParseHostPort(None, hostPort).Ok?
  }

  /** An empty instance adds no org part. */
  ghost function EnvOf(instance: string): Option<string> {
    if instance == "" then None else Some(instance)
  }

  lemma AuthorityOf(instance: string, hostPort: string)
    requires HostOk(hostPort) && Uri.Free(instance, {'/', '?', '@'})
    ensures hostPort != ""
    ensures var a := Uri.BuildAuthority(Some(instance), hostPort, None);
            && '/' !in a && '?' !in a
            && Uri.ParseAuthority(a) == Uri.ParseHostPort(EnvOf(instance), hostPort)
  {
    var a := Uri.BuildAuthority(Some(instance), hostPort, None);
    if instance == "" {
      assert a == hostPort;
    } else {
      assert a == instance + ['@'] + hostPort;
      PartitionAt(instance, '@', hostPort);
    }
  }

  lemma PathOf(mt: string, sha: string, ext: string)
    requires IsSha(sha) && AllowedExt(mt, ext)
    ensures Uri.SegmentsWF(["resources", mt, sha + "." + ext])
  {
  }

  ghost function UriText(mt: string, sha: string, ext: string, instance: string, hostPort: string): string {
    Uri.SCHEME + (Uri.BuildAuthority(Some(instance), hostPort, None) + "/"
                  + Join(["resources", mt, sha + "." + ext], '/'))
  }

  lemma BuiltText(mt: string, sha: string, ext: string, instance: string, hostPort: string)
    requires IsSha(sha) && AllowedExt(mt, ext)
    ensures BuildResource(mt, sha, ext, instance, hostPort).Ok? <==> hostPort != ""
    ensures hostPort != "" ==> BuildResource(mt, sha, ext, instance, hostPort).value == UriText(mt, sha, ext, instance, hostPort)
  {
    AllowedIsPlain(mt, ext);
    LowerPlain(ext);
    PathOf(mt, sha, ext);
  }

  /**
   With a hash and an allowed pair of media type and extension, as a store always has,
   building the URI is refused exactly when the configured host:port is empty.
   */
  lemma BuildFailsIffNoHost(mt: string, sha: string, ext: string, instance: string, hostPort: string)
    requires IsSha(sha) && AllowedExt(mt, ext)
    ensures BuildResource(mt, sha, ext, instance, hostPort).Ok? <==> hostPort != ""
  {
    BuiltText(mt, sha, ext, instance, hostPort);
  }

  lemma TextParses(mt: string, sha: string, ext: string, instance: string, hostPort: string)
    requires IsSha(sha) && AllowedExt(mt, ext)
    requires HostOk(hostPort) && Uri.Free(instance, {'/', '?', '@'})
    ensures var r := Uri.Parse(UriText(mt, sha, ext, instance, hostPort));
            && r.Ok? && r.value.segments == ["resources", mt, sha + "." + ext]
            && r.value.org == EnvOf(instance) && r.value.host == Before(hostPort, ':')
  {
    var segments := ["resources", mt, sha + "." + ext];
    var a, path := Uri.BuildAuthority(Some(instance), hostPort, None), Join(segments, '/');
    AuthorityOf(instance, hostPort);
    PathOf(mt, sha, ext);
    Uri.PathRoundTrip(segments);
    Uri.PartsParse(a, path, Uri.ParseAuthority(a).value, segments);
  }

  /** The URI of a stored file parses back to its media type, hash, extension and environment. */
  lemma ResourceRoundTrip(mt: string, sha: string, ext: string, instance: string, hostPort: string)
    requires IsSha(sha) && AllowedExt(mt, ext)
    requires HostOk(hostPort) && Uri.Free(instance, {'/', '?', '@'})
    ensures BuildResource(mt, sha, ext, instance, hostPort).Ok?
    ensures ParseResource(BuildResource(mt, sha, ext, instance, hostPort).value)
         == Ok(Parsed(mt, sha, ext, EnvOf(instance), Before(hostPort, ':')))
  {
    AuthorityOf(instance, hostPort);
    BuiltText(mt, sha, ext, instance, hostPort);
    TextParses(mt, sha, ext, instance, hostPort);
    AllowedIsPlain(mt, ext);
    NameRoundTrip(mt, sha, ext, EnvOf(instance), Before(hostPort, ':'));
  }
}
