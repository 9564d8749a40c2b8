/**
 The content-addressed media store.  A store call hashes its source, copies it to a
 temporary file of its own, renames that into place and appends one line to the refs file
 of the hash; other calls, and writers of the source files, may run between any two steps.
 SHA-256 is the parameter h.
 */
module Media {
  import opened Prelude
  import opened Strings
  import Uri
  import Resource

  newtype Byte = x: int | 0 <= x < 256
  type Bytes = seq<Byte>

  const CHUNK := 65536

  /** The extension allowlist of the store module. */
  predicate Validates(mt: string, ext: string) {
    (mt == "image" && ext in {"png", "jpg", "jpeg", "gif", "webp", "heic"}) ||
    (mt == "file" && ext in {"bin", "pdf", "doc", "docx", "xls", "xlsx", "zip", "txt", "md", "csv"}) ||
    (mt == "audio" && ext in {"opus", "mp3", "wav", "m4a", "aac"})
  }

  lemma AllowlistsAgree(mt: string, ext: string)
    ensures Validates(mt, ext) <==> Resource.AllowedExt(mt, ext)
  {
  }

  /** The file resources/<mediaType>/<sha>.<ext> under the home of the local instance. */
  datatype Dest = Dest(mediaType: string, sha: string, ext: string)
  /** The file resources/<mediaType>/<sha>.refs.jsonl. */
  datatype Refs = Refs(mediaType: string, sha: string)

  function NextChunk(content: Bytes, done: nat): Bytes {
    if done >= |content| then [] else if done + CHUNK <= |content| then content[done..done + CHUNK] else content[done..]
  }

  lemma ChunkExtends(content: Bytes, read: Bytes)
    requires read <= content
    ensures read + NextChunk(content, |read|) <= content
    ensures NextChunk(content, |read|) == [] <==> read == content
  {
  }

  // ----- interleaved store calls -----

  datatype Phase =
    | Hashing(read: Bytes)
    | Checking(sha: string)
    | Copying(sha: string)
    | Renaming(sha: string)
    | Appending(sha: string)
    | Finished(sha: string)

  datatype Task = Task(src: string, mediaType: string, ext: string, line: string, phase: Phase)

  /** A completed append: by whom, to which file, which line. */
  datatype Append = Append(id: nat, file: Refs, line: string)

  datatype Store = Store(
    sources: map<string, Bytes>,
    files: map<Dest, Bytes>,
    tmps: map<nat, Bytes>,       // temporary files, named by the call that owns them
    refs: map<Refs, seq<string>>,
    tasks: map<nat, Task>,
    appends: seq<Append>)        // history

  datatype Action =
    | Begin(id: nat, src: string, mediaType: string, ext: string, line: string)
    | Hash(id: nat)
    | Check(id: nat)
    | Copy(id: nat)
    | Rename(id: nat)
    | AppendRef(id: nat)
    | Crash(id: nat)
    | WriteSource(path: string, content: Bytes)

  function Init(sources: map<string, Bytes>): Store {
    Store(sources, map[], map[], map[], map[], [])
  }

  function Goto(s: Store, id: nat, p: Phase): map<nat, Task>
    requires id in s.tasks
  {
    s.tasks[id := s.tasks[id].(phase := p)]
  }

  function DoBegin(s: Store, id: nat, src: string, mt: string, ext: string, line: string): Store {
    if id !in s.tasks && src in s.sources && Validates(mt, ext)
    then s.(tasks := s.tasks[id := Task(src, mt, ext, line, Hashing([]))]) else s
  }

  function DoHash(h: Bytes -> string, s: Store, id: nat): Store {
    if id in s.tasks && s.tasks[id].phase.Hashing? && s.tasks[id].src in s.sources then
      var read, chunk := s.tasks[id].phase.read, NextChunk(s.sources[s.tasks[id].src], |s.tasks[id].phase.read|);
      s.(tasks := Goto(s, id, if chunk == [] then Checking(h(read)) else Hashing(read + chunk)))
    else s
  }

  function DoCheck(s: Store, id: nat): Store {
    if id in s.tasks && s.tasks[id].phase.Checking? then
      var t := s.tasks[id];
      if Dest(t.mediaType, t.phase.sha, t.ext) in s.files then s.(tasks := Goto(s, id, Appending(t.phase.sha)))
      else s.(tmps := s.tmps[id := []], tasks := Goto(s, id, Copying(t.phase.sha)))
    else s
  }

  function DoCopy(s: Store, id: nat): Store {
    if id in s.tasks && s.tasks[id].phase.Copying? && id in s.tmps && s.tasks[id].src in s.sources then
      var chunk := NextChunk(s.sources[s.tasks[id].src], |s.tmps[id]|);
      if chunk == [] then s.(tasks := Goto(s, id, Renaming(s.tasks[id].phase.sha)))
      else s.(tmps := s.tmps[id := s.tmps[id] + chunk])
    else s
  }

  function DoRename(s: Store, id: nat): Store {
    if id in s.tasks && s.tasks[id].phase.Renaming? && id in s.tmps then
      var t := s.tasks[id];
      s.(files := s.files[Dest(t.mediaType, t.phase.sha, t.ext) := s.tmps[id]], tmps := s.tmps - {id},
         tasks := Goto(s, id, Appending(t.phase.sha)))
    else s
  }

  function Lines(refs: map<Refs, seq<string>>, f: Refs): seq<string> {
    if f in refs then refs[f] else []
  }

  function DoAppend(s: Store, id: nat): Store {
    if id in s.tasks && s.tasks[id].phase.Appending? then
      var t := s.tasks[id];
      var f := Refs(t.mediaType, t.phase.sha);
      s.(refs := s.refs[f := Lines(s.refs, f) + [t.line]], appends := s.appends + [Append(id, f, t.line)],
         tasks := Goto(s, id, Finished(t.phase.sha)))
    else s
  }

  function Step(h: Bytes -> string, s: Store, a: Action): Store {
    match a
    case Begin(id, src, mt, ext, line) => DoBegin(s, id, src, mt, ext, line)
    case Hash(id) => DoHash(h, s, id)
    case Check(id) => DoCheck(s, id)
    case Copy(id) => DoCopy(s, id)
    case Rename(id) => DoRename(s, id)
    case AppendRef(id) => DoAppend(s, id)
    case Crash(id) => if id in s.tasks && !s.tasks[id].phase.Finished? then s.(tasks := s.tasks - {id}) else s
    case WriteSource(path, content) => s.(sources := s.sources[path := content])
  }

  function Run(h: Bytes -> string, s: Store, acts: seq<Action>): Store
    decreases |acts|
  {
    if acts == [] then s else Run(h, Step(h, s, acts[0]), acts[1..])
  }

  // ----- every visible file is named by its own hash -----

  /** The call still needs its source as it is. */
  ghost predicate Reading(p: Phase) {
    p.Hashing? || p.Checking? || p.Copying?
  }

  ghost predicate Untouched(s: Store, a: Action) {
    a.WriteSource? ==> forall id :: id in s.tasks && Reading(s.tasks[id].phase) ==> s.tasks[id].src != a.path
  }

  ghost predicate SourcesStable(h: Bytes -> string, s: Store, acts: seq<Action>)
    decreases |acts|
  {
    acts == [] || (Untouched(s, acts[0]) && SourcesStable(h, Step(h, s, acts[0]), acts[1..]))
  }

  ghost predicate Honest(h: Bytes -> string, files: map<Dest, Bytes>) {
    forall d :: d in files ==> h(files[d]) == d.sha
  }

  ghost predicate TaskOk(h: Bytes -> string, id: nat, t: Task, sources: map<string, Bytes>, tmps: map<nat, Bytes>) {
    match t.phase
    case Hashing(read) => t.src in sources && read <= sources[t.src]
    case Checking(sha) => t.src in sources && h(sources[t.src]) == sha
    case Copying(sha) => t.src in sources && h(sources[t.src]) == sha && id in tmps && tmps[id] <= sources[t.src]
    case Renaming(sha) => id in tmps && h(tmps[id]) == sha
    case _ => true
  }

  ghost predicate TasksOk(h: Bytes -> string, tasks: map<nat, Task>, sources: map<string, Bytes>, tmps: map<nat, Bytes>) {
    forall id :: id in tasks ==> TaskOk(h, id, tasks[id], sources, tmps)
  }

  ghost predicate Safe(h: Bytes -> string, s: Store) {
    Honest(h, s.files) && TasksOk(h, s.tasks, s.sources, s.tmps)
  }

  /** A step of call id touches no temporary file but its own. */
  lemma OneTaskMoves(h: Bytes -> string, s: Store, id: nat, t: Task, tmps: map<nat, Bytes>)
    requires TasksOk(h, s.tasks, s.sources, s.tmps) && TaskOk(h, id, t, s.sources, tmps)
    requires forall i :: i != id && i in s.tmps ==> i in tmps && tmps[i] == s.tmps[i]
    ensures TasksOk(h, s.tasks[id := t], s.sources, tmps)
  {
  }

  lemma HashIsSafe(h: Bytes -> string, s: Store, id: nat)
    requires Safe(h, s)
    ensures Safe(h, DoHash(h, s, id))
  {
    if id in s.tasks && s.tasks[id].phase.Hashing? {
      assert TaskOk(h, id, s.tasks[id], s.sources, s.tmps);
      ChunkExtends(s.sources[s.tasks[id].src], s.tasks[id].phase.read);
      OneTaskMoves(h, s, id, DoHash(h, s, id).tasks[id], s.tmps);
    }
  }

  lemma CheckIsSafe(h: Bytes -> string, s: Store, id: nat)
    requires Safe(h, s)
    ensures Safe(h, DoCheck(s, id))
  {
    if id in s.tasks && s.tasks[id].phase.Checking? {
      assert TaskOk(h, id, s.tasks[id], s.sources, s.tmps);
      var d := DoCheck(s, id);
      OneTaskMoves(h, s, id, d.tasks[id], d.tmps);
    }
  }

  lemma CopyIsSafe(h: Bytes -> string, s: Store, id: nat)
    requires Safe(h, s)
    ensures Safe(h, DoCopy(s, id))
  {
    if id in s.tasks && s.tasks[id].phase.Copying? {
      assert TaskOk(h, id, s.tasks[id], s.sources, s.tmps);
      ChunkExtends(s.sources[s.tasks[id].src], s.tmps[id]);
      var d := DoCopy(s, id);
      assert s.tasks[id := s.tasks[id]] == s.tasks;
      OneTaskMoves(h, s, id, d.tasks[id], d.tmps);
    }
  }

  lemma RenameIsSafe(h: Bytes -> string, s: Store, id: nat)
    requires Safe(h, s)
    ensures Safe(h, DoRename(s, id))
  {
  }

  lemma StepKeepsSafe(h: Bytes -> string, s: Store, a: Action)
    requires Safe(h, s) && Untouched(s, a)
    ensures Safe(h, Step(h, s, a))
  {
    match a
    case Begin(id, src, mt, ext, line) =>
    case Hash(id) => HashIsSafe(h, s, id);
    case Check(id) => CheckIsSafe(h, s, id);
    case Copy(id) => CopyIsSafe(h, s, id);
    case Rename(id) => RenameIsSafe(h, s, id);
    case AppendRef(id) =>
    case Crash(id) =>
    case WriteSource(path, content) => WriteIsSafe(h, s, path, content);
  }

  lemma WriteIsSafe(h: Bytes -> string, s: Store, path: string, content: Bytes)
    requires Safe(h, s) && Untouched(s, WriteSource(path, content))
    ensures TasksOk(h, s.tasks, s.sources[path := content], s.tmps)
  {
  }

  lemma {:induction false} RunKeepsSafe(h: Bytes -> string, s: Store, acts: seq<Action>)
    requires Safe(h, s) && SourcesStable(h, s, acts)
    ensures Safe(h, Run(h, s, acts))
    decreases |acts|
  {
    if acts != [] {
      StepKeepsSafe(h, s, acts[0]);
      RunKeepsSafe(h, Step(h, s, acts[0]), acts[1..]);
    }
  }

  /** Any number of store calls, interleaved in any way, over sources left alone while they are read. */
  lemma FilesStayHonest(h: Bytes -> string, sources: map<string, Bytes>, acts: seq<Action>)
    requires SourcesStable(h, Init(sources), acts)
    ensures Honest(h, Run(h, Init(sources), acts).files)
  {
    RunKeepsSafe(h, Init(sources), acts);
  }

  // ----- temporary files -----

  /** Every temporary file belongs to a call that is copying or about to rename it. */
  ghost predicate TmpsInUse(tmps: map<nat, Bytes>, tasks: map<nat, Task>) {
    forall id :: id in tmps ==> id in tasks && (tasks[id].phase.Copying? || tasks[id].phase.Renaming?)
  }

  lemma StepKeepsTmps(h: Bytes -> string, s: Store, a: Action)
    requires TmpsInUse(s.tmps, s.tasks) && !a.Crash?
    ensures TmpsInUse(Step(h, s, a).tmps, Step(h, s, a).tasks)
  {
    match a
    case Hash(id) => assert DoHash(h, s, id).tmps == s.tmps;
    case Check(id) => CheckKeepsTmps(s, id);
    case _ =>
  }

  lemma CheckKeepsTmps(s: Store, id: nat)
    requires TmpsInUse(s.tmps, s.tasks)
    ensures TmpsInUse(DoCheck(s, id).tmps, DoCheck(s, id).tasks)
  {
  }

  /** Unless calls crash, no temporary file outlives its call, whatever the interleaving. */
  lemma {:induction false} NoTmpIsLeft(h: Bytes -> string, s: Store, acts: seq<Action>)
    requires TmpsInUse(s.tmps, s.tasks) && forall i :: 0 <= i < |acts| ==> !acts[i].Crash?
    ensures TmpsInUse(Run(h, s, acts).tmps, Run(h, s, acts).tasks)
    decreases |acts|
  {
    if acts != [] {
      StepKeepsTmps(h, s, acts[0]);
      NoTmpIsLeft(h, Step(h, s, acts[0]), acts[1..]);
    }
  }

  // ----- one line per completed append -----

  ghost function LinesOf(appends: seq<Append>, f: Refs): seq<string> {
    if appends == [] then []
    else
      var a := appends[|appends| - 1];
      LinesOf(appends[..|appends| - 1], f) + (if a.file == f then [a.line] else [])
  }

  ghost function Authors(appends: seq<Append>): set<nat> {
    set a | a in appends :: a.id
  }

  /** The call that made append a has finished, and a is what that call had to append. */
  ghost predicate MadeBy(a: Append, tasks: map<nat, Task>) {
    a.id in tasks && tasks[a.id].phase.Finished?
    && a.file == Refs(tasks[a.id].mediaType, tasks[a.id].phase.sha) && a.line == tasks[a.id].line
  }

  /** Each call appended exactly one line if it has finished and none otherwise. */
  ghost predicate AppendsExact(appends: seq<Append>, tasks: map<nat, Task>) {
    (forall i, j :: 0 <= i < j < |appends| ==> appends[i].id != appends[j].id) &&
    (forall a :: a in appends ==> MadeBy(a, tasks)) &&
    (forall id :: id in tasks && tasks[id].phase.Finished? ==> id in Authors(appends))
  }

  /** Each refs file holds the lines appended to it, in order. */
  ghost predicate RefsExact(s: Store) {
    (forall f :: Lines(s.refs, f) == LinesOf(s.appends, f)) && AppendsExact(s.appends, s.tasks)
  }

  lemma LineAppends(refs: map<Refs, seq<string>>, appends: seq<Append>, a: Append, f: Refs)
    requires Lines(refs, f) == LinesOf(appends, f) && Lines(refs, a.file) == LinesOf(appends, a.file)
    ensures Lines(refs[a.file := Lines(refs, a.file) + [a.line]], f) == LinesOf(appends + [a], f)
  {
  }

  lemma AuthorAppends(appends: seq<Append>, tasks: map<nat, Task>, a: Append, t: Task)
    requires AppendsExact(appends, tasks)
    requires a.id in tasks && !tasks[a.id].phase.Finished? && MadeBy(a, tasks[a.id := t])
    ensures AppendsExact(appends + [a], tasks[a.id := t])
  {
    assert forall x :: x in appends + [a] <==> x in appends || x == a;
    assert Authors(appends + [a]) == Authors(appends) + {a.id};
    assert forall x :: x in appends ==> x.id != a.id;
  }

  lemma AppendIsExact(s: Store, id: nat)
    requires RefsExact(s)
    ensures RefsExact(DoAppend(s, id))
  {
    if id in s.tasks && s.tasks[id].phase.Appending? {
      var t, d := s.tasks[id], DoAppend(s, id);
      var a := Append(id, Refs(t.mediaType, t.phase.sha), t.line);
      forall f ensures Lines(d.refs, f) == LinesOf(d.appends, f) {
        LineAppends(s.refs, s.appends, a, f);
      }
      AuthorAppends(s.appends, s.tasks, a, d.tasks[id]);
    }
  }

  /** Nothing was appended, and the finished calls are the same. */
  ghost predicate SameFinished(s: Store, d: Store) {
    && d.refs == s.refs && d.appends == s.appends
    && (forall id :: id in s.tasks && s.tasks[id].phase.Finished? ==> id in d.tasks && d.tasks[id] == s.tasks[id])
    && (forall id :: id in d.tasks && d.tasks[id].phase.Finished? ==> id in s.tasks && s.tasks[id] == d.tasks[id])
  }

  lemma MoveSame(s: Store, id: nat, t: Task, d: Store)
    requires id in s.tasks && !s.tasks[id].phase.Finished? && !t.phase.Finished?
    requires d.tasks == s.tasks[id := t] && d.refs == s.refs && d.appends == s.appends
    ensures SameFinished(s, d)
  {
  }

  lemma HashSame(h: Bytes -> string, s: Store, id: nat)
    ensures SameFinished(s, DoHash(h, s, id))
  {
  }

  lemma CheckSame(s: Store, id: nat)
    ensures SameFinished(s, DoCheck(s, id))
  {
    var d := DoCheck(s, id);
    if d != s {
      MoveSame(s, id, d.tasks[id], d);
    }
  }

  lemma RenameSame(s: Store, id: nat)
    ensures SameFinished(s, DoRename(s, id))
  {
  }

  lemma OtherSteps(h: Bytes -> string, s: Store, a: Action)
    requires !a.AppendRef?
    ensures SameFinished(s, Step(h, s, a))
  {
    match a
    case Hash(id) => HashSame(h, s, id);
    case Check(id) => CheckSame(s, id);
    case Rename(id) => RenameSame(s, id);
    case _ =>
  }

  lemma RestIsExact(s: Store, d: Store)
    requires RefsExact(s) && SameFinished(s, d)
    ensures RefsExact(d)
  {
  }

  lemma StepIsExact(h: Bytes -> string, s: Store, a: Action)
    requires RefsExact(s)
    ensures RefsExact(Step(h, s, a))
  {
    if a.AppendRef? {
      AppendIsExact(s, a.id);
    } else {
      OtherSteps(h, s, a);
      RestIsExact(s, Step(h, s, a));
    }
  }

  /** In every interleaving, with crashes and rewritten sources, no ref line is lost or written twice. */
  lemma {:induction false} RefsStayExact(h: Bytes -> string, s: Store, acts: seq<Action>)
    requires RefsExact(s)
    ensures RefsExact(Run(h, s, acts))
    decreases |acts|
  {
    if acts != [] {
      StepIsExact(h, s, acts[0]);
      RefsStayExact(h, Step(h, s, acts[0]), acts[1..]);
    }
  }

  // ----- one call on its own -----

  /** Hash steps of call id until the source is read. */
  ghost function HashAll(h: Bytes -> string, s: Store, id: nat): Store
    requires id in s.tasks && s.tasks[id].phase.Hashing? && s.tasks[id].src in s.sources
    decreases |s.sources[s.tasks[id].src]| - |s.tasks[id].phase.read|
  {
    if NextChunk(s.sources[s.tasks[id].src], |s.tasks[id].phase.read|) == [] then DoHash(h, s, id)
    else HashAll(h, DoHash(h, s, id), id)
  }

  /** Copy steps of call id until the temporary file is whole. */
  ghost function CopyAll(s: Store, id: nat): Store
    requires id in s.tasks && s.tasks[id].phase.Copying? && id in s.tmps && s.tasks[id].src in s.sources
    decreases |s.sources[s.tasks[id].src]| - |s.tmps[id]|
  {
    if NextChunk(s.sources[s.tasks[id].src], |s.tmps[id]|) == [] then DoCopy(s, id) else CopyAll(DoCopy(s, id), id)
  }

  lemma {:induction false} HashAllReads(h: Bytes -> string, s: Store, id: nat, t: Task, content: Bytes)
    requires id in s.tasks && s.tasks[id] == t && t.phase.Hashing? && t.src in s.sources && s.sources[t.src] == content
    requires t.phase.read <= content
    ensures HashAll(h, s, id) == s.(tasks := s.tasks[id := t.(phase := Checking(h(content)))])
    decreases |content| - |t.phase.read|
  {
    ChunkExtends(content, t.phase.read);
    var chunk := NextChunk(content, |t.phase.read|);
    if chunk != [] {
      var t1 := t.(phase := Hashing(t.phase.read + chunk));
      var d := DoHash(h, s, id);
      assert d == s.(tasks := s.tasks[id := t1]);
      HashAllReads(h, d, id, t1, content);
      assert d.tasks[id := t.(phase := Checking(h(content)))] == s.tasks[id := t.(phase := Checking(h(content)))];
    }
  }

  lemma {:induction false} CopyAllWrites(s: Store, id: nat, t: Task, content: Bytes)
    requires id in s.tasks && s.tasks[id] == t && t.phase.Copying? && t.src in s.sources && s.sources[t.src] == content
    requires id in s.tmps && s.tmps[id] <= content
    ensures CopyAll(s, id) == s.(tmps := s.tmps[id := content], tasks := s.tasks[id := t.(phase := Renaming(t.phase.sha))])
    decreases |content| - |s.tmps[id]|
  {
    ChunkExtends(content, s.tmps[id]);
    var chunk := NextChunk(content, |s.tmps[id]|);
    if chunk == [] {
      assert s.tmps[id := content] == s.tmps;
    } else {
      var d := DoCopy(s, id);
      CopyAllWrites(d, id, t, content);
      assert d.tmps[id := content] == s.tmps[id := content];
    }
  }

  /** Call id from its begin to its append, with nothing in between. */
  ghost function Alone(h: Bytes -> string, s: Store, id: nat): Store
    requires id in s.tasks && s.tasks[id].phase.Hashing? && s.tasks[id].src in s.sources
  {
    AfterHash(HashAll(h, s, id), id)
  }

  ghost function AfterHash(s: Store, id: nat): Store {
    var c := DoCheck(s, id);
    var d := if id in c.tasks && c.tasks[id].phase.Copying? && id in c.tmps && c.tasks[id].src in c.sources
             then DoRename(CopyAll(c, id), id) else c;
    DoAppend(d, id)
  }

  /** Run on its own, a call has the effect of the sequential store: the file if it was absent, and one ref line. */
  lemma AloneStores(h: Bytes -> string, s: Store, id: nat, src: string, mt: string, ext: string, line: string)
    requires id !in s.tasks && src in s.sources && Validates(mt, ext)
    ensures var e := Alone(h, DoBegin(s, id, src, mt, ext, line), id);
            var d := Dest(mt, h(s.sources[src]), ext);
            var f := Refs(mt, d.sha);
            && e.files == (if d in s.files then s.files else s.files[d := s.sources[src]])
            && e.refs == s.refs[f := Lines(s.refs, f) + [line]]
            && id in e.tasks && e.tasks[id].phase == Finished(d.sha)
  {
    var content, b := s.sources[src], DoBegin(s, id, src, mt, ext, line);
    HashAllReads(h, b, id, b.tasks[id], content);
    AfterHashStores(HashAll(h, b, id), id, h(content), content);
  }

  lemma AfterHashStores(s: Store, id: nat, sha: string, content: Bytes)
    requires id in s.tasks && s.tasks[id].phase == Checking(sha)
    requires s.tasks[id].src in s.sources && s.sources[s.tasks[id].src] == content
    ensures var t, e := s.tasks[id], AfterHash(s, id);
            var d, f := Dest(t.mediaType, sha, t.ext), Refs(t.mediaType, sha);
            && e.files == (if d in s.files then s.files else s.files[d := content])
            && e.refs == s.refs[f := Lines(s.refs, f) + [t.line]]
            && id in e.tasks && e.tasks[id].phase == Finished(sha)
  {
    if Dest(s.tasks[id].mediaType, sha, s.tasks[id].ext) !in s.files {
      CopiesAndRenames(s, id, sha, content);
    }
  }

  lemma {:induction false} RunConcat(h: Bytes -> string, s: Store, a: seq<Action>, b: seq<Action>)
    ensures Run(h, s, a + b) == Run(h, Run(h, s, a), b)
    decreases |a|
  {
    if a == [] {
      assert a + b == b;
    } else {
      assert (a + b)[1..] == a[1..] + b;
      RunConcat(h, Step(h, s, a[0]), a[1..], b);
    }
  }

  lemma OneStep(h: Bytes -> string, s: Store, a: Action)
    ensures Run(h, s, [a]) == Step(h, s, a)
  {
    assert [a][1..] == [];
  }

  lemma {:induction false} HashAllRuns(h: Bytes -> string, s: Store, id: nat) returns (acts: seq<Action>)
    requires id in s.tasks && s.tasks[id].phase.Hashing? && s.tasks[id].src in s.sources
    ensures Run(h, s, acts) == HashAll(h, s, id)
    decreases |s.sources[s.tasks[id].src]| - |s.tasks[id].phase.read|
  {
    acts := [Hash(id)];
    OneStep(h, s, Hash(id));
    if NextChunk(s.sources[s.tasks[id].src], |s.tasks[id].phase.read|) != [] {
      var rest := HashAllRuns(h, DoHash(h, s, id), id);
      RunConcat(h, s, acts, rest);
      acts := acts + rest;
    }
  }

  lemma {:induction false} CopyAllRuns(h: Bytes -> string, s: Store, id: nat) returns (acts: seq<Action>)
    requires id in s.tasks && s.tasks[id].phase.Copying? && id in s.tmps && s.tasks[id].src in s.sources
    ensures Run(h, s, acts) == CopyAll(s, id)
    decreases |s.sources[s.tasks[id].src]| - |s.tmps[id]|
  {
    acts := [Copy(id)];
    OneStep(h, s, Copy(id));
    if NextChunk(s.sources[s.tasks[id].src], |s.tmps[id]|) != [] {
      var rest := CopyAllRuns(h, DoCopy(s, id), id);
      RunConcat(h, s, acts, rest);
      acts := acts + rest;
    }
  }

  lemma AfterHashRuns(h: Bytes -> string, s: Store, id: nat) returns (acts: seq<Action>)
    ensures Run(h, s, acts) == AfterHash(s, id)
  {
    var c := DoCheck(s, id);
    OneStep(h, s, Check(id));
    acts := [Check(id)];
    if id in c.tasks && c.tasks[id].phase.Copying? && id in c.tmps && c.tasks[id].src in c.sources {
      var copies := CopyAllRuns(h, c, id);
      RunConcat(h, s, acts, copies);
      OneStep(h, CopyAll(c, id), Rename(id));
      RunConcat(h, s, acts + copies, [Rename(id)]);
      acts := acts + copies + [Rename(id)];
    }
    OneStep(h, Run(h, s, acts), AppendRef(id));
    RunConcat(h, s, acts, [AppendRef(id)]);
    acts := acts + [AppendRef(id)];
  }

  /** So every store call can finish: some run from its begin stores the file if it was absent and adds its ref line. */
  lemma StoreCanFinish(h: Bytes -> string, s: Store, id: nat, src: string, mt: string, ext: string, line: string)
    returns (acts: seq<Action>)
    requires id !in s.tasks && src in s.sources && Validates(mt, ext)
    ensures var e, d := Run(h, s, acts), Dest(mt, h(s.sources[src]), ext);
            && e.files == (if d in s.files then s.files else s.files[d := s.sources[src]])
            && e.refs == s.refs[Refs(mt, d.sha) := Lines(s.refs, Refs(mt, d.sha)) + [line]]
            && id in e.tasks && e.tasks[id].phase == Finished(d.sha)
  {
    var b := DoBegin(s, id, src, mt, ext, line);
    var hashes := HashAllRuns(h, b, id);
    var rest := AfterHashRuns(h, HashAll(h, b, id), id);
    RunConcat(h, b, hashes, rest);
    OneStep(h, s, Begin(id, src, mt, ext, line));
    RunConcat(h, s, [Begin(id, src, mt, ext, line)], hashes + rest);
    acts := [Begin(id, src, mt, ext, line)] + (hashes + rest);
    AloneStores(h, s, id, src, mt, ext, line);
  }

  // ----- a source rewritten between its hash and its copy -----

  /** Nobody writes the source src and call id does not crash. */
  ghost predicate KeepsSource(acts: seq<Action>, src: string, id: nat) {
    forall i :: 0 <= i < |acts| ==> acts[i] != Crash(id) && (acts[i].WriteSource? ==> acts[i].path != src)
  }

  /** Call id, named sha by its hash, has still to copy content or is done copying it. */
  ghost predicate Copies(s: Store, id: nat, t: Task, sha: string, content: Bytes) {
    && id in s.tasks && s.tasks[id] == t.(phase := s.tasks[id].phase)
    && t.src in s.sources && s.sources[t.src] == content
    && match s.tasks[id].phase
       case Checking(x) => x == sha
       case Copying(x) => x == sha && id in s.tmps && s.tmps[id] <= content
       case Renaming(x) => x == sha && id in s.tmps && s.tmps[id] == content
       case Appending(_) => true
       case Finished(_) => true
       case _ => false
  }

  lemma StepCopies(h: Bytes -> string, s: Store, a: Action, id: nat, t: Task, sha: string, content: Bytes)
    requires Copies(s, id, t, sha, content) && a != Crash(id) && (a.WriteSource? ==> a.path != t.src)
    ensures Copies(Step(h, s, a), id, t, sha, content)
  {
    if a == Copy(id) && s.tasks[id].phase.Copying? {
      ChunkExtends(content, s.tmps[id]);
    }
  }

  lemma {:induction false} RunCopies(h: Bytes -> string, s: Store, acts: seq<Action>, id: nat, t: Task, sha: string,
                                     content: Bytes)
    requires Copies(s, id, t, sha, content) && KeepsSource(acts, t.src, id)
    ensures Copies(Run(h, s, acts), id, t, sha, content)
    decreases |acts|
  {
    if acts != [] {
      StepCopies(h, s, acts[0], id, t, sha, content);
      RunCopies(h, Step(h, s, acts[0]), acts[1..], id, t, sha, content);
    }
  }

  /**
   A call has its hash, and from then on its source is left alone.  However the other calls
   interleave, its rename keeps every file honest if and only if the source, as it was after
   the hash, still hashes to the name.
   */
  lemma RenameIsHonestIff(h: Bytes -> string, s: Store, id: nat, sha: string, acts: seq<Action>, e: Store)
    requires id in s.tasks && s.tasks[id].phase == Checking(sha) && s.tasks[id].src in s.sources
    requires KeepsSource(acts, s.tasks[id].src, id) && e == Run(h, s, acts)
    requires Honest(h, e.files) && id in e.tasks && e.tasks[id].phase.Renaming?
    ensures Honest(h, DoRename(e, id).files) <==> h(s.sources[s.tasks[id].src]) == sha
  {
    var t, content := s.tasks[id], s.sources[s.tasks[id].src];
    RunCopies(h, s, acts, id, t, sha, content);
    StoringIsHonestIff(h, e.files, Dest(t.mediaType, sha, t.ext), content);
  }

  /**
   Any store, any call about to hash its source, any new content: the source is rewritten
   after the hash and copied as it then is.  The file this leaves has an honest name if and
   only if the new content has the hash of the old one.
   */
  lemma RewrittenSourceLies(h: Bytes -> string, s: Store, id: nat, content: Bytes)
    requires Honest(h, s.files) && id in s.tasks && s.tasks[id].phase == Hashing([]) && s.tasks[id].src in s.sources
    requires Dest(s.tasks[id].mediaType, h(s.sources[s.tasks[id].src]), s.tasks[id].ext) !in s.files
    ensures var t := s.tasks[id];
            var c := DoCheck(Step(h, HashAll(h, s, id), WriteSource(t.src, content)), id);
            && id in c.tasks && c.tasks[id].phase.Copying? && id in c.tmps && t.src in c.sources && c.tasks[id].src == t.src
            && (Honest(h, DoRename(CopyAll(c, id), id).files) <==> h(content) == h(s.sources[t.src]))
  {
    var t, sha := s.tasks[id], h(s.sources[s.tasks[id].src]);
    HashAllReads(h, s, id, t, s.sources[t.src]);
    var w := Step(h, HashAll(h, s, id), WriteSource(t.src, content));
    CopiesAndRenames(w, id, sha, content);
    StoringIsHonestIff(h, s.files, Dest(t.mediaType, sha, t.ext), content);
  }

  lemma StoringIsHonestIff(h: Bytes -> string, files: map<Dest, Bytes>, d: Dest, content: Bytes)
    requires Honest(h, files)
    ensures Honest(h, files[d := content]) <==> h(content) == d.sha
  {
    assert files[d := content][d] == content;
  }

  /** Check, copy and rename of a call whose file is absent store the source as it is. */
  lemma CopiesAndRenames(s: Store, id: nat, sha: string, content: Bytes)
    requires id in s.tasks && s.tasks[id].phase == Checking(sha)
    requires s.tasks[id].src in s.sources && s.sources[s.tasks[id].src] == content
    requires Dest(s.tasks[id].mediaType, sha, s.tasks[id].ext) !in s.files
    ensures var c := DoCheck(s, id);
            && id in c.tasks && c.tasks[id] == s.tasks[id].(phase := Copying(sha)) && id in c.tmps && c.sources == s.sources
            && DoRename(CopyAll(c, id), id).files
               == s.files[Dest(s.tasks[id].mediaType, sha, s.tasks[id].ext) := content]
            && DoRename(CopyAll(c, id), id).tasks == s.tasks[id := s.tasks[id].(phase := Appending(sha))]
            && DoRename(CopyAll(c, id), id).refs == s.refs
  {
    var c := DoCheck(s, id);
    CopyAllWrites(c, id, c.tasks[id], content);
  }

  // ----- resolve, and one store call run to its end -----

  datatype Fault = SourceNotFound | UnsupportedExt | InvalidUri(e: Resource.Error) | WrongEnv | NotFound

  function Resolve(uri: string, instance: string, present: set<Dest>): Result<Dest, Fault> {
    match Resource.ParseResource(uri)
    case Err(e) => Err(InvalidUri(e))
    case Ok(p) =>
      if p.env.Some? && p.env.value != instance then Err(WrongEnv)
      else if Dest(p.mediaType, p.sha, p.ext) !in present then Err(NotFound)
      else Ok(Dest(p.mediaType, p.sha, p.ext))
  }

  datatype Stored = Stored(uri: string, sha: string, path: Dest)

  function LeftStripDots(s: string): string {
    if s != "" && s[0] == '.' then LeftStripDots(s[1..]) else s
  }

  /** The extension of a path suffix such as ".PNG"; a path without one counts as bin. */
  function ExtOf(suffix: string): string {
    var e := Lower(LeftStripDots(suffix));
    if e == "" then "bin" else e
  }

  /** A suffix is one dot and its extension, in any case; no suffix counts as bin. */
  lemma SuffixIsRead(ext: string)
    requires ext != "" && ext[0] != '.'
    ensures ExtOf("." + ext) == Lower(ext) && ExtOf("") == "bin"
  {
    assert ("." + ext)[1..] == ext;
    assert LeftStripDots("." + ext) == LeftStripDots(ext) == ext;
    assert |Lower(ext)| == |ext| && Lower("") == "" && LeftStripDots("") == "";
  }

  /** The URI a store returns resolves to the file it stored, in the same instance. */
  lemma StoredResolves(instance: string, hostPort: string, d: Dest, present: set<Dest>)
    requires Resource.IsSha(d.sha) && Validates(d.mediaType, d.ext) && d in present
    requires Resource.HostOk(hostPort) && Uri.Free(instance, {'/', '?', '@'})
    ensures var u := Resource.BuildResource(d.mediaType, d.sha, d.ext, instance, hostPort);
            u.Ok? && Resolve(u.value, instance, present) == Ok(d)
  {
    Resource.ResourceRoundTrip(d.mediaType, d.sha, d.ext, instance, hostPort);
  }

  /** A URI of another instance is refused, and one of this instance resolves exactly when its file is there. */
  lemma ResolveRefuses(instance: string, local: string, hostPort: string, d: Dest, present: set<Dest>)
    requires Resource.IsSha(d.sha) && Validates(d.mediaType, d.ext)
    requires Resource.HostOk(hostPort) && Uri.Free(instance, {'/', '?', '@'})
    ensures var u := Resource.BuildResource(d.mediaType, d.sha, d.ext, instance, hostPort);
            && u.Ok?
            && (instance != "" && instance != local ==> Resolve(u.value, local, present) == Err(WrongEnv))
            && (instance == "" || instance == local ==>
                  Resolve(u.value, local, present) == if d in present then Ok(d) else Err(NotFound))
  {
    Resource.ResourceRoundTrip(d.mediaType, d.sha, d.ext, instance, hostPort);
    ParsedResolves(Resource.BuildResource(d.mediaType, d.sha, d.ext, instance, hostPort).value, d,
                   Resource.EnvOf(instance), local, present);
  }

  lemma ParsedResolves(uri: string, d: Dest, env: Option<string>, local: string, present: set<Dest>)
    requires var r := Resource.ParseResource(uri);
             r.Ok? && r.value.mediaType == d.mediaType && r.value.sha == d.sha && r.value.ext == d.ext && r.value.env == env
    ensures Resolve(uri, local, present)
         == if env.Some? && env.value != local then Err(WrongEnv) else if d in present then Ok(d) else Err(NotFound)
  {
  }

  /** Whatever resolves is a file that is there, of an allowed kind and named by a hash. */
  lemma ResolvesToPresent(uri: string, instance: string, present: set<Dest>)
    ensures var r := Resolve(uri, instance, present);
            r.Ok? ==> r.value in present && Validates(r.value.mediaType, r.value.ext) && Resource.ShaMatches(r.value.sha)
  {
  }

  class MediaStore {
    const instance: string
    const hostPort: string
    var files: map<Dest, Bytes>
    var refs: map<Refs, seq<string>>

    constructor (instance: string, hostPort: string)
      ensures files == map[] && refs == map[]
    {
      this.instance, this.hostPort, files, refs := instance, hostPort, map[], map[];
    }

    /**
     store() without interference.  A missing source or a pair outside the allowlist touches
     nothing.  Otherwise the file is there with an honest name, exactly one line was added to
     its refs file and nothing else changed, whether or not the URI can then be built; it
     cannot exactly when the configured host is empty, and a URI built for a well-formed
     instance and host resolves to the stored file.
     */
    method Store(h: Bytes -> string, mediaType: string, source: Option<Bytes>, suffix: string, line: string)
      returns (r: Result<Stored, Fault>)
      requires Honest(h, files) && forall b :: Resource.IsSha(h(b))
      modifies this
      ensures Honest(h, files)
      ensures source.None? ==> r == Err(SourceNotFound)
      ensures source.Some? && !Validates(mediaType, ExtOf(suffix)) ==> r == Err(UnsupportedExt)
      ensures source.None? || !Validates(mediaType, ExtOf(suffix)) ==> files == old(files) && refs == old(refs)
      ensures source.Some? && Validates(mediaType, ExtOf(suffix)) ==>
                var d := Dest(mediaType, h(source.value), ExtOf(suffix));
                var f := Refs(mediaType, d.sha);
                && d in files && files == old(files)[d := files[d]]
                && (d in old(files) ==> files == old(files)) && (d !in old(files) ==> files[d] == source.value)
                && refs == old(refs)[f := Lines(old(refs), f) + [line]]
                && (r.Ok? <==> hostPort != "")
                && (r.Ok? ==> r.value.path == d && r.value.sha == d.sha)
                && (Resource.HostOk(hostPort) && Uri.Free(instance, {'/', '?', '@'}) ==>
                      r.Ok? && Resolve(r.value.uri, instance, files.Keys) == Ok(d))
    {
      if source.None? {
        return Err(SourceNotFound);
      }
      var content, ext := source.value, ExtOf(suffix);
      if !Validates(mediaType, ext) {
        return Err(UnsupportedExt);
      }
      var hashed := ReadAll(content);
      var sha := h(hashed);
      var dest := Dest(mediaType, sha, ext);
      if dest !in files {
        var tmp := ReadAll(content);
        files := files[dest := tmp];
      }
      var f := Refs(mediaType, sha);
      refs := refs[f := Lines(refs, f) + [line]];
      Resource.BuildFailsIffNoHost(mediaType, sha, ext, instance, hostPort);
      var uri := Resource.BuildResource(mediaType, sha, ext, instance, hostPort);
      if uri.Err? {
        r := Err(InvalidUri(uri.error));
      } else {
        r := Ok(Stored(uri.value, sha, dest));
      }
      if Resource.HostOk(hostPort) && Uri.Free(instance, {'/', '?', '@'}) {
        StoredResolves(instance, hostPort, dest, files.Keys);
      }
    }
  }

  /** Reading a source to its end chunk by chunk gives its whole content. */
  method ReadAll(content: Bytes) returns (all: Bytes)
    ensures all == content
  {
    all := [];
    var chunk := NextChunk(content, 0);
    while chunk != []
      invariant all <= content && chunk == NextChunk(content, |all|)
      decreases |content| - |all|
    {
      ChunkExtends(content, all);
      all := all + chunk;
      chunk := NextChunk(content, |all|);
    }
    ChunkExtends(content, all);
  }
}
