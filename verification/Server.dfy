/**
 The service's handlers and workers, written as the source writes them, over a shared
 state.  Before each database or storage call the rest of the system may run any number
 of protocol events (`Interfere`); each call may fail, before or after taking effect.
 `trace` is the run so far, so Valid() says that the state is reachable by protocol
 events: everything in Theorems holds while these methods run concurrently.

 With `quiet` set, nothing interferes: that is a handler running alone, and the contracts
 then say everything it may have done.  Only calls of the kinds in `failing` fail: a contract
 says what follows when some kinds do not, and exactly what was done when none does.
 */
module Server {
  import opened Basics
  import opened Keys
  import opened Destinations
  import opened Protocol
  import opened Invariant
  import opened Theorems
  import opened Sizes
  import opened HandlerSpecs

  /** What a handler claims as its own while it runs. */
  datatype Claim = Call(t: string) | Open(id: string) | Fresh(x: string) | Worker

  /** Others leave my claims alone: my size check, my multipart upload, the ids I drew, my being the merge worker. */
  ghost predicate Kept(s: State, s': State, claim: Claim) {
    match claim
    case Call(t) => (t in s.checks <==> t in s'.checks) && (t in s.checks ==> s'.checks[t] == s.checks[t])
    case Open(id) => id in s.multiparts ==> id in s'.multiparts && s'.multiparts[id] == s.multiparts[id]
    case Worker => s'.running == s.running
    case Fresh(x) =>
      && (x !in s.uploads ==> x !in s'.uploads)
      && (x !in s.chunks ==> x !in s'.chunks)
      && (x !in s.videos ==> x !in s'.videos)
  }

  ghost predicate OwnKept(s: State, s': State, own: set<Claim>) {
    forall claim {:trigger Kept(s, s', claim)} | claim in own :: Kept(s, s', claim)
  }

  /** The claims an event can break: its own call, multipart upload, ids or worker role. */
  ghost function Touches(e: Event): set<Claim> {
    match e
    case CheckSize(t, _) => {Call(t)}
    case EndCheck(t) => {Call(t)}
    case CopyPart(id, _, _, _) => {Open(id)}
    case CompleteParts(id, _) => {Open(id)}
    case Abort(id) => {Open(id)}
    case TakeMerge => {Worker}
    case FinishMerge(_) => {Worker}
    case CreateUpload(u, _, cs) => {Fresh(u)} + set c | c in cs :: Fresh(c)
    case CreateVideo(v, _) => {Fresh(v)}
    case _ => {}
  }

  ghost predicate TouchesOnly(e: Event, mine: Claim -> bool) { forall c | c in Touches(e) :: mine(c) }

  /** There is always an unused id among mine. */
  ghost predicate IdsLeft(mine: Claim -> bool) {
    forall used: set<string> :: IdLeft(used, mine)
  }

  ghost predicate IdLeft(used: set<string>, mine: Claim -> bool) {
    exists x: string :: x != "" && x !in used && mine(Open(x))
  }

  /** The events at these places of the run touch only these claims.  Look(0) unfolds it. */
  ghost predicate Guaranteed(es: seq<Event>, at: set<nat>, mine: Claim -> bool) {
    forall n: nat {:trigger Look(n)} :: Look(n) ==>
      && (forall k | k in at :: k < |es| && TouchesOnly(es[k], mine))
      && IdsLeft(mine)
  }

  lemma GuaranteedOn(es: seq<Event>, at: set<nat>, mine: Claim -> bool, es': seq<Event>)
    requires Guaranteed(es, at, mine) && es <= es'
    ensures Guaranteed(es', at, mine)
  {
    assert Look(0);
  }

  lemma GuaranteedMore(es: seq<Event>, at: set<nat>, mine: Claim -> bool, e: Event)
    requires Guaranteed(es, at, mine) && TouchesOnly(e, mine)
    ensures Guaranteed(es + [e], at + {|es|}, mine)
  {
    assert Look(0);
  }

  /** An id not in use, of mine. */
  lemma DrawId(es: seq<Event>, at: set<nat>, mine: Claim -> bool, used: set<string>)
    requires Guaranteed(es, at, mine)
    ensures exists x: string :: x != "" && x !in used && mine(Open(x))
  {
    assert Look(0);
    assert IdLeft(used, mine);
  }

  /** Look(0) unfolds RunsTo; the solver is spared the whole run everywhere else. */
  ghost predicate RunsTo(es: seq<Event>, s: State) {
    forall n: nat {:trigger Look(n)} :: Look(n) ==> Run(es) == Some(s)
  }

  lemma OwnKeptTransitive(a: State, b: State, c: State, own: set<Claim>)
    requires OwnKept(a, b, own) && OwnKept(b, c, own)
    ensures OwnKept(a, c, own)
  {
    forall claim | claim in own ensures Kept(a, c, claim) {
      assert Kept(a, b, claim) && Kept(b, c, claim);
    }
  }

  /** The kinds of call that can fail. */
  datatype Kind = Reading | Counting | StatusWrite | ChunkWrite | Marking | Creating | VideoInsert | VideoUpdate
    | Heading | Starting | Copying | Finishing | Aborting | Deleting

  /** The entity of a new upload, with its two generated paths. */
  function NewUploadRow(cmd: InitCommand, u: string, d1: Date, d2: Date): (row: UploadRow)
    ensures SameFile(row, cmd) && row.total == cmd.total && row.status == Init
    ensures row.storagePath == GenerateStoragePath(cmd.user, d1, u, cmd.fileName) && row.chunkPath == GenerateChunkStoragePath(d2, u)
  {
    UploadRow(cmd.user, cmd.fileName, cmd.fileHash, cmd.fileSize, cmd.total, Init,
              GenerateStoragePath(cmd.user, d1, u, cmd.fileName), GenerateChunkStoragePath(d2, u))
  }

  lemma NewRowIsNew(s: State, cmd: InitCommand, u: string, cs: seq<string>, d1: Date, d2: Date)
    requires d1.Valid() && d2.Valid() && ValidUuid(u) && UserId(cmd.user) && u !in s.uploads && 1 <= cmd.total <= MAX_CHUNKS
    requires |cs| == cmd.total && (forall k | 0 <= k < |cs| :: cs[k] !in s.chunks) && (forall j, k | 0 <= j < k < |cs| :: cs[j] != cs[k])
    ensures NewUpload(s, u, NewUploadRow(cmd, u, d1, d2), cs)
  {
  }

  /** Nothing is written, and nothing outside `gone` is removed. */
  ghost predicate OnlyRemoved(before: map<string, Bytes>, after: map<string, Bytes>, gone: set<string>) {
    exists removed: set<string> | removed <= gone :: after == before - removed
  }

  ghost predicate Attempt(e: Event, path: string, i: nat) {
    e.DeleteKey? && e.path == path && e.index == i
  }

  /** Exactly one delete per index, in order; the error is that of the lowest index that failed. */
  ghost predicate Attempts(log: seq<Event>, path: string, firstErr: Option<nat>) {
    && (forall i {:trigger Attempt(log[i], path, i)} | 0 <= i < |log| :: Attempt(log[i], path, i))
    && match firstErr
       case None => forall i {:trigger Attempt(log[i], path, i)} | 0 <= i < |log| :: Attempt(log[i], path, i) && log[i].ok
       case Some(j) =>
         && j < |log| && Attempt(log[j], path, j) && !log[j].ok
         && forall i {:trigger Attempt(log[i], path, i)} | 0 <= i < j :: Attempt(log[i], path, i) && log[i].ok
  }

  lemma OneMoreAttempt(log: seq<Event>, e: Event, path: string, firstErr: Option<nat>)
    requires Attempts(log, path, firstErr) && Attempt(e, path, |log|)
    ensures Attempts(log + [e], path, if firstErr.None? && !e.ok then Some(|log|) else firstErr)
  {
    forall i | 0 <= i < |log + [e]| ensures Attempt((log + [e])[i], path, i) && (firstErr.None? && i < |log| ==> (log + [e])[i].ok) {
      if i < |log| { assert Attempt(log[i], path, i); }
    }
    if firstErr.Some? {
      forall i | 0 <= i < firstErr.value ensures Attempt((log + [e])[i], path, i) && (log + [e])[i].ok {
        assert Attempt(log[i], path, i);
      }
      assert Attempt(log[firstErr.value], path, firstErr.value);
    }
  }

  /** The log is part of what happened since the run t. */
  ghost predicate Logged(log: seq<Event>, t: seq<Event>, t': seq<Event>) { t <= t' && Among(log, t'[|t|..]) }

  lemma LoggedMore(log: seq<Event>, t: seq<Event>, t1: seq<Event>, e: Event, t2: seq<Event>)
    requires Logged(log, t, t1) && t1 <= t2 && |t1| < |t2| && t2[|t2| - 1] == e
    ensures Logged(log + [e], t, t2)
  {
    assert t1[|t|..] <= t2[|t|..];
    AmongOneMore(log, t1[|t|..], e, t2[|t|..]);
  }

  lemma RemovedMore(a: map<string, Bytes>, b: map<string, Bytes>, c: map<string, Bytes>, path: string, i: nat)
    requires OnlyRemoved(a, b, KeysBelow(path, i)) && OnlyRemoved(b, c, {ChunkKey(path, i)})
    ensures OnlyRemoved(a, c, KeysBelow(path, i + 1)) && c.Keys <= b.Keys
  {
    var r1: set<string> :| r1 <= KeysBelow(path, i) && b == a - r1;
    var r2: set<string> :| r2 <= {ChunkKey(path, i)} && c == b - r2;
    assert c == a - (r1 + r2);
  }

  /** The loop of DeleteChunks, so far, when it runs alone: from state s and trace t to s' and t'. */
  ghost predicate Deleted(s: State, t: seq<Event>, s': State, t': seq<Event>, path: string, log: seq<Event>, firstErr: Option<nat>) {
    && t' == t + log
    && s' == s.(objects := s'.objects) && OnlyRemoved(s.objects, s'.objects, KeysBelow(path, |log|))
    && (firstErr.None? ==> s'.objects.Keys !! KeysBelow(path, |log|))
  }

  lemma DeletedMore(s: State, t: seq<Event>, s1: State, t1: seq<Event>, s2: State, t2: seq<Event>,
                    path: string, log: seq<Event>, firstErr: Option<nat>, e: Event)
    requires Deleted(s, t, s1, t1, path, log, firstErr) && Attempt(e, path, |log|) && t2 == t1 + [e]
    requires s2 == s1.(objects := s2.objects) && OnlyRemoved(s1.objects, s2.objects, {ChunkKey(path, |log|)})
    requires e.ok ==> ChunkKey(path, |log|) !in s2.objects
    ensures Deleted(s, t, s2, t2, path, log + [e], if !e.ok && firstErr.None? then Some(|log|) else firstErr)
  {
    RemovedMore(s.objects, s1.objects, s2.objects, path, |log|);
    assert t2 == t + (log + [e]);
  }

  lemma {:induction false} MissingOne(objects: map<string, Bytes>, path: string, i: nat, n: nat)
    requires i < n && ChunkKey(path, i) !in objects
    ensures !Present(objects, path, n)
  {
    if i < n - 1 { MissingOne(objects, path, i, n - 1); }
  }

  lemma {:induction false} AllPresent(m: Multipart, objects: map<string, Bytes>, path: string, n: nat)
    requires FromAll(m, objects, path, n)
    ensures Present(objects, path, n)
  {
    if n > 0 {
      AllPresent(m, objects, path, n - 1);
      assert PartFrom(m, objects, path, n - 1);
    }
  }

  /** Entry k of the list is part k+1, and the store has that part with that etag. */
  ghost predicate Listed(m: Multipart, list: seq<PartRef>, k: nat) {
    && k < |list| && list[k].number == k + 1
    && k + 1 in m.parts && m.parts[k + 1].etag == list[k].etag
  }

  /** Part k+1 holds the bytes of source object k. */
  ghost predicate PartFrom(m: Multipart, objects: map<string, Bytes>, path: string, k: nat) {
    && k + 1 in m.parts && ChunkKey(path, k) in objects
    && m.parts[k + 1].data == objects[ChunkKey(path, k)]
  }

  ghost predicate ListedAll(m: Multipart, list: seq<PartRef>, u: string) {
    m.upload == u && forall k: nat {:trigger Listed(m, list, k)} | k < |list| :: Listed(m, list, k)
  }

  ghost predicate FromAll(m: Multipart, objects: map<string, Bytes>, path: string, n: nat) {
    forall k: nat {:trigger PartFrom(m, objects, path, k)} | k < n :: PartFrom(m, objects, path, k)
  }

  lemma CopiedOneMore(m: Multipart, m': Multipart, list: seq<PartRef>, ref: PartRef, u: string)
    requires ListedAll(m, list, u) && m'.upload == m.upload
    requires ref.number == |list| + 1 && ref.number in m'.parts && m'.parts == m.parts[ref.number := m'.parts[ref.number]]
    requires m'.parts[ref.number].etag == ref.etag
    ensures ListedAll(m', list + [ref], u)
  {
    forall k: nat | k < |list + [ref]| ensures Listed(m', list + [ref], k) {
      if k < |list| { assert Listed(m, list, k); }
    }
  }

  lemma FromOneMore(m: Multipart, m': Multipart, objects: map<string, Bytes>, path: string, n: nat)
    requires FromAll(m, objects, path, n)
    requires n + 1 in m'.parts && m'.parts == m.parts[n + 1 := m'.parts[n + 1]]
    requires ChunkKey(path, n) in objects && m'.parts[n + 1].data == objects[ChunkKey(path, n)]
    ensures FromAll(m', objects, path, n + 1)
  {
    forall k: nat | k < n + 1 ensures PartFrom(m', objects, path, k) {
      if k < n { assert PartFrom(m, objects, path, k); }
    }
  }

  lemma AcceptsAll(m: Multipart, list: seq<PartRef>, u: string)
    requires ListedAll(m, list, u) && list != []
    ensures S3Accepts(m, list) && forall k | 0 <= k < |list| :: list[k].number == k + 1
  {
    forall k | 0 <= k < |list|
      ensures list[k].number in m.parts && m.parts[list[k].number].etag == list[k].etag && list[k].number == k + 1
    {
      assert Listed(m, list, k);
    }
  }

  lemma {:induction false} PartsAreSources(m: Multipart, list: seq<PartRef>, objects: map<string, Bytes>, path: string, u: string)
    requires ListedAll(m, list, u) && FromAll(m, objects, path, |list|)
    ensures forall k | 0 <= k < |list| :: list[k].number in m.parts
    ensures Present(objects, path, |list|)
    ensures Assemble(m.parts, list) == SourceBytes(objects, path, |list|)
  {
    forall k | 0 <= k < |list| ensures list[k].number in m.parts && ChunkKey(path, k) in objects {
      assert Listed(m, list, k) && PartFrom(m, objects, path, k);
    }
    if list != [] {
      var n: nat := |list| - 1;
      forall k: nat | k < n ensures Listed(m, list[..n], k) {
        assert Listed(m, list, k);
      }
      PartsAreSources(m, list[..n], objects, path, u);
      assert Listed(m, list, n) && PartFrom(m, objects, path, n);
    }
  }

  // Look(0) unfolds the next three relations.

  /** What a merge of the storage client does alone: the object is the whole concatenation, or untouched. */
  ghost predicate MergeEffect(s: State, s': State, dest: string, path: string, n: nat, end: MergeEnd) {
    forall k: nat {:trigger Look(k)} :: Look(k) ==>
      && s' == s.(objects := s'.objects, multiparts := s'.multiparts, merged := s'.merged)
      && (end.NotStarted? || end.CopyFailed? ==> s'.objects == s.objects && s'.merged == s.merged)
      && (end == Finished || s'.objects != s.objects ==> StoreKey(dest).Some? && Joined(s.objects, s'.objects, StoreKey(dest).value, path, n))
  }

  /** What a publishing request's merge may do when it runs alone. */
  ghost predicate MergedAs(s: State, u: string, s': State) {
    forall k: nat {:trigger Look(k)} :: Look(k) ==>
      && u in s.uploads
      && s' == s.(uploads := s'.uploads, objects := s'.objects, multiparts := s'.multiparts, counted := s'.counted, merged := s'.merged)
      && Restated(s.uploads, u, s'.uploads)
  }

  /** A publishing request before its video row: nothing, or a merge of the caller's upload. */
  ghost predicate Prepared(s: State, user: string, u: string, s': State) {
    forall k: nat {:trigger Look(k)} :: Look(k) ==> s' == s || (OwnUpload(s, user, u) && MergedAs(s, u, s'))
  }

  lemma MergeEffectAfter(a: State, b: State, c: State, dest: string, path: string, n: nat, end: MergeEnd)
    requires b == a.(multiparts := b.multiparts) && MergeEffect(b, c, dest, path, n, end)
    ensures MergeEffect(a, c, dest, path, n, end)
  {
    assert Look(0);
  }

  /** A merge of the storage client followed by its status write. */
  lemma MergeRecorded(a: State, b: State, c: State, u: string, end: MergeEnd, status: UploadStatus)
    requires u in a.uploads
    requires MergeEffect(a, b, a.uploads[u].storagePath, a.uploads[u].chunkPath, a.uploads[u].total, end)
    requires if MergeWorks(a, u) then end == Finished else end.CopyFailed? || end.NotStarted?
    requires status == if end == Finished then Success else Failed
    requires u in b.uploads && c.uploads == Restatus(b.uploads, u, status) && c.objects == b.objects
    ensures MergedExact(a, u, c)
  {
    assert Look(0);
  }

  lemma MarkedThenMerged(a: State, b: State, c: State, u: string)
    requires u in a.uploads && MergedExact(b, u, c) && b.objects == a.objects
    requires b.uploads == a.uploads || b.uploads == Restatus(a.uploads, u, Merging)
    ensures MergedExact(a, u, c) && MergeWorks(a, u) == MergeWorks(b, u)
  {
    assert Look(0);
  }

  lemma CreatedAs(s: State, v: string, row: VideoRow)
    requires v !in s.videos && row.upload in s.merged
    ensures Enabled(s, CreateVideo(v, row)) && Apply(s, CreateVideo(v, row)) == s.(videos := s.videos[v := row])
  {
  }

  lemma TouchesVideo(v: string, row: VideoRow, mine: Claim -> bool)
    requires mine(Fresh(v))
    ensures TouchesOnly(CreateVideo(v, row), mine)
  {
  }

  lemma FinishedAs(s: State, outcome: Option<UploadStatus>)
    requires s.running.Some?
    requires outcome.Some? ==> s.running.value in s.uploads && (outcome.value == Failed || (outcome.value == Success && s.running.value in s.merged))
    ensures Enabled(s, FinishMerge(outcome))
    ensures Apply(s, FinishMerge(outcome)) ==
      s.(running := None, uploads := if outcome.Some? then Restatus(s.uploads, s.running.value, outcome.value) else s.uploads)
  {
  }

  /** A prepared upload with a video row is a publication; without one, none was possible. */
  lemma PreparedPublished(a: State, user: string, u: string, v: string, b: State, c: State, upload: Option<UploadRow>, cleanup: bool)
    requires OwnUpload(a, user, u) ==> PreparedExact(a, u, b, upload, cleanup)
    requires !OwnUpload(a, user, u) ==> upload.None? && b == a
    requires b.videos == a.videos
    requires c == if upload.Some? && upload.value.status.Success? then b.(videos := b.videos[v := VideoRow(u, Processing)]) else b
    ensures PublishedExact(a, user, u, v, c, upload.Some?)
    ensures upload.Some? ==> upload.value.status.Success? && cleanup == (a.uploads[u].status != Success)
  {
    assert Look(0);
  }

  lemma PublishedMerged(a: State, user: string, u: string, v: string, c: State)
    requires PublishedExact(a, user, u, v, c, true)
    ensures OwnUpload(a, user, u) && (a.uploads[u].status != Success ==> MergeWorks(a, u))
  {
    assert Look(0);
  }

  lemma PublishSpecFrom(a: State, user: string, u: string, v: string, b: State, c: State)
    requires Prepared(a, user, u, b)
    requires c == b || (OwnUpload(b, user, u) && c == b.(videos := b.videos[v := VideoRow(u, Processing)]))
    ensures PublishSpec(a, user, u, v, c) && c.cleanups == a.cleanups
    ensures OwnUpload(b, user, u) ==> OwnUpload(a, user, u)
  {
    PreparedFrame(a, user, u, b);
    if c != b {
      var status := Processing;
      assert c.videos == a.videos[v := VideoRow(u, status)];
    }
  }

  lemma PreparedFrame(a: State, user: string, u: string, b: State)
    requires Prepared(a, user, u, b)
    ensures b == a.(uploads := b.uploads, objects := b.objects, multiparts := b.multiparts, counted := b.counted, merged := b.merged)
    ensures b.uploads == a.uploads || (OwnUpload(a, user, u) && Restated(a.uploads, u, b.uploads))
    ensures OwnUpload(b, user, u) ==> OwnUpload(a, user, u)
  {
    assert Look(0);
    if b != a { assert MergedAs(a, u, b); }
  }

  lemma StatusMergedAs(a: State, b: State, u: string, status: UploadStatus)
    requires u in a.uploads && status in {Merging, Failed, Success}
    requires b == a.(uploads := b.uploads) && (b.uploads == a.uploads || b.uploads == Restatus(a.uploads, u, status))
    ensures MergedAs(a, u, b)
  {
  }

  lemma RecordedAs(a: State, b: State, c: State, u: string, end: MergeEnd, status: UploadStatus)
    requires u in a.uploads && status in {Merging, Failed, Success}
    requires MergeEffect(a, b, a.uploads[u].storagePath, a.uploads[u].chunkPath, a.uploads[u].total, end)
    requires c == b.(uploads := c.uploads) && (c.uploads == b.uploads || (u in b.uploads && c.uploads == Restatus(b.uploads, u, status)))
    ensures MergedAs(a, u, c)
  {
    assert Look(0);
  }

  lemma MergeStopped(a: State, b: State, dest: string, path: string, n: nat, end: MergeEnd)
    requires b == a.(multiparts := b.multiparts) && (end.NotStarted? || end.CopyFailed?)
    ensures MergeEffect(a, b, dest, path, n, end)
  {
  }

  lemma MergeEffectFrame(a: State, b: State, dest: string, path: string, n: nat, end: MergeEnd)
    requires MergeEffect(a, b, dest, path, n, end)
    ensures b.uploads == a.uploads && b.mergeQueue == a.mergeQueue && b.running == a.running && b.cleanups == a.cleanups
  {
    assert Look(0);
  }

  lemma MergeLeaves(a: State, b: State, u: string, end: MergeEnd)
    requires u in a.uploads && MergeEffect(a, b, a.uploads[u].storagePath, a.uploads[u].chunkPath, a.uploads[u].total, end)
    ensures MergeLeft(a, u, b.objects, end)
  {
    assert Look(0);
  }

  lemma NothingPrepared(s: State, u: string)
    requires u in s.uploads
    ensures PreparedSpec(s, u, s, None, false, None, false)
  {
  }

  /** A publication and its announcement. */
  lemma PublishedTold(a: State, user: string, u: string, v: string, b: State, c: State, end: Option<MergeEnd>, recorded: bool, told: Told, database: bool)
    requires PublishedSpec(a, user, u, v, b, true, end, recorded) && PublishSpec(a, user, u, v, b)
    requires v in b.videos && b.videos[v].upload == u && told != NotReached && ToldSpec(b, v, c, told, database)
    requires b.cleanups == CleanedAfter(a, u, end.Some?)
    ensures PublishSpec(a, user, u, v, c) && PublishVideoSpec(a, user, u, v, c, end, recorded, told, database)
  {
    assert Look(0);
    assert b.videos[v] == VideoRow(u, Processing);
    if c.videos != b.videos {
      var status := c.videos[v].status;
      assert status in {Processing, VideoFailed} && c.videos == b.videos[v := b.videos[v].(status := status)];
    }
    AnnouncedAs(a, user, u, v, b, c);
  }

  lemma ToldExactly(a: State, user: string, u: string, v: string, b: State, c: State, path: Option<string>)
    requires PublishedExact(a, user, u, v, b, true) && OwnUpload(a, user, u) && v in b.videos && b.videos[v].upload == u
    requires path == Some(a.uploads[u].storagePath) && ToldSpec(b, v, c, Announced, true)
    requires b.cleanups == if a.uploads[u].status != Success then CleanedExact(a, u) else a.cleanups
    ensures PublishExact(a, user, u, v, c, path)
  {
    assert Look(0);
    assert b.videos[v] == VideoRow(u, Processing);
    assert c.videos == b.videos;
  }

  lemma PublishedCleaned(a: State, user: string, u: string, v: string, b: State, c: State, end: Option<MergeEnd>, recorded: bool)
    requires PublishedSpec(a, user, u, v, b, true, end, recorded) && PublishSpec(a, user, u, v, b) && c == b.(cleanups := c.cleanups)
    ensures PublishedSpec(a, user, u, v, c, true, end, recorded) && PublishSpec(a, user, u, v, c)
  {
    assert Look(0);
  }

  lemma ExactlyCleaned(a: State, user: string, u: string, v: string, b: State, c: State, needed: bool)
    requires PublishedExact(a, user, u, v, b, true) && OwnUpload(a, user, u) && needed == (a.uploads[u].status != Success)
    requires c == b.(cleanups := c.cleanups) && b.cleanups == a.cleanups
    requires c.cleanups == b.cleanups + if needed then {CleanupRequest(a.uploads[u].chunkPath, a.uploads[u].total)} else {}
    ensures PublishedExact(a, user, u, v, c, true)
    ensures c.cleanups == if needed then CleanedExact(a, u) else a.cleanups
  {
    assert Look(0);
    PublishedMerged(a, user, u, v, b);
  }

  /** A prepared upload, and then a video row for it or none. */
  lemma PublishedFrom(a: State, user: string, u: string, v: string, b: State, c: State, upload: Option<UploadRow>, cleanup: bool,
                      end: Option<MergeEnd>, recorded: bool, ok: bool)
    requires if OwnUpload(a, user, u) then PreparedSpec(a, u, b, upload, cleanup, end, recorded) else upload.None? && end.None? && b == a
    requires b.videos == a.videos && c == b.(videos := c.videos)
    requires c.videos == b.videos || c.videos == b.videos[v := VideoRow(u, Processing)]
    requires ok ==> upload.Some? && c.videos == b.videos[v := VideoRow(u, Processing)]
    ensures PublishedSpec(a, user, u, v, c, ok, end, recorded)
    ensures ok ==> cleanup == end.Some?
  {
    assert Look(0);
  }

  /** The event is part of the run since t. */
  ghost predicate Did(e: Event, t: seq<Event>, t': seq<Event>) { t <= t' && e in t'[|t|..] }

  lemma DidLast(e: Event, t: seq<Event>, t': seq<Event>)
    requires t <= t'
    ensures Did(e, t, t' + [e])
  {
    assert (t' + [e])[|t|..][|t'| - |t|] == e;
  }

  lemma DidStill(e: Event, t: seq<Event>, t1: seq<Event>, t2: seq<Event>)
    requires Did(e, t, t1) && t1 <= t2
    ensures Did(e, t, t2)
  {
    var k :| 0 <= k < |t1| - |t| && t1[|t|..][k] == e;
    assert t2[|t|..][k] == e;
  }

  lemma DidSince(e: Event, t: seq<Event>, t1: seq<Event>, t2: seq<Event>)
    requires t <= t1 && Did(e, t1, t2)
    ensures Did(e, t, t2)
  {
    var k :| 0 <= k < |t2| - |t1| && t2[|t1|..][k] == e;
    assert t2[|t|..][|t1| - |t| + k] == e;
  }

  /** Merging may have been written before the merge. */
  lemma PreparedByMerge(a: State, b: State, c: State, u: string, end: MergeEnd, recorded: bool)
    requires u in a.uploads && a.uploads[u].status != Success && CountFull(a, u)
    requires b.objects == a.objects && (b.uploads == a.uploads || b.uploads == Restatus(a.uploads, u, Merging))
    requires MergeLeft(b, u, c.objects, end) && Recorded(b.uploads, u, c.uploads, end, recorded)
    ensures PreparedSpec(a, u, c, None, false, Some(end), recorded)
  {
    var outcome := if end == Finished then Success else Failed;
    assert Restatus(Restatus(a.uploads, u, Merging), u, outcome) == Restatus(a.uploads, u, outcome);
  }

  lemma PreparedAfterCount(a: State, b: State, c: State, u: string, upload: Option<UploadRow>, cleanup: bool, end: Option<MergeEnd>, recorded: bool)
    requires b == a.(counted := b.counted) && PreparedSpec(b, u, c, upload, cleanup, end, recorded) && MergedAs(b, u, c)
    ensures PreparedSpec(a, u, c, upload, cleanup, end, recorded) && MergedAs(a, u, c)
  {
    assert Look(0);
  }

  lemma ExactAfterCount(a: State, b: State, c: State, u: string, upload: Option<UploadRow>, cleanup: bool)
    requires b == a.(counted := b.counted) && u in a.uploads && a.uploads[u].status != Success && CountFull(a, u)
    requires MergedExact(b, u, c) && (upload.Some? <==> MergeWorks(b, u)) && (upload.Some? ==> u in c.uploads && upload.value == c.uploads[u] && cleanup)
    ensures PreparedExact(a, u, c, upload, cleanup)
  {
    assert Look(0);
  }

  lemma HandedOn(a: State, b: State, u: string, updated: Option<UploadRow>, end: MergeEnd, recorded: bool)
    requires PreparedSpec(a, u, b, None, false, Some(end), recorded) && end == Finished && recorded
    requires updated.Some? && u in b.uploads && updated.value == b.uploads[u]
    ensures PreparedSpec(a, u, b, updated, true, Some(end), recorded)
  {
    assert Look(0);
  }

  lemma TaskTaken(a: State, b: State, c: State, u: string, end: Option<MergeEnd>, recorded: bool)
    requires a.mergeQueue != [] && u == a.mergeQueue[0] && b == a.(mergeQueue := a.mergeQueue[1..], running := Some(u))
    requires TaskServed(b, u, c, end, recorded) && c.mergeQueue == b.mergeQueue && c.running == None
    ensures MergeTaskSpec(a, c, true, end, recorded)
  {
    assert Look(0);
  }

  lemma TaskSkipped(a: State, b: State, u: string)
    requires u in a.uploads && b == a.(running := None)
    ensures TaskServed(a, u, b, None, false)
  {
  }

  lemma TaskCleaned(a: State, b: State, c: State, u: string, end: MergeEnd, recorded: bool)
    requires MergeLeft(a, u, b.objects, end) && Recorded(a.uploads, u, b.uploads, end, recorded) && b.cleanups == a.cleanups
    requires c == b.(cleanups := if end == Finished && recorded then b.cleanups + {CleanupRequest(a.uploads[u].chunkPath, a.uploads[u].total)} else b.cleanups)
    ensures TaskServed(a, u, c, Some(end), recorded)
  {
  }

  lemma MergedAsFrame(a: State, u: string, b: State)
    requires MergedAs(a, u, b)
    ensures b.videos == a.videos
  {
    assert Look(0);
  }

  lemma MergedAsTransitive(a: State, b: State, c: State, u: string)
    requires MergedAs(a, u, b) && MergedAs(b, u, c)
    ensures MergedAs(a, u, c)
  {
    assert Look(0);
    RestatedTransitive(a.uploads, b.uploads, c.uploads, u);
  }

  lemma RunOn(t: seq<Event>, s: State, e: Event)
    requires RunsTo(t, s) && Enabled(s, e)
    ensures RunsTo(t + [e], Apply(s, e))
  {
    assert Look(0);
    assert (t + [e])[..|t|] == t;
  }

  class Service {
    var st: State
    ghost var trace: seq<Event>
    ghost var mineAt: set<nat>       // the events of the run that are my own calls
    const mine: Claim -> bool        // what my calls may touch
    const quiet: bool
    const failing: set<Kind>         // the kinds of call that may fail

    /** The run leads here, and my own calls touched only what is mine. */
    ghost predicate Valid()
      reads this
    {
      RunsTo(trace, st) && Guaranteed(trace, mineAt, mine)
    }

    lemma Holds()
      requires Valid()
      ensures Inv(st)
    {
      assert Look(0);
      RunKeeps(trace);
    }

    /** The run has gone on from state s and run t; my own ids are as they were. */
    ghost predicate After(s: State, t: seq<Event>, own: set<Claim>)
      reads this
    {
      Valid() && t <= trace && Grows(s, st) && OwnKept(s, st, own)
    }

    constructor (quiet: bool, failing: set<Kind>, mine: Claim -> bool)
      requires IdsLeft(mine)
      ensures Valid() && st == EmptyState && this.quiet == quiet && this.failing == failing && this.mine == mine
    {
      st := EmptyState;
      trace, mineAt := [], {};
      this.quiet, this.failing, this.mine := quiet, failing, mine;
    }

    /** These claims are mine. */
    ghost predicate Mine(own: set<Claim>) { forall claim | claim in own :: mine(claim) }

    /** Nothing interferes and no call fails: what a handler does is then determined. */
    predicate Calm() { quiet && failing == {} }

    /** A read, or a call that changes nothing here, may fail if its kind does. */
    method Fails(kind: Kind) returns (err: bool)
      ensures kind !in failing ==> !err
    {
      err := *;
      if kind !in failing { err := false; }
    }

    /** A write may fail before it takes effect, or after. */
    method Attempted(kind: Kind) returns (applied: bool, err: bool)
      ensures !err ==> applied
      ensures kind !in failing ==> applied && !err
    {
      applied := *;
      err := *;
      if kind !in failing { applied := true; }
      err := !applied || (err && kind in failing);
    }

    /** A part of the run that starts where an earlier part ended. */
    lemma Chained(s0: State, t0: seq<Event>, s1: State, t1: seq<Event>, own: set<Claim>)
      requires Grows(s0, s1) && t0 <= t1 && OwnKept(s0, s1, own) && After(s1, t1, own)
      ensures After(s0, t0, own)
    {
      GrowsTransitive(s0, s1, st);
      OwnKeptTransitive(s0, s1, st, own);
    }

    /** One call takes effect. */
    method Do(e: Event)
      requires Valid() && Enabled(st, e) && TouchesOnly(e, mine)
      modifies this
      ensures Valid() && st == Apply(old(st), e) && trace == old(trace) + [e] && mineAt == old(mineAt) + {|old(trace)|}
      ensures Grows(old(st), st)
    {
      Holds();
      StepKeeps(st, e);
      RunOn(trace, st, e);
      GuaranteedMore(trace, mineAt, mine, e);
      st := Apply(st, e);
      mineAt := mineAt + {|trace|};
      trace := trace + [e];
    }

    /** Everybody else: any number of protocol events. */
    method Others(ghost own: set<Claim>)
      requires Valid() && Mine(own)
      modifies this
      ensures RunsTo(trace, st) && old(trace) <= trace && OwnKept(old(st), st, own) && mineAt == old(mineAt)
      ensures quiet ==> st == old(st) && trace == old(trace)
    {
    }

    method Interfere(ghost own: set<Claim>)
      requires Valid() && Mine(own)
      modifies this
      ensures After(old(st), old(trace), own)
      ensures quiet ==> st == old(st) && trace == old(trace)
    {
      ghost var before := trace;
      Others(own);
      GuaranteedOn(before, mineAt, mine, trace);
      assert Look(0);
      assert trace[..|before|] == before;
      RunGrows(trace, |before|);
    }

    /** My call takes effect, some way into a run that began at s and t. */
    method Take(e: Event, ghost s: State, ghost t: seq<Event>, ghost own: set<Claim>)
      requires After(s, t, own) && Enabled(st, e) && TouchesOnly(e, mine)
      requires OwnKept(st, Apply(st, e), own)
      modifies this
      ensures After(s, t, own) && st == Apply(old(st), e) && trace == old(trace) + [e] && mineAt == old(mineAt) + {|old(trace)|}
    {
      ghost var before := st;
      Do(e);
      GrowsTransitive(s, before, st);
      OwnKeptTransitive(s, before, st, own);
    }

    /** The etag in an answer; an empty one counts as an error. */
    method PartTag() returns (tag: string)
      ensures Copying !in failing ==> tag != ""
    {
      tag := *;
      if Copying !in failing && tag == "" { tag := "etag"; }
    }

    // ---- repository calls ----

    method QueryByUserAndUUID(u: string, user: string, ghost own: set<Claim>) returns (err: bool, row: Option<UploadRow>)
      requires Valid() && Mine(own)
      modifies this
      ensures After(old(st), old(trace), own)
      ensures quiet ==> st == old(st) && trace == old(trace)
      ensures row.Some? ==> !err && u in st.uploads && st.uploads[u] == row.value && row.value.user == user
      ensures !err && row.None? ==> u !in st.uploads || st.uploads[u].user != user
      ensures Reading !in failing ==> !err
    {
      Interfere(own);
      err := Fails(Reading);
      row := None;
      if !err && u in st.uploads && st.uploads[u].user == user {
        row := Some(st.uploads[u]);
      }
    }

    method QueryByUUID(u: string, ghost own: set<Claim>) returns (err: bool, row: Option<UploadRow>)
      requires Valid() && Mine(own)
      modifies this
      ensures After(old(st), old(trace), own)
      ensures quiet ==> st == old(st) && trace == old(trace)
      ensures row.Some? ==> !err && u in st.uploads && st.uploads[u] == row.value
      ensures !err && row.None? ==> u !in st.uploads
      ensures Reading !in failing ==> !err
    {
      Interfere(own);
      err := Fails(Reading);
      row := None;
      if !err && u in st.uploads {
        row := Some(st.uploads[u]);
      }
    }

    method QueryChunk(c: string, u: string, i: nat, ghost own: set<Claim>) returns (err: bool, row: Option<ChunkRow>)
      requires Valid() && Mine(own)
      modifies this
      ensures After(old(st), old(trace), own)
      ensures quiet ==> st == old(st) && trace == old(trace)
      ensures row.Some? ==> !err && c in st.chunks && st.chunks[c] == row.value && row.value.upload == u && row.value.index == i
      ensures !err && row.None? ==> c !in st.chunks || st.chunks[c].upload != u || st.chunks[c].index != i
      ensures Reading !in failing ==> !err
    {
      Interfere(own);
      err := Fails(Reading);
      row := None;
      if !err && c in st.chunks && st.chunks[c].upload == u && st.chunks[c].index == i {
        row := Some(st.chunks[c]);
      }
    }

    /** CountChunk for status Completed; a count equal to the total is remembered. */
    method CountChunk(u: string, ghost own: set<Claim>) returns (err: bool, count: nat)
      requires Valid() && Mine(own)
      modifies this
      ensures After(old(st), old(trace), own)
      ensures quiet ==> st == old(st).(counted := st.counted)
      ensures !err ==> count == CountCompleted(st, u)
      ensures !err && u in st.uploads && count == st.uploads[u].total ==> u in st.counted
      ensures Counting !in failing ==> !err
    {
      Interfere(own);
      err := Fails(Counting);
      count := CountCompleted(st, u);
      if !err && u in st.uploads && count == st.uploads[u].total {
        Take(CountedAll(u), old(st), old(trace), own);
      }
    }

    /** The status write is one this protocol allows: stable under everything others do. */
    ghost predicate MaySet(u: string, status: UploadStatus)
      reads this
    {
      Enabled(st, SetStatus(u, status))
    }

    method UpdateUploadVideoStatus(u: string, status: UploadStatus, ghost own: set<Claim>) returns (err: bool)
      requires Valid() && Mine(own) && MaySet(u, status)
      modifies this
      ensures After(old(st), old(trace), own)
      ensures quiet ==> st == old(st).(uploads := st.uploads)
      ensures quiet ==> st.uploads == old(st).uploads || st.uploads == Restatus(old(st).uploads, u, status)
      ensures quiet && !err ==> st.uploads == Restatus(old(st).uploads, u, status)
      ensures StatusWrite !in failing ==> !err && Did(SetStatus(u, status), old(trace), trace)
    {
      Interfere(own);
      assert UploadGrows(old(st), st, u);
      if HasVideo(old(st), u) {
        ghost var v :| v in old(st).videos && old(st).videos[v].upload == u;
        assert VideoGrows(old(st), st, v);
      }
      var applied;
      applied, err := Attempted(StatusWrite);
      if applied {
        ghost var before := trace;
        Take(SetStatus(u, status), old(st), old(trace), own);
        DidLast(SetStatus(u, status), old(trace), before);
      }
    }

    method UpdateUploadChunkStatus(c: string, ghost own: set<Claim>) returns (err: bool)
      requires Valid() && Mine(own) && c in st.chunks
      modifies this
      ensures After(old(st), old(trace), own)
      ensures quiet ==> st == old(st).(chunks := st.chunks)
      ensures quiet ==> st.chunks == old(st).chunks || st.chunks == old(st).chunks[c := old(st).chunks[c].(status := ChunkUploading)]
      ensures quiet && !err ==> st.chunks == old(st).chunks[c := old(st).chunks[c].(status := ChunkUploading)]
      ensures ChunkWrite !in failing ==> !err
    {
      Interfere(own);
      assert ChunkGrows(old(st), st, c);
      var applied;
      applied, err := Attempted(ChunkWrite);
      if applied {
        Take(SetChunkUploading(c), old(st), old(trace), own);
      }
    }

    /** MarkCompleted, for the call t that has checked the size. */
    method MarkChunkCompleted(t: string, c: string, hash: string, size: nat, ghost own: set<Claim>) returns (err: bool)
      requires Valid() && Mine(own) && Call(t) in own && t in st.checks && c in st.chunks && st.checks[t].chunk == c && size == st.checks[t].size
      modifies this
      ensures After(old(st), old(trace), own)
      ensures quiet ==> st == old(st) || st == WithCompleted(old(st), c, hash, size)
      ensures quiet && !err ==> st == WithCompleted(old(st), c, hash, size)
      ensures !err ==> c in st.body
      ensures quiet && !err && Standings(old(st), c, size) ==> |st.body[c]| == size
      ensures Marking !in failing ==> !err
    {
      Interfere(own);
      assert Kept(old(st), st, Call(t));
      assert ChunkGrows(old(st), st, c);
      var applied;
      applied, err := Attempted(Marking);
      if applied {
        Holds();
        assert CheckKept(st, st.checks[t]);
        Take(MarkCompleted(t, hash, size), old(st), old(trace), own);
      }
    }

    // ---- storage calls ----

    /** HeadObject: the object's size at this moment, which call t remembers. */
    method HeadObject(t: string, c: string, key: string, ghost own: set<Claim>) returns (size: Option<nat>)
      requires Valid() && Mine(own) && Call(t) in own && t !in st.checks && c in st.chunks && key == st.chunks[c].key
      modifies this
      ensures After(old(st), old(trace), own - {Call(t)})
      ensures c in st.chunks && st.chunks[c].key == key
      ensures size.None? ==> t !in st.checks
      ensures size.Some? ==> t in st.checks && st.checks[t].chunk == c && size.value == st.checks[t].size
      ensures size.Some? ==> key in st.objects && |st.objects[key]| == size.value && Standings(st, c, size.value)
      ensures quiet ==> st == old(st).(checks := st.checks) && st.checks - {t} == old(st).checks
      ensures quiet && Heading !in failing ==> (size.Some? <==> key in st.objects)
    {
      Interfere(own);
      assert Kept(old(st), st, Call(t));
      assert ChunkGrows(old(st), st, c);
      size := None;
      var fails := Fails(Heading);
      if !fails && key in st.objects {
        size := Some(|st.objects[key]|);
        Stands(c);
        Take(CheckSize(t, c), old(st), old(trace), own - {Call(t)});
      }
    }

    lemma Stands(c: string)
      requires Valid() && c in st.chunks && st.chunks[c].key in st.objects
      ensures Standings(st, c, |st.objects[st.chunks[c].key]|)
    {
      Holds();
      StandingIsObject(st, c);
    }

    /** The call t ends: it no longer relies on the chunk staying as it saw it. */
    method Release(t: string, ghost own: set<Claim>)
      requires Valid() && Mine(own) && mine(Call(t)) && Call(t) !in own
      modifies this
      ensures After(old(st), old(trace), own)
      ensures st == old(st).(checks := old(st).checks - {t})
    {
      Take(EndCheck(t), old(st), old(trace), own);
    }

    /** The URL is parsed on the way, and the store sees the path it names; what names none gets no answer. */
    method InitiateMultipartUpload(u: string, storagePath: string, ghost own: set<Claim>) returns (id: Option<string>)
      requires Valid() && Mine(own) && u in st.uploads && u in st.counted && storagePath == st.uploads[u].storagePath
      modifies this
      ensures After(old(st), old(trace), own)
      ensures id.Some? ==> mine(Open(id.value)) && id.value in st.multiparts && st.multiparts[id.value].upload == u && st.multiparts[id.value].parts == map[]
      ensures id.Some? ==> StoreKey(storagePath) == Some(st.multiparts[id.value].dest)
      ensures quiet ==> st == old(st).(multiparts := st.multiparts)
      ensures quiet && id.Some? ==> id.value !in old(st).multiparts && st.multiparts - {id.value} == old(st).multiparts
      ensures quiet && id.None? && Starting !in failing ==> st.multiparts == old(st).multiparts
      ensures Starting !in failing ==> (id.Some? <==> StoreKey(storagePath).Some?)
    {
      Interfere(own);
      assert UploadGrows(old(st), st, u);
      id := None;
      StoreKeyIs(storagePath);
      var dest := Destination(storagePath);
      if dest.None? { return; }
      var applied, err := Attempted(Starting);
      if applied {
        DrawId(trace, mineAt, mine, st.multiparts.Keys);
        var answer: string :| answer != "" && answer !in st.multiparts && mine(Open(answer));
        TakeStart(answer, u, dest.value, old(st), old(trace), own);
        if !err { id := Some(answer); }
      }
    }

    method TakeStart(id: string, u: string, dest: string, ghost s: State, ghost t: seq<Event>, ghost own: set<Claim>)
      requires After(s, t, own) && mine(Open(id)) && Enabled(st, Initiate(id, u, dest))
      modifies this
      ensures After(s, t, own) && id !in old(st).multiparts
      ensures st == old(st).(multiparts := old(st).multiparts[id := Multipart(dest, u, map[])])
      ensures st.multiparts - {id} == old(st).multiparts
    {
      Take(Initiate(id, u, dest), s, t, own);
      OneChanged(old(st).multiparts, id, Multipart(dest, u, map[]));
    }

    lemma OneChanged(multiparts: map<string, Multipart>, id: string, m: Multipart)
      ensures multiparts[id := m] - {id} == multiparts - {id}
      ensures id !in multiparts ==> multiparts[id := m] - {id} == multiparts
    {
    }

    method UploadPartCopy(id: string, number: nat, src: string, ghost u: string, ghost own: set<Claim>) returns (etag: Option<string>)
      requires Valid() && Mine(own) && Open(id) in own && id in st.multiparts && st.multiparts[id].upload == u
      requires u in st.uploads && 1 <= number <= st.uploads[u].total && src == ChunkKey(st.uploads[u].chunkPath, number - 1)
      modifies this
      ensures After(old(st), old(trace), own - {Open(id)})
      ensures id in st.multiparts
      ensures etag.Some? ==>
        number in st.multiparts[id].parts
        && st.multiparts[id].parts == old(st).multiparts[id].parts[number := st.multiparts[id].parts[number]]
        && st.multiparts[id].parts[number].etag == etag.value && etag.value != ""
      ensures st.multiparts[id] == old(st).multiparts[id].(parts := st.multiparts[id].parts)
      ensures quiet ==> st == old(st).(multiparts := st.multiparts) && st.multiparts - {id} == old(st).multiparts - {id}
      ensures quiet && etag.Some? ==> src in st.objects && st.multiparts[id].parts[number].data == st.objects[src]
      ensures quiet && Copying !in failing ==> (etag.Some? <==> src in st.objects)
    {
      Interfere(own);
      assert Kept(old(st), st, Open(id));
      assert UploadGrows(old(st), st, u);
      etag := None;
      var applied, err := Attempted(Copying);
      if applied && src in st.objects {
        var tag := PartTag();
        TakeCopy(id, number, src, tag, old(st), old(trace), own - {Open(id)});
        if !err && tag != "" { etag := Some(tag); }
      }
    }

    method TakeCopy(id: string, number: nat, src: string, tag: string, ghost s: State, ghost t: seq<Event>, ghost own: set<Claim>)
      requires After(s, t, own) && mine(Open(id)) && Open(id) !in own && Enabled(st, CopyPart(id, number, src, tag))
      modifies this
      ensures After(s, t, own) && id in old(st).multiparts && src in old(st).objects
      ensures var m := old(st).multiparts[id];
        st == old(st).(multiparts := old(st).multiparts[id := m.(parts := m.parts[number := PartData(old(st).objects[src], tag)])])
      ensures st.multiparts - {id} == old(st).multiparts - {id}
    {
      Take(CopyPart(id, number, src, tag), s, t, own);
      OneChanged(old(st).multiparts, id, st.multiparts[id]);
    }

    method CompleteMultipartUpload(id: string, list: seq<PartRef>, ghost u: string, ghost own: set<Claim>) returns (err: bool)
      requires Valid() && Mine(own) && Open(id) in own && id in st.multiparts && st.multiparts[id].upload == u
      requires u in st.uploads && |list| == st.uploads[u].total
      requires S3Accepts(st.multiparts[id], list) && forall k | 0 <= k < |list| :: list[k].number == k + 1
      modifies this
      ensures After(old(st), old(trace), own - {Open(id)})
      ensures !err ==> u in st.merged
      ensures err ==> id !in st.multiparts || st.multiparts[id] == old(st).multiparts[id]
      ensures quiet ==> st == old(st).(objects := st.objects, multiparts := st.multiparts, merged := st.merged)
      ensures quiet ==> st.multiparts - {id} == old(st).multiparts - {id} && (!err ==> id !in st.multiparts)
      ensures quiet && st.objects != old(st).objects ==>
        st.objects == old(st).objects[old(st).multiparts[id].dest := Assemble(old(st).multiparts[id].parts, list)]
      ensures quiet && !err ==>
        st.objects == old(st).objects[old(st).multiparts[id].dest := Assemble(old(st).multiparts[id].parts, list)]
      ensures Finishing !in failing ==> !err
    {
      Interfere(own);
      assert Kept(old(st), st, Open(id));
      assert UploadGrows(old(st), st, u);
      var applied;
      applied, err := Attempted(Finishing);
      if applied {
        TakeCompletion(id, list, old(st), old(trace), own - {Open(id)});
      }
    }

    method TakeCompletion(id: string, list: seq<PartRef>, ghost s: State, ghost t: seq<Event>, ghost own: set<Claim>)
      requires After(s, t, own) && mine(Open(id)) && Open(id) !in own && Enabled(st, CompleteParts(id, list))
      modifies this
      ensures After(s, t, own) && id in old(st).multiparts && forall k | 0 <= k < |list| :: list[k].number in old(st).multiparts[id].parts
      ensures var m := old(st).multiparts[id];
        st == old(st).(multiparts := old(st).multiparts - {id}, objects := old(st).objects[m.dest := Assemble(m.parts, list)],
                       merged := old(st).merged + {m.upload})
    {
      Take(CompleteParts(id, list), s, t, own);
    }

    method AbortMultipartUpload(id: string, ghost own: set<Claim>)
      requires Valid() && Mine(own) && mine(Open(id)) && Open(id) !in own
      modifies this
      ensures After(old(st), old(trace), own)
      ensures quiet ==> st == old(st).(multiparts := st.multiparts)
      ensures quiet ==> st.multiparts == old(st).multiparts || st.multiparts == old(st).multiparts - {id}
      ensures quiet && Aborting !in failing ==> st.multiparts == old(st).multiparts - {id}
    {
      Interfere(own);
      var applied, err := Attempted(Aborting);
      if applied {
        Take(Abort(id), old(st), old(trace), own);
      }
    }
  
    /** Upload part i+1 and put it on the list. */
    method CopyNext(id: string, chunkPath: string, parts: seq<PartRef>, ghost u: string, ghost objects: map<string, Bytes>, ghost own: set<Claim>)
      returns (next: Option<seq<PartRef>>)
      requires Valid() && Mine(own) && mine(Open(id)) && Open(id) !in own && id in st.multiparts && ListedAll(st.multiparts[id], parts, u)
      requires u in st.uploads && |parts| < st.uploads[u].total && chunkPath == st.uploads[u].chunkPath
      requires quiet ==> objects == st.objects && FromAll(st.multiparts[id], objects, chunkPath, |parts|)
      modifies this
      ensures After(old(st), old(trace), own)
      ensures quiet ==> st == old(st).(multiparts := st.multiparts) && st.multiparts - {id} == old(st).multiparts - {id}
      ensures quiet && next.None? && Aborting !in failing ==> id !in st.multiparts
      ensures next.Some? ==> |next.value| == |parts| + 1 && id in st.multiparts && ListedAll(st.multiparts[id], next.value, u)
      ensures next.Some? && quiet ==> FromAll(st.multiparts[id], objects, chunkPath, |next.value|)
      ensures quiet && Copying !in failing ==> (next.Some? <==> ChunkKey(chunkPath, |parts|) in objects)
    {
      var i := |parts|;
      var srcKey := ChunkKey(chunkPath, i);
      var etag := UploadPartCopy(id, i + 1, srcKey, u, own + {Open(id)});
      assert own + {Open(id)} - {Open(id)} == own;
      if etag.None? {
        ghost var s, t := st, trace;
        AbortMultipartUpload(id, own);
        Chained(old(st), old(trace), s, t, own);
        return None;
      }
      next := Some(parts + [PartRef(i + 1, etag.value)]);
      CopiedOneMore(old(st).multiparts[id], st.multiparts[id], parts, PartRef(i + 1, etag.value), u);
      if quiet { FromOneMore(old(st).multiparts[id], st.multiparts[id], objects, chunkPath, i); }
    }

    /** Complete the multipart upload with every part, or abort it. */
    method CompleteOrAbort(id: string, chunkPath: string, parts: seq<PartRef>, ghost u: string, ghost own: set<Claim>) returns (err: bool)
      requires Valid() && Mine(own) && mine(Open(id)) && Open(id) !in own && id in st.multiparts && ListedAll(st.multiparts[id], parts, u)
      requires u in st.uploads && |parts| == st.uploads[u].total
      requires quiet ==> FromAll(st.multiparts[id], st.objects, chunkPath, |parts|)
      requires StoreKey(st.uploads[u].storagePath) == Some(st.multiparts[id].dest)
      modifies this
      ensures After(old(st), old(trace), own)
      ensures !err ==> u in st.merged
      ensures quiet ==> st == old(st).(objects := st.objects, multiparts := st.multiparts, merged := st.merged)
      ensures quiet ==> st.multiparts - {id} == old(st).multiparts - {id}
      ensures quiet && (!err || Aborting !in failing) ==> id !in st.multiparts
      ensures quiet && (!err || st.objects != old(st).objects) ==>
        Joined(old(st).objects, st.objects, StoreKey(old(st).uploads[u].storagePath).value, chunkPath, |parts|)
      ensures Finishing !in failing ==> !err
    {
      Holds();
      assert UploadLaid(st, u);
      AcceptsAll(st.multiparts[id], parts, u);
      if quiet { PartsAreSources(st.multiparts[id], parts, st.objects, chunkPath, u); }
      err := CompleteMultipartUpload(id, parts, u, own + {Open(id)});
      assert own + {Open(id)} - {Open(id)} == own;
      if err {
        ghost var s, t := st, trace;
        AbortMultipartUpload(id, own);
        Chained(old(st), old(trace), s, t, own);
      }
    }

    /** Copy parts 1..n in order; the first failure aborts the multipart upload. */
    method CopyParts(id: string, chunkPath: string, total: nat, ghost u: string, ghost own: set<Claim>) returns (parts: seq<PartRef>, failed: bool)
      requires Valid() && Mine(own) && mine(Open(id)) && Open(id) !in own && id in st.multiparts && st.multiparts[id].upload == u
      requires u in st.uploads && chunkPath == st.uploads[u].chunkPath && total == st.uploads[u].total
      modifies this
      ensures After(old(st), old(trace), own)
      ensures quiet ==> st == old(st).(multiparts := st.multiparts) && st.multiparts - {id} == old(st).multiparts - {id}
      ensures quiet && failed && Aborting !in failing ==> id !in st.multiparts
      ensures !failed ==> |parts| == total && id in st.multiparts && ListedAll(st.multiparts[id], parts, u)
      ensures !failed && quiet ==> FromAll(st.multiparts[id], st.objects, chunkPath, total)
      ensures quiet && Copying !in failing ==> (failed <==> !Present(st.objects, chunkPath, total))
    {
      parts := [];
      while |parts| < total
        invariant |parts| <= total && After(old(st), old(trace), own)
        invariant id in st.multiparts && ListedAll(st.multiparts[id], parts, u)
        invariant quiet ==> st == old(st).(multiparts := st.multiparts) && st.multiparts - {id} == old(st).multiparts - {id}
        invariant quiet ==> FromAll(st.multiparts[id], st.objects, chunkPath, |parts|)
        decreases total - |parts|
      {
        var next := CopyOn(id, chunkPath, total, parts, u, own, old(st), old(trace));
        if next.None? {
          return parts, true;
        }
        parts := next.value;
      }
      failed := false;
      if quiet { AllPresent(st.multiparts[id], st.objects, chunkPath, total); }
    }

    /** The next part, some way into a run that began at s and t. */
    method CopyOn(id: string, chunkPath: string, total: nat, parts: seq<PartRef>, ghost u: string, ghost own: set<Claim>, ghost s: State, ghost t: seq<Event>)
      returns (next: Option<seq<PartRef>>)
      requires After(s, t, own) && Mine(own) && mine(Open(id)) && Open(id) !in own && id in st.multiparts && ListedAll(st.multiparts[id], parts, u)
      requires u in s.uploads && |parts| < total == s.uploads[u].total && chunkPath == s.uploads[u].chunkPath
      requires quiet ==> FromAll(st.multiparts[id], st.objects, chunkPath, |parts|)
      modifies this
      ensures After(s, t, own)
      ensures quiet ==> st == old(st).(multiparts := st.multiparts) && st.multiparts - {id} == old(st).multiparts - {id}
      ensures quiet && next.None? && Aborting !in failing ==> id !in st.multiparts
      ensures next.Some? ==> |next.value| == |parts| + 1 && id in st.multiparts && ListedAll(st.multiparts[id], next.value, u)
      ensures next.Some? && quiet ==> FromAll(st.multiparts[id], st.objects, chunkPath, |next.value|)
      ensures quiet && next.None? && Copying !in failing ==> !Present(st.objects, chunkPath, total)
    {
      ghost var s1, t1 := st, trace;
      assert UploadGrows(s, st, u);
      next := CopyNext(id, chunkPath, parts, u, st.objects, own);
      Chained(s, t, s1, t1, own);
      if quiet && Copying !in failing && next.None? { MissingOne(st.objects, chunkPath, |parts|, total); }
    }

    /** MergeChunk of the storage client: copy parts 1..n in order, then complete, or abort. */
    method MergeObjects(u: string, storagePath: string, chunkPath: string, total: nat, ghost own: set<Claim>) returns (end: MergeEnd)
      requires Valid() && Mine(own) && u in st.uploads && u in st.counted && (forall id :: Open(id) !in own)
      requires storagePath == st.uploads[u].storagePath && chunkPath == st.uploads[u].chunkPath && total == st.uploads[u].total
      modifies this
      ensures After(old(st), old(trace), own)
      ensures end == Finished ==> u in st.merged
      ensures quiet ==> MergeEffect(old(st), st, storagePath, chunkPath, total, end)
      ensures quiet && Aborting !in failing && (!end.NotStarted? || Starting !in failing) ==> st.multiparts == old(st).multiparts
      ensures Finishing !in failing ==> end != CompleteFailed
      ensures quiet && failing !! {Starting, Copying} ==>
        if StoreKey(storagePath).None? then end == NotStarted
        else if Present(old(st).objects, chunkPath, total) then end == Finished || end == CompleteFailed else end.CopyFailed?
    {
      var started := InitiateMultipartUpload(u, storagePath, own);
      if started.None? {
        if quiet { MergeStopped(old(st), st, storagePath, chunkPath, total, NotStarted); }
        return NotStarted;
      }
      ghost var s, t := st, trace;
      assert UploadGrows(old(st), st, u);
      end := CopyAndComplete(started.value, u, storagePath, chunkPath, total, own);
      Chained(old(st), old(trace), s, t, own);
      if quiet { MergeEffectAfter(old(st), s, st, storagePath, chunkPath, total, end); }
    }

    method CopyAndComplete(id: string, ghost u: string, ghost storagePath: string, chunkPath: string, total: nat, ghost own: set<Claim>) returns (end: MergeEnd)
      requires Valid() && Mine(own) && mine(Open(id)) && u in st.uploads && Open(id) !in own && id in st.multiparts && st.multiparts[id].upload == u
      requires storagePath == st.uploads[u].storagePath && chunkPath == st.uploads[u].chunkPath && total == st.uploads[u].total
      modifies this
      ensures After(old(st), old(trace), own) && !end.NotStarted?
      ensures end == Finished ==> u in st.merged
      ensures quiet ==> MergeEffect(old(st), st, storagePath, chunkPath, total, end)
      ensures quiet ==> st.multiparts - {id} == old(st).multiparts - {id}
      ensures quiet && (end == Finished || Aborting !in failing) ==> id !in st.multiparts
      ensures Finishing !in failing ==> end != CompleteFailed
      ensures quiet && Copying !in failing ==>
        if Present(old(st).objects, chunkPath, total) then end == Finished || end == CompleteFailed else end.CopyFailed?
    {
      var parts, failed := CopyParts(id, chunkPath, total, u, own);
      if failed {
        if quiet { MergeStopped(old(st), st, storagePath, chunkPath, total, CopyFailed(|parts|)); }
        return CopyFailed(|parts|);
      }
      ghost var s := st;
      end := AssembleParts(id, u, chunkPath, parts, own, old(st), old(trace));
      if quiet { MergeEffectAfter(old(st), s, st, storagePath, chunkPath, total, end); }
    }

    method AssembleParts(id: string, ghost u: string, chunkPath: string, parts: seq<PartRef>, ghost own: set<Claim>, ghost s: State, ghost t: seq<Event>)
      returns (end: MergeEnd)
      requires After(s, t, own) && Mine(own) && mine(Open(id)) && Open(id) !in own && u in s.uploads && chunkPath == s.uploads[u].chunkPath && |parts| == s.uploads[u].total
      requires id in st.multiparts && ListedAll(st.multiparts[id], parts, u)
      requires quiet ==> FromAll(st.multiparts[id], st.objects, chunkPath, |parts|)
      modifies this
      ensures After(s, t, own) && (end == CompleteFailed || end == Finished) && (end == Finished ==> u in st.merged)
      ensures quiet ==> MergeEffect(old(st), st, s.uploads[u].storagePath, chunkPath, |parts|, end)
      ensures quiet ==> st.multiparts - {id} == old(st).multiparts - {id}
      ensures quiet && (end == Finished || Aborting !in failing) ==> id !in st.multiparts
      ensures Finishing !in failing ==> end == Finished
    {
      ghost var s1, t1 := st, trace;
      assert UploadGrows(s, st, u);
      Holds();
      assert PartsOf(st, st.multiparts[id]);
      var err := CompleteOrAbort(id, chunkPath, parts, u, own);
      Chained(s, t, s1, t1, own);
      end := if err then CompleteFailed else Finished;
    }

    // ---- the cleanup worker's storage call ----

    /**
     DeleteChunks: one delete per index, whatever the earlier ones answered.  `log` are its
     own deletes, in order, among whatever else happens meanwhile.
     */
    method DeleteChunks(path: string, total: nat, ghost own: set<Claim>) returns (firstErr: Option<nat>, ghost log: seq<Event>)
      requires Valid() && Mine(own) && CleanupRequest(path, total) in st.cleanups
      modifies this
      ensures After(old(st), old(trace), own)
      ensures |log| == total && Attempts(log, path, firstErr)
      ensures Logged(log, old(trace), trace)
      ensures quiet ==> trace == old(trace) + log
      ensures quiet ==> st == old(st).(objects := st.objects) && OnlyRemoved(old(st).objects, st.objects, KeysBelow(path, total))
      ensures quiet && firstErr.None? ==> st.objects.Keys !! KeysBelow(path, total)
      ensures Deleting !in failing ==> firstErr.None?
    {
      firstErr := None;
      log := [];
      var i := 0;
      ghost var none: set<string> := {};
      assert st.objects == st.objects - none;
      while i < total
        invariant 0 <= i <= total && After(old(st), old(trace), own) && |log| == i
        invariant CleanupRequest(path, total) in st.cleanups && Attempts(log, path, firstErr)
        invariant Logged(log, old(trace), trace)
        invariant quiet ==> Deleted(old(st), old(trace), st, trace, path, log, firstErr)
        invariant Deleting !in failing ==> firstErr.None?
      {
        firstErr, log := DeleteNext(path, i, total, own, old(st), old(trace), log, firstErr);
        i := i + 1;
      }
    }

    method DeleteNext(path: string, i: nat, ghost total: nat, ghost own: set<Claim>, ghost s: State, ghost t: seq<Event>, ghost log: seq<Event>, firstErr: Option<nat>)
      returns (firstErr': Option<nat>, ghost log': seq<Event>)
      requires After(s, t, own) && Mine(own) && CleanupRequest(path, total) in st.cleanups && i < total && |log| == i
      requires Attempts(log, path, firstErr) && Logged(log, t, trace)
      requires quiet ==> Deleted(s, t, st, trace, path, log, firstErr)
      modifies this
      ensures After(s, t, own) && CleanupRequest(path, total) in st.cleanups && |log'| == i + 1
      ensures Attempts(log', path, firstErr') && Logged(log', t, trace)
      ensures quiet ==> Deleted(s, t, st, trace, path, log', firstErr')
      ensures Deleting !in failing ==> firstErr' == firstErr
    {
      ghost var e;
      var err;
      ghost var s1, t1 := st, trace;
      err, e := DeleteOne(path, i, total, own);
      Chained(s, t, s1, t1, own);
      OneMoreAttempt(log, e, path, firstErr);
      LoggedMore(log, t, t1, e, trace);
      if quiet { DeletedMore(s, t, s1, t1, st, trace, path, log, firstErr, e); }
      log' := log + [e];
      firstErr' := if err && firstErr.None? then Some(i) else firstErr;
    }

    method DeleteOne(path: string, i: nat, ghost total: nat, ghost own: set<Claim>) returns (err: bool, ghost e: Event)
      requires Valid() && Mine(own) && CleanupRequest(path, total) in st.cleanups && i < total
      modifies this
      ensures After(old(st), old(trace), own)
      ensures Attempt(e, path, i) && (err <==> !e.ok)
      ensures |trace| > |old(trace)| && trace[|trace| - 1] == e
      ensures quiet ==> trace == old(trace) + [e]
      ensures quiet ==> st == old(st).(objects := st.objects) && OnlyRemoved(old(st).objects, st.objects, {ChunkKey(path, i)})
      ensures quiet && !err ==> ChunkKey(path, i) !in st.objects
      ensures Deleting !in failing ==> !err
    {
      Interfere(own);
      var removed;
      removed, err := Attempted(Deleting);
      e := DeleteKey(path, i, removed, !err);
      assert CleanupRequest(path, total) in st.cleanups;
      ghost var gone := if removed then {ChunkKey(path, i)} else {};
      Take(DeleteKey(path, i, removed, !err), old(st), old(trace), own);
      assert quiet ==> st.objects == old(st).objects - gone;
    }

    // ---- handlers ----

    /** The two lookups every chunk request starts with. */
    method FindChunk(user: string, u: string, c: string, i: nat, ghost own: set<Claim>) returns (found: Option<(UploadRow, ChunkRow)>)
      requires Valid() && Mine(own)
      modifies this
      ensures After(old(st), old(trace), own)
      ensures quiet ==> st == old(st)
      ensures found.Some? ==>
        && OwnChunk(st, user, u, c, i)
        && found.value.0 == st.uploads[u].(status := found.value.0.status)
        && found.value.1 == st.chunks[c] && found.value.1.key == ChunkKey(found.value.0.chunkPath, i)
      ensures found.Some? && quiet ==> found.value.0 == st.uploads[u]
      ensures quiet && Reading !in failing ==> (found.Some? <==> OwnChunk(st, user, u, c, i))
    {
      var err, upload := QueryByUserAndUUID(u, user, own);
      if err || upload.None? { return None; }
      ghost var s1, t1 := st, trace;
      var err', chunk := QueryChunk(c, u, i, own);
      Chained(old(st), old(trace), s1, t1, own);
      if err' || chunk.None? { return None; }
      assert UploadGrows(s1, st, u);
      Holds();
      assert ChunkLaid(st, c);
      found := Some((upload.value, chunk.value));
    }

    /** The key a chunk request works on: the row's, or built from the prefix. */
    function KeyOf(upload: UploadRow, chunk: ChunkRow): (key: string)
      ensures chunk.key != "" ==> key == chunk.key
      ensures chunk.key == "" ==> key == upload.chunkPath + Decimal(chunk.index)
    {
      if chunk.key == "" then ChunkKey(upload.chunkPath, chunk.index) else chunk.key
    }

    /** CompleteChunk: check the size, mark the chunk, and start merging once all are completed. */
    method CompleteChunk(user: string, u: string, c: string, i: nat, chunkSize: nat, hash: string, t: string) returns (ok: bool)
      requires Valid() && mine(Call(t)) && t !in st.checks
      modifies this
      ensures After(old(st), old(trace), {})
      ensures quiet ==> CompleteChunkSpec(old(st), user, u, c, i, chunkSize, hash, st, ok)
      ensures quiet && failing !! {Reading, Heading, Marking, Counting} ==> (ok <==> Accepts(old(st), user, u, c, i, chunkSize))
      ensures quiet && ok && StatusWrite !in failing ==> u in old(st).uploads && st.uploads == WhenFull(old(st).uploads, st, u)
      ensures Calm() ==> CompleteChunkExact(old(st), user, u, c, i, chunkSize, hash, st, ok)
      ensures ok ==> c in st.body
      ensures quiet && ok ==> |st.body[c]| == chunkSize
    {
      var found := FindChunk(user, u, c, i, {Call(t)});
      if found.None? { return false; }
      ghost var s1, t1 := st, trace;
      assert Kept(old(st), st, Call(t));
      ok := CompleteFound(user, u, c, i, chunkSize, hash, t, found.value.0, found.value.1);
      Chained(old(st), old(trace), s1, t1, {});
    }

    /** CompleteChunk once the two rows are read. */
    method CompleteFound(user: string, u: string, c: string, i: nat, chunkSize: nat, hash: string, t: string, upload: UploadRow, chunk: ChunkRow)
      returns (ok: bool)
      requires Valid() && mine(Call(t)) && t !in st.checks && OwnChunk(st, user, u, c, i)
      requires upload == st.uploads[u].(status := upload.status) && chunk == st.chunks[c] && chunk.key == ChunkKey(upload.chunkPath, i)
      requires quiet ==> upload == st.uploads[u]
      modifies this
      ensures After(old(st), old(trace), {})
      ensures quiet ==> CompleteChunkSpec(old(st), user, u, c, i, chunkSize, hash, st, ok)
      ensures quiet && failing !! {Heading, Marking, Counting} ==> (ok <==> Accepts(old(st), user, u, c, i, chunkSize))
      ensures quiet && ok && StatusWrite !in failing ==> st.uploads == WhenFull(old(st).uploads, st, u)
      ensures quiet && !ok && !Accepts(old(st), user, u, c, i, chunkSize) ==> st.chunks == old(st).chunks
      ensures ok ==> c in st.body
      ensures quiet && ok ==> |st.body[c]| == chunkSize
    {
      var key := KeyOf(upload, chunk);
      ghost var s1, t1 := st, trace;
      Holds();
      var size := HeadObject(t, c, key, {Call(t)});
      assert {Call(t)} - {Call(t)} == {};
      assert UploadGrows(s1, st, u);
      if size.None? { return false; }
      CompletedHasBody(c, chunk.status, s1);
      ghost var s2, t2 := st, trace;
      ok := CompleteChecked(u, c, i, chunkSize, hash, t, size.value, upload, chunk.status);
      Chained(s1, t1, s2, t2, {});
    }

    /** A row that was read as Completed belongs to a chunk whose bytes are fixed. */
    lemma CompletedHasBody(c: string, status: ChunkStatus, s: State)
      requires Valid() && Inv(s) && Grows(s, st) && c in s.chunks && status == s.chunks[c].status
      ensures status.Completed? ==> c in st.body
    {
      assert CompletedDone(s, c);
    }

    /** CompleteChunk once the object's size is known. */
    method CompleteChecked(u: string, c: string, i: nat, chunkSize: nat, hash: string, t: string, size: nat, upload: UploadRow, status: ChunkStatus) returns (ok: bool)
      requires Valid() && mine(Call(t)) && t in st.checks && c in st.chunks && st.checks[t].chunk == c && size == st.checks[t].size
      requires u in st.uploads && upload == st.uploads[u].(status := upload.status)
      requires quiet ==> upload.status == st.uploads[u].status && status == st.chunks[c].status
      requires status.Completed? ==> c in st.body
      requires Standings(st, c, size)
      modifies this
      ensures After(old(st), old(trace), {})
      ensures quiet ==> st == old(st).(uploads := st.uploads, chunks := st.chunks, body := st.body, counted := st.counted, checks := old(st).checks - {t})
      ensures quiet ==>
        (st.chunks == old(st).chunks
         || (size == chunkSize && !status.Completed?
             && st.chunks == old(st).chunks[c := old(st).chunks[c].(hash := hash, size := size, status := Completed)]))
      ensures quiet ==>
        (st.uploads == old(st).uploads
         || (CountFull(st, u) && old(st).uploads[u].status !in {Success, Merging}
             && st.uploads == Restatus(old(st).uploads, u, Merging)))
      ensures ok ==> size == chunkSize && c in st.body
      ensures quiet && ok ==> |st.body[c]| == size
      ensures quiet && ok ==> st.chunks == CompletedRow(old(st).chunks, c, hash, size)
      ensures quiet && !ok ==> st.uploads == old(st).uploads
      ensures failing !! {Marking, Counting} ==> (ok <==> size == chunkSize)
      ensures quiet && ok && StatusWrite !in failing ==> st.uploads == WhenFull(old(st).uploads, st, u)
      ensures quiet && size != chunkSize ==> st.chunks == old(st).chunks
    {
      if size != chunkSize {
        Release(t, {});
        return false;
      }
      var failed := MarkUnlessCompleted(t, c, hash, size, status);
      assert UploadGrows(old(st), st, u);
      if failed { return false; }
      ghost var s1, t1 := st, trace;
      ok := MergeWhenComplete(u, upload);
      Chained(old(st), old(trace), s1, t1, {});
    }

    /** The row write of CompleteChunk, unless the row read earlier was already Completed. */
    method MarkUnlessCompleted(t: string, c: string, hash: string, size: nat, status: ChunkStatus) returns (err: bool)
      requires Valid() && mine(Call(t)) && t in st.checks && c in st.chunks && st.checks[t].chunk == c && size == st.checks[t].size
      requires quiet ==> status == st.chunks[c].status
      requires status.Completed? ==> c in st.body
      requires Standings(st, c, size)
      modifies this
      ensures After(old(st), old(trace), {})
      ensures quiet ==> st == old(st).(chunks := st.chunks, body := st.body, checks := old(st).checks - {t})
      ensures quiet ==>
        (st.chunks == old(st).chunks
         || (!status.Completed? && st.chunks == old(st).chunks[c := old(st).chunks[c].(hash := hash, size := size, status := Completed)]))
      ensures quiet && !err ==> st.chunks == CompletedRow(old(st).chunks, c, hash, size)
      ensures !err ==> c in st.body
      ensures quiet && !err ==> |st.body[c]| == size
      ensures Marking !in failing ==> !err
    {
      err := false;
      if !status.Completed? {
        err := MarkChunkCompleted(t, c, hash, size, {Call(t)});
      }
      ghost var s1, t1 := st, trace;
      Release(t, {});
      Chained(old(st), old(trace), s1, t1, {});
    }

    /** The end of CompleteChunk: count, and move the upload to Merging. */
    method MergeWhenComplete(u: string, upload: UploadRow) returns (ok: bool)
      requires Valid() && u in st.uploads && upload == st.uploads[u].(status := upload.status)
      requires quiet ==> upload.status == st.uploads[u].status
      modifies this
      ensures After(old(st), old(trace), {})
      ensures quiet ==> st == old(st).(uploads := st.uploads, counted := st.counted)
      ensures quiet ==>
        (st.uploads == old(st).uploads
         || (CountFull(st, u) && old(st).uploads[u].status !in {Success, Merging}
             && st.uploads == Restatus(old(st).uploads, u, Merging)))
      ensures Counting !in failing ==> ok
      ensures quiet && !ok ==> st.uploads == old(st).uploads
      ensures quiet && ok && StatusWrite !in failing ==> st.uploads == WhenFull(old(st).uploads, st, u)
    {
      var err, count := CountChunk(u, {});
      if err { return false; }
      if count == upload.total && !upload.status.Success? && !upload.status.Merging? {
        assert UploadGrows(old(st), st, u);
        ghost var s1, t1 := st, trace;
        var ignored := UpdateUploadVideoStatus(u, Merging, {});
        Chained(old(st), old(trace), s1, t1, {});
      }
      ok := true;
    }
  
    /** PresignChunk: the chunk goes to Uploading; a completed one gets no link. */
    method PresignChunk(user: string, u: string, c: string, i: nat, signFails: bool) returns (reply: Option<Option<string>>)
      requires Valid()
      modifies this
      ensures After(old(st), old(trace), {})
      ensures quiet ==> PresignChunkSpec(old(st), user, u, c, i, st, reply)
      ensures quiet && failing !! {Reading, ChunkWrite} ==>
        (reply.Some? <==> OwnChunk(old(st), user, u, c, i) && (signFails ==> old(st).chunks[c].status.Completed?))
      ensures quiet && signFails && reply.Some? ==> reply == Some(None)
      ensures Calm() && !signFails ==> PresignChunkExact(old(st), user, u, c, i, st, reply)
    {
      var found := FindChunk(user, u, c, i, {});
      if found.None? { return None; }
      var (upload, chunk) := found.value;
      var key := KeyOf(upload, chunk);
      ghost var s1, t1 := st, trace;
      var err := StartUploading(u, c, chunk.index == 0 && upload.status == Init);
      Chained(old(st), old(trace), s1, t1, {});
      if err { return None; }
      if chunk.status.Completed? { return Some(None); }
      if signFails { return None; }
      reply := Some(Some(key));
    }

    /** The two status writes of PresignChunk; the first one's failure is ignored. */
    method StartUploading(u: string, c: string, first: bool) returns (err: bool)
      requires Valid() && u in st.uploads && c in st.chunks
      modifies this
      ensures After(old(st), old(trace), {})
      ensures quiet ==> st == old(st).(uploads := st.uploads, chunks := st.chunks)
      ensures quiet ==> st.uploads == old(st).uploads || (first && st.uploads == Restatus(old(st).uploads, u, Uploading))
      ensures quiet ==> st.chunks == old(st).chunks || st.chunks == old(st).chunks[c := old(st).chunks[c].(status := ChunkUploading)]
      ensures quiet && !err ==> st.chunks == old(st).chunks[c := old(st).chunks[c].(status := ChunkUploading)]
      ensures ChunkWrite !in failing ==> !err
      ensures quiet && StatusWrite !in failing ==> st.uploads == if first then Restatus(old(st).uploads, u, Uploading) else old(st).uploads
    {
      MarkFirst(u, first);
      assert ChunkGrows(old(st), st, c);
      ghost var s1, t1 := st, trace;
      err := UpdateUploadChunkStatus(c, {});
      Chained(old(st), old(trace), s1, t1, {});
    }

    method MarkFirst(u: string, first: bool)
      requires Valid() && u in st.uploads
      modifies this
      ensures After(old(st), old(trace), {})
      ensures quiet ==> st == old(st).(uploads := st.uploads)
      ensures quiet ==> st.uploads == old(st).uploads || (first && st.uploads == Restatus(old(st).uploads, u, Uploading))
      ensures quiet && StatusWrite !in failing ==> st.uploads == if first then Restatus(old(st).uploads, u, Uploading) else old(st).uploads
    {
      if first {
        var ignored := UpdateUploadVideoStatus(u, Uploading, {});
      }
    }

    // ---- init ----

    /** QueryByUploadVideoHash. */
    method QueryByFileHash(cmd: InitCommand, ghost own: set<Claim>) returns (err: bool, u: Option<string>)
      requires Valid() && Mine(own)
      modifies this
      ensures After(old(st), old(trace), own)
      ensures quiet ==> st == old(st)
      ensures u.Some? ==> !err && u.value in st.uploads && SameFile(st.uploads[u.value], cmd)
      ensures !err && u.None? ==> !Known(st, cmd)
      ensures Reading !in failing ==> !err
    {
      Interfere(own);
      err := Fails(Reading);
      u := None;
      if !err && exists w | w in st.uploads :: SameFile(st.uploads[w], cmd) {
        var w :| w in st.uploads && SameFile(st.uploads[w], cmd);
        u := Some(w);
      }
    }

    /** By the layout, the upload's chunk rows ordered by index are exactly its ids. */
    lemma IdsAreRows(u: string)
      requires Valid() && u in st.uploads
      ensures u in st.ids && RowsInOrder(st, u, st.ids[u])
    {
      Holds();
      assert UploadLaid(st, u);
      forall c | c in st.chunks && st.chunks[c].upload == u ensures c in st.ids[u] {
        assert ChunkLaid(st, c);
      }
    }

    /** QueryByUploadVideoUUID: every chunk row of the upload, ORDER BY chunk_index. */
    method QueryChunks(u: string, ghost own: set<Claim>) returns (err: bool, cs: seq<string>)
      requires Valid() && Mine(own) && u in st.uploads
      modifies this
      ensures After(old(st), old(trace), own)
      ensures quiet ==> st == old(st)
      ensures !err ==> RowsInOrder(st, u, cs)
      ensures Reading !in failing ==> !err
    {
      Interfere(own);
      assert UploadGrows(old(st), st, u);
      IdsAreRows(u);
      err := Fails(Reading);
      cs := st.ids[u];
    }

    /** BatchCreate: the upload row and all its chunk rows, in one transaction. */
    method BatchCreate(u: string, row: UploadRow, cs: seq<string>, entities: seq<ChunkRow>, ghost own: set<Claim>) returns (err: bool)
      requires Valid() && Mine(own) && NewUpload(st, u, row, cs) && Fresh(u) in own && (forall c | c in cs :: Fresh(c) in own)
      requires |entities| == |cs| && forall k: nat | k < |cs| :: entities[k] == NewChunkRow(u, row, k)
      modifies this
      ensures After(old(st), old(trace), {})
      ensures quiet ==> st == old(st) || st == WithUpload(old(st), u, row, cs)
      ensures !err ==> u in st.uploads && st.uploads[u] == row.(status := st.uploads[u].status) && RowsInOrder(st, u, cs)
      ensures quiet && !err ==> st == WithUpload(old(st), u, row, cs)
      ensures Creating !in failing ==> !err
    {
      Interfere(own);
      assert Kept(old(st), st, Fresh(u));
      forall k | 0 <= k < |cs| ensures cs[k] !in st.chunks {
        assert Kept(old(st), st, Fresh(cs[k]));
      }
      var applied;
      applied, err := Attempted(Creating);
      if applied {
        Take(CreateUpload(u, row, cs), old(st), old(trace), {});
        IdsAreRows(u);
      }
    }

    /** The chunk entities of a new upload, one per index. */
    method NewChunkEntities(u: string, row: UploadRow) returns (entities: seq<ChunkRow>)
      ensures |entities| == row.total && forall k: nat | k < row.total :: entities[k] == NewChunkRow(u, row, k)
    {
      entities := [];
      var i := 0;
      while i < row.total
        invariant i == |entities| <= row.total
        invariant forall k: nat | k < i :: entities[k] == NewChunkRow(u, row, k)
      {
        var curChunkPath := ChunkKey(row.chunkPath, i);
        entities := entities + [ChunkRow(u, i, curChunkPath, "", 0, Initialized)];
        i := i + 1;
      }
    }

    /** UploadVideoInitReq.Validate. */
    predicate ValidInit(cmd: InitCommand) {
      && 0 < |cmd.fileName| <= 256
      && 0 < cmd.fileSize <= 1024 * 1024 * 1024 * 10
      && 0 < cmd.total <= MAX_CHUNKS
    }

    /** UploadVideoInit: resume the upload of the same file, or create one with all its chunk rows. */
    method UploadVideoInit(cmd: InitCommand, u: string, cs: seq<string>, d1: Date, d2: Date) returns (reply: Option<InitReply>)
      requires Valid() && d1.Valid() && d2.Valid() && ValidUuid(u) && UserId(cmd.user)
      requires mine(Fresh(u)) && (forall k | 0 <= k < |cs| :: mine(Fresh(cs[k])))
      requires u !in st.uploads && |cs| == cmd.total
      requires (forall k | 0 <= k < |cs| :: cs[k] !in st.chunks) && (forall j, k | 0 <= j < k < |cs| :: cs[j] != cs[k])
      modifies this
      ensures After(old(st), old(trace), {})
      ensures quiet ==> UploadVideoInitSpec(old(st), cmd, st, reply)
      ensures reply.Some? ==> reply.value.upload in st.uploads && RowsInOrder(st, reply.value.upload, reply.value.chunks)
      ensures !ValidInit(cmd) ==> reply.None? && st == old(st)
      ensures reply.Some? ==> 1 <= |cmd.fileName| <= 256 && 1 <= cmd.fileSize <= 10737418240 && 1 <= cmd.total <= 4096
      ensures Calm() && 1 <= |cmd.fileName| <= 256 && 1 <= cmd.fileSize <= 10737418240 && 1 <= cmd.total <= 4096 ==> reply.Some?
      ensures Calm() && ValidInit(cmd) && !Known(old(st), cmd) ==>
        reply == Some(InitReply(u, cs)) && st == WithUpload(old(st), u, NewUploadRow(cmd, u, d1, d2), cs)
    {
      if !ValidInit(cmd) { return None; }
      ghost var own := {Fresh(u)} + set c | c in cs :: Fresh(c);
      var err, found := QueryByFileHash(cmd, own);
      if err { return None; }
      ghost var s1, t1 := st, trace;
      if found.Some? {
        reply := Resume(found.value);
        Chained(old(st), old(trace), s1, t1, {});
        assert UploadGrows(s1, st, found.value);
        return;
      }
      var row := NewUploadRow(cmd, u, d1, d2);
      NewRowIsNew(old(st), cmd, u, cs, d1, d2);
      StillFresh(old(st), u, row, cs, own);
      reply := CreateWithChunks(u, row, cs, own);
      Chained(old(st), old(trace), s1, t1, {});
    }

    /** A new file: its upload row and one chunk row per index. */
    method CreateWithChunks(u: string, row: UploadRow, cs: seq<string>, ghost own: set<Claim>) returns (reply: Option<InitReply>)
      requires Valid() && Mine(own) && NewUpload(st, u, row, cs) && Fresh(u) in own && (forall c | c in cs :: Fresh(c) in own)
      modifies this
      ensures After(old(st), old(trace), {})
      ensures quiet ==> st == old(st) || st == WithUpload(old(st), u, row, cs)
      ensures reply.Some? ==> reply.value == InitReply(u, cs) && u in st.uploads && RowsInOrder(st, u, cs)
      ensures reply.Some? ==> st.uploads[u] == row.(status := st.uploads[u].status)
      ensures quiet && Creating !in failing ==> reply.Some? && st == WithUpload(old(st), u, row, cs)
    {
      var entities := NewChunkEntities(u, row);
      var err := BatchCreate(u, row, cs, entities, own);
      reply := if err then None else Some(InitReply(u, cs));
    }

    /** The file is known: answer with its upload and the rows it has. */
    method Resume(u: string) returns (reply: Option<InitReply>)
      requires Valid() && u in st.uploads
      modifies this
      ensures After(old(st), old(trace), {})
      ensures quiet ==> st == old(st)
      ensures reply.Some? ==> reply.value.upload == u && RowsInOrder(st, u, reply.value.chunks)
      ensures Reading !in failing ==> reply.Some?
    {
      var err, chunks := QueryChunks(u, {});
      reply := if err then None else Some(InitReply(u, chunks));
    }

    lemma StillFresh(s: State, u: string, row: UploadRow, cs: seq<string>, own: set<Claim>)
      requires OwnKept(s, st, own) && Fresh(u) in own && (forall c | c in cs :: Fresh(c) in own)
      requires NewUpload(s, u, row, cs)
      ensures NewUpload(st, u, row, cs)
    {
      assert Kept(s, st, Fresh(u));
      forall k | 0 <= k < |cs| ensures cs[k] !in st.chunks {
        assert Kept(s, st, Fresh(cs[k]));
      }
    }

    // ---- starting a merge ----

    /** EnqueueMergeTask: dropped when the queue is full. */
    method EnqueueMergeTask(u: string)
      requires Valid() && u in st.counted
      modifies this
      ensures After(old(st), old(trace), {})
      ensures quiet ==> st == old(st).(mergeQueue := st.mergeQueue)
      ensures quiet ==> st.mergeQueue == if u != "" && |old(st).mergeQueue| < 128 then old(st).mergeQueue + [u] else old(st).mergeQueue
    {
      if u == "" { return; }
      Interfere({});
      if |st.mergeQueue| < MERGE_QUEUE_SIZE {
        Take(EnqueueMerge(u), old(st), old(trace), {});
      }
    }

    /** checkMergeChunk: the caller's upload, if all its chunks are completed now. */
    method CheckMergeChunk(user: string, u: string) returns (upload: Option<UploadRow>)
      requires Valid()
      modifies this
      ensures After(old(st), old(trace), {})
      ensures quiet ==> st == old(st).(counted := st.counted)
      ensures upload.Some? ==>
        && OwnUpload(st, user, u) && u in st.counted && u != ""
        && upload.value == st.uploads[u].(status := upload.value.status)
        && (upload.value.status.Success? ==> u in st.merged)
      ensures quiet && upload.Some? ==> upload.value == st.uploads[u] && CountFull(st, u)
      ensures quiet && failing !! {Reading, Counting} ==> (upload.Some? <==> OwnUpload(st, user, u) && CountFull(st, u))
    {
      var err, found := QueryByUserAndUUID(u, user, {});
      if err || found.None? { return None; }
      ghost var s1, t1 := st, trace;
      Holds();
      assert StatusOk(st, u) && UploadLaid(st, u);
      var err', count := CountChunk(u, {});
      Chained(old(st), old(trace), s1, t1, {});
      assert UploadGrows(s1, st, u);
      if err' || count != found.value.total { return None; }
      upload := found;
    }

    /** MergeChunks: past the gate, set Merging and queue a task; otherwise report where it stands. */
    method MergeChunks(user: string, u: string) returns (reply: MergeReply)
      requires Valid()
      modifies this
      ensures After(old(st), old(trace), {})
      ensures quiet ==> MergeChunksSpec(old(st), user, u, st, reply)
      ensures Calm() ==> MergeChunksExact(old(st), user, u, st, reply)
      ensures reply == MergeSuccess ==> u in st.merged
      ensures reply == MergeProcessing ==> u in st.counted
    {
      var upload := CheckMergeChunk(user, u);
      if upload.None? { return MergeError; }
      if upload.value.status.Success? { return MergeSuccess; }
      if upload.value.status.Merging? { return MergeProcessing; }
      ghost var s1, t1 := st, trace;
      var started := StartMerge(u);
      Chained(old(st), old(trace), s1, t1, {});
      reply := if started then MergeProcessing else MergeError;
    }

    /** Set Merging, then queue the merge task. */
    method StartMerge(u: string) returns (ok: bool)
      requires Valid() && u in st.uploads && u in st.counted && u != ""
      modifies this
      ensures After(old(st), old(trace), {})
      ensures quiet ==> st == old(st).(uploads := st.uploads, mergeQueue := st.mergeQueue)
      ensures quiet ==> st.uploads == old(st).uploads || st.uploads == Restatus(old(st).uploads, u, Merging)
      ensures quiet && ok ==> st.uploads == Restatus(old(st).uploads, u, Merging)
      ensures quiet ==> st.mergeQueue == if ok && |old(st).mergeQueue| < 128 then old(st).mergeQueue + [u] else old(st).mergeQueue
      ensures StatusWrite !in failing ==> ok
    {
      var err := UpdateUploadVideoStatus(u, Merging, {});
      if err { return false; }
      ghost var s1, t1 := st, trace;
      EnqueueMergeTask(u);
      Chained(old(st), old(trace), s1, t1, {});
      ok := true;
    }
  
    // ---- the merge worker ----

    /** EnqueueChunkCleanup, after a merge. */
    method EnqueueChunkCleanup(u: string, chunkPath: string, total: nat, ghost own: set<Claim>)
      requires Valid() && Mine(own) && u in st.uploads && u in st.merged
      requires chunkPath == st.uploads[u].chunkPath && total == st.uploads[u].total
      modifies this
      ensures After(old(st), old(trace), own)
      ensures chunkPath != "" && total > 0 ==> CleanupRequest(chunkPath, total) in st.cleanups
      ensures quiet ==> st == old(st).(cleanups := st.cleanups)
      ensures quiet ==> st.cleanups == old(st).cleanups + if chunkPath != "" && total > 0 then {CleanupRequest(chunkPath, total)} else {}
    {
      if chunkPath == "" || total <= 0 { return; }
      Interfere(own);
      assert UploadGrows(old(st), st, u);
      Take(EnqueueCleanup(u), old(st), old(trace), own);
    }

    lemma StillRunning(s: State, u: string)
      requires Grows(s, st) && OwnKept(s, st, {Worker}) && s.running == Some(u) && u in s.uploads
      ensures st.running == Some(u) && u in st.uploads && s.merged <= st.merged
    {
      assert Kept(s, st, Worker) && UploadGrows(s, st, u);
    }

    /** The worker's last write for its task; whatever happens the task is over. */
    method EndTask(u: string, status: Option<UploadStatus>) returns (err: bool, ghost applied: bool)
      requires Valid() && mine(Worker) && st.running == Some(u) && u in st.uploads
      requires status.Some? ==> status.value == Failed || (status.value == Success && u in st.merged)
      modifies this
      ensures After(old(st), old(trace), {})
      ensures quiet ==> st == old(st).(running := None, uploads := WithOutcome(old(st).uploads, u, if applied then status else None))
      ensures !err ==> applied
      ensures StatusWrite !in failing ==> !err
    {
      Interfere({Worker});
      StillRunning(old(st), u);
      var reached;
      reached, err := Attempted(StatusWrite);
      applied := reached;
      var outcome := if reached then status else None;
      TakeFinish(outcome, old(st), old(trace));
    }

    function WithOutcome(uploads: map<string, UploadRow>, u: string, status: Option<UploadStatus>): map<string, UploadRow>
      requires u in uploads
    {
      if status.Some? then Restatus(uploads, u, status.value) else uploads
    }

    method TakeFinish(outcome: Option<UploadStatus>, ghost s: State, ghost t: seq<Event>)
      requires After(s, t, {}) && mine(Worker) && st.running.Some?
      requires outcome.Some? ==>
        st.running.value in st.uploads && (outcome.value == Failed || (outcome.value == Success && st.running.value in st.merged))
      modifies this
      ensures After(s, t, {})
      ensures old(st).running.value in old(st).uploads || outcome.None?
      ensures st == old(st).(running := None,
        uploads := if outcome.Some? then Restatus(old(st).uploads, old(st).running.value, outcome.value) else old(st).uploads)
    {
      FinishedAs(st, outcome);
      Take(FinishMerge(outcome), s, t, {});
    }

    /** One task of mergeWorker: merge, write the outcome, and on success ask for the cleanup. */
    method MergeWorkerTask() returns (done: bool, ghost end: Option<MergeEnd>, ghost recorded: bool)
      requires Valid() && mine(Worker) && st.running.None?
      modifies this
      ensures After(old(st), old(trace), {})
      ensures quiet ==> MergeTaskSpec(old(st), st, done, end, recorded)
      ensures Reading !in failing && done ==> end.Some?
      ensures StatusWrite !in failing && end.Some? ==> recorded
      ensures Calm() ==> MergeTaskExact(old(st), st, done)
    {
      Interfere({Worker});
      assert Kept(old(st), st, Worker);
      end, recorded := None, false;
      if st.mergeQueue == [] { return false, end, recorded; }
      var u := st.mergeQueue[0];
      QueuedCounted(u);
      Take(TakeMerge, old(st), old(trace), {});
      ghost var s1, t1 := st, trace;
      end, recorded := ServeTask(u);
      Chained(old(st), old(trace), s1, t1, {});
      done := true;
      if quiet { TaskTaken(old(st), s1, st, u, end, recorded); }
    }

    lemma QueuedCounted(u: string)
      requires Valid() && u in st.mergeQueue
      ensures u in st.counted && u in st.uploads
    {
      Holds();
      assert CountedOk(st, u);
    }

    /** The task of upload u, taken from the queue. */
    method ServeTask(u: string) returns (ghost end: Option<MergeEnd>, ghost recorded: bool)
      requires Valid() && mine(Worker) && st.running == Some(u) && u in st.uploads && u in st.counted
      modifies this
      ensures After(old(st), old(trace), {})
      ensures quiet ==> st.mergeQueue == old(st).mergeQueue && st.running == None
      ensures quiet ==> TaskServed(old(st), u, st, end, recorded)
      ensures Reading !in failing ==> end.Some?
      ensures StatusWrite !in failing && end.Some? ==> recorded
      ensures Calm() ==> MergedExact(old(st), u, st) && st.cleanups == CleanedExact(old(st), u)
    {
      end, recorded := None, false;
      var err, entity := QueryByUUID(u, {Worker});
      assert Kept(old(st), st, Worker) && UploadGrows(old(st), st, u);
      ghost var s1, t1 := st, trace;
      if err || entity.None? {
        var ignored, _ := EndTask(u, None);
        if quiet { TaskSkipped(old(st), st, u); }
      } else {
        ghost var e;
        e, recorded := MergeAndClean(u, entity.value);
        end := Some(e);
      }
      Chained(old(st), old(trace), s1, t1, {});
    }

    method MergeAndClean(u: string, entity: UploadRow) returns (ghost end: MergeEnd, ghost recorded: bool)
      requires Valid() && mine(Worker) && st.running == Some(u) && u in st.uploads && u in st.counted && entity == st.uploads[u]
      modifies this
      ensures After(old(st), old(trace), {})
      ensures quiet ==> st.mergeQueue == old(st).mergeQueue && st.running == None
      ensures quiet ==> TaskServed(old(st), u, st, Some(end), recorded)
      ensures StatusWrite !in failing ==> recorded
      ensures Calm() ==> MergedExact(old(st), u, st) && st.cleanups == CleanedExact(old(st), u)
    {
      HasPrefix(u);
      var e, err := MergeAndEnd(u, entity);
      end, recorded := e, !err;
      assert UploadGrows(old(st), st, u);
      ghost var s := st;
      if e == Finished && !err {
        ghost var s1, t1 := st, trace;
        EnqueueChunkCleanup(u, entity.chunkPath, entity.total, {});
        Chained(old(st), old(trace), s1, t1, {});
      }
      if quiet { TaskCleaned(old(st), s, st, u, e, recorded); }
    }

    method MergeAndEnd(u: string, entity: UploadRow) returns (end: MergeEnd, err: bool)
      requires Valid() && mine(Worker) && st.running == Some(u) && u in st.uploads && u in st.counted && entity == st.uploads[u]
      modifies this
      ensures After(old(st), old(trace), {})
      ensures end == Finished ==> u in st.merged
      ensures quiet ==> st.mergeQueue == old(st).mergeQueue && st.running == None && st.cleanups == old(st).cleanups
      ensures quiet ==> MergeLeft(old(st), u, st.objects, end) && Recorded(old(st).uploads, u, st.uploads, end, !err)
      ensures StatusWrite !in failing ==> !err
      ensures Calm() ==> !err && MergedExact(old(st), u, st) && (end == Finished) == MergeWorks(old(st), u)
    {
      end := MergeObjects(u, entity.storagePath, entity.chunkPath, entity.total, {Worker});
      assert Kept(old(st), st, Worker) && UploadGrows(old(st), st, u);
      ghost var s1, t1 := st, trace;
      if quiet {
        MergeEffectFrame(old(st), st, entity.storagePath, entity.chunkPath, entity.total, end);
        MergeLeaves(old(st), st, u, end);
      }
      var status := if end == Finished then Success else Failed;
      ghost var applied;
      err, applied := EndTask(u, Some(status));
      Chained(old(st), old(trace), s1, t1, {});
      if Calm() { MergeRecorded(old(st), s1, st, u, end, status); }
    }

    /** An upload has a chunk prefix and at least one chunk, so its cleanup is never refused. */
    lemma HasPrefix(u: string)
      requires Valid() && u in st.uploads
      ensures st.uploads[u].chunkPath != "" && st.uploads[u].total > 0
    {
      Holds();
      assert UploadLaid(st, u);
    }

    // ---- publishing ----

    /** mergeUploadVideo: the same gate and merge, run by the publishing request itself. */
    method MergeUploadVideo(user: string, u: string, upload: UploadRow, ghost own: set<Claim>) returns (updated: Option<UploadRow>, cleanup: bool, ghost end: Option<MergeEnd>, ghost recorded: bool)
      requires Valid() && Mine(own) && OwnUpload(st, user, u) && upload == st.uploads[u].(status := upload.status) && (forall id :: Open(id) !in own)
      requires quiet ==> upload.status == st.uploads[u].status
      requires upload.status.Success? ==> u in st.merged
      modifies this
      ensures After(old(st), old(trace), own)
      ensures updated.Some? ==> updated.value == old(st).uploads[u].(status := updated.value.status)
      ensures updated.Some? && updated.value.status.Success? ==> u in st.merged
      ensures cleanup && updated.Some? ==> u in st.merged
      ensures quiet ==> MergedAs(old(st), u, st) && PreparedSpec(old(st), u, st, updated, cleanup, end, recorded)
      ensures quiet && Counting !in failing && CountFull(old(st), u) && !upload.status.Success? ==> end.Some?
      ensures StatusWrite !in failing && end.Some? ==> recorded
      ensures StatusWrite !in failing && end.Some? && !upload.status.Merging? ==> Did(SetStatus(u, Merging), old(trace), trace)
      ensures cleanup ==> end == Some(Finished) && recorded
      ensures Calm() ==> PreparedExact(old(st), u, st, updated, cleanup)
    {
      cleanup, end, recorded := false, None, false;
      if upload.status.Success? { return Some(upload), false, end, recorded; }
      var err, count := CountChunk(u, own);
      if err || count != upload.total { return None, false, end, recorded; }
      assert UploadGrows(old(st), st, u);
      ghost var s1, t1 := st, trace;
      ghost var e;
      updated, cleanup, e, recorded := MergeCounted(user, u, upload, own);
      end := Some(e);
      Chained(old(st), old(trace), s1, t1, own);
      if Did(SetStatus(u, Merging), t1, trace) { DidSince(SetStatus(u, Merging), old(trace), t1, trace); }
      if quiet { PreparedAfterCount(old(st), s1, st, u, updated, cleanup, end, recorded); }
      if Calm() { ExactAfterCount(old(st), s1, st, u, updated, cleanup); }
    }

    /** mergeUploadVideo past its gate. */
    method MergeCounted(user: string, u: string, upload: UploadRow, ghost own: set<Claim>)
      returns (updated: Option<UploadRow>, cleanup: bool, ghost end: MergeEnd, ghost recorded: bool)
      requires Valid() && Mine(own) && OwnUpload(st, user, u) && upload == st.uploads[u].(status := upload.status) && (forall id :: Open(id) !in own)
      requires u in st.counted && !upload.status.Success?
      requires quiet ==> upload.status == st.uploads[u].status && CountFull(st, u)
      modifies this
      ensures After(old(st), old(trace), own)
      ensures updated.Some? ==> updated.value == old(st).uploads[u].(status := updated.value.status) && u in st.merged && u in st.uploads
      ensures quiet ==> MergedAs(old(st), u, st) && PreparedSpec(old(st), u, st, updated, cleanup, Some(end), recorded)
      ensures StatusWrite !in failing ==> recorded
      ensures StatusWrite !in failing && !upload.status.Merging? ==> Did(SetStatus(u, Merging), old(trace), trace)
      ensures cleanup ==> end == Finished && recorded
      ensures Calm() ==> MergedExact(old(st), u, st) && (updated.Some? <==> MergeWorks(old(st), u))
      ensures Calm() && updated.Some? ==> updated.value == st.uploads[u] && cleanup
    {
      cleanup := false;
      ghost var s1, t1 := st, trace;
      MarkMerging(u, !upload.status.Merging?, own);
      assert UploadGrows(old(st), st, u);
      s1, t1 := st, trace;
      ghost var marked := Did(SetStatus(u, Merging), old(trace), trace);
      var merged;
      merged, end, recorded := MergeAndRecord(u, upload, own);
      Chained(old(st), old(trace), s1, t1, own);
      if marked { DidStill(SetStatus(u, Merging), old(trace), t1, trace); }
      if quiet {
        MergedAsTransitive(old(st), s1, st, u);
        PreparedByMerge(old(st), s1, st, u, end, recorded);
      }
      if Calm() { MarkedThenMerged(old(st), s1, st, u); }
      if !merged { return None, false, end, recorded; }
      assert UploadGrows(old(st), st, u);
      s1, t1 := st, trace;
      updated := ReadBack(user, u, upload, own);
      Chained(old(st), old(trace), s1, t1, own);
      if marked { DidStill(SetStatus(u, Merging), old(trace), t1, trace); }
      cleanup := true;
      assert UploadGrows(old(st), st, u);
      if quiet && updated.Some? { HandedOn(old(st), st, u, updated, end, recorded); }
    }

    method MarkMerging(u: string, needed: bool, ghost own: set<Claim>)
      requires Valid() && Mine(own) && u in st.uploads && u in st.counted
      modifies this
      ensures After(old(st), old(trace), own)
      ensures quiet ==> MergedAs(old(st), u, st) && st == old(st).(uploads := st.uploads)
      ensures quiet ==> st.uploads == old(st).uploads || st.uploads == Restatus(old(st).uploads, u, Merging)
      ensures quiet && StatusWrite !in failing ==> st.uploads == if needed then Restatus(old(st).uploads, u, Merging) else old(st).uploads
      ensures needed && StatusWrite !in failing ==> Did(SetStatus(u, Merging), old(trace), trace)
    {
      if needed {
        var ignored := UpdateUploadVideoStatus(u, Merging, own);
        if quiet { StatusMergedAs(old(st), st, u, Merging); }
      }
    }

    /** Merge the objects and write Success, or Failed. */
    method MergeAndRecord(u: string, upload: UploadRow, ghost own: set<Claim>) returns (ok: bool, ghost end: MergeEnd, ghost recorded: bool)
      requires Valid() && Mine(own) && u in st.uploads && u in st.counted && upload == st.uploads[u].(status := upload.status) && (forall id :: Open(id) !in own)
      modifies this
      ensures After(old(st), old(trace), own)
      ensures ok ==> u in st.merged
      ensures quiet ==> MergedAs(old(st), u, st)
      ensures quiet ==> MergeLeft(old(st), u, st.objects, end) && Recorded(old(st).uploads, u, st.uploads, end, recorded)
      ensures ok <==> end == Finished && recorded
      ensures StatusWrite !in failing ==> recorded
      ensures Calm() ==> MergedExact(old(st), u, st) && ok == MergeWorks(old(st), u)
    {
      var e := MergeObjects(u, upload.storagePath, upload.chunkPath, upload.total, own);
      end := e;
      assert UploadGrows(old(st), st, u);
      ghost var s1, t1 := st, trace;
      if quiet {
        MergeEffectFrame(old(st), st, upload.storagePath, upload.chunkPath, upload.total, e);
        MergeLeaves(old(st), st, u, e);
      }
      var status := if e == Finished then Success else Failed;
      var err := UpdateUploadVideoStatus(u, status, own);
      Chained(old(st), old(trace), s1, t1, own);
      if quiet { RecordedAs(old(st), s1, st, u, end, status); }
      if Calm() { MergeRecorded(old(st), s1, st, u, end, status); }
      recorded := !err;
      ok := e == Finished && !err;
    }

    /** The row as it stands after the merge; an error loses it, no row gives the old entity. */
    method ReadBack(user: string, u: string, upload: UploadRow, ghost own: set<Claim>) returns (updated: Option<UploadRow>)
      requires Valid() && Mine(own) && OwnUpload(st, user, u) && upload == st.uploads[u].(status := upload.status) && u in st.merged
      modifies this
      ensures After(old(st), old(trace), own)
      ensures updated.Some? ==> updated.value == old(st).uploads[u].(status := updated.value.status)
      ensures quiet ==> st == old(st) && (updated.Some? ==> updated.value == st.uploads[u])
      ensures quiet && Reading !in failing ==> updated == Some(old(st).uploads[u])
    {
      var err, row := QueryByUserAndUUID(u, user, own);
      assert UploadGrows(old(st), st, u);
      if err { return None; }
      updated := if row.None? then Some(upload) else row;
    }
  
    /** The video row of a new publication. */
    method CreateVideoRow(v: string, u: string) returns (err: bool)
      requires Valid() && mine(Fresh(v)) && v !in st.videos && u in st.merged
      modifies this
      ensures After(old(st), old(trace), {})
      ensures !err ==> v in st.videos && st.videos[v].upload == u
      ensures quiet ==> st == old(st).(videos := st.videos)
      ensures quiet ==> st.videos == old(st).videos || st.videos == old(st).videos[v := VideoRow(u, Processing)]
      ensures quiet && !err ==> st.videos == old(st).videos[v := VideoRow(u, Processing)]
      ensures VideoInsert !in failing ==> !err
    {
      Interfere({Fresh(v)});
      assert Kept(old(st), st, Fresh(v));
      var applied;
      applied, err := Attempted(VideoInsert);
      if applied { InsertVideo(v, VideoRow(u, Processing), old(st), old(trace)); }
    }

    method InsertVideo(v: string, row: VideoRow, ghost s: State, ghost t: seq<Event>)
      requires After(s, t, {}) && mine(Fresh(v)) && v !in st.videos && row.upload in st.merged
      modifies this
      ensures After(s, t, {}) && st == old(st).(videos := old(st).videos[v := row])
    {
      CreatedAs(st, v, row);
      TouchesVideo(v, row, mine);
      Take(CreateVideo(v, row), s, t, {});
    }

    /** PublishVideo of the domain service: merge unless already merged, then create the video. */
    method PublishUpload(user: string, u: string, v: string)
      returns (published: Option<(UploadRow, bool)>, ghost end: Option<MergeEnd>, ghost recorded: bool)
      requires Valid() && mine(Fresh(v)) && v !in st.videos
      modifies this
      ensures After(old(st), old(trace), {})
      ensures published.Some? ==>
        && v in st.videos && st.videos[v].upload == u && OwnUpload(st, user, u) && u in st.merged
        && published.value.0 == st.uploads[u].(status := published.value.0.status)
      ensures quiet ==> PublishSpec(old(st), user, u, v, st) && st.cleanups == old(st).cleanups
      ensures quiet && published.Some? ==> OwnUpload(old(st), user, u) && st.videos == old(st).videos[v := VideoRow(u, Processing)]
      ensures quiet ==> PublishedSpec(old(st), user, u, v, st, published.Some?, end, recorded)
      ensures quiet && published.Some? ==> published.value.1 == end.Some?
      ensures StatusWrite !in failing && end.Some? ==> recorded
      ensures Calm() ==> PublishedExact(old(st), user, u, v, st, published.Some?)
      ensures Calm() && published.Some? ==> published.value.1 == (old(st).uploads[u].status != Success)
    {
      var upload, cleanup;
      upload, cleanup, end, recorded := PrepareUpload(user, u, {Fresh(v)});
      ghost var s1, t1 := st, trace;
      assert Kept(old(st), st, Fresh(v));
      var err := AddVideo(user, u, v, upload);
      Chained(old(st), old(trace), s1, t1, {});
      assert UploadGrows(s1, st, u) || upload.None?;
      if quiet {
        PublishSpecFrom(old(st), user, u, v, s1, st);
        PublishedFrom(old(st), user, u, v, s1, st, upload, cleanup, end, recorded, !err);
      }
      if Calm() { PreparedPublished(old(st), user, u, v, s1, st, upload, cleanup); }
      if err { return None, end, recorded; }
      published := Some((upload.value, cleanup));
    }

    /** The video row, for an upload that is Success; no other upload gets one. */
    method AddVideo(user: string, u: string, v: string, upload: Option<UploadRow>) returns (err: bool)
      requires Valid() && mine(Fresh(v)) && v !in st.videos
      requires upload.Some? ==> OwnUpload(st, user, u) && (upload.value.status.Success? ==> u in st.merged)
      modifies this
      ensures After(old(st), old(trace), {})
      ensures !err ==> upload.Some? && upload.value.status.Success? && v in st.videos && st.videos[v].upload == u
      ensures quiet ==> st == old(st) || (upload.Some? && st == old(st).(videos := old(st).videos[v := VideoRow(u, Processing)]))
      ensures quiet && !err ==> st == old(st).(videos := old(st).videos[v := VideoRow(u, Processing)])
      ensures Calm() ==> (err <==> upload.None? || !upload.value.status.Success?)
      ensures Calm() && err ==> st == old(st)
    {
      if upload.None? || !upload.value.status.Success? { return true; }
      err := CreateVideoRow(v, u);
    }

    /** The caller's upload, merged now if it was not Success before. */
    method PrepareUpload(user: string, u: string, ghost own: set<Claim>)
      returns (upload: Option<UploadRow>, cleanup: bool, ghost end: Option<MergeEnd>, ghost recorded: bool)
      requires Valid() && Mine(own) && (forall id :: Open(id) !in own)
      modifies this
      ensures After(old(st), old(trace), own)
      ensures upload.Some? ==> OwnUpload(st, user, u) && upload.value == st.uploads[u].(status := upload.value.status)
      ensures upload.Some? && upload.value.status.Success? ==> u in st.merged
      ensures quiet ==> Prepared(old(st), user, u, st) && st.videos == old(st).videos
      ensures quiet && OwnUpload(old(st), user, u) ==> PreparedSpec(old(st), u, st, upload, cleanup, end, recorded)
      ensures quiet && !OwnUpload(old(st), user, u) ==> upload.None? && end.None? && st == old(st)
      ensures StatusWrite !in failing && end.Some? ==> recorded
      ensures cleanup ==> end == Some(Finished) && recorded
      ensures Calm() && !OwnUpload(old(st), user, u) ==> upload.None? && st == old(st)
      ensures Calm() && OwnUpload(old(st), user, u) ==> PreparedExact(old(st), u, st, upload, cleanup)
    {
      end, recorded := None, false;
      var err, found := QueryByUserAndUUID(u, user, own);
      if err || found.None? {
        if quiet && u in st.uploads { NothingPrepared(st, u); }
        return None, false, end, recorded;
      }
      Holds();
      assert StatusOk(st, u);
      ghost var s1, t1 := st, trace;
      upload, cleanup, end, recorded := MergeUploadVideo(user, u, found.value, own);
      if quiet { MergedAsFrame(s1, u, st); }
      Chained(old(st), old(trace), s1, t1, own);
      assert UploadGrows(s1, st, u);
    }

    method FindByVideoUUID(v: string) returns (err: bool, row: Option<VideoRow>)
      requires Valid()
      modifies this
      ensures After(old(st), old(trace), {})
      ensures quiet ==> st == old(st)
      ensures row.Some? ==> !err && v in st.videos && st.videos[v] == row.value
      ensures Reading !in failing ==> !err && (row.Some? <==> v in st.videos)
    {
      Interfere({});
      err := Fails(Reading);
      row := None;
      if !err && v in st.videos {
        row := Some(st.videos[v]);
      }
    }

    method UpdateVideoRow(v: string, status: VideoStatus) returns (err: bool)
      requires Valid() && v in st.videos
      modifies this
      ensures After(old(st), old(trace), {})
      ensures quiet ==> st == old(st).(videos := st.videos)
      ensures quiet ==> st.videos == old(st).videos || st.videos == old(st).videos[v := old(st).videos[v].(status := status)]
      ensures quiet && !err ==> st.videos == old(st).videos[v := old(st).videos[v].(status := status)]
      ensures VideoUpdate !in failing ==> !err
    {
      Interfere({});
      assert VideoGrows(old(st), st, v);
      var applied;
      applied, err := Attempted(VideoUpdate);
      if applied {
        Take(SetVideo(v, status), old(st), old(trace), {});
      }
    }

    /** UpdateVideoTranscodeInfo: the callback; a published or failed video marks its upload. */
    method UpdateVideoTranscodeInfo(v: string, status: VideoStatus) returns (ok: bool)
      requires Valid()
      modifies this
      ensures After(old(st), old(trace), {})
      ensures quiet ==> TranscodeSpec(old(st), v, status, st, ok)
      ensures quiet && failing !! {Reading, VideoUpdate} ==> (ok <==> v in old(st).videos)
      ensures quiet && ok && StatusWrite !in failing ==>
        old(st).videos[v].upload in old(st).uploads && st.uploads == CalledBack(old(st).uploads, old(st).videos[v].upload, status)
      ensures Calm() ==> TranscodeExact(old(st), v, status, st, ok)
    {
      var err, video := FindByVideoUUID(v);
      if err || video.None? { return false; }
      ghost var s1, t1 := st, trace;
      var err' := UpdateVideoRow(v, status);
      Chained(old(st), old(trace), s1, t1, {});
      assert VideoGrows(s1, st, v);
      if err' { return false; }
      s1, t1 := st, trace;
      MarkUpload(v, video.value.upload, status);
      Chained(old(st), old(trace), s1, t1, {});
      ok := true;
    }

    /** The upload's status after a callback; a failed write is ignored. */
    method MarkUpload(v: string, u: string, status: VideoStatus)
      requires Valid() && v in st.videos && st.videos[v].upload == u
      modifies this
      ensures After(old(st), old(trace), {})
      ensures quiet ==> st == old(st).(uploads := st.uploads)
      ensures quiet ==>
        (st.uploads == old(st).uploads
         || (u in old(st).uploads && status in {Published, VideoFailed}
             && st.uploads == Restatus(old(st).uploads, u, if status == Published then Success else Failed)))
      ensures quiet && StatusWrite !in failing ==> u in old(st).uploads && st.uploads == CalledBack(old(st).uploads, u, status)
    {
      Holds();
      assert HasVideo(st, u) && CountedOk(st, u);
      if status == Published {
        var ignored := UpdateUploadVideoStatus(u, Success, {});
      } else if status == VideoFailed {
        var ignored := UpdateUploadVideoStatus(u, Failed, {});
      }
    }

    /**
     PublishVideo of the application: publish, ask for the cleanup, announce the video to the
     video service and the transcoder.  When a path is announced, the video is whole.
     */
    method PublishVideo(user: string, u: string, v: string, precreateFails: bool, produceFails: bool)
      returns (inputPath: Option<string>, ghost end: Option<MergeEnd>, ghost recorded: bool, ghost told: Told)
      requires Valid() && mine(Fresh(v)) && v !in st.videos
      modifies this
      ensures After(old(st), old(trace), {})
      ensures inputPath.Some? ==> Assembled(st, u) && st.uploads[u].storagePath == inputPath.value && v in st.videos
      ensures inputPath.Some? <==> told == Announced
      ensures told != NotReached ==> ToldBy(told, precreateFails, produceFails)
      ensures StatusWrite !in failing && end.Some? ==> recorded
      ensures quiet ==> PublishSpec(old(st), user, u, v, st)
      ensures quiet ==> PublishVideoSpec(old(st), user, u, v, st, end, recorded, told, failing !! {Reading, VideoUpdate, StatusWrite})
      ensures Calm() && !precreateFails && !produceFails ==> PublishExact(old(st), user, u, v, st, inputPath)
    {
      told := NotReached;
      var upload;
      upload, end, recorded := PublishAndClean(user, u, v);
      if upload.None? { return None, end, recorded, told; }
      ghost var s1, t1 := st, trace;
      inputPath, told := Tell(u, v, upload.value, precreateFails, produceFails);
      Chained(old(st), old(trace), s1, t1, {});
      if quiet {
        PublishedTold(old(st), user, u, v, s1, st, end, recorded, told, failing !! {Reading, VideoUpdate, StatusWrite});
      }
      if Calm() && !precreateFails && !produceFails { ToldExactly(old(st), user, u, v, s1, st, inputPath); }
    }

    /** The announcement of a published upload; the path announced is its StoragePath. */
    method Tell(u: string, v: string, upload: UploadRow, precreateFails: bool, produceFails: bool) returns (inputPath: Option<string>, ghost told: Told)
      requires Valid() && v in st.videos && st.videos[v].upload == u && u in st.uploads && u in st.merged
      requires upload == st.uploads[u].(status := upload.status)
      modifies this
      ensures After(old(st), old(trace), {})
      ensures inputPath.Some? ==> Assembled(st, u) && st.uploads[u].storagePath == inputPath.value && v in st.videos
      ensures inputPath.Some? ==> inputPath.value == upload.storagePath
      ensures told != NotReached && (inputPath.Some? <==> told == Announced)
      ensures ToldBy(told, precreateFails, produceFails)
      ensures quiet ==> ToldSpec(old(st), v, st, told, failing !! {Reading, VideoUpdate, StatusWrite})
      ensures Calm() && !precreateFails && !produceFails ==> inputPath.Some?
    {
      var ok;
      ok, told := Announce(v, precreateFails, produceFails);
      assert UploadGrows(old(st), st, u) && VideoGrows(old(st), st, v);
      if !ok { return None, told; }
      Holds();
      assert Assembled(st, u);
      inputPath := Some(upload.storagePath);
    }

    method PublishAndClean(user: string, u: string, v: string) returns (upload: Option<UploadRow>, ghost end: Option<MergeEnd>, ghost recorded: bool)
      requires Valid() && mine(Fresh(v)) && v !in st.videos
      modifies this
      ensures After(old(st), old(trace), {})
      ensures upload.Some? ==>
        && v in st.videos && st.videos[v].upload == u && OwnUpload(st, user, u) && u in st.merged
        && upload.value == st.uploads[u].(status := upload.value.status)
      ensures quiet ==> PublishSpec(old(st), user, u, v, st)
      ensures quiet && upload.Some? ==> OwnUpload(old(st), user, u) && st.videos == old(st).videos[v := VideoRow(u, Processing)]
      ensures quiet ==> PublishedSpec(old(st), user, u, v, st, upload.Some?, end, recorded)
      ensures quiet && upload.Some? ==> upload.value == old(st).uploads[u].(status := upload.value.status)
      ensures quiet ==> st.cleanups == CleanedAfter(old(st), u, upload.Some? && end.Some?)
      ensures StatusWrite !in failing && end.Some? ==> recorded
      ensures Calm() ==> PublishedExact(old(st), user, u, v, st, upload.Some?)
      ensures Calm() ==> st.cleanups == if upload.Some? && old(st).uploads[u].status != Success then CleanedExact(old(st), u) else old(st).cleanups
    {
      var published;
      published, end, recorded := PublishUpload(user, u, v);
      if published.None? { return None, end, recorded; }
      upload := Some(published.value.0);
      HasPrefix(u);
      ghost var s1, t1 := st, trace;
      CleanPublished(u, v, upload.value, published.value.1);
      Chained(old(st), old(trace), s1, t1, {});
      if quiet { PublishedCleaned(old(st), user, u, v, s1, st, end, recorded); }
      assert quiet ==> UploadGrows(old(st), st, u);
      if Calm() { ExactlyCleaned(old(st), user, u, v, s1, st, published.value.1); }
    }

    /** The cleanup request of a publication that has merged. */
    method CleanPublished(u: string, v: string, upload: UploadRow, needed: bool)
      requires Valid() && u in st.uploads && u in st.merged && upload == st.uploads[u].(status := upload.status) && v in st.videos
      requires upload.chunkPath != "" && upload.total > 0
      modifies this
      ensures After(old(st), old(trace), {})
      ensures u in st.uploads && st.uploads[u] == old(st).uploads[u].(status := st.uploads[u].status)
      ensures v in st.videos && st.videos[v].upload == old(st).videos[v].upload
      ensures quiet ==> st == old(st).(cleanups := st.cleanups)
      ensures quiet ==> st.cleanups == old(st).cleanups + if needed then {CleanupRequest(upload.chunkPath, upload.total)} else {}
    {
      if needed {
        EnqueueChunkCleanup(u, upload.chunkPath, upload.total, {});
        assert UploadGrows(old(st), st, u);
        assert VideoGrows(old(st), st, v);
      }
    }

    /** Precreate, produce the transcode task, and record Processing, or Failed. */
    method Announce(v: string, precreateFails: bool, produceFails: bool) returns (ok: bool, ghost told: Told)
      requires Valid() && v in st.videos
      modifies this
      ensures After(old(st), old(trace), {})
      ensures quiet ==> st == old(st).(uploads := st.uploads, videos := st.videos)
      ensures quiet ==> st.uploads == old(st).uploads || Restated(old(st).uploads, old(st).videos[v].upload, st.uploads)
      ensures quiet ==>
        (st.videos == old(st).videos
         || exists status | status in {Processing, VideoFailed} :: st.videos == old(st).videos[v := old(st).videos[v].(status := status)])
      ensures told != NotReached && (ok <==> told == Announced)
      ensures ToldBy(told, precreateFails, produceFails)
      ensures quiet ==> ToldSpec(old(st), v, st, told, failing !! {Reading, VideoUpdate, StatusWrite})
      ensures Calm() && !precreateFails && !produceFails ==> ok && st.uploads == old(st).uploads && st.videos == old(st).videos[v := old(st).videos[v].(status := Processing)]
    {
      if precreateFails { return false, PrecreateFailed; }
      if produceFails {
        var ignored := UpdateVideoTranscodeInfo(v, VideoFailed);
        return false, ProduceFailed;
      }
      ok := UpdateVideoTranscodeInfo(v, Processing);
      told := if ok then Announced else UpdateFailed;
    }
  }
}
