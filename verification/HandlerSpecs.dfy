/**
 What one request does when it runs alone: the relation between the state before and
 after it, and its answer.  Database and storage failures are allowed everywhere, before
 or after they take effect, so each Spec lists every outcome; an Exact relation says what
 happens when no call fails.
 */
module HandlerSpecs {
  import opened Basics
  import opened Keys
  import opened Destinations
  import opened Protocol

  /** A status write changes one row, and of it the status only. */
  lemma RestatusIs(uploads: map<string, UploadRow>, u: string, status: UploadStatus, w: string)
    requires u in uploads && w in uploads
    ensures var r := Restatus(uploads, u, status);
      && r.Keys == uploads.Keys && r[u].status == status && r[u] == uploads[u].(status := status) && (w != u ==> r[w] == uploads[w])
  {
  }

  predicate OwnUpload(s: State, user: string, u: string) {
    u in s.uploads && s.uploads[u].user == user
  }

  predicate OwnChunk(s: State, user: string, u: string, c: string, i: nat) {
    OwnUpload(s, user, u) && c in s.chunks && s.chunks[c].upload == u && s.chunks[c].index == i
  }

  /** Every chunk row of the upload is Completed right now. */
  predicate CountFull(s: State, u: string) {
    u in s.uploads && CountCompleted(s, u) == s.uploads[u].total
  }

  // ---- CompleteChunk ----

  /** The chunk is the caller's and its object has the announced size. */
  predicate Accepts(s: State, user: string, u: string, c: string, i: nat, size: nat) {
    && OwnChunk(s, user, u, c, i)
    && s.chunks[c].key in s.objects && |s.objects[s.chunks[c].key]| == size
  }

  predicate CompleteChunkSpec(s: State, user: string, u: string, c: string, i: nat, size: nat, hash: string, s': State, ok: bool) {
    && s' == s.(uploads := s'.uploads, chunks := s'.chunks, body := s'.body, counted := s'.counted)
    && (s'.chunks == s.chunks ||
        (Accepts(s, user, u, c, i, size) && !s.chunks[c].status.Completed?
         && s'.chunks == s.chunks[c := s.chunks[c].(hash := hash, size := size, status := Completed)]))
    && (s'.uploads == s.uploads ||
        (OwnUpload(s, user, u) && CountFull(s', u) && s.uploads[u].status !in {Success, Merging}
         && s'.uploads == Restatus(s.uploads, u, Merging)))
    && (ok ==> Accepts(s, user, u, c, i, size) && s'.chunks == CompletedRow(s.chunks, c, hash, size))
    && (!ok ==> s'.uploads == s.uploads)
  }

  /** The chunk rows once c is completed; a row already Completed is not written again. */
  function CompletedRow(chunks: map<string, ChunkRow>, c: string, hash: string, size: nat): map<string, ChunkRow>
    requires c in chunks
  {
    if chunks[c].status.Completed? then chunks else chunks[c := chunks[c].(hash := hash, size := size, status := Completed)]
  }

  /** The upload rows once a request has seen, in state s, whether all chunks are Completed. */
  function WhenFull(uploads: map<string, UploadRow>, s: State, u: string): map<string, UploadRow>
    requires u in uploads
  {
    if CountFull(s, u) && uploads[u].status !in {Success, Merging} then Restatus(uploads, u, Merging) else uploads
  }

  /** When no call fails: the answer, the chunk row and the upload's status are determined. */
  predicate CompleteChunkExact(s: State, user: string, u: string, c: string, i: nat, size: nat, hash: string, s': State, ok: bool) {
    && (ok <==> Accepts(s, user, u, c, i, size))
    && (ok ==> s'.chunks == CompletedRow(s.chunks, c, hash, size) && s'.uploads == WhenFull(s.uploads, s', u))
    && (!ok ==> s'.chunks == s.chunks && s'.uploads == s.uploads)
  }

  // ---- MergeChunks ----

  datatype MergeReply = MergeError | MergeSuccess | MergeProcessing

  /** Past the gate and not yet merging or merged: the request starts a merge. */
  predicate StartsMerge(s: State, user: string, u: string) {
    OwnUpload(s, user, u) && CountFull(s, u) && s.uploads[u].status !in {Success, Merging}
  }

  predicate MergeChunksSpec(s: State, user: string, u: string, s': State, reply: MergeReply) {
    && s' == s.(uploads := s'.uploads, mergeQueue := s'.mergeQueue, counted := s'.counted)
    && (s'.uploads == s.uploads ||
        (StartsMerge(s, user, u) && s'.uploads == Restatus(s.uploads, u, Merging)))
    && (s'.mergeQueue == s.mergeQueue ||
        (StartsMerge(s, user, u) && s'.uploads != s.uploads && |s.mergeQueue| < 128
         && s'.mergeQueue == s.mergeQueue + [u]))
    && (reply == MergeSuccess ==> OwnUpload(s, user, u) && s.uploads[u].status == Success)
    && (reply == MergeProcessing ==> OwnUpload(s, user, u) && s'.uploads[u].status == Merging)
    && (reply == MergeProcessing && s.uploads[u].status != Merging && |s.mergeQueue| < 128
        ==> s'.mergeQueue == s.mergeQueue + [u])
  }

  predicate MergeChunksExact(s: State, user: string, u: string, s': State, reply: MergeReply) {
    if !OwnUpload(s, user, u) || !CountFull(s, u) then
      reply == MergeError && s'.uploads == s.uploads && s'.mergeQueue == s.mergeQueue
    else if s.uploads[u].status == Success then
      reply == MergeSuccess && s'.uploads == s.uploads && s'.mergeQueue == s.mergeQueue
    else if s.uploads[u].status == Merging then
      reply == MergeProcessing && s'.uploads == s.uploads && s'.mergeQueue == s.mergeQueue
    else
      reply == MergeProcessing && s'.uploads == Restatus(s.uploads, u, Merging)
      && s'.mergeQueue == if |s.mergeQueue| < 128 then s.mergeQueue + [u] else s.mergeQueue
  }

  // ---- PresignChunk ----

  predicate PresignChunkSpec(s: State, user: string, u: string, c: string, i: nat, s': State, reply: Option<Option<string>>) {
    && s' == s.(uploads := s'.uploads, chunks := s'.chunks)
    && (s'.uploads == s.uploads ||
        (OwnChunk(s, user, u, c, i) && i == 0 && s.uploads[u].status == Init
         && s'.uploads == Restatus(s.uploads, u, Uploading)))
    && (s'.chunks == s.chunks ||
        (OwnChunk(s, user, u, c, i) && s'.chunks == s.chunks[c := s.chunks[c].(status := ChunkUploading)]))
    && (reply.Some? ==>
        && OwnChunk(s, user, u, c, i)
        && s'.chunks == s.chunks[c := s.chunks[c].(status := ChunkUploading)]
        && (reply.value.None? <==> s.chunks[c].status.Completed?)
        && (reply.value.Some? ==> reply.value.value == s.chunks[c].key))
  }

  predicate PresignChunkExact(s: State, user: string, u: string, c: string, i: nat, s': State, reply: Option<Option<string>>) {
    if !OwnChunk(s, user, u, c, i) then
      reply.None? && s'.uploads == s.uploads && s'.chunks == s.chunks
    else
      && reply == Some(if s.chunks[c].status.Completed? then None else Some(s.chunks[c].key))
      && s'.uploads == (if i == 0 && s.uploads[u].status == Init then Restatus(s.uploads, u, Uploading) else s.uploads)
      && s'.chunks == s.chunks[c := s.chunks[c].(status := ChunkUploading)]
  }

  // ---- UploadVideoInit ----

  datatype InitCommand = InitCommand(user: ByteString, fileName: ByteString, fileHash: string, fileSize: nat, total: nat)

  predicate SameFile(row: UploadRow, cmd: InitCommand) {
    row.user == cmd.user && row.fileName == cmd.fileName && row.fileHash == cmd.fileHash && row.fileSize == cmd.fileSize
  }

  ghost predicate Known(s: State, cmd: InitCommand) {
    exists u | u in s.uploads :: SameFile(s.uploads[u], cmd)
  }

  /** cs are all chunk rows of u, in index order. */
  ghost predicate RowsInOrder(s: State, u: string, cs: seq<string>) {
    && (forall k | 0 <= k < |cs| :: cs[k] in s.chunks && s.chunks[cs[k]].upload == u)
    && (forall j, k | 0 <= j < k < |cs| :: s.chunks[cs[j]].index <= s.chunks[cs[k]].index && cs[j] != cs[k])
    && (forall c | c in s.chunks && s.chunks[c].upload == u :: c in cs)
  }

  datatype InitReply = InitReply(upload: string, chunks: seq<string>)

  ghost predicate UploadVideoInitSpec(s: State, cmd: InitCommand, s': State, reply: Option<InitReply>) {
    && (Known(s, cmd) ==> s' == s)
    && (s' == s || exists u, row, cs :: NewUpload(s, u, row, cs) && SameFile(row, cmd) && row.total == cmd.total && s' == WithUpload(s, u, row, cs))
    && (reply.Some? ==>
        && reply.value.upload in s'.uploads && SameFile(s'.uploads[reply.value.upload], cmd)
        && RowsInOrder(s', reply.value.upload, reply.value.chunks))
  }

  // ---- merging ----

  /** All source objects 0..n-1 are there. */
  ghost predicate Present(objects: map<string, Bytes>, path: string, n: nat) {
    n == 0 || (Present(objects, path, n - 1) && ChunkKey(path, n - 1) in objects)
  }

  /** The source objects 0..n-1, one after the other. */
  ghost function SourceBytes(objects: map<string, Bytes>, path: string, n: nat): Bytes
    requires Present(objects, path, n)
  {
    if n == 0 then [] else SourceBytes(objects, path, n - 1) + objects[ChunkKey(path, n - 1)]
  }

  /** The n source objects were there, and their concatenation now stands at dest. */
  ghost predicate Joined(before: map<string, Bytes>, after: map<string, Bytes>, dest: string, path: string, n: nat) {
    Present(before, path, n) && after == before[dest := SourceBytes(before, path, n)]
  }

  /** Every chunk of the upload is at its key, and its StoragePath can be requested. */
  ghost predicate MergeWorks(s: State, u: string)
    requires u in s.uploads
  {
    Present(s.objects, s.uploads[u].chunkPath, s.uploads[u].total) && StoreKey(s.uploads[u].storagePath).Some?
  }

  /** How one MergeChunk of the storage client ended. */
  datatype MergeEnd = NotStarted | CopyFailed(index: nat) | CompleteFailed | Finished

  /** What a merge alone leaves of the objects: the whole concatenation, or no change; both are possible when its last call's answer is an error. */
  ghost predicate MergeLeft(s: State, u: string, objects: map<string, Bytes>, end: MergeEnd) {
    && u in s.uploads
    && (end.NotStarted? || end.CopyFailed? ==> objects == s.objects)
    && (end == Finished || objects != s.objects ==>
          && StoreKey(s.uploads[u].storagePath).Some?
          && Joined(s.objects, objects, StoreKey(s.uploads[u].storagePath).value, s.uploads[u].chunkPath, s.uploads[u].total))
  }

  /** A merge's outcome in the upload's row: Success if it finished, Failed however else it ended; only a write that answers an error may be missing. */
  predicate Recorded(uploads: map<string, UploadRow>, u: string, uploads': map<string, UploadRow>, end: MergeEnd, recorded: bool) {
    && u in uploads
    && (uploads' == Restatus(uploads, u, if end == Finished then Success else Failed) || (!recorded && uploads' == uploads))
  }

  /** The same for a merge that is announced as Merging first; that write may be missing too. */
  predicate RecordedAfter(uploads: map<string, UploadRow>, u: string, uploads': map<string, UploadRow>, end: MergeEnd, recorded: bool) {
    && u in uploads
    && (Recorded(uploads, u, uploads', end, recorded) || (!recorded && uploads' == Restatus(uploads, u, Merging)))
  }

  // Look(0) unfolds the next relations; elsewhere the solver is spared their contents.

  /** A merge alone, when no call fails: the whole object and Success, or no object and Failed. */
  ghost predicate MergedExact(s: State, u: string, s': State) {
    forall n: nat {:trigger Look(n)} :: Look(n) ==>
      && u in s.uploads
      && s'.uploads == Restatus(s.uploads, u, if MergeWorks(s, u) then Success else Failed)
      && if MergeWorks(s, u) then Joined(s.objects, s'.objects, StoreKey(s.uploads[u].storagePath).value, s.uploads[u].chunkPath, s.uploads[u].total)
         else s'.objects == s.objects
  }

  /** The cleanup requests after a merge of u. */
  ghost function CleanedExact(s: State, u: string): set<CleanupRequest>
    requires u in s.uploads
  {
    s.cleanups + if MergeWorks(s, u) then {CleanupRequest(s.uploads[u].chunkPath, s.uploads[u].total)} else {}
  }

  /** A task of the merge worker for u: skipped when the row cannot be read, otherwise merged, recorded and, if that went well, cleaned. */
  ghost predicate TaskServed(s: State, u: string, s': State, end: Option<MergeEnd>, recorded: bool) {
    forall n: nat {:trigger Look(n)} :: Look(n) ==>
      match end
      case None => s'.uploads == s.uploads && s'.objects == s.objects && s'.cleanups == s.cleanups
      case Some(e) =>
        && MergeLeft(s, u, s'.objects, e) && Recorded(s.uploads, u, s'.uploads, e, recorded)
        && s'.cleanups == if e == Finished && recorded then s.cleanups + {CleanupRequest(s.uploads[u].chunkPath, s.uploads[u].total)} else s.cleanups
  }

  /** One task of the merge worker alone, whatever fails. */
  ghost predicate MergeTaskSpec(s: State, s': State, done: bool, end: Option<MergeEnd>, recorded: bool) {
    forall n: nat {:trigger Look(n)} :: Look(n) ==>
      if s.mergeQueue == [] then !done && s' == s
      else done && s'.running == None && s'.mergeQueue == s.mergeQueue[1..] && TaskServed(s, s.mergeQueue[0], s', end, recorded)
  }

  /** One task of the merge worker: the oldest queued upload, and no other, is merged. */
  ghost predicate MergeTaskExact(s: State, s': State, done: bool) {
    forall n: nat {:trigger Look(n)} :: Look(n) ==>
      if s.mergeQueue == [] then !done && s' == s
      else
        && done && s'.running == None && s'.mergeQueue == s.mergeQueue[1..] && s.mergeQueue[0] in s.uploads
        && MergedExact(s, s.mergeQueue[0], s') && s'.cleanups == CleanedExact(s, s.mergeQueue[0])
  }

  // ---- publishing ----

  /** The upload as a publishing request gets it, when no call fails: merged now unless Success before. */
  ghost predicate PreparedExact(s: State, u: string, s': State, upload: Option<UploadRow>, cleanup: bool) {
    forall n: nat {:trigger Look(n)} :: Look(n) ==>
      && u in s.uploads
      && if s.uploads[u].status == Success then upload == Some(s.uploads[u]) && !cleanup && s'.uploads == s.uploads && s'.objects == s.objects
         else if !CountFull(s, u) then upload.None? && s'.uploads == s.uploads && s'.objects == s.objects
         else MergedExact(s, u, s') && (upload.Some? <==> MergeWorks(s, u)) && (upload.Some? ==> upload.value == s'.uploads[u] && cleanup)
  }

  /**
   A publishing request's upload alone, whatever fails: as it was, or merged.  It is handed on
   only when it is Success: already, or because the merge finished and was recorded.
   */
  ghost predicate PreparedSpec(s: State, u: string, s': State, upload: Option<UploadRow>, cleanup: bool, end: Option<MergeEnd>, recorded: bool) {
    forall n: nat {:trigger Look(n)} :: Look(n) ==>
      && u in s.uploads && u in s'.uploads
      && (upload.Some? ==> upload.value == s'.uploads[u] && s'.uploads[u].status == Success && cleanup == end.Some?)
      && match end
         case None =>
           s'.uploads == s.uploads && s'.objects == s.objects
         case Some(e) =>
           && s.uploads[u].status != Success && CountFull(s, u)
           && MergeLeft(s, u, s'.objects, e) && RecordedAfter(s.uploads, u, s'.uploads, e, recorded)
           && (upload.Some? ==> e == Finished && recorded)
  }

  /** A publication alone, up to its announcement, whatever fails. */
  ghost predicate PublishedSpec(s: State, user: string, u: string, v: string, s': State, ok: bool, end: Option<MergeEnd>, recorded: bool) {
    forall n: nat {:trigger Look(n)} :: Look(n) ==>
      && (ok ==> OwnUpload(s, user, u) && u in s'.uploads && s'.uploads[u].status == Success && s'.videos == s.videos[v := VideoRow(u, Processing)])
      && (s'.videos == s.videos || s'.videos == s.videos[v := VideoRow(u, Processing)])
      && match end
         case None =>
           s'.uploads == s.uploads && s'.objects == s.objects
         case Some(e) =>
           && OwnUpload(s, user, u) && s.uploads[u].status != Success && CountFull(s, u)
           && MergeLeft(s, u, s'.objects, e) && RecordedAfter(s.uploads, u, s'.uploads, e, recorded)
           && (ok ==> e == Finished && recorded)
  }

  /** How far the announcement of a publication came. */
  datatype Told = NotReached | PrecreateFailed | ProduceFailed | UpdateFailed | Announced

  /** A failing precreation ends the announcement, and so does a task that is not produced. */
  predicate ToldBy(told: Told, precreateFails: bool, produceFails: bool) {
    && told != NotReached
    && (told == PrecreateFailed <==> precreateFails)
    && (told == ProduceFailed <==> !precreateFails && produceFails)
  }

  /**
   The announcement alone: a refused precreation changes nothing; a task that could not be
   produced leaves the video, then its upload, Failed, unless a call of the database fails too.
   */
  ghost predicate ToldSpec(s: State, v: string, s': State, told: Told, database: bool)
    requires v in s.videos
  {
    && s' == s.(uploads := s'.uploads, videos := s'.videos)
    && match told
       case NotReached => false
       case PrecreateFailed => s' == s
       case ProduceFailed =>
         && (s'.videos == s.videos || s'.videos == s.videos[v := VideoRow(s.videos[v].upload, VideoFailed)])
         && (s'.uploads == s.uploads || (s.videos[v].upload in s.uploads && s'.uploads == Restatus(s.uploads, s.videos[v].upload, Failed)))
         && (database ==>
               && s'.videos == s.videos[v := VideoRow(s.videos[v].upload, VideoFailed)]
               && s.videos[v].upload in s.uploads && s'.uploads == Restatus(s.uploads, s.videos[v].upload, Failed))
       case UpdateFailed =>
         s'.uploads == s.uploads && (s'.videos == s.videos || s'.videos == s.videos[v := VideoRow(s.videos[v].upload, Processing)])
       case Announced =>
         s'.uploads == s.uploads && s'.videos == s.videos[v := VideoRow(s.videos[v].upload, Processing)]
  }

  /** A publication that has merged asks for the cleanup of the upload's chunks. */
  function CleanedAfter(s: State, u: string, merged: bool): set<CleanupRequest> {
    s.cleanups + if merged && u in s.uploads then {CleanupRequest(s.uploads[u].chunkPath, s.uploads[u].total)} else {}
  }

  /** A whole publication alone: published up to some state, then announced as far as it came. */
  ghost predicate PublishVideoSpec(s: State, user: string, u: string, v: string, s': State, end: Option<MergeEnd>, recorded: bool, told: Told, database: bool) {
    && s'.cleanups == CleanedAfter(s, u, told != NotReached && end.Some?)
    && exists s1 ::
      && PublishedSpec(s, user, u, v, s1, told != NotReached, end, recorded)
      && if told == NotReached then s'.uploads == s1.uploads && s'.videos == s1.videos && s'.objects == s1.objects
         else v in s1.videos && s1.videos[v].upload == u && ToldSpec(s1, v, s', told, database)
  }

  /** A publication, up to its video row. */
  ghost predicate PublishedExact(s: State, user: string, u: string, v: string, s': State, ok: bool) {
    forall n: nat {:trigger Look(n)} :: Look(n) ==>
      && (ok <==> OwnUpload(s, user, u) && (s.uploads[u].status == Success || (CountFull(s, u) && MergeWorks(s, u))))
      && s'.videos == (if ok then s.videos[v := VideoRow(u, Processing)] else s.videos)
      && if OwnUpload(s, user, u) && s.uploads[u].status != Success && CountFull(s, u) then MergedExact(s, u, s')
         else s'.uploads == s.uploads && s'.objects == s.objects
  }

  /** PublishVideo when no call fails: what is announced, and what is asked to be cleaned. */
  ghost predicate PublishExact(s: State, user: string, u: string, v: string, s': State, path: Option<string>) {
    && PublishedExact(s, user, u, v, s', path.Some?)
    && (path.Some? ==> OwnUpload(s, user, u))
    && (path.Some? ==> path.value == s.uploads[u].storagePath)
    && s'.cleanups == if path.Some? && s.uploads[u].status != Success then CleanedExact(s, u) else s.cleanups
  }

  /** The upload rows after a callback for a video of u. */
  function CalledBack(uploads: map<string, UploadRow>, u: string, status: VideoStatus): map<string, UploadRow>
    requires u in uploads
  {
    match status
    case Published => Restatus(uploads, u, Success)
    case VideoFailed => Restatus(uploads, u, Failed)
    case _ => uploads
  }

  predicate TranscodeExact(s: State, v: string, status: VideoStatus, s': State, ok: bool) {
    && (ok <==> v in s.videos)
    && (!ok ==> s'.videos == s.videos && s'.uploads == s.uploads)
    && (ok ==>
        && s'.videos == s.videos[v := s.videos[v].(status := status)]
        && s.videos[v].upload in s.uploads && s'.uploads == CalledBack(s.uploads, s.videos[v].upload, status))
  }

  /** The upload's status is untouched or one of the three a merge or a callback writes. */
  ghost predicate Restated(before: map<string, UploadRow>, u: string, after: map<string, UploadRow>) {
    u in before && (after == before || exists status | status in {Merging, Failed, Success} :: after == Restatus(before, u, status))
  }

  lemma RestatedTransitive(a: map<string, UploadRow>, b: map<string, UploadRow>, c: map<string, UploadRow>, u: string)
    requires Restated(a, u, b) && Restated(b, u, c)
    ensures Restated(a, u, c)
  {
    if a != b && b != c {
      var x :| x in {Merging, Failed, Success} && b == Restatus(a, u, x);
      var y :| y in {Merging, Failed, Success} && c == Restatus(b, u, y);
      assert c == Restatus(a, u, y);
    }
  }

  /** Only the one upload's status, its new video row and its merged object move. */
  ghost predicate PublishSpec(s: State, user: string, u: string, v: string, s': State) {
    forall n: nat {:trigger Look(n)} :: Look(n) ==>
      && s' == s.(uploads := s'.uploads, videos := s'.videos, objects := s'.objects, multiparts := s'.multiparts,
                  cleanups := s'.cleanups, counted := s'.counted, merged := s'.merged)
      && (s'.uploads == s.uploads || (OwnUpload(s, user, u) && Restated(s.uploads, u, s'.uploads)))
      && (s'.videos == s.videos || (OwnUpload(s, user, u) && exists status | status in {Processing, VideoFailed} :: s'.videos == s.videos[v := VideoRow(u, status)]))
  }

  /** Announcing a fresh publication keeps it one publication. */
  lemma AnnouncedAs(s: State, user: string, u: string, v: string, s1: State, s2: State)
    requires PublishSpec(s, user, u, v, s1) && OwnUpload(s, user, u) && s1.videos == s.videos[v := VideoRow(u, Processing)]
    requires s2 == s1.(uploads := s2.uploads, videos := s2.videos)
    requires s2.uploads == s1.uploads || Restated(s1.uploads, u, s2.uploads)
    requires s2.videos == s1.videos || exists status | status in {Processing, VideoFailed} :: s2.videos == s1.videos[v := s1.videos[v].(status := status)]
    ensures PublishSpec(s, user, u, v, s2)
  {
    assert Look(0);
    if s2.uploads != s1.uploads && s1.uploads != s.uploads {
      RestatedTransitive(s.uploads, s1.uploads, s2.uploads, u);
    }
    var status := s2.videos[v].status;
    assert s2.videos == s.videos[v := VideoRow(u, status)];
  }

  /** UpdateVideoTranscodeInfo: the video row, then Success or Failed on its upload. */
  predicate TranscodeSpec(s: State, v: string, status: VideoStatus, s': State, ok: bool) {
    && s' == s.(uploads := s'.uploads, videos := s'.videos)
    && (s'.videos == s.videos || (v in s.videos && s'.videos == s.videos[v := s.videos[v].(status := status)]))
    && (s'.uploads == s.uploads ||
        (v in s.videos && s.videos[v].upload in s.uploads && status in {Published, VideoFailed}
         && s'.uploads == Restatus(s.uploads, s.videos[v].upload, if status == Published then Success else Failed)))
    && (ok ==> v in s.videos && s'.videos == s.videos[v := s.videos[v].(status := status)])
    && (!ok ==> s'.uploads == s.uploads)
  }
}
