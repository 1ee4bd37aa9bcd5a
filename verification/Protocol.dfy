/**
 The chunked-upload protocol as a transition system.

 A state holds the database rows, the object store and the merge queue, plus history
 variables that only the proofs read.  An event is ONE database or storage call taking
 effect (or one observation a handler acts on); a run is any sequence of enabled events,
 so handlers, the merge worker, publishers, the cleanup worker and clients interleave
 freely.  A call that fails before taking effect is simply no event; a call whose answer
 is lost is an event whose caller reports an error.

 Guards only say how the code calls (which call follows which observation) and what is
 assumed of clients.  That the guards are met is proved of the handlers in Server.
 */
module Protocol {
  import opened Basics
  import opened Keys
  import opened Destinations

  datatype UploadStatus = Init | Success | Failed | Uploading | Merging
  datatype ChunkStatus = Initialized | ChunkUploading | ChunkFailed | Completed
  datatype VideoStatus = Draft | Processing | Published | VideoFailed

  datatype UploadRow = UploadRow(
    user: ByteString, fileName: ByteString, fileHash: string, fileSize: nat, total: nat,
    status: UploadStatus, storagePath: string, chunkPath: string)

  datatype ChunkRow = ChunkRow(
    upload: string, index: nat, key: string, hash: string, size: nat, status: ChunkStatus)

  datatype VideoRow = VideoRow(upload: string, status: VideoStatus)

  datatype PartData = PartData(data: Bytes, etag: string)
  datatype PartRef = PartRef(number: nat, etag: string)

  /** An open multipart upload of the object `dest`; `upload` (history) is the row it was opened for. */
  datatype Multipart = Multipart(dest: string, upload: string, parts: map<nat, PartData>)

  /** A CompleteChunk call between its size check and its end. */
  datatype SizeCheck = SizeCheck(chunk: string, size: nat)

  datatype CleanupRequest = CleanupRequest(chunkPath: string, total: nat)

  datatype State = State(
    uploads: map<string, UploadRow>,
    chunks: map<string, ChunkRow>,
    videos: map<string, VideoRow>,
    objects: map<string, Bytes>,
    multiparts: map<string, Multipart>,
    mergeQueue: seq<string>,
    running: Option<string>,           // the upload the merge worker is busy with
    cleanups: set<CleanupRequest>,     // every cleanup ever requested
    ids: map<string, seq<string>>,     // history: chunk ids of an upload, by index
    body: map<string, Bytes>,          // history: bytes of a chunk when first marked completed
    checks: map<string, SizeCheck>,    // history: CompleteChunk calls past their size check
    counted: set<string>,              // history: uploads once counted as fully completed
    merged: set<string>)               // history: uploads once assembled in the store

  const EmptyState := State(map[], map[], map[], map[], map[], [], None, {}, map[], map[], map[], {}, {})

  const MERGE_QUEUE_SIZE: nat := 128
  const MAX_CHUNKS: nat := 4096

  datatype Event =
    | CreateUpload(u: string, row: UploadRow, cs: seq<string>)
    | Put(c: string, data: Bytes)
    | CheckSize(t: string, c: string)
    | EndCheck(t: string)
    | MarkCompleted(t: string, hash: string, size: nat)
    | SetChunkUploading(c: string)
    | CountedAll(u: string)
    | SetStatus(u: string, status: UploadStatus)
    | EnqueueMerge(u: string)
    | TakeMerge
    | FinishMerge(outcome: Option<UploadStatus>)
    | Initiate(id: string, u: string, dest: string)
    | CopyPart(id: string, number: nat, src: string, etag: string)
    | CompleteParts(id: string, list: seq<PartRef>)
    | Abort(id: string)
    | CreateVideo(v: string, video: VideoRow)
    | SetVideo(v: string, videoStatus: VideoStatus)
    | EnqueueCleanup(u: string)
    | DeleteKey(path: string, index: nat, removed: bool, ok: bool)

  // ---- reading the rows ----

  function CompletedChunks(s: State, u: string): set<string> {
    set c | c in s.chunks && s.chunks[c].upload == u && s.chunks[c].status.Completed?
  }

  /** CountChunk: rows of the upload whose status is Completed. */
  function CountCompleted(s: State, u: string): nat { |CompletedChunks(s, u)| }

  predicate HasVideo(s: State, u: string) {
    exists v | v in s.videos :: s.videos[v].upload == u
  }

  // ---- the object store ----

  predicate S3Accepts(m: Multipart, list: seq<PartRef>) {
    && list != []
    && (forall k | 0 <= k < |list| :: list[k].number in m.parts && m.parts[list[k].number].etag == list[k].etag)
    && (forall j, k | 0 <= j < k < |list| :: list[j].number < list[k].number)
  }

  function Assemble(parts: map<nat, PartData>, list: seq<PartRef>): Bytes
    requires forall k | 0 <= k < |list| :: list[k].number in parts
  {
    if list == [] then [] else Assemble(parts, list[..|list| - 1]) + parts[list[|list| - 1].number].data
  }

  // ---- events: when the code or a client may issue them ----

  predicate ChunkRowsFor(s: State, u: string, row: UploadRow, cs: seq<string>) {
    && |cs| == row.total
    && (forall i | 0 <= i < |cs| :: cs[i] !in s.chunks)
    && (forall i, j | 0 <= i < j < |cs| :: cs[i] != cs[j])
  }

  ghost predicate NewUpload(s: State, u: string, row: UploadRow, cs: seq<string>) {
    && u !in s.uploads && ValidUuid(u)
    && UserId(row.user)
    && 1 <= row.total <= MAX_CHUNKS
    && row.status == Init
    && IsChunkPath(row.chunkPath, u)
    && IsStoragePath(row.storagePath, row.user, u, row.fileName)
    && ChunkRowsFor(s, u, row, cs)
  }

  /**
   The assumption about clients: once a chunk has been marked completed, a client that
   writes the chunk again writes the same bytes.  Until then, also between the size check
   and the mark of a CompleteChunk call, it may write anything.
   */
  predicate ClientMayPut(s: State, c: string, data: Bytes) {
    && c in s.chunks
    && (c in s.body ==> data == s.body[c])
  }

  ghost predicate Enabled(s: State, e: Event) {
    match e
    case CreateUpload(u, row, cs) => NewUpload(s, u, row, cs)
    case Put(c, data) => ClientMayPut(s, c, data)
    case CheckSize(t, c) => t !in s.checks && c in s.chunks && s.chunks[c].key in s.objects
    case EndCheck(t) => true
    case MarkCompleted(t, hash, size) => t in s.checks && s.checks[t].chunk in s.chunks && size == s.checks[t].size
    case SetChunkUploading(c) => c in s.chunks
    case CountedAll(u) => u in s.uploads && CountCompleted(s, u) == s.uploads[u].total
    case SetStatus(u, status) => u in s.uploads &&
      (match status
       case Init => false
       case Uploading => true
       case Merging => u in s.counted
       case Failed => u in s.counted || HasVideo(s, u)
       case Success => u in s.merged || HasVideo(s, u))
    case EnqueueMerge(u) => u in s.counted && |s.mergeQueue| < MERGE_QUEUE_SIZE
    case TakeMerge => s.running.None? && s.mergeQueue != []
    case FinishMerge(outcome) => s.running.Some? &&
      (match outcome
       case None => true
       case Some(status) =>
         && s.running.value in s.uploads
         && (status == Failed || (status == Success && s.running.value in s.merged)))
    case Initiate(id, u, dest) =>
      && id !in s.multiparts && u in s.uploads && u in s.counted
      && StoreKey(s.uploads[u].storagePath) == Some(dest)
    case CopyPart(id, number, src, etag) =>
      && id in s.multiparts && src in s.objects
      && s.multiparts[id].upload in s.uploads
      && 1 <= number <= s.uploads[s.multiparts[id].upload].total
      && src == ChunkKey(s.uploads[s.multiparts[id].upload].chunkPath, number - 1)
    case CompleteParts(id, list) =>
      && id in s.multiparts && S3Accepts(s.multiparts[id], list)
      && s.multiparts[id].upload in s.uploads
      && |list| == s.uploads[s.multiparts[id].upload].total
      && (forall k | 0 <= k < |list| :: list[k].number == k + 1)
    case Abort(id) => true
    case CreateVideo(v, video) => v !in s.videos && video.upload in s.merged
    case SetVideo(v, status) => v in s.videos
    case EnqueueCleanup(u) => u in s.uploads && u in s.merged
    case DeleteKey(path, index, removed, ok) =>
      && (exists r | r in s.cleanups :: r.chunkPath == path && index < r.total)
      && (ok ==> removed)
  }

  // ---- events: what they do ----

  function NewChunkRow(u: string, row: UploadRow, i: nat): ChunkRow {
    ChunkRow(u, i, ChunkKey(row.chunkPath, i), "", 0, Initialized)
  }

  function InsertFirst(chunks: map<string, ChunkRow>, u: string, row: UploadRow, cs: seq<string>, n: nat): (r: map<string, ChunkRow>)
    requires n <= |cs|
    requires forall i, j | 0 <= i < j < |cs| :: cs[i] != cs[j]
    requires forall i | 0 <= i < |cs| :: cs[i] !in chunks
    ensures forall c | c in chunks :: c in r && r[c] == chunks[c]
    ensures forall i | 0 <= i < n :: cs[i] in r && r[cs[i]] == NewChunkRow(u, row, i)
    ensures forall c | c in r :: c in chunks || c in cs
  {
    if n == 0 then chunks
    else InsertFirst(chunks, u, row, cs, n - 1)[cs[n - 1] := NewChunkRow(u, row, n - 1)]
  }

  function InsertChunks(chunks: map<string, ChunkRow>, u: string, row: UploadRow, cs: seq<string>): (r: map<string, ChunkRow>)
    requires forall i, j | 0 <= i < j < |cs| :: cs[i] != cs[j]
    requires forall i | 0 <= i < |cs| :: cs[i] !in chunks
    ensures forall c | c in chunks :: c in r && r[c] == chunks[c]
    ensures forall i | 0 <= i < |cs| :: cs[i] in r && r[cs[i]] == NewChunkRow(u, row, i)
    ensures forall c | c in r :: c in chunks || c in cs
  {
    InsertFirst(chunks, u, row, cs, |cs|)
  }

  function WithUpload(s: State, u: string, row: UploadRow, cs: seq<string>): State
    requires forall i, j | 0 <= i < j < |cs| :: cs[i] != cs[j]
    requires forall i | 0 <= i < |cs| :: cs[i] !in s.chunks
  {
    s.(uploads := s.uploads[u := row], chunks := InsertChunks(s.chunks, u, row, cs), ids := s.ids[u := cs])
  }

  function Restatus(uploads: map<string, UploadRow>, u: string, status: UploadStatus): map<string, UploadRow>
    requires u in uploads
  {
    uploads[u := uploads[u].(status := status)]
  }

  function WithStatus(s: State, u: string, status: UploadStatus): State
    requires u in s.uploads
  {
    s.(uploads := Restatus(s.uploads, u, status))
  }

  /** The row is written; the first time, the bytes at the chunk's key become its body. */
  function WithCompleted(s: State, c: string, hash: string, size: nat): State
    requires c in s.chunks
  {
    var key := s.chunks[c].key;
    s.(chunks := s.chunks[c := s.chunks[c].(hash := hash, size := size, status := Completed)],
       body := if c in s.body || key !in s.objects then s.body else s.body[c := s.objects[key]])
  }

  function Apply(s: State, e: Event): State
    requires Enabled(s, e)
  {
    match e
    case CreateUpload(u, row, cs) =>
      WithUpload(s, u, row, cs)
    case Put(c, data) => s.(objects := s.objects[s.chunks[c].key := data])
    case CheckSize(t, c) => s.(checks := s.checks[t := SizeCheck(c, |s.objects[s.chunks[c].key]|)])
    case EndCheck(t) => s.(checks := s.checks - {t})
    case MarkCompleted(t, hash, size) => WithCompleted(s, s.checks[t].chunk, hash, size)
    case SetChunkUploading(c) => s.(chunks := s.chunks[c := s.chunks[c].(status := ChunkUploading)])
    case CountedAll(u) => s.(counted := s.counted + {u})
    case SetStatus(u, status) => WithStatus(s, u, status)
    case EnqueueMerge(u) => s.(mergeQueue := s.mergeQueue + [u])
    case TakeMerge => s.(mergeQueue := s.mergeQueue[1..], running := Some(s.mergeQueue[0]))
    case FinishMerge(outcome) =>
      var s' := s.(running := None);
      if outcome.Some? then WithStatus(s', s.running.value, outcome.value) else s'
    case Initiate(id, u, dest) => s.(multiparts := s.multiparts[id := Multipart(dest, u, map[])])
    case CopyPart(id, number, src, etag) =>
      var m := s.multiparts[id];
      s.(multiparts := s.multiparts[id := m.(parts := m.parts[number := PartData(s.objects[src], etag)])])
    case CompleteParts(id, list) =>
      var m := s.multiparts[id];
      s.(multiparts := s.multiparts - {id},
         objects := s.objects[m.dest := Assemble(m.parts, list)],
         merged := s.merged + {m.upload})
    case Abort(id) => s.(multiparts := s.multiparts - {id})
    case CreateVideo(v, video) => s.(videos := s.videos[v := video])
    case SetVideo(v, status) => s.(videos := s.videos[v := s.videos[v].(status := status)])
    case EnqueueCleanup(u) =>
      s.(cleanups := s.cleanups + {CleanupRequest(s.uploads[u].chunkPath, s.uploads[u].total)})
    case DeleteKey(path, index, removed, ok) =>
      if removed then s.(objects := s.objects - {ChunkKey(path, index)}) else s
  }

  /** The state after a run of events, or None when some event was not enabled. */
  ghost function Run(es: seq<Event>): Option<State> {
    if es == [] then Some(EmptyState)
    else
      var e := es[|es| - 1];
      match Run(es[..|es| - 1])
      case None => None
      case Some(s) =>
        if Enabled(s, e) then Some(Apply(s, e)) else None
  }

  ghost predicate Reachable(s: State) {
    exists es :: Run(es) == Some(s)
  }
}
