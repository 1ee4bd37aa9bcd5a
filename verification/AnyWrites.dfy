/**
 Merging without any assumption about clients: they may write every chunk at any time, also
 after it was marked completed.  What is merged is still one string per chunk, in index
 order, each as it stood at its key when it was copied.
 */
module AnyWrites {
  import opened Basics
  import opened Keys
  import opened Destinations
  import opened Protocol
  import opened Invariant
  import opened Theorems
  import opened Sizes

  // ---- runs ----

  /** The state after one more event; a client may write any chunk. */
  ghost function Next(s: State, e: Event): Option<State> {
    if e.Put? then
      if e.c in s.chunks then Some(AfterPut(s, e.c, e.data)) else None
    else if Enabled(s, e) then Some(Apply(s, e))
    else None
  }

  ghost function AnyRun(es: seq<Event>): Option<State> {
    if es == [] then Some(EmptyState)
    else Then(AnyRun(es[..|es| - 1]), es[|es| - 1])
  }

  ghost function Then(s: Option<State>, e: Event): Option<State> { if s.None? then None else Next(s.value, e) }

  /** The assumption only removes runs. */
  lemma {:induction false} RunsAreAnyRuns(es: seq<Event>)
    requires Run(es).Some?
    ensures AnyRun(es) == Run(es)
  {
    if es != [] { RunsAreAnyRuns(es[..|es| - 1]); }
  }

  // ---- rows ----

  predicate OnRows(e: Event) { e.CreateUpload? || e.SetStatus? || e.FinishMerge? || e.MarkCompleted? || e.SetChunkUploading? }

  /** These events leave the upload and chunk rows as they are. */
  lemma TablesLeft(s: State, e: Event)
    requires Enabled(s, e) && !OnRows(e) && !e.Put?
    ensures var s' := Apply(s, e); s'.uploads == s.uploads && s'.chunks == s.chunks && s'.ids == s.ids
  {
    if OnMerging(e) {
      MergingTables(s, e);
    } else if e.EnqueueCleanup? || e.DeleteKey? {
      CleaningTables(s, e);
    } else {
      OtherTables(s, e);
    }
  }

  lemma MergingTables(s: State, e: Event)
    requires Enabled(s, e) && OnMerging(e) && !e.FinishMerge?
    ensures var s' := Apply(s, e); s'.uploads == s.uploads && s'.chunks == s.chunks && s'.ids == s.ids && s'.cleanups == s.cleanups
  {
    match e
    case CompleteParts(id, list) => CompleteLeaves(s, id, list);
    case CopyPart(id, number, src, etag) => CopyLeaves(s, id, number, src, etag);
    case Initiate(id, u, dest) => InitiateLeaves(s, id, u, dest);
    case Abort(id) =>
    case TakeMerge =>
    case EnqueueMerge(u) =>
  }

  lemma CleaningTables(s: State, e: Event)
    requires Enabled(s, e) && (e.EnqueueCleanup? || e.DeleteKey?)
    ensures var s' := Apply(s, e); s' == s.(objects := s'.objects, cleanups := s'.cleanups)
  {
    match e
    case EnqueueCleanup(u) => RequestLeaves(s, u);
    case DeleteKey(path, index, removed, ok) => DeleteLeaves(s, path, index, removed, ok);
  }

  lemma OtherTables(s: State, e: Event)
    requires Enabled(s, e) && (e.CheckSize? || e.EndCheck? || e.CountedAll? || e.CreateVideo? || e.SetVideo?)
    ensures var s' := Apply(s, e);
      s' == s.(checks := s'.checks, counted := s'.counted, videos := s'.videos)
  {
  }

  /** Rows stay, and only statuses, hashes and sizes change. */
  ghost predicate RowsGrow(s: State, s': State) {
    && (forall u {:trigger UploadGrows(s, s', u)} | u in s.uploads :: UploadGrows(s, s', u))
    && (forall c {:trigger ChunkGrows(s, s', c)} | c in s.chunks :: ChunkGrows(s, s', c))
  }

  lemma RestatusKept(s: State, s': State, u: string, status: UploadStatus)
    requires u in s.uploads && s'.uploads == Restatus(s.uploads, u, status) && s'.chunks == s.chunks && s'.ids == s.ids
    ensures RowsKept(s, s')
  {
  }

  lemma SetStatusKeeps(s: State, u: string, status: UploadStatus)
    requires Enabled(s, SetStatus(u, status))
    ensures RowsKept(s, Apply(s, SetStatus(u, status)))
  {
    StatusLeaves(s, u, status);
    RestatusKept(s, WithStatus(s, u, status), u, status);
  }

  lemma FinishKeeps(s: State, outcome: Option<UploadStatus>)
    requires Enabled(s, FinishMerge(outcome))
    ensures RowsKept(s, Apply(s, FinishMerge(outcome)))
  {
    if outcome.Some? { RestatusKept(s, Apply(s, FinishMerge(outcome)), s.running.value, outcome.value); }
  }

  lemma ChunkStatusKeeps(s: State, e: Event)
    requires Enabled(s, e) && (e.MarkCompleted? || e.SetChunkUploading?)
    ensures RowsKept(s, Apply(s, e))
  {
  }

  lemma OnRowsKeeps(s: State, e: Event)
    requires Enabled(s, e) && OnRows(e) && !e.CreateUpload?
    ensures RowsKept(s, Apply(s, e))
  {
    match e
    case SetStatus(u, status) => SetStatusKeeps(s, u, status);
    case FinishMerge(outcome) => FinishKeeps(s, outcome);
    case _ => ChunkStatusKeeps(s, e);
  }

  lemma SameRowsKept(s: State, s': State)
    requires s'.uploads == s.uploads && s'.chunks == s.chunks && s'.ids == s.ids
    ensures RowsKept(s, s')
  {
  }

  lemma NewRowsStep(s: State, u: string, row: UploadRow, cs: seq<string>)
    requires Layout(s) && NewUpload(s, u, row, cs)
    ensures Layout(WithUpload(s, u, row, cs)) && Grows(s, WithUpload(s, u, row, cs))
  {
    var s' := WithUpload(s, u, row, cs);
    assert Created(s, u, row, cs, s');
    CreatedLayout(s, u, row, cs, s');
    CreatedGrows(s, u, row, cs, s');
  }

  lemma RowsKeptStep(s: State, e: Event)
    requires Next(s, e).Some? && !e.CreateUpload?
    ensures RowsKept(s, Next(s, e).value)
  {
    if e.Put? {
      SameRowsKept(s, Next(s, e).value);
    } else if OnRows(e) {
      OnRowsKeeps(s, e);
    } else {
      TablesLeft(s, e);
      SameRowsKept(s, Next(s, e).value);
    }
  }

  lemma RowsStep(s: State, e: Event)
    requires Layout(s) && Next(s, e).Some?
    ensures Layout(Next(s, e).value) && RowsGrow(s, Next(s, e).value)
  {
    if e.CreateUpload? {
      NewRowsStep(s, e.u, e.row, e.cs);
    } else {
      RowsKeptStep(s, e);
      LayoutFrame(s, Next(s, e).value);
    }
  }

  // ---- what was copied ----

  /** Event k copied these bytes, which stood at src then, as part n of the multipart upload. */
  ghost predicate CopiedAt(es: seq<Event>, k: nat, id: string, n: nat, src: string, data: Bytes) {
    && k < |es| && es[k].CopyPart? && es[k].id == id && es[k].number == n && es[k].src == src
    && AnyRun(es[..k]).Some? && src in AnyRun(es[..k]).value.objects && AnyRun(es[..k]).value.objects[src] == data
  }

  ghost predicate Copied(es: seq<Event>, id: string, n: nat, src: string, data: Bytes) {
    exists k: nat :: CopiedAt(es, k, id, n, src, data)
  }

  lemma CopiedOn(es: seq<Event>, e: Event, id: string, n: nat, src: string, data: Bytes)
    requires Copied(es, id, n, src, data)
    ensures Copied(es + [e], id, n, src, data)
  {
    var k: nat :| CopiedAt(es, k, id, n, src, data);
    assert (es + [e])[..k] == es[..k];
    assert CopiedAt(es + [e], k, id, n, src, data);
  }

  lemma CopiedNow(es: seq<Event>, e: Event, s: State)
    requires AnyRun(es) == Some(s) && e.CopyPart? && e.src in s.objects
    ensures Copied(es + [e], e.id, e.number, e.src, s.objects[e.src])
  {
    assert (es + [e])[..|es|] == es;
    assert CopiedAt(es + [e], |es|, e.id, e.number, e.src, s.objects[e.src]);
  }

  /** Part n was copied from chunk n-1 of the multipart upload's upload. */
  ghost predicate PartOk(es: seq<Event>, s: State, m: Multipart, id: string, n: nat) {
    && n in m.parts && m.upload in s.uploads && n >= 1
    && Copied(es, id, n, ChunkKey(s.uploads[m.upload].chunkPath, n - 1), m.parts[n].data)
  }

  ghost predicate OpenOk(es: seq<Event>, s: State, id: string) {
    && id in s.multiparts
    && var m := s.multiparts[id];
    && m.upload in s.uploads && StoreKey(s.uploads[m.upload].storagePath) == Some(m.dest)
    && forall n {:trigger PartOk(es, s, m, id, n)} | n in m.parts :: PartOk(es, s, m, id, n)
  }

  function Flatten(pieces: seq<Bytes>): Bytes {
    if pieces == [] then [] else Flatten(pieces[..|pieces| - 1]) + pieces[|pieces| - 1]
  }

  /** Piece i is what stood at chunk key i when it was copied as part i+1. */
  ghost predicate Pieced(es: seq<Event>, id: string, path: string, pieces: seq<Bytes>) {
    forall i: nat {:trigger pieces[i]} | i < |pieces| :: Copied(es, id, i + 1, ChunkKey(path, i), pieces[i])
  }

  /** If the upload has an object, it is one copied piece per chunk, in index order. */
  ghost predicate ObjectOk(es: seq<Event>, s: State, u: string) {
    HasObject(s, u) ==> exists id, pieces ::
      |pieces| == s.uploads[u].total && Pieced(es, id, s.uploads[u].chunkPath, pieces) && Stored(s, u, Flatten(pieces))
  }

  /** A cleanup request is for the chunks of some upload. */
  ghost predicate ForUpload(s: State, r: CleanupRequest) {
    exists u | u in s.uploads :: r == CleanupRequest(s.uploads[u].chunkPath, s.uploads[u].total)
  }

  ghost predicate AnyInv(es: seq<Event>, s: State) {
    && Layout(s)
    && (forall id {:trigger OpenOk(es, s, id)} | id in s.multiparts :: OpenOk(es, s, id))
    && (forall u {:trigger ObjectOk(es, s, u)} | u in s.uploads :: ObjectOk(es, s, u))
    && (forall k {:trigger KeyOfRow(s, k)} | k in s.objects :: KeyOfRow(s, k))
    && (forall r {:trigger ForUpload(s, r)} | r in s.cleanups :: ForUpload(s, r))
  }

  // ---- open multipart uploads ----

  lemma OpenCarried(es: seq<Event>, s: State, e: Event, s': State, id: string)
    requires OpenOk(es, s, id) && RowsGrow(s, s') && id in s'.multiparts && s'.multiparts[id] == s.multiparts[id]
    ensures OpenOk(es + [e], s', id)
  {
    var m := s.multiparts[id];
    assert UploadGrows(s, s', m.upload);
    forall n | n in m.parts ensures PartOk(es + [e], s', m, id, n) {
      assert PartOk(es, s, m, id, n);
      CopiedOn(es, e, id, n, ChunkKey(s.uploads[m.upload].chunkPath, n - 1), m.parts[n].data);
    }
  }

  lemma OpenCopied(es: seq<Event>, s: State, e: Event)
    requires AnyRun(es) == Some(s) && e.CopyPart? && Enabled(s, e) && OpenOk(es, s, e.id)
    ensures OpenOk(es + [e], Apply(s, e), e.id)
  {
    var s', m := Apply(s, e), s.multiparts[e.id];
    var m' := m.(parts := m.parts[e.number := PartData(s.objects[e.src], e.etag)]);
    assert s' == s.(multiparts := s.multiparts[e.id := m']);
    CopiedNow(es, e, s);
    forall n | n in m'.parts ensures PartOk(es + [e], s', m', e.id, n) {
      if n != e.number {
        assert PartOk(es, s, m, e.id, n);
        CopiedOn(es, e, e.id, n, ChunkKey(s.uploads[m.upload].chunkPath, n - 1), m.parts[n].data);
      }
    }
  }

  /** Only these events change what is open. */
  lemma OpenLeft(s: State, e: Event)
    requires Next(s, e).Some? && !(e.Initiate? || e.CopyPart? || e.CompleteParts? || e.Abort?)
    ensures Next(s, e).value.multiparts == s.multiparts
  {
    if e.FinishMerge? {
      FinishLeaves(s, e.outcome);
    } else if e.EnqueueCleanup? || e.DeleteKey? {
      CleaningTables(s, e);
    } else if e.SetStatus? {
      StatusLeaves(s, e.u, e.status);
    } else if e.CreateUpload? || e.MarkCompleted? || e.SetChunkUploading? {
      RowsOpen(s, e);
    } else if e.TakeMerge? || e.EnqueueMerge? {
      QueueOpen(s, e);
    } else if !e.Put? {
      OtherTables(s, e);
    }
  }

  lemma RowsOpen(s: State, e: Event)
    requires Enabled(s, e) && (e.CreateUpload? || e.MarkCompleted? || e.SetChunkUploading?)
    ensures Apply(s, e).multiparts == s.multiparts && Apply(s, e).objects == s.objects && Apply(s, e).cleanups == s.cleanups
  {
    if e.CreateUpload? { assert Apply(s, e) == WithUpload(s, e.u, e.row, e.cs); }
  }

  lemma QueueOpen(s: State, e: Event)
    requires Enabled(s, e) && (e.TakeMerge? || e.EnqueueMerge?)
    ensures Apply(s, e).multiparts == s.multiparts && Apply(s, e).cleanups == s.cleanups
  {
  }

  lemma OpenInitiated(es: seq<Event>, s: State, e: Event)
    requires e.Initiate? && Enabled(s, e)
    ensures OpenOk(es + [e], Apply(s, e), e.id)
  {
    assert Apply(s, e) == s.(multiparts := s.multiparts[e.id := Multipart(e.dest, e.u, map[])]);
  }

  lemma OpenElsewhere(s: State, e: Event, id: string)
    requires e.Initiate? && Enabled(s, e) && id != e.id && id in Apply(s, e).multiparts
    ensures id in s.multiparts && Apply(s, e).multiparts[id] == s.multiparts[id]
  {
    InitiateLeaves(s, e.id, e.u, e.dest);
  }

  lemma OpenStep(es: seq<Event>, s: State, e: Event, id: string)
    requires AnyRun(es) == Some(s) && AnyInv(es, s) && Next(s, e).Some? && id in Next(s, e).value.multiparts
    ensures OpenOk(es + [e], Next(s, e).value, id)
  {
    var s' := Next(s, e).value;
    RowsStep(s, e);
    if id in s.multiparts { assert OpenOk(es, s, id); }
    if e.Initiate? {
      if id == e.id { OpenInitiated(es, s, e); } else { OpenElsewhere(s, e, id); OpenCarried(es, s, e, s', id); }
    } else if e.CopyPart? {
      CopyLeaves(s, e.id, e.number, e.src, e.etag);
      if id == e.id { OpenCopied(es, s, e); } else { OpenCarried(es, s, e, s', id); }
    } else if e.CompleteParts? {
      CompleteLeaves(s, e.id, e.list);
      OpenCarried(es, s, e, s', id);
    } else if e.Abort? {
      OpenCarried(es, s, e, s', id);
    } else {
      OpenLeft(s, e);
      OpenCarried(es, s, e, s', id);
    }
  }

  // ---- objects ----

  lemma {:induction false} PiecesAssemble(parts: map<nat, PartData>, list: seq<PartRef>) returns (pieces: seq<Bytes>)
    requires forall k | 0 <= k < |list| :: list[k].number == k + 1 && list[k].number in parts
    ensures |pieces| == |list| && (forall k | 0 <= k < |list| :: pieces[k] == parts[list[k].number].data)
    ensures Flatten(pieces) == Assemble(parts, list)
  {
    if list == [] { return []; }
    var n := |list| - 1;
    var front := PiecesAssemble(parts, list[..n]);
    pieces := front + [parts[list[n].number].data];
    assert pieces[..n] == front;
  }

  /** The listed parts are one copied piece per chunk. */
  lemma ListedPieces(es: seq<Event>, s: State, e: Event, id: string, list: seq<PartRef>) returns (pieces: seq<Bytes>)
    requires OpenOk(es, s, id)
    requires forall k | 0 <= k < |list| :: list[k].number == k + 1 && list[k].number in s.multiparts[id].parts
    ensures |pieces| == |list| && Flatten(pieces) == Assemble(s.multiparts[id].parts, list)
    ensures Pieced(es + [e], id, s.uploads[s.multiparts[id].upload].chunkPath, pieces)
  {
    var m := s.multiparts[id];
    var path := s.uploads[m.upload].chunkPath;
    pieces := PiecesAssemble(m.parts, list);
    forall i: nat | i < |pieces| ensures Copied(es + [e], id, i + 1, ChunkKey(path, i), pieces[i]) {
      assert list[i].number == i + 1;
      assert PartOk(es, s, m, id, i + 1);
      CopiedOn(es, e, id, i + 1, ChunkKey(path, i), pieces[i]);
    }
  }

  lemma CompletedObject(s: State, e: Event)
    requires e.CompleteParts? && Enabled(s, e)
    ensures var m, s' := s.multiparts[e.id], Apply(s, e);
      && (forall k | 0 <= k < |e.list| :: e.list[k].number == k + 1 && e.list[k].number in m.parts)
      && |e.list| == s.uploads[m.upload].total && s'.uploads == s.uploads
      && s'.objects == s.objects[m.dest := Assemble(m.parts, e.list)]
  {
  }

  /** A completed merge stores one copied piece per chunk. */
  lemma CompletedPieces(es: seq<Event>, s: State, e: Event)
    requires AnyInv(es, s) && e.CompleteParts? && Enabled(s, e)
    ensures ObjectOk(es + [e], Apply(s, e), s.multiparts[e.id].upload)
  {
    assert OpenOk(es, s, e.id);
    CompletedObject(s, e);
    var pieces := ListedPieces(es, s, e, e.id, e.list);
    assert Stored(Apply(s, e), s.multiparts[e.id].upload, Flatten(pieces));
  }

  /** An object that was there stays explained by the longer run. */
  lemma ObjectCarried(es: seq<Event>, s: State, e: Event, s': State, u: string)
    requires u in s.uploads && ObjectOk(es, s, u) && UploadGrows(s, s', u)
    requires var k := StoreKey(s.uploads[u].storagePath); HasObject(s', u) ==> k.value in s.objects && s'.objects[k.value] == s.objects[k.value]
    ensures ObjectOk(es + [e], s', u)
  {
    if HasObject(s', u) {
      assert HasObject(s, u);
      var id, pieces :| |pieces| == s.uploads[u].total && Pieced(es, id, s.uploads[u].chunkPath, pieces) && Stored(s, u, Flatten(pieces));
      forall i: nat | i < |pieces| ensures Copied(es + [e], id, i + 1, ChunkKey(s.uploads[u].chunkPath, i), pieces[i]) {
        CopiedOn(es, e, id, i + 1, ChunkKey(s.uploads[u].chunkPath, i), pieces[i]);
      }
      assert Pieced(es + [e], id, s'.uploads[u].chunkPath, pieces) && Stored(s', u, Flatten(pieces));
    }
  }

  /** The chunk whose key a cleanup deletes. */
  lemma CleanedChunk(s: State, path: string, index: nat) returns (c: string)
    requires Layout(s) && (forall r {:trigger ForUpload(s, r)} | r in s.cleanups :: ForUpload(s, r))
    requires exists r | r in s.cleanups :: r.chunkPath == path && index < r.total
    ensures c in s.chunks && s.chunks[c].key == ChunkKey(path, index)
  {
    var r :| r in s.cleanups && r.chunkPath == path && index < r.total;
    assert ForUpload(s, r);
    var u :| u in s.uploads && r == CleanupRequest(s.uploads[u].chunkPath, s.uploads[u].total);
    assert UploadLaid(s, u);
    c := s.ids[u][index];
    assert ChunkLaid(s, c);
  }

  /** Another event does not write, or delete, where the upload's merges put its object. */
  lemma ObjectSpared(es: seq<Event>, s: State, e: Event, u: string)
    requires AnyInv(es, s) && Next(s, e).Some? && u in s.uploads && StoreKey(s.uploads[u].storagePath).Some?
    requires !(e.CompleteParts? && s.multiparts[e.id].upload == u)
    ensures SameObject(s, Next(s, e).value, u)
  {
    if e.Put? {
      ChunkNotStorage(s, e.c, u);
    } else if e.CompleteParts? {
      assert OpenOk(es, s, e.id);
      CompleteLeaves(s, e.id, e.list);
      var m := s.multiparts[e.id];
      if StoreKey(s.uploads[u].storagePath) == Some(m.dest) { StorageApart(s, u, m.upload); }
    } else if e.DeleteKey? {
      var c := CleanedChunk(s, e.path, e.index);
      ChunkNotStorage(s, c, u);
      DeletedSpares(s, e, StoreKey(s.uploads[u].storagePath).value);
    } else {
      ObjectsUntouched(s, e);
    }
  }

  lemma DeletedSpares(s: State, e: Event, k: string)
    requires Enabled(s, e) && e.DeleteKey? && k != ChunkKey(e.path, e.index)
    ensures k in Apply(s, e).objects <==> k in s.objects
    ensures k in s.objects ==> Apply(s, e).objects[k] == s.objects[k]
  {
  }

  lemma ObjectStep(es: seq<Event>, s: State, e: Event, u: string)
    requires AnyRun(es) == Some(s) && AnyInv(es, s) && Next(s, e).Some? && u in Next(s, e).value.uploads
    ensures ObjectOk(es + [e], Next(s, e).value, u)
  {
    var s' := Next(s, e).value;
    RowsStep(s, e);
    if e.CompleteParts? && s.multiparts[e.id].upload == u {
      CompletedPieces(es, s, e);
    } else if u in s.uploads {
      assert ObjectOk(es, s, u) && UploadGrows(s, s', u);
      if StoreKey(s.uploads[u].storagePath).Some? { ObjectSpared(es, s, e, u); }
      ObjectCarried(es, s, e, s', u);
    } else {
      CreatedEmpty(s, e, u);
    }
  }

  /** A new upload has no object. */
  lemma CreatedEmpty(s: State, e: Event, u: string)
    requires Layout(s) && (forall k {:trigger KeyOfRow(s, k)} | k in s.objects :: KeyOfRow(s, k))
    requires Next(s, e).Some? && u !in s.uploads && u in Next(s, e).value.uploads
    ensures !HasObject(Next(s, e).value, u)
  {
    if e.CreateUpload? {
      NewRowsStep(s, e.u, e.row, e.cs);
      FreshPathFree(s, Next(s, e).value, u);
    } else {
      RowsKeptStep(s, e);
    }
  }

  // ---- keys and requests ----

  lemma KeysStep(es: seq<Event>, s: State, e: Event, k: string)
    requires AnyInv(es, s) && Next(s, e).Some? && k in Next(s, e).value.objects
    ensures KeyOfRow(Next(s, e).value, k)
  {
    var s' := Next(s, e).value;
    RowsStep(s, e);
    if k in s.objects {
      assert KeyOfRow(s, k);
      KeyOfRowGrows(s, s', k);
    } else if e.Put? {
      assert k == s.chunks[e.c].key && ChunkGrows(s, s', e.c);
    } else if e.CompleteParts? {
      assert OpenOk(es, s, e.id);
      CompleteLeaves(s, e.id, e.list);
      assert k == s.multiparts[e.id].dest && UploadGrows(s, s', s.multiparts[e.id].upload);
    } else if e.DeleteKey? {
      assert false;
    } else {
      ObjectsUntouched(s, e);
      assert false;
    }
  }

  /** Only one event asks for a cleanup. */
  lemma RequestsLeft(s: State, e: Event)
    requires Next(s, e).Some? && !e.EnqueueCleanup?
    ensures Next(s, e).value.cleanups == s.cleanups
  {
    if e.FinishMerge? {
      FinishLeaves(s, e.outcome);
    } else if e.SetStatus? {
      StatusLeaves(s, e.u, e.status);
    } else if e.DeleteKey? {
      DeleteLeaves(s, e.path, e.index, e.removed, e.ok);
    } else if e.CreateUpload? || e.MarkCompleted? || e.SetChunkUploading? {
      RowsOpen(s, e);
    } else if OnMerging(e) {
      MergingTables(s, e);
    } else if !e.Put? {
      OtherTables(s, e);
    }
  }

  lemma RequestsStep(es: seq<Event>, s: State, e: Event, r: CleanupRequest)
    requires AnyInv(es, s) && Next(s, e).Some? && r in Next(s, e).value.cleanups
    ensures ForUpload(Next(s, e).value, r)
  {
    var s' := Next(s, e).value;
    RowsStep(s, e);
    if r in s.cleanups {
      assert ForUpload(s, r);
      var u :| u in s.uploads && r == CleanupRequest(s.uploads[u].chunkPath, s.uploads[u].total);
      assert UploadGrows(s, s', u);
    } else if e.EnqueueCleanup? {
      assert UploadGrows(s, s', e.u);
    } else {
      RequestsLeft(s, e);
      assert false;
    }
  }

  // ---- over whole runs ----

  lemma AnyStep(es: seq<Event>, s: State, e: Event)
    requires AnyRun(es) == Some(s) && AnyInv(es, s) && Next(s, e).Some?
    ensures AnyInv(es + [e], Next(s, e).value)
  {
    var s' := Next(s, e).value;
    RowsStep(s, e);
    forall id | id in s'.multiparts ensures OpenOk(es + [e], s', id) { OpenStep(es, s, e, id); }
    forall u | u in s'.uploads ensures ObjectOk(es + [e], s', u) { ObjectStep(es, s, e, u); }
    forall k | k in s'.objects ensures KeyOfRow(s', k) { KeysStep(es, s, e, k); }
    forall r | r in s'.cleanups ensures ForUpload(s', r) { RequestsStep(es, s, e, r); }
  }

  lemma AnyInit()
    ensures AnyInv([], EmptyState)
  {
  }

  lemma AnyLast(es: seq<Event>)
    requires es != []
    ensures AnyRun(es) == Then(AnyRun(es[..|es| - 1]), es[|es| - 1])
  {
  }

  lemma FrontAndLast(es: seq<Event>)
    requires es != []
    ensures es[..|es| - 1] + [es[|es| - 1]] == es
  {
  }

  /** The run with its invariant.  Look(0) unfolds it. */
  ghost predicate AnyRunInv(es: seq<Event>) {
    forall k: nat {:trigger Look(k)} :: Look(k) ==> AnyRun(es).Some? && AnyInv(es, AnyRun(es).value)
  }

  lemma AnyNext(es: seq<Event>, e: Event)
    requires AnyRunInv(es) && AnyRun(es + [e]).Some?
    ensures AnyRunInv(es + [e])
  {
    assert Look(0);
    AnyLast(es + [e]);
    assert (es + [e])[..|es|] == es;
    AnyStep(es, AnyRun(es).value, e);
  }

  lemma {:induction false} AnyRunKeeps(es: seq<Event>)
    requires AnyRun(es).Some?
    ensures AnyRunInv(es)
  {
    if es == [] {
      AnyInit();
    } else {
      AnyLast(es);
      FrontAndLast(es);
      AnyRunKeeps(es[..|es| - 1]);
      AnyNext(es[..|es| - 1], es[|es| - 1]);
    }
  }

  /**
   Whatever clients write and when: an upload's object, if there is one, is one string per
   chunk, in index order, string i being what stood at chunk key i at a moment of the run at
   which it was copied as part i+1, all parts of one multipart upload.
   */
  lemma AbsentOrCopied(es: seq<Event>, u: string)
    requires AnyRun(es).Some? && HasObject(AnyRun(es).value, u)
    ensures var s := AnyRun(es).value; exists id, pieces ::
      |pieces| == s.uploads[u].total && Pieced(es, id, s.uploads[u].chunkPath, pieces) && Stored(s, u, Flatten(pieces))
  {
    AnyRunKeeps(es);
    assert Look(0);
    assert ObjectOk(es, AnyRun(es).value, u);
  }

  /** And only a merge of its own replaces it; nothing ever removes it. */
  lemma OnlyMergesReplace(es: seq<Event>, e: Event, u: string)
    requires AnyRun(es).Some? && Next(AnyRun(es).value, e).Some? && u in AnyRun(es).value.uploads
    requires !(e.CompleteParts? && AnyRun(es).value.multiparts[e.id].upload == u)
    ensures SameObject(AnyRun(es).value, Next(AnyRun(es).value, e).value, u)
  {
    AnyRunKeeps(es);
    assert Look(0);
    if StoreKey(AnyRun(es).value.uploads[u].storagePath).Some? { ObjectSpared(es, AnyRun(es).value, e, u); }
  }
}
