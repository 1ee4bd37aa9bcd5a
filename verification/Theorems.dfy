/** What holds in every reachable state of the upload protocol. */
module Theorems {
  import opened Basics
  import opened Keys
  import opened Destinations
  import opened Protocol
  import opened Invariant

  /** Every run, from the empty service, of any length and interleaving, keeps the invariant. */
  lemma {:induction false} RunKeeps(es: seq<Event>)
    requires Run(es).Some?
    ensures Inv(Run(es).value)
  {
    if es == [] {
      InitHolds();
    } else {
      var n := |es| - 1;
      RunKeeps(es[..n]);
      StepKeeps(Run(es[..n]).value, es[n]);
    }
  }

  /** Along a run, rows and history only grow. */
  lemma {:induction false} RunGrows(es: seq<Event>, n: nat)
    requires n <= |es| && Run(es).Some?
    ensures Run(es[..n]).Some? && Grows(Run(es[..n]).value, Run(es).value)
    decreases |es|
  {
    if n == |es| {
      assert es[..n] == es;
    } else {
      var k := |es| - 1;
      RunGrows(es[..k], n);
      assert es[..k][..n] == es[..n];
      RunKeeps(es[..k]);
      StepKeeps(Run(es[..k]).value, es[k]);
      GrowsTransitive(Run(es[..n]).value, Run(es[..k]).value, Run(es).value);
    }
  }

  // ---- byte conservation ----

  /** The once-completed body of chunk i of upload u is still at its key. */
  ghost predicate AtKey(s: State, u: string, i: nat) {
    && u in s.uploads && u in s.ids && i < |s.ids[u]| && s.ids[u][i] in s.body
    && ChunkKey(s.uploads[u].chunkPath, i) in s.objects
    && s.objects[ChunkKey(s.uploads[u].chunkPath, i)] == s.body[s.ids[u][i]]
  }

  /**
   No byte is lost: whatever merges, publishes, deletes and failures have happened, either
   every once-completed chunk body is still at its key, or the upload's object is the
   concatenation of all of them.
   */
  lemma BytesConserved(s: State, u: string)
    requires Reachable(s) && u in s.uploads
    ensures u in s.ids
    ensures || Assembled(s, u)
            || (forall i | 0 <= i < |s.ids[u]| && s.ids[u][i] in s.body :: AtKey(s, u, i))
  {
    var es :| Run(es) == Some(s);
    RunKeeps(es);
    assert UploadLaid(s, u);
    if u in s.merged {
      assert Assembled(s, u);
    } else {
      forall i | 0 <= i < |s.ids[u]| && s.ids[u][i] in s.body ensures AtKey(s, u, i) {
        assert ChunkLaid(s, s.ids[u][i]) && ChunkKept(s, s.ids[u][i]);
      }
    }
  }

  /** A cleanup is only ever requested once the merged object holds every body. */
  lemma CleanupImpliesAssembled(s: State, r: CleanupRequest)
    requires Reachable(s) && r in s.cleanups
    ensures exists u :: Assembled(s, u) && r == CleanupRequest(s.uploads[u].chunkPath, s.uploads[u].total)
  {
    var es :| Run(es) == Some(s);
    RunKeeps(es);
    assert Requested(s, r);
    var u :| u in s.merged && u in s.uploads && r == CleanupRequest(s.uploads[u].chunkPath, s.uploads[u].total);
    assert Assembled(s, u);
  }

  // ---- success means the right bytes ----

  /**
   Whenever an upload is Success, or some video row refers to it, its object is the
   concatenation, in index order, of the bytes its chunks held when first marked completed.
   */
  lemma SuccessMeansRightBytes(s: State, u: string)
    requires Reachable(s)
    requires (u in s.uploads && s.uploads[u].status == Success) || HasVideo(s, u)
    ensures Assembled(s, u) && UploadLaid(s, u)
  {
    var es :| Run(es) == Some(s);
    RunKeeps(es);
    if u in s.uploads { assert StatusOk(s, u); }
    assert u in s.merged;
    assert Assembled(s, u) && UploadLaid(s, u);
  }

  /** The object of an upload is never a prefix or a mixture: it is absent or complete. */
  lemma AbsentOrComplete(s: State, u: string)
    requires Reachable(s) && HasObject(s, u)
    ensures Assembled(s, u)
  {
    var es :| Run(es) == Some(s);
    RunKeeps(es);
    assert NotPartial(s, u);
    assert Assembled(s, u);
  }

  /** Once assembled, always assembled, with the same bytes, through re-merges and cleanups. */
  lemma AssembledForever(es: seq<Event>, n: nat, u: string)
    requires n <= |es| && Run(es).Some? && Run(es[..n]).Some? && Assembled(Run(es[..n]).value, u)
    ensures Assembled(Run(es).value, u)
    ensures var s, s' := Run(es[..n]).value, Run(es).value;
            && s'.uploads[u].storagePath == s.uploads[u].storagePath && s'.ids[u] == s.ids[u]
            && Stored(s', u, Concat(s.body, s.ids[u]))
  {
    var s, s' := Run(es[..n]).value, Run(es).value;
    RunGrows(es, n);
    RunKeeps(es);
    RunKeeps(es[..n]);
    assert NotPartial(s, u) && UploadGrows(s, s', u);
    assert Assembled(s', u);
    ConcatFrame(s.body, s'.body, s.ids[u]);
  }

  // ---- assembling the parts ----

  /**
   Every multipart upload that a run completes lists the parts 1..n in ascending order, one
   per chunk of its upload, within S3's bounds, and stores the concatenation of the chunk
   bodies in index order; no run completes a prefix.
   */
  lemma MultipartAssembly(s: State, id: string, list: seq<PartRef>)
    requires Reachable(s) && Enabled(s, CompleteParts(id, list))
    ensures var u, s' := s.multiparts[id].upload, Apply(s, CompleteParts(id, list));
      && u in s.uploads && 1 <= |list| == s.uploads[u].total <= MAX_CHUNKS
      && (forall k | 0 <= k < |list| :: list[k].number == k + 1)
      && u in s.ids && |s.ids[u]| == |list| && AllDone(s, u)
      && StoreKey(s.uploads[u].storagePath).Some?
      && s'.objects == s.objects[StoreKey(s.uploads[u].storagePath).value := Concat(s.body, s.ids[u])]
      && id !in s'.multiparts
  {
    var es :| Run(es) == Some(s);
    RunKeeps(es);
    var m := s.multiparts[id];
    assert PartsOf(s, m) && UploadLaid(s, m.upload);
    CompletedBytes(s, m, list);
  }

  /** Both states have the same object, or none, where the upload's merges put it. */
  ghost predicate SameObject(s: State, s': State, u: string)
    requires u in s.uploads
  {
    var k := StoreKey(s.uploads[u].storagePath);
    k.Some? ==> (k.value in s.objects <==> k.value in s'.objects) && (k.value in s.objects ==> s'.objects[k.value] == s.objects[k.value])
  }

  /** The object of an upload is written by completing one of its multipart uploads, and by nothing else. */
  lemma OnlyCompletionWrites(s: State, e: Event, u: string)
    requires Reachable(s) && Enabled(s, e) && u in s.uploads
    requires !(e.CompleteParts? && s.multiparts[e.id].upload == u)
    ensures SameObject(s, Apply(s, e), u)
  {
    var es :| Run(es) == Some(s);
    RunKeeps(es);
    if e.Put? || e.CompleteParts? || e.DeleteKey? {
      PathUntouched(s, e, u);
    } else {
      ObjectsUntouched(s, e);
    }
  }

  lemma ObjectsUntouched(s: State, e: Event)
    requires Enabled(s, e) && !e.Put? && !e.CompleteParts? && !e.DeleteKey?
    ensures Apply(s, e).objects == s.objects
  {
    if e.EnqueueMerge? || e.TakeMerge? || e.Initiate? || e.Abort? {
      ObjectsMerging(s, e);
    } else if e.FinishMerge? {
      ObjectsFinish(s, e.outcome);
    } else if e.CopyPart? {
      assert Apply(s, CopyPart(e.id, e.number, e.src, e.etag)).objects == s.objects;
    } else {
      ObjectsRows(s, e);
    }
  }

  lemma ObjectsMerging(s: State, e: Event)
    requires Enabled(s, e) && (e.EnqueueMerge? || e.TakeMerge? || e.Initiate? || e.Abort?)
    ensures Apply(s, e).objects == s.objects
  {
    match e
    case EnqueueMerge(u) =>
    case TakeMerge =>
    case Initiate(id, u, dest) =>
    case Abort(id) =>
  }

  lemma ObjectsFinish(s: State, outcome: Option<UploadStatus>)
    requires Enabled(s, FinishMerge(outcome))
    ensures Apply(s, FinishMerge(outcome)).objects == s.objects
  {
  }

  lemma ObjectsRows(s: State, e: Event)
    requires Enabled(s, e)
    requires || e.CreateUpload? || e.CheckSize? || e.EndCheck? || e.MarkCompleted? || e.SetChunkUploading? || e.CountedAll?
             || e.SetStatus? || e.CreateVideo? || e.SetVideo? || e.EnqueueCleanup?
    ensures Apply(s, e).objects == s.objects
  {
  }

  lemma PathUntouched(s: State, e: Event, u: string)
    requires Inv(s) && Enabled(s, e) && u in s.uploads
    requires e.Put? || (e.CompleteParts? && s.multiparts[e.id].upload != u) || e.DeleteKey?
    ensures SameObject(s, Apply(s, e), u)
  {
    match e {
      case Put(c, data) => ChunkNotStorage(s, c, u);
      case CompleteParts(id, list) =>
        var m := s.multiparts[id];
        assert PartsOf(s, m);
        if StoreKey(s.uploads[u].storagePath) == Some(m.dest) { StorageApart(s, m.upload, u); }
      case DeleteKey(path, index, removed, ok) =>
        var c := DeletedChunk(s, path, index);
        ChunkNotStorage(s, c, u);
    }
  }

  // ---- the client's part ----

  function AfterPut(s: State, c: string, data: Bytes): State
    requires c in s.chunks
  {
    s.(objects := s.objects[s.chunks[c].key := data])
  }

  /**
   What the code cannot enforce: a client that writes a chunk again after it was marked
   completed, and before its upload is assembled, keeps the chunk's body at its key exactly
   when it writes the same bytes.
   */
  lemma RewriteIff(s: State, u: string, i: nat, data: Bytes)
    requires Reachable(s) && u in s.uploads && u !in s.merged
    requires u in s.ids && i < |s.ids[u]| && s.ids[u][i] in s.body
    ensures AtKey(s, u, i) && s.ids[u][i] in s.chunks && !Assembled(s, u)
    ensures AtKey(AfterPut(s, s.ids[u][i], data), u, i) <==> data == s.body[s.ids[u][i]]
  {
    BytesConserved(s, u);
    var es :| Run(es) == Some(s);
    RunKeeps(es);
    assert UploadLaid(s, u) && ChunkLaid(s, s.ids[u][i]) && NotPartial(s, u);
    assert ChunkKept(s, s.ids[u][i]);
  }

  // ---- the gate ----

  /** The upload is queued for, or inside, a merge by the worker or by a publisher. */
  ghost predicate InMerge(s: State, u: string) {
    || u in s.mergeQueue
    || s.running == Some(u)
    || (exists id | id in s.multiparts :: s.multiparts[id].upload == u)
  }

  /** No upload gets past Uploading, or near a merge, before every index was completed. */
  lemma Gate(s: State, u: string)
    requires Reachable(s)
    requires (u in s.uploads && s.uploads[u].status in {Merging, Success, Failed}) || InMerge(s, u)
    ensures u in s.uploads && AllDone(s, u) && |s.ids[u]| == s.uploads[u].total
  {
    var es :| Run(es) == Some(s);
    RunKeeps(es);
    if u in s.uploads { assert StatusOk(s, u); }
    if id :| id in s.multiparts && s.multiparts[id].upload == u {
      assert PartsOf(s, s.multiparts[id]);
    }
    assert CountedOk(s, u) && UploadLaid(s, u);
  }

  // ---- layout and isolation ----

  /** Exactly one chunk row per index 0..n-1, at chunkPath followed by the index in decimal. */
  lemma OneRowPerIndex(s: State, u: string, i: nat)
    requires Reachable(s) && u in s.uploads && i < s.uploads[u].total
    ensures exists c | c in s.chunks ::
              && s.chunks[c].upload == u && s.chunks[c].index == i
              && s.chunks[c].key == ChunkKey(s.uploads[u].chunkPath, i)
              && forall d | d in s.chunks && s.chunks[d].upload == u && s.chunks[d].index == i :: d == c
  {
    var es :| Run(es) == Some(s);
    RunKeeps(es);
    assert UploadLaid(s, u);
    var c := s.ids[u][i];
    assert ChunkLaid(s, c);
    forall d | d in s.chunks && s.chunks[d].upload == u && s.chunks[d].index == i ensures d == c {
      assert ChunkLaid(s, d);
    }
  }

  lemma IndexInRange(s: State, c: string)
    requires Reachable(s) && c in s.chunks
    ensures s.chunks[c].upload in s.uploads && s.chunks[c].index < s.uploads[s.chunks[c].upload].total
  {
    var es :| Run(es) == Some(s);
    RunKeeps(es);
    assert ChunkLaid(s, c) && UploadLaid(s, s.chunks[c].upload);
  }

  /** Keys of different chunks differ, no chunk key is that of a merged object, and these differ. */
  lemma KeysNeverMeet(s: State, c: string, d: string, u: string, v: string)
    requires Reachable(s) && c in s.chunks && d in s.chunks && u in s.uploads && v in s.uploads
    ensures s.chunks[c].key == s.chunks[d].key ==> c == d
    ensures StoreKey(s.uploads[u].storagePath) != Some(s.chunks[c].key)
    ensures StoreKey(s.uploads[u].storagePath).Some? && StoreKey(s.uploads[u].storagePath) == StoreKey(s.uploads[v].storagePath) ==> u == v
  {
    var es :| Run(es) == Some(s);
    RunKeeps(es);
    if s.chunks[c].key == s.chunks[d].key { KeysApart(s, c, d); }
    ChunkNotStorage(s, c, u);
    if StoreKey(s.uploads[u].storagePath).Some? && StoreKey(s.uploads[u].storagePath) == StoreKey(s.uploads[v].storagePath) {
      StorageApart(s, u, v);
    }
  }

  /** The upload an event works for: the one merged, or the one whose chunk is deleted. */
  ghost predicate WorksFor(s: State, e: Event, u: string) {
    || (e.CompleteParts? && e.id in s.multiparts && s.multiparts[e.id].upload == u)
    || (e.DeleteKey? && u in s.uploads && s.uploads[u].chunkPath == e.path)
  }

  /** A key that belongs to upload u: its merged object or one of its chunks. */
  ghost predicate OwnKey(s: State, u: string, k: string) {
    || (u in s.uploads && StoreKey(s.uploads[u].storagePath) == Some(k))
    || (exists c | c in s.chunks :: s.chunks[c].upload == u && s.chunks[c].key == k)
  }

  /** Merging or deleting one upload never changes another's objects. */
  lemma Isolation(s: State, e: Event, u: string, v: string, k: string)
    requires Reachable(s) && Enabled(s, e) && (e.CompleteParts? || e.DeleteKey?)
    requires WorksFor(s, e, u) && OwnKey(s, v, k) && v != u
    ensures k in s.objects <==> k in Apply(s, e).objects
    ensures k in s.objects ==> Apply(s, e).objects[k] == s.objects[k]
  {
    var es :| Run(es) == Some(s);
    RunKeeps(es);
    if e.CompleteParts? {
      assert PartsOf(s, s.multiparts[e.id]);
      if v in s.uploads && StoreKey(s.uploads[v].storagePath) == Some(k) {
        if k == s.multiparts[e.id].dest { StorageApart(s, u, v); }
      } else {
        var c :| c in s.chunks && s.chunks[c].upload == v && s.chunks[c].key == k;
        ChunkNotStorage(s, c, u);
      }
    } else {
      DeleteIsolated(s, e.path, e.index, u, v, k);
    }
  }

  lemma DeleteIsolated(s: State, path: string, index: nat, u: string, v: string, k: string)
    requires Inv(s) && u in s.uploads && s.uploads[u].chunkPath == path && OwnKey(s, v, k) && v != u
    requires exists r | r in s.cleanups :: r.chunkPath == path && index < r.total
    ensures k != ChunkKey(path, index)
  {
    var c := DeletedChunk(s, path, index);
    if v in s.uploads && StoreKey(s.uploads[v].storagePath) == Some(k) {
      ChunkNotStorage(s, c, v);
    } else {
      var d :| d in s.chunks && s.chunks[d].upload == v && s.chunks[d].key == k;
      if k == ChunkKey(path, index) {
        assert ChunkLaid(s, d) && UploadLaid(s, v) && UploadLaid(s, u);
        ChunkKeysApart(path, u, index, s.uploads[v].chunkPath, v, s.chunks[d].index);
      }
    }
  }
}
