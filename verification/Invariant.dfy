/** What every event keeps. */
module Invariant {
  import opened Basics
  import opened Keys
  import opened Destinations
  import opened Protocol

  // ---- rows ----

  /** Exactly one chunk row per index: `ids` lists them in index order. */
  ghost predicate UploadLaid(s: State, u: string) {
    && u in s.uploads && u in s.ids && ValidUuid(u)
    && |s.ids[u]| == s.uploads[u].total && 1 <= s.uploads[u].total <= MAX_CHUNKS
    && UserId(s.uploads[u].user)
    && IsChunkPath(s.uploads[u].chunkPath, u)
    && IsStoragePath(s.uploads[u].storagePath, s.uploads[u].user, u, s.uploads[u].fileName)
    && (forall i | 0 <= i < |s.ids[u]| :: s.ids[u][i] in s.chunks && s.chunks[s.ids[u][i]].upload == u && s.chunks[s.ids[u][i]].index == i)
  }

  ghost predicate ChunkLaid(s: State, c: string) {
    && c in s.chunks
    && var row := s.chunks[c];
    && row.upload in s.uploads && row.upload in s.ids
    && row.index < |s.ids[row.upload]| && s.ids[row.upload][row.index] == c
    && row.key == ChunkKey(s.uploads[row.upload].chunkPath, row.index)
  }

  ghost predicate Layout(s: State) {
    && (forall u {:trigger UploadLaid(s, u)} | u in s.uploads :: UploadLaid(s, u))
    && (forall u | u in s.ids :: u in s.uploads)
    && (forall c {:trigger ChunkLaid(s, c)} | c in s.chunks :: ChunkLaid(s, c))
  }

  // ---- bytes ----

  /** Every chunk of the upload has once been completed. */
  ghost predicate AllDone(s: State, u: string) {
    && u in s.ids
    && (forall i | 0 <= i < |s.ids[u]| :: s.ids[u][i] in s.body)
  }

  /** The bodies of the first n chunks of the list, in index order. */
  ghost function Concat(body: map<string, Bytes>, cs: seq<string>): Bytes
    requires forall i | 0 <= i < |cs| :: cs[i] in body
  {
    if cs == [] then [] else Concat(body, cs[..|cs| - 1]) + body[cs[|cs| - 1]]
  }

  /** The object that the requests for the upload's StoragePath name holds exactly these bytes. */
  ghost predicate Stored(s: State, u: string, data: Bytes) {
    && u in s.uploads && StoreKey(s.uploads[u].storagePath).Some?
    && StoreKey(s.uploads[u].storagePath).value in s.objects
    && s.objects[StoreKey(s.uploads[u].storagePath).value] == data
  }

  /** The upload's object is the full concatenation of its chunk bodies. */
  ghost predicate Assembled(s: State, u: string) {
    u in s.uploads && AllDone(s, u) && Stored(s, u, Concat(s.body, s.ids[u]))
  }

  /** A completed chunk's key holds its body, or is free because the upload is assembled. */
  ghost predicate ChunkKept(s: State, c: string) {
    && c in s.body && c in s.chunks
    && (s.chunks[c].key in s.objects ==> s.objects[s.chunks[c].key] == s.body[c])
    && (s.chunks[c].key !in s.objects ==> s.chunks[c].upload in s.merged)
  }

  // ---- the clauses of the invariant ----

  ghost predicate CompletedDone(s: State, c: string) {
    c in s.chunks && (s.chunks[c].status.Completed? ==> c in s.body)
  }

  ghost predicate CountedOk(s: State, u: string) {
    u in s.uploads && AllDone(s, u)
  }

  ghost predicate DoneInv(s: State) {
    && (forall c {:trigger CompletedDone(s, c)} | c in s.chunks :: CompletedDone(s, c))
    && (forall u {:trigger CountedOk(s, u)} | u in s.counted :: CountedOk(s, u))
  }

  ghost predicate StatusOk(s: State, u: string) {
    && u in s.uploads
    && (s.uploads[u].status in {Merging, Success, Failed} ==> u in s.counted)
    && (s.uploads[u].status == Success ==> u in s.merged)
  }

  ghost predicate StatusInv(s: State) {
    && s.merged <= s.counted
    && (forall u {:trigger StatusOk(s, u)} | u in s.uploads :: StatusOk(s, u))
    && (forall v | v in s.videos :: s.videos[v].upload in s.merged)
    && (forall k | 0 <= k < |s.mergeQueue| :: s.mergeQueue[k] in s.counted)
    && (s.running.Some? ==> s.running.value in s.counted)
    && |s.mergeQueue| <= MERGE_QUEUE_SIZE
  }

  /** Every object belongs to a chunk row or to an upload row. */
  ghost predicate KeyOfRow(s: State, k: string) {
    (exists c | c in s.chunks :: s.chunks[c].key == k) || (exists u | u in s.uploads :: StoreKey(s.uploads[u].storagePath) == Some(k))
  }

  /** There is an object where the upload's merges put it. */
  ghost predicate HasObject(s: State, u: string) {
    u in s.uploads && StoreKey(s.uploads[u].storagePath).Some? && StoreKey(s.uploads[u].storagePath).value in s.objects
  }

  /** Nothing but a finished merge ever appears there. */
  ghost predicate NotPartial(s: State, u: string) {
    u in s.uploads && (HasObject(s, u) ==> u in s.merged)
  }

  ghost predicate StoreInv(s: State) {
    && (forall k {:trigger KeyOfRow(s, k)} | k in s.objects :: KeyOfRow(s, k))
    && (forall u {:trigger Assembled(s, u)} | u in s.merged :: Assembled(s, u))
    && (forall u {:trigger NotPartial(s, u)} | u in s.uploads :: NotPartial(s, u))
    && (forall c {:trigger ChunkKept(s, c)} | c in s.body :: ChunkKept(s, c))
  }

  /** The object a size check saw is still there, perhaps rewritten, until a mark fixes its bytes. */
  ghost predicate CheckKept(s: State, k: SizeCheck) {
    && k.chunk in s.chunks
    && (k.chunk !in s.body ==> s.chunks[k.chunk].key in s.objects)
  }

  ghost predicate CheckInv(s: State) {
    forall t {:trigger CheckKept(s, s.checks[t])} | t in s.checks :: CheckKept(s, s.checks[t])
  }

  /** The request was made for an assembled upload. */
  ghost predicate Requested(s: State, r: CleanupRequest) {
    exists u | u in s.merged :: u in s.uploads && r == CleanupRequest(s.uploads[u].chunkPath, s.uploads[u].total)
  }

  ghost predicate CleanupInv(s: State) {
    forall r {:trigger Requested(s, r)} | r in s.cleanups :: Requested(s, r)
  }

  ghost predicate PartsOf(s: State, m: Multipart) {
    && m.upload in s.uploads && m.upload in s.counted && m.upload in s.ids
    && StoreKey(s.uploads[m.upload].storagePath) == Some(m.dest)
    && (forall n | n in m.parts ::
          1 <= n <= |s.ids[m.upload]| && s.ids[m.upload][n - 1] in s.body && m.parts[n].data == s.body[s.ids[m.upload][n - 1]])
  }

  ghost predicate PartsInv(s: State) {
    forall id {:trigger PartsOf(s, s.multiparts[id])} | id in s.multiparts :: PartsOf(s, s.multiparts[id])
  }

  ghost predicate Inv(s: State) {
    Layout(s) && DoneInv(s) && StatusInv(s) && StoreInv(s) && CheckInv(s) && CleanupInv(s) && PartsInv(s)
  }

  // ---- keys ----

  lemma KeysApart(s: State, c: string, d: string)
    requires Layout(s) && c in s.chunks && d in s.chunks && s.chunks[c].key == s.chunks[d].key
    ensures c == d
  {
    assert ChunkLaid(s, c) && ChunkLaid(s, d);
    var a, b := s.chunks[c], s.chunks[d];
    assert UploadLaid(s, a.upload) && UploadLaid(s, b.upload);
    ChunkKeysApart(s.uploads[a.upload].chunkPath, a.upload, a.index, s.uploads[b.upload].chunkPath, b.upload, b.index);
  }

  lemma StorageApart(s: State, u: string, v: string)
    requires Layout(s) && u in s.uploads && v in s.uploads
    requires StoreKey(s.uploads[u].storagePath).Some? && StoreKey(s.uploads[u].storagePath) == StoreKey(s.uploads[v].storagePath)
    ensures u == v
  {
    assert UploadLaid(s, u) && UploadLaid(s, v);
    var a, b := s.uploads[u], s.uploads[v];
    StoreKeysApart(a.storagePath, a.user, u, a.fileName, b.storagePath, b.user, v, b.fileName);
  }

  lemma ChunkNotStorage(s: State, c: string, u: string)
    requires Layout(s) && c in s.chunks && u in s.uploads
    ensures StoreKey(s.uploads[u].storagePath) != Some(s.chunks[c].key)
  {
    assert ChunkLaid(s, c) && UploadLaid(s, u);
    var a, b := s.chunks[c], s.uploads[u];
    assert UploadLaid(s, a.upload);
    ChunkIsNoDestination(s.uploads[a.upload].chunkPath, a.upload, a.index, b.storagePath, b.user, u, b.fileName);
  }

  // ---- counting ----

  /** A list has at least as many entries as distinct elements. */
  lemma {:induction false} ElementsBound(cs: seq<string>)
    ensures |set c | c in cs| <= |cs|
  {
    if cs != [] {
      var n := |cs| - 1;
      ElementsBound(cs[..n]);
      assert (set c | c in cs) == (set c | c in cs[..n]) + {cs[n]};
    }
  }

  /** "Count of Completed rows equals TotalChunks" means every index is completed. */
  lemma CountMeansAll(s: State, u: string)
    requires Layout(s) && u in s.uploads && CountCompleted(s, u) == s.uploads[u].total
    ensures UploadLaid(s, u)
    ensures forall i | 0 <= i < |s.ids[u]| :: s.chunks[s.ids[u][i]].status.Completed?
  {
    assert UploadLaid(s, u);
    var done, all := CompletedChunks(s, u), set c | c in s.ids[u];
    forall c | c in done ensures c in all {
      assert ChunkLaid(s, c);
    }
    ElementsBound(s.ids[u]);
    SubsetSameSize(done, all);
    forall i | 0 <= i < |s.ids[u]| ensures s.chunks[s.ids[u][i]].status.Completed? {
      assert s.ids[u][i] in all;
    }
  }

  lemma SubsetSameSize<T>(a: set<T>, b: set<T>)
    requires a <= b && |a| >= |b|
    ensures a == b
  {
    assert b == a + (b - a);
    assert |b| == |a| + |b - a|;
  }

  // ---- concatenation ----

  lemma {:induction false} ConcatFrame(b: map<string, Bytes>, b': map<string, Bytes>, cs: seq<string>)
    requires forall i | 0 <= i < |cs| :: cs[i] in b
    requires forall c | c in b :: c in b' && b'[c] == b[c]
    ensures Concat(b', cs) == Concat(b, cs)
  {
    if cs != [] { ConcatFrame(b, b', cs[..|cs| - 1]); }
  }

  /** Parts 1..n copied from the chunks assemble to the concatenation of the bodies. */
  lemma {:induction false} AssembleIsConcat(parts: map<nat, PartData>, list: seq<PartRef>, body: map<string, Bytes>, cs: seq<string>)
    requires |list| == |cs|
    requires forall k | 0 <= k < |list| :: list[k].number == k + 1 && list[k].number in parts
    requires forall k | 0 <= k < |cs| :: cs[k] in body && parts[list[k].number].data == body[cs[k]]
    ensures Assemble(parts, list) == Concat(body, cs)
  {
    if list != [] {
      var n := |list| - 1;
      AssembleIsConcat(parts, list[..n], body, cs[..n]);
    }
  }

  lemma InitHolds()
    ensures Inv(EmptyState)
  {
  }

  // ---- what only grows ----

  ghost predicate UploadGrows(s: State, s': State, u: string) {
    && u in s.uploads && u in s'.uploads
    && s'.uploads[u] == s.uploads[u].(status := s'.uploads[u].status)
    && (u in s.ids ==> u in s'.ids && s'.ids[u] == s.ids[u])
  }

  ghost predicate ChunkGrows(s: State, s': State, c: string) {
    && c in s.chunks && c in s'.chunks
    && s'.chunks[c].upload == s.chunks[c].upload && s'.chunks[c].index == s.chunks[c].index && s'.chunks[c].key == s.chunks[c].key
  }

  ghost predicate VideoGrows(s: State, s': State, v: string) {
    v in s.videos && v in s'.videos && s'.videos[v].upload == s.videos[v].upload
  }

  /** Rows are never removed, their identity columns never change, and history only grows. */
  ghost predicate Grows(s: State, s': State) {
    && (forall u {:trigger UploadGrows(s, s', u)} | u in s.uploads :: UploadGrows(s, s', u))
    && (forall c {:trigger ChunkGrows(s, s', c)} | c in s.chunks :: ChunkGrows(s, s', c))
    && (forall v {:trigger VideoGrows(s, s', v)} | v in s.videos :: VideoGrows(s, s', v))
    && (forall c {:trigger s'.body[c]} {:trigger c in s'.body} | c in s.body :: c in s'.body && s'.body[c] == s.body[c])
    && s.counted <= s'.counted && s.merged <= s'.merged && s.cleanups <= s'.cleanups
  }

  lemma GrowsTransitive(a: State, b: State, c: State)
    requires Grows(a, b) && Grows(b, c)
    ensures Grows(a, c)
  {
    forall u | u in a.uploads ensures UploadGrows(a, c, u) {
      assert UploadGrows(a, b, u) && UploadGrows(b, c, u);
    }
    forall k | k in a.chunks ensures ChunkGrows(a, c, k) {
      assert ChunkGrows(a, b, k) && ChunkGrows(b, c, k);
    }
    forall v | v in a.videos ensures VideoGrows(a, c, v) {
      assert VideoGrows(a, b, v) && VideoGrows(b, c, v);
    }
  }

  lemma AllDoneGrows(s: State, s': State, u: string)
    requires Grows(s, s') && u in s.uploads && AllDone(s, u)
    ensures u in s'.uploads && AllDone(s', u) && s'.ids[u] == s.ids[u]
  {
    assert UploadGrows(s, s', u);
  }

  lemma AssembledGrows(s: State, s': State, u: string)
    requires Grows(s, s') && Assembled(s, u)
    requires var k := StoreKey(s.uploads[u].storagePath).value; k in s'.objects && s'.objects[k] == s.objects[k]
    ensures Assembled(s', u)
  {
    assert UploadGrows(s, s', u);
    AllDoneGrows(s, s', u);
    ConcatFrame(s.body, s'.body, s.ids[u]);
  }

  lemma PartsGrow(s: State, s': State, m: Multipart)
    requires Grows(s, s') && PartsOf(s, m)
    ensures PartsOf(s', m)
  {
    assert UploadGrows(s, s', m.upload);
  }

  lemma KeyOfRowGrows(s: State, s': State, k: string)
    requires KeyOfRow(s, k)
    requires forall u {:trigger UploadGrows(s, s', u)} | u in s.uploads :: UploadGrows(s, s', u)
    requires forall c {:trigger ChunkGrows(s, s', c)} | c in s.chunks :: ChunkGrows(s, s', c)
    ensures KeyOfRow(s', k)
  {
    if c :| c in s.chunks && s.chunks[c].key == k {
      assert ChunkGrows(s, s', c);
    } else {
      var u :| u in s.uploads && StoreKey(s.uploads[u].storagePath) == Some(k);
      assert UploadGrows(s, s', u);
    }
  }

  lemma RequestedGrows(s: State, s': State, r: CleanupRequest)
    requires Grows(s, s') && Requested(s, r)
    ensures Requested(s', r)
  {
    var u :| u in s.merged && u in s.uploads && r == CleanupRequest(s.uploads[u].chunkPath, s.uploads[u].total);
    assert UploadGrows(s, s', u);
    assert u in s'.merged && u in s'.uploads;
  }

  // ---- clauses an event does not touch ----

  /** The tables hold the same rows; only statuses, hashes and sizes may differ. */
  ghost predicate RowsKept(s: State, s': State) {
    && (forall u {:trigger UploadGrows(s, s', u)} | u in s.uploads :: UploadGrows(s, s', u))
    && (forall c {:trigger ChunkGrows(s, s', c)} | c in s.chunks :: ChunkGrows(s, s', c))
    && s'.uploads.Keys == s.uploads.Keys && s'.chunks.Keys == s.chunks.Keys && s'.ids == s.ids
  }

  ghost predicate SameRows(s: State, s': State) {
    Grows(s, s') && RowsKept(s, s')
  }

  lemma SameTables(s: State, s': State)
    requires s'.uploads == s.uploads && s'.chunks == s.chunks && s'.ids == s.ids && s'.videos == s.videos && s'.body == s.body
    requires s.counted <= s'.counted && s.merged <= s'.merged && s.cleanups <= s'.cleanups
    ensures SameRows(s, s')
  {
  }

  lemma UploadLaidFrame(s: State, s': State, u: string)
    requires RowsKept(s, s') && u in s.uploads && UploadLaid(s, u)
    ensures UploadLaid(s', u)
  {
    assert UploadGrows(s, s', u);
    forall i | 0 <= i < |s'.ids[u]|
      ensures s'.ids[u][i] in s'.chunks && s'.chunks[s'.ids[u][i]].upload == u && s'.chunks[s'.ids[u][i]].index == i
    {
      assert ChunkGrows(s, s', s.ids[u][i]);
    }
  }

  lemma LayoutFrame(s: State, s': State)
    requires Layout(s) && RowsKept(s, s')
    ensures Layout(s')
  {
    forall u | u in s'.uploads ensures UploadLaid(s', u) {
      assert UploadLaid(s, u);
      UploadLaidFrame(s, s', u);
    }
    forall c | c in s'.chunks ensures ChunkLaid(s', c) {
      assert ChunkLaid(s, c) && ChunkGrows(s, s', c);
      assert UploadGrows(s, s', s.chunks[c].upload);
    }
  }

  lemma DoneFrame(s: State, s': State)
    requires DoneInv(s) && Grows(s, s') && s'.chunks == s.chunks && s'.body == s.body && s'.counted == s.counted
    ensures DoneInv(s')
  {
    forall c | c in s'.chunks ensures CompletedDone(s', c) {
      assert CompletedDone(s, c);
    }
    CountedFrame(s, s');
  }

  lemma CountedFrame(s: State, s': State)
    requires DoneInv(s) && Grows(s, s') && s'.counted == s.counted
    ensures forall u {:trigger CountedOk(s', u)} | u in s'.counted :: CountedOk(s', u)
  {
    forall u | u in s'.counted ensures CountedOk(s', u) {
      assert CountedOk(s, u);
      AllDoneGrows(s, s', u);
    }
  }

  lemma StatusFrame(s: State, s': State)
    requires StatusInv(s) && Grows(s, s') && s'.merged <= s'.counted
    requires s'.uploads == s.uploads && s'.videos == s.videos && s'.mergeQueue == s.mergeQueue && s'.running == s.running
    ensures StatusInv(s')
  {
    forall u | u in s'.uploads ensures StatusOk(s', u) {
      assert StatusOk(s, u);
    }
  }

  lemma StoreFrame(s: State, s': State)
    requires StoreInv(s) && SameRows(s, s') && s'.objects == s.objects && s'.merged == s.merged && s'.body == s.body
    ensures StoreInv(s')
  {
    forall k | k in s'.objects ensures KeyOfRow(s', k) {
      assert KeyOfRow(s, k);
      KeyOfRowGrows(s, s', k);
    }
    forall u | u in s'.merged ensures Assembled(s', u) {
      assert Assembled(s, u);
      AssembledGrows(s, s', u);
    }
    forall u | u in s'.uploads ensures NotPartial(s', u) {
      assert NotPartial(s, u) && UploadGrows(s, s', u);
    }
    forall c | c in s'.body ensures ChunkKept(s', c) {
      assert ChunkKept(s, c) && ChunkGrows(s, s', c);
    }
  }

  lemma CheckFrame(s: State, s': State)
    requires CheckInv(s) && Grows(s, s') && s'.objects == s.objects && s'.body == s.body
    requires forall t | t in s'.checks :: t in s.checks && s'.checks[t] == s.checks[t]
    ensures CheckInv(s')
  {
    forall t | t in s'.checks ensures CheckKept(s', s'.checks[t]) {
      assert CheckKept(s, s.checks[t]) && ChunkGrows(s, s', s.checks[t].chunk);
    }
  }

  lemma CleanupFrame(s: State, s': State)
    requires CleanupInv(s) && Grows(s, s') && s'.cleanups == s.cleanups
    ensures CleanupInv(s')
  {
    forall r | r in s'.cleanups ensures Requested(s', r) {
      assert Requested(s, r);
      RequestedGrows(s, s', r);
    }
  }

  lemma PartsFrame(s: State, s': State)
    requires PartsInv(s) && Grows(s, s')
    requires forall id | id in s'.multiparts :: id in s.multiparts && s'.multiparts[id] == s.multiparts[id]
    ensures PartsInv(s')
  {
    forall id | id in s'.multiparts ensures PartsOf(s', s'.multiparts[id]) {
      assert PartsOf(s, s.multiparts[id]);
      PartsGrow(s, s', s.multiparts[id]);
    }
  }

  // ---- the events ----

  ghost predicate SameChunk(s: State, s': State, c: string) {
    c in s.chunks && c in s'.chunks && s'.chunks[c] == s.chunks[c]
  }

  /** What creating an upload does to the tables, without saying how the rows are inserted. */
  ghost predicate Created(s: State, u: string, row: UploadRow, cs: seq<string>, s': State) {
    && s' == s.(uploads := s.uploads[u := row], chunks := s'.chunks, ids := s.ids[u := cs])
    && (forall c {:trigger SameChunk(s, s', c)} | c in s.chunks :: SameChunk(s, s', c))
    && (forall i {:trigger cs[i]} | 0 <= i < |cs| :: cs[i] in s'.chunks && s'.chunks[cs[i]] == NewChunkRow(u, row, i))
    && (forall c {:trigger c in s.chunks} | c in s'.chunks :: c in s.chunks || c in cs)
  }

  lemma CreatedGrows(s: State, u: string, row: UploadRow, cs: seq<string>, s': State)
    requires Layout(s) && NewUpload(s, u, row, cs) && Created(s, u, row, cs, s')
    ensures Grows(s, s')
  {
    forall w | w in s.uploads ensures UploadGrows(s, s', w) {
    }
    forall c | c in s.chunks ensures ChunkGrows(s, s', c) {
      assert SameChunk(s, s', c);
    }
  }

  lemma CreatedUploadLaid(s: State, u: string, row: UploadRow, cs: seq<string>, s': State, w: string)
    requires Layout(s) && NewUpload(s, u, row, cs) && Created(s, u, row, cs, s') && w in s'.uploads
    ensures UploadLaid(s', w)
  {
    if w != u {
      assert UploadLaid(s, w);
      forall i | 0 <= i < |s'.ids[w]|
        ensures s'.ids[w][i] in s'.chunks && s'.chunks[s'.ids[w][i]].upload == w && s'.chunks[s'.ids[w][i]].index == i
      {
        assert SameChunk(s, s', s.ids[w][i]);
      }
    }
  }

  lemma CreatedChunkLaid(s: State, u: string, row: UploadRow, cs: seq<string>, s': State, c: string)
    requires Layout(s) && NewUpload(s, u, row, cs) && Created(s, u, row, cs, s') && c in s'.chunks
    ensures ChunkLaid(s', c)
  {
    if c in s.chunks {
      assert ChunkLaid(s, c) && SameChunk(s, s', c);
    } else {
      var i :| 0 <= i < |cs| && cs[i] == c;
      assert s'.chunks[c] == NewChunkRow(u, row, i);
    }
  }

  lemma CreatedLayout(s: State, u: string, row: UploadRow, cs: seq<string>, s': State)
    requires Layout(s) && NewUpload(s, u, row, cs) && Created(s, u, row, cs, s')
    ensures Layout(s')
  {
    forall w | w in s'.uploads ensures UploadLaid(s', w) {
      CreatedUploadLaid(s, u, row, cs, s', w);
    }
    forall c | c in s'.chunks ensures ChunkLaid(s', c) {
      CreatedChunkLaid(s, u, row, cs, s', c);
    }
  }

  lemma CreatedDone(s: State, u: string, row: UploadRow, cs: seq<string>, s': State)
    requires DoneInv(s) && NewUpload(s, u, row, cs) && Created(s, u, row, cs, s') && Grows(s, s')
    ensures DoneInv(s')
  {
    forall c | c in s'.chunks ensures CompletedDone(s', c) {
      if c in s.chunks {
        assert CompletedDone(s, c) && SameChunk(s, s', c);
      } else {
        var i :| 0 <= i < |cs| && cs[i] == c;
        assert s'.chunks[c] == NewChunkRow(u, row, i);
      }
    }
    CountedFrame(s, s');
  }

  /** A fresh upload's merged object does not exist yet. */
  lemma FreshPathFree(s: State, s': State, u: string)
    requires (forall k {:trigger KeyOfRow(s, k)} | k in s.objects :: KeyOfRow(s, k)) && Layout(s') && Grows(s, s') && u in s'.uploads && u !in s.uploads
    ensures StoreKey(s'.uploads[u].storagePath).Some? ==> StoreKey(s'.uploads[u].storagePath).value !in s.objects
  {
    if StoreKey(s'.uploads[u].storagePath).Some? && StoreKey(s'.uploads[u].storagePath).value in s.objects {
      var p := StoreKey(s'.uploads[u].storagePath).value;
      assert KeyOfRow(s, p);
      if c :| c in s.chunks && s.chunks[c].key == p {
        assert ChunkGrows(s, s', c);
        ChunkNotStorage(s', c, u);
      } else {
        var v :| v in s.uploads && StoreKey(s.uploads[v].storagePath) == Some(p);
        assert UploadGrows(s, s', v);
        StorageApart(s', u, v);
      }
    }
  }

  lemma CreatedStore(s: State, u: string, row: UploadRow, cs: seq<string>, s': State)
    requires Layout(s') && StoreInv(s) && NewUpload(s, u, row, cs) && Created(s, u, row, cs, s') && Grows(s, s')
    ensures StoreInv(s')
  {
    forall k | k in s'.objects ensures KeyOfRow(s', k) {
      assert KeyOfRow(s, k);
      KeyOfRowGrows(s, s', k);
    }
    forall w | w in s'.merged ensures Assembled(s', w) {
      assert Assembled(s, w) && UploadGrows(s, s', w);
      AssembledGrows(s, s', w);
    }
    FreshPathFree(s, s', u);
    forall w | w in s'.uploads ensures NotPartial(s', w) {
      if w != u { assert NotPartial(s, w); }
    }
    forall c | c in s'.body ensures ChunkKept(s', c) {
      assert ChunkKept(s, c) && ChunkGrows(s, s', c);
    }
  }

  lemma CreatedKeeps(s: State, u: string, row: UploadRow, cs: seq<string>, s': State)
    requires Inv(s) && NewUpload(s, u, row, cs) && Created(s, u, row, cs, s')
    ensures Inv(s') && Grows(s, s')
  {
    CreatedGrows(s, u, row, cs, s');
    CreatedLayout(s, u, row, cs, s');
    CreatedDone(s, u, row, cs, s');
    forall w | w in s'.uploads ensures StatusOk(s', w) {
      if w != u { assert StatusOk(s, w); }
    }
    CreatedStore(s, u, row, cs, s');
    CheckFrame(s, s');
    CleanupFrame(s, s');
    PartsFrame(s, s');
  }

  lemma CreateKeeps(s: State, u: string, row: UploadRow, cs: seq<string>)
    requires Inv(s) && NewUpload(s, u, row, cs)
    ensures Inv(WithUpload(s, u, row, cs)) && Grows(s, WithUpload(s, u, row, cs))
  {
    var s' := WithUpload(s, u, row, cs);
    assert Created(s, u, row, cs, s');
    CreatedKeeps(s, u, row, cs, s');
  }

  /** A client's write: only the written chunk's key changes, and not to other bytes once it is completed. */
  lemma PutKeeps(s: State, c: string, data: Bytes)
    requires Inv(s) && Enabled(s, Put(c, data))
    ensures Inv(Apply(s, Put(c, data))) && Grows(s, Apply(s, Put(c, data)))
  {
    var s' := s.(objects := s.objects[s.chunks[c].key := data]);
    LayoutFrame(s, s');
    DoneFrame(s, s');
    StatusFrame(s, s');
    PutStore(s, c, data, s');
    PutCheck(s, c, data, s');
    CleanupFrame(s, s');
    PartsFrame(s, s');
  }

  lemma PutStore(s: State, c: string, data: Bytes, s': State)
    requires Layout(s) && StoreInv(s) && ClientMayPut(s, c, data)
    requires s' == s.(objects := s.objects[s.chunks[c].key := data]) && SameRows(s, s')
    ensures StoreInv(s')
  {
    forall k | k in s'.objects ensures KeyOfRow(s', k) {
      if k in s.objects { assert KeyOfRow(s, k); KeyOfRowGrows(s, s', k); } else { assert s'.chunks[c].key == k; }
    }
    forall u | u in s'.merged ensures Assembled(s', u) {
      assert Assembled(s, u);
      ChunkNotStorage(s, c, u);
      AssembledGrows(s, s', u);
    }
    forall u | u in s'.uploads ensures NotPartial(s', u) {
      assert NotPartial(s, u);
      ChunkNotStorage(s, c, u);
    }
    forall d | d in s'.body ensures ChunkKept(s', d) {
      assert ChunkKept(s, d);
      if s.chunks[d].key == s.chunks[c].key { KeysApart(s, c, d); }
    }
  }

  lemma PutCheck(s: State, c: string, data: Bytes, s': State)
    requires Layout(s) && CheckInv(s) && ClientMayPut(s, c, data)
    requires s' == s.(objects := s.objects[s.chunks[c].key := data])
    ensures CheckInv(s')
  {
    forall t | t in s'.checks ensures CheckKept(s', s'.checks[t]) {
      assert CheckKept(s, s.checks[t]);
      var d := s.checks[t].chunk;
      if s.chunks[d].key == s.chunks[c].key { KeysApart(s, c, d); }
    }
  }

  lemma CheckSizeKeeps(s: State, t: string, c: string)
    requires Inv(s) && Enabled(s, CheckSize(t, c))
    ensures Inv(Apply(s, CheckSize(t, c))) && Grows(s, Apply(s, CheckSize(t, c)))
  {
    var k := SizeCheck(c, |s.objects[s.chunks[c].key]|);
    var s' := s.(checks := s.checks[t := k]);
    SameTables(s, s');
    LayoutFrame(s, s');
    DoneFrame(s, s');
    StatusFrame(s, s');
    StoreFrame(s, s');
    CheckedKept(s, t, c, s');
    CleanupFrame(s, s');
    PartsFrame(s, s');
  }

  lemma CheckedKept(s: State, t: string, c: string, s': State)
    requires StoreInv(s) && CheckInv(s) && c in s.chunks && s.chunks[c].key in s.objects
    requires s' == s.(checks := s.checks[t := SizeCheck(c, |s.objects[s.chunks[c].key]|)])
    ensures CheckInv(s')
  {
    forall r | r in s'.checks ensures CheckKept(s', s'.checks[r]) {
      if r != t { assert CheckKept(s, s.checks[r]); }
    }
  }

  lemma EndCheckKeeps(s: State, t: string)
    requires Inv(s)
    ensures Inv(Apply(s, EndCheck(t))) && Grows(s, Apply(s, EndCheck(t)))
  {
    var s' := s.(checks := s.checks - {t});
    SameTables(s, s');
    LayoutFrame(s, s');
    DoneFrame(s, s');
    StatusFrame(s, s');
    StoreFrame(s, s');
    CheckFrame(s, s');
    CleanupFrame(s, s');
    PartsFrame(s, s');
  }

  /** MarkCompleted: the first one fixes the chunk's body; the key holds exactly those bytes. */
  lemma MarkKeeps(s: State, t: string, hash: string, size: nat)
    requires Inv(s) && Enabled(s, MarkCompleted(t, hash, size))
    ensures Inv(Apply(s, MarkCompleted(t, hash, size))) && Grows(s, Apply(s, MarkCompleted(t, hash, size)))
  {
    var k := s.checks[t];
    var s' := WithCompleted(s, k.chunk, hash, size);
    assert CheckKept(s, k);
    LayoutFrame(s, s');
    MarkDone(s, k, hash, size, s');
    StatusFrame(s, s');
    MarkStore(s, k, hash, size, s');
    MarkChecks(s, k, hash, size, s');
    CleanupFrame(s, s');
    PartsFrame(s, s');
  }

  lemma MarkChecks(s: State, k: SizeCheck, hash: string, size: nat, s': State)
    requires CheckInv(s) && CheckKept(s, k) && s' == WithCompleted(s, k.chunk, hash, size)
    ensures CheckInv(s')
  {
    forall r | r in s'.checks ensures CheckKept(s', s'.checks[r]) {
      assert CheckKept(s, s.checks[r]);
    }
  }

  lemma MarkDone(s: State, k: SizeCheck, hash: string, size: nat, s': State)
    requires DoneInv(s) && CheckKept(s, k) && s' == WithCompleted(s, k.chunk, hash, size) && Grows(s, s')
    ensures DoneInv(s')
  {
    forall c | c in s'.chunks ensures CompletedDone(s', c) {
      assert CompletedDone(s, c);
    }
    CountedFrame(s, s');
  }

  lemma MarkStore(s: State, k: SizeCheck, hash: string, size: nat, s': State)
    requires StoreInv(s) && CheckKept(s, k) && s' == WithCompleted(s, k.chunk, hash, size) && Grows(s, s')
    ensures StoreInv(s')
  {
    forall p | p in s'.objects ensures KeyOfRow(s', p) {
      assert KeyOfRow(s, p);
      KeyOfRowGrows(s, s', p);
    }
    forall u | u in s'.merged ensures Assembled(s', u) {
      assert Assembled(s, u) && UploadGrows(s, s', u);
      AssembledGrows(s, s', u);
    }
    forall u | u in s'.uploads ensures NotPartial(s', u) {
      assert NotPartial(s, u);
    }
    forall c | c in s'.body ensures ChunkKept(s', c) {
      if c in s.body { assert ChunkKept(s, c); }
    }
  }

  lemma SetChunkUploadingDone(s: State, c: string, s': State)
    requires DoneInv(s) && c in s.chunks && s' == s.(chunks := s.chunks[c := s.chunks[c].(status := ChunkUploading)]) && Grows(s, s')
    ensures DoneInv(s')
  {
    forall d | d in s'.chunks ensures CompletedDone(s', d) {
      assert CompletedDone(s, d);
    }
    CountedFrame(s, s');
  }

  lemma SetChunkUploadingKeeps(s: State, c: string)
    requires Inv(s) && c in s.chunks
    ensures Inv(Apply(s, SetChunkUploading(c))) && Grows(s, Apply(s, SetChunkUploading(c)))
  {
    var s' := s.(chunks := s.chunks[c := s.chunks[c].(status := ChunkUploading)]);
    LayoutFrame(s, s');
    SetChunkUploadingDone(s, c, s');
    StatusFrame(s, s');
    StoreFrame(s, s');
    CheckFrame(s, s');
    CleanupFrame(s, s');
    PartsFrame(s, s');
  }

  lemma CountedAllDone(s: State, u: string, s': State)
    requires Layout(s) && DoneInv(s) && Enabled(s, CountedAll(u)) && s' == s.(counted := s.counted + {u})
    ensures DoneInv(s')
  {
    forall c | c in s'.chunks ensures CompletedDone(s', c) {
      assert CompletedDone(s, c);
    }
    CountMeansAll(s, u);
    forall w | w in s'.counted ensures CountedOk(s', w) {
      if w == u {
        forall i | 0 <= i < |s.ids[u]| ensures s.ids[u][i] in s.body {
          assert CompletedDone(s, s.ids[u][i]);
        }
      } else {
        assert CountedOk(s, w);
      }
    }
  }

  /** A count equal to TotalChunks shows that every index has been completed. */
  lemma CountedAllKeeps(s: State, u: string)
    requires Inv(s) && Enabled(s, CountedAll(u))
    ensures Inv(Apply(s, CountedAll(u))) && Grows(s, Apply(s, CountedAll(u)))
  {
    var s' := s.(counted := s.counted + {u});
    LayoutFrame(s, s');
    CountedAllDone(s, u, s');
    StatusFrame(s, s');
    StoreFrame(s, s');
    CheckFrame(s, s');
    CleanupFrame(s, s');
    PartsFrame(s, s');
  }

  lemma WithStatusKeeps(s: State, u: string, status: UploadStatus)
    requires Inv(s) && u in s.uploads
    requires status in {Merging, Success, Failed} ==> u in s.counted
    requires status == Success ==> u in s.merged
    ensures Inv(WithStatus(s, u, status)) && Grows(s, WithStatus(s, u, status))
  {
    var s' := WithStatus(s, u, status);
    LayoutFrame(s, s');
    DoneFrame(s, s');
    forall w | w in s'.uploads ensures StatusOk(s', w) {
      assert StatusOk(s, w);
    }
    StoreFrame(s, s');
    CheckFrame(s, s');
    CleanupFrame(s, s');
    PartsFrame(s, s');
  }

  lemma SetStatusKeeps(s: State, u: string, status: UploadStatus)
    requires Inv(s) && Enabled(s, SetStatus(u, status))
    ensures Inv(Apply(s, SetStatus(u, status))) && Grows(s, Apply(s, SetStatus(u, status)))
  {
    WithStatusKeeps(s, u, status);
  }

  /** Queue and worker bookkeeping. */
  lemma QueueKeeps(s: State, queue: seq<string>, running: Option<string>)
    requires Inv(s) && |queue| <= MERGE_QUEUE_SIZE
    requires forall k | 0 <= k < |queue| :: queue[k] in s.counted
    requires running.Some? ==> running.value in s.counted
    ensures Inv(s.(mergeQueue := queue, running := running)) && Grows(s, s.(mergeQueue := queue, running := running))
  {
    var s' := s.(mergeQueue := queue, running := running);
    LayoutFrame(s, s');
    DoneFrame(s, s');
    forall w | w in s'.uploads ensures StatusOk(s', w) {
      assert StatusOk(s, w);
    }
    StoreFrame(s, s');
    CheckFrame(s, s');
    CleanupFrame(s, s');
    PartsFrame(s, s');
  }

  lemma FinishMergeKeeps(s: State, outcome: Option<UploadStatus>)
    requires Inv(s) && Enabled(s, FinishMerge(outcome))
    ensures Inv(Apply(s, FinishMerge(outcome))) && Grows(s, Apply(s, FinishMerge(outcome)))
  {
    QueueKeeps(s, s.mergeQueue, None);
    var s1 := s.(mergeQueue := s.mergeQueue, running := None);
    if outcome.Some? {
      WithStatusKeeps(s1, s.running.value, outcome.value);
      GrowsTransitive(s, s1, WithStatus(s1, s.running.value, outcome.value));
    }
  }

  // ---- merging ----

  /** Events on open multipart uploads touch nothing else. */
  lemma MultipartKeeps(s: State, multiparts: map<string, Multipart>)
    requires Inv(s)
    requires forall id {:trigger multiparts[id]} | id in multiparts :: PartsOf(s, multiparts[id])
    ensures Inv(s.(multiparts := multiparts)) && Grows(s, s.(multiparts := multiparts))
  {
    var s' := s.(multiparts := multiparts);
    LayoutFrame(s, s');
    DoneFrame(s, s');
    StatusFrame(s, s');
    StoreFrame(s, s');
    CheckFrame(s, s');
    CleanupFrame(s, s');
    forall id | id in s'.multiparts ensures PartsOf(s', s'.multiparts[id]) {
      PartsGrow(s, s', multiparts[id]);
    }
  }

  lemma InitiateKeeps(s: State, id: string, u: string, dest: string)
    requires Inv(s) && Enabled(s, Initiate(id, u, dest))
    ensures Inv(Apply(s, Initiate(id, u, dest))) && Grows(s, Apply(s, Initiate(id, u, dest)))
  {
    var multiparts := s.multiparts[id := Multipart(dest, u, map[])];
    assert UploadLaid(s, u);
    forall k | k in multiparts ensures PartsOf(s, multiparts[k]) {
      if k != id { assert PartsOf(s, s.multiparts[k]); }
    }
    MultipartKeeps(s, multiparts);
  }

  /** A copied part holds the body of the chunk with the matching index. */
  lemma CopiedPart(s: State, id: string, number: nat, src: string, etag: string)
    requires Inv(s) && Enabled(s, CopyPart(id, number, src, etag))
    ensures PartsOf(s, Apply(s, CopyPart(id, number, src, etag)).multiparts[id])
  {
    var m := s.multiparts[id];
    assert PartsOf(s, m) && UploadLaid(s, m.upload) && CountedOk(s, m.upload);
    var c := s.ids[m.upload][number - 1];
    assert ChunkLaid(s, c) && ChunkKept(s, c);
  }

  lemma CopyPartKeeps(s: State, id: string, number: nat, src: string, etag: string)
    requires Inv(s) && Enabled(s, CopyPart(id, number, src, etag))
    ensures Inv(Apply(s, CopyPart(id, number, src, etag))) && Grows(s, Apply(s, CopyPart(id, number, src, etag)))
  {
    var multiparts := Apply(s, CopyPart(id, number, src, etag)).multiparts;
    forall k | k in multiparts ensures PartsOf(s, multiparts[k]) {
      if k != id { assert PartsOf(s, s.multiparts[k]); } else { CopiedPart(s, id, number, src, etag); }
    }
    MultipartKeeps(s, multiparts);
  }

  lemma AbortKeeps(s: State, id: string)
    requires Inv(s)
    ensures Inv(Apply(s, Abort(id))) && Grows(s, Apply(s, Abort(id)))
  {
    var multiparts := s.multiparts - {id};
    forall k | k in multiparts ensures PartsOf(s, multiparts[k]) {
      assert PartsOf(s, s.multiparts[k]);
    }
    MultipartKeeps(s, multiparts);
  }

  /** What CompleteMultipartUpload stores is the full concatenation, never a prefix. */
  lemma CompletedBytes(s: State, m: Multipart, list: seq<PartRef>)
    requires Layout(s) && DoneInv(s) && PartsOf(s, m) && S3Accepts(m, list)
    requires |list| == s.uploads[m.upload].total && forall k | 0 <= k < |list| :: list[k].number == k + 1
    ensures AllDone(s, m.upload) && Assemble(m.parts, list) == Concat(s.body, s.ids[m.upload])
  {
    assert UploadLaid(s, m.upload) && CountedOk(s, m.upload);
    PartBytes(m.parts, list, s.body, s.ids[m.upload]);
  }

  lemma PartBytes(parts: map<nat, PartData>, list: seq<PartRef>, body: map<string, Bytes>, cs: seq<string>)
    requires |list| == |cs| && (forall k | 0 <= k < |list| :: list[k].number == k + 1 && list[k].number in parts)
    requires forall i | 0 <= i < |cs| :: cs[i] in body
    requires forall n | n in parts :: 1 <= n <= |cs| && parts[n].data == body[cs[n - 1]]
    ensures Assemble(parts, list) == Concat(body, cs)
  {
    forall k | 0 <= k < |cs| ensures parts[list[k].number].data == body[cs[k]] {
      assert list[k].number == k + 1;
    }
    AssembleIsConcat(parts, list, body, cs);
  }

  /** The state once the concatenation stands at k. */
  ghost function WithMerged(s: State, u: string, k: string): State
    requires u in s.uploads && AllDone(s, u)
  {
    s.(objects := s.objects[k := Concat(s.body, s.ids[u])], merged := s.merged + {u})
  }

  lemma WithMergedKeeps(s: State, u: string, k: string)
    requires Inv(s) && u in s.counted && u in s.uploads && AllDone(s, u) && StoreKey(s.uploads[u].storagePath) == Some(k)
    ensures Inv(WithMerged(s, u, k)) && Grows(s, WithMerged(s, u, k))
  {
    var s' := WithMerged(s, u, k);
    LayoutFrame(s, s');
    DoneFrame(s, s');
    CompleteStatus(s, u, s');
    CompleteStore(s, u, k, s');
    CompleteChecks(s, u, k, s');
    CleanupFrame(s, s');
    PartsFrame(s, s');
  }

  lemma CompleteKeeps(s: State, id: string, list: seq<PartRef>)
    requires Inv(s) && Enabled(s, CompleteParts(id, list))
    ensures Inv(Apply(s, CompleteParts(id, list))) && Grows(s, Apply(s, CompleteParts(id, list)))
  {
    var u, k := s.multiparts[id].upload, s.multiparts[id].dest;
    assert PartsOf(s, s.multiparts[id]);
    CompletedBytes(s, s.multiparts[id], list);
    WithMergedKeeps(s, u, k);
    AbortKeeps(WithMerged(s, u, k), id);
    assert Apply(s, CompleteParts(id, list)) == Apply(WithMerged(s, u, k), Abort(id));
    GrowsTransitive(s, WithMerged(s, u, k), Apply(s, CompleteParts(id, list)));
  }

  lemma CompleteStatus(s: State, u: string, s': State)
    requires StatusInv(s) && u in s.counted && s' == s.(objects := s'.objects, merged := s.merged + {u})
    ensures StatusInv(s')
  {
    forall w | w in s'.uploads ensures StatusOk(s', w) {
      assert StatusOk(s, w);
    }
  }

  lemma CompleteStore(s: State, u: string, key: string, s': State)
    requires Layout(s) && StoreInv(s) && u in s.uploads && AllDone(s, u) && StoreKey(s.uploads[u].storagePath) == Some(key)
    requires s' == s.(objects := s.objects[key := Concat(s.body, s.ids[u])], merged := s.merged + {u})
    requires SameRows(s, s')
    ensures StoreInv(s')
  {
    forall k | k in s'.objects ensures KeyOfRow(s', k) {
      if k in s.objects { assert KeyOfRow(s, k); KeyOfRowGrows(s, s', k); }
    }
    forall w | w in s'.merged ensures Assembled(s', w) {
      if w == u {
        assert Assembled(s', u);
      } else {
        assert Assembled(s, w);
        if StoreKey(s.uploads[w].storagePath) == Some(key) { StorageApart(s, w, u); }
        AssembledGrows(s, s', w);
      }
    }
    forall w | w in s'.uploads ensures NotPartial(s', w) {
      assert NotPartial(s, w);
      if StoreKey(s.uploads[w].storagePath) == Some(key) { StorageApart(s, w, u); }
    }
    forall c | c in s'.body ensures ChunkKept(s', c) {
      assert ChunkKept(s, c);
      ChunkNotStorage(s, c, u);
    }
  }

  lemma CompleteChecks(s: State, u: string, key: string, s': State)
    requires Layout(s) && CheckInv(s) && u in s.uploads && s'.chunks == s.chunks && s'.checks == s.checks && s'.body == s.body
    requires StoreKey(s.uploads[u].storagePath) == Some(key)
    requires forall k | k in s.objects && k != key :: k in s'.objects && s'.objects[k] == s.objects[k]
    ensures CheckInv(s')
  {
    forall t | t in s'.checks ensures CheckKept(s', s'.checks[t]) {
      assert CheckKept(s, s.checks[t]);
      ChunkNotStorage(s, s.checks[t].chunk, u);
    }
  }

  // ---- publishing and cleaning ----

  lemma VideosKeep(s: State, videos: map<string, VideoRow>)
    requires Inv(s)
    requires forall v | v in s.videos :: v in videos && videos[v].upload == s.videos[v].upload
    requires forall v | v in videos :: videos[v].upload in s.merged
    ensures Inv(s.(videos := videos)) && Grows(s, s.(videos := videos))
  {
    var s' := s.(videos := videos);
    LayoutFrame(s, s');
    DoneFrame(s, s');
    forall w | w in s'.uploads ensures StatusOk(s', w) {
      assert StatusOk(s, w);
    }
    StoreFrame(s, s');
    CheckFrame(s, s');
    CleanupFrame(s, s');
    PartsFrame(s, s');
  }

  lemma EnqueueCleanupKeeps(s: State, u: string)
    requires Inv(s) && Enabled(s, EnqueueCleanup(u))
    ensures Inv(Apply(s, EnqueueCleanup(u))) && Grows(s, Apply(s, EnqueueCleanup(u)))
  {
    var s' := s.(cleanups := s.cleanups + {CleanupRequest(s.uploads[u].chunkPath, s.uploads[u].total)});
    SameTables(s, s');
    LayoutFrame(s, s');
    DoneFrame(s, s');
    StatusFrame(s, s');
    StoreFrame(s, s');
    CheckFrame(s, s');
    RequestsKept(s, u, s');
    PartsFrame(s, s');
  }

  lemma RequestsKept(s: State, u: string, s': State)
    requires CleanupInv(s) && u in s.uploads && u in s.merged
    requires s' == s.(cleanups := s.cleanups + {CleanupRequest(s.uploads[u].chunkPath, s.uploads[u].total)})
    ensures CleanupInv(s')
  {
    forall r | r in s'.cleanups ensures Requested(s', r) {
      if r in s.cleanups {
        assert Requested(s, r);
      } else {
        assert u in s'.merged && u in s'.uploads;
      }
    }
  }

  /** The key a cleanup deletes is a chunk of an upload that is already assembled. */
  lemma DeletedChunk(s: State, path: string, index: nat) returns (c: string)
    requires Inv(s) && exists r | r in s.cleanups :: r.chunkPath == path && index < r.total
    ensures c in s.chunks && s.chunks[c].key == ChunkKey(path, index) && s.chunks[c].upload in s.merged && c in s.body
  {
    var r :| r in s.cleanups && r.chunkPath == path && index < r.total;
    assert Requested(s, r);
    var u :| u in s.merged && u in s.uploads && r == CleanupRequest(s.uploads[u].chunkPath, s.uploads[u].total);
    assert UploadLaid(s, u) && CountedOk(s, u);
    c := s.ids[u][index];
    assert ChunkLaid(s, c);
  }

  lemma DeleteKeeps(s: State, path: string, index: nat, removed: bool, ok: bool)
    requires Inv(s) && Enabled(s, DeleteKey(path, index, removed, ok))
    ensures Inv(Apply(s, DeleteKey(path, index, removed, ok))) && Grows(s, Apply(s, DeleteKey(path, index, removed, ok)))
  {
    if removed {
      var c := DeletedChunk(s, path, index);
      var s' := s.(objects := s.objects - {s.chunks[c].key});
      LayoutFrame(s, s');
      DoneFrame(s, s');
      StatusFrame(s, s');
      DeleteStore(s, c, s');
      DeleteChecks(s, c, s');
      CleanupFrame(s, s');
      PartsFrame(s, s');
    }
  }

  lemma DeleteStore(s: State, c: string, s': State)
    requires Layout(s) && StoreInv(s) && c in s.body && c in s.chunks && s.chunks[c].upload in s.merged
    requires s' == s.(objects := s.objects - {s.chunks[c].key}) && SameRows(s, s')
    ensures StoreInv(s')
  {
    forall k | k in s'.objects ensures KeyOfRow(s', k) {
      assert KeyOfRow(s, k);
      KeyOfRowGrows(s, s', k);
    }
    forall u | u in s'.merged ensures Assembled(s', u) {
      assert Assembled(s, u);
      ChunkNotStorage(s, c, u);
      AssembledGrows(s, s', u);
    }
    forall u | u in s'.uploads ensures NotPartial(s', u) {
      assert NotPartial(s, u);
    }
    forall d | d in s'.body ensures ChunkKept(s', d) {
      assert ChunkKept(s, d);
      if s.chunks[d].key == s.chunks[c].key { KeysApart(s, c, d); }
    }
  }

  lemma DeleteChecks(s: State, c: string, s': State)
    requires Layout(s) && CheckInv(s) && c in s.body && c in s.chunks
    requires s' == s.(objects := s.objects - {s.chunks[c].key})
    ensures CheckInv(s')
  {
    forall t | t in s'.checks ensures CheckKept(s', s'.checks[t]) {
      assert CheckKept(s, s.checks[t]);
      var d := s.checks[t].chunk;
      if s.chunks[d].key == s.chunks[c].key { KeysApart(s, c, d); }
    }
  }

  // ---- all of them ----

  lemma RowStepKeeps(s: State, e: Event)
    requires Inv(s) && Enabled(s, e)
    requires e.CreateUpload? || e.Put? || e.CheckSize? || e.EndCheck? || e.MarkCompleted? || e.SetChunkUploading? || e.CountedAll? || e.SetStatus?
    ensures Inv(Apply(s, e)) && Grows(s, Apply(s, e))
  {
    match e
    case CreateUpload(u, row, cs) => CreateKeeps(s, u, row, cs);
    case Put(c, data) => PutKeeps(s, c, data);
    case CheckSize(t, c) => CheckSizeKeeps(s, t, c);
    case EndCheck(t) => EndCheckKeeps(s, t);
    case MarkCompleted(t, hash, size) => MarkKeeps(s, t, hash, size);
    case SetChunkUploading(c) => SetChunkUploadingKeeps(s, c);
    case CountedAll(u) => CountedAllKeeps(s, u);
    case SetStatus(u, status) => SetStatusKeeps(s, u, status);
  }

  lemma MergeStepKeeps(s: State, e: Event)
    requires Inv(s) && Enabled(s, e)
    requires e.EnqueueMerge? || e.TakeMerge? || e.FinishMerge? || e.Initiate? || e.CopyPart? || e.CompleteParts? || e.Abort?
    ensures Inv(Apply(s, e)) && Grows(s, Apply(s, e))
  {
    match e
    case EnqueueMerge(u) => QueueKeeps(s, s.mergeQueue + [u], s.running);
    case TakeMerge => QueueKeeps(s, s.mergeQueue[1..], Some(s.mergeQueue[0]));
    case FinishMerge(outcome) => FinishMergeKeeps(s, outcome);
    case Initiate(id, u, dest) => InitiateKeeps(s, id, u, dest);
    case CopyPart(id, number, src, etag) => CopyPartKeeps(s, id, number, src, etag);
    case CompleteParts(id, list) => CompleteKeeps(s, id, list);
    case Abort(id) => AbortKeeps(s, id);
  }

  lemma VideoStepKeeps(s: State, e: Event)
    requires Inv(s) && Enabled(s, e)
    requires e.CreateVideo? || e.SetVideo? || e.EnqueueCleanup? || e.DeleteKey?
    ensures Inv(Apply(s, e)) && Grows(s, Apply(s, e))
  {
    match e
    case CreateVideo(v, video) => VideosKeep(s, s.videos[v := video]);
    case SetVideo(v, status) => VideosKeep(s, s.videos[v := s.videos[v].(status := status)]);
    case EnqueueCleanup(u) => EnqueueCleanupKeeps(s, u);
    case DeleteKey(path, index, removed, ok) => DeleteKeeps(s, path, index, removed, ok);
  }

  /** Every enabled event keeps the invariant, and rows and history only grow. */
  lemma StepKeeps(s: State, e: Event)
    requires Inv(s) && Enabled(s, e)
    ensures Inv(Apply(s, e)) && Grows(s, Apply(s, e))
  {
    if e.CreateVideo? || e.SetVideo? || e.EnqueueCleanup? || e.DeleteKey? {
      VideoStepKeeps(s, e);
    } else if e.EnqueueMerge? || e.TakeMerge? || e.FinishMerge? || e.Initiate? || e.CopyPart? || e.CompleteParts? || e.Abort? {
      MergeStepKeeps(s, e);
    } else {
      RowStepKeeps(s, e);
    }
  }
}
