/**
 Runs in which each request is served alone (HandlerSpecs), while the merge worker, the
 cleanup worker and clients act between requests, one call at a time.
 */
module AtomicRuns {
  import opened Basics
  import opened Keys
  import opened Protocol
  import opened Invariant
  import opened HandlerSpecs

  datatype Request =
    | InitRequest(cmd: InitCommand, initReply: Option<InitReply>)
    | PresignRequest(user: string, u: string, c: string, i: nat, link: Option<Option<string>>)
    | CompleteRequest(user: string, u: string, c: string, i: nat, size: nat, hash: string, ok: bool)
    | MergeRequest(user: string, u: string, reply: MergeReply)
    | PublishRequest(user: string, u: string, v: string)
    | TranscodeCallback(v: string, status: VideoStatus, ok: bool)
    | Background(e: Event)

  predicate IsBackground(e: Event) {
    e.Put? || e.TakeMerge? || e.FinishMerge? || e.Initiate? || e.CopyPart? || e.CompleteParts? || e.Abort? || e.EnqueueCleanup? || e.DeleteKey?
  }

  ghost predicate Serves(s: State, r: Request, s': State) {
    match r
    case InitRequest(cmd, reply) => UploadVideoInitSpec(s, cmd, s', reply)
    case PresignRequest(user, u, c, i, link) => PresignChunkSpec(s, user, u, c, i, s', link)
    case CompleteRequest(user, u, c, i, size, hash, ok) => CompleteChunkSpec(s, user, u, c, i, size, hash, s', ok)
    case MergeRequest(user, u, reply) => MergeChunksSpec(s, user, u, s', reply)
    case PublishRequest(user, u, v) => PublishSpec(s, user, u, v, s')
    case TranscodeCallback(v, status, ok) => TranscodeSpec(s, v, status, s', ok)
    case Background(e) => IsBackground(e) && Enabled(s, e) && s' == Apply(s, e)
  }

  /** A run: request k takes state k to state k+1, from the empty service. */
  ghost predicate AtomicRun(rs: seq<Request>, ss: seq<State>) {
    && |ss| == |rs| + 1 && ss[0] == EmptyState
    && forall k: nat {:trigger Served(rs, ss, k)} | k < |rs| :: Served(rs, ss, k)
  }

  ghost predicate Served(rs: seq<Request>, ss: seq<State>, k: nat) {
    k < |rs| && k + 1 < |ss| && Serves(ss[k], rs[k], ss[k + 1])
  }

  // ---- what a request does to the rows ----

  /** The request created this upload: new rows, nothing else. */
  ghost predicate NewRows(s: State, cmd: InitCommand, s': State) {
    && !Known(s, cmd)
    && exists u, row, cs :: NewUpload(s, u, row, cs) && SameFile(row, cmd) && s' == WithUpload(s, u, row, cs)
  }

  /** Init, then Uploading, then everything from Merging on. */
  function Phase(status: UploadStatus): nat {
    match status
    case Init => 0
    case Uploading => 1
    case _ => 2
  }

  /** At most one upload's status moves, and not to an earlier phase. */
  ghost predicate Forward(s: State, s': State) {
    s'.uploads == s.uploads
    || exists u, status | u in s.uploads && Phase(status) >= Phase(s.uploads[u].status) :: s'.uploads == Restatus(s.uploads, u, status)
  }

  /** No row is added or removed: one status moves forward, chunks change status only. */
  ghost predicate OneStatus(s: State, s': State) {
    && s'.ids == s.ids && s'.chunks.Keys == s.chunks.Keys
    && (forall c {:trigger ChunkGrows(s, s', c)} | c in s.chunks :: ChunkGrows(s, s', c))
    && Forward(s, s')
  }

  lemma InitRows(s: State, cmd: InitCommand, s': State, reply: Option<InitReply>)
    requires UploadVideoInitSpec(s, cmd, s', reply)
    ensures OneStatus(s, s') || NewRows(s, cmd, s')
  {
  }

  lemma RequestRows(s: State, r: Request, s': State)
    requires Serves(s, r, s') && (r.PresignRequest? || r.CompleteRequest? || r.MergeRequest?)
    ensures OneStatus(s, s')
  {
    match r
    case PresignRequest(user, u, c, i, link) =>
    case CompleteRequest(user, u, c, i, size, hash, ok) =>
    case MergeRequest(user, u, reply) =>
  }

  lemma PublishRows(s: State, r: Request, s': State)
    requires Serves(s, r, s') && (r.PublishRequest? || r.TranscodeCallback?)
    ensures OneStatus(s, s')
  {
    match r
    case PublishRequest(user, u, v) =>
      assert Look(0);
      if s'.uploads != s.uploads {
        var status :| status in {Merging, Failed, Success} && s'.uploads == Restatus(s.uploads, u, status);
        assert Phase(status) == 2;
      }
    case TranscodeCallback(v, status, ok) =>
  }

  ghost predicate TablesKept(s: State, s': State) {
    s'.uploads == s.uploads && s'.chunks == s.chunks && s'.ids == s.ids && s'.mergeQueue == s.mergeQueue && s'.running == s.running
  }

  lemma MultipartTables(s: State, e: Event)
    requires Enabled(s, e) && (e.Initiate? || e.CopyPart? || e.CompleteParts? || e.Abort?)
    ensures TablesKept(s, Apply(s, e))
  {
    match e
    case Initiate(id, u, dest) =>
    case CopyPart(id, number, src, etag) =>
    case CompleteParts(id, list) =>
    case Abort(id) =>
  }

  /** Storage and cleanup events leave the tables and the queue alone. */
  lemma BackgroundTables(s: State, e: Event)
    requires IsBackground(e) && Enabled(s, e) && !e.TakeMerge? && !e.FinishMerge?
    ensures TablesKept(s, Apply(s, e))
  {
    match e
    case Put(c, data) =>
    case EnqueueCleanup(u) =>
    case DeleteKey(path, index, removed, ok) =>
    case _ => MultipartTables(s, e);
  }

  lemma FinishRows(s: State, outcome: Option<UploadStatus>)
    requires Enabled(s, FinishMerge(outcome))
    ensures OneStatus(s, Apply(s, FinishMerge(outcome)))
  {
    if outcome.Some? {
      assert Apply(s, FinishMerge(outcome)).uploads == Restatus(s.uploads, s.running.value, outcome.value);
    }
  }

  lemma BackgroundRows(s: State, e: Event)
    requires IsBackground(e) && Enabled(s, e)
    ensures OneStatus(s, Apply(s, e))
  {
    if e.FinishMerge? {
      FinishRows(s, e.outcome);
    } else if !e.TakeMerge? {
      BackgroundTables(s, e);
    }
  }

  lemma ServesRows(s: State, r: Request, s': State)
    requires Serves(s, r, s')
    ensures OneStatus(s, s') || (r.InitRequest? && NewRows(s, r.cmd, s'))
  {
    if r.InitRequest? {
      InitRows(s, r.cmd, s', r.initReply);
    } else if r.PresignRequest? || r.CompleteRequest? || r.MergeRequest? {
      RequestRows(s, r, s');
    } else if r.Background? {
      BackgroundRows(s, r.e);
    } else {
      PublishRows(s, r, s');
    }
  }

  lemma OneStatusKeepsRows(s: State, s': State)
    requires OneStatus(s, s')
    ensures RowsKept(s, s')
  {
    forall u | u in s.uploads ensures UploadGrows(s, s', u) {
    }
  }

  lemma LayoutServed(s: State, r: Request, s': State)
    requires Layout(s) && Serves(s, r, s')
    ensures Layout(s')
  {
    ServesRows(s, r, s');
    if OneStatus(s, s') {
      OneStatusKeepsRows(s, s');
      LayoutFrame(s, s');
    } else {
      NewRowsLaid(s, r.cmd, s');
    }
  }

  lemma NewRowsLaid(s: State, cmd: InitCommand, s': State)
    requires Layout(s) && NewRows(s, cmd, s')
    ensures Layout(s')
  {
    var u, row, cs :| NewUpload(s, u, row, cs) && SameFile(row, cmd) && s' == WithUpload(s, u, row, cs);
    assert Created(s, u, row, cs, s');
    CreatedLayout(s, u, row, cs, s');
  }

  // ---- phase order ----

  ghost predicate PhaseKept(s: State, s': State, u: string) {
    u in s.uploads ==> u in s'.uploads && Phase(s'.uploads[u].status) >= Phase(s.uploads[u].status)
  }

  lemma PhaseServed(s: State, r: Request, s': State, u: string)
    requires Serves(s, r, s')
    ensures PhaseKept(s, s', u)
  {
    ServesRows(s, r, s');
  }

  /** Over any run, with publishes and callbacks, no upload ever goes back to an earlier phase. */
  lemma {:induction false} PhaseOrder(rs: seq<Request>, ss: seq<State>, j: nat, k: nat, u: string)
    requires AtomicRun(rs, ss) && j <= k < |ss|
    ensures PhaseKept(ss[j], ss[k], u)
    decreases k
  {
    if j < k {
      PhaseOrder(rs, ss, j, k - 1, u);
      assert Served(rs, ss, k - 1);
      PhaseServed(ss[k - 1], rs[k - 1], ss[k], u);
    }
  }

  // ---- one merge at a time ----

  /** Queued uploads are distinct, none is being merged too, and all of them are Merging. */
  ghost predicate MergeOnce(s: State) {
    && (forall j, k | 0 <= j < k < |s.mergeQueue| :: s.mergeQueue[j] != s.mergeQueue[k])
    && (s.running.Some? ==> s.running.value !in s.mergeQueue)
    && (forall u {:trigger MergingNow(s, u)} | u in s.mergeQueue || s.running == Some(u) :: MergingNow(s, u))
  }

  ghost predicate MergingNow(s: State, u: string) {
    u in s.uploads && s.uploads[u].status == Merging
  }

  /** A status write that hits no queued or running upload, or sets it to Merging, is harmless. */
  lemma MergeOnceRestatus(s: State, u: string, status: UploadStatus)
    requires MergeOnce(s) && u in s.uploads
    requires status == Merging || (u !in s.mergeQueue && s.running != Some(u))
    ensures MergeOnce(s.(uploads := Restatus(s.uploads, u, status)))
  {
    var s' := s.(uploads := Restatus(s.uploads, u, status));
    forall w | w in s'.mergeQueue || s'.running == Some(w) ensures MergingNow(s', w) {
      assert MergingNow(s, w);
    }
  }

  /** MergeOnce reads the upload rows, the queue and the worker only. */
  lemma MergeOnceFrame(s: State, s': State)
    requires MergeOnce(s) && s'.uploads == s.uploads && s'.mergeQueue == s.mergeQueue && s'.running == s.running
    ensures MergeOnce(s')
  {
    forall w | w in s'.mergeQueue || s'.running == Some(w) ensures MergingNow(s', w) {
      assert MergingNow(s, w);
    }
  }

  lemma MergeOnceInit(s: State, cmd: InitCommand, s': State, reply: Option<InitReply>)
    requires MergeOnce(s) && UploadVideoInitSpec(s, cmd, s', reply)
    ensures MergeOnce(s')
  {
    forall w | w in s'.mergeQueue || s'.running == Some(w) ensures MergingNow(s', w) {
      assert MergingNow(s, w);
    }
  }

  lemma MergeOncePresign(s: State, user: string, u: string, c: string, i: nat, s': State, link: Option<Option<string>>)
    requires MergeOnce(s) && PresignChunkSpec(s, user, u, c, i, s', link)
    ensures MergeOnce(s')
  {
    var s1 := s.(uploads := s'.uploads);
    if s'.uploads != s.uploads {
      assert u in s.mergeQueue || s.running == Some(u) ==> MergingNow(s, u);
      MergeOnceRestatus(s, u, Uploading);
    }
    MergeOnceFrame(s1, s');
  }

  lemma MergeOnceComplete(s: State, user: string, u: string, c: string, i: nat, size: nat, hash: string, s': State, ok: bool)
    requires MergeOnce(s) && CompleteChunkSpec(s, user, u, c, i, size, hash, s', ok)
    ensures MergeOnce(s')
  {
    var s1 := s.(uploads := s'.uploads);
    if s'.uploads != s.uploads { MergeOnceRestatus(s, u, Merging); }
    MergeOnceFrame(s1, s');
  }

  /** A queued task is always for an upload that had none: it was not Merging before. */
  lemma MergeOnceMerge(s: State, user: string, u: string, s': State, reply: MergeReply)
    requires MergeOnce(s) && MergeChunksSpec(s, user, u, s', reply)
    ensures MergeOnce(s')
  {
    var s1 := s.(uploads := s'.uploads);
    if s'.uploads != s.uploads { MergeOnceRestatus(s, u, Merging); }
    if s'.mergeQueue == s.mergeQueue {
      MergeOnceFrame(s1, s');
    } else {
      assert u in s.mergeQueue || s.running == Some(u) ==> MergingNow(s, u);
      forall w | w in s'.mergeQueue || s'.running == Some(w) ensures MergingNow(s', w) {
        if w != u { assert MergingNow(s1, w); }
      }
    }
  }

  lemma MergeOnceTake(s: State)
    requires MergeOnce(s) && s.running.None? && s.mergeQueue != []
    ensures MergeOnce(s.(mergeQueue := s.mergeQueue[1..], running := Some(s.mergeQueue[0])))
  {
    var s' := s.(mergeQueue := s.mergeQueue[1..], running := Some(s.mergeQueue[0]));
    forall w | w in s'.mergeQueue || s'.running == Some(w) ensures MergingNow(s', w) {
      assert w in s.mergeQueue;
      assert MergingNow(s, w);
    }
  }

  /** The task ends with its status write, so the upload it changes is no longer in a merge. */
  lemma MergeOnceFinish(s: State, outcome: Option<UploadStatus>)
    requires MergeOnce(s) && Enabled(s, FinishMerge(outcome))
    ensures MergeOnce(Apply(s, FinishMerge(outcome)))
  {
    var s1 := s.(running := None);
    forall w | w in s1.mergeQueue || s1.running == Some(w) ensures MergingNow(s1, w) {
      assert MergingNow(s, w);
    }
    if outcome.Some? { MergeOnceRestatus(s1, s.running.value, outcome.value); }
  }

  lemma MergeOnceBackground(s: State, e: Event)
    requires MergeOnce(s) && IsBackground(e) && Enabled(s, e)
    ensures MergeOnce(Apply(s, e))
  {
    if e.TakeMerge? {
      MergeOnceTake(s);
    } else if e.FinishMerge? {
      MergeOnceFinish(s, e.outcome);
    } else {
      BackgroundTables(s, e);
      MergeOnceFrame(s, Apply(s, e));
    }
  }

  predicate FromPublishing(r: Request) { r.PublishRequest? || r.TranscodeCallback? }

  lemma MergeOnceServed(s: State, r: Request, s': State)
    requires MergeOnce(s) && Serves(s, r, s') && !FromPublishing(r)
    ensures MergeOnce(s')
  {
    match r
    case InitRequest(cmd, reply) => MergeOnceInit(s, cmd, s', reply);
    case PresignRequest(user, u, c, i, link) => MergeOncePresign(s, user, u, c, i, s', link);
    case CompleteRequest(user, u, c, i, size, hash, ok) => MergeOnceComplete(s, user, u, c, i, size, hash, s', ok);
    case MergeRequest(user, u, reply) => MergeOnceMerge(s, user, u, s', reply);
    case Background(e) => MergeOnceBackground(s, e);
  }

  /** How many merge tasks of u are pending or running. */
  function Tasks(s: State, u: string): nat {
    multiset(s.mergeQueue)[u] + if s.running == Some(u) then 1 else 0
  }

  lemma {:induction false} DistinctCount(q: seq<string>, u: string)
    requires forall j, k | 0 <= j < k < |q| :: q[j] != q[k]
    ensures multiset(q)[u] <= 1
    ensures u !in q ==> multiset(q)[u] == 0
  {
    if q != [] {
      var n := |q| - 1;
      DistinctCount(q[..n], u);
      assert q == q[..n] + [q[n]];
    }
  }

  lemma MergeOnceTasks(s: State, u: string)
    requires MergeOnce(s)
    ensures Tasks(s, u) <= 1 && (Tasks(s, u) == 1 ==> MergingNow(s, u))
  {
    DistinctCount(s.mergeQueue, u);
    if u in s.mergeQueue || s.running == Some(u) { assert MergingNow(s, u); }
  }

  lemma {:induction false} RunMergesOnce(rs: seq<Request>, ss: seq<State>, k: nat)
    requires AtomicRun(rs, ss) && k < |ss| && forall r | r in rs :: !FromPublishing(r)
    ensures MergeOnce(ss[k])
  {
    if k > 0 {
      RunMergesOnce(rs, ss, k - 1);
      assert Served(rs, ss, k - 1) && rs[k - 1] in rs;
      MergeOnceServed(ss[k - 1], rs[k - 1], ss[k]);
    }
  }

  /**
   Without publishes and callbacks, at most one merge task per upload is ever pending or
   running, and the upload is then Merging, across full queues, lost writes and retries.
   */
  lemma OneMergeAtATime(rs: seq<Request>, ss: seq<State>, k: nat, u: string)
    requires AtomicRun(rs, ss) && k < |ss| && forall r | r in rs :: !FromPublishing(r)
    ensures Tasks(ss[k], u) <= 1 && (Tasks(ss[k], u) == 1 ==> MergingNow(ss[k], u))
  {
    RunMergesOnce(rs, ss, k);
    MergeOnceTasks(ss[k], u);
  }

  // ---- resume is stable ----

  /** No two uploads are the same file of the same user. */
  ghost predicate OnePerFile(s: State) {
    forall u, w {:trigger FileOf(s, u), FileOf(s, w)} | u in s.uploads && w in s.uploads && FileOf(s, u) == FileOf(s, w) :: u == w
  }

  function FileOf(s: State, u: string): (string, string, string, nat)
    requires u in s.uploads
  {
    var row := s.uploads[u];
    (row.user, row.fileName, row.fileHash, row.fileSize)
  }

  lemma OnePerFileServed(s: State, r: Request, s': State)
    requires OnePerFile(s) && Serves(s, r, s')
    ensures OnePerFile(s')
  {
    ServesRows(s, r, s');
    if OneStatus(s, s') {
      OneStatusKeepsRows(s, s');
      forall u, w | u in s'.uploads && w in s'.uploads && FileOf(s', u) == FileOf(s', w) ensures u == w {
        assert UploadGrows(s, s', u) && UploadGrows(s, s', w);
        assert FileOf(s, u) == FileOf(s, w);
      }
    } else {
      var u, row, cs :| NewUpload(s, u, row, cs) && SameFile(row, r.cmd) && s' == WithUpload(s, u, row, cs);
      OnePerFileCreated(s, r.cmd, u, row, s');
    }
  }

  lemma OnePerFileCreated(s: State, cmd: InitCommand, u: string, row: UploadRow, s': State)
    requires OnePerFile(s) && !Known(s, cmd) && SameFile(row, cmd) && u !in s.uploads && s'.uploads == s.uploads[u := row]
    ensures OnePerFile(s')
  {
    assert forall w | w in s.uploads :: !SameFile(s.uploads[w], cmd);
    forall v, w | v in s'.uploads && w in s'.uploads && FileOf(s', v) == FileOf(s', w) ensures v == w {
      assert v != u && w != u ==> FileOf(s, v) == FileOf(s, w);
      assert v == u || w == u ==> SameFile(s'.uploads[v], cmd) && SameFile(s'.uploads[w], cmd);
    }
  }

  lemma {:induction false} RunLaid(rs: seq<Request>, ss: seq<State>, k: nat)
    requires AtomicRun(rs, ss) && k < |ss|
    ensures Layout(ss[k]) && OnePerFile(ss[k])
  {
    if k > 0 {
      RunLaid(rs, ss, k - 1);
      assert Served(rs, ss, k - 1);
      LayoutServed(ss[k - 1], rs[k - 1], ss[k]);
      OnePerFileServed(ss[k - 1], rs[k - 1], ss[k]);
    }
  }

  /** The upload's rows are still there, and it has no others. */
  ghost predicate SameUpload(s: State, s': State, u: string) {
    UploadGrows(s, s', u) && u in s.ids
  }

  lemma SameUploadServed(s: State, r: Request, s': State, u: string)
    requires Serves(s, r, s') && u in s.uploads && Layout(s)
    ensures SameUpload(s, s', u)
  {
    assert UploadLaid(s, u);
    ServesRows(s, r, s');
    if OneStatus(s, s') {
      OneStatusKeepsRows(s, s');
      assert UploadGrows(s, s', u);
    } else {
      NewRowsKeep(s, r.cmd, s', u);
    }
  }

  lemma NewRowsKeep(s: State, cmd: InitCommand, s': State, u: string)
    requires NewRows(s, cmd, s') && u in s.uploads && u in s.ids
    ensures UploadGrows(s, s', u)
  {
  }

  lemma {:induction false} SameUploadLater(rs: seq<Request>, ss: seq<State>, j: nat, k: nat, u: string)
    requires AtomicRun(rs, ss) && j <= k < |ss| && u in ss[j].uploads
    ensures SameUpload(ss[j], ss[k], u)
    decreases k
  {
    RunLaid(rs, ss, j);
    assert UploadLaid(ss[j], u);
    if j < k {
      SameUploadLater(rs, ss, j, k - 1, u);
      RunLaid(rs, ss, k - 1);
      assert Served(rs, ss, k - 1);
      SameUploadServed(ss[k - 1], rs[k - 1], ss[k], u);
    }
  }

  /** In index order, the k-th row has index k. */
  lemma {:induction false} RowAt(s: State, u: string, cs: seq<string>, k: nat)
    requires Layout(s) && u in s.uploads && RowsInOrder(s, u, cs) && k < |cs|
    ensures s.chunks[cs[k]].index == k && u in s.ids && k < |s.ids[u]| && s.ids[u][k] == cs[k]
  {
    assert UploadLaid(s, u) && ChunkLaid(s, cs[k]);
    if k > 0 {
      RowAt(s, u, cs, k - 1);
      assert cs[k - 1] != cs[k];
    }
    var c := s.ids[u][k];
    var p :| 0 <= p < |cs| && cs[p] == c;
    if p < k {
      RowAt(s, u, cs, p);
    }
  }

  /** So the rows of an upload in index order are one fixed list. */
  lemma RowsAreIds(s: State, u: string, cs: seq<string>)
    requires Layout(s) && u in s.uploads && RowsInOrder(s, u, cs)
    ensures u in s.ids && cs == s.ids[u]
  {
    assert UploadLaid(s, u);
    forall k | 0 <= k < |cs| ensures k < |s.ids[u]| && s.ids[u][k] == cs[k] {
      RowAt(s, u, cs, k);
    }
    if cs != [] { RowAt(s, u, cs, |cs| - 1); }
    if |cs| < |s.ids[u]| {
      var c := s.ids[u][|cs|];
      assert c in s.chunks && s.chunks[c].upload == u && s.chunks[c].index == |cs|;
      assert c in cs;
      var p :| 0 <= p < |cs| && cs[p] == c;
      RowAt(s, u, cs, p);
    }
  }

  /** An init that finds the file known answers with the one upload of that file, and changes nothing. */
  lemma ResumeFinds(s: State, cmd: InitCommand, s': State, reply: InitReply, u: string)
    requires UploadVideoInitSpec(s, cmd, s', Some(reply)) && OnePerFile(s)
    requires u in s.uploads && SameFile(s.uploads[u], cmd)
    ensures s' == s && reply.upload == u && RowsInOrder(s, u, reply.chunks)
  {
    assert Known(s, cmd);
    assert FileOf(s, u) == FileOf(s, reply.upload);
  }

  /** The state after the first init still shows the upload and its rows later. */
  lemma FirstInitLasts(rs: seq<Request>, ss: seq<State>, j: nat, k: nat, cmd: InitCommand, reply: InitReply)
    requires AtomicRun(rs, ss) && j < k < |ss| && rs[j] == InitRequest(cmd, Some(reply))
    ensures reply.upload in ss[k].uploads && SameFile(ss[k].uploads[reply.upload], cmd)
    ensures reply.upload in ss[k].ids && ss[k].ids[reply.upload] == reply.chunks
  {
    assert Served(rs, ss, j);
    RunLaid(rs, ss, j + 1);
    RowsAreIds(ss[j + 1], reply.upload, reply.chunks);
    SameUploadLater(rs, ss, j + 1, k, reply.upload);
  }

  /**
   After the first successful init for a file, every later successful init for it, in any
   run, returns the same upload and the same chunk rows in index order, and adds no rows.
   */
  lemma ResumeIsStable(rs: seq<Request>, ss: seq<State>, j: nat, k: nat)
    requires AtomicRun(rs, ss) && j < k < |rs|
    requires rs[j].InitRequest? && rs[j].initReply.Some? && rs[k].InitRequest? && rs[k].initReply.Some?
    requires rs[j].cmd.(total := rs[k].cmd.total) == rs[k].cmd
    ensures rs[k].initReply == rs[j].initReply
    ensures ss[k + 1] == ss[k]
  {
    var first, later := rs[j].initReply.value, rs[k].initReply.value;
    FirstInitLasts(rs, ss, j, k, rs[j].cmd, first);
    RunLaid(rs, ss, k);
    assert Served(rs, ss, k);
    ResumeFinds(ss[k], rs[k].cmd, ss[k + 1], later, first.upload);
    RowsAreIds(ss[k], first.upload, later.chunks);
  }
}
