/**
 The recorded chunk sizes.  CompleteChunk reads an object's size and marks the row later,
 and nothing stops a client from writing the object in between: the bytes that are merged
 are those at the mark, the size recorded is that of the check.
 */
module Sizes {
  import opened Basics
  import opened Keys
  import opened Destinations
  import opened Protocol
  import opened Invariant
  import opened Theorems

  /** The bytes that count as the chunk's: its body, or what stands at its key until there is one. */
  function Standing(s: State, c: string): Option<Bytes> {
    if c in s.body then Some(s.body[c])
    else if c in s.chunks && s.chunks[c].key in s.objects then Some(s.objects[s.chunks[c].key])
    else None
  }

  predicate Standings(s: State, c: string, n: nat) { Standing(s, c).Some? && |Standing(s, c).value| == n }

  /** While the key is there, what stands is the object at it. */
  lemma StandingIsObject(s: State, c: string)
    requires Inv(s) && c in s.chunks && s.chunks[c].key in s.objects
    ensures Standing(s, c) == Some(s.objects[s.chunks[c].key])
  {
    if c in s.body { assert ChunkKept(s, c); }
  }

  // ---- one mark ----

  /**
   A mark leaves the recorded size equal to the length of the chunk's bytes exactly when the
   object at the mark still has the length that was checked.  (After a cleanup the object is
   gone, and the body it held takes its place.)
   */
  lemma MarkSizeIff(s: State, t: string, hash: string, size: nat)
    requires Reachable(s) && Enabled(s, MarkCompleted(t, hash, size))
    ensures var c, s' := s.checks[t].chunk, Apply(s, MarkCompleted(t, hash, size));
      && c in s'.body && Standing(s, c) == Some(s'.body[c])
      && (s.chunks[c].key in s.objects ==>
            (s'.chunks[c].size == |s'.body[c]| <==> |s.objects[s.chunks[c].key]| == s.checks[t].size))
      && (s.chunks[c].key !in s.objects ==>
            Assembled(s, s.chunks[c].upload) && (s'.chunks[c].size == |s'.body[c]| <==> Standings(s, c, s.checks[t].size)))
  {
    var es :| Run(es) == Some(s);
    RunKeeps(es);
    var c := s.checks[t].chunk;
    assert CheckKept(s, s.checks[t]);
    if c in s.body { assert ChunkKept(s, c); }
    if s.chunks[c].key in s.objects {
      StandingIsObject(s, c);
    } else {
      assert s.chunks[c].upload in s.merged;
      assert Assembled(s, s.chunks[c].upload);
    }
  }

  // ---- what a write in between can change ----

  /** The event writes the chunk with another length. */
  predicate Disturbs(e: Event, c: string, n: nat) { e.Put? && e.c == c && |e.data| != n }

  /** No other event changes the length of what stands. */
  lemma StandingLength(s: State, e: Event, c: string, n: nat)
    requires Inv(s) && Enabled(s, e) && c in s.chunks && Standings(s, c, n) && !Disturbs(e, c, n)
    ensures c in Apply(s, e).chunks && Standings(Apply(s, e), c, n)
  {
    StepKeeps(s, e);
    assert ChunkGrows(s, Apply(s, e), c);
    if c in s.body {
      assert Apply(s, e).body[c] == s.body[c];
    } else {
      BodyFromKey(s, e, c);
      ObjectLength(s, e, c, n);
    }
  }

  lemma ObjectLength(s: State, e: Event, c: string, n: nat)
    requires Inv(s) && Enabled(s, e) && c in s.chunks && c !in s.body && !Disturbs(e, c, n)
    requires var k := s.chunks[c].key; k in s.objects && |s.objects[k]| == n
    ensures var k := s.chunks[c].key; k in Apply(s, e).objects && |Apply(s, e).objects[k]| == n
  {
    if e.Put? {
      if s.chunks[e.c].key == s.chunks[c].key { KeysApart(s, c, e.c); }
    } else if e.CompleteParts? {
      assert PartsOf(s, s.multiparts[e.id]);
      ChunkNotStorage(s, c, s.multiparts[e.id].upload);
    } else if e.DeleteKey? {
      var d := DeletedChunk(s, e.path, e.index);
      if s.chunks[d].key == s.chunks[c].key { KeysApart(s, c, d); }
    } else {
      ObjectsUntouched(s, e);
    }
  }

  /** A body that appears is the object at the chunk's key. */
  lemma BodyFromKey(s: State, e: Event, c: string)
    requires Enabled(s, e) && c in s.chunks && c !in s.body
    ensures c in Apply(s, e).body ==> s.chunks[c].key in s.objects && Apply(s, e).body[c] == s.objects[s.chunks[c].key]
  {
    if e.MarkCompleted? {
      assert Apply(s, e) == WithCompleted(s, s.checks[e.t].chunk, e.hash, e.size);
    } else {
      Elsewhere(s, e);
    }
  }

  // ---- what the other events leave alone ----

  predicate OnMerging(e: Event) {
    e.CompleteParts? || e.FinishMerge? || e.CopyPart? || e.Initiate? || e.Abort? || e.TakeMerge? || e.EnqueueMerge?
  }

  predicate SameHistory(s: State, s': State) { s'.body == s.body && s'.checks == s.checks && s'.chunks == s.chunks }

  lemma FinishLeaves(s: State, outcome: Option<UploadStatus>)
    requires Enabled(s, FinishMerge(outcome))
    ensures var s' := Apply(s, FinishMerge(outcome)); s' == s.(running := None, uploads := s'.uploads) && s'.uploads.Keys == s.uploads.Keys
  {
  }

  lemma CompleteLeaves(s: State, id: string, list: seq<PartRef>)
    requires Enabled(s, CompleteParts(id, list))
    ensures var s' := Apply(s, CompleteParts(id, list));
      s' == s.(multiparts := s.multiparts - {id}, objects := s'.objects, merged := s'.merged)
  {
  }

  lemma CopyLeaves(s: State, id: string, number: nat, src: string, etag: string)
    requires Enabled(s, CopyPart(id, number, src, etag))
    ensures var s' := Apply(s, CopyPart(id, number, src, etag));
      id in s'.multiparts && s' == s.(multiparts := s.multiparts[id := s'.multiparts[id]])
  {
  }

  lemma InitiateLeaves(s: State, id: string, u: string, dest: string)
    requires Enabled(s, Initiate(id, u, dest))
    ensures var s' := Apply(s, Initiate(id, u, dest));
      id !in s.multiparts && id in s'.multiparts && s' == s.(multiparts := s.multiparts[id := s'.multiparts[id]])
  {
  }

  lemma DeleteLeaves(s: State, path: string, index: nat, removed: bool, ok: bool)
    requires Enabled(s, DeleteKey(path, index, removed, ok))
    ensures var s' := Apply(s, DeleteKey(path, index, removed, ok)); s' == s.(objects := s'.objects)
  {
  }

  lemma MergingLeaves(s: State, e: Event)
    requires Enabled(s, e) && OnMerging(e)
    ensures SameHistory(s, Apply(s, e))
  {
    match e
    case FinishMerge(outcome) => FinishLeaves(s, outcome);
    case CompleteParts(id, list) => CompleteLeaves(s, id, list);
    case CopyPart(id, number, src, etag) => CopyLeaves(s, id, number, src, etag);
    case Initiate(id, u, dest) => InitiateLeaves(s, id, u, dest);
    case Abort(id) =>
    case TakeMerge =>
    case EnqueueMerge(u) =>
  }

  /** Bodies appear at marks only, and checks in flight change at their start and end only. */
  lemma Elsewhere(s: State, e: Event)
    requires Enabled(s, e) && !e.MarkCompleted?
    ensures Apply(s, e).body == s.body
    ensures forall t | t in Apply(s, e).checks && !(e.CheckSize? && e.t == t) :: t in s.checks
    ensures forall t | t in s.checks && e != EndCheck(t) :: t in Apply(s, e).checks && Apply(s, e).checks[t] == s.checks[t]
    ensures e.EndCheck? ==> e.t !in Apply(s, e).checks
    ensures forall c | c in s.chunks :: c in Apply(s, e).chunks && Apply(s, e).chunks[c].size == s.chunks[c].size
  {
    if OnMerging(e) {
      MergingLeaves(s, e);
    } else if e.CreateUpload? || e.Put? || e.CheckSize? || e.EndCheck? || e.SetChunkUploading? {
      ChunkRowsLeave(s, e);
    } else if e.EnqueueCleanup? || e.DeleteKey? {
      CleaningLeaves(s, e);
    } else {
      StatusRowsLeave(s, e);
    }
  }

  lemma CreateLeaves(s: State, u: string, row: UploadRow, cs: seq<string>)
    requires NewUpload(s, u, row, cs)
    ensures var s' := WithUpload(s, u, row, cs); s'.body == s.body && s'.checks == s.checks
    ensures forall c | c in s.chunks :: c in WithUpload(s, u, row, cs).chunks && WithUpload(s, u, row, cs).chunks[c].size == s.chunks[c].size
  {
  }

  lemma ChunkRowsLeave(s: State, e: Event)
    requires Enabled(s, e) && (e.CreateUpload? || e.Put? || e.CheckSize? || e.EndCheck? || e.SetChunkUploading?)
    ensures Apply(s, e).body == s.body
    ensures forall t | t in Apply(s, e).checks && !(e.CheckSize? && e.t == t) :: t in s.checks
    ensures forall t | t in s.checks && e != EndCheck(t) :: t in Apply(s, e).checks && Apply(s, e).checks[t] == s.checks[t]
    ensures e.EndCheck? ==> e.t !in Apply(s, e).checks
    ensures forall c | c in s.chunks :: c in Apply(s, e).chunks && Apply(s, e).chunks[c].size == s.chunks[c].size
  {
    match e
    case CreateUpload(u, row, cs) => CreateLeaves(s, u, row, cs);
    case Put(c, data) =>
    case CheckSize(t, c) =>
    case EndCheck(t) =>
    case SetChunkUploading(c) =>
  }

  lemma StatusLeaves(s: State, u: string, status: UploadStatus)
    requires Enabled(s, SetStatus(u, status))
    ensures Apply(s, SetStatus(u, status)) == WithStatus(s, u, status)
  {
  }

  lemma RequestLeaves(s: State, u: string)
    requires Enabled(s, EnqueueCleanup(u))
    ensures var s' := Apply(s, EnqueueCleanup(u)); s' == s.(cleanups := s'.cleanups)
  {
  }

  lemma CleaningLeaves(s: State, e: Event)
    requires Enabled(s, e) && (e.EnqueueCleanup? || e.DeleteKey?)
    ensures SameHistory(s, Apply(s, e))
  {
    match e
    case EnqueueCleanup(u) =>
    case DeleteKey(path, index, removed, ok) =>
  }

  lemma StatusRowsLeave(s: State, e: Event)
    requires Enabled(s, e) && (e.CountedAll? || e.SetStatus? || e.CreateVideo? || e.SetVideo?)
    ensures SameHistory(s, Apply(s, e))
  {
    match e
    case CountedAll(u) =>
    case SetStatus(u, status) =>
    case CreateVideo(v, video) =>
    case SetVideo(v, status) =>
  }

  // ---- one CompleteChunk call, over a run ----

  /** The call t is between its check and its end, and what it checked still has that length.  Look(0) unfolds it. */
  ghost predicate Holding(s: State, t: string, c: string, n: nat) {
    forall k: nat {:trigger Look(k)} :: Look(k) ==>
      t in s.checks && s.checks[t] == SizeCheck(c, n) && c in s.chunks && Standings(s, c, n)
  }

  lemma HoldingStep(s: State, e: Event, t: string, c: string, n: nat)
    requires Inv(s) && Enabled(s, e) && Holding(s, t, c, n) && e != EndCheck(t) && !Disturbs(e, c, n)
    ensures Holding(Apply(s, e), t, c, n)
  {
    assert Look(0);
    StandingLength(s, e, c, n);
    if !e.MarkCompleted? { Elsewhere(s, e); }
  }

  /** After its check at i, nothing so far ends the call or writes its chunk with another length. */
  ghost predicate Undisturbed(es: seq<Event>, i: nat, t: string, c: string, n: nat) {
    forall k | i < k < |es| :: es[k] != EndCheck(t) && !Disturbs(es[k], c, n)
  }

  // Look(0) unfolds the next two as well.

  ghost predicate Runs(es: seq<Event>) { forall k: nat {:trigger Look(k)} :: Look(k) ==> Run(es).Some? }

  ghost predicate HoldsAfter(es: seq<Event>, t: string, c: string, n: nat) {
    forall k: nat {:trigger Look(k)} :: Look(k) ==> Run(es).Some? && Holding(Run(es).value, t, c, n)
  }

  lemma {:induction false} HoldsOn(es: seq<Event>, i: nat, m: nat, t: string, c: string, n: nat)
    requires i < m <= |es| && Runs(es[..m]) && Undisturbed(es, i, t, c, n) && HoldsAfter(es[..i + 1], t, c, n)
    ensures HoldsAfter(es[..m], t, c, n)
  {
    if i + 1 < m {
      RunsPrefix(es, m);
      HoldsOn(es, i, m - 1, t, c, n);
      LastHolds(es, i, m, t, c, n);
    }
  }

  lemma RunsPrefix(es: seq<Event>, m: nat)
    requires 0 < m <= |es| && Runs(es[..m])
    ensures Runs(es[..m - 1])
  {
    TakeTake(es, m, m - 1);
    assert Look(0);
  }

  lemma LastHolds(es: seq<Event>, i: nat, m: nat, t: string, c: string, n: nat)
    requires i + 1 < m <= |es| && Runs(es[..m]) && HoldsAfter(es[..m - 1], t, c, n) && Undisturbed(es, i, t, c, n)
    ensures HoldsAfter(es[..m], t, c, n)
  {
    assert Look(0);
    TakeTake(es, m, m - 1);
    LastStep(es[..m]);
    RunKeeps(es[..m - 1]);
    assert es[..m][m - 1] == es[m - 1];
    HoldingStep(Run(es[..m - 1]).value, es[m - 1], t, c, n);
  }

  lemma LastStep(es: seq<Event>)
    requires es != [] && Run(es).Some?
    ensures var k := |es| - 1;
      Run(es[..k]).Some? && Enabled(Run(es[..k]).value, es[k]) && Run(es).value == Apply(Run(es[..k]).value, es[k])
  {
  }

  /** Right after the check, what stands has the checked length. */
  lemma HoldsAtCheck(s: State, t: string, c: string)
    requires Inv(s) && Enabled(s, CheckSize(t, c))
    ensures Holding(Apply(s, CheckSize(t, c)), t, c, |s.objects[s.chunks[c].key]|)
  {
    StandingIsObject(s, c);
  }

  lemma MarkWhileHolding(s: State, t: string, hash: string, size: nat, c: string, n: nat)
    requires Reachable(s) && Enabled(s, MarkCompleted(t, hash, size)) && Holding(s, t, c, n)
    ensures var s' := Apply(s, MarkCompleted(t, hash, size)); c in s'.body && c in s'.chunks && s'.chunks[c].size == |s'.body[c]| == n
  {
    assert Look(0);
    MarkSizeIff(s, t, hash, size);
  }

  /**
   A chunk that nobody writes with another length between the size check of a CompleteChunk
   call (event i) and its mark (the next event) gets its true length recorded, whatever else
   happens meanwhile.
   */
  lemma UndisturbedMark(es: seq<Event>, i: nat, t: string, c: string, n: nat, hash: string, size: nat)
    requires i < |es| && Run(es).Some? && es[i] == CheckSize(t, c) && Undisturbed(es, i, t, c, n)
    requires Run(es[..i + 1]).Some? && t in Run(es[..i + 1]).value.checks && Run(es[..i + 1]).value.checks[t].size == n
    requires Enabled(Run(es).value, MarkCompleted(t, hash, size))
    ensures var s := Apply(Run(es).value, MarkCompleted(t, hash, size)); c in s.body && c in s.chunks && s.chunks[c].size == |s.body[c]| == n
  {
    assert es[..i + 1][..i] == es[..i];
    RunKeeps(es[..i]);
    HoldsAtCheck(Run(es[..i]).value, t, c);
    assert es[..|es|] == es;
    HoldsOn(es, i, |es|, t, c, n);
    assert Look(0);
    assert Reachable(Run(es).value);
    MarkWhileHolding(Run(es).value, t, hash, size, c, n);
  }

  // ---- all chunks of an upload ----

  /** The event does not write chunk c with another length while a CompleteChunk call of it is in flight. */
  predicate Careful(s: State, e: Event, c: string) {
    e.Put? && e.c == c ==> forall t | t in s.checks && s.checks[t].chunk == c :: |e.data| == s.checks[t].size
  }

  ghost predicate CarefulRun(es: seq<Event>, c: string) {
    forall k | 0 <= k < |es| && Run(es[..k]).Some? :: Careful(Run(es[..k]).value, es[k], c)
  }

  /** The recorded size is the length of the chunk's bytes, and every check in flight saw that length. */
  ghost predicate SizeKept(s: State, c: string) {
    && (c in s.body && c in s.chunks ==> s.chunks[c].size == |s.body[c]|)
    && (forall t {:trigger Checked(s, t, c)} | t in s.checks && s.checks[t].chunk == c :: Checked(s, t, c))
  }

  ghost predicate Checked(s: State, t: string, c: string) {
    t in s.checks && Standings(s, c, s.checks[t].size)
  }

  lemma SizeStep(s: State, e: Event, c: string)
    requires Inv(s) && Enabled(s, e) && SizeKept(s, c) && Careful(s, e, c)
    ensures SizeKept(Apply(s, e), c)
  {
    var s' := Apply(s, e);
    forall t | t in s'.checks && s'.checks[t].chunk == c ensures Checked(s', t, c) {
      ChecksOrigin(s, e, t);
      assert Look(0);
      if t in s.checks {
        assert Checked(s, t, c) && CheckKept(s, s.checks[t]);
        StandingLength(s, e, c, s.checks[t].size);
      } else {
        HoldsAtCheck(s, t, c);
      }
    }
    if c in s'.body && c in s'.chunks { RecordedStep(s, e, c); }
  }

  /** A check in flight was in flight before, unless this event is its start. */
  lemma ChecksOrigin(s: State, e: Event, t: string)
    requires Enabled(s, e) && t in Apply(s, e).checks
    ensures if t in s.checks then e != EndCheck(t) && Apply(s, e).checks[t] == s.checks[t]
            else e.CheckSize? && e.t == t && Apply(s, e).checks[t].chunk == e.c
  {
    if !e.MarkCompleted? { Elsewhere(s, e); }
  }

  lemma RecordedStep(s: State, e: Event, c: string)
    requires Inv(s) && Enabled(s, e) && SizeKept(s, c)
    requires c in Apply(s, e).body && c in Apply(s, e).chunks
    ensures Apply(s, e).chunks[c].size == |Apply(s, e).body[c]|
  {
    if e.MarkCompleted? && s.checks[e.t].chunk == c {
      assert Checked(s, e.t, c);
    } else {
      StepKeeps(s, e);
      RowsOutsideMarks(s, e, c);
    }
  }

  /** Only marks of a chunk touch its recorded size or its body. */
  lemma RowsOutsideMarks(s: State, e: Event, c: string)
    requires Inv(s) && Enabled(s, e) && !(e.MarkCompleted? && s.checks[e.t].chunk == c)
    ensures c in Apply(s, e).body <==> c in s.body
    ensures c in s.body ==> Apply(s, e).body[c] == s.body[c]
    ensures c in s.body ==> c in s.chunks && c in Apply(s, e).chunks && Apply(s, e).chunks[c].size == s.chunks[c].size
  {
    if c in s.body { assert ChunkKept(s, c); }
    if e.MarkCompleted? {
      assert Apply(s, e) == WithCompleted(s, s.checks[e.t].chunk, e.hash, e.size);
    } else {
      Elsewhere(s, e);
    }
  }

  lemma {:induction false} CarefulSizes(es: seq<Event>, c: string)
    requires Run(es).Some? && CarefulRun(es, c)
    ensures SizeKept(Run(es).value, c)
  {
    if es != [] {
      var n := |es| - 1;
      forall k | 0 <= k < n && Run(es[..n][..k]).Some? ensures Careful(Run(es[..n][..k]).value, es[..n][k], c) {
        assert es[..n][..k] == es[..k];
      }
      CarefulSizes(es[..n], c);
      RunKeeps(es[..n]);
      SizeStep(Run(es[..n]).value, es[n], c);
    }
  }

  // ---- after any run ----

  /** Event k of the run marks chunk c. */
  ghost predicate Marks(es: seq<Event>, k: nat, c: string) {
    && k < |es| && es[k].MarkCompleted? && Run(es[..k]).Some?
    && es[k].t in Run(es[..k]).value.checks && Run(es[..k]).value.checks[es[k].t].chunk == c
  }

  /** Event k is the chunk's last mark. */
  ghost predicate LastMark(es: seq<Event>, k: nat, c: string) {
    Marks(es, k, c) && forall j: nat {:trigger Marks(es, j, c)} | k < j :: !Marks(es, j, c)
  }

  /** The length that the size check behind the mark saw. */
  ghost function CheckedSize(es: seq<Event>, k: nat, c: string): nat
    requires Marks(es, k, c)
  {
    Run(es[..k]).value.checks[es[k].t].size
  }

  lemma MarksBefore(es: seq<Event>, n: nat, k: nat, c: string)
    requires k < n <= |es|
    ensures Marks(es[..n], k, c) <==> Marks(es, k, c)
    ensures Marks(es, k, c) ==> CheckedSize(es[..n], k, c) == CheckedSize(es, k, c)
  {
    TakeTake(es, n, k);
  }

  lemma LastMarkLater(es: seq<Event>, k: nat, c: string)
    requires es != [] && !Marks(es, |es| - 1, c) && k < |es| - 1 && LastMark(es[..|es| - 1], k, c)
    ensures LastMark(es, k, c) && CheckedSize(es, k, c) == CheckedSize(es[..|es| - 1], k, c)
  {
    var n := |es| - 1;
    MarksBefore(es, n, k, c);
    forall j: nat | k < j ensures !Marks(es, j, c) {
      if j < n { MarksBefore(es, n, j, c); }
    }
  }

  /** The mark records the checked size and leaves the bytes that stand. */
  lemma MarkRecords(s: State, t: string, hash: string, size: nat)
    requires Inv(s) && Enabled(s, MarkCompleted(t, hash, size))
    ensures var c, s' := s.checks[t].chunk, Apply(s, MarkCompleted(t, hash, size));
      c in s'.chunks && s'.chunks[c].size == s.checks[t].size && c in s'.body && Standing(s, c) == Some(s'.body[c])
  {
    assert CheckKept(s, s.checks[t]);
  }

  /**
   After any run, a chunk with bytes has a last mark; the size recorded is what the check
   behind that mark saw, and it is the length of the chunk's bytes exactly when what stood
   at the mark still had that length.
   */
  lemma {:induction false} RecordedSizeIff(es: seq<Event>, c: string) returns (k: nat)
    requires Run(es).Some? && c in Run(es).value.body
    ensures LastMark(es, k, c)
    ensures var s := Run(es).value;
      && c in s.chunks && s.chunks[c].size == CheckedSize(es, k, c)
      && (s.chunks[c].size == |s.body[c]| <==> Standings(Run(es[..k]).value, c, CheckedSize(es, k, c)))
      && (Standing(Run(es[..k]).value, c) == Some(s.body[c]))
    decreases |es|
  {
    var n := |es| - 1;
    LastStep(es);
    RunKeeps(es[..n]);
    var s := Run(es[..n]).value;
    if Marks(es, n, c) {
      k := n;
      MarkRecords(s, es[n].t, es[n].hash, es[n].size);
    } else {
      RowsOutsideMarks(s, es[n], c);
      k := RecordedSizeIff(es[..n], c);
      LastMarkLater(es, k, c);
      TakeTake(es, n, k);
    }
  }

  /** The sum of the recorded chunk_size values. */
  ghost function RecordedSize(s: State, cs: seq<string>): nat
    requires forall i | 0 <= i < |cs| :: cs[i] in s.chunks
  {
    if cs == [] then 0 else RecordedSize(s, cs[..|cs| - 1]) + s.chunks[cs[|cs| - 1]].size
  }

  lemma {:induction false} ConcatLength(s: State, cs: seq<string>)
    requires forall i | 0 <= i < |cs| :: cs[i] in s.body && cs[i] in s.chunks
    requires forall i | 0 <= i < |cs| :: s.chunks[cs[i]].size == |s.body[cs[i]]|
    ensures |Concat(s.body, cs)| == RecordedSize(s, cs)
  {
    if cs != [] { ConcatLength(s, cs[..|cs| - 1]); }
  }

  /**
   Over every run in which no chunk of the upload is written with another length while a
   CompleteChunk call of it is in flight, a Success upload, or one with a video, has an
   object as long as the sum of its recorded chunk sizes.
   */
  lemma SuccessMeansRecordedSize(es: seq<Event>, u: string)
    requires Run(es).Some?
    requires var s := Run(es).value; (u in s.uploads && s.uploads[u].status == Success) || HasVideo(s, u)
    requires var s := Run(es).value; u in s.ids ==> forall i | 0 <= i < |s.ids[u]| :: CarefulRun(es, s.ids[u][i])
    ensures var s := Run(es).value;
      Assembled(s, u) && UploadLaid(s, u) && |s.objects[StoreKey(s.uploads[u].storagePath).value]| == RecordedSize(s, s.ids[u])
  {
    var s := Run(es).value;
    assert Reachable(s);
    SuccessMeansRightBytes(s, u);
    forall i | 0 <= i < |s.ids[u]| ensures s.chunks[s.ids[u][i]].size == |s.body[s.ids[u][i]]| {
      CarefulSizes(es, s.ids[u][i]);
    }
    ConcatLength(s, s.ids[u]);
  }

  // ---- without that care ----

  lemma Onward(s: State, e: Event)
    requires Reachable(s) && Enabled(s, e)
    ensures Reachable(Apply(s, e))
  {
    var es :| Run(es) == Some(s);
    assert (es + [e])[..|es|] == es;
    assert Run(es + [e]) == Some(Apply(s, e));
  }

  lemma CreateOn(u: string, row: UploadRow, c: string)
    requires NewUpload(EmptyState, u, row, [c])
    ensures Reachable(EmptyState.(uploads := map[u := row], chunks := map[c := NewChunkRow(u, row, 0)], ids := map[u := [c]]))
  {
    assert Run([]) == Some(EmptyState);
    Onward(EmptyState, CreateUpload(u, row, [c]));
    assert [c][0] == c;
    assert InsertChunks(map[], u, row, [c]) == map[c := NewChunkRow(u, row, 0)];
  }

  lemma PutOn(s: State, c: string, data: Bytes)
    requires Reachable(s) && c in s.chunks && c !in s.body
    ensures Reachable(AfterPut(s, c, data))
  {
    Onward(s, Put(c, data));
  }

  lemma CheckOn(s: State, t: string, c: string)
    requires Reachable(s) && c in s.chunks && t !in s.checks && s.chunks[c].key in s.objects
    ensures Reachable(s.(checks := s.checks[t := SizeCheck(c, |s.objects[s.chunks[c].key]|)]))
  {
    Onward(s, CheckSize(t, c));
  }

  lemma MarkOn(s: State, t: string, c: string, n: nat)
    requires Reachable(s) && c in s.chunks && t in s.checks && s.checks[t] == SizeCheck(c, n)
    ensures Reachable(WithCompleted(s, c, "", n))
  {
    Onward(s, MarkCompleted(t, "", n));
  }

  lemma CountOn(s: State, u: string)
    requires Reachable(s) && u in s.uploads && CountCompleted(s, u) == s.uploads[u].total
    ensures Reachable(s.(counted := s.counted + {u}))
  {
    Onward(s, CountedAll(u));
  }

  lemma InitiateOn(s: State, id: string, u: string, dest: string)
    requires Reachable(s) && id !in s.multiparts && u in s.uploads && u in s.counted && StoreKey(s.uploads[u].storagePath) == Some(dest)
    ensures Reachable(s.(multiparts := s.multiparts[id := Multipart(dest, u, map[])]))
  {
    Onward(s, Initiate(id, u, dest));
  }

  lemma CopyOn(s: State, id: string, src: string, etag: string)
    requires Reachable(s) && id in s.multiparts && src in s.objects && s.multiparts[id].upload in s.uploads
    requires var row := s.uploads[s.multiparts[id].upload]; row.total >= 1 && src == ChunkKey(row.chunkPath, 0)
    ensures var m := s.multiparts[id];
      Reachable(s.(multiparts := s.multiparts[id := m.(parts := m.parts[1 := PartData(s.objects[src], etag)])]))
  {
    Onward(s, CopyPart(id, 1, src, etag));
  }

  lemma CompleteOn(s: State, id: string, data: Bytes, etag: string)
    requires Reachable(s) && id in s.multiparts && s.multiparts[id].upload in s.uploads
    requires s.uploads[s.multiparts[id].upload].total == 1 && s.multiparts[id].parts == map[1 := PartData(data, etag)]
    ensures var m := s.multiparts[id];
      Reachable(s.(multiparts := s.multiparts - {id}, objects := s.objects[m.dest := data], merged := s.merged + {m.upload}))
  {
    var list := [PartRef(1, etag)];
    assert list[..0] == [];
    assert Assemble(s.multiparts[id].parts, list) == data;
    Onward(s, CompleteParts(id, list));
  }

  lemma SucceedOn(s: State, u: string)
    requires Reachable(s) && u in s.uploads && u in s.merged
    ensures Reachable(WithStatus(s, u, Success))
  {
    Onward(s, SetStatus(u, Success));
  }

  /** The one upload and its one chunk row, before anything is merged. */
  ghost predicate OneChunk(s: State, u: string, row: UploadRow, c: string, chunk: ChunkRow) {
    && Reachable(s) && s.uploads == map[u := row] && row.total == 1 && s.ids == map[u := [c]]
    && s.chunks == map[c := chunk] && chunk.upload == u && chunk.key == ChunkKey(row.chunkPath, 0)
    && s.multiparts == map[] && s.counted == {} && s.merged == {}
  }

  lemma CreateAndCheck(u: string, row: UploadRow, c: string, before: Bytes) returns (s: State)
    requires NewUpload(EmptyState, u, row, [c])
    ensures OneChunk(s, u, row, c, NewChunkRow(u, row, 0)) && s.body == map[]
    ensures s.checks == map["t" := SizeCheck(c, |before|)] && s.objects == map[NewChunkRow(u, row, 0).key := before]
  {
    CreateOn(u, row, c);
    s := EmptyState.(uploads := map[u := row], chunks := map[c := NewChunkRow(u, row, 0)], ids := map[u := [c]]);
    PutOn(s, c, before);
    s := AfterPut(s, c, before);
    CheckOn(s, "t", c);
    s := s.(checks := map["t" := SizeCheck(c, |before|)]);
  }

  /** Check, write, mark: the client's second write falls between the handler's two calls. */
  lemma CheckWriteMark(u: string, row: UploadRow, c: string, before: Bytes, after: Bytes) returns (s: State)
    requires NewUpload(EmptyState, u, row, [c])
    ensures OneChunk(s, u, row, c, NewChunkRow(u, row, 0).(size := |before|, status := Completed))
    ensures s.objects == map[NewChunkRow(u, row, 0).key := after]
  {
    s := CreateAndCheck(u, row, c, before);
    PutOn(s, c, after);
    s := AfterPut(s, c, after);
    MarkOn(s, "t", c, |before|);
    s := WithCompleted(s, c, "", |before|);
  }

  lemma CountOne(s: State, u: string, c: string, chunk: ChunkRow)
    requires s.chunks == map[c := chunk] && chunk.upload == u && chunk.status.Completed?
    ensures CountCompleted(s, u) == 1
  {
    assert CompletedChunks(s, u) == {c};
  }

  lemma StartOne(s0: State, u: string, row: UploadRow, c: string, chunk: ChunkRow, dest: string) returns (s: State)
    requires OneChunk(s0, u, row, c, chunk) && chunk.status.Completed? && StoreKey(row.storagePath) == Some(dest)
    ensures s == s0.(counted := {u}, multiparts := map["m" := Multipart(dest, u, map[])]) && Reachable(s)
  {
    CountOne(s0, u, c, chunk);
    CountOn(s0, u);
    s := s0.(counted := s0.counted + {u});
    InitiateOn(s, "m", u, dest);
    s := s.(multiparts := s.multiparts["m" := Multipart(dest, u, map[])]);
  }

  lemma CopyOne(s0: State, u: string, row: UploadRow, c: string, chunk: ChunkRow, data: Bytes, dest: string) returns (s: State)
    requires OneChunk(s0, u, row, c, chunk) && chunk.status.Completed? && s0.objects == map[chunk.key := data]
    requires StoreKey(row.storagePath) == Some(dest)
    ensures s == s0.(counted := {u}, multiparts := map["m" := Multipart(dest, u, map[1 := PartData(data, "e")])])
    ensures Reachable(s)
  {
    s := StartOne(s0, u, row, c, chunk, dest);
    CopyOn(s, "m", chunk.key, "e");
    var part := PartData(data, "e");
    var m := Multipart(dest, u, map[1 := part]);
    assert s.multiparts["m"].(parts := s.multiparts["m"].parts[1 := part]) == m;
    s := s.(multiparts := s.multiparts["m" := m]);
  }

  /** From the mark to Success. */
  lemma MergeOne(s0: State, u: string, row: UploadRow, c: string, chunk: ChunkRow, data: Bytes, dest: string) returns (s: State)
    requires OneChunk(s0, u, row, c, chunk) && chunk.status.Completed? && s0.objects == map[chunk.key := data]
    requires StoreKey(row.storagePath) == Some(dest)
    ensures Reachable(s) && s.uploads == map[u := row.(status := Success)] && s.chunks == s0.chunks && s.ids == s0.ids
    ensures s.objects == s0.objects[dest := data] && s.merged == {u} && s.cleanups == s0.cleanups
  {
    s := CopyOne(s0, u, row, c, chunk, data, dest);
    CompleteOn(s, "m", data, "e");
    s := s.(multiparts := s.multiparts - {"m"}, objects := s.objects[dest := data], merged := s.merged + {u});
    SucceedOn(s, u);
    s := WithStatus(s, u, Success);
  }

  /**
   The size check sees five bytes, the client writes seven, the row records five: the upload
   reaches Success with an object of seven bytes and a recorded total of five.
   */
  lemma SizesCanDiffer() returns (s: State, u: string)
    ensures Reachable(s) && u in s.uploads && s.uploads[u].status == Success && Assembled(s, u) && UploadLaid(s, u)
    ensures |Concat(s.body, s.ids[u])| == 7 && RecordedSize(s, s.ids[u]) == 5
  {
    u := "a";
    var c, row := "c", ExampleRow(u, "v.mp4");
    ExampleIsNew(u, "v.mp4", c);
    Mp4Key(u);
    var marked := CheckWriteMark(u, row, c, seq(5, i => 0), seq(7, i => 0));
    var chunk := NewChunkRow(u, row, 0).(size := 5, status := Completed);
    s := MergeOne(marked, u, row, c, chunk, seq(7, i => 0), StoreKey(row.storagePath).value);
    SuccessMeansRightBytes(s, u);
    OneSize(s, c);
  }

  lemma OneSize(s: State, c: string)
    requires c in s.chunks
    ensures RecordedSize(s, [c]) == s.chunks[c].size
  {
    assert [c][..0] == [];
  }

  const EXAMPLE_DATE := Date("2024", "01", "02")

  function ExampleRow(u: string, fileName: ByteString): UploadRow {
    UploadRow("me", fileName, "h", 5, 1, Init, GenerateStoragePath("me", EXAMPLE_DATE, u, fileName), GenerateChunkStoragePath(EXAMPLE_DATE, u))
  }

  lemma ExampleIsNew(u: string, fileName: ByteString, c: string)
    requires ValidUuid(u)
    ensures NewUpload(EmptyState, u, ExampleRow(u, fileName), [c])
  {
    PlainDecodes("me");
    assert EXAMPLE_DATE.Valid();
  }

  lemma Mp4Key(u: string)
    requires ValidUuid(u)
    ensures StoreKey(ExampleRow(u, "v.mp4").storagePath).Some?
  {
    assert "v.mp4"[1] == '.' && Extension("v.mp4") == "mp4";
    PlainDecodes("mp4");
    ExampleKey(u, "v.mp4", "mp4");
  }

  /** Where the example is merged to, if its extension can stand in a URL. */
  lemma ExampleKey(u: string, fileName: ByteString, decoded: string)
    requires ValidUuid(u) && Uncut(Extension(fileName)) && Decoded(Extension(fileName)) == Some(decoded)
    ensures StoreKey(ExampleRow(u, fileName).storagePath) == Some(StoragePathOf("me", EXAMPLE_DATE, u, decoded))
  {
    PlainDecodes("me");
    StoreKeyIs(ExampleRow(u, fileName).storagePath);
    UncutPath("me", EXAMPLE_DATE, u, Extension(fileName));
    DecodedPath("me", EXAMPLE_DATE, u, Extension(fileName));
  }
}
