/**
 Why the interference that Server assumes is what the other handlers do: an event can only
 break the claims it touches, and each handler's events touch only its own.
 */
module Rely {
  import opened Basics
  import opened Protocol
  import opened Theorems
  import opened Sizes
  import opened Server

  lemma CallKept(s: State, e: Event, t: string)
    requires Enabled(s, e) && Call(t) !in Touches(e)
    ensures Kept(s, Apply(s, e), Call(t))
  {
    if e.MarkCompleted? {
      assert Apply(s, e) == WithCompleted(s, s.checks[e.t].chunk, e.hash, e.size);
    } else {
      Elsewhere(s, e);
    }
  }

  lemma WorkerKept(s: State, e: Event)
    requires Enabled(s, e) && Worker !in Touches(e)
    ensures Kept(s, Apply(s, e), Worker)
  {
    if OnMerging(e) { OthersMerging(s, e, Worker); } else { OthersRows(s, e, Worker); }
  }

  lemma OpenKept(s: State, e: Event, id: string)
    requires Enabled(s, e) && Open(id) !in Touches(e)
    ensures Kept(s, Apply(s, e), Open(id))
  {
    if OnMerging(e) { OthersMerging(s, e, Open(id)); } else { OthersRows(s, e, Open(id)); }
  }

  lemma FreshKept(s: State, e: Event, x: string)
    requires Enabled(s, e) && Fresh(x) !in Touches(e)
    ensures Kept(s, Apply(s, e), Fresh(x))
  {
    if OnMerging(e) { OthersMerging(s, e, Fresh(x)); } else { OthersRows(s, e, Fresh(x)); }
  }

  lemma OthersMerging(s: State, e: Event, claim: Claim)
    requires Enabled(s, e) && OnMerging(e) && claim !in Touches(e) && !claim.Call?
    ensures Kept(s, Apply(s, e), claim)
  {
    match e
    case FinishMerge(outcome) => FinishLeaves(s, outcome);
    case CompleteParts(id, list) => CompleteLeaves(s, id, list);
    case CopyPart(id, number, src, etag) => CopyLeaves(s, id, number, src, etag);
    case Initiate(id, u, dest) => InitiateLeaves(s, id, u, dest);
    case Abort(id) =>
    case TakeMerge =>
    case EnqueueMerge(u) =>
  }

  lemma CreateTouches(s: State, u: string, row: UploadRow, cs: seq<string>, claim: Claim)
    requires NewUpload(s, u, row, cs) && claim !in Touches(CreateUpload(u, row, cs)) && !claim.Call?
    ensures Kept(s, WithUpload(s, u, row, cs), claim)
  {
    assert Fresh(u) in Touches(CreateUpload(u, row, cs));
    assert forall c | c in cs :: Fresh(c) in Touches(CreateUpload(u, row, cs));
  }

  lemma VideoTouches(s: State, v: string, video: VideoRow, claim: Claim)
    requires claim !in Touches(CreateVideo(v, video)) && !claim.Call?
    ensures Kept(s, s.(videos := s.videos[v := video]), claim)
  {
    assert Fresh(v) in Touches(CreateVideo(v, video));
  }

  lemma ChunkRowLeaves(s: State, e: Event)
    requires Enabled(s, e) && (e.MarkCompleted? || e.SetChunkUploading?)
    ensures var s' := Apply(s, e); s' == s.(chunks := s'.chunks, body := s'.body, checks := s'.checks) && s'.chunks.Keys == s.chunks.Keys
  {
  }

  lemma VideoRowLeaves(s: State, e: Event)
    requires Enabled(s, e) && e.SetVideo?
    ensures var s' := Apply(s, e); s' == s.(videos := s'.videos) && s'.videos.Keys == s.videos.Keys
  {
  }

  lemma CallLeaves(s: State, e: Event)
    requires Enabled(s, e) && (e.Put? || e.CheckSize? || e.EndCheck? || e.CountedAll?)
    ensures var s' := Apply(s, e); s' == s.(objects := s'.objects, checks := s'.checks, counted := s'.counted)
  {
  }

  predicate AddsIds(e: Event) { e.CreateUpload? || e.CreateVideo? }

  /** The other events add no id and leave the multipart uploads and the worker alone. */
  lemma NoNewIds(s: State, e: Event)
    requires Enabled(s, e) && !OnMerging(e) && !AddsIds(e)
    ensures var s' := Apply(s, e);
      && s'.uploads.Keys == s.uploads.Keys && s'.chunks.Keys == s.chunks.Keys && s'.videos.Keys == s.videos.Keys
      && s'.multiparts == s.multiparts && s'.running == s.running
  {
    if e.DeleteKey? {
      DeleteLeaves(s, e.path, e.index, e.removed, e.ok);
    } else if e.SetStatus? {
      StatusLeaves(s, e.u, e.status);
    } else if e.EnqueueCleanup? {
      RequestLeaves(s, e.u);
    } else if e.MarkCompleted? || e.SetChunkUploading? {
      ChunkRowLeaves(s, e);
    } else if e.SetVideo? {
      VideoRowLeaves(s, e);
    } else {
      CallLeaves(s, e);
    }
  }

  lemma OthersRows(s: State, e: Event, claim: Claim)
    requires Enabled(s, e) && !OnMerging(e) && claim !in Touches(e) && !claim.Call?
    ensures Kept(s, Apply(s, e), claim)
  {
    if e.CreateUpload? {
      CreateTouches(s, e.u, e.row, e.cs, claim);
    } else if e.CreateVideo? {
      VideoTouches(s, e.v, e.video, claim);
    } else {
      NoNewIds(s, e);
    }
  }

  lemma EventKeeps(s: State, e: Event, claim: Claim)
    requires Enabled(s, e) && claim !in Touches(e)
    ensures Kept(s, Apply(s, e), claim)
  {
    match claim
    case Call(t) => CallKept(s, e, t);
    case Open(id) => OpenKept(s, e, id);
    case Worker => WorkerKept(s, e);
    case Fresh(x) => FreshKept(s, e, x);
  }

  /** Over any part of a run whose events touch none of my claims, all of them are kept. */
  lemma {:induction false} RelyHolds(es: seq<Event>, n: nat, own: set<Claim>)
    requires n <= |es| && Run(es).Some? && Run(es[..n]).Some?
    requires forall k | n <= k < |es| :: Touches(es[k]) !! own
    ensures OwnKept(Run(es[..n]).value, Run(es).value, own)
    decreases |es|
  {
    if n == |es| {
      assert es[..n] == es;
    } else {
      var k := |es| - 1;
      assert es[..k][..n] == es[..n];
      RelyHolds(es[..k], n, own);
      var s := Run(es[..k]).value;
      forall claim | claim in own ensures Kept(s, Run(es).value, claim) {
        EventKeeps(s, es[k], claim);
      }
      OwnKeptTransitive(Run(es[..n]).value, s, Run(es).value, own);
    }
  }

  // ---- rely and guarantee meet ----

  /** Handler h made the calls at[h] of the run, and they touched only what is mine[h]; no two own the same claim. */
  ghost predicate Together(es: seq<Event>, at: seq<set<nat>>, mine: seq<Claim -> bool>) {
    && |at| == |mine|
    && (forall h | 0 <= h < |at| :: Guaranteed(es, at[h], mine[h]))
    && (forall k: nat | k < |es| :: SomeOnes(at, k))
    && (forall h, i, claim: Claim {:trigger mine[h](claim), mine[i](claim)} | 0 <= h < i < |mine| :: !(mine[h](claim) && mine[i](claim)))
  }

  ghost predicate SomeOnes(at: seq<set<nat>>, k: nat) { exists h :: 0 <= h < |at| && k in at[h] }

  /** What another handler's call touches is not mine. */
  lemma OthersTouch(es: seq<Event>, at: seq<set<nat>>, mine: seq<Claim -> bool>, h: nat, k: nat, own: set<Claim>)
    requires Together(es, at, mine) && h < |at| && k < |es| && k !in at[h]
    requires forall claim | claim in own :: mine[h](claim)
    ensures Touches(es[k]) !! own
  {
    assert Look(0) && SomeOnes(at, k);
    var i :| 0 <= i < |at| && k in at[i];
    assert Guaranteed(es, at[i], mine[i]);
    assert TouchesOnly(es[k], mine[i]);
  }

  /**
   Handlers that run together: each one's calls touch only its own claims, which is what
   every handler's Valid() guarantees; so between its own calls each finds its claims kept,
   which is what every handler relies on.
   */
  lemma RelyMeetsGuarantee(es: seq<Event>, at: seq<set<nat>>, mine: seq<Claim -> bool>, h: nat, m: nat, n: nat, own: set<Claim>)
    requires Together(es, at, mine) && h < |at| && m <= n <= |es|
    requires Run(es[..n]).Some? && Run(es[..m]).Some?
    requires forall k | m <= k < n :: k !in at[h]
    requires forall claim | claim in own :: mine[h](claim)
    ensures OwnKept(Run(es[..m]).value, Run(es[..n]).value, own)
  {
    forall k | m <= k < n ensures Touches(es[..n][k]) !! own {
      OthersTouch(es, at, mine, h, k, own);
    }
    TakeTake(es, n, m);
    RelyHolds(es[..n], m, own);
  }
}
