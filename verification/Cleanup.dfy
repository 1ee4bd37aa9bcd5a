/**
 The chunk cleanup task: a bounded channel, a worker that batches requests and removes
 duplicates, and goroutines for what did not fit.  It refines the naive worker that calls
 DeleteChunks for every request.  What one DeleteChunks call does is proved in Server.
 */
module Cleanup {
  import opened Basics
  import opened Keys
  import opened Protocol

  const CLEANUP_QUEUE_SIZE: nat := 128
  const CLEANUP_BATCH_SIZE: nat := 16

  type Request = CleanupRequest

  predicate Wanted(r: Request) { r.chunkPath != "" && r.total > 0 }

  // ---- a batch without duplicates ----

  /** One call per path, each for a request of the batch with the largest total of its path. */
  ghost predicate Covers(calls: seq<Request>, batch: seq<Request>) {
    && DistinctPaths(calls)
    && (forall c | c in calls :: c in batch && Wanted(c))
    && (forall r | r in batch && Wanted(r) :: Covered(calls, r))
  }

  ghost predicate Covered(calls: seq<Request>, r: Request) {
    exists c | c in calls :: c.chunkPath == r.chunkPath && c.total >= r.total
  }

  lemma CoversMembers(a: seq<Request>, b: seq<Request>, batch: seq<Request>, c: Request)
    requires Covers(a, batch) && Covers(b, batch) && c in a
    ensures c in b
  {
    assert Covered(b, c);
    var d :| d in b && d.chunkPath == c.chunkPath && d.total >= c.total;
    assert Covered(a, d);
    var e :| e in a && e.chunkPath == d.chunkPath && e.total >= d.total;
    assert e == c;
  }

  /** Whatever order the map is walked in, the same calls are made, each once. */
  lemma OrderDoesNotMatter(a: seq<Request>, b: seq<Request>, batch: seq<Request>)
    requires Covers(a, batch) && Covers(b, batch)
    ensures multiset(a) == multiset(b)
  {
    forall c ensures multiset(a)[c] == multiset(b)[c] { SameCount(a, b, batch, c); }
  }

  lemma SameCount(a: seq<Request>, b: seq<Request>, batch: seq<Request>, c: Request)
    requires Covers(a, batch) && Covers(b, batch)
    ensures multiset(a)[c] == multiset(b)[c]
  {
    if c in a { CoversMembers(a, b, batch, c); }
    if c in b { CoversMembers(b, a, batch, c); }
    CountOnce(a, c);
    CountOnce(b, c);
  }

  ghost predicate DistinctPaths(calls: seq<Request>) {
    forall i, j | 0 <= i < j < |calls| :: calls[i].chunkPath != calls[j].chunkPath
  }

  lemma {:induction false} CountOnce(calls: seq<Request>, c: Request)
    requires DistinctPaths(calls)
    ensures multiset(calls)[c] == if c in calls then 1 else 0
  {
    if calls != [] {
      var n := |calls| - 1;
      CountOnce(calls[..n], c);
      assert calls == calls[..n] + [calls[n]];
    }
  }

  // ---- keys ----

  /** The keys path+0 .. path+(total-1) of all requests. */
  ghost function KeysOf(rs: multiset<Request>): set<string> {
    set r, k | r in rs && k in KeysBelow(r.chunkPath, r.total) :: k
  }

  lemma KeysOfSum(a: multiset<Request>, b: multiset<Request>)
    ensures KeysOf(a + b) == KeysOf(a) + KeysOf(b)
  {
    forall k ensures k in KeysOf(a + b) <==> k in KeysOf(a) || k in KeysOf(b) {
      if k in KeysOf(a + b) {
        var r :| r in a + b && k in KeysBelow(r.chunkPath, r.total);
        assert r in a || r in b;
      }
      if k in KeysOf(a) {
        var r :| r in a && k in KeysBelow(r.chunkPath, r.total);
        assert r in a + b;
      }
      if k in KeysOf(b) {
        var r :| r in b && k in KeysBelow(r.chunkPath, r.total);
        assert r in a + b;
      }
    }
  }

  lemma {:induction false} KeysBelowGrow(path: string, m: nat, n: nat)
    requires m <= n
    ensures KeysBelow(path, m) <= KeysBelow(path, n)
  {
    if m < n { KeysBelowGrow(path, m, n - 1); }
  }

  /** Keeping the largest total of each path loses no key and adds none. */
  lemma CoversKeys(calls: seq<Request>, batch: seq<Request>)
    requires Covers(calls, batch) && forall r | r in batch :: Wanted(r)
    ensures KeysOf(multiset(calls)) == KeysOf(multiset(batch))
  {
    forall k ensures k in KeysOf(multiset(calls)) <==> k in KeysOf(multiset(batch)) {
      if k in KeysOf(multiset(calls)) {
        var c :| c in multiset(calls) && k in KeysBelow(c.chunkPath, c.total);
        assert c in calls && c in multiset(batch);
      }
      if k in KeysOf(multiset(batch)) {
        var r :| r in multiset(batch) && k in KeysBelow(r.chunkPath, r.total);
        assert r in batch && Covered(calls, r);
        var c :| c in calls && c.chunkPath == r.chunkPath && c.total >= r.total;
        KeysBelowGrow(r.chunkPath, r.total, c.total);
        assert c in multiset(calls);
      }
    }
  }

  // ---- the task ----

  datatype Event = Enqueue(chunkPath: string, total: int) | Receive | Tick | RunSpawned(k: nat)

  /** The request an event adds, when it is valid. */
  ghost function Requested(e: Event): seq<Request> {
    if e.Enqueue? && e.chunkPath != "" && e.total > 0 then [CleanupRequest(e.chunkPath, e.total)] else []
  }

  /** The naive worker: a DeleteChunks call for every valid request, at once and in order. */
  ghost function NaiveCalls(es: seq<Event>): seq<Request> {
    if es == [] then [] else NaiveCalls(es[..|es| - 1]) + Requested(es[|es| - 1])
  }

  /** Nothing is lost or duplicated, and the keys deleted are those of the processed requests.  Look(0) unfolds it. */
  ghost predicate Consistent(accepted: multiset<Request>, waiting: multiset<Request>, processed: multiset<Request>, calls: seq<Request>) {
    forall k: nat {:trigger Look(k)} :: Look(k) ==>
      && accepted == waiting + processed
      && (forall r | r in accepted :: Wanted(r))
      && KeysOf(multiset(calls)) == KeysOf(processed)
      && (forall c | c in calls :: c in processed)
  }

  lemma BatchProcessed(accepted: multiset<Request>, waiting: multiset<Request>, processed: multiset<Request>, calls: seq<Request>, rs: seq<Request>, made: seq<Request>)
    requires Consistent(accepted, waiting + multiset(rs), processed, calls) && Covers(made, rs)
    ensures Consistent(accepted, waiting, processed + multiset(rs), calls + made)
  {
    assert Look(0);
    assert multiset(calls + made) == multiset(calls) + multiset(made);
    KeysOfSum(multiset(calls), multiset(made));
    KeysOfSum(processed, multiset(rs));
    forall r | r in rs ensures Wanted(r) {
      assert r in multiset(rs) && r in accepted;
    }
    CoversKeys(made, rs);
    forall c | c in calls + made ensures c in processed + multiset(rs) {
      assert c in calls || c in made;
      if c in made { assert c in multiset(rs); }
    }
  }

  lemma OneMore(accepted: multiset<Request>, waiting: multiset<Request>, processed: multiset<Request>, calls: seq<Request>, req: Request)
    requires Consistent(accepted, waiting, processed, calls) && Wanted(req)
    ensures Consistent(accepted + multiset{req}, waiting + multiset{req}, processed, calls)
  {
    assert Look(0);
  }

  /** A request added to the channel or to the goroutines waits like the others. */
  lemma WaitsToo(channel: seq<Request>, batch: seq<Request>, spawned: seq<Request>, req: Request)
    ensures multiset(channel + [req]) + multiset(batch) + multiset(spawned)
            == multiset(channel) + multiset(batch) + multiset(spawned) + multiset{req}
    ensures multiset(channel) + multiset(batch) + multiset(spawned + [req])
            == multiset(channel) + multiset(batch) + multiset(spawned) + multiset{req}
  {
  }

  lemma TakenOut(spawned: seq<Request>, k: nat)
    requires k < |spawned|
    ensures multiset(spawned) == multiset(spawned[..k] + spawned[k + 1..]) + multiset([spawned[k]])
    ensures multiset([spawned[k]]) == multiset{spawned[k]}
  {
    assert spawned == spawned[..k] + [spawned[k]] + spawned[k + 1..];
  }

  class CleanupTask {
    var channel: seq<Request>
    var batch: seq<Request>
    var spawned: seq<Request>               // goroutines not yet run
    ghost var accepted: multiset<Request>   // every valid request so far
    ghost var processed: multiset<Request>
    ghost var calls: seq<Request>           // DeleteChunks calls, in order

    ghost predicate Valid()
      reads this
    {
      && |channel| <= 128 && |batch| < 16
      && Consistent(accepted, Waiting(), processed, calls)
    }

    /** Requests not yet processed. */
    ghost function Waiting(): multiset<Request>
      reads this
    {
      multiset(channel) + multiset(batch) + multiset(spawned)
    }

    constructor ()
      ensures Valid() && accepted == multiset{} && calls == []
    {
      channel, batch, spawned, accepted, processed, calls := [], [], [], multiset{}, multiset{}, [];
    }

    /** A full channel does not block the caller: a goroutine takes the request instead. */
    method EnqueueChunkCleanup(chunkPath: string, total: int)
      requires Valid()
      modifies this
      ensures Valid() && processed == old(processed) && calls == old(calls) && batch == old(batch)
      ensures accepted == old(accepted) + if chunkPath == "" || total <= 0 then multiset{} else multiset{CleanupRequest(chunkPath, total)}
      ensures chunkPath == "" || total <= 0 ==> channel == old(channel) && spawned == old(spawned)
      ensures chunkPath != "" && total > 0 ==>
        var req := CleanupRequest(chunkPath, total);
        if |old(channel)| < 128 then channel == old(channel) + [req] && spawned == old(spawned)
        else channel == old(channel) && spawned == old(spawned) + [req]
    {
      if chunkPath == "" || total <= 0 { return; }
      Accept(CleanupRequest(chunkPath, total));
    }

    method Accept(req: Request)
      requires Valid() && Wanted(req)
      modifies this
      ensures Valid() && processed == old(processed) && calls == old(calls) && batch == old(batch)
      ensures accepted == old(accepted) + multiset{req}
      ensures if |old(channel)| < 128 then channel == old(channel) + [req] && spawned == old(spawned)
              else channel == old(channel) && spawned == old(spawned) + [req]
    {
      ghost var waiting := Waiting();
      WaitsToo(channel, batch, spawned, req);
      if |channel| < CLEANUP_QUEUE_SIZE {
        channel := channel + [req];
        assert Waiting() == waiting + multiset{req};
      } else {
        spawned := spawned + [req];
        assert Waiting() == waiting + multiset{req};
      }
      OneMore(accepted, waiting, processed, calls, req);
      accepted := accepted + multiset{req};
    }

    /** The worker receives one request; a full batch is processed at once. */
    method Receive() returns (ghost made: seq<Request>)
      requires Valid()
      modifies this
      ensures Valid() && accepted == old(accepted) && spawned == old(spawned) && calls == old(calls) + made
      ensures old(channel) == [] ==> made == [] && channel == [] && batch == old(batch) && processed == old(processed)
      ensures old(channel) != [] ==>
        var filled := old(batch) + [old(channel)[0]];
        && channel == old(channel)[1..]
        && if |filled| < 16 then made == [] && batch == filled && processed == old(processed)
           else Covers(made, filled) && batch == [] && processed == old(processed) + multiset(filled)
    {
      made := [];
      if |channel| == 0 { return; }
      var req := channel[0];
      assert channel == [req] + channel[1..];
      ghost var before := Waiting();
      channel, batch := channel[1..], batch + [req];
      assert before == Waiting();
      if |batch| >= CLEANUP_BATCH_SIZE { made := Flush(); }
    }

    /** The ticker fires. */
    method Tick() returns (ghost made: seq<Request>)
      requires Valid()
      modifies this
      ensures Valid() && accepted == old(accepted) && channel == old(channel) && spawned == old(spawned)
      ensures batch == [] && processed == old(processed) + multiset(old(batch))
      ensures calls == old(calls) + made && Covers(made, old(batch))
    {
      made := [];
      if |batch| > 0 { made := Flush(); }
    }

    method Flush() returns (ghost made: seq<Request>)
      requires |channel| <= CLEANUP_QUEUE_SIZE && Consistent(accepted, Waiting(), processed, calls)
      modifies this
      ensures Valid() && accepted == old(accepted) && channel == old(channel) && spawned == old(spawned)
      ensures batch == [] && processed == old(processed) + multiset(old(batch))
      ensures calls == old(calls) + made && Covers(made, old(batch))
    {
      ghost var rs := batch;
      ghost var waiting := multiset(channel) + multiset(spawned);
      assert multiset(channel) + multiset(batch) + multiset(spawned) == waiting + multiset(rs);
      made := ProcessBatch(batch);
      BatchProcessed(accepted, waiting, processed, old(calls), rs, made);
      batch := [];
      processed := processed + multiset(rs);
      assert multiset(channel) + multiset(batch) + multiset(spawned) == waiting;
    }

    /** A spawned goroutine runs to its end. */
    method RunSpawned(k: nat) returns (ghost made: seq<Request>)
      requires Valid() && k < |spawned|
      modifies this
      ensures Valid() && accepted == old(accepted) && channel == old(channel) && batch == old(batch)
      ensures spawned == old(spawned)[..k] + old(spawned)[k + 1..] && processed == old(processed) + multiset{old(spawned)[k]}
      ensures calls == old(calls) + made && Covers(made, [old(spawned)[k]])
    {
      ghost var rs := [spawned[k]];
      var rest := spawned[..k] + spawned[k + 1..];
      ghost var waiting := multiset(channel) + multiset(batch) + multiset(rest);
      TakenOut(spawned, k);
      assert Waiting() == waiting + multiset(rs);
      made := ProcessBatch([spawned[k]]);
      BatchProcessed(accepted, waiting, processed, old(calls), rs, made);
      spawned := rest;
      processed := processed + multiset(rs);
    }

    /** Deduplicate by path, then delete path by path in the map's arbitrary order. */
    method ProcessBatch(rs: seq<Request>) returns (ghost made: seq<Request>)
      modifies this`calls
      ensures calls == old(calls) + made && Covers(made, rs)
    {
      var dedup := Dedup(rs);
      made := DeleteAll(dedup, rs);
    }

    static method Dedup(rs: seq<Request>) returns (dedup: map<string, nat>)
      ensures forall p | p in dedup :: CleanupRequest(p, dedup[p]) in rs && p != "" && dedup[p] > 0
      ensures forall r | r in rs && r.chunkPath != "" && r.total > 0 :: r.chunkPath in dedup && dedup[r.chunkPath] >= r.total
    {
      dedup := map[];
      var i := 0;
      while i < |rs|
        invariant 0 <= i <= |rs|
        invariant forall p | p in dedup :: CleanupRequest(p, dedup[p]) in rs && Wanted(CleanupRequest(p, dedup[p]))
        invariant forall j | 0 <= j < i && Wanted(rs[j]) :: rs[j].chunkPath in dedup && dedup[rs[j].chunkPath] >= rs[j].total
      {
        var req := rs[i];
        if Wanted(req) && (req.chunkPath !in dedup || req.total > dedup[req.chunkPath]) {
          dedup := dedup[req.chunkPath := req.total];
        }
        i := i + 1;
      }
    }

    method DeleteAll(dedup: map<string, nat>, ghost rs: seq<Request>) returns (ghost made: seq<Request>)
      requires forall p | p in dedup :: CleanupRequest(p, dedup[p]) in rs && Wanted(CleanupRequest(p, dedup[p]))
      requires forall r | r in rs && Wanted(r) :: r.chunkPath in dedup && dedup[r.chunkPath] >= r.total
      modifies this`calls
      ensures calls == old(calls) + made && Covers(made, rs)
    {
      made := [];
      var todo := dedup.Keys;
      while todo != {}
        invariant todo <= dedup.Keys && calls == old(calls) + made
        invariant DistinctPaths(made)
        invariant forall c :: c in made <==> c.chunkPath in dedup && c.chunkPath !in todo && c.total == dedup[c.chunkPath]
        decreases todo
      {
        var path :| path in todo;
        todo := todo - {path};
        ghost var request := CleanupRequest(path, dedup[path]);
        assert request !in made;
        var failed := DeleteChunks(path, dedup[path]);
        made := made + [request];
      }
      forall r | r in rs && Wanted(r) ensures Covered(made, r) {
        assert CleanupRequest(r.chunkPath, dedup[r.chunkPath]) in made;
      }
    }

    /** The storage call; its error is only logged. */
    method DeleteChunks(path: string, total: nat) returns (failed: bool)
      modifies this`calls
      ensures calls == old(calls) + [CleanupRequest(path, total)]
    {
      calls := calls + [CleanupRequest(path, total)];
      failed := *;
    }

    method Step(e: Event)
      requires Valid()
      modifies this
      ensures Valid() && accepted == old(accepted) + multiset(Requested(e))
    {
      match e
      case Enqueue(chunkPath, total) => EnqueueChunkCleanup(chunkPath, total);
      case Receive => ghost var made := Receive();
      case Tick => ghost var made := Tick();
      case RunSpawned(k) => if k < |spawned| { ghost var made := RunSpawned(k); }
    }

    /** Any interleaving of enqueues, receives, ticks and goroutines: no valid request is lost or doubled. */
    method Serve(es: seq<Event>)
      requires Valid()
      modifies this
      ensures Valid() && accepted == old(accepted) + multiset(NaiveCalls(es))
      decreases |es|
    {
      if es != [] {
        var n := |es| - 1;
        Serve(es[..n]);
        Step(es[n]);
      }
    }
  }

  /**
   Of the keys the naive worker attempts, the batching one has attempted exactly those that
   are not only keys of waiting requests; it never attempts another key.
   */
  lemma RefinesNaive(es: seq<Event>, waiting: multiset<Request>, processed: multiset<Request>, calls: seq<Request>)
    requires Consistent(multiset(NaiveCalls(es)), waiting, processed, calls)
    ensures multiset(NaiveCalls(es)) == waiting + processed
    ensures KeysOf(multiset(calls)) + KeysOf(waiting) == KeysOf(multiset(NaiveCalls(es)))
    ensures waiting == multiset{} ==> KeysOf(multiset(calls)) == KeysOf(multiset(NaiveCalls(es)))
    ensures forall c | c in calls :: c in NaiveCalls(es)
  {
    assert Look(0);
    KeysOfSum(waiting, processed);
    if waiting == multiset{} { assert waiting + processed == processed; }
    forall c | c in calls ensures c in NaiveCalls(es) {
      assert c in multiset(NaiveCalls(es));
    }
  }

  /**
   A fresh task, after any sequence of enqueues, receives, ticks and goroutines: with the
   keys of what still waits, the keys attempted are those the naive worker attempts; with
   nothing waiting they are exactly those; and no other call was made.
   */
  method ServeFresh(es: seq<Event>) returns (task: CleanupTask)
    ensures fresh(task) && task.Valid()
    ensures multiset(NaiveCalls(es)) == task.Waiting() + task.processed
    ensures KeysOf(multiset(task.calls)) + KeysOf(task.Waiting()) == KeysOf(multiset(NaiveCalls(es)))
    ensures task.channel == [] && task.batch == [] && task.spawned == [] ==> KeysOf(multiset(task.calls)) == KeysOf(multiset(NaiveCalls(es)))
    ensures forall c | c in task.calls :: c in NaiveCalls(es)
  {
    task := new CleanupTask();
    task.Serve(es);
    assert task.accepted == multiset(NaiveCalls(es));
    RefinesNaive(es, task.Waiting(), task.processed, task.calls);
    assert task.channel == [] && task.batch == [] && task.spawned == [] ==> task.Waiting() == multiset{};
  }
}
