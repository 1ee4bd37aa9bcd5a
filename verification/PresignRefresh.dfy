/**
 Refreshing the write links of an upload's chunks.  A link is cached twice, in the chunk
 entity and in its row, with an expiry; a link with more than a minute left is kept.
 Presigning and the update may fail, and a failing update may still have been written.
 */
module PresignRefresh {
  import opened Basics
  import opened Keys

  // Times are in nanoseconds.
  const MINUTE := 60_000_000_000
  const LINK_LIFE := 15 * MINUTE
  const MARGIN := MINUTE

  /** put_url and presign_expired_at. */
  datatype Link = Link(url: string, expiresAt: Option<int>)

  predicate Usable(l: Link, now: int) {
    l.url != "" && l.expiresAt.Some? && l.expiresAt.value > now + 60_000_000_000
  }

  class UploadChunkEntity {
    const uuid: string
    const index: nat
    const storagePath: string
    const completed: bool
    var putURL: string
    var presignExpiredAt: Option<int>

    constructor (uuid: string, index: nat, storagePath: string, completed: bool, putURL: string, presignExpiredAt: Option<int>)
      ensures this.uuid == uuid && this.index == index && this.storagePath == storagePath && this.completed == completed
      ensures CurrentLink() == Link(putURL, presignExpiredAt)
    {
      this.uuid, this.index, this.storagePath, this.completed := uuid, index, storagePath, completed;
      this.putURL, this.presignExpiredAt := putURL, presignExpiredAt;
    }

    function CurrentLink(): Link
      reads this
    {
      Link(putURL, presignExpiredAt)
    }

    method SetPresign(putURL: string, expiredAt: int)
      modifies this
      ensures CurrentLink() == Link(putURL, Some(expiredAt))
    {
      this.putURL, this.presignExpiredAt := putURL, Some(expiredAt);
    }
  }

  // ---- what one iteration may do, on values ----

  /** One chunk as the loop sees it: its key, its entity's link, its row's link. */
  datatype View = View(key: string, done: bool, link: Link, row: Option<Link>) {
    predicate Agrees() { row == Some(link) }
  }

  datatype Outcome =
    | Kept(checked: int)
    | PresignFailed(key: string, checked: int)
    | UpdateFailed(key: string, checked: int, at: int, newLink: Link, written: bool)
    | Refreshed(key: string, checked: int, at: int, newLink: Link)

  /** What the outcome leaves in the entity and in the row. */
  function Settled(v: View, o: Outcome): View {
    match o
    case Kept(_) => v
    case PresignFailed(_, _) => v
    case UpdateFailed(_, _, _, l, written) => if written && v.row.Some? then v.(row := Some(l)) else v
    case Refreshed(_, _, _, l) => v.(link := l, row := if v.row.Some? then Some(l) else None)
  }

  /** Which outcomes are possible for a chunk. */
  ghost predicate Possible(v: View, o: Outcome) {
    && (o.Kept? <==> v.done || Usable(v.link, o.checked))
    && (o.Kept? || o.key == v.key)
    && (o.UpdateFailed? || o.Refreshed? ==>
          o.checked <= o.at && o.newLink.url != "" && o.newLink.expiresAt == Some(o.at + 900_000_000_000))
  }

  ghost predicate Settles(v: View, o: Outcome, v': View) { Possible(v, o) && v' == Settled(v, o) }

  ghost predicate Within(o: Outcome, start: int, end: int) {
    start <= o.checked <= end && (o.UpdateFailed? || o.Refreshed? ==> o.at <= end)
  }

  /** A link requested for a key, and the link if one was made. */
  datatype Ask = Ask(key: string, url: Option<string>)

  ghost function AskOf(o: Outcome): seq<Ask> {
    match o
    case Kept(_) => []
    case PresignFailed(key, _) => [Ask(key, None)]
    case UpdateFailed(key, _, _, l, _) => [Ask(key, Some(l.url))]
    case Refreshed(key, _, _, l) => [Ask(key, Some(l.url))]
  }

  /** The links requested, in order: what is recorded for a chunk is the link made for its key. */
  ghost function Asked(os: seq<Outcome>): seq<Ask> {
    if os == [] then [] else Asked(os[..|os| - 1]) + AskOf(os[|os| - 1])
  }

  /** The key a chunk's link is requested for: its own, or the prefix with its own index. */
  function RequestKey(storagePath: string, chunkPath: string, index: nat): (key: string)
    ensures storagePath != "" ==> key == storagePath
    ensures storagePath == "" ==> key == chunkPath + Decimal(index)
  {
    if storagePath != "" then storagePath else ChunkKey(chunkPath, index)
  }

  /** The chunk was passed over, or its link was requested for the key its fields give. */
  ghost predicate AskedForItself(ch: UploadChunkEntity?, chunkPath: string, o: Outcome) {
    o.Kept? || (ch != null && o.key == if ch.storagePath != "" then ch.storagePath else chunkPath + Decimal(ch.index))
  }

  // ---- the service ----

  class Refresher {
    var rows: map<string, Link>
    var clock: int
    ghost var asked: seq<Ask>

    constructor (rows: map<string, Link>, clock: int)
      ensures this.rows == rows && this.clock == clock && asked == []
    {
      this.rows, this.clock, asked := rows, clock, [];
    }

    /** time.Now(): never goes back. */
    method Now() returns (t: int)
      modifies this`clock
      ensures old(clock) <= clock == t
    {
      assert clock >= clock;
      t :| t >= clock;
      clock := t;
    }

    method PresignPutURL(key: string) returns (url: Option<string>)
      modifies this`asked
      ensures asked == old(asked) + [Ask(key, url)]
      ensures url.Some? ==> url.value != ""
    {
      var result: string := *;
      url := if result == "" then None else Some(result);
      asked := asked + [Ask(key, url)];
    }

    /** UpdatePresignByUUID: both columns of the row with this uuid, if there is one. */
    method UpdatePresignByUUID(uuid: string, link: Link) returns (err: bool, ghost written: bool)
      modifies this`rows
      ensures !err ==> written
      ensures rows == if written && uuid in old(rows) then old(rows)[uuid := link] else old(rows)
    {
      var reached: bool := *;
      var answered: bool := *;
      if reached && uuid in rows { rows := rows[uuid := link]; }
      written, err := reached, !(reached && answered);
    }

    /** A nil entry is passed over, like a completed chunk. */
    ghost function ViewOf(ch: UploadChunkEntity?, chunkPath: string): View
      reads this`rows, ch
    {
      if ch == null then View("", true, Link("", None), None)
      else View(RequestKey(ch.storagePath, chunkPath, ch.index), ch.completed, ch.CurrentLink(), if ch.uuid in rows then Some(rows[ch.uuid]) else None)
    }

    method RefreshOne(ch: UploadChunkEntity?, chunkPath: string) returns (ghost o: Outcome)
      modifies this, ch
      ensures Settles(old(ViewOf(ch, chunkPath)), o, ViewOf(ch, chunkPath))
      ensures Within(o, old(clock), clock) && old(clock) <= clock
      ensures asked == old(asked) + AskOf(o) && AskedForItself(ch, chunkPath, o)
      ensures rows.Keys == old(rows).Keys
      ensures forall u | u in rows && (ch == null || u != ch.uuid) :: rows[u] == old(rows)[u]
    {
      o := Kept(clock);
      if ch == null || ch.completed { return; }
      var key := ch.storagePath;
      if key == "" { key := chunkPath + Decimal(ch.index); }
      var checked := Now();
      var expiredAt := ch.presignExpiredAt;
      if ch.putURL != "" && expiredAt.Some? && expiredAt.value > checked + MARGIN {
        o := Kept(checked);
        return;
      }
      var putURL := PresignPutURL(key);
      if putURL.None? {
        o := PresignFailed(key, checked);
        return;
      }
      var at := Now();
      var link := Link(putURL.value, Some(at + LINK_LIFE));
      var err, written := UpdatePresignByUUID(ch.uuid, link);
      if err {
        o := UpdateFailed(key, checked, at, link, written);
        return;
      }
      ch.SetPresign(putURL.value, at + LINK_LIFE);
      o := Refreshed(key, checked, at, link);
    }

    ghost function Views(chunks: seq<UploadChunkEntity?>, chunkPath: string): (vs: seq<View>)
      reads this`rows, chunks
      ensures |vs| == |chunks| && forall i | 0 <= i < |chunks| :: vs[i] == ViewOf(chunks[i], chunkPath)
    {
      if chunks == [] then []
      else Views(chunks[..|chunks| - 1], chunkPath) + [ViewOf(chunks[|chunks| - 1], chunkPath)]
    }

    method RefreshNth(chunks: seq<UploadChunkEntity?>, i: nat, chunkPath: string) returns (ghost o: Outcome)
      requires i < |chunks| && Differ(chunks)
      modifies this, chunks[i]
      ensures Settles(old(Views(chunks, chunkPath))[i], o, Views(chunks, chunkPath)[i])
      ensures Views(chunks, chunkPath) == old(Views(chunks, chunkPath))[i := Views(chunks, chunkPath)[i]]
      ensures Within(o, old(clock), clock) && old(clock) <= clock
      ensures asked == old(asked) + AskOf(o) && AskedForItself(chunks[i], chunkPath, o)
      ensures SameElsewhere(old(rows), rows, chunks)
    {
      o := RefreshOne(chunks[i], chunkPath);
      forall j | 0 <= j < |chunks| && j != i ensures ViewOf(chunks[j], chunkPath) == old(ViewOf(chunks[j], chunkPath)) {
        assert Apart(chunks[i], chunks[j]) || Apart(chunks[j], chunks[i]);
      }
    }

    /** The loop over the upload's chunks; errors are logged and passed over. */
    method RefreshChunkPresign(chunks: seq<UploadChunkEntity?>, chunkPath: string) returns (ghost os: seq<Outcome>)
      requires Differ(chunks)
      modifies this, chunks
      ensures AllSettle(old(Views(chunks, chunkPath)), os, Views(chunks, chunkPath))
      ensures AllWithin(os, old(clock), clock)
      ensures asked == old(asked) + Asked(os)
      ensures forall i | 0 <= i < |os| :: AskedForItself(chunks[i], chunkPath, os[i])
      ensures SameElsewhere(old(rows), rows, chunks)
    {
      os := [];
      ghost var vs := Views(chunks, chunkPath);
      ghost var now := vs;
      var i := 0;
      while i < |chunks|
        invariant i <= |chunks| && now == Views(chunks, chunkPath)
        invariant Progress(vs, os, now, i) && AllWithin(os, old(clock), clock)
        invariant asked == old(asked) + Asked(os)
        invariant forall j | 0 <= j < i :: AskedForItself(chunks[j], chunkPath, os[j])
        invariant SameElsewhere(old(rows), rows, chunks)
      {
        label Before:
        ghost var o := RefreshNth(chunks, i, chunkPath);
        ghost var next := Views(chunks, chunkPath);
        ProgressNext(vs, os, now, i, o, next);
        WithinNext(os, o, old(clock), old@Before(clock), clock);
        SameTransitive(old(rows), old@Before(rows), rows, chunks);
        AskedSnoc(old(asked), os, o);
        os, now, i := os + [o], next, i + 1;
      }
      ProgressDone(vs, os, now);
    }
  }

  /** Different chunks have different uuids. */
  predicate Apart(one: UploadChunkEntity?, other: UploadChunkEntity?) {
    one != null && other != null ==> one.uuid != other.uuid
  }

  predicate Differ(chunks: seq<UploadChunkEntity?>) {
    forall i, j | 0 <= i < j < |chunks| :: Apart(chunks[i], chunks[j])
  }

  ghost predicate AllSettle(vs: seq<View>, os: seq<Outcome>, vs': seq<View>) {
    |vs| == |os| == |vs'| && forall i | 0 <= i < |vs| :: Settles(vs[i], os[i], vs'[i])
  }

  /** Only rows of these chunks differ. */
  ghost predicate SameElsewhere(was: map<string, Link>, rows: map<string, Link>, chunks: seq<UploadChunkEntity?>) {
    && rows.Keys == was.Keys
    && forall u | u in rows && !Owned(chunks, u) :: rows[u] == was[u]
  }

  ghost predicate Owned(chunks: seq<UploadChunkEntity?>, uuid: string) {
    exists i | 0 <= i < |chunks| :: chunks[i] != null && chunks[i].uuid == uuid
  }

  ghost predicate AllWithin(os: seq<Outcome>, start: int, end: int) {
    start <= end && forall i | 0 <= i < |os| :: Within(os[i], start, end)
  }

  // ---- one turn of the loop ----

  /** The first i chunks are settled, the others untouched. */
  ghost predicate Progress(vs: seq<View>, os: seq<Outcome>, now: seq<View>, i: nat) {
    |vs| == |now| && i <= |vs| && AllSettle(vs[..i], os, now[..i]) && now[i..] == vs[i..]
  }

  lemma ProgressNext(vs: seq<View>, os: seq<Outcome>, now: seq<View>, i: nat, o: Outcome, next: seq<View>)
    requires Progress(vs, os, now, i) && i < |vs| == |next|
    requires Settles(now[i], o, next[i]) && next == now[i := next[i]]
    ensures Progress(vs, os + [o], next, i + 1)
  {
    assert vs[i] == vs[i..][0] == now[i..][0] == now[i];
    assert vs[..i + 1] == vs[..i] + [vs[i]] && next[..i + 1] == now[..i] + [next[i]];
    assert next[i + 1..] == now[i..][1..] == vs[i..][1..] == vs[i + 1..];
  }

  lemma ProgressDone(vs: seq<View>, os: seq<Outcome>, now: seq<View>)
    requires Progress(vs, os, now, |vs|)
    ensures AllSettle(vs, os, now)
  {
    assert vs[..|vs|] == vs && now[..|vs|] == now;
  }

  lemma WithinNext(os: seq<Outcome>, o: Outcome, start: int, before: int, end: int)
    requires AllWithin(os, start, before) && before <= end && Within(o, before, end)
    ensures AllWithin(os + [o], start, end)
  {
  }

  lemma SameTransitive(was: map<string, Link>, mid: map<string, Link>, rows: map<string, Link>, chunks: seq<UploadChunkEntity?>)
    requires SameElsewhere(was, mid, chunks) && SameElsewhere(mid, rows, chunks)
    ensures SameElsewhere(was, rows, chunks)
  {
  }

  lemma AskedSnoc(was: seq<Ask>, os: seq<Outcome>, o: Outcome)
    ensures was + Asked(os + [o]) == was + Asked(os) + AskOf(o)
  {
    assert (os + [o])[..|os|] == os;
  }

  // ---- what the loop achieves ----

  /**
   Entity and row agree afterwards, if they did before, exactly when no update was written
   whose answer was an error.
   */
  lemma AgreementKeptIff(v: View, o: Outcome, v': View)
    requires Settles(v, o, v') && v.Agrees()
    ensures v'.Agrees() <==> !(o.UpdateFailed? && o.written)
  {
  }

  /**
   Completed chunks and links with more than a minute left are untouched; of the others,
   exactly those without an error end with a link good for more than a minute after its check.
   */
  lemma RefreshMeets(v: View, o: Outcome, v': View)
    requires Settles(v, o, v')
    ensures v.done || Usable(v.link, o.checked) ==> v' == v
    ensures !v.done ==> (Usable(v'.link, o.checked) <==> o.Kept? || o.Refreshed?)
    ensures !v.done && v.Agrees() && (o.Kept? || o.Refreshed?) ==> v'.row.Some? && Usable(v'.row.value, o.checked)
  {
  }

  ghost predicate AskedFor(asks: seq<Ask>, key: string) { exists i | 0 <= i < |asks| :: asks[i].key == key }

  lemma {:induction false} AskedWhen(os: seq<Outcome>, key: string)
    ensures AskedFor(Asked(os), key) <==> exists i | 0 <= i < |os| :: !os[i].Kept? && os[i].key == key
  {
    if os != [] {
      var n := |os| - 1;
      AskedWhen(os[..n], key);
      AskedForBoth(Asked(os[..n]), AskOf(os[n]), key);
      assert os == os[..n] + [os[n]];
      if AskedFor(Asked(os[..n]), key) {
        var i :| 0 <= i < n && !os[..n][i].Kept? && os[..n][i].key == key;
        assert os[i] == os[..n][i];
      }
      if !os[n].Kept? && os[n].key == key { assert AskOf(os[n])[0].key == key; }
    }
  }

  lemma AskedForBoth(a: seq<Ask>, b: seq<Ask>, key: string)
    ensures AskedFor(a + b, key) <==> AskedFor(a, key) || AskedFor(b, key)
  {
    if AskedFor(a, key) {
      var i :| 0 <= i < |a| && a[i].key == key;
      assert (a + b)[i].key == key;
    }
    if AskedFor(b, key) {
      var i :| 0 <= i < |b| && b[i].key == key;
      assert (a + b)[|a| + i].key == key;
    }
  }

  /**
   Two refreshes of the same chunks: a link the first one made is asked for again by the
   second exactly when the second looks at it fourteen minutes or more after it was made.
   */
  lemma SecondRefreshIff(vs: seq<View>, os: seq<Outcome>, vs': seq<View>, os': seq<Outcome>, k: nat)
    requires AllSettle(vs, os, vs') && |os'| == |vs'| && k < |vs|
    requires forall i | 0 <= i < |vs| :: Possible(vs'[i], os'[i])
    requires forall i, j | 0 <= i < j < |vs| && !vs[i].done && !vs[j].done :: vs[i].key != vs[j].key
    requires os[k].Refreshed?
    ensures AskedFor(Asked(os'), vs[k].key) <==> os'[k].checked >= os[k].at + 14 * 60_000_000_000
  {
    AskedWhen(os', vs[k].key);
    assert Possible(vs'[k], os'[k]) && Settles(vs[k], os[k], vs'[k]);
    forall i | 0 <= i < |os'| && !os'[i].Kept? && os'[i].key == vs[k].key ensures i == k {
      assert Settles(vs[i], os[i], vs'[i]) && Possible(vs'[i], os'[i]);
    }
  }

  // ---- refreshes one after another ----

  /** A refresh as one chunk sees it: whether its row was completed when it was read, and what happened. */
  datatype Turn = Turn(done: bool, outcome: Outcome)

  /** Every refresh reads the row again. */
  function Read(v: View, done: bool): View { v.(done := done, link := if v.row.Some? then v.row.value else v.link) }

  function After(v: View, turns: seq<Turn>): View {
    if turns == [] then v
    else
      var n := |turns| - 1;
      Settled(Read(After(v, turns[..n]), turns[n].done), turns[n].outcome)
  }

  ghost predicate AllPossible(v: View, turns: seq<Turn>) {
    forall i | 0 <= i < |turns| :: Possible(Read(After(v, turns[..i]), turns[i].done), turns[i].outcome)
  }

  predicate Lost(o: Outcome) { o.UpdateFailed? && o.written }
  predicate Writes(o: Outcome) { o.Refreshed? || Lost(o) }

  /** Exactly the writes put a new link into a row. */
  lemma WritesAre(v: View, o: Outcome)
    requires v.row.Some?
    ensures Writes(o) ==> Settled(v, o).row == Some(o.newLink)
    ensures !Writes(o) ==> Settled(v, o).row == v.row
  {
  }

  /** Any chunk that needs a link may get one recorded whose answer is lost: then it has the old one, its row the new one. */
  lemma AnswerMayBeLost(v: View, checked: int) returns (o: Outcome)
    requires !v.done && !Usable(v.link, checked) && v.Agrees()
    ensures Possible(v, o) && o.checked == checked && Lost(o)
    ensures !Settled(v, o).Agrees() && Settled(v, o).link == v.link && Usable(Settled(v, o).row.value, checked)
  {
    o := UpdateFailed(v.key, checked, checked, Link("new", Some(checked + 900_000_000_000)), true);
  }

  /** Over any refreshes, entity and row differ exactly when the last answer was lost: the next refresh heals it. */
  lemma DifferIff(v: View, turns: seq<Turn>)
    requires v.row.Some? && turns != [] && AllPossible(v, turns)
    ensures After(v, turns).Agrees() <==> !Lost(turns[|turns| - 1].outcome)
  {
    var n := |turns| - 1;
    RowStays(v, turns[..n]);
    var before := Read(After(v, turns[..n]), turns[n].done);
    assert Settles(before, turns[n].outcome, After(v, turns));
    AgreementKeptIff(before, turns[n].outcome, After(v, turns));
  }

  lemma {:induction false} RowStays(v: View, turns: seq<Turn>)
    requires v.row.Some?
    ensures After(v, turns).row.Some? && After(v, turns).key == v.key
  {
    if turns != [] { RowStays(v, turns[..|turns| - 1]); }
  }

  /** The row holds the link written last. */
  lemma {:induction false} LastWriteStands(v: View, turns: seq<Turn>, i: nat)
    requires v.row.Some? && i < |turns| && Writes(turns[i].outcome)
    requires forall m | i < m < |turns| :: !Writes(turns[m].outcome)
    ensures After(v, turns).row == Some(turns[i].outcome.newLink)
  {
    var n := |turns| - 1;
    RowStays(v, turns[..n]);
    if i < n { LastWriteStands(v, turns[..n], i); }
  }

  /**
   A chunk not completed asks for a link again exactly from fourteen minutes after the one
   written last, whatever failed or was lost in between.
   */
  lemma AskedAgainIff(v: View, turns: seq<Turn>, i: nat, m: nat)
    requires v.row.Some? && AllPossible(v, turns) && i < m < |turns| && Writes(turns[i].outcome) && !turns[m].done
    requires forall k | i < k < m :: !Writes(turns[k].outcome)
    ensures !turns[m].outcome.Kept? <==> turns[m].outcome.checked >= turns[i].outcome.at + 14 * 60_000_000_000
  {
    LastWriteStands(v, turns[..m], i);
    assert Possible(Read(After(v, turns[..i]), turns[i].done), turns[i].outcome);
    assert Possible(Read(After(v, turns[..m]), turns[m].done), turns[m].outcome);
  }

  lemma NextWrite(v: View, turns: seq<Turn>, i: nat, m: nat)
    requires v.row.Some? && AllPossible(v, turns) && i < m < |turns| && Writes(turns[i].outcome) && Writes(turns[m].outcome)
    requires forall k | i < k < m :: !Writes(turns[k].outcome)
    ensures turns[m].outcome.at >= turns[i].outcome.at + 14 * 60_000_000_000
  {
    assert Possible(Read(After(v, turns[..m]), turns[m].done), turns[m].outcome);
    AskedAgainIff(v, turns, i, m);
  }

  /** From one recorded link to another, over any refreshes, at least fourteen minutes pass for each link recorded on the way. */
  lemma {:induction false} WritesApart(v: View, turns: seq<Turn>, i: nat, j: nat)
    requires v.row.Some? && AllPossible(v, turns) && i < j < |turns|
    requires Writes(turns[i].outcome) && Writes(turns[j].outcome)
    ensures MinutesApart(turns[i].outcome.at, turns[j].outcome.at, Count(turns[i..j]))
    decreases j
  {
    var l := LastBefore(turns, i, j);
    NextWrite(v, turns, l, j);
    OneMoreWrite(turns, i, l, j);
    if i < l { WritesApart(v, turns, i, l); }
    OneMoreGap(turns[i].outcome.at, turns[l].outcome.at, turns[j].outcome.at, Count(turns[i..l]));
  }

  /** From `first` to `last` at least n times fourteen minutes pass. */
  predicate MinutesApart(first: int, last: int, n: nat) { last - first >= n * (14 * 60_000_000_000) }

  lemma OneMoreGap(first: int, last: int, next: int, n: nat)
    requires MinutesApart(first, last, n) && next >= last + 14 * 60_000_000_000
    ensures MinutesApart(first, next, n + 1)
  {
  }

  lemma OneMoreWrite(turns: seq<Turn>, i: nat, l: nat, j: nat)
    requires i <= l < j <= |turns| && Writes(turns[l].outcome) && forall k | l < k < j :: !Writes(turns[k].outcome)
    ensures Count(turns[i..j]) == Count(turns[i..l]) + 1
    ensures i == l ==> Count(turns[i..j]) == 1
  {
    NoWrites(turns, l, j);
    CountSplit(turns, i, l, j);
  }

  /** How many of the refreshes recorded a link. */
  function Count(turns: seq<Turn>): nat {
    if turns == [] then 0
    else Count(turns[..|turns| - 1]) + if Writes(turns[|turns| - 1].outcome) then 1 else 0
  }

  lemma {:induction false} LastBefore(turns: seq<Turn>, i: nat, j: nat) returns (l: nat)
    requires i < j <= |turns| && Writes(turns[i].outcome)
    ensures i <= l < j && Writes(turns[l].outcome) && forall k | l < k < j :: !Writes(turns[k].outcome)
  {
    l := j - 1;
    if !Writes(turns[l].outcome) { l := LastBefore(turns, i, j - 1); }
  }

  lemma {:induction false} NoWrites(turns: seq<Turn>, l: nat, j: nat)
    requires l < j <= |turns| && Writes(turns[l].outcome) && forall k | l < k < j :: !Writes(turns[k].outcome)
    ensures Count(turns[l..j]) == 1
    decreases j
  {
    assert turns[l..j][..j - l - 1] == turns[l..j - 1];
    if l + 1 < j { NoWrites(turns, l, j - 1); } else { assert turns[l..l] == []; }
  }

  lemma {:induction false} CountSplit(turns: seq<Turn>, i: nat, l: nat, j: nat)
    requires i <= l <= j <= |turns|
    ensures Count(turns[i..j]) == Count(turns[i..l]) + Count(turns[l..j])
    decreases j
  {
    if l < j {
      CountSplit(turns, i, l, j - 1);
      assert turns[i..j][..j - i - 1] == turns[i..j - 1];
      assert turns[l..j][..j - l - 1] == turns[l..j - 1];
    } else {
      assert turns[l..j] == [];
    }
  }
}
