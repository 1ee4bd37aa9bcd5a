/**
 Does a merged object come to stand at its StoragePath?  The path is announced to the video
 service and the transcoder as it is, but the requests that make the object name what
 net/url makes of it: only an extension without '%', '#', '?' and control bytes is safe.
 */
module Addresses {
  import opened Basics
  import opened Keys
  import opened Texts
  import opened Destinations
  import opened Percent
  import opened Url
  import opened Presign
  import opened Protocol
  import opened Invariant
  import opened Theorems
  import opened Sizes

  // ---- the text of a request ----

  const BUCKET := Ascii("uploads")

  /** The URL of a request for the path, from the end of the host on. */
  function RequestText(e: Endpoint, path: string, query: Bytes): Bytes
    requires ByteText(path)
  {
    ObjectText(e, BUCKET, Ascii(path)) + [QUESTION] + query
  }

  /** u.RawQuery after neturl.Parse. */
  function RawQuery(text: Bytes): Bytes { Cut(Cut(text, HASH).0, QUESTION).1 }

  /** The request is made, and arrives with its own query. */
  predicate Arrives(text: Bytes, query: Bytes) { ParsedPath(text).Some? && RawQuery(text) == query }

  /** As Values.Encode writes one. */
  predicate EncodedQuery(query: Bytes) { HASH !in query && !HasControl(query) }

  function Base(e: Endpoint): Bytes { e.base + [SLASH] + BUCKET }

  lemma TextIs(e: Endpoint, path: string, query: Bytes)
    requires ByteText(path) && path != "" && path[0] != '/'
    ensures RequestText(e, path, query) == Base(e) + [SLASH] + Ascii(path) + [QUESTION] + query
  {
    assert TrimSlashes(Ascii(path)) == Ascii(path);
  }

  lemma PlainBase(e: Endpoint)
    requires PlainPath(e.base)
    ensures PlainPath(Base(e)) && Unambiguous(Base(e)) && Unescape(Base(e), false) == Some(Base(e))
  {
    assert PlainPath(BUCKET);
    PlainIsUnambiguous(Base(e));
    NothingToDecode(Base(e));
  }

  lemma UncutBytes(path: string)
    requires ByteText(path)
    ensures Uncut(path) <==> HASH !in Ascii(path) && QUESTION !in Ascii(path) && !HasControl(Ascii(path))
  {
    var b := Ascii(path);
    if Uncut(path) {
      forall i | 0 <= i < |b| ensures b[i] != HASH && b[i] != QUESTION && b[i] >= 32 && b[i] != 127 { assert UncutChar(path[i]); }
    } else {
      var i :| 0 <= i < |path| && !UncutChar(path[i]);
      assert b[i] == path[i] as int;
      assert b[i] in b;
    }
  }

  /** Uncut text arrives with its query, and names the decoded path. */
  lemma UncutArrives(e: Endpoint, path: string, query: Bytes)
    requires PlainPath(e.base) && ByteText(path) && path != "" && path[0] != '/' && Uncut(path) && EncodedQuery(query)
    ensures RawQuery(RequestText(e, path, query)) == query
    ensures ParsedPath(RequestText(e, path, query)) ==
      if Decoded(path).None? then None else Some(Base(e) + [SLASH] + Ascii(Decoded(path).value))
  {
    var text, before := RequestText(e, path, query), Base(e) + [SLASH] + Ascii(path);
    TextIs(e, path, query);
    PlainBase(e);
    UncutBytes(path);
    NoCut(before, query);
    UnescapeAcross(Base(e), SLASH, Ascii(path));
    if Decoded(path).Some? { assert Ascii(Decoded(path).value) == Unescape(Ascii(path), false).value; }
  }

  /** Path and query of a text without '#', other '?' and control bytes. */
  lemma NoCut(before: Bytes, query: Bytes)
    requires HASH !in before && QUESTION !in before && !HasControl(before) && EncodedQuery(query)
    ensures var text := before + [QUESTION] + query; RawQuery(text) == query && ParsedPath(text) == Unescape(before, false)
  {
    var text := before + [QUESTION] + query;
    NoControl(before, query);
    assert HASH !in text && Cut(text, HASH) == (text, []);
    CutAt(before, QUESTION, query);
  }

  lemma NoControl(a: Bytes, b: Bytes)
    ensures HasControl(a + [QUESTION] + b) <==> HasControl(a) || HasControl(b)
  {
    var s := a + [QUESTION] + b;
    if i :| 0 <= i < |a| && (a[i] < 32 || a[i] == 127) { assert s[i] == a[i]; }
    if i :| 0 <= i < |b| && (b[i] < 32 || b[i] == 127) { assert s[|a| + 1 + i] == b[i]; }
  }

  lemma QueryBeforeHash(before: Bytes, rest: Bytes)
    requires HASH !in before
    ensures RawQuery(before + [HASH] + rest) == Cut(before, QUESTION).1
  {
    CutAt(before, HASH, rest);
  }

  /** Behind a '#' the query is lost: every request with this path arrives with the same one. */
  lemma HashLosesQuery(e: Endpoint, path: string, q: Bytes) returns (same: Bytes)
    requires ByteText(path) && path != "" && path[0] != '/' && PlainPath(e.base) && HASH in Ascii(path)
    ensures same == Cut(Base(e) + [SLASH] + Cut(Ascii(path), HASH).0, QUESTION).1
    ensures RawQuery(RequestText(e, path, q)) == same
  {
    var (a, rest) := Cut(Ascii(path), HASH);
    var before := Base(e) + [SLASH] + a;
    PlainBase(e);
    TextIs(e, path, q);
    assert RequestText(e, path, q) == before + [HASH] + (rest + [QUESTION] + q);
    QueryBeforeHash(before, rest + [QUESTION] + q);
    same := Cut(before, QUESTION).1;
  }

  /** A '?' of the path's own makes every query longer. */
  lemma QuestionSpoilsQuery(e: Endpoint, path: string, q: Bytes)
    requires ByteText(path) && path != "" && path[0] != '/' && PlainPath(e.base)
    requires HASH !in Ascii(path) && QUESTION in Ascii(path) && EncodedQuery(q)
    ensures RawQuery(RequestText(e, path, q)) != q
  {
    var text := RequestText(e, path, q);
    var (a, rest) := Cut(Ascii(path), QUESTION);
    var before := Base(e) + [SLASH] + a;
    PlainBase(e);
    TextIs(e, path, q);
    assert text == before + [QUESTION] + (rest + [QUESTION] + q);
    assert HASH !in text && Cut(text, HASH) == (text, []);
    CutAt(before, QUESTION, rest + [QUESTION] + q);
    assert |rest + [QUESTION] + q| > |q|;
  }

  /**
   A merge sends requests with different queries to one path.  All of them arrive with their
   own exactly when the path has a destination, and then they name it.
   */
  lemma MergeNamedIff(e: Endpoint, path: string, q: Bytes, r: Bytes)
    requires PlainPath(e.base) && ByteText(path) && path != "" && path[0] != '/' && EncodedQuery(q) && EncodedQuery(r) && q != r
    ensures Arrives(RequestText(e, path, q), q) && Arrives(RequestText(e, path, r), r) <==> StoreKey(path).Some?
    ensures StoreKey(path).Some? ==> ByteText(StoreKey(path).value)
    ensures StoreKey(path).Some? ==> ParsedPath(RequestText(e, path, q)) == Some(Base(e) + [SLASH] + Ascii(StoreKey(path).value))
  {
    StoreKeyIs(path);
    UncutBytes(path);
    if Uncut(path) {
      UncutArrives(e, path, q);
      UncutArrives(e, path, r);
    } else if HASH in Ascii(path) {
      var x := HashLosesQuery(e, path, q);
      var y := HashLosesQuery(e, path, r);
    } else if QUESTION in Ascii(path) {
      QuestionSpoilsQuery(e, path, q);
    } else {
      RefusedForControl(e, path, q);
    }
  }

  lemma RefusedForControl(e: Endpoint, path: string, q: Bytes)
    requires ByteText(path) && path != "" && path[0] != '/' && PlainPath(e.base) && EncodedQuery(q)
    requires HASH !in Ascii(path) && HasControl(Ascii(path))
    ensures ParsedPath(RequestText(e, path, q)).None?
  {
    var text, before := RequestText(e, path, q), Base(e) + [SLASH] + Ascii(path);
    TextIs(e, path, q);
    PlainBase(e);
    assert HASH !in text && Cut(text, HASH) == (text, []);
    var i :| 0 <= i < |path| && (Ascii(path)[i] < 32 || Ascii(path)[i] == 127);
    assert before[|Base(e)| + 1 + i] == Ascii(path)[i];
    NoControl(before, q);
  }

  // ---- when the path names itself ----

  /** It stands for itself in the path of a URL. */
  predicate CleanChar(c: char) { UncutChar(c) && c != '%' }

  predicate Clean(s: string) { All(s, CleanChar) }

  lemma {:induction false} UnescapeShrinks(s: Bytes)
    requires Unescape(s, false).Some?
    ensures |Unescape(s, false).value| <= |s| && (PERCENT in s ==> |Unescape(s, false).value| < |s|)
  {
    if s != [] {
      if s[0] == PERCENT {
        UnescapeShrinks(s[3..]);
      } else {
        UnescapeShrinks(s[1..]);
        assert s == [s[0]] + s[1..];
      }
    }
  }

  lemma DecodesToItselfIff(s: string)
    requires ByteText(s)
    ensures Decoded(s) == Some(s) <==> '%' !in s
  {
    if '%' !in s {
      PlainDecodes(s);
    } else if Decoded(s).Some? {
      var i :| 0 <= i < |s| && s[i] == '%';
      assert Ascii(s)[i] == PERCENT;
      UnescapeShrinks(Ascii(s));
    }
  }

  lemma CleanIff(s: string)
    ensures Clean(s) <==> Uncut(s) && '%' !in s
  {
    if Uncut(s) && '%' !in s {
      forall i | 0 <= i < |s| ensures CleanChar(s[i]) { assert UncutChar(s[i]) && s[i] in s; }
    }
    if Clean(s) {
      forall i | 0 <= i < |s| ensures UncutChar(s[i]) && s[i] != '%' { assert CleanChar(s[i]); }
    }
  }

  /** The requests for a StoragePath name that very path exactly when its extension is clean. */
  lemma ItselfIff(p: string, user: string, u: string, f: string)
    requires ValidUuid(u) && IsStoragePath(p, user, u, f) && Clean(user) && ByteText(p)
    ensures StoreKey(p) == Some(p) <==> Clean(Extension(f))
  {
    var d: Date :| d.Valid() && p == GenerateStoragePath(user, d, u, f);
    AllStoragePath(user, d, u, Extension(f), CleanChar);
    StoreKeyIs(p);
    CleanIff(p);
    DecodesToItselfIff(p);
  }

  /** Every StoragePath the service generated is a text of bytes that starts with a letter. */
  lemma PathIsBytes(p: string, user: ByteString, u: string, f: ByteString)
    requires ValidUuid(u) && IsStoragePath(p, user, u, f)
    ensures ByteText(p) && p != "" && p[0] == 'u'
  {
    var d: Date :| d.Valid() && p == GenerateStoragePath(user, d, u, f);
    var x := Extension(f);
    var isByte := (c: char) => c < 256 as char;
    assert All(user, isByte) && All(x, isByte);
    AllStoragePath(user, d, u, x, isByte);
    assert p[0] == "uploads"[0];
    forall i | 0 <= i < |p| ensures p[i] < 256 as char { assert isByte(p[i]); }
  }

  /** In every reachable state: an upload's merges put the object at its StoragePath exactly when the extension is clean. */
  lemma StoragePathNamedIff(s: State, u: string)
    requires Reachable(s) && u in s.uploads && Clean(s.uploads[u].user)
    ensures StoreKey(s.uploads[u].storagePath) == Some(s.uploads[u].storagePath) <==> Clean(Extension(s.uploads[u].fileName))
  {
    var es :| Run(es) == Some(s);
    RunKeeps(es);
    assert UploadLaid(s, u);
    var row := s.uploads[u];
    PathIsBytes(row.storagePath, row.user, u, row.fileName);
    ItselfIff(row.storagePath, row.user, u, row.fileName);
  }

  // ---- what stands at the announced path ----

  /** No other upload's object stands at a StoragePath, and no chunk. */
  lemma OnlyItsOwn(s: State, u: string)
    requires Inv(s) && u in s.uploads && s.uploads[u].storagePath in s.objects && Clean(s.uploads[u].user)
    ensures StoreKey(s.uploads[u].storagePath) == Some(s.uploads[u].storagePath)
  {
    var p := s.uploads[u].storagePath;
    assert KeyOfRow(s, p) && UploadLaid(s, u);
    var row := s.uploads[u];
    var d: Date :| d.Valid() && p == GenerateStoragePath(row.user, d, u, row.fileName);
    if c :| c in s.chunks && s.chunks[c].key == p {
      assert ChunkLaid(s, c);
      var up := s.chunks[c].upload;
      assert UploadLaid(s, up);
      ChunkIsNotMerged(s.uploads[up].chunkPath, up, s.chunks[c].index, row.user, d, u, Extension(row.fileName));
    } else {
      var v :| v in s.uploads && StoreKey(s.uploads[v].storagePath) == Some(p);
      assert UploadLaid(s, v);
      var other := s.uploads[v];
      var e := KeyIsPath(other.storagePath, other.user, v, other.fileName);
      assert Look(0);
      StoragePathsApart(row.user, d, u, Extension(row.fileName), Decoded(other.user).value, e, v, Decoded(Extension(other.fileName)).value);
    }
  }

  /**
   An upload that is Success, or has a video, has an object at its StoragePath exactly when
   its extension is clean; then it is the concatenation of the chunk bodies.
   */
  lemma StandsThereIff(s: State, u: string)
    requires Reachable(s) && ((u in s.uploads && s.uploads[u].status == Success) || HasVideo(s, u))
    requires u in s.uploads && Clean(s.uploads[u].user)
    ensures s.uploads[u].storagePath in s.objects <==> Clean(Extension(s.uploads[u].fileName))
    ensures s.uploads[u].storagePath in s.objects ==>
      AllDone(s, u) && s.objects[s.uploads[u].storagePath] == Concat(s.body, s.ids[u])
  {
    var es :| Run(es) == Some(s);
    RunKeeps(es);
    SuccessMeansRightBytes(s, u);
    StoragePathNamedIff(s, u);
    if s.uploads[u].storagePath in s.objects { OnlyItsOwn(s, u); }
  }

  /** No byte is lost at the literal paths, for every upload with a clean extension. */
  lemma BytesAtPath(s: State, u: string)
    requires Reachable(s) && u in s.uploads && Clean(s.uploads[u].user) && Clean(Extension(s.uploads[u].fileName))
    ensures u in s.ids
    ensures || (AllDone(s, u) && s.uploads[u].storagePath in s.objects && s.objects[s.uploads[u].storagePath] == Concat(s.body, s.ids[u]))
            || (forall i | 0 <= i < |s.ids[u]| && s.ids[u][i] in s.body :: AtKey(s, u, i))
  {
    StoragePathNamedIff(s, u);
    BytesConserved(s, u);
  }

  // ---- what is signed ----

  lemma PlainAscii(s: string)
    requires ByteText(s)
    ensures PlainPath(Ascii(s)) <==> PlainText(s)
  {
    forall i | 0 <= i < |s| ensures PlainByte(Ascii(s)[i]) <==> PlainChar(s[i]) {
    }
    if PlainPath(Ascii(s)) {
      forall i | 0 <= i < |s| ensures PlainChar(s[i]) { assert PlainByte(Ascii(s)[i]); }
    }
  }

  /** A verifier computes, from what is sent, the path that was signed. */
  predicate SignedAsSent(text: Bytes) {
    ParsedPath(text).Some? && VerifiedPath(SentPath(text)) == ParsedPath(text)
  }

  lemma PlainTail(before: Bytes, k: Bytes)
    requires PlainPath(before)
    ensures PlainPath(before + [SLASH] + k) <==> PlainPath(k)
  {
    var s := before + [SLASH] + k;
    if PlainPath(s) {
      forall i | 0 <= i < |k| ensures PlainByte(k[i]) { assert s[|before| + 1 + i] == k[i]; }
    }
  }

  /** A request that names k is signed for what is sent exactly when k is plain. */
  lemma SignedWhenPlain(e: Endpoint, path: string, q: Bytes)
    requires PlainPath(e.base) && ByteText(path) && path != "" && path[0] != '/' && EncodedQuery(q) && StoreKey(path).Some?
    ensures SignedAsSent(RequestText(e, path, q)) <==> PlainText(StoreKey(path).value)
  {
    StoreKeyIs(path);
    UncutArrives(e, path, q);
    PathsAgreeIff(RequestText(e, path, q));
    PlainBase(e);
    PlainTail(Base(e), Ascii(StoreKey(path).value));
    PlainAscii(StoreKey(path).value);
  }

  lemma PlainIsClean(s: string)
    requires PlainText(s)
    ensures Clean(s) && ByteText(s) && Decoded(s) == Some(s)
  {
    forall i | 0 <= i < |s| ensures CleanChar(s[i]) && s[i] < 256 as char { assert PlainChar(s[i]); }
    CleanIff(s);
    PlainDecodes(s);
  }

  /** The key of a merged object is plain exactly when the decoded extension is. */
  lemma PlainKeyIff(p: string, user: string, u: string, f: string)
    requires ValidUuid(u) && IsStoragePath(p, user, u, f) && PlainText(user) && StoreKey(p).Some?
    ensures Decoded(Extension(f)).Some?
    ensures PlainText(StoreKey(p).value) <==> PlainText(Decoded(Extension(f)).value)
  {
    var d := KeyIsPath(p, user, u, f);
    PlainIsClean(user);
    AllStoragePath(user, d, u, Decoded(Extension(f)).value, PlainChar);
  }

  /**
   In every reachable state: the requests for an upload's StoragePath name it and are signed
   for what a verifier computes exactly when the extension is plain.  Requests that name any
   path are signed so exactly when the decoded extension is plain.
   */
  lemma MergeSignedIff(s: State, u: string, e: Endpoint, q: Bytes)
    requires Reachable(s) && u in s.uploads && PlainText(s.uploads[u].user) && PlainPath(e.base) && EncodedQuery(q)
    ensures var path, x := s.uploads[u].storagePath, Extension(s.uploads[u].fileName);
      && ByteText(path)
      && (StoreKey(path) == Some(path) && SignedAsSent(RequestText(e, path, q)) <==> PlainText(x))
      && (StoreKey(path).Some? ==> Decoded(x).Some? && (SignedAsSent(RequestText(e, path, q)) <==> PlainText(Decoded(x).value)))
  {
    var es :| Run(es) == Some(s);
    RunKeeps(es);
    assert UploadLaid(s, u);
    var row := s.uploads[u];
    var path, x := row.storagePath, Extension(row.fileName);
    PathIsBytes(path, row.user, u, row.fileName);
    PlainIsClean(row.user);
    ItselfIff(path, row.user, u, row.fileName);
    if PlainText(x) { PlainIsClean(x); }
    if StoreKey(path).Some? {
      SignedWhenPlain(e, path, q);
      PlainKeyIff(path, row.user, u, row.fileName);
      if Clean(x) { CleanIff(x); PlainDecodes(x); }
    }
  }

  // ---- "v.%41" ----

  lemma RequestOn(s: State, u: string)
    requires Reachable(s) && u in s.uploads && u in s.merged
    ensures Reachable(s.(cleanups := s.cleanups + {CleanupRequest(s.uploads[u].chunkPath, s.uploads[u].total)}))
  {
    Onward(s, EnqueueCleanup(u));
  }

  lemma DeleteOn(s: State, path: string, total: nat)
    requires Reachable(s) && CleanupRequest(path, total) in s.cleanups && total > 0
    ensures Reachable(s.(objects := s.objects - {ChunkKey(path, 0)}))
  {
    Onward(s, DeleteKey(path, 0, true, true));
  }

  /** The one chunk's key is cleaned, once its upload is merged. */
  lemma CleanOne(s0: State, u: string, row: UploadRow) returns (s: State)
    requires Reachable(s0) && s0.uploads == map[u := row] && u in s0.merged && row.total == 1
    ensures Reachable(s) && s.uploads == s0.uploads && s.objects == s0.objects - {ChunkKey(row.chunkPath, 0)}
  {
    RequestOn(s0, u);
    s := s0.(cleanups := s0.cleanups + {CleanupRequest(row.chunkPath, row.total)});
    DeleteOn(s, row.chunkPath, row.total);
    s := s.(objects := s.objects - {ChunkKey(row.chunkPath, 0)});
  }

  lemma Escaped41()
    ensures Extension("v.%41") == "%41" && Uncut("%41") && Decoded("%41") == Some("A")
    ensures 1 <= |"v.%41"| <= 256
  {
    assert "v.%41"[1] == '.';
    var b := Ascii("%41");
    assert b == [PERCENT, 52, 49] && b[3..] == [];
    assert [65] + [] == [65] && Unescape(b, false) == Some([65]);
    assert Text([65]) == "A";
  }

  const MOVED := StoragePathOf("me", EXAMPLE_DATE, "a", "A")

  /** From nothing to a merge whose one chunk has been cleaned. */
  lemma MergeAndClean(u: string, row: UploadRow, c: string, data: Bytes, dest: string) returns (s: State)
    requires NewUpload(EmptyState, u, row, [c]) && StoreKey(row.storagePath) == Some(dest) && ChunkKey(row.chunkPath, 0) != dest
    ensures Reachable(s) && s.uploads == map[u := row.(status := Success)] && s.objects == map[dest := data]
  {
    var marked := CheckWriteMark(u, row, c, data, data);
    var chunk := NewChunkRow(u, row, 0).(size := |data|, status := Completed);
    var merged := MergeOne(marked, u, row, c, chunk, data, dest);
    s := CleanOne(merged, u, row.(status := Success));
  }

  lemma MovedKey()
    ensures NewUpload(EmptyState, "a", ExampleRow("a", "v.%41"), ["c"])
    ensures StoreKey(ExampleRow("a", "v.%41").storagePath) == Some(MOVED)
    ensures ChunkKey(ExampleRow("a", "v.%41").chunkPath, 0) != MOVED
  {
    Escaped41();
    ExampleIsNew("a", "v.%41", "c");
    ExampleKey("a", "v.%41", "A");
    ExampleApart("a", ExampleRow("a", "v.%41"), MOVED);
  }

  /**
   A file named "v.%41" is accepted and merged, every request being signed for what a verifier
   computes, and the upload is Success.  Once its chunk is cleaned, the one object left stands
   at the path with the extension "A"; nothing stands at its StoragePath.
   */
  lemma SuccessElsewhere(data: Bytes) returns (s: State)
    ensures Reachable(s) && "a" in s.uploads && s.uploads["a"].fileName == "v.%41" && s.uploads["a"].status == Success
    ensures Assembled(s, "a") && s.uploads["a"].storagePath !in s.objects && s.objects == map[MOVED := data]
    ensures ByteText(s.uploads["a"].storagePath)
    ensures forall e: Endpoint, q | PlainPath(e.base) && EncodedQuery(q) :: SignedAsSent(RequestText(e, s.uploads["a"].storagePath, q))
  {
    var row := ExampleRow("a", "v.%41");
    MovedKey();
    s := MergeAndClean("a", row, "c", data, MOVED);
    Escaped41();
    ExampleApart("a", row, MOVED);
    SuccessMeansRightBytes(s, "a");
    StandsThereIff(s, "a");
    PathIsBytes(row.storagePath, row.user, "a", row.fileName);
    forall e: Endpoint, q | PlainPath(e.base) && EncodedQuery(q) ensures SignedAsSent(RequestText(e, row.storagePath, q)) {
      MergeSignedIff(s, "a", e, q);
    }
  }

  lemma ExampleApart(u: string, row: UploadRow, dest: string)
    requires ValidUuid(u) && row == ExampleRow(u, "v.%41") && dest == StoragePathOf("me", EXAMPLE_DATE, u, "A")
    ensures ChunkKey(row.chunkPath, 0) != dest && !Clean("%41") && Clean("me") && PlainText("me") && PlainText("A")
  {
    assert IsChunkPath(row.chunkPath, u) by { assert EXAMPLE_DATE.Valid(); }
    ChunkIsNotMerged(row.chunkPath, u, 0, "me", EXAMPLE_DATE, u, "A");
    assert "%41"[0] == '%' && !CleanChar('%');
  }
}
