/**
 Object keys.  A chunk key is a per-upload prefix followed by the chunk index in
 decimal; a merged object has its own path.  Keys of different uploads never meet.
 */
module Keys {
  import opened Basics

  // ---- decimal printing (the %d of a chunk key) ----

  function Digit(d: nat): (c: char)
    requires d < 10
    ensures '0' <= c <= '9'
  {
    '0' + d as char
  }

  function Decimal(n: nat): (s: string)
    ensures |s| > 0 && (forall k | 0 <= k < |s| :: '0' <= s[k] <= '9')
  {
    if n < 10 then [Digit(n)] else Decimal(n / 10) + [Digit(n % 10)]
  }

  lemma {:induction false} DecimalInjective(m: nat, n: nat)
    requires Decimal(m) == Decimal(n)
    ensures m == n
  {
    assert Decimal(m)[|Decimal(m)| - 1] == Digit(m % 10);
    assert Decimal(n)[|Decimal(n)| - 1] == Digit(n % 10);
    assert m % 10 == n % 10;
    assert |Decimal(m)| == 1 <==> m < 10;
    assert |Decimal(n)| == 1 <==> n < 10;
    if m >= 10 {
      assert Decimal(m)[..|Decimal(m)| - 1] == Decimal(m / 10);
      assert Decimal(n)[..|Decimal(n)| - 1] == Decimal(n / 10);
      DecimalInjective(m / 10, n / 10);
    }
  }

  /** The number that decimal digits stand for. */
  function ValueOf(s: string): int {
    if s == "" then 0 else 10 * ValueOf(s[..|s| - 1]) + (s[|s| - 1] as int - '0' as int)
  }

  /** Decimal digits, most significant first, without leading zeros. */
  lemma {:induction false} DecimalIs(n: nat)
    ensures ValueOf(Decimal(n)) == n
    ensures forall i | 0 <= i < |Decimal(n)| :: '0' <= Decimal(n)[i] <= '9'
    ensures Decimal(n)[0] == '0' ==> n == 0
  {
    if n >= 10 {
      DecimalIs(n / 10);
      assert Decimal(n)[..|Decimal(n)| - 1] == Decimal(n / 10);
    } else {
      assert Decimal(n)[..0] == "";
    }
  }

  // ---- paths ----

  predicate Digits(s: string) { forall i | 0 <= i < |s| :: '0' <= s[i] <= '9' }

  /** The year, month and day of time.Now() as printed: digits, so no separator. */
  datatype Date = Date(year: string, month: string, day: string) {
    predicate Valid() { Digits(year) && Digits(month) && Digits(day) }
  }

  /** uuid.NewString(): hexadecimal digits and '-'. */
  predicate ValidUuid(u: string) { u != "" && forall i | 0 <= i < |u| :: '0' <= u[i] <= '9' || 'a' <= u[i] <= 'f' || u[i] == '-' }

  /** One path segment in front of the rest of the path. */
  function Seg(head: string, rest: string): string { head + ['/'] + rest }

  function LastDot(name: string): (d: int)
    ensures -1 <= d < |name|
    ensures d >= 0 ==> name[d] == '.'
    ensures forall k | d < k < |name| :: name[k] != '.'
  {
    if name == "" then -1
    else if name[|name| - 1] == '.' then |name| - 1
    else LastDot(name[..|name| - 1])
  }

  function Extension(name: string): string {
    var dot := LastDot(name);
    if dot != -1 then name[dot + 1..] else ""
  }

  function StoragePathOf(user: string, d: Date, u: string, extension: string): string {
    Seg("uploads", Seg(user, Seg(d.year, Seg(d.month, Seg(d.day, u + ['.'] + extension)))))
  }

  function GenerateStoragePath(user: string, d: Date, u: string, fileName: string): string {
    StoragePathOf(user, d, u, Extension(fileName))
  }

  function GenerateChunkStoragePath(d: Date, u: string): string {
    Seg("chunks", Seg(d.year, Seg(d.month, Seg(d.day, Seg(u, "chunk_")))))
  }

  function ChunkKey(chunkPath: string, i: nat): string { chunkPath + Decimal(i) }

  /** The paths as the service prints them. */
  lemma StoragePathPrinted(user: string, d: Date, u: string, fileName: string)
    ensures GenerateStoragePath(user, d, u, fileName)
         == "uploads/" + user + "/" + d.year + "/" + d.month + "/" + d.day + "/" + u + "." + Extension(fileName)
  {
  }

  lemma ChunkKeyPrinted(d: Date, u: string, i: nat)
    ensures ChunkKey(GenerateChunkStoragePath(d, u), i)
         == "chunks/" + d.year + "/" + d.month + "/" + d.day + "/" + u + "/chunk_" + Decimal(i)
  {
  }

  /** What follows the last dot, or nothing. */
  lemma ExtensionIs(before: string, after: string)
    requires '.' !in after
    ensures Extension(before + "." + after) == after && ('.' !in before ==> Extension(before) == "")
  {
    var name := before + "." + after;
    var dot := LastDot(name);
    assert name[|before|] == '.';
    forall i | |before| < i < |name| ensures name[i] != '.' { assert name[i] == after[i - |before| - 1]; }
    assert dot == |before|;
  }

  /** The keys of chunks 0..n-1. */
  ghost function KeysBelow(path: string, n: nat): set<string> {
    if n == 0 then {} else KeysBelow(path, n - 1) + {ChunkKey(path, n - 1)}
  }

  lemma {:induction false} KeysBelowAre(path: string, n: nat, k: string)
    ensures k in KeysBelow(path, n) <==> exists i: nat | i < n :: k == ChunkKey(path, i)
  {
    if n > 0 { KeysBelowAre(path, n - 1, k); }
  }

  /** p is a chunk prefix the service generated, on some day, for upload u. */
  ghost predicate IsChunkPath(p: string, u: string) {
    exists d: Date | d.Valid() :: p == GenerateChunkStoragePath(d, u)
  }

  /** p is a merged-object path the service generated, on some day, for upload u. */
  ghost predicate IsStoragePath(p: string, user: string, u: string, fileName: string) {
    exists d: Date | d.Valid() :: p == GenerateStoragePath(user, d, u, fileName)
  }

  /** Text up to the first separator is determined by the whole text. */
  lemma CutUnique(sep: char, a: string, r: string, b: string, t: string)
    requires sep !in a && sep !in b
    requires a + [sep] + r == b + [sep] + t
    ensures a == b && r == t
  {
    var x := a + [sep] + r;
    assert x[|a|] == sep && (forall k | 0 <= k < |a| :: x[k] == a[k] && a[k] in a);
    assert x[|b|] == sep && (forall k | 0 <= k < |b| :: x[k] == b[k] && b[k] in b) by {
      assert x == b + [sep] + t;
    }
    assert |a| == |b|;
    assert a == x[..|a|] && b == x[..|b|];
    assert r == x[|a| + 1..] && t == x[|b| + 1..];
  }

  /** A suffix of a path is a suffix of its last segment. */
  lemma SegTail(head: string, rest: string, tail: string)
    ensures Seg(head, rest) + tail == Seg(head, rest + tail)
  {
    assert Seg(head, rest) + tail == head + ['/'] + (rest + tail);
  }

  lemma ChunkKeySegments(d: Date, u: string, i: nat)
    ensures ChunkKey(GenerateChunkStoragePath(d, u), i)
         == Seg("chunks", Seg(d.year, Seg(d.month, Seg(d.day, Seg(u, "chunk_" + Decimal(i))))))
  {
    SegTail("chunks", Seg(d.year, Seg(d.month, Seg(d.day, Seg(u, "chunk_")))), Decimal(i));
    SegTail(d.year, Seg(d.month, Seg(d.day, Seg(u, "chunk_"))), Decimal(i));
    SegTail(d.month, Seg(d.day, Seg(u, "chunk_")), Decimal(i));
    SegTail(d.day, Seg(u, "chunk_"), Decimal(i));
    SegTail(u, "chunk_", Decimal(i));
  }

  lemma SegUnique(head: string, rest: string, head': string, rest': string)
    requires '/' !in head && '/' !in head' && Seg(head, rest) == Seg(head', rest')
    ensures head == head' && rest == rest'
  {
    CutUnique('/', head, rest, head', rest');
  }

  /** Five leading segments of equal paths agree, and so do the remainders. */
  lemma FiveSegments(a: seq<string>, r: string, b: seq<string>, t: string)
    requires |a| == |b| == 5 && (forall k | 0 <= k < 5 :: '/' !in a[k] && '/' !in b[k])
    requires Seg(a[0], Seg(a[1], Seg(a[2], Seg(a[3], Seg(a[4], r)))))
          == Seg(b[0], Seg(b[1], Seg(b[2], Seg(b[3], Seg(b[4], t)))))
    ensures a == b && r == t
  {
    SegUnique(a[0], Seg(a[1], Seg(a[2], Seg(a[3], Seg(a[4], r)))), b[0], Seg(b[1], Seg(b[2], Seg(b[3], Seg(b[4], t)))));
    SegUnique(a[1], Seg(a[2], Seg(a[3], Seg(a[4], r))), b[1], Seg(b[2], Seg(b[3], Seg(b[4], t))));
    SegUnique(a[2], Seg(a[3], Seg(a[4], r)), b[2], Seg(b[3], Seg(b[4], t)));
    SegUnique(a[3], Seg(a[4], r), b[3], Seg(b[4], t));
    SegUnique(a[4], r, b[4], t);
  }

  /** Two chunk keys meet only when they are the same chunk of the same upload. */
  lemma ChunkKeysApart(p: string, u: string, i: nat, q: string, v: string, j: nat)
    requires ValidUuid(u) && ValidUuid(v) && IsChunkPath(p, u) && IsChunkPath(q, v)
    requires ChunkKey(p, i) == ChunkKey(q, j)
    ensures u == v && i == j
  {
    var d: Date :| d.Valid() && p == GenerateChunkStoragePath(d, u);
    var e: Date :| e.Valid() && q == GenerateChunkStoragePath(e, v);
    ChunkKeySegments(d, u, i);
    ChunkKeySegments(e, v, j);
    var a, b := ["chunks", d.year, d.month, d.day, u], ["chunks", e.year, e.month, e.day, v];
    FiveSegments(a, "chunk_" + Decimal(i), b, "chunk_" + Decimal(j));
    assert a[4] == b[4];
    assert ("chunk_" + Decimal(i))[6..] == Decimal(i) && ("chunk_" + Decimal(j))[6..] == Decimal(j);
    DecimalInjective(i, j);
  }

  /** Paths of merged objects of different uploads differ, whatever stands after their ids. */
  lemma StoragePathsApart(user: string, d: Date, u: string, x: string, owner: string, e: Date, v: string, y: string)
    requires ValidUuid(u) && ValidUuid(v) && '/' !in user && '/' !in owner && d.Valid() && e.Valid()
    requires StoragePathOf(user, d, u, x) == StoragePathOf(owner, e, v, y)
    ensures u == v && x == y
  {
    FiveSegments(["uploads", user, d.year, d.month, d.day], u + ['.'] + x, ["uploads", owner, e.year, e.month, e.day], v + ['.'] + y);
    CutUnique('.', u, x, v, y);
  }

  /** No chunk key is the path of a merged object. */
  lemma ChunkIsNotMerged(p: string, u: string, i: nat, owner: string, e: Date, v: string, y: string)
    requires IsChunkPath(p, u)
    ensures ChunkKey(p, i) != StoragePathOf(owner, e, v, y)
  {
    var d: Date :| d.Valid() && p == GenerateChunkStoragePath(d, u);
    assert p[0] == "chunks"[0] && StoragePathOf(owner, e, v, y)[0] == "uploads"[0];
    assert ChunkKey(p, i)[0] == p[0];
  }
}
