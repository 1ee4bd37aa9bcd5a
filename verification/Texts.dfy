/** The characters of generated paths. */
module Texts {
  import opened Basics
  import opened Keys

  /** Letters, digits and "-._~/" */
  predicate PlainChar(c: char) {
    'A' <= c <= 'Z' || 'a' <= c <= 'z' || '0' <= c <= '9' || c == '-' || c == '.' || c == '_' || c == '~' || c == '/'
  }

  predicate All(s: string, p: char -> bool) { forall i | 0 <= i < |s| :: p(s[i]) }

  predicate PlainText(s: string) { All(s, PlainChar) }

  lemma AllConcat(a: string, b: string, p: char -> bool)
    ensures All(a + b, p) <==> All(a, p) && All(b, p)
  {
    if All(a + b, p) {
      forall i | 0 <= i < |a| ensures p(a[i]) { assert (a + b)[i] == a[i]; }
      forall i | 0 <= i < |b| ensures p(b[i]) { assert (a + b)[|a| + i] == b[i]; }
    }
  }

  lemma AllSeg(head: string, rest: string, p: char -> bool)
    requires p('/')
    ensures All(Seg(head, rest), p) <==> All(head, p) && All(rest, p)
  {
    AllConcat(head + ['/'], rest, p);
    AllConcat(head, ['/'], p);
  }

  /** The directories of a day, in front of the rest of a path. */
  function Dated(d: Date, rest: string): string { Seg(d.year, Seg(d.month, Seg(d.day, rest))) }

  lemma AllDated(d: Date, rest: string, p: char -> bool)
    requires d.Valid() && forall c | PlainChar(c) :: p(c)
    ensures All(Dated(d, rest), p) <==> All(rest, p)
  {
    DigitsPlain(d.year);
    DigitsPlain(d.month);
    DigitsPlain(d.day);
    AllSeg(d.day, rest, p);
    AllSeg(d.month, Seg(d.day, rest), p);
    AllSeg(d.year, Seg(d.month, Seg(d.day, rest)), p);
  }

  lemma DigitsPlain(s: string)
    requires Digits(s)
    ensures PlainText(s)
  {
    forall i | 0 <= i < |s| ensures PlainChar(s[i]) { }
  }

  lemma UuidPlain(u: string)
    requires ValidUuid(u)
    ensures PlainText(u)
  {
    forall i | 0 <= i < |u| ensures PlainChar(u[i]) { }
  }

  /** The prefix and the decimal index of a chunk key hold plain characters only. */
  lemma ChunkKeyPlain(p: string, u: string, i: nat)
    requires IsChunkPath(p, u) && ValidUuid(u)
    ensures PlainText(ChunkKey(p, i))
  {
    UuidPlain(u);
    var d: Date :| d.Valid() && p == GenerateChunkStoragePath(d, u);
    assert p == Seg("chunks", Dated(d, Seg(u, "chunk_")));
    DigitsPlain(Decimal(i));
    AllSeg(u, "chunk_", PlainChar);
    AllDated(d, Seg(u, "chunk_"), PlainChar);
    AllSeg("chunks", Dated(d, Seg(u, "chunk_")), PlainChar);
    AllConcat(p, Decimal(i), PlainChar);
  }

  /** Of a merged object's path only the user's id and the extension are not plain by themselves. */
  lemma AllStoragePath(user: string, d: Date, u: string, x: string, p: char -> bool)
    requires d.Valid() && ValidUuid(u) && forall c | PlainChar(c) :: p(c)
    ensures All(StoragePathOf(user, d, u, x), p) <==> All(user, p) && All(x, p)
  {
    var last := u + ['.'] + x;
    UuidPlain(u);
    assert PlainText("uploads");
    AllConcat(u + ['.'], x, p);
    AllConcat(u, ['.'], p);
    AllDated(d, last, p);
    AllSeg(user, Dated(d, last), p);
    AllSeg("uploads", Seg(user, Dated(d, last)), p);
  }
}
