/**
 Where a merged object comes to stand.  The storage client puts an object's path into the
 text of its URLs as it is, and net/url reads that text: percent triples are decoded, and
 what follows a '#' or '?' is no longer path.  The store knows the decoded path only.
 */
module Destinations {
  import opened Basics
  import opened Keys
  import opened Texts
  import opened Percent
  import opened Url

  /** It does not end the path of a URL, nor make the URL refused. */
  predicate UncutChar(c: char) { c != '#' && c != '?' && c >= 32 as char && c != 127 as char }

  predicate Uncut(s: string) { All(s, UncutChar) }

  /** The text percent-decoded, or None when a '%' in it is malformed. */
  function Decoded(s: string): Option<string> {
    if !ByteText(s) then None
    else
      match Unescape(Ascii(s), false)
      case None => None
      case Some(b) => Some(Text(b))
  }

  /** The path that the requests for a merged object name; None when no merge can be requested. */
  function Destination(path: string): Option<string> {
    if Uncut(path) then Decoded(path) else None
  }

  /** Destination(path) is k.  Look(0) unfolds it. */
  ghost predicate Names(path: string, k: string) {
    forall n: nat {:trigger Look(n)} :: Look(n) ==> Destination(path) == Some(k)
  }

  /** The same as Destination, for proofs that need not know how it is computed. */
  ghost function StoreKey(path: string): Option<string> {
    if exists k :: Names(path, k) then
      var k :| Names(path, k);
      Some(k)
    else None
  }

  lemma StoreKeyIs(path: string)
    ensures StoreKey(path) == Destination(path)
  {
    assert Look(0);
    if Destination(path).Some? { assert Names(path, Destination(path).value); }
  }

  /** The user's id holds no '/', escaped or not. */
  ghost predicate UserId(user: string) {
    '/' !in user && forall n: nat {:trigger Look(n)} :: Look(n) ==> Decoded(user).None? || '/' !in Decoded(user).value
  }

  // ---- decoding piece by piece ----

  /** A byte that is no hexadecimal digit and no '%' separates what is decoded. */
  lemma {:induction false} UnescapeAcross(a: Bytes, c: byte, b: Bytes)
    requires c == SLASH || c == DOT
    ensures Unescape(a + [c] + b, false) ==
      if Unescape(a, false).None? || Unescape(b, false).None? then None
      else Some(Unescape(a, false).value + [c] + Unescape(b, false).value)
  {
    var s := a + [c] + b;
    if a == [] {
      assert s[0] == c && s[1..] == b;
      if Unescape(b, false).Some? { assert a + [c] + Unescape(b, false).value == [c] + Unescape(b, false).value; }
    } else if a[0] != PERCENT {
      UnescapeAcross(a[1..], c, b);
      assert s[0] == a[0] && s[1..] == a[1..] + [c] + b;
      InFront(a[0], Unescape(a[1..], false), c, Unescape(b, false));
    } else if |a| < 3 {
      assert s[|a|] == c && HexValue(c).None?;
    } else {
      UnescapeAcross(a[3..], c, b);
      assert s[..3] == a[..3] && s[3..] == a[3..] + [c] + b;
      assert s[1] == a[1] && s[2] == a[2];
      if HexValue(a[1]).Some? && HexValue(a[2]).Some? {
        InFront(HexValue(a[1]).value * 16 + HexValue(a[2]).value, Unescape(a[3..], false), c, Unescape(b, false));
      }
    }
  }

  lemma InFront(first: byte, x: Option<Bytes>, c: byte, y: Option<Bytes>)
    ensures x.Some? && y.Some? ==> [first] + (x.value + [c] + y.value) == [first] + x.value + [c] + y.value
  {
  }

  const DOT: byte := 46

  lemma DecodedAcross(a: string, c: char, b: string)
    requires c == '/' || c == '.'
    ensures Decoded(a + [c] + b) ==
      if Decoded(a).None? || Decoded(b).None? then None else Some(Decoded(a).value + [c] + Decoded(b).value)
  {
    var s := a + [c] + b;
    ByteTextAcross(a, c, b);
    if ByteText(s) {
      assert Ascii(s) == Ascii(a) + [c as int] + Ascii(b);
      UnescapeAcross(Ascii(a), c as int, Ascii(b));
      TextAcross(Unescape(Ascii(a), false), c, Unescape(Ascii(b), false));
    }
  }

  lemma TextAcross(x: Option<Bytes>, c: char, y: Option<Bytes>)
    requires c < 256 as char
    ensures x.Some? && y.Some? ==> Text(x.value + [c as int] + y.value) == Text(x.value) + [c] + Text(y.value)
  {
  }

  lemma ByteTextAcross(a: string, c: char, b: string)
    requires c < 256 as char
    ensures ByteText(a + [c] + b) <==> ByteText(a) && ByteText(b)
  {
    var s := a + [c] + b;
    if ByteText(s) {
      forall i | 0 <= i < |a| ensures a[i] < 256 as char { assert s[i] == a[i]; }
      forall i | 0 <= i < |b| ensures b[i] < 256 as char { assert s[|a| + 1 + i] == b[i]; }
    }
  }

  /** Text without '%' is left as it is. */
  lemma PlainDecodes(s: string)
    requires ByteText(s) && '%' !in s
    ensures Decoded(s) == Some(s)
  {
    forall i | 0 <= i < |s| ensures Ascii(s)[i] != PERCENT { assert s[i] in s; }
    NothingToDecode(Ascii(s));
    assert Text(Ascii(s)) == s;
  }

  lemma DigitsDecode(s: string)
    requires Digits(s)
    ensures Decoded(s) == Some(s)
  {
    PlainDecodes(s);
  }

  /** Of a merged object's path only the user's id and the extension can change. */
  lemma DecodedPath(user: string, d: Date, u: string, x: string)
    requires d.Valid() && ValidUuid(u)
    ensures Decoded(StoragePathOf(user, d, u, x)) ==
      if Decoded(user).None? || Decoded(x).None? then None else Some(StoragePathOf(Decoded(user).value, d, u, Decoded(x).value))
  {
    var last := u + ['.'] + x;
    PlainDecodes("uploads");
    PlainDecodes(u);
    DigitsDecode(d.year);
    DigitsDecode(d.month);
    DigitsDecode(d.day);
    DecodedAcross(u, '.', x);
    DecodedAcross(d.day, '/', last);
    DecodedAcross(d.month, '/', Seg(d.day, last));
    DecodedAcross(d.year, '/', Seg(d.month, Seg(d.day, last)));
    DecodedAcross(user, '/', Seg(d.year, Seg(d.month, Seg(d.day, last))));
    DecodedAcross("uploads", '/', Seg(user, Seg(d.year, Seg(d.month, Seg(d.day, last)))));
  }

  lemma UncutPath(user: string, d: Date, u: string, x: string)
    requires d.Valid() && ValidUuid(u)
    ensures Uncut(StoragePathOf(user, d, u, x)) <==> Uncut(user) && Uncut(x)
  {
    AllStoragePath(user, d, u, x, UncutChar);
  }

  /** The key of a merged object is again such a path, with the decoded extension. */
  lemma KeyIsPath(p: string, user: string, u: string, f: string) returns (d: Date)
    requires ValidUuid(u) && IsStoragePath(p, user, u, f) && StoreKey(p).Some?
    ensures d.Valid() && Decoded(user).Some? && Decoded(Extension(f)).Some?
    ensures StoreKey(p) == Some(StoragePathOf(Decoded(user).value, d, u, Decoded(Extension(f)).value))
  {
    d :| d.Valid() && p == GenerateStoragePath(user, d, u, f);
    StoreKeyIs(p);
    DecodedPath(user, d, u, Extension(f));
  }

  // ---- keys never meet ----

  /** Merged objects of different uploads have different keys, whatever the file names hold. */
  lemma StoreKeysApart(p: string, user: string, u: string, f: string, q: string, owner: string, v: string, g: string)
    requires ValidUuid(u) && ValidUuid(v) && UserId(user) && UserId(owner)
    requires IsStoragePath(p, user, u, f) && IsStoragePath(q, owner, v, g)
    requires StoreKey(p).Some? && StoreKey(p) == StoreKey(q)
    ensures u == v
  {
    var d := KeyIsPath(p, user, u, f);
    var e := KeyIsPath(q, owner, v, g);
    assert Look(0);
    StoragePathsApart(Decoded(user).value, d, u, Decoded(Extension(f)).value, Decoded(owner).value, e, v, Decoded(Extension(g)).value);
  }

  /** No chunk key is the key of a merged object. */
  lemma ChunkIsNoDestination(p: string, u: string, i: nat, q: string, owner: string, v: string, g: string)
    requires ValidUuid(v) && IsChunkPath(p, u) && IsStoragePath(q, owner, v, g)
    ensures StoreKey(q) != Some(ChunkKey(p, i))
  {
    if StoreKey(q).Some? {
      var e := KeyIsPath(q, owner, v, g);
      ChunkIsNotMerged(p, u, i, Decoded(owner).value, e, v, Decoded(Extension(g)).value);
    }
  }
}
