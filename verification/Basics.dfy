/** Types shared by every module: bytes, optional values. */
module Basics {
  datatype Option<+T> = None | Some(value: T)

  /** A predicate defined under Look is unfolded only where `assert Look(0)` asks for it. */
  ghost predicate Look(n: nat) { true }

  type byte = x: int | 0 <= x < 256
  type Bytes = seq<byte>

  /** A text as the program sees it: a character stands for one byte. */
  type octet = c: char | c < 256 as char
  type ByteString = seq<octet>

  predicate ByteText(s: string) { forall i | 0 <= i < |s| :: s[i] < 256 as char }

  function Ascii(s: string): (b: Bytes)
    requires forall i | 0 <= i < |s| :: s[i] < 256 as char
    ensures |b| == |s| && forall i | 0 <= i < |s| :: b[i] == s[i] as int
  {
    seq(|s|, i requires 0 <= i < |s| => s[i] as int)
  }

  /** The text of these bytes. */
  function Text(b: Bytes): (s: ByteString)
    ensures |s| == |b| && forall i | 0 <= i < |b| :: s[i] == b[i] as char
  {
    seq(|b|, i requires 0 <= i < |b| => b[i] as char)
  }

  /** The elements of the list occur in t, in this order. */
  ghost predicate Among<T>(list: seq<T>, t: seq<T>) {
    list == [] || exists k: nat | k < |t| :: t[k] == list[|list| - 1] && Among(list[..|list| - 1], t[..k])
  }

  lemma AmongLonger<T>(list: seq<T>, t: seq<T>, more: seq<T>)
    requires Among(list, t)
    ensures Among(list, t + more)
  {
    if list != [] {
      var k: nat :| k < |t| && t[k] == list[|list| - 1] && Among(list[..|list| - 1], t[..k]);
      assert (t + more)[..k] == t[..k];
    }
  }

  lemma AmongSnoc<T>(list: seq<T>, t: seq<T>, x: T)
    requires Among(list, t)
    ensures Among(list + [x], t + [x])
  {
    assert (list + [x])[..|list|] == list && (t + [x])[..|t|] == t;
  }

  lemma Rest<T>(t: seq<T>, x: T, t': seq<T>)
    requires t <= t' && |t| < |t'| && t'[|t'| - 1] == x
    ensures t' == t + t'[|t|..|t'| - 1] + [x]
  {
  }

  lemma AmongOneMore<T>(list: seq<T>, t: seq<T>, x: T, t': seq<T>)
    requires Among(list, t) && t <= t' && |t| < |t'| && t'[|t'| - 1] == x
    ensures Among(list + [x], t')
  {
    Rest(t, x, t');
    AmongLonger(list, t, t'[|t|..|t'| - 1]);
    AmongSnoc(list, t + t'[|t|..|t'| - 1], x);
  }

  lemma TakeTake<T>(s: seq<T>, m: nat, n: nat)
    requires n <= m <= |s|
    ensures s[..m][..n] == s[..n]
  {
  }
}
