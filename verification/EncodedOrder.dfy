/**
 The order of the canonical query.  Signature Version 4 ("Create a canonical request")
 sorts the encoded names; the client sorts the decoded ones.  The two orders agree on
 exactly the queries without a crossing, which include every query this client sends.
 */
module EncodedOrder {
  import opened Basics
  import opened Sorting
  import opened Percent
  import opened Query

  /** At the first difference, the smaller byte stays as it is and the larger one is escaped. */
  predicate Crossing(a: Bytes, b: Bytes) {
    a != [] && b != [] &&
    if a[0] == b[0] then Crossing(a[1..], b[1..])
    else if a[0] < b[0] then Unreserved(a[0]) && !Unreserved(b[0])
    else Unreserved(b[0]) && !Unreserved(a[0])
  }

  lemma {:induction false} CommonPrefix(e: Bytes, x: Bytes, y: Bytes)
    ensures BytesLeq(e + x, e + y) <==> BytesLeq(x, y)
  {
    if e == [] {
      assert e + x == x && e + y == y;
    } else {
      CommonPrefix(e[1..], x, y);
      HeadAndTail(e, x);
      HeadAndTail(e, y);
      SameHead(e + x, e + y);
    }
  }

  lemma HeadAndTail(e: Bytes, x: Bytes)
    requires e != []
    ensures |e + x| > 0 && (e + x)[0] == e[0] && (e + x)[1..] == e[1..] + x
  {
  }

  lemma SameHead(a: Bytes, b: Bytes)
    requires a != [] && b != [] && a[0] == b[0]
    ensures BytesLeq(a, b) <==> BytesLeq(a[1..], b[1..])
  {
  }

  /** Different bytes: the escaped ones come first, otherwise the order is kept. */
  lemma FirstByte(c: byte, d: byte, x: Bytes, y: Bytes)
    requires c != d
    ensures BytesLeq(EscapeByte(c, false) + x, EscapeByte(d, false) + y) <==>
            if Unreserved(c) == Unreserved(d) then c < d else Unreserved(d)
  {
    var e, f := EscapeByte(c, false) + x, EscapeByte(d, false) + y;
    if !Unreserved(c) && !Unreserved(d) {
      assert e[0] == f[0] == PERCENT;
      assert e[1..][0] == HexUpper(c / 16) && f[1..][0] == HexUpper(d / 16);
      if c / 16 == d / 16 {
        assert e[1..][1..][0] == HexUpper(c % 16) && f[1..][1..][0] == HexUpper(d % 16);
      }
    } else {
      assert e[0] == EscapeByte(c, false)[0] && f[0] == EscapeByte(d, false)[0];
    }
  }

  /** Escaping keeps the order of two strings unless they cross, and then reverses it. */
  lemma {:induction false} EncodedOrder(a: Bytes, b: Bytes)
    requires a != b
    ensures BytesLeq(PercentEncode(a), PercentEncode(b)) <==> (BytesLeq(a, b) <==> !Crossing(a, b))
  {
    if a == [] {
      assert BytesLeq(PercentEncode(a), PercentEncode(b));
    } else if b == [] {
      assert !BytesLeq(PercentEncode(a), PercentEncode(b));
    } else if a[0] == b[0] {
      assert a == [a[0]] + a[1..] && b == [b[0]] + b[1..];
      EncodedOrder(a[1..], b[1..]);
      CommonPrefix(EscapeByte(a[0], false), PercentEncode(a[1..]), PercentEncode(b[1..]));
    } else {
      FirstByte(a[0], b[0], PercentEncode(a[1..]), PercentEncode(b[1..]));
    }
  }

  // ---- the pairs of a query as they are written ----

  function Encoded(p: Pair): Pair { Pair(PercentEncode(p.key), PercentEncode(p.value)) }

  function AllEncoded(ps: seq<Pair>): (r: seq<Pair>)
    ensures |r| == |ps| && forall i | 0 <= i < |ps| :: r[i] == Encoded(ps[i])
  {
    if ps == [] then [] else [Encoded(ps[0])] + AllEncoded(ps[1..])
  }

  /** The name=value pairs of a query without decoding them. */
  function WrittenPairs(t: Bytes): seq<Pair>
    decreases |t|
  {
    if t == [] then []
    else
      var (segment, rest) := Cut(t, AMPERSAND);
      var (k, v) := Cut(segment, EQUALS);
      [Pair(k, v)] + WrittenPairs(rest)
  }

  lemma {:induction false} PrintedWritten(ps: seq<Pair>)
    ensures WrittenPairs(Print(ps, false)) == AllEncoded(ps)
  {
    if ps != [] {
      var first := PrintPair(ps[0], false);
      PrintedSegment(ps[0], false);
      EscapeNoSeparators(ps[0].key, false);
      CutAt(PercentEncode(ps[0].key), EQUALS, PercentEncode(ps[0].value));
      if |ps| == 1 {
        assert WrittenPairs(first) == [Encoded(ps[0])] + WrittenPairs([]);
      } else {
        CutAt(first, AMPERSAND, Print(ps[1..], false));
        PrintedWritten(ps[1..]);
      }
    }
  }

  /** The order the standard asks for: encoded names, then encoded values, ascending. */
  ghost predicate InStandardOrder(t: Bytes) { IsSorted(WrittenPairs(t), PairLeq) }

  predicate PairsCross(p: Pair, q: Pair) {
    Crossing(p.key, q.key) || (p.key == q.key && Crossing(p.value, q.value))
  }

  predicate HasCrossing(ps: seq<Pair>) { exists p, q | p in ps && q in ps :: PairsCross(p, q) }

  lemma CrossingSymmetric(a: Bytes, b: Bytes)
    ensures Crossing(a, b) <==> Crossing(b, a)
  {
  }

  lemma {:induction false} NotCrossingSelf(a: Bytes)
    ensures !Crossing(a, a)
  {
    if a != [] { NotCrossingSelf(a[1..]); }
  }

  lemma EncodedPairs(p: Pair, q: Pair)
    requires PairLeq(p, q) && p != q
    ensures PairLeq(Encoded(p), Encoded(q)) <==> !PairsCross(p, q)
  {
    if p.key == q.key {
      EncodedOrder(p.value, q.value);
      NotCrossingSelf(p.key);
    } else {
      if PercentEncode(p.key) == PercentEncode(q.key) { EncodeInjective(p.key, q.key); }
      EncodedOrder(p.key, q.key);
    }
  }

  /** The canonical query is in the standard's order exactly when no two of its pairs cross. */
  lemma StandardOrderIff(raw: Bytes)
    requires !Blank(raw)
    ensures InStandardOrder(Canonical(raw)) <==> !HasCrossing(ParsePairs(raw))
  {
    var ps := ParsePairs(raw);
    var sorted := Sort(ps, PairLeq);
    PairOrder();
    SortSorts(ps, PairLeq);
    PrintedWritten(sorted);
    var written := AllEncoded(sorted);
    forall i, j | 0 <= i < j < |sorted| ensures PairLeq(written[i], written[j]) <==> !PairsCross(sorted[i], sorted[j]) {
      if sorted[i] == sorted[j] {
        NotCrossingSelf(sorted[i].key);
        NotCrossingSelf(sorted[i].value);
      } else {
        EncodedPairs(sorted[i], sorted[j]);
      }
    }
    SamePairsCross(sorted, ps);
    CrossingByIndex(sorted);
  }

  lemma SamePairsCross(a: seq<Pair>, b: seq<Pair>)
    requires multiset(a) == multiset(b)
    ensures HasCrossing(a) <==> HasCrossing(b)
  {
    forall p ensures p in a <==> p in b {
      assert p in multiset(a) <==> p in multiset(b);
    }
  }

  lemma CrossingByIndex(ps: seq<Pair>)
    ensures HasCrossing(ps) <==> exists i, j :: 0 <= i < j < |ps| && PairsCross(ps[i], ps[j])
  {
    if HasCrossing(ps) {
      var p, q :| p in ps && q in ps && PairsCross(p, q);
      var i :| 0 <= i < |ps| && ps[i] == p;
      var j :| 0 <= j < |ps| && ps[j] == q;
      NotCrossingSelf(p.key);
      NotCrossingSelf(p.value);
      CrossingSymmetric(p.key, q.key);
      CrossingSymmetric(p.value, q.value);
      assert PairsCross(ps[i], ps[j]) && PairsCross(ps[j], ps[i]);
    }
  }

  predicate AllUnreserved(k: Bytes) { forall i | 0 <= i < |k| :: Unreserved(k[i]) }

  /** A name of unreserved characters whose only value is this one. */
  ghost predicate PlainOnly(ps: seq<Pair>, p: Pair) {
    AllUnreserved(p.key) && forall q | q in ps && q.key == p.key :: q == p
  }

  /** Names made of unreserved characters, each used once: what the client sends. */
  lemma ClientOrderAgrees(raw: Bytes)
    requires !Blank(raw)
    requires forall p | p in ParsePairs(raw) :: PlainOnly(ParsePairs(raw), p)
    ensures InStandardOrder(Canonical(raw))
  {
    StandardOrderIff(raw);
    var ps := ParsePairs(raw);
    forall p, q | p in ps && q in ps ensures !PairsCross(p, q) { PlainNeverCross(ps, p, q); }
  }

  lemma PlainNeverCross(ps: seq<Pair>, p: Pair, q: Pair)
    requires p in ps && q in ps && PlainOnly(ps, p) && PlainOnly(ps, q)
    ensures !PairsCross(p, q)
  {
    UnreservedNeverCross(p.key, q.key);
    NotCrossingSelf(p.value);
  }

  lemma {:induction false} UnreservedNeverCross(a: Bytes, b: Bytes)
    requires AllUnreserved(a) && AllUnreserved(b)
    ensures !Crossing(a, b)
  {
    if a != [] && b != [] && a[0] == b[0] { UnreservedNeverCross(a[1..], b[1..]); }
  }

  /** A query of two crossing pairs is its own canonical form, out of the standard's order. */
  lemma CrossedOutOfOrder(p: Pair, q: Pair)
    requires PairLeq(p, q) && PairsCross(p, q)
    ensures Canonical(Print([p, q], false)) == Print([p, q], false)
    ensures !InStandardOrder(Print([p, q], false))
  {
    var ps := [p, q];
    PrintRoundTrip(ps, false);
    PairOrder();
    SortUnique(ps, ps, PairLeq);
    PrintNotBlank(ps, false);
    StandardOrderIff(Print(ps, false));
    assert p in ps && q in ps;
  }

  /** "~=&%7F=": the client puts '~' before DEL, the standard puts "%7F" before "~". */
  lemma OrdersDiffer()
    ensures exists raw :: Canonical(raw) == raw && raw != [] && !InStandardOrder(raw)
  {
    var p, q := Pair([126], []), Pair([127], []);
    CrossedOutOfOrder(p, q);
    var raw := Print([p, q], false);
    assert Canonical(raw) == raw && raw != [] && !InStandardOrder(raw);
  }
}
