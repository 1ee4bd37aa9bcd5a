/**
 Query strings: Go's url.ParseQuery and Values.Encode, and the canonical query of AWS
 Signature Version 4 that the storage client signs.
 */
module Query {
  import opened Basics
  import opened Sorting
  import opened Percent

  // ---- cutting and splitting ----

  /** strings.Split on '&'. */
  function Segments(raw: Bytes): (segments: seq<Bytes>)
    ensures |segments| >= 1 && (|segments| == 1 <==> AMPERSAND !in raw)
    decreases |raw|
  {
    if AMPERSAND in raw then
      var (before, after) := Cut(raw, AMPERSAND);
      [before] + Segments(after)
    else [raw]
  }

  // ---- parsing ----

  /** One '&' segment; a ';' or a malformed escape drops it, and so does an empty segment. */
  function ParseSegment(segment: Bytes): seq<Pair> {
    if SEMICOLON in segment || segment == [] then []
    else
      var (k, v) := Cut(segment, EQUALS);
      match (Unescape(k, true), Unescape(v, true))
      case (Some(key), Some(value)) => [Pair(key, value)]
      case _ => []
  }

  /** A segment without ';' is name=value, or a name alone; it is dropped when one of them does not decode. */
  lemma SegmentParsed(name: Bytes, value: Bytes)
    requires '=' as int !in name && ';' as int !in name && ';' as int !in value
    ensures ParseSegment(name + ['=' as int] + value) ==
      if Unescape(name, true).None? || Unescape(value, true).None? then []
      else [Pair(Unescape(name, true).value, Unescape(value, true).value)]
    ensures ParseSegment(name) == if name == [] || Unescape(name, true).None? then [] else [Pair(Unescape(name, true).value, [])]
  {
    CutAt(name, EQUALS, value);
  }

  lemma SemicolonDropped(segment: Bytes)
    requires ';' as int in segment
    ensures ParseSegment(segment) == []
  {
  }

  function ParsePairs(raw: Bytes): seq<Pair>
    decreases |raw|
  {
    if raw == [] then []
    else
      var (segment, rest) := Cut(raw, AMPERSAND);
      ParseSegment(segment) + ParsePairs(rest)
  }

  type Values = map<Bytes, seq<Bytes>>

  function Get(m: Values, k: Bytes): seq<Bytes> { if k in m then m[k] else [] }

  function Add(m: Values, p: Pair): Values { m[p.key := Get(m, p.key) + [p.value]] }

  /** The map url.ParseQuery builds: values of a key in order of appearance. */
  function Group(ps: seq<Pair>): Values {
    if ps == [] then map[] else Add(Group(ps[..|ps| - 1]), ps[|ps| - 1])
  }

  lemma GroupSnoc(ps: seq<Pair>, p: Pair)
    ensures Group(ps + [p]) == Add(Group(ps), p)
  {
    assert (ps + [p])[..|ps|] == ps;
  }

  lemma {:induction false} GroupConcat(a: seq<Pair>, segment: Bytes)
    ensures Group(a + ParseSegment(segment)) == (if ParseSegment(segment) == [] then Group(a) else Add(Group(a), ParseSegment(segment)[0]))
  {
    if ParseSegment(segment) == [] {
      assert a + ParseSegment(segment) == a;
    } else {
      GroupSnoc(a, ParseSegment(segment)[0]);
    }
  }

  /** One segment of the loop in url.ParseQuery. */
  method ParseInto(m: Values, segment: Bytes) returns (m': Values)
    ensures m' == if ParseSegment(segment) == [] then m else Add(m, ParseSegment(segment)[0])
  {
    m' := m;
    if SEMICOLON in segment || segment == [] { return; }
    var (name, text) := Cut(segment, EQUALS);
    var key := Unescape(name, true);
    if key.None? { return; }
    var value := Unescape(text, true);
    if value.None? { return; }
    m' := m[key.value := Get(m, key.value) + [value.value]];
  }

  lemma Regroup(whole: seq<Pair>, a: seq<Pair>, b: seq<Pair>, c: seq<Pair>, bc: seq<Pair>)
    requires whole == a + bc && bc == b + c
    ensures whole == (a + b) + c
  {
  }

  /** The rest of the query is what the loop still has to parse. */
  ghost predicate Parsed(raw: Bytes, m: Values, query: Bytes) {
    exists done :: ParsePairs(raw) == done + ParsePairs(query) && m == Group(done)
  }

  lemma ParsedNext(raw: Bytes, m: Values, query: Bytes, m': Values)
    requires query != [] && Parsed(raw, m, query)
    requires var ps := ParseSegment(Cut(query, AMPERSAND).0); m' == if ps == [] then m else Add(m, ps[0])
    ensures Parsed(raw, m', Cut(query, AMPERSAND).1)
  {
    var done :| ParsePairs(raw) == done + ParsePairs(query) && m == Group(done);
    var (key, rest) := Cut(query, AMPERSAND);
    GroupConcat(done, key);
    Regroup(ParsePairs(raw), done, ParseSegment(key), ParsePairs(rest), ParsePairs(query));
  }

  method ParseQuery(raw: Bytes) returns (m: Values)
    ensures m == Group(ParsePairs(raw))
  {
    m := map[];
    var query := raw;
    assert Parsed(raw, m, query) by {
      assert [] + ParsePairs(raw) == ParsePairs(raw);
    }
    while query != []
      invariant Parsed(raw, m, query)
      decreases |query|
    {
      var (key, rest) := Cut(query, AMPERSAND);
      var m' := ParseInto(m, key);
      ParsedNext(raw, m, query, m');
      m, query := m', rest;
    }
    var done :| ParsePairs(raw) == done + ParsePairs(query) && m == Group(done);
    assert done + [] == done;
  }

  // ---- printing ----

  function PrintPair(p: Pair, plus: bool): Bytes { Escape(p.key, plus) + [EQUALS] + Escape(p.value, plus) }

  /** key=value segments joined by '&'. */
  function Print(ps: seq<Pair>, plus: bool): Bytes {
    if ps == [] then []
    else if |ps| == 1 then PrintPair(ps[0], plus)
    else PrintPair(ps[0], plus) + [AMPERSAND] + Print(ps[1..], plus)
  }

  lemma PrintedSegment(p: Pair, plus: bool)
    ensures AMPERSAND !in PrintPair(p, plus) && PrintPair(p, plus) != [] && ParseSegment(PrintPair(p, plus)) == [p]
  {
    EscapeNoSeparators(p.key, plus);
    EscapeNoSeparators(p.value, plus);
    CutAt(Escape(p.key, plus), EQUALS, Escape(p.value, plus));
    EscapeRoundTrip(p.key, plus, true);
    EscapeRoundTrip(p.value, plus, true);
  }

  /** Parsing what was printed gives back the pairs, in order. */
  lemma {:induction false} PrintRoundTrip(ps: seq<Pair>, plus: bool)
    ensures ParsePairs(Print(ps, plus)) == ps
  {
    if ps != [] {
      PrintedSegment(ps[0], plus);
      var first := PrintPair(ps[0], plus);
      if |ps| == 1 {
        assert ParsePairs(first) == [ps[0]] + ParsePairs([]);
      } else {
        CutAt(first, AMPERSAND, Print(ps[1..], plus));
        PrintRoundTrip(ps[1..], plus);
        assert ps == [ps[0]] + ps[1..];
      }
    }
  }

  lemma {:induction false} PrintSnoc(ps: seq<Pair>, p: Pair, plus: bool)
    ensures Print(ps + [p], plus) == (if ps == [] then [] else Print(ps, plus) + [AMPERSAND]) + PrintPair(p, plus)
  {
    var all := ps + [p];
    if ps == [] {
      assert all == [p] && [] + PrintPair(p, plus) == PrintPair(p, plus);
    } else {
      var first, rest := PrintPair(ps[0], plus) + [AMPERSAND], ps[1..];
      PrintSnoc(rest, p, plus);
      assert all[0] == ps[0] && all[1..] == rest + [p];
      assert Print(all, plus) == first + Print(rest + [p], plus);
      if rest == [] {
        Associative(first, [], PrintPair(p, plus));
        assert first + [] == first;
      } else {
        assert Print(ps, plus) == first + Print(rest, plus);
        Regroup4(first, Print(rest, plus), [AMPERSAND], PrintPair(p, plus));
      }
    }
  }

  lemma Regroup4(a: Bytes, b: Bytes, c: Bytes, d: Bytes)
    ensures a + ((b + c) + d) == ((a + b) + c) + d
  {
  }

  // ---- the canonical query, as a function ----

  /** Leading Unicode white space in UTF-8: its length, or 0. */
  function SpaceLength(s: Bytes): (n: nat)
    ensures n <= |s|
    ensures n > 0 ==> EQUALS !in s[..n] && AMPERSAND !in s[..n]
  {
    if |s| >= 1 && (9 <= s[0] <= 13 || s[0] == 32) then 1
    else if |s| >= 2 && s[0] == 0xC2 && (s[1] == 0x85 || s[1] == 0xA0) then 2
    else if |s| >= 3 && s[0] == 0xE1 && s[1] == 0x9A && s[2] == 0x80 then 3
    else if |s| >= 3 && s[0] == 0xE2 && s[1] == 0x80 && (0x80 <= s[2] <= 0x8A || s[2] == 0xA8 || s[2] == 0xA9 || s[2] == 0xAF) then 3
    else if |s| >= 3 && s[0] == 0xE2 && s[1] == 0x81 && s[2] == 0x9F then 3
    else if |s| >= 3 && s[0] == 0xE3 && s[1] == 0x80 && s[2] == 0x80 then 3
    else 0
  }

  /** UTF-8, for code points below 0x10000. */
  function Utf8(x: nat): (b: Bytes)
    requires x < 0x10000
  {
    if x < 0x80 then [x]
    else if x < 0x800 then [0xC0 + x / 64, 0x80 + x % 64]
    else [0xE0 + x / 4096, 0x80 + x / 64 % 64, 0x80 + x % 64]
  }

  /** The code points with the property White_Space. */
  predicate WhiteSpace(x: nat) {
    9 <= x <= 13 || x in {0x20, 0x85, 0xA0, 0x1680, 0x2028, 0x2029, 0x202F, 0x205F, 0x3000} || 0x2000 <= x <= 0x200A
  }

  lemma SpaceIsCut(x: nat, rest: Bytes)
    requires WhiteSpace(x)
    ensures SpaceLength(Utf8(x) + rest) == |Utf8(x)|
  {
  }

  lemma CutIsSpace(s: Bytes) returns (x: nat)
    requires SpaceLength(s) > 0
    ensures WhiteSpace(x) && s[..SpaceLength(s)] == Utf8(x)
  {
    var n, a: int := SpaceLength(s), s[0];
    if n == 1 { return a; }
    var b: int := s[1];
    if n == 2 { return (a - 0xC0) * 64 + (b - 0x80); }
    var c: int := s[2];
    x := (a - 0xE0) * 4096 + (b - 0x80) * 64 + (c - 0x80);
  }

  /** strings.TrimSpace(s) == "" */
  predicate Blank(s: Bytes)
    decreases |s|
  {
    s == [] || (SpaceLength(s) > 0 && Blank(s[SpaceLength(s)..]))
  }

  lemma {:induction false} BlankHasNoSeparators(s: Bytes)
    requires Blank(s)
    ensures EQUALS !in s && AMPERSAND !in s
    decreases |s|
  {
    if s != [] {
      var n := SpaceLength(s);
      BlankHasNoSeparators(s[n..]);
      assert s == s[..n] + s[n..];
    }
  }

  /** An ASCII text is blank when it holds nothing but tabs, line ends and spaces. */
  lemma {:induction false} BlankAscii(s: Bytes)
    requires forall i | 0 <= i < |s| :: s[i] < 128
    ensures Blank(s) <==> forall i | 0 <= i < |s| :: s[i] in {9, 10, 11, 12, 13, 32}
  {
    if s != [] {
      BlankAscii(s[1..]);
      forall i | 0 <= i < |s[1..]| ensures s[1..][i] == s[i + 1] { }
      if s[0] in {9, 10, 11, 12, 13, 32} {
        assert SpaceLength(s) == 1;
        assert forall i | 1 <= i < |s| :: s[i] == s[1..][i - 1];
      } else {
        assert SpaceLength(s) == 0;
      }
    }
  }

  /** What canonicalizeQuery computes: the parsed pairs, sorted by key then value, percent-encoded. */
  function Canonical(raw: Bytes): Bytes {
    if Blank(raw) then [] else Print(Sort(ParsePairs(raw), PairLeq), false)
  }

  // ---- values of a key ----

  function ValuesOf(ps: seq<Pair>, k: Bytes): seq<Bytes> {
    if ps == [] then []
    else ValuesOf(ps[..|ps| - 1], k) + if ps[|ps| - 1].key == k then [ps[|ps| - 1].value] else []
  }

  lemma {:induction false} GroupValues(ps: seq<Pair>, k: Bytes)
    ensures Get(Group(ps), k) == ValuesOf(ps, k)
    ensures k in Group(ps) <==> ValuesOf(ps, k) != []
  {
    if ps != [] { GroupValues(ps[..|ps| - 1], k); }
  }

  lemma SnocCount<T>(s: seq<T>, x: T)
    requires s != []
    ensures multiset(s)[x] == multiset(s[..|s| - 1])[x] + if s[|s| - 1] == x then 1 else 0
  {
    assert s == s[..|s| - 1] + [s[|s| - 1]];
  }

  lemma {:induction false} CountValues(ps: seq<Pair>, k: Bytes, v: Bytes)
    ensures multiset(ValuesOf(ps, k))[v] == multiset(ps)[Pair(k, v)]
  {
    if ps != [] {
      var n := |ps| - 1;
      CountValues(ps[..n], k, v);
      SnocCount(ps, Pair(k, v));
      var before, last := ValuesOf(ps[..n], k), ps[n];
      if last.key == k {
        SnocCount(before + [last.value], v);
        assert (before + [last.value])[..|before|] == before;
      } else {
        assert before + [] == before;
      }
    }
  }

  lemma SameCounts(a: seq<Pair>, b: seq<Pair>, k: Bytes)
    requires multiset(a) == multiset(b)
    ensures multiset(ValuesOf(a, k)) == multiset(ValuesOf(b, k))
  {
    forall v ensures multiset(ValuesOf(a, k))[v] == multiset(ValuesOf(b, k))[v] {
      CountValues(a, k, v);
      CountValues(b, k, v);
    }
  }

  lemma {:induction false} ValuesInPairs(ps: seq<Pair>, k: Bytes)
    ensures forall v | v in ValuesOf(ps, k) :: Pair(k, v) in ps
  {
    if ps != [] { ValuesInPairs(ps[..|ps| - 1], k); }
  }

  lemma {:induction false} ValuesSorted(ps: seq<Pair>, k: Bytes)
    requires IsSorted(ps, PairLeq)
    ensures IsSorted(ValuesOf(ps, k), BytesLeq)
  {
    if ps != [] {
      var n := |ps| - 1;
      ValuesSorted(ps[..n], k);
      ValuesInPairs(ps[..n], k);
      var vs := ValuesOf(ps[..n], k);
      if ps[n].key == k {
        forall i | 0 <= i < |vs| ensures BytesLeq(vs[i], ps[n].value) {
          assert Pair(k, vs[i]) in ps[..n];
          var j :| 0 <= j < n && ps[j] == Pair(k, vs[i]);
          assert PairLeq(ps[j], ps[n]);
        }
      }
    }
  }

  // ---- meaning ----

  /** Sorting each value list. */
  function SortValues(m: Values): Values { map k | k in m :: Sort(m[k], BytesLeq) }

  lemma SortedGroup(ps: seq<Pair>)
    ensures Group(Sort(ps, PairLeq)) == SortValues(Group(ps))
  {
    var sorted := Sort(ps, PairLeq);
    PairOrder();
    BytesOrder();
    SortSorts(ps, PairLeq);
    forall k ensures (k in Group(sorted) <==> k in Group(ps)) && Get(Group(sorted), k) == Sort(Get(Group(ps), k), BytesLeq) {
      GroupValues(ps, k);
      GroupValues(sorted, k);
      SameCounts(sorted, ps, k);
      ValuesSorted(sorted, k);
      SortUnique(ValuesOf(sorted, k), ValuesOf(ps, k), BytesLeq);
    }
    assert Group(sorted).Keys == SortValues(Group(ps)).Keys;
    forall k | k in Group(sorted) ensures Group(sorted)[k] == SortValues(Group(ps))[k] {
      assert Get(Group(sorted), k) == Sort(Get(Group(ps), k), BytesLeq);
    }
  }

  /** For every query that is not blank, the canonical query means the same, with sorted value lists. */
  lemma CanonicalPreservesMeaning(raw: Bytes)
    requires !Blank(raw)
    ensures Group(ParsePairs(Canonical(raw))) == SortValues(Group(ParsePairs(raw)))
  {
    PrintRoundTrip(Sort(ParsePairs(raw), PairLeq), false);
    SortedGroup(ParsePairs(raw));
  }

  lemma PrintNotBlank(ps: seq<Pair>, plus: bool)
    requires ps != []
    ensures !Blank(Print(ps, plus))
  {
    assert EQUALS in PrintPair(ps[0], plus);
    if Blank(Print(ps, plus)) { BlankHasNoSeparators(Print(ps, plus)); }
  }

  /** Canonicalizing is idempotent, for every input. */
  lemma CanonicalIdempotent(raw: Bytes)
    ensures Canonical(Canonical(raw)) == Canonical(raw)
  {
    if !Blank(raw) {
      var sorted := Sort(ParsePairs(raw), PairLeq);
      if sorted != [] {
        PrintNotBlank(sorted, false);
        PrintRoundTrip(sorted, false);
        PairOrder();
        SortSorts(ParsePairs(raw), PairLeq);
        SortUnique(sorted, sorted, PairLeq);
      }
    }
  }

  // ---- permuting the segments ----

  function Flat<A, B>(s: seq<A>, f: A -> seq<B>): seq<B> {
    if s == [] then [] else f(s[0]) + Flat(s[1..], f)
  }

  lemma {:induction false} FlatConcat<A, B>(a: seq<A>, b: seq<A>, f: A -> seq<B>)
    ensures Flat(a + b, f) == Flat(a, f) + Flat(b, f)
  {
    if a == [] {
      assert a + b == b;
    } else {
      FlatConcat(a[1..], b, f);
      TailConcat(a, b);
      Reassociate(f(a[0]), Flat(a[1..], f), Flat(b, f));
    }
  }

  lemma TailConcat<A>(a: seq<A>, b: seq<A>)
    requires a != []
    ensures (a + b)[1..] == a[1..] + b && (a + b)[0] == a[0]
  {
  }

  lemma Reassociate<T>(x: seq<T>, y: seq<T>, z: seq<T>)
    ensures x + (y + z) == (x + y) + z
  {
  }

  lemma FlatCons<A, B>(x: A, s: seq<A>, f: A -> seq<B>)
    ensures Flat([x] + s, f) == f(x) + Flat(s, f)
  {
    assert ([x] + s)[1..] == s;
  }

  lemma Pulled<A>(b: seq<A>, j: nat)
    requires j < |b|
    ensures b == b[..j] + ([b[j]] + b[j + 1..])
  {
  }

  lemma PulledCount<A>(left: seq<A>, middle: seq<A>, right: seq<A>)
    ensures multiset(left + (middle + right)) == multiset(middle) + multiset(left + right)
  {
  }

  /** Moving the element at j to the front does not change what the pieces hold, counted. */
  lemma FlatPulled<A, B>(b: seq<A>, j: nat, f: A -> seq<B>)
    requires j < |b|
    ensures multiset(Flat(b, f)) == multiset(f(b[j])) + multiset(Flat(b[..j] + b[j + 1..], f))
    ensures multiset(b) == multiset{b[j]} + multiset(b[..j] + b[j + 1..])
  {
    var left, right := b[..j], b[j + 1..];
    Pulled(b, j);
    FlatConcat(left, [b[j]] + right, f);
    FlatConcat(left, right, f);
    FlatCons(b[j], right, f);
    PulledCount(Flat(left, f), f(b[j]), Flat(right, f));
    PulledCount(left, [b[j]], right);
  }

  lemma {:induction false} FlatPermuted<A, B>(a: seq<A>, b: seq<A>, f: A -> seq<B>)
    requires multiset(a) == multiset(b)
    ensures multiset(Flat(a, f)) == multiset(Flat(b, f))
  {
    assert |multiset(a)| == |a| && |multiset(b)| == |b|;
    if a != [] {
      assert a[0] in multiset(b);
      var j :| 0 <= j < |b| && b[j] == a[0];
      FlatPulled(b, j, f);
      assert a == [a[0]] + a[1..];
      assert multiset(a[1..]) == multiset(a) - multiset{a[0]};
      FlatPermuted(a[1..], b[..j] + b[j + 1..], f);
    }
  }

  lemma {:induction false} PairsBySegment(raw: Bytes)
    ensures ParsePairs(raw) == Flat(Segments(raw), ParseSegment)
    decreases |raw|
  {
    if AMPERSAND in raw {
      var (before, after) := Cut(raw, AMPERSAND);
      PairsBySegment(after);
      assert ([before] + Segments(after))[1..] == Segments(after);
    } else if raw != [] {
      assert ParsePairs(raw) == ParseSegment(raw) + [];
    }
  }

  lemma SingleSegment(raw: Bytes, other: Bytes)
    requires AMPERSAND !in raw && multiset(Segments(raw)) == multiset(Segments(other))
    ensures other == raw
  {
    assert |Segments(other)| == |multiset(Segments(other))| == |multiset(Segments(raw))| == 1;
    assert raw in multiset(Segments(other));
  }

  /** The order of the '&' segments does not matter. */
  lemma CanonicalIgnoresOrder(raw: Bytes, other: Bytes)
    requires multiset(Segments(raw)) == multiset(Segments(other))
    ensures Canonical(raw) == Canonical(other)
  {
    if Blank(raw) {
      BlankHasNoSeparators(raw);
      SingleSegment(raw, other);
    } else if Blank(other) {
      BlankHasNoSeparators(other);
      SingleSegment(other, raw);
    } else {
      PairsBySegment(raw);
      PairsBySegment(other);
      FlatPermuted(Segments(raw), Segments(other), ParseSegment);
      PairOrder();
      SortSorts(ParsePairs(raw), PairLeq);
      SortUnique(Sort(ParsePairs(raw), PairLeq), ParsePairs(other), PairLeq);
    }
  }

  // ---- canonicalizeQuery, as written: sorted keys, then sorted values ----

  /** What is written for one key: its sorted values, or one empty value. */
  function Block(k: Bytes, vs: seq<Bytes>): seq<Pair> {
    if vs == [] then [Pair(k, [])] else seq(|vs|, i requires 0 <= i < |vs| => Pair(k, vs[i]))
  }

  function Blocks(ks: seq<Bytes>, m: Values): seq<Pair>
    requires forall k | k in ks :: k in m
  {
    if ks == [] then []
    else
      var k := ks[|ks| - 1];
      Blocks(ks[..|ks| - 1], m) + Block(k, Sort(m[k], BytesLeq))
  }

  predicate Distinct(ks: seq<Bytes>) { forall i, j | 0 <= i < j < |ks| :: ks[i] != ks[j] }

  lemma {:induction false} BlocksKeys(ks: seq<Bytes>, m: Values)
    requires forall k | k in ks :: k in m
    ensures forall p | p in Blocks(ks, m) :: p.key in ks
  {
    if ks != [] { BlocksKeys(ks[..|ks| - 1], m); }
  }

  lemma BlockSorted(k: Bytes, vs: seq<Bytes>)
    ensures IsSorted(Block(k, Sort(vs, BytesLeq)), PairLeq)
  {
    BytesOrder();
    SortSorts(vs, BytesLeq);
  }

  lemma AppendSorted(a: seq<Pair>, b: seq<Pair>)
    requires IsSorted(a, PairLeq) && IsSorted(b, PairLeq)
    requires forall p, q | p in a && q in b :: PairLeq(p, q)
    ensures IsSorted(a + b, PairLeq)
  {
  }

  lemma {:induction false} BlocksSorted(ks: seq<Bytes>, m: Values)
    requires (forall k | k in ks :: k in m) && IsSorted(ks, BytesLeq) && Distinct(ks)
    ensures IsSorted(Blocks(ks, m), PairLeq)
  {
    if ks != [] {
      var n := |ks| - 1;
      BlocksSorted(ks[..n], m);
      BlocksKeys(ks[..n], m);
      BlockSorted(ks[n], m[ks[n]]);
      var a, b := Blocks(ks[..n], m), Block(ks[n], Sort(m[ks[n]], BytesLeq));
      forall p, q | p in a && q in b ensures PairLeq(p, q) {
        var i :| 0 <= i < n && ks[i] == p.key;
        assert BytesLeq(ks[i], ks[n]) && ks[i] != ks[n];
      }
      AppendSorted(a, b);
    }
  }

  lemma {:induction false} BlockCount(k: Bytes, vs: seq<Bytes>, p: Pair)
    requires vs != []
    ensures multiset(Block(k, vs))[p] == if p.key == k then multiset(vs)[p.value] else 0
  {
    var n := |vs| - 1;
    if n > 0 {
      BlockCount(k, vs[..n], p);
      assert Block(k, vs) == Block(k, vs[..n]) + [Pair(k, vs[n])];
      assert vs == vs[..n] + [vs[n]];
    } else {
      assert Block(k, vs) == [Pair(k, vs[0])] && vs == [vs[0]];
    }
  }

  lemma SortedBlockCount(k: Bytes, values: seq<Bytes>, p: Pair)
    requires values != []
    ensures multiset(Block(k, Sort(values, BytesLeq)))[p] == if p.key == k then multiset(values)[p.value] else 0
  {
    var vs := Sort(values, BytesLeq);
    assert |multiset(vs)| == |multiset(values)|;
    BlockCount(k, vs, p);
  }

  lemma {:induction false} BlocksCount(ks: seq<Bytes>, m: Values, p: Pair)
    requires (forall k | k in ks :: k in m && m[k] != []) && Distinct(ks)
    ensures multiset(Blocks(ks, m))[p] == if p.key in ks then multiset(m[p.key])[p.value] else 0
  {
    if ks != [] {
      var n := |ks| - 1;
      BlocksCount(ks[..n], m, p);
      SortedBlockCount(ks[n], m[ks[n]], p);
      InitAndLast(ks, p.key);
      var a, b := Blocks(ks[..n], m), Block(ks[n], Sort(m[ks[n]], BytesLeq));
      assert multiset(a + b) == multiset(a) + multiset(b);
    }
  }

  /** With every key once, in order, the blocks are the sorted pairs. */
  lemma BlocksAreSortedPairs(ks: seq<Bytes>, ps: seq<Pair>)
    requires IsSorted(ks, BytesLeq) && Distinct(ks) && (forall k :: k in ks <==> k in Group(ps))
    ensures Blocks(ks, Group(ps)) == Sort(ps, PairLeq)
  {
    var m := Group(ps);
    forall k | k in ks ensures m[k] != [] { GroupValues(ps, k); }
    forall p ensures multiset(Blocks(ks, m))[p] == multiset(ps)[p] {
      BlocksCount(ks, m, p);
      GroupValues(ps, p.key);
      CountValues(ps, p.key, p.value);
    }
    assert multiset(Blocks(ks, m)) == multiset(ps);
    BlocksSorted(ks, m);
    PairOrder();
    SortUnique(Blocks(ks, m), ps, PairLeq);
  }

  /** The keys of a Go map, in the map's own arbitrary order. */
  method KeysOf(m: Values) returns (keys: seq<Bytes>)
    ensures Distinct(keys) && forall k :: k in keys <==> k in m
  {
    keys := [];
    var todo := m.Keys;
    while todo != {}
      invariant Distinct(keys) && todo <= m.Keys
      invariant forall k :: k in keys <==> k in m && k !in todo
      decreases todo
    {
      var k :| k in todo;
      keys := keys + [k];
      todo := todo - {k};
    }
  }

  lemma PermutedDistinct(a: seq<Bytes>, b: seq<Bytes>)
    requires Distinct(a) && multiset(a) == multiset(b)
    ensures Distinct(b)
  {
    forall i, j | 0 <= i < j < |b| ensures b[i] != b[j] {
      DistinctOnce(a, b[i]);
      if b[i] == b[j] { TwiceCounted(b, i, j); }
    }
  }

  lemma SortedKeys(keys: seq<Bytes>)
    requires Distinct(keys)
    ensures IsSorted(Sort(keys, BytesLeq), BytesLeq) && Distinct(Sort(keys, BytesLeq))
    ensures forall k :: k in Sort(keys, BytesLeq) <==> k in keys
  {
    BytesOrder();
    SortSorts(keys, BytesLeq);
    PermutedDistinct(keys, Sort(keys, BytesLeq));
    forall k ensures k in Sort(keys, BytesLeq) <==> k in keys {
      assert k in multiset(Sort(keys, BytesLeq)) <==> k in multiset(keys);
    }
  }

  lemma {:induction false} DistinctOnce(ks: seq<Bytes>, k: Bytes)
    requires Distinct(ks)
    ensures multiset(ks)[k] <= 1 && (k !in ks ==> multiset(ks)[k] == 0)
  {
    if ks != [] {
      var n := |ks| - 1;
      DistinctOnce(ks[..n], k);
      assert ks == ks[..n] + [ks[n]];
    }
  }

  lemma TwiceCounted(ks: seq<Bytes>, i: nat, j: nat)
    requires i < j < |ks| && ks[i] == ks[j]
    ensures multiset(ks)[ks[i]] >= 2
  {
    assert ks == ks[..j] + [ks[j]] + ks[j + 1..];
    assert ks[i] in ks[..j];
  }

  /** Append one pair: '&' unless it is the first, then key '=' value. */
  method WritePair(b: Bytes, first: bool, k: Bytes, v: Bytes, plus: bool, ghost list: seq<Pair>) returns (b': Bytes)
    requires b == Print(list, plus) && first == (list == [])
    ensures b' == Print(list + [Pair(k, v)], plus)
  {
    PrintSnoc(list, Pair(k, v), plus);
    b' := b;
    if !first { b' := b' + [AMPERSAND]; }
    var key := EscapeText(k, plus);
    var value := EscapeText(v, plus);
    Glued(b', key, value);
    b' := b' + key + [EQUALS] + value;
  }

  lemma Glued(b: Bytes, key: Bytes, value: Bytes)
    ensures b + key + [EQUALS] + value == b + (key + [EQUALS] + value)
  {
  }

  /** percentEncode, or the library's QueryEscape. */
  method EscapeText(s: Bytes, plus: bool) returns (t: Bytes)
    ensures t == Escape(s, plus)
  {
    if plus {
      t := Escape(s, true);
    } else {
      t := PercentEncodeLoop(s);
    }
  }

  lemma OneMore(list: seq<Pair>, block: seq<Pair>, i: nat)
    requires i < |block|
    ensures list + block[..i + 1] == list + block[..i] + [block[i]]
  {
  }

  /** The values of one key in the given order; a key without values is written with an empty one. */
  method WriteBlock(b: Bytes, k: Bytes, vs: seq<Bytes>, first: bool, plus: bool, ghost list: seq<Pair>) returns (b': Bytes)
    requires b == Print(list, plus) && first == (list == [])
    ensures b' == Print(list + Block(k, vs), plus)
  {
    if |vs| == 0 {
      b' := WritePair(b, first, k, [], plus, list);
      return;
    }
    b' := b;
    var i := 0;
    ghost var block := Block(k, vs);
    assert list + block[..0] == list;
    while i < |vs|
      invariant 0 <= i <= |vs| && b' == Print(list + block[..i], plus)
    {
      OneMore(list, block, i);
      b' := WritePair(b', first && i == 0, k, vs[i], plus, list + block[..i]);
      i := i + 1;
    }
    assert block[..|vs|] == block;
  }

  /** The blocks of the first i keys have been written.  Look(0) unfolds it. */
  ghost predicate BlocksWritten(b: Bytes, keys: seq<Bytes>, i: nat, m: Values, plus: bool)
    requires i <= |keys| && forall k | k in keys :: k in m
  {
    forall n: nat {:trigger Look(n)} :: Look(n) ==> b == Print(Blocks(keys[..i], m), plus)
  }

  /** The inner loop, for one of the keys. */
  method WriteNext(b: Bytes, keys: seq<Bytes>, i: nat, m: Values, plus: bool) returns (b': Bytes)
    requires i < |keys| && (forall k | k in keys :: k in m) && BlocksWritten(b, keys, i, m, plus)
    ensures BlocksWritten(b', keys, i + 1, m, plus)
  {
    assert Look(0);
    ghost var before := Blocks(keys[..i], m);
    BlocksNonEmpty(keys[..i], m);
    BlocksNext(keys, i, m);
    var values := Sort(m[keys[i]], BytesLeq);
    b' := WriteBlock(b, keys[i], values, i == 0, plus, before);
  }

  /** The two nested loops over the sorted keys and their values. */
  method WriteBlocks(keys: seq<Bytes>, m: Values, plus: bool) returns (b: Bytes)
    requires forall k | k in keys :: k in m
    ensures b == Print(Blocks(keys, m), plus)
  {
    b := [];
    var i := 0;
    while i < |keys|
      invariant 0 <= i <= |keys| && BlocksWritten(b, keys, i, m, plus)
    {
      b := WriteNext(b, keys, i, m, plus);
      i := i + 1;
    }
    assert Look(0);
    assert keys[..|keys|] == keys;
  }

  lemma BlocksNext(ks: seq<Bytes>, i: nat, m: Values)
    requires i < |ks| && forall k | k in ks :: k in m
    ensures Blocks(ks[..i + 1], m) == Blocks(ks[..i], m) + Block(ks[i], Sort(m[ks[i]], BytesLeq))
  {
    assert ks[..i + 1][..i] == ks[..i];
  }

  method CanonicalizeQuery(raw: Bytes) returns (b: Bytes)
    ensures b == Canonical(raw)
  {
    if Blank(raw) { return []; }
    var m := ParseQuery(raw);
    ghost var ps := ParsePairs(raw);
    if ps != [] { SomePairs(ps); }
    if |m| == 0 { return []; }
    var keys := KeysOf(m);
    SortedKeys(keys);
    var sorted := Sort(keys, BytesLeq);
    BlocksAreSortedPairs(sorted, ps);
    b := WriteBlocks(sorted, m, false);
  }

  lemma SomePairs(ps: seq<Pair>)
    requires ps != []
    ensures |Group(ps)| > 0
  {
    assert ps[|ps| - 1].key in Group(ps);
  }

  lemma BlocksNonEmpty(ks: seq<Bytes>, m: Values)
    requires forall k | k in ks :: k in m
    ensures ks != [] <==> Blocks(ks, m) != []
  {
  }

  // ---- Values.Encode: sorted keys, values in the order they were added ----

  function Listed(ks: seq<Bytes>, m: Values): seq<Pair>
    requires forall k | k in ks :: k in m
  {
    if ks == [] then [] else Listed(ks[..|ks| - 1], m) + Block(ks[|ks| - 1], m[ks[|ks| - 1]])
  }

  lemma {:induction false} ValuesOfConcat(a: seq<Pair>, b: seq<Pair>, k: Bytes)
    ensures ValuesOf(a + b, k) == ValuesOf(a, k) + ValuesOf(b, k)
  {
    if b == [] {
      assert a + b == a;
    } else {
      ValuesOfConcat(a, b[..|b| - 1], k);
      assert (a + b)[..|a + b| - 1] == a + b[..|b| - 1];
    }
  }

  lemma {:induction false} ValuesOfBlock(k: Bytes, vs: seq<Bytes>, key: Bytes)
    requires vs != []
    ensures ValuesOf(Block(k, vs), key) == if key == k then vs else []
  {
    var n := |vs| - 1;
    assert Block(k, vs)[..n] == if n == 0 then [] else Block(k, vs[..n]);
    if n > 0 { ValuesOfBlock(k, vs[..n], key); }
  }

  lemma {:induction false} ValuesOfListed(ks: seq<Bytes>, m: Values, key: Bytes)
    requires (forall k | k in ks :: k in m && m[k] != []) && Distinct(ks)
    ensures ValuesOf(Listed(ks, m), key) == if key in ks then m[key] else []
  {
    if ks != [] {
      var n := |ks| - 1;
      var init, last := ks[..n], ks[n];
      ValuesOfListed(init, m, key);
      ValuesOfConcat(Listed(init, m), Block(last, m[last]), key);
      ValuesOfBlock(last, m[last], key);
      InitAndLast(ks, key);
    }
  }

  lemma InitAndLast(ks: seq<Bytes>, key: Bytes)
    requires ks != [] && Distinct(ks)
    ensures key in ks <==> key in ks[..|ks| - 1] || key == ks[|ks| - 1]
    ensures ks[|ks| - 1] !in ks[..|ks| - 1]
  {
    assert ks == ks[..|ks| - 1] + [ks[|ks| - 1]];
  }

  lemma GroupListed(ks: seq<Bytes>, m: Values)
    requires Distinct(ks) && (forall k :: k in ks <==> k in m) && (forall k | k in m :: m[k] != [])
    ensures Group(Listed(ks, m)) == m
  {
    var g := Group(Listed(ks, m));
    forall k ensures (k in g <==> k in m) && Get(g, k) == Get(m, k) {
      GroupValues(Listed(ks, m), k);
      ValuesOfListed(ks, m, k);
    }
    forall k | k in m ensures g[k] == m[k] { assert Get(g, k) == Get(m, k); }
  }

  /** The values of the first i keys have been written.  Look(0) unfolds it. */
  ghost predicate ListWritten(b: Bytes, keys: seq<Bytes>, i: nat, m: Values)
    requires i <= |keys| && forall k | k in keys :: k in m
  {
    forall n: nat {:trigger Look(n)} :: Look(n) ==> b == Print(Listed(keys[..i], m), true)
  }

  method EncodeNext(b: Bytes, keys: seq<Bytes>, i: nat, m: Values) returns (b': Bytes)
    requires i < |keys| && (forall k | k in keys :: k in m) && ListWritten(b, keys, i, m)
    ensures ListWritten(b', keys, i + 1, m)
  {
    assert Look(0);
    ghost var before := Listed(keys[..i], m);
    ListedNonEmpty(keys[..i], m);
    assert keys[..i + 1][..i] == keys[..i];
    b' := WriteBlock(b, keys[i], m[keys[i]], i == 0, true, before);
  }

  method EncodeKeys(keys: seq<Bytes>, m: Values) returns (raw: Bytes)
    requires forall k | k in keys :: k in m
    ensures raw == Print(Listed(keys, m), true)
  {
    raw := [];
    var i := 0;
    while i < |keys|
      invariant 0 <= i <= |keys| && ListWritten(raw, keys, i, m)
    {
      raw := EncodeNext(raw, keys, i, m);
      i := i + 1;
    }
    assert Look(0);
    assert keys[..|keys|] == keys;
  }

  /** Whatever Encode writes parses back to the same values. */
  method EncodeValues(m: Values) returns (raw: Bytes)
    requires forall k | k in m :: m[k] != []
    ensures Group(ParsePairs(raw)) == m
    ensures m != map[] ==> !Blank(raw)
  {
    var keys := KeysOf(m);
    SortedKeys(keys);
    var sorted := Sort(keys, BytesLeq);
    raw := EncodeKeys(sorted, m);
    GroupListed(sorted, m);
    PrintRoundTrip(Listed(sorted, m), true);
    if m != map[] { PrintNotBlank(Listed(sorted, m), true); }
  }

  lemma ListedNonEmpty(ks: seq<Bytes>, m: Values)
    requires forall k | k in ks :: k in m
    ensures ks != [] <==> Listed(ks, m) != []
  {
  }
}
