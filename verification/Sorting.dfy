/** Sorting under a total order; the sorted list of a multiset is unique. */
module Sorting {
  import opened Basics

  ghost predicate TotalOrder<T(!new)>(leq: (T, T) -> bool) {
    && (forall x, y :: leq(x, y) || leq(y, x))
    && (forall x, y :: leq(x, y) && leq(y, x) ==> x == y)
    && (forall x, y, z :: leq(x, y) && leq(y, z) ==> leq(x, z))
  }

  ghost predicate IsSorted<T>(s: seq<T>, leq: (T, T) -> bool) {
    forall i, j | 0 <= i < j < |s| :: leq(s[i], s[j])
  }

  function Insert<T>(x: T, s: seq<T>, leq: (T, T) -> bool): (r: seq<T>)
    ensures multiset(r) == multiset(s) + multiset{x}
  {
    if s == [] || leq(x, s[0]) then [x] + s
    else
      assert s == [s[0]] + s[1..];
      [s[0]] + Insert(x, s[1..], leq)
  }

  /** sort.Strings and its like: any sorting algorithm gives this list (SortedUnique). */
  function Sort<T>(s: seq<T>, leq: (T, T) -> bool): (r: seq<T>)
    ensures multiset(r) == multiset(s)
  {
    if s == [] then []
    else
      assert s == [s[0]] + s[1..];
      Insert(s[0], Sort(s[1..], leq), leq)
  }

  lemma {:induction false} InsertSorted<T(!new)>(x: T, s: seq<T>, leq: (T, T) -> bool)
    requires TotalOrder(leq) && IsSorted(s, leq)
    ensures IsSorted(Insert(x, s, leq), leq)
  {
    if s != [] && !leq(x, s[0]) {
      InsertSorted(x, s[1..], leq);
      var t := Insert(x, s[1..], leq);
      forall i | 0 <= i < |t| ensures leq(s[0], t[i]) {
        assert t[i] in multiset(t);
        assert t[i] == x || t[i] in s[1..];
      }
    }
  }

  lemma {:induction false} SortSorts<T(!new)>(s: seq<T>, leq: (T, T) -> bool)
    requires TotalOrder(leq)
    ensures IsSorted(Sort(s, leq), leq)
  {
    if s != [] {
      SortSorts(s[1..], leq);
      InsertSorted(s[0], Sort(s[1..], leq), leq);
    }
  }

  lemma SameHead<T(!new)>(a: seq<T>, b: seq<T>, leq: (T, T) -> bool)
    requires TotalOrder(leq) && IsSorted(a, leq) && IsSorted(b, leq) && multiset(a) == multiset(b) && a != [] && b != []
    ensures a[0] == b[0]
  {
    assert a[0] in multiset(b) && b[0] in multiset(a);
    var i :| 0 <= i < |b| && b[i] == a[0];
    var j :| 0 <= j < |a| && a[j] == b[0];
    assert leq(b[0], b[i]) && leq(a[0], a[j]);
  }

  lemma SameTail<T>(a: seq<T>, b: seq<T>)
    requires a != [] && b != [] && a[0] == b[0] && multiset(a) == multiset(b)
    ensures multiset(a[1..]) == multiset(b[1..])
  {
    assert a == [a[0]] + a[1..] && b == [b[0]] + b[1..];
    assert multiset(a[1..]) == multiset(a) - multiset{a[0]};
    assert multiset(b[1..]) == multiset(b) - multiset{b[0]};
  }

  /** Two sorted lists with the same elements, counted, are the same list. */
  lemma {:induction false} SortedUnique<T(!new)>(a: seq<T>, b: seq<T>, leq: (T, T) -> bool)
    requires TotalOrder(leq) && IsSorted(a, leq) && IsSorted(b, leq) && multiset(a) == multiset(b)
    ensures a == b
  {
    assert |multiset(a)| == |a| && |multiset(b)| == |b|;
    if a != [] {
      SameHead(a, b, leq);
      SameTail(a, b);
      SortedUnique(a[1..], b[1..], leq);
      assert a == [a[0]] + a[1..] && b == [b[0]] + b[1..];
    }
  }

  lemma SortUnique<T(!new)>(a: seq<T>, b: seq<T>, leq: (T, T) -> bool)
    requires TotalOrder(leq) && IsSorted(a, leq) && multiset(a) == multiset(b)
    ensures a == Sort(b, leq)
  {
    SortSorts(b, leq);
    SortedUnique(a, Sort(b, leq), leq);
  }

  // ---- byte strings in lexicographic order (Go's < on strings) ----

  predicate BytesLeq(a: Bytes, b: Bytes) {
    if a == [] then true
    else if b == [] then false
    else if a[0] == b[0] then BytesLeq(a[1..], b[1..])
    else a[0] < b[0]
  }

  lemma {:induction false} BytesLeqTotal(a: Bytes, b: Bytes)
    ensures BytesLeq(a, b) || BytesLeq(b, a)
  {
    if a != [] && b != [] && a[0] == b[0] { BytesLeqTotal(a[1..], b[1..]); }
  }

  lemma {:induction false} BytesLeqAntisymmetric(a: Bytes, b: Bytes)
    requires BytesLeq(a, b) && BytesLeq(b, a)
    ensures a == b
  {
    if a != [] && b != [] {
      BytesLeqAntisymmetric(a[1..], b[1..]);
      assert a == [a[0]] + a[1..] && b == [b[0]] + b[1..];
    }
  }

  lemma {:induction false} BytesLeqTransitive(a: Bytes, b: Bytes, c: Bytes)
    requires BytesLeq(a, b) && BytesLeq(b, c)
    ensures BytesLeq(a, c)
  {
    if a != [] && b != [] && c != [] && a[0] == b[0] && b[0] == c[0] { BytesLeqTransitive(a[1..], b[1..], c[1..]); }
  }

  lemma BytesOrder()
    ensures TotalOrder(BytesLeq)
  {
    forall x, y ensures BytesLeq(x, y) || BytesLeq(y, x) { BytesLeqTotal(x, y); }
    forall x, y | BytesLeq(x, y) && BytesLeq(y, x) ensures x == y { BytesLeqAntisymmetric(x, y); }
    forall x, y, z | BytesLeq(x, y) && BytesLeq(y, z) ensures BytesLeq(x, z) { BytesLeqTransitive(x, y, z); }
  }

  // ---- pairs, by key and then by value ----

  datatype Pair = Pair(key: Bytes, value: Bytes)

  predicate PairLeq(p: Pair, q: Pair) {
    if p.key == q.key then BytesLeq(p.value, q.value) else BytesLeq(p.key, q.key)
  }

  lemma PairOrder()
    ensures TotalOrder(PairLeq)
  {
    BytesOrder();
    forall x, y, z | PairLeq(x, y) && PairLeq(y, z) ensures PairLeq(x, z) {
      if x.key == y.key && y.key == z.key {
        BytesLeqTransitive(x.value, y.value, z.value);
      } else {
        if x.key == z.key { BytesLeqAntisymmetric(x.key, y.key); }
        BytesLeqTransitive(x.key, y.key, z.key);
      }
    }
  }
}
