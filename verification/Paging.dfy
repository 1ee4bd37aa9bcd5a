/**
 Listing a user's videos page by page: the status filter, clamping, a 64-bit offset, a
 LIMIT/OFFSET query and the page count.  The user's rows in the query's order are a
 parameter, as are what is shown of each and the mapping to lower case.
 */
module Paging {
  import opened Basics
  import opened Tags

  const TWO_63: int := 0x8000_0000_0000_0000
  const TWO_64: int := 0x1_0000_0000_0000_0000
  const DEFAULT_SIZE := 12
  const MAX_SIZE := 50

  /** Go's int: values outside 64 bits wrap around. */
  function Wrap64(x: int): (r: int)
    ensures -TWO_63 <= r < TWO_63 && (r - x) % TWO_64 == 0
    ensures -TWO_63 <= x < TWO_63 ==> r == x
  {
    (x + TWO_63) % TWO_64 - TWO_63
  }

  type int64 = x: int | -TWO_63 <= x < TWO_63

  function ClampPage(page: int64): (p: int64)
    ensures 1 <= p && (page >= 1 ==> p == page) && (page < 1 ==> p == 1)
  {
    if page <= 0 then 1 else page
  }

  function ClampSize(size: int64): (s: int64)
    ensures 1 <= s <= 50 && (1 <= size <= 50 ==> s == size)
    ensures size <= 0 ==> s == 12
    ensures size > 50 ==> s == 50
  {
    if size <= 0 then DEFAULT_SIZE else if size > MAX_SIZE then MAX_SIZE else size
  }

  function Min(a: int, b: int): int { if a <= b then a else b }

  /** SELECT … LIMIT limit OFFSET offset; an offset that is not positive is left out. */
  function Rows<T>(list: seq<T>, offset: int64, limit: int64): seq<T> {
    if limit > 0 then
      var from := if offset > 0 then Min(offset, |list|) else 0;
      list[from..Min(from + limit, |list|)]
    else list
  }

  function Offset(page: int64, size: int64): int64 { Wrap64((page - 1) * size) }

  /** The rows a request for this page gets. */
  function Served<T>(list: seq<T>, page: int64, size: int64): seq<T> { Rows(list, Offset(page, size), size) }

  /** int((total + int64(size) - 1) / int64(size)), truncating. */
  function TotalPages(total: int64, size: int64): int
    requires size > 0
  {
    var n := Wrap64(total + size - 1);
    if n >= 0 then n / size else -(-n / size)
  }

  // ---- the requests ----

  const VIDEO_STATUSES: seq<string> := ["Draft", "Processing", "Published", "Failed"]

  class ListVideosReq {
    var page: int64
    var size: int64
    var status: string
    const userUUID: string

    constructor (page: int64, size: int64, status: string, userUUID: string)
      ensures this.page == page && this.size == size && this.status == status && this.userUUID == userUUID
    {
      this.page, this.size, this.status, this.userUUID := page, size, status, userUUID;
    }

    method Normalize(lower: string -> string)
      modifies this
      ensures page == ClampPage(old(page)) && size == ClampSize(old(size))
      ensures status == StatusFilter(old(status), lower)
    {
      if page <= 0 { page := 1; }
      if size <= 0 {
        size := DEFAULT_SIZE;
      } else if size > MAX_SIZE {
        size := MAX_SIZE;
      }
      status := Trim(status);
      if status != "" {
        if lower(status) == lower("Draft") {
          status := "Draft";
        } else if lower(status) == lower("Processing") {
          status := "Processing";
        } else if lower(status) == lower("Published") {
          status := "Published";
        } else if lower(status) == lower("Failed") {
          status := "Failed";
        }
      }
    }

    method Validate() returns (ok: bool)
      ensures ok <==> userUUID != "" && Accepted(status)
    {
      if userUUID == "" { return false; }
      if status != "" {
        var known := NewVideoStatus(status);
        if known != status { return false; }
      }
      return true;
    }
  }

  /** Unknown values become Draft. */
  method NewVideoStatus(value: string) returns (status: string)
    ensures status == if value in VIDEO_STATUSES then value else "Draft"
  {
    var i := 0;
    while i < |VIDEO_STATUSES|
      invariant i <= |VIDEO_STATUSES| && value !in VIDEO_STATUSES[..i]
    {
      if VIDEO_STATUSES[i] == value { return value; }
      i := i + 1;
    }
    return "Draft";
  }

  predicate Accepted(filter: string) {
    filter == "" || filter == "Draft" || filter == "Processing" || filter == "Published" || filter == "Failed"
  }

  /** The first status equal to the trimmed text up to case, otherwise the trimmed text. */
  function StatusFilter(text: string, lower: string -> string): string {
    var t := Trim(text);
    if t == "" then ""
    else if lower(t) == lower("Draft") then "Draft"
    else if lower(t) == lower("Processing") then "Processing"
    else if lower(t) == lower("Published") then "Published"
    else if lower(t) == lower("Failed") then "Failed"
    else t
  }

  /** A status text is accepted exactly when it is blank or, but for case and outer space, one of the four. */
  lemma StatusAcceptedIff(text: string, lower: string -> string)
    ensures Accepted(StatusFilter(text, lower)) <==>
            Trim(text) == "" || exists i | 0 <= i < |VIDEO_STATUSES| :: lower(VIDEO_STATUSES[i]) == lower(Trim(text))
  {
    if Trim(text) in VIDEO_STATUSES {
      var i :| 0 <= i < |VIDEO_STATUSES| && VIDEO_STATUSES[i] == Trim(text);
      assert lower(VIDEO_STATUSES[i]) == lower(Trim(text));
    } else if lower(Trim(text)) == lower(VIDEO_STATUSES[0]) {
    } else if lower(Trim(text)) == lower(VIDEO_STATUSES[1]) {
    } else if lower(Trim(text)) == lower(VIDEO_STATUSES[2]) {
    } else if lower(Trim(text)) == lower(VIDEO_STATUSES[3]) {
    }
  }

  /** Lower case tells the four statuses apart. */
  ghost predicate TellsApart(lower: string -> string) {
    forall i, j | 0 <= i < j < |VIDEO_STATUSES| :: lower(VIDEO_STATUSES[i]) != lower(VIDEO_STATUSES[j])
  }

  /** Of the rows, an accepted text that is not blank selects exactly those whose status it spells up to case and outer space. */
  lemma SelectsBySpelling(text: string, lower: string -> string, status: string)
    requires Accepted(StatusFilter(text, lower)) && Trim(text) != "" && status in VIDEO_STATUSES && TellsApart(lower)
    ensures StatusFilter(text, lower) == status <==> lower(status) == lower(Trim(text))
  {
    var filter := StatusFilter(text, lower);
    FilterSpells(text, lower);
    var i :| 0 <= i < |VIDEO_STATUSES| && VIDEO_STATUSES[i] == status;
    var j :| 0 <= j < |VIDEO_STATUSES| && VIDEO_STATUSES[j] == filter;
    assert i != j ==> lower(VIDEO_STATUSES[i]) != lower(VIDEO_STATUSES[j]);
  }

  lemma FilterSpells(text: string, lower: string -> string)
    requires Accepted(StatusFilter(text, lower)) && Trim(text) != ""
    ensures StatusFilter(text, lower) in VIDEO_STATUSES && lower(StatusFilter(text, lower)) == lower(Trim(text))
  {
    assert VIDEO_STATUSES[0] == "Draft" && VIDEO_STATUSES[1] == "Processing" && VIDEO_STATUSES[2] == "Published" && VIDEO_STATUSES[3] == "Failed";
  }

  /** WHERE status = ?, unless the filter is empty. */
  function Matching<T>(list: seq<T>, statusOf: T -> string, filter: string): (r: seq<T>)
    ensures |r| <= |list|
  {
    if list == [] then []
    else
      var n := |list| - 1;
      Matching(list[..n], statusOf, filter) + if filter == "" || statusOf(list[n]) == filter then [list[n]] else []
  }

  /** rows are the elements of the list that are wanted, each as often as there, in the list's order. */
  ghost predicate Selects<T>(rows: seq<T>, list: seq<T>, wanted: T -> bool) {
    && Among(rows, list) && (forall x | x in rows :: x in list)
    && forall x | x in list :: multiset(rows)[x] == if wanted(x) then multiset(list)[x] else 0
  }

  lemma {:induction false} MatchingSelects<T>(list: seq<T>, statusOf: T -> string, filter: string)
    ensures Selects(Matching(list, statusOf, filter), list, x => filter == "" || statusOf(x) == filter)
  {
    if list != [] {
      var n := |list| - 1;
      MatchingSelects(list[..n], statusOf, filter);
      SelectsSnoc(Matching(list[..n], statusOf, filter), list[..n], x => filter == "" || statusOf(x) == filter, list[n]);
      assert list == list[..n] + [list[n]];
    }
  }

  lemma SelectsSnoc<T>(rows: seq<T>, list: seq<T>, wanted: T -> bool, x: T)
    requires Selects(rows, list, wanted)
    ensures Selects(rows + if wanted(x) then [x] else [], list + [x], wanted)
  {
    if wanted(x) {
      AmongSnoc(rows, list, x);
    } else {
      AmongLonger(rows, list, [x]);
      assert rows + [] == rows;
    }
    forall y | y in list + [x] ensures multiset(rows + if wanted(x) then [x] else [])[y] == if wanted(y) then multiset(list + [x])[y] else 0 {
      CountSnoc(rows, x, y);
      CountSnoc(list, x, y);
      assert y in list || (multiset(list)[y] == 0 && multiset(rows)[y] == 0);
    }
  }

  lemma CountSnoc<T>(s: seq<T>, x: T, y: T)
    ensures multiset(s + [x])[y] == multiset(s)[y] + if x == y then 1 else 0
  {
  }

  /** An empty filter keeps every row. */
  lemma {:induction false} NothingFiltered<T>(list: seq<T>, statusOf: T -> string)
    ensures Matching(list, statusOf, "") == list
  {
    if list != [] {
      NothingFiltered(list[..|list| - 1], statusOf);
      assert list == list[..|list| - 1] + [list[|list| - 1]];
    }
  }

  /** The text asks for this status, up to case and outer space; a blank text for every one. */
  predicate Wants(text: string, lower: string -> string, status: string) {
    Trim(text) == "" || lower(status) == lower(Trim(text))
  }

  /** What an accepted text selects of rows with known statuses: exactly those it asks for, in their order. */
  lemma RowsWanted<T>(list: seq<T>, statusOf: T -> string, text: string, lower: string -> string)
    requires Accepted(StatusFilter(text, lower)) && TellsApart(lower)
    requires forall x | x in list :: statusOf(x) in VIDEO_STATUSES
    ensures Selects(Matching(list, statusOf, StatusFilter(text, lower)), list, x => Wants(text, lower, statusOf(x)))
    ensures Trim(text) == "" ==> Matching(list, statusOf, StatusFilter(text, lower)) == list
  {
    var filter := StatusFilter(text, lower);
    MatchingSelects(list, statusOf, filter);
    var rows := Matching(list, statusOf, filter);
    forall x | x in list ensures multiset(rows)[x] == if Wants(text, lower, statusOf(x)) then multiset(list)[x] else 0 {
      if Trim(text) != "" {
        NotBlank(text, lower);
        SelectsBySpelling(text, lower, statusOf(x));
      }
    }
    if Trim(text) == "" { NothingFiltered(list, statusOf); }
  }

  /** If the statuses are known ones, the list is what the text asks for. */
  ghost predicate AsWanted<T>(list: seq<T>, mine: seq<T>, statusOf: T -> string, text: string, lower: string -> string) {
    TellsApart(lower) && (forall x | x in mine :: statusOf(x) in VIDEO_STATUSES) ==>
      Selects(list, mine, x => Wants(text, lower, statusOf(x)))
  }

  lemma WantedRows<T>(mine: seq<T>, statusOf: T -> string, text: string, lower: string -> string)
    requires Accepted(StatusFilter(text, lower))
    ensures AsWanted(Matching(mine, statusOf, StatusFilter(text, lower)), mine, statusOf, text, lower)
  {
    if TellsApart(lower) && (forall x | x in mine :: statusOf(x) in VIDEO_STATUSES) { RowsWanted(mine, statusOf, text, lower); }
  }

  lemma NotBlank(text: string, lower: string -> string)
    requires Trim(text) != ""
    ensures StatusFilter(text, lower) != ""
  {
  }

  datatype VideoList<D> = VideoList(videos: seq<D>, total: int64, page: int64, size: int64, totalPages: int)

  /** The repository clamps again before it computes the offset; the database may fail. */
  method ListByUserQ<T>(mine: seq<T>, statusOf: T -> string, filter: string, page: int64, size: int64)
    returns (answer: Option<(seq<T>, int64)>)
    requires |mine| < TWO_63
    ensures answer.Some? ==>
      var list := Matching(mine, statusOf, filter);
      answer.value == (Served(list, ClampPage(page), ClampSize(size)), |list|)
  {
    var fails: bool := *;
    if fails { return None; }
    var p, s := page, size;
    if p <= 0 { p := 1; }
    if s <= 0 {
      s := DEFAULT_SIZE;
    } else if s > MAX_SIZE {
      s := MAX_SIZE;
    }
    var offset := Wrap64((p - 1) * s);
    var list := Matching(mine, statusOf, filter);
    answer := Some((Rows(list, offset, s), |list|));
  }

  function Shown<T, D>(rows: seq<T>, show: T -> D): (r: seq<D>)
    ensures |r| == |rows| && forall i | 0 <= i < |rows| :: r[i] == show(rows[i])
  {
    seq(|rows|, i requires 0 <= i < |rows| => show(rows[i]))
  }

  method ShowAll<T, D>(videos: seq<T>, show: T -> D) returns (items: seq<D>)
    ensures items == Shown(videos, show)
  {
    items := [];
    var i := 0;
    while i < |videos|
      invariant 0 <= i <= |videos| && items == Shown(videos[..i], show)
    {
      items := items + [show(videos[i])];
      i := i + 1;
    }
    assert videos[..|videos|] == videos;
  }

  datatype Listing<D> = Listed(list: VideoList<D>) | Refused | QueryFailed

  /**
   The page and size echoed to the client are the ones the offset was computed from; what is
   paged and counted are the rows the status text asks for.
   */
  method ListUserVideos<T, D>(req: ListVideosReq, mine: seq<T>, statusOf: T -> string, show: T -> D, lower: string -> string)
    returns (answer: Listing<D>)
    requires |mine| < TWO_63
    modifies req
    ensures answer.Refused? <==> req.userUUID == "" || !Accepted(StatusFilter(old(req.status), lower))
    ensures answer.Listed? ==>
      var dto, list := answer.list, Matching(mine, statusOf, StatusFilter(old(req.status), lower));
      && dto.videos == Shown(Served(list, dto.page, dto.size), show)
      && dto.page == ClampPage(old(req.page)) && dto.size == ClampSize(old(req.size))
      && dto.total == |list| && dto.totalPages == TotalPages(|list|, dto.size)
      && AsWanted(list, mine, statusOf, old(req.status), lower)
  {
    ghost var text := req.status;
    if Accepted(StatusFilter(text, lower)) { WantedRows(mine, statusOf, text, lower); }
    req.Normalize(lower);
    var ok := req.Validate();
    if !ok { return Refused; }
    var found := ListByUserQ(mine, statusOf, req.status, req.page, req.size);
    if found.None? { return QueryFailed; }
    var (videos, total) := found.value;
    var items := ShowAll(videos, show);
    answer := Listed(VideoList(items, total, req.page, req.size, TotalPages(total, req.size)));
  }

  // ---- pages ----

  /** Page p of the list, without any machine arithmetic. */
  function PageOf<T>(list: seq<T>, page: int, size: int): seq<T>
    requires page >= 1 && size >= 1
  {
    var from := Min((page - 1) * size, |list|);
    list[from..Min(from + size, |list|)]
  }

  /**
   A page request gets page p of every list exactly when (page-1)*size fits in 64 bits;
   otherwise the offset wraps, and some list is answered with rows of another page.
   */
  lemma ServedPageIff(page: int64, size: int64)
    requires page >= 1 && 1 <= size <= MAX_SIZE
    ensures (forall list: seq<int> :: Served(list, page, size) == PageOf(list, page, size)) <==> (page - 1) * size < TWO_63
  {
    assert (page - 1) * size >= 0;
    if (page - 1) * size < TWO_63 {
      forall list: seq<int> ensures Served(list, page, size) == PageOf(list, page, size) {
        ServedPage(list, page, size);
      }
    } else {
      var list := Misled(page, size);
      assert Served(list, page, size) != PageOf(list, page, size);
    }
  }

  lemma ServedPage<T>(list: seq<T>, page: int64, size: int64)
    requires page >= 1 && 1 <= size <= MAX_SIZE && 0 <= (page - 1) * size < TWO_63
    ensures Served(list, page, size) == PageOf(list, page, size)
  {
    assert Offset(page, size) == (page - 1) * size;
  }

  /** A list for which the wrapped offset shows: page p is empty, yet rows are returned. */
  lemma Misled(page: int64, size: int64) returns (list: seq<int>)
    requires page >= 1 && 1 <= size <= MAX_SIZE && (page - 1) * size >= TWO_63
    ensures PageOf(list, page, size) == [] && Served(list, page, size) != []
  {
    var x := (page - 1) * size;
    var offset := Wrap64(x);
    list := seq(if offset > 0 then offset + 1 else 1, i => 0);
    assert |list| <= x;
    RowsAbove(list, offset, size);
  }

  lemma RowsAbove(list: seq<int>, offset: int64, size: int64)
    requires size >= 1 && |list| == if offset > 0 then offset + 1 else 1
    ensures |Rows(list, offset, size)| == 1
  {
  }

  /** Page 2^62+1 of two rows each: the offset wraps to -2^63 and page 1 is returned. */
  lemma HugePageIsFirst<T>(list: seq<T>)
    ensures Served(list, 0x4000_0000_0000_0001, 2) == PageOf(list, 1, 2)
  {
    assert Offset(0x4000_0000_0000_0001, 2) == -TWO_63;
  }

  // ---- the pages partition the list ----

  /** ceil(n / size) */
  function Pages(n: nat, size: int): (k: nat)
    requires size >= 1
    ensures (k - 1) * size < n <= k * size || (n == 0 && k == 0)
  {
    if n == 0 then 0
    else
      assert (n - 1) == (n - 1) / size * size + (n - 1) % size;
      Distribute((n - 1) / size, size);
      (n - 1) / size + 1
  }

  lemma Distribute(q: int, size: int)
    ensures (q + 1) * size == q * size + size
  {
  }

  lemma Monotone(a: int, b: int, size: int)
    requires size >= 0
    ensures a <= b ==> a * size <= b * size
  {
    if a <= b { assert (b - a) * size >= 0; }
  }

  lemma QuotientUnique(x: int, size: int, q: int, r: int)
    requires size >= 1 && 0 <= r < size && x == q * size + r
    ensures x / size == q
  {
    var d := x / size - q;
    Same(x, size, q, r, x / size, x % size);
    Monotone(1, d, size);
    Monotone(d, -1, size);
  }

  lemma Same(x: int, size: int, q: int, r: int, p: int, t: int)
    requires x == q * size + r && x == p * size + t
    ensures (p - q) * size == r - t
  {
  }

  /** The page count shown is the number of pages exactly when the sum does not overflow. */
  lemma TotalPagesIff(total: int64, size: int64)
    requires total >= 0 && 1 <= size <= MAX_SIZE
    ensures TotalPages(total, size) == Pages(total, size) <==> total + size - 1 < TWO_63
  {
    if total + size - 1 < TWO_63 {
      RoundUp(total, size);
    } else {
      assert Wrap64(total + size - 1) == total + size - 1 - TWO_64;
      Negative(TWO_64 - (total + size - 1), size);
    }
  }

  lemma Negative(n: int, size: int)
    requires n > 0 && size >= 1
    ensures n / size >= 0
  {
  }

  lemma RoundUp(total: nat, size: int)
    requires size >= 1
    ensures (total + size - 1) / size == Pages(total, size)
  {
    if total == 0 {
      QuotientUnique(size - 1, size, 0, size - 1);
    } else {
      var q, r := (total - 1) / size, (total - 1) % size;
      Distribute(q, size);
      QuotientUnique(total + size - 1, size, q + 1, r);
    }
  }

  /** Pages 1..k, one after the other, as they are served. */
  function Together<T>(list: seq<T>, size: int64, k: nat): seq<T>
    requires k < TWO_63
  {
    if k == 0 then [] else Together(list, size, k - 1) + Served(list, k, size)
  }

  lemma {:induction false} TogetherIsPrefix<T>(list: seq<T>, size: int64, k: nat)
    requires 1 <= size <= MAX_SIZE && k < TWO_63 && |list| < TWO_63
    requires k > 0 ==> (k - 1) * size < |list|
    ensures Together(list, size, k) == list[..Min(k * size, |list|)]
    decreases k
  {
    if k > 0 {
      Scaled(k - 1, size);
      if k > 1 { Distribute(k - 2, size); }
      TogetherIsPrefix(list, size, k - 1);
      OnePage(list, size, k);
    }
  }

  /** Page k continues where the pages before it end. */
  lemma OnePage<T>(list: seq<T>, size: int64, k: nat)
    requires 1 <= size <= MAX_SIZE && 0 < k < TWO_63 && 0 <= (k - 1) * size < |list| < TWO_63
    requires Together(list, size, k - 1) == list[..Min((k - 1) * size, |list|)]
    ensures Together(list, size, k) == list[..Min(k * size, |list|)]
  {
    var from := (k - 1) * size;
    Distribute(k - 1, size);
    ServedPage(list, k, size);
    PageSlice(list, from, size);
    assert PageOf(list, k, size) == list[Min(from, |list|)..Min(from + size, |list|)];
  }

  lemma PageSlice<T>(list: seq<T>, from: nat, size: int)
    requires from < |list| && size >= 1
    ensures list[..Min(from, |list|)] + list[Min(from, |list|)..Min(from + size, |list|)] == list[..Min(from + size, |list|)]
  {
  }

  /** The first page numbers stay within the list, and within 64 bits. */
  lemma Reach(n: nat, size: int, k: nat)
    requires 1 <= size <= MAX_SIZE && k <= Pages(n, size) && n < TWO_63
    ensures k > 0 ==> 0 <= (k - 1) * size < n
    ensures k * size < TWO_63 + MAX_SIZE && k < TWO_63
  {
    if k > 0 {
      Monotone(k - 1, Pages(n, size) - 1, size);
      Distribute(k - 1, size);
      Scaled(k - 1, size);
    }
  }

  lemma Scaled(a: nat, size: int)
    requires size >= 1
    ensures 0 <= a <= a * size
  {
    Monotone(0, a, size - 1);
  }

  /** Pages 1..TotalPages give the list exactly once, in order. */
  lemma PagesPartition<T>(list: seq<T>, size: int64)
    requires 1 <= size <= MAX_SIZE && |list| + size - 1 < TWO_63
    ensures 0 <= TotalPages(|list|, size) < TWO_63
    ensures Together(list, size, TotalPages(|list|, size)) == list
  {
    TotalPagesIff(|list|, size);
    Reach(|list|, size, Pages(|list|, size));
    TogetherIsPrefix(list, size, Pages(|list|, size));
    assert list[..|list|] == list;
  }

  /** Every page but the last is full, the last is not empty, and later ones are. */
  lemma PageLengths<T>(list: seq<T>, size: int64, page: int64)
    requires 1 <= size <= MAX_SIZE && |list| + size - 1 < TWO_63 && page >= 1 && (page - 1) * size < TWO_63
    ensures var k, n := TotalPages(|list|, size), |Served(list, page, size)|;
      && (page < k ==> n == size)
      && (page == k ==> 1 <= n <= size && n == |list| - (k - 1) * size)
      && (page > k ==> n == 0)
  {
    var k: int := Pages(|list|, size);
    TotalPagesIff(|list|, size);
    Scaled(page - 1, size);
    ServedPage(list, page, size);
    Monotone(page, k - 1, size);
    Monotone(k, page - 1, size);
    Distribute(page - 1, size);
  }
}
