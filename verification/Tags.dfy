/**
 Video tags: trimmed, without blanks and without case-insensitive repetitions.  The request
 and the entity run the same loop, so what is stored is what was validated.  The mapping to
 lower case is a parameter; nil and empty lists are not distinguished.
 */
module Tags {
  // ---- trimming ----

  /** unicode.IsSpace */
  predicate IsSpace(c: char) {
    || '\t' <= c <= '\r' || c == ' ' || c == '\U{85}' || c == '\U{A0}' || c == '\U{1680}'
    || '\U{2000}' <= c <= '\U{200A}' || c == '\U{2028}' || c == '\U{2029}' || c == '\U{202F}'
    || c == '\U{205F}' || c == '\U{3000}'
  }

  function TrimLeft(s: string): (t: string)
    ensures t == "" || !IsSpace(t[0])
  {
    if s != "" && IsSpace(s[0]) then TrimLeft(s[1..]) else s
  }

  function TrimRight(s: string): (t: string)
    ensures t == "" || !IsSpace(t[|t| - 1])
    ensures t <= s
  {
    if s != "" && IsSpace(s[|s| - 1]) then TrimRight(s[..|s| - 1]) else s
  }

  /** strings.TrimSpace */
  function Trim(s: string): (t: string)
    ensures t == "" || (!IsSpace(t[0]) && !IsSpace(t[|t| - 1]))
  {
    TrimRight(TrimLeft(s))
  }

  lemma TrimIdempotent(s: string)
    ensures Trim(Trim(s)) == Trim(s)
  {
  }

  predicate AllSpace(s: string) { forall i | 0 <= i < |s| :: IsSpace(s[i]) }

  lemma {:induction false} LeftIs(s: string) returns (a: string)
    ensures s == a + TrimLeft(s) && AllSpace(a)
  {
    if s != "" && IsSpace(s[0]) {
      var rest := LeftIs(s[1..]);
      a := [s[0]] + rest;
    } else {
      a := "";
    }
  }

  lemma {:induction false} RightIs(s: string) returns (b: string)
    ensures s == TrimRight(s) + b && AllSpace(b)
  {
    if s != "" && IsSpace(s[|s| - 1]) {
      var rest := RightIs(s[..|s| - 1]);
      b := rest + [s[|s| - 1]];
    } else {
      b := "";
    }
  }

  /** Trimming removes white space at both ends, all of it, and nothing else. */
  lemma TrimIs(s: string) returns (a: string, b: string)
    ensures s == a + Trim(s) + b
    ensures (forall i | 0 <= i < |a| :: IsSpace(a[i])) && (forall i | 0 <= i < |b| :: IsSpace(b[i]))
    ensures Trim(s) == "" || (!IsSpace(Trim(s)[0]) && !IsSpace(Trim(s)[|Trim(s)| - 1]))
  {
    a := LeftIs(s);
    b := RightIs(TrimLeft(s));
  }

  /** The twenty-five characters of Unicode with the property White_Space. */
  lemma SpaceIs(c: char)
    ensures var spaces := {0x9, 0xA, 0xB, 0xC, 0xD, 0x20, 0x85, 0xA0, 0x1680, 0x2000, 0x2001, 0x2002, 0x2003, 0x2004, 0x2005, 0x2006,
                           0x2007, 0x2008, 0x2009, 0x200A, 0x2028, 0x2029, 0x202F, 0x205F, 0x3000};
      IsSpace(c) <==> c as int in spaces
  {
  }

  // ---- the tags that stay ----

  /** Some tag that is not blank, trimmed and in lower case, is `key`. */
  ghost predicate Seen(tags: seq<string>, lower: string -> string, key: string) {
    exists j | 0 <= j < |tags| :: Trim(tags[j]) != "" && lower(Trim(tags[j])) == key
  }

  /** The tag is not blank, and none before it differs from it only in case and outer space. */
  ghost predicate First(before: seq<string>, tag: string, lower: string -> string) {
    Trim(tag) != "" && !Seen(before, lower, lower(Trim(tag)))
  }

  /** The first occurrences, trimmed, in input order. */
  ghost function Sanitized(tags: seq<string>, lower: string -> string): seq<string> {
    if tags == [] then []
    else
      var before, tag := tags[..|tags| - 1], tags[|tags| - 1];
      Sanitized(before, lower) + if First(before, tag, lower) then [Trim(tag)] else []
  }

  lemma SeenSnoc(tags: seq<string>, tag: string, lower: string -> string, key: string)
    ensures Seen(tags + [tag], lower, key) <==> Seen(tags, lower, key) || (Trim(tag) != "" && lower(Trim(tag)) == key)
  {
    var all := tags + [tag];
    if Seen(tags, lower, key) {
      var j :| 0 <= j < |tags| && Trim(tags[j]) != "" && lower(Trim(tags[j])) == key;
      assert all[j] == tags[j];
    }
    assert all[|tags|] == tag;
  }

  /** The loop's map of seen keys. */
  ghost predicate Tracks(seen: set<string>, before: seq<string>, lower: string -> string) {
    forall k :: k in seen <==> Seen(before, lower, k)
  }

  /** One turn of the loop of sanitizeTags and of normalizeTags. */
  method SanitizeOne(tag: string, seen: set<string>, result: seq<string>, lower: string -> string, ghost before: seq<string>)
    returns (seen': set<string>, result': seq<string>)
    requires result == Sanitized(before, lower) && Tracks(seen, before, lower)
    ensures result' == Sanitized(before + [tag], lower) && Tracks(seen', before + [tag], lower)
  {
    seen', result' := seen, result;
    assert (before + [tag])[..|before|] == before;
    forall k ensures Seen(before + [tag], lower, k) <==> Seen(before, lower, k) || (Trim(tag) != "" && lower(Trim(tag)) == k) {
      SeenSnoc(before, tag, lower, k);
    }
    var trimmed := Trim(tag);
    if trimmed == "" { return; }
    var key := lower(trimmed);
    if key in seen { return; }
    seen' := seen + {key};
    result' := result + [trimmed];
  }

  method SanitizeTags(tags: seq<string>, lower: string -> string) returns (result: seq<string>)
    ensures result == Sanitized(tags, lower)
  {
    var seen: set<string> := {};
    result := [];
    var i := 0;
    while i < |tags|
      invariant 0 <= i <= |tags| && result == Sanitized(tags[..i], lower) && Tracks(seen, tags[..i], lower)
    {
      seen, result := SanitizeOne(tags[i], seen, result, lower, tags[..i]);
      assert tags[..i + 1] == tags[..i] + [tags[i]];
      i := i + 1;
    }
    assert tags[..|tags|] == tags;
  }

  // ---- what the result is ----

  /** Trimmed, not blank, and different whatever the case. */
  ghost predicate Clean(tags: seq<string>, lower: string -> string) {
    && (forall i | 0 <= i < |tags| :: tags[i] != "" && Trim(tags[i]) == tags[i])
    && (forall i, j | 0 <= i < j < |tags| :: lower(tags[i]) != lower(tags[j]))
  }

  /** The tag is the trimmed first occurrence of its kind. */
  ghost predicate FirstOfKind(tags: seq<string>, lower: string -> string, tag: string) {
    exists i | 0 <= i < |tags| :: First(tags[..i], tags[i], lower) && Trim(tags[i]) == tag
  }

  /** Every tag of the result is the first of its kind. */
  lemma {:induction false} OnlyFirsts(tags: seq<string>, lower: string -> string, k: nat)
    requires k < |Sanitized(tags, lower)|
    ensures FirstOfKind(tags, lower, Sanitized(tags, lower)[k])
  {
    var n := |tags| - 1;
    var init := Sanitized(tags[..n], lower);
    if k < |init| {
      OnlyFirsts(tags[..n], lower, k);
      var i :| 0 <= i < n && First(tags[..n][..i], tags[..n][i], lower) && Trim(tags[..n][i]) == init[k];
      assert tags[..n][..i] == tags[..i];
      assert First(tags[..i], tags[i], lower);
    } else {
      assert First(tags[..n], tags[n], lower);
    }
  }

  /** Every kind of tag in the input is represented in the result. */
  lemma {:induction false} KindsKept(tags: seq<string>, lower: string -> string, key: string)
    ensures Seen(tags, lower, key) <==> exists k | 0 <= k < |Sanitized(tags, lower)| :: lower(Sanitized(tags, lower)[k]) == key
  {
    if tags != [] {
      var n := |tags| - 1;
      var init, r := Sanitized(tags[..n], lower), Sanitized(tags, lower);
      KindsKept(tags[..n], lower, key);
      assert tags == tags[..n] + [tags[n]];
      SeenSnoc(tags[..n], tags[n], lower, key);
      if Seen(tags[..n], lower, key) {
        var k :| 0 <= k < |init| && lower(init[k]) == key;
        assert r[k] == init[k];
      } else if Seen(tags, lower, key) {
        assert r[|init|] == Trim(tags[n]);
      } else {
        assert forall k | 0 <= k < |init| :: r[k] == init[k];
      }
    }
  }

  lemma KindSeen(tags: seq<string>, lower: string -> string, k: nat)
    requires k < |Sanitized(tags, lower)|
    ensures Seen(tags, lower, lower(Sanitized(tags, lower)[k]))
  {
    KindsKept(tags, lower, lower(Sanitized(tags, lower)[k]));
  }

  lemma {:induction false} SanitizedIsClean(tags: seq<string>, lower: string -> string)
    ensures Clean(Sanitized(tags, lower), lower)
  {
    if tags != [] {
      var n := |tags| - 1;
      var init := Sanitized(tags[..n], lower);
      SanitizedIsClean(tags[..n], lower);
      if First(tags[..n], tags[n], lower) {
        TrimIdempotent(tags[n]);
        forall k | 0 <= k < |init| ensures lower(init[k]) != lower(Trim(tags[n])) {
          KindSeen(tags[..n], lower, k);
        }
        assert Sanitized(tags, lower) == init + [Trim(tags[n])];
      }
    }
  }

  lemma {:induction false} CleanStays(tags: seq<string>, lower: string -> string)
    requires Clean(tags, lower)
    ensures Sanitized(tags, lower) == tags
  {
    if tags != [] {
      var n := |tags| - 1;
      CleanStays(tags[..n], lower);
      assert tags == tags[..n] + [tags[n]];
      assert forall j | 0 <= j < n :: lower(tags[j]) != lower(tags[n]);
      assert First(tags[..n], tags[n], lower);
    }
  }

  /** The loop changes nothing exactly when the tags are already clean; so it is idempotent. */
  lemma UnchangedIff(tags: seq<string>, lower: string -> string)
    ensures Sanitized(tags, lower) == tags <==> Clean(tags, lower)
    ensures Sanitized(Sanitized(tags, lower), lower) == Sanitized(tags, lower)
  {
    SanitizedIsClean(tags, lower);
    if Clean(tags, lower) { CleanStays(tags, lower); }
    CleanStays(Sanitized(tags, lower), lower);
  }

  // ---- from the request to the stored entity ----

  const MAX_VIDEO_TAGS := 10
  const MAX_VIDEO_TAG_LEN := 32

  /** The tag rules of PublishVideoReq.Validate. */
  predicate ValidTags(tags: seq<string>) {
    |tags| <= MAX_VIDEO_TAGS && forall tag | tag in tags :: tag != "" && |tag| <= MAX_VIDEO_TAG_LEN
  }

  class PublishVideoReq {
    var tags: seq<string>

    constructor (tags: seq<string>)
      ensures this.tags == tags
    {
      this.tags := tags;
    }

    method Normalize(lower: string -> string)
      modifies this
      ensures tags == Sanitized(old(tags), lower)
    {
      tags := SanitizeTags(tags, lower);
    }
  }

  class VideoEntity {
    var tags: seq<string>

    /** DefaultVideoEntity */
    constructor (tags: seq<string>, lower: string -> string)
      ensures this.tags == Sanitized(tags, lower)
    {
      var normalized := SanitizeTags(tags, lower);
      this.tags := normalized;
    }
  }

  /** Normalize, validate, build the entity: the tags stored are exactly the tags validated. */
  method PublishTags(req: PublishVideoReq, lower: string -> string) returns (entity: VideoEntity?)
    modifies req
    ensures req.tags == Sanitized(old(req.tags), lower)
    ensures entity != null <==> |req.tags| <= 10 && forall tag | tag in req.tags :: 1 <= |tag| <= 32
    ensures entity != null ==> entity.tags == req.tags && Clean(entity.tags, lower) && ValidTags(entity.tags)
  {
    req.Normalize(lower);
    if !ValidTags(req.tags) { return null; }
    entity := new VideoEntity(req.tags, lower);
    UnchangedIff(old(req.tags), lower);
    SanitizedIsClean(old(req.tags), lower);
  }
}
