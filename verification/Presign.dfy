/**
 Presigned URLs (AWS Signature Version 4, query authentication).  The query that is signed
 and the query that is sent are different strings, and so are the two paths; a verifier has
 only the link.  Hashes and clocks are parameters.
 */
module Presign {
  import opened Basics
  import opened Keys
  import opened Sorting
  import opened Percent
  import opened Query
  import opened EncodedOrder
  import opened Url
  import opened SigV4

  const ALGORITHM := Ascii("AWS4-HMAC-SHA256")

  predicate Differ(n: Names) {
    && n.signature != n.algorithm && n.signature != n.credential && n.signature != n.date && n.signature != n.expires && n.signature != n.signedHeaders
    && n.signedHeaders != n.algorithm && n.signedHeaders != n.credential && n.signedHeaders != n.date && n.signedHeaders != n.expires
    && n.expires != n.algorithm && n.expires != n.credential && n.expires != n.date
    && n.date != n.algorithm && n.date != n.credential && n.credential != n.algorithm
  }

  predicate PlainNames(n: Names) {
    && AllUnreserved(n.algorithm) && AllUnreserved(n.credential) && AllUnreserved(n.date)
    && AllUnreserved(n.expires) && AllUnreserved(n.signedHeaders)
  }

  /** The names the client sets. */
  const AMZ_NAMES := Names(Name("X-Amz-Algorithm"), Name("X-Amz-Credential"), Name("X-Amz-Date"),
                           Name("X-Amz-Expires"), Name("X-Amz-SignedHeaders"), Name("X-Amz-Signature"))

  /** A parameter name: letters and '-'. */
  function Name(s: string): (k: Bytes)
    requires forall i | 0 <= i < |s| :: 'A' <= s[i] <= 'Z' || 'a' <= s[i] <= 'z' || s[i] == '-'
    ensures AllUnreserved(k)
  {
    Ascii(s)
  }

  lemma AmzNamesDiffer()
    ensures AMZ_NAMES == STANDARD_NAMES && Differ(AMZ_NAMES) && PlainNames(AMZ_NAMES)
  {
    assert AMZ_NAMES.algorithm[6] == 65 && AMZ_NAMES.signedHeaders[10] == 101 && AMZ_NAMES.signature[10] == 97;
  }

  /** One reading of the clock, as "20060102" and "150405". */
  datatype Stamp = Stamp(date: Bytes, time: Bytes) {
    predicate Valid() { |date| == 8 && |time| == 6 }
    function AmzDate(): Bytes { date + Ascii("T") + time + Ascii("Z") }
  }

  function Scope(date: Bytes, region: Bytes): Bytes {
    date + Ascii("/") + region + Ascii("/s3/aws4_request")
  }

  function Credential(s: Signer, date: Bytes): Bytes { s.access + Ascii("/") + Scope(date, s.region) }

  function CanonicalRequest(t: Target, query: Bytes): Bytes { t.verb + [10] + t.path + AfterPath(t.host, query) }

  /** The query, the one header, its name, and no payload hash, each on a line. */
  function AfterPath(host: Bytes, query: Bytes): Bytes {
    [10] + query + [10] + Ascii("host:") + host + [10] + [10] + Ascii("host") + [10] + Ascii("UNSIGNED-PAYLOAD")
  }

  function Signature(c: Crypto, s: Signer, amzDate: Bytes, date: Bytes, t: Target, query: Bytes): Bytes {
    var scope := Scope(date, s.region);
    var sts := ALGORITHM + [10] + amzDate + [10] + scope + [10] + c.sha256Hex(CanonicalRequest(t, query));
    var kDate := c.hmac(Ascii("AWS4") + s.secret, date);
    var kRegion := c.hmac(kDate, s.region);
    var kService := c.hmac(kRegion, Ascii("s3"));
    var kSigning := c.hmac(kService, Ascii("aws4_request"));
    c.hex(c.hmac(kSigning, sts))
  }

  /** The client's texts and keys are those of the standard. */
  lemma SignatureIsStandard(c: Crypto, s: Signer, amzDate: Bytes, date: Bytes, t: Target, query: Bytes)
    ensures CanonicalRequest(t, query) == CanonicalRequestOf(t, query)
    ensures Signature(c, s, amzDate, date, t, query) == SignatureOf(c, s, amzDate, date, t, query)
  {
    RequestJoined(t, query);
    ScopeJoined(date, s.region);
    FourJoined(Ascii("AWS4-HMAC-SHA256"), amzDate, Scope(date, s.region), c.sha256Hex(CanonicalRequest(t, query)), 10);
    FourChained(c.hmac, Ascii("AWS4") + s.secret, date, s.region, Ascii("s3"), Ascii("aws4_request"));
  }

  lemma RequestIsStandard(t: Target, query: Bytes)
    ensures CanonicalRequest(t, query) == CanonicalRequestOf(t, query)
  {
    RequestJoined(t, query);
  }

  lemma ScopeJoined(date: Bytes, region: Bytes)
    ensures Scope(date, region) == Joined(ScopeParts(date, region), 47)
  {
    FourJoined(date, region, Ascii("s3"), Ascii("aws4_request"), 47);
    ScopeEnd();
    Appended(date, region, Ascii("s3"), Ascii("aws4_request"));
  }

  lemma ScopeEnd()
    ensures Ascii("/s3/aws4_request") == [47] + Ascii("s3") + [47] + Ascii("aws4_request") && Ascii("/") == [47]
  {
  }

  lemma Appended(a: Bytes, b: Bytes, c: Bytes, d: Bytes)
    ensures a + [47] + b + ([47] + c + [47] + d) == a + [47] + b + [47] + c + [47] + d
  {
  }

  lemma CredentialIsStandard(s: Signer, date: Bytes)
    ensures Credential(s, date) == CredentialOf(s, date)
  {
    ScopeJoined(date, s.region);
    InFront(s.access, ScopeParts(date, s.region), 47);
    assert Ascii("/") == [47];
  }

  // ---- the verifier ----

  function Without(ps: seq<Pair>, k: Bytes): seq<Pair> {
    if ps == [] then []
    else Without(ps[..|ps| - 1], k) + if ps[|ps| - 1].key == k then [] else [ps[|ps| - 1]]
  }

  /** name=value of every pair, encoded, joined by '&'. */
  function EncodedPairs(ps: seq<Pair>): (r: seq<Bytes>)
    ensures |r| == |ps|
  {
    if ps == [] then [] else [UriEncoded(ps[0].key, false) + ['=' as int] + UriEncoded(ps[0].value, false)] + EncodedPairs(ps[1..])
  }

  /** The canonical query a verifier recomputes: parse, drop the signature, sort and encode. */
  function VerifiedQuery(n: Names, raw: Bytes): Bytes {
    Joined(EncodedPairs(Sort(Without(ParsePairs(raw), n.signature), PairLeq)), '&' as int)
  }

  /** The segments of a query are its parts between '&'. */
  lemma {:induction false} SegmentsJoined(raw: Bytes)
    ensures Joined(Segments(raw), '&' as int) == raw && forall segment | segment in Segments(raw) :: '&' as int !in segment
    decreases |raw|
  {
    if AMPERSAND in raw {
      var (before, after) := Cut(raw, AMPERSAND);
      SegmentsJoined(after);
      InFront(before, Segments(after), 38);
    }
  }

  /** The client prints what the standard prescribes. */
  lemma {:induction false} PrintIsStandard(ps: seq<Pair>)
    ensures Print(ps, false) == Joined(EncodedPairs(ps), '&' as int)
  {
    if ps != [] {
      EncodeIsStandard(ps[0].key);
      EncodeIsStandard(ps[0].value);
      PrintIsStandard(ps[1..]);
      assert EncodedPairs(ps)[1..] == EncodedPairs(ps[1..]);
    }
  }

  ghost predicate Carries(n: Names, raw: Bytes, v: Names) {
    var ps := ParsePairs(raw);
    && ValuesOf(ps, n.algorithm) == [v.algorithm] && ValuesOf(ps, n.credential) == [v.credential]
    && ValuesOf(ps, n.date) == [v.date] && ValuesOf(ps, n.expires) == [v.expires]
    && ValuesOf(ps, n.signedHeaders) == [v.signedHeaders] && ValuesOf(ps, n.signature) == [v.signature]
  }

  /** The verifier's checks, for the date and the number of seconds it read. */
  ghost predicate Checks(n: Names, c: Crypto, s: Signer, t: Target, raw: Bytes, amzDate: Bytes, seconds: nat) {
    && |amzDate| >= 8 && 1 <= seconds <= 604800
    && var date := amzDate[..8];
       Carries(n, raw, Names(Ascii("AWS4-HMAC-SHA256"), CredentialOf(s, date), amzDate, Ascii(Decimal(seconds)), Ascii("host"),
                             SignatureOf(c, s, amzDate, date, t, VerifiedQuery(n, raw))))
  }

  /** A presigned URL as it arrives, and the verb it is used with. */
  datatype Link = Link(verb: Bytes, host: Bytes, path: Bytes, rawQuery: Bytes)

  /** What a Signature Version 4 verifier checks of a presigned URL, from the link alone. */
  ghost predicate VerifierAccepts(c: Crypto, s: Signer, link: Link) {
    && VerifiedPath(link.path).Some?
    && var t := Target(link.verb, VerifiedPath(link.path).value, link.host);
       exists amzDate, seconds :: Checks(STANDARD_NAMES, c, s, t, link.rawQuery, amzDate, seconds)
  }

  lemma {:induction false} ValuesWithout(ps: seq<Pair>, gone: Bytes, k: Bytes)
    ensures ValuesOf(Without(ps, gone), k) == if k == gone then [] else ValuesOf(ps, k)
  {
    if ps != [] {
      var n := |ps| - 1;
      ValuesWithout(ps[..n], gone, k);
      if ps[n].key != gone {
        assert Without(ps, gone)[..|Without(ps, gone)| - 1] == Without(ps[..n], gone);
      } else {
        assert Without(ps, gone) == Without(ps[..n], gone);
      }
    }
  }

  /** Pair lists that group to the same values hold the same pairs, counted. */
  lemma SameGroupSamePairs(a: seq<Pair>, b: seq<Pair>)
    requires forall k :: ValuesOf(a, k) == ValuesOf(b, k)
    ensures multiset(a) == multiset(b)
  {
    forall p ensures multiset(a)[p] == multiset(b)[p] {
      CountValues(a, p.key, p.value);
      CountValues(b, p.key, p.value);
    }
  }

  /**
   Parsing the query that is sent, removing the signature and canonicalizing the rest gives
   back exactly the canonical query that was signed.
   */
  lemma SignedQueryRecovered(n: Names, encoded: Bytes, sent: Bytes, sig: Bytes)
    requires var qs := Group(ParsePairs(encoded));
             !Blank(encoded) && n.signature !in qs && Group(ParsePairs(sent)) == qs[n.signature := [sig]]
    ensures VerifiedQuery(n, sent) == Canonical(encoded)
  {
    var signed, rest := ParsePairs(encoded), Without(ParsePairs(sent), n.signature);
    forall k ensures ValuesOf(rest, k) == ValuesOf(signed, k) {
      ValuesWithout(ParsePairs(sent), n.signature, k);
      GroupValues(signed, k);
      GroupValues(ParsePairs(sent), k);
    }
    SameGroupSamePairs(rest, signed);
    PairOrder();
    SortSorts(rest, PairLeq);
    SortUnique(Sort(rest, PairLeq), signed, PairLeq);
    PrintIsStandard(Sort(rest, PairLeq));
  }

  // ---- presigning ----

  const SECOND := 1_000_000_000

  /** The X-Amz-Expires value: whole seconds of a duration, or a fallback, always in 1..604800. */
  function ExpirySeconds(expires: int, default: nat, fallback: nat): (sec: nat)
    requires default > 0 && 1 <= fallback <= 604800
    ensures 1 <= sec <= 604800
    ensures var e := if expires <= 0 then default else expires;
      if 1_000_000_000 <= e < 604801 * 1_000_000_000 then sec * 1_000_000_000 <= e < (sec + 1) * 1_000_000_000 else sec == fallback
  {
    var e := if expires <= 0 then default else expires;
    var sec := e / SECOND;
    if sec <= 0 || sec > 604800 then fallback else sec
  }

  /** The six values under their names. */
  function AsValues(n: Names, v: Names): Values {
    map[n.algorithm := [v.algorithm]][n.credential := [v.credential]][n.date := [v.date]][n.expires := [v.expires]]
       [n.signedHeaders := [v.signedHeaders]][n.signature := [v.signature]]
  }

  /** A query that parses to the six values carries them. */
  lemma ParsedCarries(n: Names, v: Names, raw: Bytes)
    requires Differ(n) && Group(ParsePairs(raw)) == AsValues(n, v)
    ensures Carries(n, raw, v)
  {
    var ps := ParsePairs(raw);
    GroupValues(ps, n.algorithm);
    GroupValues(ps, n.credential);
    GroupValues(ps, n.date);
    GroupValues(ps, n.expires);
    GroupValues(ps, n.signedHeaders);
    GroupValues(ps, n.signature);
    SixValues(n, v);
  }

  lemma SixValues(n: Names, v: Names)
    requires Differ(n)
    ensures var m := AsValues(n, v);
      && Get(m, n.algorithm) == [v.algorithm] && Get(m, n.credential) == [v.credential]
      && Get(m, n.date) == [v.date] && Get(m, n.expires) == [v.expires]
      && Get(m, n.signedHeaders) == [v.signedHeaders] && Get(m, n.signature) == [v.signature]
  {
  }

  /** The five values that are signed. */
  method SignedValues(n: Names, v: Names) returns (qs: Values)
    requires Differ(n)
    ensures n.signature !in qs && |qs| > 0
    ensures qs[n.signature := [v.signature]] == AsValues(n, v)
    ensures forall k | k in qs :: k in [n.algorithm, n.credential, n.date, n.expires, n.signedHeaders] && |qs[k]| == 1
  {
    qs := map[];
    qs := qs[n.algorithm := [v.algorithm]];
    qs := qs[n.credential := [v.credential]];
    qs := qs[n.date := [v.date]];
    qs := qs[n.expires := [v.expires]];
    qs := qs[n.signedHeaders := [v.signedHeaders]];
  }

  /** Encode and canonicalize what is signed, then encode it again with the signature. */
  method SignAndEncode(n: Names, qs: Values, c: Crypto, s: Signer, amzDate: Bytes, date: Bytes, t: Target) returns (rawQuery: Bytes)
    requires n.signature !in qs && |qs| > 0 && PlainOnce(qs)
    ensures InStandardOrder(VerifiedQuery(n, rawQuery))
    ensures Group(ParsePairs(rawQuery)) == qs[n.signature := [Signature(c, s, amzDate, date, t, VerifiedQuery(n, rawQuery))]]
  {
    var encoded := EncodeValues(qs);
    var canonicalQuery := CanonicalizeQuery(encoded);
    var sig := Signature(c, s, amzDate, date, t, canonicalQuery);
    rawQuery := EncodeValues(qs[n.signature := [sig]]);
    SignedQueryRecovered(n, encoded, rawQuery, sig);
    SignedInOrder(encoded);
  }

  /** Unreserved names with one value each. */
  ghost predicate PlainOnce(qs: Values) { forall k | k in qs :: AllUnreserved(k) && |qs[k]| == 1 }

  /** Plain names used once each: the order signed is the order the standard prescribes. */
  lemma SignedInOrder(encoded: Bytes)
    requires !Blank(encoded) && PlainOnce(Group(ParsePairs(encoded)))
    ensures InStandardOrder(Canonical(encoded))
  {
    var signed := ParsePairs(encoded);
    forall p | p in signed ensures PlainOnly(signed, p) { OnlyPair(signed, p); }
    ClientOrderAgrees(encoded);
  }

  lemma OnlyPair(signed: seq<Pair>, p: Pair)
    requires p in signed && PlainOnce(Group(signed))
    ensures PlainOnly(signed, p)
  {
    OnlyValue(signed, p);
    forall q | q in signed && q.key == p.key ensures q == p {
      OnlyValue(signed, q);
      SameOnly(q.value, p.value);
    }
  }

  lemma OnlyValue(signed: seq<Pair>, p: Pair)
    requires p in signed && PlainOnce(Group(signed))
    ensures p.key in Group(signed) && Group(signed)[p.key] == [p.value]
  {
    CountValues(signed, p.key, p.value);
    assert p in multiset(signed);
    assert p.value in multiset(ValuesOf(signed, p.key));
    GroupValues(signed, p.key);
  }

  lemma Accepted(n: Names, c: Crypto, s: Signer, t: Target, amzDate: Bytes, seconds: nat, raw: Bytes, v: Names)
    requires Differ(n) && |amzDate| >= 8 && 1 <= seconds <= 604800 && Group(ParsePairs(raw)) == AsValues(n, v)
    requires v.algorithm == ALGORITHM && v.credential == Credential(s, amzDate[..8]) && v.date == amzDate
    requires v.expires == Ascii(Decimal(seconds)) && v.signedHeaders == Ascii("host")
    requires v.signature == Signature(c, s, amzDate, amzDate[..8], t, VerifiedQuery(n, raw))
    ensures Checks(n, c, s, t, raw, amzDate, seconds)
  {
    SignatureIsStandard(c, s, amzDate, amzDate[..8], t, VerifiedQuery(n, raw));
    CredentialIsStandard(s, amzDate[..8]);
    ParsedCarries(n, v, raw);
  }

  method PresignURL(n: Names, c: Crypto, s: Signer, t: Target, stamp: Stamp, expires: int, default: nat, fallback: nat) returns (rawQuery: Bytes)
    requires Differ(n) && PlainNames(n) && stamp.Valid() && default > 0 && 1 <= fallback <= 604800
    ensures Checks(n, c, s, t, rawQuery, stamp.AmzDate(), ExpirySeconds(expires, default, fallback))
    ensures InStandardOrder(VerifiedQuery(n, rawQuery))
  {
    var sec := ExpirySeconds(expires, default, fallback);
    var amzDate := stamp.AmzDate();
    assert amzDate[..8] == stamp.date;
    var v := Names(ALGORITHM, Credential(s, stamp.date), amzDate, Ascii(Decimal(sec)), Ascii("host"), []);
    var qs := SignedValues(n, v);
    rawQuery := SignAndEncode(n, qs, c, s, amzDate, stamp.date, t);
    ghost var signed := v.(signature := Signature(c, s, amzDate, stamp.date, t, VerifiedQuery(n, rawQuery)));
    Signed(n, v, qs, signed.signature);
    Accepted(n, c, s, t, amzDate, sec, rawQuery, signed);
  }

  lemma Signed(n: Names, v: Names, qs: Values, sig: Bytes)
    requires qs[n.signature := [v.signature]] == AsValues(n, v)
    ensures qs[n.signature := [sig]] == AsValues(n, v.(signature := sig))
  {
    assert qs[n.signature := [sig]] == qs[n.signature := [v.signature]][n.signature := [sig]];
  }

  // ---- links to objects ----

  /** The public endpoint: its host and, if it has one, its own path. */
  datatype Endpoint = Endpoint(host: Bytes, base: Bytes)

  /** strings.TrimLeft(key, "/") */
  function TrimSlashes(key: Bytes): Bytes {
    if key != [] && key[0] == SLASH then TrimSlashes(key[1..]) else key
  }

  /** publicS3URL, from the end of the host on. */
  function ObjectText(e: Endpoint, bucket: Bytes, key: Bytes): Bytes {
    e.base + [SLASH] + bucket + [SLASH] + TrimSlashes(key)
  }

  /** The link prints the parsed path of the text, and is signed for that path, decoded as it is. */
  ghost predicate SignedFor(c: Crypto, s: Signer, text: Bytes, link: Link, amzDate: Bytes, seconds: nat) {
    && ParsedPath(text).Some? && link.path == SentPath(text)
    && Checks(STANDARD_NAMES, c, s, Target(link.verb, ParsedPath(text).value, link.host), link.rawQuery, amzDate, seconds)
    && InStandardOrder(VerifiedQuery(STANDARD_NAMES, link.rawQuery))
  }

  /** YYYYMMDD'T'HHMMSS'Z' */
  lemma DateText(stamp: Stamp)
    ensures stamp.AmzDate() == stamp.date + [84] + stamp.time + [90]
    ensures stamp.Valid() ==> |stamp.AmzDate()| == 16 && stamp.AmzDate()[..8] == stamp.date
  {
  }

  predicate Spells(k: Bytes, text: string) { |k| == |text| && forall i | 0 <= i < |k| :: k[i] == text[i] as int }

  /** The query has this one value under the name so spelled. */
  ghost predicate SentAs(raw: Bytes, text: string, value: Bytes) {
    forall k: Bytes :: Spells(k, text) ==> ValuesOf(ParsePairs(raw), k) == [value]
  }

  lemma NameSent(raw: Bytes, text: string, name: Bytes, value: Bytes)
    requires Spells(name, text) && ValuesOf(ParsePairs(raw), name) == [value]
    ensures SentAs(raw, text, value)
  {
    forall k: Bytes | Spells(k, text) ensures k == name { }
  }

  lemma NamesAsSpelled()
    ensures var n := STANDARD_NAMES;
      && Spells(n.algorithm, "X-Amz-Algorithm") && Spells(n.credential, "X-Amz-Credential") && Spells(n.date, "X-Amz-Date")
      && Spells(n.expires, "X-Amz-Expires") && Spells(n.signedHeaders, "X-Amz-SignedHeaders") && Spells(n.signature, "X-Amz-Signature")
  {
  }

  /** The parameters of a link, by name: a verifier finds the date and the seconds where it looks for them. */
  lemma SentParameters(c: Crypto, s: Signer, text: Bytes, link: Link, amzDate: Bytes, seconds: nat)
    requires SignedFor(c, s, text, link, amzDate, seconds)
    ensures SentAs(link.rawQuery, "X-Amz-Algorithm", ALGORITHM) && SentAs(link.rawQuery, "X-Amz-Credential", Credential(s, amzDate[..8]))
    ensures SentAs(link.rawQuery, "X-Amz-Date", amzDate) && SentAs(link.rawQuery, "X-Amz-Expires", Ascii(Decimal(seconds)))
    ensures exists sig :: SentAs(link.rawQuery, "X-Amz-Signature", sig)
  {
    var n, date := STANDARD_NAMES, amzDate[..8];
    NamesAsSpelled();
    CredentialIsStandard(s, date);
    NameSent(link.rawQuery, "X-Amz-Algorithm", n.algorithm, ALGORITHM);
    NameSent(link.rawQuery, "X-Amz-Credential", n.credential, Credential(s, date));
    NameSent(link.rawQuery, "X-Amz-Date", n.date, amzDate);
    NameSent(link.rawQuery, "X-Amz-Expires", n.expires, Ascii(Decimal(seconds)));
    NameSent(link.rawQuery, "X-Amz-Signature", n.signature, ValuesOf(ParsePairs(link.rawQuery), n.signature)[0]);
  }

  method PresignObject(c: Crypto, s: Signer, verb: Bytes, endpoint: Option<Endpoint>, bucket: Bytes, key: Bytes,
                       stamp: Stamp, expires: int, default: nat, fallback: nat)
    returns (link: Option<Link>)
    requires stamp.Valid() && default > 0 && 1 <= fallback <= 604800
    ensures link.Some? <==> endpoint.Some? && endpoint.value.host != [] && ParsedPath(ObjectText(endpoint.value, bucket, key)).Some?
    ensures link.Some? ==>
      && link.value.verb == verb && link.value.host == endpoint.value.host
      && SignedFor(c, s, ObjectText(endpoint.value, bucket, key), link.value, stamp.AmzDate(), ExpirySeconds(expires, default, fallback))
  {
    if endpoint.None? || endpoint.value.host == [] { return None; }
    var text := ObjectText(endpoint.value, bucket, key);
    var path := ParsedPath(text);
    if path.None? { return None; }
    AmzNamesDiffer();
    var q := PresignURL(AMZ_NAMES, c, s, Target(verb, path.value, endpoint.value.host), stamp, expires, default, fallback);
    link := Some(Link(verb, endpoint.value.host, SentPath(text), q));
  }

  /** A write link, for fifteen minutes by default; refused when the URL does not parse or has no host. */
  method PresignPutURL(c: Crypto, s: Signer, endpoint: Option<Endpoint>, bucket: Bytes, key: Bytes, stamp: Stamp, expires: int) returns (link: Option<Link>)
    requires stamp.Valid()
    ensures link.Some? <==> endpoint.Some? && endpoint.value.host != [] && ParsedPath(ObjectText(endpoint.value, bucket, key)).Some?
    ensures link.Some? ==>
      var text := ObjectText(endpoint.value, bucket, key);
      && link.value.verb == Ascii("PUT") && link.value.host == endpoint.value.host
      && SignedFor(c, s, text, link.value, stamp.date + [84] + stamp.time + [90], ExpirySeconds(expires, 15 * 60 * SECOND, 900))
      && (PlainPath(ParsedPath(text).value) ==> VerifierAccepts(c, s, link.value))
    ensures endpoint.Some? && endpoint.value.host != [] && PlainPath(endpoint.value.base) && PlainPath(bucket) && PlainPath(key) ==>
      && link.Some? && VerifierAccepts(c, s, link.value)
      && (key != [] && key[0] != '/' as int ==> link.value.path == endpoint.value.base + [47] + bucket + [47] + key)
  {
    if endpoint.Some? { PlainKeyParses(endpoint.value, bucket, key); }
    link := PresignObject(c, s, Ascii("PUT"), endpoint, bucket, key, stamp, expires, 15 * 60 * SECOND, 900);
    if link.Some? { DateText(stamp); AcceptedWhenPlain(c, s, ObjectText(endpoint.value, bucket, key), link.value, stamp.AmzDate(), ExpirySeconds(expires, 15 * 60 * SECOND, 900)); }
  }

  /** A read link, for a day by default. */
  method PresignGetURL(c: Crypto, s: Signer, endpoint: Option<Endpoint>, bucket: Bytes, key: Bytes, stamp: Stamp, expires: int) returns (link: Option<Link>)
    requires stamp.Valid()
    ensures link.Some? <==> endpoint.Some? && endpoint.value.host != [] && ParsedPath(ObjectText(endpoint.value, bucket, key)).Some?
    ensures link.Some? ==>
      var text := ObjectText(endpoint.value, bucket, key);
      && link.value.verb == Ascii("GET") && link.value.host == endpoint.value.host
      && SignedFor(c, s, text, link.value, stamp.date + [84] + stamp.time + [90], ExpirySeconds(expires, 24 * 3600 * SECOND, 86400))
      && (PlainPath(ParsedPath(text).value) ==> VerifierAccepts(c, s, link.value))
    ensures endpoint.Some? && endpoint.value.host != [] && PlainPath(endpoint.value.base) && PlainPath(bucket) && PlainPath(key) ==>
      && link.Some? && VerifierAccepts(c, s, link.value)
      && (key != [] && key[0] != '/' as int ==> link.value.path == endpoint.value.base + [47] + bucket + [47] + key)
  {
    if endpoint.Some? { PlainKeyParses(endpoint.value, bucket, key); }
    link := PresignObject(c, s, Ascii("GET"), endpoint, bucket, key, stamp, expires, 24 * 3600 * SECOND, 86400);
    if link.Some? { DateText(stamp); AcceptedWhenPlain(c, s, ObjectText(endpoint.value, bucket, key), link.value, stamp.AmzDate(), ExpirySeconds(expires, 24 * 3600 * SECOND, 86400)); }
  }

  /** A plain key is sent as it is. */
  lemma PlainKeyParses(e: Endpoint, bucket: Bytes, key: Bytes)
    ensures PlainPath(e.base) && PlainPath(bucket) && PlainPath(key) ==>
      var text := ObjectText(e, bucket, key); PlainPath(text) && ParsedPath(text) == Some(text) && SentPath(text) == text
  {
    if PlainPath(e.base) && PlainPath(bucket) && PlainPath(key) {
      TextPlain(e, bucket, key);
      PlainIsUnambiguous(ObjectText(e, bucket, key));
    }
  }

  // ---- when a verifier accepts ----

  lemma Cancel(a: Bytes, x: Bytes, y: Bytes, b: Bytes)
    requires a + x + b == a + y + b
    ensures x == y
  {
    var l, r := a + x + b, a + y + b;
    assert |x| == |y|;
    forall i | 0 <= i < |x| ensures x[i] == y[i] {
      assert l[|a| + i] == x[i] && r[|a| + i] == y[i];
    }
  }

  /** Canonical requests for two paths are the same text only when the paths are the same. */
  lemma RequestsDiffer(t: Target, t': Target, query: Bytes)
    requires t'.verb == t.verb && t'.host == t.host && CanonicalRequest(t, query) == CanonicalRequest(t', query)
    ensures t.path == t'.path
  {
    Cancel(t.verb + [10], t.path, t'.path, AfterPath(t.host, query));
  }

  /**
   The request the client signs is the one a verifier computes from the link exactly when
   every byte of the parsed path is '/' or unreserved.
   */
  lemma RequestsAgreeIff(text: Bytes, verb: Bytes, host: Bytes, query: Bytes)
    requires ParsedPath(text).Some?
    ensures VerifiedPath(SentPath(text)).Some?
    ensures CanonicalRequest(Target(verb, ParsedPath(text).value, host), query)
         == CanonicalRequestOf(Target(verb, VerifiedPath(SentPath(text)).value, host), query)
      <==> PlainPath(ParsedPath(text).value)
  {
    SentDecodes(text);
    PathsAgreeIff(text);
    var t, t' := Target(verb, ParsedPath(text).value, host), Target(verb, VerifiedPath(SentPath(text)).value, host);
    RequestIsStandard(t', query);
    if CanonicalRequest(t, query) == CanonicalRequest(t', query) { RequestsDiffer(t, t', query); }
  }

  lemma AcceptedWhenPlain(c: Crypto, s: Signer, text: Bytes, link: Link, amzDate: Bytes, seconds: nat)
    requires SignedFor(c, s, text, link, amzDate, seconds)
    ensures PlainPath(ParsedPath(text).value) ==> VerifierAccepts(c, s, link)
  {
    PathsAgreeIff(text);
  }

  /** A link whose path is not plain is rejected, unless the two requests happen to have the same signature. */
  lemma RejectedWhenNotPlain(c: Crypto, s: Signer, text: Bytes, link: Link, amzDate: Bytes, seconds: nat)
    requires SignedFor(c, s, text, link, amzDate, seconds) && !PlainPath(ParsedPath(text).value)
    requires VerifiedPath(link.path).Some? ==>
      var query := VerifiedQuery(STANDARD_NAMES, link.rawQuery);
      SignatureOf(c, s, amzDate, amzDate[..8], Target(link.verb, VerifiedPath(link.path).value, link.host), query)
        != SignatureOf(c, s, amzDate, amzDate[..8], Target(link.verb, ParsedPath(text).value, link.host), query)
    ensures !VerifierAccepts(c, s, link)
  {
    if VerifiedPath(link.path).Some? {
      var t := Target(link.verb, VerifiedPath(link.path).value, link.host);
      forall amz, sec ensures !Checks(STANDARD_NAMES, c, s, t, link.rawQuery, amz, sec) {
        OneSignature(c, s, Target(link.verb, ParsedPath(text).value, link.host), t, link.rawQuery, amzDate, seconds, amz, sec);
      }
    }
  }

  lemma SameOnly(a: Bytes, b: Bytes)
    ensures [a] == [b] ==> a == b
  {
    var x, y := [a], [b];
    assert x[0] == a && y[0] == b;
  }

  /** A query carries one date and one signature: checks for two targets give both the same signature. */
  lemma OneSignature(c: Crypto, s: Signer, t: Target, t': Target, raw: Bytes, amzDate: Bytes, seconds: nat, amz: Bytes, sec: nat)
    requires Checks(STANDARD_NAMES, c, s, t, raw, amzDate, seconds)
    ensures Checks(STANDARD_NAMES, c, s, t', raw, amz, sec) ==>
      amz == amzDate && SignatureOf(c, s, amzDate, amzDate[..8], t', VerifiedQuery(STANDARD_NAMES, raw))
                     == SignatureOf(c, s, amzDate, amzDate[..8], t, VerifiedQuery(STANDARD_NAMES, raw))
  {
    if Checks(STANDARD_NAMES, c, s, t', raw, amz, sec) {
      SameOnly(amz, amzDate);
      SameOnly(SignatureOf(c, s, amz, amz[..8], t', VerifiedQuery(STANDARD_NAMES, raw)),
               SignatureOf(c, s, amzDate, amzDate[..8], t, VerifiedQuery(STANDARD_NAMES, raw)));
    }
  }

  // ---- in terms of the key ----

  lemma {:induction false} TrimmedPlain(key: Bytes)
    ensures PlainPath(TrimSlashes(key)) <==> PlainPath(key)
  {
    if key != [] && key[0] == SLASH {
      TrimmedPlain(key[1..]);
      assert key == [key[0]] + key[1..];
    }
  }

  lemma TextPlain(e: Endpoint, bucket: Bytes, key: Bytes)
    requires PlainPath(e.base) && PlainPath(bucket)
    ensures PlainPath(ObjectText(e, bucket, key)) <==> PlainPath(key)
  {
    TrimmedPlain(key);
    var before, rest := e.base + [SLASH] + bucket + [SLASH], TrimSlashes(key);
    var text := before + rest;
    assert PlainPath(before);
    if PlainPath(text) {
      forall i | 0 <= i < |rest| ensures PlainByte(rest[i]) { assert text[|before| + i] == rest[i]; }
    }
  }

  /** The link made for the key names its object. */
  predicate NamesObject(e: Endpoint, bucket: Bytes, key: Bytes) {
    ParsedPath(ObjectText(e, bucket, key)) == Some(ObjectText(e, bucket, key))
  }

  /** The request signed for the key is the one a verifier computes from the link. */
  predicate RequestsAgree(e: Endpoint, bucket: Bytes, key: Bytes, verb: Bytes, query: Bytes) {
    var text := ObjectText(e, bucket, key);
    && ParsedPath(text).Some? && VerifiedPath(SentPath(text)).Some?
    && CanonicalRequest(Target(verb, ParsedPath(text).value, e.host), query)
       == CanonicalRequestOf(Target(verb, VerifiedPath(SentPath(text)).value, e.host), query)
  }

  /**
   What a caller can check beforehand: the link names the object asked for, and the request
   signed is the one a verifier computes, exactly when every byte of the key is '/' or unreserved.
   */
  lemma KeyServedIff(e: Endpoint, bucket: Bytes, key: Bytes, verb: Bytes, query: Bytes)
    requires PlainPath(e.base) && PlainPath(bucket)
    ensures NamesObject(e, bucket, key) && RequestsAgree(e, bucket, key, verb, query) <==> PlainPath(key)
  {
    var text := ObjectText(e, bucket, key);
    TextPlain(e, bucket, key);
    if PlainPath(key) { PlainIsUnambiguous(text); }
    if ParsedPath(text).Some? { RequestsAgreeIff(text, verb, e.host, query); }
  }

  /** Without '#', '?', '%' and control bytes in it, the agreement alone already needs a plain key. */
  lemma KeyAgreesIff(e: Endpoint, bucket: Bytes, key: Bytes, verb: Bytes, query: Bytes)
    requires PlainPath(e.base) && PlainPath(bucket) && Unambiguous(ObjectText(e, bucket, key))
    ensures NamesObject(e, bucket, key)
    ensures RequestsAgree(e, bucket, key, verb, query) <==> PlainPath(key)
  {
    var text := ObjectText(e, bucket, key);
    TextPlain(e, bucket, key);
    UnambiguousParses(text);
    RequestsAgreeIff(text, verb, e.host, query);
  }

  /** Plain bytes and spaces are neither cut nor decoded nor refused. */
  lemma SpaceUnambiguous(text: Bytes)
    requires forall i | 0 <= i < |text| :: PlainByte(text[i]) || text[i] == SPACE
    ensures Unambiguous(text)
  {
    assert !PlainByte(HASH) && !PlainByte(QUESTION) && !PlainByte(PERCENT);
  }

  /** A key with a space in it: the link names the object, but the client signs the space and the verifier computes "%20". */
  lemma SpaceInKey(e: Endpoint, bucket: Bytes, key: Bytes, verb: Bytes, query: Bytes)
    requires PlainPath(e.base) && PlainPath(bucket) && SPACE in key
    requires forall i | 0 <= i < |key| :: PlainByte(key[i]) || key[i] == SPACE
    ensures NamesObject(e, bucket, key) && !RequestsAgree(e, bucket, key, verb, query)
  {
    var before, rest := e.base + [SLASH] + bucket + [SLASH], TrimSlashes(key);
    assert PlainPath(before);
    TrimmedTail(key);
    SpaceUnambiguous(before + rest);
    assert !PlainByte(SPACE);
    KeyAgreesIff(e, bucket, key, verb, query);
  }

  lemma {:induction false} TrimmedTail(key: Bytes)
    ensures |TrimSlashes(key)| <= |key| && TrimSlashes(key) == key[|key| - |TrimSlashes(key)|..]
    ensures forall i | 0 <= i < |key| - |TrimSlashes(key)| :: key[i] == '/' as int
    ensures TrimSlashes(key) == [] || TrimSlashes(key)[0] != '/' as int
  {
    if key != [] && key[0] == SLASH { TrimmedTail(key[1..]); }
  }

  /** A key "%41" shows why the link must also name the object: both sides agree, but on the object "A". */
  lemma PercentInKey(e: Endpoint, bucket: Bytes)
    requires PlainPath(e.base) && PlainPath(bucket)
    ensures var text, path := ObjectText(e, bucket, [PERCENT, 52, 49]), ObjectText(e, bucket, [65]);
      ParsedPath(text) == Some(path) && VerifiedPath(SentPath(text)) == Some(path)
  {
    var key, before := [PERCENT, 52, 49], e.base + [SLASH] + bucket + [SLASH];
    var text, path := ObjectText(e, bucket, key), ObjectText(e, bucket, [65]);
    assert key[3..] == [] && [65] + [] == [65] && Unescape(key, false) == Some([65]);
    assert !PlainByte(PERCENT) && !PlainByte(HASH) && !PlainByte(QUESTION);
    assert PlainPath(before);
    DecodeAfter(before, key);
    assert HASH !in text && QUESTION !in text && !HasControl(text);
    assert text == before + key && path == before + [65];
    assert Cut(text, HASH) == (text, []) && Cut(text, QUESTION) == (text, []);
    assert ParsedPath(text) == Some(path);
    TextPlain(e, bucket, [65]);
    PathsAgreeIff(text);
  }
}
