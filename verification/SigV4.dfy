/**
 AWS Signature Version 4 for presigned URLs, as a verifier applies it ("Authenticating
 Requests: Using Query Parameters"): texts are lists of lines joined by line feeds, the
 signing key is a chain of HMACs, and the six parameters have fixed names.
 */
module SigV4 {
  import opened Basics

  /** SHA-256 in hexadecimal, HMAC-SHA256, and hexadecimal printing. */
  datatype Crypto = Crypto(sha256Hex: Bytes -> Bytes, hmac: (Bytes, Bytes) -> Bytes, hex: Bytes -> Bytes)

  datatype Signer = Signer(access: Bytes, secret: Bytes, region: Bytes)

  /** What is asked for: the verb, the canonical path and the host. */
  datatype Target = Target(verb: Bytes, path: Bytes, host: Bytes)

  /** The values of, or the names of, the six query parameters. */
  datatype Names = Names(algorithm: Bytes, credential: Bytes, date: Bytes, expires: Bytes, signedHeaders: Bytes, signature: Bytes)

  const STANDARD_NAMES := Names(Ascii("X-Amz-Algorithm"), Ascii("X-Amz-Credential"), Ascii("X-Amz-Date"),
                                Ascii("X-Amz-Expires"), Ascii("X-Amz-SignedHeaders"), Ascii("X-Amz-Signature"))

  // ---- encoding ----

  const HEX_DIGITS := Ascii("0123456789ABCDEF")

  predicate NeedsNoEncoding(c: byte) {
    var x := c as char;
    'A' <= x <= 'Z' || 'a' <= x <= 'z' || '0' <= x <= '9' || x == '-' || x == '.' || x == '_' || x == '~'
  }

  /** UriEncode: every byte but the unreserved ones, and '/' in a path, as '%' and two uppercase hexadecimal digits. */
  function UriEncoded(s: Bytes, path: bool): Bytes {
    if s == [] then []
    else
      var c := s[0];
      (if NeedsNoEncoding(c) || (path && c as char == '/') then [c] else ['%' as int, HEX_DIGITS[c / 16], HEX_DIGITS[c % 16]])
      + UriEncoded(s[1..], path)
  }

  // ---- what is signed ----

  /** The parts with the separator between them. */
  function Joined(parts: seq<Bytes>, sep: byte): Bytes {
    if parts == [] then []
    else if |parts| == 1 then parts[0]
    else parts[0] + [sep] + Joined(parts[1..], sep)
  }

  /** date / region / service / request type: of the credential's scope and of the signing key. */
  function ScopeParts(date: Bytes, region: Bytes): seq<Bytes> { [date, region, Ascii("s3"), Ascii("aws4_request")] }

  function CredentialOf(s: Signer, date: Bytes): Bytes {
    Joined([s.access] + ScopeParts(date, s.region), '/' as int)
  }

  /** One signed header, the host; the payload is not signed. */
  function CanonicalRequestOf(t: Target, query: Bytes): Bytes {
    Joined([t.verb, t.path, query, Ascii("host:") + t.host, [], Ascii("host"), Ascii("UNSIGNED-PAYLOAD")], '\n' as int)
  }

  function StringToSign(c: Crypto, amzDate: Bytes, date: Bytes, region: Bytes, request: Bytes): Bytes {
    Joined([Ascii("AWS4-HMAC-SHA256"), amzDate, Joined(ScopeParts(date, region), '/' as int), c.sha256Hex(request)], '\n' as int)
  }

  /** Each part keyed with what came before. */
  function HmacChain(hmac: (Bytes, Bytes) -> Bytes, key: Bytes, parts: seq<Bytes>): Bytes {
    if parts == [] then key else hmac(HmacChain(hmac, key, parts[..|parts| - 1]), parts[|parts| - 1])
  }

  function SignatureOf(c: Crypto, s: Signer, amzDate: Bytes, date: Bytes, t: Target, query: Bytes): Bytes {
    var key := HmacChain(c.hmac, Ascii("AWS4") + s.secret, ScopeParts(date, s.region));
    c.hex(c.hmac(key, StringToSign(c, amzDate, date, s.region, CanonicalRequestOf(t, query))))
  }

  // ---- lists of known length ----

  lemma FourJoined(a: Bytes, b: Bytes, c: Bytes, d: Bytes, sep: byte)
    ensures Joined([a, b, c, d], sep) == a + [sep] + b + [sep] + c + [sep] + d
  {
    TwoJoined(c, d, sep);
    assert [b, c, d][1..] == [c, d] && [a, b, c, d][1..] == [b, c, d];
  }

  lemma TwoJoined(a: Bytes, b: Bytes, sep: byte)
    ensures Joined([a, b], sep) == a + [sep] + b
  {
    assert [a, b][1..] == [b];
  }

  lemma FourChained(hmac: (Bytes, Bytes) -> Bytes, key: Bytes, a: Bytes, b: Bytes, c: Bytes, d: Bytes)
    ensures HmacChain(hmac, key, [a, b, c, d]) == hmac(hmac(hmac(hmac(key, a), b), c), d)
  {
    assert [a][..0] == [] && [a, b][..1] == [a] && [a, b, c][..2] == [a, b] && [a, b, c, d][..3] == [a, b, c];
    assert HmacChain(hmac, key, [a]) == hmac(key, a);
    assert HmacChain(hmac, key, [a, b]) == hmac(hmac(key, a), b);
  }

  /** What follows the path of a canonical request. */
  lemma RequestJoined(t: Target, query: Bytes)
    ensures CanonicalRequestOf(t, query) ==
      t.verb + [10] + t.path + ([10] + query + [10] + Ascii("host:") + t.host + [10] + [10] + Ascii("host") + [10] + Ascii("UNSIGNED-PAYLOAD"))
  {
    SevenJoined(t.verb, t.path, query, Ascii("host:") + t.host, Ascii("host"), Ascii("UNSIGNED-PAYLOAD"));
    HeaderApart(query, Ascii("host:"), t.host);
  }

  lemma HeaderApart(query: Bytes, name: Bytes, host: Bytes)
    ensures [10] + query + [10] + (name + host) == [10] + query + [10] + name + host
  {
  }

  lemma SevenJoined(a: Bytes, b: Bytes, c: Bytes, d: Bytes, e: Bytes, f: Bytes)
    ensures Joined([a, b, c, d, [], e, f], 10) == a + [10] + b + ([10] + c + [10] + d + [10] + [10] + e + [10] + f)
  {
    FourJoined(d, [], e, f, 10);
    ThreeInFront(a, b, c, [d, [], e, f], 10);
    assert [a, b, c, d, [], e, f] == [a, b, c] + [d, [], e, f];
    Regrouped(c, d, e, f);
    Grouped(a, b, c + [10] + (d + [10] + [] + [10] + e + [10] + f));
  }

  lemma Regrouped(c: Bytes, d: Bytes, e: Bytes, f: Bytes)
    ensures [10] + (c + [10] + (d + [10] + [] + [10] + e + [10] + f)) == [10] + c + [10] + d + [10] + [10] + e + [10] + f
  {
  }

  lemma Grouped(a: Bytes, b: Bytes, rest: Bytes)
    ensures a + [10] + (b + [10] + rest) == a + [10] + b + ([10] + rest)
  {
  }

  lemma ThreeInFront(a: Bytes, b: Bytes, c: Bytes, rest: seq<Bytes>, sep: byte)
    requires rest != []
    ensures Joined([a, b, c] + rest, sep) == a + [sep] + (b + [sep] + (c + [sep] + Joined(rest, sep)))
  {
    InFront(c, rest, sep);
    InFront(b, [c] + rest, sep);
    InFront(a, [b] + ([c] + rest), sep);
    assert [a, b, c] + rest == [a] + ([b] + ([c] + rest));
  }

  lemma InFront(first: Bytes, rest: seq<Bytes>, sep: byte)
    requires rest != []
    ensures Joined([first] + rest, sep) == first + [sep] + Joined(rest, sep)
  {
    assert ([first] + rest)[1..] == rest;
  }
}
