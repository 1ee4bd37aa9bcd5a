/**
 The path of an object's URL: how Go's net/url reads it from the text the client builds,
 how it prints it in a link, and what a Signature Version 4 verifier makes of the link.
 */
module Url {
  import opened Basics
  import opened Percent
  import opened SigV4

  const SLASH: byte := 47
  const QUESTION: byte := 63
  const HASH: byte := 35

  // ---- net/url ----

  /** Bytes that net/url does not escape in a path: unreserved ones and $ & + , / : ; = @ */
  predicate PathSafe(c: byte) {
    Unreserved(c) || c == 36 || c == 38 || c == 43 || c == 44 || c == 47 || c == 58 || c == 59 || c == 61 || c == 64
  }

  function PathByte(c: byte): Bytes {
    if PathSafe(c) then [c] else [PERCENT, HexUpper(c / 16), HexUpper(c % 16)]
  }

  /** escape(s, encodePath) */
  function EscapePath(s: Bytes): Bytes {
    if s == [] then [] else PathByte(s[0]) + EscapePath(s[1..])
  }

  /** validEncoded(s, encodePath): also ! ' ( ) * [ ] and % are left as they are. */
  predicate ValidEncoded(s: Bytes) {
    forall i | 0 <= i < |s| ::
      PathSafe(s[i]) || s[i] == 33 || 39 <= s[i] <= 42 || s[i] == 91 || s[i] == 93 || s[i] == PERCENT
  }

  predicate HasControl(s: Bytes) { exists i | 0 <= i < |s| :: s[i] < 32 || s[i] == 127 }

  /** What is left of the text after the host once fragment and query are cut off. */
  function RawPath(text: Bytes): Bytes { Cut(Cut(text, HASH).0, QUESTION).0 }

  /** u.Path after neturl.Parse, or None for its error. */
  function ParsedPath(text: Bytes): Option<Bytes> {
    var (before, fragment) := Cut(text, HASH);
    if HasControl(before) || Unescape(fragment, false).None? then None
    else Unescape(RawPath(text), false)
  }

  /** u.EscapedPath(), which is what u.String() prints. */
  function SentPath(text: Bytes): Bytes
    requires ParsedPath(text).Some?
  {
    var raw, path := RawPath(text), ParsedPath(text).value;
    if raw != EscapePath(path) && raw != [] && ValidEncoded(raw) then raw else EscapePath(path)
  }

  /** What the link prints: the text itself if nothing in it needs escaping, otherwise the parsed path escaped anew. */
  lemma SentPathIs(text: Bytes)
    requires ParsedPath(text).Some?
    ensures var raw := RawPath(text);
      if raw != [] && forall i | 0 <= i < |raw| :: KeptInPath(raw[i] as char) then SentPath(text) == raw
      else SentPath(text) == EscapePath(ParsedPath(text).value)
  {
    KeptAll(RawPath(text));
  }

  lemma KeptAll(raw: Bytes)
    ensures ValidEncoded(raw) <==> forall i | 0 <= i < |raw| :: KeptInPath(raw[i] as char)
  {
    forall i | 0 <= i < |raw| { KeptByte(raw[i]); }
  }

  lemma KeptByte(c: byte)
    ensures KeptInPath(c as char) <==> PathSafe(c) || c == 33 || 39 <= c <= 42 || c == 91 || c == 93 || c == PERCENT
  {
  }

  /** Letters, digits and -._~$&+,/:;=@!'()*[]% */
  predicate KeptInPath(c: char) {
    'A' <= c <= 'Z' || 'a' <= c <= 'z' || '0' <= c <= '9' || c in "-._~$&+,/:;=@!'()*[]%"
  }

  /** In a path net/url escapes all but letters, digits and -._~$&+,/:;=@ */
  lemma PathSafeIs(c: byte)
    ensures var x := c as char;
      PathSafe(c) <==> 'A' <= x <= 'Z' || 'a' <= x <= 'z' || '0' <= x <= '9' || x in "-._~$&+,/:;=@"
  {
  }

  lemma UnescapePathByte(c: byte, rest: Bytes)
    ensures Unescape(PathByte(c) + rest, false) ==
      match Unescape(rest, false) { case None => None case Some(r) => Some([c] + r) }
  {
    var e := PathByte(c);
    if |e| == 3 {
      HexRoundTrip(c / 16);
      HexRoundTrip(c % 16);
      assert (e + rest)[3..] == rest;
    } else {
      assert (e + rest)[1..] == rest;
    }
  }

  lemma {:induction false} EscapePathRoundTrip(s: Bytes)
    ensures Unescape(EscapePath(s), false) == Some(s)
  {
    if s != [] {
      EscapePathRoundTrip(s[1..]);
      UnescapePathByte(s[0], EscapePath(s[1..]));
      assert s == [s[0]] + s[1..];
    }
  }

  /** Whatever the link prints decodes to the path that was parsed. */
  lemma SentDecodes(text: Bytes)
    requires ParsedPath(text).Some?
    ensures Unescape(SentPath(text), false) == ParsedPath(text)
  {
    EscapePathRoundTrip(ParsedPath(text).value);
  }

  // ---- the verifier ----

  /** percentEncode is the encoding of the standard. */
  lemma {:induction false} EncodeIsStandard(s: Bytes)
    ensures PercentEncode(s) == UriEncoded(s, false)
  {
    if s != [] {
      EncodeIsStandard(s[1..]);
      ByteIsStandard(s[0]);
    }
  }

  lemma ByteIsStandard(c: byte)
    ensures EscapeByte(c, false) == if NeedsNoEncoding(c) then [c] else [37, HEX_DIGITS[c / 16], HEX_DIGITS[c % 16]]
  {
  }

  /** The canonical path a verifier computes from the path it receives; None when that is malformed. */
  function VerifiedPath(sent: Bytes): Option<Bytes> {
    match Unescape(sent, false)
    case None => None
    case Some(path) => Some(UriEncoded(path, true))
  }

  predicate PlainByte(c: byte) { c == SLASH || Unreserved(c) }

  predicate PlainPath(s: Bytes) { forall i | 0 <= i < |s| :: PlainByte(s[i]) }

  lemma {:induction false} UriEncodeLonger(s: Bytes)
    ensures |UriEncoded(s, true)| >= |s|
  {
    if s != [] { UriEncodeLonger(s[1..]); }
  }

  /** Encoding leaves exactly the plain paths as they are. */
  lemma {:induction false} UriEncodeFixed(s: Bytes)
    ensures UriEncoded(s, true) == s <==> PlainPath(s)
  {
    if s != [] {
      UriEncodeFixed(s[1..]);
      UriEncodeLonger(s[1..]);
      assert s == [s[0]] + s[1..];
      assert PlainPath(s) <==> PlainByte(s[0]) && PlainPath(s[1..]);
      if PlainByte(s[0]) {
        assert UriEncoded(s, true) == [s[0]] + UriEncoded(s[1..], true);
        assert UriEncoded(s, true)[1..] == UriEncoded(s[1..], true);
      } else {
        assert |UriEncoded(s, true)| == 3 + |UriEncoded(s[1..], true)|;
      }
    }
  }

  /** The client signs the parsed path itself: the verifier computes the same exactly when it is plain. */
  lemma PathsAgreeIff(text: Bytes)
    requires ParsedPath(text).Some?
    ensures VerifiedPath(SentPath(text)) == ParsedPath(text) <==> PlainPath(ParsedPath(text).value)
  {
    SentDecodes(text);
    UriEncodeFixed(ParsedPath(text).value);
  }

  // ---- from the text ----

  lemma {:induction false} NothingToDecode(s: Bytes)
    requires PERCENT !in s
    ensures Unescape(s, false) == Some(s)
  {
    if s != [] {
      NothingToDecode(s[1..]);
      assert s == [s[0]] + s[1..];
    }
  }

  lemma {:induction false} DecodeAfter(before: Bytes, rest: Bytes)
    requires PERCENT !in before && Unescape(rest, false).Some?
    ensures Unescape(before + rest, false) == Some(before + Unescape(rest, false).value)
  {
    var r := Unescape(rest, false).value;
    if before == [] {
      assert before + rest == rest && before + r == r;
    } else {
      DecodeAfter(before[1..], rest);
      assert (before + rest)[1..] == before[1..] + rest;
      assert before == [before[0]] + before[1..];
      assert [before[0]] + (before[1..] + r) == before + r;
    }
  }

  lemma {:induction false} PlainEscapePath(s: Bytes)
    requires PlainPath(s)
    ensures EscapePath(s) == s
  {
    if s != [] {
      PlainEscapePath(s[1..]);
      assert s == [s[0]] + s[1..];
    }
  }

  /** Text that net/url neither cuts nor decodes nor refuses. */
  predicate Unambiguous(text: Bytes) { HASH !in text && QUESTION !in text && PERCENT !in text && !HasControl(text) }

  lemma UnambiguousParses(text: Bytes)
    requires Unambiguous(text)
    ensures ParsedPath(text) == Some(text)
  {
    NothingToDecode(text);
  }

  lemma PlainIsUnambiguous(text: Bytes)
    requires PlainPath(text)
    ensures Unambiguous(text) && ParsedPath(text) == Some(text) && SentPath(text) == text
  {
    assert Unambiguous(text) by {
      assert !PlainByte(HASH) && !PlainByte(QUESTION) && !PlainByte(PERCENT);
    }
    UnambiguousParses(text);
    PlainEscapePath(text);
  }

  /** For all text: the link names this very path, and both sides agree on it, exactly when every byte is plain. */
  lemma NamesAndAgreesIff(text: Bytes)
    ensures ParsedPath(text) == Some(text) && VerifiedPath(SentPath(text)) == Some(text) <==> PlainPath(text)
  {
    if PlainPath(text) {
      PlainIsUnambiguous(text);
    }
    if ParsedPath(text).Some? { PathsAgreeIff(text); }
  }
}
