/**
 Percent-encoding (RFC 3986, sections 2.1 and 2.3) as the storage client writes it, and
 Go's query escaping, which differs in writing a space as '+'.
 */
module Percent {
  import opened Basics

  const PERCENT: byte := 37
  const AMPERSAND: byte := 38
  const PLUS: byte := 43
  const SEMICOLON: byte := 59
  const EQUALS: byte := 61
  const SPACE: byte := 32

  predicate Alphanumeric(c: byte) { 65 <= c <= 90 || 97 <= c <= 122 || 48 <= c <= 57 }

  /** ALPHA / DIGIT / "-" / "." / "_" / "~" */
  predicate Unreserved(c: byte) { Alphanumeric(c) || c == 45 || c == 95 || c == 46 || c == 126 }

  function HexUpper(d: nat): byte
    requires d < 16
  {
    if d < 10 then 48 + d else 55 + d
  }

  function HexValue(c: byte): Option<nat> {
    if 48 <= c <= 57 then Some(c - 48)
    else if 65 <= c <= 70 then Some(c - 55)
    else if 97 <= c <= 102 then Some(c - 87)
    else None
  }

  function EscapeByte(c: byte, plus: bool): Bytes {
    if Unreserved(c) then [c]
    else if plus && c == SPACE then [PLUS]
    else [PERCENT, HexUpper(c / 16), HexUpper(c % 16)]
  }

  /** With `plus`, Go's url.QueryEscape; without it, the client's percentEncode. */
  function Escape(s: Bytes, plus: bool): Bytes {
    if s == [] then [] else EscapeByte(s[0], plus) + Escape(s[1..], plus)
  }

  function PercentEncode(s: Bytes): Bytes { Escape(s, false) }

  /** url.QueryUnescape (with `plus`), or plain percent-decoding; None when a % is malformed. */
  function Unescape(s: Bytes, plus: bool): Option<Bytes> {
    if s == [] then Some([])
    else if s[0] == PERCENT then
      if |s| < 3 || HexValue(s[1]).None? || HexValue(s[2]).None? then None
      else
        (match Unescape(s[3..], plus)
         case None => None
         case Some(rest) => Some([HexValue(s[1]).value * 16 + HexValue(s[2]).value] + rest))
    else
      match Unescape(s[1..], plus)
      case None => None
      case Some(rest) => Some([if plus && s[0] == PLUS then SPACE else s[0]] + rest)
  }

  lemma HexRoundTrip(d: nat)
    requires d < 16
    ensures HexValue(HexUpper(d)) == Some(d)
  {
  }

  lemma Associative(x: Bytes, y: Bytes, z: Bytes)
    ensures x + (y + z) == (x + y) + z
  {
  }

  /** Escaping distributes over concatenation. */
  lemma {:induction false} EscapeConcat(a: Bytes, b: Bytes, plus: bool)
    ensures Escape(a + b, plus) == Escape(a, plus) + Escape(b, plus)
  {
    if a == [] {
      assert a + b == b;
    } else {
      EscapeConcat(a[1..], b, plus);
      assert (a + b)[1..] == a[1..] + b;
      Associative(EscapeByte(a[0], plus), Escape(a[1..], plus), Escape(b, plus));
    }
  }

  lemma UnescapeByte(c: byte, plus: bool, both: bool, rest: Bytes)
    requires plus ==> both
    ensures Unescape(EscapeByte(c, plus) + rest, both) ==
      match Unescape(rest, both) { case None => None case Some(r) => Some([c] + r) }
  {
    var e := EscapeByte(c, plus);
    if |e| == 3 {
      HexRoundTrip(c / 16);
      HexRoundTrip(c % 16);
      assert (e + rest)[3..] == rest;
    } else {
      assert (e + rest)[1..] == rest;
    }
  }

  /** Decoding undoes encoding, for every byte string and every pairing of the two styles. */
  lemma {:induction false} EscapeRoundTrip(s: Bytes, plus: bool, both: bool)
    requires plus ==> both
    ensures Unescape(Escape(s, plus), both) == Some(s)
  {
    if s != [] {
      EscapeRoundTrip(s[1..], plus, both);
      UnescapeByte(s[0], plus, both, Escape(s[1..], plus));
      assert s == [s[0]] + s[1..];
    }
  }

  lemma EncodeInjective(s: Bytes, t: Bytes)
    requires PercentEncode(s) == PercentEncode(t)
    ensures s == t
  {
    EscapeRoundTrip(s, false, false);
    EscapeRoundTrip(t, false, false);
  }

  /** '0'..'9' or 'A'..'F' */
  predicate UppercaseHex(c: byte) { 48 <= c <= 57 || 65 <= c <= 70 }

  function DigitOf(c: byte): (d: nat)
    requires UppercaseHex(c)
    ensures d < 16
  {
    if c <= 57 then c - 48 else c - 55
  }

  /** Letters, digits and "-._~", and '%' with two uppercase hexadecimal digits for any other byte. */
  predicate WellEncoded(t: Bytes) {
    t == []
    || (Literal(t[0]) && WellEncoded(t[1..]))
    || (|t| >= 3 && t[0] == 37 && UppercaseHex(t[1]) && UppercaseHex(t[2])
        && !Literal(DigitOf(t[1]) * 16 + DigitOf(t[2])) && WellEncoded(t[3..]))
  }

  /** ALPHA / DIGIT / "-" / "." / "_" / "~" */
  predicate Literal(c: byte) {
    var x := c as char;
    'A' <= x <= 'Z' || 'a' <= x <= 'z' || '0' <= x <= '9' || x == '-' || x == '.' || x == '_' || x == '~'
  }

  lemma TripleOf(c: byte)
    ensures UppercaseHex(HexUpper(c / 16)) && UppercaseHex(HexUpper(c % 16))
    ensures DigitOf(HexUpper(c / 16)) * 16 + DigitOf(HexUpper(c % 16)) == c
  {
  }

  /** percentEncode produces exactly the well-encoded strings. */
  lemma {:induction false} EncodeIsWellEncoded(s: Bytes)
    ensures WellEncoded(PercentEncode(s))
  {
    if s != [] {
      EncodeIsWellEncoded(s[1..]);
      var e, rest := EscapeByte(s[0], false), PercentEncode(s[1..]);
      if Unreserved(s[0]) {
        assert (e + rest)[1..] == rest;
      } else {
        assert (e + rest)[3..] == rest;
        TripleOf(s[0]);
      }
    }
  }

  lemma {:induction false} WellEncodedIsEncoding(t: Bytes)
    requires WellEncoded(t)
    ensures Unescape(t, false).Some? && PercentEncode(Unescape(t, false).value) == t
  {
    if t != [] {
      if Unreserved(t[0]) {
        WellEncodedIsEncoding(t[1..]);
        var r := Unescape(t[1..], false).value;
        assert ([t[0]] + r)[1..] == r;
        assert t == [t[0]] + t[1..];
      } else {
        WellEncodedIsEncoding(t[3..]);
        var r := Unescape(t[3..], false).value;
        var c := DigitOf(t[1]) * 16 + DigitOf(t[2]);
        assert c / 16 == DigitOf(t[1]) && c % 16 == DigitOf(t[2]);
        assert Unescape(t, false) == Some([c] + r);
        assert ([c] + r)[1..] == r;
        assert t == [t[0], t[1], t[2]] + t[3..];
      }
    }
  }

  /** Escaped text holds no separator, so every '&' and '=' in printed output is one. */
  lemma {:induction false} EscapeNoSeparators(s: Bytes, plus: bool)
    ensures '&' as int !in Escape(s, plus) && '=' as int !in Escape(s, plus) && ';' as int !in Escape(s, plus)
  {
    if s != [] { EscapeNoSeparators(s[1..], plus); }
  }

  // ---- decoding, token by token ----

  /** The two cases of a hexadecimal digit. */
  lemma HexValueIs(c: byte, d: nat)
    ensures HexValue(c) == Some(d) <==> d < 16 && (c == Ascii("0123456789ABCDEF")[d] || c == Ascii("0123456789abcdef")[d])
  {
  }

  /** A triple in front of a text. */
  lemma DecodesTriple(s: Bytes, plus: bool)
    requires |s| >= 3 && s[0] == '%' as int
    ensures Unescape(s, plus).Some? <==> HexValue(s[1]).Some? && HexValue(s[2]).Some? && Unescape(s[3..], plus).Some?
    ensures Unescape(s, plus).Some? ==> Unescape(s, plus).value == [HexValue(s[1]).value * 16 + HexValue(s[2]).value] + Unescape(s[3..], plus).value
  {
  }

  /** Any other byte in front of a text: a '+' may stand for a space. */
  lemma DecodesByte(s: Bytes, plus: bool)
    requires s != [] && s[0] != '%' as int
    ensures Unescape(s, plus).Some? <==> Unescape(s[1..], plus).Some?
    ensures Unescape(s, plus).Some? ==>
      Unescape(s, plus).value == [if plus && s[0] == '+' as int then ' ' as int else s[0]] + Unescape(s[1..], plus).value
  {
  }

  /** Text decodes exactly when every '%' in it is followed by two hexadecimal digits. */
  lemma {:induction false} DecodesIff(s: Bytes, plus: bool)
    ensures Unescape(s, plus).Some? <==>
      forall i | 0 <= i < |s| && s[i] == '%' as int :: i + 2 < |s| && HexValue(s[i + 1]).Some? && HexValue(s[i + 2]).Some?
  {
    if s != [] {
      if s[0] == PERCENT {
        if |s| >= 3 && HexValue(s[1]).Some? && HexValue(s[2]).Some? {
          DecodesIff(s[3..], plus);
          forall i | 0 <= i < |s| && s[i] == '%' as int && i > 0 ensures i >= 3 && s[3..][i - 3] == s[i] { }
          forall i | 0 <= i < |s[3..]| ensures s[3..][i] == s[i + 3] { }
        }
      } else {
        DecodesIff(s[1..], plus);
        forall i | 0 <= i < |s[1..]| ensures s[1..][i] == s[i + 1] { }
      }
    }
  }

  /** The client's percentEncode: a loop over the bytes, appending to a builder. */
  method PercentEncodeLoop(s: Bytes) returns (b: Bytes)
    ensures b == PercentEncode(s)
  {
    b := [];
    var i := 0;
    while i < |s|
      invariant 0 <= i <= |s| && b == PercentEncode(s[..i])
    {
      var c := s[i];
      assert s[..i + 1] == s[..i] + [c];
      EscapeConcat(s[..i], [c], false);
      assert PercentEncode([c]) == EscapeByte(c, false);
      if Unreserved(c) {
        b := b + [c];
      } else {
        b := b + [PERCENT, HexUpper(c / 16), HexUpper(c % 16)];
      }
      i := i + 1;
    }
    assert s[..|s|] == s;
  }

  /** strings.Cut: the text before and after the first separator. */
  function Cut(s: Bytes, sep: byte): (r: (Bytes, Bytes))
    ensures sep !in r.0
    ensures s != [] ==> |r.1| < |s|
    ensures sep !in s ==> r == (s, [])
    ensures sep in s ==> s == r.0 + [sep] + r.1
  {
    if s == [] then ([], [])
    else if s[0] == sep then ([], s[1..])
    else
      var (before, after) := Cut(s[1..], sep);
      assert s == [s[0]] + s[1..];
      ([s[0]] + before, after)
  }

  lemma {:induction false} CutAt(a: Bytes, sep: byte, rest: Bytes)
    requires sep !in a
    ensures Cut(a + [sep] + rest, sep) == (a, rest)
  {
    var s := a + [sep] + rest;
    if a == [] {
      assert s[1..] == rest;
    } else {
      CutAt(a[1..], sep, rest);
      assert s[1..] == a[1..] + [sep] + rest;
      assert a == [a[0]] + a[1..];
    }
  }
}
