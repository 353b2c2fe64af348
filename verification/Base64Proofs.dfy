/** The round trips of the codec: decoding undoes encoding on all bytes, and encoding undoes decoding exactly
    on canonical texts. */
module Base64Proofs {
  import opened Base64

  // Four characters that encode something: padding at the end only, and no stray bits under it.
  predicate CanonicalGroup(q: string)
    requires |q| == 4
  {
    && (forall i :: 0 <= i < 4 ==> IsValidChar(q[i]))
    && q[0] != '=' && q[1] != '='
    && (q[2] == '=' ==> q[3] == '=' && B64Inv(q[1]) % 16 == 0)
    && (q[2] != '=' && q[3] == '=' ==> B64Inv(q[2]) % 4 == 0)
  }

  predicate Canonical(t: string) {
    || |t| == 0
    || (|t| == 4 && CanonicalGroup(t))
    || (|t| > 4 && CanonicalGroup(t[..4]) && t[3] != '=' && Canonical(t[4..]))
  }

  function DecodeGroup(q: string): (b: seq<Byte>)
    requires |q| == 4
  {
    [Octet(Word(q), 16)]
    + (if q[2] != '=' then [Octet(Word(q), 8)] else [])
    + (if q[3] != '=' then [Octet(Word(q), 0)] else [])
  }

  function Decode(t: string): (s: seq<Byte>)
  {
    if |t| < 4 then [] else DecodeGroup(t[..4]) + Decode(t[4..])
  }

  // The bytes the source masks out of its accumulator.
  lemma Octets(a: int, b: int, c: int, d: int)
    requires 0 <= a < 64 && 0 <= b < 64 && 0 <= c < 64 && 0 <= d < 64
    ensures var w := ((a * 64 + b) * 64 + c) * 64 + d;
      && w / 65536 % 256 == a * 4 + b / 16
      && w / 256 % 256 == b % 16 * 16 + c / 4
      && w % 256 == c % 4 * 64 + d
  {
    assert b == 16 * (b / 16) + b % 16 && c == 4 * (c / 4) + c % 4;
    SplitWord(a * 4 + b / 16, b % 16 * 16 + c / 4, c % 4 * 64 + d);
  }

  lemma SplitWord(h: Byte, m: Byte, l: Byte)
    ensures var w := 65536 * h + 256 * m + l;
      w / 65536 % 256 == h && w / 256 % 256 == m && w % 256 == l
  {
    var w := 65536 * h + 256 * m + l;
    assert w / 256 == 256 * h + m && w / 65536 == h;
    assert (256 * h + m) % 256 == m;
  }

  lemma WordOf(q: string)
    requires |q| == 4 && q[0] != '=' && q[1] != '=' && forall i :: 0 <= i < 4 ==> IsValidChar(q[i])
    ensures var a, b := B64Inv(q[0]), B64Inv(q[1]);
      var c := if q[2] == '=' then 0 else B64Inv(q[2]);
      var d := if q[3] == '=' then 0 else B64Inv(q[3]);
      && 0 <= a && 0 <= b && 0 <= c && 0 <= d
      && Octet(Word(q), 16) == a * 4 + b / 16
      && Octet(Word(q), 8) == b % 16 * 16 + c / 4
      && Octet(Word(q), 0) == c % 4 * 64 + d
  {
    AlphabetRoundTripBack(q[0]);
    AlphabetRoundTripBack(q[1]);
    if q[2] != '=' { AlphabetRoundTripBack(q[2]); }
    if q[3] != '=' { AlphabetRoundTripBack(q[3]); }
    var c := if q[2] == '=' then 0 else B64Inv(q[2]);
    var d := if q[3] == '=' then 0 else B64Inv(q[3]);
    assert Word(q) == ((B64Inv(q[0]) * 64 + B64Inv(q[1])) * 64 + c) * 64 + d;
    Octets(B64Inv(q[0]), B64Inv(q[1]), c, d);
  }

  // Regrouping 3 x 8 bits into 4 x 6 bits and back, and the converse.
  lemma BytesOfSextets(b0: Byte, b1: Byte, b2: Byte)
    ensures var a, b, c, d := b0 / 4, b0 % 4 * 16 + b1 / 16, b1 % 16 * 4 + b2 / 64, b2 % 64;
      && a * 4 + b / 16 == b0 && b % 16 * 16 + c / 4 == b1 && c % 4 * 64 + d == b2
      && (b1 == 0 ==> b % 16 == 0) && (b2 == 0 ==> c % 4 == 0)
  {
    var b, c := b0 % 4 * 16 + b1 / 16, b1 % 16 * 4 + b2 / 64;
    assert b / 16 == b0 % 4 && b % 16 == b1 / 16;
    assert c / 4 == b1 % 16 && c % 4 == b2 / 64;
  }

  lemma SextetsOfBytes(a: int, b: int, c: int, d: int)
    requires 0 <= a < 64 && 0 <= b < 64 && 0 <= c < 64 && 0 <= d < 64
    ensures var b0, b1, b2 := a * 4 + b / 16, b % 16 * 16 + c / 4, c % 4 * 64 + d;
      && b0 / 4 == a && b0 % 4 * 16 + b1 / 16 == b && b1 % 16 * 4 + b2 / 64 == c && b2 % 64 == d
  {
    var b0, b1, b2 := a * 4 + b / 16, b % 16 * 16 + c / 4, c % 4 * 64 + d;
    assert b0 % 4 == b / 16 && b1 / 16 == b % 16;
    assert b1 % 16 == c / 4 && b2 / 64 == c % 4;
  }

  lemma GroupIsCanonical(b: seq<Byte>)
    requires 1 <= |b| <= 3
    ensures CanonicalGroup(EncodeGroup(b))
    ensures EncodeGroup(b)[3] == '=' <==> |b| < 3
    ensures EncodeGroup(b)[2] == '=' <==> |b| < 2
    ensures B64Inv(EncodeGroup(b)[0]) == b[0] / 4
    ensures var b1 := if 1 < |b| then b[1] else 0; B64Inv(EncodeGroup(b)[1]) == b[0] % 4 * 16 + b1 / 16
    ensures 1 < |b| ==> var b2 := if 2 < |b| then b[2] else 0; B64Inv(EncodeGroup(b)[2]) == b[1] % 16 * 4 + b2 / 64
    ensures 2 < |b| ==> B64Inv(EncodeGroup(b)[3]) == b[2] % 64
  {
    var b0: int := b[0];
    var b1: int := if 1 < |b| then b[1] else 0;
    var b2: int := if 2 < |b| then b[2] else 0;
    AlphabetRoundTrip(b0 / 4);
    AlphabetRoundTrip(b0 % 4 * 16 + b1 / 16);
    AlphabetRoundTrip(b1 % 16 * 4 + b2 / 64);
    AlphabetRoundTrip(b2 % 64);
    BytesOfSextets(b0, b1, b2);
    hide B64Char, B64Inv, IsValidChar;
  }

  lemma GroupRoundTrip(b: seq<Byte>)
    requires 1 <= |b| <= 3
    ensures CanonicalGroup(EncodeGroup(b)) && DecodeGroup(EncodeGroup(b)) == b
    ensures EncodeGroup(b)[3] == '=' <==> |b| < 3
    ensures EncodeGroup(b)[2] == '=' <==> |b| < 2
  {
    hide B64Char, B64Inv, IsValidChar, Octet, Word, EncodeGroup;
    GroupIsCanonical(b);
    BytesOfSextets(b[0], if 1 < |b| then b[1] else 0, if 2 < |b| then b[2] else 0);
    WordOf(EncodeGroup(b));
  }

  lemma EncodeOfOctets(a: int, b: int, c: int, d: int, pads: nat)
    requires 0 <= a < 64 && 0 <= b < 64 && 0 <= c < 64 && 0 <= d < 64 && pads <= 2
    requires (pads >= 1 ==> d == 0 && c % 4 == 0) && (pads == 2 ==> c == 0 && b % 16 == 0)
    ensures var s: seq<Byte> := [a * 4 + b / 16, b % 16 * 16 + c / 4, c % 4 * 64 + d];
      EncodeGroup(s[..3 - pads]) == [B64Char(a), B64Char(b), if pads == 2 then '=' else B64Char(c),
                                     if pads >= 1 then '=' else B64Char(d)]
  {
    SextetsOfBytes(a, b, c, d);
    hide B64Char;
  }

  // The sextets of a group, with zero for a pad.
  function Sextet(q: string, i: nat): int
    requires |q| == 4 && i < 4
  {
    if q[i] == '=' then 0 else B64Inv(q[i])
  }

  function Padding(q: string): nat
    requires |q| == 4
  {
    if q[2] == '=' then 2 else if q[3] == '=' then 1 else 0
  }

  lemma DecodedOctets(q: string)
    requires |q| == 4 && CanonicalGroup(q)
    ensures var a, b, c, d := Sextet(q, 0), Sextet(q, 1), Sextet(q, 2), Sextet(q, 3);
      && 0 <= a < 64 && 0 <= b < 64 && 0 <= c < 64 && 0 <= d < 64
      && (Padding(q) >= 1 ==> d == 0 && c % 4 == 0) && (Padding(q) == 2 ==> c == 0 && b % 16 == 0)
      && DecodeGroup(q) == [a * 4 + b / 16, b % 16 * 16 + c / 4, c % 4 * 64 + d][..3 - Padding(q)]
  {
    WordOf(q);
    hide B64Char, B64Inv, IsValidChar, Octet, Word;
  }

  lemma CharOfSextet(q: string, i: nat)
    requires |q| == 4 && CanonicalGroup(q) && i < 4
    ensures q[i] != '=' ==> 0 <= Sextet(q, i) < 64 && B64Char(Sextet(q, i)) == q[i]
  {
    if q[i] != '=' { AlphabetRoundTripBack(q[i]); }
  }

  lemma GroupRoundTripBack(q: string)
    requires |q| == 4 && CanonicalGroup(q)
    ensures EncodeGroup(DecodeGroup(q)) == q
  {
    hide B64Char, B64Inv, IsValidChar, DecodeGroup, EncodeGroup, Sextet;
    DecodedOctets(q);
    CharOfSextet(q, 0);
    CharOfSextet(q, 1);
    CharOfSextet(q, 2);
    CharOfSextet(q, 3);
    EncodeOfOctets(Sextet(q, 0), Sextet(q, 1), Sextet(q, 2), Sextet(q, 3), Padding(q));
  }

  /** Every encoding is a canonical text of 4 * ceil(n / 3) characters. */
  lemma {:induction false} EncodeCanonical(s: seq<Byte>)
    ensures |Encode(s)| == (|s| + 2) / 3 * 4
    ensures Canonical(Encode(s))
  {
    hide EncodeGroup, CanonicalGroup;
    if 0 < |s| <= 3 {
      GroupRoundTrip(s);
    } else if |s| > 3 {
      GroupRoundTrip(s[..3]);
      EncodeCanonical(s[3..]);
      assert Encode(s)[..4] == EncodeGroup(s[..3]) && Encode(s)[4..] == Encode(s[3..]);
    }
  }

  lemma {:induction false} CanonicalIsDecodable(t: string)
    requires Canonical(t)
    ensures Decodable(t)
  {
    if |t| > 4 {
      CanonicalIsDecodable(t[4..]);
      assert t == t[..4] + t[4..];
    }
  }

  /** Decoding an encoding needs a buffer of exactly the encoded bytes. */
  lemma {:induction false} NeededOfEncode(s: seq<Byte>)
    ensures Needed(Encode(s)) == |s|
  {
    hide EncodeGroup, CanonicalGroup;
    if 0 < |s| <= 3 {
      GroupRoundTrip(s);
    } else if |s| > 3 {
      NeededOfEncode(s[3..]);
      NeededTail(EncodeGroup(s[..3]), Encode(s[3..]));
    }
  }

  lemma NeededTail(h: string, u: string)
    requires |h| == 4 && |u| > 0 && |u| % 4 == 0
    ensures |h + u| % 4 == 0 && Needed(h + u) == 3 + Needed(u)
  {
  }

  /** Decoding an encoding into a buffer writes exactly the encoded bytes and touches no other. */
  lemma {:induction false} OverlayRestores(s: seq<Byte>, buf: seq<Byte>)
    requires |s| <= |buf|
    ensures Decodable(Encode(s)) && Needed(Encode(s)) == |s|
    ensures Overlay(Encode(s), buf) == s + buf[|s|..]
  {
    hide Canonical, EncodeGroup, OverlayGroup, Needed, Decodable, Overlay, Encode;
    EncodingFits(s);
    if |s| <= 3 {
      ShortRestores(s, buf);
    } else {
      FirstGroupRestores(s, buf);
      OverlayRestores(s[3..], OverlayGroup(EncodeGroup(s[..3]), buf)[3..]);
      LongRestores(s, buf);
    }
  }

  lemma EncodingFits(s: seq<Byte>)
    ensures Decodable(Encode(s)) && |Encode(s)| % 4 == 0 && Needed(Encode(s)) == |s|
  {
    EncodeCanonical(s);
    CanonicalIsDecodable(Encode(s));
    NeededOfEncode(s);
  }

  lemma ShortRestores(s: seq<Byte>, buf: seq<Byte>)
    requires |s| <= 3 && |s| <= |buf|
    ensures |Encode(s)| % 4 == 0 && Needed(Encode(s)) == |s|
    ensures Overlay(Encode(s), buf) == s + buf[|s|..]
  {
    hide EncodeGroup, DecodeGroup, OverlayGroup, Needed, Decodable, Overlay, Encode, CanonicalGroup;
    EncodingFits(s);
    EncodeShort(s);
    if s != [] {
      GroupRoundTrip(s);
      OverlayIsDecode(Encode(s), buf);
    }
    OverlayShort(Encode(s), buf);
  }

  // The first group, and what the others restore.
  lemma LongRestores(s: seq<Byte>, buf: seq<Byte>)
    requires 3 < |s| <= |buf| && |EncodeGroup(s[..3])| == 4 && Needed(EncodeGroup(s[..3])) == 3
    requires |Encode(s[3..])| % 4 == 0 && Needed(Encode(s[3..])) == |s| - 3
    requires var w := OverlayGroup(EncodeGroup(s[..3]), buf)[3..]; Overlay(Encode(s[3..]), w) == s[3..] + w[|s| - 3..]
    ensures |Encode(s)| % 4 == 0 && Needed(Encode(s)) == |s| && Overlay(Encode(s), buf) == s + buf[|s|..]
  {
    hide EncodeGroup, OverlayGroup, Needed, Decodable, Overlay, Encode;
    EncodingFits(s);
    FirstGroupRestores(s, buf);
    assert Encode(s[3..]) != "" by { TailNotEmpty(s[3..]); }
    OverlayJoin(EncodeGroup(s[..3]), Encode(s[3..]), buf);
    assert s[..3] + s[3..] == s && buf[3..][|s| - 3..] == buf[|s|..];
  }

  lemma TailNotEmpty(s: seq<Byte>)
    requires s != []
    ensures Encode(s) != ""
  {
    EncodeCanonical(s);
  }

  lemma OverlayShort(t: string, buf: seq<Byte>)
    requires (|t| == 0 || |t| == 4) && Needed(t) <= |buf|
    ensures Overlay(t, buf) == if |t| == 0 then buf else OverlayGroup(t, buf)
  {
  }

  lemma OverlayJoin(q: string, u: string, buf: seq<Byte>)
    requires |q| == 4 && |u| > 0 && |u| % 4 == 0 && Needed(q) == 3 && Needed(q + u) <= |buf| && Needed(u) + 3 <= |buf|
    ensures Overlay(q + u, buf) == OverlayGroup(q, buf)[..3] + Overlay(u, OverlayGroup(q, buf)[3..])
  {
    hide OverlayGroup;
    assert (q + u)[..4] == q && (q + u)[4..] == u;
  }

  lemma EncodeShort(s: seq<Byte>)
    ensures s == [] ==> Encode(s) == ""
    ensures 0 < |s| <= 3 ==> Encode(s) == EncodeGroup(s)
  {
    hide EncodeGroup;
  }

  lemma FirstGroupRestores(s: seq<Byte>, buf: seq<Byte>)
    requires 3 < |s| <= |buf|
    ensures var q := EncodeGroup(s[..3]);
      && Encode(s) == q + Encode(s[3..]) && Needed(q) == 3 && |q| == 4
      && OverlayGroup(q, buf)[..3] == s[..3] && OverlayGroup(q, buf)[3..] == buf[3..]
  {
    hide Canonical, EncodeGroup, DecodeGroup, OverlayGroup, Needed;
    var q := EncodeGroup(s[..3]);
    GroupRoundTrip(s[..3]);
    NeededOfEncode(s[..3]);
    assert Encode(s[..3]) == q;
    OverlayIsDecode(q, buf);
  }

  lemma OverlayIsDecode(q: string, buf: seq<Byte>)
    requires |q| == 4 && CanonicalGroup(q) && Needed(q) <= |buf|
    ensures |DecodeGroup(q)| == Needed(q)
    ensures OverlayGroup(q, buf) == DecodeGroup(q) + buf[Needed(q)..]
  {
    hide Word, Octet, B64Inv, IsValidChar;
  }

  lemma {:induction false} DecodeOfEncode(s: seq<Byte>)
    ensures Decode(Encode(s)) == s
  {
    if 0 < |s| <= 3 {
      GroupRoundTrip(s);
      assert Encode(s)[..4] == EncodeGroup(s) && Encode(s)[4..] == "";
    } else if |s| > 3 {
      GroupRoundTrip(s[..3]);
      assert Encode(s)[..4] == EncodeGroup(s[..3]) && Encode(s)[4..] == Encode(s[3..]);
      DecodeOfEncode(s[3..]);
    }
  }

  lemma {:induction false} EncodeOfCanonical(t: string)
    requires Canonical(t)
    ensures Encode(Decode(t)) == t
  {
    if |t| == 4 {
      assert t[..4] == t && Decode(t[4..]) == [];
      GroupRoundTripBack(t);
    } else if |t| > 4 {
      GroupRoundTripBack(t[..4]);
      EncodeOfCanonical(t[4..]);
      var b := DecodeGroup(t[..4]);
      assert |b| == 3 && Decode(t)[..3] == b && Decode(t)[3..] == Decode(t[4..]);
      assert |Decode(t[4..])| > 0;
      assert t == t[..4] + t[4..];
    }
  }

  /** An exact description of what the encoder can produce: a text is an encoding of some bytes if and
      only if it is canonical, and then re-encoding its decoding gives the text back. */
  lemma EncodeOfDecode(t: string)
    ensures Canonical(t) <==> exists s: seq<Byte> :: Encode(s) == t
    ensures Canonical(t) <==> Encode(Decode(t)) == t
  {
    if Canonical(t) {
      EncodeOfCanonical(t);
    } else {
      forall s: seq<Byte> | Encode(s) == t
        ensures false
      {
        EncodeCanonical(s);
      }
    }
  }

  /** The text and its NUL fit the 2n-byte scratch buffers of the callers exactly for these sizes. */
  lemma DoubleBufferFits(n: nat)
    ensures EncodedSize(n) + 1 <= 2 * n <==> n == 3 || n >= 5
  {
  }

  /** b64_decoded_size of an encoding is the size of what was encoded. */
  lemma PadsOfEncoding(s: seq<Byte>)
    ensures |Encode(s)| / 4 * 3 - TrailingPads(Encode(s)) == |s|
  {
    EncodeCanonical(s);
    NeededOfEncode(s);
    hide Encode, Canonical;
    var t := Encode(s);
    if |s| > 0 {
      LastGroup(t);
      var u := t[..|t| - 1];
      assert TrailingPads(u) == if t[|t| - 2] == '=' then 1 + TrailingPads(u[..|u| - 1]) else 0;
      assert TrailingPads(u[..|u| - 1]) == 0;
    }
  }

  lemma {:induction false} LastGroup(t: string)
    requires Canonical(t) && |t| > 0
    ensures |t| >= 4 && t[|t| - 3] != '='
    ensures t[|t| - 2] == '=' ==> t[|t| - 1] == '='
  {
    if |t| > 4 {
      LastGroup(t[4..]);
    }
  }
}
