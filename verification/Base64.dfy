/** The base64 codec every persisted structure goes through (src/base64_coding.c).

    The specification is section 4 of RFC 4648, group by group: `EncodeGroup` regroups the bits of up to
    three bytes, `Canonical` says which texts are encodings. The two imperative routines keep the source's
    accumulator `v` and are proved to produce that. Shifts and masks are written as multiplication,
    division and remainder by powers of two, which is the same operation on the values that occur. */
module Base64 {
  type Byte = x: int | 0 <= x < 256

  datatype CString = Null | Text(chars: string)

  const SIZE_MODULUS := 0x1_0000_0000 // size_t is 32 bits wide on the target

  // ---------------------------------------------------------------- alphabet

  // The table b64chars.
  function B64Char(i: int): (c: char)
    requires 0 <= i < 64
  {
    if i < 26 then (i + 65) as char
    else if i < 52 then (i + 71) as char
    else if i < 62 then (i - 4) as char
    else if i == 62 then '+' else '/'
  }

  // The table b64invs, -1 for the characters it does not list ('=' among them).
  function B64Inv(c: char): (i: int)
    ensures -1 <= i < 64
  {
    if 'A' <= c <= 'Z' then c as int - 65
    else if 'a' <= c <= 'z' then c as int - 71
    else if '0' <= c <= '9' then c as int + 4
    else if c == '+' then 62
    else if c == '/' then 63 else -1
  }

  predicate IsValidChar(c: char) {
    '0' <= c <= '9' || 'A' <= c <= 'Z' || 'a' <= c <= 'z' || c == '+' || c == '/' || c == '='
  }

  lemma AlphabetRoundTrip(i: int)
    requires 0 <= i < 64
    ensures B64Inv(B64Char(i)) == i && IsValidChar(B64Char(i)) && B64Char(i) != '='
  {
  }

  lemma AlphabetRoundTripBack(c: char)
    requires IsValidChar(c) && c != '='
    ensures 0 <= B64Inv(c) && B64Char(B64Inv(c)) == c
  {
  }

  // ---------------------------------------------------------------- encoding

  function EncodedSize(n: nat): (r: nat)
    ensures r == (n + 2) / 3 * 4
  {
    (if n % 3 != 0 then n + (3 - n % 3) else n) / 3 * 4
  }

  // One to three bytes as four characters.
  function EncodeGroup(b: seq<Byte>): (t: string)
    requires 1 <= |b| <= 3
    ensures |t| == 4
  {
    var b0: int := b[0];
    var b1: int := if 1 < |b| then b[1] else 0;
    var b2: int := if 2 < |b| then b[2] else 0;
    [B64Char(b0 / 4),
     B64Char(b0 % 4 * 16 + b1 / 16),
     if 1 < |b| then B64Char(b1 % 16 * 4 + b2 / 64) else '=',
     if 2 < |b| then B64Char(b2 % 64) else '=']
  }

  function Encode(s: seq<Byte>): (t: string)
    ensures |t| == EncodedSize(|s|)
  {
    if |s| == 0 then ""
    else if |s| <= 3 then EncodeGroup(s)
    else EncodeGroup(s[..3]) + Encode(s[3..])
  }

  // The sextets the source shifts out of its 24-bit accumulator.
  lemma Sextets(b0: Byte, b1: Byte, b2: Byte)
    ensures var v := (b0 * 256 + b1) * 256 + b2;
      && v / 262144 == b0 / 4 && v / 4096 % 64 == b0 % 4 * 16 + b1 / 16
      && v / 64 % 64 == b1 % 16 * 4 + b2 / 64 && v % 64 == b2 % 64
  {
    assert b0 == 4 * (b0 / 4) + b0 % 4 && b1 == 16 * (b1 / 16) + b1 % 16 && b2 == 64 * (b2 / 64) + b2 % 64;
    SplitSextets(b0 / 4, b0 % 4 * 16 + b1 / 16, b1 % 16 * 4 + b2 / 64, b2 % 64);
  }

  lemma SplitSextets(a: int, b: int, c: int, d: int)
    requires 0 <= a < 64 && 0 <= b < 64 && 0 <= c < 64 && 0 <= d < 64
    ensures var v := 262144 * a + 4096 * b + 64 * c + d;
      v / 262144 == a && v / 4096 % 64 == b && v / 64 % 64 == c && v % 64 == d
  {
    var v := 262144 * a + 4096 * b + 64 * c + d;
    assert v / 64 == 4096 * a + 64 * b + c && v / 4096 == 64 * a + b && v / 262144 == a;
    assert (64 * (64 * a + b) + c) % 64 == c && (64 * a + b) % 64 == b;
  }

  // (v >> shift) & 0x3F
  function Sextet(v: int, shift: int): (r: int)
    ensures 0 <= r < 64
  {
    if shift == 18 then v / 262144 % 64
    else if shift == 12 then v / 4096 % 64
    else if shift == 6 then v / 64 % 64
    else v % 64
  }

  // A group as the source computes it from its accumulator v.
  lemma EncodeGroupByShifts(b: seq<Byte>, v: int)
    requires 1 <= |b| <= 3
    requires var b0: int := b[0];
      v == (b0 * 256 + (if 1 < |b| then b[1] else 0)) * 256 + (if 2 < |b| then b[2] else 0)
    ensures EncodeGroup(b)[0] == B64Char(Sextet(v, 18))
    ensures EncodeGroup(b)[1] == B64Char(Sextet(v, 12))
    ensures EncodeGroup(b)[2] == (if 1 < |b| then B64Char(Sextet(v, 6)) else '=')
    ensures EncodeGroup(b)[3] == (if 2 < |b| then B64Char(Sextet(v, 0)) else '=')
  {
    hide B64Char;
    Sextets(b[0], if 1 < |b| then b[1] else 0, if 2 < |b| then b[2] else 0);
  }

  // The bytes of the group that starts at byte i.
  function Chunk(s: seq<Byte>, i: nat): (b: seq<Byte>)
    requires i < |s|
    ensures 1 <= |b| <= 3
  {
    if |s| - i <= 3 then s[i..] else s[i..i + 3]
  }

  lemma EncodeUnfold(s: seq<Byte>, i: nat)
    requires i < |s|
    ensures Encode(s[i..]) == EncodeGroup(Chunk(s, i)) + Encode(if i + 3 < |s| then s[i + 3..] else [])
  {
    hide EncodeGroup;
    var r := s[i..];
    if |r| > 3 {
      assert r[..3] == Chunk(s, i) && r[3..] == s[i + 3..];
    }
  }

  // The loop body of b64_encode.
  method EncodeStep(data: array<Byte>, out: array<char>, len: nat, i: nat, j: nat, ghost s: seq<Byte>)
    requires i < len <= data.Length && j + 4 <= out.Length && data[..len] == s
    modifies out
    ensures out[..j] == old(out[..j]) && out[j + 4..] == old(out[j + 4..])
    ensures out[j..j + 4] == EncodeGroup(Chunk(s, i))
  {
    hide EncodeGroup, B64Char, Sextet;
    var v: int := data[i];
    v := if i + 1 < len then v * 256 + data[i + 1] else v * 256;
    v := if i + 2 < len then v * 256 + data[i + 2] else v * 256;
    EncodeGroupByShifts(Chunk(data[..len], i), v);
    out[j] := B64Char(Sextet(v, 18));
    out[j + 1] := B64Char(Sextet(v, 12));
    out[j + 2] := if i + 1 < len then B64Char(Sextet(v, 6)) else '=';
    out[j + 3] := if i + 2 < len then B64Char(Sextet(v, 0)) else '=';
  }

  // The loop of b64_encode.
  method EncodeGroups(data: array<Byte>, out: array<char>, len: nat)
    requires 0 < len <= data.Length && EncodedSize(len) <= out.Length
    modifies out
    ensures out[..EncodedSize(len)] == Encode(data[..len])
    ensures out[EncodedSize(len)..] == old(out[EncodedSize(len)..])
  {
    hide *;
    ghost var s, elen := data[..len], EncodedSize(len);
    ghost var rest, past := s, out[elen..];
    var i, j := 0, 0;
    assert s[0..] == s && out[..0] == [];
    while i < len
      invariant 0 <= i && 0 <= j <= elen && out[elen..] == past
      invariant rest == if i < len then s[i..] else []
      invariant out[..j] + Encode(rest) == Encode(s)
    {
      EncodeUnfold(s, i);
      ghost var done := out[..j];
      EncodeStep(data, out, len, i, j, s);
      JoinSlices(out[..], j);
      assert out[..j + 4] == done + EncodeGroup(Chunk(s, i));
      assert out[elen..] == out[j + 4..][elen - j - 4..] == past;
      i, j := i + 3, j + 4;
      rest := if i < len then s[i..] else [];
    }
    EncodeEmpty();
  }

  lemma JoinSlices(a: seq<char>, j: nat)
    requires j + 4 <= |a|
    ensures a[..j + 4] == a[..j] + a[j..j + 4]
  {
  }

  lemma EncodeEmpty()
    ensures Encode([]) == ""
  {
  }

  /** b64_encode: false stands for the NULL it returns on a NULL or empty input. */
  method EncodeBuffer(data: array?<Byte>, out: array<char>, len: nat) returns (ok: bool)
    requires data != null ==> len <= data.Length
    requires data != null && len != 0 ==> EncodedSize(len) < out.Length
    modifies out
    ensures ok == (data != null && len != 0)
    ensures !ok ==> out[..] == old(out[..])
    ensures ok ==> out[..EncodedSize(len)] == Encode(data[..len]) && out[EncodedSize(len)] == '\0'
    ensures ok ==> out[EncodedSize(len) + 1..] == old(out[EncodedSize(len) + 1..])
  {
    if data == null || len == 0 {
      return false;
    }
    hide *;
    var elen := EncodedSize(len);
    out[elen] := '\0';
    label written:
    EncodeGroups(data, out, len);
    assert out[elen] == out[elen..][0] == old@written(out[elen..])[0];
    assert out[elen + 1..] == out[elen..][1..];
    return true;
  }

  // ---------------------------------------------------------------- decoding

  // v << 6 | d, where d may be the -1 of an unlisted character.
  function ShiftOr(v: int, d: int): int {
    if d == -1 then -1 else v * 64 + d
  }

  predicate Decodable(t: string) {
    |t| % 4 == 0 && forall i :: 0 <= i < |t| ==> IsValidChar(t[i])
  }

  // The accumulator after the four characters of a group.
  function Word(q: string): int
    requires |q| == 4
  {
    var v := ShiftOr(B64Inv(q[0]), B64Inv(q[1]));
    var w := if q[2] == '=' then v * 64 else ShiftOr(v, B64Inv(q[2]));
    if q[3] == '=' then w * 64 else ShiftOr(w, B64Inv(q[3]))
  }

  // One past the last byte decoding t writes.
  function Needed(t: string): nat
    requires |t| % 4 == 0
  {
    if |t| == 0 then 0
    else if t[|t| - 1] != '=' then |t| / 4 * 3
    else if t[|t| - 2] != '=' then |t| / 4 * 3 - 1 else |t| / 4 * 3 - 2
  }

  // What one group does to the buffer it is decoded into: a padded byte is left as it was.
  function OverlayGroup(q: string, buf: seq<Byte>): (r: seq<Byte>)
    requires |q| == 4 && Needed(q) <= |buf|
    ensures |r| == |buf|
  {
    var a := buf[0 := Octet(Word(q), 16)];
    var b := if q[2] != '=' then a[1 := Octet(Word(q), 8)] else a;
    if q[3] != '=' then b[2 := Octet(Word(q), 0)] else b
  }

  function Overlay(t: string, buf: seq<Byte>): (r: seq<Byte>)
    requires |t| % 4 == 0 && Needed(t) <= |buf|
    ensures |r| == |buf|
  {
    if |t| == 0 then buf
    else if |t| == 4 then OverlayGroup(t, buf)
    else
      var w := OverlayGroup(t[..4], buf);
      w[..3] + Overlay(t[4..], w[3..])
  }

  // (v >> shift) & 0xFF
  function Octet(v: int, shift: int): (b: Byte) {
    if shift == 16 then v / 65536 % 256
    else if shift == 8 then v / 256 % 256
    else v % 256
  }

  lemma OverlayUnfold(r: string, buf: seq<Byte>)
    requires 0 < |r| && |r| % 4 == 0 && Needed(r) <= |buf|
    ensures 4 <= |r| && |r[4..]| % 4 == 0 && Needed(r[..4]) <= |buf|
    ensures |r| == 4 ==> Overlay(r, buf) == OverlayGroup(r[..4], buf)
    ensures |r| > 4 ==> 3 + Needed(r[4..]) <= |buf|
    ensures |r| > 4 ==> var w := OverlayGroup(r[..4], buf); Overlay(r, buf) == w[..3] + Overlay(r[4..], w[3..])
  {
    hide OverlayGroup;
    if |r| == 4 { assert r[..4] == r; }
  }

  // The body of the second loop of b64_decode.
  method DecodeStep(t: string, out: array<Byte>, i: nat, j: nat)
    requires i + 4 <= |t| && j + Needed(t[i..i + 4]) <= out.Length
    modifies out
    ensures out[..j] == old(out[..j]) && out[j..] == OverlayGroup(t[i..i + 4], old(out[j..]))
  {
    hide Octet, B64Inv, ShiftOr;
    var v := B64Inv(t[i]);
    v := ShiftOr(v, B64Inv(t[i + 1]));
    v := if t[i + 2] == '=' then v * 64 else ShiftOr(v, B64Inv(t[i + 2]));
    v := if t[i + 3] == '=' then v * 64 else ShiftOr(v, B64Inv(t[i + 3]));
    ghost var q := t[i..i + 4];
    assert v == Word(q);
    hide Word;
    out[j] := Octet(v, 16);
    if t[i + 2] != '=' {
      out[j + 1] := Octet(v, 8);
    }
    if t[i + 3] != '=' {
      out[j + 2] := Octet(v, 0);
    }
    assert out[..j] == old(out[..j]);
    assert out[j..] == OverlayGroup(q, old(out[j..]));
  }

  // The second loop of b64_decode.
  method DecodeGroups(t: string, out: array<Byte>)
    requires |t| % 4 == 0 && Needed(t) <= out.Length
    modifies out
    ensures out[..] == Overlay(t, old(out[..]))
  {
    hide Needed, Overlay, OverlayGroup;
    var i, j := 0, 0;
    ghost var rest, was, goal := t, out[..], Overlay(t, out[..]);
    OverlayEmpty(was);
    assert out[..0] == [] && out[0..] == was;
    while i < |t|
      invariant 0 <= i <= |t| && rest == t[i..] && |rest| % 4 == 0
      invariant rest != "" ==> 0 <= j && j + Needed(rest) <= out.Length
      invariant rest != "" ==> out[..j] + Overlay(rest, out[j..]) == goal
      invariant rest == "" ==> out[..] == goal
    {
      ghost var done, tail := out[..j], out[j..];
      OverlayUnfold(rest, tail);
      ghost var w := OverlayGroup(rest[..4], tail);
      assert rest[..4] == t[i..i + 4];
      DecodeStep(t, out, i, j);
      assert out[..] == done + w;
      if |rest| > 4 {
        assert out[..j + 3] == done + w[..3] && out[j + 3..] == w[3..];
      }
      rest := rest[4..];
      i, j := i + 4, j + 3;
    }
  }

  lemma OverlayEmpty(buf: seq<Byte>)
    ensures Overlay("", buf) == buf
  {
  }

  /** b64_decode: 1 and the overlaid buffer on a decodable text, 0 and an untouched buffer otherwise. */
  method DecodeBuffer(text: CString, out: array?<Byte>) returns (r: int)
    requires text.Text? && out != null && Decodable(text.chars) ==> Needed(text.chars) <= out.Length
    modifies out
    ensures r == if text.Text? && out != null && Decodable(text.chars) then 1 else 0
    ensures r == 1 ==> out[..] == Overlay(text.chars, old(out[..]))
    ensures r == 0 && out != null ==> out[..] == old(out[..])
  {
    if text.Null? || out == null {
      return 0;
    }
    var t := text.chars;
    var len := |t|;
    if len % 4 != 0 {
      return 0;
    }
    var i := 0;
    while i < len
      invariant 0 <= i <= len
      invariant forall k :: 0 <= k < i ==> IsValidChar(t[k])
    {
      if !IsValidChar(t[i]) {
        return 0;
      }
      i := i + 1;
    }
    DecodeGroups(t, out);
    return 1;
  }

  // The '=' characters a text ends with.
  function TrailingPads(t: string): (k: nat)
    ensures k <= |t|
  {
    if |t| == 0 || t[|t| - 1] != '=' then 0 else 1 + TrailingPads(t[..|t| - 1])
  }

  // A size_t result.
  function Wrap(x: int): (r: nat) {
    x % SIZE_MODULUS
  }

  lemma WrapDecrement(x: int)
    ensures Wrap(Wrap(x) - 1) == Wrap(x - 1)
  {
  }

  /** b64_decoded_size, with the wrap-around of its unsigned result. */
  method DecodedSize(text: CString) returns (ret: nat)
    ensures ret == if text.Null? then 0 else Wrap(|text.chars| / 4 * 3 - TrailingPads(text.chars))
  {
    if text.Null? {
      return 0;
    }
    hide Wrap;
    var t := text.chars;
    ret := Wrap(|t| / 4 * 3);
    var i := |t|;
    ghost var size := |t| / 4 * 3;
    assert t[..i] == t;
    while i > 0
      invariant 0 <= i <= |t|
      invariant size - TrailingPads(t[..i]) == |t| / 4 * 3 - TrailingPads(t)
      invariant ret == Wrap(size)
    {
      i := i - 1;
      assert t[..i + 1][..i] == t[..i];
      if t[i] == '=' {
        WrapDecrement(size);
        ret, size := Wrap(ret - 1), size - 1;
      } else {
        assert TrailingPads(t[..i + 1]) == 0;
        return;
      }
    }
  }
}
