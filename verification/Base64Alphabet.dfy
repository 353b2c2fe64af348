/** The alphabet of src/base64_coding.c is the standard one. */
module Base64Alphabet {
  import opened Base64

  // Table 1 of RFC 4648.
  const UPPER := "ABCDEFGHIJKLMNOPQRSTUVWXYZ"
  const LOWER := "abcdefghijklmnopqrstuvwxyz"
  const OTHERS := "0123456789+/"
  const STANDARD := UPPER + LOWER + OTHERS

  /** The alphabet is the standard's, character by character, and the inverse table gives places in it. */
  lemma AlphabetIsStandard(i: int, c: char)
    requires 0 <= i < 64
    ensures |STANDARD| == 64 && B64Char(i) == STANDARD[i]
    ensures B64Inv(c) == i <==> c == STANDARD[i]
  {
    hide *;
    StandardAt(i);
    AlphabetRoundTrip(i);
    if B64Inv(c) == i {
      Listed(c);
      AlphabetRoundTripBack(c);
    }
  }

  lemma StandardAt(i: int)
    requires 0 <= i < 64
    ensures |STANDARD| == 64 && B64Char(i) == STANDARD[i]
  {
    hide B64Char, UPPER, LOWER, OTHERS;
    LettersAt(if i < 26 then i else if i < 52 then i - 26 else 0);
    if i >= 52 { OthersAt(i - 52); }
    assert |OTHERS| == 12 by { OthersAt(0); }
    JoinedAt(UPPER, LOWER, OTHERS, i);
  }

  lemma JoinedAt(u: string, l: string, o: string, i: int)
    requires |u| == |l| == 26 && |o| == 12 && 0 <= i < 64
    ensures |u + l + o| == 64
    ensures (u + l + o)[i] == if i < 26 then u[i] else if i < 52 then l[i - 26] else o[i - 52]
  {
  }

  lemma LettersAt(i: int)
    requires 0 <= i < 26
    ensures |UPPER| == |LOWER| == 26 && B64Char(i) == UPPER[i] && B64Char(i + 26) == LOWER[i]
  {
  }

  lemma OthersAt(i: int)
    requires 0 <= i < 12
    ensures |OTHERS| == 12 && B64Char(i + 52) == OTHERS[i]
  {
  }

  lemma Listed(c: char)
    requires B64Inv(c) >= 0
    ensures IsValidChar(c) && c != '='
  {
  }
}
