/** Sequence patterns such as `A:l|S:H|#:10` (src/pin_seq.c): the strtok walk that finds a token again on
    every visit, and what a token asks for. */
module Pattern {
  datatype Option<+T> = None | Some(value: T)

  // ---------------------------------------------------------------- strtok

  function Skip(s: string, d: char): (r: string)
    ensures |r| <= |s| && (r != "" ==> r[0] != d)
  {
    if s != "" && s[0] == d then Skip(s[1..], d) else s
  }

  function Head(s: string, d: char): (h: string)
    ensures h <= s && d !in h
    ensures |h| < |s| ==> s[|h|] == d
    ensures s != "" && s[0] != d ==> h != ""
  {
    if s == "" || s[0] == d then "" else [s[0]] + Head(s[1..], d)
  }

  datatype Scan = Scan(token: Option<string>, rest: string)

  // One call of strtok with a single delimiter: the token, and the text the next call continues from.
  function Strtok(s: string, d: char): Scan {
    var r := Skip(s, d);
    if r == "" then Scan(None, "")
    else
      var h := Head(r, d);
      Scan(Some(h), if |h| < |r| then r[|h| + 1..] else "")
  }

  // All tokens of a text, in order.
  function Split(s: string, d: char): (ts: seq<string>)
    decreases |s|
  {
    var scan := Strtok(s, d);
    if scan.token.None? then [] else [scan.token.value] + Split(scan.rest, d)
  }

  lemma StrtokShrinks(s: string, d: char)
    requires Strtok(s, d).token.Some?
    ensures |Strtok(s, d).rest| < |s|
  {
  }

  // The scan after i + 1 calls of strtok stands at token i, or behind the last one.
  predicate Standing(scan: Scan, ts: seq<string>, i: nat) {
    if i < |ts| then scan.token == Some(ts[i]) && Split(scan.rest, '|') == ts[i + 1..] else scan == Scan(None, "")
  }

  lemma StandingAt(s: string, ts: seq<string>, i: nat)
    requires i <= |ts| && Split(s, '|') == ts[i..]
    ensures Standing(Strtok(s, '|'), ts, i)
  {
    hide Head;
  }

  lemma StandingBehind(scan: Scan, ts: seq<string>, i: nat)
    requires Standing(scan, ts, i)
    ensures Standing(Strtok(scan.rest, '|'), ts, i + 1)
  {
    if i < |ts| { StandingAt(scan.rest, ts, i + 1); }
  }

  /** The walk at the head of pin_seq_event, pin_seq_delay and pin_seq_signal: one strtok call and then one
      more per step already taken finds token number `index`, or NULL once the pattern is exhausted. */
  method TokenAt(pattern: string, index: nat) returns (event: Option<string>)
    ensures event == if index < |Split(pattern, '|')| then Some(Split(pattern, '|')[index]) else None
  {
    hide Strtok, Split;
    ghost var ts := Split(pattern, '|');
    assert ts[0..] == ts;
    StandingAt(pattern, ts, 0);
    var scan := Strtok(pattern, '|');
    var i := 0;
    while i < index
      invariant 0 <= i <= index && Standing(scan, ts, i)
    {
      StandingBehind(scan, ts, i);
      scan := Strtok(scan.rest, '|');
      i := i + 1;
    }
    event := scan.token;
  }

  function Join(ts: seq<string>, d: char): string {
    if |ts| == 0 then "" else if |ts| == 1 then ts[0] else ts[0] + [d] + Join(ts[1..], d)
  }

  predicate Plain(t: string, d: char) {
    t != "" && d !in t
  }

  lemma {:induction false} HeadOfPlain(t: string, rest: string, d: char)
    requires d !in t
    ensures Head(t + [d] + rest, d) == t && Head(t, d) == t
  {
    if t != "" {
      assert (t + [d] + rest)[1..] == t[1..] + [d] + rest;
      HeadOfPlain(t[1..], rest, d);
    }
  }

  /** Reading back a pattern written from its tokens. */
  lemma {:induction false} SplitOfJoin(ts: seq<string>, d: char)
    requires forall i :: 0 <= i < |ts| ==> Plain(ts[i], d)
    ensures Split(Join(ts, d), d) == ts
  {
    if |ts| == 1 {
      HeadOfPlain(ts[0], "", d);
      assert Skip(ts[0], d) == ts[0];
    } else if |ts| > 1 {
      var t, u := ts[0], Join(ts[1..], d);
      var s := Join(ts, d);
      HeadOfPlain(t, u, d);
      assert s[0] == t[0];
      assert Skip(s, d) == s && Head(s, d) == t;
      assert s[|t| + 1..] == u;
      SplitOfJoin(ts[1..], d);
    }
  }

  /** Every token is plain, and a text of n characters has at most (n + 1) / 2 of them, so the 8-bit index
      of a slot cannot wrap on the 40 characters a pattern may have. */
  lemma {:induction false} SplitIsPlain(s: string, d: char)
    ensures forall i :: 0 <= i < |Split(s, d)| ==> Plain(Split(s, d)[i], d)
    ensures 2 * |Split(s, d)| <= |s| + 1
    decreases |s|
  {
    var scan := Strtok(s, d);
    if scan.token.Some? {
      StrtokShrinks(s, d);
      SplitIsPlain(scan.rest, d);
      var r := Skip(s, d);
      assert |scan.rest| == 0 || |s| >= |r| >= 2 + |scan.rest|;
    }
  }

  // ---------------------------------------------------------------- what a token asks for

  predicate IsDelay(key: char) {
    key == '%' || key == '#' || key == '&'
  }

  predicate IsSignal(key: char) {
    'A' <= key <= 'Z'
  }

  // 0 drives the pin, 1 watches it.
  function Dir(key: char): (d: nat)
    ensures d < 2
  {
    if key == 'H' || key == 'L' then 0 else 1
  }

  function Level(key: char): nat {
    if key == 'H' || key == 'h' then 1 else 0
  }

  predicate IsDigit(c: char) {
    '0' <= c <= '9'
  }

  function Digit(c: char): (n: nat)
    requires IsDigit(c)
    ensures n < 10
  {
    c as int - 48
  }

  // The decimal value of the digits a text starts with.
  function Numeral(base: string): nat {
    NumeralFrom(0, base)
  }

  function NumeralFrom(acc: nat, base: string): nat
    decreases |base|
  {
    if base == "" || !IsDigit(base[0]) then acc else NumeralFrom(acc * 10 + Digit(base[0]), base[1..])
  }

  const WORD := 0x1_0000 // uint16_t

  // pin_seq_getTicks applied to a numeral of value n: hundreds of milliseconds in 16 bits.
  function ScaleHms(multiplier: char, n: nat): (hms: nat)
    ensures hms < WORD
  {
    var v := n % WORD;
    if multiplier == '#' then v * 10 % WORD
    else if multiplier == '&' then (if v > 10 then 10 else v) * 60 * 10 % WORD
    else v
  }

  /** pin_seq_getTicks: the digit loop works modulo 2^16, which is the numeral's value modulo 2^16. */
  method GetTicks(multiplier: char, base: string) returns (hms: nat)
    ensures hms == ScaleHms(multiplier, Numeral(base))
  {
    hms := 0;
    var i := 0;
    ghost var acc: nat := 0;
    while i < |base| && IsDigit(base[i])
      invariant 0 <= i <= |base|
      invariant NumeralFrom(acc, base[i..]) == Numeral(base)
      invariant hms == acc % WORD
    {
      TimesTen(acc, Digit(base[i]));
      assert base[i..][1..] == base[i + 1..];
      hms := (hms * 10 + Digit(base[i])) % WORD;
      acc := acc * 10 + Digit(base[i]);
      i := i + 1;
    }
    if multiplier == '#' {
      hms := hms * 10 % WORD;
    } else if multiplier == '&' {
      hms := (if hms > 10 then 10 else hms) * 60 * 10 % WORD;
    }
  }

  lemma TimesTen(acc: nat, d: nat)
    ensures (acc % WORD * 10 + d) % WORD == (acc * 10 + d) % WORD
  {
    var q, r := acc / WORD, acc % WORD;
    assert acc * 10 + d == q * 10 * WORD + (r * 10 + d);
    assert (q * 10 * WORD + (r * 10 + d)) % WORD == (r * 10 + d) % WORD;
  }

  const PRESCALER := 5 // CLK_PIT_MIN_INTERVAL / CLK_PIT_REFRESH_TIME

  // The tick count clk_pit_push stores for a delay: 20 ms ticks in 16 bits.
  function Ticks(hms: nat): (t: nat)
    ensures t < WORD
  {
    hms * PRESCALER % WORD
  }

  // The delay a token asks for, in 20 ms ticks; minutes are capped at ten.
  function IntendedTicks(multiplier: char, n: nat): nat {
    if multiplier == '%' then 5 * n
    else if multiplier == '#' then 50 * n
    else 3000 * (if n > 10 then 10 else n)
  }

  /** When the 16-bit arithmetic between a numeral and its tick count is exact: up to 13107 tenths of a
      second, up to 1310 seconds, and for minutes unless the numeral wraps onto a value below ten. */
  lemma TicksExact(multiplier: char, n: nat)
    requires IsDelay(multiplier)
    ensures Ticks(ScaleHms(multiplier, n)) == IntendedTicks(multiplier, n)
       <==> (multiplier == '%' && n <= 13107) || (multiplier == '#' && n <= 1310)
            || (multiplier == '&' && (n < WORD || n % WORD >= 10))
  {
  }

  datatype Token = Delay(hms: nat) | Input(name: char, level: nat) | Output(name: char, level: nat) | Malformed

  // What the second strtok, on ':', makes of one token.
  function ParseToken(event: string): Token {
    var keys := Split(event, ':');
    if event == "" || |keys| < 2 || keys[1] == "" then Malformed
    else if IsDelay(event[0]) then Delay(ScaleHms(event[0], Numeral(keys[1])))
    else if IsSignal(event[0]) then
      if Dir(keys[1][0]) == 0 then Output(event[0], Level(keys[1][0])) else Input(event[0], Level(keys[1][0]))
    else Malformed
  }
}
