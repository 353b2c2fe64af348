/** The input samples (src/pin_xio.c): six at a time go into one of two frames, and readers look at the other. */
module PinFrames {
  const ADAPTERS := 8   // PIN_XIO_MAX_ADAPTERS
  const PINS := 16
  const STAMPS := 6     // MAX_INPUT_TIMESTAMP

  // What the I2C bus delivers for one adapter.
  datatype Raw = Raw(a: bv8, b: bv8)

  // PORTS_TO_STATUS(dataA, ~dataB)
  function Word(r: Raw): bv16 {
    (((!r.b) as bv16 << 8) & 0xFF00) | (r.a as bv16 & 0x00FF)
  }

  // pin_xio_layout: register and bit of a pin, as one shift.
  const SHIFTS: seq<nat> := [4, 0, 5, 1, 6, 3, 7, 2, 11, 15, 10, 14, 9, 12, 8, 13]

  function Shift(pin: nat): (s: nat)
    requires pin < PINS
    ensures s < 16
  {
    SHIFTS[pin]
  }

  /** No two pins share a bit, outputs sit in register A and inputs in register B. */
  lemma ShiftInjective(p: nat, q: nat)
    requires p < PINS && q < PINS
    ensures Shift(p) == Shift(q) ==> p == q
    ensures p < 8 <==> Shift(p) < 8
  {
    assert forall i :: 0 <= i < PINS ==> INVERSE[SHIFTS[i]] == i;
    assert INVERSE[Shift(p)] == p && INVERSE[Shift(q)] == q;
  }

  const INVERSE: seq<nat> := [1, 3, 7, 5, 0, 2, 4, 6, 14, 12, 10, 8, 13, 15, 11, 9]

  function BitOf(w: bv16, shift: nat): bool
    requires shift < 16
  {
    w & (1 << shift) != 0
  }

  // Bit k of one register.
  function RawBit(v: bv8, k: nat): bool
    requires k < 8
  {
    v & (1 << k) != 0
  }

  /** An input pin reads as the complement of its register bit, an output pin as the bit itself. */
  lemma WordBits(r: Raw, k: nat)
    requires k < 8
    ensures BitOf(Word(r), k) == RawBit(r.a, k)
    ensures BitOf(Word(r), 8 + k) == !RawBit(r.b, k)
  {
    var a, b := r.a, r.b;
    if k == 0 { } else if k == 1 { } else if k == 2 { } else if k == 3 { }
    else if k == 4 { } else if k == 5 { } else if k == 6 { } else { assert k == 7; }
  }

  /** Where each pin is read: the first eight as their bit of register A, the others as the complement of their bit of
      register B. */
  lemma PinBits(r: Raw)
    ensures BitOf(Word(r), Shift(0)) == RawBit(r.a, 4)
    ensures BitOf(Word(r), Shift(1)) == RawBit(r.a, 0)
    ensures BitOf(Word(r), Shift(2)) == RawBit(r.a, 5)
    ensures BitOf(Word(r), Shift(3)) == RawBit(r.a, 1)
    ensures BitOf(Word(r), Shift(4)) == RawBit(r.a, 6)
    ensures BitOf(Word(r), Shift(5)) == RawBit(r.a, 3)
    ensures BitOf(Word(r), Shift(6)) == RawBit(r.a, 7)
    ensures BitOf(Word(r), Shift(7)) == RawBit(r.a, 2)
    ensures BitOf(Word(r), Shift(8)) == !RawBit(r.b, 3)
    ensures BitOf(Word(r), Shift(9)) == !RawBit(r.b, 7)
    ensures BitOf(Word(r), Shift(10)) == !RawBit(r.b, 2)
    ensures BitOf(Word(r), Shift(11)) == !RawBit(r.b, 6)
    ensures BitOf(Word(r), Shift(12)) == !RawBit(r.b, 1)
    ensures BitOf(Word(r), Shift(13)) == !RawBit(r.b, 4)
    ensures BitOf(Word(r), Shift(14)) == !RawBit(r.b, 0)
    ensures BitOf(Word(r), Shift(15)) == !RawBit(r.b, 5)
  {
    hide Word, BitOf, RawBit;
    forall k: nat | k < 8 ensures BitOf(Word(r), k) == RawBit(r.a, k) && BitOf(Word(r), 8 + k) == !RawBit(r.b, k) {
      WordBits(r, k);
    }
  }

  // ---------------------------------------------------------------- the two frames

  // One status word per adapter.
  type Sample = s: seq<bv16> | |s| == ADAPTERS witness [0, 0, 0, 0, 0, 0, 0, 0]

  // pin_xio_status[.][.][.].ists, ping_pong_idx, input_timestamp_place
  datatype Frames = Frames(ping: seq<Sample>, pong: seq<Sample>, side: bool, place: nat)

  predicate Sized(x: Frames) {
    |x.ping| == STAMPS && |x.pong| == STAMPS && x.place < STAMPS
  }

  // The frame being filled, and the one readers see.
  function Filling(x: Frames): seq<Sample> {
    if x.side then x.pong else x.ping
  }

  function Readable(x: Frames): seq<Sample> {
    if x.side then x.ping else x.pong
  }

  // Adapters that are absent or disabled keep their old word.
  function Merge(before: Sample, raw: seq<Raw>, present: set<nat>): (s: Sample)
    requires |raw| == ADAPTERS
  {
    seq(ADAPTERS, k requires 0 <= k < ADAPTERS => if k in present then Word(raw[k]) else before[k])
  }

  // pin_in_update
  function Update(x: Frames, raw: seq<Raw>, present: set<nat>): (y: Frames)
    requires Sized(x) && |raw| == ADAPTERS
    ensures Sized(y)
  {
    var s := Merge(Filling(x)[x.place], raw, present);
    var ping := if x.side then x.ping else x.ping[x.place := s];
    var pong := if x.side then x.pong[x.place := s] else x.pong;
    if x.place < STAMPS - 1 then Frames(ping, pong, x.side, x.place + 1) else Frames(ping, pong, !x.side, 0)
  }

  // pin_xio_get; a timestamp out of range falls back on the place after the one being filled.
  function Get(x: Frames, adapter: nat, pin: nat, t: nat): bool
    requires Sized(x) && adapter < ADAPTERS && pin < PINS
  {
    var at := if t < STAMPS then t else if x.place < STAMPS - 1 then x.place + 1 else 0;
    BitOf(Readable(x)[at][adapter], Shift(pin))
  }

  // One update: what every adapter answers, and which are there to be asked.
  datatype Reading = Reading(raw: seq<Raw>, present: set<nat>)

  predicate Whole(rs: seq<Reading>) {
    forall i :: 0 <= i < |rs| ==> |rs[i].raw| == ADAPTERS
  }

  function UpdateAll(x: Frames, rs: seq<Reading>): (y: Frames)
    requires Sized(x) && Whole(rs)
    ensures Sized(y)
    decreases |rs|
  {
    if rs == [] then x else Update(UpdateAll(x, rs[..|rs| - 1]), rs[|rs| - 1].raw, rs[|rs| - 1].present)
  }

  // ---------------------------------------------------------------- what readers see

  // What adapter k showed when update n was made: its answer, or else what it showed twelve updates before, which sits
  // in the same place of the same frame. Before the first update that is what the frames held at first.
  function Seen(x: Frames, rs: seq<Reading>, n: int, k: nat): bv16
    requires Sized(x) && Whole(rs) && -12 <= n < |rs| && k < ADAPTERS
    decreases n + 12
  {
    if n < -6 then Filling(x)[n + 12][k]
    else if n < 0 then Readable(x)[n + 6][k]
    else if k in rs[n].present then Word(rs[n].raw[k])
    else Seen(x, rs, n - 12, k)
  }

  lemma {:induction false} SeenStays(x: Frames, rs: seq<Reading>, r: Reading, n: int, k: nat)
    requires Sized(x) && Whole(rs) && |r.raw| == ADAPTERS && -12 <= n < |rs| && k < ADAPTERS
    ensures Seen(x, rs + [r], n, k) == Seen(x, rs, n, k)
    decreases n + 12
  {
    hide Word;
    if n >= 0 { SeenStays(x, rs, r, n - 12, k); }
  }

  // After 6*q+place updates: the frame being filled holds the last place samples and then those twelve updates older;
  // the other holds the six before.
  ghost predicate Filled(x0: Frames, x: Frames, rs: seq<Reading>, q: nat, k: nat)
    requires Sized(x0) && Sized(x) && Whole(rs) && k < ADAPTERS
  {
    && |rs| == 6 * q + x.place
    && forall i :: 0 <= i < 6 ==>
         && Filling(x)[i][k] == Seen(x0, rs, if i < x.place then 6 * q + i else 6 * (q - 2) + i, k)
         && Readable(x)[i][k] == Seen(x0, rs, 6 * (q - 1) + i, k)
  }

  // The frame being filled after an update.
  function Full(x: Frames, r: Reading): (f: seq<Sample>)
    requires Sized(x) && |r.raw| == ADAPTERS
    ensures |f| == STAMPS && forall i :: 0 <= i < STAMPS && i != x.place ==> f[i] == Filling(x)[i]
  {
    Filling(x)[x.place := Merge(Filling(x)[x.place], r.raw, r.present)]
  }

  lemma UpdateTurns(x: Frames, r: Reading)
    requires Sized(x) && |r.raw| == ADAPTERS
    ensures var y := Update(x, r.raw, r.present);
      if x.place < 5 then y.place == x.place + 1 && Filling(y) == Full(x, r) && Readable(y) == Readable(x)
      else y.place == 0 && Filling(y) == Readable(x) && Readable(y) == Full(x, r)
  {
    hide Merge;
  }

  lemma PlaceFilled(x0: Frames, x: Frames, rs: seq<Reading>, q: nat, r: Reading, k: nat)
    requires Sized(x0) && Sized(x) && |r.raw| == ADAPTERS && Whole(rs) && k < ADAPTERS && Filled(x0, x, rs, q, k)
    ensures |rs| == 6 * q + x.place && Full(x, r)[x.place][k] == Seen(x0, rs + [r], |rs|, k)
  {
    hide Word;
    SeenStays(x0, rs, r, |rs| - 12, k);
  }

  lemma UpdateFills(x0: Frames, x: Frames, rs: seq<Reading>, q: nat, r: Reading, k: nat)
    requires Sized(x0) && Sized(x) && |r.raw| == ADAPTERS && Whole(rs) && k < ADAPTERS && Filled(x0, x, rs, q, k)
    ensures Filled(x0, Update(x, r.raw, r.present), rs + [r], if x.place == STAMPS - 1 then q + 1 else q, k)
  {
    hide Word, Seen, Update, Full;
    UpdateTurns(x, r);
    PlaceFilled(x0, x, rs, q, r, k);
    forall i | 0 <= i < 6
      ensures Full(x, r)[i][k] == Seen(x0, rs + [r], if i <= x.place then 6 * q + i else 6 * (q - 2) + i, k)
      ensures Readable(x)[i][k] == Seen(x0, rs + [r], 6 * (q - 1) + i, k)
    {
      SeenStays(x0, rs, r, 6 * (q - 1) + i, k);
      if i != x.place { SeenStays(x0, rs, r, if i < x.place then 6 * q + i else 6 * (q - 2) + i, k); }
    }
  }

  lemma NoneFilled(x: Frames, k: nat)
    requires Sized(x) && x.place == 0 && k < ADAPTERS
    ensures Filled(x, x, [], 0, k)
  {
    hide Seen, Word;
    forall i | 0 <= i < 6
      ensures Filling(x)[i][k] == Seen(x, [], i - 12, k) && Readable(x)[i][k] == Seen(x, [], i - 6, k)
    {
      SeenAtFirst(x, i, k);
    }
  }

  lemma SeenAtFirst(x: Frames, i: nat, k: nat)
    requires Sized(x) && i < 6 && k < ADAPTERS
    ensures Seen(x, [], i - 12, k) == Filling(x)[i][k] && Seen(x, [], i - 6, k) == Readable(x)[i][k]
  {
    hide Word;
  }

  lemma {:induction false} AllFill(x: Frames, rs: seq<Reading>, k: nat) returns (q: nat)
    requires Sized(x) && x.place == 0 && Whole(rs) && k < ADAPTERS
    ensures Filled(x, UpdateAll(x, rs), rs, q, k)
    decreases |rs|
  {
    hide Filled, Update;
    if rs == [] {
      q := 0;
      NoneFilled(x, k);
    } else {
      var before := rs[..|rs| - 1];
      q := AllFill(x, before, k);
      UpdateFills(x, UpdateAll(x, before), before, q, rs[|rs| - 1], k);
      assert before + [rs[|rs| - 1]] == rs;
      if UpdateAll(x, before).place == STAMPS - 1 { q := q + 1; }
    }
  }

  /** After m updates, m at least six, reading timestamp t of a pin gives what its adapter showed at update
      6*(m/6-1)+t: readers always see one whole frame, never the one being filled, whichever adapters come and go. */
  lemma {:induction false} ReadsWholeFrame(x: Frames, rs: seq<Reading>, adapter: nat, pin: nat, t: nat)
    requires Sized(x) && x.place == 0 && |rs| >= 6 && Whole(rs) && adapter < ADAPTERS && pin < PINS && t < 6
    ensures var n := 6 * (|rs| / 6 - 1) + t;
      n < |rs| && Get(UpdateAll(x, rs), adapter, pin, t) == BitOf(Seen(x, rs, n, adapter), Shift(pin))
  {
    hide Word, BitOf, Shift, Seen, Filled;
    var q := AllFill(x, rs, adapter);
    ReadableAt(x, UpdateAll(x, rs), rs, q, adapter, t);
    Sixes(|rs|, q, UpdateAll(x, rs).place);
  }

  /** A timestamp out of range reads the fifth newest sample, but the eleventh newest just before the frames change
      places. */
  lemma {:induction false} ReadsOldSample(x: Frames, rs: seq<Reading>, adapter: nat, pin: nat, t: nat)
    requires Sized(x) && x.place == 0 && |rs| >= 6 && Whole(rs) && adapter < ADAPTERS && pin < PINS && t >= 6
    ensures var n := if |rs| % 6 == 5 then |rs| - 11 else |rs| - 5;
      0 <= n < |rs| && Get(UpdateAll(x, rs), adapter, pin, t) == BitOf(Seen(x, rs, n, adapter), Shift(pin))
  {
    hide Word, BitOf, Shift, Seen, Filled;
    var q := AllFill(x, rs, adapter);
    var y := UpdateAll(x, rs);
    var at := if y.place < 5 then y.place + 1 else 0;
    ReadableAt(x, y, rs, q, adapter, at);
    Sixes(|rs|, q, y.place);
  }

  lemma ReadableAt(x0: Frames, x: Frames, rs: seq<Reading>, q: nat, k: nat, i: nat)
    requires Sized(x0) && Sized(x) && Whole(rs) && k < ADAPTERS && i < 6 && Filled(x0, x, rs, q, k)
    ensures |rs| == 6 * q + x.place && Readable(x)[i][k] == Seen(x0, rs, 6 * (q - 1) + i, k)
  {
    hide Word, Seen;
  }

  lemma Sixes(n: nat, q: nat, p: nat)
    requires n == 6 * q + p && p < 6
    ensures n / 6 == q && n % 6 == p
  {
  }

  class InputFrames {
    const ping: array<Sample>
    const pong: array<Sample>
    var side: bool  // ping_pong_idx
    var place: nat  // input_timestamp_place

    ghost predicate Valid()
      reads this, ping, pong
    {
      ping != pong && Sized(Value())
    }

    ghost function Value(): Frames
      reads this, ping, pong
    {
      Frames(ping[..], pong[..], side, place)
    }

    constructor ()
      ensures Valid() && place == 0 && fresh(ping) && fresh(pong)
    {
      ping := new Sample[STAMPS](_ => seq(ADAPTERS, _ => 0));
      pong := new Sample[STAMPS](_ => seq(ADAPTERS, _ => 0));
      side, place := false, 0;
    }

    method UpdateInputs(raw: seq<Raw>, present: set<nat>)
      requires Valid() && |raw| == ADAPTERS
      modifies this, ping, pong
      ensures Valid() && Value() == Update(old(Value()), raw, present)
    {
      hide Word;
      var frame := if side then pong else ping;
      ghost var before := frame[place];
      for k := 0 to ADAPTERS
        invariant side == old(side) && place == old(place)
        invariant forall j :: 0 <= j < ADAPTERS ==>
          frame[place][j] == if j < k && j in present then Word(raw[j]) else before[j]
        invariant forall i :: 0 <= i < STAMPS && i != place ==> frame[i] == old(frame[i])
        invariant side ==> ping[..] == old(ping[..])
        invariant !side ==> pong[..] == old(pong[..])
      {
        if k in present {
          frame[place] := frame[place][k := Word(raw[k])];
        }
      }
      assert frame[place] == Merge(before, raw, present);
      assert frame[..] == old(frame[..])[place := frame[place]];
      if place < STAMPS - 1 {
        place := place + 1;
      } else {
        place := 0;
        side := !side;
      }
    }

    method GetInput(adapter: nat, pin: nat, t: nat) returns (status: bool)
      requires Valid() && adapter < ADAPTERS && pin < PINS
      ensures status == Get(Value(), adapter, pin, t)
    {
      hide BitOf, Shift;
      var shift := Shift(pin);
      var frame := if !side then pong else ping;
      var at := t;
      if t >= STAMPS {
        at := if place < STAMPS - 1 then place + 1 else 0;
      }
      status := BitOf(frame[at][adapter], shift);
    }
  }
}
