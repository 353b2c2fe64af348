/** When a pass of the sequence engine overruns a ring of events, told from the slots and entries before it. */
module EngineRings {
  import opened Pattern
  import opened Engine
  import opened EngineProofs

  predicate IsArming(s: Slot) {
    s.status == Active && Current(s).Some? && Current(s).value.Wait?
  }

  predicate IsWatching(s: Slot) {
    s.status == Active && Current(s).Some? && Current(s).value.Sense?
  }

  // How many slots from k on are about to arm a delay, and how many to watch a port.
  function SlotsArming(slots: seq<Slot>, k: nat): nat
    requires k <= |slots|
    decreases |slots| - k
  {
    if k == |slots| then 0 else (if IsArming(slots[k]) then 1 else 0) + SlotsArming(slots, k + 1)
  }

  function SlotsWatching(slots: seq<Slot>, k: nat): nat
    requires k <= |slots|
    decreases |slots| - k
  {
    if k == |slots| then 0 else (if IsWatching(slots[k]) then 1 else 0) + SlotsWatching(slots, k + 1)
  }

  // The m-th entry after entry i of a ring.
  function After(i: nat, m: nat, size: nat): (j: nat)
    requires i < size && m <= size
    ensures j < size
  {
    if i + m < size then i + m else i + m - size
  }

  // The next n entries of the ring are there and free.
  predicate ClkFree(e: Engine, n: nat)
    requires Sized(e)
  {
    n <= 64 && forall m: nat :: m < n ==> e.clk[After(ClkSlot(e), m, 64)].status == ClkInactive
  }

  predicate InsFree(e: Engine, n: nat)
    requires Sized(e)
  {
    n <= 256 && forall m: nat :: m < n ==> e.ins[After(RingSlot(e.inIdx), m, 256)].status == PinInactive
  }

  lemma {:induction false} SameFrom(a: seq<Slot>, b: seq<Slot>, k: nat)
    requires |a| == |b| && k <= |a| && forall j :: k <= j < |a| ==> a[j] == b[j]
    ensures SlotsArming(a, k) == SlotsArming(b, k) && SlotsWatching(a, k) == SlotsWatching(b, k)
    decreases |a| - k
  {
    hide IsArming, IsWatching;
    if k < |a| { SameFrom(a, b, k + 1); }
  }

  // What firing slot k does to the rings.
  lemma FireTurns(e: Engine, k: nat)
    requires Sized(e) && k < SLOTS
    ensures var f, c, d := FireActive(e, k), ClkSlot(e), RingSlot(e.inIdx);
      && (forall j :: k < j < SLOTS ==> f.slots[j] == e.slots[j])
      && ClkSlot(f) == After(c, if IsArming(e.slots[k]) then 1 else 0, 64)
      && RingSlot(f.inIdx) == After(d, if IsWatching(e.slots[k]) then 1 else 0, 256)
      && (forall i :: 0 <= i < 64 ==>
            f.clk[i].status == if IsArming(e.slots[k]) && i == c then ClkActive else e.clk[i].status)
      && (forall i :: 0 <= i < 256 ==>
            f.ins[i].status == if IsWatching(e.slots[k]) && i == d then PinPending else e.ins[i].status)
  {
    hide Script, Ticks;
  }

  lemma FitsNow(e: Engine, k: nat)
    requires Sized(e) && k < SLOTS
    ensures (e.slots[k].status == Active ==> Fits(e, k))
       <==> (IsArming(e.slots[k]) ==> e.clk[ClkSlot(e)].status == ClkInactive)
            && (IsWatching(e.slots[k]) ==> e.ins[RingSlot(e.inIdx)].status == PinInactive)
  {
    hide Script;
  }

  // One entry taken, the others are those after it.
  lemma ClkFreeNext(e: Engine, f: Engine, armed: bool, n: nat)
    requires Sized(e) && Sized(f) && ClkSlot(f) == After(ClkSlot(e), if armed then 1 else 0, 64)
    requires forall i :: 0 <= i < 64 ==>
      f.clk[i].status == if armed && i == ClkSlot(e) then ClkActive else e.clk[i].status
    ensures ClkFree(e, n + if armed then 1 else 0)
       <==> (armed ==> e.clk[ClkSlot(e)].status == ClkInactive) && ClkFree(f, n)
  {
    var c := ClkSlot(e);
    hide ClkSlot;
    assert After(c, 0, 64) == c;
    if armed {
      forall m: nat | m < 64 ensures After(ClkSlot(f), m, 64) == After(c, m + 1, 64) { }
      if ClkFree(e, n + 1) {
        forall m: nat | m < n ensures f.clk[After(ClkSlot(f), m, 64)].status == ClkInactive {
          assert e.clk[After(c, m + 1, 64)].status == ClkInactive;
        }
      }
      assert f.clk[After(ClkSlot(f), 63, 64)].status == ClkActive;
      if ClkFree(f, n) && e.clk[c].status == ClkInactive {
        forall m: nat | m < n + 1 ensures e.clk[After(c, m, 64)].status == ClkInactive {
          if m > 0 { assert f.clk[After(ClkSlot(f), m - 1, 64)].status == ClkInactive; }
        }
      }
    }
  }

  lemma InsFreeNext(e: Engine, f: Engine, watched: bool, n: nat)
    requires Sized(e) && Sized(f) && RingSlot(f.inIdx) == After(RingSlot(e.inIdx), if watched then 1 else 0, 256)
    requires forall i :: 0 <= i < 256 ==>
      f.ins[i].status == if watched && i == RingSlot(e.inIdx) then PinPending else e.ins[i].status
    ensures InsFree(e, n + if watched then 1 else 0)
       <==> (watched ==> e.ins[RingSlot(e.inIdx)].status == PinInactive) && InsFree(f, n)
  {
    var c := RingSlot(e.inIdx);
    hide RingSlot;
    assert After(c, 0, 256) == c;
    if watched {
      forall m: nat | m < 256 ensures After(RingSlot(f.inIdx), m, 256) == After(c, m + 1, 256) { }
      if InsFree(e, n + 1) {
        forall m: nat | m < n ensures f.ins[After(RingSlot(f.inIdx), m, 256)].status == PinInactive {
          assert e.ins[After(c, m + 1, 256)].status == PinInactive;
        }
      }
      assert f.ins[After(RingSlot(f.inIdx), 255, 256)].status == PinPending;
      if InsFree(f, n) && e.ins[c].status == PinInactive {
        forall m: nat | m < n + 1 ensures e.ins[After(c, m, 256)].status == PinInactive {
          if m > 0 { assert f.ins[After(RingSlot(f.inIdx), m - 1, 256)].status == PinInactive; }
        }
      }
    }
  }

  lemma {:induction false} FiresFit(e: Engine, k: nat)
    requires Sized(e) && k <= SLOTS
    ensures FireFits(e, k) <==> ClkFree(e, SlotsArming(e.slots, k)) && InsFree(e, SlotsWatching(e.slots, k))
    decreases SLOTS - k
  {
    hide Fits, FireActive, ClkFree, InsFree, IsArming, IsWatching, ClkSlot, RingSlot;
    if k < SLOTS {
      var f := FireActive(e, k);
      FireTurns(e, k);
      FitsNow(e, k);
      SameFrom(e.slots, f.slots, k + 1);
      FiresFit(f, k + 1);
      ClkFreeNext(e, f, IsArming(e.slots[k]), SlotsArming(e.slots, k + 1));
      InsFreeNext(e, f, IsWatching(e.slots[k]), SlotsWatching(e.slots, k + 1));
    } else {
      NoneNeeded(e);
    }
  }

  lemma NoneNeeded(e: Engine)
    requires Sized(e)
    ensures ClkFree(e, 0) && InsFree(e, 0)
  {
  }

  /** A pass of the sequence task overruns nothing if and only if there are as many free clock entries, from the index
      on and around the ring of 64, as slots about to arm a delay, and as many free input entries, around the ring of
      256, as slots about to watch a port. */
  lemma PassFitsIff(e: Engine)
    requires Sized(e)
    ensures var m := Absorbed(e);
      CleanStep(e, DoUpdate) <==> ClkFree(m, SlotsArming(m.slots, 0)) && InsFree(m, SlotsWatching(m.slots, 0))
  {
    hide Absorbed, FireFits, ClkFree, InsFree, SlotsArming, SlotsWatching;
    FiresFit(Absorbed(e), 0);
  }

  // ---------------------------------------------------------------- over runs

  // How many delays a run arms, and how many ports it starts to watch, since its last flush.
  ghost function Armed(e: Engine, ops: seq<Op>, before: nat): nat
    requires Sized(e)
    decreases |ops|
  {
    if ops == [] then before
    else
      Armed(Step(e, ops[0]), ops[1..],
            if ops[0].DoFlush? then 0
            else before + if ops[0].DoUpdate? then SlotsArming(Absorbed(e).slots, 0) else 0)
  }

  ghost function Watched(e: Engine, ops: seq<Op>, before: nat): nat
    requires Sized(e)
    decreases |ops|
  {
    if ops == [] then before
    else
      Watched(Step(e, ops[0]), ops[1..],
              if ops[0].DoFlush? then 0
              else before + if ops[0].DoUpdate? then SlotsWatching(Absorbed(e).slots, 0) else 0)
  }

  predicate Unturned(e: Engine, f: Engine)
    requires Sized(e) && Sized(f)
  {
    f.clkIdx == e.clkIdx && f.inIdx == e.inIdx
  }

  lemma {:induction false} TickFromUnturned(e: Engine, i: nat)
    requires Sized(e) && i <= CLK_EVENTS
    ensures Unturned(e, TickFrom(e, i))
    decreases CLK_EVENTS - i
  {
    if i < CLK_EVENTS { TickFromUnturned(Tick(e, i), i + 1); }
  }

  lemma {:induction false} LookFromUnturned(e: Engine, i: nat, seen: set<nat>)
    requires Sized(e) && i <= PIN_EVENTS
    ensures Unturned(e, LookFrom(e, i, seen))
    decreases PIN_EVENTS - i
  {
    if i < PIN_EVENTS { LookFromUnturned(Look(e, i, i in seen), i + 1, seen); }
  }

  lemma {:induction false} AbsorbClkFromUnturned(e: Engine, i: nat)
    requires Sized(e) && i <= CLK_EVENTS
    ensures Unturned(e, AbsorbClkFrom(e, i))
    decreases CLK_EVENTS - i
  {
    hide Script;
    if i < CLK_EVENTS { AbsorbClkFromUnturned(AbsorbClk(e, i), i + 1); }
  }

  lemma {:induction false} AbsorbInFromUnturned(e: Engine, i: nat)
    requires Sized(e) && i <= PIN_EVENTS
    ensures Unturned(e, AbsorbInFrom(e, i))
    decreases PIN_EVENTS - i
  {
    hide Script;
    if i < PIN_EVENTS { AbsorbInFromUnturned(AbsorbIn(e, i), i + 1); }
  }

  // The entry the next event takes, after so many since the last flush.
  predicate Turned(e: Engine, armed: nat, watched: nat)
    requires Sized(e)
  {
    ClkSlot(e) == armed % 64 && RingSlot(e.inIdx) == watched % 256
  }

  /** The start and a flush begin at entry 0 of both. */
  lemma TurnedAtFirst(e: Engine)
    requires Sized(e)
    ensures Turned(Start(), 0, 0) && Turned(Flush(e), 0, 0)
  {
  }

  lemma Around(c: nat, n: nat, more: nat, size: nat)
    requires (size == 64 || size == 256) && c == n % size && more <= 1
    ensures After(c, more, size) == (n + more) % size
  {
  }

  lemma {:induction false} FireFromTurns(e: Engine, k: nat, armed: nat, watched: nat)
    requires Sized(e) && k <= SLOTS && Turned(e, armed, watched)
    ensures Turned(FireFrom(e, k), armed + SlotsArming(e.slots, k), watched + SlotsWatching(e.slots, k))
    decreases SLOTS - k
  {
    hide FireActive, IsArming, IsWatching, ClkSlot, RingSlot;
    if k < SLOTS {
      var f := FireActive(e, k);
      FireTurns(e, k);
      SameFrom(e.slots, f.slots, k + 1);
      var a, w := if IsArming(e.slots[k]) then 1 else 0, if IsWatching(e.slots[k]) then 1 else 0;
      Around(ClkSlot(e), armed, a, 64);
      Around(RingSlot(e.inIdx), watched, w, 256);
      FireFromTurns(f, k + 1, armed + a, watched + w);
    }
  }

  lemma StepTurns(e: Engine, op: Op, armed: nat, watched: nat)
    requires Sized(e) && Turned(e, armed, watched)
    ensures Turned(Step(e, op), Armed(e, [op], armed), Watched(e, [op], watched))
  {
    hide FireFrom, SlotsArming, SlotsWatching, AbsorbClkFrom, AbsorbInFrom, TickFrom, LookFrom, Script;
    assert [op][1..] == [];
    match op
    case DoUpdate =>
      AbsorbClkFromUnturned(e, 0);
      AbsorbInFromUnturned(AbsorbClkFrom(e, 0), 0);
      FireFromTurns(Absorbed(e), 0, armed, watched);
    case DoTick => TickFromUnturned(e, 0);
    case DoPins(seen) => LookFromUnturned(Drain(e), 0, seen);
    case _ =>
  }

  /** In every run, clean or not, the rings turn by one entry an event: the n-th delay since the last flush takes clock
      entry n modulo 64, the n-th watched port input entry n modulo 256, counted from zero. */
  lemma {:induction false} RingsTurn(e: Engine, ops: seq<Op>, armed: nat, watched: nat)
    requires Sized(e) && Turned(e, armed, watched)
    ensures Turned(Run(e, ops), Armed(e, ops, armed), Watched(e, ops, watched))
    decreases |ops|
  {
    hide Turned, Step, SlotsArming, SlotsWatching, Absorbed;
    if ops != [] {
      StepTurns(e, ops[0], armed, watched);
      ArmedOne(e, ops[0], armed);
      ArmedOne(e, ops[0], watched);
      RingsTurn(Step(e, ops[0]), ops[1..], Armed(e, [ops[0]], armed), Watched(e, [ops[0]], watched));
    }
  }

  lemma ArmedOne(e: Engine, op: Op, n: nat)
    requires Sized(e)
    ensures Armed(e, [op], n)
         == if op.DoFlush? then 0 else n + if op.DoUpdate? then SlotsArming(Absorbed(e).slots, 0) else 0
    ensures Watched(e, [op], n)
         == if op.DoFlush? then 0 else n + if op.DoUpdate? then SlotsWatching(Absorbed(e).slots, 0) else 0
  {
    hide Step, SlotsArming, SlotsWatching, Absorbed;
    assert [op][1..] == [];
  }
}
