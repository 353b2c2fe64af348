/** Progress and timing of the sequence engine: sequences end, and a delay takes exactly its ticks. */
module EngineProgress {
  import opened Pattern
  import opened Engine
  import opened EngineProofs

  // ---------------------------------------------------------------- progress

  // What is left to do for a slot: three steps an action, then finishing and reporting.
  function Left(s: Slot): int {
    match s.status
    case Inactive => 0
    case Active => 3 * (|Script(s.job)| - s.index) + 2
    case Pending => 3 * (|Script(s.job)| - s.index) + 1
    case Done => 3 * (|Script(s.job)| - s.index) + 1
  }

  lemma LeftIsNatural(e: Engine, idx: nat)
    requires Inv(e) && idx < SLOTS
    ensures Left(e.slots[idx]) >= 0 && (e.slots[idx].status == Done ==> Left(e.slots[idx]) == 1)
  {
    hide Script, Interpret, OneEventEach;
    assert SlotOk(e, idx);
    if e.slots[idx].status == Pending {
      if i :| 0 <= i < CLK_EVENTS && LiveClk(e.clk[i]) && e.clk[i].ref == idx {
        assert ClkOk(e, i);
      } else {
        var i :| 0 <= i < PIN_EVENTS && LiveIn(e.ins[i]) && e.ins[i].ref == idx;
        assert InOk(e, i);
      }
    }
  }

  // An event slot idx waits for has happened and is not absorbed yet.
  ghost predicate ClkRipe(e: Engine, from: nat, idx: nat)
    requires Sized(e)
  {
    exists i :: from <= i < CLK_EVENTS && e.clk[i].status == ClkDone && e.clk[i].ref == idx
  }

  ghost predicate InRipe(e: Engine, from: nat, idx: nat)
    requires Sized(e)
  {
    exists i :: from <= i < PIN_EVENTS && e.ins[i].status == PinActive && e.ins[i].ref == idx
  }

  ghost predicate Ripe(e: Engine, idx: nat)
    requires Sized(e)
  {
    ClkRipe(e, 0, idx) || InRipe(e, 0, idx)
  }

  lemma AbsorbClkProgress(e: Engine, i: nat, idx: nat)
    requires Inv(e) && i < CLK_EVENTS && idx < SLOTS
    ensures var m := AbsorbClk(e, i);
      && Inv(m) && m.ins == e.ins
      && (e.slots[idx].status != Pending ==> m.slots[idx] == e.slots[idx])
      && (if e.clk[i].status == ClkDone && e.clk[i].ref == idx
          then Left(m.slots[idx]) < Left(e.slots[idx])
          else m.slots[idx] == e.slots[idx])
      && (ClkRipe(e, i, idx) ==> (e.clk[i].status == ClkDone && e.clk[i].ref == idx) || ClkRipe(m, i + 1, idx))
  {
    hide Script;
    var m := AbsorbClk(e, i);
    AbsorbClkKeeps(e, i);
    hide Inv;
    if ClkRipe(e, i, idx) && !(e.clk[i].status == ClkDone && e.clk[i].ref == idx) {
      var j :| i <= j < CLK_EVENTS && e.clk[j].status == ClkDone && e.clk[j].ref == idx;
      assert m.clk[j] == e.clk[j];
    }
  }

  lemma {:induction false} AbsorbClkFromProgress(e: Engine, i: nat, idx: nat)
    requires Inv(e) && i <= CLK_EVENTS && idx < SLOTS
    ensures var r := AbsorbClkFrom(e, i);
      && Left(r.slots[idx]) <= Left(e.slots[idx])
      && (e.slots[idx].status != Pending ==> r.slots[idx] == e.slots[idx])
      && (ClkRipe(e, i, idx) ==> Left(r.slots[idx]) < Left(e.slots[idx]))
      && r.ins == e.ins
    decreases CLK_EVENTS - i
  {
    if i < CLK_EVENTS {
      AbsorbClkProgress(e, i, idx);
      hide Inv, AbsorbClk, Left, ClkRipe;
      AbsorbClkFromProgress(AbsorbClk(e, i), i + 1, idx);
    } else {
      hide Inv;
    }
  }

  lemma AbsorbInProgress(e: Engine, i: nat, idx: nat)
    requires Inv(e) && i < PIN_EVENTS && idx < SLOTS
    ensures var m := AbsorbIn(e, i);
      && Inv(m)
      && (e.slots[idx].status != Pending ==> m.slots[idx] == e.slots[idx])
      && (if e.ins[i].status == PinActive && e.ins[i].ref == idx
          then Left(m.slots[idx]) < Left(e.slots[idx])
          else m.slots[idx] == e.slots[idx])
      && (InRipe(e, i, idx) ==> (e.ins[i].status == PinActive && e.ins[i].ref == idx) || InRipe(m, i + 1, idx))
  {
    hide Script;
    var m := AbsorbIn(e, i);
    AbsorbInKeeps(e, i);
    hide Inv;
    if InRipe(e, i, idx) && !(e.ins[i].status == PinActive && e.ins[i].ref == idx) {
      var j :| i <= j < PIN_EVENTS && e.ins[j].status == PinActive && e.ins[j].ref == idx;
      assert m.ins[j] == e.ins[j];
    }
  }

  lemma {:induction false} AbsorbInFromProgress(e: Engine, i: nat, idx: nat)
    requires Inv(e) && i <= PIN_EVENTS && idx < SLOTS
    ensures var r := AbsorbInFrom(e, i);
      && Left(r.slots[idx]) <= Left(e.slots[idx])
      && (e.slots[idx].status != Pending ==> r.slots[idx] == e.slots[idx])
      && (InRipe(e, i, idx) ==> Left(r.slots[idx]) < Left(e.slots[idx]))
    decreases PIN_EVENTS - i
  {
    if i < PIN_EVENTS {
      AbsorbInProgress(e, i, idx);
      hide Inv, AbsorbIn, Left, InRipe;
      AbsorbInFromProgress(AbsorbIn(e, i), i + 1, idx);
    } else {
      hide Inv;
    }
  }

  lemma FireProgress(e: Engine, j: nat, idx: nat)
    requires Inv(e) && j < SLOTS && idx < SLOTS
    ensures var r := FireActive(e, j);
      && (idx != j || e.slots[idx].status != Active ==> r.slots[idx] == e.slots[idx])
      && (idx == j && e.slots[idx].status == Active ==> Left(r.slots[idx]) < Left(e.slots[idx]))
  {
    hide Script, Interpret;
    assert SlotOk(e, j);
    assert e.slots[j].status == Active ==> WellFormed(e.slots[j].job);
  }

  lemma {:induction false} FireFromProgress(e: Engine, j: nat, idx: nat)
    requires Inv(e) && j <= SLOTS && idx < SLOTS && FireFits(e, j)
    ensures var r := FireFrom(e, j);
      && Left(r.slots[idx]) <= Left(e.slots[idx])
      && (j <= idx && e.slots[idx].status == Active ==> Left(r.slots[idx]) < Left(e.slots[idx]))
    decreases SLOTS - j
  {
    hide Inv, FireActive, Left;
    InvSized(e);
    if j < SLOTS {
      FireProgress(e, j, idx);
      FireKeeps(e, j);
      FireFromProgress(FireActive(e, j), j + 1, idx);
    }
  }

  lemma AbsorbedProgress(e: Engine, idx: nat)
    requires Inv(e) && idx < SLOTS
    ensures Left(Absorbed(e).slots[idx]) <= Left(e.slots[idx])
    ensures e.slots[idx].status == Active ==> Absorbed(e).slots[idx] == e.slots[idx]
    ensures Ripe(e, idx) ==> Left(Absorbed(e).slots[idx]) < Left(e.slots[idx])
  {
    AbsorbClkFromKeeps(e, 0);
    AbsorbClkFromProgress(e, 0, idx);
    var m := AbsorbClkFrom(e, 0);
    AbsorbInFromProgress(m, 0, idx);
    hide Inv, AbsorbClkFrom, AbsorbInFrom, Left;
  }

  /** Every pass of the sequence task moves every slot it can: one that is active, or whose event has
      happened, has strictly less left to do afterwards, and no slot ever has more. */
  lemma UpdateProgress(e: Engine, idx: nat)
    requires Inv(e) && CleanStep(e, DoUpdate) && idx < SLOTS
    ensures Left(Update(e).slots[idx]) <= Left(e.slots[idx])
    ensures e.slots[idx].status == Active || Ripe(e, idx) ==> Left(Update(e).slots[idx]) < Left(e.slots[idx])
  {
    hide Inv, Absorbed, Left, Ripe, FireFrom, FireFits, Update;
    InvSized(e);
    AbsorbedKeeps(e);
    AbsorbedProgress(e, idx);
    FireFromProgress(Absorbed(e), 0, idx);
    UpdateIs(e);
  }

  lemma UpdateIs(e: Engine)
    requires Sized(e)
    ensures Update(e) == FireFrom(Absorbed(e), 0)
  {
  }

  lemma {:induction false} TickFromSlots(e: Engine, i: nat)
    requires Sized(e) && i <= CLK_EVENTS
    ensures TickFrom(e, i).slots == e.slots
    decreases CLK_EVENTS - i
  {
    if i < CLK_EVENTS { TickFromSlots(Tick(e, i), i + 1); }
  }

  lemma {:induction false} LookFromSlots(e: Engine, i: nat, seen: set<nat>)
    requires Sized(e) && i <= PIN_EVENTS
    ensures LookFrom(e, i, seen).slots == e.slots && LookFrom(e, i, seen).clk == e.clk
    decreases PIN_EVENTS - i
  {
    if i < PIN_EVENTS { LookFromSlots(Look(e, i, i in seen), i + 1, seen); }
  }

  // The passes of a run that could move slot idx.
  ghost function UsefulPasses(e: Engine, ops: seq<Op>, idx: nat): nat
    requires Sized(e) && idx < SLOTS
    decreases |ops|
  {
    if ops == [] then 0
    else
      (if ops[0].DoUpdate? && (e.slots[idx].status == Active || Ripe(e, idx)) then 1 else 0)
      + UsefulPasses(Step(e, ops[0]), ops[1..], idx)
  }

  // No op of the run pushes into slot idx or flushes.
  ghost predicate Undisturbed(e: Engine, ops: seq<Op>, idx: nat)
    requires Sized(e)
    decreases |ops|
  {
    ops == [] ||
    (!ops[0].DoFlush? && (ops[0].DoPush? ==> PushSlot(e) != idx) && Undisturbed(Step(e, ops[0]), ops[1..], idx))
  }

  lemma StepProgress(e: Engine, op: Op, idx: nat)
    requires Inv(e) && CleanStep(e, op) && idx < SLOTS && Undisturbed(e, [op], idx)
    ensures Left(Step(e, op).slots[idx]) <= Left(e.slots[idx])
    ensures op.DoUpdate? && (e.slots[idx].status == Active || Ripe(e, idx))
            ==> Left(Step(e, op).slots[idx]) < Left(e.slots[idx])
  {
    match op
    case DoUpdate => UpdateProgress(e, idx);
    case DoTick => TickFromSlots(e, 0);
    case DoPins(seen) => LookFromSlots(Drain(e), 0, seen);
    case DoNext =>
      LeftIsNatural(e, idx);
      hide Inv;
    case _ =>
  }

  /** Sequences end: however a clean run interleaves the tasks, a slot with k actions to go is moved by at
      most 3k + 2 passes. */
  lemma {:induction false} UsefulPassesBounded(e: Engine, ops: seq<Op>, idx: nat)
    requires Inv(e) && CleanRun(e, ops) && idx < SLOTS && Undisturbed(e, ops, idx)
    ensures UsefulPasses(e, ops, idx) + Left(Run(e, ops).slots[idx]) <= Left(e.slots[idx])
    ensures 0 <= Left(Run(e, ops).slots[idx]) && UsefulPasses(e, ops, idx) <= Left(e.slots[idx])
    decreases |ops|
  {
    hide Inv, Step, CleanStep, Left, Ripe;
    InvSized(e);
    LeftIsNatural(e, idx);
    if ops != [] {
      StepKeeps(e, ops[0]);
      StepProgress(e, ops[0], idx);
      UsefulPassesBounded(Step(e, ops[0]), ops[1..], idx);
    }
  }

  // ---------------------------------------------------------------- timing

  // Entry i is an unexpired delay v, and its slot is s.
  ghost predicate Counting(e: Engine, i: nat, v: ClkEvent, s: Slot)
    requires Sized(e) && i < CLK_EVENTS
  {
    e.clk[i] == v && v.status == ClkActive && e.slots[v.ref] == s
  }

  lemma {:induction false} AbsorbClkFromWaits(e: Engine, k: nat, i: nat, v: ClkEvent, s: Slot)
    requires Inv(e) && k <= CLK_EVENTS && i < CLK_EVENTS && Counting(e, i, v, s)
    ensures Counting(AbsorbClkFrom(e, k), i, v, s)
    decreases CLK_EVENTS - k
  {
    if k < CLK_EVENTS {
      AbsorbClkKeeps(e, k);
      AbsorbClkWaits(e, k, i, v, s);
      hide Inv, AbsorbClk, Counting;
      AbsorbClkFromWaits(AbsorbClk(e, k), k + 1, i, v, s);
    }
  }

  // Another clock event belongs to another slot.
  lemma AbsorbClkWaits(e: Engine, k: nat, i: nat, v: ClkEvent, s: Slot)
    requires Inv(e) && k < CLK_EVENTS && i < CLK_EVENTS && Counting(e, i, v, s)
    ensures Counting(AbsorbClk(e, k), i, v, s)
  {
    hide Script, Interpret, ClkOk, InOk, SlotOk;
  }

  lemma {:induction false} AbsorbInFromWaits(e: Engine, k: nat, i: nat, v: ClkEvent, s: Slot)
    requires Inv(e) && k <= PIN_EVENTS && i < CLK_EVENTS && Counting(e, i, v, s)
    ensures Counting(AbsorbInFrom(e, k), i, v, s)
    decreases PIN_EVENTS - k
  {
    if k < PIN_EVENTS {
      AbsorbInKeeps(e, k);
      AbsorbInWaits(e, k, i, v, s);
      hide Inv, AbsorbIn, Counting;
      AbsorbInFromWaits(AbsorbIn(e, k), k + 1, i, v, s);
    }
  }

  // An input event belongs to another slot.
  lemma AbsorbInWaits(e: Engine, k: nat, i: nat, v: ClkEvent, s: Slot)
    requires Inv(e) && k < PIN_EVENTS && i < CLK_EVENTS && Counting(e, i, v, s)
    ensures Counting(AbsorbIn(e, k), i, v, s)
  {
    hide Script, Interpret, OneEventEach, SlotOk, Behind;
    assert ClkOk(e, i) && InOk(e, k);
    assert e.ins[k].status == PinActive ==> e.ins[k].ref != v.ref;
    hide Inv, ClkOk, InOk;
  }

  lemma FireWaits(e: Engine, j: nat, i: nat, v: ClkEvent, s: Slot)
    requires Inv(e) && j < SLOTS && (e.slots[j].status == Active ==> Fits(e, j))
    requires i < CLK_EVENTS && Counting(e, i, v, s)
    ensures Counting(FireActive(e, j), i, v, s)
  {
    hide Script, Interpret, SlotOk, InOk;
    assert ClkOk(e, i);
  }

  lemma {:induction false} FireFromWaits(e: Engine, j: nat, i: nat, v: ClkEvent, s: Slot)
    requires Inv(e) && j <= SLOTS && FireFits(e, j) && i < CLK_EVENTS && Counting(e, i, v, s)
    ensures Counting(FireFrom(e, j), i, v, s)
    decreases SLOTS - j
  {
    if j < SLOTS {
      FireKeeps(e, j);
      FireWaits(e, j, i, v, s);
      hide Inv, FireActive, Counting;
      FireFromWaits(FireActive(e, j), j + 1, i, v, s);
    }
  }

  // One pass of clk_pit_update ticks every entry once.
  lemma {:induction false} TickFromAt(e: Engine, k: nat, i: nat)
    requires Sized(e) && k <= CLK_EVENTS && i < CLK_EVENTS
    ensures TickFrom(e, k).clk[i] == if i < k then e.clk[i] else Tick(e, i).clk[i]
    decreases CLK_EVENTS - k
  {
    if k < CLK_EVENTS {
      TicksOnly(e, k);
      hide Tick;
      TickFromAt(Tick(e, k), k + 1, i);
      if k < i { TicksSame(e, Tick(e, k), i); }
    }
  }

  lemma TicksOnly(e: Engine, k: nat)
    requires Sized(e) && k < CLK_EVENTS
    ensures forall i :: 0 <= i < CLK_EVENTS && i != k ==> Tick(e, k).clk[i] == e.clk[i]
  {
  }

  lemma TicksSame(e: Engine, r: Engine, i: nat)
    requires Sized(e) && Sized(r) && i < CLK_EVENTS && r.clk[i] == e.clk[i]
    ensures Tick(r, i).clk[i] == Tick(e, i).clk[i]
  {
  }

  lemma StepWaits(e: Engine, op: Op, i: nat, v: ClkEvent, s: Slot)
    requires Inv(e) && CleanStep(e, op) && i < CLK_EVENTS && Counting(e, i, v, s)
    requires !op.DoTick? && !op.DoFlush?
    ensures Counting(Step(e, op), i, v, s)
  {
    assert ClkOk(e, i);
    match op
    case DoUpdate =>
      AbsorbClkFromKeeps(e, 0);
      AbsorbClkFromWaits(e, 0, i, v, s);
      AbsorbInFromKeeps(AbsorbClkFrom(e, 0), 0);
      AbsorbInFromWaits(AbsorbClkFrom(e, 0), 0, i, v, s);
      FireFromWaits(Absorbed(e), 0, i, v, s);
    case DoPins(seen) => LookFromSlots(Drain(e), 0, seen);
    case _ =>
  }

  function TickCount(ops: seq<Op>): nat {
    if ops == [] then 0 else (if ops[0].DoTick? then 1 else 0) + TickCount(ops[1..])
  }

  // The event after n clock passes.
  function After(v: ClkEvent, n: nat): ClkEvent
    requires n <= v.ticks
  {
    v.(ticks := v.ticks - n)
  }

  lemma TickCounts(e: Engine, op: Op, i: nat, v: ClkEvent, s: Slot)
    requires Inv(e) && CleanStep(e, op) && i < CLK_EVENTS && Counting(e, i, v, s)
    requires !op.DoFlush? && TickCount([op]) <= v.ticks
    ensures Counting(Step(e, op), i, After(v, TickCount([op])), s)
  {
    InvSized(e);
    hide Inv;
    assert TickCount([op]) == if op.DoTick? then 1 else 0 by { TickCountOne(op); }
    hide CleanStep;
    if op.DoTick? {
      TickCountsDown(e, i, v, s);
      hide TickFrom;
    } else {
      hide Step;
      StepWaits(e, op, i, v, s);
    }
  }

  lemma TickCountsDown(e: Engine, i: nat, v: ClkEvent, s: Slot)
    requires Sized(e) && i < CLK_EVENTS && Counting(e, i, v, s) && 1 <= v.ticks
    ensures Counting(TickFrom(e, 0), i, After(v, 1), s)
  {
    hide TickFrom;
    TickFromAt(e, 0, i);
    TickFromSlots(e, 0);
  }

  lemma TickCountOne(op: Op)
    ensures TickCount([op]) == if op.DoTick? then 1 else 0
  {
    assert [op][1..] == [];
  }

  /** Never early: however the tasks interleave, after at most as many clock passes as it has ticks, a delay
      has exactly the remaining ticks left and its slot has not moved. */
  lemma {:induction false} DelayNeverEarly(e: Engine, ops: seq<Op>, i: nat, v: ClkEvent, s: Slot)
    requires Inv(e) && CleanRun(e, ops) && i < CLK_EVENTS && Counting(e, i, v, s)
    requires DoFlush !in ops && TickCount(ops) <= v.ticks
    ensures Counting(Run(e, ops), i, After(v, TickCount(ops)), s)
    decreases |ops|
  {
    if ops != [] {
      StepKeeps(e, ops[0]);
      TickCounts(e, ops[0], i, v, s);
      hide Inv, Step, CleanStep, Counting;
      DelayNeverEarly(Step(e, ops[0]), ops[1..], i, After(v, TickCount([ops[0]])), s);
    } else {
      hide Inv;
    }
  }

  /** Never late: the clock pass after those expires it, and the next pass of the sequence task moves its
      slot past the delay. */
  lemma DelayExpires(e: Engine, ops: seq<Op>, i: nat, v: ClkEvent, s: Slot)
    requires Inv(e) && CleanRun(e, ops) && i < CLK_EVENTS && Counting(e, i, v, s)
    requires DoFlush !in ops && TickCount(ops) == v.ticks
    ensures var r := Step(Run(e, ops), DoTick);
      && r.clk[i].status == ClkDone && r.clk[i].ref == v.ref < SLOTS && r.slots[v.ref] == s
      && (CleanStep(r, DoUpdate) ==> Left(Update(r).slots[v.ref]) < Left(s))
  {
    DelayNeverEarly(e, ops, i, v, s);
    RunKeeps(e, ops);
    hide Run, CleanRun, Script, Interpret;
    Expires(Run(e, ops), i, After(v, v.ticks), s);
  }

  lemma Expires(e: Engine, i: nat, v: ClkEvent, s: Slot)
    requires Inv(e) && i < CLK_EVENTS && Counting(e, i, v, s) && v.ticks == 0
    ensures var r := Step(e, DoTick);
      && r.clk[i].status == ClkDone && r.clk[i].ref == v.ref < SLOTS && r.slots[v.ref] == s
      && (CleanStep(r, DoUpdate) ==> Left(Update(r).slots[v.ref]) < Left(s))
  {
    StepKeeps(e, DoTick);
    TickFromAt(e, 0, i);
    TickFromSlots(e, 0);
    var r := Step(e, DoTick);
    hide Inv, TickFrom, Left, Update;
    if CleanStep(r, DoUpdate) {
      assert ClkRipe(r, 0, v.ref);
      UpdateProgress(r, v.ref);
    }
  }

  /** What arming a delay token stores: the ticks TicksExact compares with the intended delay. */
  lemma FireArms(e: Engine, idx: nat, hms: nat)
    requires Inv(e) && idx < SLOTS && e.slots[idx].status == Active
    requires Current(e.slots[idx]) == Some(Wait(hms)) && Fits(e, idx)
    ensures var r, i := FireActive(e, idx), ClkSlot(e);
      r.clk[i] == ClkEvent(idx, Ticks(hms), ClkActive) && r.slots[idx].status == Pending && Inv(r)
  {
    FireKeeps(e, idx);
  }
}
