/** What the unhandled overruns of the event rings do to the sequence engine, and that being free of them is
    exactly what its invariant needs. */
module EngineOverrun {
  import opened Pattern
  import opened Engine
  import opened EngineProofs
  import opened EngineProgress
  import opened EngineOutputs
  import opened EnginePorts

  // Pending, with its event overwritten.
  ghost predicate Stranded(e: Engine, w: nat)
    requires Sized(e)
  {
    w < SLOTS && e.slots[w].status == Pending && !HasEvent(e, w)
  }

  lemma StrandedBreaksInv(e: Engine, w: nat)
    requires Sized(e) && Stranded(e, w)
    ensures !Inv(e)
  {
    hide HasEvent, ClkOk, InOk, OneEventEach;
    assert !SlotOk(e, w);
  }

  // ---------------------------------------------------------------- a stranded slot stays stranded

  lemma EntriesLeaveStranded(e: Engine, r: Engine, w: nat)
    requires Sized(e) && Sized(r) && Stranded(e, w) && r.slots[w] == e.slots[w]
    requires forall i :: 0 <= i < CLK_EVENTS && LiveClk(r.clk[i]) && r.clk[i].ref == w ==>
      LiveClk(e.clk[i]) && e.clk[i].ref == w
    requires forall i :: 0 <= i < PIN_EVENTS && LiveIn(r.ins[i]) && r.ins[i].ref == w ==>
      LiveIn(e.ins[i]) && e.ins[i].ref == w
    ensures Stranded(r, w)
  {
  }

  lemma FireLeavesStranded(e: Engine, j: nat, w: nat)
    requires Sized(e) && j < SLOTS && Stranded(e, w)
    ensures Stranded(FireActive(e, j), w) && FireActive(e, j).slots[w] == e.slots[w]
  {
    hide Script, HasEvent;
    EntriesLeaveStranded(e, FireActive(e, j), w);
  }

  lemma {:induction false} FireFromLeavesStranded(e: Engine, j: nat, w: nat)
    requires Sized(e) && j <= SLOTS && Stranded(e, w)
    ensures Stranded(FireFrom(e, j), w) && FireFrom(e, j).slots[w] == e.slots[w]
    decreases SLOTS - j
  {
    if j < SLOTS {
      FireLeavesStranded(e, j, w);
      hide FireActive, Stranded;
      FireFromLeavesStranded(FireActive(e, j), j + 1, w);
    }
  }

  lemma {:induction false} AbsorbClkFromLeavesStranded(e: Engine, i: nat, w: nat)
    requires Sized(e) && i <= CLK_EVENTS && Stranded(e, w)
    ensures Stranded(AbsorbClkFrom(e, i), w) && AbsorbClkFrom(e, i).slots[w] == e.slots[w]
    decreases CLK_EVENTS - i
  {
    if i < CLK_EVENTS {
      hide AbsorbClk, Stranded;
      AbsorbClkLeavesStranded(e, i, w);
      AbsorbClkFromLeavesStranded(AbsorbClk(e, i), i + 1, w);
    }
  }

  lemma AbsorbClkLeavesStranded(e: Engine, i: nat, w: nat)
    requires Sized(e) && i < CLK_EVENTS && Stranded(e, w)
    ensures Stranded(AbsorbClk(e, i), w) && AbsorbClk(e, i).slots[w] == e.slots[w]
  {
    assert e.clk[i].status == ClkDone ==> LiveClk(e.clk[i]) && e.clk[i].ref != w;
    hide HasEvent, Script;
    EntriesLeaveStranded(e, AbsorbClk(e, i), w);
  }

  lemma {:induction false} AbsorbInFromLeavesStranded(e: Engine, i: nat, w: nat)
    requires Sized(e) && i <= PIN_EVENTS && Stranded(e, w)
    ensures Stranded(AbsorbInFrom(e, i), w) && AbsorbInFrom(e, i).slots[w] == e.slots[w]
    decreases PIN_EVENTS - i
  {
    if i < PIN_EVENTS {
      hide AbsorbIn, Stranded;
      AbsorbInLeavesStranded(e, i, w);
      AbsorbInFromLeavesStranded(AbsorbIn(e, i), i + 1, w);
    }
  }

  lemma AbsorbInLeavesStranded(e: Engine, i: nat, w: nat)
    requires Sized(e) && i < PIN_EVENTS && Stranded(e, w)
    ensures Stranded(AbsorbIn(e, i), w) && AbsorbIn(e, i).slots[w] == e.slots[w]
  {
    assert e.ins[i].status == PinActive ==> LiveIn(e.ins[i]) && e.ins[i].ref != w;
    hide HasEvent, Script;
    EntriesLeaveStranded(e, AbsorbIn(e, i), w);
  }

  lemma {:induction false} TickFromLeavesStranded(e: Engine, i: nat, w: nat)
    requires Sized(e) && i <= CLK_EVENTS && Stranded(e, w)
    ensures Stranded(TickFrom(e, i), w) && TickFrom(e, i).slots[w] == e.slots[w]
    decreases CLK_EVENTS - i
  {
    if i < CLK_EVENTS {
      hide HasEvent;
      EntriesLeaveStranded(e, Tick(e, i), w);
      TickFromLeavesStranded(Tick(e, i), i + 1, w);
    }
  }

  lemma {:induction false} LookFromLeavesStranded(e: Engine, i: nat, seen: set<nat>, w: nat)
    requires Sized(e) && i <= PIN_EVENTS && Stranded(e, w)
    ensures Stranded(LookFrom(e, i, seen), w) && LookFrom(e, i, seen).slots[w] == e.slots[w]
    decreases PIN_EVENTS - i
  {
    if i < PIN_EVENTS {
      hide HasEvent;
      EntriesLeaveStranded(e, Look(e, i, i in seen), w);
      LookFromLeavesStranded(Look(e, i, i in seen), i + 1, seen, w);
    }
  }

  lemma StepLeavesStranded(e: Engine, op: Op, w: nat)
    requires Sized(e) && Stranded(e, w) && Undisturbed(e, [op], w)
    ensures Stranded(Step(e, op), w) && Step(e, op).slots[w] == e.slots[w]
  {
    hide HasEvent;
    match op
    case DoUpdate =>
      AbsorbClkFromLeavesStranded(e, 0, w);
      hide Stranded, AbsorbClkFrom, AbsorbInFrom, FireFrom;
      AbsorbInFromLeavesStranded(AbsorbClkFrom(e, 0), 0, w);
      FireFromLeavesStranded(Absorbed(e), 0, w);
    case DoTick => TickFromLeavesStranded(e, 0, w);
    case DoPins(seen) =>
      var m := Drain(e);
      EntriesLeaveStranded(e, m, w);
      hide Stranded, LookFrom;
      LookFromLeavesStranded(m, 0, seen, w);
    case DoPush(job) => EntriesLeaveStranded(e, Push(e, job), w);
    case DoNext => EntriesLeaveStranded(e, Next(e), w);
    case DoFlush =>
  }

  /** A sequence whose event was overwritten never moves again, in any run that does not flush or reuse its
      slot. */
  lemma {:induction false} StrandedForever(e: Engine, ops: seq<Op>, w: nat)
    requires Sized(e) && Stranded(e, w) && Undisturbed(e, ops, w)
    ensures Run(e, ops).slots[w] == e.slots[w] && Stranded(Run(e, ops), w)
    decreases |ops|
  {
    if ops != [] {
      StepLeavesStranded(e, ops[0], w);
      hide Step, Stranded;
      StrandedForever(Step(e, ops[0]), ops[1..], w);
    }
  }

  // ---------------------------------------------------------------- overruns strand

  // The live event a push by slot idx would overwrite belongs to slot w.
  ghost predicate Victim(e: Engine, idx: nat, w: nat)
    requires Sized(e) && idx < SLOTS
  {
    match Current(e.slots[idx])
    case Some(Wait(_)) => w == e.clk[ClkSlot(e)].ref
    case Some(Sense(_, _)) => w == e.ins[RingSlot(e.inIdx)].ref
    case _ => false
  }

  lemma OverrunStrands(e: Engine, idx: nat, w: nat)
    requires Inv(e) && idx < SLOTS && e.slots[idx].status == Active && !Fits(e, idx) && Victim(e, idx, w)
    ensures Stranded(FireActive(e, idx), w)
  {
    hide Script, Interpret, SlotOk;
    var r := FireActive(e, idx);
    match Current(e.slots[idx])
    case Some(Wait(_)) =>
      var c := ClkSlot(e);
      assert ClkOk(e, c);
      forall i | 0 <= i < PIN_EVENTS && LiveIn(r.ins[i]) ensures r.ins[i].ref != w { assert InOk(e, i); }
    case Some(Sense(_, _)) =>
      var c := RingSlot(e.inIdx);
      assert InOk(e, c);
      forall i | 0 <= i < CLK_EVENTS && LiveClk(r.clk[i]) ensures r.clk[i].ref != w { assert ClkOk(e, i); }
  }

  lemma {:induction false} FireFromStrands(e: Engine, j: nat) returns (w: nat)
    requires Inv(e) && j <= SLOTS && !FireFits(e, j)
    ensures Stranded(FireFrom(e, j), w)
    decreases SLOTS - j
  {
    var m := FireActive(e, j);
    if e.slots[j].status == Active && !Fits(e, j) {
      w := if Current(e.slots[j]).value.Wait? then e.clk[ClkSlot(e)].ref else e.ins[RingSlot(e.inIdx)].ref;
      OverrunStrands(e, j, w);
      FireFromLeavesStranded(m, j + 1, w);
    } else {
      FireKeeps(e, j);
      hide Inv, FireActive, Stranded;
      w := FireFromStrands(m, j + 1);
    }
  }

  lemma UncleanPushBreaks(e: Engine, job: Job)
    requires Inv(e) && !CleanStep(e, DoPush(job))
    ensures !Inv(Push(e, job))
  {
    hide Script, Interpret;
    var r, i := Push(e, job), PushSlot(e);
    assert SlotOk(e, i);
    if !WellFormed(job) {
      assert !SlotOk(r, i);
    } else if k :| 0 <= k < CLK_EVENTS && LiveClk(e.clk[k]) && e.clk[k].ref == i {
      assert !ClkOk(r, k);
    } else {
      var k :| 0 <= k < PIN_EVENTS && LiveIn(e.ins[k]) && e.ins[k].ref == i;
      assert !InOk(r, k);
    }
  }

  /** The invariant survives a step if and only if the step is clean; an unclean pass leaves some sequence
      pending with no event, which by StrandedForever is never carried out. */
  lemma KeepsExactlyWhenClean(e: Engine, op: Op)
    requires Inv(e)
    ensures Inv(Step(e, op)) <==> CleanStep(e, op)
    ensures op.DoUpdate? && !CleanStep(e, op) ==> exists w :: Stranded(Step(e, op), w)
  {
    if CleanStep(e, op) {
      StepKeeps(e, op);
    } else if op.DoUpdate? {
      AbsorbedKeeps(e);
      var w := FireFromStrands(Absorbed(e), 0);
      StrandedBreaksInv(Step(e, op), w);
    } else {
      UncleanPushBreaks(e, op.job);
    }
  }

  // ---------------------------------------------------------------- all three rings

  // Nothing is amiss on the clock ring, the input ring or, for any push, the output ring.
  ghost predicate Sound(e: Engine) {
    Inv(e) && Linked(Outputs(e)) && forall w :: InOrder(Outputs(e), w)
  }

  ghost predicate SoundStep(e: Engine, op: Op)
    requires Sized(e)
  {
    CleanStep(e, op) && forall w :: OrderlyStep(e, op, w)
  }

  lemma SoundExactlyWhen(e: Engine, op: Op)
    requires Sound(e)
    ensures Sound(Step(e, op)) <==> SoundStep(e, op)
  {
    InvSized(e);
    hide Inv, Linked, InOrder, CleanStep, OrderlyStep, Step;
    KeepsExactlyWhenClean(e, op);
    forall w ensures Linked(Outputs(Step(e, op))) && (InOrder(Outputs(Step(e, op)), w) <==> OrderlyStep(e, op, w)) {
      StepKeepsIff(e, op, w);
    }
    StepKeepsIff(e, op, 0);
  }

  // Sound before the run and after every step of it.
  ghost predicate SoundThroughout(e: Engine, ops: seq<Op>)
    requires Sized(e)
    decreases |ops|
  {
    Sound(e) && (ops == [] || SoundThroughout(Step(e, ops[0]), ops[1..]))
  }

  ghost predicate SoundRun(e: Engine, ops: seq<Op>)
    requires Sized(e)
    decreases |ops|
  {
    ops == [] || (SoundStep(e, ops[0]) && SoundRun(Step(e, ops[0]), ops[1..]))
  }

  lemma {:induction false} SoundThroughoutIffFrom(e: Engine, ops: seq<Op>)
    requires Sized(e) && Sound(e)
    ensures SoundThroughout(e, ops) <==> SoundRun(e, ops)
    decreases |ops|
  {
    hide Sound, SoundStep, Step;
    if ops != [] {
      SoundExactlyWhen(e, ops[0]);
      if Sound(Step(e, ops[0])) { SoundThroughoutIffFrom(Step(e, ops[0]), ops[1..]); }
    }
  }

  /** From the start, the sequences in every slot agree with the interpreter and every port with its script's order
      throughout a run if and only if none of the three rings is overrun, no pending slot is pushed over, no
      malformed pattern is pushed, and no push's outputs wait on both sides of the wrap or are flushed. */
  lemma SoundThroughoutIff(ops: seq<Op>)
    ensures SoundThroughout(Start(), ops) <==> SoundRun(Start(), ops)
  {
    StartInv();
    forall w ensures Linked(Outputs(Start())) && InOrder(Outputs(Start()), w) { StartInOrder(w); }
    hide Inv, Linked, InOrder, Start, SoundThroughout, SoundRun;
    StartInOrder(0);
    SoundThroughoutIffFrom(Start(), ops);
  }
}
