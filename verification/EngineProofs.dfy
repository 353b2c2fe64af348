/** What every run of the sequence engine keeps, and that it refines the plain interpreter. */
module EngineProofs {
  import opened Pattern
  import opened Engine

  // ---------------------------------------------------------------- the invariant

  predicate LiveClk(v: ClkEvent) {
    v.status != ClkInactive
  }

  predicate LiveIn(v: PinEvent) {
    v.status != PinInactive
  }

  // What slot idx has carried out when the first k actions are behind it.
  ghost predicate Behind(e: Engine, idx: nat, k: nat, extra: seq<Effect>)
    requires Sized(e) && idx < SLOTS
  {
    var script := Script(e.slots[idx].job);
    k <= |script| && e.trail[idx] == Interpret(script, k) + extra
  }

  // A live clock event belongs to a pending slot whose current action is that delay.
  ghost predicate ClkOk(e: Engine, i: nat)
    requires Sized(e) && i < CLK_EVENTS
  {
    var v := e.clk[i];
    LiveClk(v) ==>
      var s := e.slots[v.ref];
      && s.status == Pending
      && Current(s).Some? && Current(s).value.Wait?
      && var armed := [Armed(Current(s).value.hms)];
         Behind(e, v.ref, s.index, if v.status == ClkDone then armed + [Rang] else armed)
  }

  // A live input event belongs to a pending slot whose current action watches that port for that level.
  ghost predicate InOk(e: Engine, i: nat)
    requires Sized(e) && i < PIN_EVENTS
  {
    var v := e.ins[i];
    LiveIn(v) ==>
      var s := e.slots[v.ref];
      && s.status == Pending
      && Current(s) == Some(Sense(v.port, v.level))
      && var awaited := [Awaited(v.port, v.level)];
         Behind(e, v.ref, s.index, if v.status == PinActive then awaited + [Saw(v.port, v.level)] else awaited)
  }

  ghost predicate HasEvent(e: Engine, idx: nat)
    requires Sized(e)
  {
    || (exists i :: 0 <= i < CLK_EVENTS && LiveClk(e.clk[i]) && e.clk[i].ref == idx)
    || (exists i :: 0 <= i < PIN_EVENTS && LiveIn(e.ins[i]) && e.ins[i].ref == idx)
  }

  ghost predicate SlotOk(e: Engine, idx: nat)
    requires Sized(e) && idx < SLOTS
  {
    var s := e.slots[idx];
    match s.status
    case Inactive => true
    case Active => WellFormed(s.job) && Behind(e, idx, s.index, [])
    case Pending => WellFormed(s.job) && HasEvent(e, idx)
    case Done => WellFormed(s.job) && s.index == |Script(s.job)| && Behind(e, idx, s.index, [])
  }

  // No two live events carry the same slot number.
  ghost predicate OneEventEach(e: Engine)
    requires Sized(e)
  {
    && (forall i, j :: 0 <= i < j < CLK_EVENTS && LiveClk(e.clk[i]) && LiveClk(e.clk[j]) ==>
          e.clk[i].ref != e.clk[j].ref)
    && (forall i, j :: 0 <= i < j < PIN_EVENTS && LiveIn(e.ins[i]) && LiveIn(e.ins[j]) ==>
          e.ins[i].ref != e.ins[j].ref)
  }

  ghost predicate Inv(e: Engine) {
    && Sized(e)
    && (forall i :: 0 <= i < CLK_EVENTS ==> ClkOk(e, i))
    && (forall i :: 0 <= i < PIN_EVENTS ==> InOk(e, i))
    && OneEventEach(e)
    && (forall idx :: 0 <= idx < SLOTS ==> SlotOk(e, idx))
    && (e.cursor < SLOTS ==> e.slots[e.cursor].status == Inactive)
  }

  // ---------------------------------------------------------------- clean runs

  // The ring entry the current action of slot idx would take is free.
  predicate Fits(e: Engine, idx: nat)
    requires Sized(e) && idx < SLOTS
  {
    match Current(e.slots[idx])
    case Some(Wait(_)) => e.clk[ClkSlot(e)].status == ClkInactive
    case Some(Sense(_, _)) => e.ins[RingSlot(e.inIdx)].status == PinInactive
    case _ => true
  }

  predicate FireFits(e: Engine, idx: nat)
    requires Sized(e) && idx <= SLOTS
    decreases SLOTS - idx
  {
    idx == SLOTS ||
    ((e.slots[idx].status == Active ==> Fits(e, idx)) && FireFits(FireActive(e, idx), idx + 1))
  }

  // The step overruns nothing: neither a live ring entry nor, on a push, a slot waiting for its event.
  predicate CleanStep(e: Engine, op: Op)
    requires Sized(e)
  {
    match op
    case DoPush(job) => WellFormed(job) && e.slots[PushSlot(e)].status != Pending
    case DoUpdate => FireFits(Absorbed(e), 0)
    case _ => true
  }

  predicate CleanRun(e: Engine, ops: seq<Op>)
    requires Sized(e)
    decreases |ops|
  {
    ops == [] || (CleanStep(e, ops[0]) && CleanRun(Step(e, ops[0]), ops[1..]))
  }

  // ---------------------------------------------------------------- single entries keep it

  lemma KeepsEvent(e: Engine, r: Engine, idx: nat)
    requires Sized(e) && Sized(r) && HasEvent(e, idx)
    requires forall i :: 0 <= i < CLK_EVENTS && LiveClk(e.clk[i]) && e.clk[i].ref == idx ==>
      LiveClk(r.clk[i]) && r.clk[i].ref == idx
    requires forall i :: 0 <= i < PIN_EVENTS && LiveIn(e.ins[i]) && e.ins[i].ref == idx ==>
      LiveIn(r.ins[i]) && r.ins[i].ref == idx
    ensures HasEvent(r, idx)
  {
    if i :| 0 <= i < CLK_EVENTS && LiveClk(e.clk[i]) && e.clk[i].ref == idx {
      assert LiveClk(r.clk[i]);
    } else {
      var i :| 0 <= i < PIN_EVENTS && LiveIn(e.ins[i]) && e.ins[i].ref == idx;
      assert LiveIn(r.ins[i]);
    }
  }

  lemma TickRings(e: Engine, i: nat)
    requires Inv(e) && i < CLK_EVENTS && e.clk[i].status == ClkActive
    ensures forall j :: 0 <= j < CLK_EVENTS ==> ClkOk(Tick(e, i), j)
    ensures forall j :: 0 <= j < PIN_EVENTS ==> InOk(Tick(e, i), j)
  {
    hide Script, Interpret, HasEvent, SlotOk;
    var r := Tick(e, i);
    assert ClkOk(e, i);
    forall j | 0 <= j < CLK_EVENTS ensures ClkOk(r, j) { assert ClkOk(e, j); }
    forall j | 0 <= j < PIN_EVENTS ensures InOk(r, j) { assert InOk(e, j); }
  }

  lemma TickKeeps(e: Engine, i: nat)
    requires Inv(e) && i < CLK_EVENTS
    ensures Inv(Tick(e, i))
  {
    hide Script, Interpret, HasEvent;
    var r := Tick(e, i);
    if e.clk[i].status == ClkActive {
      TickRings(e, i);
      assert ClkOk(e, i);
      hide InOk;
      forall idx | 0 <= idx < SLOTS ensures SlotOk(r, idx) {
        assert SlotOk(e, idx);
        if r.slots[idx].status == Pending { KeepsEvent(e, r, idx); }
      }
    }
  }

  lemma LookKeeps(e: Engine, i: nat, seen: bool)
    requires Inv(e) && i < PIN_EVENTS
    ensures Inv(Look(e, i, seen))
  {
    hide Script, Interpret, HasEvent;
    var r := Look(e, i, seen);
    if e.ins[i].status == PinPending && seen {
      assert InOk(e, i);
      forall j | 0 <= j < CLK_EVENTS ensures ClkOk(r, j) { assert ClkOk(e, j); }
      forall j | 0 <= j < PIN_EVENTS ensures InOk(r, j) { assert InOk(e, j); }
      forall idx | 0 <= idx < SLOTS ensures SlotOk(r, idx) {
        assert SlotOk(e, idx);
        if r.slots[idx].status == Pending { KeepsEvent(e, r, idx); }
      }
    }
  }

  // Carrying out one more action.
  lemma InterpretNext(script: seq<Action>, k: nat)
    requires k < |script|
    ensures Interpret(script, k + 1) == Interpret(script, k) + Carry(script[k])
  {
  }

  /** No stale event: an expired clock event always finds its slot waiting on a delay, and moves it on. */
  lemma AbsorbClkKeeps(e: Engine, i: nat)
    requires Inv(e) && i < CLK_EVENTS
    ensures Inv(AbsorbClk(e, i))
    ensures e.clk[i].status == ClkDone ==>
      var idx := e.clk[i].ref; var s := e.slots[idx];
      && s.status == Pending && Current(s).Some? && Current(s).value.Wait?
      && AbsorbClk(e, i).slots == e.slots[idx := s.(index := s.index + 1, status := Active)]
  {
    hide Script, Interpret, HasEvent;
    var r := AbsorbClk(e, i);
    if e.clk[i].status == ClkDone {
      assert ClkOk(e, i);
      var idx := e.clk[i].ref;
      var s := e.slots[idx];
      InterpretNext(Script(s.job), s.index);
      assert SlotOk(e, idx);
      assert SlotOk(r, idx);
      forall j | 0 <= j < CLK_EVENTS ensures ClkOk(r, j) { assert ClkOk(e, j); }
      forall j | 0 <= j < PIN_EVENTS ensures InOk(r, j) { assert InOk(e, j); }
      forall k | 0 <= k < SLOTS ensures SlotOk(r, k) {
        assert SlotOk(e, k);
        if k != idx && r.slots[k].status == Pending { KeepsEvent(e, r, k); }
      }
    }
  }

  /** No stale event, and the acceptance test of pin_seq_signal, which joins port and level with "or",
      is never the weaker for it: whenever an input event is delivered both agree with the token. */
  lemma AbsorbInKeeps(e: Engine, i: nat)
    requires Inv(e) && i < PIN_EVENTS
    ensures Inv(AbsorbIn(e, i))
    ensures e.ins[i].status == PinActive ==>
      var idx := e.ins[i].ref; var s := e.slots[idx];
      && s.status == Pending && Current(s) == Some(Sense(e.ins[i].port, e.ins[i].level))
      && AbsorbIn(e, i).slots == e.slots[idx := s.(index := s.index + 1, status := Active)]
  {
    hide Script, Interpret, HasEvent;
    var r := AbsorbIn(e, i);
    if e.ins[i].status == PinActive {
      assert InOk(e, i);
      var idx := e.ins[i].ref;
      var s := e.slots[idx];
      InterpretNext(Script(s.job), s.index);
      assert SlotOk(e, idx);
      assert SlotOk(r, idx);
      forall j | 0 <= j < CLK_EVENTS ensures ClkOk(r, j) { assert ClkOk(e, j); }
      forall j | 0 <= j < PIN_EVENTS ensures InOk(r, j) { assert InOk(e, j); }
      forall k | 0 <= k < SLOTS ensures SlotOk(r, k) {
        assert SlotOk(e, k);
        if k != idx && r.slots[k].status == Pending { KeepsEvent(e, r, k); }
      }
    }
  }

  // A step on the active slot idx that fills at most free ring entries leaves the others in order.
  lemma OthersKeep(e: Engine, r: Engine, idx: nat)
    requires Inv(e) && Sized(r) && idx < SLOTS && e.slots[idx].status == Active
    requires r.slots == e.slots[idx := r.slots[idx]] && r.trail == e.trail[idx := r.trail[idx]]
    requires forall i :: 0 <= i < CLK_EVENTS ==> r.clk[i] == e.clk[i] || !LiveClk(e.clk[i])
    requires forall i :: 0 <= i < PIN_EVENTS ==> r.ins[i] == e.ins[i] || !LiveIn(e.ins[i])
    ensures forall i :: 0 <= i < CLK_EVENTS && r.clk[i] == e.clk[i] ==>
      ClkOk(r, i) && (LiveClk(e.clk[i]) ==> e.clk[i].ref != idx)
    ensures forall i :: 0 <= i < PIN_EVENTS && r.ins[i] == e.ins[i] ==>
      InOk(r, i) && (LiveIn(e.ins[i]) ==> e.ins[i].ref != idx)
    ensures forall k :: 0 <= k < SLOTS && k != idx ==> SlotOk(r, k)
  {
    hide Script, Interpret, HasEvent;
    forall i | 0 <= i < CLK_EVENTS && r.clk[i] == e.clk[i]
      ensures ClkOk(r, i) && (LiveClk(e.clk[i]) ==> e.clk[i].ref != idx)
    {
      assert ClkOk(e, i);
    }
    forall i | 0 <= i < PIN_EVENTS && r.ins[i] == e.ins[i]
      ensures InOk(r, i) && (LiveIn(e.ins[i]) ==> e.ins[i].ref != idx)
    {
      assert InOk(e, i);
    }
    forall k | 0 <= k < SLOTS && k != idx ensures SlotOk(r, k) {
      assert SlotOk(e, k);
      if r.slots[k].status == Pending { KeepsEvent(e, r, k); }
    }
  }

  lemma FireKeeps(e: Engine, idx: nat)
    requires Inv(e) && idx < SLOTS && (e.slots[idx].status == Active ==> Fits(e, idx))
    ensures Inv(FireActive(e, idx))
  {
    hide Inv, Fire, Fits, Current;
    InvSized(e);
    if e.slots[idx].status == Active {
      match Current(e.slots[idx])
      case Some(Wait(hms)) => FireWaitKeeps(e, idx, hms);
      case Some(Sense(port, level)) => FireSenseKeeps(e, idx, port, level);
      case _ => FireOtherKeeps(e, idx);
    }
  }

  lemma InvSized(e: Engine)
    requires Inv(e)
    ensures Sized(e)
  {
  }

  lemma FireWaitKeeps(e: Engine, idx: nat, hms: nat)
    requires Inv(e) && idx < SLOTS && e.slots[idx].status == Active
    requires Current(e.slots[idx]) == Some(Wait(hms)) && Fits(e, idx)
    ensures Inv(Fire(e, idx))
  {
    hide Script, Interpret, HasEvent;
    var r := Fire(e, idx);
    assert SlotOk(e, idx);
    FireSlotOk(e, idx);
    OthersKeep(e, r, idx);
    hide SlotOk, InOk;
    assert ClkOk(r, ClkSlot(e));
  }

  lemma FireSenseKeeps(e: Engine, idx: nat, port: nat, level: nat)
    requires Inv(e) && idx < SLOTS && e.slots[idx].status == Active
    requires Current(e.slots[idx]) == Some(Sense(port, level)) && Fits(e, idx)
    ensures Inv(Fire(e, idx))
  {
    hide Script, Interpret, HasEvent;
    var r := Fire(e, idx);
    assert SlotOk(e, idx);
    FireSlotOk(e, idx);
    OthersKeep(e, r, idx);
    hide SlotOk, ClkOk;
    assert InOk(r, RingSlot(e.inIdx));
  }

  // Finishing and queueing an output touch neither of the two rings.
  lemma FireOtherKeeps(e: Engine, idx: nat)
    requires Inv(e) && idx < SLOTS && e.slots[idx].status == Active
    requires match Current(e.slots[idx]) case Some(a) => !a.Wait? && !a.Sense? case None => true
    ensures Inv(Fire(e, idx))
  {
    hide Script, Interpret, HasEvent;
    var r := Fire(e, idx);
    FireSlotOk(e, idx);
    OthersKeep(e, r, idx);
    hide SlotOk, ClkOk, InOk;
  }

  lemma FireSlotOk(e: Engine, idx: nat)
    requires Inv(e) && idx < SLOTS && e.slots[idx].status == Active
    ensures SlotOk(Fire(e, idx), idx)
  {
    hide Script, Interpret;
    var r, s := Fire(e, idx), e.slots[idx];
    assert SlotOk(e, idx);
    match Current(s)
    case Some(Wait(_)) => assert LiveClk(r.clk[ClkSlot(e)]) && r.clk[ClkSlot(e)].ref == idx;
    case Some(Sense(_, _)) => assert LiveIn(r.ins[RingSlot(e.inIdx)]) && r.ins[RingSlot(e.inIdx)].ref == idx;
    case Some(Drive(_, _)) => InterpretNext(Script(s.job), s.index);
    case _ =>
  }

  lemma PushKeeps(e: Engine, job: Job)
    requires Inv(e) && CleanStep(e, DoPush(job))
    ensures Inv(Push(e, job))
  {
    hide Script, HasEvent;
    var r, i := Push(e, job), PushSlot(e);
    assert SlotOk(r, i);
    forall j | 0 <= j < CLK_EVENTS ensures ClkOk(r, j) { assert ClkOk(e, j); }
    forall j | 0 <= j < PIN_EVENTS ensures InOk(r, j) { assert InOk(e, j); }
    forall k | 0 <= k < SLOTS ensures SlotOk(r, k) {
      assert SlotOk(e, k);
      if k != i && r.slots[k].status == Pending { KeepsEvent(e, r, k); }
    }
  }

  lemma NextKeeps(e: Engine)
    requires Inv(e)
    ensures Inv(Next(e))
  {
    hide Script, Interpret, HasEvent;
    var r, i := Next(e), FirstDone(e.slots, 0);
    if i < SLOTS {
      forall j | 0 <= j < CLK_EVENTS ensures ClkOk(r, j) { assert ClkOk(e, j); }
      forall j | 0 <= j < PIN_EVENTS ensures InOk(r, j) { assert InOk(e, j); }
      forall k | 0 <= k < SLOTS ensures SlotOk(r, k) {
        assert SlotOk(e, k);
        if r.slots[k].status == Pending { KeepsEvent(e, r, k); }
      }
    }
  }

  // Nothing here depends on the output ring or its history.
  lemma OutputsKeep(e: Engine, r: Engine)
    requires Inv(e) && Sized(r) && r == e.(outs := r.outs, past := r.past)
    ensures Inv(r)
  {
    hide Script, Interpret, HasEvent;
    forall j | 0 <= j < CLK_EVENTS ensures ClkOk(r, j) { assert ClkOk(e, j); }
    forall j | 0 <= j < PIN_EVENTS ensures InOk(r, j) { assert InOk(e, j); }
    forall k | 0 <= k < SLOTS ensures SlotOk(r, k) {
      assert SlotOk(e, k);
      if r.slots[k].status == Pending { KeepsEvent(e, r, k); }
    }
  }

  // ---------------------------------------------------------------- so do whole passes, and runs

  lemma {:induction false} TickFromKeeps(e: Engine, i: nat)
    requires Inv(e) && i <= CLK_EVENTS
    ensures Inv(TickFrom(e, i))
    decreases CLK_EVENTS - i
  {
    if i < CLK_EVENTS {
      TickKeeps(e, i);
      hide Inv, Tick;
      TickFromKeeps(Tick(e, i), i + 1);
    }
  }

  lemma {:induction false} LookFromKeeps(e: Engine, i: nat, seen: set<nat>)
    requires Inv(e) && i <= PIN_EVENTS
    ensures Inv(LookFrom(e, i, seen))
    decreases PIN_EVENTS - i
  {
    if i < PIN_EVENTS {
      LookKeeps(e, i, i in seen);
      hide Inv, Look;
      LookFromKeeps(Look(e, i, i in seen), i + 1, seen);
    }
  }

  lemma {:induction false} AbsorbClkFromKeeps(e: Engine, i: nat)
    requires Inv(e) && i <= CLK_EVENTS
    ensures Inv(AbsorbClkFrom(e, i))
    decreases CLK_EVENTS - i
  {
    if i < CLK_EVENTS {
      AbsorbClkKeeps(e, i);
      hide Inv, AbsorbClk;
      AbsorbClkFromKeeps(AbsorbClk(e, i), i + 1);
    }
  }

  lemma {:induction false} AbsorbInFromKeeps(e: Engine, i: nat)
    requires Inv(e) && i <= PIN_EVENTS
    ensures Inv(AbsorbInFrom(e, i))
    decreases PIN_EVENTS - i
  {
    if i < PIN_EVENTS {
      AbsorbInKeeps(e, i);
      hide Inv, AbsorbIn;
      AbsorbInFromKeeps(AbsorbIn(e, i), i + 1);
    }
  }

  lemma {:induction false} FireFromKeeps(e: Engine, idx: nat)
    requires Inv(e) && idx <= SLOTS && FireFits(e, idx)
    ensures Inv(FireFrom(e, idx))
    decreases SLOTS - idx
  {
    if idx < SLOTS {
      FireKeeps(e, idx);
      hide Inv, FireActive;
      FireFromKeeps(FireActive(e, idx), idx + 1);
    }
  }

  lemma AbsorbedKeeps(e: Engine)
    requires Inv(e)
    ensures Inv(Absorbed(e))
  {
    AbsorbClkFromKeeps(e, 0);
    hide Inv, AbsorbClkFrom;
    AbsorbInFromKeeps(AbsorbClkFrom(e, 0), 0);
  }

  lemma StepKeeps(e: Engine, op: Op)
    requires Inv(e) && CleanStep(e, op)
    ensures Inv(Step(e, op))
  {
    match op
    case DoPush(job) => PushKeeps(e, job);
    case DoNext => NextKeeps(e);
    case DoUpdate =>
      AbsorbedKeeps(e);
      FireFromKeeps(Absorbed(e), 0);
    case DoTick => TickFromKeeps(e, 0);
    case DoPins(seen) =>
      OutputsKeep(e, Drain(e));
      LookFromKeeps(Drain(e), 0, seen);
    case DoFlush =>
  }

  /** The invariant holds in every state of every clean run. */
  lemma {:induction false} RunKeeps(e: Engine, ops: seq<Op>)
    requires Inv(e) && CleanRun(e, ops)
    ensures Inv(Run(e, ops))
    decreases |ops|
  {
    if ops != [] {
      StepKeeps(e, ops[0]);
      hide Inv, Step, CleanStep;
      RunKeeps(Step(e, ops[0]), ops[1..]);
    }
  }

  lemma StartInv()
    ensures Inv(Start())
  {
  }

  // ---------------------------------------------------------------- refinement

  lemma {:induction false} InterpretPrefix(script: seq<Action>, k: nat, n: nat)
    requires k <= n <= |script|
    ensures Interpret(script, k) <= Interpret(script, n)
    decreases n - k
  {
    if k < n { InterpretPrefix(script, k, n - 1); }
  }

  /** Inv holds in every state a clean run can reach. */
  lemma ReachableInv(ops: seq<Op>)
    requires CleanRun(Start(), ops)
    ensures Inv(Run(Start(), ops))
  {
    StartInv();
    hide Start;
    RunKeeps(Start(), ops);
  }

  // What slot idx has carried out is an initial part of what the plain interpreter does with its script:
  // all of the first `index` actions and at most a start of the next; when it is done, exactly the whole.
  ghost predicate Refines(e: Engine, idx: nat)
    requires Sized(e) && idx < SLOTS
  {
    var s := e.slots[idx];
    var script := Script(s.job);
    s.status != Inactive ==>
      && s.index <= |script|
      && Interpret(script, s.index) <= e.trail[idx] <= Interpret(script, |script|)
      && (s.index < |script| ==> e.trail[idx] < Interpret(script, s.index + 1))
      && (s.status == Done ==> e.trail[idx] == Interpret(script, |script|))
  }

  /** Refinement: in every clean run, whatever the interleaving, every slot refines the one-sequence
      interpreter; in particular the sequence pin_seq_next reports has been carried out completely. */
  lemma EngineRefinesInterpreter(ops: seq<Op>, idx: nat)
    requires CleanRun(Start(), ops) && idx < SLOTS
    ensures Refines(Run(Start(), ops), idx)
  {
    ReachableInv(ops);
    hide *;
    InvRefines(Run(Start(), ops), idx);
  }

  // The slot has carried out its first index actions, and a proper start of the next.
  ghost predicate AtAction(e: Engine, idx: nat, extra: seq<Effect>)
    requires Sized(e) && idx < SLOTS
  {
    var s := e.slots[idx];
    && Behind(e, idx, s.index, extra)
    && (if s.index < |Script(s.job)| then extra < Carry(Script(s.job)[s.index]) else extra == [])
    && (s.status == Done ==> s.index == |Script(s.job)|)
  }

  lemma InvAtAction(e: Engine, idx: nat) returns (extra: seq<Effect>)
    requires Inv(e) && idx < SLOTS && e.slots[idx].status != Inactive
    ensures Sized(e) && AtAction(e, idx, extra)
  {
    hide Script, Interpret, OneEventEach;
    assert SlotOk(e, idx);
    extra := [];
    if e.slots[idx].status == Pending {
      if i :| 0 <= i < CLK_EVENTS && LiveClk(e.clk[i]) && e.clk[i].ref == idx {
        assert ClkOk(e, i);
        var armed := [Armed(Current(e.slots[idx]).value.hms)];
        extra := if e.clk[i].status == ClkDone then armed + [Rang] else armed;
      } else {
        var i :| 0 <= i < PIN_EVENTS && LiveIn(e.ins[i]) && e.ins[i].ref == idx;
        assert InOk(e, i);
        var awaited := [Awaited(e.ins[i].port, e.ins[i].level)];
        extra := if e.ins[i].status == PinActive then awaited + [Saw(e.ins[i].port, e.ins[i].level)] else awaited;
      }
    } else if e.slots[idx].index < |Script(e.slots[idx].job)| {
      assert [] < Carry(Script(e.slots[idx].job)[e.slots[idx].index]) by { assert WellFormed(e.slots[idx].job); }
    }
  }

  lemma Between(a: seq<Effect>, x: seq<Effect>, c: seq<Effect>, whole: seq<Effect>)
    requires x < c && a + c <= whole
    ensures a <= a + x < a + c && a + x <= whole
  {
  }

  lemma InvRefines(e: Engine, idx: nat)
    requires Inv(e) && idx < SLOTS
    ensures Refines(e, idx)
  {
    InvSized(e);
    hide Inv, AtAction;
    if e.slots[idx].status != Inactive {
      var extra := InvAtAction(e, idx);
      hide Refines;
      ActionRefines(e, idx, extra);
    }
  }

  lemma ActionRefines(e: Engine, idx: nat, extra: seq<Effect>)
    requires Sized(e) && idx < SLOTS && AtAction(e, idx, extra)
    ensures Refines(e, idx)
  {
    hide Script, Interpret, Carry;
    var s := e.slots[idx];
    var script := Script(s.job);
    if s.index < |script| {
      InterpretNext(script, s.index);
      InterpretPrefix(script, s.index + 1, |script|);
      Between(Interpret(script, s.index), extra, Carry(script[s.index]), Interpret(script, |script|));
    } else {
      assert e.trail[idx] == Interpret(script, |script|);
    }
  }

  ghost function ClkEventsOf(e: Engine, idx: nat): set<nat>
    requires Sized(e)
  {
    set i: nat | i < CLK_EVENTS && LiveClk(e.clk[i]) && e.clk[i].ref == idx
  }

  ghost function InEventsOf(e: Engine, idx: nat): set<nat>
    requires Sized(e)
  {
    set i: nat | i < PIN_EVENTS && LiveIn(e.ins[i]) && e.ins[i].ref == idx
  }

  // A slot that waits has one event, in the ring its current action calls for and with that action's port and
  // level; any other slot has none.
  ghost predicate OneEvent(e: Engine, idx: nat)
    requires Sized(e) && idx < SLOTS
  {
    if e.slots[idx].status != Pending then ClkEventsOf(e, idx) == {} && InEventsOf(e, idx) == {}
    else match Current(e.slots[idx])
      case Some(Wait(_)) => |ClkEventsOf(e, idx)| == 1 && InEventsOf(e, idx) == {}
      case Some(Sense(p, l)) => ClkEventsOf(e, idx) == {} && |InEventsOf(e, idx)| == 1
        && forall i :: i in InEventsOf(e, idx) ==> e.ins[i].port == p && e.ins[i].level == l
      case _ => false
  }

  /** In every clean run a slot is pending exactly when a live event carries its number; then it is the only
      one, in the ring its current action calls for, and with that action's port and level. */
  lemma PendingHasOneEvent(ops: seq<Op>, idx: nat)
    requires CleanRun(Start(), ops) && idx < SLOTS
    ensures OneEvent(Run(Start(), ops), idx)
  {
    hide *;
    ReachableInv(ops);
    EventsOf(Run(Start(), ops), idx);
    InvOneEvent(Run(Start(), ops), idx);
  }

  // Every event of a slot is the one its state calls for.
  lemma EventsOf(e: Engine, idx: nat)
    requires Inv(e) && idx < SLOTS
    ensures forall i :: i in ClkEventsOf(e, idx) ==>
      e.slots[idx].status == Pending && Current(e.slots[idx]).Some? && Current(e.slots[idx]).value.Wait?
    ensures forall i :: i in InEventsOf(e, idx) ==>
      e.slots[idx].status == Pending && Current(e.slots[idx]) == Some(Sense(e.ins[i].port, e.ins[i].level))
  {
    hide Script, Interpret, SlotOk, OneEventEach;
    forall i | i in ClkEventsOf(e, idx)
      ensures e.slots[idx].status == Pending && Current(e.slots[idx]).Some? && Current(e.slots[idx]).value.Wait?
    {
      assert ClkOk(e, i);
    }
    forall i | i in InEventsOf(e, idx)
      ensures e.slots[idx].status == Pending && Current(e.slots[idx]) == Some(Sense(e.ins[i].port, e.ins[i].level))
    {
      assert InOk(e, i);
    }
  }

  lemma PendingMeans(e: Engine, idx: nat)
    requires Inv(e) && idx < SLOTS && e.slots[idx].status == Pending
    ensures HasEvent(e, idx) && OneEventEach(e)
  {
    hide ClkOk, InOk, HasEvent, OneEventEach;
    assert SlotOk(e, idx);
  }

  lemma InvOneEvent(e: Engine, idx: nat)
    requires Inv(e) && idx < SLOTS
    ensures OneEvent(e, idx)
  {
    hide Inv, Script, Current;
    InvSized(e);
    EventsOf(e, idx);
    if e.slots[idx].status == Pending {
      PendingMeans(e, idx);
      if i :| 0 <= i < CLK_EVENTS && LiveClk(e.clk[i]) && e.clk[i].ref == idx {
        assert i in ClkEventsOf(e, idx);
        assert ClkEventsOf(e, idx) == {i};
      } else {
        var i :| 0 <= i < PIN_EVENTS && LiveIn(e.ins[i]) && e.ins[i].ref == idx;
        assert i in InEventsOf(e, idx);
        assert InEventsOf(e, idx) == {i};
      }
    }
  }
}
