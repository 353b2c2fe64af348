/** What the input ring is for: a sequence that watches a port stays where it is while the level is not seen there,
    and moves on once it has been. */
module EngineInputs {
  import opened Pattern
  import opened Engine
  import opened EngineProofs
  import opened EngineProgress

  // ---------------------------------------------------------------- one pass over the ring

  lemma {:induction false} LookFromAt(e: Engine, k: nat, i: nat, seen: set<nat>)
    requires Sized(e) && k <= PIN_EVENTS && i < PIN_EVENTS
    ensures var r := LookFrom(e, k, seen);
      r.ins[i] == (if k <= i && e.ins[i].status == PinPending && i in seen
                   then e.ins[i].(status := PinActive) else e.ins[i])
      && r.inIdx == e.inIdx && r.outs == e.outs
    decreases PIN_EVENTS - k
  {
    if k < PIN_EVENTS { LookFromAt(Look(e, k, k in seen), k + 1, i, seen); }
  }

  /** After a pass an input event is active exactly if it was, or was pending and its level was seen; the pass
      changes nothing else of the event, no slot, and no delay. */
  lemma PassAt(e: Engine, seen: set<nat>, i: nat)
    requires Sized(e) && i < PIN_EVENTS
    ensures var r := PinUpdate(e, seen);
      && r.ins[i] == PinEvent(e.ins[i].ref, e.ins[i].port, e.ins[i].level, r.ins[i].status)
      && (r.ins[i].status == PinActive <==>
            e.ins[i].status == PinActive || (e.ins[i].status == PinPending && i in seen))
      && (r.ins[i].status == PinInactive <==> e.ins[i].status == PinInactive)
      && r.slots == e.slots && r.clk == e.clk && r.inIdx == e.inIdx
  {
    LookFromAt(Drain(e), 0, i, seen);
    LookFromSlots(Drain(e), 0, seen);
  }

  // ---------------------------------------------------------------- waiting for a level

  // Entry i is the live event v, and its slot is s.
  ghost predicate Watching(e: Engine, i: nat, v: PinEvent, s: Slot)
    requires Sized(e) && i < PIN_EVENTS
  {
    e.ins[i] == v && LiveIn(v) && e.slots[v.ref] == s
  }

  // Nothing that concerns event v in entry i: no pass that sees its level while it is pending, no pass of the
  // sequence task once it is active, and no flush.
  predicate Idles(op: Op, i: nat, v: PinEvent) {
    match op
    case DoFlush => false
    case DoPins(seen) => v.status == PinPending ==> i !in seen
    case DoUpdate => v.status == PinPending
    case _ => true
  }

  predicate AllIdle(ops: seq<Op>, i: nat, v: PinEvent) {
    forall k :: 0 <= k < |ops| ==> Idles(ops[k], i, v)
  }

  // A clock event belongs to another slot.
  lemma AbsorbClkWatches(e: Engine, k: nat, i: nat, v: PinEvent, s: Slot)
    requires Inv(e) && k < CLK_EVENTS && i < PIN_EVENTS && Watching(e, i, v, s)
    ensures Watching(AbsorbClk(e, k), i, v, s)
  {
    hide Script, Interpret, OneEventEach, SlotOk, Behind;
    assert ClkOk(e, k) && InOk(e, i);
    assert e.clk[k].status == ClkDone ==> e.clk[k].ref != v.ref;
    hide Inv, ClkOk, InOk;
  }

  lemma {:induction false} AbsorbClkFromWatches(e: Engine, k: nat, i: nat, v: PinEvent, s: Slot)
    requires Inv(e) && k <= CLK_EVENTS && i < PIN_EVENTS && Watching(e, i, v, s)
    ensures Watching(AbsorbClkFrom(e, k), i, v, s)
    decreases CLK_EVENTS - k
  {
    if k < CLK_EVENTS {
      AbsorbClkKeeps(e, k);
      AbsorbClkWatches(e, k, i, v, s);
      hide Inv, AbsorbClk, Watching;
      AbsorbClkFromWatches(AbsorbClk(e, k), k + 1, i, v, s);
    }
  }

  // Another input event belongs to another slot.
  lemma AbsorbInWatches(e: Engine, k: nat, i: nat, v: PinEvent, s: Slot)
    requires Inv(e) && k < PIN_EVENTS && i < PIN_EVENTS && Watching(e, i, v, s) && v.status == PinPending
    ensures Watching(AbsorbIn(e, k), i, v, s)
  {
    hide Script, Interpret, ClkOk, InOk, SlotOk;
  }

  lemma {:induction false} AbsorbInFromWatches(e: Engine, k: nat, i: nat, v: PinEvent, s: Slot)
    requires Inv(e) && k <= PIN_EVENTS && i < PIN_EVENTS && Watching(e, i, v, s) && v.status == PinPending
    ensures Watching(AbsorbInFrom(e, k), i, v, s)
    decreases PIN_EVENTS - k
  {
    if k < PIN_EVENTS {
      AbsorbInKeeps(e, k);
      AbsorbInWatches(e, k, i, v, s);
      hide Inv, AbsorbIn, Watching;
      AbsorbInFromWatches(AbsorbIn(e, k), k + 1, i, v, s);
    }
  }

  lemma FireWatches(e: Engine, j: nat, i: nat, v: PinEvent, s: Slot)
    requires Inv(e) && j < SLOTS && (e.slots[j].status == Active ==> Fits(e, j))
    requires i < PIN_EVENTS && Watching(e, i, v, s)
    ensures Watching(FireActive(e, j), i, v, s)
  {
    hide Script, Interpret, SlotOk, ClkOk;
    assert InOk(e, i);
  }

  lemma {:induction false} FireFromWatches(e: Engine, j: nat, i: nat, v: PinEvent, s: Slot)
    requires Inv(e) && j <= SLOTS && FireFits(e, j) && i < PIN_EVENTS && Watching(e, i, v, s)
    ensures Watching(FireFrom(e, j), i, v, s)
    decreases SLOTS - j
  {
    if j < SLOTS {
      FireKeeps(e, j);
      FireWatches(e, j, i, v, s);
      hide Inv, FireActive, Watching;
      FireFromWatches(FireActive(e, j), j + 1, i, v, s);
    }
  }

  lemma UpdateWatches(e: Engine, i: nat, v: PinEvent, s: Slot)
    requires Inv(e) && CleanStep(e, DoUpdate) && i < PIN_EVENTS && Watching(e, i, v, s) && v.status == PinPending
    ensures Watching(Update(e), i, v, s)
  {
    hide Inv, Watching, FireFrom, FireFits, AbsorbClkFrom, AbsorbInFrom;
    InvSized(e);
    var m := AbsorbClkFrom(e, 0);
    AbsorbClkFromKeeps(e, 0);
    AbsorbClkFromWatches(e, 0, i, v, s);
    AbsorbInFromKeeps(m, 0);
    AbsorbInFromWatches(m, 0, i, v, s);
    FireFromWatches(Absorbed(e), 0, i, v, s);
  }

  lemma TickWatches(e: Engine, i: nat, v: PinEvent, s: Slot)
    requires Sized(e) && i < PIN_EVENTS && Watching(e, i, v, s)
    ensures Watching(TickFrom(e, 0), i, v, s)
  {
    TickFromSlots(e, 0);
    TickFromIns(e, 0);
    hide TickFrom;
  }

  lemma {:induction false} TickFromIns(e: Engine, i: nat)
    requires Sized(e) && i <= CLK_EVENTS
    ensures TickFrom(e, i).ins == e.ins
    decreases CLK_EVENTS - i
  {
    if i < CLK_EVENTS { TickFromIns(Tick(e, i), i + 1); }
  }

  lemma StepWatches(e: Engine, op: Op, i: nat, v: PinEvent, s: Slot)
    requires Inv(e) && CleanStep(e, op) && i < PIN_EVENTS && Watching(e, i, v, s) && Idles(op, i, v)
    ensures Watching(Step(e, op), i, v, s)
  {
    hide Script, Interpret, TickFrom, Update, PinUpdate;
    InvSized(e);
    match op
    case DoUpdate => UpdateWatches(e, i, v, s);
    case DoPins(seen) =>
      PassAt(e, seen, i);
      hide Inv;
    case DoTick => TickWatches(e, i, v, s);
    case DoPush(_) =>
      assert InOk(e, i);
      hide Inv;
    case DoNext =>
      assert InOk(e, i);
      hide Inv;
  }

  /** Never early: however the tasks interleave, while no pass sees the level an event waits for, and no flush
      comes, the event is still pending and its slot has not moved. Once the level has been seen, event and slot
      stay as they are until the sequence task comes. */
  lemma {:induction false} LevelNeverEarly(e: Engine, ops: seq<Op>, i: nat, v: PinEvent, s: Slot)
    requires Inv(e) && CleanRun(e, ops) && i < PIN_EVENTS && Watching(e, i, v, s)
    requires AllIdle(ops, i, v)
    ensures Watching(Run(e, ops), i, v, s)
    decreases |ops|
  {
    hide Step, CleanStep, Watching, Idles, Inv;
    InvSized(e);
    if ops != [] {
      StepKeeps(e, ops[0]);
      StepWatches(e, ops[0], i, v, s);
      LevelNeverEarly(Step(e, ops[0]), ops[1..], i, v, s);
    }
  }

  /** Never lost: the first pass that sees the level makes the event active, and whatever else happens then, the
      next pass of the sequence task moves its slot past the token. */
  lemma LevelMoves(e: Engine, before: seq<Op>, seen: set<nat>, after: seq<Op>, i: nat, v: PinEvent, s: Slot)
    requires Inv(e) && i < PIN_EVENTS && Watching(e, i, v, s) && v.status == PinPending && i in seen
    requires CleanRun(e, before) && AllIdle(before, i, v)
    requires CleanRun(Step(Run(e, before), DoPins(seen)), after) && AllIdle(after, i, v.(status := PinActive))
    ensures var m := Step(Run(e, before), DoPins(seen));
      var r := Run(m, after);
      && m.ins[i] == r.ins[i] == v.(status := PinActive) && v.ref < SLOTS && m.slots[v.ref] == r.slots[v.ref] == s
      && (CleanStep(r, DoUpdate) ==> Left(Update(r).slots[v.ref]) < Left(s))
  {
    hide AllIdle, CleanRun, Run, Step, Left, Update, CleanStep, Inv, Watching;
    InvSized(e);
    var n, w := Run(e, before), v.(status := PinActive);
    var m := Step(n, DoPins(seen));
    LevelNeverEarly(e, before, i, v, s);
    RunKeeps(e, before);
    SeenIsActive(n, seen, i, v, s);
    LevelNeverEarly(m, after, i, w, s);
    RunKeeps(m, after);
    WatchingMeans(m, i, w, s);
    WatchingMeans(Run(m, after), i, w, s);
    Moves(Run(m, after), i, w, s);
  }

  lemma WatchingMeans(e: Engine, i: nat, v: PinEvent, s: Slot)
    requires Sized(e) && i < PIN_EVENTS && Watching(e, i, v, s)
    ensures e.ins[i] == v && v.ref < SLOTS && e.slots[v.ref] == s
  {
  }

  lemma Moves(e: Engine, i: nat, v: PinEvent, s: Slot)
    requires Inv(e) && i < PIN_EVENTS && Watching(e, i, v, s) && v.status == PinActive
    ensures v.ref < SLOTS && (CleanStep(e, DoUpdate) ==> Left(Update(e).slots[v.ref]) < Left(s))
  {
    hide Inv, CleanStep, Left, Update;
    InvSized(e);
    if CleanStep(e, DoUpdate) {
      assert InRipe(e, 0, v.ref);
      UpdateProgress(e, v.ref);
    }
  }

  lemma SeenIsActive(e: Engine, seen: set<nat>, i: nat, v: PinEvent, s: Slot)
    requires Inv(e) && i < PIN_EVENTS && Watching(e, i, v, s) && v.status == PinPending && i in seen
    ensures Inv(Step(e, DoPins(seen))) && Watching(Step(e, DoPins(seen)), i, v.(status := PinActive), s)
  {
    hide PinUpdate, Inv;
    InvSized(e);
    StepKeeps(e, DoPins(seen));
    PassAt(e, seen, i);
  }

  /** What reaching an input token stores: the port and level it watches, for its slot, which then waits. */
  lemma FireStartsWatching(e: Engine, idx: nat, port: nat, level: nat)
    requires Inv(e) && idx < SLOTS && e.slots[idx].status == Active
    requires Current(e.slots[idx]) == Some(Sense(port, level)) && Fits(e, idx)
    ensures var r, i := FireActive(e, idx), RingSlot(e.inIdx);
      && Inv(r) && r.slots[idx].status == Pending
      && Watching(r, i, PinEvent(idx, port, level, PinPending), r.slots[idx])
  {
    FireKeeps(e, idx);
  }

  // ---------------------------------------------------------------- events of a displaced sequence

  // The first token watches or drives that port, or is about that level.
  predicate Agrees(script: seq<Action>, port: nat, level: nat) {
    && script != [] && (script[0].Sense? || script[0].Drive?)
    && (script[0].port == port || script[0].level == level)
  }

  /** A push that displaces a sequence waiting for a level leaves its event behind. Once the level is seen, the event
      moves the new sequence past its first token, undone, if and only if that token is about the same port or about
      the same level, whether it watches or drives. */
  lemma DisplacedInputSkipsIff(e: Engine, job: Job, i: nat, seen: set<nat>)
    requires Sized(e) && i < PIN_EVENTS && e.ins[i].status == PinPending && e.ins[i].ref == PushSlot(e) && i in seen
    ensures var v, m := e.ins[i], PinUpdate(Push(e, job), seen);
      && m.slots[v.ref] == Slot(job, 0, Active)
      && AbsorbIn(m, i).slots[v.ref] == Slot(job, if Agrees(Script(job), v.port, v.level) then 1 else 0, Active)
      && AbsorbIn(m, i).outs == m.outs
  {
    hide Script, PinUpdate, NextFree;
    PassAt(Push(e, job), seen, i);
  }

  /** Likewise an expired delay of a displaced sequence, if and only if the new one begins with a delay. */
  lemma DisplacedDelaySkipsIff(e: Engine, job: Job, i: nat)
    requires Sized(e) && i < CLK_EVENTS && e.clk[i].status == ClkDone && e.clk[i].ref == PushSlot(e)
    ensures var skips := Script(job) != [] && Script(job)[0].Wait?;
      AbsorbClk(Push(e, job), i).slots[PushSlot(e)] == Slot(job, if skips then 1 else 0, Active)
  {
    hide Script, NextFree;
  }
}
