/** Which slot a push takes, and in which order finished sequences are reported. */
module EngineSlots {
  import opened Pattern
  import opened Engine
  import opened EngineProofs
  import opened EngineProgress

  /** A push takes a free slot, or slot 0: it displaces a sequence that is in use if and only if the search of the last
      push found no free slot behind its own, and slot 0 is in use now. */
  lemma PushDisplacesIff(e: Engine, job: Job)
    requires Inv(e)
    ensures var i := PushSlot(e);
      && (e.slots[i].status != Inactive <==> e.cursor == 128 && e.slots[0].status != Inactive)
      && (Push(e, job).cursor == 128 <==> forall j :: i < j < 128 ==> e.slots[j].status != Inactive)
      && (Push(e, job).cursor < 128 ==>
            i < Push(e, job).cursor && e.slots[Push(e, job).cursor].status == Inactive
            && forall j :: i < j < Push(e, job).cursor ==> e.slots[j].status != Inactive)
  {
    hide ClkOk, InOk, SlotOk, OneEventEach;
    var i := PushSlot(e);
    var slots := e.slots[i := Slot(job, 0, Active)];
    assert forall j :: i < j < 128 ==> slots[j] == e.slots[j];
  }

  // The first n slots may have been used; the others have not.
  predicate Lap(e: Engine, n: nat) {
    Sized(e) && n <= 128 && e.cursor == n && forall j :: n <= j < 128 ==> e.slots[j].status == Inactive
  }

  function Pushes(ops: seq<Op>): nat {
    if ops == [] then 0 else (if ops[0].DoPush? then 1 else 0) + Pushes(ops[1..])
  }

  // The tasks leave slots that are not in use alone.
  lemma UpdateLeavesFree(e: Engine, idx: nat)
    requires Inv(e) && CleanStep(e, DoUpdate) && idx < SLOTS && e.slots[idx].status == Inactive
    ensures Update(e).slots[idx] == e.slots[idx] && Update(e).cursor == e.cursor
  {
    hide Inv, FireFrom, FireFits, Update, AbsorbClkFrom, AbsorbInFrom;
    InvSized(e);
    UpdateIs(e);
    var m := AbsorbClkFrom(e, 0);
    AbsorbClkFromKeeps(e, 0);
    AbsorbClkFromProgress(e, 0, idx);
    AbsorbInFromProgress(m, 0, idx);
    CursorStays(e);
    AbsorbedKeeps(e);
    FireFromLeaves(Absorbed(e), 0, idx);
  }

  lemma {:induction false} FireFromLeaves(e: Engine, j: nat, idx: nat)
    requires Inv(e) && j <= SLOTS && idx < SLOTS && FireFits(e, j) && e.slots[idx].status == Inactive
    ensures FireFrom(e, j).slots[idx] == e.slots[idx]
    decreases SLOTS - j
  {
    hide Inv, FireActive;
    InvSized(e);
    if j < SLOTS {
      FireProgress(e, j, idx);
      FireKeeps(e, j);
      FireFromLeaves(FireActive(e, j), j + 1, idx);
    }
  }

  lemma CursorStays(e: Engine)
    requires Sized(e)
    ensures FireFrom(Absorbed(e), 0).cursor == e.cursor
  {
    hide AbsorbClkFrom, AbsorbInFrom, FireFrom;
    AbsorbClkCursor(e, 0);
    AbsorbInCursor(AbsorbClkFrom(e, 0), 0);
    FireCursor(Absorbed(e), 0);
  }

  lemma {:induction false} AbsorbClkCursor(e: Engine, i: nat)
    requires Sized(e) && i <= CLK_EVENTS
    ensures AbsorbClkFrom(e, i).cursor == e.cursor
    decreases CLK_EVENTS - i
  {
    hide Script;
    if i < CLK_EVENTS { AbsorbClkCursor(AbsorbClk(e, i), i + 1); }
  }

  lemma {:induction false} AbsorbInCursor(e: Engine, i: nat)
    requires Sized(e) && i <= PIN_EVENTS
    ensures AbsorbInFrom(e, i).cursor == e.cursor
    decreases PIN_EVENTS - i
  {
    hide Script;
    if i < PIN_EVENTS { AbsorbInCursor(AbsorbIn(e, i), i + 1); }
  }

  lemma {:induction false} FireCursor(e: Engine, j: nat)
    requires Sized(e) && j <= SLOTS
    ensures FireFrom(e, j).cursor == e.cursor
    decreases SLOTS - j
  {
    hide Script, Ticks;
    if j < SLOTS { FireCursor(FireActive(e, j), j + 1); }
  }

  lemma {:induction false} TickCursor(e: Engine, i: nat)
    requires Sized(e) && i <= CLK_EVENTS
    ensures TickFrom(e, i).cursor == e.cursor
    decreases CLK_EVENTS - i
  {
    if i < CLK_EVENTS { TickCursor(Tick(e, i), i + 1); }
  }

  lemma {:induction false} LookCursor(e: Engine, i: nat, seen: set<nat>)
    requires Sized(e) && i <= PIN_EVENTS
    ensures LookFrom(e, i, seen).cursor == e.cursor
    decreases PIN_EVENTS - i
  {
    if i < PIN_EVENTS { LookCursor(Look(e, i, i in seen), i + 1, seen); }
  }

  lemma PushLaps(e: Engine, job: Job, n: nat)
    requires Lap(e, n) && n < 128
    ensures PushSlot(e) == n && Lap(Push(e, job), n + 1)
  {
  }

  lemma UpdateLaps(e: Engine, n: nat)
    requires Inv(e) && CleanStep(e, DoUpdate) && Lap(e, n)
    ensures Lap(Update(e), n)
  {
    hide Inv, CleanStep, Update;
    InvSized(e);
    UpdateIs(e);
    CursorStays(e);
    forall j | n <= j < 128 ensures Update(e).slots[j].status == Inactive { UpdateLeavesFree(e, j); }
  }

  lemma TickLaps(e: Engine, n: nat)
    requires Lap(e, n)
    ensures Lap(TickFrom(e, 0), n)
  {
    hide TickFrom;
    TickFromSlots(e, 0);
    TickCursor(e, 0);
  }

  lemma PinsLap(e: Engine, seen: set<nat>, n: nat)
    requires Lap(e, n)
    ensures Lap(PinUpdate(e, seen), n)
  {
    hide LookFrom;
    LookFromSlots(Drain(e), 0, seen);
    LookCursor(Drain(e), 0, seen);
  }

  lemma NextLaps(e: Engine, n: nat)
    requires Lap(e, n)
    ensures Lap(Next(e), n)
  {
  }

  lemma StepLaps(e: Engine, op: Op, n: nat)
    requires Inv(e) && CleanStep(e, op) && !op.DoFlush? && Lap(e, n) && n + Pushes([op]) <= 128
    ensures Lap(Step(e, op), n + Pushes([op]))
  {
    hide Inv, CleanStep, Update, TickFrom, PinUpdate, Push, Next, Lap, PushSlot;
    assert [op][1..] == [];
    InvSized(e);
    match op
    case DoPush(job) => PushLaps(e, job, n);
    case DoUpdate => UpdateLaps(e, n);
    case DoTick => TickLaps(e, n);
    case DoPins(seen) => PinsLap(e, seen, n);
    case DoNext => NextLaps(e, n);
  }

  /** The first 128 pushes since the start, or since a flush, take the 128 slots in order, whatever the tasks do and
      however many sequences finish meanwhile. */
  lemma {:induction false} FirstLap(e: Engine, ops: seq<Op>, n: nat)
    requires Inv(e) && CleanRun(e, ops) && DoFlush !in ops && Lap(e, n) && n + Pushes(ops) <= 128
    ensures var r := Run(e, ops);
      Lap(r, n + Pushes(ops)) && (n + Pushes(ops) < 128 ==> PushSlot(r) == n + Pushes(ops))
    decreases |ops|
  {
    hide Inv, Step, CleanStep, Lap;
    InvSized(e);
    if ops == [] {
      LapSlot(e, n);
    } else {
      StepLaps(e, ops[0], n);
      StepKeeps(e, ops[0]);
      PushesOne(ops);
      FirstLap(Step(e, ops[0]), ops[1..], n + Pushes([ops[0]]));
    }
  }

  lemma LapSlot(e: Engine, n: nat)
    requires Sized(e) && Lap(e, n)
    ensures n < 128 ==> PushSlot(e) == n
  {
  }

  lemma PushesOne(ops: seq<Op>)
    requires ops != []
    ensures Pushes([ops[0]]) == (if ops[0].DoPush? then 1 else 0) && Pushes([ops[0]]) + Pushes(ops[1..]) == Pushes(ops)
  {
    assert [ops[0]][1..] == [];
  }

  /** The start and a flush leave every slot free. */
  lemma Fresh(e: Engine)
    requires Sized(e)
    ensures Lap(Start(), 0) && Lap(Flush(e), 0)
  {
  }

  // ---------------------------------------------------------------- reports

  // The slots that have finished and are not reported yet.
  function Finished(slots: seq<Slot>): (d: set<nat>) {
    set i: nat | i < |slots| && slots[i].status == Done
  }

  function Repeat(n: nat): seq<Op> {
    seq(n, _ => DoNext)
  }

  /** A report frees the first finished slot, which is then reported no more, and touches no other. */
  lemma NextReports(e: Engine)
    requires Sized(e)
    ensures var r := Next(e);
      && (Finished(e.slots) == {} ==> r == e)
      && (Finished(e.slots) != {} ==>
            exists i :: i in Finished(e.slots) && (forall j :: j in Finished(e.slots) ==> i <= j)
                        && r == e.(slots := e.slots[i := e.slots[i].(status := Inactive)])
                        && Finished(r.slots) == Finished(e.slots) - {i})
  {
    var i := FirstDone(e.slots, 0);
    if i < SLOTS {
      assert i in Finished(e.slots);
    } else if j: nat :| j in Finished(e.slots) {
      assert false;
    }
  }

  /** As many reports as there are finished slots report every one. */
  lemma {:induction false} AllReported(e: Engine, n: nat)
    requires Sized(e) && n >= |Finished(e.slots)|
    ensures Finished(Run(e, Repeat(n)).slots) == {}
    decreases n
  {
    NextReports(e);
    hide Next;
    if n == 0 {
      assert Repeat(0) == [];
    } else {
      assert Repeat(n)[1..] == Repeat(n - 1);
      AllReported(Next(e), n - 1);
    }
  }
}
