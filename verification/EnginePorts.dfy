/** What a sequence asks of its outputs and what its ports get, over whole runs of the engine. */
module EnginePorts {
  import opened Pattern
  import opened Engine
  import opened EngineProofs
  import opened EngineOutputs

  // ---------------------------------------------------------------- the engine's steps

  lemma {:induction false} TickFromOutputs(e: Engine, i: nat)
    requires Sized(e) && i <= CLK_EVENTS
    ensures Outputs(TickFrom(e, i)) == Outputs(e)
    decreases CLK_EVENTS - i
  {
    if i < CLK_EVENTS { TickFromOutputs(Tick(e, i), i + 1); }
  }

  lemma {:induction false} LookFromOutputs(e: Engine, i: nat, seen: set<nat>)
    requires Sized(e) && i <= PIN_EVENTS
    ensures Outputs(LookFrom(e, i, seen)) == Outputs(e)
    decreases PIN_EVENTS - i
  {
    if i < PIN_EVENTS { LookFromOutputs(Look(e, i, i in seen), i + 1, seen); }
  }

  lemma {:induction false} AbsorbClkFromOutputs(e: Engine, i: nat)
    requires Sized(e) && i <= CLK_EVENTS
    ensures Outputs(AbsorbClkFrom(e, i)) == Outputs(e)
    decreases CLK_EVENTS - i
  {
    if i < CLK_EVENTS {
      hide Script;
      AbsorbClkFromOutputs(AbsorbClk(e, i), i + 1);
    }
  }

  lemma {:induction false} AbsorbInFromOutputs(e: Engine, i: nat)
    requires Sized(e) && i <= PIN_EVENTS
    ensures Outputs(AbsorbInFrom(e, i)) == Outputs(e)
    decreases PIN_EVENTS - i
  {
    if i < PIN_EVENTS {
      hide Script;
      AbsorbInFromOutputs(AbsorbIn(e, i), i + 1);
    }
  }

  lemma AbsorbedOutputs(e: Engine)
    requires Sized(e)
    ensures Outputs(Absorbed(e)) == Outputs(e)
  {
    AbsorbClkFromOutputs(e, 0);
    hide AbsorbClkFrom, AbsorbInFrom;
    AbsorbInFromOutputs(AbsorbClkFrom(e, 0), 0);
  }

  predicate Drives(e: Engine, idx: nat)
    requires Sized(e) && idx < SLOTS
  {
    e.slots[idx].status == Active && Current(e.slots[idx]).Some? && Current(e.slots[idx]).value.Drive?
  }

  // The output an active slot standing at a Drive token queues.
  function NextOut(e: Engine, idx: nat): Out
    requires Sized(e) && idx < SLOTS && Drives(e, idx)
  {
    var a := Current(e.slots[idx]).value;
    Out(e.past.owner[idx], e.slots[idx].index + 1, a.port, a.level)
  }

  lemma FireOutputs(e: Engine, idx: nat)
    requires Sized(e) && idx < SLOTS
    ensures Outputs(FireActive(e, idx)) ==
      if Drives(e, idx) then Enqueue(Outputs(e), idx, NextOut(e, idx)) else Outputs(e)
  {
    hide Script;
  }

  // No slot from idx on queues onto a waiting output of push w.
  predicate FiresClear(e: Engine, idx: nat, w: nat)
    requires Sized(e) && idx <= SLOTS
    decreases SLOTS - idx
  {
    idx == SLOTS ||
    ((Drives(e, idx) ==> !Holds(Outputs(e), RingSlot(e.outIdx), w)) && FiresClear(FireActive(e, idx), idx + 1, w))
  }

  // The step overwrites no waiting output of push w, passes over none on both sides of the wrap, drops none.
  ghost predicate OrderlyStep(e: Engine, op: Op, w: nat)
    requires Sized(e)
  {
    match op
    case DoUpdate => FiresClear(Absorbed(e), 0, w)
    case DoPins(_) => !Straddles(Outputs(e), w)
    case DoFlush => forall i :: 0 <= i < PIN_EVENTS ==> !Holds(Outputs(e), i, w)
    case _ => true
  }

  ghost predicate Orderly(e: Engine, ops: seq<Op>, w: nat)
    requires Sized(e)
    decreases |ops|
  {
    ops == [] || (OrderlyStep(e, ops[0], w) && Orderly(Step(e, ops[0]), ops[1..], w))
  }

  lemma FireKeepsIff(e: Engine, idx: nat, w: nat)
    requires Sized(e) && idx < SLOTS && Linked(Outputs(e))
    ensures Linked(Outputs(FireActive(e, idx)))
    ensures InOrder(Outputs(FireActive(e, idx)), w) <==>
      InOrder(Outputs(e), w) && (Drives(e, idx) ==> !Holds(Outputs(e), RingSlot(e.outIdx), w))
  {
    hide FireActive, Drives, Enqueue, Holds, Linked, InOrder;
    FireOutputs(e, idx);
    if Drives(e, idx) { EnqueueKeepsIff(Outputs(e), idx, NextOut(e, idx), w); }
  }

  lemma {:induction false} FireFromKeepsIff(e: Engine, idx: nat, w: nat)
    requires Sized(e) && idx <= SLOTS && Linked(Outputs(e))
    ensures Linked(Outputs(FireFrom(e, idx)))
    ensures InOrder(Outputs(FireFrom(e, idx)), w) <==> InOrder(Outputs(e), w) && FiresClear(e, idx, w)
    decreases SLOTS - idx
  {
    hide FireActive, Drives, Holds, Linked, InOrder;
    if idx < SLOTS {
      FireKeepsIff(e, idx, w);
      FireFromKeepsIff(FireActive(e, idx), idx + 1, w);
    }
  }

  lemma StepOutputs(e: Engine, op: Op)
    requires Sized(e) && !op.DoUpdate? && !op.DoPush?
    ensures Outputs(Step(e, op)) ==
      match op
      case DoPins(_) => Passed(Outputs(e))
      case DoFlush => Dropped(Outputs(e))
      case _ => Outputs(e)
  {
    match op
    case DoTick => TickFromOutputs(e, 0);
    case DoPins(seen) =>
      hide LookFrom;
      LookFromOutputs(Drain(e), 0, seen);
    case _ =>
  }

  // Queues and writes do not depend on who is pushed next.
  lemma PushOutputs(e: Engine, job: Job, w: nat)
    requires Sized(e) && Linked(Outputs(e))
    ensures Linked(Outputs(Push(e, job))) && (InOrder(Outputs(Push(e, job)), w) <==> InOrder(Outputs(e), w))
  {
    hide PendingTags, Pick;
    var r := Push(e, job);
    assert Aged(Outputs(r)) == Aged(Outputs(e));
  }

  lemma NoneHolds(o: Side, w: nat)
    requires Linked(o)
    ensures Pick(o.past.queued, Aged(o), w) == [] <==> forall i :: 0 <= i < PIN_EVENTS ==> !Holds(o, i, w)
  {
    hide Pick, PendingTags, Newer, Older, Linked;
    LinkedShaped(o);
    WaitingBelow(o);
    RingOrder(o);
    var q, t := o.past.queued, o.past.tags;
    PickAppend(q, Older(o), Newer(o), w);
    PickAppend(q, Newer(o), Older(o), w);
    if i :| 0 <= i < PIN_EVENTS && Holds(o, i, w) { HeldIsPicked(o.outs, t, q, w, i); }
    if Pick(q, PendingTags(o.outs, t), w) != [] {
      var i := PickedIsHeld(o.outs, t, q, w);
      assert Holds(o, i, w);
    }
  }

  lemma StepKeepsIff(e: Engine, op: Op, w: nat)
    requires Sized(e) && Linked(Outputs(e))
    ensures Linked(Outputs(Step(e, op)))
    ensures InOrder(Outputs(Step(e, op)), w) <==> InOrder(Outputs(e), w) && OrderlyStep(e, op, w)
  {
    hide Linked, InOrder, Straddles, Holds, FireFrom, Absorbed, FiresClear, LookFrom, TickFrom, Next, Flush, Push, Aged;
    match op
    case DoUpdate =>
      AbsorbedOutputs(e);
      FireFromKeepsIff(Absorbed(e), 0, w);
    case DoPush(job) => PushOutputs(e, job, w);
    case DoPins(_) =>
      StepOutputs(e, op);
      PassKeepsIff(Outputs(e), w);
    case DoFlush =>
      StepOutputs(e, op);
      DropKeepsIff(Outputs(e), w);
      NoneHolds(Outputs(e), w);
    case _ => StepOutputs(e, op);
  }

  /** In every run, clean or not: the writes made for push w, followed by its waiting outputs from the oldest on,
      are what it queued, if and only if no step overwrote a waiting output of it, passed over outputs of it on
      both sides of the wrap, or flushed one. */
  lemma {:induction false} WritesFollowQueueIff(e: Engine, ops: seq<Op>, w: nat)
    requires Sized(e) && Linked(Outputs(e))
    ensures Linked(Outputs(Run(e, ops)))
    ensures InOrder(Outputs(Run(e, ops)), w) <==> InOrder(Outputs(e), w) && Orderly(e, ops, w)
    decreases |ops|
  {
    hide Linked, InOrder, Step, OrderlyStep;
    if ops != [] {
      StepKeepsIff(e, ops[0], w);
      WritesFollowQueueIff(Step(e, ops[0]), ops[1..], w);
    }
  }

  lemma StartInOrder(w: nat)
    ensures Linked(Outputs(Start())) && InOrder(Outputs(Start()), w)
  {
    NothingWaits(Outputs(Start()));
  }

  // ---------------------------------------------------------------- what a push queues is what its script asks for

  // The outputs of push w, in the order they were queued.
  function By(q: seq<Out>, w: nat): seq<Out> {
    if q == [] then []
    else By(q[..|q| - 1], w) + if q[|q| - 1].owner == w then [q[|q| - 1]] else []
  }

  lemma BySnoc(q: seq<Out>, out: Out, w: nat)
    ensures By(q + [out], w) == By(q, w) + if out.owner == w then [out] else []
  {
    assert (q + [out])[..|q|] == q;
  }

  lemma {:induction false} ByNobody(q: seq<Out>, w: nat)
    requires forall n :: 0 <= n < |q| ==> q[n].owner != w
    ensures By(q, w) == []
  {
    if q != [] { ByNobody(q[..|q| - 1], w); }
  }

  // The outputs among the first k actions of a script, for push w.
  function Asks(w: nat, script: seq<Action>, k: nat): seq<Out>
    requires k <= |script|
  {
    if k == 0 then []
    else
      Asks(w, script, k - 1)
      + match script[k - 1]
        case Drive(port, level) => [Out(w, k, port, level)]
        case _ => []
  }

  // The push in slot idx has queued what its first index tokens ask for.
  ghost predicate AskOk(e: Engine, idx: nat)
    requires Sized(e) && idx < SLOTS
  {
    var s, w := e.slots[idx], e.past.owner[idx];
    s.status != Inactive ==>
      s.index <= |Script(s.job)| && By(e.past.queued, w) == Asks(w, Script(s.job), s.index)
  }

  ghost predicate Owned(e: Engine)
    requires Sized(e)
  {
    && (forall idx :: 0 <= idx < SLOTS ==> e.past.owner[idx] < |e.past.jobs|)
    && (forall i, j :: 0 <= i < j < SLOTS ==> e.past.owner[i] != e.past.owner[j])
    && (forall n :: 0 <= n < |e.past.queued| ==> e.past.queued[n].owner < |e.past.jobs|)
  }

  // Push w is over: no slot works for it any more, and what it queued is h.
  ghost predicate Over(e: Engine, w: nat, h: seq<Out>)
    requires Sized(e)
  {
    && w < |e.past.jobs| && By(e.past.queued, w) == h
    && forall idx :: 0 <= idx < SLOTS && e.past.owner[idx] == w ==>
         e.slots[idx].status == Done || e.slots[idx].status == Inactive
  }

  // over: pushes known to be over, and what they queued.
  ghost predicate Told(e: Engine, over: map<nat, seq<Out>>) {
    && Sized(e) && Owned(e)
    && (forall idx :: 0 <= idx < SLOTS ==> AskOk(e, idx))
    && forall w :: w in over ==> Over(e, w, over[w])
  }

  // A pending slot moved past a delay or an input queues nothing.
  lemma ResumeTold(e: Engine, r: Engine, idx: nat, over: map<nat, seq<Out>>)
    requires Told(e, over) && Sized(r) && idx < SLOTS && r.past == e.past && e.slots[idx].status == Pending
    requires Current(e.slots[idx]).Some? && !Current(e.slots[idx]).value.Drive?
    requires r.slots == e.slots[idx := e.slots[idx].(index := e.slots[idx].index + 1, status := Active)]
    ensures Told(r, over)
  {
    hide Script, By;
    forall k | 0 <= k < SLOTS ensures AskOk(r, k) { assert AskOk(e, k); }
    forall w | w in over ensures Over(r, w, over[w]) { assert Over(e, w, over[w]); }
  }

  lemma AbsorbClkTold(e: Engine, i: nat, over: map<nat, seq<Out>>)
    requires Inv(e) && Told(e, over) && i < CLK_EVENTS
    ensures Told(AbsorbClk(e, i), over) && Inv(AbsorbClk(e, i))
  {
    AbsorbClkKeeps(e, i);
    hide Inv, Told, Script;
    InvSized(e);
    if e.clk[i].status == ClkDone { ResumeTold(e, AbsorbClk(e, i), e.clk[i].ref, over); }
  }

  lemma AbsorbInTold(e: Engine, i: nat, over: map<nat, seq<Out>>)
    requires Inv(e) && Told(e, over) && i < PIN_EVENTS
    ensures Told(AbsorbIn(e, i), over) && Inv(AbsorbIn(e, i))
  {
    AbsorbInKeeps(e, i);
    hide Inv, Told, Script;
    InvSized(e);
    if e.ins[i].status == PinActive { ResumeTold(e, AbsorbIn(e, i), e.ins[i].ref, over); }
  }

  lemma {:induction false} AbsorbClkFromTold(e: Engine, i: nat, over: map<nat, seq<Out>>)
    requires Inv(e) && Told(e, over) && i <= CLK_EVENTS
    ensures Told(AbsorbClkFrom(e, i), over) && Inv(AbsorbClkFrom(e, i))
    decreases CLK_EVENTS - i
  {
    hide Inv, Told, AbsorbClk;
    InvSized(e);
    if i < CLK_EVENTS {
      AbsorbClkTold(e, i, over);
      AbsorbClkFromTold(AbsorbClk(e, i), i + 1, over);
    }
  }

  lemma {:induction false} AbsorbInFromTold(e: Engine, i: nat, over: map<nat, seq<Out>>)
    requires Inv(e) && Told(e, over) && i <= PIN_EVENTS
    ensures Told(AbsorbInFrom(e, i), over) && Inv(AbsorbInFrom(e, i))
    decreases PIN_EVENTS - i
  {
    hide Inv, Told, AbsorbIn;
    InvSized(e);
    if i < PIN_EVENTS {
      AbsorbInTold(e, i, over);
      AbsorbInFromTold(AbsorbIn(e, i), i + 1, over);
    }
  }

  lemma FireTold(e: Engine, idx: nat, over: map<nat, seq<Out>>)
    requires Told(e, over) && idx < SLOTS
    ensures Told(FireActive(e, idx), over)
  {
    hide Script, By, Drives;
    if Drives(e, idx) {
      DriveTold(e, idx, over);
    } else {
      FireOutputs(e, idx);
      var r := FireActive(e, idx);
      forall k | 0 <= k < SLOTS ensures AskOk(r, k) { assert AskOk(e, k); StillStands(e, idx); }
      forall w | w in over ensures Over(r, w, over[w]) { assert Over(e, w, over[w]); StillStands(e, idx); }
    }
  }

  // Firing anything but an output moves no slot to another token.
  lemma StillStands(e: Engine, idx: nat)
    requires Sized(e) && idx < SLOTS && !Drives(e, idx)
    ensures var r := FireActive(e, idx);
      && (forall k :: 0 <= k < SLOTS && k != idx ==> r.slots[k] == e.slots[k])
      && r.slots[idx].job == e.slots[idx].job && r.slots[idx].index == e.slots[idx].index
      && (e.slots[idx].status != Active ==> r.slots[idx] == e.slots[idx])
  {
    hide Script;
  }

  lemma DriveTold(e: Engine, idx: nat, over: map<nat, seq<Out>>)
    requires Told(e, over) && idx < SLOTS && Drives(e, idx)
    ensures Told(FireActive(e, idx), over)
  {
    hide Script, By;
    var r, out := FireActive(e, idx), NextOut(e, idx);
    assert AskOk(e, idx);
    assert r.past.queued == e.past.queued + [out];
    forall k | 0 <= k < SLOTS ensures AskOk(r, k) {
      assert AskOk(e, k);
      BySnoc(e.past.queued, out, e.past.owner[k]);
    }
    forall w | w in over ensures Over(r, w, over[w]) {
      assert Over(e, w, over[w]);
      BySnoc(e.past.queued, out, w);
    }
  }

  lemma {:induction false} FireFromTold(e: Engine, idx: nat, over: map<nat, seq<Out>>)
    requires Told(e, over) && idx <= SLOTS
    ensures Sized(e) && Told(FireFrom(e, idx), over)
    decreases SLOTS - idx
  {
    hide Told, FireActive;
    ToldSized(e, over);
    if idx < SLOTS {
      FireTold(e, idx, over);
      FireFromTold(FireActive(e, idx), idx + 1, over);
    }
  }

  lemma ToldSized(e: Engine, over: map<nat, seq<Out>>)
    requires Told(e, over)
    ensures Sized(e)
  {
  }

  lemma PushTold(e: Engine, job: Job, over: map<nat, seq<Out>>)
    requires Told(e, over)
    ensures Sized(e) && Told(Push(e, job), over)
  {
    hide Script, By;
    var r, i := Push(e, job), PushSlot(e);
    ByNobody(e.past.queued, |e.past.jobs|);
    forall k | 0 <= k < SLOTS ensures AskOk(r, k) { assert AskOk(e, k); }
    forall w | w in over ensures Over(r, w, over[w]) { assert Over(e, w, over[w]); }
  }

  // Steps that touch neither what is queued nor where a slot stands.
  lemma QuietTold(e: Engine, r: Engine, over: map<nat, seq<Out>>)
    requires Told(e, over) && Sized(r)
    requires r.past.queued == e.past.queued && r.past.jobs == e.past.jobs && r.past.owner == e.past.owner
    requires forall k :: 0 <= k < SLOTS ==>
      (r.slots[k] == e.slots[k] || r.slots[k] == e.slots[k].(status := Inactive))
    ensures Told(r, over)
  {
    hide Script, By;
    forall k | 0 <= k < SLOTS ensures AskOk(r, k) { assert AskOk(e, k); }
    forall w | w in over ensures Over(r, w, over[w]) { assert Over(e, w, over[w]); }
  }

  lemma {:induction false} TickFromSlots(e: Engine, i: nat)
    requires Sized(e) && i <= CLK_EVENTS
    ensures TickFrom(e, i).slots == e.slots
    decreases CLK_EVENTS - i
  {
    if i < CLK_EVENTS { TickFromSlots(Tick(e, i), i + 1); }
  }

  lemma {:induction false} LookFromSlots(e: Engine, i: nat, seen: set<nat>)
    requires Sized(e) && i <= PIN_EVENTS
    ensures LookFrom(e, i, seen).slots == e.slots
    decreases PIN_EVENTS - i
  {
    if i < PIN_EVENTS { LookFromSlots(Look(e, i, i in seen), i + 1, seen); }
  }

  lemma StepTold(e: Engine, op: Op, over: map<nat, seq<Out>>)
    requires Inv(e) && Told(e, over)
    ensures Told(Step(e, op), over)
  {
    hide Inv, Told, AbsorbClkFrom, AbsorbInFrom, FireFrom, TickFrom, LookFrom;
    InvSized(e);
    match op
    case DoUpdate =>
      AbsorbClkFromTold(e, 0, over);
      AbsorbInFromTold(AbsorbClkFrom(e, 0), 0, over);
      FireFromTold(Absorbed(e), 0, over);
    case DoPush(job) => PushTold(e, job, over);
    case DoTick =>
      TickFromSlots(e, 0);
      TickFromOutputs(e, 0);
      QuietTold(e, TickFrom(e, 0), over);
    case DoPins(seen) =>
      LookFromSlots(Drain(e), 0, seen);
      LookFromOutputs(Drain(e), 0, seen);
      QuietTold(e, PinUpdate(e, seen), over);
    case DoNext => QuietTold(e, Next(e), over);
    case DoFlush => QuietTold(e, Flush(e), over);
  }

  lemma {:induction false} RunTold(e: Engine, ops: seq<Op>, over: map<nat, seq<Out>>)
    requires Inv(e) && Told(e, over) && CleanRun(e, ops)
    ensures Told(Run(e, ops), over) && Inv(Run(e, ops))
    decreases |ops|
  {
    hide Inv, Told, Step, CleanStep;
    InvSized(e);
    if ops != [] {
      StepTold(e, ops[0], over);
      StepKeeps(e, ops[0]);
      RunTold(Step(e, ops[0]), ops[1..], over);
    }
  }

  // ---------------------------------------------------------------- main results

  function Outs(q: seq<Out>, ns: seq<nat>): (r: seq<Out>)
    requires Below(ns, |q|)
    ensures |r| == |ns| && forall i :: 0 <= i < |ns| ==> r[i] == q[ns[i]]
  {
    seq(|ns|, i requires 0 <= i < |ns| => q[ns[i]])
  }

  // The port writes made for push w, in their order.
  ghost function Written(o: Side, w: nat): seq<Out>
    requires Linked(o)
  {
    Outs(o.past.queued, Pick(o.past.queued, o.past.wires, w))
  }

  // Its outputs still in the ring, oldest first.
  ghost function Waiting(o: Side, w: nat): seq<Out>
    requires Linked(o)
  {
    Outs(o.past.queued, Pick(o.past.queued, Aged(o), w))
  }

  lemma {:induction false} ByIsPicked(q: seq<Out>, w: nat)
    ensures By(q, w) == Outs(q, Pick(q, Upto(|q|), w))
    decreases |q|
  {
    hide Pick, By;
    if q == [] {
      assert By(q, w) == [] by { ByNobody(q, w); }
      PickNone(q, w);
    } else {
      var k := |q| - 1;
      var front, last := q[..k], q[k];
      assert q == front + [last];
      ByIsPicked(front, w);
      BySnoc(front, last, w);
      PickExtends(front, [last], Upto(k), w);
      PickAppend(q, Upto(k), [k], w);
      PickOne(q, k, w);
      var ns := Pick(q, Upto(k), w);
      assert Outs(front, ns) == Outs(q, ns);
      assert Outs(q, ns + [k]) == Outs(q, ns) + [last];
    }
  }

  predicate Distinct(s: seq<Out>) {
    forall i, j :: 0 <= i < j < |s| ==> s[i] != s[j]
  }

  lemma {:induction false} AsksDistinct(w: nat, script: seq<Action>, k: nat)
    requires k <= |script|
    ensures Distinct(Asks(w, script, k))
    ensures forall i :: 0 <= i < |Asks(w, script, k)| ==> Asks(w, script, k)[i].token <= k
  {
    if k > 0 { AsksDistinct(w, script, k - 1); }
  }

  // Different outputs of one push have different numbers.
  lemma SameNumbers(q: seq<Out>, w: nat, a: seq<nat>, b: seq<nat>)
    requires Below(a, |q|) && Below(b, |q|) && Outs(q, a) == Outs(q, b) && Distinct(Outs(q, b))
    requires forall i :: 0 <= i < |a| ==> a[i] in b
    ensures a == b
  {
    assert |a| == |Outs(q, a)| == |b|;
    forall i | 0 <= i < |a| ensures a[i] == b[i] { SameNumber(q, a, b, i); }
  }

  lemma SameNumber(q: seq<Out>, a: seq<nat>, b: seq<nat>, i: nat)
    requires Below(a, |q|) && Below(b, |q|) && Outs(q, a) == Outs(q, b) && Distinct(Outs(q, b))
    requires i < |a| == |b| && a[i] in b
    ensures a[i] == b[i]
  {
    var k :| 0 <= k < |b| && b[k] == a[i];
    var o := Outs(q, b);
    assert o[k] == q[b[k]] && o[i] == Outs(q, a)[i] == q[a[i]];
  }

  // Outputs that differ are in order exactly when their numbers are.
  lemma InOrderMeans(o: Side, w: nat)
    requires Linked(o) && Distinct(By(o.past.queued, w))
    ensures Written(o, w) + Waiting(o, w) == By(o.past.queued, w) <==> InOrder(o, w)
  {
    hide Aged, By, Pick;
    var q := o.past.queued;
    var x, y, b := Pick(q, o.past.wires, w), Pick(q, Aged(o), w), Pick(q, Upto(|q|), w);
    ByIsPicked(q, w);
    assert Written(o, w) + Waiting(o, w) == Outs(q, x + y);
    if Outs(q, x + y) == Outs(q, b) {
      forall i | 0 <= i < |x + y| ensures (x + y)[i] in b {
        var n := (x + y)[i];
        PickMember(q, o.past.wires, w, n);
        PickMember(q, Aged(o), w, n);
        PickMember(q, Upto(|q|), w, n);
        assert Upto(|q|)[n] == n;
      }
      SameNumbers(q, w, x + y, b);
    }
  }

  lemma StartTold()
    ensures Told(Start(), map[]) && Inv(Start())
  {
    hide Inv;
    StartInv();
    assert forall k :: 0 <= k < SLOTS ==> AskOk(Start(), k);
  }

  /** In every clean run, for every sequence in a slot: the writes made to its ports, followed by its outputs
      still waiting, are the outputs its first index tokens ask for, each once and in their order, if and only if
      no waiting output of it was overwritten, none was passed over on both sides of the ring's wrap, and none
      flushed. */
  lemma PortsFollowScriptIff(ops: seq<Op>, idx: nat)
    requires CleanRun(Start(), ops) && idx < SLOTS && Run(Start(), ops).slots[idx].status != Inactive
    ensures var e := Run(Start(), ops); var s, w := e.slots[idx], e.past.owner[idx];
      && Linked(Outputs(e)) && s.index <= |Script(s.job)|
      && (Written(Outputs(e), w) + Waiting(Outputs(e), w) == Asks(w, Script(s.job), s.index)
          <==> Orderly(Start(), ops, w))
  {
    var e := Run(Start(), ops);
    var s, w := e.slots[idx], e.past.owner[idx];
    StartTold();
    StartInOrder(w);
    hide Inv, Start, Script, Linked, InOrder, Asks, By, Aged;
    RunTold(Start(), ops, map[]);
    WritesFollowQueueIff(Start(), ops, w);
    assert AskOk(e, idx);
    AsksDistinct(w, Script(s.job), s.index);
    InOrderMeans(Outputs(e), w);
  }

  lemma DoneIsOver(e: Engine, idx: nat)
    requires Inv(e) && Told(e, map[]) && idx < SLOTS && e.slots[idx].status == Done
    ensures var w, script := e.past.owner[idx], Script(e.slots[idx].job);
      Told(e, map[w := Asks(w, script, |script|)])
  {
    hide Script, By, Asks, Interpret, ClkOk, InOk;
    assert AskOk(e, idx) && SlotOk(e, idx);
  }

  /** A sequence that has been finished gets all its outputs written, in order, unless one of the three things
      happens to it: from then on the writes and what still waits are all its script asks for. */
  lemma FinishedIsWrittenIff(ops: seq<Op>, idx: nat, more: seq<Op>)
    requires CleanRun(Start(), ops) && idx < SLOTS && Run(Start(), ops).slots[idx].status == Done
    requires CleanRun(Run(Start(), ops), more)
    ensures var e := Run(Start(), ops); var r := Run(e, more);
      var w, script := e.past.owner[idx], Script(e.slots[idx].job);
      && Linked(Outputs(r))
      && (Written(Outputs(r), w) + Waiting(Outputs(r), w) == Asks(w, script, |script|)
          <==> Orderly(Start(), ops, w) && Orderly(e, more, w))
  {
    var e := Run(Start(), ops);
    var w, script := e.past.owner[idx], Script(e.slots[idx].job);
    StartTold();
    StartInOrder(w);
    hide Inv, Start, Script, Linked, InOrder, Asks, By, Aged;
    RunTold(Start(), ops, map[]);
    DoneIsOver(e, idx);
    var over := map[w := Asks(w, script, |script|)];
    RunTold(e, more, over);
    assert Over(Run(e, more), w, over[w]);
    WritesFollowQueueIff(Start(), ops, w);
    WritesFollowQueueIff(e, more, w);
    AsksDistinct(w, script, |script|);
    InOrderMeans(Outputs(Run(e, more)), w);
  }

  // ---------------------------------------------------------------- the ring and its counters

  // The pending entries are the last `since` before the index, wrapping; each holds the output its tag names.
  ghost predicate Counted(o: Side) {
    && Shaped(o)
    && (forall i :: 0 <= i < PIN_EVENTS ==>
          (o.outs[i].status == PinPending
           <==> o.outIdx - o.past.since <= i < o.outIdx || PIN_EVENTS + o.outIdx - o.past.since <= i))
    && forall i :: 0 <= i < PIN_EVENTS && o.outs[i].status == PinPending ==>
         && o.past.tags[i] < |o.past.queued|
         && o.past.queued[o.past.tags[i]].port == o.outs[i].port
         && o.past.queued[o.past.tags[i]].level == o.outs[i].level
  }

  lemma EnqueueCounted(o: Side, ref: nat, out: Out)
    requires Counted(o)
    ensures Counted(Enqueue(o, ref, out))
  {
  }

  lemma {:induction false} FireFromCounted(e: Engine, idx: nat)
    requires Sized(e) && idx <= SLOTS && Counted(Outputs(e))
    ensures Counted(Outputs(FireFrom(e, idx)))
    decreases SLOTS - idx
  {
    hide FireActive, Drives, Counted, Enqueue;
    if idx < SLOTS {
      FireOutputs(e, idx);
      if Drives(e, idx) { EnqueueCounted(Outputs(e), idx, NextOut(e, idx)); }
      FireFromCounted(FireActive(e, idx), idx + 1);
    }
  }

  lemma StepCounted(e: Engine, op: Op)
    requires Sized(e) && Counted(Outputs(e))
    ensures Counted(Outputs(Step(e, op)))
  {
    hide FireFrom, Absorbed, LookFrom, TickFrom, PendingTags;
    match op
    case DoUpdate =>
      AbsorbedOutputs(e);
      hide Counted;
      FireFromCounted(Absorbed(e), 0);
    case DoPush(job) =>
    case _ => StepOutputs(e, op);
  }

  lemma {:induction false} RunCounted(e: Engine, ops: seq<Op>)
    requires Sized(e) && Counted(Outputs(e))
    ensures Counted(Outputs(Run(e, ops)))
    decreases |ops|
  {
    hide Counted, Step;
    if ops != [] {
      StepCounted(e, ops[0]);
      RunCounted(Step(e, ops[0]), ops[1..]);
    }
  }

  lemma StartCounted()
    ensures Counted(Outputs(Start()))
  {
  }

  /** When the dangers arise, in every run, told by two counters: the next output overwrites a waiting one exactly
      when 256 have been queued since the last pass, and a pass finds outputs on both sides of the wrap exactly
      when more have been queued since the last one than the index has counted from the start of the ring. */
  lemma DangersByCounting(ops: seq<Op>)
    ensures var e := Run(Start(), ops);
      && (e.outs[RingSlot(e.outIdx)].status == PinPending <==> e.past.since >= PIN_EVENTS)
      && ((exists i, j :: 0 <= i < e.outIdx <= j < PIN_EVENTS
             && e.outs[i].status == PinPending && e.outs[j].status == PinPending)
          <==> 0 < e.outIdx < PIN_EVENTS && e.outIdx < e.past.since)
  {
    StartCounted();
    hide Run, Start;
    RunCounted(Start(), ops);
    var e := Run(Start(), ops);
    if 0 < e.outIdx < PIN_EVENTS && e.outIdx < e.past.since {
      assert e.outs[e.outIdx - 1].status == PinPending && e.outs[PIN_EVENTS - 1].status == PinPending;
    }
  }

  lemma {:induction false} LevelsAreTagged(outs: seq<PinEvent>, tags: seq<nat>, q: seq<Out>)
    requires |outs| == |tags|
    requires forall i :: 0 <= i < |outs| && outs[i].status == PinPending ==>
      tags[i] < |q| && q[tags[i]].port == outs[i].port && q[tags[i]].level == outs[i].level
    ensures Below(PendingTags(outs, tags), |q|)
    ensures PendingLevels(outs) == Levels(Outs(q, PendingTags(outs, tags)))
    decreases |outs|
  {
    if outs != [] {
      var k := |outs| - 1;
      LevelsAreTagged(outs[..k], tags[..k], q);
      var ns := PendingTags(outs[..k], tags[..k]);
      hide Levels, Outs;
      if outs[k].status == PinPending {
        assert PendingTags(outs, tags) == ns + [tags[k]];
        LevelsSnoc(q, ns, tags[k]);
      } else {
        assert PendingTags(outs, tags) == ns + [] == ns;
      }
    }
  }

  lemma LevelsSnoc(q: seq<Out>, ns: seq<nat>, n: nat)
    requires Below(ns, |q|) && n < |q|
    ensures Below(ns + [n], |q|)
    ensures Levels(Outs(q, ns + [n])) == Levels(Outs(q, ns)) + [(q[n].port, q[n].level)]
  {
  }

  function Levels(outs: seq<Out>): (r: seq<(nat, nat)>)
    ensures |r| == |outs|
  {
    seq(|outs|, i requires 0 <= i < |outs| => (outs[i].port, outs[i].level))
  }

  /** In every run, what a pass adds to the history of writes is what it writes to the ports: the levels that
      PinEvtDrive of module EngineTasks is proved to write, in that order. */
  lemma PassWritesItsTags(ops: seq<Op>)
    ensures var e := Run(Start(), ops);
      && Below(PendingTags(e.outs, e.past.tags), |e.past.queued|)
      && Drain(e).past.wires == e.past.wires + PendingTags(e.outs, e.past.tags)
      && PendingLevels(e.outs) == Levels(Outs(e.past.queued, PendingTags(e.outs, e.past.tags)))
  {
    StartCounted();
    hide Run, Start, PendingTags, PendingLevels;
    RunCounted(Start(), ops);
    var e := Run(Start(), ops);
    LevelsAreTagged(e.outs, e.past.tags, e.past.queued);
  }
}
