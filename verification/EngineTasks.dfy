/** The C functions of src/pin_seq.c, src/clk_pit.c and src/pin_evt.c on their static arrays, each proved to
    do exactly what the specification function of module Engine says. */
module EngineTasks {
  import opened Pattern
  import opened Engine

  // No entry of the first k has run out.
  predicate NoneDone(clk: seq<ClkEvent>, lo: nat, hi: nat)
    requires lo <= hi <= |clk|
  {
    forall i :: lo <= i < hi ==> clk[i].status != ClkDone
  }

  predicate NoneActive(ins: seq<PinEvent>, lo: nat, hi: nat)
    requires lo <= hi <= |ins|
  {
    forall i :: lo <= i < hi ==> ins[i].status != PinActive
  }

  lemma {:induction false} SkipClk(e: Engine, k: nat, i: nat)
    requires Sized(e) && k <= i <= CLK_EVENTS && NoneDone(e.clk, k, i)
    ensures AbsorbClkFrom(e, k) == AbsorbClkFrom(e, i)
    decreases i - k
  {
    if k < i { SkipClk(e, k + 1, i); }
  }

  lemma AbsorbEnds(e: Engine)
    requires Sized(e)
    ensures AbsorbClkFrom(e, CLK_EVENTS) == e && AbsorbInFrom(e, PIN_EVENTS) == e
  {
  }

  lemma {:induction false} SkipIn(e: Engine, k: nat, i: nat)
    requires Sized(e) && k <= i <= PIN_EVENTS && NoneActive(e.ins, k, i)
    ensures AbsorbInFrom(e, k) == AbsorbInFrom(e, i)
    decreases i - k
  {
    if k < i { SkipIn(e, k + 1, i); }
  }

  class SequenceEngine {
    const slots: array<Slot>       // pin_seq_sequences
    var cursor: nat                // pin_seq_sequence_idx
    const clk: array<ClkEvent>     // clk_pit_events
    var clkIdx: nat                // clk_pit_event_idx
    const ins: array<PinEvent>     // pin_evt_events[IDIR]
    var inIdx: nat                 // pin_evt_event_idx[IDIR]
    const outs: array<PinEvent>    // pin_evt_events[ODIR]
    var outIdx: nat                // pin_evt_event_idx[ODIR]
    ghost var model: Engine        // the same state as one value, with the history

    ghost predicate Valid()
      reads this, slots, clk, ins, outs
    {
      && slots.Length == SLOTS && clk.Length == CLK_EVENTS
      && ins.Length == PIN_EVENTS && outs.Length == PIN_EVENTS && ins != outs
      && model == Engine(slots[..], cursor, clk[..], clkIdx, ins[..], inIdx, outs[..], outIdx, model.trail, model.past)
      && Sized(model)
    }

    constructor ()
      ensures Valid() && model == Start()
      ensures fresh(slots) && fresh(clk) && fresh(ins) && fresh(outs)
    {
      slots := new Slot[SLOTS](_ => Slot(NO_JOB, 0, Inactive));
      clk := new ClkEvent[CLK_EVENTS](_ => ClkEvent(0, 0, ClkInactive));
      ins := new PinEvent[PIN_EVENTS](_ => PinEvent(0, 0, 0, PinInactive));
      outs := new PinEvent[PIN_EVENTS](_ => PinEvent(0, 0, 0, PinInactive));
      cursor, clkIdx, inIdx, outIdx := 0, 0, 0, 0;
      model := Start();
    }

    // ------------------------------------------------------------ clk_pit.c

    method ClkPitPush(ref: nat, hms: nat)
      requires Valid() && ref < SLOTS
      modifies this, clk
      ensures Valid() && model == ClkPush(old(model), ref, hms)
    {
      if clkIdx > CLK_EVENTS - 1 {
        clkIdx := 0;
      }
      clk[clkIdx] := ClkEvent(ref, hms * PRESCALER % WORD, ClkActive);
      clkIdx := clkIdx + 1;
      model := ClkPush(model, ref, hms);
    }

    // The body of the loop of clk_pit_update.
    method ClkPitTick(i: nat)
      requires Valid() && i < CLK_EVENTS
      modifies this, clk
      ensures Valid() && model == Tick(old(model), i)
    {
      var v := clk[i];
      if v.status == ClkActive {
        clk[i] := v.(ticks := if v.ticks == 0 then WORD - 1 else v.ticks - 1);
        if v.ticks == 0 {
          clk[i] := clk[i].(status := ClkDone);
        }
      }
      model := Tick(model, i);
    }

    method ClkPitUpdate()
      requires Valid()
      modifies this, clk
      ensures Valid() && model == TickFrom(old(model), 0)
    {
      for i := 0 to CLK_EVENTS
        invariant Valid() && TickFrom(model, i) == TickFrom(old(model), 0)
      {
        ClkPitTick(i);
      }
    }

    method ClkPitNext() returns (found: bool, event: ClkEvent, ghost at: nat)
      requires Valid()
      modifies this, clk
      ensures Valid()
      ensures found ==> at < CLK_EVENTS && event == old(model.clk)[at] && event.status == ClkDone
      ensures found ==> NoneDone(old(model.clk), 0, at)
      ensures found ==> model == old(model).(clk := old(model.clk)[at := event.(status := ClkInactive)])
      ensures !found ==> model == old(model) && NoneDone(model.clk, 0, CLK_EVENTS)
    {
      var i := 0;
      while i < CLK_EVENTS
        invariant 0 <= i <= CLK_EVENTS && NoneDone(model.clk, 0, i)
        invariant Valid() && model == old(model)
      {
        if clk[i].status == ClkDone {
          event := clk[i];
          clk[i] := event.(status := ClkInactive);
          model := model.(clk := model.clk[i := event.(status := ClkInactive)]);
          return true, event, i;
        }
        i := i + 1;
      }
      return false, clk[0], 0;
    }

    // ------------------------------------------------------------ pin_evt.c

    method PinEvtPush(ref: nat, port: nat, dir: nat, level: nat)
      requires Valid() && ref < SLOTS && dir < 2
      modifies this, ins, outs
      ensures Valid()
      ensures model == if dir == 0 then OutPush(old(model), ref, port, level)
                         else InPush(old(model), ref, port, level)
    {
      var event := PinEvent(ref, port, level, PinPending);
      if dir == 0 {
        if outIdx > PIN_EVENTS - 1 {
          outIdx := 0;
        }
        outs[outIdx] := event;
        outIdx := outIdx + 1;
        model := OutPush(model, ref, port, level);
      } else {
        if inIdx > PIN_EVENTS - 1 {
          inIdx := 0;
        }
        ins[inIdx] := event;
        inIdx := inIdx + 1;
        model := InPush(model, ref, port, level);
      }
    }

    // The body of the second loop of pin_evt_update.
    method PinEvtLook(i: nat, seen: bool)
      requires Valid() && i < PIN_EVENTS
      modifies this, ins
      ensures Valid() && model == Look(old(model), i, seen)
    {
      var v := ins[i];
      if v.status == PinPending {
        if seen {
          ins[i] := v.(status := PinActive);
        }
      }
      model := Look(model, i, seen);
    }

    // The levels written to the ports are returned in the order of the writes.
    method PinEvtUpdate(seen: set<nat>) returns (written: seq<(nat, nat)>)
      requires Valid()
      modifies this, ins, outs
      ensures Valid() && model == PinUpdate(old(model), seen)
      ensures written == PendingLevels(old(model.outs))
    {
      hide *;
      Facts();
      ghost var goal := PinUpdate(model, seen);
      StartLooking(model, seen);
      written := PinEvtDrive();
      Facts();
      for i := 0 to PIN_EVENTS
        invariant Valid() && Sized(model)
        invariant LookFrom(model, i, seen) == goal
      {
        LookStep(model, i, seen);
        PinEvtLook(i, i in seen);
        Facts();
      }
      LookEnd(model, seen);
    }

    // The first loop of pin_evt_update.
    method PinEvtDrive() returns (written: seq<(nat, nat)>)
      requires Valid()
      modifies this, outs
      ensures Valid() && model == Drain(old(model))
      ensures written == PendingLevels(old(model.outs))
    {
      written := [];
      hide PendingLevels;
      ghost var was := outs[..];
      PendingLevelsNone();
      assert was[..0] == [];
      for i := 0 to PIN_EVENTS
        invariant model == old(model) && unchanged(slots) && unchanged(clk) && unchanged(ins)
        invariant unchanged(`cursor) && unchanged(`clkIdx) && unchanged(`inIdx) && unchanged(`outIdx)
        invariant forall k :: 0 <= k < i ==> outs[k] == Driven(was[k])
        invariant forall k :: i <= k < PIN_EVENTS ==> outs[k] == was[k]
        invariant written == PendingLevels(was[..i])
      {
        PendingLevelsStep(was, i);
        if outs[i].status == PinPending {
          written := written + [(outs[i].port, outs[i].level)];
          outs[i] := outs[i].(status := PinInactive);
        }
      }
      assert was[..PIN_EVENTS] == was;
      assert outs[..] == Drained(was);
      model := Drain(model);
    }

    method PinEvtNext() returns (found: bool, event: PinEvent, ghost at: nat)
      requires Valid()
      modifies this, ins
      ensures Valid()
      ensures found ==> at < PIN_EVENTS && event == old(model.ins)[at] && event.status == PinActive
      ensures found ==> NoneActive(old(model.ins), 0, at)
      ensures found ==> model == old(model).(ins := old(model.ins)[at := event.(status := PinInactive)])
      ensures !found ==> model == old(model) && NoneActive(model.ins, 0, PIN_EVENTS)
    {
      var i := 0;
      while i < PIN_EVENTS
        invariant 0 <= i <= PIN_EVENTS && NoneActive(model.ins, 0, i)
        invariant Valid() && model == old(model)
      {
        if ins[i].status == PinActive {
          event := ins[i];
          ins[i] := event.(status := PinInactive);
          model := model.(ins := model.ins[i := event.(status := PinInactive)]);
          return true, event, i;
        }
        i := i + 1;
      }
      return false, ins[0], 0;
    }

    // ------------------------------------------------------------ pin_seq.c

    method SetSlot(idx: nat, s: Slot)
      requires Valid() && idx < SLOTS
      modifies this, slots
      ensures Valid() && model == old(model).(slots := old(model.slots)[idx := s])
    {
      slots[idx] := s;
      model := model.(slots := model.slots[idx := s]);
    }

    // index++ and status = ACTIVE
    method PinSeqAdvance(idx: nat)
      requires Valid() && idx < SLOTS
      modifies this, slots
      ensures Valid() && model == Advance(old(model), idx)
    {
      slots[idx] := slots[idx].(index := slots[idx].index + 1, status := Active);
      model := Advance(model, idx);
    }

    method PinSeqDelay(idx: nat)
      requires Valid() && idx < SLOTS && WellFormed(slots[idx].job)
      modifies this, slots
      ensures Valid() && model == Delayed(old(model), idx)
    {
      var s := slots[idx];
      hide Split, Strtok, Script, Resolve, PortOf, ScaleHms, Numeral, IsSignal, IsDelay, Dir, Level;
      var event := TokenAt(s.job.pattern, s.index);
      CurrentIsToken(s, event);
      if event.Some? {
        TokenOfWellFormed(s, event.value);
        var keys := Strtok(event.value, ':').token;
        if keys.Some? && IsDelay(event.value[0]) {
          PinSeqAdvance(idx);
        }
      }
    }

    method PinSeqSignal(idx: nat, port: nat, level: nat)
      requires Valid() && idx < SLOTS && WellFormed(slots[idx].job)
      modifies this, slots
      ensures Valid() && model == Signalled(old(model), idx, port, level)
    {
      var s := slots[idx];
      hide Split, Strtok, Script, Resolve, PortOf, ScaleHms, Numeral, IsSignal, IsDelay, Dir, Level;
      var event := TokenAt(s.job.pattern, s.index);
      CurrentIsToken(s, event);
      if event.Some? {
        TokenOfWellFormed(s, event.value);
        var keys := Strtok(Strtok(event.value, ':').rest, ':').token;
        if keys.Some? && IsSignal(event.value[0]) {
          if port == PortOf(s.job.signals, event.value[0]) || level == Level(keys.value[0]) {
            PinSeqAdvance(idx);
          }
        }
      }
    }

    method PinSeqEvent(idx: nat)
      requires Valid() && idx < SLOTS && slots[idx].status == Active && WellFormed(slots[idx].job)
      modifies this, slots, clk, ins, outs
      ensures Valid() && model == Fire(old(model), idx)
    {
      hide *;
      Facts();
      var s := slots[idx];
      var event := TokenAt(s.job.pattern, s.index);
      CurrentIsToken(s, event);
      FireMeans(model, idx);
      if event.None? {
        SetSlot(idx, s.(status := Done));
        return;
      }
      TokenOfWellFormed(s, event.value);
      var keys := Strtok(Strtok(event.value, ':').rest, ':').token.value;
      if IsDelay(event.value[0]) {
        SetSlot(idx, s.(status := Pending));
        var hms := GetTicks(event.value[0], keys);
        ClkPitPush(idx, hms);
      } else if IsSignal(event.value[0]) {
        var port := PortOf(s.job.signals, event.value[0]);
        var dir := Dir(keys[0]);
        var level := Level(keys[0]);
        if dir == 1 {
          SetSlot(idx, s.(status := Pending));
        } else if dir == 0 {
          SetSlot(idx, s.(index := s.index + 1));
        }
        PinEvtPush(idx, port, dir, level);
      }
    }

    lemma Facts()
      requires Valid()
      ensures Sized(model) && slots.Length == SLOTS && slots[..] == model.slots
    {
    }

    // The body of the last loop of pin_seq_update.
    method PinSeqVisit(idx: nat)
      requires Valid() && AllWellFormed(model) && idx < SLOTS
      modifies this, slots, clk, ins, outs
      ensures Valid() && model == FireActive(old(model), idx)
    {
      hide Sized, Fire, WellFormed;
      if slots[idx].status == Active {
        PinSeqEvent(idx);
      }
    }

    // The pass of the sequence task: absorb what has happened, then move every active slot.
    method PinSeqUpdate()
      requires Valid() && AllWellFormed(model)
      modifies this, slots, clk, ins, outs
      ensures Valid() && AllWellFormed(model) && model == Update(old(model))
    {
      hide *;
      Facts();
      ghost var was := model;
      UpdateUnfolds(was);
      AbsorbClkEvents();
      AbsorbInEvents();
      Facts();
      for idx := 0 to SLOTS
        invariant Valid() && Sized(model) && AllWellFormed(model)
        invariant FireFrom(model, idx) == Update(was)
      {
        FireStep(model, idx);
        PinSeqVisit(idx);
        Facts();
      }
      FireEnd(model);
    }

    // The first loop of pin_seq_update.
    method AbsorbClkEvents()
      requires Valid() && AllWellFormed(model)
      modifies this, slots, clk
      ensures Valid() && AllWellFormed(model) && model == AbsorbClkFrom(old(model), 0)
    {
      hide Delayed, AbsorbClk, AbsorbClkFrom, WellFormed;
      ghost var k: nat := 0;
      var found := true;
      while found
        invariant Valid() && AllWellFormed(model)
        invariant k <= CLK_EVENTS && NoneDone(model.clk, 0, k)
        invariant AbsorbClkFrom(model, k) == AbsorbClkFrom(old(model), 0)
        invariant !found ==> NoneDone(model.clk, 0, CLK_EVENTS)
        decreases found, CLK_EVENTS - k
      {
        ghost var before := model;
        var event: ClkEvent;
        ghost var at: nat;
        found, event, at := ClkPitNext();
        if found {
          hide Sized, Valid;
          assert k <= at;
          SkipClk(before, k, at);
          ClkStep(before, at);
          PinSeqDelay(event.ref);
          k := at + 1;
        }
      }
      SkipClk(model, k, CLK_EVENTS);
      AbsorbEnds(model);
    }

    // The second loop of pin_seq_update.
    method AbsorbInEvents()
      requires Valid() && AllWellFormed(model)
      modifies this, slots, ins
      ensures Valid() && AllWellFormed(model) && model == AbsorbInFrom(old(model), 0)
    {
      hide Signalled, AbsorbIn, AbsorbInFrom, WellFormed;
      ghost var k: nat := 0;
      var found := true;
      while found
        invariant Valid() && AllWellFormed(model)
        invariant k <= PIN_EVENTS && NoneActive(model.ins, 0, k)
        invariant AbsorbInFrom(model, k) == AbsorbInFrom(old(model), 0)
        invariant !found ==> NoneActive(model.ins, 0, PIN_EVENTS)
        decreases found, PIN_EVENTS - k
      {
        ghost var before := model;
        var event: PinEvent;
        ghost var at: nat;
        found, event, at := PinEvtNext();
        if found {
          hide Sized, Valid;
          assert k <= at;
          SkipIn(before, k, at);
          InStep(before, at);
          PinSeqSignal(event.ref, event.port, event.level);
          k := at + 1;
        }
      }
      SkipIn(model, k, PIN_EVENTS);
      AbsorbEnds(model);
    }

    method PinSeqPush(job: Job)
      requires Valid() && AllWellFormed(model) && WellFormed(job)
      modifies this, slots
      ensures Valid() && AllWellFormed(model) && model == Push(old(model), job)
    {
      if cursor > SLOTS - 1 {
        cursor := 0;
      }
      ghost var i, goal := cursor, Push(model, job);
      slots[cursor] := Slot(job, 0, Active);
      cursor := cursor + 1;
      assert slots[..] == goal.slots;
      while cursor < SLOTS && slots[cursor].status != Inactive
        invariant i < cursor <= SLOTS && slots[..] == goal.slots && model == old(model)
        invariant NextFree(goal.slots, cursor) == goal.cursor
        invariant unchanged(`clkIdx) && unchanged(`inIdx) && unchanged(`outIdx)
      {
        cursor := cursor + 1;
      }
      model := goal;
    }

    method PinSeqNext() returns (found: bool, sequence: Slot)
      requires Valid()
      modifies this, slots
      ensures Valid() && model == Next(old(model))
      ensures found == (FirstDone(old(model.slots), 0) < SLOTS)
      ensures found ==> sequence == old(model.slots)[FirstDone(old(model.slots), 0)]
    {
      var idx := 0;
      while idx < SLOTS
        invariant 0 <= idx <= SLOTS && Valid() && model == old(model)
        invariant FirstDone(model.slots, idx) == FirstDone(model.slots, 0)
      {
        if slots[idx].status == Done {
          sequence := slots[idx];
          SetSlot(idx, sequence.(status := Inactive));
          return true, sequence;
        }
        idx := idx + 1;
      }
      return false, slots[0];
    }

    method QueuesFlush()
      requires Valid()
      modifies this, slots, clk, ins, outs
      ensures Valid() && model == Flush(old(model))
    {
      forall k | 0 <= k < PIN_EVENTS { ins[k] := ins[k].(status := PinInactive); }
      forall k | 0 <= k < PIN_EVENTS { outs[k] := outs[k].(status := PinInactive); }
      inIdx, outIdx := 0, 0;
      forall k | 0 <= k < CLK_EVENTS { clk[k] := clk[k].(status := ClkInactive); }
      clkIdx := 0;
      forall k | 0 <= k < SLOTS { slots[k] := slots[k].(status := Inactive); }
      cursor := 0;
      model := Flush(model);
    }
  }

  ghost predicate AllWellFormed(e: Engine) {
    forall k :: 0 <= k < |e.slots| ==> WellFormed(e.slots[k].job)
  }

  lemma FireMeans(e: Engine, idx: nat)
    requires Sized(e) && idx < SLOTS
    ensures var s := e.slots[idx];
      var waiting, moved :=
        e.(slots := e.slots[idx := s.(status := Pending)]), e.(slots := e.slots[idx := s.(index := s.index + 1)]);
      && Sized(waiting) && Sized(moved)
      && match Current(s)
         case None => Fire(e, idx) == e.(slots := e.slots[idx := s.(status := Done)])
         case Some(Wait(hms)) => Fire(e, idx) == ClkPush(waiting, idx, hms)
         case Some(Sense(port, level)) => Fire(e, idx) == InPush(waiting, idx, port, level)
         case Some(Drive(port, level)) => Fire(e, idx) == OutPush(moved, idx, port, level)
         case Some(Stuck) => true
  {
  }

  lemma StartLooking(e: Engine, seen: set<nat>)
    requires Sized(e)
    ensures var m := Drain(e); Sized(m) && PinUpdate(e, seen) == LookFrom(m, 0, seen)
  {
  }

  lemma LookStep(e: Engine, i: nat, seen: set<nat>)
    requires Sized(e) && i < PIN_EVENTS
    ensures LookFrom(e, i, seen) == LookFrom(Look(e, i, i in seen), i + 1, seen)
  {
  }

  lemma LookEnd(e: Engine, seen: set<nat>)
    requires Sized(e)
    ensures LookFrom(e, PIN_EVENTS, seen) == e
  {
  }

  lemma UpdateUnfolds(e: Engine)
    requires Sized(e)
    ensures Update(e) == FireFrom(AbsorbInFrom(AbsorbClkFrom(e, 0), 0), 0)
  {
  }

  lemma FireStep(e: Engine, idx: nat)
    requires Sized(e) && idx < SLOTS && AllWellFormed(e)
    ensures FireFrom(e, idx) == FireFrom(FireActive(e, idx), idx + 1)
    ensures FireActive(e, idx) == if e.slots[idx].status == Active then Fire(e, idx) else e
    ensures AllWellFormed(FireActive(e, idx))
  {
    hide Script, WellFormed;
  }

  lemma FireEnd(e: Engine)
    requires Sized(e)
    ensures FireFrom(e, SLOTS) == e
  {
  }

  lemma ClkStep(e: Engine, i: nat)
    requires Sized(e) && AllWellFormed(e) && i < CLK_EVENTS && e.clk[i].status == ClkDone && NoneDone(e.clk, 0, i)
    ensures AbsorbClkFrom(e, i) == AbsorbClkFrom(AbsorbClk(e, i), i + 1)
    ensures var m := e.(clk := e.clk[i := e.clk[i].(status := ClkInactive)]);
      Sized(m) && AbsorbClk(e, i) == Delayed(m, e.clk[i].ref)
    ensures AllWellFormed(AbsorbClk(e, i)) && NoneDone(AbsorbClk(e, i).clk, 0, i + 1)
  {
    hide Script, WellFormed;
  }

  lemma InStep(e: Engine, i: nat)
    requires Sized(e) && AllWellFormed(e) && i < PIN_EVENTS && e.ins[i].status == PinActive && NoneActive(e.ins, 0, i)
    ensures AbsorbInFrom(e, i) == AbsorbInFrom(AbsorbIn(e, i), i + 1)
    ensures var v, m := e.ins[i], e.(ins := e.ins[i := e.ins[i].(status := PinInactive)]);
      Sized(m) && AbsorbIn(e, i) == Signalled(m, v.ref, v.port, v.level)
    ensures AllWellFormed(AbsorbIn(e, i)) && NoneActive(AbsorbIn(e, i).ins, 0, i + 1)
  {
    hide Script, WellFormed;
  }

  lemma CurrentIsToken(s: Slot, event: Option<string>)
    requires event == var ts := Split(s.job.pattern, '|'); if s.index < |ts| then Some(ts[s.index]) else None
    ensures event.None? <==> Current(s).None?
  {
  }

  // What the two strtok calls on ':' find in a token of a well-formed pattern.
  lemma TokenOfWellFormed(s: Slot, event: string)
    requires WellFormed(s.job) && s.index < |Split(s.job.pattern, '|')|
    requires event == Split(s.job.pattern, '|')[s.index]
    ensures Current(s) == Some(Resolve(s.job, event))
    ensures event != "" && Strtok(event, ':').token.Some? && (IsDelay(event[0]) || IsSignal(event[0]))
    ensures var keys := Strtok(Strtok(event, ':').rest, ':').token;
      && keys.Some? && keys.value != ""
      && Resolve(s.job, event) ==
         if IsDelay(event[0]) then Wait(ScaleHms(event[0], Numeral(keys.value)))
         else if Dir(keys.value[0]) == 0 then Drive(PortOf(s.job.signals, event[0]), Level(keys.value[0]))
         else Sense(PortOf(s.job.signals, event[0]), Level(keys.value[0]))
  {
    assert !Script(s.job)[s.index].Stuck?;
    var first := Strtok(event, ':');
    assert Split(event, ':') == [first.token.value] + Split(first.rest, ':');
    var second := Strtok(first.rest, ':');
    assert Split(first.rest, ':') == [second.token.value] + Split(second.rest, ':');
  }

  lemma PendingLevelsNone()
    ensures PendingLevels([]) == []
  {
  }

  lemma PendingLevelsStep(outs: seq<PinEvent>, i: nat)
    requires i < |outs|
    ensures PendingLevels(outs[..i + 1]) == PendingLevels(outs[..i])
      + (if outs[i].status == PinPending then [(outs[i].port, outs[i].level)] else [])
  {
    assert outs[..i + 1][..i] == outs[..i];
  }
}
