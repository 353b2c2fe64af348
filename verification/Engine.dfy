/** The sequence engine: src/pin_seq.c with the two event rings it feeds, src/clk_pit.c and src/pin_evt.c.

    One value holds the static arrays of the three files, and two history variables that nothing reads. `trail`
    says, for every slot, what has been carried out for it since it was last pushed. `past` follows the outputs:
    which were queued, by whom, and in which order they were written to their ports. The functions follow the C
    functions of the same name; the loops of the update tasks are folds over the ring entries or slots. */
module Engine {
  import opened Pattern

  const SLOTS := 128       // PIN_SEQ_MAX_SEQUENCES
  const CLK_EVENTS := 64   // CLK_PIT_MAX_EVENTS
  const PIN_EVENTS := 256  // PIN_EVT_MAX_EVENTS
  const FAILURE := 0xFF

  // ---------------------------------------------------------------- jobs

  datatype Signal = Signal(name: char, port: nat)

  // What pin_seq_push is given: a sequence, and the signals its machine has for the sequence's target.
  datatype Job = Job(id: nat, pattern: string, signals: seq<Signal>)

  // machines_signal: the port of the first signal of that name.
  function PortOf(signals: seq<Signal>, name: char): nat {
    if signals == [] then FAILURE
    else if signals[0].name == name then signals[0].port
    else PortOf(signals[1..], name)
  }

  datatype Action = Wait(hms: nat) | Sense(port: nat, level: nat) | Drive(port: nat, level: nat) | Stuck

  function Resolve(job: Job, event: string): Action {
    match ParseToken(event)
    case Delay(hms) => Wait(hms)
    case Input(name, level) => Sense(PortOf(job.signals, name), level)
    case Output(name, level) => Drive(PortOf(job.signals, name), level)
    case Malformed => Stuck
  }

  // The job as a list of actions.
  function Script(job: Job): (a: seq<Action>)
    ensures |a| == |Split(job.pattern, '|')|
  {
    var ts := Split(job.pattern, '|');
    seq(|ts|, i requires 0 <= i < |ts| => Resolve(job, ts[i]))
  }

  predicate WellFormed(job: Job) {
    forall i :: 0 <= i < |Script(job)| ==> !Script(job)[i].Stuck?
  }

  // ---------------------------------------------------------------- the plain interpreter

  datatype Effect =
    | Armed(hms: nat) | Rang
    | Awaited(port: nat, level: nat) | Saw(port: nat, level: nat)
    | Resumed
    | Queued(port: nat, level: nat)

  // What carrying out one action amounts to, from start to end. For an output that is queueing it.
  function Carry(a: Action): seq<Effect> {
    match a
    case Wait(hms) => [Armed(hms), Rang, Resumed]
    case Sense(port, level) => [Awaited(port, level), Saw(port, level), Resumed]
    case Drive(port, level) => [Queued(port, level)]
    case Stuck => []
  }

  // A one-sequence interpreter: the first k actions, one after the other.
  function Interpret(script: seq<Action>, k: nat): seq<Effect>
    requires k <= |script|
  {
    if k == 0 then [] else Interpret(script, k - 1) + Carry(script[k - 1])
  }

  // ---------------------------------------------------------------- state

  datatype Status = Inactive | Active | Pending | Done
  datatype Slot = Slot(job: Job, index: nat, status: Status)

  datatype ClkStatus = ClkInactive | ClkActive | ClkDone
  datatype ClkEvent = ClkEvent(ref: nat, ticks: nat, status: ClkStatus)

  datatype PinStatus = PinInactive | PinPending | PinActive
  datatype PinEvent = PinEvent(ref: nat, port: nat, level: nat, status: PinStatus)

  // An output that was queued: for which push, by its how-manieth token, and what.
  datatype Out = Out(owner: nat, token: nat, port: nat, level: nat)

  // jobs: one blank per slot, then every push so far. owner: which of them holds a slot. queued: every output so far.
  // tags: which of them an entry of the output ring holds. wires: the writes to ports so far, as numbers of
  // outputs. since: the outputs queued since the last pass over the ring.
  datatype Past = Past(jobs: seq<Job>, owner: seq<nat>, queued: seq<Out>, tags: seq<nat>, wires: seq<nat>, since: nat)

  datatype Engine = Engine(
    slots: seq<Slot>, cursor: nat,
    clk: seq<ClkEvent>, clkIdx: nat,
    ins: seq<PinEvent>, inIdx: nat,
    outs: seq<PinEvent>, outIdx: nat,
    trail: seq<seq<Effect>>, past: Past)

  predicate Sized(e: Engine) {
    && |e.slots| == SLOTS && e.cursor <= SLOTS && |e.trail| == SLOTS
    && |e.past.owner| == SLOTS && |e.past.tags| == PIN_EVENTS
    && |e.clk| == CLK_EVENTS && e.clkIdx <= CLK_EVENTS
    && |e.ins| == PIN_EVENTS && e.inIdx <= PIN_EVENTS
    && |e.outs| == PIN_EVENTS && e.outIdx <= PIN_EVENTS
    && (forall i :: 0 <= i < CLK_EVENTS ==> e.clk[i].ref < SLOTS)
    && (forall i :: 0 <= i < PIN_EVENTS ==> e.ins[i].ref < SLOTS)
  }

  function Current(s: Slot): Option<Action> {
    if s.index < |Script(s.job)| then Some(Script(s.job)[s.index]) else None
  }

  function Log(e: Engine, idx: nat, x: Effect): Engine
    requires Sized(e) && idx < SLOTS
  {
    e.(trail := e.trail[idx := e.trail[idx] + [x]])
  }

  // ---------------------------------------------------------------- clk_pit.c

  function ClkSlot(e: Engine): (i: nat)
    requires Sized(e)
    ensures i < CLK_EVENTS
  {
    if e.clkIdx > CLK_EVENTS - 1 then 0 else e.clkIdx
  }

  function ClkPush(e: Engine, ref: nat, hms: nat): (r: Engine)
    requires Sized(e) && ref < SLOTS
    ensures Sized(r)
  {
    var i := ClkSlot(e);
    Log(e.(clk := e.clk[i := ClkEvent(ref, Ticks(hms), ClkActive)], clkIdx := i + 1), ref, Armed(hms))
  }

  // One entry of clk_pit_update; the counter wraps when an expired entry is decremented.
  function Tick(e: Engine, i: nat): (r: Engine)
    requires Sized(e) && i < CLK_EVENTS
    ensures Sized(r)
  {
    var v := e.clk[i];
    if v.status != ClkActive then e
    else if v.ticks == 0 then
      Log(e.(clk := e.clk[i := v.(ticks := WORD - 1, status := ClkDone)]), v.ref, Rang)
    else e.(clk := e.clk[i := v.(ticks := v.ticks - 1)])
  }

  function TickFrom(e: Engine, i: nat): (r: Engine)
    requires Sized(e) && i <= CLK_EVENTS
    ensures Sized(r)
    decreases CLK_EVENTS - i
  {
    if i == CLK_EVENTS then e else TickFrom(Tick(e, i), i + 1)
  }

  // ---------------------------------------------------------------- pin_evt.c

  function RingSlot(idx: nat): (i: nat)
    requires idx <= PIN_EVENTS
    ensures i < PIN_EVENTS
  {
    if idx > PIN_EVENTS - 1 then 0 else idx
  }

  function InPush(e: Engine, ref: nat, port: nat, level: nat): (r: Engine)
    requires Sized(e) && ref < SLOTS
    ensures Sized(r)
  {
    var i := RingSlot(e.inIdx);
    Log(e.(ins := e.ins[i := PinEvent(ref, port, level, PinPending)], inIdx := i + 1), ref, Awaited(port, level))
  }

  function OutPush(e: Engine, ref: nat, port: nat, level: nat): (r: Engine)
    requires Sized(e) && ref < SLOTS
    ensures Sized(r)
  {
    var i := RingSlot(e.outIdx);
    var out := Out(e.past.owner[ref], e.slots[ref].index, port, level);
    Log(e.(outs := e.outs[i := PinEvent(ref, port, level, PinPending)], outIdx := i + 1,
           past := Enqueued(e.past, i, out)), ref, Queued(port, level))
  }

  function Enqueued(p: Past, i: nat, out: Out): Past
    requires i < |p.tags|
  {
    p.(queued := p.queued + [out], tags := p.tags[i := |p.queued|], since := p.since + 1)
  }

  // One input entry of pin_evt_update; seen says whether port_look_for_status found the level.
  function Look(e: Engine, i: nat, seen: bool): (r: Engine)
    requires Sized(e) && i < PIN_EVENTS
    ensures Sized(r)
  {
    var v := e.ins[i];
    if v.status == PinPending && seen then
      Log(e.(ins := e.ins[i := v.(status := PinActive)]), v.ref, Saw(v.port, v.level))
    else e
  }

  function LookFrom(e: Engine, i: nat, seen: set<nat>): (r: Engine)
    requires Sized(e) && i <= PIN_EVENTS
    ensures Sized(r)
    decreases PIN_EVENTS - i
  {
    if i == PIN_EVENTS then e else LookFrom(Look(e, i, i in seen), i + 1, seen)
  }

  // The output half of pin_evt_update: every pending level is written to its port.
  function Drained(outs: seq<PinEvent>): (r: seq<PinEvent>)
    ensures |r| == |outs|
  {
    seq(|outs|, i requires 0 <= i < |outs| => Driven(outs[i]))
  }

  function Driven(v: PinEvent): PinEvent {
    if v.status == PinPending then v.(status := PinInactive) else v
  }

  // The outputs that pending entries hold, in the order of the ring.
  function PendingTags(outs: seq<PinEvent>, tags: seq<nat>): seq<nat>
    requires |outs| == |tags|
  {
    if outs == [] then []
    else
      var k := |outs| - 1;
      PendingTags(outs[..k], tags[..k]) + if outs[k].status == PinPending then [tags[k]] else []
  }

  // The levels a pass over the ring writes to the ports, in its order.
  function PendingLevels(outs: seq<PinEvent>): seq<(nat, nat)> {
    if outs == [] then []
    else
      PendingLevels(outs[..|outs| - 1])
      + (var v := outs[|outs| - 1]; if v.status == PinPending then [(v.port, v.level)] else [])
  }

  function Drain(e: Engine): (r: Engine)
    requires Sized(e)
    ensures Sized(r)
  {
    e.(outs := Drained(e.outs),
       past := e.past.(wires := e.past.wires + PendingTags(e.outs, e.past.tags), since := 0))
  }

  function PinUpdate(e: Engine, seen: set<nat>): (r: Engine)
    requires Sized(e)
    ensures Sized(r)
  {
    LookFrom(Drain(e), 0, seen)
  }

  // ---------------------------------------------------------------- pin_seq.c

  function Advance(e: Engine, idx: nat): (r: Engine)
    requires Sized(e) && idx < SLOTS
    ensures Sized(r)
  {
    var s := e.slots[idx];
    Log(e.(slots := e.slots[idx := s.(index := s.index + 1, status := Active)]), idx, Resumed)
  }

  // pin_seq_delay
  function Delayed(e: Engine, idx: nat): (r: Engine)
    requires Sized(e) && idx < SLOTS
    ensures Sized(r)
  {
    match Current(e.slots[idx])
    case Some(Wait(_)) => Advance(e, idx)
    case _ => e
  }

  // pin_seq_signal, which accepts an event whose port or whose level agrees with the token.
  function Signalled(e: Engine, idx: nat, port: nat, level: nat): (r: Engine)
    requires Sized(e) && idx < SLOTS
    ensures Sized(r)
  {
    match Current(e.slots[idx])
    case Some(Sense(p, l)) => if port == p || level == l then Advance(e, idx) else e
    case Some(Drive(p, l)) => if port == p || level == l then Advance(e, idx) else e
    case _ => e
  }

  // pin_seq_event on an active slot
  function Fire(e: Engine, idx: nat): (r: Engine)
    requires Sized(e) && idx < SLOTS
    ensures Sized(r)
  {
    var s := e.slots[idx];
    match Current(s)
    case None => e.(slots := e.slots[idx := s.(status := Done)])
    case Some(Wait(hms)) => ClkPush(e.(slots := e.slots[idx := s.(status := Pending)]), idx, hms)
    case Some(Sense(port, level)) => InPush(e.(slots := e.slots[idx := s.(status := Pending)]), idx, port, level)
    case Some(Drive(port, level)) => OutPush(e.(slots := e.slots[idx := s.(index := s.index + 1)]), idx, port, level)
    case Some(Stuck) => e
  }

  // clk_pit_next followed by pin_seq_delay, for ring entry i.
  function AbsorbClk(e: Engine, i: nat): (r: Engine)
    requires Sized(e) && i < CLK_EVENTS
    ensures Sized(r)
  {
    var v := e.clk[i];
    if v.status == ClkDone then Delayed(e.(clk := e.clk[i := v.(status := ClkInactive)]), v.ref) else e
  }

  // pin_evt_next followed by pin_seq_signal, for ring entry i.
  function AbsorbIn(e: Engine, i: nat): (r: Engine)
    requires Sized(e) && i < PIN_EVENTS
    ensures Sized(r)
  {
    var v := e.ins[i];
    if v.status == PinActive then
      Signalled(e.(ins := e.ins[i := v.(status := PinInactive)]), v.ref, v.port, v.level)
    else e
  }

  function FireActive(e: Engine, idx: nat): (r: Engine)
    requires Sized(e) && idx < SLOTS
    ensures Sized(r)
  {
    if e.slots[idx].status == Active then Fire(e, idx) else e
  }

  function AbsorbClkFrom(e: Engine, i: nat): (r: Engine)
    requires Sized(e) && i <= CLK_EVENTS
    ensures Sized(r)
    decreases CLK_EVENTS - i
  {
    if i == CLK_EVENTS then e else AbsorbClkFrom(AbsorbClk(e, i), i + 1)
  }

  function AbsorbInFrom(e: Engine, i: nat): (r: Engine)
    requires Sized(e) && i <= PIN_EVENTS
    ensures Sized(r)
    decreases PIN_EVENTS - i
  {
    if i == PIN_EVENTS then e else AbsorbInFrom(AbsorbIn(e, i), i + 1)
  }

  function FireFrom(e: Engine, idx: nat): (r: Engine)
    requires Sized(e) && idx <= SLOTS
    ensures Sized(r)
    decreases SLOTS - idx
  {
    if idx == SLOTS then e else FireFrom(FireActive(e, idx), idx + 1)
  }

  // The two event drains at the head of pin_seq_update.
  function Absorbed(e: Engine): (r: Engine)
    requires Sized(e)
    ensures Sized(r)
  {
    AbsorbInFrom(AbsorbClkFrom(e, 0), 0)
  }

  // pin_seq_update
  function Update(e: Engine): (r: Engine)
    requires Sized(e)
    ensures Sized(r)
  {
    FireFrom(Absorbed(e), 0)
  }

  // The scan for the next free slot at the end of pin_seq_push, stopped one past the table.
  function NextFree(slots: seq<Slot>, k: nat): (r: nat)
    requires k <= |slots|
    ensures k <= r <= |slots|
    ensures r < |slots| ==> slots[r].status == Inactive
    ensures forall i :: k <= i < r ==> slots[i].status != Inactive
    decreases |slots| - k
  {
    if k == |slots| || slots[k].status == Inactive then k else NextFree(slots, k + 1)
  }

  function PushSlot(e: Engine): (i: nat)
    requires Sized(e)
    ensures i < SLOTS
  {
    if e.cursor > SLOTS - 1 then 0 else e.cursor
  }

  // pin_seq_push
  function Push(e: Engine, job: Job): (r: Engine)
    requires Sized(e)
    ensures Sized(r)
  {
    var i := PushSlot(e);
    var slots := e.slots[i := Slot(job, 0, Active)];
    e.(slots := slots, cursor := NextFree(slots, i + 1), trail := e.trail[i := []],
       past := e.past.(jobs := e.past.jobs + [job], owner := e.past.owner[i := |e.past.jobs|]))
  }

  // The first slot pin_seq_next reports, or the size of the table.
  function FirstDone(slots: seq<Slot>, k: nat): (r: nat)
    requires k <= |slots|
    ensures k <= r <= |slots|
    ensures r < |slots| ==> slots[r].status == Done
    ensures forall i :: k <= i < r ==> slots[i].status != Done
    decreases |slots| - k
  {
    if k == |slots| || slots[k].status == Done then k else FirstDone(slots, k + 1)
  }

  // pin_seq_next
  function Next(e: Engine): (r: Engine)
    requires Sized(e)
    ensures Sized(r)
  {
    var i := FirstDone(e.slots, 0);
    if i == SLOTS then e else e.(slots := e.slots[i := e.slots[i].(status := Inactive)])
  }

  // queues_flush
  function Flush(e: Engine): (r: Engine)
    requires Sized(e)
    ensures Sized(r)
  {
    e.(slots := seq(SLOTS, i requires 0 <= i < SLOTS => e.slots[i].(status := Inactive)), cursor := 0,
       clk := seq(CLK_EVENTS, i requires 0 <= i < CLK_EVENTS => e.clk[i].(status := ClkInactive)), clkIdx := 0,
       ins := seq(PIN_EVENTS, i requires 0 <= i < PIN_EVENTS => e.ins[i].(status := PinInactive)), inIdx := 0,
       outs := seq(PIN_EVENTS, i requires 0 <= i < PIN_EVENTS => e.outs[i].(status := PinInactive)), outIdx := 0,
       past := e.past.(since := 0))
  }

  // ---------------------------------------------------------------- runs

  // One pass of each task, and the two calls the execution service makes.
  datatype Op = DoPush(job: Job) | DoNext | DoUpdate | DoTick | DoPins(seen: set<nat>) | DoFlush

  function Step(e: Engine, op: Op): (r: Engine)
    requires Sized(e)
    ensures Sized(r)
  {
    match op
    case DoPush(job) => Push(e, job)
    case DoNext => Next(e)
    case DoUpdate => Update(e)
    case DoTick => TickFrom(e, 0)
    case DoPins(seen) => PinUpdate(e, seen)
    case DoFlush => Flush(e)
  }

  function Run(e: Engine, ops: seq<Op>): (r: Engine)
    requires Sized(e)
    ensures Sized(r)
    decreases |ops|
  {
    if ops == [] then e else Run(Step(e, ops[0]), ops[1..])
  }

  const NO_JOB := Job(0, "", [])

  // The static arrays as the C runtime leaves them.
  function Start(): (e: Engine)
    ensures Sized(e)
  {
    Engine(seq(SLOTS, _ => Slot(NO_JOB, 0, Inactive)), 0,
           seq(CLK_EVENTS, _ => ClkEvent(0, 0, ClkInactive)), 0,
           seq(PIN_EVENTS, _ => PinEvent(0, 0, 0, PinInactive)), 0,
           seq(PIN_EVENTS, _ => PinEvent(0, 0, 0, PinInactive)), 0,
           seq(SLOTS, _ => []),
           Past(seq(SLOTS, _ => NO_JOB), seq(SLOTS, i => i), [], seq(PIN_EVENTS, _ => 0), [], 0))
  }
}
