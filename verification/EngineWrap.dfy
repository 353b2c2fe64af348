/** A run of the engine from its start in which nothing is overrun, and yet a port is written in reverse: two
    outputs of one sequence queued on either side of the wrap, with one pass over the ring for both. */
module EngineWrap {
  import opened Pattern
  import opened Engine
  import opened EngineProofs
  import opened EngineOutputs
  import opened EnginePorts

  // One output, and two: a low level, then a high one.
  function One(port: nat): Job {
    Job(0, "S:L", [Signal('S', port)])
  }

  function Two(port: nat): Job {
    Job(0, "S:L|S:H", [Signal('S', port)])
  }

  lemma Token(level: char, signals: seq<Signal>, port: nat)
    requires level == 'L' || level == 'H'
    requires signals == [Signal('S', port)]
    ensures Resolve(Job(0, "", signals), "S:" + [level]) == Drive(port, if level == 'H' then 1 else 0)
  {
    var ts := ["S", [level]];
    assert ts[1..] == [[level]];
    assert Join([[level]], ':') == [level];
    assert Join(ts, ':') == "S:" + [level];
    SplitOfJoin(ts, ':');
  }

  lemma ScriptAt(job: Job, ts: seq<string>)
    requires Split(job.pattern, '|') == ts
    ensures |Script(job)| == |ts| && forall k :: 0 <= k < |ts| ==> Script(job)[k] == Resolve(job, ts[k])
  {
    hide Split, Resolve;
  }

  lemma ScriptOfOne(port: nat)
    ensures Script(One(port)) == [Drive(port, 0)]
  {
    hide Script, Split, Resolve;
    SplitOfOne(port);
    ScriptAt(One(port), ["S:L"]);
    assert "S:" + ['L'] == "S:L";
    Token('L', One(port).signals, port);
    ResolveOnly(One(port), "S:L");
  }

  lemma SplitOfOne(port: nat)
    ensures Split(One(port).pattern, '|') == ["S:L"]
  {
    hide Split;
    var ts := ["S:L"];
    assert Join(ts, '|') == "S:L";
    SplitOfJoin(ts, '|');
  }

  lemma ScriptOfTwo(port: nat)
    ensures Script(Two(port)) == [Drive(port, 0), Drive(port, 1)]
  {
    hide Script, Split, Resolve;
    SplitOfTwo(port);
    ScriptAt(Two(port), ["S:L", "S:H"]);
    assert "S:" + ['L'] == "S:L" && "S:" + ['H'] == "S:H";
    Token('L', Two(port).signals, port);
    Token('H', Two(port).signals, port);
    ResolveOnly(Two(port), "S:L");
    ResolveOnly(Two(port), "S:H");
  }

  lemma SplitOfTwo(port: nat)
    ensures Split(Two(port).pattern, '|') == ["S:L", "S:H"]
  {
    hide Split;
    var ts := ["S:L", "S:H"];
    assert ts[1..] == ["S:H"];
    assert Join(["S:H"], '|') == "S:H";
    assert Join(ts, '|') == "S:L|S:H";
    SplitOfJoin(ts, '|');
  }

  // A token means the same in every pattern.
  lemma ResolveOnly(job: Job, token: string)
    ensures Resolve(job, token) == Resolve(Job(0, "", job.signals), token)
  {
  }

  // ---------------------------------------------------------------- one sequence at a time

  // Nothing goes on outside slot i, and no event waits.
  ghost predicate Solo(e: Engine, i: nat) {
    && Sized(e) && i < SLOTS
    && (forall k :: 0 <= k < SLOTS && k != i ==> e.slots[k].status == Inactive)
    && (forall k :: 0 <= k < CLK_EVENTS ==> e.clk[k].status == ClkInactive)
    && (forall k :: 0 <= k < PIN_EVENTS ==> e.ins[k].status == PinInactive)
  }

  ghost predicate NoOutputs(e: Engine)
    requires Sized(e)
  {
    forall k :: 0 <= k < PIN_EVENTS ==> e.outs[k].status != PinPending
  }

  ghost predicate Idle(e: Engine) {
    Solo(e, 0) && e.slots[0].status == Inactive && NoOutputs(e)
  }

  lemma {:induction false} NoClk(e: Engine, k: nat)
    requires Sized(e) && k <= CLK_EVENTS && forall i :: 0 <= i < CLK_EVENTS ==> e.clk[i].status == ClkInactive
    ensures AbsorbClkFrom(e, k) == e
    decreases CLK_EVENTS - k
  {
    if k < CLK_EVENTS { NoClk(e, k + 1); }
  }

  lemma {:induction false} NoIn(e: Engine, k: nat)
    requires Sized(e) && k <= PIN_EVENTS && forall i :: 0 <= i < PIN_EVENTS ==> e.ins[i].status == PinInactive
    ensures AbsorbInFrom(e, k) == e
    decreases PIN_EVENTS - k
  {
    if k < PIN_EVENTS { NoIn(e, k + 1); }
  }

  lemma {:induction false} NoLook(e: Engine, k: nat)
    requires Sized(e) && k <= PIN_EVENTS && forall i :: 0 <= i < PIN_EVENTS ==> e.ins[i].status == PinInactive
    ensures LookFrom(e, k, {}) == e
    decreases PIN_EVENTS - k
  {
    if k < PIN_EVENTS { NoLook(e, k + 1); }
  }

  lemma {:induction false} NoFire(e: Engine, k: nat)
    requires Sized(e) && k <= SLOTS && forall i :: k <= i < SLOTS ==> e.slots[i].status != Active
    ensures FireFrom(e, k) == e && FireFits(e, k)
    decreases SLOTS - k
  {
    if k < SLOTS { NoFire(e, k + 1); }
  }

  lemma {:induction false} OneFires(e: Engine, i: nat, k: nat)
    requires Sized(e) && k <= i < SLOTS && e.slots[i].status == Active && Fits(e, i)
    requires forall j :: k <= j < SLOTS && j != i ==> e.slots[j].status != Active
    requires forall j :: i < j < SLOTS ==> Fire(e, i).slots[j].status != Active
    ensures FireFrom(e, k) == Fire(e, i) && FireFits(e, k)
    decreases i - k
  {
    hide Fire, Fits;
    if k < i {
      OneFires(e, i, k + 1);
    } else {
      NoFire(Fire(e, i), i + 1);
    }
  }

  lemma FireSolo(e: Engine, i: nat)
    requires Solo(e, i) && e.slots[i].status == Active
    requires match Current(e.slots[i]) case Some(a) => a.Drive? case None => true
    ensures Fits(e, i) && Solo(Fire(e, i), i)
  {
    hide Script;
  }

  lemma SoloUpdate(e: Engine, i: nat)
    requires Solo(e, i) && e.slots[i].status == Active
    requires match Current(e.slots[i]) case Some(a) => a.Drive? case None => true
    ensures CleanStep(e, DoUpdate) && Update(e) == Fire(e, i) && Solo(Fire(e, i), i)
  {
    hide Fire, Fits, FireFrom, FireFits, AbsorbInFrom, AbsorbClkFrom;
    FireSolo(e, i);
    NoClk(e, 0);
    NoIn(e, 0);
    OneFires(e, i, 0);
  }

  // ---------------------------------------------------------------- one round

  function Round(job: Job): seq<Op> {
    [DoPush(job), DoUpdate, DoPins({}), DoUpdate, DoNext]
  }

  lemma StartRound(e: Engine, job: Job)
    requires Idle(e)
    ensures var r, i := Push(e, job), PushSlot(e);
      && Solo(r, i) && NoOutputs(r) && r.slots[i] == Slot(job, 0, Active)
      && r.outIdx == e.outIdx && r.past.queued == e.past.queued && r.past.wires == e.past.wires
      && r.past.owner[i] == |e.past.jobs| && r.past.jobs == e.past.jobs + [job]
  {
  }

  // An output queued in a pass of its own.
  ghost predicate QueuedBy(e: Engine, r: Engine, i: nat, port: nat, level: nat)
    requires Sized(e) && i < SLOTS
  {
    var c := RingSlot(e.outIdx);
    && Solo(r, i) && r.slots[i] == e.slots[i].(index := e.slots[i].index + 1)
    && r.outIdx == c + 1 && r.outs == e.outs[c := PinEvent(i, port, level, PinPending)]
    && r.past == Past(e.past.jobs, e.past.owner,
                      e.past.queued + [Out(e.past.owner[i], e.slots[i].index + 1, port, level)],
                      e.past.tags[c := |e.past.queued|], e.past.wires, e.past.since + 1)
  }

  lemma QueueUpdate(e: Engine, i: nat, port: nat, level: nat)
    requires Solo(e, i) && e.slots[i].status == Active && Current(e.slots[i]) == Some(Drive(port, level))
    ensures CleanStep(e, DoUpdate) && QueuedBy(e, Update(e), i, port, level)
  {
    hide Script, Update, CleanStep;
    SoloUpdate(e, i);
  }

  lemma PassSolo(e: Engine, i: nat)
    requires Solo(e, i)
    ensures Solo(PinUpdate(e, {}), i) && NoOutputs(PinUpdate(e, {})) && PinUpdate(e, {}) == Drain(e)
  {
    hide PendingTags;
    NoLook(Drain(e), 0);
  }

  lemma FinishSolo(e: Engine, i: nat)
    requires Solo(e, i) && NoOutputs(e) && e.slots[i].status == Active && Current(e.slots[i]) == None
    ensures CleanStep(e, DoUpdate) && Solo(Update(e), i) && NoOutputs(Update(e))
    ensures Update(e).slots[i].status == Done && Update(e).outIdx == e.outIdx
  {
    hide Script;
    SoloUpdate(e, i);
  }

  lemma ReportSolo(e: Engine, i: nat)
    requires Solo(e, i) && NoOutputs(e) && e.slots[i].status == Done
    ensures Idle(Next(e)) && Next(e).outIdx == e.outIdx
  {
    assert FirstDone(e.slots, 0) == i;
  }

  lemma RoundRuns(e: Engine, port: nat)
    requires Idle(e) && e.outIdx < PIN_EVENTS
    ensures CleanRun(e, Round(One(port)))
    ensures Idle(Run(e, Round(One(port)))) && Run(e, Round(One(port))).outIdx == e.outIdx + 1
  {
    hide Script, Solo, Idle, NoOutputs, Fire, Push, Update, PinUpdate, Next, CleanStep, Current;
    var job, i := One(port), 0;
    IdleSized(e);
    i := PushSlot(e);
    ScriptOfOne(port);
    StartRound(e, job);
    var e1 := Push(e, job);
    SoloSized(e1, i);
    CurrentMeans(e1.slots[i]);
    QueueUpdate(e1, i, port, 0);
    var e2 := Update(e1);
    SoloSized(e2, i);
    PassSolo(e2, i);
    var e3 := PinUpdate(e2, {});
    SoloSized(e3, i);
    CurrentMeans(e3.slots[i]);
    FinishSolo(e3, i);
    var e4 := Update(e3);
    SoloSized(e4, i);
    ReportSolo(e4, i);
    PushClean(e, job);
    RunFive(e, job);
  }

  lemma IdleSized(e: Engine)
    requires Idle(e)
    ensures Sized(e)
  {
  }

  lemma SoloSized(e: Engine, i: nat)
    requires Solo(e, i)
    ensures Sized(e) && i < SLOTS
  {
  }

  lemma CurrentMeans(s: Slot)
    ensures Current(s) == if s.index < |Script(s.job)| then Some(Script(s.job)[s.index]) else None
  {
  }

  lemma PushClean(e: Engine, job: Job)
    requires Idle(e) && |Script(job)| > 0 && forall k :: 0 <= k < |Script(job)| ==> Script(job)[k].Drive?
    ensures CleanStep(e, DoPush(job))
  {
  }

  lemma RunCons(e: Engine, op: Op, rest: seq<Op>)
    requires Sized(e)
    ensures Run(e, [op] + rest) == Run(Step(e, op), rest)
    ensures CleanRun(e, [op] + rest) <==> CleanStep(e, op) && CleanRun(Step(e, op), rest)
  {
    hide Step, CleanStep;
    assert ([op] + rest)[1..] == rest;
  }

  lemma RunNone(e: Engine)
    requires Sized(e)
    ensures Run(e, []) == e && CleanRun(e, [])
  {
  }

  lemma StepMeans(e: Engine, job: Job)
    requires Sized(e)
    ensures Step(e, DoPush(job)) == Push(e, job) && Step(e, DoUpdate) == Update(e)
    ensures Step(e, DoPins({})) == PinUpdate(e, {}) && Step(e, DoNext) == Next(e)
    ensures CleanStep(e, DoPins({})) && CleanStep(e, DoNext)
  {
    hide Push, Update, PinUpdate, Next;
  }

  lemma RunFive(e: Engine, job: Job)
    requires Sized(e)
    ensures var e1 := Push(e, job); var e2 := Update(e1); var e3 := PinUpdate(e2, {}); var e4 := Update(e3);
      && Run(e, Round(job)) == Next(e4)
      && (CleanRun(e, Round(job)) <==>
            CleanStep(e, DoPush(job)) && CleanStep(e1, DoUpdate) && CleanStep(e3, DoUpdate))
  {
    hide Step, Push, Update, PinUpdate, Next, CleanStep, Run, CleanRun;
    StepMeans(e, job);
    var e1 := Push(e, job);
    StepMeans(e1, job);
    var e2 := Update(e1);
    StepMeans(e2, job);
    var e3 := PinUpdate(e2, {});
    StepMeans(e3, job);
    var e4 := Update(e3);
    StepMeans(e4, job);
    var r1 := [DoUpdate, DoPins({}), DoUpdate, DoNext];
    var r2 := [DoPins({}), DoUpdate, DoNext];
    RunCons(e, DoPush(job), r1);
    assert r1 == [DoUpdate] + r2;
    RunCons(e1, DoUpdate, r2);
    assert r2 == [DoPins({})] + [DoUpdate, DoNext];
    RunCons(e2, DoPins({}), [DoUpdate, DoNext]);
    assert [DoUpdate, DoNext] == [DoUpdate] + [DoNext];
    RunCons(e3, DoUpdate, [DoNext]);
    assert [DoNext] == [DoNext] + [];
    RunCons(e4, DoNext, []);
    RunNone(Next(e4));
    assert Round(job) == [DoPush(job)] + r1;
  }

  lemma {:induction false} RunAppend(e: Engine, xs: seq<Op>, ys: seq<Op>)
    requires Sized(e)
    ensures Run(e, xs + ys) == Run(Run(e, xs), ys)
    ensures CleanRun(e, xs + ys) <==> CleanRun(e, xs) && CleanRun(Run(e, xs), ys)
    decreases |xs|
  {
    hide Step, CleanStep;
    if xs == [] {
      assert xs + ys == ys;
    } else {
      assert xs + ys == [xs[0]] + (xs[1..] + ys);
      RunCons(e, xs[0], xs[1..] + ys);
      RunAppend(Step(e, xs[0]), xs[1..], ys);
    }
  }

  // ---------------------------------------------------------------- up to the wrap

  function Rounds(port: nat, n: nat): seq<Op> {
    if n == 0 then [] else Rounds(port, n - 1) + Round(One(port))
  }

  lemma {:induction false} RoundsRun(port: nat, n: nat)
    requires n < PIN_EVENTS
    ensures CleanRun(Start(), Rounds(port, n))
    ensures Idle(Run(Start(), Rounds(port, n))) && Run(Start(), Rounds(port, n)).outIdx == n
  {
    hide CleanRun, Run, Round;
    if n == 0 {
      StartIdle(port);
    } else {
      RoundsRun(port, n - 1);
      hide Start, Idle;
      RunAppend(Start(), Rounds(port, n - 1), Round(One(port)));
      RoundRuns(Run(Start(), Rounds(port, n - 1)), port);
    }
  }

  lemma StartIdle(port: nat)
    ensures Idle(Start()) && Run(Start(), []) == Start() && CleanRun(Start(), []) && Start().outIdx == 0
  {
  }

  // ---------------------------------------------------------------- over it

  function Over(port: nat): seq<Op> {
    [DoPush(Two(port)), DoUpdate, DoUpdate, DoPins({})]
  }

  lemma RunFour(e: Engine, job: Job)
    requires Sized(e)
    ensures var e1 := Push(e, job); var e2 := Update(e1); var e3 := Update(e2);
      var ops := [DoPush(job), DoUpdate, DoUpdate, DoPins({})];
      && Run(e, ops) == PinUpdate(e3, {})
      && (CleanRun(e, ops) <==>
            CleanStep(e, DoPush(job)) && CleanStep(e1, DoUpdate) && CleanStep(e2, DoUpdate))
  {
    hide Step, Push, Update, PinUpdate, CleanStep, Run, CleanRun;
    StepMeans(e, job);
    var e1 := Push(e, job);
    StepMeans(e1, job);
    var e2 := Update(e1);
    StepMeans(e2, job);
    var e3 := Update(e2);
    StepMeans(e3, job);
    var r1, r2 := [DoUpdate, DoUpdate, DoPins({})], [DoUpdate, DoPins({})];
    assert [DoPush(job), DoUpdate, DoUpdate, DoPins({})] == [DoPush(job)] + r1;
    RunCons(e, DoPush(job), r1);
    assert r1 == [DoUpdate] + r2;
    RunCons(e1, DoUpdate, r2);
    assert r2 == [DoUpdate] + [DoPins({})];
    RunCons(e2, DoUpdate, [DoPins({})]);
    assert [DoPins({})] == [DoPins({})] + [];
    RunCons(e3, DoPins({}), []);
    RunNone(PinUpdate(e3, {}));
  }

  // Entries 0 and 255 are pending and no others: a pass takes them in this order.
  lemma EndsOfRing(outs: seq<PinEvent>, tags: seq<nat>)
    requires |outs| == |tags| == PIN_EVENTS
    requires forall k :: 0 <= k < PIN_EVENTS ==> (outs[k].status == PinPending <==> k == 0 || k == PIN_EVENTS - 1)
    ensures PendingTags(outs, tags) == [tags[0], tags[PIN_EVENTS - 1]]
  {
    var n := PIN_EVENTS - 1;
    TagsCons(outs[..n], tags[..n]);
    assert outs[..n][1..] == outs[1..n] && tags[..n][1..] == tags[1..n];
    NothingPending(outs[1..n], tags[1..n]);
    assert PendingTags(outs, tags) == PendingTags(outs[..n], tags[..n]) + [tags[n]];
  }

  lemma PassOver(e: Engine, i: nat)
    requires Solo(e, i)
    requires forall k :: 0 <= k < PIN_EVENTS ==> (e.outs[k].status == PinPending <==> k == 0 || k == PIN_EVENTS - 1)
    ensures var r := PinUpdate(e, {});
      && r.past.wires == e.past.wires + [e.past.tags[0], e.past.tags[PIN_EVENTS - 1]]
      && r.past.queued == e.past.queued && r.past.jobs == e.past.jobs
      && (forall k :: 0 <= k < PIN_EVENTS ==> r.outs[k].status != PinPending)
  {
    hide PinUpdate, PendingTags;
    PassSolo(e, i);
    NoOutputsMeans(PinUpdate(e, {}));
    EndsOfRing(e.outs, e.past.tags);
  }

  // Both outputs written, the newer first.
  ghost predicate TwoWritten(a: Engine, r: Engine, i: nat, port: nat)
    requires Sized(a) && i < SLOTS
  {
    var n, w := |a.past.queued|, a.past.owner[i];
    && Sized(r)
    && r.past.queued == a.past.queued + [Out(w, 1, port, 0)] + [Out(w, 2, port, 1)]
    && r.past.wires == a.past.wires + [n + 1, n] && r.past.jobs == a.past.jobs
    && forall k :: 0 <= k < PIN_EVENTS ==> r.outs[k].status != PinPending
  }

  lemma TwoPassed(a: Engine, i: nat, port: nat)
    requires Solo(a, i) && NoOutputs(a) && a.slots[i] == Slot(Two(port), 0, Active) && a.outIdx == PIN_EVENTS - 1
    ensures CleanStep(a, DoUpdate) && CleanStep(Update(a), DoUpdate)
    ensures TwoWritten(a, PinUpdate(Update(Update(a)), {}), i, port)
  {
    hide Solo, Update, PinUpdate, CleanStep, NoOutputs, OneWaits;
    SoloSized(a, i);
    NoOutputsMeans(a);
    FirstUpdate(a, i, port);
    SecondUpdate(a, Update(a), i, port);
    PassOver(Update(Update(a)), i);
  }

  // After the push of the two.
  ghost predicate Pushed(e: Engine, a: Engine, i: nat, port: nat) {
    && Solo(a, i) && NoOutputs(a) && a.slots[i] == Slot(Two(port), 0, Active) && a.outIdx == e.outIdx
    && a.past.owner[i] == |e.past.jobs| && a.past.jobs == e.past.jobs + [Two(port)]
    && a.past.queued == e.past.queued && a.past.wires == e.past.wires
  }

  lemma PushTwo(e: Engine, port: nat)
    requires Idle(e)
    ensures Pushed(e, Push(e, Two(port)), PushSlot(e), port) && CleanStep(e, DoPush(Two(port)))
  {
    hide Script, Push, CleanStep, Idle, Solo, NoOutputs, PushSlot, Two;
    IdleSized(e);
    ScriptOfTwo(port);
    StartRound(e, Two(port));
    PushClean(e, Two(port));
  }

  // Two outputs more than e, written in reverse.
  ghost predicate Reversed(e: Engine, r: Engine, port: nat) {
    var n, w := |e.past.queued|, |e.past.jobs|;
    && Sized(r)
    && r.past.queued == e.past.queued + [Out(w, 1, port, 0)] + [Out(w, 2, port, 1)]
    && r.past.wires == e.past.wires + [n + 1, n] && r.past.jobs == e.past.jobs + [Two(port)]
    && (forall k :: 0 <= k < PIN_EVENTS ==> r.outs[k].status != PinPending)
  }

  lemma OverRuns(e: Engine, port: nat)
    requires Idle(e) && e.outIdx == PIN_EVENTS - 1
    ensures CleanRun(e, Over(port)) && Reversed(e, Run(e, Over(port)), port)
  {
    hide Script, Solo, Idle, Update, PinUpdate, Push, CleanStep, Run, CleanRun, NoOutputs, FireFits, PushSlot;
    IdleSized(e);
    PushTwo(e, port);
    var a, i := Push(e, Two(port)), PushSlot(e);
    SoloSized(a, i);
    TwoPassed(a, i, port);
    RunFour(e, Two(port));
  }

  // After two outputs were queued on either side of the wrap.
  ghost predicate TwoWait(a: Engine, b: Engine, i: nat, port: nat)
    requires Sized(a) && i < SLOTS
  {
    && Solo(b, i)
    && (forall k :: 0 <= k < PIN_EVENTS ==> (b.outs[k].status == PinPending <==> k == 0 || k == PIN_EVENTS - 1))
    && b.past.tags[0] == |a.past.queued| + 1 && b.past.tags[PIN_EVENTS - 1] == |a.past.queued|
    && b.past.queued == a.past.queued + [Out(a.past.owner[i], 1, port, 0)] + [Out(a.past.owner[i], 2, port, 1)]
    && b.past.wires == a.past.wires && b.past.jobs == a.past.jobs
  }

  // After the first of them.
  ghost predicate OneWaits(a: Engine, b: Engine, i: nat, port: nat)
    requires Sized(a) && i < SLOTS
  {
    && Solo(b, i) && b.slots[i] == Slot(Two(port), 1, Active) && b.outIdx == PIN_EVENTS
    && b.outs == a.outs[PIN_EVENTS - 1 := PinEvent(i, port, 0, PinPending)]
    && b.past.tags == a.past.tags[PIN_EVENTS - 1 := |a.past.queued|] && b.past.owner == a.past.owner
    && b.past.queued == a.past.queued + [Out(a.past.owner[i], 1, port, 0)]
    && b.past.wires == a.past.wires && b.past.jobs == a.past.jobs
  }

  lemma FirstUpdate(a: Engine, i: nat, port: nat)
    requires Solo(a, i) && a.slots[i] == Slot(Two(port), 0, Active) && a.outIdx == PIN_EVENTS - 1
    ensures CleanStep(a, DoUpdate) && OneWaits(a, Update(a), i, port)
  {
    hide Script, Solo, Update, CleanStep, Current;
    ScriptOfTwo(port);
    SoloSized(a, i);
    CurrentMeans(a.slots[i]);
    QueueUpdate(a, i, port, 0);
  }

  lemma SecondUpdate(a: Engine, b: Engine, i: nat, port: nat)
    requires Sized(a) && i < SLOTS && OneWaits(a, b, i, port)
    requires forall k :: 0 <= k < PIN_EVENTS ==> a.outs[k].status != PinPending
    ensures CleanStep(b, DoUpdate) && TwoWait(a, Update(b), i, port)
  {
    hide Script, Solo, Update, CleanStep, Current, QueuedBy, TwoWait;
    ScriptOfTwo(port);
    SoloSized(b, i);
    CurrentMeans(b.slots[i]);
    QueueUpdate(b, i, port, 1);
    BothWait(a, b, Update(b), i, port);
  }

  lemma BothWait(a: Engine, b: Engine, c: Engine, i: nat, port: nat)
    requires Sized(a) && Sized(b) && i < SLOTS && OneWaits(a, b, i, port) && QueuedBy(b, c, i, port, 1)
    requires forall k :: 0 <= k < PIN_EVENTS ==> a.outs[k].status != PinPending
    ensures TwoWait(a, c, i, port)
  {
    hide Solo;
    SoloSized(c, i);
    EndsPend(a.outs, b.outs, c.outs);
  }

  lemma EndsPend(a: seq<PinEvent>, b: seq<PinEvent>, c: seq<PinEvent>)
    requires |a| == |b| == |c| == PIN_EVENTS && forall k :: 0 <= k < PIN_EVENTS ==> a[k].status != PinPending
    requires b[PIN_EVENTS - 1].status == PinPending && b == a[PIN_EVENTS - 1 := b[PIN_EVENTS - 1]]
    requires c[0].status == PinPending && c == b[0 := c[0]]
    ensures forall k :: 0 <= k < PIN_EVENTS ==> (c[k].status == PinPending <==> k == 0 || k == PIN_EVENTS - 1)
  {
  }

  lemma NoOutputsMeans(e: Engine)
    requires Sized(e)
    ensures NoOutputs(e) <==> forall k :: 0 <= k < PIN_EVENTS ==> e.outs[k].status != PinPending
  {
  }

  lemma {:induction false} PickNobody(q: seq<Out>, ns: seq<nat>, w: nat)
    requires Below(ns, |q|) && forall i :: 0 <= i < |ns| ==> q[ns[i]].owner != w
    ensures Pick(q, ns, w) == []
    decreases |ns|
  {
    if ns != [] { PickNobody(q, ns[..|ns| - 1], w); }
  }

  // All that push w asked for is written, and in reverse: its port is left at the level asked for first.
  ghost predicate LeftInReverse(e: Engine, w: nat, port: nat) {
    && Sized(e) && Linked(Outputs(e)) && Waiting(Outputs(e), w) == []
    && Asks(w, Script(Two(port)), |Script(Two(port))|) == [Out(w, 1, port, 0), Out(w, 2, port, 1)]
    && Written(Outputs(e), w) == [Out(w, 2, port, 1), Out(w, 1, port, 0)]
  }

  /** A clean run from the start, 255 single outputs and then two: the writes made for the last push are the
      reverse of what its script asks for. */
  lemma ReversedAtTheWrap(port: nat)
    ensures var ops := Rounds(port, PIN_EVENTS - 1) + Over(port);
      && CleanRun(Start(), ops)
      && LeftInReverse(Run(Start(), ops), |Run(Start(), Rounds(port, PIN_EVENTS - 1)).past.jobs|, port)
  {
    hide Inv, Start, Script, Linked, Aged, Run, CleanRun, Rounds, Over, By, Asks, Told, Written, Waiting, InOrder;
    var rounds := Rounds(port, PIN_EVENTS - 1);
    var e := Run(Start(), rounds);
    var w := |e.past.jobs|;
    RoundsRun(port, PIN_EVENTS - 1);
    RunAppend(Start(), rounds, Over(port));
    OverRuns(e, port);
    AtTheWrap(rounds, Over(port), w);
    LastTwo(Outputs(e), Outputs(Run(e, Over(port))), port, w);
    ScriptOfTwo(port);
    AsksOfTwo(port, w);
  }

  lemma AtTheWrap(ops: seq<Op>, more: seq<Op>, w: nat)
    requires CleanRun(Start(), ops) && w == |Run(Start(), ops).past.jobs|
    requires var r := Run(Run(Start(), ops), more); forall k :: 0 <= k < PIN_EVENTS ==> r.outs[k].status != PinPending
    ensures var e := Run(Start(), ops); var r := Run(e, more);
      && Linked(Outputs(e)) && Linked(Outputs(r)) && Aged(Outputs(r)) == []
      && forall n :: 0 <= n < |e.past.queued| ==> e.past.queued[n].owner < w
  {
    hide Inv, Start, Linked, Aged, Run, CleanRun, InOrder;
    StartTold();
    StartInOrder(w);
    RunTold(Start(), ops, map[]);
    WritesFollowQueueIff(Start(), ops, w);
    WritesFollowQueueIff(Run(Start(), ops), more, w);
    NothingWaits(Outputs(Run(Run(Start(), ops), more)));
  }

  lemma AsksOfTwo(port: nat, w: nat)
    ensures Asks(w, [Drive(port, 0), Drive(port, 1)], 2) == [Out(w, 1, port, 0), Out(w, 2, port, 1)]
  {
    assert Asks(w, [Drive(port, 0), Drive(port, 1)], 1) == [Out(w, 1, port, 0)];
  }

  lemma LastTwo(o: Side, r: Side, port: nat, w: nat)
    requires Linked(o) && Linked(r) && Aged(r) == []
    requires forall n :: 0 <= n < |o.past.queued| ==> o.past.queued[n].owner < w
    requires r.past.queued == o.past.queued + [Out(w, 1, port, 0)] + [Out(w, 2, port, 1)]
    requires r.past.wires == o.past.wires + [|o.past.queued| + 1, |o.past.queued|]
    ensures Written(r, w) == [Out(w, 2, port, 1), Out(w, 1, port, 0)] && Waiting(r, w) == []
  {
    assert Below(o.past.wires, |o.past.queued|) && Below(r.past.wires, |r.past.queued|);
    hide Aged, Pick, Linked;
    PickLast(r.past.queued, o.past.wires, |o.past.queued|, w);
    PickNone(r.past.queued, w);
  }

  lemma PickLast(q: seq<Out>, wires: seq<nat>, n: nat, w: nat)
    requires Below(wires, n) && |q| == n + 2 && q[n].owner == w && q[n + 1].owner == w
    requires forall k :: 0 <= k < n ==> q[k].owner < w
    ensures Below(wires + [n + 1, n], |q|) && Pick(q, wires + [n + 1, n], w) == [n + 1, n]
  {
    hide Pick;
    PickNobody(q, wires, w);
    PickOne(q, n + 1, w);
    PickOne(q, n, w);
    assert [n + 1, n] == [n + 1] + [n];
    PickAppend(q, [n + 1], [n], w);
    PickAppend(q, wires, [n + 1, n], w);
  }
}
