/** The state machine, the launcher and the registration task together, wired as in the firmware: the effects are what
    sets the run flags, the wish, the launcher's switch and the registration check; the launcher's reports are the
    only source of the four events that announce a mode; and the events that ask for idle or running mode come only
    from a registration check, which starts only while its flag is up. */
module Hub {
  import F = MasterFsm
  import L = Launcher

  // Where the registration task is: between checks, in one, or about to queue what it has chosen.
  datatype Registering = Between | Checking | Chosen(event: F.Event)

  // hardware: is_hardware_version_selected. lastFallback: the mode saved in flash is fallback.
  datatype Hub = Hub(fsm: F.Fsm, board: L.System, hardware: bool, registering: Registering, lastFallback: bool)

  // What the button, the network, the update task and the console queue, at any moment.
  predicate FromOutside(e: F.Event) {
    || e.TriggerFallback? || e.SetAp? || e.TriggerUpdate?
    || e.Connected? || e.ConnectFailed? || e.Validated? || e.FlashOk?
  }

  function WishOf(desired: nat): L.Wish {
    if desired == F.IDLE_MODE then L.IdleMode
    else if desired == F.RUNNING_MODE then L.RunningMode
    else if desired == F.FALLBACK_MODE then L.FallbackMode
    else L.NoOne
  }

  // One bit per service, and their row with a place for each confirmation.
  datatype Services = Services(monitor: bool, deploy: bool, execute: bool, console: bool, fallback: bool)

  function Bit(r: Services, k: nat): bool {
    if k == L.MONITOR then r.monitor else if k == L.DEPLOY then r.deploy else if k == L.EXECUTE then r.execute
    else if k == L.CONSOLE then r.console else k == L.FALLBACK && r.fallback
  }

  function Row(r: Services): (s: seq<bool>)
    ensures |s| == L.CONFIRMATIONS && forall k :: 0 <= k < L.CONFIRMATIONS ==> s[k] == Bit(r, k)
  {
    seq(L.CONFIRMATIONS, k requires 0 <= k < L.CONFIRMATIONS => Bit(r, k))
  }

  // The run flags the effects write.
  function RunFlags(f: F.Flags): Services {
    Services(f.monitor, f.deploy, f.execute, f.console, f.fallback)
  }

  // As the services take them: execution and fallback run only with the hardware version selected.
  function Gated(r: Services, hardware: bool): Services {
    r.(execute := r.execute && hardware, fallback := r.fallback && hardware)
  }

  function Wire(b: L.System, f: F.Flags, hardware: bool): L.System {
    b.(wish := WishOf(f.desired), on := f.launcher, run := Row(Gated(RunFlags(f), hardware)))
  }

  // What a registration check asks for.
  function Trigger(hardware: bool, lastFallback: bool): F.Event {
    if !hardware then F.TriggerIdle else if lastFallback then F.TriggerFallback else F.CertsLoaded
  }

  // Two of the effects save the mode.
  function Remembered(x: F.Effect, lastFallback: bool): bool {
    if x.TryFallback? then true else if x.FallbackOff? then false else lastFallback
  }

  datatype Op =
    | Outside(event: F.Event)
    | Layout               // the console selects the hardware version
    | Check                // the registration task finds its flag up
    | GiveUp               // keys are missing, or a command was handled instead
    | Choose(stored: bool) // the check succeeds; stored: the flash holds a hardware version
    | Publish
    | Poll | Launch | Serve(service: nat)

  predicate Legal(op: Op) {
    match op
    case Outside(e) => FromOutside(e)
    case Serve(k) => L.IsService(k)
    case _ => true
  }

  predicate Sized(h: Hub) {
    F.Sized(h.fsm) && L.Sized(h.board)
  }

  // The events a step queues; the console queues the flash event once it has selected the hardware version.
  function Queues(h: Hub, op: Op): (es: seq<F.Event>)
    requires Sized(h)
    ensures |es| <= 1
  {
    match op
    case Outside(e) => if e.FlashOk? && !h.hardware then [] else [e]
    case Publish => if h.registering.Chosen? then [h.registering.event] else []
    case Launch => if h.board.phase.Checked? then [L.EventOf(h.board.phase.mode)] else []
    case _ => []
  }

  function QueueAll(m: F.Fsm, es: seq<F.Event>): (n: F.Fsm)
    requires F.Sized(m) && |es| <= 1
    ensures F.Sized(n)
  {
    if es == [] then m else F.Queue(m, es[0])
  }

  function Select(h: Hub, hardware: bool): Hub {
    h.(board := Wire(h.board, h.fsm.mode.flags, hardware), hardware := hardware)
  }

  function PollStep(h: Hub): (t: Hub)
    requires Sized(h)
    ensures Sized(t)
  {
    var c, m := h.fsm.cells[h.fsm.head], F.Poll(h.fsm);
    h.(fsm := m, board := Wire(h.board, m.mode.flags, h.hardware),
       lastFallback := if c.pending then Remembered(F.NextEffect(h.fsm.mode.state, c.event), h.lastFallback)
                       else h.lastFallback)
  }

  // A step that cannot be taken leaves everything as it is.
  function Step(h: Hub, op: Op): (t: Hub)
    requires Sized(h) && Legal(op)
    ensures Sized(t)
  {
    match op
    case Outside(e) => h.(fsm := QueueAll(h.fsm, Queues(h, op)))
    case Layout => Select(h, true)
    case Check =>
      if h.registering.Between? && h.fsm.mode.flags.checkRegistration then h.(registering := Checking) else h
    case GiveUp => if h.registering.Checking? then h.(registering := Between) else h
    case Choose(stored) =>
      if h.registering.Checking? then
        Select(h.(registering := Chosen(Trigger(h.hardware || stored, h.lastFallback))), h.hardware || stored)
      else h
    case Publish =>
      if h.registering.Chosen? then h.(fsm := QueueAll(h.fsm, Queues(h, op)), registering := Between) else h
    case Poll => PollStep(h)
    case Launch => h.(fsm := QueueAll(h.fsm, Queues(h, op)), board := L.Launch(h.board))
    case Serve(k) => h.(board := L.Serve(h.board, k))
  }

  predicate AllLegal(ops: seq<Op>) {
    forall i :: 0 <= i < |ops| ==> Legal(ops[i])
  }

  function Run(h: Hub, ops: seq<Op>): (t: Hub)
    requires Sized(h) && AllLegal(ops)
    ensures Sized(t)
    decreases |ops|
  {
    if ops == [] then h else Run(Step(h, ops[0]), ops[1..])
  }

  const OFF: seq<bool> := [false, false, false, false, false, false, false]

  // Every flag off, nobody wanted, no hardware version selected, and the first event queued.
  function Start(lastFallback: bool): (h: Hub)
    ensures Sized(h)
  {
    Hub(F.Queue(F.Fsm(seq(F.RING, _ => F.Cell(F.FlashOk, false)), 0, 0, F.START), F.FlashOk),
        L.System(OFF, OFF, OFF, OFF, OFF, false, L.NoOne, 0, L.SetOf(L.NoOne), L.Resting, []),
        false, Between, lastFallback)
  }

  lemma {:induction false} RunAppend(h: Hub, xs: seq<Op>, ys: seq<Op>)
    requires Sized(h) && AllLegal(xs) && AllLegal(ys)
    ensures AllLegal(xs + ys) && Run(h, xs + ys) == Run(Run(h, xs), ys)
    decreases |xs|
  {
    hide Step;
    if xs == [] {
      assert xs + ys == ys;
    } else {
      assert (xs + ys)[1..] == xs[1..] + ys;
      RunAppend(Step(h, xs[0]), xs[1..], ys);
    }
  }

  // ---------------------------------------------------------------- what every run keeps

  // The board obeys the flags, the flags obey the tables, and reports are truthful about what was polled.
  ghost predicate Composed(h: Hub) {
    && Sized(h) && h.board == Wire(h.board, h.fsm.mode.flags, h.hardware)
    && F.Safe(h.fsm.mode) && L.Honest(h.board)
    && !h.board.confirm[L.UPDATER] && !h.board.confirm[L.AP]
  }

  // Neither the launcher nor a service touches the wish, the switch or the run flags.
  lemma LaunchKeeps(b: L.System)
    requires L.Sized(b)
    ensures var t := L.Launch(b);
      t.wish == b.wish && t.on == b.on && t.run == b.run && t.confirm == b.confirm
  {
    hide L.Code, L.SetEngage, L.SetDismiss, L.Number;
  }

  lemma ServeKeeps(b: L.System, k: nat)
    requires L.Sized(b) && L.IsService(k)
    ensures var t := L.Serve(b, k);
      && t.wish == b.wish && t.on == b.on && t.run == b.run && t.reports == b.reports && t.phase == b.phase
      && t.confirm[L.UPDATER] == b.confirm[L.UPDATER] && t.confirm[L.AP] == b.confirm[L.AP]
  {
    hide L.Serve;
    L.ServeFrame(b, k);
  }

  lemma WireHonest(b: L.System, f: F.Flags, hardware: bool)
    requires L.Honest(b)
    ensures L.Honest(Wire(b, f, hardware))
  {
    hide L.Code, L.SetOf, WishOf, Row;
  }

  lemma QueueKeepsMode(m: F.Fsm, es: seq<F.Event>)
    requires F.Sized(m) && |es| <= 1
    ensures QueueAll(m, es).mode == m.mode
  {
  }

  lemma PollComposed(h: Hub)
    requires Composed(h)
    ensures Composed(PollStep(h))
  {
    hide F.Safe, L.Honest, F.React, Row, F.NextEffect, WishOf;
    if h.fsm.cells[h.fsm.head].pending { F.ReactSafe(h.fsm.mode, h.fsm.cells[h.fsm.head].event); }
    WireHonest(h.board, F.Poll(h.fsm).mode.flags, h.hardware);
  }

  lemma StepComposed(h: Hub, op: Op)
    requires Composed(h) && Legal(op)
    ensures Composed(Step(h, op))
  {
    hide F.Safe, L.Honest, L.Launch, L.Serve, PollStep, QueueAll, Queues, Row, WishOf;
    QueueKeepsMode(h.fsm, Queues(h, op));
    match op
    case Poll => PollComposed(h);
    case Launch =>
      LaunchKeeps(h.board);
      L.StepHonest(h.board, L.DoLaunch);
    case Serve(k) =>
      ServeKeeps(h.board, k);
      L.StepHonest(h.board, L.DoServe(k));
    case Layout => WireHonest(h.board, h.fsm.mode.flags, true);
    case Choose(stored) => WireHonest(h.board, h.fsm.mode.flags, h.hardware || stored);
    case _ =>
  }

  lemma StartComposed(lastFallback: bool)
    ensures Composed(Start(lastFallback))
  {
    hide F.Safe, L.Code;
    F.StartSafe();
    L.ModeNumbers(L.NoOne);
  }

  /** In every run of them together: services run only in the combinations and states the tables allow, the
      update and access point confirmations stay down, and what was polled before a report is the mode wished for
      when it was compared. */
  lemma EveryRunComposed(lastFallback: bool, ops: seq<Op>)
    requires AllLegal(ops)
    ensures Composed(Run(Start(lastFallback), ops))
  {
    StartComposed(lastFallback);
    hide Composed, Start;
    RunComposed(Start(lastFallback), ops);
  }

  lemma {:induction false} RunComposed(h: Hub, ops: seq<Op>)
    requires Sized(h) && Composed(h) && AllLegal(ops)
    ensures Composed(Run(h, ops))
    decreases |ops|
  {
    hide Composed, Step;
    if ops != [] {
      StepComposed(h, ops[0]);
      RunComposed(Step(h, ops[0]), ops[1..]);
    }
  }

  // ---------------------------------------------------------------- idle mode is not asked for in running mode

  // The history of the ring, step by step.
  function Later(h: Hub, g: F.History, op: Op): F.History
    requires Sized(h)
  {
    F.History(g.all + Queues(h, op), g.taken + if op.Poll? && g.taken < |g.all| then 1 else 0)
  }

  // The ring is never overrun.
  ghost predicate RoomRun(h: Hub, g: F.History, ops: seq<Op>)
    requires Sized(h) && AllLegal(ops)
    decreases |ops|
  {
    ops == [] ||
    ((Queues(h, ops[0]) != [] ==> F.Room(g)) && RoomRun(Step(h, ops[0]), Later(h, g, ops[0]), ops[1..]))
  }

  function LaterRun(h: Hub, g: F.History, ops: seq<Op>): F.History
    requires Sized(h) && AllLegal(ops)
    decreases |ops|
  {
    if ops == [] then g else LaterRun(Step(h, ops[0]), Later(h, g, ops[0]), ops[1..])
  }

  lemma StepHistory(h: Hub, g: F.History, op: Op)
    requires Sized(h) && Legal(op) && F.Represents(h.fsm, g) && (Queues(h, op) != [] ==> F.Room(g))
    ensures F.Represents(Step(h, op).fsm, Later(h, g, op))
    ensures F.Proper(g) && (h.fsm.cells[h.fsm.head].pending <==> g.taken < |g.all|)
  {
    hide F.Represents, F.Queue, F.Poll, L.Launch, L.Serve, Wire, F.NextEffect;
    F.Meaning(h.fsm, g);
    F.PollRefines(h.fsm, g);
    var es := Queues(h, op);
    assert g.all + [] == g.all;
    if es != [] {
      F.QueueRefines(h.fsm, g, es[0]);
      assert es == [es[0]];
    }
  }

  // Once keys are loaded for good, no check asks for idle mode any more: what was queued keeps to that order.
  ghost predicate InOrder(h: Hub, g: F.History) {
    && (F.CertsLoaded in g.all || h.registering == Chosen(F.CertsLoaded) ==> h.hardware)
    && (h.registering == Chosen(F.TriggerIdle) ==> F.CertsLoaded !in g.all)
    && (h.registering.Chosen? ==> h.registering.event != F.Engaged)
    && forall i, j :: 0 <= i < j < |g.all| && g.all[i] == F.CertsLoaded ==> g.all[j] != F.TriggerIdle
  }

  // Before they have been polled, nothing leads to running mode.
  ghost predicate NotYet(h: Hub, g: F.History)
    requires F.Proper(g)
  {
    F.CertsLoaded !in g.all[..g.taken] ==>
      && h.fsm.mode.state != F.Engagement && h.fsm.mode.state != F.Running
      && h.fsm.mode.flags.desired != F.RUNNING_MODE && h.board.wish != L.RunningMode
      && F.Engaged !in g.all && !(!h.board.phase.Resting? && h.board.phase.mode == L.RunningMode)
  }

  lemma StepInOrder(h: Hub, g: F.History, op: Op)
    requires Sized(h) && Legal(op) && InOrder(h, g)
    ensures InOrder(Step(h, op), Later(h, g, op))
  {
    hide L.Launch, L.Serve, PollStep, QueueAll, Wire, L.Sized, F.Sized;
    if op.Poll? { PollKeeps(h); }
  }

  lemma PollKeeps(h: Hub)
    requires Sized(h)
    ensures var t := PollStep(h);
      && t.hardware == h.hardware && t.registering == h.registering
      && t.board.phase == h.board.phase && t.board.wish == WishOf(t.fsm.mode.flags.desired)
      && t.fsm.mode == F.Poll(h.fsm).mode
  {
    hide F.Poll, WishOf;
  }

  // What no other event than these two does.
  lemma ReactNotYet(m: F.Mode, e: F.Event)
    requires e != F.CertsLoaded && e != F.Engaged && m.state != F.Engagement && m.state != F.Running
    ensures F.React(m, e).state != F.Engagement && F.React(m, e).state != F.Running
    ensures F.NextEffect(m.state, e) != F.Engage
  {
    hide F.Apply;
  }

  lemma DesiredNotYet(x: F.Effect, f: F.Flags)
    ensures x.Engage? || f.desired == F.RUNNING_MODE || F.Apply(x, f).desired != F.RUNNING_MODE
  {
    match x
    case Nothing =>
    case ReportError =>
    case Register =>
    case Engage =>
    case Disengages =>
    case FallbackOff =>
    case Run =>
    case StartUpdate =>
    case ApOn =>
    case ApOff =>
    case TryFallback =>
    case FallbackOn =>
    case TryIdle =>
    case IdleOn =>
    case IdleOff =>
  }

  lemma PollNotYet(h: Hub, g: F.History)
    requires Sized(h) && F.Represents(h.fsm, g) && F.Proper(g) && NotYet(h, g)
    requires h.board.wish == WishOf(h.fsm.mode.flags.desired)
    ensures F.Proper(Later(h, g, Poll)) && NotYet(PollStep(h), Later(h, g, Poll))
  {
    hide F.Represents, F.Poll, F.React, PollStep;
    PollKeeps(h);
    F.PollRefines(h.fsm, g);
    PollTakes(h.fsm, g);
    assert g.all + [] == g.all;
    if g.taken < |g.all| {
      var e := g.all[g.taken];
      assert g.all[..g.taken + 1] == g.all[..g.taken] + [e];
      if F.CertsLoaded !in g.all[..g.taken + 1] {
        assert e in g.all;
        ReactNotYet(h.fsm.mode, e);
        DesiredNotYet(F.NextEffect(h.fsm.mode.state, e), h.fsm.mode.flags);
        ReactMeans(h.fsm.mode, e);
      }
    }
  }

  lemma ReactMeans(m: F.Mode, e: F.Event)
    ensures F.React(m, e).flags == F.Apply(F.NextEffect(m.state, e), m.flags)
  {
  }

  lemma PollTakes(m: F.Fsm, g: F.History)
    requires F.Represents(m, g)
    ensures F.Poll(m).mode == if g.taken < |g.all| then F.React(m.mode, g.all[g.taken]) else m.mode
  {
    hide F.React, F.Fold, F.Slot;
    F.PollRefines(m, g);
  }

  lemma StepNotYet(h: Hub, g: F.History, op: Op)
    requires Sized(h) && Legal(op) && F.Represents(h.fsm, g) && F.Proper(g) && InOrder(h, g) && NotYet(h, g)
    requires h.board.wish == WishOf(h.fsm.mode.flags.desired)
    ensures F.Proper(Later(h, g, op)) && NotYet(Step(h, op), Later(h, g, op))
  {
    hide F.Represents, L.Launch, L.Serve, PollStep, QueueAll, WishOf, Row;
    QueueKeepsMode(h.fsm, Queues(h, op));
    match op {
      case Poll => PollNotYet(h, g);
      case Launch =>
        LaunchKeeps(h.board);
        LaunchModes(h.board);
        assert Later(h, g, op).all[..g.taken] == g.all[..g.taken];
      case Serve(k) =>
        ServeKeeps(h.board, k);
        assert Later(h, g, op).all[..g.taken] == g.all[..g.taken];
      case _ => assert Later(h, g, op).all[..g.taken] == g.all[..g.taken];
    }
  }

  lemma LaunchModes(b: L.System)
    requires L.Sized(b)
    ensures !L.Launch(b).phase.Resting? ==>
      L.Launch(b).phase.mode == if b.phase.Resting? then b.wish else b.phase.mode
  {
    hide L.Code, L.SetEngage, L.SetDismiss, L.Number;
  }

  lemma {:induction false} RunOrdered(h: Hub, g: F.History, ops: seq<Op>)
    requires Composed(h) && AllLegal(ops) && F.Represents(h.fsm, g) && F.Proper(g) && InOrder(h, g) && NotYet(h, g)
    requires Sized(h) && RoomRun(h, g, ops)
    ensures var t, r := Run(h, ops), LaterRun(h, g, ops);
      Composed(t) && F.Represents(t.fsm, r) && F.Proper(r) && InOrder(t, r) && NotYet(t, r)
    decreases |ops|
  {
    hide Composed, Step, Queues, F.Represents, InOrder, NotYet, Later, F.Room;
    if ops != [] {
      StepHistory(h, g, ops[0]);
      StepInOrder(h, g, ops[0]);
      WishIsWired(h);
      StepNotYet(h, g, ops[0]);
      StepComposed(h, ops[0]);
      RunOrdered(Step(h, ops[0]), Later(h, g, ops[0]), ops[1..]);
    }
  }

  lemma WishIsWired(h: Hub)
    requires Composed(h)
    ensures h.board.wish == WishOf(h.fsm.mode.flags.desired)
  {
  }

  const FIRST := F.History([F.FlashOk], 0)

  lemma StartOrdered(lastFallback: bool)
    ensures var h := Start(lastFallback);
      F.Represents(h.fsm, FIRST) && F.Proper(FIRST) && InOrder(h, FIRST) && NotYet(h, FIRST)
  {
    assert F.Fold(F.START, []) == F.START;
  }

  /** In no run that does not overrun the ring is idle mode asked for in running mode, or on the way there: when the
      machine polls that event, no keys have been loaded yet. */
  lemma IdleIsNotAskedWhenRunning(lastFallback: bool, ops: seq<Op>)
    requires AllLegal(ops) && RoomRun(Start(lastFallback), FIRST, ops)
    ensures var m := Run(Start(lastFallback), ops).fsm;
      m.cells[m.head] == F.Cell(F.TriggerIdle, true) ==>
        m.mode.state != F.Running && m.mode.state != F.Engagement && m.mode.flags.desired != F.RUNNING_MODE
  {
    StartComposed(lastFallback);
    StartOrdered(lastFallback);
    hide Composed, Start, F.Represents, InOrder, NotYet;
    RunOrdered(Start(lastFallback), FIRST, ops);
    var h, g := Run(Start(lastFallback), ops), LaterRun(Start(lastFallback), FIRST, ops);
    if h.fsm.cells[h.fsm.head] == F.Cell(F.TriggerIdle, true) { HeadNotYet(h, g); }
  }

  lemma HeadNotYet(h: Hub, g: F.History)
    requires F.Sized(h.fsm) && F.Represents(h.fsm, g) && F.Proper(g) && InOrder(h, g) && NotYet(h, g)
    requires h.fsm.cells[h.fsm.head] == F.Cell(F.TriggerIdle, true)
    ensures h.fsm.mode.state != F.Running && h.fsm.mode.state != F.Engagement
    ensures h.fsm.mode.flags.desired != F.RUNNING_MODE
  {
    hide F.Fold, F.Slot;
    F.PollRefines(h.fsm, g);
    assert g.all[g.taken] == F.TriggerIdle;
    if i :| 0 <= i < g.taken && g.all[..g.taken][i] == F.CertsLoaded { assert g.all[i] == F.CertsLoaded; }
  }

  // ---------------------------------------------------------------- a report is what the state machine waits for

  // The state that the report of a launch for wish number n leads to from s.
  predicate Awaits(s: F.State, n: nat, t: F.State) {
    || (s.Engagement? && n == 15 && t.Running?)
    || (s.EngageFallback? && n == 75 && t.FallbackSet?)
    || (s.EngageIdle? && n == 9 && t.IdleSet?)
    || (s.Disengage? && n == 0 && t.Registration?)
    || (s.EngageUpdate? && n == 0 && t.Update?)
    || (s.EngageAp? && n == 0 && t.ApSet?)
  }

  /** When the launcher has launched what the state machine wishes, and nothing else waits in the ring, its report and
      the state machine's next turn complete what the state was engaged in. */
  lemma ReportCompletes(h: Hub, g: F.History, w: L.Wish, t: F.State)
    requires Sized(h) && F.Represents(h.fsm, g) && g.taken == |g.all|
    requires h.board.wish == WishOf(h.fsm.mode.flags.desired) && h.board.phase == L.Checked(h.board.wish, w)
    requires Awaits(h.fsm.mode.state, h.fsm.mode.flags.desired, t)
    ensures Step(Step(h, Launch), Poll).fsm.mode.state == t
    ensures t == F.Registration || !Step(Step(h, Launch), Poll).fsm.mode.flags.launcher
  {
    hide F.Represents, F.Queue, F.Poll, L.Launch, Wire, PollStep, F.React, Awaits, L.EventOf, WishOf;
    var e := L.EventOf(h.board.phase.mode);
    var n, k := Step(h, Launch), Later(h, g, Launch);
    QueueKeepsMode(h.fsm, Queues(h, Launch));
    StepHistory(h, g, Launch);
    assert k.all[|g.all|] == e;
    PollKeeps(n);
    PollTakes(n.fsm, k);
    Completes(h.fsm.mode, t);
  }

  lemma Completes(m: F.Mode, t: F.State)
    requires Awaits(m.state, m.flags.desired, t)
    ensures var r := F.React(m, L.EventOf(WishOf(m.flags.desired)));
      r.state == t && (t == F.Registration || !r.flags.launcher)
  {
    hide F.React;
    if m.state.Engagement? || m.state.EngageFallback? || m.state.EngageIdle? {
      EngagementCompletes(m);
    } else {
      DisengagementCompletes(m);
    }
  }

  lemma EngagementCompletes(m: F.Mode)
    ensures m.state.Engagement? ==> F.React(m, F.Engaged).state == F.Running && !F.React(m, F.Engaged).flags.launcher
    ensures m.state.EngageFallback? ==>
      F.React(m, F.SetFallback).state == F.FallbackSet && !F.React(m, F.SetFallback).flags.launcher
    ensures m.state.EngageIdle? ==> F.React(m, F.SetIdle).state == F.IdleSet && !F.React(m, F.SetIdle).flags.launcher
  {
  }

  lemma DisengagementCompletes(m: F.Mode)
    ensures m.state.Disengage? ==> F.React(m, F.Disengaged).state == F.Registration
    ensures m.state.EngageUpdate? ==>
      F.React(m, F.Disengaged).state == F.Update && !F.React(m, F.Disengaged).flags.launcher
    ensures m.state.EngageAp? ==>
      F.React(m, F.Disengaged).state == F.ApSet && !F.React(m, F.Disengaged).flags.launcher
  {
  }
}
