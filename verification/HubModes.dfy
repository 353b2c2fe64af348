/** What the composed system does with its flags and with the mode saved in flash. */
module HubModes {
  import F = MasterFsm
  import L = Launcher
  import opened Hub

  /** In every run of state machine, launcher and registration together: each service finds its run flag as the state
      machine has set it, execution and fallback only with a hardware version selected; and the launcher is on, and
      wishes for the mode, as the state machine says. */
  lemma ServicesRunAsSwitched(lastFallback: bool, ops: seq<Op>)
    requires AllLegal(ops)
    ensures var h := Run(Start(lastFallback), ops); var f := h.fsm.mode.flags;
      && |h.board.run| == 7
      && h.board.run[L.MONITOR] == f.monitor && h.board.run[L.DEPLOY] == f.deploy && h.board.run[L.CONSOLE] == f.console
      && h.board.run[L.EXECUTE] == (f.execute && h.hardware) && h.board.run[L.FALLBACK] == (f.fallback && h.hardware)
      && h.board.on == f.launcher
      && (h.board.wish.RunningMode? <==> f.desired == 15) && (h.board.wish.FallbackMode? <==> f.desired == 75)
      && (h.board.wish.IdleMode? <==> f.desired == 9)
  {
    EveryRunComposed(lastFallback, ops);
    hide Run, Start;
    Wired(Run(Start(lastFallback), ops));
  }

  lemma Wired(h: Hub)
    requires Composed(h)
    ensures var f := h.fsm.mode.flags;
      && |h.board.run| == 7
      && h.board.run[L.MONITOR] == f.monitor && h.board.run[L.DEPLOY] == f.deploy && h.board.run[L.CONSOLE] == f.console
      && h.board.run[L.EXECUTE] == (f.execute && h.hardware) && h.board.run[L.FALLBACK] == (f.fallback && h.hardware)
      && h.board.on == f.launcher
      && (h.board.wish.RunningMode? <==> f.desired == 15) && (h.board.wish.FallbackMode? <==> f.desired == 75)
      && (h.board.wish.IdleMode? <==> f.desired == 9)
  {
    hide F.Safe, L.Honest;
  }

  // The state machine polls a trigger that asks for fallback mode, or one that leaves it.
  predicate AsksFallback(h: Hub, op: Op)
    requires Sized(h)
  {
    var s := h.fsm.mode.state;
    op.Poll? && h.fsm.cells[h.fsm.head] == F.Cell(F.TriggerFallback, true)
    && (s.Registration? || s.Running? || s.IdleSet?)
  }

  predicate LeavesFallback(h: Hub, op: Op)
    requires Sized(h)
  {
    op.Poll? && h.fsm.cells[h.fsm.head] == F.Cell(F.TriggerFallback, true) && h.fsm.mode.state.FallbackSet?
  }

  lemma SavedModeStep(h: Hub, op: Op)
    requires Sized(h) && Legal(op)
    ensures Step(h, op).lastFallback
         == (AsksFallback(h, op) || (h.lastFallback && !LeavesFallback(h, op)))
  {
    hide F.Poll, F.Queue, L.Launch, L.Serve, Wire, Row;
    if op.Poll? { EffectSaves(h.fsm.mode.state, h.fsm.cells[h.fsm.head].event); }
  }

  lemma EffectSaves(s: F.State, e: F.Event)
    ensures F.NextEffect(s, e).TryFallback? <==> e.TriggerFallback? && (s.Registration? || s.Running? || s.IdleSet?)
    ensures F.NextEffect(s, e).FallbackOff? <==> e.TriggerFallback? && s.FallbackSet?
  {
  }

  // Nothing changes the saved mode along the run.
  ghost predicate SavedModeStays(h: Hub, ops: seq<Op>)
    requires Sized(h) && AllLegal(ops)
    decreases |ops|
  {
    ops == [] ||
    (!AsksFallback(h, ops[0]) && !LeavesFallback(h, ops[0]) && SavedModeStays(Step(h, ops[0]), ops[1..]))
  }

  lemma {:induction false} SavedModeKept(h: Hub, ops: seq<Op>)
    requires Sized(h) && AllLegal(ops) && SavedModeStays(h, ops)
    ensures Run(h, ops).lastFallback == h.lastFallback
    decreases |ops|
  {
    if ops != [] {
      SavedModeStep(h, ops[0]);
      hide Step, AsksFallback, LeavesFallback;
      SavedModeKept(Step(h, ops[0]), ops[1..]);
    }
  }

  /** Once fallback mode has been asked for, and until a trigger leaves it, every registration check that succeeds
      with a hardware version asks for fallback mode again; once it has been left, for running mode, until it is asked
      for again. Without a hardware version it asks for idle mode in either case. */
  lemma {:induction false} CheckResumes(h: Hub, op: Op, ops: seq<Op>, stored: bool)
    requires Sized(h) && Legal(op) && (AsksFallback(h, op) || LeavesFallback(h, op))
    requires AllLegal(ops) && SavedModeStays(Step(h, op), ops) && Run(Step(h, op), ops).registering.Checking?
    ensures var r := Run(Step(h, op), ops);
      Step(r, Choose(stored)).registering
      == if !r.hardware && !stored then Chosen(F.TriggerIdle)
         else if AsksFallback(h, op) then Chosen(F.TriggerFallback)
         else Chosen(F.CertsLoaded)
  {
    SavedModeStep(h, op);
    SavedModeKept(Step(h, op), ops);
    hide Wire, AllLegal, F.Poll, L.Launch, L.Serve;
    assert AsksFallback(h, op) ==> !LeavesFallback(h, op);
    hide AsksFallback, LeavesFallback, Run;
    Chooses(Run(Step(h, op), ops), stored);
  }

  lemma Chooses(r: Hub, stored: bool)
    requires Sized(r) && r.registering.Checking?
    ensures Step(r, Choose(stored)).registering
         == if !r.hardware && !stored then Chosen(F.TriggerIdle)
            else if r.lastFallback then Chosen(F.TriggerFallback) else Chosen(F.CertsLoaded)
  {
  }

  // After the first event, a new layout is announced only with a hardware version selected.
  ghost predicate Announced(h: Hub, g: F.History) {
    && g.all != [] && h.registering != Chosen(F.FlashOk)
    && forall i :: 0 < i < |g.all| && g.all[i] == F.FlashOk ==> h.hardware
  }

  lemma StepAnnounced(h: Hub, g: F.History, op: Op)
    requires Sized(h) && Legal(op) && Announced(h, g)
    ensures Announced(Step(h, op), Later(h, g, op))
  {
    hide F.Poll, F.Queue, L.Launch, L.Serve, Wire, Row;
  }

  lemma {:induction false} RunAnnounced(h: Hub, g: F.History, ops: seq<Op>)
    requires Sized(h) && AllLegal(ops) && Announced(h, g)
    ensures Announced(Run(h, ops), LaterRun(h, g, ops))
    decreases |ops|
  {
    hide Step, Announced, Later;
    if ops != [] {
      StepAnnounced(h, g, ops[0]);
      RunAnnounced(Step(h, ops[0]), Later(h, g, ops[0]), ops[1..]);
    }
  }

  /** In every run, the event that announces a new layout is queued again only once a hardware version is selected. */
  lemma LayoutNeedsHardware(lastFallback: bool, ops: seq<Op>, i: nat)
    requires AllLegal(ops) && 0 < i < |LaterRun(Start(lastFallback), FIRST, ops).all|
    requires LaterRun(Start(lastFallback), FIRST, ops).all[i] == F.FlashOk
    ensures Run(Start(lastFallback), ops).hardware
  {
    RunAnnounced(Start(lastFallback), FIRST, ops);
    hide Run, LaterRun, Start;
  }
}
