/** Runs of state machine, launcher and registration together that go wrong, followed event by event from the start,
    and that there is no way on from where they lead. */
module HubRuns {
  import F = MasterFsm
  import L = Launcher
  import P = LaunchProgress
  import opened Hub

  // ---------------------------------------------------------------- the hub in short

  // What the launcher, the services and the registration task read of the flags.
  datatype View = View(on: bool, wish: L.Wish, run: Services, check: bool)

  // The launcher's and the services' own flags.
  datatype Local = Local(confirm: Services, engage: Services, disengage: Services, busy: Services, seen: Services,
                         phase: L.Phase, reports: seq<L.Report>)

  datatype Snap = Snap(state: F.State, view: View, waiting: seq<F.Event>, own: Local,
                       hardware: bool, registering: Registering, lastFallback: bool)

  const NOBODY := Services(false, false, false, false, false)
  const IDLE := Services(true, false, false, true, false)
  const RUNNING := Services(true, true, true, true, false)
  const FALLBACK := Services(true, true, false, true, true)

  function Put(s: Services, k: nat, b: bool): Services
    requires L.IsService(k)
  {
    if k == L.MONITOR then s.(monitor := b) else if k == L.DEPLOY then s.(deploy := b)
    else if k == L.EXECUTE then s.(execute := b) else if k == L.CONSOLE then s.(console := b) else s.(fallback := b)
  }

  function Wants(w: L.Wish): Services {
    match w
    case NoOne => NOBODY
    case IdleMode => IDLE
    case RunningMode => RUNNING
    case FallbackMode => FALLBACK
  }

  function Dismissed(w: L.Wish): Services {
    match w
    case NoOne => Services(true, true, true, true, true)
    case IdleMode => NOBODY
    case RunningMode => Services(false, false, false, false, true)
    case FallbackMode => Services(false, false, true, false, false)
  }

  // Those of the mask set to b.
  function Raise(s: Services, mask: Services, b: bool): Services {
    Services(if mask.monitor then b else s.monitor, if mask.deploy then b else s.deploy,
             if mask.execute then b else s.execute, if mask.console then b else s.console,
             if mask.fallback then b else s.fallback)
  }

  function LaunchShort(x: Local, v: View): Local {
    match x.phase
    case Resting =>
      if v.on && x.seen != Wants(v.wish) then
        x.(engage := Raise(x.engage, Wants(v.wish), true),
           disengage := Raise(x.disengage, Dismissed(v.wish), true), phase := L.Polling(v.wish))
      else x
    case Polling(m) =>
      if x.seen != Wants(v.wish) then x.(seen := x.confirm) else x.(phase := L.Leaving(m))
    case Leaving(m) => x.(phase := if x.seen == Wants(v.wish) then L.Checked(m, v.wish) else L.Resting)
    case Checked(m, w) =>
      x.(engage := Raise(x.engage, Wants(m), false), disengage := Raise(x.disengage, Dismissed(m), false),
         phase := L.Resting, reports := x.reports + [L.Report(L.EventOf(m), Row(x.seen), w)])
  }

  function ServeShort(x: Local, run: Services, k: nat): Local
    requires L.IsService(k)
  {
    if Bit(x.busy, k) then
      x.(busy := Put(x.busy, k, false), confirm := Put(x.confirm, k, true),
         engage := if k == L.CONSOLE then x.engage else Put(x.engage, k, false))
    else if Bit(x.engage, k) then x.(busy := Put(x.busy, k, true))
    else if Bit(run, k) then x
    else if Bit(x.disengage, k) then
      x.(confirm := Put(x.confirm, k, false),
         disengage := if k == L.CONSOLE then x.disengage else Put(x.disengage, k, false))
    else x
  }

  function Change(x: F.Effect, v: View): View {
    match x
    case Nothing | ReportError => v
    case Register | ApOff | IdleOff => v.(check := true)
    case Engage => v.(on := true, wish := L.RunningMode, check := false)
    case Disengages | FallbackOff => View(true, L.NoOne, NOBODY, v.check)
    case Run => v.(on := false, run := Services(true, true, true, true, v.run.fallback))
    case StartUpdate | ApOn => v.(on := false)
    case TryFallback => View(true, L.FallbackMode, v.run.(execute := false), false)
    case FallbackOn => v.(on := false, run := Services(true, true, v.run.execute, true, true))
    case TryIdle => View(true, L.IdleMode, v.run.(execute := false), false)
    case IdleOn => v.(on := false, run := v.run.(monitor := true, console := true))
  }

  function QueuedShort(x: Snap, op: Op): seq<F.Event> {
    match op
    case Outside(e) => if e.FlashOk? && !x.hardware then [] else [e]
    case Publish => if x.registering.Chosen? then [x.registering.event] else []
    case Launch => if x.own.phase.Checked? then [L.EventOf(x.own.phase.mode)] else []
    case _ => []
  }

  function Next(x: Snap, op: Op): Snap
    requires Legal(op)
  {
    var y := x.(waiting := x.waiting + QueuedShort(x, op));
    match op
    case Outside(e) => y
    case Layout => x.(hardware := true)
    case Check => if x.registering.Between? && x.view.check then x.(registering := Checking) else x
    case GiveUp => if x.registering.Checking? then x.(registering := Between) else x
    case Choose(stored) =>
      if x.registering.Checking? then
        x.(registering := Chosen(Trigger(x.hardware || stored, x.lastFallback)), hardware := x.hardware || stored)
      else x
    case Publish => if x.registering.Chosen? then y.(registering := Between) else x
    case Poll =>
      if x.waiting == [] then x
      else
        var e, effect := x.waiting[0], F.NextEffect(x.state, x.waiting[0]);
        x.(state := F.NextState(x.state, e), view := Change(effect, x.view), waiting := x.waiting[1..],
           lastFallback := Remembered(effect, x.lastFallback))
    case Launch => y.(own := LaunchShort(x.own, x.view))
    case Serve(k) => x.(own := ServeShort(x.own, Gated(x.view.run, x.hardware), k))
  }

  // ---------------------------------------------------------------- and that it is the hub

  function Viewed(f: F.Flags): View {
    View(f.launcher, WishOf(f.desired), RunFlags(f), f.checkRegistration)
  }

  function BoardOf(x: Local, v: View, hardware: bool): L.System {
    L.System(Row(x.confirm), Row(x.engage), Row(x.disengage), Row(Gated(v.run, hardware)), Row(x.busy), v.on, v.wish,
             L.Code(Row(x.seen)), Row(x.seen), x.phase, x.reports)
  }

  ghost predicate Waits(m: F.Fsm, waiting: seq<F.Event>) {
    exists g: F.History :: F.Represents(m, g) && g.all[g.taken..] == waiting
  }

  ghost predicate Follows(h: Hub, x: Snap) {
    && Sized(h) && h.fsm.mode.state == x.state && Viewed(h.fsm.mode.flags) == x.view && Waits(h.fsm, x.waiting)
    && h.board == BoardOf(x.own, x.view, x.hardware)
    && h.hardware == x.hardware && h.registering == x.registering && h.lastFallback == x.lastFallback
  }

  lemma RowPut(s: Services, k: nat, b: bool)
    requires L.IsService(k)
    ensures Row(Put(s, k, b)) == Row(s)[k := b] && Row(s)[k] == Bit(s, k)
  {
    hide Row;
  }

  lemma RowsWanted(w: L.Wish)
    ensures Row(Wants(w)) == L.SetOf(w)
  {
    hide Row;
  }

  lemma RaisedBit(s: Services, mask: Services, b: bool, k: nat)
    requires k < L.CONFIRMATIONS
    ensures Bit(Raise(s, mask, b), k) == if Bit(mask, k) then b else Bit(s, k)
  {
  }

  lemma RowsRaised(s: Services, w: L.Wish, b: bool)
    ensures Row(Raise(s, Wants(w), b)) == L.SetEngage(Row(s), w, b)
    ensures Row(Raise(s, Dismissed(w), b)) == L.SetDismiss(Row(s), w, b)
  {
    hide Row, Raise;
    forall k | 0 <= k < L.CONFIRMATIONS
      ensures Bit(Raise(s, Wants(w), b), k) == if L.Wanted(w, k) then b else Bit(s, k)
      ensures Bit(Raise(s, Dismissed(w), b), k) == if L.Dismisses(w, k) then b else Bit(s, k)
    {
      RaisedBit(s, Wants(w), b, k);
      RaisedBit(s, Dismissed(w), b, k);
    }
  }

  lemma SeenIsWish(s: Services, w: L.Wish)
    ensures L.Code(Row(s)) == L.Number(w) <==> s == Wants(w)
  {
    L.NumberMeansSet(Row(s), w);
    RowsWanted(w);
    if Row(s) == Row(Wants(w)) { RowInjective(s, Wants(w)); }
  }

  lemma RowInjective(s: Services, t: Services)
    requires Row(s) == Row(t)
    ensures s == t
  {
    assert forall k :: 0 <= k < L.CONFIRMATIONS ==> Bit(s, k) == Row(s)[k] == Bit(t, k);
    assert Bit(s, L.MONITOR) == Bit(t, L.MONITOR) && Bit(s, L.DEPLOY) == Bit(t, L.DEPLOY);
    assert Bit(s, L.EXECUTE) == Bit(t, L.EXECUTE) && Bit(s, L.CONSOLE) == Bit(t, L.CONSOLE);
    assert Bit(s, L.FALLBACK) == Bit(t, L.FALLBACK);
  }

  lemma LaunchIsShort(x: Local, v: View, hardware: bool)
    ensures L.Launch(BoardOf(x, v, hardware)) == BoardOf(LaunchShort(x, v), v, hardware)
  {
    hide L.Code, L.Number, L.SetEngage, L.SetDismiss, Raise, Wants, Dismissed, Row;
    SeenIsWish(x.seen, v.wish);
    match x.phase
    case Resting => RowsRaised(x.engage, v.wish, true); RowsRaised(x.disengage, v.wish, true);
    case Checked(m, w) => RowsRaised(x.engage, m, false); RowsRaised(x.disengage, m, false);
    case _ =>
  }

  lemma ServeIsShort(x: Local, v: View, hardware: bool, k: nat)
    requires L.IsService(k)
    ensures L.Serve(BoardOf(x, v, hardware), k) == BoardOf(ServeShort(x, Gated(v.run, hardware), k), v, hardware)
  {
    hide L.Code, Put, Row, Bit, Gated;
    RowPut(x.busy, k, true);
    RowPut(x.busy, k, false);
    RowPut(x.confirm, k, true);
    RowPut(x.confirm, k, false);
    RowPut(x.engage, k, false);
    RowPut(x.disengage, k, false);
    RowPut(Gated(v.run, hardware), k, true);
  }

  lemma ApplyOthers(x: F.Effect, f: F.Flags)
    requires x.Nothing? || x.ReportError? || x.Register? || x.ApOff? || x.IdleOff? || x.StartUpdate? || x.ApOn?
    ensures Viewed(F.Apply(x, f)) == Change(x, Viewed(f))
  {
    hide WishOf;
  }

  lemma ApplyRun(f: F.Flags)
    ensures Viewed(F.Apply(F.Run, f)) == Change(F.Run, Viewed(f))
  {
    hide WishOf;
  }

  lemma ApplyFallbackOn(f: F.Flags)
    ensures Viewed(F.Apply(F.FallbackOn, f)) == Change(F.FallbackOn, Viewed(f))
  {
    hide WishOf;
  }

  lemma ApplyIdleOn(f: F.Flags)
    ensures Viewed(F.Apply(F.IdleOn, f)) == Change(F.IdleOn, Viewed(f))
  {
    hide WishOf;
  }

  lemma ApplyEngage(f: F.Flags)
    ensures Viewed(F.Apply(F.Engage, f)) == Change(F.Engage, Viewed(f))
  {
  }

  lemma ApplyOff(x: F.Effect, f: F.Flags)
    requires x.Disengages? || x.FallbackOff?
    ensures Viewed(F.Apply(x, f)) == Change(x, Viewed(f))
  {
  }

  lemma ApplyFallback(f: F.Flags)
    ensures Viewed(F.Apply(F.TryFallback, f)) == Change(F.TryFallback, Viewed(f))
  {
  }

  lemma ApplyIdle(f: F.Flags)
    ensures Viewed(F.Apply(F.TryIdle, f)) == Change(F.TryIdle, Viewed(f))
  {
  }

  // The view after an effect depends only on the view before.
  lemma ApplyViewed(x: F.Effect, f: F.Flags)
    ensures Viewed(F.Apply(x, f)) == Change(x, Viewed(f))
  {
    hide F.Apply, Change, Viewed;
    match x
    case Engage => ApplyEngage(f);
    case Disengages | FallbackOff => ApplyOff(x, f);
    case Run => ApplyRun(f);
    case FallbackOn => ApplyFallbackOn(f);
    case IdleOn => ApplyIdleOn(f);
    case TryFallback => ApplyFallback(f);
    case TryIdle => ApplyIdle(f);
    case _ => ApplyOthers(x, f);
  }

  lemma QueueFollows(m: F.Fsm, waiting: seq<F.Event>, es: seq<F.Event>)
    requires F.Sized(m) && Waits(m, waiting) && |es| <= 1 && |waiting| < F.RING
    ensures Waits(QueueAll(m, es), waiting + es) && QueueAll(m, es).mode == m.mode
  {
    var g: F.History :| F.Represents(m, g) && g.all[g.taken..] == waiting;
    hide F.Represents, F.Queue;
    F.Meaning(m, g);
    QueueKeepsMode(m, es);
    if es == [] {
      assert waiting + [] == waiting;
    } else {
      F.QueueRefines(m, g, es[0]);
      assert F.SpecStep(g, F.DoQueue(es[0])).all[g.taken..] == waiting + es;
    }
  }

  lemma PollFollows(m: F.Fsm, waiting: seq<F.Event>)
    requires F.Sized(m) && Waits(m, waiting)
    ensures m.cells[m.head].pending <==> waiting != []
    ensures waiting != [] ==> m.cells[m.head].event == waiting[0] && Waits(F.Poll(m), waiting[1..])
    ensures waiting == [] ==> F.Poll(m) == m
  {
    var g: F.History :| F.Represents(m, g) && g.all[g.taken..] == waiting;
    F.PollRefines(m, g);
    if waiting != [] {
      assert g.all[g.taken] == waiting[0];
      HeadIs(m, g);
      hide F.Represents, F.Poll;
      assert F.SpecStep(g, F.DoPoll).all[g.taken + 1..] == waiting[1..];
    }
  }

  lemma HeadIs(m: F.Fsm, g: F.History)
    requires F.Represents(m, g) && g.taken < |g.all|
    ensures m.cells[m.head].event == g.all[g.taken]
  {
    hide F.Slot, F.Fold;
  }

  lemma PollShort(h: Hub, x: Snap)
    requires Follows(h, x)
    ensures Follows(PollStep(h), Next(x, Poll))
  {
    hide F.NextState, F.NextEffect, F.Apply, Change, Viewed, WishOf, Gated, L.Code, Row;
    PollFollows(h.fsm, x.waiting);
    WireShort(h, h.fsm.mode.flags, x);
    if x.waiting != [] {
      var e := x.waiting[0];
      ApplyViewed(F.NextEffect(x.state, e), h.fsm.mode.flags);
      WireShort(h, F.Apply(F.NextEffect(x.state, e), h.fsm.mode.flags), x);
    }
  }

  lemma WireShort(h: Hub, f: F.Flags, x: Snap)
    requires Follows(h, x)
    ensures Wire(h.board, f, h.hardware) == BoardOf(x.own, Viewed(f), x.hardware)
  {
    hide F.Represents, WishOf, Gated, Row, L.Code;
  }

  lemma SelectShort(h: Hub, x: Snap, hardware: bool)
    requires Follows(h, x)
    ensures Follows(Select(h, hardware), x.(hardware := hardware))
  {
    hide Waits, WishOf, Gated, Row, L.Code;
  }

  lemma StepShort(h: Hub, x: Snap, op: Op)
    requires Follows(h, x) && Legal(op) && |x.waiting| < F.RING
    ensures Follows(Step(h, op), Next(x, op))
  {
    hide Waits, Viewed, BoardOf, QueueAll, PollStep, LaunchShort, ServeShort, Select, L.Launch, L.Serve, Trigger,
      F.NextState, F.NextEffect, Change, Remembered;
    BoardPhase(x);
    assert Queues(h, op) == QueuedShort(x, op);
    QueueFollows(h.fsm, x.waiting, Queues(h, op));
    match op
    case Poll => PollShort(h, x);
    case Launch => LaunchIsShort(x.own, x.view, x.hardware);
    case Serve(k) => ServeIsShort(x.own, x.view, x.hardware, k);
    case Layout => SelectShort(h, x, true);
    case Choose(stored) =>
      if x.registering.Checking? {
        var r := Chosen(Trigger(x.hardware || stored, x.lastFallback));
        SelectShort(h.(registering := r), x.(registering := r), x.hardware || stored);
      }
    case Check => CheckViewed(h.fsm.mode.flags);
    case _ =>
  }

  lemma CheckViewed(f: F.Flags)
    ensures Viewed(f).check == f.checkRegistration
  {
    hide WishOf;
  }

  lemma BoardPhase(x: Snap)
    ensures BoardOf(x.own, x.view, x.hardware).phase == x.own.phase
  {
    hide L.Code, Row;
  }

  // ---------------------------------------------------------------- following a run

  const FRESH := Snap(F.Flash, View(false, L.NoOne, NOBODY, false), [F.FlashOk],
    Local(NOBODY, NOBODY, NOBODY, NOBODY, NOBODY, L.Resting, []), false, Between, false)

  // These steps lead from the start to here.
  ghost predicate Reached(ops: seq<Op>, x: Snap) {
    AllLegal(ops) && Follows(Run(Start(false), ops), x)
  }

  lemma StartReached()
    ensures Reached([], FRESH)
  {
    hide L.Code;
    var h := Start(false);
    assert F.Fold(F.START, []) == F.START;
    assert F.Represents(h.fsm, FIRST) && FIRST.all[FIRST.taken..] == [F.FlashOk];
    RowsWanted(L.NoOne);
    L.ModeNumbers(L.NoOne);
    assert Row(NOBODY) == OFF && Row(Gated(NOBODY, false)) == OFF;
  }

  // One step more.
  lemma Do(ops: seq<Op>, x: Snap, op: Op) returns (more: seq<Op>, y: Snap)
    requires Reached(ops, x) && Legal(op) && |x.waiting| < F.RING
    ensures more == ops + [op] && y == Next(x, op) && Reached(more, y)
  {
    hide Follows, Start, Step, Next;
    more, y := ops + [op], Next(x, op);
    StepShort(Run(Start(false), ops), x, op);
    RunAppend(Start(false), ops, [op]);
    RunOne(Run(Start(false), ops), op);
  }

  lemma RunOne(h: Hub, op: Op)
    requires Sized(h) && Legal(op)
    ensures Run(h, [op]) == Step(h, op)
  {
    hide Step;
    assert [op][1..] == [];
  }

  function Twice(x: Local, run: Services, k: nat): Local
    requires L.IsService(k)
  {
    ServeShort(ServeShort(x, run, k), run, k)
  }

  // Two turns of every service.
  function Served(x: Local, run: Services): Local {
    Twice(Twice(Twice(Twice(Twice(x, run, L.MONITOR), run, L.DEPLOY), run, L.EXECUTE), run, L.CONSOLE), run, L.FALLBACK)
  }

  lemma DoTwice(ops: seq<Op>, x: Snap, k: nat) returns (more: seq<Op>, y: Snap)
    requires Reached(ops, x) && L.IsService(k) && |x.waiting| < F.RING
    ensures Reached(more, y) && y == x.(own := Twice(x.own, Gated(x.view.run, x.hardware), k))
  {
    hide Reached, ServeShort, Gated;
    more, y := Do(ops, x, Serve(k));
    more, y := Do(more, y, Serve(k));
  }

  lemma DoTurns(ops: seq<Op>, x: Snap) returns (more: seq<Op>, y: Snap)
    requires Reached(ops, x) && |x.waiting| < F.RING
    ensures Reached(more, y) && y == x.(own := Served(x.own, Gated(x.view.run, x.hardware)))
  {
    hide Reached, Twice, Gated;
    more, y := DoTwice(ops, x, L.MONITOR);
    more, y := DoTwice(more, y, L.DEPLOY);
    more, y := DoTwice(more, y, L.EXECUTE);
    more, y := DoTwice(more, y, L.CONSOLE);
    more, y := DoTwice(more, y, L.FALLBACK);
  }

  lemma DoPoll(ops: seq<Op>, x: Snap, e: F.Event, rest: seq<F.Event>) returns (more: seq<Op>, y: Snap)
    requires Reached(ops, x) && x.waiting == [e] + rest && |rest| < F.RING - 1
    ensures Reached(more, y)
    ensures y == x.(state := F.NextState(x.state, e), view := Change(F.NextEffect(x.state, e), x.view), waiting := rest,
                    lastFallback := Remembered(F.NextEffect(x.state, e), x.lastFallback))
  {
    hide Reached, F.NextState, F.NextEffect, Change, Remembered;
    more, y := Do(ops, x, Poll);
  }

  // An event from outside joins those that wait.
  lemma Outer(ops: seq<Op>, x: Snap, e: F.Event) returns (more: seq<Op>, y: Snap)
    requires Reached(ops, x) && |x.waiting| < F.RING && FromOutside(e) && !e.FlashOk?
    ensures Reached(more, y) && y == x.(waiting := x.waiting + [e])
  {
    hide Reached;
    more, y := Do(ops, x, Outside(e));
  }

  // Or is polled next.
  lemma Meet(ops: seq<Op>, x: Snap, e: F.Event) returns (more: seq<Op>, y: Snap)
    requires Reached(ops, x) && x.waiting == [] && FromOutside(e) && !e.FlashOk?
    ensures Reached(more, y)
    ensures y == x.(state := F.NextState(x.state, e), view := Change(F.NextEffect(x.state, e), x.view),
                    lastFallback := Remembered(F.NextEffect(x.state, e), x.lastFallback))
  {
    hide Reached, F.NextState, F.NextEffect, Change, Remembered, FromOutside;
    more, y := Outer(ops, x, e);
    assert y.waiting == [e] + [];
    more, y := DoPoll(more, y, e, []);
  }

  lemma DoCheck(ops: seq<Op>, x: Snap) returns (more: seq<Op>, y: Snap)
    requires Reached(ops, x) && |x.waiting| < F.RING && x.registering == Between && x.view.check
    ensures Reached(more, y) && y == x.(registering := Checking)
  {
    hide Reached;
    more, y := Do(ops, x, Check);
  }

  lemma DoChoose(ops: seq<Op>, x: Snap, stored: bool) returns (more: seq<Op>, y: Snap)
    requires Reached(ops, x) && |x.waiting| < F.RING && x.registering == Checking
    ensures Reached(more, y)
    ensures y == x.(registering := Chosen(Trigger(x.hardware || stored, x.lastFallback)),
                    hardware := x.hardware || stored)
  {
    hide Reached;
    more, y := Do(ops, x, Choose(stored));
  }

  lemma DoPublish(ops: seq<Op>, x: Snap, e: F.Event) returns (more: seq<Op>, y: Snap)
    requires Reached(ops, x) && |x.waiting| < F.RING && x.registering == Chosen(e)
    ensures Reached(more, y) && y == x.(registering := Between, waiting := x.waiting + [e])
  {
    hide Reached;
    more, y := Do(ops, x, Publish);
  }

  // A check without a hardware version.
  lemma AskIdle(ops: seq<Op>, x: Snap) returns (more: seq<Op>, y: Snap)
    requires Reached(ops, x) && x.waiting == [] && x.registering == Checking && !x.hardware
    ensures Reached(more, y) && y == x.(registering := Between, waiting := [F.TriggerIdle])
  {
    hide Reached;
    more, y := DoChoose(ops, x, false);
    more, y := DoPublish(more, y, F.TriggerIdle);
  }

  lemma DoStart(ops: seq<Op>, x: Snap) returns (more: seq<Op>, y: Snap)
    requires Reached(ops, x) && |x.waiting| < F.RING
    requires x.own.phase == L.Resting && x.view.on && x.own.seen != Wants(x.view.wish)
    ensures Reached(more, y)
    ensures y == x.(own := x.own.(engage := Raise(x.own.engage, Wants(x.view.wish), true),
                                  disengage := Raise(x.own.disengage, Dismissed(x.view.wish), true),
                                  phase := L.Polling(x.view.wish)))
  {
    hide Reached, Raise, Wants, Dismissed;
    more, y := Do(ops, x, Launch);
    assert x.waiting + [] == x.waiting;
  }

  // From the loop to just before the report, whatever mode is being launched.
  lemma DoLeave(ops: seq<Op>, x: Snap, m: L.Wish) returns (more: seq<Op>, y: Snap)
    requires Reached(ops, x) && |x.waiting| < F.RING
    requires x.own.phase == L.Polling(m) && (x.own.confirm == Wants(x.view.wish) || x.own.seen == Wants(x.view.wish))
    ensures Reached(more, y)
    ensures y == x.(own := x.own.(seen := Wants(x.view.wish), phase := L.Checked(m, x.view.wish)))
  {
    hide Reached, Wants;
    assert x.waiting + [] == x.waiting;
    more, y := ops, x;
    if x.own.seen != Wants(x.view.wish) {
      more, y := Do(more, y, Launch);
      assert y == x.(own := x.own.(seen := Wants(x.view.wish)));
    }
    more, y := Do(more, y, Launch);
    assert y == x.(own := x.own.(seen := Wants(x.view.wish), phase := L.Leaving(m)));
    more, y := Do(more, y, Launch);
  }

  lemma DoReport(ops: seq<Op>, x: Snap, m: L.Wish, w: L.Wish) returns (more: seq<Op>, y: Snap)
    requires Reached(ops, x) && |x.waiting| < F.RING && x.own.phase == L.Checked(m, w)
    ensures Reached(more, y)
    ensures y == x.(own := x.own.(engage := Raise(x.own.engage, Wants(m), false),
                                  disengage := Raise(x.own.disengage, Dismissed(m), false), phase := L.Resting,
                                  reports := x.own.reports + [L.Report(L.EventOf(m), Row(x.own.seen), w)]),
                    waiting := x.waiting + [L.EventOf(m)])
  {
    hide Reached, Raise, Wants, Dismissed, Row;
    more, y := Do(ops, x, Launch);
  }

  // ---------------------------------------------------------------- four runs

  const CONSOLE := Services(false, false, false, true, false)
  const ALL := Services(true, true, true, true, true)

  lemma ServedUp(w: L.Wish, dismissed: Services, reports: seq<L.Report>)
    requires w == L.IdleMode || w == L.FallbackMode
    requires dismissed == Dismissed(w)
    ensures Served(Local(NOBODY, Wants(w), dismissed, NOBODY, NOBODY, L.Polling(w), reports), NOBODY)
         == Local(Wants(w), CONSOLE, NOBODY, NOBODY, NOBODY, L.Polling(w), reports)
  {
    var x := Local(NOBODY, Wants(w), dismissed, NOBODY, NOBODY, L.Polling(w), reports);
    var x1 := Twice(x, NOBODY, L.MONITOR);
    assert x1 == x.(confirm := NOBODY.(monitor := true), engage := x.engage.(monitor := false));
    var x2 := Twice(x1, NOBODY, L.DEPLOY);
    assert x2 == x1.(confirm := x1.confirm.(deploy := x.engage.deploy), engage := x1.engage.(deploy := false));
    var x3 := Twice(x2, NOBODY, L.EXECUTE);
    assert x3 == x2.(disengage := NOBODY);
    var x4 := Twice(x3, NOBODY, L.CONSOLE);
    assert x4 == x3.(confirm := x3.confirm.(console := true));
  }

  // No hardware version is found, idle mode is asked for and its launch begins; in again: another check has begun.
  lemma IdleAsked(again: bool) returns (ops: seq<Op>, x: Snap)
    ensures Reached(ops, x)
    ensures x == Snap(F.EngageIdle, View(true, L.IdleMode, NOBODY, false), [],
                      Local(NOBODY, IDLE, NOBODY, NOBODY, NOBODY, L.Polling(L.IdleMode), []),
                      false, if again then Checking else Between, false)
  {
    hide Reached;
    StartReached();
    ops, x := DoPoll([], FRESH, F.FlashOk, []);
    ops, x := DoCheck(ops, x);
    ops, x := AskIdle(ops, x);
    if again { ops, x := DoCheck(ops, x); }
    ops, x := DoPoll(ops, x, F.TriggerIdle, []);
    ops, x := DoStart(ops, x);
  }

  const IDLE_REPORT := L.Report(F.SetIdle, Row(IDLE), L.IdleMode)

  // Idle mode is up; the button asks for the access point, and every service is to go.
  lemma IdleLeft(again: bool) returns (ops: seq<Op>, x: Snap)
    ensures Reached(ops, x)
    ensures x == Snap(F.IdleSet, View(true, L.NoOne, NOBODY, false), [],
                      Local(IDLE, NOBODY, ALL, NOBODY, IDLE, L.Polling(L.NoOne), [IDLE_REPORT]),
                      false, if again then Checking else Between, false)
  {
    hide Reached, Row, Served;
    ops, x := IdleAsked(again);
    ServedUp(L.IdleMode, NOBODY, []);
    ops, x := DoTurns(ops, x);
    ops, x := DoLeave(ops, x, L.IdleMode);
    ops, x := DoReport(ops, x, L.IdleMode, L.IdleMode);
    assert x.own == Local(IDLE, NOBODY, NOBODY, NOBODY, IDLE, L.Resting, [IDLE_REPORT]);
    ops, x := DoPoll(ops, x, F.SetIdle, []);
    ops, x := Meet(ops, x, F.SetAp);
    ops, x := DoStart(ops, x);
  }

  // And fallback is asked for while they are going.
  lemma AskedTooSoon() returns (ops: seq<Op>, x: Snap)
    ensures Reached(ops, x)
    ensures x == Snap(F.EngageFallback, View(true, L.FallbackMode, NOBODY, false), [],
                      Local(IDLE, NOBODY, ALL, NOBODY, IDLE, L.Polling(L.NoOne), [IDLE_REPORT]), false, Between, true)
  {
    hide Reached, Row;
    ops, x := IdleLeft(false);
    ops, x := Meet(ops, x, F.TriggerFallback);
  }

  // Fallback is asked for during a check; its services come up.
  lemma FallbackUp() returns (ops: seq<Op>, x: Snap)
    ensures Reached(ops, x)
    ensures x == Snap(F.EngageFallback, View(true, L.FallbackMode, NOBODY, false), [],
                      Local(FALLBACK, CONSOLE, NOBODY, NOBODY, NOBODY, L.Polling(L.FallbackMode), []),
                      false, Checking, true)
  {
    hide Reached, Served;
    StartReached();
    ops, x := DoPoll([], FRESH, F.FlashOk, []);
    ops, x := DoCheck(ops, x);
    ops, x := Meet(ops, x, F.TriggerFallback);
    ops, x := DoStart(ops, x);
    ServedUp(L.FallbackMode, Services(false, false, true, false, false), []);
    ops, x := DoTurns(ops, x);
  }

  // The button asks for the access point instead, and the check ends in asking for idle mode.
  lemma IdleTooLate() returns (ops: seq<Op>, x: Snap)
    ensures Reached(ops, x)
    ensures x == Snap(F.EngageIdle, View(true, L.IdleMode, NOBODY, false), [],
                      Local(FALLBACK, CONSOLE, NOBODY, NOBODY, NOBODY, L.Polling(L.FallbackMode), []),
                      false, Between, true)
  {
    hide Reached;
    ops, x := FallbackUp();
    ops, x := Meet(ops, x, F.SetAp);
    ops, x := AskIdle(ops, x);
    ops, x := DoPoll(ops, x, F.TriggerIdle, []);
  }

  const SET_REPORT := L.Report(F.SetFallback, Row(FALLBACK), L.FallbackMode)
  const WRONG_REPORT := L.Report(F.Disengaged, Row(FALLBACK), L.FallbackMode)

  // Fallback mode is reached, and the check then ends in asking for idle mode.
  lemma FallbackLeft() returns (ops: seq<Op>, x: Snap)
    ensures Reached(ops, x)
    ensures x == Snap(F.Registration, View(true, L.NoOne, NOBODY, false), [],
                      Local(FALLBACK, NOBODY, NOBODY, NOBODY, FALLBACK, L.Resting, [SET_REPORT]), false, Between, true)
  {
    hide Reached, Row;
    ops, x := FallbackUp();
    ops, x := DoLeave(ops, x, L.FallbackMode);
    ops, x := DoReport(ops, x, L.FallbackMode, L.FallbackMode);
    assert x.own == Local(FALLBACK, NOBODY, NOBODY, NOBODY, FALLBACK, L.Resting, [SET_REPORT]);
    ops, x := DoPoll(ops, x, F.SetFallback, []);
    ops, x := AskIdle(ops, x);
    ops, x := DoPoll(ops, x, F.TriggerIdle, []);
  }

  // The services are to go, but before they do fallback is asked for again.
  lemma Misreported() returns (ops: seq<Op>, x: Snap)
    ensures Reached(ops, x)
    ensures x == Snap(F.Registration, View(true, L.FallbackMode, NOBODY, false), [],
                      Local(FALLBACK, NOBODY, NOBODY, NOBODY, FALLBACK, L.Resting, [SET_REPORT, WRONG_REPORT]),
                      false, Between, true)
  {
    hide Reached, Row;
    ops, x := FallbackLeft();
    ops, x := DoStart(ops, x);
    ops, x := Meet(ops, x, F.TriggerFallback);
    ops, x := DoLeave(ops, x, L.NoOne);
    ops, x := DoReport(ops, x, L.NoOne, L.FallbackMode);
    ops, x := DoPoll(ops, x, F.Disengaged, []);
  }

  const GONE_REPORT := L.Report(F.Disengaged, Row(NOBODY), L.NoOne)

  // No services to go on the wish for none: what those that are going do. The console keeps its request.
  lemma ServedGone(reports: seq<L.Report>)
    ensures Served(Local(IDLE, NOBODY, ALL, NOBODY, IDLE, L.Polling(L.NoOne), reports), NOBODY)
         == Local(NOBODY, NOBODY, CONSOLE, NOBODY, IDLE, L.Polling(L.NoOne), reports)
  {
    var x := Local(IDLE, NOBODY, ALL, NOBODY, IDLE, L.Polling(L.NoOne), reports);
    var x1 := Twice(x, NOBODY, L.MONITOR);
    assert x1 == x.(confirm := CONSOLE, disengage := ALL.(monitor := false));
    var x2 := Twice(x1, NOBODY, L.DEPLOY);
    assert x2 == x1.(disengage := Services(false, false, true, true, true));
    var x3 := Twice(x2, NOBODY, L.EXECUTE);
    assert x3 == x2.(disengage := Services(false, false, false, true, true));
    var x4 := Twice(x3, NOBODY, L.CONSOLE);
    assert x4 == x3.(confirm := NOBODY);
  }

  // Idle mode is left with a check under way; fallback is asked for, the check ends in asking for idle mode, and
  // fallback is asked for again before the services that are going have been reported gone.
  lemma GoneUnreported() returns (ops: seq<Op>, x: Snap)
    ensures Reached(ops, x)
    ensures x == Snap(F.FallbackSet, View(true, L.FallbackMode, NOBODY, false), [F.TriggerFallback],
                      Local(NOBODY, NOBODY, CONSOLE, NOBODY, NOBODY, L.Checked(L.NoOne, L.NoOne), [IDLE_REPORT]),
                      false, Between, true)
  {
    hide Reached, Row, Served;
    ops, x := IdleLeft(true);
    ServedGone([IDLE_REPORT]);
    ops, x := DoTurns(ops, x);
    ops, x := DoLeave(ops, x, L.NoOne);
    ops, x := Meet(ops, x, F.TriggerFallback);
    ops, x := AskIdle(ops, x);
    ops, x := DoPoll(ops, x, F.TriggerIdle, []);
    ops, x := Outer(ops, x, F.TriggerFallback);
  }

  // They are, late; the launch of fallback mode goes all the way, and its report is late in turn.
  lemma SetUnreported() returns (ops: seq<Op>, x: Snap)
    ensures Reached(ops, x)
    ensures x == Snap(F.Registration, View(true, L.NoOne, NOBODY, true), [],
                      Local(FALLBACK, CONSOLE, NOBODY, NOBODY, FALLBACK, L.Checked(L.FallbackMode, L.FallbackMode),
                            [IDLE_REPORT, GONE_REPORT]), false, Between, false)
  {
    hide Reached, Row, Served;
    ops, x := GoneUnreported();
    ops, x := DoReport(ops, x, L.NoOne, L.NoOne);
    assert x.waiting == [F.TriggerFallback] + [F.Disengaged];
    assert x.own == Local(NOBODY, NOBODY, NOBODY, NOBODY, NOBODY, L.Resting, [IDLE_REPORT, GONE_REPORT]);
    ops, x := DoStart(ops, x);
    ServedUp(L.FallbackMode, Services(false, false, true, false, false), [IDLE_REPORT, GONE_REPORT]);
    ops, x := DoTurns(ops, x);
    ops, x := DoLeave(ops, x, L.FallbackMode);
    ops, x := DoPoll(ops, x, F.TriggerFallback, [F.Disengaged]);
    ops, x := DoPoll(ops, x, F.Disengaged, []);
  }

  const RUN_REPORTS: seq<L.Report> :=
    [IDLE_REPORT, GONE_REPORT, SET_REPORT, WRONG_REPORT]

  // Fallback is asked for once more; meanwhile the hardware version is found, and a check is to ask for running mode.
  lemma KeysLoadedLate() returns (ops: seq<Op>, x: Snap)
    ensures Reached(ops, x)
    ensures x == Snap(F.EngageFallback, View(true, L.FallbackMode, NOBODY, false), [F.SetFallback],
                      Local(FALLBACK, NOBODY, ALL, NOBODY, FALLBACK, L.Polling(L.NoOne), RUN_REPORTS[..3]),
                      true, Chosen(F.CertsLoaded), true)
  {
    hide Reached, Row;
    ops, x := SetUnreported();
    ops, x := Outer(ops, x, F.TriggerFallback);
    assert x.waiting == [F.TriggerFallback];
    ops, x := DoReport(ops, x, L.FallbackMode, L.FallbackMode);
    assert x.waiting == [F.TriggerFallback] + [F.SetFallback];
    assert x.own == Local(FALLBACK, NOBODY, NOBODY, NOBODY, FALLBACK, L.Resting, RUN_REPORTS[..3]);
    ops, x := DoStart(ops, x);
    ops, x := DoCheck(ops, x);
    ops, x := DoChoose(ops, x, true);
    ops, x := DoPoll(ops, x, F.TriggerFallback, [F.SetFallback]);
  }

  // A wrong report sends the machine from fallback back to registration with the fallback service on, and then
  // running mode is asked for.
  lemma FallbackKept() returns (ops: seq<Op>, x: Snap)
    ensures Reached(ops, x)
    ensures x == Snap(F.Engagement, View(true, L.RunningMode, FALLBACK, false), [],
                      Local(FALLBACK, RUNNING, Services(false, false, false, false, true), NOBODY, FALLBACK,
                            L.Polling(L.RunningMode), RUN_REPORTS), true, Between, true)
  {
    hide Reached, Row;
    ops, x := KeysLoadedLate();
    ops, x := DoLeave(ops, x, L.NoOne);
    ops, x := DoReport(ops, x, L.NoOne, L.FallbackMode);
    assert x.own == Local(FALLBACK, NOBODY, NOBODY, NOBODY, FALLBACK, L.Resting, RUN_REPORTS);
    ops, x := DoPoll(ops, x, F.SetFallback, [F.Disengaged]);
    ops, x := DoPoll(ops, x, F.Disengaged, []);
    ops, x := DoPublish(ops, x, F.CertsLoaded);
    ops, x := DoPoll(ops, x, F.CertsLoaded, []);
    ops, x := DoStart(ops, x);
  }

  // ---------------------------------------------------------------- and there is no way on

  // Nothing waits but what comes from outside.
  predicate OutsideOnly(m: F.Fsm)
    requires F.Sized(m)
  {
    forall i :: 0 <= i < F.RING && m.cells[i].pending ==> FromOutside(m.cells[i].event)
  }

  // States that the wish's report, or an event that asks for a mode, would have to lead on from.
  predicate Bound(state: F.State, w: L.Wish) {
    match w
    case RunningMode => state == F.Engagement || state == F.Disengage || state == F.Error
    case IdleMode => state == F.EngageIdle || state == F.Error
    case FallbackMode => state == F.EngageFallback || state == F.Registration || state == F.Error
    case NoOne => false
  }

  // Asking for fallback again changes nothing.
  predicate Fixed(v: View) {
    v.wish == L.FallbackMode ==> v == Change(F.TryFallback, v)
  }

  lemma BoundOn(m: F.Mode, e: F.Event)
    requires var v := Viewed(m.flags); Bound(m.state, v.wish) && Fixed(v) && FromOutside(e)
    ensures var v := Viewed(m.flags); Bound(F.React(m, e).state, v.wish) && Viewed(F.React(m, e).flags) == v
  {
    hide F.Apply, Viewed, Change;
    EffectBound(m.state, Viewed(m.flags).wish, e);
    ApplyViewed(F.NextEffect(m.state, e), m.flags);
    QuietKeeps(F.NextEffect(m.state, e), Viewed(m.flags));
  }

  lemma EffectBound(s: F.State, w: L.Wish, e: F.Event)
    requires Bound(s, w) && FromOutside(e)
    ensures Bound(F.NextState(s, e), w)
    ensures F.Quiet(F.NextEffect(s, e)) || (w == L.FallbackMode && F.NextEffect(s, e) == F.TryFallback)
  {
  }

  lemma QuietKeeps(x: F.Effect, v: View)
    ensures F.Quiet(x) ==> Change(x, v) == v
  {
  }

  // No turn of launcher or services leads to a report: a service cannot come to where the wish needs it, or the
  // launcher rests with what it saw last being the wish.
  ghost predicate Silent(b: L.System, k: nat) {
    P.Mute(b, k) || (L.Sized(b) && b.phase == L.Resting && b.confirmed == L.Number(b.wish))
  }

  ghost predicate DeadEnd(h: Hub, v: View, k: nat) {
    && Sized(h) && OutsideOnly(h.fsm) && h.registering == Between
    && Viewed(h.fsm.mode.flags) == v && !v.check && Fixed(v) && Bound(h.fsm.mode.state, v.wish)
    && h.board == Wired(h.board, v, h.hardware) && Silent(h.board, k)
  }

  function Wired(b: L.System, v: View, hardware: bool): L.System {
    b.(wish := v.wish, on := v.on, run := Row(Gated(v.run, hardware)))
  }

  lemma WireViewed(b: L.System, f: F.Flags, hardware: bool)
    ensures Wire(b, f, hardware) == Wired(b, Viewed(f), hardware)
  {
    hide WishOf, Row, Gated;
  }

  lemma LaunchSilent(b: L.System, k: nat)
    requires Silent(b, k)
    ensures L.Sized(b) && Silent(L.Launch(b), k) && L.Launch(b).reports == b.reports && !b.phase.Checked?
  {
    hide L.Number, L.Code, L.SetEngage, L.SetDismiss, P.Reaches;
    if P.Mute(b, k) { P.LaunchMute(b, k); }
  }

  lemma ServeSilent(b: L.System, k: nat, j: nat)
    requires Silent(b, k) && L.IsService(j)
    ensures L.Sized(b) && Silent(L.Serve(b, j), k) && L.Serve(b, j).reports == b.reports
  {
    hide L.Serve, L.Number, P.Reaches;
    L.ServeFrame(b, j);
    if P.Mute(b, k) { P.ServeMute(b, k, j); }
  }

  // Selecting the hardware version can only keep services running.
  lemma SelectSilent(b: L.System, v: View, hardware: bool, k: nat)
    requires Silent(b, k) && b == Wired(b, v, hardware)
    ensures Silent(Wired(b, v, true), k)
  {
    hide L.Number, L.Wanted;
    assert forall j :: 0 <= j < L.CONFIRMATIONS ==> b.run[j] == Bit(Gated(v.run, hardware), j);
    assert forall j :: 0 <= j < L.CONFIRMATIONS ==> (Bit(Gated(v.run, hardware), j) ==> Bit(Gated(v.run, true), j));
  }

  lemma PollDeadEnd(h: Hub, v: View, k: nat)
    requires DeadEnd(h, v, k)
    ensures DeadEnd(PollStep(h), v, k) && PollStep(h).board == h.board
  {
    hide Silent, Viewed, Wire, Wired, F.React, Bound, Fixed, FromOutside, F.NextEffect;
    var c := h.fsm.cells[h.fsm.head];
    if c.pending { BoundOn(h.fsm.mode, c.event); }
    WireViewed(h.board, F.Poll(h.fsm).mode.flags, h.hardware);
  }

  lemma QueueOutside(m: F.Fsm, es: seq<F.Event>)
    requires F.Sized(m) && OutsideOnly(m) && |es| <= 1 && forall e :: e in es ==> FromOutside(e)
    ensures OutsideOnly(QueueAll(m, es)) && QueueAll(m, es).mode == m.mode
  {
    hide FromOutside;
    if es != [] { assert es[0] in es; }
  }

  lemma StepDeadEnd(h: Hub, v: View, op: Op, k: nat)
    requires DeadEnd(h, v, k) && Legal(op)
    ensures DeadEnd(Step(h, op), v, k) && Step(h, op).board.reports == h.board.reports
  {
    hide Silent, L.Launch, L.Serve, PollStep, Bound, Fixed, Row, Gated, FromOutside, QueueAll, OutsideOnly, Viewed,
      Wire;
    match op {
      case Poll => PollDeadEnd(h, v, k);
      case Launch =>
        LaunchSilent(h.board, k);
        LaunchKeeps(h.board);
        QueueOutside(h.fsm, []);
      case Serve(j) =>
        ServeSilent(h.board, k, j);
        ServeKeeps(h.board, j);
      case Layout =>
        SelectSilent(h.board, v, h.hardware, k);
        WireViewed(h.board, h.fsm.mode.flags, true);
      case Outside(e) => QueueOutside(h.fsm, Queues(h, op));
      case Check => CheckViewed(h.fsm.mode.flags);
      case _ =>
    }
  }

  lemma {:induction false} DeadEndForever(h: Hub, v: View, k: nat, ops: seq<Op>)
    requires DeadEnd(h, v, k) && Sized(h) && AllLegal(ops)
    ensures DeadEnd(Run(h, ops), v, k) && Run(h, ops).board.reports == h.board.reports
    decreases |ops|
  {
    hide Step, DeadEnd;
    if ops != [] {
      StepDeadEnd(h, v, ops[0], k);
      DeadEndForever(Step(h, ops[0]), v, k, ops[1..]);
    }
  }

  // Whatever happens after these steps, the state stays bound and nothing is reported.
  ghost predicate Hangs(ops: seq<Op>, w: L.Wish)
    requires AllLegal(ops)
  {
    var h := Run(Start(false), ops);
    && Bound(h.fsm.mode.state, w) && h.board.wish == w
    && forall more: seq<Op> | AllLegal(more) ::
         Bound(Run(h, more).fsm.mode.state, w) && Run(h, more).board.reports == h.board.reports
  }

  lemma NothingWaits(m: F.Fsm)
    requires F.Sized(m) && Waits(m, [])
    ensures OutsideOnly(m)
  {
    var g: F.History :| F.Represents(m, g) && g.all[g.taken..] == [];
    assert |g.all| == g.taken;
    forall i | 0 <= i < F.RING ensures !m.cells[i].pending {
      var start := g.taken - g.taken % F.RING;
      var n := if i >= g.taken % F.RING then start + i else start + i + F.RING;
      F.Quotient(n, if i >= g.taken % F.RING then g.taken / F.RING else g.taken / F.RING + 1, i);
      assert F.Slot(n) == i;
    }
  }

  lemma EntersDeadEnd(h: Hub, x: Snap, k: nat)
    requires Follows(h, x) && x.waiting == [] && x.registering == Between && !x.view.check && Fixed(x.view)
    requires Bound(x.state, x.view.wish) && Silent(BoardOf(x.own, x.view, x.hardware), k)
    ensures DeadEnd(h, x.view, k)
  {
    hide Silent, Bound, Fixed, Row, Gated, Viewed, L.Code, Waits;
    NothingWaits(h.fsm);
  }

  lemma FollowsMeans(h: Hub, x: Snap)
    requires Follows(h, x)
    ensures h.fsm.mode.state == x.state && h.board.wish == x.view.wish && h.board.reports == x.own.reports
  {
    hide Waits, Viewed, Row, L.Code;
  }

  lemma DeadEndMeans(h: Hub, v: View, k: nat)
    requires DeadEnd(h, v, k)
    ensures Bound(h.fsm.mode.state, v.wish)
  {
  }

  lemma HangsFrom(ops: seq<Op>, x: Snap, k: nat)
    requires Reached(ops, x) && x.waiting == [] && x.registering == Between && !x.view.check && Fixed(x.view)
    requires Bound(x.state, x.view.wish) && Silent(BoardOf(x.own, x.view, x.hardware), k)
    ensures AllLegal(ops) && Hangs(ops, x.view.wish)
    ensures Run(Start(false), ops).board.reports == x.own.reports && Run(Start(false), ops).fsm.mode.state == x.state
  {
    hide Follows, Silent, Bound, Start, Run, DeadEnd, Fixed, BoardOf;
    var h := Run(Start(false), ops);
    EntersDeadEnd(h, x, k);
    FollowsMeans(h, x);
    DeadEndMeans(h, x.view, k);
    forall more: seq<Op> | AllLegal(more)
      ensures Bound(Run(h, more).fsm.mode.state, x.view.wish) && Run(h, more).board.reports == h.board.reports
    {
      DeadEndForever(h, x.view, k, more);
      DeadEndMeans(Run(h, more), x.view, k);
    }
  }

  lemma Muted(x: Local, v: View, hardware: bool, m: L.Wish, k: nat)
    requires L.IsService(k) && x.phase == L.Polling(m) && x.seen != Wants(v.wish)
    requires Bit(x.confirm, k) != L.Wanted(v.wish, k)
    requires if L.Wanted(v.wish, k) then !Bit(x.engage, k) && !Bit(x.busy, k)
             else !Bit(x.disengage, k) || Bit(Gated(v.run, hardware), k)
    ensures Silent(BoardOf(x, v, hardware), k)
  {
    hide L.Code, L.Number, Bit, Gated, Wants, L.Wanted, Row;
    SeenIsWish(x.seen, v.wish);
  }

  lemma Rested(x: Local, v: View, hardware: bool)
    requires x.phase == L.Resting && x.seen == Wants(v.wish)
    ensures Silent(BoardOf(x, v, hardware), L.FALLBACK)
  {
    hide L.Code, L.Number, Wants, Row;
    SeenIsWish(x.seen, v.wish);
  }

  // ---------------------------------------------------------------- main results

  /** Fallback is asked for while the services of idle mode are being sent away: the launcher is still in that
      launch, which never engages the fallback service, and never ends. No two tasks need to race for this. */
  lemma AskedTooSoonHangs() returns (ops: seq<Op>)
    ensures AllLegal(ops) && Hangs(ops, L.FallbackMode)
    ensures Run(Start(false), ops).fsm.mode.state == F.EngageFallback
    ensures Run(Start(false), ops).board.reports == [L.Report(F.SetIdle, L.SetOf(L.IdleMode), L.IdleMode)]
  {
    hide Reached, Row, Hangs, Run, Start, Silent;
    var x;
    ops, x := AskedTooSoon();
    Muted(x.own, x.view, x.hardware, L.NoOne, L.FALLBACK);
    RowsWanted(L.IdleMode);
    HangsFrom(ops, x, L.FALLBACK);
  }

  /** Idle mode is asked for by a check that began before fallback was: the deployment service is up by then, and
      nobody sends it away. */
  lemma IdleTooLateHangs() returns (ops: seq<Op>)
    ensures AllLegal(ops) && Hangs(ops, L.IdleMode)
    ensures Run(Start(false), ops).fsm.mode.state == F.EngageIdle && Run(Start(false), ops).board.reports == []
  {
    hide Reached, Row, Hangs, Run, Start, Silent;
    var x;
    ops, x := IdleTooLate();
    Muted(x.own, x.view, x.hardware, L.FallbackMode, L.DEPLOY);
    HangsFrom(ops, x, L.DEPLOY);
  }

  /** The services of fallback mode are reported gone while all of them are up, and the machine takes it for true. */
  lemma MisreportedHangs() returns (ops: seq<Op>)
    ensures AllLegal(ops) && Hangs(ops, L.FallbackMode)
    ensures Run(Start(false), ops).fsm.mode.state == F.Registration
    ensures Run(Start(false), ops).board.reports == [
      L.Report(F.SetFallback, L.SetOf(L.FallbackMode), L.FallbackMode),
      L.Report(F.Disengaged, L.SetOf(L.FallbackMode), L.FallbackMode)]
  {
    hide Reached, Row, Hangs, Run, Start, Silent;
    var x;
    ops, x := Misreported();
    Rested(x.own, x.view, x.hardware);
    RowsWanted(L.FallbackMode);
    HangsFrom(ops, x, L.FALLBACK);
  }

  /** Running mode is engaged with the fallback service kept on, and never reached. In this run a registration check
      begins before what the last one asked for has been polled. */
  lemma FallbackKeptHangs() returns (ops: seq<Op>)
    ensures AllLegal(ops) && Hangs(ops, L.RunningMode)
    ensures var h := Run(Start(false), ops);
      && h.fsm.mode.state == F.Engagement && h.board.confirm[L.FALLBACK] && h.board.run[L.FALLBACK]
  {
    hide Reached, Row, Hangs, Run, Start, Silent;
    var x;
    ops, x := FallbackKept();
    Muted(x.own, x.view, x.hardware, L.RunningMode, L.FALLBACK);
    HangsFrom(ops, x, L.FALLBACK);
    KeptOn(ops, x);
  }

  lemma KeptOn(ops: seq<Op>, x: Snap)
    requires Reached(ops, x) && x.own.confirm.fallback && x.view.run.fallback && x.hardware
    ensures AllLegal(ops)
    ensures var b := Run(Start(false), ops).board; b.confirm[L.FALLBACK] && b.run[L.FALLBACK]
  {
    hide Run, Start, Waits, Viewed, L.Code;
  }
}
