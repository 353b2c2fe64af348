/** The launcher (src/launcher.c) and its handshake with the five service tasks: it raises request flags, polls
    the confirmations until they add up to the wish, and then reports a mode to the state machine. */
module Launcher {
  import Fsm = MasterFsm

  // runningActivationFlags
  const MONITOR := 0
  const DEPLOY := 1
  const EXECUTE := 2
  const CONSOLE := 3
  const UPDATER := 4
  const AP := 5
  const FALLBACK := 6
  const CONFIRMATIONS := 7

  // ---------------------------------------------------------------- confirmations as a number

  // The first k confirmations, each shifted to its place and or-ed in.
  function CodeUpTo(c: seq<bool>, k: nat): bv8
    requires k <= |c| && k <= CONFIRMATIONS
  {
    if k == 0 then 0 else CodeUpTo(c, k - 1) | ((if c[k - 1] then 1 else 0) << (k - 1))
  }

  function Code(c: seq<bool>): bv8
    requires |c| == CONFIRMATIONS
  {
    CodeUpTo(c, CONFIRMATIONS)
  }

  // updateCurrent
  method UpdateCurrent(c: array<bool>) returns (code: bv8)
    requires c.Length == CONFIRMATIONS
    ensures code == Code(c[..])
  {
    code := 0;
    for k := 0 to CONFIRMATIONS
      invariant code == CodeUpTo(c[..], k)
    {
      code := code | ((if c[k] then 1 else 0) << k);
    }
  }

  lemma CodeBits(c: seq<bool>)
    requires |c| == CONFIRMATIONS
    ensures Code(c) == Bit(c[0], 1) | Bit(c[1], 2) | Bit(c[2], 4) | Bit(c[3], 8) | Bit(c[4], 16) | Bit(c[5], 32)
                     | Bit(c[6], 64)
  {
    assert CodeUpTo(c, 0) == 0;
    assert CodeUpTo(c, 1) == Bit(c[0], 1);
    assert CodeUpTo(c, 2) == CodeUpTo(c, 1) | Bit(c[1], 2);
    assert CodeUpTo(c, 3) == CodeUpTo(c, 2) | Bit(c[2], 4);
    assert CodeUpTo(c, 4) == CodeUpTo(c, 3) | Bit(c[3], 8);
    assert CodeUpTo(c, 5) == CodeUpTo(c, 4) | Bit(c[4], 16);
    assert CodeUpTo(c, 6) == CodeUpTo(c, 5) | Bit(c[5], 32);
    assert CodeUpTo(c, 7) == CodeUpTo(c, 6) | Bit(c[6], 64);
  }

  function Bit(b: bool, v: bv8): bv8 {
    if b then v else 0
  }

  lemma BitsInjective(a: seq<bool>, b: seq<bool>)
    requires |a| == CONFIRMATIONS && |b| == CONFIRMATIONS
    requires Bit(a[0], 1) | Bit(a[1], 2) | Bit(a[2], 4) | Bit(a[3], 8) | Bit(a[4], 16) | Bit(a[5], 32) | Bit(a[6], 64)
          == Bit(b[0], 1) | Bit(b[1], 2) | Bit(b[2], 4) | Bit(b[3], 8) | Bit(b[4], 16) | Bit(b[5], 32) | Bit(b[6], 64)
    ensures a == b
  {
    assert a[0] == b[0] && a[1] == b[1] && a[2] == b[2] && a[3] == b[3] && a[4] == b[4] && a[5] == b[5] && a[6] == b[6];
  }

  /** Different confirmations give different numbers. */
  lemma CodeInjective(a: seq<bool>, b: seq<bool>)
    requires |a| == CONFIRMATIONS && |b| == CONFIRMATIONS && Code(a) == Code(b)
    ensures a == b
  {
    CodeBits(a);
    CodeBits(b);
    BitsInjective(a, b);
  }

  // ---------------------------------------------------------------- modes

  datatype Wish = NoOne | IdleMode | RunningMode | FallbackMode

  // desired_running_t
  function Number(w: Wish): bv8 {
    match w
    case NoOne => 0
    case IdleMode => 9
    case RunningMode => 15
    case FallbackMode => 75
  }

  // The confirmations that make up a mode.
  predicate Wanted(w: Wish, k: nat) {
    match w
    case NoOne => false
    case IdleMode => k == MONITOR || k == CONSOLE
    case RunningMode => k == MONITOR || k == DEPLOY || k == EXECUTE || k == CONSOLE
    case FallbackMode => k == MONITOR || k == DEPLOY || k == CONSOLE || k == FALLBACK
  }

  function SetOf(w: Wish): (c: seq<bool>)
    ensures |c| == CONFIRMATIONS && forall k :: 0 <= k < CONFIRMATIONS ==> c[k] == Wanted(w, k)
  {
    seq(CONFIRMATIONS, k requires 0 <= k < CONFIRMATIONS => Wanted(w, k))
  }

  // The event that reports a mode.
  function EventOf(w: Wish): Fsm.Event {
    match w
    case NoOne => Fsm.Disengaged
    case IdleMode => Fsm.SetIdle
    case RunningMode => Fsm.Engaged
    case FallbackMode => Fsm.SetFallback
  }

  lemma ModeNumbers(w: Wish)
    ensures Code(SetOf(w)) == Number(w)
  {
    CodeBits(SetOf(w));
  }

  /** The number of a mode is polled exactly when the confirmations are that mode's. */
  lemma NumberMeansSet(c: seq<bool>, w: Wish)
    requires |c| == CONFIRMATIONS
    ensures Code(c) == Number(w) <==> c == SetOf(w)
  {
    ModeNumbers(w);
    if Code(c) == Number(w) { CodeInjective(c, SetOf(w)); }
  }

  // ---------------------------------------------------------------- the launcher and the services

  datatype Phase =
    | Resting
    | Polling(mode: Wish)             // in the loop of launch_*
    | Leaving(mode: Wish)             // out of the loop, about to compare once more
    | Checked(mode: Wish, wish: Wish) // compared equal with this wish, about to report

  // A reported event, with the confirmations last polled and the wish they were compared with.
  datatype Report = Report(event: Fsm.Event, seen: seq<bool>, wish: Wish)

  // busy: a service that has seen its engage flag and not confirmed yet. seen: what confirmed was computed from.
  datatype System = System(confirm: seq<bool>, engage: seq<bool>, disengage: seq<bool>, run: seq<bool>, busy: seq<bool>,
                           on: bool, wish: Wish, confirmed: bv8, seen: seq<bool>, phase: Phase, reports: seq<Report>)

  predicate Sized(s: System) {
    && |s.confirm| == CONFIRMATIONS && |s.engage| == CONFIRMATIONS && |s.disengage| == CONFIRMATIONS
    && |s.run| == CONFIRMATIONS && |s.busy| == CONFIRMATIONS && |s.seen| == CONFIRMATIONS
  }

  predicate IsService(k: nat) {
    k < CONFIRMATIONS && k != UPDATER && k != AP
  }

  // Which services a launch asks to engage, and which to disengage.
  predicate Engages(w: Wish, k: nat) {
    Wanted(w, k)
  }

  predicate Dismisses(w: Wish, k: nat) {
    match w
    case NoOne => IsService(k)
    case IdleMode => false
    case RunningMode => k == FALLBACK
    case FallbackMode => k == EXECUTE
  }

  function SetEngage(f: seq<bool>, w: Wish, value: bool): (g: seq<bool>)
    ensures |g| == |f| && forall k :: 0 <= k < |f| ==> g[k] == if Engages(w, k) then value else f[k]
  {
    seq(|f|, k requires 0 <= k < |f| => if Engages(w, k) then value else f[k])
  }

  function SetDismiss(f: seq<bool>, w: Wish, value: bool): (g: seq<bool>)
    ensures |g| == |f| && forall k :: 0 <= k < |f| ==> g[k] == if Dismisses(w, k) then value else f[k]
  {
    seq(|f|, k requires 0 <= k < |f| => if Dismisses(w, k) then value else f[k])
  }

  // One step of launcher_task.
  function Launch(s: System): (t: System)
    requires Sized(s)
    ensures Sized(t)
  {
    match s.phase
    case Resting =>
      if s.on && Number(s.wish) != s.confirmed then
        s.(engage := SetEngage(s.engage, s.wish, true),
           disengage := SetDismiss(s.disengage, s.wish, true), phase := Polling(s.wish))
      else s
    case Polling(m) =>
      if Number(s.wish) != s.confirmed then s.(confirmed := Code(s.confirm), seen := s.confirm)
      else s.(phase := Leaving(m))
    case Leaving(m) => s.(phase := if Number(s.wish) == s.confirmed then Checked(m, s.wish) else Resting)
    case Checked(m, w) =>
      s.(engage := SetEngage(s.engage, m, false),
         disengage := SetDismiss(s.disengage, m, false),
         phase := Resting, reports := s.reports + [Report(EventOf(m), s.seen, w)])
  }

  // One turn of a service task; engaging may take long, so it is two steps. The console never lowers its flags.
  function Serve(s: System, k: nat): (t: System)
    requires Sized(s) && IsService(k)
    ensures Sized(t)
  {
    if s.busy[k] then
      s.(busy := s.busy[k := false], confirm := s.confirm[k := true],
         engage := if k == CONSOLE then s.engage else s.engage[k := false])
    else if s.engage[k] then s.(busy := s.busy[k := true])
    else if s.run[k] then s
    else if s.disengage[k] then
      s.(confirm := s.confirm[k := false],
         disengage := if k == CONSOLE then s.disengage else s.disengage[k := false])
    else s
  }

  datatype Op =
    | DoLaunch
    | DoServe(service: nat)
    | DoWish(wish: Wish)               // setDesired
    | DoRun(service: nat, value: bool) // the state machine's effects
    | DoSwitch(value: bool)            // launcher_run_flag
    | DoOther(other: nat, value: bool) // the update and access point confirmations

  predicate Legal(op: Op) {
    match op
    case DoServe(k) => IsService(k)
    case DoRun(k, _) => IsService(k)
    case DoOther(k, _) => k == UPDATER || k == AP
    case _ => true
  }

  function Step(s: System, op: Op): (t: System)
    requires Sized(s) && Legal(op)
    ensures Sized(t)
  {
    match op
    case DoLaunch => Launch(s)
    case DoServe(k) => Serve(s, k)
    case DoWish(w) => s.(wish := w)
    case DoRun(k, b) => s.(run := s.run[k := b])
    case DoSwitch(b) => s.(on := b)
    case DoOther(k, b) => s.(confirm := s.confirm[k := b])
  }

  predicate AllLegal(ops: seq<Op>) {
    forall i :: 0 <= i < |ops| ==> Legal(ops[i])
  }

  function Run(s: System, ops: seq<Op>): (t: System)
    requires Sized(s) && AllLegal(ops)
    ensures Sized(t)
    decreases |ops|
  {
    if ops == [] then s else Run(Step(s, ops[0]), ops[1..])
  }

  // ---------------------------------------------------------------- what is reported

  ghost predicate Honest(s: System) {
    && Sized(s) && s.confirmed == Code(s.seen)
    && (s.phase.Checked? ==> s.seen == SetOf(s.phase.wish))
    && forall i :: 0 <= i < |s.reports| ==> s.reports[i].seen == SetOf(s.reports[i].wish)
  }

  lemma StepHonest(s: System, op: Op)
    requires Honest(s) && Legal(op)
    ensures Honest(Step(s, op))
  {
    hide Code, SetOf, SetEngage, SetDismiss, Number;
    NumberMeansSet(s.seen, s.wish);
  }

  /** In every run, the confirmations polled before a report are those of the wish they were compared with; so
      the event names their mode exactly when that wish is still the mode being launched. */
  lemma {:induction false} ReportsAreOfTheWish(s: System, ops: seq<Op>, i: nat, mode: Wish)
    requires Honest(s) && AllLegal(ops) && i < |Run(s, ops).reports|
    requires Run(s, ops).reports[i].event == EventOf(mode)
    ensures var r := Run(s, ops).reports[i];
      r.seen == SetOf(r.wish) && (r.seen == SetOf(mode) <==> r.wish == mode)
  {
    RunHonest(s, ops);
    SetsDiffer(Run(s, ops).reports[i].wish, mode);
  }

  lemma {:induction false} RunHonest(s: System, ops: seq<Op>)
    requires Honest(s) && AllLegal(ops)
    ensures Honest(Run(s, ops))
    decreases |ops|
  {
    hide Honest, Step;
    assert Sized(s) by { HonestSized(s); }
    if ops != [] {
      StepHonest(s, ops[0]);
      RunHonest(Step(s, ops[0]), ops[1..]);
    }
  }

  lemma HonestSized(s: System)
    requires Honest(s)
    ensures Sized(s)
  {
  }

  lemma SetsDiffer(v: Wish, w: Wish)
    ensures SetOf(v) == SetOf(w) <==> v == w
  {
    ModeNumbers(v);
    ModeNumbers(w);
  }

  // Every launch under way is for the present wish, and so was every new report.
  ghost predicate Faithful(s: System, before: nat) {
    && Honest(s) && before <= |s.reports|
    && (s.phase.Polling? || s.phase.Leaving? || s.phase.Checked? ==> s.phase.mode == s.wish)
    && (s.phase.Checked? ==> s.phase.wish == s.wish)
    && forall i :: before <= i < |s.reports| ==>
         s.reports[i].wish == s.wish && s.reports[i].event == EventOf(s.wish)
  }

  lemma StepFaithful(s: System, op: Op, before: nat)
    requires Faithful(s, before) && Legal(op) && !op.DoWish?
    ensures Faithful(Step(s, op), before) && Step(s, op).wish == s.wish
  {
    StepHonest(s, op);
    hide Code, SetOf, SetEngage, SetDismiss, Number, Honest;
  }

  /** While the wish stays the same, every event reported is that wish's event, and the confirmations last
      polled before it are exactly that mode's. */
  lemma {:induction false} SteadyWishIsReported(s: System, ops: seq<Op>)
    requires Honest(s) && s.phase == Resting && AllLegal(ops) && forall i :: 0 <= i < |ops| ==> !ops[i].DoWish?
    ensures forall i :: |s.reports| <= i < |Run(s, ops).reports| ==>
      Run(s, ops).reports[i] == Report(EventOf(s.wish), SetOf(s.wish), s.wish)
  {
    RunFaithful(s, ops, |s.reports|);
  }

  lemma {:induction false} RunFaithful(s: System, ops: seq<Op>, before: nat)
    requires Faithful(s, before) && AllLegal(ops) && forall i :: 0 <= i < |ops| ==> !ops[i].DoWish?
    ensures Faithful(Run(s, ops), before) && Run(s, ops).wish == s.wish
    decreases |ops|
  {
    hide Faithful, Step;
    assert Sized(s) by { FaithfulSized(s, before); }
    if ops != [] {
      StepFaithful(s, ops[0], before);
      RunFaithful(Step(s, ops[0]), ops[1..], before);
    }
  }

  lemma FaithfulSized(s: System, before: nat)
    requires Faithful(s, before)
    ensures Sized(s)
  {
  }

  /** A wish that changes while a launch is polling is reported under the wrong name: the confirmations of the new
      wish w as the event of the mode m being launched. */
  lemma ChangedWishIsMisreported(s: System, m: Wish, w: Wish)
    requires Sized(s) && s.phase == Polling(m) && s.wish == w && s.confirm == SetOf(w) && s.confirmed != Number(w)
    ensures AllLegal(FOUR_TURNS) && Run(s, FOUR_TURNS).reports == s.reports + [Report(EventOf(m), SetOf(w), w)]
  {
    hide Code, SetOf, SetEngage, SetDismiss, CodeUpTo;
    ModeNumbers(w);
    var s1 := Launch(s);
    var s2 := Launch(s1);
    var s3 := Launch(s2);
    var ops := FOUR_TURNS;
    assert ops[1..] == [DoLaunch, DoLaunch, DoLaunch] && ops[1..][1..] == [DoLaunch, DoLaunch]
        && ops[1..][1..][1..] == [DoLaunch] && ops[1..][1..][1..][1..] == [];
    assert Run(Launch(s3), []) == Launch(s3);
    assert Run(s3, [DoLaunch]) == Launch(s3);
    assert Run(s2, [DoLaunch, DoLaunch]) == Launch(s3);
    assert Run(s1, [DoLaunch, DoLaunch, DoLaunch]) == Launch(s3);
  }

  const FOUR_TURNS := [DoLaunch, DoLaunch, DoLaunch, DoLaunch]

  // ---------------------------------------------------------------- silence

  predicate NoneEngaging(s: System)
    requires Sized(s)
  {
    forall k :: 0 <= k < CONFIRMATIONS && IsService(k) ==> !s.engage[k] && !s.busy[k]
  }

  predicate NoneConfirmed(s: System)
    requires Sized(s)
  {
    forall k :: 0 <= k < CONFIRMATIONS && IsService(k) ==> !s.confirm[k]
  }

  // Somewhere along the run an engage flag is up.
  predicate EverRaised(s: System, ops: seq<Op>)
    requires Sized(s) && AllLegal(ops)
    decreases |ops|
  {
    !NoneEngaging(s) || (ops != [] && EverRaised(Step(s, ops[0]), ops[1..]))
  }

  /** Services that are off, and not being engaged, stay off until an engage flag goes up. */
  lemma {:induction false} SilentUntilRaised(s: System, ops: seq<Op>)
    requires Sized(s) && AllLegal(ops) && NoneEngaging(s) && NoneConfirmed(s)
    ensures NoneConfirmed(Run(s, ops)) || EverRaised(s, ops)
    decreases |ops|
  {
    hide Code, SetEngage, SetDismiss;
    if ops != [] && NoneEngaging(Step(s, ops[0])) {
      StepSilent(s, ops[0]);
      SilentUntilRaised(Step(s, ops[0]), ops[1..]);
    }
  }

  lemma StepSilent(s: System, op: Op)
    requires Sized(s) && Legal(op) && NoneEngaging(s) && NoneConfirmed(s)
    ensures NoneConfirmed(Step(s, op))
  {
    hide Code, SetEngage, SetDismiss;
  }

  // The wish is to have nobody running, and nothing is being engaged.
  ghost predicate Calm(s: System, before: nat) {
    && Sized(s) && s.wish == NoOne && NoneEngaging(s)
    && (s.confirmed == 0 ==> NoneConfirmed(s))
    && (s.phase.Polling? || s.phase.Leaving? || s.phase.Checked? ==> s.phase.mode == NoOne)
    && (s.phase.Checked? ==> s.confirmed == 0)
    && before <= |s.reports|
    && (|s.reports| > before ==> s.confirmed == 0 && s.phase == Resting)
  }

  lemma StepCalm(s: System, op: Op, before: nat)
    requires Calm(s, before) && Legal(op) && !op.DoWish?
    ensures Calm(Step(s, op), before)
  {
    match op {
      case DoLaunch => LaunchCalm(s, before);
      case DoServe(k) =>
        hide Launch, Code, Serve, NoneEngaging, NoneConfirmed;
        StepCalmServe(s, k);
      case _ => { hide Launch, Code, Serve; }
    }
  }

  lemma LaunchCalm(s: System, before: nat)
    requires Calm(s, before)
    ensures Calm(Launch(s), before)
  {
    hide Code, SetEngage, SetDismiss;
    NumberMeansSet(s.confirm, NoOne);
  }

  lemma StepCalmServe(s: System, k: nat)
    requires Sized(s) && IsService(k) && NoneEngaging(s)
    ensures NoneEngaging(Serve(s, k)) && (NoneConfirmed(s) ==> NoneConfirmed(Serve(s, k)))
    ensures var t := Serve(s, k);
      t.wish == s.wish && t.confirmed == s.confirmed && t.phase == s.phase && t.reports == s.reports
  {
  }

  /** A disengagement that nothing interferes with: once it is reported, no service is confirmed, and none is
      at any later moment while the wish stays. */
  lemma {:induction false} DisengagedMeansOff(s: System, ops: seq<Op>, before: nat)
    requires Calm(s, before) && AllLegal(ops) && forall i :: 0 <= i < |ops| ==> !ops[i].DoWish?
    ensures Calm(Run(s, ops), before)
    ensures |Run(s, ops).reports| > before ==> NoneConfirmed(Run(s, ops))
    decreases |ops|
  {
    hide Step;
    if ops != [] {
      StepCalm(s, ops[0], before);
      hide Calm;
      DisengagedMeansOff(Step(s, ops[0]), ops[1..], before);
    }
  }

  // ---------------------------------------------------------------- when a launch completes

  // A service that the mode does not want is on, and either was not asked to leave or is kept running.
  predicate Stuck(s: System, m: Wish, k: nat) {
    && Sized(s) && IsService(k) && s.wish == m && s.phase == Polling(m) && s.confirmed != Number(m)
    && s.confirm[k] && !Wanted(m, k) && (!s.disengage[k] || s.run[k])
  }

  lemma StepStuck(s: System, op: Op, m: Wish, k: nat)
    requires Stuck(s, m, k) && Legal(op) && !op.DoWish? && (op != DoRun(k, false) || !s.disengage[k])
    ensures Stuck(Step(s, op), m, k) && Step(s, op).reports == s.reports
    ensures !s.disengage[k] ==> !Step(s, op).disengage[k]
  {
    match op {
      case DoLaunch => LaunchStuck(s, m, k);
      case DoServe(j) => ServeStuck(s, m, k, j);
      case _ => { hide Number, Code, Launch, Serve; }
    }
  }

  lemma LaunchStuck(s: System, m: Wish, k: nat)
    requires Stuck(s, m, k)
    ensures Stuck(Launch(s), m, k) && Launch(s).reports == s.reports && Launch(s).disengage == s.disengage
  {
    hide Code, SetEngage, SetDismiss, Wanted, Number;
    NumberMeansSet(s.confirm, m);
  }

  lemma ServeStuck(s: System, m: Wish, k: nat, j: nat)
    requires Stuck(s, m, k) && IsService(j)
    ensures Stuck(Serve(s, j), m, k) && Serve(s, j).reports == s.reports
    ensures !s.disengage[k] ==> !Serve(s, j).disengage[k]
  {
    hide Wanted, Number, Serve;
    ServeFrame(s, j);
  }

  // A turn of service j touches nothing but that service's flags; it confirms or stays, unless it was dismissed.
  lemma ServeFrame(s: System, j: nat)
    requires Sized(s) && IsService(j)
    ensures var t := Serve(s, j);
      && t.wish == s.wish && t.on == s.on && t.run == s.run && t.phase == s.phase && t.confirmed == s.confirmed
      && t.seen == s.seen && t.reports == s.reports
      && (forall k :: 0 <= k < CONFIRMATIONS && k != j ==>
            t.confirm[k] == s.confirm[k] && t.disengage[k] == s.disengage[k]
            && t.engage[k] == s.engage[k] && t.busy[k] == s.busy[k])
      && (t.disengage[j] ==> s.disengage[j])
      && (s.confirm[j] && (!s.disengage[j] || s.run[j]) ==> t.confirm[j] && t.disengage[j] == s.disengage[j])
  {
    if s.busy[j] {
      assert Serve(s, j).confirm == s.confirm[j := true];
    } else if s.engage[j] {
      assert Serve(s, j) == s.(busy := s.busy[j := true]);
    }
  }

  /** Such a launch never ends: whatever the tasks do, nothing is reported while the wish stays and the service,
      if it was asked to leave, is not switched off. */
  lemma {:induction false} StuckForever(s: System, ops: seq<Op>, m: Wish, k: nat)
    requires Stuck(s, m, k) && AllLegal(ops)
    requires forall i :: 0 <= i < |ops| ==> !ops[i].DoWish? && (ops[i] != DoRun(k, false) || !s.disengage[k])
    ensures Run(s, ops).reports == s.reports
    decreases |ops|
  {
    if ops != [] {
      StepStuck(s, ops[0], m, k);
      hide Stuck, Step;
      StuckForever(Step(s, ops[0]), ops[1..], m, k);
    }
  }

  // Every service is where the mode wants it, or on its way there.
  predicate Ready(s: System, m: Wish) {
    && Sized(s) && s.wish == m && s.phase == Polling(m) && s.confirmed != Number(m)
    && !s.confirm[UPDATER] && !s.confirm[AP]
    && forall k: nat :: k < CONFIRMATIONS && IsService(k) ==> Placed(s, m, k)
  }

  predicate Placed(s: System, m: Wish, k: nat)
    requires Sized(s) && IsService(k)
  {
    if Wanted(m, k) then (s.confirm[k] || s.engage[k] || s.busy[k]) && (!s.disengage[k] || s.run[k])
    else !s.engage[k] && !s.busy[k] && (s.confirm[k] ==> s.disengage[k] && !s.run[k])
  }

  // The turns service k still needs.
  function Work(s: System, m: Wish, k: nat): nat
    requires Sized(s) && IsService(k)
  {
    if Wanted(m, k) then (if s.confirm[k] then 0 else if s.busy[k] then 1 else 2)
    else if s.confirm[k] then 1 else 0
  }

  // The turn of the service itself.
  lemma ServeAt(s: System, m: Wish, k: nat)
    requires Sized(s) && IsService(k) && Placed(s, m, k)
    ensures Placed(Serve(s, k), m, k)
    ensures Work(Serve(s, k), m, k) == if Work(s, m, k) > 0 then Work(s, m, k) - 1 else 0
  {
    hide Wanted, Number;
  }

  lemma ServeWorks(s: System, m: Wish, k: nat)
    requires Ready(s, m) && IsService(k)
    ensures Ready(Serve(s, k), m) && Serve(s, k).reports == s.reports
    ensures forall j :: 0 <= j < CONFIRMATIONS && IsService(j) ==>
      Work(Serve(s, k), m, j) == if j == k && Work(s, m, k) > 0 then Work(s, m, k) - 1 else Work(s, m, j)
  {
    hide Wanted, Number, Serve;
    ServeFrame(s, k);
    forall j: nat | j < CONFIRMATIONS && IsService(j)
      ensures Placed(Serve(s, k), m, j)
      ensures Work(Serve(s, k), m, j) == if j == k && Work(s, m, k) > 0 then Work(s, m, k) - 1 else Work(s, m, j)
    {
      assert Placed(s, m, j);
      if j == k { ServeAt(s, m, k); }
    }
  }

  // How often service k gets its turn.
  function Turns(ops: seq<Op>, k: nat): nat {
    if ops == [] then 0 else (if ops[0] == DoServe(k) then 1 else 0) + Turns(ops[1..], k)
  }

  lemma {:induction false} RunAppend(s: System, xs: seq<Op>, ys: seq<Op>)
    requires Sized(s) && AllLegal(xs) && AllLegal(ys)
    ensures AllLegal(xs + ys) && Run(s, xs + ys) == Run(Run(s, xs), ys)
    decreases |xs|
  {
    hide Step;
    if xs == [] {
      assert xs + ys == ys;
    } else {
      assert (xs + ys)[1..] == xs[1..] + ys;
      RunAppend(Step(s, xs[0]), xs[1..], ys);
    }
  }

  // Out of the loop for the right reason, but not yet reported; and reported.
  predicate Closing(s: System, m: Wish) {
    && Sized(s) && s.wish == m && s.confirmed == Number(m) && s.seen == SetOf(m)
    && (s.phase == Polling(m) || s.phase == Leaving(m) || s.phase == Checked(m, m))
  }

  predicate Closed(s: System, m: Wish) {
    Sized(s) && s.wish == m && s.confirmed == Number(m) && s.phase == Resting
  }

  // How far a launch is that started with these reports.
  predicate Underway(s: System, m: Wish, before: seq<Report>) {
    || (Ready(s, m) && s.reports == before)
    || (Closing(s, m) && s.reports == before)
    || (Closed(s, m) && s.reports == before + [Report(EventOf(m), SetOf(m), m)])
  }

  // The steps the launcher still needs once the services are done.
  function Steps(s: System): nat {
    match s.phase
    case Polling(_) => if s.confirmed == Number(s.wish) then 3 else 4
    case Leaving(_) => 2
    case Checked(_, _) => 1
    case Resting => 0
  }

  predicate Worked(s: System, m: Wish)
    requires Sized(s)
  {
    Ready(s, m) ==> forall k :: 0 <= k < CONFIRMATIONS && IsService(k) ==> Work(s, m, k) == 0
  }

  lemma LaunchReady(s: System, m: Wish)
    requires Ready(s, m)
    ensures Launch(s).reports == s.reports && (Ready(Launch(s), m) || Closing(Launch(s), m))
    ensures forall k :: 0 <= k < CONFIRMATIONS && IsService(k) ==> Work(Launch(s), m, k) == Work(s, m, k)
    ensures Worked(s, m) ==> Closing(Launch(s), m) && Steps(Launch(s)) == 3
  {
    hide Code, SetEngage, SetDismiss, Number;
    NumberMeansSet(s.confirm, m);
    forall k: nat | k < CONFIRMATIONS && IsService(k) ensures Placed(Launch(s), m, k) { assert Placed(s, m, k); }
    if Worked(s, m) {
      forall k | 0 <= k < CONFIRMATIONS ensures s.confirm[k] == Wanted(m, k) {
        if IsService(k) { assert Work(s, m, k) == 0; }
      }
    }
  }

  lemma LaunchClosing(s: System, m: Wish, before: seq<Report>)
    requires Underway(s, m, before) && !Ready(s, m)
    ensures Underway(Launch(s), m, before) && !Ready(Launch(s), m)
    ensures Steps(Launch(s)) == if Steps(s) > 0 then Steps(s) - 1 else 0
  {
    hide Code, SetEngage, SetDismiss, SetOf;
    ModeNumbers(m);
  }

  // A turn of the launcher or of one service.
  predicate TaskTurn(op: Op) {
    op.DoLaunch? || (op.DoServe? && IsService(op.service))
  }

  predicate TaskTurns(ops: seq<Op>) {
    forall i :: 0 <= i < |ops| ==> TaskTurn(ops[i])
  }

  lemma ServeUnderway(s: System, m: Wish, before: seq<Report>, k: nat)
    requires Underway(s, m, before) && IsService(k)
    ensures Underway(Serve(s, k), m, before) && Steps(Serve(s, k)) == Steps(s)
    ensures !Ready(s, m) ==> !Ready(Serve(s, k), m)
    ensures Ready(s, m) ==> Ready(Serve(s, k), m)
    ensures Ready(s, m) ==> forall j :: 0 <= j < CONFIRMATIONS && IsService(j) ==>
      Work(Serve(s, k), m, j) == if j == k && Work(s, m, k) > 0 then Work(s, m, k) - 1 else Work(s, m, j)
  {
    hide Serve, Number, SetOf, Work, Placed;
    ServeFrame(s, k);
    if Ready(s, m) { ServeWorks(s, m, k); }
  }

  // After these turns every service that had enough of them is done.
  lemma {:induction false} TurnsWork(s: System, m: Wish, before: seq<Report>, ops: seq<Op>)
    requires Underway(s, m, before) && TaskTurns(ops)
    ensures AllLegal(ops) && Sized(s) && Underway(Run(s, ops), m, before)
    ensures Ready(Run(s, ops), m) ==> Ready(s, m)
    ensures Ready(Run(s, ops), m) ==> forall k :: 0 <= k < CONFIRMATIONS && IsService(k) ==>
      Work(Run(s, ops), m, k) <= if Turns(ops, k) >= Work(s, m, k) then 0 else Work(s, m, k) - Turns(ops, k)
    decreases |ops|
  {
    hide Ready, Serve, Launch, Work, Closing, Closed;
    UnderwaySized(s, m, before);
    if ops != [] {
      OneTurn(s, m, before, ops[0]);
      hide Underway;
      TurnsWork(Step(s, ops[0]), m, before, ops[1..]);
    } else {
      assert forall k :: Turns(ops, k) == 0;
    }
  }

  lemma UnderwaySized(s: System, m: Wish, before: seq<Report>)
    requires Underway(s, m, before)
    ensures Sized(s)
  {
  }

  lemma OneTurn(s: System, m: Wish, before: seq<Report>, op: Op)
    requires Underway(s, m, before) && TaskTurn(op)
    ensures Legal(op) && Sized(s) && Underway(Step(s, op), m, before)
    ensures Ready(Step(s, op), m) ==> Ready(s, m)
    ensures Ready(Step(s, op), m) ==> forall k :: 0 <= k < CONFIRMATIONS && IsService(k) ==>
      Work(Step(s, op), m, k) == if op == DoServe(k) && Work(s, m, k) > 0 then Work(s, m, k) - 1 else Work(s, m, k)
  {
    hide Serve, Launch, Work;
    UnderwaySized(s, m, before);
    match op
    case DoServe(k) => ServeUnderway(s, m, before, k);
    case _ => if Ready(s, m) { LaunchReady(s, m); } else { LaunchClosing(s, m, before); }
  }

  function Launches(ops: seq<Op>): nat {
    if ops == [] then 0 else (if ops[0] == DoLaunch then 1 else 0) + Launches(ops[1..])
  }

  // Then the launcher gets to its report.
  lemma {:induction false} LaunchesClose(s: System, m: Wish, before: seq<Report>, ops: seq<Op>)
    requires Underway(s, m, before) && Sized(s) && Worked(s, m) && TaskTurns(ops) && Launches(ops) >= Steps(s)
    ensures AllLegal(ops) && Closed(Run(s, ops), m)
    ensures Run(s, ops).reports == before + [Report(EventOf(m), SetOf(m), m)]
    decreases |ops|
  {
    hide Serve, Launch, Work;
    if ops != [] {
      OneTurn(s, m, before, ops[0]);
      match ops[0] {
        case DoServe(k) => ServeUnderway(s, m, before, k);
        case _ => if Ready(s, m) { LaunchReady(s, m); } else { LaunchClosing(s, m, before); }
      }
      hide Step;
      LaunchesClose(Step(s, ops[0]), m, before, ops[1..]);
    }
  }

  /** However launcher and services interleave: once each service has had two turns and the launcher four after
      that, the mode has been reported, once, and the confirmations polled were exactly that mode's. */
  lemma ReadyLaunchReports(s: System, m: Wish, ops: seq<Op>, more: seq<Op>)
    requires Ready(s, m) && TaskTurns(ops) && TaskTurns(more)
    requires forall k :: 0 <= k < CONFIRMATIONS && IsService(k) ==> Turns(ops, k) >= 2
    requires Launches(more) >= 4
    ensures AllLegal(ops + more)
    ensures Run(s, ops + more).reports == s.reports + [Report(EventOf(m), SetOf(m), m)]
  {
    hide Turns, Code, Launches, Ready, Closing, Closed;
    assert Sized(s) && Underway(s, m, s.reports) by { UnderwaySized(s, m, s.reports); }
    TurnsWork(s, m, s.reports, ops);
    UnderwaySized(Run(s, ops), m, s.reports);
    LaunchesClose(Run(s, ops), m, s.reports, more);
    RunAppend(s, ops, more);
  }

  // A launch about to start, with no request left over from before.
  predicate Fresh(s: System) {
    && Sized(s) && s.phase == Resting && s.on && Number(s.wish) != s.confirmed
    && !s.confirm[UPDATER] && !s.confirm[AP]
    && forall k :: 0 <= k < CONFIRMATIONS && IsService(k) ==> !s.engage[k] && !s.disengage[k] && !s.busy[k]
  }

  // Every service that is on and not wanted is one the launch dismisses, and is not kept running by its run flag.
  predicate Clear(s: System)
    requires Sized(s)
  {
    forall k :: 0 <= k < CONFIRMATIONS && IsService(k) && s.confirm[k] && !Wanted(s.wish, k) ==>
      Dismisses(s.wish, k) && !s.run[k]
  }

  lemma StuckAtOnce(s: System, k: nat)
    requires Fresh(s) && IsService(k) && s.confirm[k] && !Wanted(s.wish, k) && !(Dismisses(s.wish, k) && !s.run[k])
    ensures Stuck(Launch(s), s.wish, k) && Launch(s).reports == s.reports
    ensures Launch(s).disengage[k] <==> Dismisses(s.wish, k)
  {
    hide Code, Number, Wanted, Dismisses;
  }

  lemma ReadyOrStuck(s: System)
    requires Fresh(s)
    ensures if Clear(s) then Ready(Launch(s), s.wish) else exists k: nat :: Stuck(Launch(s), s.wish, k)
    ensures Launch(s).reports == s.reports
  {
    var m, t := s.wish, Launch(s);
    if k: nat :| k < CONFIRMATIONS && IsService(k) && s.confirm[k] && !Wanted(m, k) && !(Dismisses(m, k) && !s.run[k]) {
      StuckAtOnce(s, k);
    }
  }

  /** A launch completes exactly when every service that is on and not wanted is one it dismisses, and is not kept
      running by its run flag: then, however launcher and services interleave, enough turns of each bring the one
      report; otherwise none ever comes. */
  lemma LaunchCompletesIff(s: System, ops: seq<Op>, more: seq<Op>)
    requires Fresh(s) && TaskTurns(ops) && TaskTurns(more) && Launches(more) >= 4
    requires forall k :: 0 <= k < CONFIRMATIONS && IsService(k) ==> Turns(ops, k) >= 2
    ensures AllLegal(ops + more)
    ensures var r := Run(Launch(s), ops + more).reports;
      && (Clear(s) <==> r == s.reports + [Report(EventOf(s.wish), SetOf(s.wish), s.wish)])
      && (!Clear(s) ==> r == s.reports)
  {
    hide Turns, Launches, Clear, Stuck, Ready, Launch;
    ReadyOrStuck(s);
    var t := Launch(s);
    if Clear(s) {
      ReadyLaunchReports(t, s.wish, ops, more);
    } else {
      var k: nat :| Stuck(t, s.wish, k);
      StuckForever(t, ops + more, s.wish, k);
    }
  }

  /** A launch of idle mode dismisses nobody: with the deployment, execution or fallback service still on it never
      completes. */
  lemma IdleNeedsOthersOff(s: System, ops: seq<Op>)
    requires Fresh(s) && s.wish == IdleMode && (s.confirm[DEPLOY] || s.confirm[EXECUTE] || s.confirm[FALLBACK])
    requires AllLegal(ops) && forall i :: 0 <= i < |ops| ==> !ops[i].DoWish?
    ensures Run(Launch(s), ops).reports == s.reports
  {
    var k := if s.confirm[DEPLOY] then DEPLOY else if s.confirm[EXECUTE] then EXECUTE else FALLBACK;
    StuckAtOnce(s, k);
    hide Launch, Stuck;
    StuckForever(Launch(s), ops, IdleMode, k);
  }

  /** Nor running mode while the fallback service is kept switched on; module HubRuns shows how it comes to that. */
  lemma RunningWithFallbackIsStuck(s: System, ops: seq<Op>)
    requires Fresh(s) && s.wish == RunningMode && s.confirm[FALLBACK] && s.run[FALLBACK]
    requires AllLegal(ops) && forall i :: 0 <= i < |ops| ==> !ops[i].DoWish? && ops[i] != DoRun(FALLBACK, false)
    ensures Run(Launch(s), ops).reports == s.reports
  {
    StuckAtOnce(s, FALLBACK);
    hide Launch, Stuck;
    StuckForever(Launch(s), ops, RunningMode, FALLBACK);
  }

  // ---------------------------------------------------------------- on the flag arrays

  class Board {
    const confirm: array<bool>   // run_confirmation_flag
    const engage: array<bool>    // engage_activation_flags, by service
    const disengage: array<bool> // disengage_activation_flags, by service
    const run: array<bool>       // run_activation_flags, by service
    const busy: array<bool>
    var on: bool                 // launcher_run_flag
    var desired: Wish
    var confirmed: bv8           // confirmed_running
    var phase: Phase
    ghost var seen: seq<bool>
    ghost var reports: seq<Report>

    ghost predicate Valid()
      reads this, confirm, engage, disengage, run, busy
    {
      && Sized(Value())
      && confirm != engage && confirm != disengage && confirm != run && confirm != busy && engage != disengage
      && engage != run && engage != busy && disengage != run && disengage != busy && run != busy
    }

    ghost function Value(): System
      reads this, confirm, engage, disengage, run, busy
    {
      System(confirm[..], engage[..], disengage[..], run[..], busy[..], on, desired, confirmed, seen, phase, reports)
    }

    // Every flag off, nobody wanted.
    constructor ()
      ensures Valid() && Honest(Value()) && NoneEngaging(Value()) && NoneConfirmed(Value()) && phase == Resting
      ensures fresh(confirm) && fresh(engage) && fresh(disengage) && fresh(run) && fresh(busy)
    {
      confirm := new bool[CONFIRMATIONS](_ => false);
      engage := new bool[CONFIRMATIONS](_ => false);
      disengage := new bool[CONFIRMATIONS](_ => false);
      run := new bool[CONFIRMATIONS](_ => false);
      busy := new bool[CONFIRMATIONS](_ => false);
      on, desired, confirmed, phase, reports := false, NoOne, 0, Resting, [];
      seen := SetOf(NoOne);
      ModeNumbers(NoOne);
    }

    method RequestDisengagement(value: bool)
      requires Valid()
      modifies disengage
      ensures Valid() && disengage[..] == SetDismiss(old(disengage[..]), NoOne, value)
    {
      disengage[MONITOR], disengage[DEPLOY], disengage[EXECUTE] := value, value, value;
      disengage[CONSOLE], disengage[FALLBACK] := value, value;
      SameRow(disengage[..], SetDismiss(old(disengage[..]), NoOne, value));
    }

    method RequestIdle(value: bool)
      requires Valid()
      modifies engage
      ensures Valid() && engage[..] == SetEngage(old(engage[..]), IdleMode, value)
    {
      engage[MONITOR], engage[CONSOLE] := value, value;
      SameRow(engage[..], SetEngage(old(engage[..]), IdleMode, value));
    }

    method RequestEngagement(value: bool)
      requires Valid()
      modifies engage, disengage
      ensures Valid() && engage[..] == SetEngage(old(engage[..]), RunningMode, value)
      ensures disengage[..] == SetDismiss(old(disengage[..]), RunningMode, value)
    {
      engage[MONITOR], engage[DEPLOY], engage[EXECUTE], engage[CONSOLE] := value, value, value, value;
      disengage[FALLBACK] := value;
      SameRow(engage[..], SetEngage(old(engage[..]), RunningMode, value));
      SameRow(disengage[..], SetDismiss(old(disengage[..]), RunningMode, value));
    }

    method RequestFallback(value: bool)
      requires Valid()
      modifies engage, disengage
      ensures Valid() && engage[..] == SetEngage(old(engage[..]), FallbackMode, value)
      ensures disengage[..] == SetDismiss(old(disengage[..]), FallbackMode, value)
    {
      engage[MONITOR], engage[DEPLOY], engage[CONSOLE], engage[FALLBACK] := value, value, value, value;
      disengage[EXECUTE] := value;
      SameRow(engage[..], SetEngage(old(engage[..]), FallbackMode, value));
      SameRow(disengage[..], SetDismiss(old(disengage[..]), FallbackMode, value));
    }

    // The requests of launch_disengagement, launch_idle, launch_engagement and launch_fallback.
    method Request(m: Wish, value: bool)
      requires Valid()
      modifies engage, disengage
      ensures Valid()
      ensures Value() == old(Value()).(engage := SetEngage(old(engage[..]), m, value),
                                       disengage := SetDismiss(old(disengage[..]), m, value))
    {
      hide SetOf, Code, Number;
      match m {
        case NoOne => RequestDisengagement(value);
        case IdleMode => RequestIdle(value);
        case RunningMode => RequestEngagement(value);
        case FallbackMode => RequestFallback(value);
      }
      if m == NoOne { assert engage[..] == SetEngage(old(engage[..]), m, value); }
      if m == IdleMode { assert disengage[..] == SetDismiss(old(disengage[..]), m, value); }
    }

    static lemma SameRow(a: seq<bool>, b: seq<bool>)
      requires |a| == |b| == CONFIRMATIONS && a[0] == b[0] && a[1] == b[1] && a[2] == b[2] && a[3] == b[3]
      requires a[4] == b[4] && a[5] == b[5] && a[6] == b[6]
      ensures a == b
    {
    }

    // One step of launcher_task.
    method Turn()
      requires Valid()
      modifies this, engage, disengage
      ensures Valid() && Value() == Launch(old(Value()))
    {
      hide Code, CodeUpTo, SetEngage, SetDismiss;
      match phase {
        case Resting =>
          if on && Number(desired) != confirmed {
            Request(desired, true);
            phase := Polling(desired);
          }
        case Polling(m) =>
          if Number(desired) != confirmed {
            confirmed := UpdateCurrent(confirm);
            seen := confirm[..];
          } else {
            phase := Leaving(m);
          }
        case Leaving(m) =>
          phase := if Number(desired) == confirmed then Checked(m, desired) else Resting;
        case Checked(m, w) =>
          Request(m, false);
          reports := reports + [Report(EventOf(m), seen, w)];
          phase := Resting;
      }
    }

    // One turn of the main loop of service task k.
    method ServiceTurn(k: nat)
      requires Valid() && IsService(k)
      modifies confirm, engage, disengage, busy
      ensures Valid() && Value() == Serve(old(Value()), k)
    {
      if busy[k] {
        busy[k] := false;
        confirm[k] := true;
        if k != CONSOLE { engage[k] := false; }
      } else if engage[k] {
        busy[k] := true;
      } else if run[k] {
      } else if disengage[k] {
        confirm[k] := false;
        if k != CONSOLE { disengage[k] := false; }
      }
    }
  }
}
