/** The master state machine (src/lavigoMasterFSM.c), its ring of ten events and its effects on the flags that
    switch tasks on and off (src/MFSMEffects.c). */
module MasterFsm {
  // masterFSM_state, in the order of the table's rows
  datatype State = Flash | Registration | Engagement | Running | Disengage | EngageUpdate | Update
    | EngageAp | ApSet | EngageFallback | FallbackSet | EngageIdle | IdleSet | Error

  // masterFSM_events, in the order of the table's columns
  datatype Event = FlashOk | CertsLoaded | CertsMissing | Connected | ConnectFailed | Validated | ValidateFailed
    | Engaged | Disengaged | TriggerUpdate | SetAp | TriggerFallback | SetFallback | TriggerIdle | SetIdle | ErrorEvent

  datatype Effect = Nothing | ReportError | Register | Engage | Disengages | FallbackOff | Run | StartUpdate
    | ApOn | ApOff | TryFallback | FallbackOn | TryIdle | IdleOn | IdleOff

  // The modes of include/launcher.h
  const NO_ONE := 0
  const IDLE_MODE := 9
  const RUNNING_MODE := 15
  const FALLBACK_MODE := 75

  // run_activation_flags, check_activation_flags and the wish handed to the launcher
  datatype Flags = Flags(launcher: bool, monitor: bool, deploy: bool, execute: bool, console: bool, fallback: bool,
                         update: bool, mqtt: bool,
                         checkRegistration: bool, checkInternet: bool, checkCloud: bool, checkUpdate: bool,
                         desired: nat)

  const ALL_OFF :=
    Flags(false, false, false, false, false, false, false, false, false, false, false, false, NO_ONE)

  function NextState(s: State, e: Event): State {
    match s
    case Flash =>
      (match e
       case FlashOk | CertsMissing => Registration
       case CertsLoaded => Engagement
       case Connected | ConnectFailed | Validated | ValidateFailed => Flash
       case Engaged => Running
       case _ => Error)
    case Registration =>
      (match e
       case CertsLoaded => Engagement
       case Engaged => Running
       case Disengaged | TriggerUpdate | ErrorEvent => Error
       case TriggerFallback => EngageFallback
       case TriggerIdle => EngageIdle
       case _ => Registration)
    case Engagement =>
      (match e
       case FlashOk => Disengage
       case CertsLoaded | CertsMissing | Disengaged | ErrorEvent => Error
       case Engaged => Running
       case _ => Engagement)
    case Running =>
      (match e
       case FlashOk => Disengage
       case CertsLoaded | CertsMissing | ErrorEvent => Error
       case TriggerUpdate => EngageUpdate
       case SetAp => EngageAp
       case TriggerFallback | SetFallback => EngageFallback
       case TriggerIdle => EngageIdle
       case _ => Running)
    case Disengage =>
      (match e
       case FlashOk | CertsLoaded | CertsMissing | Engaged | ErrorEvent => Error
       case Disengaged => Registration
       case _ => Disengage)
    case EngageUpdate =>
      (match e
       case FlashOk | CertsLoaded | CertsMissing | Engaged | ErrorEvent => Error
       case Disengaged => Update
       case _ => EngageUpdate)
    case Update =>
      (match e
       case FlashOk | CertsMissing | Engaged | ErrorEvent => Error
       case _ => Update)
    case EngageAp =>
      (match e
       case FlashOk | CertsLoaded | CertsMissing | Engaged | ErrorEvent => Error
       case Disengaged => ApSet
       case _ => EngageAp)
    case ApSet =>
      (match e
       case FlashOk | CertsLoaded | ErrorEvent => Error
       case Disengaged | SetAp | TriggerFallback | TriggerIdle => Registration
       case _ => ApSet)
    case EngageFallback =>
      (match e
       case FlashOk | ErrorEvent => Error
       case Disengaged | SetAp => Registration
       case SetFallback | TriggerIdle => FallbackSet
       case _ => EngageFallback)
    case FallbackSet =>
      (match e
       case FlashOk | TriggerFallback => Disengage
       case Disengaged | TriggerIdle => Registration
       case TriggerUpdate => EngageUpdate
       case ErrorEvent => Error
       case _ => FallbackSet)
    case EngageIdle =>
      (match e
       case FlashOk | ErrorEvent => Error
       case Disengaged => Registration
       case SetIdle => IdleSet
       case _ => EngageIdle)
    case IdleSet =>
      (match e
       case FlashOk | ErrorEvent => Error
       case TriggerUpdate => EngageUpdate
       case TriggerFallback => EngageFallback
       case _ => IdleSet)
    case Error => Error
  }

  function NextEffect(s: State, e: Event): Effect {
    match s
    case Flash =>
      (match e
       case FlashOk | CertsLoaded | CertsMissing => Register
       case Engaged => Run
       case TriggerUpdate | SetAp | TriggerFallback | SetFallback | TriggerIdle | SetIdle => ReportError
       case _ => Nothing)
    case Registration =>
      (match e
       case CertsLoaded => Engage
       case CertsMissing => Register
       case Engaged => Run
       case TriggerUpdate => ReportError
       case TriggerFallback => TryFallback
       case TriggerIdle => TryIdle
       case _ => Nothing)
    case Engagement =>
      (match e
       case CertsMissing => ReportError
       case Engaged => Run
       case _ => Nothing)
    case Running =>
      (match e
       case FlashOk | TriggerUpdate | SetAp => Disengages
       case CertsMissing => ReportError
       case Engaged => Run
       case TriggerFallback => TryFallback
       case TriggerIdle => TryIdle
       case _ => Nothing)
    case Disengage =>
      (match e
       case CertsMissing => ReportError
       case Disengaged => Register
       case _ => Nothing)
    case EngageUpdate =>
      (match e
       case CertsMissing => ReportError
       case Disengaged => StartUpdate
       case _ => Nothing)
    case Update =>
      (match e
       case CertsMissing => ReportError
       case _ => Nothing)
    case EngageAp =>
      (match e
       case CertsMissing => ReportError
       case Disengaged => ApOn
       case _ => Nothing)
    case ApSet =>
      (match e
       case CertsMissing => ReportError
       case SetAp | TriggerFallback | TriggerIdle | SetIdle => ApOff
       case _ => Nothing)
    case EngageFallback =>
      (match e
       case FlashOk | CertsLoaded | CertsMissing | Engaged | ErrorEvent => ReportError
       case SetFallback | SetIdle => FallbackOn
       case _ => Nothing)
    case FallbackSet =>
      (match e
       case FlashOk | TriggerUpdate | SetAp | TriggerIdle => Disengages
       case CertsLoaded | CertsMissing | Engaged | Disengaged | ErrorEvent => ReportError
       case TriggerFallback => FallbackOff
       case _ => Nothing)
    case EngageIdle =>
      (match e
       case FlashOk | CertsLoaded | CertsMissing | Engaged | ErrorEvent => ReportError
       case SetFallback => FallbackOn
       case SetIdle => IdleOn
       case _ => Nothing)
    case IdleSet =>
      (match e
       case Connected | ConnectFailed | Validated | ValidateFailed | SetFallback | SetIdle => Nothing
       case TriggerUpdate | SetAp => Disengages
       case TriggerFallback => TryFallback
       case TriggerIdle => IdleOff
       case _ => ReportError)
    case Error =>
      (match e
       case Connected | ConnectFailed | Validated | ValidateFailed => Nothing
       case _ => ReportError)
  }

  function Apply(x: Effect, f: Flags): Flags {
    match x
    case Nothing | ReportError => f
    case Register | ApOff | IdleOff => f.(checkRegistration := true)
    case Engage =>
      f.(checkRegistration := false, checkInternet := true, mqtt := true, checkCloud := true,
         desired := RUNNING_MODE, launcher := true, checkUpdate := true)
    case Disengages | FallbackOff =>
      f.(monitor := false, deploy := false, execute := false, console := false, fallback := false,
         desired := NO_ONE, launcher := true)
    case Run => f.(launcher := false, monitor := true, deploy := true, execute := true, console := true)
    case StartUpdate => f.(launcher := false, update := true)
    case ApOn => f.(launcher := false, checkInternet := false, mqtt := false, checkCloud := false)
    case TryFallback =>
      f.(checkRegistration := false, execute := false, checkInternet := true, mqtt := true, checkCloud := true,
         desired := FALLBACK_MODE, launcher := true, checkUpdate := true)
    case FallbackOn => f.(launcher := false, monitor := true, deploy := true, console := true, fallback := true)
    case TryIdle =>
      f.(checkRegistration := false, execute := false, checkInternet := true, mqtt := true, checkCloud := true,
         desired := IDLE_MODE, launcher := true, checkUpdate := true)
    case IdleOn => f.(launcher := false, monitor := true, console := true)
  }

  // ---------------------------------------------------------------- the machine and its ring

  datatype Mode = Mode(state: State, flags: Flags)
  const START := Mode(Flash, ALL_OFF)

  // One event: first the effect of the old state, then the new state.
  function React(m: Mode, e: Event): Mode {
    Mode(NextState(m.state, e), Apply(NextEffect(m.state, e), m.flags))
  }

  // The mode after these events: what a machine without a ring would do.
  function Fold(m: Mode, es: seq<Event>): Mode
    decreases |es|
  {
    if es == [] then m else React(Fold(m, es[..|es| - 1]), es[|es| - 1])
  }

  const RING := 10 // MAXFSMEVTS

  datatype Cell = Cell(event: Event, pending: bool)
  // FSMEvtIdx, currentFSMEvtIdx
  datatype Fsm = Fsm(cells: seq<Cell>, tail: nat, head: nat, mode: Mode)

  predicate Sized(m: Fsm) {
    |m.cells| == RING && m.tail < RING && m.head < RING
  }

  function Advance(i: nat): (j: nat)
    requires i < RING
    ensures j < RING
  {
    if i + 1 == RING then 0 else i + 1
  }

  // fsm_q_evt
  function Queue(m: Fsm, e: Event): (n: Fsm)
    requires Sized(m)
    ensures Sized(n)
  {
    m.(cells := m.cells[m.tail := Cell(e, true)], tail := Advance(m.tail))
  }

  // One turn of runMasterFSM.
  function Poll(m: Fsm): (n: Fsm)
    requires Sized(m)
    ensures Sized(n)
  {
    if !m.cells[m.head].pending then m
    else
      var e := m.cells[m.head].event;
      m.(cells := m.cells[m.head := Cell(e, false)], head := Advance(m.head), mode := React(m.mode, e))
  }

  datatype Op = DoQueue(event: Event) | DoPoll

  function Step(m: Fsm, op: Op): (n: Fsm)
    requires Sized(m)
    ensures Sized(n)
  {
    match op
    case DoQueue(e) => Queue(m, e)
    case DoPoll => Poll(m)
  }

  function RunOps(m: Fsm, ops: seq<Op>): (n: Fsm)
    requires Sized(m)
    ensures Sized(n)
    decreases |ops|
  {
    if ops == [] then m else RunOps(Step(m, ops[0]), ops[1..])
  }

  // ---------------------------------------------------------------- the ring is a queue

  // Every event ever queued, and how many have been taken.
  datatype History = History(all: seq<Event>, taken: nat)

  predicate Proper(h: History) {
    h.taken <= |h.all|
  }

  predicate Room(h: History) {
    |h.all| - h.taken < RING
  }

  function SpecStep(h: History, op: Op): (g: History)
    requires Proper(h)
    ensures Proper(g)
  {
    match op
    case DoQueue(e) => h.(all := h.all + [e])
    case DoPoll => if h.taken < |h.all| then h.(taken := h.taken + 1) else h
  }

  function SpecRun(h: History, ops: seq<Op>): (g: History)
    requires Proper(h)
    ensures Proper(g)
    decreases |ops|
  {
    if ops == [] then h else SpecRun(SpecStep(h, ops[0]), ops[1..])
  }

  ghost predicate RoomRun(h: History, ops: seq<Op>)
    requires Proper(h)
    decreases |ops|
  {
    ops == [] || ((ops[0].DoQueue? ==> Room(h)) && RoomRun(SpecStep(h, ops[0]), ops[1..]))
  }

  function Slot(n: nat): (s: nat)
    ensures s < RING
  {
    n % RING
  }

  lemma SlotFacts(m: nat, n: nat)
    ensures Slot(n + 1) == Advance(Slot(n))
    ensures m < n < m + RING ==> Slot(m) != Slot(n)
    ensures Slot(n + RING) == Slot(n)
  {
    var q, r := n / RING, n % RING;
    assert n == q * RING + r;
    if r + 1 == RING { Quotient(n + 1, q + 1, 0); } else { Quotient(n + 1, q, r + 1); }
    Quotient(n + RING, q + 1, r);
  }

  lemma Quotient(n: nat, q: nat, r: nat)
    requires n == q * RING + r && r < RING
    ensures n / RING == q && n % RING == r
  {
  }

  // The cells of the waiting events are pending, the others are not.
  ghost predicate Holds(m: Fsm, h: History)
    requires Sized(m)
  {
    && (forall n: nat :: h.taken <= n < |h.all| ==> m.cells[Slot(n)] == Cell(h.all[n], true))
    && (forall n: nat :: |h.all| <= n < h.taken + RING ==> !m.cells[Slot(n)].pending)
  }

  ghost predicate Represents(m: Fsm, h: History) {
    && Sized(m) && Proper(h) && |h.all| - h.taken <= RING
    && m.tail == Slot(|h.all|) && m.head == Slot(h.taken)
    && Holds(m, h) && m.mode == Fold(START, h.all[..h.taken])
  }

  lemma QueueRefines(m: Fsm, h: History, e: Event)
    requires Represents(m, h) && Room(h)
    ensures Represents(Queue(m, e), SpecStep(h, DoQueue(e)))
  {
    hide Slot, Fold;
    var n := |h.all|;
    SlotFacts(0, n);
    forall i: nat | h.taken <= i < h.taken + RING && i != n ensures Slot(i) != Slot(n) {
      if i < n { SlotFacts(i, n); } else { SlotFacts(n, i); }
    }
    assert SpecStep(h, DoQueue(e)).all[..h.taken] == h.all[..h.taken];
  }

  lemma PollRefines(m: Fsm, h: History)
    requires Represents(m, h)
    ensures m.cells[m.head].pending <==> h.taken < |h.all|
    ensures Represents(Poll(m), SpecStep(h, DoPoll))
  {
    hide Slot, React;
    if h.taken < |h.all| {
      SlotFacts(0, h.taken);
      forall i: nat | h.taken < i < h.taken + RING ensures Slot(i) != Slot(h.taken) {
        SlotFacts(h.taken, i);
      }
      SlotFacts(0, h.taken);
      assert h.all[..h.taken + 1][..h.taken] == h.all[..h.taken];
    }
  }

  /** While at most ten events wait, the state is the fold of the tables over the events in the order queued. */
  lemma {:induction false} RingRefinesQueue(m: Fsm, h: History, ops: seq<Op>)
    requires Represents(m, h) && RoomRun(h, ops)
    ensures Represents(RunOps(m, ops), SpecRun(h, ops))
    decreases |ops|
  {
    hide Represents, Queue, Poll, Room;
    Meaning(m, h);
    if ops != [] {
      match ops[0] {
        case DoQueue(e) => QueueRefines(m, h, e);
        case DoPoll => PollRefines(m, h);
      }
      RingRefinesQueue(Step(m, ops[0]), SpecStep(h, ops[0]), ops[1..]);
    }
  }

  lemma Meaning(m: Fsm, h: History)
    requires Represents(m, h)
    ensures Sized(m) && Proper(h) && m.mode == Fold(START, h.all[..h.taken])
  {
  }

  /** An eleventh waiting event takes the cell of the oldest one, which is lost unless the two are equal. */
  lemma EleventhOverwrites(m: Fsm, h: History, e: Event)
    requires Represents(m, h) && !Room(h)
    ensures Queue(m, e).cells[Queue(m, e).head] == Cell(e, true)
    ensures Holds(Queue(m, e), SpecStep(h, DoQueue(e))) <==> e == h.all[h.taken]
  {
    hide Slot, Fold;
    var n := |h.all|;
    SlotFacts(0, h.taken);
    assert Slot(n) == Slot(h.taken);
    assert m.cells[Slot(h.taken)] == Cell(h.all[h.taken], true);
    assert Queue(m, e).cells[Slot(h.taken)] == Cell(e, true);
    var g := SpecStep(h, DoQueue(e));
    assert g.all[h.taken] == h.all[h.taken];
  }

  // ---------------------------------------------------------------- safety of every run

  predicate ServicesOff(f: Flags) {
    !f.monitor && !f.deploy && !f.execute && !f.console && !f.fallback
  }

  // Which services can be on together.
  predicate Chained(f: Flags) {
    && f.monitor == f.console && (f.deploy ==> f.monitor) && (f.execute ==> f.deploy) && (f.fallback ==> f.deploy)
    && f.mqtt == f.checkInternet == f.checkCloud
  }

  lemma ApplyChained(x: Effect, f: Flags)
    requires Chained(f)
    ensures Chained(Apply(x, f))
  {
  }

  // Which flags each state allows.
  predicate Safe(m: Mode) {
    var f := m.flags;
    && Chained(f)
    && (f.update ==> ServicesOff(f) && (m.state == Update || m.state == Error))
    && match m.state
       case Flash => f == ALL_OFF
       case Running => f.execute && !f.launcher
       case EngageUpdate | EngageAp => ServicesOff(f) && f.launcher && f.desired == NO_ONE
       case Update => ServicesOff(f) && !f.launcher && f.desired == NO_ONE && f.update
       case ApSet => ServicesOff(f) && !f.launcher && f.desired == NO_ONE && !f.mqtt
       case EngageIdle | IdleSet => !f.execute && f.mqtt
       case _ => true
  }

  predicate Quiet(x: Effect) {
    x.Nothing? || x.ReportError?
  }

  // States that ask for nothing beyond what all do.
  predicate Loose(t: State) {
    t == Registration || t == Engagement || t == Disengage || t == EngageFallback || t == FallbackSet || t == Error
  }

  // How the tables lead into each of the others.
  predicate Leads(s: State, x: Effect, t: State) {
    match t
    case Flash => s == t && Quiet(x)
    case Running => x.Run? || (s == t && Quiet(x))
    case EngageUpdate | EngageAp => x.Disengages? || (s == t && Quiet(x))
    case Update => (s == EngageUpdate && x.StartUpdate?) || (s == t && Quiet(x))
    case ApSet => (s == EngageAp && x.ApOn?) || (s == t && (Quiet(x) || x.ApOff?))
    case EngageIdle => x.TryIdle? || (s == t && (Quiet(x) || x.FallbackOn?))
    case IdleSet => (s == EngageIdle && x.IdleOn?) || (s == t && (Quiet(x) || x.IdleOff? || x.Disengages?))
    case _ => !x.StartUpdate?
  }

  lemma TablesLead(s: State, e: Event)
    ensures Leads(s, NextEffect(s, e), NextState(s, e))
    ensures s == Update || s == Error ==> Quiet(NextEffect(s, e)) && (NextState(s, e) == s || NextState(s, e) == Error)
  {
  }

  lemma LooseSafe(x: Effect, f: Flags, t: State)
    requires Chained(f) && !f.update && Loose(t) && !x.StartUpdate?
    ensures Safe(Mode(t, Apply(x, f)))
  {
    ApplyChained(x, f);
    KeepsUpdate(x, f);
    hide Chained, Apply;
  }

  lemma KeepsUpdate(x: Effect, f: Flags)
    ensures x.StartUpdate? || Apply(x, f).update == f.update
  {
    match x
    case Nothing =>
    case ReportError =>
    case Register =>
    case Engage =>
    case Disengages =>
    case FallbackOff =>
    case Run =>
    case StartUpdate =>
    case ApOn =>
    case ApOff =>
    case TryFallback =>
    case FallbackOn =>
    case TryIdle =>
    case IdleOn =>
    case IdleOff =>
  }

  lemma RunSafe(f: Flags)
    requires Chained(f) && !f.update
    ensures Safe(Mode(Running, Apply(Run, f)))
  {
    ApplyChained(Run, f);
    hide Chained;
  }

  lemma DisengageSafe(f: Flags, t: State)
    requires Chained(f) && !f.update && (t == EngageUpdate || t == EngageAp)
    ensures Safe(Mode(t, Apply(Disengages, f)))
  {
    ApplyChained(Disengages, f);
    hide Chained;
  }

  lemma UpdateSafe(f: Flags)
    requires Safe(Mode(EngageUpdate, f))
    ensures Safe(Mode(Update, Apply(StartUpdate, f)))
  {
    ApplyChained(StartUpdate, f);
    hide Chained;
  }

  lemma ApSafe(x: Effect, s: State, f: Flags)
    requires Safe(Mode(s, f)) && ((s == EngageAp && x.ApOn?) || (s == ApSet && x.ApOff?))
    ensures Safe(Mode(ApSet, Apply(x, f)))
  {
    ApplyChained(x, f);
    hide Chained;
  }

  lemma TryIdleSafe(f: Flags)
    requires Chained(f) && !f.update
    ensures Safe(Mode(EngageIdle, Apply(TryIdle, f)))
  {
    ApplyChained(TryIdle, f);
    hide Chained;
  }

  lemma EngageIdleSafe(f: Flags)
    requires Safe(Mode(EngageIdle, f))
    ensures Safe(Mode(EngageIdle, Apply(FallbackOn, f))) && Safe(Mode(IdleSet, Apply(IdleOn, f)))
  {
    ApplyChained(FallbackOn, f);
    ApplyChained(IdleOn, f);
    hide Chained;
  }

  lemma IdleSetSafe(x: Effect, f: Flags)
    requires Safe(Mode(IdleSet, f)) && (x.IdleOff? || x.Disengages?)
    ensures Safe(Mode(IdleSet, Apply(x, f)))
  {
    ApplyChained(x, f);
    hide Chained;
  }

  lemma SettledSafe(m: Mode, t: State)
    requires Safe(m) && (m.state == Update || m.state == Error) && (t == m.state || t == Error)
    ensures Safe(Mode(t, m.flags))
  {
    hide Chained;
  }

  lemma SafeMeans(m: Mode)
    requires Safe(m)
    ensures Chained(m.flags) && (m.state != Update && m.state != Error ==> !m.flags.update)
  {
    hide Chained;
  }

  lemma QuietApply(x: Effect, f: Flags)
    requires Quiet(x)
    ensures Apply(x, f) == f
  {
  }

  lemma ReactSafe(m: Mode, e: Event)
    requires Safe(m)
    ensures Safe(React(m, e))
  {
    hide Safe, Chained, Apply, NextState, NextEffect;
    var x, t, f := NextEffect(m.state, e), NextState(m.state, e), m.flags;
    TablesLead(m.state, e);
    SafeMeans(m);
    if Quiet(x) { QuietApply(x, f); }
    if m.state == Update || m.state == Error {
      SettledSafe(m, t);
    } else if Loose(t) {
      LooseSafe(x, f, t);
    } else if t != m.state || !Quiet(x) {
      match t {
        case Running => RunSafe(f);
        case EngageUpdate | EngageAp => DisengageSafe(f, t);
        case Update => UpdateSafe(f);
        case ApSet => ApSafe(x, m.state, f);
        case EngageIdle => if x.TryIdle? { TryIdleSafe(f); } else { EngageIdleSafe(f); }
        case IdleSet => if m.state == IdleSet { IdleSetSafe(x, f); } else { EngageIdleSafe(f); }
        case _ =>
      }
    }
  }

  /** In every run: no service is on while an update or an access point is being engaged or is on; the update
      flag means state update, or error with all services off; the services that are on are always monitor with
      console, then deploy, then execute or fallback. */
  lemma {:induction false} EveryRunIsSafe(es: seq<Event>)
    ensures Safe(Fold(START, es))
    decreases |es|
  {
    hide Safe, React;
    if es != [] {
      EveryRunIsSafe(es[..|es| - 1]);
      ReactSafe(Fold(START, es[..|es| - 1]), es[|es| - 1]);
    } else {
      StartSafe();
    }
  }

  lemma StartSafe()
    ensures Safe(START)
  {
  }

  // Neither the state nor any flag changes again.
  predicate Settled(m: Mode) {
    m.state == Error || (m.state == Update && m.flags.update)
  }

  /** Once in error the mode never changes; an update is left only into error, and no flag changes any more. */
  lemma {:induction false} NothingAfterUpdateOrError(m: Mode, es: seq<Event>)
    requires Settled(m)
    ensures Settled(Fold(m, es)) && Fold(m, es).flags == m.flags
    ensures m.state == Error ==> Fold(m, es) == m
    decreases |es|
  {
    if es != [] { NothingAfterUpdateOrError(m, es[..|es| - 1]); }
  }

  lemma {:induction false} FoldAppend(m: Mode, es: seq<Event>, fs: seq<Event>)
    ensures Fold(m, es + fs) == Fold(Fold(m, es), fs)
    decreases |fs|
  {
    hide React;
    if fs == [] {
      assert es + fs == es;
    } else {
      assert (es + fs)[..|es + fs| - 1] == es + fs[..|fs| - 1];
      FoldAppend(m, es, fs[..|fs| - 1]);
    }
  }

  /** Once the update flag is up it stays up, with every service off, whatever else happens. */
  lemma UpdateIsForever(es: seq<Event>, fs: seq<Event>)
    requires Fold(START, es).flags.update
    ensures Fold(START, es + fs).flags.update && ServicesOff(Fold(START, es + fs).flags)
  {
    hide Fold, React;
    EveryRunIsSafe(es);
    FoldAppend(START, es, fs);
    NothingAfterUpdateOrError(Fold(START, es), fs);
  }

  /** What the tables do not exclude: events that lead into engagement with the fallback service still switched on.
      Module HubRuns follows a run of state machine, launcher and registration together that gets there. */
  lemma FallbackOutlivesItsMode()
    ensures exists es :: Fold(START, es).state == Engagement && Fold(START, es).flags.fallback
                         && Fold(START, es).flags.launcher && Fold(START, es).flags.desired == RUNNING_MODE
  {
    hide Fold;
    var e1 := [FlashOk];
    var e2 := e1 + [TriggerFallback];
    var e3 := e2 + [SetFallback];
    var e4 := e3 + [Disengaged];
    var e5 := e4 + [CertsLoaded];
    FoldOne(START, [], FlashOk);
    assert Fold(START, e1).state == Registration;
    FoldOne(START, e1, TriggerFallback);
    assert Fold(START, e2).state == EngageFallback;
    FoldOne(START, e2, SetFallback);
    assert Fold(START, e3).state == FallbackSet && Fold(START, e3).flags.fallback;
    FoldOne(START, e3, Disengaged);
    assert Fold(START, e4).state == Registration && Fold(START, e4).flags.fallback;
    FoldOne(START, e4, CertsLoaded);
  }

  lemma FoldOne(m: Mode, es: seq<Event>, e: Event)
    ensures Fold(m, []) == m
    ensures Fold(m, es + [e]) == React(Fold(m, es), e)
    ensures [] + [e] == [e]
  {
    hide React;
    assert (es + [e])[..|es|] == es;
  }

  // ---------------------------------------------------------------- on the static ring

  class MasterMachine {
    const cells: array<Cell> // masterEventQ
    var tail: nat            // FSMEvtIdx
    var head: nat            // currentFSMEvtIdx
    var mode: Mode           // masterState, and the flags the effects write

    ghost predicate Valid()
      reads this, cells
    {
      cells.Length == RING && Sized(Value())
    }

    ghost function Value(): Fsm
      reads this, cells
    {
      Fsm(cells[..], tail, head, mode)
    }

    // master_fsm_init queues the first event.
    constructor ()
      ensures Valid() && fresh(cells)
      ensures Represents(Value(), History([FlashOk], 0))
    {
      cells := new Cell[RING](_ => Cell(FlashOk, false));
      tail, head, mode := 0, 0, START;
      new;
      QueueEvent(FlashOk);
      assert Fold(START, []) == START;
    }

    method QueueEvent(e: Event)
      requires Valid()
      modifies this`tail, cells
      ensures Valid() && Value() == Queue(old(Value()), e)
    {
      cells[tail] := Cell(e, true);
      tail := tail + 1;
      if tail == RING {
        tail := 0;
      }
    }

    method CheckEvent() returns (pending: bool)
      requires Valid()
      ensures pending == cells[head].pending
    {
      pending := cells[head].pending;
    }

    method GetEvent() returns (e: Event)
      requires Valid()
      modifies this`head, cells
      ensures Valid() && e == old(cells[head].event)
      ensures Value() == old(Value()).(cells := old(cells[..])[old(head) := Cell(e, false)], head := Advance(old(head)))
    {
      e := cells[head].event;
      cells[head] := cells[head].(pending := false);
      head := head + 1;
      if head == RING {
        head := 0;
      }
    }

    method Turn()
      requires Valid()
      modifies this, cells
      ensures Valid() && Value() == Poll(old(Value()))
    {
      var pending := CheckEvent();
      if pending {
        var e := GetEvent();
        mode := mode.(flags := Apply(NextEffect(mode.state, e), mode.flags));
        mode := mode.(state := NextState(mode.state, e));
      }
    }
  }
}
