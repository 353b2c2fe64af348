/** A launch under way when the wish has changed, or has not: exactly when it can still end in a report. */
module LaunchProgress {
  import opened Launcher

  // From its flags, service k can come to be confirmed or not, as v says, while the launcher is polling.
  predicate Reaches(s: System, k: nat, v: bool)
    requires Sized(s) && IsService(k)
  {
    || s.confirm[k] == v
    || (v && (s.engage[k] || s.busy[k]))
    || (!v && s.disengage[k] && !s.run[k] && !(k == CONSOLE && s.engage[k]))
  }

  // In the loop of a launch, and service k cannot come to where the wish needs it.
  predicate Mute(s: System, k: nat) {
    && Sized(s) && IsService(k) && s.phase.Polling? && s.confirmed != Number(s.wish)
    && !Reaches(s, k, Wanted(s.wish, k))
  }

  lemma ServeLosesNothing(s: System, k: nat, v: bool)
    requires Sized(s) && IsService(k) && !Reaches(s, k, v)
    ensures !Reaches(Serve(s, k), k, v)
  {
  }

  lemma LaunchMute(s: System, k: nat)
    requires Mute(s, k)
    ensures Mute(Launch(s), k) && Launch(s) == s.(confirmed := Code(s.confirm), seen := s.confirm)
  {
    hide Code;
    NumberMeansSet(s.confirm, s.wish);
  }

  lemma ServeMute(s: System, k: nat, j: nat)
    requires Mute(s, k) && IsService(j)
    ensures Mute(Serve(s, j), k) && Serve(s, j).reports == s.reports
  {
    hide Serve, Wanted, Number;
    ServeFrame(s, j);
    if j == k { ServeLosesNothing(s, k, Wanted(s.wish, k)); }
  }

  lemma {:induction false} MuteForever(s: System, k: nat, ops: seq<Op>)
    requires Mute(s, k) && TaskTurns(ops)
    ensures AllLegal(ops) && Mute(Run(s, ops), k) && Run(s, ops).reports == s.reports
    decreases |ops|
  {
    hide Mute, Launch, Serve;
    assert Sized(s) by { MuteSized(s, k); }
    if ops != [] {
      match ops[0] {
        case DoServe(j) => ServeMute(s, k, j);
        case DoLaunch => LaunchMute(s, k);
      }
      MuteForever(Step(s, ops[0]), k, ops[1..]);
    }
  }

  lemma MuteSized(s: System, k: nat)
    requires Mute(s, k)
    ensures Sized(s)
  {
  }

  // ---------------------------------------------------------------- and otherwise it can report

  // Turns that bring service k to v and touch no other.
  lemma Settle(s: System, k: nat, v: bool) returns (ops: seq<Op>)
    requires Sized(s) && IsService(k) && Reaches(s, k, v)
    ensures TaskTurns(ops) && AllLegal(ops) && Settled(s, Run(s, ops), k, v)
  {
    hide Serve;
    ops := [];
    var t := s;
    while t.confirm[k] != v
      invariant Sized(t) && Reaches(t, k, v) && TaskTurns(ops) && AllLegal(ops) && t == Run(s, ops)
      invariant Elsewhere(s, t, k)
      decreases Pending(t, k, v)
    {
      ServeFrame(t, k);
      ServeNearer(t, k, v);
      RunOne(s, ops, k);
      ops := ops + [DoServe(k)];
      t := Serve(t, k);
    }
  }

  // Nothing but the flags of service k has changed.
  predicate Elsewhere(s: System, t: System, k: nat)
    requires Sized(s) && Sized(t)
  {
    && t.phase == s.phase && t.wish == s.wish && t.confirmed == s.confirmed && t.reports == s.reports && t.run == s.run
    && forall j :: 0 <= j < CONFIRMATIONS && j != k ==>
         t.confirm[j] == s.confirm[j] && t.engage[j] == s.engage[j] && t.busy[j] == s.busy[j]
         && t.disengage[j] == s.disengage[j]
  }

  predicate Settled(s: System, t: System, k: nat, v: bool)
    requires Sized(s) && Sized(t) && IsService(k)
  {
    Elsewhere(s, t, k) && t.confirm[k] == v
  }

  // The turns service k needs to get to v.
  function Pending(s: System, k: nat, v: bool): nat
    requires Sized(s) && IsService(k)
  {
    if s.confirm[k] == v then 0
    else if s.busy[k] then 2 else if s.engage[k] then 3 else 1
  }

  lemma ServeNearer(s: System, k: nat, v: bool)
    requires Sized(s) && IsService(k) && Reaches(s, k, v) && s.confirm[k] != v
    ensures Reaches(Serve(s, k), k, v) && Pending(Serve(s, k), k, v) < Pending(s, k, v)
  {
  }

  lemma RunOne(s: System, ops: seq<Op>, k: nat)
    requires Sized(s) && AllLegal(ops) && IsService(k)
    ensures AllLegal(ops + [DoServe(k)]) && Run(s, ops + [DoServe(k)]) == Serve(Run(s, ops), k)
  {
    RunAppend(s, ops, [DoServe(k)]);
    hide Serve;
    assert Run(Run(s, ops), [DoServe(k)]) == Run(Serve(Run(s, ops), k), [DoServe(k)][1..]);
  }

  // One after the other, the services not numbered before k are brought where the wish needs them.
  lemma {:induction false} SettleFrom(s: System, k: nat) returns (ops: seq<Op>)
    requires Sized(s) && k <= CONFIRMATIONS
    requires forall j :: k <= j < CONFIRMATIONS && IsService(j) ==> Reaches(s, j, Wanted(s.wish, j))
    ensures TaskTurns(ops) && AllLegal(ops) && Same(s, Run(s, ops), k)
    ensures forall j :: k <= j < CONFIRMATIONS && IsService(j) ==> Run(s, ops).confirm[j] == Wanted(s.wish, j)
    decreases CONFIRMATIONS - k
  {
    hide Wanted, Run;
    if k == CONFIRMATIONS {
      ops := [];
      assert Run(s, ops) == s by { RunNone(s); }
    } else if !IsService(k) {
      ops := SettleFrom(s, k + 1);
    } else {
      var first := Settle(s, k, Wanted(s.wish, k));
      var t := Run(s, first);
      forall j | k + 1 <= j < CONFIRMATIONS && IsService(j) ensures Reaches(t, j, Wanted(t.wish, j)) {
        assert Reaches(s, j, Wanted(s.wish, j));
      }
      var others := SettleFrom(t, k + 1);
      ops := first + others;
      RunAppend(s, first, others);
    }
  }

  lemma RunNone(s: System)
    requires Sized(s)
    ensures Run(s, []) == s
  {
  }

  // Nothing has changed but the services from k on.
  predicate Same(s: System, t: System, k: nat)
    requires Sized(s) && Sized(t)
  {
    && t.phase == s.phase && t.wish == s.wish && t.confirmed == s.confirmed && t.reports == s.reports && t.run == s.run
    && t.confirm[UPDATER] == s.confirm[UPDATER] && t.confirm[AP] == s.confirm[AP]
    && forall j :: 0 <= j < CONFIRMATIONS && j < k ==> t.confirm[j] == s.confirm[j]
  }

  /** A launch of mode m under way, whatever the wish is now: if the wish and the run flags stay, some interleaving
      of launcher and services ends it if and only if every service can come to where the wish needs it. What is
      reported first then is the event of m, with the confirmations of the wish; otherwise nothing ever is. */
  lemma LaunchUnderWayIff(s: System, m: Wish)
    requires Sized(s) && s.phase == Polling(m) && s.confirmed != Number(s.wish)
    requires !s.confirm[UPDATER] && !s.confirm[AP]
    ensures (exists ops :: TaskTurns(ops) && AllLegal(ops) && Run(s, ops).reports != s.reports)
       <==> forall k :: 0 <= k < CONFIRMATIONS && IsService(k) ==> Reaches(s, k, Wanted(s.wish, k))
    ensures forall ops :: TaskTurns(ops) && AllLegal(ops) && Run(s, ops).reports != s.reports ==>
      s.reports + [Report(EventOf(m), SetOf(s.wish), s.wish)] <= Run(s, ops).reports
  {
    hide Reaches, Wanted, Number, Run;
    forall ops | TaskTurns(ops) && AllLegal(ops) && Run(s, ops).reports != s.reports
      ensures s.reports + [Report(EventOf(m), SetOf(s.wish), s.wish)] <= Run(s, ops).reports
    {
      FirstReport(s, m, s.reports, ops);
    }
    if k :| 0 <= k < CONFIRMATIONS && IsService(k) && !Reaches(s, k, Wanted(s.wish, k)) {
      forall ops | TaskTurns(ops) && AllLegal(ops) ensures Run(s, ops).reports == s.reports { MuteForever(s, k, ops); }
    } else {
      var ops := SettleFrom(s, 0);
      var t := Run(s, ops);
      forall k | 0 <= k < CONFIRMATIONS ensures t.confirm[k] == SetOf(s.wish)[k] {
        if !IsService(k) { assert k == UPDATER || k == AP; NeverWanted(s.wish, k); }
      }
      assert t.confirm == SetOf(s.wish);
      ChangedWishIsMisreported(t, m, s.wish);
      RunAppend(s, ops, FOUR_TURNS);
      assert TaskTurns(ops + FOUR_TURNS);
    }
  }

  // No report since these, and the next will be this one.
  predicate Coming(s: System, m: Wish, before: seq<Report>) {
    && Sized(s) && s.reports == before
    && match s.phase
       case Polling(n) => n == m && (s.confirmed == Number(s.wish) ==> s.seen == SetOf(s.wish))
       case Leaving(n) => n == m && s.confirmed == Number(s.wish) && s.seen == SetOf(s.wish)
       case Checked(n, w) => n == m && w == s.wish && s.seen == SetOf(s.wish)
       case Resting => false
  }

  lemma TurnComing(s: System, m: Wish, before: seq<Report>, op: Op)
    requires Coming(s, m, before) && TaskTurn(op)
    ensures var t := Step(s, op);
      t.wish == s.wish && (Coming(t, m, before) || t.reports == before + [Report(EventOf(m), SetOf(s.wish), s.wish)])
  {
    match op
    case DoServe(k) =>
      hide Serve, Number, SetOf;
      ServeFrame(s, k);
    case _ =>
      hide Code, SetOf, SetEngage, SetDismiss, Number;
      NumberMeansSet(s.confirm, s.wish);
  }

  lemma {:induction false} ReportsGrow(s: System, ops: seq<Op>)
    requires Sized(s) && AllLegal(ops)
    ensures s.reports <= Run(s, ops).reports
    decreases |ops|
  {
    hide Code, SetEngage, SetDismiss, Number;
    if ops != [] { ReportsGrow(Step(s, ops[0]), ops[1..]); }
  }

  lemma {:induction false} FirstReport(s: System, m: Wish, before: seq<Report>, ops: seq<Op>)
    requires Coming(s, m, before) && TaskTurns(ops) && AllLegal(ops)
    ensures Run(s, ops).reports == before
         || before + [Report(EventOf(m), SetOf(s.wish), s.wish)] <= Run(s, ops).reports
    decreases |ops|
  {
    hide Step, SetOf;
    if ops != [] {
      TurnComing(s, m, before, ops[0]);
      var t := Step(s, ops[0]);
      if Coming(t, m, before) { FirstReport(t, m, before, ops[1..]); } else { ReportsGrow(t, ops[1..]); }
    }
  }

  lemma NeverWanted(w: Wish, k: nat)
    requires k == UPDATER || k == AP
    ensures !Wanted(w, k)
  {
  }

  // ---------------------------------------------------------------- the requests

  // No request is up but those of the launch under way, and that one is for the wish.
  ghost predicate Orderly(s: System) {
    && Sized(s)
    && (if s.phase.Resting? then Quiet(s.engage, s.disengage)
        else Only(s.engage, s.disengage, s.wish) && s.phase.mode == s.wish)
    && (s.phase.Leaving? ==> s.confirmed == Number(s.wish))
  }

  lemma LaunchOrderly(s: System)
    requires Orderly(s)
    ensures Orderly(Launch(s))
  {
    hide Code, Number, Quiet, Only, SetEngage, SetDismiss;
    var w := s.wish;
    Raised(s.engage, s.disengage, w);
    Withdrawn(s.engage, s.disengage, w);
  }

  // No request but those of a launch for w.
  predicate Only(engage: seq<bool>, disengage: seq<bool>, w: Wish)
    requires |engage| == |disengage| == CONFIRMATIONS
  {
    forall k :: 0 <= k < CONFIRMATIONS ==> (engage[k] ==> Engages(w, k)) && (disengage[k] ==> Dismisses(w, k))
  }

  predicate Quiet(engage: seq<bool>, disengage: seq<bool>)
    requires |engage| == |disengage| == CONFIRMATIONS
  {
    forall k :: 0 <= k < CONFIRMATIONS ==> !engage[k] && !disengage[k]
  }

  lemma Raised(engage: seq<bool>, disengage: seq<bool>, w: Wish)
    requires |engage| == |disengage| == CONFIRMATIONS
    ensures Quiet(engage, disengage) ==> Only(SetEngage(engage, w, true), SetDismiss(disengage, w, true), w)
  {
    hide Engages, Dismisses;
  }

  lemma Withdrawn(engage: seq<bool>, disengage: seq<bool>, w: Wish)
    requires |engage| == |disengage| == CONFIRMATIONS
    ensures Only(engage, disengage, w) ==> Quiet(SetEngage(engage, w, false), SetDismiss(disengage, w, false))
  {
    hide Engages, Dismisses;
  }

  lemma ServeOrderly(s: System, k: nat)
    requires Orderly(s) && IsService(k)
    ensures Orderly(Serve(s, k))
  {
    hide Number, Engages, Dismisses, Serve;
    ServeFrame(s, k);
    ServeRaisesNothing(s, k);
  }

  lemma ServeRaisesNothing(s: System, k: nat)
    requires Sized(s) && IsService(k)
    ensures Serve(s, k).engage[k] ==> s.engage[k]
  {
  }

  lemma StepOrderly(s: System, op: Op)
    requires Orderly(s) && Legal(op) && !op.DoWish?
    ensures Orderly(Step(s, op))
  {
    hide Launch, Serve, Number, Quiet, Only;
    match op
    case DoLaunch => LaunchOrderly(s);
    case DoServe(k) => ServeOrderly(s, k);
    case _ =>
  }

  /** While the wish stays, a launch that is over leaves no request up: the launcher withdraws what the services have
      not answered. */
  lemma {:induction false} RequestsEnd(s: System, ops: seq<Op>)
    requires Orderly(s) && AllLegal(ops) && forall i :: 0 <= i < |ops| ==> !ops[i].DoWish?
    ensures Orderly(Run(s, ops))
    ensures Run(s, ops).phase.Resting? ==>
      forall k :: 0 <= k < CONFIRMATIONS ==> !Run(s, ops).engage[k] && !Run(s, ops).disengage[k]
    decreases |ops|
  {
    OrderlySized(s);
    hide Orderly, Step;
    if ops == [] {
      if s.phase.Resting? { OrderlyRests(s); }
    } else {
      StepOrderly(s, ops[0]);
      RequestsEnd(Step(s, ops[0]), ops[1..]);
    }
  }

  lemma OrderlySized(s: System)
    requires Orderly(s)
    ensures Sized(s)
  {
  }

  lemma OrderlyRests(s: System)
    requires Orderly(s) && s.phase.Resting?
    ensures forall k :: 0 <= k < CONFIRMATIONS ==> !s.engage[k] && !s.disengage[k]
  {
  }

  /** A service that comes on or goes has answered its request, which is down then; only the console leaves that to
      the launcher. */
  lemma AnsweredIsWithdrawn(s: System, k: nat)
    requires Sized(s) && IsService(k) && Serve(s, k).confirm[k] != s.confirm[k]
    ensures Serve(s, k).confirm[k] ==> Serve(s, k).engage[k] == (k == CONSOLE && s.engage[k])
    ensures !Serve(s, k).confirm[k] ==> s.disengage[k] && Serve(s, k).disengage[k] == (k == CONSOLE)
  {
    if s.busy[k] {
      Engaged(s, k);
    } else {
      Dismissed(s, k);
    }
    hide Serve;
  }

  lemma Engaged(s: System, k: nat)
    requires Sized(s) && IsService(k) && s.busy[k]
    ensures Serve(s, k).confirm[k] && Serve(s, k).engage[k] == (k == CONSOLE && s.engage[k])
  {
  }

  lemma Dismissed(s: System, k: nat)
    requires Sized(s) && IsService(k) && !s.busy[k] && Serve(s, k).confirm[k] != s.confirm[k]
    ensures !Serve(s, k).confirm[k] && s.disengage[k] && Serve(s, k).disengage[k] == (k == CONSOLE)
  {
  }
}
