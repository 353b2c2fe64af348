/** What the tables of the master state machine are for: how each mode is entered and what it switches, told over
    words of events. */
module FsmModes {
  import opened MasterFsm

  // ---------------------------------------------------------------- the tables, by what they lead to

  // How mode t is entered from another mode s.
  predicate Enters(t: State, s: State, e: Event) {
    match t
    case Flash => false
    case Registration =>
      || (s.Flash? && (e.FlashOk? || e.CertsMissing?))
      || (e.Disengaged? && (s.Disengage? || s.ApSet? || s.EngageFallback? || s.FallbackSet? || s.EngageIdle?))
      || (s.ApSet? && (e.SetAp? || e.TriggerFallback? || e.TriggerIdle?))
      || (s.EngageFallback? && e.SetAp?)
      || (s.FallbackSet? && e.TriggerIdle?)
    case Engagement => e.CertsLoaded? && (s.Flash? || s.Registration?)
    case Running => e.Engaged? && (s.Flash? || s.Registration? || s.Engagement?)
    case Disengage =>
      || (e.FlashOk? && (s.Engagement? || s.Running? || s.FallbackSet?))
      || (s.FallbackSet? && e.TriggerFallback?)
    case EngageUpdate => e.TriggerUpdate? && (s.Running? || s.FallbackSet? || s.IdleSet?)
    case Update => s.EngageUpdate? && e.Disengaged?
    case EngageAp => s.Running? && e.SetAp?
    case ApSet => s.EngageAp? && e.Disengaged?
    case EngageFallback =>
      || (e.TriggerFallback? && (s.Registration? || s.Running? || s.IdleSet?))
      || (s.Running? && e.SetFallback?)
    case FallbackSet => s.EngageFallback? && (e.SetFallback? || e.TriggerIdle?)
    case EngageIdle => e.TriggerIdle? && (s.Registration? || s.Running?)
    case IdleSet => s.EngageIdle? && e.SetIdle?
    case Error => Breaks(s, e)
  }

  // What no mode but these can take.
  predicate Breaks(s: State, e: Event) {
    match e
    case FlashOk => !(s.Flash? || s.Registration? || s.Engagement? || s.Running? || s.FallbackSet?)
    case CertsLoaded =>
      s.Engagement? || s.Running? || s.Disengage? || s.EngageUpdate? || s.EngageAp? || s.ApSet?
    case CertsMissing =>
      s.Engagement? || s.Running? || s.Disengage? || s.EngageUpdate? || s.Update? || s.EngageAp?
    case Engaged => s.Disengage? || s.EngageUpdate? || s.Update? || s.EngageAp?
    case Disengaged => s.Flash? || s.Registration? || s.Engagement?
    case TriggerUpdate => s.Flash? || s.Registration?
    case ErrorEvent => true
    case _ => s.Flash? && !e.Connected? && !e.ConnectFailed? && !e.Validated? && !e.ValidateFailed?
  }

  lemma EntersRow(t: State, s: State, e: Event)
    requires t != s
    ensures NextState(s, e) == t <==> Enters(t, s, e)
  {
    hide *;
    if t == Error { EntersError(s, e); } else { EntersOther(t, s, e); }
  }

  lemma EntersOther(t: State, s: State, e: Event)
    requires t != s
    ensures t == Error || (NextState(s, e) == t <==> Enters(t, s, e))
  {
  }

  lemma EntersError(s: State, e: Event)
    requires s != Error
    ensures NextState(s, e) == Error <==> Enters(Error, s, e)
  {
  }

  // When effect x is applied, besides the two that change no flag.
  predicate Applies(x: Effect, s: State, e: Event) {
    match x
    case Nothing => true
    case ReportError => true
    case Register =>
      || (s.Flash? && (e.FlashOk? || e.CertsLoaded? || e.CertsMissing?))
      || (s.Registration? && e.CertsMissing?)
      || (s.Disengage? && e.Disengaged?)
    case Engage => s.Registration? && e.CertsLoaded?
    case Run => e.Engaged? && (s.Flash? || s.Registration? || s.Engagement? || s.Running?)
    case Disengages =>
      || ((e.TriggerUpdate? || e.SetAp?) && (s.Running? || s.FallbackSet? || s.IdleSet?))
      || (e.FlashOk? && (s.Running? || s.FallbackSet?))
      || (e.TriggerIdle? && s.FallbackSet?)
    case FallbackOff => s.FallbackSet? && e.TriggerFallback?
    case StartUpdate => s.EngageUpdate? && e.Disengaged?
    case ApOn => s.EngageAp? && e.Disengaged?
    case ApOff => s.ApSet? && (e.SetAp? || e.TriggerFallback? || e.TriggerIdle? || e.SetIdle?)
    case TryFallback => e.TriggerFallback? && (s.Registration? || s.Running? || s.IdleSet?)
    case FallbackOn =>
      || (s.EngageFallback? && (e.SetFallback? || e.SetIdle?))
      || (s.EngageIdle? && e.SetFallback?)
    case TryIdle => e.TriggerIdle? && (s.Registration? || s.Running?)
    case IdleOn => s.EngageIdle? && e.SetIdle?
    case IdleOff => s.IdleSet? && e.TriggerIdle?
  }

  lemma AppliesRow(x: Effect, s: State, e: Event)
    ensures Quiet(x) || (NextEffect(s, e) == x <==> Applies(x, s, e))
  {
  }

  // ---------------------------------------------------------------- along a word of events

  function At(es: seq<Event>, k: nat): Mode
    requires k <= |es|
  {
    Fold(START, es[..k])
  }

  lemma AtStep(es: seq<Event>, k: nat)
    requires k < |es|
    ensures At(es, 0) == START
    ensures At(es, k + 1).state == NextState(At(es, k).state, es[k])
    ensures At(es, k + 1).flags == Apply(NextEffect(At(es, k).state, es[k]), At(es, k).flags)
  {
    assert es[..0] == [] && es[..k + 1] == es[..k] + [es[k]];
    FoldOne(START, es[..k], es[k]);
  }

  // Event i enters mode t from another one.
  ghost predicate Entry(es: seq<Event>, i: nat, t: State)
    requires i < |es|
  {
    At(es, i).state != t && Enters(t, At(es, i).state, es[i])
  }

  ghost predicate NoEntry(es: seq<Event>, i: nat, k: nat)
    requires i <= k <= |es|
  {
    forall j, t :: i <= j < k ==> !Entry(es, j, t)
  }

  lemma EntryStep(es: seq<Event>, k: nat, t: State)
    requires k < |es|
    ensures Entry(es, k, t) <==> At(es, k).state != t && At(es, k + 1).state == t
  {
    AtStep(es, k);
    hide NextState, NextEffect, At, Enters, Apply;
    if At(es, k).state != t { EntersRow(t, At(es, k).state, es[k]); }
  }

  lemma {:induction false} ModeStays(es: seq<Event>, i: nat, k: nat)
    requires i <= k <= |es| && NoEntry(es, i, k)
    ensures At(es, k).state == At(es, i).state
    decreases k - i
  {
    hide At, Entry;
    if i < k {
      EntryStep(es, k - 1, At(es, k).state);
      ModeStays(es, i, k - 1);
    }
  }

  /** Along every word of events, the mode is that of the last event that entered one, and flash before the first. */
  lemma {:induction false} ModeIff(es: seq<Event>, k: nat, t: State)
    requires k <= |es|
    ensures At(es, k).state == t
       <==> (exists i :: 0 <= i < k && Entry(es, i, t) && NoEntry(es, i + 1, k)) || (t == Flash && NoEntry(es, 0, k))
  {
    hide At, Entry;
    assert At(es, 0).state == Flash by { AtZero(es); }
    if k > 0 {
      ModeIff(es, k - 1, t);
      EntryStep(es, k - 1, t);
      EntryStep(es, k - 1, At(es, k).state);
      if Entry(es, k - 1, t) {
        assert NoEntry(es, k, k);
      } else if At(es, k).state == t {
        if i :| 0 <= i < k - 1 && Entry(es, i, t) && NoEntry(es, i + 1, k - 1) {
          Extend(es, i + 1, k);
        } else {
          Extend(es, 0, k);
        }
      }
      if i :| 0 <= i < k && Entry(es, i, t) && NoEntry(es, i + 1, k) {
        EntryStep(es, i, t);
        ModeStays(es, i + 1, k);
      } else if NoEntry(es, 0, k) {
        ModeStays(es, 0, k);
      }
    }
  }

  lemma AtZero(es: seq<Event>)
    ensures At(es, 0) == START
  {
  }

  lemma Extend(es: seq<Event>, i: nat, k: nat)
    requires i < k <= |es| && NoEntry(es, i, k - 1) && At(es, k).state == At(es, k - 1).state
    ensures NoEntry(es, i, k)
  {
    hide At, Entry;
    forall j, t | i <= j < k ensures !Entry(es, j, t) {
      if j == k - 1 { EntryStep(es, j, t); }
    }
  }

  // ---------------------------------------------------------------- the flags

  datatype Flag = Launcher | Monitor | Deploy | Execute | Console | Fallback | UpdateRun | Mqtt
    | RegistrationCheck | InternetCheck | CloudCheck | UpdateCheck

  function Get(f: Flags, g: Flag): bool {
    match g
    case Launcher => f.launcher
    case Monitor => f.monitor
    case Deploy => f.deploy
    case Execute => f.execute
    case Console => f.console
    case Fallback => f.fallback
    case UpdateRun => f.update
    case Mqtt => f.mqtt
    case RegistrationCheck => f.checkRegistration
    case InternetCheck => f.checkInternet
    case CloudCheck => f.checkCloud
    case UpdateCheck => f.checkUpdate
  }

  // Which effects raise a flag, and which lower it.
  predicate Raises(x: Effect, g: Flag) {
    match g
    case Launcher => x.Engage? || x.Disengages? || x.FallbackOff? || x.TryFallback? || x.TryIdle?
    case Monitor => x.Run? || x.FallbackOn? || x.IdleOn?
    case Deploy => x.Run? || x.FallbackOn?
    case Execute => x.Run?
    case Console => x.Run? || x.FallbackOn? || x.IdleOn?
    case Fallback => x.FallbackOn?
    case UpdateRun => x.StartUpdate?
    case RegistrationCheck => x.Register? || x.ApOff? || x.IdleOff?
    case _ => x.Engage? || x.TryFallback? || x.TryIdle?
  }

  predicate Lowers(x: Effect, g: Flag) {
    match g
    case Launcher => x.Run? || x.StartUpdate? || x.ApOn? || x.FallbackOn? || x.IdleOn?
    case Execute => x.Disengages? || x.FallbackOff? || x.TryFallback? || x.TryIdle?
    case UpdateRun => false
    case UpdateCheck => false
    case RegistrationCheck => x.Engage? || x.TryFallback? || x.TryIdle?
    case Mqtt => x.ApOn?
    case InternetCheck => x.ApOn?
    case CloudCheck => x.ApOn?
    case _ => x.Disengages? || x.FallbackOff?
  }

  lemma ApplyGets(x: Effect, f: Flags, g: Flag)
    ensures Get(Apply(x, f), g) == (Raises(x, g) || (Get(f, g) && !Lowers(x, g)))
  {
    hide *;
    match x
    case Nothing => Unchanged(x, f, g);
    case ReportError => Unchanged(x, f, g);
    case Register => ChecksAgain(x, f, g);
    case Engage => Launches(x, f, g);
    case Disengages => Leaves(x, f, g);
    case FallbackOff => Leaves(x, f, g);
    case Run => Arrives(x, f, g);
    case StartUpdate => Updates(f, g);
    case ApOn => OpensAp(f, g);
    case ApOff => ChecksAgain(x, f, g);
    case TryFallback => Launches(x, f, g);
    case FallbackOn => Arrives(x, f, g);
    case TryIdle => Launches(x, f, g);
    case IdleOn => Arrives(x, f, g);
    case IdleOff => ChecksAgain(x, f, g);
  }

  lemma Unchanged(x: Effect, f: Flags, g: Flag)
    requires x.Nothing? || x.ReportError?
    ensures Get(Apply(x, f), g) == (Raises(x, g) || (Get(f, g) && !Lowers(x, g)))
  {
  }

  lemma ChecksAgain(x: Effect, f: Flags, g: Flag)
    requires x.Register? || x.ApOff? || x.IdleOff?
    ensures Get(Apply(x, f), g) == (Raises(x, g) || (Get(f, g) && !Lowers(x, g)))
  {
  }

  lemma Launches(x: Effect, f: Flags, g: Flag)
    requires x.Engage? || x.TryFallback? || x.TryIdle?
    ensures Get(Apply(x, f), g) == (Raises(x, g) || (Get(f, g) && !Lowers(x, g)))
  {
  }

  lemma Leaves(x: Effect, f: Flags, g: Flag)
    requires x.Disengages? || x.FallbackOff?
    ensures Get(Apply(x, f), g) == (Raises(x, g) || (Get(f, g) && !Lowers(x, g)))
  {
  }

  lemma Arrives(x: Effect, f: Flags, g: Flag)
    requires x.Run? || x.FallbackOn? || x.IdleOn?
    ensures Get(Apply(x, f), g) == (Raises(x, g) || (Get(f, g) && !Lowers(x, g)))
  {
  }

  lemma Updates(f: Flags, g: Flag)
    ensures Get(Apply(StartUpdate, f), g) == (Raises(StartUpdate, g) || (Get(f, g) && !Lowers(StartUpdate, g)))
  {
  }

  lemma OpensAp(f: Flags, g: Flag)
    ensures Get(Apply(ApOn, f), g) == (Raises(ApOn, g) || (Get(f, g) && !Lowers(ApOn, g)))
  {
  }

  // Event i applies effect x.
  ghost predicate Applied(es: seq<Event>, i: nat, x: Effect)
    requires i < |es|
  {
    !Quiet(x) && Applies(x, At(es, i).state, es[i])
  }

  lemma AppliedStep(es: seq<Event>, i: nat, x: Effect)
    requires i < |es| && !Quiet(x)
    ensures Applied(es, i, x) <==> NextEffect(At(es, i).state, es[i]) == x
  {
    hide At, NextEffect, Applies;
    AppliesRow(x, At(es, i).state, es[i]);
  }

  ghost predicate RaisedAt(es: seq<Event>, i: nat, g: Flag)
    requires i < |es|
  {
    exists x :: Applied(es, i, x) && Raises(x, g)
  }

  ghost predicate LoweredAt(es: seq<Event>, i: nat, g: Flag)
    requires i < |es|
  {
    exists x :: Applied(es, i, x) && Lowers(x, g)
  }

  lemma FlagStep(es: seq<Event>, k: nat, g: Flag)
    requires k < |es|
    ensures Get(At(es, k + 1).flags, g) == (RaisedAt(es, k, g) || (Get(At(es, k).flags, g) && !LoweredAt(es, k, g)))
  {
    var x := NextEffect(At(es, k).state, es[k]);
    AtStep(es, k);
    ApplyGets(x, At(es, k).flags, g);
    QuietRaisesNothing(x, g);
    hide At, NextEffect, Applied, Raises, Lowers, Apply, NextState, Get;
    forall y | !Quiet(y) ensures Applied(es, k, y) <==> x == y { AppliedStep(es, k, y); }
    forall y ensures Applied(es, k, y) ==> !Quiet(y) { AppliedMeans(es, k, y); }
  }

  lemma AppliedMeans(es: seq<Event>, k: nat, x: Effect)
    requires k < |es|
    ensures Applied(es, k, x) ==> !Quiet(x)
  {
  }

  lemma QuietRaisesNothing(x: Effect, g: Flag)
    ensures Quiet(x) ==> !Raises(x, g) && !Lowers(x, g)
  {
  }

  /** Along every word of events a flag is up exactly if something raised it and nothing has lowered it since. */
  lemma {:induction false} FlagIff(es: seq<Event>, k: nat, g: Flag)
    requires k <= |es|
    ensures Get(At(es, k).flags, g)
       <==> exists i :: 0 <= i < k && RaisedAt(es, i, g) && forall j :: i < j < k ==> !LoweredAt(es, j, g)
  {
    hide At, RaisedAt, LoweredAt;
    if k == 0 {
      AtZero(es);
    } else {
      FlagIff(es, k - 1, g);
      FlagStep(es, k - 1, g);
      hide Get;
      if !RaisedAt(es, k - 1, g) && !LoweredAt(es, k - 1, g) {
        if i :| 0 <= i < k - 1 && RaisedAt(es, i, g) && forall j :: i < j < k - 1 ==> !LoweredAt(es, j, g) {
          assert forall j :: i < j < k ==> !LoweredAt(es, j, g);
        }
      }
    }
  }

  // ---------------------------------------------------------------- the wish

  predicate Wishes(x: Effect, n: nat) {
    match x
    case Engage => n == 15
    case TryFallback => n == 75
    case TryIdle => n == 9
    case Disengages => n == 0
    case FallbackOff => n == 0
    case _ => false
  }

  ghost predicate WishedAt(es: seq<Event>, i: nat, n: nat)
    requires i < |es|
  {
    exists x :: Applied(es, i, x) && Wishes(x, n)
  }

  ghost predicate NoWish(es: seq<Event>, i: nat, k: nat)
    requires i <= k <= |es|
  {
    forall j, n :: i <= j < k ==> !WishedAt(es, j, n)
  }

  lemma ApplyWishes(x: Effect, f: Flags, n: nat)
    ensures Wishes(x, n) ==> Apply(x, f).desired == n
    ensures Wishes(x, Apply(x, f).desired) || Apply(x, f).desired == f.desired
  {
  }

  lemma QuietWishesNothing(x: Effect, n: nat)
    ensures Quiet(x) ==> !Wishes(x, n)
  {
  }

  lemma WishStep(es: seq<Event>, k: nat, n: nat)
    requires k < |es|
    ensures WishedAt(es, k, n) ==> At(es, k + 1).flags.desired == n
    ensures WishedAt(es, k, At(es, k + 1).flags.desired) || At(es, k + 1).flags.desired == At(es, k).flags.desired
  {
    var x := NextEffect(At(es, k).state, es[k]);
    var now := At(es, k + 1).flags.desired;
    AtStep(es, k);
    ApplyWishes(x, At(es, k).flags, n);
    QuietWishesNothing(x, now);
    hide At, NextEffect, Applied, Wishes, Apply, NextState, Quiet;
    if WishedAt(es, k, n) {
      var y :| Applied(es, k, y) && Wishes(y, n);
      AppliedMeans(es, k, y);
      AppliedStep(es, k, y);
    }
    if Wishes(x, now) {
      AppliedStep(es, k, x);
    }
  }

  /** Along every word of events the launcher is asked for the mode that was last asked for, and for no one at first:
      15 for running mode, 75 for fallback, 9 for idle. */
  lemma {:induction false} WishIs(es: seq<Event>, i: nat, k: nat, n: nat)
    requires i < k <= |es| && NoWish(es, i + 1, k)
    ensures WishedAt(es, i, n) ==> At(es, k).flags.desired == n
    ensures i == 0 && NoWish(es, 0, k) ==> At(es, k).flags.desired == 0
    decreases k
  {
    hide At, WishedAt;
    if i + 1 == k {
      WishStep(es, i, n);
      if i == 0 { AtZero(es); }
    } else {
      WishIs(es, i, k - 1, n);
      WishStep(es, k - 1, n);
    }
  }

  // ---------------------------------------------------------------- what must have happened

  /** No word of events leads to a mode without having asked for it: an update without its trigger and a reported
      disengagement, an access point without its own, fallback or idle mode without theirs, and running mode without
      the report that everything is engaged. */
  lemma {:induction false} AskedFor(es: seq<Event>)
    ensures var s := Fold(START, es).state;
      && (s == EngageUpdate || s == Update ==> TriggerUpdate in es)
      && (s == EngageAp || s == ApSet ==> SetAp in es)
      && (s == Update || s == ApSet ==> Disengaged in es)
      && (s == EngageFallback || s == FallbackSet ==> TriggerFallback in es || SetFallback in es)
      && (s == FallbackSet ==> SetFallback in es || TriggerIdle in es)
      && (s == EngageIdle || s == IdleSet ==> TriggerIdle in es)
      && (s == IdleSet ==> SetIdle in es)
      && (s == Engagement ==> CertsLoaded in es)
      && (s == Running ==> Engaged in es)
    decreases |es|
  {
    hide Apply, NextEffect, NextState;
    if es != [] {
      var k := |es| - 1;
      AskedFor(es[..k]);
      assert es == es[..k] + [es[k]];
      if Fold(START, es).state != Fold(START, es[..k]).state {
        EntersRow(Fold(START, es).state, Fold(START, es[..k]).state, es[k]);
      }
    }
  }

  /** Nor is a service switched on, or the update, without it. */
  lemma {:induction false} SwitchedOnFor(es: seq<Event>)
    ensures var f := Fold(START, es).flags;
      && (f.execute ==> Engaged in es)
      && (f.deploy ==> Engaged in es || SetFallback in es || SetIdle in es)
      && (f.fallback ==> SetFallback in es || SetIdle in es)
      && (f.update ==> Disengaged in es)
    decreases |es|
  {
    hide Apply, NextEffect, NextState;
    if es != [] {
      var k := |es| - 1;
      SwitchedOnFor(es[..k]);
      assert es == es[..k] + [es[k]];
      var m := Fold(START, es[..k]);
      var x := NextEffect(m.state, es[k]);
      ApplyGets(x, m.flags, Execute);
      ApplyGets(x, m.flags, Deploy);
      ApplyGets(x, m.flags, Fallback);
      ApplyGets(x, m.flags, UpdateRun);
      AppliesRow(x, m.state, es[k]);
    }
  }

  // ---------------------------------------------------------------- what happens then

  // What the checks of the connection and of the clock report.
  predicate Checks(es: seq<Event>) {
    forall i :: 0 <= i < |es| ==> es[i].Connected? || es[i].ConnectFailed? || es[i].Validated? || es[i].ValidateFailed?
  }

  /** The reports of those checks change nothing, in any mode. */
  lemma {:induction false} ChecksChangeNothing(m: Mode, es: seq<Event>)
    requires Checks(es)
    ensures Fold(m, es) == m
    decreases |es|
  {
    if es != [] {
      ChecksChangeNothing(m, es[..|es| - 1]);
      CheckChangesNothing(m, es[|es| - 1]);
      hide React;
    }
  }

  lemma CheckChangesNothing(m: Mode, e: Event)
    requires Checks([e])
    ensures React(m, e) == m
  {
    assert [e][0] == e;
    hide Apply;
    assert Apply(Nothing, m.flags) == m.flags by { QuietApply(Nothing, m.flags); }
  }

  // The request, the report of what was launched for it, and checks before, between and after.
  function Course(ask: Event, report: Event, before: seq<Event>, between: seq<Event>, after: seq<Event>): seq<Event> {
    before + ([ask] + (between + ([report] + after)))
  }

  lemma FoldCourse(m: Mode, ask: Event, report: Event, u: seq<Event>, v: seq<Event>, w: seq<Event>)
    requires Checks(u) && Checks(v) && Checks(w)
    ensures Fold(m, Course(ask, report, u, v, w)) == React(React(m, ask), report)
  {
    hide React, Fold;
    FoldAppend(m, u, [ask] + (v + ([report] + w)));
    ChecksChangeNothing(m, u);
    FoldAppend(m, [ask], v + ([report] + w));
    FoldSingle(m, ask);
    var n := React(m, ask);
    FoldAppend(n, v, [report] + w);
    ChecksChangeNothing(n, v);
    FoldAppend(n, [report], w);
    FoldSingle(n, report);
    ChecksChangeNothing(React(n, report), w);
  }

  lemma FoldSingle(m: Mode, e: Event)
    ensures Fold(m, [e]) == React(m, e)
  {
    hide React;
    assert [e][..0] == [] && Fold(m, []) == m;
  }

  lemma TableEntry(s: State, e: Event, x: Effect, t: State)
    requires s != t && Enters(t, s, e) && !Quiet(x) && Applies(x, s, e)
    ensures NextState(s, e) == t && NextEffect(s, e) == x
  {
    hide *;
    EntersRow(t, s, e);
    AppliesRow(x, s, e);
  }

  /** Requests are met: with the report of what was launched for it, whatever the checks report meanwhile, a request
      leads to the mode that was asked for and its flags. Here the update. */
  lemma UpdateMet(m: Mode, u: seq<Event>, v: seq<Event>, w: seq<Event>)
    requires m.state == Running || m.state == FallbackSet || m.state == IdleSet
    requires Checks(u) && Checks(v) && Checks(w)
    ensures var r := Fold(m, Course(TriggerUpdate, Disengaged, u, v, w));
      r.state == Update && r.flags.update && !r.flags.launcher && ServicesOff(r.flags)
  {
    hide Fold, Course, NextState, NextEffect;
    FoldCourse(m, TriggerUpdate, Disengaged, u, v, w);
    TableEntry(m.state, TriggerUpdate, Disengages, EngageUpdate);
    TableEntry(EngageUpdate, Disengaged, StartUpdate, Update);
  }

  /** The access point. */
  lemma ApMet(m: Mode, u: seq<Event>, v: seq<Event>, w: seq<Event>)
    requires m.state == Running
    requires Checks(u) && Checks(v) && Checks(w)
    ensures var r := Fold(m, Course(SetAp, Disengaged, u, v, w));
      r.state == ApSet && !r.flags.launcher && !r.flags.mqtt && ServicesOff(r.flags)
      && r.flags.update == m.flags.update
  {
    hide Fold, Course, NextState, NextEffect;
    FoldCourse(m, SetAp, Disengaged, u, v, w);
    TableEntry(m.state, SetAp, Disengages, EngageAp);
    TableEntry(EngageAp, Disengaged, ApOn, ApSet);
  }

  /** Fallback mode. */
  lemma FallbackMet(m: Mode, u: seq<Event>, v: seq<Event>, w: seq<Event>)
    requires m.state == Running || m.state == Registration || m.state == IdleSet
    requires Checks(u) && Checks(v) && Checks(w)
    ensures var r := Fold(m, Course(TriggerFallback, SetFallback, u, v, w));
      r.state == FallbackSet && !r.flags.launcher && r.flags.fallback && r.flags.monitor && r.flags.deploy
      && r.flags.console && !r.flags.execute && r.flags.mqtt && !r.flags.checkRegistration
  {
    hide Fold, Course, NextState, NextEffect;
    FoldCourse(m, TriggerFallback, SetFallback, u, v, w);
    TableEntry(m.state, TriggerFallback, TryFallback, EngageFallback);
    TableEntry(EngageFallback, SetFallback, FallbackOn, FallbackSet);
  }

  /** Idle mode. */
  lemma IdleMet(m: Mode, u: seq<Event>, v: seq<Event>, w: seq<Event>)
    requires m.state == Running || m.state == Registration
    requires Checks(u) && Checks(v) && Checks(w)
    ensures var r := Fold(m, Course(TriggerIdle, SetIdle, u, v, w));
      r.state == IdleSet && !r.flags.launcher && r.flags.monitor && r.flags.console && !r.flags.execute
      && r.flags.mqtt && !r.flags.checkRegistration
  {
    hide Fold, Course, NextState, NextEffect;
    FoldCourse(m, TriggerIdle, SetIdle, u, v, w);
    TableEntry(m.state, TriggerIdle, TryIdle, EngageIdle);
    TableEntry(EngageIdle, SetIdle, IdleOn, IdleSet);
  }

  /** A new layout in flash: everything is disengaged and registration is checked again. */
  lemma DisengagementMet(m: Mode, u: seq<Event>, v: seq<Event>, w: seq<Event>)
    requires m.state == Running || m.state == FallbackSet
    requires Checks(u) && Checks(v) && Checks(w)
    ensures var r := Fold(m, Course(FlashOk, Disengaged, u, v, w));
      r.state == Registration && r.flags.checkRegistration && ServicesOff(r.flags)
  {
    hide Fold, Course, NextState, NextEffect;
    FoldCourse(m, FlashOk, Disengaged, u, v, w);
    TableEntry(m.state, FlashOk, Disengages, Disengage);
    TableEntry(Disengage, Disengaged, Register, Registration);
  }

  /** Fallback mode is left by asking for it again. */
  lemma FallbackLeft(m: Mode, u: seq<Event>, v: seq<Event>, w: seq<Event>)
    requires m.state == FallbackSet
    requires Checks(u) && Checks(v) && Checks(w)
    ensures var r := Fold(m, Course(TriggerFallback, Disengaged, u, v, w));
      r.state == Registration && r.flags.checkRegistration && ServicesOff(r.flags)
  {
    hide Fold, Course, NextState, NextEffect;
    FoldCourse(m, TriggerFallback, Disengaged, u, v, w);
    TableEntry(m.state, TriggerFallback, FallbackOff, Disengage);
    TableEntry(Disengage, Disengaged, Register, Registration);
  }

  /** Running mode. */
  lemma EngagementMet(m: Mode, u: seq<Event>, v: seq<Event>, w: seq<Event>)
    requires m.state == Registration
    requires Checks(u) && Checks(v) && Checks(w)
    ensures var r := Fold(m, Course(CertsLoaded, Engaged, u, v, w));
      r.state == Running && !r.flags.launcher && !r.flags.checkRegistration && r.flags.mqtt
      && r.flags.monitor && r.flags.deploy && r.flags.execute && r.flags.console
  {
    hide Fold, Course, NextState, NextEffect;
    FoldCourse(m, CertsLoaded, Engaged, u, v, w);
    TableEntry(m.state, CertsLoaded, Engage, Engagement);
    TableEntry(Engagement, Engaged, Run, Running);
  }

  /** And the way back from the access point. */
  lemma ApLeft(m: Mode, u: seq<Event>, v: seq<Event>, w: seq<Event>)
    requires m.state == ApSet
    requires Checks(u) && Checks(v) && Checks(w)
    ensures var r := Fold(m, Course(SetAp, CertsLoaded, u, v, w));
      r.state == Engagement && r.flags.launcher && r.flags.mqtt && r.flags.desired == 15
  {
    hide Fold, Course, NextState, NextEffect;
    FoldCourse(m, SetAp, CertsLoaded, u, v, w);
    TableEntry(m.state, SetAp, ApOff, Registration);
    TableEntry(Registration, CertsLoaded, Engage, Engagement);
  }
}
