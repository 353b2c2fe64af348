/** The flags of one machine as its sequences finish, actions arrive and the cloud orders a fix
    (src/machines.c, src/execution.c). */
module Transactions {
  import opened Machine

  datatype Status = Running | Success | Trigger
  datatype Channel = Action | Event
  datatype Sequence = Sequence(name: string, status: Status, channel: Channel)

  const ENABLE := "allow"
  const DISABLE := "deny"
  const NO_ACTION := "none"

  // What happens to a machine; online tells whether the hub is connected, since only then nothing is logged.
  datatype Op =
    | Finished(sequence: Sequence, online: bool) // reported by the sequence engine
    | Received(sequence: Sequence, online: bool) // an action ordered by the cloud or by the hub itself
    | Fix

  // The flags afterwards, and what the offline log was given.
  datatype Outcome = Outcome(flags: Flags, logged: seq<Flags>)

  // machine_flags_dispatcher
  predicate Accepted(f: Flags, s: Sequence) {
    match s.channel
    case Event => s.status == Trigger ==> f.allowed == Enabled && f.control == NoControl
    case Action => f.idle == IsIdle
  }

  function Logs(f: Flags, online: bool): seq<Flags> {
    if online then [] else [f]
  }

  // machine_control_task_dispatcher
  function Finish(f: Flags, s: Sequence, online: bool): Outcome {
    match s.channel
    case Event =>
      (match s.status
       case Trigger =>
         var g := f.(control := HubControl, action := s.name);
         Outcome(if online then g else g.(changed := NewSequence), Logs(g, online))
       case Success =>
         var g := f.(idle := IsIdle, control := NoControl);
         Outcome(g, Logs(g, online))
       case Running => Outcome(f, []))
    case Action =>
      if s.name == ENABLE then
        var g := f.(allowed := Enabled, action := NO_ACTION);
        Outcome(g.(changed := SameSequence), Logs(g, online))
      else if s.name == DISABLE then
        var g := f.(allowed := Disabled);
        Outcome(g, Logs(g, online))
      else if s.status == Running then
        var g := f.(idle := IsRunning);
        Outcome(g, Logs(g, online))
      else Outcome(f, [])
  }

  // update_machine_flags
  function Receive(f: Flags, s: Sequence, online: bool): Outcome {
    if s.status != Running then Outcome(f, [])
    else
      var g := f.(control := if f.control == NoControl then TxnControl else f.control, action := s.name);
      Outcome(g, Logs(g, online))
  }

  // machines_clear_all_status
  function Cleared(f: Flags): Flags {
    Flags(Disabled, IsIdle, NoControl, SameSequence, NO_ACTION)
  }

  function Step(f: Flags, op: Op): Outcome {
    match op
    case Finished(s, online) => if Accepted(f, s) then Finish(f, s, online) else Outcome(f, [])
    case Received(s, online) =>
      if Accepted(f, s.(channel := Action)) then Receive(f, s, online) else Outcome(f, [])
    case Fix => Outcome(Cleared(f), [])
  }

  // The flags before operation k of a run.
  function Before(f: Flags, ops: seq<Op>, k: nat): Flags
    requires k <= |ops|
  {
    if k == 0 then f else Step(Before(f, ops, k - 1), ops[k - 1]).flags
  }

  // ---------------------------------------------------------------- what a run keeps

  predicate IsTrigger(op: Op) {
    op.Finished? && op.sequence.channel == Event && op.sequence.status == Trigger
  }

  // The end of a transaction: a success event or a fix.
  predicate Ends(op: Op) {
    op == Fix || (op.Finished? && op.sequence.channel == Event && op.sequence.status == Success)
  }

  predicate Starts(op: Op) {
    op.Finished? && op.sequence.channel == Action && op.sequence.status == Running
    && op.sequence.name != ENABLE && op.sequence.name != DISABLE
  }

  predicate Enables(op: Op) {
    op.Finished? && op.sequence.channel == Action && op.sequence.name == ENABLE
  }

  ghost predicate NoneEnds(ops: seq<Op>, i: nat, j: nat)
    requires i <= j <= |ops|
  {
    forall k :: i <= k < j ==> !Ends(ops[k])
  }

  /** Once the hub or a transaction controls a machine, the same one keeps it until the transaction ends; so
      control never passes from one to the other directly. */
  lemma {:induction false} ControlHeld(f: Flags, ops: seq<Op>, i: nat, j: nat)
    requires i <= j <= |ops| && NoneEnds(ops, i, j) && Before(f, ops, i).control != NoControl
    ensures Before(f, ops, j).control == Before(f, ops, i).control
    decreases j - i
  {
    if i < j { ControlHeld(f, ops, i, j - 1); }
  }

  /** A running machine stays running, and neither allowed nor denied, until the transaction ends. */
  lemma {:induction false} RunningHeld(f: Flags, ops: seq<Op>, i: nat, j: nat)
    requires i <= j <= |ops| && NoneEnds(ops, i, j) && Before(f, ops, i).idle == IsRunning
    ensures Before(f, ops, j).idle == IsRunning && Before(f, ops, j).allowed == Before(f, ops, i).allowed
    decreases j - i
  {
    if i < j { RunningHeld(f, ops, i, j - 1); }
  }

  /** Between two accepted triggers of a machine there is always the end of a transaction. */
  lemma TriggersAreSeparated(f: Flags, ops: seq<Op>, i: nat, j: nat)
    requires i < j < |ops| && IsTrigger(ops[i]) && IsTrigger(ops[j])
    requires Accepted(Before(f, ops, i), ops[i].sequence) && Accepted(Before(f, ops, j), ops[j].sequence)
    ensures exists k :: i < k < j && Ends(ops[k])
  {
    if forall k :: i < k < j ==> !Ends(ops[k]) {
      assert Before(f, ops, i + 1).control == HubControl;
      ControlHeld(f, ops, i + 1, j);
      assert false;
    }
  }

  /** Between two actions that set a machine running there is always the end of a transaction. */
  lemma ActionsAreSeparated(f: Flags, ops: seq<Op>, i: nat, j: nat)
    requires i < j < |ops| && Starts(ops[i]) && Starts(ops[j])
    requires Accepted(Before(f, ops, i), ops[i].sequence) && Accepted(Before(f, ops, j), ops[j].sequence)
    ensures exists k :: i < k < j && Ends(ops[k])
  {
    if forall k :: i < k < j ==> !Ends(ops[k]) {
      assert Before(f, ops, i + 1).idle == IsRunning;
      RunningHeld(f, ops, i + 1, j);
      assert false;
    }
  }

  lemma {:induction false} StaysDisabled(f: Flags, ops: seq<Op>, i: nat, j: nat)
    requires i <= j <= |ops| && Before(f, ops, i).allowed == Disabled
    requires forall k :: i <= k < j ==> !Enables(ops[k])
    ensures Before(f, ops, j).allowed == Disabled
    decreases j - i
  {
    if i < j { StaysDisabled(f, ops, i, j - 1); }
  }

  /** A denied machine takes no trigger before an allow action has finished on it. */
  lemma NoTriggerWhileDenied(f: Flags, ops: seq<Op>, i: nat, j: nat)
    requires i < j < |ops| && Before(f, ops, i).allowed == Disabled
    requires IsTrigger(ops[j]) && Accepted(Before(f, ops, j), ops[j].sequence)
    ensures exists k :: i <= k < j && Enables(ops[k])
  {
    if forall k :: i <= k < j ==> !Enables(ops[k]) {
      StaysDisabled(f, ops, i, j);
      assert false;
    }
  }

  /** The reverse of ControlHeld: a machine is free again exactly from an end on, unless something took it since. */
  lemma {:induction false} FreedOnlyByAnEnd(f: Flags, ops: seq<Op>, i: nat, j: nat)
    requires i < j <= |ops|
    requires Before(f, ops, i).control != NoControl && Before(f, ops, j).control != Before(f, ops, i).control
    ensures exists k :: i <= k < j && Ends(ops[k]) && Before(f, ops, k + 1).control == NoControl
  {
    if NoneEnds(ops, i, j) {
      ControlHeld(f, ops, i, j);
      assert false;
    }
    var k :| i <= k < j && Ends(ops[k]);
    assert Before(f, ops, k + 1).control == NoControl;
  }

  /** The action of a transaction in progress is not replaced before it ends. */
  lemma {:induction false} ActionHeld(f: Flags, ops: seq<Op>, i: nat, j: nat)
    requires i <= j <= |ops| && NoneEnds(ops, i, j)
    requires Before(f, ops, i).idle == IsRunning && Before(f, ops, i).control != NoControl
    ensures Before(f, ops, j).action == Before(f, ops, i).action
    decreases j - i
  {
    if i < j {
      ActionHeld(f, ops, i, j - 1);
      RunningHeld(f, ops, i, j - 1);
      ControlHeld(f, ops, i, j - 1);
    }
  }

  // A trigger taken while offline.
  predicate StartsOffline(f: Flags, ops: seq<Op>, k: nat)
    requires k < |ops|
  {
    IsTrigger(ops[k]) && Accepted(Before(f, ops, k), ops[k].sequence) && !ops[k].online
  }

  // An allow action taken, or a fix.
  predicate Reallows(f: Flags, ops: seq<Op>, k: nat)
    requires k < |ops|
  {
    ops[k] == Fix || (Enables(ops[k]) && Accepted(Before(f, ops, k), ops[k].sequence))
  }

  /** The flag sequence_changed tells exactly that a trigger was taken offline and the machine has neither been
      allowed again nor fixed since. */
  lemma {:induction false} ChangedMeansOffline(f: Flags, ops: seq<Op>, k: nat)
    requires f.changed == SameSequence && k <= |ops|
    ensures Before(f, ops, k).changed == NewSequence
       <==> exists i :: 0 <= i < k && StartsOffline(f, ops, i) && forall j :: i < j < k ==> !Reallows(f, ops, j)
  {
    if k > 0 {
      ChangedMeansOffline(f, ops, k - 1);
      if StartsOffline(f, ops, k - 1) || Reallows(f, ops, k - 1) {
      } else if i :| 0 <= i < k - 1 && StartsOffline(f, ops, i) && forall j :: i < j < k - 1 ==> !Reallows(f, ops, j) {
        assert forall j :: i < j < k ==> !Reallows(f, ops, j);
      }
    }
  }

  /** Nothing is logged online; offline, a step logs at most once, and what it logs is the flags it leaves,
      except that sequence_changed is still the old one. */
  lemma LogsWhatItLeaves(f: Flags, op: Op)
    requires !op.Fix?
    ensures op.online ==> Step(f, op).logged == []
    ensures !op.online ==>
      (Step(f, op).logged == [] && Step(f, op).flags == f)
      || Step(f, op).logged == [Step(f, op).flags.(changed := f.changed)]
  {
  }

  // ---------------------------------------------------------------- on the machine's record

  class FlagRecord {
    var allowed: Hab
    var idle: Idle
    var control: Control
    var changed: Change
    var action: string
    var dirty: bool              // flags_changed
    ghost var logged: seq<Flags> // what went to the offline log

    ghost function Value(): Flags
      reads this
    {
      Flags(allowed, idle, control, changed, action)
    }

    // machine_flags_dispatcher
    method Dispatch(s: Sequence) returns (accept: bool)
      ensures accept <==> Accepted(Value(), s)
    {
      if s.channel == Event {
        if s.status == Trigger {
          if allowed == Disabled { return false; }
          if control != NoControl { return false; }
        } else {
          return true;
        }
      } else if idle == IsRunning {
        return false;
      }
      return true;
    }

    method Log(online: bool)
      modifies this`logged
      ensures logged == old(logged) + Logs(Value(), online)
    {
      if !online { logged := logged + [Value()]; }
    }

    // dispatch_sequence_conditions
    method FinishSequence(s: Sequence, online: bool) returns (accept: bool)
      modifies this
      ensures accept <==> Accepted(old(Value()), s)
      ensures var o := Step(old(Value()), Finished(s, online));
        Value() == o.flags && logged == old(logged) + o.logged && dirty == (old(dirty) || accept)
    {
      accept := Dispatch(s);
      if !accept { return; }
      if s.channel == Event {
        if s.status == Trigger {
          control := HubControl;
          action := s.name;
          Log(online);
          if !online { changed := NewSequence; }
        } else if s.status == Success {
          idle := IsIdle;
          control := NoControl;
          Log(online);
        }
      } else {
        if s.name == ENABLE {
          allowed := Enabled;
          action := NO_ACTION;
          Log(online);
          if changed == NewSequence { changed := SameSequence; }
        } else if s.name == DISABLE {
          allowed := Disabled;
          Log(online);
        } else if s.status == Running {
          idle := IsRunning;
          Log(online);
        }
      }
      dirty := true;
    }

    // dispatch_received_action_conditions, up to queueing the sequence
    method ReceiveAction(s: Sequence, online: bool) returns (accept: bool)
      requires s.channel == Action
      modifies this
      ensures accept <==> Accepted(old(Value()), s)
      ensures var o := Step(old(Value()), Received(s, online));
        Value() == o.flags && logged == old(logged) + o.logged && dirty == (old(dirty) || accept)
    {
      accept := Dispatch(s);
      if !accept { return; }
      if s.status == Running {
        if control == NoControl { control := TxnControl; }
        action := s.name;
        Log(online);
      }
      dirty := true;
    }

    // machines_clear_all_status
    method ClearStatus()
      modifies this
      ensures Value() == Step(old(Value()), Fix).flags && logged == old(logged) && dirty
    {
      allowed := Disabled;
      idle := IsIdle;
      control := NoControl;
      action := NO_ACTION;
      changed := SameSequence;
      dirty := true;
    }
  }
}
