/** Which value each flag of a machine has at any point of any run, told from the operations before it alone. */
module TransactionHistory {
  import opened Machine
  import opened Transactions

  // The action of that name has finished while the machine was idle.
  predicate Carried(f: Flags, ops: seq<Op>, i: nat, name: string)
    requires i < |ops|
  {
    && ops[i].Finished? && ops[i].sequence.channel == Action && ops[i].sequence.name == name
    && Before(f, ops, i).idle == IsIdle
  }

  predicate Denies(f: Flags, ops: seq<Op>, i: nat)
    requires i < |ops|
  {
    Carried(f, ops, i, "deny") || ops[i] == Fix
  }

  /** A machine is allowed exactly if "allow" was carried out on it with neither "deny" nor a fix since, or if it was
      allowed at first and there was neither at all. */
  lemma {:induction false} AllowedIff(f: Flags, ops: seq<Op>, k: nat)
    requires k <= |ops|
    ensures Before(f, ops, k).allowed == Enabled
       <==> (exists i :: 0 <= i < k && Carried(f, ops, i, "allow") && forall j :: i < j < k ==> !Denies(f, ops, j))
            || (f.allowed == Enabled && forall j :: 0 <= j < k ==> !Denies(f, ops, j))
  {
    if k > 0 {
      AllowedIff(f, ops, k - 1);
      if !Carried(f, ops, k - 1, "allow") && !Denies(f, ops, k - 1) {
        AllowedStays(f, ops, k - 1);
        hide Before, Carried;
        if i :| 0 <= i < k - 1 && Carried(f, ops, i, "allow") && forall j :: i < j < k - 1 ==> !Denies(f, ops, j) {
          assert forall j :: i < j < k ==> !Denies(f, ops, j);
        }
      }
    }
  }

  lemma AllowedStays(f: Flags, ops: seq<Op>, k: nat)
    requires k < |ops| && !Carried(f, ops, k, "allow") && !Denies(f, ops, k)
    ensures Before(f, ops, k + 1).allowed == Before(f, ops, k).allowed
  {
  }

  // A running action has set the machine running.
  predicate Begins(f: Flags, ops: seq<Op>, i: nat)
    requires i < |ops|
  {
    && ops[i].Finished? && ops[i].sequence.channel == Action && ops[i].sequence.status == Running
    && ops[i].sequence.name != "allow" && ops[i].sequence.name != "deny" && Before(f, ops, i).idle == IsIdle
  }

  /** A machine is running exactly if an action began on it, or it was running at first, and no success event and no
      fix came since. */
  lemma {:induction false} RunningIff(f: Flags, ops: seq<Op>, k: nat)
    requires k <= |ops|
    ensures Before(f, ops, k).idle == IsRunning
       <==> (exists i :: 0 <= i < k && Begins(f, ops, i) && NoneEnds(ops, i + 1, k))
            || (f.idle == IsRunning && NoneEnds(ops, 0, k))
  {
    if k > 0 {
      RunningIff(f, ops, k - 1);
      if Begins(f, ops, k - 1) {
        assert NoneEnds(ops, k, k);
      } else if !Ends(ops[k - 1]) {
        assert Before(f, ops, k).idle == Before(f, ops, k - 1).idle;
        hide Before, Begins, Ends;
        if i :| 0 <= i < k - 1 && Begins(f, ops, i) && NoneEnds(ops, i + 1, k - 1) {
          assert NoneEnds(ops, i + 1, k);
        }
      }
    }
  }

  // An event of the machine has taken it, which was allowed and free.
  predicate Triggers(f: Flags, ops: seq<Op>, i: nat)
    requires i < |ops|
  {
    && ops[i].Finished? && ops[i].sequence.channel == Event && ops[i].sequence.status == Trigger
    && Before(f, ops, i).allowed == Enabled && Before(f, ops, i).control == NoControl
  }

  // An ordered action has been taken, the machine being idle.
  predicate Orders(f: Flags, ops: seq<Op>, i: nat)
    requires i < |ops|
  {
    ops[i].Received? && ops[i].sequence.status == Running && Before(f, ops, i).idle == IsIdle
  }

  // What takes control of a free machine.
  predicate TakenBy(f: Flags, ops: seq<Op>, i: nat, c: Control)
    requires i < |ops|
  {
    match c
    case HubControl => Triggers(f, ops, i)
    case TxnControl => Orders(f, ops, i) && Before(f, ops, i).control == NoControl
    case NoControl => false
  }

  /** The hub has control exactly if one of the machine's events took it, a transaction exactly if an ordered action
      found it free, and no success event and no fix came since. */
  lemma {:induction false} ControlIff(f: Flags, ops: seq<Op>, k: nat, c: Control)
    requires k <= |ops| && c != NoControl
    ensures Before(f, ops, k).control == c
       <==> (exists i :: 0 <= i < k && TakenBy(f, ops, i, c) && NoneEnds(ops, i + 1, k))
            || (f.control == c && NoneEnds(ops, 0, k))
  {
    if k > 0 {
      ControlIff(f, ops, k - 1, c);
      if TakenBy(f, ops, k - 1, c) {
        assert NoneEnds(ops, k, k);
      } else if !Ends(ops[k - 1]) {
        ControlStays(f, ops, k - 1, c);
        hide Before, TakenBy, Ends;
        if i :| 0 <= i < k - 1 && TakenBy(f, ops, i, c) && NoneEnds(ops, i + 1, k - 1) {
          assert NoneEnds(ops, i + 1, k);
        }
      }
    }
  }

  lemma ControlStays(f: Flags, ops: seq<Op>, k: nat, c: Control)
    requires k < |ops| && c != NoControl && !TakenBy(f, ops, k, c) && !Ends(ops[k])
    ensures Before(f, ops, k + 1).control == c <==> Before(f, ops, k).control == c
  {
  }

  // An operation that names the machine's action, or takes the name away.
  predicate Names(f: Flags, ops: seq<Op>, i: nat)
    requires i < |ops|
  {
    Triggers(f, ops, i) || Orders(f, ops, i) || Carried(f, ops, i, "allow") || ops[i] == Fix
  }

  ghost predicate Unnamed(f: Flags, ops: seq<Op>, i: nat, k: nat)
    requires i <= k <= |ops|
  {
    forall j :: i <= j < k ==> !Names(f, ops, j)
  }

  lemma {:induction false} ActionStays(f: Flags, ops: seq<Op>, i: nat, k: nat)
    requires i <= k <= |ops| && Unnamed(f, ops, i, k)
    ensures Before(f, ops, k).action == Before(f, ops, i).action
    decreases k - i
  {
    if i < k {
      ActionStep(f, ops, k - 1);
      hide Before, Names, Triggers, Orders;
      ActionStays(f, ops, i, k - 1);
    }
  }

  /** The action of a machine is that of the last event that took it or ordered action taken, unless "allow" was
      carried out or a fix came since, which leave none. */
  lemma ActionIs(f: Flags, ops: seq<Op>, i: nat, k: nat)
    requires i < k <= |ops| && Unnamed(f, ops, i + 1, k)
    ensures Names(f, ops, i) ==>
      Before(f, ops, k).action == if Triggers(f, ops, i) || Orders(f, ops, i) then ops[i].sequence.name else "none"
    ensures i == 0 && !Names(f, ops, 0) ==> Before(f, ops, k).action == f.action
  {
    hide Names, Triggers, Orders;
    assert Before(f, ops, 0) == f;
    hide Before;
    ActionStep(f, ops, i);
    ActionStays(f, ops, i + 1, k);
  }

  lemma ActionStep(f: Flags, ops: seq<Op>, k: nat)
    requires k < |ops|
    ensures Before(f, ops, k + 1).action
         == if !Names(f, ops, k) then Before(f, ops, k).action
            else if Triggers(f, ops, k) || Orders(f, ops, k) then ops[k].sequence.name else "none"
  {
  }
}
