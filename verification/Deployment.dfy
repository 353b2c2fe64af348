/** What a deployment leaves behind: the machine that was asked for, denied until an allow action has finished on it. */
module Deployment {
  import opened Pattern
  import opened Flash
  import opened Machine
  import opened Registry
  import opened RegistryProofs
  import T = Transactions
  import H = TransactionHistory

  // The machine as the request describes it.
  ghost predicate AsAsked(m: Machine, q: Request)
    requires |q.signals| <= MAX_SIGNALS && AllSome(q.signals) && q.program.Some?
  {
    && m.info.resource == q.resource && m.info.program == q.program.value
    && m.info.nofResource == m.info.nofRetrofit == |q.signals|
    && |m.info.resourceSignals| == |m.info.retrofitSignals| == 2
    && forall i :: 0 <= i < |q.signals| ==>
         var x := q.signals[i].value;
         m.info.resourceSignals[i] == Signal(x.name, x.port) && m.info.retrofitSignals[i] == Signal(x.name, x.retrofit)
  }

  // Denied, idle, free, with its sequences as deployed and no action.
  predicate Untouched(f: Flags) {
    f.allowed == Disabled && f.idle == IsIdle && f.control == NoControl && f.changed == SameSequence
    && f.action == "none"
  }

  /** An accepted deployment appends the machine that was asked for, with untouched flags, and a restart brings it
      back so. */
  lemma DeployAdds(r: Registry, a: seq<Entry>, rest: Store, q: Request)
    requires Represents(r, a, rest) && Legal(a, DoDeploy(q)) && Admissible(a, q)
    ensures Ready(r, DoDeploy(q))
    ensures var s := Step(r, DoDeploy(q));
      && |s.table| == |r.table| + 1 && s.table[..|r.table|] == r.table
      && AsAsked(s.table[|r.table|], q) && Untouched(s.table[|r.table|].flags)
      && Ready(s, DoReboot)
      && var t := Step(s, DoReboot);
         |t.table| == |s.table| && AsAsked(t.table[|r.table|], q) && Untouched(t.table[|r.table|].flags)
  {
    hide AsAsked, Untouched, Step, SpecStep, Represents, Admissible, Ready, Legal, ValidEntry;
    RepresentsMeans(r, a, rest);
    var b := SpecStep(a, DoDeploy(q));
    StepRefines(r, a, rest, DoDeploy(q));
    var s := Step(r, DoDeploy(q));
    RepresentsMeans(s, b, rest);
    EntryAdded(a, q);
    Restarted(b);
    StepRefines(s, b, rest, DoReboot);
    RepresentsMeans(Step(s, DoReboot), SpecStep(b, DoReboot), rest);
    forall k | 0 <= k < |a| ensures s.table[k] == r.table[k] { assert b[k] == a[k]; }
    HeldAsAsked(b[|a|], q);
    HeldAsAsked(SpecStep(b, DoReboot)[|a|], q);
  }

  lemma RepresentsMeans(r: Registry, a: seq<Entry>, rest: Store)
    requires Represents(r, a, rest)
    ensures Proper(a) && AllValid(a) && |r.table| == |a| && forall k :: 0 <= k < |a| ==> r.table[k] == Held(a[k])
  {
    hide Stored;
  }

  lemma Restarted(b: seq<Entry>)
    requires AllValid(b)
    ensures Legal(b, DoReboot) && |SpecStep(b, DoReboot)| == |b|
    ensures forall k :: 0 <= k < |b| ==> SpecStep(b, DoReboot)[k].info == b[k].info
    ensures forall k :: 0 <= k < |b| ==> SpecStep(b, DoReboot)[k].flags == b[k].saved
  {
    hide ValidEntry;
  }

  lemma EntryAdded(a: seq<Entry>, q: Request)
    requires AllValid(a) && Legal(a, DoDeploy(q)) && Admissible(a, q)
    ensures |q.signals| <= MAX_SIGNALS && AllSome(q.signals) && q.program.Some? && ValidRequest(q)
    ensures SpecStep(a, DoDeploy(q)) == a + [Entry(Deployed(q), FRESH_FLAGS, FRESH_FLAGS, true)]
  {
    hide Deployed;
  }

  lemma HeldAsAsked(e: Entry, q: Request)
    requires |q.signals| <= MAX_SIGNALS && AllSome(q.signals) && q.program.Some? && ValidRequest(q)
    requires e.info == Deployed(q) && e.flags == FRESH_FLAGS
    ensures AsAsked(Held(e), q) && Untouched(Held(e).flags)
  {
  }

  /** A deployed machine takes no trigger before an allow action has been carried out on it. */
  lemma DeployedWaitsForAllow(r: Registry, a: seq<Entry>, rest: Store, q: Request, ops: seq<T.Op>, j: nat)
    requires Represents(r, a, rest) && Legal(a, DoDeploy(q)) && Admissible(a, q)
    requires Ready(r, DoDeploy(q)) && |Step(r, DoDeploy(q)).table| > |r.table|
    requires j < |ops| && T.IsTrigger(ops[j])
    requires T.Accepted(T.Before(Step(r, DoDeploy(q)).table[|r.table|].flags, ops, j), ops[j].sequence)
    ensures exists i :: 0 <= i < j && H.Carried(Step(r, DoDeploy(q)).table[|r.table|].flags, ops, i, "allow")
  {
    hide Represents, Admissible, Step;
    DeployAdds(r, a, rest, q);
    hide AsAsked, T.Before, H.Carried, Ready, Legal;
    H.AllowedIff(Step(r, DoDeploy(q)).table[|r.table|].flags, ops, j);
  }
}
