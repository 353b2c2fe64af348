/** Every operation of the registry of src/machines.c is one operation on its list of machines. */
module RegistryProofs {
  import opened Base64
  import opened Pattern
  import opened Flash
  import opened Machine
  import opened Registry

  lemma OrderIsPosition(r: Registry, a: seq<Entry>, name: Byte)
    requires |r.table| == |a| && forall k :: 0 <= k < |a| ==> r.table[k] == Held(a[k])
    ensures Order(r.table, name) == Position(a, name)
  {
  }

  lemma Sanity(r: Registry, a: seq<Entry>, rest: Store)
    requires Represents(r, a, rest)
    ensures Sane(r) && METADATA in r.flash
    ensures forall k :: 0 <= k < |a| ==> Ports(r.table[k].info) == Ports(a[k].info)
  {
    hide Ports, Filed;
    forall k | 0 <= k < |a| ensures ValidMachine(r.table[k]) && Ports(r.table[k].info) == Ports(a[k].info) {
      assert ValidEntry(a[k]);
      SamePorts(r.table[k].info, a[k].info);
    }
  }

  lemma SamePorts(s: Static, t: Static)
    requires ValidStatic(t) && s.(flagsChanged := t.flagsChanged) == t
    ensures ValidStatic(s) && Ports(s) == Ports(t)
  {
  }

  // ---------------------------------------------------------------- one operation at a time

  lemma SaveRefines(r: Registry, a: seq<Entry>, rest: Store, m: Machine)
    requires Represents(r, a, rest) && |a| < MAX_MACHINES && ValidMachine(m)
    requires m.info.flagsChanged && !Named(a, m.info.resource) && PortsFree(a, Ports(m.info))
    ensures Sane(r) && Represents(Save(r, m), a + [Entry(m.info, m.flags, m.flags, true)], rest)
  {
    hide StaticText, FlagsText, StaticName, FlagsName, Decimal, Ports, Ours;
    Names();
    Sanity(r, a, rest);
    var b := a + [Entry(m.info, m.flags, m.flags, true)];
    var s := Save(r, m);
    forall k: nat | k < |b| ensures Filed(s.flash, b, k) {
      if k < |a| { assert Filed(r.flash, a, k); }
    }
  }

  lemma {:induction false} FreeFiles(f: Store, a: seq<Entry>, rest: Store, k: nat)
    requires AllValid(a) && k < |a| <= MAX_MACHINES < Pow10(DIGITS) && Stored(f, a, rest)
    ensures Stored(MetadataUpdate(FreeArchive(f, k, |a|), |a| - 1), SwapRemove(a, k), rest)
  {
    hide StaticText, FlagsText, StaticName, FlagsName, Decimal, Ports, Ours, ValidEntry;
    Names();
    var b := SwapRemove(a, k);
    var g := MetadataUpdate(FreeArchive(f, k, |a|), |a| - 1);
    assert Filed(f, a, k) && Filed(f, a, |a| - 1);
    forall j: nat | j < |b| ensures Filed(g, b, j) {
      FreeFiled(f, a, rest, k, j);
    }
  }

  lemma FreeFiled(f: Store, a: seq<Entry>, rest: Store, k: nat, j: nat)
    requires AllValid(a) && k < |a| <= MAX_MACHINES < Pow10(DIGITS) && Stored(f, a, rest) && j < |a| - 1
    ensures Filed(MetadataUpdate(FreeArchive(f, k, |a|), |a| - 1), SwapRemove(a, k), j)
  {
    hide StaticText, FlagsText, StaticName, FlagsName, Decimal, Ports, Ours, ValidEntry;
    Names();
    assert Filed(f, a, k) && Filed(f, a, |a| - 1) && Filed(f, a, j);
  }

  lemma SwapRemoveProper(a: seq<Entry>, k: nat)
    requires Proper(a) && k < |a|
    ensures Proper(SwapRemove(a, k))
  {
    hide Ports, ValidStatic, ValidFlags;
  }

  lemma SwapRemoveHeld(t: seq<Machine>, a: seq<Entry>, k: nat)
    requires |t| == |a| && k < |a| && forall i :: 0 <= i < |a| ==> t[i] == Held(a[i])
    ensures forall i :: 0 <= i < |a| - 1 ==> SwapRemove(t, k)[i] == Held(SwapRemove(a, k)[i])
  {
    hide Held;
  }

  lemma FreeRefines(r: Registry, a: seq<Entry>, rest: Store, name: Byte)
    requires Represents(r, a, rest) && Position(a, name) < |a|
    ensures Sane(r) && Order(r.table, name) < |r.table|
    ensures Represents(Free(r, name), SwapRemove(a, Position(a, name)), rest)
  {
    hide Proper, Held, Stored, FreeArchive, MetadataUpdate, Sane;
    SanityHidden(r, a, rest);
    ProperHidden(r, a, rest);
    OrderIsPosition(r, a, name);
    var k := Position(a, name);
    FreeFiles(r.flash, a, rest, k);
    SwapRemoveProper(a, k);
    SwapRemoveHeld(r.table, a, k);
  }

  lemma SanityHidden(r: Registry, a: seq<Entry>, rest: Store)
    requires Represents(r, a, rest)
    ensures Sane(r)
  {
    Sanity(r, a, rest);
  }

  lemma LastPosition(a: seq<Entry>)
    requires Proper(a) && a != []
    ensures Position(a, a[|a| - 1].info.resource) == |a| - 1
    ensures SwapRemove(a, |a| - 1) == a[..|a| - 1]
  {
  }

  lemma ClearLast(r: Registry, a: seq<Entry>, rest: Store)
    requires Represents(r, a, rest) && a != []
    ensures Sane(r) && |r.table| == |a|
    ensures var name := r.table[|a| - 1].info.resource;
      Order(r.table, name) < |r.table| && Represents(Free(r, name), a[..|a| - 1], rest)
  {
    hide Stored, Free, Ports;
    Sanity(r, a, rest);
    LastPosition(a);
    FreeRefines(r, a, rest, a[|a| - 1].info.resource);
  }

  lemma NothingToClear(r: Registry, rest: Store)
    requires Represents(r, [], rest)
    ensures r.table == [] && MetadataUpdate(r.flash, 0) == r.flash && 0 < Pow10(DIGITS)
  {
    assert r.flash[METADATA := Decimal(0, DIGITS)] == r.flash;
  }

  lemma {:induction false} ClearAllRefines(r: Registry, a: seq<Entry>, rest: Store)
    requires Represents(r, a, rest)
    ensures Sane(r) && Represents(ClearAll(r), [], rest)
    decreases |a|
  {
    hide Represents, Free, MetadataUpdate, Sane;
    SanityHidden(r, a, rest);
    if a == [] {
      NothingToClear(r, rest);
    } else {
      ClearLast(r, a, rest);
      ClearAllRefines(Free(r, r.table[|a| - 1].info.resource), a[..|a| - 1], rest);
    }
  }

  // Flags in use are not in the files.
  lemma ChangedProper(a: seq<Entry>, k: nat, f: Flags, flash: Store, rest: Store)
    requires Proper(a) && k < |a| < Pow10(DIGITS) && ValidFlags(f) && Stored(flash, a, rest)
    ensures var b := a[k := a[k].(flags := f, dirty := true)];
      Proper(b) && Stored(flash, b, rest)
  {
    hide Ports, StaticText, FlagsText, StaticName, FlagsName, Decimal, Ours, ValidStatic, ValidFlags;
    var b := a[k := a[k].(flags := f, dirty := true)];
    forall i | 0 <= i < |a| ensures ValidEntry(b[i]) { assert ValidEntry(a[i]); }
    forall i: nat | i < |a| ensures Filed(flash, b, i) { assert Filed(flash, a, i); }
  }

  lemma SetFlagsRefines(r: Registry, a: seq<Entry>, rest: Store, name: Byte, f: Flags)
    requires Represents(r, a, rest) && ValidFlags(f)
    ensures Legal(a, DoChange(name, f))
    ensures Represents(SetFlags(r, name, f), SpecStep(a, DoChange(name, f)), rest)
  {
    hide Proper, Stored, Position;
    OrderIsPosition(r, a, name);
    var k := Position(a, name);
    if k < |a| { ChangedProper(a, k, f, r.flash, rest); }
  }

  lemma DumpRefines(r: Registry, a: seq<Entry>, rest: Store, k: nat)
    requires Represents(r, a, rest)
    ensures Sane(r) && Represents(Dump(r, k), SpecStep(a, DoDump(k)), rest)
  {
    hide Ports, StaticText, FlagsText, StaticName, FlagsName, Decimal, Ours;
    Sanity(r, a, rest);
    Names();
    var b := SpecStep(a, DoDump(k));
    forall j: nat | j < |a| ensures Filed(Dump(r, k).flash, b, j) {
      assert Filed(r.flash, a, j);
    }
  }

  lemma {:induction false} FlushRefines(r: Registry, a: seq<Entry>, rest: Store, k: nat)
    requires Represents(r, a, rest) && k <= |a|
    ensures Sane(r) && Represents(Flush(r, k), Kept(a, k, |a|), rest)
    decreases |a| - k
  {
    Sanity(r, a, rest);
    if k == |a| {
      assert Kept(a, k, |a|) == a;
    } else {
      DumpRefines(r, a, rest, k);
      var b := SpecStep(a, DoDump(k));
      assert Kept(b, k + 1, |a|) == Kept(a, k, |a|);
      hide Represents, Dump, Legal, SpecStep, Kept;
      FlushRefines(Dump(r, k), b, rest, k + 1);
    }
  }

  lemma LoadsSaved(f: Store, a: seq<Entry>, rest: Store, k: nat)
    requires AllValid(a) && k < |a| < Pow10(DIGITS) && Stored(f, a, rest)
    ensures Load(f, k) == Machine(a[k].info, a[k].saved)
  {
    hide LoadStatic, LoadFlags, StaticText, FlagsText, StaticName, FlagsName, ValidStatic, ValidFlags;
    assert Filed(f, a, k) && ValidEntry(a[k]);
    SavedStatic(a[k].info);
    SavedFlags(a[k].saved);
  }

  /** Whatever the RAM held, a restart yields the listed machines with the flags last saved. */
  lemma RebootRefines(r: Registry, a: seq<Entry>, rest: Store)
    requires Proper(a) && |a| < Pow10(DIGITS) && Stored(r.flash, a, rest)
    ensures Metadata(r.flash) == |a|
    ensures Represents(Reboot(r), Each(a, Revert), rest)
  {
    hide Load, StaticText, FlagsText, StaticName, FlagsName, Decimal, Ports, Ours, Numeral;
    NumeralOfDecimal(|a|, DIGITS);
    var b := Each(a, Revert);
    forall k: nat | k < |a| ensures Filed(r.flash, b, k) {
      assert Filed(r.flash, a, k);
    }
    forall k | 0 <= k < |a| ensures Reboot(r).table[k] == Held(b[k]) && ValidEntry(b[k]) {
      LoadsSaved(r.flash, a, rest, k);
    }
  }

  // ---------------------------------------------------------------- admission

  lemma OccupiedIsNotFree(r: Registry, a: seq<Entry>, rest: Store, port: Byte)
    requires Represents(r, a, rest)
    ensures Sane(r) && (Occupied(r.table, port) <==> !PortsFree(a, {port}))
  {
    hide Ports;
    Sanity(r, a, rest);
  }

  // What deployment_signals has filled in after i signals.
  predicate Filled(s: Static, q: Request, i: nat)
    requires |q.signals| <= MAX_SIGNALS && i <= |q.signals|
  {
    && s == Static(q.resource, s.resourceSignals, s.retrofitSignals, i, i, Zeros(PROGRAM_BYTES), false)
    && ValidStatic(s)
    && forall j :: 0 <= j < MAX_SIGNALS ==>
         if j < i then q.signals[j].Some?
           && s.resourceSignals[j] == Signal(q.signals[j].value.name, q.signals[j].value.port)
           && s.retrofitSignals[j] == Signal(q.signals[j].value.name, q.signals[j].value.retrofit)
         else s.resourceSignals[j] == Signal(0, 0) && s.retrofitSignals[j] == Signal(0, 0)
  }

  predicate FreeFrom(a: seq<Entry>, q: Request, i: nat)
    requires AllValid(a)
  {
    forall j :: i <= j < |q.signals| ==>
      q.signals[j].Some? && PortsFree(a, {q.signals[j].value.port}) && PortsFree(a, {q.signals[j].value.retrofit})
  }

  lemma {:induction false} SignalsAdmitted(r: Registry, a: seq<Entry>, rest: Store, q: Request, s: Static, i: nat)
    requires Represents(r, a, rest) && |q.signals| <= MAX_SIGNALS && i <= |q.signals| && Filled(s, q, i)
    ensures Sane(r)
    ensures DeploySignals(r.table, s, q.signals, i).Some? <==> FreeFrom(a, q, i)
    ensures DeploySignals(r.table, s, q.signals, i).Some? ==>
      Filled(DeploySignals(r.table, s, q.signals, i).value, q, |q.signals|)
    decreases |q.signals| - i
  {
    hide Ports, Represents, Zeros, Occupied, PortsFree;
    SanityHidden(r, a, rest);
    ProperHidden(r, a, rest);
    if i < |q.signals| && q.signals[i].Some? {
      var x := q.signals[i].value;
      OccupiedIsNotFree(r, a, rest, x.port);
      OccupiedIsNotFree(r, a, rest, x.retrofit);
      if PortsFree(a, {x.port}) && PortsFree(a, {x.retrofit}) {
        var filled := s.(resourceSignals := s.resourceSignals[i := Signal(x.name, x.port)],
                         retrofitSignals := s.retrofitSignals[i := Signal(x.name, x.retrofit)],
                         nofResource := i + 1, nofRetrofit := i + 1);
        SignalsAdmitted(r, a, rest, q, filled, i + 1);
      }
    }
  }

  lemma ProperHidden(r: Registry, a: seq<Entry>, rest: Store)
    requires Represents(r, a, rest)
    ensures AllValid(a) && |a| <= MAX_MACHINES && |r.table| == |a|
  {
  }

  lemma FreeFromIsPortsFree(a: seq<Entry>, q: Request)
    requires AllValid(a) && AllSome(q.signals)
    ensures FreeFrom(a, q, 0) <==> PortsFree(a, Wanted(q))
  {
    hide Ports;
    if PortsFree(a, Wanted(q)) {
      forall j | 0 <= j < |q.signals|
        ensures PortsFree(a, {q.signals[j].value.port}) && PortsFree(a, {q.signals[j].value.retrofit})
      {
        assert q.signals[j].value.port in Wanted(q) && q.signals[j].value.retrofit in Wanted(q);
      }
    }
    if FreeFrom(a, q, 0) {
      forall i | 0 <= i < |a| ensures Ports(a[i].info) !! Wanted(q) {
        forall p | p in Wanted(q) ensures p !in Ports(a[i].info) {
          var j :| 0 <= j < |q.signals| && (q.signals[j].value.port == p || q.signals[j].value.retrofit == p);
          assert PortsFree(a, {q.signals[j].value.port}) && PortsFree(a, {q.signals[j].value.retrofit});
          assert p in {p};
        }
      }
    }
  }

  /** The scan over the registered machines accepts exactly the admissible requests, and fills the machine in
      as requested. */
  lemma CandidateIsAdmissible(r: Registry, a: seq<Entry>, rest: Store, q: Request)
    requires Represents(r, a, rest) && ValidRequest(q)
    ensures Sane(r)
    ensures Candidate(r.table, q).Some? <==> Admissible(a, q)
    ensures Admissible(a, q) ==> Candidate(r.table, q) == Some(Machine(Deployed(q), FRESH_FLAGS))
  {
    hide Ports, PortsFree, DeploySignals, Zeros;
    Sanity(r, a, rest);
    OrderIsPosition(r, a, q.resource);
    assert Named(a, q.resource) <==> Position(a, q.resource) < |a|;
    if !Named(a, q.resource) && |q.signals| <= MAX_SIGNALS {
      var blank := Static(q.resource, BLANK, BLANK, 0, 0, Zeros(PROGRAM_BYTES), false);
      SignalsAdmitted(r, a, rest, q, blank, 0);
      if AllSome(q.signals) {
        FreeFromIsPortsFree(a, q);
        if FreeFrom(a, q, 0) && q.program.Some? {
          var s := DeploySignals(r.table, blank, q.signals, 0).value;
          assert s.(program := q.program.value, flagsChanged := true) == Deployed(q);
        }
      }
    }
  }

  lemma DeployRefines(r: Registry, a: seq<Entry>, rest: Store, q: Request)
    requires Represents(r, a, rest) && ValidRequest(q) && (Admissible(a, q) ==> |a| < MAX_MACHINES)
    ensures Ready(r, DoDeploy(q)) && Represents(Step(r, DoDeploy(q)), SpecStep(a, DoDeploy(q)), rest)
  {
    hide Candidate, Deployed, Ports, PortsFree, Stored, Save, Named;
    Sanity(r, a, rest);
    CandidateIsAdmissible(r, a, rest, q);
    if Admissible(a, q) {
      DeployedNew(q);
      SaveRefines(r, a, rest, Machine(Deployed(q), FRESH_FLAGS));
    }
  }

  lemma DeployedNew(q: Request)
    requires ValidRequest(q) && q.program.Some? && |q.signals| <= MAX_SIGNALS && AllSome(q.signals)
    ensures Deployed(q).resource == q.resource && Deployed(q).flagsChanged
  {
  }

  // ---------------------------------------------------------------- steps and runs

  /** One operation of the code is one operation on the list, and finds all it relies on. */
  lemma StepRefines(r: Registry, a: seq<Entry>, rest: Store, op: Op)
    requires Represents(r, a, rest) && Legal(a, op)
    ensures Ready(r, op) && Represents(Step(r, op), SpecStep(a, op), rest)
  {
    hide Stored, Candidate, Admissible, SetFlags, Dump, Flush, Reboot, Deployed, Free, FreeArchive, Save, Position,
      Held, Load, Ports;
    Sanity(r, a, rest);
    match op {
      case DoDeploy(q) =>
        DeployRefines(r, a, rest, q);
      case DoClear(name) =>
        OrderIsPosition(r, a, name);
        if Position(a, name) < |a| { FreeRefines(r, a, rest, name); }
      case DoClearLast =>
        if a != [] {
          SameName(r, a, rest, |a| - 1);
          LastPosition(a);
          FreeRefines(r, a, rest, a[|a| - 1].info.resource);
        }
      case DoClearAll => ClearAllRefines(r, a, rest);
      case DoChange(name, f) => SetFlagsRefines(r, a, rest, name, f);
      case DoDump(k) => DumpRefines(r, a, rest, k);
      case DoReboot => RebootRefines(r, a, rest);
      case DoUpdate =>
        FlushRefines(r, a, rest, 0);
        var b := Kept(a, 0, |a|);
        RebootRefines(ClearRam(Flush(r, 0)), b, rest);
        assert b == Each(a, Keep);
        assert Metadata(Flush(r, 0).flash) == Metadata(ClearRam(Flush(r, 0)).flash);
    }
  }

  lemma SameName(r: Registry, a: seq<Entry>, rest: Store, k: nat)
    requires Represents(r, a, rest) && k < |a|
    ensures r.table[k].info.resource == a[k].info.resource
  {
  }
}
