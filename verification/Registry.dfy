/** The machine registry (src/machines.c, src/deployment.c): a table of at most 32 machines that deletes by
    moving its last entry, kept in step with numbered flash files. It refines a plain list of machines, each
    with the flags in use and the flags last saved. Every operation is also given as the list of its writes to
    the flash, so that power can be cut between any two of them. */
module Registry {
  import opened Base64
  import opened Pattern
  import opened Flash
  import opened Machine

  const MAX_MACHINES := 32
  const METADATA := "MCHMTD"
  const DIGITS := 3

  // ---------------------------------------------------------------- file names

  function StaticName(k: nat): string
    requires k < Pow10(DIGITS)
  {
    "mch-" + Decimal(k, DIGITS)
  }

  function FlagsName(k: nat): string
    requires k < Pow10(DIGITS)
  {
    "flg-" + Decimal(k, DIGITS)
  }

  predicate Ours(key: string) {
    key == METADATA || (|key| >= 4 && (key[..4] == "mch-" || key[..4] == "flg-"))
  }

  lemma Names()
    ensures Pow10(DIGITS) == 1000
    ensures forall j: nat, k: nat | j < 1000 && k < 1000 ::
      StaticName(j) != FlagsName(k) && (StaticName(j) == StaticName(k) ==> j == k)
      && (FlagsName(j) == FlagsName(k) ==> j == k)
    ensures forall k: nat | k < 1000 :: StaticName(k) != METADATA && FlagsName(k) != METADATA
    ensures forall k: nat | k < 1000 :: Ours(StaticName(k)) && Ours(FlagsName(k))
    ensures Ours(METADATA)
  {
    assert Pow10(3) == 1000 by { assert Pow10(1) == 10; assert Pow10(2) == 100; }
    forall j: nat, k: nat | j < 1000 && k < 1000
      ensures StaticName(j) != FlagsName(k) && (StaticName(j) == StaticName(k) ==> j == k)
      ensures FlagsName(j) == FlagsName(k) ==> j == k
    {
      assert StaticName(j)[0] != FlagsName(k)[0];
      assert StaticName(j)[4..] == Decimal(j, DIGITS) && StaticName(k)[4..] == Decimal(k, DIGITS);
      assert FlagsName(j)[4..] == Decimal(j, DIGITS) && FlagsName(k)[4..] == Decimal(k, DIGITS);
      if Decimal(j, DIGITS) == Decimal(k, DIGITS) { DecimalInjective(j, k, DIGITS); }
    }
    forall k: nat | k < 1000
      ensures StaticName(k) != METADATA && FlagsName(k) != METADATA
      ensures Ours(StaticName(k)) && Ours(FlagsName(k))
    {
      assert |StaticName(k)| == 7 && |FlagsName(k)| == 7;
      assert StaticName(k)[..4] == "mch-" && FlagsName(k)[..4] == "flg-";
    }
  }

  // ---------------------------------------------------------------- the registry as the code keeps it

  datatype Registry = Registry(table: seq<Machine>, flash: Store)

  predicate AllMachines(table: seq<Machine>) {
    forall i :: 0 <= i < |table| ==> ValidMachine(table[i])
  }

  // What every operation relies on: the table is not over-full and its entries are machines.
  predicate Sane(r: Registry) {
    |r.table| <= MAX_MACHINES && AllMachines(r.table)
  }

  // The counter is rewritten only where it already exists.
  function MetadataUpdate(f: Store, n: nat): Store
    requires n < Pow10(DIGITS)
  {
    if METADATA in f then f[METADATA := Decimal(n, DIGITS)] else f
  }

  lemma Small()
    ensures MAX_MACHINES < Pow10(DIGITS)
  {
    Names();
  }

  // machines_save
  function Save(r: Registry, m: Machine): Registry
    requires |r.table| < MAX_MACHINES && ValidMachine(m)
  {
    Small();
    var n := |r.table|;
    var f := r.flash[StaticName(n) := StaticText(m.info)][FlagsName(n) := FlagsText(m.flags)];
    Registry(r.table + [m], MetadataUpdate(f, n + 1))
  }

  // machines_order: the first machine with that name, or the table's length.
  function Order(table: seq<Machine>, name: Byte): (k: nat)
    ensures k <= |table|
    ensures k < |table| ==> table[k].info.resource == name
    ensures forall i :: 0 <= i < k ==> table[i].info.resource != name
  {
    if table == [] || table[0].info.resource == name then 0 else 1 + Order(table[1..], name)
  }

  // machine_free_archive: the files of k go, and those of the last machine move to their place.
  function FreeArchive(f: Store, k: nat, n: nat): Store
    requires k < n <= MAX_MACHINES
  {
    Small();
    if StaticName(k) !in f then f
    else
      var g := Clear(Clear(f, StaticName(k)), FlagsName(k));
      if k == n - 1 then g
      else Rename(Rename(g, StaticName(n - 1), StaticName(k)), FlagsName(n - 1), FlagsName(k))
  }

  function SwapRemove<T>(s: seq<T>, k: nat): seq<T>
    requires k < |s|
  {
    s[k := s[|s| - 1]][..|s| - 1]
  }

  // machines_free of a registered machine
  function Free(r: Registry, name: Byte): Registry
    requires Sane(r) && Order(r.table, name) < |r.table|
  {
    Small();
    var k, n := Order(r.table, name), |r.table|;
    Registry(SwapRemove(r.table, k), MetadataUpdate(FreeArchive(r.flash, k, n), n - 1))
  }

  // machines_clear_all
  function ClearAll(r: Registry): Registry
    requires Sane(r)
    decreases |r.table|
  {
    Small();
    if r.table == [] then r.(flash := MetadataUpdate(r.flash, 0))
    else ClearAll(Free(r, r.table[|r.table| - 1].info.resource))
  }

  // Flag writes followed by machine_update.
  function SetFlags(r: Registry, name: Byte, f: Flags): Registry {
    var k := Order(r.table, name);
    if k == |r.table| then r
    else r.(table := r.table[k := Machine(r.table[k].info.(flagsChanged := true), f)])
  }

  // single_machine_update
  function Dump(r: Registry, k: nat): Registry
    requires Sane(r)
  {
    Small();
    if k < |r.table| && r.table[k].info.flagsChanged then
      Registry(r.table[k := r.table[k].(info := r.table[k].info.(flagsChanged := false))],
               r.flash[FlagsName(k) := FlagsText(r.table[k].flags)])
    else r
  }

  // machines_update_changed
  function Flush(r: Registry, k: nat): Registry
    requires Sane(r) && k <= |r.table|
    decreases |r.table| - k
  {
    if k == |r.table| then r else Flush(Dump(r, k), k + 1)
  }

  // machine_load
  function Load(f: Store, k: nat): Machine
    requires k < Pow10(DIGITS)
  {
    Machine(LoadStatic(TextAt(f, StaticName(k))), LoadFlags(TextAt(f, FlagsName(k))))
  }

  function Metadata(f: Store): nat {
    if METADATA in f then Numeral(f[METADATA]) else 0
  }

  // machines_init and machines_load after a start; nothing but the flash is left.
  function Reboot(r: Registry): Registry
    requires Metadata(r.flash) <= MAX_MACHINES
  {
    Small();
    Registry(seq(Metadata(r.flash), k requires 0 <= k < Metadata(r.flash) => Load(r.flash, k)),
             if METADATA in r.flash then r.flash else r.flash[METADATA := "000"])
  }

  // machines_clear_RAM; the counter in flash is left alone.
  function ClearRam(r: Registry): Registry {
    r.(table := [])
  }

  // ---------------------------------------------------------------- deployment

  // One requested signal: its letter, the port of the resource and the port of the retrofit opposite it.
  datatype SignalRequest = SignalRequest(name: Byte, port: Byte, retrofit: Byte)

  // A deployment message; None is a signal, or a list of sequences, that the field checks refuse.
  datatype Request = Request(resource: Byte, signals: seq<Option<SignalRequest>>, program: Option<seq<Byte>>)

  predicate ValidRequest(q: Request) {
    q.program.Some? ==> |q.program.value| == PROGRAM_BYTES
  }

  // machines_check_port_free, which reports success when the port is taken.
  predicate Occupied(table: seq<Machine>, port: Byte)
    requires AllMachines(table)
  {
    exists i :: 0 <= i < |table| && port in Ports(table[i].info)
  }

  // deployment_signals from signal i on, filling in the candidate.
  function DeploySignals(table: seq<Machine>, s: Static, signals: seq<Option<SignalRequest>>, i: nat): Option<Static>
    requires AllMachines(table)
    requires ValidStatic(s) && i <= |signals| <= MAX_SIGNALS && s.nofResource == s.nofRetrofit == i
    decreases |signals| - i
  {
    if i == |signals| then Some(s)
    else if signals[i].None? then None
    else
      var q := signals[i].value;
      if Occupied(table, q.port) || Occupied(table, q.retrofit) then None
      else
        var filled := s.(resourceSignals := s.resourceSignals[i := Signal(q.name, q.port)],
                         retrofitSignals := s.retrofitSignals[i := Signal(q.name, q.retrofit)],
                         nofResource := i + 1, nofRetrofit := i + 1);
        DeploySignals(table, filled, signals, i + 1)
  }

  const BLANK := [Signal(0, 0), Signal(0, 0)]
  const FRESH_FLAGS := Flags(Disabled, IsIdle, NoControl, SameSequence, "none")

  // deployment_init_cb up to machines_save
  function Candidate(table: seq<Machine>, q: Request): Option<Machine>
    requires AllMachines(table)
    requires ValidRequest(q)
  {
    if Order(table, q.resource) < |table| || |q.signals| > MAX_SIGNALS then None
    else
      var blank := Static(q.resource, BLANK, BLANK, 0, 0, Zeros(PROGRAM_BYTES), false);
      match DeploySignals(table, blank, q.signals, 0)
      case None => None
      case Some(s) =>
        if q.program.None? then None
        else Some(Machine(s.(program := q.program.value, flagsChanged := true), FRESH_FLAGS))
  }

  // ---------------------------------------------------------------- runs

  datatype Op =
    | DoDeploy(request: Request)
    | DoClear(name: Byte)
    | DoClearLast
    | DoClearAll
    | DoChange(name: Byte, flags: Flags)
    | DoDump(k: nat)
    | DoReboot // power lost, without warning
    | DoUpdate // everything flushed, RAM cleared, restarted into the new firmware

  ghost predicate Ready(r: Registry, op: Op) {
    && Sane(r)
    && match op
       case DoDeploy(q) => ValidRequest(q) && (Candidate(r.table, q).Some? ==>
         |r.table| < MAX_MACHINES && ValidMachine(Candidate(r.table, q).value))
       case DoReboot => Metadata(r.flash) <= MAX_MACHINES
       case DoUpdate => Metadata(Flush(r, 0).flash) <= MAX_MACHINES
       case _ => true
  }

  ghost function Step(r: Registry, op: Op): Registry
    requires Ready(r, op)
  {
    match op
    case DoDeploy(q) =>
      var m := Candidate(r.table, q);
      if m.None? then r else Save(r, m.value)
    case DoClear(name) => if Order(r.table, name) == |r.table| then r else Free(r, name)
    case DoClearLast => if r.table == [] then r else Free(r, r.table[|r.table| - 1].info.resource)
    case DoClearAll => ClearAll(r)
    case DoChange(name, f) => SetFlags(r, name, f)
    case DoDump(k) => Dump(r, k)
    case DoReboot => Reboot(r)
    case DoUpdate => Reboot(ClearRam(Flush(r, 0)))
  }

  // ---------------------------------------------------------------- the writes of an operation

  datatype Write = Put(key: string, text: string) | Erase(key: string)

  function Perform(f: Store, w: Write): Store {
    match w
    case Put(key, text) => f[key := text]
    case Erase(key) => Clear(f, key)
  }

  function Apply(f: Store, ws: seq<Write>): Store
    decreases |ws|
  {
    if ws == [] then f else Apply(Perform(f, ws[0]), ws[1..])
  }

  function CountWrites(f: Store, n: nat): seq<Write>
    requires n < Pow10(DIGITS)
  {
    if METADATA in f then [Put(METADATA, Decimal(n, DIGITS))] else []
  }

  function SaveWrites(r: Registry, m: Machine): seq<Write>
    requires |r.table| < MAX_MACHINES && ValidMachine(m)
  {
    Small();
    var n := |r.table|;
    [Put(StaticName(n), StaticText(m.info)), Put(FlagsName(n), FlagsText(m.flags))] + CountWrites(r.flash, n + 1)
  }

  // drv_nvs_rename clears the old file and then sets the new one.
  function MoveWrites(f: Store, from: string, to: string): seq<Write> {
    if from in f then [Erase(from), Put(to, f[from])] else []
  }

  function ArchiveWrites(f: Store, k: nat, n: nat): seq<Write>
    requires k < n <= MAX_MACHINES
  {
    Small();
    if StaticName(k) !in f then []
    else
      [Erase(StaticName(k)), Erase(FlagsName(k))]
      + if k == n - 1 then []
        else MoveWrites(f, StaticName(n - 1), StaticName(k)) + MoveWrites(f, FlagsName(n - 1), FlagsName(k))
  }

  function FreeWrites(r: Registry, name: Byte): seq<Write>
    requires Sane(r) && Order(r.table, name) < |r.table|
  {
    Small();
    ArchiveWrites(r.flash, Order(r.table, name), |r.table|) + CountWrites(r.flash, |r.table| - 1)
  }

  function ClearAllWrites(r: Registry): seq<Write>
    requires Sane(r)
    decreases |r.table|
  {
    Small();
    if r.table == [] then CountWrites(r.flash, 0)
    else
      var name := r.table[|r.table| - 1].info.resource;
      FreeWrites(r, name) + ClearAllWrites(Free(r, name))
  }

  function DumpWrites(r: Registry, k: nat): seq<Write>
    requires Sane(r)
  {
    Small();
    if k < |r.table| && r.table[k].info.flagsChanged then [Put(FlagsName(k), FlagsText(r.table[k].flags))] else []
  }

  function FlushWrites(r: Registry, k: nat): seq<Write>
    requires Sane(r) && k <= |r.table|
    decreases |r.table| - k
  {
    if k == |r.table| then [] else DumpWrites(r, k) + FlushWrites(Dump(r, k), k + 1)
  }

  ghost function Writes(r: Registry, op: Op): seq<Write>
    requires Ready(r, op)
  {
    match op
    case DoDeploy(q) =>
      var m := Candidate(r.table, q);
      if m.None? then [] else SaveWrites(r, m.value)
    case DoClear(name) => if Order(r.table, name) == |r.table| then [] else FreeWrites(r, name)
    case DoClearLast => if r.table == [] then [] else FreeWrites(r, r.table[|r.table| - 1].info.resource)
    case DoClearAll => ClearAllWrites(r)
    case DoChange(_, _) => []
    case DoDump(k) => DumpWrites(r, k)
    case DoReboot => []
    case DoUpdate => FlushWrites(r, 0)
  }

  // An operation, or one during which power is lost after j of its writes.
  datatype Event = Whole(op: Op) | Cut(op: Op, j: nat)

  // The flash the cut leaves.
  ghost function TornFlash(r: Registry, op: Op, j: nat): Store
    requires Ready(r, op) && j <= |Writes(r, op)|
  {
    Apply(r.flash, Writes(r, op)[..j])
  }

  ghost predicate Possible(r: Registry, v: Event) {
    Ready(r, v.op) && (v.Cut? ==> v.j <= |Writes(r, v.op)| && Metadata(TornFlash(r, v.op, v.j)) <= MAX_MACHINES)
  }

  ghost function After(r: Registry, v: Event): Registry
    requires Possible(r, v)
  {
    match v
    case Whole(op) => Step(r, op)
    case Cut(op, j) => Reboot(Registry([], TornFlash(r, op, j)))
  }

  // Every operation of the run finds what it relies on.
  ghost predicate Runs(r: Registry, vs: seq<Event>)
    decreases |vs|
  {
    vs == [] || (Possible(r, vs[0]) && Runs(After(r, vs[0]), vs[1..]))
  }

  ghost function Run(r: Registry, vs: seq<Event>): Registry
    requires Runs(r, vs)
    decreases |vs|
  {
    if vs == [] then r else Run(After(r, vs[0]), vs[1..])
  }

  // ---------------------------------------------------------------- what it should be: a list of machines

  // The machine as its files describe it, its flags in use and as last saved, and whether it is marked dirty.
  datatype Entry = Entry(info: Static, flags: Flags, saved: Flags, dirty: bool)

  // A machine not marked dirty has its flags in flash; its static file, which is written once, says dirty.
  predicate ValidEntry(e: Entry) {
    && ValidStatic(e.info) && ValidFlags(e.flags) && ValidFlags(e.saved)
    && e.info.flagsChanged && (e.dirty || e.saved == e.flags)
  }

  predicate AllValid(a: seq<Entry>) {
    forall i :: 0 <= i < |a| ==> ValidEntry(a[i])
  }

  predicate PortsFree(a: seq<Entry>, ports: set<Byte>)
    requires AllValid(a)
  {
    forall i :: 0 <= i < |a| ==> Ports(a[i].info) !! ports
  }

  // At most 32 machines, no two of one name, no port with two owners.
  predicate Proper(a: seq<Entry>) {
    && |a| <= MAX_MACHINES
    && AllValid(a)
    && (forall i, j :: 0 <= i < j < |a| ==> a[i].info.resource != a[j].info.resource)
    && (forall i, j :: 0 <= i < j < |a| ==> Ports(a[i].info) !! Ports(a[j].info))
  }

  predicate Named(a: seq<Entry>, name: Byte) {
    exists i :: 0 <= i < |a| && a[i].info.resource == name
  }

  predicate AllSome<T>(s: seq<Option<T>>) {
    forall i :: 0 <= i < |s| ==> s[i].Some?
  }

  function Wanted(q: Request): set<Byte>
    requires AllSome(q.signals)
  {
    (set i | 0 <= i < |q.signals| :: q.signals[i].value.port)
    + (set i | 0 <= i < |q.signals| :: q.signals[i].value.retrofit)
  }

  // A deployment is accepted exactly when it is well formed, its name is new and all its ports are free.
  predicate Admissible(a: seq<Entry>, q: Request)
    requires AllValid(a)
  {
    && !Named(a, q.resource) && |q.signals| <= MAX_SIGNALS && AllSome(q.signals) && q.program.Some?
    && PortsFree(a, Wanted(q))
  }

  function Deployed(q: Request): (s: Static)
    requires ValidRequest(q) && q.program.Some?
    requires |q.signals| <= MAX_SIGNALS && AllSome(q.signals)
    ensures ValidStatic(s) && Ports(s) == Wanted(q)
  {
    var n := |q.signals|;
    var s := Static(q.resource,
      seq(MAX_SIGNALS, i requires 0 <= i < MAX_SIGNALS =>
        if i < n then Signal(q.signals[i].value.name, q.signals[i].value.port) else Signal(0, 0)),
      seq(MAX_SIGNALS, i requires 0 <= i < MAX_SIGNALS =>
        if i < n then Signal(q.signals[i].value.name, q.signals[i].value.retrofit) else Signal(0, 0)),
      n, n, q.program.value, true);
    assert Ports(s) <= Wanted(q);
    assert Wanted(q) <= Ports(s) by {
      forall p | p in Wanted(q) ensures p in Ports(s) {
        var i :| 0 <= i < n && (q.signals[i].value.port == p || q.signals[i].value.retrofit == p);
        assert s.resourceSignals[i].port == p || s.retrofitSignals[i].port == p;
      }
    }
    s
  }

  // Where the machine of that name is; the list's length if there is none.
  function Position(a: seq<Entry>, name: Byte): (k: nat)
    ensures k <= |a|
    ensures k < |a| ==> a[k].info.resource == name
    ensures forall i :: 0 <= i < k ==> a[i].info.resource != name
  {
    if a == [] || a[0].info.resource == name then 0 else 1 + Position(a[1..], name)
  }

  function Keep(e: Entry): Entry {
    e.(saved := e.flags, dirty := false)
  }

  function Revert(e: Entry): Entry {
    e.(flags := e.saved, dirty := true)
  }

  function Each(a: seq<Entry>, g: Entry -> Entry): (b: seq<Entry>)
    ensures |b| == |a| && forall i :: 0 <= i < |a| ==> b[i] == g(a[i])
  {
    seq(|a|, i requires 0 <= i < |a| => g(a[i]))
  }

  predicate Legal(a: seq<Entry>, op: Op)
    requires AllValid(a)
  {
    match op
    case DoDeploy(q) => ValidRequest(q) && (Admissible(a, q) ==> |a| < MAX_MACHINES)
    case DoChange(_, f) => ValidFlags(f)
    case _ => true
  }

  function SpecStep(a: seq<Entry>, op: Op): seq<Entry>
    requires AllValid(a) && Legal(a, op)
  {
    match op
    case DoDeploy(q) => if Admissible(a, q) then a + [Entry(Deployed(q), FRESH_FLAGS, FRESH_FLAGS, true)] else a
    case DoClear(name) => if Position(a, name) == |a| then a else SwapRemove(a, Position(a, name))
    case DoClearLast => if a == [] then a else a[..|a| - 1]
    case DoClearAll => []
    case DoChange(name, f) =>
      var k := Position(a, name);
      if k == |a| then a else a[k := a[k].(flags := f, dirty := true)]
    case DoDump(k) => if k < |a| then a[k := Keep(a[k])] else a
    case DoReboot => Each(a, Revert)
    case DoUpdate => Each(Each(a, Keep), Revert)
  }

  // ---------------------------------------------------------------- and when power is cut

  // How many writes an operation makes.
  function Cost(a: seq<Entry>, op: Op): nat
    requires AllValid(a) && Legal(a, op)
  {
    match op
    case DoDeploy(q) => if Admissible(a, q) then 3 else 0
    case DoClear(name) => FreeCost(a, Position(a, name))
    case DoClearLast => if a == [] then 0 else FreeCost(a, |a| - 1)
    case DoClearAll => 3 * |a| + 1
    case DoChange(_, _) => 0
    case DoDump(k) => if k < |a| && a[k].dirty then 1 else 0
    case DoReboot => 0
    case DoUpdate => Dirty(a, 0)
  }

  function FreeCost(a: seq<Entry>, k: nat): nat
    requires k <= |a|
  {
    if k == |a| then 0 else if k == |a| - 1 then 3 else 7
  }

  // The number of dirty machines from k on.
  function Dirty(a: seq<Entry>, k: nat): nat
    requires k <= |a|
    decreases |a| - k
  {
    if k == |a| then 0 else (if a[k].dirty then 1 else 0) + Dirty(a, k + 1)
  }

  // The first j writes of the operation can be all of it that happens.
  predicate Harmless(a: seq<Entry>, op: Op, j: nat)
    requires AllValid(a) && Legal(a, op)
  {
    match op
    case DoClear(_) => j == 0 || j == Cost(a, op)
    case DoClearLast => j == 0 || j == Cost(a, op)
    case DoClearAll => j % 3 == 0 || j == Cost(a, op)
    case _ => true
  }

  // The machines from k up to m dumped.
  function Kept(a: seq<Entry>, k: nat, m: nat): (b: seq<Entry>)
    ensures |b| == |a| && forall i :: 0 <= i < |a| ==> b[i] == if k <= i < m then Keep(a[i]) else a[i]
  {
    seq(|a|, i requires 0 <= i < |a| => if k <= i < m then Keep(a[i]) else a[i])
  }

  // How far the flush of the machines from k on has come after j dumps.
  function Reached(a: seq<Entry>, k: nat, j: nat): (m: nat)
    requires k <= |a|
    ensures k <= m <= |a|
    decreases |a| - k
  {
    if k == |a| then k
    else if !a[k].dirty then Reached(a, k + 1, j)
    else if j == 0 then k
    else Reached(a, k + 1, j - 1)
  }

  // The list whose files the flash holds after j writes.
  function Midway(a: seq<Entry>, op: Op, j: nat): seq<Entry>
    requires AllValid(a) && Legal(a, op) && j <= Cost(a, op)
  {
    match op
    case DoClearAll => a[..|a| - j / 3]
    case DoUpdate => Kept(a, 0, Reached(a, 0, j))
    case DoChange(_, _) => a
    case DoReboot => a
    case _ => if j == Cost(a, op) then SpecStep(a, op) else a
  }

  predicate Permitted(a: seq<Entry>, v: Event) {
    AllValid(a) && Legal(a, v.op) && (v.Cut? ==> v.j <= Cost(a, v.op) && Harmless(a, v.op, v.j))
  }

  function SpecAfter(a: seq<Entry>, v: Event): seq<Entry>
    requires Permitted(a, v)
  {
    match v
    case Whole(op) => SpecStep(a, op)
    case Cut(op, j) => Each(Midway(a, op, j), Revert)
  }

  ghost predicate LegalRun(a: seq<Entry>, vs: seq<Event>)
    decreases |vs|
  {
    vs == [] || (Permitted(a, vs[0]) && LegalRun(SpecAfter(a, vs[0]), vs[1..]))
  }

  ghost function SpecRun(a: seq<Entry>, vs: seq<Event>): seq<Entry>
    requires LegalRun(a, vs)
    decreases |vs|
  {
    if vs == [] then a else SpecRun(SpecAfter(a, vs[0]), vs[1..])
  }

  // ---------------------------------------------------------------- how the two correspond

  // What the table holds of a machine.
  function Held(e: Entry): Machine {
    Machine(e.info.(flagsChanged := e.dirty), e.flags)
  }

  // The files numbered k.
  predicate Filed(f: Store, a: seq<Entry>, k: nat)
    requires AllValid(a) && k < |a| && k < Pow10(DIGITS)
  {
    && At(f, StaticName(k)) == Some(StaticText(a[k].info))
    && At(f, FlagsName(k)) == Some(FlagsText(a[k].saved))
  }

  // The files numbered below the length, the counter, and what else the flash held before.
  ghost predicate Stored(f: Store, a: seq<Entry>, rest: Store)
    requires |a| < Pow10(DIGITS) && AllValid(a)
  {
    && At(f, METADATA) == Some(Decimal(|a|, DIGITS))
    && (forall k: nat | k < |a| :: Filed(f, a, k))
    && (forall key | !Ours(key) :: At(f, key) == At(rest, key))
  }

  ghost predicate Represents(r: Registry, a: seq<Entry>, rest: Store) {
    && Proper(a) && |r.table| == |a|
    && (forall k :: 0 <= k < |a| ==> r.table[k] == Held(a[k]))
    && |a| < Pow10(DIGITS) && Stored(r.flash, a, rest)
  }

  // No files but those the counter counts.
  predicate NoStrays(f: Store, n: nat) {
    forall k: nat | n <= k < Pow10(DIGITS) :: StaticName(k) !in f && FlagsName(k) !in f
  }
}
