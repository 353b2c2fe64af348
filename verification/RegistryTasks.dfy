/** The functions of src/machines.c on their static table and the flash, each proved to do exactly what the
    specification function of module Registry says. */
module RegistryTasks {
  import opened Base64
  import opened Pattern
  import opened Flash
  import opened Machine
  import opened Registry

  const FAILURE: nat := 255

  class MachineTable {
    const machines: array<Machine> // machines_machines
    var count: nat                 // machines_nof_machines
    var nvs: Store

    ghost predicate Valid()
      reads this, machines
    {
      machines.Length == MAX_MACHINES && count <= MAX_MACHINES && AllMachines(machines[..count])
    }

    ghost function Value(): Registry
      reads this, machines
      requires Valid()
    {
      Registry(machines[..count], nvs)
    }

    constructor (flash: Store)
      ensures Valid() && Value() == Registry([], flash) && fresh(machines)
    {
      machines := new Machine[MAX_MACHINES](_ => Machine(StaticOf(Zeros(STATIC_BYTES)), FRESH_FLAGS));
      count, nvs := 0, flash;
    }

    // machines_order, machines_name_order, machines_machine and machine_check_existance
    method FindName(name: Byte) returns (k: nat)
      requires Valid()
      ensures k == if Order(machines[..count], name) < count then Order(machines[..count], name) else FAILURE
    {
      k := 0;
      while k < count
        invariant k <= count && forall i :: 0 <= i < k ==> machines[i].info.resource != name
      {
        if machines[k].info.resource == name { return; }
        k := k + 1;
      }
      k := FAILURE;
    }

    // One of the two inner loops of machines_check_port_free.
    static method HasPort(signals: seq<Signal>, nof: nat, port: Byte) returns (taken: bool)
      requires nof <= |signals|
      ensures taken <==> exists j :: 0 <= j < nof && signals[j].port == port
    {
      for j := 0 to nof
        invariant forall i :: 0 <= i < j ==> signals[i].port != port
      {
        if signals[j].port == port { return true; }
      }
      return false;
    }

    method CheckPortFree(port: Byte) returns (taken: bool)
      requires Valid()
      ensures taken <==> Occupied(machines[..count], port)
    {
      for k := 0 to count
        invariant forall i :: 0 <= i < k ==> port !in Ports(machines[..count][i].info)
      {
        assert ValidMachine(machines[..count][k]);
        var resource := HasPort(machines[k].info.resourceSignals, machines[k].info.nofResource, port);
        var retrofit := HasPort(machines[k].info.retrofitSignals, machines[k].info.nofRetrofit, port);
        if resource || retrofit {
          assert port in Ports(machines[..count][k].info);
          return true;
        }
      }
      return false;
    }

    method UpdateMetadata()
      requires Valid()
      modifies this`nvs
      ensures count < Pow10(DIGITS) && Value() == old(Value()).(flash := MetadataUpdate(old(nvs), count))
    {
      Small();
      if METADATA in nvs {
        nvs := nvs[METADATA := Decimal(count, DIGITS)];
      }
    }

    method SaveMachine(m: Machine)
      requires Valid() && count < MAX_MACHINES && ValidMachine(m)
      modifies this, machines
      ensures Valid() && Value() == Save(old(Value()), m)
    {
      Small();
      machines[count] := m;
      nvs := nvs[StaticName(count) := StaticText(m.info)];
      nvs := nvs[FlagsName(count) := FlagsText(m.flags)];
      count := count + 1;
      assert machines[..count] == old(machines[..count]) + [m];
      UpdateMetadata();
    }

    method FreeFiles(k: nat)
      requires Valid() && k < count
      modifies this`nvs
      ensures Valid() && Value() == old(Value()).(flash := FreeArchive(old(nvs), k, count))
    {
      Small();
      if StaticName(k) in nvs {
        nvs := Clear(nvs, StaticName(k));
        nvs := Clear(nvs, FlagsName(k));
      } else {
        return;
      }
      if k != count - 1 {
        nvs := Rename(nvs, StaticName(count - 1), StaticName(k));
        nvs := Rename(nvs, FlagsName(count - 1), FlagsName(k));
      }
    }

    method FreeMachine(name: Byte)
      requires Valid() && Order(machines[..count], name) < count
      modifies this, machines
      ensures Valid() && Value() == Free(old(Value()), name)
    {
      Small();
      var k := FindName(name);
      FreeFiles(k);
      machines[k] := machines[count - 1];
      count := count - 1;
      assert machines[..count] == SwapRemove(old(machines[..count]), k);
      UpdateMetadata();
    }

    static lemma FreeCounts(r: Registry, name: Byte)
      requires Sane(r) && Order(r.table, name) < |r.table|
      ensures |Free(r, name).table| == |r.table| - 1
    {
    }

    method ClearEvery()
      requires Valid()
      modifies this, machines
      ensures Valid() && Value() == ClearAll(old(Value()))
    {
      hide Free;
      Small();
      while count > 0
        invariant Valid() && ClearAll(Value()) == ClearAll(old(Value()))
        decreases count
      {
        assert machines[..count][count - 1] == machines[count - 1];
        FreeCounts(Value(), machines[count - 1].info.resource);
        FreeMachine(machines[count - 1].info.resource);
      }
      UpdateMetadata();
    }

    method ChangeFlags(name: Byte, f: Flags)
      requires Valid() && ValidFlags(f)
      modifies this, machines
      ensures Valid() && Value() == SetFlags(old(Value()), name, f)
    {
      var k := FindName(name);
      if k != FAILURE {
        assert machines[..count][k] == machines[k];
        machines[k] := machines[k].(flags := f);
        machines[k] := machines[k].(info := machines[k].info.(flagsChanged := true));
        assert machines[..count] == old(machines[..count])[k := machines[k]];
      }
    }

    method UpdateMachine(k: nat)
      requires Valid() && k < count
      modifies this, machines
      ensures Valid() && Value() == Dump(old(Value()), k)
    {
      Small();
      assert machines[..count][k] == machines[k];
      if machines[k].info.flagsChanged {
        nvs := nvs[FlagsName(k) := FlagsText(machines[k].flags)];
        machines[k] := machines[k].(info := machines[k].info.(flagsChanged := false));
        assert machines[..count] == old(machines[..count])[k := machines[k]];
      }
    }

    static lemma DumpKeepsCount(r: Registry, k: nat)
      requires Sane(r)
      ensures |Dump(r, k).table| == |r.table|
    {
    }

    method UpdateChanged()
      requires Valid()
      modifies this, machines
      ensures Valid() && Value() == Flush(old(Value()), 0)
    {
      hide Dump;
      ghost var n := count;
      var k := 0;
      while k < count
        invariant Valid() && k <= count && count == n && Flush(Value(), k) == Flush(old(Value()), 0)
      {
        DumpKeepsCount(Value(), k);
        UpdateMachine(k);
        k := k + 1;
      }
    }

    method ClearMemory()
      requires Valid()
      modifies this
      ensures Valid() && Value() == ClearRam(old(Value()))
    {
      count := 0;
    }

    // machines_init and machines_load. Reading the files may yield anything, so what is loaded is only known
    // to be machines when the files were written by this table.
    method Start()
      requires machines.Length == MAX_MACHINES && Metadata(nvs) <= MAX_MACHINES
      modifies this, machines
      ensures count <= MAX_MACHINES
      ensures Registry(machines[..count], nvs) == Reboot(Registry(old(machines[..]), old(nvs)))
    {
      hide Load, Numeral, Decimal, Pow10, StaticOf;
      Small();
      if METADATA in nvs {
        count := Numeral(nvs[METADATA]);
      } else {
        nvs := nvs[METADATA := "000"];
        count := 0;
      }
      ghost var n, f := count, nvs;
      var k := 0;
      while k < count
        invariant k <= count <= MAX_MACHINES && count == n && nvs == f
        invariant forall i :: 0 <= i < k ==> machines[i] == Load(nvs, i)
      {
        machines[k] := Load(nvs, k);
        k := k + 1;
      }
      assert machines[..count] == Reboot(Registry(old(machines[..]), old(nvs))).table;
    }

    // ------------------------------------------------------------ deployment.c

    method FillSignals(blank: Static, signals: seq<Option<SignalRequest>>) returns (ok: bool, s: Static)
      requires Valid() && ValidStatic(blank) && blank.nofResource == blank.nofRetrofit == 0
      requires |signals| <= MAX_SIGNALS
      ensures (if ok then Some(s) else None) == DeploySignals(machines[..count], blank, signals, 0)
    {
      s := blank;
      var i := 0;
      while i < |signals|
        invariant i <= |signals| && ValidStatic(s) && s.nofResource == s.nofRetrofit == i
        invariant DeploySignals(machines[..count], s, signals, i)
               == DeploySignals(machines[..count], blank, signals, 0)
      {
        if signals[i].None? { return false, s; }
        var q := signals[i].value;
        var taken := CheckPortFree(q.port);
        if taken { return false, s; }
        s := s.(resourceSignals := s.resourceSignals[i := Signal(q.name, q.port)], nofResource := i + 1);
        taken := CheckPortFree(q.retrofit);
        if taken { return false, s; }
        s := s.(retrofitSignals := s.retrofitSignals[i := Signal(q.name, q.retrofit)], nofRetrofit := i + 1);
        i := i + 1;
      }
      return true, s;
    }

    method Deploy(q: Request) returns (ok: bool)
      requires Valid() && ValidRequest(q) && Ready(Value(), DoDeploy(q))
      modifies this, machines
      ensures Valid() && Value() == Step(old(Value()), DoDeploy(q))
      ensures ok <==> Candidate(old(machines[..count]), q).Some?
    {
      var known := FindName(q.resource);
      if known != FAILURE || |q.signals| > MAX_SIGNALS { return false; }
      var blank := Static(q.resource, BLANK, BLANK, 0, 0, Zeros(PROGRAM_BYTES), false);
      var fits, s := FillSignals(blank, q.signals);
      if !fits || q.program.None? { return false; }
      SaveMachine(Machine(s.(program := q.program.value, flagsChanged := true), FRESH_FLAGS));
      return true;
    }
  }
}
