/** The functions of src/registration.c on their static tables and the flash, each proved to do exactly what
    module Keys says. */
module KeysTasks {
  import opened Base64
  import opened Pattern
  import opened Flash
  import opened Machine
  import opened Keys
  import KeysProofs

  class KeyTable {
    const current: array<Mark> // current_used_keys
    const last: array<Mark>    // last_used_keys
    const rolled: array<bool>  // rol_status
    var attempts: nat          // rotation_attempts
    var nvs: Store

    ghost predicate Valid()
      reads this, current, last, rolled
    {
      && current.Length == KEYS && last.Length == KEYS && rolled.Length == KEYS && current != last
      && ValidRam(Tables())
    }

    ghost function Tables(): Ram
      reads this, current, last, rolled
    {
      Ram(current[..], last[..], rolled[..], attempts)
    }

    ghost function Value(): KeyState
      reads this, current, last, rolled
    {
      KeyState(Tables(), nvs)
    }

    // initialize_keys_buffers on zeroed tables
    constructor (flash: Store)
      ensures Value() == Boot(flash) && (ValidRam(Boot(flash).ram) ==> Valid())
      ensures fresh(current) && fresh(last) && fresh(rolled)
    {
      hide LoadMarks, MarksText;
      var marks := NoMarks();
      var f := flash;
      if CURRENT_FILE in flash {
        marks := LoadMarks(flash[CURRENT_FILE]);
      } else {
        f := flash[CURRENT_FILE := MarksText(NoMarks())];
      }
      var before := if LAST_FILE in flash then LoadMarks(flash[LAST_FILE]) else NoMarks();
      current := new Mark[KEYS](i requires 0 <= i < KEYS => marks[i]);
      last := new Mark[KEYS](i requires 0 <= i < KEYS => before[i]);
      rolled := new bool[KEYS](_ => false);
      attempts, nvs := 0, f;
      new;
      assert current[..] == marks && last[..] == before;
      assert rolled[..] == seq(KEYS, _ => false);
    }

    method SaveCurrent()
      modifies this`nvs
      ensures nvs == old(nvs)[CURRENT_FILE := MarksText(current[..])]
    {
      nvs := nvs[CURRENT_FILE := MarksText(current[..])];
    }

    method SaveLast()
      modifies this`nvs
      ensures nvs == old(nvs)[LAST_FILE := MarksText(last[..])]
    {
      nvs := nvs[LAST_FILE := MarksText(last[..])];
    }

    method RotateKey(k: nat, value: string)
      requires Valid() && k < KEYS
      modifies this, current, last, rolled
      ensures Valid() && Value() == Step(old(Value()), Rotate(k, value))
    {
      hide MarksText;
      var version := if last[k].version > current[k].version then last[k].version else current[k].version;
      version := (version + 1) % 256;
      last[k] := current[k];
      current[k] := current[k].(version := version);
      var slot := if current[k].slot == 0 then 1 else 0;
      current[k] := current[k].(slot := slot);
      rolled[k] := true;
      ghost var t := Rotated(old(Tables()), k);
      assert current[..] == t.current && last[..] == t.last && rolled[..] == t.rolled;
      ghost var ws := Writes(old(Tables()), Rotate(k, value));
      assert ws[0] == Write(Name(k, slot), value) && ws[1..] == MarkWrites(t);
      KeysProofs.ApplyMarks(nvs[Name(k, slot) := value], t);
      nvs := nvs[Name(k, slot) := value];
      SaveCurrent();
      SaveLast();
    }

    method RollBackKey(k: nat)
      requires Valid() && k < KEYS
      modifies this`nvs, current, last
      ensures Valid() && Tables() == Swapped(old(Tables()), k)
      ensures nvs == Apply(old(nvs), MarkWrites(Tables()))
    {
      hide MarksText;
      var helper := last[k];
      last[k] := current[k];
      current[k] := helper;
      assert current[..] == Swapped(old(Tables()), k).current && last[..] == Swapped(old(Tables()), k).last;
      KeysProofs.ApplyMarks(nvs, Tables());
      SaveCurrent();
      SaveLast();
    }

    // _action_forward_cb
    method ForwardKeys()
      requires Valid()
      modifies this`attempts
      ensures Valid() && Value() == Step(old(Value()), Forward)
    {
      attempts := 0;
      assert Value() == KeyState(Next(old(Tables()), Forward), Apply(old(nvs), []));
    }

    // role_forward_failed
    method ConnectionFailed()
      requires Valid()
      modifies this, current, last
      ensures Valid() && Value() == Step(old(Value()), Failed)
    {
      var rotating := false;
      for k := 0 to KEYS
        invariant rotating <==> exists i :: 0 <= i < k && rolled[i]
      {
        if rolled[k] { rotating := true; }
      }
      assert rotating <==> true in rolled[..];
      if !rotating { return; }
      if attempts < MAX_ATTEMPTS {
        attempts := attempts + 1;
        return;
      }
      RollBackAll();
      attempts := 0;
    }

    method RollBackAll()
      requires Valid()
      modifies this, current, last
      ensures Valid() && attempts == old(attempts)
      ensures Tables() == SwappedFrom(old(Tables()), 0)
      ensures nvs == Apply(old(nvs), SwapWrites(old(Tables()), 0))
    {
      hide Swapped, MarkWrites, ValidMarks;
      var k := 0;
      while k < KEYS
        invariant k <= KEYS && Valid() && attempts == old(attempts)
        invariant SwappedFrom(Tables(), k) == SwappedFrom(old(Tables()), 0)
        invariant Apply(nvs, SwapWrites(Tables(), k)) == Apply(old(nvs), SwapWrites(old(Tables()), 0))
      {
        if rolled[k] {
          ghost var f, s := nvs, Tables();
          RollBackKey(k);
          KeysProofs.ApplyAppend(f, MarkWrites(Tables()), SwapWrites(Tables(), k + 1));
          assert Tables() == Swapped(s, k);
        }
        k := k + 1;
      }
    }
  }
}
