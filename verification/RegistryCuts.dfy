/** Power cut between any two writes of any operation: exactly when the registry comes back from it. */
module RegistryCuts {
  import opened Base64
  import opened Pattern
  import opened Flash
  import opened Machine
  import opened Registry
  import opened RegistryProofs

  // ---------------------------------------------------------------- writes one after the other

  lemma {:induction false} ApplyAppend(f: Store, xs: seq<Write>, ys: seq<Write>)
    ensures Apply(f, xs + ys) == Apply(Apply(f, xs), ys)
    decreases |xs|
  {
    if xs == [] {
      assert xs + ys == ys;
    } else {
      assert (xs + ys)[1..] == xs[1..] + ys;
      ApplyAppend(Perform(f, xs[0]), xs[1..], ys);
    }
  }

  lemma ApplyNext(f: Store, ws: seq<Write>, j: nat)
    requires j < |ws|
    ensures Apply(f, ws[..j + 1]) == Perform(Apply(f, ws[..j]), ws[j])
  {
    assert ws[..j + 1] == ws[..j] + [ws[j]];
    ApplyAppend(f, ws[..j], [ws[j]]);
    assert Apply(Apply(f, ws[..j]), [ws[j]]) == Apply(Perform(Apply(f, ws[..j]), ws[j]), []);
  }

  lemma ApplyJoin(f: Store, first: seq<Write>, others: seq<Write>, j: nat)
    requires |first| <= j <= |first + others|
    ensures Apply(f, (first + others)[..j]) == Apply(Apply(f, first), others[..j - |first|])
    ensures Apply(f, first + others) == Apply(Apply(f, first), others)
  {
    assert (first + others)[..j] == first + others[..j - |first|];
    ApplyAppend(f, first, others[..j - |first|]);
    ApplyAppend(f, first, others);
  }

  lemma ApplyNone(f: Store)
    ensures Apply(f, []) == f
  {
  }

  // ---------------------------------------------------------------- freeing a machine

  // The files that freeing machine k of n touches.
  function Files(k: nat, n: nat): seq<string>
    requires k < n <= MAX_MACHINES
  {
    Small();
    [StaticName(k), FlagsName(k), StaticName(n - 1), FlagsName(n - 1)]
  }

  function FreeList(a: seq<Entry>, k: nat): seq<Write>
    requires AllValid(a) && k < |a| <= MAX_MACHINES
  {
    Small();
    var n := |a|;
    if k == n - 1 then
      [Erase(StaticName(k)), Erase(FlagsName(k)), Put(METADATA, Decimal(n - 1, DIGITS))]
    else
      [Erase(StaticName(k)), Erase(FlagsName(k)),
       Erase(StaticName(n - 1)), Put(StaticName(k), StaticText(a[n - 1].info)),
       Erase(FlagsName(n - 1)), Put(FlagsName(k), FlagsText(a[n - 1].saved)),
       Put(METADATA, Decimal(n - 1, DIGITS))]
  }

  lemma FreeWritesAre(r: Registry, a: seq<Entry>, rest: Store, name: Byte)
    requires Represents(r, a, rest) && Position(a, name) < |a|
    ensures Sane(r) && Order(r.table, name) == Position(a, name)
    ensures FreeWrites(r, name) == FreeList(a, Position(a, name))
    ensures |FreeList(a, Position(a, name))| == FreeCost(a, Position(a, name))
  {
    hide StaticText, FlagsText, StaticName, FlagsName, Decimal, Ports, Ours, ValidEntry;
    Sanity(r, a, rest);
    OrderIsPosition(r, a, name);
    assert Filed(r.flash, a, Position(a, name)) && Filed(r.flash, a, |a| - 1);
  }

  // What the flash holds after j < Cost writes of it.
  ghost predicate MidFree(g: Store, f: Store, a: seq<Entry>, k: nat, j: nat)
    requires AllValid(a) && k < |a| <= MAX_MACHINES < Pow10(DIGITS)
  {
    var n := |a|;
    && (forall key | key !in Files(k, n) :: At(g, key) == At(f, key))
    && At(g, StaticName(k)) ==
         (if j < 1 then At(f, StaticName(k)) else if j < 4 then None else At(f, StaticName(n - 1)))
    && At(g, FlagsName(k)) ==
         (if j < 2 then At(f, FlagsName(k)) else if j < 6 then None else At(f, FlagsName(n - 1)))
    && (k != n - 1 ==> At(g, StaticName(n - 1)) == if j < 3 then At(f, StaticName(n - 1)) else None)
    && (k != n - 1 ==> At(g, FlagsName(n - 1)) == if j < 5 then At(f, FlagsName(n - 1)) else None)
  }

  lemma {:induction false} FreeMidway(f: Store, a: seq<Entry>, rest: Store, k: nat, j: nat)
    requires AllValid(a) && k < |a| <= MAX_MACHINES < Pow10(DIGITS) && Stored(f, a, rest)
    requires j < |FreeList(a, k)|
    ensures MidFree(Apply(f, FreeList(a, k)[..j]), f, a, k, j)
  {
    hide StaticText, FlagsText, StaticName, FlagsName, Decimal, Ports, Ours, ValidEntry, Apply;
    Names();
    assert Filed(f, a, k) && Filed(f, a, |a| - 1);
    if j == 0 {
      ApplyNone(f);
      assert FreeList(a, k)[..0] == [];
    } else {
      FreeMidway(f, a, rest, k, j - 1);
      ApplyNext(f, FreeList(a, k), j - 1);
    }
  }

  // What a restart makes of entry i when the freeing of machine k was cut after j writes.
  function TornEntry(a: seq<Entry>, k: nat, j: nat, i: nat): Machine
    requires k < |a| && i < |a|
  {
    var last := a[|a| - 1];
    if i == k then
      Machine(if j < 1 then a[k].info else if j < 4 then BlankStatic() else last.info,
              if j < 2 then a[k].saved else if j < 6 then BlankFlags() else last.saved)
    else if i == |a| - 1 then
      Machine(if j < 3 then last.info else BlankStatic(), if j < 5 then last.saved else BlankFlags())
    else Machine(a[i].info, a[i].saved)
  }

  // What is read where there is no file: name 0, no signals, running.
  function BlankStatic(): Static {
    StaticOf(Zeros(STATIC_BYTES))
  }

  function BlankFlags(): Flags {
    FlagsOf(Zeros(FLAGS_BYTES))
  }

  lemma MissingLoadsBlank()
    ensures LoadStatic("") == BlankStatic() && LoadFlags("") == BlankFlags()
    ensures !BlankStatic().flagsChanged
  {
    assert LoadInto("", STATIC_BYTES) == Zeros(STATIC_BYTES);
    assert LoadInto("", FLAGS_BYTES) == Zeros(FLAGS_BYTES);
  }

  // Two stores with the same two files load the same machine.
  lemma LoadsAlike(g: Store, i: nat, text: Option<string>, flags: Option<string>)
    requires i < Pow10(DIGITS) && At(g, StaticName(i)) == text && At(g, FlagsName(i)) == flags
    ensures Load(g, i) == Machine(if text.Some? then LoadStatic(text.value) else BlankStatic(),
                                  if flags.Some? then LoadFlags(flags.value) else BlankFlags())
  {
    hide LoadStatic, LoadFlags, StaticName, FlagsName, StaticOf, FlagsOf;
    MissingLoadsBlank();
  }

  lemma FiledLoads(f: Store, a: seq<Entry>, rest: Store, i: nat)
    requires AllValid(a) && i < |a| < Pow10(DIGITS) && Stored(f, a, rest)
    ensures At(f, StaticName(i)).Some? && LoadStatic(At(f, StaticName(i)).value) == a[i].info
    ensures At(f, FlagsName(i)).Some? && LoadFlags(At(f, FlagsName(i)).value) == a[i].saved
  {
    hide LoadStatic, LoadFlags, StaticText, FlagsText, StaticName, FlagsName, ValidStatic, ValidFlags;
    assert Filed(f, a, i) && ValidEntry(a[i]);
    SavedStatic(a[i].info);
    SavedFlags(a[i].saved);
  }

  lemma MidFreeLoads(g: Store, f: Store, a: seq<Entry>, rest: Store, k: nat, j: nat, i: nat)
    requires AllValid(a) && k < |a| <= MAX_MACHINES < Pow10(DIGITS) && Stored(f, a, rest)
    requires j < |FreeList(a, k)| && MidFree(g, f, a, k, j) && i < |a|
    ensures Load(g, i) == TornEntry(a, k, j, i)
  {
    hide Stored, StaticName, FlagsName, StaticText, FlagsText, Decimal, LoadStatic, LoadFlags, BlankStatic, BlankFlags,
      ValidEntry, Load, At;
    Names();
    FiledLoads(f, a, rest, i);
    FiledLoads(f, a, rest, |a| - 1);
    LoadsAlike(g, i, At(g, StaticName(i)), At(g, FlagsName(i)));
  }

  // All but the last write are those of machine_free_archive.
  lemma ArchiveMidway(f: Store, a: seq<Entry>, rest: Store, k: nat)
    requires AllValid(a) && k < |a| <= MAX_MACHINES < Pow10(DIGITS) && Stored(f, a, rest)
    ensures MidFree(FreeArchive(f, k, |a|), f, a, k, |FreeList(a, k)| - 1)
  {
    hide StaticText, FlagsText, StaticName, FlagsName, Decimal, Ports, Ours, ValidEntry;
    Names();
    assert Filed(f, a, k) && Filed(f, a, |a| - 1);
  }

  lemma MidFreeFixes(g: Store, h: Store, f: Store, a: seq<Entry>, k: nat, j: nat)
    requires AllValid(a) && k < |a| <= MAX_MACHINES < Pow10(DIGITS)
    requires MidFree(g, f, a, k, j) && MidFree(h, f, a, k, j)
    ensures g == h
  {
    hide StaticName, FlagsName, Decimal, ValidEntry;
    forall key ensures At(g, key) == At(h, key) {
      if key !in Files(k, |a|) { assert At(g, key) == At(f, key) == At(h, key); }
    }
    SameStore(g, h);
  }

  // The counter's file is written last.
  lemma FreeDone(r: Registry, a: seq<Entry>, rest: Store, name: Byte)
    requires Represents(r, a, rest) && Position(a, name) < |a|
    ensures Sane(r) && Order(r.table, name) < |r.table|
    ensures Apply(r.flash, FreeWrites(r, name)) == Free(r, name).flash
  {
    hide StaticText, FlagsText, StaticName, FlagsName, Decimal, Ours, ValidEntry, Apply, MidFree, FreeArchive, Ports;
    var k, ws, f := Position(a, name), FreeList(a, Position(a, name)), r.flash;
    Names();
    FreeWritesAre(r, a, rest, name);
    FreeMidway(f, a, rest, k, |ws| - 1);
    ArchiveMidway(f, a, rest, k);
    MidFreeFixes(Apply(f, ws[..|ws| - 1]), FreeArchive(f, k, |a|), f, a, k, |ws| - 1);
    ApplyNext(f, ws, |ws| - 1);
    assert ws[..|ws| - 1 + 1] == ws;
    CounterStays(f, a, k);
  }

  lemma CounterStays(f: Store, a: seq<Entry>, k: nat)
    requires AllValid(a) && k < |a| <= MAX_MACHINES < Pow10(DIGITS) && METADATA in f
    ensures METADATA in FreeArchive(f, k, |a|)
  {
    hide StaticName, FlagsName;
    Names();
  }

  lemma SameStore(f: Store, g: Store)
    requires forall key :: At(f, key) == At(g, key)
    ensures f == g
  {
    forall key ensures key in f <==> key in g { assert At(f, key) == At(g, key); }
    forall key | key in f ensures f[key] == g[key] { assert At(f, key) == At(g, key); }
  }

  /** Power lost while a machine is freed, at every point: after the first write and before the last, the counter
      still counts all machines, and entry k, or the last entry, or both are made up of what is left. */
  lemma TornFree(r: Registry, a: seq<Entry>, rest: Store, name: Byte, j: nat)
    requires Represents(r, a, rest) && Position(a, name) < |a| && j < FreeCost(a, Position(a, name))
    ensures Sane(r) && Order(r.table, name) < |r.table| && j < |FreeWrites(r, name)|
    ensures var f, k := Apply(r.flash, FreeWrites(r, name)[..j]), Position(a, name);
      && |a| < Pow10(DIGITS) && Metadata(f) == |a|
      && forall i :: 0 <= i < |a| ==> Load(f, i) == TornEntry(a, k, j, i)
  {
    hide StaticText, FlagsText, StaticName, FlagsName, Decimal, Ports, Ours, ValidEntry, Apply, Load, Numeral,
      TornEntry;
    var k := Position(a, name);
    Names();
    FreeWritesAre(r, a, rest, name);
    FreeMidway(r.flash, a, rest, k, j);
    NumeralOfDecimal(|a|, DIGITS);
    var f := Apply(r.flash, FreeWrites(r, name)[..j]);
    assert At(f, METADATA) == At(r.flash, METADATA);
    forall i | 0 <= i < |a| ensures Load(f, i) == TornEntry(a, k, j, i) {
      MidFreeLoads(f, r.flash, a, rest, k, j, i);
    }
  }

  // ---------------------------------------------------------------- the other operations

  // A file numbered beyond the machines is not read.
  lemma AddedFile(f: Store, a: seq<Entry>, rest: Store, n: nat, key: string, text: string)
    requires |a| <= n < Pow10(DIGITS) && AllValid(a) && Stored(f, a, rest)
    requires key == StaticName(n) || key == FlagsName(n)
    ensures Stored(f[key := text], a, rest)
  {
    hide StaticText, FlagsText, StaticName, FlagsName, Decimal, Ours;
    Names();
    var g := f[key := text];
    forall k: nat | k < |a| ensures Filed(g, a, k) { assert Filed(f, a, k); }
  }

  /** Power lost while a machine is saved leaves the files of the machines there were. */
  lemma TornSave(r: Registry, a: seq<Entry>, rest: Store, m: Machine, j: nat)
    requires Represents(r, a, rest) && |a| < MAX_MACHINES && ValidMachine(m) && j < 3
    ensures |SaveWrites(r, m)| == 3 && Stored(Apply(r.flash, SaveWrites(r, m)[..j]), a, rest)
    ensures Apply(r.flash, SaveWrites(r, m)) == Save(r, m).flash
  {
    hide StaticText, FlagsText, StaticName, FlagsName, Decimal, Ports, Ours, ValidEntry, Apply;
    Names();
    var ws, n, f := SaveWrites(r, m), |a|, r.flash;
    ApplyNone(f);
    assert ws[..0] == [];
    ApplyNext(f, ws, 0);
    AddedFile(f, a, rest, n, StaticName(n), StaticText(m.info));
    ApplyNext(f, ws, 1);
    AddedFile(Apply(f, ws[..1]), a, rest, n, FlagsName(n), FlagsText(m.flags));
    ApplyNext(f, ws, 2);
    assert ws[..3] == ws;
  }

  lemma PutKnown(f: Store, a: seq<Entry>, rest: Store)
    requires |a| < Pow10(DIGITS) && AllValid(a) && Stored(f, a, rest)
    ensures f[METADATA := Decimal(|a|, DIGITS)] == f
  {
  }

  // What the flash holds after j writes of clearing all machines.
  ghost predicate MidClear(f: Store, a: seq<Entry>, rest: Store, j: nat)
    requires AllValid(a) && j <= 3 * |a| + 1 && |a| < Pow10(DIGITS)
  {
    var m := |a| - j / 3;
    if j % 3 == 0 || j == 3 * |a| + 1 then Stored(f, a[..m], rest)
    else Metadata(f) == m && forall i :: 0 <= i < m ==> Load(f, i) == TornEntry(a[..m], m - 1, j % 3, i)
  }

  lemma {:induction false} TornClearAll(r: Registry, a: seq<Entry>, rest: Store, j: nat)
    requires Represents(r, a, rest) && j <= 3 * |a| + 1
    ensures Sane(r) && |ClearAllWrites(r)| == 3 * |a| + 1
    ensures MidClear(Apply(r.flash, ClearAllWrites(r)[..j]), a, rest, j)
    ensures Apply(r.flash, ClearAllWrites(r)) == ClearAll(r).flash
    decreases |a|
  {
    hide Represents, Free, FreeWrites, Sane, Stored, Load, TornEntry, Apply, StaticText, FlagsText, Decimal, Ours,
      Ports;
    SanityHidden(r, a, rest);
    ProperHidden(r, a, rest);
    if a == [] {
      TornClearNone(r, rest, j);
    } else {
      var name := r.table[|a| - 1].info.resource;
      ClearLast(r, a, rest);
      LastFree(r, a, rest);
      SanityHidden(Free(r, name), a[..|a| - 1], rest);
      var first, others := FreeWrites(r, name), ClearAllWrites(Free(r, name));
      TornClearAll(Free(r, name), a[..|a| - 1], rest, if j < 3 then 0 else j - 3);
      ApplyAppend(r.flash, first, others);
      if j < 3 {
        assert (first + others)[..j] == first[..j];
        TornClearFirst(r, a, rest, j);
      } else {
        ApplyJoin(r.flash, first, others, j);
        MidClearShift(Apply(r.flash, (first + others)[..j]), a, rest, j);
      }
    }
  }

  lemma MidClearShift(f: Store, a: seq<Entry>, rest: Store, j: nat)
    requires AllValid(a) && 3 <= j <= 3 * |a| + 1 && 0 < |a| < Pow10(DIGITS)
    requires MidClear(f, a[..|a| - 1], rest, j - 3)
    ensures MidClear(f, a, rest, j)
  {
    hide Stored, Load, TornEntry;
    assert a[..|a| - 1][..|a| - j / 3] == a[..|a| - j / 3];
  }

  lemma TornClearFirst(r: Registry, a: seq<Entry>, rest: Store, j: nat)
    requires Represents(r, a, rest) && a != [] && j < 3
    ensures var name := r.table[|a| - 1].info.resource;
      Sane(r) && Order(r.table, name) < |r.table| && j <= |FreeWrites(r, name)|
      && MidClear(Apply(r.flash, FreeWrites(r, name)[..j]), a, rest, j)
  {
    hide Free, FreeWrites, Sane, Stored, Load, TornEntry, Apply, Ports;
    LastFree(r, a, rest);
    var name := r.table[|a| - 1].info.resource;
    assert a[..|a|] == a;
    if j == 0 {
      assert FreeWrites(r, name)[..0] == [];
      ApplyNone(r.flash);
    } else {
      TornFree(r, a, rest, name, j);
    }
  }

  lemma TornClearNone(r: Registry, rest: Store, j: nat)
    requires Represents(r, [], rest) && j <= 1
    ensures Sane(r) && |ClearAllWrites(r)| == 1
    ensures MidClear(Apply(r.flash, ClearAllWrites(r)[..j]), [], rest, j)
    ensures Apply(r.flash, ClearAllWrites(r)) == ClearAll(r).flash
  {
    hide Decimal, Ours;
    PutKnown(r.flash, [], rest);
    var ws := ClearAllWrites(r);
    assert ws[..0] == [] && ws[..1] == ws;
    ApplyNone(r.flash);
    ApplyNext(r.flash, ws, 0);
  }

  // Freeing the last machine takes three writes.
  lemma LastFree(r: Registry, a: seq<Entry>, rest: Store)
    requires Represents(r, a, rest) && a != []
    ensures var name := r.table[|a| - 1].info.resource;
      && Position(a, name) == |a| - 1 && Sane(r) && Order(r.table, name) == |a| - 1 < |r.table|
      && |FreeWrites(r, name)| == 3 && Apply(r.flash, FreeWrites(r, name)) == Free(r, name).flash
  {
    hide Free, FreeWrites, FreeList, Sane, Stored, Apply, Ports;
    LastPosition(a);
    FreeWritesAre(r, a, rest, a[|a| - 1].info.resource);
    FreeDone(r, a, rest, a[|a| - 1].info.resource);
  }

  lemma TornDump(r: Registry, a: seq<Entry>, rest: Store, k: nat)
    requires Represents(r, a, rest)
    ensures Sane(r) && |DumpWrites(r, k)| == Cost(a, DoDump(k))
    ensures Apply(r.flash, DumpWrites(r, k)) == Dump(r, k).flash
  {
    hide Stored, StaticText, FlagsText, StaticName, FlagsName, Decimal, Ports;
    Sanity(r, a, rest);
    ApplyNone(r.flash);
    if DumpWrites(r, k) != [] {
      ApplyNext(r.flash, DumpWrites(r, k), 0);
      assert DumpWrites(r, k)[..0] == [] && DumpWrites(r, k)[..1] == DumpWrites(r, k);
    }
  }

  // How far a flush comes depends only on the marks it finds.
  lemma {:induction false} ReachedAlike(a: seq<Entry>, b: seq<Entry>, k: nat, j: nat)
    requires |a| == |b| && k <= |a| && forall i :: k <= i < |a| ==> a[i] == b[i]
    ensures Reached(a, k, j) == Reached(b, k, j) && Dirty(a, k) == Dirty(b, k)
    decreases |a| - k
  {
    if k < |a| { ReachedAlike(a, b, k + 1, if a[k].dirty && j > 0 then j - 1 else j); }
  }

  lemma FlushUnfolds(r: Registry, k: nat)
    requires Sane(r) && k < |r.table| && Sane(Dump(r, k)) && |Dump(r, k).table| == |r.table|
    ensures Flush(r, k) == Flush(Dump(r, k), k + 1)
    ensures FlushWrites(r, k) == DumpWrites(r, k) + FlushWrites(Dump(r, k), k + 1)
  {
    hide Dump, DumpWrites;
  }

  lemma {:induction false} TornFlush(r: Registry, a: seq<Entry>, rest: Store, k: nat, j: nat)
    requires Represents(r, a, rest) && k <= |a| && j <= Dirty(a, k)
    ensures Sane(r) && |FlushWrites(r, k)| == Dirty(a, k)
    ensures var b := Kept(a, k, Reached(a, k, j));
      |b| < Pow10(DIGITS) && AllValid(b) && Stored(Apply(r.flash, FlushWrites(r, k)[..j]), b, rest)
    ensures Apply(r.flash, FlushWrites(r, k)) == Flush(r, k).flash
    decreases |a| - k
  {
    hide Represents, Stored, Dump, DumpWrites, Apply, Sane, SpecStep, Kept, Keep, AllValid, Flush, FlushWrites, Dirty,
      Reached, Cost;
    if k == |a| {
      FlushEnds(r, a, rest);
    } else {
      DumpedAt(a, k, r, rest);
      TornDump(r, a, rest, k);
      var s, b := Dump(r, k), SpecStep(a, DoDump(k));
      var first, others := DumpWrites(r, k), FlushWrites(s, k + 1);
      FlushUnfolds(r, k);
      var jj := if j == 0 then 0 else j - |first|;
      KeptShift(a, b, k, jj);
      TornFlush(s, b, rest, k + 1, jj);
      if j < |first| {
        FlushStarts(r, a, rest, k);
        ApplyJoin(r.flash, first, others, |first|);
      } else {
        ApplyJoin(r.flash, first, others, j);
      }
    }
  }

  lemma FlushEnds(r: Registry, a: seq<Entry>, rest: Store)
    requires Represents(r, a, rest)
    ensures Sane(r) && |r.table| == |a| < Pow10(DIGITS) && AllValid(a) && Dirty(a, |a|) == 0
    ensures Kept(a, |a|, Reached(a, |a|, 0)) == a
    ensures FlushWrites(r, |a|) == [] && Stored(Apply(r.flash, []), a, rest)
    ensures Apply(r.flash, []) == Flush(r, |a|).flash
  {
    hide Stored;
    SanityHidden(r, a, rest);
  }

  lemma FlushStarts(r: Registry, a: seq<Entry>, rest: Store, k: nat)
    requires Represents(r, a, rest) && k < |a| && a[k].dirty
    ensures Sane(r) && AllValid(a) && |a| < Pow10(DIGITS) && Kept(a, k, Reached(a, k, 0)) == a
    ensures |r.table| == |a| && Stored(Apply(r.flash, FlushWrites(r, k)[..0]), a, rest)
  {
    hide Stored;
    SanityHidden(r, a, rest);
  }

  // Going on with the flush after machine k.
  lemma KeptShift(a: seq<Entry>, b: seq<Entry>, k: nat, j: nat)
    requires k < |a| && b == a[k := Keep(a[k])] && (!a[k].dirty ==> b == a)
    ensures var d := if a[k].dirty then 1 else 0;
      && Dirty(a, k) == d + Dirty(b, k + 1) && Reached(a, k, d + j) == Reached(b, k + 1, j)
      && Kept(b, k + 1, Reached(b, k + 1, j)) == Kept(a, k, Reached(a, k, d + j))
  {
    ReachedAlike(a, b, k + 1, j);
  }

  lemma DumpedAt(a: seq<Entry>, k: nat, r: Registry, rest: Store)
    requires Represents(r, a, rest) && k < |a|
    ensures AllValid(a) && |r.table| == |a|
    ensures var b := SpecStep(a, DoDump(k));
      && b == a[k := Keep(a[k])] && (!a[k].dirty ==> b == a)
      && Cost(a, DoDump(k)) == (if a[k].dirty then 1 else 0)
      && Sane(r) && Represents(Dump(r, k), b, rest) && Sane(Dump(r, k)) && |Dump(r, k).table| == |b| == |a|
  {
    hide Stored, Dump;
    assert ValidEntry(a[k]);
    DumpRefines(r, a, rest, k);
    SanityHidden(Dump(r, k), SpecStep(a, DoDump(k)), rest);
  }

  lemma StoredHidden(r: Registry, a: seq<Entry>, rest: Store)
    requires Represents(r, a, rest)
    ensures |a| < Pow10(DIGITS) && AllValid(a) && Stored(r.flash, a, rest) && Proper(a)
  {
  }

  // ---------------------------------------------------------------- every cut of every operation

  lemma KeptProper(a: seq<Entry>, k: nat, m: nat)
    requires Proper(a)
    ensures Proper(Kept(a, k, m))
  {
    hide Ports, ValidStatic, ValidFlags;
    var b := Kept(a, k, m);
    forall i | 0 <= i < |a| ensures ValidEntry(b[i]) && b[i].info == a[i].info { assert ValidEntry(a[i]); }
  }

  lemma PrefixProper(a: seq<Entry>, m: nat)
    requires Proper(a) && m <= |a|
    ensures Proper(a[..m])
  {
    hide Ports, ValidStatic, ValidFlags;
  }

  // What a cut leaves in flash: the files of a list, or a file missing that the counter counts.
  ghost predicate Leaves(f: Store, b: seq<Entry>, rest: Store, harmless: bool) {
    if harmless then Proper(b) && |b| < Pow10(DIGITS) && Stored(f, b, rest)
    else Metadata(f) <= MAX_MACHINES < Pow10(DIGITS) && exists i :: 0 <= i < Metadata(f) && Invented(f, i)
  }

  predicate Invented(f: Store, i: nat)
    requires i < Pow10(DIGITS)
  {
    Load(f, i).info == BlankStatic()
  }

  lemma FreeLeaves(r: Registry, a: seq<Entry>, rest: Store, name: Byte, j: nat)
    requires Represents(r, a, rest) && Position(a, name) < |a| && j <= FreeCost(a, Position(a, name))
    ensures Sane(r) && Order(r.table, name) < |r.table|
    ensures var k, ws := Position(a, name), FreeWrites(r, name);
      && |ws| == FreeCost(a, k) && Apply(r.flash, ws) == Free(r, name).flash
      && Leaves(Apply(r.flash, ws[..j]), if j == 0 then a else SwapRemove(a, k), rest, j == 0 || j == |ws|)
  {
    hide Stored, Free, FreeWrites, FreeList, Apply, Load, Proper, BlankStatic, BlankFlags, TornEntry, Sane;
    FreeWritesAre(r, a, rest, name);
    FreeDone(r, a, rest, name);
    var k, ws := Position(a, name), FreeWrites(r, name);
    if j == 0 {
      ApplyNone(r.flash);
      assert ws[..0] == [];
    } else if j == |ws| {
      FreeRefines(r, a, rest, name);
      assert ws[..j] == ws;
    } else {
      TornFree(r, a, rest, name, j);
      Small();
      ProperHidden(r, a, rest);
      TornIsInvented(a, k, j);
      assert Invented(Apply(r.flash, ws[..j]), if j < 4 then k else |a| - 1);
    }
  }

  lemma ClearAllLeaves(r: Registry, a: seq<Entry>, rest: Store, j: nat)
    requires Represents(r, a, rest) && j <= 3 * |a| + 1
    ensures Sane(r) && |ClearAllWrites(r)| == 3 * |a| + 1
    ensures Leaves(Apply(r.flash, ClearAllWrites(r)[..j]), a[..|a| - j / 3], rest, j % 3 == 0 || j == 3 * |a| + 1)
  {
    hide Stored, Apply, Load, Proper, BlankStatic, BlankFlags, ClearAllWrites;
    TornClearAll(r, a, rest, j);
    Small();
    ProperHidden(r, a, rest);
    assert Proper(a[..|a| - j / 3]) by { StoredHidden(r, a, rest); PrefixProper(a, |a| - j / 3); }
    if j % 3 != 0 && j != 3 * |a| + 1 {
      var f, m := Apply(r.flash, ClearAllWrites(r)[..j]), |a| - j / 3;
      assert Invented(f, m - 1) by { TornIsInvented(a[..m], m - 1, j % 3); }
    }
  }

  lemma TornIsInvented(a: seq<Entry>, k: nat, j: nat)
    requires k < |a| && 0 < j < FreeCost(a, k)
    ensures TornEntry(a, k, j, if j < 4 then k else |a| - 1).info == BlankStatic()
  {
    hide BlankStatic, BlankFlags;
  }

  // What the first j writes of an operation, or all of them, leave.
  ghost predicate Outcome(r: Registry, a: seq<Entry>, rest: Store, op: Op, j: nat)
    requires AllValid(a) && Legal(a, op) && j <= Cost(a, op)
  {
    && Ready(r, op) && |Writes(r, op)| == Cost(a, op)
    && Leaves(TornFlash(r, op, j), Midway(a, op, j), rest, Harmless(a, op, j))
    && (j == Cost(a, op) ==> TornFlash(r, op, j) == Step(r, op).flash)
  }

  lemma DeployLeaves(r: Registry, a: seq<Entry>, rest: Store, q: Request, j: nat)
    requires Represents(r, a, rest) && Legal(a, DoDeploy(q)) && j <= Cost(a, DoDeploy(q))
    ensures Outcome(r, a, rest, DoDeploy(q), j)
  {
    hide Stored, Candidate, PortsFree, Deployed, Save, Ports, SaveWrites, Apply, Proper, Named;
    CandidateIsAdmissible(r, a, rest, q);
    StoredHidden(r, a, rest);
    DeployRefines(r, a, rest, q);
    ApplyNone(r.flash);
    if Admissible(a, q) {
      var m := Machine(Deployed(q), FRESH_FLAGS);
      TornSave(r, a, rest, m, if j < 3 then j else 0);
      assert SaveWrites(r, m)[..3] == SaveWrites(r, m);
    } else {
      assert Writes(r, DoDeploy(q))[..0] == [];
    }
  }

  lemma ClearLeaves(r: Registry, a: seq<Entry>, rest: Store, name: Byte, j: nat)
    requires Represents(r, a, rest) && Legal(a, DoClear(name)) && j <= Cost(a, DoClear(name))
    ensures Outcome(r, a, rest, DoClear(name), j)
  {
    hide Stored, Free, FreeWrites, Apply, Proper, Position, Ports, SwapRemove;
    Sanity(r, a, rest);
    OrderIsPosition(r, a, name);
    StoredHidden(r, a, rest);
    var ws := Writes(r, DoClear(name));
    if Position(a, name) < |a| {
      FreeLeaves(r, a, rest, name, j);
      assert ws[..|ws|] == ws;
    } else {
      assert ws[..0] == [];
      ApplyNone(r.flash);
    }
  }

  lemma ClearLastLeaves(r: Registry, a: seq<Entry>, rest: Store, j: nat)
    requires Represents(r, a, rest) && Legal(a, DoClearLast) && j <= Cost(a, DoClearLast)
    ensures Outcome(r, a, rest, DoClearLast, j)
  {
    hide Stored, Free, FreeWrites, Apply, Proper, Position, Ports, Represents, Sane;
    SanityHidden(r, a, rest);
    ProperHidden(r, a, rest);
    StoredHidden(r, a, rest);
    var ws := Writes(r, DoClearLast);
    if a != [] {
      SameName(r, a, rest, |a| - 1);
      LastOfProper(r, a, rest);
      FreeLeaves(r, a, rest, a[|a| - 1].info.resource, j);
      assert ws[..|ws|] == ws;
    } else {
      assert ws[..0] == [];
      ApplyNone(r.flash);
    }
  }

  lemma LastOfProper(r: Registry, a: seq<Entry>, rest: Store)
    requires Represents(r, a, rest) && a != []
    ensures Position(a, a[|a| - 1].info.resource) == |a| - 1 && SwapRemove(a, |a| - 1) == a[..|a| - 1]
  {
    hide Stored;
    LastPosition(a);
  }

  lemma ClearEachLeaves(r: Registry, a: seq<Entry>, rest: Store, j: nat)
    requires Represents(r, a, rest) && Legal(a, DoClearAll) && j <= Cost(a, DoClearAll)
    ensures Outcome(r, a, rest, DoClearAll, j)
  {
    hide Stored, ClearAll, ClearAllWrites, Apply, Proper;
    TornClearAll(r, a, rest, j);
    ClearAllLeaves(r, a, rest, j);
    assert ClearAllWrites(r)[..3 * |a| + 1] == ClearAllWrites(r);
  }

  lemma DumpLeaves(r: Registry, a: seq<Entry>, rest: Store, k: nat, j: nat)
    requires Represents(r, a, rest) && Legal(a, DoDump(k)) && j <= Cost(a, DoDump(k))
    ensures Outcome(r, a, rest, DoDump(k), j)
  {
    hide Stored, Dump, DumpWrites, Apply, Proper, SpecStep;
    DumpRefines(r, a, rest, k);
    TornDump(r, a, rest, k);
    StoredHidden(r, a, rest);
    StoredHidden(Dump(r, k), SpecStep(a, DoDump(k)), rest);
    var ws := DumpWrites(r, k);
    ApplyNone(r.flash);
    assert ws[..0] == [] && ws[..|ws|] == ws;
  }

  // Operations that write nothing.
  lemma QuietLeaves(r: Registry, a: seq<Entry>, rest: Store, op: Op, j: nat)
    requires Represents(r, a, rest) && Legal(a, op) && j <= Cost(a, op) && (op.DoReboot? || op.DoChange?)
    ensures Outcome(r, a, rest, op, j)
  {
    hide Stored, Proper, Load;
    StepRefines(r, a, rest, op);
    StoredHidden(r, a, rest);
    Sanity(r, a, rest);
    ApplyNone(r.flash);
    assert Writes(r, op)[..0] == [];
  }

  lemma UpdateLeaves(r: Registry, a: seq<Entry>, rest: Store, j: nat)
    requires Represents(r, a, rest) && Legal(a, DoUpdate) && j <= Cost(a, DoUpdate)
    ensures Outcome(r, a, rest, DoUpdate, j)
  {
    hide Stored, Proper, Load, Flush, FlushWrites, Apply, Kept;
    StepRefines(r, a, rest, DoUpdate);
    StoredHidden(r, a, rest);
    TornFlush(r, a, rest, 0, j);
    KeptProper(a, 0, Reached(a, 0, j));
    FlushRefines(r, a, rest, 0);
    Sanity(Flush(r, 0), Kept(a, 0, |a|), rest);
    assert FlushWrites(r, 0)[..|FlushWrites(r, 0)|] == FlushWrites(r, 0);
  }

  lemma StepLeaves(r: Registry, a: seq<Entry>, rest: Store, op: Op, j: nat)
    requires Represents(r, a, rest) && Legal(a, op) && j <= Cost(a, op)
    ensures Outcome(r, a, rest, op, j)
  {
    hide Outcome, Represents;
    match op
    case DoDeploy(q) => DeployLeaves(r, a, rest, q, j);
    case DoClear(name) => ClearLeaves(r, a, rest, name, j);
    case DoClearLast => ClearLastLeaves(r, a, rest, j);
    case DoClearAll => ClearEachLeaves(r, a, rest, j);
    case DoDump(k) => DumpLeaves(r, a, rest, k, j);
    case DoUpdate => UpdateLeaves(r, a, rest, j);
    case _ => QuietLeaves(r, a, rest, op, j);
  }

  // ---------------------------------------------------------------- main results

  // What a restart makes of the files of some list of machines.
  ghost predicate Genuine(t: seq<Machine>) {
    exists b: seq<Entry> :: AllValid(b) && |b| == |t| && forall i :: 0 <= i < |t| ==> t[i] == Held(Revert(b[i]))
  }

  lemma InventedIsNot(f: Store, i: nat)
    requires i < Metadata(f) <= MAX_MACHINES < Pow10(DIGITS) && Invented(f, i)
    ensures !Genuine(Reboot(Registry([], f)).table)
  {
    hide Load, BlankStatic, LoadStatic, LoadFlags;
    MissingLoadsBlank();
    assert Reboot(Registry([], f)).table[i] == Load(f, i);
  }

  lemma RestoredIsGenuine(r: Registry, a: seq<Entry>, rest: Store)
    requires Represents(r, Each(a, Revert), rest) && AllValid(a)
    ensures Genuine(r.table)
  {
    hide Stored, Proper;
  }

  /** Power cut after any number of writes of any operation: what the restart loads is a list of machines at all if
      and only if the cut is harmless, that is unless it falls inside the freeing of a machine; and then it is the
      list before the operation or after it, or before it with as many machines cleared, or dumped, as the writes
      had come to, each with the flags last saved. */
  lemma CutHarmlessIff(r: Registry, a: seq<Entry>, rest: Store, op: Op, j: nat)
    requires Represents(r, a, rest) && Legal(a, op)
    ensures Ready(r, op) && |Writes(r, op)| == Cost(a, op)
    ensures j <= Cost(a, op) ==>
      (&& Possible(r, Cut(op, j))
       && (Genuine(After(r, Cut(op, j)).table) <==> Harmless(a, op, j))
       && (Harmless(a, op, j) ==> Represents(After(r, Cut(op, j)), SpecAfter(a, Cut(op, j)), rest)))
  {
    hide Stored, Proper, Writes, TornFlash, Step, Ready, Represents, Invented, Genuine, Reboot, SpecStep, Apply,
      Metadata;
    ProperHidden(r, a, rest);
    StepLeaves(r, a, rest, op, 0);
    if j <= Cost(a, op) {
      StepLeaves(r, a, rest, op, j);
      var f, b := TornFlash(r, op, j), Midway(a, op, j);
      if Harmless(a, op, j) {
        ProperValid(b);
        RebootRefines(Registry([], f), b, rest);
        RestoredIsGenuine(Reboot(Registry([], f)), b, rest);
      } else {
        var i :| 0 <= i < Metadata(f) && Invented(f, i);
        InventedIsNot(f, i);
      }
    }
  }

  lemma ProperValid(a: seq<Entry>)
    requires Proper(a)
    ensures AllValid(a) && |a| <= MAX_MACHINES
  {
  }

  /** All its writes make the operation's flash, in RAM and in flash the same as without the cut. */
  lemma WritesMakeStep(r: Registry, a: seq<Entry>, rest: Store, op: Op)
    requires Represents(r, a, rest) && Legal(a, op)
    ensures Ready(r, op) && Apply(r.flash, Writes(r, op)) == Step(r, op).flash
  {
    hide Represents, Leaves, Writes, Step, Ready, Apply, SpecStep;
    ProperHidden(r, a, rest);
    StepLeaves(r, a, rest, op, Cost(a, op));
    assert Writes(r, op)[..|Writes(r, op)|] == Writes(r, op);
  }

  /** Over every run of deployments, clears, flag changes, dumps, restarts and updates, and of power cuts at any
      harmless point inside any of them, the table and the numbered files stay in step with the list of machines;
      nothing else in flash is touched. */
  lemma {:induction false} RegistryRefinesList(r: Registry, a: seq<Entry>, rest: Store, vs: seq<Event>)
    requires Represents(r, a, rest) && LegalRun(a, vs)
    ensures Runs(r, vs) && Represents(Run(r, vs), SpecRun(a, vs), rest)
    decreases |vs|
  {
    hide Represents, Possible, After, Permitted, SpecAfter;
    if vs != [] {
      EventRefines(r, a, rest, vs[0]);
      RegistryRefinesList(After(r, vs[0]), SpecAfter(a, vs[0]), rest, vs[1..]);
    }
  }

  lemma EventRefines(r: Registry, a: seq<Entry>, rest: Store, v: Event)
    requires Represents(r, a, rest) && Permitted(a, v)
    ensures Possible(r, v) && Represents(After(r, v), SpecAfter(a, v), rest)
  {
    hide Represents, Ready, Step, Legal, SpecStep, Writes, Midway, Cost, Harmless, TornFlash, Reboot, Metadata, Genuine;
    match v
    case Whole(op) => StepRefines(r, a, rest, op);
    case Cut(op, j) => CutHarmlessIff(r, a, rest, op, j);
  }

  // ---------------------------------------------------------------- files left behind

  lemma FreeNoStrays(r: Registry, a: seq<Entry>, rest: Store, name: Byte)
    requires Represents(r, a, rest) && Position(a, name) < |a| && NoStrays(r.flash, |a|)
    ensures Sane(r) && Order(r.table, name) < |r.table| && NoStrays(Free(r, name).flash, |a| - 1)
  {
    hide StaticName, FlagsName, Ports, ValidEntry, FreeArchive, Decimal;
    Sanity(r, a, rest);
    Names();
    OrderIsPosition(r, a, name);
    ArchiveNoStrays(r.flash, a, rest, Position(a, name));
  }

  lemma ArchiveNoStrays(f: Store, a: seq<Entry>, rest: Store, k: nat)
    requires AllValid(a) && k < |a| <= MAX_MACHINES < Pow10(DIGITS) && Stored(f, a, rest) && NoStrays(f, |a|)
    ensures NoStrays(FreeArchive(f, k, |a|), |a| - 1)
  {
    hide StaticText, FlagsText, StaticName, FlagsName, Decimal, Ours, ValidEntry;
    Names();
    assert Filed(f, a, k) && Filed(f, a, |a| - 1);
  }

  lemma {:induction false} ClearAllNoStrays(r: Registry, a: seq<Entry>, rest: Store)
    requires Represents(r, a, rest) && NoStrays(r.flash, |a|)
    ensures Sane(r) && NoStrays(ClearAll(r).flash, 0)
    decreases |a|
  {
    hide Represents, Free, MetadataUpdate, Sane, NoStrays;
    SanityHidden(r, a, rest);
    ProperHidden(r, a, rest);
    if a == [] {
      NothingToClear(r, rest);
    } else {
      LastFree(r, a, rest);
      FreeNoStrays(r, a, rest, r.table[|a| - 1].info.resource);
      ClearLast(r, a, rest);
      ClearAllNoStrays(Free(r, r.table[|a| - 1].info.resource), a[..|a| - 1], rest);
    }
  }

  lemma {:induction false} FlushNoStrays(r: Registry, k: nat)
    requires Sane(r) && k <= |r.table| && NoStrays(r.flash, |r.table|)
    ensures |Flush(r, k).table| == |r.table| && NoStrays(Flush(r, k).flash, |r.table|)
    decreases |r.table| - k
  {
    hide FlagsText, StaticName, FlagsName;
    Names();
    if k < |r.table| { FlushNoStrays(Dump(r, k), k + 1); }
  }

  lemma SaveNoStrays(r: Registry, m: Machine)
    requires |r.table| < MAX_MACHINES && ValidMachine(m) && NoStrays(r.flash, |r.table|)
    ensures NoStrays(Save(r, m).flash, |r.table| + 1)
  {
    hide StaticName, FlagsName, StaticText, FlagsText, Decimal;
    Names();
  }

  lemma StepNoStrays(r: Registry, a: seq<Entry>, rest: Store, op: Op)
    requires Represents(r, a, rest) && Legal(a, op) && NoStrays(r.flash, |a|)
    ensures Ready(r, op) && NoStrays(Step(r, op).flash, |SpecStep(a, op)|)
  {
    hide StaticName, FlagsName, StaticText, FlagsText, Decimal, ClearAll, Flush, Free, Candidate, Position,
      Load, Stored, Deployed, Save, PortsFree, Named;
    Names();
    Sanity(r, a, rest);
    StepRefines(r, a, rest, op);
    match op {
      case DoDeploy(q) =>
        CandidateIsAdmissible(r, a, rest, q);
        if Admissible(a, q) { SaveNoStrays(r, Machine(Deployed(q), FRESH_FLAGS)); }
      case DoClear(name) =>
        OrderIsPosition(r, a, name);
        if Position(a, name) < |a| { FreeNoStrays(r, a, rest, name); }
      case DoClearLast =>
        if a != [] {
          LastFree(r, a, rest);
          FreeNoStrays(r, a, rest, r.table[|a| - 1].info.resource);
        }
      case DoClearAll => ClearAllNoStrays(r, a, rest);
      case DoUpdate =>
        FlushNoStrays(r, 0);
        FlushRefines(r, a, rest, 0);
        Sanity(Flush(r, 0), Kept(a, 0, |a|), rest);
      case _ =>
    }
  }

  /** Over every run without power cuts inside an operation, no machine file is left that the counter does not
      count. */
  lemma {:induction false} NothingLeftBehind(r: Registry, a: seq<Entry>, rest: Store, vs: seq<Event>)
    requires Represents(r, a, rest) && LegalRun(a, vs) && forall i :: 0 <= i < |vs| ==> vs[i].Whole?
    requires NoStrays(r.flash, |r.table|)
    ensures Runs(r, vs) && NoStrays(Run(r, vs).flash, |Run(r, vs).table|)
    decreases |vs|
  {
    hide Represents, Ready, Step, Legal, SpecStep, NoStrays;
    ProperHidden(r, a, rest);
    if vs != [] {
      StepNoStrays(r, a, rest, vs[0].op);
      EventRefines(r, a, rest, vs[0]);
      ProperHidden(After(r, vs[0]), SpecAfter(a, vs[0]), rest);
      NothingLeftBehind(After(r, vs[0]), SpecAfter(a, vs[0]), rest, vs[1..]);
    }
  }

  // ---------------------------------------------------------------- what follows

  /** A flash without the counter's file starts an empty registry. */
  lemma FirstBoot(r: Registry, f: Store)
    requires METADATA !in f
    ensures Metadata(f) == 0 && Represents(Reboot(Registry(r.table, f)), [], f)
  {
    hide StaticText, FlagsText, StaticName, FlagsName, Decimal, Ours;
    Names();
    ZeroText();
  }

  lemma ZeroText()
    ensures Pow10(DIGITS) == 1000 && Decimal(0, DIGITS) == "000"
  {
    Names();
    assert Pow10(1) == 10 && Pow10(2) == 100;
    assert Decimal(0, 1) == "0";
    assert Decimal(0, 2) == "00";
  }

  // The same machine but for the dirty mark.
  predicate Alike(m: Machine, n: Machine) {
    m.flags == n.flags && m.info.(flagsChanged := n.info.flagsChanged) == n.info
  }

  /** After any run, an update empties the table and its restart rebuilds the same registry, machine by machine at the
      same indexes. */
  lemma UpdateRebuilds(r: Registry, a: seq<Entry>, rest: Store, vs: seq<Event>)
    requires Represents(r, a, rest) && LegalRun(a, vs)
    ensures Runs(r, vs) && Ready(Run(r, vs), DoUpdate)
    ensures var before, after := Run(r, vs).table, Step(Run(r, vs), DoUpdate).table;
      |after| == |before| && forall k :: 0 <= k < |before| ==> Alike(after[k], before[k])
    ensures ClearRam(Flush(Run(r, vs), 0)).table == []
  {
    hide Stored, Ready, Step, Legal, LegalRun, Runs, Run, SpecRun;
    RegistryRefinesList(r, a, rest, vs);
    var s, b := Run(r, vs), SpecRun(a, vs);
    UpdateStep(s, b, rest);
    forall k | 0 <= k < |b| ensures Alike(Step(s, DoUpdate).table[k], s.table[k]) {
      assert Step(s, DoUpdate).table[k] == Held(Each(Each(b, Keep), Revert)[k]) && s.table[k] == Held(b[k]);
    }
  }

  lemma UpdateStep(r: Registry, a: seq<Entry>, rest: Store)
    requires Represents(r, a, rest)
    ensures Ready(r, DoUpdate) && Represents(Step(r, DoUpdate), Each(Each(a, Keep), Revert), rest)
  {
    hide Represents, Ready, Step;
    ProperHidden(r, a, rest);
    StepRefines(r, a, rest, DoUpdate);
  }

  lemma RebootStep(r: Registry, a: seq<Entry>, rest: Store)
    requires Represents(r, a, rest)
    ensures Ready(r, DoReboot) && Represents(Step(r, DoReboot), Each(a, Revert), rest)
  {
    hide Represents, Ready, Step;
    ProperHidden(r, a, rest);
    StepRefines(r, a, rest, DoReboot);
  }

  /** A power cut loses no machine, and no flags but those of machines marked dirty. */
  lemma PowerCutKeeps(r: Registry, a: seq<Entry>, rest: Store, vs: seq<Event>)
    requires Represents(r, a, rest) && LegalRun(a, vs)
    ensures Runs(r, vs) && Ready(Run(r, vs), DoReboot)
    ensures var before, after := Run(r, vs).table, Step(Run(r, vs), DoReboot).table;
      |after| == |before| && forall k :: 0 <= k < |before| ==>
        (if before[k].info.flagsChanged then Alike(after[k], before[k].(flags := after[k].flags))
         else Alike(after[k], before[k]))
  {
    hide Stored, Ready, Step, Legal, LegalRun, Runs, Run, SpecRun;
    RegistryRefinesList(r, a, rest, vs);
    var s, b := Run(r, vs), SpecRun(a, vs);
    RebootStep(s, b, rest);
    forall k | 0 <= k < |b|
      ensures var m, n := s.table[k], Step(s, DoReboot).table[k];
        if m.info.flagsChanged then Alike(n, m.(flags := n.flags)) else Alike(n, m)
    {
      assert Step(s, DoReboot).table[k] == Held(Each(b, Revert)[k]) && s.table[k] == Held(b[k]) && ValidEntry(b[k]);
    }
  }

  /** After any run, looking a name up by the linear scan finds a machine exactly when one has that name, and
      no other machine has it. */
  lemma LookupIsUnique(r: Registry, a: seq<Entry>, rest: Store, vs: seq<Event>, name: Byte)
    requires Represents(r, a, rest) && LegalRun(a, vs)
    ensures Runs(r, vs)
    ensures var t := Run(r, vs).table;
      && (Order(t, name) < |t| <==> exists k :: 0 <= k < |t| && t[k].info.resource == name)
      && forall k :: 0 <= k < |t| && t[k].info.resource == name ==> k == Order(t, name)
  {
    hide Stored, Legal, LegalRun, Runs, Run, SpecRun;
    RegistryRefinesList(r, a, rest, vs);
    var s, b := Run(r, vs), SpecRun(a, vs);
    var t := s.table;
    forall k | 0 <= k < |t| && t[k].info.resource == name ensures k == Order(t, name) {
      SameName(s, b, rest, k);
      SameName(s, b, rest, Order(t, name));
    }
  }

  /** After any run, no port has two owners. */
  lemma PortsStayDisjoint(r: Registry, a: seq<Entry>, rest: Store, vs: seq<Event>, i: nat, j: nat)
    requires Represents(r, a, rest) && LegalRun(a, vs)
    ensures Runs(r, vs) && Sane(Run(r, vs))
    ensures var t := Run(r, vs).table; i < j < |t| ==> Ports(t[i].info) !! Ports(t[j].info)
  {
    hide Stored, Legal, LegalRun, Runs, Run, SpecRun, Ports;
    RegistryRefinesList(r, a, rest, vs);
    Sanity(Run(r, vs), SpecRun(a, vs), rest);
  }

  function Find(a: seq<Entry>, name: Byte): Option<Entry> {
    if Position(a, name) < |a| then Some(a[Position(a, name)]) else None
  }

  /** Moving the last machine into the gap removes the cleared machine and leaves every other one findable
      under its name, unchanged. */
  lemma ClearRemovesOnlyThat(a: seq<Entry>, name: Byte, other: Byte)
    requires Proper(a) && Legal(a, DoClear(name))
    ensures Find(SpecStep(a, DoClear(name)), other) == if other == name then None else Find(a, other)
  {
    hide Ports;
    var k, b := Position(a, name), SpecStep(a, DoClear(name));
    if k < |a| {
      var i, j := Position(a, other), Position(b, other);
      assert j < |b| ==> b[j] == a[if j == k then |a| - 1 else j];
      if other != name && i < |a| {
        var at := if i == |a| - 1 then k else i;
        assert b[at] == a[i];
        assert j <= at;
      }
    }
  }
}
