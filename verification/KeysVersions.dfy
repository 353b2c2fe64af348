/** Key versions over runs with power cuts: which cuts make the hub forget a version it has issued, and that it
    then issues the number again. */
module KeysVersions {
  import opened Base64
  import opened Pattern
  import opened Flash
  import opened Machine
  import opened Keys
  import opened KeysProofs

  // ---------------------------------------------------------------- versions

  function Top(s: Ram, k: nat): Byte
    requires ValidRam(s) && k < KEYS
  {
    Max(s.last[k].version, s.current[k].version)
  }

  // The event numbers a new value of key k: a rotation that got as far as the table of current marks.
  predicate Issues(e: Event, k: nat) {
    e.op.Rotate? && e.op.key == k && (e.Cut? ==> e.j >= 2)
  }

  ghost function Issued(s: KeyState, es: seq<Event>, k: nat): seq<Byte>
    requires Runs(s, es) && k < KEYS
    decreases |es|
  {
    if es == [] then []
    else (if Issues(es[0], k) then [NewVersion(s.ram, k)] else []) + Issued(After(s, es[0]), es[1..], k)
  }

  lemma {:induction false} SwapKeepsTop(s: Ram, j: nat, k: nat)
    requires ValidRam(s) && k < KEYS && j <= KEYS
    ensures Top(SwappedFrom(s, j), k) == Top(s, k)
    decreases KEYS - j
  {
    if j < KEYS { SwapKeepsTop(if s.rolled[j] then Swapped(s, j) else s, j + 1, k); }
  }

  // ---------------------------------------------------------------- a torn rollback

  // How many rolled keys come before k, from i on.
  function Before(rolled: seq<bool>, i: nat, k: nat): nat
    requires i <= k <= |rolled|
    decreases k - i
  {
    if i == k then 0 else (if rolled[i] then 1 else 0) + Before(rolled, i + 1, k)
  }

  // The first m rolled keys from i on swapped.
  function SwapSome(s: Ram, i: nat, m: nat): (t: Ram)
    requires ValidRam(s) && i <= KEYS
    ensures ValidRam(t)
    decreases KEYS - i
  {
    if i == KEYS || m == 0 then s
    else if s.rolled[i] then SwapSome(Swapped(s, i), i + 1, m - 1)
    else SwapSome(s, i + 1, m)
  }

  lemma MarksSaved(f: Store, s: Ram, t: Ram, j: nat)
    requires OnFlash(f, s.current, s.last) && ValidRam(t) && j <= 2
    ensures OnFlash(Apply(f, MarkWrites(t)[..j]), if j > 0 then t.current else s.current,
                    if j > 1 then t.last else s.last)
  {
    hide MarksText;
    ApplyMarks(f, t);
    assert MarkWrites(t)[..2] == MarkWrites(t);
  }

  lemma SwapUnfolds(s: Ram, i: nat, m: nat)
    requires ValidRam(s) && i < KEYS
    ensures SwapWrites(s, i) == if s.rolled[i] then MarkWrites(Swapped(s, i)) + SwapWrites(Swapped(s, i), i + 1)
                                else SwapWrites(s, i + 1)
    ensures SwapSome(s, i, 0) == s
    ensures s.rolled[i] ==> SwapSome(s, i, m + 1) == SwapSome(Swapped(s, i), i + 1, m)
    ensures !s.rolled[i] ==> SwapSome(s, i, m) == SwapSome(s, i + 1, m)
  {
    hide Swapped, MarkWrites;
  }

  lemma SwapEnds(s: Ram, i: nat, m: nat)
    requires ValidRam(s) && i <= KEYS
    ensures SwapWrites(s, KEYS) == [] && SwapSome(s, i, 0) == s
  {
  }

  // The two tables after j writes of a rollback: current marks come first.
  lemma {:induction false} TornMarks(f: Store, s: Ram, i: nat, j: nat)
    requires ValidRam(s) && OnFlash(f, s.current, s.last) && i <= KEYS && j <= |SwapWrites(s, i)|
    ensures OnFlash(Apply(f, SwapWrites(s, i)[..j]), SwapSome(s, i, (j + 1) / 2).current, SwapSome(s, i, j / 2).last)
    decreases KEYS - i
  {
    hide OnFlash, MarkWrites, ValidMarks, Apply, SwapWrites, SwapSome, Swapped;
    SwapEnds(s, i, 0);
    if j == 0 {
      ApplyNothing(f);
      assert SwapWrites(s, i)[..0] == [];
    } else {
      SwapUnfolds(s, i, (j - 1) / 2);
      SwapUnfolds(s, i, if j < 2 then 0 else j / 2 - 1);
      if s.rolled[i] {
        TornMarksOf(f, s, i, j);
      } else {
        SwapUnfolds(s, i, (j + 1) / 2);
        SwapUnfolds(s, i, j / 2);
        TornMarks(f, s, i + 1, j);
      }
    }
  }

  lemma {:induction false} TornMarksOf(f: Store, s: Ram, i: nat, j: nat)
    requires ValidRam(s) && OnFlash(f, s.current, s.last) && i < KEYS && 0 < j <= |SwapWrites(s, i)| && s.rolled[i]
    ensures OnFlash(Apply(f, SwapWrites(s, i)[..j]), SwapSome(s, i, (j + 1) / 2).current, SwapSome(s, i, j / 2).last)
    decreases KEYS - i, 0
  {
    hide OnFlash, MarkWrites, ValidMarks, Apply, SwapWrites, SwapSome, Swapped;
    var t, ws := Swapped(s, i), SwapWrites(Swapped(s, i), i + 1);
    SwapUnfolds(s, i, (j - 1) / 2);
    if j == 1 {
      SwapEnds(s, i, 0);
      SwapEnds(t, i + 1, 0);
      assert (MarkWrites(t) + ws)[..1] == MarkWrites(t)[..1];
      MarksSaved(f, s, t, 1);
    } else {
      SwapUnfolds(s, i, j / 2 - 1);
      assert (MarkWrites(t) + ws)[..j] == MarkWrites(t) + ws[..j - 2] && MarkWrites(t)[..2] == MarkWrites(t);
      ApplyAppend(f, MarkWrites(t), ws[..j - 2]);
      MarksSaved(f, s, t, 2);
      TornMarks(Apply(f, MarkWrites(t)), t, i + 1, j - 2);
    }
  }

  lemma {:induction false} SwapSomeAt(s: Ram, i: nat, m: nat, k: nat)
    requires ValidRam(s) && i <= KEYS && k < KEYS
    ensures var t, swaps := SwapSome(s, i, m), i <= k && s.rolled[k] && Before(s.rolled, i, k) < m;
      && t.current[k] == (if swaps then s.last[k] else s.current[k])
      && t.last[k] == (if swaps then s.current[k] else s.last[k])
    decreases KEYS - i
  {
    if i < KEYS && m > 0 {
      if s.rolled[i] { SwapSomeAt(Swapped(s, i), i + 1, m - 1, k); } else { SwapSomeAt(s, i + 1, m, k); }
    }
  }

  // The cut falls between the two tables of key k, and the newer version is only in the second.
  predicate Forgets(s: Ram, k: nat, j: nat)
    requires ValidRam(s) && k < KEYS
  {
    && j % 2 == 1 && s.rolled[k] && Before(s.rolled, 0, k) == j / 2
    && s.current[k].version > s.last[k].version
  }

  /** Power cut after any number of writes of a failed connection: the highest version on record of a key is kept
      if and only if the cut does not fall between the two tables of that key while its current version is the
      newer one; otherwise the older one is all that is left. */
  lemma TornTopIff(s: KeyState, a: Pairs, rest: Store, k: nat, j: nat)
    requires Represents(s, a, rest) && k < KEYS && j <= |Writes(s.ram, Failed)|
    ensures ValidRam(Torn(s, Failed, j).ram)
    ensures Top(Torn(s, Failed, j).ram, k) == Top(s.ram, k) <==> !Forgets(s.ram, k, j)
    ensures Forgets(s.ram, k, j) ==> RollsBack(s.ram) && Top(Torn(s, Failed, j).ram, k) == s.ram.last[k].version
  {
    hide Represents, SwapSome, SwapWrites, Boot, Apply, MarksText;
    RepresentsMeans(s, a, rest);
    if RollsBack(s.ram) {
      TornMarks(s.flash, s.ram, 0, j);
      SwapSomeAt(s.ram, 0, (j + 1) / 2, k);
      SwapSomeAt(s.ram, 0, j / 2, k);
      BootMarks(Apply(s.flash, SwapWrites(s.ram, 0)[..j]), SwapSome(s.ram, 0, (j + 1) / 2).current,
                SwapSome(s.ram, 0, j / 2).last);
    } else {
      ApplyNothing(s.flash);
      BootMarks(s.flash, s.ram.current, s.ram.last);
    }
  }

  // ---------------------------------------------------------------- any event

  predicate ForgetsAt(s: Ram, e: Event, k: nat)
    requires ValidRam(s) && k < KEYS
  {
    e.Cut? && e.op.Failed? && Forgets(s, k, e.j)
  }

  // The highest version an event should leave on record.
  function TopAfter(s: Ram, e: Event, k: nat): nat
    requires ValidRam(s) && k < KEYS
  {
    if Issues(e, k) then Top(s, k) + 1 else Top(s, k)
  }

  lemma EventTopIff(s: KeyState, a: Pairs, rest: Store, e: Event, k: nat)
    requires Represents(s, a, rest) && k < KEYS && Runs(s, [e]) && TopAfter(s.ram, e, k) <= 255
    ensures ValidRam(After(s, e).ram)
    ensures Top(After(s, e).ram, k) == TopAfter(s.ram, e, k) <==> !ForgetsAt(s.ram, e, k)
  {
    hide Represents, Apply, MarksText, LoadMarks, Name, SpecBoot, Boot, SwappedFrom, Forgets, RollsBack, SwapWrites;
    RepresentsMeans(s, a, rest);
    match e {
      case Whole(op) =>
        if op.Failed? { SwapKeepsTop(s.ram, 0, k); }
      case Cut(op, j) =>
        match op {
          case Rotate(i, v) =>
            TornRotateRefines(s, a, rest, i, v, j);
            EventRefines(s, a, rest, e);
            StillValid(After(s, e), SpecAfter(a, e), rest);
          case Failed => TornTopIff(s, a, rest, k, j);
          case Forward =>
            BootMarks(s.flash, s.ram.current, s.ram.last);
            ApplyNothing(s.flash);
        }
    }
  }

  lemma StillValid(s: KeyState, a: Pairs, rest: Store)
    requires Represents(s, a, rest)
    ensures ValidRam(s.ram)
  {
  }

  lemma ApplyNothing(f: Store)
    ensures Apply(f, []) == f
  {
  }

  lemma EventRefines(s: KeyState, a: Pairs, rest: Store, e: Event)
    requires Represents(s, a, rest) && Runs(s, [e])
    ensures Represents(After(s, e), SpecAfter(a, e), rest)
  {
    match e {
      case Whole(op) => StepRefines(s, a, rest, op);
      case Cut(op, j) => TornRefines(s, a, rest, op, j);
    }
  }

  // ---------------------------------------------------------------- whole runs

  // No power cut of the run makes the hub forget a version of key k.
  ghost predicate NeverForgets(s: KeyState, es: seq<Event>, k: nat)
    requires Runs(s, es) && k < KEYS
    decreases |es|
  {
    es == [] || (!ForgetsAt(s.ram, es[0], k) && NeverForgets(After(s, es[0]), es[1..], k))
  }

  // After every event, the highest version on record is the first plus the number of issues.
  ghost predicate KeepsCount(s: KeyState, es: seq<Event>, k: nat)
    requires Runs(s, es) && k < KEYS
    decreases |es|
  {
    es == [] ||
    (&& ValidRam(After(s, es[0]).ram) && Top(After(s, es[0]).ram, k) == TopAfter(s.ram, es[0], k)
     && KeepsCount(After(s, es[0]), es[1..], k))
  }

  lemma NothingIssued(s: KeyState, k: nat)
    requires k < KEYS
    ensures Issued(s, [], k) == [] && Runs(s, []) && Run(s, []) == s
  {
  }

  lemma Unfolds(s: KeyState, es: seq<Event>, k: nat)
    requires Runs(s, es) && es != [] && k < KEYS
    ensures Runs(s, [es[0]]) && ValidRam(s.ram) && Legal(es[0].op)
    ensures es[0].Cut? ==> es[0].j <= |Writes(s.ram, es[0].op)|
    ensures Runs(After(s, es[0]), es[1..])
    ensures Issued(s, es, k)
         == (if Issues(es[0], k) then [NewVersion(s.ram, k)] else []) + Issued(After(s, es[0]), es[1..], k)
  {
    hide After, NewVersion, Issues, ValidMarks;
    assert [es[0]][1..] == [];
  }

  lemma NewIsNext(s: Ram, k: nat)
    requires ValidRam(s) && k < KEYS
    ensures Top(s, k) < 255 ==> NewVersion(s, k) == Top(s, k) + 1
  {
  }

  /** Below the limit of a byte, the highest version on record goes up by one with every rotation of the key, and by
      nothing else that happens, if and only if no power cut of the run makes the hub forget a version of it. */
  lemma {:induction false} CountKeptIff(s: KeyState, a: Pairs, rest: Store, es: seq<Event>, k: nat)
    requires Represents(s, a, rest) && k < KEYS && Runs(s, es) && Top(s.ram, k) + |Issued(s, es, k)| <= 255
    ensures KeepsCount(s, es, k) <==> NeverForgets(s, es, k)
    decreases |es|
  {
    hide Represents, After, SpecAfter, Top, Issues, ValidMarks, Issued, NewVersion, Runs, ForgetsAt;
    if es != [] {
      Unfolds(s, es, k);
      RepresentsMeans(s, a, rest);
      EventTopIff(s, a, rest, es[0], k);
      EventRefines(s, a, rest, es[0]);
      if !ForgetsAt(s.ram, es[0], k) { CountKeptIff(After(s, es[0]), SpecAfter(a, es[0]), rest, es[1..], k); }
    }
  }

  /** And then the versions issued for the key count up by one, over any mix of rotations, failures, confirmations
      and power cuts. */
  lemma {:induction false} VersionsCountUp(s: KeyState, a: Pairs, rest: Store, es: seq<Event>, k: nat)
    requires Represents(s, a, rest) && k < KEYS && Runs(s, es) && NeverForgets(s, es, k)
    requires Top(s.ram, k) + |Issued(s, es, k)| <= 255
    ensures var vs := Issued(s, es, k); forall i :: 0 <= i < |vs| ==> vs[i] == Top(s.ram, k) + 1 + i
    ensures ValidRam(Run(s, es).ram) && Top(Run(s, es).ram, k) == Top(s.ram, k) + |Issued(s, es, k)|
    decreases |es|
  {
    hide Represents, After, SpecAfter, Top, Issues, ValidMarks, Issued, NewVersion, Runs, ForgetsAt;
    RepresentsMeans(s, a, rest);
    NothingIssued(s, k);
    if es != [] {
      Unfolds(s, es, k);
      EventTopIff(s, a, rest, es[0], k);
      EventRefines(s, a, rest, es[0]);
      NewIsNext(s.ram, k);
      VersionsCountUp(After(s, es[0]), SpecAfter(a, es[0]), rest, es[1..], k);
    }
  }

  lemma {:induction false} RunRefines(s: KeyState, a: Pairs, rest: Store, es: seq<Event>)
    returns (b: Pairs)
    requires Represents(s, a, rest) && Runs(s, es)
    ensures Represents(Run(s, es), b, rest)
  {
    KeysRefinePairs(s, a, rest, es);
    b := SpecRun(a, es);
  }

  lemma {:induction false} IssuedAppend(s: KeyState, es: seq<Event>, more: seq<Event>, k: nat)
    requires Runs(s, es) && Runs(Run(s, es), more) && k < KEYS
    ensures Runs(s, es + more) && Issued(s, es + more, k) == Issued(s, es, k) + Issued(Run(s, es), more, k)
    decreases |es|
  {
    hide After, NewVersion, Issues, ValidMarks, Writes;
    if es == [] {
      assert es + more == more;
    } else {
      var all := es + more;
      assert all[0] == es[0] && all[1..] == es[1..] + more;
      IssuedAppend(After(s, es[0]), es[1..], more, k);
    }
  }

  // A rotation right after a cut that forgets.
  lemma AfterForgetting(s: KeyState, a: Pairs, rest: Store, k: nat, j: nat, v: string)
    requires Represents(s, a, rest) && k < KEYS && j <= |Writes(s.ram, Failed)| && Forgets(s.ram, k, j)
    ensures var more := [Cut(Failed, j), Whole(Rotate(k, v))];
      Runs(s, more) && Issued(s, more, k) == [s.ram.last[k].version + 1] && s.ram.last[k].version < Top(s.ram, k)
  {
    hide Represents, Torn, NewVersion, Writes, RollsBack, Forgets;
    RepresentsMeans(s, a, rest);
    TornTopIff(s, a, rest, k, j);
    Older(s.ram, k, j);
    var t := Torn(s, Failed, j);
    NothingIssued(Step(t, Rotate(k, v)), k);
    RunCons(t, Whole(Rotate(k, v)), [], k);
    RunCons(s, Cut(Failed, j), [Whole(Rotate(k, v))], k);
    assert [Whole(Rotate(k, v))] + [] == [Whole(Rotate(k, v))];
    assert [Cut(Failed, j)] + [Whole(Rotate(k, v))] == [Cut(Failed, j), Whole(Rotate(k, v))];
    NewIsNext(t.ram, k);
  }

  lemma Older(s: Ram, k: nat, j: nat)
    requires ValidRam(s) && k < KEYS && Forgets(s, k, j)
    ensures s.last[k].version < Top(s, k) <= 255
  {
  }

  /** After a cut that forgets, the next rotation issues a number that is on record already. It was issued in the
      run, if the older version is no older than the run; so it always was in a run from the first start. */
  lemma ForgottenIsReissued(s: KeyState, a: Pairs, rest: Store, es: seq<Event>, k: nat, j: nat, v: string)
    requires Represents(s, a, rest) && k < KEYS && Runs(s, es) && NeverForgets(s, es, k)
    requires Top(s.ram, k) + |Issued(s, es, k)| <= 255
    requires ValidRam(Run(s, es).ram) && j <= |Writes(Run(s, es).ram, Failed)| && Forgets(Run(s, es).ram, k, j)
    ensures var more := [Cut(Failed, j), Whole(Rotate(k, v))];
      var vs, n := Issued(s, es, k), Run(s, es).ram.last[k].version + 1;
      && Runs(s, es + more) && Issued(s, es + more, k) == vs + [n]
      && n <= Top(Run(s, es).ram, k) && (n in vs <==> n > Top(s.ram, k))
  {
    hide Represents, Writes, Forgets, Issued, Runs, Run, Top, NeverForgets;
    RepresentsMeans(s, a, rest);
    var b := RunRefines(s, a, rest, es);
    AfterForgetting(Run(s, es), b, rest, k, j, v);
    IssuedAppend(s, es, [Cut(Failed, j), Whole(Rotate(k, v))], k);
    VersionsCountUp(s, a, rest, es, k);
    var vs, n := Issued(s, es, k), Run(s, es).ram.last[k].version + 1;
    if n > Top(s.ram, k) { assert vs[n - Top(s.ram, k) - 1] == n; }
  }

  lemma {:induction false} OneSwap(s: Ram, i: nat, k: nat)
    requires ValidRam(s) && i <= k < KEYS && s.rolled[k] && forall j :: i <= j < k ==> !s.rolled[j]
    ensures |SwapWrites(s, i)| >= 2 && Before(s.rolled, i, k) == 0
    decreases k - i
  {
    hide Swapped;
    if i < k { OneSwap(s, i + 1, k); }
  }

  lemma {:induction false} WholeNeverForgets(s: KeyState, es: seq<Event>, k: nat)
    requires Runs(s, es) && k < KEYS && forall i :: 0 <= i < |es| ==> es[i].Whole?
    ensures NeverForgets(s, es, k)
    decreases |es|
  {
    hide After, Forgets;
    if es != [] { WholeNeverForgets(After(s, es[0]), es[1..], k); }
  }

  // One rotation and two failures on a fresh start.
  lemma RotatedOnce(f: Store, k: nat, v: string)
    requires CURRENT_FILE !in f && LAST_FILE !in f && k < KEYS
    ensures var s, es := Boot(f), [Whole(Rotate(k, v)), Whole(Failed), Whole(Failed)];
      && Runs(s, es) && Issued(s, es, k) == [1] && NeverForgets(s, es, k) && Top(s.ram, k) == 0
      && var u := Run(s, es).ram;
         && ValidRam(u) && u.attempts == MAX_ATTEMPTS
         && u.rolled == seq(KEYS, _ => false)[k := true]
         && u.current[k].version == 1 && u.last[k].version == 0
  {
    hide After, Issued, Runs, Run, ValidMarks, Boot;
    var s := Boot(f);
    var es := [Whole(Rotate(k, v)), Whole(Failed), Whole(Failed)];
    FreshMarks(f, k, v);
    hide Step, NewVersion, Top;
    var t1 := Step(s, es[0].op);
    StillValidAfter(s, es[0]);
    var t2 := Step(t1, Failed);
    StillValidAfter(t1, Whole(Failed));
    var t3 := Step(t2, Failed);
    StillValidAfter(t2, Whole(Failed));
    NothingIssued(t3, k);
    var r1, r2 := [Whole(Failed)], [Whole(Failed), Whole(Failed)];
    assert r1 == [Whole(Failed)] + [];
    RunCons(t2, Whole(Failed), [], k);
    assert r2 == [Whole(Failed)] + r1;
    RunCons(t1, Whole(Failed), r1, k);
    assert es == [es[0]] + r2;
    RunCons(s, es[0], r2, k);
    WholeNeverForgets(s, es, k);
  }

  lemma StillValidAfter(s: KeyState, e: Event)
    requires ValidRam(s.ram) && Legal(e.op) && e.Whole?
    ensures After(s, e) == Step(s, e.op) && ValidRam(After(s, e).ram)
  {
  }

  // The first rotation of a key and two failures after it.
  lemma FreshMarks(f: Store, k: nat, v: string)
    requires CURRENT_FILE !in f && LAST_FILE !in f && k < KEYS
    ensures var s := Boot(f);
      && ValidRam(s.ram) && Top(s.ram, k) == 0 && NewVersion(s.ram, k) == 1
      && var u := Step(Step(Step(s, Rotate(k, v)), Failed), Failed).ram;
         && u.attempts == MAX_ATTEMPTS && u.rolled == seq(KEYS, _ => false)[k := true]
         && u.current[k].version == 1 && u.last[k].version == 0
  {
    hide Apply, MarksText, Writes;
    var t := Next(Boot(f).ram, Rotate(k, v));
    assert t.rolled[k];
  }

  lemma RunCons(s: KeyState, e: Event, es: seq<Event>, k: nat)
    requires ValidRam(s.ram) && Legal(e.op) && (e.Cut? ==> e.j <= |Writes(s.ram, e.op)|)
    requires Runs(After(s, e), es) && k < KEYS
    ensures Runs(s, [e] + es) && Run(s, [e] + es) == Run(After(s, e), es)
    ensures Issued(s, [e] + es, k)
         == (if Issues(e, k) then [NewVersion(s.ram, k)] else []) + Issued(After(s, e), es, k)
  {
    hide After, NewVersion, Issues, ValidMarks;
    assert ([e] + es)[1..] == es;
  }

  /** From the first start: a key rotated, two failed connections, power lost after the first write of the third,
      and the key rotated again. Both rotations issue version 1. */
  lemma VersionIssuedTwice(f: Store, k: nat, v: string, w: string)
    requires CURRENT_FILE !in f && LAST_FILE !in f && k < KEYS
    ensures var es := [Whole(Rotate(k, v)), Whole(Failed), Whole(Failed)] + [Cut(Failed, 1), Whole(Rotate(k, w))];
      Runs(Boot(f), es) && Issued(Boot(f), es, k) == [1, 1]
  {
    hide Represents, Apply, MarksText, Boot, Run, Runs, Issued, NeverForgets;
    var s, es := Boot(f), [Whole(Rotate(k, v)), Whole(Failed), Whole(Failed)];
    RotatedOnce(f, k, v);
    FirstBoot(f);
    var u := Run(s, es).ram;
    assert u.rolled[k];
    OneSwap(u, 0, k);
    var a := Pairs(seq(KEYS, i requires 0 <= i < KEYS => Pair(At(f, COMMANDS[i]), None, false)), 0);
    ForgottenIsReissued(s, a, f, es, k, 1, w);
  }

  /** A new version is above both recorded ones exactly while neither is 255. */
  lemma VersionGrows(s: Ram, k: nat)
    requires ValidRam(s) && k < KEYS
    ensures NewVersion(s, k) > Top(s, k) <==> Top(s, k) < 255
  {
  }
}
