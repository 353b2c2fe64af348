/** Key rotation refines a pair of values, across power cuts between any two flash writes. */
module KeysProofs {
  import opened Base64
  import opened Pattern
  import opened Flash
  import opened Machine
  import opened Keys

  lemma Commands(j: nat, k: nat)
    requires j < KEYS && k < KEYS
    ensures |COMMANDS[j]| == 6
    ensures COMMANDS[j] == COMMANDS[k] ==> j == k
    ensures COMMANDS[j] != CURRENT_FILE
  {
    assert forall i :: 0 <= i < KEYS ==> |COMMANDS[i]| == 6;
    assert COMMANDS[j][..6] == COMMANDS[j];
    assert forall i :: 0 <= i < KEYS ==> COMMANDS[i] == [COMMANDS[i][0], COMMANDS[i][1], COMMANDS[i][2],
      COMMANDS[i][3], COMMANDS[i][4], COMMANDS[i][5]];
  }

  lemma Names()
    ensures forall j: nat, k: nat, a: Byte, b: Byte | j < KEYS && k < KEYS && a < 2 && b < 2 ::
      Name(j, a) == Name(k, b) ==> j == k && a == b
    ensures forall k: nat, a: Byte | k < KEYS && a < 2 ::
      Name(k, a) != CURRENT_FILE && Name(k, a) != LAST_FILE && KeyFile(Name(k, a))
    ensures KeyFile(CURRENT_FILE) && KeyFile(LAST_FILE)
  {
    forall j: nat, k: nat, a: Byte, b: Byte | j < KEYS && k < KEYS && a < 2 && b < 2
      ensures Name(j, a) == Name(k, b) ==> j == k && a == b
    {
      Commands(j, k);
      Commands(k, j);
      if Name(j, a) == Name(k, b) {
        assert |Name(j, a)| == |Name(k, b)|;
        assert Name(j, a)[..6] == COMMANDS[j] && Name(k, b)[..6] == COMMANDS[k];
      }
    }
    forall k: nat, a: Byte | k < KEYS && a < 2
      ensures Name(k, a) != CURRENT_FILE && Name(k, a) != LAST_FILE && KeyFile(Name(k, a))
    {
      Commands(k, k);
    }
  }

  lemma {:induction false} ApplyAppend(f: Store, xs: seq<Write>, ys: seq<Write>)
    ensures Apply(f, xs + ys) == Apply(Apply(f, xs), ys)
    decreases |xs|
  {
    if xs == [] {
      assert xs + ys == ys;
    } else {
      assert (xs + ys)[1..] == xs[1..] + ys;
      ApplyAppend(f[xs[0].name := xs[0].text], xs[1..], ys);
    }
  }

  lemma ApplyMarks(f: Store, s: Ram)
    ensures Apply(f, MarkWrites(s)) == f[CURRENT_FILE := MarksText(s.current)][LAST_FILE := MarksText(s.last)]
    ensures Apply(f, MarkWrites(s)[..1]) == f[CURRENT_FILE := MarksText(s.current)]
    ensures Apply(f, MarkWrites(s)[..0]) == f
  {
    var w := MarkWrites(s);
    var g := f[CURRENT_FILE := MarksText(s.current)];
    assert w[1..] == [w[1]] && [w[1]][1..] == [] && w[..1] == [w[0]] && [w[0]][1..] == [];
    assert Apply(f, w) == Apply(g, [w[1]]);
    assert Apply(g, [w[1]]) == Apply(g[LAST_FILE := MarksText(s.last)], []);
  }

  // ---------------------------------------------------------------- starting

  // The value of every key, read through the current marks.
  ghost predicate Reads(f: Store, current: seq<Mark>, ps: seq<Pair>)
    requires ValidMarks(current)
  {
    |ps| == KEYS && forall k :: 0 <= k < KEYS ==> At(f, Name(k, current[k].slot)) == ps[k].current
  }

  // The tables as saved, perhaps at different moments.
  ghost predicate OnFlash(f: Store, current: seq<Mark>, last: seq<Mark>) {
    && ValidMarks(current) && ValidMarks(last)
    && At(f, CURRENT_FILE) == Some(MarksText(current))
    && (At(f, LAST_FILE) == Some(MarksText(last)) || (LAST_FILE !in f && last == NoMarks()))
  }

  lemma BootMarks(f: Store, current: seq<Mark>, last: seq<Mark>)
    requires OnFlash(f, current, last)
    ensures Boot(f) == KeyState(Ram(current, last, seq(KEYS, _ => false), 0), f)
  {
    hide MarksText, LoadMarks;
    SavedMarks(current);
    SavedMarks(last);
  }

  lemma BootReads(f: Store, current: seq<Mark>, last: seq<Mark>, ps: seq<Pair>, rest: Store)
    requires OnFlash(f, current, last) && Reads(f, current, ps) && Others(f, rest)
    ensures Boot(f) == KeyState(Ram(current, last, seq(KEYS, _ => false), 0), f)
    ensures Represents(Boot(f), SpecBoot(ps), rest)
  {
    hide MarksText, LoadMarks, Name, KeyFile;
    BootMarks(f, current, last);
  }

  lemma RepresentsMeans(s: KeyState, a: Pairs, rest: Store)
    requires Represents(s, a, rest)
    ensures OnFlash(s.flash, s.ram.current, s.ram.last) && Reads(s.flash, s.ram.current, a.pairs)
    ensures Others(s.flash, rest) && s.ram.attempts == a.attempts && ValidRam(s.ram)
    ensures |a.pairs| == KEYS && forall k :: 0 <= k < KEYS ==> s.ram.rolled[k] == a.pairs[k].rolled
  {
    hide MarksText, Name, KeyFile;
    forall k | 0 <= k < KEYS
      ensures At(s.flash, Name(k, s.ram.current[k].slot)) == a.pairs[k].current && s.ram.rolled[k] == a.pairs[k].rolled
    {
      assert Matches(s, a.pairs[k], k);
    }
  }

  /** A flash without saved tables starts with the plainly named values. */
  lemma FirstBoot(f: Store)
    requires CURRENT_FILE !in f && LAST_FILE !in f
    ensures var plain := seq(KEYS, k requires 0 <= k < KEYS => Pair(At(f, COMMANDS[k]), None, false));
      Represents(Boot(f), Pairs(plain, 0), f)
  {
    hide MarksText;
    Names();
    assert forall k: nat | k < KEYS :: Name(k, 0) == COMMANDS[k];
  }

  // ---------------------------------------------------------------- rotating

  lemma RotateRefines(s: KeyState, a: Pairs, rest: Store, k: nat, v: string)
    requires Represents(s, a, rest) && k < KEYS
    ensures Represents(Step(s, Rotate(k, v)), SpecStep(a, Rotate(k, v)), rest)
  {
    hide MarksText, KeyFile, Name, NewVersion;
    Names();
    var t, b := Step(s, Rotate(k, v)), SpecStep(a, Rotate(k, v));
    var ws := RotateWrites(s.ram, k, v);
    assert ws[1..] == MarkWrites(t.ram);
    ApplyMarks(s.flash[ws[0].name := v], t.ram);
    forall j | 0 <= j < KEYS ensures Matches(t, b.pairs[j], j) {
      assert Matches(s, a.pairs[j], j);
    }
  }

  /** Power lost inside rotate_key: before the table of current marks is written the old value is still
      current, from then on the new one is. */
  lemma TornRotateRefines(s: KeyState, a: Pairs, rest: Store, k: nat, v: string, j: nat)
    requires Represents(s, a, rest) && k < KEYS && j <= 3
    ensures |Writes(s.ram, Rotate(k, v))| == 3
    ensures Represents(Torn(s, Rotate(k, v), j), SpecTorn(a, Rotate(k, v), j), rest)
    ensures Torn(s, Rotate(k, v), j).ram.current == if j < 2 then s.ram.current else Rotated(s.ram, k).current
    ensures Torn(s, Rotate(k, v), j).ram.last == if j < 3 then s.ram.last else Rotated(s.ram, k).last
  {
    hide MarksText, KeyFile, Name, NewVersion, Boot, SpecBoot;
    Names();
    RepresentsMeans(s, a, rest);
    var t, b := Rotated(s.ram, k), SpecStep(a, Rotate(k, v));
    var ws := RotateWrites(s.ram, k, v);
    var f1 := s.flash[ws[0].name := v];
    assert ws[1..] == MarkWrites(t) && ws[..j] == if j == 0 then [] else [ws[0]] + MarkWrites(t)[..j - 1];
    ApplyMarks(f1, t);
    assert j > 0 ==> ([ws[0]] + MarkWrites(t)[..j - 1])[1..] == MarkWrites(t)[..j - 1];
    assert MarkWrites(t)[..2] == MarkWrites(t);
    var f := Apply(s.flash, ws[..j]);
    if j < 2 {
      BootReads(f, s.ram.current, s.ram.last, a.pairs, rest);
    } else {
      BootReads(f, t.current, if j == 2 then s.ram.last else t.last, b.pairs, rest);
    }
  }

  // ---------------------------------------------------------------- rolling back

  lemma SwapOne(s: KeyState, a: Pairs, rest: Store, k: nat)
    requires Represents(s, a, rest) && k < KEYS && s.ram.rolled[k]
    ensures var t := Swapped(s.ram, k);
      Represents(KeyState(t, Apply(s.flash, MarkWrites(t))), a.(pairs := a.pairs[k := Flip(a.pairs[k])]), rest)
  {
    hide MarksText, KeyFile, Name;
    Names();
    ApplyMarks(s.flash, Swapped(s.ram, k));
    var t := KeyState(Swapped(s.ram, k), Apply(s.flash, MarkWrites(Swapped(s.ram, k))));
    var b := a.pairs[k := Flip(a.pairs[k])];
    forall j | 0 <= j < KEYS ensures Matches(t, b[j], j) {
      assert Matches(s, a.pairs[j], j);
    }
  }

  // Power lost after the table of current marks is written for key k and before the other is.
  lemma SwapHalf(s: KeyState, a: Pairs, rest: Store, k: nat)
    requires Represents(s, a, rest) && k < KEYS && s.ram.rolled[k]
    ensures var t := Swapped(s.ram, k);
      Represents(Boot(Apply(s.flash, MarkWrites(t)[..1])), SpecBoot(a.pairs[k := Flip(a.pairs[k])]), rest)
  {
    hide MarksText, KeyFile, Name, Boot, SpecBoot;
    Names();
    RepresentsMeans(s, a, rest);
    assert Matches(s, a.pairs[k], k);
    ApplyMarks(s.flash, Swapped(s.ram, k));
    var f := Apply(s.flash, MarkWrites(Swapped(s.ram, k))[..1]);
    BootReads(f, Swapped(s.ram, k).current, s.ram.last, a.pairs[k := Flip(a.pairs[k])], rest);
  }

  function FlipFrom(ps: seq<Pair>, k: nat): (qs: seq<Pair>)
    requires k <= |ps|
    ensures |qs| == |ps|
  {
    ps[..k] + FlipAll(ps[k..])
  }

  lemma {:induction false} SwapRefines(s: KeyState, a: Pairs, rest: Store, k: nat)
    requires Represents(s, a, rest) && k <= KEYS
    ensures Represents(KeyState(SwappedFrom(s.ram, k), Apply(s.flash, SwapWrites(s.ram, k))),
                       a.(pairs := FlipFrom(a.pairs, k)), rest)
    decreases KEYS - k
  {
    hide Represents, Swapped, MarkWrites, FlipFrom, Reads, OnFlash, Others, ValidMarks;
    RepresentsMeans(s, a, rest);
    FlipFromStep(a.pairs, k);
    if k == KEYS {
    } else if s.ram.rolled[k] {
      SwapOne(s, a, rest, k);
      var t := Swapped(s.ram, k);
      var b := a.(pairs := a.pairs[k := Flip(a.pairs[k])]);
      ApplyAppend(s.flash, MarkWrites(t), SwapWrites(t, k + 1));
      SwapRefines(KeyState(t, Apply(s.flash, MarkWrites(t))), b, rest, k + 1);
    } else {
      assert a.pairs[k := Flip(a.pairs[k])] == a.pairs;
      SwapRefines(s, a, rest, k + 1);
    }
  }

  lemma FlipFromStep(ps: seq<Pair>, k: nat)
    requires k <= |ps|
    ensures FlipFrom(ps, |ps|) == ps
    ensures k < |ps| ==> FlipFrom(ps, k) == FlipFrom(ps[k := Flip(ps[k])], k + 1)
  {
  }

  function FlipSomeFrom(ps: seq<Pair>, k: nat, m: nat): (qs: seq<Pair>)
    requires k <= |ps|
    ensures |qs| == |ps|
  {
    ps[..k] + FlipSome(ps[k..], m)
  }

  lemma FlipSomeStep(ps: seq<Pair>, k: nat, m: nat)
    requires k < |ps|
    ensures FlipSomeFrom(ps, k, 0) == ps
    ensures !ps[k].rolled ==> FlipSomeFrom(ps, k, m) == FlipSomeFrom(ps, k + 1, m)
    ensures ps[k].rolled && m > 0 ==> FlipSomeFrom(ps, k, m) == FlipSomeFrom(ps[k := Flip(ps[k])], k + 1, m - 1)
  {
    assert ps[k..][1..] == ps[k + 1..] && ps[k := Flip(ps[k])][k + 1..] == ps[k + 1..];
  }

  lemma {:induction false} TornSwapRefines(s: KeyState, a: Pairs, rest: Store, k: nat, j: nat)
    requires Represents(s, a, rest) && k <= KEYS && j <= |SwapWrites(s.ram, k)|
    ensures var f := Apply(s.flash, SwapWrites(s.ram, k)[..j]);
      Represents(Boot(f), SpecBoot(FlipSomeFrom(a.pairs, k, (j + 1) / 2)), rest)
    decreases KEYS - k
  {
    hide Represents, Boot, SpecBoot, Reads, OnFlash, FlipSome, FlipSomeFrom, Others, Swapped, MarkWrites, ValidMarks;
    RepresentsMeans(s, a, rest);
    var ws := SwapWrites(s.ram, k);
    if k < KEYS { FlipSomeStep(a.pairs, k, (j + 1) / 2); }
    if j == 0 {
      assert FlipSomeFrom(a.pairs, k, 0) == a.pairs by { NoFlip(a.pairs, k); }
      BootReads(s.flash, s.ram.current, s.ram.last, a.pairs, rest);
    } else if s.ram.rolled[k] {
      var t := Swapped(s.ram, k);
      var b := a.(pairs := a.pairs[k := Flip(a.pairs[k])]);
      if j == 1 {
        assert ws[..1] == MarkWrites(t)[..1];
        SwapHalf(s, a, rest, k);
        NoFlip(b.pairs, k + 1);
      } else {
        assert ws[..j] == MarkWrites(t) + SwapWrites(t, k + 1)[..j - 2];
        ApplyAppend(s.flash, MarkWrites(t), SwapWrites(t, k + 1)[..j - 2]);
        SwapOne(s, a, rest, k);
        TornSwapRefines(KeyState(t, Apply(s.flash, MarkWrites(t))), b, rest, k + 1, j - 2);
      }
    } else {
      TornSwapRefines(s, a, rest, k + 1, j);
    }
  }

  lemma NoFlip(ps: seq<Pair>, k: nat)
    requires k <= |ps|
    ensures FlipSomeFrom(ps, k, 0) == ps
  {
  }

  // ---------------------------------------------------------------- steps and runs

  lemma AnyRolledSame(s: KeyState, a: Pairs, rest: Store)
    requires Represents(s, a, rest)
    ensures true in s.ram.rolled <==> AnyRolled(a.pairs)
  {
    RepresentsMeans(s, a, rest);
    if AnyRolled(a.pairs) {
      var i :| 0 <= i < |a.pairs| && a.pairs[i].rolled;
      assert s.ram.rolled[i];
    }
  }

  lemma StepRefines(s: KeyState, a: Pairs, rest: Store, op: Op)
    requires Represents(s, a, rest) && Legal(op)
    ensures Represents(Step(s, op), SpecStep(a, op), rest)
  {
    AnyRolledSame(s, a, rest);
    match op {
      case Rotate(k, v) => RotateRefines(s, a, rest, k, v);
      case Forward => Counted(s, a, rest, 0);
      case Failed =>
        if RollsBack(s.ram) {
          SwapRefines(s, a, rest, 0);
          assert FlipFrom(a.pairs, 0) == FlipAll(a.pairs);
          var t := KeyState(SwappedFrom(s.ram, 0), Apply(s.flash, SwapWrites(s.ram, 0)));
          Counted(t, a.(pairs := FlipAll(a.pairs)), rest, 0);
        } else {
          Counted(s, a, rest, s.ram.attempts + 1);
        }
    }
  }

  lemma Counted(s: KeyState, a: Pairs, rest: Store, n: nat)
    requires Represents(s, a, rest)
    ensures Represents(s.(ram := s.ram.(attempts := n)), a.(attempts := n), rest)
  {
    hide MarksText, KeyFile, Name;
    var t := s.(ram := s.ram.(attempts := n));
    forall k | 0 <= k < KEYS ensures Matches(t, a.pairs[k], k) {
      assert Matches(s, a.pairs[k], k);
    }
  }

  /** Power lost between any two flash writes of any operation. */
  lemma TornRefines(s: KeyState, a: Pairs, rest: Store, op: Op, j: nat)
    requires Represents(s, a, rest) && Legal(op) && j <= |Writes(s.ram, op)|
    ensures Represents(Torn(s, op, j), SpecTorn(a, op, j), rest)
  {
    hide Represents, Boot, SpecBoot, Reads, OnFlash, Others;
    RepresentsMeans(s, a, rest);
    match op {
      case Rotate(k, v) => TornRotateRefines(s, a, rest, k, v, j);
      case Forward => BootReads(s.flash, s.ram.current, s.ram.last, a.pairs, rest);
      case Failed =>
        if RollsBack(s.ram) {
          TornSwapRefines(s, a, rest, 0, j);
          assert FlipSomeFrom(a.pairs, 0, (j + 1) / 2) == FlipSome(a.pairs, (j + 1) / 2);
        } else {
          assert FlipSome(a.pairs, 0) == a.pairs;
          BootReads(s.flash, s.ram.current, s.ram.last, a.pairs, rest);
        }
    }
  }

  /** Over every run of rotations, connection failures, confirmations and power cuts, the value each key loads
      is the current one of its pair, a rolled key can go back to the previous one, and no other file changes. */
  lemma {:induction false} KeysRefinePairs(s: KeyState, a: Pairs, rest: Store, es: seq<Event>)
    requires Represents(s, a, rest) && Runs(s, es)
    ensures forall i :: 0 <= i < |es| ==> Legal(es[i].op)
    ensures Represents(Run(s, es), SpecRun(a, es), rest)
    decreases |es|
  {
    if es != [] {
      match es[0] {
        case Whole(op) => StepRefines(s, a, rest, op);
        case Cut(op, j) => TornRefines(s, a, rest, op, j);
      }
      hide Represents, SpecStep, Step, Torn, SpecTorn;
      KeysRefinePairs(After(s, es[0]), SpecAfter(a, es[0]), rest, es[1..]);
      assert forall i :: 0 < i < |es| ==> es[i] == es[1..][i - 1];
    }
  }

  // ---------------------------------------------------------------- failures

  function FlipTimes(ps: seq<Pair>, n: nat): (qs: seq<Pair>)
    ensures |qs| == |ps|
    decreases n
  {
    if n == 0 then ps else FlipTimes(FlipAll(ps), n - 1)
  }

  function Failures(n: nat): (es: seq<Event>)
    ensures |es| == n && forall i :: 0 <= i < n ==> es[i] == Whole(Failed)
  {
    if n == 0 then [] else [Whole(Failed)] + Failures(n - 1)
  }

  /** Starting from t failed attempts, n failures swap the rolled keys (t + n) div 3 times, all together. */
  lemma {:induction false} EveryThirdFailureSwaps(a: Pairs, n: nat, q: nat, r: nat)
    requires |a.pairs| == KEYS && AnyRolled(a.pairs) && a.attempts <= MAX_ATTEMPTS
    requires a.attempts + n == 3 * q + r && r < 3
    ensures SpecRun(a, Failures(n)) == Pairs(FlipTimes(a.pairs, q), r)
    decreases n
  {
    if n > 0 {
      assert Failures(n)[1..] == Failures(n - 1);
      var b := SpecStep(a, Failed);
      if a.attempts == MAX_ATTEMPTS {
        var i :| 0 <= i < |a.pairs| && a.pairs[i].rolled;
        assert b.pairs[i].rolled;
        EveryThirdFailureSwaps(b, n - 1, q - 1, r);
      } else {
        EveryThirdFailureSwaps(b, n - 1, q, r);
      }
    }
  }

  /** Two swaps undo each other. */
  lemma SwappingTwice(ps: seq<Pair>)
    ensures FlipAll(FlipAll(ps)) == ps
  {
  }
}
