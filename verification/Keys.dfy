/** Key rotation with rollback (src/registration.c): every key has two flash slots, a current and a last mark
    that say which slot and which version, and both tables of marks are saved. It refines a pair of values. */
module Keys {
  import opened Base64
  import opened Pattern
  import opened Flash
  import opened Machine

  const KEYS := 11         // HELPME_CMD
  const MAX_ATTEMPTS := 2  // MAX_ROTATIONS_ATTEMPTS
  const CURRENT_FILE := "keybuf"
  const LAST_FILE := "keylast"

  const COMMANDS: seq<string> :=
    ["devzid", "ioturl", "sysstg", "hubzid", "ecckey", "ecccrt", "awscrt", "apssid", "appswd", "updkey", "mapidx"]

  // drv_key_storage
  datatype Mark = Mark(slot: Byte, version: Byte)

  predicate ValidMarks(m: seq<Mark>) {
    |m| == KEYS && forall k :: 0 <= k < KEYS ==> m[k].slot < 2
  }

  function NoMarks(): (m: seq<Mark>)
    ensures ValidMarks(m)
  {
    seq(KEYS, _ => Mark(0, 0))
  }

  // assemble_key_name; slot 0 keeps the plain name.
  function Name(k: nat, slot: Byte): string
    requires k < KEYS && slot < 2
  {
    if slot == 0 then COMMANDS[k] else COMMANDS[k] + "-01"
  }

  predicate KeyFile(name: string) {
    name == CURRENT_FILE || name == LAST_FILE
    || exists k, slot :: 0 <= k < KEYS && 0 <= slot < 2 && name == Name(k, slot)
  }

  // ---------------------------------------------------------------- marks as bytes

  const MARK_BYTES := 8

  function MarksBytes(m: seq<Mark>): (b: seq<Byte>)
    ensures |b| == MARK_BYTES * |m|
  {
    if m == [] then [] else [m[0].slot, 0, 0, 0, m[0].version, 0, 0, 0] + MarksBytes(m[1..])
  }

  function MarksOf(b: seq<Byte>, n: nat): (m: seq<Mark>)
    requires |b| == MARK_BYTES * n
    ensures |m| == n
  {
    if n == 0 then [] else [Mark(b[0], b[4])] + MarksOf(b[8..], n - 1)
  }

  lemma {:induction false} MarksRoundTrip(m: seq<Mark>)
    ensures MarksOf(MarksBytes(m), |m|) == m
  {
    if m != [] {
      assert MarksBytes(m)[8..] == MarksBytes(m[1..]);
      MarksRoundTrip(m[1..]);
    }
  }

  function MarksText(m: seq<Mark>): string {
    Encode(MarksBytes(m))
  }

  function LoadMarks(text: string): (m: seq<Mark>)
    ensures |m| == KEYS
  {
    MarksOf(LoadInto(text, MARK_BYTES * KEYS), KEYS)
  }

  lemma SavedMarks(m: seq<Mark>)
    requires |m| == KEYS
    ensures LoadMarks(MarksText(m)) == m
  {
    LoadEncoded(MarksBytes(m));
    MarksRoundTrip(m);
  }

  // ---------------------------------------------------------------- the state and its operations

  // The RAM tables and the counter of failed connections.
  datatype Ram = Ram(current: seq<Mark>, last: seq<Mark>, rolled: seq<bool>, attempts: nat)
  datatype KeyState = KeyState(ram: Ram, flash: Store)

  predicate ValidRam(s: Ram) {
    ValidMarks(s.current) && ValidMarks(s.last) && |s.rolled| == KEYS
  }

  datatype Write = Write(name: string, text: string)

  function Apply(f: Store, ws: seq<Write>): Store
    decreases |ws|
  {
    if ws == [] then f else Apply(f[ws[0].name := ws[0].text], ws[1..])
  }

  function Max(x: Byte, y: Byte): Byte {
    if x > y then x else y
  }

  function NewVersion(s: Ram, k: nat): Byte
    requires ValidRam(s) && k < KEYS
  {
    (Max(s.last[k].version, s.current[k].version) + 1) % 256
  }

  // rotate_key: the marks it leaves, and its three flash writes in order.
  function Rotated(s: Ram, k: nat): (t: Ram)
    requires ValidRam(s) && k < KEYS
    ensures ValidRam(t)
  {
    var slot := if s.current[k].slot == 0 then 1 else 0;
    s.(last := s.last[k := s.current[k]],
       current := s.current[k := Mark(slot, NewVersion(s, k))],
       rolled := s.rolled[k := true])
  }

  function MarkWrites(s: Ram): (ws: seq<Write>)
    ensures |ws| == 2
  {
    [Write(CURRENT_FILE, MarksText(s.current)), Write(LAST_FILE, MarksText(s.last))]
  }

  function RotateWrites(s: Ram, k: nat, value: string): seq<Write>
    requires ValidRam(s) && k < KEYS
  {
    [Write(Name(k, Rotated(s, k).current[k].slot), value)] + MarkWrites(Rotated(s, k))
  }

  // rolback_key
  function Swapped(s: Ram, k: nat): (t: Ram)
    requires ValidRam(s) && k < KEYS
    ensures ValidRam(t)
  {
    s.(last := s.last[k := s.current[k]], current := s.current[k := s.last[k]])
  }

  // The rollback loop of role_forward_failed from key k on.
  function SwappedFrom(s: Ram, k: nat): (t: Ram)
    requires ValidRam(s) && k <= KEYS
    ensures ValidRam(t)
    decreases KEYS - k
  {
    if k == KEYS then s else SwappedFrom(if s.rolled[k] then Swapped(s, k) else s, k + 1)
  }

  function SwapWrites(s: Ram, k: nat): seq<Write>
    requires ValidRam(s) && k <= KEYS
    decreases KEYS - k
  {
    if k == KEYS then []
    else if s.rolled[k] then MarkWrites(Swapped(s, k)) + SwapWrites(Swapped(s, k), k + 1)
    else SwapWrites(s, k + 1)
  }

  // initialize_keys_buffers on a start.
  function Boot(f: Store): KeyState {
    var found := CURRENT_FILE in f;
    var current := if found then LoadMarks(f[CURRENT_FILE]) else NoMarks();
    var last := if LAST_FILE in f then LoadMarks(f[LAST_FILE]) else NoMarks();
    KeyState(Ram(current, last, seq(KEYS, _ => false), 0),
             if found then f else f[CURRENT_FILE := MarksText(NoMarks())])
  }

  datatype Op =
    | Rotate(key: nat, value: string)
    | Failed   // the connection failed
    | Forward  // a rotation was confirmed

  predicate Legal(op: Op) {
    op.Rotate? ==> op.key < KEYS
  }

  predicate RollsBack(s: Ram) {
    true in s.rolled && s.attempts >= MAX_ATTEMPTS
  }

  // The RAM after the operation.
  function Next(s: Ram, op: Op): (t: Ram)
    requires ValidRam(s) && Legal(op)
    ensures ValidRam(t)
  {
    match op
    case Rotate(k, _) => Rotated(s, k)
    case Forward => s.(attempts := 0)
    case Failed =>
      if true !in s.rolled then s
      else if s.attempts < MAX_ATTEMPTS then s.(attempts := s.attempts + 1)
      else SwappedFrom(s, 0).(attempts := 0)
  }

  // What the operation writes to flash, in order.
  function Writes(s: Ram, op: Op): seq<Write>
    requires ValidRam(s) && Legal(op)
  {
    match op
    case Rotate(k, v) => RotateWrites(s, k, v)
    case Forward => []
    case Failed => if RollsBack(s) then SwapWrites(s, 0) else []
  }

  function Step(s: KeyState, op: Op): (t: KeyState)
    requires ValidRam(s.ram) && Legal(op)
    ensures ValidRam(t.ram)
  {
    KeyState(Next(s.ram, op), Apply(s.flash, Writes(s.ram, op)))
  }

  // Power lost after the first j writes of the operation, and started again.
  function Torn(s: KeyState, op: Op, j: nat): KeyState
    requires ValidRam(s.ram) && Legal(op) && j <= |Writes(s.ram, op)|
  {
    Boot(Apply(s.flash, Writes(s.ram, op)[..j]))
  }

  // ---------------------------------------------------------------- what it should be: pairs of values

  // previous counts only while the key is rolled, that is, rotated since the last start.
  datatype Pair = Pair(current: Option<string>, previous: Option<string>, rolled: bool)
  datatype Pairs = Pairs(pairs: seq<Pair>, attempts: nat)

  function Flip(p: Pair): Pair {
    if p.rolled then Pair(p.previous, p.current, true) else p
  }

  // The first m rolled keys from k on are flipped.
  function FlipSome(ps: seq<Pair>, m: nat): (qs: seq<Pair>)
    ensures |qs| == |ps|
  {
    if ps == [] || m == 0 then ps
    else [Flip(ps[0])] + FlipSome(ps[1..], if ps[0].rolled then m - 1 else m)
  }

  function FlipAll(ps: seq<Pair>): seq<Pair> {
    seq(|ps|, i requires 0 <= i < |ps| => Flip(ps[i]))
  }

  predicate AnyRolled(ps: seq<Pair>) {
    exists i :: 0 <= i < |ps| && ps[i].rolled
  }

  function SpecStep(a: Pairs, op: Op): (b: Pairs)
    requires |a.pairs| == KEYS && Legal(op)
    ensures |b.pairs| == KEYS
  {
    match op
    case Rotate(k, v) => a.(pairs := a.pairs[k := Pair(Some(v), a.pairs[k].current, true)])
    case Forward => a.(attempts := 0)
    case Failed =>
      if !AnyRolled(a.pairs) then a
      else if a.attempts < MAX_ATTEMPTS then a.(attempts := a.attempts + 1)
      else Pairs(FlipAll(a.pairs), 0)
  }

  function Settle(p: Pair): Pair {
    Pair(p.current, None, false)
  }

  function SpecBoot(ps: seq<Pair>): Pairs {
    Pairs(seq(|ps|, i requires 0 <= i < |ps| => Settle(ps[i])), 0)
  }

  // A torn rotation has happened once the table of current marks is written; a torn rollback has happened for
  // as many keys as that table was written for.
  function SpecTorn(a: Pairs, op: Op, j: nat): (b: Pairs)
    requires |a.pairs| == KEYS && Legal(op)
    ensures |b.pairs| == KEYS
  {
    match op
    case Rotate(k, v) => SpecBoot(if j < 2 then a.pairs else SpecStep(a, op).pairs)
    case Forward => SpecBoot(a.pairs)
    case Failed => SpecBoot(FlipSome(a.pairs, (j + 1) / 2))
  }

  // ---------------------------------------------------------------- how the two correspond

  // Key k of the pairs, read through its marks.
  ghost predicate Matches(s: KeyState, p: Pair, k: nat)
    requires ValidRam(s.ram) && k < KEYS
  {
    && At(s.flash, Name(k, s.ram.current[k].slot)) == p.current
    && s.ram.rolled[k] == p.rolled
    && (p.rolled ==> s.ram.last[k].slot != s.ram.current[k].slot
                     && At(s.flash, Name(k, s.ram.last[k].slot)) == p.previous)
  }

  ghost predicate Saved(s: KeyState) {
    && At(s.flash, CURRENT_FILE) == Some(MarksText(s.ram.current))
    && (At(s.flash, LAST_FILE) == Some(MarksText(s.ram.last)) || (LAST_FILE !in s.flash && s.ram.last == NoMarks()))
  }

  ghost predicate Others(f: Store, rest: Store) {
    forall name | !KeyFile(name) :: At(f, name) == At(rest, name)
  }

  ghost predicate Represents(s: KeyState, a: Pairs, rest: Store) {
    && ValidRam(s.ram) && |a.pairs| == KEYS && s.ram.attempts == a.attempts
    && (forall k :: 0 <= k < KEYS ==> Matches(s, a.pairs[k], k))
    && Saved(s) && Others(s.flash, rest)
  }

  // ---------------------------------------------------------------- runs

  datatype Event = Whole(op: Op) | Cut(op: Op, j: nat)

  ghost predicate Runs(s: KeyState, es: seq<Event>)
    decreases |es|
  {
    es == [] ||
    (&& ValidRam(s.ram) && Legal(es[0].op) && (es[0].Cut? ==> es[0].j <= |Writes(s.ram, es[0].op)|)
     && Runs(After(s, es[0]), es[1..]))
  }

  function After(s: KeyState, e: Event): KeyState
    requires ValidRam(s.ram) && Legal(e.op) && (e.Cut? ==> e.j <= |Writes(s.ram, e.op)|)
  {
    match e
    case Whole(op) => Step(s, op)
    case Cut(op, j) => Torn(s, op, j)
  }

  ghost function Run(s: KeyState, es: seq<Event>): KeyState
    requires Runs(s, es)
    decreases |es|
  {
    if es == [] then s else Run(After(s, es[0]), es[1..])
  }

  function SpecAfter(a: Pairs, e: Event): (b: Pairs)
    requires |a.pairs| == KEYS && Legal(e.op)
    ensures |b.pairs| == KEYS
  {
    match e
    case Whole(op) => SpecStep(a, op)
    case Cut(op, j) => SpecTorn(a, op, j)
  }

  function SpecRun(a: Pairs, es: seq<Event>): (b: Pairs)
    requires |a.pairs| == KEYS && forall i :: 0 <= i < |es| ==> Legal(es[i].op)
    ensures |b.pairs| == KEYS
    decreases |es|
  {
    if es == [] then a else SpecRun(SpecAfter(a, es[0]), es[1..])
  }
}
