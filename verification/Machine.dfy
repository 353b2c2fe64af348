/** A machine as the hub keeps it (include/machines.h), and the texts its two halves are saved as. */
module Machine {
  import opened Base64
  import opened Base64Proofs

  // ---------------------------------------------------------------- entities

  datatype Hab = Disabled | Enabled
  datatype Idle = IsRunning | IsIdle
  datatype Control = NoControl | HubControl | TxnControl
  datatype Change = SameSequence | NewSequence

  // machines_flags_t; the action is the text before the terminating NUL.
  datatype Flags = Flags(allowed: Hab, idle: Idle, control: Control, changed: Change, action: string)

  datatype Signal = Signal(name: Byte, port: Byte)

  const MAX_SIGNALS := 2
  const NAME_BYTES := 9
  const PROGRAM_BYTES := 1156 // 16 sequences of 72 bytes and the four counts

  // machines_static_information_t: resource name, signals of both targets, the sequence tables, and the
  // dirty mark of the other half, which sits in this one.
  datatype Static = Static(resource: Byte, resourceSignals: seq<Signal>, retrofitSignals: seq<Signal>,
                           nofResource: Byte, nofRetrofit: Byte, program: seq<Byte>, flagsChanged: bool)

  datatype Machine = Machine(info: Static, flags: Flags)

  predicate ValidFlags(f: Flags) {
    |f.action| < NAME_BYTES && forall i :: 0 <= i < |f.action| ==> 0 < f.action[i] as int < 256
  }

  predicate ValidStatic(s: Static) {
    && |s.resourceSignals| == MAX_SIGNALS && |s.retrofitSignals| == MAX_SIGNALS
    && s.nofResource <= MAX_SIGNALS && s.nofRetrofit <= MAX_SIGNALS && |s.program| == PROGRAM_BYTES
  }

  predicate ValidMachine(m: Machine) {
    ValidStatic(m.info) && ValidFlags(m.flags)
  }

  // The ports a machine occupies, of its resource and its retrofit together.
  function Ports(s: Static): set<Byte>
    requires ValidStatic(s)
  {
    (set i | 0 <= i < s.nofResource :: s.resourceSignals[i].port)
    + (set i | 0 <= i < s.nofRetrofit :: s.retrofitSignals[i].port)
  }

  // ---------------------------------------------------------------- as bytes

  function Zeros(n: nat): (b: seq<Byte>)
    ensures |b| == n
  {
    seq(n, _ => 0)
  }

  // A four-byte little-endian enumeration.
  function EnumBytes(v: Byte): (b: seq<Byte>)
    ensures |b| == 4 && b[0] == v
  {
    [v, 0, 0, 0]
  }

  function NameBytes(s: string): (b: seq<Byte>)
    requires |s| < NAME_BYTES && forall i :: 0 <= i < |s| ==> 0 < s[i] as int < 256
    ensures |b| == NAME_BYTES
    ensures forall i :: 0 <= i < NAME_BYTES ==> b[i] == if i < |s| then s[i] as int else 0
  {
    seq(NAME_BYTES, i requires 0 <= i < NAME_BYTES => if i < |s| then s[i] as int else 0)
  }

  // The characters before the first NUL.
  function NameOf(b: seq<Byte>): (s: string)
    ensures |s| <= |b|
  {
    if b == [] || b[0] == 0 then "" else [b[0] as char] + NameOf(b[1..])
  }

  lemma {:induction false} NameRoundTrip(s: string, b: seq<Byte>)
    requires |s| < |b| && b[|s|] == 0
    requires forall i :: 0 <= i < |s| ==> 0 < s[i] as int < 256 && b[i] == s[i] as int
    ensures NameOf(b) == s
  {
    if s != "" { NameRoundTrip(s[1..], b[1..]); }
  }

  const FLAGS_BYTES := 28

  function FlagsBytes(f: Flags): (b: seq<Byte>)
    requires ValidFlags(f)
    ensures |b| == FLAGS_BYTES
  {
    EnumBytes(if f.allowed == Enabled then 1 else 0)
    + EnumBytes(if f.idle == IsIdle then 1 else 0)
    + EnumBytes(match f.control case NoControl => 0 case HubControl => 1 case TxnControl => 2)
    + EnumBytes(if f.changed == NewSequence then 1 else 0)
    + NameBytes(f.action) + Zeros(3)
  }

  function FlagsOf(b: seq<Byte>): Flags
    requires |b| == FLAGS_BYTES
  {
    Flags(if b[0] == 0 then Disabled else Enabled,
          if b[4] == 0 then IsRunning else IsIdle,
          if b[8] == 0 then NoControl else if b[8] == 1 then HubControl else TxnControl,
          if b[12] == 0 then SameSequence else NewSequence,
          NameOf(b[16..25]))
  }

  lemma FlagsRoundTrip(f: Flags)
    requires ValidFlags(f)
    ensures FlagsOf(FlagsBytes(f)) == f
  {
    assert FlagsBytes(f)[16..25] == NameBytes(f.action);
    NameRoundTrip(f.action, NameBytes(f.action));
  }

  function SignalBytes(s: seq<Signal>): (b: seq<Byte>)
    requires |s| == MAX_SIGNALS
    ensures |b| == 4
  {
    [s[0].name, s[0].port, s[1].name, s[1].port]
  }

  function SignalsOf(b: seq<Byte>): (s: seq<Signal>)
    requires |b| == 4
    ensures |s| == MAX_SIGNALS
  {
    [Signal(b[0], b[1]), Signal(b[2], b[3])]
  }

  const STATIC_BYTES := 1172

  function StaticBytes(s: Static): (b: seq<Byte>)
    requires ValidStatic(s)
    ensures |b| == STATIC_BYTES
  {
    [s.resource] + SignalBytes(s.resourceSignals) + SignalBytes(s.retrofitSignals)
    + [s.nofResource, s.nofRetrofit, 0] + s.program
    + [if s.flagsChanged then 1 else 0, 0, 0, 0]
  }

  function StaticOf(b: seq<Byte>): (s: Static)
    requires |b| == STATIC_BYTES
  {
    Static(b[0], SignalsOf(b[1..5]), SignalsOf(b[5..9]), b[9], b[10], b[12..1168], b[1168] != 0)
  }

  lemma StaticRoundTrip(s: Static)
    requires ValidStatic(s)
    ensures StaticOf(StaticBytes(s)) == s
  {
    var b := StaticBytes(s);
    assert b[1..5] == SignalBytes(s.resourceSignals);
    assert b[5..9] == SignalBytes(s.retrofitSignals);
    assert b[12..1168] == s.program;
  }

  // ---------------------------------------------------------------- as texts

  function FlagsText(f: Flags): string
    requires ValidFlags(f)
  {
    Encode(FlagsBytes(f))
  }

  function StaticText(s: Static): string
    requires ValidStatic(s)
  {
    Encode(StaticBytes(s))
  }

  // Decoding a file into a structure that calloc has zeroed; a text that does not fit leaves it zeroed.
  function LoadInto(text: string, size: nat): (b: seq<Byte>)
    ensures |b| == size
  {
    if Decodable(text) && Needed(text) <= size then Overlay(text, Zeros(size)) else Zeros(size)
  }

  function LoadFlags(text: string): Flags {
    FlagsOf(LoadInto(text, FLAGS_BYTES))
  }

  function LoadStatic(text: string): Static {
    StaticOf(LoadInto(text, STATIC_BYTES))
  }

  lemma LoadEncoded(b: seq<Byte>)
    ensures LoadInto(Encode(b), |b|) == b
  {
    OverlayRestores(b, Zeros(|b|));
  }

  /** What is read back from a saved file is what was saved. */
  lemma SavedFlags(f: Flags)
    requires ValidFlags(f)
    ensures LoadFlags(FlagsText(f)) == f
  {
    LoadEncoded(FlagsBytes(f));
    FlagsRoundTrip(f);
  }

  lemma SavedStatic(s: Static)
    requires ValidStatic(s)
    ensures LoadStatic(StaticText(s)) == s
  {
    LoadEncoded(StaticBytes(s));
    StaticRoundTrip(s);
  }
}
