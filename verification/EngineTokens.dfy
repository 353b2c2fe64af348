/** What a written sequence asks for, token by token: which delay, and which level of which port. */
module EngineTokens {
  import opened Pattern
  import opened Flash
  import opened Engine

  // Delays, and levels to wait for or to drive.
  datatype Instruction =
    | Tenths(n: nat) | Seconds(n: nat) | Minutes(n: nat)
    | Watch(name: char, high: bool)
    | Set(name: char, high: bool)

  const DIGITS := 5

  predicate Writable(x: Instruction) {
    match x
    case Tenths(n) => n < 65536
    case Seconds(n) => n <= 6553
    case Minutes(n) => n < 65536
    case _ => 'A' <= x.name <= 'Z'
  }

  lemma Fits()
    ensures Pow10(DIGITS) == 100000
  {
    assert Pow10(1) == 10 && Pow10(2) == 100 && Pow10(3) == 1000 && Pow10(4) == 10000;
  }

  // The argument after the colon.
  function Argument(x: Instruction): string
    requires Writable(x)
  {
    Fits();
    match x
    case Watch(_, high) => if high then "h" else "l"
    case Set(_, high) => if high then "H" else "L"
    case _ => Decimal(x.n, DIGITS)
  }

  function Key(x: Instruction): char {
    match x
    case Tenths(_) => '%'
    case Seconds(_) => '#'
    case Minutes(_) => '&'
    case _ => x.name
  }

  function Text(x: Instruction): string
    requires Writable(x)
  {
    [Key(x)] + ":" + Argument(x)
  }

  // The port of the first signal of that name; 255, which is no port, if there is none.
  predicate Wired(signals: seq<Signal>, name: char, port: nat) {
    || (exists i :: 0 <= i < |signals| && signals[i] == Signal(name, port)
                    && forall j :: 0 <= j < i ==> signals[j].name != name)
    || (port == 255 && forall i :: 0 <= i < |signals| ==> signals[i].name != name)
  }

  // What the engine is to do for an instruction; delays are in tenths of a second, minutes at most ten.
  predicate Meant(x: Instruction, signals: seq<Signal>, a: Action) {
    match x
    case Tenths(n) => a == Wait(n)
    case Seconds(n) => a == Wait(10 * n)
    case Minutes(n) => a == Wait(if n > 10 then 6000 else 600 * n)
    case Watch(name, high) => a.Sense? && a.level == (if high then 1 else 0) && Wired(signals, name, a.port)
    case Set(name, high) => a.Drive? && a.level == (if high then 1 else 0) && Wired(signals, name, a.port)
  }

  lemma {:induction false} PortOfIsWired(signals: seq<Signal>, name: char)
    ensures Wired(signals, name, PortOf(signals, name))
  {
    if signals != [] && signals[0].name != name {
      var rest, port := signals[1..], PortOf(signals, name);
      PortOfIsWired(rest, name);
      if i :| 0 <= i < |rest| && rest[i] == Signal(name, port) && forall j :: 0 <= j < i ==> rest[j].name != name {
        assert signals[i + 1] == Signal(name, port);
        assert forall j :: 0 < j < i + 1 ==> signals[j] == rest[j - 1];
      } else {
        assert forall i :: 0 < i < |signals| ==> signals[i] == rest[i - 1];
      }
    }
  }

  lemma ArgumentPlain(x: Instruction)
    requires Writable(x)
    ensures Argument(x) != "" && ':' !in Argument(x) && '|' !in Argument(x)
    ensures Key(x) != ':' && Key(x) != '|'
  {
    hide Decimal, Pow10;
    Fits();
    match x
    case Watch(_, _) =>
    case Set(_, _) =>
    case _ => assert forall c :: c in Decimal(x.n, DIGITS) ==> IsDigit(c);
  }

  // The two keys the second strtok finds.
  lemma KeysOf(x: Instruction)
    requires Writable(x)
    ensures Split(Text(x), ':') == [[Key(x)], Argument(x)]
  {
    ArgumentPlain(x);
    hide Argument, Key;
    assert Join([[Key(x)], Argument(x)], ':') == Text(x) by {
      assert Join([Argument(x)], ':') == Argument(x);
    }
    SplitOfJoin([[Key(x)], Argument(x)], ':');
  }

  lemma DelayMeant(x: Instruction, signals: seq<Signal>, id: nat, pattern: string)
    requires Writable(x) && !x.Watch? && !x.Set?
    ensures Meant(x, signals, Resolve(Job(id, pattern, signals), Text(x)))
  {
    hide Split, Decimal, Numeral;
    KeysOf(x);
    Fits();
    ArgumentPlain(x);
    NumeralOfDecimal(x.n, DIGITS);
  }

  lemma SignalMeant(x: Instruction, signals: seq<Signal>, id: nat, pattern: string)
    requires Writable(x) && (x.Watch? || x.Set?)
    ensures Meant(x, signals, Resolve(Job(id, pattern, signals), Text(x)))
  {
    hide Split, Decimal, PortOf, Wired;
    KeysOf(x);
    PortOfIsWired(signals, x.name);
  }

  /** No other token asks for anything: it needs a second key, and a delay's sign or a capital letter before it. */
  lemma StuckIff(job: Job, event: string)
    ensures Resolve(job, event).Stuck?
       <==> |Split(event, ':')| < 2
            || !(event[0] == '%' || event[0] == '#' || event[0] == '&' || 'A' <= event[0] <= 'Z')
  {
    hide Split, ScaleHms, Numeral, PortOf, Dir, Level;
    SplitIsPlain(event, ':');
    NoKeys();
  }

  lemma NoKeys()
    ensures Split("", ':') == []
  {
  }

  function Texts(xs: seq<Instruction>): (ts: seq<string>)
    requires forall i :: 0 <= i < |xs| ==> Writable(xs[i])
    ensures |ts| == |xs| && forall i :: 0 <= i < |xs| ==> ts[i] == Text(xs[i])
  {
    seq(|xs|, i requires 0 <= i < |xs| => Text(xs[i]))
  }

  /** A pattern written from a list of instructions is that list of actions: each delay in tenths of a second, each
      level watched for or driven on the port that the machine's first signal of that name is wired to. */
  lemma ScriptIsMeant(xs: seq<Instruction>, signals: seq<Signal>, id: nat)
    requires forall i :: 0 <= i < |xs| ==> Writable(xs[i])
    ensures var script := Script(Job(id, Join(Texts(xs), '|'), signals));
      |script| == |xs| && forall i :: 0 <= i < |xs| ==> Meant(xs[i], signals, script[i])
  {
    hide Split, Text, Resolve, Meant, Writable;
    var ts := Texts(xs);
    forall i | 0 <= i < |ts| ensures Plain(ts[i], '|') { TextPlain(xs[i]); }
    SplitOfJoin(ts, '|');
    var pattern := Join(ts, '|');
    forall i | 0 <= i < |xs| ensures Meant(xs[i], signals, Script(Job(id, pattern, signals))[i]) {
      match xs[i] {
        case Watch(_, _) => SignalMeant(xs[i], signals, id, pattern);
        case Set(_, _) => SignalMeant(xs[i], signals, id, pattern);
        case _ => DelayMeant(xs[i], signals, id, pattern);
      }
    }
  }

  lemma TextPlain(x: Instruction)
    requires Writable(x)
    ensures Plain(Text(x), '|')
  {
    ArgumentPlain(x);
    hide Argument, Key;
  }
}
