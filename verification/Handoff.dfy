/** The hand-off of messages between tasks (src/msg_fmt.c): five channels each way, a lock per channel that is
    held exactly while a message waits, and one task per direction that visits the channels in turn. */
module Handoff {
  const CHANNELS := 5 // NOF_MSG_CHANNELS

  datatype Mail = Mail(channel: nat, text: string)

  // One direction. marking: the lock is taken and the text is in place, but the status flag is not yet up.
  // taken and passed are the history: what got the lock, and what was handed on.
  datatype Box = Box(inbound: bool, locked: seq<bool>, marking: seq<bool>, status: seq<bool>, text: seq<string>,
                     turn: nat, taken: seq<Mail>, passed: seq<Mail>)

  predicate Sized(b: Box) {
    && |b.locked| == CHANNELS && |b.marking| == CHANNELS && |b.status| == CHANNELS && |b.text| == CHANNELS
    && b.turn < CHANNELS
  }

  // msg_fmt_raw_cb up to the callback that raises the status flag; valid stands for the checks on the payload.
  function Arrive(b: Box, k: nat, payload: string, valid: bool): (c: Box)
    requires Sized(b) && k < CHANNELS
    ensures Sized(c)
  {
    if b.locked[k] || !valid then b
    else b.(text := b.text[k := payload], locked := b.locked[k := true], marking := b.marking[k := true],
            taken := b.taken + [Mail(k, payload)])
  }

  // The second half of msg_fmt_raw_cb and of msg_fmt_send.
  function Mark(b: Box, k: nat): (c: Box)
    requires Sized(b) && k < CHANNELS
    ensures Sized(c)
  {
    if b.marking[k] then b.(marking := b.marking[k := false], status := b.status[k := true]) else b
  }

  // msg_fmt_load refuses while the channel is sending.
  function Load(b: Box, k: nat, template: string): (c: Box)
    requires Sized(b) && k < CHANNELS
    ensures Sized(c)
  {
    if b.locked[k] then b else b.(text := b.text[k := template])
  }

  // The edits of a loaded message; nothing guards them.
  function Edit(b: Box, k: nat, text: string): (c: Box)
    requires Sized(b) && k < CHANNELS
    ensures Sized(c)
  {
    b.(text := b.text[k := text])
  }

  // The first half of msg_fmt_send.
  function Send(b: Box, k: nat): (c: Box)
    requires Sized(b) && k < CHANNELS
    ensures Sized(c)
  {
    if b.locked[k] then b
    else b.(locked := b.locked[k := true], marking := b.marking[k := true], taken := b.taken + [Mail(k, b.text[k])])
  }

  // msg_fmt_i_update and msg_fmt_o_update; only the inbound one empties the buffer.
  function Update(b: Box): (c: Box)
    requires Sized(b)
    ensures Sized(c)
  {
    var k := b.turn;
    var n := if k + 1 == CHANNELS then 0 else k + 1;
    if !b.status[k] then b.(turn := n)
    else b.(passed := b.passed + [Mail(k, b.text[k])], status := b.status[k := false], locked := b.locked[k := false],
            text := if b.inbound then b.text[k := ""] else b.text, turn := n)
  }

  datatype Op =
    | DoArrive(channel: nat, payload: string, valid: bool)
    | DoLoad(channel: nat, template: string)
    | DoEdit(channel: nat, text: string)
    | DoSend(channel: nat)
    | DoMark(channel: nat)
    | DoUpdate

  // Channels exist, and a message is edited only between loading and sending it.
  predicate Legal(b: Box, op: Op)
    requires Sized(b)
  {
    match op
    case DoUpdate => true
    case DoEdit(k, _) => k < CHANNELS && !b.locked[k]
    case _ => op.channel < CHANNELS
  }

  function Step(b: Box, op: Op): (c: Box)
    requires Sized(b) && Legal(b, op)
    ensures Sized(c)
  {
    match op
    case DoArrive(k, p, valid) => Arrive(b, k, p, valid)
    case DoLoad(k, t) => Load(b, k, t)
    case DoEdit(k, t) => Edit(b, k, t)
    case DoSend(k) => Send(b, k)
    case DoMark(k) => Mark(b, k)
    case DoUpdate => Update(b)
  }

  ghost predicate LegalRun(b: Box, ops: seq<Op>)
    requires Sized(b)
    decreases |ops|
  {
    ops == [] || (Legal(b, ops[0]) && LegalRun(Step(b, ops[0]), ops[1..]))
  }

  ghost function Run(b: Box, ops: seq<Op>): (c: Box)
    requires Sized(b) && LegalRun(b, ops)
    ensures Sized(c)
    decreases |ops|
  {
    if ops == [] then b else Run(Step(b, ops[0]), ops[1..])
  }

  // The texts of channel k.
  function Of(ms: seq<Mail>, k: nat): seq<string> {
    if ms == [] then []
    else Of(ms[..|ms| - 1], k) + if ms[|ms| - 1].channel == k then [ms[|ms| - 1].text] else []
  }

  lemma OfAppend(ms: seq<Mail>, m: Mail, k: nat)
    ensures Of(ms + [m], k) == Of(ms, k) + if m.channel == k then [m.text] else []
  {
    assert (ms + [m])[..|ms|] == ms;
  }

  // Channel k: locked exactly while a message waits, and everything that got the lock was handed on but that one.
  ghost predicate Sound(b: Box, k: nat)
    requires Sized(b) && k < CHANNELS
  {
    && (b.locked[k] <==> b.status[k] || b.marking[k]) && !(b.status[k] && b.marking[k])
    && Of(b.taken, k) == Of(b.passed, k) + if b.locked[k] then [b.text[k]] else []
  }

  lemma StepSound(b: Box, op: Op, k: nat)
    requires Sized(b) && Legal(b, op) && k < CHANNELS && Sound(b, k)
    ensures Sound(Step(b, op), k)
    ensures b.locked[k] && Step(b, op).locked[k] ==>
      Step(b, op).text[k] == b.text[k] && Of(Step(b, op).taken, k) == Of(b.taken, k)
  {
    hide Of;
    match op {
      case DoArrive(j, p, valid) => OfAppend(b.taken, Mail(j, p), k);
      case DoSend(j) => OfAppend(b.taken, Mail(j, b.text[j]), k);
      case DoUpdate => OfAppend(b.passed, Mail(b.turn, b.text[b.turn]), k);
      case _ =>
    }
  }

  /** In every run, on every channel, the messages that got the lock are those handed on, unmodified and in
      order, followed by the one that waits, if any. */
  lemma {:induction false} NothingLostOrTwice(b: Box, ops: seq<Op>, k: nat)
    requires Sized(b) && LegalRun(b, ops) && k < CHANNELS && Sound(b, k)
    ensures Sound(Run(b, ops), k)
    decreases |ops|
  {
    if ops != [] {
      StepSound(b, ops[0], k);
      hide Sound, Step;
      NothingLostOrTwice(Step(b, ops[0]), ops[1..], k);
    }
  }

  function Updates(ops: seq<Op>): nat {
    if ops == [] then 0 else (if ops[0].DoUpdate? then 1 else 0) + Updates(ops[1..])
  }

  // How many channels are visited before k.
  function Distance(b: Box, k: nat): (d: nat)
    requires Sized(b) && k < CHANNELS
    ensures d < CHANNELS
  {
    if b.turn <= k then k - b.turn else k + CHANNELS - b.turn
  }

  lemma PassedGrows(b: Box, op: Op, k: nat)
    requires Sized(b) && Legal(b, op) && k < CHANNELS
    ensures Of(b.passed, k) <= Of(Step(b, op).passed, k)
  {
    if op.DoUpdate? { OfAppend(b.passed, Mail(b.turn, b.text[b.turn]), k); }
  }

  lemma {:induction false} RunPassedGrows(b: Box, ops: seq<Op>, k: nat)
    requires Sized(b) && LegalRun(b, ops) && k < CHANNELS
    ensures Of(b.passed, k) <= Of(Run(b, ops).passed, k)
    decreases |ops|
  {
    if ops != [] {
      PassedGrows(b, ops[0], k);
      hide Step, Of;
      RunPassedGrows(Step(b, ops[0]), ops[1..], k);
    }
  }

  lemma StepWaits(b: Box, op: Op, k: nat)
    requires Sized(b) && Legal(b, op) && k < CHANNELS && b.status[k] && Sound(b, k)
    ensures if op.DoUpdate? && b.turn == k then Of(Step(b, op).passed, k) == Of(b.taken, k)
            else Step(b, op).status[k] && Of(Step(b, op).taken, k) == Of(b.taken, k)
                 && Distance(Step(b, op), k) == Distance(b, k) - if op.DoUpdate? then 1 else 0
  {
    hide Of;
    StepSound(b, op, k);
    if op.DoUpdate? { OfAppend(b.passed, Mail(b.turn, b.text[b.turn]), k); }
  }

  /** A message whose flag is up is handed on within five turns of the visiting task, whatever else happens. */
  lemma {:induction false} PassedWithinFive(b: Box, ops: seq<Op>, k: nat)
    requires Sized(b) && LegalRun(b, ops) && k < CHANNELS && b.status[k] && Sound(b, k)
    requires Updates(ops) > Distance(b, k)
    ensures Of(b.taken, k) <= Of(Run(b, ops).passed, k)
    decreases |ops|
  {
    StepWaits(b, ops[0], k);
    StepSound(b, ops[0], k);
    hide Sound, Step, Of, Legal;
    var c := Step(b, ops[0]);
    if ops[0].DoUpdate? && b.turn == k {
      RunPassedGrows(c, ops[1..], k);
    } else {
      PassedWithinFive(c, ops[1..], k);
    }
  }

  // The waiting message is the last of these, or all of these have been passed.
  ghost predicate OnItsWay(b: Box, k: nat, texts: seq<string>)
    requires Sized(b) && k < CHANNELS
  {
    texts <= Of(b.passed, k) || (b.locked[k] && Of(b.taken, k) == texts)
  }

  lemma StepOnItsWay(b: Box, op: Op, k: nat, texts: seq<string>)
    requires Sized(b) && Legal(b, op) && k < CHANNELS && Sound(b, k) && OnItsWay(b, k, texts)
    ensures OnItsWay(Step(b, op), k, texts)
    ensures op == DoMark(k) ==> texts <= Of(Step(b, op).passed, k)
                                || (Step(b, op).status[k] && Of(Step(b, op).taken, k) == texts)
  {
    hide Of;
    PassedGrows(b, op, k);
    StepSound(b, op, k);
    if op.DoUpdate? { OfAppend(b.passed, Mail(b.turn, b.text[b.turn]), k); }
  }

  lemma {:induction false} MarkedIsPassed(b: Box, ops: seq<Op>, m: nat, k: nat, texts: seq<string>)
    requires Sized(b) && LegalRun(b, ops) && k < CHANNELS && Sound(b, k) && OnItsWay(b, k, texts)
    requires m < |ops| && ops[m] == DoMark(k) && Updates(ops[m + 1..]) >= CHANNELS
    ensures texts <= Of(Run(b, ops).passed, k)
    decreases |ops|
  {
    StepOnItsWay(b, ops[0], k, texts);
    StepSound(b, ops[0], k);
    hide Sound, Step, Of, Legal, OnItsWay;
    var c := Step(b, ops[0]);
    if m > 0 {
      assert ops[1..][m..] == ops[m + 1..];
      MarkedIsPassed(c, ops[1..], m - 1, k, texts);
    } else if texts <= Of(c.passed, k) {
      RunPassedGrows(c, ops[1..], k);
    } else {
      PassedWithinFive(c, ops[1..], k);
    }
  }

  /** No message that is accepted is lost: an arrival on a free channel, or a send of what was loaded there, is handed
      on, after everything accepted there before it, once its flag has been raised and the visiting task has had five
      more turns, whatever else happens before and after. */
  lemma AcceptedIsPassed(b: Box, k: nat, op: Op, ops: seq<Op>, m: nat)
    requires Sized(b) && k < CHANNELS && Sound(b, k) && !b.locked[k]
    requires (op.DoArrive? && op.channel == k && op.valid) || op == DoSend(k)
    requires Legal(b, op) && LegalRun(Step(b, op), ops)
    requires m < |ops| && ops[m] == DoMark(k) && Updates(ops[m + 1..]) >= 5
    ensures Of(b.taken, k) + [if op.DoSend? then b.text[k] else op.payload] <= Of(Run(Step(b, op), ops).passed, k)
  {
    var p := if op.DoSend? then b.text[k] else op.payload;
    OfAppend(b.taken, Mail(k, p), k);
    StepSound(b, op, k);
    hide Sound, Of;
    MarkedIsPassed(Step(b, op), ops, m, k, Of(b.taken, k) + [p]);
  }

  /** A step gives a channel a message exactly if it is a valid arrival there, or a send from there, and the channel
      is free. */
  lemma AcceptsIff(b: Box, op: Op, k: nat)
    requires Sized(b) && Legal(b, op) && k < CHANNELS
    ensures Of(Step(b, op).taken, k) != Of(b.taken, k)
       <==> !b.locked[k] && ((op.DoArrive? && op.channel == k && op.valid) || op == DoSend(k))
  {
    hide Of;
    match op
    case DoArrive(j, p, valid) => OfAppend(b.taken, Mail(j, p), k);
    case DoSend(j) => OfAppend(b.taken, Mail(j, b.text[j]), k);
    case _ =>
  }

  // Neither takes the channel nor writes its text.
  predicate Leaves(op: Op, k: nat) {
    match op
    case DoUpdate => true
    case DoMark(_) => true
    case _ => op.channel != k
  }

  /** What was last loaded into a free channel, or edited there, is still there when it is sent. */
  lemma {:induction false} LoadedIsSent(b: Box, k: nat, text: string, op: Op, ops: seq<Op>)
    requires Sized(b) && k < CHANNELS && Sound(b, k) && !b.locked[k]
    requires op == DoLoad(k, text) || op == DoEdit(k, text)
    requires LegalRun(Step(b, op), ops) && forall i :: 0 <= i < |ops| ==> Leaves(ops[i], k)
    ensures var c := Run(Step(b, op), ops);
      !c.locked[k] && Step(c, DoSend(k)).taken == c.taken + [Mail(k, text)]
  {
    StaysLoaded(Step(b, op), k, ops);
  }

  lemma {:induction false} StaysLoaded(b: Box, k: nat, ops: seq<Op>)
    requires Sized(b) && k < CHANNELS && !b.locked[k] && !b.status[k] && !b.marking[k] && LegalRun(b, ops)
    requires forall i :: 0 <= i < |ops| ==> Leaves(ops[i], k)
    ensures Run(b, ops).text[k] == b.text[k] && !Run(b, ops).locked[k]
    decreases |ops|
  {
    if ops != [] { StaysLoaded(Step(b, ops[0]), k, ops[1..]); }
  }

  /** A free inbound channel holds no text from before. */
  lemma {:induction false} EmptyWhenFree(b: Box, k: nat, ops: seq<Op>)
    requires Sized(b) && k < CHANNELS && LegalRun(b, ops) && b.inbound && (!b.locked[k] ==> b.text[k] == "")
    requires forall i :: 0 <= i < |ops| ==> !ops[i].DoLoad? && !ops[i].DoEdit?
    ensures !Run(b, ops).locked[k] ==> Run(b, ops).text[k] == ""
    decreases |ops|
  {
    if ops != [] { EmptyWhenFree(Step(b, ops[0]), k, ops[1..]); }
  }

  /** An outbound channel keeps its text, sent or not, until it is loaded or edited again. */
  lemma {:induction false} OutboundKeepsText(b: Box, k: nat, ops: seq<Op>)
    requires Sized(b) && k < CHANNELS && LegalRun(b, ops) && !b.inbound
    requires forall i :: 0 <= i < |ops| ==> Leaves(ops[i], k) || ops[i] == DoSend(k)
    ensures Run(b, ops).text[k] == b.text[k]
    decreases |ops|
  {
    if ops != [] { OutboundKeepsText(Step(b, ops[0]), k, ops[1..]); }
  }

  /** While a message waits, its channel accepts nothing: an arrival is dropped, a load or another send refused. */
  lemma LockedRefuses(b: Box, k: nat, text: string, valid: bool)
    requires Sized(b) && k < CHANNELS && Sound(b, k) && (b.status[k] || b.marking[k])
    ensures Arrive(b, k, text, valid) == Load(b, k, text) == Send(b, k) == b
  {
  }

  class Messenger {
    const inbound: bool
    const locked: array<bool>   // msg_fmt_imsg_lock, msg_fmt_omsg_lock
    const marking: array<bool>
    const status: array<bool>   // msg_fmt_istatus, msg_fmt_ostatus
    const text: array<string>   // msg_fmt_imessages_static, msg_raw_message
    var turn: nat               // msg_fmt_i_idx, msg_fmt_o_idx
    ghost var taken: seq<Mail>
    ghost var passed: seq<Mail>

    ghost predicate Valid()
      reads this, locked, marking, status, text
    {
      Sized(Value()) && locked != marking && locked != status && marking != status
    }

    ghost function Value(): Box
      reads this, locked, marking, status, text
    {
      Box(inbound, locked[..], marking[..], status[..], text[..], turn, taken, passed)
    }

    constructor (incoming: bool)
      ensures Valid() && forall k :: 0 <= k < CHANNELS ==> Sound(Value(), k)
      ensures fresh(locked) && fresh(marking) && fresh(status) && fresh(text)
    {
      inbound := incoming;
      locked := new bool[CHANNELS](_ => false);
      marking := new bool[CHANNELS](_ => false);
      status := new bool[CHANNELS](_ => false);
      text := new string[CHANNELS](_ => "");
      turn, taken, passed := 0, [], [];
    }

    method ArriveMessage(k: nat, payload: string, valid: bool)
      requires Valid() && k < CHANNELS
      modifies this`taken, locked, marking, text
      ensures Valid() && Value() == Arrive(old(Value()), k, payload, valid)
    {
      if locked[k] { return; }
      locked[k] := true;
      if !valid {
        locked[k] := false;
        assert locked[..] == old(locked[..]);
        return;
      }
      text[k] := payload;
      marking[k] := true;
      taken := taken + [Mail(k, payload)];
    }

    method MarkMessage(k: nat)
      requires Valid() && k < CHANNELS
      modifies marking, status
      ensures Valid() && Value() == Mark(old(Value()), k)
    {
      if marking[k] {
        marking[k] := false;
        status[k] := true;
      }
    }

    method LoadMessage(k: nat, template: string) returns (ok: bool)
      requires Valid() && k < CHANNELS
      modifies text
      ensures Valid() && Value() == Load(old(Value()), k, template) && ok == !locked[k]
    {
      if locked[k] { return false; }
      text[k] := template;
      return true;
    }

    method SendMessage(k: nat) returns (ok: bool)
      requires Valid() && k < CHANNELS
      modifies this`taken, locked, marking
      ensures Valid() && Value() == Send(old(Value()), k) && ok == !old(locked[k])
    {
      if locked[k] { return false; }
      locked[k] := true;
      marking[k] := true;
      taken := taken + [Mail(k, text[k])];
      return true;
    }

    method UpdateMessages()
      requires Valid()
      modifies this`turn, this`passed, locked, status, text
      ensures Valid() && Value() == Update(old(Value()))
    {
      if status[turn] {
        passed := passed + [Mail(turn, text[turn])];
        status[turn] := false;
        if inbound { text[turn] := ""; }
        locked[turn] := false;
      }
      turn := if turn + 1 == CHANNELS then 0 else turn + 1;
    }
  }
}
