/** The ring of execution messages (src/execution.c): 56 cells of which the wrap rule skips the first on both
    sides, and a lap counter. It refines an unbounded first-in first-out queue while it has room. */
module MessageQueue {
  const CELLS := 56          // MAX_EXECUTION_MSGS
  const LAP := 55            // the cells used after the first lap
  const BYTE_MAX := 256

  // execution_message_info_t
  datatype Message = Message(result: int, action: string, resource: nat, kind: int, status: int)
  datatype Cell = Cell(message: Message, sent: bool)

  // delivered is the history of what was posted to the cloud.
  datatype Ring = Ring(cells: seq<Cell>, index: nat, sentIndex: nat, overflow: nat, delivered: seq<Message>)

  predicate Sized(r: Ring) {
    |r.cells| == CELLS && r.index < CELLS && r.sentIndex < CELLS && r.overflow < BYTE_MAX
  }

  // execution_q_message
  function Enqueue(r: Ring, m: Message): (t: Ring)
    requires Sized(r)
    ensures Sized(t)
  {
    var wraps := r.index >= CELLS - 1;
    r.(cells := r.cells[r.index := Cell(m, false)],
       index := (if wraps then 0 else r.index) + 1,
       overflow := if wraps then (r.overflow + 1) % BYTE_MAX else r.overflow)
  }

  predicate Waiting(r: Ring) {
    r.sentIndex < r.index || r.overflow > 0
  }

  // execution_deq_message; posted says whether the message could be handed over.
  function Dequeue(r: Ring, posted: bool): (t: Ring)
    requires Sized(r)
    ensures Sized(t)
  {
    if !Waiting(r) || !posted then r
    else
      var wraps := r.sentIndex >= CELLS - 1;
      var m := r.cells[r.sentIndex].message;
      r.(cells := r.cells[r.sentIndex := Cell(m, true)],
         sentIndex := (if wraps then 0 else r.sentIndex) + 1,
         overflow := if wraps then (r.overflow + BYTE_MAX - 1) % BYTE_MAX else r.overflow,
         delivered := r.delivered + [m])
  }

  datatype Op = Post(message: Message) | Send(posted: bool)

  function Step(r: Ring, op: Op): (t: Ring)
    requires Sized(r)
    ensures Sized(t)
  {
    match op
    case Post(m) => Enqueue(r, m)
    case Send(posted) => Dequeue(r, posted)
  }

  function Run(r: Ring, ops: seq<Op>): (t: Ring)
    requires Sized(r)
    ensures Sized(t)
    decreases |ops|
  {
    if ops == [] then r else Run(Step(r, ops[0]), ops[1..])
  }

  // ---------------------------------------------------------------- the queue it should be

  // Everything ever queued, and how much of it has been delivered.
  datatype Queue = Queue(all: seq<Message>, sent: nat)

  predicate Proper(q: Queue) {
    q.sent <= |q.all|
  }

  function SpecStep(q: Queue, op: Op): (p: Queue)
    requires Proper(q)
    ensures Proper(p)
  {
    match op
    case Post(m) => q.(all := q.all + [m])
    case Send(posted) => if posted && q.sent < |q.all| then q.(sent := q.sent + 1) else q
  }

  function SpecRun(q: Queue, ops: seq<Op>): (p: Queue)
    requires Proper(q)
    ensures Proper(p)
    decreases |ops|
  {
    if ops == [] then q else SpecRun(SpecStep(q, ops[0]), ops[1..])
  }

  // A message can be queued without loss: fewer than 55 wait, or the very first 55 do and none was delivered.
  predicate Room(q: Queue) {
    |q.all| - q.sent < LAP || (q.sent == 0 && |q.all| == LAP)
  }

  ghost predicate RoomRun(q: Queue, ops: seq<Op>)
    requires Proper(q)
    decreases |ops|
  {
    ops == [] || ((ops[0].Post? ==> Room(q)) && RoomRun(SpecStep(q, ops[0]), ops[1..]))
  }

  // ---------------------------------------------------------------- where the n-th message sits

  function Slot(n: nat): (s: nat)
    ensures s < CELLS
  {
    if n == 0 then 0 else 1 + (n - 1) % LAP
  }

  function Laps(n: nat): nat {
    if n == 0 then 0 else (n - 1) / LAP
  }

  lemma NextSlot(n: nat)
    ensures Slot(n + 1) == (if Slot(n) >= CELLS - 1 then 0 else Slot(n)) + 1
    ensures Laps(n + 1) == Laps(n) + if Slot(n) >= CELLS - 1 then 1 else 0
  {
    if n > 0 {
      var q, r := (n - 1) / LAP, (n - 1) % LAP;
      assert n - 1 == q * LAP + r;
      if r == LAP - 1 {
        assert n == (q + 1) * LAP;
        Quotient(n, q + 1, 0);
      } else {
        Quotient(n, q, r + 1);
      }
    }
  }

  lemma Quotient(n: nat, q: nat, r: nat)
    requires n == q * LAP + r && r < LAP
    ensures n / LAP == q && n % LAP == r
  {
  }

  lemma SameSlot(m: nat, n: nat)
    requires m < n <= m + LAP
    ensures Slot(m) == Slot(n) <==> m > 0 && n == m + LAP
  {
    if m > 0 {
      var q, r := (m - 1) / LAP, (m - 1) % LAP;
      if r + (n - m) < LAP {
        Quotient(n - 1, q, r + (n - m));
      } else if n == m + LAP {
        Quotient(n - 1, q + 1, r);
      } else {
        Quotient(n - 1, q + 1, r + (n - m) - LAP);
      }
    }
  }

  lemma {:induction false} LapsMonotone(m: nat, n: nat)
    requires m <= n
    ensures Laps(m) <= Laps(n)
    ensures Laps(m) == Laps(n) && m < n ==> Slot(m) < Slot(n)
    ensures n <= m + LAP + 1 ==> Laps(n) <= Laps(m) + 2
  {
    if m > 0 {
      assert (m - 1) / LAP * LAP + (m - 1) % LAP == m - 1;
      assert (n - 1) / LAP * LAP + (n - 1) % LAP == n - 1;
    }
  }

  // ---------------------------------------------------------------- how the two correspond

  // Every waiting message is in its cell.
  ghost predicate Holds(r: Ring, q: Queue)
    requires Sized(r)
  {
    forall n :: q.sent <= n < |q.all| ==> r.cells[Slot(n)] == Cell(q.all[n], false)
  }

  ghost predicate Represents(r: Ring, q: Queue) {
    && Sized(r) && Proper(q)
    && r.index == Slot(|q.all|) && r.sentIndex == Slot(q.sent)
    && r.overflow == Laps(|q.all|) - Laps(q.sent)
    && Holds(r, q) && r.delivered == q.all[..q.sent]
    && |q.all| - q.sent <= LAP + 1 && (q.sent > 0 ==> |q.all| - q.sent <= LAP)
  }

  /** The guard holds exactly when a message waits, and then the cell in turn holds the oldest one. */
  lemma GuardIsExact(r: Ring, q: Queue)
    requires Represents(r, q)
    ensures Waiting(r) <==> q.sent < |q.all|
    ensures Waiting(r) ==> r.cells[r.sentIndex] == Cell(q.all[q.sent], false)
  {
    LapsMonotone(q.sent, |q.all|);
  }

  lemma DequeueRefines(r: Ring, q: Queue, posted: bool)
    requires Represents(r, q)
    ensures Represents(Dequeue(r, posted), SpecStep(q, Send(posted)))
  {
    hide Slot, Laps;
    GuardIsExact(r, q);
    if Waiting(r) && posted {
      NextSlot(q.sent);
      LapsMonotone(q.sent + 1, |q.all|);
      LapsMonotone(q.sent, |q.all|);
      forall n | q.sent < n < |q.all| ensures Slot(n) != Slot(q.sent) {
        SameSlotUp(q.sent, n, |q.all|);
      }
      assert q.all[..q.sent + 1] == q.all[..q.sent] + [q.all[q.sent]];
    }
  }

  // No later waiting message shares the cell of the oldest one.
  lemma SameSlotUp(s: nat, n: nat, all: nat)
    requires s < n < all && all - s <= LAP + 1 && (s > 0 ==> all - s <= LAP)
    ensures Slot(n) != Slot(s)
  {
    SameSlot(s, n);
  }

  lemma EnqueueCells(r: Ring, q: Queue, m: Message)
    requires Represents(r, q) && Room(q)
    ensures forall n :: q.sent <= n < |q.all| ==> Slot(n) != Slot(|q.all|)
  {
    forall n | q.sent <= n < |q.all| ensures Slot(n) != Slot(|q.all|) {
      SameSlot(n, |q.all|);
    }
  }

  lemma EnqueueRefines(r: Ring, q: Queue, m: Message)
    requires Represents(r, q) && Room(q)
    ensures Represents(Enqueue(r, m), SpecStep(q, Post(m)))
  {
    hide Slot, Laps;
    EnqueueCells(r, q, m);
    NextSlot(|q.all|);
    LapsMonotone(q.sent, |q.all| + 1);
  }

  /** Queueing a message keeps every waiting one in its cell exactly when there is room; without room the one
      queued 55 before it is overwritten, which goes unnoticed only if the two are equal. */
  lemma NothingLostIff(r: Ring, q: Queue, m: Message)
    requires Represents(r, q)
    ensures !Room(q) ==> q.sent <= |q.all| - LAP < |q.all|
    ensures Holds(Enqueue(r, m), SpecStep(q, Post(m))) <==> Room(q) || q.all[|q.all| - LAP] == m
  {
    hide Slot;
    var n := |q.all|;
    if Room(q) {
      EnqueueCells(r, q, m);
    } else {
      SameSlot(n - LAP, n);
      var t, p := Enqueue(r, m), SpecStep(q, Post(m));
      assert t.cells[Slot(n - LAP)] == Cell(m, false);
      if q.all[n - LAP] == m {
        forall i | q.sent <= i < n + 1 ensures t.cells[Slot(i)] == Cell(p.all[i], false) {
          if Slot(i) != Slot(n) { assert r.cells[Slot(i)] == Cell(q.all[i], false); }
          else if i < n { OnlyThat(q, i); }
        }
      }
    }
  }

  lemma OnlyThat(q: Queue, i: nat)
    requires q.sent <= i < |q.all| && Slot(i) == Slot(|q.all|)
    requires |q.all| - q.sent <= LAP + 1 && (q.sent > 0 ==> |q.all| - q.sent <= LAP)
    ensures i == |q.all| - LAP
  {
    if |q.all| <= i + LAP { SameSlot(i, |q.all|); }
  }

  /** Over every run that queues only while there is room, the ring is a first-in first-out queue: what is
      delivered is what was queued, each message once and in order, and no failed post changes that. */
  lemma {:induction false} RingRefinesQueue(r: Ring, q: Queue, ops: seq<Op>)
    requires Represents(r, q) && RoomRun(q, ops)
    ensures Represents(Run(r, ops), SpecRun(q, ops))
    decreases |ops|
  {
    hide Represents, Enqueue, Dequeue, Room;
    RepresentsProper(r, q);
    if ops != [] {
      match ops[0] {
        case Post(m) => EnqueueRefines(r, q, m);
        case Send(posted) => DequeueRefines(r, q, posted);
      }
      RingRefinesQueue(Step(r, ops[0]), SpecStep(q, ops[0]), ops[1..]);
    }
  }

  // Of the last 55 messages, those delivered are marked so in their cells.
  ghost predicate Marked(r: Ring, q: Queue)
    requires Sized(r) && Proper(q)
  {
    forall n :: 0 <= n < q.sent && |q.all| <= n + LAP ==> r.cells[Slot(n)] == Cell(q.all[n], true)
  }

  lemma DequeueMarks(r: Ring, q: Queue, posted: bool)
    requires Represents(r, q) && Marked(r, q)
    ensures Marked(Dequeue(r, posted), SpecStep(q, Send(posted)))
  {
    hide Slot, Laps;
    GuardIsExact(r, q);
    forall n | 0 <= n < q.sent && |q.all| <= n + LAP && q.sent < |q.all| ensures Slot(n) != Slot(q.sent) {
      SameSlot(n, q.sent);
    }
  }

  lemma EnqueueMarks(r: Ring, q: Queue, m: Message)
    requires Represents(r, q) && Marked(r, q)
    ensures Marked(Enqueue(r, m), SpecStep(q, Post(m)))
  {
    hide Slot, Laps;
    forall n | 0 <= n < q.sent && |q.all| + 1 <= n + LAP ensures Slot(n) != Slot(|q.all|) {
      SameSlot(n, |q.all|);
    }
  }

  /** And of the last 55 messages a cell tells exactly which have been delivered. */
  lemma {:induction false} SentMarkIff(r: Ring, q: Queue, ops: seq<Op>, n: nat)
    requires Represents(r, q) && Marked(r, q) && RoomRun(q, ops)
    ensures var p := SpecRun(q, ops);
      n < |p.all| <= n + 55 ==> Run(r, ops).cells[Slot(n)] == Cell(p.all[n], n < p.sent)
    decreases |ops|
  {
    hide Represents, Marked, Enqueue, Dequeue, Room;
    RepresentsProper(r, q);
    if ops == [] {
      if n < |q.all| <= n + 55 { CellOf(r, q, n); }
    } else {
      match ops[0] {
        case Post(m) =>
          EnqueueRefines(r, q, m);
          EnqueueMarks(r, q, m);
        case Send(posted) =>
          DequeueRefines(r, q, posted);
          DequeueMarks(r, q, posted);
      }
      SentMarkIff(Step(r, ops[0]), SpecStep(q, ops[0]), ops[1..], n);
    }
  }

  lemma CellOf(r: Ring, q: Queue, n: nat)
    requires Represents(r, q) && Marked(r, q) && n < |q.all| <= n + LAP
    ensures r.cells[Slot(n)] == Cell(q.all[n], n < q.sent)
  {
    hide Slot, Laps;
  }

  lemma RepresentsProper(r: Ring, q: Queue)
    requires Represents(r, q)
    ensures Sized(r) && Proper(q)
  {
  }

  lemma StartIsEmpty(cells: seq<Cell>)
    requires |cells| == CELLS
    ensures Represents(Ring(cells, 0, 0, 0, []), Queue([], 0))
  {
  }

  // What a run queues, in order.
  function Posted(ops: seq<Op>): seq<Message> {
    if ops == [] then []
    else (if ops[0].Post? then [ops[0].message] else []) + Posted(ops[1..])
  }

  lemma {:induction false} AllPosted(q: Queue, ops: seq<Op>)
    requires Proper(q)
    ensures SpecRun(q, ops).all == q.all + Posted(ops)
    decreases |ops|
  {
    if ops != [] { AllPosted(SpecStep(q, ops[0]), ops[1..]); }
  }

  /** From the ring as it starts: what has been delivered after any such run is a prefix of what it queued, and the
      guard is down exactly when it is all of it. */
  lemma DeliversInOrder(cells: seq<Cell>, ops: seq<Op>)
    requires |cells| == CELLS && RoomRun(Queue([], 0), ops)
    ensures var r := Run(Ring(cells, 0, 0, 0, []), ops);
      && |r.delivered| <= |Posted(ops)| && r.delivered == Posted(ops)[..|r.delivered|]
      && (Waiting(r) <==> r.delivered != Posted(ops))
  {
    StartIsEmpty(cells);
    hide Represents;
    var r, q := Ring(cells, 0, 0, 0, []), Queue([], 0);
    RingRefinesQueue(r, q, ops);
    AllPosted(q, ops);
    assert [] + Posted(ops) == Posted(ops);
    Delivered(Run(r, ops), SpecRun(q, ops));
  }

  lemma Delivered(r: Ring, q: Queue)
    requires Represents(r, q)
    ensures Sized(r) && r.delivered == q.all[..q.sent] && |r.delivered| == q.sent <= |q.all|
    ensures Waiting(r) <==> q.sent < |q.all|
  {
    GuardIsExact(r, q);
  }

  class ExecutionQueue {
    const cells: array<Cell>        // execution_message_buffer
    var index: nat                  // execution_message_index
    var sentIndex: nat              // execution_message_sent
    var overflow: nat               // message_index_overflow
    ghost var delivered: seq<Message>

    ghost predicate Valid()
      reads this, cells
    {
      cells.Length == CELLS && Sized(Value())
    }

    ghost function Value(): Ring
      reads this, cells
    {
      Ring(cells[..], index, sentIndex, overflow, delivered)
    }

    constructor (blank: Message)
      ensures Valid() && Represents(Value(), Queue([], 0)) && fresh(cells)
    {
      cells := new Cell[CELLS](_ => Cell(blank, false));
      index, sentIndex, overflow, delivered := 0, 0, 0, [];
    }

    method QueueMessage(m: Message)
      requires Valid()
      modifies this, cells
      ensures Valid() && Value() == Enqueue(old(Value()), m)
    {
      cells[index] := Cell(m, false);
      if index >= CELLS - 1 {
        index := 0;
        overflow := (overflow + 1) % BYTE_MAX;
      }
      index := index + 1;
    }

    // posted is what execution_post_result answers.
    method DequeueMessage(posted: bool)
      requires Valid()
      modifies this, cells
      ensures Valid() && Value() == Dequeue(old(Value()), posted)
    {
      if sentIndex < index || overflow > 0 {
        if !posted { return; }
        cells[sentIndex] := cells[sentIndex].(sent := true);
        delivered := delivered + [cells[sentIndex].message];
        if sentIndex >= CELLS - 1 {
          sentIndex := 0;
          overflow := (overflow + BYTE_MAX - 1) % BYTE_MAX;
        }
        sentIndex := sentIndex + 1;
      }
    }
  }
}
