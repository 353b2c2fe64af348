/** From the queue of outputs to the ports: when the writes a sequence asks for are made, all of them and in
    order. The output ring is drained by index, so a pass after a wrap writes the newer outputs first. */
module EngineOutputs {
  import opened Engine

  // The output ring and its history.
  datatype Side = Side(outs: seq<PinEvent>, outIdx: nat, past: Past)

  function Outputs(e: Engine): (o: Side)
    requires Sized(e)
    ensures Shaped(o)
  {
    Side(e.outs, e.outIdx, e.past)
  }

  predicate Shaped(o: Side) {
    |o.outs| == PIN_EVENTS && o.outIdx <= PIN_EVENTS && |o.past.tags| == PIN_EVENTS
  }

  // ---------------------------------------------------------------- outputs as numbers

  predicate Below(ns: seq<nat>, n: nat) {
    forall i :: 0 <= i < |ns| ==> ns[i] < n
  }

  predicate Ascending(ns: seq<nat>) {
    forall i, j :: 0 <= i < j < |ns| ==> ns[i] < ns[j]
  }

  // Those of the outputs that push w queued.
  function Pick(q: seq<Out>, ns: seq<nat>, w: nat): (r: seq<nat>)
    requires Below(ns, |q|)
    ensures Below(r, |q|)
  {
    if ns == [] then []
    else
      var k := |ns| - 1;
      Pick(q, ns[..k], w) + if q[ns[k]].owner == w then [ns[k]] else []
  }

  function Upto(n: nat): (ns: seq<nat>)
    ensures |ns| == n && Below(ns, n) && Ascending(ns) && forall i :: 0 <= i < n ==> ns[i] == i
  {
    if n == 0 then [] else Upto(n - 1) + [n - 1]
  }

  lemma {:induction false} PickAppend(q: seq<Out>, xs: seq<nat>, ys: seq<nat>, w: nat)
    requires Below(xs, |q|) && Below(ys, |q|)
    ensures Below(xs + ys, |q|) && Pick(q, xs + ys, w) == Pick(q, xs, w) + Pick(q, ys, w)
    decreases |ys|
  {
    if ys == [] {
      assert xs + ys == xs;
      PickNone(q, w);
    } else {
      var k := |ys| - 1;
      PickAppend(q, xs, ys[..k], w);
      hide Pick;
      assert ys == ys[..k] + [ys[k]] && xs + ys == (xs + ys[..k]) + [ys[k]];
      PickSnoc(q, ys[..k], ys[k], w);
      PickSnoc(q, xs + ys[..k], ys[k], w);
    }
  }

  lemma PickSnoc(q: seq<Out>, ns: seq<nat>, n: nat, w: nat)
    requires Below(ns, |q|) && n < |q|
    ensures Below(ns + [n], |q|) && Pick(q, ns + [n], w) == Pick(q, ns, w) + if q[n].owner == w then [n] else []
  {
    assert (ns + [n])[..|ns|] == ns;
  }

  lemma {:induction false} PickMember(q: seq<Out>, ns: seq<nat>, w: nat, n: nat)
    requires Below(ns, |q|)
    ensures n in Pick(q, ns, w) <==> n in ns && q[n].owner == w
    decreases |ns|
  {
    if ns != [] {
      var k := |ns| - 1;
      PickMember(q, ns[..k], w, n);
      assert ns == ns[..k] + [ns[k]];
    }
  }

  lemma {:induction false} PickAscends(q: seq<Out>, ns: seq<nat>, w: nat)
    requires Below(ns, |q|) && Ascending(ns)
    ensures Ascending(Pick(q, ns, w))
    decreases |ns|
  {
    if ns != [] {
      var k := |ns| - 1;
      PickAscends(q, ns[..k], w);
      forall i | 0 <= i < |Pick(q, ns[..k], w)| ensures Pick(q, ns[..k], w)[i] < ns[k] {
        PickMember(q, ns[..k], w, Pick(q, ns[..k], w)[i]);
      }
    }
  }

  // What is picked does not depend on outputs queued later.
  lemma {:induction false} PickExtends(q: seq<Out>, more: seq<Out>, ns: seq<nat>, w: nat)
    requires Below(ns, |q|)
    ensures Below(ns, |q + more|) && Pick(q + more, ns, w) == Pick(q, ns, w)
    decreases |ns|
  {
    if ns != [] { PickExtends(q, more, ns[..|ns| - 1], w); }
  }

  lemma {:induction false} TagsAppend(xs: seq<PinEvent>, ts: seq<nat>, ys: seq<PinEvent>, us: seq<nat>)
    requires |xs| == |ts| && |ys| == |us|
    ensures PendingTags(xs + ys, ts + us) == PendingTags(xs, ts) + PendingTags(ys, us)
    decreases |ys|
  {
    if ys == [] {
      assert xs + ys == xs && ts + us == ts;
    } else {
      var k := |ys| - 1;
      assert (xs + ys)[..|xs| + k] == xs + ys[..k] && (ts + us)[..|xs| + k] == ts + us[..k];
      TagsAppend(xs, ts, ys[..k], us[..k]);
    }
  }

  lemma TagsOfOne(v: PinEvent, t: nat)
    ensures PendingTags([v], [t]) == if v.status == PinPending then [t] else []
  {
    assert [v][..0] == [] && [t][..0] == [];
  }

  // ---------------------------------------------------------------- the age of what waits

  // Entries before the index were filled after the last wrap, the others before it.
  function Newer(o: Side): seq<nat>
    requires Shaped(o)
  {
    PendingTags(o.outs[..o.outIdx], o.past.tags[..o.outIdx])
  }

  function Older(o: Side): seq<nat>
    requires Shaped(o)
  {
    PendingTags(o.outs[o.outIdx..], o.past.tags[o.outIdx..])
  }

  function Aged(o: Side): seq<nat>
    requires Shaped(o)
  {
    Older(o) + Newer(o)
  }

  lemma RingOrder(o: Side)
    requires Shaped(o)
    ensures PendingTags(o.outs, o.past.tags) == Newer(o) + Older(o)
  {
    var c := o.outIdx;
    TagsAppend(o.outs[..c], o.past.tags[..c], o.outs[c..], o.past.tags[c..]);
    assert o.outs == o.outs[..c] + o.outs[c..] && o.past.tags == o.past.tags[..c] + o.past.tags[c..];
  }

  // What OutPush does to the output side.
  function Enqueue(o: Side, ref: nat, out: Out): (r: Side)
    requires Shaped(o)
    ensures Shaped(r)
  {
    var i := RingSlot(o.outIdx);
    Side(o.outs[i := PinEvent(ref, out.port, out.level, PinPending)], i + 1, Enqueued(o.past, i, out))
  }

  // What a pass over the ring and a flush do to it.
  function Passed(o: Side): (r: Side)
    requires Shaped(o)
    ensures Shaped(r)
  {
    Side(Drained(o.outs), o.outIdx,
         o.past.(wires := o.past.wires + PendingTags(o.outs, o.past.tags), since := 0))
  }

  function Dropped(o: Side): (r: Side)
    requires Shaped(o)
    ensures Shaped(r)
  {
    Side(seq(PIN_EVENTS, i requires 0 <= i < PIN_EVENTS => o.outs[i].(status := PinInactive)), 0, o.past.(since := 0))
  }

  lemma {:induction false} NothingPending(outs: seq<PinEvent>, tags: seq<nat>)
    requires |outs| == |tags| && forall i :: 0 <= i < |outs| ==> outs[i].status != PinPending
    ensures PendingTags(outs, tags) == []
    decreases |outs|
  {
    if outs != [] { NothingPending(outs[..|outs| - 1], tags[..|outs| - 1]); }
  }

  lemma NothingWaits(o: Side)
    requires Shaped(o) && forall i :: 0 <= i < PIN_EVENTS ==> o.outs[i].status != PinPending
    ensures Aged(o) == []
  {
    NothingPending(o.outs[o.outIdx..], o.past.tags[o.outIdx..]);
    NothingPending(o.outs[..o.outIdx], o.past.tags[..o.outIdx]);
  }

  lemma TagsCons(xs: seq<PinEvent>, ts: seq<nat>)
    requires |xs| == |ts| > 0
    ensures PendingTags(xs, ts) == (if xs[0].status == PinPending then [ts[0]] else []) + PendingTags(xs[1..], ts[1..])
  {
    hide PendingTags;
    TagsAppend([xs[0]], [ts[0]], xs[1..], ts[1..]);
    TagsOfOne(xs[0], ts[0]);
    assert xs == [xs[0]] + xs[1..] && ts == [ts[0]] + ts[1..];
  }

  lemma TagsSnoc(xs: seq<PinEvent>, ts: seq<nat>, v: PinEvent, t: nat)
    requires |xs| == |ts| && v.status == PinPending
    ensures PendingTags(xs + [v], ts + [t]) == PendingTags(xs, ts) + [t]
  {
    assert (xs + [v])[..|xs|] == xs && (ts + [t])[..|ts|] == ts;
  }

  // The entry the next output takes is the oldest, if it is taken at all.
  function Oldest(o: Side): (t: seq<nat>)
    requires Shaped(o)
    ensures |t| <= 1
  {
    var i := RingSlot(o.outIdx);
    if o.outs[i].status == PinPending then [o.past.tags[i]] else []
  }

  // What waits behind it.
  function Others(o: Side): seq<nat>
    requires Shaped(o)
  {
    var c := o.outIdx;
    if c < PIN_EVENTS then PendingTags(o.outs[c + 1..], o.past.tags[c + 1..]) + Newer(o)
    else PendingTags(o.outs[1..c], o.past.tags[1..c])
  }

  lemma OldestFirst(o: Side)
    requires Shaped(o)
    ensures Aged(o) == Oldest(o) + Others(o)
  {
    hide PendingTags;
    var c := o.outIdx;
    if c < PIN_EVENTS {
      TagsCons(o.outs[c..], o.past.tags[c..]);
      assert o.outs[c..][1..] == o.outs[c + 1..] && o.past.tags[c..][1..] == o.past.tags[c + 1..];
    } else {
      TagsCons(o.outs[..c], o.past.tags[..c]);
      assert o.outs[..c][1..] == o.outs[1..c] && o.past.tags[..c][1..] == o.past.tags[1..c];
      assert o.outs[c..] == [] && o.past.tags[c..] == [];
      assert Older(o) == [] by { NothingPending([], []); }
    }
  }

  // A new output is the youngest; one it overwrites was the oldest.
  lemma EnqueueAged(o: Side, ref: nat, out: Out)
    requires Shaped(o)
    ensures Aged(Enqueue(o, ref, out)) == Others(o) + [|o.past.queued|]
  {
    hide PendingTags;
    var c, r := o.outIdx, Enqueue(o, ref, out);
    var v, n := PinEvent(ref, out.port, out.level, PinPending), |o.past.queued|;
    if c < PIN_EVENTS {
      assert r.outs[c + 1..] == o.outs[c + 1..] && r.past.tags[c + 1..] == o.past.tags[c + 1..];
      assert r.outs[..c + 1] == o.outs[..c] + [v] && r.past.tags[..c + 1] == o.past.tags[..c] + [n];
      TagsSnoc(o.outs[..c], o.past.tags[..c], v, n);
    } else {
      assert r.outs[1..] == o.outs[1..c] && r.past.tags[1..] == o.past.tags[1..c];
      assert r.outs[..1] == [] + [v] && r.past.tags[..1] == [] + [n];
      TagsSnoc([], [], v, n);
      NothingPending([], []);
    }
  }

  // ---------------------------------------------------------------- what always holds

  ghost predicate Linked(o: Side) {
    && Shaped(o)
    && Ascending(Aged(o)) && Below(Aged(o), |o.past.queued|) && Below(o.past.wires, |o.past.queued|)
    && forall i :: 0 <= i < |Aged(o)| ==> Aged(o)[i] !in o.past.wires
  }

  lemma EnqueueLinked(o: Side, ref: nat, out: Out)
    requires Linked(o)
    ensures Linked(Enqueue(o, ref, out))
  {
    hide Aged, Others, Oldest;
    EnqueueAged(o, ref, out);
    OldestFirst(o);
    var a, b := Aged(o), Aged(Enqueue(o, ref, out));
    forall i | 0 <= i < |b| - 1 ensures b[i] == a[i + |Oldest(o)|] {
      assert b[i] == Others(o)[i];
    }
  }

  lemma DrainLinked(o: Side)
    requires Linked(o)
    ensures Linked(Passed(o)) && Aged(Passed(o)) == []
  {
    hide Older, Newer, Aged, PendingTags;
    AgedUnfolds(o);
    NothingWaits(Passed(o));
    RingOrder(o);
    var t := PendingTags(o.outs, o.past.tags);
    forall i | 0 <= i < |t| ensures t[i] < |o.past.queued| {
      assert t[i] == Aged(o)[if i < |Newer(o)| then i + |Older(o)| else i - |Newer(o)|];
    }
    assert Passed(o).past.wires == o.past.wires + t;
  }

  lemma AgedUnfolds(o: Side)
    requires Shaped(o)
    ensures Aged(o) == Older(o) + Newer(o)
  {
  }

  lemma DropLinked(o: Side)
    requires Linked(o)
    ensures Linked(Dropped(o)) && Aged(Dropped(o)) == []
  {
    hide Older, Newer, Aged;
    NothingWaits(Dropped(o));
  }

  // ---------------------------------------------------------------- in order

  // The writes made for push w, then those that still wait from the oldest on, are what it queued: none is
  // lost, none made twice, none out of order.
  ghost predicate InOrder(o: Side, w: nat)
    requires Linked(o)
  {
    var q := o.past.queued;
    Pick(q, o.past.wires, w) + Pick(q, Aged(o), w) == Pick(q, Upto(|q|), w)
  }

  lemma UptoAscends(q: seq<Out>, w: nat)
    ensures Ascending(Pick(q, Upto(|q|), w))
    ensures forall n: nat | n < |q| && q[n].owner == w :: n in Pick(q, Upto(|q|), w)
  {
    PickAscends(q, Upto(|q|), w);
    forall n: nat | n < |q| && q[n].owner == w ensures n in Pick(q, Upto(|q|), w) {
      assert Upto(|q|)[n] == n;
      PickMember(q, Upto(|q|), w, n);
    }
  }

  // An entry of the ring that holds an output of push w.
  predicate Holds(o: Side, i: nat, w: nat)
    requires Shaped(o) && i < PIN_EVENTS
  {
    o.outs[i].status == PinPending && o.past.tags[i] < |o.past.queued| && o.past.queued[o.past.tags[i]].owner == w
  }

  lemma PickOne(q: seq<Out>, n: nat, w: nat)
    requires n < |q|
    ensures Pick(q, [n], w) == if q[n].owner == w then [n] else []
  {
    assert [n][..0] == [];
  }

  lemma EnqueuePicks(o: Side, ref: nat, out: Out, w: nat)
    requires Linked(o)
    ensures Linked(Enqueue(o, ref, out)) && Below(Others(o), |o.past.queued|) && Below(Oldest(o), |o.past.queued|)
    ensures var q, p := o.past.queued, Enqueue(o, ref, out).past.queued;
      var tail := if out.owner == w then [|q|] else [];
      && Pick(p, o.past.wires, w) == Pick(q, o.past.wires, w)
      && Pick(p, Upto(|p|), w) == Pick(q, Upto(|q|), w) + tail
      && Pick(p, Aged(Enqueue(o, ref, out)), w) == Pick(q, Others(o), w) + tail
      && Pick(q, Aged(o), w) == Pick(q, Oldest(o), w) + Pick(q, Others(o), w)
  {
    hide Aged, Others, Oldest;
    EnqueueLinked(o, ref, out);
    EnqueueAged(o, ref, out);
    OldestFirst(o);
    var q, n := o.past.queued, |o.past.queued|;
    assert Below(Oldest(o), n) by { assert forall i :: 0 <= i < |Oldest(o)| ==> Oldest(o)[i] == Aged(o)[i]; }
    assert Below(Others(o), n) by {
      assert forall i :: 0 <= i < |Others(o)| ==> Others(o)[i] == Aged(o)[i + |Oldest(o)|];
    }
    PickAppend(q, Oldest(o), Others(o), w);
    PickExtends(q, [out], o.past.wires, w);
    PickExtends(q, [out], Others(o), w);
    PickExtends(q, [out], Upto(n), w);
    PickAppend(q + [out], Others(o), [n], w);
    PickAppend(q + [out], Upto(n), [n], w);
    PickOne(q + [out], n, w);
  }

  lemma CancelTail(x: seq<nat>, y: seq<nat>, t: seq<nat>)
    ensures x + t == y + t <==> x == y
  {
    if x + t == y + t {
      assert (x + t)[..|x + t| - |t|] == x && (y + t)[..|y + t| - |t|] == y;
    }
  }

  /** Queueing keeps the order of push w exactly when it does not overwrite one of its waiting outputs. */
  lemma EnqueueKeepsIff(o: Side, ref: nat, out: Out, w: nat)
    requires Linked(o)
    ensures Linked(Enqueue(o, ref, out))
    ensures InOrder(Enqueue(o, ref, out), w) <==> InOrder(o, w) && !Holds(o, RingSlot(o.outIdx), w)
  {
    hide Aged, Others, Pick, Upto;
    EnqueuePicks(o, ref, out, w);
    var q := o.past.queued;
    var tail := if out.owner == w then [|q|] else [];
    var made, rest, asked := Pick(q, o.past.wires, w), Pick(q, Others(o), w), Pick(q, Upto(|q|), w);
    assert made + (rest + tail) == made + rest + tail;
    CancelTail(made + rest, asked, tail);
    OldestFirst(o);
    if Oldest(o) == [] {
      assert Pick(q, Oldest(o), w) == [] by { PickNone(q, w); }
    } else {
      var t := o.past.tags[RingSlot(o.outIdx)];
      assert Oldest(o)[0] == t;
      PickOne(q, t, w);
      if q[t].owner == w { Overwritten(o, w, t, Others(o)); }
    }
  }

  lemma PickNone(q: seq<Out>, w: nat)
    ensures Pick(q, [], w) == []
  {
  }

  // Once the oldest is gone without having been written, the order cannot be met.
  lemma Overwritten(o: Side, w: nat, t: nat, rest: seq<nat>)
    requires Linked(o) && Aged(o) == [t] + rest && t < |o.past.queued| && o.past.queued[t].owner == w
    ensures Below(rest, |o.past.queued|)
    ensures Pick(o.past.queued, o.past.wires, w) + Pick(o.past.queued, rest, w)
         != Pick(o.past.queued, Upto(|o.past.queued|), w)
  {
    hide Aged;
    var q := o.past.queued;
    UptoAscends(q, w);
    PickMember(q, o.past.wires, w, t);
    assert Aged(o)[0] == t;
    forall i | 0 <= i < |rest| ensures rest[i] < |q| && rest[i] != t { assert rest[i] == Aged(o)[i + 1]; }
    PickMember(q, rest, w, t);
    assert t !in Pick(q, o.past.wires, w) + Pick(q, rest, w);
    assert t in Pick(q, Upto(|q|), w);
  }

  // A pass would write newer outputs of push w before older ones.
  predicate Straddles(o: Side, w: nat)
    requires Shaped(o)
  {
    exists i, j :: 0 <= i < o.outIdx <= j < PIN_EVENTS && Holds(o, i, w) && Holds(o, j, w)
  }

  // Entry k holds an output of push w.
  predicate HoldsAt(outs: seq<PinEvent>, tags: seq<nat>, q: seq<Out>, k: nat, w: nat)
    requires k < |outs| == |tags|
  {
    outs[k].status == PinPending && tags[k] < |q| && q[tags[k]].owner == w
  }

  lemma TagsSplit(outs: seq<PinEvent>, tags: seq<nat>, q: seq<Out>, w: nat)
    requires |outs| == |tags| > 0 && Below(PendingTags(outs, tags), |q|)
    ensures var k := |outs| - 1;
      && Below(PendingTags(outs[..k], tags[..k]), |q|)
      && Pick(q, PendingTags(outs, tags), w)
         == Pick(q, PendingTags(outs[..k], tags[..k]), w) + if HoldsAt(outs, tags, q, k, w) then [tags[k]] else []
  {
    var k := |outs| - 1;
    var front, last := PendingTags(outs[..k], tags[..k]), if outs[k].status == PinPending then [tags[k]] else [];
    var all := front + last;
    assert PendingTags(outs, tags) == all;
    assert Below(front, |q|) by { assert forall i :: 0 <= i < |front| ==> front[i] == all[i]; }
    if last != [] {
      assert all[|front|] == tags[k];
      PickAppend(q, front, last, w);
      PickOne(q, tags[k], w);
    } else {
      assert all == front;
    }
  }

  lemma {:induction false} HeldIsPicked(outs: seq<PinEvent>, tags: seq<nat>, q: seq<Out>, w: nat, k: nat)
    requires |outs| == |tags| && Below(PendingTags(outs, tags), |q|) && k < |outs| && HoldsAt(outs, tags, q, k, w)
    ensures Pick(q, PendingTags(outs, tags), w) != []
    decreases |outs|
  {
    hide PendingTags, Pick;
    TagsSplit(outs, tags, q, w);
    if k < |outs| - 1 { HeldIsPicked(outs[..|outs| - 1], tags[..|outs| - 1], q, w, k); }
  }

  lemma {:induction false} PickedIsHeld(outs: seq<PinEvent>, tags: seq<nat>, q: seq<Out>, w: nat) returns (k: nat)
    requires |outs| == |tags| && Below(PendingTags(outs, tags), |q|) && Pick(q, PendingTags(outs, tags), w) != []
    ensures k < |outs| && HoldsAt(outs, tags, q, k, w)
    decreases |outs|
  {
    assert |outs| > 0;
    TagsSplit(outs, tags, q, w);
    hide PendingTags, Pick;
    k := |outs| - 1;
    if !HoldsAt(outs, tags, q, k, w) { k := PickedIsHeld(outs[..k], tags[..k], q, w); }
  }

  lemma WaitingBelow(o: Side)
    requires Linked(o)
    ensures Below(Newer(o), |o.past.queued|) && Below(Older(o), |o.past.queued|)
    ensures Below(PendingTags(o.outs, o.past.tags), |o.past.queued|)
  {
    hide PendingTags, Newer, Older;
    RingOrder(o);
    var t := PendingTags(o.outs, o.past.tags);
    assert forall i :: 0 <= i < |Older(o)| ==> Older(o)[i] == Aged(o)[i];
    assert forall i :: 0 <= i < |Newer(o)| ==> Newer(o)[i] == Aged(o)[|Older(o)| + i];
    assert forall i :: 0 <= i < |t| ==> t[i] == if i < |Newer(o)| then Newer(o)[i] else Older(o)[i - |Newer(o)|];
  }

  lemma StraddlesMeans(o: Side, w: nat)
    requires Linked(o)
    ensures Below(Newer(o), |o.past.queued|) && Below(Older(o), |o.past.queued|)
    ensures Straddles(o, w) <==> Pick(o.past.queued, Newer(o), w) != [] && Pick(o.past.queued, Older(o), w) != []
  {
    hide PendingTags, Pick, Aged, Linked;
    WaitingBelow(o);
    LinkedShaped(o);
    var q, c, t := o.past.queued, o.outIdx, o.past.tags;
    if Pick(q, Newer(o), w) != [] && Pick(q, Older(o), w) != [] {
      var i := PickedIsHeld(o.outs[..c], t[..c], q, w);
      var j := PickedIsHeld(o.outs[c..], t[c..], q, w);
      assert Holds(o, i, w) && Holds(o, c + j, w);
    }
    if Straddles(o, w) {
      var i, j :| 0 <= i < c <= j < PIN_EVENTS && Holds(o, i, w) && Holds(o, j, w);
      HeldIsPicked(o.outs[..c], t[..c], q, w, i);
      HeldIsPicked(o.outs[c..], t[c..], q, w, j - c);
    }
  }

  lemma LinkedShaped(o: Side)
    requires Linked(o)
    ensures Shaped(o)
  {
  }

  lemma Swapped(a: seq<nat>, x: seq<nat>, y: seq<nat>)
    requires x != [] && y != [] && y[0] < x[0]
    ensures !Ascending(a + (x + y))
  {
    var s := a + (x + y);
    assert s[|a|] == x[0] && s[|a| + |x|] == y[0];
  }

  /** A pass keeps the order of push w exactly when it finds no outputs of it on both sides of the wrap. */
  lemma PassKeepsIff(o: Side, w: nat)
    requires Linked(o)
    ensures Linked(Passed(o))
    ensures InOrder(Passed(o), w) <==> InOrder(o, w) && !Straddles(o, w)
  {
    hide PendingTags, Aged, Newer, Older, Straddles, Pick;
    DrainLinked(o);
    StraddlesMeans(o, w);
    RingOrder(o);
    AgedUnfolds(o);
    var q := o.past.queued;
    PickAppend(q, o.past.wires, Newer(o) + Older(o), w);
    PickAppend(q, Newer(o), Older(o), w);
    PickAppend(q, Older(o), Newer(o), w);
    PickNone(q, w);
    UptoAscends(q, w);
    var made, x, y := Pick(q, o.past.wires, w), Pick(q, Newer(o), w), Pick(q, Older(o), w);
    assert InOrder(Passed(o), w) <==> made + (x + y) + [] == Pick(q, Upto(|q|), w);
    assert made + (x + y) + [] == made + (x + y);
    if x == [] || y == [] {
      assert x + y == y + x;
    } else {
      NewerIsNewer(o, w);
      Swapped(made, x, y);
    }
  }

  lemma NewerIsNewer(o: Side, w: nat)
    requires Linked(o) && Below(Newer(o), |o.past.queued|) && Below(Older(o), |o.past.queued|)
    requires Pick(o.past.queued, Newer(o), w) != [] && Pick(o.past.queued, Older(o), w) != []
    ensures Pick(o.past.queued, Older(o), w)[0] < Pick(o.past.queued, Newer(o), w)[0]
  {
    hide PendingTags, Newer, Older, Aged;
    AgedUnfolds(o);
    var q := o.past.queued;
    PickAscends(q, Aged(o), w);
    PickAppend(q, Older(o), Newer(o), w);
    var y, x := Pick(q, Older(o), w), Pick(q, Newer(o), w);
    assert (y + x)[0] == y[0] && (y + x)[|y|] == x[0];
  }

  /** A flush keeps the order of push w exactly when none of its outputs waits. */
  lemma DropKeepsIff(o: Side, w: nat)
    requires Linked(o)
    ensures Linked(Dropped(o))
    ensures InOrder(Dropped(o), w) <==> InOrder(o, w) && Pick(o.past.queued, Aged(o), w) == []
  {
    hide Aged;
    DropLinked(o);
    var q := o.past.queued;
    PickNone(q, w);
    UptoAscends(q, w);
    var made, left := Pick(q, o.past.wires, w), Pick(q, Aged(o), w);
    if left == [] {
      assert made + [] == made;
    } else {
      var t := left[0];
      PickMember(q, Aged(o), w, t);
      PickMember(q, o.past.wires, w, t);
      assert t in Pick(q, Upto(|q|), w) && t !in made + [];
    }
  }
}
