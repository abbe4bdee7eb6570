/** The way of the client's stdin to the child (`channel.rs`, stdin handoff, and
the pump of `exec.rs`): nothing is lost or repeated, and the order is kept as
long as no packet queued before the exec is left behind the first. */
module StdinOrder {
  import opened Wire
  import opened Transport
  import opened Channel

  function Flat(chunks: seq<Bytes>): Bytes { if chunks == [] then [] else chunks[0] + Flat(chunks[1..]) }

  lemma FlatAppend(chunks: seq<Bytes>, x: Bytes)
    ensures Flat(chunks + [x]) == Flat(chunks) + x
  {
    if chunks == [] {
      assert chunks + [x] == [x] && Flat([x]) == x + Flat([]);
    } else {
      FlatAppend(chunks[1..], x);
      assert (chunks + [x])[1..] == chunks[1..] + [x];
    }
  }

  lemma FlatLength(chunks: seq<Bytes>)
    ensures |Flat(chunks)| == SumLen(chunks)
  {
  }

  function Behind(chunks: seq<Bytes>): Bytes { if chunks == [] then [] else Flat(chunks[1..]) }

  function Slot(i: Inflow): Bytes { if i.pending.Some? then i.pending.value else [] }

  function AtPump(i: Inflow): Bytes { if i.child.Some? then i.child.value.inflight + Flat(i.child.value.queue) else [] }

  /** The bytes the child will still get, in the order it will get them. */
  function Waiting(i: Inflow): Bytes { AtPump(i) + Slot(i) + Flat(i.preExec) }

  function QueuedAcks(i: Inflow): nat { if i.child.Some? then Sum(i.child.value.acks) else 0 }

  // ---- what every step keeps ----

  /** Delivered and waiting bytes are accepted ones, each once, and the rest is
      given up. */
  predicate Whole(line: Line, waiting: Bytes, lost: nat) {
    && multiset(line.delivered) + multiset(waiting) <= multiset(line.accepted)
    && |line.accepted| == |line.delivered| + |waiting| + lost
  }

  /** What the child got and what the pump holds is the start of what the client
      sent; with nothing given up, what waits is the rest. */
  predicate InLine(line: Line, held: Bytes, waiting: Bytes, lost: nat) {
    && line.delivered + held <= line.accepted
    && (lost == 0 ==> line.delivered + waiting == line.accepted)
  }

  /** Order is at risk only with both a crowd and a late packet. */
  predicate Safe(line: Line) { line.crowd == [] || !line.late }

  predicate Placed(line: Line, held: Bytes, waiting: Bytes, lost: nat) {
    Whole(line, waiting, lost) && (Safe(line) ==> InLine(line, held, waiting, lost))
  }

  /** Nothing queued before the exec is left behind what comes next. */
  predicate Ready(i: Inflow) { Flat(i.preExec) == [] || (i.pending.None? && Behind(i.preExec) == []) }

  /** Before the exec everything accepted waits in its order. */
  predicate Early(i: Inflow) {
    && i.line.delivered == []
    && (i.lost == 0 && i.pending.None? ==> i.line.accepted == Flat(i.preExec) && i.line.crowd == Behind(i.preExec))
  }

  predicate Ordered(i: Inflow) {
    && (i.child.None? ==> Early(i)) && QueuedAcks(i) <= |i.line.delivered|
    && Placed(i.line, AtPump(i), Waiting(i), i.lost) && (i.line.crowd == [] ==> Ready(i))
  }

  /** After a handoff: a running child has nothing queued from before it. */
  predicate Handed(i: Inflow) { i.child.Some? && i.line.crowd == [] ==> Flat(i.preExec) == [] }

  // ---- places in line, on plain bytes ----

  /** Taking in data, and what it may do to the crowd and the late mark. */
  predicate TakenIn(line: Line, after: Line, data: Bytes) {
    && after == line.(accepted := line.accepted + data, crowd := after.crowd, late := after.late)
    && (Safe(after) ==> Safe(line))
  }

  lemma WholeGrows(line: Line, after: Line, waiting: Bytes, longer: Bytes, lost: nat, data: Bytes)
    requires Whole(line, waiting, lost) && TakenIn(line, after, data)
    requires multiset(longer) == multiset(waiting) + multiset(data)
    ensures Whole(after, longer, lost)
  {
    assert multiset(line.accepted + data) == multiset(line.accepted) + multiset(data);
    assert |longer| == |multiset(longer)| && |waiting| == |multiset(waiting)| && |data| == |multiset(data)|;
  }

  /** Data at the end of the line. */
  lemma JoinsLine(line: Line, after: Line, held: Bytes, waiting: Bytes, lost: nat, data: Bytes)
    requires Placed(line, held, waiting, lost) && TakenIn(line, after, data)
    ensures Placed(after, held, waiting + data, lost)
  {
    assert multiset(waiting + data) == multiset(waiting) + multiset(data);
    WholeGrows(line, after, waiting, waiting + data, lost, data);
    hide Whole;
    assert line.delivered + (waiting + data) == (line.delivered + waiting) + data;
    assert line.delivered + held <= line.accepted ==> line.delivered + held <= line.accepted + data;
  }

  /** Data ahead of a crowd. */
  lemma Overtakes(line: Line, after: Line, held: Bytes, waiting: Bytes, longer: Bytes, lost: nat, data: Bytes)
    requires Placed(line, held, waiting, lost) && TakenIn(line, after, data) && !Safe(after)
    requires multiset(longer) == multiset(waiting) + multiset(data)
    ensures Placed(after, held, longer, lost)
  {
    WholeGrows(line, after, waiting, longer, lost, data);
    hide Whole;
  }

  /** Data that no child will take. */
  lemma TurnedAway(line: Line, after: Line, held: Bytes, waiting: Bytes, lost: nat, data: Bytes)
    requires Placed(line, held, waiting, lost) && TakenIn(line, after, data)
    ensures Placed(after, held, waiting, lost + |data|)
  {
    assert multiset(line.accepted + data) == multiset(line.accepted) + multiset(data);
    assert line.delivered + held <= line.accepted ==> line.delivered + held <= line.accepted + data;
    assert data == [] ==> line.accepted + data == line.accepted;
  }

  /** Waiting bytes given up. */
  lemma GivenUp(line: Line, held: Bytes, a: Bytes, gone: Bytes, b: Bytes, lost: nat)
    requires Placed(line, held, a + gone + b, lost)
    ensures Placed(line, held, a + b, lost + |gone|)
  {
    assert multiset(a + gone + b) == multiset(a) + multiset(gone) + multiset(b);
    assert multiset(a + b) == multiset(a) + multiset(b);
    assert gone == [] ==> a + gone + b == a + b;
  }

  /** The slot passes to the pump. */
  lemma PassesOn(line: Line, held: Bytes, slot: Bytes, rest: Bytes)
    requires Placed(line, held, held + slot + rest, 0)
    ensures Placed(line, held + slot, held + slot + rest, 0)
  {
    hide Whole;
    assert line.delivered + (held + slot + rest) == (line.delivered + (held + slot)) + rest;
  }

  /** The pump writes the head of the line. */
  lemma IsWritten(line: Line, w: Bytes, held: Bytes, waiting: Bytes, lost: nat)
    requires Placed(line, w + held, w + waiting, lost)
    ensures Placed(line.(delivered := line.delivered + w), held, waiting, lost)
    ensures multiset(line.delivered + w) <= multiset(line.accepted)
    ensures Safe(line) ==> line.delivered + w <= line.accepted
  {
    assert multiset(w + waiting) == multiset(w) + multiset(waiting);
    assert multiset(line.delivered + w) == multiset(line.delivered) + multiset(w);
    assert (line.delivered + w) + held == line.delivered + (w + held);
    assert (line.delivered + w) + waiting == line.delivered + (w + waiting);
  }

  /** The pump ends with what it holds. */
  lemma PumpStops(line: Line, held: Bytes, waiting: Bytes, lost: nat)
    requires Placed(line, held, held + waiting, lost)
    ensures Placed(line, [], waiting, lost + |held|)
  {
    assert multiset(held + waiting) == multiset(held) + multiset(waiting);
    assert line.delivered + [] == line.delivered;
    assert held == [] ==> held + waiting == waiting;
  }

  // ---- the handoff ----

  /** The step touches neither the bytes nor their places. */
  predicate SamePlaces(i: Inflow, j: Inflow) {
    && j.line == i.line && j.lost == i.lost && j.pending == i.pending && j.preExec == i.preExec
    && j.child.Some? == i.child.Some?
    && (i.child.Some? ==> j.child.value.inflight == i.child.value.inflight
                          && j.child.value.queue == i.child.value.queue)
  }

  lemma SamePlacesKeep(i: Inflow, j: Inflow)
    requires SamePlaces(i, j) && Ordered(i) && QueuedAcks(j) <= |j.line.delivered|
    ensures Ordered(j) && (Handed(i) ==> Handed(j))
  {
    hide Placed, Flat, Behind;
    assert Waiting(j) == Waiting(i) && AtPump(j) == AtPump(i);
  }

  lemma RefillMoves(i: Inflow)
    ensures Waiting(Refill(i)) == Waiting(i) && AtPump(Refill(i)) == AtPump(i)
    ensures Flat(i.preExec) == [] ==> Flat(Refill(i).preExec) == []
    ensures i.pending.None? && Behind(i.preExec) == [] ==> Flat(Refill(i).preExec) == []
  {
    if i.pending.None? && i.preExec != [] {
      assert Flat(i.preExec) == i.preExec[0] + Flat(i.preExec[1..]);
      hide Flat;
      assert AtPump(i) + [] == AtPump(i);
    }
  }

  lemma RefillOrdered(i: Inflow)
    requires Ordered(i) && i.child.Some?
    ensures Ordered(Refill(i)) && Handed(Refill(i))
  {
    hide Placed, Waiting, AtPump, Flat, Behind;
    RefillMoves(i);
  }

  /** The slot's chunk goes to the end of the pump's queue. */
  lemma DeliverMoves(i: Inflow)
    requires i.child.Some? && i.pending.Some? && i.child.value.stdinOpen
    ensures Waiting(Deliver(i)) == Waiting(i) && AtPump(Deliver(i)) == AtPump(i) + i.pending.value
  {
    FlatAppend(i.child.value.queue, i.pending.value);
    assert AtPump(Deliver(i)) == AtPump(i) + i.pending.value;
  }

  lemma DeliverOrdered(i: Inflow)
    requires i.child.Some? && Ordered(i) && Handed(i) && (i.pending.Some? && i.child.value.stdinOpen ==> i.lost == 0)
    ensures Ordered(Deliver(i)) && Handed(Deliver(i))
  {
    hide Ordered, Handed;
    if i.pending.Some? {
      if i.child.value.stdinOpen {
        QueueSlot(i);
      } else {
        DropSlot(i);
      }
    }
  }

  lemma QueueSlot(i: Inflow)
    requires i.child.Some? && Ordered(i) && Handed(i) && i.pending.Some? && i.child.value.stdinOpen && i.lost == 0
    ensures Ordered(Deliver(i)) && Handed(Deliver(i))
  {
    hide Placed, AtPump, Flat, Behind;
    DeliverMoves(i);
    PassesOn(i.line, AtPump(i), i.pending.value, Flat(i.preExec));
  }

  lemma DropSlot(i: Inflow)
    requires i.child.Some? && Ordered(i) && Handed(i) && i.pending.Some? && !i.child.value.stdinOpen
    ensures Ordered(Deliver(i)) && Handed(Deliver(i))
  {
    hide Placed, AtPump, Flat, Behind;
    var j := Deliver(i);
    assert AtPump(j) == AtPump(i) by { SamePump(i, j); }
    GivenUp(i.line, AtPump(i), AtPump(i), i.pending.value, Flat(i.preExec), i.lost);
    assert AtPump(i) + [] + Flat(i.preExec) == AtPump(i) + Flat(i.preExec);
  }

  lemma SamePump(i: Inflow, j: Inflow)
    requires i.child == j.child
    ensures AtPump(i) == AtPump(j)
  {
  }

  // ---- arrivals ----

  /** A packet for a running child keeps its place in line if and only if it
      commutes with what is left of the pre-exec queue. */
  lemma ArrivalOrder(i: Inflow, data: Str)
    requires |data| <= i.window && i.child.Some?
    ensures Waiting(Accept(i, false, data)) == Waiting(i) + data <==> data + Flat(i.preExec) == Flat(i.preExec) + data
    ensures multiset(Waiting(Accept(i, false, data))) == multiset(Waiting(i)) + multiset(data)
    ensures AtPump(Accept(i, false, data)) == AtPump(i)
  {
    hide AtPump, Flat;
    SamePump(i, Accept(i, false, data));
    Inserted(AtPump(i), Slot(i), data, Flat(i.preExec));
    assert AtPump(i) + data == AtPump(i) + [] + data;
  }

  lemma Inserted(held: Bytes, slot: Bytes, data: Bytes, f: Bytes)
    ensures held + (slot + data) + f == held + slot + f + data <==> data + f == f + data
    ensures multiset(held + (slot + data) + f) == multiset(held + slot + f) + multiset(data)
    ensures held + [] + f == held + f && held + ([] + data) + f == held + data + f
  {
    var head := held + slot;
    assert held + (slot + data) + f == head + (data + f) && head + f + data == head + (f + data);
    assert (head + (data + f))[|head|..] == data + f && (head + (f + data))[|head|..] == f + data;
    assert multiset(head + (data + f)) == multiset(head) + multiset(data) + multiset(f);
    assert multiset(head + f) == multiset(head) + multiset(f);
  }

  lemma ArrivalBeforeExec(i: Inflow, data: Str)
    requires |data| <= i.window && i.child.None? && i.pending.None?
    ensures var j := Accept(i, true, data);
            && Waiting(j) == Waiting(i) + data && AtPump(j) == AtPump(i)
            && (j.line.crowd == [] && (i.line.crowd == [] ==> Behind(i.preExec) == []) ==> Behind(j.preExec) == [])
            && Flat(j.preExec) == Flat(i.preExec) + data
            && Behind(j.preExec) == Behind(i.preExec) + (if i.preExec == [] then [] else data)
  {
    hide Flat, Behind;
    FlatAppend(i.preExec, data);
    BehindAppend(i.preExec, data);
    assert [] + [] + (Flat(i.preExec) + data) == [] + [] + Flat(i.preExec) + data;
    assert Behind(i.preExec) + [] == Behind(i.preExec);
  }

  lemma BehindAppend(chunks: seq<Bytes>, data: Bytes)
    ensures Behind(chunks + [data]) == Behind(chunks) + (if chunks == [] then [] else data)
  {
    hide Flat;
    if chunks == [] {
      assert (chunks + [data])[1..] == [];
      assert Flat([]) == [] by {
        NoChunks();
      }
    } else {
      assert (chunks + [data])[1..] == chunks[1..] + [data];
      FlatAppend(chunks[1..], data);
    }
  }

  lemma NoChunks()
    ensures Flat([]) == []
  {
  }

  lemma NothingBehind(chunks: seq<Bytes>)
    ensures Flat(chunks) == [] ==> Behind(chunks) == []
    ensures Behind([]) == []
  {
  }

  lemma EarlyOrdered(i: Inflow, data: Str)
    requires |data| <= i.window && Ordered(i) && i.child.None? && i.pending.None?
    ensures Ordered(Accept(i, true, data))
  {
    hide Placed, Waiting, AtPump, Flat, Behind;
    NothingBehind(i.preExec);
    ArrivalBeforeExec(i, data);
    assert Behind(i.preExec) + [] == Behind(i.preExec);
    JoinsLine(i.line, Accept(i, true, data).line, AtPump(i), Waiting(i), i.lost, data);
  }

  lemma LateOrdered(i: Inflow, data: Str)
    requires |data| <= i.window && Ordered(i) && i.child.Some? && Handed(i)
    ensures Ordered(Accept(i, false, data)) && Handed(Accept(i, false, data))
  {
    hide Placed, Waiting, AtPump, Flat, Behind, Accept, QueuedAcks;
    ArrivalOrder(i, data);
    var j := Accept(i, false, data);
    Arrived(i, data);
    if Safe(j.line) {
      Commutes(data, Flat(i.preExec));
      JoinsLine(i.line, j.line, AtPump(i), Waiting(i), i.lost, data);
    } else {
      Overtakes(i.line, j.line, AtPump(i), Waiting(i), Waiting(j), i.lost, data);
    }
  }

  lemma Commutes(a: Bytes, b: Bytes)
    requires a == [] || b == []
    ensures a + b == b + a
  {
  }

  lemma Arrived(i: Inflow, data: Str)
    requires |data| <= i.window && i.child.Some?
    ensures var j := Accept(i, false, data);
            && j.line == i.line.(accepted := i.line.accepted + data, late := i.line.late || data != [])
            && j.lost == i.lost && j.child == i.child
            && j.preExec == i.preExec && QueuedAcks(j) == QueuedAcks(i)
  {
  }

  lemma DroppedOrdered(i: Inflow, data: Str)
    requires |data| <= i.window && Ordered(i) && i.child.None?
    ensures Ordered(Accept(i, false, data))
  {
    hide Placed, AtPump, Flat, Behind;
    var j := Accept(i, false, data);
    SamePump(i, j);
    TurnedAway(i.line, j.line, AtPump(i), Waiting(i), i.lost, data);
    assert data == [] ==> i.line.accepted + data == i.line.accepted;
  }

  // ---- the pump ----

  lemma TookMoves(i: Inflow)
    requires i.child.Some? && i.child.value.queue != [] && i.child.value.inflight == []
    ensures AtPump(PumpTook(i)) == AtPump(i) && Waiting(PumpTook(i)) == Waiting(i)
  {
  }

  lemma TookOrdered(i: Inflow)
    requires Ordered(i) && i.child.Some? && i.child.value.queue != [] && i.child.value.inflight == []
    ensures Ordered(PumpTook(i)) && (Handed(i) ==> Handed(PumpTook(i)))
  {
    hide Placed, Waiting, AtPump, Flat, Behind;
    TookMoves(i);
  }

  /** What the pump writes is the head of the line. */
  lemma WroteMoves(i: Inflow, n: U32)
    requires i.child.Some? && n <= |i.child.value.inflight|
    ensures var w := i.child.value.inflight[..n];
            w + AtPump(PumpWrote(i, n)) == AtPump(i) && w + Waiting(PumpWrote(i, n)) == Waiting(i)
  {
    var c := i.child.value;
    var w, q := c.inflight[..n], Flat(c.queue);
    assert c.inflight == w + c.inflight[n..];
    hide Flat;
    Regroup(w, c.inflight[n..], q, Slot(i), Flat(i.preExec));
  }

  lemma Regroup(a: Bytes, b: Bytes, c: Bytes, d: Bytes, e: Bytes)
    ensures a + (b + c + d + e) == a + b + c + d + e && a + (b + c) == a + b + c
  {
  }

  lemma WroteOrdered(i: Inflow, n: U32)
    requires Ordered(i) && i.child.Some? && n <= |i.child.value.inflight|
    requires QueuedAcks(PumpWrote(i, n)) <= |i.line.delivered| + n
    ensures Ordered(PumpWrote(i, n)) && (Handed(i) ==> Handed(PumpWrote(i, n)))
    ensures var d := i.line.delivered + i.child.value.inflight[..n];
            && multiset(d) <= multiset(i.line.accepted)
            && (i.line.crowd == [] || !i.line.late ==> d <= i.line.accepted)
  {
    hide Placed, Waiting, AtPump, Flat, Behind, Sum;
    WroteMoves(i, n);
    var j, w := PumpWrote(i, n), i.child.value.inflight[..n];
    IsWritten(i.line, w, AtPump(j), Waiting(j), i.lost);
  }

  lemma EndedMoves(i: Inflow)
    requires i.child.Some?
    ensures var j := PumpEnded(i);
            && AtPump(j) == [] && Waiting(i) == AtPump(i) + Waiting(j)
            && |AtPump(i)| == SumLen(i.child.value.queue) + |i.child.value.inflight|
  {
    FlatLength(i.child.value.queue);
    assert Flat([]) == [];
    hide Flat, SumLen;
    var j := PumpEnded(i);
    Regroup(AtPump(i), AtPump(j), [], Slot(i), Flat(i.preExec));
    assert AtPump(i) + [] + [] + Slot(i) + Flat(i.preExec) == AtPump(i) + Slot(i) + Flat(i.preExec);
  }

  lemma EndedOrdered(i: Inflow)
    requires Ordered(i) && i.child.Some?
    ensures Ordered(PumpEnded(i)) && (Handed(i) ==> Handed(PumpEnded(i)))
  {
    hide Placed, Waiting, AtPump, Flat, Behind, SumLen, Sum;
    EndedMoves(i);
    PumpStops(i.line, AtPump(i), Waiting(PumpEnded(i)), i.lost);
  }
}
