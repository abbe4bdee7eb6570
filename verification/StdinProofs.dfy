/** The inbound window is conserved by every step of the driver and the stdin
pump (`channel.rs` and `exec.rs`). */
module StdinProofs {
  import opened Wire
  import opened Trace
  import opened Transport
  import opened Channel
  import opened StdinOrder

  function ChildBytes(c: Child): nat { SumLen(c.queue) + |c.inflight| + Sum(c.acks) }

  function PendingBytes(i: Inflow): nat { if i.pending.Some? then |i.pending.value| else 0 }

  /** Bytes accepted from the client that it has no credit for yet: before the
      exec, in the pending slot, and with the pump. */
  function Unacked(i: Inflow): nat {
    SumLen(i.preExec) + PendingBytes(i) + (if i.child.Some? then ChildBytes(i.child.value) else 0)
  }

  predicate Conserved(i: Inflow) { i.window + i.credit + Unacked(i) + i.lost == INITIAL_WINDOW }

  /** `lost` bytes need a reason: the client closed, the pump ended, or no
      child will run. Stdin is closed early only by the client's CLOSE, which
      also kills the child. */
  predicate Losses(i: Inflow, early: bool, ended: bool) {
    && (i.lost > 0 ==> early || (i.child.Some? && !i.child.value.pumpAlive) || (i.child.None? && ended))
    && (i.child.Some? && !i.child.value.stdinOpen && !early ==> i.clientEof && i.pending.None? && i.preExec == [])
    && (i.child.Some? && early ==> i.child.value.killed && !i.child.value.stdinOpen)
    && (i.child.Some? && !i.child.value.pumpAlive ==> i.child.value.queue == [] && i.child.value.inflight == [])
  }

  predicate Accounted(i: Inflow, early: bool, ended: bool) { Losses(i, early, ended) && Ordered(i) }

  /** Bytes the child got whose acks the driver has taken. */
  function Acked(i: Inflow): int { |i.line.delivered| - QueuedAcks(i) }

  lemma SumLenAppend(a: seq<Bytes>, x: Bytes)
    ensures SumLen(a + [x]) == SumLen(a) + |x|
  {
    if a != [] {
      SumLenAppend(a[1..], x);
      assert (a + [x])[1..] == a[1..] + [x];
    }
  }

  lemma SumAppend(a: seq<U32>, x: U32)
    ensures Sum(a + [x]) == Sum(a) + x
  {
    if a != [] {
      SumAppend(a[1..], x);
      assert (a + [x])[1..] == a[1..] + [x];
    }
  }

  /** What a step of the inbound half keeps. */
  predicate InflowKept(i: Inflow, j: Inflow) {
    (Conserved(i) ==> Conserved(j)) && i.child.Some? == j.child.Some? && Acked(j) == Acked(i)
  }

  /** The same, with nothing accepted, credited or delivered. */
  predicate StdinKept(i: Inflow, j: Inflow) {
    && InflowKept(i, j) && j.window == i.window && j.line == i.line && j.clientEof == i.clientEof
    && (i.child.None? ==> j.preExec == i.preExec)
  }

  lemma RefillKeeps(i: Inflow, early: bool, ended: bool)
    requires Accounted(i, early, ended) && i.child.Some?
    ensures StdinKept(i, Refill(i)) && Accounted(Refill(i), early, ended) && Handed(Refill(i))
  {
    hide Ordered, Handed;
    RefillOrdered(i);
  }

  lemma DeliverKeeps(i: Inflow, early: bool, ended: bool)
    requires i.child.Some? && !Blocked(i) && Accounted(i, early, ended) && Handed(i)
    ensures StdinKept(i, Deliver(i)) && Accounted(Deliver(i), early, ended) && Deliver(i).pending.None?
    ensures Handed(Deliver(i))
  {
    hide Ordered, Handed;
    DeliverOrdered(i);
    if i.pending.Some? {
      SumLenAppend(i.child.value.queue, i.pending.value);
    }
  }

  lemma HonourKeeps(i: Inflow, early: bool, ended: bool)
    requires i.child.Some? && Accounted(i, early, ended) && Handed(i)
    ensures StdinKept(i, HonourEof(i)) && Accounted(HonourEof(i), early, ended) && Handed(HonourEof(i))
  {
    hide Placed, Ready, Handed;
    SamePlacesKeep(i, HonourEof(i));
  }

  lemma HandoffKeeps(i: Inflow, early: bool, ended: bool)
    requires Accounted(i, early, ended)
    ensures StdinKept(i, Handoff(i)) && Accounted(Handoff(i), early, ended) && Handed(Handoff(i))
    ensures i.child.None? ==> Handoff(i) == i
  {
    hide Refill, Deliver, HonourEof, Blocked, Accounted, Conserved, Acked;
    if i.child.Some? {
      RefillKeeps(i, early, ended);
      var r := Refill(i);
      if !Blocked(r) {
        DeliverKeeps(r, early, ended);
        HonourKeeps(Deliver(r), early, ended);
      }
    }
  }

  /** A handoff closes stdin exactly when the client has sent EOF and nothing is
      left to deliver. */
  lemma HandoffHonoursEof(i: Inflow)
    requires i.child.Some? && i.child.value.stdinOpen
    ensures var j := Handoff(i);
            && j.child.Some? && j.clientEof == i.clientEof
            && (!j.child.value.stdinOpen <==> i.clientEof && j.pending.None? && j.preExec == [])
  {
  }

  lemma AcceptKeeps(i: Inflow, idle: bool, data: Str, early: bool, ended: bool)
    requires |data| <= i.window && !i.clientEof && Accounted(i, early, ended)
    requires if idle then i.child.None? && i.pending.None? else i.child.None? ==> ended
    requires !idle && i.child.Some? ==> Handed(i)
    ensures var j := Accept(i, idle, data);
            && InflowKept(i, j) && Accounted(j, early, ended) && (!idle ==> j.preExec == i.preExec)
            && j.child == i.child
            && (idle ==> j.pending == i.pending && j.credit == i.credit)
  {
    hide Ordered, Handed;
    if idle {
      EarlyOrdered(i, data);
    } else if i.child.Some? {
      LateOrdered(i, data);
    } else {
      DroppedOrdered(i, data);
    }
    SumLenAppend(i.preExec, data);
  }

  /** Returning credit never saturates, and with everything consumed the
      client may send more than 1 MiB again. */
  lemma CreditKeeps(i: Inflow, early: bool, ended: bool)
    requires Conserved(i) && Accounted(i, early, ended)
    ensures var j := Credited(i);
            && Conserved(j) && Accounted(j, early, ended) && j.window == i.window + i.credit && j.child == i.child
            && Acked(j) == Acked(i) && j.line == i.line && (Handed(i) ==> Handed(j))
    ensures Unacked(i) == 0 && i.lost == 0 && i.credit < CREDIT_BATCH ==> i.window > INITIAL_WINDOW - CREDIT_BATCH
  {
    hide Placed, Ready, Handed;
    SamePlacesKeep(i, Credited(i));
  }

  /** An ack moves exactly its bytes to the credit, and to the count received. */
  lemma AckKeeps(i: Inflow, early: bool, ended: bool)
    requires Conserved(i) && Accounted(i, early, ended) && i.child.Some? && i.child.value.acks != []
    ensures var j, n := AckTaken(i), i.child.value.acks[0];
            && Conserved(j) && Accounted(j, early, ended) && j.credit == i.credit + n && Acked(j) == Acked(i) + n
            && j.child.Some? && j.window == i.window && j.line == i.line && j.preExec == i.preExec
            && j.pending == i.pending
            && (Handed(i) ==> Handed(j))
  {
    hide Placed, Ready, Handed;
    SamePlacesKeep(i, AckTaken(i));
  }

  lemma PumpTookKeeps(i: Inflow, early: bool, ended: bool)
    requires Accounted(i, early, ended) && i.child.Some? && i.child.value.pumpAlive
    requires i.child.value.queue != [] && i.child.value.inflight == []
    ensures StdinKept(i, PumpTook(i)) && Accounted(PumpTook(i), early, ended)
  {
    hide Ordered, Handed;
    TookOrdered(i);
  }

  lemma PumpWroteKeeps(i: Inflow, n: U32, early: bool, ended: bool)
    requires Accounted(i, early, ended) && i.child.Some? && i.child.value.pumpAlive && n <= |i.child.value.inflight|
    ensures var j, w := PumpWrote(i, n), i.child.value.inflight[..n];
            && InflowKept(i, j) && Accounted(j, early, ended) && j.window == i.window
            && j.line == i.line.(delivered := i.line.delivered + w)
            && multiset(i.line.delivered + w) <= multiset(i.line.accepted)
            && (i.line.crowd == [] || !i.line.late ==> i.line.delivered + w <= i.line.accepted)
  {
    hide Ordered, Handed, Sum, SumLen;
    SumAppend(i.child.value.acks, n);
    OrderedAcks(i);
    WroteOrdered(i, n);
  }

  lemma OrderedAcks(i: Inflow)
    requires Ordered(i)
    ensures QueuedAcks(i) <= |i.line.delivered|
  {
    hide Placed, Ready, Sum;
  }

  lemma PumpEndedKeeps(i: Inflow, early: bool, ended: bool)
    requires Accounted(i, early, ended) && i.child.Some? && i.child.value.pumpAlive
    ensures StdinKept(i, PumpEnded(i)) && Accounted(PumpEnded(i), early, ended)
  {
    hide Ordered, Handed;
    EndedOrdered(i);
  }
}
