/** When a sequence number is used twice under one key (`transport.rs`, the
wrapping `seq_tx`): exactly when more than 2^32 packets are sealed under it, and
a client can bring that about before it opens a channel, where the server never
starts a re-key. */
module NumberReuse {
  import opened Wire
  import opened Trace
  import opened Transport
  import opened Channel
  import opened LinkProofs
  import opened ChannelProofs
  import opened TraceMeaning
  import opened SessionProofs
  import opened Runs
  import opened ClientSide

  predicate SameKey(h: History, i: int, j: int) {
    0 <= i < j < |h| && h[i].Sent? && h[j].Sent? && h[i].stamp.cipher.epoch == h[j].stamp.cipher.epoch
  }

  ghost predicate Reused(h: History) { exists i, j :: SameKey(h, i, j) && h[i].stamp.number == h[j].stamp.number }

  /** More than 2^32 packets under one key. */
  ghost predicate WornOut(h: History) {
    exists i, j :: SameKey(h, i, j) && h[j].stamp.count - h[i].stamp.count >= 0x1_0000_0000
  }

  /** Counts under one key have no gaps. */
  lemma {:induction false} CountOccurs(first: SealView, h: History, i: nat, j: nat, c: nat) returns (k: nat)
    requires Seals(first, h).ok && i < j <= |h| && h[i].Sent? && Seals(first, h[..j]).epoch == h[i].stamp.cipher.epoch
    requires h[i].stamp.count < c < Seals(first, h[..j]).count
    ensures i < k < j && h[k].Sent? && h[k].stamp.cipher.epoch == h[i].stamp.cipher.epoch && h[k].stamp.count == c
    decreases j
  {
    hide Seals;
    SealAt(first, h, j - 1);
    if i == j - 1 {
      assert false;
    } else {
      StampsGrow(first, h, i, j - 1);
      if h[j - 1].Sent? && h[j - 1].stamp.count == c {
        k := j - 1;
      } else {
        k := CountOccurs(first, h, i, j - 1, c);
      }
    }
  }

  lemma WornOutReuses(first: SealView, h: History, i: nat, j: nat)
    requires Seals(first, h).ok && SameKey(h, i, j) && h[j].stamp.count - h[i].stamp.count >= 0x1_0000_0000
    ensures Reused(h)
  {
    hide Seals;
    var c := h[i].stamp.count + 0x1_0000_0000;
    SealAt(first, h, j);
    var k := j;
    if h[j].stamp.count > c {
      k := CountOccurs(first, h, i, j, c);
    }
    NumbersMeet(first, h, i, k);
    assert SameKey(h, i, k);
  }

  lemma ReuseWearsOut(first: SealView, h: History, i: nat, j: nat)
    requires Seals(first, h).ok && SameKey(h, i, j) && h[i].stamp.number == h[j].stamp.number
    ensures WornOut(h)
  {
    hide Seals;
    NumbersMeet(first, h, i, j);
    assert SameKey(h, i, j);
  }

  /** In every run, a number is used twice under one key if and only if more
      than 2^32 packets are sealed under one key. */
  lemma ReuseExactly(first: SealView, s: Session, events: Events)
    requires Fresh(first, s)
    ensures Reused(Transcript(s, events)) <==> WornOut(Transcript(s, events))
  {
    hide Fresh, Transcript, Seals, Reused, WornOut;
    CleanSeals(first, s, events);
    ReuseIsWear(first, Transcript(s, events));
  }

  // ---- the runs that do it ----

  /** `n` global requests that want a reply. */
  function Flood(n: nat, host: Host): Events
  {
    if n == 0 then [] else [(Packet(GlobalPayload()), host)] + Flood(n - 1, host)
  }

  /** Outside service, where no re-key is started: before the open, or after the
      server's CLOSE with no credit due. */
  predicate OutOfService(d: Driver) { d == FRESH || (d.state.ServerClosed? && d.inn.credit < CREDIT_BATCH) }

  lemma FloodHandled(s: Session, host: Host)
    requires OutOfService(s.d) && s.t.phase.Idle? && s.t.ioLeft > 0
    ensures var r := OnPacket(s, GlobalPayload(), host);
            && r.Go? && r.st.d == s.d && r.st.t.phase.Idle? && r.st.t.ioLeft == s.t.ioLeft - 1
            && r.st.t.sealed == s.t.sealed + 1 && r.st.t.tx.epoch == s.t.tx.epoch
            && r.st.t.history == s.t.history + [Read(|GlobalPayload()|, host.env.now)] +
                                 [Sent(RequestFailure, Stamp(s.t.tx, s.t.sealed, s.t.seqTx))]
  {
    hide Decode, SatAdd, Exchange, Seals, Order, Output, Audit, Intake, FRESH;
    DecodesGlobal();
    assert GlobalPayload()[0] == 80;
    hide GlobalPayload;
  }

  lemma FloodTurn(s: Session, host: Host)
    requires OutOfService(s.d) && s.t.phase.Idle?
    ensures Turn(s, host) == Go(HandOver(s)) && OutOfService(HandOver(s).d) && HandOver(s).t == s.t
    ensures !HandOver(s).d.state.Closed?
  {
    if s.d == FRESH {
      BeforeOpenTurn(s, host);
    } else {
      ClosedTurn(s, host);
    }
  }

  lemma ClosedTurn(s: Session, host: Host)
    requires s.d.state.ServerClosed? && s.d.inn.credit < CREDIT_BATCH && s.t.phase.Idle?
    ensures Turn(s, host) == Go(HandOver(s)) && HandOver(s).d.inn.credit == s.d.inn.credit
  {
    hide RekeyDue;
    assert FlushOutput(s) == Go(s);
  }

  lemma FloodStep(s: Session, host: Host)
    requires OutOfService(s.d) && s.t.phase.Idle? && s.t.ioLeft > 0
    ensures Iterate(s, Packet(GlobalPayload()), host) == Live(OnPacket(HandOver(s), GlobalPayload(), host).st)
    ensures OutOfService(HandOver(s).d) && HandOver(s).t == s.t
  {
    hide Turn, OnPacket, HandOver, OutOfService;
    FloodTurn(s, host);
    FloodHandled(HandOver(s), host);
  }

  /** From entry `start` on, `n` packets read and answered in turn, the answers
      under one key and counted on from `sealed`. */
  predicate Replies(h: History, start: nat, n: nat, epoch: nat, sealed: nat) {
    && start + 2 * n <= |h|
    && forall k :: 0 <= k < n ==>
         && !h[start + 2 * k].Sent? && h[start + 2 * k + 1].Sent?
         && h[start + 2 * k + 1].stamp.cipher.epoch == epoch && h[start + 2 * k + 1].stamp.count == sealed + k
  }

  lemma RepliesFront(h: History, start: nat, n: nat, epoch: nat, sealed: nat)
    requires start + 2 <= |h| && Replies(h, start + 2, n, epoch, sealed + 1)
    requires !h[start].Sent? && h[start + 1].Sent?
    requires h[start + 1].stamp.cipher.epoch == epoch && h[start + 1].stamp.count == sealed
    ensures Replies(h, start, n + 1, epoch, sealed)
  {
    forall k | 0 <= k < n + 1
      ensures !h[start + 2 * k].Sent? && h[start + 2 * k + 1].Sent?
      ensures h[start + 2 * k + 1].stamp.cipher.epoch == epoch && h[start + 2 * k + 1].stamp.count == sealed + k
    {
      if k > 0 {
        var j := k - 1;
        assert !h[start + 2 + 2 * j].Sent? && h[start + 2 + 2 * j + 1].Sent?;
      }
    }
  }

  lemma {:induction false} FloodRuns(s: Session, n: nat, host: Host)
    requires OutOfService(s.d) && s.t.phase.Idle? && s.t.ioLeft >= n
    ensures Drive(s, Flood(n, host)).Live?
    ensures var h, h' := s.t.history, Drive(s, Flood(n, host)).s.t.history;
            |h'| == |h| + 2 * n && h <= h' && Replies(h', |h|, n, s.t.tx.epoch, s.t.sealed)
    decreases n
  {
    hide OutOfService, HandOver, Iterate, OnPacket, GlobalPayload;
    if n > 0 {
      FloodStep(s, host);
      FloodHandled(HandOver(s), host);
      var m := OnPacket(HandOver(s), GlobalPayload(), host).st;
      assert Flood(n, host)[1..] == Flood(n - 1, host);
      FloodRuns(m, n - 1, host);
      var h, h' := m.t.history, Drive(m, Flood(n - 1, host)).s.t.history;
      assert h'[|h| - 1] == h[|h| - 1] && h'[|h| - 2] == h[|h| - 2];
      RepliesFront(h', |s.t.history|, n - 1, s.t.tx.epoch, s.t.sealed);
    }
  }

  /** The count of the first packet of a history under a key, or `next`. */
  function Oldest(h: History, epoch: nat, next: nat): nat {
    if h == [] then next
    else if h[0].Sent? && h[0].stamp.cipher.epoch == epoch then h[0].stamp.count
    else Oldest(h[1..], epoch, next)
  }

  lemma {:induction false} OldestOccurs(h: History, epoch: nat, next: nat) returns (k: nat)
    ensures k <= |h| && forall i :: 0 <= i < k ==> !(h[i].Sent? && h[i].stamp.cipher.epoch == epoch)
    ensures if k == |h| then Oldest(h, epoch, next) == next
            else h[k].Sent? && h[k].stamp.cipher.epoch == epoch && h[k].stamp.count == Oldest(h, epoch, next)
  {
    if h == [] || (h[0].Sent? && h[0].stamp.cipher.epoch == epoch) {
      k := 0;
    } else {
      k := OldestOccurs(h[1..], epoch, next);
      k := k + 1;
      assert forall i :: 1 <= i < |h| ==> h[i] == h[1..][i - 1];
    }
  }

  /** What the flood adds: packets under one key, counted on from `sealed`. */
  ghost predicate Flooded(h: History, all: History, epoch: nat, sealed: nat, n: nat) {
    && h <= all && Replies(all, |h|, n, epoch, sealed) && forall i :: |h| + 2 * n <= i < |all| ==> !all[i].Sent?
  }

  /** A packet of the flood, by its place. */
  lemma FloodedAt(h: History, all: History, epoch: nat, sealed: nat, n: nat, i: nat)
    requires Flooded(h, all, epoch, sealed, n) && |h| <= i < |all| && all[i].Sent?
    ensures n > 0 && all[i].stamp.cipher.epoch == epoch && sealed <= all[i].stamp.count < sealed + n
  {
    var k := (i - |h|) / 2;
    assert i == |h| + 2 * k || i == |h| + 2 * k + 1;
    assert k < n ==> !all[|h| + 2 * k].Sent?;
  }

  lemma FloodWears(first: SealView, h: History, all: History, epoch: nat, sealed: nat, n: nat)
    requires Seals(first, all).ok && Flooded(h, all, epoch, sealed, n) && n > 0
    requires sealed + n - Oldest(h, epoch, sealed) > 0x1_0000_0000
    ensures WornOut(all)
  {
    var k := OldestOccurs(h, epoch, sealed);
    assert k < |h| ==> all[k] == h[k];
    assert all[|h| + 2 * 0 + 1].Sent? && all[|h| + 2 * (n - 1) + 1].Sent?;
    assert SameKey(all, if k < |h| then k else |h| + 1, |h| + 2 * (n - 1) + 1);
  }

  lemma WornByFlood(first: SealView, h: History, all: History, epoch: nat, sealed: nat, n: nat, i: nat, j: nat)
    requires Seals(first, all).ok && Flooded(h, all, epoch, sealed, n)
    requires SameKey(all, i, j) && all[j].stamp.count - all[i].stamp.count >= 0x1_0000_0000
    ensures WornOut(h) || (n > 0 && sealed + n - Oldest(h, epoch, sealed) > 0x1_0000_0000)
  {
    hide Seals;
    if j < |h| {
      assert all[i] == h[i] && all[j] == h[j] && SameKey(h, i, j);
    } else {
      var k := OldestOccurs(h, epoch, sealed);
      FloodedAt(h, all, epoch, sealed, n, j);
      if i < |h| {
        assert all[i] == h[i] && k <= i && all[k] == h[k];
        if k < i {
          NumbersMeet(first, all, k, i);
        }
      } else {
        FloodedAt(h, all, epoch, sealed, n, i);
        if k < |h| {
          assert all[k] == h[k];
          NumbersMeet(first, all, k, i);
        }
      }
    }
  }

  lemma SealsPrefix(first: SealView, h: History, all: History)
    requires Seals(first, all).ok && h <= all
    ensures Seals(first, h).ok
  {
    hide Seals;
    SealPrefix(first, all, |h|);
    assert all[..|h|] == h;
  }

  lemma ReuseIsWear(first: SealView, h: History)
    requires Seals(first, h).ok
    ensures Reused(h) <==> WornOut(h)
  {
    hide Seals;
    if Reused(h) {
      var i, j :| SameKey(h, i, j) && h[i].stamp.number == h[j].stamp.number;
      ReuseWearsOut(first, h, i, j);
    }
    if WornOut(h) {
      var i, j :| SameKey(h, i, j) && h[j].stamp.count - h[i].stamp.count >= 0x1_0000_0000;
      WornOutReuses(first, h, i, j);
    }
  }

  lemma FloodedExactly(first: SealView, h: History, all: History, epoch: nat, sealed: nat, n: nat)
    requires Seals(first, all).ok && Flooded(h, all, epoch, sealed, n)
    ensures Reused(all) <==> Reused(h) || (n > 0 && sealed + n - Oldest(h, epoch, sealed) > 0x1_0000_0000)
  {
    hide Seals, Oldest;
    SealsPrefix(first, h, all);
    ReuseIsWear(first, h);
    ReuseIsWear(first, all);
    if WornOut(all) {
      var i, j :| SameKey(all, i, j) && all[j].stamp.count - all[i].stamp.count >= 0x1_0000_0000;
      WornByFlood(first, h, all, epoch, sealed, n, i, j);
    }
    if WornOut(h) {
      var i, j :| SameKey(h, i, j) && h[j].stamp.count - h[i].stamp.count >= 0x1_0000_0000;
      assert all[i] == h[i] && all[j] == h[j] && SameKey(all, i, j);
    }
    if n > 0 && sealed + n - Oldest(h, epoch, sealed) > 0x1_0000_0000 {
      FloodWears(first, h, all, epoch, sealed, n);
    }
  }

  lemma DroppedSends(s: Session)
    ensures var h, h' := s.t.history, EmitFinished(s).t.history;
            h <= h' && forall i :: |h| <= i < |h'| ==> !h'[i].Sent?
  {
    hide Sum, SatAdd;
  }

  /** At any point of a run outside service, `n` global requests that want a
      reply make a number repeat under one key if and only if one has repeated
      already, or they bring the packets under the current key over 2^32. */
  lemma FloodReuses(first: SealView, s: Session, before: Events, n: nat, host: Host)
    requires Fresh(first, s) && Drive(s, before).Live?
    requires var m := Drive(s, before).s; OutOfService(m.d) && m.t.phase.Idle? && m.t.ioLeft >= n
    ensures var t := Drive(s, before).s.t;
            Reused(Transcript(s, before + Flood(n, host))) <==>
            || Reused(t.history)
            || (n > 0 && t.sealed + n - Oldest(t.history, t.tx.epoch, t.sealed) > 0x1_0000_0000)
  {
    hide Drive, Fresh, OutOfService, Oldest, EmitFinished, Flood, Exchange, Seals, Order, Output, Audit, Intake;
    hide Tally, AuditOk, Reused, LinkClean;
    var m := Drive(s, before).s;
    FloodRuns(m, n, host);
    DriveSplit(s, before, Flood(n, host));
    DroppedSends(Drive(m, Flood(n, host)).s);
    CleanSeals(first, s, before + Flood(n, host));
    FloodedExactly(first, m.t.history, Transcript(s, before + Flood(n, host)), m.t.tx.epoch, m.t.sealed, n);
  }

  lemma CleanSeals(first: SealView, s: Session, events: Events)
    requires Fresh(first, s)
    ensures Seals(first, Transcript(s, events)).ok
  {
    hide Fresh, Drive, Dropped, Seals, Exchange, Order, Output, Audit, Intake, Tally, AuditOk, Below;
    RunIsClean(first, s, events);
  }

  /** From the first message on: exactly when there are more than 2^32. */
  lemma FreshFloodReuses(first: SealView, s: Session, n: nat, host: Host)
    requires Fresh(first, s) && s.t.ioLeft >= n
    ensures Reused(Transcript(s, Flood(n, host))) <==> n > 0x1_0000_0000
  {
    assert Drive(s, []) == Live(s) && [] + Flood(n, host) == Flood(n, host);
    assert !Reused([]) && Oldest([], s.t.tx.epoch, s.t.sealed) == s.t.sealed;
    hide Drive, Transcript, Reused, Oldest, Flood, FRESH, Seals, Exchange, Order, Output, Audit, Intake;
    FloodReuses(first, s, [], n, host);
  }
}
