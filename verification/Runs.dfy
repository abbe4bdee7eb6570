/** What a client, an auditor and the key schedule can rely on over every run
of a session, read off its history. A run is any sequence of events, each with
any surroundings, from any state the authentication stage hands over; it may
stop at any point, and the driver is then dropped. */
module Runs {
  import opened Wire
  import opened Trace
  import opened Transport
  import opened Channel
  import opened LinkProofs
  import opened StdinOrder
  import opened StdinProofs
  import opened ChannelProofs
  import opened TraceMeaning
  import opened SessionProofs

  type Events = seq<(Event, Host)>

  function Transcript(s: Session, events: Events): History { Dropped(Drive(s, events)).t.history }

  /** A run is the run of its first part followed by the run of the rest. */
  lemma {:induction false} DriveSplit(s: Session, before: Events, after: Events)
    ensures Drive(s, before + after) ==
            (match Drive(s, before)
             case Live(n) => Drive(n, after)
             case done => done)
    decreases |before|
  {
    hide Iterate;
    if before == [] {
      assert before + after == after;
    } else {
      assert (before + after)[0] == before[0] && (before + after)[1..] == before[1..] + after;
      var st := Iterate(s, before[0].0, before[0].1);
      if st.Live? {
        DriveSplit(st.s, before[1..], after);
      }
    }
  }

  /** From the server's KEXINIT until the exchange completes, the server writes
      only the exchange's own messages and DISCONNECT. */
  lemma RekeyIsHalfDuplex(first: SealView, s: Session, events: Events, i: nat, j: nat)
    requires Fresh(first, s)
    requires var h := Transcript(s, events);
             && i < j < |h| && h[i].Sent? && h[i].frame.KexInit? && h[j].Sent?
             && forall k :: i < k < j ==> !h[k].RekeyCompleted?
    ensures KexFrame(Transcript(s, events)[j].frame)
  {
    RunIsClean(first, s, events);
    hide Dropped, Drive, Exchange, Seals, Order, Output, Audit, Fresh, AuditOk;
    HalfDuplex(Transcript(s, events), i, j);
  }

  lemma QueueIsDeferred(first: SealView, s: Session)
    requires Inv(first, s)
    ensures Exchange(s.t.history).ok && Exchange(s.t.history).deferred == s.d.deferred
  {
    hide BodyOf, IntakeOk, Exchange, Seals, InStep, Below, Intake;
  }

  /** Every message held back during a re-key is handled once, in arrival
      order; at most 64 wait, and none outside a re-key. */
  lemma DeferralsAreHandled(first: SealView, s: Session, events: Events)
    requires Fresh(first, s) && Drive(s, events).Live?
    ensures var n := Drive(s, events).s;
            && HeldBack(n.t.history) == HandledLater(n.t.history) + n.d.deferred
            && |n.d.deferred| <= MAX_DEFERRED
            && (n.t.phase.Idle? ==> HeldBack(n.t.history) == HandledLater(n.t.history))
  {
    hide Drive, Exchange, Inv, Fresh, HeldBack, HandledLater;
    FreshKeeps(first, s);
    DriveKeeps(first, s, events);
    var n := Drive(s, events).s;
    QueueIsDeferred(first, n);
    DeferralIsFifo(n.t.history);
    assert HandledLater(n.t.history) + [] == HandledLater(n.t.history);
  }

  /** The lifecycle never moves backwards between two points of a run. */
  lemma {:induction false} LifecycleIsMonotone(first: SealView, s: Session, before: Events, after: Events)
    requires Fresh(first, s) && Drive(s, before + after).Live?
    ensures Drive(s, before).Live?
    ensures Rank(Drive(s, before).s.d.state) <= Rank(Drive(s, before + after).s.d.state)
  {
    DriveSplit(s, before, after);
    FreshKeeps(first, s);
    DriveKeeps(first, s, before);
    hide Inv, Fresh, Drive, Order, Ended, Rank;
    DriveKeeps(first, Drive(s, before).s, after);
  }

  /** At most one CHANNEL_CLOSE, with neither data nor an exit report after it. */
  lemma CloseIsLast(first: SealView, s: Session, events: Events, i: nat, j: nat)
    requires Fresh(first, s)
    requires i < j < |Transcript(s, events)| && IsClose(Transcript(s, events)[i])
    ensures var e := Transcript(s, events)[j]; !IsClose(e) && !IsData(e) && !IsExitReport(e)
  {
    RunIsClean(first, s, events);
    hide Dropped, Drive, Exchange, Seals, Order, Output, Audit, Fresh, AuditOk;
    CloseIsFinal(Transcript(s, events), i, j);
  }

  /** A clean return has sent exactly one CHANNEL_CLOSE. */
  lemma ReturnMeansClosed(first: SealView, s: Session, events: Events)
    requires Fresh(first, s) && Drive(s, events).Returned?
    ensures var h := Drive(s, events).s.t.history;
            exists i :: 0 <= i < |h| && IsClose(h[i]) && (forall j :: 0 <= j < |h| && IsClose(h[j]) ==> j == i)
  {
    hide Drive, Exchange, Seals, Order, Output, Audit, Intake, Fresh, Inv, IsClose, Tally, LinkClean, AuditOk;
    FreshKeeps(first, s);
    DriveKeeps(first, s, events);
    var h := Drive(s, events).s.t.history;
    LatchesHaveFrames(h);
    var i :| 0 <= i < |h| && IsClose(h[i]);
    forall j | 0 <= j < |h| && IsClose(h[j]) ensures j == i {
      if i < j {
        CloseIsFinal(h, i, j);
      } else if j < i {
        CloseIsFinal(h, j, i);
      }
    }
  }

  /** Before EOF comes the exit report; before CLOSE comes EOF, or the client's
      own CLOSE; all output precedes the report. */
  lemma TerminalMessagesInOrder(first: SealView, s: Session, events: Events, j: nat)
    requires Fresh(first, s) && j < |Transcript(s, events)|
    ensures var h := Transcript(s, events);
            && (IsEof(h[j]) ==> exists i :: 0 <= i < j && IsExitReport(h[i]))
            && (IsClose(h[j]) ==> exists i :: 0 <= i < j && (IsEof(h[i]) || h[i].ClientClosed?))
            && (IsExitReport(h[j]) ==> Output(h[..j]).sent == Output(h[..j]).produced
                                       && forall k :: j < k < |h| ==> !IsData(h[k]) && !h[k].ChildOutput?)
  {
    RunIsClean(first, s, events);
    var h := Transcript(s, events);
    hide Transcript, Exchange, Seals, Order, Output, Audit, Fresh, AuditOk, IsEof, IsClose, IsExitReport, IsData;
    TerminalOrder(h, j);
    FrameBounds(h, j);
    if IsExitReport(h[j]) {
      forall k | j < k < |h| ensures !IsData(h[k]) && !h[k].ChildOutput? {
        ExitReportIsFinal(h, j, k);
      }
    }
  }

  /** The exit report says how the child first ended. */
  lemma ExitReportIsTrue(first: SealView, s: Session, events: Events, j: nat) returns (i: nat)
    requires Fresh(first, s) && j < |Transcript(s, events)| && IsExitReport(Transcript(s, events)[j])
    ensures var h := Transcript(s, events);
            && i < j && h[i].ChildExit? && h[j].frame.msg == ReportFor(h[i].code, h[i].signal)
            && forall k :: 0 <= k < i ==> !h[k].ChildExit?
  {
    RunIsClean(first, s, events);
    hide Transcript, Exchange, Seals, Order, Output, Audit, Fresh, AuditOk;
    i := ReportIsTrue(Transcript(s, events), j);
  }

  /** The bytes on the wire are a prefix of what the child wrote, stream tags
      included, never more than the client's window allowed in total, each
      frame within the client's maximum packet and 32 KiB. */
  lemma OutputIsFaithful(first: SealView, s: Session, events: Events, i: nat)
    requires Fresh(first, s)
    ensures var h := Transcript(s, events);
            && Output(h).sent <= Output(h).produced && |Output(h).sent| <= Output(h).granted
            && (i < |h| && IsData(h[i]) ==>
                  0 < |h[i].frame.msg.data| <= MAX_DATA && |h[i].frame.msg.data| <= Output(h[..i]).maxPacket)
  {
    RunIsClean(first, s, events);
    var h := Transcript(s, events);
    hide Transcript, Exchange, Seals, Order, Output, Audit, Fresh, AuditOk, IsData;
    OutputIsPrefix(h);
    if i < |h| {
      FrameBounds(h, i);
    }
  }

  /** The finished record, on whatever path it is written: its counts are the
      bytes put on the wire and the bytes the child got, acks still queued
      included. */
  lemma RecordIsTrue(first: SealView, s: Session, events: Events, i: nat)
    requires Fresh(first, s) && i < |Transcript(s, events)| && Transcript(s, events)[i].Finished?
    ensures var h := Transcript(s, events);
            && h[i].sent == SatAdd(0, |Output(h).sent|, U64_LIMIT)
            && h[i].received == SatAdd(0, |Intake(h).delivered|, U64_LIMIT)
  {
    RunIsClean(first, s, events);
    var n := Dropped(Drive(s, events));
    hide Drive, Dropped, Exchange, Seals, Order, Output, Audit, Intake, Fresh, SatAdd, LinkClean;
    TotalsAreRecorded(n.t.history, i);
  }

  /** A client that closed first has its child killed and cut off from stdin. */
  lemma ClientCloseKills(first: SealView, s: Session, events: Events)
    requires Fresh(first, s) && Drive(s, events).Live?
    ensures var n := Drive(s, events).s;
            && (n.d.earlyClose <==> exists i :: 0 <= i < |n.t.history| && n.t.history[i].ClientClosed?)
            && (n.d.earlyClose && n.d.inn.child.Some? ==> n.d.inn.child.value.killed && !n.d.inn.child.value.stdinOpen)
  {
    FreshKeeps(first, s);
    DriveKeeps(first, s, events);
    var n := Drive(s, events).s;
    hide Inv, Fresh, Drive, LinkOk, Order, Ordered, Shape;
    InvParts(first, n);
    LatchesHaveFrames(n.t.history);
    ClosedByClient(n.t.history);
  }

  lemma {:induction false} ClosedByClient(h: History)
    ensures (exists i :: 0 <= i < |h| && h[i].ClientClosed?) ==> Order(h).clientClosed
  {
    hide Order, ObserveOrder;
    if h != [] {
      var init := h[..|h| - 1];
      OrderLast(h);
      OrderStep(Order(init), h[|h| - 1]);
      ClosedByClient(init);
      assert forall i :: 0 <= i < |init| ==> init[i] == h[i];
    }
  }

  /** Every exec.started has exactly one exec.finished after the driver is
      dropped, and there is none without a start. */
  lemma AuditPairs(first: SealView, s: Session, events: Events)
    requires Fresh(first, s)
    ensures var h := Transcript(s, events); Count(h, true) == Count(h, false) <= 1
  {
    RunIsClean(first, s, events);
    hide Transcript, Exchange, Seals, Order, Output, Audit, Fresh;
    AuditCounts(Transcript(s, events));
  }

  /** The inbound window is conserved: what the client may still send, as the
      wire shows it, the credit owed, the bytes not yet acknowledged and the bytes no child can
      take any more add up to 2 MiB. Bytes are given up only after the client's
      CLOSE, the pump's end, or a spawn that failed; otherwise, with
      everything consumed and less than a batch of credit owed, the client may
      send more than 1 MiB. */
  lemma WindowIsConserved(first: SealView, s: Session, events: Events)
    requires Fresh(first, s) && Drive(s, events).Live?
    ensures var n := Drive(s, events).s;
            !n.d.state.BeforeOpen? ==>
              var i := n.d.inn;
              && i.window == Intake(n.t.history).window
              && i.window + i.credit + Unacked(i) + i.lost == INITIAL_WINDOW
              && (i.lost > 0 ==> n.d.earlyClose || (i.child.Some? && !i.child.value.pumpAlive) || i.child.None?)
              && (i.lost == 0 && Unacked(i) == 0 && i.credit < CREDIT_BATCH ==> i.window > 1024 * 1024)
  {
    FreshKeeps(first, s);
    DriveKeeps(first, s, events);
    var n := Drive(s, events).s;
    hide LinkOk, Exchange, Order, Output, Audit, Intake, Fresh, Drive, Shape, OrderOk, OutputOk, AuditOk;
    if !n.d.state.BeforeOpen? {
      CreditKeeps(n.d.inn, n.d.earlyClose, Rank(n.d.state) >= 3);
    }
  }

  // ---- packets per key ----

  /** The bound on packets per key from the channel's opening to the server's
      own CLOSE: the threshold, one 32 KiB chunk cut into 1-byte packets, and
      the few packets of a handshake or a close sequence. */
  function PacketBound(t: Link): nat { Max(t.limits.maxPackets, MAX_DEFERRED) + MAX_DATA + 3 }

  /** At a loop point while the channel is in service. */
  predicate Paced(s: Session, before: nat) {
    && s.t.highest <= Max(before, PacketBound(s.t))
    && s.t.sealed <= Max(s.t.limits.maxPackets, MAX_DEFERRED) + (if s.t.phase.Idle? then 0 else MAX_DATA + 2)
  }

  /** In service: open, and the server's CLOSE not yet sent. */
  predicate InService(s: Session) { MayRekey(s.d.state) }

  lemma SeqIsCount(first: SealView, s: Session)
    requires Inv(first, s)
    ensures s.t.sealed < 0x1_0000_0000 ==> s.t.seqTx == s.t.sealed
    ensures s.t.phase.AwaitNewKeys? ==> s.t.sealed == 0
  {
    hide Exchange, Seals, BodyOf, Below;
  }

  lemma TurnPaced(first: SealView, s: Session, host: Host, before: nat)
    requires LoopInv(first, s) && InService(s) && Paced(s, before) && PacketBound(s.t) < 0x1_0000_0000
    ensures var a := Turn(s, host);
            && a.st.t.highest <= Max(before, PacketBound(s.t))
            && (a.Go? && InService(a.st) ==>
                  && (a.st.t.phase.Idle? ==> a.st.t.sealed < s.t.limits.maxPackets)
                  && (!a.st.t.phase.Idle? ==> a.st.t.sealed <= Max(s.t.limits.maxPackets, MAX_DEFERRED) + MAX_DATA + 2))
  {
    hide Inv, Ended, Turn, Handed, Settled;
    TurnKeeps(first, s, host);
    var a := Turn(s, host);
    if a.Go? && InService(a.st) && a.st.t.phase.Idle? {
      SeqIsCount(first, a.st);
    }
  }

  lemma AwaitPaced(first: SealView, s: Session, e: Event, host: Host, before: nat)
    requires LoopInv(first, s) && InService(s) && Handed(s.d.inn) && PacketBound(s.t) < 0x1_0000_0000
    requires s.t.highest <= Max(before, PacketBound(s.t))
    requires if s.t.phase.Idle? then s.t.sealed < s.t.limits.maxPackets
             else s.t.sealed <= Max(s.t.limits.maxPackets, MAX_DEFERRED) + MAX_DATA + 2
    ensures var st := Await(s, e, host);
            st.s.t.highest <= Max(before, PacketBound(s.t)) && (st.Live? ==> Paced(st.s, before))
  {
    hide Inv, Ended, React, Enabled, Settled, Handed;
    SeqIsCount(first, s);
    if Enabled(s, e) {
      ReactKeeps(first, s, e, host);
      if React(s, e, host).Go? {
        SeqIsCount(first, React(s, e, host).st);
      }
    }
  }

  /** After the server's CLOSE nothing counts any more. */
  lemma AwaitPast(first: SealView, s: Session, e: Event, host: Host)
    requires LoopInv(first, s) && !s.d.state.Closed? && Rank(s.d.state) >= 4 && Handed(s.d.inn)
    ensures Await(s, e, host).s.t.highest <= s.t.highest
  {
    hide Inv, Ended, React, Enabled, Settled, Handed;
    if Enabled(s, e) {
      ReactKeeps(first, s, e, host);
    }
  }

  lemma TurnedLoop(first: SealView, s: Session, a: Step<Session>)
    requires Turned(first, s, a) && a.Go?
    ensures LoopInv(first, a.st) && a.st.t.limits == s.t.limits && Rank(s.d.state) <= Rank(a.st.d.state)
            && Handed(a.st.d.inn)
    ensures a.st.d.state.Closed? ==> a.st.t.phase.Idle?
  {
    hide LinkOk, Body, IntakeOk, Handed, Exchange, Order, Output, Audit, Intake, Settled;
    assert Inv(first, a.st);
    ClosedIsIdle(first, a.st);
  }

  lemma ClosedIsIdle(first: SealView, s: Session)
    requires Inv(first, s)
    ensures s.d.state.Closed? ==> s.t.phase.Idle?
  {
    hide Inv, LinkOk, OrderOk, WindowOk, FRESH, Order;
    InvParts(first, s);
  }

  lemma FinishedHighest(s: Session)
    ensures EmitFinished(s).t.highest == s.t.highest
  {
    hide Sum;
  }

  lemma IteratePaced(first: SealView, s: Session, e: Event, host: Host, before: nat)
    requires LoopInv(first, s) && InService(s) && Paced(s, before) && PacketBound(s.t) < 0x1_0000_0000
    ensures var st := Iterate(s, e, host);
            && st.s.t.highest <= Max(before, PacketBound(s.t))
            && (st.Live? && InService(st.s) ==> Paced(st.s, before))
  {
    hide LoopInv, Ended, Turn, Await, EmitFinished, Paced, Handed, Order, Rank;
    TurnKeeps(first, s, host);
    TurnPaced(first, s, host, before);
    var a := Turn(s, host);
    if a.Go? {
      TurnedLoop(first, s, a);
      hide Turned;
      if !RekeyActive(a.st.t) && a.st.d.state.Closed? {
        FinishedHighest(a.st);
      } else if InService(a.st) {
        AwaitPaced(first, a.st, e, host, before);
      } else {
        Forward(s.d.state, a.st.d.state);
        AwaitPast(first, a.st, e, host);
        AwaitKeeps(first, a.st, e, host);
        if Await(a.st, e, host).Live? {
          Forward(s.d.state, Await(a.st, e, host).s.d.state);
        }
      }
    }
  }

  /** Out of service means past the server's CLOSE. */
  lemma Forward(a: ChannelState, b: ChannelState)
    requires MayRekey(a) && Rank(a) <= Rank(b)
    ensures !MayRekey(b) <==> Rank(b) >= 4
  {
  }

  lemma IteratePast(first: SealView, s: Session, e: Event, host: Host)
    requires LoopInv(first, s) && Rank(s.d.state) >= 4
    ensures Iterate(s, e, host).s.t.highest <= s.t.highest
  {
    hide LoopInv, Ended, Turn, Await, EmitFinished, Handed, Order, Rank;
    TurnKeeps(first, s, host);
    var a := Turn(s, host);
    if a.Go? {
      TurnedLoop(first, s, a);
      if !RekeyActive(a.st.t) && a.st.d.state.Closed? {
        FinishedHighest(a.st);
      } else {
        AwaitPast(first, a.st, e, host);
      }
    }
  }

  lemma {:induction false} DrivePast(first: SealView, s: Session, events: Events)
    requires LoopInv(first, s) && Rank(s.d.state) >= 4
    ensures Drive(s, events).s.t.highest <= s.t.highest
    decreases |events|
  {
    hide LoopInv, Ended, Iterate, Order, Rank;
    if events != [] {
      IteratePast(first, s, events[0].0, events[0].1);
      IterateKeeps(first, s, events[0].0, events[0].1);
      var st := Iterate(s, events[0].0, events[0].1);
      if st.Live? {
        DrivePast(first, st.s, events[1..]);
      }
    }
  }

  /** From the channel's opening to the server's own CLOSE, in every run and
      however it ends, no packet is sealed with a count above the bound. */
  lemma {:induction false} PacketsAreBounded(first: SealView, s: Session, events: Events, before: nat)
    requires LoopInv(first, s) && InService(s) && Paced(s, before) && PacketBound(s.t) < 0x1_0000_0000
    ensures Drive(s, events).s.t.highest <= Max(before, PacketBound(s.t))
    decreases |events|
  {
    hide LoopInv, Iterate, Rank, Order, Ended;
    if events != [] {
      var e, host := events[0].0, events[0].1;
      IterateKeeps(first, s, e, host);
      IteratePaced(first, s, e, host, before);
      var st := Iterate(s, e, host);
      hide Paced;
      if st.Live? {
        if InService(st.s) {
          PacketsAreBounded(first, st.s, events[1..], before);
        } else {
          Forward(s.d.state, st.s.d.state);
          DrivePast(first, st.s, events[1..]);
        }
      }
    }
  }

  lemma AwaitOpening(first: SealView, s: Session, e: Event, host: Host)
    requires LoopInv(first, s) && s.d.state.BeforeOpen? && s.t.sealed < s.t.limits.maxPackets && Handed(s.d.inn)
    ensures var st := Await(s, e, host);
            st.Live? && InService(st.s) ==> Paced(st.s, s.t.highest)
  {
    hide Inv, Ended, React, Enabled, Handed, Settled, Rank;
    SeqIsCount(first, s);
    if Enabled(s, e) {
      ReactKeeps(first, s, e, host);
      if React(s, e, host).Go? {
        SeqIsCount(first, React(s, e, host).st);
      }
    }
  }

  lemma BeforeOpenTurn(s: Session, host: Host)
    requires s.d == FRESH
    ensures Turn(s, host) == Go(s) && Handed(s.d.inn)
  {
  }

  lemma FreshUntilOpen(first: SealView, s: Session)
    requires Inv(first, s) && s.d.state.BeforeOpen?
    ensures s.d == FRESH
  {
    hide Inv, LinkOk, OrderOk, WindowOk, FRESH, Order;
    InvParts(first, s);
  }

  /** The channel opens with the counter below the threshold, and is paced from
      then on. */
  lemma OpeningIsPaced(first: SealView, s: Session, e: Event, host: Host)
    requires LoopInv(first, s) && s.d.state.BeforeOpen? && s.t.sealed < s.t.limits.maxPackets
    ensures var st := Iterate(s, e, host);
            st.Live? && InService(st.s) ==> Paced(st.s, s.t.highest)
  {
    FreshUntilOpen(first, s);
    BeforeOpenTurn(s, host);
    hide LoopInv, Ended, Turn, Order, Await, EmitFinished, Handed, FRESH;
    AwaitOpening(first, s, e, host);
  }

  /** The channel opened at event `e`, after the run `before`. */
  ghost predicate OpensAt(s: Session, before: Events, e: (Event, Host)) {
    && Drive(s, before).Live? && Drive(s, before).s.d.state.BeforeOpen?
    && Drive(s, before + [e]).Live? && InService(Drive(s, before + [e]).s)
  }

  /** Over a whole run: when the channel opened below the threshold, no packet
      up to the server's CLOSE has a count above the bound or above those sent
      before the open. */
  lemma CountsAreBounded(first: SealView, s: Session, before: Events, e: (Event, Host), after: Events)
    requires Fresh(first, s) && OpensAt(s, before, e)
    requires var t := Drive(s, before).s.t; t.sealed < t.limits.maxPackets && PacketBound(t) < 0x1_0000_0000
    ensures var t := Drive(s, before).s.t;
            Transcribed(s, before + [e] + after).highest <= Max(t.highest, PacketBound(t))
  {
    FreshKeeps(first, s);
    DriveKeeps(first, s, before);
    var n := Drive(s, before).s;
    DriveSplit(s, before, [e]);
    DriveOne(n, e);
    DriveSplit(s, before + [e], after);
    hide LoopInv, Fresh, Drive, Iterate, EmitFinished, Paced, Order;
    IterateKeeps(first, n, e.0, e.1);
    OpeningIsPaced(first, n, e.0, e.1);
    var m := Iterate(n, e.0, e.1).s;
    PacketsAreBounded(first, m, after, n.t.highest);
    FinishedHighest(Drive(m, after).s);
  }

  /** The link at the end of a run, the driver dropped. */
  function Transcribed(s: Session, events: Events): Link { Dropped(Drive(s, events)).t }

  lemma DriveOne(s: Session, e: (Event, Host))
    ensures Drive(s, [e]) == Iterate(s, e.0, e.1)
  {
    hide Iterate;
    assert [e][1..] == [];
  }

  /** No number is used twice under one key: in any run whose channel opened
      below the packet threshold, up to and including the server's CLOSE, or to
      the end if there is none. */
  lemma NoNumberTwice(first: SealView, s: Session, before: Events, e: (Event, Host), after: Events, i: nat, j: nat)
    requires Fresh(first, s) && OpensAt(s, before, e)
    requires var t := Drive(s, before).s.t;
             t.sealed < t.limits.maxPackets && PacketBound(t) < 0x1_0000_0000 && t.highest < 0x1_0000_0000
    requires var h := Transcript(s, before + [e] + after);
             && i < j < |h| && h[i].Sent? && h[j].Sent? && h[i].stamp.cipher.epoch == h[j].stamp.cipher.epoch
             && forall k :: 0 <= k < j ==> !IsClose(h[k])
    ensures var h := Transcript(s, before + [e] + after); h[i].stamp.number != h[j].stamp.number
  {
    var events := before + [e] + after;
    RunIsClean(first, s, events);
    CountsAreBounded(first, s, before, e, after);
    var t := Transcribed(s, events);
    hide Fresh, OpensAt, Drive, Dropped, Exchange, Seals, Order, Output, Audit, Intake, Tally, AuditOk, IsClose;
    OpenBefore(t.history, j);
    NoSequenceReuse(first, t.history, i, j);
  }

  lemma OpenBefore(h: History, j: nat)
    requires Order(h).ok && j <= |h| && forall k :: 0 <= k < j ==> !IsClose(h[k])
    ensures !Order(h[..j]).closeSent
  {
    hide Order, IsClose;
    OrderPrefix(h, j);
    LatchesHaveFrames(h[..j]);
    assert forall k :: 0 <= k < j ==> h[..j][k] == h[k];
  }
}
