/** What the rules of `Trace` mean, read off the history itself. */
module TraceMeaning {
  import opened Wire
  import opened Trace

  // ---- the exchange ----

  lemma {:induction false} ExchangePrefix(h: History, n: nat)
    requires n <= |h| && Exchange(h).ok
    ensures Exchange(h[..n]).ok
    decreases |h|
  {
    if n < |h| {
      ExchangePrefix(h[..|h| - 1], n);
      assert h[..|h| - 1][..n] == h[..n];
    } else {
      assert h[..n] == h;
    }
  }

  lemma ExchangeAt(h: History, i: nat)
    requires i < |h| && Exchange(h).ok
    ensures Exchange(h[..i]).ok && Exchange(h[..i + 1]).ok
    ensures Exchange(h[..i + 1]) == ObserveExchange(Exchange(h[..i]), h[i])
  {
    ExchangePrefix(h, i + 1);
    ExchangePrefix(h, i);
    assert h[..i + 1][..i] == h[..i];
  }

  /** From a KEXINIT until the exchange completes, the server writes only the
      exchange's messages and DISCONNECT. */
  lemma {:induction false} HalfDuplex(h: History, i: nat, j: nat)
    requires Exchange(h).ok
    requires i < j < |h| && h[i].Sent? && h[i].frame.KexInit?
    requires forall k :: i < k < j ==> !h[k].RekeyCompleted?
    ensures Exchange(h[..j]).kex > 0
    ensures h[j].Sent? ==> KexFrame(h[j].frame)
    decreases j
  {
    hide Exchange;
    ExchangeAt(h, j - 1);
    ExchangeAt(h, j);
    if i < j - 1 {
      HalfDuplex(h, i, j - 1);
    }
  }

  /** The payloads held back, and those handled afterwards, in order. */
  function HeldBack(h: History): seq<Bytes> {
    if h == [] then []
    else HeldBack(h[..|h| - 1]) + (if h[|h| - 1].Deferred? then [h[|h| - 1].payload] else [])
  }

  function HandledLater(h: History): seq<Bytes> {
    if h == [] then []
    else HandledLater(h[..|h| - 1]) + (if h[|h| - 1].Undeferred? then [h[|h| - 1].payload] else [])
  }

  /** Every message held back is handled once, in arrival order, and at most
      64 are waiting. */
  lemma {:induction false} DeferralIsFifo(h: History)
    requires Exchange(h).ok
    ensures HeldBack(h) == HandledLater(h) + Exchange(h).deferred
    ensures |Exchange(h).deferred| <= MAX_DEFERRED
  {
    if h != [] {
      var init := h[..|h| - 1];
      ExchangeAt(h, |h| - 1);
      assert h[..|h|] == h;
      DeferralIsFifo(init);
      hide Exchange;
      QueueStep(Exchange(init), h[|h| - 1], HeldBack(init), HandledLater(init));
    }
  }

  lemma QueueStep(v: ExchangeView, e: Entry, held: seq<Bytes>, later: seq<Bytes>)
    requires ObserveExchange(v, e).ok && held == later + v.deferred && |v.deferred| <= MAX_DEFERRED
    ensures var w := ObserveExchange(v, e);
            && held + (if e.Deferred? then [e.payload] else []) ==
               later + (if e.Undeferred? then [e.payload] else []) + w.deferred
            && |w.deferred| <= MAX_DEFERRED
  {
    if e.Undeferred? && v.deferred != [] {
      assert v.deferred == [v.deferred[0]] + v.deferred[1..];
    }
  }

  /** What is held back is never a message that is handled at once. */
  lemma {:induction false} HeldBackSpeaks(h: History)
    requires Exchange(h).ok
    ensures forall p <- Exchange(h).deferred :: !InboundOnly(p)
  {
    if h != [] {
      ExchangeAt(h, |h| - 1);
      assert h[..|h|] == h;
      HeldBackSpeaks(h[..|h| - 1]);
      hide InboundOnly;
    }
  }

  // ---- sealing ----

  lemma {:induction false} SealPrefix(first: SealView, h: History, n: nat)
    requires n <= |h| && Seals(first, h).ok
    ensures Seals(first, h[..n]).ok
    decreases |h|
  {
    if n < |h| {
      SealPrefix(first, h[..|h| - 1], n);
      assert h[..|h| - 1][..n] == h[..n];
    } else {
      assert h[..n] == h;
    }
  }

  lemma SealAt(first: SealView, h: History, i: nat)
    requires i < |h| && Seals(first, h).ok
    ensures Seals(first, h[..i]).ok && Seals(first, h[..i + 1]).ok
    ensures Seals(first, h[..i + 1]) == ObserveSeal(Seals(first, h[..i]), h[i])
  {
    SealPrefix(first, h, i + 1);
    SealPrefix(first, h, i);
    assert h[..i + 1][..i] == h[..i];
  }

  lemma {:induction false} StampsGrow(first: SealView, h: History, i: nat, j: nat)
    requires Seals(first, h).ok && i < j <= |h| && h[i].Sent?
    ensures var v := Seals(first, h[..j]);
            h[i].stamp.cipher.epoch < v.epoch || (h[i].stamp.cipher.epoch == v.epoch && h[i].stamp.count < v.count)
    decreases j
  {
    SealAt(first, h, j - 1);
    if i < j - 1 {
      StampsGrow(first, h, i, j - 1);
    }
  }

  /** Two packets under one key have one number if and only if their counts
      differ by a multiple of 2^32. */
  lemma NumbersMeet(first: SealView, h: History, i: nat, j: nat)
    requires Seals(first, h).ok && i < j < |h| && h[i].Sent? && h[j].Sent?
    requires h[i].stamp.cipher.epoch == h[j].stamp.cipher.epoch
    ensures h[i].stamp.count < h[j].stamp.count
    ensures h[i].stamp.number == h[j].stamp.number <==> (h[j].stamp.count - h[i].stamp.count) % 0x1_0000_0000 == 0
  {
    hide Seals;
    StampsGrow(first, h, i, j);
    SealAt(first, h, i);
    SealAt(first, h, j);
    Congruent(h[i].stamp.count, h[j].stamp.count);
  }

  lemma Congruent(a: nat, b: nat)
    ensures a % 0x1_0000_0000 == b % 0x1_0000_0000 <==> (b - a) % 0x1_0000_0000 == 0
  {
    var m := 0x1_0000_0000;
    assert b - a == m * (b / m - a / m) + (b % m - a % m);
  }

  /** No two packets are sealed with one number under one key, as long as
      fewer than 2^32 are sealed under it. */
  lemma NoSequenceReuse(first: SealView, h: History, i: nat, j: nat)
    requires Seals(first, h).ok && i < j < |h| && h[i].Sent? && h[j].Sent?
    requires h[i].stamp.cipher.epoch == h[j].stamp.cipher.epoch && h[j].stamp.count < 0x1_0000_0000
    ensures h[i].stamp.number != h[j].stamp.number
  {
    hide Seals;
    NumbersMeet(first, h, i, j);
  }

  // ---- the channel ----

  predicate IsData(e: Entry) { e.Sent? && e.frame.Channel? && e.frame.msg.Data? }
  predicate IsExitReport(e: Entry) {
    e.Sent? && e.frame.Channel? && (e.frame.msg.ExitStatus? || e.frame.msg.ExitSignal?)
  }
  predicate IsEof(e: Entry) { e.Sent? && e.frame.Channel? && e.frame.msg.Eof? }
  predicate IsClose(e: Entry) { e.Sent? && e.frame.Channel? && e.frame.msg.Close? }

  predicate Latches(v: OrderView, w: OrderView, e: Entry) {
    && (w.ok ==> v.ok)
    && (w.exitSent <==> v.exitSent || IsExitReport(e)) && (w.eofSent <==> v.eofSent || IsEof(e))
    && (w.closeSent <==> v.closeSent || IsClose(e)) && (w.clientClosed <==> v.clientClosed || e.ClientClosed?)
  }

  /** Each latch is set by its own entry. */
  lemma OrderStep(v: OrderView, e: Entry)
    ensures Latches(v, ObserveOrder(v, e), e)
  {
    if e.Sent? {
      SentStep(v, e.frame, e.stamp);
    } else {
      NotedStep(v, e);
    }
  }

  lemma SentStep(v: OrderView, f: Frame, stamp: Stamp)
    ensures Latches(v, ObserveOrder(v, Sent(f, stamp)), Sent(f, stamp))
  {
  }

  lemma NotedStep(v: OrderView, e: Entry)
    requires !e.Sent?
    ensures Latches(v, ObserveOrder(v, e), e)
  {
    hide ReportFor;
  }

  /** The first end gives the report. */
  lemma ReportStep(v: OrderView, e: Entry)
    ensures var w := ObserveOrder(v, e);
            && (v.report.Some? ==> w.report == v.report)
            && (v.report.None? ==> w.report == if e.ChildExit? then Some(ReportFor(e.code, e.signal)) else None)
  {
    hide ReportFor;
    if e.Sent? {
      SentReport(v, e.frame, e.stamp);
    }
  }

  lemma SentReport(v: OrderView, f: Frame, stamp: Stamp)
    ensures ObserveOrder(v, Sent(f, stamp)).report == v.report
  {
  }

  lemma {:induction false} OrderPrefix(h: History, n: nat)
    requires n <= |h|
    ensures Order(h).ok ==> Order(h[..n]).ok
    ensures Order(h[..n]).exitSent ==> Order(h).exitSent
    ensures Order(h[..n]).closeSent ==> Order(h).closeSent
    decreases |h|
  {
    hide Order, ObserveOrder;
    if n < |h| {
      OrderLast(h);
      OrderStep(Order(h[..|h| - 1]), h[|h| - 1]);
      OrderPrefix(h[..|h| - 1], n);
      assert h[..|h| - 1][..n] == h[..n];
    } else {
      assert h[..n] == h;
    }
  }

  lemma OrderLast(h: History)
    requires h != []
    ensures Order(h) == ObserveOrder(Order(h[..|h| - 1]), h[|h| - 1])
  {
  }

  lemma OrderAt(h: History, i: nat)
    requires i < |h| && Order(h).ok
    ensures Order(h[..i]).ok && Order(h[..i + 1]).ok
    ensures Order(h[..i + 1]) == ObserveOrder(Order(h[..i]), h[i])
  {
    OrderPrefix(h, i + 1);
    OrderPrefix(h, i);
    assert h[..i + 1][..i] == h[..i];
  }

  /** A latch set by entry `i` is still set before entry `j`. */
  lemma LatchedBefore(h: History, i: nat, j: nat)
    requires Order(h).ok && i < j <= |h|
    ensures IsClose(h[i]) ==> Order(h[..j]).closeSent
    ensures IsExitReport(h[i]) ==> Order(h[..j]).exitSent
  {
    hide Order, ObserveOrder, IsClose, IsExitReport;
    assert h[..j][..i + 1] == h[..i + 1];
    OrderPrefix(h[..j], i + 1);
    OrderAt(h, i);
    OrderStep(Order(h[..i]), h[i]);
  }

  /** At most one CHANNEL_CLOSE; no data and no exit report after it. */
  lemma CloseIsFinal(h: History, i: nat, j: nat)
    requires Order(h).ok && i < j < |h| && IsClose(h[i])
    ensures !IsClose(h[j]) && !IsData(h[j]) && !IsExitReport(h[j])
  {
    LatchedBefore(h, i, j);
    OrderAt(h, j);
  }

  /** The exit report is sent once, and neither data nor child output follows. */
  lemma ExitReportIsFinal(h: History, i: nat, j: nat)
    requires Order(h).ok && i < j < |h| && IsExitReport(h[i])
    ensures !IsData(h[j]) && !IsExitReport(h[j]) && !h[j].ChildOutput?
  {
    LatchedBefore(h, i, j);
    OrderAt(h, j);
  }

  lemma {:induction false} LatchesHaveFrames(h: History)
    requires Order(h).ok
    ensures Order(h).exitSent ==> exists i :: 0 <= i < |h| && IsExitReport(h[i])
    ensures Order(h).eofSent ==> exists i :: 0 <= i < |h| && IsEof(h[i])
    ensures Order(h).closeSent ==> exists i :: 0 <= i < |h| && IsClose(h[i])
    ensures Order(h).clientClosed ==> exists i :: 0 <= i < |h| && h[i].ClientClosed?
  {
    hide Order, ObserveOrder, IsExitReport, IsEof, IsClose;
    NothingYet();
    if h != [] {
      var init := h[..|h| - 1];
      OrderLast(h);
      OrderStep(Order(init), h[|h| - 1]);
      LatchesHaveFrames(init);
      assert forall i :: 0 <= i < |init| ==> init[i] == h[i];
    }
  }

  lemma NothingYet()
    ensures var v := Order([]);
            v.ok && !v.exitSent && !v.eofSent && !v.closeSent && !v.clientClosed && v.report.None?
  {
  }

  /** EOF follows an exit report; CLOSE follows an EOF, unless the client
      closed first. */
  lemma TerminalOrder(h: History, j: nat)
    requires Order(h).ok && j < |h|
    ensures IsEof(h[j]) ==> exists i :: 0 <= i < j && IsExitReport(h[i])
    ensures IsClose(h[j]) ==> exists i :: 0 <= i < j && (IsEof(h[i]) || h[i].ClientClosed?)
  {
    OrderAt(h, j);
    LatchesHaveFrames(h[..j]);
    assert forall i :: 0 <= i < j ==> h[..j][i] == h[i];
  }

  /** The report called for is that of the child's first end. */
  lemma {:induction false} ReportIsFirstEnd(h: History) returns (i: nat)
    requires Order(h).report.Some?
    ensures i < |h| && h[i].ChildExit? && Order(h).report == Some(ReportFor(h[i].code, h[i].signal))
    ensures forall k :: 0 <= k < i ==> !h[k].ChildExit?
  {
    hide Order, ObserveOrder;
    NothingSaid(h);
    var init := h[..|h| - 1];
    OrderLast(h);
    ReportStep(Order(init), h[|h| - 1]);
    assert forall k :: 0 <= k < |h| - 1 ==> h[k] == init[k];
    if Order(init).report.Some? {
      i := ReportIsFirstEnd(init);
    } else {
      i := |h| - 1;
      NoEndNoReport(init);
    }
  }

  lemma NothingSaid(h: History)
    ensures Order(h).report.Some? ==> h != []
  {
  }

  lemma {:induction false} NoEndNoReport(h: History)
    requires Order(h).report.None?
    ensures forall k :: 0 <= k < |h| ==> !h[k].ChildExit?
  {
    hide Order, ObserveOrder;
    if h != [] {
      OrderLast(h);
      ReportStep(Order(h[..|h| - 1]), h[|h| - 1]);
      NoEndNoReport(h[..|h| - 1]);
      assert forall k :: 0 <= k < |h| - 1 ==> h[k] == h[..|h| - 1][k];
    }
  }

  /** An exit report on the wire says what the child's first end was. */
  lemma ReportIsTrue(h: History, j: nat) returns (i: nat)
    requires Order(h).ok && j < |h| && IsExitReport(h[j])
    ensures i < j && h[i].ChildExit? && h[j].frame.msg == ReportFor(h[i].code, h[i].signal)
    ensures forall k :: 0 <= k < i ==> !h[k].ChildExit?
  {
    OrderAt(h, j);
    i := ReportIsFirstEnd(h[..j]);
    assert forall k :: 0 <= k < j ==> h[..j][k] == h[k];
  }

  // ---- the child's output ----

  lemma {:induction false} OutputPrefix(h: History, n: nat)
    requires n <= |h| && Output(h).ok
    ensures Output(h[..n]).ok
    decreases |h|
  {
    if n < |h| {
      OutputPrefix(h[..|h| - 1], n);
      assert h[..|h| - 1][..n] == h[..n];
    } else {
      assert h[..n] == h;
    }
  }

  lemma OutputAt(h: History, i: nat)
    requires i < |h| && Output(h).ok
    ensures Output(h[..i]).ok && Output(h[..i + 1]).ok
    ensures Output(h[..i + 1]) == ObserveOutput(Output(h[..i]), h[i])
  {
    OutputPrefix(h, i + 1);
    OutputPrefix(h, i);
    assert h[..i + 1][..i] == h[..i];
  }

  lemma OutputStep(v: OutputView, e: Entry)
    requires v.ok && ObserveOutput(v, e).ok && v.sent <= v.produced && |v.sent| <= v.granted
    ensures var w := ObserveOutput(v, e); w.sent <= w.produced && |w.sent| <= w.granted
  {
  }

  /** On the wire: a prefix of the child's output, within the client's window. */
  lemma {:induction false} OutputIsPrefix(h: History)
    requires Output(h).ok
    ensures Output(h).sent <= Output(h).produced && |Output(h).sent| <= Output(h).granted
  {
    if h != [] {
      OutputAt(h, |h| - 1);
      assert h[..|h|] == h;
      OutputIsPrefix(h[..|h| - 1]);
      OutputStep(Output(h[..|h| - 1]), h[|h| - 1]);
    }
  }

  /** Every data frame obeys the client's maximum packet and 32 KiB; the exit
      report is sent when all the child wrote is on the wire. */
  lemma FrameBounds(h: History, i: nat)
    requires Output(h).ok && i < |h|
    ensures IsData(h[i]) ==> 0 < |h[i].frame.msg.data| <= MAX_DATA && |h[i].frame.msg.data| <= Output(h[..i]).maxPacket
    ensures IsExitReport(h[i]) ==> Output(h[..i]).sent == Output(h[..i]).produced
  {
    OutputAt(h, i);
  }

  // ---- the audit pair ----

  function Count(h: History, started: bool): nat {
    if h == [] then 0
    else Count(h[..|h| - 1], started) +
         (if (if started then h[|h| - 1].Started? else h[|h| - 1].Finished?) then 1 else 0)
  }

  lemma {:induction false} AuditCounts(h: History)
    requires Audit(h).ok
    ensures Count(h, true) == (if Audit(h).started then 1 else 0)
    ensures Count(h, false) == (if Audit(h).finished then 1 else 0)
    ensures Audit(h).finished ==> Audit(h).started
  {
    if h != [] {
      AuditCounts(h[..|h| - 1]);
    }
  }

  /** The totals are those of the finished record. */
  lemma {:induction false} TotalsAreRecorded(h: History, i: nat)
    requires Audit(h).ok && i < |h| && h[i].Finished?
    ensures Audit(h).finished && Audit(h).totals == Some((h[i].sent, h[i].received))
    decreases |h|
  {
    if i < |h| - 1 {
      TotalsAreRecorded(h[..|h| - 1], i);
    }
  }

  // ---- the client's input ----

  lemma IntakeStep(v: IntakeView, e: Entry)
    requires ObserveIntake(v, e).ok && multiset(v.delivered) <= multiset(v.accepted)
    requires v.crowd == [] || !v.late ==> v.delivered <= v.accepted
    ensures var w := ObserveIntake(v, e);
            && multiset(w.delivered) <= multiset(w.accepted)
            && (w.crowd == [] || !w.late ==> w.delivered <= w.accepted)
  {
    hide ObserveIntake;
    IntakeCases(v, e);
    if e.Took? {
      Longer(v.delivered, v.accepted, e.input);
    }
  }

  lemma IntakeCases(v: IntakeView, e: Entry)
    ensures var w := ObserveIntake(v, e);
            && w.accepted == v.accepted + (if e.Took? then e.input else [])
            && w.delivered == v.delivered + (if e.Delivered? then e.input else [])
            && (w.crowd == [] ==> v.crowd == []) && (v.late ==> w.late)
            && (e.Delivered? && w.ok ==> DeliveryAllowed(v, e.input) && w.crowd == v.crowd && w.late == v.late)
  {
    hide DeliveryAllowed;
    assert v.accepted + [] == v.accepted && v.delivered + [] == v.delivered;
  }

  lemma Longer(a: Bytes, b: Bytes, more: Bytes)
    ensures multiset(a) <= multiset(b) ==> multiset(a) <= multiset(b + more)
    ensures a <= b ==> a <= b + more
  {
    assert multiset(b + more) == multiset(b) + multiset(more);
  }

  /** The child's input is made of accepted bytes, each used once; without a
      crowd before the exec, or without data after it, it is the start of what
      the client sent. */
  lemma {:induction false} IntakeIsFaithful(h: History)
    requires Intake(h).ok
    ensures multiset(Intake(h).delivered) <= multiset(Intake(h).accepted)
    ensures Intake(h).crowd == [] || !Intake(h).late ==> Intake(h).delivered <= Intake(h).accepted
  {
    if h != [] {
      var init := h[..|h| - 1];
      IntakeIsFaithful(init);
      IntakeStep(Intake(init), h[|h| - 1]);
    }
  }

  lemma IntakeLast(h: History)
    requires h != []
    ensures Intake(h) == ObserveIntake(Intake(h[..|h| - 1]), h[|h| - 1])
  {
  }

  /** After the client's EOF nothing is accepted. */
  lemma {:induction false} NothingAfterEof(h: History, n: nat)
    requires n <= |h| && Intake(h).ok && Intake(h[..n]).ended
    ensures Intake(h).ended && Intake(h).accepted == Intake(h[..n]).accepted && Intake(h).late == Intake(h[..n]).late
    decreases |h|
  {
    hide Intake;
    if n < |h| {
      var init := h[..|h| - 1];
      assert init[..n] == h[..n];
      IntakeLast(h);
      NothingAfterEof(init, n);
    } else {
      assert h[..n] == h;
    }
  }
}
