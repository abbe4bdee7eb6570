/** What a turn of the `drive` loop (`channel.rs`) and each event it waits for must
do: nothing that is due is left undone. All of it is read off the history of any
run. */
module Duties {
  import opened Wire
  import opened Trace
  import opened Transport
  import opened Channel
  import opened LinkProofs
  import opened StdinOrder
  import opened StdinProofs
  import opened ChannelProofs
  import opened SessionProofs
  import opened LinkSteps
  import opened Metering

  type Events = seq<(Event, Host)>

  /** The loop has come to `n` in a run from a fresh session. */
  ghost predicate Comes(first: SealView, s: Session, events: Events, n: Session) {
    Fresh(first, s) && Drive(s, events) == Live(n)
  }

  lemma ComesKeeps(first: SealView, s: Session, events: Events, n: Session)
    requires Comes(first, s, events, n)
    ensures LoopInv(first, n) && n.t.limits == s.t.limits && Metered(StartOf(s.t))(n.t)
    ensures Exchange(n.t.history).kex == 0 <==> n.t.phase.Idle?
    ensures InService(Order(n.t.history)) <==> MayRekey(n.d.state)
  {
    hide Fresh, LoopInv, Drive, Robust, Holds, Agree, Meter, Exchange, InService, Order;
    StartMetered(first, s);
    MeteredIsRobust(StartOf(s.t));
    FreshKeeps(first, s);
    DriveKeeps(first, s, events);
    DriveHolds(Metered(StartOf(s.t)), s, events);
    HoldsParts(Metered(StartOf(s.t)), n);
    LoopService(first, n);
  }

  // ---- what a turn leaves done ----

  /** Every byte of output is on the wire, or the window is used up, or the client
      has closed. */
  predicate OutputDone(v: OrderView, o: OutputView) {
    v.clientClosed || o.sent == o.produced || |o.sent| == o.granted
  }

  /** Nothing is left to do but the close: the output is at its end, and all of it
      and how the child ended is known and sent, or the client has closed. */
  predicate Finished(v: OrderView, o: OutputView) {
    InService(v) && v.drained && (v.clientClosed || (v.report.Some? && o.sent == o.produced))
  }

  lemma FlushedExactly(d: Driver, phase: Phase, v: OrderView, o: OutputView, a: AuditView)
    requires Body(d, phase, v, o, a)
    ensures !CanFlush(d) ==> OutputDone(v, o)
    ensures d.out.pending.None? || !d.earlyClose
    ensures d.out.pending.None? || !(o.sent == o.produced)
    ensures d.out.pending.None? ==> v.clientClosed || o.sent == o.produced
  {
    hide Conserved, Accounted, Counted, FRESH, AuditOk;
    assert o.sent + [] == o.sent;
  }

  lemma ReadyExactly(d: Driver, phase: Phase, v: OrderView, o: OutputView, a: AuditView)
    requires Body(d, phase, v, o, a)
    ensures Finished(v, o) <==> ReadyToClose(d)
  {
    FlushedExactly(d, phase, v, o, a);
    hide Conserved, Accounted, Counted, OutputOk, AuditOk;
  }

  lemma BodyParts(first: SealView, s: Session)
    requires Inv(first, s)
    ensures var h := s.t.history; Body(s.d, s.t.phase, Order(h), Output(h), Audit(h))
  {
    hide LinkOk, Body, IntakeOk, Exchange, Order, Output, Audit, Intake;
  }

  /** The close sequence changes nothing but the lifecycle. */
  lemma CloseFields(s: Session)
    ensures var r := CloseSequence(s); r.Go? ==> r.st.d == s.d.(state := r.st.d.state)
    ensures var r := CloseSequence(s);
            r.Go? && !RekeyActive(s.t) && ReadyToClose(s.d) ==> r.st.d.state.Closed? || r.st.d.state.ServerClosed?
    ensures !ReadyToClose(s.d) ==> CloseSequence(s) == Go(s)
  {
    hide Write;
  }

  predicate StdinDone(i: Inflow) {
    i.child.Some? && i.pending.Some? ==> !i.child.value.pumpAlive || |i.child.value.queue| >= 8
  }

  lemma HandoffDone(i: Inflow)
    ensures StdinDone(Handoff(i)) && Handoff(i).credit == i.credit
  {
  }

  lemma BeforeRekeyStdin(s: Session)
    ensures BeforeRekey(s).Go? ==> StdinDone(BeforeRekey(s).st.d.inn)
  {
    hide FlushOutput, Handoff, Write, StdinDone, SatAdd;
    if FlushOutput(s).Go? {
      HandoffDone(FlushOutput(s).st.d.inn);
      CreditedStdin(Handoff(FlushOutput(s).st.d.inn));
    }
  }

  lemma CreditedStdin(i: Inflow)
    requires StdinDone(i)
    ensures StdinDone(i.(window := Credited(i).window, credit := 0)) && StdinDone(Credited(i))
  {
  }

  /** A turn outside a re-key that goes on has done (A) to (E). */
  lemma TurnDone(first: SealView, s: Session, host: Host)
    requires LoopInv(first, s) && s.t.phase.Idle? && Turn(s, host).Go?
    ensures var r := Turn(s, host).st;
            var v, o := Order(r.t.history), Output(r.t.history);
            && OutputDone(v, o) && StdinDone(r.d.inn) && r.d.inn.credit < CREDIT_BATCH
            && (r.t.phase.Idle? ==> !Finished(v, o))
  {
    hide Inv, Turn, BeforeRekey, StartRekey, CloseSequence, CanFlush, Order, Output, Audit, Body, StdinDone;
    hide OutputDone, Finished, Ended, ReadyToClose, Settled;
    TurnStages(s, host);
    BeforeRekeyKeeps(first, s);
    BeforeRekeyStdin(s);
    var b := BeforeRekey(s).st;
    StartRekeyKeeps(first, b, host);
    var c := StartRekey(b, host).st;
    CloseSequenceKeeps(first, c);
    CloseFields(c);
    var r := CloseSequence(c).st;
    BodyParts(first, c);
    BodyParts(first, r);
    FlushStands(b.d, c.d);
    FlushedExactly(r.d, r.t.phase, Order(r.t.history), Output(r.t.history), Audit(r.t.history));
    ReadyExactly(r.d, r.t.phase, Order(r.t.history), Output(r.t.history), Audit(r.t.history));
    ClosedStands(c.d, r.d);
  }

  /** Neither flushing nor closing is left to do once closed. */
  lemma ClosedStands(d: Driver, r: Driver)
    requires r == d.(state := r.state) && !CanFlush(d)
    requires r == d || r.state.Closed? || r.state.ServerClosed?
    ensures !CanFlush(r) && (r.state.Closed? || r.state.ServerClosed? ==> !ReadyToClose(r))
  {
  }

  /** In every run, a turn outside a re-key that goes on leaves nothing undone: (A)
      all output is sent or the window used up, (B) stdin waits only for a pump
      that is gone or whose queue of 8 is full, (C) under 1 MiB of credit is owed,
      and (E) unless a re-key has just begun, a finished channel has been closed. */
  lemma TurnDischarges(first: SealView, s: Session, events: Events, n: Session, host: Host)
    requires Comes(first, s, events, n) && Exchange(n.t.history).kex == 0 && Turn(n, host).Go?
    ensures var r := Turn(n, host).st;
            var v, o := Order(r.t.history), Output(r.t.history);
            && OutputDone(v, o) && StdinDone(r.d.inn) && r.d.inn.credit < 0x10_0000
            && (Exchange(r.t.history).kex == 0 ==> !Finished(v, o))
  {
    hide Comes, LoopInv, Turn, Exchange, Order, Output, OutputDone, StdinDone, Finished, InService, Metered;
    ComesKeeps(first, s, events, n);
    TurnDone(first, n, host);
    TurnLoop(first, n, host);
    LoopService(first, Turn(n, host).st);
  }

  lemma TurnLoop(first: SealView, s: Session, host: Host)
    requires LoopInv(first, s) && Turn(s, host).Go?
    ensures LoopInv(first, Turn(s, host).st) && Turn(s, host).st.t.limits == s.t.limits
  {
    hide Inv, Turn, Settled, Handed, Ended;
    TurnKeeps(first, s, host);
  }

  // ---- a turn fails only for want of writes or of a KEXINIT ----

  lemma WriteGoes(s: Session, f: Frame)
    ensures s.t.ioLeft > 0 ==> Send(s, f).Go? && Send(s, f).st.t.ioLeft == s.t.ioLeft - 1 && Send(s, f).st.d == s.d
  {
    hide Payload, SatAdd, Order, Append, Max, Wrap32, Advance;
  }

  lemma {:induction false} FlushGoes(s: Session)
    requires s.t.ioLeft >= PendingLen(s.d.out)
    ensures var r := FlushOutput(s); r.Go? && r.st.t.ioLeft >= s.t.ioLeft - PendingLen(s.d.out)
    decreases PendingLen(s.d.out)
  {
    hide Send, FlushFrame;
    if CanFlush(s.d) {
      WriteGoes(s, Frame.Channel(s.d.out.peerChan, FlushFrame(s.d.out)));
      FlushGoes(SendMsg(s, FlushFrame(s.d.out)).st.(d := s.d.(out := Flushed(s.d.out))));
    }
  }

  lemma TerminalGoes(s: Session)
    requires s.t.ioLeft >= 3
    ensures SendTerminal(s).Go?
  {
    hide Send;
    WriteGoes(s, Frame.Channel(s.d.out.peerChan, Close));
    if s.d.exitSignal.Some? {
      WriteGoes(s, Frame.Channel(s.d.out.peerChan, ExitSignal(s.d.exitSignal.value.0, s.d.exitSignal.value.1)));
    } else if s.d.exitStatus.Some? {
      WriteGoes(s, Frame.Channel(s.d.out.peerChan, ExitStatus(s.d.exitStatus.value)));
    }
    var r := SendReport(s);
    WriteGoes(r.st, Frame.Channel(s.d.out.peerChan, Eof));
    WriteGoes(SendMsg(r.st, Eof).st, Frame.Channel(s.d.out.peerChan, Close));
  }

  lemma BeginGoes(s: Session, host: Host)
    requires host.env.kexInit.Some? && s.t.ioLeft >= 1
    ensures StartRekey(s, host).Go? && StartRekey(s, host).st.t.ioLeft >= s.t.ioLeft - 1
  {
    hide Payload, SatAdd, Order, Append, Max, Wrap32, Advance, RekeyDue;
  }

  lemma TurnGoes(s: Session, host: Host)
    requires s.t.ioLeft >= PendingLen(s.d.out) + 5 && host.env.kexInit.Some?
    ensures Turn(s, host).Go?
  {
    hide FlushOutput, HandOver, Send, StartRekey, SendTerminal, Credited;
    FlushGoes(s);
    var a := HandOver(FlushOutput(s).st);
    HandOverLink(FlushOutput(s).st);
    WriteGoes(a, Frame.Channel(a.d.out.peerChan, WindowAdjust(a.d.inn.credit)));
    var b := Replenish(a);
    BeginGoes(b.st, host);
    TerminalGoes(StartRekey(b.st, host).st);
  }

  /** With a KEXINIT to send and five writes more than there are bytes of output to
      send, no turn of any run fails; during a re-key none does anyway. */
  lemma TurnGoesOn(first: SealView, s: Session, events: Events, n: Session, host: Host)
    requires Comes(first, s, events, n)
    requires var o := Output(n.t.history);
             || Exchange(n.t.history).kex != 0
             || (n.t.ioLeft >= |o.produced| - |o.sent| + 5 && host.env.kexInit.Some?)
    ensures Turn(n, host).Go?
  {
    hide Comes, Turn, Exchange, Order, Output, Inv, InService, Metered, Settled;
    ComesKeeps(first, s, events, n);
    if n.t.phase.Idle? {
      PendingIsUnsent(first, n);
      TurnGoes(n, host);
    } else {
      RekeyTurnGoes(n, host);
    }
  }

  lemma RekeyTurnGoes(s: Session, host: Host)
    requires RekeyActive(s.t)
    ensures Turn(s, host).Go?
  {
    hide HandOver;
  }

  lemma PendingIsUnsent(first: SealView, s: Session)
    requires Inv(first, s)
    ensures var o := Output(s.t.history); PendingLen(s.d.out) <= |o.produced| - |o.sent|
  {
    hide LinkOk, Exchange, Order, Output, Audit, Intake, Conserved, Accounted, Counted, OrderOk, AuditOk, IntakeOk;
    hide FRESH;
  }

  // ---- the close, message by message ----

  /** The frames of a history, in order. */
  function Frames(h: History): seq<Frame> {
    if h == [] then []
    else Frames(h[..|h| - 1]) + (if h[|h| - 1].Sent? then [h[|h| - 1].frame] else [])
  }

  /** One packet more and nothing else. */
  predicate Says(before: History, after: History, frames: seq<Frame>) {
    |after| == |before| + |frames| && before <= after && Frames(after) == Frames(before) + frames
  }

  lemma SendSays(s: Session, f: Frame)
    requires s.t.ioLeft > 0
    ensures var r := Send(s, f);
            r.Go? && Says(s.t.history, r.st.t.history, [f]) && r.st.d == s.d && r.st.t.ioLeft == s.t.ioLeft - 1
  {
    hide Payload, SatAdd, Order, Max, Wrap32, Advance;
    var h := s.t.history;
    var e := Sent(f, Stamp(s.t.tx, s.t.sealed, s.t.seqTx));
    assert (h + [e])[..|h|] == h;
  }

  lemma SaysBoth(a: History, b: History, c: History, fs: seq<Frame>, gs: seq<Frame>)
    requires Says(a, b, fs) && Says(b, c, gs)
    ensures Says(a, c, fs + gs)
  {
    hide Frames;
    assert Frames(a) + fs + gs == Frames(a) + (fs + gs);
  }

  /** What closes a channel: the report, EOF and CLOSE, or CLOSE alone when the
      client closed first. */
  function Closing(v: OrderView): seq<Frame>
    requires v.peer.Some? && (v.clientClosed || v.report.Some?)
  {
    if v.clientClosed then [Frame.Channel(v.peer.value, Close)]
    else
      [Frame.Channel(v.peer.value, v.report.value), Frame.Channel(v.peer.value, Eof),
       Frame.Channel(v.peer.value, Close)]
  }

  lemma OutOfWrites(s: Session, f: Frame)
    ensures Send(s, f).Go? ==> s.t.ioLeft > 0
  {
    hide Payload, SatAdd, Order, Append, Max, Wrap32, Advance;
  }

  /** A packet that was sent had a write to use. */
  lemma SentSays(s: Session, f: Frame)
    ensures var r := Send(s, f); r.Go? ==> Says(s.t.history, r.st.t.history, [f]) && r.st.d == s.d
  {
    OutOfWrites(s, f);
    hide Send, Says;
    if s.t.ioLeft > 0 {
      SendSays(s, f);
    }
  }

  lemma TerminalSays(s: Session, v: OrderView)
    requires OrderOk(s.d, v) && !s.d.state.BeforeOpen? && (v.clientClosed || v.report.Some?)
    ensures var r := SendTerminal(s);
            r.Go? ==> Says(s.t.history, r.st.t.history, Closing(v))
                      && r.st.d.state == (if v.clientClosed then Closed else ServerClosed)
  {
    hide Send, Says;
    var to := s.d.out.peerChan;
    if s.d.earlyClose {
      SentSays(s, Frame.Channel(to, Close));
    } else {
      var f, g, k := Frame.Channel(to, v.report.value), Frame.Channel(to, Eof), Frame.Channel(to, Close);
      SentSays(s, f);
      var a := Send(s, f);
      if a.Go? {
        SentSays(a.st, g);
        var b := Send(a.st, g);
        if b.Go? {
          SentSays(b.st, k);
          var c := Send(b.st, k);
          if c.Go? {
            SaysBoth(s.t.history, a.st.t.history, b.st.t.history, [f], [g]);
            assert [f] + [g] == [f, g] && [f, g] + [k] == [f, g, k];
            SaysBoth(s.t.history, b.st.t.history, c.st.t.history, [f, g], [k]);
          }
        }
      }
    }
  }

  /** The turn of a finished channel, with nothing else due. */
  lemma FinishedTurn(first: SealView, s: Session, start: MeterView, host: Host)
    requires LoopInv(first, s) && s.t.phase.Idle? && Metered(start)(s.t)
    requires Finished(Order(s.t.history), Output(s.t.history)) && s.d.inn.credit < CREDIT_BATCH && s.t.ioLeft >= 3
    requires !AtLimit(s.t.limits, Meter(start, s.t.history), Seals(first, s.t.history).count, host.env.now)
    ensures Turn(s, host) == SendTerminal(HandOver(s)) && HandOver(s).t == s.t
  {
    hide Inv, FlushOutput, HandOver, StartRekey, SendTerminal, Order, Output, Audit, Meter, Seals, AtLimit, Agree;
    hide Finished, Settled, CanFlush;
    BodyParts(first, s);
    ReadyExactly(s.d, s.t.phase, Order(s.t.history), Output(s.t.history), Audit(s.t.history));
    NoFlush(s);
    HandedOver(s);
    InvLink(first, s);
    DueExactly(first, s.t, start, host.env.now);
    NoRekey(HandOver(s), host);
  }

  lemma InvLink(first: SealView, s: Session)
    requires Inv(first, s)
    ensures LinkOk(first, s.t)
  {
    hide LinkOk, BodyOf, IntakeOk;
  }

  lemma NoFlush(s: Session)
    requires s.d.out.pending.None?
    ensures FlushOutput(s) == Go(s)
  {
  }

  lemma NoRekey(s: Session, host: Host)
    requires !RekeyDue(s.t, host.env.now)
    ensures StartRekey(s, host) == Go(s)
  {
    hide RekeyDue, BeginRekey;
  }

  lemma HandedOver(s: Session)
    ensures HandOver(s).t == s.t && HandOver(s).d == s.d.(inn := Handoff(s.d.inn))
    ensures HandOver(s).d.inn.credit == s.d.inn.credit
  {
    HandoffDone(s.d.inn);
    hide Handoff;
  }

  /** In every run, as soon as a channel in service is finished, with no re-key
      under way or due, under 1 MiB of credit owed and three writes left, the next
      turn says exactly what closes it; when the client closed first, the loop then
      returns, whatever the event. */
  lemma ClosesNow(first: SealView, s: Session, events: Events, n: Session, e: Event, host: Host)
    requires Comes(first, s, events, n) && Exchange(n.t.history).kex == 0
    requires Finished(Order(n.t.history), Output(n.t.history)) && n.d.inn.credit < 0x10_0000 && n.t.ioLeft >= 3
    requires !AtLimit(s.t.limits, Meter(StartOf(s.t), n.t.history), Seals(first, n.t.history).count, host.env.now)
    ensures Turn(n, host).Go? && Says(n.t.history, Turn(n, host).st.t.history, Closing(Order(n.t.history)))
    ensures Order(n.t.history).clientClosed <==> Iterate(n, e, host).Returned?
  {
    hide Comes, LoopInv, Turn, Exchange, Order, Output, InService, Agree, Meter, Seals, AtLimit, Says, Closing;
    ComesKeeps(first, s, events, n);
    FinishedTurn(first, n, StartOf(s.t), host);
    LoopOrder(first, n);
    HandedOver(n);
    hide HandOver, SendTerminal, Finished;
    FinishedParts(Order(n.t.history), Output(n.t.history));
    SameOrder(n.d, Handoff(n.d.inn), Order(n.t.history));
    TerminalGoes(HandOver(n));
    TerminalSays(HandOver(n), Order(n.t.history));
    TerminalPhase(HandOver(n));
    IterateAfter(n, e, host);
  }

  lemma FinishedParts(v: OrderView, o: OutputView)
    requires Finished(v, o)
    ensures v.peer.Some? && (v.clientClosed || v.report.Some?)
  {
  }

  lemma LoopOrder(first: SealView, s: Session)
    requires LoopInv(first, s)
    ensures OrderOk(s.d, Order(s.t.history))
  {
    hide LinkOk, IntakeOk, OrderOk, OutputOk, AuditOk, WindowOk, Shape, Order, Output, Audit, Intake, Exchange;
  }

  lemma SameOrder(d: Driver, i: Inflow, v: OrderView)
    requires OrderOk(d, v)
    ensures OrderOk(d.(inn := i), v) && (v.peer.Some? ==> !d.state.BeforeOpen?)
  {
  }

  lemma TerminalPhase(s: Session)
    ensures SendTerminal(s).st.t.phase == s.t.phase
  {
    hide Payload, SatAdd, Order, Append, Max, Wrap32, Advance;
  }

  /** After its turn, the loop returns or waits. */
  lemma IterateAfter(s: Session, e: Event, host: Host)
    requires Turn(s, host).Go? && Turn(s, host).st.t.phase.Idle?
    ensures Iterate(s, e, host).Returned? <==> Turn(s, host).st.d.state.Closed?
  {
    hide Turn, React, EmitFinished, Enabled;
  }

  // ---- the events ----

  /** The child's tasks are listened to exactly while no re-key is under way, the
      channel is in service, and every byte they gave is sent or the client has
      closed. */
  lemma ListensExactly(first: SealView, s: Session, events: Events, n: Session)
    requires Comes(first, s, events, n)
    ensures var v, o := Order(n.t.history), Output(n.t.history);
            WantOutput(n) <==> && Exchange(n.t.history).kex == 0 && InService(v) && n.d.inn.child.Some?
                               && (v.clientClosed || o.sent == o.produced)
  {
    hide Comes, Exchange, Order, Output, Audit, Inv, InService, Metered, Settled;
    ComesKeeps(first, s, events, n);
    BodyParts(first, n);
    FlushedExactly(n.d, n.t.phase, Order(n.t.history), Output(n.t.history), Audit(n.t.history));
    EarlyIsClosed(n.d, n.t.phase, Order(n.t.history), Output(n.t.history), Audit(n.t.history));
  }

  lemma EarlyIsClosed(d: Driver, phase: Phase, v: OrderView, o: OutputView, a: AuditView)
    requires Body(d, phase, v, o, a)
    ensures v.clientClosed == d.earlyClose && (d.inn.child.Some? && MayRekey(d.state) ==> MayEmitOutput(d.state))
    ensures MayEmitOutput(d.state) ==> MayRekey(d.state)
  {
    hide WindowOk, OutputOk, AuditOk, FRESH;
  }

  /** What the child does, as the history shows it. */
  function ReportOfEvent(e: Event): Entry
    requires e.Chunk? || e.Exited? || e.OutputEnds?
  {
    match e
    case Chunk(kind, data) => ChildOutput(kind, data)
    case Exited(code, signal) => ChildExit(code, signal)
    case OutputEnds => OutputEnded
  }

  /** Whatever the child does is taken down, and nothing else is said. */
  lemma ChildIsHeard(s: Session, e: Event, host: Host)
    requires (e.Chunk? || e.Exited? || e.OutputEnds?) && Enabled(s, e)
    ensures var x := Await(s, e, host); x.Live? && x.s.t == s.t.(history := s.t.history + [ReportOfEvent(e)])
  {
    hide OnPacket, Exchange, Seals, Order, Output, Audit, Intake;
  }

  /** An ack is taken at once: its bytes are owed to the client, and counted. */
  lemma AckIsTaken(first: SealView, s: Session, host: Host)
    requires LoopInv(first, s) && Enabled(s, Ack)
    ensures var x, acks := Await(s, Ack, host), s.d.inn.child.value.acks;
            && x.Live? && x.s.t == s.t && x.s.d.inn.child.Some? && x.s.d.inn.child.value.acks == acks[1..]
            && x.s.d.inn.credit == s.d.inn.credit + acks[0]
            && x.s.d.bytesReceived == SatAdd(s.d.bytesReceived, acks[0], U64_LIMIT)
  {
    hide Inv, OnPacket, SatAdd, Accounted, Order, LinkOk, OrderOk, BodyOf, IntakeOk, Settled;
    InvParts(first, s);
    FreshHasNoChild();
    AckKeeps(s.d.inn, s.d.earlyClose, Rank(s.d.state) >= 3);
    AckFields(s.d.inn);
  }

  lemma AckFields(i: Inflow)
    requires i.child.Some? && i.child.value.acks != []
    ensures var j := AckTaken(i); j.child == Some(i.child.value.(acks := i.child.value.acks[1..]))
  {
    hide SatAdd;
  }

  /** A re-key past its deadline ends the connection, with a DISCONNECT when the
      stream still takes one. */
  lemma DeadlineEnds(s: Session, host: Host)
    requires RekeyActive(s.t)
    ensures var x := Await(s, DeadlinePasses, host);
            && x.Failed? && x.cause == Rejected("rekey-timeout")
            && (s.t.ioLeft > 0 ==> Says(s.t.history, x.s.t.history, [Disconnect(3, Ascii("rekey-timeout"))]))
            && (s.t.ioLeft == 0 ==> x.s.t.history == s.t.history)
  {
    hide OnPacket, Order, Max, Wrap32, Advance, Ascii;
    var h := s.t.history;
    var e := Sent(Disconnect(3, Ascii("rekey-timeout")), Stamp(s.t.tx, s.t.sealed, s.t.seqTx));
    assert (h + [e])[..|h|] == h;
  }

  // ---- what a turn says, frame by frame ----

  /** Bytes cut into data frames of a fixed size, the last one shorter. */
  function Pieces(to: U32, kind: Stream, data: Bytes, size: nat): seq<Frame>
    requires 0 < size <= MAX_DATA
    decreases |data|
  {
    if data == [] then []
    else
      var n := if |data| < size then |data| else size;
      [Frame.Channel(to, Data(kind, data[..n]))] + Pieces(to, kind, data[n..], size)
  }

  /** What of the pending chunk the window lets out, in frames as large as the
      client takes, 32 KiB at most. */
  function Unsent(o: Outflow): seq<Frame> {
    if o.pending.None? || o.maxPacket == 0 then []
    else
      var p := o.pending.value;
      Pieces(o.peerChan, p.kind, p.rest[..if |p.rest| < o.window then |p.rest| else o.window],
             if o.maxPacket < 32768 then o.maxPacket else 32768)
  }

  /** The credit owed, once it is 1 MiB. */
  function Refund(d: Driver): seq<Frame> {
    if d.inn.credit >= 0x10_0000 then [Frame.Channel(d.out.peerChan, WindowAdjust(d.inn.credit))] else []
  }

  lemma PiecesStep(to: U32, kind: Stream, data: Bytes, size: nat, n: nat)
    requires 0 < size <= MAX_DATA && data != [] && n == if |data| < size then |data| else size
    ensures Pieces(to, kind, data, size) ==
            [Frame.Channel(to, Data(kind, data[..n]))] + Pieces(to, kind, data[n..], size)
    ensures Pieces(to, kind, [], size) == []
  {
  }

  lemma UnsentStep(o: Outflow)
    requires o.pending.Some? && Min(|o.pending.value.rest|, Cap(o)) > 0
    ensures Unsent(o) == [Frame.Channel(o.peerChan, FlushFrame(o))] + Unsent(Flushed(o))
  {
    hide SatAdd;
    var rest := o.pending.value.rest;
    var n := Min(|rest|, Cap(o));
    var all := rest[..if |rest| < o.window then |rest| else o.window];
    var kind, size := o.pending.value.kind, if o.maxPacket < 32768 then o.maxPacket else 32768;
    assert all[..n] == rest[..n];
    PiecesStep(o.peerChan, kind, all, size, n);
    hide Pieces;
    if n < |rest| {
      var more := rest[n..];
      assert all[n..] == more[..if |more| < o.window - n then |more| else o.window - n];
    } else {
      assert all[n..] == [] && Flushed(o).pending.None? && Unsent(Flushed(o)) == [];
    }
  }

  lemma NothingSaid(h: History)
    ensures Says(h, h, [])
  {
    assert Frames(h) + [] == Frames(h);
  }

  lemma {:induction false} FlushSays(s: Session)
    requires s.d.out.pending.Some? ==> MayEmitOutput(s.d.state)
    ensures var r := FlushOutput(s);
            r.Go? ==> Says(s.t.history, r.st.t.history, Unsent(s.d.out)) && r.st.d == s.d.(out := r.st.d.out)
                      && r.st.d.out.peerChan == s.d.out.peerChan
    decreases PendingLen(s.d.out)
  {
    hide Send, FlushFrame, Unsent, Says;
    NothingSaid(s.t.history);
    if CanFlush(s.d) {
      var f := Frame.Channel(s.d.out.peerChan, FlushFrame(s.d.out));
      var a := SendMsg(s, FlushFrame(s.d.out));
      if a.Go? {
        SentSays(s, f);
        var n := a.st.(d := s.d.(out := Flushed(s.d.out)));
        FlushedFields(s.d.out);
        FlushSays(n);
        UnsentStep(s.d.out);
        var r := FlushOutput(n);
        if r.Go? {
          SaysBoth(s.t.history, a.st.t.history, r.st.t.history, [f], Unsent(n.d.out));
        }
      }
    } else {
      NothingUnsent(s.d.out);
    }
  }

  lemma FlushedFields(o: Outflow)
    requires o.pending.Some?
    ensures Flushed(o).peerChan == o.peerChan && (Flushed(o).pending.Some? ==> o.pending.Some?)
  {
    hide SatAdd;
  }

  lemma NothingUnsent(o: Outflow)
    requires o.pending.Some? ==> Min(|o.pending.value.rest|, Cap(o)) == 0
    ensures Unsent(o) == []
  {
  }

  lemma RefundSays(s: Session)
    ensures var r := Replenish(s); r.Go? ==> Says(s.t.history, r.st.t.history, Refund(s.d))
  {
    hide Send, Credited, Says;
    NothingSaid(s.t.history);
    SentSays(s, Frame.Channel(s.d.out.peerChan, WindowAdjust(s.d.inn.credit)));
  }

  lemma BeforeRekeySays(s: Session)
    requires s.d.out.pending.Some? ==> MayEmitOutput(s.d.state)
    ensures var b := BeforeRekey(s);
            b.Go? ==> Says(s.t.history, b.st.t.history, Unsent(s.d.out) + Refund(s.d))
  {
    hide FlushOutput, Handoff, Replenish, Unsent, Refund, Says;
    FlushSays(s);
    var a := FlushOutput(s);
    if a.Go? {
      HandedOver(a.st);
      RefundSays(HandOver(a.st));
      SameRefund(s.d, HandOver(a.st).d);
      var b := BeforeRekey(s);
      if b.Go? {
        SaysBoth(s.t.history, a.st.t.history, b.st.t.history, Unsent(s.d.out), Refund(s.d));
      }
    }
  }

  lemma SameRefund(d: Driver, e: Driver)
    requires e.inn.credit == d.inn.credit && e.out.peerChan == d.out.peerChan
    ensures Refund(e) == Refund(d)
  {
  }

  /** What the turn says last: a KEXINIT, the close, or nothing. */
  ghost predicate Concludes(mid: History, after: History, kexInit: Option<Bytes>) {
    || after == mid
    || (kexInit.Some? && Says(mid, after, [KexInit(kexInit.value)]))
    || (Finished(Order(mid), Output(mid)) && Says(mid, after, Closing(Order(mid))))
  }

  /** In every run, a turn outside a re-key that goes on says the pending output, cut
      as large as window and packet limit allow, then the credit owed if it is 1 MiB,
      then a KEXINIT, the messages that close a finished channel, or nothing. */
  lemma TurnSays(first: SealView, s: Session, events: Events, n: Session, host: Host)
    requires Comes(first, s, events, n) && Exchange(n.t.history).kex == 0 && Turn(n, host).Go?
    ensures exists mid :: && Says(n.t.history, mid, Unsent(n.d.out) + Refund(n.d))
                          && Concludes(mid, Turn(n, host).st.t.history, host.env.kexInit)
  {
    hide Comes, Exchange, Turn, Order, Output, Inv, InService, Metered, Settled, Says, Unsent, Refund, BeforeRekey;
    hide StartRekey, CloseSequence, CanFlush, Concludes;
    ComesKeeps(first, s, events, n);
    TurnStages(n, host);
    PendingMayGo(first, n);
    BeforeRekeySays(n);
    BeforeRekeyKeeps(first, n);
    ConcludeSays(first, BeforeRekey(n).st, host);
  }

  lemma PendingMayGo(first: SealView, s: Session)
    requires Inv(first, s)
    ensures s.d.out.pending.Some? ==> MayEmitOutput(s.d.state)
  {
    hide LinkOk, Exchange, Order, Output, Audit, Intake, OrderOk, OutputOk, AuditOk, WindowOk, IntakeOk, FRESH;
  }

  lemma ConcludeSays(first: SealView, b: Session, host: Host)
    requires Inv(first, b) && b.t.phase.Idle? && StartRekey(b, host).Go?
    requires CloseSequence(StartRekey(b, host).st).Go?
    ensures Concludes(b.t.history, CloseSequence(StartRekey(b, host).st).st.t.history, host.env.kexInit)
  {
    hide Inv, Order, Output, Audit, Says, Closing, SendTerminal, RekeyDue, BeginRekey, Finished, Body;
    BodyParts(first, b);
    if RekeyDue(b.t, host.env.now) && MayRekey(b.d.state) {
      KexInitSays(b.t, host.env);
    } else if ReadyToClose(b.d) {
      ReadyExactly(b.d, b.t.phase, Order(b.t.history), Output(b.t.history), Audit(b.t.history));
      FinishedParts(Order(b.t.history), Output(b.t.history));
      BodyOrder(b.d, b.t.phase, Order(b.t.history), Output(b.t.history), Audit(b.t.history));
      SameOrder(b.d, b.d.inn, Order(b.t.history));
      TerminalSays(b, Order(b.t.history));
    }
  }

  lemma BodyOrder(d: Driver, phase: Phase, v: OrderView, o: OutputView, a: AuditView)
    requires Body(d, phase, v, o, a)
    ensures OrderOk(d, v)
  {
    hide Shape, OrderOk, OutputOk, AuditOk, WindowOk;
  }

  lemma KexInitSays(t: Link, env: Env)
    ensures var r := BeginRekey(t, env);
            r.Go? ==> env.kexInit.Some? && Says(t.history, r.st.history, [KexInit(env.kexInit.value)])
                      && RekeyActive(r.st)
  {
    hide Payload, SatAdd, Order, Max, Wrap32, Advance;
    var h := t.history;
    if env.kexInit.Some? {
      var e := Sent(KexInit(env.kexInit.value), Stamp(t.tx, t.sealed, t.seqTx));
      assert (h + [e])[..|h|] == h;
    }
  }
}
