/** The invariant of a session, and that every message the channel driver
handles and every packet it sends keeps it (`channel.rs`). */
module ChannelProofs {
  import opened Wire
  import opened Trace
  import opened Transport
  import opened Channel
  import opened LinkProofs
  import opened StdinOrder
  import opened StdinProofs

  // ---- the invariant ----

  function Rank(s: ChannelState): nat {
    match s
    case BeforeOpen => 0 case Idle => 1 case Running => 2 case Draining => 3 case ServerClosed => 4 case Closed => 5
  }

  /** Before the exec: no slot is used and no credit is owed. */
  predicate Untouched(i: Inflow) { i.pending.None? && i.credit == 0 }

  /** How the driver's own fields and the re-key phase fit together. */
  predicate Shape(d: Driver, phase: Phase) {
    && (d.state.BeforeOpen? ==> d == FRESH)
    && (d.state.Idle? ==> d.inn.child.None? && d.command.None? && d.exitStatus.None? && Untouched(d.inn))
    && (d.state.Running? ==> d.inn.child.Some? && d.exitStatus.None?)
    && (d.inn.child.Some? ==> d.command.Some?)
    && (d.command.Some? && d.inn.child.None? ==> d.childOutClosed)
    && (d.out.pending.Some? ==> !d.earlyClose && MayEmitOutput(d.state) && 0 < |d.out.pending.value.rest| <= MAX_DATA)
    && (d.earlyClose ==> d.state.Draining? || d.state.Closed?)
    && (d.state.Draining? && !d.earlyClose ==> d.exitStatus.Some?)
    && (d.state.Draining? || d.state.ServerClosed? || d.state.Closed? ==> d.earlyClose || d.command.Some?)
    && (d.exitSignal.Some? ==> d.exitStatus.Some?)
    && (phase.SentKexInit? ==> MayRekey(d.state))
    && (d.state.Closed? ==> phase.Idle?)
    && !d.finishedEmitted
  }

  /** The exit report the driver would send. */
  function ReportOf(d: Driver): Option<ChannelMsg> {
    if d.exitSignal.Some? then Some(ExitSignal(d.exitSignal.value.0, d.exitSignal.value.1))
    else if d.exitStatus.Some? then Some(ExitStatus(d.exitStatus.value))
    else None
  }

  predicate OrderOk(d: Driver, v: OrderView) {
    && v.ok && v.report == ReportOf(d)
    && v.peer == (if d.state.BeforeOpen? then None else Some(d.out.peerChan))
    && v.closeSent == (d.state.ServerClosed? || d.state.Closed?)
    && v.clientClosed == d.earlyClose
    && v.exitSent == v.eofSent == (v.closeSent && !d.earlyClose)
    && v.started == d.command.Some? && v.drained == d.childOutClosed
  }

  function PendingTag(o: Outflow): Tagged {
    if o.pending.Some? then Tag(o.pending.value.kind, o.pending.value.rest) else []
  }

  predicate OutputOk(o: Outflow, early: bool, v: OutputView) {
    && v.ok
    && v.maxPacket == o.maxPacket
    && v.granted == o.window + |v.sent| && o.bytesSent == SatAdd(0, |v.sent|, U64_LIMIT)
    && (early ==> v.sent <= v.produced)
    && (!early ==> v.produced == v.sent + PendingTag(o))
    && (o.maxPacket == 0 ==> v.sent == [])
  }

  predicate AuditOk(command: Option<Bytes>, finished: bool, a: AuditView) {
    a.ok && a.started == command.Some? && a.finished == finished
  }

  predicate WindowOk(d: Driver) {
    && (!d.state.BeforeOpen? ==> Conserved(d.inn) && d.out.maxPacket > 0)
    && Accounted(d.inn, d.earlyClose, Rank(d.state) >= 3)
    && Counted(d.inn, d.bytesReceived)
  }

  /** The count received is that of the acks taken. */
  predicate Counted(i: Inflow, received: U64) { 0 <= Acked(i) && received == SatAdd(0, Acked(i), U64_LIMIT) }

  predicate IntakeOk(d: Driver, k: IntakeView) {
    && k.ok && k.window == d.inn.window
    && Line(k.accepted, k.delivered, k.crowd, k.late) == d.inn.line && k.ended == d.inn.clientEof
    && k.begun == (Rank(d.state) >= 2)
    && (!k.begun ==> k.early == (d.inn.preExec != []))
  }

  /** The driver against what the history shows of the channel. */
  predicate Body(d: Driver, phase: Phase, v: OrderView, o: OutputView, a: AuditView) {
    && Shape(d, phase) && OrderOk(d, v) && OutputOk(d.out, d.earlyClose, o)
    && AuditOk(d.command, d.finishedEmitted, a) && WindowOk(d)
  }

  ghost predicate BodyOf(s: Session, h: History) { Body(s.d, s.t.phase, Order(h), Output(h), Audit(h)) }

  ghost predicate Inv(first: SealView, s: Session) {
    && LinkOk(first, s.t) && Exchange(s.t.history).deferred == s.d.deferred && BodyOf(s, s.t.history)
    && IntakeOk(s.d, Intake(s.t.history))
  }

  /** Messages wait only while a re-key the server started is under way. */
  predicate Settled(s: Session) { s.d.deferred != [] ==> MayRekey(s.d.state) && !s.t.phase.Idle? }

  /** The byte counts are those of the history, and the finished record has them. */
  predicate Tally(d: Driver, o: OutputView, a: AuditView, k: IntakeView) {
    && d.out.bytesSent == SatAdd(0, |o.sent|, U64_LIMIT)
    && k.ok && k.delivered == d.inn.line.delivered && Counted(d.inn, d.bytesReceived)
    && (a.finished ==> a.totals == Some((d.out.bytesSent, d.bytesReceived)) && QueuedAcks(d.inn) == 0)
  }

  /** What is left when the connection ends early: no rule was broken, and the
      audit trail matches the driver. */
  ghost predicate Ended(first: SealView, s: Session) {
    && LinkClean(first, s.t) && Order(s.t.history).ok && Output(s.t.history).ok
    && AuditOk(s.d.command, s.d.finishedEmitted, Audit(s.t.history))
    && Tally(s.d, Output(s.t.history), Audit(s.t.history), Intake(s.t.history))
  }

  /** What `highest` can be after packets of at most count `n`: nothing counts
      after the server's CLOSE. */
  function Peak(s: Session, n: nat): nat { if Rank(s.d.state) >= 4 then s.t.highest else Max(s.t.highest, n) }

  ghost predicate Kept(first: SealView, r: Step<Session>) {
    if r.Go? then Inv(first, r.st) else Ended(first, r.st)
  }

  /** What handling one message may do: the invariant stays, at most one packet
      goes out, and the lifecycle never moves backwards. */
  ghost predicate Handled(first: SealView, s: Session, r: Step<Session>) {
    && Kept(first, r) && r.st.t.highest <= Peak(s, s.t.sealed)
    && (r.Go? ==>
          && r.st.t.phase == s.t.phase && r.st.t.limits == s.t.limits
          && s.t.sealed <= r.st.t.sealed <= s.t.sealed + 1
          && r.st.d.deferred == s.d.deferred
          && Rank(s.d.state) <= Rank(r.st.d.state)
          && (MayRekey(s.d.state) ==> MayRekey(r.st.d.state)))
  }

  /** Nothing was sent and the lifecycle stands still. */
  predicate Quiet(s: Session, r: Step<Session>) { r.Go? ==> r.st.t.sealed == s.t.sealed && r.st.d.state == s.d.state }

  /** What the proofs take from the invariant. */
  lemma InvParts(first: SealView, s: Session)
    requires Inv(first, s)
    ensures LinkOk(first, s.t) && Shape(s.d, s.t.phase) && WindowOk(s.d)
            && Accounted(s.d.inn, s.d.earlyClose, Rank(s.d.state) >= 3)
    ensures OrderOk(s.d, Order(s.t.history)) && Order(s.t.history).closeSent == (Rank(s.d.state) >= 4)
    ensures BodyOf(s, s.t.history) && IntakeOk(s.d, Intake(s.t.history))
    ensures s.t.phase.AwaitNewKeys? ==> s.t.sealed == 0
    ensures s.d.inn.child.Some? ==> Rank(s.d.state) >= 2
  {
    hide LinkAt, Exchange, Order, Output, Audit, Intake, Conserved, Accounted, Counted, OutputOk, AuditOk;
    hide IntakeOk, FRESH;
    FreshHasNoChild();
  }

  lemma FreshHasNoChild()
    ensures FRESH.inn.child.None? && FRESH.inn.pending.None? && FRESH.inn.credit == 0
  {
  }

  lemma InvEnded(first: SealView, s: Session)
    requires Inv(first, s)
    ensures Ended(first, s)
  {
  }

  lemma NothingHandled(first: SealView, s: Session, cause: Cause)
    requires Inv(first, s)
    ensures Handled(first, s, Go(s)) && Handled(first, s, Stop(s, cause)) && Quiet(s, Go(s))
  {
    hide Inv, Ended;
    InvEnded(first, s);
  }

  // ---- sending ----

  predicate PlainMsg(msg: ChannelMsg) { msg.OpenConfirmation? || msg.Success? || msg.Failure? }

  /** A frame that reports nothing about the child. */
  predicate PlainFrame(d: Driver, f: Frame) {
    f.OpenFailure? || f.RequestFailure? || (f.Channel? && f.to == d.out.peerChan && !d.state.BeforeOpen?
                                            && PlainMsg(f.msg))
  }

  lemma PlainFrameSilent(d: Driver, v: OrderView, o: OutputView, a: AuditView, k: IntakeView, f: Frame, stamp: Stamp)
    requires PlainFrame(d, f) && OrderOk(d, v)
    ensures ObserveOrder(v, Sent(f, stamp)) == v && ObserveOutput(o, Sent(f, stamp)) == o
    ensures ObserveAudit(a, Sent(f, stamp)) == a && ObserveIntake(k, Sent(f, stamp)) == k && !KexFrame(f)
  {
  }

  lemma PlainSend(first: SealView, s: Session, f: Frame)
    requires LinkOk(first, s.t) && s.t.phase.Idle? && PlainFrame(s.d, f)
    requires OrderOk(s.d, Order(s.t.history)) && Ended(first, s)
    ensures var r := Send(s, f);
            && Ended(first, r.st) && r.st.d == s.d && r.st.t.highest <= Peak(s, s.t.sealed)
            && (r.Go? ==>
                  && LinkOk(first, r.st.t) && r.st.t.phase.Idle? && r.st.t.limits == s.t.limits
                  && r.st.t.sealed == s.t.sealed + 1 && Silent(s.t, r.st.t))
  {
    assert Order(s.t.history).closeSent == (Rank(s.d.state) >= 4);
    hide LinkOk, LinkClean, Write, Exchange, Order, Output, Audit, Intake, AuditOk, OrderOk, Tally;
    hide ObserveOrder, ObserveOutput, ObserveAudit, ObserveIntake, PlainFrame, KexFrame;
    var h := s.t.history;
    PlainFrameSilent(s.d, Order(h), Output(h), Audit(h), Intake(h), f, Stamp(s.t.tx, s.t.sealed, s.t.seqTx));
    LinkWrite(first, s.t, f);
  }

  lemma SendKeeps(first: SealView, s: Session, f: Frame)
    requires Inv(first, s) && s.t.phase.Idle? && PlainFrame(s.d, f)
    ensures var r := Send(s, f);
            && Handled(first, s, r) && r.st.d == s.d
            && (r.Go? ==> r.st.t.phase.Idle? && r.st.t.limits == s.t.limits && r.st.t.sealed == s.t.sealed + 1)
  {
    hide LinkOk, Body, Ended, Send, Order, Output, Audit, Intake, IntakeOk, Exchange, OrderOk, Shape;
    hide WindowOk, Accounted;
    InvParts(first, s);
    InvEnded(first, s);
    PlainSend(first, s, f);
  }

  /** A protocol violation: DISCONNECT, whatever the phase. */
  lemma FailKeeps(first: SealView, s: Session, d: Driver, reason: string)
    requires |reason| < 64
    requires Inv(first, s) && d == s.d.(out := d.out) && d.out.bytesSent == s.d.out.bytesSent
    ensures Handled(first, s, Fail(s.(d := d), reason))
  {
    hide InStep, Exchange, Seals, Order, Output, Audit, Intake, Reject, BodyOf, Below, Counted, Shape;
    hide WindowOk, OrderOk, Accounted;
    InvParts(first, s);
    InvEnded(first, s);
    RejectKeeps(first, s.t, KexOf(s.t.phase), DISCONNECT_PROTOCOL_ERROR, reason);
  }

  /** Noting an event in the history, with the driver it leaves. */
  lemma NoteKeeps(first: SealView, s: Session, d: Driver, e: Entry)
    requires LinkOk(first, s.t) && Exchange(s.t.history).deferred == d.deferred
    requires !e.Sent? && !e.RekeyCompleted? && !e.Deferred? && !e.Undeferred?
    ensures var n := Note(s.(d := d), e);
            && LinkOk(first, n.t) && Exchange(n.t.history).deferred == d.deferred
            && Order(n.t.history) == ObserveOrder(Order(s.t.history), e)
            && Output(n.t.history) == ObserveOutput(Output(s.t.history), e)
            && Audit(n.t.history) == ObserveAudit(Audit(s.t.history), e)
            && Intake(n.t.history) == ObserveIntake(Intake(s.t.history), e)
            && n.d == d && n.t == s.t.(history := n.t.history)
  {
    BelowAppend(s.t.history, s.t.highest, e);
    hide InStep, Exchange, Seals, Order, Output, Audit, Intake, Below;
    hide ObserveOrder, ObserveOutput, ObserveAudit, ObserveIntake;
  }

  /** The note of a step that sends nothing. */
  lemma NotedHandled(first: SealView, s: Session, d: Driver, e: Entry)
    requires Inv(first, s) && d.deferred == s.d.deferred
    requires !e.Sent? && !e.RekeyCompleted? && !e.Deferred? && !e.Undeferred?
    requires Rank(s.d.state) <= Rank(d.state) && (MayRekey(s.d.state) ==> MayRekey(d.state))
    requires var h := s.t.history;
             && Body(d, s.t.phase, ObserveOrder(Order(h), e), ObserveOutput(Output(h), e), ObserveAudit(Audit(h), e))
             && IntakeOk(d, ObserveIntake(Intake(h), e))
    ensures var r: Step<Session> := Go(Note(s.(d := d), e));
            Handled(first, s, r) && Inv(first, r.st) && (d.state == s.d.state ==> Quiet(s, r))
  {
    hide LinkOk, Exchange, Order, Output, Audit, Intake, Body, Note, IntakeOk;
    hide ObserveOrder, ObserveOutput, ObserveAudit, ObserveIntake;
    NoteKeeps(first, s, d, e);
  }

  // ---- (A) output ----

  lemma DataKeeps(d: Driver, o: OutputView, v: OrderView, stamp: Stamp)
    requires OutputOk(d.out, false, o) && OrderOk(d, v) && CanFlush(d) && !d.earlyClose
    ensures var e := Sent(Frame.Channel(d.out.peerChan, FlushFrame(d.out)), stamp);
            && OutputOk(Flushed(d.out), false, ObserveOutput(o, e))
            && OrderOk(d.(out := Flushed(d.out)), ObserveOrder(v, e))
  {
    var p := d.out.pending.value;
    var n := Min(|p.rest|, Cap(d.out));
    TagSplit(p.kind, p.rest, n);
    assert p.rest[..|p.rest|] == p.rest;
    assert o.produced == o.sent + Tag(p.kind, p.rest[..n]) + Tag(p.kind, p.rest[n..]);
  }

  lemma FlushedBody(d: Driver, phase: Phase, v: OrderView, o: OutputView, a: AuditView, stamp: Stamp)
    requires Body(d, phase, v, o, a) && CanFlush(d)
    ensures var e := Sent(Frame.Channel(d.out.peerChan, FlushFrame(d.out)), stamp);
            Body(d.(out := Flushed(d.out)), phase, ObserveOrder(v, e), ObserveOutput(o, e), a)
  {
    DataKeeps(d, o, v, stamp);
    hide OutputOk, OrderOk, ObserveOrder, ObserveOutput;
  }

  /** One data frame: its bytes leave the pending chunk and the window. */
  lemma FlushOneKeeps(first: SealView, s: Session)
    requires Inv(first, s) && s.t.phase.Idle? && CanFlush(s.d)
    ensures var r := SendMsg(s, FlushFrame(s.d.out));
            && (r.Stop? ==> Ended(first, r.st)) && r.st.t.highest <= Peak(s, s.t.sealed)
            && (r.Go? ==> Inv(first, r.st.(d := s.d.(out := Flushed(s.d.out)))) && r.st.t.phase == s.t.phase
                          && r.st.t.sealed == s.t.sealed + 1 && r.st.t.limits == s.t.limits && r.st.d == s.d)
  {
    hide Body, LinkOk, LinkClean, Payload, Exchange, Order, Output, Audit, Intake, ObserveOrder;
    hide ObserveOutput, ObserveAudit;
    hide FlushFrame, Flushed, Write, AuditOk, Tally, ObserveIntake, IntakeOk, Shape, WindowOk, OrderOk, Accounted;
    InvParts(first, s);
    InvEnded(first, s);
    var f := Frame.Channel(s.d.out.peerChan, FlushFrame(s.d.out));
    var e := Stamp(s.t.tx, s.t.sealed, s.t.seqTx);
    FlushedBody(s.d, s.t.phase, Order(s.t.history), Output(s.t.history), Audit(s.t.history), e);
    FlushedAside(s.d, Intake(s.t.history), Audit(s.t.history), e);
    LinkWrite(first, s.t, f);
  }

  /** A data frame leaves the inbound window and the audit trail alone. */
  lemma FlushedAside(d: Driver, k: IntakeView, a: AuditView, stamp: Stamp)
    requires d.out.pending.Some? && IntakeOk(d, k)
    ensures var e := Sent(Frame.Channel(d.out.peerChan, FlushFrame(d.out)), stamp);
            && ObserveIntake(k, e) == k && ObserveAudit(a, e) == a && !KexFrame(e.frame)
            && IntakeOk(d.(out := Flushed(d.out)), k)
  {
  }

  /** A plain write between exchanges, with what the observers see of it. */
  lemma LinkWrite(first: SealView, t: Link, f: Frame)
    requires LinkOk(first, t) && t.phase.Idle? && !KexFrame(f)
    ensures var r, e := Write(t, f), Sent(f, Stamp(t.tx, t.sealed, t.seqTx));
            && LinkClean(first, r.st) && r.st.highest <= Top(t, 0)
            && (r.Stop? ==> r.st.history == t.history)
            && (r.Go? ==>
                  && LinkOk(first, r.st) && r.st.phase == t.phase && r.st.sealed == t.sealed + 1
                  && r.st.limits == t.limits
                  && Exchange(r.st.history).deferred == Exchange(t.history).deferred
                  && Order(r.st.history) == ObserveOrder(Order(t.history), e)
                  && Output(r.st.history) == ObserveOutput(Output(t.history), e)
                  && Audit(r.st.history) == ObserveAudit(Audit(t.history), e)
                  && Intake(r.st.history) == ObserveIntake(Intake(t.history), e))
  {
    PlainWrite(first, t, f);
    hide LinkAt, LinkClean, Payload, Exchange, Seals, Order, Output, Audit, Intake;
    hide ObserveOrder, ObserveOutput, ObserveAudit, ObserveIntake, ObserveExchange, ObserveSeal;
  }

  /** `flush_output`: at most one packet per pending byte, until the window or
      the chunk is used up. */
  lemma {:induction false} FlushKeeps(first: SealView, s: Session)
    requires Inv(first, s) && s.t.phase.Idle?
    ensures var r := FlushOutput(s);
            && Kept(first, r) && r.st.t.highest <= Peak(s, s.t.sealed + PendingLen(s.d.out))
            && (r.Go? ==> r.st.t.phase.Idle? && r.st.t.limits == s.t.limits && r.st.d.state == s.d.state
                          && s.t.sealed <= r.st.t.sealed <= s.t.sealed + PendingLen(s.d.out) && !CanFlush(r.st.d)
                          && r.st.d.deferred == s.d.deferred && r.st.d.inn == s.d.inn)
    decreases PendingLen(s.d.out)
  {
    hide Inv, Ended, SendMsg, FlushFrame;
    if CanFlush(s.d) {
      FlushOneKeeps(first, s);
      var r := SendMsg(s, FlushFrame(s.d.out));
      if r.Go? {
        FlushKeeps(first, r.st.(d := s.d.(out := Flushed(s.d.out))));
      }
    }
  }

  // ---- (B) stdin and (C) credit ----

  /** A step that changes only the inbound half and what is said about it. */
  lemma AsideBody(d: Driver, r: Driver, phase: Phase, v: OrderView, o: OutputView, a: AuditView)
    requires Body(d, phase, v, o, a) && !d.state.BeforeOpen? && WindowOk(r)
    requires r == d.(inn := r.inn, bytesReceived := r.bytesReceived, consumedClosed := r.consumedClosed,
                     deferred := r.deferred)
    requires r.inn.child.Some? == d.inn.child.Some? && (d.state.Idle? ==> Untouched(r.inn))
    ensures Body(r, phase, v, o, a)
  {
    hide WindowOk, OutputOk, FRESH;
  }

  /** Any step of the inbound half that conserves the window. */
  lemma InflowBody(d: Driver, phase: Phase, v: OrderView, o: OutputView, a: AuditView, j: Inflow)
    requires Body(d, phase, v, o, a) && !d.state.BeforeOpen? && InflowKept(d.inn, j)
    requires Accounted(j, d.earlyClose, Rank(d.state) >= 3) && (d.state.Idle? ==> Untouched(j))
    ensures Body(d.(inn := j), phase, v, o, a)
  {
    assert WindowOk(d);
    hide Conserved, Accounted, Acked, Body;
    AsideBody(d, d.(inn := j), phase, v, o, a);
  }

  lemma InflowKeeps(first: SealView, s: Session, j: Inflow)
    requires Inv(first, s) && !s.d.state.BeforeOpen? && StdinKept(s.d.inn, j)
    requires Accounted(j, s.d.earlyClose, Rank(s.d.state) >= 3) && (s.d.state.Idle? ==> Untouched(j))
    ensures Inv(first, WithInflow(s, j))
  {
    hide LinkOk, Body, Exchange, Order, Output, Audit, Intake, Accounted, InflowKept, OrderOk, WindowOk, FRESH;
    InvParts(first, s);
    InflowBody(s.d, s.t.phase, Order(s.t.history), Output(s.t.history), Audit(s.t.history), j);
  }

  lemma HandOverKeeps(first: SealView, s: Session)
    requires Inv(first, s)
    ensures Inv(first, HandOver(s)) && HandOver(s).d.state == s.d.state && HandOver(s).t == s.t
    ensures HandOver(s).d.deferred == s.d.deferred && HandOver(s).d.out == s.d.out && Handed(HandOver(s).d.inn)
  {
    hide Inv, Accounted, Handoff, StdinKept, Handed, LinkOk, OrderOk, WindowOk, Order, BodyOf, IntakeOk, FRESH;
    InvParts(first, s);
    FreshHasNoChild();
    HandoffKeeps(s.d.inn, s.d.earlyClose, Rank(s.d.state) >= 3);
    if !s.d.state.BeforeOpen? {
      InflowKeeps(first, s, Handoff(s.d.inn));
    }
  }

  lemma CreditedBody(d: Driver, phase: Phase, v: OrderView, o: OutputView, a: AuditView, k: IntakeView, stamp: Stamp)
    requires Body(d, phase, v, o, a) && !d.state.BeforeOpen? && IntakeOk(d, k)
    ensures var e := Sent(Frame.Channel(d.out.peerChan, WindowAdjust(d.inn.credit)), stamp);
            && Body(d.(inn := Credited(d.inn)), phase, ObserveOrder(v, e), ObserveOutput(o, e), ObserveAudit(a, e))
            && IntakeOk(d.(inn := Credited(d.inn)), ObserveIntake(k, e))
            && (Handed(d.inn) ==> Handed(Credited(d.inn)))
  {
    hide Accounted, Acked, Handed, Unacked, ObserveOrder, ObserveOutput, ObserveAudit, ObserveIntake, FRESH, OutputOk;
    hide OrderOk, AuditOk;
    CreditSilent(d, v, o, a, k, d.inn.credit, stamp);
    CreditKeeps(d.inn, d.earlyClose, Rank(d.state) >= 3);
    InflowBody(d, phase, v, o, a, Credited(d.inn));
  }

  lemma CreditSilent(d: Driver, v: OrderView, o: OutputView, a: AuditView, k: IntakeView, credit: U32, stamp: Stamp)
    requires OrderOk(d, v) && !d.state.BeforeOpen?
    ensures var e := Sent(Frame.Channel(d.out.peerChan, WindowAdjust(credit)), stamp);
            && ObserveOrder(v, e) == v && ObserveOutput(o, e) == o && ObserveAudit(a, e) == a
            && ObserveIntake(k, e) == k.(window := k.window + credit)
  {
  }

  /** The credit given back is the credit put on the wire. */
  lemma CreditSend(first: SealView, s: Session)
    requires Inv(first, s) && s.t.phase.Idle? && !s.d.state.BeforeOpen?
    ensures var r := SendMsg(s, WindowAdjust(s.d.inn.credit));
            && (r.Stop? ==> Ended(first, r.st)) && r.st.t.highest <= Peak(s, s.t.sealed)
            && (r.Go? ==> Inv(first, r.st.(d := s.d.(inn := Credited(s.d.inn)))) && r.st.t.phase == s.t.phase
                          && r.st.t.sealed == s.t.sealed + 1 && r.st.t.limits == s.t.limits
                          && (Handed(s.d.inn) ==> Handed(Credited(s.d.inn))))
  {
    hide Body, LinkOk, LinkClean, Payload, Exchange, Order, Output, Audit, Intake, ObserveOrder;
    hide ObserveOutput, ObserveAudit;
    hide Credited, Write, IntakeOk, ObserveIntake, Handed, Tally, Shape, WindowOk, OrderOk, Accounted;
    InvParts(first, s);
    InvEnded(first, s);
    var h := s.t.history;
    CreditedBody(s.d, s.t.phase, Order(h), Output(h), Audit(h), Intake(h), Stamp(s.t.tx, s.t.sealed, s.t.seqTx));
    LinkWrite(first, s.t, Frame.Channel(s.d.out.peerChan, WindowAdjust(s.d.inn.credit)));
  }

  lemma ReplenishKeeps(first: SealView, s: Session)
    requires Inv(first, s) && s.t.phase.Idle?
    ensures var r := Replenish(s);
            && Kept(first, r) && r.st.t.highest <= Peak(s, s.t.sealed)
            && (r.Go? ==> r.st.t.phase.Idle? && r.st.t.limits == s.t.limits && r.st.d.state == s.d.state
                          && s.t.sealed <= r.st.t.sealed <= s.t.sealed + 1 && r.st.d.inn.credit < CREDIT_BATCH
                          && r.st.d.deferred == s.d.deferred && r.st.d.out == s.d.out
                          && (Handed(s.d.inn) ==> Handed(r.st.d.inn)))
  {
    hide Inv, Ended, SendMsg, Handed, LinkOk, WindowOk, OrderOk, Order, BodyOf, IntakeOk, FRESH, Accounted;
    InvParts(first, s);
    FreshHasNoChild();
    if s.d.inn.credit >= CREDIT_BATCH {
      CreditSend(first, s);
    }
  }

  // ---- (E) the close sequence ----

  /** A terminal message: the driver is unchanged, the observers advance. */
  lemma TerminalSend(first: SealView, s: Session, msg: ChannelMsg)
    requires LinkOk(first, s.t) && s.t.phase.Idle? && Ended(first, s)
    requires msg.ExitStatus? || msg.ExitSignal? || msg.Eof? || msg.Close?
    requires var e := Sent(Frame.Channel(s.d.out.peerChan, msg), Stamp(s.t.tx, s.t.sealed, s.t.seqTx));
             ObserveOrder(Order(s.t.history), e).ok && ObserveOutput(Output(s.t.history), e).ok
    ensures var r := SendMsg(s, msg);
            var e := Sent(Frame.Channel(s.d.out.peerChan, msg), Stamp(s.t.tx, s.t.sealed, s.t.seqTx));
            && r.st.d == s.d && Ended(first, r.st) && r.st.t.highest <= Max(s.t.highest, s.t.sealed)
            && (r.Go? ==>
                  && LinkOk(first, r.st.t) && r.st.t.phase.Idle? && r.st.t.limits == s.t.limits
                  && r.st.t.sealed == s.t.sealed + 1
                  && Exchange(r.st.t.history).deferred == Exchange(s.t.history).deferred
                  && Order(r.st.t.history) == ObserveOrder(Order(s.t.history), e)
                  && Output(r.st.t.history) == ObserveOutput(Output(s.t.history), e)
                  && Audit(r.st.t.history) == Audit(s.t.history) && Intake(r.st.t.history) == Intake(s.t.history))
  {
    hide InStep, Payload, ChannelPayload, Exchange, Seals, Order, Output, Audit, Intake, AuditOk;
    hide ObserveOrder, Below, Counted;
    PlainWrite(first, s.t, Frame.Channel(s.d.out.peerChan, msg));
  }

  lemma ClosedBody(d: Driver, phase: Phase, v: OrderView, o: OutputView, a: AuditView)
    requires Body(d, phase, v, o, a) && phase.Idle? && ReadyToClose(d)
    ensures var w := if d.earlyClose then v.(closeSent := true)
            else v.(exitSent := true, eofSent := true, closeSent := true);
            Body(d.(state := if d.earlyClose then Closed else ServerClosed), phase, w, o, a)
    ensures v == OrderView(true, Some(d.out.peerChan), false, false, false, d.earlyClose, ReportOf(d), d.command.Some?,
                           true) && o.ok
    ensures !d.earlyClose ==> o.sent == o.produced && d.exitStatus.Some?
  {
    hide Conserved, Accounted, Counted;
  }

  lemma EarlyTerminalKeeps(first: SealView, s: Session)
    requires Inv(first, s) && s.t.phase.Idle? && ReadyToClose(s.d) && s.d.earlyClose
    ensures var r := SendTerminal(s);
            && Kept(first, r) && r.st.t.highest <= Peak(s, s.t.sealed + 2)
            && (r.Go? ==> r.st.t.phase.Idle? && r.st.d.state.Closed? && r.st.d.deferred == s.d.deferred
                          && r.st.d.inn == s.d.inn && r.st.t.limits == s.t.limits)
  {
    hide Body, LinkOk, Exchange, Order, Output, Audit, Intake, SendMsg, Ended, OrderOk, Shape, WindowOk;
    InvEnded(first, s);
    ClosedBody(s.d, s.t.phase, Order(s.t.history), Output(s.t.history), Audit(s.t.history));
    TerminalSend(first, s, Close);
  }

  lemma ReportSend(first: SealView, s: Session)
    requires LinkOk(first, s.t) && s.t.phase.Idle? && Ended(first, s) && s.d.exitStatus.Some?
    requires Order(s.t.history) == OrderView(true, Some(s.d.out.peerChan), false, false, false, false, ReportOf(s.d),
                                             s.d.command.Some?, true)
    requires Output(s.t.history).sent == Output(s.t.history).produced
    ensures var r := SendReport(s);
            && r.st.d == s.d && Ended(first, r.st) && r.st.t.highest <= Max(s.t.highest, s.t.sealed)
            && (r.Go? ==>
                  && r.st.t.sealed == s.t.sealed + 1
                  && LinkOk(first, r.st.t) && r.st.t.phase.Idle? && r.st.t.limits == s.t.limits
                  && Exchange(r.st.t.history).deferred == Exchange(s.t.history).deferred
                  && Order(r.st.t.history) == Order(s.t.history).(exitSent := true)
                  && Output(r.st.t.history) == Output(s.t.history)
                  && Audit(r.st.t.history) == Audit(s.t.history) && Intake(r.st.t.history) == Intake(s.t.history))
  {
    hide LinkOk, Exchange, Order, Output, Audit, SendMsg, AuditOk;
    if s.d.exitSignal.Some? {
      TerminalSend(first, s, ExitSignal(s.d.exitSignal.value.0, s.d.exitSignal.value.1));
    } else {
      TerminalSend(first, s, ExitStatus(s.d.exitStatus.value));
    }
  }

  lemma EofThenClose(first: SealView, s: Session)
    requires LinkOk(first, s.t) && s.t.phase.Idle? && Ended(first, s)
    requires Order(s.t.history) == OrderView(true, Some(s.d.out.peerChan), true, false, false, false, ReportOf(s.d),
                                             s.d.command.Some?, true)
    ensures var r := SendEofClose(s);
            && r.st.d == s.d && Ended(first, r.st) && r.st.t.highest <= Max(s.t.highest, s.t.sealed + 1)
            && (r.Go? ==>
                  && LinkOk(first, r.st.t) && r.st.t.phase.Idle? && r.st.t.limits == s.t.limits
                  && Exchange(r.st.t.history).deferred == Exchange(s.t.history).deferred
                  && Order(r.st.t.history) == OrderView(true, Some(s.d.out.peerChan), true, true, true, false,
                                                        ReportOf(s.d), s.d.command.Some?, true)
                  && Output(r.st.t.history) == Output(s.t.history)
                  && Audit(r.st.t.history) == Audit(s.t.history) && Intake(r.st.t.history) == Intake(s.t.history))
  {
    hide LinkOk, Exchange, Order, Output, Audit, SendMsg, AuditOk;
    TerminalSend(first, s, Eof);
    var r := SendMsg(s, Eof);
    if r.Go? {
      TerminalSend(first, r.st, Close);
    }
  }

  lemma NormalTerminalKeeps(first: SealView, s: Session)
    requires Inv(first, s) && s.t.phase.Idle? && ReadyToClose(s.d) && !s.d.earlyClose
    ensures var r := SendTerminal(s);
            && Kept(first, r) && r.st.t.highest <= Peak(s, s.t.sealed + 2)
            && (r.Go? ==> r.st.t.phase.Idle? && r.st.d.state.ServerClosed? && r.st.d.deferred == s.d.deferred
                          && r.st.d.inn == s.d.inn && r.st.t.limits == s.t.limits)
  {
    hide Body, LinkOk, Exchange, Order, Output, Audit, Intake, SendMsg, SendReport, SendEofClose, Ended;
    hide OrderOk, Shape, WindowOk;
    InvEnded(first, s);
    ClosedBody(s.d, s.t.phase, Order(s.t.history), Output(s.t.history), Audit(s.t.history));
    ReportSend(first, s);
    var r := SendReport(s);
    if r.Go? {
      EofThenClose(first, r.st);
    }
  }

  // ---- inbound messages ----

  lemma ReplyKeeps(first: SealView, s: Session, wantReply: bool, success: bool)
    requires Inv(first, s) && s.t.phase.Idle? && !s.d.state.BeforeOpen?
    ensures Handled(first, s, Reply(s, wantReply, success)) && Reply(s, wantReply, success).st.d == s.d
  {
    hide Handled, Send, Inv;
    NothingHandled(first, s, Io);
    if wantReply {
      SendKeeps(first, s, Frame.Channel(s.d.out.peerChan, if success then Success else Failure));
    }
  }

  lemma OpenedBody(d: Driver, phase: Phase, v: OrderView, o: OutputView, a: AuditView, k: IntakeView, m: Inbound)
    requires Body(d, phase, v, o, a) && d.state.BeforeOpen? && m.Open? && m.maxPacket > 0 && phase.Idle?
             && IntakeOk(d, k)
    ensures var e := Entry.Opened(m.sender, m.window, m.maxPacket);
            && Body(Accepted(d, m), phase, ObserveOrder(v, e), ObserveOutput(o, e), ObserveAudit(a, e))
            && IntakeOk(Accepted(d, m), ObserveIntake(k, e))
  {
    OpenedInflow();
    hide Conserved, Accounted, Counted;
  }

  lemma OpenedInflow()
    ensures var i := FRESH.inn.(window := INITIAL_WINDOW);
            Conserved(i) && Accounted(i, false, false) && Counted(i, 0)
  {
  }

  lemma ConfirmKeeps(first: SealView, s: Session, m: Inbound)
    requires Inv(first, s) && s.t.phase.Idle? && s.d.state.BeforeOpen? && m.Open? && m.maxPacket > 0
    ensures var n := Note(s.(d := Accepted(s.d, m)), Entry.Opened(m.sender, m.window, m.maxPacket));
            Handled(first, s, SendMsg(n, OpenConfirmation))
  {
    hide Body, Order, Output, Audit, Intake, IntakeOk, Exchange, Send, Note, LinkOk, Ended;
    hide ObserveOrder, ObserveOutput, ObserveAudit, ObserveIntake;
    var e := Entry.Opened(m.sender, m.window, m.maxPacket);
    OpenedBody(s.d, s.t.phase, Order(s.t.history), Output(s.t.history), Audit(s.t.history), Intake(s.t.history), m);
    NoteKeeps(first, s, Accepted(s.d, m), e);
    SendKeeps(first, Note(s.(d := Accepted(s.d, m)), e), Frame.Channel(m.sender, OpenConfirmation));
  }

  lemma OpenKeeps(first: SealView, s: Session, m: Inbound)
    requires Inv(first, s) && s.t.phase.Idle? && m.Open?
    ensures Handled(first, s, OnOpen(s, m))
  {
    hide Inv, Handled, Send, SendMsg, Note, Fail, Ascii, Accepted;
    if !s.d.state.BeforeOpen? {
      SendKeeps(first, s, OpenFailure(m.sender, 1, Ascii("one channel only")));
    } else if m.ctype != Ascii("session") {
      SendKeeps(first, s, OpenFailure(m.sender, 3, Ascii("unknown channel type")));
    } else if m.maxPacket == 0 {
      FailKeeps(first, s, s.d, "zero-max-packet-size");
    } else {
      ConfirmKeeps(first, s, m);
    }
  }

  lemma StartBody(d: Driver, phase: Phase, v: OrderView, o: OutputView, a: AuditView, command: Bytes)
    requires Body(d, phase, v, o, a) && d.state.Idle? && phase.Idle?
    ensures var c := Commanded(d, command);
            && OrderOk(c, ObserveOrder(v, Started(command))) && ObserveOutput(o, Started(command)).ok
            && AuditOk(c.command, c.finishedEmitted, ObserveAudit(a, Started(command)))
            && !ObserveAudit(a, Started(command)).finished
            && ObserveOutput(o, Started(command)) == o && c.bytesReceived == d.bytesReceived && c.state == d.state
            && Body(Spawned(c, true), phase, ObserveOrder(v, Started(command)), ObserveOutput(o, Started(command)),
                    ObserveAudit(a, Started(command)))
            && c.inn == d.inn && c.out == d.out && c.deferred == d.deferred
  {
    StartSpawns(d, command);
    hide WindowOk, ObserveOrder, ObserveOutput, ObserveAudit, FRESH, Commanded, Spawned, Tag;
    StartSilent(v, o, a, command);
    SpawnedShape(d, phase, command);
  }

  lemma StartSpawns(d: Driver, command: Bytes)
    ensures var c := Commanded(d, command);
            var r := Spawned(c, true);
            && c == d.(command := Some(command), onPty := d.pty, pty := false)
            && r == c.(inn := d.inn.(child := Some(NEW_CHILD)), state := Running)
  {
  }

  lemma StartSilent(v: OrderView, o: OutputView, a: AuditView, command: Bytes)
    ensures ObserveOrder(v, Started(command)) == v.(started := true) && ObserveOutput(o, Started(command)) == o
    ensures ObserveAudit(a, Started(command)) == a.(ok := a.ok && !a.started, started := true)
  {
  }

  lemma SpawnedShape(d: Driver, phase: Phase, command: Bytes)
    requires Shape(d, phase) && WindowOk(d) && d.state.Idle? && phase.Idle?
    ensures var c := Spawned(Commanded(d, command), true); Shape(c, phase) && WindowOk(c)
  {
    hide Conserved, Accounted, Acked, FRESH;
    SpawnedInflow(d.inn);
  }

  const NEW_CHILD: Child := Child(true, true, [], [], [], false, false, false)

  lemma SpawnedInflow(i: Inflow)
    requires i.child.None? && i.pending.None? && Accounted(i, false, false) && Conserved(i)
    ensures var j := i.(child := Some(NEW_CHILD));
            Conserved(j) && Accounted(j, false, false) && Acked(j) == Acked(i)
  {
    var j := i.(child := Some(NEW_CHILD));
    assert Sum([]) == 0 && SumLen([]) == 0 && Flat([]) == [];
    assert AtPump(j) == AtPump(i) && Waiting(j) == Waiting(i);
    hide AtPump, Waiting, Flat, Behind;
  }

  lemma FailedSpawnBody(d: Driver, phase: Phase, v: OrderView, o: OutputView, a: AuditView, command: Bytes)
    requires Body(d, phase, v, o, a) && d.state.Idle? && phase.Idle?
    ensures var c, e := Commanded(d, command), ChildExit(EXIT_SPAWN_FAILED, None);
            var w := ObserveOrder(ObserveOrder(ObserveOrder(v, Started(command)), e), OutputEnded);
            var p := ObserveOutput(ObserveOutput(ObserveOutput(o, Started(command)), e), OutputEnded);
            var b := ObserveAudit(ObserveAudit(ObserveAudit(a, Started(command)), e), OutputEnded);
            Body(Spawned(c, false), phase, w, p, b)
  {
    hide Conserved;
  }

  /** The two notes of a child that never ran. */
  lemma UnspawnedKeeps(first: SealView, s: Session)
    requires LinkOk(first, s.t) && Exchange(s.t.history).deferred == s.d.deferred
    ensures var n, h, e := Unspawned(s), s.t.history, ChildExit(EXIT_SPAWN_FAILED, None);
            && LinkOk(first, n.t) && Exchange(n.t.history).deferred == s.d.deferred
            && Order(n.t.history) == ObserveOrder(ObserveOrder(Order(h), e), OutputEnded)
            && Output(n.t.history) == ObserveOutput(ObserveOutput(Output(h), e), OutputEnded)
            && Audit(n.t.history) == ObserveAudit(ObserveAudit(Audit(h), e), OutputEnded)
            && Intake(n.t.history) == ObserveIntake(ObserveIntake(Intake(h), e), OutputEnded)
            && n.d == s.d && n.t == s.t.(history := n.t.history)
  {
    hide LinkOk, Exchange, Order, Output, Audit, Intake, Note;
    hide ObserveOrder, ObserveOutput, ObserveAudit, ObserveIntake;
    var e := ChildExit(EXIT_SPAWN_FAILED, None);
    NoteKeeps(first, s, s.d, e);
    NoteKeeps(first, Note(s, e), s.d, OutputEnded);
  }

  lemma SpawnKeeps(first: SealView, s: Session, command: Bytes, n: Session, spawns: bool)
    requires Inv(first, s) && s.t.phase.Idle? && s.d.state.Idle? && n.d == Commanded(s.d, command)
    requires LinkOk(first, n.t) && n.t.phase.Idle? && Exchange(n.t.history).deferred == s.d.deferred
    requires Order(n.t.history) == ObserveOrder(Order(s.t.history), Started(command))
    requires Output(n.t.history) == ObserveOutput(Output(s.t.history), Started(command))
    requires Audit(n.t.history) == ObserveAudit(Audit(s.t.history), Started(command))
    requires Intake(n.t.history) == ObserveIntake(Intake(s.t.history), Started(command))
    ensures var m := n.(d := Spawned(n.d, spawns));
            var r := if spawns then m else Unspawned(m);
            Inv(first, r) && r.t == n.t.(history := r.t.history) && r.d == Spawned(n.d, spawns)
  {
    hide Body, Order, Output, Audit, Exchange, Intake, Note, LinkOk, ObserveOrder, ObserveOutput, ObserveAudit;
    hide IntakeOk, ObserveIntake, Spawned, Commanded;
    StartBody(s.d, s.t.phase, Order(s.t.history), Output(s.t.history), Audit(s.t.history), command);
    FailedSpawnBody(s.d, s.t.phase, Order(s.t.history), Output(s.t.history), Audit(s.t.history), command);
    SpawnedWindow(s.d, command, Intake(s.t.history), spawns);
    UnspawnedKeeps(first, n.(d := Spawned(n.d, spawns)));
  }

  lemma SpawnedWindow(d: Driver, command: Bytes, k: IntakeView, spawns: bool)
    requires IntakeOk(d, k)
    ensures var r, l := Spawned(Commanded(d, command), spawns), ObserveIntake(k, Started(command));
            && IntakeOk(r, l) && ObserveIntake(l, ChildExit(EXIT_SPAWN_FAILED, None)) == l
            && ObserveIntake(l, OutputEnded) == l
            && r.deferred == d.deferred && Rank(r.state) >= 2 && MayRekey(r.state)
  {
  }

  lemma StartedBody(first: SealView, s: Session, command: Bytes)
    requires Inv(first, s) && s.t.phase.Idle? && s.d.state.Idle?
    ensures var h, c := s.t.history, Commanded(s.d, command);
            && OrderOk(c, ObserveOrder(Order(h), Started(command)))
            && ObserveOutput(Output(h), Started(command)) == Output(h)
            && AuditOk(c.command, c.finishedEmitted, ObserveAudit(Audit(h), Started(command)))
            && !ObserveAudit(Audit(h), Started(command)).finished
            && c.inn == s.d.inn && c.out == s.d.out && c.deferred == s.d.deferred
            && c.bytesReceived == s.d.bytesReceived
            && c.state == s.d.state && ObserveOrder(Order(h), Started(command)).ok
  {
    hide LinkOk, Exchange, Order, Output, Audit, Intake, Body, Commanded, AuditOk, ObserveOrder, ObserveAudit, IntakeOk;
    hide ObserveOutput, Spawned;
    StartBody(s.d, s.t.phase, Order(s.t.history), Output(s.t.history), Audit(s.t.history), command);
  }

  /** The audit record comes first. */
  lemma StartNoted(first: SealView, s: Session, command: Bytes)
    requires Inv(first, s) && s.t.phase.Idle? && s.d.state.Idle?
    ensures var c, h := Commanded(s.d, command), s.t.history;
            var n := Note(s.(d := c), Started(command));
            && n.d == c && n.t == s.t.(history := n.t.history) && Ended(first, n) && LinkOk(first, n.t)
            && OrderOk(c, Order(n.t.history)) && c.state.Idle? && c.out.peerChan == s.d.out.peerChan
            && Exchange(n.t.history).deferred == s.d.deferred
            && Order(n.t.history) == ObserveOrder(Order(h), Started(command))
            && Output(n.t.history) == ObserveOutput(Output(h), Started(command))
            && Audit(n.t.history) == ObserveAudit(Audit(h), Started(command))
            && Intake(n.t.history) == ObserveIntake(Intake(h), Started(command))
  {
    hide BodyOf, Order, Output, Audit, Exchange, Intake, Note, LinkOk, OrderOk, AuditOk, Commanded, LinkClean, Counted;
    hide ObserveOrder, ObserveOutput, ObserveAudit, IntakeOk, Shape, WindowOk, Accounted, Spawned, Body;
    InvEnded(first, s);
    StartedBody(first, s, command);
    NoteKeeps(first, s, Commanded(s.d, command), Started(command));
    NotedClean(first, s, Commanded(s.d, command), Started(command));
  }

  /** Then the reply. */
  lemma StartReplied(first: SealView, s: Session, wantReply: bool)
    requires LinkOk(first, s.t) && s.t.phase.Idle? && s.d.state.Idle? && Ended(first, s)
             && OrderOk(s.d, Order(s.t.history))
    ensures var r := Reply(s, wantReply, true);
            && r.st.d == s.d && Ended(first, r.st) && r.st.t.highest <= Peak(s, s.t.sealed)
            && (r.Go? ==>
                  && LinkOk(first, r.st.t) && r.st.t.phase.Idle? && r.st.t.limits == s.t.limits
                  && s.t.sealed <= r.st.t.sealed <= s.t.sealed + 1 && Silent(s.t, r.st.t))
  {
    hide Send, LinkOk, Ended, OrderOk, Order, Output, Audit, Intake, Exchange;
    if wantReply {
      PlainSend(first, s, Frame.Channel(s.d.out.peerChan, Success));
    }
  }

  lemma StartKeeps(first: SealView, s: Session, command: Bytes, wantReply: bool, host: Host)
    requires Inv(first, s) && s.t.phase.Idle? && s.d.state.Idle?
    ensures Handled(first, s, Start(s, command, wantReply, host))
  {
    hide Inv, Order, Output, Audit, Exchange, Intake, Note, LinkOk, Reply, OrderOk, Commanded, Spawned, Ended;
    hide ObserveOrder, ObserveOutput, ObserveAudit, ObserveIntake, IntakeOk;
    StartNoted(first, s, command);
    var noted := Note(s.(d := Commanded(s.d, command)), Started(command));
    StartReplied(first, noted, wantReply);
    var r := Reply(noted, wantReply, true);
    if r.Go? {
      hide Handled;
      SpawnHandled(first, s, command, r.st, host.spawns);
    }
  }

  lemma SpawnHandled(first: SealView, s: Session, command: Bytes, n: Session, spawns: bool)
    requires Inv(first, s) && s.t.phase.Idle? && s.d.state.Idle? && n.d == Commanded(s.d, command)
    requires LinkOk(first, n.t) && n.t.phase.Idle? && Exchange(n.t.history).deferred == s.d.deferred
    requires Order(n.t.history) == ObserveOrder(Order(s.t.history), Started(command))
    requires Output(n.t.history) == ObserveOutput(Output(s.t.history), Started(command))
    requires Audit(n.t.history) == ObserveAudit(Audit(s.t.history), Started(command))
    requires Intake(n.t.history) == ObserveIntake(Intake(s.t.history), Started(command))
    requires n.t.limits == s.t.limits && s.t.sealed <= n.t.sealed <= s.t.sealed + 1
             && n.t.highest <= Peak(s, s.t.sealed)
    ensures var m := n.(d := Spawned(n.d, spawns));
            Handled(first, s, Go(if spawns then m else Unspawned(m)))
  {
    hide Inv, Order, Output, Audit, Exchange, Intake, Note, LinkOk, Commanded, Spawned, Ended;
    hide ObserveOrder, ObserveOutput, ObserveAudit, ObserveIntake, IntakeOk, BodyOf, Shape, WindowOk, OrderOk;
    hide Accounted;
    InvParts(first, s);
    SpawnedWindow(s.d, command, Intake(s.t.history), spawns);
    SpawnKeeps(first, s, command, n, spawns);
  }

  lemma NotedClean(first: SealView, s: Session, d: Driver, e: Entry)
    requires LinkOk(first, s.t) && !e.Sent? && !e.RekeyCompleted? && !e.Deferred? && !e.Undeferred?
    ensures LinkClean(first, Note(s.(d := d), e).t)
  {
    BelowAppend(s.t.history, s.t.highest, e);
    hide InStep, Exchange, Seals, Order, Output, Audit, Intake, Below;
  }

  lemma PtyGranted(first: SealView, s: Session)
    requires Inv(first, s) && !s.d.state.BeforeOpen?
    ensures Inv(first, s.(d := s.d.(pty := true)))
  {
    hide LinkOk, Exchange, Order, Output, Audit, Conserved, Accounted;
  }

  lemma PtyKeeps(first: SealView, s: Session, rest: Bytes, wantReply: bool, host: Host)
    requires Inv(first, s) && s.t.phase.Idle? && !s.d.state.BeforeOpen?
    ensures Handled(first, s, OnPtyReq(s, rest, wantReply, host))
  {
    hide Inv, Ended, Fail, Reply, GetString, Take;
    PtyGranted(first, s);
    FailKeeps(first, s, s.d, "malformed-pty-req");
    FailKeeps(first, s, s.d, "truncated-terminal-mode");
    ReplyKeeps(first, s.(d := s.d.(pty := true)), wantReply, true);
    ReplyKeeps(first, s, wantReply, false);
  }

  lemma ExecKeeps(first: SealView, s: Session, rest: Bytes, wantReply: bool, host: Host)
    requires Inv(first, s) && s.t.phase.Idle? && s.d.state.Idle?
    ensures Handled(first, s, OnExec(s, rest, wantReply, host))
  {
    hide Inv, Handled, Fail, Start, GetString;
    var cmd := GetString(rest, MAX_DATA);
    if cmd.Err? {
      FailKeeps(first, s, s.d, "malformed-exec-request");
    } else {
      FailKeeps(first, s, s.d, "non-utf8-command");
      StartKeeps(first, s, cmd.value.value, wantReply, host);
    }
  }

  lemma SubsystemKeeps(first: SealView, s: Session, rest: Bytes, wantReply: bool, host: Host)
    requires Inv(first, s) && s.t.phase.Idle? && !s.d.state.BeforeOpen?
    ensures Handled(first, s, OnSubsystem(s, rest, wantReply, host))
  {
    hide Inv, Handled, Fail, Reply, Start, GetString, Ascii;
    FailKeeps(first, s, s.d, "malformed-subsystem");
    ReplyKeeps(first, s, wantReply, false);
    if s.d.state.Idle? {
      StartKeeps(first, s, Ascii("sftp"), wantReply, host);
    }
  }

  lemma WindowChangeKeeps(first: SealView, s: Session, rest: Bytes, wantReply: bool, host: Host)
    requires Inv(first, s) && s.t.phase.Idle? && !s.d.state.BeforeOpen?
    ensures Handled(first, s, OnWindowChange(s, rest, wantReply, host))
  {
    hide Inv, Handled, Fail, Reply;
    FailKeeps(first, s, s.d, "malformed-window-change");
    ReplyKeeps(first, s, wantReply, true);
    ReplyKeeps(first, s, wantReply, false);
  }

  lemma RequestKeeps(first: SealView, s: Session, m: Inbound, host: Host)
    requires Inv(first, s) && s.t.phase.Idle? && !s.d.state.BeforeOpen? && m.Request?
    ensures Handled(first, s, OnRequest(s, m, host))
  {
    hide Inv, Handled, Fail, Reply, Start, OnExec, OnSubsystem, OnPtyReq, OnWindowChange, Ascii;
    FailKeeps(first, s, s.d, "unknown-channel");
    if s.d.state.Idle? {
      ExecKeeps(first, s, m.rest, m.wantReply, host);
      StartKeeps(first, s, [], m.wantReply, host);
    }
    SubsystemKeeps(first, s, m.rest, m.wantReply, host);
    PtyKeeps(first, s, m.rest, m.wantReply, host);
    WindowChangeKeeps(first, s, m.rest, m.wantReply, host);
    ReplyKeeps(first, s, m.wantReply, false);
  }

  /** A step of the inbound half is a quiet step of the session. */
  lemma InflowHandled(first: SealView, s: Session, j: Inflow)
    requires Inv(first, s) && !s.d.state.BeforeOpen? && StdinKept(s.d.inn, j)
    requires Accounted(j, s.d.earlyClose, Rank(s.d.state) >= 3) && (s.d.state.Idle? ==> Untouched(j))
    ensures Handled(first, s, Go(WithInflow(s, j))) && Quiet(s, Go(WithInflow(s, j)))
  {
    hide Inv, Accounted, StdinKept;
    InflowKeeps(first, s, j);
  }

  lemma TookBody(d: Driver, phase: Phase, v: OrderView, o: OutputView, a: AuditView, data: Str)
    requires Body(d, phase, v, o, a) && MayRekey(d.state) && !d.inn.clientEof && |data| <= d.inn.window && Handed(d.inn)
    ensures Body(d.(inn := Accept(d.inn, d.state.Idle?, data)), phase, v, o, a)
  {
    assert d.state.Idle? ==> d.inn.child.None? && Untouched(d.inn);
    assert !d.state.Idle? && d.inn.child.None? ==> Rank(d.state) >= 3;
    AcceptKeeps(d.inn, d.state.Idle?, data, d.earlyClose, Rank(d.state) >= 3);
    hide Accounted, Conserved, InflowKept, Accept, Body;
    InflowBody(d, phase, v, o, a, Accept(d.inn, d.state.Idle?, data));
  }

  lemma TookIntake(d: Driver, k: IntakeView, data: Str)
    requires IntakeOk(d, k) && |data| <= d.inn.window && !d.state.BeforeOpen? && !d.inn.clientEof
    ensures IntakeOk(d.(inn := Accept(d.inn, d.state.Idle?, data)), ObserveIntake(k, Took(data)))
  {
  }

  lemma TookKeeps(first: SealView, s: Session, data: Str)
    requires Inv(first, s) && MayRekey(s.d.state) && !s.d.inn.clientEof && |data| <= s.d.inn.window && Handed(s.d.inn)
    ensures var r: Step<Session> := Go(Note(s.(d := s.d.(inn := Accept(s.d.inn, s.d.state.Idle?, data))), Took(data)));
            Handled(first, s, r) && Quiet(s, r)
  {
    hide Inv, Handled, Order, Output, Audit, Intake, Body, Note, Accept, IntakeOk, ObserveIntake, Handed;
    hide LinkOk, Shape, WindowOk, OrderOk, Accounted;
    InvParts(first, s);
    var d := s.d.(inn := Accept(s.d.inn, s.d.state.Idle?, data));
    TookBody(s.d, s.t.phase, Order(s.t.history), Output(s.t.history), Audit(s.t.history), data);
    TookIntake(s.d, Intake(s.t.history), data);
    NotedHandled(first, s, d, Took(data));
  }

  /** Stdin data needs no reply: it is also handled during a re-key. */
  lemma DataInKeeps(first: SealView, s: Session, recipient: U32, data: Str)
    requires Inv(first, s) && !s.d.state.BeforeOpen? && !s.d.state.Closed? && Handed(s.d.inn)
    ensures Handled(first, s, OnData(s, recipient, data)) && Quiet(s, OnData(s, recipient, data))
  {
    hide Inv, Handled, Fail, Accept, Note, Handed;
    NothingHandled(first, s, Io);
    if recipient != LOCAL_CHANNEL {
      FailKeeps(first, s, s.d, "unknown-channel");
    } else if !s.d.state.ServerClosed? {
      if s.d.inn.clientEof {
        FailKeeps(first, s, s.d, "data-after-eof");
      } else if |data| > s.d.inn.window {
        FailKeeps(first, s, s.d, "inbound-window-exceeded");
      } else {
        TookKeeps(first, s, data);
      }
    }
  }

  lemma AdjustBody(d: Driver, phase: Phase, v: OrderView, o: OutputView, a: AuditView, add: U32)
    requires Body(d, phase, v, o, a) && !d.state.BeforeOpen?
    ensures var e := Adjusted(add);
            Body(Widened(d, add), phase, ObserveOrder(v, e), ObserveOutput(o, e), ObserveAudit(a, e))
  {
    hide Accounted, Conserved;
  }

  lemma AdjustKeeps(first: SealView, s: Session, recipient: U32, add: U32)
    requires Inv(first, s) && !s.d.state.BeforeOpen?
    ensures Handled(first, s, OnAdjust(s, recipient, add)) && Quiet(s, OnAdjust(s, recipient, add))
  {
    hide Inv, Handled, Order, Output, Audit, Intake, Fail, Body, Note;
    hide LinkOk, Shape, WindowOk, OrderOk, Accounted;
    InvParts(first, s);
    AdjustBody(s.d, s.t.phase, Order(s.t.history), Output(s.t.history), Audit(s.t.history), add);
    if recipient != LOCAL_CHANNEL {
      FailKeeps(first, s, s.d, "unknown-channel");
    } else if s.d.out.window + add >= U32_LIMIT {
      FailKeeps(first, s, Widened(s.d, add), "window-overflow");
    } else {
      NotedHandled(first, s, Widened(s.d, add), Adjusted(add));
    }
  }

  lemma EofBody(d: Driver, early: bool, ended: bool)
    requires Accounted(d.inn, early, ended)
    ensures Accounted(d.inn.(clientEof := true), early, ended) && InflowKept(d.inn, d.inn.(clientEof := true))
  {
    hide Placed, Ready, Handed, Flat, AtPump;
    SamePlacesKeep(d.inn, d.inn.(clientEof := true));
  }

  lemma EofKeeps(first: SealView, s: Session, recipient: U32)
    requires Inv(first, s) && !s.d.state.BeforeOpen?
    ensures Handled(first, s, OnEof(s, recipient)) && Quiet(s, OnEof(s, recipient))
  {
    hide Inv, Handled, Fail, Accounted, InflowKept, LinkOk, OrderOk, WindowOk, FRESH, Order, Output;
    hide Audit, Intake, Body, Note;
    InvParts(first, s);
    if recipient != LOCAL_CHANNEL {
      FailKeeps(first, s, s.d, "unknown-channel");
    } else {
      var j := s.d.inn.(clientEof := true);
      EofBody(s.d, s.d.earlyClose, Rank(s.d.state) >= 3);
      InflowBody(s.d, s.t.phase, Order(s.t.history), Output(s.t.history), Audit(s.t.history), j);
      NotedHandled(first, s, s.d.(inn := j), ClientEof);
    }
  }

  lemma AbandonBody(d: Driver, phase: Phase, v: OrderView, o: OutputView, a: AuditView)
    requires Body(d, phase, v, o, a) && phase.Idle? && MayRekey(d.state)
    ensures Body(Abandoned(d), phase, ObserveOrder(v, ClientClosed), ObserveOutput(o, ClientClosed),
                 ObserveAudit(a, ClientClosed))
  {
    hide WindowOk, Shape, Tag, Rank;
    AbandonedWindow(d);
    AbandonedShape(d, phase);
    assert PendingTag(Abandoned(d).out) == [];
  }

  lemma AbandonedShape(d: Driver, phase: Phase)
    requires Shape(d, phase) && phase.Idle? && MayRekey(d.state)
    ensures Shape(Abandoned(d), phase) && Abandoned(d).childOutClosed == (d.childOutClosed || d.command.None?)
  {
    hide FRESH;
  }

  lemma AbandonedWindow(d: Driver)
    requires WindowOk(d) && MayRekey(d.state)
    ensures WindowOk(Abandoned(d))
  {
    hide Placed, Ready, Handed, Flat, AtPump;
    SamePlacesKeep(d.inn, Abandoned(d).inn);
  }

  lemma ServerClosedBody(d: Driver, phase: Phase, v: OrderView, o: OutputView, a: AuditView)
    requires Body(d, phase, v, o, a) && phase.Idle? && d.state.ServerClosed?
    ensures Body(d.(state := Closed), phase, v, o, a)
  {
    hide Accounted, Conserved;
  }

  lemma AbandonedIntake(d: Driver, k: IntakeView)
    requires IntakeOk(d, k)
    ensures IntakeOk(Abandoned(d), ObserveIntake(k, ClientClosed))
    ensures Abandoned(d).state.Draining? && Abandoned(d).deferred == d.deferred
  {
  }

  lemma CloseKeeps(first: SealView, s: Session, recipient: U32)
    requires Inv(first, s) && s.t.phase.Idle? && !s.d.state.BeforeOpen? && !s.d.state.Closed?
    ensures Handled(first, s, OnClose(s, recipient))
  {
    hide Inv, Note, Fail, Abandoned, Ended, LinkOk;
    if recipient != LOCAL_CHANNEL {
      FailKeeps(first, s, s.d, "unknown-channel");
    } else if s.d.state.ServerClosed? {
      ServerClosedKeeps(first, s);
    } else {
      hide Handled;
      ClosedHandled(first, s);
    }
  }

  lemma ClosedHandled(first: SealView, s: Session)
    requires Inv(first, s) && s.t.phase.Idle? && MayRekey(s.d.state)
    ensures Handled(first, s, Go(Note(s.(d := Abandoned(s.d)), ClientClosed)))
  {
    hide Inv, Handled, Body, IntakeOk, Note, Abandoned, ObserveIntake, ObserveOrder, ObserveOutput, ObserveAudit;
    hide LinkOk, Shape, WindowOk, OrderOk, Order, Output, Audit, Intake, Accounted;
    InvParts(first, s);
    AbandonedIntake(s.d, Intake(s.t.history));
    AbandonBody(s.d, s.t.phase, Order(s.t.history), Output(s.t.history), Audit(s.t.history));
    NotedHandled(first, s, Abandoned(s.d), ClientClosed);
  }

  lemma ServerClosedKeeps(first: SealView, s: Session)
    requires Inv(first, s) && s.t.phase.Idle?
    ensures s.d.state.ServerClosed? ==> Inv(first, s.(d := s.d.(state := Closed)))
  {
    hide LinkOk, Exchange, Order, Output, Audit, Body;
    if s.d.state.ServerClosed? {
      ServerClosedBody(s.d, s.t.phase, Order(s.t.history), Output(s.t.history), Audit(s.t.history));
    }
  }

  /** Messages that make the server send nothing. */
  predicate Receptive(m: Inbound) { m.Stdin? || m.Adjust? || m.PeerEof? || m.Malformed? }

  lemma ReceptiveKeeps(first: SealView, s: Session, m: Inbound, host: Host)
    requires m.Malformed? ==> |m.reason| < 64
    requires Inv(first, s) && !s.d.state.Closed? && Receptive(m) && (m.Stdin? ==> Handed(s.d.inn))
    ensures Handled(first, s, Handle(s, m, host)) && Quiet(s, Handle(s, m, host))
  {
    hide Inv, Handled, Fail, OnData, OnAdjust, OnEof;
    FailKeeps(first, s, s.d, "channel-message-before-open");
    match m
    case Malformed(_, reason) => FailKeeps(first, s, s.d, reason);
    case Stdin(recipient, data) => if !s.d.state.BeforeOpen? { DataInKeeps(first, s, recipient, data); }
    case Adjust(recipient, add) => if !s.d.state.BeforeOpen? { AdjustKeeps(first, s, recipient, add); }
    case PeerEof(recipient) => if !s.d.state.BeforeOpen? { EofKeeps(first, s, recipient); }
  }

  lemma HandleKeeps(first: SealView, s: Session, m: Inbound, host: Host)
    requires m.Malformed? ==> |m.reason| < 64
    requires Inv(first, s) && !s.d.state.Closed? && s.t.phase.Idle? && (m.Stdin? ==> Handed(s.d.inn))
    ensures Handled(first, s, Handle(s, m, host))
  {
    hide Inv, Handled, Fail, Send, OnOpen, OnRequest, OnData, OnAdjust, OnEof, OnClose, Handed;
    NothingHandled(first, s, Rejected("peer-disconnected"));
    FailKeeps(first, s, s.d, "channel-message-before-open");
    if Receptive(m) {
      ReceptiveKeeps(first, s, m, host);
    } else {
      match m
      case Open(_, _, _, _) => OpenKeeps(first, s, m);
      case Request(_, _, _, _) => if !s.d.state.BeforeOpen? { RequestKeeps(first, s, m, host); }
      case PeerClose(recipient) => if !s.d.state.BeforeOpen? { CloseKeeps(first, s, recipient); }
      case GlobalRequest(want) => if want { SendKeeps(first, s, RequestFailure); }
      case Tolerated =>
      case PeerDisconnect =>
    }
  }
}
