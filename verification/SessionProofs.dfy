/** Every run of the `drive` loop (`channel.rs`), with the re-key machine of
`transport.rs`: the invariant, the lifecycle, the packet bound, and what the
history of a whole session shows. */
module SessionProofs {
  import opened Wire
  import opened Trace
  import opened Transport
  import opened Channel
  import opened LinkProofs
  import opened StdinOrder
  import opened StdinProofs
  import opened ChannelProofs
  import opened TraceMeaning

  // ---- packets ----

  /** Messages handled at once during a re-key send nothing. */
  lemma InboundOnlyIsReceptive(payload: Bytes)
    requires InboundOnly(payload)
    ensures Receptive(Decode(payload))
  {
    hide GetString, GetU32, GetBoolean, Take;
  }

  /** The invariant at a loop point; messages wait only during a re-key. */
  ghost predicate LoopInv(first: SealView, s: Session) { Inv(first, s) && Settled(s) }

  /** What one event may do. */
  ghost predicate Reacted(first: SealView, s: Session, r: Step<Session>) {
    && Kept(first, r)
    && r.st.t.highest <= Peak(s, if s.t.phase.AwaitNewKeys? then MAX_DEFERRED else s.t.sealed + 1)
    && (r.Go? ==>
          && Settled(r.st) && r.st.t.limits == s.t.limits
          && Rank(s.d.state) <= Rank(r.st.d.state)
          && (s.t.phase.Idle? && r.st.t.phase.Idle? ==> r.st.t.sealed <= s.t.sealed + 1)
          && (s.t.phase.AwaitNewKeys? && r.st.t.phase.Idle? ==> r.st.t.sealed <= MAX_DEFERRED)
          && (!s.t.phase.AwaitNewKeys? && !s.t.phase.Idle? ==> !r.st.t.phase.Idle?)
          && (r.st.t.phase.SentKexInit? || r.st.t.phase.AwaitHybridInit? ==>
                r.st.t.sealed <= s.t.sealed + (if s.t.phase.Idle? then 1 else 0)))
  }

  lemma DeferKeeps(first: SealView, s: Session, payload: Bytes)
    requires LoopInv(first, s) && s.t.phase.SentKexInit? && |s.d.deferred| < MAX_DEFERRED && !InboundOnly(payload)
    ensures var n := Note(s.(d := s.d.(deferred := s.d.deferred + [payload])), Deferred(payload));
            Inv(first, n) && Settled(n) && n.t == s.t.(history := n.t.history)
  {
    hide InStep, Seals, Order, Output, Audit, Intake, Body, Below, Exchange, InboundOnly, OrderOk, WindowOk, FRESH;
    hide Accounted;
    InvParts(first, s);
    DeferredBody(s.d, s.t.phase, Order(s.t.history), Output(s.t.history), Audit(s.t.history), s.d.deferred + [payload]);
    BelowAppend(s.t.history, s.t.highest, Deferred(payload));
  }

  lemma DeferredBody(d: Driver, phase: Phase, v: OrderView, o: OutputView, a: AuditView, q: seq<Bytes>)
    requires Body(d, phase, v, o, a) && !d.state.BeforeOpen?
    ensures Body(d.(deferred := q), phase, v, o, a)
  {
    hide Conserved, Accounted;
  }

  lemma QuietReacted(first: SealView, s: Session, r: Step<Session>)
    requires LoopInv(first, s) && Handled(first, s, r) && Quiet(s, r)
    ensures Reacted(first, s, r) && (r.Go? ==> r.st.t.phase == s.t.phase && r.st.t.sealed == s.t.sealed)
  {
    hide Inv, Ended, Reacted, Settled;
    HandledReacted(first, s, r);
  }

  lemma PassKeeps(first: SealView, s: Session, payload: Bytes, host: Host)
    requires LoopInv(first, s) && s.t.phase.SentKexInit? && Handed(s.d.inn)
    ensures var r := Pass(s, payload, host);
            Reacted(first, s, r) && (r.Go? ==> r.st.t.phase == s.t.phase && r.st.t.sealed == s.t.sealed)
  {
    hide LoopInv, Handled, Reacted, Handle, Fail, Decode, InboundOnly, Handed, Note;
    if InboundOnly(payload) {
      InboundOnlyIsReceptive(payload);
      RekeyIsOpen(first, s);
      ReceptiveKeeps(first, s, Decode(payload), host);
      QuietReacted(first, s, HandleInbound(s, payload, host));
    } else if |s.d.deferred| >= MAX_DEFERRED {
      RekeyIsOpen(first, s);
      FailKeeps(first, s, s.d, "too-many-deferred-during-rekey");
      QuietReacted(first, s, Pass(s, payload, host));
    } else {
      DeferReacted(first, s, payload);
    }
  }

  lemma RekeyIsOpen(first: SealView, s: Session)
    requires LoopInv(first, s) && !s.t.phase.Idle?
    ensures Inv(first, s) && !s.d.state.Closed?
  {
    hide Inv, LinkOk, WindowOk, OrderOk, Order, Accounted, BodyOf, IntakeOk, FRESH;
    InvParts(first, s);
  }

  lemma DeferReacted(first: SealView, s: Session, payload: Bytes)
    requires LoopInv(first, s) && s.t.phase.SentKexInit? && |s.d.deferred| < MAX_DEFERRED && !InboundOnly(payload)
    ensures var n := Note(s.(d := s.d.(deferred := s.d.deferred + [payload])), Deferred(payload));
            Reacted(first, s, Go(n)) && n.t.phase == s.t.phase && n.t.sealed == s.t.sealed
  {
    hide Inv, InboundOnly, Log;
    DeferKeeps(first, s, payload);
  }

  lemma UndeferKeeps(first: SealView, s: Session)
    requires Inv(first, s) && s.t.phase.Idle? && MayRekey(s.d.state) && s.d.deferred != []
    ensures var n := Note(s.(d := s.d.(deferred := s.d.deferred[1..])), Undeferred(s.d.deferred[0]));
            Inv(first, n) && n.t == s.t.(history := n.t.history)
  {
    hide InStep, Seals, Order, Output, Audit, Intake, Body, Below, Exchange, InboundOnly;
    DeferredBody(s.d, s.t.phase, Order(s.t.history), Output(s.t.history), Audit(s.t.history), s.d.deferred[1..]);
    BelowAppend(s.t.history, s.t.highest, Undeferred(s.d.deferred[0]));
  }

  /** One message of the hold queue. */
  lemma DrainOne(first: SealView, s: Session, host: Host)
    requires Inv(first, s) && s.t.phase.Idle? && MayRekey(s.d.state) && s.d.deferred != []
    ensures var p, rest := s.d.deferred[0], s.d.deferred[1..];
            var r := HandleInbound(Note(s.(d := s.d.(deferred := rest)), Undeferred(p)), p, host);
            && Kept(first, r) && r.st.t.highest <= Peak(s, s.t.sealed)
            && (r.Go? ==>
                  && r.st.d.deferred == rest && r.st.t.phase.Idle? && r.st.t.limits == s.t.limits
                  && r.st.t.sealed <= s.t.sealed + 1 && Rank(s.d.state) <= Rank(r.st.d.state) && MayRekey(r.st.d.state))
  {
    QueueSpeaks(first, s);
    hide Inv, Ended, Handle, Note, Decode, InboundOnly, Handed;
    var p, rest := s.d.deferred[0], s.d.deferred[1..];
    UndeferKeeps(first, s);
    NoteFields(s.(d := s.d.(deferred := rest)), Undeferred(p));
    HandleKeeps(first, Note(s.(d := s.d.(deferred := rest)), Undeferred(p)), Decode(p), host);
  }

  /** `drain_deferred`: at most one reply per message, in a state that cannot
      have been closed by the server. */
  lemma {:induction false} DrainKeeps(first: SealView, s: Session, host: Host)
    requires Inv(first, s) && s.t.phase.Idle? && (s.d.deferred != [] ==> MayRekey(s.d.state))
    ensures var r := DrainDeferred(s, host);
            && Kept(first, r) && r.st.t.highest <= Peak(s, s.t.sealed + |s.d.deferred|)
            && (r.Go? ==> r.st.d.deferred == [] && r.st.t.phase.Idle? && r.st.t.limits == s.t.limits
                          && r.st.t.sealed <= s.t.sealed + |s.d.deferred| && Rank(s.d.state) <= Rank(r.st.d.state))
    decreases |s.d.deferred|
  {
    hide Inv, Ended, HandleInbound, Note;
    if s.d.deferred != [] {
      DrainOne(first, s, host);
      var p, rest := s.d.deferred[0], s.d.deferred[1..];
      var r := HandleInbound(Note(s.(d := s.d.(deferred := rest)), Undeferred(p)), p, host);
      if r.Go? {
        assert r.st.(d := r.st.d.(deferred := rest)) == r.st;
        DrainKeeps(first, r.st, host);
      }
    }
  }

  /** No message held back is stdin. */
  lemma QueueSpeaks(first: SealView, s: Session)
    requires Inv(first, s)
    ensures s.d.deferred != [] ==> !Decode(s.d.deferred[0]).Stdin?
  {
    HeldBackSpeaks(s.t.history);
    if s.d.deferred != [] {
      StdinIsInboundOnly(s.d.deferred[0]);
    }
  }

  lemma StdinIsInboundOnly(payload: Bytes)
    ensures Decode(payload).Stdin? ==> InboundOnly(payload)
  {
    hide GetString, GetU32, GetBoolean, Take;
  }

  lemma NoteFields(s: Session, e: Entry)
    ensures Note(s, e).d == s.d
  {
  }

  lemma ReceivedInv(first: SealView, s: Session, payload: Bytes)
    requires LoopInv(first, s)
    ensures LoopInv(first, s.(t := Received(s.t, payload)))
  {
    hide LinkOk, Body, Exchange, Order, Output, Audit, Intake, Received;
    ReceivedKeeps(first, s.t, payload);
    ReceivedFields(s.t, payload);
  }

  /** A packet read and counted says nothing. */
  lemma TakenInv(first: SealView, s: Session, payload: Bytes, now: nat)
    requires LoopInv(first, s)
    ensures LoopInv(first, Taken(s, payload, now))
    ensures var r := Taken(s, payload, now);
            && r.d == s.d && r.t.phase == s.t.phase && r.t.sealed == s.t.sealed && r.t.highest == s.t.highest
            && r.t.limits == s.t.limits
  {
    hide Inv, Received, Order, Output, Audit, Intake, Exchange, Body, IntakeOk, LinkOk, Shape, WindowOk, OrderOk;
    hide Accounted, Handled, Note;
    InvParts(first, s);
    NotedHandled(first, s, s.d, Read(|payload|, now));
    var n := Note(s, Read(|payload|, now));
    NoteLink(s, Read(|payload|, now));
    ReceivedInv(first, n, payload);
    ReceivedFields(n.t, payload);
  }

  lemma NoteLink(s: Session, e: Entry)
    ensures Note(s, e) == s.(t := Log(s.t, e)) && Note(s, e).d == s.d
    ensures Log(s.t, e) == s.t.(history := Log(s.t, e).history)
  {
  }

  lemma ReceivedFields(t: Link, payload: Bytes)
    ensures var r := Received(t, payload);
            r.phase == t.phase && r.sealed == t.sealed && r.highest == t.highest && r.limits == t.limits
  {
  }

  /** The re-key machine moves; the channel does not. */
  lemma RekeyedInv(first: SealView, s: Session, t': Link)
    requires Inv(first, s) && LinkOk(first, t') && Silent(s.t, t')
    requires t'.phase.SentKexInit? ==> MayRekey(s.d.state)
    requires s.d.state.Closed? ==> t'.phase.Idle?
    ensures Inv(first, s.(t := t'))
  {
    hide LinkOk, Exchange, Order, Output, Audit, Intake, OrderOk, OutputOk, WindowOk, AuditOk, IntakeOk;
  }

  lemma SilentEnded(first: SealView, s: Session, t': Link)
    requires Inv(first, s) && LinkClean(first, t') && Silent(s.t, t')
    ensures Ended(first, s.(t := t'))
  {
    InvEnded(first, s);
    hide Inv, LinkClean, Exchange, Order, Output, Audit, Intake, Tally;
  }

  lemma SettledQueueBound(first: SealView, s: Session)
    requires Inv(first, s)
    ensures |s.d.deferred| <= MAX_DEFERRED
  {
    hide InStep, BodyOf, IntakeOk, Exchange, Order, Output, Audit, Intake;
    DeferralIsFifo(s.t.history);
  }

  lemma CompletedKeeps(first: SealView, s: Session, t': Link, host: Host)
    requires LoopInv(first, s) && s.t.phase.AwaitNewKeys? && !s.d.state.Closed?
    requires LinkOk(first, t') && Silent(s.t, t') && t'.phase.Idle? && t'.sealed == 0 && t'.limits == s.t.limits
    requires t'.highest <= Peak(s, s.t.sealed + 1)
    ensures Reacted(first, s, DrainDeferred(s.(t := t'), host))
  {
    hide Inv, LinkOk, Silent, DrainDeferred, Ended, OrderOk, WindowOk, Shape, Order, Accounted;
    InvParts(first, s);
    SettledQueueBound(first, s);
    RekeyedInv(first, s, t');
    DrainKeeps(first, s.(t := t'), host);
  }

  lemma ContinuedKeeps(first: SealView, s: Session, t': Link)
    requires LoopInv(first, s) && !s.d.state.Closed?
    requires LinkOk(first, t') && Silent(s.t, t') && t'.limits == s.t.limits
    requires t'.phase.AwaitHybridInit? || t'.phase.AwaitNewKeys?
    requires t'.phase.AwaitHybridInit? ==> t'.sealed <= s.t.sealed + (if s.t.phase.Idle? then 1 else 0)
    requires t'.highest <= Peak(s, s.t.sealed + 1)
    ensures Reacted(first, s, Go(s.(t := t')))
  {
    hide Inv, LinkOk, Silent, OrderOk, WindowOk, Shape, Order, Accounted, BodyOf, IntakeOk;
    InvParts(first, s);
    RekeyedInv(first, s, t');
  }

  lemma TopIsPeak(first: SealView, s: Session, extra: nat)
    requires Inv(first, s)
    ensures Top(s.t, extra) == Peak(s, s.t.sealed + extra)
  {
    hide Inv, LinkOk, WindowOk, OrderOk, Order, Accounted, BodyOf, IntakeOk, Shape;
    InvParts(first, s);
  }

  lemma RekeyPacketKeeps(first: SealView, s: Session, payload: Bytes, host: Host)
    requires LoopInv(first, s) && !s.d.state.Closed? && Handed(s.d.inn)
    ensures Reacted(first, s, RekeyPacket(s, payload, host))
  {
    hide Inv, LinkOk, Order, StepRekey, DrainDeferred, Reacted, Pass, Silent, LinkClean, Handed, Top, Peak;
    hide Shape, WindowOk, OrderOk, BodyOf, IntakeOk, Accounted;
    InvParts(first, s);
    TopIsPeak(first, s, 1);
    StepRekeyKeeps(first, s.t, payload, host.env);
    match StepRekey(s.t, payload, host.env)
    case Halt(t, cause) => HaltReacted(first, s, t, cause);
    case Next(t, what) =>
      if what.PassToChannel? {
        PassKeeps(first, s, payload, host);
      } else if what.Completed? {
        CompletedKeeps(first, s, t, host);
      } else {
        ContinuedKeeps(first, s, t);
      }
  }

  lemma HaltReacted(first: SealView, s: Session, t: Link, cause: Cause)
    requires Inv(first, s) && LinkClean(first, t) && Silent(s.t, t) && t.highest <= Peak(s, s.t.sealed + 1)
    ensures Reacted(first, s, Stop(s.(t := t), cause))
  {
    hide Inv, LinkClean, Silent, Ended, LinkOk, OrderOk, WindowOk, FRESH, Order, Shape, Accounted;
    InvParts(first, s);
    SilentEnded(first, s, t);
  }

  lemma PlainPacketKeeps(first: SealView, s: Session, payload: Bytes, host: Host)
    requires LoopInv(first, s) && s.t.phase.Idle? && !s.d.state.Closed? && Handed(s.d.inn)
    ensures Reacted(first, s, HandleInbound(s, payload, host))
  {
    hide Inv, Ended, Handle, Decode;
    HandleKeeps(first, s, Decode(payload), host);
  }

  lemma PacketKeeps(first: SealView, s: Session, payload: Bytes, host: Host)
    requires LoopInv(first, s) && !s.d.state.Closed? && Handed(s.d.inn)
    ensures Reacted(first, s, OnPacket(s, payload, host))
  {
    hide LoopInv, Kept, RekeyPacket, HandleInbound, Taken, Settled, Handed;
    TakenInv(first, s, payload, host.env.now);
    var s1 := Taken(s, payload, host.env.now);
    if RekeyActive(s1.t) || (payload != [] && payload[0] == MSG_KEXINIT) {
      RekeyPacketKeeps(first, s1, payload, host);
    } else {
      PlainPacketKeeps(first, s1, payload, host);
    }
  }

  // ---- the other events ----

  lemma ChunkOutput(o: Outflow, early: bool, v: OutputView, kind: Stream, data: Str)
    requires OutputOk(o, early, v) && o.pending.None?
    ensures OutputOk(if early then o else o.(pending := Some(PendingOut(kind, data))), early,
                     ObserveOutput(v, ChildOutput(kind, data)))
  {
    hide SatAdd;
    assert v.sent + [] == v.sent;
  }

  lemma ChunkSilent(v: OrderView, a: AuditView, kind: Stream, data: Str)
    ensures ObserveOrder(v, ChildOutput(kind, data)) == v.(ok := v.ok && !v.exitSent)
    ensures ObserveAudit(a, ChildOutput(kind, data)) == a
  {
  }

  lemma ChunkBody(d: Driver, phase: Phase, v: OrderView, o: OutputView, a: AuditView, kind: Stream, data: Str)
    requires Body(d, phase, v, o, a) && MayEmitOutput(d.state) && d.out.pending.None? && 0 < |data| <= MAX_DATA
    ensures var e := ChildOutput(kind, data);
            var d' := if d.earlyClose then d else d.(out := d.out.(pending := Some(PendingOut(kind, data))));
            Body(d', phase, ObserveOrder(v, e), ObserveOutput(o, e), ObserveAudit(a, e))
  {
    hide Conserved, Accounted, Counted, OutputOk, ObserveOrder, ObserveOutput, ObserveAudit, FRESH;
    ChunkOutput(d.out, d.earlyClose, o, kind, data);
    ChunkSilent(v, a, kind, data);
  }

  lemma ExitedBody(d: Driver, phase: Phase, v: OrderView, o: OutputView, a: AuditView, code: U32,
                   signal: Option<(Str, bool)>)
    requires Body(d, phase, v, o, a) && MayEmitOutput(d.state) && d.inn.child.Some?
    ensures var e := ChildExit(code, signal);
            Body(OnExited(d, code, signal), phase, ObserveOrder(v, e), ObserveOutput(o, e), ObserveAudit(a, e))
    ensures OnExited(d, code, signal).state.Draining? && OnExited(d, code, signal).deferred == d.deferred
  {
    ExitedShape(d, phase, code, signal);
    ExitedOrder(d, v, o, a, code, signal);
    ExitedWindow(d, code, signal);
    hide Shape, OrderOk, WindowOk, OutputOk, ObserveOrder, ObserveOutput, ObserveAudit;
  }

  lemma ExitedShape(d: Driver, phase: Phase, code: U32, signal: Option<(Str, bool)>)
    requires Shape(d, phase) && MayEmitOutput(d.state) && d.inn.child.Some?
    ensures Shape(OnExited(d, code, signal), phase)
  {
    hide FRESH;
  }

  lemma ExitedOrder(d: Driver, v: OrderView, o: OutputView, a: AuditView, code: U32, signal: Option<(Str, bool)>)
    requires OrderOk(d, v) && MayEmitOutput(d.state) && d.inn.child.Some? && (d.exitSignal.Some? ==> d.exitStatus.Some?)
    ensures var e := ChildExit(code, signal);
            OrderOk(OnExited(d, code, signal), ObserveOrder(v, e)) && ObserveOutput(o, e) == o
                && ObserveAudit(a, e) == a
  {
    hide FRESH;
  }

  lemma ExitedParts(d: Driver, code: U32, signal: Option<(Str, bool)>)
    requires MayEmitOutput(d.state) && d.inn.child.Some?
    ensures var r := OnExited(d, code, signal);
            && r.inn == d.inn.(child := Some(d.inn.child.value.(exitReported := true))) && r.state.Draining?
            && r.out == d.out && r.earlyClose == d.earlyClose && r.bytesReceived == d.bytesReceived
            && QueuedAcks(r.inn) == QueuedAcks(d.inn) && r.inn.line == d.inn.line
            && (Counted(d.inn, d.bytesReceived) ==> Counted(r.inn, r.bytesReceived))
  {
    hide SatAdd, Sum;
  }

  lemma ExitedWindow(d: Driver, code: U32, signal: Option<(Str, bool)>)
    requires WindowOk(d) && MayEmitOutput(d.state) && d.inn.child.Some?
    ensures WindowOk(OnExited(d, code, signal))
  {
    hide Conserved, Accounted, Acked, Counted;
    ExitedInflow(d.inn, d.earlyClose, Rank(d.state) >= 3);
    ExitedParts(d, code, signal);
  }

  lemma ExitedInflow(i: Inflow, early: bool, ended: bool)
    requires i.child.Some? && Accounted(i, early, ended)
    ensures var j := i.(child := Some(i.child.value.(exitReported := true)));
            StdinKept(i, j) && Accounted(j, early, ended) && Accounted(j, early, true)
  {
    hide Placed, Ready, Handed, Flat, AtPump;
    SamePlacesKeep(i, i.(child := Some(i.child.value.(exitReported := true))));
  }

  lemma OutputEndedInflow(i: Inflow, early: bool, ended: bool)
    requires i.child.Some? && Accounted(i, early, ended)
    ensures var j := i.(child := Some(i.child.value.(outputEnded := true)));
            StdinKept(i, j) && Accounted(j, early, ended)
  {
    hide Placed, Ready, Handed, Flat, AtPump;
    SamePlacesKeep(i, i.(child := Some(i.child.value.(outputEnded := true))));
  }

  lemma ChildBody(d: Driver, phase: Phase, v: OrderView, o: OutputView, a: AuditView)
    requires Body(d, phase, v, o, a) && d.inn.child.Some?
    ensures Body(d.(consumedClosed := true), phase, v, o, a)
  {
    hide Accounted, Conserved, Acked, OrderOk, OutputOk, AuditOk;
    AsideBody(d, d.(consumedClosed := true), phase, v, o, a);
  }

  lemma OutputEndedBody(d: Driver, phase: Phase, v: OrderView, o: OutputView, a: AuditView)
    requires Body(d, phase, v, o, a) && d.inn.child.Some?
    ensures var r := SetChild(d, d.inn.child.value.(outputEnded := true));
            Body(r.(childOutClosed := true), phase, ObserveOrder(v, OutputEnded), ObserveOutput(o, OutputEnded),
                 ObserveAudit(a, OutputEnded))
  {
    hide Accounted, Conserved, Acked, OrderOk, OutputOk, AuditOk, Shape, WindowOk, Body;
    hide ObserveOrder, ObserveOutput, ObserveAudit;
    EndedSilent(v, o, a);
    ChildEnded(d, phase, v, o, a);
    DrainedBody(SetChild(d, d.inn.child.value.(outputEnded := true)), phase, v, o, a);
  }

  lemma EndedSilent(v: OrderView, o: OutputView, a: AuditView)
    ensures ObserveOrder(v, OutputEnded) == v.(drained := true) && ObserveOutput(o, OutputEnded) == o
    ensures ObserveAudit(a, OutputEnded) == a
  {
  }

  lemma ChildEnded(d: Driver, phase: Phase, v: OrderView, o: OutputView, a: AuditView)
    requires Body(d, phase, v, o, a) && d.inn.child.Some?
    ensures Body(SetChild(d, d.inn.child.value.(outputEnded := true)), phase, v, o, a)
  {
    hide Accounted, Conserved, Acked, OrderOk, OutputOk, AuditOk;
    OutputEndedInflow(d.inn, d.earlyClose, Rank(d.state) >= 3);
    AsideBody(d, SetChild(d, d.inn.child.value.(outputEnded := true)), phase, v, o, a);
  }

  lemma DrainedBody(d: Driver, phase: Phase, v: OrderView, o: OutputView, a: AuditView)
    requires Body(d, phase, v, o, a) && d.inn.child.Some?
    ensures Body(d.(childOutClosed := true), phase, v.(drained := true), o, a)
  {
    hide Accounted, Conserved, Counted, OutputOk, AuditOk, FRESH;
    FreshHasNoChild();
  }

  lemma OutputEndsKeeps(first: SealView, s: Session)
    requires LoopInv(first, s) && s.d.inn.child.Some?
    ensures var d := SetChild(s.d, s.d.inn.child.value.(outputEnded := true)).(childOutClosed := true);
            Reacted(first, s, Go(Note(s.(d := d), OutputEnded)))
  {
    hide Inv, Order, Output, Audit, Intake, Body, Note, Handled, Reacted;
    hide ObserveOrder, ObserveOutput, ObserveAudit, LinkOk, Shape, WindowOk, OrderOk, Accounted;
    InvParts(first, s);
    var d := SetChild(s.d, s.d.inn.child.value.(outputEnded := true)).(childOutClosed := true);
    OutputEndedBody(s.d, s.t.phase, Order(s.t.history), Output(s.t.history), Audit(s.t.history));
    NotedHandled(first, s, d, OutputEnded);
    HandledReacted(first, s, Go(Note(s.(d := d), OutputEnded)));
  }

  lemma HandledReacted(first: SealView, s: Session, r: Step<Session>)
    requires LoopInv(first, s) && Handled(first, s, r) && (s.t.phase.Idle? || Quiet(s, r))
    ensures Reacted(first, s, r)
  {
    hide Inv, Ended, LinkOk, OrderOk, WindowOk, FRESH, Order, Shape, Accounted;
    InvParts(first, s);
  }

  lemma ChunkKeeps(first: SealView, s: Session, kind: Stream, data: Str)
    requires LoopInv(first, s) && WantOutput(s) && 0 < |data| <= MAX_DATA
    ensures Reacted(first, s, Go(OnChunk(s, kind, data)))
  {
    hide Inv, Order, Output, Audit, Intake, Body, Log, Handled, Reacted;
    hide ObserveOrder, ObserveOutput, ObserveAudit, LinkOk, Shape, WindowOk, OrderOk, Accounted;
    InvParts(first, s);
    var d := if s.d.earlyClose then s.d else s.d.(out := s.d.out.(pending := Some(PendingOut(kind, data))));
    ChunkBody(s.d, s.t.phase, Order(s.t.history), Output(s.t.history), Audit(s.t.history), kind, data);
    NotedHandled(first, s, d, ChildOutput(kind, data));
    HandledReacted(first, s, Go(OnChunk(s, kind, data)));
  }

  lemma ExitKeeps(first: SealView, s: Session, code: U32, signal: Option<(Str, bool)>)
    requires LoopInv(first, s) && WantOutput(s)
    ensures Reacted(first, s, Go(Note(s.(d := OnExited(s.d, code, signal)), ChildExit(code, signal))))
  {
    hide Inv, Order, Output, Audit, Intake, Body, Note, Handled, Reacted;
    hide ObserveOrder, ObserveOutput, ObserveAudit, LinkOk, Shape, WindowOk, OrderOk, Accounted;
    InvParts(first, s);
    var d := OnExited(s.d, code, signal);
    ExitedBody(s.d, s.t.phase, Order(s.t.history), Output(s.t.history), Audit(s.t.history), code, signal);
    NotedHandled(first, s, d, ChildExit(code, signal));
    HandledReacted(first, s, Go(Note(s.(d := d), ChildExit(code, signal))));
  }

  /** A step of the driver that neither sends nor notes anything. */
  lemma SilentReacted(first: SealView, s: Session, d: Driver)
    requires LoopInv(first, s) && d.deferred == s.d.deferred && IntakeOk(d, Intake(s.t.history))
    requires Body(d, s.t.phase, Order(s.t.history), Output(s.t.history), Audit(s.t.history))
    requires Rank(s.d.state) <= Rank(d.state) && (MayRekey(s.d.state) ==> MayRekey(d.state))
    ensures Reacted(first, s, Go(s.(d := d)))
  {
    hide LinkOk, Exchange, Order, Output, Audit, Intake, Body, IntakeOk;
  }

  /** The inbound half's own progress, driven by the stdin pump. */
  lemma PumpKeeps(first: SealView, s: Session, j: Inflow)
    requires LoopInv(first, s) && s.d.inn.child.Some? && StdinKept(s.d.inn, j)
    requires Accounted(j, s.d.earlyClose, Rank(s.d.state) >= 3) && j.pending == s.d.inn.pending
             && j.credit == s.d.inn.credit
    ensures Reacted(first, s, Go(WithInflow(s, j)))
  {
    hide Inv, Accounted, StdinKept, LinkOk, OrderOk, WindowOk, BodyOf, IntakeOk, Order, FRESH;
    InvParts(first, s);
    InflowHandled(first, s, j);
  }

  lemma PumpEventKeeps(first: SealView, s: Session, e: Event, host: Host)
    requires LoopInv(first, s) && Enabled(s, e) && (e.PumpTakes? || e.PumpWrites? || e.PumpEnds?)
    ensures Reacted(first, s, React(s, e, host))
  {
    hide LoopInv, Reacted, OnPacket, PumpTook, PumpWrote, PumpEnded, Note;
    if e.PumpTakes? {
      TakeKeeps(first, s);
    } else if e.PumpWrites? {
      WriteKeeps(first, s, e.n);
    } else {
      StopKeeps(first, s);
    }
  }

  lemma TakeKeeps(first: SealView, s: Session)
    requires LoopInv(first, s) && s.d.inn.child.Some? && s.d.inn.child.value.pumpAlive
    requires s.d.inn.child.value.queue != [] && s.d.inn.child.value.inflight == []
    ensures Reacted(first, s, Go(WithInflow(s, PumpTook(s.d.inn))))
  {
    hide Inv, Reacted, Accounted, StdinKept, LinkOk, OrderOk, WindowOk, Shape, BodyOf, IntakeOk, Order;
    InvParts(first, s);
    PumpTookKeeps(s.d.inn, s.d.earlyClose, Rank(s.d.state) >= 3);
    PumpKeeps(first, s, PumpTook(s.d.inn));
  }

  lemma StopKeeps(first: SealView, s: Session)
    requires LoopInv(first, s) && s.d.inn.child.Some? && s.d.inn.child.value.pumpAlive
    ensures Reacted(first, s, Go(WithInflow(s, PumpEnded(s.d.inn))))
  {
    hide Inv, Reacted, Accounted, StdinKept, LinkOk, OrderOk, WindowOk, Shape, BodyOf, IntakeOk, Order, SumLen;
    InvParts(first, s);
    PumpEndedKeeps(s.d.inn, s.d.earlyClose, Rank(s.d.state) >= 3);
    PumpKeeps(first, s, PumpEnded(s.d.inn));
  }

  /** Bytes the pump wrote are the next ones of the child's input. */
  lemma WriteKeeps(first: SealView, s: Session, n: nat)
    requires s.d.inn.child.Some? && n <= |s.d.inn.child.value.inflight| && n < U32_LIMIT
    requires LoopInv(first, s) && s.d.inn.child.value.pumpAlive
    ensures Reacted(first, s, Go(Note(WithInflow(s, PumpWrote(s.d.inn, n)),
                                      Delivered(s.d.inn.child.value.inflight[..n]))))
  {
    hide Inv, Order, Output, Audit, Intake, Body, Note, PumpWrote, IntakeOk, Handled, Reacted;
    hide ObserveOrder, ObserveOutput, ObserveAudit, ObserveIntake, LinkOk, Shape, WindowOk, OrderOk, Accounted;
    InvParts(first, s);
    var j, e := PumpWrote(s.d.inn, n), Delivered(s.d.inn.child.value.inflight[..n]);
    WroteBody(s.d, s.t.phase, Order(s.t.history), Output(s.t.history), Audit(s.t.history), Intake(s.t.history), n);
    NotedHandled(first, s, s.d.(inn := j), e);
    HandledReacted(first, s, Go(Note(WithInflow(s, j), e)));
  }

  lemma WroteBody(d: Driver, phase: Phase, v: OrderView, o: OutputView, a: AuditView, k: IntakeView, n: nat)
    requires Body(d, phase, v, o, a) && d.inn.child.Some? && d.inn.child.value.pumpAlive && IntakeOk(d, k)
    requires n <= |d.inn.child.value.inflight| && n < U32_LIMIT
    ensures var r, e := d.(inn := PumpWrote(d.inn, n)), Delivered(d.inn.child.value.inflight[..n]);
            && Body(r, phase, ObserveOrder(v, e), ObserveOutput(o, e), ObserveAudit(a, e))
            && IntakeOk(r, ObserveIntake(k, e))
  {
    hide OrderOk, OutputOk, AuditOk, Accounted, InflowKept, Conserved, Counted, FRESH;
    FreshHasNoChild();
    PumpWroteKeeps(d.inn, n, d.earlyClose, Rank(d.state) >= 3);
    InflowBody(d, phase, v, o, a, PumpWrote(d.inn, n));
  }

  lemma AckBody(d: Driver, phase: Phase, v: OrderView, o: OutputView, a: AuditView)
    requires Body(d, phase, v, o, a) && d.inn.child.Some? && d.inn.child.value.acks != []
    ensures var n := SatAdd(d.bytesReceived, d.inn.child.value.acks[0], U64_LIMIT);
            Body(d.(inn := AckTaken(d.inn), bytesReceived := n), phase, v, o, a)
  {
    hide Accounted, Conserved, AckTaken, Acked, SatAdd, OrderOk, OutputOk, AuditOk, FRESH;
    FreshHasNoChild();
    AckKeeps(d.inn, d.earlyClose, Rank(d.state) >= 3);
    AckedAdd(Acked(d.inn), d.inn.child.value.acks[0]);
    var n := SatAdd(d.bytesReceived, d.inn.child.value.acks[0], U64_LIMIT);
    AsideBody(d, d.(inn := AckTaken(d.inn), bytesReceived := n), phase, v, o, a);
  }

  lemma AckedAdd(n: nat, m: nat)
    ensures SatAdd(SatAdd(0, n, U64_LIMIT), m, U64_LIMIT) == SatAdd(0, n + m, U64_LIMIT)
  {
  }

  lemma AckIntake(d: Driver, k: IntakeView, n: U64)
    requires IntakeOk(d, k) && d.inn.child.Some? && d.inn.child.value.acks != []
    ensures IntakeOk(d.(inn := AckTaken(d.inn), bytesReceived := n), k)
  {
    hide SatAdd;
  }

  lemma AckEventKeeps(first: SealView, s: Session, host: Host)
    requires LoopInv(first, s) && Enabled(s, Ack)
    ensures Reacted(first, s, React(s, Ack, host))
  {
    hide Inv, LinkOk, Order, Output, Audit, Intake, Body, Reacted, OnPacket, Shape, WindowOk, OrderOk, Accounted;
    hide IntakeOk, AckTaken, SatAdd, Settled;
    var n := SatAdd(s.d.bytesReceived, s.d.inn.child.value.acks[0], U64_LIMIT);
    InvParts(first, s);
    AckIntake(s.d, Intake(s.t.history), n);
    AckBody(s.d, s.t.phase, Order(s.t.history), Output(s.t.history), Audit(s.t.history));
    SilentReacted(first, s, s.d.(inn := AckTaken(s.d.inn), bytesReceived := n));
  }

  lemma ChildEventKeeps(first: SealView, s: Session, e: Event, host: Host)
    requires LoopInv(first, s) && Enabled(s, e) && (e.Chunk? || e.Exited? || e.OutputEnds? || e.AcksEnd?)
    ensures Reacted(first, s, React(s, e, host))
  {
    hide LinkOk, Exchange, Order, Output, Audit, Intake, Body, Reacted, OnChunk, OnPacket;
    match e
    case Chunk(kind, data) => ChunkKeeps(first, s, kind, data);
    case Exited(code, signal) => ExitKeeps(first, s, code, signal);
    case OutputEnds => OutputEndsKeeps(first, s);
    case AcksEnd =>
      ChildBody(s.d, s.t.phase, Order(s.t.history), Output(s.t.history), Audit(s.t.history));
      SilentReacted(first, s, s.d.(consumedClosed := true));
  }

  lemma ReactKeeps(first: SealView, s: Session, e: Event, host: Host)
    requires LoopInv(first, s) && !s.d.state.Closed? && Enabled(s, e) && Handed(s.d.inn)
    ensures Reacted(first, s, React(s, e, host))
  {
    hide Inv, Ended, Handled, Reacted, OnPacket, RekeyTimeout, OnChunk, OnExited, Enabled, Handed;
    match e
    case Packet(payload) => PacketKeeps(first, s, payload, host);
    case ReadFails =>
      NothingHandled(first, s, Io);
      HandledReacted(first, s, Stop(s, Io));
    case DeadlinePasses => TimeoutKeeps(first, s);
    case Wakes =>
      NothingHandled(first, s, Io);
      HandledReacted(first, s, Go(s));
    case Ack => AckEventKeeps(first, s, host);
    case PumpTakes => PumpEventKeeps(first, s, e, host);
    case PumpWrites(_) => PumpEventKeeps(first, s, e, host);
    case PumpEnds => PumpEventKeeps(first, s, e, host);
    case _ => ChildEventKeeps(first, s, e, host);
  }

  lemma TimeoutKeeps(first: SealView, s: Session)
    requires LoopInv(first, s)
    ensures Reacted(first, s, Stop(s.(t := RekeyTimeout(s.t).st), RekeyTimeout(s.t).cause))
  {
    hide Inv, Reacted, LinkClean, Silent, Reject, OrderOk, WindowOk, Shape, BodyOf, IntakeOk, Accounted, Order;
    TopIsPeak(first, s, 0);
    InvParts(first, s);
    RejectKeeps(first, s.t, KexOf(s.t.phase), DISCONNECT_KEY_EXCHANGE_FAILED, "rekey-timeout");
    HaltReacted(first, s, RekeyTimeout(s.t).st, RekeyTimeout(s.t).cause);
  }

  // ---- one turn of the loop ----

  /** Phases (A) to (E) keep the invariant. During a re-key the transport
      stands still; outside one at most a chunk, a credit and the close
      sequence or a KEXINIT go out. */
  ghost predicate Turned(first: SealView, s: Session, r: Step<Session>) {
    && Kept(first, r)
    && r.st.t.highest <= Peak(s, if RekeyActive(s.t) then 0 else s.t.sealed + MAX_DATA + 3)
    && (r.Go? ==> Handed(r.st.d.inn) && Settled(r.st) && r.st.t.limits == s.t.limits
                  && Rank(s.d.state) <= Rank(r.st.d.state))
    && (r.Go? && RekeyActive(s.t) ==> r.st.t == s.t && r.st.d.state == s.d.state)
    && (r.Go? && !RekeyActive(s.t) && RekeyActive(r.st.t) ==>
          r.st.t.phase.SentKexInit? && r.st.t.sealed <= s.t.sealed + MAX_DATA + 2)
    && (r.Go? && !RekeyActive(s.t) && !RekeyActive(r.st.t) && MayRekey(r.st.d.state) ==>
          r.st.t.sealed <= s.t.sealed + MAX_DATA + 1 && r.st.t.seqTx < r.st.t.limits.maxPackets)
  }

  lemma RekeyDueByCount(t: Link, now: nat)
    ensures t.phase.Idle? && t.seqTx >= t.limits.maxPackets ==> RekeyDue(t, now)
  {
  }

  lemma StartRekeyKeeps(first: SealView, s: Session, host: Host)
    requires Inv(first, s) && s.t.phase.Idle?
    ensures var r := StartRekey(s, host);
            && Kept(first, r) && r.st.d == s.d && r.st.t.highest <= Peak(s, s.t.sealed)
            && (r.Go? ==> r.st.t.limits == s.t.limits)
            && (r.Go? && r.st.t.phase.Idle? ==> r.st == s
                                                && (MayRekey(s.d.state) ==> s.t.seqTx < s.t.limits.maxPackets))
            && (r.Go? && !r.st.t.phase.Idle? ==> r.st.t.phase.SentKexInit? && r.st.t.sealed == s.t.sealed + 1
                                                 && MayRekey(s.d.state))
  {
    InvEnded(first, s);
    hide Inv, LinkOk, Ended, BeginRekey, Silent, LinkClean, Top, Shape, WindowOk, OrderOk, Order, BodyOf;
    hide IntakeOk, Accounted, RekeyDue;
    RekeyDueByCount(s.t, host.env.now);
    InvParts(first, s);
    TopIsPeak(first, s, 0);
    if RekeyDue(s.t, host.env.now) && MayRekey(s.d.state) {
      BeginKeeps(first, s.t, host.env);
      var r := BeginRekey(s.t, host.env);
      if r.Go? {
        RekeyedInv(first, s, r.st);
      } else {
        SilentEnded(first, s, r.st);
      }
    }
  }

  lemma CloseSequenceKeeps(first: SealView, s: Session)
    requires Inv(first, s)
    ensures var r := CloseSequence(s);
            && Kept(first, r) && r.st.t.highest <= Peak(s, s.t.sealed + 2)
            && (r.Go? ==> r.st.t.limits == s.t.limits && Rank(s.d.state) <= Rank(r.st.d.state)
                          && r.st.d.deferred == s.d.deferred && r.st.d.inn == s.d.inn)
            && (RekeyActive(s.t) ==> r == Go(s))
            && (r.Go? ==> r.st == s || (s.t.phase.Idle? && r.st.t.phase.Idle? && !MayRekey(r.st.d.state)))
  {
    hide Inv, Ended, SendTerminal;
    if !RekeyActive(s.t) && ReadyToClose(s.d) {
      if s.d.earlyClose {
        EarlyTerminalKeeps(first, s);
      } else {
        NormalTerminalKeeps(first, s);
      }
    }
  }

  lemma ConcludeKeeps(first: SealView, s: Session, host: Host)
    requires LoopInv(first, s) && s.t.phase.Idle? && Handed(s.d.inn)
    ensures var r := Conclude(s, host);
            && Kept(first, r) && r.st.t.highest <= Peak(s, s.t.sealed + 3)
            && (r.Go? ==>
                  && Handed(r.st.d.inn) && Settled(r.st) && r.st.t.limits == s.t.limits
                  && Rank(s.d.state) <= Rank(r.st.d.state)
                  && (RekeyActive(r.st.t) ==> r.st.t.phase.SentKexInit? && r.st.t.sealed <= s.t.sealed + 2)
                  && (!RekeyActive(r.st.t) && MayRekey(r.st.d.state) ==>
                        r.st.t.sealed <= s.t.sealed + 1 && r.st.t.seqTx < r.st.t.limits.maxPackets))
  {
    hide Inv, Ended, Replenish, StartRekey, CloseSequence, Handed;
    ReplenishKeeps(first, s);
    var b := Replenish(s);
    if b.Go? {
      StartRekeyKeeps(first, b.st, host);
      var c := StartRekey(b.st, host);
      if c.Go? {
        CloseSequenceKeeps(first, c.st);
      }
    }
  }

  lemma TurnKeeps(first: SealView, s: Session, host: Host)
    requires LoopInv(first, s)
    ensures Turned(first, s, Turn(s, host))
  {
    hide Inv, Ended, FlushOutput, HandOver, Conclude, Handed;
    if RekeyActive(s.t) {
      HandOverKeeps(first, s);
    } else {
      hide Turned;
      FreeTurnKeeps(first, s, host);
    }
  }

  lemma PendingBound(first: SealView, s: Session)
    requires Inv(first, s)
    ensures PendingLen(s.d.out) <= MAX_DATA
  {
    hide LinkOk, OrderOk, OutputOk, AuditOk, WindowOk, IntakeOk, FRESH, Exchange, Order, Output, Audit, Intake;
  }

  /** A turn outside a re-key. */
  lemma FreeTurnKeeps(first: SealView, s: Session, host: Host)
    requires LoopInv(first, s) && !RekeyActive(s.t)
    ensures Turned(first, s, Turn(s, host))
  {
    hide Inv, Ended, FlushOutput, HandOver, Conclude, Handed, PendingLen;
    PendingBound(first, s);
    FlushKeeps(first, s);
    var a := FlushOutput(s);
    if a.Go? {
      HandOverKeeps(first, a.st);
      ConcludeKeeps(first, HandOver(a.st), host);
    }
  }

  // ---- one iteration ----

  /** What holds of a run so far. */
  ghost predicate Going(first: SealView, s: Session, st: Status) {
    match st
    case Live(n) => LoopInv(first, n) && n.t.limits == s.t.limits && Rank(s.d.state) <= Rank(n.d.state)
    case Returned(n) =>
      && Ended(first, n) && Order(n.t.history).closeSent && n.d.state.Closed?
      && (n.d.command.Some? ==> n.d.finishedEmitted)
    case Failed(n, _) => Ended(first, n)
  }

  lemma FinishedKeeps(first: SealView, s: Session)
    requires Ended(first, s)
    ensures Ended(first, EmitFinished(s)) && EmitFinished(s).d.state == s.d.state
    ensures Order(EmitFinished(s).t.history) == Order(s.t.history)
    ensures EmitFinished(s).d.command == s.d.command && (s.d.command.Some? ==> EmitFinished(s).d.finishedEmitted)
    ensures EmitFinished(s).t.highest == s.t.highest
  {
    if s.d.command.Some? && !s.d.finishedEmitted {
      FinishedTally(s.d, Output(s.t.history), Audit(s.t.history), Intake(s.t.history));
      BelowAppend(s.t.history, s.t.highest, Finished(EmitFinished(s).d.out.bytesSent, EmitFinished(s).d.bytesReceived));
    }
    hide Exchange, Seals, Order, Output, Audit, Intake, Sum, Below, Tally;
  }

  /** The acks still queued are counted before the record is written. */
  lemma FinishedTally(d: Driver, o: OutputView, a: AuditView, k: IntakeView)
    requires Tally(d, o, a, k) && AuditOk(d.command, d.finishedEmitted, a)
    ensures var c := d.inn.child;
            var r := d.(finishedEmitted := true, bytesReceived := SatAdd(d.bytesReceived, QueuedAcks(d.inn), U64_LIMIT),
                        inn := d.inn.(child := if c.Some? then Some(c.value.(acks := [])) else None));
            var e := Finished(r.out.bytesSent, r.bytesReceived);
            Tally(r, ObserveOutput(o, e), ObserveAudit(a, e), ObserveIntake(k, e))
  {
    AckedAdd(Acked(d.inn), QueuedAcks(d.inn));
    assert Sum([]) == 0;
    hide SatAdd, Sum;
  }

  lemma AwaitKeeps(first: SealView, s: Session, e: Event, host: Host)
    requires LoopInv(first, s) && !s.d.state.Closed? && Handed(s.d.inn)
    ensures Going(first, s, Await(s, e, host))
  {
    hide Inv, Ended, React, Enabled, Order, Settled;
    if Enabled(s, e) {
      ReactKeeps(first, s, e, host);
    }
  }

  lemma IterateKeeps(first: SealView, s: Session, e: Event, host: Host)
    requires LoopInv(first, s)
    ensures Going(first, s, Iterate(s, e, host))
  {
    hide Inv, Ended, Turn, Await, EmitFinished, Order;
    TurnKeeps(first, s, host);
    var a := Turn(s, host);
    assert Kept(first, a);
    assert a.Go? ==> Handed(a.st.d.inn) && Settled(a.st) && a.st.t.limits == s.t.limits
                     && Rank(s.d.state) <= Rank(a.st.d.state);
    hide Turned, Settled, Rank, Handed;
    if a.Go? {
      if !RekeyActive(a.st.t) && a.st.d.state.Closed? {
        ClosedWasSent(first, a.st);
        FinishedKeeps(first, a.st);
      } else {
        if RekeyActive(a.st.t) {
          NotClosed(first, a.st);
        }
        AwaitKeeps(first, a.st, e, host);
      }
    }
  }

  lemma ClosedWasSent(first: SealView, s: Session)
    requires Inv(first, s) && s.d.state.Closed?
    ensures Order(s.t.history).closeSent && Ended(first, s)
  {
    InvEnded(first, s);
  }

  lemma NotClosed(first: SealView, s: Session)
    requires Inv(first, s) && RekeyActive(s.t)
    ensures !s.d.state.Closed?
  {
  }

  // ---- every run ----

  /** The session as `drive` receives it from the authentication stage: any
      counters and keys, nothing said yet. */
  ghost predicate Fresh(first: SealView, s: Session) {
    && s.d == FRESH && s.t.history == [] && s.t.highest == 0 && s.t.phase.Idle?
    && first == SealView(true, s.t.tx.epoch, s.t.sealed)
    && InStep(s.t.tx, s.t.seqTx, s.t.sealed) && InStep(s.t.rx, s.t.seqRx, s.t.unsealed)
  }

  lemma FreshKeeps(first: SealView, s: Session)
    requires Fresh(first, s)
    ensures LoopInv(first, s)
  {
    FreshBody();
    hide Body, IntakeOk;
  }

  lemma FreshBody()
    ensures Body(FRESH, Phase.Idle, Order([]), Output([]), Audit([])) && IntakeOk(FRESH, Intake([]))
  {
    OpenedInflow();
    FreshInflow();
    hide Accounted, Conserved, Counted;
  }

  lemma FreshInflow()
    ensures Accounted(FRESH.inn, false, false) && Counted(FRESH.inn, 0)
  {
  }

  /** The invariant holds at every loop point of every run, the lifecycle only
      moves forward, and however the run ends no rule was broken. */
  lemma {:induction false} DriveKeeps(first: SealView, s: Session, events: seq<(Event, Host)>)
    requires LoopInv(first, s)
    ensures Going(first, s, Drive(s, events))
    decreases |events|
  {
    hide LoopInv, Ended, Order, Iterate, Rank;
    if events != [] {
      IterateKeeps(first, s, events[0].0, events[0].1);
      var st := Iterate(s, events[0].0, events[0].1);
      if st.Live? {
        DriveKeeps(first, st.s, events[1..]);
      }
    }
  }

  /** Dropping the driver closes the audit trail, on every path. */
  lemma RunIsClean(first: SealView, s: Session, events: seq<(Event, Host)>)
    requires Fresh(first, s)
    ensures Ended(first, Dropped(Drive(s, events)))
    ensures var h := Dropped(Drive(s, events)).t.history; Audit(h).started == Audit(h).finished
  {
    hide Inv, Fresh, Drive, Order, Output, Audit, Intake, LinkClean, EmitFinished, Tally;
    FreshKeeps(first, s);
    DriveKeeps(first, s, events);
    var st := Drive(s, events);
    if st.Live? {
      InvEnded(first, st.s);
    }
    FinishedKeeps(first, st.s);
    AuditSettled(Dropped(st));
  }

  lemma AuditSettled(s: Session)
    requires AuditOk(s.d.command, s.d.finishedEmitted, Audit(s.t.history))
             && (s.d.command.Some? ==> s.d.finishedEmitted)
    ensures Audit(s.t.history).started == Audit(s.t.history).finished
  {
    AuditCounts(s.t.history);
  }
}
