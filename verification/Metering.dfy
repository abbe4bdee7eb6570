/** When the server starts a re-key (`rekey_due` of `transport.rs`, phase (D) of
`drive` in `channel.rs`), read off the history: what was sent, read and waited
since the last exchange. */
module Metering {
  import opened Wire
  import opened Trace
  import opened Transport
  import opened Channel
  import opened LinkProofs
  import opened ChannelProofs
  import opened StdinOrder
  import opened StdinProofs
  import opened SessionProofs
  import opened LinkSteps

  /** Since the last exchange: the payload bytes sent, a DISCONNECT apart, and
      read, and the packets read. `now` is when the last packet came, `last` when
      the last exchange ended. */
  datatype MeterView = MeterView(sent: nat, read: nat, packets: nat, now: nat, last: nat)

  function ObserveMeter(v: MeterView, e: Entry): MeterView {
    match e
    case Sent(f, _) => if f.Disconnect? then v else v.(sent := v.sent + |Payload(f)|)
    case Read(size, at) => v.(read := v.read + size, packets := v.packets + 1, now := at)
    case RekeyCompleted => MeterView(0, 0, 0, v.now, v.now)
    case _ => v
  }

  function Meter(first: MeterView, h: History): MeterView {
    if h == [] then first else ObserveMeter(Meter(first, h[..|h| - 1]), h[|h| - 1])
  }

  lemma MeterAppend(first: MeterView, h: History, e: Entry)
    ensures Meter(first, Append(h, e)) == ObserveMeter(Meter(first, h), e)
  {
    assert (h + [e])[..|h|] == h;
  }

  /** What a session starts with. */
  function StartOf(t: Link): MeterView { MeterView(t.bytesTx, t.bytesRx, t.unsealed, 0, t.lastKex) }

  // ---- the counters are those of the history ----

  predicate Agree(t: Link, v: MeterView) {
    && t.bytesTx >= SatAdd(0, v.sent, U64_LIMIT) && (t.ioLeft > 0 ==> t.bytesTx == SatAdd(0, v.sent, U64_LIMIT))
    && t.bytesRx == SatAdd(0, v.read, U64_LIMIT) && t.unsealed == v.packets && t.lastKex == v.last
  }

  /** The link's counters are what its history adds up to; a write that failed
      was counted before it was tried. */
  ghost function Metered(first: MeterView): Link -> bool { (t: Link) => Agree(t, Meter(first, t.history)) }

  lemma SealMeters(first: MeterView, t: Link, f: Frame)
    ensures f.Disconnect? && Metered(first)(t) ==> Metered(first)(Seal(t, f).st)
    ensures !f.Disconnect? && Metered(first)(t) ==> Metered(first)(Write(t, f).st)
  {
    hide Meter, Payload, Append, Order, Max, Wrap32, Advance;
    MeterAppend(first, t.history, Sent(f, Stamp(t.tx, t.sealed, t.seqTx)));
  }

  lemma LogMeters(first: MeterView, t: Link, e: Entry)
    requires Metered(first)(t) && Noted(e)
    ensures Metered(first)(Log(t, e))
  {
    hide Meter, SatAdd, Payload, Append;
    MeterAppend(first, t.history, e);
  }

  lemma BeginMeters(first: MeterView, t: Link, env: Env)
    requires Metered(first)(t)
    ensures Metered(first)(BeginRekey(t, env).st)
  {
    hide Meter, SatAdd, Payload, Write;
    if env.kexInit.Some? {
      SealMeters(first, t, KexInit(env.kexInit.value));
    }
  }

  lemma MeteredIsSteady(first: MeterView)
    ensures Steady(Metered(first))
  {
    hide Agree, Write, Seal, Log, BeginRekey, Meter;
    var P := Metered(first);
    forall t, f | P(t) && !KexFrame(f) ensures P(Write(t, f).st) {
      SealMeters(first, t, f);
    }
    forall t, f: Frame | P(t) && f.Disconnect? ensures P(Seal(t, f).st) {
      SealMeters(first, t, f);
    }
    forall t, e | P(t) && Noted(e) ensures P(Log(t, e)) {
      LogMeters(first, t, e);
    }
    forall t, env | P(t) && t.phase.Idle? ensures P(BeginRekey(t, env).st) {
      BeginMeters(first, t, env);
    }
  }

  lemma TallyMeters(first: MeterView, t: Link, payload: Bytes, now: nat)
    requires Metered(first)(t)
    ensures var r := Tallied(t, payload, now); Metered(first)(r) && Meter(first, r.history).now == now
    ensures Tallied(t, payload, now).phase == t.phase
  {
    hide Meter, Payload, Append, Wrap32, Advance;
    MeterAppend(first, t.history, Read(|payload|, now));
  }

  lemma RejectMeters(first: MeterView, t: Link, code: U32, reason: string)
    requires Metered(first)(t) && |reason| < 64
    ensures Metered(first)(Reject(t, code, reason).st)
  {
    hide Agree, Seal, Meter, Ascii;
    SealMeters(first, t, Disconnect(code, Ascii(reason)));
  }

  lemma NegotiateMeters(first: MeterView, t: Link, clientInit: Bytes, serverInit: Bytes, env: Env)
    requires Metered(first)(t)
    ensures Metered(first)(Negotiate(t, clientInit, serverInit, env).link)
  {
    hide Reject, Meter, SatAdd, Short;
    RejectMeters(first, t, DISCONNECT_PROTOCOL_ERROR, "malformed-rekey-kexinit");
    if env.negotiation.Refused? {
      RejectMeters(first, t, DISCONNECT_KEY_EXCHANGE_FAILED, Short(env.negotiation.reason));
    }
  }

  lemma ReplyMeters(first: MeterView, t: Link, payload: Bytes, clientInit: Bytes, serverInit: Bytes, env: Env)
    requires Metered(first)(t)
    ensures Metered(first)(CompleteReply(t, payload, clientInit, serverInit, env).link)
  {
    hide Reject, Write, Meter, SatAdd, Short, HybridInitOf;
    RejectMeters(first, t, DISCONNECT_PROTOCOL_ERROR, "malformed-hybrid-init");
    RejectMeters(first, t, DISCONNECT_KEY_EXCHANGE_FAILED, "rng-failure");
    if env.hybrid.HybridRefused? {
      RejectMeters(first, t, DISCONNECT_KEY_EXCHANGE_FAILED, Short(env.hybrid.reason));
    } else if env.hybrid.HybridDone? && env.hybrid.signature.Some? {
      var f := HybridReply(env.hostKey, env.hybrid.reply, env.hybrid.signature.value);
      SealMeters(first, t, f);
      SealMeters(first, Write(t, f).st, NewKeys);
    }
  }

  /** The end of an exchange starts the counts anew. */
  lemma CompletionMeters(first: MeterView, t: Link, newRx: Cipher, now: nat)
    requires Metered(first)(t) && Meter(first, t.history).now == now
    ensures Metered(first)(Log(t, RekeyCompleted).(rx := newRx, seqRx := 0, unsealed := 0, bytesRx := 0, bytesTx := 0,
                                                   lastKex := now))
  {
    hide Meter, Payload, Append;
    MeterAppend(first, t.history, RekeyCompleted);
  }

  lemma StepMeters(first: MeterView, t: Link, payload: Bytes, env: Env)
    requires Metered(first)(t) && Meter(first, t.history).now == env.now
    ensures Metered(first)(StepRekey(t, payload, env).link)
  {
    hide Reject, Write, Negotiate, CompleteReply, Meter, SatAdd, Log;
    var t0 := t.(phase := Phase.Idle);
    RejectMeters(first, t0, DISCONNECT_PROTOCOL_ERROR, "unexpected-during-rekey");
    RejectMeters(first, t0, DISCONNECT_PROTOCOL_ERROR, "expected-newkeys");
    match t.phase
    case Idle =>
      if env.kexInit.Some? {
        var t1 := t0.(started := env.now);
        SealMeters(first, t1, KexInit(env.kexInit.value));
        NegotiateMeters(first, Write(t1, KexInit(env.kexInit.value)).st, payload, env.kexInit.value, env);
      }
    case SentKexInit(serverInit) => NegotiateMeters(first, t0, payload, serverInit, env);
    case AwaitHybridInit(clientInit, serverInit, _) => ReplyMeters(first, t0, payload, clientInit, serverInit, env);
    case AwaitNewKeys(newRx) => CompletionMeters(first, t0, newRx, env.now);
  }

  lemma MeteredIsRobust(first: MeterView)
    ensures Robust(Metered(first))
  {
    hide Steady, Agree, StepRekey, Tallied, Meter;
    MeteredIsSteady(first);
    var P := Metered(first);
    forall t, payload, now | P(t) ensures P(Tallied(t, payload, now)) {
      TallyMeters(first, t, payload, now);
    }
    forall t, payload, env: Env | P(t) ensures P(StepRekey(Tallied(t, payload, env.now), payload, env).link) {
      TallyMeters(first, t, payload, env.now);
      StepMeters(first, Tallied(t, payload, env.now), payload, env);
    }
  }

  // ---- one turn ----

  /** The turn up to phase (D), outside a re-key. */
  function BeforeRekey(s: Session): Step<Session> {
    var s :- FlushOutput(s);
    Replenish(HandOver(s))
  }

  lemma TurnStages(s: Session, host: Host)
    requires !RekeyActive(s.t)
    ensures var r, b := Turn(s, host), BeforeRekey(s);
            if b.Stop? then r == b
            else var c := StartRekey(b.st, host); if c.Stop? then r == c else r == CloseSequence(c.st)
  {
    hide FlushOutput, HandOver, Replenish, StartRekey, CloseSequence;
  }

  lemma BeforeRekeyKeeps(first: SealView, s: Session)
    requires LoopInv(first, s) && s.t.phase.Idle?
    ensures var b := BeforeRekey(s);
            b.Go? ==>
              && Inv(first, b.st) && b.st.t.phase.Idle? && b.st.t.limits == s.t.limits && b.st.d.state == s.d.state
              && !CanFlush(b.st.d) && b.st.d.inn.credit < CREDIT_BATCH
  {
    hide Inv, FlushOutput, HandOver, Replenish, Handed, CanFlush, Settled;
    FlushKeeps(first, s);
    var a := FlushOutput(s);
    if a.Go? {
      HandOverKeeps(first, a.st);
      ReplenishKeeps(first, HandOver(a.st));
      var b := Replenish(HandOver(a.st));
      if b.Go? {
        FlushStands(a.st.d, b.st.d);
      }
    }
  }

  lemma FlushStands(d: Driver, r: Driver)
    requires !CanFlush(d) && r.out == d.out && r.state == d.state
    ensures !CanFlush(r)
  {
  }

  lemma BeforeRekeyHolds(P: Link -> bool, s: Session)
    requires Holds(P, s)
    ensures Holds(P, BeforeRekey(s).st)
  {
    hide Holds, FlushOutput, HandOver, Replenish;
    FlushHolds(P, s);
    var a := FlushOutput(s);
    if a.Go? {
      HandOverLink(a.st);
      SameLink(P, a.st, HandOver(a.st));
      ReplenishHolds(P, HandOver(a.st));
    }
  }

  lemma HandOverLink(s: Session)
    ensures HandOver(s).t == s.t
  {
    hide Handoff;
  }

  // ---- the trigger ----

  /** One of the five quantities has reached its limit. Packet numbers are
      compared as they are sent, modulo 2^32. */
  predicate AtLimit(limits: Thresholds, v: MeterView, packetsSent: nat, now: nat) {
    || v.sent >= limits.maxBytes || v.read >= limits.maxBytes
    || packetsSent % 0x1_0000_0000 >= limits.maxPackets || v.packets % 0x1_0000_0000 >= limits.maxPackets
    || limits.maxInterval == 0 || now >= v.last + limits.maxInterval
  }

  /** The channel is open and the server has not closed it. */
  predicate InService(v: OrderView) { v.peer.Some? && !v.closeSent }

  lemma DueExactly(first: SealView, t: Link, start: MeterView, now: nat)
    requires LinkOk(first, t) && t.phase.Idle? && Metered(start)(t)
    ensures var limit := AtLimit(t.limits, Meter(start, t.history), Seals(first, t.history).count, now);
            (!RekeyDue(t, now) ==> !limit) && (RekeyDue(t, now) && t.ioLeft > 0 ==> limit)
  {
    hide Meter, Seals, Exchange, Below;
  }

  lemma ServiceExactly(first: SealView, s: Session)
    requires Inv(first, s)
    ensures InService(Order(s.t.history)) <==> MayRekey(s.d.state)
    ensures Exchange(s.t.history).kex == 0 <==> s.t.phase.Idle?
  {
    InvParts(first, s);
    hide InStep, Seals, Order, Below, BodyOf, IntakeOk, WindowOk, Accounted;
  }

  /** What a KEXINIT the server starts leaves: itself as the last entry. */
  lemma BeginSays(t: Link, env: Env)
    requires BeginRekey(t, env).Go?
    ensures t.ioLeft > 0 && var h := BeginRekey(t, env).st.history;
            h != [] && h[..|h| - 1] == t.history && h[|h| - 1].Sent? && h[|h| - 1].frame.KexInit?
    ensures BeginRekey(t, env).st.phase.SentKexInit?
  {
    hide Payload, SatAdd, Order, Max, Wrap32, Advance;
  }

  /** Where the exchange and the sealing counts of a turn are read. */
  ghost predicate TurnRekeys(first: SealView, start: MeterView, limits: Thresholds, now: nat, before: History,
                             after: History)
  {
    if Exchange(after).kex == 0 then
      InService(Order(after)) ==> !AtLimit(limits, Meter(start, after), Seals(first, after).count, now)
    else
      && after != [] && after[|after| - 1].Sent? && after[|after| - 1].frame.KexInit?
      && var h := after[..|after| - 1];
         && before <= h && InService(Order(h))
         && AtLimit(limits, Meter(start, h), Seals(first, h).count, now)
  }

  lemma StartMeters(first: SealView, before: History, b: Session, start: MeterView, host: Host)
    requires Inv(first, b) && b.t.phase.Idle? && Metered(start)(b.t) && before <= b.t.history
    requires StartRekey(b, host).Go?
    ensures var c, h := StartRekey(b, host).st, b.t.history;
            var limit := AtLimit(b.t.limits, Meter(start, h), Seals(first, h).count, host.env.now);
            if c.t.phase.Idle? then c == b && (MayRekey(b.d.state) ==> !limit)
            else
              && limit && MayRekey(b.d.state) && c.t.history != [] && c.t.history[..|c.t.history| - 1] == h
              && c.t.history[|c.t.history| - 1].Sent? && c.t.history[|c.t.history| - 1].frame.KexInit?
  {
    hide LinkOk, RekeyDue, BeginRekey, Metered, Meter, Seals, AtLimit, BodyOf, IntakeOk, Exchange, Intake;
    DueExactly(first, b.t, start, host.env.now);
    if RekeyDue(b.t, host.env.now) && MayRekey(b.d.state) {
      BeginSays(b.t, host.env);
    }
  }

  lemma TurnMeters(first: SealView, s: Session, start: MeterView, host: Host)
    requires LoopInv(first, s) && s.t.phase.Idle? && Metered(start)(s.t)
    requires Turn(s, host).Go?
    ensures TurnRekeys(first, start, s.t.limits, host.env.now, s.t.history, Turn(s, host).st.t.history)
  {
    MeteredIsSteady(start);
    ExtendingIsSteady(s.t.history);
    hide Inv, Turn, BeforeRekey, StartRekey, CloseSequence, Steady, Agree, Meter, Seals, Order, Exchange, AtLimit;
    hide InService, Ended;
    TurnStages(s, host);
    BeforeRekeyKeeps(first, s);
    BeforeRekeyHolds(Metered(start), s);
    BeforeRekeyHolds(Extending(s.t.history), s);
    var b := BeforeRekey(s).st;
    StartMeters(first, s.t.history, b, start, host);
    StartRekeyKeeps(first, b, host);
    var c := StartRekey(b, host).st;
    CloseSequenceKeeps(first, c);
    var r := CloseSequence(c).st;
    ServiceExactly(first, b);
    ServiceExactly(first, r);
  }

  /** In every run, a turn that goes on outside a re-key starts one exactly when a
      limit is reached in the history so far and the channel is in service: the
      KEXINIT is then the last thing it says, and otherwise every one of the five
      quantities is below its limit. */
  lemma RekeysWhenDue(first: SealView, s: Session, events: seq<(Event, Host)>, host: Host)
    requires Fresh(first, s) && Drive(s, events).Live?
    requires var n := Drive(s, events).s; Exchange(n.t.history).kex == 0 && Turn(n, host).Go?
    ensures var n := Drive(s, events).s;
            TurnRekeys(first, StartOf(s.t), s.t.limits, host.env.now, n.t.history, Turn(n, host).st.t.history)
  {
    hide Fresh, LoopInv, Drive, Turn, Robust, Holds, Agree, Meter, Exchange, TurnRekeys, Order;
    StartMetered(first, s);
    MeteredIsRobust(StartOf(s.t));
    FreshKeeps(first, s);
    var n := Drive(s, events).s;
    DriveKeeps(first, s, events);
    DriveHolds(Metered(StartOf(s.t)), s, events);
    HoldsParts(Metered(StartOf(s.t)), n);
    LoopService(first, n);
    TurnMeters(first, n, StartOf(s.t), host);
  }

  lemma LoopService(first: SealView, s: Session)
    requires LoopInv(first, s)
    ensures InService(Order(s.t.history)) <==> MayRekey(s.d.state)
    ensures Exchange(s.t.history).kex == 0 <==> s.t.phase.Idle?
  {
    hide Inv, InService, Exchange, Order;
    ServiceExactly(first, s);
  }

  lemma StartMetered(first: SealView, s: Session)
    requires Fresh(first, s)
    ensures Metered(StartOf(s.t))(s.t)
  {
  }
}
