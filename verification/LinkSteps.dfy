/** What every action of the channel driver does to its link (`channel.rs` over
`transport.rs`): it notes events and writes ordinary packets, so whatever those
leave true of a link, every handler and every turn leaves true. */
module LinkSteps {
  import opened Wire
  import opened Trace
  import opened Transport
  import opened Channel
  import opened ChannelProofs

  /** What a handler notes: neither a packet nor the end of an exchange. */
  predicate Noted(e: Entry) { !e.Sent? && !e.Read? && !e.RekeyCompleted? }

  /** Notes, ordinary packets, a DISCONNECT and a re-key begun leave `P` true. */
  ghost predicate Steady(P: Link -> bool) {
    && (forall t, f :: P(t) && !KexFrame(f) ==> P(Write(t, f).st))
    && (forall t, f: Frame :: P(t) && f.Disconnect? ==> P(Seal(t, f).st))
    && (forall t, e :: P(t) && Noted(e) ==> P(Log(t, e)))
    && (forall t, env :: P(t) && t.phase.Idle? ==> P(BeginRekey(t, env).st))
  }

  ghost predicate Holds(P: Link -> bool, s: Session) { Steady(P) && P(s.t) }

  /** The action leaves it true, in the same phase. */
  ghost predicate Stays(P: Link -> bool, s: Session, r: Step<Session>) {
    Holds(P, r.st) && r.st.t.phase == s.t.phase
  }

  lemma WriteHolds(P: Link -> bool, t: Link, f: Frame)
    requires Steady(P) && P(t) && !KexFrame(f)
    ensures P(Write(t, f).st) && Write(t, f).st.phase == t.phase
  {
    SealPhase(t.(bytesTx := SatAdd(t.bytesTx, |Payload(f)|, U64_LIMIT)), f);
    hide Seal, Payload, SatAdd, U64_LIMIT;
  }

  lemma SealPhase(t: Link, f: Frame)
    ensures Seal(t, f).st.phase == t.phase
  {
    hide Append, Order;
  }

  // ---- the driver's own actions ----

  lemma SendHolds(P: Link -> bool, s: Session, f: Frame)
    requires Holds(P, s) && !KexFrame(f)
    ensures Stays(P, s, Send(s, f))
  {
    hide Steady, Write;
    WriteHolds(P, s.t, f);
  }

  lemma NoteHolds(P: Link -> bool, s: Session, d: Driver, e: Entry)
    requires Holds(P, s) && Noted(e)
    ensures Stays(P, s, Go(Note(s.(d := d), e))) && Note(s.(d := d), e).d == d
  {
    hide Append;
  }

  lemma FailHolds(P: Link -> bool, s: Session, d: Driver, reason: string)
    requires Holds(P, s) && |reason| < 64
    ensures Stays(P, s, Fail(s.(d := d), reason))
  {
    hide Seal, Ascii;
    SealPhase(s.t, Disconnect(DISCONNECT_PROTOCOL_ERROR, Ascii(reason)));
  }

  lemma {:induction false} FlushHolds(P: Link -> bool, s: Session)
    requires Holds(P, s)
    ensures Stays(P, s, FlushOutput(s))
    decreases PendingLen(s.d.out)
  {
    hide Holds, Send, FlushFrame;
    if CanFlush(s.d) {
      SendHolds(P, s, Frame.Channel(s.d.out.peerChan, FlushFrame(s.d.out)));
      var r := SendMsg(s, FlushFrame(s.d.out));
      if r.Go? {
        var n := r.st.(d := s.d.(out := Flushed(s.d.out)));
        SameLink(P, r.st, n);
        FlushHolds(P, n);
      }
    }
  }

  /** Changes to the driver alone. */
  lemma SameLink(P: Link -> bool, s: Session, n: Session)
    requires Holds(P, s) && n.t == s.t
    ensures Holds(P, n)
  {
  }

  lemma ReplenishHolds(P: Link -> bool, s: Session)
    requires Holds(P, s)
    ensures Stays(P, s, Replenish(s))
  {
    hide Holds, Send, Credited;
    SendHolds(P, s, Frame.Channel(s.d.out.peerChan, WindowAdjust(s.d.inn.credit)));
    var sent := SendMsg(s, WindowAdjust(s.d.inn.credit));
    SameLink(P, sent.st, sent.st.(d := s.d.(inn := Credited(s.d.inn))));
  }

  lemma ReportHolds(P: Link -> bool, s: Session)
    requires Holds(P, s)
    ensures Stays(P, s, SendReport(s))
  {
    hide Holds, Send;
    if s.d.exitSignal.Some? {
      SendHolds(P, s, Frame.Channel(s.d.out.peerChan, ExitSignal(s.d.exitSignal.value.0, s.d.exitSignal.value.1)));
    } else if s.d.exitStatus.Some? {
      SendHolds(P, s, Frame.Channel(s.d.out.peerChan, ExitStatus(s.d.exitStatus.value)));
    }
  }

  lemma EofCloseHolds(P: Link -> bool, s: Session)
    requires Holds(P, s)
    ensures Stays(P, s, SendEofClose(s))
  {
    hide Holds, Send;
    SendHolds(P, s, Frame.Channel(s.d.out.peerChan, Eof));
    var r := SendMsg(s, Eof);
    if r.Go? {
      SendHolds(P, r.st, Frame.Channel(r.st.d.out.peerChan, Close));
    }
  }

  lemma TerminalHolds(P: Link -> bool, s: Session)
    requires Holds(P, s)
    ensures Stays(P, s, SendTerminal(s))
  {
    hide Holds, Send, SendReport, SendEofClose;
    if s.d.earlyClose {
      SendHolds(P, s, Frame.Channel(s.d.out.peerChan, Close));
      var r := SendMsg(s, Close);
      SameLink(P, r.st, r.st.(d := r.st.d.(state := Closed)));
    } else {
      ReportHolds(P, s);
      var r := SendReport(s);
      if r.Go? {
        EofCloseHolds(P, r.st);
        var c := SendEofClose(r.st);
        SameLink(P, c.st, c.st.(d := c.st.d.(state := ServerClosed)));
      }
    }
  }

  lemma RekeyHolds(P: Link -> bool, s: Session, host: Host)
    requires Holds(P, s) && s.t.phase.Idle?
    ensures Holds(P, StartRekey(s, host).st)
  {
    hide BeginRekey, RekeyDue;
  }

  lemma ConcludeHolds(P: Link -> bool, s: Session, host: Host)
    requires Holds(P, s) && s.t.phase.Idle?
    ensures Holds(P, Conclude(s, host).st)
  {
    hide Holds, Replenish, StartRekey, SendTerminal;
    ReplenishHolds(P, s);
    var b := Replenish(s);
    if b.Go? {
      RekeyHolds(P, b.st, host);
      var c := StartRekey(b.st, host);
      if c.Go? {
        TerminalHolds(P, c.st);
      }
    }
  }

  lemma TurnHolds(P: Link -> bool, s: Session, host: Host)
    requires Holds(P, s)
    ensures Holds(P, Turn(s, host).st)
  {
    hide Holds, FlushOutput, Handoff, Conclude;
    if RekeyActive(s.t) {
      SameLink(P, s, HandOver(s));
    } else {
      FlushHolds(P, s);
      var a := FlushOutput(s);
      if a.Go? {
        SameLink(P, a.st, HandOver(a.st));
        ConcludeHolds(P, HandOver(a.st), host);
      }
    }
  }

  // ---- inbound messages ----

  lemma ReplyHolds(P: Link -> bool, s: Session, wantReply: bool, success: bool)
    requires Holds(P, s)
    ensures Stays(P, s, Reply(s, wantReply, success))
  {
    hide Holds, Send;
    SendHolds(P, s, Frame.Channel(s.d.out.peerChan, if success then Success else Failure));
  }

  lemma OpenHolds(P: Link -> bool, s: Session, m: Inbound)
    requires Holds(P, s) && m.Open?
    ensures Stays(P, s, OnOpen(s, m))
  {
    hide Holds, Send, Note, Fail, Ascii, Accepted;
    SendHolds(P, s, OpenFailure(m.sender, 1, Ascii("one channel only")));
    SendHolds(P, s, OpenFailure(m.sender, 3, Ascii("unknown channel type")));
    FailHolds(P, s, s.d, "zero-max-packet-size");
    var e := Entry.Opened(m.sender, m.window, m.maxPacket);
    NoteHolds(P, s, Accepted(s.d, m), e);
    var n := Note(s.(d := Accepted(s.d, m)), e);
    SendHolds(P, n, Frame.Channel(n.d.out.peerChan, OpenConfirmation));
  }

  lemma StartHolds(P: Link -> bool, s: Session, command: Bytes, wantReply: bool, host: Host)
    requires Holds(P, s)
    ensures Stays(P, s, Start(s, command, wantReply, host))
  {
    hide Holds, Note, Reply, Commanded, Spawned;
    NoteHolds(P, s, Commanded(s.d, command), Started(command));
    var n := Note(s.(d := Commanded(s.d, command)), Started(command));
    ReplyHolds(P, n, wantReply, true);
    var r := Reply(n, wantReply, true);
    if r.Go? {
      var m := r.st.(d := Spawned(r.st.d, host.spawns));
      SameLink(P, r.st, m);
      var e := ChildExit(EXIT_SPAWN_FAILED, None);
      NoteHolds(P, m, m.d, e);
      NoteHolds(P, Note(m, e), m.d, OutputEnded);
    }
  }

  lemma PtyHolds(P: Link -> bool, s: Session, rest: Bytes, wantReply: bool, host: Host)
    requires Holds(P, s)
    ensures Stays(P, s, OnPtyReq(s, rest, wantReply, host))
  {
    hide Holds, Fail, Reply, GetString, Take;
    FailHolds(P, s, s.d, "malformed-pty-req");
    FailHolds(P, s, s.d, "truncated-terminal-mode");
    var n := s.(d := s.d.(pty := true));
    SameLink(P, s, n);
    ReplyHolds(P, n, wantReply, true);
    ReplyHolds(P, s, wantReply, false);
  }

  lemma ExecHolds(P: Link -> bool, s: Session, rest: Bytes, wantReply: bool, host: Host)
    requires Holds(P, s)
    ensures Stays(P, s, OnExec(s, rest, wantReply, host))
  {
    hide Stays, Holds, Fail, Start, GetString;
    FailHolds(P, s, s.d, "malformed-exec-request");
    FailHolds(P, s, s.d, "non-utf8-command");
    var cmd := GetString(rest, MAX_DATA);
    if cmd.Ok? {
      StartHolds(P, s, cmd.value.value, wantReply, host);
    }
  }

  lemma SubsystemHolds(P: Link -> bool, s: Session, rest: Bytes, wantReply: bool, host: Host)
    requires Holds(P, s)
    ensures Stays(P, s, OnSubsystem(s, rest, wantReply, host))
    ensures Stays(P, s, OnWindowChange(s, rest, wantReply, host))
  {
    hide Stays, Holds, Fail, Reply, Start, GetString, Ascii;
    FailHolds(P, s, s.d, "malformed-subsystem");
    StartHolds(P, s, Ascii("sftp"), wantReply, host);
    FailHolds(P, s, s.d, "malformed-window-change");
    ReplyHolds(P, s, wantReply, true);
    ReplyHolds(P, s, wantReply, false);
  }

  lemma RequestHolds(P: Link -> bool, s: Session, m: Inbound, host: Host)
    requires Holds(P, s) && m.Request?
    ensures Stays(P, s, OnRequest(s, m, host))
  {
    hide Stays, Holds, Fail, Reply, Start, OnExec, OnSubsystem, OnPtyReq, OnWindowChange, Ascii;
    FailHolds(P, s, s.d, "unknown-channel");
    ExecHolds(P, s, m.rest, m.wantReply, host);
    StartHolds(P, s, [], m.wantReply, host);
    SubsystemHolds(P, s, m.rest, m.wantReply, host);
    PtyHolds(P, s, m.rest, m.wantReply, host);
    ReplyHolds(P, s, m.wantReply, false);
  }

  /** Messages that make the server send nothing but a DISCONNECT. */
  lemma ReceptiveHolds(P: Link -> bool, s: Session, m: Inbound, host: Host)
    requires Holds(P, s) && Receptive(m) && (m.Malformed? ==> |m.reason| < 64)
    ensures Stays(P, s, Handle(s, m, host))
  {
    hide Holds, Fail, Note, Accept;
    FailHolds(P, s, s.d, "channel-message-before-open");
    FailHolds(P, s, s.d, "unknown-channel");
    match m
    case Malformed(_, reason) => FailHolds(P, s, s.d, reason);
    case Stdin(_, data) =>
      FailHolds(P, s, s.d, "data-after-eof");
      FailHolds(P, s, s.d, "inbound-window-exceeded");
      if |data| <= s.d.inn.window {
        NoteHolds(P, s, s.d.(inn := Accept(s.d.inn, s.d.state.Idle?, data)), Took(data));
      }
    case Adjust(_, add) =>
      FailHolds(P, s, Widened(s.d, add), "window-overflow");
      NoteHolds(P, s, Widened(s.d, add), Adjusted(add));
    case PeerEof(_) => NoteHolds(P, s, s.d.(inn := s.d.inn.(clientEof := true)), ClientEof);
  }

  lemma HandleHolds(P: Link -> bool, s: Session, m: Inbound, host: Host)
    requires Holds(P, s) && (m.Malformed? ==> |m.reason| < 64)
    ensures Stays(P, s, Handle(s, m, host))
  {
    hide Holds, Fail, Note, Send, OnOpen, OnRequest, OnData, OnAdjust, OnEof, Abandoned;
    if Receptive(m) {
      ReceptiveHolds(P, s, m, host);
    } else {
      FailHolds(P, s, s.d, "channel-message-before-open");
      match m
      case Open(_, _, _, _) => OpenHolds(P, s, m);
      case Request(_, _, _, _) => RequestHolds(P, s, m, host);
      case PeerClose(_) =>
        FailHolds(P, s, s.d, "unknown-channel");
        SameLink(P, s, s.(d := s.d.(state := Closed)));
        NoteHolds(P, s, Abandoned(s.d), ClientClosed);
      case GlobalRequest(_) => SendHolds(P, s, RequestFailure);
      case Tolerated =>
      case PeerDisconnect =>
    }
  }

  lemma PassHolds(P: Link -> bool, s: Session, payload: Bytes, host: Host)
    requires Holds(P, s)
    ensures Stays(P, s, Pass(s, payload, host))
  {
    hide Holds, Fail, Note, Handle, Decode, InboundOnly;
    HandleHolds(P, s, Decode(payload), host);
    FailHolds(P, s, s.d, "too-many-deferred-during-rekey");
    NoteHolds(P, s, s.d.(deferred := s.d.deferred + [payload]), Deferred(payload));
  }

  lemma {:induction false} DrainHolds(P: Link -> bool, s: Session, host: Host)
    requires Holds(P, s)
    ensures Stays(P, s, DrainDeferred(s, host))
    decreases |s.d.deferred|
  {
    hide Holds, Note, Handle, Decode;
    if s.d.deferred != [] {
      var p, rest := s.d.deferred[0], s.d.deferred[1..];
      NoteHolds(P, s, s.d.(deferred := rest), Undeferred(p));
      var n := Note(s.(d := s.d.(deferred := rest)), Undeferred(p));
      HandleHolds(P, n, Decode(p), host);
      var r := HandleInbound(n, p, host);
      if r.Go? {
        var m := r.st.(d := r.st.d.(deferred := rest));
        SameLink(P, r.st, m);
        DrainHolds(P, m, host);
      }
    }
  }

  lemma ChunkHolds(P: Link -> bool, s: Session, kind: Stream, data: Str)
    requires Holds(P, s)
    ensures Holds(P, OnChunk(s, kind, data))
  {
    hide Steady, Log;
    NoteHolds(P, s, s.d, ChildOutput(kind, data));
  }

  lemma FinishedHolds(P: Link -> bool, s: Session)
    requires Holds(P, s)
    ensures Holds(P, EmitFinished(s))
  {
    hide Holds, Log, Sum, SatAdd;
    if s.d.command.Some? && !s.d.finishedEmitted {
      var d := EmitFinished(s).d;
      NoteHolds(P, s, d, Finished(d.out.bytesSent, d.bytesReceived));
    }
  }

  /** Events that are neither a packet nor the end. */
  lemma OtherHolds(P: Link -> bool, s: Session, e: Event, host: Host)
    requires Holds(P, s) && Enabled(s, e) && !e.Packet? && !e.DeadlinePasses? && !e.ReadFails?
    ensures Holds(P, React(s, e, host).st)
  {
    hide Holds, OnPacket, OnChunk, Note, OnExited, AckTaken, PumpTook, PumpWrote, PumpEnded;
    if e.Chunk? {
      ChunkHolds(P, s, e.kind, e.data);
    } else if e.Exited? {
      NoteHolds(P, s, OnExited(s.d, e.code, e.signal), ChildExit(e.code, e.signal));
    } else if e.PumpWrites? {
      NoteHolds(P, s, s.d.(inn := PumpWrote(s.d.inn, e.n)), Delivered(s.d.inn.child.value.inflight[..e.n]));
    } else if e.OutputEnds? {
      var d := SetChild(s.d, s.d.inn.child.value.(outputEnded := true)).(childOutClosed := true);
      NoteHolds(P, s, d, OutputEnded);
    } else {
      SameLink(P, s, React(s, e, host).st);
    }
  }

  // ---- every run ----

  /** Besides, a packet read and a step of the re-key machine leave `P` true. */
  ghost predicate Robust(P: Link -> bool) {
    && Steady(P)
    && (forall t, payload, now :: P(t) ==> P(Tallied(t, payload, now)))
    && (forall t, payload, env: Env :: P(t) ==> P(StepRekey(Tallied(t, payload, env.now), payload, env).link))
  }

  lemma RekeyPacketHolds(P: Link -> bool, s: Session, payload: Bytes, host: Host)
    requires Steady(P) && P(StepRekey(s.t, payload, host.env).link)
    ensures Holds(P, RekeyPacket(s, payload, host).st)
  {
    hide Steady, StepRekey, Pass, DrainDeferred;
    var n := s.(t := StepRekey(s.t, payload, host.env).link);
    PassHolds(P, n, payload, host);
    DrainHolds(P, n, host);
  }

  lemma PacketHolds(P: Link -> bool, s: Session, payload: Bytes, host: Host)
    requires Robust(P) && P(s.t)
    ensures Holds(P, OnPacket(s, payload, host).st)
  {
    var r := Taken(s, payload, host.env.now);
    assert P(r.t) && P(StepRekey(r.t, payload, host.env).link);
    hide Robust, Steady, RekeyPacket, Handle, Decode, Taken, Tallied, StepRekey;
    RekeyPacketHolds(P, r, payload, host);
    HandleHolds(P, r, Decode(payload), host);
  }

  lemma TimeoutHolds(P: Link -> bool, s: Session)
    requires Holds(P, s)
    ensures Holds(P, s.(t := RekeyTimeout(s.t).st))
  {
    hide Seal, Ascii;
  }

  lemma ReactHolds(P: Link -> bool, s: Session, e: Event, host: Host)
    requires Robust(P) && P(s.t) && Enabled(s, e)
    ensures Holds(P, React(s, e, host).st)
  {
    hide Robust, Holds, OnPacket, OnChunk, Note, OnExited, AckTaken, PumpTook, PumpWrote, PumpEnded, RekeyTimeout;
    hide Possible;
    RobustHolds(P, s);
    match e
    case Packet(payload) => PacketHolds(P, s, payload, host);
    case DeadlinePasses => TimeoutHolds(P, s);
    case ReadFails =>
    case _ => OtherHolds(P, s, e, host);
  }

  lemma RobustHolds(P: Link -> bool, s: Session)
    requires Robust(P) && P(s.t)
    ensures Holds(P, s)
  {
    hide Steady;
  }

  lemma HoldsParts(P: Link -> bool, s: Session)
    requires Holds(P, s)
    ensures P(s.t)
  {
  }

  lemma IterateHolds(P: Link -> bool, s: Session, e: Event, host: Host)
    requires Robust(P) && P(s.t)
    ensures Holds(P, Iterate(s, e, host).s)
  {
    hide Robust, Holds, Turn, React, Enabled, EmitFinished;
    RobustHolds(P, s);
    TurnHolds(P, s, host);
    var a := Turn(s, host);
    if a.Go? {
      FinishedHolds(P, a.st);
      if Enabled(a.st, e) {
        HoldsParts(P, a.st);
        ReactHolds(P, a.st, e, host);
      }
    }
  }

  /** What every step leaves true, every run and its drop leave true. */
  lemma {:induction false} DriveHolds(P: Link -> bool, s: Session, events: seq<(Event, Host)>)
    requires Robust(P) && P(s.t)
    ensures Holds(P, Drive(s, events).s) && Holds(P, Dropped(Drive(s, events)))
    decreases |events|
  {
    hide Robust, Holds, Iterate, EmitFinished;
    RobustHolds(P, s);
    if events == [] {
      FinishedHolds(P, s);
    } else {
      IterateHolds(P, s, events[0].0, events[0].1);
      var st := Iterate(s, events[0].0, events[0].1);
      FinishedHolds(P, st.s);
      if st.Live? {
        HoldsParts(P, st.s);
        DriveHolds(P, st.s, events[1..]);
      }
    }
  }

  // ---- the history only grows ----

  ghost function Extending(h: History): Link -> bool { (t: Link) => h <= t.history }

  lemma ExtendingIsSteady(h: History)
    ensures Steady(Extending(h))
  {
    hide Order, Payload, SatAdd;
  }

  lemma WriteExtends(t: Link, f: Frame)
    ensures t.history <= Seal(t, f).st.history && t.history <= Write(t, f).st.history
  {
    hide Order, Payload, SatAdd;
  }

  lemma ReplyExtends(t: Link, payload: Bytes, clientInit: Bytes, serverInit: Bytes, env: Env)
    ensures t.history <= CompleteReply(t, payload, clientInit, serverInit, env).link.history
  {
    hide Seal, Write, HybridInitOf, Ascii, Short;
    WriteExtends(t, Disconnect(DISCONNECT_PROTOCOL_ERROR, Ascii("malformed-hybrid-init")));
    if env.hybrid.HybridRefused? {
      WriteExtends(t, Disconnect(DISCONNECT_KEY_EXCHANGE_FAILED, Ascii(Short(env.hybrid.reason))));
    } else if env.hybrid.HybridDone? && env.hybrid.signature.None? {
      WriteExtends(t, Disconnect(DISCONNECT_KEY_EXCHANGE_FAILED, Ascii("rng-failure")));
    } else if env.hybrid.HybridDone? {
      var f := HybridReply(env.hostKey, env.hybrid.reply, env.hybrid.signature.value);
      WriteExtends(t, f);
      WriteExtends(Write(t, f).st, NewKeys);
    }
  }

  lemma NegotiateExtends(t: Link, clientInit: Bytes, serverInit: Bytes, env: Env)
    ensures t.history <= Negotiate(t, clientInit, serverInit, env).link.history
  {
    hide Seal, Ascii, Short;
    WriteExtends(t, Disconnect(DISCONNECT_PROTOCOL_ERROR, Ascii("malformed-rekey-kexinit")));
    if env.negotiation.Refused? {
      WriteExtends(t, Disconnect(DISCONNECT_KEY_EXCHANGE_FAILED, Ascii(Short(env.negotiation.reason))));
    }
  }

  lemma StepExtends(t: Link, payload: Bytes, env: Env)
    ensures t.history <= StepRekey(t, payload, env).link.history
  {
    hide Seal, Write, Negotiate, CompleteReply, Ascii;
    var t0 := t.(phase := Phase.Idle);
    WriteExtends(t0, Disconnect(DISCONNECT_PROTOCOL_ERROR, Ascii("unexpected-during-rekey")));
    WriteExtends(t0, Disconnect(DISCONNECT_PROTOCOL_ERROR, Ascii("expected-newkeys")));
    match t.phase
    case Idle =>
      if env.kexInit.Some? {
        var t1 := t0.(started := env.now);
        WriteExtends(t1, KexInit(env.kexInit.value));
        NegotiateExtends(Write(t1, KexInit(env.kexInit.value)).st, payload, env.kexInit.value, env);
      }
    case SentKexInit(serverInit) => NegotiateExtends(t0, payload, serverInit, env);
    case AwaitHybridInit(clientInit, serverInit, _) => ReplyExtends(t0, payload, clientInit, serverInit, env);
    case AwaitNewKeys(_) =>
  }

  lemma TallyExtends(t: Link, payload: Bytes, now: nat)
    ensures t.history <= Tallied(t, payload, now).history
  {
  }

  lemma ExtendingIsRobust(h: History)
    ensures Robust(Extending(h))
  {
    ExtendingIsSteady(h);
    hide Steady, StepRekey, Tallied;
    forall t, payload, now | Extending(h)(t) ensures Extending(h)(Tallied(t, payload, now)) {
      TallyExtends(t, payload, now);
    }
    forall t, payload, env: Env | Extending(h)(t)
      ensures Extending(h)(StepRekey(Tallied(t, payload, env.now), payload, env).link)
    {
      TallyExtends(t, payload, env.now);
      StepExtends(Tallied(t, payload, env.now), payload, env);
    }
  }

  /** What was said stays said, over every run and its drop. */
  lemma DriveExtends(s: Session, events: seq<(Event, Host)>)
    ensures s.t.history <= Dropped(Drive(s, events)).t.history
  {
    ExtendingIsRobust(s.t.history);
    hide Robust, Drive, EmitFinished;
    DriveHolds(Extending(s.t.history), s, events);
  }
}
