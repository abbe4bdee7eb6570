/** What the server does with each message of a client (`handle_inbound` and its
branches in `channel.rs`): at every point of a run where the loop waits, the
payload's bytes and the history so far determine what is taken down and answered,
or what the connection is ended for. */
module Answers {
  import opened Wire
  import opened Trace
  import opened Transport
  import opened Channel
  import opened LinkProofs
  import opened StdinOrder
  import opened StdinProofs
  import opened ChannelProofs
  import opened SessionProofs
  import opened Metering
  import opened Duties
  import opened ClientSide

  /** The loop waits here, with no re-key under way. */
  ghost predicate Waiting(first: SealView, m: Session) {
    LoopInv(first, m) && Exchange(m.t.history).kex == 0 && !m.d.state.Closed?
  }

  /** Every turn of every run that goes on without a re-key ends here, or the loop
      returns. */
  lemma EveryWait(first: SealView, s: Session, events: Events, n: Session, e: Event, host: Host)
    requires Comes(first, s, events, n) && Turn(n, host).Go? && Exchange(Turn(n, host).st.t.history).kex == 0
    ensures var m := Turn(n, host).st;
            if Iterate(n, e, host).Returned? then m.d.state.Closed?
            else Waiting(first, m) && Iterate(n, e, host) == Await(m, e, host)
  {
    hide Comes, Turn, LoopInv, Exchange, React, Enabled, EmitFinished, Metered, InService, Order;
    ComesKeeps(first, s, events, n);
    TurnLoop(first, n, host);
    LoopService(first, Turn(n, host).st);
  }

  /** A packet of the server's now. */
  function Out(m: Session, f: Frame): Entry { Sent(f, Stamp(m.t.tx, m.t.sealed, m.t.seqTx)) }

  /** The message is read, this is what it leads to, and the loop goes on. */
  predicate Heard(m: Session, p: Bytes, host: Host, es: History) {
    var x := Await(m, Packet(p), host);
    x.Live? && x.s.t.history == m.t.history + [Read(|p|, host.env.now)] + es
  }

  /** The connection ends for this reason, which a DISCONNECT says. */
  predicate Rebuked(m: Session, p: Bytes, host: Host, reason: string)
    requires |reason| < 64
  {
    var x := Await(m, Packet(p), host);
    && x.Failed? && x.cause == Rejected(reason)
    && x.s.t.history == m.t.history + [Read(|p|, host.env.now)] +
                        (if m.t.ioLeft > 0 then [Out(m, Disconnect(2, Ascii(reason)))] else [])
  }

  // ---- from packets to messages ----

  lemma TakenSays(m: Session, p: Bytes, now: nat)
    ensures var r := Taken(m, p, now);
            && r.d == m.d && r.t.phase == m.t.phase && r.t.ioLeft == m.t.ioLeft
            && r.t.tx == m.t.tx && r.t.sealed == m.t.sealed && r.t.seqTx == m.t.seqTx
            && r.t.history == m.t.history + [Read(|p|, now)]
  {
    hide Exchange, Seals, Order, Output, Audit, Intake, SatAdd, Wrap32, Advance;
  }

  function StatusOf(r: Step<Session>): Status { if r.Go? then Live(r.st) else Failed(r.st, r.cause) }

  lemma PacketIsHandled(first: SealView, m: Session, p: Bytes, host: Host)
    requires Waiting(first, m) && (p != [] ==> p[0] != MSG_KEXINIT)
    ensures Await(m, Packet(p), host) == StatusOf(HandleInbound(Taken(m, p, host.env.now), p, host))
  {
    hide LoopInv, Exchange, HandleInbound, Taken, RekeyPacket, Order;
    LoopService(first, m);
    TakenSays(m, p, host.env.now);
  }

  lemma NoteSays(s: Session, e: Entry)
    ensures Note(s, e).d == s.d && Note(s, e).t == s.t.(history := s.t.history + [e])
  {
    hide Exchange, Seals, Order, Output, Audit, Intake;
  }

  lemma OutSays(s: Session, f: Frame)
    ensures var r := Send(s, f);
            if s.t.ioLeft > 0 then
              r.Go? && r.st.d == s.d && r.st.t.history == s.t.history + [Out(s, f)] && r.st.t.phase == s.t.phase
            else r.Stop? && r.cause == Io
  {
    hide Exchange, Seals, Order, Output, Audit, Intake, SatAdd, Payload, Max, Wrap32, Advance;
  }

  lemma FailSays(s: Session, reason: string)
    requires |reason| < 64
    ensures var r := Fail(s, reason);
            && r.Stop? && r.cause == Rejected(reason)
            && r.st.t.history == s.t.history + (if s.t.ioLeft > 0 then [Out(s, Disconnect(2, Ascii(reason)))] else [])
  {
    hide Exchange, Seals, Order, Output, Audit, Intake, Ascii, Max, Wrap32, Advance;
    assert s.t.history + [] == s.t.history;
  }

  /** The lifecycle, as the history shows it. */
  lemma StateExactly(first: SealView, m: Session)
    requires LoopInv(first, m)
    ensures var v := Order(m.t.history);
            && (m.d.state.BeforeOpen? <==> v.peer.None?)
            && (m.d.state.Idle? <==> v.peer.Some? && !v.started && !v.clientClosed)
            && (m.d.state.ServerClosed? || m.d.state.Closed? <==> v.closeSent)
  {
    hide Inv, Order, LinkOk, BodyOf, IntakeOk, WindowOk, Accounted, Settled;
    InvParts(first, m);
  }

  /** A message whose handling fails at once. */
  lemma FailsAt(first: SealView, m: Session, p: Bytes, host: Host, d: Driver, reason: string)
    requires |reason| < 64
    requires Waiting(first, m) && (p != [] ==> p[0] != MSG_KEXINIT)
    requires HandleInbound(Taken(m, p, host.env.now), p, host) ==
             Fail(Taken(m, p, host.env.now).(d := d), reason)
    ensures Rebuked(m, p, host, reason)
  {
    hide Waiting, HandleInbound, Taken, Fail, Await, Ascii;
    PacketIsHandled(first, m, p, host);
    TakenSays(m, p, host.env.now);
    FailSays(Taken(m, p, host.env.now).(d := d), reason);
  }

  /** A message that is only noted. */
  lemma NotedAt(first: SealView, m: Session, p: Bytes, host: Host, d: Driver, e: Entry)
    requires Waiting(first, m) && (p != [] ==> p[0] != MSG_KEXINIT)
    requires HandleInbound(Taken(m, p, host.env.now), p, host) == Go(Note(Taken(m, p, host.env.now).(d := d), e))
    ensures Heard(m, p, host, [e]) && Await(m, Packet(p), host).s.d == d
  {
    hide Waiting, HandleInbound, Taken, Note, Await;
    PacketIsHandled(first, m, p, host);
    TakenSays(m, p, host.env.now);
    NoteSays(Taken(m, p, host.env.now).(d := d), e);
  }

  /** A message that is passed over. */
  lemma IgnoredAt(first: SealView, m: Session, p: Bytes, host: Host, d: Driver)
    requires Waiting(first, m) && (p != [] ==> p[0] != MSG_KEXINIT)
    requires HandleInbound(Taken(m, p, host.env.now), p, host) == Go(Taken(m, p, host.env.now).(d := d))
    ensures Heard(m, p, host, []) && Await(m, Packet(p), host).s.d == d
  {
    hide Waiting, HandleInbound, Taken, Await;
    PacketIsHandled(first, m, p, host);
    TakenSays(m, p, host.env.now);
    var h := m.t.history + [Read(|p|, host.env.now)];
    assert h + [] == h;
  }

  /** A message that is answered with one packet. */
  lemma AnsweredAt(first: SealView, m: Session, p: Bytes, host: Host, f: Frame)
    requires Waiting(first, m) && (p != [] ==> p[0] != MSG_KEXINIT) && m.t.ioLeft > 0
    requires HandleInbound(Taken(m, p, host.env.now), p, host) == Send(Taken(m, p, host.env.now), f)
    ensures Heard(m, p, host, [Out(m, f)]) && Await(m, Packet(p), host).s.d == m.d
  {
    hide Waiting, HandleInbound, Taken, Send, Await;
    PacketIsHandled(first, m, p, host);
    TakenSays(m, p, host.env.now);
    OutSays(Taken(m, p, host.env.now), f);
  }

  // ---- the reference ----

  /** A message about a channel, as a client writes it. */
  datatype Call =
    | Input(to: U32, data: Str)
    | Widen(to: U32, add: U32)
    | End(to: U32)
    | Shut(to: U32)
    | Ask(to: U32, kind: Str, flag: Byte, rest: Bytes)

  predicate Proper(c: Call) { (c.Input? ==> |c.data| <= 32768) && (c.Ask? ==> |c.kind| <= 64) }

  function Written(c: Call): Bytes {
    match c
    case Input(to, data) => DataPayload(to, data)
    case Widen(to, add) => AdjustPayload(to, add)
    case End(to) => EofPayload(to)
    case Shut(to) => ClosePayload(to)
    case Ask(to, kind, flag, rest) => RequestPayload(to, kind, flag, rest)
  }

  /** What a message leads to: the end of the connection, or what is taken down and
      sent. */
  datatype Reaction = Ends(reason: string) | Goes(es: History)

  /** Open, nothing started, not closed by the client. */
  predicate Unstarted(v: OrderView) { v.peer.Some? && !v.started && !v.clientClosed }

  /** The reply to a request that asks for one. */
  function Replied(m: Session, v: OrderView, flag: Byte, msg: ChannelMsg): History {
    if flag != 0 && v.peer.Some? then [Out(m, Frame.Channel(v.peer.value, msg))] else []
  }

  /** A command starts: the record, the reply, and its end when it cannot run. */
  function Begins(m: Session, v: OrderView, flag: Byte, command: Bytes, host: Host): Reaction {
    Goes([Started(command)] + Replied(m, v, flag, Success) +
         if host.spawns then [] else [ChildExit(127, None), OutputEnded])
  }

  function Asked(m: Session, v: OrderView, kind: Str, flag: Byte, rest: Bytes, host: Host): Reaction {
    if kind == Ascii("exec") && Unstarted(v) then
      var command := GetString(rest, 32768);
      if command.Err? then Ends("malformed-exec-request")
      else if !host.utf8(command.value.value) then Ends("non-utf8-command")
      else Begins(m, v, flag, command.value.value, host)
    else if kind == Ascii("shell") && Unstarted(v) then Begins(m, v, flag, [], host)
    else if kind == Ascii("subsystem") then
      var name := GetString(rest, 64);
      if name.Err? then Ends("malformed-subsystem")
      else if name.value.value == Ascii("sftp") && Unstarted(v) && !m.d.pty && host.helper then
        Begins(m, v, flag, Ascii("sftp"), host)
      else Goes(Replied(m, v, flag, Failure))
    else if kind == Ascii("pty-req") then PtyAsked(m, v, flag, rest, host)
    else if kind == Ascii("window-change") then
      if |rest| < 16 then Ends("malformed-window-change")
      else Goes(Replied(m, v, flag, if OnTerminal(m.d) && host.resizes then Success else Failure))
    else Goes(Replied(m, v, flag, Failure))
  }

  /** A terminal is allocated, and its command not started or still there. */
  predicate OnTerminal(d: Driver) { d.pty || (d.inn.child.Some? && d.onPty) }

  /** TERM, four numbers and the modes; one terminal, before the start. */
  function PtyAsked(m: Session, v: OrderView, flag: Byte, rest: Bytes, host: Host): Reaction {
    var term := GetString(rest, 64);
    if term.Err? || |term.value.rest| < 16 || GetString(term.value.rest[16..], 1024).Err? then Ends("malformed-pty-req")
    else if !host.modesParse then Ends("truncated-terminal-mode")
    else Goes(Replied(m, v, flag, if MayHavePty(m, v, host) then Success else Failure))
  }

  predicate MayHavePty(m: Session, v: OrderView, host: Host) {
    Unstarted(v) && !m.d.pty && host.ptyPermitted && host.helper && host.termValid && host.ptyAllocates
  }

  /** What the history so far makes of a message. */
  function Expected(m: Session, c: Call, host: Host): Reaction {
    var v, o, k := Order(m.t.history), Output(m.t.history), Intake(m.t.history);
    if v.peer.None? then Ends("channel-message-before-open")
    else if c.to != 0 then Ends("unknown-channel")
    else
      match c
      case Input(_, data) =>
        if v.closeSent then Goes([])
        else if k.ended then Ends("data-after-eof")
        else if |data| > k.window then Ends("inbound-window-exceeded")
        else Goes([Took(data)])
      case Widen(_, add) =>
        if o.granted - |o.sent| + add >= 0x1_0000_0000 then Ends("window-overflow") else Goes([Adjusted(add)])
      case End(_) => Goes([ClientEof])
      case Shut(_) => if v.closeSent then Goes([]) else Goes([ClientClosed])
      case Ask(_, kind, flag, rest) => Asked(m, v, kind, flag, rest, host)
  }

  /** The loop does what is expected of it, given a stream that takes a packet. */
  predicate Meets(m: Session, p: Bytes, host: Host, r: Reaction) {
    match r
    case Ends(reason) => |reason| < 64 && Rebuked(m, p, host, reason)
    case Goes(es) => Heard(m, p, host, es)
  }

  function Message(c: Call): Inbound {
    match c
    case Input(to, data) => Stdin(to, data)
    case Widen(to, add) => Adjust(to, add)
    case End(to) => PeerEof(to)
    case Shut(to) => PeerClose(to)
    case Ask(to, kind, flag, rest) => Request(to, kind, flag != 0, rest)
  }

  lemma CallDecodes(c: Call)
    requires Proper(c)
    ensures Decode(Written(c)) == Message(c) && Written(c) != [] && Written(c)[0] != MSG_KEXINIT
    ensures !Message(c).Malformed? && NamesChannel(Message(c))
  {
    hide Decode, PutU32, PutString;
    match c
    case Input(to, data) => DecodesData(to, data);
    case Widen(to, add) => DecodesAdjust(to, add);
    case End(to) => DecodesEofAndClose(to);
    case Shut(to) => DecodesEofAndClose(to);
    case Ask(to, kind, flag, rest) => DecodesRequest(to, kind, flag, rest);
  }

  /** What the driver's fields say, as the history shows it. */
  lemma FieldsShown(first: SealView, m: Session)
    requires LoopInv(first, m)
    ensures var o, k, v := Output(m.t.history), Intake(m.t.history), Order(m.t.history);
            && m.d.out.window == o.granted - |o.sent| && m.d.inn.window == k.window && m.d.inn.clientEof == k.ended
            && (v.peer.Some? ==> v.peer.value == m.d.out.peerChan)
  {
    hide LinkOk, Exchange, Order, Output, Audit, Intake, Shape, WindowOk, AuditOk, Settled;
  }

  // ---- message by message ----

  lemma SimpleMeets(first: SealView, m: Session, c: Call, host: Host)
    requires Waiting(first, m) && Proper(c) && !c.Ask?
    ensures Meets(m, Written(c), host, Expected(m, c, host))
  {
    hide LoopInv, Exchange, Order, Output, Intake, Decode, Taken, Fail, Note, Accept, Abandoned, Written;
    hide Heard, Rebuked;
    CallDecodes(c);
    StateExactly(first, m);
    FieldsShown(first, m);
    var p, r := Written(c), Taken(m, Written(c), host.env.now);
    TakenSays(m, p, host.env.now);
    if Order(m.t.history).peer.None? {
      FailsAt(first, m, p, host, m.d, "channel-message-before-open");
    } else if c.to != 0 {
      FailsAt(first, m, p, host, m.d, "unknown-channel");
    } else {
      match c
      case Input(_, data) => DataMeets(first, m, data, host);
      case Widen(_, add) =>
        if m.d.out.window + add >= U32_LIMIT {
          FailsAt(first, m, p, host, Widened(m.d, add), "window-overflow");
        } else {
          NotedAt(first, m, p, host, Widened(m.d, add), Adjusted(add));
        }
      case End(_) => NotedAt(first, m, p, host, m.d.(inn := m.d.inn.(clientEof := true)), ClientEof);
      case Shut(_) =>
        if m.d.state.ServerClosed? {
          IgnoredAt(first, m, p, host, m.d.(state := ChannelState.Closed));
        } else {
          NotedAt(first, m, p, host, Abandoned(m.d), ClientClosed);
        }
    }
  }

  lemma DataMeets(first: SealView, m: Session, data: Str, host: Host)
    requires Waiting(first, m) && |data| <= 32768 && Order(m.t.history).peer.Some?
    ensures Meets(m, Written(Input(0, data)), host, Expected(m, Input(0, data), host))
  {
    hide LoopInv, Exchange, Order, Output, Intake, Decode, Taken, Fail, Note, Accept, Written, Heard, Rebuked;
    var c := Input(0, data);
    CallDecodes(c);
    StateExactly(first, m);
    FieldsShown(first, m);
    var p := Written(c);
    TakenSays(m, p, host.env.now);
    if m.d.state.ServerClosed? {
      IgnoredAt(first, m, p, host, m.d);
    } else if m.d.inn.clientEof {
      FailsAt(first, m, p, host, m.d, "data-after-eof");
    } else if |data| > m.d.inn.window {
      FailsAt(first, m, p, host, m.d, "inbound-window-exceeded");
    } else {
      NotedAt(first, m, p, host, m.d.(inn := Accept(m.d.inn, m.d.state.Idle?, data)), Took(data));
    }
  }

  /** A reply, when one is asked for and the stream takes it. */
  lemma ReplySays(s: Session, m: Session, v: OrderView, flag: Byte, success: bool)
    requires s.t.ioLeft > 0 && v.peer == Some(s.d.out.peerChan)
    requires s.t.tx == m.t.tx && s.t.sealed == m.t.sealed && s.t.seqTx == m.t.seqTx
    ensures var r := Reply(s, flag != 0, success);
            && r.Go? && r.st.d == s.d
            && r.st.t.history == s.t.history + Replied(m, v, flag, if success then Success else Failure)
  {
    hide Send;
    OutSays(s, Frame.Channel(s.d.out.peerChan, if success then Success else Failure));
    assert s.t.history + [] == s.t.history;
  }

  lemma StartSays(s: Session, m: Session, v: OrderView, flag: Byte, command: Bytes, host: Host)
    requires s.t.ioLeft > 0 && v.peer == Some(s.d.out.peerChan)
    requires s.t.tx == m.t.tx && s.t.sealed == m.t.sealed && s.t.seqTx == m.t.seqTx
    ensures var r := Start(s, command, flag != 0, host);
            r.Go? && r.st.t.history == s.t.history + Begins(m, v, flag, command, host).es
  {
    hide Note, Reply, Replied, Spawned;
    NoteSays(s.(d := Commanded(s.d, command)), Started(command));
    var n := Note(s.(d := Commanded(s.d, command)), Started(command));
    ReplySays(n, m, v, flag, true);
    var r := Reply(n, flag != 0, true);
    var reply := Replied(m, v, flag, Success);
    if host.spawns {
      assert [Started(command)] + reply + [] == [Started(command)] + reply;
      assert s.t.history + [Started(command)] + reply == s.t.history + ([Started(command)] + reply);
    } else {
      var e := ChildExit(127, None);
      var u := r.st.(d := Spawned(r.st.d, false));
      NoteSays(u, e);
      NoteSays(Note(u, e), OutputEnded);
      assert s.t.history + [Started(command)] + reply + [e] + [OutputEnded] ==
             s.t.history + ([Started(command)] + reply + [e, OutputEnded]);
    }
  }

  /** A message whose handling says this and goes on. */
  lemma GoesAt(first: SealView, m: Session, p: Bytes, host: Host, es: History)
    requires Waiting(first, m) && (p != [] ==> p[0] != MSG_KEXINIT)
    requires var s := Taken(m, p, host.env.now);
             var r := HandleInbound(s, p, host); r.Go? && r.st.t.history == s.t.history + es
    ensures Heard(m, p, host, es)
  {
    hide Waiting, HandleInbound, Taken, Await;
    PacketIsHandled(first, m, p, host);
    TakenSays(m, p, host.env.now);
  }

  /** The link facts that a request needs. */
  lemma AskReady(first: SealView, m: Session, c: Call, host: Host)
    requires Waiting(first, m) && Proper(c) && c.Ask? && c.to == 0 && Order(m.t.history).peer.Some?
    ensures var s := Taken(m, Written(c), host.env.now);
            && HandleInbound(s, Written(c), host) == OnRequest(s, Request(0, c.kind, c.flag != 0, c.rest), host)
            && s.d == m.d && s.t.ioLeft == m.t.ioLeft && Order(m.t.history).peer == Some(s.d.out.peerChan)
            && s.t.tx == m.t.tx && s.t.sealed == m.t.sealed && s.t.seqTx == m.t.seqTx
            && Written(c) != [] && Written(c)[0] != MSG_KEXINIT
            && (m.d.state.Idle? <==> Unstarted(Order(m.t.history)))
  {
    hide LoopInv, Exchange, Order, Output, Intake, Decode, Taken, OnRequest, Written;
    CallDecodes(c);
    StateExactly(first, m);
    FieldsShown(first, m);
    TakenSays(m, Written(c), host.env.now);
  }

  /** What a request's branch gives, against what is expected of it. */
  predicate Agreed(s: Session, m: Session, r: Step<Session>, e: Reaction) {
    match e
    case Ends(reason) => |reason| < 64 && r == Fail(s, reason)
    case Goes(es) => r.Go? && r.st.t.history == s.t.history + es
  }

  /** A session that has read the message and can answer it. */
  predicate Able(s: Session, m: Session, v: OrderView) {
    && s.t.ioLeft > 0 && v.peer == Some(s.d.out.peerChan) && s.d == m.d
    && s.t.tx == m.t.tx && s.t.sealed == m.t.sealed && s.t.seqTx == m.t.seqTx
    && (s.d.state.Idle? <==> Unstarted(v))
  }

  lemma SubsystemAgrees(s: Session, m: Session, v: OrderView, flag: Byte, rest: Bytes, host: Host)
    requires Able(s, m, v)
    ensures Agreed(s, m, OnSubsystem(s, rest, flag != 0, host), Asked(m, v, Ascii("subsystem"), flag, rest, host))
  {
    hide Fail, Start, Reply, Replied, Begins, GetString, Ascii;
    DistinctKinds();
    StartSays(s, m, v, flag, Ascii("sftp"), host);
    ReplySays(s, m, v, flag, false);
    BeginsGoes(m, v, flag, Ascii("sftp"), host);
  }

  lemma BeginsGoes(m: Session, v: OrderView, flag: Byte, command: Bytes, host: Host)
    ensures Begins(m, v, flag, command, host).Goes?
  {
  }

  /** The request kinds are told apart by their names. */
  lemma DistinctKinds()
    ensures var a, b, c, d, e := Ascii("exec"), Ascii("shell"), Ascii("subsystem"), Ascii("pty-req"),
                                 Ascii("window-change");
            a != b && a != c && a != d && a != e && b != c && b != d && b != e && c != d && c != e && d != e
  {
    assert |Ascii("exec")| == 4 && |Ascii("shell")| == 5 && |Ascii("subsystem")| == 9;
    assert |Ascii("pty-req")| == 7 && |Ascii("window-change")| == 13;
  }

  lemma TerminalAgrees(s: Session, m: Session, v: OrderView, flag: Byte, rest: Bytes, host: Host)
    requires Able(s, m, v)
    ensures Agreed(s, m, OnPtyReq(s, rest, flag != 0, host), PtyAsked(m, v, flag, rest, host))
  {
    hide Fail, Reply, Replied, GetString;
    var t := s.(d := s.d.(pty := true));
    ReplySays(t, m, v, flag, true);
    ReplySays(s, m, v, flag, false);
  }

  lemma ExecAgrees(s: Session, m: Session, v: OrderView, flag: Byte, rest: Bytes, host: Host)
    requires Able(s, m, v) && Unstarted(v)
    ensures Agreed(s, m, OnExec(s, rest, flag != 0, host), Asked(m, v, Ascii("exec"), flag, rest, host))
  {
    hide Fail, Start, Begins, GetString, Ascii;
    var command := GetString(rest, 32768);
    if command.Ok? {
      StartSays(s, m, v, flag, command.value.value, host);
      BeginsGoes(m, v, flag, command.value.value, host);
    }
  }

  lemma ResizeAgrees(s: Session, m: Session, v: OrderView, flag: Byte, rest: Bytes, host: Host)
    requires Able(s, m, v)
    ensures Agreed(s, m, OnWindowChange(s, rest, flag != 0, host),
                   Asked(m, v, Ascii("window-change"), flag, rest, host))
  {
    hide Fail, Reply, Replied, Ascii, PtyAsked;
    DistinctKinds();
    ReplySays(s, m, v, flag, true);
    ReplySays(s, m, v, flag, false);
  }

  lemma RequestAgrees(s: Session, m: Session, v: OrderView, kind: Str, flag: Byte, rest: Bytes, host: Host)
    requires Able(s, m, v)
    ensures Agreed(s, m, OnRequest(s, Request(0, kind, flag != 0, rest), host), Asked(m, v, kind, flag, rest, host))
  {
    hide Fail, Start, Reply, Replied, Begins, GetString, Ascii, OnExec, OnSubsystem, OnPtyReq, PtyAsked, Unstarted;
    hide OnWindowChange;
    DistinctKinds();
    if kind == Ascii("exec") && Unstarted(v) {
      ExecAgrees(s, m, v, flag, rest, host);
    } else if kind == Ascii("shell") && Unstarted(v) {
      StartSays(s, m, v, flag, [], host);
      BeginsGoes(m, v, flag, [], host);
    } else if kind == Ascii("subsystem") {
      SubsystemAgrees(s, m, v, flag, rest, host);
    } else if kind == Ascii("pty-req") {
      TerminalAgrees(s, m, v, flag, rest, host);
    } else if kind == Ascii("window-change") {
      ResizeAgrees(s, m, v, flag, rest, host);
    } else {
      ReplySays(s, m, v, flag, false);
    }
  }

  lemma AskMeets(first: SealView, m: Session, c: Call, host: Host)
    requires Waiting(first, m) && Proper(c) && c.Ask? && m.t.ioLeft > 0
    ensures Meets(m, Written(c), host, Expected(m, c, host))
  {
    hide LoopInv, Exchange, Order, Output, Intake, Decode, Taken, Fail, OnRequest, Written, Heard, Rebuked, Asked;
    CallDecodes(c);
    StateExactly(first, m);
    var p, v := Written(c), Order(m.t.history);
    var s := Taken(m, p, host.env.now);
    TakenSays(m, p, host.env.now);
    if v.peer.None? {
      FailsAt(first, m, p, host, m.d, "channel-message-before-open");
    } else if c.to != 0 {
      OtherChannel(s, Message(c), host);
      FailsAt(first, m, p, host, m.d, "unknown-channel");
    } else {
      AskReady(first, m, c, host);
      RequestAgrees(s, m, v, c.kind, c.flag, c.rest, host);
      var e := Asked(m, v, c.kind, c.flag, c.rest, host);
      match e
      case Ends(reason) => FailsAt(first, m, p, host, m.d, reason);
      case Goes(es) => GoesAt(first, m, p, host, es);
    }
  }

  lemma OtherChannel(s: Session, q: Inbound, host: Host)
    requires q.Request? && q.recipient != 0
    ensures OnRequest(s, q, host) == Fail(s, "unknown-channel")
  {
    hide OnExec, OnSubsystem, OnPtyReq, OnWindowChange, Ascii, Start, Reply, Fail;
  }

  /** Wherever the loop of a run waits, a message about a channel, written out by a
      client, leads to what the history makes of it: the same events taken down, the
      same reply or none, or the same end. */
  lemma MessagesAreAnswered(first: SealView, m: Session, c: Call, host: Host)
    requires Waiting(first, m) && Proper(c) && (c.Ask? ==> m.t.ioLeft > 0)
    ensures Meets(m, Written(c), host, Expected(m, c, host))
  {
    hide Waiting, Meets, Expected;
    if c.Ask? {
      AskMeets(first, m, c, host);
    } else {
      SimpleMeets(first, m, c, host);
    }
  }

  // ---- the other messages ----

  lemma OpenIsOpened(s: Session, kind: Str, sender: U32, window: U32, maxPacket: U32, host: Host)
    requires |kind| <= 64
    ensures var p := OpenCall(kind, sender, window, maxPacket);
            && HandleInbound(s, p, host) == OnOpen(s, Open(kind, sender, window, maxPacket))
            && p != [] && p[0] != MSG_KEXINIT
  {
    assert OpenCall(kind, sender, window, maxPacket)[0] == 90;
    hide Decode, OpenCall, OnOpen;
    DecodesOpenCall(kind, sender, window, maxPacket);
  }

  lemma CallIsAnswered(s: Session, kind: Str, flag: Byte, rest: Bytes, host: Host)
    requires |kind| <= 64
    ensures var p := GlobalCall(kind, flag, rest);
            && HandleInbound(s, p, host) == (if flag != 0 then Send(s, RequestFailure) else Go(s))
            && p != [] && p[0] != MSG_KEXINIT
  {
    assert GlobalCall(kind, flag, rest)[0] == 80;
    hide Decode, GlobalCall, Send;
    DecodesCall(kind, flag, rest);
  }

  /** An open is confirmed once, with the window it grants, and refused after; the
      peer's numbers are those it sent. */
  lemma OpensExactly(first: SealView, m: Session, kind: Str, sender: U32, window: U32, maxPacket: U32, host: Host)
    requires Waiting(first, m) && |kind| <= 64 && m.t.ioLeft > 0
    ensures var p := OpenCall(kind, sender, window, maxPacket);
            if Order(m.t.history).peer.Some? then
              Heard(m, p, host, [Out(m, OpenFailure(sender, 1, Ascii("one channel only")))])
            else if kind != Ascii("session") then
              Heard(m, p, host, [Out(m, OpenFailure(sender, 3, Ascii("unknown channel type")))])
            else if maxPacket == 0 then Rebuked(m, p, host, "zero-max-packet-size")
            else
              Heard(m, p, host, [Entry.Opened(sender, window, maxPacket),
                                 Out(m, Frame.Channel(sender, OpenConfirmation))])
  {
    var p := OpenCall(kind, sender, window, maxPacket);
    hide Waiting, Order, HandleInbound, Taken, Fail, Note, Send, OpenCall, Heard, Rebuked, Ascii;
    OpenState(first, m);
    var s := Taken(m, p, host.env.now);
    OpenIsOpened(s, kind, sender, window, maxPacket, host);
    TakenSays(m, p, host.env.now);
    if Order(m.t.history).peer.Some? {
      AnsweredAt(first, m, p, host, OpenFailure(sender, 1, Ascii("one channel only")));
    } else if kind != Ascii("session") {
      AnsweredAt(first, m, p, host, OpenFailure(sender, 3, Ascii("unknown channel type")));
    } else if maxPacket == 0 {
      FailsAt(first, m, p, host, m.d, "zero-max-packet-size");
    } else {
      var d, e := Accepted(s.d, Open(kind, sender, window, maxPacket)), Entry.Opened(sender, window, maxPacket);
      NoteSays(s.(d := d), e);
      var n := Note(s.(d := d), e);
      var f := Frame.Channel(sender, OpenConfirmation);
      OutSays(n, f);
      assert s.t.history + [e] + [Out(m, f)] == s.t.history + [e, Out(m, f)];
      GoesAt(first, m, p, host, [e, Out(m, f)]);
    }
  }

  lemma OpenState(first: SealView, m: Session)
    requires Waiting(first, m)
    ensures m.d.state.BeforeOpen? <==> Order(m.t.history).peer.None?
  {
    hide LoopInv, Exchange, Order;
    StateExactly(first, m);
  }

  /** A global request gets a failure exactly when it wants a reply. */
  lemma GlobalsExactly(first: SealView, m: Session, kind: Str, flag: Byte, rest: Bytes, host: Host)
    requires Waiting(first, m) && |kind| <= 64 && m.t.ioLeft > 0
    ensures Heard(m, GlobalCall(kind, flag, rest), host, if flag != 0 then [Out(m, RequestFailure)] else [])
  {
    var p := GlobalCall(kind, flag, rest);
    hide Waiting, HandleInbound, Taken, Send, GlobalCall, Heard, Await;
    CallIsAnswered(Taken(m, p, host.env.now), kind, flag, rest, host);
    if flag != 0 {
      AnsweredAt(first, m, p, host, RequestFailure);
    } else {
      TakenSays(m, p, host.env.now);
      IgnoredAt(first, m, p, host, m.d);
    }
  }

  /** After the server's CLOSE the client's own ends the loop at its next turn. */
  lemma CloseReturns(first: SealView, m: Session, e: Event, host: Host, next: Host)
    requires Waiting(first, m) && Order(m.t.history).closeSent && m.d.inn.credit < 0x10_0000
    ensures var x := Await(m, Packet(ClosePayload(0)), host); x.Live? && Iterate(x.s, e, next).Returned?
  {
    hide LoopInv, Exchange, Order, Decode, Taken, Fail, Note, ClosePayload, Iterate, Await;
    var c := Shut(0);
    var p := Written(c);
    CallDecodes(c);
    StateExactly(first, m);
    TakenSays(m, p, host.env.now);
    IgnoredAt(first, m, p, host, m.d.(state := ChannelState.Closed));
    PacketIsHandled(first, m, p, host);
    LoopService(first, m);
    ClosedReturns(Await(m, Packet(p), host).s, e, next);
  }

  lemma ClosedReturns(s: Session, e: Event, host: Host)
    requires s.d.state.Closed? && s.t.phase.Idle? && s.d.inn.credit < CREDIT_BATCH
    ensures Iterate(s, e, host).Returned?
  {
    hide RekeyDue, BeginRekey, Handoff, React, EmitFinished, Enabled;
    HandoffDone(s.d.inn);
    assert FlushOutput(s) == Go(s);
  }

  // ---- during a re-key ----

  /** While the server waits for the client's KEXINIT, a message that needs no
      answer is handled as at any other time, and any other is held back, up to 64. */
  lemma HeldBackOrHandled(first: SealView, m: Session, p: Bytes, host: Host)
    requires LoopInv(first, m) && m.t.phase.SentKexInit? && (p != [] ==> p[0] != MSG_KEXINIT)
    ensures if InboundOnly(p) then
              Await(m, Packet(p), host) == StatusOf(HandleInbound(Taken(m, p, host.env.now), p, host))
            else if |Exchange(m.t.history).deferred| < 64 then Heard(m, p, host, [Deferred(p)])
            else Rebuked(m, p, host, "too-many-deferred-during-rekey")
  {
    hide Inv, Exchange, HandleInbound, Taken, Fail, Note, InboundOnly, DrainDeferred;
    QueueShown(first, m);
    TakenSays(m, p, host.env.now);
    var s := Taken(m, p, host.env.now);
    FailSays(s, "too-many-deferred-during-rekey");
    NoteSays(s.(d := s.d.(deferred := s.d.deferred + [p])), Deferred(p));
  }

  lemma QueueShown(first: SealView, m: Session)
    requires LoopInv(first, m)
    ensures Exchange(m.t.history).deferred == m.d.deferred
  {
    hide LinkOk, Exchange, BodyOf, IntakeOk, Settled;
  }
}
