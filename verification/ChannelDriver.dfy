/** The channel driver as the object the source has (`channel.rs`): its fields
are updated by one method per phase, handler and event. Each method is proved
to do what the function of `Channel` says, the `drive` loop included. */
module ChannelDriver {
  import opened Wire
  import opened Trace
  import opened Transport
  import opened TransportStage
  import opened Channel
  import C = Channel
  import opened TraceMeaning
  import opened ChannelProofs
  import opened SessionProofs
  import opened Runs
  import opened StdinRuns
  import Metering
  import Duties

  datatype Ending = StillLive | CleanReturn | Failure(cause: Cause)

  lemma DrainStep(s: Session, host: Host)
    requires s.d.deferred != []
    ensures var p, rest := s.d.deferred[0], s.d.deferred[1..];
            var r := C.HandleInbound(C.Note(s.(d := s.d.(deferred := rest)), Undeferred(p)), p, host);
            DrainDeferred(s, host) ==
            (if r.Go? then DrainDeferred(r.st.(d := r.st.d.(deferred := rest)), host) else r)
  {
    hide C.Note, C.HandleInbound;
  }

  lemma FlushedLen(o: Outflow)
    requires o.pending.Some? && Min(|o.pending.value.rest|, Cap(o)) > 0
    ensures PendingLen(Flushed(o)) < PendingLen(o)
  {
  }

  lemma AcceptedParts(d: Driver, m: Inbound)
    requires m.Open?
    ensures Accepted(d, m).deferred == d.deferred && Accepted(d, m).out.peerChan == m.sender
  {
  }

  lemma NoAcks(n: U64)
    ensures SatAdd(n, 0, U64_LIMIT) == n
  {
  }

  class ChannelDriver {
    const stage: Stage
    var state: ChannelState
    var inn: Inflow
    var out: Outflow
    var earlyClose: bool
    var exitStatus: Option<U32>
    var exitSignal: Option<(Str, bool)>
    var childOutClosed: bool
    var consumedClosed: bool
    var command: Option<Bytes>
    var pty: bool
    var onPty: bool
    var bytesReceived: U64
    var finishedEmitted: bool
    var deferred: seq<Bytes>

    constructor (stage: Stage)
      ensures View() == Session(FRESH, stage.View()) && this.stage == stage
    {
      this.stage := stage;
      state := BeforeOpen;
      inn := Inflow(0, 0, None, [], false, None, 0, Line([], [], [], false));
      out := Outflow(0, 0, 0, None, 0);
      earlyClose, exitStatus, exitSignal, childOutClosed, consumedClosed := false, None, None, false, false;
      command, pty, onPty, bytesReceived, finishedEmitted, deferred := None, false, false, 0, false, [];
    }

    ghost function Fields(): Driver
      reads this
    {
      Driver(state, inn, out, earlyClose, exitStatus, exitSignal, childOutClosed, consumedClosed, command, pty, onPty,
             bytesReceived, finishedEmitted, deferred)
    }

    ghost function View(): Session
      reads this, stage
    {
      Session(Fields(), stage.View())
    }

    method Send(f: Frame) returns (o: Outcome)
      modifies stage
      ensures Agrees(o, View(), C.Send(old(View()), f))
    {
      o := stage.WritePacket(f);
    }

    method SendMsg(msg: ChannelMsg) returns (o: Outcome)
      modifies stage
      ensures Agrees(o, View(), C.SendMsg(old(View()), msg))
    {
      o := Send(Frame.Channel(out.peerChan, msg));
    }

    method Fail(reason: string) returns (o: Outcome)
      requires |reason| < 64
      modifies stage
      ensures o.Broken? && Agrees(o, View(), C.Fail(old(View()), reason))
    {
      o := stage.ProtocolDisconnect(reason);
    }

    /** One data frame of `n` bytes, the most that may go now. */
    method SendChunk(n: nat) returns (o: Outcome)
      requires CanFlush(Fields()) && n == Min(|out.pending.value.rest|, Cap(out))
      modifies this`out, stage
      ensures var r := C.SendMsg(old(View()), FlushFrame(old(out)));
              if r.Stop? then Agrees(o, View(), r)
              else o.Done? && View() == r.st.(d := old(Fields()).(out := Flushed(old(out))))
    {
      hide C.SendMsg, Flushed;
      var p := out.pending.value;
      o := SendMsg(Data(p.kind, p.rest[..n]));
      if o.Done? {
        TakeSent(n);
      }
    }

    method TakeSent(n: nat)
      requires out.pending.Some? && n == Min(|out.pending.value.rest|, Cap(out))
      modifies this`out
      ensures out == Flushed(old(out))
    {
      hide SatAdd;
      var p := out.pending.value;
      out := out.(window := out.window - n, bytesSent := SatAdd(out.bytesSent, n, U64_LIMIT),
                  pending := if n == |p.rest| then None else Some(PendingOut(p.kind, p.rest[n..])));
    }

    /** (A) Sends as much pending output as the window allows. */
    method FlushOutput() returns (o: Outcome)
      modifies this, stage
      ensures Agrees(o, View(), C.FlushOutput(old(View())))
    {
      hide C.SendMsg, FlushFrame, Flushed;
      while MayEmitOutput(state)
        invariant C.FlushOutput(View()) == C.FlushOutput(old(View()))
        decreases PendingLen(out)
      {
        if out.pending.None? || out.window == 0 {
          break;
        }
        var p := out.pending.value;
        var n := Min(|p.rest|, Min(out.window, Min(out.maxPacket, MAX_DATA)));
        if n == 0 {
          break;
        }
        FlushedLen(out);
        o := SendChunk(n);
        if o.Broken? {
          return;
        }
      }
      return Done;
    }

    /** The slot's chunk goes to the pump, unless that is full or gone; once
        stdin is closed, nowhere. */
    method OfferChunk() returns (taken: bool)
      requires inn.child.Some? && inn.pending.Some?
      modifies this`inn
      ensures taken == !Blocked(old(inn)) && inn == if taken then Deliver(old(inn)) else old(inn)
    {
      var chunk := inn.pending.value;
      if inn.child.value.stdinOpen {
        if !inn.child.value.pumpAlive || |inn.child.value.queue| >= STDIN_QUEUE {
          return false;
        }
        inn := inn.(pending := None, child := Some(inn.child.value.(queue := inn.child.value.queue + [chunk])));
      } else {
        inn := inn.(pending := None, lost := inn.lost + |chunk|);
      }
      return true;
    }

    /** (B) Hands one chunk towards the child's stdin. */
    method HandoffStdin()
      modifies this`inn
      ensures View() == HandOver(old(View()))
    {
      if inn.child.None? {
        return;
      }
      if inn.pending.None? && inn.preExec != [] {
        inn := inn.(pending := Some(inn.preExec[0]), preExec := inn.preExec[1..]);
      }
      if inn.pending.Some? {
        var taken := OfferChunk();
        if !taken {
          return;
        }
      }
      if inn.clientEof && inn.pending.None? && inn.preExec == [] {
        inn := inn.(child := Some(CloseStdin(inn.child.value)));
      }
    }

    /** (C) Returns inbound credit. */
    method ReplenishWindow() returns (o: Outcome)
      modifies this, stage
      ensures Agrees(o, View(), Replenish(old(View())))
    {
      hide C.SendMsg;
      if inn.credit < CREDIT_BATCH {
        return Done;
      }
      o := SendMsg(WindowAdjust(inn.credit));
      if o.Done? {
        inn := inn.(window := SatAdd(inn.window, inn.credit, U32_LIMIT), credit := 0);
      }
    }

    /** (E) The terminal sequence. */
    method SendTerminal() returns (o: Outcome)
      modifies this, stage
      ensures Agrees(o, View(), C.SendTerminal(old(View())))
    {
      hide C.SendMsg;
      if earlyClose {
        o := SendMsg(Close);
        if o.Done? {
          state := Closed;
        }
        return;
      }
      o := Done;
      if exitSignal.Some? {
        o := SendMsg(ExitSignal(exitSignal.value.0, exitSignal.value.1));
      } else if exitStatus.Some? {
        o := SendMsg(ExitStatus(exitStatus.value));
      }
      if o.Broken? {
        return;
      }
      o := SendMsg(Eof);
      if o.Broken? {
        return;
      }
      o := SendMsg(Close);
      if o.Done? {
        state := ServerClosed;
      }
    }

    ghost method Note(e: Entry)
      modifies stage
      ensures View() == C.Note(old(View()), e)
    {
      hide Exchange, Seals, Order, Output, Audit, Intake;
      hide ObserveExchange, ObserveSeal, ObserveOrder, ObserveOutput, ObserveAudit, ObserveIntake;
      stage.history := Append(stage.history, e);
      assert stage.View() == Log(old(stage.View()), e);
    }

    /** The acks still queued, one by one. */
    method DrainAcks()
      requires inn.child.Some?
      modifies this`bytesReceived, this`inn
      ensures var c := old(inn).child.value;
              Fields() == old(Fields()).(bytesReceived := SatAdd(old(bytesReceived), Sum(c.acks), U64_LIMIT),
                                         inn := old(inn).(child := Some(c.(acks := []))))
    {
      var acks := inn.child.value.acks;
      ghost var total := SatAdd(bytesReceived, Sum(acks), U64_LIMIT);
      while acks != []
        invariant SatAdd(bytesReceived, Sum(acks), U64_LIMIT) == total && inn == old(inn)
      {
        bytesReceived := SatAdd(bytesReceived, acks[0], U64_LIMIT);
        acks := acks[1..];
      }
      inn := inn.(child := Some(inn.child.value.(acks := [])));
    }

    /** The audit record, once; acks still queued are counted first. */
    method EmitFinished()
      modifies this, stage
      ensures View() == C.EmitFinished(old(View()))
    {
      hide C.Note, Sum, SatAdd;
      if command.None? || finishedEmitted {
        return;
      }
      NoAcks(bytesReceived);
      finishedEmitted := true;
      if inn.child.Some? {
        DrainAcks();
      }
      Note(Finished(out.bytesSent, bytesReceived));
    }

    method Reply(wantReply: bool, success: bool) returns (o: Outcome)
      modifies stage
      ensures Agrees(o, View(), C.Reply(old(View()), wantReply, success))
    {
      o := Done;
      if wantReply {
        o := SendMsg(if success then Success else ChannelMsg.Failure);
      }
    }

    method OnOpen(m: Inbound) returns (o: Outcome)
      requires m.Open?
      modifies this, stage
      ensures Agrees(o, View(), C.OnOpen(old(View()), m)) && deferred == old(deferred)
    {
      hide C.Send, C.Fail, C.Note, Ascii, Accepted;
      AcceptedParts(Fields(), m);
      if state != BeforeOpen {
        o := Send(OpenFailure(m.sender, 1, Ascii("one channel only")));
      } else if m.ctype != Ascii("session") {
        o := Send(OpenFailure(m.sender, 3, Ascii("unknown channel type")));
      } else if m.maxPacket == 0 {
        o := Fail("zero-max-packet-size");
      } else {
        AcceptOpen(m);
        Note(Entry.Opened(m.sender, m.window, m.maxPacket));
        o := SendMsg(OpenConfirmation);
      }
    }

    method AcceptOpen(m: Inbound)
      requires m.Open?
      modifies this`out, this`inn, this`state
      ensures Fields() == Accepted(old(Fields()), m)
    {
      out := out.(peerChan := m.sender, window := m.window, maxPacket := m.maxPacket);
      inn := inn.(window := INITIAL_WINDOW);
      state := ChannelState.Idle;
    }

    method AcceptCommand(cmd: Bytes)
      modifies this, stage
      ensures View() == C.Note(old(View()).(d := Commanded(old(Fields()), cmd)), Started(cmd))
      ensures deferred == old(deferred)
    {
      hide C.Note;
      var pending := pty;
      pty := false;
      command := Some(cmd);
      onPty := pending;
      Note(Started(cmd));
    }

    method Spawn(spawns: bool)
      modifies this
      ensures Fields() == Spawned(old(Fields()), spawns)
    {
      if spawns {
        inn := inn.(child := Some(Child(true, true, [], [], [], false, false, false)));
        state := Running;
      } else {
        exitStatus := Some(EXIT_SPAWN_FAILED);
        childOutClosed := true;
        consumedClosed := true;
        state := Draining;
      }
    }

    method Start(cmd: Bytes, wantReply: bool, host: Host) returns (o: Outcome)
      modifies this, stage
      ensures Agrees(o, View(), C.Start(old(View()), cmd, wantReply, host)) && deferred == old(deferred)
    {
      hide C.Reply, C.Note;
      AcceptCommand(cmd);
      o := Reply(wantReply, true);
      if o.Done? {
        Spawn(host.spawns);
        if !host.spawns {
          Note(ChildExit(EXIT_SPAWN_FAILED, None));
          Note(OutputEnded);
        }
      }
    }

    method OnPtyReq(rest: Bytes, wantReply: bool, host: Host) returns (o: Outcome)
      modifies this, stage
      ensures Agrees(o, View(), C.OnPtyReq(old(View()), rest, wantReply, host)) && deferred == old(deferred)
    {
      hide C.Reply, C.Fail, GetString, Take;
      var term := GetString(rest, 64);
      var size := if term.Ok? then Take(term.value.rest, 16) else Err(Truncated);
      var modes := if size.Ok? then GetString(size.value.rest, 1024) else Err(Truncated);
      if modes.Err? {
        o := Fail("malformed-pty-req");
        return;
      }
      if !host.modesParse {
        o := Fail("truncated-terminal-mode");
        return;
      }
      var granted := host.ptyPermitted && state == ChannelState.Idle && !pty && host.helper && host.termValid
          && host.ptyAllocates;
      if granted {
        pty := true;
      }
      o := Reply(wantReply, granted);
    }

    method OnExec(rest: Bytes, wantReply: bool, host: Host) returns (o: Outcome)
      modifies this, stage
      ensures Agrees(o, View(), C.OnExec(old(View()), rest, wantReply, host)) && deferred == old(deferred)
    {
      hide C.Fail, C.Start, GetString;
      var cmd := GetString(rest, MAX_DATA);
      if cmd.Err? {
        o := Fail("malformed-exec-request");
      } else if !host.utf8(cmd.value.value) {
        o := Fail("non-utf8-command");
      } else {
        o := Start(cmd.value.value, wantReply, host);
      }
    }

    method OnSubsystem(rest: Bytes, wantReply: bool, host: Host) returns (o: Outcome)
      modifies this, stage
      ensures Agrees(o, View(), C.OnSubsystem(old(View()), rest, wantReply, host)) && deferred == old(deferred)
    {
      hide C.Reply, C.Fail, C.Start, GetString, Ascii;
      var name := GetString(rest, 64);
      if name.Err? {
        o := Fail("malformed-subsystem");
      } else if name.value.value == Ascii("sftp") && state == ChannelState.Idle && !pty && host.helper {
        o := Start(Ascii("sftp"), wantReply, host);
      } else {
        o := Reply(wantReply, false);
      }
    }

    method OnWindowChange(rest: Bytes, wantReply: bool, host: Host) returns (o: Outcome)
      modifies stage
      ensures Agrees(o, View(), C.OnWindowChange(old(View()), rest, wantReply, host))
    {
      hide C.Reply, C.Fail;
      if |rest| < 16 {
        o := Fail("malformed-window-change");
      } else {
        o := Reply(wantReply, (pty || (inn.child.Some? && onPty)) && host.resizes);
      }
    }

    method OnRequest(m: Inbound, host: Host) returns (o: Outcome)
      requires m.Request?
      modifies this, stage
      ensures Agrees(o, View(), C.OnRequest(old(View()), m, host)) && deferred == old(deferred)
    {
      hide C.Reply, C.Fail, C.Start, C.OnExec, C.OnSubsystem, C.OnPtyReq, C.OnWindowChange, Ascii;
      if m.recipient != LOCAL_CHANNEL {
        o := Fail("unknown-channel");
      } else if m.rtype == Ascii("exec") && state == ChannelState.Idle {
        o := OnExec(m.rest, m.wantReply, host);
      } else if m.rtype == Ascii("shell") && state == ChannelState.Idle {
        o := Start([], m.wantReply, host);
      } else if m.rtype == Ascii("subsystem") {
        o := OnSubsystem(m.rest, m.wantReply, host);
      } else if m.rtype == Ascii("pty-req") {
        o := OnPtyReq(m.rest, m.wantReply, host);
      } else if m.rtype == Ascii("window-change") {
        o := OnWindowChange(m.rest, m.wantReply, host);
      } else {
        o := Reply(m.wantReply, false);
      }
    }

    method OnData(recipient: U32, data: Str) returns (o: Outcome)
      modifies this, stage
      ensures Agrees(o, View(), C.OnData(old(View()), recipient, data)) && deferred == old(deferred)
    {
      hide C.Fail, C.Note;
      o := Done;
      if recipient != LOCAL_CHANNEL {
        o := Fail("unknown-channel");
      } else if state == ServerClosed {
      } else if inn.clientEof {
        o := Fail("data-after-eof");
      } else if |data| > inn.window {
        o := Fail("inbound-window-exceeded");
      } else {
        inn := inn.(window := inn.window - |data|, line := inn.line.(accepted := inn.line.accepted + data,
                    late := inn.line.late || (state != ChannelState.Idle && data != [])));
        if state == ChannelState.Idle {
          if inn.preExec != [] {
            inn := inn.(line := inn.line.(crowd := inn.line.crowd + data));
          }
          inn := inn.(preExec := inn.preExec + [data]);
        } else if inn.child.Some? {
          inn := inn.(pending := Some(if inn.pending.Some? then inn.pending.value + data else data));
        } else {
          inn := inn.(lost := inn.lost + |data|);
        }
        Note(Took(data));
      }
    }

    method OnAdjust(recipient: U32, add: U32) returns (o: Outcome)
      modifies this, stage
      ensures Agrees(o, View(), C.OnAdjust(old(View()), recipient, add)) && deferred == old(deferred)
    {
      hide C.Fail, C.Note;
      o := Done;
      if recipient != LOCAL_CHANNEL {
        o := Fail("unknown-channel");
        return;
      }
      out := out.(window := out.window + add);
      if out.window >= U32_LIMIT {
        o := Fail("window-overflow");
        return;
      }
      Note(Adjusted(add));
    }

    method OnEof(recipient: U32) returns (o: Outcome)
      modifies this, stage
      ensures Agrees(o, View(), C.OnEof(old(View()), recipient)) && deferred == old(deferred)
    {
      hide C.Fail, C.Note;
      o := Done;
      if recipient != LOCAL_CHANNEL {
        o := Fail("unknown-channel");
      } else {
        inn := inn.(clientEof := true);
        Note(ClientEof);
      }
    }

    method Abandon()
      modifies this
      ensures Fields() == Abandoned(old(Fields()))
    {
      earlyClose := true;
      out := out.(pending := None);
      if inn.child.Some? {
        inn := inn.(child := Some(CloseStdin(inn.child.value).(killed := true)));
      } else {
        childOutClosed := true;
      }
      state := Draining;
    }

    method OnClose(recipient: U32) returns (o: Outcome)
      modifies this, stage
      ensures Agrees(o, View(), C.OnClose(old(View()), recipient)) && deferred == old(deferred)
    {
      hide C.Fail, C.Note;
      o := Done;
      if recipient != LOCAL_CHANNEL {
        o := Fail("unknown-channel");
        return;
      }
      if state == ServerClosed {
        state := Closed;
        return;
      }
      Abandon();
      Note(ClientClosed);
    }

    method HandleInbound(payload: Bytes, host: Host) returns (o: Outcome)
      modifies this, stage
      ensures Agrees(o, View(), C.HandleInbound(old(View()), payload, host)) && deferred == old(deferred)
    {
      hide C.Fail, C.Send, C.OnOpen, C.OnRequest, C.OnData, C.OnAdjust, C.OnEof, C.OnClose, Decode;
      var m := Decode(payload);
      o := Done;
      if state == BeforeOpen && NamesChannel(m) {
        o := Fail("channel-message-before-open");
        return;
      }
      match m
      case Malformed(_, reason) => o := Fail(reason);
      case Open(_, _, _, _) => o := OnOpen(m);
      case Request(_, _, _, _) => o := OnRequest(m, host);
      case Stdin(recipient, data) => o := OnData(recipient, data);
      case Adjust(recipient, add) => o := OnAdjust(recipient, add);
      case PeerEof(recipient) => o := OnEof(recipient);
      case PeerClose(recipient) => o := OnClose(recipient);
      case GlobalRequest(want) =>
        if want {
          o := Send(RequestFailure);
        }
      case Tolerated =>
      case PeerDisconnect => o := Broken(Rejected("peer-disconnected"));
    }

    /** During a re-key: handled at once when no reply can follow, else held back. */
    method PassToChannel(payload: Bytes, host: Host) returns (o: Outcome)
      modifies this, stage
      ensures Agrees(o, View(), Pass(old(View()), payload, host))
    {
      hide C.Fail, C.Note, C.HandleInbound;
      if InboundOnly(payload) {
        o := HandleInbound(payload, host);
      } else if |deferred| >= MAX_DEFERRED {
        o := Fail("too-many-deferred-during-rekey");
      } else {
        deferred := deferred + [payload];
        Note(Deferred(payload));
        o := Done;
      }
    }

    /** Takes the first message from the hold queue and handles it. */
    method HandleDeferred(host: Host) returns (o: Outcome)
      requires deferred != []
      modifies this, stage
      ensures var s := old(View());
              Agrees(o, View(), C.HandleInbound(C.Note(s.(d := s.d.(deferred := s.d.deferred[1..])),
                                                       Undeferred(s.d.deferred[0])), s.d.deferred[0], host))
      ensures deferred == old(deferred)[1..]
    {
      hide C.Note, C.HandleInbound;
      var payload := deferred[0];
      deferred := deferred[1..];
      Note(Undeferred(payload));
      o := HandleInbound(payload, host);
    }

    method DrainDeferred(host: Host) returns (o: Outcome)
      modifies this, stage
      ensures Agrees(o, View(), C.DrainDeferred(old(View()), host))
    {
      hide C.Note, C.HandleInbound;
      while deferred != []
        invariant C.DrainDeferred(View(), host) == C.DrainDeferred(old(View()), host)
        decreases |deferred|
      {
        ghost var s := View();
        o := HandleDeferred(host);
        DrainStep(s, host);
        if o.Broken? {
          return;
        }
        assert View().(d := View().d.(deferred := deferred)) == View();
      }
      o := Done;
    }

    method CountPacket(payload: Bytes, now: nat)
      modifies stage
      ensures View() == Taken(old(View()), payload, now)
    {
      hide Received, Append;
      stage.Record(Read(|payload|, now));
      stage.Opened(payload);
    }

    method OnPacket(payload: Bytes, host: Host) returns (o: Outcome)
      modifies this, stage
      ensures Agrees(o, View(), C.OnPacket(old(View()), payload, host))
    {
      hide C.HandleInbound, Pass, C.DrainDeferred, Transport.StepRekey, Taken;
      CountPacket(payload, host.env.now);
      if stage.IsActive() || (payload != [] && payload[0] == MSG_KEXINIT) {
        var what;
        o, what := stage.StepRekey(payload, host.env);
        if o.Done? {
          match what
          case PassToChannel => o := PassToChannel(payload, host);
          case Completed => o := DrainDeferred(host);
          case Continued =>
        }
      } else {
        o := HandleInbound(payload, host);
      }
    }

    /** Phases (A) to (E). */
    method Turn(host: Host) returns (o: Outcome)
      modifies this, stage
      ensures Agrees(o, View(), C.Turn(old(View()), host))
    {
      hide C.FlushOutput, HandOver, Replenish, Transport.BeginRekey, C.SendTerminal;
      if stage.IsActive() {
        HandoffStdin();
        return Done;
      }
      o := FlushOutput();
      if o.Broken? {
        return;
      }
      HandoffStdin();
      o := ReplenishWindow();
      if o.Broken? {
        return;
      }
      if stage.IsDue(host.env.now) && MayRekey(state) {
        o := stage.BeginRekey(host.env);
        if o.Broken? {
          return;
        }
      }
      if !stage.IsActive() && state == Draining && childOutClosed && out.pending.None? {
        o := SendTerminal();
      }
    }

    predicate WantsOutput()
      reads this, stage
      ensures WantsOutput() == WantOutput(View())
    {
      out.pending.None? && MayEmitOutput(state) && !stage.IsActive() && inn.child.Some?
    }

    method OnChunk(kind: Stream, data: Str)
      modifies this, stage
      ensures View() == C.OnChunk(old(View()), kind, data)
    {
      hide Log;
      Note(ChildOutput(kind, data));
      if !earlyClose {
        out := out.(pending := Some(PendingOut(kind, data)));
      }
    }

    method OnExited(code: U32, signal: Option<(Str, bool)>)
      requires inn.child.Some?
      modifies this`inn, this`exitStatus, this`exitSignal, this`state
      ensures Fields() == C.OnExited(old(Fields()), code, signal)
    {
      inn := inn.(child := Some(inn.child.value.(exitReported := true)));
      if exitStatus.None? {
        exitStatus := Some(code);
        exitSignal := signal;
      }
      if state == Running {
        state := Draining;
      }
    }

    method TakeAck()
      requires inn.child.Some? && inn.child.value.acks != []
      modifies this`bytesReceived, this`inn
      ensures Fields() == old(Fields()).(inn := AckTaken(old(inn)),
                          bytesReceived := SatAdd(old(bytesReceived), old(inn).child.value.acks[0], U64_LIMIT))
    {
      bytesReceived := SatAdd(bytesReceived, inn.child.value.acks[0], U64_LIMIT);
      inn := AckTaken(inn);
    }

    /** The pump's own progress. */
    method OnPumpEvent(e: Event, host: Host) returns (o: Outcome)
      requires Enabled(View(), e) && (e.PumpTakes? || e.PumpWrites? || e.PumpEnds?)
      modifies this, stage
      ensures Agrees(o, View(), React(old(View()), e, host))
    {
      hide C.OnPacket, C.Note, PumpTook, PumpWrote, PumpEnded;
      o := Done;
      if e.PumpTakes? {
        inn := PumpTook(inn);
      } else if e.PumpEnds? {
        inn := PumpEnded(inn);
      } else {
        ghost var written := inn.child.value.inflight[..e.n];
        inn := PumpWrote(inn, e.n);
        Note(Delivered(written));
      }
    }

    /** What the child's output tasks report. */
    method OnOutputEvent(e: Event, host: Host) returns (o: Outcome)
      requires Enabled(View(), e) && (e.Chunk? || e.Exited? || e.OutputEnds?)
      modifies this, stage
      ensures Agrees(o, View(), React(old(View()), e, host))
    {
      hide C.OnChunk, C.OnExited, C.OnPacket, C.Note;
      o := Done;
      if e.Chunk? {
        OnChunk(e.kind, e.data);
      } else if e.Exited? {
        OnExited(e.code, e.signal);
        Note(ChildExit(e.code, e.signal));
      } else {
        inn := inn.(child := Some(inn.child.value.(outputEnded := true)));
        childOutClosed := true;
        Note(OutputEnded);
      }
    }

    /** The consumed acks. */
    method OnAckEvent(e: Event, host: Host) returns (o: Outcome)
      requires Enabled(View(), e) && (e.Ack? || e.AcksEnd?)
      modifies this
      ensures Agrees(o, View(), React(old(View()), e, host))
    {
      hide C.OnPacket, AckTaken, SatAdd;
      o := Done;
      if e.Ack? {
        TakeAck();
      } else {
        consumedClosed := true;
      }
    }

    /** (F): the event the turn waited for. */
    method OnEvent(e: Event, host: Host) returns (o: Outcome)
      requires Enabled(View(), e)
      modifies this, stage
      ensures Agrees(o, View(), React(old(View()), e, host))
    {
      hide C.OnPacket, C.OnChunk, C.OnExited, RekeyTimeout, Possible;
      match e
      case Packet(payload) => o := OnPacket(payload, host);
      case DeadlinePasses => o := stage.Timeout();
      case ReadFails => o := Broken(Io);
      case Wakes => o := Done;
      case PumpTakes => o := OnPumpEvent(e, host);
      case PumpWrites(_) => o := OnPumpEvent(e, host);
      case PumpEnds => o := OnPumpEvent(e, host);
      case Ack => o := OnAckEvent(e, host);
      case AcksEnd => o := OnAckEvent(e, host);
      case _ => o := OnOutputEvent(e, host);
    }

    /** `drive`, until the channel is closed, the connection fails or no event
        is left. The events are what the loop's `select!` delivers. */
    method Drive(events: seq<(Event, Host)>) returns (e: Ending)
      modifies this, stage
      ensures match C.Drive(old(View()), events)
              case Live(s) => e == StillLive && View() == s
              case Returned(s) => e == CleanReturn && View() == s
              case Failed(s, cause) => e == Ending.Failure(cause) && View() == s
    {
      hide C.Turn, C.EmitFinished, React, Possible;
      for i := 0 to |events|
        invariant C.Drive(View(), events[i..]) == C.Drive(old(View()), events)
      {
        var event, host := events[i].0, events[i].1;
        assert events[i..][1..] == events[i + 1..];
        var o := Turn(host);
        if o.Broken? {
          return Ending.Failure(o.cause);
        }
        if !stage.IsActive() && state == Closed {
          EmitFinished();
          return CleanReturn;
        }
        if Possible(inn.child, WantsOutput(), consumedClosed, stage.IsActive(), event) {
          o := OnEvent(event, host);
          if o.Broken? {
            return Ending.Failure(o.cause);
          }
        }
      }
      return StillLive;
    }
  }

  /** What a client and an auditor may rely on, read off the history `h` of a
      connection served from its first message to the driver's drop; `resting`
      when its loop was last woken for nothing and waits. */
  ghost predicate Served(first: SealView, h: History, e: Ending, resting: bool) {
    // the wire obeys the exchange, the sealing, the channel's order and the windows
    && Exchange(h).ok && Seals(first, h).ok && Order(h).ok && Output(h).ok && Audit(h).ok && Intake(h).ok
    // one CLOSE at most, exactly one when the loop returns, and no data or exit report after it
    && (forall i, j :: 0 <= i < j < |h| && IsClose(h[i]) ==> !IsClose(h[j]) && !IsData(h[j]) && !IsExitReport(h[j]))
    && (e.CleanReturn? ==> exists i :: 0 <= i < |h| && IsClose(h[i]))
    // every start has its finish, with true counts
    && Count(h, true) == Count(h, false) <= 1
    && (forall i :: 0 <= i < |h| && h[i].Finished? ==>
          && h[i].sent == SatAdd(0, |Output(h).sent|, U64_LIMIT)
          && h[i].received == SatAdd(0, |Intake(h).delivered|, U64_LIMIT))
    // output and input
    && Output(h).sent <= Output(h).produced && |Output(h).sent| <= Output(h).granted
    && multiset(Intake(h).delivered) <= multiset(Intake(h).accepted)
    && (Crowd(h) == [] || LateInput(h) == [] ==> InOrder(h))
    // a loop at rest outside a re-key has sent what it may, and closed what is finished
    && (resting && Exchange(h).kex == 0 ==>
          Duties.OutputDone(Order(h), Output(h)) && !Duties.Finished(Order(h), Output(h)))
  }

  /** The last thing that happened was a wake-up for nothing. */
  predicate Rests(events: seq<(Event, Host)>) { events != [] && events[|events| - 1].0.Wakes? }

  lemma WokenTurn(n: Session, host: Host)
    requires Iterate(n, Wakes, host).Live?
    ensures Turn(n, host).Go? && Iterate(n, Wakes, host).s == Turn(n, host).st
  {
    hide Turn, C.EmitFinished;
  }

  lemma RekeyTurn(n: Session, host: Host)
    requires RekeyActive(n.t)
    ensures Turn(n, host).st.t == n.t
  {
    hide Handoff;
  }

  lemma DropIsSilent(s: Session)
    ensures var h, g := s.t.history, C.EmitFinished(s).t.history;
            Order(g) == Order(h) && Output(g) == Output(h) && Exchange(g) == Exchange(h)
  {
    hide Seals, Order, Output, Exchange, Audit, Intake, Sum, SatAdd;
  }

  lemma RestIsDone(first: SealView, s: Session, events: seq<(Event, Host)>)
    requires Fresh(first, s) && C.Drive(s, events).Live? && Rests(events)
    ensures var h := Transcript(s, events);
            Exchange(h).kex == 0 ==>
              Duties.OutputDone(Order(h), Output(h)) && !Duties.Finished(Order(h), Output(h))
  {
    hide Fresh, Turn, Iterate, Order, Output, Exchange, C.EmitFinished, Duties.OutputDone, Duties.Finished;
    hide Duties.StdinDone, LoopInv, Metering.Metered, Metering.InService;
    var front, last := events[..|events| - 1], events[|events| - 1];
    assert events == front + [last];
    DriveSplit(s, front, [last]);
    var n := C.Drive(s, front).s;
    assert [last][1..] == [];
    WokenTurn(n, last.1);
    var m := Turn(n, last.1).st;
    assert C.Drive(s, events).s == m;
    DropIsSilent(m);
    Duties.ComesKeeps(first, s, front, n);
    if n.t.phase.Idle? {
      Duties.TurnDischarges(first, s, front, n, last.1);
    } else {
      RekeyTurn(n, last.1);
    }
  }

  lemma ReturnIsDropped(first: SealView, s: Session, events: seq<(Event, Host)>)
    requires Fresh(first, s) && C.Drive(s, events).Returned?
    ensures Transcript(s, events) == C.Drive(s, events).s.t.history
  {
    hide Fresh, C.Drive, Inv, Ended, Order;
    FreshKeeps(first, s);
    DriveKeeps(first, s, events);
  }

  lemma RunServes(first: SealView, s: Session, events: seq<(Event, Host)>, e: Ending)
    requires Fresh(first, s) && (e.CleanReturn? ==> C.Drive(s, events).Returned?)
    requires e.StillLive? ==> C.Drive(s, events).Live?
    ensures Served(first, Transcript(s, events), e, e.StillLive? && Rests(events))
  {
    hide Fresh, C.Drive, Dropped, Exchange, Seals, Order, Output, Audit, Intake, IsClose, IsData;
    hide IsExitReport, SatAdd, Count;
    hide Crowd, LateInput, InOrder, Counted, Rests, Duties.OutputDone, Duties.Finished;
    if e.StillLive? && Rests(events) {
      RestIsDone(first, s, events);
    }
    RunIsClean(first, s, events);
    var h := Transcript(s, events);
    forall i, j | 0 <= i < j < |h| && IsClose(h[i]) ensures !IsClose(h[j]) && !IsData(h[j]) && !IsExitReport(h[j]) {
      CloseIsLast(first, s, events, i, j);
    }
    forall i | 0 <= i < |h| && h[i].Finished?
      ensures h[i].sent == SatAdd(0, |Output(h).sent|, U64_LIMIT)
              && h[i].received == SatAdd(0, |Intake(h).delivered|, U64_LIMIT)
    {
      RecordIsTrue(first, s, events, i);
    }
    if e.CleanReturn? {
      ReturnIsDropped(first, s, events);
      ReturnMeansClosed(first, s, events);
    }
    AuditPairs(first, s, events);
    OutputIsFaithful(first, s, events, 0);
    StdinIsFaithful(first, s, events);
  }

  /** A connection from the authenticated transport to its end: the driver is
      made, driven over whatever happens, and dropped. */
  method Serve(stage: Stage, events: seq<(Event, Host)>, ghost first: SealView) returns (e: Ending)
    requires Fresh(first, Session(FRESH, stage.View()))
    modifies stage
    ensures Served(first, stage.history, e, e.StillLive? && Rests(events))
    ensures stage.history == Transcript(Session(FRESH, old(stage.View())), events)
  {
    var driver := new ChannelDriver(stage);
    ghost var s := driver.View();
    e := driver.Drive(events);
    driver.EmitFinished();
    hide Fresh, C.Drive, C.EmitFinished, Served, Rests;
    RunServes(first, s, events, e);
  }
}
