/** The channel driver (`channel.rs`) as functions on a session value: one
function per method, and the events the `drive` loop waits for. */
module Channel {
  import opened Wire
  import opened Trace
  import opened Transport

  const CREDIT_BATCH: nat := 1024 * 1024
  const STDIN_QUEUE: nat := 8
  const EXIT_SPAWN_FAILED: U32 := 127

  datatype ChannelState = BeforeOpen | Idle | Running | Draining | ServerClosed | Closed

  predicate MayEmitOutput(s: ChannelState) { s.Running? || s.Draining? }

  /** States in which the driver starts a re-key. */
  predicate MayRekey(s: ChannelState) { s.Running? || s.Idle? || s.Draining? }

  datatype PendingOut = PendingOut(kind: Stream, rest: Str)

  /** The child's tasks as the driver sees them (`ChildIo`): the stdin queue
      and pump, the consumed acks under way, and the output channel. */
  datatype Child = Child(
    stdinOpen: bool, pumpAlive: bool,
    queue: seq<Bytes>, inflight: Bytes, acks: seq<U32>,
    killed: bool, exitReported: bool, outputEnded: bool)

  /** The client's input so far: what was accepted, what the child got, the
      bytes of packets queued before the exec behind the first one, and whether
      data came after it. */
  datatype Line = Line(accepted: Bytes, delivered: Bytes, crowd: Bytes, late: bool)

  /** The inbound half: the window the client may still use, the credit not
      yet returned, stdin waiting for the child, and the child itself. `lost`
      counts accepted bytes that no child can consume any more. */
  datatype Inflow = Inflow(
    window: U32, credit: U32,
    pending: Option<Bytes>, preExec: seq<Bytes>,
    clientEof: bool, child: Option<Child>, lost: nat, line: Line)

  /** The outbound half: the client's channel, window and packet limits, and
      the chunk being sent. */
  datatype Outflow = Outflow(peerChan: U32, window: nat, maxPacket: U32, pending: Option<PendingOut>, bytesSent: U64)

  /** The driver's fields, grouped by direction. */
  datatype Driver = Driver(
    state: ChannelState,
    inn: Inflow,
    out: Outflow,
    earlyClose: bool,
    exitStatus: Option<U32>, exitSignal: Option<(Str, bool)>,
    childOutClosed: bool, consumedClosed: bool,
    command: Option<Bytes>,
    pty: bool, onPty: bool,
    bytesReceived: U64,
    finishedEmitted: bool,
    deferred: seq<Bytes>)

  const FRESH: Driver :=
    Driver(BeforeOpen, Inflow(0, 0, None, [], false, None, 0, Line([], [], [], false)), Outflow(0, 0, 0, None, 0),
           false, None, None, false, false, None, false, false, 0, false, [])

  datatype Session = Session(d: Driver, t: Link)

  /** What the channel layer takes from its surroundings for one event. */
  datatype Host = Host(
    env: Env,
    utf8: Bytes -> bool,
    ptyPermitted: bool, helper: bool, modesParse: bool, termValid: bool, ptyAllocates: bool, resizes: bool,
    spawns: bool)

  // ---- plumbing ----

  function Send(s: Session, f: Frame): Step<Session> {
    match Write(s.t, f)
    case Go(t) => Go(s.(t := t))
    case Stop(t, cause) => Stop(s.(t := t), cause)
  }

  function SendMsg(s: Session, msg: ChannelMsg): Step<Session> { Send(s, Frame.Channel(s.d.out.peerChan, msg)) }

  function Fail(s: Session, reason: string): (r: Step<Session>)
    requires |reason| < 64
    ensures r.Stop?
  {
    var v := Violation(s.t, reason);
    Stop(s.(t := v.st), v.cause)
  }

  function Note(s: Session, e: Entry): Session { s.(t := Log(s.t, e)) }

  // ---- (A) flush_output ----

  function Min(a: nat, b: nat): nat { if a <= b then a else b }

  /** The most one data frame may carry now. */
  function Cap(o: Outflow): nat { Min(o.window, Min(o.maxPacket, MAX_DATA)) }

  predicate CanFlush(d: Driver) {
    MayEmitOutput(d.state) && d.out.pending.Some? && Min(|d.out.pending.value.rest|, Cap(d.out)) > 0
  }

  /** The outbound half after one data frame. */
  function Flushed(o: Outflow): Outflow
    requires o.pending.Some?
  {
    var p := o.pending.value;
    var n := Min(|p.rest|, Cap(o));
    o.(window := o.window - n, bytesSent := SatAdd(o.bytesSent, n, U64_LIMIT),
       pending := if n == |p.rest| then None else Some(PendingOut(p.kind, p.rest[n..])))
  }

  function FlushFrame(o: Outflow): ChannelMsg
    requires o.pending.Some?
  {
    Data(o.pending.value.kind, o.pending.value.rest[..Min(|o.pending.value.rest|, Cap(o))])
  }

  function PendingLen(o: Outflow): nat { if o.pending.Some? then |o.pending.value.rest| else 0 }

  function FlushOutput(s: Session): Step<Session>
    decreases PendingLen(s.d.out)
  {
    if !CanFlush(s.d) then Go(s)
    else
      var sent :- SendMsg(s, FlushFrame(s.d.out));
      FlushOutput(sent.(d := s.d.(out := Flushed(s.d.out))))
  }

  // ---- (B) handoff_stdin ----

  function CloseStdin(c: Child): Child { c.(stdinOpen := false) }

  /** The pending slot, refilled from what arrived before the exec. */
  function Refill(i: Inflow): Inflow {
    if i.pending.None? && i.preExec != [] then i.(pending := Some(i.preExec[0]), preExec := i.preExec[1..]) else i
  }

  /** `try_send_stdin` gives the chunk back: the pump is gone or its queue full. */
  predicate Blocked(i: Inflow)
    requires i.child.Some?
  {
    i.pending.Some? && i.child.value.stdinOpen && (!i.child.value.pumpAlive || |i.child.value.queue| >= STDIN_QUEUE)
  }

  /** The chunk goes to the pump, or nowhere once stdin is closed. */
  function Deliver(i: Inflow): Inflow
    requires i.child.Some?
  {
    if i.pending.None? then i
    else if !i.child.value.stdinOpen then i.(pending := None, lost := i.lost + |i.pending.value|)
    else i.(pending := None, child := Some(i.child.value.(queue := i.child.value.queue + [i.pending.value])))
  }

  function HonourEof(i: Inflow): Inflow
    requires i.child.Some?
  {
    if i.clientEof && i.pending.None? && i.preExec == [] then i.(child := Some(CloseStdin(i.child.value))) else i
  }

  function Handoff(i: Inflow): Inflow {
    if i.child.None? then i
    else
      var r := Refill(i);
      if Blocked(r) then r else HonourEof(Deliver(r))
  }

  function HandOver(s: Session): Session { s.(d := s.d.(inn := Handoff(s.d.inn))) }

  // ---- (C) replenish_window ----

  function Credited(i: Inflow): Inflow { i.(window := SatAdd(i.window, i.credit, U32_LIMIT), credit := 0) }

  function Replenish(s: Session): Step<Session> {
    if s.d.inn.credit < CREDIT_BATCH then Go(s)
    else
      var sent :- SendMsg(s, WindowAdjust(s.d.inn.credit));
      Go(sent.(d := s.d.(inn := Credited(s.d.inn))))
  }

  // ---- (E) the close sequence ----

  predicate ReadyToClose(d: Driver) { d.state.Draining? && d.childOutClosed && d.out.pending.None? }

  function SendReport(s: Session): Step<Session> {
    if s.d.exitSignal.Some? then SendMsg(s, ExitSignal(s.d.exitSignal.value.0, s.d.exitSignal.value.1))
    else if s.d.exitStatus.Some? then SendMsg(s, ExitStatus(s.d.exitStatus.value))
    else Go(s)
  }

  function SendEofClose(s: Session): Step<Session> {
    var s :- SendMsg(s, Eof);
    SendMsg(s, Close)
  }

  function SendTerminal(s: Session): Step<Session> {
    if s.d.earlyClose then
      var s :- SendMsg(s, Close);
      Go(s.(d := s.d.(state := Closed)))
    else
      var s :- SendReport(s);
      var s :- SendEofClose(s);
      Go(s.(d := s.d.(state := ServerClosed)))
  }

  function Sum(acks: seq<U32>): nat { if acks == [] then 0 else acks[0] + Sum(acks[1..]) }

  /** `emit_finished`, also run when the driver is dropped. */
  function EmitFinished(s: Session): Session {
    if s.d.command.None? || s.d.finishedEmitted then s
    else
      var c := s.d.inn.child;
      var drained := if c.Some? then Sum(c.value.acks) else 0;
      var d := s.d.(finishedEmitted := true, bytesReceived := SatAdd(s.d.bytesReceived, drained, U64_LIMIT),
                    inn := s.d.inn.(child := if c.Some? then Some(c.value.(acks := [])) else None));
      Note(s.(d := d), Finished(d.out.bytesSent, d.bytesReceived))
  }

  // ---- inbound messages ----

  datatype Inbound =
    | Malformed(msg: Byte, reason: string)
    | Open(ctype: Bytes, sender: U32, window: U32, maxPacket: U32)
    | Request(recipient: U32, rtype: Bytes, wantReply: bool, rest: Bytes)
    | Stdin(recipient: U32, data: Str)
    | Adjust(recipient: U32, add: U32)
    | PeerEof(recipient: U32)
    | PeerClose(recipient: U32)
    | GlobalRequest(wantReply: bool)
    | Tolerated
    | PeerDisconnect

  function OrElse(r: Result<Inbound>, msg: Byte, reason: string): Inbound {
    if r.Ok? then r.value else Malformed(msg, reason)
  }

  function DecodeOpen(r: Bytes): Result<Inbound> {
    var ctype :- GetString(r, 64);
    var sender :- GetU32(ctype.rest);
    var window :- GetU32(sender.rest);
    var maxPacket :- GetU32(window.rest);
    Ok(Open(ctype.value, sender.value, window.value, maxPacket.value))
  }

  function DecodeRequest(r: Bytes): Result<Inbound> {
    var recipient :- GetU32(r);
    var rtype :- GetString(recipient.rest, 64);
    var want :- GetBoolean(rtype.rest);
    Ok(Request(recipient.value, rtype.value, want.value, want.rest))
  }

  function DecodeData(r: Bytes): (m: Result<Inbound>)
    ensures m.Ok? ==> m.value.Stdin? && |m.value.data| <= MAX_DATA
  {
    var recipient :- GetU32(r);
    var data :- GetString(recipient.rest, MAX_DATA);
    Ok(Stdin(recipient.value, data.value))
  }

  function DecodeGlobal(r: Bytes): Result<Inbound> {
    var name :- GetString(r, 64);
    var want :- GetBoolean(name.rest);
    Ok(GlobalRequest(want.value))
  }

  function DecodeU32(r: Bytes): Result<U32> { var g :- GetU32(r); Ok(g.value) }

  function DecodeAdjust(r: Bytes): Result<Inbound> {
    var recipient :- GetU32(r);
    var add :- GetU32(recipient.rest);
    Ok(Adjust(recipient.value, add.value))
  }

  /** The payload's message, with the reason a malformed one is refused for. */
  function Decode(payload: Bytes): (m: Inbound)
    ensures m.Stdin? ==> |m.data| <= MAX_DATA
    ensures m.Malformed? ==> |m.reason| < 64
  {
    if payload == [] then Malformed(0, "empty-packet")
    else
      var msg, r := payload[0], payload[1..];
      if msg == 90 then OrElse(DecodeOpen(r), msg, "malformed-channel-open")
      else if msg == 98 then OrElse(DecodeRequest(r), msg, "malformed-channel-request")
      else if msg == 94 then OrElse(DecodeData(r), msg, "malformed-channel-data")
      else if msg == 93 then OrElse(DecodeAdjust(r), msg, "malformed-window-adjust")
      else if msg == 96 then
        var g := DecodeU32(r); if g.Ok? then PeerEof(g.value) else Malformed(msg, "malformed-channel-eof")
      else if msg == 97 then
        var g := DecodeU32(r); if g.Ok? then PeerClose(g.value) else Malformed(msg, "malformed-channel-close")
      else if msg == 80 then OrElse(DecodeGlobal(r), msg, "malformed-global-request")
      else if msg == 2 || msg == 3 || msg == 4 then Tolerated
      else if msg == 1 then PeerDisconnect
      else if msg == 95 then Malformed(msg, "inbound-extended-data")
      else Malformed(msg, "unexpected-channel-message")
  }

  /** Messages that name the channel, refused before it is open. */
  predicate NamesChannel(m: Inbound) {
    m.Request? || m.Stdin? || m.Adjust? || m.PeerEof? || m.PeerClose? || (m.Malformed? && m.msg in {93, 94, 96, 97, 98})
  }

  function Reply(s: Session, wantReply: bool, success: bool): Step<Session> {
    if wantReply then SendMsg(s, if success then Success else Failure) else Go(s)
  }

  function Accepted(d: Driver, m: Inbound): Driver
    requires m.Open?
  {
    d.(out := d.out.(peerChan := m.sender, window := m.window, maxPacket := m.maxPacket),
       inn := d.inn.(window := INITIAL_WINDOW), state := ChannelState.Idle)
  }

  function OnOpen(s: Session, m: Inbound): Step<Session>
    requires m.Open?
  {
    if !s.d.state.BeforeOpen? then Send(s, OpenFailure(m.sender, 1, Ascii("one channel only")))
    else if m.ctype != Ascii("session") then Send(s, OpenFailure(m.sender, 3, Ascii("unknown channel type")))
    else if m.maxPacket == 0 then Fail(s, "zero-max-packet-size")
    else
      SendMsg(Note(s.(d := Accepted(s.d, m)), Entry.Opened(m.sender, m.window, m.maxPacket)), OpenConfirmation)
  }

  function Commanded(d: Driver, command: Bytes): Driver { d.(command := Some(command), onPty := d.pty, pty := false) }

  function Spawned(d: Driver, spawns: bool): Driver {
    if spawns then d.(inn := d.inn.(child := Some(Child(true, true, [], [], [], false, false, false))),
                      state := Running)
    else d.(exitStatus := Some(EXIT_SPAWN_FAILED), childOutClosed := true, consumedClosed := true, state := Draining)
  }

  /** A child that never ran: its exit and the end of its output at once. */
  function Unspawned(s: Session): Session { Note(Note(s, ChildExit(EXIT_SPAWN_FAILED, None)), OutputEnded) }

  /** `start`: the audit record, the reply, then the spawn. */
  function Start(s: Session, command: Bytes, wantReply: bool, host: Host): Step<Session> {
    var s :- Reply(Note(s.(d := Commanded(s.d, command)), Started(command)), wantReply, true);
    var spawned := s.(d := Spawned(s.d, host.spawns));
    Go(if host.spawns then spawned else Unspawned(spawned))
  }

  function OnPtyReq(s: Session, rest: Bytes, wantReply: bool, host: Host): Step<Session> {
    // string TERM, four uint32, string modes
    var term := GetString(rest, 64);
    var size := if term.Ok? then Take(term.value.rest, 16) else Err(Truncated);
    var modes := if size.Ok? then GetString(size.value.rest, 1024) else Err(Truncated);
    if modes.Err? then Fail(s, "malformed-pty-req")
    else if !host.modesParse then Fail(s, "truncated-terminal-mode")
    else
      var granted := host.ptyPermitted && s.d.state.Idle? && !s.d.pty && host.helper && host.termValid
          && host.ptyAllocates;
      Reply(if granted then s.(d := s.d.(pty := true)) else s, wantReply, granted)
  }

  function OnExec(s: Session, rest: Bytes, wantReply: bool, host: Host): Step<Session> {
    var cmd := GetString(rest, MAX_DATA);
    if cmd.Err? then Fail(s, "malformed-exec-request")
    else if !host.utf8(cmd.value.value) then Fail(s, "non-utf8-command")
    else Start(s, cmd.value.value, wantReply, host)
  }

  function OnSubsystem(s: Session, rest: Bytes, wantReply: bool, host: Host): Step<Session> {
    var name := GetString(rest, 64);
    if name.Err? then Fail(s, "malformed-subsystem")
    else if name.value.value == Ascii("sftp") && s.d.state.Idle? && !s.d.pty && host.helper then
      Start(s, Ascii("sftp"), wantReply, host)
    else Reply(s, wantReply, false)
  }

  function OnWindowChange(s: Session, rest: Bytes, wantReply: bool, host: Host): Step<Session> {
    if |rest| < 16 then Fail(s, "malformed-window-change")
    else Reply(s, wantReply, (s.d.pty || (s.d.inn.child.Some? && s.d.onPty)) && host.resizes)
  }

  function OnRequest(s: Session, m: Inbound, host: Host): Step<Session>
    requires m.Request?
  {
    if m.recipient != LOCAL_CHANNEL then Fail(s, "unknown-channel")
    else if m.rtype == Ascii("exec") && s.d.state.Idle? then OnExec(s, m.rest, m.wantReply, host)
    else if m.rtype == Ascii("shell") && s.d.state.Idle? then Start(s, [], m.wantReply, host)
    else if m.rtype == Ascii("subsystem") then OnSubsystem(s, m.rest, m.wantReply, host)
    else if m.rtype == Ascii("pty-req") then OnPtyReq(s, m.rest, m.wantReply, host)
    else if m.rtype == Ascii("window-change") then OnWindowChange(s, m.rest, m.wantReply, host)
    else Reply(s, m.wantReply, false)
  }

  /** One accepted chunk of stdin: stashed for the child, before or after it
      starts; dropped when the child never ran. */
  function Accept(i: Inflow, idle: bool, data: Str): Inflow
    requires |data| <= i.window
  {
    var line := i.line.(accepted := i.line.accepted + data,
                        crowd := if idle && i.preExec != [] then i.line.crowd + data else i.line.crowd,
                        late := i.line.late || (!idle && data != []));
    var i := i.(window := i.window - |data|, line := line);
    if idle then i.(preExec := i.preExec + [data])
    else if i.child.Some? then i.(pending := Some(if i.pending.Some? then i.pending.value + data else data))
    else i.(lost := i.lost + |data|)
  }

  function OnData(s: Session, recipient: U32, data: Str): Step<Session> {
    if recipient != LOCAL_CHANNEL then Fail(s, "unknown-channel")
    else if s.d.state.ServerClosed? then Go(s)
    else if s.d.inn.clientEof then Fail(s, "data-after-eof")
    else if |data| > s.d.inn.window then Fail(s, "inbound-window-exceeded")
    else Go(Note(s.(d := s.d.(inn := Accept(s.d.inn, s.d.state.Idle?, data))), Took(data)))
  }

  function Widened(d: Driver, add: U32): Driver { d.(out := d.out.(window := d.out.window + add)) }

  function OnAdjust(s: Session, recipient: U32, add: U32): Step<Session> {
    if recipient != LOCAL_CHANNEL then Fail(s, "unknown-channel")
    else if s.d.out.window + add >= U32_LIMIT then Fail(s.(d := Widened(s.d, add)), "window-overflow")
    else Go(Note(s.(d := Widened(s.d, add)), Adjusted(add)))
  }

  function OnEof(s: Session, recipient: U32): Step<Session> {
    if recipient != LOCAL_CHANNEL then Fail(s, "unknown-channel")
    else Go(Note(s.(d := s.d.(inn := s.d.inn.(clientEof := true))), ClientEof))
  }

  /** The client closed first: no exit report, no more output, and the child
      is killed. */
  function Abandoned(d: Driver): Driver {
    var c := d.inn.child;
    d.(earlyClose := true, out := d.out.(pending := None), state := Draining,
       inn := d.inn.(child := if c.Some? then Some(CloseStdin(c.value).(killed := true)) else None),
       childOutClosed := c.None? || d.childOutClosed)
  }

  function OnClose(s: Session, recipient: U32): Step<Session> {
    if recipient != LOCAL_CHANNEL then Fail(s, "unknown-channel")
    else if s.d.state.ServerClosed? then Go(s.(d := s.d.(state := Closed)))
    else Go(Note(s.(d := Abandoned(s.d)), ClientClosed))
  }

  function Handle(s: Session, m: Inbound, host: Host): Step<Session>
    requires m.Malformed? ==> |m.reason| < 64
  {
    if s.d.state.BeforeOpen? && NamesChannel(m) then Fail(s, "channel-message-before-open")
    else
      match m
      case Malformed(_, reason) => Fail(s, reason)
      case Open(_, _, _, _) => OnOpen(s, m)
      case Request(_, _, _, _) => OnRequest(s, m, host)
      case Stdin(recipient, data) => OnData(s, recipient, data)
      case Adjust(recipient, add) => OnAdjust(s, recipient, add)
      case PeerEof(recipient) => OnEof(s, recipient)
      case PeerClose(recipient) => OnClose(s, recipient)
      case GlobalRequest(want) => if want then Send(s, RequestFailure) else Go(s)
      case Tolerated => Go(s)
      case PeerDisconnect => Stop(s, Rejected("peer-disconnected"))
  }

  function HandleInbound(s: Session, payload: Bytes, host: Host): Step<Session> { Handle(s, Decode(payload), host) }

  // ---- the re-key window ----

  function Pass(s: Session, payload: Bytes, host: Host): Step<Session> {
    if InboundOnly(payload) then HandleInbound(s, payload, host)
    else if |s.d.deferred| >= MAX_DEFERRED then Fail(s, "too-many-deferred-during-rekey")
    else Go(Note(s.(d := s.d.(deferred := s.d.deferred + [payload])), Deferred(payload)))
  }

  /** `drain_deferred`: the queue is emptied message by message. */
  function DrainDeferred(s: Session, host: Host): Step<Session>
    decreases |s.d.deferred|
  {
    if s.d.deferred == [] then Go(s)
    else
      var p, rest := s.d.deferred[0], s.d.deferred[1..];
      var handled :- HandleInbound(Note(s.(d := s.d.(deferred := rest)), Undeferred(p)), p, host);
      DrainDeferred(handled.(d := handled.d.(deferred := rest)), host)
  }

  function RekeyPacket(s: Session, payload: Bytes, host: Host): Step<Session> {
    match StepRekey(s.t, payload, host.env)
    case Halt(t, cause) => Stop(s.(t := t), cause)
    case Next(t, what) =>
      if what.PassToChannel? then Pass(s.(t := t), payload, host)
      else if what.Completed? then DrainDeferred(s.(t := t), host)
      else Go(s.(t := t))
  }

  /** A packet read and counted. */
  function Tallied(t: Link, payload: Bytes, now: nat): Link { Received(Log(t, Read(|payload|, now)), payload) }

  function Taken(s: Session, payload: Bytes, now: nat): Session { s.(t := Tallied(s.t, payload, now)) }

  /** One inbound packet: to the re-key machine while one is under way or when
      it starts one, else to the channel. */
  function OnPacket(s0: Session, payload: Bytes, host: Host): Step<Session> {
    var s := Taken(s0, payload, host.env.now);
    if RekeyActive(s.t) || (payload != [] && payload[0] == MSG_KEXINIT) then RekeyPacket(s, payload, host)
    else HandleInbound(s, payload, host)
  }

  // ---- the loop ----

  /** Phases (A) to (E) of one turn of the loop. */
  function Turn(s: Session, host: Host): Step<Session> {
    if RekeyActive(s.t) then Go(HandOver(s))
    else
      var s :- FlushOutput(s);
      Conclude(HandOver(s), host)
  }

  /** (C), (D) and (E). */
  function Conclude(s: Session, host: Host): Step<Session> {
    var s :- Replenish(s);
    var s :- StartRekey(s, host);
    CloseSequence(s)
  }

  function StartRekey(s: Session, host: Host): Step<Session> {
    if RekeyDue(s.t, host.env.now) && MayRekey(s.d.state) then
      match BeginRekey(s.t, host.env)
      case Go(t) => Go(s.(t := t))
      case Stop(t, cause) => Stop(s.(t := t), cause)
    else Go(s)
  }

  function CloseSequence(s: Session): Step<Session> {
    if !RekeyActive(s.t) && ReadyToClose(s.d) then SendTerminal(s) else Go(s)
  }

  /** Everything the loop can wait for, and the stdin pump's own progress. */
  datatype Event =
    | Packet(payload: Bytes)
    | ReadFails
    | Chunk(kind: Stream, data: Str)
    | Exited(code: U32, signal: Option<(Str, bool)>)
    | OutputEnds
    | Ack
    | AcksEnd
    | DeadlinePasses
    | Wakes
    | PumpTakes
    | PumpWrites(n: nat)
    | PumpEnds

  predicate WantOutput(s: Session) {
    s.d.out.pending.None? && MayEmitOutput(s.d.state) && !RekeyActive(s.t) && s.d.inn.child.Some?
  }

  /** Whether the event can happen now. The child's tasks give the last three
      rules: the exit is reported once and before the output channel closes,
      a chunk is 1 byte to 32 KiB, and an ack is for bytes written. */
  predicate Possible(child: Option<Child>, wanted: bool, consumedClosed: bool, active: bool, e: Event) {
    match e
    case Packet(_) => true
    case ReadFails => true
    case Chunk(_, data) => child.Some? && wanted && !child.value.outputEnded && 0 < |data| <= MAX_DATA
    case Exited(_, _) => child.Some? && wanted && !child.value.exitReported && !child.value.outputEnded
    case OutputEnds => child.Some? && wanted && child.value.exitReported
    case Ack => child.Some? && !consumedClosed && child.value.acks != []
    case AcksEnd => child.Some? && child.value.acks == [] && !child.value.pumpAlive
    case DeadlinePasses => active
    case Wakes => !active
    case PumpTakes => child.Some? && child.value.pumpAlive && child.value.inflight == [] && child.value.queue != []
    case PumpWrites(n) => child.Some? && child.value.pumpAlive && n <= |child.value.inflight| && n < U32_LIMIT
    case PumpEnds => child.Some? && child.value.pumpAlive
  }

  predicate Enabled(s: Session, e: Event) {
    Possible(s.d.inn.child, WantOutput(s), s.d.consumedClosed, RekeyActive(s.t), e)
  }

  function SumLen(chunks: seq<Bytes>): nat { if chunks == [] then 0 else |chunks[0]| + SumLen(chunks[1..]) }

  function OnChunk(s: Session, kind: Stream, data: Str): Session {
    var s := Note(s, ChildOutput(kind, data));
    if s.d.earlyClose then s else s.(d := s.d.(out := s.d.out.(pending := Some(PendingOut(kind, data)))))
  }

  function SetChild(d: Driver, c: Child): Driver { d.(inn := d.inn.(child := Some(c))) }

  function OnExited(d: Driver, code: U32, signal: Option<(Str, bool)>): Driver
    requires d.inn.child.Some?
  {
    d.(inn := d.inn.(child := Some(d.inn.child.value.(exitReported := true))),
       exitStatus := if d.exitStatus.None? then Some(code) else d.exitStatus,
       exitSignal := if d.exitStatus.None? then signal else d.exitSignal,
       state := if d.state.Running? then Draining else d.state)
  }

  /** The pump's progress and its acks. */
  function AckTaken(i: Inflow): Inflow
    requires i.child.Some? && i.child.value.acks != []
  {
    var c := i.child.value;
    i.(credit := SatAdd(i.credit, c.acks[0], U32_LIMIT), child := Some(c.(acks := c.acks[1..])))
  }

  function PumpTook(i: Inflow): Inflow
    requires i.child.Some? && i.child.value.queue != []
  {
    var c := i.child.value;
    i.(child := Some(c.(inflight := c.queue[0], queue := c.queue[1..])))
  }

  function PumpWrote(i: Inflow, n: U32): Inflow
    requires i.child.Some? && n <= |i.child.value.inflight|
  {
    var c := i.child.value;
    i.(child := Some(c.(inflight := c.inflight[n..], acks := c.acks + [n])),
       line := i.line.(delivered := i.line.delivered + c.inflight[..n]))
  }

  function PumpEnded(i: Inflow): Inflow
    requires i.child.Some?
  {
    var c := i.child.value;
    i.(lost := i.lost + SumLen(c.queue) + |c.inflight|,
       child := Some(c.(pumpAlive := false, queue := [], inflight := [])))
  }

  function WithInflow(s: Session, i: Inflow): Session { s.(d := s.d.(inn := i)) }

  function React(s: Session, e: Event, host: Host): Step<Session>
    requires Enabled(s, e)
  {
    match e
    case Packet(payload) => OnPacket(s, payload, host)
    case ReadFails => Stop(s, Io)
    case Chunk(kind, data) => Go(OnChunk(s, kind, data))
    case Exited(code, signal) => Go(Note(s.(d := OnExited(s.d, code, signal)), ChildExit(code, signal)))
    case OutputEnds =>
      Go(Note(s.(d := SetChild(s.d, s.d.inn.child.value.(outputEnded := true)).(childOutClosed := true)), OutputEnded))
    case Ack =>
      Go(s.(d := s.d.(inn := AckTaken(s.d.inn),
                      bytesReceived := SatAdd(s.d.bytesReceived, s.d.inn.child.value.acks[0], U64_LIMIT))))
    case AcksEnd => Go(s.(d := s.d.(consumedClosed := true)))
    case DeadlinePasses => var r := RekeyTimeout(s.t); Stop(s.(t := r.st), r.cause)
    case Wakes => Go(s)
    case PumpTakes => Go(WithInflow(s, PumpTook(s.d.inn)))
    case PumpWrites(n) =>
      Go(Note(WithInflow(s, PumpWrote(s.d.inn, n)), Delivered(s.d.inn.child.value.inflight[..n])))
    case PumpEnds => Go(WithInflow(s, PumpEnded(s.d.inn)))
  }

  /** How a run of the loop stands. */
  datatype Status = Live(s: Session) | Returned(s: Session) | Failed(s: Session, cause: Cause)

  /** The event the turn waited for; one that cannot happen is a spurious
      wake-up. */
  function Await(s: Session, e: Event, host: Host): Status {
    if !Enabled(s, e) then Live(s)
    else
      match React(s, e, host)
      case Go(s) => Live(s)
      case Stop(s, cause) => Failed(s, cause)
  }

  /** One iteration of the loop. */
  function Iterate(s: Session, e: Event, host: Host): Status {
    match Turn(s, host)
    case Stop(s, cause) => Failed(s, cause)
    case Go(s) =>
      if !RekeyActive(s.t) && s.d.state.Closed? then Returned(EmitFinished(s))
      else Await(s, e, host)
  }

  /** `drive` over the events that happen. */
  function Drive(s: Session, events: seq<(Event, Host)>): Status
    decreases |events|
  {
    if events == [] then Live(s)
    else
      match Iterate(s, events[0].0, events[0].1)
      case Live(s) => Drive(s, events[1..])
      case done => done
  }

  /** Dropping the driver, on whatever path it ends. */
  function Dropped(status: Status): Session { EmitFinished(status.s) }
}
