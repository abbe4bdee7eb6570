/** What the server puts on the wire, the history of one session, and the
rules that history must satisfy. The rules are a reference definition: they
mention no field of the driver or the transport. */
module Trace {
  import opened Wire

  const INITIAL_WINDOW: U32 := 2 * 1024 * 1024
  const MAX_DATA: nat := 32 * 1024
  const MAX_DEFERRED: nat := 64
  const LOCAL_CHANNEL: U32 := 0

  datatype Stream = Stdout | Stderr

  /** A message for the one channel. */
  datatype ChannelMsg =
    | OpenConfirmation
    | WindowAdjust(credit: U32)
    | Data(kind: Stream, data: Str)
    | ExitStatus(status: U32)
    | ExitSignal(name: Str, coreDumped: bool)
    | Eof
    | Close
    | Success
    | Failure

  datatype Frame =
    | KexInit(body: Bytes)
    | HybridReply(hostKey: Str, reply: Str, signature: Str)
    | NewKeys
    | Disconnect(code: U32, reason: Str)
    | OpenFailure(sender: U32, code: U32, description: Str)
    | RequestFailure
    | Channel(to: U32, msg: ChannelMsg)

  function ChannelPayload(to: U32, msg: ChannelMsg): (b: Bytes)
  {
    match msg
    case OpenConfirmation => [91] + PutU32(to) + PutU32(LOCAL_CHANNEL) + PutU32(INITIAL_WINDOW) + PutU32(MAX_DATA)
    case WindowAdjust(credit) => [93] + PutU32(to) + PutU32(credit)
    case Data(Stdout, data) => [94] + PutU32(to) + PutString(data)
    case Data(Stderr, data) => [95] + PutU32(to) + PutU32(1) + PutString(data)
    case ExitStatus(status) => [98] + PutU32(to) + PutString(Ascii("exit-status")) + PutBoolean(false) + PutU32(status)
    case ExitSignal(name, core) =>
      [98] + PutU32(to) + PutString(Ascii("exit-signal")) + PutBoolean(false) + PutString(name) + PutBoolean(core) +
      PutString([]) + PutString([])
    case Eof => [96] + PutU32(to)
    case Close => [97] + PutU32(to)
    case Success => [99] + PutU32(to)
    case Failure => [100] + PutU32(to)
  }

  /** The `build_*` functions: one frame's payload bytes. */
  function Payload(f: Frame): (b: Bytes)
  {
    match f
    case KexInit(body) => body
    case HybridReply(hostKey, reply, signature) => [31] + PutString(hostKey) + PutString(reply) + PutString(signature)
    case NewKeys => [21]
    case Disconnect(code, reason) => [1] + PutU32(code) + PutString(reason) + PutString([])
    case OpenFailure(sender, code, description) =>
      [92] + PutU32(sender) + PutU32(code) + PutString(description) + PutString([])
    case RequestFailure => [82]
    case Channel(to, msg) => ChannelPayload(to, msg)
  }

  /** What the peer reads back from a data frame is the stream and the bytes
      the child wrote, and the frame stays under the packet limit. */
  lemma DataFrameRoundTrip(to: U32, kind: Stream, data: Str)
    requires |data| <= MAX_DATA
    ensures var p := Payload(Channel(to, Data(kind, data)));
            && |p| <= MAX_DATA + 13
            && p[0] == (if kind.Stdout? then 94 else 95)
            && GetU32(p[1..]).Ok? && GetU32(p[1..]).value.value == to
            && (kind.Stdout? ==> GetString(p[5..], MAX_DATA) == Ok(Got(data, [])))
            && (kind.Stderr? ==> GetU32(p[5..]).Ok? && GetU32(p[5..]).value.value == 1
                                 && GetString(p[9..], MAX_DATA) == Ok(Got(data, [])))
  {
    hide GetU32, GetString, PutU32, PutString;
    var p := Payload(Channel(to, Data(kind, data)));
    GetPutString(data, [], MAX_DATA);
    assert PutString(data) + [] == PutString(data);
    if kind.Stdout? {
      GetPutU32(to, PutString(data));
      assert p[1..] == PutU32(to) + PutString(data);
      assert p[5..] == PutString(data);
    } else {
      GetPutU32(to, PutU32(1) + PutString(data));
      GetPutU32(1, PutString(data));
      assert p[1..] == PutU32(to) + (PutU32(1) + PutString(data));
      assert p[5..] == PutU32(1) + PutString(data);
      assert p[9..] == PutString(data);
    }
  }

  // ---- history ----

  /** The transcript a key pair is derived from; the initial exchange, which
      ran before this stage, is left abstract. */
  datatype Exchanged = Initial | Exchanged(clientInit: Bytes, serverInit: Bytes, hybridInit: Bytes, reply: Bytes)

  /** One direction's cipher. `epoch` counts exchanges; `initial` is the GCM
      counter the derived IV gave, `invocation` its current value. */
  datatype Cipher = Cipher(epoch: nat, exchanged: Exchanged, initial: U64, invocation: U64)

  /** What one packet was sealed with: the cipher state, the number of packets
      sealed before it under that key, and the 32-bit sequence number. */
  datatype Stamp = Stamp(cipher: Cipher, count: nat, number: U32)

  datatype Entry =
    | Sent(frame: Frame, stamp: Stamp)
    | RekeyCompleted                       // the peer's NEWKEYS was processed
    | Read(size: nat, at: nat)             // a packet's payload came in, and when
    | Deferred(payload: Bytes)             // held back during a re-key
    | Undeferred(payload: Bytes)           // taken from the hold queue and handled
    | Opened(peer: U32, window: U32, maxPacket: U32)
    | Adjusted(add: U32)
    | Took(input: Bytes)                   // stdin accepted from the client
    | Delivered(input: Bytes)              // stdin written to the child
    | ChildOutput(kind: Stream, data: Str)
    | ChildExit(code: U32, signal: Option<(Str, bool)>)  // the child's exit, or the failure to start one
    | OutputEnded                          // no more output of the child can come
    | ClientEof                            // the client sends no more input
    | ClientClosed                         // the client's CLOSE came before ours
    | Started(command: Bytes)
    | Finished(sent: U64, received: U64)

  type History = seq<Entry>

  // ---- rule 1: RFC 4253 sections 7.1 and 9, the exchange and the deferral ----

  /** `kex` is 0 outside an exchange, else the number of its messages sent. */
  datatype ExchangeView = ExchangeView(ok: bool, over: bool, kex: nat, deferred: seq<Bytes>)

  /** Inbound messages that make the server send nothing: never held back. */
  predicate InboundOnly(payload: Bytes) { payload != [] && payload[0] in {94, 93, 96} }

  predicate KexFrame(f: Frame) { f.KexInit? || f.HybridReply? || f.NewKeys? || f.Disconnect? }

  function ObserveExchange(v: ExchangeView, e: Entry): ExchangeView {
    match e
    case Sent(f, _) =>
      if f.KexInit? then v.(ok := v.ok && !v.over && v.kex == 0, kex := 1)
      else if f.HybridReply? then v.(ok := v.ok && !v.over && v.kex == 1, kex := 2)
      else if f.NewKeys? then v.(ok := v.ok && !v.over && v.kex == 2, kex := 3)
      else if f.Disconnect? then v.(ok := v.ok && !v.over, over := true)
      else v.(ok := v.ok && !v.over && v.kex == 0)
    case RekeyCompleted => v.(ok := v.ok && v.kex == 3, kex := 0)
    case Deferred(p) =>
      v.(ok := v.ok && v.kex != 0 && |v.deferred| < MAX_DEFERRED && !InboundOnly(p), deferred := v.deferred + [p])
    case Undeferred(p) =>
      if v.deferred == [] then v.(ok := false)
      else v.(ok := v.ok && v.kex == 0 && v.deferred[0] == p, deferred := v.deferred[1..])
    case _ => v
  }

  function Exchange(h: History): ExchangeView {
    if h == [] then ExchangeView(true, false, 0, [])
    else ObserveExchange(Exchange(h[..|h| - 1]), h[|h| - 1])
  }

  // ---- rule 2: what packets are sealed with ----

  datatype SealView = SealView(ok: bool, epoch: nat, count: nat)

  function ObserveSeal(v: SealView, e: Entry): SealView {
    if e.Sent? then
      var ok := v.ok && e.stamp.cipher.epoch == v.epoch && e.stamp.count == v.count
                && e.stamp.number == v.count % 0x1_0000_0000;
      if e.frame.NewKeys? then SealView(ok, v.epoch + 1, 0) else SealView(ok, v.epoch, v.count + 1)
    else v
  }

  function Seals(first: SealView, h: History): SealView {
    if h == [] then first else ObserveSeal(Seals(first, h[..|h| - 1]), h[|h| - 1])
  }

  // ---- rule 3: RFC 4254 sections 5.1, 5.3 and 6.10, the channel's order ----

  /** `report` is the exit report the child's end calls for; `drained`: no more
      output can come. */
  datatype OrderView = OrderView(
    ok: bool, peer: Option<U32>, exitSent: bool, eofSent: bool, closeSent: bool, clientClosed: bool,
    report: Option<ChannelMsg>, started: bool, drained: bool)

  function ReportFor(code: U32, signal: Option<(Str, bool)>): ChannelMsg {
    if signal.Some? then ExitSignal(signal.value.0, signal.value.1) else ExitStatus(code)
  }

  function ObserveOrder(v: OrderView, e: Entry): OrderView {
    match e
    case Sent(f, _) =>
      if !f.Channel? then v
      else
        var ok := v.ok && v.peer == Some(f.to);
        if f.msg.Data? then v.(ok := ok && !v.exitSent && !v.closeSent && !v.clientClosed)
        else if f.msg.ExitStatus? || f.msg.ExitSignal? then
          v.(ok := ok && !v.exitSent && !v.closeSent && !v.clientClosed && v.report == Some(f.msg), exitSent := true)
        else if f.msg.Eof? then v.(ok := ok && v.exitSent && !v.eofSent && !v.closeSent, eofSent := true)
        else if f.msg.Close? then v.(ok := ok && !v.closeSent && (v.eofSent || v.clientClosed), closeSent := true)
        else v.(ok := ok)
    case Opened(peer, _, _) => v.(ok := v.ok && v.peer.None?, peer := Some(peer))
    case ChildOutput(_, _) => v.(ok := v.ok && !v.exitSent)
    case ChildExit(code, signal) => if v.report.None? then v.(report := Some(ReportFor(code, signal))) else v
    case ClientClosed =>
      v.(ok := v.ok && v.peer.Some? && !v.closeSent, clientClosed := true, drained := v.drained || !v.started)
    case Started(_) => v.(started := true)
    case OutputEnded => v.(drained := true)
    case _ => v
  }

  function Order(h: History): OrderView {
    if h == [] then OrderView(true, None, false, false, false, false, None, false, false)
    else ObserveOrder(Order(h[..|h| - 1]), h[|h| - 1])
  }

  // ---- rule 4: RFC 4254 section 5.2, the child's output ----

  type Tagged = seq<(Stream, Byte)>

  function Tag(kind: Stream, data: Bytes): (r: Tagged)
    ensures |r| == |data|
    ensures forall i :: 0 <= i < |data| ==> r[i] == (kind, data[i])
  {
    if data == [] then [] else Tag(kind, data[..|data| - 1]) + [(kind, data[|data| - 1])]
  }

  lemma TagSplit(kind: Stream, data: Bytes, n: nat)
    requires n <= |data|
    ensures Tag(kind, data) == Tag(kind, data[..n]) + Tag(kind, data[n..])
  {
  }

  /** `granted`: bytes the client's window ever allowed; `sent`: on the wire;
      `produced`: by the child. */
  datatype OutputView = OutputView(ok: bool, maxPacket: nat, granted: nat, sent: Tagged, produced: Tagged)

  predicate DataAllowed(v: OutputView, kind: Stream, data: Bytes) {
    && 0 < |data| <= MAX_DATA && |data| <= v.maxPacket
    && |v.sent| + |data| <= v.granted
    && v.sent + Tag(kind, data) <= v.produced
  }

  function ObserveOutput(v: OutputView, e: Entry): OutputView {
    match e
    case Sent(f, _) =>
      if !f.Channel? then v
      else if f.msg.Data? then
        v.(ok := v.ok && DataAllowed(v, f.msg.kind, f.msg.data), sent := v.sent + Tag(f.msg.kind, f.msg.data))
      else if f.msg.ExitStatus? || f.msg.ExitSignal? then v.(ok := v.ok && v.sent == v.produced)
      else v
    case Opened(_, window, maxPacket) =>
      v.(ok := v.ok && v.sent == [] && maxPacket > 0, granted := window, maxPacket := maxPacket)
    case Adjusted(add) => v.(granted := v.granted + add)
    case ChildOutput(kind, data) => v.(produced := v.produced + Tag(kind, data))
    case _ => v
  }

  function Output(h: History): OutputView {
    if h == [] then OutputView(true, 0, 0, [], [])
    else ObserveOutput(Output(h[..|h| - 1]), h[|h| - 1])
  }

  // ---- rule 5: the audit pair ----

  /** `totals` are the byte counts of the finished record. */
  datatype AuditView = AuditView(ok: bool, started: bool, finished: bool, totals: Option<(U64, U64)>)

  function ObserveAudit(v: AuditView, e: Entry): AuditView {
    if e.Started? then v.(ok := v.ok && !v.started, started := true)
    else if e.Finished? then
      v.(ok := v.ok && v.started && !v.finished, finished := true, totals := Some((e.sent, e.received)))
    else v
  }

  function Audit(h: History): AuditView {
    if h == [] then AuditView(true, false, false, None) else ObserveAudit(Audit(h[..|h| - 1]), h[|h| - 1])
  }

  // ---- rule 6: RFC 4254 section 5.2, the client's input ----

  /** `window`: what the client may still send, by the window its open was
      confirmed with and every adjustment sent. `accepted` and `delivered`: its
      bytes taken in, and those the child got. `begun`: the exec, or the
      client's CLOSE, has come; `early`: a packet came before. `crowd`: the
      bytes of those early packets, the first packet's left out; `late`: a
      packet with data came after it. `ended`: the client's EOF has come. */
  datatype IntakeView = IntakeView(
    ok: bool, window: int, accepted: Bytes, delivered: Bytes, begun: bool, early: bool, crowd: Bytes, late: bool,
    ended: bool)

  /** The child gets each accepted byte at most once; in order, unless there is
      both a crowd and a late packet. */
  predicate DeliveryAllowed(v: IntakeView, input: Bytes) {
    && multiset(v.delivered + input) <= multiset(v.accepted)
    && (v.crowd == [] || !v.late ==> v.delivered + input <= v.accepted)
  }

  function ObserveIntake(v: IntakeView, e: Entry): IntakeView {
    match e
    case Opened(_, _, _) => v.(window := INITIAL_WINDOW)
    case Sent(f, _) => if f.Channel? && f.msg.WindowAdjust? then v.(window := v.window + f.msg.credit) else v
    case Started(_) => v.(begun := true)
    case ClientClosed => v.(begun := true)
    case ClientEof => v.(ended := true)
    case Took(input) =>
      v.(ok := v.ok && !v.ended, window := v.window - |input|, accepted := v.accepted + input,
         early := v.early || !v.begun, late := v.late || (v.begun && input != []),
         crowd := if v.early && !v.begun then v.crowd + input else v.crowd)
    case Delivered(input) => v.(ok := v.ok && DeliveryAllowed(v, input), delivered := v.delivered + input)
    case _ => v
  }

  function Intake(h: History): IntakeView {
    if h == [] then IntakeView(true, 0, [], [], false, false, [], false, false)
    else ObserveIntake(Intake(h[..|h| - 1]), h[|h| - 1])
  }

  /** Appending one entry advances the observers by that entry. */
  function Append(h: History, e: Entry): (r: History)
    ensures Exchange(r) == ObserveExchange(Exchange(h), e)
    ensures forall first :: Seals(first, r) == ObserveSeal(Seals(first, h), e)
    ensures Order(r) == ObserveOrder(Order(h), e)
    ensures Output(r) == ObserveOutput(Output(h), e)
    ensures Audit(r) == ObserveAudit(Audit(h), e)
    ensures Intake(r) == ObserveIntake(Intake(h), e)
  {
    assert (h + [e])[..|h|] == h;
    h + [e]
  }
}
