/** How a peer reads the server's messages, by the codes and layouts of RFC 4253
(sections 11.1, 7.1 and 7.3) and RFC 4254 (sections 4, 5.1 to 5.3, 5.4 and 6.10):
a reference reader for the `build_*` functions of `channel.rs` and `kex.rs`. */
module FrameReader {
  import opened Wire
  import opened Trace

  const ANY: nat := 0xffff_ffff

  function Whole<T>(r: Result<Got<T>>): Option<T> {
    if r.Ok? && r.value.rest == [] then Some(r.value.value) else None
  }

  function Number(input: Bytes): Option<U32> { Whole(GetU32(input)) }

  function Text(input: Bytes): Option<Str> { Whole(GetString(input, ANY)) }

  /** CHANNEL_OPEN_CONFIRMATION after its code: the channel it is for, then sender
      channel 0, a window of 2 MiB and packets of 32 KiB. */
  function Confirmation(to: U32, input: Bytes): Option<Frame> {
    if input == PutU32(0) + PutU32(2097152) + PutU32(32768) then Some(Channel(to, OpenConfirmation)) else None
  }

  /** An exit report after the channel number: a request that wants no reply. */
  function ExitReport(to: U32, input: Bytes): Option<Frame> {
    match GetString(input, ANY)
    case Err(_) => None
    case Ok(kind) =>
      if kind.rest == [] || kind.rest[0] != 0 then None
      else if kind.value == Ascii("exit-status") then
        var status := Number(kind.rest[1..]);
        if status.Some? then Some(Channel(to, ExitStatus(status.value))) else None
      else if kind.value == Ascii("exit-signal") then Signal(to, kind.rest[1..])
      else None
  }

  /** The signal's name without SIG, whether a core was dumped, and an empty message
      and language. */
  function Signal(to: U32, input: Bytes): Option<Frame> {
    match GetString(input, ANY)
    case Err(_) => None
    case Ok(name) =>
      if name.rest == [0] + PutString([]) + PutString([]) then Some(Channel(to, ExitSignal(name.value, false)))
      else if name.rest == [1] + PutString([]) + PutString([]) then Some(Channel(to, ExitSignal(name.value, true)))
      else None
  }

  /** A message about a channel, after its code and the channel number. */
  function ForChannel(code: Byte, to: U32, rest: Bytes): Option<Frame> {
    if code == 91 then Confirmation(to, rest)
    else if code == 93 then
      var credit := Number(rest);
      if credit.Some? then Some(Channel(to, WindowAdjust(credit.value))) else None
    else if code == 94 then
      var data := Text(rest);
      if data.Some? then Some(Channel(to, Data(Stdout, data.value))) else None
    else if code == 95 then
      if |rest| < 4 || rest[..4] != PutU32(1) then None
      else
        var data := Text(rest[4..]);
        if data.Some? then Some(Channel(to, Data(Stderr, data.value))) else None
    else if code == 98 then ExitReport(to, rest)
    else if rest != [] then None
    else if code == 96 then Some(Channel(to, Eof))
    else if code == 97 then Some(Channel(to, Close))
    else if code == 99 then Some(Channel(to, Success))
    else if code == 100 then Some(Channel(to, Failure))
    else None
  }

  /** Three strings: host key, server share, signature. */
  function Reply(input: Bytes): Option<Frame> {
    match GetString(input, ANY)
    case Err(_) => None
    case Ok(hostKey) =>
      match GetString(hostKey.rest, ANY)
      case Err(_) => None
      case Ok(reply) =>
        var signature := Text(reply.rest);
        if signature.Some? then Some(HybridReply(hostKey.value, reply.value, signature.value)) else None
  }

  /** A reason code, a description and an empty language tag. */
  function Reasoned(input: Bytes): Option<(U32, Str)> {
    match GetU32(input)
    case Err(_) => None
    case Ok(code) =>
      match GetString(code.rest, ANY)
      case Err(_) => None
      case Ok(text) => if text.rest == PutString([]) then Some((code.value, text.value)) else None
  }

  function ReadFrame(p: Bytes): Option<Frame> {
    if p == [] then None
    else
      var code, rest := p[0], p[1..];
      if code == 20 then Some(KexInit(p))
      else if code == 21 then (if rest == [] then Some(NewKeys) else None)
      else if code == 31 then Reply(rest)
      else if code == 82 then (if rest == [] then Some(RequestFailure) else None)
      else if code == 1 then
        var d := Reasoned(rest);
        if d.Some? then Some(Disconnect(d.value.0, d.value.1)) else None
      else
        match GetU32(rest)
        case Err(_) => None
        case Ok(to) =>
          if code == 92 then
            var d := Reasoned(to.rest);
            if d.Some? then Some(OpenFailure(to.value, d.value.0, d.value.1)) else None
          else ForChannel(code, to.value, to.rest)
  }

  lemma NumberReads(n: U32)
    ensures Number(PutU32(n)) == Some(n)
  {
    hide GetU32, PutU32;
    assert PutU32(n) + [] == PutU32(n);
    GetPutU32(n, []);
  }

  lemma TextReads(t: Str)
    ensures Text(PutString(t)) == Some(t)
  {
    hide GetString, PutString;
    assert PutString(t) + [] == PutString(t);
    GetPutString(t, [], ANY);
  }

  lemma ReasonReads(code: U32, text: Str)
    ensures Reasoned(PutU32(code) + (PutString(text) + PutString([]))) == Some((code, text))
  {
    hide GetU32, GetString, PutU32, PutString;
    GetPutU32(code, PutString(text) + PutString([]));
    GetPutString(text, PutString([]), ANY);
  }

  lemma ReplyReads(hostKey: Str, reply: Str, signature: Str)
    ensures Reply(PutString(hostKey) + (PutString(reply) + PutString(signature))) ==
            Some(HybridReply(hostKey, reply, signature))
  {
    hide GetString, PutString, Text;
    GetPutString(hostKey, PutString(reply) + PutString(signature), ANY);
    GetPutString(reply, PutString(signature), ANY);
    TextReads(signature);
  }

  lemma ReportNames()
    ensures |Ascii("exit-status")| == 11 && |Ascii("exit-signal")| == 11
    ensures Ascii("exit-status") != Ascii("exit-signal")
  {
    assert Ascii("exit-status")[6] == 116 && Ascii("exit-signal")[6] == 105;
  }

  lemma StatusReads(to: U32, status: U32)
    ensures ExitReport(to, PutString(Ascii("exit-status")) + ([0] + PutU32(status))) ==
            Some(Channel(to, ExitStatus(status)))
  {
    hide GetString, PutU32, PutString, Ascii, Number;
    ReportNames();
    var tail := [0] + PutU32(status);
    GetPutString(Ascii("exit-status"), tail, ANY);
    assert tail[1..] == PutU32(status);
    NumberReads(status);
  }

  lemma SignalReads(to: U32, name: Str, core: bool)
    ensures ExitReport(to, PutString(Ascii("exit-signal")) +
                           ([0] + (PutString(name) + (PutBoolean(core) + PutString([]) + PutString([]))))) ==
            Some(Channel(to, ExitSignal(name, core)))
  {
    hide GetString, PutString, Ascii;
    ReportNames();
    var last := PutBoolean(core) + PutString([]) + PutString([]);
    var tail := [0] + (PutString(name) + last);
    GetPutString(Ascii("exit-signal"), tail, ANY);
    assert tail[1..] == PutString(name) + last;
    GetPutString(name, last, ANY);
    assert last[0] == if core then 1 else 0;
    assert ([0] + PutString([]) + PutString([]))[0] == 0;
  }

  /** What follows the code and the channel number of a message. */
  function Tail(msg: ChannelMsg): Bytes {
    match msg
    case OpenConfirmation => PutU32(LOCAL_CHANNEL) + PutU32(INITIAL_WINDOW) + PutU32(MAX_DATA)
    case WindowAdjust(credit) => PutU32(credit)
    case Data(Stdout, data) => PutString(data)
    case Data(Stderr, data) => PutU32(1) + PutString(data)
    case ExitStatus(status) => PutString(Ascii("exit-status")) + ([0] + PutU32(status))
    case ExitSignal(name, core) =>
      PutString(Ascii("exit-signal")) + ([0] + (PutString(name) + (PutBoolean(core) + PutString([]) + PutString([]))))
    case _ => []
  }

  function Code(msg: ChannelMsg): Byte {
    match msg
    case OpenConfirmation => 91 case WindowAdjust(_) => 93 case Data(Stdout, _) => 94 case Data(Stderr, _) => 95
    case ExitStatus(_) => 98 case ExitSignal(_, _) => 98 case Eof => 96 case Close => 97 case Success => 99
    case Failure => 100
  }

  lemma ReportParts(to: U32, msg: ChannelMsg)
    requires msg.ExitStatus? || msg.ExitSignal?
    ensures Payload(Channel(to, msg)) == [98] + (PutU32(to) + Tail(msg))
  {
    hide PutU32, PutString, Ascii;
    var p, head := Payload(Channel(to, msg)), [98] + PutU32(to);
    if msg.ExitStatus? {
      var kind := PutString(Ascii("exit-status"));
      assert p == head + kind + [0] + PutU32(msg.status);
      assert head + kind + [0] + PutU32(msg.status) == head + (kind + ([0] + PutU32(msg.status)));
    } else {
      var kind, name, last := PutString(Ascii("exit-signal")), PutString(msg.name), PutBoolean(msg.coreDumped);
      var none := PutString([]);
      assert p == head + kind + [0] + name + last + none + none;
      assert head + kind + [0] + name + last + none + none == head + (kind + ([0] + (name + (last + none + none))));
    }
  }

  lemma OtherParts(to: U32, msg: ChannelMsg)
    requires !msg.ExitStatus? && !msg.ExitSignal?
    ensures Payload(Channel(to, msg)) == [Code(msg)] + (PutU32(to) + Tail(msg))
  {
    hide PutU32, PutString, Ascii;
  }

  lemma PayloadParts(to: U32, msg: ChannelMsg)
    ensures var p := Payload(Channel(to, msg)); p != [] && p[0] == Code(msg) && p[1..] == PutU32(to) + Tail(msg)
  {
    hide PutU32, PutString, Ascii, Payload, Tail;
    if msg.ExitStatus? || msg.ExitSignal? {
      ReportParts(to, msg);
    } else {
      OtherParts(to, msg);
    }
  }

  lemma TailReads(to: U32, msg: ChannelMsg)
    ensures ForChannel(Code(msg), to, Tail(msg)) == Some(Channel(to, msg))
  {
    hide GetString, GetU32, PutU32, PutString, Ascii, Number, Text, ExitReport;
    match msg
    case WindowAdjust(credit) => NumberReads(credit);
    case Data(kind, data) =>
      TextReads(data);
      var rest := PutU32(1) + PutString(data);
      assert rest[..4] == PutU32(1) && rest[4..] == PutString(data);
    case ExitStatus(status) => StatusReads(to, status);
    case ExitSignal(name, core) => SignalReads(to, name, core);
    case _ =>
  }

  /** Every message the server builds is read back as what it says; a KEXINIT is its
      own body, which starts with its code. */
  lemma FramesReadBack(f: Frame)
    requires f.KexInit? ==> f.body != [] && f.body[0] == 20
    ensures ReadFrame(Payload(f)) == Some(f)
  {
    hide GetString, GetU32, PutU32, PutString, Reply, Reasoned, ForChannel, ChannelPayload, Tail;
    var p := Payload(f);
    match f
    case KexInit(body) =>
    case NewKeys =>
    case RequestFailure =>
    case HybridReply(hostKey, reply, signature) =>
      assert p[1..] == PutString(hostKey) + (PutString(reply) + PutString(signature));
      ReplyReads(hostKey, reply, signature);
    case Disconnect(code, reason) =>
      assert p[1..] == PutU32(code) + (PutString(reason) + PutString([]));
      ReasonReads(code, reason);
    case OpenFailure(sender, code, description) =>
      var rest := PutU32(code) + (PutString(description) + PutString([]));
      assert p[1..] == PutU32(sender) + rest;
      GetPutU32(sender, rest);
      ReasonReads(code, description);
    case Channel(to, msg) =>
      PayloadParts(to, msg);
      GetPutU32(to, Tail(msg));
      TailReads(to, msg);
  }
}
