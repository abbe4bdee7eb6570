/** The `Session` stage of `transport.rs`: sealing, counters, and the re-key
sub-machine, as functions on a transport value. The environment supplies what
the source takes from the clock, the random source and the crypto libraries. */
module Transport {
  import opened Wire
  import opened Trace

  const U32_LIMIT: nat := 0x1_0000_0000
  const U64_LIMIT: nat := 0x1_0000_0000_0000_0000
  const CLIENT_INIT_LEN: nat := 1216
  const DISCONNECT_PROTOCOL_ERROR: U32 := 2
  const DISCONNECT_KEY_EXCHANGE_FAILED: U32 := 3

  datatype Thresholds = Thresholds(maxBytes: U64, maxInterval: nat, maxPackets: U32, completionDeadline: nat)

  datatype Phase =
    | Idle
    | SentKexInit(serverInit: Bytes)
    | AwaitHybridInit(clientInit: Bytes, serverInit: Bytes, skipGuessed: bool)
    | AwaitNewKeys(newRx: Cipher)

  datatype Link = Link(
    seqTx: U32, seqRx: U32,
    tx: Cipher, rx: Cipher,
    sealed: nat, unsealed: nat,  // packets under the current keys, never wrapping
    highest: nat,                // the largest count a packet was sealed with, up to our CLOSE
    bytesTx: U64, bytesRx: U64,  // saturating
    lastKex: nat, started: nat,
    limits: Thresholds,
    phase: Phase,
    ioLeft: nat,                 // writes the stream still accepts
    history: History)

  datatype Cause = Io | Rejected(reason: string)

  /** The result of one action: the connection goes on, or ends with a cause. */
  datatype Step<+S> = Go(st: S) | Stop(st: S, cause: Cause) {
    predicate IsFailure() { Stop? }
    function PropagateFailure(): Step<S> requires Stop? { this }
    function Extract(): S requires Go? { st }
  }

  datatype Negotiation = Agreed(skipGuessed: bool) | Refused(reason: string) | BadOffer

  datatype Hybrid = HybridDone(reply: Str, signature: Option<Str>) | HybridRefused(reason: string) | HybridMalformed

  /** The initial GCM counters of a derived pair. */
  datatype Ivs = Ivs(clientToServer: U64, serverToClient: U64)

  datatype Env = Env(
    now: nat,
    kexInit: Option<Bytes>,      // our next KEXINIT, or a failed draw
    negotiation: Negotiation,    // of the KEXINIT being read
    hybrid: Hybrid,              // of the HYBRID_INIT being read
    hostKey: Str,
    ivs: Exchanged -> Ivs)

  function SatAdd(a: nat, b: nat, limit: nat): (r: nat)
    requires 0 < limit
    ensures r < limit
  {
    if a + b < limit then a + b else limit - 1
  }

  function Wrap32(x: nat): U32 { x % 0x1_0000_0000 }

  function Wrap64(x: nat): U64 { x % 0x1_0000_0000_0000_0000 }

  function Advance(c: Cipher): Cipher { c.(invocation := Wrap64(c.invocation + 1)) }

  function Max(a: nat, b: nat): nat { if a < b then b else a }

  function Elapsed(now: nat, since: nat): nat { if now < since then 0 else now - since }

  function Log(t: Link, e: Entry): Link { t.(history := Append(t.history, e)) }

  predicate RekeyActive(t: Link) { !t.phase.Idle? }

  /** `write_sealed`. */
  function Seal(t: Link, f: Frame): Step<Link> {
    if t.ioLeft == 0 then Stop(t, Io)
    else Go(Log(t, Sent(f, Stamp(t.tx, t.sealed, t.seqTx))).(
         seqTx := Wrap32(t.seqTx + 1), tx := Advance(t.tx), sealed := t.sealed + 1,
         highest := if Order(t.history).closeSent then t.highest else Max(t.highest, t.sealed), ioLeft := t.ioLeft - 1))
  }

  /** `write_packet`: the payload also counts towards the byte threshold. */
  function Write(t: Link, f: Frame): Step<Link> {
    Seal(t.(bytesTx := SatAdd(t.bytesTx, |Payload(f)|, U64_LIMIT)), f)
  }

  /** `protocol_disconnect` and `rekey_reject`: a failed write is ignored. */
  function Reject(t: Link, code: U32, reason: string): (r: Step<Link>)
    requires |reason| < 64
    ensures r.Stop?
  {
    Stop(Seal(t, Disconnect(code, Ascii(reason))).st, Rejected(reason))
  }

  function Violation(t: Link, reason: string): (r: Step<Link>)
    requires |reason| < 64
    ensures r.Stop?
  {
    Reject(t, DISCONNECT_PROTOCOL_ERROR, reason)
  }

  /** `read_packet`'s accounting for one opened payload. */
  function Received(t: Link, payload: Bytes): Link {
    t.(seqRx := Wrap32(t.seqRx + 1), rx := Advance(t.rx), unsealed := t.unsealed + 1,
       bytesRx := SatAdd(t.bytesRx, |payload|, U64_LIMIT))
  }

  predicate RekeyDue(t: Link, now: nat) {
    && t.phase.Idle?
    && (|| t.bytesRx >= t.limits.maxBytes
        || t.bytesTx >= t.limits.maxBytes
        || t.seqRx >= t.limits.maxPackets
        || t.seqTx >= t.limits.maxPackets
        || Elapsed(now, t.lastKex) >= t.limits.maxInterval)
  }

  function BeginRekey(t: Link, env: Env): Step<Link> {
    if env.kexInit.None? then Stop(t, Io)
    else
      var t :- Write(t, KexInit(env.kexInit.value));
      Go(t.(started := env.now, phase := SentKexInit(env.kexInit.value)))
  }

  datatype RekeyStep = Continued | Completed | PassToChannel

  datatype Rekeyed = Next(link: Link, what: RekeyStep) | Halt(link: Link, cause: Cause)

  function Refuse(t: Link, code: U32, reason: string): Rekeyed
    requires |reason| < 64
  {
    var r := Reject(t, code, reason);
    Halt(r.st, r.cause)
  }

  function Short(reason: string): (r: string)
    ensures |r| < 64
  {
    if |reason| < 64 then reason else reason[..63]
  }

  /** `negotiate_rekey`, entering `AwaitHybridInit` on agreement. */
  function Negotiate(t: Link, clientInit: Bytes, serverInit: Bytes, env: Env): Rekeyed {
    match env.negotiation
    case Agreed(skip) => Next(t.(phase := AwaitHybridInit(clientInit, serverInit, skip)), Continued)
    case Refused(reason) => Refuse(t, DISCONNECT_KEY_EXCHANGE_FAILED, Short(reason))
    case BadOffer => Refuse(t, DISCONNECT_PROTOCOL_ERROR, "malformed-rekey-kexinit")
  }

  /** `string C_INIT` and nothing after it. */
  function HybridInitOf(payload: Bytes): Result<Str> {
    if payload == [] then Err(Truncated)
    else
      var g :- GetString(payload[1..], CLIENT_INIT_LEN);
      var _ :- Finish(g.rest);
      Ok(g.value)
  }

  /** `complete_rekey_reply`: the reply and NEWKEYS go out under the old keys,
      then sending switches; receiving switches at the peer's NEWKEYS. */
  function CompleteReply(t: Link, payload: Bytes, clientInit: Bytes, serverInit: Bytes, env: Env): Rekeyed {
    var init := HybridInitOf(payload);
    if init.Err? || env.hybrid.HybridMalformed? then Refuse(t, DISCONNECT_PROTOCOL_ERROR, "malformed-hybrid-init")
    else if env.hybrid.HybridRefused? then Refuse(t, DISCONNECT_KEY_EXCHANGE_FAILED, Short(env.hybrid.reason))
    else if env.hybrid.signature.None? then Refuse(t, DISCONNECT_KEY_EXCHANGE_FAILED, "rng-failure")
    else
      var exchanged := Exchanged(clientInit, serverInit, init.value, env.hybrid.reply);
      var ivs := env.ivs(exchanged);
      var reply := Write(t, HybridReply(env.hostKey, env.hybrid.reply, env.hybrid.signature.value));
      if reply.Stop? then Halt(reply.st, reply.cause)
      else
        var newKeys := Write(reply.st, NewKeys);
        if newKeys.Stop? then Halt(newKeys.st, newKeys.cause)
        else
          var t := newKeys.st;
          Next(t.(tx := Cipher(t.tx.epoch + 1, exchanged, ivs.serverToClient, ivs.serverToClient),
                  seqTx := 0, sealed := 0,
                  phase := AwaitNewKeys(Cipher(t.rx.epoch + 1, exchanged, ivs.clientToServer, ivs.clientToServer))),
               Continued)
  }

  const MSG_KEXINIT: Byte := 20
  const MSG_NEWKEYS: Byte := 21
  const MSG_KEX_HYBRID_INIT: Byte := 30

  /** `step_rekey`. The phase is taken out first, so a failure leaves `Idle`. */
  function StepRekey(t0: Link, payload: Bytes, env: Env): Rekeyed {
    var msg := if payload == [] then 0 else payload[0];
    var t := t0.(phase := Idle);
    match t0.phase
    case Idle =>
      if msg != MSG_KEXINIT then Refuse(t, DISCONNECT_PROTOCOL_ERROR, "unexpected-during-rekey")
      else if env.kexInit.None? then Halt(t.(started := env.now), Io)
      else
        var w := Write(t.(started := env.now), KexInit(env.kexInit.value));
        if w.Stop? then Halt(w.st, w.cause) else Negotiate(w.st, payload, env.kexInit.value, env)
    case SentKexInit(serverInit) =>
      if msg == MSG_KEXINIT then Negotiate(t, payload, serverInit, env) else Next(t0, PassToChannel)
    case AwaitHybridInit(clientInit, serverInit, skip) =>
      if skip then Next(t.(phase := AwaitHybridInit(clientInit, serverInit, false)), Continued)
      else if msg == MSG_KEX_HYBRID_INIT then CompleteReply(t, payload, clientInit, serverInit, env)
      else Refuse(t, DISCONNECT_PROTOCOL_ERROR, "unexpected-during-rekey")
    case AwaitNewKeys(newRx) =>
      if msg != MSG_NEWKEYS then Refuse(t, DISCONNECT_PROTOCOL_ERROR, "unexpected-during-rekey")
      else if payload != [MSG_NEWKEYS] then Refuse(t, DISCONNECT_PROTOCOL_ERROR, "expected-newkeys")
      else
        Next(Log(t, RekeyCompleted).(rx := newRx, seqRx := 0, unsealed := 0, bytesRx := 0, bytesTx := 0,
             lastKex := env.now), Completed)
  }

  /** `rekey_timeout`. */
  function RekeyTimeout(t: Link): (r: Step<Link>)
    ensures r.Stop?
  {
    Reject(t, DISCONNECT_KEY_EXCHANGE_FAILED, "rekey-timeout")
  }
}
