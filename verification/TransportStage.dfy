/** The `Session` stage of `transport.rs` as the object the source has: fields
updated step by step. Each method is proved to do what the function of
`Transport` says, so everything proved about those functions holds of it. */
module TransportStage {
  import opened Wire
  import opened Trace
  import opened Transport

  datatype Outcome = Done | Broken(cause: Cause)

  /** The method's result and the state it leaves are those of the function. */
  predicate Agrees<S(==)>(o: Outcome, now: S, step: Step<S>) {
    now == step.st && (if step.Go? then o.Done? else o == Broken(step.cause))
  }

  predicate AgreesRekey(o: Outcome, what: RekeyStep, now: Link, r: Rekeyed) {
    match r
    case Next(t, w) => o.Done? && what == w && now == t
    case Halt(t, cause) => o == Broken(cause) && now == t
  }

  class Stage {
    var seqTx: U32
    var seqRx: U32
    var tx: Cipher
    var rx: Cipher
    var bytesTx: U64
    var bytesRx: U64
    var lastKex: nat
    var started: nat
    var phase: Phase
    const limits: Thresholds
    var ioLeft: nat
    ghost var sealed: nat
    ghost var unsealed: nat
    ghost var highest: nat
    ghost var history: History

    constructor (tx: Cipher, rx: Cipher, seqTx: U32, seqRx: U32, limits: Thresholds, now: nat, ioLeft: nat,
                 ghost sealed: nat, ghost unsealed: nat)
      ensures View() == Link(seqTx, seqRx, tx, rx, sealed, unsealed, 0, 0, 0, now, now, limits, Idle, ioLeft, [])
    {
      this.tx, this.rx, this.seqTx, this.seqRx, this.limits := tx, rx, seqTx, seqRx, limits;
      bytesTx, bytesRx, lastKex, started, phase, this.ioLeft := 0, 0, now, now, Idle, ioLeft;
      this.sealed, this.unsealed, highest, history := sealed, unsealed, 0, [];
    }

    ghost function View(): Link
      reads this
    {
      Link(seqTx, seqRx, tx, rx, sealed, unsealed, highest, bytesTx, bytesRx, lastKex, started, limits, phase, ioLeft,
           history)
    }

    method WriteSealed(f: Frame) returns (o: Outcome)
      modifies this`ioLeft, this`highest, this`history, this`seqTx, this`tx, this`sealed
      ensures Agrees(o, View(), Seal(old(View()), f))
    {
      hide Append, Order, Max, Wrap32, Advance;
      if ioLeft == 0 {
        return Broken(Io);
      }
      ghost var closed := Order(history).closeSent;
      Record(Sent(f, Stamp(tx, sealed, seqTx)));
      CountSealed(closed);
      return Done;
    }

    /** One packet more on the stream and under the key. */
    method CountSealed(ghost closed: bool)
      requires ioLeft > 0
      modifies this`ioLeft, this`highest, this`seqTx, this`tx, this`sealed
      ensures View() == old(View()).(ioLeft := old(ioLeft) - 1, seqTx := Wrap32(old(seqTx) + 1), tx := Advance(old(tx)),
                        sealed := old(sealed) + 1,
                        highest := if closed then old(highest) else Max(old(highest), old(sealed)))
    {
      hide Wrap32, Advance, Max;
      ioLeft := ioLeft - 1;
      highest := if closed then highest else Max(highest, sealed);
      seqTx := Wrap32(seqTx + 1);
      tx := Advance(tx);
      sealed := sealed + 1;
    }

    method WritePacket(f: Frame) returns (o: Outcome)
      modifies this
      ensures Agrees(o, View(), Write(old(View()), f))
    {
      bytesTx := SatAdd(bytesTx, |Payload(f)|, U64_LIMIT);
      o := WriteSealed(f);
    }

    method Disconnect(code: U32, reason: string) returns (o: Outcome)
      requires |reason| < 64
      modifies this
      ensures Agrees(o, View(), Reject(old(View()), code, reason))
    {
      var _ := WriteSealed(Frame.Disconnect(code, Ascii(reason)));
      return Broken(Rejected(reason));
    }

    method ProtocolDisconnect(reason: string) returns (o: Outcome)
      requires |reason| < 64
      modifies this
      ensures Agrees(o, View(), Violation(old(View()), reason))
    {
      o := Disconnect(DISCONNECT_PROTOCOL_ERROR, reason);
    }

    /** The accounting of `read_packet` for one opened payload. */
    method Opened(payload: Bytes)
      modifies this
      ensures View() == Received(old(View()), payload)
    {
      seqRx := Wrap32(seqRx + 1);
      rx := Advance(rx);
      unsealed := unsealed + 1;
      bytesRx := SatAdd(bytesRx, |payload|, U64_LIMIT);
    }

    predicate IsActive()
      reads this
      ensures IsActive() == Transport.RekeyActive(View())
    {
      !phase.Idle?
    }

    predicate IsDue(now: nat)
      reads this
      ensures IsDue(now) == RekeyDue(View(), now)
    {
      && phase.Idle?
      && (|| bytesRx >= limits.maxBytes || bytesTx >= limits.maxBytes
          || seqRx >= limits.maxPackets || seqTx >= limits.maxPackets
          || Elapsed(now, lastKex) >= limits.maxInterval)
    }

    method BeginRekey(env: Env) returns (o: Outcome)
      modifies this
      ensures Agrees(o, View(), Transport.BeginRekey(old(View()), env))
    {
      if env.kexInit.None? {
        return Broken(Io);
      }
      o := WritePacket(KexInit(env.kexInit.value));
      if o.Done? {
        started := env.now;
        phase := SentKexInit(env.kexInit.value);
      }
    }

    method NegotiateRekey(clientInit: Bytes, serverInit: Bytes, env: Env) returns (o: Outcome, what: RekeyStep)
      modifies this
      ensures AgreesRekey(o, what, View(), Negotiate(old(View()), clientInit, serverInit, env))
    {
      what := Continued;
      match env.negotiation
      case Agreed(skip) =>
        phase := AwaitHybridInit(clientInit, serverInit, skip);
        o := Done;
      case Refused(reason) =>
        o := Disconnect(DISCONNECT_KEY_EXCHANGE_FAILED, Short(reason));
      case BadOffer =>
        o := ProtocolDisconnect("malformed-rekey-kexinit");
    }

    method CompleteRekeyReply(payload: Bytes, clientInit: Bytes, serverInit: Bytes, env: Env)
      returns (o: Outcome, what: RekeyStep)
      modifies this
      ensures AgreesRekey(o, what, View(), CompleteReply(old(View()), payload, clientInit, serverInit, env))
    {
      hide Write, Reject;
      what := Continued;
      var init := HybridInitOf(payload);
      if init.Err? || env.hybrid.HybridMalformed? {
        o := ProtocolDisconnect("malformed-hybrid-init");
        return;
      }
      if env.hybrid.HybridRefused? {
        o := Disconnect(DISCONNECT_KEY_EXCHANGE_FAILED, Short(env.hybrid.reason));
        return;
      }
      if env.hybrid.signature.None? {
        o := Disconnect(DISCONNECT_KEY_EXCHANGE_FAILED, "rng-failure");
        return;
      }
      var exchanged := Exchanged(clientInit, serverInit, init.value, env.hybrid.reply);
      var ivs := env.ivs(exchanged);
      o := WritePacket(HybridReply(env.hostKey, env.hybrid.reply, env.hybrid.signature.value));
      if o.Broken? {
        return;
      }
      // NEWKEYS goes out under the old cipher.
      o := WritePacket(NewKeys);
      if o.Broken? {
        return;
      }
      tx := Cipher(tx.epoch + 1, exchanged, ivs.serverToClient, ivs.serverToClient);
      seqTx := 0;
      sealed := 0;
      phase := AwaitNewKeys(Cipher(rx.epoch + 1, exchanged, ivs.clientToServer, ivs.clientToServer));
    }

    /** Peer's NEWKEYS: the staged receive cipher takes over. */
    method InstallReceiver(newRx: Cipher, now: nat)
      modifies this`history, this`rx, this`seqRx, this`unsealed, this`bytesRx, this`bytesTx, this`lastKex, this`phase
      ensures View() == old(View()).(history := Append(old(history), RekeyCompleted), rx := newRx, seqRx := 0,
                        unsealed := 0, bytesRx := 0, bytesTx := 0, lastKex := now, phase := Idle)
    {
      Record(RekeyCompleted);
      ResetReceiver(newRx);
      bytesTx := 0;
      lastKex := now;
      phase := Idle;
    }

    method ResetReceiver(newRx: Cipher)
      modifies this`rx, this`seqRx, this`unsealed, this`bytesRx
      ensures View() == old(View()).(rx := newRx, seqRx := 0, unsealed := 0, bytesRx := 0)
    {
      rx := newRx;
      seqRx := 0;
      unsealed := 0;
      bytesRx := 0;
    }

    ghost method Record(e: Entry)
      modifies this`history
      ensures View() == old(View()).(history := Append(old(history), e))
    {
      hide Append, Exchange, Seals, Order, Output, Audit, Intake;
      hide ObserveExchange, ObserveSeal, ObserveOrder, ObserveOutput, ObserveAudit, ObserveIntake;
      history := Append(history, e);
    }

    method StepRekey(payload: Bytes, env: Env) returns (o: Outcome, what: RekeyStep)
      modifies this
      ensures AgreesRekey(o, what, View(), Transport.StepRekey(old(View()), payload, env))
    {
      hide Write, Reject, Negotiate, CompleteReply;
      var msg := if payload == [] then 0 else payload[0];
      var taken := phase;
      phase := Idle;
      what := Continued;
      match taken
      case Idle =>
        if msg != MSG_KEXINIT {
          o := ProtocolDisconnect("unexpected-during-rekey");
          return;
        }
        started := env.now;
        if env.kexInit.None? {
          o := Broken(Io);
          return;
        }
        o := WritePacket(KexInit(env.kexInit.value));
        if o.Done? {
          o, what := NegotiateRekey(payload, env.kexInit.value, env);
        }
      case SentKexInit(serverInit) =>
        if msg == MSG_KEXINIT {
          o, what := NegotiateRekey(payload, serverInit, env);
        } else {
          phase := taken;
          o, what := Done, PassToChannel;
        }
      case AwaitHybridInit(clientInit, serverInit, skip) =>
        if skip {
          phase := AwaitHybridInit(clientInit, serverInit, false);
          o := Done;
        } else if msg == MSG_KEX_HYBRID_INIT {
          o, what := CompleteRekeyReply(payload, clientInit, serverInit, env);
        } else {
          o := ProtocolDisconnect("unexpected-during-rekey");
        }
      case AwaitNewKeys(newRx) =>
        if msg != MSG_NEWKEYS {
          o := ProtocolDisconnect("unexpected-during-rekey");
        } else if payload != [MSG_NEWKEYS] {
          o := ProtocolDisconnect("expected-newkeys");
        } else {
          InstallReceiver(newRx, env.now);
          o, what := Done, Completed;
        }
    }

    method Timeout() returns (o: Outcome)
      modifies this
      ensures Agrees(o, View(), RekeyTimeout(old(View())))
    {
      o := Disconnect(DISCONNECT_KEY_EXCHANGE_FAILED, "rekey-timeout");
    }
  }
}
