/** What every transport action keeps (`transport.rs`, the `Session` stage). */
module LinkProofs {
  import opened Wire
  import opened Trace
  import opened Transport

  function KexOf(p: Phase): nat {
    if p.Idle? then 0 else if p.AwaitNewKeys? then 3 else 1
  }

  /** The counters agree: the sequence number is the packet count mod 2^32 and
      the GCM invocation counter is its initial value plus the count mod 2^64. */
  predicate InStep(c: Cipher, number: U32, count: nat) {
    number == Wrap32(count) && c.invocation == Wrap64(c.initial + count)
  }

  lemma InStepNext(c: Cipher, number: U32, count: nat)
    requires InStep(c, number, count)
    ensures InStep(Advance(c), Wrap32(number + 1), count + 1)
  {
    Wrap32Next(count);
    Wrap64Next(c.initial + count);
    hide Wrap32, Wrap64;
  }

  lemma Wrap32Next(x: nat)
    ensures Wrap32(Wrap32(x) + 1) == Wrap32(x + 1)
  {
    var q, r := x / 0x1_0000_0000, x % 0x1_0000_0000;
    if r + 1 == 0x1_0000_0000 {
      assert x + 1 == 0x1_0000_0000 * (q + 1);
    } else {
      assert x + 1 == 0x1_0000_0000 * q + (r + 1);
    }
  }

  lemma Wrap64Next(x: nat)
    ensures Wrap64(Wrap64(x) + 1) == Wrap64(x + 1)
  {
    var q, r := x / 0x1_0000_0000_0000_0000, x % 0x1_0000_0000_0000_0000;
    if r + 1 == 0x1_0000_0000_0000_0000 {
      assert x + 1 == 0x1_0000_0000_0000_0000 * (q + 1);
    } else {
      assert x + 1 == 0x1_0000_0000_0000_0000 * q + (r + 1);
    }
  }

  /** No packet up to the server's CLOSE was sealed with a larger count. */
  predicate Below(h: History, highest: nat) {
    forall i :: 0 <= i < |h| && h[i].Sent? && !Order(h[..i]).closeSent ==> h[i].stamp.count <= highest
  }

  /** What `highest` can become when `extra` packets more are sealed. */
  function Top(t: Link, extra: nat): nat {
    if Order(t.history).closeSent then t.highest else Max(t.highest, t.sealed + extra)
  }

  lemma BelowAppend(h: History, highest: nat, e: Entry)
    requires Below(h, highest)
    ensures Below(Append(h, e), if e.Sent? && !Order(h).closeSent then Max(highest, e.stamp.count) else highest)
  {
    hide Order;
    var r := h + [e];
    var bound := if e.Sent? && !Order(h).closeSent then Max(highest, e.stamp.count) else highest;
    forall i | 0 <= i < |r| && r[i].Sent? && !Order(r[..i]).closeSent ensures r[i].stamp.count <= bound {
      if i < |h| {
        assert r[..i] == h[..i] && r[i] == h[i];
      } else {
        assert r[..i] == h;
      }
    }
  }

  /** The link between two actions, after `kex` messages of an exchange. */
  ghost predicate LinkAt(first: SealView, t: Link, kex: nat) {
    && Exchange(t.history).ok && !Exchange(t.history).over && Exchange(t.history).kex == kex
    && Seals(first, t.history) == SealView(true, t.tx.epoch, t.sealed)
    && InStep(t.tx, t.seqTx, t.sealed)
    && InStep(t.rx, t.seqRx, t.unsealed)
    && Below(t.history, t.highest)
  }

  ghost predicate LinkOk(first: SealView, t: Link) {
    LinkAt(first, t, KexOf(t.phase)) && (t.phase.AwaitNewKeys? ==> t.sealed == 0 && InStep(t.phase.newRx, 0, 0))
  }

  /** A link the connection ended on: the rules were never broken. */
  ghost predicate LinkClean(first: SealView, t: Link) {
    Exchange(t.history).ok && Seals(first, t.history).ok && Below(t.history, t.highest)
  }

  /** The action said nothing about the channel, the deferrals or the audit trail. */
  ghost predicate Silent(t: Link, t': Link) {
    && Order(t'.history) == Order(t.history) && Output(t'.history) == Output(t.history)
    && Audit(t'.history) == Audit(t.history) && Intake(t'.history) == Intake(t.history)
    && Exchange(t'.history).deferred == Exchange(t.history).deferred
  }

  /** The receiving side and the limits are untouched by a write. */
  predicate SameReceiver(t: Link, t': Link) {
    t'.rx == t.rx && t'.seqRx == t.seqRx && t'.unsealed == t.unsealed && t'.limits == t.limits
  }

  /** A message outside an exchange. */
  lemma PlainWrite(first: SealView, t: Link, f: Frame)
    requires LinkAt(first, t, 0) && !KexFrame(f)
    ensures var r := Write(t, f);
            && LinkClean(first, r.st)
            && (r.Stop? ==> r.st.history == t.history && r.st.highest == t.highest)
            && (r.Go? ==> LinkAt(first, r.st, 0) && r.st.sealed == t.sealed + 1 && r.st.highest == Top(t, 0)
                          && r.st.phase == t.phase && r.st.tx.epoch == t.tx.epoch && SameReceiver(t, r.st)
                          && Exchange(r.st.history).deferred == Exchange(t.history).deferred)
  {
    hide InStep, Payload, Below, ObserveOrder, ObserveOutput, ObserveAudit, ObserveIntake, Wrap32, Wrap64, SatAdd;
    hide Exchange, Seals, Order, Output, Audit, Intake, U64_LIMIT;
    NumberIsCount(t);
    BelowAppend(t.history, t.highest, Sent(f, Stamp(t.tx, t.sealed, t.seqTx)));
    InStepNext(t.tx, t.seqTx, t.sealed);
  }

  lemma KexWrite(first: SealView, t: Link, f: Frame)
    requires LinkAt(first, t, if f.KexInit? then 0 else 1) && (f.KexInit? || f.HybridReply?)
    ensures var r := Write(t, f);
            && LinkClean(first, r.st) && Silent(t, r.st) && (r.Stop? ==> r.st.highest == t.highest)
            && (r.Go? ==> LinkAt(first, r.st, if f.KexInit? then 1 else 2) && r.st.sealed == t.sealed + 1
                          && r.st.highest == Top(t, 0)
                          && r.st.tx.epoch == t.tx.epoch && r.st.phase == t.phase && SameReceiver(t, r.st))
  {
    hide InStep, Payload, KexFrame, Below, ObserveOrder, ObserveOutput, ObserveAudit, ObserveIntake, Wrap32;
    hide Wrap64, SatAdd;
    hide Exchange, Seals, Order, Output, Audit, Intake, U64_LIMIT;
    var h, e := t.history, Sent(f, Stamp(t.tx, t.sealed, t.seqTx));
    KexSilent(Order(h), Output(h), Audit(h), Intake(h), e);
    NumberIsCount(t);
    BelowAppend(h, t.highest, e);
    InStepNext(t.tx, t.seqTx, t.sealed);
  }

  lemma NumberIsCount(t: Link)
    ensures InStep(t.tx, t.seqTx, t.sealed) ==> t.seqTx == t.sealed % 0x1_0000_0000
  {
  }

  lemma KexSilent(v: OrderView, o: OutputView, a: AuditView, k: IntakeView, e: Entry)
    requires e.Sent? && (e.frame.KexInit? || e.frame.HybridReply?)
    ensures ObserveOrder(v, e) == v && ObserveOutput(o, e) == o && ObserveAudit(a, e) == a && ObserveIntake(k, e) == k
  {
  }

  lemma NewKeysWrite(first: SealView, t: Link)
    requires LinkAt(first, t, 2)
    ensures var r := Write(t, NewKeys);
            && LinkClean(first, r.st) && Silent(t, r.st) && (r.Stop? ==> r.st.highest == t.highest)
            && (r.Go? ==> Exchange(r.st.history) == Exchange(t.history).(kex := 3)
                          && Seals(first, r.st.history) == SealView(true, t.tx.epoch + 1, 0)
                          && r.st.highest == Top(t, 0)
                          && r.st.tx.epoch == t.tx.epoch && SameReceiver(t, r.st))
  {
    hide InStep, Payload, Below, Wrap32, Wrap64, SatAdd, Exchange, Seals, Order, Output, Audit, Intake, U64_LIMIT;
    NumberIsCount(t);
    BelowAppend(t.history, t.highest, Sent(NewKeys, Stamp(t.tx, t.sealed, t.seqTx)));
  }

  /** DISCONNECT is allowed at any point, also inside an exchange. */
  lemma RejectKeeps(first: SealView, t: Link, kex: nat, code: U32, reason: string)
    requires LinkAt(first, t, kex) && |reason| < 64
    ensures LinkClean(first, Reject(t, code, reason).st) && Silent(t, Reject(t, code, reason).st)
    ensures Reject(t, code, reason).st.highest <= Top(t, 0)
  {
    hide InStep, Below, Ascii, Wrap32, Wrap64, Exchange, Seals, Order, Output, Audit, Intake;
    NumberIsCount(t);
    BelowAppend(t.history, t.highest, Sent(Disconnect(code, Ascii(reason)), Stamp(t.tx, t.sealed, t.seqTx)));
  }

  lemma ReceivedKeeps(first: SealView, t: Link, payload: Bytes)
    requires LinkOk(first, t)
    ensures LinkOk(first, Received(t, payload)) && Silent(t, Received(t, payload))
  {
    hide InStep, Below;
    InStepNext(t.rx, t.seqRx, t.unsealed);
  }

  lemma BeginKeeps(first: SealView, t: Link, env: Env)
    requires LinkOk(first, t) && t.phase.Idle?
    ensures var r := BeginRekey(t, env);
            && LinkClean(first, r.st) && Silent(t, r.st) && r.st.highest <= Top(t, 0)
            && (r.Go? ==> LinkOk(first, r.st) && r.st.phase.SentKexInit? && r.st.sealed == t.sealed + 1
                          && r.st.highest == Top(t, 0) && r.st.limits == t.limits)
  {
    hide Payload, ChannelPayload, KexFrame;
    if env.kexInit.Some? {
      KexWrite(first, t, KexInit(env.kexInit.value));
    }
  }

  lemma NegotiateKeeps(first: SealView, t: Link, clientInit: Bytes, serverInit: Bytes, env: Env)
    requires LinkAt(first, t, 1)
    ensures var r := Negotiate(t, clientInit, serverInit, env);
            && LinkClean(first, r.link) && Silent(t, r.link)
            && (r.Next? ==> LinkOk(first, r.link) && r.what.Continued? && r.link.phase.AwaitHybridInit?
                            && r.link.sealed == t.sealed && r.link.limits == t.limits)
            && r.link.highest <= Top(t, 0)
  {
    match env.negotiation
    case Agreed(skip) =>
    case Refused(reason) => RejectKeeps(first, t, 1, DISCONNECT_KEY_EXCHANGE_FAILED, Short(reason));
    case BadOffer => RejectKeeps(first, t, 1, DISCONNECT_PROTOCOL_ERROR, "malformed-rekey-kexinit");
  }

  lemma CompleteKeeps(first: SealView, t: Link, payload: Bytes, clientInit: Bytes, serverInit: Bytes, env: Env)
    requires LinkAt(first, t, 1)
    ensures var r := CompleteReply(t, payload, clientInit, serverInit, env);
            && LinkClean(first, r.link) && Silent(t, r.link)
            && (r.Next? ==> LinkOk(first, r.link) && r.what.Continued? && r.link.phase.AwaitNewKeys?
                            && r.link.limits == t.limits)
            && r.link.highest <= Top(t, 1)
  {
    hide Write, Reject, HybridInitOf, Exchange, Seals, Order, Output, Audit, Intake, Below;
    if HybridInitOf(payload).Err? || env.hybrid.HybridMalformed? {
      RejectKeeps(first, t, 1, DISCONNECT_PROTOCOL_ERROR, "malformed-hybrid-init");
    } else if env.hybrid.HybridRefused? {
      RejectKeeps(first, t, 1, DISCONNECT_KEY_EXCHANGE_FAILED, Short(env.hybrid.reason));
    } else if env.hybrid.signature.None? {
      RejectKeeps(first, t, 1, DISCONNECT_KEY_EXCHANGE_FAILED, "rng-failure");
    } else {
      var f := HybridReply(env.hostKey, env.hybrid.reply, env.hybrid.signature.value);
      KexWrite(first, t, f);
      if Write(t, f).Go? {
        NewKeysWrite(first, Write(t, f).st);
      }
    }
  }

  /** The last step of an exchange: the peer's NEWKEYS. */
  lemma CompletionKeeps(first: SealView, t: Link, now: nat)
    requires LinkOk(first, t) && t.phase.AwaitNewKeys?
    ensures var r := Log(t.(phase := Idle), RekeyCompleted).(rx := t.phase.newRx, seqRx := 0, unsealed := 0,
                         bytesRx := 0, bytesTx := 0, lastKex := now);
            LinkOk(first, r) && LinkClean(first, r) && Silent(t, r) && r.sealed == 0 && r.highest == t.highest
                && r.limits == t.limits && r.phase.Idle?
  {
    hide InStep, Below, Seals, Order, Output, Audit, Intake, Exchange;
    BelowAppend(t.history, t.highest, RekeyCompleted);
  }

  /** The link with its phase taken out, as `step_rekey` works on it. */
  lemma PhaseTaken(first: SealView, t: Link, kex: nat, p: Phase, started: nat)
    requires LinkAt(first, t, kex)
    ensures var r := t.(phase := p, started := started);
            LinkAt(first, r, kex) && LinkClean(first, r) && Silent(t, r)
                && forall extra :: Top(r, extra) == Top(t, extra)
  {
    hide InStep, Below, Seals, Order, Output, Audit, Intake, Exchange;
  }

  /** What a step of the sub-machine leaves. */
  ghost predicate Stepped(first: SealView, t: Link, r: Rekeyed) {
    && LinkClean(first, r.link) && Silent(t, r.link) && r.link.highest <= Top(t, 1)
    && (r.Next? ==>
          && LinkOk(first, r.link) && r.link.limits == t.limits
          && (r.what.PassToChannel? ==> t.phase.SentKexInit? && r.link == t)
          && (r.what.Completed? ==> t.phase.AwaitNewKeys? && r.link.phase.Idle? && r.link.sealed == 0)
          && (r.what.Continued? ==> r.link.phase.AwaitHybridInit? || r.link.phase.AwaitNewKeys?)
          && (r.link.phase.AwaitHybridInit? ==> r.link.sealed <= t.sealed + (if t.phase.Idle? then 1 else 0)))
  }

  /** A KEXINIT that the peer sends first. */
  lemma PeerStarts(first: SealView, t: Link, payload: Bytes, env: Env)
    requires LinkOk(first, t) && t.phase.Idle?
    ensures Stepped(first, t, StepRekey(t, payload, env))
  {
    hide Write, Negotiate, CompleteReply, Reject, LinkAt, LinkClean, Order, Output, Audit, Intake, Exchange;
    PhaseTaken(first, t, 0, Phase.Idle, t.started);
    PhaseTaken(first, t, 0, Phase.Idle, env.now);
    if payload == [] || payload[0] != MSG_KEXINIT {
      RejectKeeps(first, t.(phase := Idle), 0, DISCONNECT_PROTOCOL_ERROR, "unexpected-during-rekey");
    } else if env.kexInit.Some? {
      var t1 := t.(phase := Idle, started := env.now);
      KexWrite(first, t1, KexInit(env.kexInit.value));
      var w := Write(t1, KexInit(env.kexInit.value));
      if w.Go? {
        NegotiateKeeps(first, w.st, payload, env.kexInit.value, env);
      }
    }
  }

  lemma StartedStep(first: SealView, t: Link, payload: Bytes, env: Env)
    requires LinkOk(first, t) && (t.phase.SentKexInit? || t.phase.AwaitHybridInit?)
    ensures Stepped(first, t, StepRekey(t, payload, env))
  {
    hide Write, Negotiate, CompleteReply, Reject, Order, Output, Audit, Intake, Exchange, Seals, InStep, Below;
    PhaseTaken(first, t, 1, Phase.Idle, t.started);
    var t0 := t.(phase := Idle);
    if t.phase.SentKexInit? {
      NegotiateKeeps(first, t0, payload, t.phase.serverInit, env);
    } else {
      if t.phase.skipGuessed {
        PhaseTaken(first, t, 1, AwaitHybridInit(t.phase.clientInit, t.phase.serverInit, false), t.started);
      } else {
        CompleteKeeps(first, t0, payload, t.phase.clientInit, t.phase.serverInit, env);
        RejectKeeps(first, t0, 1, DISCONNECT_PROTOCOL_ERROR, "unexpected-during-rekey");
      }
    }
  }

  lemma LinkOkAt(first: SealView, t: Link)
    requires LinkOk(first, t)
    ensures LinkAt(first, t, KexOf(t.phase))
  {
    hide LinkAt;
  }

  lemma LastStep(first: SealView, t: Link, payload: Bytes, env: Env)
    requires LinkOk(first, t) && t.phase.AwaitNewKeys?
    ensures Stepped(first, t, StepRekey(t, payload, env))
  {
    hide Write, Reject, LinkOk, LinkAt, LinkClean, Order, Output, Audit, Intake, Exchange, Log, Seals, InStep, Below;
    LinkOkAt(first, t);
    PhaseTaken(first, t, 3, Phase.Idle, t.started);
    CompletionKeeps(first, t, env.now);
    if payload == [] || payload[0] != MSG_NEWKEYS {
      RejectKeeps(first, t.(phase := Idle), 3, DISCONNECT_PROTOCOL_ERROR, "unexpected-during-rekey");
    } else if payload != [MSG_NEWKEYS] {
      RejectKeeps(first, t.(phase := Idle), 3, DISCONNECT_PROTOCOL_ERROR, "expected-newkeys");
    }
  }

  /** `step_rekey`: the sub-machine advances by its own messages only, and
      never speaks for the channel. */
  lemma StepRekeyKeeps(first: SealView, t: Link, payload: Bytes, env: Env)
    requires LinkOk(first, t)
    ensures Stepped(first, t, StepRekey(t, payload, env))
  {
    hide Stepped, LinkOk, StepRekey;
    if t.phase.Idle? {
      PeerStarts(first, t, payload, env);
    } else if t.phase.AwaitNewKeys? {
      LastStep(first, t, payload, env);
    } else {
      StartedStep(first, t, payload, env);
    }
  }

  // ---- which packets the sub-machine takes ----

  predicate Offers(payload: Bytes) { payload != [] && payload[0] == 20 }

  /** A HYBRID_INIT: its code, one string of at most 1216 bytes, nothing after. */
  predicate Answers(payload: Bytes, share: Str) { |share| <= 1216 && payload == [30] + PutString(share) }

  lemma AnswerExactly(payload: Bytes, share: Str)
    requires payload != [] && payload[0] == 30
    ensures HybridInitOf(payload) == Ok(share) <==> Answers(payload, share)
  {
    hide GetString, PutString;
    if GetString(payload[1..], CLIENT_INIT_LEN).Ok? {
      PutGetString(payload[1..], CLIENT_INIT_LEN);
      var g := GetString(payload[1..], CLIENT_INIT_LEN).value;
      assert payload == [30] + payload[1..] && PutString(g.value) + [] == PutString(g.value);
    }
    if Answers(payload, share) {
      GetPutString(share, [], CLIENT_INIT_LEN);
      assert payload[1..] == PutString(share) && PutString(share) + [] == PutString(share);
    }
  }

  lemma HalfGoes(t: Link, payload: Bytes, clientInit: Bytes, serverInit: Bytes, env: Env)
    requires payload != [] && payload[0] == 30
    ensures var r := CompleteReply(t, payload, clientInit, serverInit, env);
            && (r.Next? <==> && (exists share :: Answers(payload, share)) && env.hybrid.HybridDone?
                             && env.hybrid.signature.Some? && t.ioLeft >= 2)
            && (r.Next? ==> r.what.Continued? && r.link.phase.AwaitNewKeys?)
  {
    hide HybridInitOf, Payload, Append, Order, Max, Wrap32, Advance, SatAdd, Ascii, Short, Answers;
    if HybridInitOf(payload).Ok? {
      AnswerExactly(payload, HybridInitOf(payload).value);
    }
    forall share | Answers(payload, share) ensures HybridInitOf(payload) == Ok(share) {
      AnswerExactly(payload, share);
    }
  }

  lemma OfferGoes(t: Link, payload: Bytes, env: Env)
    requires t.phase.Idle? || t.phase.SentKexInit?
    ensures var r := StepRekey(t, payload, env);
            && (r.Next? && r.what.Continued? <==>
                  && Offers(payload) && env.negotiation.Agreed?
                  && (t.phase.Idle? ==> env.kexInit.Some? && t.ioLeft > 0))
            && (r.Next? && r.what.Continued? ==> r.link.phase.AwaitHybridInit?)
            && (r.Next? && r.what.PassToChannel? <==> t.phase.SentKexInit? && !Offers(payload))
            && !(r.Next? && r.what.Completed?)
  {
    hide Payload, Append, Order, Max, Wrap32, Advance, SatAdd, Ascii, Short, CompleteReply;
  }

  lemma AnswerGoes(t: Link, payload: Bytes, env: Env)
    requires t.phase.AwaitHybridInit?
    ensures var r := StepRekey(t, payload, env);
            && (r.Next? <==> t.phase.skipGuessed || (&& (exists share :: Answers(payload, share))
                                                     && env.hybrid.HybridDone? && env.hybrid.signature.Some?
                                                     && t.ioLeft >= 2))
            && (r.Next? ==> r.what.Continued?)
            && (r.Next? && t.phase.skipGuessed ==> r.link == t.(phase := t.phase.(skipGuessed := false)))
            && (r.Next? && !t.phase.skipGuessed ==> r.link.phase.AwaitNewKeys?)
  {
    hide Reject, CompleteReply, Negotiate, Answers, Ascii;
    var t0 := t.(phase := Phase.Idle);
    if payload != [] && payload[0] == 30 {
      HalfGoes(t0, payload, t.phase.clientInit, t.phase.serverInit, env);
    } else {
      forall share ensures !Answers(payload, share) {
        NoAnswer(payload, share);
      }
    }
  }

  lemma NoAnswer(payload: Bytes, share: Str)
    requires payload == [] || payload[0] != 30
    ensures !Answers(payload, share)
  {
  }

  /** Which packets `step_rekey` takes, for every phase: a KEXINIT that can be agreed
      on starts or joins an exchange, the packet guessed wrongly is skipped whatever
      it is, a well-formed HYBRID_INIT is answered, exactly [21] completes; while the
      server's own KEXINIT is unanswered anything else goes to the channel; every
      other packet ends the connection. */
  lemma StepsExactly(t: Link, payload: Bytes, env: Env)
    ensures var r := StepRekey(t, payload, env);
            && (r.Next? && r.what.Completed? <==> t.phase.AwaitNewKeys? && payload == [21])
            && (r.Next? && r.what.PassToChannel? <==> t.phase.SentKexInit? && !Offers(payload))
            && (r.Next? && r.what.Continued? <==>
                  match t.phase
                  case Idle => Offers(payload) && env.negotiation.Agreed? && env.kexInit.Some? && t.ioLeft > 0
                  case SentKexInit(_) => Offers(payload) && env.negotiation.Agreed?
                  case AwaitHybridInit(_, _, skip) =>
                    skip || (&& (exists share :: Answers(payload, share)) && env.hybrid.HybridDone?
                             && env.hybrid.signature.Some? && t.ioLeft >= 2)
                  case AwaitNewKeys(_) => false)
  {
    hide Reject, CompleteReply, Negotiate, Answers, Ascii, Write;
    if t.phase.Idle? || t.phase.SentKexInit? {
      OfferGoes(t, payload, env);
    } else if t.phase.AwaitHybridInit? {
      AnswerGoes(t, payload, env);
    }
  }
}
