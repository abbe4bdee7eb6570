/** Ciphers and reader together: a stream of sealed packets is read back as the
payloads that were sealed, by the uninterrupted reader and therefore by the
resumable one. */
module Framing {
  import opened Wire
  import opened Aead
  import PacketReader

  /** GCM under one key; the state is the invocation counter. */
  function GcmOpener(k: GcmKey): PacketReader.Opener<U64> {
    PacketReader.Opener<U64>.Opener(
      (c: U64, n: U32, length: Bytes) => if |length| == 4 && BodyLenGcm(length).Ok?
          then Some(BodyLenGcm(length).value) else None,
      (c: U64, n: U32, length: Bytes, body: Bytes) =>
        match OpenGcm(k, c, length, body)
        case Clear(p) => Some((p, (c + 1) % 0x1_0000_0000_0000_0000))
        case Refused(_) => None,
      (p: Bytes) => None)
  }

  /** ChaCha under one key; the sequence number is all its state. */
  function ChaChaOpener(k: ChaCha): PacketReader.Opener<()> {
    PacketReader.Opener<()>.Opener(
      (c: (), n: U32, length: Bytes) => if |length| == 4 && BodyLenChaCha(k, n, length).Ok?
          then Some(BodyLenChaCha(k, n, length).value) else None,
      (c: (), n: U32, length: Bytes, body: Bytes) =>
        match OpenChaCha(k, n, length, body)
        case Clear(p) => Some((p, ()))
        case Refused(_) => None,
      (p: Bytes) => None)
  }

  predicate Fits(payload: Bytes, block: nat)
    requires block == 8 || block == 16
  {
    1 + |payload| + PaddingFor(1 + |payload|, block) <= MAX_PACKET
  }

  /** The packets of a list of payloads, one after another. */
  ghost function GcmStream(k: GcmKey, invocation: U64, payloads: seq<Bytes>, draw: nat -> Bytes): Bytes
    requires Draws(draw)
    decreases |payloads|
  {
    if payloads == [] || SealGcm(k, invocation, payloads[0], draw).Err? then []
    else
      SealGcm(k, invocation, payloads[0], draw).value +
      GcmStream(k, (invocation + 1) % 0x1_0000_0000_0000_0000, payloads[1..], draw)
  }

  ghost function ChaChaStream(k: ChaCha, number: U32, payloads: seq<Bytes>, draw: nat -> Bytes): Bytes
    requires Draws(draw)
    decreases |payloads|
  {
    if payloads == [] || SealChaCha(k, number, payloads[0], draw).Err? then []
    else
      SealChaCha(k, number, payloads[0], draw).value +
      ChaChaStream(k, (number + 1) % 0x1_0000_0000, payloads[1..], draw)
  }

  lemma Head(packet: Bytes, rest: Bytes)
    requires |packet| >= 4
    ensures var s := packet + rest;
            s[..4] == packet[..4] && s[4..|packet|] == packet[4..] && s[|packet|..] == rest
  {
  }

  lemma GcmPacketReads(k: GcmKey, invocation: U64, number: U32, payload: Bytes, draw: nat -> Bytes, rest: Bytes)
    requires Draws(draw) && Tags(k.tag) && Fits(payload, GCM_BLOCK)
    ensures SealGcm(k, invocation, payload, draw).Ok? && GcmOpener(k).installs(payload).None?
    ensures PacketReader.ReadSealed(GcmOpener(k), invocation, number,
                                    SealGcm(k, invocation, payload, draw).value + rest) ==
            PacketReader.Packet(payload, (invocation + 1) % 0x1_0000_0000_0000_0000, (number + 1) % 0x1_0000_0000, rest)
  {
    GcmRoundTrip(k, invocation, payload, draw);
    hide SealGcm, OpenGcm, BodyLenGcm, Fits, PaddingFor;
    Head(SealGcm(k, invocation, payload, draw).value, rest);
  }

  lemma ChaChaPacketReads(k: ChaCha, number: U32, payload: Bytes, draw: nat -> Bytes, rest: Bytes)
    requires Draws(draw) && Tags(k.tag) && Fits(payload, CHACHA_BLOCK)
    ensures SealChaCha(k, number, payload, draw).Ok? && ChaChaOpener(k).installs(payload).None?
    ensures PacketReader.ReadSealed(ChaChaOpener(k), (), number, SealChaCha(k, number, payload, draw).value + rest) ==
            PacketReader.Packet(payload, (), (number + 1) % 0x1_0000_0000, rest)
  {
    ChaChaRoundTrip(k, number, payload, draw);
    hide SealChaCha, OpenChaCha, BodyLenChaCha, Fits, PaddingFor;
    Head(SealChaCha(k, number, payload, draw).value, rest);
  }

  lemma {:induction false} GcmStreamReads(k: GcmKey, invocation: U64, number: U32, payloads: seq<Bytes>,
                                          draw: nat -> Bytes)
    requires Draws(draw) && Tags(k.tag) && forall i :: 0 <= i < |payloads| ==> Fits(payloads[i], GCM_BLOCK)
    ensures PacketReader.Payloads(GcmOpener(k), invocation, number, GcmStream(k, invocation, payloads, draw)) ==
              payloads
    decreases |payloads|
  {
    hide SealGcm, GcmOpener, Fits, PacketReader.ReadSealed, Draws, Tags;
    if payloads != [] {
      var next: U64 := (invocation + 1) % 0x1_0000_0000_0000_0000;
      GcmPacketReads(k, invocation, number, payloads[0], draw, GcmStream(k, next, payloads[1..], draw));
      GcmStreamReads(k, next, (number + 1) % 0x1_0000_0000, payloads[1..], draw);
    }
  }

  lemma {:induction false} ChaChaStreamReads(k: ChaCha, number: U32, payloads: seq<Bytes>, draw: nat -> Bytes)
    requires Draws(draw) && Tags(k.tag) && forall i :: 0 <= i < |payloads| ==> Fits(payloads[i], CHACHA_BLOCK)
    ensures PacketReader.Payloads(ChaChaOpener(k), (), number, ChaChaStream(k, number, payloads, draw)) == payloads
    decreases |payloads|
  {
    hide SealChaCha, ChaChaOpener, Fits, PacketReader.ReadSealed, Draws, Tags;
    if payloads != [] {
      var next: U32 := (number + 1) % 0x1_0000_0000;
      ChaChaPacketReads(k, number, payloads[0], draw, ChaChaStream(k, next, payloads[1..], draw));
      ChaChaStreamReads(k, next, payloads[1..], draw);
    }
  }
}
