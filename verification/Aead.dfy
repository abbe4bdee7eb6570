/** The two packet ciphers (`cipher.rs`), for any keystream and any tag
function. A keystream gives one byte per nonce and position. */
module Aead {
  import opened Wire
  import Trace

  const TAG_LEN: nat := 16
  const CHACHA_BLOCK: nat := 8
  const GCM_BLOCK: nat := 16
  /** ChaCha's first keystream block is the Poly1305 key. */
  const BODY_OFFSET: nat := 64

  type Keystream = (Bytes, nat) -> Byte
  type Tagger = (Bytes, Bytes, Bytes) -> Bytes

  datatype Fault = BadTag | Malformed(error: WireError)

  datatype Opened<+T> = Clear(value: T) | Refused(fault: Fault)

  function Pow2(n: nat): nat { if n == 0 then 1 else 2 * Pow2(n - 1) }

  /** Exclusive or of the low `n` bits. */
  function XorBits(a: nat, b: nat, n: nat): (r: nat)
    ensures r < Pow2(n)
  {
    if n == 0 then 0 else 2 * XorBits(a / 2, b / 2, n - 1) + (if a % 2 != b % 2 then 1 else 0)
  }

  lemma {:induction false} XorBitsTwice(a: nat, b: nat, n: nat)
    requires a < Pow2(n)
    ensures XorBits(XorBits(a, b, n), b, n) == a
  {
    if n > 0 {
      var x := XorBits(a, b, n);
      XorBitsTwice(a / 2, b / 2, n - 1);
      assert x / 2 == XorBits(a / 2, b / 2, n - 1) && x % 2 == if a % 2 != b % 2 then 1 else 0;
      assert XorBits(x, b, n) == 2 * XorBits(x / 2, b / 2, n - 1) + (if x % 2 != b % 2 then 1 else 0);
      hide XorBits;
    }
  }

  function Xor(a: Byte, b: Byte): Byte
  {
    assert Pow2(8) == 256;
    XorBits(a, b, 8)
  }

  lemma XorTwice(a: Byte, b: Byte)
    ensures Xor(Xor(a, b), b) == a
  {
    assert Pow2(8) == 256;
    hide XorBits;
    XorBitsTwice(a, b, 8);
  }

  function Apply(s: Keystream, nonce: Bytes, offset: nat, data: Bytes): (r: Bytes)
    ensures |r| == |data|
    ensures forall i :: 0 <= i < |data| ==> r[i] == Xor(data[i], s(nonce, offset + i))
  {
    seq(|data|, i requires 0 <= i < |data| => Xor(data[i], s(nonce, offset + i)))
  }

  lemma ApplyTwice(s: Keystream, nonce: Bytes, offset: nat, data: Bytes)
    ensures Apply(s, nonce, offset, Apply(s, nonce, offset, data)) == data
  {
    forall i | 0 <= i < |data| ensures Xor(Xor(data[i], s(nonce, offset + i)), s(nonce, offset + i)) == data[i] {
      XorTwice(data[i], s(nonce, offset + i));
    }
  }

  // ---- padding and length ----

  /** `padded_body`, with the random padding drawn by the caller. */
  function PaddedBody(payload: Bytes, block: nat, draw: nat -> Bytes): Result<Bytes>
    requires block == 8 || block == 16
  {
    var padding := PaddingFor(1 + |payload|, block);
    if 1 + |payload| + padding > MAX_PACKET then Err(BadPacketLength(0xffff_ffff))
    else Ok([padding] + payload + draw(padding))
  }

  function ValidateAeadLength(length: U32, block: nat): Result<nat>
    requires block == 8 || block == 16
  {
    if length > MAX_PACKET || length < 1 + MIN_PADDING || length % block != 0 then Err(BadPacketLength(length))
    else Ok(length)
  }

  /** The length of the body for a payload of `m` bytes. */
  function BodyLength(m: nat, block: nat): nat
    requires block == 8 || block == 16
  {
    1 + m + PaddingFor(1 + m, block)
  }

  /** The lengths the receiver takes are exactly those of the bodies a sender
      seals. */
  lemma LengthsTaken(n: U32, block: nat)
    requires block == 8 || block == 16
    ensures ValidateAeadLength(n, block) == Ok(n) <==> n <= 35000 && exists m :: BodyLength(m, block) == n
  {
    hide PaddingFor, BodyLength;
    if n >= 5 && n % block == 0 {
      BodyOfLength(n - 5, block);
    }
    forall m: nat | BodyLength(m, block) == n ensures n % block == 0 && n >= 5 {
      BodyIsAligned(m, block);
    }
  }

  lemma BodyOfLength(m: nat, block: nat)
    requires (block == 8 || block == 16) && (m + 5) % block == 0
    ensures BodyLength(m, block) == m + 5
  {
    if block == 8 {
      assert (1 + m) % 8 == 4;
    } else {
      assert (1 + m) % 16 == 12;
    }
  }

  lemma BodyIsAligned(m: nat, block: nat)
    requires block == 8 || block == 16
    ensures BodyLength(m, block) % block == 0 && BodyLength(m, block) >= 5
  {
    var p := PaddingFor(1 + m, block);
    hide PaddingFor;
  }

  ghost predicate Draws(draw: nat -> Bytes) { forall n: nat :: |draw(n)| == n }

  /** What is sealed is block-aligned, padded by at least 4 and by no more than
      needed, passes the receiver's length check, and decodes to the payload. */
  lemma PaddedBodyDecodes(payload: Bytes, block: nat, draw: nat -> Bytes)
    requires (block == 8 || block == 16) && Draws(draw)
    ensures PaddedBody(payload, block, draw).Ok? <==> 1 + |payload| + PaddingFor(1 + |payload|, block) <= MAX_PACKET
    ensures PaddedBody(payload, block, draw).Ok? ==>
              var body := PaddedBody(payload, block, draw).value;
              && |body| <= MAX_PACKET && ValidateAeadLength(|body|, block) == Ok(|body|)
              && DecodePacketBody(body) == Ok(payload) && MIN_PADDING <= body[0] < block + MIN_PADDING
  {
    var padding := PaddingFor(1 + |payload|, block);
    if 1 + |payload| + padding <= MAX_PACKET {
      var body := PaddedBody(payload, block, draw).value;
      assert body[1..|body| - padding] == payload;
    }
  }

  /** Every data frame the channel builds fits a packet of either cipher. */
  lemma DataFramesSeal(to: U32, kind: Trace.Stream, data: Str, block: nat, draw: nat -> Bytes)
    requires |data| <= Trace.MAX_DATA && (block == 8 || block == 16) && Draws(draw)
    ensures PaddedBody(Trace.Payload(Trace.Channel(to, Trace.Data(kind, data))), block, draw).Ok?
  {
    Trace.DataFrameRoundTrip(to, kind, data);
    hide Trace.Payload;
    PaddedBodyDecodes(Trace.Payload(Trace.Channel(to, Trace.Data(kind, data))), block, draw);
  }

  // ---- chacha20-poly1305@openssh.com ----

  datatype ChaCha = ChaCha(header: Keystream, main: Keystream, tag: Tagger)

  function SealChaCha(k: ChaCha, number: U32, payload: Bytes, draw: nat -> Bytes): Result<Bytes>
    requires Draws(draw)
  {
    var nonce := PutU64(number);
    PaddedBodyDecodes(payload, CHACHA_BLOCK, draw);
    var body :- PaddedBody(payload, CHACHA_BLOCK, draw);
    var length := Apply(k.header, nonce, 0, PutU32(|body|));
    var sealed := Apply(k.main, nonce, BODY_OFFSET, body);
    Ok(length + sealed + k.tag(nonce, length, sealed))
  }

  function BodyLenChaCha(k: ChaCha, number: U32, length: Bytes): Result<nat>
    requires |length| == 4
  {
    var n :- ValidateAeadLength(ValueU32(Apply(k.header, PutU64(number), 0, length)), CHACHA_BLOCK);
    Ok(n + TAG_LEN)
  }

  function OpenChaCha(k: ChaCha, number: U32, length: Bytes, body: Bytes): Opened<Bytes> {
    var nonce := PutU64(number);
    if |body| < TAG_LEN then Refused(BadTag)
    else
      var sealed, tag := body[..|body| - TAG_LEN], body[|body| - TAG_LEN..];
      if k.tag(nonce, length, sealed) != tag then Refused(BadTag)
      else
        match DecodePacketBody(Apply(k.main, nonce, BODY_OFFSET, sealed))
        case Ok(p) => Clear(p)
        case Err(e) => Refused(Malformed(e))
  }

  ghost predicate Tags(t: Tagger) { forall n, l, c :: |t(n, l, c)| == TAG_LEN }

  /** The receiver's length check yields exactly the bytes that follow, and
      opening them under the same number returns the payload. */
  lemma ChaChaRoundTrip(k: ChaCha, number: U32, payload: Bytes, draw: nat -> Bytes)
    requires Draws(draw) && Tags(k.tag)
    ensures SealChaCha(k, number, payload, draw).Ok? <==>
              1 + |payload| + PaddingFor(1 + |payload|, CHACHA_BLOCK) <= MAX_PACKET
    ensures SealChaCha(k, number, payload, draw).Ok? ==>
              var packet := SealChaCha(k, number, payload, draw).value;
              && |packet| >= 4 && BodyLenChaCha(k, number, packet[..4]) == Ok(|packet| - 4)
              && OpenChaCha(k, number, packet[..4], packet[4..]) == Clear(payload)
  {
    PaddedBodyDecodes(payload, CHACHA_BLOCK, draw);
    var r := PaddedBody(payload, CHACHA_BLOCK, draw);
    if r.Ok? {
      var nonce, body := PutU64(number), r.value;
      var length, sealed := Apply(k.header, nonce, 0, PutU32(|body|)), Apply(k.main, nonce, BODY_OFFSET, body);
      var tag := k.tag(nonce, length, sealed);
      hide Apply, PaddedBody, DecodePacketBody, ValidateAeadLength, PutU32, PutU64, ValueU32;
      Slices(length, sealed, tag);
      ApplyTwice(k.header, nonce, 0, PutU32(|body|));
      ApplyTwice(k.main, nonce, BODY_OFFSET, body);
      U32RoundTrip(|body|);
    }
  }

  /** The packet on the wire, byte by byte: the length under the header key from
      keystream position 0, the padding length, payload and padding under the
      main key from position 64 on, both for the packet's number, and the tag of
      what is sent. */
  lemma ChaChaBytes(k: ChaCha, number: U32, payload: Bytes, draw: nat -> Bytes)
    requires Draws(draw) && SealChaCha(k, number, payload, draw).Ok?
    ensures var packet, nonce := SealChaCha(k, number, payload, draw).value, [0, 0, 0, 0] + PutU32(number);
            var padding := PaddingFor(1 + |payload|, 8);
            var n := 1 + |payload| + padding;
            && n < 0x1_0000_0000 && |packet| >= 4 + n
            && (forall i :: 0 <= i < 4 ==> packet[i] == Xor(PutU32(n)[i], k.header(nonce, i)))
            && packet[4] == Xor(padding, k.main(nonce, 64))
            && (forall i :: 0 <= i < |payload| ==> packet[5 + i] == Xor(payload[i], k.main(nonce, 65 + i)))
            && (forall i :: 0 <= i < padding ==>
                  packet[5 + |payload| + i] == Xor(draw(padding)[i], k.main(nonce, 65 + |payload| + i)))
            && packet[4 + n..] == k.tag(nonce, packet[..4], packet[4..4 + n])
  {
    hide Xor, PaddingFor, PutU32;
    NumberNonce(number);
    PaddedBodyDecodes(payload, CHACHA_BLOCK, draw);
    var body := PaddedBody(payload, CHACHA_BLOCK, draw).value;
    var nonce := PutU64(number);
    var length, sealed := Apply(k.header, nonce, 0, PutU32(|body|)), Apply(k.main, nonce, 64, body);
    PacketParts(length, sealed, k.tag(nonce, length, sealed));
    BodyBytes(k.main, nonce, 64, body, payload, draw);
  }

  lemma NumberNonce(number: U32)
    ensures PutU64(number) == [0, 0, 0, 0] + PutU32(number)
  {
  }

  lemma PacketParts(length: Bytes, sealed: Bytes, tag: Bytes)
    requires |length| == 4
    ensures var packet := length + sealed + tag;
            && packet[..4] == length && packet[4..4 + |sealed|] == sealed && packet[4 + |sealed|..] == tag
            && (forall i :: 0 <= i < 4 ==> packet[i] == length[i])
            && (forall i :: 0 <= i < |sealed| ==> packet[4 + i] == sealed[i])
  {
  }

  /** The sealed body: padding length, payload, padding. */
  lemma BodyBytes(s: Keystream, nonce: Bytes, offset: nat, body: Bytes, payload: Bytes, draw: nat -> Bytes)
    requires Draws(draw) && |body| > 0 && body == [body[0]] + payload + draw(body[0])
    ensures var sealed := Apply(s, nonce, offset, body);
            && sealed[0] == Xor(body[0], s(nonce, offset))
            && (forall i :: 0 <= i < |payload| ==> sealed[1 + i] == Xor(payload[i], s(nonce, offset + 1 + i)))
            && (forall i :: 0 <= i < body[0] ==>
                  sealed[1 + |payload| + i] == Xor(draw(body[0])[i], s(nonce, offset + 1 + |payload| + i)))
  {
    hide Xor;
    var padding := draw(body[0]);
    assert forall i :: 0 <= i < |payload| ==> body[1 + i] == payload[i];
    assert forall i :: 0 <= i < |padding| ==> body[1 + |payload| + i] == padding[i];
  }

  /** A packet is its length field, its body and its tag. */
  lemma Slices(length: Bytes, sealed: Bytes, tag: Bytes)
    requires |length| == 4 && |tag| == TAG_LEN
    ensures var packet := length + sealed + tag;
            && packet[..4] == length && packet[4..] == sealed + tag
            && var body := packet[4..]; body[..|body| - TAG_LEN] == sealed && body[|body| - TAG_LEN..] == tag
  {
    var packet := length + sealed + tag;
    assert packet[4..] == sealed + tag;
  }

  // ---- aes256-gcm@openssh.com ----

  datatype GcmKey = GcmKey(stream: Keystream, tag: Tagger, fixed: Bytes)

  function GcmNonce(k: GcmKey, invocation: U64): Bytes { k.fixed + PutU64(invocation) }

  /** The packet for one invocation; the length stays in the clear. */
  function SealGcm(k: GcmKey, invocation: U64, payload: Bytes, draw: nat -> Bytes): Result<Bytes>
    requires Draws(draw)
  {
    PaddedBodyDecodes(payload, GCM_BLOCK, draw);
    var body :- PaddedBody(payload, GCM_BLOCK, draw);
    var nonce, length := GcmNonce(k, invocation), PutU32(|body|);
    var sealed := Apply(k.stream, nonce, 0, body);
    Ok(length + sealed + k.tag(nonce, length, sealed))
  }

  function BodyLenGcm(length: Bytes): Result<nat>
    requires |length| == 4
  {
    var n :- ValidateAeadLength(ValueU32(length), GCM_BLOCK);
    Ok(n + TAG_LEN)
  }

  /** The plaintext region when the tag is right. */
  function AuthenticGcm(k: GcmKey, invocation: U64, length: Bytes, body: Bytes): Option<Bytes> {
    var nonce := GcmNonce(k, invocation);
    if |body| < TAG_LEN || k.tag(nonce, length, body[..|body| - TAG_LEN]) != body[|body| - TAG_LEN..] then None
    else Some(Apply(k.stream, nonce, 0, body[..|body| - TAG_LEN]))
  }

  function OpenGcm(k: GcmKey, invocation: U64, length: Bytes, body: Bytes): Opened<Bytes> {
    match AuthenticGcm(k, invocation, length, body)
    case None => Refused(BadTag)
    case Some(plain) =>
      match DecodePacketBody(plain)
      case Ok(p) => Clear(p)
      case Err(e) => Refused(Malformed(e))
  }

  lemma GcmRoundTrip(k: GcmKey, invocation: U64, payload: Bytes, draw: nat -> Bytes)
    requires Draws(draw) && Tags(k.tag)
    ensures SealGcm(k, invocation, payload, draw).Ok? <==>
              1 + |payload| + PaddingFor(1 + |payload|, GCM_BLOCK) <= MAX_PACKET
    ensures SealGcm(k, invocation, payload, draw).Ok? ==>
              var packet := SealGcm(k, invocation, payload, draw).value;
              && |packet| >= 4 && BodyLenGcm(packet[..4]) == Ok(|packet| - 4)
              && OpenGcm(k, invocation, packet[..4], packet[4..]) == Clear(payload)
  {
    PaddedBodyDecodes(payload, GCM_BLOCK, draw);
    var r := PaddedBody(payload, GCM_BLOCK, draw);
    if r.Ok? {
      var nonce, body := GcmNonce(k, invocation), r.value;
      var length, sealed := PutU32(|body|), Apply(k.stream, nonce, 0, body);
      hide Apply, PaddedBody, DecodePacketBody, ValidateAeadLength, PutU32, PutU64, ValueU32, GcmNonce;
      Slices(length, sealed, k.tag(nonce, length, sealed));
      ApplyTwice(k.stream, nonce, 0, body);
      U32RoundTrip(|body|);
    }
  }

  /** The packet on the wire, byte by byte: the length in the clear, then padding
      length, payload and padding from keystream position 0 of the nonce made of
      the fixed field and the invocation counter, and the tag of what is sent. */
  lemma GcmBytes(k: GcmKey, invocation: U64, payload: Bytes, draw: nat -> Bytes)
    requires Draws(draw) && SealGcm(k, invocation, payload, draw).Ok?
    ensures var packet, nonce := SealGcm(k, invocation, payload, draw).value, k.fixed + PutU64(invocation);
            var padding := PaddingFor(1 + |payload|, 16);
            var n := 1 + |payload| + padding;
            && n < 0x1_0000_0000 && |packet| >= 4 + n && packet[..4] == PutU32(n)
            && packet[4] == Xor(padding, k.stream(nonce, 0))
            && (forall i :: 0 <= i < |payload| ==> packet[5 + i] == Xor(payload[i], k.stream(nonce, 1 + i)))
            && (forall i :: 0 <= i < padding ==>
                  packet[5 + |payload| + i] == Xor(draw(padding)[i], k.stream(nonce, 1 + |payload| + i)))
            && packet[4 + n..] == k.tag(nonce, packet[..4], packet[4..4 + n])
  {
    hide Xor, PaddingFor, PutU32, PutU64;
    PaddedBodyDecodes(payload, GCM_BLOCK, draw);
    var body := PaddedBody(payload, GCM_BLOCK, draw).value;
    var nonce, length := GcmNonce(k, invocation), PutU32(|body|);
    var sealed := Apply(k.stream, nonce, 0, body);
    PacketParts(length, sealed, k.tag(nonce, length, sealed));
    BodyBytes(k.stream, nonce, 0, body, payload, draw);
  }

  /** XORs the first `n` bytes of a buffer in place. */
  method ApplyKeystream(s: Keystream, nonce: Bytes, offset: nat, a: array<Byte>, n: nat)
    requires n <= a.Length
    modifies a
    ensures a[..n] == Apply(s, nonce, offset, old(a[..n])) && a[n..] == old(a[n..])
  {
    hide Xor;
    for i := 0 to n
      invariant forall j :: 0 <= j < i ==> a[j] == Xor(old(a[j]), s(nonce, offset + j))
      invariant forall j :: i <= j < a.Length ==> a[j] == old(a[j])
    {
      a[i] := Xor(a[i], s(nonce, offset + i));
    }
  }

  /** `Aes256GcmOpenssh`: the counter advances by one per packet sealed, and per
      packet whose tag is right. */
  class Gcm {
    const key: GcmKey
    const initial: U64
    var invocation: U64

    constructor (key: GcmKey, iv: U64)
      ensures this.key == key && initial == iv && invocation == iv
    {
      this.key, initial, invocation := key, iv, iv;
    }

    method Seal(payload: Bytes, draw: nat -> Bytes) returns (r: Result<Bytes>)
      requires Draws(draw)
      modifies this
      ensures r == SealGcm(key, old(invocation), payload, draw)
      ensures invocation == if r.Ok? then (old(invocation) + 1) % 0x1_0000_0000_0000_0000 else old(invocation)
    {
      hide Apply, Xor, PaddingFor, PutU32, PutU64;
      var padding := ComputePadding(1 + |payload|, GCM_BLOCK);
      if 1 + |payload| + padding > MAX_PACKET {
        return Err(BadPacketLength(0xffff_ffff));
      }
      var body := [padding] + payload + draw(padding);
      PaddedBodyDecodes(payload, GCM_BLOCK, draw);
      var buffer := new Byte[|body|](i requires 0 <= i < |body| => body[i]);
      assert buffer[..|body|] == body;
      var length, nonce := PutU32(|body|), GcmNonce(key, invocation);
      ApplyKeystream(key.stream, nonce, 0, buffer, |body|);
      invocation := (invocation + 1) % 0x1_0000_0000_0000_0000;
      assert buffer[..|body|] == buffer[..];
      return Ok(length + buffer[..] + key.tag(nonce, length, buffer[..]));
    }

    /** Decrypts in place; a wrong tag leaves buffer and counter alone. */
    method Open(length: Bytes, body: array<Byte>) returns (r: Opened<Bytes>)
      modifies this, body
      ensures r == OpenGcm(key, old(invocation), length, old(body[..]))
      ensures r == Refused(BadTag) ==> invocation == old(invocation) && body[..] == old(body[..])
      ensures r != Refused(BadTag) ==> invocation == (old(invocation) + 1) % 0x1_0000_0000_0000_0000
    {
      if body.Length < TAG_LEN {
        return Refused(BadTag);
      }
      var n, nonce := body.Length - TAG_LEN, GcmNonce(key, invocation);
      assert body[..][..n] == body[..n] && body[..][n..] == body[n..];
      if key.tag(nonce, length, body[..n]) != body[n..] {
        return Refused(BadTag);
      }
      ApplyKeystream(key.stream, nonce, 0, body, n);
      invocation := (invocation + 1) % 0x1_0000_0000_0000_0000;
      var plain := DecodePacketBody(body[..n]);
      return match plain case Ok(p) => Clear(p) case Err(e) => Refused(Malformed(e));
    }
  }
}
