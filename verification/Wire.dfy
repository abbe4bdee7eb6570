/** RFC 4251 data types and the plaintext binary packet (`wire.rs`).

The getters are the specification of `Reader`: each consumes a prefix of the
input and returns the rest. The putters are the specification of `Writer`. */
module Wire {

  type Byte = x: int | 0 <= x < 256
  type Bytes = seq<Byte>
  /** Bytes that fit an RFC 4251 `string`. */
  type Str = s: seq<Byte> | |s| < 0x1_0000_0000
  type U32 = x: int | 0 <= x < 0x1_0000_0000
  type U64 = x: int | 0 <= x < 0x1_0000_0000_0000_0000

  const MAX_PACKET: nat := 35_000
  const MIN_PADDING: nat := 4
  const PLAINTEXT_BLOCK: nat := 8

  datatype WireError =
    | Truncated
    | Oversized(declared: nat, bound: nat)
    | BadPacketLength(length: nat)
    | BadPadding
    | TrailingBytes(n: nat)

  datatype Option<+T> = None | Some(value: T)

  datatype Result<+T> = Ok(value: T) | Err(error: WireError) {
    predicate IsFailure() { Err? }
    function PropagateFailure<U>(): Result<U> requires Err? { Err(error) }
    function Extract(): T requires Ok? { value }
  }

  /** A parsed value and the input left after it. */
  datatype Got<+T> = Got(value: T, rest: Bytes)

  // ---- big-endian integers ----

  function PutU32(v: U32): (b: Bytes)
    ensures |b| == 4
  {
    [v / 0x100_0000, v / 0x1_0000 % 256, v / 256 % 256, v % 256]
  }

  function ValueU32(b: Bytes): (v: U32)
    requires |b| == 4
  {
    b[0] as int * 0x100_0000 + b[1] as int * 0x1_0000 + b[2] as int * 256 + b[3]
  }

  lemma U32RoundTrip(v: U32)
    ensures ValueU32(PutU32(v)) == v
  {
    assert v / 256 == v / 0x1_0000 * 256 + v / 256 % 256;
    assert v / 0x1_0000 == v / 0x100_0000 * 256 + v / 0x1_0000 % 256;
  }

  lemma U32Canonical(b: Bytes)
    requires |b| == 4
    ensures PutU32(ValueU32(b)) == b
  {
    var v := ValueU32(b);
    assert v / 256 == b[0] as int * 0x1_0000 + b[1] as int * 256 + b[2];
    assert v / 0x1_0000 == b[0] as int * 256 + b[1];
    assert v / 0x100_0000 == b[0];
  }

  function PutU64(v: U64): (b: Bytes)
    ensures |b| == 8
  {
    PutU32(v / 0x1_0000_0000) + PutU32(v % 0x1_0000_0000)
  }

  function ValueU64(b: Bytes): (v: U64)
    requires |b| == 8
  {
    ValueU32(b[..4]) * 0x1_0000_0000 + ValueU32(b[4..])
  }

  lemma U64RoundTrip(v: U64)
    ensures ValueU64(PutU64(v)) == v
  {
    U32RoundTrip(v / 0x1_0000_0000);
    U32RoundTrip(v % 0x1_0000_0000);
    assert PutU64(v)[..4] == PutU32(v / 0x1_0000_0000);
    assert PutU64(v)[4..] == PutU32(v % 0x1_0000_0000);
  }

  lemma U64Canonical(b: Bytes)
    requires |b| == 8
    ensures PutU64(ValueU64(b)) == b
  {
    var v := ValueU64(b);
    assert v / 0x1_0000_0000 == ValueU32(b[..4]) && v % 0x1_0000_0000 == ValueU32(b[4..]);
    U32Canonical(b[..4]);
    U32Canonical(b[4..]);
    assert b == b[..4] + b[4..];
  }

  // ---- Reader ----

  function Take(input: Bytes, n: nat): (r: Result<Got<Bytes>>)
    ensures r.Ok? <==> n <= |input|
    ensures r.Ok? ==> |r.value.value| == n && input == r.value.value + r.value.rest
  {
    if |input| < n then Err(Truncated) else Ok(Got(input[..n], input[n..]))
  }

  function GetByte(input: Bytes): (r: Result<Got<Byte>>)
    ensures r.Ok? ==> input == [r.value.value] + r.value.rest
  {
    var g :- Take(input, 1);
    Ok(Got(g.value[0], g.rest))
  }

  function GetBoolean(input: Bytes): (r: Result<Got<bool>>)
    ensures r.Ok? ==> |input| == 1 + |r.value.rest| && r.value.rest == input[1..]
  {
    var g :- GetByte(input);
    Ok(Got(g.value != 0, g.rest))
  }

  function GetU32(input: Bytes): (r: Result<Got<U32>>)
    ensures r.Ok? ==> |input| == 4 + |r.value.rest| && r.value.rest == input[4..]
  {
    var g :- Take(input, 4);
    Ok(Got(ValueU32(g.value), g.rest))
  }

  function GetU64(input: Bytes): (r: Result<Got<U64>>)
    ensures r.Ok? ==> |input| == 8 + |r.value.rest| && r.value.rest == input[8..]
  {
    var g :- Take(input, 8);
    Ok(Got(ValueU64(g.value), g.rest))
  }

  /** An RFC 4251 `string`, refused before its data is touched when the
      declared length is over the caller's bound. */
  function GetString(input: Bytes, bound: nat): (r: Result<Got<Str>>)
    ensures r.Ok? ==> |r.value.value| <= bound && |input| == 4 + |r.value.value| + |r.value.rest|
  {
    var g :- GetU32(input);
    if g.value > bound then Err(Oversized(g.value, bound)) else Take(g.rest, g.value)
  }

  function Finish(input: Bytes): (r: Result<()>)
    ensures r.Ok? <==> input == []
  {
    if input == [] then Ok(()) else Err(TrailingBytes(|input|))
  }

  /** `Reader`: the same reads, on an object whose remaining input shrinks. A
      failed read of a `string` has already consumed its length field. */
  class Reader {
    var input: Bytes

    constructor (bytes: Bytes)
      ensures input == bytes
    {
      input := bytes;
    }

    method TakeBytes(n: nat) returns (r: Result<Bytes>)
      modifies this
      ensures r.Ok? <==> n <= old(|input|)
      ensures r.Ok? ==> |r.value| == n && old(input) == r.value + input
      ensures r.Err? ==> r.error == Truncated && input == old(input)
    {
      if |input| < n {
        return Err(Truncated);
      }
      r := Ok(input[..n]);
      input := input[n..];
    }

    method Uint32() returns (r: Result<U32>)
      modifies this
      ensures match GetU32(old(input))
              case Ok(g) => r == Ok(g.value) && input == g.rest
              case Err(e) => r == Err(e) && input == old(input)
    {
      var b := TakeBytes(4);
      if b.Err? {
        return Err(b.error);
      }
      assert old(input)[..4] == b.value && old(input)[4..] == input;
      r := Ok(ValueU32(b.value));
    }

    method String(bound: nat) returns (r: Result<Bytes>)
      modifies this
      ensures match GetString(old(input), bound)
              case Ok(g) => r == Ok(g.value) && input == g.rest
              case Err(e) => r == Err(e) && |input| == if old(|input|) < 4 then old(|input|) else old(|input|) - 4
    {
      var declared := Uint32();
      if declared.Err? {
        return Err(declared.error);
      }
      if declared.value > bound {
        return Err(Oversized(declared.value, bound));
      }
      ghost var mid := input;
      r := TakeBytes(declared.value);
      assert r.Ok? ==> mid[..declared.value] == r.value && mid[declared.value..] == input;
    }
  }

  // ---- Writer ----

  /** The bytes of an ASCII string literal. */
  function Ascii(s: string): (b: Bytes)
    ensures |b| == |s|
  {
    seq(|s|, i requires 0 <= i < |s| => if s[i] as int < 128 then s[i] as int else 63)
  }

  function PutBoolean(v: bool): Bytes { if v then [1] else [0] }

  /** An RFC 4251 `string`; the source panics past `u32::MAX`, which no
      server-built message reaches. */
  function PutString(v: Str): (b: Bytes)
    ensures |b| == 4 + |v|
  {
    PutU32(|v|) + v
  }

  /** Reading back what was written, whatever follows it. */
  lemma GetPutU32(v: U32, tail: Bytes)
    ensures GetU32(PutU32(v) + tail) == Ok(Got(v, tail))
  {
    U32RoundTrip(v);
    assert (PutU32(v) + tail)[..4] == PutU32(v) && (PutU32(v) + tail)[4..] == tail;
  }

  lemma GetPutU64(v: U64, tail: Bytes)
    ensures GetU64(PutU64(v) + tail) == Ok(Got(v, tail))
  {
    U64RoundTrip(v);
    assert (PutU64(v) + tail)[..8] == PutU64(v) && (PutU64(v) + tail)[8..] == tail;
  }

  lemma GetPutString(v: Str, tail: Bytes, bound: nat)
    ensures |v| <= bound ==> GetString(PutString(v) + tail, bound) == Ok(Got(v, tail))
    ensures |v| > bound ==> GetString(PutString(v) + tail, bound) == Err(Oversized(|v|, bound))
  {
    assert PutString(v) + tail == PutU32(|v|) + (v + tail);
    GetPutU32(|v|, v + tail);
    assert (v + tail)[..|v|] == v && (v + tail)[|v|..] == tail;
  }

  /** Writing back what was read: every accepted encoding is canonical. */
  lemma PutGetU32(input: Bytes)
    requires GetU32(input).Ok?
    ensures input == PutU32(GetU32(input).value.value) + GetU32(input).value.rest
  {
    U32Canonical(input[..4]);
  }

  lemma PutGetU64(input: Bytes)
    requires GetU64(input).Ok?
    ensures input == PutU64(GetU64(input).value.value) + GetU64(input).value.rest
  {
    U64Canonical(input[..8]);
  }

  lemma PutGetString(input: Bytes, bound: nat)
    requires GetString(input, bound).Ok?
    ensures input == PutString(GetString(input, bound).value.value) + GetString(input, bound).value.rest
  {
    PutGetU32(input);
  }

  /** A `string` read succeeds on no strict prefix of the bytes it consumes,
      and appending bytes does not change what it reads. */
  lemma GetStringExtend(input: Bytes, tail: Bytes, bound: nat)
    requires GetString(input, bound).Ok?
    ensures var g := GetString(input, bound).value;
            GetString(input + tail, bound) == Ok(Got(g.value, g.rest + tail))
  {
    PutGetString(input, bound);
    var g := GetString(input, bound).value;
    assert input + tail == PutString(g.value) + (g.rest + tail);
    GetPutString(g.value, g.rest + tail, bound);
  }

  function PutStrings(items: seq<Str>): Bytes {
    if items == [] then [] else PutString(items[0]) + PutStrings(items[1..])
  }

  /** A sequence of `string`s written out determines how they were cut. */
  lemma {:induction false} PutStringsIsInjective(a: seq<Str>, b: seq<Str>)
    requires |a| == |b| && PutStrings(a) == PutStrings(b)
    ensures a == b
  {
    if a != [] {
      GetPutString(a[0], PutStrings(a[1..]), 0xffff_ffff);
      GetPutString(b[0], PutStrings(b[1..]), 0xffff_ffff);
      PutStringsIsInjective(a[1..], b[1..]);
      assert a == [a[0]] + a[1..] && b == [b[0]] + b[1..];
    }
  }

  // ---- the plaintext packet ----

  /** RFC 4253 section 6 padding for the two block sizes in use: what the
      source's loop leaves. */
  function PaddingFor(unpadded: nat, block: nat): (p: nat)
    requires block == 8 || block == 16
    ensures MIN_PADDING <= p < block + MIN_PADDING
    ensures (unpadded + p) % block == 0
  {
    var least := block - unpadded % block;
    if least < MIN_PADDING then least + block else least
  }

  /** No shorter legal padding completes the block. */
  lemma PaddingIsLeast(unpadded: nat, block: nat, q: nat)
    requires block == 8 || block == 16
    requires MIN_PADDING <= q && (unpadded + q) % block == 0
    ensures PaddingFor(unpadded, block) <= q
  {
    if block == 8 {
      LeastOf8(unpadded, q);
    } else {
      LeastOf16(unpadded, q);
    }
  }

  lemma LeastOf8(n: nat, q: nat)
    requires MIN_PADDING <= q && (n + q) % 8 == 0
    ensures PaddingFor(n, 8) <= q
  {
    var k, r := n / 8, n % 8;
    assert n + q == 8 * k + (r + q);
    assert (r + q) % 8 == 0;
  }

  lemma LeastOf16(n: nat, q: nat)
    requires MIN_PADDING <= q && (n + q) % 16 == 0
    ensures PaddingFor(n, 16) <= q
  {
    var k, r := n / 16, n % 16;
    assert n + q == 16 * k + (r + q);
    assert (r + q) % 16 == 0;
  }

  method ComputePadding(unpadded: nat, block: nat) returns (padding: nat)
    requires block == 8 || block == 16
    ensures padding == PaddingFor(unpadded, block)
  {
    padding := block - unpadded % block;
    while padding < MIN_PADDING
      invariant padding == block - unpadded % block ||
                (padding == PaddingFor(unpadded, block) && block - unpadded % block < MIN_PADDING)
    {
      padding := padding + block;
    }
  }

  /** `encode_packet`, with the random padding drawn by the caller. */
  function EncodePacket(payload: Bytes, draw: nat -> Bytes): (r: Result<Bytes>)
    requires forall n: nat :: |draw(n)| == n
  {
    var padding := PaddingFor(4 + 1 + |payload|, PLAINTEXT_BLOCK);
    var packetLength := 1 + |payload| + padding;
    if packetLength > MAX_PACKET then Err(BadPacketLength(packetLength))
    else Ok(PutU32(packetLength) + [padding] + payload + draw(padding))
  }

  function ValidatePacketLength(packetLength: U32): (r: Result<nat>)
  {
    if packetLength == 0 || packetLength > MAX_PACKET then Err(BadPacketLength(packetLength))
    else if (4 + packetLength) % PLAINTEXT_BLOCK != 0 then Err(BadPadding)
    else Ok(packetLength)
  }

  /** The length field of the packet for a payload of `m` bytes. */
  function LengthFor(m: nat): nat { 1 + m + PaddingFor(5 + m, 8) }

  /** The lengths the receiver takes are those of the packets a sender makes, and 4,
      which no packet has. */
  lemma LengthsTaken(n: U32)
    ensures ValidatePacketLength(n) == Ok(n) <==> n == 4 || (n <= 35000 && exists m :: LengthFor(m) == n)
    ensures forall m :: LengthFor(m) != 4
  {
    if (4 + n) % 8 == 0 && n > 4 {
      assert LengthFor(n - 5) == n;
    }
    forall m: nat | LengthFor(m) == n ensures (4 + n) % 8 == 0 {
      assert 4 + n == 5 + m + PaddingFor(5 + m, 8);
    }
  }

  function DecodePacketBody(body: Bytes): (r: Result<Bytes>)
    ensures r.Ok? ==> |r.value| + 1 + MIN_PADDING <= |body| && r.value == body[1..1 + |r.value|]
  {
    if body == [] then Err(Truncated)
    else if body[0] < MIN_PADDING then Err(BadPadding)
    else if |body| - 1 < body[0] then Err(BadPadding)
    else Ok(body[1..|body| - body[0]])
  }

  /** The receiver's length check yields exactly the bytes that follow, and
      decoding them returns the payload, for every padding drawn. */
  lemma EncodeDecode(payload: Bytes, draw: nat -> Bytes)
    requires forall n: nat :: |draw(n)| == n
    ensures EncodePacket(payload, draw).Ok? ==>
              var packet := EncodePacket(payload, draw).value;
              && |packet| >= 4 && |packet| % PLAINTEXT_BLOCK == 0
              && ValidatePacketLength(ValueU32(packet[..4])) == Ok(|packet| - 4)
              && DecodePacketBody(packet[4..]) == Ok(payload)
    ensures EncodePacket(payload, draw).Ok? <==>
              1 + |payload| + PaddingFor(5 + |payload|, PLAINTEXT_BLOCK) <= MAX_PACKET
  {
    var padding := PaddingFor(4 + 1 + |payload|, PLAINTEXT_BLOCK);
    var packetLength := 1 + |payload| + padding;
    if packetLength <= MAX_PACKET {
      var packet := EncodePacket(payload, draw).value;
      U32RoundTrip(packetLength);
      assert packet[..4] == PutU32(packetLength);
      var body := packet[4..];
      assert body == [padding] + payload + draw(padding);
      assert body[1..|body| - padding] == payload;
    }
  }
}
