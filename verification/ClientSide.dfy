/** Messages a client sends, and that they decode to what they say (`channel.rs`,
`handle_inbound`). */
module ClientSide {
  import opened Wire
  import opened Trace
  import opened Transport
  import opened Channel

  function OpenCall(kind: Str, sender: U32, window: U32, maxPacket: U32): (p: Bytes) {
    [90] + (PutString(kind) + (PutU32(sender) + (PutU32(window) + PutU32(maxPacket))))
  }

  function OpenPayload(sender: U32, window: U32, maxPacket: U32): (p: Bytes) {
    OpenCall(Ascii("session"), sender, window, maxPacket)
  }

  function DataPayload(to: U32, data: Str): (p: Bytes) { [94] + (PutU32(to) + PutString(data)) }

  function StdinPayload(data: Str): (p: Bytes) { DataPayload(LOCAL_CHANNEL, data) }

  function AdjustPayload(to: U32, add: U32): (p: Bytes) { [93] + (PutU32(to) + PutU32(add)) }

  function EofPayload(to: U32): (p: Bytes) { [96] + PutU32(to) }

  function ClosePayload(to: U32): (p: Bytes) { [97] + PutU32(to) }

  /** A channel request; any flag but 0 asks for a reply. */
  function RequestPayload(to: U32, kind: Str, flag: Byte, rest: Bytes): (p: Bytes) {
    [98] + (PutU32(to) + (PutString(kind) + ([flag] + rest)))
  }

  /** An exec request that wants no reply. */
  function ExecPayload(command: Str): (p: Bytes) {
    RequestPayload(LOCAL_CHANNEL, Ascii("exec"), 0, PutString(command))
  }

  function GlobalCall(kind: Str, flag: Byte, rest: Bytes): (p: Bytes) { [80] + (PutString(kind) + ([flag] + rest)) }

  /** A global request that wants a reply. */
  function GlobalPayload(): (p: Bytes) { GlobalCall([], 1, []) }

  lemma DecodesOpenCall(kind: Str, sender: U32, window: U32, maxPacket: U32)
    requires |kind| <= 64
    ensures Decode(OpenCall(kind, sender, window, maxPacket)) == Open(kind, sender, window, maxPacket)
  {
    hide GetString, GetU32, PutString, PutU32;
    var last := PutU32(maxPacket);
    assert last + [] == last;
    GetPutU32(maxPacket, []);
    GetPutU32(window, last);
    GetPutU32(sender, PutU32(window) + last);
    GetPutString(kind, PutU32(sender) + (PutU32(window) + last), 64);
    assert OpenCall(kind, sender, window, maxPacket)[1..] ==
           PutString(kind) + (PutU32(sender) + (PutU32(window) + last));
  }

  lemma DecodesOpen(sender: U32, window: U32, maxPacket: U32)
    ensures Decode(OpenPayload(sender, window, maxPacket)) == Open(Ascii("session"), sender, window, maxPacket)
  {
    hide Decode, Ascii;
    DecodesOpenCall(Ascii("session"), sender, window, maxPacket);
  }

  lemma DecodesData(to: U32, data: Str)
    requires |data| <= MAX_DATA
    ensures Decode(DataPayload(to, data)) == Stdin(to, data)
  {
    hide GetString, GetU32, PutString, PutU32;
    GetPutU32(to, PutString(data));
    GetPutString(data, [], MAX_DATA);
    assert PutString(data) + [] == PutString(data);
    assert DataPayload(to, data)[1..] == PutU32(to) + PutString(data);
  }

  lemma DecodesStdin(data: Str)
    requires |data| <= MAX_DATA
    ensures Decode(StdinPayload(data)) == Stdin(LOCAL_CHANNEL, data)
  {
    hide Decode;
    DecodesData(LOCAL_CHANNEL, data);
  }

  lemma DecodesAdjust(to: U32, add: U32)
    ensures Decode(AdjustPayload(to, add)) == Adjust(to, add)
  {
    hide GetU32, PutU32;
    GetPutU32(to, PutU32(add));
    GetPutU32(add, []);
    assert PutU32(add) + [] == PutU32(add);
    assert AdjustPayload(to, add)[1..] == PutU32(to) + PutU32(add);
  }

  lemma DecodesEofAndClose(to: U32)
    ensures Decode(EofPayload(to)) == PeerEof(to) && Decode(ClosePayload(to)) == PeerClose(to)
  {
    hide GetU32, PutU32;
    GetPutU32(to, []);
    assert PutU32(to) + [] == PutU32(to);
    assert EofPayload(to)[1..] == PutU32(to) && ClosePayload(to)[1..] == PutU32(to);
  }

  lemma FlagReads(flag: Byte, rest: Bytes)
    ensures GetBoolean([flag] + rest) == Ok(Got(flag != 0, rest))
  {
    assert ([flag] + rest)[1..] == rest;
  }

  lemma DecodesRequest(to: U32, kind: Str, flag: Byte, rest: Bytes)
    requires |kind| <= 64
    ensures Decode(RequestPayload(to, kind, flag, rest)) == Request(to, kind, flag != 0, rest)
  {
    hide GetString, GetU32, GetBoolean, PutString, PutU32;
    var tail := [flag] + rest;
    GetPutU32(to, PutString(kind) + tail);
    GetPutString(kind, tail, 64);
    FlagReads(flag, rest);
    assert RequestPayload(to, kind, flag, rest)[1..] == PutU32(to) + (PutString(kind) + tail);
  }

  lemma DecodesExec(command: Str)
    ensures Decode(ExecPayload(command)) == Request(LOCAL_CHANNEL, Ascii("exec"), false, PutString(command))
  {
    hide Decode, PutString;
    DecodesRequest(LOCAL_CHANNEL, Ascii("exec"), 0, PutString(command));
  }

  lemma DecodesCall(kind: Str, flag: Byte, rest: Bytes)
    requires |kind| <= 64
    ensures Decode(GlobalCall(kind, flag, rest)) == GlobalRequest(flag != 0)
  {
    hide GetString, GetBoolean, PutString;
    GetPutString(kind, [flag] + rest, 64);
    FlagReads(flag, rest);
    assert GlobalCall(kind, flag, rest)[1..] == PutString(kind) + ([flag] + rest);
  }

  lemma DecodesGlobal()
    ensures Decode(GlobalPayload()) == GlobalRequest(true)
  {
    hide Decode;
    DecodesCall([], 1, []);
  }
}
