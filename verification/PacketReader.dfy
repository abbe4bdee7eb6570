/** The resumable packet reader (`transport.rs`, `read_packet` and
`fill_inbuf`) against the uninterrupted one (`read_sealed`), for any cipher,
any split of the stream into reads and any choice of cancellation points. */
module PacketReader {
  import opened Wire

  const SCRATCH: nat := 8192

  /** A receiving cipher over states `C`: how many bytes follow a length field,
      the payload with the next state, or none when the packet is refused, and
      the cipher a payload installs, if it is the peer's NEWKEYS. */
  datatype Opener<!C> = Opener(
    bodyLen: (C, U32, Bytes) -> Option<nat>,
    open: (C, U32, Bytes, Bytes) -> Option<(Bytes, C)>,
    installs: Bytes -> Option<C>)

  datatype Read<C> = Packet(payload: Bytes, rx: C, number: U32, rest: Bytes) | NeedMore | Refused

  /** The uninterrupted reader on a whole stream. */
  function ReadSealed<C>(k: Opener<C>, rx: C, number: U32, input: Bytes): (r: Read<C>)
    ensures r.Packet? ==> |r.rest| < |input|
  {
    if |input| < 4 then NeedMore
    else
      match k.bodyLen(rx, number, input[..4])
      case None => Refused
      case Some(n) =>
        if |input| < 4 + n then NeedMore
        else
          match k.open(rx, number, input[..4], input[4..4 + n])
          case None => Refused
          case Some(clear) => Packet(clear.0, clear.1, (number + 1) % 0x1_0000_0000, input[4 + n..])
  }

  /** Every payload the uninterrupted reader gets from a stream. */
  function Payloads<C>(k: Opener<C>, rx: C, number: U32, input: Bytes): seq<Bytes>
    decreases |input|
  {
    match ReadSealed(k, rx, number, input)
    case Packet(p, rx', number', rest) =>
      [p] + (if k.installs(p).Some? then Payloads(k, k.installs(p).value, 0, rest) else Payloads(k, rx', number', rest))
    case _ => []
  }

  /** What the stream delivers while a read waits: some bytes, or the read is
      dropped because another event came first. */
  datatype Tick = Arrive(n: nat) | Cancel

  datatype Outcome = Payload(p: Bytes) | Cancelled | Closed | Rejected

  class Reader<!C> {
    const k: Opener<C>
    var rx: C
    var number: U32
    var inbuf: Bytes
    var unread: Bytes      // what the stream still holds

    constructor (k: Opener<C>, rx: C, number: U32, stream: Bytes)
      ensures this.k == k && this.rx == rx && this.number == number && Whole() == stream && inbuf == []
    {
      this.k, this.rx, this.number, inbuf, unread := k, rx, number, [], stream;
    }

    /** The bytes not yet returned as payloads. */
    function Whole(): Bytes
      reads this
    {
      inbuf + unread
    }

    /** The buffer holds less than one frame. */
    predicate WithinFrame()
      reads this
    {
      |inbuf| >= 4 ==> k.bodyLen(rx, number, inbuf[..4]).Some? && |inbuf| < 4 + k.bodyLen(rx, number, inbuf[..4]).value
    }

    /** Reads towards `want` bytes, never past them. */
    method FillInbuf(want: nat, tick: Tick) returns (o: Option<Outcome>)
      requires |inbuf| < want
      modifies this`inbuf, this`unread
      ensures Whole() == old(Whole()) && |inbuf| <= want && old(inbuf) <= inbuf
      ensures o.None? ==> |inbuf| > |old(inbuf)|
      ensures o.Some? ==> inbuf == old(inbuf) && unread == old(unread)
      ensures o.Some? ==> o.value == Cancelled || (o.value == Closed && unread == [])
      ensures o == Some(Cancelled) <==> tick.Cancel?
    {
      if tick.Cancel? {
        return Some(Cancelled);
      }
      var need := want - |inbuf|;
      var take := if need < SCRATCH then need else SCRATCH;
      var n := if tick.n < take then tick.n else take;
      n := if n == 0 then 1 else n;
      n := if n <= |unread| then n else |unread|;
      if n == 0 {
        return Some(Closed);
      }
      inbuf, unread := inbuf + unread[..n], unread[n..];
      return None;
    }

    /** Reads until the buffer holds `want` bytes, from tick `from` on. */
    method FillTo(want: nat, ticks: seq<Tick>, from: nat) returns (stop: Option<Outcome>, used: nat)
      requires from <= |ticks|
      modifies this`inbuf, this`unread
      ensures Whole() == old(Whole()) && old(inbuf) <= inbuf && from <= used <= |ticks|
      ensures |inbuf| <= want || inbuf == old(inbuf)
      ensures stop.None? ==> |inbuf| >= want && |inbuf| >= |old(inbuf)| + used - from
      ensures stop.Some? ==> |inbuf| < want && (stop.value == Cancelled || (stop.value == Closed && unread == []))
      ensures stop == Some(Cancelled) ==>
                if used > from && ticks[used - 1].Cancel? then |inbuf| >= |old(inbuf)| + used - from - 1
                else used == |ticks| && |inbuf| >= |old(inbuf)| + used - from
    {
      used := from;
      while |inbuf| < want
        invariant Whole() == old(Whole()) && old(inbuf) <= inbuf && (|inbuf| <= want || inbuf == old(inbuf))
        invariant from <= used <= |ticks| && |inbuf| >= |old(inbuf)| + used - from
        decreases want - |inbuf|
      {
        if used == |ticks| {
          return Some(Cancelled), used;
        }
        stop := FillInbuf(want, ticks[used]);
        used := used + 1;
        if stop.Some? {
          return;
        }
      }
      stop := None;
    }

    /** One call of `read_packet`, cut short only when the ticks say so: each one
        before brought a byte at least. */
    method ReadPacket(ticks: seq<Tick>) returns (o: Outcome, used: nat)
      requires WithinFrame()
      modifies this
      ensures match o
              case Payload(p) =>
                ReadSealed(k, old(rx), old(number), old(Whole())) == Packet(p, rx, number, Whole()) && inbuf == []
              case Rejected => ReadSealed(k, old(rx), old(number), old(Whole())).Refused?
              case Cancelled => Whole() == old(Whole()) && rx == old(rx) && number == old(number)
              case Closed => ReadSealed(k, old(rx), old(number), old(Whole())).NeedMore? && Whole() == old(Whole())
      ensures !o.Rejected? ==> WithinFrame()
      ensures used <= |ticks|
      ensures o.Cancelled? ==>
                if used > 0 && ticks[used - 1].Cancel? then |inbuf| >= |old(inbuf)| + used - 1
                else used == |ticks| && |inbuf| >= |old(inbuf)| + used
    {
      var stop;
      stop, used := FillTo(4, ticks, 0);
      if stop.Some? {
        return stop.value, used;
      }
      var len4 := inbuf[..4];
      assert Whole()[..4] == len4;
      var bodyLen := k.bodyLen(rx, number, len4);
      if bodyLen.None? {
        return Rejected, used;
      }
      var total := 4 + bodyLen.value;
      stop, used := FillTo(total, ticks, used);
      if stop.Some? {
        assert inbuf[..4] == len4;
        return stop.value, used;
      }
      assert inbuf == Whole()[..total] && unread == Whole()[total..];
      assert inbuf[4..total] == Whole()[4..total];
      var clear := k.open(rx, number, len4, inbuf[4..total]);
      inbuf := inbuf[total..];
      if clear.None? {
        return Rejected, used;
      }
      rx, number := clear.value.1, (number + 1) % 0x1_0000_0000;
      return Payload(clear.value.0), used;
    }

    /** A key switch happens between two packets, with nothing read ahead. */
    method SwitchKeys(next: C)
      requires inbuf == []
      modifies this`rx, this`number
      ensures rx == next && number == 0 && WithinFrame()
    {
      rx, number := next, 0;
    }

    /** Any number of calls, each cancelled or not, across key switches: the
        payloads are those the uninterrupted reader gets, in order, what is left
        reads the same, and a call with patience enough gets one or ends. */
    method ReadMany(calls: seq<seq<Tick>>) returns (got: seq<Bytes>, ended: bool)
      requires WithinFrame()
      modifies this
      ensures ended ==> got == Payloads(k, old(rx), old(number), old(Whole()))
      ensures !ended ==> got + Payloads(k, rx, number, Whole()) == Payloads(k, old(rx), old(number), old(Whole()))
      ensures !ended ==> WithinFrame() && |got| >= Patient(calls, |old(Whole())|)
    {
      hide Payloads, ReadSealed;
      got, ended := [], false;
      for i := 0 to |calls|
        invariant !ended && WithinFrame() && |Whole()| <= |old(Whole())|
        invariant got + Payloads(k, rx, number, Whole()) == Payloads(k, old(rx), old(number), old(Whole()))
        invariant |got| >= Patient(calls[..i], |old(Whole())|)
      {
        ghost var before := Payloads(k, rx, number, Whole());
        assert calls[..i + 1][..i] == calls[..i];
        PayloadsNext(k, rx, number, Whole());
        var o, _ := ReadPacket(calls[i]);
        match o
        case Payload(p) =>
          if k.installs(p).Some? {
            SwitchKeys(k.installs(p).value);
          }
          OneMore(got, p, Payloads(k, rx, number, Whole()));
          got := got + [p];
        case Cancelled =>
        case Closed =>
          assert got + [] == got;
          return got, true;
        case Rejected =>
          assert got + [] == got;
          return got, true;
      }
      assert calls[..|calls|] == calls;
    }
  }

  /** How many of the calls are never cancelled and wait for more reads than there
      are bytes. */
  function Patient(calls: seq<seq<Tick>>, bytes: nat): nat {
    if calls == [] then 0
    else
      var c := calls[|calls| - 1];
      Patient(calls[..|calls| - 1], bytes) + (if Cancel !in c && |c| > bytes then 1 else 0)
  }

  lemma OneMore(got: seq<Bytes>, p: Bytes, rest: seq<Bytes>)
    ensures got + ([p] + rest) == got + [p] + rest
  {
  }

  lemma PayloadsNext<C>(k: Opener<C>, rx: C, number: U32, input: Bytes)
    ensures match ReadSealed(k, rx, number, input)
            case Packet(p, rx', number', rest) =>
              && |rest| < |input|
              && Payloads(k, rx, number, input) ==
                 [p] + (if k.installs(p).Some? then Payloads(k, k.installs(p).value, 0, rest)
                        else Payloads(k, rx', number', rest))
            case _ => Payloads(k, rx, number, input) == []
  {
  }
}
