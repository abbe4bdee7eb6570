/** Base64 as the host-key code writes and reads it (`host_key.rs`). */
module Base64 {
  import opened Wire

  const PAD: Byte := 61

  function Char(v: nat): (c: Byte)
    requires v < 64
  {
    if v < 26 then 65 + v
    else if v < 52 then 97 + (v - 26)
    else if v < 62 then 48 + (v - 52)
    else if v == 62 then 43
    else 47
  }

  function Value(c: Byte): (v: Option<nat>)
    ensures v.Some? ==> v.value < 64
  {
    if 65 <= c <= 90 then Some(c - 65)
    else if 97 <= c <= 122 then Some(c - 97 + 26)
    else if 48 <= c <= 57 then Some(c - 48 + 52)
    else if c == 43 then Some(62)
    else if c == 47 then Some(63)
    else None
  }

  lemma ValueChar(v: nat)
    requires v < 64
    ensures Value(Char(v)) == Some(v) && !IsSpace(Char(v)) && Char(v) != PAD
  {
  }

  /** `u8::is_ascii_whitespace`. */
  predicate IsSpace(c: Byte) { c == 32 || c == 9 || c == 10 || c == 12 || c == 13 }

  // ---- encoding ----

  function Group(b0: Byte, b1: Byte, b2: Byte): nat { b0 as int * 65536 + b1 as int * 256 + b2 }

  /** The characters of one group, all four. */
  function Quad(b0: Byte, b1: Byte, b2: Byte): (r: Bytes)
    ensures |r| == 4
  {
    var n := Group(b0, b1, b2);
    [Char(n / 262144 % 64), Char(n / 4096 % 64), Char(n / 64 % 64), Char(n % 64)]
  }

  /** One group of up to three bytes: two, three or four characters. */
  function EncodeGroup(g: Bytes): (r: Bytes)
    requires 1 <= |g| <= 3
    ensures |r| == |g| + 1
  {
    Quad(g[0], if |g| > 1 then g[1] else 0, if |g| > 2 then g[2] else 0)[..|g| + 1]
  }

  function EncodeNoPad(s: Bytes): Bytes {
    if s == [] then [] else if |s| <= 3 then EncodeGroup(s) else EncodeGroup(s[..3]) + EncodeNoPad(s[3..])
  }

  function Pads(k: nat): Bytes { seq(k, _ => PAD) }

  /** How many characters complete a group of four. */
  function Lacking(n: nat): (k: nat)
    ensures k < 4
  {
    (4 - n % 4) % 4
  }

  lemma LackingLess(n: nat, k: nat)
    requires k <= Lacking(n)
    ensures (n + k) % 4 == 0 <==> k == Lacking(n)
  {
  }

  function Encode(s: Bytes): Bytes { EncodeNoPad(s) + Pads(Lacking(|EncodeNoPad(s)|)) }

  // ---- decoding ----

  function Unspaced(s: Bytes): Bytes {
    if s == [] then [] else (if IsSpace(s[0]) then [] else [s[0]]) + Unspaced(s[1..])
  }

  function Unpadded(s: Bytes): (r: Bytes)
    ensures |r| <= |s|
  {
    if |s| >= 2 && s[|s| - 2] == PAD && s[|s| - 1] == PAD then s[..|s| - 2]
    else if |s| >= 1 && s[|s| - 1] == PAD then s[..|s| - 1]
    else s
  }

  /** The bits of up to four characters. */
  function Bits(g: Bytes): (r: Option<nat>)
    requires |g| <= 4
  {
    if g == [] then Some(0)
    else
      var hi := Bits(g[..|g| - 1]);
      var lo := Value(g[|g| - 1]);
      if hi.Some? && lo.Some? then Some(hi.value * 64 + lo.value) else None
  }

  function DecodeGroup(g: Bytes): Option<Bytes>
    requires 1 <= |g| <= 4
  {
    var n := Bits(g);
    if n.None? || |g| == 1 then None
    else if |g| == 4 then Some([n.value / 65536 % 256, n.value / 256 % 256, n.value % 256])
    else if |g| == 3 then Some([n.value * 64 / 65536 % 256, n.value * 64 / 256 % 256])
    else Some([n.value * 4096 / 65536 % 256])
  }

  function DecodeGroups(s: Bytes): Option<Bytes> {
    if s == [] then Some([])
    else
      var g := if |s| <= 4 then s else s[..4];
      var head := DecodeGroup(g);
      var tail := DecodeGroups(s[|g|..]);
      if head.Some? && tail.Some? then Some(head.value + tail.value) else None
  }

  function Decode(s: Bytes): Option<Bytes> {
    var u := Unpadded(Unspaced(s));
    if |u| % 4 == 1 then None else DecodeGroups(u)
  }

  // ---- the loops ----

  lemma Regroup(a: Bytes, b: Bytes, c: Bytes)
    ensures a + (b + c) == a + b + c
  {
  }

  lemma EncodeStep(s: Bytes, n: nat)
    requires s != [] && n == if |s| < 3 then |s| else 3
    ensures EncodeNoPad(s) == EncodeGroup(s[..n]) + EncodeNoPad(s[n..])
  {
    hide EncodeGroup;
    assert |s| <= 3 ==> s[..n] == s && s[n..] == [];
  }

  method EncodeNoPadLoop(input: Bytes) returns (r: Bytes)
    ensures r == EncodeNoPad(input)
  {
    hide EncodeNoPad, EncodeGroup;
    r := [];
    var i := 0;
    assert input[0..] == input;
    while i < |input|
      invariant 0 <= i <= |input|
      invariant r + EncodeNoPad(input[i..]) == EncodeNoPad(input)
    {
      var rest := input[i..];
      var n := if |rest| < 3 then |rest| else 3;
      var chunk := input[i..i + n];
      assert chunk == rest[..n] && rest[n..] == input[i + n..];
      EncodeStep(rest, n);
      Regroup(r, EncodeGroup(chunk), EncodeNoPad(rest[n..]));
      r := r + EncodeGroup(chunk);
      i := i + n;
    }
    assert input[i..] == [];
    NothingEncodes();
  }

  lemma NothingEncodes()
    ensures EncodeNoPad([]) == []
  {
  }

  method EncodeLoop(input: Bytes) returns (r: Bytes)
    ensures r == Encode(input)
  {
    r := EncodeNoPadLoop(input);
    ghost var start := r;
    ghost var k := 0;
    LackingLess(|start|, 0);
    assert r == start + Pads(0);
    hide Lacking;
    while |r| % 4 != 0
      invariant k <= Lacking(|start|) && r == start + Pads(k)
      invariant |r| % 4 == 0 <==> k == Lacking(|start|)
      decreases 4 - k
    {
      LackingLess(|start|, k + 1);
      assert Pads(k + 1) == Pads(k) + [PAD];
      r := r + [PAD];
      k := k + 1;
    }
  }

  lemma GroupsStep(s: Bytes, n: nat)
    requires s != [] && n == if |s| <= 4 then |s| else 4
    ensures var head, tail := DecodeGroup(s[..n]), DecodeGroups(s[n..]);
            DecodeGroups(s) == if head.Some? && tail.Some? then Some(head.value + tail.value) else None
  {
    assert |s| <= 4 ==> s[..n] == s;
    hide DecodeGroup;
  }

  /** What is decoded so far, in front of what the rest decodes to. */
  function Joined(out: Bytes, rest: Option<Bytes>): Option<Bytes> {
    if rest.Some? then Some(out + rest.value) else None
  }

  lemma JoinNothing(rest: Option<Bytes>)
    ensures Joined([], rest) == rest
  {
    assert rest.Some? ==> [] + rest.value == rest.value;
  }

  method DecodeLoop(input: Bytes) returns (r: Option<Bytes>)
    ensures r == Decode(input)
  {
    hide DecodeGroup, DecodeGroups, Unpadded, Unspaced;
    var unpadded := Unpadded(Unspaced(input));
    if |unpadded| % 4 == 1 {
      return None;
    }
    var out: Bytes, i := [], 0;
    assert unpadded[0..] == unpadded;
    JoinNothing(DecodeGroups(unpadded));
    while i < |unpadded|
      invariant 0 <= i <= |unpadded|
      invariant DecodeGroups(unpadded) == Joined(out, DecodeGroups(unpadded[i..]))
    {
      var rest := unpadded[i..];
      var n := if |rest| <= 4 then |rest| else 4;
      var chunk := unpadded[i..i + n];
      assert chunk == rest[..n] && rest[n..] == unpadded[i + n..];
      GroupsStep(rest, n);
      var head := DecodeGroup(chunk);
      if head.None? {
        return None;
      }
      ghost var tail := DecodeGroups(rest[n..]);
      assert tail.Some? ==> out + (head.value + tail.value) == (out + head.value) + tail.value;
      out := out + head.value;
      i := i + n;
    }
    assert unpadded[i..] == [] && out + [] == out;
    NothingDecodes();
    return Some(out);
  }

  lemma NothingDecodes()
    ensures DecodeGroups([]) == Some([])
  {
  }

  // ---- round trips ----

  predicate Encoded(s: Bytes) { forall i :: 0 <= i < |s| ==> Value(s[i]).Some? && !IsSpace(s[i]) && s[i] != PAD }

  lemma Split(x: nat, n: nat, q: nat, r: nat)
    requires n in {64, 256, 4096, 65536} && x == n * q + r && r < n
    ensures x / n == q && x % n == r
  {
  }

  lemma GroupBytes(b0: Byte, b1: Byte, b2: Byte)
    ensures var n := Group(b0, b1, b2); n < 16777216 && n / 65536 % 256 == b0 && n / 256 % 256 == b1 && n % 256 == b2
  {
    var n := Group(b0, b1, b2);
    Split(n, 65536, b0, b1 as int * 256 + b2);
    Split(n, 256, b0 as int * 256 + b1, b2);
    Split(b0 as int * 256 + b1, 256, b0, b1);
  }

  lemma SixBits(n: nat)
    requires n < 16777216
    ensures ((n / 262144 % 64 * 64 + n / 4096 % 64) * 64 + n / 64 % 64) * 64 + n % 64 == n
    ensures n % 256 == 0 ==> ((n / 262144 % 64 * 64 + n / 4096 % 64) * 64 + n / 64 % 64) * 64 == n
    ensures n % 65536 == 0 ==> (n / 262144 % 64 * 64 + n / 4096 % 64) * 4096 == n
  {
    Shifted(n);
    SmallTop(n);
    Whole64(n);
    Whole64(n / 64);
    Whole64(n / 4096);
    LowBits(n);
    Rebuilt(n, n / 64, n / 4096, n / 262144, n / 4096 % 64, n / 64 % 64, n % 64);
  }

  lemma Whole64(n: nat)
    ensures n == 64 * (n / 64) + n % 64
  {
  }

  lemma LowBits(n: nat)
    ensures n % 256 == 0 ==> n % 64 == 0
    ensures n % 65536 == 0 ==> n % 64 == 0 && n / 64 % 64 == 0
  {
    if n % 256 == 0 {
      assert n == 64 * (4 * (n / 256));
    }
    if n % 65536 == 0 {
      assert n == 64 * (1024 * (n / 65536)) && n / 64 == 64 * (16 * (n / 65536));
    }
  }

  lemma Rebuilt(n: nat, a: nat, b: nat, c: nat, x1: nat, x2: nat, x3: nat)
    requires n == 64 * a + x3 && a == 64 * b + x2 && b == 64 * c + x1
    ensures ((c * 64 + x1) * 64 + x2) * 64 + x3 == n
    ensures x2 == 0 && x3 == 0 ==> (c * 64 + x1) * 4096 == n
  {
  }

  lemma SmallTop(n: nat)
    requires n < 16777216
    ensures n / 262144 < 64 && n / 262144 % 64 == n / 262144
  {
  }

  /** Six bits at a time. */
  lemma Shifted(n: nat)
    ensures n / 64 / 64 == n / 4096 && n / 4096 / 64 == n / 262144
  {
    var a := n / 64;
    Split(n, 4096, a / 64, 64 * (a % 64) + n % 64);
    var b := n / 4096;
    assert n == 262144 * (b / 64) + (4096 * (b % 64) + n % 4096);
  }

  /** Four characters, and the number their bits make. */
  lemma CharsMake(c0: nat, c1: nat, c2: nat, c3: nat)
    requires c0 < 64 && c1 < 64 && c2 < 64 && c3 < 64
    ensures var q := [Char(c0), Char(c1), Char(c2), Char(c3)];
            && Encoded(q) && Bits(q) == Some(((c0 * 64 + c1) * 64 + c2) * 64 + c3)
            && Bits(q[..3]) == Some((c0 * 64 + c1) * 64 + c2) && Bits(q[..2]) == Some(c0 * 64 + c1)
  {
    var q := [Char(c0), Char(c1), Char(c2), Char(c3)];
    CharsAreEncoded(c0, c1, c2, c3);
    assert q[..4] == q;
    hide Char, Value, Bits;
    BitsOf(q, c0, c1, c2, c3);
    BitsOf(q[..3], c0, c1, c2, c3);
    BitsOf(q[..2], c0, c1, c2, c3);
  }

  lemma QuadBits(b0: Byte, b1: Byte, b2: Byte)
    ensures var q, n := Quad(b0, b1, b2), Group(b0, b1, b2);
            && Encoded(q) && Bits(q) == Some(n)
            && (n % 256 == 0 ==> Bits(q[..3]).Some? && Bits(q[..3]).value * 64 == n)
            && (n % 65536 == 0 ==> Bits(q[..2]).Some? && Bits(q[..2]).value * 4096 == n)
  {
    var n := Group(b0, b1, b2);
    GroupBytes(b0, b1, b2);
    SixBits(n);
    hide Char, Group, Value, Bits;
    CharsMake(n / 262144 % 64, n / 4096 % 64, n / 64 % 64, n % 64);
  }

  lemma ThreeBytes(b0: Byte, b1: Byte, b2: Byte)
    ensures DecodeGroup(Quad(b0, b1, b2)) == Some([b0, b1, b2])
  {
    QuadBits(b0, b1, b2);
    GroupBytes(b0, b1, b2);
    hide Quad, Bits, Group;
  }

  lemma TwoBytes(b0: Byte, b1: Byte)
    ensures DecodeGroup(Quad(b0, b1, 0)[..3]) == Some([b0, b1])
  {
    QuadBits(b0, b1, 0);
    GroupBytes(b0, b1, 0);
    GroupOfFew(b0, b1);
    hide Quad, Bits, Group;
  }

  lemma OneByte(b0: Byte)
    ensures DecodeGroup(Quad(b0, 0, 0)[..2]) == Some([b0])
  {
    QuadBits(b0, 0, 0);
    GroupBytes(b0, 0, 0);
    GroupOfFew(b0, 0);
    hide Quad, Bits, Group;
  }

  lemma GroupRoundTrip(g: Bytes)
    requires 1 <= |g| <= 3
    ensures DecodeGroup(EncodeGroup(g)) == Some(g) && Encoded(EncodeGroup(g))
  {
    var b1: Byte, b2: Byte := if |g| > 1 then g[1] else 0, if |g| > 2 then g[2] else 0;
    assert EncodeGroup(g) == Quad(g[0], b1, b2)[..|g| + 1];
    QuadBits(g[0], b1, b2);
    hide Quad, EncodeGroup, DecodeGroup, Bits, Group, Value;
    if |g| == 1 {
      OneByte(g[0]);
      assert g == [g[0]];
    } else if |g| == 2 {
      TwoBytes(g[0], g[1]);
      assert g == [g[0], g[1]];
    } else {
      ThreeBytes(g[0], g[1], g[2]);
      assert g == [g[0], g[1], g[2]] && Quad(g[0], b1, b2)[..4] == Quad(g[0], b1, b2);
    }
  }

  lemma GroupOfFew(b0: Byte, b1: Byte)
    ensures Group(b0, b1, 0) % 256 == 0 && Group(b0, 0, 0) % 65536 == 0
  {
    Split(Group(b0, b1, 0), 256, b0 as int * 256 + b1, 0);
    Split(Group(b0, 0, 0), 65536, b0, 0);
  }

  lemma CharsAreEncoded(c0: nat, c1: nat, c2: nat, c3: nat)
    requires c0 < 64 && c1 < 64 && c2 < 64 && c3 < 64
    ensures Encoded([Char(c0), Char(c1), Char(c2), Char(c3)])
  {
    ValueChar(c0);
    ValueChar(c1);
    ValueChar(c2);
    ValueChar(c3);
  }

  lemma BitsOf(r: Bytes, c0: nat, c1: nat, c2: nat, c3: nat)
    requires c0 < 64 && c1 < 64 && c2 < 64 && c3 < 64
    requires 2 <= |r| <= 4 && r == [Char(c0), Char(c1), Char(c2), Char(c3)][..|r|]
    ensures Bits(r) == Some(if |r| == 2 then c0 * 64 + c1
                            else if |r| == 3 then (c0 * 64 + c1) * 64 + c2
                            else ((c0 * 64 + c1) * 64 + c2) * 64 + c3)
  {
    hide Value, Char, Bits;
    ValueChar(c0);
    ValueChar(c1);
    ValueChar(c2);
    ValueChar(c3);
    NoBits();
    var g1, g2, g3 := [Char(c0)], [Char(c0), Char(c1)], [Char(c0), Char(c1), Char(c2)];
    NextBits([], g1, Char(c0));
    NextBits(g1, g2, Char(c1));
    if |r| == 2 {
      assert r == g2;
    } else {
      NextBits(g2, g3, Char(c2));
      if |r| == 3 {
        assert r == g3;
      } else {
        NextBits(g3, r, Char(c3));
      }
    }
  }

  lemma NoBits()
    ensures Bits([]) == Some(0)
  {
  }

  lemma NextBits(g: Bytes, h: Bytes, b: Byte)
    requires |g| < 4 && h == g + [b] && Bits(g).Some? && Value(b).Some?
    ensures Bits(h) == Some(Bits(g).value * 64 + Value(b).value)
  {
    hide Value;
    assert h[..|g|] == g;
  }
  lemma {:induction false} EncodeLength(s: Bytes)
    ensures |EncodeNoPad(s)| == |s| / 3 * 4 + (if |s| % 3 == 0 then 0 else |s| % 3 + 1)
  {
    hide EncodeGroup;
    if |s| > 3 {
      EncodeLength(s[3..]);
      assert |s| / 3 == (|s| - 3) / 3 + 1 && |s| % 3 == (|s| - 3) % 3;
    }
  }

  lemma {:induction false} GroupsRoundTrip(s: Bytes)
    ensures DecodeGroups(EncodeNoPad(s)) == Some(s) && Encoded(EncodeNoPad(s))
  {
    hide EncodeGroup, DecodeGroup, Value, IsSpace;
    if s != [] {
      var g := if |s| <= 3 then s else s[..3];
      GroupRoundTrip(g);
      var head, whole := EncodeGroup(g), EncodeNoPad(s);
      GroupsStep(whole, |head|);
      if |s| > 3 {
        GroupsRoundTrip(s[3..]);
        assert whole[..4] == head && whole[4..] == EncodeNoPad(s[3..]);
        assert s == g + s[3..];
      } else {
        assert whole[..|head|] == whole && whole[|head|..] == [];
        assert g + [] == s;
      }
    }
  }

  lemma {:induction false} UnspacedKeeps(s: Bytes)
    requires forall i :: 0 <= i < |s| ==> !IsSpace(s[i])
    ensures Unspaced(s) == s
  {
    if s != [] {
      UnspacedKeeps(s[1..]);
    }
  }

  lemma {:induction false} UnspacedJoins(a: Bytes, b: Bytes)
    ensures Unspaced(a + b) == Unspaced(a) + Unspaced(b)
  {
    hide IsSpace;
    if a == [] {
      assert a + b == b;
    } else {
      UnspacedJoins(a[1..], b);
      assert (a + b)[1..] == a[1..] + b && (a + b)[0] == a[0];
      Regroup(if IsSpace(a[0]) then [] else [a[0]], Unspaced(a[1..]), Unspaced(b));
    }
  }

  lemma UnpaddedKeeps(s: Bytes, k: nat)
    requires k <= 2 && forall i :: 0 <= i < |s| ==> s[i] != PAD
    ensures Unpadded(s + Pads(k)) == s
  {
    var p := s + Pads(k);
    assert p[..|s|] == s;
  }

  lemma Counts(q: nat, r: nat)
    requires r < 3
    ensures var n := q * 4 + (if r == 0 then 0 else r + 1);
            n % 4 != 1 && Lacking(n) <= 2 && n + Lacking(n) == (3 * q + r + 2) / 3 * 4
  {
    if r == 0 {
      assert (q * 4) % 4 == 0 && (3 * q + 2) / 3 == q;
    } else {
      assert (q * 4 + (r + 1)) % 4 == r + 1 && (3 * q + r + 2) / 3 == q + 1;
    }
  }

  lemma EncodedShape(s: Bytes)
    ensures var n := |EncodeNoPad(s)|; n % 4 != 1 && Lacking(n) <= 2 && n + Lacking(n) == (|s| + 2) / 3 * 4
  {
    EncodeLength(s);
    hide EncodeNoPad, Lacking;
    Counts(|s| / 3, |s| % 3);
    assert 3 * (|s| / 3) + |s| % 3 == |s|;
  }

  /** Decoding undoes both encoders, on every byte string. */
  lemma DecodeEncode(s: Bytes)
    ensures Decode(EncodeNoPad(s)) == Some(s) && Decode(Encode(s)) == Some(s)
    ensures |Encode(s)| == (|s| + 2) / 3 * 4
  {
    GroupsRoundTrip(s);
    EncodedShape(s);
    var e := EncodeNoPad(s);
    hide EncodeNoPad, DecodeGroups, Unspaced, Unpadded, Value, Lacking;
    UnspacedKeeps(e);
    UnspacedKeeps(Encode(s));
    UnpaddedKeeps(e, 0);
    UnpaddedKeeps(e, Lacking(|e|));
    assert e + Pads(0) == e;
  }

  /** Line breaks anywhere in the text change nothing. */
  lemma DecodeIgnoresSpace(a: Bytes, b: Bytes)
    requires Unspaced(a) == Unspaced(b)
    ensures Decode(a) == Decode(b)
  {
  }
}
