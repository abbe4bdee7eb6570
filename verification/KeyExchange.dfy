/** The exchange hash's input and the key derivation (`kex.rs`; sections 7.2 and
8 of RFC 4253, with K as a string), for any hash. */
module KeyExchange {
  import opened Wire

  const HASH_LEN: nat := 32

  datatype Inputs = Inputs(
    clientId: Str, serverId: Str, clientKexInit: Str, serverKexInit: Str,
    hostKeyBlob: Str, clientInit: Str, serverReply: Str, sharedSecret: Str)

  function Listed(i: Inputs): seq<Str> {
    [i.clientId, i.serverId, i.clientKexInit, i.serverKexInit, i.hostKeyBlob, i.clientInit, i.serverReply,
     i.sharedSecret]
  }

  /** What `exchange_hash` hashes. */
  function Serialised(i: Inputs): Bytes { PutStrings(Listed(i)) }

  /** The serialised input determines all eight fields. */
  lemma SerialisedIsInjective(i: Inputs, j: Inputs)
    requires Serialised(i) == Serialised(j)
    ensures i == j
  {
    PutStringsIsInjective(Listed(i), Listed(j));
    var a, b := Listed(i), Listed(j);
    assert a[0] == b[0] && a[1] == b[1] && a[2] == b[2] && a[3] == b[3];
    assert a[4] == b[4] && a[5] == b[5] && a[6] == b[6] && a[7] == b[7];
  }

  lemma PutStringsNext(items: seq<Str>, item: Str)
    ensures PutStrings([item] + items) == PutString(item) + PutStrings(items)
  {
    assert ([item] + items)[1..] == items;
  }

  /** The eight fields of section 8 of RFC 4253, in its order, each a string: V_C,
      V_S, I_C, I_S, K_S, then the two key shares and K. */
  lemma SerialisedInOrder(i: Inputs)
    ensures Serialised(i) ==
            PutString(i.clientId) + PutString(i.serverId) + PutString(i.clientKexInit) + PutString(i.serverKexInit)
            + PutString(i.hostKeyBlob) + PutString(i.clientInit) + PutString(i.serverReply) + PutString(i.sharedSecret)
  {
    hide PutString, PutStrings;
    var all := Listed(i);
    NoStrings();
    PutStringsNext([], i.sharedSecret);
    assert [i.sharedSecret] + [] == [i.sharedSecret];
    PutStringsNext(all[7..], i.serverReply);
    PutStringsNext(all[6..], i.clientInit);
    PutStringsNext(all[5..], i.hostKeyBlob);
    PutStringsNext(all[4..], i.serverKexInit);
    PutStringsNext(all[3..], i.clientKexInit);
    PutStringsNext(all[2..], i.serverId);
    PutStringsNext(all[1..], i.clientId);
    assert all[7..] == [i.sharedSecret] && all[6..] == [i.serverReply] + all[7..];
    assert all[5..] == [i.clientInit] + all[6..] && all[4..] == [i.hostKeyBlob] + all[5..];
    assert all[3..] == [i.serverKexInit] + all[4..] && all[2..] == [i.clientKexInit] + all[3..];
    assert all[1..] == [i.serverId] + all[2..] && all == [i.clientId] + all[1..];
  }

  lemma NoStrings()
    ensures PutStrings([]) == []
  {
  }

  // ---- key material ----

  type Hash = Bytes -> Bytes

  ghost predicate Hashes(h: Hash) { forall b :: |h(b)| == HASH_LEN }

  /** K1, K1 K2, K1 K2 K3 and so on. */
  ghost function Blocks(h: Hash, prefix: Bytes, first: Bytes, n: nat): (b: Bytes)
    requires Hashes(h)
    ensures |b| == n * HASH_LEN
  {
    if n == 0 then []
    else if n == 1 then h(prefix + first)
    else
      var before := Blocks(h, prefix, first, n - 1);
      before + h(prefix + before)
  }

  lemma {:induction false} BlocksGrow(h: Hash, prefix: Bytes, first: Bytes, m: nat, n: nat)
    requires Hashes(h) && m <= n
    ensures Blocks(h, prefix, first, m) <= Blocks(h, prefix, first, n)
    decreases n
  {
    if m < n {
      BlocksGrow(h, prefix, first, m, n - 1);
    }
  }

  /** `derive_key`: the first `needed` bytes, the same from any number of blocks
      that is enough; so a shorter key is a prefix of a longer one. */
  method DeriveKey(h: Hash, secret: Str, exchangeHash: Bytes, letter: Byte, sessionId: Bytes, needed: nat)
      returns (out: Bytes)
    requires Hashes(h)
    ensures |out| == needed
    ensures forall m: nat :: needed <= m * HASH_LEN ==>
              out == Blocks(h, PutString(secret) + exchangeHash, [letter] + sessionId, m)[..needed]
  {
    var prefix := PutString(secret) + exchangeHash;
    var first := [letter] + sessionId;
    out := h(prefix + first);
    ghost var n := 1;
    assert out == Blocks(h, prefix, first, 1);
    while |out| < needed
      invariant n >= 1 && out == Blocks(h, prefix, first, n)
      decreases needed - |out|
    {
      out := out + h(prefix + out);
      n := n + 1;
    }
    forall m: nat | needed <= m * HASH_LEN
      ensures out[..needed] == Blocks(h, prefix, first, m)[..needed]
    {
      if m <= n {
        BlocksGrow(h, prefix, first, m, n);
      } else {
        BlocksGrow(h, prefix, first, n, m);
      }
    }
    out := out[..needed];
  }
}
