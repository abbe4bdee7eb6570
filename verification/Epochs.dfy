/** Key epochs end to end: the server's re-key machine (`transport.rs`) against
a peer that follows section 7.3 of RFC 4253 with the strict-kex counter resets,
over two FIFO byte streams. Re-keys may be started by either side or both at
once, with or without a guessed first packet, in any interleaving. */
module Epochs {
  import opened Wire
  import opened Trace
  import opened Transport
  import opened LinkProofs

  // ---- the peer ----

  /** What both sides compute alike: whether a KEXINIT announces a guessed
      packet that will be skipped, and the counters a transcript gives. */
  datatype Setting = Setting(follows: Bytes -> bool, ivs: Exchanged -> Ivs)

  datatype Peer = Peer(
    tx: Cipher, seqTx: U32, sealed: nat,
    rx: Cipher, seqRx: U32,
    sentInit: Option<Bytes>, sentHybrid: Option<Str>, gotInit: Option<Bytes>,
    keyed: Option<Exchanged>, sentNew: bool, gotNew: bool)

  predicate Tidy(p: Peer) {
    && (p.keyed.Some? ==> p.sentInit.Some? && p.sentHybrid.Some? && p.gotInit.Some?)
    && (p.keyed.None? ==> !p.sentNew && !p.gotNew)
    && (p.sentHybrid.Some? ==> p.sentInit.Some?)
    && !(p.sentNew && p.gotNew)
  }

  /** An exchange is over once both NEWKEYS have passed. */
  function Settle(p: Peer): Peer {
    if p.sentNew && p.gotNew then
      p.(sentInit := None, sentHybrid := None, gotInit := None, keyed := None, sentNew := false, gotNew := false)
    else p
  }

  /** The packet opens: the cipher state and number it was sealed with are the
      peer's own, and an exchange message comes in its place. */
  predicate Fits(p: Peer, e: Entry) {
    e.Sent? ==>
      && e.stamp.cipher == p.rx && e.stamp.number == p.seqRx
      && (e.frame.KexInit? ==> p.gotInit.None? && p.keyed.None?)
      && (e.frame.HybridReply? ==> p.sentInit.Some? && p.gotInit.Some? && p.sentHybrid.Some? && p.keyed.None?)
      && (e.frame.NewKeys? ==> p.keyed.Some? && !p.gotNew)
  }

  function Hear(g: Setting, p: Peer, e: Entry): Peer {
    if !e.Sent? then p
    else
      var q := p.(rx := Advance(p.rx), seqRx := Wrap32(p.seqRx + 1));
      if e.frame.KexInit? then q.(gotInit := Some(e.frame.body))
      else if e.frame.HybridReply? && p.sentInit.Some? && p.gotInit.Some? && p.sentHybrid.Some? then
        q.(keyed := Some(Exchanged(p.sentInit.value, p.gotInit.value, p.sentHybrid.value, e.frame.reply)))
      else if e.frame.NewKeys? && p.keyed.Some? then
        var iv := g.ivs(p.keyed.value).serverToClient;
        Settle(q.(rx := Cipher(p.rx.epoch + 1, p.keyed.value, iv, iv), seqRx := 0, gotNew := true))
      else q
  }

  function HearAll(g: Setting, p: Peer, es: History): Peer {
    if es == [] then p else Hear(g, HearAll(g, p, es[..|es| - 1]), es[|es| - 1])
  }

  predicate AllFit(g: Setting, p: Peer, es: History) {
    es != [] ==> AllFit(g, p, es[..|es| - 1]) && Fits(HearAll(g, p, es[..|es| - 1]), es[|es| - 1])
  }

  // ---- what the peer sends ----

  datatype Kind = Plain | Init | Guess | Hybrid(value: Str) | Keys(cipher: Cipher)

  datatype Up = Up(kind: Kind, payload: Bytes, stamp: Stamp)

  /** How far the packets read so far have taken the exchange. */
  datatype Mode =
    | Open
    | Guessing(clientInit: Bytes)
    | Wait(clientInit: Bytes)
    | Ready(clientInit: Bytes, hybridInit: Bytes)

  /** The server's receiving side; `staged` is the cipher NEWKEYS installs. */
  datatype Ear = Ear(rx: Cipher, number: U32, mode: Mode, staged: Option<Cipher>)

  function EarOf(t: Link): Ear {
    match t.phase
    case AwaitHybridInit(ci, _, skip) => Ear(t.rx, t.seqRx, if skip then Guessing(ci) else Wait(ci), None)
    case AwaitNewKeys(newRx) =>
      Ear(t.rx, t.seqRx,
          if newRx.exchanged.Exchanged? then Ready(newRx.exchanged.clientInit, newRx.exchanged.hybridInit)
              else Ready([], []),
          Some(newRx))
    case _ => Ear(t.rx, t.seqRx, Open, None)
  }

  predicate FitsUp(r: Ear, up: Up) {
    && up.stamp.cipher == r.rx && up.stamp.number == r.number
    && match up.kind
       case Plain => r.mode.Open? && (up.payload != [] ==> up.payload[0] != MSG_KEXINIT)
       case Init => r.mode.Open? && up.payload != [] && up.payload[0] == MSG_KEXINIT
       case Guess => r.mode.Guessing?
       case Hybrid(v) => r.mode.Wait? && |v| <= CLIENT_INIT_LEN && up.payload == [MSG_KEX_HYBRID_INIT] + PutString(v)
       case Keys(c) => r.mode.Ready? && r.staged == Some(c) && up.payload == [MSG_NEWKEYS]
  }

  function HearUp(g: Setting, r: Ear, up: Up): Ear {
    var q := r.(rx := Advance(r.rx), number := Wrap32(r.number + 1));
    match up.kind
    case Plain => q
    case Init => q.(mode := if g.follows(up.payload) then Guessing(up.payload) else Wait(up.payload))
    case Guess => if r.mode.Guessing? then q.(mode := Wait(r.mode.clientInit)) else q
    case Hybrid(v) => if r.mode.Wait? then q.(mode := Ready(r.mode.clientInit, v)) else q
    case Keys(c) => Ear(c, 0, Open, None)
  }

  function HearUps(g: Setting, r: Ear, ups: seq<Up>): Ear {
    if ups == [] then r else HearUp(g, HearUps(g, r, ups[..|ups| - 1]), ups[|ups| - 1])
  }

  predicate AllFitUps(g: Setting, r: Ear, ups: seq<Up>) {
    ups != [] ==> AllFitUps(g, r, ups[..|ups| - 1]) && FitsUp(HearUps(g, r, ups[..|ups| - 1]), ups[|ups| - 1])
  }

  /** What the peer's own sending says about the exchange. */
  function PeerMode(p: Peer): Mode {
    if p.sentInit.None? || p.sentNew then Open
    else if p.sentHybrid.None? then Wait(p.sentInit.value)
    else Ready(p.sentInit.value, p.sentHybrid.value)
  }

  // ---- the two ends together ----

  /** `heard` entries of the server's history have reached the peer; `ups` are
      the peer's packets on their way. */
  datatype World = World(server: Link, peer: Peer, heard: nat, ups: seq<Up>)

  function Pending(w: World): History
    requires w.heard <= |w.server.history|
  {
    w.server.history[w.heard..]
  }

  /** The server's phase against the peer once it has read everything sent to
      it (`z`), and the server's ear once it has read everything sent to it. */
  predicate Joined(g: Setting, phase: Phase, z: Peer, r: Ear) {
    match phase
    case Idle => z.gotInit.None? && z.keyed.None?
    case SentKexInit(si) => z.gotInit == Some(si) && z.keyed.None?
    case AwaitHybridInit(ci, si, _) => z.gotInit == Some(si) && z.keyed.None? && z.sentInit == Some(ci)
    case AwaitNewKeys(newRx) =>
      || (z.keyed.None? && z.gotInit.None?)
      || (&& z.keyed == Some(newRx.exchanged) && z.gotNew && !z.sentNew && r.staged == Some(newRx)
          && var iv := g.ivs(newRx.exchanged).clientToServer; newRx == Cipher(r.rx.epoch + 1, newRx.exchanged, iv, iv))
  }

  ghost predicate Sync(g: Setting, w: World) {
    && w.heard <= |w.server.history| && Tidy(w.peer)
    && AllFit(g, w.peer, Pending(w)) && AllFitUps(g, EarOf(w.server), w.ups)
    && var z, r := HearAll(g, w.peer, Pending(w)), HearUps(g, EarOf(w.server), w.ups);
       && z.rx == w.server.tx && z.seqRx == w.server.seqTx
       && r.rx == w.peer.tx && r.number == w.peer.seqTx && r.mode == PeerMode(w.peer)
       && Joined(g, w.server.phase, z, r)
  }

  // ---- reading from the front of a queue ----

  lemma {:induction false} HearFront(g: Setting, p: Peer, es: History)
    requires es != []
    ensures HearAll(g, p, es) == HearAll(g, Hear(g, p, es[0]), es[1..])
    ensures AllFit(g, p, es) ==> Fits(p, es[0]) && AllFit(g, Hear(g, p, es[0]), es[1..])
    decreases |es|
  {
    hide Fits, Hear;
    var init := es[..|es| - 1];
    if init != [] {
      HearFront(g, p, init);
      assert init[0] == es[0] && es[1..][..|es| - 2] == init[1..];
    } else {
      assert HearAll(g, p, init) == p && es[1..] == [];
    }
  }

  lemma {:induction false} HearUpsFront(g: Setting, r: Ear, ups: seq<Up>)
    requires ups != []
    ensures HearUps(g, r, ups) == HearUps(g, HearUp(g, r, ups[0]), ups[1..])
    ensures AllFitUps(g, r, ups) ==> FitsUp(r, ups[0]) && AllFitUps(g, HearUp(g, r, ups[0]), ups[1..])
    decreases |ups|
  {
    hide FitsUp, HearUp;
    var init := ups[..|ups| - 1];
    if init != [] {
      HearUpsFront(g, r, init);
      assert init[0] == ups[0] && ups[1..][..|ups| - 2] == init[1..];
    } else {
      assert HearUps(g, r, init) == r && ups[1..] == [];
    }
  }

  lemma HearOneMore(g: Setting, p: Peer, es: History, e: Entry)
    ensures HearAll(g, p, es + [e]) == Hear(g, HearAll(g, p, es), e)
    ensures AllFit(g, p, es + [e]) <==> AllFit(g, p, es) && Fits(HearAll(g, p, es), e)
  {
    assert (es + [e])[..|es|] == es;
    hide Fits, Hear;
  }

  lemma HearOneMoreUp(g: Setting, r: Ear, ups: seq<Up>, up: Up)
    ensures HearUps(g, r, ups + [up]) == HearUp(g, HearUps(g, r, ups), up)
    ensures AllFitUps(g, r, ups + [up]) <==> AllFitUps(g, r, ups) && FitsUp(HearUps(g, r, ups), up)
  {
    assert (ups + [up])[..|ups|] == ups;
    hide FitsUp, HearUp;
  }

  // ---- what hearing leaves alone ----

  lemma {:induction false} HearKeeps(g: Setting, p: Peer, es: History)
    requires Tidy(p) && AllFit(g, p, es)
    ensures var z := HearAll(g, p, es);
            && Tidy(z) && z.tx == p.tx && z.seqTx == p.seqTx && z.sealed == p.sealed
            && (!p.sentNew ==> z.sentInit == p.sentInit && z.sentHybrid == p.sentHybrid && !z.sentNew)
            && (p.keyed.Some? && !p.sentNew ==> z.keyed == p.keyed && z.gotInit.Some?)
            && (p.sentHybrid.None? ==> z.keyed.None?)
  {
    if es != [] {
      HearKeeps(g, p, es[..|es| - 1]);
    }
  }

  /** A packet sent meanwhile does not change what the peer hears. */
  lemma {:induction false} SpeakCommutes(g: Setting, p: Peer, es: History, tx: Cipher, n: U32, sealed: nat)
    ensures var q := p.(tx := tx, seqTx := n, sealed := sealed);
            && HearAll(g, q, es) == HearAll(g, p, es).(tx := tx, seqTx := n, sealed := sealed)
            && (AllFit(g, p, es) ==> AllFit(g, q, es))
  {
    if es != [] {
      SpeakCommutes(g, p, es[..|es| - 1], tx, n, sealed);
    }
  }

  /** Neither does a KEXINIT or a HYBRID_INIT: no reply can be under way. */
  lemma {:induction false} OfferCommutes(g: Setting, p: Peer, es: History, init: Option<Bytes>, hybrid: Option<Str>)
    requires Tidy(p) && p.sentHybrid.None? && AllFit(g, p, es)
    ensures var q := p.(sentInit := init, sentHybrid := hybrid);
            && HearAll(g, q, es) == HearAll(g, p, es).(sentInit := init, sentHybrid := hybrid)
            && AllFit(g, q, es)
  {
    if es != [] {
      OfferCommutes(g, p, es[..|es| - 1], init, hybrid);
      HearKeeps(g, p, es[..|es| - 1]);
    }
  }

  /** Offer and send at once, as far as the rest of the peer is concerned. */
  lemma OfferHeard(g: Setting, p: Peer, es: History, init: Option<Bytes>, hybrid: Option<Str>, tx: Cipher, n: U32,
                   sealed: nat)
    requires Tidy(p) && p.sentHybrid.None? && AllFit(g, p, es)
    ensures var z, y := HearAll(g, p, es),
                        HearAll(g, p.(sentInit := init, sentHybrid := hybrid, tx := tx, seqTx := n, sealed := sealed),
                                es);
            && AllFit(g, p.(sentInit := init, sentHybrid := hybrid, tx := tx, seqTx := n, sealed := sealed), es)
            && y.rx == z.rx && y.seqRx == z.seqRx && y.gotInit == z.gotInit && y.sentInit == init
            && y.keyed == z.keyed == None
  {
    hide Fits, Hear, AllFit, HearAll;
    HearKeeps(g, p, es);
    OfferCommutes(g, p, es, init, hybrid);
    SpeakCommutes(g, p.(sentInit := init, sentHybrid := hybrid), es, tx, n, sealed);
  }

  /** After the peer's NEWKEYS, the server's ends the exchange at once. */
  lemma {:induction false} KeysCommute(g: Setting, p: Peer, es: History)
    requires Tidy(p) && p.keyed.Some? && !p.sentNew && AllFit(g, p, es)
    ensures var q := Settle(p.(sentNew := true));
            && HearAll(g, q, es) == Settle(HearAll(g, p, es).(sentNew := true))
            && AllFit(g, q, es)
  {
    if es != [] {
      KeysCommute(g, p, es[..|es| - 1]);
      HearKeeps(g, p, es[..|es| - 1]);
    }
  }

  /** Without a staged cipher, an exchange on its way stays the same one; with
      the HYBRID_INIT read, nothing can follow. */
  lemma {:induction false} SameExchange(g: Setting, r: Ear, ups: seq<Up>)
    requires !r.mode.Open? && r.staged.None? && AllFitUps(g, r, ups)
    ensures var z := HearUps(g, r, ups);
            && !z.mode.Open? && z.mode.clientInit == r.mode.clientInit && z.staged.None?
            && (r.mode.Ready? ==> ups == [])
  {
    if ups != [] {
      SameExchange(g, r, ups[..|ups| - 1]);
    }
  }

  lemma {:induction false} StagedGoesOnce(g: Setting, r: Ear, ups: seq<Up>)
    requires r.staged.None?
    ensures HearUps(g, r, ups).staged.None?
  {
    if ups != [] {
      StagedGoesOnce(g, r, ups[..|ups| - 1]);
    }
  }

  // ---- steps ----

  datatype Act =
    | PeerSpeaks(payload: Bytes)
    | PeerOffers(clientInit: Bytes, guess: Bytes)  // KEXINIT, and the guessed packet it announces
    | PeerAnswers(value: Str)                      // HYBRID_INIT
    | PeerSwitches                                 // NEWKEYS
    | PeerHears
    | ServerSpeaks(frame: Frame)
    | ServerNotes(entry: Entry)
    | ServerBegins(env: Env)
    | ServerHears(env: Env)

  function Spoke(p: Peer): Peer { p.(tx := Advance(p.tx), seqTx := Wrap32(p.seqTx + 1), sealed := p.sealed + 1) }

  function PeerSend(w: World, kind: Kind, payload: Bytes): World {
    w.(peer := Spoke(w.peer), ups := w.ups + [Up(kind, payload, Stamp(w.peer.tx, w.peer.sealed, w.peer.seqTx))])
  }

  /** The packets of an offer, in order. */
  function Offer(g: Setting, p: Peer, ci: Bytes, guess: Bytes): seq<Up> {
    var q := Spoke(p);
    [Up(Init, ci, Stamp(p.tx, p.sealed, p.seqTx))] +
    (if g.follows(ci) then [Up(Guess, guess, Stamp(q.tx, q.sealed, q.seqTx))] else [])
  }

  function Offered(g: Setting, p: Peer, ci: Bytes): Peer { if g.follows(ci) then Spoke(Spoke(p)) else Spoke(p) }

  function NextTx(g: Setting, p: Peer): Cipher
    requires p.keyed.Some?
  {
    var iv := g.ivs(p.keyed.value).clientToServer;
    Cipher(p.tx.epoch + 1, p.keyed.value, iv, iv)
  }

  function ServerRead(t0: Link, payload: Bytes, env: Env): Rekeyed {
    var t := Received(t0, payload);
    if RekeyActive(t) || (payload != [] && payload[0] == MSG_KEXINIT) then StepRekey(t, payload, env)
    else Next(t, Continued)
  }

  /** The server's surroundings compute what the peer computes. */
  ghost predicate Suits(g: Setting, env: Env, payload: Bytes) {
    env.ivs == g.ivs && env.negotiation == Agreed(g.follows(payload))
  }

  ghost predicate Can(g: Setting, w: World, a: Act) {
    match a
    case PeerSpeaks(payload) => PeerMode(w.peer).Open? && (payload != [] ==> payload[0] != MSG_KEXINIT)
    case PeerOffers(ci, _) => w.peer.sentInit.None? && ci != [] && ci[0] == MSG_KEXINIT
    case PeerAnswers(v) => w.peer.sentInit.Some? && w.peer.sentHybrid.None? && |v| <= CLIENT_INIT_LEN
    case PeerSwitches => w.peer.keyed.Some? && !w.peer.sentNew
    case PeerHears => w.heard < |w.server.history|
    case ServerSpeaks(f) => w.server.phase.Idle? && !KexFrame(f) && Write(w.server, f).Go?
    case ServerNotes(e) => !e.Sent?
    case ServerBegins(env) => w.server.phase.Idle? && BeginRekey(w.server, env).Go?
    case ServerHears(env) =>
      w.ups != [] && Suits(g, env, w.ups[0].payload) && ServerRead(w.server, w.ups[0].payload, env).Next?
  }

  ghost function Do(g: Setting, w: World, a: Act): World
    requires Can(g, w, a)
  {
    match a
    case PeerSpeaks(payload) => PeerSend(w, Plain, payload)
    case PeerOffers(ci, guess) =>
      var p := w.peer.(sentInit := Some(ci));
      w.(peer := Offered(g, p, ci), ups := w.ups + Offer(g, p, ci, guess))
    case PeerAnswers(v) =>
      PeerSend(w.(peer := w.peer.(sentHybrid := Some(v))), Hybrid(v), [MSG_KEX_HYBRID_INIT] + PutString(v))
    case PeerSwitches =>
      var c := NextTx(g, w.peer);
      var v := PeerSend(w, Keys(c), [MSG_NEWKEYS]);
      v.(peer := Settle(w.peer.(sentNew := true)).(tx := c, seqTx := 0, sealed := 0))
    case PeerHears => w.(peer := Hear(g, w.peer, w.server.history[w.heard]), heard := w.heard + 1)
    case ServerSpeaks(f) => w.(server := Write(w.server, f).st)
    case ServerNotes(e) => w.(server := Log(w.server, e))
    case ServerBegins(env) => w.(server := BeginRekey(w.server, env).st)
    case ServerHears(env) => w.(server := ServerRead(w.server, w.ups[0].payload, env).link, ups := w.ups[1..])
  }

  // ---- the peer's steps ----

  lemma SpeaksKeeps(g: Setting, w: World, payload: Bytes)
    requires Sync(g, w) && Can(g, w, PeerSpeaks(payload))
    ensures Sync(g, Do(g, w, PeerSpeaks(payload)))
  {
    hide Fits, Hear, AllFit, HearAll, AllFitUps, HearUps, EarOf;
    var q := Spoke(w.peer);
    SpeakCommutes(g, w.peer, Pending(w), q.tx, q.seqTx, q.sealed);
    HearOneMoreUp(g, EarOf(w.server), w.ups, Up(Plain, payload, Stamp(w.peer.tx, w.peer.sealed, w.peer.seqTx)));
  }

  lemma OfferFits(g: Setting, r: Ear, ups: seq<Up>, p: Peer, ci: Bytes, guess: Bytes)
    requires AllFitUps(g, r, ups) && ci != [] && ci[0] == MSG_KEXINIT
    requires var z := HearUps(g, r, ups); z.rx == p.tx && z.number == p.seqTx && z.mode.Open?
    ensures AllFitUps(g, r, ups + Offer(g, p, ci, guess))
    ensures var z := HearUps(g, r, ups + Offer(g, p, ci, guess));
            var q := Offered(g, p, ci);
            z == Ear(q.tx, q.seqTx, Wait(ci), HearUps(g, r, ups).staged)
  {
    hide AllFitUps, HearUps;
    var q := Spoke(p);
    var first := Up(Init, ci, Stamp(p.tx, p.sealed, p.seqTx));
    var second := Up(Guess, guess, Stamp(q.tx, q.sealed, q.seqTx));
    HearOneMoreUp(g, r, ups, first);
    if g.follows(ci) {
      HearOneMoreUp(g, r, ups + [first], second);
      assert ups + Offer(g, p, ci, guess) == ups + [first] + [second];
    } else {
      assert ups + Offer(g, p, ci, guess) == ups + [first];
    }
  }

  /** Before a reply the exchange stands as it stood. */
  lemma JoinedBeforeReply(g: Setting, phase: Phase, z: Peer, r: Ear, y: Peer, q: Ear)
    requires Joined(g, phase, z, r) && z.keyed.None? && y.keyed.None? && y.gotInit == z.gotInit
    requires phase.AwaitHybridInit? ==> y.sentInit == z.sentInit
    ensures Joined(g, phase, y, q)
  {
  }

  /** While the peer has offered nothing, the server awaits no HYBRID_INIT. */
  lemma OffersKeeps(g: Setting, w: World, ci: Bytes, guess: Bytes)
    requires Sync(g, w) && Can(g, w, PeerOffers(ci, guess))
    ensures Sync(g, Do(g, w, PeerOffers(ci, guess)))
  {
    HearKeeps(g, w.peer, Pending(w));
    hide Fits, Hear, AllFit, HearAll, AllFitUps, HearUps, EarOf, FitsUp, HearUp, Joined, Offer, Offered;
    var w' := Do(g, w, PeerOffers(ci, guess));
    var p := w.peer.(sentInit := Some(ci));
    OfferedFields(g, p, ci);
    OfferHeard(g, w.peer, Pending(w), Some(ci), None, w'.peer.tx, w'.peer.seqTx, w'.peer.sealed);
    OfferFits(g, EarOf(w.server), w.ups, p, ci, guess);
    NoHybridAwaited(g, w.server.phase, HearAll(g, w.peer, Pending(w)), HearUps(g, EarOf(w.server), w.ups));
    JoinedBeforeReply(g, w.server.phase, HearAll(g, w.peer, Pending(w)), HearUps(g, EarOf(w.server), w.ups),
                      HearAll(g, w'.peer, Pending(w')), HearUps(g, EarOf(w.server), w'.ups));
  }

  lemma OfferedFields(g: Setting, p: Peer, ci: Bytes)
    ensures var q := Offered(g, p, ci); q == p.(tx := q.tx, seqTx := q.seqTx, sealed := q.sealed)
  {
  }

  lemma NoHybridAwaited(g: Setting, phase: Phase, z: Peer, r: Ear)
    requires Joined(g, phase, z, r) && z.sentInit.None?
    ensures !phase.AwaitHybridInit?
  {
  }

  lemma AnswersKeeps(g: Setting, w: World, v: Str)
    requires Sync(g, w) && Can(g, w, PeerAnswers(v))
    ensures Sync(g, Do(g, w, PeerAnswers(v)))
  {
    hide Fits, Hear, AllFit, HearAll, AllFitUps, HearUps, EarOf, Joined;
    HearKeeps(g, w.peer, Pending(w));
    var w' := Do(g, w, PeerAnswers(v));
    OfferHeard(g, w.peer, Pending(w), w.peer.sentInit, Some(v), w'.peer.tx, w'.peer.seqTx, w'.peer.sealed);
    HearOneMoreUp(g, EarOf(w.server), w.ups,
                  Up(Hybrid(v), [MSG_KEX_HYBRID_INIT] + PutString(v), Stamp(w.peer.tx, w.peer.sealed, w.peer.seqTx)));
    JoinedBeforeReply(g, w.server.phase, HearAll(g, w.peer, Pending(w)), HearUps(g, EarOf(w.server), w.ups),
                      HearAll(g, w'.peer, Pending(w')), HearUps(g, EarOf(w.server), w'.ups));
  }

  lemma SwitchesKeeps(g: Setting, w: World)
    requires Sync(g, w) && Can(g, w, PeerSwitches)
    ensures Sync(g, Do(g, w, PeerSwitches))
  {
    hide Fits, Hear, AllFit, HearAll, AllFitUps, HearUps, EarOf;
    HearKeeps(g, w.peer, Pending(w));
    var c := NextTx(g, w.peer);
    KeysCommute(g, w.peer, Pending(w));
    SpeakCommutes(g, Settle(w.peer.(sentNew := true)), Pending(w), c, 0, 0);
    HearOneMoreUp(g, EarOf(w.server), w.ups, Up(Keys(c), [MSG_NEWKEYS], Stamp(w.peer.tx, w.peer.sealed, w.peer.seqTx)));
  }

  lemma HearTidy(g: Setting, p: Peer, e: Entry)
    requires Tidy(p) && Fits(p, e)
    ensures Tidy(Hear(g, p, e)) && PeerMode(Hear(g, p, e)) == PeerMode(p)
    ensures Hear(g, p, e).tx == p.tx && Hear(g, p, e).seqTx == p.seqTx && Hear(g, p, e).sealed == p.sealed
  {
  }

  lemma HearsKeeps(g: Setting, w: World)
    requires Sync(g, w) && Can(g, w, PeerHears)
    ensures Sync(g, Do(g, w, PeerHears))
  {
    hide Fits, Hear, AllFit, HearAll, AllFitUps, HearUps, EarOf, PeerMode, Tidy;
    HearFront(g, w.peer, Pending(w));
    HearTidy(g, w.peer, w.server.history[w.heard]);
    assert Pending(w)[1..] == w.server.history[w.heard + 1..];
  }

  // ---- the server's steps ----

  lemma PendingGrows(h: History, heard: nat, e: Entry)
    requires heard <= |h|
    ensures heard <= |Append(h, e)| && Append(h, e)[heard..] == h[heard..] + [e]
  {
  }

  lemma ServerSpeaksKeeps(g: Setting, w: World, f: Frame)
    requires Sync(g, w) && Can(g, w, ServerSpeaks(f))
    ensures Sync(g, Do(g, w, ServerSpeaks(f)))
  {
    hide AllFit, HearAll, AllFitUps, HearUps, Payload;
    var e := Sent(f, Stamp(w.server.tx, w.server.sealed, w.server.seqTx));
    PendingGrows(w.server.history, w.heard, e);
    HearOneMore(g, w.peer, Pending(w), e);
  }

  lemma NotesKeeps(g: Setting, w: World, e: Entry)
    requires Sync(g, w) && Can(g, w, ServerNotes(e))
    ensures Sync(g, Do(g, w, ServerNotes(e)))
  {
    hide AllFit, HearAll, AllFitUps, HearUps, Fits, Hear, Append, EarOf;
    assert EarOf(Log(w.server, e)) == EarOf(w.server) by { EarSame(w.server, Log(w.server, e)); }
    UnsentIsUnheard(g, HearAll(g, w.peer, Pending(w)), e);
    PendingGrows(w.server.history, w.heard, e);
    HearOneMore(g, w.peer, Pending(w), e);
  }

  lemma EarSame(t: Link, t': Link)
    requires t'.phase == t.phase && t'.rx == t.rx && t'.seqRx == t.seqRx
    ensures EarOf(t') == EarOf(t)
  {
  }

  lemma UnsentIsUnheard(g: Setting, p: Peer, e: Entry)
    requires !e.Sent?
    ensures Hear(g, p, e) == p && Fits(p, e)
  {
  }

  lemma BeginsKeeps(g: Setting, w: World, env: Env)
    requires Sync(g, w) && Can(g, w, ServerBegins(env))
    ensures Sync(g, Do(g, w, ServerBegins(env)))
  {
    hide AllFit, HearAll, AllFitUps, HearUps, Payload;
    var e := Sent(KexInit(env.kexInit.value), Stamp(w.server.tx, w.server.sealed, w.server.seqTx));
    PendingGrows(w.server.history, w.heard, e);
    HearOneMore(g, w.peer, Pending(w), e);
  }

  /** Reading one packet of the peer's: the ear moves by that packet. */
  lemma PlainHeard(g: Setting, w: World, env: Env)
    requires Sync(g, w) && Can(g, w, ServerHears(env)) && w.ups[0].kind.Plain?
    ensures Sync(g, Do(g, w, ServerHears(env)))
  {
    hide AllFit, HearAll, AllFitUps, HearUps, Fits, Hear;
    HearUpsFront(g, EarOf(w.server), w.ups);
  }

  lemma GuessHeard(g: Setting, w: World, env: Env)
    requires Sync(g, w) && Can(g, w, ServerHears(env)) && w.ups[0].kind.Guess?
    ensures Sync(g, Do(g, w, ServerHears(env)))
  {
    hide AllFit, HearAll, AllFitUps, HearUps, Fits, Hear;
    HearUpsFront(g, EarOf(w.server), w.ups);
  }

  lemma KeysHeard(g: Setting, w: World, env: Env)
    requires Sync(g, w) && Can(g, w, ServerHears(env)) && w.ups[0].kind.Keys?
    ensures Sync(g, Do(g, w, ServerHears(env)))
  {
    hide AllFit, HearAll, AllFitUps, HearUps, Fits, Hear, Append;
    UnsentIsUnheard(g, HearAll(g, w.peer, Pending(w)), RekeyCompleted);
    HearUpsFront(g, EarOf(w.server), w.ups);
    StagedGoesOnce(g, HearUp(g, EarOf(w.server), w.ups[0]), w.ups[1..]);
    PendingGrows(w.server.history, w.heard, RekeyCompleted);
    HearOneMore(g, w.peer, Pending(w), RekeyCompleted);
  }

  /** Before the peer's NEWKEYS is under way, its KEXINIT is the one read. */
  lemma OfferIsCurrent(g: Setting, w: World)
    requires Sync(g, w) && w.ups != [] && w.ups[0].kind.Init? && EarOf(w.server).staged.None?
    ensures HearAll(g, w.peer, Pending(w)).sentInit == Some(w.ups[0].payload)
  {
    HearKeeps(g, w.peer, Pending(w));
    hide AllFit, HearAll, AllFitUps, HearUps, Fits, Hear;
    HearUpsFront(g, EarOf(w.server), w.ups);
    SameExchange(g, HearUp(g, EarOf(w.server), w.ups[0]), w.ups[1..]);
  }

  lemma InitHeardIdle(g: Setting, w: World, env: Env)
    requires Sync(g, w) && Can(g, w, ServerHears(env)) && w.ups[0].kind.Init? && w.server.phase.Idle?
    ensures Sync(g, Do(g, w, ServerHears(env)))
  {
    hide AllFit, HearAll, AllFitUps, HearUps, Payload;
    HearUpsFront(g, EarOf(w.server), w.ups);
    OfferIsCurrent(g, w);
    var e := Sent(KexInit(env.kexInit.value), Stamp(w.server.tx, w.server.sealed, w.server.seqTx));
    PendingGrows(w.server.history, w.heard, e);
    HearOneMore(g, w.peer, Pending(w), e);
  }

  lemma InitHeardSent(g: Setting, w: World, env: Env)
    requires Sync(g, w) && Can(g, w, ServerHears(env)) && w.ups[0].kind.Init? && w.server.phase.SentKexInit?
    ensures Sync(g, Do(g, w, ServerHears(env)))
  {
    hide AllFit, HearAll, AllFitUps, HearUps, Fits, Hear;
    HearUpsFront(g, EarOf(w.server), w.ups);
    OfferIsCurrent(g, w);
  }

  lemma HybridParses(v: Str)
    requires |v| <= CLIENT_INIT_LEN
    ensures HybridInitOf([MSG_KEX_HYBRID_INIT] + PutString(v)) == Ok(v)
  {
    var payload := [MSG_KEX_HYBRID_INIT] + PutString(v);
    assert payload[1..] == PutString(v) + [];
    GetPutString(v, [], CLIENT_INIT_LEN);
  }

  /** The reply and NEWKEYS, once the peer's HYBRID_INIT is read: the peer will
      derive the keys the server derived. */
  lemma ReplyFits(g: Setting, p: Peer, es: History, t: Link, ci: Bytes, si: Bytes, hi: Str, reply: Frame, n: Stamp,
                  m: Stamp)
    requires Tidy(p) && AllFit(g, p, es)
    requires var z := HearAll(g, p, es);
             && z.rx == t.tx && z.seqRx == t.seqTx && z.keyed.None?
             && z.sentInit == Some(ci) && z.gotInit == Some(si) && z.sentHybrid == Some(hi)
    requires reply.HybridReply? && n.cipher == t.tx && n.number == t.seqTx
    requires m.cipher == Advance(t.tx) && m.number == Wrap32(t.seqTx + 1)
    ensures var es' := es + [Sent(reply, n)] + [Sent(NewKeys, m)];
            var x := Exchanged(ci, si, hi, reply.reply);
            var iv := g.ivs(x).serverToClient;
            var z := HearAll(g, p, es');
            && AllFit(g, p, es') && z.rx == Cipher(t.tx.epoch + 1, x, iv, iv) && z.seqRx == 0
            && z.keyed == Some(x) && z.gotNew && !z.sentNew
  {
    HearKeeps(g, p, es);
    hide AllFit, HearAll;
    HearOneMore(g, p, es, Sent(reply, n));
    HearOneMore(g, p, es + [Sent(reply, n)], Sent(NewKeys, m));
  }

  /** What the server writes and becomes on reading a HYBRID_INIT. */
  lemma ServerReplies(t: Link, v: Str, env: Env)
    requires t.phase.AwaitHybridInit? && !t.phase.skipGuessed && |v| <= CLIENT_INIT_LEN
    requires ServerRead(t, [MSG_KEX_HYBRID_INIT] + PutString(v), env).Next?
    ensures env.hybrid.HybridDone? && env.hybrid.signature.Some?
    ensures var r := ServerRead(t, [MSG_KEX_HYBRID_INIT] + PutString(v), env).link;
            var x := Exchanged(t.phase.clientInit, t.phase.serverInit, v, env.hybrid.reply);
            var ivs := env.ivs(x);
            var reply := HybridReply(env.hostKey, env.hybrid.reply, env.hybrid.signature.value);
            && r.history == Append(Append(t.history, Sent(reply, Stamp(t.tx, t.sealed, t.seqTx))),
                                   Sent(NewKeys, Stamp(Advance(t.tx), t.sealed + 1, Wrap32(t.seqTx + 1))))
            && r.tx == Cipher(t.tx.epoch + 1, x, ivs.serverToClient, ivs.serverToClient) && r.seqTx == 0
            && r.rx == Advance(t.rx) && r.seqRx == Wrap32(t.seqRx + 1)
            && r.phase == AwaitNewKeys(Cipher(t.rx.epoch + 1, x, ivs.clientToServer, ivs.clientToServer))
  {
    hide HybridInitOf, Payload, SatAdd, Exchange, Seals, Order, Output, Audit, Intake;
    hide ObserveExchange, ObserveSeal, ObserveOrder, ObserveOutput, ObserveAudit, ObserveIntake;
    HybridParses(v);
  }

  /** Once read, the HYBRID_INIT is the peer's last word, and it is of the
      exchange the server is in. */
  lemma HybridIsCurrent(g: Setting, w: World)
    requires Sync(g, w) && w.ups != [] && w.ups[0].kind.Hybrid?
    ensures w.heard <= |w.server.history|
    ensures var z := HearAll(g, w.peer, Pending(w));
            && w.server.phase.AwaitHybridInit? && !w.server.phase.skipGuessed && w.ups[1..] == []
            && PeerMode(w.peer) == Ready(w.server.phase.clientInit, w.ups[0].kind.value)
            && z.sentInit == Some(w.server.phase.clientInit) && z.gotInit == Some(w.server.phase.serverInit)
            && z.sentHybrid == Some(w.ups[0].kind.value) && z.keyed.None?
            && FitsUp(EarOf(w.server), w.ups[0])
            && Tidy(w.peer) && AllFit(g, w.peer, Pending(w)) && z.rx == w.server.tx && z.seqRx == w.server.seqTx
            && w.peer.tx == Advance(w.server.rx) && w.peer.seqTx == Wrap32(w.server.seqRx + 1)
  {
    HearKeeps(g, w.peer, Pending(w));
    HearUpsFront(g, EarOf(w.server), w.ups);
    hide AllFit, HearAll, AllFitUps, HearUps, Fits, Hear;
    var ear := HearUp(g, EarOf(w.server), w.ups[0]);
    SameExchange(g, ear, w.ups[1..]);
    EmptyEar(g, ear);
  }

  /** Both ends, right after the reply. */
  lemma JoinedByReply(g: Setting, w: World, x: Exchanged)
    requires w.heard <= |w.server.history| && Tidy(w.peer) && w.ups == [] && x.Exchanged?
    requires AllFit(g, w.peer, Pending(w)) && PeerMode(w.peer) == Ready(x.clientInit, x.hybridInit)
    requires var iv := g.ivs(x).clientToServer; w.server.phase == AwaitNewKeys(Cipher(w.server.rx.epoch + 1, x, iv, iv))
    requires w.peer.tx == w.server.rx && w.peer.seqTx == w.server.seqRx
    requires var z := HearAll(g, w.peer, Pending(w));
             z.rx == w.server.tx && z.seqRx == w.server.seqTx && z.keyed == Some(x) && z.gotNew && !z.sentNew
    ensures Sync(g, w)
  {
    hide AllFit, HearAll, Fits, Hear, PeerMode;
  }

  lemma HybridHeard(g: Setting, w: World, env: Env)
    requires Sync(g, w) && Can(g, w, ServerHears(env)) && w.ups[0].kind.Hybrid?
    ensures Sync(g, Do(g, w, ServerHears(env)))
  {
    hide Sync, AllFit, HearAll, AllFitUps, HearUps, Fits, Hear, ServerRead, PeerMode, Tidy, Append;
    HybridIsCurrent(g, w);
    var t, hi := w.server, w.ups[0].kind.value;
    ServerReplies(t, hi, env);
    var reply := HybridReply(env.hostKey, env.hybrid.reply, env.hybrid.signature.value);
    var n, m := Stamp(t.tx, t.sealed, t.seqTx), Stamp(Advance(t.tx), t.sealed + 1, Wrap32(t.seqTx + 1));
    PendingGrows(t.history, w.heard, Sent(reply, n));
    PendingGrows(Append(t.history, Sent(reply, n)), w.heard, Sent(NewKeys, m));
    ReplyFits(g, w.peer, Pending(w), t, t.phase.clientInit, t.phase.serverInit, hi, reply, n, m);
    JoinedByReply(g, Do(g, w, ServerHears(env)),
                  Exchanged(t.phase.clientInit, t.phase.serverInit, hi, env.hybrid.reply));
  }

  lemma EmptyEar(g: Setting, r: Ear)
    ensures HearUps(g, r, []) == r && AllFitUps(g, r, [])
  {
  }

  lemma ServerHearsKeeps(g: Setting, w: World, env: Env)
    requires Sync(g, w) && Can(g, w, ServerHears(env))
    ensures Sync(g, Do(g, w, ServerHears(env)))
  {
    HearUpsFront(g, EarOf(w.server), w.ups);
    assert FitsUp(EarOf(w.server), w.ups[0]);
    hide Sync, Do, Can;
    match w.ups[0].kind
    case Plain => PlainHeard(g, w, env);
    case Init =>
      if w.server.phase.Idle? {
        InitHeardIdle(g, w, env);
      } else {
        InitHeardSent(g, w, env);
      }
    case Guess => GuessHeard(g, w, env);
    case Hybrid(_) => HybridHeard(g, w, env);
    case Keys(_) => KeysHeard(g, w, env);
  }

  lemma DoKeeps(g: Setting, w: World, a: Act)
    requires Sync(g, w) && Can(g, w, a)
    ensures Sync(g, Do(g, w, a))
  {
    hide Sync, Do, Can;
    match a
    case PeerSpeaks(payload) => SpeaksKeeps(g, w, payload);
    case PeerOffers(ci, guess) => OffersKeeps(g, w, ci, guess);
    case PeerAnswers(v) => AnswersKeeps(g, w, v);
    case PeerSwitches => SwitchesKeeps(g, w);
    case PeerHears => HearsKeeps(g, w);
    case ServerSpeaks(f) => ServerSpeaksKeeps(g, w, f);
    case ServerNotes(e) => NotesKeeps(g, w, e);
    case ServerBegins(env) => BeginsKeeps(g, w, env);
    case ServerHears(env) => ServerHearsKeeps(g, w, env);
  }

  // ---- every run ----

  ghost function Run(g: Setting, w: World, acts: seq<Act>): World
    decreases |acts|
  {
    if acts == [] then w else Run(g, if Can(g, w, acts[0]) then Do(g, w, acts[0]) else w, acts[1..])
  }

  /** Both sides right after the initial exchange, with the streams empty. */
  ghost predicate Connected(w: World) {
    && w.server.phase.Idle? && w.heard == |w.server.history| && w.ups == []
    && w.peer.rx == w.server.tx && w.peer.seqRx == w.server.seqTx
    && w.peer.tx == w.server.rx && w.peer.seqTx == w.server.seqRx
    && w.peer.sentInit.None? && w.peer.sentHybrid.None? && w.peer.gotInit.None? && w.peer.keyed.None?
    && !w.peer.sentNew && !w.peer.gotNew
    && Counted(w)
  }

  /** Every sequence number is the packet count under its key mod 2^32, and
      every GCM invocation counter its initial value plus that count mod 2^64. */
  ghost predicate Counted(w: World) {
    LinkCounted(w.server) && InStep(w.peer.tx, w.peer.seqTx, w.peer.sealed)
  }

  lemma FreshInStep(c: Cipher)
    requires c.invocation == c.initial
    ensures InStep(c, 0, 0)
  {
  }

  lemma PeerCounts(g: Setting, w: World, a: Act)
    requires Counted(w) && Can(g, w, a) && Sync(g, w)
    requires a.PeerSpeaks? || a.PeerOffers? || a.PeerAnswers? || a.PeerSwitches? || a.PeerHears?
    ensures Counted(Do(g, w, a))
  {
    InStepNext(w.peer.tx, w.peer.seqTx, w.peer.sealed);
    var q := Spoke(w.peer);
    InStepNext(q.tx, q.seqTx, q.sealed);
    hide InStep, AllFit, AllFitUps, HearAll, HearUps;
    if a.PeerSwitches? {
      FreshInStep(NextTx(g, w.peer));
    } else if a.PeerHears? {
      HearFront(g, w.peer, Pending(w));
      HearTidy(g, w.peer, w.server.history[w.heard]);
    }
  }

  lemma WriteCounts(t: Link, f: Frame)
    requires InStep(t.tx, t.seqTx, t.sealed) && Write(t, f).Go?
    ensures var r := Write(t, f).st;
            && InStep(r.tx, r.seqTx, r.sealed) && r.rx == t.rx && r.seqRx == t.seqRx
            && r.unsealed == t.unsealed && r.phase == t.phase
  {
    InStepNext(t.tx, t.seqTx, t.sealed);
    hide InStep, Payload, Append;
  }

  predicate LinkCounted(t: Link) {
    && InStep(t.tx, t.seqTx, t.sealed) && InStep(t.rx, t.seqRx, t.unsealed)
    && (t.phase.AwaitNewKeys? ==> InStep(t.phase.newRx, 0, 0))
  }

  lemma CompleteCounts(t: Link, payload: Bytes, ci: Bytes, si: Bytes, env: Env)
    requires LinkCounted(t) && CompleteReply(t, payload, ci, si, env).Next?
    ensures LinkCounted(CompleteReply(t, payload, ci, si, env).link)
  {
    var init := HybridInitOf(payload);
    var x := Exchanged(ci, si, init.value, env.hybrid.reply);
    FreshInStep(Cipher(t.tx.epoch + 1, x, env.ivs(x).serverToClient, env.ivs(x).serverToClient));
    FreshInStep(Cipher(t.rx.epoch + 1, x, env.ivs(x).clientToServer, env.ivs(x).clientToServer));
    hide InStep, Write, HybridInitOf, Append;
    var f := HybridReply(env.hostKey, env.hybrid.reply, env.hybrid.signature.value);
    WriteCounts(t, f);
    WriteCounts(Write(t, f).st, NewKeys);
  }

  lemma StepCounts(t: Link, payload: Bytes, env: Env)
    requires LinkCounted(t) && StepRekey(t, payload, env).Next?
    ensures LinkCounted(StepRekey(t, payload, env).link)
  {
    hide InStep, Write, CompleteReply, Append;
    var t1 := t.(phase := Idle);
    match t.phase
    case Idle => WriteCounts(t1.(started := env.now), KexInit(env.kexInit.value));
    case SentKexInit(_) =>
    case AwaitHybridInit(ci, si, skip) =>
      if !skip {
        CompleteCounts(t1, payload, ci, si, env);
      }
    case AwaitNewKeys(_) =>
  }

  lemma ReadCounts(t: Link, payload: Bytes, env: Env)
    requires LinkCounted(t) && ServerRead(t, payload, env).Next?
    ensures LinkCounted(ServerRead(t, payload, env).link)
  {
    InStepNext(t.rx, t.seqRx, t.unsealed);
    hide InStep, StepRekey;
    var r := Received(t, payload);
    assert LinkCounted(r);
    if RekeyActive(r) || (payload != [] && payload[0] == MSG_KEXINIT) {
      StepCounts(r, payload, env);
    }
  }

  lemma DoCounts(g: Setting, w: World, a: Act)
    requires Counted(w) && Can(g, w, a) && Sync(g, w)
    ensures Counted(Do(g, w, a))
  {
    hide InStep, Sync, Write, ServerRead, Append;
    match a
    case ServerSpeaks(f) => WriteCounts(w.server, f);
    case ServerNotes(e) =>
    case ServerBegins(env) => WriteCounts(w.server, KexInit(env.kexInit.value));
    case ServerHears(env) => ReadCounts(w.server, w.ups[0].payload, env);
    case _ => PeerCounts(g, w, a);
  }

  /** In every run, whatever the interleaving of re-keys and traffic, both ends
      stay in step. */
  lemma {:induction false} RunKeeps(g: Setting, w: World, acts: seq<Act>)
    requires Sync(g, w) && Counted(w)
    ensures Sync(g, Run(g, w, acts)) && Counted(Run(g, w, acts))
    decreases |acts|
  {
    hide Sync, Counted, Do, Can;
    if acts != [] {
      if Can(g, w, acts[0]) {
        DoKeeps(g, w, acts[0]);
        DoCounts(g, w, acts[0]);
        RunKeeps(g, Do(g, w, acts[0]), acts[1..]);
      } else {
        RunKeeps(g, w, acts[1..]);
      }
    }
  }

  lemma ConnectedSync(g: Setting, w: World)
    requires Connected(w)
    ensures Sync(g, w)
  {
    hide InStep;
  }

  lemma HeadsFit(g: Setting, w: World)
    requires Sync(g, w)
    ensures w.heard <= |w.server.history|
    ensures w.heard < |w.server.history| ==> Fits(w.peer, w.server.history[w.heard])
    ensures w.ups != [] ==> FitsUp(EarOf(w.server), w.ups[0])
  {
    hide AllFit, HearAll, AllFitUps, HearUps, Fits, Hear, FitsUp;
    if w.heard < |w.server.history| {
      HearFront(g, w.peer, Pending(w));
    }
    if w.ups != [] {
      HearUpsFront(g, EarOf(w.server), w.ups);
    }
  }

  /** Every packet, in either direction, is opened with the key, the invocation
      counter and the sequence number it was sealed with. */
  lemma OpenedAsSealed(g: Setting, start: World, acts: seq<Act>)
    requires Connected(start)
    ensures var w := Run(g, start, acts);
            && (w.heard < |w.server.history| && w.server.history[w.heard].Sent? ==>
                  var s := w.server.history[w.heard].stamp; s.cipher == w.peer.rx && s.number == w.peer.seqRx)
            && (w.ups != [] ==> w.ups[0].stamp.cipher == w.server.rx && w.ups[0].stamp.number == w.server.seqRx)
  {
    hide Run, Sync;
    ConnectedSync(g, start);
    RunKeeps(g, start, acts);
    HeadsFit(g, Run(g, start, acts));
  }

  /** With fewer than 2^32 packets under a key, its invocation counter is its
      initial value plus the sequence number. */
  lemma InvocationFollowsSequence(g: Setting, start: World, acts: seq<Act>)
    requires Connected(start)
    ensures var w := Run(g, start, acts);
            && (w.server.sealed < 0x1_0000_0000 ==>
                  && w.server.seqTx == w.server.sealed
                  && w.server.tx.invocation == Wrap64(w.server.tx.initial + w.server.seqTx))
            && (w.peer.sealed < 0x1_0000_0000 ==>
                  w.peer.seqTx == w.peer.sealed && w.peer.tx.invocation == Wrap64(w.peer.tx.initial + w.peer.seqTx))
  {
    hide Run, Sync;
    ConnectedSync(g, start);
    RunKeeps(g, start, acts);
    var w := Run(g, start, acts);
    assert Counted(w);
  }

  /** The server never turns a conforming peer away: reading ends the
      connection only when its own draw, signature, hybrid exchange or stream
      fails. */
  lemma ConformingPeerIsHeard(g: Setting, start: World, acts: seq<Act>, env: Env)
    requires Connected(start)
    requires var w := Run(g, start, acts); w.ups != [] && Suits(g, env, w.ups[0].payload) && w.server.ioLeft >= 2
    requires env.kexInit.Some? && env.hybrid.HybridDone? && env.hybrid.signature.Some?
    ensures var w := Run(g, start, acts); ServerRead(w.server, w.ups[0].payload, env).Next?
  {
    hide Run, Sync;
    ConnectedSync(g, start);
    RunKeeps(g, start, acts);
    var w := Run(g, start, acts);
    HeadsFit(g, w);
    hide Connected, Counted, Fits;
    FittingIsHeard(w.server, w.ups[0], env);
  }

  lemma FittingIsHeard(t: Link, up: Up, env: Env)
    requires FitsUp(EarOf(t), up) && t.ioLeft >= 2
    requires env.kexInit.Some? && env.hybrid.HybridDone? && env.hybrid.signature.Some? && env.negotiation.Agreed?
    ensures ServerRead(t, up.payload, env).Next?
  {
    hide HybridInitOf, Append, Payload;
    if up.kind.Hybrid? {
      HybridParses(up.kind.value);
    }
  }
}
