/** Whole sessions against the peer of `Epochs`: every packet the channel
driver sends, in any run of its loop, reaches the peer under the key and the
number the peer expects, the DISCONNECT of a failed run included. */
module Connections {
  import opened Wire
  import opened Trace
  import opened Transport
  import opened Channel
  import opened Epochs
  import opened LinkSteps

  /** The two ends are in step, the server's being this session's. */
  ghost predicate Tuned(g: Setting, w: World, s: Session) { Sync(g, w.(server := s.t)) }

  /** All packets on their way to the peer will open. */
  ghost predicate Opens(g: Setting, p: Peer, heard: nat, h: History) { heard <= |h| && AllFit(g, p, h[heard..]) }

  lemma TunedOpens(g: Setting, w: World, s: Session)
    requires Tuned(g, w, s)
    ensures Opens(g, w.peer, w.heard, s.t.history)
  {
    hide AllFit, HearAll, AllFitUps, HearUps;
  }

  // ---- the link ----

  /** What the agreement of the two ends depends on. */
  predicate SameEnd(t: Link, t': Link) {
    && t'.history == t.history && t'.phase == t.phase
    && t'.tx == t.tx && t'.seqTx == t.seqTx && t'.rx == t.rx && t'.seqRx == t.seqRx
  }

  lemma SameEndTuned(g: Setting, w: World, t: Link, t': Link)
    requires Sync(g, w.(server := t)) && SameEnd(t, t')
    ensures Sync(g, w.(server := t'))
  {
    assert EarOf(t') == EarOf(t);
    hide AllFit, HearAll, AllFitUps, HearUps, EarOf;
  }

  predicate Ordinary(f: Frame) { !f.KexInit? && !f.HybridReply? && !f.NewKeys? }

  lemma SealTuned(g: Setting, w: World, t: Link, f: Frame)
    requires Sync(g, w.(server := t)) && Ordinary(f)
    ensures Sync(g, w.(server := Seal(t, f).st)) && Seal(t, f).st.phase == t.phase
  {
    hide AllFit, HearAll, AllFitUps, HearUps, Order;
    if t.ioLeft > 0 {
      var e := Sent(f, Stamp(t.tx, t.sealed, t.seqTx));
      PendingGrows(t.history, w.heard, e);
      HearOneMore(g, w.peer, t.history[w.heard..], e);
    }
  }

  lemma BeginTuned(g: Setting, w: World, t: Link, env: Env)
    requires Sync(g, w.(server := t)) && t.phase.Idle?
    ensures Sync(g, w.(server := BeginRekey(t, env).st))
  {
    hide Sync, Seal, Payload, SatAdd;
    if env.kexInit.Some? {
      var f := KexInit(env.kexInit.value);
      if Write(t, f).Go? {
        BeginsKeeps(g, w.(server := t), env);
      } else {
        SealFails(t.(bytesTx := SatAdd(t.bytesTx, |Payload(f)|, U64_LIMIT)), f);
        SameEndTuned(g, w, t, Write(t, f).st);
      }
    }
  }

  lemma SealFails(t: Link, f: Frame)
    ensures Seal(t, f).Stop? ==> Seal(t, f).st == t
  {
  }

  /** Being in step, as a property of the server's link. */
  ghost function InTune(g: Setting, w: World): Link -> bool { (t: Link) => Sync(g, w.(server := t)) }

  lemma TuneIsSteady(g: Setting, w: World)
    ensures Steady(InTune(g, w))
  {
    hide Sync, Seal, BeginRekey, Log, Payload, SatAdd;
    forall t, f | InTune(g, w)(t) && !KexFrame(f) ensures InTune(g, w)(Write(t, f).st) {
      var counted := t.(bytesTx := SatAdd(t.bytesTx, |Payload(f)|, U64_LIMIT));
      SameEndTuned(g, w, t, counted);
      SealTuned(g, w, counted, f);
    }
    forall t, f: Frame | InTune(g, w)(t) && f.Disconnect? ensures InTune(g, w)(Seal(t, f).st) {
      SealTuned(g, w, t, f);
    }
    forall t, e | InTune(g, w)(t) && Noted(e) ensures InTune(g, w)(Log(t, e)) {
      NotesKeeps(g, w.(server := t), e);
    }
    forall t, env | InTune(g, w)(t) && t.phase.Idle? ensures InTune(g, w)(BeginRekey(t, env).st) {
      BeginTuned(g, w, t, env);
    }
  }

  lemma TunedHolds(g: Setting, w: World, s: Session)
    ensures Tuned(g, w, s) <==> Holds(InTune(g, w), s)
  {
    hide Sync, Steady;
    TuneIsSteady(g, w);
  }

  // ---- one packet ----

  /** The server reads the first packet of the peer's on its way. */
  ghost predicate Reads(g: Setting, w: World, payload: Bytes, env: Env) {
    w.ups != [] && payload == w.ups[0].payload && Suits(g, env, payload)
  }

  lemma ReadTuned(g: Setting, w: World, t: Link, payload: Bytes, env: Env)
    requires Sync(g, w.(server := t)) && Reads(g, w, payload, env) && ServerRead(t, payload, env).Next?
    ensures Sync(g, w.(server := ServerRead(t, payload, env).link, ups := w.ups[1..]))
  {
    hide Sync, ServerRead;
    ServerHearsKeeps(g, w.(server := t), env);
  }

  /** A re-key that fails on the server's side: what it had written still opens. */
  lemma HybridHalts(g: Setting, w: World, env: Env)
    requires Sync(g, w) && w.ups != [] && w.ups[0].kind.Hybrid? && ServerRead(w.server, w.ups[0].payload, env).Halt?
    ensures Opens(g, w.peer, w.heard, ServerRead(w.server, w.ups[0].payload, env).link.history)
  {
    hide Sync, AllFit, HearAll, AllFitUps, HearUps, PeerMode, Tidy, HybridInitOf, Payload, Order, Ascii, Append;
    HybridIsCurrent(g, w);
    var t := w.server;
    HybridParses(w.ups[0].kind.value);
    var n := Stamp(t.tx, t.sealed, t.seqTx);
    var h := ServerRead(t, w.ups[0].payload, env).link.history;
    if h != t.history {
      var e := HaltEntry(t, w.ups[0].payload, w.ups[0].kind.value, env);
      PendingGrows(t.history, w.heard, e);
      HearOneMore(g, w.peer, Pending(w), e);
    }
  }

  /** At most one packet is written: the reply, or a DISCONNECT. */
  lemma HaltEntry(t: Link, payload: Bytes, v: Str, env: Env) returns (e: Entry)
    requires t.phase.AwaitHybridInit? && !t.phase.skipGuessed && payload == [MSG_KEX_HYBRID_INIT] + PutString(v)
    requires HybridInitOf(payload) == Ok(v)
    requires ServerRead(t, payload, env).Halt? && ServerRead(t, payload, env).link.history != t.history
    ensures e.Sent? && e.stamp == Stamp(t.tx, t.sealed, t.seqTx) && (Ordinary(e.frame) || e.frame.HybridReply?)
    ensures ServerRead(t, payload, env).link.history == Append(t.history, e)
  {
    hide HybridInitOf, Payload, Order, Ascii, Append, PutString, SatAdd;
    var h := ServerRead(t, payload, env).link.history;
    var n := Stamp(t.tx, t.sealed, t.seqTx);
    if env.hybrid.HybridMalformed? {
      e := Sent(Disconnect(DISCONNECT_PROTOCOL_ERROR, Ascii("malformed-hybrid-init")), n);
    } else if env.hybrid.HybridRefused? {
      e := Sent(Disconnect(DISCONNECT_KEY_EXCHANGE_FAILED, Ascii(Short(env.hybrid.reason))), n);
    } else if env.hybrid.signature.None? {
      e := Sent(Disconnect(DISCONNECT_KEY_EXCHANGE_FAILED, Ascii("rng-failure")), n);
    } else {
      e := Sent(HybridReply(env.hostKey, env.hybrid.reply, env.hybrid.signature.value), n);
    }
  }

  /** Only a HYBRID_INIT can make a conforming peer's packet end the connection
      with something written. */
  lemma HaltsQuietly(t: Link, up: Up, env: Env)
    requires FitsUp(EarOf(t), up) && !up.kind.Hybrid? && env.negotiation.Agreed? && ServerRead(t, up.payload, env).Halt?
    ensures ServerRead(t, up.payload, env).link.history == t.history
  {
    hide Payload, Order, Append, SatAdd;
  }

  lemma HaltOpens(g: Setting, w: World, t: Link, payload: Bytes, env: Env)
    requires Sync(g, w.(server := t)) && Reads(g, w, payload, env) && ServerRead(t, payload, env).Halt?
    ensures Opens(g, w.peer, w.heard, ServerRead(t, payload, env).link.history)
  {
    hide Sync, ServerRead, EarOf, Opens, FitsUp;
    var v := w.(server := t);
    HeadsFit(g, v);
    if w.ups[0].kind.Hybrid? {
      HybridHalts(g, v, env);
    } else {
      HaltsQuietly(t, w.ups[0], env);
      TunedOpens(g, w, Session(FRESH, t));
    }
  }

  /** After one packet: in step with that packet read, or ended with every
      packet of the server's still opening. */
  ghost predicate AfterRead(g: Setting, w: World, r: Step<Session>)
    requires w.ups != []
  {
    if r.Go? then Tuned(g, w.(ups := w.ups[1..]), r.st) else Opens(g, w.peer, w.heard, r.st.t.history)
  }

  lemma StaysRead(g: Setting, w: World, s: Session, r: Step<Session>)
    requires w.ups != [] && Stays(InTune(g, w.(ups := w.ups[1..])), s, r)
    ensures AfterRead(g, w, r)
  {
    hide Tuned, Opens, Holds;
    TunedHolds(g, w.(ups := w.ups[1..]), r.st);
    if r.Stop? {
      TunedOpens(g, w.(ups := w.ups[1..]), r.st);
    }
  }

  lemma PacketTuned(g: Setting, w: World, s0: Session, payload: Bytes, host: Host)
    requires Tuned(g, w, s0) && Reads(g, w, payload, host.env)
    ensures AfterRead(g, w, OnPacket(s0, payload, host))
  {
    hide Sync, Opens, StepRekey, Pass, DrainDeferred, Handle, Decode, Suits, Received, Stays, Log;
    var s := s0.(t := Log(s0.t, Read(|payload|, host.env.now)));
    NotesKeeps(g, w.(server := s0.t), Read(|payload|, host.env.now));
    var read := ServerRead(s.t, payload, host.env);
    var v := w.(ups := w.ups[1..]);
    if read.Halt? {
      HaltOpens(g, w, s.t, payload, host.env);
    } else {
      ReadTuned(g, w, s.t, payload, host.env);
      var n := s.(t := read.link);
      TunedHolds(g, v, n);
      hide Holds, AfterRead;
      var P := InTune(g, v);
      PassHolds(P, n, payload, host);
      StaysRead(g, w, n, Pass(n, payload, host));
      DrainHolds(P, n, host);
      StaysRead(g, w, n, DrainDeferred(n, host));
      HandleHolds(P, n, Decode(payload), host);
      StaysRead(g, w, n, HandleInbound(n, payload, host));
    }
  }

  // ---- one iteration ----

  /** The peer's packets once the event has happened. */
  function Left(ups: seq<Up>, e: Event): seq<Up> { if e.Packet? && ups != [] then ups[1..] else ups }

  ghost predicate Delivers(g: Setting, w: World, e: Event, host: Host) {
    e.Packet? ==> Reads(g, w, e.payload, host.env)
  }

  lemma ReactTuned(g: Setting, w: World, s: Session, e: Event, host: Host)
    requires Tuned(g, w, s) && Enabled(s, e) && Delivers(g, w, e, host)
    ensures var r := React(s, e, host);
            if r.Go? then Tuned(g, w.(ups := Left(w.ups, e)), r.st) else Opens(g, w.peer, w.heard, r.st.t.history)
  {
    hide Tuned, Opens, Holds, OnPacket, OnChunk, Note, OnExited, AckTaken, PumpTook, PumpWrote, PumpEnded;
    hide RekeyTimeout, Suits, InTune;
    TunedOpens(g, w, s);
    TunedHolds(g, w, s);
    var P, r := InTune(g, w), React(s, e, host);
    match e
    case Packet(payload) => PacketTuned(g, w, s, payload, host);
    case DeadlinePasses => TimeoutTuned(g, w, s);
    case ReadFails =>
    case _ =>
      OtherHolds(P, s, e, host);
      TunedHolds(g, w, r.st);
  }

  lemma TimeoutTuned(g: Setting, w: World, s: Session)
    requires Tuned(g, w, s)
    ensures Opens(g, w.peer, w.heard, RekeyTimeout(s.t).st.history)
  {
    hide Sync, Seal, Opens, Ascii;
    SealTuned(g, w, s.t, Disconnect(DISCONNECT_KEY_EXCHANGE_FAILED, Ascii("rekey-timeout")));
    TunedOpens(g, w, s.(t := RekeyTimeout(s.t).st));
  }

  /** One iteration, and how it leaves the two ends. */
  lemma IterateTuned(g: Setting, w: World, s: Session, e: Event, host: Host)
    requires Tuned(g, w, s) && Delivers(g, w, e, host)
    ensures var st := Iterate(s, e, host);
            if st.Live? then Tuned(g, w.(ups := Left(w.ups, e)), st.s) else Opens(g, w.peer, w.heard, st.s.t.history)
  {
    hide Tuned, Opens, Turn, React, Enabled, Delivers, EmitFinished;
    hide Holds, InTune;
    TunedHolds(g, w, s);
    TurnHolds(InTune(g, w), s, host);
    var a := Turn(s, host);
    TunedHolds(g, w, a.st);
    TunedOpens(g, w, a.st);
    if a.Go? {
      if !RekeyActive(a.st.t) && a.st.d.state.Closed? {
        FinishedHolds(InTune(g, w), a.st);
        TunedHolds(g, w, EmitFinished(a.st));
        TunedOpens(g, w, EmitFinished(a.st));
      } else if Enabled(a.st, e) {
        ReactTuned(g, w, a.st, e, host);
      } else {
        PacketsCome(a.st, e);
      }
    }
  }

  lemma PacketsCome(s: Session, e: Event)
    ensures !Enabled(s, e) ==> !e.Packet?
  {
  }

  // ---- every run ----

  /** A session, however it stands, and its peer. */
  datatype Meeting = Meeting(status: Status, peer: Peer, heard: nat, ups: seq<Up>)

  datatype Move = PeerMoves(act: Act) | Iterates(event: Event, host: Host)

  function Both(m: Meeting): World { World(m.status.s.t, m.peer, m.heard, m.ups) }

  predicate PeerAct(a: Act) { a.PeerSpeaks? || a.PeerOffers? || a.PeerAnswers? || a.PeerSwitches? || a.PeerHears? }

  /** What is possible: the peer acts while the session lives, and reads what
      it was sent also afterwards; the session's loop turns, each packet it
      reads being the peer's next one. */
  ghost predicate May(g: Setting, m: Meeting, x: Move) {
    match x
    case PeerMoves(a) => PeerAct(a) && Can(g, Both(m), a) && (m.status.Live? || a.PeerHears?)
    case Iterates(e, host) => m.status.Live? && Delivers(g, Both(m), e, host)
  }

  ghost function After(g: Setting, m: Meeting, x: Move): Meeting
    requires May(g, m, x)
  {
    match x
    case PeerMoves(a) => var w := Do(g, Both(m), a); m.(peer := w.peer, heard := w.heard, ups := w.ups)
    case Iterates(e, host) => m.(status := Iterate(m.status.s, e, host), ups := Left(m.ups, e))
  }

  ghost function Meet(g: Setting, m: Meeting, moves: seq<Move>): Meeting
    decreases |moves|
  {
    if moves == [] then m else Meet(g, if May(g, m, moves[0]) then After(g, m, moves[0]) else m, moves[1..])
  }

  ghost predicate Fine(g: Setting, m: Meeting) {
    if m.status.Live? then Sync(g, Both(m)) else Opens(g, m.peer, m.heard, m.status.s.t.history)
  }

  lemma PeerMoveKeeps(g: Setting, m: Meeting, a: Act)
    requires Fine(g, m) && May(g, m, PeerMoves(a))
    ensures Fine(g, After(g, m, PeerMoves(a)))
  {
    if m.status.Live? {
      PeerLeavesServer(g, Both(m), a);
      DoKeeps(g, Both(m), a);
      hide Sync, Do, Can;
    } else {
      hide AllFit, HearAll, Fits, Hear;
      var h := m.status.s.t.history;
      HearFront(g, m.peer, h[m.heard..]);
      assert h[m.heard..][1..] == h[m.heard + 1..];
    }
  }

  lemma PeerLeavesServer(g: Setting, w: World, a: Act)
    requires Can(g, w, a) && PeerAct(a)
    ensures Do(g, w, a).server == w.server
  {
    hide Settle, Offer, Offered, Hear;
  }

  lemma MoveKeeps(g: Setting, m: Meeting, x: Move)
    requires Fine(g, m) && May(g, m, x)
    ensures Fine(g, After(g, m, x))
  {
    hide Sync, Iterate, Opens, Do, Can, Reads;
    match x
    case PeerMoves(a) =>
      hide Fine, After, May;
      PeerMoveKeeps(g, m, a);
    case Iterates(e, host) => IterateTuned(g, Both(m), m.status.s, e, host);
  }

  lemma {:induction false} MeetKeeps(g: Setting, m: Meeting, moves: seq<Move>)
    requires Fine(g, m)
    ensures Fine(g, Meet(g, m, moves))
    decreases |moves|
  {
    hide Fine, May, After;
    if moves != [] {
      if May(g, m, moves[0]) {
        MoveKeeps(g, m, moves[0]);
        MeetKeeps(g, After(g, m, moves[0]), moves[1..]);
      } else {
        MeetKeeps(g, m, moves[1..]);
      }
    }
  }

  /** Every run of the channel driver against a conforming peer, whatever the
      interleaving, whatever else happens and however the run ends: the next
      packet the peer reads was sealed with the key and the number it opens it
      with, and so was the next one the server reads while it runs. */
  lemma SessionsOpenAsSealed(g: Setting, s: Session, peer: Peer, moves: seq<Move>)
    requires Connected(World(s.t, peer, |s.t.history|, []))
    ensures var m := Meet(g, Meeting(Live(s), peer, |s.t.history|, []), moves);
            var t := m.status.s.t;
            && m.heard <= |t.history|
            && (m.heard < |t.history| && t.history[m.heard].Sent? ==>
                  var n := t.history[m.heard].stamp; n.cipher == m.peer.rx && n.number == m.peer.seqRx)
            && (m.status.Live? && m.ups != [] ==>
                  m.ups[0].stamp.cipher == t.rx && m.ups[0].stamp.number == t.seqRx)
  {
    hide Sync, Meet, AllFit;
    var start := Meeting(Live(s), peer, |s.t.history|, []);
    ConnectedSync(g, Both(start));
    MeetKeeps(g, start, moves);
    var m := Meet(g, start, moves);
    if m.status.Live? {
      HeadsFit(g, Both(m));
    } else if m.heard < |m.status.s.t.history| {
      HearFront(g, m.peer, m.status.s.t.history[m.heard..]);
    }
  }
}
