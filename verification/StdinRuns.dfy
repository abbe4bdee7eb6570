/** The client's stdin over whole sessions (`channel.rs` with the pump of
`exec.rs`): what the child gets, in what order, and exactly when the order the
client sent is at risk. */
module StdinRuns {
  import opened Wire
  import opened Trace
  import opened Transport
  import opened Channel
  import opened LinkProofs
  import opened StdinOrder
  import opened StdinProofs
  import opened ChannelProofs
  import opened TraceMeaning
  import opened SessionProofs
  import opened Runs
  import opened LinkSteps
  import opened ClientSide

  // ---- what the history shows ----

  /** The exec, or the client's CLOSE, has come. */
  predicate Begun(h: History) {
    h != [] && (Begun(h[..|h| - 1]) || h[|h| - 1].Started? || h[|h| - 1].ClientClosed?)
  }

  /** The stdin packets that came before it. */
  function EarlyPackets(h: History): seq<Bytes> {
    if h == [] then []
    else
      var init, e := h[..|h| - 1], h[|h| - 1];
      EarlyPackets(init) + (if e.Took? && !Begun(init) then [e.input] else [])
  }

  /** The bytes of all early packets but the first. */
  function Crowd(h: History): Bytes { Behind(EarlyPackets(h)) }

  /** The stdin that came after it. */
  function LateInput(h: History): Bytes {
    if h == [] then []
    else
      var init, e := h[..|h| - 1], h[|h| - 1];
      LateInput(init) + (if e.Took? && Begun(init) then e.input else [])
  }

  /** The client's EOF has come. */
  predicate Shut(h: History) { h != [] && (Shut(h[..|h| - 1]) || h[|h| - 1].ClientEof?) }

  predicate InOrder(h: History) { Intake(h).delivered <= Intake(h).accepted }

  lemma BehindAppend(q: seq<Bytes>, x: Bytes)
    ensures Behind(q + [x]) == Behind(q) + (if q == [] then [] else x)
  {
    if q == [] {
      assert (q + [x])[1..] == [];
    } else {
      assert (q + [x])[1..] == q[1..] + [x];
      FlatAppend(q[1..], x);
    }
  }

  lemma CrowdStep(v: IntakeView, begun: bool, q: seq<Bytes>, late: Bytes, e: Entry)
    requires v.begun == begun && v.early == (q != []) && v.crowd == Behind(q) && v.late == (late != [])
    ensures var w, r := ObserveIntake(v, e), q + (if e.Took? && !begun then [e.input] else []);
            && w.begun == (begun || e.Started? || e.ClientClosed?)
            && w.early == (r != []) && w.crowd == Behind(r)
            && w.late == (late + (if e.Took? && begun then e.input else []) != [])
            && w.ended == (v.ended || e.ClientEof?)
  {
    assert q + [] == q && Behind([]) == [];
    hide Behind;
    if e.Took? {
      BehindAppend(q, e.input);
    }
  }

  lemma {:induction false} CrowdIsReadOff(h: History)
    ensures Intake(h).begun == Begun(h) && Intake(h).early == (EarlyPackets(h) != []) && Intake(h).crowd == Crowd(h)
    ensures Intake(h).late == (LateInput(h) != []) && Intake(h).ended == Shut(h)
  {
    if h != [] {
      var init, e := h[..|h| - 1], h[|h| - 1];
      CrowdIsReadOff(init);
      CrowdStep(Intake(init), Begun(init), EarlyPackets(init), LateInput(init), e);
      hide Behind, ObserveIntake;
    }
  }

  /** In every run, however it ends: the child gets accepted bytes only, each
      at most once; and unless a second packet with data comes before the exec
      and another after it, what it got is the start of what the client sent. */
  lemma StdinIsFaithful(first: SealView, s: Session, events: Events)
    requires Fresh(first, s)
    ensures var h := Transcript(s, events);
            && multiset(Intake(h).delivered) <= multiset(Intake(h).accepted)
            && (Crowd(h) == [] || LateInput(h) == [] ==> InOrder(h))
            && (|EarlyPackets(h)| <= 1 ==> InOrder(h))
  {
    hide Fresh, Drive, Dropped, LinkClean, Order, Output, Audit, Intake, AuditOk, Counted, EarlyPackets, LateInput;
    RunIsClean(first, s, events);
    var h := Transcript(s, events);
    IntakeIsFaithful(h);
    CrowdIsReadOff(h);
  }

  /** At every loop point nothing is missing: the delivered bytes, those that
      wait and those given up make up what was accepted; in order, when nothing
      is given up and there is no crowd or nothing came after it. */
  lemma NothingGoesMissing(first: SealView, s: Session, events: Events)
    requires Fresh(first, s) && Drive(s, events).Live?
    ensures var n := Drive(s, events).s;
            var k, i := Intake(n.t.history), n.d.inn;
            && multiset(k.delivered) + multiset(Waiting(i)) <= multiset(k.accepted)
            && |k.accepted| == |k.delivered| + |Waiting(i)| + i.lost
            && (i.lost == 0 && (Crowd(n.t.history) == [] || LateInput(n.t.history) == []) ==>
                  k.accepted == k.delivered + Waiting(i))
  {
    hide Inv, Fresh, Drive, LinkOk, Shape, OrderOk, Order, BodyOf, Intake, Rank, Losses, Waiting, AtPump, Ready;
    hide LateInput, Crowd;
    FreshKeeps(first, s);
    DriveKeeps(first, s, events);
    var n := Drive(s, events).s;
    InvParts(first, n);
    CrowdIsReadOff(n.t.history);
  }

  // ---- one iteration while the child runs ----

  /** The pump is alive, stdin open, and no credit is due. */
  predicate Flowing(i: Inflow) {
    i.child.Some? && i.child.value.stdinOpen && i.child.value.pumpAlive && !i.clientEof && i.credit < CREDIT_BATCH
  }

  /** A re-key was started, or can be. */
  predicate LinkCalm(t: Link) { t.phase.SentKexInit? || (t.phase.Idle? && t.ioLeft >= 1) }

  predicate Calm(s: Session) { s.d.state.Running? && s.d.out.pending.None? && Flowing(s.d.inn) && LinkCalm(s.t) }

  lemma HandoffFlows(i: Inflow)
    requires Flowing(i)
    ensures var j := Handoff(i);
            && Flowing(j) && j.line == i.line && j.window == i.window
            && j.child.value.inflight == i.child.value.inflight && i.child.value.queue <= j.child.value.queue
  {
  }

  lemma CalmTurn(s: Session, host: Host)
    requires Calm(s) && host.env.kexInit.Some?
    ensures var r := Turn(s, host);
            && r.Go? && r.st.d == s.d.(inn := Handoff(s.d.inn)) && LinkCalm(r.st.t)
            && Intake(r.st.t.history) == Intake(s.t.history)
  {
    hide Handoff, Exchange, Seals, Order, Output, Audit, Intake, SatAdd, Payload;
    HandoffFlows(s.d.inn);
    assert FlushOutput(s) == Go(s);
  }

  /** Reading a packet changes nothing but the receiver's counts. */
  lemma TakenFields(s: Session, payload: Bytes, now: nat)
    ensures var r := Taken(s, payload, now);
            && r.d == s.d && r.t.phase == s.t.phase && r.t.ioLeft == s.t.ioLeft && r.t.lastKex == s.t.lastKex
            && r.t.limits == s.t.limits && Intake(r.t.history) == Intake(s.t.history)
  {
    hide Exchange, Seals, Order, Output, Audit, Intake, SatAdd;
  }

  lemma CalmData(s: Session, x: Byte, host: Host)
    requires Calm(s) && s.d.inn.window >= 1
    ensures var r := OnPacket(s, StdinPayload([x]), host);
            && r.Go? && r.st.d == s.d.(inn := Accept(s.d.inn, false, [x])) && LinkCalm(r.st.t)
            && Intake(r.st.t.history) == ObserveIntake(Intake(s.t.history), Took([x]))
  {
    hide HandleInbound, Accept, Exchange, Seals, Order, Output, Audit, Intake, OnPacket, Taken, StdinPayload, Note;
    hide Flowing, ObserveIntake;
    var n := Taken(s, StdinPayload([x]), host.env.now);
    FlowingEof(s.d.inn);
    DataPassed(s, x, host);
    TakenFields(s, StdinPayload([x]), host.env.now);
    DataHandled(n, x, host);
    NotedIntake(n.(d := n.d.(inn := Accept(n.d.inn, false, [x]))), Took([x]));
  }

  lemma FlowingEof(i: Inflow)
    requires Flowing(i)
    ensures !i.clientEof
  {
  }

  /** Stdin goes to the channel at once, also while a re-key is under way. */
  lemma DataPassed(s: Session, x: Byte, host: Host)
    requires s.t.phase.Idle? || s.t.phase.SentKexInit?
    ensures var p := StdinPayload([x]); OnPacket(s, p, host) == HandleInbound(Taken(s, p, host.env.now), p, host)
  {
    assert StdinPayload([x])[0] == 94;
    hide HandleInbound, Taken, StdinPayload, DrainDeferred, Intake;
    TakenFields(s, StdinPayload([x]), host.env.now);
  }

  lemma DataHandled(s: Session, x: Byte, host: Host)
    requires (s.d.state.Idle? || s.d.state.Running?) && s.d.inn.window >= 1 && !s.d.inn.clientEof
    ensures HandleInbound(s, StdinPayload([x]), host) ==
            Go(Note(s.(d := s.d.(inn := Accept(s.d.inn, s.d.state.Idle?, [x]))), Took([x])))
  {
    hide Decode, Accept, Note, StdinPayload;
    DecodesStdin([x]);
  }

  lemma NotedIntake(s: Session, e: Entry)
    ensures var n := Note(s, e);
            && n.d == s.d && n.t == s.t.(history := n.t.history)
            && Intake(n.t.history) == ObserveIntake(Intake(s.t.history), e)
  {
    hide Exchange, Seals, Order, Output, Audit, Intake, ObserveIntake;
  }

  /** A packet of one byte. */
  lemma IterateData(s: Session, x: Byte, host: Host)
    requires Calm(s) && s.d.inn.window >= 1 && host.env.kexInit.Some?
    ensures var st := Iterate(s, Packet(StdinPayload([x])), host);
            && st.Live? && Calm(st.s) && st.s.d == s.d.(inn := Accept(Handoff(s.d.inn), false, [x]))
            && Intake(st.s.t.history) == ObserveIntake(Intake(s.t.history), Took([x]))
  {
    hide Turn, OnPacket, Handoff, Intake, ObserveIntake;
    HandoffFlows(s.d.inn);
    CalmTurn(s, host);
    CalmData(Turn(s, host).st, x, host);
  }

  lemma IterateTake(s: Session, host: Host)
    requires Calm(s) && host.env.kexInit.Some? && s.d.inn.child.value.queue != [] && s.d.inn.child.value.inflight == []
    ensures Handoff(s.d.inn).child.Some? && Handoff(s.d.inn).child.value.queue != []
    ensures var st := Iterate(s, PumpTakes, host);
            && st.Live? && Calm(st.s) && st.s.d == s.d.(inn := PumpTook(Handoff(s.d.inn)))
            && Intake(st.s.t.history) == Intake(s.t.history)
  {
    hide Turn, Handoff, Intake;
    HandoffFlows(s.d.inn);
    CalmTurn(s, host);
  }

  lemma IterateWrite(s: Session, n: U32, host: Host)
    requires Calm(s) && host.env.kexInit.Some? && n <= |s.d.inn.child.value.inflight|
    ensures Handoff(s.d.inn).child.Some? && Handoff(s.d.inn).child.value.inflight == s.d.inn.child.value.inflight
    ensures var st := Iterate(s, PumpWrites(n), host);
            && st.Live? && Calm(st.s) && st.s.d == s.d.(inn := PumpWrote(Handoff(s.d.inn), n))
            && Intake(st.s.t.history) == ObserveIntake(Intake(s.t.history),
                                                       Delivered(s.d.inn.child.value.inflight[..n]))
  {
    hide Turn, Handoff, Exchange, Seals, Order, Output, Audit, Intake, ObserveIntake;
    HandoffFlows(s.d.inn);
    CalmTurn(s, host);
  }

  // ---- the exec ----

  /** Before the exec, outside a re-key: the client has window left, and the
      stream takes a few more packets. */
  predicate BeforeExec(s: Session) { s.d.state.Idle? && s.d.inn.window >= 1 && s.t.phase.Idle? && s.t.ioLeft >= 5 }

  /** Nothing of the channel has moved yet. */
  predicate Waits(s: Session) {
    && s.d.state.Idle? && s.d.inn.child.None? && Untouched(s.d.inn) && !s.d.inn.clientEof && s.d.inn.window >= 1
    && s.d.out.pending.None? && s.d.deferred == []
  }

  ghost predicate Helpful(host: Host, now: nat) {
    && host.env.now == now && host.env.kexInit.Some? && host.env.negotiation == Agreed(false)
    && host.env.hybrid.HybridDone? && host.env.hybrid.signature.Some? && host.spawns && forall b :: host.utf8(b)
  }

  /** Surroundings in which everything works, at time `now`. */
  function Works(now: nat): (host: Host)
    ensures Helpful(host, now)
  {
    Host(Env(now, Some([]), Agreed(false), HybridDone([], Some([])), [], _ => Ivs(0, 0)), _ => true,
         true, true, true, true, true, true, true)
  }

  lemma IdleTurn(s: Session, host: Host)
    requires s.d.state.Idle? && s.d.inn.child.None? && s.d.inn.credit == 0 && s.t.phase.Idle?
             && !RekeyDue(s.t, host.env.now)
    ensures Turn(s, host) == Go(s)
  {
    hide RekeyDue;
    assert FlushOutput(s) == Go(s);
    assert HandOver(s) == s;
  }

  lemma ExecHandled(s: Session, host: Host)
    requires s.d.state.Idle? && host.spawns && forall b :: host.utf8(b)
    ensures var r := HandleInbound(s, ExecPayload([]), host);
            && r.Go? && r.st.d == Spawned(Commanded(s.d, []), true)
            && r.st.t.phase == s.t.phase && r.st.t.ioLeft == s.t.ioLeft
            && Intake(r.st.t.history) == ObserveIntake(Intake(s.t.history), Started([]))
  {
    hide Decode, GetString, PutString, Exchange, Seals, Order, Output, Audit, Intake, ObserveIntake;
    DecodesExec([]);
    GetPutString([], [], MAX_DATA);
    assert PutString([]) + [] == PutString([]);
    hide ExecPayload;
  }

  lemma ExecPacket(s: Session, host: Host)
    requires s.d.state.Idle? && s.t.phase.Idle? && host.spawns && forall b :: host.utf8(b)
    ensures var r := OnPacket(s, ExecPayload([]), host);
            && r.Go? && r.st.d == Spawned(Commanded(s.d, []), true)
            && r.st.t.phase.Idle? && r.st.t.ioLeft == s.t.ioLeft
            && Intake(r.st.t.history) == ObserveIntake(Intake(s.t.history), Started([]))
  {
    assert ExecPayload([])[0] == 98;
    hide HandleInbound, ExecPayload, SatAdd, Commanded, Spawned, Intake, ObserveIntake, Taken;
    TakenFields(s, ExecPayload([]), host.env.now);
    ExecHandled(Taken(s, ExecPayload([]), host.env.now), host);
  }

  /** The exec has been handled. */
  predicate ExecDone(s: Session, n: Session) {
    && Calm(n) && n.d.inn == s.d.inn.(child := Some(NEW_CHILD))
    && Intake(n.t.history) == ObserveIntake(Intake(s.t.history), Started([]))
  }

  lemma IterateExec(s: Session, host: Host)
    requires Waits(s) && s.t.phase.Idle? && s.t.ioLeft >= 1 && Helpful(host, s.t.lastKex) && !RekeyDue(s.t, s.t.lastKex)
    ensures var st := Iterate(s, Packet(ExecPayload([])), host); st.Live? && ExecDone(s, st.s)
  {
    hide Turn, OnPacket, RekeyDue, Intake, ObserveIntake;
    IdleTurn(s, host);
    ExecPacket(s, host);
  }

  // ---- the exec when a re-key falls due first ----

  /** A session waiting for the client's part of an exchange, the exec held back. */
  predicate Rekeying(s: Session, n: Session) {
    && n.d == s.d.(deferred := [ExecPayload([])])
    && Intake(n.t.history) == Intake(s.t.history) && n.t.lastKex == s.t.lastKex
  }

  lemma DueTurn(s: Session, host: Host)
    requires Waits(s) && s.t.phase.Idle? && s.t.ioLeft >= 1 && Helpful(host, s.t.lastKex) && RekeyDue(s.t, s.t.lastKex)
    ensures var r := Turn(s, host);
            && r.Go? && r.st.d == s.d && r.st.t.phase.SentKexInit? && r.st.t.ioLeft == s.t.ioLeft - 1
            && Intake(r.st.t.history) == Intake(s.t.history) && r.st.t.lastKex == s.t.lastKex
  {
    hide Exchange, Seals, Order, Output, Audit, Intake, SatAdd, Payload, RekeyDue;
    assert FlushOutput(s) == Go(s);
    assert HandOver(s) == s;
  }

  lemma ExecIsHeldBack(s: Session, host: Host)
    requires s.d.deferred == [] && s.t.phase.SentKexInit?
    ensures var r := OnPacket(s, ExecPayload([]), host);
            r.Go? && Rekeying(s, r.st) && r.st.t.phase == s.t.phase && r.st.t.ioLeft == s.t.ioLeft
  {
    assert ExecPayload([])[0] == 98;
    hide Exchange, Seals, Order, Output, Audit, Intake, SatAdd, Handle, Taken, ExecPayload;
    TakenFields(s, ExecPayload([]), host.env.now);
  }

  lemma IterateHeldBack(s: Session, host: Host)
    requires Waits(s) && s.t.phase.Idle? && s.t.ioLeft >= 1 && Helpful(host, s.t.lastKex) && RekeyDue(s.t, s.t.lastKex)
    ensures var st := Iterate(s, Packet(ExecPayload([])), host);
            st.Live? && Rekeying(s, st.s) && st.s.t.phase.SentKexInit? && st.s.t.ioLeft == s.t.ioLeft - 1
  {
    hide Turn, OnPacket, RekeyDue, Intake;
    DueTurn(s, host);
    ExecIsHeldBack(Turn(s, host).st, host);
  }

  lemma InitHandled(s: Session, host: Host)
    requires s.t.phase.SentKexInit? && Helpful(host, s.t.lastKex)
    ensures var r := OnPacket(s, [MSG_KEXINIT], host);
            && r.Go? && r.st.d == s.d && r.st.t.phase.AwaitHybridInit? && !r.st.t.phase.skipGuessed
            && r.st.t.ioLeft == s.t.ioLeft && Intake(r.st.t.history) == Intake(s.t.history)
            && r.st.t.lastKex == s.t.lastKex
  {
    hide Taken, Intake;
    TakenFields(s, [MSG_KEXINIT], host.env.now);
  }

  function HybridPayload(): (p: Bytes) { [MSG_KEX_HYBRID_INIT] + PutString([]) }

  lemma HybridHandled(s: Session, host: Host)
    requires s.t.phase.AwaitHybridInit? && !s.t.phase.skipGuessed && s.t.ioLeft >= 2 && Helpful(host, s.t.lastKex)
    ensures var r := OnPacket(s, HybridPayload(), host);
            && r.Go? && r.st.d == s.d && r.st.t.phase.AwaitNewKeys? && r.st.t.ioLeft == s.t.ioLeft - 2
            && Intake(r.st.t.history) == Intake(s.t.history) && r.st.t.lastKex == s.t.lastKex
  {
    hide Exchange, Seals, Order, Output, Audit, Intake, SatAdd, Payload, GetString, PutString, Taken;
    assert HybridPayload()[1..] == PutString([]) + [];
    GetPutString([], [], CLIENT_INIT_LEN);
    TakenFields(s, HybridPayload(), host.env.now);
  }

  lemma KeysHandled(s: Session, n: Session, host: Host)
    requires Rekeying(s, n) && Waits(s) && n.t.phase.AwaitNewKeys? && n.t.ioLeft >= 1 && Helpful(host, s.t.lastKex)
    ensures var r := OnPacket(n, [MSG_NEWKEYS], host); r.Go? && ExecDone(s, r.st)
  {
    hide Exchange, Seals, Order, Output, Audit, Intake, SatAdd, Handle, Decode, ExecPayload;
    ExecDrained(n, host);
  }

  /** Completion hands the exec over. */
  lemma DrainExec(n: Session, host: Host)
    requires n.d.state.Idle? && n.d.deferred == [ExecPayload([])] && host.spawns && forall b :: host.utf8(b)
    ensures var r := DrainDeferred(n, host);
            && r.Go? && r.st.d == Spawned(Commanded(n.d.(deferred := []), []), true).(deferred := [])
            && r.st.t.phase == n.t.phase && r.st.t.ioLeft == n.t.ioLeft
            && Intake(r.st.t.history) == ObserveIntake(Intake(n.t.history), Started([]))
  {
    hide Exchange, Seals, Order, Output, Audit, Intake, HandleInbound, ExecPayload, Commanded, Spawned;
    var m := Note(n.(d := n.d.(deferred := [])), Undeferred(ExecPayload([])));
    assert n.d.deferred[1..] == [];
    ExecHandled(m, host);
  }

  lemma ExecDrained(n: Session, host: Host)
    requires n.d.state.Idle? && n.d.deferred == [ExecPayload([])] && n.t.phase.AwaitNewKeys?
    requires host.spawns && forall b :: host.utf8(b)
    ensures var r := OnPacket(n, [MSG_NEWKEYS], host);
            && r.Go? && r.st.d == Spawned(Commanded(n.d.(deferred := []), []), true).(deferred := [])
            && r.st.t.phase.Idle? && r.st.t.ioLeft == n.t.ioLeft
            && Intake(r.st.t.history) == ObserveIntake(Intake(n.t.history), Started([]))
  {
    hide Exchange, Seals, Order, Output, Audit, Intake, SatAdd, DrainDeferred, ExecPayload, ObserveIntake;
    hide Commanded, Spawned;
    hide Taken;
    var t := Taken(n, [MSG_NEWKEYS], host.env.now).t;
    TakenFields(n, [MSG_NEWKEYS], host.env.now);
    var r := StepRekey(t, [MSG_NEWKEYS], host.env);
    CompletionSays(t, host.env);
    DrainExec(n.(t := r.link), host);
  }

  lemma CompletionSays(t: Link, env: Env)
    requires t.phase.AwaitNewKeys?
    ensures var r := StepRekey(t, [MSG_NEWKEYS], env);
            && r.Next? && r.what.Completed? && r.link.phase.Idle? && r.link.ioLeft == t.ioLeft
            && Intake(r.link.history) == Intake(t.history)
  {
    hide Exchange, Seals, Order, Output, Audit, Intake;
  }

  /** The exec, after the exchange that fell due. */
  lemma DueExecRuns(s: Session, host: Host) returns (n: Session)
    requires Waits(s) && s.t.phase.Idle? && s.t.ioLeft >= 5 && Helpful(host, s.t.lastKex) && RekeyDue(s.t, s.t.lastKex)
    ensures Drive(s, DueExec(host)) == Live(n) && ExecDone(s, n)
  {
    hide Iterate, OnPacket, RekeyDue, Intake, ObserveIntake, ExecPayload, HybridPayload, Waits;
    IterateHeldBack(s, host);
    var a := Iterate(s, Packet(ExecPayload([])), host).s;
    WaitsFor(s, a);
    InitHandled(a, host);
    IterateQuiet(a, [MSG_KEXINIT], host);
    var b := OnPacket(a, [MSG_KEXINIT], host).st;
    HybridHandled(b, host);
    IterateQuiet(b, HybridPayload(), host);
    var c := OnPacket(b, HybridPayload(), host).st;
    KeysHandled(s, c, host);
    IterateQuiet(c, [MSG_NEWKEYS], host);
    n := OnPacket(c, [MSG_NEWKEYS], host).st;
    var events := DueExec(host);
    DriveMore(s, events);
    DriveMore(a, events[1..]);
    DriveMore(b, events[1..][1..]);
    DriveMore(c, events[1..][1..][1..]);
    assert events[1..][1..][1..][1..] == [];
    DriveNone(n);
  }

  function DueExec(host: Host): Events {
    [(Packet(ExecPayload([])), host), (Packet([MSG_KEXINIT]), host), (Packet(HybridPayload()), host),
     (Packet([MSG_NEWKEYS]), host)]
  }

  lemma WaitsFor(s: Session, n: Session)
    requires Waits(s) && Rekeying(s, n)
    ensures n.d.inn.child.None? && n.d.state.Idle?
  {
    hide Intake;
  }

  /** During a re-key, with no child yet, a turn does nothing. */
  lemma IterateQuiet(s: Session, payload: Bytes, host: Host)
    requires RekeyActive(s.t) && s.d.inn.child.None? && OnPacket(s, payload, host).Go?
    ensures Iterate(s, Packet(payload), host) == Live(OnPacket(s, payload, host).st)
  {
    hide OnPacket;
    assert HandOver(s) == s;
  }

  lemma {:induction false} DriveMore(s: Session, events: Events)
    requires events != []
    ensures Drive(s, events) ==
            (match Iterate(s, events[0].0, events[0].1)
             case Live(n) => Drive(n, events[1..])
             case done => done)
  {
  }

  lemma DriveNone(s: Session)
    ensures Drive(s, []) == Live(s)
  {
  }

  /** The exec, whether or not a re-key is due. */
  lemma ExecRuns(s: Session, host: Host) returns (events: Events, n: Session)
    requires Waits(s) && s.t.phase.Idle? && s.t.ioLeft >= 5 && Helpful(host, s.t.lastKex)
    ensures Drive(s, events) == Live(n) && ExecDone(s, n)
    ensures !RekeyDue(s.t, s.t.lastKex) ==> events == [(Packet(ExecPayload([])), host)]
  {
    hide Iterate, Drive, RekeyDue, Waits, ExecDone, ExecPayload, DueExec;
    if RekeyDue(s.t, s.t.lastKex) {
      events := DueExec(host);
      n := DueExecRuns(s, host);
    } else {
      events := [(Packet(ExecPayload([])), host)];
      IterateExec(s, host);
      DriveOne(s, events[0]);
      n := Iterate(s, events[0].0, host).s;
    }
  }

  // ---- the overtaking run ----

  /** The inbound half after the byte: it waits in the slot, ahead of the rest
      of the early packets. */
  lemma ByteWaits(i: Inflow, x: Byte)
    requires i.child == Some(NEW_CHILD) && Flowing(i) && i.pending.None? && i.preExec != [] && i.window >= 1
    ensures var j := Handoff(Accept(Handoff(i), false, [x]));
            j.child.Some? && j.child.value.queue == [i.preExec[0], [x]] && j.child.value.inflight == []
    ensures var j := Accept(Handoff(i), false, [x]);
            j.child.Some? && j.child.value.queue == [i.preExec[0]] && j.child.value.inflight == []
  {
  }

  /** After the pump has written the first early packet, the byte is next. */
  lemma ByteIsNext(i: Inflow, early: Bytes, x: Byte)
    requires Flowing(i) && i.child.value.inflight == early && i.child.value.queue == [[x]] && |early| < U32_LIMIT
    ensures var j := PumpWrote(Handoff(i), |early|);
            Flowing(j) && j.child.value.inflight == [] && [[x]] <= j.child.value.queue
    ensures Handoff(i).child.Some? && Handoff(i).child.value.inflight == early
  {
    hide Handoff;
    HandoffFlows(i);
  }

  /** The byte after the exec. */
  lemma ByteArrives(s: Session, x: Byte, host: Host) returns (n: Session)
    requires Calm(s) && s.d.inn.child == Some(NEW_CHILD) && s.d.inn.pending.None? && s.d.inn.preExec != []
    requires s.d.inn.window >= 1 && host.env.kexInit.Some?
    ensures Drive(s, [(Packet(StdinPayload([x])), host), (PumpTakes, host)]) == Live(n)
    ensures Calm(n) && n.d.inn.child.value.inflight == s.d.inn.preExec[0] && n.d.inn.child.value.queue == [[x]]
    ensures Intake(n.t.history) == ObserveIntake(Intake(s.t.history), Took([x]))
  {
    hide Iterate, Intake, ObserveIntake, Handoff, Accept;
    IterateData(s, x, host);
    var b := Iterate(s, Packet(StdinPayload([x])), host).s;
    ByteWaits(s.d.inn, x);
    IterateTake(b, host);
    n := Iterate(b, PumpTakes, host).s;
    var events := [(Packet(StdinPayload([x])), host), (PumpTakes, host)];
    DriveMore(s, events);
    DriveMore(b, events[1..]);
    assert events[1..][1..] == [];
    DriveNone(n);
  }

  /** Then the pump writes. */
  lemma ByteOvertakes(s: Session, early: Bytes, x: Byte, host: Host) returns (n: Session)
    requires Calm(s) && s.d.inn.child.value.inflight == early && s.d.inn.child.value.queue == [[x]]
             && |early| < U32_LIMIT
    requires host.env.kexInit.Some?
    ensures Drive(s, [(PumpWrites(|early|), host), (PumpTakes, host), (PumpWrites(1), host)]) == Live(n)
    ensures Intake(n.t.history) == ObserveIntake(ObserveIntake(Intake(s.t.history), Delivered(early)), Delivered([x]))
  {
    hide Iterate, Intake, ObserveIntake, Handoff;
    IterateWrite(s, |early|, host);
    assert early[..|early|] == early;
    var a := Iterate(s, PumpWrites(|early|), host).s;
    ByteIsNext(s.d.inn, early, x);
    IterateTake(a, host);
    HandoffFlows(a.d.inn);
    var b := Iterate(a, PumpTakes, host).s;
    IterateWrite(b, 1, host);
    n := Iterate(b, PumpWrites(1), host).s;
    assert [x][..1] == [x];
    var events := [(PumpWrites(|early|), host), (PumpTakes, host), (PumpWrites(1), host)];
    DriveMore(s, events);
    DriveMore(a, events[1..]);
    DriveMore(b, events[1..][1..]);
    assert events[1..][1..][1..] == [];
  }

  /** The byte arrives and overtakes. */
  lemma ByteRuns(s: Session, x: Byte, host: Host) returns (events: Events, n: Session)
    requires Calm(s) && s.d.inn.child == Some(NEW_CHILD) && s.d.inn.pending.None? && s.d.inn.preExec != []
    requires s.d.inn.window >= 1 && host.env.kexInit.Some? && |s.d.inn.preExec[0]| < U32_LIMIT
    ensures Drive(s, events) == Live(n)
    ensures Intake(n.t.history) == ObserveIntake(ObserveIntake(ObserveIntake(Intake(s.t.history), Took([x])),
                                                               Delivered(s.d.inn.preExec[0])), Delivered([x]))
  {
    hide Drive, Intake, ObserveIntake, StdinPayload;
    var early := s.d.inn.preExec[0];
    var a := ByteArrives(s, x, host);
    n := ByteOvertakes(a, early, x, host);
    var one := [(Packet(StdinPayload([x])), host), (PumpTakes, host)];
    var two := [(PumpWrites(|early|), host), (PumpTakes, host), (PumpWrites(1), host)];
    events := one + two;
    DriveSplit(s, one, two);
  }

  /** The byte sent after the exec reaches the child right behind the first
      early packet, whatever else was sent before the exec. */
  lemma Overtaking(s: Session, x: Byte) returns (events: Events)
    requires Waits(s) && s.t.phase.Idle? && s.t.ioLeft >= 5 && s.d.inn.preExec != []
    requires |s.d.inn.preExec[0]| < U32_LIMIT
    ensures var st, early := Drive(s, events), s.d.inn.preExec[0];
            && st.Live?
            && Intake(st.s.t.history) == ObserveIntake(ObserveIntake(ObserveIntake(ObserveIntake(
                 Intake(s.t.history), Started([])), Took([x])), Delivered(early)), Delivered([x]))
  {
    hide Drive, Intake, ObserveIntake, Works, Calm, Waits, ExecDone;
    var host := Works(s.t.lastKex);
    var exec, e := ExecRuns(s, host);
    CalmSends(s, e);
    var rest, n := ByteRuns(e, x, host);
    events := exec + rest;
    DriveSplit(s, exec, rest);
  }

  lemma CalmSends(s: Session, n: Session)
    requires Waits(s) && ExecDone(s, n)
    ensures n.d.inn.child == Some(NEW_CHILD) && n.d.inn.pending.None? && n.d.inn.preExec == s.d.inn.preExec
    ensures n.d.inn.window >= 1 && Calm(n) && Intake(n.t.history) == ObserveIntake(Intake(s.t.history), Started([]))
  {
    hide Intake, ObserveIntake;
  }

  lemma OvertakenView(k: IntakeView, early: Bytes, x: Byte)
    requires !k.begun && k.delivered == []
    ensures var v := ObserveIntake(ObserveIntake(ObserveIntake(ObserveIntake(k, Started([])), Took([x])),
                                                 Delivered(early)), Delivered([x]));
            v.accepted == k.accepted + [x] && v.delivered == early + [x] && v.crowd == k.crowd
  {
    hide ObserveIntake;
    assert [] + early == early;
    var a := ObserveIntake(k, Started([]));
    BegunStep(k);
    var b := ObserveIntake(a, Took([x]));
    LateStep(a, [x]);
    DeliveredStep(b, early);
    DeliveredStep(ObserveIntake(b, Delivered(early)), [x]);
  }

  lemma BegunStep(k: IntakeView)
    ensures ObserveIntake(k, Started([])) == k.(begun := true)
  {
  }

  lemma LateStep(k: IntakeView, input: Bytes)
    requires k.begun
    ensures var v := ObserveIntake(k, Took(input));
            v.accepted == k.accepted + input && v.crowd == k.crowd && v.delivered == k.delivered
  {
  }

  lemma DeliveredStep(k: IntakeView, input: Bytes)
    ensures var v := ObserveIntake(k, Delivered(input));
            v.accepted == k.accepted && v.crowd == k.crowd && v.delivered == k.delivered + input
  {
    hide DeliveryAllowed;
  }

  lemma DroppedIntake(s: Session)
    ensures Intake(EmitFinished(s).t.history) == Intake(s.t.history)
  {
    hide Exchange, Seals, Order, Output, Audit, Sum, SatAdd;
  }

  // ---- the exact condition ----

  /** What the invariant says of a session before its exec. */
  lemma EarlyState(first: SealView, s: Session)
    requires LoopInv(first, s) && s.d.state.Idle?
    ensures s.d.inn.child.None? && Untouched(s.d.inn) && s.d.out.pending.None? && !Intake(s.t.history).begun
    ensures s.t.phase.Idle? ==> s.d.deferred == []
    ensures var k := Intake(s.t.history);
            && k.delivered == [] && k.accepted == Flat(s.d.inn.preExec) && k.crowd == Behind(s.d.inn.preExec)
            && k.ended == s.d.inn.clientEof && SumLen(s.d.inn.preExec) <= INITIAL_WINDOW
  {
    hide Inv, LinkOk, OrderOk, Order, BodyOf, Intake, FRESH, Placed, Ready, Flat, Behind, SumLen;
    InvParts(first, s);
  }

  lemma OutOfPlace(early: Bytes, rest: Bytes, x: Byte)
    requires rest != [] && x != rest[0]
    ensures !(early + [x] <= early + rest + [x])
  {
    var a, b := early + [x], early + rest + [x];
    assert a[|early|] == x && b[|early|] == rest[0];
  }

  lemma HeadFits(q: seq<Bytes>)
    requires q != [] && SumLen(q) <= INITIAL_WINDOW
    ensures |q[0]| < U32_LIMIT && Flat(q) == q[0] + Behind(q)
  {
  }

  /** With a crowd, one byte after the exec is enough to break the order. */
  lemma CrowdBreaks(first: SealView, s: Session, before: Events) returns (after: Events)
    requires Fresh(first, s) && Drive(s, before).Live? && BeforeExec(Drive(s, before).s)
    requires Crowd(Drive(s, before).s.t.history) != [] && !Shut(Drive(s, before).s.t.history)
    ensures var h := Transcript(s, before + after);
            Crowd(h) == Crowd(Drive(s, before).s.t.history) && !InOrder(h)
  {
    hide Drive, Fresh, Inv, Intake, ObserveIntake, EarlyPackets, LateInput, Shut, Flat, SumLen, EmitFinished;
    hide Order, Ended, Settled;
    FreshKeeps(first, s);
    DriveKeeps(first, s, before);
    var n := Drive(s, before).s;
    var q := n.d.inn.preExec;
    CrowdIsReadOff(n.t.history);
    EarlyState(first, n);
    HeadFits(q);
    var x: Byte := if Behind(q)[0] == 0 then 1 else 0;
    after := Overtaking(n, x);
    OvertakenView(Intake(n.t.history), q[0], x);
    DriveSplit(s, before, after);
    DroppedIntake(Drive(n, after).s);
    CrowdIsReadOff(Transcript(s, before + after));
    OutOfPlace(q[0], Behind(q), x);
  }

  lemma {:induction false} NothingLateYet(h: History)
    requires !Begun(h)
    ensures LateInput(h) == []
  {
    if h != [] {
      NothingLateYet(h[..|h| - 1]);
    }
  }

  /** Once the client has ended its input before the exec, order is certain. */
  lemma ShutKeepsOrder(first: SealView, s: Session, before: Events, after: Events)
    requires Fresh(first, s) && Drive(s, before).Live? && Drive(s, before).s.d.state.Idle?
    requires Shut(Drive(s, before).s.t.history)
    ensures InOrder(Transcript(s, before + after))
  {
    hide Drive, Fresh, Inv, Intake, EarlyPackets, LateInput, Shut, Flat, SumLen, EmitFinished, Order, Output, Audit;
    hide LinkClean, AuditOk, Counted, Settled, Begun, Crowd, Behind;
    FreshKeeps(first, s);
    DriveKeeps(first, s, before);
    var n := Drive(s, before).s;
    var h := Transcript(s, before + after);
    EarlyState(first, n);
    CrowdIsReadOff(n.t.history);
    NothingLateYet(n.t.history);
    DriveSplit(s, before, after);
    DriveExtends(n, after);
    RunIsClean(first, s, before + after);
    assert h[..|n.t.history|] == n.t.history;
    NothingAfterEof(h, |n.t.history|);
    CrowdIsReadOff(h);
    StdinIsFaithful(first, s, before + after);
  }

  /** Before the exec, order is certain if and only if there is no crowd or the
      client has sent its EOF: over every way to go on that adds no more to the
      crowd, the child gets the client's bytes in the order they were sent. */
  lemma OrderExactly(first: SealView, s: Session, before: Events)
    requires Fresh(first, s) && Drive(s, before).Live? && BeforeExec(Drive(s, before).s)
    ensures var h := Drive(s, before).s.t.history;
            (forall after :: Crowd(Transcript(s, before + after)) == Crowd(h) ==>
               InOrder(Transcript(s, before + after)))
            <==> Crowd(h) == [] || Shut(h)
  {
    hide Fresh, Drive, Transcript, Crowd, InOrder, Shut;
    var h := Drive(s, before).s.t.history;
    if Crowd(h) == [] || Shut(h) {
      forall after: Events | Crowd(Transcript(s, before + after)) == Crowd(h)
        ensures InOrder(Transcript(s, before + after))
      {
        if Shut(h) {
          ShutKeepsOrder(first, s, before, after);
        } else {
          StdinIsFaithful(first, s, before + after);
        }
      }
    } else {
      var after := CrowdBreaks(first, s, before);
    }
  }

  // ---- a session in which it happens ----

  /** A link on which no re-key falls due within `k` more short packets. */
  predicate Patient(t: Link, k: nat) {
    && t.phase.Idle? && t.ioLeft >= k && t.limits.maxInterval > 0
    && t.seqRx + k < t.limits.maxPackets && t.seqTx + k < t.limits.maxPackets
    && t.bytesRx + 32 * k < t.limits.maxBytes && t.bytesTx + 32 * k < t.limits.maxBytes
  }

  lemma PatientIsNotDue(t: Link)
    requires Patient(t, 0)
    ensures !RekeyDue(t, t.lastKex)
  {
  }

  lemma OpenIsShort()
    ensures |OpenPayload(0, 0, 1)| == 24 && OpenPayload(0, 0, 1)[0] == 90
    ensures |Payload(Frame.Channel(0, OpenConfirmation))| == 17
  {
    hide PutU32, PutString, Ascii;
  }

  lemma TakenPatient(s: Session, payload: Bytes, k: nat, now: nat)
    requires Patient(s.t, k + 1) && |payload| <= 32
    ensures var t := Taken(s, payload, now).t;
            && t.phase.Idle? && t.ioLeft == s.t.ioLeft && t.limits == s.t.limits && t.seqTx == s.t.seqTx
            && t.bytesTx == s.t.bytesTx && t.seqRx + k < t.limits.maxPackets && t.bytesRx + 32 * k < t.limits.maxBytes
  {
    hide Exchange, Seals, Order, Output, Audit, Intake;
  }

  lemma OpenHandled(s: Session, k: nat, host: Host)
    requires s.d == FRESH && Patient(s.t, k + 1)
    ensures var r := OnPacket(s, OpenPayload(0, 0, 1), host);
            && r.Go? && r.st.d == Accepted(FRESH, Open(Ascii("session"), 0, 0, 1)) && Patient(r.st.t, k)
            && Intake(r.st.t.history) == Intake(s.t.history).(window := INITIAL_WINDOW) && r.st.t.lastKex == s.t.lastKex
  {
    hide Decode, Exchange, Seals, Order, Output, Audit, Intake, Ascii, OpenPayload, Payload, Taken;
    DecodesOpen(0, 0, 1);
    OpenIsShort();
    TakenFields(s, OpenPayload(0, 0, 1), host.env.now);
    TakenPatient(s, OpenPayload(0, 0, 1), k, host.env.now);
  }

  lemma EarlyHandled(s: Session, x: Byte, k: nat, host: Host)
    requires s.d.state.Idle? && Patient(s.t, k + 1) && s.d.inn.window >= 1 && !s.d.inn.clientEof
    ensures var r := OnPacket(s, StdinPayload([x]), host);
            && r.Go? && r.st.d == s.d.(inn := Accept(s.d.inn, true, [x])) && Patient(r.st.t, k)
            && Intake(r.st.t.history) == ObserveIntake(Intake(s.t.history), Took([x])) && r.st.t.lastKex == s.t.lastKex
  {
    assert |StdinPayload([x])| == 10;
    hide HandleInbound, Accept, Exchange, Seals, Order, Output, Audit, Intake, OnPacket, Taken, StdinPayload, Note;
    hide ObserveIntake;
    var n := Taken(s, StdinPayload([x]), host.env.now);
    DataPassed(s, x, host);
    TakenFields(s, StdinPayload([x]), host.env.now);
    TakenPatient(s, StdinPayload([x]), k, host.env.now);
    DataHandled(n, x, host);
    NotedIntake(n.(d := n.d.(inn := Accept(n.d.inn, true, [x]))), Took([x]));
  }

  lemma IterateOpen(s: Session, k: nat, host: Host)
    requires s.d == FRESH && Patient(s.t, k + 1)
    ensures Iterate(s, Packet(OpenPayload(0, 0, 1)), host) == Live(OnPacket(s, OpenPayload(0, 0, 1), host).st)
  {
    hide Turn, OnPacket, Intake;
    OpenHandled(s, k, host);
    BeforeOpenTurn(s, host);
  }

  lemma IterateEarly(s: Session, x: Byte, k: nat, host: Host)
    requires s.d.state.Idle? && Patient(s.t, k + 1) && s.d.inn.window >= 1 && !s.d.inn.clientEof
    requires s.d.inn.child.None? && s.d.inn.credit == 0 && host.env.now == s.t.lastKex
    ensures Iterate(s, Packet(StdinPayload([x])), host) == Live(OnPacket(s, StdinPayload([x]), host).st)
  {
    hide Turn, OnPacket, Intake, ObserveIntake, Accept, RekeyDue;
    PatientIsNotDue(s.t);
    EarlyHandled(s, x, k, host);
    IdleTurn(s, host);
  }

  /** An open and two one-byte packets. */
  function Crowding(host: Host): Events {
    [(Packet(OpenPayload(0, 0, 1)), host), (Packet(StdinPayload([1])), host), (Packet(StdinPayload([2])), host)]
  }

  lemma EmptyIntake()
    ensures Intake([]) == IntakeView(true, 0, [], [], false, false, [], false, false)
  {
  }

  lemma CrowdedView()
    ensures var k := IntakeView(true, INITIAL_WINDOW, [], [], false, false, [], false, false);
            var v := ObserveIntake(ObserveIntake(k, Took([1])), Took([2]));
            !v.begun && v.delivered == [] && v.accepted == [1, 2] && v.crowd == [2]
  {
  }

  lemma CrowdingRuns(s: Session, host: Host) returns (n: Session)
    requires s.d == FRESH && Patient(s.t, 8) && s.t.history == [] && host.env.now == s.t.lastKex
    ensures Drive(s, Crowding(host)) == Live(n) && Waits(n) && Patient(n.t, 5) && n.d.inn.preExec == [[1], [2]]
    ensures var k := Intake(n.t.history);
            !k.begun && k.delivered == [] && k.accepted == [1, 2] && k.crowd == [2] && n.t.lastKex == s.t.lastKex
  {
    hide Iterate, OnPacket, Exchange, Seals, Order, Output, Audit, Intake, ObserveIntake, Drive, Ascii;
    hide OpenPayload, StdinPayload, RekeyDue;
    EmptyIntake();
    CrowdedView();
    OpenHandled(s, 7, host);
    IterateOpen(s, 7, host);
    var a := OnPacket(s, OpenPayload(0, 0, 1), host).st;
    EarlyHandled(a, 1, 6, host);
    IterateEarly(a, 1, 6, host);
    var b := OnPacket(a, StdinPayload([1]), host).st;
    EarlyHandled(b, 2, 5, host);
    IterateEarly(b, 2, 5, host);
    n := OnPacket(b, StdinPayload([2]), host).st;
    DriveMore(s, Crowding(host));
    DriveMore(a, Crowding(host)[1..]);
    DriveMore(b, Crowding(host)[1..][1..]);
    assert Crowding(host)[1..][1..][1..] == [];
    DriveNone(n);
  }

  /** There are such sessions, with the thresholds the server uses: 1 GiB, one
      hour and 2^31 packets. */
  lemma PatientSessions() returns (first: SealView, s: Session)
    ensures Fresh(first, s) && Patient(s.t, 8)
  {
    first := SealView(true, 0, 0);
    var c := Cipher(0, Initial, 0, 0);
    s := Session(FRESH, Link(0, 0, c, c, 0, 0, 0, 0, 0, 0, 0, Thresholds(0x4000_0000, 3600, 0x8000_0000, 60),
                             Phase.Idle, 8, []));
    hide FRESH;
  }

  /** A whole session: the client sends 1 and 2 before its exec and 3 after it,
      and the child gets 1, then 3. */
  lemma OvertakingHappens(first: SealView, s: Session) returns (events: Events)
    requires Fresh(first, s) && Patient(s.t, 8)
    ensures var h := Transcript(s, events);
            Crowd(h) == [2] && Intake(h).accepted == [1, 2, 3] && Intake(h).delivered == [1, 3]
  {
    var host := Works(s.t.lastKex);
    hide Drive, Intake, ObserveIntake, Works, EmitFinished, Waits, EarlyPackets, LateInput, Shut;
    var n := CrowdingRuns(s, host);
    var after := Overtaking(n, 3);
    OvertakenView(Intake(n.t.history), [1], 3);
    events := Crowding(host) + after;
    DriveSplit(s, Crowding(host), after);
    DroppedIntake(Drive(n, after).s);
    CrowdIsReadOff(Transcript(s, events));
  }
}
