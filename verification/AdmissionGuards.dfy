/** The admission objects (`admission.rs`): the state behind the mutex and the
guard of each admitted connection. Each method is one locked section or one
atomic swap, so any interleaving of threads is a sequence of these calls. */
module AdmissionGuards {
  import opened Wire
  import opened Admission

  class Shared {
    const limits: Limits
    var connections: nat
    var halfOpen: nat
    var sources: map<Key, Source>
    var sinceSweep: nat
    /** The guards alive, and those whose half-open slot is not yet released. */
    ghost var guards: set<Guard>
    ghost var open: set<Guard>

    constructor (limits: Limits)
      ensures Valid() && View() == EMPTY && guards == {} && this.limits == limits
    {
      this.limits := limits;
      connections, halfOpen, sources, sinceSweep, guards, open := 0, 0, map[], 0, {}, {};
    }

    ghost function View(): State
      reads this
    {
      State(connections, halfOpen, sources, sinceSweep)
    }

    ghost predicate Tallied()
      reads this
    {
      Tally(connections, halfOpen, sources, guards, open)
    }

    /** Every count equals the guards it stands for, and no cap is exceeded.
        Between the swap and the release a guard is authenticated and still in
        `open`. */
    ghost predicate Valid()
      reads this, guards
    {
      && Tallied() && sinceSweep < 64
      && connections <= limits.maxConnections && halfOpen <= limits.maxHalfOpen
      && (forall k :: k in sources ==> sources[k].halfOpen <= PerSource(limits))
      && (forall g :: g in guards ==> g.shared == this && (g in open <==> !g.authenticated || g.releasing)
                                      && (g.releasing ==> g.authenticated))
    }

    /** The caps are checked in order against the guards alive; a refusal by a cap
        changes nothing, one by the rate takes no slot. */
    method TryAdmit(key: Key, now: Instant) returns (guard: Option<Guard>, refusal: Option<Refusal>)
      requires Valid()
      modifies this
      ensures Valid() && (View(), refusal) == Admission.TryAdmit(limits, old(View()), key, now)
      ensures refusal.Some? <==> guard.None?
      ensures var all, half := |old(guards)| >= limits.maxConnections, |old(open)| >= limits.maxHalfOpen;
              var own := key in old(sources) && |From(old(open), key)| >= limits.maxPerSource;
              && (refusal == Some(MaxConnections) <==> all) && (refusal == Some(MaxHalfOpen) <==> !all && half)
              && (refusal == Some(MaxPerSource) <==> !all && !half && own)
      ensures refusal.Some? ==> guards == old(guards) && open == old(open)
      ensures refusal.Some? && !refusal.value.AcceptRate? ==> View() == old(View())
      ensures guard.Some? ==>
                && fresh(guard.value) && guard.value.source == key && !guard.value.authenticated
                && guards == old(guards) + {guard.value} && open == old(open) + {guard.value}
    {
      hide Refill, Sweep, From, PerSource;
      WithinCap(limits);
      if connections >= limits.maxConnections {
        return None, Some(MaxConnections);
      }
      if halfOpen >= limits.maxHalfOpen {
        return None, Some(MaxHalfOpen);
      }
      if key in sources && sources[key].halfOpen >= limits.maxPerSource {
        return None, Some(MaxPerSource);
      }
      Account(now);
      var entry := if key in sources then sources[key] else Source(0, FullBucket(limits, now));
      var bucket := Refill(limits, entry.bucket, now);
      if bucket.level == 0 {
        Charge(key, entry.(bucket := bucket));
        return None, Some(AcceptRate);
      }
      var g := new Guard(this, key);
      Enter(g, Source(entry.halfOpen + 1, bucket.(level := bucket.level - 1)));
      return Some(g), None;
    }

    /** A refilled bucket, with no slot taken. */
    method Charge(key: Key, entry: Source)
      requires Valid() && entry.halfOpen == (if key in sources then sources[key].halfOpen else 0)
      modifies this`sources
      ensures Valid() && sources == old(sources)[key := entry]
    {
      sources := sources[key := entry];
    }

    /** The slots of an admitted connection. */
    method Enter(g: Guard, entry: Source)
      requires Valid() && g.shared == this && g !in guards && !g.authenticated && !g.releasing
      requires connections < limits.maxConnections && halfOpen < limits.maxHalfOpen
      requires entry.halfOpen == (if g.source in sources then sources[g.source].halfOpen else 0) + 1
      requires entry.halfOpen <= PerSource(limits)
      modifies this`connections, this`halfOpen, this`guards, this`open, this`sources
      ensures Valid() && guards == old(guards) + {g} && open == old(open) + {g}
      ensures View() == State(old(connections) + 1, old(halfOpen) + 1, old(sources)[g.source := entry], old(sinceSweep))
    {
      hide Tally, PerSource;
      TallyEnters(connections, halfOpen, sources, guards, open, g, entry);
      connections := connections + 1;
      halfOpen := halfOpen + 1;
      guards, open := guards + {g}, open + {g};
      sources := sources[g.source := entry];
    }

    /** The slots of a departing connection; nothing saturates. */
    method Exit(g: Guard, half: bool)
      requires Valid() && g in guards && (half <==> g in open)
      modifies this`connections, this`halfOpen, this`sources, this`guards, this`open
      ensures Valid() && guards == old(guards) - {g} && open == old(open) - {g}
      ensures connections == old(connections) - 1 && halfOpen == old(halfOpen) - (if half then 1 else 0)
      ensures sources == if half && g.source in old(sources)
                         then old(sources)[g.source :=
                                old(sources)[g.source].(halfOpen := Less(old(sources)[g.source].halfOpen))]
                         else old(sources)
    {
      hide From, PerSource;
      if half {
        GiveBack(g);
      }
      assert g !in open;
      connections := Less(connections);
      guards := guards - {g};
    }

    /** The half-open slot, taken out of both counts. */
    method GiveBack(g: Guard)
      requires Tallied() && g in open
      modifies this`halfOpen, this`sources, this`open
      ensures Tallied() && open == old(open) - {g} && halfOpen == old(halfOpen) - 1 && g.source in old(sources)
      ensures sources == old(sources)[g.source :=
                                      old(sources)[g.source].(halfOpen := old(sources)[g.source].halfOpen - 1)]
      ensures old(sources)[g.source].halfOpen > 0
    {
      Left(open, g);
      assert g in From(open, g.source);
      halfOpen := Less(halfOpen);
      if g.source in sources {
        sources := sources[g.source := sources[g.source].(halfOpen := Less(sources[g.source].halfOpen))];
      }
      open := open - {g};
    }

    /** A source with no slot and a full bucket leaves the map. */
    method Prune(key: Key, now: Instant)
      requires Valid() && key in sources
      modifies this`sources
      ensures Valid()
      ensures sources == if Prunable(limits, old(sources)[key], now) then old(sources) - {key}
                         else old(sources)[key := Swept(limits, old(sources)[key], now)]
    {
      hide Refill;
      if Prunable(limits, sources[key], now) {
        sources := sources - {key};
      } else {
        sources := sources[key := Swept(limits, sources[key], now)];
      }
    }

    /** The sweep counter, and the sweep when it is due. */
    method Account(now: Instant)
      requires Valid()
      modifies this`sinceSweep, this`sources
      ensures Valid() && View() == AfterSweep(limits, old(View()), now)
      ensures forall k :: k in sources ==> k in old(sources) && sources[k].halfOpen == old(sources)[k].halfOpen
    {
      hide Refill;
      sinceSweep := sinceSweep + 1;
      if sinceSweep >= SWEEP_INTERVAL {
        sinceSweep := 0;
        sources := Sweep(limits, sources, now);
      }
    }
  }

  /** A source within its cap stays within it when admitted once more. */
  ghost predicate CapKept(l: Limits) {
    forall s: State, key, now ::
      (key in s.sources ==> s.sources[key].halfOpen <= l.maxPerSource) && Admission.TryAdmit(l, s, key, now).1.None? ==>
        Admission.TryAdmit(l, s, key, now).0.sources[key].halfOpen <= l.maxPerSource
  }

  /** An absent source is admitted whatever its cap. */
  lemma AbsentIsAdmitted(l: Limits, s: State, key: Key, now: Instant)
    requires key !in s.sources && s.connections < l.maxConnections && s.halfOpen < l.maxHalfOpen && l.acceptBurst > 0
    ensures var r := Admission.TryAdmit(l, s, key, now);
            r.1.None? && key in r.0.sources && r.0.sources[key].halfOpen == 1
  {
  }

  /** The cap per source holds if and only if it is not 0. */
  lemma CapExactly(l: Limits)
    requires l.maxConnections > 0 && l.maxHalfOpen > 0 && l.acceptBurst > 0
    ensures CapKept(l) <==> l.maxPerSource > 0
  {
    hide Refill;
    if l.maxPerSource == 0 {
      AbsentIsAdmitted(l, EMPTY, 0, 0);
    }
  }

  /** What a source's half-open count is bounded by: its cap, or the one that
      a cap of 0 lets in. */
  function PerSource(l: Limits): nat { if l.maxPerSource == 0 then 1 else l.maxPerSource }

  lemma WithinCap(l: Limits)
    ensures l.maxPerSource <= PerSource(l) && 1 <= PerSource(l)
  {
  }

  /** The counts are those of the guards. */
  ghost predicate Tally(connections: nat, halfOpen: nat, sources: map<Key, Source>, guards: set<Guard>,
                        open: set<Guard>) {
    && connections == |guards| && halfOpen == |open| && open <= guards
    && forall k: Key :: |From(open, k)| == if k in sources then sources[k].halfOpen else 0
  }

  lemma TallyEnters(connections: nat, halfOpen: nat, sources: map<Key, Source>, guards: set<Guard>, open: set<Guard>,
                    g: Guard, entry: Source)
    requires Tally(connections, halfOpen, sources, guards, open) && g !in guards
    requires entry.halfOpen == (if g.source in sources then sources[g.source].halfOpen else 0) + 1
    ensures Tally(connections + 1, halfOpen + 1, sources[g.source := entry], guards + {g}, open + {g})
  {
    hide From;
    Joined(open, g);
  }

  ghost function From(open: set<Guard>, key: Key): set<Guard> { set g | g in open && g.source == key }

  lemma Joined(open: set<Guard>, g: Guard)
    requires g !in open
    ensures forall k: Key :: |From(open + {g}, k)| == |From(open, k)| + (if g.source == k then 1 else 0)
  {
    forall k: Key ensures |From(open + {g}, k)| == |From(open, k)| + (if g.source == k then 1 else 0) {
      if g.source == k {
        assert From(open + {g}, k) == From(open, k) + {g};
      } else {
        assert From(open + {g}, k) == From(open, k);
      }
    }
  }

  lemma Left(open: set<Guard>, g: Guard)
    requires g in open
    ensures forall k: Key :: |From(open - {g}, k)| == |From(open, k)| - (if g.source == k then 1 else 0)
  {
    Joined(open - {g}, g);
    assert open - {g} + {g} == open;
  }

  lemma Overwritten(m: map<Key, Source>, k: Key, x: Source, y: Source)
    ensures m[k := x][k := y] == m[k := y] && m[k := x] - {k} == m - {k}
  {
  }

  class Guard {
    const shared: Shared
    const source: Key
    var authenticated: bool
    /** The flag is swapped and the locked release still to come. */
    var releasing: bool

    constructor (shared: Shared, source: Key)
      ensures this.shared == shared && this.source == source && !authenticated && !releasing
    {
      this.shared, this.source, authenticated, releasing := shared, source, false, false;
    }

    ghost predicate Alive()
      reads this, shared, shared.guards
    {
      shared.Valid() && this in shared.guards
    }

    /** The atomic swap: only the first caller goes on to release. */
    method Swap() returns (first: bool)
      requires Alive()
      modifies this
      ensures Alive() && authenticated && first == !old(authenticated)
      ensures releasing == (first || old(releasing)) && shared.View() == old(shared.View())
    {
      first := !authenticated;
      if first {
        authenticated, releasing := true, true;
      }
    }

    /** The locked release of the half-open slot; nothing saturates. */
    method Release()
      requires Alive() && releasing
      modifies this`releasing, shared
      ensures Alive() && !releasing && shared.View() == Admission.Release(old(shared.View()), source)
      ensures shared.halfOpen == old(shared.halfOpen) - 1 && shared.connections == old(shared.connections)
      ensures source in shared.sources && shared.sources[source].halfOpen == old(shared.sources)[source].halfOpen - 1
      ensures shared.open == old(shared.open) - {this} && shared.guards == old(shared.guards)
    {
      shared.GiveBack(this);
      releasing := false;
    }

    /** Dropping the guard, with no release under way. */
    method Drop(now: Instant)
      requires Alive() && !releasing
      modifies shared
      ensures shared.Valid() && shared.View() == Depart(shared.limits, old(shared.View()), source, !authenticated, now)
      ensures shared.guards == old(shared.guards) - {this} && shared.open == old(shared.open) - {this}
      ensures shared.connections == old(shared.connections) - 1
      ensures shared.halfOpen == old(shared.halfOpen) - (if authenticated then 0 else 1)
    {
      hide Refill, From, Prunable, Swept, PerSource;
      var half := !authenticated;
      ghost var was := shared.sources;
      shared.Exit(this, half);
      if source in shared.sources {
        ghost var entry := shared.sources[source];
        Overwritten(was, source, entry, Swept(shared.limits, entry, now));
        shared.Prune(source, now);
      }
    }
  }

  /** What any thread may do next: an arrival, one of the two halves of
      marking a guard authenticated, or dropping it. */
  datatype Choice = Arrives(key: Key, now: Instant) | Swaps(k: nat) | Releases(k: nat) | Leaves(k: nat, now: Instant)

  /** Guards alive, each once. */
  predicate Distinct(gs: seq<Guard>) { forall j, k :: 0 <= j < k < |gs| ==> gs[j] != gs[k] }

  lemma Removed(gs: seq<Guard>, k: nat)
    requires k < |gs| && Distinct(gs)
    ensures var rest := gs[..k] + gs[k + 1..];
            Distinct(rest) && forall i :: 0 <= i < |rest| ==> rest[i] in gs && rest[i] != gs[k]
  {
  }

  method Arrival(shared: Shared, gs: seq<Guard>, key: Key, now: Instant) returns (next: seq<Guard>)
    requires shared.Valid() && Distinct(gs) && forall g :: g in gs ==> g in shared.guards
    modifies shared
    ensures shared.Valid() && Distinct(next) && forall g :: g in next ==> g in shared.guards
    ensures forall g :: g in shared.guards ==> g in old(shared.guards) || fresh(g)
  {
    hide Admission.TryAdmit, From, PerSource;
    var g, _ := shared.TryAdmit(key, now);
    next := if g.Some? then gs + [g.value] else gs;
  }

  method Departure(shared: Shared, gs: seq<Guard>, k: nat, now: Instant) returns (next: seq<Guard>)
    requires shared.Valid() && Distinct(gs) && (forall g :: g in gs ==> g in shared.guards) && k < |gs|
             && !gs[k].releasing
    modifies shared
    ensures shared.Valid() && Distinct(next) && forall g :: g in next ==> g in shared.guards
    ensures shared.guards <= old(shared.guards)
  {
    hide Depart, From, PerSource;
    gs[k].Drop(now);
    Removed(gs, k);
    next := gs[..k] + gs[k + 1..];
  }

  /** Every interleaving keeps every count equal to its guards, within its cap. */
  method AnyRun(limits: Limits, choices: seq<Choice>) returns (shared: Shared)
    ensures fresh(shared) && shared.Valid()
  {
    hide Admission.Release, Depart, From, PerSource, Distinct;
    shared := new Shared(limits);
    var gs: seq<Guard> := [];
    NoneTwice();
    for i := 0 to |choices|
      invariant fresh(shared) && shared.Valid() && Distinct(gs)
      invariant forall g :: g in shared.guards ==> fresh(g)
      invariant forall g :: g in gs ==> g in shared.guards
    {
      match choices[i]
      case Arrives(key, now) => gs := Arrival(shared, gs, key, now);
      case Swaps(k) =>
        if k < |gs| {
          assert gs[k] in gs;
          var _ := gs[k].Swap();
        }
      case Releases(k) =>
        if k < |gs| && gs[k].releasing {
          assert gs[k] in gs;
          gs[k].Release();
        }
      case Leaves(k, now) =>
        if k < |gs| && !gs[k].releasing {
          gs := Departure(shared, gs, k, now);
        }
    }
  }

  lemma NoneTwice()
    ensures Distinct([])
  {
  }
}
