/** Admission control (`admission.rs`): the token bucket and the counters, as
functions on the shared state, one per locked section. Instants are
nanoseconds. */
module Admission {
  import opened Wire

  const TICK: nat := 1_000_000          // nanoseconds in a millisecond
  const SWEEP_INTERVAL: nat := 64
  const U64_MAX: nat := 0xffff_ffff_ffff_ffff

  type Instant = nat
  type Key = nat

  datatype Limits = Limits(maxConnections: nat, maxHalfOpen: nat, maxPerSource: nat, acceptRate: U32, acceptBurst: U32)

  datatype Refusal = MaxConnections | MaxHalfOpen | MaxPerSource | AcceptRate

  datatype Bucket = Bucket(level: U32, refilledAt: Instant)

  datatype Source = Source(halfOpen: nat, bucket: Bucket)

  datatype State = State(connections: nat, halfOpen: nat, sources: map<Key, Source>, sinceSweep: nat)

  const EMPTY: State := State(0, 0, map[], 0)

  // ---- the bucket ----

  function Min(a: nat, b: nat): nat { if a <= b then a else b }

  function FullBucket(l: Limits, now: Instant): Bucket { Bucket(l.acceptBurst, now) }

  function ElapsedMs(b: Bucket, now: Instant): nat {
    if now < b.refilledAt then 0 else Min((now - b.refilledAt) / TICK, U64_MAX)
  }

  /** Whole tokens since the last accounting, in saturating u64 arithmetic. */
  function Added(l: Limits, b: Bucket, now: Instant): nat { Min(ElapsedMs(b, now) * l.acceptRate, U64_MAX) / 1000 }

  function Refill(l: Limits, b: Bucket, now: Instant): Bucket {
    var added := Added(l, b, now);
    if added == 0 then b
    else
      var level := Min(Min(b.level + Min(added, l.acceptBurst), 0xffff_ffff), l.acceptBurst);
      if level == l.acceptBurst then Bucket(level, now)
      else
        assert l.acceptRate > 0;
        Bucket(level, b.refilledAt + Min(added * 1000, U64_MAX) / l.acceptRate * TICK)
  }

  // ---- the shared state ----

  /** One entry under the sweep: kept while it holds a slot or its bucket is
      still filling. Looking refills the bucket. */
  function Swept(l: Limits, s: Source, now: Instant): Source {
    if s.halfOpen > 0 then s else s.(bucket := Refill(l, s.bucket, now))
  }

  predicate Prunable(l: Limits, s: Source, now: Instant) {
    s.halfOpen == 0 && Refill(l, s.bucket, now).level == l.acceptBurst
  }

  function Sweep(l: Limits, sources: map<Key, Source>, now: Instant): map<Key, Source> {
    map k | k in sources && !Prunable(l, sources[k], now) :: Swept(l, sources[k], now)
  }

  /** The caps, in order; nothing is touched. */
  function Capped(l: Limits, s: State, key: Key): Option<Refusal> {
    if s.connections >= l.maxConnections then Some(MaxConnections)
    else if s.halfOpen >= l.maxHalfOpen then Some(MaxHalfOpen)
    else if key in s.sources && s.sources[key].halfOpen >= l.maxPerSource then Some(MaxPerSource)
    else None
  }

  function AfterSweep(l: Limits, s: State, now: Instant): State {
    if s.sinceSweep + 1 >= SWEEP_INTERVAL then s.(sources := Sweep(l, s.sources, now), sinceSweep := 0)
    else s.(sinceSweep := s.sinceSweep + 1)
  }

  function EntryOf(l: Limits, s: State, key: Key, now: Instant): Source {
    if key in s.sources then s.sources[key] else Source(0, FullBucket(l, now))
  }

  /** `try_admit`. */
  function TryAdmit(l: Limits, s0: State, key: Key, now: Instant): (State, Option<Refusal>) {
    var capped := Capped(l, s0, key);
    if capped.Some? then (s0, capped)
    else
      var s := AfterSweep(l, s0, now);
      var entry := EntryOf(l, s, key, now);
      var bucket := Refill(l, entry.bucket, now);
      if bucket.level == 0 then (s.(sources := s.sources[key := entry.(bucket := bucket)]), Some(AcceptRate))
      else
        (State(s.connections + 1, s.halfOpen + 1,
               s.sources[key := Source(entry.halfOpen + 1, bucket.(level := bucket.level - 1))], s.sinceSweep), None)
  }

  function Less(n: nat): nat { if n == 0 then 0 else n - 1 }

  /** The locked half of `mark_authenticated`. */
  function Release(s: State, key: Key): State {
    s.(halfOpen := Less(s.halfOpen),
       sources := if key in s.sources then s.sources[key := s.sources[key].(halfOpen := Less(s.sources[key].halfOpen))]
                  else s.sources)
  }

  /** Dropping a guard; `half` when it never authenticated. */
  function Depart(l: Limits, s: State, key: Key, half: bool, now: Instant): State {
    var s := s.(connections := Less(s.connections), halfOpen := if half then Less(s.halfOpen) else s.halfOpen);
    if key !in s.sources then s
    else
      var entry := s.sources[key].(halfOpen := if half then Less(s.sources[key].halfOpen) else s.sources[key].halfOpen);
      if Prunable(l, entry, now) then s.(sources := s.sources - {key})
      else s.(sources := s.sources[key := Swept(l, entry, now)])
  }
}
