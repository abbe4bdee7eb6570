/** How often the token bucket of `admission.rs` lets one source in: the bound a
rate limiter promises, and exactly when this one keeps it. */
module AdmissionRate {
  import opened Wire
  import opened Admission

  // ---- arithmetic ----

  lemma Distribute(a: nat, b: nat, c: nat)
    ensures (a + b) * c == a * c + b * c
  {
  }

  lemma Monotone(a: nat, b: nat, c: nat)
    requires a <= b
    ensures a * c <= b * c
  {
  }

  /** A quotient is determined by its remainder. */
  lemma Quotient(x: nat, c: nat, q: nat, r: nat)
    requires c > 0 && x == q * c + r && r < c
    ensures x / c == q && x % c == r
  {
    var p, m := x / c, x % c;
    assert x == p * c + m;
    if q > p {
      Distribute(p, q - p, c);
      Monotone(1, q - p, c);
    } else if q < p {
      Distribute(q, p - q, c);
      Monotone(1, p - q, c);
    }
  }

  lemma QuotientMonotone(x: nat, y: nat, c: nat)
    requires c > 0 && x <= y
    ensures x / c <= y / c
  {
    var p, q := x / c, y / c;
    assert x == p * c + x % c && y == q * c + y % c;
    if p > q {
      Distribute(q, p - q, c);
      Monotone(1, p - q, c);
    }
  }

  /** Whole units taken out of a span. */
  lemma QuotientLess(x: nat, c: nat, q: nat)
    requires c > 0 && q * c <= x
    ensures (x - q * c) / c + q == x / c
  {
    var p, m := (x - q * c) / c, (x - q * c) % c;
    Distribute(p, q, c);
    Quotient(x, c, p + q, m);
  }

  /** A span cut in two holds no fewer units than its parts. */
  lemma QuotientSum(x: nat, y: nat, c: nat)
    requires c > 0
    ensures x / c + y / c <= (x + y) / c
  {
    var q := x / c;
    assert q * c <= x;
    QuotientLess(x + y, c, q);
    QuotientMonotone(y, x + y - q * c, c);
  }

  /** Units of `p` ticks are units of `p` whole milliseconds. */
  lemma QuotientOfQuotient(gap: nat, p: nat)
    requires p > 0
    ensures gap / (p * TICK) == gap / TICK / p && p * TICK > 0
  {
    var g, t := gap / TICK, gap % TICK;
    var x, m := g / p, g % p;
    assert g == x * p + m && gap == g * TICK + t;
    assert gap == x * (p * TICK) + (m * TICK + t);
    assert m * TICK + t < p * TICK;
    Quotient(gap, p * TICK, x, m * TICK + t);
  }

  // ---- what a refill does ----

  /** Whole tokens since the last accounting, in exact arithmetic. */
  function Due(l: Limits, b: Bucket, now: Instant): nat
    requires b.refilledAt <= now
  {
    (now - b.refilledAt) / TICK * l.acceptRate / 1000
  }

  /** The saturating count is the exact one unless both are over any burst. */
  lemma AddedIsDue(l: Limits, b: Bucket, now: Instant)
    requires l.acceptRate > 0 && b.refilledAt <= now
    ensures Added(l, b, now) == Due(l, b, now) || (Added(l, b, now) > 0xffff_ffff && Due(l, b, now) > 0xffff_ffff)
  {
    var g := (now - b.refilledAt) / TICK;
    var ms := Min(g, U64_MAX);
    Monotone(ms, g, l.acceptRate);
    Monotone(1, l.acceptRate, ms);
    assert 1 * ms == ms && l.acceptRate * ms == ms * l.acceptRate;
    if ms * l.acceptRate < U64_MAX {
      assert ms == g;
    } else {
      assert Added(l, b, now) == U64_MAX / 1000;
      QuotientMonotone(U64_MAX, g * l.acceptRate, 1000);
    }
  }

  lemma AddedGrows(l: Limits, b: Bucket, now: Instant, later: Instant)
    requires now <= later
    ensures Added(l, b, now) <= Added(l, b, later)
  {
    if now >= b.refilledAt {
      QuotientMonotone(now - b.refilledAt, later - b.refilledAt, TICK);
    }
    var x, y := ElapsedMs(b, now), ElapsedMs(b, later);
    Monotone(x, y, l.acceptRate);
    QuotientMonotone(Min(x * l.acceptRate, U64_MAX), Min(y * l.acceptRate, U64_MAX), 1000);
  }

  lemma StaysFull(l: Limits, b: Bucket, now: Instant, later: Instant)
    requires now <= later && Refill(l, b, now).level == l.acceptBurst
    ensures Refill(l, b, later).level == l.acceptBurst
  {
    AddedGrows(l, b, now, later);
    hide Added;
  }

  lemma NewIsFull(l: Limits, now: Instant, later: Instant)
    requires now <= later
    ensures Refill(l, FullBucket(l, now), later).level == l.acceptBurst
  {
    hide Added;
  }

  /** An entry that a new one could replace: it holds no slot, and would be as full
      as the new one now and at every later instant. */
  ghost predicate AsNew(l: Limits, s: Source, now: Instant) {
    && s.halfOpen == 0
    && forall later: Instant :: later >= now ==>
         Refill(l, s.bucket, later).level == Refill(l, FullBucket(l, now), later).level
  }

  lemma PrunedIsAsNew(l: Limits, s: Source, now: Instant)
    ensures Prunable(l, s, now) <==> AsNew(l, s, now)
  {
    hide Refill;
    NewIsFull(l, now, now);
    if Prunable(l, s, now) {
      forall later: Instant | later >= now
        ensures Refill(l, s.bucket, later).level == Refill(l, FullBucket(l, now), later).level
      {
        StaysFull(l, s.bucket, now, later);
        NewIsFull(l, now, later);
      }
    }
  }

  /** The sweep and a departure drop exactly the entries nobody would miss. */
  lemma DropsExactly(l: Limits, s: State, now: Instant, key: Key, other: Key, half: bool)
    ensures key in Sweep(l, s.sources, now) <==> key in s.sources && !AsNew(l, s.sources[key], now)
    ensures var entry := if key in s.sources then s.sources[key] else Source(0, FullBucket(l, now));
            var left := if half then entry.(halfOpen := Less(entry.halfOpen)) else entry;
            key in Depart(l, s, key, half, now).sources <==> key in s.sources && !AsNew(l, left, now)
    ensures other != key ==> (other in Depart(l, s, key, half, now).sources <==> other in s.sources)
  {
    hide Refill, AsNew;
    if key in s.sources {
      PrunedIsAsNew(l, s.sources[key], now);
      PrunedIsAsNew(l, if half then s.sources[key].(halfOpen := Less(s.sources[key].halfOpen)) else s.sources[key],
                    now);
    }
  }

  /** The three ways a refill goes; saturation never shows. */
  lemma RefillIsExact(l: Limits, b: Bucket, now: Instant)
    requires l.acceptRate > 0 && b.refilledAt <= now && b.level <= l.acceptBurst
    ensures var x, r := Due(l, b, now), Refill(l, b, now);
            if x == 0 then r == b
            else if b.level + x >= l.acceptBurst then r == Bucket(l.acceptBurst, now)
            else r == Bucket(b.level + x, b.refilledAt + x * 1000 / l.acceptRate * TICK)
  {
    AddedIsDue(l, b, now);
    hide Added, Due;
  }

  // ---- paces ----

  type Span = x: nat | x > 0 witness 1

  /** `tokens` every `span` nanoseconds. */
  datatype Pace = Pace(tokens: nat, span: Span)

  /** A refill changes nothing within a span, adds whole spans' tokens and
      moves the clock by those spans, or fills the bucket when they suffice. */
  predicate KeepsPace(l: Limits, p: Pace, b: Bucket, now: Instant)
    requires b.refilledAt <= now
  {
    var r, q := Refill(l, b, now), (now - b.refilledAt) / p.span;
    || (r == b && now - b.refilledAt < p.span)
    || (r == Bucket(l.acceptBurst, now) && b.level + p.tokens * q >= l.acceptBurst)
    || (r.level == b.level + p.tokens * q < l.acceptBurst && r.refilledAt == b.refilledAt + q * p.span)
  }

  ghost predicate Paced(l: Limits, p: Pace) {
    forall b: Bucket, now: Instant :: b.refilledAt <= now && b.level <= l.acceptBurst ==>
      KeepsPace(l, p, b, now)
  }

  /** The tokens a bucket can still give by the instant `end`. */
  function Left(p: Pace, b: Bucket, end: Instant): nat
    requires b.refilledAt <= end
  {
    b.level + p.tokens * ((end - b.refilledAt) / p.span)
  }

  function FullLeft(l: Limits, p: Pace, now: Instant, end: Instant): nat
    requires now <= end
  {
    l.acceptBurst + p.tokens * ((end - now) / p.span)
  }

  /** Refilling never lets a bucket give more, and leaves less than one span
      unaccounted. */
  lemma RefillLeft(l: Limits, p: Pace, b: Bucket, now: Instant, end: Instant)
    requires Paced(l, p) && b.refilledAt <= now <= end && b.level <= l.acceptBurst
    ensures var r := Refill(l, b, now);
            && r.level <= l.acceptBurst && r.refilledAt <= now && now - r.refilledAt < p.span
            && Left(p, r, end) <= Left(p, b, end)
            && (r.level == l.acceptBurst ==> FullLeft(l, p, now, end) <= Left(p, b, end))
  {
    var r, q := Refill(l, b, now), (now - b.refilledAt) / p.span;
    assert KeepsPace(l, p, b, now);
    ExactLeft(p.tokens, p.span, b.level, now - b.refilledAt, end - now);
    hide Refill, Paced, Left, FullLeft;
    if r.level == b.level + p.tokens * q < l.acceptBurst && r.refilledAt == b.refilledAt + q * p.span {
      LeftExact(p, b, r, now, end);
    } else if r == b {
      LeftWhenFull(l, p, b, now, end);
    } else {
      LeftFilled(l, p, b, now, end);
      LeftOfFull(l, p, now, end);
    }
  }

  lemma LeftOfFull(l: Limits, p: Pace, now: Instant, end: Instant)
    requires now <= end
    ensures Left(p, Bucket(l.acceptBurst, now), end) == FullLeft(l, p, now, end)
  {
  }

  lemma LeftWhenFull(l: Limits, p: Pace, b: Bucket, now: Instant, end: Instant)
    requires b.refilledAt <= now <= end
    ensures b.level == l.acceptBurst ==> FullLeft(l, p, now, end) <= Left(p, b, end)
  {
    QuotientMonotone(end - now, end - b.refilledAt, p.span);
    Monotone((end - now) / p.span, (end - b.refilledAt) / p.span, p.tokens);
  }

  lemma LeftFilled(l: Limits, p: Pace, b: Bucket, now: Instant, end: Instant)
    requires b.refilledAt <= now <= end && b.level + p.tokens * ((now - b.refilledAt) / p.span) >= l.acceptBurst
    ensures FullLeft(l, p, now, end) <= Left(p, b, end)
  {
    FilledLeft(p.tokens, p.span, b.level, l.acceptBurst, now - b.refilledAt, end - now);
  }

  lemma LeftExact(p: Pace, b: Bucket, r: Bucket, now: Instant, end: Instant)
    requires b.refilledAt <= now <= end
    requires var q := (now - b.refilledAt) / p.span;
             r.level == b.level + p.tokens * q && r.refilledAt == b.refilledAt + q * p.span
    ensures r.refilledAt <= now && Left(p, r, end) == Left(p, b, end)
  {
    var gap, late := now - b.refilledAt, end - now;
    var moved := gap / p.span * p.span;
    ExactLeft(p.tokens, p.span, b.level, gap, late);
    var x := gap + late;
    assert end - r.refilledAt == x - moved && end - b.refilledAt == x;
    assert Left(p, b, end) == b.level + p.tokens * (x / p.span);
    assert Left(p, r, end) == r.level + p.tokens * ((x - moved) / p.span);
    hide Left;
  }

  /** Filling up gives up nothing the spans so far had not earned. */
  lemma FilledLeft(k: nat, c: nat, level: nat, burst: nat, gap: nat, late: nat)
    requires c > 0 && level + k * (gap / c) >= burst
    ensures burst + k * (late / c) <= level + k * ((gap + late) / c)
  {
    QuotientSum(gap, late, c);
    Shares(k, gap / c, late / c, (gap + late) / c);
  }

  lemma Shares(k: nat, x: nat, y: nat, z: nat)
    requires x + y <= z
    ensures k * x + k * y <= k * z
  {
    Distribute(x, y, k);
    Monotone(x + y, z, k);
  }

  /** Moving the clock by whole spans and adding their tokens is exact. */
  lemma ExactLeft(k: nat, c: nat, level: nat, gap: nat, late: nat)
    requires c > 0
    ensures var q := gap / c;
            && q * c <= gap && gap - q * c < c
            && level + k * q + k * ((gap + late - q * c) / c) == level + k * ((gap + late) / c)
  {
    var q := gap / c;
    assert gap == q * c + gap % c;
    QuotientLess(gap + late, c, q);
    Distribute((gap + late - q * c) / c, q, k);
  }

  // ---- every run ----

  datatype Op =
    | Arrive(key: Key, at: Instant)
    | Mark(key: Key)
    | Leave(key: Key, half: bool, at: Instant)

  function Step(l: Limits, s: State, op: Op): State {
    match op
    case Arrive(key, at) => TryAdmit(l, s, key, at).0
    case Mark(key) => Release(s, key)
    case Leave(key, half, at) => Depart(l, s, key, half, at)
  }

  predicate Admits(l: Limits, s: State, op: Op, key: Key) {
    op.Arrive? && op.key == key && TryAdmit(l, s, key, op.at).1.None?
  }

  function TimeOf(op: Op, clock: Instant): Instant { if op.Mark? then clock else op.at }

  function RunOps(l: Limits, s: State, ops: seq<Op>): State
    decreases |ops|
  {
    if ops == [] then s else RunOps(l, Step(l, s, ops[0]), ops[1..])
  }

  /** Admissions of one source in a run. */
  function Admissions(l: Limits, s: State, ops: seq<Op>, key: Key): nat
    decreases |ops|
  {
    if ops == [] then 0
    else (if Admits(l, s, ops[0], key) then 1 else 0) + Admissions(l, Step(l, s, ops[0]), ops[1..], key)
  }

  /** Instants do not go backwards and stay in a window. */
  predicate Timed(ops: seq<Op>, from: Instant, to: Instant)
    decreases |ops|
  {
    from <= to && (ops != [] ==> from <= TimeOf(ops[0], from) && Timed(ops[1..], TimeOf(ops[0], from), to))
  }

  lemma TimedHead(ops: seq<Op>, from: Instant, to: Instant)
    requires ops != [] && Timed(ops, from, to)
    ensures from <= TimeOf(ops[0], from) <= to && Timed(ops[1..], TimeOf(ops[0], from), to)
  {
  }

  ghost predicate Sane(l: Limits, s: State, now: Instant) {
    forall k :: k in s.sources ==> s.sources[k].bucket.level <= l.acceptBurst && s.sources[k].bucket.refilledAt <= now
  }

  /** The tokens a source can still get by `end`; an absent entry stands for a
      full bucket. */
  function Pot(l: Limits, p: Pace, s: State, key: Key, now: Instant, end: Instant): nat
    requires now <= end && (key in s.sources ==> s.sources[key].bucket.refilledAt <= end)
  {
    if key in s.sources then Left(p, s.sources[key].bucket, end) else FullLeft(l, p, now, end)
  }

  lemma PotLater(l: Limits, p: Pace, s: State, key: Key, now: Instant, later: Instant, end: Instant)
    requires Sane(l, s, now) && now <= later <= end
    ensures Sane(l, s, later) && Pot(l, p, s, key, later, end) <= Pot(l, p, s, key, now, end)
  {
    QuotientMonotone(end - later, end - now, p.span);
    Monotone((end - later) / p.span, (end - now) / p.span, p.tokens);
  }

  /** Refilling one entry, or pruning it when full, lets it give no more. */
  lemma SweptPot(l: Limits, p: Pace, s: Source, now: Instant, end: Instant)
    requires Paced(l, p) && s.bucket.level <= l.acceptBurst && s.bucket.refilledAt <= now <= end
    ensures var r := Swept(l, s, now).bucket;
            r.level <= l.acceptBurst && r.refilledAt <= now && Left(p, r, end) <= Left(p, s.bucket, end)
    ensures Prunable(l, s, now) ==> FullLeft(l, p, now, end) <= Left(p, s.bucket, end)
  {
    hide Paced;
    RefillLeft(l, p, s.bucket, now, end);
    hide Refill, Left, FullLeft;
  }

  lemma SweepPot(l: Limits, p: Pace, s: State, key: Key, now: Instant, end: Instant)
    requires Paced(l, p) && Sane(l, s, now) && now <= end
    ensures var r := AfterSweep(l, s, now);
            Sane(l, r, now) && Pot(l, p, r, key, now, end) <= Pot(l, p, s, key, now, end)
  {
    hide Paced, Swept, Prunable, Left, FullLeft;
    forall k | k in s.sources
      ensures var r := Swept(l, s.sources[k], now).bucket; r.level <= l.acceptBurst && r.refilledAt <= now
    {
      SweptPot(l, p, s.sources[k], now, end);
    }
    if key in s.sources {
      SweptPot(l, p, s.sources[key], now, end);
    }
  }

  /** An arrival: an admission takes one token, and what is left then is bounded
      by a full bucket and the spans that end in the window. */
  lemma ArrivePot(l: Limits, p: Pace, s: State, op: Op, key: Key, end: Instant)
    requires Paced(l, p) && op.Arrive? && Sane(l, s, op.at) && op.at <= end
    ensures var r, n := Step(l, s, op), if Admits(l, s, op, key) then 1 else 0;
            && Sane(l, r, op.at) && Pot(l, p, r, key, op.at, end) + n <= Pot(l, p, s, key, op.at, end)
            && (n == 1 ==> Pot(l, p, r, key, op.at, end) + 1 <= Most(l, p, end - op.at))
  {
    hide Paced, Refill, AfterSweep, Capped, Left, FullLeft, Most;
    if Capped(l, s, op.key).None? {
      SweepPot(l, p, s, key, op.at, end);
      var m := AfterSweep(l, s, op.at);
      var entry := EntryOf(l, m, op.key, op.at);
      RefillLeft(l, p, entry.bucket, op.at, end);
      LeftOfFull(l, p, op.at, end);
      var bucket := Refill(l, entry.bucket, op.at);
      LeftAtMost(l, p, bucket, op.at, end);
      TakenLeft(p, bucket, end);
    }
  }

  lemma TakenLeft(p: Pace, b: Bucket, end: Instant)
    requires b.refilledAt <= end
    ensures b.level > 0 ==> Left(p, b.(level := b.level - 1), end) + 1 == Left(p, b, end)
  {
  }

  lemma LeftAtMost(l: Limits, p: Pace, b: Bucket, now: Instant, end: Instant)
    requires b.refilledAt <= now <= end && now - b.refilledAt < p.span && b.level <= l.acceptBurst
    ensures Left(p, b, end) <= Most(l, p, end - now)
  {
    QuotientMonotone(end - b.refilledAt, end - now + p.span - 1, p.span);
    Monotone((end - b.refilledAt) / p.span, (end - now + p.span - 1) / p.span, p.tokens);
  }

  lemma LeavePot(l: Limits, p: Pace, s: State, op: Op, key: Key, end: Instant)
    requires Paced(l, p) && op.Leave? && Sane(l, s, op.at) && op.at <= end
    ensures var r := Step(l, s, op); Sane(l, r, op.at) && Pot(l, p, r, key, op.at, end) <= Pot(l, p, s, key, op.at, end)
  {
    hide Paced, Swept, Prunable, Left, FullLeft;
    if op.key in s.sources {
      var entry := s.sources[op.key].(halfOpen :=
        if op.half then Less(s.sources[op.key].halfOpen) else s.sources[op.key].halfOpen);
      SweptPot(l, p, entry, op.at, end);
    }
  }

  lemma StepPot(l: Limits, p: Pace, s: State, op: Op, key: Key, clock: Instant, end: Instant)
    requires Paced(l, p) && Sane(l, s, clock) && clock <= TimeOf(op, clock) <= end
    ensures var r, at, n := Step(l, s, op), TimeOf(op, clock), if Admits(l, s, op, key) then 1 else 0;
            && Sane(l, r, at) && Pot(l, p, r, key, at, end) + n <= Pot(l, p, s, key, clock, end)
            && (n == 1 ==> Pot(l, p, r, key, at, end) + 1 <= Most(l, p, end - at))
  {
    hide Paced;
    PotLater(l, p, s, key, clock, TimeOf(op, clock), end);
    match op
    case Arrive(_, _) => ArrivePot(l, p, s, op, key, end);
    case Mark(_) =>
    case Leave(_, _, _) => LeavePot(l, p, s, op, key, end);
    hide TryAdmit, Depart, Left, FullLeft;
  }

  lemma {:induction false} CountBound(l: Limits, p: Pace, s: State, ops: seq<Op>, key: Key, from: Instant, end: Instant)
    requires Paced(l, p) && Sane(l, s, from) && Timed(ops, from, end)
    ensures Admissions(l, s, ops, key) <= Pot(l, p, s, key, from, end)
    decreases |ops|
  {
    hide Paced, Step, Admits, Pot, Sane, Timed;
    if ops != [] {
      TimedHead(ops, from, end);
      StepPot(l, p, s, ops[0], key, from, end);
      CountBound(l, p, Step(l, s, ops[0]), ops[1..], key, TimeOf(ops[0], from), end);
    }
  }

  lemma {:induction false} FirstBound(l: Limits, p: Pace, s: State, ops: seq<Op>, key: Key, from: Instant, end: Instant)
    requires Paced(l, p) && Sane(l, s, from) && from <= end && Timed(ops, from, end)
    ensures Admissions(l, s, ops, key) <= Most(l, p, end - from)
    decreases |ops|
  {
    hide Paced, Step, Admits, Pot, Sane, Timed, Most;
    if ops != [] {
      TimedHead(ops, from, end);
      var at, r := TimeOf(ops[0], from), Step(l, s, ops[0]);
      StepPot(l, p, s, ops[0], key, from, end);
      SpansShrink(l, p, at, from, end);
      if Admits(l, s, ops[0], key) {
        CountBound(l, p, r, ops[1..], key, at, end);
      } else {
        FirstBound(l, p, r, ops[1..], key, at, end);
      }
    }
  }

  /** A full bucket and the spans that can end within `gap`. */
  function Most(l: Limits, p: Pace, gap: nat): nat { l.acceptBurst + p.tokens * ((gap + p.span - 1) / p.span) }

  lemma SpansShrink(l: Limits, p: Pace, at: Instant, from: Instant, end: Instant)
    requires from <= at <= end
    ensures Most(l, p, end - at) <= Most(l, p, end - from)
  {
    QuotientMonotone(end - at + p.span - 1, end - from + p.span - 1, p.span);
    Monotone((end - at + p.span - 1) / p.span, (end - from + p.span - 1) / p.span, p.tokens);
  }

  lemma {:induction false} RunSane(l: Limits, p: Pace, s: State, ops: seq<Op>, from: Instant, to: Instant)
    requires Paced(l, p) && Sane(l, s, from) && Timed(ops, from, to)
    ensures Sane(l, RunOps(l, s, ops), to)
    decreases |ops|
  {
    hide Paced, Step, Pot, Sane, Timed;
    if ops != [] {
      TimedHead(ops, from, to);
      StepPot(l, p, s, ops[0], 0, from, to);
      RunSane(l, p, Step(l, s, ops[0]), ops[1..], TimeOf(ops[0], from), to);
    } else {
      TimedEnds(ops, from, to);
      PotLater(l, p, s, 0, from, to, to);
    }
  }

  lemma TimedEnds(ops: seq<Op>, from: Instant, to: Instant)
    requires Timed(ops, from, to)
    ensures from <= to
  {
  }

  /** At a pace, any window of any run admits a full bucket and the spans that
      can end in it, whatever is swept, pruned or created anew meanwhile. */
  lemma PacedBound(l: Limits, p: Pace, before: seq<Op>, window: seq<Op>, key: Key, start: Instant, from: Instant,
                   w: nat)
    requires Paced(l, p) && Timed(before, start, from) && Timed(window, from, from + w * TICK)
    ensures Admissions(l, RunOps(l, EMPTY, before), window, key) <= Most(l, p, w * TICK)
  {
    hide Paced, Timed, RunOps, Admissions;
    RunSane(l, p, EMPTY, before, start, from);
    FirstBound(l, p, RunOps(l, EMPTY, before), window, key, from, from + w * TICK);
  }

  // ---- the paces there are ----

  /** A token every 1000 / rate milliseconds. */
  lemma DividingIsPaced(l: Limits, n: nat)
    requires l.acceptRate > 0 && n * l.acceptRate == 1000
    ensures n > 0 && Paced(l, Pace(1, n * TICK))
  {
    WholeTokens(l.acceptRate, n, 0);
    forall b: Bucket, now: Instant | b.refilledAt <= now && b.level <= l.acceptBurst
      ensures KeepsPace(l, Pace(1, n * TICK), b, now)
    {
      DividingRefill(l, n, b, now);
    }
  }

  lemma DividingRefill(l: Limits, n: nat, b: Bucket, now: Instant)
    requires l.acceptRate > 0 && n > 0 && n * l.acceptRate == 1000 && b.refilledAt <= now && b.level <= l.acceptBurst
    ensures KeepsPace(l, Pace(1, n * TICK), b, now)
  {
    var gap, x := now - b.refilledAt, Due(l, b, now);
    RefillIsExact(l, b, now);
    QuotientOfQuotient(gap, n);
    WholeTokens(l.acceptRate, n, gap / TICK);
    hide Refill, Due;
    assert x == gap / (n * TICK);
    TokenTime(l.acceptRate, n, x);
    if x == 0 {
      assert gap == 0 * (n * TICK) + gap % (n * TICK);
    }
  }

  lemma TokenTime(rate: nat, n: nat, x: nat)
    requires rate > 0 && n * rate == 1000
    ensures x * 1000 / rate * TICK == x * (n * TICK)
  {
    assert x * 1000 == x * n * rate;
    Quotient(x * 1000, rate, x * n, 0);
  }

  lemma WholeTokens(rate: nat, n: nat, ms: nat)
    requires rate > 0 && n * rate == 1000
    ensures n > 0 && ms * rate / 1000 == ms / n
  {
    var q, m := ms / n, ms % n;
    assert ms == q * n + m;
    assert ms * rate == q * 1000 + m * rate;
    assert m * rate < n * rate;
    Quotient(ms * rate, 1000, q, m * rate);
  }

  /** rate / 1000 tokens every millisecond. */
  lemma MultipleIsPaced(l: Limits, k: nat)
    requires k > 0 && l.acceptRate == 1000 * k
    ensures Paced(l, Pace(k, TICK))
  {
    forall b: Bucket, now: Instant | b.refilledAt <= now && b.level <= l.acceptBurst
      ensures KeepsPace(l, Pace(k, TICK), b, now)
    {
      MultipleRefill(l, k, b, now);
    }
  }

  lemma MultipleRefill(l: Limits, k: nat, b: Bucket, now: Instant)
    requires k > 0 && l.acceptRate == 1000 * k && b.refilledAt <= now && b.level <= l.acceptBurst
    ensures KeepsPace(l, Pace(k, TICK), b, now)
  {
    var g, x := (now - b.refilledAt) / TICK, Due(l, b, now);
    RefillIsExact(l, b, now);
    MultipleTokens(g, k);
    hide Refill;
    assert x == k * g;
    Monotone(1, k, g);
  }

  lemma MultipleTokens(g: nat, k: nat)
    requires k > 0
    ensures g * (1000 * k) / 1000 == k * g && k * g * 1000 / (1000 * k) == g
  {
    assert g * (1000 * k) == k * g * 1000;
    Quotient(g * (1000 * k), 1000, k * g, 0);
    Quotient(k * g * 1000, 1000 * k, g, 0);
  }

  /** The least whole milliseconds worth a token. */
  function Wait(rate: nat): nat
    requires rate > 0
  {
    (1000 + rate - 1) / rate
  }

  lemma WaitIsLeast(rate: nat, ms: nat)
    requires rate > 0
    ensures Wait(rate) > 0 && (ms * rate >= 1000 <==> ms >= Wait(rate))
  {
    var a := Wait(rate);
    var m := (1000 + rate - 1) % rate;
    assert 1000 + rate - 1 == a * rate + m;
    if ms >= a {
      Monotone(a, ms, rate);
    } else {
      Monotone(ms + 1, a, rate);
      Distribute(ms, 1, rate);
    }
    assert a * rate > 0;
  }

  /** A bucket that one refill fills: burst tokens each time a token is due. */
  lemma SmallIsPaced(l: Limits)
    requires l.acceptRate > 0 && (l.acceptBurst <= 1 || l.acceptBurst <= l.acceptRate / 1000)
    ensures Wait(l.acceptRate) > 0 && Paced(l, Pace(l.acceptBurst, Wait(l.acceptRate) * TICK))
  {
    WaitIsLeast(l.acceptRate, 0);
    var a := Wait(l.acceptRate);
    var p := Pace(l.acceptBurst, a * TICK);
    forall b: Bucket, now: Instant | b.refilledAt <= now && b.level <= l.acceptBurst ensures KeepsPace(l, p, b, now) {
      SmallRefill(l, b, now);
    }
  }

  lemma SmallRefill(l: Limits, b: Bucket, now: Instant)
    requires l.acceptRate > 0 && (l.acceptBurst <= 1 || l.acceptBurst <= l.acceptRate / 1000)
    requires Wait(l.acceptRate) > 0 && b.refilledAt <= now && b.level <= l.acceptBurst
    ensures KeepsPace(l, Pace(l.acceptBurst, Wait(l.acceptRate) * TICK), b, now)
  {
    var a, g, x := Wait(l.acceptRate), (now - b.refilledAt) / TICK, Due(l, b, now);
    RefillIsExact(l, b, now);
    WaitIsLeast(l.acceptRate, g);
    QuotientOfQuotient(now - b.refilledAt, a);
    hide Refill, Wait;
    if g >= a {
      Monotone(1, g, l.acceptRate);
      QuotientMonotone(l.acceptRate, g * l.acceptRate, 1000);
      assert x >= 1 && x >= l.acceptRate / 1000;
      QuotientMonotone(a, g, a);
      Quotient(a, a, 1, 0);
      Monotone(1, g / a, l.acceptBurst);
      assert g / a * l.acceptBurst == l.acceptBurst * (g / a);
    } else {
      Monotone(g + 1, a, TICK);
    }
  }

  // ---- when the bound holds ----

  /** Burst + 1 + w * rate / 1000 admissions at most, in one window of a run. */
  ghost predicate WindowKept(l: Limits, before: seq<Op>, window: seq<Op>, key: Key, start: Instant, from: Instant,
                             w: nat) {
    Timed(before, start, from) && Timed(window, from, from + w * TICK) ==>
      Admissions(l, RunOps(l, EMPTY, before), window, key) <= l.acceptBurst + 1 + w * l.acceptRate / 1000
  }

  ghost predicate Bounded(l: Limits) {
    forall before, window, key, start, from: Instant, w: nat :: WindowKept(l, before, window, key, start, from, w)
  }

  /** A pace whose windows stay within the bound. */
  lemma PaceSuffices(l: Limits, p: Pace)
    requires Paced(l, p) && forall w: nat :: Most(l, p, w * TICK) <= l.acceptBurst + 1 + w * l.acceptRate / 1000
    ensures Bounded(l)
  {
    forall before, window, key, start, from: Instant, w: nat
      ensures WindowKept(l, before, window, key, start, from, w)
    {
      if Timed(before, start, from) && Timed(window, from, from + w * TICK) {
        PacedBound(l, p, before, window, key, start, from, w);
      }
    }
  }

  lemma DividingKeeps(l: Limits)
    requires l.acceptRate > 0 && 1000 % l.acceptRate == 0
    ensures Bounded(l)
  {
    var n := 1000 / l.acceptRate;
    assert n * l.acceptRate == 1000;
    DividingIsPaced(l, n);
    var p := Pace(1, n * TICK);
    hide Paced, Bounded;
    forall w: nat ensures Most(l, p, w * TICK) <= l.acceptBurst + 1 + w * l.acceptRate / 1000 {
      WholeTokens(l.acceptRate, n, w);
      SpansOf(w, n);
    }
    PaceSuffices(l, p);
  }

  /** Spans of `n` milliseconds that can end within `w`. */
  lemma SpansOf(w: nat, n: nat)
    requires n > 0
    ensures n * TICK > 0 && (w * TICK + n * TICK - 1) / (n * TICK) <= w / n + 1
    ensures n == 1 ==> (w * TICK + n * TICK - 1) / (n * TICK) == w
  {
    QuotientOfQuotient(w * TICK, n);
    Quotient(w * TICK, TICK, w, 0);
    QuotientLess(w * TICK + n * TICK, n * TICK, 1);
    QuotientMonotone(w * TICK + n * TICK - 1, w * TICK + n * TICK, n * TICK);
    if n == 1 {
      Quotient(w * TICK + TICK - 1, TICK, w, TICK - 1);
    }
  }

  lemma MultipleKeeps(l: Limits)
    requires l.acceptRate > 0 && l.acceptRate % 1000 == 0
    ensures Bounded(l)
  {
    var k := l.acceptRate / 1000;
    MultipleIsPaced(l, k);
    var p := Pace(k, TICK);
    hide Paced, Bounded;
    forall w: nat ensures Most(l, p, w * TICK) <= l.acceptBurst + 1 + w * l.acceptRate / 1000 {
      MultipleTokens(w, k);
      SpansOf(w, 1);
    }
    PaceSuffices(l, p);
  }

  lemma SmallKeeps(l: Limits)
    requires l.acceptRate > 0 && (l.acceptBurst <= 1 || l.acceptBurst <= l.acceptRate / 1000)
    ensures Bounded(l)
  {
    SmallIsPaced(l);
    var a := Wait(l.acceptRate);
    var p := Pace(l.acceptBurst, a * TICK);
    hide Paced, Bounded;
    forall w: nat ensures Most(l, p, w * TICK) <= l.acceptBurst + 1 + w * l.acceptRate / 1000 {
      SmallMost(l, w, a);
    }
    PaceSuffices(l, p);
  }

  lemma SmallMost(l: Limits, w: nat, a: nat)
    requires l.acceptRate > 0 && (l.acceptBurst <= 1 || l.acceptBurst <= l.acceptRate / 1000)
    requires a == Wait(l.acceptRate) && a * TICK > 0
    ensures Most(l, Pace(l.acceptBurst, a * TICK), w * TICK) <= l.acceptBurst + 1 + w * l.acceptRate / 1000
  {
    SmallSpans(l, w);
    hide Wait;
    SpansOf(w, a);
    var spans := (w * TICK + a * TICK - 1) / (a * TICK);
    if a == 1 {
      assert l.acceptBurst * spans == l.acceptBurst * w;
    } else {
      Monotone(spans, w / a + 1, l.acceptBurst);
      assert spans * l.acceptBurst == l.acceptBurst * spans;
      assert (w / a + 1) * l.acceptBurst == l.acceptBurst * (w / a + 1);
    }
  }

  lemma SmallSpans(l: Limits, w: nat)
    requires l.acceptRate > 0 && (l.acceptBurst <= 1 || l.acceptBurst <= l.acceptRate / 1000)
    ensures var a := Wait(l.acceptRate);
            && a > 0
            && (a == 1 ==> l.acceptBurst * w <= 1 + w * l.acceptRate / 1000)
            && (a > 1 ==> l.acceptBurst * (w / a + 1) <= 1 + w * l.acceptRate / 1000)
  {
    var r, a := l.acceptRate, Wait(l.acceptRate);
    WaitIsLeast(r, 1);
    if a == 1 {
      FastTokens(r / 1000, r, w);
      Monotone(l.acceptBurst, r / 1000, w);
    } else {
      WaitIsLeast(r, a);
      SlowTokens(a, r, w);
      Monotone(l.acceptBurst, 1, w / a + 1);
    }
  }

  lemma FastTokens(k: nat, r: nat, w: nat)
    requires k * 1000 <= r
    ensures k * w <= w * r / 1000
  {
    Monotone(k * 1000, r, w);
    assert k * w * 1000 == k * 1000 * w && r * w == w * r;
    QuotientMonotone(k * w * 1000, w * r, 1000);
    Quotient(k * w * 1000, 1000, k * w, 0);
  }

  lemma SlowTokens(a: nat, r: nat, w: nat)
    requires a > 0 && a * r >= 1000
    ensures w / a <= w * r / 1000
  {
    var q := w / a;
    assert q * a <= w;
    Monotone(q * a, w, r);
    Monotone(1000, a * r, q);
    assert a * r * q == q * a * r;
    QuotientMonotone(1000 * q, w * r, 1000);
    Quotient(1000 * q, 1000, q, 0);
  }

  // ---- short visits ----

  /** Caps that let one connection in. */
  predicate Open(l: Limits) { l.maxConnections > 0 && l.maxHalfOpen > 0 && l.maxPerSource > 0 }

  /** Nobody is connected, and the source's entry is this one, or absent. */
  predicate At(s: State, key: Key, b: Option<Bucket>) {
    && s.connections == 0 && s.halfOpen == 0
    && if b.None? then key !in s.sources else key in s.sources && s.sources[key] == Source(0, b.value)
  }

  /** `n` short connections, `gap` milliseconds apart. */
  function Visits(key: Key, at: Instant, gap: nat, n: nat): seq<Op>
    decreases n
  {
    if n == 0 then [] else [Arrive(key, at), Leave(key, true, at)] + Visits(key, at + gap * TICK, gap, n - 1)
  }

  function Visited(l: Limits, s: State, key: Key, at: Instant): State {
    Step(l, Step(l, s, Arrive(key, at)), Leave(key, true, at))
  }

  /** A visit when the bucket refills to `b`, still not full and standing. */
  lemma VisitOnce(l: Limits, s: State, key: Key, a: Bucket, b: Bucket, at: Instant)
    requires Open(l) && 0 < b.level < l.acceptBurst
    requires At(s, key, Some(a)) && Refill(l, a, at) == b && Refill(l, b, at) == b
    requires Refill(l, b.(level := b.level - 1), at) == b.(level := b.level - 1)
    ensures Admits(l, s, Arrive(key, at), key) && At(Visited(l, s, key, at), key, Some(b.(level := b.level - 1)))
  {
    hide Refill;
    var m := AfterSweep(l, s, at);
    assert key in m.sources && m.sources[key].halfOpen == 0 && Refill(l, m.sources[key].bucket, at) == b;
  }

  lemma NoTimeNoTokens(l: Limits, b: Bucket)
    ensures Refill(l, b, b.refilledAt) == b
  {
  }

  /** A visit that finds a full bucket, or none. */
  lemma VisitFull(l: Limits, s: State, key: Key, b: Option<Bucket>, at: Instant)
    requires Open(l) && l.acceptBurst > 0 && At(s, key, b)
    requires b.Some? ==> Refill(l, b.value, at) == Bucket(l.acceptBurst, at)
    ensures Admits(l, s, Arrive(key, at), key)
    ensures At(Visited(l, s, key, at), key, Some(Bucket(l.acceptBurst - 1, at)))
  {
    NoTimeNoTokens(l, Bucket(l.acceptBurst, at));
    NoTimeNoTokens(l, Bucket(l.acceptBurst - 1, at));
    hide Refill;
  }

  lemma VisitsUnfold(l: Limits, s: State, key: Key, at: Instant, gap: nat, n: nat)
    requires n > 0 && Admits(l, s, Arrive(key, at), key)
    ensures var r, rest := Visited(l, s, key, at), Visits(key, at + gap * TICK, gap, n - 1);
            && RunOps(l, s, Visits(key, at, gap, n)) == RunOps(l, r, rest)
            && Admissions(l, s, Visits(key, at, gap, n), key) == 1 + Admissions(l, r, rest, key)
  {
    var rest := Visits(key, at + gap * TICK, gap, n - 1);
    var ops := Visits(key, at, gap, n);
    assert ops[1..] == [Leave(key, true, at)] + rest && ops[1..][1..] == rest;
    hide Step, Visits;
  }

  lemma {:induction false} VisitsTimed(key: Key, at: Instant, gap: nat, n: nat, to: Instant)
    requires n > 0 ==> at + (n - 1) * gap * TICK <= to
    ensures n > 0 ==> Timed(Visits(key, at, gap, n), at, to)
    decreases n
  {
    if n > 0 {
      var ops, rest := Visits(key, at, gap, n), Visits(key, at + gap * TICK, gap, n - 1);
      assert ops[1..] == [Leave(key, true, at)] + rest && ops[1..][1..] == rest;
      assert (n - 1) * gap * TICK == gap * TICK * (n - 1);
      if n > 1 {
        assert gap * TICK * (n - 1) == gap * TICK * (n - 2) + gap * TICK;
        assert (n - 2) * gap * TICK == gap * TICK * (n - 2);
        VisitsTimed(key, at + gap * TICK, gap, n - 1, to);
        TimedEarlier(rest, at, at + gap * TICK, to);
      }
      Monotone(0, n - 1, gap * TICK);
    }
  }

  lemma TimedEarlier(ops: seq<Op>, from: Instant, later: Instant, to: Instant)
    requires from <= later && Timed(ops, later, to) && (ops != [] ==> ops[0].Arrive?)
    ensures Timed(ops, from, to)
  {
  }

  /** `n` visits at one instant are all admitted and empty the bucket. */
  predicate Empties(l: Limits, s: State, key: Key, at: Instant, n: nat) {
    var ops := Visits(key, at, 0, n);
    At(RunOps(l, s, ops), key, Some(Bucket(0, at))) && Admissions(l, s, ops, key) == n
  }

  lemma VisitFirst(l: Limits, s: State, key: Key, at: Instant, n: nat)
    requires Admits(l, s, Arrive(key, at), key) && Empties(l, Visited(l, s, key, at), key, at, n)
    ensures Empties(l, s, key, at, n + 1)
  {
    hide Visited, Admits, RunOps, Admissions, Visits, At;
    VisitsUnfold(l, s, key, at, 0, n + 1);
  }

  /** `level` visits at one instant empty the bucket. */
  lemma {:induction false} DrainRun(l: Limits, s: State, key: Key, at: Instant, level: nat)
    requires Open(l) && level < l.acceptBurst && At(s, key, Some(Bucket(level, at)))
    ensures Empties(l, s, key, at, level)
    decreases level
  {
    if level > 0 {
      NoTimeNoTokens(l, Bucket(level, at));
      NoTimeNoTokens(l, Bucket(level - 1, at));
      VisitOnce(l, s, key, Bucket(level, at), Bucket(level, at), at);
      DrainRun(l, Visited(l, s, key, at), key, at, level - 1);
      VisitFirst(l, s, key, at, level - 1);
      hide Visited, Admits, Empties, Refill;
    }
  }

  /** A full bucket gives its whole burst at one instant. */
  lemma BurstRun(l: Limits, s: State, key: Key, b: Option<Bucket>, at: Instant)
    requires Open(l) && l.acceptBurst > 0 && At(s, key, b)
    requires b.Some? ==> Refill(l, b.value, at) == Bucket(l.acceptBurst, at)
    ensures Empties(l, s, key, at, l.acceptBurst)
  {
    hide Visited, Admits, Empties, Refill;
    VisitFull(l, s, key, b, at);
    DrainRun(l, Visited(l, s, key, at), key, at, l.acceptBurst - 1);
    VisitFirst(l, s, key, at, l.acceptBurst - 1);
  }

  // ---- rates below 1000 that do not divide it ----

  /** A token takes `d` whole milliseconds and a part of one. */
  predicate Uneven(l: Limits, d: nat) {
    1 < l.acceptRate < 1000 && 1000 % l.acceptRate != 0 && d == 1000 / l.acceptRate
  }

  lemma UnevenParts(l: Limits, d: nat)
    requires Uneven(l, d)
    ensures 1000 < (d + 1) * l.acceptRate < 2000 && d < 1000 && l.acceptRate * d < 1000
    ensures (d + 1) * l.acceptRate / 1000 == 1 && 1000 / l.acceptRate == d
  {
    assert 1000 == l.acceptRate * d + 1000 % l.acceptRate;
  }

  lemma DueAfter(l: Limits, b: Bucket, ms: nat)
    ensures Due(l, b, b.refilledAt + ms * TICK) == ms * l.acceptRate / 1000
  {
    Quotient(ms * TICK, TICK, ms, 0);
  }

  /** A token that took d + 1 milliseconds advances the clock by only d. */
  lemma ShortRefill(l: Limits, ref: Instant, d: nat)
    requires Uneven(l, d) && l.acceptBurst >= 2
    ensures var at := ref + (d + 1) * TICK;
            && Refill(l, Bucket(0, ref), at) == Bucket(1, ref + d * TICK)
            && Refill(l, Bucket(1, ref + d * TICK), at) == Bucket(1, ref + d * TICK)
            && Refill(l, Bucket(0, ref + d * TICK), at) == Bucket(0, ref + d * TICK)
  {
    UnevenParts(l, d);
    var at := ref + (d + 1) * TICK;
    assert at == ref + d * TICK + 1 * TICK;
    DueAfter(l, Bucket(0, ref), d + 1);
    DueAfter(l, Bucket(1, ref + d * TICK), 1);
    DueAfter(l, Bucket(0, ref + d * TICK), 1);
    RefillIsExact(l, Bucket(0, ref), at);
    RefillIsExact(l, Bucket(1, ref + d * TICK), at);
    RefillIsExact(l, Bucket(0, ref + d * TICK), at);
    hide Due, Uneven, Refill;
  }

  lemma {:induction false} DriftRun(l: Limits, s: State, key: Key, ref: Instant, n: nat, d: nat)
    requires Open(l) && Uneven(l, d) && l.acceptBurst >= 2 && At(s, key, Some(Bucket(0, ref)))
    ensures Admissions(l, s, Visits(key, ref + (d + 1) * TICK, d, n), key) == n
    decreases n
  {
    hide Uneven, Visited, Admits, Refill, At;
    if n > 0 {
      var at := ref + (d + 1) * TICK;
      ShortRefill(l, ref, d);
      VisitOnce(l, s, key, Bucket(0, ref), Bucket(1, ref + d * TICK), at);
      VisitsUnfold(l, s, key, at, d, n);
      DriftRun(l, Visited(l, s, key, at), key, ref + d * TICK, n - 1, d);
    }
  }

  lemma WindowBroken(l: Limits, before: seq<Op>, window: seq<Op>, key: Key, start: Instant, from: Instant, w: nat)
    requires Timed(before, start, from) && Timed(window, from, from + w * TICK)
    requires Admissions(l, RunOps(l, EMPTY, before), window, key) > l.acceptBurst + 1 + w * l.acceptRate / 1000
    ensures !Bounded(l)
  {
    assert !WindowKept(l, before, window, key, start, from, w);
  }

  /** Enough drifting visits break the bound. */
  lemma DriftWindow(l: Limits, d: nat, m: nat)
    requires Open(l) && Uneven(l, d) && l.acceptBurst >= 2 && m + 1 > l.acceptBurst + 1 + m * d * l.acceptRate / 1000
    ensures !Bounded(l)
  {
    hide Bounded, Admits, Admissions, Visits, RunOps, Timed, Uneven, Open;
    var from, w := (d + 1) * TICK, m * d;
    var before, window := Visits(0, 0, 0, l.acceptBurst), Visits(0, from, d, m + 1);
    BurstRun(l, EMPTY, 0, None, 0);
    DriftRun(l, RunOps(l, EMPTY, before), 0, 0, m + 1, d);
    VisitsTimed(0, 0, 0, l.acceptBurst, from);
    VisitsTimed(0, from, d, m + 1, from + w * TICK);
    WindowBroken(l, before, window, 0, 0, from, w);
  }

  lemma DriftCount(burst: nat, d: nat, r: nat)
    requires r * d < 1000
    ensures var m := 1000 * (burst + 2); m + 1 > burst + 1 + m * d * r / 1000
  {
    var m := 1000 * (burst + 2);
    assert m * d * r == 1000 * ((burst + 2) * (r * d));
    Monotone(r * d, 999, burst + 2);
  }

  lemma DriftBreaks(l: Limits)
    requires Open(l) && l.acceptBurst >= 2 && 1 < l.acceptRate < 1000 && 1000 % l.acceptRate != 0
    ensures !Bounded(l)
  {
    var d := 1000 / l.acceptRate;
    UnevenParts(l, d);
    DriftCount(l.acceptBurst, d, l.acceptRate);
    DriftWindow(l, d, 1000 * (l.acceptBurst + 2));
  }

  // ---- rates above 1000 that are no multiple of it ----

  /** `k` tokens are due each millisecond and a part of one; they do not fill the
      bucket. */
  predicate Standing(l: Limits, k: nat) {
    l.acceptRate > 1000 && l.acceptRate % 1000 != 0 && k == l.acceptRate / 1000 && k < l.acceptBurst
  }

  /** One millisecond's tokens are added without the clock moving, until the
      bucket is full. */
  lemma ClockStands(l: Limits, b: Bucket, k: nat)
    requires Standing(l, k) && b.level < l.acceptBurst
    ensures k > 0
    ensures Refill(l, b, b.refilledAt + TICK) ==
            if b.level + k >= l.acceptBurst then Bucket(l.acceptBurst, b.refilledAt + TICK)
            else Bucket(b.level + k, b.refilledAt)
  {
    DueAfter(l, b, 1);
    RefillIsExact(l, b, b.refilledAt + TICK);
    assert 0 < k * 1000 < l.acceptRate;
    Quotient(k * 1000, l.acceptRate, 0, k * 1000);
    hide Refill, Due;
  }

  /** What a visit a millisecond after the last accounting leaves behind: more
      tokens at the same clock, a pruned entry, or a burst less one. */
  predicate Richer(l: Limits, b: Bucket, r: Option<Bucket>) {
    || r.None?
    || (r.value.level == l.acceptBurst - 1 && r.value.refilledAt == b.refilledAt + TICK)
    || (r.value.refilledAt == b.refilledAt && b.level < r.value.level < l.acceptBurst)
  }

  function Entry(s: State, key: Key): Option<Bucket> {
    if key in s.sources then Some(s.sources[key].bucket) else None
  }

  /** The bucket an arrival finds, after the sweep it may trigger. */
  lemma ArrivalFinds(l: Limits, s: State, key: Key, b: Bucket, k: nat)
    requires Standing(l, k) && b.level + k < l.acceptBurst && At(s, key, Some(b))
    ensures var m := AfterSweep(l, s, b.refilledAt + TICK);
            && m.connections == 0 && m.halfOpen == 0 && key in m.sources
            && (m.sources[key] == Source(0, b) || m.sources[key] == Source(0, Bucket(b.level + k, b.refilledAt)))
  {
    ClockStands(l, b, k);
    hide Refill;
  }

  /** Refilled at the arrival, one token taken, refilled again at the drop. */
  lemma RefilledTwice(l: Limits, b: Bucket, found: Bucket, k: nat)
    requires Standing(l, k) && b.level + k < l.acceptBurst
    requires found == b || found == Bucket(b.level + k, b.refilledAt)
    ensures var at := b.refilledAt + TICK;
            var filled := Refill(l, found, at);
            && filled.level > 0
            && var again := Refill(l, filled.(level := filled.level - 1), at);
               Richer(l, b, if again.level == l.acceptBurst then None else Some(again))
  {
    hide Refill, Standing;
    var at := b.refilledAt + TICK;
    ClockStands(l, b, k);
    ClockStands(l, found, k);
    var filled := Refill(l, found, at);
    if filled.refilledAt == at {
      NoTimeNoTokens(l, Bucket(l.acceptBurst - 1, at));
    } else {
      ClockStands(l, filled.(level := filled.level - 1), k);
    }
  }

  lemma StandingVisit(l: Limits, s: State, key: Key, b: Bucket, k: nat)
    requires Open(l) && Standing(l, k) && b.level + k < l.acceptBurst && At(s, key, Some(b))
    ensures var at := b.refilledAt + TICK;
            && Admits(l, s, Arrive(key, at), key)
            && var r := Entry(Visited(l, s, key, at), key); At(Visited(l, s, key, at), key, r) && Richer(l, b, r)
  {
    hide Refill, AfterSweep, Standing, Richer, Visited, Admits, Open;
    var at := b.refilledAt + TICK;
    ArrivalFinds(l, s, key, b, k);
    var found := AfterSweep(l, s, at).sources[key].bucket;
    RefilledTwice(l, b, found, k);
    VisitStep(l, s, key, at, found, Refill(l, found, at));
  }

  /** A visit in terms of the bucket found, refilled and refilled again. */
  lemma VisitStep(l: Limits, s: State, key: Key, at: Instant, found: Bucket, filled: Bucket)
    requires Open(l) && s.connections == 0 && s.halfOpen == 0 && (key in s.sources ==> s.sources[key].halfOpen == 0)
    requires var m := AfterSweep(l, s, at);
             m.connections == 0 && m.halfOpen == 0 && key in m.sources && m.sources[key] == Source(0, found)
    requires filled == Refill(l, found, at) && filled.level > 0
    ensures Admits(l, s, Arrive(key, at), key)
    ensures var again := Refill(l, filled.(level := filled.level - 1), at);
            At(Visited(l, s, key, at), key, if again.level == l.acceptBurst then None else Some(again))
  {
    hide Refill, AfterSweep;
  }

  /** One millisecond on, an empty bucket gives at least a whole burst. */
  lemma {:induction false} RoundRun(l: Limits, s: State, key: Key, b: Bucket, k: nat) returns (n: nat)
    requires Open(l) && Standing(l, k) && b.level < l.acceptBurst && At(s, key, Some(b))
    ensures n >= l.acceptBurst && Empties(l, s, key, b.refilledAt + TICK, n)
    decreases l.acceptBurst - b.level, 1
  {
    var at := b.refilledAt + TICK;
    ClockStands(l, b, k);
    hide Visited, Admits, Empties, Refill, Standing, At;
    HasBurst(l, k);
    if b.level + k >= l.acceptBurst {
      BurstRun(l, s, key, Some(b), at);
      n := l.acceptBurst;
    } else {
      StandingVisit(l, s, key, b, k);
      var v := Visited(l, s, key, at);
      var r := Entry(v, key);
      n := AfterVisit(l, v, key, b, r, k);
      VisitFirst(l, s, key, at, n);
      n := n + 1;
    }
  }

  lemma HasBurst(l: Limits, k: nat)
    requires Standing(l, k)
    ensures l.acceptBurst > 0
  {
  }

  lemma {:induction false} AfterVisit(l: Limits, v: State, key: Key, b: Bucket, r: Option<Bucket>, k: nat)
      returns (n: nat)
    requires Open(l) && Standing(l, k) && b.level < l.acceptBurst && At(v, key, r) && Richer(l, b, r)
    ensures n + 1 >= l.acceptBurst && Empties(l, v, key, b.refilledAt + TICK, n)
    decreases l.acceptBurst - b.level, 0
  {
    hide Visited, Admits, Empties, Refill, Standing, At, Open, Visits, RunOps, Admissions;
    HasBurst(l, k);
    var at := b.refilledAt + TICK;
    if r.None? {
      BurstRun(l, v, key, None, at);
      n := l.acceptBurst;
    } else if r.value.refilledAt == at {
      assert r.value == Bucket(l.acceptBurst - 1, at);
      DrainRun(l, v, key, at, l.acceptBurst - 1);
      n := l.acceptBurst - 1;
    } else {
      n := RoundRun(l, v, key, r.value, k);
    }
  }

  lemma {:induction false} Joined(l: Limits, s: State, a: seq<Op>, b: seq<Op>, key: Key)
    ensures Admissions(l, s, a + b, key) == Admissions(l, s, a, key) + Admissions(l, RunOps(l, s, a), b, key)
    decreases |a|
  {
    hide Step, Admits;
    if a == [] {
      assert a + b == b;
    } else {
      assert (a + b)[1..] == a[1..] + b && (a + b)[0] == a[0];
      Joined(l, Step(l, s, a[0]), a[1..], b, key);
    }
  }

  lemma {:induction false} TimedJoin(key: Key, at: Instant, n: nat, rest: seq<Op>, to: Instant)
    requires Timed(rest, at, to)
    ensures Timed(Visits(key, at, 0, n) + rest, at, to)
    decreases n
  {
    if n == 0 {
      assert Visits(key, at, 0, n) + rest == rest;
    } else {
      var tail := Visits(key, at, 0, n - 1) + rest;
      TimedJoin(key, at, n - 1, rest, to);
      var ops := Visits(key, at, 0, n) + rest;
      assert ops == [Arrive(key, at), Leave(key, true, at)] + tail;
      assert ops[1..][1..] == tail;
    }
  }

  /** `rounds` milliseconds, each with at least a whole burst. */
  lemma {:induction false} Rounds(l: Limits, s: State, key: Key, ref: Instant, k: nat, rounds: nat)
      returns (ops: seq<Op>)
    requires Open(l) && Standing(l, k) && At(s, key, Some(Bucket(0, ref)))
    ensures rounds > 0 ==> Timed(ops, ref + TICK, ref + rounds * TICK) && ops != [] && ops[0].Arrive?
    ensures Admissions(l, s, ops, key) >= rounds * l.acceptBurst
    decreases rounds
  {
    hide Admits, RunOps, Visits;
    ops := [];
    if rounds > 0 {
      var at, to := ref + TICK, ref + rounds * TICK;
      var n := RoundRun(l, s, key, Bucket(0, ref), k);
      var now := Visits(key, at, 0, n);
      var later := Rounds(l, RunOps(l, s, now), key, at, k, rounds - 1);
      RoundsFirst(key, at, n);
      hide Visited, Admissions, Standing, At;
      if rounds == 1 {
        later := [];
        assert to == at;
        NoneAdmitted(l, RunOps(l, s, now), key);
      } else {
        TimedEarlier(later, at, at + TICK, to);
      }
      TimedJoin(key, at, n, later, to);
      Joined(l, s, now, later, key);
      Distribute(rounds - 1, 1, l.acceptBurst);
      ops := now + later;
    }
  }

  lemma NoneAdmitted(l: Limits, s: State, key: Key)
    ensures Admissions(l, s, [], key) == 0
  {
  }

  lemma RoundsFirst(key: Key, at: Instant, n: nat)
    ensures n > 0 ==> Visits(key, at, 0, n) != [] && Visits(key, at, 0, n)[0].Arrive?
  {
  }

  lemma StandingBreaks(l: Limits, k: nat)
    requires Open(l) && Standing(l, k)
    ensures !Bounded(l)
  {
    assert l.acceptRate < 1000 * l.acceptBurst;
    hide Bounded, Admits, Admissions, Visits, RunOps, Timed, Standing, Open;
    var before := Visits(0, 0, 0, l.acceptBurst);
    BurstRun(l, EMPTY, 0, None, 0);
    var window := Rounds(l, RunOps(l, EMPTY, before), 0, 0, k, 2001);
    VisitsTimed(0, 0, 0, l.acceptBurst, TICK);
    assert 2000 * l.acceptRate / 1000 == 2 * l.acceptRate;
    WindowBroken(l, before, window, 0, 0, TICK, 2000);
  }

  // ---- the exact condition ----

  /** What the configuration must satisfy. */
  predicate KeepsRate(l: Limits)
    requires l.acceptRate > 0
  {
    || 1000 % l.acceptRate == 0                                             // whole milliseconds a token
    || l.acceptRate % 1000 == 0                                             // whole tokens a millisecond
    || l.acceptBurst <= 1 || l.acceptBurst <= l.acceptRate / 1000           // every refill fills the bucket
  }

  /** For every configuration with a positive rate, burst and caps: no window of
      any run admits a source more than burst + 1 + w * rate / 1000 times if and
      only if the rate divides 1000, is a multiple of it, or refills the whole
      bucket at once. */
  lemma RateBoundExact(l: Limits)
    requires l.acceptRate > 0 && l.acceptBurst > 0 && Open(l)
    ensures Bounded(l) <==> KeepsRate(l)
  {
    hide Bounded;
    if 1000 % l.acceptRate == 0 {
      DividingKeeps(l);
    } else if l.acceptRate % 1000 == 0 {
      MultipleKeeps(l);
    } else if l.acceptBurst <= 1 || l.acceptBurst <= l.acceptRate / 1000 {
      SmallKeeps(l);
    } else if l.acceptRate < 1000 {
      DriftBreaks(l);
    } else {
      StandingBreaks(l, l.acceptRate / 1000);
    }
  }
}
