/** Child supervision (`exec.rs`): the scope's registry of PIDs, the reaper of
each child, and the two kill guards, over an operating system that may give a
PID to another process only after its child has been reaped.

Every critical section is one method; runs are any interleaving of them. */
module Supervision {
  import opened Wire

  type Pid = nat
  /** A process; no two processes are the same even when their PIDs are. */
  type Proc = nat

  datatype Sig = Hangup | KillPid | KillGroup

  /** What the kernel and an observer see. `hit` is the process that held the
      PID when the signal was sent. */
  datatype Event =
    | Spawned(proc: Proc)
    | KillTaken(proc: Proc)
    | Signalled(kind: Sig, pid: Pid, hit: Option<Proc>)
    | Reaped(proc: Proc)

  type Log = seq<Event>

  /** A kill of this process was taken up and its group not killed since. */
  predicate Owed(log: Log, p: Proc) {
    if log == [] then false
    else
      var e := log[|log| - 1];
      if e == KillTaken(p) then true
      else if e.Signalled? && e.kind.KillGroup? && e.hit == Some(p) then false
      else Owed(log[..|log| - 1], p)
  }

  /** The rules: a signal reaches only an unreaped child of this scope, and no
      child is reaped with a kill owed. */
  predicate Allowed(before: Log, e: Event) {
    match e
    case Signalled(_, _, hit) => hit.Some? && Spawned(hit.value) in before && Reaped(hit.value) !in before
    case Reaped(p) => !Owed(before, p) && Spawned(p) in before && Reaped(p) !in before
    case _ => true
  }

  predicate Orderly(log: Log) {
    log != [] ==> Orderly(log[..|log| - 1]) && Allowed(log[..|log| - 1], log[|log| - 1])
  }

  lemma OneMore(log: Log, e: Event)
    ensures Orderly(log + [e]) <==> Orderly(log) && Allowed(log, e)
    ensures forall p: Proc :: Owed(log + [e], p) <==>
                        || e == KillTaken(p)
                        || (Owed(log, p) && !(e.Signalled? && e.kind.KillGroup? && e.hit == Some(p)))
  {
    assert (log + [e])[..|log|] == log;
  }

  lemma {:induction false} OrderlyAt(log: Log, i: nat)
    requires Orderly(log) && i < |log|
    ensures Allowed(log[..i], log[i])
    decreases |log|
  {
    if i < |log| - 1 {
      OrderlyAt(log[..|log| - 1], i);
      assert log[..|log| - 1][..i] == log[..i];
    }
  }

  /** Every signal reached a child of the scope that was not yet reaped. */
  lemma SignalsHitOurs(log: Log, i: nat)
    requires Orderly(log) && i < |log| && log[i].Signalled?
    ensures log[i].hit.Some? && (exists k :: 0 <= k < i && log[k] == Spawned(log[i].hit.value))
    ensures forall k :: 0 <= k < i ==> log[k] != Reaped(log[i].hit.value)
  {
    OrderlyAt(log, i);
    var p := log[i].hit.value;
    assert Spawned(p) in log[..i];
    forall k | 0 <= k < i ensures log[k] != Reaped(p) {
      assert log[..i][k] == log[k];
    }
  }

  lemma {:induction false} OwedUntilKilled(log: Log, i: nat, p: Proc)
    requires i < |log| && log[i] == KillTaken(p) && !Owed(log, p)
    ensures exists k :: i < k < |log| && log[k].Signalled? && log[k].kind.KillGroup? && log[k].hit == Some(p)
    decreases |log|
  {
    var init, e := log[..|log| - 1], log[|log| - 1];
    if !(e.Signalled? && e.kind.KillGroup? && e.hit == Some(p)) {
      OwedUntilKilled(init, i, p);
      var k :| i < k < |init| && init[k].Signalled? && init[k].kind.KillGroup? && init[k].hit == Some(p);
      assert log[k] == init[k];
    }
  }

  /** Between taking up a kill and reaping the leader, its group is killed. */
  lemma KillPrecedesReap(log: Log, i: nat, j: nat)
    requires Orderly(log) && i < j < |log| && log[i].KillTaken? && log[j] == Reaped(log[i].proc)
    ensures exists k :: i < k < j && log[k].Signalled? && log[k].kind.KillGroup? && log[k].hit == Some(log[i].proc)
  {
    OrderlyAt(log, j);
    var before := log[..j];
    OwedUntilKilled(before, i, log[i].proc);
    var k :| i < k < j && before[k].Signalled? && before[k].kind.KillGroup? && before[k].hit == Some(log[i].proc);
    assert log[k] == before[k];
  }

  predicate NoDuplicates(s: seq<Pid>) { forall i, j :: 0 <= i < j < |s| ==> s[i] != s[j] }

  function Without(s: seq<Pid>, p: Pid): (r: seq<Pid>)
    ensures forall x :: x in r <==> x in s && x != p
    ensures NoDuplicates(s) ==> NoDuplicates(r)
  {
    if s == [] then []
    else
      var init, last := s[..|s| - 1], s[|s| - 1];
      assert s == init + [last];
      assert NoDuplicates(s) ==> last !in init;
      var rest := Without(init, p);
      assert forall i :: 0 <= i < |rest| ==> rest[i] in rest;
      if last == p then rest else rest + [last]
  }

  /** Every child of the list killed, by PID and then by group. */
  function Felled(live: seq<Pid>, ours: map<Pid, Proc>): Log
    requires forall p :: p in live ==> p in ours
  {
    if live == [] then []
    else
      var pid := live[|live| - 1];
      assert forall p :: p in live[..|live| - 1] ==> p in live;
      Felled(live[..|live| - 1], ours) +
      [Signalled(KillPid, pid, Some(ours[pid])), Signalled(KillGroup, pid, Some(ours[pid]))]
  }

  /** What `try_wait` found. */
  datatype Wait = NotYet | Exited | Failed

  // ---- one reaper's loop, on values ----

  /** A reaper's fields. `hangup`: a PTY session, whose kill starts with a
      hang-up; `graceEnd`: its grace timer is armed. */
  datatype Watch = Watch(pid: Pid, hangup: bool, child: Option<Proc>, killPending: bool, failurePending: bool,
                         graceEnd: bool)

  /** What is ready when the loop polls: the kill request, the master pump's
      report (of a failure, or of nothing), the grace timer, the exit. */
  datatype Ready = Ready(killed: bool, failure: Option<bool>, graceOver: bool, exited: Option<Wait>)

  /** `register`: both latches open, no grace. */
  predicate New(w: Watch) { w.child.Some? && w.killPending && w.failurePending && !w.graceEnd }

  function GroupKill(w: Watch): Event { Signalled(KillGroup, w.pid, w.child) }

  /** What taking up a request logs: a signal, unless a grace is running. */
  function Begins(w: Watch): Log
    requires w.child.Some?
  {
    [KillTaken(w.child.value)] +
    (if !w.hangup then [GroupKill(w)] else if w.graceEnd then [] else [Signalled(Hangup, w.pid, w.child)])
  }

  function Begun(w: Watch): Watch { w.(graceEnd := w.hangup || w.graceEnd) }

  function Exits(w: Watch, found: Wait): Log
    requires w.child.Some?
  {
    (if w.graceEnd then [GroupKill(w)] else []) + (if found.Exited? then [Reaped(w.child.value)] else [])
  }

  function Gone(w: Watch, found: Wait): Watch {
    w.(graceEnd := false, child := if found.NotYet? then w.child else None)
  }

  /** The reaper after one poll, and what it logged. */
  function Polled(w: Watch, x: Ready): (Watch, Log) {
    if w.child.None? then (w, [])
    else if w.killPending && x.killed then (Begun(w.(killPending := false)), Begins(w))
    else if w.failurePending && x.failure.Some? then
      var v := w.(failurePending := false);
      if x.failure.value then (Begun(v), Begins(w)) else (v, [])
    else if w.graceEnd && x.graceOver then (w.(graceEnd := false), [GroupKill(w)])
    else if x.exited.Some? then (Gone(w, x.exited.value), Exits(w, x.exited.value))
    else (w, [])
  }

  /** The reaper after the first `n` polls. */
  function After(w: Watch, polls: seq<Ready>, n: nat): Watch
    requires n <= |polls|
  {
    if n == 0 then w else Polled(After(w, polls, n - 1), polls[n - 1]).0
  }

  /** What poll `i` of the run logs. */
  function Logged(w: Watch, polls: seq<Ready>, i: nat): Log
    requires i < |polls|
  {
    Polled(After(w, polls, i), polls[i]).1
  }

  /** What the first `n` polls log. */
  function Trace(w: Watch, polls: seq<Ready>, n: nat): Log
    requires n <= |polls|
  {
    if n == 0 then [] else Trace(w, polls, n - 1) + Logged(w, polls, n - 1)
  }

  /** The poll takes up a request. */
  predicate Requests(step: Log) { step != [] && step[0].KillTaken? }

  /** The request it takes up starts something: a signal goes out. */
  predicate Starts(step: Log) { Requests(step) && |step| > 1 && step[1].Signalled? }

  predicate KillsGroup(step: Log) { exists i :: 0 <= i < |step| && step[i].Signalled? && step[i].kind.KillGroup? }

  /** A request taken up starts a signal if and only if the child is on pipes or
      no grace is running, at every poll of every run. */
  lemma StartsExactly(w: Watch, polls: seq<Ready>, i: nat)
    requires i < |polls| && Requests(Logged(w, polls, i))
    ensures var v := After(w, polls, i);
            Starts(Logged(w, polls, i)) <==> !v.hangup || !v.graceEnd
  {
    hide After;
  }

  lemma PollFacts(w: Watch, x: Ready)
    ensures var v, step := Polled(w, x).0, Polled(w, x).1;
            && v.hangup == w.hangup && v.pid == w.pid
            && (Requests(step) ==> Latches(v) == Latches(w) - 1) && Latches(v) <= Latches(w)
            && (v.child.Some? ==> w.child.Some?)
            && (Requests(step) ==> w.child.Some? && v.child == w.child && v.graceEnd == (w.hangup || w.graceEnd))
            && (!Requests(step) && v.child.Some? ==> v.graceEnd == (w.graceEnd && !KillsGroup(step)))
            && (KillsGroup(step) ==> if w.hangup then w.graceEnd && !Requests(step) else Requests(step) || w.graceEnd)
            && (!w.hangup && Requests(step) ==> KillsGroup(step))
  {
    var step := Polled(w, x).1;
    if w.child.Some? {
      assert Begins(w)[0] == KillTaken(w.child.value);
      assert !w.hangup ==> Begins(w)[1] == GroupKill(w);
      assert w.graceEnd ==> forall f :: Exits(w, f)[0] == GroupKill(w);
    }
  }

  function Latches(w: Watch): nat { (if w.killPending then 1 else 0) + (if w.failurePending then 1 else 0) }

  lemma {:induction false} LatchesFall(w: Watch, polls: seq<Ready>, a: nat, b: nat)
    requires a <= b <= |polls|
    ensures Latches(After(w, polls, b)) <= Latches(After(w, polls, a)) && After(w, polls, b).hangup == w.hangup
    ensures After(w, polls, b).child.Some? ==> After(w, polls, a).child.Some?
    decreases b
  {
    hide Polled;
    if b > 0 {
      PollFacts(After(w, polls, b - 1), polls[b - 1]);
      if a < b {
        LatchesFall(w, polls, a, b - 1);
      } else {
        LatchesFall(w, polls, b - 1, b - 1);
      }
    }
  }

  /** There are two requests at most. */
  lemma NoThirdRequest(w: Watch, polls: seq<Ready>, i: nat, j: nat, k: nat)
    requires New(w) && i < j < k < |polls|
    ensures !(Requests(Logged(w, polls, i)) && Requests(Logged(w, polls, j)) && Requests(Logged(w, polls, k)))
  {
    hide Polled, Requests;
    LatchesFall(w, polls, 0, i);
    PollFacts(After(w, polls, i), polls[i]);
    LatchesFall(w, polls, i + 1, j);
    PollFacts(After(w, polls, j), polls[j]);
    LatchesFall(w, polls, j + 1, k);
    PollFacts(After(w, polls, k), polls[k]);
  }

  /** A request before poll `n` whose grace has not ended in a group kill. */
  predicate GraceSince(w: Watch, polls: seq<Ready>, i: nat, n: nat)
    requires n <= |polls|
  {
    i < n && Requests(Logged(w, polls, i)) && forall k :: i <= k < n ==> !KillsGroup(Logged(w, polls, k))
  }

  /** The timer runs exactly from a PTY's request to the next group kill. */
  lemma {:induction false} GraceRuns(w: Watch, polls: seq<Ready>, n: nat)
    requires New(w) && n <= |polls| && After(w, polls, n).child.Some?
    ensures After(w, polls, n).graceEnd <==> w.hangup && exists i :: 0 <= i < n && GraceSince(w, polls, i, n)
    ensures !w.hangup ==> !After(w, polls, n).graceEnd
  {
    hide Polled, Requests, KillsGroup;
    if n > 0 {
      var v, step := After(w, polls, n - 1), Logged(w, polls, n - 1);
      PollFacts(v, polls[n - 1]);
      LatchesFall(w, polls, n - 1, n - 1);
      GraceRuns(w, polls, n - 1);
      if Requests(step) && w.hangup {
        assert GraceSince(w, polls, n - 1, n);
      } else if After(w, polls, n).graceEnd {
        var i :| 0 <= i < n - 1 && GraceSince(w, polls, i, n - 1);
        assert GraceSince(w, polls, i, n);
      } else {
        assert forall i :: 0 <= i < n - 1 && GraceSince(w, polls, i, n) ==> GraceSince(w, polls, i, n - 1);
      }
    }
  }

  /** `begin_kill`: "only the first request starts anything". */
  ghost predicate OnlyFirstStarts(w: Watch, polls: seq<Ready>) {
    forall i, j :: 0 <= i < j < |polls| && Requests(Logged(w, polls, i)) && Requests(Logged(w, polls, j)) ==>
      !Starts(Logged(w, polls, j))
  }

  /** A request is taken up after the group was killed. */
  ghost predicate RequestAfterKill(w: Watch, polls: seq<Ready>) {
    exists k, j :: 0 <= k < j < |polls| && KillsGroup(Logged(w, polls, k)) && Requests(Logged(w, polls, j))
  }

  lemma RequestIsAlive(w: Watch, polls: seq<Ready>, j: nat)
    requires j < |polls| && (Requests(Logged(w, polls, j)) || KillsGroup(Logged(w, polls, j)))
    ensures After(w, polls, j).child.Some? && After(w, polls, j).hangup == w.hangup
  {
    hide After;
    LatchesFall(w, polls, j, j);
  }

  lemma KilledThenStarts(w: Watch, polls: seq<Ready>, k: nat, j: nat)
    requires New(w) && k < j < |polls| && KillsGroup(Logged(w, polls, k)) && Requests(Logged(w, polls, j))
    ensures !OnlyFirstStarts(w, polls)
  {
    hide Polled, Requests, KillsGroup, Starts;
    RequestIsAlive(w, polls, j);
    RequestIsAlive(w, polls, k);
    PollFacts(After(w, polls, k), polls[k]);
    GraceRuns(w, polls, k);
    GraceRuns(w, polls, j);
    StartsExactly(w, polls, j);
    var i :| 0 <= i <= k && Requests(Logged(w, polls, i));
    if w.hangup && After(w, polls, j).graceEnd {
      var r :| 0 <= r < j && GraceSince(w, polls, r, j);
      assert k < r;
      NoThirdRequest(w, polls, i, r, j);
    }
  }

  lemma StartedIsKilled(w: Watch, polls: seq<Ready>, i: nat, j: nat)
    requires New(w) && i < j < |polls| && Requests(Logged(w, polls, i)) && Starts(Logged(w, polls, j))
    ensures RequestAfterKill(w, polls)
  {
    hide Polled, Requests, KillsGroup;
    RequestIsAlive(w, polls, j);
    RequestIsAlive(w, polls, i);
    GraceRuns(w, polls, j);
    StartsExactly(w, polls, j);
    PollFacts(After(w, polls, i), polls[i]);
    if w.hangup {
      assert !GraceSince(w, polls, i, j);
    }
  }

  /** Over every run of a reaper's loop: only the first request starts anything
      if and only if no request is taken up after the group was killed. */
  lemma OnlyFirstExactly(w: Watch, polls: seq<Ready>)
    requires New(w)
    ensures OnlyFirstStarts(w, polls) <==> !RequestAfterKill(w, polls)
  {
    hide Logged, Starts, Requests, KillsGroup;
    if RequestAfterKill(w, polls) {
      var k, j :| 0 <= k < j < |polls| && KillsGroup(Logged(w, polls, k)) && Requests(Logged(w, polls, j));
      KilledThenStarts(w, polls, k, j);
    } else if !OnlyFirstStarts(w, polls) {
      var i, j :| 0 <= i < j < |polls| && Requests(Logged(w, polls, i)) && Requests(Logged(w, polls, j))
                  && Starts(Logged(w, polls, j));
      StartedIsKilled(w, polls, i, j);
    }
  }

  /** A kill, the grace over, a master failure: two hang-ups. */
  function KillThenFailure(): seq<Ready> {
    [Ready(true, None, false, None), Ready(false, None, true, None), Ready(false, Some(true), false, None)]
  }

  lemma SecondHangup(w: Watch)
    requires New(w) && w.hangup
    ensures var p, polls := w.child, KillThenFailure();
            && Trace(w, polls, 3) == [KillTaken(p.value), Signalled(Hangup, w.pid, p), Signalled(KillGroup, w.pid, p),
                                      KillTaken(p.value), Signalled(Hangup, w.pid, p)]
            && !OnlyFirstStarts(w, polls) && After(w, polls, 3).child == w.child
  {
    var polls := KillThenFailure();
    var p := w.child;
    assert After(w, polls, 1) == w.(killPending := false, graceEnd := true);
    assert After(w, polls, 2) == w.(killPending := false);
    assert Logged(w, polls, 0) == [KillTaken(p.value), Signalled(Hangup, w.pid, p)];
    assert Logged(w, polls, 1) == [Signalled(KillGroup, w.pid, p)];
    assert Logged(w, polls, 2) == [KillTaken(p.value), Signalled(Hangup, w.pid, p)];
    assert Trace(w, polls, 1) == Logged(w, polls, 0);
    assert Trace(w, polls, 2) == Logged(w, polls, 0) + Logged(w, polls, 1);
    assert Requests(Logged(w, polls, 0)) && Starts(Logged(w, polls, 2));
  }

  /** The scope, its registry, and the kernel's table of PIDs in use: `ours` by
      unreaped children of this scope, `others` by everyone else. */
  class Scope {
    var live: seq<Pid>
    var ours: map<Pid, Proc>
    var others: set<Pid>
    var count: nat
    ghost var reapers: set<Reaper>
    ghost var log: Log

    constructor (others: set<Pid>)
      ensures Valid() && live == [] && ours == map[] && this.others == others && reapers == {} && log == []
    {
      live, ours, this.others, count, reapers, log := [], map[], others, 0, {}, [];
    }

    ghost predicate Held(r: Reaper)
      reads this, r
    {
      r.scope == this && (r.child.Some? ==> r.pid in ours && ours[r.pid] == r.child.value && r.pid in live)
    }

    ghost predicate Table()
      reads this
    {
      && ours.Keys !! others
      && (forall p :: p in ours ==> Spawned(ours[p]) in log && Reaped(ours[p]) !in log)
      && (forall p, q :: p in ours && q in ours && ours[p] == ours[q] ==> p == q)
      && (forall p: Proc :: Spawned(p) in log || Reaped(p) in log ==> p < count)
    }

    /** The registry is exactly the unreaped children with a reaper; their PIDs
        are reserved; a kill still owed has its hang-up grace running. */
    ghost predicate Valid()
      reads this, reapers
    {
      ValidBut(None)
    }

    /** The same, except that the kill of one process has just been taken up. */
    ghost predicate ValidBut(spare: Option<Proc>)
      reads this, reapers
    {
      && Orderly(log) && NoDuplicates(live) && Table()
      && (forall r :: r in reapers ==> Held(r))
      && (forall p :: p in live ==> exists r :: r in reapers && r.child.Some? && r.pid == p)
      && (forall r, s :: r in reapers && s in reapers && r.child.Some? && r.child == s.child ==> r == s)
      && (forall p: Proc :: Owed(log, p) && spare != Some(p) ==>
            exists r :: r in reapers && r.child == Some(p) && r.graceEnd)
    }

    /** `kill(2)` on a PID or its group. */
    method Signal(kind: Sig, pid: Pid, ghost spare: Option<Proc>)
      requires ValidBut(spare) && pid in live
      modifies this`log
      ensures ValidBut(spare) && log == old(log) + [Signalled(kind, pid, Some(ours[pid]))]
      ensures kind.KillGroup? ==> !Owed(log, ours[pid])
      ensures kind.KillGroup? && spare == Some(ours[pid]) ==> Valid()
      ensures forall p: Proc :: Owed(log, p) ==> old(Owed(log, p))
    {
      hide Orderly, Owed;
      ghost var r :| r in reapers && r.child.Some? && r.pid == pid;
      assert Held(r);
      ghost var e := Signalled(kind, pid, Some(ours[pid]));
      OneMore(log, e);
      log := log + [e];
    }

    /** A kill of an unreaped child is taken up. */
    ghost method TakeKill(proc: Proc)
      requires Valid()
      modifies this`log
      ensures ValidBut(Some(proc)) && log == old(log) + [KillTaken(proc)]
    {
      hide Orderly, Owed;
      assert forall r :: r in reapers ==> Held(r);
      OneMore(log, KillTaken(proc));
      log := log + [KillTaken(proc)];
    }

    lemma AllOurs()
      requires Valid()
      ensures forall p :: p in live ==> p in ours
    {
      hide Orderly, Owed;
      forall p | p in live ensures p in ours {
        var r :| r in reapers && r.child.Some? && r.pid == p;
        assert Held(r);
      }
    }

    method Fell(pid: Pid)
      requires Valid() && pid in live && pid in ours
      modifies this`log
      ensures Valid() && !Owed(log, ours[pid]) && forall p: Proc :: Owed(log, p) ==> old(Owed(log, p))
      ensures log == old(log) + [Signalled(KillPid, pid, Some(ours[pid])), Signalled(KillGroup, pid, Some(ours[pid]))]
    {
      hide Orderly, Owed, ValidBut;
      Signal(KillPid, pid, None);
      Signal(KillGroup, pid, None);
    }

    lemma ReapersAreLive()
      requires Valid()
      ensures forall r :: r in reapers && r.child.Some? ==>
                r.pid in live && r.pid in ours && ours[r.pid] == r.child.value
    {
      hide Orderly, Owed;
      assert forall r :: r in reapers ==> Held(r);
    }

    /** Dropping the scope: every registered child is killed, by PID and then
        by group, while the registry is locked. */
    method Drop()
      requires Valid()
      modifies this`log
      ensures Valid() && (forall p :: p in live ==> p in ours) && log == old(log) + Felled(live, ours)
      ensures forall r :: r in reapers && r.child.Some? ==> !Owed(log, r.child.value)
    {
      hide Orderly, Owed, ValidBut, Table, Held;
      AllOurs();
      for i := 0 to |live|
        invariant Valid() && log == old(log) + Felled(live[..i], ours)
        invariant forall k :: 0 <= k < i ==> !Owed(log, ours[live[k]])
      {
        assert live[..i + 1][..i] == live[..i];
        Fell(live[i]);
      }
      assert live[..|live|] == live;
      ReapersAreLive();
    }

    /** A child is spawned: the kernel gives it a free PID. */
    method Fork(pid: Pid)
      requires Valid() && pid !in ours && pid !in others
      modifies this`ours, this`count, this`log
      ensures Valid() && pid in ours && pid !in live && log == old(log) + [Spawned(ours[pid])]
    {
      hide Orderly, Owed;
      assert forall r :: r in reapers ==> Held(r);
      OneMore(log, Spawned(count));
      ours := ours[pid := count];
      log := log + [Spawned(count)];
      count := count + 1;
    }

    /** The rest of the system: other processes come and go, on PIDs no
        unreaped child holds. */
    method SystemMoves(next: set<Pid>)
      requires Valid() && next !! ours.Keys
      modifies this`others
      ensures Valid() && others == next
    {
      assert forall r :: r in reapers ==> Held(r);
      others := next;
    }

    /** The runtime reaps a child whose reaper is gone. */
    method OrphanReaped(pid: Pid)
      requires Valid() && pid in ours && pid !in live
      modifies this`ours, this`log
      ensures Valid() && log == old(log) + [Reaped(old(ours)[pid])] && ours == old(ours) - {pid}
    {
      hide Orderly, Owed;
      ghost var e := Reaped(ours[pid]);
      assert forall r :: r in reapers ==> Held(r);
      OneMore(log, e);
      log := log + [e];
      ours := ours - {pid};
    }
  }

  class Reaper {
    const scope: Scope
    const pid: Pid
    /** A PTY session: a kill starts with a hang-up. */
    const hangup: bool
    var child: Option<Proc>
    var killPending: bool
    var failurePending: bool
    /** The grace timer is armed. */
    var graceEnd: bool

    /** `register`: the child just spawned enters the registry. */
    constructor (scope: Scope, pid: Pid, hangup: bool)
      requires scope.Valid() && pid in scope.ours && pid !in scope.live
      modifies scope`live, scope`reapers
      ensures this.scope == scope && this.pid == pid && child == Some(scope.ours[pid]) && this.hangup == hangup
      ensures killPending && failurePending && !graceEnd
      ensures scope.reapers == old(scope.reapers) + {this} && scope.live == old(scope.live) + [pid] && scope.Valid()
    {
      this.scope, this.pid, this.hangup, child := scope, pid, hangup, Some(scope.ours[pid]);
      killPending, failurePending, graceEnd := true, true, false;
      new;
      hide Orderly, Owed;
      assert forall r :: r in scope.reapers ==> scope.Held(r);
      scope.live := scope.live + [pid];
      scope.reapers := scope.reapers + {this};
    }

    ghost predicate Enlisted()
      reads this, scope, scope.reapers
    {
      scope.Valid() && this in scope.reapers
    }

    function View(): Watch
      reads this
    {
      Watch(pid, hangup, child, killPending, failurePending, graceEnd)
    }

    /** `kill_group`, called only while the leader is unreaped. */
    method KillGroup(ghost spare: Option<Proc>)
      requires scope.ValidBut(spare) && this in scope.reapers && child.Some? && (spare == None || spare == child)
      modifies scope`log
      ensures Enlisted() && !Owed(scope.log, child.value)
      ensures scope.log == old(scope.log) + [Signalled(Sig.KillGroup, pid, child)]
    {
      hide Orderly, Owed;
      assert scope.Held(this);
      scope.Signal(Sig.KillGroup, pid, spare);
    }

    /** A kill taken up: the group's SIGKILL at once, or on a PTY a hang-up and
        the grace timer, unless one is running. */
    method BeginKill()
      requires Enlisted() && child.Some?
      modifies this`graceEnd, scope`log
      ensures Enlisted() && View() == Begun(old(View())) && (!hangup ==> !Owed(scope.log, child.value))
      ensures scope.log == old(scope.log) + [KillTaken(child.value)] +
                (if !hangup then [Signalled(Sig.KillGroup, pid, child)]
                 else if old(graceEnd) then []
                 else [Signalled(Hangup, pid, child)])
    {
      hide Orderly, Owed;
      assert scope.Held(this);
      scope.TakeKill(child.value);
      if !hangup {
        KillGroup(child);
      } else if !graceEnd {
        scope.Signal(Hangup, pid, child);
        graceEnd := true;
      }
      assert scope.Held(this);
    }

    /** `try_reap`: reaping and deregistering are one critical section. After a
        failed wait the child is given up without being reaped. */
    method TryReap(found: Wait) returns (done: bool)
      requires Enlisted() && child.Some? && !Owed(scope.log, child.value)
      modifies this`child, scope`live, scope`ours, scope`log
      ensures Enlisted() && done == !found.NotYet? && (done ==> child.None? && pid !in scope.live)
      ensures !done ==> child == old(child) && scope.live == old(scope.live)
      ensures scope.log == old(scope.log) + (if found.Exited? then [Reaped(old(child).value)] else [])
    {
      hide Orderly, Owed;
      assert forall r :: r in scope.reapers ==> scope.Held(r);
      if found.NotYet? {
        return false;
      }
      if found.Exited? {
        OneMore(scope.log, Reaped(child.value));
        scope.log := scope.log + [Reaped(child.value)];
        scope.ours := scope.ours - {pid};
      }
      child := None;
      scope.live := Without(scope.live, pid);
      return true;
    }

    /** The reap task is dropped: the child is killed and deregistered while its
        PID is still reserved. */
    method Drop()
      requires Enlisted()
      modifies this`child, scope`live, scope`log
      ensures Enlisted() && child.None?
      ensures old(child).Some? ==> scope.log == old(scope.log) + [Signalled(Sig.KillGroup, pid, old(child))]
      ensures old(child).None? ==> scope.log == old(scope.log)
    {
      hide Orderly, Owed;
      if child.Some? {
        KillGroup(None);
        assert forall r :: r in scope.reapers ==> scope.Held(r);
        child := None;
        scope.live := Without(scope.live, pid);
      }
    }

    method OnGraceEnd()
      requires Enlisted() && child.Some? && graceEnd
      modifies this`graceEnd, scope`log
      ensures Enlisted() && !graceEnd && !Owed(scope.log, child.value)
      ensures scope.log == old(scope.log) + [Signalled(Sig.KillGroup, pid, child)]
    {
      hide Orderly, Owed;
      KillGroup(None);
      graceEnd := false;
      assert scope.Held(this);
    }

    method OnExit(found: Wait) returns (done: bool)
      requires Enlisted() && child.Some?
      modifies this`child, this`graceEnd, scope`live, scope`ours, scope`log
      ensures Enlisted() && done == !found.NotYet? && !graceEnd
      ensures child == if done then None else old(child)
      ensures scope.log == old(scope.log) + (if old(graceEnd) then [Signalled(Sig.KillGroup, pid, old(child))] else [])
                                          + (if found.Exited? then [Reaped(old(child).value)] else [])
    {
      hide Orderly, Owed;
      if graceEnd {
        OnGraceEnd();
      } else {
        assert !Owed(scope.log, child.value);
      }
      done := TryReap(found);
    }

    /** A report was received: its channel is not polled again. */
    method Unlatch(kill: bool)
      requires Enlisted()
      modifies this`killPending, this`failurePending
      ensures Enlisted()
      ensures View() == if kill then old(View()).(killPending := false) else old(View()).(failurePending := false)
    {
      hide Orderly, Owed;
      assert forall r :: r in scope.reapers ==> scope.Held(r);
      if kill {
        killPending := false;
      } else {
        failurePending := false;
      }
    }

    /** One pass of the reaper's loop: the first branch that is ready, the kill
        request before the exit. */
    method Poll(x: Ready) returns (done: bool)
      requires Enlisted() && child.Some?
      modifies this, scope`live, scope`ours, scope`log
      ensures Enlisted() && (done <==> child.None?)
      ensures View() == Polled(old(View()), x).0 && scope.log == old(scope.log) + Polled(old(View()), x).1
      ensures old(killPending) && x.killed ==> !done && !killPending && KillTaken(child.value) in scope.log
    {
      hide Owed, Scope.Valid, Scope.ValidBut;
      done := false;
      if killPending && x.killed {
        Unlatch(true);
        BeginKill();
      } else if failurePending && x.failure.Some? {
        Unlatch(false);
        if x.failure.value {
          BeginKill();
        }
      } else if graceEnd && x.graceOver {
        OnGraceEnd();
      } else if x.exited.Some? {
        done := OnExit(x.exited.value);
      }
    }

    /** `run`: the loop, until the child is reaped or given up. */
    method Run(polls: seq<Ready>)
      requires Enlisted()
      modifies this, scope`live, scope`ours, scope`log
      ensures Enlisted() && View() == After(old(View()), polls, |polls|)
      ensures scope.log == old(scope.log) + Trace(old(View()), polls, |polls|)
    {
      hide Polled, Scope.Valid, Scope.ValidBut;
      for i := 0 to |polls|
        invariant Enlisted() && View() == After(old(View()), polls, i)
        invariant scope.log == old(scope.log) + Trace(old(View()), polls, i)
      {
        if child.None? {
          GoneLogsNothing(View(), polls[i]);
        } else {
          var _ := Poll(polls[i]);
        }
      }
    }
  }

  /** The object does it: a kill, the grace over, a master failure. */
  method HangsUpTwice(r: Reaper)
    requires r.Enlisted() && New(r.View()) && r.hangup
    modifies r, r.scope`live, r.scope`ours, r.scope`log
    ensures r.child == old(r.child)
    ensures r.scope.log == old(r.scope.log) +
              [KillTaken(r.child.value), Signalled(Hangup, r.pid, r.child), Signalled(KillGroup, r.pid, r.child),
               KillTaken(r.child.value), Signalled(Hangup, r.pid, r.child)]
  {
    hide Scope.Valid, Scope.ValidBut, Trace, After, Polled;
    SecondHangup(r.View());
    r.Run(KillThenFailure());
  }

  lemma GoneLogsNothing(w: Watch, x: Ready)
    requires w.child.None?
    ensures Polled(w, x) == (w, [])
  {
  }

  /** Anything that can happen next. */
  datatype Choice =
    | Spawn(pid: Pid, hangup: bool)
    | PollReaper(k: nat, ready: Ready)
    | DropReaper(k: nat)
    | DropScope
    | OthersMove(next: set<Pid>)
    | ReapOrphan(pid: Pid)

  /** Every interleaving keeps the registry exact and the log orderly. */
  method AnyRun(others: set<Pid>, choices: seq<Choice>) returns (scope: Scope)
    ensures fresh(scope) && scope.Valid()
  {
    hide Scope.Valid, Scope.ValidBut;
    scope := new Scope(others);
    var rs: seq<Reaper> := [];
    for i := 0 to |choices|
      invariant fresh(scope) && scope.Valid()
      invariant forall k :: 0 <= k < |rs| ==> fresh(rs[k]) && rs[k] in scope.reapers && rs[k].scope == scope
      invariant forall r :: r in scope.reapers ==> fresh(r)
    {
      match choices[i]
      case Spawn(pid, hangup) =>
        if pid !in scope.ours && pid !in scope.others {
          scope.Fork(pid);
          var r := new Reaper(scope, pid, hangup);
          rs := rs + [r];
        }
      case PollReaper(k, ready) =>
        if k < |rs| && rs[k].child.Some? {
          var _ := rs[k].Poll(ready);
        }
      case DropReaper(k) =>
        if k < |rs| {
          rs[k].Drop();
        }
      case DropScope => scope.Drop();
      case OthersMove(next) =>
        if next !! scope.ours.Keys {
          scope.SystemMoves(next);
        }
      case ReapOrphan(pid) =>
        if pid in scope.ours && pid !in scope.live {
          scope.OrphanReaped(pid);
        }
    }
  }
}
