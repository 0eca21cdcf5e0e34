/** Any number of workers on one run: leases with heartbeats and expiry, the spawn lock and handle table
    inside a worker, and appends guarded by the events' primary key. */
module Workers {
  import opened Wrappers
  import opened Events

  // ---- leases ----

  datatype Lease = Lease(owner: nat, expires: Time)

  /** Free, one's own, or expired. */
  predicate Claimable(lease: Option<Lease>, owner: nat, now: Time) {
    lease.None? || lease.value.owner == owner || lease.value.expires < now
  }

  predicate Owns(lease: Option<Lease>, owner: nat) {
    lease.Some? && lease.value.owner == owner
  }

  class LeaseTable {
    var leases: map<string, Lease>

    constructor ()
      ensures leases == map[]
    {
      leases := map[];
    }

    function Get(runId: string): Option<Lease>
      reads this
    {
      if runId in leases then Some(leases[runId]) else None
    }

    method TryAcquire(runId: string, owner: nat, now: Time, ttl: Time) returns (ok: bool)
      modifies this
      ensures ok == Claimable(old(Get(runId)), owner, now)
      ensures leases == if ok then old(leases)[runId := Lease(owner, now + ttl)] else old(leases)
    {
      ok := runId !in leases || leases[runId].owner == owner || leases[runId].expires < now;
      if ok { leases := leases[runId := Lease(owner, now + ttl)]; }
    }

    method Renew(runId: string, owner: nat, now: Time, ttl: Time) returns (ok: bool)
      modifies this
      ensures ok == Owns(old(Get(runId)), owner)
      ensures leases == if ok then old(leases)[runId := Lease(owner, now + ttl)] else old(leases)
    {
      ok := runId in leases && leases[runId].owner == owner;
      if ok { leases := leases[runId := Lease(owner, now + ttl)]; }
    }

    method Release(runId: string, owner: nat)
      modifies this
      ensures leases == if Owns(old(Get(runId)), owner) then old(leases) - {runId} else old(leases)
    {
      if runId in leases && leases[runId].owner == owner { leases := leases - {runId}; }
    }
  }

  // ---- the protocol for one run ----

  /** How far a worker that holds its spawn lock has come. */
  datatype Spawn = Acquiring | Loading | Ready(view: Log)

  datatype Phase = Running | Ending | Done

  /** A driver task and its in-memory journal. */
  datatype Driver = Driver(view: Log, phase: Phase)

  datatype Worker = Worker(spawn: Option<Spawn>, drivers: seq<Driver>, handle: Option<nat>)

  datatype State = State(log: Log, lease: Option<Lease>, clock: Time, workers: map<nat, Worker>)

  datatype Act =
    | Tick(to: Time)
    | Boot(w: nat)
    | Ensure(w: nat)
    | Acquire(w: nat)
    | Load(w: nat)
    | Spawned(w: nat)
    | Heartbeat(w: nat, i: nat)
    | Append(w: nat, i: nat, opId: int, fact: Fact, ts: Time)
    | Finish(w: nat, i: nat)
    | Release(w: nat, i: nat)
    | Crash(w: nat)

  const NEW := Worker(None, [], None)

  predicate Live(d: Driver) {
    !d.phase.Done?
  }

  predicate HasDriver(s: State, w: nat, i: nat) {
    w in s.workers && i < |s.workers[w].drivers|
  }

  function With(s: State, w: nat, worker: Worker): State {
    s.(workers := s.workers[w := worker])
  }

  function WithDriver(s: State, w: nat, i: nat, d: Driver): State
    requires HasDriver(s, w, i)
  {
    With(s, w, s.workers[w].(drivers := s.workers[w].drivers[i := d]))
  }

  function Next(s: State, act: Act, ttl: Time): Option<State> {
    match act
    case Tick(to) => if to < s.clock then None else Some(s.(clock := to))
    case Boot(w) => if w in s.workers then None else Some(With(s, w, NEW))
    case Ensure(w) =>
      if w !in s.workers || s.workers[w].spawn.Some? then None
      else
        var k := s.workers[w];
        if k.handle.Some? && k.handle.value < |k.drivers| && Live(k.drivers[k.handle.value]) then Some(s)
        else Some(With(s, w, k.(spawn := Some(Acquiring))))
    case Acquire(w) =>
      if w !in s.workers || s.workers[w].spawn != Some(Acquiring) then None
      else if Claimable(s.lease, w, s.clock) then
        Some(With(s, w, s.workers[w].(spawn := Some(Loading))).(lease := Some(Lease(w, s.clock + ttl))))
      else Some(With(s, w, s.workers[w].(spawn := None)))
    case Load(w) =>
      if w !in s.workers || s.workers[w].spawn != Some(Loading) then None
      else Some(With(s, w, s.workers[w].(spawn := Some(Ready(s.log)))))
    case Spawned(w) =>
      if w !in s.workers || s.workers[w].spawn.None? || !s.workers[w].spawn.value.Ready? then None
      else
        var k := s.workers[w];
        Some(With(s, w, Worker(None, k.drivers + [Driver(k.spawn.value.view, Running)], Some(|k.drivers|))))
    case Heartbeat(w, i) =>
      if !HasDriver(s, w, i) || !Live(s.workers[w].drivers[i]) then None
      else if Owns(s.lease, w) then Some(s.(lease := Some(Lease(w, s.clock + ttl))))
      else Some(WithDriver(s, w, i, s.workers[w].drivers[i].(phase := Ending)))
    case Append(w, i, opId, fact, ts) =>
      if !HasDriver(s, w, i) || !s.workers[w].drivers[i].phase.Running? then None
      else
        var d := s.workers[w].drivers[i];
        var e := Event(|d.view|, opId, fact, ts);
        if |d.view| < |s.log| then Some(s)
        else Some(WithDriver(s, w, i, d.(view := d.view + [e])).(log := s.log + [e]))
    case Finish(w, i) =>
      if !HasDriver(s, w, i) || !s.workers[w].drivers[i].phase.Running? then None
      else Some(WithDriver(s, w, i, s.workers[w].drivers[i].(phase := Ending)))
    case Release(w, i) =>
      if !HasDriver(s, w, i) || !s.workers[w].drivers[i].phase.Ending? then None
      else
        var s' := WithDriver(s, w, i, s.workers[w].drivers[i].(phase := Done));
        Some(if Owns(s.lease, w) then s'.(lease := None) else s')
    case Crash(w) => Some(With(s, w, NEW))
  }

  function Run(s: State, acts: seq<Act>, ttl: Time): Option<State>
    decreases |acts|
  {
    if acts == [] then Some(s)
    else
      var s' := Next(s, acts[0], ttl);
      if s'.None? then None else Run(s'.value, acts[1..], ttl)
  }

  function Start(now: Time): State {
    State([], None, now, map[])
  }

  // ---- whatever the clocks do: journals never fork ----

  ghost predicate Numbered(log: Log) {
    forall k :: 0 <= k < |log| ==> log[k].seqNo == k
  }

  /** Inside a worker only the handle's driver is live, and none while another is being spawned. */
  ghost predicate WorkerOk(k: Worker, log: Log) {
    && (forall i :: 0 <= i < |k.drivers| ==> k.drivers[i].view <= log)
    && (forall i :: 0 <= i < |k.drivers| && Live(k.drivers[i]) ==> k.handle == Some(i) && k.spawn.None?)
    && (k.spawn.Some? && k.spawn.value.Ready? ==> k.spawn.value.view <= log)
  }

  ghost predicate Safe(s: State) {
    Numbered(s.log) && forall w :: w in s.workers ==> WorkerOk(s.workers[w], s.log)
  }

  lemma {:induction false} GrownLogKeeps(k: Worker, log: Log, e: Event)
    requires WorkerOk(k, log)
    ensures WorkerOk(k, log + [e])
  {
  }

  lemma {:induction false} NextIsSafe(s: State, act: Act, ttl: Time, s': State)
    requires Safe(s) && Next(s, act, ttl) == Some(s')
    ensures Safe(s') && s.log <= s'.log
    ensures s'.log != s.log ==> act.Append? && s.workers[act.w].drivers[act.i].view == s.log
  {
    if act.Append? && s'.log != s.log {
      var e := s'.log[|s.log|];
      var d := s.workers[act.w].drivers[act.i];
      assert d.view == s.log;
      forall w | w in s.workers
        ensures WorkerOk(s.workers[w], s'.log)
      {
        GrownLogKeeps(s.workers[w], s.log, e);
      }
    }
  }

  /** Over all interleavings, and however badly leases are kept: stored sequence numbers stay 0..n-1, the
      stored journal only grows, and every driver's journal is a prefix of it. */
  lemma {:induction false} JournalsNeverFork(s: State, acts: seq<Act>, ttl: Time, s': State)
    requires Safe(s) && Run(s, acts, ttl) == Some(s')
    ensures Safe(s') && s.log <= s'.log
    decreases |acts|
  {
    hide Safe, Next;
    if acts != [] {
      var mid := Next(s, acts[0], ttl).value;
      NextIsSafe(s, acts[0], ttl, mid);
      JournalsNeverFork(mid, acts[1..], ttl, s');
    }
  }

  /** An append is accepted exactly when the driver's journal is the whole stored one. */
  lemma {:induction false} AcceptedMeansCurrent(s: State, w: nat, i: nat, opId: int, fact: Fact, ts: Time, ttl: Time)
    requires Safe(s) && HasDriver(s, w, i) && s.workers[w].drivers[i].phase.Running?
    ensures var s' := Next(s, Append(w, i, opId, fact, ts), ttl).value;
            (s'.log != s.log <==> s.workers[w].drivers[i].view == s.log) &&
            (s'.log != s.log ==> s'.log == s.log + [Event(|s.log|, opId, fact, ts)] && s'.workers[w].drivers[i].view == s'.log) &&
            (s'.log == s.log ==> s' == s)
  {
    var view := s.workers[w].drivers[i].view;
    assert WorkerOk(s.workers[w], s.log);
    assert |view| == |s.log| ==> view == s.log;
  }

  // ---- with heartbeats in time: one driver ----

  /** Is the worker between claiming the run and letting go of it? */
  ghost predicate Busy(k: Worker) {
    || (k.spawn.Some? && !k.spawn.value.Acquiring?)
    || exists i :: 0 <= i < |k.drivers| && Live(k.drivers[i])
  }

  /** Time does not pass a lease whose holder is still busy: heartbeats renew before expiry. */
  ghost predicate InTime(s: State, act: Act) {
    act.Tick? && s.lease.Some? && s.lease.value.owner in s.workers && Busy(s.workers[s.lease.value.owner]) ==>
      act.to <= s.lease.value.expires
  }

  ghost predicate AllInTime(s: State, acts: seq<Act>, ttl: Time)
    decreases |acts|
  {
    acts == [] || (InTime(s, acts[0]) && var s' := Next(s, acts[0], ttl); s'.Some? ==> AllInTime(s'.value, acts[1..], ttl))
  }

  /** Busy workers hold the lease, unexpired, and their journals are the stored one. */
  ghost predicate Exclusive(s: State) {
    forall w :: w in s.workers ==> HoldsLease(s, w) && Current(s.workers[w], s.log)
  }

  ghost predicate HoldsLease(s: State, w: nat)
    requires w in s.workers
  {
    Busy(s.workers[w]) ==> Owns(s.lease, w) && s.clock <= s.lease.value.expires
  }

  ghost predicate Current(k: Worker, log: Log) {
    && (k.spawn.Some? && k.spawn.value.Ready? ==> k.spawn.value.view == log)
    && (forall i :: 0 <= i < |k.drivers| && k.drivers[i].phase.Running? ==> k.drivers[i].view == log)
  }

  /** A worker that is not busy has no journal that could fall behind. */
  lemma {:induction false} IdleIsCurrent(k: Worker, log: Log)
    requires !Busy(k)
    ensures Current(k, log)
  {
    assert forall i :: 0 <= i < |k.drivers| ==> !Live(k.drivers[i]);
  }

  lemma {:induction false} AppendIsExclusive(s: State, act: Act, ttl: Time, s': State)
    requires Safe(s) && Exclusive(s) && act.Append? && Next(s, act, ttl) == Some(s')
    ensures Exclusive(s')
  {
    var k, d := s.workers[act.w], s.workers[act.w].drivers[act.i];
    assert Live(d) && Busy(k) && HoldsLease(s, act.w) && WorkerOk(k, s.log);
    forall w | w in s'.workers
      ensures HoldsLease(s', w) && Current(s'.workers[w], s'.log)
    {
      if w == act.w {
        assert k.handle == Some(act.i);
      } else {
        assert !Busy(s.workers[w]);
        IdleIsCurrent(s.workers[w], s'.log);
      }
    }
  }

  lemma {:induction false} NextIsExclusive(s: State, act: Act, ttl: Time, s': State)
    requires ttl >= 0.0 && Safe(s) && Exclusive(s) && InTime(s, act) && Next(s, act, ttl) == Some(s')
    ensures Exclusive(s')
  {
    match act
    case Append(_, _, _, _, _) => AppendIsExclusive(s, act, ttl, s');
    case Tick(_) => TickIsExclusive(s, act, ttl, s');
    case Acquire(w) => AcquireIsExclusive(s, w, ttl, s');
    case _ => OneWorkerMoves(s, act, ttl, s');
  }

  lemma {:induction false} TickIsExclusive(s: State, act: Act, ttl: Time, s': State)
    requires Exclusive(s) && act.Tick? && InTime(s, act) && Next(s, act, ttl) == Some(s')
    ensures Exclusive(s')
  {
    forall w | w in s'.workers
      ensures HoldsLease(s', w)
    {
      assert HoldsLease(s, w);
    }
  }

  lemma {:induction false} AcquireIsExclusive(s: State, w: nat, ttl: Time, s': State)
    requires ttl >= 0.0 && Safe(s) && Exclusive(s) && Next(s, Acquire(w), ttl) == Some(s')
    ensures Exclusive(s')
  {
    forall x | x in s'.workers
      ensures HoldsLease(s', x) && Current(s'.workers[x], s'.log)
    {
      assert HoldsLease(s, x);
      if x != w && Busy(s.workers[x]) {
        assert !Claimable(s.lease, w, s.clock);
      }
    }
  }

  /** Acts of one worker on itself: the others keep what they had. */
  lemma {:induction false} OneWorkerMoves(s: State, act: Act, ttl: Time, s': State)
    requires ttl >= 0.0 && Safe(s) && Exclusive(s) && Next(s, act, ttl) == Some(s')
    requires !act.Append? && !act.Tick? && !act.Acquire?
    ensures Exclusive(s')
  {
    forall x | x in s'.workers
      ensures HoldsLease(s', x) && Current(s'.workers[x], s'.log)
    {
      if x == act.w {
        MoverIsExclusive(s, act, ttl, s');
      } else {
        assert HoldsLease(s, x) && Current(s.workers[x], s.log);
        if act.Heartbeat? || act.Release? {
          assert Live(s.workers[act.w].drivers[act.i]) && Busy(s.workers[act.w]) && HoldsLease(s, act.w);
        }
      }
    }
  }

  lemma {:induction false} MoverIsExclusive(s: State, act: Act, ttl: Time, s': State)
    requires ttl >= 0.0 && Safe(s) && Exclusive(s) && Next(s, act, ttl) == Some(s')
    requires !act.Append? && !act.Tick? && !act.Acquire? && act.w in s'.workers
    ensures HoldsLease(s', act.w) && Current(s'.workers[act.w], s'.log)
  {
    var w, k' := act.w, s'.workers[act.w];
    if w in s.workers {
      assert HoldsLease(s, w) && Current(s.workers[w], s.log) && WorkerOk(s.workers[w], s.log);
    }
    match act
    case Release(_, i) =>
      assert forall j :: 0 <= j < |k'.drivers| ==> !Live(k'.drivers[j]);
    case Heartbeat(_, i) => assert Live(s.workers[w].drivers[i]);
    case Finish(_, i) => assert Live(s.workers[w].drivers[i]);
    case _ =>
  }

  lemma {:induction false} RunIsExclusive(s: State, acts: seq<Act>, ttl: Time, s': State)
    requires ttl >= 0.0 && Safe(s) && Exclusive(s) && AllInTime(s, acts, ttl) && Run(s, acts, ttl) == Some(s')
    ensures Safe(s') && Exclusive(s')
    decreases |acts|
  {
    hide Safe, Exclusive, InTime, Next;
    if acts != [] {
      var mid := Next(s, acts[0], ttl).value;
      NextIsSafe(s, acts[0], ttl, mid);
      NextIsExclusive(s, acts[0], ttl, mid);
      RunIsExclusive(mid, acts[1..], ttl, s');
    }
  }

  /** With heartbeats in time, over all interleavings of claims, renewals, releases, crashes, takeovers and
      the passing of time, at most one driver is alive anywhere, and its journal is the stored one. */
  lemma {:induction false} OneDriver(now: Time, acts: seq<Act>, ttl: Time, s: State, v: nat, i: nat, w: nat, j: nat)
    requires ttl >= 0.0 && AllInTime(Start(now), acts, ttl) && Run(Start(now), acts, ttl) == Some(s)
    requires HasDriver(s, v, i) && HasDriver(s, w, j)
    requires Live(s.workers[v].drivers[i]) && Live(s.workers[w].drivers[j])
    ensures v == w && i == j
    ensures s.workers[v].drivers[i].phase.Running? ==> s.workers[v].drivers[i].view == s.log
  {
    hide Run, AllInTime;
    RunIsExclusive(Start(now), acts, ttl, s);
    assert Busy(s.workers[v]) && Busy(s.workers[w]);
    assert HoldsLease(s, v) && HoldsLease(s, w);
    assert WorkerOk(s.workers[v], s.log) && Current(s.workers[v], s.log);
  }

  /** The heartbeats matter: a worker that misses them for longer than the lease lasts is joined by another. */
  lemma {:induction false} LateHeartbeatAdmitsTwo(ttl: Time)
    returns (acts: seq<Act>, s: State)
    requires ttl >= 0.0
    ensures Run(Start(0.0), acts, ttl) == Some(s)
    ensures HasDriver(s, 0, 0) && HasDriver(s, 1, 0) && Live(s.workers[0].drivers[0]) && Live(s.workers[1].drivers[0])
  {
    var one, late := Worker(None, [Driver([], Running)], Some(0)), ttl + 1.0;
    var mid := State([], Some(Lease(0, 0.0 + ttl)), 0.0, map[0 := one]);
    var claims0 := Claims(Start(0.0), 0, ttl);
    assert NEW.drivers + [Driver([], Running)] == one.drivers;
    assert Start(0.0).workers[0 := one] == mid.workers;
    var aged := mid.(clock := late);
    var claims1 := Claims(aged, 1, ttl);
    s := State([], Some(Lease(1, late + ttl)), late, map[0 := one, 1 := one]);
    assert aged.workers[1 := one] == s.workers;
    acts := claims0 + ([Tick(late)] + claims1);
    assert ([Tick(late)] + claims1)[1..] == claims1;
    assert Run(mid, [Tick(late)] + claims1, ttl) == Some(s);
    RunConcat(Start(0.0), claims0, mid, [Tick(late)] + claims1, s, ttl);
  }

  /** A worker that finds the run claimable ends up with a driver. */
  lemma {:induction false} Claims(s: State, w: nat, ttl: Time)
    returns (acts: seq<Act>)
    requires w !in s.workers && Claimable(s.lease, w, s.clock)
    ensures Run(s, acts, ttl) ==
            Some(s.(lease := Some(Lease(w, s.clock + ttl)),
                    workers := s.workers[w := Worker(None, [Driver(s.log, Running)], Some(0))]))
  {
    var end := s.(lease := Some(Lease(w, s.clock + ttl)),
                       workers := s.workers[w := Worker(None, [Driver(s.log, Running)], Some(0))]);
    var s1 := With(s, w, NEW);
    var s2 := With(s1, w, Worker(Some(Acquiring), [], None));
    var s3 := With(s2, w, Worker(Some(Loading), [], None)).(lease := end.lease);
    var s4 := With(s3, w, Worker(Some(Ready(s.log)), [], None));
    assert [] + [Driver(s.log, Running)] == [Driver(s.log, Running)];
    assert Next(s, Boot(w), ttl) == Some(s1) && Next(s1, Ensure(w), ttl) == Some(s2) && Next(s2, Acquire(w), ttl) == Some(s3);
    assert s4.workers[w := Worker(None, [Driver(s.log, Running)], Some(0))] == end.workers;
    assert Next(s3, Load(w), ttl) == Some(s4) && Next(s4, Spawned(w), ttl) == Some(end);
    acts := [Boot(w), Ensure(w), Acquire(w), Load(w), Spawned(w)];
    hide Next;
    assert acts[1..][1..][1..][1..] == [Spawned(w)] && [Spawned(w)][1..] == [];
    assert Run(end, [], ttl) == Some(end);
    assert Run(s4, acts[1..][1..][1..][1..], ttl) == Some(end);
    assert Run(s2, acts[1..][1..], ttl) == Some(end);
  }

  lemma {:induction false} RunConcat(s: State, a: seq<Act>, mid: State, b: seq<Act>, s': State, ttl: Time)
    requires Run(s, a, ttl) == Some(mid) && Run(mid, b, ttl) == Some(s')
    ensures Run(s, a + b, ttl) == Some(s')
    decreases |a|
  {
    hide Next;
    if a == [] {
      assert a + b == b;
    } else {
      RunConcat(Next(s, a[0], ttl).value, a[1..], mid, b, s', ttl);
      assert (a + b)[0] == a[0] && (a + b)[1..] == a[1..] + b;
    }
  }
}
