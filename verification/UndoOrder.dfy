/** When exactly compensations run last-in first-out: a restarted driver may be given the recorded
    operations of a gather in any order, and registers their compensations in that order. */
module UndoOrder {
  import opened Wrappers
  import opened Events
  import opened Engine
  import opened Retry
  import opened Lanes
  import opened Paths
  import opened Invariant
  import opened Preservation
  import opened Endings
  import opened Reachability
  import opened Replays
  import opened CrashSafety
  import opened Effects
  import opened Saga
  import opened Resuming
  import opened Transparency

  /** Some drive of a restarted run is given all recorded outcomes and ends up with this stack. */
  ghost predicate Builds(p: Program, d: Durable, F: seq<Outcome>, stack: seq<Comp>) {
    exists acts :: Exec(p, State(d, None), acts) == Some(State(d, Some(Driver(F, {}, stack))))
  }

  // ---- a drive that is given a gather out of order ----

  /** On a path with two compensations in one batch, such a batch. */
  lemma {:induction false} FindsPair(b: Body, F: seq<Outcome>, from: nat)
    returns (cut: nat, i: nat, j: nat)
    requires from <= |F| && IsPath(b, F, from) && IsPath(b, F[..from], 0) && !LoneUndos(b, F, from)
    ensures cut < |F| && IsPath(b, F[..cut], 0) && i < j < |b(F[..cut]).Ops()| && cut + j < |F|
    ensures CompOf(b(F[..cut]).Ops()[i], cut + i, F[cut + i]) != []
    ensures CompOf(b(F[..cut]).Ops()[j], cut + j, F[cut + j]) != []
    decreases |F| - from
  {
    hide IsPath, CompOf, BatchComps;
    PathHead(b, F, from);
    var ops := b(F[..from]).Ops();
    var next := from + |ops|;
    var outcomes := F[from..next];
    if |BatchComps(ops, from, outcomes)| >= 2 {
      i, j := TwoOfABatch(ops, from, outcomes);
      cut := from;
    } else {
      assert F[..from] + outcomes == F[..next];
      LongerIsPath(b, F[..from], 0, outcomes);
      cut, i, j := FindsPair(b, F, next);
    }
  }

  /** The operations of a recorded batch that have not come back do so, from the `i`-th on. */
  lemma {:induction false} RestComesBack(p: Program, d: Durable, h: seq<Outcome>, outs: seq<Outcome>, i: nat, v: Driver)
    returns (acts: seq<Act>, more: seq<Comp>)
    requires HasStarted(d.journal) && v.h == h && i <= |outs| == |p.body(h).Ops()|
    requires forall k :: 0 <= k < |outs| ==> Comes(p.body(h).Ops()[k], |h| + k, d.journal, outs[k])
    requires (forall k :: 0 <= k < i ==> k in v.returned) && (forall k :: k in v.returned ==> k < |outs|)
    ensures Exec(p, State(d, Some(v)), acts) == Some(State(d, Some(Driver(h, Below(|outs|), v.stack + more))))
    decreases |outs| - i
  {
    hide CompOf, HasStarted, Comes, Next;
    var here := State(d, Some(v));
    if i == |outs| {
      acts, more := [], [];
      assert v.returned == Below(|outs|) && v.stack + [] == v.stack;
      assert Exec(p, here, []) == Some(here);
    } else if i in v.returned {
      acts, more := RestComesBack(p, d, h, outs, i + 1, v);
    } else {
      var one := CompOf(p.body(h).Ops()[i], |h| + i, outs[i]);
      var v' := Driver(h, v.returned + {i}, v.stack + one);
      ComesBack(p, d, v, i, outs[i]);
      OneMore(p, here, Back(i), State(d, Some(v')));
      var rest, later := RestComesBack(p, d, h, outs, i + 1, v');
      acts, more := [Back(i)] + rest, one + later;
      assert v.stack + one + later == v.stack + more;
      ExecConcat(p, here, [Back(i)], State(d, Some(v')), rest, State(d, Some(Driver(h, Below(|outs|), v.stack + more))));
    }
  }

  lemma {:induction false} ComesBack(p: Program, d: Durable, v: Driver, i: nat, outcome: Outcome)
    requires HasStarted(d.journal) && i < |p.body(v.h).Ops()| && i !in v.returned
    requires Comes(p.body(v.h).Ops()[i], |v.h| + i, d.journal, outcome)
    ensures Next(p, State(d, Some(v)), Back(i)) ==
            Some(State(d, Some(Driver(v.h, v.returned + {i}, v.stack + CompOf(p.body(v.h).Ops()[i], |v.h| + i, outcome)))))
  {
    hide CompOf, HasStarted, Recorded, Diverges, At;
  }

  /** A drive that is given everything in op order up to a history gets there. */
  lemma {:induction false} GetsTo(p: Program, d: Durable, h: seq<Outcome>, F: seq<Outcome>)
    returns (acts: seq<Act>)
    requires IsPath(p.body, h, 0) && IsPath(p.body, F, 0) && JournalOk(p, d.journal, F) && HasStarted(d.journal)
    requires |h| <= |F| && h == F[..|h|]
    ensures Exec(p, State(d, None), acts) == Some(State(d, Some(Driver(h, {}, Comps(p.body, h, 0)))))
  {
    hide HasStarted, JournalOk, Comps, IsPath, Exec;
    var booted := State(d, Some(Driver([], {}, [])));
    NoComps(p.body);
    OneMore(p, State(d, None), Boot, booted);
    var rest, more := CatchUp(p, d, [], h, F, []);
    assert [] + more == more && Comps(p.body, h, 0) == more;
    acts := [Boot] + rest;
    ExecConcat(p, State(d, None), [Boot], booted, rest, State(d, Some(Driver(h, {}, more))));
  }

  /** A recorded batch whose `j`-th operation comes back first is joined all the same. */
  lemma {:induction false} BatchJthFirst(p: Program, d: Durable, h: seq<Outcome>, outs: seq<Outcome>, j: nat,
      stack: seq<Comp>)
    returns (acts: seq<Act>, more: seq<Comp>)
    requires HasStarted(d.journal) && j < |outs| == |p.body(h).Ops()|
    requires forall k :: 0 <= k < |outs| ==> Comes(p.body(h).Ops()[k], |h| + k, d.journal, outs[k])
    ensures Exec(p, State(d, Some(Driver(h, {}, stack))), acts) ==
            Some(State(d, Some(Driver(h + outs, {}, stack + CompOf(p.body(h).Ops()[j], |h| + j, outs[j]) + more))))
  {
    hide HasStarted, Next, CompOf, Comes, Exec;
    var at, v := State(d, Some(Driver(h, {}, stack))), Driver(h, {j}, stack + CompOf(p.body(h).Ops()[j], |h| + j, outs[j]));
    assert {} + {j} == {j};
    ComesBack(p, d, at.v.value, j, outs[j]);
    OneMore(p, at, Back(j), State(d, Some(v)));
    acts, more := RestComesBack(p, d, h, outs, 0, v);
    var back, next := Driver(h, Below(|outs|), v.stack + more), Driver(h + outs, {}, v.stack + more);
    JoinsAll(p, d, h, outs, v.stack + more);
    OneMore(p, State(d, Some(back)), Join, State(d, Some(next)));
    ExecConcat(p, at, [Back(j)], State(d, Some(v)), acts, State(d, Some(back)));
    ExecConcat(p, at, [Back(j)] + acts, State(d, Some(back)), [Join], State(d, Some(next)));
    acts := [Back(j)] + acts + [Join];
  }

  /** A drive that is given the `j`-th operation of a batch first gets to the end all the same. */
  lemma {:induction false} JthFirst(p: Program, d: Durable, h: seq<Outcome>, F: seq<Outcome>, j: nat)
    returns (acts: seq<Act>, more: seq<Comp>)
    requires IsPath(p.body, h, 0) && IsPath(p.body, F, 0) && JournalOk(p, d.journal, F) && HasStarted(d.journal)
    requires |h| < |F| && h == F[..|h|] && j < |p.body(h).Ops()| && |h| + j < |F|
    ensures var first := Comps(p.body, h, 0) + CompOf(p.body(h).Ops()[j], |h| + j, F[|h| + j]);
            Exec(p, State(d, None), acts) == Some(State(d, Some(Driver(F, {}, first + more))))
  {
    hide HasStarted, IsPath, JournalOk, Comps, CompOf, Comes, Exec, BatchComps;
    var outs := BatchOf(p, d.journal, h, F);
    var H, comps := h + outs, Comps(p.body, h, 0);
    var stack := comps + CompOf(p.body(h).Ops()[j], |h| + j, outs[j]);
    var at := State(d, Some(Driver(h, {}, comps)));
    var first := GetsTo(p, d, h, F);
    var batch, here := BatchJthFirst(p, d, h, outs, j, comps);
    var next := State(d, Some(Driver(H, {}, stack + here)));
    ExecConcat(p, State(d, None), first, at, batch, next);
    var rest, later := CatchUp(p, d, H, F, F, stack + here);
    more := here + later;
    assert stack + here + later == stack + more;
    acts := (first + batch) + rest;
    ExecConcat(p, State(d, None), first + batch, next, rest, State(d, Some(Driver(F, {}, stack + more))));
  }

  /** The compensation an operation of a batch registered is one of the path's, and of no earlier batch. */
  lemma {:induction false} RegisteredBy(p: Program, journal: Log, F: seq<Outcome>, h: seq<Outcome>, i: nat)
    returns (c: Comp)
    requires IsPath(p.body, F, 0) && IsPath(p.body, h, 0) && |h| < |F| && h == F[..|h|]
    requires i < |p.body(h).Ops()| && |h| + i < |F| && CompOf(p.body(h).Ops()[i], |h| + i, F[|h| + i]) != []
    ensures CompOf(p.body(h).Ops()[i], |h| + i, F[|h| + i]) == [c] && c.opId == |h| + i
    ensures c in Comps(p.body, F, 0) && c !in Comps(p.body, h, 0)
  {
    hide IsPath, Comps, CompOf;
    c := CompOf(p.body(h).Ops()[i], |h| + i, F[|h| + i])[0];
    CompOfShape(p.body(h).Ops()[i], |h| + i, F[|h| + i]);
    BatchBelow(p, journal, F, h);
    CompsMembers(p.body, F, 0, c);
    CompsMembers(p.body, h, 0, c);
  }

  lemma {:induction false} FoundAbove(comps: seq<Comp>, stack: seq<Comp>, x: Comp, y: Comp)
    returns (above: nat)
    requires comps + [y] <= stack && x in stack && x !in comps && x != y
    ensures |comps| < above < |stack| && stack[above] == x && stack[|comps|] == y
  {
    above :| 0 <= above < |stack| && stack[above] == x;
    assert forall k :: 0 <= k < |comps| ==> stack[k] in comps;
    assert stack[|comps|] == y;
  }

  /** Where a batch registered two compensations, some drive puts the one of a later operation below. */
  lemma {:induction false} OutOfOrder(p: Program, d: Durable, F: seq<Outcome>)
    returns (acts: seq<Act>, stack: seq<Comp>, below: nat, above: nat)
    requires InvAt(p, State(d, None), F) && HasStarted(d.journal) && p.body(F).Ops() == []
    requires IsPath(p.body, F, 0) && !LoneUndos(p.body, F, 0)
    ensures Exec(p, State(d, None), acts) == Some(State(d, Some(Driver(F, {}, stack))))
    ensures Orders(stack, Comps(p.body, F, 0)) && below < above < |stack| && stack[below].opId > stack[above].opId
  {
    hide InvAt, HasStarted, IsPath, Comps, CompOf, LoneUndos, Exec, JournalOk, Next;
    assert F[..0] == [];
    NoComps(p.body);
    var cut, i, j := FindsPair(p.body, F, 0);
    var h := F[..cut];
    JournalPart(p, State(d, None), F);
    var x := RegisteredBy(p, d.journal, F, h, i);
    var y := RegisteredBy(p, d.journal, F, h, j);
    var more;
    acts, more := JthFirst(p, d, h, F, j);
    stack := Comps(p.body, h, 0) + [y] + more;
    DriveOrders(p, d, F, acts, stack);
    below := |Comps(p.body, h, 0)|;
    above := FoundAbove(Comps(p.body, h, 0), stack, x, y);
  }

  lemma {:induction false} DriveOrders(p: Program, d: Durable, F: seq<Outcome>, acts: seq<Act>, stack: seq<Comp>)
    requires InvAt(p, State(d, None), F) && p.body(F).Ops() == [] && IsPath(p.body, F, 0)
    requires Exec(p, State(d, None), acts) == Some(State(d, Some(Driver(F, {}, stack))))
    ensures InvAt(p, State(d, Some(Driver(F, {}, stack))), F) && Orders(stack, Comps(p.body, F, 0))
  {
    hide Good, DriverOk, IsPath, Comps, Exec;
    var s := State(d, Some(Driver(F, {}, stack)));
    var G := ExecKeeps(p, State(d, None), F, acts, s);
    SameFrontier(p, State(d, None), F, s, G);
    JournalPart(p, s, F);
    DoneMeansFrontier(p, d.journal, F, s.v.value);
  }

  /** For every reachable run whose body is done: the stack of compensations is the same whatever order a
      driver is given the recorded outcomes in, if and only if each batch registered at most one. */
  lemma {:induction false} StackIsFixed(p: Program, s: State)
    returns (F: seq<Outcome>)
    requires Reachable(p, s) && HasStarted(s.d.journal) && p.body(Replay(p.body, s.d.journal, [])).Ops() == []
    ensures F == Replay(p.body, s.d.journal, [])
    ensures (forall a, b :: Builds(p, s.d, F, a) && Builds(p, s.d, F, b) ==> a == b) <==> LoneUndos(p.body, F, 0)
  {
    hide Reachable, HasStarted, Replay, IsPath, Comps, LoneUndos, Exec, SagaOk, InvAt, Orders, Ascending;
    var rest := State(s.d, None);
    Stopped(p, s);
    F := ReachableIsSagaOk(p, rest, false);
    CompsAscend(p.body, F, 0);
    if LoneUndos(p.body, F, 0) {
      forall a | Builds(p, s.d, F, a)
        ensures a == Comps(p.body, F, 0)
      {
        LoneStack(p, s.d, F, a);
      }
    } else {
      var acts, stack, below, above := OutOfOrder(p, s.d, F);
      assert Builds(p, s.d, F, stack);
      JournalPart(p, rest, F);
      assert F[..|F|] == F;
      var backs := GetsTo(p, s.d, F, F);
      assert Builds(p, s.d, F, Comps(p.body, F, 0));
      NotAscending(stack, below, above);
    }
  }

  lemma {:induction false} NotAscending(stack: seq<Comp>, below: nat, above: nat)
    requires below < above < |stack| && stack[below].opId > stack[above].opId
    ensures !Ascending(stack)
  {
  }

  lemma {:induction false} Stopped(p: Program, s: State)
    requires Reachable(p, s)
    ensures Reachable(p, State(s.d, None))
  {
    hide Reachable, Exec;
    OneMore(p, s, Crash, State(s.d, None));
    StaysReachable(p, s, [Crash], State(s.d, None));
  }

  lemma {:induction false} LoneStack(p: Program, d: Durable, F: seq<Outcome>, stack: seq<Comp>)
    requires Reachable(p, State(d, None)) && F == Replay(p.body, d.journal, []) && p.body(F).Ops() == []
    requires IsPath(p.body, F, 0) && LoneUndos(p.body, F, 0) && Builds(p, d, F, stack)
    ensures stack == Comps(p.body, F, 0)
  {
    hide Reachable, Replay, IsPath, Comps, LoneUndos, Exec, Good, DriverOk, Orderly;
    var acts :| Exec(p, State(d, None), acts) == Some(State(d, Some(Driver(F, {}, stack))));
    var s := State(d, Some(Driver(F, {}, stack)));
    StaysReachable(p, State(d, None), acts, s);
    var G := ReachableIsSagaOk(p, s, false);
    JournalPart(p, s, F);
    DoneInOrder(p, d.journal, F, s.v.value, false);
  }

  // ---- what a stack out of order leads to ----

  /** Compensating has come down to the `n`-th entry of the stack: those above are settled, those below untouched. */
  ghost predicate DownTo(p: Program, s: State, n: nat) {
    && s.v.Some? && HasStarted(s.d.journal) && p.body(s.v.value.h).Raise? && n <= |s.v.value.stack|
    && (forall k :: n <= k < |s.v.value.stack| ==> Settled(At(s.d.journal, UndoLane(s.v.value.stack[k].opId))))
    && (forall k :: 0 <= k < n ==> At(s.d.journal, UndoLane(s.v.value.stack[k].opId)) == [])
    && (forall i, j :: 0 <= i < j < |s.v.value.stack| ==> s.v.value.stack[i].opId != s.v.value.stack[j].opId)
  }

  /** The next to compensate is the last one that is not settled. */
  lemma {:induction false} NextIsTop(stack: seq<Comp>, journal: Log, n: nat)
    requires 0 < n <= |stack| && At(journal, UndoLane(stack[n - 1].opId)) == []
    requires forall k :: n <= k < |stack| ==> Settled(At(journal, UndoLane(stack[k].opId)))
    ensures NextUndo(stack, journal) == Some(stack[n - 1])
    decreases |stack|
  {
    if n < |stack| {
      NextIsTop(stack[..|stack| - 1], journal, n);
    }
  }

  const DONE := World(0.0, 0.0, Success("null"), 0.0, "")

  /** A compensation that succeeds at its first attempt. */
  lemma {:induction false} FirstAttempt(undo: Undo)
    ensures UndoProgress(undo, [], DONE) == Some(CompCompleted(undo.name, 1))
  {
  }

  lemma {:induction false} UndoesOne(p: Program, s: State, n: nat)
    returns (s': State)
    requires DownTo(p, s, n) && n > 0
    ensures Next(p, s, Compensate(DONE, false)) == Some(s') && DownTo(p, s', n - 1) && s'.v == s.v
  {
    hide NextUndo, HasStarted, Settled, At, UndoProgress, Tally;
    var c := s.v.value.stack[n - 1];
    NextIsTop(s.v.value.stack, s.d.journal, n);
    FirstAttempt(c.undo);
    s' := Next(p, s, Compensate(DONE, false)).value;
    assert s'.d.journal == s.d.journal + [Event(|s.d.journal|, c.opId, CompCompleted(c.undo.name, 1), 0.0)];
    OneFurtherDown(p, s, n, s'.d.journal[|s.d.journal|], s');
  }

  lemma {:induction false} OneFurtherDown(p: Program, s: State, n: nat, e: Event, s': State)
    requires DownTo(p, s, n) && n > 0 && e.opId == s.v.value.stack[n - 1].opId && e.fact.CompCompleted?
    requires s'.v == s.v && s'.d.journal == s.d.journal + [e]
    ensures DownTo(p, s', n - 1)
  {
    hide HasStarted, Settled, At;
    var stack := s.v.value.stack;
    StartedStays(s.d.journal, e);
    AtAppend(s.d.journal, e);
    SettledAtOnce(Entry(e.fact, e.ts));
    assert LaneOf(e) == UndoLane(stack[n - 1].opId);
  }

  lemma {:induction false} SettledAtOnce(x: Entry)
    requires x.fact.CompCompleted?
    ensures Settled([] + [x])
  {
    assert [] + [x] == [x];
  }

  lemma {:induction false} UndoesDown(p: Program, s: State, n: nat, to: nat)
    returns (acts: seq<Act>, s': State)
    requires DownTo(p, s, n) && to <= n
    ensures Uninterrupted(acts) && Exec(p, s, acts) == Some(s') && DownTo(p, s', to) && s'.v == s.v
    decreases n
  {
    hide Next, DownTo;
    if n == to {
      acts, s' := [], s;
    } else {
      var mid := UndoesOne(p, s, n);
      var act := Compensate(DONE, false);
      var rest;
      rest, s' := UndoesDown(p, mid, n - 1, to);
      OneMore(p, s, act, mid);
      acts := [act] + rest;
      ExecConcat(p, s, [act], mid, rest, s');
    }
  }

  /** A compensation with a later one below it on the stack is run before that one. */
  lemma {:induction false} RunsFirst(p: Program, s: State, comps: seq<Comp>, below: nat, above: nat)
    returns (acts: seq<Act>, s': State)
    requires s.v.Some? && DownTo(p, s, |s.v.value.stack|) && Orders(s.v.value.stack, comps) && Ascending(comps)
    requires below < above < |s.v.value.stack| && s.v.value.stack[below].opId > s.v.value.stack[above].opId
    ensures Uninterrupted(acts) && Exec(p, s, acts) == Some(s') && !LastInFirstOut(comps, s'.d.journal)
  {
    hide Exec, HasStarted, At, Settled;
    var stack := s.v.value.stack;
    acts, s' := UndoesDown(p, s, |stack|, above);
    assert Settled(At(s'.d.journal, UndoLane(stack[above].opId))) && At(s'.d.journal, UndoLane(stack[below].opId)) == [];
    SettledHasEvents(At(s'.d.journal, UndoLane(stack[above].opId)));
    Unsettled();
    assert stack[below] in comps && stack[above] in comps;
    var i :| 0 <= i < |comps| && comps[i] == stack[above];
    var k :| 0 <= k < |comps| && comps[k] == stack[below];
    assert i < k;
  }

  lemma {:induction false} Unsettled()
    ensures !Settled([])
  {
  }

  /** The exact condition for last-in first-out: of a run whose body raised and that has not begun to
      compensate, every schedule of crashes and resumes compensates last-in first-out if and only if each
      batch registered at most one compensation. */
  lemma {:induction false} LastInFirstOutExactly(p: Program, s: State)
    returns (F: seq<Outcome>)
    requires Reachable(p, s) && HasStarted(s.d.journal) && p.body(Replay(p.body, s.d.journal, [])).Raise?
    requires forall id :: At(s.d.journal, UndoLane(id)) == []
    ensures F == Replay(p.body, s.d.journal, []) && IsPath(p.body, F, 0)
    ensures (forall acts, s' :: Exec(p, State(s.d, None), acts) == Some(s') ==> LastInFirstOut(Comps(p.body, F, 0), s'.d.journal))
            <==> LoneUndos(p.body, F, 0)
  {
    hide Reachable, HasStarted, Replay, IsPath, Comps, LoneUndos, Exec, LastInFirstOut, InvAt, At, SagaOk;
    Stopped(p, s);
    F := ReachableIsSagaOk(p, State(s.d, None), false);
    if LoneUndos(p.body, F, 0) {
      forall acts, s' | Exec(p, State(s.d, None), acts) == Some(s')
        ensures LastInFirstOut(Comps(p.body, F, 0), s'.d.journal)
      {
        LoneRunsBackwards(p, State(s.d, None), F, acts, s');
      }
    } else {
      var acts, s' := RunsForwards(p, s.d, F);
    }
  }

  lemma {:induction false} LoneRunsBackwards(p: Program, s: State, F: seq<Outcome>, acts: seq<Act>, s': State)
    requires Reachable(p, s) && InvAt(p, s, F) && IsPath(p.body, F, 0) && p.body(F).Raise?
    requires LoneUndos(p.body, F, 0) && Exec(p, s, acts) == Some(s')
    ensures LastInFirstOut(Comps(p.body, F, 0), s'.d.journal)
  {
    hide Reachable, Replay, IsPath, Comps, LoneUndos, Exec, LastInFirstOut, InvAt, Descending, ExactFailures, FairlyReached;
    StaysReachable(p, s, acts, s');
    var G := ReachableIsSagaOk(p, s', false);
    RaiseIsFinal(p, s, F, acts, s', G);
  }

  /** Where a batch registered two compensations, some schedule runs the one of the earlier operation first. */
  lemma {:induction false} RunsForwards(p: Program, d: Durable, F: seq<Outcome>)
    returns (acts: seq<Act>, s': State)
    requires InvAt(p, State(d, None), F) && HasStarted(d.journal) && p.body(F).Raise? && IsPath(p.body, F, 0)
    requires (forall id :: At(d.journal, UndoLane(id)) == []) && !LoneUndos(p.body, F, 0)
    ensures Exec(p, State(d, None), acts) == Some(s') && !LastInFirstOut(Comps(p.body, F, 0), s'.d.journal)
  {
    hide HasStarted, IsPath, Comps, LoneUndos, Exec, LastInFirstOut, InvAt, At, Settled;
    var first, stack, below, above := OutOfOrder(p, d, F);
    var mid := State(d, Some(Driver(F, {}, stack)));
    CompsAscend(p.body, F, 0);
    var rest;
    rest, s' := RunsFirst(p, mid, Comps(p.body, F, 0), below, above);
    ExecConcat(p, State(d, None), first, mid, rest, s');
    acts := first + rest;
  }

  // ---- a run of that kind ----

  /** The `i`-th step of a body's first batch is opened. */
  lemma {:induction false} StepOpens(p: Program, s: State, i: nat)
    returns (s': State)
    requires s.v == Some(Driver([], {}, [])) && HasStarted(s.d.journal)
    requires i < |p.body([]).Ops()| && p.body([]).Ops()[i].Step? && At(s.d.journal, OpLane(i)) == []
    ensures Next(p, s, Live(i, DONE, false)) == Some(s') && s'.v == s.v && HasStarted(s'.d.journal)
    ensures |At(s'.d.journal, OpLane(i))| == 1 && Opened(p.body([]).Ops()[i], At(s'.d.journal, OpLane(i))[0])
    ensures forall lane :: lane != OpLane(i) ==> At(s'.d.journal, lane) == At(s.d.journal, lane)
  {
    hide HasStarted, At, Recorded, Progress, Invocation;
    assert 0 + i == i;
    NothingRecorded(p.body([]).Ops()[i], i);
    s' := Next(p, s, Live(i, DONE, false)).value;
    var e := s'.d.journal[|s.d.journal|];
    assert s'.d.journal == s.d.journal + [e];
    StartedStays(s.d.journal, e);
    AtAppend(s.d.journal, e);
  }

  predicate Opened(op: Op, x: Entry)
    requires op.Step?
  {
    x.fact.StepScheduled? && x.fact.name == op.name
  }

  /** It succeeds at its first attempt. */
  lemma {:induction false} StepSucceeds(p: Program, s: State, i: nat)
    returns (s': State)
    requires s.v == Some(Driver([], {}, [])) && HasStarted(s.d.journal)
    requires i < |p.body([]).Ops()| && p.body([]).Ops()[i].Step?
    requires |At(s.d.journal, OpLane(i))| == 1 && Opened(p.body([]).Ops()[i], At(s.d.journal, OpLane(i))[0])
    ensures Next(p, s, Live(i, DONE, false)) == Some(s') && s'.v == s.v && HasStarted(s'.d.journal)
    ensures Comes(p.body([]).Ops()[i], i, s'.d.journal, Returned("null"))
    ensures forall lane :: lane != OpLane(i) ==> At(s'.d.journal, lane) == At(s.d.journal, lane)
  {
    hide HasStarted, At, Comes, Recorded, Diverges, Definition, Progress, Opening, Invocation;
    assert 0 + i == i;
    var op, x := p.body([]).Ops()[i], At(s.d.journal, OpLane(i))[0];
    assert At(s.d.journal, OpLane(i)) == [x];
    OnlyOpened(op, i, x);
    s' := Next(p, s, Live(i, DONE, false)).value;
    var e := s'.d.journal[|s.d.journal|];
    assert s'.d.journal == s.d.journal + [e];
    StartedStays(s.d.journal, e);
    AtAppend(s.d.journal, e);
    assert [x] + [Entry(e.fact, e.ts)] == [x, Entry(e.fact, e.ts)];
    Succeeded(op, i, s'.d.journal, x, Entry(e.fact, e.ts));
  }

  lemma {:induction false} OnlyOpened(op: Op, id: nat, x: Entry)
    requires op.Step? && Opened(op, x)
    ensures !Diverges(op, [x]) && Recorded(op, id, [x]).None? && Definition([x]).Some?
    ensures forall used, inbox :: Progress(op, [x], used, inbox, DONE) == Some(StepCompleted(op.name, "null", 1))
  {
    assert [x][1..] == [] && [x][..0] == [];
    assert Final([x], STEP_ATTEMPT_FAILED).None? && Tally([x], STEP_ATTEMPT_FAILED) == 0;
  }

  lemma {:induction false} Succeeded(op: Op, id: nat, journal: Log, x: Entry, y: Entry)
    requires op.Step? && Opened(op, x) && y.fact == StepCompleted(op.name, "null", 1)
    requires At(journal, OpLane(id)) == [x, y]
    ensures Comes(op, id, journal, Returned("null"))
  {
    hide At;
    FirstSome([x, y], STEP_COMPLETED, 1);
    FirstCons(x, [y], STEP_COMPLETED);
    assert [x] + [y] == [x, y];
  }

  /** The body starts with a gather of two steps that both have a compensation. */
  ghost predicate StartsWithTwo(p: Program) {
    && |p.body([]).Ops()| == 2
    && forall op :: op in p.body([]).Ops() ==> op.Step? && op.undo.Some?
  }

  const BOTH: seq<Outcome> := [Returned("null"), Returned("null")]

  /** Both steps are opened, and the second one succeeds first. */
  lemma {:induction false} BothSucceed(p: Program)
    returns (acts: seq<Act>, s: State)
    requires StartsWithTwo(p)
    ensures Uninterrupted(acts) && Exec(p, Initial(p), [Boot] + acts) == Some(s) && s.v == Some(Driver([], {}, []))
    ensures HasStarted(s.d.journal) && forall id :: At(s.d.journal, UndoLane(id)) == []
    ensures Comes(p.body([]).Ops()[0], 0, s.d.journal, BOTH[0]) && Comes(p.body([]).Ops()[1], 1, s.d.journal, BOTH[1])
  {
    hide Next, At, HasStarted, Comes, Opened, Exec, Initial;
    var ops := p.body([]).Ops();
    assert ops[0] in ops && ops[1] in ops;
    var s1 := State(Initial(p).d, Some(Driver([], {}, [])));
    var s2 := Begins(p, s1);
    var s3 := StepOpens(p, s2, 0);
    var s4 := StepOpens(p, s3, 1);
    var s5 := StepSucceeds(p, s4, 1);
    s := StepSucceeds(p, s5, 0);
    SameLane(ops[1], 1, s5.d.journal, s.d.journal, BOTH[1]);
    acts := [Start(0.0), Live(0, DONE, false), Live(1, DONE, false), Live(1, DONE, false), Live(0, DONE, false)];
    SixActs(p, Initial(p), s1, s2, s3, s4, s5, s, [Boot] + acts);
  }

  lemma {:induction false} Begins(p: Program, s1: State)
    returns (s2: State)
    requires s1 == State(Initial(p).d, Some(Driver([], {}, [])))
    ensures Next(p, Initial(p), Boot) == Some(s1) && Next(p, s1, Start(0.0)) == Some(s2) && s2.v == s1.v
    ensures HasStarted(s2.d.journal) && forall lane :: lane != RunLane ==> At(s2.d.journal, lane) == []
  {
    var e := Event(0, -1, RunStarted(p.tags), 0.0);
    s2 := State(Append(s1.d, -1, RunStarted(p.tags), 0.0), s1.v);
    assert s2.d.journal == [] + [e];
    AtAppend([], e);
  }

  lemma {:induction false} SameLane(op: Op, id: nat, journal: Log, journal': Log, outcome: Outcome)
    requires Comes(op, id, journal, outcome) && At(journal', OpLane(id)) == At(journal, OpLane(id))
    ensures Comes(op, id, journal', outcome)
  {
  }

  lemma {:induction false} SixActs(p: Program, s0: State, s1: State, s2: State, s3: State, s4: State, s5: State,
      s6: State,
      acts: seq<Act>)
    requires |acts| == 6 && Next(p, s0, acts[0]) == Some(s1) && Next(p, s1, acts[1]) == Some(s2)
    requires Next(p, s2, acts[2]) == Some(s3) && Next(p, s3, acts[3]) == Some(s4)
    requires Next(p, s4, acts[4]) == Some(s5) && Next(p, s5, acts[5]) == Some(s6)
    ensures Exec(p, s0, acts) == Some(s6)
  {
    hide Next;
    assert Exec(p, s5, acts[5..]) == Some(s6) by { assert acts[5..][1..] == []; }
    assert Exec(p, s4, acts[4..]) == Some(s6) by { assert acts[4..][1..] == acts[5..]; }
    assert Exec(p, s3, acts[3..]) == Some(s6) by { assert acts[3..][1..] == acts[4..]; }
    assert Exec(p, s2, acts[2..]) == Some(s6) by { assert acts[2..][1..] == acts[3..]; }
    assert Exec(p, s1, acts[1..]) == Some(s6) by { assert acts[1..][1..] == acts[2..]; }
  }

  /** Both outcomes are recorded: the history ends after them. */
  lemma {:induction false} BothReplayed(p: Program, journal: Log)
    requires StartsWithTwo(p) && p.body(BOTH).Raise?
    requires Comes(p.body([]).Ops()[0], 0, journal, BOTH[0]) && Comes(p.body([]).Ops()[1], 1, journal, BOTH[1])
    ensures Replay(p.body, journal, []) == BOTH
  {
    hide At, Recorded, Diverges;
    var ops := p.body([]).Ops();
    assert 0 + 0 == 0 && 0 + 1 == 1;
    assert AllRecorded(ops, 0, journal);
    assert Outcomes(ops, 0, journal) == BOTH;
    assert [] + BOTH == BOTH;
    assert Replay(p.body, journal, BOTH) == BOTH;
  }

  /** What the batch registers, and in which order it has to be compensated. */
  lemma {:induction false} BothRegister(p: Program)
    returns (x: Comp, y: Comp)
    requires StartsWithTwo(p) && p.body(BOTH).Raise?
    ensures IsPath(p.body, BOTH, 0) && Comps(p.body, BOTH, 0) == [x, y] && x.opId == 0 && y.opId == 1
    ensures CompOf(p.body([]).Ops()[0], 0, BOTH[0]) == [x] && CompOf(p.body([]).Ops()[1], 1, BOTH[1]) == [y]
  {
    hide BatchComps;
    var ops := p.body([]).Ops();
    assert ops[0] in ops && ops[1] in ops && ops == [ops[0], ops[1]];
    x, y := Comp(0, ops[0].undo.value), Comp(1, ops[1].undo.value);
    NoComps(p.body);
    PathExtend(p.body, [], 0, BOTH);
    BothUndos(ops[0], ops[1], x, y);
    assert [] + BOTH == BOTH && [] + [x, y] == [x, y];
  }

  lemma {:induction false} BothUndos(a: Op, b: Op, x: Comp, y: Comp)
    requires CompOf(a, 0, BOTH[0]) == [x] && CompOf(b, 1, BOTH[1]) == [y]
    ensures BatchComps([a, b], 0, BOTH) == [x, y]
  {
    hide CompOf;
    assert [a, b][1..] == [b] && BOTH[1..] == [BOTH[1]] && [b][1..] == [] && [BOTH[1]][1..] == [];
    assert BatchComps([b], 1, [BOTH[1]]) == [y] + [];
  }

  /** The steps come back in the order they succeeded in. */
  lemma {:induction false} SecondComesFirst(p: Program, d: Durable, x: Comp, y: Comp)
    requires StartsWithTwo(p) && HasStarted(d.journal)
    requires CompOf(p.body([]).Ops()[0], 0, BOTH[0]) == [x] && CompOf(p.body([]).Ops()[1], 1, BOTH[1]) == [y]
    requires Comes(p.body([]).Ops()[0], 0, d.journal, BOTH[0]) && Comes(p.body([]).Ops()[1], 1, d.journal, BOTH[1])
    ensures Exec(p, State(d, Some(Driver([], {}, []))), [Back(1), Back(0), Join]) == Some(State(d, Some(Driver(BOTH, {}, [y, x]))))
  {
    hide Next, CompOf, HasStarted, Comes, Below;
    var v1, v2 := Driver([], {1}, [y]), Driver([], Below(2), [y, x]);
    assert {} + {1} == {1} && [] + [y] == [y] && {1} + {0} == Below(2) && [y] + [x] == [y, x] && [] + BOTH == BOTH;
    ComesBack(p, d, Driver([], {}, []), 1, BOTH[1]);
    ComesBack(p, d, v1, 0, BOTH[0]);
    JoinsAll(p, d, [], BOTH, [y, x]);
    ThreeActs(p, State(d, Some(Driver([], {}, []))), Back(1), State(d, Some(v1)), Back(0), State(d, Some(v2)), Join,
              State(d, Some(Driver(BOTH, {}, [y, x]))));
  }

  lemma {:induction false} ThreeActs(p: Program, s: State, a: Act, s1: State, b: Act, s2: State, c: Act, s3: State)
    requires Next(p, s, a) == Some(s1) && Next(p, s1, b) == Some(s2) && Next(p, s2, c) == Some(s3)
    ensures Exec(p, s, [a, b, c]) == Some(s3)
  {
    hide Next, Exec;
    OneMore(p, s, a, s1);
    OneMore(p, s1, b, s2);
    OneMore(p, s2, c, s3);
    ExecConcat(p, s, [a], s1, [b], s2);
    ExecConcat(p, s, [a] + [b], s2, [c], s3);
    assert [a] + [b] + [c] == [a, b, c];
  }

  /** A body that gathers two compensated steps and raises after both succeeded has a run, from its creation
      and without any interruption, that compensates the first step before the second. */
  lemma {:induction false} GatherReorders(p: Program)
    returns (acts: seq<Act>, s: State)
    requires StartsWithTwo(p) && p.body(BOTH).Raise?
    ensures Uninterrupted(acts) && Exec(p, Initial(p), [Boot] + acts) == Some(s)
    ensures BOTH == Replay(p.body, s.d.journal, []) && IsPath(p.body, BOTH, 0)
    ensures !LastInFirstOut(Comps(p.body, BOTH, 0), s.d.journal)
  {
    hide Exec, Next, HasStarted, At, Replay, IsPath, Comps, LastInFirstOut, InvAt, Comes, StartsWithTwo, Initial, CompOf;
    var first, mid := BothSucceed(p);
    BothReplayed(p, mid.d.journal);
    var x, y := BothRegister(p);
    SecondComesFirst(p, mid.d, x, y);
    var backs, joined := [Back(1), Back(0), Join], State(mid.d, Some(Driver(BOTH, {}, [y, x])));
    ExecConcat(p, Initial(p), [Boot] + first, mid, backs, joined);
    InvariantThere(p, [Boot] + first + backs, joined, BOTH);
    var last;
    last, s := RunsFirst(p, joined, [x, y], 0, 1);
    ExecConcat(p, Initial(p), [Boot] + first + backs, joined, last, s);
    acts := first + backs + last;
    assert [Boot] + acts == [Boot] + first + backs + last;
    InvariantAfter(p, joined, BOTH, last, s);
  }

  lemma {:induction false} InvariantThere(p: Program, acts: seq<Act>, s: State, F: seq<Outcome>)
    requires Exec(p, Initial(p), acts) == Some(s) && F == Replay(p.body, s.d.journal, [])
    ensures InvAt(p, s, F)
  {
    hide Exec, Replay, InvAt, JournalOk;
    InitialIsGood(p);
    var G := ExecKeeps(p, Initial(p), [], acts, s);
    JournalPart(p, s, G);
    NoComps(p.body);
    ReplayReachesFrontier(p, s.d.journal, G, []);
  }

  lemma {:induction false} InvariantAfter(p: Program, s: State, F: seq<Outcome>, acts: seq<Act>, s': State)
    requires InvAt(p, s, F) && IsPath(p.body, F, 0) && p.body(F).Raise? && Exec(p, s, acts) == Some(s')
    ensures Replay(p.body, s'.d.journal, []) == F
  {
    hide Exec, Replay, InvAt, JournalOk, IsPath;
    var G := ExecKeeps(p, s, F, acts, s');
    JournalPart(p, s', G);
    PathOf(p, s'.d.journal, G);
    RaiseIsFinal(p, s, F, acts, s', G);
    NoComps(p.body);
    ReplayReachesFrontier(p, s'.d.journal, G, []);
  }
}
