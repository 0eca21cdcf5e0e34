/** Durable deadlines and attempt budgets: what the journal of any reachable run says about timers,
    timeouts, retries and backoffs, however many crashes cut them up. */
module Deadlines {
  import opened Wrappers
  import opened Events
  import opened Retry
  import opened Engine
  import opened Lanes
  import opened Paths
  import opened Invariant
  import opened Preservation
  import opened Reachability
  import opened Replays
  import opened CrashSafety

  /** The operation the body requests at op id `id`, along the recorded history. */
  ghost function RequestedAt(b: Body, F: seq<Outcome>, id: nat): Option<Op>
    requires IsPath(b, F, 0)
  {
    if id < |F| then Some(OpAt(b, F, 0, id))
    else if id < |F| + |b(F).Ops()| then Some(b(F).Ops()[id - |F|])
    else None
  }

  /** Every journaled operation is one the body asks for, and its events have that operation's shape. */
  lemma {:induction false} EveryLaneIsRequested(p: Program, s: State, id: nat)
    requires Reachable(p, s)
    ensures IsPath(p.body, Replay(p.body, s.d.journal, []), 0)
    ensures var op, lane := RequestedAt(p.body, Replay(p.body, s.d.journal, []), id), At(s.d.journal, OpLane(id));
            if op.Some? then Shape(op.value, lane) else lane == []
  {
    hide Replay, Shape, Recorded, At, RunOk, UndoOk, EndOk, DriverOk, RecordOk, SuccessorOk, SignalsOk, IsPath,
        Reachable;
    var F := ReachableIsInvariant(p, s);
    PathOf(p, s.d.journal, F);
    if |F| <= id < |F| + |p.body(F).Ops()| {
      assert Shape(p.body(F).Ops()[id - |F|], At(s.d.journal, OpLane(|F| + (id - |F|))));
    }
  }

  /** Tries end within the budget of the policy, one number after the other, each backoff no longer than its widest wait. */
  ghost predicate WithinBudget(tries: seq<Entry>, policy: RetryPolicy) {
    forall i :: 0 <= i < |tries| ==> BudgetAt(tries, i, policy)
  }

  ghost predicate BudgetAt(tries: seq<Entry>, i: nat, policy: RetryPolicy)
    requires i < |tries|
  {
    match AsTry(tries[i].fact)
    case Again(_, attempt, retryAt) =>
      && attempt == i + 1 < policy.Budget() && (i + 1 < |tries| ==> retryAt <= tries[i + 1].ts)
      && tries[i].ts <= retryAt <= tries[i].ts + Widest(policy.BaseDelay(attempt), policy.jitter)
    case Over(_, attempts) => attempts == i + 1 == |tries| <= policy.Budget()
    case NotATry => false
  }

  lemma {:induction false} BackoffIsCapped(tries: seq<Entry>, i: nat, name: string, policy: RetryPolicy)
    requires i < |tries| && TryAt(tries, i, name, policy)
    ensures AsTry(tries[i].fact).Again? ==>
              var try := AsTry(tries[i].fact);
              tries[i].ts <= try.retryAt <= tries[i].ts + Widest(policy.BaseDelay(try.attempt), policy.jitter)
  {
    if AsTry(tries[i].fact).Again? {
      var try := AsTry(tries[i].fact);
      var draw: Draw :| try.retryAt == tries[i].ts + policy.Delay(try.attempt, draw);
      DelayIsCapped(policy, try.attempt, draw);
    }
  }

  lemma {:induction false} TriesStayWithinBudget(tries: seq<Entry>, name: string, policy: RetryPolicy)
    requires Tries(tries, name, policy)
    ensures WithinBudget(tries, policy)
  {
    forall i | 0 <= i < |tries|
      ensures BudgetAt(tries, i, policy)
    {
      assert TryAt(tries, i, name, policy);
      BackoffIsCapped(tries, i, name, policy);
      if i > 0 {
        assert TryAt(tries, i - 1, name, policy);
      }
    }
  }

  /** A step's attempts are numbered 1, 2, 3, ... across all crashes, never exceed the policy's budget,
      and no attempt's result is journaled before the backoff that preceded it was over. */
  lemma {:induction false} StepsStayWithinBudget(p: Program, s: State, id: nat)
    requires Reachable(p, s) && At(s.d.journal, OpLane(id)) != [] && At(s.d.journal, OpLane(id))[0].fact.StepScheduled?
    ensures IsPath(p.body, Replay(p.body, s.d.journal, []), 0)
    ensures var op := RequestedAt(p.body, Replay(p.body, s.d.journal, []), id);
            op.Some? && op.value.Step? && WithinBudget(At(s.d.journal, OpLane(id))[1..], op.value.policy)
  {
    hide Replay, Tries, WithinBudget, IsPath, RequestedAt;
    EveryLaneIsRequested(p, s, id);
    var op, lane := RequestedAt(p.body, Replay(p.body, s.d.journal, []), id).value, At(s.d.journal, OpLane(id));
    OpenedByStep(op, lane);
    TriesStayWithinBudget(lane[1..], op.name, op.policy);
  }

  lemma {:induction false} OpenedByStep(op: Op, lane: seq<Entry>)
    requires Shape(op, lane) && lane != [] && lane[0].fact.StepScheduled?
    ensures op.Step? && Tries(lane[1..], op.name, op.policy)
  {
  }

  /** The same for the attempts of a compensation. */
  lemma {:induction false} CompensationsStayWithinBudget(p: Program, s: State, id: nat)
    requires Reachable(p, s) && At(s.d.journal, UndoLane(id)) != []
    ensures IsPath(p.body, Replay(p.body, s.d.journal, []), 0)
    ensures exists c :: c in Comps(p.body, Replay(p.body, s.d.journal, []), 0) && c.opId == id &&
                        WithinBudget(At(s.d.journal, UndoLane(id)), c.undo.policy)
  {
    hide Replay, Tries, WithinBudget, Comps, PastOk, FrontOk, RunOk, EndOk, Numbered, DriverOk, RecordOk,
        SuccessorOk, SignalsOk;
    var F := ReachableIsInvariant(p, s);
    PathOf(p, s.d.journal, F);
    var lane := At(s.d.journal, UndoLane(id));
    var c :| c in Comps(p.body, F, 0) && c.opId == id && UndoShape(c.undo, lane);
    TriesStayWithinBudget(lane, c.undo.name, c.undo.policy);
  }

  /** A timer's deadline is journaled once, no later than asked for, and the timer never fires before it; a
      timeout is journaled at or after its deadline and never beside a consumed signal. */
  lemma {:induction false} TimersAndTimeoutsKeepTheirDeadline(p: Program, s: State, id: nat)
    requires Reachable(p, s)
    ensures var lane := At(s.d.journal, OpLane(id));
            lane != [] && lane[0].fact.TimerCreated? ==>
              && |lane| <= 2 && lane[0].fact.fireAt <= lane[0].ts + Max(lane[0].fact.seconds, 0.0)
              && (|lane| == 2 ==> lane[1].fact == TimerFired && lane[0].fact.fireAt <= lane[1].ts)
    ensures var lane := At(s.d.journal, OpLane(id));
            lane != [] && lane[0].fact.WaitCreated? ==>
              && |lane| <= 2
              && (|lane| == 2 && !lane[1].fact.EventConsumed? ==>
                    lane[1].fact == WaitTimedOut(lane[0].fact.name) &&
                    lane[0].fact.deadline.Some? && lane[0].fact.deadline.value <= lane[1].ts)
  {
    hide Replay, Tries, IsPath, RequestedAt, StepKinds;
    EveryLaneIsRequested(p, s, id);
  }
}
