/** Sleeps and timeouts on the clocks of the acts: an operation asked to wait for so long is not over before,
    and is over as soon as the clock allows. */
module Clocks {
  import opened Wrappers
  import opened Events
  import opened Retry
  import opened Engine
  import opened Lanes
  import opened Paths
  import opened Invariant
  import opened Preservation
  import opened Reachability
  import opened Replays
  import opened CrashSafety
  import opened Effects
  import opened Acts

  lemma {:induction false} TimerOpens(op: Op, id: nat, runId: string, w: World)
    requires Opening(op, id, runId, w).TimerCreated?
    ensures op.Timer? && w.now + op.seconds <= Opening(op, id, runId, w).fireAt && w.now <= Opening(op, id, runId, w).fireAt
  {
  }

  lemma {:induction false} WaitOpens(op: Op, id: nat, runId: string, w: World)
    requires Opening(op, id, runId, w).WaitCreated?
    ensures op.Wait? && Opening(op, id, runId, w).deadline.Some? == op.timeout.Some?
    ensures op.timeout.Some? ==> w.now + op.timeout.value <= Opening(op, id, runId, w).deadline.value
  {
  }

  /** What an operation that ends by the clock read in its lane. */
  lemma {:induction false} DeadlineRead(op: Op, lane: seq<Entry>, used: set<nat>, inbox: seq<Signal>, w: World, fact: Fact,
      x: Entry)
    requires Progress(op, lane, used, inbox, w) == Some(fact) && (lane == [] || lane[0] == x)
    ensures fact.TimerFired? && x.fact.TimerCreated? ==> x.fact.fireAt <= w.now
    ensures fact.WaitTimedOut? && x.fact.WaitCreated? ==> x.fact.deadline.Some? && x.fact.deadline.value <= w.now
  {
    hide NextUnconsumed;
  }

  lemma {:induction false} OpeningIsNoEnd(op: Op, id: nat, runId: string, w: World)
    ensures !Opening(op, id, runId, w).TimerFired? && !Opening(op, id, runId, w).WaitTimedOut?
  {
  }

  /** The end that the clock brings to a timer or a wait whose lane begins with `x`. */
  lemma {:induction false} EndsByTheClock(p: Program, s: State, act: Act, s': State, e: Event, id: nat, x: Entry)
    requires Writes(p, s, act, s', e) && e.opId == id && BeginsWith(s.d.journal, id, x)
    ensures e.fact.TimerFired? && x.fact.TimerCreated? ==> act.Live? && x.fact.fireAt <= act.w.now
    ensures e.fact.WaitTimedOut? && x.fact.WaitCreated? ==>
              act.Live? && x.fact.deadline.Some? && x.fact.deadline.value <= act.w.now
  {
    hide Next, At, Recorded, Diverges, Opening, Progress, Definition;
    if e.fact.TimerFired? || e.fact.WaitTimedOut? {
      assert LaneOf(e) == OpLane(id);
      var op := OperationsEvent(p, s, act, s', e, id);
      OpeningIsNoEnd(op, id, p.runId, act.w);
      DeadlineRead(op, At(s.d.journal, OpLane(id)), ConsumedSeqs(s.d.journal), s.d.inbox, act.w, e.fact, x);
    }
  }

  /** One act journals that a body sleeps, at its clock; a later one, after any crashes, resumes and rewinds,
      journals that this sleep is over. The clock has moved on by at least what the body asked for. */
  lemma {:induction false} SleepsAreLongEnough(p: Program, s0: State, asleep: Act, s1: State, turns: seq<Turn>, s2: State,
      awake: Act, s3: State, op: Op, id: nat, e: Event, f: Event)
    requires Reachable(p, s0) && Writes(p, s0, asleep, s1, e) && WorksOn(p, s0, asleep, op, id)
    requires e.opId == id && e.fact.TimerCreated?
    requires Play(p, s1, turns) == Some(s2) && NotOpenedAgain(p, s1, turns, id)
    requires Writes(p, s2, awake, s3, f) && f.opId == id && f.fact.TimerFired?
    ensures op.Timer? && awake.Live? && awake.w.now >= asleep.w.now && awake.w.now >= asleep.w.now + op.seconds
  {
    hide Reachable, Writes, Play, NotOpenedAgain, At, BeginsWith, Opening;
    var x := OpeningStays(p, s0, asleep, s1, turns, s2, op, id, e);
    TimerOpens(op, id, p.runId, asleep.w);
    EndsByTheClock(p, s2, awake, s3, f, id, x);
  }

  /** The same for a wait that times out: it had a timeout, and the clock has moved on by at least that. */
  lemma {:induction false} TimeoutsAreLongEnough(p: Program, s0: State, asleep: Act, s1: State, turns: seq<Turn>, s2: State,
      awake: Act, s3: State, op: Op, id: nat, e: Event, f: Event)
    requires Reachable(p, s0) && Writes(p, s0, asleep, s1, e) && WorksOn(p, s0, asleep, op, id)
    requires e.opId == id && e.fact.WaitCreated?
    requires Play(p, s1, turns) == Some(s2) && NotOpenedAgain(p, s1, turns, id)
    requires Writes(p, s2, awake, s3, f) && f.opId == id && f.fact.WaitTimedOut?
    ensures op.Wait? && op.timeout.Some? && awake.Live? && awake.w.now >= asleep.w.now + op.timeout.value
  {
    hide Reachable, Writes, Play, NotOpenedAgain, At, BeginsWith, Opening;
    var x := OpeningStays(p, s0, asleep, s1, turns, s2, op, id, e);
    WaitOpens(op, id, p.runId, asleep.w);
    EndsByTheClock(p, s2, awake, s3, f, id, x);
  }

  /** What an operation's first event says is what its live action made of the request, and it stays first. */
  lemma {:induction false} OpeningStays(p: Program, s0: State, act: Act, s1: State, turns: seq<Turn>, s2: State, op: Op,
      id: nat, e: Event)
    returns (x: Entry)
    requires Reachable(p, s0) && Writes(p, s0, act, s1, e) && WorksOn(p, s0, act, op, id)
    requires e.opId == id && e.fact.Kind() in DEFINING_KINDS
    requires Play(p, s1, turns) == Some(s2) && NotOpenedAgain(p, s1, turns, id)
    ensures x.fact == e.fact == Opening(op, id, p.runId, act.w) && BeginsWith(s2.d.journal, id, x)
  {
    hide Reachable, Next, Play, NotOpenedAgain, At, Opening, RunInv, InvAt, BeginsWith, LaneOf;
    var F := ReachableIsRunInv(p, s0);
    var G := ActKeepsRunInv(p, s0, F, act, s1);
    RunInvPart(p, s0, F);
    OpeningIsFirst(p, s0, F, act, s1, e, id);
    DefinesInLane(e, id);
    var o := OpenedFirst(p, s0, act, s1, e, id);
    x := Entry(e.fact, act.w.now + act.w.took);
    Begins(s1.d.journal, id, x);
    FirstStays(p, s1, G, turns, s2, id, x);
  }

  lemma {:induction false} DefinesInLane(e: Event, id: nat)
    requires e.opId == id && e.fact.Kind() in DEFINING_KINDS
    ensures LaneOf(e) == OpLane(id)
  {
  }

  lemma {:induction false} Begins(journal: Log, id: nat, x: Entry)
    requires At(journal, OpLane(id)) == [x]
    ensures BeginsWith(journal, id, x)
  {
  }

  lemma {:induction false} RunInvPart(p: Program, s: State, F: seq<Outcome>)
    requires RunInv(p, s, F)
    ensures InvAt(p, s, F)
  {
    hide InvAt;
  }

  lemma {:induction false} ProgressDefinesNothing(op: Op, lane: seq<Entry>, used: set<nat>, inbox: seq<Signal>, w: World)
    ensures var fact := Progress(op, lane, used, inbox, w); fact.Some? ==> fact.value.Kind() !in DEFINING_KINDS
  {
  }

  /** A defining event is always the first of its operation. */
  lemma {:induction false} OpeningIsFirst(p: Program, s: State, F: seq<Outcome>, act: Act, s': State, e: Event, id: nat)
    requires InvAt(p, s, F) && Writes(p, s, act, s', e) && e.opId == id && e.fact.Kind() in DEFINING_KINDS
    ensures At(s.d.journal, OpLane(id)) == []
  {
    hide InvAt, Next, At, Opening, Progress, Recorded, Diverges, Shape;
    var op := OperationsEvent(p, s, act, s', e, id);
    var lane := At(s.d.journal, OpLane(id));
    ProgressDefinesNothing(op, lane, ConsumedSeqs(s.d.journal), s.d.inbox, act.w);
    FrontShape(p, s, F, act.index);
    DefinitionOpens(op, lane);
  }

  lemma {:induction false} ActKeepsRunInv(p: Program, s: State, F: seq<Outcome>, act: Act, s': State)
    returns (G: seq<Outcome>)
    requires RunInv(p, s, F) && Next(p, s, act) == Some(s')
    ensures RunInv(p, s', G)
  {
    hide RunInv, Next;
    G := TakeKeeps(p, s, F, Work(act), s');
  }

  // ---- and not longer than that ----

  const OUTCOME_KINDS: set<Kind> := {STEP_COMPLETED, STEP_FAILED, CHILD_COMPLETED, CHILD_FAILED, TIMER_FIRED, EVENT_CONSUMED,
    WAIT_TIMED_OUT, VALUE_RECORDED, TAGS_UPDATED, COMP_REGISTERED}

  /** None of the operation's events is its end. */
  ghost predicate Unfinished(lane: seq<Entry>) {
    forall i :: 0 <= i < |lane| ==> lane[i].fact.Kind() !in OUTCOME_KINDS
  }

  /** Is there something for a live action to do at that time: to open the operation, to make an attempt whose
      backoff is over, to hear a child, to fire a timer, to take in a signal that is there, or to time out? */
  ghost predicate Due(op: Op, lane: seq<Entry>, d: Durable, now: Time) {
    lane == [] ||
    match op
    case Step(_, _, _) =>
      var last := lane[|lane| - 1].fact;
      last.StepAttemptFailed? ==> last.retryAt <= now
    case Child(_, _, _) => true
    case Timer(_) => lane[0].fact.TimerCreated? && lane[0].fact.fireAt <= now
    case Wait(name, _) =>
      || Waiting(d, name)
      || (lane[0].fact.WaitCreated? && lane[0].fact.deadline.Some? && lane[0].fact.deadline.value <= now)
    case _ => false
  }

  /** A signal of that name that neither the inbox nor the journal says is consumed. */
  ghost predicate Waiting(d: Durable, name: string) {
    exists t :: 0 <= t < |d.inbox| && d.inbox[t].name == name && !d.inbox[t].consumed && t !in ConsumedSeqs(d.journal)
  }

  lemma {:induction false} UnfinishedIsUnrecorded(op: Op, id: nat, lane: seq<Entry>)
    requires Shape(op, lane)
    ensures Recorded(op, id, lane).None? <==> Unfinished(lane)
  {
    if lane == [] {
      NothingRecorded(op, id);
    } else if op.Step? {
      StepUnfinished(op, id, lane);
    } else if |lane| == 1 {
      OneUnfinished(op, id, lane);
    } else {
      TwoFinished(op, id, lane);
    }
  }

  lemma {:induction false} OneUnfinished(op: Op, id: nat, lane: seq<Entry>)
    requires !op.Step? && Shape(op, lane) && |lane| == 1
    ensures Recorded(op, id, lane).None? <==> Unfinished(lane)
  {
    hide Tries, StepKinds, First;
    forall kind
      ensures First(lane, kind).Some? <==> lane[0].fact.Kind() == kind
    {
      FirstCons(lane[0], [], kind);
      assert lane == [lane[0]] + [] && First([], kind).None?;
    }
  }

  lemma {:induction false} TwoFinished(op: Op, id: nat, lane: seq<Entry>)
    requires !op.Step? && Shape(op, lane) && |lane| > 1
    ensures Recorded(op, id, lane).Some? && !Unfinished(lane)
  {
    hide Tries, StepKinds, First;
    ResultIsFound(lane);
  }

  lemma {:induction false} StepUnfinished(op: Op, id: nat, lane: seq<Entry>)
    requires op.Step? && Shape(op, lane)
    ensures Recorded(op, id, lane).None? <==> Unfinished(lane)
  {
    if Recorded(op, id, lane).None? {
      if lane != [] {
        UnfinishedStep(op, id, lane);
      }
    } else {
      var completed, failed := First(lane, STEP_COMPLETED), First(lane, STEP_FAILED);
      var x := if completed.Some? then completed.value else failed.value;
      var i :| 0 <= i < |lane| && lane[i] == x;
    }
  }

  lemma {:induction false} ActsWhenDue(op: Op, id: nat, runId: string, d: Durable, w: World)
    requires Shape(op, At(d.journal, OpLane(id))) && Unfinished(At(d.journal, OpLane(id)))
    ensures var lane := At(d.journal, OpLane(id));
            Due(op, lane, d, w.now) <==>
            (if Definition(lane).None? then Some(Opening(op, id, runId, w))
             else Progress(op, lane, ConsumedSeqs(d.journal), d.inbox, w)).Some?
  {
    hide At, Opening, Shape;
    var lane := At(d.journal, OpLane(id));
    UnfinishedIsUnrecorded(op, id, lane);
    DefinitionOpens(op, lane);
    if lane != [] {
      if op.Step? {
        AttemptsWhenDue(op, id, lane, d, w);
      } else {
        OpenedOnce(op, id, lane);
        EndsWhenDue(op, lane, d, w);
      }
    }
  }

  lemma {:induction false} AttemptsWhenDue(op: Op, id: nat, lane: seq<Entry>, d: Durable, w: World)
    requires op.Step? && Shape(op, lane) && lane != [] && Recorded(op, id, lane).None?
    ensures Due(op, lane, d, w.now) <==> Progress(op, lane, ConsumedSeqs(d.journal), d.inbox, w).Some?
  {
    hide Recorded, Final, Tally, RetryPolicy.ShouldRetry, RetryPolicy.Delay;
    UnfinishedStep(op, id, lane);
  }

  lemma {:induction false} EndsWhenDue(op: Op, lane: seq<Entry>, d: Durable, w: World)
    requires !op.Step? && Shape(op, lane) && |lane| == 1 && Unfinished(lane)
    ensures Due(op, lane, d, w.now) <==> Progress(op, lane, ConsumedSeqs(d.journal), d.inbox, w).Some?
  {
    hide NextUnconsumed, ConsumedSeqs;
    assert lane == [lane[0]] + [];
    FirstCons(lane[0], [], lane[0].fact.Kind());
  }

  /** While an operation is unfinished, a live action at any clock reading does exactly what is due: it adds one
      event of the operation, or there was nothing to do and it changes nothing. */
  lemma {:induction false} DueWorkIsDone(p: Program, s: State, index: nat, w: World)
    requires Reachable(p, s) && s.v.Some? && HasStarted(s.d.journal) && index < |p.body(s.v.value.h).Ops()|
    requires Unfinished(At(s.d.journal, OpLane(|s.v.value.h| + index)))
    ensures var op, id, s' := p.body(s.v.value.h).Ops()[index], |s.v.value.h| + index, Next(p, s, Live(index, w, false));
            && s'.Some?
            && if Due(op, At(s.d.journal, OpLane(id)), s.d, w.now)
               then exists e :: s'.value.d.journal == s.d.journal + [e] && e.opId == id && s'.value.v == s.v
               else s'.value == s
  {
    hide Reachable, Replay, Recorded, Diverges, Opening, Progress, Definition, Invocation, Awaited, HasStarted, At, Shape, Due,
        Unfinished, InvAt;
    var F := ReachableIsInvariant(p, s);
    var op, id := p.body(s.v.value.h).Ops()[index], |s.v.value.h| + index;
    var lane := At(s.d.journal, OpLane(id));
    FrontShape(p, s, F, index);
    DefinitionOpens(op, lane);
    UnfinishedIsUnrecorded(op, id, lane);
    ActsWhenDue(op, id, p.runId, s.d, w);
    var fact := if Definition(lane).None? then Some(Opening(op, id, p.runId, w))
                else Progress(op, lane, ConsumedSeqs(s.d.journal), s.d.inbox, w);
    if fact.Some? {
      var e := Event(|s.d.journal|, id, fact.value, w.now + w.took);
      assert Next(p, s, Live(index, w, false)).value.d.journal == s.d.journal + [e];
    }
  }

  /** A compensation that is next is attempted as soon as its backoff is over, and not before. */
  lemma {:induction false} DueUndoIsDone(p: Program, s: State, w: World)
    requires Reachable(p, s) && s.v.Some? && HasStarted(s.d.journal) && p.body(s.v.value.h).Raise?
    requires NextUndo(s.v.value.stack, s.d.journal).Some?
    ensures var c, s' := NextUndo(s.v.value.stack, s.d.journal).value, Next(p, s, Compensate(w, false));
            var lane := At(s.d.journal, UndoLane(c.opId));
            && s'.Some?
            && if lane == [] || (lane[|lane| - 1].fact.CompAttemptFailed? ==> lane[|lane| - 1].fact.retryAt <= w.now)
               then exists e :: s'.value.d.journal == s.d.journal + [e] && e.opId == c.opId && s'.value.v == s.v
               else s'.value == s
  {
    hide Reachable, Replay, HasStarted, At, Settled, InvAt, NextUndo, Tally, Final, UndoShape, RetryPolicy.ShouldRetry,
        RetryPolicy.Delay;
    var F := ReachableIsInvariant(p, s);
    var c := NextUndo(s.v.value.stack, s.d.journal).value;
    var lane := At(s.d.journal, UndoLane(c.opId));
    UndoLaneHasShape(p, s, F, c);
    UnsettledUndo(c.undo, lane);
    var fact := UndoProgress(c.undo, lane, w);
    if fact.Some? {
      var e := Event(|s.d.journal|, c.opId, fact.value, w.now + w.took);
      assert Next(p, s, Compensate(w, false)).value.d.journal == s.d.journal + [e];
    }
  }
}
