/** The shape of a lane: what the events of one operation, and of one compensation, look like at
    any moment, however its live actions were cut up by crashes. */
module Lanes {
  import opened Wrappers
  import opened Events
  import opened Retry
  import opened Engine

  /** How an attempt event reads: one more try is due, or the tries are over. */
  datatype Try = Again(name: string, attempt: nat, retryAt: Time) | Over(name: string, attempts: nat) | NotATry

  function AsTry(fact: Fact): Try {
    match fact
    case StepAttemptFailed(name, attempt, _, retryAt) => Again(name, attempt, retryAt)
    case CompAttemptFailed(name, attempt, _, retryAt) => Again(name, attempt, retryAt)
    case StepCompleted(name, _, attempts) => Over(name, attempts)
    case StepFailed(name, attempts, _) => Over(name, attempts)
    case CompCompleted(name, attempts) => Over(name, attempts)
    case CompFailed(failure) => Over(failure.name, failure.attempts)
    case _ => NotATry
  }

  /** Attempts numbered 1, 2, 3, ... without gaps, each but the last within the policy's budget and
      none started before the retry time its predecessor journaled. */
  ghost predicate Tries(tries: seq<Entry>, name: string, policy: RetryPolicy) {
    forall i :: 0 <= i < |tries| ==> TryAt(tries, i, name, policy)
  }

  ghost predicate TryAt(tries: seq<Entry>, i: nat, name: string, policy: RetryPolicy)
    requires i < |tries|
  {
    match AsTry(tries[i].fact)
    case Again(n, attempt, retryAt) =>
      && n == name && attempt == i + 1 && attempt < policy.maxAttempts && BacksOff(policy, attempt, tries[i].ts, retryAt)
      && (i + 1 < |tries| ==> retryAt <= tries[i + 1].ts)
    case Over(n, attempts) => n == name && attempts == i + 1 && i == |tries| - 1
    case NotATry => false
  }

  /** The retry time is the time of the failure plus one jittered delay of the policy. */
  ghost predicate BacksOff(policy: RetryPolicy, attempt: nat, failedAt: Time, retryAt: Time) {
    exists draw: Draw :: retryAt == failedAt + policy.Delay(attempt, draw)
  }

  ghost predicate StepKinds(tries: seq<Entry>) {
    forall i :: 0 <= i < |tries| ==> tries[i].fact.Kind() in {STEP_ATTEMPT_FAILED, STEP_COMPLETED, STEP_FAILED}
  }

  ghost predicate UndoKinds(tries: seq<Entry>) {
    forall i :: 0 <= i < |tries| ==> tries[i].fact.Kind() in {COMP_ATTEMPT_FAILED, COMP_COMPLETED, COMP_FAILED}
  }

  ghost predicate UndoShape(undo: Undo, lane: seq<Entry>) {
    Tries(lane, undo.name, undo.policy) && UndoKinds(lane)
  }

  /** How an operation's lane opens: with what the body asked for, and a deadline counted from then. */
  ghost predicate OpenedAs(op: Op, x: Entry) {
    match op
    case Step(name, _, undo) => x.fact == StepScheduled(name, if undo.Some? then Some(undo.value.name) else None)
    case Child(workflow, childRunId, _) =>
      x.fact.ChildScheduled? && x.fact.name == workflow && (Given(childRunId) ==> x.fact.childRunId == childRunId.value)
    case Timer(seconds) =>
      x.fact.TimerCreated? && x.fact.seconds == seconds && x.fact.fireAt <= x.ts + Max(seconds, 0.0)
    case Wait(name, timeout) =>
      && x.fact.WaitCreated? && x.fact.name == name && x.fact.deadline.Some? == timeout.Some?
      && (timeout.Some? ==> x.fact.deadline.value <= x.ts + timeout.value)
    case Value(subkind) => x.fact.ValueRecorded? && x.fact.name == subkind
    case Tag(update) => x.fact == TagsUpdated(update)
    case Register(comp) => x.fact == CompRegistered(comp.name)
  }

  /** The events operation `op` may have journaled so far. */
  ghost predicate Shape(op: Op, lane: seq<Entry>) {
    lane != [] ==>
      && OpenedAs(op, lane[0])
      && match op
         case Step(name, policy, _) => Tries(lane[1..], name, policy) && StepKinds(lane[1..])
         case Child(workflow, _, _) =>
           && |lane| <= 2
           && (|lane| == 2 ==>
                 || (lane[1].fact.ChildCompleted? && lane[1].fact.name == workflow &&
                     lane[1].fact.childRunId == lane[0].fact.childRunId)
                 || (lane[1].fact.ChildFailed? && lane[1].fact.name == workflow &&
                     lane[1].fact.childRunId == lane[0].fact.childRunId))
         case Timer(_) =>
           |lane| <= 2 && (|lane| == 2 ==> lane[1].fact.TimerFired? && lane[0].fact.fireAt <= lane[1].ts)
         case Wait(name, _) =>
           && |lane| <= 2
           && (|lane| == 2 ==>
                 || (lane[1].fact.EventConsumed? && lane[1].fact.name == name)
                 || (lane[1].fact == WaitTimedOut(name) &&
                     lane[0].fact.deadline.Some? && lane[0].fact.deadline.value <= lane[1].ts))
         case Value(_) => |lane| == 1
         case Tag(_) => |lane| == 1
         case Register(_) => |lane| == 1
  }

  // ---- lookups in a lane of that shape ----

  lemma {:induction false} FirstNone(lane: seq<Entry>, kind: Kind)
    requires forall i :: 0 <= i < |lane| ==> lane[i].fact.Kind() != kind
    ensures First(lane, kind).None?
  {
    if lane != [] { FirstNone(lane[1..], kind); }
  }

  lemma {:induction false} FirstSome(lane: seq<Entry>, kind: Kind, at: nat)
    requires at < |lane| && lane[at].fact.Kind() == kind
    requires forall i :: 0 <= i < at ==> lane[i].fact.Kind() != kind
    ensures First(lane, kind) == Some(lane[at])
  {
    if at > 0 { FirstSome(lane[1..], kind, at - 1); }
  }

  lemma {:induction false} FirstSnoc(lane: seq<Entry>, x: Entry, kind: Kind)
    ensures First(lane + [x], kind) ==
            if First(lane, kind).Some? then First(lane, kind) else if x.fact.Kind() == kind then Some(x) else None
  {
    if lane == [] {
      assert lane + [x] == [x];
    } else {
      assert (lane + [x])[0] == lane[0] && (lane + [x])[1..] == lane[1..] + [x];
      FirstSnoc(lane[1..], x, kind);
    }
  }

  lemma {:induction false} TallyAll(lane: seq<Entry>, kind: Kind)
    requires forall i :: 0 <= i < |lane| ==> lane[i].fact.Kind() == kind
    ensures Tally(lane, kind) == |lane|
  {
    if lane != [] { TallyAll(lane[1..], kind); }
  }

  /** An operation's definition is the event that opens its lane, and it always matches. */
  lemma {:induction false} DefinitionOpens(op: Op, lane: seq<Entry>)
    requires Shape(op, lane)
    ensures Definition(lane) == if lane == [] then None else Some(lane[0])
    ensures !Diverges(op, lane)
  {
    if lane != [] {
      assert lane[0].fact.Kind() in DEFINING_KINDS;
    }
  }

  /** Tries with neither kind of ending are failed attempts only. */
  lemma {:induction false} OpenTries(tries: seq<Entry>, name: string, policy: RetryPolicy, again: Kind, good: Kind,
      bad: Kind)
    requires Tries(tries, name, policy)
    requires forall i :: 0 <= i < |tries| ==> tries[i].fact.Kind() in {again, good, bad}
    requires First(tries, good).None? && First(tries, bad).None?
    ensures forall i :: 0 <= i < |tries| ==> tries[i].fact.Kind() == again
    ensures Tally(tries, again) == |tries|
    ensures Final(tries, again) == if tries == [] then None else Some(tries[|tries| - 1])
  {
    forall i | 0 <= i < |tries|
      ensures tries[i].fact.Kind() == again
    {
      FirstMisses(tries, good, i);
      FirstMisses(tries, bad, i);
    }
    TallyAll(tries, again);
  }

  lemma {:induction false} FirstMisses(lane: seq<Entry>, kind: Kind, at: nat)
    requires First(lane, kind).None? && at < |lane|
    ensures lane[at].fact.Kind() != kind
  {
    if at > 0 { FirstMisses(lane[1..], kind, at - 1); }
  }

  /** A step's lane without an outcome is its opening and failed attempts only. */
  lemma {:induction false} UnfinishedStep(op: Op, id: nat, lane: seq<Entry>)
    requires op.Step? && Shape(op, lane) && lane != [] && Recorded(op, id, lane).None?
    ensures forall i :: 1 <= i < |lane| ==> lane[i].fact.Kind() == STEP_ATTEMPT_FAILED
    ensures Tally(lane, STEP_ATTEMPT_FAILED) == |lane| - 1
    ensures Final(lane, STEP_ATTEMPT_FAILED) == if |lane| == 1 then None else Some(lane[|lane| - 1])
  {
    var tries := lane[1..];
    assert lane == [lane[0]] + tries;
    FirstCons(lane[0], tries, STEP_COMPLETED);
    FirstCons(lane[0], tries, STEP_FAILED);
    FirstCons(lane[0], tries, STEP_ATTEMPT_FAILED);
    OpenTries(tries, op.name, op.policy, STEP_ATTEMPT_FAILED, STEP_COMPLETED, STEP_FAILED);
    forall i | 1 <= i < |lane|
      ensures lane[i].fact.Kind() == STEP_ATTEMPT_FAILED
    {
      assert lane[i] == tries[i - 1];
    }
  }

  /** A compensation's lane without an outcome holds failed attempts only. */
  lemma {:induction false} UnsettledUndo(undo: Undo, lane: seq<Entry>)
    requires UndoShape(undo, lane) && !Settled(lane)
    ensures forall i :: 0 <= i < |lane| ==> lane[i].fact.Kind() == COMP_ATTEMPT_FAILED
    ensures Tally(lane, COMP_ATTEMPT_FAILED) == |lane|
    ensures Final(lane, COMP_ATTEMPT_FAILED) == if lane == [] then None else Some(lane[|lane| - 1])
  {
    OpenTries(lane, undo.name, undo.policy, COMP_ATTEMPT_FAILED, COMP_COMPLETED, COMP_FAILED);
  }

  // ---- a live action keeps the shape ----

  /** One more attempt after failed ones, not before the last one's retry time. */
  lemma {:induction false} TriesSnoc(tries: seq<Entry>, name: string, policy: RetryPolicy, x: Entry)
    requires Tries(tries, name, policy)
    requires forall i :: 0 <= i < |tries| ==> AsTry(tries[i].fact).Again?
    requires tries != [] ==> AsTry(tries[|tries| - 1].fact).retryAt <= x.ts
    requires TryAt(tries + [x], |tries|, name, policy)
    ensures Tries(tries + [x], name, policy)
  {
    forall i | 0 <= i < |tries|
      ensures TryAt(tries + [x], i, name, policy)
    {
      assert TryAt(tries, i, name, policy);
    }
  }

  lemma {:induction false} StepKeepsShape(op: Op, id: nat, lane: seq<Entry>, used: set<nat>, inbox: seq<Signal>,
      w: World, fact: Fact)
    requires op.Step? && Shape(op, lane) && lane != [] && Recorded(op, id, lane).None?
    requires Progress(op, lane, used, inbox, w) == Some(fact)
    ensures Shape(op, lane + [Entry(fact, w.now + w.took)])
  {
    hide Recorded, Tally, Final;
    var x := Entry(fact, w.now + w.took);
    UnfinishedStep(op, id, lane);
    var tries := lane[1..];
    assert (lane + [x])[1..] == tries + [x];
    assert forall i :: 0 <= i < |tries| ==> tries[i].fact.Kind() == STEP_ATTEMPT_FAILED;
    TriesSnoc(tries, op.name, op.policy, x);
  }

  /** Appending the opening or the next event of an unfinished operation keeps its lane's shape. */
  lemma {:induction false} LiveKeepsShape(op: Op, id: nat, runId: string, lane: seq<Entry>, used: set<nat>,
      inbox: seq<Signal>, w: World, fact: Fact)
    requires Shape(op, lane) && Recorded(op, id, lane).None?
    requires Some(fact) ==
      if Definition(lane).None? then Some(Opening(op, id, runId, w)) else Progress(op, lane, used, inbox, w)
    ensures Shape(op, lane + [Entry(fact, w.now + w.took)])
  {
    hide Shape, Recorded, Progress;
    DefinitionOpens(op, lane);
    if lane == [] {
      OpeningHasShape(op, id, runId, w);
      assert lane + [Entry(fact, w.now + w.took)] == [Entry(fact, w.now + w.took)];
    } else if op.Step? {
      StepKeepsShape(op, id, lane, used, inbox, w, fact);
    } else {
      OpenedOnce(op, id, lane);
      OpenedKeepsShape(op, id, lane, used, inbox, w, fact);
    }
  }

  lemma {:induction false} OpeningHasShape(op: Op, id: nat, runId: string, w: World)
    ensures Shape(op, [Entry(Opening(op, id, runId, w), w.now + w.took)])
  {
  }

  /** Other operations without an outcome are at their opening. */
  lemma {:induction false} OpenedOnce(op: Op, id: nat, lane: seq<Entry>)
    requires !op.Step? && Shape(op, lane) && lane != [] && Recorded(op, id, lane).None?
    ensures |lane| == 1
  {
    if |lane| == 2 {
      ResultIsFound(lane);
    }
  }

  lemma {:induction false} OpenedKeepsShape(op: Op, id: nat, lane: seq<Entry>, used: set<nat>, inbox: seq<Signal>,
      w: World, fact: Fact)
    requires !op.Step? && Shape(op, lane) && |lane| == 1
    requires Progress(op, lane, used, inbox, w) == Some(fact)
    ensures Shape(op, lane + [Entry(fact, w.now + w.took)])
  {
    hide NextUnconsumed;
    assert lane + [Entry(fact, w.now + w.took)] == [lane[0], Entry(fact, w.now + w.took)];
  }

  lemma {:induction false} ResultIsFound(lane: seq<Entry>)
    requires |lane| == 2 && lane[0].fact.Kind() != lane[1].fact.Kind()
    ensures First(lane, lane[1].fact.Kind()) == Some(lane[1])
    ensures First(lane, lane[0].fact.Kind()) == Some(lane[0])
  {
    FirstSome(lane, lane[1].fact.Kind(), 1);
  }

  lemma {:induction false} UndoKeepsShape(undo: Undo, lane: seq<Entry>, w: World, fact: Fact)
    requires UndoShape(undo, lane) && !Settled(lane) && UndoProgress(undo, lane, w) == Some(fact)
    ensures UndoShape(undo, lane + [Entry(fact, w.now + w.took)])
  {
    UnsettledUndo(undo, lane);
    TriesSnoc(lane, undo.name, undo.policy, Entry(fact, w.now + w.took));
  }
}
