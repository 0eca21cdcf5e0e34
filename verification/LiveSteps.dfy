/** What the transition system does in each situation the workflow context can find in its journal. */
module LiveSteps {
  import opened Wrappers
  import opened Events
  import opened Retry
  import opened Engine
  import opened Lanes
  import opened Paths
  import opened Invariant
  import opened Preservation

  /** What a drive waits for between two beats. */
  datatype Waiting = ForOp(op: Op) | ForUndo(comp: Comp)

  // ---- journals any body may be driven against ----

  /** Contiguously numbered, and every operation's events start with its definition. */
  ghost predicate Orderly(log: Log) {
    && Numbered(log)
    && forall id :: At(log, OpLane(id)) != [] ==> At(log, OpLane(id))[0].fact.Kind() in DEFINING_KINDS
  }

  lemma {:induction false} OrderlyDefinition(log: Log, id: int)
    requires Orderly(log)
    ensures var lane := At(log, OpLane(id)); Definition(lane) == if lane == [] then None else Some(lane[0])
  {
  }

  lemma {:induction false} OrderlyAppend(log: Log, e: Event)
    requires Orderly(log) && e.seqNo == |log| && e.opId >= -1
    requires LaneOf(e).OpLane? && At(log, LaneOf(e)) == [] ==> e.fact.Kind() in DEFINING_KINDS
    ensures Orderly(log + [e])
  {
    AtAppend(log, e);
  }

  lemma {:induction false} ShapeOpens(op: Op, lane: seq<Entry>)
    requires Shape(op, lane) && lane != []
    ensures lane[0].fact.Kind() in DEFINING_KINDS
  {
  }

  /** A run's own journal is orderly. */
  lemma {:induction false} EngineIsOrderly(p: Program, log: Log, F: seq<Outcome>)
    requires JournalOk(p, log, F)
    ensures Orderly(log)
  {
    hide Recorded, IsPath, UndoOk, EndOk, RunOk, Shape, At, AllRecorded, OpAt;
    forall id | At(log, OpLane(id)) != []
      ensures At(log, OpLane(id))[0].fact.Kind() in DEFINING_KINDS
    {
      if id < 0 {
        NoNegativeLane(log, id);
      } else if id < |F| {
        ShapeOpens(OpAt(p.body, F, 0, id), At(log, OpLane(id)));
      } else if id < |F| + |p.body(F).Ops()| {
        assert Shape(p.body(F).Ops()[id - |F|], At(log, OpLane(|F| + (id - |F|))));
        ShapeOpens(p.body(F).Ops()[id - |F|], At(log, OpLane(id)));
      }
    }
  }

  lemma {:induction false} NoNegativeLane(log: Log, id: int)
    requires id < 0
    ensures At(log, OpLane(id)) == []
  {
    if log != [] { NoNegativeLane(log[1..], id); }
  }

  // ---- the steps the methods take ----

  lemma {:induction false} OneStep(p: Program, start: State, trace: seq<Act>, s: State, act: Act, s': State)
    requires Exec(p, start, trace) == Some(s) && Next(p, s, act) == Some(s')
    ensures Exec(p, start, trace + [act]) == Some(s')
    decreases |trace|
  {
    hide Next;
    if trace == [] {
      assert [] + [act] == [act] && [act][1..] == [];
      assert Exec(p, s', []) == Some(s');
    } else {
      assert (trace + [act])[0] == trace[0] && (trace + [act])[1..] == trace[1..] + [act];
      OneStep(p, Next(p, start, trace[0]).value, trace[1..], s, act, s');
    }
  }

  /** The event a live action of a sequential body appends. */
  ghost function FactAt(p: Program, d: Durable, op: Op, id: nat, w: World): Option<Fact> {
    var lane := At(d.journal, OpLane(id));
    if Definition(lane).None? then Some(Opening(op, id, p.runId, w))
    else Progress(op, lane, ConsumedSeqs(d.journal), d.inbox, w)
  }

  lemma {:induction false} LiveTakes(p: Program, s: State, op: Op, id: nat, w: World, lost: bool)
    requires s.v.Some? && id == |s.v.value.h| && p.body(s.v.value.h).Ops() == [op] && HasStarted(s.d.journal)
    requires !Diverges(op, At(s.d.journal, OpLane(id))) && Recorded(op, id, At(s.d.journal, OpLane(id))).None?
    ensures var fact := FactAt(p, s.d, op, id, w);
            Next(p, s, Live(0, w, lost)) ==
            if fact.None? then Some(s)
            else if lost then Some(State(Touch(op, id, s.d, w), None))
            else Some(State(Append(Touch(op, id, s.d, w), id, fact.value, w.now + w.took), s.v))
  {
    hide Diverges, Recorded, HasStarted, Touch, Opening, Progress, Definition;
    assert |s.v.value.h| + 0 == id;
  }

  lemma {:induction false} DivergenceKills(p: Program, s: State, op: Op, id: nat, w: World)
    requires s.v.Some? && id == |s.v.value.h| && p.body(s.v.value.h).Ops() == [op] && HasStarted(s.d.journal)
    requires Diverges(op, At(s.d.journal, OpLane(id)))
    ensures Next(p, s, Live(0, w, false)) == Some(State(s.d, None))
  {
    hide Diverges, Recorded, HasStarted;
    assert |s.v.value.h| + 0 == id;
  }

  /** A recorded operation comes back: its compensation is registered, and the body goes on. */
  lemma {:induction false} ComesBack(p: Program, s: State, op: Op, id: nat, outcome: Outcome)
    requires s.v.Some? && s.v.value.returned == {} && id == |s.v.value.h| && p.body(s.v.value.h).Ops() == [op]
    requires HasStarted(s.d.journal) && !Diverges(op, At(s.d.journal, OpLane(id)))
    requires Recorded(op, id, At(s.d.journal, OpLane(id))) == Some(outcome)
    ensures var v := s.v.value;
            var back := State(s.d, Some(Driver(v.h, {0}, v.stack + CompOf(op, id, outcome))));
            && Next(p, s, Back(0)) == Some(back)
            && Next(p, back, Join) == Some(State(s.d, Some(Driver(v.h + [outcome], {}, back.v.value.stack))))
  {
    hide Diverges, Recorded, HasStarted, CompOf;
    var v := s.v.value;
    assert |v.h| + 0 == id;
    assert {} + {0} == {0};
    assert AllRecorded([op], id, s.d.journal);
    assert Outcomes([op], id, s.d.journal) == [outcome];
  }

  // ---- lookups after an append ----

  lemma {:induction false} DefinitionAfter(lane: seq<Entry>, x: Entry)
    requires Definition(lane).Some?
    ensures Definition(lane + [x]) == Definition(lane)
  {
    if lane[0].fact.Kind() in DEFINING_KINDS {
      assert (lane + [x])[0] == lane[0];
    } else {
      assert (lane + [x])[0] == lane[0] && (lane + [x])[1..] == lane[1..] + [x];
      DefinitionAfter(lane[1..], x);
    }
  }

  /** The first definition is the first event of the operation's own defining kind. */
  lemma {:induction false} DefinitionIsFirst(lane: seq<Entry>, kind: Kind)
    requires Definition(lane).Some? && Definition(lane).value.fact.Kind() == kind && lane[0].fact.Kind() in DEFINING_KINDS
    ensures First(lane, kind) == Definition(lane)
  {
  }

  // ---- waiting ----

  ghost function ActOf(waiting: Waiting, w: World, lost: bool): Act {
    if waiting.ForOp? then Live(0, w, lost) else Compensate(w, lost)
  }

  /** At that moment the action only waits. */
  ghost predicate Idles(p: Program, s: State, act: Act) {
    Next(p, s, act) == Some(s)
  }

  /** Every action before the deadline only waits, whatever signals arrive meanwhile. */
  ghost predicate IdlesUntil(p: Program, log: Log, v: Driver, waiting: Waiting, deadline: Option<Time>) {
    deadline.Some? ==>
      forall d: Durable, w: World, lost :: d.journal == log && w.now < deadline.value ==>
        Idles(p, State(d, Some(v)), ActOf(waiting, w, lost))
  }

  function RetryTime(last: Option<Entry>): Option<Time> {
    if last.Some? && last.value.fact.StepAttemptFailed? then Some(last.value.fact.retryAt)
    else if last.Some? && last.value.fact.CompAttemptFailed? then Some(last.value.fact.retryAt)
    else None
  }

  lemma {:induction false} StepIdles(p: Program, log: Log, v: Driver, op: Op, id: nat)
    requires op.Step? && id == |v.h| && p.body(v.h).Ops() == [op] && HasStarted(log)
    requires !Diverges(op, At(log, OpLane(id))) && Recorded(op, id, At(log, OpLane(id))).None?
    requires Definition(At(log, OpLane(id))).Some?
    ensures IdlesUntil(p, log, v, ForOp(op), RetryTime(Final(At(log, OpLane(id)), STEP_ATTEMPT_FAILED)))
  {
    hide Diverges, Recorded, HasStarted, Definition, Next;
    var deadline := RetryTime(Final(At(log, OpLane(id)), STEP_ATTEMPT_FAILED));
    forall d: Durable, w: World, lost | d.journal == log && deadline.Some? && w.now < deadline.value
      ensures Idles(p, State(d, Some(v)), Live(0, w, lost))
    {
      LiveTakes(p, State(d, Some(v)), op, id, w, lost);
    }
  }

  lemma {:induction false} TimerIdles(p: Program, log: Log, v: Driver, op: Op, id: nat, fireAt: Time)
    requires op.Timer? && id == |v.h| && p.body(v.h).Ops() == [op] && HasStarted(log)
    requires !Diverges(op, At(log, OpLane(id))) && Recorded(op, id, At(log, OpLane(id))).None?
    requires Definition(At(log, OpLane(id))).Some? && First(At(log, OpLane(id)), TIMER_CREATED).Some?
    requires First(At(log, OpLane(id)), TIMER_CREATED).value.fact.fireAt == fireAt
    ensures IdlesUntil(p, log, v, ForOp(op), Some(fireAt))
  {
    hide Diverges, Recorded, HasStarted, Definition, Next;
    forall d: Durable, w: World, lost | d.journal == log && w.now < fireAt
      ensures Idles(p, State(d, Some(v)), Live(0, w, lost))
    {
      LiveTakes(p, State(d, Some(v)), op, id, w, lost);
    }
  }

  /** How one attempt of a step is journaled. */
  function Tried(op: Op, attempt: nat, w: World): (fact: Fact)
    requires op.Step?
    ensures fact.StepCompleted? || fact.StepFailed? || fact.StepAttemptFailed?
  {
    match w.reply
    case Success(value) => StepCompleted(op.name, value, attempt)
    case Failure(exc) =>
      if op.policy.ShouldRetry(exc, attempt)
      then StepAttemptFailed(op.name, attempt, ErrorInfo(exc), w.now + w.took + op.policy.Delay(attempt, w.draw))
      else StepFailed(op.name, attempt, ErrorInfo(exc))
  }

  lemma {:induction false} LiveLane(p: Program, d: Durable, op: Op, id: nat, w: World, e: Event)
    requires FactAt(p, d, op, id, w) == Some(e.fact) && e.opId == id
    ensures LaneOf(e) == OpLane(id)
  {
    hide Opening, Progress, LaneOf;
    OpLaneOfFact(op, id, p.runId, At(d.journal, OpLane(id)), ConsumedSeqs(d.journal), d.inbox, w, e);
  }

  lemma {:induction false} LiveIsOrderly(p: Program, d: Durable, op: Op, id: nat, w: World, e: Event)
    requires Orderly(d.journal) && FactAt(p, d, op, id, w) == Some(e.fact)
    requires e.seqNo == |d.journal| && e.opId == id && LaneOf(e) == OpLane(id)
    ensures Orderly(d.journal + [e])
  {
    hide Progress, LaneOf;
    OrderlyDefinition(d.journal, id);
    OrderlyAppend(d.journal, e);
  }

  lemma {:induction false} OpeningOpens(op: Op, id: nat, runId: string, w: World)
    ensures Opening(op, id, runId, w).Kind() in DEFINING_KINDS && Expected(op, Opening(op, id, runId, w))
    ensures var lane := [Entry(Opening(op, id, runId, w), w.now + w.took)];
            !Diverges(op, lane) && Definition(lane) == Some(lane[0])
  {
  }

  lemma {:induction false} StepProgresses(op: Op, lane: seq<Entry>, used: set<nat>, inbox: seq<Signal>, w: World)
    requires op.Step? && Definition(lane).Some?
    requires var retryAt := RetryTime(Final(lane, STEP_ATTEMPT_FAILED)); retryAt.Some? ==> retryAt.value <= w.now
    ensures Progress(op, lane, used, inbox, w) == Some(Tried(op, Tally(lane, STEP_ATTEMPT_FAILED) + 1, w))
  {
  }

  lemma {:induction false} StepIsRecorded(op: Op, id: nat, lane: seq<Entry>)
    requires op.Step?
    ensures Recorded(op, id, lane) ==
            var completed, failed := First(lane, STEP_COMPLETED), First(lane, STEP_FAILED);
            if completed.Some? then Some(Returned(completed.value.fact.result))
            else if failed.Some? then Some(StepRaised(op.name, id, failed.value.fact.attempts, failed.value.fact.error))
            else None
  {
  }

  /** What a further event says about a step that had no outcome yet. */
  lemma {:induction false} StepLaneAfter(op: Op, id: nat, lane: seq<Entry>, x: Entry)
    requires op.Step? && Definition(lane).Some? && !Diverges(op, lane) && Recorded(op, id, lane).None?
    requires x.fact.StepCompleted? || x.fact.StepFailed? || x.fact.StepAttemptFailed?
    ensures Definition(lane + [x]).Some? && !Diverges(op, lane + [x])
    ensures Recorded(op, id, lane + [x]) ==
            match x.fact
            case StepCompleted(_, value, _) => Some(Returned(value))
            case StepFailed(_, attempts, error) => Some(StepRaised(op.name, id, attempts, error))
            case _ => None
    ensures Tally(lane + [x], STEP_ATTEMPT_FAILED) == Tally(lane, STEP_ATTEMPT_FAILED) + if x.fact.StepAttemptFailed? then 1 else 0
    ensures x.fact.StepAttemptFailed? ==> Final(lane + [x], STEP_ATTEMPT_FAILED) == Some(x)
  {
    DefinitionAfter(lane, x);
    FirstSnoc(lane, x, STEP_COMPLETED);
    FirstSnoc(lane, x, STEP_FAILED);
    TallySnoc(lane, x, STEP_ATTEMPT_FAILED);
    FinalSnoc(lane, x, STEP_ATTEMPT_FAILED);
  }

  // ---- the other operations' lanes ----

  lemma {:induction false} ChildIsRecorded(op: Op, id: nat, lane: seq<Entry>)
    requires op.Child? && lane != [] && Definition(lane) == Some(lane[0]) && !Diverges(op, lane)
    ensures First(lane, CHILD_SCHEDULED) == Some(lane[0])
    ensures Recorded(op, id, lane) ==
            var completed, failed := First(lane, CHILD_COMPLETED), First(lane, CHILD_FAILED);
            if completed.Some? then Some(Returned(completed.value.fact.result))
            else if failed.Some? then Some(ChildRaised(op.workflow, lane[0].fact.childRunId, failed.value.fact.error))
            else None
  {
    DefinitionIsFirst(lane, CHILD_SCHEDULED);
  }

  lemma {:induction false} ChildProgresses(op: Op, id: nat, lane: seq<Entry>, used: set<nat>, inbox: seq<Signal>,
      w: World, fact: Fact)
    requires op.Child? && lane != [] && Definition(lane) == Some(lane[0]) && !Diverges(op, lane)
    requires First(lane, CHILD_SCHEDULED).Some?
    requires fact == match w.reply
      case Success(value) => ChildCompleted(op.workflow, First(lane, CHILD_SCHEDULED).value.fact.childRunId, value)
      case Failure(exc) => ChildFailed(op.workflow, First(lane, CHILD_SCHEDULED).value.fact.childRunId, ErrorInfo(exc))
    ensures Progress(op, lane, used, inbox, w) == Some(fact)
  {
  }

  lemma {:induction false} ChildLaneAfter(op: Op, id: nat, lane: seq<Entry>, x: Entry)
    requires op.Child? && lane != [] && Definition(lane) == Some(lane[0]) && !Diverges(op, lane) && Recorded(op, id, lane).None?
    requires x.fact.ChildCompleted? || x.fact.ChildFailed?
    ensures !Diverges(op, lane + [x])
    ensures Recorded(op, id, lane + [x]) ==
            if x.fact.ChildCompleted? then Some(Returned(x.fact.result))
            else Some(ChildRaised(op.workflow, First(lane, CHILD_SCHEDULED).value.fact.childRunId, x.fact.error))
  {
    DefinitionIsFirst(lane, CHILD_SCHEDULED);
    DefinitionAfter(lane, x);
    FirstSnoc(lane, x, CHILD_SCHEDULED);
    FirstSnoc(lane, x, CHILD_COMPLETED);
    FirstSnoc(lane, x, CHILD_FAILED);
  }

  lemma {:induction false} TimerIsRecorded(op: Op, id: nat, lane: seq<Entry>)
    requires op.Timer? && lane != [] && Definition(lane) == Some(lane[0]) && !Diverges(op, lane)
    ensures First(lane, TIMER_CREATED) == Some(lane[0])
    ensures Recorded(op, id, lane) == if First(lane, TIMER_FIRED).Some? then Some(Returned("null")) else None
  {
    DefinitionIsFirst(lane, TIMER_CREATED);
  }

  lemma {:induction false} TimerProgresses(op: Op, lane: seq<Entry>, used: set<nat>, inbox: seq<Signal>, w: World)
    requires op.Timer? && First(lane, TIMER_CREATED).Some? && First(lane, TIMER_CREATED).value.fact.fireAt <= w.now
    ensures Progress(op, lane, used, inbox, w) == Some(TimerFired)
  {
  }

  lemma {:induction false} TimerLaneAfter(op: Op, id: nat, lane: seq<Entry>, x: Entry)
    requires op.Timer? && Definition(lane).Some? && !Diverges(op, lane) && x.fact == TimerFired
    ensures !Diverges(op, lane + [x]) && Recorded(op, id, lane + [x]) == Some(Returned("null"))
  {
    DefinitionAfter(lane, x);
    FirstSnoc(lane, x, TIMER_FIRED);
  }

  /** Values, tags and registrations are recorded by their definition alone. */
  lemma {:induction false} RecordedByDefinition(op: Op, id: nat, lane: seq<Entry>)
    requires (op.Value? || op.Tag? || op.Register?) && lane != [] && Definition(lane) == Some(lane[0]) && !Diverges(op, lane)
    ensures op.Value? ==>
                First(lane, VALUE_RECORDED).Some? &&
                Recorded(op, id, lane) == Some(Returned(First(lane, VALUE_RECORDED).value.fact.value))
    ensures op.Tag? ==>
                First(lane, TAGS_UPDATED).Some? &&
                Recorded(op, id, lane) == Some(Tagged(First(lane, TAGS_UPDATED).value.fact.update))
    ensures op.Register? ==> Recorded(op, id, lane) == Some(Returned("null"))
  {
  }

  lemma {:induction false} WaitIsRecorded(op: Op, id: nat, lane: seq<Entry>)
    requires op.Wait? && lane != [] && Definition(lane) == Some(lane[0]) && !Diverges(op, lane)
    ensures First(lane, WAIT_CREATED) == Some(lane[0])
    ensures Recorded(op, id, lane) ==
            if First(lane, EVENT_CONSUMED).Some? then Some(Returned(First(lane, EVENT_CONSUMED).value.fact.payload))
            else if First(lane, WAIT_TIMED_OUT).Some? then Some(TimedOut(op.name, id))
            else None
  {
    DefinitionIsFirst(lane, WAIT_CREATED);
  }

  lemma {:induction false} WaitProgresses(op: Op, lane: seq<Entry>, used: set<nat>, inbox: seq<Signal>, w: World,
      deadline: Option<Time>)
    requires op.Wait? && First(lane, WAIT_CREATED).Some? && First(lane, WAIT_CREATED).value.fact.deadline == deadline
    ensures var signal := NextUnconsumed(inbox, op.name, used, 0);
            Progress(op, lane, used, inbox, w) ==
            if signal.Some? then Some(EventConsumed(op.name, signal.value, inbox[signal.value].payload))
            else if deadline.Some? && deadline.value <= w.now then Some(WaitTimedOut(op.name))
            else None
  {
  }

  lemma {:induction false} WaitLaneAfter(op: Op, id: nat, lane: seq<Entry>, x: Entry)
    requires op.Wait? && Definition(lane).Some? && !Diverges(op, lane) && Recorded(op, id, lane).None?
    requires x.fact.EventConsumed? || x.fact.WaitTimedOut?
    ensures !Diverges(op, lane + [x])
    ensures Recorded(op, id, lane + [x]) ==
                if x.fact.EventConsumed? then Some(Returned(x.fact.payload))
                else Some(TimedOut(op.name, id))
  {
    DefinitionAfter(lane, x);
    FirstSnoc(lane, x, EVENT_CONSUMED);
    FirstSnoc(lane, x, WAIT_TIMED_OUT);
  }

  // ---- compensations' lanes ----

  lemma {:induction false} CompensateTakes(p: Program, s: State, c: Comp, w: World, lost: bool)
    requires s.v.Some? && p.body(s.v.value.h).Raise? && HasStarted(s.d.journal)
    requires NextUndo(s.v.value.stack, s.d.journal) == Some(c)
    ensures var fact := UndoProgress(c.undo, At(s.d.journal, UndoLane(c.opId)), w);
            var d := s.d.(calls := s.d.calls +
                    [Call(c.opId, true, Tally(At(s.d.journal, UndoLane(c.opId)), COMP_ATTEMPT_FAILED) + 1, w.now, w.reply)]);
            Next(p, s, Compensate(w, lost)) ==
            if fact.None? then Some(s)
            else if lost then Some(State(d, None))
            else Some(State(Append(d, c.opId, fact.value, w.now + w.took), s.v))
  {
    hide UndoProgress, HasStarted, At, Tally, NextUndo;
  }

  function TriedUndo(undo: Undo, attempt: nat, w: World): (fact: Fact)
    ensures fact.CompCompleted? || fact.CompFailed? || fact.CompAttemptFailed?
  {
    match w.reply
    case Success(_) => CompCompleted(undo.name, attempt)
    case Failure(exc) =>
      if undo.policy.ShouldRetry(exc, attempt)
      then CompAttemptFailed(undo.name, attempt, ErrorInfo(exc), w.now + w.took + undo.policy.Delay(attempt, w.draw))
      else CompFailed(UndoFailure(undo.name, attempt, ErrorInfo(exc)))
  }

  lemma {:induction false} UndoProgresses(undo: Undo, lane: seq<Entry>, w: World)
    requires var retryAt := RetryTime(Final(lane, COMP_ATTEMPT_FAILED)); retryAt.Some? ==> retryAt.value <= w.now
    ensures UndoProgress(undo, lane, w) == Some(TriedUndo(undo, Tally(lane, COMP_ATTEMPT_FAILED) + 1, w))
  {
  }

  function FailureIn(lane: seq<Entry>): Option<UndoFailure> {
    if First(lane, COMP_COMPLETED).None? && First(lane, COMP_FAILED).Some?
    then Some(First(lane, COMP_FAILED).value.fact.failure) else None
  }

  lemma {:induction false} SettledMeans(lane: seq<Entry>)
    ensures Settled(lane) <==> First(lane, COMP_COMPLETED).Some? || First(lane, COMP_FAILED).Some?
  {
  }

  lemma {:induction false} NextIsUnsettled(stack: seq<Comp>, log: Log, c: Comp)
    requires NextUndo(stack, log) == Some(c)
    ensures First(At(log, UndoLane(c.opId)), COMP_COMPLETED).None? && First(At(log, UndoLane(c.opId)), COMP_FAILED).None?
  {
  }

  lemma {:induction false} UndoneLaneAfter(lane: seq<Entry>, x: Entry)
    requires First(lane, COMP_COMPLETED).None? && First(lane, COMP_FAILED).None?
    requires x.fact.CompCompleted? || x.fact.CompFailed? || x.fact.CompAttemptFailed?
    ensures Settled(lane + [x]) == !x.fact.CompAttemptFailed?
    ensures FailureIn(lane + [x]) == if x.fact.CompFailed? then Some(x.fact.failure) else None
    ensures Tally(lane + [x], COMP_ATTEMPT_FAILED) == Tally(lane, COMP_ATTEMPT_FAILED) + if x.fact.CompAttemptFailed? then 1 else 0
    ensures x.fact.CompAttemptFailed? ==> Final(lane + [x], COMP_ATTEMPT_FAILED) == Some(x)
  {
    FirstSnoc(lane, x, COMP_COMPLETED);
    FirstSnoc(lane, x, COMP_FAILED);
    TallySnoc(lane, x, COMP_ATTEMPT_FAILED);
    FinalSnoc(lane, x, COMP_ATTEMPT_FAILED);
  }

  /** While it stays unsettled and the others' lanes stay as they are, the next one stays the next. */
  lemma {:induction false} StillNext(stack: seq<Comp>, j: Log, k: Log, c: Comp)
    requires NextUndo(stack, j) == Some(c) && !Settled(At(k, UndoLane(c.opId)))
    requires forall lane :: lane != UndoLane(c.opId) ==> At(k, lane) == At(j, lane)
    ensures NextUndo(stack, k) == Some(c)
  {
    hide Settled, At;
    var last := stack[|stack| - 1];
    if Settled(At(j, UndoLane(last.opId))) {
      NextIsUnsettledAt(stack, j, c);
      assert last.opId != c.opId;
      assert UndoLane(last.opId) != UndoLane(c.opId);
      StillNext(stack[..|stack| - 1], j, k, c);
    }
  }

  lemma {:induction false} NextIsUnsettledAt(stack: seq<Comp>, log: Log, c: Comp)
    requires NextUndo(stack, log) == Some(c)
    ensures !Settled(At(log, UndoLane(c.opId)))
  {
  }

  ghost predicate AllDone(stack: seq<Comp>, log: Log) {
    forall c :: c in stack ==> Settled(At(log, UndoLane(c.opId)))
  }

  lemma {:induction false} NextUndoAt(stack: seq<Comp>, i: nat, log: Log)
    requires i < |stack| && AllDone(stack[i + 1..], log) && !Settled(At(log, UndoLane(stack[i].opId)))
    ensures NextUndo(stack, log) == Some(stack[i])
    decreases |stack|
  {
    hide Settled, At;
    if i < |stack| - 1 {
      var last, init := stack[|stack| - 1], stack[..|stack| - 1];
      assert last in stack[i + 1..];
      assert stack[i + 1..] == init[i + 1..] + [last];
      NextUndoAt(init, i, log);
    }
  }

  lemma {:induction false} AllDoneMeansNone(stack: seq<Comp>, log: Log)
    requires AllDone(stack, log)
    ensures NextUndo(stack, log).None?
  {
    hide Settled, At;
    if stack != [] {
      assert stack[|stack| - 1] in stack;
      AllDoneMeansNone(stack[..|stack| - 1], log);
    }
  }

  lemma {:induction false} NoFailures(log: Log)
    ensures FailuresOf([], log) == []
  {
  }

  lemma {:induction false} FailuresConcat(c: Comp, rest: seq<Comp>, log: Log)
    ensures FailuresOf([c] + rest, log) == FailuresOf(rest, log) +
            match FailureIn(At(log, UndoLane(c.opId))) case Some(f) => [f] case None => []
  {
    hide At, First;
    if rest == [] {
      assert [c] + rest == [c] && [c][..0] == [];
    } else {
      var last, init := rest[|rest| - 1], rest[..|rest| - 1];
      assert ([c] + rest)[..|rest|] == [c] + init && ([c] + rest)[|rest|] == last;
      FailuresConcat(c, init, log);
    }
  }

  /** One more compensation is settled, and only its own lane changed meanwhile. */
  lemma {:induction false} OneMoreDone(rest: seq<Comp>, c: Comp, j: Log, k: Log)
    requires AllDone(rest, j) && Settled(At(k, UndoLane(c.opId)))
    requires forall d :: d in rest ==> d.opId != c.opId
    requires forall lane :: lane != UndoLane(c.opId) ==> At(k, lane) == At(j, lane)
    ensures AllDone([c] + rest, k)
    ensures FailuresOf([c] + rest, k) == FailuresOf(rest, j) +
            match FailureIn(At(k, UndoLane(c.opId))) case Some(f) => [f] case None => []
  {
    hide Settled, At, FailuresOf, FailureIn;
    forall d | d in rest
      ensures At(j, UndoLane(d.opId)) == At(k, UndoLane(d.opId))
    {
      assert UndoLane(d.opId) != UndoLane(c.opId);
    }
    FailuresStable(rest, j, k);
    FailuresConcat(c, rest, k);
  }
}
