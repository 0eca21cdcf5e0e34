/** The replay engine of one run as a transition system. The durable part is what the store
    tables hold; the volatile part is one driver's context, lost in a crash. Every step of the
    system writes the store at most once, so a crash can fall between any two writes. */
module Engine {
  import opened Wrappers
  import opened Events
  import opened Retry
  import Decimals

  // ---- workflow bodies ----

  datatype Undo = Undo(name: string, policy: RetryPolicy)

  /** What a body asks of its context. */
  datatype Op =
    | Step(name: string, policy: RetryPolicy, undo: Option<Undo>)
    | Child(workflow: string, childRunId: Option<string>, undo: Option<Undo>)
    | Timer(seconds: Time)
    | Wait(name: string, timeout: Option<Time>)
    | Value(subkind: string)
    | Tag(update: map<string, Option<string>>)
    | Register(comp: Undo)

  /** What an awaited operation gives back: a value or a raised error. */
  datatype Outcome =
    | Returned(value: Json)
    | StepRaised(name: string, opId: nat, attempts: nat, error: Error)
    | ChildRaised(workflow: string, childRunId: string, error: Error)
    | TimedOut(name: string, opId: nat)
    | Tagged(update: map<string, Option<string>>)

  datatype Move =
    | Await(head: Op, more: seq<Op>)
    | Return(result: Json)
    | Raise(error: Error)
    | ContinueAsNew(args: Json)
  {
    /** The operations requested together: one for a plain await, several for a gather. */
    function Ops(): seq<Op> {
      if Await? then [head] + more else []
    }
  }

  /** A deterministic body: the outcomes so far, by op id, decide what it does next. */
  type Body = seq<Outcome> -> Move

  datatype Program = Program(runId: string, nextRunId: string, tags: map<string, string>, body: Body)

  /** Bodies without gather: every await is for one operation. */
  ghost predicate Sequential(p: Program) {
    forall h: seq<Outcome> :: |p.body(h).Ops()| <= 1
  }

  // ---- durable and volatile state ----

  datatype Signal = Signal(name: string, payload: Json, consumed: bool)

  datatype Record =
    | Running
    | Completed(result: Json)
    | Failed(error: Error, compensated: bool)
    | CompensationFailed(error: Error, failures: seq<UndoFailure>)
    | Continued(nextRunId: string)

  /** One live invocation of a step or compensation function, and what it came back with. */
  datatype Call = Call(opId: nat, undo: bool, attempt: nat, startedAt: Time, reply: Reply)

  /** What an awaited child run came back with. */
  datatype Answer = Answer(opId: nat, childRunId: string, reply: Reply)

  /** `calls` and `answers` are not stored: they are the outside world's memory of what happened. */
  datatype Durable = Durable(
    journal: Log,
    inbox: seq<Signal>,
    record: Record,
    successor: Option<Json>,
    tags: map<string, string>,
    calls: seq<Call>,
    answers: seq<Answer>)

  datatype Comp = Comp(opId: nat, undo: Undo)

  /** A driver: the outcomes its body has received, which operations of the batch being awaited
      have come back, and the compensation stack. */
  datatype Driver = Driver(h: seq<Outcome>, returned: set<nat>, stack: seq<Comp>)

  datatype State = State(d: Durable, v: Option<Driver>)

  // ---- what the world answers ----

  type Span = r: real | r >= 0.0

  /** One uniform draw, scaled to [-1, 1]. */
  type Draw = r: real | -1.0 <= r <= 1.0

  datatype Reply = Success(value: Json) | Failure(exc: Exc)

  /** Everything one live action learns: the clock, how long an invocation takes, its result, the
      jitter draw and a fresh value for now/random/uuid4. */
  datatype World = World(now: Time, took: Span, reply: Reply, draw: Draw, novel: Json)

  function ErrorInfo(exc: Exc): Error { Error(exc.kind, exc.message) }

  // ---- one operation, decided from its lane ----

  /** The check that finds changed code: does the recorded definition match the request? */
  predicate Expected(op: Op, def: Fact) {
    match op
    case Step(name, _, _) => def.StepScheduled? && def.name == name
    case Child(workflow, _, _) => def.ChildScheduled? && def.name == workflow
    case Timer(_) => def.TimerCreated?
    case Wait(name, _) => def.WaitCreated? && def.name == name
    case Value(subkind) => def.ValueRecorded? && def.name == subkind
    case Tag(_) => def.TagsUpdated?
    case Register(comp) => def.CompRegistered? && def.name == comp.name
  }

  predicate Diverges(op: Op, lane: seq<Entry>) {
    Definition(lane).Some? && !Expected(op, Definition(lane).value.fact)
  }

  /** The outcome replay returns for an operation, if its lane records one. */
  function Recorded(op: Op, id: nat, lane: seq<Entry>): Option<Outcome> {
    match op
    case Step(name, _, _) =>
      var completed, failed := First(lane, STEP_COMPLETED), First(lane, STEP_FAILED);
      if completed.Some? then Some(Returned(completed.value.fact.result))
      else if failed.Some? then Some(StepRaised(name, id, failed.value.fact.attempts, failed.value.fact.error))
      else None
    case Child(workflow, _, _) =>
      var scheduled := First(lane, CHILD_SCHEDULED);
      var completed, failed := First(lane, CHILD_COMPLETED), First(lane, CHILD_FAILED);
      if scheduled.None? then None
      else if completed.Some? then Some(Returned(completed.value.fact.result))
      else if failed.Some? then Some(ChildRaised(workflow, scheduled.value.fact.childRunId, failed.value.fact.error))
      else None
    case Timer(_) =>
      if First(lane, TIMER_FIRED).Some? then Some(Returned("null")) else None
    case Wait(name, _) =>
      var consumed := First(lane, EVENT_CONSUMED);
      if consumed.Some? then Some(Returned(consumed.value.fact.payload))
      else if First(lane, WAIT_TIMED_OUT).Some? then Some(TimedOut(name, id))
      else None
    case Value(_) =>
      var recorded := First(lane, VALUE_RECORDED);
      if recorded.Some? then Some(Returned(recorded.value.fact.value)) else None
    case Tag(_) =>
      var recorded := First(lane, TAGS_UPDATED);
      if recorded.Some? then Some(Tagged(recorded.value.fact.update)) else None
    case Register(_) =>
      if First(lane, COMP_REGISTERED).Some? then Some(Returned("null")) else None
  }

  /** An empty id is as good as none. */
  predicate Given(childRunId: Option<string>) {
    childRunId.Some? && childRunId.value != ""
  }

  /** The event that opens an operation's lane. */
  function Opening(op: Op, id: nat, runId: string, w: World): Fact {
    match op
    case Step(name, _, undo) => StepScheduled(name, if undo.Some? then Some(undo.value.name) else None)
    case Child(workflow, childRunId, _) =>
      ChildScheduled(workflow, if Given(childRunId) then childRunId.value else runId + ".c" + Decimals.Render(id))
    case Timer(seconds) => TimerCreated(seconds, w.now + Max(seconds, 0.0))
    case Wait(name, timeout) => WaitCreated(name, if timeout.Some? then Some(w.now + timeout.value) else None)
    case Value(subkind) => ValueRecorded(subkind, w.novel)
    case Tag(update) => TagsUpdated(update)
    case Register(comp) => CompRegistered(comp.name)
  }

  /** Is a journaled backoff still running at `now`? */
  predicate BackingOff(last: Option<Entry>, now: Time) {
    && last.Some?
    && (last.value.fact.StepAttemptFailed? || last.value.fact.CompAttemptFailed?)
    && now < last.value.fact.retryAt
  }

  /** The first signal of that name that is neither flagged consumed nor journaled as consumed. */
  function NextUnconsumed(inbox: seq<Signal>, name: string, exclude: set<nat>, from: nat): (r: Option<nat>)
    requires from <= |inbox|
    ensures r.Some? ==> from <= r.value < |inbox| && inbox[r.value].name == name &&
                        !inbox[r.value].consumed && r.value !in exclude
    ensures r.Some? ==> forall i :: from <= i < r.value && inbox[i].name == name ==> inbox[i].consumed || i in exclude
    ensures r.None? ==> forall i :: from <= i < |inbox| && inbox[i].name == name ==> inbox[i].consumed || i in exclude
    decreases |inbox| - from
  {
    if from == |inbox| then None
    else if inbox[from].name == name && !inbox[from].consumed && from !in exclude then Some(from)
    else NextUnconsumed(inbox, name, exclude, from + 1)
  }

  /** The event the next live action of an opened, unfinished operation appends; None while it
      only waits. */
  function Progress(op: Op, lane: seq<Entry>, used: set<nat>, inbox: seq<Signal>, w: World): Option<Fact> {
    match op
    case Step(name, policy, _) =>
      if BackingOff(Final(lane, STEP_ATTEMPT_FAILED), w.now) then None
      else
        var attempt := Tally(lane, STEP_ATTEMPT_FAILED) + 1;
        (match w.reply
         case Success(value) => Some(StepCompleted(name, value, attempt))
         case Failure(exc) =>
           if policy.ShouldRetry(exc, attempt) then
             Some(StepAttemptFailed(name, attempt, ErrorInfo(exc), w.now + w.took + policy.Delay(attempt, w.draw)))
           else Some(StepFailed(name, attempt, ErrorInfo(exc))))
    case Child(workflow, _, _) =>
      var scheduled := First(lane, CHILD_SCHEDULED);
      if scheduled.None? then None
      else
        (match w.reply
         case Success(value) => Some(ChildCompleted(workflow, scheduled.value.fact.childRunId, value))
         case Failure(exc) => Some(ChildFailed(workflow, scheduled.value.fact.childRunId, ErrorInfo(exc))))
    case Timer(_) =>
      var created := First(lane, TIMER_CREATED);
      if created.Some? && created.value.fact.fireAt <= w.now then Some(TimerFired) else None
    case Wait(name, _) =>
      var created, signal := First(lane, WAIT_CREATED), NextUnconsumed(inbox, name, used, 0);
      if signal.Some? then Some(EventConsumed(name, signal.value, inbox[signal.value].payload))
      else if created.Some? && created.value.fact.deadline.Some? && created.value.fact.deadline.value <= w.now
      then Some(WaitTimedOut(name))
      else None
    case Value(_) => None
    case Tag(_) => None
    case Register(_) => None
  }

  /** The step function a live action invokes before it can append anything. */
  function Invocation(op: Op, id: nat, lane: seq<Entry>, w: World): seq<Call> {
    if op.Step? && Definition(lane).Some? && !BackingOff(Final(lane, STEP_ATTEMPT_FAILED), w.now)
    then [Call(id, false, Tally(lane, STEP_ATTEMPT_FAILED) + 1, w.now, w.reply)]
    else []
  }

  /** The answer of the child run a live action waits for before it can append anything. */
  function Awaited(op: Op, id: nat, lane: seq<Entry>, w: World): seq<Answer> {
    if op.Child? && Definition(lane).Some? && First(lane, CHILD_SCHEDULED).Some?
    then [Answer(id, First(lane, CHILD_SCHEDULED).value.fact.childRunId, w.reply)]
    else []
  }

  // ---- one compensation, decided from its lane ----

  predicate Settled(lane: seq<Entry>) {
    First(lane, COMP_COMPLETED).Some? || First(lane, COMP_FAILED).Some?
  }

  function UndoProgress(undo: Undo, lane: seq<Entry>, w: World): Option<Fact> {
    if BackingOff(Final(lane, COMP_ATTEMPT_FAILED), w.now) then None
    else
      var attempt := Tally(lane, COMP_ATTEMPT_FAILED) + 1;
      match w.reply
      case Success(_) => Some(CompCompleted(undo.name, attempt))
      case Failure(exc) =>
        if undo.policy.ShouldRetry(exc, attempt) then
          Some(CompAttemptFailed(undo.name, attempt, ErrorInfo(exc), w.now + w.took + undo.policy.Delay(attempt, w.draw)))
        else Some(CompFailed(UndoFailure(undo.name, attempt, ErrorInfo(exc))))
  }

  /** The stack entry an operation registers when it comes back. */
  function CompOf(op: Op, id: nat, outcome: Outcome): seq<Comp> {
    match op
    case Step(_, _, undo) => if undo.Some? && outcome.Returned? then [Comp(id, undo.value)] else []
    case Child(_, _, undo) => if undo.Some? && outcome.Returned? then [Comp(id, undo.value)] else []
    case Register(comp) => [Comp(id, comp)]
    case _ => []
  }

  /** The compensation to work on: the most recently registered one without an outcome. */
  function NextUndo(stack: seq<Comp>, journal: Log): (r: Option<Comp>)
    ensures r.Some? ==> r.value in stack && !Settled(At(journal, UndoLane(r.value.opId)))
    ensures r.None? ==> forall c :: c in stack ==> Settled(At(journal, UndoLane(c.opId)))
  {
    if stack == [] then None
    else if !Settled(At(journal, UndoLane(stack[|stack| - 1].opId))) then Some(stack[|stack| - 1])
    else NextUndo(stack[..|stack| - 1], journal)
  }

  /** The permanently failed compensations, most recently registered first. */
  function FailuresOf(stack: seq<Comp>, journal: Log): seq<UndoFailure> {
    if stack == [] then []
    else
      var lane := At(journal, UndoLane(stack[|stack| - 1].opId));
      (if First(lane, COMP_COMPLETED).None? && First(lane, COMP_FAILED).Some?
       then [First(lane, COMP_FAILED).value.fact.failure] else [])
      + FailuresOf(stack[..|stack| - 1], journal)
  }

  // ---- the whole run ----

  function MergeTags(current: map<string, string>, update: map<string, Option<string>>): map<string, string> {
    map key | key in current.Keys + update.Keys && (key in update ==> update[key].Some?) ::
      if key in update then update[key].value else current[key]
  }

  /** The tags after the updates of a history, in order. */
  function TagsAfter(tags: map<string, string>, h: seq<Outcome>): map<string, string> {
    if h == [] then tags
    else
      var before := TagsAfter(tags, h[..|h| - 1]);
      match h[|h| - 1]
      case Tagged(update) => MergeTags(before, update)
      case _ => before
  }

  function Append(d: Durable, opId: int, fact: Fact, ts: Time): Durable {
    d.(journal := d.journal + [Event(|d.journal|, opId, fact, ts)])
  }

  predicate HasStarted(journal: Log) {
    First(At(journal, RunLane), RUN_STARTED).Some?
  }

  predicate AllRecorded(ops: seq<Op>, base: nat, journal: Log) {
    forall i :: 0 <= i < |ops| ==> Recorded(ops[i], base + i, At(journal, OpLane(base + i))).Some?
  }

  function Outcomes(ops: seq<Op>, base: nat, journal: Log): (r: seq<Outcome>)
    requires AllRecorded(ops, base, journal)
    ensures |r| == |ops|
    ensures forall i :: 0 <= i < |r| ==> Some(r[i]) == Recorded(ops[i], base + i, At(journal, OpLane(base + i)))
  {
    seq(|ops|, i requires 0 <= i < |ops| => Recorded(ops[i], base + i, At(journal, OpLane(base + i))).value)
  }

  datatype Act =
    | Boot
    | Crash
    | Start(now: Time)
    | Deliver(name: string, payload: Json)
    | Live(index: nat, w: World, lost: bool)
    | Acknowledge(seqNo: nat)
    | Back(index: nat)
    | Join
    | Compensate(w: World, lost: bool)
    | Conclude(now: Time)

  /** The effect of invoking a step, of a child run's end, or of updating the stored tags, before the append. */
  function Touch(op: Op, id: nat, d: Durable, w: World): Durable {
    var lane := At(d.journal, OpLane(id));
    if op.Tag? then d.(tags := MergeTags(d.tags, op.update))
    else d.(calls := d.calls + Invocation(op, id, lane, w), answers := d.answers + Awaited(op, id, lane, w))
  }

  /** One live action of operation `id`. A `lost` one dies after its effect and before its append. */
  function LiveStep(p: Program, s: State, op: Op, id: nat, w: World, lost: bool): Option<State> {
    var lane := At(s.d.journal, OpLane(id));
    if Diverges(op, lane) then Some(State(s.d, None))
    else if Recorded(op, id, lane).Some? then None
    else
      var fact :=
        if Definition(lane).None? then Some(Opening(op, id, p.runId, w))
        else Progress(op, lane, ConsumedSeqs(s.d.journal), s.d.inbox, w);
      if fact.None? then Some(s)
      else if lost then Some(State(Touch(op, id, s.d, w), None))
      else Some(State(Append(Touch(op, id, s.d, w), id, fact.value, w.now + w.took), s.v))
  }

  function CompensateStep(s: State, w: World, lost: bool): Option<State>
    requires s.v.Some?
  {
    var target := NextUndo(s.v.value.stack, s.d.journal);
    if target.None? then None
    else
      var id, lane := target.value.opId, At(s.d.journal, UndoLane(target.value.opId));
      var fact := UndoProgress(target.value.undo, lane, w);
      if fact.None? then Some(s)
      else
        var d := s.d.(calls := s.d.calls + [Call(id, true, Tally(lane, COMP_ATTEMPT_FAILED) + 1, w.now, w.reply)]);
        if lost then Some(State(d, None))
        else Some(State(Append(d, id, fact.value, w.now + w.took), s.v))
  }

  /** The end of a run: the terminal event first, then the run record, each a write of its own. */
  function ConcludeStep(p: Program, s: State, now: Time): Option<State>
    requires s.v.Some?
  {
    var run, stack := At(s.d.journal, RunLane), s.v.value.stack;
    match p.body(s.v.value.h)
    case Await(_, _) => None
    case Return(result) =>
      if First(run, RUN_COMPLETED).None? then Some(State(Append(s.d, -1, RunCompleted(result), now), s.v))
      else Some(State(s.d.(record := Completed(result)), None))
    case Raise(error) =>
      if NextUndo(stack, s.d.journal).Some? then None
      else
        var failures := FailuresOf(stack, s.d.journal);
        if First(run, RUN_FAILED).None? then
          Some(State(Append(s.d, -1, RunFailed(error, failures == [] && stack != [], failures), now), s.v))
        else if failures != [] then Some(State(s.d.(record := CompensationFailed(error, failures)), None))
        else Some(State(s.d.(record := Failed(error, stack != [])), None))
    case ContinueAsNew(args) =>
      if First(run, RUN_CONTINUED).None? then
        Some(State(Append(s.d, -1, RunContinued(p.nextRunId, args), now), s.v))
      else if s.d.successor.None? then Some(State(s.d.(successor := Some(args)), s.v))
      else Some(State(s.d.(record := Continued(p.nextRunId)), None))
  }

  /** The transition system; None when the act is not possible in `s`. */
  function Next(p: Program, s: State, act: Act): Option<State> {
    match act
    case Boot => if s.v.None? then Some(State(s.d, Some(Driver([], {}, [])))) else None
    case Crash => Some(State(s.d, None))
    case Deliver(name, payload) => Some(s.(d := s.d.(inbox := s.d.inbox + [Signal(name, payload, false)])))
    case Start(now) =>
      if s.v.None? || HasStarted(s.d.journal) then None
      else Some(State(Append(s.d, -1, RunStarted(p.tags), now), s.v))
    case Acknowledge(seqNo) =>
      if s.v.None? || seqNo !in ConsumedSeqs(s.d.journal) || seqNo >= |s.d.inbox| then None
      else Some(s.(d := s.d.(inbox := s.d.inbox[seqNo := s.d.inbox[seqNo].(consumed := true)])))
    case Live(index, w, lost) =>
      if s.v.None? || !HasStarted(s.d.journal) then None
      else
        var ops := p.body(s.v.value.h).Ops();
        if index >= |ops| then None else LiveStep(p, s, ops[index], |s.v.value.h| + index, w, lost)
    case Back(index) =>
      if s.v.None? || !HasStarted(s.d.journal) then None
      else
        var v, ops := s.v.value, p.body(s.v.value.h).Ops();
        if index >= |ops| || index in v.returned then None
        else
          var id, lane := |v.h| + index, At(s.d.journal, OpLane(|v.h| + index));
          if Diverges(ops[index], lane) || Recorded(ops[index], id, lane).None? then None
          else
            var outcome := Recorded(ops[index], id, lane).value;
            Some(State(s.d, Some(v.(returned := v.returned + {index}, stack := v.stack + CompOf(ops[index], id, outcome)))))
    case Join =>
      if s.v.None? then None
      else
        var v, ops := s.v.value, p.body(s.v.value.h).Ops();
        if ops == [] || !(forall i :: 0 <= i < |ops| ==> i in v.returned) || !AllRecorded(ops, |v.h|, s.d.journal) then None
        else Some(State(s.d, Some(Driver(v.h + Outcomes(ops, |v.h|, s.d.journal), {}, v.stack))))
    case Compensate(w, lost) =>
      if s.v.None? || !HasStarted(s.d.journal) || !p.body(s.v.value.h).Raise? then None
      else CompensateStep(s, w, lost)
    case Conclude(now) =>
      if s.v.None? || !HasStarted(s.d.journal) then None else ConcludeStep(p, s, now)
  }

  /** A run of the system under any schedule of crashes, resumes, deliveries and interleavings. */
  function Exec(p: Program, s: State, acts: seq<Act>): Option<State>
    decreases |acts|
  {
    if acts == [] then Some(s)
    else
      var s' := Next(p, s, acts[0]);
      if s'.None? then None else Exec(p, s'.value, acts[1..])
  }

  function Initial(p: Program): State {
    State(Durable([], [], Running, None, p.tags, [], []), None)
  }
}
