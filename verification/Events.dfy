/** Journal events and the questions the replay engine asks of an event log.
    The log is split into lanes: the run-level events, one lane for each operation and one for
    each compensation. Everything the engine decides about one operation it decides from one lane. */
module Events {
  import opened Wrappers

  /** Canonical JSON text: the values that cross a durability boundary. */
  type Json = string

  /** Wall-clock time in seconds. */
  type Time = real

  datatype Error = Error(kind: string, message: string)

  datatype UndoFailure = UndoFailure(name: string, attempts: nat, error: Error)

  datatype Kind =
    | RUN_STARTED | RUN_COMPLETED | RUN_FAILED | RUN_CANCELLED | RUN_CONTINUED | RUN_RESET
    | STEP_SCHEDULED | STEP_ATTEMPT_FAILED | STEP_COMPLETED | STEP_FAILED
    | COMP_REGISTERED | COMP_ATTEMPT_FAILED | COMP_COMPLETED | COMP_FAILED
    | CHILD_SCHEDULED | CHILD_COMPLETED | CHILD_FAILED
    | TIMER_CREATED | TIMER_FIRED
    | WAIT_CREATED | EVENT_CONSUMED | WAIT_TIMED_OUT
    | VALUE_RECORDED | TAGS_UPDATED

  /** An event's kind together with the payload that kind carries. */
  datatype Fact =
    | RunStarted(tags: map<string, string>)
    | RunCompleted(result: Json)
    | RunFailed(error: Error, compensated: bool, failures: seq<UndoFailure>)
    | RunCancelled(failures: seq<UndoFailure>)
    | RunContinued(nextRunId: string, args: Json)
    | RunReset(toOp: nat, dropped: nat)
    | StepScheduled(name: string, undo: Option<string>)
    | StepAttemptFailed(name: string, attempt: nat, error: Error, retryAt: Time)
    | StepCompleted(name: string, result: Json, attempts: nat)
    | StepFailed(name: string, attempts: nat, error: Error)
    | CompRegistered(name: string)
    | CompAttemptFailed(name: string, attempt: nat, error: Error, retryAt: Time)
    | CompCompleted(name: string, attempts: nat)
    | CompFailed(failure: UndoFailure)
    | ChildScheduled(name: string, childRunId: string)
    | ChildCompleted(name: string, childRunId: string, result: Json)
    | ChildFailed(name: string, childRunId: string, error: Error)
    | TimerCreated(seconds: Time, fireAt: Time)
    | TimerFired
    | WaitCreated(name: string, deadline: Option<Time>)
    | EventConsumed(name: string, signalSeq: nat, payload: Json)
    | WaitTimedOut(name: string)
    | ValueRecorded(name: string, value: Json)
    | TagsUpdated(update: map<string, Option<string>>)
  {
    function Kind(): Kind {
      match this
      case RunStarted(_) => RUN_STARTED
      case RunCompleted(_) => RUN_COMPLETED
      case RunFailed(_, _, _) => RUN_FAILED
      case RunCancelled(_) => RUN_CANCELLED
      case RunContinued(_, _) => RUN_CONTINUED
      case RunReset(_, _) => RUN_RESET
      case StepScheduled(_, _) => STEP_SCHEDULED
      case StepAttemptFailed(_, _, _, _) => STEP_ATTEMPT_FAILED
      case StepCompleted(_, _, _) => STEP_COMPLETED
      case StepFailed(_, _, _) => STEP_FAILED
      case CompRegistered(_) => COMP_REGISTERED
      case CompAttemptFailed(_, _, _, _) => COMP_ATTEMPT_FAILED
      case CompCompleted(_, _) => COMP_COMPLETED
      case CompFailed(_) => COMP_FAILED
      case ChildScheduled(_, _) => CHILD_SCHEDULED
      case ChildCompleted(_, _, _) => CHILD_COMPLETED
      case ChildFailed(_, _, _) => CHILD_FAILED
      case TimerCreated(_, _) => TIMER_CREATED
      case TimerFired => TIMER_FIRED
      case WaitCreated(_, _) => WAIT_CREATED
      case EventConsumed(_, _, _) => EVENT_CONSUMED
      case WaitTimedOut(_) => WAIT_TIMED_OUT
      case ValueRecorded(_, _) => VALUE_RECORDED
      case TagsUpdated(_) => TAGS_UPDATED
    }
  }

  const DEFINING_KINDS: set<Kind> :=
    {STEP_SCHEDULED, TIMER_CREATED, WAIT_CREATED, VALUE_RECORDED, COMP_REGISTERED, CHILD_SCHEDULED, TAGS_UPDATED}

  const TERMINAL_RUN_KINDS: set<Kind> := {RUN_COMPLETED, RUN_FAILED, RUN_CANCELLED, RUN_CONTINUED}

  const COMP_OUTCOME_KINDS: set<Kind> := {COMP_ATTEMPT_FAILED, COMP_COMPLETED, COMP_FAILED}

  const FAILURE_KINDS: set<Kind> := {STEP_FAILED, CHILD_FAILED, WAIT_TIMED_OUT}

  datatype Event = Event(seqNo: nat, opId: int, fact: Fact, ts: Time)

  type Log = seq<Event>

  // ---- the questions, answered by scanning the log ----

  predicate Hits(e: Event, kind: Kind, opId: int) {
    e.fact.Kind() == kind && e.opId == opId
  }

  /** The first event of `kind` at `opId`. */
  function Find(log: Log, kind: Kind, opId: int): Option<Event> {
    if log == [] then None
    else if Hits(log[0], kind, opId) then Some(log[0])
    else Find(log[1..], kind, opId)
  }

  /** The most recent event of `kind` at `opId`. */
  function Last(log: Log, kind: Kind, opId: int): Option<Event> {
    if log == [] then None
    else if Hits(log[|log| - 1], kind, opId) then Some(log[|log| - 1])
    else Last(log[..|log| - 1], kind, opId)
  }

  function Count(log: Log, kind: Kind, opId: int): nat {
    if log == [] then 0 else (if Hits(log[0], kind, opId) then 1 else 0) + Count(log[1..], kind, opId)
  }

  /** The first event that defines the operation slot `opId`. */
  function Defining(log: Log, opId: int): Option<Event> {
    if log == [] then None
    else if log[0].fact.Kind() in DEFINING_KINDS && log[0].opId == opId then Some(log[0])
    else Defining(log[1..], opId)
  }

  /** The largest op id in the log; -1 when there is none at or above 0. */
  function MaxOpId(log: Log): int {
    if log == [] then -1
    else var rest := MaxOpId(log[1..]); if log[0].opId > rest then log[0].opId else rest
  }

  /** The inbox sequence numbers the log records as consumed. */
  function ConsumedSeqs(log: Log): set<nat> {
    set e | e in log && e.fact.EventConsumed? :: e.fact.signalSeq
  }

  // ---- lanes ----

  datatype Lane = RunLane | OpLane(id: int) | UndoLane(id: int)

  /** What a lane keeps of an event: a rewind renumbers events, so not their sequence numbers. */
  datatype Entry = Entry(fact: Fact, ts: Time)

  function LaneOf(e: Event): Lane {
    if e.fact.Kind() in COMP_OUTCOME_KINDS then UndoLane(e.opId)
    else if e.opId < 0 then RunLane
    else OpLane(e.opId)
  }

  /** The events of one lane, in order. */
  function At(log: Log, lane: Lane): seq<Entry> {
    if log == [] then []
    else if LaneOf(log[0]) == lane then [Entry(log[0].fact, log[0].ts)] + At(log[1..], lane)
    else At(log[1..], lane)
  }

  function First(entries: seq<Entry>, kind: Kind): (r: Option<Entry>)
    ensures r.Some? ==> r.value.fact.Kind() == kind && r.value in entries
  {
    if entries == [] then None
    else if entries[0].fact.Kind() == kind then Some(entries[0])
    else First(entries[1..], kind)
  }

  function Final(entries: seq<Entry>, kind: Kind): (r: Option<Entry>)
    ensures r.Some? ==> r.value.fact.Kind() == kind && r.value in entries
  {
    if entries == [] then None
    else if entries[|entries| - 1].fact.Kind() == kind then Some(entries[|entries| - 1])
    else Final(entries[..|entries| - 1], kind)
  }

  function Tally(entries: seq<Entry>, kind: Kind): nat {
    if entries == [] then 0 else (if entries[0].fact.Kind() == kind then 1 else 0) + Tally(entries[1..], kind)
  }

  function Definition(entries: seq<Entry>): (r: Option<Entry>)
    ensures r.Some? ==> r.value.fact.Kind() in DEFINING_KINDS && r.value in entries
  {
    if entries == [] then None
    else if entries[0].fact.Kind() in DEFINING_KINDS then Some(entries[0])
    else Definition(entries[1..])
  }

  // ---- how the answers change when the log grows ----

  lemma {:induction false} AtConcat(a: Log, b: Log, lane: Lane)
    ensures At(a + b, lane) == At(a, lane) + At(b, lane)
  {
    if a == [] {
      assert a + b == b;
    } else {
      assert (a + b)[0] == a[0] && (a + b)[1..] == a[1..] + b;
      AtConcat(a[1..], b, lane);
    }
  }

  /** An append changes its own lane, by one entry at the end, and no other lane. */
  lemma {:induction false} AtAppend(log: Log, e: Event)
    ensures forall lane ::
      At(log + [e], lane) == if LaneOf(e) == lane then At(log, lane) + [Entry(e.fact, e.ts)] else At(log, lane)
  {
    forall lane
      ensures At(log + [e], lane) == if LaneOf(e) == lane then At(log, lane) + [Entry(e.fact, e.ts)] else At(log, lane)
    {
      AtConcat(log, [e], lane);
    }
  }

  lemma {:induction false} FindAppend(log: Log, e: Event, kind: Kind, opId: int)
    ensures Find(log + [e], kind, opId) ==
      if Find(log, kind, opId).Some? then Find(log, kind, opId) else if Hits(e, kind, opId) then Some(e) else None
  {
    if log == [] {
      assert log + [e] == [e];
    } else {
      assert (log + [e])[0] == log[0] && (log + [e])[1..] == log[1..] + [e];
      FindAppend(log[1..], e, kind, opId);
    }
  }

  lemma {:induction false} LastAppend(log: Log, e: Event, kind: Kind, opId: int)
    ensures Last(log + [e], kind, opId) == if Hits(e, kind, opId) then Some(e) else Last(log, kind, opId)
  {
    assert (log + [e])[..|log|] == log;
  }

  lemma {:induction false} CountAppend(log: Log, e: Event, kind: Kind, opId: int)
    ensures Count(log + [e], kind, opId) == Count(log, kind, opId) + if Hits(e, kind, opId) then 1 else 0
  {
    if log == [] {
      assert log + [e] == [e];
    } else {
      assert (log + [e])[0] == log[0] && (log + [e])[1..] == log[1..] + [e];
      CountAppend(log[1..], e, kind, opId);
    }
  }

  lemma {:induction false} DefiningAppend(log: Log, e: Event, opId: int)
    ensures Defining(log + [e], opId) ==
      if Defining(log, opId).Some? then Defining(log, opId)
      else if e.fact.Kind() in DEFINING_KINDS && e.opId == opId then Some(e) else None
  {
    if log == [] {
      assert log + [e] == [e];
    } else {
      assert (log + [e])[0] == log[0] && (log + [e])[1..] == log[1..] + [e];
      DefiningAppend(log[1..], e, opId);
    }
  }

  lemma {:induction false} MaxOpIdAppend(log: Log, e: Event)
    ensures MaxOpId(log + [e]) == if e.opId > MaxOpId(log) then e.opId else MaxOpId(log)
  {
    if log == [] {
      assert log + [e] == [e];
    } else {
      assert (log + [e])[0] == log[0] && (log + [e])[1..] == log[1..] + [e];
      MaxOpIdAppend(log[1..], e);
    }
  }

  lemma {:induction false} ConsumedSeqsAppend(log: Log, e: Event)
    ensures ConsumedSeqs(log + [e]) ==
      ConsumedSeqs(log) + if e.fact.EventConsumed? then {e.fact.signalSeq} else {}
  {
    forall s | s in ConsumedSeqs(log) + if e.fact.EventConsumed? then {e.fact.signalSeq} else {}
      ensures s in ConsumedSeqs(log + [e])
    {
      if s in ConsumedSeqs(log) {
        var x :| x in log && x.fact.EventConsumed? && x.fact.signalSeq == s;
        assert x in log + [e];
      } else {
        assert e in log + [e];
      }
    }
  }

  // ---- a log's answers are its lanes' answers ----

  function LaneFor(kind: Kind, opId: int): Lane {
    if kind in COMP_OUTCOME_KINDS then UndoLane(opId) else if opId < 0 then RunLane else OpLane(opId)
  }

  function Strip(e: Option<Event>): Option<Entry> {
    if e.None? then None else Some(Entry(e.value.fact, e.value.ts))
  }

  /** Op ids are at least -1, and run-level events are the ones at -1. */
  predicate WellNumbered(log: Log) {
    forall i :: 0 <= i < |log| ==> log[i].opId >= -1
  }

  /** An event answers a question exactly when it lies in the question's lane and has its kind. */
  lemma {:induction false} HitsInLane(e: Event, kind: Kind, opId: int)
    requires e.opId >= -1 && opId >= -1
    ensures Hits(e, kind, opId) <==> LaneOf(e) == LaneFor(kind, opId) && e.fact.Kind() == kind
  {
  }

  lemma {:induction false} FindInLane(log: Log, kind: Kind, opId: int)
    requires WellNumbered(log) && opId >= -1
    ensures Strip(Find(log, kind, opId)) == First(At(log, LaneFor(kind, opId)), kind)
  {
    if log != [] {
      var lane, e := LaneFor(kind, opId), log[0];
      FindInLane(log[1..], kind, opId);
      HitsInLane(e, kind, opId);
      if LaneOf(e) == lane {
        FirstCons(Entry(e.fact, e.ts), At(log[1..], lane), kind);
      }
    }
  }

  lemma {:induction false} FirstCons(x: Entry, rest: seq<Entry>, kind: Kind)
    ensures First([x] + rest, kind) == if x.fact.Kind() == kind then Some(x) else First(rest, kind)
    ensures Tally([x] + rest, kind) == (if x.fact.Kind() == kind then 1 else 0) + Tally(rest, kind)
    ensures Definition([x] + rest) == if x.fact.Kind() in DEFINING_KINDS then Some(x) else Definition(rest)
  {
    assert ([x] + rest)[1..] == rest;
  }

  lemma {:induction false} CountInLane(log: Log, kind: Kind, opId: int)
    requires WellNumbered(log) && opId >= -1
    ensures Count(log, kind, opId) == Tally(At(log, LaneFor(kind, opId)), kind)
  {
    if log != [] {
      var lane, e := LaneFor(kind, opId), log[0];
      CountInLane(log[1..], kind, opId);
      HitsInLane(e, kind, opId);
      if LaneOf(e) == lane {
        FirstCons(Entry(e.fact, e.ts), At(log[1..], lane), kind);
      }
    }
  }

  lemma {:induction false} FinalSnoc(entries: seq<Entry>, x: Entry, kind: Kind)
    ensures Final(entries + [x], kind) == if x.fact.Kind() == kind then Some(x) else Final(entries, kind)
  {
    assert (entries + [x])[..|entries|] == entries;
  }

  lemma {:induction false} TallySnoc(lane: seq<Entry>, x: Entry, kind: Kind)
    ensures Tally(lane + [x], kind) == Tally(lane, kind) + if x.fact.Kind() == kind then 1 else 0
  {
    if lane == [] {
      assert lane + [x] == [x];
    } else {
      assert (lane + [x])[0] == lane[0] && (lane + [x])[1..] == lane[1..] + [x];
      TallySnoc(lane[1..], x, kind);
    }
  }

  lemma {:induction false} LastInLane(log: Log, kind: Kind, opId: int)
    requires WellNumbered(log) && opId >= -1
    ensures Strip(Last(log, kind, opId)) == Final(At(log, LaneFor(kind, opId)), kind)
  {
    if log != [] {
      var init, e, lane := log[..|log| - 1], log[|log| - 1], LaneFor(kind, opId);
      LastInLane(init, kind, opId);
      HitsInLane(e, kind, opId);
      assert log == init + [e];
      AtAppend(init, e);
      if LaneOf(e) == lane {
        FinalSnoc(At(init, lane), Entry(e.fact, e.ts), kind);
      }
    }
  }

  lemma {:induction false} DefiningInLane(log: Log, opId: nat)
    ensures Strip(Defining(log, opId)) == Definition(At(log, OpLane(opId)))
  {
    if log != [] {
      var e := log[0];
      DefiningInLane(log[1..], opId);
      if LaneOf(e) == OpLane(opId) {
        FirstCons(Entry(e.fact, e.ts), At(log[1..], OpLane(opId)), STEP_SCHEDULED);
      } else {
        assert !(e.fact.Kind() in DEFINING_KINDS && e.opId == opId);
      }
    }
  }

  /** A lane that holds anything is numbered within the log's op ids. */
  lemma {:induction false} LaneIsBounded(log: Log, id: nat)
    requires At(log, OpLane(id)) != []
    ensures id <= MaxOpId(log)
  {
    if LaneOf(log[0]) != OpLane(id) {
      LaneIsBounded(log[1..], id);
    }
  }

  /** Every entry of a lane is an event of the log, and every event is in its lane. */
  lemma {:induction false} LaneMembers(log: Log, lane: Lane, x: Entry)
    ensures x in At(log, lane) <==> exists e :: e in log && LaneOf(e) == lane && Entry(e.fact, e.ts) == x
  {
    if log != [] {
      LaneMembers(log[1..], lane, x);
      assert log == [log[0]] + log[1..];
    }
  }
}
