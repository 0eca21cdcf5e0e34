/** The workflow context: an object whose methods consult the journal, wait,
    invoke and append. Each method is proved to take only steps of the transition system, so what is
    proved of that system holds of these methods. */
module Contexts {
  import opened Wrappers
  import opened Events
  import opened Retry
  import Divergence
  import opened Engine
  import opened Lanes
  import opened Paths
  import opened Invariant
  import opened Preservation
  import Endings
  import opened Stores
  import opened Journals
  import opened LiveSteps

  /** What one live action meets: signals that arrived before it, the world's answers, and whether the
      process dies between the action's effect and its append. */
  datatype Beat = Beat(mail: seq<Mail>, w: World, lost: bool)

  datatype Mail = Mail(name: string, payload: Json)

  /** The world as one drive meets it; the process dies when the beats are used up. */
  class Outside {
    var beats: seq<Beat>
    ghost var calls: seq<Call>
    ghost var answers: seq<Answer>

    constructor (script: seq<Beat>, ghost made: seq<Call>, ghost heard: seq<Answer>)
      ensures beats == script && calls == made && answers == heard
    {
      beats, calls, answers := script, made, heard;
    }
  }

  datatype Result = Done(outcome: Outcome) | Crashed | Diverged

  // ---- the context ----

  /** Everything durable about a run, and the outside world's memory of it. */
  ghost function Stored(store: RunStore, env: Outside): Durable
    reads store, env
  {
    Durable(store.log, store.inbox, store.record, store.successor, store.tags, env.calls, env.answers)
  }

  class WorkflowContext {
    const runId: string
    /** The id a continue-as-new chains into. */
    const nextRunId: string
    const store: RunStore
    const journal: Journal
    const env: Outside
    var opCounter: nat
    var compStack: seq<Comp>
    /** The run's tags as the body sees them. */
    var tags: map<string, string>

    /** The program, the state the drive began in, the steps taken since, and what the body received. */
    ghost const p: Program
    ghost const start: State
    ghost var trace: seq<Act>
    ghost var h: seq<Outcome>
    /** The tags that were pinned when the run started. */
    ghost var pinned: map<string, string>

    ghost function View(): Durable
      reads store, env
    {
      Stored(store, env)
    }

    ghost function Here(): State
      reads this, store, env
    {
      State(View(), Some(Driver(h, {}, compStack)))
    }

    /** The journal in memory is the stored one, the compensation stack is in op order, and the body sees the
        pinned tags with every update it has received. */
    ghost predicate Sound()
      reads this`h, this`compStack, this`tags, this`pinned, journal, store`rows, store`log
    {
      && journal.Valid() && store.Valid() && journal.store == store && journal.log == store.log
      && Orderly(store.log) && runId == p.runId && nextRunId == p.nextRunId
      && (forall i, j :: 0 <= i < j < |compStack| ==> compStack[i].opId < compStack[j].opId)
      && (forall c :: c in compStack ==> c.opId < |h|)
      && tags == TagsAfter(pinned, h)
    }

    /** The objects are where the steps taken so far lead the transition system. */
    ghost predicate Tracks()
      reads this, journal, store, env
    {
      Sound() && Exec(p, start, trace) == Some(Here())
    }

    /** The process died; the store is what the steps taken so far leave. */
    ghost predicate Died()
      reads this, store, env
    {
      store.Valid() && Orderly(store.log) && Exec(p, start, trace) == Some(State(View(), None))
    }

    /** The body is waiting for operation `op`, at op id `id`. */
    ghost predicate Awaits(op: Op, id: nat)
      reads this`h, store`log
    {
      id == |h| && p.body(h).Ops() == [op] && HasStarted(store.log)
    }

    ghost function Lane(id: nat): seq<Entry>
      reads store`log
    {
      At(store.log, OpLane(id))
    }

    constructor (id: string, nextId: string, runStore: RunStore, runJournal: Journal, outside: Outside,
        ghost program: Program)
      requires runStore.Valid() && runJournal.Valid() && runJournal.store == runStore && runJournal.log == runStore.log
      requires Orderly(runStore.log) && id == program.runId && nextId == program.nextRunId
      ensures store == runStore && journal == runJournal && env == outside && p == program
      ensures Tracks() && opCounter == |h| == 0 && start == State(View(), None) && compStack == [] && trace == [Boot]
      ensures tags == pinned == runStore.tags
    {
      runId, nextRunId, store, journal, env, p := id, nextId, runStore, runJournal, outside, program;
      opCounter, compStack, h, tags, pinned := 0, [], [], runStore.tags, runStore.tags;
      start := State(Stored(runStore, outside), None);
      trace := [Boot];
      new;
      assert [Boot][1..] == [];
      assert Exec(p, Here(), []) == Some(Here());
      assert Next(p, start, Boot) == Some(Here());
      assert Exec(p, start, [Boot]) == Some(Here());
    }

    /** The body sees the tags that the journal says the run started with, never later edits from outside. */
    method Pin()
      requires Tracks() && h == [] && HasStarted(store.log)
      modifies this`tags, this`pinned
      ensures Tracks() && h == []
      ensures tags == pinned == First(At(store.log, RunLane), RUN_STARTED).value.fact.tags
    {
      hide Exec;
      var e := journal.Find(RUN_STARTED, -1);
      FindInLane(store.log, RUN_STARTED, -1);
      tags, pinned := e.value.fact.tags, e.value.fact.tags;
    }

    lemma {:induction false} OwnIds()
      requires Tracks()
      ensures runId == p.runId && nextRunId == p.nextRunId
    {
      hide Exec, Orderly;
    }

    // ---- beats ----

    method NextBeat() returns (b: Option<Beat>)
      requires Tracks()
      modifies this`trace, store`inbox, env`beats
      ensures if b.Some? then Tracks() && |env.beats| < |old(env.beats)| else Died()
    {
      hide Exec, Orderly;
      if |env.beats| == 0 {
        OneStep(p, start, trace, Here(), Crash, State(View(), None));
        trace := trace + [Crash];
        return None;
      }
      var beat := env.beats[0];
      env.beats := env.beats[1..];
      var i := 0;
      while i < |beat.mail|
        invariant 0 <= i <= |beat.mail| && Tracks() && env.beats == old(env.beats)[1..]
      {
        ghost var before := Here();
        var _ := store.AppendSignal(beat.mail[i].name, beat.mail[i].payload);
        ghost var act := Deliver(beat.mail[i].name, beat.mail[i].payload);
        OneStep(p, start, trace, before, act, Here());
        trace := trace + [act];
        i := i + 1;
      }
      b := Some(beat);
    }

    /** Waits a deadline out, if there is one. */
    method Until(ghost waiting: Waiting, deadline: Option<Time>) returns (b: Option<Beat>)
      requires Tracks() && IdlesUntil(p, store.log, Here().v.value, waiting, deadline)
      modifies this`trace, store`inbox, env`beats
      ensures if b.Some? then Tracks() && |env.beats| < |old(env.beats)| else Died()
      ensures b.Some? && deadline.Some? ==> deadline.value <= b.value.w.now
    {
      hide Exec, Orderly, Next;
      b := NextBeat();
      while b.Some? && deadline.Some? && b.value.w.now < deadline.value
        invariant if b.Some? then Tracks() && |env.beats| < |old(env.beats)| else Died()
        decreases b.Some?, |env.beats|
      {
        ghost var act := ActOf(waiting, b.value.w, b.value.lost);
        assert Idles(p, Here(), act);
        OneStep(p, start, trace, Here(), act, Here());
        trace := trace + [act];
        b := NextBeat();
      }
    }

    /** One event to the store and to the journal in memory. */
    method Write(opId: int, fact: Fact, ts: Time)
      requires Sound() && Orderly(store.log + [Event(|store.log|, opId, fact, ts)])
      modifies journal, store`rows, store`log
      ensures Sound() && store.log == old(store.log) + [Event(|old(store.log)|, opId, fact, ts)]
    {
      hide Orderly;
      var ok := journal.Append(opId, fact, ts);
    }

    lemma {:induction false} SoundIsOrderly()
      requires Sound()
      ensures Orderly(store.log) && store.Valid()
    {
      hide Orderly;
    }

    // ---- one operation ----

    /** The recorded definition of an operation, and whether it fails to match the request. */
    method Expect(op: Op, id: nat) returns (recorded: Option<Event>, diverged: bool)
      requires journal.Valid()
      ensures Strip(recorded) == Definition(At(journal.log, OpLane(id)))
      ensures diverged == Diverges(op, At(journal.log, OpLane(id)))
      ensures forall b, runId, w :: recorded.Some? && recorded.value.fact == Opening(b, id, runId, w) ==>
                (diverged <==> !Divergence.SameRequest(op, b))
    {
      hide Opening, Divergence.SameRequest;
      recorded := journal.Defining(id);
      DefiningInLane(journal.log, id);
      diverged := recorded.Some? && !Expected(op, recorded.value.fact);
      forall b, runId, w | recorded.Some? && recorded.value.fact == Opening(b, id, runId, w)
        ensures diverged <==> !Divergence.SameRequest(op, b)
      {
        Divergence.OpeningFits(op, b, id, runId, w);
      }
    }

    /** One live action: its effect, then its event, unless the process dies in between. */
    method Perform(op: Op, id: nat, b: Beat, fact: Fact) returns (alive: bool)
      requires Tracks() && Awaits(op, id) && !Diverges(op, Lane(id)) && Recorded(op, id, Lane(id)).None?
      requires FactAt(p, View(), op, id, b.w) == Some(fact)
      modifies this`trace, journal, store`rows, store`log, store`tags, env`calls, env`answers
      ensures alive == !b.lost
      ensures alive ==>
                  Tracks() && Awaits(op, id) &&
                  store.log == old(store.log) + [Event(|old(store.log)|, id, fact, b.w.now + b.w.took)]
      ensures alive ==> Lane(id) == old(Lane(id)) + [Entry(fact, b.w.now + b.w.took)]
      ensures !alive ==> Died()
    {
      hide Exec, Next, Diverges, Recorded, HasStarted, Definition, Opening, Progress, Invocation, LaneOf, Orderly,
          Sound, FactAt;
      ghost var before, d := Here(), View();
      SoundIsOrderly();
      LiveTakes(p, before, op, id, b.w, b.lost);
      if op.Tag? {
        store.UpdateTags(op.update);
      } else {
        env.calls := env.calls + Invocation(op, id, Lane(id), b.w);
        env.answers := env.answers + Awaited(op, id, Lane(id), b.w);
      }
      assert View() == Touch(op, id, d, b.w);
      alive := !b.lost;
      if alive {
        ghost var e := Event(|d.journal|, id, fact, b.w.now + b.w.took);
        AtAppend(d.journal, e);
        LiveLane(p, d, op, id, b.w, e);
        LiveIsOrderly(p, d, op, id, b.w, e);
        StartedStays(d.journal, e);
        Write(id, fact, b.w.now + b.w.took);
      }
      OneStep(p, start, trace, before, Live(0, b.w, b.lost), State(View(), if alive then before.v else None));
      trace := trace + [Live(0, b.w, b.lost)];
    }

    /** What is left behind by an operation: the body goes on, or the drive is over. */
    ghost predicate Answered(op: Op, id: nat, r: Result, received: seq<Outcome>, stack: seq<Comp>)
      reads this, journal, store, env
    {
      match r
      case Done(outcome) =>
        && Tracks() && HasStarted(store.log) && h == received + [outcome] && compStack == stack + CompOf(op, id, outcome)
        && Recorded(op, id, Lane(id)) == Some(outcome)
      case _ => Died()
    }

    /** An operation used up a beat, or it was recorded already and nothing was written. */
    ghost predicate Advanced(op: Op, id: nat, beats: seq<Beat>, log: Log)
      reads store`log, env`beats
    {
      || |env.beats| < |beats|
      || (env.beats == beats && store.log == log && Recorded(op, id, At(log, OpLane(id))).Some?)
    }

    /** A tag update that the body receives changes its view of the tags. */
    method See(outcome: Outcome)
      modifies this`tags
      ensures tags == match outcome case Tagged(update) => MergeTags(old(tags), update) case _ => old(tags)
    {
      if outcome.Tagged? {
        tags := Merged(tags, outcome.update);
      }
    }

    /** Gives a recorded outcome to the body and registers the operation's compensation. */
    method Return(op: Op, id: nat, outcome: Outcome) returns (r: Result)
      requires Tracks() && Awaits(op, id) && !Diverges(op, Lane(id)) && Recorded(op, id, Lane(id)) == Some(outcome)
      modifies this`trace, this`h, this`compStack, this`tags
      ensures r == Done(outcome) && Answered(op, id, r, old(h), old(compStack))
    {
      hide Exec, Next, Diverges, Recorded, HasStarted, Orderly, TagsAfter, MergeTags;
      ghost var s := Here();
      ghost var back := State(View(), Some(Driver(h, {0}, compStack + CompOf(op, id, outcome))));
      ComesBack(p, s, op, id, outcome);
      OneStep(p, start, trace, s, Back(0), back);
      CompOfShape(op, id, outcome);
      TagsAfterOne(pinned, h, h + [outcome]);
      See(outcome);
      compStack := compStack + CompOf(op, id, outcome);
      h := h + [outcome];
      OneStep(p, start, trace + [Back(0)], back, Join, Here());
      trace := trace + [Back(0)] + [Join];
      r := Done(outcome);
    }

    /** Finds the operation's definition or journals it. */
    method Open(op: Op, id: nat) returns (ended: Option<Result>)
      requires Tracks() && Awaits(op, id)
      modifies this`trace, journal, store`rows, store`log, store`inbox, store`tags, env
      ensures ended.Some? ==> Died() && !ended.value.Done? && (ended.value.Diverged? ==> Diverges(op, old(Lane(id))))
      ensures ended.None? ==>
                && Tracks() && Awaits(op, id) && !Diverges(op, Lane(id))
                && Definition(Lane(id)).Some? && Definition(Lane(id)) == Some(Lane(id)[0])
      ensures ended.None? && old(Lane(id)) == [] ==> |env.beats| < |old(env.beats)| && |Lane(id)| == 1
      ensures ended.None? && old(Lane(id)) != [] ==>
                store.log == old(store.log) && env.beats == old(env.beats) && Definition(old(Lane(id))).Some?
    {
      hide Exec, Next, Diverges, Recorded, HasStarted, Orderly, Opening, Progress, Definition;
      var recorded, diverged := Expect(op, id);
      OrderlyDefinition(store.log, id);
      if diverged {
        ghost var w := World(0.0, 0.0, Success(""), 0.0, "");
        DivergenceKills(p, Here(), op, id, w);
        OneStep(p, start, trace, Here(), Live(0, w, false), State(View(), None));
        trace := trace + [Live(0, w, false)];
        return Some(Diverged);
      }
      if recorded.None? {
        var b := NextBeat();
        if b.None? { return Some(Crashed); }
        NothingRecorded(op, id);
        var fact := Opening(op, id, runId, b.value.w);
        var alive := Perform(op, id, b.value, fact);
        if !alive { return Some(Crashed); }
        OpeningOpens(op, id, runId, b.value.w);
        assert Lane(id) == [Entry(fact, b.value.w.now + b.value.w.took)];
      }
      ended := None;
    }

    // ---- the journal's answers, in terms of the operation's lane ----

    method Find(kind: Kind, id: nat) returns (r: Option<Entry>)
      requires Tracks() && kind !in COMP_OUTCOME_KINDS
      ensures r == First(Lane(id), kind)
    {
      hide Exec, HasStarted;
      var e := journal.Find(kind, id);
      FindInLane(store.log, kind, id);
      r := Strip(e);
    }

    method Last(kind: Kind, id: nat) returns (r: Option<Entry>)
      requires Tracks() && kind !in COMP_OUTCOME_KINDS
      ensures r == Final(Lane(id), kind)
    {
      hide Exec, HasStarted;
      var e := journal.Last(kind, id);
      LastInLane(store.log, kind, id);
      r := Strip(e);
    }

    method Count(kind: Kind, id: nat) returns (r: nat)
      requires Tracks() && kind !in COMP_OUTCOME_KINDS
      ensures r == Tally(Lane(id), kind)
    {
      hide Exec, HasStarted;
      r := journal.Count(kind, id);
      CountInLane(store.log, kind, id);
    }

    /** Is an event of that run-level kind journaled? */
    method FindAnnounced(kind: Kind) returns (r: bool)
      requires Tracks() && LaneFor(kind, -1) == RunLane
      ensures r == First(At(store.log, RunLane), kind).Some?
    {
      hide Exec, HasStarted;
      var e := journal.Find(kind, -1);
      FindInLane(store.log, kind, -1);
      r := e.Some?;
    }

    // ---- steps ----

    method Step(op: Op, id: nat) returns (r: Result)
      requires Tracks() && Awaits(op, id) && op.Step?
      modifies `trace, `h, `compStack, `tags, journal, store`rows, store`log, store`inbox, store`tags, env
      ensures Answered(op, id, r, old(h), old(compStack))
      ensures r.Diverged? ==> Diverges(op, old(Lane(id)))
      ensures r.Done? ==> Advanced(op, id, old(env.beats), old(store.log))
    {
      hide Exec, Next, Diverges, Definition, Recorded, CompOf, Tracks, Awaits, Tally, Final, First, At, Died, Orderly;
      var ended := Open(op, id);
      if ended.Some? {
        r := ended.value;
        assert Died();
        return;
      }
      StepIsRecorded(op, id, Lane(id));
      var completed := Find(STEP_COMPLETED, id);
      if completed.Some? {
        r := Return(op, id, Returned(completed.value.fact.result));
        return;
      }
      var failed := Find(STEP_FAILED, id);
      if failed.Some? {
        r := Return(op, id, StepRaised(op.name, id, failed.value.fact.attempts, failed.value.fact.error));
        return;
      }
      var attempt := Count(STEP_ATTEMPT_FAILED, id);
      var last := Last(STEP_ATTEMPT_FAILED, id);
      r := Attempts(op, id, attempt, RetryTime(last));
    }

    lemma {:induction false} WaitsOutBackoff(op: Op, id: nat)
      requires Tracks() && Awaits(op, id) && op.Step?
      requires !Diverges(op, Lane(id)) && Definition(Lane(id)).Some? && Recorded(op, id, Lane(id)).None?
      ensures IdlesUntil(p, store.log, Here().v.value, ForOp(op), RetryTime(Final(Lane(id), STEP_ATTEMPT_FAILED)))
    {
      hide Exec, Next, Diverges, Definition, Recorded, IdlesUntil;
      StepIdles(p, store.log, Here().v.value, op, id);
    }

    /** Live execution: one attempt after the other, each after the backoff of the one before. */
    method Attempts(op: Op, id: nat, attempted: nat, firstRetryAt: Option<Time>) returns (r: Result)
      requires Tracks() && Awaits(op, id) && op.Step?
      requires !Diverges(op, Lane(id)) && Definition(Lane(id)).Some? && Recorded(op, id, Lane(id)).None?
      requires attempted == Tally(Lane(id), STEP_ATTEMPT_FAILED)
      requires firstRetryAt == RetryTime(Final(Lane(id), STEP_ATTEMPT_FAILED))
      modifies `trace, `h, `compStack, `tags, journal, store`rows, store`log, store`inbox, store`tags, env
      ensures Answered(op, id, r, old(h), old(compStack)) && !r.Diverged?
      ensures |env.beats| < |old(env.beats)| || r.Crashed?
    {
      hide Exec, Next, Diverges, Definition, Recorded, CompOf, Tracks, Awaits, Tally, Final, First, At, Died,
          Orderly, IdlesUntil, Tried,
        Progress;
      var attempt, retryAt := attempted, firstRetryAt;
      while true
        invariant Tracks() && Awaits(op, id) && !Diverges(op, Lane(id)) && Definition(Lane(id)).Some?
        invariant Recorded(op, id, Lane(id)).None?
        invariant attempt == Tally(Lane(id), STEP_ATTEMPT_FAILED)
        invariant retryAt == RetryTime(Final(Lane(id), STEP_ATTEMPT_FAILED))
        invariant h == old(h) && compStack == old(compStack) && |env.beats| <= |old(env.beats)|
        decreases |env.beats|
      {
        WaitsOutBackoff(op, id);
        var b := Until(ForOp(op), retryAt);
        if b.None? { return Crashed; }
        attempt := attempt + 1;
        var fact := Tried(op, attempt, b.value.w);
        ghost var lane, x := Lane(id), Entry(fact, b.value.w.now + b.value.w.took);
        StepProgresses(op, lane, ConsumedSeqs(store.log), store.inbox, b.value.w);
        var alive := Perform(op, id, b.value, fact);
        if !alive { return Crashed; }
        StepLaneAfter(op, id, lane, x);
        match fact
        case StepCompleted(_, value, _) =>
          r := Return(op, id, Returned(value));
          return;
        case StepFailed(_, attempts, error) =>
          r := Return(op, id, StepRaised(op.name, id, attempts, error));
          return;
        case StepAttemptFailed(_, _, _, until) =>
          retryAt := Some(until);
      }
    }

    // ---- child workflows, timers, waits, values, tags ----

    method Child(op: Op, id: nat) returns (r: Result)
      requires Tracks() && Awaits(op, id) && op.Child?
      modifies `trace, `h, `compStack, `tags, journal, store`rows, store`log, store`inbox, store`tags, env
      ensures Answered(op, id, r, old(h), old(compStack))
      ensures r.Diverged? ==> Diverges(op, old(Lane(id)))
      ensures r.Done? ==> Advanced(op, id, old(env.beats), old(store.log))
    {
      hide Exec, Next, Diverges, Definition, Recorded, CompOf, Tracks, Awaits, First, At, Died, Orderly, Progress;
      var ended := Open(op, id);
      if ended.Some? {
        r := ended.value;
        assert Died();
        return;
      }
      ChildIsRecorded(op, id, Lane(id));
      var scheduled := Find(CHILD_SCHEDULED, id);
      var childRunId := scheduled.value.fact.childRunId;
      var completed := Find(CHILD_COMPLETED, id);
      if completed.Some? {
        r := Return(op, id, Returned(completed.value.fact.result));
        return;
      }
      var failed := Find(CHILD_FAILED, id);
      if failed.Some? {
        r := Return(op, id, ChildRaised(op.workflow, childRunId, failed.value.fact.error));
        return;
      }
      r := AwaitChild(op, id, childRunId);
    }

    /** Starts the child run, or attaches to it, and journals its outcome. */
    method AwaitChild(op: Op, id: nat, childRunId: string) returns (r: Result)
      requires Tracks() && Awaits(op, id) && op.Child?
      requires Lane(id) != [] && !Diverges(op, Lane(id)) && Definition(Lane(id)) == Some(Lane(id)[0]) &&
                Recorded(op, id, Lane(id)).None?
      requires First(Lane(id), CHILD_SCHEDULED).Some? && First(Lane(id), CHILD_SCHEDULED).value.fact.childRunId == childRunId
      modifies `trace, `h, `compStack, `tags, journal, store`rows, store`log, store`inbox, store`tags, env
      ensures Answered(op, id, r, old(h), old(compStack)) && !r.Diverged?
      ensures |env.beats| < |old(env.beats)| || r.Crashed?
    {
      hide Exec, Next, Diverges, Definition, Recorded, CompOf, Tracks, Awaits, First, At, Died, Orderly, Progress;
      var b := NextBeat();
      if b.None? { return Crashed; }
      var fact, outcome;
      match b.value.w.reply {
        case Success(value) =>
          fact, outcome := ChildCompleted(op.workflow, childRunId, value), Returned(value);
        case Failure(exc) =>
          var error := ErrorInfo(exc);
          fact, outcome := ChildFailed(op.workflow, childRunId, error), ChildRaised(op.workflow, childRunId, error);
      }
      ghost var lane, x := Lane(id), Entry(fact, b.value.w.now + b.value.w.took);
      ChildProgresses(op, id, lane, ConsumedSeqs(store.log), store.inbox, b.value.w, fact);
      var alive := Perform(op, id, b.value, fact);
      if !alive { return Crashed; }
      ChildLaneAfter(op, id, lane, x);
      r := Return(op, id, outcome);
    }

    method Sleep(op: Op, id: nat) returns (r: Result)
      requires Tracks() && Awaits(op, id) && op.Timer?
      modifies `trace, `h, `compStack, `tags, journal, store`rows, store`log, store`inbox, store`tags, env
      ensures Answered(op, id, r, old(h), old(compStack))
      ensures r.Diverged? ==> Diverges(op, old(Lane(id)))
      ensures r.Done? ==> Advanced(op, id, old(env.beats), old(store.log))
    {
      hide Exec, Next, Diverges, Definition, Recorded, CompOf, Tracks, Awaits, First, At, Died, Orderly, Progress,
          IdlesUntil;
      var ended := Open(op, id);
      if ended.Some? {
        r := ended.value;
        assert Died();
        return;
      }
      TimerIsRecorded(op, id, Lane(id));
      var fired := Find(TIMER_FIRED, id);
      if fired.Some? {
        r := Return(op, id, Returned("null"));
        return;
      }
      var created := Find(TIMER_CREATED, id);
      r := Fire(op, id, created.value.fact.fireAt);
    }

    /** Waits out what is left of the journaled deadline. */
    method Fire(op: Op, id: nat, fireAt: Time) returns (r: Result)
      requires Tracks() && Awaits(op, id) && op.Timer?
      requires !Diverges(op, Lane(id)) && Definition(Lane(id)).Some? && Recorded(op, id, Lane(id)).None?
      requires First(Lane(id), TIMER_CREATED).Some? && First(Lane(id), TIMER_CREATED).value.fact.fireAt == fireAt
      modifies `trace, `h, `compStack, `tags, journal, store`rows, store`log, store`inbox, store`tags, env
      ensures Answered(op, id, r, old(h), old(compStack)) && !r.Diverged?
      ensures |env.beats| < |old(env.beats)| || r.Crashed?
    {
      hide Exec, Next, Diverges, Definition, Recorded, CompOf, Tracks, Awaits, First, At, Died, Orderly, Progress,
          IdlesUntil;
      WaitsOutTimer(op, id, fireAt);
      var b := Until(ForOp(op), Some(fireAt));
      if b.None? { return Crashed; }
      ghost var lane, x := Lane(id), Entry(TimerFired, b.value.w.now + b.value.w.took);
      TimerProgresses(op, lane, ConsumedSeqs(store.log), store.inbox, b.value.w);
      var alive := Perform(op, id, b.value, TimerFired);
      if !alive { return Crashed; }
      TimerLaneAfter(op, id, lane, x);
      r := Return(op, id, Returned("null"));
    }

    lemma {:induction false} WaitsOutTimer(op: Op, id: nat, fireAt: Time)
      requires Tracks() && Awaits(op, id) && op.Timer?
      requires !Diverges(op, Lane(id)) && Definition(Lane(id)).Some? && Recorded(op, id, Lane(id)).None?
      requires First(Lane(id), TIMER_CREATED).Some? && First(Lane(id), TIMER_CREATED).value.fact.fireAt == fireAt
      ensures IdlesUntil(p, store.log, Here().v.value, ForOp(op), Some(fireAt))
    {
      hide Exec, Next, Diverges, Definition, Recorded, IdlesUntil;
      TimerIdles(p, store.log, Here().v.value, op, id, fireAt);
    }

    /** `now`, `random` and `uuid4`: what was observed first is what replay sees. */
    method Value(op: Op, id: nat) returns (r: Result)
      requires Tracks() && Awaits(op, id) && op.Value?
      modifies `trace, `h, `compStack, `tags, journal, store`rows, store`log, store`inbox, store`tags, env
      ensures Answered(op, id, r, old(h), old(compStack))
      ensures r.Diverged? ==> Diverges(op, old(Lane(id)))
      ensures r.Done? ==> Advanced(op, id, old(env.beats), old(store.log))
    {
      hide Exec, Next, Diverges, Definition, Recorded, CompOf, Tracks, Awaits, First, At, Died, Orderly;
      var ended := Open(op, id);
      if ended.Some? {
        r := ended.value;
        assert Died();
        return;
      }
      RecordedByDefinition(op, id, Lane(id));
      var recorded := Find(VALUE_RECORDED, id);
      r := Return(op, id, Returned(recorded.value.fact.value));
    }

    /** Updates the stored tags, then journals the update; replay applies the journaled one. */
    method Tag(op: Op, id: nat) returns (r: Result)
      requires Tracks() && Awaits(op, id) && op.Tag?
      modifies `trace, `h, `compStack, `tags, journal, store`rows, store`log, store`inbox, store`tags, env
      ensures Answered(op, id, r, old(h), old(compStack))
      ensures r.Diverged? ==> Diverges(op, old(Lane(id)))
      ensures r.Done? ==> Advanced(op, id, old(env.beats), old(store.log))
    {
      hide Exec, Next, Diverges, Definition, Recorded, CompOf, Tracks, Awaits, First, At, Died, Orderly;
      var ended := Open(op, id);
      if ended.Some? {
        r := ended.value;
        assert Died();
        return;
      }
      RecordedByDefinition(op, id, Lane(id));
      var recorded := Find(TAGS_UPDATED, id);
      r := Return(op, id, Tagged(recorded.value.fact.update));
    }

    method AddCompensation(op: Op, id: nat) returns (r: Result)
      requires Tracks() && Awaits(op, id) && op.Register?
      modifies `trace, `h, `compStack, `tags, journal, store`rows, store`log, store`inbox, store`tags, env
      ensures Answered(op, id, r, old(h), old(compStack))
      ensures r.Diverged? ==> Diverges(op, old(Lane(id)))
      ensures r.Done? ==> Advanced(op, id, old(env.beats), old(store.log))
    {
      hide Exec, Next, Diverges, Definition, Recorded, CompOf, Tracks, Awaits, First, At, Died, Orderly;
      var ended := Open(op, id);
      if ended.Some? {
        r := ended.value;
        assert Died();
        return;
      }
      RecordedByDefinition(op, id, Lane(id));
      r := Return(op, id, Returned("null"));
    }

    method WaitEvent(op: Op, id: nat) returns (r: Result)
      requires Tracks() && Awaits(op, id) && op.Wait?
      modifies `trace, `h, `compStack, `tags, journal, store`rows, store`log, store`inbox, store`tags, env
      ensures Answered(op, id, r, old(h), old(compStack))
      ensures r.Diverged? ==> Diverges(op, old(Lane(id)))
      ensures r.Done? ==> Advanced(op, id, old(env.beats), old(store.log))
    {
      hide Exec, Next, Diverges, Definition, Recorded, CompOf, Tracks, Awaits, First, At, Died, Orderly;
      var ended := Open(op, id);
      if ended.Some? {
        r := ended.value;
        assert Died();
        return;
      }
      WaitIsRecorded(op, id, Lane(id));
      var consumed := Find(EVENT_CONSUMED, id);
      if consumed.Some? {
        r := Return(op, id, Returned(consumed.value.fact.payload));
        return;
      }
      var timedOut := Find(WAIT_TIMED_OUT, id);
      if timedOut.Some? {
        r := Return(op, id, TimedOut(op.name, id));
        return;
      }
      var created := Find(WAIT_CREATED, id);
      r := Poll(op, id, created.value.fact.deadline);
    }

    /** Journals a signal's consumption, then flags the signal. */
    method Consume(op: Op, id: nat, b: Beat, seqNo: nat, deadline: Option<Time>) returns (r: Result)
      requires Tracks() && Awaits(op, id) && op.Wait?
      requires !Diverges(op, Lane(id)) && Definition(Lane(id)).Some? && Recorded(op, id, Lane(id)).None?
      requires First(Lane(id), WAIT_CREATED).Some? && First(Lane(id), WAIT_CREATED).value.fact.deadline == deadline
      requires NextUnconsumed(store.inbox, op.name, ConsumedSeqs(store.log), 0) == Some(seqNo)
      modifies `trace, `h, `compStack, `tags, journal, store`rows, store`log, store`inbox, store`tags, env
      ensures Answered(op, id, r, old(h), old(compStack)) && !r.Diverged?
      ensures |env.beats| <= |old(env.beats)| || r.Crashed?
    {
      hide Exec, Next, Diverges, Definition, Recorded, CompOf, Tracks, Awaits, First, At, Died, Orderly, Progress,
          NextUnconsumed;
      ghost var lane := Lane(id);
      var payload := store.inbox[seqNo].payload;
      WaitProgresses(op, lane, ConsumedSeqs(store.log), store.inbox, b.w, deadline);
      var fact := EventConsumed(op.name, seqNo, payload);
      var alive := Perform(op, id, b, fact);
      if !alive { return Crashed; }
      WaitLaneAfter(op, id, lane, Entry(fact, b.w.now + b.w.took));
      var next := NextBeat();
      if next.None? { return Crashed; }
      MarkConsumed(seqNo);
      r := Return(op, id, Returned(payload));
    }

    /** Journals that the deadline passed. */
    method TimeOut(op: Op, id: nat, b: Beat, deadline: Option<Time>) returns (r: Result)
      requires Tracks() && Awaits(op, id) && op.Wait?
      requires !Diverges(op, Lane(id)) && Definition(Lane(id)).Some? && Recorded(op, id, Lane(id)).None?
      requires First(Lane(id), WAIT_CREATED).Some? && First(Lane(id), WAIT_CREATED).value.fact.deadline == deadline
      requires NextUnconsumed(store.inbox, op.name, ConsumedSeqs(store.log), 0).None?
      requires deadline.Some? && deadline.value <= b.w.now
      modifies `trace, `h, `compStack, `tags, journal, store`rows, store`log, store`inbox, store`tags, env
      ensures Answered(op, id, r, old(h), old(compStack)) && !r.Diverged?
      ensures env.beats == old(env.beats)
    {
      hide Exec, Next, Diverges, Definition, Recorded, CompOf, Tracks, Awaits, First, At, Died, Orderly, Progress,
          NextUnconsumed;
      ghost var lane := Lane(id);
      WaitProgresses(op, lane, ConsumedSeqs(store.log), store.inbox, b.w, deadline);
      var alive := Perform(op, id, b, WaitTimedOut(op.name));
      if !alive { return Crashed; }
      WaitLaneAfter(op, id, lane, Entry(WaitTimedOut(op.name), b.w.now + b.w.took));
      r := Return(op, id, TimedOut(op.name, id));
    }

    /** Scans the inbox on every beat until a signal is there or the deadline has passed. */
    method Poll(op: Op, id: nat, deadline: Option<Time>) returns (r: Result)
      requires Tracks() && Awaits(op, id) && op.Wait?
      requires !Diverges(op, Lane(id)) && Definition(Lane(id)).Some? && Recorded(op, id, Lane(id)).None?
      requires First(Lane(id), WAIT_CREATED).Some? && First(Lane(id), WAIT_CREATED).value.fact.deadline == deadline
      modifies `trace, `h, `compStack, `tags, journal, store`rows, store`log, store`inbox, store`tags, env
      ensures Answered(op, id, r, old(h), old(compStack)) && !r.Diverged?
      ensures |env.beats| < |old(env.beats)| || r.Crashed?
    {
      hide Exec, Next, Diverges, Definition, Recorded, CompOf, Tracks, Awaits, First, At, Died, Orderly, Progress,
          NextUnconsumed;
      ghost var lane := Lane(id);
      while true
        invariant Tracks() && Awaits(op, id) && Lane(id) == lane
        invariant h == old(h) && compStack == old(compStack) && |env.beats| <= |old(env.beats)|
        decreases |env.beats|
      {
        var b := NextBeat();
        if b.None? { return Crashed; }
        var now := b.value.w.now;
        var signal := NextSignal(op.name);
        if signal.Some? {
          r := Consume(op, id, b.value, signal.value, deadline);
          return;
        }
        if deadline.Some? && deadline.value <= now {
          r := TimeOut(op, id, b.value, deadline);
          return;
        }
        Idle(op, id, b.value, deadline);
      }
    }

    method NextSignal(name: string) returns (r: Option<nat>)
      requires Tracks()
      ensures r == NextUnconsumed(store.inbox, name, ConsumedSeqs(store.log), 0)
    {
      r := store.NextUnconsumedSignal(name, journal.consumedSignalSeqs);
    }

    /** A beat that finds neither a signal nor a passed deadline changes nothing. */
    ghost method Idle(op: Op, id: nat, b: Beat, deadline: Option<Time>)
      requires Tracks() && Awaits(op, id) && op.Wait?
      requires !Diverges(op, Lane(id)) && Definition(Lane(id)).Some? && Recorded(op, id, Lane(id)).None?
      requires First(Lane(id), WAIT_CREATED).Some? && First(Lane(id), WAIT_CREATED).value.fact.deadline == deadline
      requires NextUnconsumed(store.inbox, op.name, ConsumedSeqs(store.log), 0).None?
      requires deadline.Some? ==> b.w.now < deadline.value
      modifies this`trace
      ensures Tracks()
    {
      hide Exec, Next, Diverges, Definition, Recorded, Orderly, HasStarted, Progress;
      WaitProgresses(op, Lane(id), ConsumedSeqs(store.log), store.inbox, b.w, deadline);
      LiveTakes(p, Here(), op, id, b.w, b.lost);
      OneStep(p, start, trace, Here(), Live(0, b.w, b.lost), Here());
      trace := trace + [Live(0, b.w, b.lost)];
    }

    /** Flags a signal whose consumption is journaled. */
    method MarkConsumed(seqNo: nat)
      requires Tracks() && seqNo in ConsumedSeqs(store.log)
      modifies this`trace, store`inbox
      ensures Tracks()
    {
      hide Exec, Orderly;
      ghost var before := Here();
      if seqNo < |store.inbox| {
        store.MarkSignal(seqNo, true);
        assert store.inbox == before.d.inbox[seqNo := before.d.inbox[seqNo].(consumed := true)];
        OneStep(p, start, trace, before, Acknowledge(seqNo), Here());
        trace := trace + [Acknowledge(seqNo)];
      }
    }

    /** One call of the body: the next op id, then the operation itself. */
    method Request(op: Op) returns (r: Result)
      requires Tracks() && opCounter == |h| && Awaits(op, opCounter)
      modifies this, journal, store`rows, store`log, store`inbox, store`tags, env
      ensures opCounter == old(opCounter) + 1
      ensures Answered(op, old(opCounter), r, old(h), old(compStack))
      ensures r.Diverged? ==> Diverges(op, old(Lane(opCounter)))
      ensures r.Done? ==> Advanced(op, old(opCounter), old(env.beats), old(store.log))
    {
      hide Exec, Next, Orderly, Recorded, CompOf, HasStarted, Awaits, At, Diverges;
      var id := opCounter;
      opCounter := opCounter + 1;
      match op
      case Step(_, _, _) => r := Step(op, id);
      case Child(_, _, _) => r := Child(op, id);
      case Timer(_) => r := Sleep(op, id);
      case Wait(_, _) => r := WaitEvent(op, id);
      case Value(_) => r := Value(op, id);
      case Tag(_) => r := Tag(op, id);
      case Register(_) => r := AddCompensation(op, id);
    }

    // ---- saga compensations ----

    ghost function UndoneLane(id: nat): seq<Entry>
      reads store`log
    {
      At(store.log, UndoLane(id))
    }

    /** The body has failed, and `c` is the next compensation to run. */
    ghost predicate Undoes(c: Comp)
      reads this`h, this`compStack, store`log
    {
      p.body(h).Raise? && HasStarted(store.log) && NextUndo(compStack, store.log) == Some(c)
    }

    method FindUndone(kind: Kind, id: nat) returns (r: Option<Entry>)
      requires Tracks() && kind in COMP_OUTCOME_KINDS
      ensures r == First(UndoneLane(id), kind)
    {
      hide Exec, HasStarted;
      var e := journal.Find(kind, id);
      FindInLane(store.log, kind, id);
      r := Strip(e);
    }

    method FailedUndos(id: nat) returns (attempts: nat, last: Option<Entry>)
      requires Tracks()
      ensures attempts == Tally(UndoneLane(id), COMP_ATTEMPT_FAILED) && last == Final(UndoneLane(id), COMP_ATTEMPT_FAILED)
    {
      hide Exec, HasStarted;
      attempts := journal.Count(COMP_ATTEMPT_FAILED, id);
      CountInLane(store.log, COMP_ATTEMPT_FAILED, id);
      var e := journal.Last(COMP_ATTEMPT_FAILED, id);
      LastInLane(store.log, COMP_ATTEMPT_FAILED, id);
      last := Strip(e);
    }

    /** One attempt of a compensation: the invocation, then its event, unless the process dies in between. */
    method PerformUndo(c: Comp, b: Beat, fact: Fact) returns (alive: bool)
      requires Tracks() && Undoes(c) && UndoProgress(c.undo, UndoneLane(c.opId), b.w) == Some(fact)
      modifies this`trace, journal, store`rows, store`log, env`calls
      ensures alive == !b.lost
      ensures alive ==> Tracks() && HasStarted(store.log)
      ensures alive ==> forall lane :: At(store.log, lane) == if lane == UndoLane(c.opId)
                then old(UndoneLane(c.opId)) + [Entry(fact, b.w.now + b.w.took)] else old(At(store.log, lane))
      ensures !alive ==> Died()
    {
      hide Exec, Next, HasStarted, UndoProgress, LaneOf, Orderly, NextUndo, Tally, Sound;
      ghost var before, d := Here(), View();
      SoundIsOrderly();
      CompensateTakes(p, before, c, b.w, b.lost);
      env.calls := env.calls + [Call(c.opId, true, Tally(UndoneLane(c.opId), COMP_ATTEMPT_FAILED) + 1, b.w.now, b.w.reply)];
      alive := !b.lost;
      if alive {
        ghost var e := Event(|d.journal|, c.opId, fact, b.w.now + b.w.took);
        AtAppend(d.journal, e);
        Endings.UndoLaneOfFact(c.undo, At(d.journal, UndoLane(c.opId)), b.w, e);
        OrderlyAppend(d.journal, e);
        StartedStays(d.journal, e);
        Write(c.opId, fact, b.w.now + b.w.took);
      }
      OneStep(p, start, trace, before, Compensate(b.w, b.lost), State(View(), if alive then before.v else None));
      trace := trace + [Compensate(b.w, b.lost)];
    }

    /** Runs one compensation to its outcome: attempt after attempt, each after its backoff. */
    method CompensateOne(c: Comp) returns (alive: bool, failure: Option<UndoFailure>)
      requires Tracks() && Undoes(c)
      modifies this`trace, journal, store`rows, store`log, store`inbox, env
      ensures !alive ==> Died()
      ensures alive ==> Tracks() && HasStarted(store.log) && Settled(UndoneLane(c.opId))
      ensures alive ==> forall lane :: lane != UndoLane(c.opId) ==> At(store.log, lane) == old(At(store.log, lane))
      ensures alive ==> failure == FailureIn(UndoneLane(c.opId))
    {
      hide Exec, Next, HasStarted, UndoProgress, LaneOf, Orderly, Tracks, Died, Tally, Final, First, At, IdlesUntil,
          TriedUndo, NextUndo;
      var attempt, last := FailedUndos(c.opId);
      var retryAt := RetryTime(last);
      while true
        invariant Tracks() && Undoes(c)
        invariant attempt == Tally(UndoneLane(c.opId), COMP_ATTEMPT_FAILED)
        invariant retryAt == RetryTime(Final(UndoneLane(c.opId), COMP_ATTEMPT_FAILED))
        invariant forall lane :: lane != UndoLane(c.opId) ==> At(store.log, lane) == old(At(store.log, lane))
        decreases |env.beats|
      {
        ghost var lane := UndoneLane(c.opId);
        NextIsUnsettled(compStack, store.log, c);
        WaitsOutUndo(c);
        var b := Until(ForUndo(c), retryAt);
        if b.None? { return false, None; }
        attempt := attempt + 1;
        var fact := TriedUndo(c.undo, attempt, b.value.w);
        ghost var x, was := Entry(fact, b.value.w.now + b.value.w.took), store.log;
        UndoProgresses(c.undo, lane, b.value.w);
        alive := PerformUndo(c, b.value, fact);
        if !alive { return false, None; }
        UndoneLaneAfter(lane, x);
        match fact
        case CompCompleted(_, _) => return true, None;
        case CompFailed(f) => return true, Some(f);
        case CompAttemptFailed(_, _, _, until) =>
          retryAt := Some(until);
          StillNext(compStack, was, store.log, c);
      }
    }

    lemma {:induction false} WaitsOutUndo(c: Comp)
      requires Tracks() && Undoes(c)
      ensures IdlesUntil(p, store.log, Here().v.value, ForUndo(c), RetryTime(Final(UndoneLane(c.opId), COMP_ATTEMPT_FAILED)))
    {
      hide Exec, Next, NextUndo, HasStarted, Tally;
      var v, log := Here().v.value, store.log;
      var deadline := RetryTime(Final(UndoneLane(c.opId), COMP_ATTEMPT_FAILED));
      forall d: Durable, w: World, lost | d.journal == log && deadline.Some? && w.now < deadline.value
        ensures Idles(p, State(d, Some(v)), Compensate(w, lost))
      {
        CompensateTakes(p, State(d, Some(v)), c, w, lost);
      }
    }

    /** Runs the registered compensations last-in first-out; a failing one is noted and the rest still run. */
    method RunCompensations() returns (alive: bool, failures: seq<UndoFailure>)
      requires Tracks() && p.body(h).Raise? && HasStarted(store.log)
      modifies this`trace, journal, store`rows, store`log, store`inbox, env
      ensures !alive ==> Died()
      ensures alive ==> Tracks() && HasStarted(store.log) && At(store.log, RunLane) == old(At(store.log, RunLane))
      ensures alive ==> NextUndo(compStack, store.log).None? && failures == FailuresOf(compStack, store.log)
    {
      hide Exec, Next, HasStarted, Orderly, Died, First, At, NextUndo, FailuresOf, Settled, Tracks;
      alive, failures := true, [];
      var i := |compStack|;
      NoFailures(store.log);
      assert compStack[i..] == [];
      while i > 0
        invariant 0 <= i <= |compStack| && Tracks() && HasStarted(store.log)
        invariant At(store.log, RunLane) == old(At(store.log, RunLane))
        invariant AllDone(compStack[i..], store.log)
        invariant alive && failures == FailuresOf(compStack[i..], store.log)
      {
        i := i - 1;
        var c := compStack[i];
        ghost var was := store.log;
        StackIsDistinct(i);
        assert compStack[i..] == [c] + compStack[i + 1..];
        var failure := None;
        var completed := FindUndone(COMP_COMPLETED, c.opId);
        var prior := FindUndone(COMP_FAILED, c.opId);
        SettledMeans(UndoneLane(c.opId));
        if completed.None? {
          if prior.Some? {
            failure := Some(prior.value.fact.failure);
          } else {
            NextUndoAt(compStack, i, store.log);
            alive, failure := CompensateOne(c);
            if !alive { return; }
          }
        }
        OneMoreDone(compStack[i + 1..], c, was, store.log);
        failures := if failure.Some? then failures + [failure.value] else failures;
      }
      assert compStack[0..] == compStack;
      AllDoneMeansNone(compStack, store.log);
    }

    lemma {:induction false} StackIsDistinct(i: nat)
      requires Tracks() && i < |compStack|
      ensures forall c :: c in compStack[i + 1..] ==> c.opId != compStack[i].opId
    {
      hide Exec, Orderly;
    }
  }
}
