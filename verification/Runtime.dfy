/** Driving a run: the body from the top, one operation after the other, then the end of the run. */
module Runtimes {
  import opened Wrappers
  import opened Events
  import opened Retry
  import opened Engine
  import opened Lanes
  import opened Invariant
  import opened Preservation
  import opened Reachability
  import Replays
  import CrashSafety
  import opened Stores
  import opened Journals
  import opened LiveSteps
  import opened Contexts

  datatype Ending = Ended | Died | CodeChanged

  // ---- the run-level steps ----

  /** The terminal event of a body that awaits nothing more. */
  ghost function TerminalFact(p: Program, v: Driver, log: Log): Option<Fact> {
    match p.body(v.h)
    case Await(_, _) => None
    case Return(result) => Some(RunCompleted(result))
    case Raise(error) =>
      var failures := FailuresOf(v.stack, log);
      if NextUndo(v.stack, log).Some? then None
      else Some(RunFailed(error, failures == [] && v.stack != [], failures))
    case ContinueAsNew(args) => Some(RunContinued(p.nextRunId, args))
  }

  /** The record written once the terminal event is journaled. */
  ghost function TerminalRecord(p: Program, v: Driver, log: Log): Option<Record> {
    match p.body(v.h)
    case Await(_, _) => None
    case Return(result) => Some(Completed(result))
    case Raise(error) =>
      var failures := FailuresOf(v.stack, log);
      if NextUndo(v.stack, log).Some? then None
      else if failures != [] then Some(CompensationFailed(error, failures))
      else Some(Failed(error, v.stack != []))
    case ContinueAsNew(_) => Some(Continued(p.nextRunId))
  }

  /** A run-level fact the driver may append now. */
  ghost predicate MayAnnounce(p: Program, v: Driver, log: Log, fact: Fact) {
    fact == RunStarted(p.tags) || (HasStarted(log) && TerminalFact(p, v, log) == Some(fact))
  }

  lemma {:induction false} AnnouncementTakes(p: Program, s: State, fact: Fact, now: Time)
    requires s.v.Some? && MayAnnounce(p, s.v.value, s.d.journal, fact)
    requires First(At(s.d.journal, RunLane), fact.Kind()).None?
    ensures Next(p, s, if fact.RunStarted? then Start(now) else Conclude(now)) == Some(State(Append(s.d, -1, fact, now), s.v))
  {
    hide FailuresOf, NextUndo;
  }

  lemma {:induction false} RecordTakes(p: Program, s: State, fact: Fact, record: Record, now: Time)
    requires s.v.Some? && HasStarted(s.d.journal)
    requires TerminalFact(p, s.v.value, s.d.journal) == Some(fact) && TerminalRecord(p, s.v.value, s.d.journal) == Some(record)
    requires First(At(s.d.journal, RunLane), fact.Kind()).Some?
    requires fact.RunContinued? ==> s.d.successor.Some?
    ensures Next(p, s, Conclude(now)) == Some(State(s.d.(record := record), None))
  {
    hide FailuresOf, NextUndo;
  }

  lemma {:induction false} SuccessorTakes(p: Program, s: State, args: Json, now: Time)
    requires s.v.Some? && HasStarted(s.d.journal) && p.body(s.v.value.h) == ContinueAsNew(args)
    requires First(At(s.d.journal, RunLane), RUN_CONTINUED).Some? && s.d.successor.None?
    ensures Next(p, s, Conclude(now)) == Some(State(s.d.(successor := Some(args)), s.v))
  {
  }

  lemma {:induction false} NextUndoStable(stack: seq<Comp>, j: Log, k: Log)
    requires forall lane :: lane != RunLane ==> At(k, lane) == At(j, lane)
    ensures NextUndo(stack, k) == NextUndo(stack, j) && FailuresOf(stack, k) == FailuresOf(stack, j)
  {
    hide At, Settled, First;
    if stack != [] {
      assert At(k, UndoLane(stack[|stack| - 1].opId)) == At(j, UndoLane(stack[|stack| - 1].opId));
      NextUndoStable(stack[..|stack| - 1], j, k);
    }
  }

  // ---- the driver's writes ----

  /** Appends a run-level event unless one of its kind is there. */
  method Announce(ctx: WorkflowContext, fact: Fact) returns (alive: bool)
    requires ctx.Tracks() && MayAnnounce(ctx.p, ctx.Here().v.value, ctx.store.log, fact)
    modifies ctx`trace, ctx.journal, ctx.store`rows, ctx.store`log, ctx.store`inbox, ctx.env`beats
    ensures !alive ==> ctx.Died()
    ensures alive ==> ctx.Tracks() && First(At(ctx.store.log, RunLane), fact.Kind()).Some?
    ensures alive ==> forall lane :: lane != RunLane ==> At(ctx.store.log, lane) == old(At(ctx.store.log, lane))
    ensures alive && HasStarted(old(ctx.store.log)) ==> HasStarted(ctx.store.log)
  {
    hide Exec, Next, Orderly, MayAnnounce, HasStarted, WorkflowContext.Died, WorkflowContext.Sound;
    AnnouncedInRunLane(ctx.p, ctx.Here().v.value, ctx.store.log, fact);
    var existing := ctx.FindAnnounced(fact.Kind());
    if existing {
      return true;
    }
    var b := ctx.NextBeat();
    alive := b.Some?;
    if alive {
      ghost var before, d := ctx.Here(), ctx.View();
      AnnouncementTakes(ctx.p, before, fact, b.value.w.now);
      ghost var e := Event(|d.journal|, -1, fact, b.value.w.now);
      AtAppend(d.journal, e);
      ctx.SoundIsOrderly();
      OrderlyAppend(d.journal, e);
      ctx.Write(-1, fact, b.value.w.now);
      FirstSnoc(At(d.journal, RunLane), Entry(fact, e.ts), fact.Kind());
      if HasStarted(d.journal) { StartedStays(d.journal, e); }
      ghost var act := if fact.RunStarted? then Start(b.value.w.now) else Conclude(b.value.w.now);
      OneStep(ctx.p, ctx.start, ctx.trace, before, act, ctx.Here());
      ctx.trace := ctx.trace + [act];
    }
  }

  lemma {:induction false} AnnouncedInRunLane(p: Program, v: Driver, log: Log, fact: Fact)
    requires MayAnnounce(p, v, log, fact)
    ensures LaneFor(fact.Kind(), -1) == RunLane
    ensures LaneOf(Event(|log|, -1, fact, 0.0)) == RunLane
    ensures forall ts :: LaneOf(Event(|log|, -1, fact, ts)) == RunLane
  {
  }

  /** Writes the run's outcome; the driver is done. */
  method Settle(ctx: WorkflowContext, ghost fact: Fact, record: Record) returns (alive: bool)
    requires ctx.Tracks() && HasStarted(ctx.store.log)
    requires TerminalFact(ctx.p, ctx.Here().v.value, ctx.store.log) == Some(fact)
    requires TerminalRecord(ctx.p, ctx.Here().v.value, ctx.store.log) == Some(record)
    requires First(At(ctx.store.log, RunLane), fact.Kind()).Some?
    requires fact.RunContinued? ==> ctx.store.successor.Some?
    modifies ctx`trace, ctx.store`record, ctx.store`inbox, ctx.env`beats
    ensures ctx.Died()
    ensures alive ==> ctx.store.record == record
  {
    hide Exec, Next, Orderly, TerminalFact, TerminalRecord, HasStarted, First, At;
    var b := ctx.NextBeat();
    alive := b.Some?;
    if alive {
      ghost var before := ctx.Here();
      RecordTakes(ctx.p, before, fact, record, b.value.w.now);
      ctx.store.record := record;
      OneStep(ctx.p, ctx.start, ctx.trace, before, Conclude(b.value.w.now), State(ctx.View(), None));
      ctx.trace := ctx.trace + [Conclude(b.value.w.now)];
    }
  }

  /** Creates the successor of a continuing run unless it exists. */
  method CreateSuccessor(ctx: WorkflowContext, args: Json) returns (alive: bool)
    requires ctx.Tracks() && HasStarted(ctx.store.log) && ctx.p.body(ctx.h) == ContinueAsNew(args)
    requires First(At(ctx.store.log, RunLane), RUN_CONTINUED).Some?
    modifies ctx`trace, ctx.store`successor, ctx.store`inbox, ctx.env`beats
    ensures !alive ==> ctx.Died()
    ensures alive ==> ctx.Tracks() && ctx.store.successor.Some?
  {
    hide Exec, Next, Orderly, HasStarted, First, At;
    if ctx.store.successor.Some? {
      return true;
    }
    var b := ctx.NextBeat();
    alive := b.Some?;
    if alive {
      ghost var before := ctx.Here();
      SuccessorTakes(ctx.p, before, args, b.value.w.now);
      ctx.store.successor := Some(args);
      OneStep(ctx.p, ctx.start, ctx.trace, before, Conclude(b.value.w.now), ctx.Here());
      ctx.trace := ctx.trace + [Conclude(b.value.w.now)];
    }
  }

  /** The end of a run, from the move its body ended with. */
  method Finish(ctx: WorkflowContext, move: Move) returns (alive: bool)
    requires ctx.Tracks() && HasStarted(ctx.store.log) && move == ctx.p.body(ctx.h) && !move.Await?
    modifies ctx`trace, ctx.journal, ctx.store, ctx.env
    ensures ctx.Died()
    ensures alive ==> !ctx.store.record.Running?
  {
    hide Exec, Next, Orderly, HasStarted, First, At, NextUndo, FailuresOf, MayAnnounce, WorkflowContext.Tracks,
        WorkflowContext.Died;
    match move
    case Return(result) =>
      var fact := RunCompleted(result);
      assert MayAnnounce(ctx.p, ctx.Here().v.value, ctx.store.log, fact) by {
        Announceable(ctx.p, ctx.Here().v.value, ctx.store.log, fact);
      }
      alive := Announce(ctx, fact);
      if alive {
        alive := Settle(ctx, fact, Completed(result));
      }
    case Raise(error) =>
      var failures;
      alive, failures := ctx.RunCompensations();
      if alive {
        var fact := RunFailed(error, failures == [] && ctx.compStack != [], failures);
        Announceable(ctx.p, ctx.Here().v.value, ctx.store.log, fact);
        ghost var was := ctx.store.log;
        alive := Announce(ctx, fact);
        if alive {
          NextUndoStable(ctx.compStack, was, ctx.store.log);
          var record := if failures != [] then CompensationFailed(error, failures) else Failed(error, ctx.compStack != []);
          alive := Settle(ctx, fact, record);
        }
      }
    case ContinueAsNew(args) =>
      ctx.OwnIds();
      var fact := RunContinued(ctx.nextRunId, args);
      Announceable(ctx.p, ctx.Here().v.value, ctx.store.log, fact);
      alive := Announce(ctx, fact);
      if alive {
        alive := CreateSuccessor(ctx, args);
        if alive {
          alive := Settle(ctx, fact, Continued(ctx.nextRunId));
        }
      }
  }

  lemma {:induction false} Announceable(p: Program, v: Driver, log: Log, fact: Fact)
    requires HasStarted(log) && TerminalFact(p, v, log) == Some(fact)
    ensures MayAnnounce(p, v, log, fact)
  {
  }

  // ---- the drive ----

  /** A recorded operation lies within the log's op ids. */
  lemma {:induction false} RecordedIsLogged(op: Op, id: nat, log: Log)
    requires Recorded(op, id, At(log, OpLane(id))).Some?
    ensures id <= MaxOpId(log)
  {
    if At(log, OpLane(id)) == [] {
      NothingRecorded(op, id);
    }
    LaneIsBounded(log, id);
  }

  /** The journal of an unchanged program's own run never diverges. */
  lemma {:induction false} DivergedMeansForeign(p: Program, start: State, trace: seq<Act>, s: State, op: Op)
    requires Exec(p, start, trace) == Some(s) && s.v.Some? && p.body(s.v.value.h).Ops() == [op]
    requires Diverges(op, At(s.d.journal, OpLane(|s.v.value.h|)))
    ensures !Reachable(p, start)
  {
    hide Exec, Reachable, Diverges;
    if Reachable(p, start) {
      StaysReachable(p, start, trace, s);
      assert |s.v.value.h| + 0 == |s.v.value.h|;
      CrashSafety.NeverDiverges(p, s, 0);
    }
  }

  ghost predicate Driven(p: Program, before: Durable, trace: seq<Act>, after: Durable) {
    Exec(p, State(before, None), trace) == Some(State(after, None))
  }

  /** Drives a run until it ends, its process dies, or changed code is found out. Whatever happens, the
      store holds exactly what some run of the transition system leaves there. */
  method Drive(p: Program, store: RunStore, env: Outside) returns (end: Ending, ghost trace: seq<Act>)
    requires store.Valid() && Orderly(store.log) && Sequential(p)
    modifies store, env
    ensures store.Valid() && Orderly(store.log)
    ensures Driven(p, old(Stored(store, env)), trace, Stored(store, env))
    ensures end.Ended? ==> !store.record.Running?
    ensures end.CodeChanged? ==> !Reachable(p, State(old(Stored(store, env)), None))
  {
    hide Exec, Next, Orderly, HasStarted, First, At, NextUndo, FailuresOf, Recorded, CompOf, Diverges, MayAnnounce,
        Reachable;
    var events := store.LoadEvents();
    var journal := new Journal(store, events);
    var ctx := new WorkflowContext(p.runId, p.nextRunId, store, journal, env, p);
    assert MayAnnounce(p, ctx.Here().v.value, store.log, RunStarted(p.tags)) by {
      StartIsAnnounceable(p, ctx.Here().v.value, store.log);
    }
    var alive := Announce(ctx, RunStarted(p.tags));
    if !alive {
      return Died, ctx.trace;
    }
    StartedMeans(store.log);
    ctx.Pin();
    var received: seq<Outcome> := [];
    var move := p.body(received);
    while move.Await?
      invariant ctx.Tracks() && HasStarted(store.log) && ctx.opCounter == |ctx.h|
      invariant received == ctx.h && move == p.body(received)
      invariant fresh(ctx) && fresh(ctx.journal) && ctx.store == store && ctx.env == env && ctx.p == p
      invariant ctx.start == State(old(Stored(store, env)), None)
      decreases |env.beats|, MaxOpId(store.log) + 1 - |received|
    {
      OneOperation(p, received, move);
      ghost var s, was, beats := ctx.Here(), ctx.trace, env.beats;
      var r := ctx.Request(move.head);
      match r
      case Crashed =>
        return Died, ctx.trace;
      case Diverged =>
        DivergedMeansForeign(p, ctx.start, was, s, move.head);
        return CodeChanged, ctx.trace;
      case Done(outcome) =>
        if |env.beats| == |beats| {
          RecordedIsLogged(move.head, |received|, store.log);
        }
        received := received + [outcome];
        move := p.body(received);
    }
    alive := Finish(ctx, move);
    end, trace := if alive then Ended else Died, ctx.trace;
  }

  lemma {:induction false} StartIsAnnounceable(p: Program, v: Driver, log: Log)
    ensures MayAnnounce(p, v, log, RunStarted(p.tags))
  {
  }

  lemma {:induction false} StartedMeans(log: Log)
    ensures HasStarted(log) <==> First(At(log, RunLane), RUN_STARTED).Some?
  {
  }

  lemma {:induction false} OneOperation(p: Program, h: seq<Outcome>, move: Move)
    requires Sequential(p) && move == p.body(h) && move.Await?
    ensures p.body(h).Ops() == [move.head]
  {
    assert |p.body(h).Ops()| <= 1;
  }

  /** A drive from a reachable state ends in one, so all that holds of those holds of the store. */
  lemma {:induction false} DrivenIsReachable(p: Program, before: Durable, trace: seq<Act>, after: Durable)
    requires Reachable(p, State(before, None)) && Driven(p, before, trace, after)
    ensures Reachable(p, State(after, None))
    ensures CrashSafety.RecordMatches(after.record, p.body(Replays.Replay(p.body, after.journal, [])), after.successor)
  {
    hide Exec, Reachable;
    StaysReachable(p, State(before, None), trace, State(after, None));
    CrashSafety.OutcomeIsTheBodys(p, State(after, None));
  }
}

/** Rewinding a run at rest, write by write: history, inbox, record. */
module Resetting {
  import opened Wrappers
  import opened Events
  import opened Engine
  import opened Rewind
  import opened Stores

  function Gone(journal: Log, toOp: nat): Log {
    if journal == [] then []
    else if Stale(journal[0], toOp) then [journal[0]] + Gone(journal[1..], toOp)
    else Gone(journal[1..], toOp)
  }

  lemma {:induction false} SplitAfter(journal: Log, toOp: nat, e: Event)
    ensures Kept(journal + [e], toOp) == if Stale(e, toOp) then Kept(journal, toOp) else Kept(journal, toOp) + [e]
    ensures Gone(journal + [e], toOp) == if Stale(e, toOp) then Gone(journal, toOp) + [e] else Gone(journal, toOp)
  {
    if journal == [] {
      assert journal + [e] == [e];
    } else {
      assert (journal + [e])[0] == journal[0] && (journal + [e])[1..] == journal[1..] + [e];
      SplitAfter(journal[1..], toOp, e);
    }
  }

  lemma {:induction false} GoneMembers(journal: Log, toOp: nat)
    ensures forall e :: e in Gone(journal, toOp) <==> e in journal && Stale(e, toOp)
    ensures |Gone(journal, toOp)| == Dropped(journal, toOp)
  {
    if journal != [] {
      GoneMembers(journal[1..], toOp);
      assert journal == [journal[0]] + journal[1..];
    }
  }

  lemma {:induction false} RenumberedAfter(kept: Log, e: Event, from: nat)
    ensures Renumbered(kept + [e], from) == Renumbered(kept, from) + [e.(seqNo := from + |kept|)]
  {
    if kept == [] {
      assert kept + [e] == [e];
    } else {
      assert (kept + [e])[0] == kept[0] && (kept + [e])[1..] == kept[1..] + [e];
      RenumberedAfter(kept[1..], e, from + 1);
    }
  }

  lemma {:induction false} NothingSplit(toOp: nat)
    ensures Renumbered(Kept([], toOp), 0) == [] && Gone([], toOp) == []
  {
  }

  method FirstFailedOp(events: Log) returns (op: nat)
    ensures op == FirstFailure(events)
  {
    var i := 0;
    while i < |events|
      invariant 0 <= i <= |events| && FirstFailure(events) == FirstFailure(events[i..])
    {
      if events[i].fact.Kind() in FAILURE_KINDS && events[i].opId >= 0 {
        return events[i].opId;
      }
      i := i + 1;
    }
    op := 0;
  }

  /** Sorts a history into the events a rewind keeps, renumbered, and those it drops. */
  method Split(events: Log, toOp: nat) returns (kept: Log, dropped: Log)
    ensures kept == Renumbered(Kept(events, toOp), 0) && dropped == Gone(events, toOp)
  {
    hide Kept, Gone, Renumbered, Stale;
    kept, dropped := [], [];
    var i := 0;
    NothingSplit(toOp);
    while i < |events|
      invariant 0 <= i <= |events|
      invariant kept == Renumbered(Kept(events[..i], toOp), 0) && dropped == Gone(events[..i], toOp)
    {
      var e := events[i];
      SplitAfter(events[..i], toOp, e);
      assert events[..i + 1] == events[..i] + [e];
      if Stale(e, toOp) {
        dropped := dropped + [e];
      } else {
        RenumberedAfter(Kept(events[..i], toOp), e, 0);
        kept := kept + [e.(seqNo := |kept|)];
      }
      i := i + 1;
    }
    assert events[..i] == events;
  }

  method AnyCompensated(dropped: Log) returns (r: bool)
    ensures r == exists e :: e in dropped && e.fact.CompCompleted?
  {
    var i := 0;
    while i < |dropped|
      invariant 0 <= i <= |dropped|
      invariant forall e :: e in dropped[..i] ==> !e.fact.CompCompleted?
    {
      if dropped[i].fact.CompCompleted? {
        return true;
      }
      i := i + 1;
    }
    assert dropped[..i] == dropped;
    r := false;
  }

  /** Returns the signals the dropped events had consumed to the inbox. */
  method GiveBack(store: RunStore, dropped: Log)
    modifies store`inbox
    ensures store.inbox == GivenBack(old(store.inbox), ConsumedSeqs(dropped))
  {
    hide ConsumedSeqs;
    var i := 0;
    GivesNothing(store.inbox);
    while i < |dropped|
      invariant 0 <= i <= |dropped|
      invariant store.inbox == GivenBack(old(store.inbox), ConsumedSeqs(dropped[..i]))
    {
      var e := dropped[i];
      assert dropped[..i + 1] == dropped[..i] + [e];
      ConsumedSeqsAppend(dropped[..i], e);
      if e.fact.EventConsumed? {
        store.MarkSignal(e.fact.signalSeq, false);
      }
      i := i + 1;
    }
    assert dropped[..i] == dropped;
  }

  lemma {:induction false} GivesNothing(inbox: seq<Signal>)
    ensures GivenBack(inbox, ConsumedSeqs([])) == inbox
  {
  }

  lemma {:induction false} GoneIsReleased(journal: Log, toOp: nat)
    ensures ConsumedSeqs(Gone(journal, toOp)) == Released(journal, toOp)
    ensures (exists e :: e in Gone(journal, toOp) && e.fact.CompCompleted?) == AlreadyCompensated(journal)
    ensures |Gone(journal, toOp)| == Dropped(journal, toOp)
  {
    hide Stale, Gone;
    GoneMembers(journal, toOp);
    CompletionsAreStale(toOp);
  }

  lemma {:induction false} CompletionsAreStale(toOp: nat)
    ensures forall e: Event :: e.fact.CompCompleted? ==> Stale(e, toOp)
  {
  }

  /** The writes of a rewind: the kept events, the audit marker, the inbox, the record. */
  method Rewrite(store: RunStore, events: Log, toOp: nat, now: Time)
    requires store.Valid() && store.log == events
    modifies store`rows, store`log, store`inbox, store`record
    ensures store.Valid() && store.log == Rewound(events, toOp, now) && store.record == Running
    ensures store.inbox == GivenBack(old(store.inbox), Released(events, toOp))
  {
    hide Gone, Kept, Released, ConsumedSeqs, Dropped, Renumbered;
    var kept, dropped := Split(events, toOp);
    GoneIsReleased(events, toOp);
    store.ReplaceEvents(kept);
    var _ := store.AppendEvent(Event(|kept|, -1, RunReset(toOp, |dropped|), now));
    GiveBack(store, dropped);
    store.record := Running;
  }

  /** Rewinds a run to just before an operation, or refuses and changes nothing. */
  method ResetTo(store: RunStore, toOp: Option<nat>, force: bool, now: Time, ghost calls: seq<Call>,
      ghost answers: seq<Answer>) returns (ok: bool)
    requires store.Valid()
    modifies store
    ensures store.Valid()
    ensures var before := Durable(old(store.log), old(store.inbox), old(store.record),
                         old(store.successor), old(store.tags), calls, answers);
            var after := Durable(store.log, store.inbox, store.record, store.successor, store.tags, calls, answers);
            match ResetRun(before, toOp, force, now)
            case None => !ok && after == before
            case Some(d) => ok && after == d
  {
    hide Gone, Released, AlreadyCompensated, Rewound, FirstFailure, GivenBack;
    if store.record.Continued? {
      return false;
    }
    var events := store.LoadEvents();
    var target;
    if toOp.Some? {
      target := toOp.value;
    } else {
      target := FirstFailedOp(events);
    }
    var _, dropped := Split(events, target);
    GoneIsReleased(events, target);
    var compensated := AnyCompensated(dropped);
    if !force && compensated {
      return false;
    }
    Rewrite(store, events, target, now);
    ok := true;
  }
}
