/** What the outside world sees of a run: how often step and compensation functions are invoked, when,
    and what a second drive of a finished run does. */
module Effects {
  import opened Wrappers
  import opened Events
  import opened Retry
  import opened Engine
  import opened Lanes
  import opened Paths
  import opened Invariant
  import opened Preservation
  import opened Endings
  import opened Reachability
  import opened Replays
  import opened CrashSafety

  /** How often the function of operation `id` (or its compensation) was invoked. */
  function CallsTo(calls: seq<Call>, id: nat, undo: bool): nat {
    if calls == [] then 0
    else
      var last := calls[|calls| - 1];
      CallsTo(calls[..|calls| - 1], id, undo) + if last.opId == id && last.undo == undo then 1 else 0
  }

  /** How many attempts, failed or final, the journal holds for it. */
  function Attempts(journal: Log, id: nat, undo: bool): nat {
    if undo then
      var lane := At(journal, UndoLane(id));
      Tally(lane, COMP_ATTEMPT_FAILED) + Tally(lane, COMP_COMPLETED) + Tally(lane, COMP_FAILED)
    else
      var lane := At(journal, OpLane(id));
      Tally(lane, STEP_ATTEMPT_FAILED) + Tally(lane, STEP_COMPLETED) + Tally(lane, STEP_FAILED)
  }

  predicate IsLost(act: Act) {
    (act.Live? || act.Compensate?) && act.lost
  }

  /** Crashes that fell between an effect and the append of its result. */
  function LostActs(acts: seq<Act>): nat {
    if acts == [] then 0 else (if IsLost(acts[0]) then 1 else 0) + LostActs(acts[1..])
  }

  lemma {:induction false} CallsSnoc(calls: seq<Call>, c: Call, id: nat, undo: bool)
    ensures CallsTo(calls + [c], id, undo) == CallsTo(calls, id, undo) + if c.opId == id && c.undo == undo then 1 else 0
  {
    assert (calls + [c])[..|calls|] == calls;
  }

  predicate IsTry(fact: Fact, undo: bool) {
    if undo then fact.Kind() in COMP_OUTCOME_KINDS
    else fact.Kind() in {STEP_ATTEMPT_FAILED, STEP_COMPLETED, STEP_FAILED}
  }

  lemma {:induction false} AttemptsAppend(journal: Log, e: Event, id: nat, undo: bool)
    requires e.opId >= 0 || !(IsTry(e.fact, true) || IsTry(e.fact, false))
    ensures Attempts(journal + [e], id, undo) ==
            Attempts(journal, id, undo) + if e.opId == id && IsTry(e.fact, undo) then 1 else 0
  {
    AtAppend(journal, e);
    var lane, x := At(journal, if undo then UndoLane(id) else OpLane(id)), Entry(e.fact, e.ts);
    if undo {
      TallySnoc(lane, x, COMP_ATTEMPT_FAILED);
      TallySnoc(lane, x, COMP_COMPLETED);
      TallySnoc(lane, x, COMP_FAILED);
    } else {
      TallySnoc(lane, x, STEP_ATTEMPT_FAILED);
      TallySnoc(lane, x, STEP_COMPLETED);
      TallySnoc(lane, x, STEP_FAILED);
    }
  }

  /** An operation's live append is an attempt exactly when it invoked the step. */
  lemma {:induction false} TryMeansCall(op: Op, id: nat, runId: string, lane: seq<Entry>, used: set<nat>,
      inbox: seq<Signal>, w: World, fact: Fact)
    requires Some(fact) ==
      if Definition(lane).None? then Some(Opening(op, id, runId, w)) else Progress(op, lane, used, inbox, w)
    ensures !IsTry(fact, true)
    ensures Invocation(op, id, lane, w) ==
                if IsTry(fact, false) then [Call(id, false, Tally(lane, STEP_ATTEMPT_FAILED) + 1, w.now, w.reply)]
                else []
    ensures op.Tag? ==> !IsTry(fact, false)
  {
  }

  lemma {:induction false} UndoTryMeansCall(undo: Undo, lane: seq<Entry>, w: World, fact: Fact)
    requires UndoProgress(undo, lane, w) == Some(fact)
    ensures IsTry(fact, true) && !IsTry(fact, false)
  {
  }

  /** A live act adds one call for the attempt it journals, or for the attempt it loses. */
  lemma {:induction false} LiveCounts(p: Program, s: State, op: Op, at: nat, w: World, lost: bool, s': State,
      id: nat, undo: bool)
    requires LiveStep(p, s, op, at, w, lost) == Some(s')
    ensures CallsTo(s'.d.calls, id, undo) - CallsTo(s.d.calls, id, undo) ==
            Attempts(s'.d.journal, id, undo) - Attempts(s.d.journal, id, undo) + LostHere(s, s', id, undo)
    ensures 0 <= LostHere(s, s', id, undo) <= if lost then 1 else 0
  {
    hide Recorded, Opening, Progress, Invocation, Definition, IsTry, Attempts, Expected;
    var lane := At(s.d.journal, OpLane(at));
    var fact :=
      if Definition(lane).None? then Some(Opening(op, at, p.runId, w))
      else Progress(op, lane, ConsumedSeqs(s.d.journal), s.d.inbox, w);
    if !Diverges(op, lane) && fact.Some? {
      TryMeansCall(op, at, p.runId, lane, ConsumedSeqs(s.d.journal), s.d.inbox, w, fact.value);
      var c := Call(at, false, Tally(lane, STEP_ATTEMPT_FAILED) + 1, w.now, w.reply);
      CallsSnoc(s.d.calls, c, id, undo);
      assert s.d.calls + [] == s.d.calls;
      AttemptsAppend(s.d.journal, Event(|s.d.journal|, at, fact.value, w.now + w.took), id, undo);
    }
  }

  /** The calls between two states that left no attempt in the journal. */
  function LostHere(s: State, s': State, id: nat, undo: bool): int {
    if s'.d.journal == s.d.journal then CallsTo(s'.d.calls, id, undo) - CallsTo(s.d.calls, id, undo) else 0
  }

  lemma {:induction false} CompensateCounts(s: State, w: World, lost: bool, s': State, id: nat, undo: bool)
    requires s.v.Some? && CompensateStep(s, w, lost) == Some(s')
    ensures CallsTo(s'.d.calls, id, undo) - CallsTo(s.d.calls, id, undo) ==
            Attempts(s'.d.journal, id, undo) - Attempts(s.d.journal, id, undo) + LostHere(s, s', id, undo)
    ensures 0 <= LostHere(s, s', id, undo) <= if lost then 1 else 0
  {
    hide UndoProgress, IsTry, Attempts, NextUndo;
    var c := NextUndo(s.v.value.stack, s.d.journal).value;
    var lane := At(s.d.journal, UndoLane(c.opId));
    var fact := UndoProgress(c.undo, lane, w);
    if fact.Some? {
      UndoTryMeansCall(c.undo, lane, w, fact.value);
      CallsSnoc(s.d.calls, Call(c.opId, true, Tally(lane, COMP_ATTEMPT_FAILED) + 1, w.now, w.reply), id, undo);
      AttemptsAppend(s.d.journal, Event(|s.d.journal|, c.opId, fact.value, w.now + w.took), id, undo);
    }
  }

  lemma {:induction false} QuietCounts(p: Program, s: State, act: Act, s': State, id: nat, undo: bool)
    requires Next(p, s, act) == Some(s') && !act.Live? && !act.Compensate?
    ensures s'.d.calls == s.d.calls && Attempts(s'.d.journal, id, undo) == Attempts(s.d.journal, id, undo)
  {
    hide Attempts, Recorded, FailuresOf, NextUndo, First, HasStarted;
    if s'.d.journal != s.d.journal {
      var e := s'.d.journal[|s.d.journal|];
      assert s'.d.journal == s.d.journal + [e];
      AttemptsAppend(s.d.journal, e, id, undo);
    }
  }

  /** At least once, and more often only by a crash: every journaled attempt was invoked, and each
      further invocation was lost to a crash between the effect and its append. */
  lemma {:induction false} InvocationsMatchAttempts(p: Program, s: State, acts: seq<Act>, s': State, id: nat,
      undo: bool)
    requires Exec(p, s, acts) == Some(s')
    ensures Attempts(s'.d.journal, id, undo) - Attempts(s.d.journal, id, undo)
            <= CallsTo(s'.d.calls, id, undo) - CallsTo(s.d.calls, id, undo)
            <= Attempts(s'.d.journal, id, undo) - Attempts(s.d.journal, id, undo) + LostActs(acts)
    decreases |acts|
  {
    hide Attempts, CallsTo, CompensateStep, LiveStep, LostHere;
    if acts != [] {
      var mid, act := Next(p, s, acts[0]).value, acts[0];
      match act {
        case Live(index, w, lost) =>
          LiveCounts(p, s, p.body(s.v.value.h).Ops()[index], |s.v.value.h| + index, w, lost, mid, id, undo);
        case Compensate(w, lost) =>
          CompensateCounts(s, w, lost, mid, id, undo);
        case _ =>
          QuietCounts(p, s, act, mid, id, undo);
      }
      InvocationsMatchAttempts(p, mid, acts[1..], s', id, undo);
    }
  }

  // ---- recorded work is never done again ----

  /** A live action invokes nothing but its own operation's step. */
  lemma {:induction false} LiveCallsItself(p: Program, s: State, op: Op, at: nat, w: World, lost: bool, s': State,
      id: nat)
    requires LiveStep(p, s, op, at, w, lost) == Some(s') && at != id
    ensures CallsTo(s'.d.calls, id, false) == CallsTo(s.d.calls, id, false)
  {
    hide Recorded, Diverges, Opening, Progress, Definition, CallsTo, Tally, At, BackingOff, Final;
    var made := Invocation(op, at, At(s.d.journal, OpLane(at)), w);
    if made == [] {
      assert s.d.calls + made == s.d.calls;
    } else {
      CallsSnoc(s.d.calls, made[0], id, false);
      assert made == [made[0]];
    }
  }

  lemma {:induction false} UndoCallsNoStep(s: State, w: World, lost: bool, s': State, id: nat)
    requires s.v.Some? && CompensateStep(s, w, lost) == Some(s')
    ensures CallsTo(s'.d.calls, id, false) == CallsTo(s.d.calls, id, false)
  {
    hide UndoProgress, NextUndo, CallsTo, Tally, At;
    if s'.d.calls != s.d.calls {
      var c := s'.d.calls[|s.d.calls|];
      CallsSnoc(s.d.calls, c, id, false);
      assert s'.d.calls == s.d.calls + [c];
    }
  }

  /** Does the lane hold the outcome of a step? */
  predicate Done(lane: seq<Entry>) {
    First(lane, STEP_COMPLETED).Some? || First(lane, STEP_FAILED).Some?
  }

  lemma {:induction false} DoneForOneMore(p: Program, s: State, act: Act, s': State, id: nat)
    requires Next(p, s, act) == Some(s') && Done(At(s.d.journal, OpLane(id)))
    ensures Done(At(s'.d.journal, OpLane(id)))
  {
    hide Next;
    StepOnlyGrows(p, s, act, s');
    if s'.d.journal != s.d.journal {
      var e := s'.d.journal[|s.d.journal|];
      assert s'.d.journal == s.d.journal + [e];
      AtAppend(s.d.journal, e);
      FirstSnoc(At(s.d.journal, OpLane(id)), Entry(e.fact, e.ts), STEP_COMPLETED);
      FirstSnoc(At(s.d.journal, OpLane(id)), Entry(e.fact, e.ts), STEP_FAILED);
    }
  }

  /** Where a step's outcome is journaled, whatever the body asks for there invokes nothing. */
  lemma {:induction false} DoneInvokesNothing(p: Program, s: State, op: Op, at: nat, w: World, lost: bool, s': State)
    requires LiveStep(p, s, op, at, w, lost) == Some(s') && Done(At(s.d.journal, OpLane(at)))
    ensures s'.d.calls == s.d.calls
  {
    hide Diverges, Opening, Progress, Definition, At, First, Tally;
    assert s.d.calls + [] == s.d.calls;
  }

  lemma {:induction false} DoneStepIsQuiet(p: Program, s: State, act: Act, s': State, id: nat)
    requires Next(p, s, act) == Some(s') && Done(At(s.d.journal, OpLane(id)))
    ensures CallsTo(s'.d.calls, id, false) == CallsTo(s.d.calls, id, false)
  {
    hide Done, Recorded, Diverges, CallsTo, HasStarted, CompensateStep, ConcludeStep, At, LiveStep;
    match act {
      case Live(index, w, lost) =>
        var op, at := p.body(s.v.value.h).Ops()[index], |s.v.value.h| + index;
        if at == id {
          DoneInvokesNothing(p, s, op, at, w, lost, s');
        } else {
          LiveCallsItself(p, s, op, at, w, lost, s', id);
        }
      case Compensate(w, lost) => UndoCallsNoStep(s, w, lost, s', id);
      case _ => QuietCounts(p, s, act, s', id, false);
    }
  }

  /** Once a step's outcome is journaled, no crash schedule invokes it again: from any state, also while
      other operations of its gather are still under way. */
  lemma {:induction false} RecordedIsNeverInvoked(p: Program, s: State, acts: seq<Act>, s': State, id: nat)
    requires Exec(p, s, acts) == Some(s') && Done(At(s.d.journal, OpLane(id)))
    ensures CallsTo(s'.d.calls, id, false) == CallsTo(s.d.calls, id, false)
    decreases |acts|
  {
    hide Next, CallsTo, Done;
    if acts != [] {
      var mid := Next(p, s, acts[0]).value;
      DoneStepIsQuiet(p, s, acts[0], mid, id);
      DoneForOneMore(p, s, acts[0], mid, id);
      RecordedIsNeverInvoked(p, mid, acts[1..], s', id);
    }
  }

  lemma {:induction false} SettledStays(journal: Log, e: Event, id: nat)
    requires Settled(At(journal, UndoLane(id)))
    ensures Settled(At(journal + [e], UndoLane(id)))
  {
    AtAppend(journal, e);
    var lane := At(journal, UndoLane(id));
    if LaneOf(e) == UndoLane(id) {
      FirstSnoc(lane, Entry(e.fact, e.ts), COMP_COMPLETED);
      FirstSnoc(lane, Entry(e.fact, e.ts), COMP_FAILED);
    }
  }

  lemma {:induction false} SettledStepIsQuiet(p: Program, s: State, act: Act, s': State, id: nat)
    requires Next(p, s, act) == Some(s') && Settled(At(s.d.journal, UndoLane(id)))
    ensures CallsTo(s'.d.calls, id, true) == CallsTo(s.d.calls, id, true)
    ensures Settled(At(s'.d.journal, UndoLane(id)))
  {
    hide Settled, Recorded, Diverges, Opening, Progress, Definition, UndoProgress, HasStarted, FailuresOf, First,
        CallsTo, At, Tally, AllRecorded;
    SettledForOneMore(p, s, act, s', id);
    if act.Live? {
      var at := |s.v.value.h| + act.index;
      LiveCallIsNoUndo(p.body(s.v.value.h).Ops()[act.index], at, s.d, act.w, id);
    } else if act.Compensate? {
      var c := NextUndo(s.v.value.stack, s.d.journal).value;
      var call := Call(c.opId, true, Tally(At(s.d.journal, UndoLane(c.opId)), COMP_ATTEMPT_FAILED) + 1, act.w.now, act.w.reply);
      CallsSnoc(s.d.calls, call, id, true);
    }
  }

  lemma {:induction false} SettledForOneMore(p: Program, s: State, act: Act, s': State, id: nat)
    requires Next(p, s, act) == Some(s') && Settled(At(s.d.journal, UndoLane(id)))
    ensures Settled(At(s'.d.journal, UndoLane(id)))
  {
    hide Next, Settled;
    StepOnlyGrows(p, s, act, s');
    if s'.d.journal != s.d.journal {
      assert s'.d.journal == s.d.journal + [s'.d.journal[|s.d.journal|]];
      SettledStays(s.d.journal, s'.d.journal[|s.d.journal|], id);
    }
  }

  lemma {:induction false} LiveCallIsNoUndo(op: Op, at: nat, d: Durable, w: World, id: nat)
    ensures CallsTo(Touch(op, at, d, w).calls, id, true) == CallsTo(d.calls, id, true)
  {
    var made := Invocation(op, at, At(d.journal, OpLane(at)), w);
    if made == [] {
      assert d.calls + made == d.calls;
    } else {
      CallsSnoc(d.calls, made[0], id, true);
      assert made == [made[0]];
    }
  }

  /** Once a compensation's outcome is recorded, no crash schedule invokes it again. */
  lemma {:induction false} SettledIsNeverInvoked(p: Program, s: State, acts: seq<Act>, s': State, id: nat)
    requires Exec(p, s, acts) == Some(s') && Settled(At(s.d.journal, UndoLane(id)))
    ensures CallsTo(s'.d.calls, id, true) == CallsTo(s.d.calls, id, true)
    decreases |acts|
  {
    hide Next, CallsTo, Settled;
    if acts != [] {
      var mid := Next(p, s, acts[0]).value;
      SettledStepIsQuiet(p, s, acts[0], mid, id);
      SettledIsNeverInvoked(p, mid, acts[1..], s', id);
    }
  }

  // ---- durable deadlines ----

  /** From the `from`-th call on, no retry of a step or a compensation starts before the retry time its
      predecessor journaled. */
  ghost predicate NoEarlyRetry(d: Durable, from: nat) {
    forall i :: from <= i < |d.calls| && d.calls[i].attempt > 1 ==> Allowed(d.journal, d.calls[i])
  }

  function LaneOfCall(c: Call): Lane {
    if c.undo then UndoLane(c.opId) else OpLane(c.opId)
  }

  ghost predicate Allowed(journal: Log, c: Call) {
    exists x :: x in At(journal, LaneOfCall(c)) && FailedBefore(x.fact, c)
  }

  /** The failed attempt before the call, whose backoff was over when the call was made. */
  predicate FailedBefore(fact: Fact, c: Call) {
    if c.undo then fact.CompAttemptFailed? && fact.attempt == c.attempt - 1 && fact.retryAt <= c.startedAt
    else fact.StepAttemptFailed? && fact.attempt == c.attempt - 1 && fact.retryAt <= c.startedAt
  }

  lemma {:induction false} AllowedStays(journal: Log, e: Event, c: Call)
    requires Allowed(journal, c)
    ensures Allowed(journal + [e], c)
  {
    hide At, LaneOf, FailedBefore;
    AtAppend(journal, e);
    var x :| x in At(journal, LaneOfCall(c)) && FailedBefore(x.fact, c);
    assert x in At(journal + [e], LaneOfCall(c));
  }

  /** A live invocation of an unfinished step is the next attempt and waits its backoff out. */
  lemma {:induction false} LiveCallIsAllowed(op: Op, id: nat, journal: Log, w: World, c: Call)
    requires Shape(op, At(journal, OpLane(id))) && Recorded(op, id, At(journal, OpLane(id))).None?
    requires c in Invocation(op, id, At(journal, OpLane(id)), w) && c.attempt > 1
    ensures Allowed(journal, c)
  {
    var lane := At(journal, OpLane(id));
    hide Recorded, At;
    UnfinishedStep(op, id, lane);
    var x := lane[|lane| - 1];
    assert x == lane[1..][|lane| - 2];
    assert TryAt(lane[1..], |lane| - 2, op.name, op.policy);
    assert x in lane && FailedBefore(x.fact, c);
  }

  /** So is a live invocation of an unsettled compensation. */
  lemma {:induction false} UndoCallIsAllowed(undo: Undo, id: nat, journal: Log, w: World, c: Call)
    requires UndoShape(undo, At(journal, UndoLane(id))) && !Settled(At(journal, UndoLane(id)))
    requires UndoProgress(undo, At(journal, UndoLane(id)), w).Some?
    requires c.opId == id && c.undo && c.attempt == Tally(At(journal, UndoLane(id)), COMP_ATTEMPT_FAILED) + 1 > 1
    requires c.startedAt == w.now
    ensures Allowed(journal, c)
  {
    var lane := At(journal, UndoLane(id));
    hide At, Settled;
    UnsettledUndo(undo, lane);
    var x := lane[|lane| - 1];
    assert TryAt(lane, |lane| - 1, undo.name, undo.policy);
    assert x in lane && FailedBefore(x.fact, c);
  }

  /** The calls an act makes are the next attempts of what it works on, after their backoffs. */
  lemma {:induction false} NewCallIsAllowed(p: Program, s: State, F: seq<Outcome>, act: Act, s': State)
    requires InvAt(p, s, F) && Next(p, s, act) == Some(s')
    ensures s.d.calls <= s'.d.calls
    ensures forall i :: |s.d.calls| <= i < |s'.d.calls| && s'.d.calls[i].attempt > 1 ==> Allowed(s.d.journal, s'.d.calls[i])
  {
    hide Allowed, Recorded, Shape, Diverges, Opening, Progress, Definition, UndoProgress, HasStarted, FailuresOf, First,
      Invocation, Good, DriverOk, CompensateStep;
    if act.Live? {
      var op, id := p.body(s.v.value.h).Ops()[act.index], |s.v.value.h| + act.index;
      FrontShape(p, s, F, act.index);
      forall i | |s.d.calls| <= i < |s'.d.calls| && s'.d.calls[i].attempt > 1
        ensures Allowed(s.d.journal, s'.d.calls[i])
      {
        LiveCallIsAllowed(op, id, s.d.journal, act.w, s'.d.calls[i]);
      }
    } else if act.Compensate? {
      NewUndoIsAllowed(p, s, F, act.w, act.lost, s');
    }
  }

  lemma {:induction false} NewUndoIsAllowed(p: Program, s: State, F: seq<Outcome>, w: World, lost: bool, s': State)
    requires InvAt(p, s, F) && Next(p, s, Compensate(w, lost)) == Some(s')
    ensures s.d.calls <= s'.d.calls
    ensures forall i :: |s.d.calls| <= i < |s'.d.calls| && s'.d.calls[i].attempt > 1 ==> Allowed(s.d.journal, s'.d.calls[i])
  {
    hide Allowed, Settled, UndoProgress, HasStarted, DriverOk, Good, UndoShape, At, Tally;
    var c := NextUndo(s.v.value.stack, s.d.journal).value;
    var lane := At(s.d.journal, UndoLane(c.opId));
    if s'.d.calls != s.d.calls && Tally(lane, COMP_ATTEMPT_FAILED) + 1 > 1 {
      UndoLaneHasShape(p, s, F, c);
      UndoCallIsAllowed(c.undo, c.opId, s.d.journal, w, s'.d.calls[|s.d.calls|]);
    }
  }

  /** A compensation's lane that holds anything has the shape of the compensation being worked on. */
  lemma {:induction false} UndoLaneHasShape(p: Program, s: State, F: seq<Outcome>, c: Comp)
    requires InvAt(p, s, F) && s.v.Some? && p.body(s.v.value.h).Raise? && c in s.v.value.stack
    ensures UndoShape(c.undo, At(s.d.journal, UndoLane(c.opId)))
  {
    hide UndoShape, Comps, IsPath, PastOk, FrontOk, RunOk, EndOk, DriverOk, RecordOk, SuccessorOk, SignalsOk, At;
    PathOf(p, s.d.journal, F);
    DoneMeansFrontier(p, s.d.journal, F, s.v.value);
    if At(s.d.journal, UndoLane(c.opId)) == [] {
      NoTries(c.undo);
    } else {
      var x :| x in Comps(p.body, F, 0) && x.opId == c.opId && UndoShape(x.undo, At(s.d.journal, UndoLane(c.opId)));
      CompsAreDistinct(p.body, F, c, x);
    }
  }

  lemma {:induction false} RetryStepKeeps(p: Program, s: State, F: seq<Outcome>, act: Act, s': State, from: nat)
    requires InvAt(p, s, F) && Next(p, s, act) == Some(s') && NoEarlyRetry(s.d, from)
    ensures NoEarlyRetry(s'.d, from)
  {
    hide Allowed, InvAt, Next;
    StepOnlyGrows(p, s, act, s');
    NewCallIsAllowed(p, s, F, act, s');
    forall i | from <= i < |s'.d.calls| && s'.d.calls[i].attempt > 1
      ensures Allowed(s'.d.journal, s'.d.calls[i])
    {
      assert i < |s.d.calls| ==> s.d.calls[i] == s'.d.calls[i];
      assert Allowed(s.d.journal, s'.d.calls[i]);
      if s'.d.journal != s.d.journal {
        assert s'.d.journal == s.d.journal + [s'.d.journal[|s.d.journal|]];
        AllowedStays(s.d.journal, s'.d.journal[|s.d.journal|], s'.d.calls[i]);
      }
    }
  }

  lemma {:induction false} FrontShape(p: Program, s: State, F: seq<Outcome>, index: nat)
    requires InvAt(p, s, F) && s.v.Some? && index < |p.body(s.v.value.h).Ops()|
    ensures Shape(p.body(s.v.value.h).Ops()[index], At(s.d.journal, OpLane(|s.v.value.h| + index)))
  {
    hide Recorded, Shape, Comps, RunOk, UndoOk, EndOk, RecordOk, SuccessorOk, SignalsOk, InBatch, PastOk, FrontOk,
        IsPath, At;
    ShapeAhead(p, s.d.journal, F, s.v.value.h, index);
  }

  lemma {:induction false} RetriesWait(p: Program, s: State, F: seq<Outcome>, acts: seq<Act>, s': State, from: nat)
    requires InvAt(p, s, F) && Exec(p, s, acts) == Some(s') && NoEarlyRetry(s.d, from)
    ensures NoEarlyRetry(s'.d, from)
    decreases |acts|
  {
    hide InvAt, Next, NoEarlyRetry;
    if acts != [] {
      var mid := Next(p, s, acts[0]).value;
      RetryStepKeeps(p, s, F, acts[0], mid, from);
      var G := NextKeeps(p, s, F, acts[0], mid);
      RetriesWait(p, mid, G, acts[1..], s', from);
    }
  }

  /** Under every schedule of crashes, from the creation of a run or from any rewind on, no retry of a
      step or of a compensation is invoked before its journaled retry time. */
  lemma {:induction false} NoRetryIsEarly(p: Program, s: State, acts: seq<Act>, s': State)
    requires Reachable(p, s) && Exec(p, s, acts) == Some(s')
    ensures NoEarlyRetry(s'.d, |s.d.calls|)
  {
    hide InvAt, Exec, Reachable;
    var F := ReachableIsInvariant(p, s);
    RetriesWait(p, s, F, acts, s', |s.d.calls|);
  }

  // ---- driving a finished run again ----

  /** The terminal event is journaled: everything the run will ever do has been done. */
  ghost predicate Finished(p: Program, d: Durable, F: seq<Outcome>) {
    match p.body(F)
    case Await(_, _) => false
    case Return(_) => Logged(d.journal, RUN_COMPLETED)
    case Raise(_) => Logged(d.journal, RUN_FAILED)
    case ContinueAsNew(_) => Logged(d.journal, RUN_CONTINUED) && d.successor.Some?
  }

  ghost predicate Untouched(d: Durable, d': Durable) {
    && d'.journal == d.journal && d'.calls == d.calls && d'.answers == d.answers
    && d'.tags == d.tags && d'.successor == d.successor
  }

  /** No operation of a finished run can act any more. */
  lemma {:induction false} FinishedHasNoLive(p: Program, s: State, F: seq<Outcome>, index: nat, w: World, lost: bool)
    requires InvAt(p, s, F) && Finished(p, s.d, F)
    ensures Next(p, s, Live(index, w, lost)).None?
  {
    hide Recorded, Diverges, Opening, Progress, Definition, Touch, RecordOk, SuccessorOk, SignalsOk, DriverOk,
        JournalOk, At, HasStarted, Logged;
    if s.v.Some? && index < |p.body(s.v.value.h).Ops()| {
      JournalPart(p, s, F);
      LiveMeansFrontier(p, s.d.journal, F, s.v.value, index);
    }
  }

  /** All its compensations have run. */
  lemma {:induction false} FinishedHasNoUndo(p: Program, s: State, F: seq<Outcome>, w: World, lost: bool)
    requires InvAt(p, s, F) && Finished(p, s.d, F)
    ensures Next(p, s, Compensate(w, lost)).None?
  {
    hide UndoProgress, RecordOk, SuccessorOk, SignalsOk, DriverOk, JournalOk, At, HasStarted, Logged, Settled, Comps;
    if s.v.Some? && p.body(s.v.value.h).Raise? {
      JournalPart(p, s, F);
      DoneMeansFrontier(p, s.d.journal, F, s.v.value);
      FailedIsSettled(p, s.d.journal, F);
    }
  }

  lemma {:induction false} FinishedRewritesItsOutcome(p: Program, s: State, F: seq<Outcome>, now: Time, s': State)
    requires InvAt(p, s, F) && Finished(p, s.d, F) && Next(p, s, Conclude(now)) == Some(s')
    ensures Untouched(s.d, s'.d)
  {
    hide RecordOk, SuccessorOk, SignalsOk, DriverOk, JournalOk, At, HasStarted, Logged, First, FailuresOf, NextUndo;
    if p.body(s.v.value.h).Ops() == [] {
      JournalPart(p, s, F);
      DoneMeansFrontier(p, s.d.journal, F, s.v.value);
      LoggedIsFound(s.d.journal, RUN_COMPLETED);
      LoggedIsFound(s.d.journal, RUN_FAILED);
      LoggedIsFound(s.d.journal, RUN_CONTINUED);
    }
  }

  lemma {:induction false} FinishedHasStarted(p: Program, d: Durable, F: seq<Outcome>)
    requires JournalOk(p, d.journal, F) && Finished(p, d, F)
    ensures HasStarted(d.journal)
  {
    hide Comps, PastOk, FrontOk, UndoOk, EndOk, Numbered;
  }

  /** What one more act can do to a finished run: deliver or acknowledge signals, rewrite the outcome. */
  lemma {:induction false} FinishedStepIsQuiet(p: Program, s: State, F: seq<Outcome>, act: Act, s': State)
    requires InvAt(p, s, F) && Finished(p, s.d, F) && Next(p, s, act) == Some(s')
    ensures Untouched(s.d, s'.d)
  {
    hide InvAt, Finished, HasStarted, LiveStep, CompensateStep, ConcludeStep, Recorded, Diverges, AllRecorded;
    JournalPart(p, s, F);
    FinishedHasStarted(p, s.d, F);
    match act
    case Live(index, w, lost) => FinishedHasNoLive(p, s, F, index, w, lost);
    case Compensate(w, lost) => FinishedHasNoUndo(p, s, F, w, lost);
    case Conclude(now) => FinishedRewritesItsOutcome(p, s, F, now, s');
    case _ =>
  }

  lemma {:induction false} FailedIsSettled(p: Program, journal: Log, F: seq<Outcome>)
    requires JournalOk(p, journal, F) && Logged(journal, RUN_FAILED)
    ensures AllSettled(Comps(p.body, F, 0), journal)
  {
    hide Settled, PastOk, FrontOk, UndoOk, RunOk, Numbered, FailureList;
    PathOf(p, journal, F);
    var x :| x in At(journal, RunLane) && x.fact.Kind() == RUN_FAILED;
    assert TerminalOk(p, journal, F, x.fact);
  }

  lemma {:induction false} FinishedFrontierStays(p: Program, s: State, F: seq<Outcome>, act: Act, s': State)
    requires InvAt(p, s, F) && Finished(p, s.d, F) && Next(p, s, act) == Some(s')
    ensures InvAt(p, s', F) && Finished(p, s'.d, F)
  {
    hide InvAt, Next, Finished;
    FinishedStepIsQuiet(p, s, F, act, s');
    var G := NextKeeps(p, s, F, act, s');
    SameFrontier(p, s, F, s', G);
    assert Finished(p, s'.d, F) by { FinishedReadsLittle(p, s.d, s'.d, F); }
  }

  lemma {:induction false} FinishedReadsLittle(p: Program, d: Durable, d': Durable, F: seq<Outcome>)
    requires Finished(p, d, F) && d'.journal == d.journal && d'.successor == d.successor
    ensures Finished(p, d', F)
  {
  }

  /** A journal has one frontier. */
  lemma {:induction false} SameFrontier(p: Program, s: State, F: seq<Outcome>, s': State, G: seq<Outcome>)
    requires InvAt(p, s, F) && InvAt(p, s', G) && s.d.journal == s'.d.journal
    ensures F == G
  {
    hide Replay, Good, DriverOk;
    JournalPart(p, s, F);
    JournalPart(p, s', G);
    ReplayReachesFrontier(p, s.d.journal, F, []);
    ReplayReachesFrontier(p, s'.d.journal, G, []);
  }

  /** A run whose record is terminal is finished. */
  lemma {:induction false} TerminalIsFinished(p: Program, s: State, F: seq<Outcome>)
    requires InvAt(p, s, F) && !s.d.record.Running?
    ensures Finished(p, s.d, F)
  {
    hide SignalsOk, DriverOk, FailureList, Comps, PastOk, FrontOk, UndoOk, RunOk, Numbered;
    PathOf(p, s.d.journal, F);
    if s.d.record.Continued? {
      var x :| x in At(s.d.journal, RunLane) && x.fact.Kind() == RUN_CONTINUED;
      assert TerminalOk(p, s.d.journal, F, x.fact);
    }
  }

  lemma {:induction false} FinishedRunIsQuiet(p: Program, s: State, F: seq<Outcome>, acts: seq<Act>, s': State)
    requires InvAt(p, s, F) && Finished(p, s.d, F) && Exec(p, s, acts) == Some(s')
    ensures InvAt(p, s', F)
    ensures Untouched(s.d, s'.d)
    decreases |acts|
  {
    hide InvAt, Next, Finished;
    if acts != [] {
      var mid := Next(p, s, acts[0]).value;
      FinishedStepIsQuiet(p, s, F, acts[0], mid);
      FinishedFrontierStays(p, s, F, acts[0], mid);
      FinishedRunIsQuiet(p, mid, F, acts[1..], s');
    }
  }

  /** Driving a run again from a stale snapshot after it ended appends nothing, invokes nothing,
      creates no second successor and can only write an outcome with the same announcement. */
  lemma {:induction false} RedriveIsIdempotent(p: Program, s: State, acts: seq<Act>, s': State)
    requires Reachable(p, s) && !s.d.record.Running? && Exec(p, s, acts) == Some(s')
    ensures Untouched(s.d, s'.d)
    ensures !s'.d.record.Running? && SameOutcome(s.d.record, s'.d.record)
  {
    hide InvAt, Exec, Replay;
    var F := ReachableIsInvariant(p, s);
    TerminalIsFinished(p, s, F);
    FinishedRunIsQuiet(p, s, F, acts, s');
    StaysTerminal(p, s, acts, s');
    RecordsAgree(p, s, F, s');
  }

  /** Equal records, but for the order in which a gather's failed compensations are listed. */
  ghost predicate SameOutcome(a: Record, b: Record) {
    || a == b
    || (a.CompensationFailed? && b.CompensationFailed? && a.error == b.error && multiset(a.failures) == multiset(b.failures))
  }

  lemma {:induction false} StaysTerminal(p: Program, s: State, acts: seq<Act>, s': State)
    requires !s.d.record.Running? && Exec(p, s, acts) == Some(s')
    ensures !s'.d.record.Running?
    decreases |acts|
  {
    hide Next;
    if acts != [] {
      var mid := Next(p, s, acts[0]).value;
      TerminalForOneMore(p, s, acts[0], mid);
      StaysTerminal(p, mid, acts[1..], s');
    }
  }

  lemma {:induction false} TerminalForOneMore(p: Program, s: State, act: Act, s': State)
    requires !s.d.record.Running? && Next(p, s, act) == Some(s')
    ensures !s'.d.record.Running?
  {
    hide Recorded, Diverges, Opening, Progress, Definition, Invocation, UndoProgress, FailuresOf, First, Settled,
        NextUndo, HasStarted,
      At, Tally, AllRecorded, Outcomes, CompOf;
  }

  lemma {:induction false} RecordsAgree(p: Program, s: State, F: seq<Outcome>, s': State)
    requires InvAt(p, s, F) && InvAt(p, s', F) && s'.d.journal == s.d.journal && s'.d.successor == s.d.successor
    requires !s.d.record.Running? && !s'.d.record.Running?
    ensures SameOutcome(s.d.record, s'.d.record)
  {
    hide SignalsOk, DriverOk, JournalOk, FailureList, Comps;
    PathOf(p, s.d.journal, F);
    var a, b := s.d.record, s'.d.record;
    if a.CompensationFailed? && b.CompensationFailed? {
      FailureListsAgree(p, s.d.journal, F, a.failures, b.failures);
    }
    if a.CompensationFailed? && b.Failed? {
      FailureListsAgree(p, s.d.journal, F, a.failures, []);
    }
    if a.Failed? && b.CompensationFailed? {
      FailureListsAgree(p, s.d.journal, F, [], b.failures);
    }
  }

  // ---- continuing as new ----

  /** However often the end of a continuing run is cut short and driven again, it has one successor, and
      that one was created with the arguments the body continued with. */
  lemma {:induction false} OneSuccessor(p: Program, s: State, acts: seq<Act>, s': State)
    requires Reachable(p, s) && s.d.successor.Some? && Exec(p, s, acts) == Some(s')
    ensures s'.d.successor == s.d.successor
    ensures p.body(Replay(p.body, s'.d.journal, [])) == ContinueAsNew(s.d.successor.value)
  {
    hide Exec, Reachable, Replay, InvAt;
    SuccessorStays(p, s, acts, s');
    StaysReachable(p, s, acts, s');
    var F := ReachableIsInvariant(p, s');
    SuccessorArgs(p, s', F);
  }

  lemma {:induction false} SuccessorArgs(p: Program, s: State, F: seq<Outcome>)
    requires InvAt(p, s, F) && s.d.successor.Some?
    ensures p.body(F) == ContinueAsNew(s.d.successor.value)
  {
    hide JournalOk, SignalsOk, DriverOk, RecordOk;
    JournalPart(p, s, F);
    PathOf(p, s.d.journal, F);
  }

  lemma {:induction false} SuccessorStays(p: Program, s: State, acts: seq<Act>, s': State)
    requires s.d.successor.Some? && Exec(p, s, acts) == Some(s')
    ensures s'.d.successor == s.d.successor
    decreases |acts|
  {
    hide Next;
    if acts != [] {
      var mid := Next(p, s, acts[0]).value;
      SuccessorStaysOnce(p, s, acts[0], mid);
      SuccessorStays(p, mid, acts[1..], s');
    }
  }

  lemma {:induction false} SuccessorStaysOnce(p: Program, s: State, act: Act, s': State)
    requires s.d.successor.Some? && Next(p, s, act) == Some(s')
    ensures s'.d.successor == s.d.successor
  {
    hide Recorded, Diverges, Opening, Progress, Definition, Invocation, UndoProgress, FailuresOf, First, NextUndo,
        HasStarted, At, AllRecorded;
  }
}
