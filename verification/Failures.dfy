/** What a failed run has undone, and which failures it lists: said from what the body asked for, what came
    back, and what is journaled. */
module Failures {
  import opened Wrappers
  import opened Events
  import opened Engine
  import opened Lanes
  import opened Paths
  import opened Invariant
  import opened Preservation
  import opened Replays
  import opened Reachability
  import opened CrashSafety
  import opened Effects
  import opened Saga
  import opened Deadlines
  import opened Reports

  /** An operation whose effect is undone when the body fails: it carries a compensation, and it succeeded or is
      itself the registration of one. */
  ghost predicate MustUndo(op: Op, outcome: Outcome) {
    UndoOf(op).Some? && (op.Register? || outcome.Returned?)
  }

  /** The compensation of that operation was run to its end, in success or in failure. */
  ghost predicate Undone(journal: Log, id: nat) {
    exists e :: e in journal && e.opId == id && IsOutcome(e)
  }

  lemma {:induction false} RegistersIfDone(op: Op, id: nat, outcome: Outcome)
    ensures CompOf(op, id, outcome) == if MustUndo(op, outcome) then [Comp(id, UndoOf(op).value)] else []
  {
  }

  lemma {:induction false} UndoneIsSettled(journal: Log, id: nat)
    ensures Undone(journal, id) <==> Settled(At(journal, UndoLane(id)))
  {
    var lane := At(journal, UndoLane(id));
    if Undone(journal, id) {
      var e :| e in journal && e.opId == id && IsOutcome(e);
      var i :| 0 <= i < |journal| && journal[i] == e;
      OutcomeSettles(journal, i);
    }
    if Settled(lane) {
      var x := if First(lane, COMP_COMPLETED).Some? then First(lane, COMP_COMPLETED).value else First(lane, COMP_FAILED).value;
      LaneMembers(journal, UndoLane(id), x);
      var e :| e in journal && LaneOf(e) == UndoLane(id) && Entry(e.fact, e.ts) == x;
      assert IsOutcome(e) && e.opId == id;
    }
  }

  /** Which operations of a path registered a compensation, and which one. */
  lemma {:induction false} RegisteredAre(b: Body, F: seq<Outcome>, id: nat)
    requires IsPath(b, F, 0)
    ensures (exists c :: c in Comps(b, F, 0) && c.opId == id) <==>
            id < |F| && MustUndo(RequestedAt(b, F, id).value, F[id])
    ensures forall c :: c in Comps(b, F, 0) && c.opId == id ==> id < |F| && Some(c.undo) == UndoOf(RequestedAt(b, F, id).value)
  {
    hide IsPath, Comps, CompOf, OpAt, MustUndo;
    forall c | c in Comps(b, F, 0) && c.opId == id
      ensures id < |F| && MustUndo(RequestedAt(b, F, id).value, F[id]) && Some(c.undo) == UndoOf(RequestedAt(b, F, id).value)
    {
      CompsMembers(b, F, 0, c);
      RegistersIfDone(OpAt(b, F, 0, id), id, F[id]);
      MustUndoHasOne(OpAt(b, F, 0, id), F[id]);
    }
    assert id < |F| ==> RequestedAt(b, F, id) == Some(OpAt(b, F, 0, id));
    if id < |F| && MustUndo(RequestedAt(b, F, id).value, F[id]) {
      var op := OpAt(b, F, 0, id);
      RegistersIfDone(op, id, F[id]);
      assert UndoOf(op).Some? by { MustUndoHasOne(op, F[id]); }
      CompsMembers(b, F, 0, Comp(id, UndoOf(op).value));
    }
  }

  lemma {:induction false} MustUndoHasOne(op: Op, outcome: Outcome)
    ensures MustUndo(op, outcome) ==> UndoOf(op).Some?
  {
  }

  /** The permanent failures in the journal, in the order they were journaled. */
  function FailedIn(journal: Log): seq<UndoFailure> {
    if journal == [] then []
    else
      var last := journal[|journal| - 1].fact;
      if last.CompFailed? then FailedIn(journal[..|journal| - 1]) + [last.failure] else FailedIn(journal[..|journal| - 1])
  }

  /** A compensation's outcome comes last in its lane. */
  ghost predicate OneOutcomeEach(journal: Log) {
    forall i :: 0 <= i < |journal| && IsOutcome(journal[i]) ==> !Settled(At(journal[..i], UndoLane(journal[i].opId)))
  }

  lemma {:induction false} Split(init: seq<Comp>, top: Comp, journal: Log)
    ensures FailuresOf(init + [top], journal) == FailuresOf([top], journal) + FailuresOf(init, journal)
  {
    hide At, First;
    assert (init + [top])[..|init|] == init && [top][..0] == [];
    assert FailuresOf([], journal) == [];
  }

  lemma {:induction false} NoneFailed(stack: seq<Comp>, journal: Log)
    requires forall k :: 0 <= k < |stack| ==> !Settled(At(journal, UndoLane(stack[k].opId)))
    ensures FailuresOf(stack, journal) == []
  {
    hide At;
    if stack != [] {
      NoneFailed(stack[..|stack| - 1], journal);
    }
  }

  /** The compensation that fails is in the list from then on. */
  lemma {:induction false} NowFailed(c: Comp, journal: Log, e: Event)
    requires c.opId == e.opId && e.fact.CompFailed? && !Settled(At(journal, UndoLane(e.opId)))
    ensures FailuresOf([c], journal) == [] && FailuresOf([c], journal + [e]) == [e.fact.failure]
  {
    hide At;
    AtAppend(journal, e);
    var lane, x := At(journal, UndoLane(e.opId)), Entry(e.fact, e.ts);
    FirstSnoc(lane, x, COMP_COMPLETED);
    FirstSnoc(lane, x, COMP_FAILED);
    assert [c][..0] == [];
    assert FailuresOf([], journal) == [] && FailuresOf([], journal + [e]) == [];
  }

  /** Others are as they were. */
  lemma {:induction false} AsBefore(c: Comp, journal: Log, e: Event)
    requires LaneOf(e) == UndoLane(c.opId) && IsOutcome(e) ==> e.fact.CompCompleted? && !Settled(At(journal, UndoLane(c.opId)))
    ensures FailuresOf([c], journal + [e]) == FailuresOf([c], journal)
  {
    hide At;
    AtAppend(journal, e);
    var lane, x := At(journal, UndoLane(c.opId)), Entry(e.fact, e.ts);
    FirstSnoc(lane, x, COMP_COMPLETED);
    FirstSnoc(lane, x, COMP_FAILED);
    assert [c][..0] == [];
    assert FailuresOf([], journal) == [] && FailuresOf([], journal + [e]) == [];
  }

  lemma {:induction false} OnceOnly(stack: seq<Comp>)
    requires stack != [] && forall i, j :: 0 <= i < j < |stack| ==> stack[i].opId != stack[j].opId
    ensures forall c :: c in stack[..|stack| - 1] ==> c.opId != stack[|stack| - 1].opId
  {
  }

  lemma {:induction false} InLaneOf(e: Event, c: Comp)
    ensures LaneOf(e) == UndoLane(c.opId) ==> e.opId == c.opId
  {
  }

  /** An event that is no failure of a compensation on the stack leaves its failures as they are. */
  lemma {:induction false} NoMoreFailure(stack: seq<Comp>, journal: Log, e: Event)
    requires forall c :: c in stack && c.opId == e.opId && IsOutcome(e) ==>
               e.fact.CompCompleted? && !Settled(At(journal, UndoLane(c.opId)))
    ensures FailuresOf(stack, journal + [e]) == FailuresOf(stack, journal)
    decreases |stack|
  {
    hide At, Settled, FailuresOf, LaneOf;
    if stack == [] {
      NoneFailed([], journal);
      NoneFailed([], journal + [e]);
    } else {
      var init, top := stack[..|stack| - 1], stack[|stack| - 1];
      assert stack == init + [top] && top in stack;
      Split(init, top, journal);
      Split(init, top, journal + [e]);
      InLaneOf(e, top);
      AsBefore(top, journal, e);
      NoMoreFailure(init, journal, e);
    }
  }

  /** One more failure is one more on the list. */
  lemma {:induction false} OneMoreFailure(stack: seq<Comp>, journal: Log, e: Event, at: nat)
    requires forall i, j :: 0 <= i < j < |stack| ==> stack[i].opId != stack[j].opId
    requires at < |stack| && stack[at].opId == e.opId && e.fact.CompFailed? && !Settled(At(journal, UndoLane(e.opId)))
    ensures multiset(FailuresOf(stack, journal + [e])) == multiset(FailuresOf(stack, journal)) + multiset{e.fact.failure}
    decreases |stack|
  {
    hide At, Settled, FailuresOf, LaneOf;
    var init, top := stack[..|stack| - 1], stack[|stack| - 1];
    assert stack == init + [top];
    Split(init, top, journal);
    Split(init, top, journal + [e]);
    if at == |stack| - 1 {
      NowFailed(top, journal, e);
      OnceOnly(stack);
      NoMoreFailure(init, journal, e);
    } else {
      OneMoreFailure(init, journal, e, at);
      assert top.opId != stack[at].opId;
      InLaneOf(e, top);
      AsBefore(top, journal, e);
    }
  }

  /** It comes last, if nothing below it on the stack has an outcome yet. */
  lemma {:induction false} NextFailure(stack: seq<Comp>, journal: Log, e: Event, at: nat)
    requires forall i, j :: 0 <= i < j < |stack| ==> stack[i].opId != stack[j].opId
    requires at < |stack| && stack[at].opId == e.opId && e.fact.CompFailed? && !Settled(At(journal, UndoLane(e.opId)))
    requires forall k :: 0 <= k < at ==> !Settled(At(journal, UndoLane(stack[k].opId)))
    ensures FailuresOf(stack, journal + [e]) == FailuresOf(stack, journal) + [e.fact.failure]
    decreases |stack|
  {
    hide At, Settled, FailuresOf, LaneOf;
    var init, top := stack[..|stack| - 1], stack[|stack| - 1];
    assert stack == init + [top];
    Split(init, top, journal);
    Split(init, top, journal + [e]);
    if at == |stack| - 1 {
      NowFailed(top, journal, e);
      OnceOnly(stack);
      NoMoreFailure(init, journal, e);
      NoneFailed(init, journal);
    } else {
      NextFailure(init, journal, e, at);
      assert top.opId != stack[at].opId;
      InLaneOf(e, top);
      AsBefore(top, journal, e);
    }
  }

  /** The failures of the stack are those in the journal; in the journal's order, if that is last registered first. */
  lemma {:induction false} FailuresAreJournaled(comps: seq<Comp>, journal: Log)
    requires Ascending(comps) && OneOutcomeEach(journal)
    requires forall e :: e in journal && e.fact.CompFailed? ==> exists c :: c in comps && c.opId == e.opId
    ensures multiset(FailuresOf(comps, journal)) == multiset(FailedIn(journal))
    ensures Descending(journal) ==> FailuresOf(comps, journal) == FailedIn(journal)
    decreases |journal|
  {
    hide FailuresOf, Settled;
    if journal == [] {
      EmptyJournal(comps);
    } else {
      var init, e := journal[..|journal| - 1], journal[|journal| - 1];
      assert journal == init + [e];
      PrefixKeeps(journal);
      FailuresAreJournaled(comps, init);
      if e.fact.CompFailed? {
        var c :| c in comps && c.opId == e.opId;
        var at :| 0 <= at < |comps| && comps[at] == c;
        OneMoreFailure(comps, init, e, at);
        if Descending(journal) {
          LaterOnesFirst(comps, init, e, at);
          NextFailure(comps, init, e, at);
        }
      } else {
        NoMoreFailure(comps, init, e);
      }
    }
  }

  lemma {:induction false} EmptyJournal(comps: seq<Comp>)
    ensures FailuresOf(comps, []) == []
  {
    NoneFailed(comps, []);
  }

  lemma {:induction false} PrefixKeeps(journal: Log)
    requires journal != [] && OneOutcomeEach(journal)
    ensures var init, e := journal[..|journal| - 1], journal[|journal| - 1];
            && OneOutcomeEach(init) && (Descending(journal) ==> Descending(init))
            && (IsOutcome(e) ==> !Settled(At(init, UndoLane(e.opId)))) && forall x :: x in init ==> x in journal
  {
    hide Settled, At;
    var init := journal[..|journal| - 1];
    forall i | 0 <= i < |init| && IsOutcome(init[i])
      ensures !Settled(At(init[..i], UndoLane(init[i].opId)))
    {
      assert init[..i] == journal[..i];
    }
  }

  lemma {:induction false} LaterOnesFirst(comps: seq<Comp>, init: Log, e: Event, at: nat)
    requires Ascending(comps) && Descending(init + [e]) && IsOutcome(e) && at < |comps| && comps[at].opId == e.opId
    ensures forall k :: 0 <= k < at ==> !Settled(At(init, UndoLane(comps[k].opId)))
  {
    hide Settled, At;
    forall x | x in init && IsOutcome(x)
      ensures x.opId > e.opId
    {
      var i :| 0 <= i < |init| && init[i] == x;
      assert (init + [e])[i] == x && (init + [e])[|init|] == e;
    }
    forall k | 0 <= k < at
      ensures !Settled(At(init, UndoLane(comps[k].opId)))
    {
      UndoneIsSettled(init, comps[k].opId);
    }
  }

  /** The compensation an outcome names. */
  function WasRun(fact: Fact): string {
    match fact
    case CompCompleted(name, _) => name
    case CompFailed(failure) => failure.name
    case _ => ""
  }

  /** In every journal of a run each compensation has one outcome, and one that was registered. */
  lemma {:induction false} OutcomesAreLast(p: Program, journal: Log, F: seq<Outcome>)
    requires JournalOk(p, journal, F) && IsPath(p.body, F, 0)
    ensures OneOutcomeEach(journal)
    ensures forall e :: e in journal && IsOutcome(e) ==>
              exists c :: c in Comps(p.body, F, 0) && c.opId == e.opId && c.undo.name == WasRun(e.fact)
  {
    hide JournalOk, IsPath, Comps, Settled, At, LaneOf, UndoShape;
    forall i | 0 <= i < |journal| && IsOutcome(journal[i])
      ensures !Settled(At(journal[..i], UndoLane(journal[i].opId)))
      ensures exists c :: c in Comps(p.body, F, 0) && c.opId == journal[i].opId && c.undo.name == WasRun(journal[i].fact)
    {
      var e := journal[i];
      OutcomeSettles(journal, i);
      var c := UndoLaneOwner(p, journal, F, e.opId);
      PlaceInLane(journal, i);
      assert LaneOf(e) == UndoLane(e.opId) by { OutcomeLane(e); }
      AtConcat(journal[..i], journal[i..], UndoLane(e.opId));
      assert journal[..i] + journal[i..] == journal;
      BeforeTheLast(c.undo, At(journal, UndoLane(e.opId)), At(journal[..i], UndoLane(e.opId)), e.fact);
    }
  }

  lemma {:induction false} OutcomeLane(e: Event)
    requires IsOutcome(e)
    ensures LaneOf(e) == UndoLane(e.opId)
  {
  }

  lemma {:induction false} BeforeTheLast(undo: Undo, lane: seq<Entry>, before: seq<Entry>, fact: Fact)
    requires UndoShape(undo, lane) && before <= lane && |before| < |lane| && lane[|before|].fact == fact
    ensures !Settled(before) && ((fact.CompCompleted? || fact.CompFailed?) ==> WasRun(fact) == undo.name)
  {
    assert TryAt(lane, |before|, undo.name, undo.policy);
    forall i | 0 <= i < |before|
      ensures before[i].fact.Kind() == COMP_ATTEMPT_FAILED
    {
      assert TryAt(lane, i, undo.name, undo.policy) && before[i] == lane[i];
    }
    FirstNone(before, COMP_COMPLETED);
    FirstNone(before, COMP_FAILED);
  }

  // ---- the theorem ----

  /** A failed run, under every schedule of crashes, rewinds and changes of code: exactly the operations were
      undone that carry a compensation and succeeded, or are registrations, each by its own compensation. Its
      record lists exactly the permanent failures of its journal, in their order where compensations ran
      last-in first-out; without any it is FAILED, and says whether there was something to compensate. */
  lemma {:induction false} FailedRunsAreUndone(p: Program, s: State)
    returns (F: seq<Outcome>)
    requires Reachable(p, s) && (s.d.record.Failed? || s.d.record.CompensationFailed?)
    ensures F == Replay(p.body, s.d.journal, []) && IsPath(p.body, F, 0)
    ensures forall id: nat :: Undone(s.d.journal, id) <==> id < |F| && MustUndo(RequestedAt(p.body, F, id).value, F[id])
    ensures forall e :: e in s.d.journal && IsOutcome(e) ==>
              && 0 <= e.opId < |F| && UndoOf(RequestedAt(p.body, F, e.opId).value).Some?
              && WasRun(e.fact) == UndoOf(RequestedAt(p.body, F, e.opId).value).value.name
    ensures var failures := FailedIn(s.d.journal);
            if failures == []
            then s.d.record.Failed? && (s.d.record.compensated <==> exists id: nat :: Undone(s.d.journal, id))
            else && s.d.record.CompensationFailed? && multiset(s.d.record.failures) == multiset(failures)
                 && (FairlyReached(p, s) || LoneUndos(p.body, F, 0) ==> s.d.record.failures == failures)
  {
    hide Reachable, Replay, IsPath, Comps, FailuresOf, Settled, FairlyReached, LoneUndos, Undone, MustUndo, OpAt,
        FailedIn, InvAt, OneOutcomeEach, Ascending, Descending, ExactFailures, LastInFirstOut, JournalOk, At;
    F := SagaIsComplete(p, s);
    var G := SagaRunsBackwards(p, s);
    var H := ReachableIsInvariant(p, s);
    JournalPart(p, s, F);
    OutcomesAreLast(p, s.d.journal, F);
    CompsAscend(p.body, F, 0);
    FailuresAreJournaled(Comps(p.body, F, 0), s.d.journal);
    assert |multiset(FailedIn(s.d.journal))| == |FailedIn(s.d.journal)|;
    assert |multiset(FailuresOf(Comps(p.body, F, 0), s.d.journal))| == |FailuresOf(Comps(p.body, F, 0), s.d.journal)|;
    forall id: nat
      ensures Undone(s.d.journal, id) <==> exists c :: c in Comps(p.body, F, 0) && c.opId == id
      ensures Undone(s.d.journal, id) <==> id < |F| && MustUndo(RequestedAt(p.body, F, id).value, F[id])
    {
      UndoneIsSettled(s.d.journal, id);
      if Settled(At(s.d.journal, UndoLane(id))) { SettledHasEvents(At(s.d.journal, UndoLane(id))); }
      RegisteredAre(p.body, F, id);
    }
    forall e | e in s.d.journal && IsOutcome(e)
      ensures 0 <= e.opId < |F| && UndoOf(RequestedAt(p.body, F, e.opId).value).Some?
      ensures WasRun(e.fact) == UndoOf(RequestedAt(p.body, F, e.opId).value).value.name
    {
      var c :| c in Comps(p.body, F, 0) && c.opId == e.opId && c.undo.name == WasRun(e.fact);
      RegisteredAre(p.body, F, c.opId);
    }
    SomeUndone(p, s.d.journal, F);
  }

  lemma {:induction false} SomeUndone(p: Program, journal: Log, F: seq<Outcome>)
    requires IsPath(p.body, F, 0)
    requires forall id: nat :: Undone(journal, id) <==> exists c :: c in Comps(p.body, F, 0) && c.opId == id
    ensures Comps(p.body, F, 0) != [] <==> exists id: nat :: Undone(journal, id)
  {
    hide IsPath, Comps, Undone;
    if Comps(p.body, F, 0) != [] {
      var c := Comps(p.body, F, 0)[0];
      assert c in Comps(p.body, F, 0);
      assert Undone(journal, c.opId);
    }
  }
}
