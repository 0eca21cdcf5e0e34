/** What every reachable state of the engine satisfies. `F` is the frontier: the outcomes of the
    completed batches, the history at which the body has to work live. */
module Invariant {
  import opened Wrappers
  import opened Events
  import opened Engine
  import opened Lanes
  import opened Paths

  ghost predicate Numbered(journal: Log) {
    && WellNumbered(journal)
    && forall i :: 0 <= i < |journal| ==> journal[i].seqNo == i
  }

  /** Run-level events: RUN_STARTED once and before any operation, rewind markers, at most one
      terminal event, last. */
  ghost predicate RunOk(p: Program, journal: Log) {
    var run := At(journal, RunLane);
    && (HasStarted(journal) || forall lane :: lane != RunLane ==> At(journal, lane) == [])
    && (forall i :: 0 <= i < |run| ==>
          || run[i].fact == RunStarted(p.tags)
          || run[i].fact.RunReset?
          || (run[i].fact.Kind() in TERMINAL_RUN_KINDS && i == |run| - 1 && HasStarted(journal)))
    && (forall i, j :: 0 <= i < j < |run| && run[i].fact.RunStarted? ==> !run[j].fact.RunStarted?)
  }

  /** Below the frontier every operation is recorded with the outcome the body received. */
  ghost predicate PastOk(p: Program, journal: Log, F: seq<Outcome>) {
    && IsPath(p.body, F, 0)
    && forall id :: 0 <= id < |F| ==>
         && Shape(OpAt(p.body, F, 0, id), At(journal, OpLane(id)))
         && Recorded(OpAt(p.body, F, 0, id), id, At(journal, OpLane(id))) == Some(F[id])
  }

  /** At the frontier one batch is under way, and nothing lies beyond it. */
  ghost predicate FrontOk(p: Program, journal: Log, F: seq<Outcome>) {
    var ops := p.body(F).Ops();
    && (forall i :: 0 <= i < |ops| ==> Shape(ops[i], At(journal, OpLane(|F| + i))))
    && (ops != [] ==> !AllRecorded(ops, |F|, journal))
    && (forall id :: |F| + |ops| <= id ==> At(journal, OpLane(id)) == [])
  }

  /** Compensations run only after the body raised, and only registered ones. */
  ghost predicate UndoOk(p: Program, journal: Log, F: seq<Outcome>)
    requires IsPath(p.body, F, 0)
  {
    forall id :: At(journal, UndoLane(id)) != [] ==>
      && p.body(F).Raise?
      && exists c :: c in Comps(p.body, F, 0) && c.opId == id && UndoShape(c.undo, At(journal, UndoLane(id)))
  }

  /** `stack` holds exactly the registered compensations, each once, in some order. */
  ghost predicate Orders(stack: seq<Comp>, comps: seq<Comp>) {
    && (forall c :: c in stack <==> c in comps)
    && (forall i, j :: 0 <= i < j < |stack| ==> stack[i].opId != stack[j].opId)
  }

  ghost predicate AllSettled(comps: seq<Comp>, journal: Log) {
    forall c :: c in comps ==> Settled(At(journal, UndoLane(c.opId)))
  }

  /** The failure list some order of the compensation stack yields. */
  ghost predicate FailureList(p: Program, journal: Log, F: seq<Outcome>, failures: seq<UndoFailure>)
    requires IsPath(p.body, F, 0)
  {
    exists stack :: Orders(stack, Comps(p.body, F, 0)) && failures == FailuresOf(stack, journal)
  }

  /** A terminal event says what the body does at the frontier. */
  ghost predicate TerminalOk(p: Program, journal: Log, F: seq<Outcome>, fact: Fact)
    requires IsPath(p.body, F, 0)
  {
    match fact
    case RunCompleted(result) => p.body(F) == Return(result)
    case RunFailed(error, compensated, failures) =>
      && p.body(F) == Raise(error)
      && AllSettled(Comps(p.body, F, 0), journal)
      && FailureList(p, journal, F, failures)
      && (compensated <==> failures == [] && Comps(p.body, F, 0) != [])
    case RunContinued(next, args) => next == p.nextRunId && p.body(F) == ContinueAsNew(args)
    case _ => false
  }

  ghost predicate EndOk(p: Program, journal: Log, F: seq<Outcome>)
    requires IsPath(p.body, F, 0)
  {
    forall x :: x in At(journal, RunLane) && x.fact.Kind() in TERMINAL_RUN_KINDS ==> TerminalOk(p, journal, F, x.fact)
  }

  ghost predicate Logged(journal: Log, kind: Kind) {
    exists x :: x in At(journal, RunLane) && x.fact.Kind() == kind
  }

  /** A terminal record is backed by the terminal event that was written before it. */
  ghost predicate RecordOk(p: Program, d: Durable, F: seq<Outcome>)
    requires IsPath(p.body, F, 0)
  {
    match d.record
    case Running => true
    case Completed(result) => Logged(d.journal, RUN_COMPLETED) && p.body(F) == Return(result)
    case Failed(error, compensated) =>
      && Logged(d.journal, RUN_FAILED) && p.body(F) == Raise(error)
      && FailureList(p, d.journal, F, [])
      && (compensated <==> Comps(p.body, F, 0) != [])
    case CompensationFailed(error, failures) =>
      && Logged(d.journal, RUN_FAILED) && p.body(F) == Raise(error)
      && failures != [] && FailureList(p, d.journal, F, failures)
    case Continued(next) => Logged(d.journal, RUN_CONTINUED) && next == p.nextRunId && d.successor.Some?
  }

  /** The successor was created after RUN_CONTINUED was journaled, with the continued arguments. */
  ghost predicate SuccessorOk(p: Program, d: Durable, F: seq<Outcome>) {
    d.successor.Some? ==> Logged(d.journal, RUN_CONTINUED) && p.body(F) == ContinueAsNew(d.successor.value)
  }

  /** The signals journaled as consumed: no signal twice, and for each name a prefix of the inbox. */
  ghost predicate SignalsOk(d: Durable) {
    && (forall i, j :: 0 <= i < j < |d.journal| && d.journal[i].fact.EventConsumed? && d.journal[j].fact.EventConsumed? ==>
          d.journal[i].fact.signalSeq != d.journal[j].fact.signalSeq)
    && (forall e :: e in d.journal && e.fact.EventConsumed? ==>
          && e.fact.signalSeq < |d.inbox|
          && d.inbox[e.fact.signalSeq].name == e.fact.name
          && d.inbox[e.fact.signalSeq].payload == e.fact.payload)
    && (forall s, t :: s in ConsumedSeqs(d.journal) && 0 <= t < s < |d.inbox| && d.inbox[t].name == d.inbox[s].name ==>
          t in ConsumedSeqs(d.journal))
    && (forall t :: 0 <= t < |d.inbox| && d.inbox[t].consumed ==> t in ConsumedSeqs(d.journal))
  }

  /** The journal part of the invariant, which a rewind preserves too. */
  ghost predicate JournalOk(p: Program, journal: Log, F: seq<Outcome>) {
    && Numbered(journal)
    && RunOk(p, journal)
    && PastOk(p, journal, F)
    && FrontOk(p, journal, F)
    && UndoOk(p, journal, F)
    && EndOk(p, journal, F)
  }

  ghost predicate Good(p: Program, d: Durable, F: seq<Outcome>) {
    && JournalOk(p, d.journal, F)
    && RecordOk(p, d, F)
    && SuccessorOk(p, d, F)
    && SignalsOk(d)
  }

  /** Compensations of operations of the current batch that came back. */
  ghost predicate InBatch(ops: seq<Op>, base: nat, returned: set<nat>, journal: Log, c: Comp) {
    exists i :: i in returned && i < |ops| && Recorded(ops[i], base + i, At(journal, OpLane(base + i))).Some? &&
                c in CompOf(ops[i], base + i, Recorded(ops[i], base + i, At(journal, OpLane(base + i))).value)
  }

  /** A driver's body has received the recorded outcomes of a prefix of the frontier, nothing else. */
  ghost predicate DriverOk(p: Program, journal: Log, F: seq<Outcome>, v: Driver) {
    && |v.h| <= |F| && v.h == F[..|v.h|] && IsPath(p.body, v.h, 0)
    && var ops := p.body(v.h).Ops();
       && (forall i :: i in v.returned ==> i < |ops| && Recorded(ops[i], |v.h| + i, At(journal, OpLane(|v.h| + i))).Some?)
       && (forall c :: c in v.stack <==> c in Comps(p.body, v.h, 0) || InBatch(ops, |v.h|, v.returned, journal, c))
       && (forall i, j :: 0 <= i < j < |v.stack| ==> v.stack[i].opId != v.stack[j].opId)
  }

  ghost predicate InvAt(p: Program, s: State, F: seq<Outcome>) {
    Good(p, s.d, F) && (s.v.Some? ==> DriverOk(p, s.d.journal, F, s.v.value))
  }

  // ---- small facts ----

  lemma {:induction false} NothingRecorded(op: Op, id: nat)
    ensures Recorded(op, id, []).None? && Shape(op, [])
  {
  }

  lemma {:induction false} InitialIsGood(p: Program)
    ensures InvAt(p, Initial(p), [])
  {
    var ops := p.body([]).Ops();
    if ops != [] {
      NothingRecorded(ops[0], 0);
      assert Recorded(ops[0], 0 + 0, At([], OpLane(0 + 0))).None?;
    }
  }

  /** Some run-level event has that kind exactly when the lookup finds one. */
  lemma {:induction false} LoggedIsFound(journal: Log, kind: Kind)
    ensures Logged(journal, kind) <==> First(At(journal, RunLane), kind).Some?
  {
    var run := At(journal, RunLane);
    if Logged(journal, kind) && First(run, kind).None? {
      var x :| x in run && x.fact.Kind() == kind;
      var i :| 0 <= i < |run| && run[i] == x;
      FirstMisses(run, kind, i);
    }
  }

  /** The batch a history below the frontier leads to lies below the frontier. */
  lemma {:induction false} BatchBelow(p: Program, journal: Log, F: seq<Outcome>, h: seq<Outcome>)
    requires IsPath(p.body, F, 0) && |h| < |F| && h == F[..|h|] && IsPath(p.body, h, 0)
    ensures p.body(h).Ops() != [] && |h| + |p.body(h).Ops()| <= |F|
    ensures forall i :: 0 <= i < |p.body(h).Ops()| ==> OpAt(p.body, F, 0, |h| + i) == p.body(h).Ops()[i]
  {
    PathPrefix(p.body, h, F, 0);
    PathCut(p.body, F, 0, |h|);
  }

  /** Below the frontier a whole batch is recorded, with the frontier's outcomes. */
  lemma {:induction false} RecordedBelow(p: Program, journal: Log, F: seq<Outcome>, h: seq<Outcome>)
    requires PastOk(p, journal, F) && |h| < |F| && h == F[..|h|] && IsPath(p.body, h, 0)
    ensures p.body(h).Ops() != [] && |h| + |p.body(h).Ops()| <= |F|
    ensures forall i :: 0 <= i < |p.body(h).Ops()| ==>
              && Recorded(p.body(h).Ops()[i], |h| + i, At(journal, OpLane(|h| + i))) == Some(F[|h| + i])
              && Shape(p.body(h).Ops()[i], At(journal, OpLane(|h| + i)))
  {
    hide Recorded, Shape;
    BatchBelow(p, journal, F, h);
    var ops := p.body(h).Ops();
    forall i | 0 <= i < |ops|
      ensures Recorded(ops[i], |h| + i, At(journal, OpLane(|h| + i))) == Some(F[|h| + i])
      ensures Shape(ops[i], At(journal, OpLane(|h| + i))) == true
    {
      assert OpAt(p.body, F, 0, |h| + i) == ops[i];
    }
  }

  /** Any operation a driver can be waiting for has its shape, and an outcome unless it is at the frontier. */
  lemma {:induction false} ShapeAhead(p: Program, journal: Log, F: seq<Outcome>, h: seq<Outcome>, index: nat)
    requires PastOk(p, journal, F) && FrontOk(p, journal, F) && |h| <= |F| && h == F[..|h|] && IsPath(p.body, h, 0)
    requires index < |p.body(h).Ops()|
    ensures Shape(p.body(h).Ops()[index], At(journal, OpLane(|h| + index)))
    ensures Recorded(p.body(h).Ops()[index], |h| + index, At(journal, OpLane(|h| + index))).None? ==> h == F
  {
    hide Recorded, Shape, IsPath, At, AllRecorded, OpAt, PastOk;
    if |h| < |F| {
      hide FrontOk;
      RecordedBelow(p, journal, F, h);
    } else {
      assert h == F;
      assert Shape(p.body(F).Ops()[index], At(journal, OpLane(|F| + index)));
    }
  }

  /** Only at the frontier can an operation lack an outcome. */
  lemma {:induction false} LiveMeansFrontier(p: Program, journal: Log, F: seq<Outcome>, v: Driver, index: nat)
    requires JournalOk(p, journal, F) && DriverOk(p, journal, F, v)
    requires index < |p.body(v.h).Ops()|
    ensures !Diverges(p.body(v.h).Ops()[index], At(journal, OpLane(|v.h| + index)))
    ensures Recorded(p.body(v.h).Ops()[index], |v.h| + index, At(journal, OpLane(|v.h| + index))).None? ==> v.h == F
  {
    hide Recorded, Shape, Diverges, IsPath, Comps, InBatch, RunOk, UndoOk, EndOk, PastOk, FrontOk;
    ShapeAhead(p, journal, F, v.h, index);
    DefinitionOpens(p.body(v.h).Ops()[index], At(journal, OpLane(|v.h| + index)));
  }

  /** A body that awaits nothing more is at the frontier. */
  lemma {:induction false} DoneMeansFrontier(p: Program, journal: Log, F: seq<Outcome>, v: Driver)
    requires JournalOk(p, journal, F) && DriverOk(p, journal, F, v) && p.body(v.h).Ops() == []
    ensures v.h == F && v.returned == {} && Orders(v.stack, Comps(p.body, F, 0))
  {
    if |v.h| < |F| {
      RecordedBelow(p, journal, F, v.h);
    }
    assert v.h == F;
    forall c
      ensures c in v.stack <==> c in Comps(p.body, F, 0)
    {
      assert !InBatch([], |v.h|, v.returned, journal, c);
    }
  }

  lemma {:induction false} FailuresStable(stack: seq<Comp>, j: Log, k: Log)
    requires forall c :: c in stack ==> At(j, UndoLane(c.opId)) == At(k, UndoLane(c.opId))
    ensures FailuresOf(stack, j) == FailuresOf(stack, k)
  {
    if stack != [] {
      FailuresStable(stack[..|stack| - 1], j, k);
    }
  }
}
