/** Sagas: under every schedule a failed run has compensated exactly what was registered and lists exactly
    the permanent failures; and when compensations run last-in first-out. */
module Saga {
  import opened Wrappers
  import opened Events
  import opened Engine
  import opened Lanes
  import opened Paths
  import opened Invariant
  import opened Preservation
  import opened Endings
  import opened Rewind
  import opened Signals
  import opened Patching
  import opened Reachability
  import opened Replays
  import opened CrashSafety
  import opened Effects

  ghost predicate IsOutcome(e: Event) {
    e.fact.CompCompleted? || e.fact.CompFailed?
  }

  /** Compensation outcomes appear in the journal in strictly decreasing op order. */
  ghost predicate Descending(journal: Log) {
    forall i, j :: 0 <= i < j < |journal| && IsOutcome(journal[i]) && IsOutcome(journal[j]) ==>
      journal[i].opId > journal[j].opId
  }

  /** A compensation is touched only after all later registered ones are settled. */
  ghost predicate LastInFirstOut(comps: seq<Comp>, journal: Log) {
    forall i, k :: 0 <= i < k < |comps| && At(journal, UndoLane(comps[i].opId)) != [] ==>
      Settled(At(journal, UndoLane(comps[k].opId)))
  }

  ghost predicate Ascending(comps: seq<Comp>) {
    forall i, k :: 0 <= i < k < |comps| ==> comps[i].opId < comps[k].opId
  }

  /** A path every batch of which registered at most one compensation. */
  ghost predicate LoneUndos(b: Body, h: seq<Outcome>, from: nat)
    requires from <= |h|
    decreases |h| - from
  {
    || from == |h|
    || (var ops := b(h[..from]).Ops();
        && 0 < |ops| && from + |ops| <= |h|
        && |BatchComps(ops, from, h[from..from + |ops|])| <= 1 && LoneUndos(b, h, from + |ops|))
  }

  /** Under a fair schedule the stack is in op order. It starts with what the driver's history registered,
      in op order, under every schedule where each batch of that history registered at most one. */
  ghost predicate StackOk(p: Program, v: Driver, fair: bool)
    requires IsPath(p.body, v.h, 0)
  {
    && (fair ==> Ascending(v.stack))
    && (LoneUndos(p.body, v.h, 0) ==> Comps(p.body, v.h, 0) <= v.stack)
  }

  /** Failure lists name the permanently failed compensations, last registered first. */
  ghost predicate ExactFailures(p: Program, d: Durable, F: seq<Outcome>)
    requires IsPath(p.body, F, 0)
  {
    && (forall x :: x in At(d.journal, RunLane) && x.fact.RunFailed? ==>
          x.fact.failures == FailuresOf(Comps(p.body, F, 0), d.journal))
    && (d.record.CompensationFailed? ==> d.record.failures == FailuresOf(Comps(p.body, F, 0), d.journal))
    && (d.record.Failed? ==> FailuresOf(Comps(p.body, F, 0), d.journal) == [])
  }

  /** The compensations run last-in first-out, and the failures are listed in that order. */
  ghost predicate Orderly(p: Program, d: Durable, F: seq<Outcome>)
    requires IsPath(p.body, F, 0)
  {
    LastInFirstOut(Comps(p.body, F, 0), d.journal) && Descending(d.journal) && ExactFailures(p, d, F)
  }

  ghost predicate SagaOk(p: Program, s: State, F: seq<Outcome>, fair: bool)
    requires IsPath(p.body, F, 0)
  {
    && (fair || LoneUndos(p.body, F, 0) ==> Orderly(p, s.d, F))
    && (s.v.Some? ==> IsPath(p.body, s.v.value.h, 0) && StackOk(p, s.v.value, fair))
  }

  // ---- when the order is kept ----

  /** An operation comes back with a compensation only after all earlier ones that register one: nothing
      on the stack belongs to a later operation. */
  ghost predicate InTurn(p: Program, s: State, act: Act) {
    act.Back? && s.v.Some? && act.index < |p.body(s.v.value.h).Ops()| ==>
      var v, id := s.v.value, |s.v.value.h| + act.index;
      var op := p.body(v.h).Ops()[act.index];
      var outcome := Recorded(op, id, At(s.d.journal, OpLane(id)));
      outcome.Some? && CompOf(op, id, outcome.value) != [] ==> forall c :: c in v.stack ==> c.opId < id
  }

  ghost predicate AllFair(p: Program, s: State, turns: seq<Turn>)
    decreases |turns|
  {
    turns == [] ||
    ((turns[0].Work? ==> InTurn(p, s, turns[0].act)) &&
     var s' := Take(p, s, turns[0]); s'.Some? ==> AllFair(p, s'.value, turns[1..]))
  }

  /** Reached by the present code with the compensated operations of each gather coming back in turn. */
  ghost predicate FairlyReached(p: Program, s: State) {
    exists life, turns ::
      Origin(p, life).Some? && AllFair(p, Origin(p, life).value, turns) && Play(p, Origin(p, life).value, turns) == Some(s)
  }

  /** Does the operation register no compensation when it comes back? */
  predicate NoUndo(op: Op) {
    match op
    case Step(_, _, undo) => undo.None?
    case Child(_, _, undo) => undo.None?
    case Register(_) => false
    case _ => true
  }

  /** Bodies that never await two operations together that both have a compensation. */
  ghost predicate OneUndo(p: Program) {
    forall h: seq<Outcome> :: AtMostOne(p.body(h).Ops())
  }

  ghost predicate AtMostOne(ops: seq<Op>) {
    forall i, j :: 0 <= i < j < |ops| ==> NoUndo(ops[i]) || NoUndo(ops[j])
  }

  /** Two compensations of a batch belong to two of its operations. */
  lemma {:induction false} TwoOfABatch(ops: seq<Op>, base: nat, outcomes: seq<Outcome>)
    returns (i: nat, j: nat)
    requires |ops| == |outcomes| && |BatchComps(ops, base, outcomes)| >= 2
    ensures i < j < |ops| && CompOf(ops[i], base + i, outcomes[i]) != [] && CompOf(ops[j], base + j, outcomes[j]) != []
  {
    hide CompOf, BatchComps;
    var c, d := BatchComps(ops, base, outcomes)[0], BatchComps(ops, base, outcomes)[1];
    BatchAscends(ops, base, outcomes);
    BatchHolds(ops, base, outcomes, c);
    BatchHolds(ops, base, outcomes, d);
    i, j := c.opId - base, d.opId - base;
  }

  /** Every path of a body without gather, or with one compensated operation in each, is such a one. */
  lemma {:induction false} OneUndoIsLone(p: Program, h: seq<Outcome>, from: nat)
    requires (OneUndo(p) || Sequential(p)) && from <= |h| && IsPath(p.body, h, from)
    ensures LoneUndos(p.body, h, from)
    decreases |h| - from
  {
    hide IsPath, BatchComps, CompOf, AtMostOne;
    if from < |h| {
      PathHead(p.body, h, from);
      var ops := p.body(h[..from]).Ops();
      var outcomes := h[from..from + |ops|];
      if |BatchComps(ops, from, outcomes)| >= 2 {
        var i, j := TwoOfABatch(ops, from, outcomes);
        OnlyOne(p, h[..from], i, j);
        UndoLess(ops[i], from + i, outcomes[i]);
        UndoLess(ops[j], from + j, outcomes[j]);
      }
      OneUndoIsLone(p, h, from + |ops|);
    }
  }

  lemma {:induction false} OnlyOne(p: Program, h: seq<Outcome>, i: nat, j: nat)
    requires (OneUndo(p) || Sequential(p)) && i < j < |p.body(h).Ops()|
    ensures NoUndo(p.body(h).Ops()[i]) || NoUndo(p.body(h).Ops()[j])
  {
    hide NoUndo;
    assert Sequential(p) ==> |p.body(h).Ops()| <= 1;
    assert OneUndo(p) ==> AtMostOne(p.body(h).Ops());
  }

  lemma {:induction false} UndoLess(op: Op, id: nat, outcome: Outcome)
    ensures NoUndo(op) ==> CompOf(op, id, outcome) == []
  {
  }

  /** One more batch keeps the property exactly when it registers at most one. */
  lemma {:induction false} LoneExtend(b: Body, h: seq<Outcome>, from: nat, more: seq<Outcome>)
    requires from <= |h| && IsPath(b, h, from) && |more| == |b(h).Ops()| > 0 && IsPath(b, h + more, from)
    ensures LoneUndos(b, h + more, from) <==> LoneUndos(b, h, from) && |BatchComps(b(h).Ops(), |h|, more)| <= 1
    decreases |h| - from
  {
    hide IsPath, BatchComps;
    var g := h + more;
    assert g[..from] == h[..from];
    PathHead(b, g, from);
    if from == |h| {
      assert g[..from] == h && g[from..from + |more|] == more;
      assert LoneUndos(b, g, |g|);
    } else {
      PathHead(b, h, from);
      var n := |b(h[..from]).Ops()|;
      LoneExtend(b, h, from + n, more);
      assert g[from..from + n] == h[from..from + n];
    }
  }

  // ---- the registered compensations are in op order ----

  lemma {:induction false} BatchAscends(ops: seq<Op>, base: nat, outcomes: seq<Outcome>)
    requires |ops| == |outcomes|
    ensures Ascending(BatchComps(ops, base, outcomes))
    ensures forall c :: c in BatchComps(ops, base, outcomes) ==> base <= c.opId < base + |ops|
  {
    if ops != [] {
      BatchAscends(ops[1..], base + 1, outcomes[1..]);
      CompOfShape(ops[0], base, outcomes[0]);
      AscendingConcat(CompOf(ops[0], base, outcomes[0]), BatchComps(ops[1..], base + 1, outcomes[1..]), base + 1);
    }
  }

  lemma {:induction false} AscendingConcat(a: seq<Comp>, b: seq<Comp>, mid: nat)
    requires Ascending(a) && Ascending(b)
    requires forall c :: c in a ==> c.opId < mid
    requires forall c :: c in b ==> mid <= c.opId
    ensures Ascending(a + b)
  {
    var s := a + b;
    forall i, k | 0 <= i < k < |s|
      ensures s[i].opId < s[k].opId
    {
      if i < |a| <= k {
        assert s[i] in a && s[k] in b;
      }
    }
  }

  lemma {:induction false} CompsAscend(b: Body, h: seq<Outcome>, from: nat)
    requires from <= |h| && IsPath(b, h, from)
    ensures Ascending(Comps(b, h, from))
    decreases |h| - from
  {
    hide IsPath, BatchComps;
    if from < |h| {
      PathHead(b, h, from);
      var n := |b(h[..from]).Ops()|;
      CompsAscend(b, h, from + n);
      BatchAscends(b(h[..from]).Ops(), from, h[from..from + n]);
      forall c | c in Comps(b, h, from + n)
        ensures from + n <= c.opId
      {
        CompsMembers(b, h, from + n, c);
      }
      AscendingConcat(BatchComps(b(h[..from]).Ops(), from, h[from..from + n]), Comps(b, h, from + n), from + n);
    }
  }

  /** Op order is one order. */
  lemma {:induction false} AscendingIsUnique(a: seq<Comp>, b: seq<Comp>)
    requires Ascending(a) && Ascending(b) && forall c :: c in a <==> c in b
    ensures a == b
    decreases |a|
  {
    HasMember(a);
    HasMember(b);
    if a != [] && b != [] {
      assert a[0] in b && b[0] in a;
      assert a[0] == b[0];
      forall c
        ensures c in a[1..] <==> c in b[1..]
      {
        TailHolds(a, c);
        TailHolds(b, c);
      }
      AscendingIsUnique(a[1..], b[1..]);
      assert a == [a[0]] + a[1..] && b == [b[0]] + b[1..];
    }
  }

  lemma {:induction false} TailHolds(a: seq<Comp>, c: Comp)
    requires Ascending(a) && a != []
    ensures c in a[1..] <==> c in a && c != a[0]
  {
    if c in a && c != a[0] {
      var i :| 0 <= i < |a| && a[i] == c;
      assert a[1..][i - 1] == c;
    }
    if c in a[1..] {
      var i :| 0 <= i < |a[1..]| && a[1..][i] == c;
      assert a[i + 1] == c;
    }
  }

  /** Past a prefix, a stack holds nothing of it again. */
  lemma {:induction false} PastThePrefix(comps: seq<Comp>, stack: seq<Comp>)
    requires comps <= stack && forall i, j :: 0 <= i < j < |stack| ==> stack[i].opId != stack[j].opId
    ensures forall i :: |comps| <= i < |stack| ==> stack[i] in stack && stack[i] !in comps
  {
    forall i, k | 0 <= k < |comps| <= i < |stack|
      ensures stack[i] != comps[k]
    {
      assert stack[k] == comps[k];
    }
  }

  /** A stack that starts with all registered compensations holds nothing else. */
  lemma {:induction false} PrefixIsAll(comps: seq<Comp>, stack: seq<Comp>)
    requires Orders(stack, comps) && comps <= stack
    ensures stack == comps
  {
    assert |comps| < |stack| ==> stack[|comps|] in comps;
    PastThePrefix(comps, stack);
  }

  /** A body that is done has all its compensations on the stack, in op order. */
  lemma {:induction false} DoneInOrder(p: Program, journal: Log, F: seq<Outcome>, v: Driver, fair: bool)
    requires JournalOk(p, journal, F) && DriverOk(p, journal, F, v) && p.body(v.h).Ops() == []
    requires IsPath(p.body, F, 0) && IsPath(p.body, v.h, 0) && StackOk(p, v, fair)
    ensures v.h == F && v.returned == {}
    ensures fair || LoneUndos(p.body, F, 0) ==> v.stack == Comps(p.body, F, 0)
  {
    hide JournalOk, DriverOk, Comps, IsPath, Ascending, LoneUndos;
    DoneMeansFrontier(p, journal, F, v);
    CompsAscend(p.body, F, 0);
    if LoneUndos(p.body, F, 0) {
      PrefixIsAll(Comps(p.body, F, 0), v.stack);
    } else if fair {
      AscendingIsUnique(v.stack, Comps(p.body, F, 0));
    }
  }

  // ---- each act ----

  lemma {:induction false} DescendingAppend(journal: Log, e: Event)
    requires Descending(journal)
    requires IsOutcome(e) ==> forall i :: 0 <= i < |journal| && IsOutcome(journal[i]) ==> journal[i].opId > e.opId
    ensures Descending(journal + [e])
  {
  }

  /** With no compensation event and no terminal event everything is in order. */
  lemma {:induction false} OpenIsOrderly(p: Program, d: Durable, G: seq<Outcome>)
    requires IsPath(p.body, G, 0) && d.record.Running?
    requires forall id :: At(d.journal, UndoLane(id)) == []
    requires forall x :: x in At(d.journal, RunLane) ==> x.fact.Kind() !in TERMINAL_RUN_KINDS
    ensures Orderly(p, d, G)
  {
    hide IsPath, Comps, At, FailuresOf, Settled, Descending;
    NoOutcomes(d.journal);
  }

  lemma {:induction false} LiveInOrder(p: Program, s: State, F: seq<Outcome>, index: nat, w: World, lost: bool,
      s': State, G: seq<Outcome>, fair: bool)
    requires InvAt(p, s, F) && Next(p, s, Live(index, w, lost)) == Some(s')
    requires IsPath(p.body, F, 0) && IsPath(p.body, G, 0) && SagaOk(p, s, F, fair)
    requires s'.d.journal == s.d.journal ==> F == G
    ensures SagaOk(p, s', G, fair)
  {
    hide Recorded, Diverges, Opening, Progress, Definition, Touch, HasStarted, JournalOk, DriverOk, Orderly, StackOk,
        LoneUndos, LaneOf, IsPath, SignalsOk, RecordOk, SuccessorOk;
    var v := s.v.value;
    var op, id := p.body(v.h).Ops()[index], |v.h| + index;
    JournalPart(p, s, F);
    LiveMeansFrontier(p, s.d.journal, F, v, index);
    RecordUntouched(op, id, s.d, w);
    if s'.d.journal != s.d.journal {
      var e := s'.d.journal[|s.d.journal|];
      assert s'.d.journal == s.d.journal + [e];
      OpLaneOfFact(op, id, p.runId, At(s.d.journal, OpLane(id)), ConsumedSeqs(s.d.journal), s.d.inbox, w, e);
      AtAppend(s.d.journal, e);
      AwaitingIsOpen(p, s.d.journal, F);
      AwaitingIsRunning(p, s.d, F);
      OpenIsOrderly(p, s'.d, G);
    } else if fair || LoneUndos(p.body, F, 0) {
      OrderReadsTheJournal(p, s.d, F, s'.d);
    }
  }

  lemma {:induction false} RecordUntouched(op: Op, id: nat, d: Durable, w: World)
    ensures Touch(op, id, d, w).record == d.record && Touch(op, id, d, w).journal == d.journal
  {
  }

  lemma {:induction false} OrderReadsTheJournal(p: Program, d: Durable, F: seq<Outcome>, d': Durable)
    requires IsPath(p.body, F, 0) && Orderly(p, d, F) && d'.journal == d.journal && d'.record == d.record
    ensures Orderly(p, d', F)
  {
  }

  lemma {:induction false} BackInOrder(p: Program, s: State, F: seq<Outcome>, index: nat, s': State, fair: bool)
    requires (fair ==> InTurn(p, s, Back(index))) && Next(p, s, Back(index)) == Some(s')
    requires IsPath(p.body, F, 0) && SagaOk(p, s, F, fair)
    ensures SagaOk(p, s', F, fair)
  {
    hide Recorded, Diverges, Definition, HasStarted, Comps, CompOf, IsPath, Orderly, At, LoneUndos;
    var v, id := s.v.value, |s.v.value.h| + index;
    var outcome := Recorded(p.body(v.h).Ops()[index], id, At(s.d.journal, OpLane(id))).value;
    var more := CompOf(p.body(v.h).Ops()[index], id, outcome);
    CompOfShape(p.body(v.h).Ops()[index], id, outcome);
    if fair {
      if more == [] {
        assert v.stack + more == v.stack;
      } else {
        AscendingConcat(v.stack, more, id);
      }
    }
  }

  lemma {:induction false} JoinInOrder(p: Program, s: State, F: seq<Outcome>, s': State, fair: bool)
    requires InvAt(p, s, F) && Next(p, s, Join) == Some(s')
    requires IsPath(p.body, F, 0) && SagaOk(p, s, F, fair)
    ensures SagaOk(p, s', F, fair)
  {
    hide Recorded, Good, DriverOk, IsPath, Comps, Orderly, At, LoneUndos, BatchComps;
    JournalPart(p, s, F);
    JoinedStack(p, s.d.journal, F, s.v.value);
  }

  /** A batch that registered at most one compensation has put it last. */
  lemma {:induction false} JoinedStack(p: Program, journal: Log, F: seq<Outcome>, v: Driver)
    requires DriverOk(p, journal, F, v) && IsPath(p.body, v.h, 0)
    requires LoneUndos(p.body, v.h, 0) ==> Comps(p.body, v.h, 0) <= v.stack
    requires p.body(v.h).Ops() != [] && AllRecorded(p.body(v.h).Ops(), |v.h|, journal)
    requires forall i :: 0 <= i < |p.body(v.h).Ops()| ==> i in v.returned
    ensures var h := v.h + Outcomes(p.body(v.h).Ops(), |v.h|, journal);
            IsPath(p.body, h, 0) && (LoneUndos(p.body, h, 0) ==> Comps(p.body, h, 0) <= v.stack)
  {
    hide Recorded, Shape, CompOf, InBatch, IsPath, Comps, BatchComps, At, LoneUndos;
    var ops := p.body(v.h).Ops();
    var outs := Outcomes(ops, |v.h|, journal);
    PathExtend(p.body, v.h, 0, outs);
    LoneExtend(p.body, v.h, 0, outs);
    if LoneUndos(p.body, v.h + outs, 0) && BatchComps(ops, |v.h|, outs) != [] {
      var comps, c := Comps(p.body, v.h, 0), BatchComps(ops, |v.h|, outs)[0];
      JoinedBatch(ops, |v.h|, v.returned, journal, c);
      BatchHolds(ops, |v.h|, outs, c);
      CompsMembers(p.body, v.h, 0, c);
      forall x | x in v.stack
        ensures x in comps || x == c
      {
        JoinedBatch(ops, |v.h|, v.returned, journal, x);
      }
      NextOnStack(comps, v.stack, c);
      assert BatchComps(ops, |v.h|, outs) == [c];
    }
  }

  lemma {:induction false} NextOnStack(comps: seq<Comp>, stack: seq<Comp>, c: Comp)
    requires comps <= stack && c in stack && c !in comps && forall x :: x in stack ==> x in comps || x == c
    requires forall i, j :: 0 <= i < j < |stack| ==> stack[i].opId != stack[j].opId
    ensures comps + [c] <= stack
  {
    var at :| 0 <= at < |stack| && stack[at] == c;
    assert forall k :: 0 <= k < |comps| ==> stack[k] in comps;
    PastThePrefix(comps, stack);
    assert stack[|comps|] in stack;
  }

  /** The compensation to work on is the last unsettled one. */
  lemma {:induction false} NextUndoIsLast(stack: seq<Comp>, journal: Log)
    returns (at: nat)
    requires NextUndo(stack, journal).Some?
    ensures at < |stack| && stack[at] == NextUndo(stack, journal).value
    ensures forall k :: at < k < |stack| ==> Settled(At(journal, UndoLane(stack[k].opId)))
  {
    hide Settled;
    if !Settled(At(journal, UndoLane(stack[|stack| - 1].opId))) {
      at := |stack| - 1;
    } else {
      at := NextUndoIsLast(stack[..|stack| - 1], journal);
    }
  }

  /** A journaled outcome settles its compensation's lane. */
  lemma {:induction false} OutcomeSettles(journal: Log, i: nat)
    requires i < |journal| && IsOutcome(journal[i])
    ensures Settled(At(journal, UndoLane(journal[i].opId))) && At(journal, UndoLane(journal[i].opId)) != []
  {
    var e := journal[i];
    var lane, x := At(journal, UndoLane(e.opId)), Entry(e.fact, e.ts);
    LaneMembers(journal, UndoLane(e.opId), x);
    assert e in journal && LaneOf(e) == UndoLane(e.opId);
    var k :| 0 <= k < |lane| && lane[k] == x;
    if First(lane, e.fact.Kind()).None? {
      FirstMisses(lane, e.fact.Kind(), k);
    }
  }

  /** An append in the lane of the last unsettled compensation. */
  lemma {:induction false} UndoInOrder(p: Program, d: Durable, F: seq<Outcome>, at: nat, e: Event, d': Durable)
    requires Good(p, d, F) && p.body(F).Raise? && IsPath(p.body, F, 0) && Orderly(p, d, F)
    requires at < |Comps(p.body, F, 0)| && LaneOf(e) == UndoLane(Comps(p.body, F, 0)[at].opId)
    requires e.opId == Comps(p.body, F, 0)[at].opId && !Settled(At(d.journal, UndoLane(e.opId)))
    requires forall k :: at < k < |Comps(p.body, F, 0)| ==> Settled(At(d.journal, UndoLane(Comps(p.body, F, 0)[k].opId)))
    requires d'.journal == d.journal + [e] && d'.record == d.record
    ensures Orderly(p, d', F)
  {
    hide LaneOf, JournalOk, SignalsOk, RecordOk, SuccessorOk, Comps, FailuresOf, Settled, LastInFirstOut, Descending, IsPath;
    LastStaysFirst(p, d, F, at, e);
    UnsettledIsOpen(p, d, F, Comps(p.body, F, 0)[at]);
    AtAppend(d.journal, e);
    assert forall x :: x in At(d'.journal, RunLane) ==> !x.fact.RunFailed?;
  }

  lemma {:induction false} LastStaysFirst(p: Program, d: Durable, F: seq<Outcome>, at: nat, e: Event)
    requires JournalOk(p, d.journal, F) && IsPath(p.body, F, 0)
    requires LastInFirstOut(Comps(p.body, F, 0), d.journal) && Descending(d.journal)
    requires at < |Comps(p.body, F, 0)| && LaneOf(e) == UndoLane(Comps(p.body, F, 0)[at].opId)
    requires e.opId == Comps(p.body, F, 0)[at].opId
    requires !Settled(At(d.journal, UndoLane(e.opId)))
    requires forall k :: at < k < |Comps(p.body, F, 0)| ==> Settled(At(d.journal, UndoLane(Comps(p.body, F, 0)[k].opId)))
    ensures LastInFirstOut(Comps(p.body, F, 0), d.journal + [e]) && Descending(d.journal + [e])
  {
    hide Settled, PastOk, FrontOk, RunOk, EndOk, Numbered, UndoShape, Comps, LaneOf;
    var comps, journal := Comps(p.body, F, 0), d.journal;
    AtAppend(journal, e);
    CompsAscend(p.body, F, 0);
    var mine := comps[at];
    forall i, k | 0 <= i < k < |comps| && At(journal + [e], UndoLane(comps[i].opId)) != []
      ensures Settled(At(journal + [e], UndoLane(comps[k].opId)))
    {
      assert Settled(At(journal, UndoLane(comps[k].opId)));
      SettledStays(journal, e, comps[k].opId);
    }
    forall i | 0 <= i < |journal| && IsOutcome(journal[i])
      ensures journal[i].opId > e.opId
    {
      OutcomeSettles(journal, i);
      var c :| c in comps && c.opId == journal[i].opId;
      var k :| 0 <= k < |comps| && comps[k] == c;
      assert k != at;
      assert k < at ==> Settled(At(journal, UndoLane(mine.opId)));
    }
    DescendingAppend(journal, e);
  }

  lemma {:induction false} CompensateInOrder(p: Program, s: State, F: seq<Outcome>, w: World, lost: bool, s': State,
      fair: bool)
    requires InvAt(p, s, F) && Next(p, s, Compensate(w, lost)) == Some(s')
    requires IsPath(p.body, F, 0) && SagaOk(p, s, F, fair)
    ensures SagaOk(p, s', F, fair)
  {
    hide UndoProgress, HasStarted, JournalOk, RecordOk, SuccessorOk, SignalsOk, DriverOk, Comps, Settled, Orderly, LaneOf,
        IsPath, NextUndo, LoneUndos, StackOk, At;
    var v, journal := s.v.value, s.d.journal;
    JournalPart(p, s, F);
    DoneInOrder(p, journal, F, v, fair);
    if fair || LoneUndos(p.body, F, 0) {
      var at := NextUndoIsLast(v.stack, journal);
      var c := v.stack[at];
      if s'.d.journal != journal {
        var e := s'.d.journal[|journal|];
        assert s'.d.journal == journal + [e];
        UndoLaneOfFact(c.undo, At(journal, UndoLane(c.opId)), w, e);
        UndoInOrder(p, s.d, F, at, e, s'.d);
      } else {
        OrderReadsTheJournal(p, s.d, F, s'.d);
      }
    }
  }

  lemma {:induction false} ConcludeInOrder(p: Program, s: State, F: seq<Outcome>, now: Time, s': State, fair: bool)
    requires InvAt(p, s, F) && Next(p, s, Conclude(now)) == Some(s')
    requires IsPath(p.body, F, 0) && SagaOk(p, s, F, fair)
    ensures SagaOk(p, s', F, fair)
  {
    hide HasStarted, JournalOk, SignalsOk, SuccessorOk, RecordOk, DriverOk, Comps, FailuresOf, Settled, First,
        NextUndo, At, IsPath, LoneUndos, StackOk;
    var v, journal := s.v.value, s.d.journal;
    JournalPart(p, s, F);
    DoneInOrder(p, journal, F, v, fair);
    if s'.d.journal != journal {
      var comps, e := Comps(p.body, F, 0), s'.d.journal[|journal|];
      assert s'.d.journal == journal + [e];
      AtAppend(journal, e);
      if fair || LoneUndos(p.body, F, 0) { DescendingAppend(journal, e); }
      assert forall id :: At(s'.d.journal, UndoLane(id)) == At(journal, UndoLane(id));
      FailuresStable(comps, journal, s'.d.journal);
    }
  }

  lemma {:induction false} StartInOrder(p: Program, s: State, F: seq<Outcome>, now: Time, s': State, fair: bool)
    requires InvAt(p, s, F) && Next(p, s, Start(now)) == Some(s')
    requires IsPath(p.body, F, 0) && SagaOk(p, s, F, fair)
    ensures SagaOk(p, s', F, fair)
  {
    hide JournalOk, DriverOk, RecordOk, SuccessorOk, SignalsOk, HasStarted, Comps, IsPath, Orderly, StackOk, LoneUndos, At;
    JournalPart(p, s, F);
    NotStartedIsEmpty(p, s.d.journal, F);
    AtAppend(s.d.journal, Event(|s.d.journal|, -1, RunStarted(p.tags), now));
    NotStartedIsRunning(p, s.d, F);
    OpenIsOrderly(p, s'.d, F);
  }

  lemma {:induction false} NoComps(b: Body)
    ensures IsPath(b, [], 0) && Comps(b, [], 0) == []
  {
  }

  lemma {:induction false} OneActInOrder(p: Program, s: State, F: seq<Outcome>, act: Act, s': State, G: seq<Outcome>,
      fair: bool)
    requires (fair ==> InTurn(p, s, act)) && InvAt(p, s, F) && InvAt(p, s', G) && Next(p, s, act) == Some(s')
    requires IsPath(p.body, F, 0) && IsPath(p.body, G, 0) && SagaOk(p, s, F, fair)
    ensures SagaOk(p, s', G, fair)
  {
    hide InvAt, SagaOk, Next, LiveStep, ConcludeStep, CompensateStep, InTurn;
    if s'.d.journal == s.d.journal {
      SameFrontier(p, s, F, s', G);
    }
    match act
    case Live(index, w, lost) => LiveInOrder(p, s, F, index, w, lost, s', G, fair);
    case _ =>
      ActKeepsFrontier(p, s, F, act, s', G);
      QuietActInOrder(p, s, F, act, s', fair);
  }

  /** Only a live append can move the frontier. */
  lemma {:induction false} ActKeepsFrontier(p: Program, s: State, F: seq<Outcome>, act: Act, s': State, G: seq<Outcome>)
    requires InvAt(p, s, F) && InvAt(p, s', G) && Next(p, s, act) == Some(s') && !act.Live?
    ensures F == G
  {
    hide InvAt, Next;
    var H := NextKeepsFrontier(p, s, F, act, s');
    SameFrontier(p, s', H, s', G);
  }

  lemma {:induction false} NextKeepsFrontier(p: Program, s: State, F: seq<Outcome>, act: Act, s': State)
    returns (H: seq<Outcome>)
    requires InvAt(p, s, F) && Next(p, s, act) == Some(s') && !act.Live?
    ensures InvAt(p, s', H) && H == F
  {
    hide Good, DriverOk;
    H := F;
    match act
    case Boot => BootKeeps(p, s, F);
    case Crash =>
    case Start(now) => StartKeeps(p, s, F, now, s');
    case Deliver(name, payload) => DeliverKeeps(p, s, F, name, payload, s');
    case Acknowledge(seqNo) => AcknowledgeKeeps(p, s, F, seqNo, s');
    case Back(index) => BackKeeps(p, s, F, index, s');
    case Join => JoinKeeps(p, s, F, s');
    case Compensate(w, lost) => CompensateKeeps(p, s, F, w, lost, s');
    case Conclude(now) =>
      match p.body(s.v.value.h)
      case Return(_) => ReturnKeeps(p, s, F, now, s');
      case Raise(_) => RaiseKeeps(p, s, F, now, s');
      case ContinueAsNew(_) => ContinueKeeps(p, s, F, now, s');
  }

  lemma {:induction false} QuietActInOrder(p: Program, s: State, F: seq<Outcome>, act: Act, s': State, fair: bool)
    requires (fair ==> InTurn(p, s, act)) && InvAt(p, s, F) && Next(p, s, act) == Some(s') && !act.Live?
    requires IsPath(p.body, F, 0) && SagaOk(p, s, F, fair)
    ensures SagaOk(p, s', F, fair)
  {
    hide InvAt, Orderly, Recorded, CompensateStep, ConcludeStep, Comps, IsPath, InTurn, LoneUndos, At;
    match act
    case Boot => NoComps(p.body);
    case Crash =>
    case Start(now) => StartInOrder(p, s, F, now, s', fair);
    case Deliver(_, _) => if fair || LoneUndos(p.body, F, 0) { OrderReadsTheJournal(p, s.d, F, s'.d); }
    case Acknowledge(_) => if fair || LoneUndos(p.body, F, 0) { OrderReadsTheJournal(p, s.d, F, s'.d); }
    case Back(index) => BackInOrder(p, s, F, index, s', fair);
    case Join => JoinInOrder(p, s, F, s', fair);
    case Compensate(w, lost) => CompensateInOrder(p, s, F, w, lost, s', fair);
    case Conclude(now) => ConcludeInOrder(p, s, F, now, s', fair);
  }

  /** A rewind clears the compensation lanes and re-opens the run. */
  lemma {:induction false} RewindInOrder(p: Program, s: State, F: seq<Outcome>, turn: Turn, s': State, G: seq<Outcome>,
      fair: bool)
    requires InvAt(p, s, F) && turn.Rewinding? && Take(p, s, turn) == Some(s')
    requires IsPath(p.body, F, 0) && SagaOk(p, s, F, fair) && InvAt(p, s', G) && IsPath(p.body, G, 0)
    ensures SagaOk(p, s', G, fair)
  {
    hide Rewound, InvAt, Comps, CanRewind, FirstFailure, At, IsPath, AlreadyCompensated, GivenBack, Released, Orderly,
        LoneUndos, StackOk;
    var target := if turn.toOp.Some? then turn.toOp.value else FirstFailure(s.d.journal);
    if s' == s {
      SameFrontier(p, s, F, s', G);
    } else {
      JournalPart(p, s, F);
      RewoundIsReopened(p, s.d.journal, F, target, turn.now);
      OpenIsOrderly(p, s'.d, G);
    }
  }

  lemma {:induction false} RewoundIsReopened(p: Program, journal: Log, F: seq<Outcome>, toOp: nat, now: Time)
    requires JournalOk(p, journal, F)
    ensures forall id :: At(Rewound(journal, toOp, now), UndoLane(id)) == []
    ensures forall x :: x in At(Rewound(journal, toOp, now), RunLane) ==> x.fact.Kind() !in TERMINAL_RUN_KINDS
  {
    hide Rewound, At, RunOk, PastOk, FrontOk, UndoOk, EndOk;
    RewoundRunOk(p, journal, toOp, now);
    RewoundLanes(journal, toOp, now);
  }

  lemma {:induction false} NoOutcomes(journal: Log)
    requires forall id :: At(journal, UndoLane(id)) == []
    ensures Descending(journal)
  {
    forall i | 0 <= i < |journal|
      ensures !IsOutcome(journal[i])
    {
      if IsOutcome(journal[i]) {
        OutcomeSettles(journal, i);
      }
    }
  }

  lemma {:induction false} TurnsInOrder(p: Program, s: State, F: seq<Outcome>, turns: seq<Turn>, s': State, fair: bool)
    returns (G: seq<Outcome>)
    requires (fair ==> AllFair(p, s, turns)) && RunInv(p, s, F) && Play(p, s, turns) == Some(s')
    requires IsPath(p.body, F, 0) && SagaOk(p, s, F, fair)
    ensures InvAt(p, s', G) && IsPath(p.body, G, 0) && SagaOk(p, s', G, fair)
    decreases |turns|
  {
    hide InvAt, Next, SagaOk, CanRewind, SignalOrder, InTurn;
    G := F;
    if turns != [] {
      var mid := Take(p, s, turns[0]).value;
      var H := TakeKeeps(p, s, F, turns[0], mid);
      JournalPart(p, mid, H);
      PathOf(p, mid.d.journal, H);
      match turns[0] {
        case Work(act) => OneActInOrder(p, s, F, act, mid, H, fair);
        case Rewinding(_, _, _) => RewindInOrder(p, s, F, turns[0], mid, H, fair);
      }
      G := TurnsInOrder(p, mid, H, turns[1..], s', fair);
    }
  }

  /** Code that starts or takes over a run finds no compensation under way. */
  lemma {:induction false} OriginInOrder(p: Program, life: Life, F: seq<Outcome>, fair: bool)
    requires Origin(p, life).Some? && IsPath(p.body, F, 0)
    ensures SagaOk(p, Origin(p, life).value, F, fair)
  {
    hide Play, IsPath, Rewound, CanRewind, FirstFailure, At, AlreadyCompensated, GivenBack, Released, AgreeAlong,
        RunInv, Orderly, LoneUndos, StackOk;
    var start := Origin(p, life).value;
    match life {
      case Born => EmptyIsOpen();
      case Patched(before, past, turns, toOp, force, now) =>
        var H := OriginIsRunInv(past, before);
        var s := Play(past, Origin(past, before).value, turns).value;
        var G := PlayKeeps(past, Origin(past, before).value, H, turns, s);
        RunInvJournal(past, s, G);
        RewoundIsReopened(past, s.d.journal, G, Target(s.d.journal, toOp), now);
    }
    OpenIsOrderly(p, start.d, F);
  }

  lemma {:induction false} EmptyIsOpen()
    ensures forall lane :: At([], lane) == []
  {
  }

  lemma {:induction false} RunInvJournal(p: Program, s: State, F: seq<Outcome>)
    requires RunInv(p, s, F)
    ensures JournalOk(p, s.d.journal, F)
  {
    hide JournalOk;
  }

  /** What every reachable state satisfies; with `fair`, what every fairly reached one does. */
  lemma {:induction false} ReachableIsSagaOk(p: Program, s: State, fair: bool)
    returns (F: seq<Outcome>)
    requires Reachable(p, s) && (fair ==> FairlyReached(p, s))
    ensures InvAt(p, s, F) && IsPath(p.body, F, 0) && F == Replay(p.body, s.d.journal, [])
    ensures SagaOk(p, s, F, fair)
  {
    hide Good, Play, Replay, Origin, SagaOk, IsPath, AllFair, DriverOk, RunInv;
    var life, turns :| Origin(p, life).Some? && Play(p, Origin(p, life).value, turns) == Some(s) &&
                       (fair ==> AllFair(p, Origin(p, life).value, turns));
    var start := Origin(p, life).value;
    var H := OriginIsRunInv(p, life);
    IsPathOf(p, start, H);
    OriginInOrder(p, life, H, fair);
    F := TurnsInOrder(p, start, H, turns, s, fair);
    assert IsPath(p.body, [], 0) by { NoComps(p.body); }
    JournalPart(p, s, F);
    ReplayReachesFrontier(p, s.d.journal, F, []);
  }

  // ---- the saga theorem ----

  /** Compensations run last-in first-out, and a failed run lists its failures in that order: under every
      schedule of crashes and rewinds where each batch registered at most one compensation, and otherwise
      while the compensated operations of a gather come back in turn. */
  lemma {:induction false} SagaRunsBackwards(p: Program, s: State)
    returns (F: seq<Outcome>)
    requires Reachable(p, s)
    ensures F == Replay(p.body, s.d.journal, []) && IsPath(p.body, F, 0)
    ensures FairlyReached(p, s) || LoneUndos(p.body, F, 0) ==>
              LastInFirstOut(Comps(p.body, F, 0), s.d.journal) && Descending(s.d.journal) && ExactFailures(p, s.d, F)
  {
    hide InvAt, Replay, IsPath, Comps, FairlyReached, Reachable, LoneUndos, StackOk, LastInFirstOut, Descending, ExactFailures;
    F := ReachableIsSagaOk(p, s, false);
    if FairlyReached(p, s) {
      F := ReachableIsSagaOk(p, s, true);
    }
  }

  /** A failed run has compensated exactly the operations that came back with a registered compensation,
      under every schedule. Its status says whether any of them failed permanently, and its list names
      exactly those; where the compensations ran last-in first-out, last registered first. */
  lemma {:induction false} SagaIsComplete(p: Program, s: State)
    returns (F: seq<Outcome>)
    requires Reachable(p, s) && (s.d.record.Failed? || s.d.record.CompensationFailed?)
    ensures F == Replay(p.body, s.d.journal, []) && IsPath(p.body, F, 0)
    ensures forall id :: At(s.d.journal, UndoLane(id)) != [] <==> exists c :: c in Comps(p.body, F, 0) && c.opId == id
    ensures forall c :: c in Comps(p.body, F, 0) ==> Settled(At(s.d.journal, UndoLane(c.opId)))
    ensures var failures := FailuresOf(Comps(p.body, F, 0), s.d.journal);
            if failures == [] then s.d.record == Failed(s.d.record.error, Comps(p.body, F, 0) != [])
            else && s.d.record.CompensationFailed? && multiset(s.d.record.failures) == multiset(failures)
                 && (FairlyReached(p, s) || LoneUndos(p.body, F, 0) ==> s.d.record.failures == failures)
  {
    hide Replay, Comps, FailuresOf, DriverOk, SignalsOk, PastOk, FrontOk, RunOk, Numbered, Settled, LastInFirstOut,
        Descending, UndoShape, Reachable, FairlyReached, LoneUndos, IsPath;
    F := SagaRunsBackwards(p, s);
    var G := ReachableIsInvariant(p, s);
    FailedIsSettled(p, s.d.journal, F);
    forall c | c in Comps(p.body, F, 0)
      ensures At(s.d.journal, UndoLane(c.opId)) != []
    {
      SettledHasEvents(At(s.d.journal, UndoLane(c.opId)));
    }
    CompsOrderThemselves(p, s.d.journal, F);
    FailureListsAgree(p, s.d.journal, F, FailuresOf(Comps(p.body, F, 0), s.d.journal),
                      if s.d.record.Failed? then [] else s.d.record.failures);
  }

  lemma {:induction false} CompsOrderThemselves(p: Program, journal: Log, F: seq<Outcome>)
    requires IsPath(p.body, F, 0)
    ensures FailureList(p, journal, F, FailuresOf(Comps(p.body, F, 0), journal))
  {
    hide Comps, IsPath, FailuresOf;
    CompsAscend(p.body, F, 0);
    assert Orders(Comps(p.body, F, 0), Comps(p.body, F, 0));
  }

  lemma {:induction false} SettledHasEvents(lane: seq<Entry>)
    requires Settled(lane)
    ensures lane != []
  {
  }
}
