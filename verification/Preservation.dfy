/** Every act of the engine keeps the invariant. */
module Preservation {
  import opened Wrappers
  import opened Events
  import opened Engine
  import opened Lanes
  import opened Paths
  import opened Invariant

  // ---- appends by live operations ----

  /** While the body awaits, no compensation has run and no terminal event is journaled. */
  lemma {:induction false} AwaitingIsOpen(p: Program, journal: Log, F: seq<Outcome>)
    requires JournalOk(p, journal, F) && p.body(F).Await?
    ensures forall id :: At(journal, UndoLane(id)) == []
    ensures forall x :: x in At(journal, RunLane) ==> x.fact.Kind() !in TERMINAL_RUN_KINDS
  {
    hide Shape, Recorded, Comps, UndoShape;
  }

  /** With nothing but a started run and no terminal event, the run-level clauses hold at any path. */
  lemma {:induction false} OpenRunIsOk(p: Program, journal: Log, G: seq<Outcome>)
    requires IsPath(p.body, G, 0)
    requires forall id :: At(journal, UndoLane(id)) == []
    requires forall x :: x in At(journal, RunLane) ==> x.fact.Kind() !in TERMINAL_RUN_KINDS
    ensures UndoOk(p, journal, G) && EndOk(p, journal, G)
  {
  }

  lemma {:induction false} NumberedAppend(journal: Log, e: Event)
    requires Numbered(journal) && e.seqNo == |journal| && e.opId >= -1
    ensures Numbered(journal + [e])
  {
  }

  /** Events of the front batch leave everything below the frontier as it was. */
  lemma {:induction false} PastKeeps(p: Program, journal: Log, F: seq<Outcome>, e: Event)
    requires PastOk(p, journal, F)
    requires LaneOf(e).OpLane? ==> LaneOf(e).id >= |F|
    ensures PastOk(p, journal + [e], F)
  {
    hide Shape, Recorded;
    AtAppend(journal, e);
    forall id | 0 <= id < |F|
      ensures Shape(OpAt(p.body, F, 0, id), At(journal + [e], OpLane(id))) == true
      ensures Recorded(OpAt(p.body, F, 0, id), id, At(journal + [e], OpLane(id))) == Some(F[id])
    {
      assert At(journal + [e], OpLane(id)) == At(journal, OpLane(id));
    }
  }

  /** A batch whose operations are all recorded moves the frontier past it. */
  lemma {:induction false} FrontierMoves(p: Program, journal: Log, F: seq<Outcome>)
    requires PastOk(p, journal, F)
    requires p.body(F).Ops() != [] && AllRecorded(p.body(F).Ops(), |F|, journal)
    requires forall i :: 0 <= i < |p.body(F).Ops()| ==> Shape(p.body(F).Ops()[i], At(journal, OpLane(|F| + i)))
    requires forall id :: |F| + |p.body(F).Ops()| <= id ==> At(journal, OpLane(id)) == []
    ensures PastOk(p, journal, F + Outcomes(p.body(F).Ops(), |F|, journal))
    ensures FrontOk(p, journal, F + Outcomes(p.body(F).Ops(), |F|, journal))
  {
    hide Shape, Recorded;
    var ops := p.body(F).Ops();
    var outs := Outcomes(ops, |F|, journal);
    var G := F + outs;
    PathExtend(p.body, F, 0, outs);
    forall id | 0 <= id < |G|
      ensures Shape(OpAt(p.body, G, 0, id), At(journal, OpLane(id))) == true
      ensures Recorded(OpAt(p.body, G, 0, id), id, At(journal, OpLane(id))) == Some(G[id])
    {
      if id >= |F| {
        assert OpAt(p.body, G, 0, |F| + (id - |F|)) == ops[id - |F|];
        assert id == |F| + (id - |F|);
        assert Shape(ops[id - |F|], At(journal, OpLane(|F| + (id - |F|))));
        assert outs[id - |F|] == G[id];
      } else {
        assert OpAt(p.body, G, 0, id) == OpAt(p.body, F, 0, id);
      }
    }
    NewFrontIsEmpty(p, journal, G);
  }

  lemma {:induction false} NewFrontIsEmpty(p: Program, journal: Log, G: seq<Outcome>)
    requires forall id :: |G| <= id ==> At(journal, OpLane(id)) == []
    ensures FrontOk(p, journal, G)
  {
    hide Shape, Recorded;
    var next := p.body(G).Ops();
    forall i | 0 <= i < |next|
      ensures Shape(next[i], At(journal, OpLane(|G| + i))) == true
      ensures Recorded(next[i], |G| + i, At(journal, OpLane(|G| + i))).None?
    {
      NothingRecorded(next[i], |G| + i);
    }
    if next != [] {
      assert Recorded(next[0], |G| + 0, At(journal, OpLane(|G| + 0))).None?;
    }
  }

  /** Below the run level an append leaves the run-level events alone. */
  lemma {:induction false} RunKeeps(p: Program, journal: Log, e: Event)
    requires RunOk(p, journal) && HasStarted(journal) && LaneOf(e) != RunLane
    ensures RunOk(p, journal + [e]) && HasStarted(journal + [e])
    ensures At(journal + [e], RunLane) == At(journal, RunLane)
  {
    AtAppend(journal, e);
  }

  lemma {:induction false} StartedStays(journal: Log, e: Event)
    requires HasStarted(journal)
    ensures HasStarted(journal + [e])
  {
    AtAppend(journal, e);
    FirstSnoc(At(journal, RunLane), Entry(e.fact, e.ts), RUN_STARTED);
  }

  /** A live append at the frontier leaves the other operations of the batch alone. */
  lemma {:induction false} FrontKeeps(p: Program, journal: Log, F: seq<Outcome>, index: nat, e: Event)
    requires FrontOk(p, journal, F) && index < |p.body(F).Ops()|
    requires LaneOf(e) == OpLane(|F| + index)
    requires Shape(p.body(F).Ops()[index], At(journal, OpLane(|F| + index)) + [Entry(e.fact, e.ts)])
    ensures forall i :: 0 <= i < |p.body(F).Ops()| ==> Shape(p.body(F).Ops()[i], At(journal + [e], OpLane(|F| + i)))
    ensures forall id :: |F| + |p.body(F).Ops()| <= id ==> At(journal + [e], OpLane(id)) == []
    ensures forall id :: At(journal + [e], UndoLane(id)) == At(journal, UndoLane(id))
  {
    hide Shape, Recorded;
    AtAppend(journal, e);
    var ops := p.body(F).Ops();
    forall i | 0 <= i < |ops|
      ensures Shape(ops[i], At(journal + [e], OpLane(|F| + i))) == true
    {
      if i != index {
        assert At(journal + [e], OpLane(|F| + i)) == At(journal, OpLane(|F| + i));
      }
    }
  }

  /** A live append at the frontier keeps the journal well formed; the frontier moves when it
      completes the batch. */
  lemma {:induction false} LiveAppend(p: Program, journal: Log, F: seq<Outcome>, index: nat, used: set<nat>,
      inbox: seq<Signal>,
                   w: World, e: Event)
    returns (G: seq<Outcome>)
    requires JournalOk(p, journal, F) && HasStarted(journal)
    requires index < |p.body(F).Ops()|
    requires Recorded(p.body(F).Ops()[index], |F| + index, At(journal, OpLane(|F| + index))).None?
    requires e.seqNo == |journal| && e.opId == |F| + index && e.ts == w.now + w.took
    requires LaneOf(e) == OpLane(e.opId)
    requires Some(e.fact) ==
      if Definition(At(journal, OpLane(e.opId))).None? then Some(Opening(p.body(F).Ops()[index], e.opId, p.runId, w))
      else Progress(p.body(F).Ops()[index], At(journal, OpLane(e.opId)), used, inbox, w)
    ensures JournalOk(p, journal + [e], G)
    ensures |F| <= |G| && F == G[..|F|]
    ensures G == F || (AllRecorded(p.body(F).Ops(), |F|, journal + [e]) && G == F + Outcomes(p.body(F).Ops(), |F|, journal + [e]))
  {
    hide Shape, Recorded, Opening, Progress, LaneOf, UndoOk, EndOk;
    var ops := p.body(F).Ops();
    LiveKeepsShape(ops[index], e.opId, p.runId, At(journal, OpLane(e.opId)), used, inbox, w, e.fact);
    FrontKeeps(p, journal, F, index, e);
    NumberedAppend(journal, e);
    PastKeeps(p, journal, F, e);
    RunKeeps(p, journal, e);
    AwaitingIsOpen(p, journal, F);
    if AllRecorded(ops, |F|, journal + [e]) {
      G := F + Outcomes(ops, |F|, journal + [e]);
      FrontierMoves(p, journal + [e], F);
    } else {
      G := F;
    }
    OpenRunIsOk(p, journal + [e], G);
  }

  // ---- signals ----

  /** A consumption is journaled for the first signal of its name that nothing has consumed. */
  lemma {:induction false} ConsumptionIsNext(op: Op, id: nat, runId: string, lane: seq<Entry>, used: set<nat>,
      inbox: seq<Signal>, w: World, fact: Fact)
    requires fact.EventConsumed?
    requires Some(fact) ==
      if Definition(lane).None? then Some(Opening(op, id, runId, w)) else Progress(op, lane, used, inbox, w)
    ensures NextUnconsumed(inbox, fact.name, used, 0) == Some(fact.signalSeq)
    ensures fact.payload == inbox[fact.signalSeq].payload
  {
  }

  lemma {:induction false} SignalsAppend(d: Durable, e: Event)
    requires SignalsOk(d)
    requires e.fact.EventConsumed? ==>
      && NextUnconsumed(d.inbox, e.fact.name, ConsumedSeqs(d.journal), 0) == Some(e.fact.signalSeq)
      && e.fact.payload == d.inbox[e.fact.signalSeq].payload
    ensures SignalsOk(d.(journal := d.journal + [e]))
  {
    ConsumedSeqsAppend(d.journal, e);
    if e.fact.EventConsumed? {
      forall i | 0 <= i < |d.journal| && d.journal[i].fact.EventConsumed?
        ensures d.journal[i].fact.signalSeq in ConsumedSeqs(d.journal)
      {
      }
    }
  }

  // ---- live actions ----

  /** While the body awaits, the record is still running and no successor exists. */
  lemma {:induction false} AwaitingIsRunning(p: Program, d: Durable, F: seq<Outcome>)
    requires Good(p, d, F) && p.body(F).Await?
    ensures d.record.Running? && d.successor.None?
  {
    hide JournalOk, SignalsOk, Comps, FailureList;
  }

  /** The driver's view of its batch survives an append for an operation that had no outcome. */
  lemma {:induction false} DriverKeeps(p: Program, journal: Log, F: seq<Outcome>, v: Driver, index: nat, e: Event,
      G: seq<Outcome>)
    requires DriverOk(p, journal, F, v) && |F| <= |G| && F == G[..|F|]
    requires index < |p.body(v.h).Ops()|
    requires Recorded(p.body(v.h).Ops()[index], |v.h| + index, At(journal, OpLane(|v.h| + index))).None?
    requires LaneOf(e) == OpLane(|v.h| + index)
    ensures DriverOk(p, journal + [e], G, v)
  {
    hide Recorded, Shape, LaneOf, CompOf, IsPath, Comps, At;
    AtAppend(journal, e);
    var ops, base := p.body(v.h).Ops(), |v.h|;
    assert index !in v.returned;
    assert forall i :: i in v.returned ==> At(journal + [e], OpLane(base + i)) == At(journal, OpLane(base + i));
    forall c
      ensures InBatch(ops, base, v.returned, journal, c) <==> InBatch(ops, base, v.returned, journal + [e], c)
    {
      BatchUnchanged(ops, base, v.returned, journal, journal + [e], c);
      BatchUnchanged(ops, base, v.returned, journal + [e], journal, c);
    }
  }

  lemma {:induction false} BatchUnchanged(ops: seq<Op>, base: nat, returned: set<nat>, j: Log, k: Log, c: Comp)
    requires forall i :: i in returned ==> At(j, OpLane(base + i)) == At(k, OpLane(base + i))
    ensures InBatch(ops, base, returned, j, c) ==> InBatch(ops, base, returned, k, c)
  {
    hide Recorded, CompOf;
    if InBatch(ops, base, returned, j, c) {
      var i :| i in returned && i < |ops| && Recorded(ops[i], base + i, At(j, OpLane(base + i))).Some? &&
               c in CompOf(ops[i], base + i, Recorded(ops[i], base + i, At(j, OpLane(base + i))).value);
      assert At(j, OpLane(base + i)) == At(k, OpLane(base + i));
    }
  }

  /** Changes of the world's memory and of the stored tags are not the invariant's concern. */
  lemma {:induction false} TouchKeeps(p: Program, d: Durable, F: seq<Outcome>, op: Op, id: nat, w: World)
    requires Good(p, d, F)
    ensures Good(p, Touch(op, id, d, w), F)
    ensures Touch(op, id, d, w).journal == d.journal && Touch(op, id, d, w).inbox == d.inbox
  {
    hide JournalOk, Invocation;
  }

  lemma {:induction false} OpLaneOfFact(op: Op, id: nat, runId: string, lane: seq<Entry>, used: set<nat>,
      inbox: seq<Signal>, w: World, e: Event)
    requires e.opId == id
    requires Some(e.fact) ==
      if Definition(lane).None? then Some(Opening(op, id, runId, w)) else Progress(op, lane, used, inbox, w)
    ensures LaneOf(e) == OpLane(id)
  {
  }

  /** What a live append at the frontier does to the state. */
  lemma {:induction false} LiveAppendKeeps(p: Program, s: State, F: seq<Outcome>, index: nat, w: World, fact: Fact,
      s': State)
    returns (G: seq<Outcome>)
    requires InvAt(p, s, F) && s.v.Some? && s.v.value.h == F && HasStarted(s.d.journal)
    requires index < |p.body(F).Ops()|
    requires Recorded(p.body(F).Ops()[index], |F| + index, At(s.d.journal, OpLane(|F| + index))).None?
    requires Some(fact) ==
      if Definition(At(s.d.journal, OpLane(|F| + index))).None?
      then Some(Opening(p.body(F).Ops()[index], |F| + index, p.runId, w))
      else Progress(p.body(F).Ops()[index], At(s.d.journal, OpLane(|F| + index)), ConsumedSeqs(s.d.journal), s.d.inbox, w)
    requires s' == State(Append(Touch(p.body(F).Ops()[index], |F| + index, s.d, w), |F| + index, fact, w.now + w.took), s.v)
    ensures InvAt(p, s', G) && |F| <= |G| && F == G[..|F|]
  {
    hide Recorded, Shape, Opening, Progress, LaneOf, Definition, Touch, JournalOk, DriverOk, SignalsOk;
    var op, id := p.body(F).Ops()[index], |F| + index;
    var lane, d := At(s.d.journal, OpLane(id)), Touch(op, id, s.d, w);
    var e := Event(|s.d.journal|, id, fact, w.now + w.took);
    TouchKeeps(p, s.d, F, op, id, w);
    AwaitingIsRunning(p, d, F);
    OpLaneOfFact(op, id, p.runId, lane, ConsumedSeqs(s.d.journal), s.d.inbox, w, e);
    G := LiveAppend(p, s.d.journal, F, index, ConsumedSeqs(s.d.journal), s.d.inbox, w, e);
    if fact.EventConsumed? {
      ConsumptionIsNext(op, id, p.runId, lane, ConsumedSeqs(s.d.journal), s.d.inbox, w, fact);
    }
    SignalsAppend(d, e);
    DriverKeeps(p, s.d.journal, F, s.v.value, index, e, G);
    PathOf(p, s'.d.journal, G);
  }

  lemma {:induction false} PathOf(p: Program, journal: Log, F: seq<Outcome>)
    requires JournalOk(p, journal, F)
    ensures IsPath(p.body, F, 0)
  {
  }

  lemma {:induction false} LiveKeeps(p: Program, s: State, F: seq<Outcome>, index: nat, w: World, lost: bool, s': State)
    returns (G: seq<Outcome>)
    requires InvAt(p, s, F) && Next(p, s, Live(index, w, lost)) == Some(s')
    ensures InvAt(p, s', G) && |F| <= |G| && F == G[..|F|]
  {
    hide Recorded, Shape, Opening, Progress, LaneOf, Definition, Touch, DriverOk, Good;
    var v := s.v.value;
    var op, id := p.body(v.h).Ops()[index], |v.h| + index;
    var lane := At(s.d.journal, OpLane(id));
    JournalPart(p, s, F);
    LiveMeansFrontier(p, s.d.journal, F, v, index);
    assert v.h == F;
    TouchKeeps(p, s.d, F, op, id, w);
    var fact :=
      if Definition(lane).None? then Some(Opening(op, id, p.runId, w))
      else Progress(op, lane, ConsumedSeqs(s.d.journal), s.d.inbox, w);
    if fact.Some? && !lost {
      G := LiveAppendKeeps(p, s, F, index, w, fact.value, s');
    } else {
      G := F;
    }
  }

  lemma {:induction false} JournalPart(p: Program, s: State, F: seq<Outcome>)
    requires InvAt(p, s, F)
    ensures JournalOk(p, s.d.journal, F)
  {
  }

  // ---- resuming ----

  lemma {:induction false} BootKeeps(p: Program, s: State, F: seq<Outcome>)
    requires InvAt(p, s, F)
    ensures InvAt(p, State(s.d, Some(Driver([], {}, []))), F)
  {
    hide Good;
    BootedDriver(p, s.d.journal, F);
  }

  lemma {:induction false} BootedDriver(p: Program, journal: Log, F: seq<Outcome>)
    ensures DriverOk(p, journal, F, Driver([], {}, []))
  {
    hide Recorded, CompOf;
    assert IsPath(p.body, [], 0);
    assert Comps(p.body, [], 0) == [];
  }

  /** The stack entries of the current history and batch, and the one an operation adds. */
  lemma {:induction false} BackStack(p: Program, journal: Log, F: seq<Outcome>, v: Driver, index: nat, outcome: Outcome)
    requires DriverOk(p, journal, F, v) && index < |p.body(v.h).Ops()| && index !in v.returned
    requires Recorded(p.body(v.h).Ops()[index], |v.h| + index, At(journal, OpLane(|v.h| + index))) == Some(outcome)
    ensures var stack, batch := v.stack + CompOf(p.body(v.h).Ops()[index], |v.h| + index, outcome), v.returned + {index};
            && (forall c :: c in stack <==> c in Comps(p.body, v.h, 0) || InBatch(p.body(v.h).Ops(), |v.h|, batch, journal, c))
            && (forall i, j :: 0 <= i < j < |stack| ==> stack[i].opId != stack[j].opId)
  {
    hide Recorded, Shape, CompOf, InBatch, IsPath, Comps;
    var ops, id := p.body(v.h).Ops(), |v.h| + index;
    var more := CompOf(ops[index], id, outcome);
    CompOfShape(ops[index], id, outcome);
    forall c
      ensures c in v.stack + more <==> c in Comps(p.body, v.h, 0) || InBatch(ops, |v.h|, v.returned + {index}, journal, c)
    {
      BatchGrows(ops, |v.h|, v.returned, index, journal, c);
    }
    forall c | c in v.stack
      ensures c.opId != id
    {
      CompsMembers(p.body, v.h, 0, c);
      BatchIds(ops, |v.h|, v.returned, journal, c);
    }
  }

  /** An operation that comes back registers its compensation once. */
  lemma {:induction false} BackKeeps(p: Program, s: State, F: seq<Outcome>, index: nat, s': State)
    requires InvAt(p, s, F) && Next(p, s, Back(index)) == Some(s')
    ensures InvAt(p, s', F)
  {
    hide Recorded, Shape, Good, Diverges, CompOf, DriverOk, IsPath, Comps, HasStarted;
    BackKeepsDriver(p, s.d.journal, F, s.v.value, index);
  }

  lemma {:induction false} BackKeepsDriver(p: Program, journal: Log, F: seq<Outcome>, v: Driver, index: nat)
    requires DriverOk(p, journal, F, v) && index < |p.body(v.h).Ops()| && index !in v.returned
    requires Recorded(p.body(v.h).Ops()[index], |v.h| + index, At(journal, OpLane(|v.h| + index))).Some?
    ensures var op, id := p.body(v.h).Ops()[index], |v.h| + index;
            var outcome := Recorded(op, id, At(journal, OpLane(id))).value;
            DriverOk(p, journal, F, v.(returned := v.returned + {index}, stack := v.stack + CompOf(op, id, outcome)))
  {
    hide Recorded, Shape, CompOf, InBatch, IsPath, Comps;
    var op, id := p.body(v.h).Ops()[index], |v.h| + index;
    BackStack(p, journal, F, v, index, Recorded(op, id, At(journal, OpLane(id))).value);
  }

  lemma {:induction false} CompOfShape(op: Op, id: nat, outcome: Outcome)
    ensures |CompOf(op, id, outcome)| <= 1
    ensures forall c :: c in CompOf(op, id, outcome) ==> c.opId == id
  {
  }

  lemma {:induction false} BatchIds(ops: seq<Op>, base: nat, returned: set<nat>, journal: Log, c: Comp)
    ensures InBatch(ops, base, returned, journal, c) ==> c.opId >= base && c.opId - base in returned
  {
    if InBatch(ops, base, returned, journal, c) {
      hide Recorded;
      var i :| i in returned && i < |ops| && Recorded(ops[i], base + i, At(journal, OpLane(base + i))).Some? &&
               c in CompOf(ops[i], base + i, Recorded(ops[i], base + i, At(journal, OpLane(base + i))).value);
      CompOfShape(ops[i], base + i, Recorded(ops[i], base + i, At(journal, OpLane(base + i))).value);
    }
  }

  lemma {:induction false} BatchGrows(ops: seq<Op>, base: nat, returned: set<nat>, index: nat, journal: Log, c: Comp)
    requires index < |ops| && Recorded(ops[index], base + index, At(journal, OpLane(base + index))).Some?
    ensures InBatch(ops, base, returned + {index}, journal, c) <==>
            || InBatch(ops, base, returned, journal, c)
            || c in CompOf(ops[index], base + index, Recorded(ops[index], base + index, At(journal, OpLane(base + index))).value)
  {
    hide Recorded, CompOf;
  }

  /** The body moves on with exactly the outcomes the frontier holds for its batch. */
  lemma {:induction false} JoinKeeps(p: Program, s: State, F: seq<Outcome>, s': State)
    requires InvAt(p, s, F) && Next(p, s, Join) == Some(s')
    ensures InvAt(p, s', F)
  {
    hide Recorded, Good, IsPath, Comps, JournalOk, DriverOk;
    JournalPart(p, s, F);
    JoinKeepsDriver(p, s.d.journal, F, s.v.value);
  }

  lemma {:induction false} JoinKeepsDriver(p: Program, journal: Log, F: seq<Outcome>, v: Driver)
    requires JournalOk(p, journal, F) && DriverOk(p, journal, F, v)
    requires p.body(v.h).Ops() != [] && AllRecorded(p.body(v.h).Ops(), |v.h|, journal)
    requires forall i :: 0 <= i < |p.body(v.h).Ops()| ==> i in v.returned
    ensures DriverOk(p, journal, F, Driver(v.h + Outcomes(p.body(v.h).Ops(), |v.h|, journal), {}, v.stack))
  {
    hide Recorded, Shape, CompOf, InBatch, IsPath, Comps, BatchComps, JournalOk;
    var ops, base := p.body(v.h).Ops(), |v.h|;
    var outs := Outcomes(ops, base, journal);
    var v' := Driver(v.h + outs, {}, v.stack);
    JoinFollows(p, journal, F, v.h);
    PathExtend(p.body, v.h, 0, outs);
    forall c
      ensures c in v'.stack <==> c in Comps(p.body, v'.h, 0)
    {
      JoinedBatch(ops, base, v.returned, journal, c);
    }
    forall c
      ensures !InBatch(p.body(v'.h).Ops(), |v'.h|, {}, journal, c)
    {
      BatchIds(p.body(v'.h).Ops(), |v'.h|, {}, journal, c);
    }
  }

  /** A fully recorded batch lies below the frontier, and its outcomes are the frontier's. */
  lemma {:induction false} JoinFollows(p: Program, journal: Log, F: seq<Outcome>, h: seq<Outcome>)
    requires JournalOk(p, journal, F) && |h| <= |F| && h == F[..|h|] && IsPath(p.body, h, 0)
    requires p.body(h).Ops() != [] && AllRecorded(p.body(h).Ops(), |h|, journal)
    ensures |h| + |p.body(h).Ops()| <= |F|
    ensures h + Outcomes(p.body(h).Ops(), |h|, journal) == F[..|h| + |p.body(h).Ops()|]
  {
    hide Recorded, Shape, RunOk, UndoOk, EndOk;
    assert F[..|F|] == F;
    assert |h| < |F|;
    RecordedBelow(p, journal, F, h);
    var ops := p.body(h).Ops();
    var outs := Outcomes(ops, |h|, journal);
    forall i | 0 <= i < |ops|
      ensures outs[i] == F[|h| + i]
    {
      assert Recorded(ops[i], |h| + i, At(journal, OpLane(|h| + i))) == Some(F[|h| + i]);
    }
  }

  lemma {:induction false} JoinedBatch(ops: seq<Op>, base: nat, returned: set<nat>, journal: Log, c: Comp)
    requires AllRecorded(ops, base, journal) && forall i :: 0 <= i < |ops| ==> i in returned
    ensures InBatch(ops, base, returned, journal, c) <==> c in BatchComps(ops, base, Outcomes(ops, base, journal))
  {
    hide Recorded, CompOf;
    var outs := Outcomes(ops, base, journal);
    BatchCompsMembers(ops, base, outs, c);
    if InBatch(ops, base, returned, journal, c) {
      var i :| i in returned && i < |ops| && Recorded(ops[i], base + i, At(journal, OpLane(base + i))).Some? &&
               c in CompOf(ops[i], base + i, Recorded(ops[i], base + i, At(journal, OpLane(base + i))).value);
      assert outs[i] == Recorded(ops[i], base + i, At(journal, OpLane(base + i))).value;
    }
    if c in BatchComps(ops, base, outs) {
      var i :| 0 <= i < |ops| && c in CompOf(ops[i], base + i, outs[i]);
      assert outs[i] == Recorded(ops[i], base + i, At(journal, OpLane(base + i))).value;
    }
  }

  // ---- the first event, and the inbox ----

  /** An operation below the frontier has events. */
  lemma {:induction false} PastHasEvents(p: Program, journal: Log, F: seq<Outcome>, id: nat)
    requires PastOk(p, journal, F) && id < |F|
    ensures At(journal, OpLane(id)) != []
  {
    hide Recorded, Shape;
    if At(journal, OpLane(id)) == [] {
      NothingRecorded(OpAt(p.body, F, 0, id), id);
    }
  }

  /** A run that has not started has no operations behind it, only rewind markers. */
  lemma {:induction false} NotStartedIsEmpty(p: Program, journal: Log, F: seq<Outcome>)
    requires JournalOk(p, journal, F) && !HasStarted(journal)
    ensures F == [] && forall lane :: lane != RunLane ==> At(journal, lane) == []
    ensures forall x :: x in At(journal, RunLane) ==> x.fact.RunReset?
  {
    hide Shape, Recorded, UndoOk, EndOk, FrontOk;
    if |F| > 0 {
      PastHasEvents(p, journal, F, 0);
    }
    var run := At(journal, RunLane);
    forall i | 0 <= i < |run|
      ensures run[i].fact.RunReset?
    {
      FirstMisses(run, RUN_STARTED, i);
    }
  }

  /** Before any operation ran, nothing has come back. */
  lemma {:induction false} NothingReturned(p: Program, journal: Log, v: Driver)
    requires DriverOk(p, journal, [], v) && forall id :: At(journal, OpLane(id)) == []
    ensures v == Driver([], {}, v.stack) && v.stack == []
  {
    hide Recorded, Shape, CompOf, At;
    var ops := p.body([]).Ops();
    assert v.h == [];
    forall i | i in v.returned
      ensures i < |ops| && Recorded(ops[i], 0 + i, At(journal, OpLane(0 + i))).Some?
    {
      assert |v.h| + i == 0 + i;
    }
    assert v.returned == {} by {
      NoneRecorded(ops, journal);
    }
    assert forall c :: !InBatch(ops, 0, {}, journal, c);
    assert Comps(p.body, [], 0) == [];
    HasMember(v.stack);
  }

  lemma {:induction false} NoneRecorded(ops: seq<Op>, journal: Log)
    requires forall id :: At(journal, OpLane(id)) == []
    ensures forall i :: 0 <= i < |ops| ==> Recorded(ops[i], 0 + i, At(journal, OpLane(0 + i))).None?
  {
    hide Recorded;
    forall i | 0 <= i < |ops|
      ensures Recorded(ops[i], 0 + i, At(journal, OpLane(0 + i))).None?
    {
      NothingRecorded(ops[i], 0 + i);
    }
  }

  lemma {:induction false} HasMember<T>(s: seq<T>)
    ensures s != [] ==> exists x :: x in s
  {
    if s != [] {
      assert s[0] in s;
    }
  }

  lemma {:induction false} StartKeeps(p: Program, s: State, F: seq<Outcome>, now: Time, s': State)
    requires InvAt(p, s, F) && Next(p, s, Start(now)) == Some(s')
    ensures InvAt(p, s', F)
  {
    hide Recorded, Shape, DriverOk, JournalOk, HasStarted;
    JournalPart(p, s, F);
    NotStartedIsEmpty(p, s.d.journal, F);
    NotStartedIsRunning(p, s.d, F);
    var e := Event(|s.d.journal|, -1, RunStarted(p.tags), now);
    AtAppend(s.d.journal, e);
    NothingReturned(p, s.d.journal, s.v.value);
    StartedIsOk(p, s.d.journal, e);
    SignalsAppend(s.d, e);
    BootKeeps(p, State(s'.d, None), F);
  }

  lemma {:induction false} NotStartedIsRunning(p: Program, d: Durable, F: seq<Outcome>)
    requires Good(p, d, F) && forall x :: x in At(d.journal, RunLane) ==> x.fact.RunReset?
    ensures d.record.Running? && d.successor.None?
  {
    hide JournalOk, SignalsOk, Comps, FailureList;
    PathOf(p, d.journal, F);
  }

  lemma {:induction false} StartedIsOk(p: Program, journal: Log, e: Event)
    requires JournalOk(p, journal, []) && e.seqNo == |journal| && e.opId == -1 && e.fact == RunStarted(p.tags)
    requires forall lane :: lane != RunLane ==> At(journal, lane) == []
    requires forall x :: x in At(journal, RunLane) ==> x.fact.RunReset?
    requires At(journal + [e], RunLane) == At(journal, RunLane) + [Entry(e.fact, e.ts)]
    requires forall lane :: lane != RunLane ==> At(journal + [e], lane) == []
    ensures JournalOk(p, journal + [e], [])
  {
    hide Shape, Recorded, At, LaneOf;
    NumberedAppend(journal, e);
    NewFrontIsEmpty(p, journal + [e], []);
    OpenRunIsOk(p, journal + [e], []);
    var run := At(journal, RunLane);
    forall i | 0 <= i < |run|
      ensures run[i].fact.RunReset?
    {
      assert run[i] in run;
    }
    StartedLane(run, Entry(e.fact, e.ts));
  }

  lemma {:induction false} StartedLane(run: seq<Entry>, x: Entry)
    requires x.fact.RunStarted? && forall i :: 0 <= i < |run| ==> run[i].fact.Kind() != RUN_STARTED
    ensures First(run + [x], RUN_STARTED).Some?
  {
    FirstSome(run + [x], RUN_STARTED, |run|);
  }

  lemma {:induction false} DeliverKeeps(p: Program, s: State, F: seq<Outcome>, name: string, payload: Json, s': State)
    requires InvAt(p, s, F) && Next(p, s, Deliver(name, payload)) == Some(s')
    ensures InvAt(p, s', F)
  {
    hide JournalOk, DriverOk;
    var d, d' := s.d, s'.d;
    assert forall i :: 0 <= i < |d.inbox| ==> d'.inbox[i] == d.inbox[i];
    forall s0 | s0 in ConsumedSeqs(d.journal)
      ensures s0 < |d.inbox|
    {
    }
    PathOf(p, d.journal, F);
  }

  lemma {:induction false} AcknowledgeKeeps(p: Program, s: State, F: seq<Outcome>, seqNo: nat, s': State)
    requires InvAt(p, s, F) && Next(p, s, Acknowledge(seqNo)) == Some(s')
    ensures InvAt(p, s', F)
  {
    hide JournalOk, DriverOk;
    PathOf(p, s.d.journal, F);
    assert forall i :: 0 <= i < |s.d.inbox| ==>
      s'.d.inbox[i].name == s.d.inbox[i].name && s'.d.inbox[i].payload == s.d.inbox[i].payload;
  }
}
