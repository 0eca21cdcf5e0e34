/** Signals under waits that never compete: with at most one outstanding wait for a name, later
    operations consume later signals, so dropping the last operations of a run gives back the last
    signals it consumed. */
module Signals {
  import opened Wrappers
  import opened Events
  import opened Engine
  import opened Lanes
  import opened Paths
  import opened Invariant
  import opened Preservation
  import opened Rewind

  /** No batch waits twice for the same name. */
  ghost predicate OrderlyWaits(p: Program) {
    forall h: seq<Outcome> :: NoRivals(p.body(h).Ops())
  }

  ghost predicate NoRivals(ops: seq<Op>) {
    forall i, j :: 0 <= i < j < |ops| ==> !SameWait(ops[i], ops[j])
  }

  predicate SameWait(a: Op, b: Op) {
    a.Wait? && b.Wait? && a.name == b.name
  }

  lemma {:induction false} SequentialIsOrderly(p: Program)
    requires Sequential(p)
    ensures OrderlyWaits(p)
  {
    forall h: seq<Outcome>
      ensures NoRivals(p.body(h).Ops())
    {
      assert |p.body(h).Ops()| <= 1;
    }
  }

  lemma {:induction false} RivalsAreOne(ops: seq<Op>, i: nat, j: nat)
    requires NoRivals(ops) && i < |ops| && j < |ops| && SameWait(ops[i], ops[j])
    ensures i == j
  {
  }

  /** Of two consumptions of the same name, the later operation's has the later signal. */
  ghost predicate SignalOrder(journal: Log) {
    forall e, f :: e in journal && f in journal && BothConsume(e, f) && e.opId < f.opId ==> e.fact.signalSeq < f.fact.signalSeq
  }

  predicate BothConsume(e: Event, f: Event) {
    e.fact.EventConsumed? && f.fact.EventConsumed? && e.fact.name == f.fact.name
  }

  // ---- who consumed ----

  lemma {:induction false} ConsumptionIsAWait(op: Op, id: nat, lane: seq<Entry>, x: Entry)
    requires Shape(op, lane) && x in lane && x.fact.EventConsumed?
    ensures op.Wait? && op.name == x.fact.name && Recorded(op, id, lane).Some?
  {
    var i :| 0 <= i < |lane| && lane[i] == x;
    assert i > 0 ==> lane[1..][i - 1] == x;
    if !op.Step? {
      ResultIsFound(lane);
    }
  }

  lemma {:induction false} RunConsumesNothing(p: Program, journal: Log)
    requires RunOk(p, journal)
    ensures forall x :: x in At(journal, RunLane) ==> !x.fact.EventConsumed?
  {
  }

  /** Every consumption belongs to an operation of the recorded history or of the batch under way. */
  lemma {:induction false} ConsumptionPlace(p: Program, journal: Log, F: seq<Outcome>, e: Event)
    requires JournalOk(p, journal, F) && e in journal && e.fact.EventConsumed?
    ensures 0 <= e.opId < |F| + |p.body(F).Ops()|
    ensures e.opId >= |F| ==>
              var op := p.body(F).Ops()[e.opId - |F|];
              op.Wait? && op.name == e.fact.name && Recorded(op, e.opId, At(journal, OpLane(e.opId))).Some?
  {
    hide Shape, Recorded, At, IsPath, UndoOk, EndOk;
    var x := Entry(e.fact, e.ts);
    LaneMembers(journal, LaneOf(e), x);
    assert e.opId >= -1;
    RunConsumesNothing(p, journal);
    var ops := p.body(F).Ops();
    if e.opId >= |F| {
      assert e.opId < |F| + |ops|;
      assert Shape(ops[e.opId - |F|], At(journal, OpLane(|F| + (e.opId - |F|))));
      ConsumptionIsAWait(ops[e.opId - |F|], e.opId, At(journal, OpLane(e.opId)), x);
    }
  }

  // ---- the order is kept ----

  /** A new consumption at the frontier comes after all earlier ones of its name. */
  lemma {:induction false} OrderAppend(p: Program, d: Durable, F: seq<Outcome>, index: nat, e: Event)
    requires JournalOk(p, d.journal, F) && SignalsOk(d) && OrderlyWaits(p) && SignalOrder(d.journal)
    requires index < |p.body(F).Ops()| && e.opId == |F| + index
    requires Recorded(p.body(F).Ops()[index], e.opId, At(d.journal, OpLane(e.opId))).None?
    requires e.fact.EventConsumed? && p.body(F).Ops()[index].Wait? && p.body(F).Ops()[index].name == e.fact.name
    requires NextUnconsumed(d.inbox, e.fact.name, ConsumedSeqs(d.journal), 0) == Some(e.fact.signalSeq)
    ensures SignalOrder(d.journal + [e])
  {
    hide JournalOk, Recorded, At, NoRivals;
    var ops := p.body(F).Ops();
    forall f | f in d.journal && f.fact.EventConsumed? && f.fact.name == e.fact.name
      ensures f.opId < e.opId && f.fact.signalSeq < e.fact.signalSeq
    {
      ConsumptionPlace(p, d.journal, F, f);
      if f.opId >= |F| {
        RivalsAreOne(ops, f.opId - |F|, index);
      }
      assert f.fact.signalSeq in ConsumedSeqs(d.journal);
      assert e.fact.signalSeq !in ConsumedSeqs(d.journal);
    }
  }

  lemma {:induction false} OnlyWaitsConsume(op: Op, id: nat, runId: string, lane: seq<Entry>, used: set<nat>,
      inbox: seq<Signal>, w: World, fact: Fact)
    requires fact.EventConsumed?
    requires Some(fact) ==
      if Definition(lane).None? then Some(Opening(op, id, runId, w)) else Progress(op, lane, used, inbox, w)
    ensures op.Wait? && op.name == fact.name
  {
  }

  lemma {:induction false} QuietKeepsOrder(journal: Log, e: Event)
    requires SignalOrder(journal) && !e.fact.EventConsumed?
    ensures SignalOrder(journal + [e])
  {
  }

  lemma {:induction false} LiveKeepsOrder(p: Program, s: State, F: seq<Outcome>, index: nat, w: World, lost: bool,
      s': State)
    requires InvAt(p, s, F) && OrderlyWaits(p) && SignalOrder(s.d.journal)
    requires Next(p, s, Live(index, w, lost)) == Some(s')
    ensures SignalOrder(s'.d.journal)
  {
    hide JournalOk, DriverOk, Recorded, At, Opening, Progress, Definition, HasStarted, SignalOrder, OrderlyWaits,
        SignalsOk;
    var v := s.v.value;
    JournalPart(p, s, F);
    LiveMeansFrontier(p, s.d.journal, F, v, index);
    var op, id := p.body(v.h).Ops()[index], |v.h| + index;
    var lane := At(s.d.journal, OpLane(id));
    if s'.d.journal != s.d.journal {
      var e := s'.d.journal[|s.d.journal|];
      assert s'.d.journal == s.d.journal + [e];
      if e.fact.EventConsumed? {
        ConsumptionIsNext(op, id, p.runId, lane, ConsumedSeqs(s.d.journal), s.d.inbox, w, e.fact);
        OnlyWaitsConsume(op, id, p.runId, lane, ConsumedSeqs(s.d.journal), s.d.inbox, w, e.fact);
        OrderAppend(p, s.d, F, index, e);
      } else {
        QuietKeepsOrder(s.d.journal, e);
      }
    }
  }

  lemma {:induction false} NextKeepsOrder(p: Program, s: State, F: seq<Outcome>, act: Act, s': State)
    requires InvAt(p, s, F) && OrderlyWaits(p) && SignalOrder(s.d.journal)
    requires Next(p, s, act) == Some(s')
    ensures SignalOrder(s'.d.journal)
  {
    hide InvAt, Recorded, Diverges, LiveStep, UndoProgress, NextUndo, FailuresOf, First, HasStarted, OrderlyWaits,
        SignalOrder;
    if act.Live? {
      LiveKeepsOrder(p, s, F, act.index, act.w, act.lost, s');
    } else if s'.d.journal != s.d.journal {
      var e := s'.d.journal[|s.d.journal|];
      assert s'.d.journal == s.d.journal + [e];
      NotConsumed(p, s, act, s');
      QuietKeepsOrder(s.d.journal, e);
    }
  }

  /** Only an operation consumes a signal. */
  lemma {:induction false} NotConsumed(p: Program, s: State, act: Act, s': State)
    requires Next(p, s, act) == Some(s') && !act.Live? && |s'.d.journal| > |s.d.journal|
    ensures !s'.d.journal[|s.d.journal|].fact.EventConsumed?
  {
    hide Recorded, Diverges, LiveStep, NextUndo, FailuresOf, First, HasStarted;
  }

  // ---- a rewind gives signals back ----

  lemma {:induction false} KeptMembers(journal: Log, toOp: nat)
    ensures forall e :: e in Kept(journal, toOp) <==> e in journal && !Stale(e, toOp)
  {
    if journal != [] {
      KeptMembers(journal[1..], toOp);
      assert journal == [journal[0]] + journal[1..];
    }
  }

  lemma {:induction false} RewoundMembers(journal: Log, toOp: nat, now: Time, e: Event)
    requires e.fact.EventConsumed?
    ensures e in Rewound(journal, toOp, now) ==> exists f :: f in journal && !Stale(f, toOp) && f.fact == e.fact && f.opId == e.opId
  {
    KeptMembers(journal, toOp);
    var kept := Kept(journal, toOp);
    if e in Rewound(journal, toOp, now) {
      var i :| 0 <= i < |kept| && Renumbered(kept, 0)[i] == e;
      assert kept[i] in kept;
    }
  }

  lemma {:induction false} RewoundConsumes(journal: Log, toOp: nat, now: Time, f: Event)
    requires f in journal && !Stale(f, toOp) && f.fact.EventConsumed?
    ensures f.fact.signalSeq in ConsumedSeqs(Rewound(journal, toOp, now))
  {
    KeptMembers(journal, toOp);
    var kept := Kept(journal, toOp);
    var i :| 0 <= i < |kept| && kept[i] == f;
    var e := Renumbered(kept, 0)[i];
    assert e == f.(seqNo := 0 + i);
    assert e in Rewound(journal, toOp, now);
  }

  ghost predicate ConsumedOnce(journal: Log) {
    forall i, j :: 0 <= i < j < |journal| && journal[i].fact.EventConsumed? && journal[j].fact.EventConsumed? ==>
      journal[i].fact.signalSeq != journal[j].fact.signalSeq
  }

  lemma {:induction false} KeptConsumesOnce(journal: Log, toOp: nat)
    requires ConsumedOnce(journal)
    ensures ConsumedOnce(Kept(journal, toOp))
  {
    if journal != [] {
      KeptConsumesOnce(journal[1..], toOp);
      KeptMembers(journal[1..], toOp);
      var kept := Kept(journal[1..], toOp);
      forall e | e in kept && e.fact.EventConsumed? && journal[0].fact.EventConsumed?
        ensures e.fact.signalSeq != journal[0].fact.signalSeq
      {
        var i :| 0 <= i < |journal[1..]| && journal[1..][i] == e;
        assert journal[i + 1] == e;
      }
    }
  }

  lemma {:induction false} RewoundConsumesOnce(journal: Log, toOp: nat, now: Time)
    requires ConsumedOnce(journal)
    ensures ConsumedOnce(Rewound(journal, toOp, now))
  {
    KeptConsumesOnce(journal, toOp);
    var kept := Kept(journal, toOp);
    assert forall i :: 0 <= i < |kept| ==> Renumbered(kept, 0)[i].fact == kept[i].fact;
  }

  lemma {:induction false} RewoundKeepsOrder(journal: Log, toOp: nat, now: Time)
    requires SignalOrder(journal)
    ensures SignalOrder(Rewound(journal, toOp, now))
  {
    hide Rewound, Stale;
    var rewound := Rewound(journal, toOp, now);
    forall e, f | e in rewound && f in rewound && BothConsume(e, f) && e.opId < f.opId
      ensures e.fact.signalSeq < f.fact.signalSeq
    {
      RewoundMembers(journal, toOp, now, e);
      RewoundMembers(journal, toOp, now, f);
      var e' :| e' in journal && e'.fact == e.fact && e'.opId == e.opId;
      var f' :| f' in journal && f'.fact == f.fact && f'.opId == f.opId;
      assert BothConsume(e', f');
    }
  }

  /** What stays consumed after a rewind is still, for each name, a prefix of the inbox. */
  lemma {:induction false} RewoundPrefix(d: Durable, toOp: nat, now: Time, s: nat, t: nat)
    requires SignalsOk(d) && SignalOrder(d.journal)
    requires s in ConsumedSeqs(Rewound(d.journal, toOp, now)) && t < s < |d.inbox| && d.inbox[t].name == d.inbox[s].name
    ensures t in ConsumedSeqs(Rewound(d.journal, toOp, now))
  {
    hide Rewound;
    var e' :| e' in Rewound(d.journal, toOp, now) && e'.fact.EventConsumed? && e'.fact.signalSeq == s;
    RewoundMembers(d.journal, toOp, now, e');
    var e :| e in d.journal && !Stale(e, toOp) && e.fact == e'.fact;
    assert s in ConsumedSeqs(d.journal);
    var f :| f in d.journal && f.fact.EventConsumed? && f.fact.signalSeq == t;
    assert BothConsume(e, f);
    RewoundConsumes(d.journal, toOp, now, f);
  }

  /** A rewind gives back exactly the signals whose consumption it drops, and keeps the rest a prefix. */
  lemma {:induction false} ResetKeepsSignals(d: Durable, toOp: nat, now: Time)
    requires SignalsOk(d) && SignalOrder(d.journal)
    ensures SignalsOk(Reset(d, toOp, now)) && SignalOrder(Reset(d, toOp, now).journal)
  {
    hide Rewound, SignalOrder;
    var d' := Reset(d, toOp, now);
    RewoundKeepsOrder(d.journal, toOp, now);
    RewoundConsumesOnce(d.journal, toOp, now);
    assert ConsumedOnce(d'.journal);
    forall e | e in d'.journal && e.fact.EventConsumed?
      ensures e.fact.signalSeq < |d'.inbox| && d'.inbox[e.fact.signalSeq].name == e.fact.name
      ensures d'.inbox[e.fact.signalSeq].payload == e.fact.payload
    {
      RewoundMembers(d.journal, toOp, now, e);
    }
    forall s, t | s in ConsumedSeqs(d'.journal) && 0 <= t < s < |d'.inbox| && d'.inbox[t].name == d'.inbox[s].name
      ensures t in ConsumedSeqs(d'.journal)
    {
      RewoundPrefix(d, toOp, now, s, t);
    }
    forall t | 0 <= t < |d'.inbox| && d'.inbox[t].consumed
      ensures t in ConsumedSeqs(d'.journal)
    {
      var e :| e in d.journal && e.fact.EventConsumed? && e.fact.signalSeq == t;
      assert !Stale(e, toOp);
      RewoundConsumes(d.journal, toOp, now, e);
    }
  }

  // ---- a rewind keeps the whole invariant ----

  /** A rewind keeps the invariant of what is stored, except in one situation: the run was continuing
      as new, its successor exists, and a crash came before the run record said so. Then the successor
      stays behind with nothing in the journal to justify it. */
  lemma {:induction false} ResetKeepsInvariant(p: Program, d: Durable, F: seq<Outcome>, toOp: nat, now: Time)
    requires IsPath(p.body, F, 0) && Good(p, d, F) && SignalOrder(d.journal)
    ensures Good(p, Reset(d, toOp, now), F[..Cut(p.body, F, 0, toOp)]) <==> d.successor.None?
    ensures SignalOrder(Reset(d, toOp, now).journal)
  {
    hide Rewound, SignalOrder, JournalOk, SignalsOk, Cut;
    ResetKeepsSignals(d, toOp, now);
    ResetKeepsJournal(p, d.journal, F, toOp, now);
    CutIsPath(p.body, F, 0, toOp);
    NothingTerminal(p, d.journal, F, toOp, now);
  }

  lemma {:induction false} NothingTerminal(p: Program, journal: Log, F: seq<Outcome>, toOp: nat, now: Time)
    requires JournalOk(p, journal, F)
    ensures !Logged(Rewound(journal, toOp, now), RUN_CONTINUED)
  {
    hide Rewound;
    RewoundRunOk(p, journal, toOp, now);
  }
}
