/** Which act writes which event, and how long an operation's first event stays. */
module Acts {
  import opened Wrappers
  import opened Events
  import opened Engine
  import opened Lanes
  import opened Invariant
  import opened Preservation
  import opened Endings
  import opened Rewind
  import opened Signals
  import opened Patching
  import opened Reachability
  import opened Replays
  import opened CrashSafety
  import opened Reopening

  /** The act journals the event. */
  ghost predicate Writes(p: Program, s: State, act: Act, s': State, e: Event) {
    Next(p, s, act) == Some(s') && s'.d.journal == s.d.journal + [e]
  }

  /** The operation a live action works on. */
  ghost predicate WorksOn(p: Program, s: State, act: Act, op: Op, id: nat) {
    && act.Live? && s.v.Some? && act.index < |p.body(s.v.value.h).Ops()|
    && op == p.body(s.v.value.h).Ops()[act.index] && id == |s.v.value.h| + act.index
  }

  /** An operation's events are journaled by live actions of the operation the body then asks for. */
  lemma {:induction false} OperationsEvent(p: Program, s: State, act: Act, s': State, e: Event, id: int)
    returns (op: Op)
    requires Writes(p, s, act, s', e) && LaneOf(e) == OpLane(id)
    ensures id >= 0 && e.opId == id && WorksOn(p, s, act, op, id) && !act.lost && e.ts == act.w.now + act.w.took
    ensures var lane := At(s.d.journal, OpLane(id));
            && Recorded(op, id, lane).None? && !Diverges(op, lane)
            && Some(e.fact) == if Definition(lane).None? then Some(Opening(op, id, p.runId, act.w))
                               else Progress(op, lane, ConsumedSeqs(s.d.journal), s.d.inbox, act.w)
  {
    hide Recorded, Diverges, Opening, Progress, Definition, Invocation, Awaited, HasStarted, NextUndo, At, First, FailuresOf,
        Tally, AllRecorded;
    assert e == s'.d.journal[|s.d.journal|];
    if act.Live? {
      op := p.body(s.v.value.h).Ops()[act.index];
    } else {
      OthersWriteElsewhere(p, s, act, s', e);
    }
  }

  lemma {:induction false} OthersWriteElsewhere(p: Program, s: State, act: Act, s': State, e: Event)
    requires Writes(p, s, act, s', e) && !act.Live?
    ensures !LaneOf(e).OpLane?
  {
    hide HasStarted, NextUndo, At, First, FailuresOf, Tally, AllRecorded, Recorded, Diverges, Final;
    assert e == s'.d.journal[|s.d.journal|];
  }

  lemma {:induction false} OpeningDefines(op: Op, id: nat, runId: string, w: World)
    ensures Opening(op, id, runId, w).Kind() in DEFINING_KINDS
  {
  }

  // ---- an operation's first event stays ----

  /** Does the act journal an operation at that op id anew? */
  ghost predicate Opens(s: State, s': State, id: nat) {
    && |s'.d.journal| == |s.d.journal| + 1
    && s'.d.journal[|s.d.journal|].opId == id && s'.d.journal[|s.d.journal|].fact.Kind() in DEFINING_KINDS
  }

  ghost predicate NotOpenedAgain(p: Program, s: State, turns: seq<Turn>, id: nat)
    decreases |turns|
  {
    turns == [] ||
    (var s' := Take(p, s, turns[0]);
     s'.Some? ==> (turns[0].Work? ==> !Opens(s, s'.value, id)) && NotOpenedAgain(p, s'.value, turns[1..], id))
  }

  /** The lane still begins with that event, or a rewind has emptied it. */
  ghost predicate BeginsWith(journal: Log, id: nat, x: Entry) {
    At(journal, OpLane(id)) == [] || At(journal, OpLane(id))[0] == x
  }

  lemma {:induction false} WorkKeepsFirst(p: Program, s: State, act: Act, s': State, id: nat, x: Entry)
    requires Next(p, s, act) == Some(s') && !Opens(s, s', id) && BeginsWith(s.d.journal, id, x)
    ensures BeginsWith(s'.d.journal, id, x)
  {
    hide Next, At, LaneOf;
    StepOnlyGrows(p, s, act, s');
    if s'.d.journal != s.d.journal {
      var e := s'.d.journal[|s.d.journal|];
      assert s'.d.journal == s.d.journal + [e];
      AtAppend(s.d.journal, e);
      if LaneOf(e) == OpLane(id) && At(s.d.journal, OpLane(id)) == [] {
        var op := OperationsEvent(p, s, act, s', e, id);
        OpeningDefines(op, id, p.runId, act.w);
      }
    }
  }

  lemma {:induction false} RewindKeepsFirst(p: Program, s: State, F: seq<Outcome>, turn: Turn, s': State, id: nat, x: Entry)
    requires RunInv(p, s, F) && turn.Rewinding? && Take(p, s, turn) == Some(s') && BeginsWith(s.d.journal, id, x)
    ensures BeginsWith(s'.d.journal, id, x)
  {
    hide JournalOk, RecordOk, SuccessorOk, SignalsOk, DriverOk, SignalOrder, OrderlyWaits, At, Rewound, GivenBack, Released,
        AlreadyCompensated, FirstFailure, NonTerminal;
    if s' != s {
      RunPart(p, s.d.journal, F);
      RewoundLanes(s.d.journal, Target(s.d.journal, turn.toOp), turn.now);
      OpLaneIsKept(p, s.d.journal, F, id);
    }
  }

  /** Through any schedule of acts and rewinds in which nothing else is journaled first there. */
  lemma {:induction false} FirstStays(p: Program, s: State, F: seq<Outcome>, turns: seq<Turn>, s': State, id: nat, x: Entry)
    requires RunInv(p, s, F) && Play(p, s, turns) == Some(s') && NotOpenedAgain(p, s, turns, id)
    requires BeginsWith(s.d.journal, id, x)
    ensures BeginsWith(s'.d.journal, id, x)
    decreases |turns|
  {
    hide RunInv, BeginsWith, Opens, Next, CanRewind;
    if turns != [] {
      var mid := Take(p, s, turns[0]).value;
      match turns[0] {
        case Work(act) => WorkKeepsFirst(p, s, act, mid, id, x);
        case Rewinding(_, _, _) => RewindKeepsFirst(p, s, F, turns[0], mid, id, x);
      }
      var G := TakeKeeps(p, s, F, turns[0], mid);
      FirstStays(p, mid, G, turns[1..], s', id, x);
    }
  }

  /** A live action that opens an operation puts its event first in the lane. */
  lemma {:induction false} OpenedFirst(p: Program, s: State, act: Act, s': State, e: Event, id: nat)
    returns (op: Op)
    requires Writes(p, s, act, s', e) && LaneOf(e) == OpLane(id) && At(s.d.journal, OpLane(id)) == []
    ensures WorksOn(p, s, act, op, id) && e.fact == Opening(op, id, p.runId, act.w)
    ensures At(s'.d.journal, OpLane(id)) == [Entry(e.fact, act.w.now + act.w.took)]
  {
    hide Next, At, LaneOf, Opening;
    op := OperationsEvent(p, s, act, s', e, id);
    AtAppend(s.d.journal, e);
  }
}
