/** Driving a rewound run again: what it still knows, what it does anew, and that a fixed body may
    take over where the old one failed. */
module Reopening {
  import opened Wrappers
  import opened Events
  import opened Engine
  import opened Lanes
  import opened Paths
  import opened Invariant
  import opened Preservation
  import opened Rewind
  import opened Signals
  import opened Patching
  import opened Reachability
  import opened Replays
  import opened CrashSafety
  import opened Saga

  lemma {:induction false} OpLaneIsKept(p: Program, journal: Log, F: seq<Outcome>, id: nat)
    requires JournalOk(p, journal, F)
    ensures NonTerminal(At(journal, OpLane(id))) == At(journal, OpLane(id))
  {
    hide Shape, Recorded, At, NonTerminal, IsPath, RunOk, UndoOk, EndOk;
    var lane, ops := At(journal, OpLane(id)), p.body(F).Ops();
    if id < |F| {
      KeepsOpLane(OpAt(p.body, F, 0, id), lane);
    } else if id < |F| + |ops| {
      assert Shape(ops[id - |F|], At(journal, OpLane(|F| + (id - |F|))));
      KeepsOpLane(ops[id - |F|], lane);
    } else {
      NonTerminalAll(lane);
    }
  }

  /** Bodies without gather stop exactly at `toOp`, or at the end of what was recorded before it. */
  lemma {:induction false} SequentialCut(p: Program, F: seq<Outcome>, from: nat, toOp: nat)
    requires Sequential(p) && from <= |F| && from <= toOp && IsPath(p.body, F, from)
    ensures Cut(p.body, F, from, toOp) == if toOp <= |F| then toOp else |F|
    decreases |F| - from
  {
    assert |p.body(F[..from]).Ops()| <= 1;
    if from < |F| && from < toOp {
      SequentialCut(p, F, from + 1, toOp);
    }
  }

  /** After a rewind to `toOp` the operations below it keep every event they had, the others have
      none, and replaying the rewound journal gives the body exactly the recorded outcomes below
      `toOp`: from there on it is live again. */
  lemma {:induction false} RewoundRunResumes(p: Program, s: State, toOp: nat, now: Time)
    requires Reachable(p, s) && CanRewind(p, s)
    ensures var journal := Reset(s.d, toOp, now).journal;
            && (forall id: nat :: At(journal, OpLane(id)) == if id < toOp then At(s.d.journal, OpLane(id)) else [])
            && (forall id: nat :: At(journal, UndoLane(id)) == [])
            && (forall x :: x in At(journal, RunLane) ==> x.fact.Kind() !in TERMINAL_RUN_KINDS)
    ensures var before, after := Replay(p.body, s.d.journal, []), Replay(p.body, Reset(s.d, toOp, now).journal, []);
            && after <= before && |after| <= toOp
            && (Sequential(p) ==> after == before[..if toOp <= |before| then toOp else |before|])
  {
    hide Replay, NonTerminal, Rewound, JournalOk, Cut, SignalsOk, RecordOk, SuccessorOk, SignalOrder, DriverOk;
    var F := ReachableIsInvariant(p, s);
    JournalPart(p, s, F);
    PathOf(p, s.d.journal, F);
    RewoundLanes(s.d.journal, toOp, now) by { WellNumberedPart(p, s.d.journal, F); }
    forall id: nat
      ensures NonTerminal(At(s.d.journal, OpLane(id))) == At(s.d.journal, OpLane(id))
    {
      OpLaneIsKept(p, s.d.journal, F, id);
    }
    RewoundRunOk(p, s.d.journal, toOp, now) by { RunPart(p, s.d.journal, F); }
    ResetKeepsJournal(p, s.d.journal, F, toOp, now);
    ReplayReachesFrontier(p, Rewound(s.d.journal, toOp, now), F[..Cut(p.body, F, 0, toOp)], []);
    if Sequential(p) {
      SequentialCut(p, F, 0, toOp);
    }
  }

  lemma {:induction false} WellNumberedPart(p: Program, journal: Log, F: seq<Outcome>)
    requires JournalOk(p, journal, F)
    ensures WellNumbered(journal)
  {
  }

  // ---- retrying with fixed code ----

  /** A body changed only from the rewound operation on may drive the rewound run. The state it takes
      over satisfies the whole invariant for the changed program, so whatever holds of a run that was
      created with the changed program holds from there on; replay gives the changed body the outcomes
      the old one had recorded. */
  lemma {:induction false} FixedCodeMayResume(p: Program, q: Program, s: State, toOp: Option<nat>, force: bool,
      now: Time)
    requires Reachable(p, s) && Takeover(p, q, s, toOp, force, now).Some?
    ensures Reachable(q, Takeover(p, q, s, toOp, force, now).value)
    ensures FairlyReached(q, Takeover(p, q, s, toOp, force, now).value)
    ensures var s', target := Takeover(p, q, s, toOp, force, now).value, Target(s.d.journal, toOp);
            var before, after := Replay(p.body, s.d.journal, []), Replay(q.body, s'.d.journal, []);
            && RunInv(q, s', after) && after <= before && |after| <= target
            && (Sequential(p) ==> after == before[..if target <= |before| then target else |before|])
  {
    hide Replay, Takeover, Cut, RunInv, IsPath, Play, Origin;
    var life, turns :| Origin(p, life).Some? && Play(p, Origin(p, life).value, turns) == Some(s);
    var target, s' := Target(s.d.journal, toOp), Takeover(p, q, s, toOp, force, now).value;
    var start := OriginIsRunInv(p, life);
    var F := PlayKeeps(p, Origin(p, life).value, start, turns, s);
    RunInvIsPath(p, s, F);
    TakeoverKeeps(p, q, s, F, toOp, force, now);
    var G := F[..Cut(p.body, F, 0, target)];
    FrontierIsReplay(p, s, F);
    FrontierIsReplay(q, s', G);
    if Sequential(p) {
      SequentialCut(p, F, 0, target);
    }
    TakenOver(p, q, s, life, turns, toOp, force, now);
  }

  lemma {:induction false} RunInvIsPath(p: Program, s: State, F: seq<Outcome>)
    requires RunInv(p, s, F)
    ensures IsPath(p.body, F, 0)
  {
    hide JournalOk;
    PathOf(p, s.d.journal, F);
  }

  lemma {:induction false} TakenOver(p: Program, q: Program, s: State, life: Life, turns: seq<Turn>, toOp: Option<nat>,
      force: bool, now: Time)
    requires Origin(p, life).Some? && Play(p, Origin(p, life).value, turns) == Some(s)
    requires Takeover(p, q, s, toOp, force, now).Some?
    ensures Reachable(q, Takeover(p, q, s, toOp, force, now).value)
    ensures FairlyReached(q, Takeover(p, q, s, toOp, force, now).value)
  {
    hide Takeover;
    var next, s' := Patched(life, p, turns, toOp, force, now), Takeover(p, q, s, toOp, force, now).value;
    assert Origin(q, next) == Some(s');
    assert Play(q, s', []) == Some(s') && AllFair(q, s', []);
  }
}
