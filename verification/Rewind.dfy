/** Rewinding a run to just before an operation: what `reset` does to the durable state, and that the
    journal it leaves satisfies the invariant of the engine's journals. */
module Rewind {
  import opened Wrappers
  import opened Events
  import opened Engine
  import opened Lanes
  import opened Paths
  import opened Invariant
  import opened Preservation

  /** Does a rewind to `toOp` drop the event? */
  predicate Stale(e: Event, toOp: nat) {
    || e.opId >= toOp
    || e.fact.Kind() in TERMINAL_RUN_KINDS
    || e.fact.Kind() in COMP_OUTCOME_KINDS
  }

  function Kept(journal: Log, toOp: nat): Log {
    if journal == [] then []
    else if Stale(journal[0], toOp) then Kept(journal[1..], toOp)
    else [journal[0]] + Kept(journal[1..], toOp)
  }

  function Renumbered(journal: Log, from: nat): (r: Log)
    ensures |r| == |journal|
    ensures forall i :: 0 <= i < |r| ==> r[i] == journal[i].(seqNo := from + i)
  {
    if journal == [] then [] else [journal[0].(seqNo := from)] + Renumbered(journal[1..], from + 1)
  }

  /** How many events a rewind drops. */
  function Dropped(journal: Log, toOp: nat): nat {
    if journal == [] then 0 else (if Stale(journal[0], toOp) then 1 else 0) + Dropped(journal[1..], toOp)
  }

  lemma {:induction false} KeptOrDropped(journal: Log, toOp: nat)
    ensures |Kept(journal, toOp)| + Dropped(journal, toOp) == |journal|
  {
    if journal != [] { KeptOrDropped(journal[1..], toOp); }
  }

  function Rewound(journal: Log, toOp: nat, now: Time): Log {
    var kept := Kept(journal, toOp);
    Renumbered(kept, 0) + [Event(|kept|, -1, RunReset(toOp, Dropped(journal, toOp)), now)]
  }

  /** Where a rewind goes when no operation is named: the first failed operation, else 0. */
  function FirstFailure(journal: Log): nat {
    if journal == [] then 0
    else if journal[0].fact.Kind() in FAILURE_KINDS && journal[0].opId >= 0 then journal[0].opId
    else FirstFailure(journal[1..])
  }

  /** The signals whose consumption a rewind drops. */
  function Released(journal: Log, toOp: nat): set<nat> {
    set e | e in journal && e.fact.EventConsumed? && Stale(e, toOp) :: e.fact.signalSeq
  }

  function GivenBack(inbox: seq<Signal>, released: set<nat>): (r: seq<Signal>)
    ensures |r| == |inbox|
    ensures forall i :: 0 <= i < |r| ==> r[i] == if i in released then inbox[i].(consumed := false) else inbox[i]
  {
    seq(|inbox|, i requires 0 <= i < |inbox| => if i in released then inbox[i].(consumed := false) else inbox[i])
  }

  /** Did any compensation complete? Then a rewind is refused unless forced. */
  predicate AlreadyCompensated(journal: Log) {
    exists e :: e in journal && e.fact.CompCompleted?
  }

  /** The durable state after a rewind of a run at rest. */
  function Reset(d: Durable, toOp: nat, now: Time): Durable {
    d.(journal := Rewound(d.journal, toOp, now), inbox := GivenBack(d.inbox, Released(d.journal, toOp)), record := Running)
  }

  /** A rewind request: None when it is refused and changes nothing. */
  function ResetRun(d: Durable, toOp: Option<nat>, force: bool, now: Time): Option<Durable> {
    var target := if toOp.Some? then toOp.value else FirstFailure(d.journal);
    if d.record.Continued? || (!force && AlreadyCompensated(d.journal)) then None
    else Some(Reset(d, target, now))
  }

  predicate IsFailure(e: Event) {
    e.opId >= 0 && (e.fact.StepFailed? || e.fact.ChildFailed? || e.fact.WaitTimedOut?)
  }

  /** The default target is the operation of the earliest failure, or the first operation of all. */
  lemma {:induction false} FirstFailureIsEarliest(journal: Log)
    ensures if exists i :: 0 <= i < |journal| && IsFailure(journal[i])
            then exists i :: 0 <= i < |journal| && IsFailure(journal[i]) && journal[i].opId == FirstFailure(journal) &&
                             forall j :: 0 <= j < i ==> !IsFailure(journal[j])
            else FirstFailure(journal) == 0
  {
    if journal != [] && !IsFailure(journal[0]) {
      var rest := journal[1..];
      FirstFailureIsEarliest(rest);
      if i :| 0 <= i < |rest| && IsFailure(rest[i]) && rest[i].opId == FirstFailure(rest) &&
              forall j :: 0 <= j < i ==> !IsFailure(rest[j]) {
        assert journal[i + 1] == rest[i];
        assert forall j :: 0 < j < i + 1 ==> journal[j] == rest[j - 1];
      }
      if i :| 0 <= i < |journal| && IsFailure(journal[i]) {
        assert rest[i - 1] == journal[i];
      }
    }
  }

  /** A rewind is refused exactly for a continued run, and unless forced for one that has completed a
      compensation; otherwise it goes to the operation named, or to that of the earliest failure. */
  lemma {:induction false} RewindIsRefused(d: Durable, toOp: Option<nat>, force: bool, now: Time, target: nat)
    requires if toOp.Some? then target == toOp.value
             else if exists i :: 0 <= i < |d.journal| && IsFailure(d.journal[i])
             then exists i :: 0 <= i < |d.journal| && IsFailure(d.journal[i]) && d.journal[i].opId == target &&
                              forall j :: 0 <= j < i ==> !IsFailure(d.journal[j])
             else target == 0
    ensures var compensated := exists i :: 0 <= i < |d.journal| && d.journal[i].fact.CompCompleted?;
            ResetRun(d, toOp, force, now) ==
            if d.record.Continued? || (compensated && !force) then None else Some(Reset(d, target, now))
  {
    hide Rewound, GivenBack, Released;
    FirstFailureIsEarliest(d.journal);
    if toOp.None? && exists i :: 0 <= i < |d.journal| && IsFailure(d.journal[i]) {
      var i :| 0 <= i < |d.journal| && IsFailure(d.journal[i]) && d.journal[i].opId == target &&
               forall j :: 0 <= j < i ==> !IsFailure(d.journal[j]);
      var k :| 0 <= k < |d.journal| && IsFailure(d.journal[k]) && d.journal[k].opId == FirstFailure(d.journal) &&
               forall j :: 0 <= j < k ==> !IsFailure(d.journal[j]);
      assert i == k;
    }
    if exists i :: 0 <= i < |d.journal| && d.journal[i].fact.CompCompleted? {
      var i :| 0 <= i < |d.journal| && d.journal[i].fact.CompCompleted?;
      assert d.journal[i] in d.journal;
    }
  }

  // ---- lanes of the rewound journal ----

  /** Run-level events other than terminal ones. */
  function NonTerminal(run: seq<Entry>): seq<Entry> {
    if run == [] then []
    else if run[0].fact.Kind() in TERMINAL_RUN_KINDS then NonTerminal(run[1..])
    else [run[0]] + NonTerminal(run[1..])
  }

  lemma {:induction false} NonTerminalCons(x: Entry, rest: seq<Entry>)
    ensures NonTerminal([x] + rest) == if x.fact.Kind() in TERMINAL_RUN_KINDS then NonTerminal(rest) else [x] + NonTerminal(rest)
  {
    assert ([x] + rest)[1..] == rest;
  }

  /** A rewind keeps the lanes below `toOp`, empties the others and drops terminal events. */
  lemma {:induction false} KeptLane(journal: Log, toOp: nat, lane: Lane)
    requires WellNumbered(journal)
    ensures At(Kept(journal, toOp), lane) ==
            match lane
            case OpLane(id) => if id < toOp then NonTerminal(At(journal, lane)) else []
            case UndoLane(_) => []
            case RunLane => NonTerminal(At(journal, lane))
  {
    hide NonTerminal;
    if journal == [] {
      assert NonTerminal([]) == [] by { NonTerminalAll([]); }
    } else {
      KeptLane(journal[1..], toOp, lane);
      var e := journal[0];
      NonTerminalCons(Entry(e.fact, e.ts), At(journal[1..], lane));
      if !Stale(e, toOp) {
        assert Kept(journal, toOp)[1..] == Kept(journal[1..], toOp);
      }
    }
  }

  lemma {:induction false} NonTerminalAll(lane: seq<Entry>)
    requires forall i :: 0 <= i < |lane| ==> lane[i].fact.Kind() !in TERMINAL_RUN_KINDS
    ensures NonTerminal(lane) == lane
  {
    if lane != [] { NonTerminalAll(lane[1..]); }
  }

  lemma {:induction false} RenumberedLane(journal: Log, from: nat, lane: Lane)
    ensures At(Renumbered(journal, from), lane) == At(journal, lane)
  {
    if journal != [] {
      var r := Renumbered(journal, from);
      RenumberedLane(journal[1..], from + 1, lane);
      assert r[1..] == Renumbered(journal[1..], from + 1);
      assert r[0] == journal[0].(seqNo := from + 0);
    }
  }

  lemma {:induction false} NonTerminalMembers(run: seq<Entry>)
    ensures forall x :: x in NonTerminal(run) <==> x in run && x.fact.Kind() !in TERMINAL_RUN_KINDS
  {
    if run != [] {
      NonTerminalMembers(run[1..]);
      assert run == [run[0]] + run[1..];
    }
  }

  /** An operation's lane holds no run-level event. */
  lemma {:induction false} ShapeIsNotTerminal(op: Op, lane: seq<Entry>)
    requires Shape(op, lane)
    ensures forall i :: 0 <= i < |lane| ==> lane[i].fact.Kind() !in TERMINAL_RUN_KINDS
  {
    if op.Step? && lane != [] {
      var tries := lane[1..];
      forall i | 0 <= i < |lane|
        ensures lane[i].fact.Kind() !in TERMINAL_RUN_KINDS
      {
        if i > 0 { assert lane[i] == tries[i - 1]; }
      }
    }
  }

  /** The lanes of a rewound journal: operations below `toOp` as they were, the rest empty. */
  lemma {:induction false} RewoundLanes(journal: Log, toOp: nat, now: Time)
    requires WellNumbered(journal)
    ensures forall id :: At(Rewound(journal, toOp, now), OpLane(id)) ==
                         if id < toOp then NonTerminal(At(journal, OpLane(id))) else []
    ensures forall id :: At(Rewound(journal, toOp, now), UndoLane(id)) == []
    ensures At(Rewound(journal, toOp, now), RunLane) ==
            NonTerminal(At(journal, RunLane)) + [Entry(RunReset(toOp, Dropped(journal, toOp)), now)]
  {
    hide NonTerminal, Kept, Renumbered, Dropped, At;
    var kept := Kept(journal, toOp);
    var marker := Event(|kept|, -1, RunReset(toOp, Dropped(journal, toOp)), now);
    AtAppend(Renumbered(kept, 0), marker);
    forall lane
      ensures At(Renumbered(kept, 0), lane) == At(kept, lane)
    {
      RenumberedLane(kept, 0, lane);
    }
    forall id
      ensures At(kept, OpLane(id)) == if id < toOp then NonTerminal(At(journal, OpLane(id))) else []
      ensures At(kept, UndoLane(id)) == []
    {
      KeptLane(journal, toOp, OpLane(id));
      KeptLane(journal, toOp, UndoLane(id));
    }
    KeptLane(journal, toOp, RunLane);
  }

  // ---- the rewound journal satisfies the invariant ----

  /** The last batch boundary of a path at or below `toOp`. */
  ghost function Cut(b: Body, F: seq<Outcome>, from: nat, toOp: nat): (r: nat)
    requires from <= |F| && IsPath(b, F, from)
    ensures from <= r <= |F| && (from <= toOp ==> r <= toOp)
    decreases |F| - from
  {
    var n := |b(F[..from]).Ops()|;
    if from == |F| || from + n > toOp then from else Cut(b, F, from + n, toOp)
  }

  lemma {:induction false} CutIsPath(b: Body, F: seq<Outcome>, from: nat, toOp: nat)
    requires from <= |F| && IsPath(b, F, from)
    ensures IsPath(b, F[..Cut(b, F, from, toOp)], from)
    decreases |F| - from
  {
    var n, c := |b(F[..from]).Ops()|, Cut(b, F, from, toOp);
    if from != |F| && from + n <= toOp {
      CutIsPath(b, F, from + n, toOp);
      assert F[..c][..from] == F[..from];
    }
  }

  /** The batch that starts at the boundary reaches beyond `toOp`. */
  lemma {:induction false} CutIsLast(b: Body, F: seq<Outcome>, from: nat, toOp: nat)
    requires from <= |F| && IsPath(b, F, from)
    ensures var c := Cut(b, F, from, toOp); c < |F| ==> c + |b(F[..c]).Ops()| > toOp
    decreases |F| - from
  {
    var n := |b(F[..from]).Ops()|;
    if from != |F| && from + n <= toOp {
      CutIsLast(b, F, from + n, toOp);
    }
  }

  lemma {:induction false} RewoundIsNumbered(journal: Log, toOp: nat, now: Time)
    requires Numbered(journal)
    ensures Numbered(Rewound(journal, toOp, now))
  {
    KeptIsWellNumbered(journal, toOp);
  }

  lemma {:induction false} KeptIsWellNumbered(journal: Log, toOp: nat)
    requires WellNumbered(journal)
    ensures WellNumbered(Kept(journal, toOp))
  {
    if journal != [] { KeptIsWellNumbered(journal[1..], toOp); }
  }

  /** Without terminal events the run-level lane keeps its order. */
  lemma {:induction false} NonTerminalRun(run: seq<Entry>)
    requires forall i :: 0 <= i < |run| - 1 ==> run[i].fact.Kind() !in TERMINAL_RUN_KINDS
    ensures NonTerminal(run) == if run != [] && run[|run| - 1].fact.Kind() in TERMINAL_RUN_KINDS then run[..|run| - 1] else run
  {
    if run != [] {
      var last := run[|run| - 1];
      NonTerminalSnoc(run[..|run| - 1], last);
      assert run == run[..|run| - 1] + [last];
    }
  }

  lemma {:induction false} NonTerminalSnoc(init: seq<Entry>, last: Entry)
    requires forall i :: 0 <= i < |init| ==> init[i].fact.Kind() !in TERMINAL_RUN_KINDS
    ensures NonTerminal(init + [last]) == if last.fact.Kind() in TERMINAL_RUN_KINDS then init else init + [last]
  {
    if init == [] {
      assert init + [last] == [last];
    } else {
      assert (init + [last])[1..] == init[1..] + [last];
      NonTerminalSnoc(init[1..], last);
    }
  }

  lemma {:induction false} RewoundRunOk(p: Program, journal: Log, toOp: nat, now: Time)
    requires WellNumbered(journal) && RunOk(p, journal)
    ensures RunOk(p, Rewound(journal, toOp, now))
    ensures forall x :: x in At(Rewound(journal, toOp, now), RunLane) ==> x.fact.Kind() !in TERMINAL_RUN_KINDS
  {
    hide NonTerminal, Rewound, At, First, Dropped;
    RewoundLanes(journal, toOp, now);
    var run := At(journal, RunLane);
    NonTerminalRun(run);
    NonTerminalMembers(run);
    NonTerminalAll([]);
    var marker := Entry(RunReset(toOp, Dropped(journal, toOp)), now);
    if HasStarted(journal) {
      StillStarted(run, marker);
    } else {
      NonTerminalAll([]);
    }
  }

  lemma {:induction false} StillStarted(run: seq<Entry>, marker: Entry)
    requires First(run, RUN_STARTED).Some?
    ensures First(NonTerminal(run) + [marker], RUN_STARTED).Some?
  {
    var x := First(run, RUN_STARTED).value;
    NonTerminalMembers(run);
    var kept := NonTerminal(run);
    var i :| 0 <= i < |kept| && kept[i] == x;
    if First(kept, RUN_STARTED).None? {
      FirstMisses(kept, RUN_STARTED, i);
    }
    FirstSnoc(kept, marker, RUN_STARTED);
  }

  lemma {:induction false} RewoundPastOk(p: Program, journal: Log, F: seq<Outcome>, toOp: nat, now: Time, c: nat)
    requires WellNumbered(journal) && PastOk(p, journal, F) && c <= |F| && c <= toOp && IsPath(p.body, F[..c], 0)
    ensures PastOk(p, Rewound(journal, toOp, now), F[..c])
  {
    hide Shape, Recorded, NonTerminal, Rewound, At;
    RewoundLanes(journal, toOp, now);
    PathCut(p.body, F, 0, c);
    forall id | 0 <= id < c
      ensures Shape(OpAt(p.body, F[..c], 0, id), At(Rewound(journal, toOp, now), OpLane(id))) == true
      ensures Recorded(OpAt(p.body, F[..c], 0, id), id, At(Rewound(journal, toOp, now), OpLane(id))) == Some(F[..c][id])
    {
      KeepsOpLane(OpAt(p.body, F, 0, id), At(journal, OpLane(id)));
    }
  }

  lemma {:induction false} KeepsOpLane(op: Op, lane: seq<Entry>)
    requires Shape(op, lane)
    ensures NonTerminal(lane) == lane
  {
    ShapeIsNotTerminal(op, lane);
    NonTerminalAll(lane);
  }

  /** The batch a rewind stops in keeps its lanes below `toOp` and loses the others. */
  lemma {:induction false} RewoundBatch(ops: seq<Op>, base: nat, journal: Log, toOp: nat, now: Time)
    requires WellNumbered(journal)
    requires forall i :: 0 <= i < |ops| ==> Shape(ops[i], At(journal, OpLane(base + i)))
    ensures forall i :: 0 <= i < |ops| ==>
              var kept := At(Rewound(journal, toOp, now), OpLane(base + i));
              && Shape(ops[i], kept)
              && (base + i < toOp ==> kept == At(journal, OpLane(base + i)))
              && (base + i >= toOp ==> Recorded(ops[i], base + i, kept).None?)
  {
    hide Shape, Recorded, NonTerminal, Rewound, At;
    RewoundLanes(journal, toOp, now);
    forall i | 0 <= i < |ops|
      ensures Shape(ops[i], At(Rewound(journal, toOp, now), OpLane(base + i))) == true
      ensures base + i < toOp ==> At(Rewound(journal, toOp, now), OpLane(base + i)) == At(journal, OpLane(base + i))
      ensures base + i >= toOp ==> Recorded(ops[i], base + i, At(Rewound(journal, toOp, now), OpLane(base + i))).None?
    {
      assert Shape(ops[i], At(journal, OpLane(base + i)));
      KeepsOpLane(ops[i], At(journal, OpLane(base + i)));
      NothingRecorded(ops[i], base + i);
    }
  }

  /** Some operation of the batch a rewind stops in lacks an outcome. */
  lemma {:induction false} RewoundIsOpen(ops: seq<Op>, base: nat, journal: Log, toOp: nat, now: Time)
    requires WellNumbered(journal)
    requires forall i :: 0 <= i < |ops| ==> Shape(ops[i], At(journal, OpLane(base + i)))
    requires ops != [] && (!AllRecorded(ops, base, journal) || base + |ops| > toOp)
    ensures !AllRecorded(ops, base, Rewound(journal, toOp, now))
  {
    hide Shape, Recorded, Rewound, At;
    RewoundBatch(ops, base, journal, toOp, now);
    if base + |ops| > toOp {
      var last := |ops| - 1;
      assert Recorded(ops[last], base + last, At(Rewound(journal, toOp, now), OpLane(base + last))).None?;
    } else {
      var i :| 0 <= i < |ops| && Recorded(ops[i], base + i, At(journal, OpLane(base + i))).None?;
      assert Recorded(ops[i], base + i, At(Rewound(journal, toOp, now), OpLane(base + i))).None?;
    }
  }

  /** Up to a boundary, `G`, the frontier clauses hold of the rewound journal. */
  lemma {:induction false} RewoundFrontOk(p: Program, journal: Log, F: seq<Outcome>, toOp: nat, now: Time,
      G: seq<Outcome>)
    requires WellNumbered(journal) && PastOk(p, journal, F) && FrontOk(p, journal, F)
    requires |G| <= |F| && G == F[..|G|] && |G| <= toOp && IsPath(p.body, G, 0)
    requires |G| < |F| ==> |G| + |p.body(G).Ops()| > toOp
    ensures FrontOk(p, Rewound(journal, toOp, now), G)
  {
    hide Shape, Recorded, NonTerminal, Rewound, At, AllRecorded, IsPath;
    if |G| < |F| {
      RecordedBelow(p, journal, F, G);
    } else {
      assert F[..|G|] == F;
    }
    var ops := p.body(G).Ops();
    RewoundBatch(ops, |G|, journal, toOp, now);
    if ops != [] {
      RewoundIsOpen(ops, |G|, journal, toOp, now);
    }
    forall id | |G| + |ops| <= id
      ensures At(Rewound(journal, toOp, now), OpLane(id)) == []
    {
      EmptyStaysEmpty(journal, toOp, now, id);
    }
  }

  /** An operation at or above the target, or without events, has none after a rewind. */
  lemma {:induction false} EmptyStaysEmpty(journal: Log, toOp: nat, now: Time, id: int)
    requires WellNumbered(journal) && (id >= toOp || At(journal, OpLane(id)) == [])
    ensures At(Rewound(journal, toOp, now), OpLane(id)) == []
  {
    hide NonTerminal, Rewound, At;
    RewoundLanes(journal, toOp, now);
    NonTerminalAll([]);
  }

  /** A rewind to any operation, of a run in any status, leaves a journal that satisfies the invariant. */
  lemma {:induction false} ResetKeepsJournal(p: Program, journal: Log, F: seq<Outcome>, toOp: nat, now: Time)
    requires IsPath(p.body, F, 0) && JournalOk(p, journal, F)
    ensures JournalOk(p, Rewound(journal, toOp, now), F[..Cut(p.body, F, 0, toOp)])
  {
    hide Rewound, At, Shape, Recorded, RunOk, PastOk, FrontOk, NonTerminal, Cut;
    var c := Cut(p.body, F, 0, toOp);
    CutIsPath(p.body, F, 0, toOp);
    RewoundIsNumbered(journal, toOp, now);
    RewoundRunOk(p, journal, toOp, now);
    RewoundPastOk(p, journal, F, toOp, now, c);
    CutIsLast(p.body, F, 0, toOp);
    RewoundFrontOk(p, journal, F, toOp, now, F[..c]);
    RewoundLanes(journal, toOp, now);
    OpenRunIsOk(p, Rewound(journal, toOp, now), F[..c]);
  }
}
