/** The history a body gets to when it is given nothing but a journal's recorded outcomes. */
module Replays {
  import opened Wrappers
  import opened Events
  import opened Engine
  import opened Lanes
  import opened Paths
  import opened Invariant
  import opened Preservation

  /** Evaluating the body with nothing but a journal's recorded outcomes: the history it gets to. */
  function Replay(b: Body, journal: Log, h: seq<Outcome>): seq<Outcome>
    decreases MaxOpId(journal) + 1 - |h|
  {
    var ops := b(h).Ops();
    if ops == [] || !AllRecorded(ops, |h|, journal) then h
    else
      RecordedIsBounded(ops, |h|, journal);
      Replay(b, journal, h + Outcomes(ops, |h|, journal))
  }

  lemma {:induction false} RecordedIsBounded(ops: seq<Op>, base: nat, journal: Log)
    requires ops != [] && AllRecorded(ops, base, journal)
    ensures base + |ops| <= MaxOpId(journal) + 1
  {
    hide Recorded;
    var last := |ops| - 1;
    assert Recorded(ops[last], base + last, At(journal, OpLane(base + last))).Some?;
    if At(journal, OpLane(base + last)) == [] {
      NothingRecorded(ops[last], base + last);
    }
    LaneIsBounded(journal, base + last);
  }

  /** The frontier of the invariant is where that evaluation ends. */
  lemma {:induction false} ReplayReachesFrontier(p: Program, journal: Log, F: seq<Outcome>, h: seq<Outcome>)
    requires JournalOk(p, journal, F) && |h| <= |F| && h == F[..|h|] && IsPath(p.body, h, 0)
    ensures Replay(p.body, journal, h) == F
    decreases |F| - |h|
  {
    hide Recorded, Shape, RunOk, UndoOk, EndOk;
    var ops := p.body(h).Ops();
    if |h| < |F| {
      RecordedBelow(p, journal, F, h);
      JoinFollows(p, journal, F, h);
      PathExtend(p.body, h, 0, Outcomes(ops, |h|, journal));
      ReplayReachesFrontier(p, journal, F, h + Outcomes(ops, |h|, journal));
    } else {
      assert h == F;
    }
  }
}
