/** Changed code on a rewound run: where two bodies agree, the journal that a rewind leaves serves both. */
module Patching {
  import opened Wrappers
  import opened Events
  import opened Engine
  import opened Lanes
  import opened Paths
  import opened Invariant
  import opened Preservation
  import opened Rewind
  import opened Signals

  /** Do two bodies ask for the same at every point of the recorded history `F` with fewer than `toOp`
      outcomes? Nothing is asked of them where the run did not go. */
  ghost predicate AgreeAlong(b: Body, c: Body, F: seq<Outcome>, toOp: nat) {
    forall k: nat :: k <= |F| && k < toOp && IsPath(b, F[..k], 0) ==> b(F[..k]) == c(F[..k])
  }

  /** The same run under changed code. */
  ghost predicate OnlyBodyDiffers(p: Program, q: Program) {
    q.runId == p.runId && q.nextRunId == p.nextRunId && q.tags == p.tags
  }

  lemma {:induction false} AgreeingPaths(b: Body, c: Body, F: seq<Outcome>, h: seq<Outcome>, from: nat, toOp: nat)
    requires AgreeAlong(b, c, F, toOp) && from <= |h| <= toOp && h <= F && IsPath(b, h[..from], 0) && IsPath(b, h, from)
    ensures IsPath(c, h, from)
    ensures forall id :: from <= id < |h| ==> OpAt(b, h, from, id) == OpAt(c, h, from, id)
    decreases |h| - from
  {
    if from < |h| {
      assert F[..from] == h[..from];
      var next := from + |b(h[..from]).Ops()|;
      LongerIsPath(b, h[..from], 0, h[from..next]);
      assert h[..from] + h[from..next] == h[..next];
      AgreeingPaths(b, c, F, h, next, toOp);
    }
  }

  lemma {:induction false} SameTags(p: Program, q: Program, journal: Log)
    requires q.tags == p.tags && RunOk(p, journal)
    ensures RunOk(q, journal)
  {
  }

  /** Where two bodies agree, a journal without terminal events serves both. */
  lemma {:induction false} JournalServesBoth(p: Program, q: Program, journal: Log, F: seq<Outcome>, G: seq<Outcome>,
      toOp: nat)
    requires JournalOk(p, journal, G) && q.tags == p.tags && AgreeAlong(p.body, q.body, F, toOp) && G <= F && |G| <= toOp
    requires forall id :: At(journal, UndoLane(id)) == []
    requires forall x :: x in At(journal, RunLane) ==> x.fact.Kind() !in TERMINAL_RUN_KINDS
    requires |G| == toOp ==> forall id :: |G| <= id ==> At(journal, OpLane(id)) == []
    ensures JournalOk(q, journal, G)
  {
    hide At, Shape, Recorded, RunOk, UndoOk, EndOk, AllRecorded, IsPath;
    PathOf(p, journal, G);
    EmptyPath(p.body);
    assert G[..0] == [];
    AgreeingPaths(p.body, q.body, F, G, 0, toOp);
    SameTags(p, q, journal);
    OpenRunIsOk(q, journal, G);
    if |G| == toOp {
      NewFrontIsEmpty(q, journal, G);
    } else {
      assert F[..|G|] == G;
      assert p.body(G) == q.body(G);
    }
  }

  lemma {:induction false} EmptyPath(b: Body)
    ensures IsPath(b, [], 0)
  {
  }

  lemma {:induction false} RunPart(p: Program, journal: Log, F: seq<Outcome>)
    requires JournalOk(p, journal, F)
    ensures WellNumbered(journal) && RunOk(p, journal)
  {
  }

  /** The rewound journal satisfies the invariant for the changed body, at the same outcomes. */
  lemma {:induction false} RewoundServesBoth(p: Program, q: Program, journal: Log, F: seq<Outcome>, toOp: nat,
      now: Time)
    requires IsPath(p.body, F, 0) && JournalOk(p, journal, F)
    requires q.tags == p.tags && AgreeAlong(p.body, q.body, F, toOp)
    ensures JournalOk(q, Rewound(journal, toOp, now), F[..Cut(p.body, F, 0, toOp)])
  {
    hide Rewound, At, JournalOk, NonTerminal, Cut, IsPath;
    ResetKeepsJournal(p, journal, F, toOp, now);
    RunPart(p, journal, F);
    RewoundLanes(journal, toOp, now);
    RewoundRunOk(p, journal, toOp, now);
    JournalServesBoth(p, q, Rewound(journal, toOp, now), F, F[..Cut(p.body, F, 0, toOp)], toOp);
  }

  /** So does the whole state a rewind leaves, with the rewind's own exception of a stray successor. */
  lemma {:induction false} ResetServesBoth(p: Program, q: Program, d: Durable, F: seq<Outcome>, toOp: nat, now: Time)
    requires IsPath(p.body, F, 0) && Good(p, d, F) && SignalOrder(d.journal) && d.successor.None?
    requires q.tags == p.tags && AgreeAlong(p.body, q.body, F, toOp)
    ensures Good(q, Reset(d, toOp, now), F[..Cut(p.body, F, 0, toOp)])
    ensures SignalOrder(Reset(d, toOp, now).journal)
  {
    hide Rewound, SignalOrder, JournalOk, SignalsOk, Cut;
    ResetKeepsSignals(d, toOp, now);
    RewoundServesBoth(p, q, d.journal, F, toOp, now);
    PathOf(q, Rewound(d.journal, toOp, now), F[..Cut(p.body, F, 0, toOp)]);
  }
}
