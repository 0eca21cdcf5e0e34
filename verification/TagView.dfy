/** Tags a workflow sets on its own run: however often a crash cut an update in two, the stored tags are
    the journaled updates applied once each, in order. */
module TagView {
  import opened Wrappers
  import opened Events
  import opened Engine
  import opened Lanes
  import opened Paths
  import opened Invariant
  import opened Preservation
  import opened Endings
  import opened Reachability
  import opened Replays
  import opened CrashSafety
  import opened Effects
  import opened Saga
  import opened Resuming
  import opened Transparency
  import Stores

  /** The update the body is waiting for, if it waits for one. */
  function Pending(p: Program, F: seq<Outcome>): Option<map<string, Option<string>>> {
    match p.body(F)
    case Await(Tag(update), _) => Some(update)
    case _ => None
  }

  /** A tag update is never gathered with other operations. */
  ghost predicate LoneTags(p: Program) {
    forall h: seq<Outcome> :: TagsAlone(p.body(h).Ops())
  }

  ghost predicate TagsAlone(ops: seq<Op>) {
    forall op :: op in ops && op.Tag? ==> ops == [op]
  }

  /** The stored tags are `tags` with the updates of the recorded history from its `n`-th outcome on, or are
      one update ahead of that. */
  ghost predicate TagsOk(p: Program, d: Durable, F: seq<Outcome>, tags: map<string, string>, n: nat) {
    && n <= |F|
    && (|| d.tags == TagsAfter(tags, F[n..])
        || (Pending(p, F).Some? && d.tags == MergeTags(TagsAfter(tags, F[n..]), Pending(p, F).value)))
  }

  predicate TellsTag(op: Op, outcome: Outcome) {
    if op.Tag? then outcome == Tagged(op.update) else !outcome.Tagged?
  }

  /** The outcome of an operation is a tag update exactly when the operation is one, and then it is that update. */
  lemma {:induction false} TagOutcome(op: Op, id: nat, lane: seq<Entry>)
    requires Shape(op, lane) && Recorded(op, id, lane).Some?
    ensures TellsTag(op, Recorded(op, id, lane).value)
  {
    hide Tries, StepKinds;
  }

  /** A batch below the frontier: its outcomes are tag updates exactly where its operations are. */
  lemma {:induction false} BatchOutcomes(p: Program, journal: Log, F: seq<Outcome>, G: seq<Outcome>)
    requires JournalOk(p, journal, G) && |F| < |G| && F == G[..|F|] && IsPath(p.body, F, 0)
    requires |G| == |F| + |p.body(F).Ops()|
    ensures forall i :: 0 <= i < |p.body(F).Ops()| ==> TellsTag(p.body(F).Ops()[i], G[|F| + i])
  {
    hide Recorded, Shape, IsPath, At, TellsTag;
    RecordedBelow(p, journal, G, F) by { PastPart(p, journal, G); }
    var ops := p.body(F).Ops();
    forall i | 0 <= i < |ops|
      ensures TellsTag(ops[i], G[|F| + i])
    {
      TagOutcome(ops[i], |F| + i, At(journal, OpLane(|F| + i)));
    }
  }

  /** Other outcomes leave the tags alone. */
  lemma {:induction false} OthersLeaveTags(tags: map<string, string>, h: seq<Outcome>, more: seq<Outcome>)
    requires forall o :: o in more ==> !o.Tagged?
    ensures TagsAfter(tags, h + more) == TagsAfter(tags, h)
    decreases |more|
  {
    if more == [] {
      assert h + more == h;
    } else {
      var init, last := more[..|more| - 1], more[|more| - 1];
      assert last in more;
      assert h + more == h + init + [last];
      assert (h + more)[..|h + more| - 1] == h + init;
      OthersLeaveTags(tags, h, init);
    }
  }

  /** A journaled tag update is complete at once: none is ever at the frontier. */
  lemma {:induction false} TagMovesOn(p: Program, journal: Log, F: seq<Outcome>)
    requires JournalOk(p, journal, F) && |p.body(F).Ops()| == 1
    ensures p.body(F).Ops()[0].Tag? ==> At(journal, OpLane(|F|)) == []
  {
    hide IsPath, RunOk, PastOk, UndoOk, EndOk, At;
    var ops := p.body(F).Ops();
    assert Shape(ops[0], At(journal, OpLane(|F| + 0)));
    assert Recorded(ops[0], |F| + 0, At(journal, OpLane(|F| + 0))).None?;
  }

  /** The frontier moves by at most one batch at a time. */
  lemma {:induction false} OneBatchAtATime(p: Program, journal: Log, F: seq<Outcome>, index: nat, e: Event,
      G: seq<Outcome>)
    requires JournalOk(p, journal, F) && JournalOk(p, journal + [e], G) && |F| <= |G| && F == G[..|F|]
    requires index < |p.body(F).Ops()| && LaneOf(e) == OpLane(|F| + index)
    ensures G == F || |G| == |F| + |p.body(F).Ops()|
  {
    hide Recorded, Lanes.Shape, IsPath, At, LaneOf;
    AtAppend(journal, e);
    var next := |F| + |p.body(F).Ops()|;
    assert At(journal + [e], OpLane(next)) == [];
    PathOf(p, journal, F);
    PathOf(p, journal + [e], G);
    if |G| > |F| {
      PathPrefix(p.body, F, G, 0);
      if |G| > next {
        PastHasEvents(p, journal + [e], G, next);
      }
    } else {
      assert G == F;
    }
  }

  /** What a new stretch of history does to the tags. */
  lemma {:induction false} HistoryMovesTags(p: Program, F: seq<Outcome>, G: seq<Outcome>, tags: map<string, string>,
      n: nat)
    requires TagsAlone(p.body(F).Ops()) && n <= |F| < |G| && F == G[..|F|] && |G| == |F| + |p.body(F).Ops()|
    requires forall i :: 0 <= i < |p.body(F).Ops()| ==> TellsTag(p.body(F).Ops()[i], G[|F| + i])
    ensures TagsAfter(tags, G[n..]) ==
            if Pending(p, F).Some? then MergeTags(TagsAfter(tags, F[n..]), Pending(p, F).value) else TagsAfter(tags, F[n..])
  {
    hide TagsAfter, MergeTags;
    var ops := p.body(F).Ops();
    assert ops[0] in ops;
    if Pending(p, F).Some? {
      assert G[n..][..|F| - n] == F[n..] && G[n..][|F| - n] == G[|F| + 0];
      TagsAfterOne(tags, F[n..], G[n..]);
    } else {
      var more := G[|F|..];
      assert G[n..] == F[n..] + more;
      forall o | o in more
        ensures !o.Tagged?
      {
        var i :| 0 <= i < |more| && more[i] == o;
        assert TellsTag(ops[i], G[|F| + i]) && ops[i] in ops;
      }
      OthersLeaveTags(tags, F[n..], more);
    }
  }

  /** A live action: what it does to the stored tags, and where the frontier is afterwards. */
  lemma {:induction false} LiveKeepsTags(p: Program, s: State, F: seq<Outcome>, index: nat, w: World, lost: bool,
      s': State,
      G: seq<Outcome>, tags: map<string, string>, n: nat)
    requires LoneTags(p) && InvAt(p, s, F) && InvAt(p, s', G) && Next(p, s, Live(index, w, lost)) == Some(s')
    requires |F| <= |G| && F == G[..|F|] && TagsOk(p, s.d, F, tags, n)
    ensures TagsOk(p, s'.d, G, tags, n)
  {
    hide Recorded, Diverges, Opening, Progress, Invocation, JournalOk, SignalsOk, RecordOk, SuccessorOk, DriverOk,
        HasStarted, TagsAfter, At, LaneOf, IsPath, MergeTags, TellsTag, TagsAlone, LoneTags;
    JournalPart(p, s, F);
    JournalPart(p, s', G);
    PathOf(p, s.d.journal, F);
    LiveMeansFrontier(p, s.d.journal, F, s.v.value, index);
    var op, id := p.body(F).Ops()[index], |F| + index;
    OnlyTag(p, F, index);
    if op.Tag? { Stores.MergeTwice(TagsAfter(tags, F[n..]), op.update); }
    if s'.d.journal == s.d.journal {
      SameFrontier(p, s, F, s', G);
    } else {
      var e := s'.d.journal[|s.d.journal|];
      assert s'.d.journal == s.d.journal + [e];
      OpLaneOfFact(op, id, p.runId, At(s.d.journal, OpLane(id)), ConsumedSeqs(s.d.journal), s.d.inbox, w, e);
      OneBatchAtATime(p, s.d.journal, F, index, e, G);
      AtAppend(s.d.journal, e);
      if |G| > |F| {
        BatchOutcomes(p, s'.d.journal, F, G);
        HistoryMovesTags(p, F, G, tags, n);
      } else if op.Tag? {
        assert At(s'.d.journal, OpLane(|F| + 0)) != [];
        TagMovesOn(p, s'.d.journal, F);
      }
    }
  }

  lemma {:induction false} OnlyTag(p: Program, F: seq<Outcome>, index: nat)
    requires LoneTags(p) && index < |p.body(F).Ops()|
    ensures TagsAlone(p.body(F).Ops())
    ensures if p.body(F).Ops()[index].Tag? then |p.body(F).Ops()| == 1 && index == 0 && Pending(p, F) == Some(p.body(F).Ops()[0].update)
            else Pending(p, F).None?
  {
    var ops := p.body(F).Ops();
    assert ops[index] in ops && ops[0] in ops;
    assert TagsAlone(ops);
  }

  lemma {:induction false} QuietKeepsTags(p: Program, s: State, act: Act, s': State)
    requires Next(p, s, act) == Some(s') && !act.Live?
    ensures s'.d.tags == s.d.tags
  {
    hide Recorded, UndoProgress, NextUndo, HasStarted, First, FailuresOf, AllRecorded;
  }

  lemma {:induction false} RunKeepsTags(p: Program, s: State, F: seq<Outcome>, acts: seq<Act>, s': State,
      tags: map<string, string>, n: nat)
    returns (G: seq<Outcome>)
    requires LoneTags(p) && InvAt(p, s, F) && TagsOk(p, s.d, F, tags, n) && Exec(p, s, acts) == Some(s')
    ensures InvAt(p, s', G) && TagsOk(p, s'.d, G, tags, n)
    decreases |acts|
  {
    hide InvAt, Next, TagsOk, LoneTags;
    if acts == [] {
      G := F;
    } else {
      var mid, act := Next(p, s, acts[0]).value, acts[0];
      var H := NextKeeps(p, s, F, act, mid);
      if act.Live? {
        LiveKeepsTags(p, s, F, act.index, act.w, act.lost, mid, H, tags, n);
      } else {
        ActKeepsFrontier(p, s, F, act, mid, H);
        QuietKeepsTags(p, s, act, mid);
        SameTags(p, s.d, mid.d, F, tags, n);
      }
      G := RunKeepsTags(p, mid, H, acts[1..], s', tags, n);
    }
  }

  lemma {:induction false} SameTags(p: Program, d: Durable, d': Durable, F: seq<Outcome>, tags: map<string, string>,
      n: nat)
    requires TagsOk(p, d, F, tags, n) && d'.tags == d.tags
    ensures TagsOk(p, d', F, tags, n)
  {
  }

  /** From the creation of a run, from a rewind or from a takeover by changed code on, under any schedule of
      crashes: the stored tags are what they were there with every update the body journaled since applied
      once, in order, or one update ahead of the journal while that one is being made. */
  lemma {:induction false} StoredTagsFollowTheJournal(p: Program, start: State, acts: seq<Act>, s: State)
    requires LoneTags(p) && Reachable(p, start) && Exec(p, start, acts) == Some(s)
    ensures var n := |Replay(p.body, start.d.journal, [])|;
            && TagsOk(p, s.d, Replay(p.body, s.d.journal, []), start.d.tags, n)
            && (!s.d.record.Running? ==> s.d.tags == TagsAfter(start.d.tags, Replay(p.body, s.d.journal, [])[n..]))
  {
    hide Exec, Replay, InvAt, TagsOk, Reachable, LoneTags;
    var F := ReachableIsInvariant(p, start);
    NoneSince(p, start.d, F);
    var G := RunKeepsTags(p, start, F, acts, s, start.d.tags, |F|);
    JournalPart(p, s, G);
    NoComps(p.body);
    ReplayReachesFrontier(p, s.d.journal, G, []);
    assert |F| <= |G| by { TagsFrom(p, s.d, G, start.d.tags, |F|); }
    if !s.d.record.Running? {
      EndedIsNotWaiting(p, s, G, start.d.tags, |F|);
    }
  }

  lemma {:induction false} TagsFrom(p: Program, d: Durable, F: seq<Outcome>, tags: map<string, string>, n: nat)
    requires TagsOk(p, d, F, tags, n)
    ensures n <= |F|
  {
  }

  lemma {:induction false} NoneSince(p: Program, d: Durable, F: seq<Outcome>)
    ensures TagsOk(p, d, F, d.tags, |F|)
  {
    assert F[|F|..] == [];
  }

  /** Crashes are invisible in the stored tags too, once the run has ended. */
  lemma {:induction false} TagsAreTransparent(p: Program, start: State, acts: seq<Act>, s: State)
    returns (clean: seq<Act>, t: State)
    requires LoneTags(p) && Reachable(p, start) && start.v.None? && start.d.record.Running?
    requires Exec(p, start, acts) == Some(s)
    requires var G := Replay(p.body, s.d.journal, []);
             p.body(G).Raise? ==> LoneUndos(p.body, G, 0) || (FairlyReached(p, start) && FairActs(p, start, acts))
    ensures Uninterrupted(clean) && Exec(p, start, [Boot] + clean) == Some(t) && SameRun(s.d, t.d)
    ensures !s.d.record.Running? ==> s.d.tags == t.d.tags
  {
    hide Exec, Replay, TagsAfter, TagsOk, Reachable, SameSignals, FairlyReached, FairActs, InvAt, LoneUndos, LoneTags;
    clean, t := CrashesAreInvisible(p, start, acts, s);
    StoredTagsFollowTheJournal(p, start, acts, s);
    StoredTagsFollowTheJournal(p, start, [Boot] + clean, t);
  }

  lemma {:induction false} EndedIsNotWaiting(p: Program, s: State, F: seq<Outcome>, tags: map<string, string>, n: nat)
    requires InvAt(p, s, F) && !s.d.record.Running? && TagsOk(p, s.d, F, tags, n)
    ensures s.d.tags == TagsAfter(tags, F[n..])
  {
    hide JournalOk, SignalsOk, Comps, FailureList, DriverOk, TagsAfter;
    PathOf(p, s.d.journal, F);
  }
}
