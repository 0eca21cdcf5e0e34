/** Changed code on an old journal: the first recorded operation that does not match stops the
    resume before anything durable has happened, so the original code can still finish the run. */
module Divergence {
  import opened Wrappers
  import opened Events
  import opened Engine
  import opened Lanes
  import opened Paths
  import opened Invariant
  import opened Reachability
  import opened Replays
  import opened CrashSafety
  import opened Deadlines
  import opened Resuming

  // ---- what counts as a change ----

  /** Do two operations ask for the same: the same kind of operation and, where it has one, the same name? */
  predicate SameRequest(a: Op, b: Op) {
    || (a.Step? && b.Step? && a.name == b.name)
    || (a.Child? && b.Child? && a.workflow == b.workflow)
    || (a.Timer? && b.Timer?)
    || (a.Wait? && b.Wait? && a.name == b.name)
    || (a.Value? && b.Value? && a.subkind == b.subkind)
    || (a.Tag? && b.Tag?)
    || (a.Register? && b.Register? && a.comp.name == b.comp.name)
  }

  /** What one operation journaled first is accepted for another exactly when both ask for the same. */
  lemma {:induction false} OpeningFits(a: Op, b: Op, id: nat, runId: string, w: World)
    ensures Expected(a, Opening(b, id, runId, w)) <==> SameRequest(a, b)
  {
  }

  /** So is its whole lane, at any later moment. */
  lemma {:induction false} LaneFits(a: Op, b: Op, lane: seq<Entry>)
    requires Shape(b, lane) && lane != []
    ensures Diverges(a, lane) <==> !SameRequest(a, b)
  {
    hide Tries, StepKinds;
    DefinitionOpens(b, lane);
  }

  /** Where two operations ask for the same, a lane records the same outcome for both. */
  lemma {:induction false} SameOutcomeFor(a: Op, b: Op, id: nat, lane: seq<Entry>)
    requires SameRequest(a, b)
    ensures Recorded(a, id, lane) == Recorded(b, id, lane)
  {
  }

  /** A live action of changed code `q` at an op id where a run of `p` recorded something ends the driver
      with nothing written, if and only if `q` asks there for another kind of operation or another name than
      `p` did. */
  lemma {:induction false} ChangedRequestStops(p: Program, q: Program, s: State, v: Driver, index: nat, w: World, b: Op)
    requires Reachable(p, s) && HasStarted(s.d.journal) && index < |q.body(v.h).Ops()|
    requires At(s.d.journal, OpLane(|v.h| + index)) != []
    requires IsPath(p.body, Replay(p.body, s.d.journal, []), 0)
    requires RequestedAt(p.body, Replay(p.body, s.d.journal, []), |v.h| + index) == Some(b)
    ensures Next(q, State(s.d, Some(v)), Live(index, w, false)) == Some(State(s.d, None)) <==>
            !SameRequest(q.body(v.h).Ops()[index], b)
    ensures !SameRequest(q.body(v.h).Ops()[index], b) ==> Next(q, State(s.d, Some(v)), Back(index)).None?
  {
    hide Reachable, HasStarted, Replay, Recorded, At, Opening, Progress, Touch, Definition, RequestedAt, Expected,
        IsPath, SameRequest, Shape;
    EveryLaneIsRequested(p, s, |v.h| + index);
    LaneFits(q.body(v.h).Ops()[index], b, At(s.d.journal, OpLane(|v.h| + index)));
    hide Diverges;
  }

  // ---- a resume of changed code ----

  /** Replaying body `b` against the journal, every operation along `h` matches and is recorded with
      the outcome `h` holds, and the operation after `h` does not match. */
  ghost predicate FirstMismatch(b: Body, journal: Log, h: seq<Outcome>) {
    && (forall k :: 0 <= k < |h| ==> Matches(b, journal, h, k))
    && Mismatches(b, journal, h)
  }

  ghost predicate Matches(b: Body, journal: Log, h: seq<Outcome>, k: nat)
    requires k < |h|
  {
    var ops, lane := b(h[..k]).Ops(), At(journal, OpLane(k));
    |ops| == 1 && !Diverges(ops[0], lane) && Recorded(ops[0], k, lane) == Some(h[k])
  }

  ghost predicate Mismatches(b: Body, journal: Log, h: seq<Outcome>) {
    var ops := b(h).Ops();
    |ops| == 1 && Diverges(ops[0], At(journal, OpLane(|h|)))
  }

  /** A resume of the changed code is still replaying, at or before the mismatch. */
  ghost predicate Resumes(b: Body, journal: Log, h: seq<Outcome>, s: State) {
    && FirstMismatch(b, journal, h) && s.d.journal == journal && HasStarted(journal)
    && (s.v.Some? ==> s.v.value.h <= h && (s.v.value.h == h ==> s.v.value.returned == {}))
  }

  /** What a resume may do to the store while it replays: nothing but take in and flag signals. */
  ghost predicate OnlyInbox(d: Durable, d': Durable) {
    d' == d.(inbox := d'.inbox)
  }

  lemma {:induction false} AtMostReplaying(b: Body, journal: Log, h: seq<Outcome>, v: Driver)
    requires FirstMismatch(b, journal, h) && v.h <= h
    ensures |b(v.h).Ops()| == 1
    ensures var op, lane := b(v.h).Ops()[0], At(journal, OpLane(|v.h|));
            if v.h == h then Diverges(op, lane) else !Diverges(op, lane) && Recorded(op, |v.h|, lane) == Some(h[|v.h|])
  {
    hide Diverges, Recorded, At;
    if v.h != h {
      assert Matches(b, journal, h, |v.h|);
      assert h[..|v.h|] == v.h;
    }
  }

  lemma {:induction false} ReplayingStays(q: Program, journal: Log, h: seq<Outcome>, s: State, act: Act, s': State)
    requires Resumes(q.body, journal, h, s) && Next(q, s, act) == Some(s')
    ensures Resumes(q.body, journal, h, s') && OnlyInbox(s.d, s'.d)
    ensures act.Live? ==> s.v.value.h == h && s' == State(s.d, None)
  {
    hide Diverges, Recorded, At, HasStarted, FirstMismatch;
    if s.v.Some? {
      var v := s.v.value;
      AtMostReplaying(q.body, journal, h, v);
      assert |v.h| + 0 == |v.h|;
      if act.Join? {
        JoinReplays(q.body, journal, h, v);
      }
    }
  }

  lemma {:induction false} JoinReplays(b: Body, journal: Log, h: seq<Outcome>, v: Driver)
    requires FirstMismatch(b, journal, h) && v.h <= h && AllRecorded(b(v.h).Ops(), |v.h|, journal)
    requires 0 in v.returned ==> v.h != h
    requires 0 in v.returned
    ensures v.h + Outcomes(b(v.h).Ops(), |v.h|, journal) <= h
  {
    hide Diverges, Recorded, At, FirstMismatch;
    AtMostReplaying(b, journal, h, v);
    var outs := Outcomes(b(v.h).Ops(), |v.h|, journal);
    assert |v.h| + 0 == |v.h|;
    assert outs[0] == h[|v.h|];
  }

  lemma {:induction false} ReplayingRuns(q: Program, journal: Log, h: seq<Outcome>, s: State, acts: seq<Act>, s': State)
    requires Resumes(q.body, journal, h, s) && Exec(q, s, acts) == Some(s')
    ensures Resumes(q.body, journal, h, s') && OnlyInbox(s.d, s'.d)
    decreases |acts|
  {
    hide Resumes, Next;
    if acts != [] {
      var mid := Next(q, s, acts[0]).value;
      ReplayingStays(q, journal, h, s, acts[0], mid);
      ReplayingRuns(q, journal, h, mid, acts[1..], s');
    }
  }

  // ---- the original code is unharmed ----

  /** What a replaying resume did to the inbox, the original code could have done. */
  lemma {:induction false} SameInboxStep(p: Program, q: Program, journal: Log, h: seq<Outcome>, s: State, act: Act,
      s': State)
    requires Resumes(q.body, journal, h, s) && Next(q, s, act) == Some(s')
    requires Reachable(p, State(s.d, None))
    ensures Reachable(p, State(s'.d, None))
  {
    hide Diverges, Recorded, At, HasStarted, Reachable, Resumes, Exec;
    ReplayingStays(q, journal, h, s, act, s');
    var start, end := State(s.d, None), State(s'.d, None);
    match act {
      case Deliver(_, _) =>
        assert Next(p, start, act) == Some(end);
        OneAct(p, start, act, end);
      case Acknowledge(_) =>
        var awake, acked := State(s.d, Some(Driver([], {}, []))), State(s'.d, Some(Driver([], {}, [])));
        OneAct(p, start, Boot, awake);
        OneAct(p, awake, act, acked);
        OneAct(p, acked, Crash, end);
      case _ =>
    }
  }

  lemma {:induction false} OneAct(p: Program, s: State, act: Act, s': State)
    requires Reachable(p, s) && Next(p, s, act) == Some(s')
    ensures Reachable(p, s')
  {
    hide Next, Reachable;
    assert [act][1..] == [];
    assert Exec(p, s', []) == Some(s');
    assert Exec(p, s, [act]) == Some(s');
    StaysReachable(p, s, [act], s');
  }

  lemma {:induction false} SameInbox(p: Program, q: Program, journal: Log, h: seq<Outcome>, s: State, acts: seq<Act>,
      s': State)
    requires Resumes(q.body, journal, h, s) && Exec(q, s, acts) == Some(s')
    requires Reachable(p, State(s.d, None))
    ensures Reachable(p, State(s'.d, None))
    decreases |acts|
  {
    hide Resumes, Next, Reachable;
    if acts != [] {
      var mid := Next(q, s, acts[0]).value;
      ReplayingStays(q, journal, h, s, acts[0], mid);
      SameInboxStep(p, q, journal, h, s, acts[0], mid);
      SameInbox(p, q, journal, h, mid, acts[1..], s');
    }
  }

  /** Resuming a run of `p` with changed code `q` whose first mismatch is at a recorded operation: no
      schedule invokes a step or compensation, appends an event or touches the run record, and `p` can
      take the run up again afterwards as if nothing had happened. */
  lemma {:induction false} DivergenceIsHarmless(p: Program, q: Program, d: Durable, h: seq<Outcome>, acts: seq<Act>,
      s': State)
    requires Reachable(p, State(d, None)) && HasStarted(d.journal)
    requires FirstMismatch(q.body, d.journal, h)
    requires Exec(q, State(d, None), acts) == Some(s')
    ensures s'.d.journal == d.journal && s'.d.calls == d.calls && s'.d.answers == d.answers && s'.d.record == d.record
    ensures s'.d.tags == d.tags && s'.d.successor == d.successor
    ensures Reachable(p, State(s'.d, None))
  {
    hide Reachable, FirstMismatch, Exec, HasStarted;
    ReplayingRuns(q, d.journal, h, State(d, None), acts, s');
    SameInbox(p, q, d.journal, h, State(d, None), acts, s');
  }

  /** And the mismatch is always found: replaying from the top gets to it, and the live action there
      ends the driver with nothing written. */
  lemma {:induction false} MismatchIsFound(q: Program, d: Durable, h: seq<Outcome>, k: nat, stack: seq<Comp>, w: World)
    returns (acts: seq<Act>)
    requires HasStarted(d.journal) && FirstMismatch(q.body, d.journal, h) && k <= |h|
    ensures Exec(q, State(d, Some(Driver(h[..k], {}, stack))), acts + [Live(0, w, false)]) == Some(State(d, None))
    decreases |h| - k
  {
    hide Diverges, Recorded, At, HasStarted, FirstMismatch;
    var v := Driver(h[..k], {}, stack);
    var s := State(d, Some(v));
    AtMostReplaying(q.body, d.journal, h, v);
    assert |v.h| + 0 == |v.h|;
    if k == |h| {
      acts := [];
      assert h[..k] == h;
      assert [] + [Live(0, w, false)] == [Live(0, w, false)];
      assert [Live(0, w, false)][1..] == [];
      assert Exec(q, State(d, None), []) == Some(State(d, None));
    } else {
      var more := CompOf(q.body(v.h).Ops()[0], k, h[k]);
      var back, next := State(d, Some(Driver(v.h, {0}, stack + more))), State(d, Some(Driver(h[..k + 1], {}, stack + more)));
      var rest := MismatchIsFound(q, d, h, k + 1, stack + more, w);
      ReplaysOne(q, d, h, k, stack, more);
      acts := [Back(0), Join] + rest;
      hide Next;
      assert (acts + [Live(0, w, false)])[1..] == [Join] + rest + [Live(0, w, false)];
      assert ([Join] + rest + [Live(0, w, false)])[1..] == rest + [Live(0, w, false)];
      assert Exec(q, back, [Join] + rest + [Live(0, w, false)]) == Some(State(d, None));
    }
  }

  lemma {:induction false} ReplaysOne(q: Program, d: Durable, h: seq<Outcome>, k: nat, stack: seq<Comp>,
      more: seq<Comp>)
    requires HasStarted(d.journal) && FirstMismatch(q.body, d.journal, h) && k < |h|
    requires |q.body(h[..k]).Ops()| == 1 && more == CompOf(q.body(h[..k]).Ops()[0], k, h[k])
    ensures Next(q, State(d, Some(Driver(h[..k], {}, stack))), Back(0)) == Some(State(d, Some(Driver(h[..k], {0}, stack + more))))
    ensures Next(q, State(d, Some(Driver(h[..k], {0}, stack + more))), Join) ==
            Some(State(d, Some(Driver(h[..k + 1], {}, stack + more))))
  {
    hide Diverges, Recorded, At, HasStarted, FirstMismatch, CompOf;
    var v := Driver(h[..k], {}, stack);
    AtMostReplaying(q.body, d.journal, h, v);
    assert k + 0 == k;
    var ops := q.body(v.h).Ops();
    assert AllRecorded(ops, k, d.journal);
    var outs := Outcomes(ops, k, d.journal);
    assert outs == [h[k]];
    assert h[..k] + outs == h[..k + 1];
    assert {} + {0} == {0};
  }

  // ---- the changed request, found ----

  /** The changed body asks, one operation at a time, for what the run recorded along `h` and is given those
      outcomes; at the op id behind `h` the run recorded an operation too, and it asks for another. */
  ghost predicate Departs(p: Program, q: Program, journal: Log, F: seq<Outcome>, h: seq<Outcome>)
    requires IsPath(p.body, F, 0)
  {
    && (forall k :: 0 <= k < |h| ==> AsksAlike(p, q, journal, F, h, k))
    && AsksElse(p, q, journal, F, h)
  }

  ghost predicate AsksAlike(p: Program, q: Program, journal: Log, F: seq<Outcome>, h: seq<Outcome>, k: nat)
    requires IsPath(p.body, F, 0) && k < |h|
  {
    var ops, b := q.body(h[..k]).Ops(), RequestedAt(p.body, F, k);
    && |ops| == 1 && b.Some? && SameRequest(ops[0], b.value)
    && Recorded(b.value, k, At(journal, OpLane(k))) == Some(h[k])
  }

  ghost predicate AsksElse(p: Program, q: Program, journal: Log, F: seq<Outcome>, h: seq<Outcome>)
    requires IsPath(p.body, F, 0)
  {
    var ops, b := q.body(h).Ops(), RequestedAt(p.body, F, |h|);
    |ops| == 1 && b.Some? && At(journal, OpLane(|h|)) != [] && !SameRequest(ops[0], b.value)
  }

  /** The first mismatch a resume finds is the first operation that asks for something else. */
  lemma {:induction false} MismatchIsAnotherRequest(p: Program, q: Program, s: State, F: seq<Outcome>, h: seq<Outcome>)
    requires Reachable(p, s) && F == Replay(p.body, s.d.journal, []) && IsPath(p.body, F, 0)
    ensures FirstMismatch(q.body, s.d.journal, h) <==> Departs(p, q, s.d.journal, F, h)
  {
    hide Reachable, Replay, Recorded, At, RequestedAt, IsPath, SameRequest, Shape, Diverges;
    forall k: nat | k < |h|
      ensures Matches(q.body, s.d.journal, h, k) <==> AsksAlike(p, q, s.d.journal, F, h, k)
    {
      EveryLaneIsRequested(p, s, k);
      MatchIsAlike(p, q, s.d.journal, F, h, k);
    }
    EveryLaneIsRequested(p, s, |h|);
    MismatchIsElse(p, q, s.d.journal, F, h);
  }

  lemma {:induction false} MatchIsAlike(p: Program, q: Program, journal: Log, F: seq<Outcome>, h: seq<Outcome>, k: nat)
    requires IsPath(p.body, F, 0) && k < |h|
    requires var b, lane := RequestedAt(p.body, F, k), At(journal, OpLane(k));
             if b.Some? then Shape(b.value, lane) else lane == []
    ensures Matches(q.body, journal, h, k) <==> AsksAlike(p, q, journal, F, h, k)
  {
    hide Recorded, At, RequestedAt, IsPath, SameRequest, Shape, Diverges;
    var ops, b, lane := q.body(h[..k]).Ops(), RequestedAt(p.body, F, k), At(journal, OpLane(k));
    if |ops| == 1 {
      if lane == [] {
        NothingRecorded(ops[0], k);
        if b.Some? { NothingRecorded(b.value, k); }
      } else {
        LaneFits(ops[0], b.value, lane);
        if SameRequest(ops[0], b.value) { SameOutcomeFor(ops[0], b.value, k, lane); }
      }
    }
  }

  lemma {:induction false} MismatchIsElse(p: Program, q: Program, journal: Log, F: seq<Outcome>, h: seq<Outcome>)
    requires IsPath(p.body, F, 0)
    requires var b, lane := RequestedAt(p.body, F, |h|), At(journal, OpLane(|h|));
             if b.Some? then Shape(b.value, lane) else lane == []
    ensures Mismatches(q.body, journal, h) <==> AsksElse(p, q, journal, F, h)
  {
    hide Recorded, At, RequestedAt, IsPath, SameRequest, Shape;
    var ops, b, lane := q.body(h).Ops(), RequestedAt(p.body, F, |h|), At(journal, OpLane(|h|));
    if |ops| == 1 {
      if lane != [] {
        hide Diverges;
        LaneFits(ops[0], b.value, lane);
      }
    }
  }

  /** Resuming a run of `p` with code `q` that asks for another operation at a recorded op id, of another kind
      or under another name: the resume gets there and ends there, and whatever it does before and however
      often it is tried, nothing durable changes but the inbox. */
  lemma {:induction false} ChangedCodeIsStopped(p: Program, q: Program, s: State, F: seq<Outcome>, h: seq<Outcome>, w: World)
    returns (acts: seq<Act>)
    requires Reachable(p, s) && HasStarted(s.d.journal) && F == Replay(p.body, s.d.journal, []) && IsPath(p.body, F, 0)
    requires Departs(p, q, s.d.journal, F, h)
    ensures Exec(q, State(s.d, None), [Boot] + acts + [Live(0, w, false)]) == Some(State(s.d, None))
    ensures forall more, s' :: Exec(q, State(s.d, None), more) == Some(s') ==> OnlyInbox(s.d, s'.d)
  {
    hide Reachable, HasStarted, Replay, IsPath, Departs, FirstMismatch, Exec, OnlyInbox, Next;
    MismatchIsAnotherRequest(p, q, s, F, h);
    acts := MismatchIsFound(q, s.d, h, 0, [], w);
    assert h[..0] == [];
    var rest, booted := acts + [Live(0, w, false)], State(s.d, Some(Driver([], {}, [])));
    assert Next(q, State(s.d, None), Boot) == Some(booted) by { CanBoot(q, s.d); }
    OneMore(q, State(s.d, None), Boot, booted);
    ExecConcat(q, State(s.d, None), [Boot], booted, rest, State(s.d, None));
    assert [Boot] + rest == [Boot] + acts + [Live(0, w, false)];
    forall more, s' | Exec(q, State(s.d, None), more) == Some(s')
      ensures OnlyInbox(s.d, s'.d)
    {
      ReplayingRuns(q, s.d.journal, h, State(s.d, None), more, s');
    }
  }

  lemma {:induction false} CanBoot(q: Program, d: Durable)
    ensures Next(q, State(d, None), Boot) == Some(State(d, Some(Driver([], {}, []))))
  {
  }
}
