/** Resuming: what a driver does that finds everything it asks for recorded. */
module Resuming {
  import opened Wrappers
  import opened Events
  import opened Engine
  import Lanes
  import opened Paths
  import opened Invariant

  /** Acts of a body that is given recorded outcomes. */
  ghost predicate Replaying(acts: seq<Act>) {
    forall i :: 0 <= i < |acts| ==> acts[i].Back? || acts[i].Join?
  }

  lemma {:induction false} NoActs(p: Program, s: State)
    ensures Exec(p, s, []) == Some(s)
  {
  }

  lemma {:induction false} ExecConcat(p: Program, s: State, a: seq<Act>, mid: State, b: seq<Act>, s': State)
    requires Exec(p, s, a) == Some(mid) && Exec(p, mid, b) == Some(s')
    ensures Exec(p, s, a + b) == Some(s')
    decreases |a|
  {
    hide Next;
    if a == [] {
      assert a + b == b;
    } else {
      ExecConcat(p, Next(p, s, a[0]).value, a[1..], mid, b, s');
      assert (a + b)[0] == a[0] && (a + b)[1..] == a[1..] + b;
    }
  }

  lemma {:induction false} OneMore(p: Program, s: State, act: Act, s': State)
    requires Next(p, s, act) == Some(s')
    ensures Exec(p, s, [act]) == Some(s')
  {
    hide Next;
    assert [act][1..] == [];
    assert Exec(p, s', []) == Some(s');
  }

  /** The operation is recorded with that outcome, under a definition that matches. */
  ghost predicate Comes(op: Op, id: nat, journal: Log, outcome: Outcome) {
    !Diverges(op, At(journal, OpLane(id))) && Recorded(op, id, At(journal, OpLane(id))) == Some(outcome)
  }

  lemma {:induction false} OneBack(p: Program, d: Durable, h: seq<Outcome>, outs: seq<Outcome>, i: nat,
      stack: seq<Comp>)
    requires HasStarted(d.journal) && i < |outs| == |p.body(h).Ops()|
    requires Comes(p.body(h).Ops()[i], |h| + i, d.journal, outs[i])
    ensures Next(p, State(d, Some(Driver(h, Below(i), stack))), Back(i)) ==
            Some(State(d, Some(Driver(h, Below(i + 1), stack + CompOf(p.body(h).Ops()[i], |h| + i, outs[i])))))
  {
    hide CompOf, HasStarted, Recorded, Diverges, At, Below;
    assert Below(i) + {i} == Below(i + 1);
  }

  /** From the `i`-th operation on, the operations of a recorded batch come back in order. */
  lemma {:induction false} BacksInOrder(p: Program, d: Durable, h: seq<Outcome>, outs: seq<Outcome>, i: nat,
      stack: seq<Comp>)
    returns (acts: seq<Act>)
    requires HasStarted(d.journal) && i <= |outs| == |p.body(h).Ops()|
    requires forall k :: 0 <= k < |outs| ==> Comes(p.body(h).Ops()[k], |h| + k, d.journal, outs[k])
    ensures Replaying(acts)
    ensures Exec(p, State(d, Some(Driver(h, Below(i), stack))), acts) ==
            Some(State(d, Some(Driver(h, Below(|outs|), stack + BatchComps(p.body(h).Ops()[i..], |h| + i, outs[i..])))))
    decreases |outs| - i
  {
    hide CompOf, HasStarted, Comes, Next, Below;
    var ops := p.body(h).Ops();
    if i == |outs| {
      acts := [];
      assert ops[i..] == [] && outs[i..] == [];
      assert stack + [] == stack;
    } else {
      var here := State(d, Some(Driver(h, Below(i), stack)));
      var more := CompOf(ops[i], |h| + i, outs[i]);
      var next := State(d, Some(Driver(h, Below(i + 1), stack + more)));
      OneBack(p, d, h, outs, i, stack);
      var rest := BacksInOrder(p, d, h, outs, i + 1, stack + more);
      acts := [Back(i)] + rest;
      OneMore(p, here, Back(i), next);
      ExecConcat(p, here, [Back(i)], next, rest, State(d, Some(Driver(h, Below(|outs|),
                 stack + more + BatchComps(ops[i + 1..], |h| + i + 1, outs[i + 1..])))));
      assert ops[i..][1..] == ops[i + 1..] && outs[i..][1..] == outs[i + 1..];
      assert stack + more + BatchComps(ops[i + 1..], |h| + i + 1, outs[i + 1..]) ==
             stack + (more + BatchComps(ops[i + 1..], |h| + i + 1, outs[i + 1..]));
    }
  }

  lemma {:induction false} JoinsAll(p: Program, d: Durable, h: seq<Outcome>, outs: seq<Outcome>, stack: seq<Comp>)
    requires |outs| == |p.body(h).Ops()| > 0
    requires forall k :: 0 <= k < |outs| ==> Comes(p.body(h).Ops()[k], |h| + k, d.journal, outs[k])
    ensures Next(p, State(d, Some(Driver(h, Below(|outs|), stack))), Join) == Some(State(d, Some(Driver(h + outs, {}, stack))))
  {
    hide Recorded, Diverges, At;
    var ops := p.body(h).Ops();
    forall k | 0 <= k < |outs|
      ensures Recorded(ops[k], |h| + k, At(d.journal, OpLane(|h| + k))) == Some(outs[k])
    {
      assert Comes(ops[k], |h| + k, d.journal, outs[k]);
    }
    assert AllRecorded(ops, |h|, d.journal);
    assert Outcomes(ops, |h|, d.journal) == outs;
  }

  lemma {:induction false} PastPart(p: Program, journal: Log, F: seq<Outcome>)
    requires JournalOk(p, journal, F)
    ensures PastOk(p, journal, F)
  {
  }

  /** A batch below the frontier comes back with the frontier's outcomes. */
  lemma {:induction false} BatchComes(p: Program, journal: Log, G: seq<Outcome>, F: seq<Outcome>)
    requires JournalOk(p, journal, G) && |F| < |G| && F == G[..|F|] && IsPath(p.body, F, 0)
    ensures var n := |p.body(F).Ops()|;
            && 0 < n && |F| + n <= |G|
            && forall k :: 0 <= k < n ==> Comes(p.body(F).Ops()[k], |F| + k, journal, G[|F| + k])
  {
    hide Recorded, Diverges, IsPath, Lanes.Shape, At;
    PastPart(p, journal, G);
    RecordedBelow(p, journal, G, F);
    var ops := p.body(F).Ops();
    forall k | 0 <= k < |ops|
      ensures Comes(ops[k], |F| + k, journal, G[|F| + k])
    {
      assert Lanes.Shape(ops[k], At(journal, OpLane(|F| + k)));
      Lanes.DefinitionOpens(ops[k], At(journal, OpLane(|F| + k)));
    }
  }

  /** The outcomes of the batch a history below the frontier leads to. */
  lemma {:induction false} BatchOf(p: Program, journal: Log, h: seq<Outcome>, F: seq<Outcome>)
    returns (outs: seq<Outcome>)
    requires IsPath(p.body, h, 0) && JournalOk(p, journal, F) && |h| < |F| && h == F[..|h|]
    ensures |outs| == |p.body(h).Ops()| > 0 && h + outs <= F && IsPath(p.body, h + outs, 0)
    ensures forall k :: 0 <= k < |outs| ==> Comes(p.body(h).Ops()[k], |h| + k, journal, outs[k])
    ensures forall k :: 0 <= k < |outs| ==> outs[k] == F[|h| + k]
  {
    hide IsPath, JournalOk, Comes;
    BatchComes(p, journal, F, h);
    outs := F[|h|..|h| + |p.body(h).Ops()|];
    LongerIsPath(p.body, h, 0, outs);
  }

  /** Replaying one recorded batch. */
  lemma {:induction false} OneBatch(p: Program, d: Durable, F: seq<Outcome>, end: seq<Outcome>, stack: seq<Comp>)
    returns (acts: seq<Act>, outs: seq<Outcome>)
    requires IsPath(p.body, F, 0) && |F| < |end| && F == end[..|F|]
    requires JournalOk(p, d.journal, end) && HasStarted(d.journal)
    ensures Replaying(acts) && |outs| == |p.body(F).Ops()| > 0 && F + outs <= end
    ensures Exec(p, State(d, Some(Driver(F, {}, stack))), acts) ==
            Some(State(d, Some(Driver(F + outs, {}, stack + BatchComps(p.body(F).Ops(), |F|, outs)))))
  {
    hide HasStarted, IsPath, JournalOk, Next, BatchComps, Comes, Below;
    var ops := p.body(F).Ops();
    outs := BatchOf(p, d.journal, F, end);
    var full := stack + BatchComps(ops, |F|, outs);
    var backs := BacksInOrder(p, d, F, outs, 0, stack);
    assert ops[0..] == ops && outs[0..] == outs && Below(0) == {};
    var back, next := State(d, Some(Driver(F, Below(|outs|), full))), State(d, Some(Driver(F + outs, {}, full)));
    JoinsAll(p, d, F, outs, full);
    OneMore(p, back, Join, next);
    ExecConcat(p, State(d, Some(Driver(F, {}, stack))), backs, back, [Join], next);
    acts := backs + [Join];
  }

  lemma {:induction false} Together(a: seq<Comp>, b: seq<Comp>, c: seq<Comp>)
    ensures a + b + c == a + (b + c) && a + [] == a
  {
  }

  lemma {:induction false} BothReplay(a: seq<Act>, b: seq<Act>)
    requires Replaying(a) && Replaying(b)
    ensures Replaying(a + b)
  {
  }

  /** Replaying what is recorded, batch by batch, brings a driver forward to any batch up to the frontier
      `end`, with what the way there registered put on its stack. */
  lemma {:induction false} CatchUp(p: Program, d: Durable, F: seq<Outcome>, G: seq<Outcome>, end: seq<Outcome>,
      stack: seq<Comp>)
    returns (acts: seq<Act>, more: seq<Comp>)
    requires IsPath(p.body, F, 0) && IsPath(p.body, G, 0) && F <= G <= end
    requires JournalOk(p, d.journal, end) && HasStarted(d.journal)
    ensures Replaying(acts) && Comps(p.body, G, 0) == Comps(p.body, F, 0) + more
    ensures Exec(p, State(d, Some(Driver(F, {}, stack))), acts) == Some(State(d, Some(Driver(G, {}, stack + more))))
    decreases |G| - |F|
  {
    hide HasStarted, IsPath, JournalOk, Exec, Comps, BatchComps, Replaying;
    var start := State(d, Some(Driver(F, {}, stack)));
    if |G| == |F| {
      acts, more := [], [];
      assert G == F;
      Rest(p, start);
      Together(stack, [], []);
      Together(Comps(p.body, F, 0), [], []);
    } else {
      var first, outs := OneBatch(p, d, F, end, stack);
      var batch := BatchComps(p.body(F).Ops(), |F|, outs);
      var next := State(d, Some(Driver(F + outs, {}, stack + batch)));
      Longer(p, F, G, end, outs);
      var rest, later := CatchUp(p, d, F + outs, G, end, stack + batch);
      acts, more := first + rest, batch + later;
      BothReplay(first, rest);
      Together(stack, batch, later);
      Together(Comps(p.body, F, 0), batch, later);
      ExecConcat(p, start, first, next, rest, State(d, Some(Driver(G, {}, stack + more))));
    }
  }

  lemma {:induction false} Rest(p: Program, s: State)
    ensures Exec(p, s, []) == Some(s) && Replaying([])
  {
  }

  /** One more batch on the way to `G`. */
  lemma {:induction false} Longer(p: Program, F: seq<Outcome>, G: seq<Outcome>, end: seq<Outcome>, outs: seq<Outcome>)
    requires IsPath(p.body, F, 0) && IsPath(p.body, G, 0) && F <= G <= end && |F| < |G|
    requires |outs| == |p.body(F).Ops()| > 0 && F + outs <= end
    ensures IsPath(p.body, F + outs, 0) && F + outs <= G
    ensures Comps(p.body, F + outs, 0) == Comps(p.body, F, 0) + BatchComps(p.body(F).Ops(), |F|, outs)
  {
    hide IsPath, Comps, BatchComps;
    PathPrefix(p.body, F, G, 0);
    LongerIsPath(p.body, F, 0, outs);
    LongerKeepsComps(p.body, F, 0, outs);
  }
}
