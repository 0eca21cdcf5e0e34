/** Histories a deterministic body can reach: each await is followed by the outcomes of exactly the
    operations it asked for. */
module Paths {
  import opened Wrappers
  import opened Events
  import opened Engine

  ghost predicate IsPath(b: Body, h: seq<Outcome>, from: nat)
    requires from <= |h|
    decreases |h| - from
  {
    || from == |h|
    || (var n := |b(h[..from]).Ops()|; 0 < n && from + n <= |h| && IsPath(b, h, from + n))
  }

  /** The operation a body requests at op id `id` along history `h`. */
  ghost function OpAt(b: Body, h: seq<Outcome>, from: nat, id: nat): Op
    requires from <= id < |h| && IsPath(b, h, from)
    decreases |h| - from
  {
    var ops := b(h[..from]).Ops();
    if id < from + |ops| then ops[id - from] else OpAt(b, h, from + |ops|, id)
  }

  ghost function BatchComps(ops: seq<Op>, base: nat, outcomes: seq<Outcome>): seq<Comp>
    requires |ops| == |outcomes|
  {
    if ops == [] then []
    else CompOf(ops[0], base, outcomes[0]) + BatchComps(ops[1..], base + 1, outcomes[1..])
  }

  /** The compensations registered along history `h`, in op order. */
  ghost function Comps(b: Body, h: seq<Outcome>, from: nat): seq<Comp>
    requires from <= |h| && IsPath(b, h, from)
    decreases |h| - from
  {
    if from == |h| then []
    else
      var ops := b(h[..from]).Ops();
      BatchComps(ops, from, h[from..from + |ops|]) + Comps(b, h, from + |ops|)
  }

  lemma {:induction false} BatchCompsMembers(ops: seq<Op>, base: nat, outcomes: seq<Outcome>, c: Comp)
    requires |ops| == |outcomes|
    ensures c in BatchComps(ops, base, outcomes) <==>
            exists i :: 0 <= i < |ops| && c in CompOf(ops[i], base + i, outcomes[i])
  {
    if ops != [] {
      BatchCompsMembers(ops[1..], base + 1, outcomes[1..], c);
      if c in BatchComps(ops[1..], base + 1, outcomes[1..]) {
        var i :| 0 <= i < |ops[1..]| && c in CompOf(ops[1..][i], base + 1 + i, outcomes[1..][i]);
        assert c in CompOf(ops[i + 1], base + (i + 1), outcomes[i + 1]);
      }
      if i :| 0 <= i < |ops| && c in CompOf(ops[i], base + i, outcomes[i]) {
        if i > 0 {
          assert c in CompOf(ops[1..][i - 1], base + 1 + (i - 1), outcomes[1..][i - 1]);
        }
      }
    }
  }

  /** The batch at the head of a path, and the path behind it. */
  lemma {:induction false} PathHead(b: Body, h: seq<Outcome>, from: nat)
    requires from < |h| && IsPath(b, h, from)
    ensures 0 < |b(h[..from]).Ops()| && from + |b(h[..from]).Ops()| <= |h|
    ensures IsPath(b, h, from + |b(h[..from]).Ops()|)
  {
  }

  lemma {:induction false} CompsMembers(b: Body, h: seq<Outcome>, from: nat, c: Comp)
    requires from <= |h| && IsPath(b, h, from)
    ensures c in Comps(b, h, from) <==>
            from <= c.opId < |h| && c in CompOf(OpAt(b, h, from, c.opId), c.opId, h[c.opId])
    decreases |h| - from
  {
    hide IsPath, BatchComps, CompOf;
    if from < |h| {
      PathHead(b, h, from);
      var ops := b(h[..from]).Ops();
      var next := from + |ops|;
      CompsMembers(b, h, next, c);
      BatchHolds(ops, from, h[from..next], c);
      var here, later := BatchComps(ops, from, h[from..next]), Comps(b, h, next);
      assert Comps(b, h, from) == here + later;
      if from <= c.opId < next {
        assert h[from..next][c.opId - from] == h[c.opId];
      }
    }
  }

  /** A batch's compensations carry the op ids of the batch. */
  lemma {:induction false} BatchHolds(ops: seq<Op>, base: nat, outcomes: seq<Outcome>, c: Comp)
    requires |ops| == |outcomes|
    ensures c in BatchComps(ops, base, outcomes) <==>
            base <= c.opId < base + |ops| && c in CompOf(ops[c.opId - base], c.opId, outcomes[c.opId - base])
  {
    BatchCompsMembers(ops, base, outcomes, c);
    if base <= c.opId < base + |ops| && c in CompOf(ops[c.opId - base], c.opId, outcomes[c.opId - base]) {
      var i := c.opId - base;
      assert c in CompOf(ops[i], base + i, outcomes[i]);
    }
  }

  lemma {:induction false} LongerIsPath(b: Body, h: seq<Outcome>, from: nat, more: seq<Outcome>)
    requires from <= |h| && IsPath(b, h, from) && |more| == |b(h).Ops()| > 0
    ensures IsPath(b, h + more, from)
    decreases |h| - from
  {
    var g := h + more;
    assert g[..from] == h[..from];
    if from == |h| {
      assert g[..from] == h;
      assert IsPath(b, g, |g|);
    } else {
      LongerIsPath(b, h, from + |b(h[..from]).Ops()|, more);
    }
  }

  lemma {:induction false} LongerKeepsOps(b: Body, h: seq<Outcome>, from: nat, more: seq<Outcome>, id: nat)
    requires from <= |h| && IsPath(b, h, from) && |more| == |b(h).Ops()| > 0
    requires IsPath(b, h + more, from) && from <= id < |h + more|
    ensures OpAt(b, h + more, from, id) == if id < |h| then OpAt(b, h, from, id) else b(h).Ops()[id - |h|]
    decreases |h| - from
  {
    hide IsPath;
    var g := h + more;
    assert g[..from] == h[..from];
    PathHead(b, g, from);
    if from == |h| {
      assert g[..from] == h;
    } else {
      PathHead(b, h, from);
      var n := |b(h[..from]).Ops()|;
      if id >= from + n {
        LongerKeepsOps(b, h, from + n, more, id);
      }
    }
  }

  lemma {:induction false} LongerKeepsComps(b: Body, h: seq<Outcome>, from: nat, more: seq<Outcome>)
    requires from <= |h| && IsPath(b, h, from) && |more| == |b(h).Ops()| > 0 && IsPath(b, h + more, from)
    ensures Comps(b, h + more, from) == Comps(b, h, from) + BatchComps(b(h).Ops(), |h|, more)
    decreases |h| - from
  {
    hide IsPath, BatchComps;
    var g := h + more;
    assert g[..from] == h[..from];
    PathHead(b, g, from);
    if from == |h| {
      assert g[..from] == h && g[from..from + |more|] == more;
    } else {
      PathHead(b, h, from);
      var n := |b(h[..from]).Ops()|;
      LongerKeepsComps(b, h, from + n, more);
      assert g[from..from + n] == h[from..from + n];
    }
  }

  /** Completing the batch a path leads to gives a longer path with the old one inside it. */
  lemma {:induction false} PathExtend(b: Body, h: seq<Outcome>, from: nat, more: seq<Outcome>)
    requires from <= |h| && IsPath(b, h, from) && |more| == |b(h).Ops()| > 0
    ensures IsPath(b, h + more, from)
    ensures forall id :: from <= id < |h| ==> OpAt(b, h + more, from, id) == OpAt(b, h, from, id)
    ensures forall i :: 0 <= i < |more| ==> OpAt(b, h + more, from, |h| + i) == b(h).Ops()[i]
    ensures Comps(b, h + more, from) == Comps(b, h, from) + BatchComps(b(h).Ops(), |h|, more)
  {
    hide IsPath, OpAt, Comps;
    LongerIsPath(b, h, from, more);
    LongerKeepsComps(b, h, from, more);
    forall id | from <= id < |h + more|
      ensures OpAt(b, h + more, from, id) == if id < |h| then OpAt(b, h, from, id) else b(h).Ops()[id - |h|]
    {
      LongerKeepsOps(b, h, from, more, id);
    }
  }

  /** A path that is a proper prefix of another stops at an await the longer one completed. */
  lemma {:induction false} PathPrefix(b: Body, h: seq<Outcome>, g: seq<Outcome>, from: nat)
    requires from <= |h| < |g| && h == g[..|h|] && IsPath(b, h, from) && IsPath(b, g, from)
    ensures 0 < |b(h).Ops()| && |h| + |b(h).Ops()| <= |g|
    ensures IsPath(b, g, |h|)
    decreases |h| - from
  {
    if from == |h| {
      assert g[..from] == h;
    } else {
      assert g[..from] == h[..from];
      PathPrefix(b, h, g, from + |b(h[..from]).Ops()|);
    }
  }

  /** Along a path the operations and compensations up to a boundary are those of the shorter path. */
  lemma {:induction false} PathCut(b: Body, g: seq<Outcome>, from: nat, cut: nat)
    requires from <= cut <= |g| && IsPath(b, g, from) && IsPath(b, g[..cut], from)
    ensures forall id :: from <= id < cut ==> OpAt(b, g, from, id) == OpAt(b, g[..cut], from, id)
    ensures IsPath(b, g, cut)
    ensures forall id :: cut <= id < |g| ==> OpAt(b, g, from, id) == OpAt(b, g, cut, id)
    decreases cut - from
  {
    if from < cut {
      assert g[..cut][..from] == g[..from];
      PathCut(b, g, from + |b(g[..from]).Ops()|, cut);
    }
  }

  /** Distinct compensations of a path belong to distinct operations. */
  lemma {:induction false} CompsAreDistinct(b: Body, h: seq<Outcome>, c: Comp, d: Comp)
    requires IsPath(b, h, 0) && c in Comps(b, h, 0) && d in Comps(b, h, 0) && c.opId == d.opId
    ensures c == d
  {
    CompsMembers(b, h, 0, c);
    CompsMembers(b, h, 0, d);
  }

  lemma {:induction false} TagsAfterOne(tags: map<string, string>, F: seq<Outcome>, G: seq<Outcome>)
    requires |G| == |F| + 1 && F == G[..|F|]
    ensures TagsAfter(tags, G) ==
              match G[|F|] case Tagged(update) => MergeTags(TagsAfter(tags, F), update)
              case _ => TagsAfter(tags, F)
  {
  }

  /** The operations of a batch before the `i`-th. */
  function Below(i: nat): (r: set<nat>)
    ensures forall k: nat :: k in r <==> k < i
    ensures |r| == i
  {
    if i == 0 then {} else Below(i - 1) + {i - 1}
  }
}
