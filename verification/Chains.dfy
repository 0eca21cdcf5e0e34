/** Continue-as-new chains: the ids of their links, following a chain to its live end, pruning old history. */
module Chains {
  import opened Wrappers
  import opened Events
  import Decimals

  // ---- chain ids ----

  /** A run id that ends in `#` and digits: the base and the number. */
  datatype Numbered = Numbered(base: string, digits: string) {
    function N(): nat
      requires Decimals.AllDigits(digits)
    {
      Decimals.Parse(digits)
    }
  }

  /** The longest base that leaves a `#` and at least one digit. */
  function Match(id: string): (r: Option<Numbered>)
    ensures r.Some? ==> id == r.value.base + "#" + r.value.digits && r.value.digits != "" && Decimals.AllDigits(r.value.digits)
    ensures r.None? ==> forall base: string, digits: string ::
                id == base + "#" + digits && digits != "" ==>
                  !Decimals.AllDigits(digits)
  {
    var tail := DigitsAtEnd(id);
    var at := |id| - |tail| - 1;
    if tail == "" || at < 0 || id[at] != '#' then
      NoMatch(id);
      None
    else
      assert id == id[..at] + "#" + tail;
      Some(Numbered(id[..at], tail))
  }

  /** The longest run of digits at the end. */
  function DigitsAtEnd(id: string): (r: string)
    ensures |r| <= |id| && r == id[|id| - |r|..] && Decimals.AllDigits(r)
    ensures |r| < |id| ==> !Decimals.IsDigit(id[|id| - |r| - 1])
  {
    if id == "" || !Decimals.IsDigit(id[|id| - 1]) then ""
    else DigitsAtEnd(id[..|id| - 1]) + [id[|id| - 1]]
  }

  /** Whatever follows a last `#` and is all digits is the whole run of digits at the end. */
  lemma {:induction false} DigitsAreAtEnd(base: string, digits: string)
    requires Decimals.AllDigits(digits)
    ensures DigitsAtEnd(base + "#" + digits) == digits
  {
    var id := base + "#" + digits;
    if digits == "" {
      assert id[|id| - 1] == '#';
    } else {
      var init := digits[..|digits| - 1];
      DigitsAreAtEnd(base, init);
      assert id[..|id| - 1] == base + "#" + init;
      assert digits == init + [digits[|digits| - 1]];
    }
  }

  lemma {:induction false} NoMatch(id: string)
    ensures var tail := DigitsAtEnd(id);
            tail == "" || |id| - |tail| - 1 < 0 || id[|id| - |tail| - 1] != '#' ==>
              forall base: string, digits: string :: id == base + "#" + digits && digits != "" ==> !Decimals.AllDigits(digits)
  {
    forall base: string, digits: string | id == base + "#" + digits && digits != "" && Decimals.AllDigits(digits)
      ensures DigitsAtEnd(id) == digits && id[|id| - |digits| - 1] == '#'
    {
      DigitsAreAtEnd(base, digits);
    }
  }

  lemma {:induction false} MatchIs(base: string, digits: string)
    requires digits != "" && Decimals.AllDigits(digits)
    ensures Match(base + "#" + digits) == Some(Numbered(base, digits))
  {
    DigitsAreAtEnd(base, digits);
    var id := base + "#" + digits;
    assert id[..|base|] == base;
  }

  /** The id a run continues as. */
  function NextChainId(id: string): string {
    var m := Match(id);
    if m.Some? then m.value.base + "#" + Decimals.Render(m.value.N() + 1) else id + "#2"
  }

  /** The id whose continuation a link is taken to be; None at a chain's root. */
  function Predecessor(id: string): Option<string> {
    var m := Match(id);
    if m.None? then None
    else if m.value.N() > 2 then Some(m.value.base + "#" + Decimals.Render(m.value.N() - 1))
    else Some(m.value.base)
  }

  /** A run id that is not a number on a base, or the number 2 or above written without leading zeros. */
  predicate Canonical(id: string) {
    var m := Match(id);
    m.None? || (m.value.N() >= 2 && Decimals.Canonical(m.value.digits))
  }

  lemma {:induction false} NextMatches(id: string)
    ensures var m := Match(id);
            Match(NextChainId(id)) == Some(
                          if m.Some? then Numbered(m.value.base, Decimals.Render(m.value.N() + 1))
                          else Numbered(id, "2"))
  {
    hide Match, Decimals.Render, Decimals.Parse;
    var m := Match(id);
    if m.Some? {
      MatchIs(m.value.base, Decimals.Render(m.value.N() + 1));
    } else {
      Two();
      MatchIs(id, "2");
      assert id + "#2" == id + "#" + "2";
    }
  }

  /** Pruning's step back undoes continuing exactly on canonical ids. */
  lemma {:induction false} PredecessorInvertsNext(id: string)
    ensures Predecessor(NextChainId(id)) == Some(id) <==> Canonical(id)
  {
    var m := Match(id);
    NextMatches(id);
    if m.None? {
      assert Decimals.Parse("2") == 2 by { Two(); }
    } else {
      var n := m.value.N();
      Decimals.ParseRender(n + 1);
      Decimals.RenderParseIff(m.value.digits);
      if n + 1 > 2 {
        SuffixIs(m.value.base, Decimals.Render(n), m.value.digits);
      } else {
        assert |m.value.base| < |id|;
      }
    }
  }

  lemma {:induction false} Two()
    ensures Decimals.AllDigits("2") && Decimals.Parse("2") == 2
  {
    assert "2"[..0] == "";
  }

  lemma {:induction false} One()
    ensures Decimals.AllDigits("1") && Decimals.Parse("1") == 1 && Decimals.Render(2) == "2"
  {
    assert "1"[..0] == "";
  }

  lemma {:induction false} SuffixIs(base: string, a: string, b: string)
    ensures base + "#" + a == base + "#" + b <==> a == b
  {
    var s, t := base + "#" + a, base + "#" + b;
    assert s[|base| + 1..] == a && t[|base| + 1..] == b;
  }

  /** The name a chain's links share; a run id without a number counts as number 1 of its own chain. */
  function Base(id: string): string {
    var m := Match(id);
    if m.Some? then m.value.base else id
  }

  function Number(id: string): nat {
    var m := Match(id);
    if m.Some? then m.value.N() else 1
  }

  lemma {:induction false} NextCountsUp(id: string)
    ensures Base(NextChainId(id)) == Base(id) && Number(NextChainId(id)) == Number(id) + 1
  {
    NextMatches(id);
    Two();
    var m := Match(id);
    if m.Some? { Decimals.ParseRender(m.value.N() + 1); }
  }

  /** Two ids continue as the same id exactly when they are the same number of the same chain, however
      that number is written. */
  lemma {:induction false} NextIsInjective(a: string, b: string)
    ensures NextChainId(a) == NextChainId(b) <==> Base(a) == Base(b) && Number(a) == Number(b)
  {
    NextCountsUp(a);
    NextCountsUp(b);
    NextIsNumbered(a);
    NextIsNumbered(b);
  }

  lemma {:induction false} NextIsNumbered(id: string)
    ensures NextChainId(id) == Base(id) + "#" + Decimals.Render(Number(id) + 1)
  {
    hide Match, Decimals.Parse;
    One();
    assert id + "#2" == id + "#" + "2";
  }

  /** Canonical ids write each number of a chain in one way, so no two of them continue as the same id. */
  lemma {:induction false} CanonicalNextIsInjective(a: string, b: string)
    requires Canonical(a) && Canonical(b)
    ensures NextChainId(a) == NextChainId(b) <==> a == b
    ensures Base(a) == Base(b) && Number(a) == Number(b) <==> a == b
  {
    hide NextChainId, Canonical, Base, Number;
    NextIsInjective(a, b);
    PredecessorInvertsNext(a);
    PredecessorInvertsNext(b);
  }

  lemma {:induction false} OneContinuesLikeItsBase(base: string)
    requires Match(base).None?
    ensures NextChainId(base + "#1") == NextChainId(base) == base + "#2"
  {
    One();
    hide Match, Decimals.Render, Decimals.Parse, DigitsAtEnd;
    MatchIs(base, "1");
    assert base + "#1" == base + "#" + "1" && base + "#2" == base + "#" + "2";
  }

  // ---- following a chain ----

  /** What a run record says about its chain: a continued run names its successor. */
  datatype Link = Link(workflow: string, continuedTo: Option<string>)

  /** Continued runs point at the next id of their chain, and its record exists. */
  ghost predicate Linked(records: map<string, Link>) {
    forall id :: id in records && records[id].continuedTo.Some? ==>
      records[id].continuedTo.value == NextChainId(id) && records[id].continuedTo.value in records
  }

  /** Continuing a run: the successor's record first, unless it exists, then the run's own. */
  lemma {:induction false} ContinuingKeepsLinked(records: map<string, Link>, id: string)
    requires Linked(records) && id in records
    ensures var next := NextChainId(id);
            var created := if next in records then records else records[next := Link(records[id].workflow, None)];
            Linked(created) && Linked(created[id := records[id].(continuedTo := Some(next))])
  {
    hide NextChainId;
  }

  ghost function Nth(id: string, k: nat): string {
    if k == 0 then id else NextChainId(Nth(id, k - 1))
  }

  lemma {:induction false} NthCounts(id: string, k: nat)
    ensures Base(Nth(id, k)) == Base(id) && Number(Nth(id, k)) == Number(id) + k
  {
    hide NextChainId, Base, Number;
    if k > 0 {
      NthCounts(id, k - 1);
      NextCountsUp(Nth(id, k - 1));
    }
  }

  /** The `k`-th link after `id` is the first that has not continued. */
  ghost predicate IsTail(records: map<string, Link>, id: string, k: nat, tail: string) {
    && tail == Nth(id, k) && tail in records && records[tail].continuedTo.None?
    && forall j: nat :: j < k ==> Nth(id, j) in records && records[Nth(id, j)].continuedTo.Some?
  }

  lemma {:induction false} TailIsUnique(records: map<string, Link>, id: string, k: nat, s: string, l: nat, t: string)
    requires IsTail(records, id, k, s) && IsTail(records, id, l, t)
    ensures k == l && s == t
  {
    hide Nth;
  }

  /** Follows a chain to its live end. The guard against malformed chains never has anything to do. */
  method FollowChain(records: map<string, Link>, id: string) returns (tail: string)
    requires id in records && Linked(records)
    ensures exists k: nat :: IsTail(records, id, k, tail)
  {
    hide NextChainId, Number, Base, Match;
    tail := id;
    var seen := {id};
    ghost var k: nat := 0;
    while records[tail].continuedTo.Some?
      invariant tail in records && tail == Nth(id, k) && seen <= records.Keys
      invariant forall x :: x in seen ==> Number(x) <= Number(tail)
      invariant forall j: nat :: j < k ==> Nth(id, j) in records && records[Nth(id, j)].continuedTo.Some?
      decreases |records.Keys - seen|
    {
      var next := records[tail].continuedTo.value;
      NextCountsUp(tail);
      if next in seen {
        assert false;
        break;
      }
      Shrinks(records.Keys, seen, next);
      tail, seen, k := next, seen + {next}, k + 1;
      assert Nth(id, k) == NextChainId(Nth(id, k - 1));
    }
    assert IsTail(records, id, k, tail);
  }

  lemma {:induction false} Shrinks(all: set<string>, seen: set<string>, x: string)
    requires x in all && x !in seen
    ensures |all - (seen + {x})| < |all - seen|
  {
    assert all - seen == (all - (seen + {x})) + {x};
  }

  // ---- pruning ----

  /** Does the record show `id` as the link before `child`, in a chain of `workflow`? */
  predicate Precedes(records: map<string, Link>, id: string, child: string, workflow: string) {
    id in records && records[id].continuedTo == Some(child) && records[id].workflow == workflow
  }

  function Depth(id: string): nat {
    |Base(id)| + if Match(id).Some? then 1 else 0
  }

  /** Stepping back shortens the id or counts down. */
  lemma {:induction false} BackIsLess(id: string)
    requires Predecessor(id).Some?
    ensures var back := Predecessor(id).value;
            Depth(back) < Depth(id) || (Depth(back) == Depth(id) && Number(back) < Number(id))
  {
    var m := Match(id).value;
    if m.N() > 2 {
      MatchIs(m.base, Decimals.Render(m.N() - 1));
      Decimals.ParseRender(m.N() - 1);
    } else {
      assert Match(m.base).Some? ==> |Match(m.base).value.base| + 2 <= |m.base|;
    }
  }

  /** The finished links behind `child`, newest first, as far as the records vouch for them. */
  ghost function Walk(records: map<string, Link>, child: string, workflow: string): seq<string>
    decreases Depth(child), Number(child)
  {
    var back := Predecessor(child);
    if back.None? || !Precedes(records, back.value, child, workflow) then []
    else
      BackIsLess(child);
      [back.value] + Walk(records, back.value, workflow)
  }

  lemma {:induction false} WalkDescends(records: map<string, Link>, child: string, workflow: string)
    ensures forall x :: x in Walk(records, child, workflow) ==>
              Depth(x) < Depth(child) || (Depth(x) == Depth(child) && Number(x) < Number(child))
    decreases Depth(child), Number(child)
  {
    hide Predecessor, Depth, Number, Precedes;
    var back := Predecessor(child);
    if back.Some? && Precedes(records, back.value, child, workflow) {
      BackIsLess(child);
      WalkDescends(records, back.value, workflow);
    }
  }

  /** No link comes twice, and the live end is none of them. */
  lemma {:induction false} WalkIsDistinct(records: map<string, Link>, child: string, workflow: string)
    ensures child !in Walk(records, child, workflow)
    ensures var w := Walk(records, child, workflow); forall i, j :: 0 <= i < j < |w| ==> w[i] != w[j]
    decreases Depth(child), Number(child)
  {
    hide Predecessor, Depth, Number, Precedes;
    WalkDescends(records, child, workflow);
    var back := Predecessor(child);
    if back.Some? && Precedes(records, back.value, child, workflow) {
      BackIsLess(child);
      WalkIsDistinct(records, back.value, workflow);
    }
  }

  /** In a chain that started at a canonical id, the walk from any link visits all links before it. */
  lemma {:induction false} WalkIsTheChain(records: map<string, Link>, root: string, k: nat, workflow: string)
    requires Linked(records) && Canonical(root)
    requires Predecessor(root).None? || !Precedes(records, Predecessor(root).value, root, workflow)
    requires forall j: nat :: j < k ==>
               Nth(root, j) in records && records[Nth(root, j)].continuedTo.Some? && records[Nth(root, j)].workflow == workflow
    ensures |Walk(records, Nth(root, k), workflow)| == k
    ensures forall i :: 0 <= i < k ==> Walk(records, Nth(root, k), workflow)[i] == Nth(root, k - 1 - i)
  {
    hide Predecessor, NextChainId, Canonical, Depth, Number;
    if k > 0 {
      var id := Nth(root, k - 1);
      NthIsCanonical(root, k - 1);
      PredecessorInvertsNext(id);
      WalkIsTheChain(records, root, k - 1, workflow);
    }
  }

  lemma {:induction false} NthIsCanonical(root: string, k: nat)
    requires Canonical(root)
    ensures Canonical(Nth(root, k))
  {
    hide Match, Decimals.Render, Decimals.Parse;
    if k > 0 {
      var id := Nth(root, k - 1);
      NthIsCanonical(root, k - 1);
      NextMatches(id);
      Two();
      if Match(id).Some? {
        Decimals.ParseRender(Match(id).value.N() + 1);
        Decimals.RenderIsCanonical(Match(id).value.N() + 1);
      }
    }
  }

  ghost predicate HasHistory(events: map<string, Log>, id: string) {
    id in events && events[id] != []
  }

  /** The links pruned already are the oldest ones. */
  ghost predicate OldestPruned(events: map<string, Log>, walk: seq<string>) {
    forall i, j :: 0 <= i <= j < |walk| && HasHistory(events, walk[j]) ==> HasHistory(events, walk[i])
  }

  class ChainStore {
    var records: map<string, Link>
    var events: map<string, Log>
    var signals: map<string, seq<string>>

    constructor ()
      ensures records == map[] && events == map[] && signals == map[]
    {
      records, events, signals := map[], map[], map[];
    }

    method DeleteHistory(id: string)
      modifies this`events, this`signals
      ensures events == old(events) - {id} && signals == old(signals) - {id}
    {
      events, signals := events - {id}, signals - {id};
    }

    /** Keeps the history of the newest `keep` finished links behind the live run `tail`. */
    method PruneChain(tail: string, workflow: string, keep: nat)
      modifies this`events, this`signals
      ensures var walk := Walk(records, tail, workflow);
              OldestPruned(old(events), walk) ==>
                && (forall i :: 0 <= i < |walk| ==>
                      (HasHistory(events, walk[i]) <==> HasHistory(old(events), walk[i]) && i < keep))
                && (forall i :: keep <= i < |walk| && HasHistory(old(events), walk[i]) ==>
                      walk[i] !in events && walk[i] !in signals)
                && OldestPruned(events, walk)
      ensures var walk := Walk(records, tail, workflow);
              && (forall id :: id !in walk || id in walk[..if keep < |walk| then keep else |walk|] ==>
                    (id in events <==> id in old(events)) && (id in events ==> events[id] == old(events)[id]) &&
                    (id in signals <==> id in old(signals)) && (id in signals ==> signals[id] == old(signals)[id]))
    {
      hide Predecessor, Depth, Number, Precedes;
      ghost var walk, n := Walk(records, tail, workflow), 0;
      WalkIsDistinct(records, tail, workflow);
      var child, kept := tail, 0;
      while true
        invariant 0 <= n <= |walk| && kept == n && Walk(records, child, workflow) == walk[n..]
        invariant forall id :: id in events <==> id in old(events) && !InRange(walk, keep, n, id)
        invariant forall id :: id in signals <==> id in old(signals) && !InRange(walk, keep, n, id)
        invariant forall id :: id in events ==> events[id] == old(events)[id]
        invariant forall id :: id in signals ==> signals[id] == old(signals)[id]
        decreases |walk| - n
      {
        var back := Predecessor(child);
        if back.None? { break; }
        var id := back.value;
        if !Precedes(records, id, child, workflow) { break; }
        assert walk[n..] == [id] + Walk(records, id, workflow);
        assert walk[n] == id && walk[n + 1..] == walk[n..][1..];
        kept := kept + 1;
        if kept > keep {
          if id !in events || events[id] == [] { break; }
          DeleteHistory(id);
        }
        child, n := id, n + 1;
      }
      if OldestPruned(old(events), walk) {
        Pruned(old(events), events, walk, keep, n);
      }
    }
  }

  ghost predicate InRange(walk: seq<string>, from: nat, until: nat, id: string)
    requires until <= |walk|
  {
    exists i :: from <= i < until && walk[i] == id
  }

  /** What is gone after a walk of `n` links is exactly the history beyond the newest `keep`. */
  lemma {:induction false} Pruned(before: map<string, Log>, after: map<string, Log>, walk: seq<string>, keep: nat,
      n: nat)
    requires n <= |walk| && OldestPruned(before, walk) && forall i, j :: 0 <= i < j < |walk| ==> walk[i] != walk[j]
    requires n == |walk| || (keep <= n && !HasHistory(before, walk[n]))
    requires forall id :: id in after <==> id in before && !InRange(walk, keep, n, id)
    requires forall id :: id in after ==> after[id] == before[id]
    ensures forall i :: 0 <= i < |walk| ==> (HasHistory(after, walk[i]) <==> HasHistory(before, walk[i]) && i < keep)
    ensures OldestPruned(after, walk)
  {
    forall i | 0 <= i < |walk|
      ensures HasHistory(after, walk[i]) <==> HasHistory(before, walk[i]) && i < keep
    {
      if keep <= i < n {
        assert InRange(walk, keep, n, walk[i]);
      }
      if i >= n && n < |walk| {
        assert !HasHistory(before, walk[i]);
      }
    }
  }
}
