/** Searching runs by tags: the indexed query of the SQL stores against the plain filter of the in-memory one. */
module TagSearch {
  import opened Wrappers
  import opened Engine
  import opened Stores

  datatype RunRow = RunRow(
    status: string,
    workflow: string,
    parent: Option<string>,
    tags: map<string, string>,
    createdAt: real)

  datatype Filter = Filter(
    status: Option<string>,
    workflow: Option<string>,
    parent: Option<string>,
    tags: map<string, string>,
    limit: Option<int>,
    newestFirst: bool)

  /** One row of the tag index. */
  datatype TagRow = TagRow(id: string, key: string, value: string)

  ghost predicate Indexed(runs: map<string, RunRow>, index: set<TagRow>) {
    forall id, key, value ::
      TagRow(id, key, value) in index <==> id in runs && key in runs[id].tags && runs[id].tags[key] == value
  }

  function RowsOf(id: string, tags: map<string, string>): (r: set<TagRow>)
    ensures forall i, key, value :: TagRow(i, key, value) in r <==> i == id && key in tags && tags[key] == value
  {
    set key | key in tags :: TagRow(id, key, tags[key])
  }

  function Without(index: set<TagRow>, id: string): (r: set<TagRow>)
    ensures forall row :: row in r <==> row in index && row.id != id
  {
    set row | row in index && row.id != id
  }

  /** The columns both backends compare directly. */
  predicate Columns(f: Filter, row: RunRow) {
    && (f.status.Some? ==> row.status == f.status.value)
    && (f.workflow.Some? ==> row.workflow == f.workflow.value)
    && (f.parent.Some? ==> row.parent == f.parent)
  }

  predicate Wanted(f: Filter, row: RunRow) {
    Columns(f, row) && forall key :: key in f.tags ==> key in row.tags && row.tags[key] == f.tags[key]
  }

  // ---- the order of the rows ----

  /** Text in code point order. */
  predicate Below(a: string, b: string) {
    b != [] && (a == [] || a[0] < b[0] || (a[0] == b[0] && Below(a[1..], b[1..])))
  }

  lemma {:induction false} BelowIsTotal(a: string, b: string)
    ensures a == b || Below(a, b) || Below(b, a)
    ensures !(Below(a, b) && Below(b, a)) && !Below(a, a)
  {
    if a != [] && b != [] && a[0] == b[0] {
      BelowIsTotal(a[1..], b[1..]);
      assert a == [a[0]] + a[1..] && b == [b[0]] + b[1..];
    }
    if a != [] {
      BelowIsTotal(a[1..], a[1..]);
    }
  }

  /** The first difference decides, and of two texts where one goes on the shorter comes first. */
  lemma {:induction false} BelowIsLexicographic(a: string, b: string, i: nat)
    requires i <= |a| && i <= |b| && a[..i] == b[..i]
    ensures i == |a| && i < |b| ==> Below(a, b)
    ensures i < |a| && i < |b| && a[i] < b[i] ==> Below(a, b)
  {
    if i > 0 {
      assert a[0] == a[..i][0] && b[0] == b[..i][0];
      assert a[1..][..i - 1] == a[..i][1..] && b[1..][..i - 1] == b[..i][1..];
      BelowIsLexicographic(a[1..], b[1..], i - 1);
    }
  }

  lemma {:induction false} BelowIsTransitive(a: string, b: string, c: string)
    requires Below(a, b) && Below(b, c)
    ensures Below(a, c)
  {
    if a != [] && a[0] == b[0] == c[0] {
      BelowIsTransitive(a[1..], b[1..], c[1..]);
    }
  }

  /** Does the first run come before the second: older, and among equals with the lesser id? */
  predicate Older(runs: map<string, RunRow>, a: string, b: string)
    requires a in runs && b in runs
  {
    runs[a].createdAt < runs[b].createdAt || (runs[a].createdAt == runs[b].createdAt && Below(a, b))
  }

  predicate Comes(runs: map<string, RunRow>, newestFirst: bool, a: string, b: string)
    requires a in runs && b in runs
  {
    if newestFirst then Older(runs, b, a) else Older(runs, a, b)
  }

  lemma {:induction false} ComesIsTotal(runs: map<string, RunRow>, newestFirst: bool, a: string, b: string)
    requires a in runs && b in runs
    ensures a == b || Comes(runs, newestFirst, a, b) || Comes(runs, newestFirst, b, a)
    ensures !(Comes(runs, newestFirst, a, b) && Comes(runs, newestFirst, b, a)) && !Comes(runs, newestFirst, a, a)
  {
    BelowIsTotal(a, b);
  }

  lemma {:induction false} ComesIsTransitive(runs: map<string, RunRow>, newestFirst: bool, a: string, b: string, c: string)
    requires a in runs && b in runs && c in runs
    requires Comes(runs, newestFirst, a, b) && Comes(runs, newestFirst, b, c)
    ensures Comes(runs, newestFirst, a, c)
  {
    if Below(a, b) && Below(b, c) { BelowIsTransitive(a, b, c); }
    if Below(c, b) && Below(b, a) { BelowIsTransitive(c, b, a); }
  }

  /** Exactly the runs `ids`, each once, in order. */
  ghost predicate Ordered(runs: map<string, RunRow>, newestFirst: bool, ids: set<string>, order: seq<string>) {
    && (forall id :: id in order <==> id in ids)
    && ids <= runs.Keys
    && (forall i, j :: 0 <= i < j < |order| ==> Comes(runs, newestFirst, order[i], order[j]))
  }

  /** There is one such order. */
  lemma {:induction false} OrderIsUnique(runs: map<string, RunRow>, newestFirst: bool, ids: set<string>, a: seq<string>,
      b: seq<string>)
    requires Ordered(runs, newestFirst, ids, a) && Ordered(runs, newestFirst, ids, b)
    ensures a == b
    decreases |a|
  {
    hide Comes;
    assert a != [] ==> a[0] in ids;
    assert b != [] ==> b[0] in ids;
    if a != [] {
      SameHead(runs, newestFirst, ids, a, b);
      TailIsOrdered(runs, newestFirst, ids, a);
      TailIsOrdered(runs, newestFirst, ids, b);
      OrderIsUnique(runs, newestFirst, ids - {a[0]}, a[1..], b[1..]);
      assert a == [a[0]] + a[1..] && b == [b[0]] + b[1..];
    }
  }

  lemma {:induction false} SameHead(runs: map<string, RunRow>, newestFirst: bool, ids: set<string>, a: seq<string>,
      b: seq<string>)
    requires Ordered(runs, newestFirst, ids, a) && Ordered(runs, newestFirst, ids, b) && a != [] && b != []
    ensures a[0] == b[0]
  {
    hide Comes;
    assert a[0] in ids && b[0] in ids;
    var i :| 0 <= i < |b| && b[i] == a[0];
    var j :| 0 <= j < |a| && a[j] == b[0];
    ComesIsTotal(runs, newestFirst, a[0], b[0]);
  }

  lemma {:induction false} TailIsOrdered(runs: map<string, RunRow>, newestFirst: bool, ids: set<string>, a: seq<string>)
    requires Ordered(runs, newestFirst, ids, a) && a != []
    ensures Ordered(runs, newestFirst, ids - {a[0]}, a[1..])
  {
    hide Comes;
    forall id
      ensures id in a[1..] <==> id in ids - {a[0]}
    {
      if id in a[1..] {
        var i :| 0 <= i < |a[1..]| && a[1..][i] == id;
        assert Comes(runs, newestFirst, a[0], a[i + 1]);
        ComesIsTotal(runs, newestFirst, id, id);
      }
      assert id in ids - {a[0]} ==> id in a && id != a[0];
    }
  }

  function Insert(runs: map<string, RunRow>, newestFirst: bool, order: seq<string>, id: string): (r: seq<string>)
    requires id in runs && forall x :: x in order ==> x in runs
    ensures forall x :: x in r <==> x in order || x == id
  {
    if order == [] || Comes(runs, newestFirst, id, order[0]) then [id] + order
    else [order[0]] + Insert(runs, newestFirst, order[1..], id)
  }

  lemma {:induction false} InsertKeepsOrder(runs: map<string, RunRow>, newestFirst: bool, ids: set<string>,
      order: seq<string>, id: string)
    requires Ordered(runs, newestFirst, ids, order) && id in runs && id !in ids
    requires forall x :: x in order ==> x in runs
    ensures Ordered(runs, newestFirst, ids + {id}, Insert(runs, newestFirst, order, id))
  {
    hide Comes;
    var r := Insert(runs, newestFirst, order, id);
    if order == [] {
    } else if Comes(runs, newestFirst, id, order[0]) {
      forall j | 0 < j < |r|
        ensures Comes(runs, newestFirst, id, r[j])
      {
        if j > 1 { ComesIsTransitive(runs, newestFirst, id, order[0], r[j]); }
      }
    } else {
      TailIsOrdered(runs, newestFirst, ids, order);
      InsertKeepsOrder(runs, newestFirst, ids - {order[0]}, order[1..], id);
      var rest := Insert(runs, newestFirst, order[1..], id);
      ComesIsTotal(runs, newestFirst, id, order[0]);
      forall j | 0 <= j < |rest|
        ensures Comes(runs, newestFirst, order[0], rest[j])
      {
        assert rest[j] in rest;
        if rest[j] != id {
          var k :| 0 <= k < |order[1..]| && order[1..][k] == rest[j];
          assert Comes(runs, newestFirst, order[0], order[k + 1]);
        }
      }
    }
  }

  // ---- queries ----

  /** The rows of `order` a query wants, in order. */
  ghost function Selected(runs: map<string, RunRow>, f: Filter, order: seq<string>): seq<string>
    requires forall id :: id in order ==> id in runs
  {
    if order == [] then []
    else if Wanted(f, runs[order[0]]) then [order[0]] + Selected(runs, f, order[1..])
    else Selected(runs, f, order[1..])
  }

  /** `LIMIT`: none, or the first so many; a negative limit is none. */
  function Limited(ids: seq<string>, limit: Option<int>): seq<string> {
    if limit.None? || limit.value < 0 || limit.value >= |ids| then ids else ids[..limit.value]
  }

  lemma {:induction false} SelectedAfter(runs: map<string, RunRow>, f: Filter, order: seq<string>, id: string)
    requires id in runs && forall x :: x in order ==> x in runs
    ensures (forall x :: x in order + [id] ==> x in runs)
    ensures Selected(runs, f, order + [id]) ==
                if Wanted(f, runs[id]) then Selected(runs, f, order) + [id]
                else Selected(runs, f, order)
  {
    if order == [] {
      assert order + [id] == [id];
    } else {
      assert (order + [id])[0] == order[0] && (order + [id])[1..] == order[1..] + [id];
      SelectedAfter(runs, f, order[1..], id);
    }
  }

  lemma {:induction false} SelectedSplit(runs: map<string, RunRow>, f: Filter, a: seq<string>, b: seq<string>)
    requires (forall x :: x in a ==> x in runs) && (forall x :: x in b ==> x in runs)
    requires forall x :: x in a + b ==> x in runs
    ensures Selected(runs, f, a + b) == Selected(runs, f, a) + Selected(runs, f, b)
  {
    if a == [] {
      assert a + b == b;
    } else {
      assert (a + b)[0] == a[0] && (a + b)[1..] == a[1..] + b;
      SelectedSplit(runs, f, a[1..], b);
    }
  }

  /** The runs table with its tag index. */
  class RunTable {
    var runs: map<string, RunRow>
    var runTags: set<TagRow>

    ghost predicate Valid()
      reads this
    {
      Indexed(runs, runTags)
    }

    constructor ()
      ensures Valid() && runs == map[]
    {
      runs, runTags := map[], {};
    }

    method CreateRun(id: string, row: RunRow) returns (ok: bool)
      requires Valid()
      modifies this
      ensures Valid() && ok == (id !in old(runs))
      ensures runs == if ok then old(runs)[id := row] else old(runs)
    {
      ok := id !in runs;
      if ok {
        runs := runs[id := row];
        runTags := runTags + RowsOf(id, row.tags);
      }
    }

    /** Rewrites the run's tags and its index rows together. */
    method UpdateTags(id: string, update: map<string, Option<string>>) returns (tags: map<string, string>)
      requires Valid()
      modifies this
      ensures Valid()
      ensures tags == if id in old(runs) then MergeTags(old(runs)[id].tags, update) else map[]
      ensures runs == if id in old(runs) then old(runs)[id := old(runs)[id].(tags := tags)] else old(runs)
    {
      tags := map[];
      if id in runs {
        tags := Merged(runs[id].tags, update);
        runs := runs[id := runs[id].(tags := tags)];
        runTags := Without(runTags, id) + RowsOf(id, tags);
      }
    }

    method DeleteRun(id: string)
      requires Valid()
      modifies this
      ensures Valid() && runs == old(runs) - {id}
    {
      runs := runs - {id};
      runTags := Without(runTags, id);
    }

    /** All runs by creation time, and by id among those created at the same time. */
    method Rows(newestFirst: bool) returns (order: seq<string>)
      ensures Ordered(runs, newestFirst, runs.Keys, order)
    {
      order := [];
      var left := runs.Keys;
      while left != {}
        invariant left <= runs.Keys && Ordered(runs, newestFirst, runs.Keys - left, order)
        decreases left
      {
        var id :| id in left;
        InsertKeepsOrder(runs, newestFirst, runs.Keys - left, order, id);
        assert runs.Keys - left + {id} == runs.Keys - (left - {id});
        order := Insert(runs, newestFirst, order, id);
        left := left - {id};
      }
      assert runs.Keys - {} == runs.Keys;
    }

    /** The indexed query: direct columns, one index lookup for each tag, then the limit. */
    method ListIndexed(f: Filter) returns (r: seq<string>)
      requires Valid()
      ensures forall order :: Ordered(runs, f.newestFirst, runs.Keys, order) ==> r == Limited(Selected(runs, f, order), f.limit)
    {
      hide Ordered, Indexed;
      var order := Rows(f.newestFirst);
      AllAreRuns(runs, f.newestFirst, order);
      assert Indexed(runs, runTags);
      var found := [];
      var i := 0;
      while i < |order|
        invariant 0 <= i <= |order| && found == Selected(runs, f, order[..i])
      {
        var id := order[i];
        var hit := Columns(f, runs[id]) && forall key :: key in f.tags ==> TagRow(id, key, f.tags[key]) in runTags;
        IndexAnswers(runs, runTags, f, id);
        SelectedAfter(runs, f, order[..i], id);
        assert order[..i + 1] == order[..i] + [id];
        if hit { found := found + [id]; }
        i := i + 1;
      }
      assert order[..i] == order;
      r := Limited(found, f.limit);
      OneOrder(runs, f.newestFirst, order);
    }

    /** The in-memory filter: run by run, stopping once there are enough. */
    method ListFiltered(f: Filter) returns (r: seq<string>)
      ensures forall order :: Ordered(runs, f.newestFirst, runs.Keys, order) ==> r == FirstFew(Selected(runs, f, order), f.limit)
    {
      hide Ordered;
      var order := Rows(f.newestFirst);
      AllAreRuns(runs, f.newestFirst, order);
      OneOrder(runs, f.newestFirst, order);
      r := [];
      var i := 0;
      while i < |order|
        invariant 0 <= i <= |order| && r == Selected(runs, f, order[..i])
        invariant r == [] || f.limit.None? || |r| < f.limit.value
      {
        var id := order[i];
        SelectedAfter(runs, f, order[..i], id);
        assert order[..i + 1] == order[..i] + [id];
        if Wanted(f, runs[id]) {
          r := r + [id];
          if f.limit.Some? && |r| >= f.limit.value {
            assert order == order[..i + 1] + order[i + 1..];
            SelectedSplit(runs, f, order[..i + 1], order[i + 1..]);
            return;
          }
        }
        i := i + 1;
      }
      assert order[..i] == order;
    }
  }

  lemma {:induction false} AllAreRuns(runs: map<string, RunRow>, newestFirst: bool, order: seq<string>)
    requires Ordered(runs, newestFirst, runs.Keys, order)
    ensures forall id :: id in order ==> id in runs
  {
  }

  lemma {:induction false} OneOrder(runs: map<string, RunRow>, newestFirst: bool, order: seq<string>)
    requires Ordered(runs, newestFirst, runs.Keys, order)
    ensures forall other :: Ordered(runs, newestFirst, runs.Keys, other) ==> other == order
  {
    hide Ordered;
    forall other | Ordered(runs, newestFirst, runs.Keys, other)
      ensures other == order
    {
      OrderIsUnique(runs, newestFirst, runs.Keys, other, order);
    }
  }

  /** The index knows a run's tags. */
  lemma {:induction false} IndexAnswers(runs: map<string, RunRow>, index: set<TagRow>, f: Filter, id: string)
    requires Indexed(runs, index) && id in runs
    ensures Wanted(f, runs[id]) <==>
            Columns(f, runs[id]) && forall key :: key in f.tags ==> TagRow(id, key, f.tags[key]) in index
  {
  }

  /** Does the run match the query, column by column and tag by tag? */
  ghost predicate Matches(row: RunRow, f: Filter) {
    && (f.status == None || f.status == Some(row.status))
    && (f.workflow == None || f.workflow == Some(row.workflow))
    && (f.parent == None || f.parent == row.parent)
    && forall key :: key in f.tags ==> key in row.tags && row.tags[key] == f.tags[key]
  }

  /** Earlier in the list: created later, if the newest come first, and else created earlier; among runs of the
      same time, by id. */
  ghost predicate ListedBefore(runs: map<string, RunRow>, newestFirst: bool, a: string, b: string)
    requires a in runs && b in runs
  {
    var x, y := runs[a].createdAt, runs[b].createdAt;
    if newestFirst then x > y || (x == y && Below(b, a)) else x < y || (x == y && Below(a, b))
  }

  /** What a query selects before its limit: exactly the runs that match, by time of creation. */
  lemma {:induction false} SelectedAre(runs: map<string, RunRow>, f: Filter, ids: set<string>, order: seq<string>)
    requires Ordered(runs, f.newestFirst, ids, order)
    requires forall id :: id in order ==> id in runs
    ensures var hits := Selected(runs, f, order);
            && (forall id :: id in hits <==> id in ids && Matches(runs[id], f))
            && (forall i, j :: 0 <= i < j < |hits| ==> ListedBefore(runs, f.newestFirst, hits[i], hits[j]))
    decreases |order|
  {
    hide Below, Matches;
    if order != [] {
      var head, rest := order[0], order[1..];
      assert head in ids;
      TailIsOrdered(runs, f.newestFirst, ids, order);
      SelectedAre(runs, f, ids - {head}, rest);
      WantedMatches(f, runs[head]);
      var later := Selected(runs, f, rest);
      forall j | 0 <= j < |later|
        ensures ListedBefore(runs, f.newestFirst, head, later[j])
      {
        assert later[j] in ids - {head};
        assert later[j] in order;
        var k :| 0 <= k < |order| && order[k] == later[j];
        assert Comes(runs, f.newestFirst, order[0], order[k]);
      }
      assert order == [head] + rest;
    }
  }

  lemma {:induction false} WantedMatches(f: Filter, row: RunRow)
    ensures Wanted(f, row) <==> Matches(row, f)
  {
  }

  /** What a filter that checks the limit after each hit returns. */
  function FirstFew(ids: seq<string>, limit: Option<int>): seq<string> {
    if limit.None? then ids
    else
      var n := if limit.value < 1 then 1 else limit.value;
      if n >= |ids| then ids else ids[..n]
  }

  /** The two backends return the same runs in the same order exactly when there is no limit or a
      positive one, or too few hits for the limit to matter. */
  lemma {:induction false} SearchesAgree(runs: map<string, RunRow>, f: Filter, order: seq<string>)
    requires forall id :: id in order ==> id in runs
    ensures var hits := Selected(runs, f, order);
            Limited(hits, f.limit) == FirstFew(hits, f.limit) <==>
            f.limit.None? || f.limit.value >= 1 || hits == [] || (f.limit.value < 0 && |hits| == 1)
  {
    var hits := Selected(runs, f, order);
    assert |Limited(hits, f.limit)| != |FirstFew(hits, f.limit)| ==> Limited(hits, f.limit) != FirstFew(hits, f.limit);
  }
}
