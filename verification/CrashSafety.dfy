/** What holds of a run under every schedule of crashes, resumes, deliveries and interleavings. */
module CrashSafety {
  import opened Wrappers
  import opened Events
  import opened Engine
  import opened Lanes
  import opened Paths
  import opened Invariant
  import opened Preservation
  import opened Endings
  import opened Replays
  import opened Reachability

  lemma {:induction false} ReachableIsInvariant(p: Program, s: State)
    returns (F: seq<Outcome>)
    requires Reachable(p, s)
    ensures InvAt(p, s, F) && F == Replay(p.body, s.d.journal, [])
  {
    hide InvAt, Reachable;
    F := ReachableIsRunInv(p, s);
    JournalPart(p, s, F);
    ReplayReachesFrontier(p, s.d.journal, F, []);
  }

  // ---- replay is faithful ----

  /** No resume of an unchanged body ever finds a recorded operation that does not match. */
  lemma {:induction false} NeverDiverges(p: Program, s: State, index: nat)
    requires Reachable(p, s) && s.v.Some? && index < |p.body(s.v.value.h).Ops()|
    ensures !Diverges(p.body(s.v.value.h).Ops()[index], At(s.d.journal, OpLane(|s.v.value.h| + index)))
  {
    hide Diverges, Recorded, DriverOk, Good, Replay, Reachable;
    var F := ReachableIsInvariant(p, s);
    JournalPart(p, s, F);
    LiveMeansFrontier(p, s.d.journal, F, s.v.value, index);
  }

  /** What a body has received, however often it was restarted, is what the journal records. */
  lemma {:induction false} BodySeesTheJournal(p: Program, s: State)
    requires Reachable(p, s) && s.v.Some?
    ensures s.v.value.h <= Replay(p.body, s.d.journal, [])
  {
    hide Good, Replay;
    var F := ReachableIsInvariant(p, s);
  }

  /** Only the operations of the batch at the end of the recorded history act live. */
  lemma {:induction false} LiveOnlyAtTheEnd(p: Program, s: State, index: nat, w: World, lost: bool)
    requires Reachable(p, s) && Next(p, s, Live(index, w, lost)).Some?
    ensures s.v.value.h == Replay(p.body, s.d.journal, [])
  {
    hide Recorded, Diverges, Replay, Opening, Progress, Definition, JournalOk, DriverOk, HasStarted;
    var F := ReachableIsInvariant(p, s);
    JournalPart(p, s, F);
    LiveMeansFrontier(p, s.d.journal, F, s.v.value, index);
  }

  /** The journal only grows, so recorded outcomes are final. */
  lemma {:induction false} JournalOnlyGrows(p: Program, s: State, acts: seq<Act>, s': State)
    requires Exec(p, s, acts) == Some(s')
    ensures s.d.journal <= s'.d.journal
    decreases |acts|
  {
    hide Next;
    if acts != [] {
      var mid := Next(p, s, acts[0]).value;
      StepOnlyGrows(p, s, acts[0], mid);
      JournalOnlyGrows(p, mid, acts[1..], s');
    }
  }

  lemma {:induction false} StepOnlyGrows(p: Program, s: State, act: Act, s': State)
    requires Next(p, s, act) == Some(s')
    ensures s'.d.journal == s.d.journal || (|s'.d.journal| == |s.d.journal| + 1 && s'.d.journal[..|s.d.journal|] == s.d.journal)
  {
    hide Recorded, Diverges, Opening, Progress, Definition, Invocation, HasStarted, NextUndo, UndoProgress,
        FailuresOf, First;
  }

  /** Later replays give the body everything earlier ones gave it. */
  lemma {:induction false} ReplaysAgree(p: Program, s: State, acts: seq<Act>, s': State)
    requires Reachable(p, s) && Exec(p, s, acts) == Some(s')
    ensures Replay(p.body, s.d.journal, []) <= Replay(p.body, s'.d.journal, [])
  {
    hide InvAt, Exec, Replay;
    var F := ReachableIsInvariant(p, s);
    var G := ExecKeeps(p, s, F, acts, s');
    JournalPart(p, s', G);
    ReplayReachesFrontier(p, s'.d.journal, G, []);
  }

  // ---- outcomes ----

  /** A terminal record says what the body, given the recorded outcomes, does in the end. */
  ghost predicate RecordMatches(record: Record, move: Move, successor: Option<Json>) {
    match record
    case Running => true
    case Completed(result) => move == Return(result)
    case Failed(error, _) => move == Raise(error)
    case CompensationFailed(error, failures) => move == Raise(error) && failures != []
    case Continued(_) => successor.Some? && move == ContinueAsNew(successor.value)
  }

  lemma {:induction false} OutcomeIsTheBodys(p: Program, s: State)
    requires Reachable(p, s)
    ensures RecordMatches(s.d.record, p.body(Replay(p.body, s.d.journal, [])), s.d.successor)
  {
    hide Replay, DriverOk, Good, Reachable, RecordMatches;
    var F := ReachableIsInvariant(p, s);
    RecordFits(p, s.d, F);
  }

  lemma {:induction false} RecordFits(p: Program, d: Durable, F: seq<Outcome>)
    requires Good(p, d, F)
    ensures RecordMatches(d.record, p.body(F), d.successor)
  {
    hide JournalOk, SignalsOk, FailureList, Comps;
    PathOf(p, d.journal, F);
  }

  /** Does the event announce the outcome the record holds? Failures may be listed in another order. */
  ghost predicate Announces(fact: Fact, record: Record) {
    match record
    case Running => false
    case Completed(result) => fact == RunCompleted(result)
    case Failed(error, compensated) => fact == RunFailed(error, compensated, [])
    case CompensationFailed(error, failures) =>
      && fact.RunFailed? && fact.error == error && !fact.compensated && fact.failures != []
      && multiset(fact.failures) == multiset(failures)
    case Continued(next) => fact.RunContinued? && fact.nextRunId == next
  }

  /** Write-ahead: a terminal record has its terminal event, and a journal never has two. */
  lemma {:induction false} OutcomeIsJournaledFirst(p: Program, s: State)
    requires Reachable(p, s) && !s.d.record.Running?
    ensures exists x :: x in At(s.d.journal, RunLane) && Announces(x.fact, s.d.record)
    ensures var run := At(s.d.journal, RunLane);
            forall i, j | 0 <= i < |run| && 0 <= j < |run| ::
              (run[i].fact.Kind() in TERMINAL_RUN_KINDS && run[j].fact.Kind() in TERMINAL_RUN_KINDS ==> i == j)
  {
    hide Replay, DriverOk, SignalsOk, Comps, PastOk, FrontOk, UndoOk, Numbered;
    var F := ReachableIsInvariant(p, s);
    PathOf(p, s.d.journal, F);
    TerminalFound(p, s.d, F);
  }

  lemma {:induction false} TerminalFound(p: Program, d: Durable, F: seq<Outcome>)
    requires Good(p, d, F) && !d.record.Running?
    ensures exists x :: x in At(d.journal, RunLane) && Announces(x.fact, d.record)
  {
    hide SignalsOk, Comps, PastOk, FrontOk, UndoOk, Numbered, RunOk, AllSettled, Orders;
    PathOf(p, d.journal, F);
    var kind := match d.record
      case Completed(_) => RUN_COMPLETED
      case Continued(_) => RUN_CONTINUED
      case _ => RUN_FAILED;
    assert Logged(d.journal, kind);
    var x :| x in At(d.journal, RunLane) && x.fact.Kind() == kind;
    assert TerminalOk(p, d.journal, F, x.fact);
    if x.fact.RunFailed? {
      var fs := if d.record.Failed? then [] else d.record.failures;
      FailureListsAgree(p, d.journal, F, x.fact.failures, fs);
    }
    assert Announces(x.fact, d.record);
  }

  /** Two orders of the same compensations list the same failures. */
  lemma {:induction false} FailureListsAgree(p: Program, journal: Log, F: seq<Outcome>, a: seq<UndoFailure>,
      b: seq<UndoFailure>)
    requires IsPath(p.body, F, 0) && FailureList(p, journal, F, a) && FailureList(p, journal, F, b)
    ensures multiset(a) == multiset(b) && |a| == |b|
  {
    hide Comps, FailuresOf;
    assert |multiset(a)| == |a| && |multiset(b)| == |b|;
    var s :| Orders(s, Comps(p.body, F, 0)) && a == FailuresOf(s, journal);
    var t :| Orders(t, Comps(p.body, F, 0)) && b == FailuresOf(t, journal);
    OrderDoesNotMatter(s, t, journal);
  }

  /** Taking one compensation out of a stack takes its failure, if any, out of the list. */
  lemma {:induction false} FailuresWithout(stack: seq<Comp>, at: nat, journal: Log)
    requires at < |stack|
    ensures multiset(FailuresOf(stack, journal)) ==
            multiset(FailuresOf(stack[..at] + stack[at + 1..], journal)) + multiset(FailuresOf([stack[at]], journal))
    decreases |stack|
  {
    hide FailuresOf;
    var last, init := stack[|stack| - 1], stack[..|stack| - 1];
    LastFailure(init, last, journal);
    assert stack == init + [last];
    if at == |stack| - 1 {
      assert stack[..at] + stack[at + 1..] == init;
    } else {
      FailuresWithout(init, at, journal);
      var rest := init[..at] + init[at + 1..];
      assert stack[..at] + stack[at + 1..] == rest + [last];
      LastFailure(rest, last, journal);
    }
  }

  lemma {:induction false} LastFailure(init: seq<Comp>, last: Comp, journal: Log)
    ensures multiset(FailuresOf(init + [last], journal)) ==
            multiset(FailuresOf([last], journal)) + multiset(FailuresOf(init, journal))
  {
    hide At, First;
    assert (init + [last])[..|init|] == init;
    assert [last][..0] == [];
    assert FailuresOf([], journal) == [];
  }

  lemma {:induction false} OrderDoesNotMatter(s: seq<Comp>, t: seq<Comp>, journal: Log)
    requires forall c :: c in s <==> c in t
    requires forall i, j :: 0 <= i < j < |s| ==> s[i].opId != s[j].opId
    requires forall i, j :: 0 <= i < j < |t| ==> t[i].opId != t[j].opId
    ensures multiset(FailuresOf(s, journal)) == multiset(FailuresOf(t, journal))
    decreases |s|
  {
    hide FailuresOf;
    if s == [] {
      HasMember(t);
    } else {
      var last, init := s[|s| - 1], s[..|s| - 1];
      assert last in t;
      var at :| 0 <= at < |t| && t[at] == last;
      var rest := t[..at] + t[at + 1..];
      forall c
        ensures c in init <==> c in rest
      {
        WithoutOne(s, |s| - 1, c);
        WithoutOne(t, at, c);
        assert s[..|s| - 1] + s[|s|..] == init;
      }
      OrderDoesNotMatter(init, rest, journal);
      FailuresWithout(t, at, journal);
      FailuresWithout(s, |s| - 1, journal);
      assert s[..|s| - 1] + s[|s|..] == init;
    }
  }

  lemma {:induction false} WithoutOne(s: seq<Comp>, at: nat, c: Comp)
    requires at < |s|
    requires forall i, j :: 0 <= i < j < |s| ==> s[i].opId != s[j].opId
    ensures c in s[..at] + s[at + 1..] <==> c in s && c != s[at]
  {
    var rest := s[..at] + s[at + 1..];
    if c in s && c != s[at] {
      var i :| 0 <= i < |s| && s[i] == c;
      assert rest[if i < at then i else i - 1] == c;
    }
    if c in rest {
      var i :| 0 <= i < |rest| && rest[i] == c;
      assert s[if i < at then i else i + 1] == c;
    }
  }
}
