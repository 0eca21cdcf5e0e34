/** What a body is given for its operations is what the outside world answered, on replay as when live. */
module Answers {
  import opened Wrappers
  import opened Events
  import opened Retry
  import opened Engine
  import opened Lanes
  import opened Paths
  import opened Invariant
  import opened Preservation
  import opened Reachability
  import opened Replays
  import opened CrashSafety
  import opened Effects
  import opened Saga
  import opened Deadlines
  import opened Reports
  import opened Acts
  import opened Clocks
  import Decimals

  /** The outcome at op id `id` is what was answered to the operation. */
  ghost predicate Answered(op: Op, id: nat, d: Durable, outcome: Outcome) {
    match op
    case Step(name, _, _) =>
      || (outcome.Returned? && CallGave(d, id, outcome.value))
      || (outcome.StepRaised? && outcome.name == name && outcome.opId == id && CallRaised(d, id, outcome.attempts, outcome.error))
    case Child(workflow, _, _) =>
      || (outcome.Returned? && ChildGave(d, id, outcome.value))
      || (outcome.ChildRaised? && outcome.workflow == workflow && ChildRaisedIt(d, id, outcome.childRunId, outcome.error))
    case Timer(_) => outcome == Returned("null")
    case Wait(name, timeout) =>
      || (outcome.Returned? && Delivered(d, id, name, outcome.value))
      || (outcome == TimedOut(name, id) && timeout.Some?)
    case Value(_) => outcome.Returned? && FirstValue(d, id, outcome.value)
    case Tag(update) => outcome == Tagged(update)
    case Register(_) => outcome == Returned("null")
  }

  ghost predicate CallGave(d: Durable, id: nat, value: Json) {
    exists c :: c in d.calls && c.opId == id && !c.undo && c.reply == Success(value)
  }

  ghost predicate CallRaised(d: Durable, id: nat, attempts: nat, error: Error) {
    exists c :: c in d.calls && c.opId == id && !c.undo && c.attempt == attempts && c.reply.Failure? &&
                Error(c.reply.exc.kind, c.reply.exc.message) == error
  }

  ghost predicate ChildGave(d: Durable, id: nat, value: Json) {
    exists a :: a in d.answers && a.opId == id && a.reply == Success(value)
  }

  ghost predicate ChildRaisedIt(d: Durable, id: nat, childRunId: string, error: Error) {
    exists a :: a in d.answers && a.opId == id && a.childRunId == childRunId && a.reply.Failure? &&
                Error(a.reply.exc.kind, a.reply.exc.message) == error
  }

  /** A signal of that name was in the inbox, and the journal says that this operation consumed it. */
  ghost predicate Delivered(d: Durable, id: nat, name: string, payload: Json) {
    exists t :: 0 <= t < |d.inbox| && d.inbox[t].name == name && d.inbox[t].payload == payload && Consumed(d.journal, id, t)
  }

  ghost predicate Consumed(journal: Log, id: nat, t: nat) {
    exists e :: e in journal && e.opId == id && e.fact.EventConsumed? && e.fact.signalSeq == t
  }

  /** The operation's first event holds that value. */
  ghost predicate FirstValue(d: Durable, id: nat, value: Json) {
    var lane := At(d.journal, OpLane(id));
    lane != [] && lane[0].fact.ValueRecorded? && lane[0].fact.value == value
  }

  lemma {:induction false} StepIsAnswered(p: Program, d: Durable, F: seq<Outcome>, id: nat, op: Op)
    requires IsPath(p.body, F, 0) && RequestedAt(p.body, F, id) == Some(op) && op.Step? && id < |F|
    requires TriesBacked(p, d, F) && Recorded(op, id, At(d.journal, OpLane(id))) == Some(F[id])
    ensures Answered(op, id, d, F[id])
  {
    hide IsPath, RequestedAt, At, IsFinal;
    var lane := At(d.journal, OpLane(id));
    var completed, failed := First(lane, STEP_COMPLETED), First(lane, STEP_FAILED);
    var x := if completed.Some? then completed.value else failed.value;
    assert TryOf(p, d, F, id, false, op, x);
    var k :| 0 <= k < |d.calls| && Backs(d.calls[k], id, false, op.policy, x);
    assert d.calls[k] in d.calls;
  }

  lemma {:induction false} ChildIsAnswered(d: Durable, id: nat, op: Op, outcome: Outcome)
    requires op.Child? && ChildrenBacked(d) && Shape(op, At(d.journal, OpLane(id)))
    requires Recorded(op, id, At(d.journal, OpLane(id))) == Some(outcome)
    ensures Answered(op, id, d, outcome)
  {
    hide At;
    var lane := At(d.journal, OpLane(id));
    TwoOfAChild(op, id, lane);
    ResultIsFound(lane);
    assert lane[1] in lane && IsChildOutcome(lane[1].fact);
    var k :| 0 <= k < |d.answers| && Tells(d.answers[k], id, lane[1].fact);
    assert d.answers[k] in d.answers;
  }

  lemma {:induction false} TwoOfAChild(op: Op, id: nat, lane: seq<Entry>)
    requires op.Child? && Shape(op, lane) && Recorded(op, id, lane).Some?
    ensures |lane| == 2 && lane[0].fact.ChildScheduled? && IsChildOutcome(lane[1].fact)
    ensures lane[1].fact.childRunId == lane[0].fact.childRunId
  {
    if |lane| == 1 {
      UnfinishedIsUnrecorded(op, id, lane);
    }
  }

  lemma {:induction false} WaitIsAnswered(d: Durable, id: nat, op: Op, outcome: Outcome)
    requires op.Wait? && SignalsOk(d) && Shape(op, At(d.journal, OpLane(id)))
    requires Recorded(op, id, At(d.journal, OpLane(id))) == Some(outcome)
    ensures Answered(op, id, d, outcome)
  {
    hide At;
    var lane := At(d.journal, OpLane(id));
    TwoOfAWait(op, id, lane);
    ResultIsFound(lane);
    if lane[1].fact.EventConsumed? {
      LaneMembers(d.journal, OpLane(id), lane[1]);
      var e :| e in d.journal && LaneOf(e) == OpLane(id) && Entry(e.fact, e.ts) == lane[1];
      assert Consumed(d.journal, id, e.fact.signalSeq);
    }
  }

  lemma {:induction false} TwoOfAWait(op: Op, id: nat, lane: seq<Entry>)
    requires op.Wait? && Shape(op, lane) && Recorded(op, id, lane).Some?
    ensures |lane| == 2 && lane[0].fact.WaitCreated? && lane[0].fact.deadline.Some? == op.timeout.Some?
    ensures (lane[1].fact.EventConsumed? && lane[1].fact.name == op.name) ||
            (lane[1].fact == WaitTimedOut(op.name) && lane[0].fact.deadline.Some?)
  {
    if |lane| == 1 {
      UnfinishedIsUnrecorded(op, id, lane);
    }
  }

  lemma {:induction false} OthersAreAnswered(d: Durable, id: nat, op: Op, outcome: Outcome)
    requires !op.Step? && !op.Child? && !op.Wait? && Shape(op, At(d.journal, OpLane(id)))
    requires Recorded(op, id, At(d.journal, OpLane(id))) == Some(outcome)
    ensures Answered(op, id, d, outcome)
  {
    hide At;
  }

  /** In every reachable run each outcome the body is given is the answer to what it asked for: a step's value or
      last error is what a call came back with, a child's is an answer of its run, a consumed signal is one that
      was delivered, and the rest is what was asked for. */
  lemma {:induction false} BodiesGetTheAnswers(p: Program, s: State, id: nat)
    returns (F: seq<Outcome>)
    requires Reachable(p, s)
    ensures F == Replay(p.body, s.d.journal, []) && IsPath(p.body, F, 0)
    ensures id < |F| ==> Answered(RequestedAt(p.body, F, id).value, id, s.d, F[id])
  {
    hide Reachable, Replay, IsPath, At, Recorded, Shape, Answered, OpAt, RunOk, FrontOk, UndoOk, EndOk, Numbered, SignalsOk,
        TriesBacked, ChildrenBacked, InvAt;
    F := ReachableIsBacked(p, s);
    SignalsAreConsumedInOrder(p, s);
    if id < |F| {
      var op := OpAt(p.body, F, 0, id);
      assert Recorded(op, id, At(s.d.journal, OpLane(id))) == Some(F[id]);
      if op.Step? {
        StepIsAnswered(p, s.d, F, id, op);
      } else if op.Child? {
        ChildIsAnswered(s.d, id, op, F[id]);
      } else if op.Wait? {
        WaitIsAnswered(s.d, id, op, F[id]);
      } else {
        OthersAreAnswered(s.d, id, op, F[id]);
      }
    }
  }

  // ---- values observed once ----

  lemma {:induction false} PlayConcat(p: Program, s: State, a: seq<Turn>, mid: State, b: seq<Turn>, s': State)
    requires Play(p, s, a) == Some(mid) && Play(p, mid, b) == Some(s')
    ensures Play(p, s, a + b) == Some(s')
    decreases |a|
  {
    hide Take;
    if a == [] {
      assert a + b == b;
    } else {
      PlayConcat(p, Take(p, s, a[0]).value, a[1..], mid, b, s');
      assert (a + b)[0] == a[0] && (a + b)[1..] == a[1..] + b;
    }
  }

  lemma {:induction false} PlaysOn(p: Program, s: State, more: seq<Turn>, s': State)
    requires Reachable(p, s) && Play(p, s, more) == Some(s')
    ensures Reachable(p, s')
  {
    hide Origin, Play;
    var life, turns :| Origin(p, life).Some? && Play(p, Origin(p, life).value, turns) == Some(s);
    PlayConcat(p, Origin(p, life).value, turns, s, more, s');
  }

  lemma {:induction false} ValueOpens(op: Op, id: nat, runId: string, w: World)
    requires Opening(op, id, runId, w).ValueRecorded?
    ensures op.Value? && Opening(op, id, runId, w).value == w.novel
  {
  }

  /** A clock reading, a random number or a fresh id is observed once: what the world gave when it was journaled
      is what every later drive is given, until a rewind drops it. */
  lemma {:induction false} ObservedOnce(p: Program, s0: State, act: Act, s1: State, turns: seq<Turn>, s2: State, op: Op,
      id: nat, e: Event)
    returns (F: seq<Outcome>)
    requires Reachable(p, s0) && Writes(p, s0, act, s1, e) && WorksOn(p, s0, act, op, id)
    requires e.opId == id && e.fact.ValueRecorded?
    requires Play(p, s1, turns) == Some(s2) && NotOpenedAgain(p, s1, turns, id)
    ensures F == Replay(p.body, s2.d.journal, []) && IsPath(p.body, F, 0) && op.Value?
    ensures id < |F| && RequestedAt(p.body, F, id).value.Value? ==> F[id] == Returned(act.w.novel)
  {
    hide Reachable, Next, Play, NotOpenedAgain, Replay, IsPath, At, Opening, OpAt;
    var x := OpeningStays(p, s0, act, s1, turns, s2, op, id, e);
    ValueOpens(op, id, p.runId, act.w);
    assert Reachable(p, s1) by { OneTurn(p, s0, act, s1); }
    PlaysOn(p, s1, turns, s2);
    F := BodiesGetTheAnswers(p, s2, id);
  }

  lemma {:induction false} OneTurn(p: Program, s: State, act: Act, s': State)
    requires Reachable(p, s) && Next(p, s, act) == Some(s')
    ensures Reachable(p, s')
  {
    hide Reachable, Next;
    assert [Work(act)][1..] == [];
    assert Play(p, s', []) == Some(s');
    PlaysOn(p, s, [Work(act)], s');
  }

  // ---- child runs ----

  lemma {:induction false} SuffixIsUnique(a: string, x: string, b: string, y: string)
    requires Decimals.AllDigits(x) && Decimals.AllDigits(y) && a + ".c" + x == b + ".c" + y
    ensures a == b && x == y
  {
    var s, t := a + ".c" + x, b + ".c" + y;
    assert s[|s| - |x| - 1] == 'c' && t[|t| - |y| - 1] == 'c';
    assert forall i :: |s| - |x| <= i < |s| ==> Decimals.IsDigit(s[i]);
    assert forall i :: |t| - |y| <= i < |t| ==> Decimals.IsDigit(t[i]);
    assert s[..|a|] == a && t[..|b|] == b;
    assert s[|s| - |x|..] == x && t[|t| - |y|..] == y;
  }

  lemma {:induction false} ChildOpens(op: Op, id: nat, runId: string, w: World)
    requires Opening(op, id, runId, w).ChildScheduled?
    ensures op.Child?
    ensures Opening(op, id, runId, w).childRunId ==
            if Given(op.childRunId) then op.childRunId.value else runId + ".c" + Decimals.Render(id)
  {
  }

  /** A child run gets the id that was asked for, and else one of its own: no two operations, of one parent or of
      two, get the same. */
  lemma {:induction false} ChildrenGetTheirOwnIds(p: Program, s: State, a: Act, s': State, op: Op, e: Event, q: Program,
      t: State, b: Act, t': State, other: Op, f: Event)
    requires Writes(p, s, a, s', e) && e.opId >= 0 && WorksOn(p, s, a, op, e.opId) && e.fact.ChildScheduled?
    requires Writes(q, t, b, t', f) && f.opId >= 0 && WorksOn(q, t, b, other, f.opId) && f.fact.ChildScheduled?
    ensures op.Child? && (op.childRunId.Some? && op.childRunId.value != "" ==> e.fact.childRunId == op.childRunId.value)
    ensures other.Child?
    ensures op.childRunId in {None, Some("")} && other.childRunId in {None, Some("")} &&
            e.fact.childRunId == f.fact.childRunId ==>
              p.runId == q.runId && e.opId == f.opId
  {
    hide Next, Recorded, Diverges, Opening, Progress, Definition, Decimals.Render;
    var x := OperationsEvent(p, s, a, s', e, e.opId);
    var y := OperationsEvent(q, t, b, t', f, f.opId);
    ProgressDefinesNothing(op, At(s.d.journal, OpLane(e.opId)), ConsumedSeqs(s.d.journal), s.d.inbox, a.w);
    ProgressDefinesNothing(other, At(t.d.journal, OpLane(f.opId)), ConsumedSeqs(t.d.journal), t.d.inbox, b.w);
    ChildOpens(op, e.opId, p.runId, a.w);
    ChildOpens(other, f.opId, q.runId, b.w);
    if !Given(op.childRunId) && !Given(other.childRunId) && e.fact.childRunId == f.fact.childRunId {
      SuffixIsUnique(p.runId, Decimals.Render(e.opId), q.runId, Decimals.Render(f.opId));
      Decimals.ParseRender(e.opId);
      Decimals.ParseRender(f.opId);
    }
  }
}
