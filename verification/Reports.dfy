/** What is journaled is what happened: every attempt in a journal, and every outcome of a child run, is
    something the outside world really answered, across crashes, rewinds and changes of code. */
module Reports {
  import opened Wrappers
  import opened Events
  import opened Retry
  import opened Engine
  import opened Lanes
  import opened Paths
  import opened Invariant
  import opened Preservation
  import opened Endings
  import opened Rewind
  import opened Signals
  import opened Patching
  import opened Reachability
  import opened Replays
  import opened CrashSafety
  import opened Effects
  import opened Saga
  import opened Deadlines

  // ---- what backs an event ----

  /** Errors after which no policy tries again, and those this policy names. */
  ghost predicate IsFinal(policy: RetryPolicy, exc: Exc) {
    exists name :: name in exc.bases && (name == "NonRetryable" || name == "SerializationError" || name in policy.nonRetryable)
  }

  lemma {:induction false} RetriesWhile(policy: RetryPolicy, exc: Exc, attempt: nat)
    ensures policy.ShouldRetry(exc, attempt) <==> !IsFinal(policy, exc) && attempt < policy.maxAttempts
  {
    if IsFinal(policy, exc) {
      var name :| name in exc.bases && (name == "NonRetryable" || name == "SerializationError" || name in policy.nonRetryable);
      assert name in exc.bases * ALWAYS_FINAL || name in exc.bases * policy.nonRetryable;
    }
    if exc.bases * ALWAYS_FINAL != {} {
      var name :| name in exc.bases * ALWAYS_FINAL;
    } else if exc.bases * policy.nonRetryable != {} {
      var name :| name in exc.bases * policy.nonRetryable;
    }
  }

  /** Does an attempt's event say what the invocation came back with, and what the policy makes of it? */
  ghost predicate Reports(policy: RetryPolicy, c: Call, fact: Fact) {
    match c.reply
    case Success(value) =>
      if c.undo then fact.CompCompleted? && fact.attempts == c.attempt
      else fact.StepCompleted? && fact.attempts == c.attempt && fact.result == value
    case Failure(exc) =>
      if !IsFinal(policy, exc) && c.attempt < policy.maxAttempts then
        if c.undo then fact.CompAttemptFailed? && fact.attempt == c.attempt && fact.error == ErrorInfo(exc)
        else fact.StepAttemptFailed? && fact.attempt == c.attempt && fact.error == ErrorInfo(exc)
      else
        if c.undo then fact.CompFailed? && fact.failure.attempts == c.attempt && fact.failure.error == ErrorInfo(exc)
        else fact.StepFailed? && fact.attempts == c.attempt && fact.error == ErrorInfo(exc)
  }

  ghost predicate Backs(c: Call, id: nat, undo: bool, policy: RetryPolicy, x: Entry) {
    c.opId == id && c.undo == undo && c.startedAt <= x.ts && Reports(policy, c, x.fact)
  }

  ghost predicate Backed(calls: seq<Call>, id: nat, undo: bool, policy: RetryPolicy, x: Entry) {
    exists k :: 0 <= k < |calls| && Backs(calls[k], id, undo, policy, x)
  }

  /** Is the event a child run's outcome, and is it the one the run gave? */
  ghost predicate Tells(a: Answer, id: nat, fact: Fact) {
    && a.opId == id
    && match a.reply
       case Success(value) => fact.ChildCompleted? && fact.childRunId == a.childRunId && fact.result == value
       case Failure(exc) => fact.ChildFailed? && fact.childRunId == a.childRunId && fact.error == ErrorInfo(exc)
  }

  predicate IsChildOutcome(fact: Fact) {
    fact.ChildCompleted? || fact.ChildFailed?
  }

  /** The compensation an operation registers if it succeeds. */
  function UndoOf(op: Op): Option<Undo> {
    match op
    case Step(_, _, undo) => undo
    case Child(_, _, undo) => undo
    case Register(comp) => Some(comp)
    case _ => None
  }

  /** The policy that the attempts of an operation, or of its compensation, are made under. */
  function PolicyFor(op: Op, undo: bool): Option<RetryPolicy> {
    if undo then (if UndoOf(op).Some? then Some(UndoOf(op).value.policy) else None)
    else if op.Step? then Some(op.policy) else None
  }

  function LaneOfTry(id: nat, undo: bool): Lane {
    if undo then UndoLane(id) else OpLane(id)
  }

  ghost predicate TriesBacked(p: Program, d: Durable, F: seq<Outcome>)
    requires IsPath(p.body, F, 0)
  {
    forall id: nat, undo, op, x | TryOf(p, d, F, id, undo, op, x) ::
      Backed(d.calls, id, undo, PolicyFor(op, undo).value, x)
  }

  /** The entry is an attempt of the operation the body requests at that op id, or of its compensation. */
  ghost predicate TryOf(p: Program, d: Durable, F: seq<Outcome>, id: nat, undo: bool, op: Op, x: Entry)
    requires IsPath(p.body, F, 0)
  {
    && RequestedAt(p.body, F, id) == Some(op) && PolicyFor(op, undo).Some?
    && x in At(d.journal, LaneOfTry(id, undo)) && IsTry(x.fact, undo)
  }

  ghost predicate ChildrenBacked(d: Durable) {
    forall id: nat, x | x in At(d.journal, OpLane(id)) && IsChildOutcome(x.fact) ::
      exists k :: 0 <= k < |d.answers| && Tells(d.answers[k], id, x.fact)
  }

  // ---- which operation an op id stands for does not change ----

  lemma {:induction false} RequestStays(b: Body, F: seq<Outcome>, G: seq<Outcome>, id: nat)
    requires IsPath(b, F, 0) && IsPath(b, G, 0) && F <= G && RequestedAt(b, F, id).Some?
    ensures RequestedAt(b, G, id) == RequestedAt(b, F, id)
  {
    hide IsPath, OpAt;
    assert F == G[..|F|];
    if |F| < |G| {
      PathPrefix(b, F, G, 0);
      PathCut(b, G, 0, |F|);
      if id >= |F| {
        HeadOp(b, G, F, id);
      }
    } else {
      assert F == G;
    }
  }

  lemma {:induction false} HeadOp(b: Body, G: seq<Outcome>, F: seq<Outcome>, id: nat)
    requires |F| <= id < |G| && F == G[..|F|] && IsPath(b, G, |F|) && id < |F| + |b(F).Ops()|
    ensures OpAt(b, G, |F|, id) == b(F).Ops()[id - |F|]
  {
  }

  lemma {:induction false} LaneIsRequested(p: Program, journal: Log, F: seq<Outcome>, id: nat)
    requires JournalOk(p, journal, F) && IsPath(p.body, F, 0) && At(journal, OpLane(id)) != []
    ensures RequestedAt(p.body, F, id).Some? && Shape(RequestedAt(p.body, F, id).value, At(journal, OpLane(id)))
  {
    hide Shape, Recorded, At, RunOk, UndoOk, EndOk, IsPath;
    if |F| <= id < |F| + |p.body(F).Ops()| {
      assert Shape(p.body(F).Ops()[id - |F|], At(journal, OpLane(|F| + (id - |F|))));
    }
  }

  lemma {:induction false} CompIsRequested(p: Program, F: seq<Outcome>, c: Comp)
    requires IsPath(p.body, F, 0) && c in Comps(p.body, F, 0)
    ensures RequestedAt(p.body, F, c.opId).Some? && UndoOf(RequestedAt(p.body, F, c.opId).value) == Some(c.undo)
  {
    hide IsPath, Comps, OpAt;
    CompsMembers(p.body, F, 0, c);
  }

  // ---- acts ----

  /** More calls and the same attempts, or fewer. */
  lemma {:induction false} FewerTries(p: Program, d: Durable, F: seq<Outcome>, d': Durable, G: seq<Outcome>)
    requires IsPath(p.body, F, 0) && IsPath(p.body, G, 0) && G <= F && TriesBacked(p, d, F) && ChildrenBacked(d)
    requires d.calls <= d'.calls && d.answers <= d'.answers
    requires forall lane, x :: lane != RunLane && x in At(d'.journal, lane) ==> x in At(d.journal, lane)
    ensures TriesBacked(p, d', G) && ChildrenBacked(d')
  {
    hide IsPath, RequestedAt, Backs, Tells, At, PolicyFor, IsTry;
    forall id: nat, undo, op, x | TryOf(p, d', G, id, undo, op, x)
      ensures Backed(d'.calls, id, undo, PolicyFor(op, undo).value, x)
    {
      RequestStays(p.body, G, F, id);
      assert TryOf(p, d, F, id, undo, op, x);
      assert Backed(d.calls, id, undo, PolicyFor(op, undo).value, x);
    }
    forall id: nat, x | x in At(d'.journal, OpLane(id)) && IsChildOutcome(x.fact)
      ensures exists k :: 0 <= k < |d'.answers| && Tells(d'.answers[k], id, x.fact)
    {
      var k :| 0 <= k < |d.answers| && Tells(d.answers[k], id, x.fact);
      assert Tells(d'.answers[k], id, x.fact);
    }
  }

  ghost predicate NewTry(p: Program, G: seq<Outcome>, e: Event, undo: bool, op: Op)
    requires IsPath(p.body, G, 0)
  {
    && e.opId >= 0 && LaneOf(e) == LaneOfTry(e.opId, undo) && IsTry(e.fact, undo)
    && RequestedAt(p.body, G, e.opId) == Some(op) && PolicyFor(op, undo).Some?
  }

  /** One more event: the entry it adds is backed, and the others were. */
  lemma {:induction false} OneMoreTry(p: Program, d: Durable, F: seq<Outcome>, e: Event, d': Durable, G: seq<Outcome>)
    requires IsPath(p.body, F, 0) && IsPath(p.body, G, 0) && F <= G && TriesBacked(p, d, F) && ChildrenBacked(d)
    requires JournalOk(p, d.journal, F)
    requires d'.journal == d.journal + [e] && d.calls <= d'.calls && d.answers <= d'.answers
    requires F != G ==> forall id :: At(d.journal, UndoLane(id)) == []
    requires forall undo, op | NewTry(p, G, e, undo, op) ::
               Backed(d'.calls, e.opId, undo, PolicyFor(op, undo).value, Entry(e.fact, e.ts))
    requires e.opId >= 0 && LaneOf(e) == OpLane(e.opId) && IsChildOutcome(e.fact) ==>
               exists k :: 0 <= k < |d'.answers| && Tells(d'.answers[k], e.opId, e.fact)
    ensures TriesBacked(p, d', G) && ChildrenBacked(d')
  {
    hide IsPath, RequestedAt, Backs, Tells, At, PolicyFor, IsTry, LaneOf, JournalOk;
    AtAppend(d.journal, e);
    forall id: nat, undo, op, x | TryOf(p, d', G, id, undo, op, x)
      ensures Backed(d'.calls, id, undo, PolicyFor(op, undo).value, x)
    {
      if x in At(d.journal, LaneOfTry(id, undo)) {
        if F != G {
          LaneIsRequested(p, d.journal, F, id);
          RequestStays(p.body, F, G, id);
        }
        assert TryOf(p, d, F, id, undo, op, x);
        assert Backed(d.calls, id, undo, PolicyFor(op, undo).value, x);
      } else {
        SameLane(e, id, undo);
      }
    }
    forall id: nat, x | x in At(d'.journal, OpLane(id)) && IsChildOutcome(x.fact)
      ensures exists k :: 0 <= k < |d'.answers| && Tells(d'.answers[k], id, x.fact)
    {
      if x in At(d.journal, OpLane(id)) {
        var k :| 0 <= k < |d.answers| && Tells(d.answers[k], id, x.fact);
        assert Tells(d'.answers[k], id, x.fact);
      } else {
        SameLane(e, id, false);
      }
    }
  }

  lemma {:induction false} SameLane(e: Event, id: nat, undo: bool)
    ensures LaneOf(e) == LaneOfTry(id, undo) ==> e.opId == id
  {
  }

  /** What a step's attempt says is what its call came back with. */
  lemma {:induction false} TryIsTold(op: Op, id: nat, runId: string, lane: seq<Entry>, used: set<nat>, inbox: seq<Signal>,
      w: World, fact: Fact)
    requires Some(fact) ==
      if Definition(lane).None? then Some(Opening(op, id, runId, w)) else Progress(op, lane, used, inbox, w)
    ensures IsTry(fact, false) ==>
              op.Step? && Reports(op.policy, Call(id, false, Tally(lane, STEP_ATTEMPT_FAILED) + 1, w.now, w.reply), fact)
  {
    hide Tally, Final, RetryPolicy.Delay, First, Definition, RetryPolicy.ShouldRetry, NextUnconsumed, IsFinal, Decimals.Render;
    if w.reply.Failure? && op.Step? {
      RetriesWhile(op.policy, w.reply.exc, Tally(lane, STEP_ATTEMPT_FAILED) + 1);
    }
  }

  /** What a child's outcome says is what its run answered. */
  lemma {:induction false} ChildIsTold(op: Op, id: nat, runId: string, lane: seq<Entry>, used: set<nat>, inbox: seq<Signal>,
      w: World, fact: Fact)
    requires Some(fact) ==
      if Definition(lane).None? then Some(Opening(op, id, runId, w)) else Progress(op, lane, used, inbox, w)
    ensures IsChildOutcome(fact) ==> Awaited(op, id, lane, w) != [] && Tells(Awaited(op, id, lane, w)[0], id, fact)
  {
    hide Tally, Final, RetryPolicy.Delay, Definition, RetryPolicy.ShouldRetry, NextUnconsumed, Decimals.Render;
  }

  /** A live operation's event is backed by the call, or the answer, it came with. */
  lemma {:induction false} LiveIsBacked(p: Program, s: State, op: Op, id: nat, w: World, s': State, e: Event)
    requires LiveStep(p, s, op, id, w, false) == Some(s') && s'.d.journal == s.d.journal + [e]
    ensures s.d.calls <= s'.d.calls && s.d.answers <= s'.d.answers
    ensures e.opId == id && LaneOf(e) == OpLane(id) && !IsTry(e.fact, true)
    ensures IsTry(e.fact, false) ==> op.Step? && Backed(s'.d.calls, id, false, op.policy, Entry(e.fact, e.ts))
    ensures IsChildOutcome(e.fact) ==> exists k :: 0 <= k < |s'.d.answers| && Tells(s'.d.answers[k], id, e.fact)
  {
    hide Recorded, At, Tally, Definition, Opening, Progress, Expected, LaneOf, Reports, Tells, Invocation, IsTry, MergeTags;
    var lane := At(s.d.journal, OpLane(id));
    assert e == s'.d.journal[|s.d.journal|];
    var used := ConsumedSeqs(s.d.journal);
    OpLaneOfFact(op, id, p.runId, lane, used, s.d.inbox, w, e);
    TryMeansCall(op, id, p.runId, lane, used, s.d.inbox, w, e.fact);
    TryIsTold(op, id, p.runId, lane, used, s.d.inbox, w, e.fact);
    ChildIsTold(op, id, p.runId, lane, used, s.d.inbox, w, e.fact);
    if IsTry(e.fact, false) {
      assert Backs(s'.d.calls[|s.d.calls|], id, false, op.policy, Entry(e.fact, e.ts));
    }
    if IsChildOutcome(e.fact) {
      NoTag(op, id, lane, w);
      assert s'.d.answers[|s.d.answers|] == Awaited(op, id, lane, w)[0];
    }
  }

  lemma {:induction false} NoTag(op: Op, id: nat, lane: seq<Entry>, w: World)
    ensures Awaited(op, id, lane, w) != [] ==> !op.Tag? && |Awaited(op, id, lane, w)| == 1
  {
  }

  lemma {:induction false} UndoIsBacked(s: State, w: World, s': State, e: Event)
    returns (c: Comp)
    requires s.v.Some? && CompensateStep(s, w, false) == Some(s') && s'.d.journal == s.d.journal + [e]
    ensures s.d.calls <= s'.d.calls && s.d.answers == s'.d.answers
    ensures c in s.v.value.stack && e.opId == c.opId && LaneOf(e) == UndoLane(c.opId) && !IsTry(e.fact, false)
    ensures Backed(s'.d.calls, c.opId, true, c.undo.policy, Entry(e.fact, e.ts))
  {
    hide At, Tally, Final, RetryPolicy.Delay, First, RetryPolicy.ShouldRetry, IsFinal;
    c := NextUndo(s.v.value.stack, s.d.journal).value;
    if w.reply.Failure? {
      RetriesWhile(c.undo.policy, w.reply.exc, Tally(At(s.d.journal, UndoLane(c.opId)), COMP_ATTEMPT_FAILED) + 1);
    }
    assert e == s'.d.journal[|s.d.journal|];
    assert Backs(s'.d.calls[|s.d.calls|], c.opId, true, c.undo.policy, Entry(e.fact, e.ts));
  }

  /** What an act that appends nothing remembers, it only adds. */
  lemma {:induction false} MemoryGrows(p: Program, s: State, act: Act, s': State)
    requires Next(p, s, act) == Some(s')
    ensures s.d.calls <= s'.d.calls && s.d.answers <= s'.d.answers
  {
    hide Recorded, Diverges, Opening, Progress, Definition, Invocation, Awaited, UndoProgress, HasStarted, NextUndo,
        First, FailuresOf, At, Tally, AllRecorded;
  }

  ghost predicate AllBacked(p: Program, s: State, F: seq<Outcome>)
  {
    IsPath(p.body, F, 0) && TriesBacked(p, s.d, F) && ChildrenBacked(s.d)
  }

  lemma {:induction false} WorkIsBacked(p: Program, s: State, F: seq<Outcome>, act: Act, s': State, G: seq<Outcome>)
    requires InvAt(p, s, F) && InvAt(p, s', G) && F <= G && IsPath(p.body, G, 0) && AllBacked(p, s, F)
    requires Next(p, s, act) == Some(s')
    ensures AllBacked(p, s', G)
  {
    hide InvAt, IsPath, TriesBacked, ChildrenBacked, Next, JournalOk;
    StepOnlyGrows(p, s, act, s');
    MemoryGrows(p, s, act, s');
    if s'.d.journal == s.d.journal {
      SameFrontier(p, s, F, s', G);
      FewerTries(p, s.d, F, s'.d, G);
    } else if act.Live? {
      LiveWorkIsBacked(p, s, F, act, s', G);
    } else {
      ActKeepsFrontier(p, s, F, act, s', G);
      OtherWorkIsBacked(p, s, F, act, s');
    }
  }

  lemma {:induction false} LiveWorkIsBacked(p: Program, s: State, F: seq<Outcome>, act: Act, s': State, G: seq<Outcome>)
    requires InvAt(p, s, F) && InvAt(p, s', G) && F <= G && IsPath(p.body, G, 0) && AllBacked(p, s, F)
    requires act.Live? && Next(p, s, act) == Some(s') && s'.d.journal != s.d.journal
    ensures AllBacked(p, s', G)
  {
    hide Good, DriverOk, IsPath, TriesBacked, ChildrenBacked, JournalOk, LiveStep, HasStarted, Backed, Tells, LaneOf,
        IsTry, Diverges, Recorded;
    var op, id, index := p.body(s.v.value.h).Ops()[act.index], |s.v.value.h| + act.index, act.index;
    if act.lost { LostIsQuiet(p, s, act, s'); }
    StepOnlyGrows(p, s, act, s');
    var e := s'.d.journal[|s.d.journal|];
    assert s'.d.journal == s.d.journal + [e];
    LiveIsBacked(p, s, op, id, act.w, s', e);
    JournalPart(p, s, F);
    JournalPart(p, s', G);
    LiveMeansFrontier(p, s.d.journal, F, s.v.value, index);
    LiveHasNoOutcome(p, s, op, id, act.w, s');
    AwaitingIsOpen(p, s.d.journal, F);
    assert RequestedAt(p.body, F, id) == Some(op);
    RequestStays(p.body, F, G, id);
    OneMoreTry(p, s.d, F, e, s'.d, G);
  }

  lemma {:induction false} LostIsQuiet(p: Program, s: State, act: Act, s': State)
    requires act.Live? && act.lost && Next(p, s, act) == Some(s')
    ensures s'.d.journal == s.d.journal
  {
    hide Recorded, Diverges, Opening, Progress, Definition, Invocation, HasStarted;
  }

  lemma {:induction false} LiveHasNoOutcome(p: Program, s: State, op: Op, id: nat, w: World, s': State)
    requires LiveStep(p, s, op, id, w, false) == Some(s') && s'.d.journal != s.d.journal
    ensures Recorded(op, id, At(s.d.journal, OpLane(id))).None?
  {
    hide Recorded, Diverges, Opening, Progress, Definition;
  }

  lemma {:induction false} OtherWorkIsBacked(p: Program, s: State, F: seq<Outcome>, act: Act, s': State)
    requires InvAt(p, s, F) && AllBacked(p, s, F)
    requires !act.Live? && Next(p, s, act) == Some(s') && s'.d.journal != s.d.journal
    ensures AllBacked(p, s', F)
  {
    hide Good, DriverOk, IsPath, TriesBacked, ChildrenBacked, JournalOk, CompensateStep, ConcludeStep, HasStarted, Backed,
        Tells, Comps, RequestedAt;
    StepOnlyGrows(p, s, act, s');
    MemoryGrows(p, s, act, s');
    var e := s'.d.journal[|s.d.journal|];
    assert s'.d.journal == s.d.journal + [e];
    JournalPart(p, s, F);
    if act.Compensate? {
      if act.lost { LostUndoIsQuiet(s, act.w, s'); }
      var c := UndoIsBacked(s, act.w, s', e);
      DoneMeansFrontier(p, s.d.journal, F, s.v.value);
      CompIsRequested(p, F, c);
    } else {
      RunLevel(p, s, act, s', e);
    }
    OneMoreTry(p, s.d, F, e, s'.d, F);
  }

  lemma {:induction false} LostUndoIsQuiet(s: State, w: World, s': State)
    requires s.v.Some? && CompensateStep(s, w, true) == Some(s')
    ensures s'.d.journal == s.d.journal
  {
    hide UndoProgress, NextUndo;
  }

  /** The other appends are run-level events. */
  lemma {:induction false} RunLevel(p: Program, s: State, act: Act, s': State, e: Event)
    requires !act.Live? && !act.Compensate? && Next(p, s, act) == Some(s') && s'.d.journal == s.d.journal + [e]
    ensures e.opId == -1
  {
    hide HasStarted, First, FailuresOf, NextUndo, Recorded, AllRecorded;
    assert e == s'.d.journal[|s.d.journal|];
  }

  // ---- rewinds and takeovers ----

  /** A rewind adds no attempt to any lane. */
  lemma {:induction false} RewoundHasFewer(journal: Log, toOp: nat, now: Time)
    requires WellNumbered(journal)
    ensures forall lane, x :: lane != RunLane && x in At(Rewound(journal, toOp, now), lane) ==> x in At(journal, lane)
  {
    hide Rewound, NonTerminal, At;
    RewoundLanes(journal, toOp, now);
    forall lane, x | lane != RunLane && x in At(Rewound(journal, toOp, now), lane)
      ensures x in At(journal, lane)
    {
      NonTerminalMembers(At(journal, lane));
    }
  }

  lemma {:induction false} TurnIsBacked(p: Program, s: State, F: seq<Outcome>, turn: Turn, s': State, G: seq<Outcome>)
    requires RunInv(p, s, F) && RunInv(p, s', G) && (F <= G || G <= F) && AllBacked(p, s, F)
    requires Take(p, s, turn) == Some(s')
    ensures AllBacked(p, s', G)
  {
    hide InvAt, IsPath, TriesBacked, ChildrenBacked, Next, JournalOk, Rewound, CanRewind, SignalOrder, OrderlyWaits,
        GivenBack, Released, AlreadyCompensated, FirstFailure;
    IsPathOf(p, s', G);
    JournalPart(p, s, F);
    JournalPart(p, s', G);
    match turn
    case Work(act) =>
      var H := NextKeeps(p, s, F, act, s');
      SameFrontier(p, s', H, s', G);
      WorkIsBacked(p, s, F, act, s', G);
    case Rewinding(toOp, force, now) =>
      if s' == s {
        SameFrontier(p, s, F, s', G);
      } else {
        RewoundIsBacked(p, p, s, F, Target(s.d.journal, toOp), now, s', G);
      }
  }

  /** Where two bodies agree, an op id below the target stands for the same operation. */
  lemma {:induction false} AgreeingRequests(b: Body, c: Body, F: seq<Outcome>, H: seq<Outcome>, toOp: nat, id: nat)
    requires AgreeAlong(b, c, F, toOp) && H <= F && |H| <= toOp && id < toOp && IsPath(b, H, 0) && IsPath(c, H, 0)
    ensures RequestedAt(b, H, id) == RequestedAt(c, H, id)
  {
    hide IsPath, OpAt;
    EmptyPath(b);
    assert H[..0] == [];
    AgreeingPaths(b, c, F, H, 0, toOp);
    if |H| < toOp {
      assert F[..|H|] == H;
      assert b(H) == c(H);
    }
  }

  /** After a rewind the same or changed code finds only attempts that were backed before. */
  lemma {:induction false} RewoundIsBacked(p: Program, q: Program, s: State, F: seq<Outcome>, toOp: nat, now: Time,
      s': State, G: seq<Outcome>)
    requires JournalOk(p, s.d.journal, F) && AllBacked(p, s, F) && IsPath(q.body, G, 0)
    requires s'.d == Reset(s.d, toOp, now) && AgreeAlong(p.body, q.body, F, toOp) && q.tags == p.tags
    requires JournalOk(q, s'.d.journal, G)
    ensures AllBacked(q, s', G)
  {
    hide IsPath, JournalOk, Rewound, GivenBack, Released, At, Backed, Tells, RequestedAt, PolicyFor, IsTry, Cut, Replay,
        AgreeAlong;
    CutIsPath(p.body, F, 0, toOp);
    RewoundServesBoth(p, q, s.d.journal, F, toOp, now);
    ReplayReachesFrontier(q, s'.d.journal, F[..Cut(p.body, F, 0, toOp)], []) by { EmptyPath(q.body); }
    ReplayReachesFrontier(q, s'.d.journal, G, []) by { EmptyPath(q.body); }
    assert G == F[..Cut(p.body, F, 0, toOp)];
    RunPart(p, s.d.journal, F);
    RewoundHasFewer(s.d.journal, toOp, now);
    FewerTries(p, s.d, F, s'.d, G);
    RewoundLanes(s.d.journal, toOp, now);
    forall id: nat, undo, op, x | TryOf(q, s'.d, G, id, undo, op, x)
      ensures Backed(s'.d.calls, id, undo, PolicyFor(op, undo).value, x)
    {
      assert id < toOp;
      AgreeingRequests(p.body, q.body, F, G, toOp, id);
      assert TryOf(p, s'.d, G, id, undo, op, x);
    }
  }

  lemma {:induction false} PlayIsBacked(p: Program, s: State, F: seq<Outcome>, turns: seq<Turn>, s': State)
    returns (G: seq<Outcome>)
    requires RunInv(p, s, F) && AllBacked(p, s, F) && Play(p, s, turns) == Some(s')
    ensures RunInv(p, s', G) && AllBacked(p, s', G)
    decreases |turns|
  {
    hide RunInv, Take, AllBacked;
    G := F;
    if turns != [] {
      var mid := Take(p, s, turns[0]).value;
      var H := TakeKeeps(p, s, F, turns[0], mid);
      TurnIsBacked(p, s, F, turns[0], mid, H);
      G := PlayIsBacked(p, mid, H, turns[1..], s');
    }
  }

  lemma {:induction false} OriginIsBacked(p: Program, life: Life)
    returns (F: seq<Outcome>)
    requires Origin(p, life).Some?
    ensures RunInv(p, Origin(p, life).value, F) && AllBacked(p, Origin(p, life).value, F)
    decreases life
  {
    hide RunInv, Play, AllBacked, IsPath, Cut, CanRewind, AgreeAlong, Replay, FirstFailure, AlreadyCompensated, Rewound,
        GivenBack, Released;
    match life
    case Born =>
      InitialIsRunInv(p);
      NothingToBack(p);
      F := [];
    case Patched(before, past, turns, toOp, force, now) =>
      var start := OriginIsBacked(past, before);
      var s := Play(past, Origin(past, before).value, turns).value;
      var G := PlayIsBacked(past, Origin(past, before).value, start, turns, s);
      IsPathOf(past, s, G);
      TakeoverKeeps(past, p, s, G, toOp, force, now);
      F := G[..Cut(past.body, G, 0, Target(s.d.journal, toOp))];
      RunInvJournal(past, s, G);
      var s' := Origin(p, life).value;
      RunInvJournal(p, s', F);
      IsPathOf(p, s', F);
      FrontierIsReplay(past, s, G);
      RewoundIsBacked(past, p, s, G, Target(s.d.journal, toOp), now, s', F);
  }

  lemma {:induction false} NothingToBack(p: Program)
    ensures AllBacked(p, Initial(p), [])
  {
  }

  // ---- the journal's events ----

  predicate IsAttempt(fact: Fact) {
    IsTry(fact, false) || IsTry(fact, true)
  }

  function AttemptOf(fact: Fact): nat {
    match AsTry(fact)
    case Again(_, attempt, _) => attempt
    case Over(_, attempts) => attempts
    case NotATry => 0
  }

  /** An event's place in its lane. */
  lemma {:induction false} PlaceInLane(journal: Log, i: nat)
    requires i < |journal|
    ensures var lane, k := At(journal, LaneOf(journal[i])), |At(journal[..i], LaneOf(journal[i]))|;
            k < |lane| && lane[k] == Entry(journal[i].fact, journal[i].ts)
  {
    hide LaneOf;
    var lane, e := LaneOf(journal[i]), journal[i];
    AtAppend(journal[..i], e);
    AtConcat(journal[..i] + [e], journal[i + 1..], lane);
    assert journal[..i] + [e] + journal[i + 1..] == journal;
  }

  /** Two events of one lane have different places in it. */
  lemma {:induction false} PlacesDiffer(journal: Log, i: nat, j: nat)
    requires i < j < |journal| && LaneOf(journal[i]) == LaneOf(journal[j])
    ensures |At(journal[..i], LaneOf(journal[i]))| < |At(journal[..j], LaneOf(journal[j]))|
  {
    hide LaneOf;
    var lane, e := LaneOf(journal[i]), journal[i];
    AtAppend(journal[..i], e);
    AtConcat(journal[..i] + [e], journal[i + 1..j], lane);
    assert journal[..i] + [e] + journal[i + 1..j] == journal[..j];
  }

  /** An attempt's lane: the operation the body requests there, and the attempt's number in order. */
  lemma {:induction false} AttemptPlace(p: Program, journal: Log, F: seq<Outcome>, i: nat)
    requires JournalOk(p, journal, F) && IsPath(p.body, F, 0) && i < |journal| && IsAttempt(journal[i].fact)
    ensures var e := journal[i];
            var undo := IsTry(e.fact, true);
            && e.opId >= 0 && RequestedAt(p.body, F, e.opId).Some?
            && PolicyFor(RequestedAt(p.body, F, e.opId).value, undo).Some?
            && LaneOf(e) == LaneOfTry(e.opId, undo)
            && AttemptOf(e.fact) == |At(journal[..i], LaneOf(e))| + if undo then 1 else 0
  {
    hide IsPath, At, RequestedAt, Comps, UndoShape, Shape, RunOk, EndOk, PastOk, FrontOk, UndoOk;
    var e := journal[i];
    PlaceInLane(journal, i);
    var lane, k := At(journal, LaneOf(e)), |At(journal[..i], LaneOf(e))|;
    AttemptHasLane(p, journal, F, i);
    if IsTry(e.fact, true) {
      var c := UndoLaneOwner(p, journal, F, e.opId);
      CompIsRequested(p, F, c);
      UndoNumbers(c.undo, lane, k);
    } else {
      LaneIsRequested(p, journal, F, e.opId);
      StepNumbers(RequestedAt(p.body, F, e.opId).value, lane, k);
    }
  }

  lemma {:induction false} AttemptHasLane(p: Program, journal: Log, F: seq<Outcome>, i: nat)
    requires JournalOk(p, journal, F) && i < |journal| && IsAttempt(journal[i].fact)
    ensures LaneOf(journal[i]) != RunLane
  {
    hide IsPath, UndoOk, EndOk, PastOk, FrontOk, At;
    var e := journal[i];
    if LaneOf(e) == RunLane {
      PlaceInLane(journal, i);
    }
  }

  lemma {:induction false} UndoLaneOwner(p: Program, journal: Log, F: seq<Outcome>, id: int)
    returns (c: Comp)
    requires JournalOk(p, journal, F) && IsPath(p.body, F, 0) && At(journal, UndoLane(id)) != []
    ensures c in Comps(p.body, F, 0) && c.opId == id && UndoShape(c.undo, At(journal, UndoLane(id)))
  {
    hide IsPath, RunOk, EndOk, PastOk, FrontOk, At, Comps, UndoShape;
    c :| c in Comps(p.body, F, 0) && c.opId == id && UndoShape(c.undo, At(journal, UndoLane(id)));
  }

  lemma {:induction false} UndoNumbers(undo: Undo, lane: seq<Entry>, k: nat)
    requires UndoShape(undo, lane) && k < |lane|
    ensures AttemptOf(lane[k].fact) == k + 1
  {
    assert TryAt(lane, k, undo.name, undo.policy);
  }

  lemma {:induction false} StepNumbers(op: Op, lane: seq<Entry>, k: nat)
    requires Shape(op, lane) && k < |lane| && IsTry(lane[k].fact, false)
    ensures op.Step? && AttemptOf(lane[k].fact) == k
  {
    if op.Step? && k > 0 {
      assert lane[1..][k - 1] == lane[k];
      assert TryAt(lane[1..], k - 1, op.name, op.policy);
    }
  }

  // ---- the theorems ----

  /** The call is an invocation of the attempt the event stands for: of the same operation or of its
      compensation, under the same number, begun before the event's time, and its reply is what the
      event and the operation's policy say. */
  ghost predicate Stands(p: Program, F: seq<Outcome>, c: Call, e: Event)
    requires IsPath(p.body, F, 0)
  {
    && e.opId >= 0 && RequestedAt(p.body, F, e.opId).Some?
    && var policy := PolicyFor(RequestedAt(p.body, F, e.opId).value, c.undo);
    && policy.Some? && c.undo == IsTry(e.fact, true) && c.attempt == AttemptOf(e.fact)
    && Backs(c, e.opId, c.undo, policy.value, Entry(e.fact, e.ts))
  }

  lemma {:induction false} AttemptStands(p: Program, s: State, F: seq<Outcome>, i: nat)
    returns (k: nat)
    requires JournalOk(p, s.d.journal, F) && AllBacked(p, s, F) && i < |s.d.journal| && IsAttempt(s.d.journal[i].fact)
    ensures k < |s.d.calls| && Stands(p, F, s.d.calls[k], s.d.journal[i])
  {
    hide IsPath, At, RequestedAt, PolicyFor, JournalOk, ChildrenBacked, LaneOf;
    var e := s.d.journal[i];
    var undo := IsTry(e.fact, true);
    AttemptPlace(p, s.d.journal, F, i);
    PlaceInLane(s.d.journal, i);
    var op, x := RequestedAt(p.body, F, e.opId).value, Entry(e.fact, e.ts);
    assert TryOf(p, s.d, F, e.opId, undo, op, x);
    k :| 0 <= k < |s.d.calls| && Backs(s.d.calls[k], e.opId, undo, PolicyFor(op, undo).value, x);
  }

  /** One call stands for one event. */
  lemma {:induction false} StandsForOne(p: Program, journal: Log, F: seq<Outcome>, c: Call, i: nat, j: nat)
    requires JournalOk(p, journal, F) && IsPath(p.body, F, 0) && i < j < |journal|
    requires IsAttempt(journal[i].fact) && IsAttempt(journal[j].fact)
    requires Stands(p, F, c, journal[i])
    ensures !Stands(p, F, c, journal[j])
  {
    hide IsPath, At, RequestedAt, PolicyFor, JournalOk, LaneOf, Reports;
    AttemptPlace(p, journal, F, i);
    AttemptPlace(p, journal, F, j);
    if LaneOf(journal[i]) == LaneOf(journal[j]) {
      PlacesDiffer(journal, i, j);
    }
  }

  /** Under every schedule of crashes, rewinds and changes of code, each attempt in the journal stands for
      an invocation that was really made and reports its reply, and no invocation is reported twice. */
  lemma {:induction false} AttemptsWereMade(p: Program, s: State)
    returns (call: map<nat, nat>)
    requires Reachable(p, s)
    ensures IsPath(p.body, Replay(p.body, s.d.journal, []), 0)
    ensures forall i: nat :: i in call <==> i < |s.d.journal| && IsAttempt(s.d.journal[i].fact)
    ensures forall i :: i in call ==>
              call[i] < |s.d.calls| && Stands(p, Replay(p.body, s.d.journal, []), s.d.calls[call[i]], s.d.journal[i])
    ensures forall i, j :: i in call && j in call && call[i] == call[j] ==> i == j
  {
    hide Reachable, Replay, IsPath, JournalOk, AllBacked, Stands, IsAttempt;
    var F := ReachableIsBacked(p, s);
    call := CallsStanding(p, s, F, |s.d.journal|);
    forall i, j | i in call && j in call && i < j
      ensures call[i] != call[j]
    {
      StandsForOne(p, s.d.journal, F, s.d.calls[call[i]], i, j);
    }
  }

  // ---- when an operation gives up ----

  /** The policy of the operation the body requests there, or of its compensation. */
  ghost function PolicyAt(b: Body, F: seq<Outcome>, e: Event): RetryPolicy
    requires IsPath(b, F, 0) && e.opId >= 0 && RequestedAt(b, F, e.opId).Some?
    requires PolicyFor(RequestedAt(b, F, e.opId).value, IsTry(e.fact, true)).Some?
  {
    PolicyFor(RequestedAt(b, F, e.opId).value, IsTry(e.fact, true)).value
  }

  /** An attempt's number is within the budget, and only the last one is an outcome. */
  lemma {:induction false} TryWithin(tries: seq<Entry>, k: nat, name: string, policy: RetryPolicy)
    requires Tries(tries, name, policy) && k < |tries|
    ensures 1 <= AttemptOf(tries[k].fact) <= if policy.maxAttempts < 1 then 1 else policy.maxAttempts
    ensures k + 1 < |tries| ==> AsTry(tries[k].fact).Again?
  {
    assert TryAt(tries, k, name, policy);
    if k > 0 {
      assert TryAt(tries, k - 1, name, policy);
    }
  }

  lemma {:induction false} AttemptWithin(p: Program, journal: Log, F: seq<Outcome>, i: nat)
    requires JournalOk(p, journal, F) && IsPath(p.body, F, 0) && i < |journal| && IsAttempt(journal[i].fact)
    ensures var e := journal[i];
            && e.opId >= 0 && RequestedAt(p.body, F, e.opId).Some?
            && PolicyFor(RequestedAt(p.body, F, e.opId).value, IsTry(e.fact, true)).Some?
            && var max := PolicyAt(p.body, F, e).maxAttempts;
               1 <= AttemptOf(e.fact) <= if max < 1 then 1 else max
    ensures |At(journal[..i], LaneOf(journal[i]))| + 1 < |At(journal, LaneOf(journal[i]))| ==> AsTry(journal[i].fact).Again?
  {
    hide IsPath, At, RequestedAt, Comps, UndoShape, Shape, RunOk, EndOk, PastOk, FrontOk, UndoOk, Tries;
    var e := journal[i];
    AttemptPlace(p, journal, F, i);
    PlaceInLane(journal, i);
    var lane, k := At(journal, LaneOf(e)), |At(journal[..i], LaneOf(e))|;
    if IsTry(e.fact, true) {
      var c := UndoLaneOwner(p, journal, F, e.opId);
      CompIsRequested(p, F, c);
      UndoTries(c.undo, lane);
      TryWithin(lane, k, c.undo.name, c.undo.policy);
    } else {
      var op := RequestedAt(p.body, F, e.opId).value;
      LaneIsRequested(p, journal, F, e.opId);
      StepNumbers(op, lane, k);
      StepTries(op, lane);
      assert AttemptOf(e.fact) == k > 0 by { AttemptIsPositive(op, lane, k); }
      assert lane[1..][k - 1] == lane[k];
      TryWithin(lane[1..], k - 1, op.name, op.policy);
    }
  }

  lemma {:induction false} UndoTries(undo: Undo, lane: seq<Entry>)
    requires UndoShape(undo, lane)
    ensures Tries(lane, undo.name, undo.policy)
  {
  }

  lemma {:induction false} StepTries(op: Op, lane: seq<Entry>)
    requires op.Step? && Shape(op, lane) && lane != []
    ensures Tries(lane[1..], op.name, op.policy)
  {
  }

  lemma {:induction false} AttemptIsPositive(op: Op, lane: seq<Entry>, k: nat)
    requires op.Step? && Shape(op, lane) && k < |lane| && IsTry(lane[k].fact, false)
    ensures k > 0
  {
  }

  /** What decides whether there is another attempt. */
  ghost predicate Decided(policy: RetryPolicy, c: Call, fact: Fact) {
    match AsTry(fact)
    case Again(_, attempt, _) => c.reply.Failure? && !IsFinal(policy, c.reply.exc) && attempt < policy.maxAttempts
    case Over(_, attempts) =>
      if fact.StepCompleted? || fact.CompCompleted? then c.reply.Success?
      else
        && c.reply.Failure?
        && (IsFinal(policy, c.reply.exc) || attempts == if policy.maxAttempts < 1 then 1 else policy.maxAttempts)
    case NotATry => false
  }

  /** The call is the attempt the event stands for, and decides what the event says. */
  ghost predicate StandsDecided(p: Program, F: seq<Outcome>, c: Call, e: Event)
    requires IsPath(p.body, F, 0)
  {
    Stands(p, F, c, e) && Decided(PolicyAt(p.body, F, e), c, e.fact)
  }

  /** The call failed with an error of no final class. */
  ghost predicate GoesOn(p: Program, F: seq<Outcome>, c: Call, e: Event)
    requires IsPath(p.body, F, 0)
  {
    Stands(p, F, c, e) && c.reply.Failure? && !IsFinal(PolicyAt(p.body, F, e), c.reply.exc)
  }

  lemma {:induction false} DecidedToGoOn(policy: RetryPolicy, c: Call, fact: Fact)
    requires Decided(policy, c, fact) && AsTry(fact).Again?
    ensures c.reply.Failure? && !IsFinal(policy, c.reply.exc)
  {
    hide IsFinal;
  }

  /** The attempts of steps and compensations against the replies they got: a step or compensation that failed
      for good had used up its attempts exactly, or its last reply was an error of a final class; none gave up
      sooner, and no attempt follows a reply of such a class. */
  lemma {:induction false} NobodyGivesUpEarly(p: Program, s: State)
    returns (F: seq<Outcome>, call: map<nat, nat>)
    requires Reachable(p, s)
    ensures F == Replay(p.body, s.d.journal, []) && IsPath(p.body, F, 0)
    ensures forall i: nat :: i in call <==> i < |s.d.journal| && IsAttempt(s.d.journal[i].fact)
    ensures forall i :: i in call ==>
              call[i] < |s.d.calls| && StandsDecided(p, F, s.d.calls[call[i]], s.d.journal[i])
    ensures forall i, j :: i in call && j in call && i < j && LaneOf(s.d.journal[i]) == LaneOf(s.d.journal[j]) ==>
              GoesOn(p, F, s.d.calls[call[i]], s.d.journal[i])
  {
    hide Reachable, Replay, IsPath, JournalOk, AllBacked, RequestedAt, PolicyFor, At, LaneOf, Reports, IsFinal, Decided;
    F := ReachableIsBacked(p, s);
    call := AttemptsWereMade(p, s);
    forall i | i in call
      ensures StandsDecided(p, F, s.d.calls[call[i]], s.d.journal[i])
    {
      AttemptWithin(p, s.d.journal, F, i);
      ReportDecides(PolicyAt(p.body, F, s.d.journal[i]), s.d.calls[call[i]], s.d.journal[i].fact);
    }
    forall i, j | i in call && j in call && i < j && LaneOf(s.d.journal[i]) == LaneOf(s.d.journal[j])
      ensures GoesOn(p, F, s.d.calls[call[i]], s.d.journal[i])
    {
      AttemptWithin(p, s.d.journal, F, i);
      PlaceInLane(s.d.journal, j);
      PlacesDiffer(s.d.journal, i, j);
      DecidedToGoOn(PolicyAt(p.body, F, s.d.journal[i]), s.d.calls[call[i]], s.d.journal[i].fact);
    }
  }

  lemma {:induction false} ReportDecides(policy: RetryPolicy, c: Call, fact: Fact)
    requires Reports(policy, c, fact) && 1 <= AttemptOf(fact) <= if policy.maxAttempts < 1 then 1 else policy.maxAttempts
    ensures Decided(policy, c, fact)
  {
    hide IsFinal;
  }

  lemma {:induction false} ReachableIsBacked(p: Program, s: State)
    returns (F: seq<Outcome>)
    requires Reachable(p, s)
    ensures F == Replay(p.body, s.d.journal, []) && IsPath(p.body, F, 0) && JournalOk(p, s.d.journal, F)
    ensures AllBacked(p, s, F)
  {
    hide Origin, Play, RunInv, AllBacked, Replay, IsPath, JournalOk;
    var life, turns :| Origin(p, life).Some? && Play(p, Origin(p, life).value, turns) == Some(s);
    var start := OriginIsBacked(p, life);
    F := PlayIsBacked(p, Origin(p, life).value, start, turns, s);
    RunInvJournal(p, s, F);
    IsPathOf(p, s, F);
    ReplayReachesFrontier(p, s.d.journal, F, []) by { EmptyPath(p.body); }
  }

  lemma {:induction false} CallsStanding(p: Program, s: State, F: seq<Outcome>, n: nat)
    returns (call: map<nat, nat>)
    requires JournalOk(p, s.d.journal, F) && AllBacked(p, s, F) && n <= |s.d.journal|
    ensures forall i: nat :: i in call <==> i < n && IsAttempt(s.d.journal[i].fact)
    ensures forall i :: i in call ==> call[i] < |s.d.calls| && Stands(p, F, s.d.calls[call[i]], s.d.journal[i])
  {
    hide JournalOk, TriesBacked, ChildrenBacked, Stands, IsAttempt, IsPath;
    if n == 0 {
      call := map[];
    } else {
      call := CallsStanding(p, s, F, n - 1);
      if IsAttempt(s.d.journal[n - 1].fact) {
        var k := AttemptStands(p, s, F, n - 1);
        call := call[n - 1 := k];
      }
    }
  }

  /** Each child outcome in the journal is an answer of the very run that the operation's CHILD_SCHEDULED
      names, and an operation has at most one. */
  lemma {:induction false} ChildOutcomesWereGiven(p: Program, s: State, i: nat)
    requires Reachable(p, s) && i < |s.d.journal| && IsChildOutcome(s.d.journal[i].fact)
    ensures var e := s.d.journal[i];
            && e.opId >= 0
            && var scheduled := Find(s.d.journal, CHILD_SCHEDULED, e.opId);
            && scheduled.Some? && scheduled.value.fact.ChildScheduled? && scheduled.value.fact.childRunId == e.fact.childRunId
            && (exists k :: 0 <= k < |s.d.answers| && Tells(s.d.answers[k], e.opId, e.fact))
            && (forall j :: 0 <= j < |s.d.journal| && IsChildOutcome(s.d.journal[j].fact) && s.d.journal[j].opId == e.opId ==>
                  i == j)
  {
    hide Reachable, Replay, IsPath, JournalOk, TriesBacked, At, RequestedAt, LaneOf, Shape, Tells, Find;
    var F := ReachableIsBacked(p, s);
    var e := s.d.journal[i];
    ChildPlace(p, s.d.journal, F, i);
    PlaceInLane(s.d.journal, i);
    RunPart(p, s.d.journal, F);
    FindInLane(s.d.journal, CHILD_SCHEDULED, e.opId);
    forall j | 0 <= j < |s.d.journal| && IsChildOutcome(s.d.journal[j].fact) && s.d.journal[j].opId == e.opId
      ensures i == j
    {
      ChildPlace(p, s.d.journal, F, j);
      if i < j { PlacesDiffer(s.d.journal, i, j); }
      if j < i { PlacesDiffer(s.d.journal, j, i); }
    }
  }

  lemma {:induction false} ChildPlace(p: Program, journal: Log, F: seq<Outcome>, i: nat)
    requires JournalOk(p, journal, F) && IsPath(p.body, F, 0) && i < |journal| && IsChildOutcome(journal[i].fact)
    ensures journal[i].opId >= 0 && LaneOf(journal[i]) == OpLane(journal[i].opId)
    ensures |At(journal[..i], LaneOf(journal[i]))| == 1
    ensures var scheduled := First(At(journal, OpLane(journal[i].opId)), CHILD_SCHEDULED);
            && scheduled.Some? && scheduled.value.fact.ChildScheduled?
            && scheduled.value.fact.childRunId == journal[i].fact.childRunId
  {
    hide IsPath, At, RequestedAt, UndoOk, EndOk, PastOk, FrontOk;
    PlaceInLane(journal, i);
    LaneIsRequested(p, journal, F, journal[i].opId);
    ChildIsSecond(RequestedAt(p.body, F, journal[i].opId).value, At(journal, LaneOf(journal[i])),
                  |At(journal[..i], LaneOf(journal[i]))|);
  }

  lemma {:induction false} ChildIsSecond(op: Op, lane: seq<Entry>, k: nat)
    requires Shape(op, lane) && k < |lane| && IsChildOutcome(lane[k].fact)
    ensures k == 1 && First(lane, CHILD_SCHEDULED) == Some(lane[0]) && lane[0].fact.ChildScheduled?
    ensures lane[0].fact.childRunId == lane[1].fact.childRunId
  {
    if op.Step? {
      StepHasNoChild(op, lane, k);
    }
  }

  lemma {:induction false} StepHasNoChild(op: Op, lane: seq<Entry>, k: nat)
    requires op.Step? && Shape(op, lane) && k < |lane|
    ensures !IsChildOutcome(lane[k].fact)
  {
    if k > 0 {
      assert lane[1..][k - 1] == lane[k];
    }
  }
}
