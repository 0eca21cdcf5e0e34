/** The states a run can be in: any schedule of crashes, resumes, deliveries, interleavings and
    rewinds from its creation on, and takeovers of rewound runs by changed code. */
module Reachability {
  import opened Wrappers
  import opened Events
  import opened Engine
  import opened Paths
  import opened Invariant
  import opened Preservation
  import opened Endings
  import opened Rewind
  import opened Signals
  import opened Patching
  import opened Replays

  datatype Turn = Work(act: Act) | Rewinding(toOp: Option<nat>, force: bool, now: Time)

  /** Where rewinds are sound: no two waits compete for a name, and no successor was created. */
  ghost predicate CanRewind(p: Program, s: State) {
    OrderlyWaits(p) && s.d.successor.None?
  }

  /** A rewind stops the driver first; a refused one changes nothing. */
  ghost function Take(p: Program, s: State, turn: Turn): Option<State> {
    match turn
    case Work(act) => Next(p, s, act)
    case Rewinding(toOp, force, now) =>
      if !CanRewind(p, s) then None
      else
        var d := ResetRun(s.d, toOp, force, now);
        if d.None? then Some(s) else Some(State(d.value, None))
  }

  ghost function Play(p: Program, s: State, turns: seq<Turn>): Option<State>
    decreases |turns|
  {
    if turns == [] then Some(s)
    else
      var s' := Take(p, s, turns[0]);
      if s'.None? then None else Play(p, s'.value, turns[1..])
  }

  function Target(journal: Log, toOp: Option<nat>): nat {
    if toOp.Some? then toOp.value else FirstFailure(journal)
  }

  /** A rewind after which changed code takes the run over: below the target it agrees with the old code on
      the history the run recorded. */
  ghost function Takeover(p: Program, q: Program, s: State, toOp: Option<nat>, force: bool, now: Time): Option<State> {
    var d := ResetRun(s.d, toOp, force, now);
    if CanRewind(p, s) && d.Some? && OnlyBodyDiffers(p, q) &&
       AgreeAlong(p.body, q.body, Replay(p.body, s.d.journal, []), Target(s.d.journal, toOp))
    then Some(State(d.value, None)) else None
  }

  /** How a run came to be driven by its present code: created with it, or taken over from older code. */
  datatype Life = Born | Patched(before: Life, past: Program, turns: seq<Turn>, toOp: Option<nat>, force: bool, now: Time)

  /** The state the present code started from. */
  ghost function Origin(p: Program, life: Life): Option<State>
    decreases life
  {
    match life
    case Born => Some(Initial(p))
    case Patched(before, past, turns, toOp, force, now) =>
      var start := Origin(past, before);
      if start.None? then None
      else
        var s := Play(past, start.value, turns);
        if s.None? then None else Takeover(past, p, s.value, toOp, force, now)
  }

  ghost predicate Reachable(p: Program, s: State) {
    exists life, turns :: Origin(p, life).Some? && Play(p, Origin(p, life).value, turns) == Some(s)
  }

  ghost predicate RunInv(p: Program, s: State, F: seq<Outcome>) {
    InvAt(p, s, F) && (OrderlyWaits(p) ==> SignalOrder(s.d.journal))
  }

  lemma {:induction false} TakeKeeps(p: Program, s: State, F: seq<Outcome>, turn: Turn, s': State)
    returns (G: seq<Outcome>)
    requires RunInv(p, s, F) && Take(p, s, turn) == Some(s')
    ensures RunInv(p, s', G) && (F <= G || G <= F)
  {
    hide JournalOk, SignalsOk, RecordOk, SuccessorOk, DriverOk, Next, SignalOrder, OrderlyWaits, Reset, Cut;
    match turn
    case Work(act) =>
      G := NextKeeps(p, s, F, act, s');
      if OrderlyWaits(p) { NextKeepsOrder(p, s, F, act, s'); }
    case Rewinding(toOp, force, now) =>
      var target := Target(s.d.journal, toOp);
      PathOf(p, s.d.journal, F);
      ResetKeepsInvariant(p, s.d, F, target, now);
      G := if s' == s then F else F[..Cut(p.body, F, 0, target)];
  }

  lemma {:induction false} PlayKeeps(p: Program, s: State, F: seq<Outcome>, turns: seq<Turn>, s': State)
    returns (G: seq<Outcome>)
    requires RunInv(p, s, F) && Play(p, s, turns) == Some(s')
    ensures RunInv(p, s', G)
    decreases |turns|
  {
    hide RunInv, Take;
    G := F;
    if turns != [] {
      var mid := Take(p, s, turns[0]).value;
      var H := TakeKeeps(p, s, F, turns[0], mid);
      G := PlayKeeps(p, mid, H, turns[1..], s');
    }
  }

  lemma {:induction false} InitialIsRunInv(p: Program)
    ensures RunInv(p, Initial(p), [])
  {
    hide InvAt;
    InitialIsGood(p);
  }

  lemma {:induction false} FrontierIsReplay(p: Program, s: State, F: seq<Outcome>)
    requires RunInv(p, s, F)
    ensures Replay(p.body, s.d.journal, []) == F
  {
    hide JournalOk, Replay;
    EmptyPath(p.body);
    ReplayReachesFrontier(p, s.d.journal, F, []);
  }

  /** Changed code takes over with the whole invariant in place. */
  lemma {:induction false} TakeoverKeeps(p: Program, q: Program, s: State, F: seq<Outcome>, toOp: Option<nat>,
      force: bool, now: Time)
    requires RunInv(p, s, F) && IsPath(p.body, F, 0) && Takeover(p, q, s, toOp, force, now).Some?
    ensures RunInv(q, Takeover(p, q, s, toOp, force, now).value, F[..Cut(p.body, F, 0, Target(s.d.journal, toOp))])
  {
    hide JournalOk, SignalsOk, RecordOk, SuccessorOk, DriverOk, SignalOrder, OrderlyWaits, Reset, Cut, AgreeAlong,
        IsPath, FirstFailure, Replay;
    FrontierIsReplay(p, s, F);
    ResetServesBoth(p, q, s.d, F, Target(s.d.journal, toOp), now);
  }

  lemma {:induction false} OriginIsRunInv(p: Program, life: Life)
    returns (F: seq<Outcome>)
    requires Origin(p, life).Some?
    ensures RunInv(p, Origin(p, life).value, F)
    decreases life
  {
    hide RunInv, Play, Takeover, Cut, IsPath;
    match life
    case Born =>
      InitialIsRunInv(p);
      F := [];
    case Patched(before, past, turns, toOp, force, now) =>
      var start := OriginIsRunInv(past, before);
      var s := Play(past, Origin(past, before).value, turns).value;
      var G := PlayKeeps(past, Origin(past, before).value, start, turns, s);
      IsPathOf(past, s, G);
      TakeoverKeeps(past, p, s, G, toOp, force, now);
      F := G[..Cut(past.body, G, 0, Target(s.d.journal, toOp))];
  }

  lemma {:induction false} IsPathOf(p: Program, s: State, F: seq<Outcome>)
    requires RunInv(p, s, F)
    ensures IsPath(p.body, F, 0)
  {
    hide JournalOk;
    PathOf(p, s.d.journal, F);
  }

  /** Every reachable state satisfies the invariant. */
  lemma {:induction false} ReachableIsRunInv(p: Program, s: State)
    returns (F: seq<Outcome>)
    requires Reachable(p, s)
    ensures RunInv(p, s, F)
  {
    hide Origin, Play, RunInv;
    var life, turns :| Origin(p, life).Some? && Play(p, Origin(p, life).value, turns) == Some(s);
    var start := OriginIsRunInv(p, life);
    F := PlayKeeps(p, Origin(p, life).value, start, turns, s);
  }

  /** More acts from a reachable state reach only reachable states. */
  lemma {:induction false} PlayThenExec(p: Program, s: State, turns: seq<Turn>, mid: State, acts: seq<Act>, s': State)
    requires Play(p, s, turns) == Some(mid) && Exec(p, mid, acts) == Some(s')
    ensures exists more :: Play(p, s, more) == Some(s')
    decreases |turns|, |acts|
  {
    hide Next, CanRewind;
    if turns != [] {
      var next := Take(p, s, turns[0]).value;
      PlayThenExec(p, next, turns[1..], mid, acts, s');
      var more :| Play(p, next, more) == Some(s');
      assert ([turns[0]] + more)[1..] == more;
      assert Play(p, s, [turns[0]] + more) == Some(s');
    } else if acts != [] {
      var next := Next(p, s, acts[0]).value;
      assert Play(p, next, []) == Some(next);
      PlayThenExec(p, next, [], next, acts[1..], s');
      var more :| Play(p, next, more) == Some(s');
      assert ([Work(acts[0])] + more)[1..] == more;
      assert Play(p, s, [Work(acts[0])] + more) == Some(s');
    } else {
      assert Play(p, s, []) == Some(s');
    }
  }

  lemma {:induction false} StaysReachable(p: Program, s: State, acts: seq<Act>, s': State)
    requires Reachable(p, s) && Exec(p, s, acts) == Some(s')
    ensures Reachable(p, s')
  {
    hide Exec, Play, Origin;
    var life, turns :| Origin(p, life).Some? && Play(p, Origin(p, life).value, turns) == Some(s);
    PlayThenExec(p, Origin(p, life).value, turns, s, acts, s');
  }

  /** Signals are consumed exactly once and first in, first out, across crashes, rewinds and changes of
      code; where no two waits compete for a name, as in every body without gather, later operations
      have the later signals. */
  lemma {:induction false} SignalsAreConsumedInOrder(p: Program, s: State)
    requires Reachable(p, s)
    ensures SignalsOk(s.d)
    ensures OrderlyWaits(p) || Sequential(p) ==> SignalOrder(s.d.journal)
  {
    hide Reachable, SignalsOk, SignalOrder, OrderlyWaits, Sequential;
    if Sequential(p) {
      SequentialIsOrderly(p);
    }
    var F := ReachableIsRunInv(p, s);
  }

  /** A run that continues as new, stopped between the creation of its successor and the write of its
      own record: a rewind is not refused, and leaves the successor behind. */
  lemma {:induction false} RewindMissesASuccessor(p: Program, args: Json)
    returns (s: State)
    requires p.body([]) == ContinueAsNew(args)
    ensures Reachable(p, s) && s.d.record.Running? && s.d.successor == Some(args)
    ensures var d := ResetRun(s.d, None, false, 0.0);
            d.Some? && d.value.successor == Some(args) && !Logged(d.value.journal, RUN_CONTINUED)
  {
    hide Play, Exec, InvAt, Rewound, FirstFailure, Logged;
    var acts;
    acts, s := ContinuesAndStops(p, args);
    assert Reachable(p, Initial(p)) by { Rests(p); }
    StaysReachable(p, Initial(p), acts, s);
    InitialIsGood(p);
    var F := ExecKeeps(p, Initial(p), [], acts, s);
    JournalPart(p, s, F);
    NothingTerminal(p, s.d.journal, F, FirstFailure(s.d.journal), 0.0);
  }

  lemma {:induction false} Rests(p: Program)
    ensures Reachable(p, Initial(p))
  {
    assert Origin(p, Born) == Some(Initial(p)) && Play(p, Initial(p), []) == Some(Initial(p));
  }

  lemma {:induction false} ContinuesAndStops(p: Program, args: Json)
    returns (acts: seq<Act>, s: State)
    requires p.body([]) == ContinueAsNew(args)
    ensures Exec(p, Initial(p), acts) == Some(s)
    ensures s.d.record.Running? && s.d.successor == Some(args) && !AlreadyCompensated(s.d.journal)
  {
    var s1 := State(Initial(p).d, Some(Driver([], {}, [])));
    var s2 := State(Append(s1.d, -1, RunStarted(p.tags), 0.0), s1.v);
    var s3 := State(Append(s2.d, -1, RunContinued(p.nextRunId, args), 0.0), s2.v);
    s := State(s3.d.(successor := Some(args)), s3.v);
    ContinuingLanes(p, args, s2.d.journal, s3.d.journal);
    StepsTo(p, s1, s2, s3, s, args);
    hide Next;
    acts := [Boot, Start(0.0), Conclude(0.0), Conclude(0.0)];
    assert acts[1..][1..][1..] == [Conclude(0.0)];
    assert acts[1..][1..][1..][1..] == [];
    assert Exec(p, s3, acts[1..][1..][1..]) == Some(s);
    assert Exec(p, s2, acts[1..][1..]) == Some(s);
  }

  lemma {:induction false} ContinuingLanes(p: Program, args: Json, one: Log, two: Log)
    requires one == [] + [Event(0, -1, RunStarted(p.tags), 0.0)]
    requires two == one + [Event(1, -1, RunContinued(p.nextRunId, args), 0.0)]
    ensures At(one, RunLane) == [Entry(RunStarted(p.tags), 0.0)]
    ensures At(two, RunLane) == [Entry(RunStarted(p.tags), 0.0), Entry(RunContinued(p.nextRunId, args), 0.0)]
  {
    AtAppend([], Event(0, -1, RunStarted(p.tags), 0.0));
    AtAppend(one, Event(1, -1, RunContinued(p.nextRunId, args), 0.0));
  }

  lemma {:induction false} StepsTo(p: Program, s1: State, s2: State, s3: State, s4: State, args: Json)
    requires p.body([]) == ContinueAsNew(args)
    requires s1 == State(Initial(p).d, Some(Driver([], {}, [])))
    requires s2 == State(Append(s1.d, -1, RunStarted(p.tags), 0.0), s1.v)
    requires s3 == State(Append(s2.d, -1, RunContinued(p.nextRunId, args), 0.0), s2.v)
    requires s4 == State(s3.d.(successor := Some(args)), s3.v)
    requires At(s2.d.journal, RunLane) == [Entry(RunStarted(p.tags), 0.0)]
    requires At(s3.d.journal, RunLane) == [Entry(RunStarted(p.tags), 0.0), Entry(RunContinued(p.nextRunId, args), 0.0)]
    ensures Next(p, Initial(p), Boot) == Some(s1) && Next(p, s1, Start(0.0)) == Some(s2)
    ensures Next(p, s2, Conclude(0.0)) == Some(s3) && Next(p, s3, Conclude(0.0)) == Some(s4)
  {
    var run := At(s3.d.journal, RunLane);
    FirstTwo(run);
  }

  lemma {:induction false} FirstTwo(run: seq<Entry>)
    requires |run| == 2 && run[0].fact.RunStarted? && run[1].fact.RunContinued?
    ensures First(run, RUN_STARTED).Some? && First(run, RUN_CONTINUED).Some?
    ensures First([run[0]], RUN_STARTED).Some? && First([run[0]], RUN_CONTINUED).None?
  {
    assert run[1..][0] == run[1];
  }
}
