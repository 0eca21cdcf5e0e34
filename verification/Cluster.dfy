/** Several workers driving one run at once: the lease protocol and the engine together. Each driver acts on
    the journal it loaded and extended itself; the store accepts its appends or refuses them. */
module Clusters {
  import opened Wrappers
  import opened Events
  import opened Engine
  import opened Paths
  import opened Invariant
  import opened Preservation
  import opened Endings
  import opened Reachability
  import opened Replays
  import opened CrashSafety
  import opened Effects
  import Workers

  /** The protocol's state, what is durable, and the volatile part of each running driver. */
  datatype Cluster = Cluster(w: Workers.State, d: Durable, minds: map<(nat, nat), Driver>)

  /** What a driver whose append was refused leaves behind besides: its body may catch the store's error
      and go on for a while. */
  datatype Stray = Stray(calls: seq<Call>, answers: seq<Answer>, tags: map<string, string>)

  datatype Deed =
    | Manage(act: Workers.Act)
    | Post(name: string, payload: Json)
    | Drive(w: nat, i: nat, doing: Act, stray: Stray)

  predicate Runs(w: Workers.State, key: (nat, nat)) {
    Workers.HasDriver(w, key.0, key.1) && w.workers[key.0].drivers[key.1].phase.Running?
  }

  /** The journal a driver has in memory. */
  function View(w: Workers.State, key: (nat, nat)): Log
    requires Runs(w, key)
  {
    w.workers[key.0].drivers[key.1].view
  }

  function Keep(minds: map<(nat, nat), Driver>, w: Workers.State): map<(nat, nat), Driver> {
    map key | key in minds && Runs(w, key) :: minds[key]
  }

  /** The run as a driver sees it. */
  function Seen(c: Cluster, key: (nat, nat)): State
    requires Runs(c.w, key) && key in c.minds
  {
    State(c.d.(journal := View(c.w, key)), Some(c.minds[key]))
  }

  /** A driver that is over: its process died, or its task ended. */
  function Stopped(c: Cluster, key: (nat, nat), died: bool, d: Durable, ttl: Time): Cluster
    requires Runs(c.w, key)
  {
    var w := Workers.Next(c.w, if died then Workers.Crash(key.0) else Workers.Finish(key.0, key.1), ttl).value;
    Cluster(w, d, Keep(c.minds, w))
  }

  /** What a refused driver did, and what it still does, outside the journal. */
  function Adrift(d: Durable, done: Durable, stray: Stray): Durable {
    d.(calls := done.calls + stray.calls, answers := done.answers + stray.answers, tags := stray.tags)
  }

  /** What becomes of the cluster when a driver does what the engine says: an event goes to the store
      under the driver's own next sequence number. */
  function Driven(c: Cluster, key: (nat, nat), s': State, died: bool, stray: Stray, ttl: Time): Cluster
    requires Runs(c.w, key) && key in c.minds
  {
    var view := View(c.w, key);
    if |s'.d.journal| <= |view| then
      var d := s'.d.(journal := c.d.journal);
      if s'.v.Some? then Cluster(c.w, d, c.minds[key := s'.v.value]) else Stopped(c, key, died, d, ttl)
    else
      var e := s'.d.journal[|view|];
      var w := Workers.Next(c.w, Workers.Append(key.0, key.1, e.opId, e.fact, e.ts), ttl).value;
      if |w.log| > |c.w.log| && s'.v.Some? then Cluster(w, s'.d, c.minds[key := s'.v.value])
      else Stopped(c, key, false, Adrift(c.d, s'.d, stray), ttl)
  }

  function Step(p: Program, c: Cluster, deed: Deed, ttl: Time): Option<Cluster> {
    match deed
    case Manage(act) =>
      var w := Workers.Next(c.w, act, ttl);
      if act.Append? || w.None? then None
      else
        var kept := Keep(c.minds, w.value);
        Some(Cluster(w.value, c.d,
                     if act.Spawned? then kept[(act.w, |c.w.workers[act.w].drivers|) := Driver([], {}, [])] else kept))
    case Post(name, payload) => Some(c.(d := c.d.(inbox := c.d.inbox + [Signal(name, payload, false)])))
    case Drive(w, i, act, stray) =>
      if (w, i) !in c.minds || !Runs(c.w, (w, i)) || act.Boot? || act.Crash? || act.Deliver? then None
      else
        var s' := Next(p, Seen(c, (w, i)), act);
        if s'.None? then None else Some(Driven(c, (w, i), s'.value, IsLost(act), stray, ttl))
  }

  function Run(p: Program, c: Cluster, deeds: seq<Deed>, ttl: Time): Option<Cluster>
    decreases |deeds|
  {
    if deeds == [] then Some(c)
    else
      var c' := Step(p, c, deeds[0], ttl);
      if c'.None? then None else Run(p, c'.value, deeds[1..], ttl)
  }

  /** A run at rest, and no worker that knows of it. */
  function AtRest(d: Durable, now: Time): Cluster {
    Cluster(Workers.State(d.journal, None, now, map[]), d, map[])
  }

  // ---- whatever the clocks do ----

  ghost predicate Ended(journal: Log) {
    exists x :: x in At(journal, RunLane) && x.fact.Kind() in TERMINAL_RUN_KINDS
  }

  /** A view is an earlier stage of the stored journal; one that holds a terminal event is all of it. */
  ghost predicate ViewOk(p: Program, view: Log, log: Log) {
    view <= log && JournalOk(p, view, Replay(p.body, view, [])) && (Ended(view) ==> view == log)
  }

  ghost predicate MindOk(p: Program, view: Log, mind: Driver) {
    DriverOk(p, view, Replay(p.body, view, []), mind)
  }

  ghost predicate DriversOk(p: Program, c: Cluster) {
    forall key :: key in c.minds ==>
      Runs(c.w, key) && ViewOk(p, View(c.w, key), c.w.log) && MindOk(p, View(c.w, key), c.minds[key])
  }

  /** The journal a worker has loaded for a driver it is about to start. */
  ghost predicate SpawnsOk(p: Program, w: Workers.State) {
    forall k :: k in w.workers && w.workers[k].spawn.Some? && w.workers[k].spawn.value.Ready? ==>
      ViewOk(p, w.workers[k].spawn.value.view, w.log)
  }

  ghost predicate ClusterOk(p: Program, c: Cluster) {
    && Workers.Safe(c.w) && c.w.log == c.d.journal
    && Good(p, c.d, Replay(p.body, c.d.journal, []))
    && SpawnsOk(p, c.w) && DriversOk(p, c)
  }

  lemma {:induction false} GoodMeansReplayed(p: Program, d: Durable, F: seq<Outcome>)
    requires Good(p, d, F)
    ensures F == Replay(p.body, d.journal, []) && JournalOk(p, d.journal, F)
  {
    hide JournalOk, Replay;
    assert IsPath(p.body, [], 0);
    ReplayReachesFrontier(p, d.journal, F, []);
  }

  lemma {:induction false} WholeViewIsOk(p: Program, d: Durable)
    requires Good(p, d, Replay(p.body, d.journal, []))
    ensures ViewOk(p, d.journal, d.journal)
  {
    hide JournalOk, Replay, Ended;
  }

  lemma {:induction false} EndedGrows(a: Log, b: Log)
    requires a <= b
    ensures Ended(a) ==> Ended(b)
  {
    assert b == a + b[|a|..];
    AtConcat(a, b[|a|..], RunLane);
    assert forall x :: x in At(a, RunLane) ==> x in At(b, RunLane);
  }

  /** An event is appended only to a journal without a terminal event. */
  lemma {:induction false} AppendMeansOpen(p: Program, s: State, F: seq<Outcome>, act: Act, s': State)
    requires InvAt(p, s, F) && Next(p, s, act) == Some(s') && s'.d.journal != s.d.journal
    ensures !Ended(s.d.journal) && s'.v == s.v && s'.v.Some?
    ensures |s'.d.journal| == |s.d.journal| + 1 && s'.d.journal[..|s.d.journal|] == s.d.journal
  {
    hide InvAt, Next, Ended;
    StepOnlyGrows(p, s, act, s');
    if act.Live? {
      LiveMeansOpen(p, s, F, act, s');
    } else {
      OtherMeansOpen(p, s, F, act, s');
    }
  }

  lemma {:induction false} LiveMeansOpen(p: Program, s: State, F: seq<Outcome>, act: Act, s': State)
    requires InvAt(p, s, F) && act.Live? && Next(p, s, act) == Some(s') && s'.d.journal != s.d.journal
    ensures !Ended(s.d.journal) && s'.v == s.v && s'.v.Some?
  {
    hide Recorded, Diverges, Opening, Progress, Definition, Invocation, Awaited, HasStarted, Good, DriverOk, At, JournalOk;
    JournalPart(p, s, F);
    LiveMeansFrontier(p, s.d.journal, F, s.v.value, act.index);
    AwaitingIsOpen(p, s.d.journal, F);
  }

  lemma {:induction false} OtherMeansOpen(p: Program, s: State, F: seq<Outcome>, act: Act, s': State)
    requires InvAt(p, s, F) && !act.Live? && Next(p, s, act) == Some(s') && s'.d.journal != s.d.journal
    ensures !Ended(s.d.journal) && s'.v == s.v && s'.v.Some?
  {
    hide UndoProgress, HasStarted, Good, DriverOk, At, FailuresOf, NextUndo, First, Comps, Settled, AllRecorded, JournalOk;
    JournalPart(p, s, F);
    match act {
      case Start(_) => NotStartedIsEmpty(p, s.d.journal, F);
      case Compensate(_, _) =>
        DoneMeansFrontier(p, s.d.journal, F, s.v.value);
        UnsettledIsOpen(p, s.d, F, NextUndo(s.v.value.stack, s.d.journal).value);
      case Conclude(_) =>
        DoneMeansFrontier(p, s.d.journal, F, s.v.value);
        OpenUntilOwnKind(p, s.d, F, match p.body(F) case Return(_) => RUN_COMPLETED case Raise(_) => RUN_FAILED
                                    case _ => RUN_CONTINUED);
      case _ =>
    }
  }

  // ---- the protocol's own acts ----

  /** Managing acts leave the stored journal and the running drivers' views alone; only a spawn adds a driver. */
  lemma {:induction false} ManagedViews(w: Workers.State, act: Workers.Act, ttl: Time, w': Workers.State, key: (nat, nat))
    requires Workers.Next(w, act, ttl) == Some(w') && !act.Append? && Runs(w', key)
    ensures w'.log == w.log
    ensures Runs(w, key) ==> View(w', key) == View(w, key)
    ensures !Runs(w, key) ==>
              && act.Spawned? && act.w in w.workers && key == (act.w, |w.workers[act.w].drivers|)
              && w.workers[act.w].spawn.Some? && w.workers[act.w].spawn.value.Ready?
              && View(w', key) == w.workers[act.w].spawn.value.view
  {
  }

  lemma {:induction false} ManagedSpawns(p: Program, w: Workers.State, act: Workers.Act, ttl: Time, w': Workers.State)
    requires Workers.Next(w, act, ttl) == Some(w') && !act.Append? && SpawnsOk(p, w) && ViewOk(p, w.log, w.log)
    ensures SpawnsOk(p, w') && w'.log == w.log
  {
    hide ViewOk;
  }

  lemma {:induction false} ManageKeeps(p: Program, c: Cluster, act: Workers.Act, ttl: Time, c': Cluster)
    requires ClusterOk(p, c) && Step(p, c, Manage(act), ttl) == Some(c')
    ensures ClusterOk(p, c')
  {
    hide Workers.Next, Workers.Safe, Good, ViewOk, DriverOk, Replay, JournalOk, Runs, SpawnsOk;
    var w' := Workers.Next(c.w, act, ttl).value;
    Workers.NextIsSafe(c.w, act, ttl, w');
    WholeViewIsOk(p, c.d);
    ManagedSpawns(p, c.w, act, ttl, w');
    if act.Spawned? {
      SpawnedRuns(c.w, act.w, ttl, w');
    }
    forall key | key in c'.minds
      ensures Runs(c'.w, key) && ViewOk(p, View(c'.w, key), c'.w.log) && MindOk(p, View(c'.w, key), c'.minds[key])
    {
      if act.Spawned? && key == (act.w, |c.w.workers[act.w].drivers|) {
        assert ViewOk(p, c.w.workers[act.w].spawn.value.view, c.w.log) by { SpawnView(p, c.w, act.w); }
        BootedDriver(p, View(w', key), Replay(p.body, View(w', key), []));
      } else {
        ManagedViews(c.w, act, ttl, w', key);
      }
    }
  }

  lemma {:induction false} SpawnView(p: Program, w: Workers.State, k: nat)
    requires SpawnsOk(p, w) && k in w.workers && w.workers[k].spawn.Some? && w.workers[k].spawn.value.Ready?
    ensures ViewOk(p, w.workers[k].spawn.value.view, w.log)
  {
  }

  lemma {:induction false} SpawnedRuns(w: Workers.State, k: nat, ttl: Time, w': Workers.State)
    requires Workers.Next(w, Workers.Spawned(k), ttl) == Some(w')
    ensures k in w.workers && w.workers[k].spawn.Some? && w.workers[k].spawn.value.Ready? && w'.log == w.log
    ensures Runs(w', (k, |w.workers[k].drivers|)) && View(w', (k, |w.workers[k].drivers|)) == w.workers[k].spawn.value.view
  {
  }

  // ---- a driver at work ----

  /** Nothing but the world's memory, the tags and the inbox's flags differs. */
  lemma {:induction false} MemoryDoesNotMatter(p: Program, d: Durable, F: seq<Outcome>, d': Durable)
    requires Good(p, d, F) && d' == d.(calls := d'.calls, answers := d'.answers, tags := d'.tags)
    ensures Good(p, d', F)
  {
    hide JournalOk;
    PathOf(p, d.journal, F);
  }

  /** A driver with the whole journal: what the engine proves of one driver holds here. */
  lemma {:induction false} CurrentKeeps(p: Program, c: Cluster, key: (nat, nat), act: Act, s': State)
    requires ClusterOk(p, c) && key in c.minds && Runs(c.w, key) && View(c.w, key) == c.w.log
    requires Next(p, Seen(c, key), act) == Some(s')
    ensures Seen(c, key).d == c.d && Good(p, s'.d, Replay(p.body, s'.d.journal, []))
    ensures s'.v.Some? ==> MindOk(p, s'.d.journal, s'.v.value)
    ensures s'.d.journal != c.d.journal ==>
              && !Ended(c.d.journal) && s'.v.Some?
              && |s'.d.journal| == |c.d.journal| + 1 && s'.d.journal[..|c.d.journal|] == c.d.journal
  {
    hide Next, Good, DriverOk, Replay, Workers.Safe, SpawnsOk, ViewOk, JournalOk, Ended;
    var s, F := Seen(c, key), Replay(p.body, c.d.journal, []);
    var G := NextKeeps(p, s, F, act, s');
    GoodMeansReplayed(p, s'.d, G);
    if s'.d.journal != s.d.journal {
      AppendMeansOpen(p, s, F, act, s');
    }
  }

  /** A driver that has fallen behind: what it does without an append is harmless to what is stored, and
      replay goes on as before. */
  lemma {:induction false} StaleKeeps(p: Program, c: Cluster, key: (nat, nat), act: Act, s': State)
    requires ClusterOk(p, c) && key in c.minds && Runs(c.w, key) && View(c.w, key) != c.w.log
    requires Next(p, Seen(c, key), act) == Some(s') && |s'.d.journal| <= |View(c.w, key)|
    requires !act.Boot? && !act.Crash? && !act.Deliver?
    ensures Good(p, s'.d.(journal := c.d.journal), Replay(p.body, c.d.journal, []))
    ensures s'.v.Some? ==> MindOk(p, View(c.w, key), s'.v.value)
  {
    hide Next, Good, DriverOk, Replay, Workers.Safe, SpawnsOk, JournalOk, Ended;
    var s, view, F := Seen(c, key), View(c.w, key), Replay(p.body, c.d.journal, []);
    StepOnlyGrows(p, s, act, s');
    StaleMind(p, s, Replay(p.body, view, []), act, s');
    var d' := s'.d.(journal := c.d.journal);
    if act.Acknowledge? {
      Flagged(p, c.d, F, view, act.seqNo, s, s');
    } else {
      StaleWrites(p, s, act, s');
      MemoryDoesNotMatter(p, c.d, F, d');
    }
  }

  /** Without an append only the world's memory and the tags change, or a consumed flag. */
  lemma {:induction false} StaleWrites(p: Program, s: State, act: Act, s': State)
    requires Next(p, s, act) == Some(s') && s'.d.journal == s.d.journal && !Ended(s.d.journal)
    requires !act.Deliver? && !act.Acknowledge?
    ensures s'.d == s.d.(calls := s'.d.calls, answers := s'.d.answers, tags := s'.d.tags)
  {
    hide Recorded, Diverges, Opening, Progress, Definition, Invocation, Awaited, UndoProgress, HasStarted, NextUndo,
        FailuresOf, At, Tally, AllRecorded;
    if act.Conclude? {
      LoggedIsFound(s.d.journal, RUN_COMPLETED);
      LoggedIsFound(s.d.journal, RUN_FAILED);
      LoggedIsFound(s.d.journal, RUN_CONTINUED);
    }
  }

  lemma {:induction false} StaleMind(p: Program, s: State, F: seq<Outcome>, act: Act, s': State)
    requires JournalOk(p, s.d.journal, F) && s.v.Some? && DriverOk(p, s.d.journal, F, s.v.value)
    requires Next(p, s, act) == Some(s') && s'.d.journal == s.d.journal && !act.Boot?
    ensures s'.v.Some? ==> DriverOk(p, s.d.journal, F, s'.v.value)
  {
    hide Recorded, Diverges, Opening, Progress, Definition, Invocation, Awaited, UndoProgress, HasStarted, NextUndo,
        FailuresOf, At, Tally, AllRecorded, Outcomes, CompOf, DriverOk, JournalOk, First;
    if act.Back? {
      BackKeepsDriver(p, s.d.journal, F, s.v.value, act.index);
    } else if act.Join? {
      JoinKeepsDriver(p, s.d.journal, F, s.v.value);
    }
  }

  /** A flag set for a consumption that an earlier stage of the journal holds. */
  lemma {:induction false} Flagged(p: Program, d: Durable, F: seq<Outcome>, view: Log, seqNo: nat, s: State, s': State)
    requires Good(p, d, F) && view <= d.journal && s.d == d.(journal := view) && s.v.Some?
    requires Next(p, s, Acknowledge(seqNo)) == Some(s')
    ensures Good(p, s'.d.(journal := d.journal), F)
  {
    hide Good, DriverOk, JournalOk;
    assert seqNo in ConsumedSeqs(d.journal) by { ConsumedGrows(view, d.journal, seqNo); }
    var whole := State(d, Some(Driver([], {}, [])));
    BootKeeps(p, State(d, None), F);
    AcknowledgeKeeps(p, whole, F, seqNo, State(s'.d.(journal := d.journal), whole.v));
  }

  lemma {:induction false} ConsumedGrows(a: Log, b: Log, seqNo: nat)
    requires a <= b && seqNo in ConsumedSeqs(a)
    ensures seqNo in ConsumedSeqs(b)
  {
    var e :| e in a && e.fact.EventConsumed? && e.fact.signalSeq == seqNo;
    assert e in b;
  }

  /** Stopping a driver leaves the others as they were. */
  lemma {:induction false} StoppedKeeps(p: Program, c: Cluster, key: (nat, nat), died: bool, d: Durable, ttl: Time)
    requires Workers.Safe(c.w) && c.w.log == d.journal && SpawnsOk(p, c.w) && DriversOk(p, c) && Runs(c.w, key)
    requires Good(p, d, Replay(p.body, d.journal, []))
    ensures ClusterOk(p, Stopped(c, key, died, d, ttl)) && key !in Stopped(c, key, died, d, ttl).minds
    ensures forall other :: other in Stopped(c, key, died, d, ttl).minds ==> other in c.minds
  {
    hide Workers.Safe, Good, ViewOk, DriverOk, Replay, JournalOk, SpawnsOk, MindOk;
    var act := if died then Workers.Crash(key.0) else Workers.Finish(key.0, key.1);
    var w' := Workers.Next(c.w, act, ttl).value;
    Workers.NextIsSafe(c.w, act, ttl, w');
    WholeViewIsOk(p, d);
    ManagedSpawns(p, c.w, act, ttl, w');
    forall other | other in Keep(c.minds, w')
      ensures ViewOk(p, View(w', other), w'.log) && MindOk(p, View(w', other), c.minds[other])
    {
      ManagedViews(c.w, act, ttl, w', other);
    }
  }

  /** An accepted append: the journal grows under every view, and only the writer's grows with it. */
  lemma {:induction false} AcceptedKeeps(p: Program, c: Cluster, key: (nat, nat), act: Act, s': State, ttl: Time, e: Event,
      w: Workers.State)
    requires Workers.Next(c.w, Workers.Append(key.0, key.1, e.opId, e.fact, e.ts), ttl) == Some(w)
    requires ClusterOk(p, c) && key in c.minds && Runs(c.w, key) && View(c.w, key) == c.w.log
    requires Next(p, Seen(c, key), act) == Some(s') && s'.d.journal == c.w.log + [e]
    ensures w.log == s'.d.journal && s'.v.Some? && ClusterOk(p, Cluster(w, s'.d, c.minds[key := s'.v.value]))
  {
    hide Next, Good, DriverOk, Replay, Workers.Safe, Workers.Next, JournalOk, Ended, SpawnsOk, MindOk, ViewOk, DriversOk,
        Runs, View, Seen, ClusterOk, Engine.Next;
    assert Workers.Safe(c.w) && SpawnsOk(p, c.w) && DriversOk(p, c) && c.w.log == c.d.journal by { Parts(p, c); }
    var append := Workers.Append(key.0, key.1, e.opId, e.fact, e.ts);
    CurrentKeeps(p, c, key, act, s');
    NextEvent(p, s'.d, c.w.log, e);
    AppendIsPossible(c.w, key, e, ttl);
    Workers.NextIsSafe(c.w, append, ttl, w);
    WholeViewIsOk(p, s'.d);
    SpawnsGrow(p, c.w, append, ttl, w);
    AcceptedDrivers(p, c, key, append, ttl, w, s'.d, s'.v.value);
    Whole(p, Cluster(w, s'.d, c.minds[key := s'.v.value]));
  }

  lemma {:induction false} Parts(p: Program, c: Cluster)
    requires ClusterOk(p, c)
    ensures Workers.Safe(c.w) && SpawnsOk(p, c.w) && DriversOk(p, c) && c.w.log == c.d.journal
    ensures Good(p, c.d, Replay(p.body, c.d.journal, []))
  {
    hide Workers.Safe, SpawnsOk, DriversOk, Good, Replay;
  }

  lemma {:induction false} Whole(p: Program, c: Cluster)
    requires Workers.Safe(c.w) && SpawnsOk(p, c.w) && DriversOk(p, c) && c.w.log == c.d.journal
    requires Good(p, c.d, Replay(p.body, c.d.journal, []))
    ensures ClusterOk(p, c)
  {
    hide Workers.Safe, SpawnsOk, DriversOk, Good, Replay;
  }

  lemma {:induction false} AcceptedDrivers(p: Program, c: Cluster, key: (nat, nat), append: Workers.Act, ttl: Time,
      w: Workers.State, d: Durable, mind: Driver)
    requires append.Append? && key == (append.w, append.i) && Workers.Next(c.w, append, ttl) == Some(w)
    requires DriversOk(p, c) && !Ended(c.w.log) && c.w.log <= w.log
    requires Runs(w, key) && View(w, key) == w.log && ViewOk(p, w.log, w.log) && MindOk(p, w.log, mind)
    ensures DriversOk(p, Cluster(w, d, c.minds[key := mind]))
  {
    hide DriverOk, Replay, Workers.Next, JournalOk, Ended, MindOk, Runs;
    forall other | other in c.minds && other != key
      ensures Runs(w, other) && ViewOk(p, View(w, other), w.log) && MindOk(p, View(w, other), c.minds[other])
    {
      OthersStay(c.w, append, ttl, w, other);
      EndedGrows(View(c.w, other), c.w.log);
    }
  }

  /** The appended event carries the next sequence number. */
  lemma {:induction false} NextEvent(p: Program, d: Durable, log: Log, e: Event)
    requires Good(p, d, Replay(p.body, d.journal, [])) && d.journal == log + [e]
    ensures e == Event(|log|, e.opId, e.fact, e.ts)
  {
    hide Replay, RunOk, PastOk, FrontOk, UndoOk, EndOk, RecordOk, SuccessorOk, SignalsOk;
    assert d.journal[|log|] == e;
  }

  lemma {:induction false} AppendIsPossible(w: Workers.State, key: (nat, nat), e: Event, ttl: Time)
    requires Runs(w, key)
    ensures Workers.Next(w, Workers.Append(key.0, key.1, e.opId, e.fact, e.ts), ttl).Some?
    ensures var w' := Workers.Next(w, Workers.Append(key.0, key.1, e.opId, e.fact, e.ts), ttl).value; Runs(w', key)
    ensures View(w, key) == w.log ==>
              var w' := Workers.Next(w, Workers.Append(key.0, key.1, e.opId, e.fact, e.ts), ttl).value;
              w'.log == w.log + [Event(|w.log|, e.opId, e.fact, e.ts)] && View(w', key) == w'.log
    ensures |View(w, key)| < |w.log| ==> Workers.Next(w, Workers.Append(key.0, key.1, e.opId, e.fact, e.ts), ttl) == Some(w)
  {
  }

  lemma {:induction false} OthersStay(w: Workers.State, append: Workers.Act, ttl: Time, w': Workers.State, other: (nat, nat))
    requires append.Append? && Workers.Next(w, append, ttl) == Some(w') && other != (append.w, append.i) && Runs(w, other)
    ensures Runs(w', other) && View(w', other) == View(w, other)
  {
  }

  lemma {:induction false} SpawnsGrow(p: Program, w: Workers.State, append: Workers.Act, ttl: Time, w': Workers.State)
    requires append.Append? && Workers.Next(w, append, ttl) == Some(w') && SpawnsOk(p, w) && !Ended(w.log) && w.log <= w'.log
    ensures SpawnsOk(p, w')
  {
    hide JournalOk, Ended, Replay;
    forall k | k in w'.workers && w'.workers[k].spawn.Some? && w'.workers[k].spawn.value.Ready?
      ensures ViewOk(p, w'.workers[k].spawn.value.view, w'.log)
    {
      var view := w.workers[k].spawn.value.view;
      assert ViewOk(p, view, w.log);
      EndedGrows(view, w.log);
    }
  }

  lemma {:induction false} DriveKeeps(p: Program, c: Cluster, w: nat, i: nat, act: Act, stray: Stray, ttl: Time, c': Cluster)
    requires ClusterOk(p, c) && Step(p, c, Drive(w, i, act, stray), ttl) == Some(c')
    ensures ClusterOk(p, c') && c.d.journal <= c'.d.journal
  {
    hide Next, Good, DriverOk, Replay, Workers.Safe, Workers.Next, JournalOk, Ended, SpawnsOk, Stopped, IsLost, ViewOk;
    var key := (w, i);
    var view, s' := View(c.w, key), Next(p, Seen(c, key), act).value;
    StepOnlyGrows(p, Seen(c, key), act, s');
    assert view <= c.w.log by { ViewIsPrefix(p, c, key); }
    if s'.d.journal == view {
      IdleKeeps(p, c, key, act, s', ttl);
    } else {
      var e := s'.d.journal[|view|];
      assert s'.d.journal == view + [e];
      AppendIsPossible(c.w, key, e, ttl);
      if view == c.w.log {
        var accepted := Workers.Next(c.w, Workers.Append(w, i, e.opId, e.fact, e.ts), ttl).value;
        AcceptedKeeps(p, c, key, act, s', ttl, e, accepted);
      } else {
        RefusedKeeps(p, c, key, s'.d, stray, ttl);
      }
    }
  }

  lemma {:induction false} ViewIsPrefix(p: Program, c: Cluster, key: (nat, nat))
    requires DriversOk(p, c) && key in c.minds
    ensures Runs(c.w, key) && View(c.w, key) <= c.w.log
  {
    hide JournalOk, Replay, Ended, DriverOk;
  }

  lemma {:induction false} RefusedKeeps(p: Program, c: Cluster, key: (nat, nat), d: Durable, stray: Stray, ttl: Time)
    requires ClusterOk(p, c) && Runs(c.w, key)
    ensures var d' := Adrift(c.d, d, stray);
            ClusterOk(p, Stopped(c, key, false, d', ttl)) && Stopped(c, key, false, d', ttl).d == d'
  {
    hide Good, Replay, Workers.Safe, SpawnsOk, DriversOk;
    var d' := Adrift(c.d, d, stray);
    MemoryDoesNotMatter(p, c.d, Replay(p.body, c.d.journal, []), d');
    StoppedKeeps(p, c, key, false, d', ttl);
  }

  /** A driver's act without an append. */
  lemma {:induction false} IdleKeeps(p: Program, c: Cluster, key: (nat, nat), act: Act, s': State, ttl: Time)
    requires ClusterOk(p, c) && key in c.minds && Runs(c.w, key) && Next(p, Seen(c, key), act) == Some(s')
    requires s'.d.journal == View(c.w, key) && !act.Boot? && !act.Crash? && !act.Deliver?
    ensures var d := s'.d.(journal := c.d.journal);
            if s'.v.Some? then ClusterOk(p, Cluster(c.w, d, c.minds[key := s'.v.value]))
            else ClusterOk(p, Stopped(c, key, IsLost(act), d, ttl)) && Stopped(c, key, IsLost(act), d, ttl).d == d
  {
    hide Next, Good, DriverOk, Replay, Workers.Safe, Workers.Next, JournalOk, Ended, SpawnsOk, ViewOk, IsLost;
    var d := s'.d.(journal := c.d.journal);
    if View(c.w, key) == c.w.log {
      CurrentKeeps(p, c, key, act, s');
      assert d == s'.d;
    } else {
      StaleKeeps(p, c, key, act, s');
    }
    if s'.v.None? {
      StoppedKeeps(p, c, key, IsLost(act), d, ttl);
    }
  }

  lemma {:induction false} StepKeeps(p: Program, c: Cluster, deed: Deed, ttl: Time, c': Cluster)
    requires ClusterOk(p, c) && Step(p, c, deed, ttl) == Some(c')
    ensures ClusterOk(p, c') && c.d.journal <= c'.d.journal
  {
    hide Good, Replay, Workers.Safe, SpawnsOk, DriversOk, Driven, Next, Workers.Next;
    match deed
    case Manage(act) =>
      ManageKeeps(p, c, act, ttl, c');
    case Post(name, payload) =>
      DeliverKeeps(p, State(c.d, None), Replay(p.body, c.d.journal, []), name, payload, State(c'.d, None)) by {
        Posted(p, c.d, name, payload);
      }
      assert DriversOk(p, c') by { SameDrivers(p, c, c'); }
    case Drive(w, i, act, stray) => DriveKeeps(p, c, w, i, act, stray, ttl, c');
  }

  lemma {:induction false} Posted(p: Program, d: Durable, name: string, payload: Json)
    ensures Next(p, State(d, None), Engine.Act.Deliver(name, payload)) ==
            Some(State(d.(inbox := d.inbox + [Signal(name, payload, false)]), None))
  {
  }

  lemma {:induction false} SameDrivers(p: Program, c: Cluster, c': Cluster)
    requires DriversOk(p, c) && c'.w == c.w && c'.minds == c.minds
    ensures DriversOk(p, c')
  {
    hide ViewOk, MindOk;
  }

  lemma {:induction false} RunKeeps(p: Program, c: Cluster, deeds: seq<Deed>, ttl: Time, c': Cluster)
    requires ClusterOk(p, c) && Run(p, c, deeds, ttl) == Some(c')
    ensures ClusterOk(p, c') && c.d.journal <= c'.d.journal
    decreases |deeds|
  {
    hide ClusterOk, Step;
    if deeds != [] {
      var mid := Step(p, c, deeds[0], ttl).value;
      StepKeeps(p, c, deeds[0], ttl, mid);
      RunKeeps(p, mid, deeds[1..], ttl, c');
    }
  }

  lemma {:induction false} RestIsOk(p: Program, d: Durable, now: Time)
    returns (F: seq<Outcome>)
    requires Reachable(p, State(d, None))
    ensures ClusterOk(p, AtRest(d, now)) && InvAt(p, State(d, None), F)
  {
    hide Reachable, Replay, DriverOk, RunOk, PastOk, FrontOk, UndoOk, EndOk, RecordOk, SuccessorOk, SignalsOk;
    F := ReachableIsInvariant(p, State(d, None));
  }

  /** Whatever the clocks do: however many drivers run at once, however late their heartbeats and however
      stale their journals, what is stored satisfies the engine's whole invariant, its journal only
      grows, and each running driver works on an earlier stage of it with the outcomes recorded there. */
  lemma {:induction false} ManyDriversKeepOneRun(p: Program, d: Durable, now: Time, deeds: seq<Deed>, ttl: Time, c: Cluster)
    returns (F: seq<Outcome>)
    requires Reachable(p, State(d, None)) && Run(p, AtRest(d, now), deeds, ttl) == Some(c)
    ensures InvAt(p, State(c.d, None), F) && F == Replay(p.body, c.d.journal, [])
    ensures RecordMatches(c.d.record, p.body(F), c.d.successor)
    ensures c.w.log == c.d.journal && d.journal <= c.d.journal
    ensures forall key :: key in c.minds ==>
              Runs(c.w, key) && View(c.w, key) <= c.d.journal && c.minds[key].h <= Replay(p.body, View(c.w, key), [])
  {
    hide Reachable, Replay, Good, Run, Workers.Safe, SpawnsOk, Ended, JournalOk, RecordMatches;
    var G := RestIsOk(p, d, now);
    RunKeeps(p, AtRest(d, now), deeds, ttl, c);
    F := Replay(p.body, c.d.journal, []);
    RecordFits(p, c.d, F);
  }

  // ---- with heartbeats in time: one run of the engine ----

  ghost predicate InTime(c: Cluster, deed: Deed) {
    deed.Manage? ==> Workers.InTime(c.w, deed.act)
  }

  ghost predicate AllInTime(p: Program, c: Cluster, deeds: seq<Deed>, ttl: Time)
    decreases |deeds|
  {
    deeds == [] ||
    (InTime(c, deeds[0]) && var c' := Step(p, c, deeds[0], ttl); c'.Some? ==> AllInTime(p, c'.value, deeds[1..], ttl))
  }

  /** The engine's state: what is durable, and the one running driver if there is one. */
  ghost predicate Shows(c: Cluster, s: State) {
    && s.d == c.d
    && (forall key :: key in c.minds ==> s.v == Some(c.minds[key]))
    && (c.minds == map[] ==> s.v.None?)
  }

  lemma {:induction false} RunningIsCurrent(w: Workers.State, key: (nat, nat))
    requires Workers.Safe(w) && Workers.Exclusive(w) && Runs(w, key)
    ensures View(w, key) == w.log && Workers.Owns(w.lease, key.0)
    ensures w.workers[key.0].handle == Some(key.1) && w.workers[key.0].spawn.None?
  {
    var k := w.workers[key.0];
    assert Workers.Live(k.drivers[key.1]) && Workers.Busy(k);
    assert Workers.WorkerOk(k, w.log) && Workers.HoldsLease(w, key.0) && Workers.Current(k, w.log);
  }

  lemma {:induction false} OneRuns(w: Workers.State, a: (nat, nat), b: (nat, nat))
    requires Workers.Safe(w) && Workers.Exclusive(w) && Runs(w, a) && Runs(w, b)
    ensures a == b
  {
    hide Workers.Safe, Workers.Exclusive;
    RunningIsCurrent(w, a);
    RunningIsCurrent(w, b);
  }

  /** Nothing runs while a worker holds a loaded journal. */
  lemma {:induction false} NoneRunsAtSpawn(w: Workers.State, k: nat, key: (nat, nat))
    requires Workers.Safe(w) && Workers.Exclusive(w) && k in w.workers
    requires w.workers[k].spawn.Some? && w.workers[k].spawn.value.Ready?
    ensures !Runs(w, key)
  {
    assert Workers.Busy(w.workers[k]) && Workers.HoldsLease(w, k);
    if Runs(w, key) {
      RunningIsCurrent(w, key);
    }
  }

  lemma {:induction false} KeepOne(c: Cluster, key: (nat, nat), w: Workers.State)
    requires c.minds.Keys == {key}
    ensures Keep(c.minds, w) == if Runs(w, key) then c.minds else map[]
  {
    hide Runs;
    assert forall other :: other in c.minds <==> other == key;
  }

  /** The minds of an exclusive cluster: none, or one. */
  lemma {:induction false} NoneOrOne(p: Program, c: Cluster)
    requires DriversOk(p, c) && Workers.Safe(c.w) && Workers.Exclusive(c.w) && c.minds != map[]
    ensures exists key :: c.minds.Keys == {key}
  {
    hide Workers.Safe, Workers.Exclusive, ViewOk, MindOk, Runs;
    var key :| key in c.minds;
    forall other | other in c.minds
      ensures other == key
    {
      OneRuns(c.w, key, other);
    }
    assert c.minds.Keys == {key};
  }

  lemma {:induction false} Nothing(p: Program, s: State)
    ensures Exec(p, s, []) == Some(s)
  {
  }

  lemma {:induction false} One(p: Program, s: State, act: Act, s': State)
    requires Next(p, s, act) == Some(s')
    ensures Exec(p, s, [act]) == Some(s')
  {
    hide Next;
    assert [act][1..] == [];
    Nothing(p, s');
  }

  lemma {:induction false} ManageShows(p: Program, c: Cluster, act: Workers.Act, ttl: Time, c': Cluster, s: State)
    returns (acts: seq<Act>, s': State)
    requires ClusterOk(p, c) && Workers.Exclusive(c.w) && Shows(c, s) && Step(p, c, Manage(act), ttl) == Some(c')
    ensures Exec(p, s, acts) == Some(s') && Shows(c', s')
  {
    hide Workers.Next, Workers.Safe, Workers.Exclusive, Good, ViewOk, MindOk, Replay, Runs, SpawnsOk;
    var w' := Workers.Next(c.w, act, ttl).value;
    if act.Spawned? {
      SpawnedRuns(c.w, act.w, ttl, w');
      assert Workers.Safe(c.w) && DriversOk(p, c) by { Parts(p, c); }
      forall key
        ensures key !in c.minds
      {
        NoneRunsAtSpawn(c.w, act.w, key);
      }
      assert c.minds == map[] && Keep(c.minds, w') == map[];
      assert (act.w, |c.w.workers[act.w].drivers|) in c'.minds;
      s' := State(s.d, Some(Driver([], {}, [])));
      acts := [Boot];
      Booted(p, s, s');
    } else if c.minds == map[] {
      acts, s' := [], s;
      Nothing(p, s);
      assert Keep(c.minds, w') == map[];
    } else {
      NoneOrOne(p, c);
      var key :| c.minds.Keys == {key};
      assert key in c.minds;
      KeepOne(c, key, w');
      if Runs(w', key) {
        acts, s' := [], s;
        Nothing(p, s);
      } else {
        s' := State(s.d, None);
        acts := [Engine.Act.Crash];
        Crashed(p, s, s');
      }
    }
  }

  lemma {:induction false} Booted(p: Program, s: State, s': State)
    requires s.v.None? && s' == State(s.d, Some(Driver([], {}, [])))
    ensures Exec(p, s, [Boot]) == Some(s')
  {
    One(p, s, Boot, s');
  }

  lemma {:induction false} Crashed(p: Program, s: State, s': State)
    requires s' == State(s.d, None)
    ensures Exec(p, s, [Engine.Act.Crash]) == Some(s')
  {
    One(p, s, Engine.Act.Crash, s');
  }

  /** A running driver of an exclusive cluster acts on the stored journal itself: it is the engine's driver. */
  lemma {:induction false} DriveShows(p: Program, c: Cluster, key: (nat, nat), act: Act, stray: Stray, ttl: Time,
      c': Cluster, s: State)
    returns (s': State)
    requires ttl >= 0.0 && ClusterOk(p, c) && Workers.Exclusive(c.w) && Shows(c, s)
    requires Step(p, c, Drive(key.0, key.1, act, stray), ttl) == Some(c')
    ensures Next(p, s, act) == Some(s') && Shows(c', s') && Workers.Exclusive(c'.w)
  {
    hide Workers.Next, Workers.Safe, Workers.Exclusive, Good, ViewOk, MindOk, Replay, SpawnsOk, Next, Stopped, IsLost;
    assert Workers.Safe(c.w) && DriversOk(p, c) by { Parts(p, c); }
    RunningIsCurrent(c.w, key);
    assert Seen(c, key) == s;
    s' := Next(p, s, act).value;
    StepOnlyGrows(p, s, act, s');
    NoneOrOne(p, c);
    assert c.minds.Keys == {key};
    if s'.d.journal == c.w.log {
      assert s'.d.(journal := c.d.journal) == s'.d;
      if s'.v.None? {
        StoppedShows(p, c, key, IsLost(act), s'.d, ttl);
      }
    } else {
      var e := s'.d.journal[|c.w.log|];
      var append := Workers.Append(key.0, key.1, e.opId, e.fact, e.ts);
      assert s'.d.journal == c.w.log + [e];
      AppendIsPossible(c.w, key, e, ttl);
      CurrentKeeps(p, c, key, act, s');
      Workers.NextIsExclusive(c.w, append, ttl, Workers.Next(c.w, append, ttl).value);
    }
  }

  lemma {:induction false} StoppedShows(p: Program, c: Cluster, key: (nat, nat), died: bool, d: Durable, ttl: Time)
    requires ttl >= 0.0 && Workers.Safe(c.w) && Workers.Exclusive(c.w) && Runs(c.w, key) && c.minds.Keys == {key}
    ensures Stopped(c, key, died, d, ttl).minds == map[] && Stopped(c, key, died, d, ttl).d == d
    ensures Workers.Exclusive(Stopped(c, key, died, d, ttl).w)
  {
    hide Workers.Safe, Workers.Exclusive;
    var act := if died then Workers.Crash(key.0) else Workers.Finish(key.0, key.1);
    var w' := Workers.Next(c.w, act, ttl).value;
    Workers.NextIsExclusive(c.w, act, ttl, w') by { NotATick(c.w, act); }
    KeepOne(c, key, w');
    assert !Runs(w', key);
  }

  lemma {:induction false} NotATick(w: Workers.State, act: Workers.Act)
    requires !act.Tick?
    ensures Workers.InTime(w, act)
  {
  }

  lemma {:induction false} StepShows(p: Program, c: Cluster, deed: Deed, ttl: Time, c': Cluster, s: State)
    returns (acts: seq<Act>, s': State)
    requires ttl >= 0.0 && ClusterOk(p, c) && Workers.Exclusive(c.w) && InTime(c, deed) && Shows(c, s)
    requires Step(p, c, deed, ttl) == Some(c')
    ensures Exec(p, s, acts) == Some(s') && Shows(c', s') && Workers.Exclusive(c'.w)
  {
    hide Workers.Next, Workers.Safe, Workers.Exclusive, Good, DriversOk, Replay, SpawnsOk, Next, Driven, Workers.InTime;
    match deed
    case Manage(act) =>
      acts, s' := ManageShows(p, c, act, ttl, c', s);
      Workers.NextIsExclusive(c.w, act, ttl, c'.w);
    case Post(name, payload) =>
      s' := State(c'.d, s.v);
      acts := [Engine.Act.Deliver(name, payload)];
      Delivered(p, s, name, payload, s');
    case Drive(w, i, act, stray) =>
      s' := DriveShows(p, c, (w, i), act, stray, ttl, c', s);
      acts := [act];
      One(p, s, act, s');
  }

  lemma {:induction false} Delivered(p: Program, s: State, name: string, payload: Json, s': State)
    requires s' == State(s.d.(inbox := s.d.inbox + [Signal(name, payload, false)]), s.v)
    ensures Exec(p, s, [Engine.Act.Deliver(name, payload)]) == Some(s')
  {
    One(p, s, Engine.Act.Deliver(name, payload), s');
  }

  lemma {:induction false} RunShows(p: Program, c: Cluster, deeds: seq<Deed>, ttl: Time, c': Cluster, s: State)
    returns (acts: seq<Act>, s': State)
    requires ttl >= 0.0 && ClusterOk(p, c) && Workers.Exclusive(c.w) && Shows(c, s)
    requires AllInTime(p, c, deeds, ttl) && Run(p, c, deeds, ttl) == Some(c')
    ensures Exec(p, s, acts) == Some(s') && Shows(c', s') && Workers.Exclusive(c'.w) && ClusterOk(p, c')
    decreases |deeds|
  {
    hide ClusterOk, Step, Shows, InTime, Workers.Exclusive;
    if deeds == [] {
      acts, s' := [], s;
      Nothing(p, s);
    } else {
      var mid := Step(p, c, deeds[0], ttl).value;
      StepKeeps(p, c, deeds[0], ttl, mid);
      var first, next := StepShows(p, c, deeds[0], ttl, mid, s);
      var rest;
      rest, s' := RunShows(p, mid, deeds[1..], ttl, c', next);
      Joined(p, s, first, next, rest, s');
      acts := first + rest;
    }
  }

  lemma {:induction false} Joined(p: Program, s: State, a: seq<Act>, mid: State, b: seq<Act>, s': State)
    requires Exec(p, s, a) == Some(mid) && Exec(p, mid, b) == Some(s')
    ensures Exec(p, s, a + b) == Some(s')
    decreases |a|
  {
    hide Next;
    if a == [] {
      assert a + b == b;
    } else {
      Joined(p, Next(p, s, a[0]).value, a[1..], mid, b, s');
      assert (a + b)[0] == a[0] && (a + b)[1..] == a[1..] + b;
    }
  }

  /** With heartbeats in time, whatever any number of workers do to a run, claiming it, driving it, crashing
      and taking it over, is one run of the engine: all that is proved of the engine holds of it, the
      invocations included. */
  lemma {:induction false} ClusterIsOneRun(p: Program, d: Durable, now: Time, deeds: seq<Deed>, ttl: Time, c: Cluster)
    returns (acts: seq<Act>, s: State)
    requires ttl >= 0.0 && Reachable(p, State(d, None))
    requires AllInTime(p, AtRest(d, now), deeds, ttl) && Run(p, AtRest(d, now), deeds, ttl) == Some(c)
    ensures Exec(p, State(d, None), acts) == Some(s) && Shows(c, s) && Reachable(p, s)
    ensures forall key :: key in c.minds ==> Runs(c.w, key) && View(c.w, key) == c.d.journal
  {
    hide Reachable, Replay, Good, Run, AllInTime, Workers.Safe, SpawnsOk, Ended, JournalOk, ViewOk, MindOk, Exec;
    var F := RestIsOk(p, d, now);
    acts, s := RunShows(p, AtRest(d, now), deeds, ttl, c, State(d, None));
    StaysReachable(p, State(d, None), acts, s);
    forall key | key in c.minds
      ensures Runs(c.w, key) && View(c.w, key) == c.d.journal
    {
      RunningIsCurrent(c.w, key);
    }
  }
}
