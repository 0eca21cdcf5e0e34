/** Crash transparency: whatever a run goes through, an uninterrupted run with the same answers from the
    world writes the very same journal, outcome and successor. */
module Transparency {
  import opened Wrappers
  import opened Events
  import opened Engine
  import opened Paths
  import opened Invariant
  import opened Preservation
  import opened Endings
  import opened Reachability
  import opened Replays
  import opened CrashSafety
  import opened Effects
  import opened Saga
  import opened Resuming

  /** Uninterrupted acts: no crash, no resume, nothing lost on the way to the store. */
  ghost predicate Uninterrupted(acts: seq<Act>) {
    forall i :: 0 <= i < |acts| ==> !acts[i].Crash? && !acts[i].Boot? && !IsLost(acts[i])
  }

  /** The same deliveries; `a` may have flagged more of them as consumed. */
  ghost predicate SameSignals(a: seq<Signal>, b: seq<Signal>) {
    && |a| == |b|
    && forall i :: 0 <= i < |a| ==>
         a[i].name == b[i].name && a[i].payload == b[i].payload && (b[i].consumed ==> a[i].consumed)
  }

  /** The same journal, outcome, successor and inbox; once the run has ended, a stale drive may still set
      consumed flags in `d`. */
  ghost predicate SameRun(d: Durable, e: Durable) {
    && d.journal == e.journal && d.record == e.record && d.successor == e.successor
    && SameSignals(d.inbox, e.inbox) && (d.record.Running? ==> d.inbox == e.inbox)
  }

  /** The driver that has replayed everything recorded. */
  ghost function CaughtUp(p: Program, F: seq<Outcome>): Driver
    requires IsPath(p.body, F, 0)
  {
    Driver(F, {}, Comps(p.body, F, 0))
  }

  /** The compensations a run has to make, if any, are in order. */
  ghost predicate InOrder(p: Program, s: State, F: seq<Outcome>, fair: bool)
    requires IsPath(p.body, F, 0)
  {
    SagaOk(p, s, F, fair) && (p.body(F).Raise? ==> fair || LoneUndos(p.body, F, 0))
  }

  /** `t` is an uninterrupted run that has kept up with `s`. */
  ghost predicate Mirrors(p: Program, s: State, t: State, F: seq<Outcome>, fair: bool)
    requires IsPath(p.body, F, 0)
  {
    && InvAt(p, s, F) && InOrder(p, s, F, fair) && InvAt(p, t, F)
    && SameRun(s.d, t.d)
    && (s.d.record.Running? ==> t.v == Some(CaughtUp(p, F)))
  }

  // ---- each act ----

  /** A live append: the mirror appends the same event and replays on. */
  lemma {:induction false} LiveMirrored(p: Program, s: State, t: State, F: seq<Outcome>, index: nat, w: World,
      s': State,
      G: seq<Outcome>, fair: bool)
    returns (acts: seq<Act>, t': State)
    requires IsPath(p.body, F, 0) && IsPath(p.body, G, 0) && Mirrors(p, s, t, F, fair)
    requires s.d.record.Running? && Next(p, s, Live(index, w, false)) == Some(s') && s'.d.journal != s.d.journal
    requires InvAt(p, s', G) && InOrder(p, s', G, fair) && |F| <= |G| && F == G[..|F|]
    ensures Uninterrupted(acts) && Exec(p, t, acts) == Some(t') && Mirrors(p, s', t', G, fair)
  {
    hide Next, JournalOk, InOrder, IsPath, Comps, HasStarted, SameRun, SuccessorOk, RecordOk, SignalsOk, DriverOk;
    var t1 := AppendMirrored(p, s, t, F, index, w, s', fair);
    var H := NextKeeps(p, t, F, Live(index, w, false), t1);
    SameJournals(s'.d, t1.d);
    SameFrontier(p, s', G, t1, H);
    JournalPart(p, t1, G);
    var more, undos := CatchUp(p, t1.d, F, G, G, Comps(p.body, F, 0));
    t' := State(t1.d, Some(CaughtUp(p, G)));
    OneMore(p, t, Live(index, w, false), t1);
    ExecConcat(p, t, [Live(index, w, false)], t1, more, t');
    acts := [Live(index, w, false)] + more;
    H := ExecKeeps(p, t1, G, more, t');
    SameFrontier(p, t1, G, t', H);
  }

  lemma {:induction false} AppendMirrored(p: Program, s: State, t: State, F: seq<Outcome>, index: nat, w: World,
      s': State, fair: bool)
    returns (t': State)
    requires IsPath(p.body, F, 0) && Mirrors(p, s, t, F, fair)
    requires s.d.record.Running? && Next(p, s, Live(index, w, false)) == Some(s') && s'.d.journal != s.d.journal
    ensures Next(p, t, Live(index, w, false)) == Some(t') && t'.v == t.v && HasStarted(t'.d.journal)
    ensures SameRun(s'.d, t'.d) && s'.d.record.Running?
  {
    hide Recorded, Diverges, Opening, Progress, Definition, Invocation, Comps, InOrder, JournalOk, RecordOk, SuccessorOk,
      At, LaneOf, HasStarted, IsPath;
    JournalPart(p, s, F);
    LiveMeansFrontier(p, s.d.journal, F, s.v.value, index);
    assert s.v.value.h == F;
    var op, id := p.body(F).Ops()[index], |F| + index;
    var e := s'.d.journal[|s.d.journal|];
    assert s'.d.journal == s.d.journal + [e];
    StartedStays(s.d.journal, e);
    t' := State(Append(Touch(op, id, t.d, w), id, e.fact, w.now + w.took), t.v);
    assert Next(p, t, Live(index, w, false)) == Some(t');
  }

  /** An act both runs can take, whose effect is the same on both. */
  lemma {:induction false} ActMirrored(p: Program, s: State, t: State, F: seq<Outcome>, act: Act, s': State,
      t': State, fair: bool)
    requires IsPath(p.body, F, 0) && Mirrors(p, s, t, F, fair)
    requires Next(p, s, act) == Some(s') && Next(p, t, act) == Some(t') && !act.Live?
    requires InvAt(p, s', F) && InOrder(p, s', F, fair)
    requires SameRun(s'.d, t'.d) && (s'.d.record.Running? ==> t'.v == t.v && s.d.record.Running?)
    ensures Mirrors(p, s', t', F, fair)
  {
    hide Next, InvAt, InOrder, Comps, SameRun;
    var H := NextKeeps(p, t, F, act, t');
    SameJournals(s'.d, t'.d);
    SameFrontier(p, s', F, t', H);
  }

  lemma {:induction false} SameJournals(d: Durable, e: Durable)
    requires SameRun(d, e)
    ensures d.journal == e.journal && d.record == e.record
  {
  }

  lemma {:induction false} StartMirrored(p: Program, s: State, t: State, F: seq<Outcome>, now: Time, s': State,
      fair: bool)
    returns (t': State)
    requires IsPath(p.body, F, 0) && Mirrors(p, s, t, F, fair) && s.d.record.Running?
    requires Next(p, s, Start(now)) == Some(s') && InvAt(p, s', F) && InOrder(p, s', F, fair)
    ensures Next(p, t, Start(now)) == Some(t') && Mirrors(p, s', t', F, fair)
  {
    t' := State(Append(t.d, -1, RunStarted(p.tags), now), t.v);
    assert Next(p, t, Start(now)) == Some(t') && SameRun(s'.d, t'.d) by {
      hide InvAt, InOrder, HasStarted, Comps;
    }
    hide Next, InvAt, InOrder, Comps, SameRun;
    assert s'.d.record == s.d.record by { StartLeavesRecord(p, s, now, s'); }
    ActMirrored(p, s, t, F, Start(now), s', t', fair);
  }

  lemma {:induction false} StartLeavesRecord(p: Program, s: State, now: Time, s': State)
    requires Next(p, s, Start(now)) == Some(s')
    ensures s'.d.record == s.d.record
  {
  }

  lemma {:induction false} DeliverMirrored(p: Program, s: State, t: State, F: seq<Outcome>, name: string,
      payload: Json, s': State, fair: bool)
    returns (t': State)
    requires IsPath(p.body, F, 0) && Mirrors(p, s, t, F, fair)
    requires Next(p, s, Deliver(name, payload)) == Some(s') && InvAt(p, s', F) && InOrder(p, s', F, fair)
    ensures Next(p, t, Deliver(name, payload)) == Some(t') && Mirrors(p, s', t', F, fair)
  {
    hide InvAt, InOrder, Comps, IsPath;
    var x := Signal(name, payload, false);
    t' := State(t.d.(inbox := t.d.inbox + [x]), t.v);
    assert s'.d.inbox == s.d.inbox + [x];
    assert Next(p, t, Deliver(name, payload)) == Some(t') && SameRun(s'.d, t'.d);
    ActMirrored(p, s, t, F, Deliver(name, payload), s', t', fair);
  }

  lemma {:induction false} AcknowledgeMirrored(p: Program, s: State, t: State, F: seq<Outcome>, seqNo: nat,
      s': State, fair: bool)
    returns (t': State)
    requires IsPath(p.body, F, 0) && Mirrors(p, s, t, F, fair) && s.d.record.Running?
    requires Next(p, s, Acknowledge(seqNo)) == Some(s') && InvAt(p, s', F) && InOrder(p, s', F, fair)
    ensures Next(p, t, Acknowledge(seqNo)) == Some(t') && Mirrors(p, s', t', F, fair)
  {
    hide InvAt, InOrder, Comps, IsPath;
    t' := State(t.d.(inbox := s'.d.inbox), t.v);
    assert Next(p, t, Acknowledge(seqNo)) == Some(t') && SameRun(s'.d, t'.d) && s'.d.record == s.d.record;
    ActMirrored(p, s, t, F, Acknowledge(seqNo), s', t', fair);
  }

  /** A driver whose body is done stands where the mirror stands; where there is something to compensate,
      with the same stack. */
  lemma {:induction false} DoneDriver(p: Program, s: State, F: seq<Outcome>, fair: bool)
    requires IsPath(p.body, F, 0) && InvAt(p, s, F) && InOrder(p, s, F, fair) && s.v.Some? && p.body(s.v.value.h).Ops() == []
    ensures s.v.value.h == F && (p.body(F).Raise? ==> s.v == Some(CaughtUp(p, F)))
  {
    hide Good, DriverOk, Comps, Orderly, StackOk, LoneUndos, IsPath;
    JournalPart(p, s, F);
    DoneInOrder(p, s.d.journal, F, s.v.value, fair);
  }

  lemma {:induction false} CompensateMirrored(p: Program, s: State, t: State, F: seq<Outcome>, w: World, s': State,
      fair: bool)
    returns (t': State)
    requires IsPath(p.body, F, 0) && Mirrors(p, s, t, F, fair) && s.d.record.Running?
    requires Next(p, s, Compensate(w, false)) == Some(s') && InvAt(p, s', F) && InOrder(p, s', F, fair)
    ensures Next(p, t, Compensate(w, false)) == Some(t') && Mirrors(p, s', t', F, fair)
  {
    hide Next, InvAt, InOrder, Comps, SameRun, IsPath;
    RaisedOnly(p, s, w, s');
    DoneDriver(p, s, F, fair);
    CompensatesToo(p, s, t, w);
    t' := Next(p, t, Compensate(w, false)).value;
    ActMirrored(p, s, t, F, Compensate(w, false), s', t', fair);
  }

  lemma {:induction false} RaisedOnly(p: Program, s: State, w: World, s': State)
    requires Next(p, s, Compensate(w, false)) == Some(s')
    ensures s.v.Some? && p.body(s.v.value.h).Raise? && p.body(s.v.value.h).Ops() == []
  {
    hide CompensateStep, HasStarted;
  }

  lemma {:induction false} CompensatesToo(p: Program, s: State, t: State, w: World)
    requires SameRun(s.d, t.d) && s.v == t.v && Next(p, s, Compensate(w, false)).Some?
    ensures Next(p, t, Compensate(w, false)).Some?
    ensures var s', t' := Next(p, s, Compensate(w, false)).value, Next(p, t, Compensate(w, false)).value;
            SameRun(s'.d, t'.d) && t'.v == t.v && s'.d.record == s.d.record
  {
    hide UndoProgress, NextUndo, HasStarted, SameSignals;
  }

  lemma {:induction false} ConcludesToo(p: Program, s: State, t: State, now: Time)
    requires SameRun(s.d, t.d) && s.v.Some? && t.v.Some? && s.v.value.h == t.v.value.h
    requires Next(p, s, Conclude(now)).Some? && (p.body(s.v.value.h).Raise? ==> s.v == t.v)
    ensures Next(p, t, Conclude(now)).Some?
    ensures var s', t' := Next(p, s, Conclude(now)).value, Next(p, t, Conclude(now)).value;
            SameRun(s'.d, t'.d) && (s'.d.record.Running? ==> t'.v == t.v)
  {
    hide FailuresOf, NextUndo, HasStarted, SameSignals, First, At;
    match p.body(s.v.value.h) {
      case Return(_) =>
      case Raise(_) =>
      case ContinueAsNew(_) =>
      case Await(_, _) =>
    }
  }

  lemma {:induction false} ConcludeMirrored(p: Program, s: State, t: State, F: seq<Outcome>, now: Time, s': State,
      fair: bool)
    returns (t': State)
    requires IsPath(p.body, F, 0) && Mirrors(p, s, t, F, fair) && s.d.record.Running?
    requires Next(p, s, Conclude(now)) == Some(s') && InvAt(p, s', F) && InOrder(p, s', F, fair)
    ensures Next(p, t, Conclude(now)) == Some(t') && Mirrors(p, s', t', F, fair)
  {
    hide Next, InvAt, InOrder, Comps, SameRun, IsPath;
    ConcludesOnly(p, s, now, s');
    DoneDriver(p, s, F, fair);
    ConcludesToo(p, s, t, now);
    t' := Next(p, t, Conclude(now)).value;
    ActMirrored(p, s, t, F, Conclude(now), s', t', fair);
  }

  lemma {:induction false} ConcludesOnly(p: Program, s: State, now: Time, s': State)
    requires Next(p, s, Conclude(now)) == Some(s')
    ensures s.v.Some? && p.body(s.v.value.h).Ops() == []
  {
    hide HasStarted, First, FailuresOf, NextUndo;
  }

  /** Crashes, resumes, replay and lost effects leave nothing for the mirror to do. */
  lemma {:induction false} QuietMirrored(p: Program, s: State, t: State, F: seq<Outcome>, act: Act, s': State,
      fair: bool)
    requires IsPath(p.body, F, 0) && Mirrors(p, s, t, F, fair) && Next(p, s, act) == Some(s')
    requires !act.Deliver? && !act.Conclude? && !act.Acknowledge? && s'.d.journal == s.d.journal
    requires InvAt(p, s', F) && InOrder(p, s', F, fair)
    ensures Mirrors(p, s', t, F, fair)
  {
    hide InvAt, InOrder, Comps;
    QuietIsQuiet(p, s, act, s');
  }

  lemma {:induction false} QuietIsQuiet(p: Program, s: State, act: Act, s': State)
    requires Next(p, s, act) == Some(s') && !act.Deliver? && !act.Conclude? && s'.d.journal == s.d.journal
    ensures s'.d.record == s.d.record && s'.d.successor == s.d.successor && SameSignals(s'.d.inbox, s.d.inbox)
    ensures !act.Acknowledge? ==> s'.d.inbox == s.d.inbox
  {
    hide Recorded, Diverges, Opening, Progress, Definition, Invocation, UndoProgress, HasStarted, NextUndo;
  }

  /** After its end a run only takes in signals. */
  lemma {:induction false} EndedMirrored(p: Program, s: State, t: State, F: seq<Outcome>, act: Act, s': State,
      fair: bool)
    returns (acts: seq<Act>, t': State)
    requires IsPath(p.body, F, 0) && Mirrors(p, s, t, F, fair) && !s.d.record.Running?
    requires Next(p, s, act) == Some(s') && InvAt(p, s', F) && InOrder(p, s', F, fair)
    ensures Uninterrupted(acts) && Exec(p, t, acts) == Some(t') && Mirrors(p, s', t', F, fair)
  {
    hide Next, InvAt, InOrder, Comps, SameSignals, IsPath;
    if act.Deliver? {
      t' := DeliverMirrored(p, s, t, F, act.name, act.payload, s', fair);
      OneMore(p, t, act, t');
      acts := [act];
    } else {
      acts, t' := [], t;
      EndedStays(p, s, F, act, s', fair);
      SameAsBefore(s'.d, s.d, t.d);
    }
  }

  lemma {:induction false} SameAsBefore(a: Durable, b: Durable, c: Durable)
    requires SameRun(b, c) &&
             a.journal == b.journal && a.record == b.record && a.successor == b.successor && SameSignals(a.inbox, b.inbox) &&
             !a.record.Running?
    ensures SameRun(a, c)
  {
  }

  lemma {:induction false} EndedStays(p: Program, s: State, F: seq<Outcome>, act: Act, s': State, fair: bool)
    requires IsPath(p.body, F, 0) && InvAt(p, s, F) && InOrder(p, s, F, fair) && InvAt(p, s', F) && InOrder(p, s', F, fair)
    requires !s.d.record.Running? && Next(p, s, act) == Some(s') && !act.Deliver?
    ensures s'.d.journal == s.d.journal && s'.d.record == s.d.record && s'.d.successor == s.d.successor
    ensures SameSignals(s'.d.inbox, s.d.inbox)
  {
    hide InvAt, Comps, FailuresOf, LastInFirstOut, Descending, StackOk, LoneUndos;
    TerminalIsFinished(p, s, F);
    FinishedStepIsQuiet(p, s, F, act, s');
    if !act.Conclude? {
      QuietIsQuiet(p, s, act, s');
    } else {
      ConcludeLeavesInbox(p, s, act.now, s');
      OneMore(p, s, act, s');
      StaysTerminal(p, s, [act], s');
      RecordsAgree(p, s, F, s');
      OnlyRaisesFail(p, s, F);
    }
  }

  lemma {:induction false} OnlyRaisesFail(p: Program, s: State, F: seq<Outcome>)
    requires InvAt(p, s, F)
    ensures s.d.record.CompensationFailed? ==> p.body(F).Raise?
  {
    hide Good, DriverOk;
    RecordFits(p, s.d, F);
  }

  lemma {:induction false} ConcludeLeavesInbox(p: Program, s: State, now: Time, s': State)
    requires Next(p, s, Conclude(now)) == Some(s')
    ensures s'.d.inbox == s.d.inbox
  {
    hide HasStarted, First, FailuresOf, NextUndo;
  }

  /** Acts that lose their effect, or are no live act, do not append operations' events. */
  lemma {:induction false} LostAppendsNothing(p: Program, s: State, act: Act, s': State)
    requires Next(p, s, act) == Some(s') && (IsLost(act) || act.Boot? || act.Crash? || act.Back? || act.Join?)
    ensures s'.d.journal == s.d.journal
  {
    hide Recorded, Diverges, Opening, Progress, Definition, Invocation, UndoProgress, HasStarted, NextUndo;
  }

  lemma {:induction false} RunningMirrored(p: Program, s: State, t: State, F: seq<Outcome>, act: Act, s': State,
      G: seq<Outcome>, fair: bool)
    returns (acts: seq<Act>, t': State)
    requires IsPath(p.body, F, 0) && IsPath(p.body, G, 0) && Mirrors(p, s, t, F, fair) && s.d.record.Running?
    requires Next(p, s, act) == Some(s') && InvAt(p, s', G) && InOrder(p, s', G, fair) && |F| <= |G| && F == G[..|F|]
    ensures Uninterrupted(acts) && Exec(p, t, acts) == Some(t') && Mirrors(p, s', t', G, fair)
  {
    hide Next, InvAt, InOrder, Comps, SameRun, IsPath;
    if act.Live? && s'.d.journal != s.d.journal {
      if act.lost { LostAppendsNothing(p, s, act, s'); }
      acts, t' := LiveMirrored(p, s, t, F, act.index, act.w, s', G, fair);
    } else {
      if s'.d.journal == s.d.journal {
        SameFrontier(p, s, F, s', G);
      } else {
        ActKeepsFrontier(p, s, F, act, s', G);
      }
      acts, t' := OtherMirrored(p, s, t, F, act, s', fair);
    }
  }

  lemma {:induction false} OtherMirrored(p: Program, s: State, t: State, F: seq<Outcome>, act: Act, s': State,
      fair: bool)
    returns (acts: seq<Act>, t': State)
    requires IsPath(p.body, F, 0) && Mirrors(p, s, t, F, fair) && s.d.record.Running?
    requires Next(p, s, act) == Some(s') && InvAt(p, s', F) && InOrder(p, s', F, fair)
    requires act.Live? ==> s'.d.journal == s.d.journal
    ensures Uninterrupted(acts) && Exec(p, t, acts) == Some(t') && Mirrors(p, s', t', F, fair)
  {
    hide Next, InvAt, InOrder, Comps, SameRun, Mirrors;
    if act.Start? {
      t' := StartMirrored(p, s, t, F, act.now, s', fair);
    } else if act.Deliver? {
      t' := DeliverMirrored(p, s, t, F, act.name, act.payload, s', fair);
    } else if act.Conclude? {
      t' := ConcludeMirrored(p, s, t, F, act.now, s', fair);
    } else if act.Acknowledge? {
      t' := AcknowledgeMirrored(p, s, t, F, act.seqNo, s', fair);
    } else if act.Compensate? && !act.lost {
      t' := CompensateMirrored(p, s, t, F, act.w, s', fair);
    } else {
      if !act.Live? { LostAppendsNothing(p, s, act, s'); }
      QuietMirrored(p, s, t, F, act, s', fair);
      t' := t;
      acts := [];
      return;
    }
    OneMore(p, t, act, t');
    acts := [act];
  }

  /** Under these acts the compensated operations of each gather come back in turn. */
  ghost predicate FairActs(p: Program, s: State, acts: seq<Act>)
    decreases |acts|
  {
    acts == [] || (InTurn(p, s, acts[0]) && var s' := Next(p, s, acts[0]); s'.Some? ==> FairActs(p, s'.value, acts[1..]))
  }

  /** One act of a run and what its mirror does meanwhile. */
  lemma {:induction false} NextMirrored(p: Program, s: State, t: State, F: seq<Outcome>, act: Act, s': State,
      G: seq<Outcome>, fair: bool)
    returns (acts: seq<Act>, t': State)
    requires (fair ==> InTurn(p, s, act)) && Next(p, s, act) == Some(s') && |F| <= |G| && F == G[..|F|]
    requires IsPath(p.body, F, 0) && IsPath(p.body, G, 0) && Mirrors(p, s, t, F, fair) && InvAt(p, s', G)
    requires p.body(G).Raise? ==> fair || LoneUndos(p.body, G, 0)
    ensures Uninterrupted(acts) && Exec(p, t, acts) == Some(t') && Mirrors(p, s', t', G, fair)
  {
    hide Next, InvAt, SagaOk, Comps, SameRun, IsPath, LoneUndos, InTurn;
    OneActInOrder(p, s, F, act, s', G, fair);
    if s.d.record.Running? {
      acts, t' := RunningMirrored(p, s, t, F, act, s', G, fair);
    } else {
      TerminalIsFinished(p, s, F);
      FinishedStepIsQuiet(p, s, F, act, s');
      SameFrontier(p, s, F, s', G);
      acts, t' := EndedMirrored(p, s, t, F, act, s', fair);
    }
  }

  /** Where a body raises the recorded history ends for good. */
  lemma {:induction false} RaiseIsFinal(p: Program, s: State, F: seq<Outcome>, acts: seq<Act>, s': State,
      G: seq<Outcome>)
    requires InvAt(p, s, F) && Exec(p, s, acts) == Some(s') && InvAt(p, s', G)
    requires IsPath(p.body, F, 0) && IsPath(p.body, G, 0)
    ensures |F| <= |G| && F == G[..|F|] && (p.body(F).Raise? ==> F == G)
  {
    hide InvAt, Exec, IsPath;
    var H := ExecKeeps(p, s, F, acts, s');
    SameFrontier(p, s', H, s', G);
    if |F| < |G| {
      PathPrefix(p.body, F, G, 0);
    }
  }

  lemma {:induction false} RunMirrored(p: Program, s: State, t: State, F: seq<Outcome>, acts: seq<Act>, s': State,
      G: seq<Outcome>, fair: bool)
    returns (clean: seq<Act>, t': State)
    requires (fair ==> FairActs(p, s, acts)) && Exec(p, s, acts) == Some(s')
    requires IsPath(p.body, F, 0) && IsPath(p.body, G, 0) && Mirrors(p, s, t, F, fair) && InvAt(p, s', G)
    requires p.body(G).Raise? ==> fair || LoneUndos(p.body, G, 0)
    ensures Uninterrupted(clean) && Exec(p, t, clean) == Some(t') && SameRun(s'.d, t'.d)
    decreases |acts|
  {
    hide Next, InvAt, InOrder, Comps, SameRun, IsPath, LoneUndos, InTurn;
    if acts == [] {
      clean, t' := [], t;
    } else {
      var mid := Next(p, s, acts[0]).value;
      var H := NextKeeps(p, s, F, acts[0], mid);
      JournalPart(p, mid, H);
      PathOf(p, mid.d.journal, H);
      RaiseIsFinal(p, mid, H, acts[1..], s', G);
      var first, next := NextMirrored(p, s, t, F, acts[0], mid, H, fair);
      var rest;
      rest, t' := RunMirrored(p, mid, next, H, acts[1..], s', G, fair);
      ExecConcat(p, t, first, next, rest, t');
      clean := first + rest;
    }
  }

  /** The mirror sets out from a run at rest: it boots and replays what is recorded. */
  lemma {:induction false} SetsOut(p: Program, s: State, F: seq<Outcome>, fair: bool)
    returns (acts: seq<Act>, t: State)
    requires IsPath(p.body, F, 0) && InvAt(p, s, F) && InOrder(p, s, F, fair) && s.v.None? && s.d.record.Running?
    ensures Uninterrupted(acts) && Exec(p, s, [Boot] + acts) == Some(t) && Mirrors(p, s, t, F, fair)
  {
    hide Good, DriverOk, InOrder, IsPath, Comps, HasStarted, Exec, JournalOk;
    var booted := State(s.d, Some(Driver([], {}, [])));
    assert booted.v == Some(CaughtUp(p, [])) && IsPath(p.body, [], 0) by { NoComps(p.body); }
    BootKeeps(p, s, F);
    JournalPart(p, s, F);
    OneMore(p, s, Boot, booted);
    if HasStarted(s.d.journal) {
      var undos;
      acts, undos := CatchUp(p, s.d, [], F, F, []);
      assert Comps(p.body, [], 0) == [] by { NoComps(p.body); }
    } else {
      NotStartedIsEmpty(p, s.d.journal, F);
      acts := [];
      assert Exec(p, booted, []) == Some(booted) by { NoActs(p, booted); }
    }
    t := State(s.d, Some(CaughtUp(p, F)));
    var H := ExecKeeps(p, booted, F, acts, t);
    SameFrontier(p, s, F, t, H);
    ExecConcat(p, s, [Boot], booted, acts, t);
  }

  /** Crash transparency. From its creation, from a rewind, from a takeover by changed code or from any
      crash on: however often a run then crashes, loses work and resumes, it has the journal, outcome,
      successor and signals of a run that was driven on once without any interruption. Only a body that
      raises after some gather registered several compensations needs those operations to come back in turn. */
  lemma {:induction false} CrashesAreInvisible(p: Program, start: State, acts: seq<Act>, s: State)
    returns (clean: seq<Act>, t: State)
    requires Reachable(p, start) && start.v.None? && start.d.record.Running? && Exec(p, start, acts) == Some(s)
    requires var G := Replay(p.body, s.d.journal, []);
             p.body(G).Raise? ==> LoneUndos(p.body, G, 0) || (FairlyReached(p, start) && FairActs(p, start, acts))
    ensures Uninterrupted(clean) && Exec(p, start, [Boot] + clean) == Some(t)
    ensures SameRun(s.d, t.d)
  {
    hide InvAt, SagaOk, IsPath, Comps, Exec, FairlyReached, FairActs, SameRun, Replay, LoneUndos, Reachable;
    var fair := FairlyReached(p, start) && FairActs(p, start, acts);
    var F := ReachableIsSagaOk(p, start, fair);
    StaysReachable(p, start, acts, s);
    var G := ReachableIsSagaOk(p, s, false);
    RaiseIsFinal(p, start, F, acts, s, G);
    var first, mid := SetsOut(p, start, F, fair);
    var rest;
    rest, t := RunMirrored(p, start, mid, F, acts, s, G, fair);
    ExecConcat(p, start, [Boot] + first, mid, rest, t);
    clean := first + rest;
    assert [Boot] + first + rest == [Boot] + clean;
  }
}
