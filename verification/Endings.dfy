/** The acts after the body is done, compensating and concluding, keep the invariant; so does every act. */
module Endings {
  import opened Wrappers
  import opened Events
  import opened Engine
  import opened Lanes
  import opened Paths
  import opened Invariant
  import opened Preservation

  // ---- compensating ----

  /** With a registered compensation unsettled, no terminal event and no terminal record exist. */
  lemma {:induction false} UnsettledIsOpen(p: Program, d: Durable, F: seq<Outcome>, c: Comp)
    requires Good(p, d, F) && p.body(F).Raise?
    requires c in Comps(p.body, F, 0) && !Settled(At(d.journal, UndoLane(c.opId)))
    ensures forall x :: x in At(d.journal, RunLane) ==> x.fact.Kind() !in TERMINAL_RUN_KINDS
    ensures d.record.Running? && d.successor.None?
  {
    hide Settled, PastOk, FrontOk, UndoOk, RunOk, Numbered, SignalsOk, FailureList;
    forall x | x in At(d.journal, RunLane)
      ensures x.fact.Kind() !in TERMINAL_RUN_KINDS
    {
    }
  }

  /** One more event in a compensation's lane keeps every compensation lane's shape. */
  lemma {:induction false} UndoAppend(p: Program, journal: Log, F: seq<Outcome>, c: Comp, w: World, e: Event)
    requires IsPath(p.body, F, 0) && UndoOk(p, journal, F) && p.body(F).Raise? && c in Comps(p.body, F, 0)
    requires !Settled(At(journal, UndoLane(c.opId)))
    requires UndoProgress(c.undo, At(journal, UndoLane(c.opId)), w) == Some(e.fact) && e.ts == w.now + w.took
    requires LaneOf(e) == UndoLane(c.opId)
    ensures UndoOk(p, journal + [e], F)
  {
    hide Settled, UndoProgress, UndoShape, LaneOf, IsPath, Comps, At;
    AtAppend(journal, e);
    var lane := At(journal, UndoLane(c.opId));
    assert UndoShape(c.undo, lane) == true by {
      if lane == [] {
        NoTries(c.undo);
      } else {
        var c' :| c' in Comps(p.body, F, 0) && c'.opId == c.opId && UndoShape(c'.undo, lane);
        CompsAreDistinct(p.body, F, c, c');
      }
    }
    UndoKeepsShape(c.undo, lane, w, e.fact);
    forall id | At(journal + [e], UndoLane(id)) != []
      ensures exists x :: x in Comps(p.body, F, 0) && x.opId == id && UndoShape(x.undo, At(journal + [e], UndoLane(id)))
    {
      if id == c.opId {
        assert UndoShape(c.undo, At(journal + [e], UndoLane(c.opId)));
      } else {
        assert At(journal + [e], UndoLane(id)) == At(journal, UndoLane(id));
      }
    }
  }

  lemma {:induction false} NoTries(undo: Undo)
    ensures UndoShape(undo, [])
  {
  }

  /** An append outside the operations' lanes leaves the frontier batch alone. */
  lemma {:induction false} FrontStays(p: Program, journal: Log, F: seq<Outcome>, e: Event)
    requires FrontOk(p, journal, F) && PastOk(p, journal, F) && !LaneOf(e).OpLane?
    ensures FrontOk(p, journal + [e], F) && PastOk(p, journal + [e], F)
  {
    hide Shape, Recorded, LaneOf;
    AtAppend(journal, e);
    PastKeeps(p, journal, F, e);
    assert forall id :: At(journal + [e], OpLane(id)) == At(journal, OpLane(id));
    var ops := p.body(F).Ops();
    if ops != [] {
      var i :| 0 <= i < |ops| && Recorded(ops[i], |F| + i, At(journal, OpLane(|F| + i))).None?;
      assert Recorded(ops[i], |F| + i, At(journal + [e], OpLane(|F| + i))).None?;
    }
    forall i | 0 <= i < |ops|
      ensures Shape(ops[i], At(journal + [e], OpLane(|F| + i))) == true
    {
      assert At(journal + [e], OpLane(|F| + i)) == At(journal, OpLane(|F| + i));
    }
  }

  /** The driver does not notice appends outside the operations' lanes. */
  lemma {:induction false} DriverStays(p: Program, journal: Log, F: seq<Outcome>, v: Driver, e: Event)
    requires DriverOk(p, journal, F, v) && !LaneOf(e).OpLane?
    ensures DriverOk(p, journal + [e], F, v)
  {
    hide Recorded, CompOf, LaneOf, InBatch;
    AtAppend(journal, e);
    var ops, base := p.body(v.h).Ops(), |v.h|;
    assert forall id :: At(journal + [e], OpLane(id)) == At(journal, OpLane(id));
    forall c
      ensures InBatch(ops, base, v.returned, journal, c) <==> InBatch(ops, base, v.returned, journal + [e], c)
    {
      BatchUnchanged(ops, base, v.returned, journal, journal + [e], c);
      BatchUnchanged(ops, base, v.returned, journal + [e], journal, c);
    }
  }

  lemma {:induction false} CompensateAppendKeeps(p: Program, d: Durable, F: seq<Outcome>, v: Driver, c: Comp,
      w: World, e: Event, calls: seq<Call>)
    requires Good(p, d, F) && DriverOk(p, d.journal, F, v) && HasStarted(d.journal)
    requires p.body(F).Raise? && c in Comps(p.body, F, 0)
    requires !Settled(At(d.journal, UndoLane(c.opId)))
    requires UndoProgress(c.undo, At(d.journal, UndoLane(c.opId)), w) == Some(e.fact)
    requires e.ts == w.now + w.took && e.opId == c.opId && e.seqNo == |d.journal|
    ensures Good(p, d.(journal := d.journal + [e], calls := calls), F) && DriverOk(p, d.journal + [e], F, v)
  {
    hide Settled, UndoProgress, LaneOf, DriverOk, PastOk, FrontOk, RunOk, UndoOk, Numbered, SignalsOk, Comps,
        HasStarted;
    PathOf(p, d.journal, F);
    UnsettledIsOpen(p, d, F, c);
    UndoLaneOfFact(c.undo, At(d.journal, UndoLane(c.opId)), w, e);
    UndoAppend(p, d.journal, F, c, w, e);
    FrontStays(p, d.journal, F, e);
    NumberedAppend(d.journal, e);
    RunKeeps(p, d.journal, e);
    DriverStays(p, d.journal, F, v, e);
    SignalsAppend(d, e);
    SignalsSame(d.(journal := d.journal + [e]), d.(journal := d.journal + [e], calls := calls));
  }

  lemma {:induction false} CompensateKeeps(p: Program, s: State, F: seq<Outcome>, w: World, lost: bool, s': State)
    requires InvAt(p, s, F) && Next(p, s, Compensate(w, lost)) == Some(s')
    ensures InvAt(p, s', F)
  {
    hide Settled, UndoProgress, DriverOk, JournalOk, SignalsOk, RecordOk, SuccessorOk, HasStarted, Comps;
    var v, journal := s.v.value, s.d.journal;
    PathOf(p, journal, F);
    DoneMeansFrontier(p, journal, F, v);
    var c := NextUndo(v.stack, journal).value;
    var fact := UndoProgress(c.undo, At(journal, UndoLane(c.opId)), w);
    SignalsSame(s.d, s.d.(calls := s'.d.calls));
    CallsDoNotMatter(p, s.d, F, s'.d.calls);
    if fact.Some? && !lost {
      var e := Event(|journal|, c.opId, fact.value, w.now + w.took);
      CompensateAppendKeeps(p, s.d, F, v, c, w, e, s'.d.calls);
    }
  }

  lemma {:induction false} CallsDoNotMatter(p: Program, d: Durable, F: seq<Outcome>, calls: seq<Call>)
    requires Good(p, d, F)
    ensures Good(p, d.(calls := calls), F)
  {
    hide JournalOk;
    PathOf(p, d.journal, F);
  }

  lemma {:induction false} UndoLaneOfFact(undo: Undo, lane: seq<Entry>, w: World, e: Event)
    requires UndoProgress(undo, lane, w) == Some(e.fact)
    ensures LaneOf(e) == UndoLane(e.opId) && !e.fact.EventConsumed?
  {
  }

  // ---- concluding ----

  /** A terminal event that says what the body does can be appended to an open run. */
  lemma {:induction false} TerminalAppend(p: Program, d: Durable, F: seq<Outcome>, fact: Fact, now: Time)
    requires Good(p, d, F) && HasStarted(d.journal) && p.body(F).Ops() == []
    requires forall x :: x in At(d.journal, RunLane) ==> x.fact.Kind() !in TERMINAL_RUN_KINDS
    requires d.record.Running? && d.successor.None?
    requires fact.Kind() in TERMINAL_RUN_KINDS && TerminalOk(p, d.journal, F, fact)
    ensures Good(p, Append(d, -1, fact, now), F)
  {
    hide PastOk, FrontOk, UndoOk, Settled, FailureList, Comps, IsPath, At;
    var e := Event(|d.journal|, -1, fact, now);
    AtAppend(d.journal, e);
    PathOf(p, d.journal, F);
    FrontStays(p, d.journal, F, e);
    NumberedAppend(d.journal, e);
    SignalsAppend(d, e);
    UndoStays(p, d.journal, F, e);
    TerminalStays(p, d.journal, F, fact, e);
    RunGrows(p, d.journal, e);
  }

  lemma {:induction false} RunGrows(p: Program, journal: Log, e: Event)
    requires RunOk(p, journal) && HasStarted(journal) && LaneOf(e) == RunLane
    requires e.fact.Kind() in TERMINAL_RUN_KINDS
    requires forall x :: x in At(journal, RunLane) ==> x.fact.Kind() !in TERMINAL_RUN_KINDS
    ensures RunOk(p, journal + [e])
  {
    AtAppend(journal, e);
    var run := At(journal, RunLane);
    FirstSnoc(run, Entry(e.fact, e.ts), RUN_STARTED);
    forall i | 0 <= i < |run|
      ensures run[i].fact.Kind() !in TERMINAL_RUN_KINDS
    {
      assert run[i] in run;
    }
  }

  lemma {:induction false} UndoStays(p: Program, journal: Log, F: seq<Outcome>, e: Event)
    requires IsPath(p.body, F, 0) && UndoOk(p, journal, F) && LaneOf(e) == RunLane
    ensures UndoOk(p, journal + [e], F)
  {
    hide UndoShape, LaneOf, Comps;
    AtAppend(journal, e);
    assert forall id :: At(journal + [e], UndoLane(id)) == At(journal, UndoLane(id));
    forall id | At(journal + [e], UndoLane(id)) != []
      ensures exists c :: c in Comps(p.body, F, 0) && c.opId == id && UndoShape(c.undo, At(journal + [e], UndoLane(id)))
    {
      var c :| c in Comps(p.body, F, 0) && c.opId == id && UndoShape(c.undo, At(journal, UndoLane(id)));
      assert UndoShape(c.undo, At(journal + [e], UndoLane(id)));
    }
  }

  /** What a terminal event says stays true while the compensation lanes stay as they are. */
  lemma {:induction false} TerminalStays(p: Program, journal: Log, F: seq<Outcome>, fact: Fact, e: Event)
    requires IsPath(p.body, F, 0) && TerminalOk(p, journal, F, fact) && LaneOf(e) == RunLane
    ensures TerminalOk(p, journal + [e], F, fact)
  {
    hide Settled, LaneOf, Comps;
    AtAppend(journal, e);
    assert forall id :: At(journal + [e], UndoLane(id)) == At(journal, UndoLane(id));
    if fact.RunFailed? {
      FailureListStays(p, journal, journal + [e], F, fact.failures);
    }
  }

  lemma {:induction false} FailureListStays(p: Program, j: Log, k: Log, F: seq<Outcome>, failures: seq<UndoFailure>)
    requires IsPath(p.body, F, 0) && FailureList(p, j, F, failures)
    requires forall id :: At(j, UndoLane(id)) == At(k, UndoLane(id))
    ensures FailureList(p, k, F, failures)
  {
    hide FailuresOf, Comps;
    var stack :| Orders(stack, Comps(p.body, F, 0)) && failures == FailuresOf(stack, j);
    FailuresStable(stack, j, k);
    assert FailuresOf(stack, k) == failures;
  }

  /** Before the body's own terminal kind is journaled, no terminal event is. */
  lemma {:induction false} OpenUntilOwnKind(p: Program, d: Durable, F: seq<Outcome>, kind: Kind)
    requires Good(p, d, F) && First(At(d.journal, RunLane), kind).None?
    requires match p.body(F) case Return(_) => kind == RUN_COMPLETED case Raise(_) => kind == RUN_FAILED
             case ContinueAsNew(_) => kind == RUN_CONTINUED case Await(_, _) => false
    ensures forall x :: x in At(d.journal, RunLane) ==> x.fact.Kind() !in TERMINAL_RUN_KINDS
    ensures d.record.Running? && d.successor.None?
  {
    hide PastOk, FrontOk, UndoOk, RunOk, Numbered, SignalsOk, FailureList, AllSettled, First;
    LoggedIsFound(d.journal, kind);
    forall x | x in At(d.journal, RunLane)
      ensures x.fact.Kind() !in TERMINAL_RUN_KINDS
    {
    }
  }

  lemma {:induction false} ReturnKeeps(p: Program, s: State, F: seq<Outcome>, now: Time, s': State)
    requires InvAt(p, s, F) && Next(p, s, Conclude(now)) == Some(s') && p.body(s.v.value.h).Return?
    ensures InvAt(p, s', F)
  {
    hide JournalOk, SignalsOk, DriverOk, First, HasStarted;
    var v := s.v.value;
    DoneMeansFrontier(p, s.d.journal, F, v);
    PathOf(p, s.d.journal, F);
    LoggedIsFound(s.d.journal, RUN_COMPLETED);
    var fact := RunCompleted(p.body(F).result);
    if First(At(s.d.journal, RunLane), RUN_COMPLETED).None? {
      OpenUntilOwnKind(p, s.d, F, RUN_COMPLETED);
      TerminalAppend(p, s.d, F, fact, now);
      DriverStays(p, s.d.journal, F, v, Event(|s.d.journal|, -1, fact, now));
    }
    SignalsSame(s.d, s'.d);
  }

  lemma {:induction false} ContinueKeeps(p: Program, s: State, F: seq<Outcome>, now: Time, s': State)
    requires InvAt(p, s, F) && Next(p, s, Conclude(now)) == Some(s') && p.body(s.v.value.h).ContinueAsNew?
    ensures InvAt(p, s', F)
  {
    hide JournalOk, SignalsOk, DriverOk, First, HasStarted;
    var v := s.v.value;
    DoneMeansFrontier(p, s.d.journal, F, v);
    PathOf(p, s.d.journal, F);
    LoggedIsFound(s.d.journal, RUN_CONTINUED);
    var fact := RunContinued(p.nextRunId, p.body(F).args);
    if First(At(s.d.journal, RunLane), RUN_CONTINUED).None? {
      OpenUntilOwnKind(p, s.d, F, RUN_CONTINUED);
      TerminalAppend(p, s.d, F, fact, now);
      DriverStays(p, s.d.journal, F, v, Event(|s.d.journal|, -1, fact, now));
    }
    SignalsSame(s.d, s'.d);
  }

  /** The signal clauses read the journal's consumptions and the inbox only. */
  lemma {:induction false} SignalsSame(d: Durable, d': Durable)
    requires SignalsOk(d) && d'.inbox == d.inbox
    requires d'.journal == d.journal || (|d'.journal| == |d.journal| + 1 && d'.journal[..|d.journal|] == d.journal &&
                                         !d'.journal[|d.journal|].fact.EventConsumed?)
    ensures SignalsOk(d')
  {
    if d'.journal != d.journal {
      var e := d'.journal[|d.journal|];
      assert d'.journal == d.journal + [e];
      SignalsAppend(d, e);
    }
  }

  lemma {:induction false} RaiseKeeps(p: Program, s: State, F: seq<Outcome>, now: Time, s': State)
    requires InvAt(p, s, F) && Next(p, s, Conclude(now)) == Some(s') && p.body(s.v.value.h).Raise?
    ensures InvAt(p, s', F)
  {
    hide JournalOk, SignalsOk, DriverOk, First, HasStarted, Settled, FailuresOf, At, IsPath, NextUndo;
    var v := s.v.value;
    DoneMeansFrontier(p, s.d.journal, F, v);
    PathOf(p, s.d.journal, F);
    LoggedIsFound(s.d.journal, RUN_FAILED);
    var failures, comps := FailuresOf(v.stack, s.d.journal), Comps(p.body, F, 0);
    assert FailureList(p, s.d.journal, F, failures);
    HasMember(v.stack);
    HasMember(comps);
    var fact := RunFailed(p.body(F).error, failures == [] && v.stack != [], failures);
    if First(At(s.d.journal, RunLane), RUN_FAILED).None? {
      OpenUntilOwnKind(p, s.d, F, RUN_FAILED);
      TerminalAppend(p, s.d, F, fact, now);
      DriverStays(p, s.d.journal, F, v, Event(|s.d.journal|, -1, fact, now));
    }
    SignalsSame(s.d, s'.d);
  }

  // ---- every act ----

  /** One act of the engine, whichever it is, keeps the invariant and never moves the frontier back. */
  lemma {:induction false} NextKeeps(p: Program, s: State, F: seq<Outcome>, act: Act, s': State)
    returns (G: seq<Outcome>)
    requires InvAt(p, s, F) && Next(p, s, act) == Some(s')
    ensures InvAt(p, s', G) && |F| <= |G| && F == G[..|F|]
  {
    hide Good, DriverOk;
    G := F;
    match act
    case Boot => BootKeeps(p, s, F);
    case Crash =>
    case Start(now) => StartKeeps(p, s, F, now, s');
    case Deliver(name, payload) => DeliverKeeps(p, s, F, name, payload, s');
    case Live(index, w, lost) => G := LiveKeeps(p, s, F, index, w, lost, s');
    case Acknowledge(seqNo) => AcknowledgeKeeps(p, s, F, seqNo, s');
    case Back(index) => BackKeeps(p, s, F, index, s');
    case Join => JoinKeeps(p, s, F, s');
    case Compensate(w, lost) => CompensateKeeps(p, s, F, w, lost, s');
    case Conclude(now) =>
      match p.body(s.v.value.h)
      case Return(_) => ReturnKeeps(p, s, F, now, s');
      case Raise(_) => RaiseKeeps(p, s, F, now, s');
      case ContinueAsNew(_) => ContinueKeeps(p, s, F, now, s');
  }

  /** A run keeps the invariant under any schedule of acts. */
  lemma {:induction false} ExecKeeps(p: Program, s: State, F: seq<Outcome>, acts: seq<Act>, s': State)
    returns (G: seq<Outcome>)
    requires InvAt(p, s, F) && Exec(p, s, acts) == Some(s')
    ensures InvAt(p, s', G) && |F| <= |G| && F == G[..|F|]
    decreases |acts|
  {
    hide InvAt, Next;
    if acts == [] {
      G := F;
    } else {
      var mid := Next(p, s, acts[0]).value;
      var H := NextKeeps(p, s, F, acts[0], mid);
      G := ExecKeeps(p, mid, H, acts[1..], s');
    }
  }
}
