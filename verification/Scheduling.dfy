/** The scheduler: any number of workers with stale snapshots fire one schedule's ticks, crash between
    starting a run and recording it, and meet pauses and resumes. Instants are seconds since
    0001-01-01T00:00:00Z. */
module Scheduling {
  import opened Wrappers
  import opened Cron
  import opened Ticks

  type Moment = r: real | r >= 0.0

  // ---- schedule specs ----

  datatype Spec = Every(seconds: real) | Once(at: Moment) | Crontab(expr: CronExpr) {
    ghost predicate Valid() {
      match this
      case Every(seconds) => seconds > 0.0
      case Once(_) => true
      case Crontab(expr) => expr.Valid()
    }

    ghost function FirstFireAt(now: Moment): Option<Moment>
      requires Valid()
    {
      match this
      case Every(seconds) => Some(now + seconds)
      case Once(at) => Some(at)
      case Crontab(_) => NextAfter(now)
    }

    ghost function NextAfter(ts: Moment): Option<Moment>
      requires Valid()
    {
      match this
      case Every(seconds) => Some(ts + seconds)
      case Once(at) => if at > ts then Some(at) else None
      case Crontab(expr) =>
        var next := NextFiring(expr, ts.Floor);
        if next.Some? then Some(next.value as real) else None
    }
  }

  /** No firing counts as later than any. */
  predicate NotEarlier(a: Option<Moment>, b: Option<Moment>) {
    b.None? || (a.Some? && a.value <= b.value)
  }

  lemma {:induction false} NextAfterIsLater(spec: Spec, ts: Moment)
    requires spec.Valid()
    ensures spec.NextAfter(ts).Some? ==> spec.NextAfter(ts).value > ts
  {
    hide NextFiring;
    if spec.Crontab? {
      FiringIsLater(spec.expr, ts.Floor);
    }
  }

  lemma {:induction false} FiringIsLater(e: CronExpr, ts: nat)
    ensures NextFiring(e, ts).Some? ==> NextFiring(e, ts).value >= ts + 1
  {
  }

  lemma {:induction false} NextAfterIsMonotone(spec: Spec, a: Moment, b: Moment)
    requires spec.Valid() && a <= b
    ensures NotEarlier(spec.NextAfter(a), spec.NextAfter(b))
  {
    hide NextFiring, CronExpr.Fires;
    if spec.Crontab? {
      var x, y := a.Floor, b.Floor;
      if NextFiring(spec.expr, x).Some? {
        NextFiringIsMonotone(spec.expr, x, y);
      } else {
        GivesUpOnlyOnTheUnsatisfiable(spec.expr, x);
        GivesUpOnlyOnTheUnsatisfiable(spec.expr, y);
      }
    }
  }

  /** The next firing from `now` is due by `t` already: an interval has no grid, so any later `t` passes it. */
  ghost predicate Passed(spec: Spec, now: Moment, t: Moment)
    requires spec.Valid()
  {
    match spec
    case Every(_) => now < t
    case _ => spec.NextAfter(now).Some? && spec.NextAfter(now).value <= t
  }

  /** Counting from `now` gives an earlier firing than counting from `t` exactly when `t` has passed that firing. */
  lemma {:induction false} EarlierMeansPassed(spec: Spec, now: Moment, t: Moment)
    requires spec.Valid()
    ensures !NotEarlier(spec.NextAfter(t), spec.NextAfter(now)) <==> Passed(spec, now, t)
  {
    hide NextFiring, CronExpr.Fires;
    match spec
    case Every(_) =>
    case Once(_) =>
    case Crontab(e) =>
      NextAfterIsLater(spec, t);
      NextAfterIsLater(spec, now);
      if t <= now {
        NextAfterIsMonotone(spec, t, now);
      } else if spec.NextAfter(now).Some? {
        assert NextFiring(e, now.Floor).Some?;
        NextFiringIsMonotone(e, now.Floor, t.Floor);
      }
  }

  lemma {:induction false} FirstIsNotLate(spec: Spec, now: Moment)
    requires spec.Valid()
    ensures NotEarlier(spec.FirstFireAt(now), spec.NextAfter(now))
  {
  }

  /** When a new schedule first fires: an interval after its creation, at its one instant, or at the first
      second after its creation that the cron expression matches. */
  lemma {:induction false} FirstFiringIs(spec: Spec, now: Moment)
    requires spec.Valid()
    ensures spec.Every? ==> spec.FirstFireAt(now) == Some(now + spec.seconds)
    ensures spec.Once? ==> spec.FirstFireAt(now) == Some(spec.at)
    ensures spec.Crontab? && spec.FirstFireAt(now).Some? ==>
              var first := spec.FirstFireAt(now).value;
              first == first.Floor as real && first > now && spec.expr.Fires(first.Floor) &&
              forall t: nat :: t as real > now && t < first.Floor ==> !spec.expr.Fires(t)
    ensures spec.Crontab? && spec.FirstFireAt(now).None? ==> forall t: nat :: !spec.expr.Fires(t)
  {
    hide CronExpr.Fires, CronExpr.Valid;
    if spec.Crontab? {
      GivesUpOnlyOnTheUnsatisfiable(spec.expr, now.Floor);
    }
  }

  // ---- the schedule table and its workers ----

  datatype Schedule = Schedule(id: string, spec: Spec)

  datatype Row = Row(paused: bool, next: Option<Moment>, lastRun: Option<string>)

  /** What a worker is in the middle of. `seen` is not stored: how many writes of the next fire time
      there had been when a resume read the clock. */
  datatype Task =
    | Firing(fireAt: Moment, now: Moment, started: bool)
    | Resuming(now: Moment, seen: nat)

  /** Three parts are not stored: the fire times a compare-and-set succeeded on (`advances`), those a run
      record was created for (`created`), and the instants that the writes of the next fire time were
      computed from (`writes`), in order. */
  datatype Table = Table(
    row: Row,
    runs: set<string>,
    tasks: map<nat, Task>,
    clock: Moment,
    advances: seq<Moment>,
    created: seq<Moment>,
    writes: seq<Moment>)

  datatype Act =
    | Tick(to: Moment)
    | See(worker: nat, now: Moment)
    | Start(worker: nat)
    | Advance(worker: nat)
    | Skip(worker: nat)
    | Crash(worker: nat)
    | Pause
    | BeginResume(worker: nat)
    | FinishResume(worker: nat)

  function RunOf(sched: Schedule, fireAt: Moment): string {
    ScheduledRunId(sched.id, MillisecondOf(fireAt))
  }

  function MillisecondOf(t: Moment): nat {
    (t * 1000.0).Floor
  }

  function Later(a: Moment, b: Moment): Moment {
    if a >= b then a else b
  }

  /** The compare-and-set that advances a schedule past a fire time. */
  ghost function Advanced(sched: Schedule, s: Table, worker: nat, lastRun: Option<string>): Table
    requires sched.spec.Valid() && worker in s.tasks && s.tasks[worker].Firing?
  {
    var task := s.tasks[worker];
    var rest := s.(tasks := s.tasks - {worker});
    if s.row.next != Some(task.fireAt) then rest
    else rest.(row := Row(s.row.paused, sched.spec.NextAfter(Later(task.fireAt, task.now)), lastRun),
               advances := s.advances + [task.fireAt],
               writes := s.writes + [Later(task.fireAt, task.now)])
  }

  ghost function Step(sched: Schedule, s: Table, act: Act): Option<Table>
    requires sched.spec.Valid()
  {
    match act
    case Tick(to) => if to < s.clock then None else Some(s.(clock := to))
    case See(worker, now) =>
      if worker in s.tasks || s.row.paused || s.row.next.None? || s.row.next.value > now || now > s.clock then None
      else Some(s.(tasks := s.tasks[worker := Firing(s.row.next.value, now, false)]))
    case Start(worker) =>
      if worker !in s.tasks || !s.tasks[worker].Firing? || s.tasks[worker].started then None
      else
        var task := s.tasks[worker];
        var run := RunOf(sched, task.fireAt);
        var s' := s.(tasks := s.tasks[worker := task.(started := true)]);
        if run in s.runs then Some(s') else Some(s'.(runs := s.runs + {run}, created := s.created + [task.fireAt]))
    case Advance(worker) =>
      if worker !in s.tasks || !s.tasks[worker].Firing? || !s.tasks[worker].started then None
      else Some(Advanced(sched, s, worker, Some(RunOf(sched, s.tasks[worker].fireAt))))
    case Skip(worker) =>
      if worker !in s.tasks || !s.tasks[worker].Firing? || s.tasks[worker].started then None
      else Some(Advanced(sched, s, worker, s.row.lastRun))
    case Crash(worker) => Some(s.(tasks := s.tasks - {worker}))
    case Pause => Some(s.(row := s.row.(paused := true)))
    case BeginResume(worker) =>
      if worker in s.tasks then None else Some(s.(tasks := s.tasks[worker := Resuming(s.clock, |s.writes|)]))
    case FinishResume(worker) =>
      if worker !in s.tasks || !s.tasks[worker].Resuming? then None
      else
        var now := s.tasks[worker].now;
        Some(s.(tasks := s.tasks - {worker},
                row := s.row.(paused := false, next := sched.spec.NextAfter(now)),
                writes := s.writes + [now]))
  }

  ghost function Run(sched: Schedule, s: Table, acts: seq<Act>): Option<Table>
    requires sched.spec.Valid()
    decreases |acts|
  {
    if acts == [] then Some(s)
    else
      var s' := Step(sched, s, acts[0]);
      if s'.None? then None else Run(sched, s'.value, acts[1..])
  }

  ghost function Created(sched: Schedule, now: Moment): Table
    requires sched.spec.Valid()
  {
    Table(Row(false, sched.spec.FirstFireAt(now), None), {}, map[], now, [], [], [])
  }

  // ---- pausing ----

  /** The fire times that workers are about to fire. */
  ghost predicate PickedUp(s: Table, fireAt: Moment) {
    exists w :: w in s.tasks && s.tasks[w].Firing? && s.tasks[w].fireAt == fireAt
  }

  lemma {:induction false} PausedStep(sched: Schedule, s: Table, act: Act, s': Table)
    requires sched.spec.Valid() && s.row.paused && !act.FinishResume? && Step(sched, s, act) == Some(s')
    ensures s'.row.paused && forall t :: PickedUp(s', t) ==> PickedUp(s, t)
    ensures s.created <= s'.created && forall i :: |s.created| <= i < |s'.created| ==> PickedUp(s, s'.created[i])
  {
    forall t | PickedUp(s', t)
      ensures PickedUp(s, t)
    {
      var w :| w in s'.tasks && s'.tasks[w].Firing? && s'.tasks[w].fireAt == t;
      assert w in s.tasks && s.tasks[w].Firing? && s.tasks[w].fireAt == t;
    }
    if |s'.created| > |s.created| {
      assert act.Start? && s.tasks[act.worker].Firing? && s.tasks[act.worker].fireAt == s'.created[|s.created|];
    }
  }

  /** A paused schedule stops firing until it is resumed: whatever the workers do, no run is started but for a
      fire time that a worker had picked up before the pause, and none at all if no worker was at it. */
  lemma {:induction false} PausedStopsFiring(sched: Schedule, s: Table, acts: seq<Act>, s': Table)
    requires sched.spec.Valid() && s.row.paused && Run(sched, s, acts) == Some(s')
    requires forall i :: 0 <= i < |acts| ==> !acts[i].FinishResume?
    ensures s'.row.paused && s.created <= s'.created
    ensures forall i :: |s.created| <= i < |s'.created| ==> PickedUp(s, s'.created[i])
    decreases |acts|
  {
    hide Step, PickedUp, Spec.Valid;
    if acts != [] {
      var mid := Step(sched, s, acts[0]).value;
      PausedStep(sched, s, acts[0], mid);
      PausedStopsFiring(sched, mid, acts[1..], s');
      forall i | |s.created| <= i < |s'.created|
        ensures PickedUp(s, s'.created[i])
      {
        if i < |mid.created| {
          assert s'.created[i] == mid.created[i];
        }
      }
    }
  }

  /** Ticks missed while a schedule was paused are skipped: it goes on with the first one after the clock
      reading of its resume. */
  lemma {:induction false} ResumeSkips(sched: Schedule, s: Table, worker: nat, s': Table)
    requires sched.spec.Valid() && Step(sched, s, FinishResume(worker)) == Some(s')
    ensures worker in s.tasks && s.tasks[worker].Resuming? && !s'.row.paused
    ensures s'.row.next.Some? ==> s'.row.next.value > s.tasks[worker].now
    ensures s'.created == s.created
  {
    NextAfterIsLater(sched.spec, s.tasks[worker].now);
  }

  // ---- what every run of the scheduler keeps ----

  ghost predicate TaskOk(sched: Schedule, s: Table, task: Task)
    requires sched.spec.Valid()
  {
    match task
    case Firing(fireAt, now, started) => fireAt <= now <= s.clock && (started ==> RunOf(sched, fireAt) in s.runs)
    case Resuming(now, seen) =>
      && now <= s.clock && seen <= |s.writes|
      && (seen == |s.writes| ==> NotEarlier(s.row.next, sched.spec.NextAfter(now)))
  }

  ghost predicate Inv(sched: Schedule, s: Table)
    requires sched.spec.Valid()
  {
    && NotEarlier(s.row.next, sched.spec.NextAfter(s.clock))
    && (s.writes != [] ==> Last(s.writes) <= s.clock && s.row.next == sched.spec.NextAfter(Last(s.writes)))
    && (forall w :: w in s.tasks ==> TaskOk(sched, s, s.tasks[w]))
    && (s.row.lastRun.Some? ==> s.row.lastRun.value in s.runs)
    && OneRunPerTick(sched, s.runs, s.created)
  }

  function Last(writes: seq<Moment>): Moment
    requires writes != []
  {
    writes[|writes| - 1]
  }

  /** Each run record was created for one fire time, and no two of them in the same millisecond. */
  ghost predicate OneRunPerTick(sched: Schedule, runs: set<string>, created: seq<Moment>) {
    && (forall c :: c in created ==> RunOf(sched, c) in runs)
    && (forall r :: r in runs ==> exists c :: c in created && r == RunOf(sched, c))
    && (forall i, j :: 0 <= i < j < |created| ==> MillisecondOf(created[i]) != MillisecondOf(created[j]))
  }

  /** The next fire time was written since this resume read the clock, and the last such write was
      computed from an instant that had passed the firing the resume is about to write. */
  ghost predicate Overtaken(sched: Schedule, s: Table, act: Act)
    requires sched.spec.Valid()
  {
    && act.FinishResume? && act.worker in s.tasks && s.tasks[act.worker].Resuming?
    && var task := s.tasks[act.worker];
    && task.seen < |s.writes| && Passed(sched.spec, task.now, Last(s.writes))
  }

  lemma {:induction false} CreatedIsInv(sched: Schedule, now: Moment)
    requires sched.spec.Valid()
    ensures Inv(sched, Created(sched, now)) && Spent(Created(sched, now))
  {
    hide Spec.NextAfter, Spec.FirstFireAt;
    FirstIsNotLate(sched.spec, now);
  }

  /** Fire times already advanced past: strictly ascending, and before the next one. */
  ghost predicate Spent(s: Table) {
    Ascends(s.advances) && Before(s.advances, s.row.next)
  }

  ghost predicate Ascends(times: seq<Moment>) {
    forall i, j :: 0 <= i < j < |times| ==> times[i] < times[j]
  }

  ghost predicate Before(times: seq<Moment>, next: Option<Moment>) {
    forall i :: 0 <= i < |times| ==> next.None? || times[i] < next.value
  }

  lemma {:induction false} NewRun(sched: Schedule, runs: set<string>, created: seq<Moment>, fireAt: Moment)
    requires OneRunPerTick(sched, runs, created) && RunOf(sched, fireAt) !in runs
    ensures OneRunPerTick(sched, runs + {RunOf(sched, fireAt)}, created + [fireAt])
  {
    hide ScheduledRunId;
    forall c | c in created
      ensures MillisecondOf(c) != MillisecondOf(fireAt)
    {
      OneIdPerTick(sched.id, sched.id, MillisecondOf(c), MillisecondOf(fireAt));
    }
    var grown := created + [fireAt];
    assert grown[|created|] == fireAt;
    assert fireAt in grown;
    forall r | r in runs
      ensures exists c :: c in grown && r == RunOf(sched, c)
    {
      var c :| c in created && r == RunOf(sched, c);
      assert c in grown;
    }
  }

  /** A compare-and-set keeps the order, moves the schedule on, and leaves it no longer due. */
  lemma {:induction false} AdvanceKeeps(sched: Schedule, s: Table, worker: nat, lastRun: Option<string>)
    requires sched.spec.Valid() && Inv(sched, s) && worker in s.tasks && s.tasks[worker].Firing?
    requires lastRun.Some? ==> lastRun.value in s.runs
    ensures var s' := Advanced(sched, s, worker, lastRun);
            Inv(sched, s') && NotEarlier(s.row.next, s'.row.next) && (Spent(s) ==> Spent(s'))
    ensures var s', task := Advanced(sched, s, worker, lastRun), s.tasks[worker];
            s'.advances != s.advances ==> s'.row.next.None? || s'.row.next.value > task.now
  {
    hide Spec.NextAfter, ScheduledRunId, RunOf, OneRunPerTick;
    var task := s.tasks[worker];
    NextAfterIsMonotone(sched.spec, task.now, s.clock);
    NextAfterIsLater(sched.spec, task.now);
    assert Later(task.fireAt, task.now) == task.now;
  }

  /** A resume takes the next fire time back exactly when it was overtaken. */
  lemma {:induction false} ResumeKeeps(sched: Schedule, s: Table, worker: nat)
    requires sched.spec.Valid() && Inv(sched, s) && worker in s.tasks && s.tasks[worker].Resuming?
    ensures NotEarlier(s.row.next, sched.spec.NextAfter(s.tasks[worker].now)) <==> !Overtaken(sched, s, FinishResume(worker))
  {
    hide Spec.NextAfter, ScheduledRunId, RunOf, OneRunPerTick, Passed, NotEarlier;
    if s.tasks[worker].seen < |s.writes| {
      EarlierMeansPassed(sched.spec, s.tasks[worker].now, Last(s.writes));
    }
  }

  /** Every act keeps the invariant; an overtaken resume, and nothing else, takes the next fire time back. */
  lemma {:induction false} StepKeeps(sched: Schedule, s: Table, act: Act, s': Table)
    requires sched.spec.Valid() && Inv(sched, s) && Step(sched, s, act) == Some(s')
    ensures Inv(sched, s')
    ensures NotEarlier(s.row.next, s'.row.next) <==> !Overtaken(sched, s, act)
    ensures !Overtaken(sched, s, act) && Spent(s) ==> Spent(s')
  {
    hide Spec.NextAfter, ScheduledRunId, RunOf, OneRunPerTick, Advanced, Passed;
    match act
    case Tick(to) => NextAfterIsMonotone(sched.spec, s.clock, to);
    case Start(worker) =>
      if s'.runs != s.runs { NewRun(sched, s.runs, s.created, s.tasks[worker].fireAt); }
    case Advance(worker) => AdvanceKeeps(sched, s, worker, Some(RunOf(sched, s.tasks[worker].fireAt)));
    case Skip(worker) => AdvanceKeeps(sched, s, worker, s.row.lastRun);
    case FinishResume(worker) =>
      NextAfterIsMonotone(sched.spec, s.tasks[worker].now, s.clock);
      ResumeKeeps(sched, s, worker);
    case _ =>
  }

  // ---- whole runs ----

  ghost predicate NeverOvertaken(sched: Schedule, s: Table, acts: seq<Act>)
    requires sched.spec.Valid()
    decreases |acts|
  {
    acts == [] ||
    (!Overtaken(sched, s, acts[0]) &&
     var s' := Step(sched, s, acts[0]); s'.Some? ==> NeverOvertaken(sched, s'.value, acts[1..]))
  }

  /** No act of the run takes the next fire time back. */
  ghost predicate MovesOn(sched: Schedule, s: Table, acts: seq<Act>)
    requires sched.spec.Valid()
    decreases |acts|
  {
    acts == [] ||
    var s' := Step(sched, s, acts[0]);
    s'.Some? ==> NotEarlier(s.row.next, s'.value.row.next) && MovesOn(sched, s'.value, acts[1..])
  }

  /** No write that changes the next fire time falls inside a resume, between its clock and its write. */
  ghost predicate Undisturbed(sched: Schedule, s: Table, acts: seq<Act>)
    requires sched.spec.Valid()
    decreases |acts|
  {
    acts == [] ||
    var s' := Step(sched, s, acts[0]);
    s'.Some? ==>
      && (s'.value.row.next != s.row.next ==> forall w :: w in s'.value.tasks ==> !s'.value.tasks[w].Resuming?)
      && Undisturbed(sched, s'.value, acts[1..])
  }

  /** No resume under way is about to take the next fire time back. */
  ghost predicate Current(sched: Schedule, s: Table)
    requires sched.spec.Valid()
  {
    forall w :: w in s.tasks && s.tasks[w].Resuming? ==> NotEarlier(s.row.next, sched.spec.NextAfter(s.tasks[w].now))
  }

  lemma {:induction false} RunKeeps(sched: Schedule, s: Table, acts: seq<Act>, s': Table)
    requires sched.spec.Valid() && Inv(sched, s) && Run(sched, s, acts) == Some(s')
    ensures Inv(sched, s')
    ensures NeverOvertaken(sched, s, acts) <==> MovesOn(sched, s, acts)
    ensures Spent(s) && NeverOvertaken(sched, s, acts) ==> Spent(s') && NotEarlier(s.row.next, s'.row.next)
    decreases |acts|
  {
    hide Inv, Step, Overtaken, Spent;
    if acts != [] {
      var mid := Step(sched, s, acts[0]).value;
      StepKeeps(sched, s, acts[0], mid);
      RunKeeps(sched, mid, acts[1..], s');
    }
  }

  lemma {:induction false} CurrentStays(sched: Schedule, s: Table, act: Act, s': Table)
    requires sched.spec.Valid() && Inv(sched, s) && Current(sched, s) && Step(sched, s, act) == Some(s')
    requires s'.row.next != s.row.next ==> forall w :: w in s'.tasks ==> !s'.tasks[w].Resuming?
    ensures Current(sched, s') && !Overtaken(sched, s, act)
  {
    hide Spec.NextAfter, ScheduledRunId, RunOf, OneRunPerTick, NotEarlier, Passed;
    if act.FinishResume? {
      ResumeKeeps(sched, s, act.worker);
    }
  }

  lemma {:induction false} UndisturbedIsNeverOvertaken(sched: Schedule, s: Table, acts: seq<Act>)
    requires sched.spec.Valid() && Inv(sched, s) && Current(sched, s) && Undisturbed(sched, s, acts)
    requires Run(sched, s, acts).Some?
    ensures NeverOvertaken(sched, s, acts)
    decreases |acts|
  {
    hide Inv, Step, Overtaken, Current;
    if acts != [] {
      var mid := Step(sched, s, acts[0]).value;
      StepKeeps(sched, s, acts[0], mid);
      CurrentStays(sched, s, acts[0], mid);
      UndisturbedIsNeverOvertaken(sched, mid, acts[1..]);
    }
  }

  /** Whatever workers do, crash or see late: at most one run record per tick, and a recorded last run
      exists. The next fire time never moves back exactly when no resume is overtaken, which holds of
      every interleaving that keeps other writes out of a resume; each fire time is then advanced past
      at most once, in order. */
  lemma {:induction false} TicksFireOnce(sched: Schedule, now: Moment, acts: seq<Act>, s: Table)
    requires sched.spec.Valid() && Run(sched, Created(sched, now), acts) == Some(s)
    ensures OneRunPerTick(sched, s.runs, s.created)
    ensures s.row.lastRun.Some? ==> s.row.lastRun.value in s.runs
    ensures MovesOn(sched, Created(sched, now), acts) <==> NeverOvertaken(sched, Created(sched, now), acts)
    ensures Undisturbed(sched, Created(sched, now), acts) ==> NeverOvertaken(sched, Created(sched, now), acts)
    ensures NeverOvertaken(sched, Created(sched, now), acts) ==>
              && NotEarlier(sched.spec.FirstFireAt(now), s.row.next)
              && Ascends(s.advances) && Before(s.advances, s.row.next)
  {
    hide Run, NeverOvertaken, MovesOn, Undisturbed, OneRunPerTick, Ascends, Before, NotEarlier, Spec.FirstFireAt;
    CreatedIsInv(sched, now);
    RunKeeps(sched, Created(sched, now), acts, s);
    if Undisturbed(sched, Created(sched, now), acts) {
      UndisturbedIsNeverOvertaken(sched, Created(sched, now), acts);
    }
  }

  /** A resume does not take the next fire time back if that is what it was when the clock was read,
      however often it was written in between. */
  lemma {:induction false} UnchangedNextIsNotOvertaken(sched: Schedule, s: Table, worker: nat, acts: seq<Act>, s': Table)
    requires sched.spec.Valid() && Inv(sched, s) && Run(sched, s, [BeginResume(worker)] + acts) == Some(s')
    requires worker in s'.tasks && s'.tasks[worker] == Resuming(s.clock, |s.writes|) && s'.row.next == s.row.next
    ensures !Overtaken(sched, s', FinishResume(worker))
  {
    hide Spec.NextAfter, ScheduledRunId, RunOf, OneRunPerTick, NotEarlier, Passed, Run, Step;
    RunKeeps(sched, s, [BeginResume(worker)] + acts, s');
    ResumeKeeps(sched, s', worker);
  }

  /** A compare-and-set that succeeds leaves the schedule no longer due at the worker's own `now`. */
  lemma {:induction false} AdvancedIsNotDue(sched: Schedule, s: Table, act: Act, s': Table)
    requires sched.spec.Valid() && Inv(sched, s) && Step(sched, s, act) == Some(s')
    requires (act.Advance? || act.Skip?) && s'.advances != s.advances
    ensures s.row.next == Some(s.tasks[act.worker].fireAt)
    ensures s'.row.next.None? || s'.row.next.value > s.tasks[act.worker].now
  {
    hide Spec.NextAfter, ScheduledRunId, OneRunPerTick;
    AdvanceKeeps(sched, s, act.worker, if act.Skip? then s.row.lastRun else Some(RunOf(sched, s.tasks[act.worker].fireAt)));
  }

  // ---- where the documentation promises more ----

  /** Firings of an interval schedule, the k-th one `delays[k]` seconds after it was due. */
  ghost function AfterDelays(seconds: real, due: Moment, delays: seq<Moment>): Moment
    requires seconds > 0.0
    decreases |delays|
  {
    if delays == [] then due
    else AfterDelays(seconds, Every(seconds).NextAfter(Later(due, due + delays[0])).value, delays[1..])
  }

  ghost function Total(delays: seq<Moment>): Moment {
    if delays == [] then 0.0 else delays[0] + Total(delays[1..])
  }

  /** An interval drifts by all its workers' delays together, and keeps to its grid exactly when there were none. */
  lemma {:induction false} IntervalsDriftByTheirDelays(seconds: real, due: Moment, delays: seq<Moment>)
    requires seconds > 0.0
    ensures AfterDelays(seconds, due, delays) == due + seconds * |delays| as real + Total(delays)
    ensures AfterDelays(seconds, due, delays) == due + seconds * |delays| as real <==> forall d :: d in delays ==> d == 0.0
    decreases |delays|
  {
    if delays != [] {
      IntervalsDriftByTheirDelays(seconds, due + delays[0] + seconds, delays[1..]);
      assert seconds * |delays| as real == seconds + seconds * |delays[1..]| as real;
    }
    NoDelay(delays);
  }

  lemma {:induction false} NoDelay(delays: seq<Moment>)
    ensures Total(delays) == 0.0 <==> forall d :: d in delays ==> d == 0.0
  {
    if delays != [] {
      NoDelay(delays[1..]);
      assert delays[0] in delays;
      assert forall d :: d in delays <==> d == delays[0] || d in delays[1..];
    }
  }

  /** A resume that read the clock, was overtaken by a firing and then wrote: the tick is fired a second
      time, though it still has one run record. */
  lemma {:induction false} OvertakenResumeRepeatsATick(id: string)
    returns (acts: seq<Act>, s: Table)
    ensures Run(Schedule(id, Every(10.0)), Created(Schedule(id, Every(10.0)), 0.0), acts) == Some(s)
    ensures s.advances == [10.0, 10.0] && s.created == [10.0]
  {
    hide ScheduledRunId;
    var sched, run := Schedule(id, Every(10.0)), RunOf(Schedule(id, Every(10.0)), 10.0);
    var s0 := Created(sched, 0.0);
    var s1 := s0.(tasks := map[1 := Resuming(0.0, 0)]);
    var s2 := s1.(clock := 10.0);
    var s3 := s2.(tasks := map[1 := Resuming(0.0, 0), 2 := Firing(10.0, 10.0, false)]);
    var s4 := s3.(tasks := map[1 := Resuming(0.0, 0), 2 := Firing(10.0, 10.0, true)], runs := {run}, created := [10.0]);
    var s5 := s4.(tasks := map[1 := Resuming(0.0, 0)], row := Row(false, Some(20.0), Some(run)), advances := [10.0],
                  writes := [10.0]);
    var s6 := s5.(tasks := map[], row := Row(false, Some(10.0), Some(run)), writes := [10.0, 0.0]);
    var s7 := s6.(tasks := map[2 := Firing(10.0, 10.0, false)]);
    var s8 := s7.(tasks := map[2 := Firing(10.0, 10.0, true)]);
    s := s8.(tasks := map[], row := Row(false, Some(20.0), Some(run)), advances := [10.0, 10.0],
                writes := [10.0, 0.0, 10.0]);
    FirstRound(sched, s0, s1, s2, s3, s4, s5);
    SecondRound(sched, s5, s6, s7, s8, s);
    var again := [FinishResume(1), See(2, 10.0), Start(2), Advance(2)];
    acts := [BeginResume(1), Tick(10.0), See(2, 10.0), Start(2), Advance(2)] + again;
    hide Step;
    assert again[1..][1..][1..] == [Advance(2)] && [Advance(2)][1..] == [];
    assert Run(sched, s8, [Advance(2)]) == Some(s);
    assert Run(sched, s7, again[1..][1..]) == Some(s);
    assert Run(sched, s5, again) == Some(s);
    assert acts[1..][1..][1..] == [Start(2), Advance(2)] + again && ([Start(2), Advance(2)] + again)[1..][1..] == again;
    assert Run(sched, s3, acts[1..][1..][1..]) == Some(s);
    assert Run(sched, s1, acts[1..]) == Some(s);
  }

  lemma {:induction false} FirstRound(sched: Schedule, s0: Table, s1: Table, s2: Table, s3: Table, s4: Table, s5: Table)
    requires sched.spec == Every(10.0) && s0 == Created(sched, 0.0)
    requires s1 == s0.(tasks := map[1 := Resuming(0.0, 0)]) && s2 == s1.(clock := 10.0)
    requires s3 == s2.(tasks := map[1 := Resuming(0.0, 0), 2 := Firing(10.0, 10.0, false)])
    requires s4 == s3.(tasks := map[1 := Resuming(0.0, 0), 2 := Firing(10.0, 10.0, true)],
                        runs := {RunOf(sched, 10.0)}, created := [10.0])
    requires s5 == s4.(tasks := map[1 := Resuming(0.0, 0)],
                        row := Row(false, Some(20.0), Some(RunOf(sched, 10.0))), advances := [10.0],
                        writes := [10.0])
    ensures Step(sched, s0, BeginResume(1)) == Some(s1) && Step(sched, s1, Tick(10.0)) == Some(s2)
    ensures Step(sched, s2, See(2, 10.0)) == Some(s3) && Step(sched, s3, Start(2)) == Some(s4)
    ensures Step(sched, s4, Advance(2)) == Some(s5)
  {
    hide ScheduledRunId;
    assert s3.tasks[2 := Firing(10.0, 10.0, true)] == s4.tasks && s4.tasks - {2} == s5.tasks;
    assert s3.created + [10.0] == s4.created && s4.advances + [10.0] == s5.advances && s4.writes + [10.0] == s5.writes;
    assert s3.runs + {RunOf(sched, 10.0)} == s4.runs;
  }

  lemma {:induction false} SecondRound(sched: Schedule, s5: Table, s6: Table, s7: Table, s8: Table, s9: Table)
    requires sched.spec == Every(10.0) && s5.tasks == map[1 := Resuming(0.0, 0)] && s5.clock == 10.0
    requires RunOf(sched, 10.0) in s5.runs && s5.advances == [10.0] && s5.writes == [10.0]
    requires s6 == s5.(tasks := map[], row := s5.row.(paused := false, next := Some(10.0)), writes := [10.0, 0.0])
    requires s7 == s6.(tasks := map[2 := Firing(10.0, 10.0, false)]) && s8 == s7.(tasks := map[2 := Firing(10.0, 10.0, true)])
    requires s9 == s8.(tasks := map[], row := Row(false, Some(20.0), Some(RunOf(sched, 10.0))), advances := [10.0, 10.0],
                        writes := [10.0, 0.0, 10.0])
    ensures Step(sched, s5, FinishResume(1)) == Some(s6) && Step(sched, s6, See(2, 10.0)) == Some(s7)
    ensures Step(sched, s7, Start(2)) == Some(s8) && Step(sched, s8, Advance(2)) == Some(s9)
  {
    hide ScheduledRunId;
    assert s5.tasks - {1} == map[] && s7.tasks[2 := Firing(10.0, 10.0, true)] == s8.tasks && s8.tasks - {2} == map[];
    assert s8.advances + [10.0] == s9.advances && s5.writes + [0.0] == s6.writes && s8.writes + [10.0] == s9.writes;
  }
}

/** One worker's handling of a due tick, and of pausing and resuming, write by write. */
module Firing {
  import opened Wrappers
  import Cron
  import opened Scheduling

  method NextFireAt(spec: Spec, ts: Moment) returns (r: Option<Moment>)
    requires spec.Valid()
    ensures r == spec.NextAfter(ts)
  {
    match spec
    case Every(seconds) => r := Some(ts + seconds);
    case Once(at) => r := if at > ts then Some(at) else None;
    case Crontab(expr) =>
      var next := Cron.NextAfter(expr, ts.Floor);
      r := if next.Some? then Some(next.value as real) else None;
  }

  /** A column that an update leaves alone or sets. */
  datatype Field<T> = Unset | Set(value: T) {
    function Over(was: T): T {
      if Set? then value else was
    }
  }

  /** How starting a tick's run ends: driven here, driven by another worker that holds its lease, or
      with another error, before or after the run's record was created. */
  datatype Start = Driven | Leased | Raised(created: bool)

  /** What the handling of one due tick does to the schedule. */
  ghost function ActsOf(skipped: bool, registered: bool, start: Start): seq<Act> {
    if skipped then [Skip(0)]
    else if !registered || start == Raised(false) then [Crash(0)]
    else if start.Raised? then [Act.Start(0), Crash(0)]
    else [Act.Start(0), Advance(0)]
  }

  class ScheduleStore {
    var row: Row
    var runs: set<string>

    constructor (first: Option<Moment>)
      ensures row == Row(false, first, None) && runs == {}
    {
      row, runs := Row(false, first, None), {};
    }

    /** Sets the given columns, with an expected next fire time only if it still is the row's. */
    method UpdateSchedule(expected: Field<Option<Moment>>, paused: Field<bool>, next: Field<Option<Moment>>,
                          lastRun: Field<Option<string>>)
      returns (ok: bool)
      modifies this`row
      ensures ok == (expected.Unset? || expected.value == old(row).next)
      ensures !ok ==> row == old(row)
      ensures ok ==> row == Row(paused.Over(old(row).paused), next.Over(old(row).next), lastRun.Over(old(row).lastRun))
    {
      if expected.Set? && row.next != expected.value {
        return false;
      }
      if paused.Set? {
        row := row.(paused := paused.value);
      }
      if next.Set? {
        row := row.(next := next.value);
      }
      if lastRun.Set? {
        row := row.(lastRun := lastRun.value);
      }
      ok := true;
    }

    /** Creates a run unless it exists. */
    method StartRun(runId: string, start: Start)
      modifies this`runs
      ensures runs == if start == Raised(false) then old(runs) else old(runs) + {runId}
    {
      if start != Raised(false) {
        runs := runs + {runId};
      }
    }

    /** Handles one due tick from a snapshot: skips it or starts its run, then advances the schedule.
        A workflow this worker does not know, or an error, leaves the tick due. */
    method FireSchedule(sched: Schedule, seen: Row, now: Moment, skips: bool, live: bool, registered: bool, start: Start)
      requires sched.spec.Valid() && seen.next.Some?
      modifies this
      ensures var s := Table(old(row), old(runs), map[0 := Firing(seen.next.value, now, false)], now, [], [], []);
              var end := Run(sched, s, ActsOf(skips && seen.lastRun.Some? && live, registered, start));
              end.Some? && row == end.value.row && runs == end.value.runs
    {
      var fireAt := seen.next.value;
      var next := NextFireAt(sched.spec, Later(fireAt, now));
      var runId := RunOf(sched, fireAt);
      Handled(sched, Table(row, runs, map[0 := Firing(fireAt, now, false)], now, [], [], []),
              skips && seen.lastRun.Some? && live, registered, start);
      if skips && seen.lastRun.Some? && live {
        var _ := UpdateSchedule(Set(Some(fireAt)), Unset, Set(next), Unset);
        return;
      }
      if !registered {
        return;
      }
      StartRun(runId, start);
      if start.Raised? {
        return;
      }
      var _ := UpdateSchedule(Set(Some(fireAt)), Unset, Set(next), Set(Some(runId)));
    }

    method PauseSchedule(sched: Schedule)
      requires sched.spec.Valid()
      modifies this`row
      ensures forall s: Table :: s.row == old(row) && s.runs == runs ==>
                Step(sched, s, Pause) == Some(s.(row := row))
    {
      var _ := UpdateSchedule(Unset, Set(true), Unset, Unset);
    }

    /** Resumes from the time the clock is read; ticks missed while paused are skipped. */
    method ResumeSchedule(sched: Schedule, now: Moment)
      requires sched.spec.Valid()
      modifies this`row
      ensures forall s: Table :: s.row == old(row) && s.tasks == map[0 := Resuming(now, |s.writes|)] ==>
                Step(sched, s, FinishResume(0)) == Some(s.(tasks := map[], row := row, writes := s.writes + [now]))
    {
      var next := NextFireAt(sched.spec, now);
      var _ := UpdateSchedule(Unset, Set(false), Set(next), Unset);
      assert forall tasks: map<nat, Task> {:trigger tasks - {0}} :: tasks.Keys == {0} ==> tasks - {0} == map[];
    }
  }

  lemma {:induction false} Handled(sched: Schedule, s: Table, skipped: bool, registered: bool, start: Start)
    requires sched.spec.Valid() && s.tasks.Keys == {0} && s.tasks[0].Firing? && !s.tasks[0].started
    ensures var end := Run(sched, s, ActsOf(skipped, registered, start));
            var task := s.tasks[0];
            var run := RunOf(sched, task.fireAt);
            && end.Some?
            && end.value.runs == (if skipped || !registered || start == Raised(false) then s.runs else s.runs + {run})
            && end.value.row ==
               if s.row.next != Some(task.fireAt) || (!skipped && (!registered || start.Raised?)) then s.row
               else Row(s.row.paused, sched.spec.NextAfter(Later(task.fireAt, task.now)),
                        if skipped then s.row.lastRun else Some(run))
  {
    hide Spec.NextAfter, RunOf, Run;
    var acts := ActsOf(skipped, registered, start);
    var mid := Step(sched, s, acts[0]).value;
    RunOne(sched, s, acts);
    RunOne(sched, mid, acts[1..]);
    if |acts| == 2 {
      RunOne(sched, Step(sched, mid, acts[1]).value, acts[1..][1..]);
    }
  }

  lemma {:induction false} RunOne(sched: Schedule, s: Table, acts: seq<Act>)
    requires sched.spec.Valid()
    ensures acts == [] ==> Run(sched, s, acts) == Some(s)
    ensures acts != [] ==> var s' := Step(sched, s, acts[0]);
              Run(sched, s, acts) == if s'.None? then None else Run(sched, s'.value, acts[1..])
  {
  }
}
