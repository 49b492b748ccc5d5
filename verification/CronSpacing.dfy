/**
  How far apart a periodic job is started. One loop by itself always keeps the period; the service as a
  whole keeps it exactly as long as no loop holds work that would break it.
*/
module CronSpacing {

  import opened Options
  import opened Cron

  /** A period lies between two starts. */
  ghost predicate Apart(x: Exec, y: Exec) {
    IsPeriodic(y.schedule) ==> y.start >= x.start + y.schedule.every.value
  }

  /** All starts of a job, by whichever loop. */
  ghost predicate Spaced(log: seq<Exec>) {
    forall i, k | 0 <= i < k < |log| && log[i].id == log[k].id :: Apart(log[i], log[k])
  }

  /** The starts of a job by one and the same loop. */
  ghost predicate LoopSpaced(log: seq<Exec>) {
    forall i, k | 0 <= i < k < |log| && log[i].id == log[k].id && log[i].loop == log[k].loop :: Apart(log[i], log[k])
  }

  predicate DueIn(s: Service, l: nat, id: string) { l < |s.loops| && id in s.loops[l].due }

  predicate CurrentIn(s: Service, l: nat, id: string) {
    l < |s.loops| && s.loops[l].current.Some? && s.loops[l].current.value.0 == id
  }

  // ---------------------------------------------------------------- each loop by itself

  /** Unless the loop is still at it, the next run of a job that can become due is a period after start x. */
  ghost predicate NextApart(s: Service, j: Job, x: Exec) {
    x in s.log && x.id == j.id && Periodic(j) && s.running && j.enabled && j.next.Some? ==>
      j.next.value >= x.start + j.schedule.every.value || CurrentIn(s, x.loop, j.id)
  }

  /** If loop l is about to start the job, a period has passed since start x. */
  ghost predicate DueApart(s: Service, j: Job, x: Exec, l: nat) {
    x in s.log && x.id == j.id && Periodic(j) && DueIn(s, l, j.id) ==> s.clock >= x.start + j.schedule.every.value
  }

  ghost predicate KeepsPeriod(s: Service, j: Job) {
    forall x: Exec :: NextApart(s, j, x) && DueApart(s, j, x, x.loop)
  }

  ghost predicate KeepPeriods(s: Service) { forall j | j in s.jobs :: KeepsPeriod(s, j) }

  /** A start by the step itself; its loop has nothing else to do with the job. */
  lemma {:induction false} NewStart(s: Service, e: Event, gronx: Gronx, x: Exec)
    requires Basic(s) && Possible(s, e) && x in Step(s, e, gronx).log && x !in s.log
    ensures e.Begin? && x.id == s.loops[e.l].due[0] && x.start == s.clock && x.loop == e.l
    ensures CurrentIn(Step(s, e, gronx), e.l, x.id) && !DueIn(Step(s, e, gronx), e.l, x.id)
    ensures Step(s, e, gronx).jobs == s.jobs
  {
    LogStep(s, e, gronx);
    assert s.loops[e.l] in s.loops;
    TailNoDuplicates(s.loops[e.l].due);
  }

  /** Due lists grow only when a check fills an empty one. */
  lemma {:induction false} DueStep(s: Service, e: Event, gronx: Gronx, l: nat, id: string)
    requires Basic(s) && Possible(s, e) && DueIn(Step(s, e, gronx), l, id)
    ensures DueIn(s, l, id) || (e == Check(l) && s.running && id in DueIDs(s.jobs, s.clock))
  {}

  lemma {:induction false} CurrentStep(s: Service, e: Event, gronx: Gronx, l: nat, id: string)
    requires Basic(s) && Possible(s, e) && CurrentIn(s, l, id)
    ensures CurrentIn(Step(s, e, gronx), l, id) || e == Finish(l) || e.Die?
  {}

  /** The due job that a check collects: its time has come. */
  lemma {:induction false} CollectedIsDue(s: Service, j: Job)
    requires Basic(s) && j in s.jobs && j.id in DueIDs(s.jobs, s.clock)
    ensures IsDue(j, s.clock)
  {
    DueMembers(s.jobs, s.clock);
    FindUnique(s.jobs, j.id);
  }

  lemma {:induction false} NextStep(s: Service, e: Event, gronx: Gronx, j': Job, x: Exec)
    requires Basic(s) && KeepPeriods(s) && Possible(s, e) && j' in Step(s, e, gronx).jobs
    ensures NextApart(Step(s, e, gronx), j', x)
  {
    var t := Step(s, e, gronx);
    if x in t.log && x.id == j'.id && Periodic(j') && t.running {
      if x !in s.log {
        NewStart(s, e, gronx, x);
      } else {
        var j, c := Origin(s, e, gronx, j');
        if c.Same? {
          assert NextApart(s, j, x);
          if CurrentIn(s, x.loop, j.id) { CurrentStep(s, e, gronx, x.loop, j.id); }
        }
      }
    }
  }

  lemma {:induction false} OwnDueStep(s: Service, e: Event, gronx: Gronx, j': Job, x: Exec)
    requires Basic(s) && KeepPeriods(s) && Possible(s, e) && j' in Step(s, e, gronx).jobs
    ensures DueApart(Step(s, e, gronx), j', x, x.loop)
  {
    var t := Step(s, e, gronx);
    if x in t.log && x.id == j'.id && Periodic(j') && DueIn(t, x.loop, j'.id) {
      if x !in s.log {
        NewStart(s, e, gronx, x);
        assert false;
      } else {
        var j, c := Origin(s, e, gronx, j');
        DueStep(s, e, gronx, x.loop, j'.id);
        if !c.Fresh? {
          assert NextApart(s, j, x) && DueApart(s, j, x, x.loop);
          if !DueIn(s, x.loop, j.id) { CollectedIsDue(s, j); }
        }
      }
    }
  }

  lemma {:induction false} PeriodsStep(s: Service, e: Event, gronx: Gronx)
    requires Basic(s) && KeepPeriods(s) && Possible(s, e)
    ensures KeepPeriods(Step(s, e, gronx))
  {
    var t := Step(s, e, gronx);
    forall j | j in t.jobs ensures KeepsPeriod(t, j) {
      forall x: Exec ensures NextApart(t, j, x) && DueApart(t, j, x, x.loop) {
        NextStep(s, e, gronx, j, x);
        OwnDueStep(s, e, gronx, j, x);
      }
    }
  }

  /** What a step starts is some job's turn in its loop. */
  lemma {:induction false} StartedJob(s: Service, e: Event, gronx: Gronx) returns (j: Job)
    requires Basic(s) && Possible(s, e) && Step(s, e, gronx).log != s.log
    ensures e.Begin? && j in s.jobs && DueIn(s, e.l, j.id) && j.id == s.loops[e.l].due[0]
    ensures Step(s, e, gronx).log == s.log + [Exec(j.id, j.schedule, s.clock, e.l)]
  {
    LogStep(s, e, gronx);
    j :| j in s.jobs && j.id == s.loops[e.l].due[0] && j.schedule == Step(s, e, gronx).log[|s.log|].schedule;
  }

  lemma {:induction false} LoopSpacedStep(s: Service, e: Event, gronx: Gronx)
    requires Basic(s) && KeepPeriods(s) && LoopSpaced(s.log) && Possible(s, e)
    ensures LoopSpaced(Step(s, e, gronx).log)
  {
    var t := Step(s, e, gronx);
    if t.log != s.log {
      var j := StartedJob(s, e, gronx);
      var y := Exec(j.id, j.schedule, s.clock, e.l);
      forall x | x in s.log && x.id == y.id && x.loop == y.loop ensures Apart(x, y) {
        assert DueApart(s, j, x, x.loop);
      }
      AppendLoopSpaced(s.log, y);
    }
  }

  lemma {:induction false} AppendLoopSpaced(log: seq<Exec>, y: Exec)
    requires LoopSpaced(log) && forall x | x in log && x.id == y.id && x.loop == y.loop :: Apart(x, y)
    ensures LoopSpaced(log + [y])
  {}

  /** In every state of every run, with any number of restarts, each loop's successive starts of a
      periodic job lie a period apart. */
  lemma {:induction false} LoopsKeepPeriods(states: seq<Service>, events: seq<Event>, gronx: Gronx, n: nat)
    requires IsRun(states, events, gronx) && Initial(states[0]) && n <= |events|
    ensures LoopSpaced(states[n].log) && KeepPeriods(states[n])
  {
    if n > 0 {
      LoopsKeepPeriods(states, events, gronx, n - 1);
      CronRuns(states, events, gronx, n - 1);
      PeriodsStep(states[n - 1], events[n - 1], gronx);
      LoopSpacedStep(states[n - 1], events[n - 1], gronx);
    }
  }

  // ---------------------------------------------------------------- all loops together

  /** No loop is about to start a periodic job too soon after a start by any loop. */
  ghost predicate Ripe(s: Service) {
    forall j, x, l: nat | j in s.jobs && x in s.log && l < |s.loops| :: DueApart(s, j, x, l)
  }

  /** No two loops are about to start the same periodic job. */
  ghost predicate Unshared(s: Service) {
    forall j, l: nat, m: nat | j in s.jobs && Periodic(j) && DueIn(s, l, j.id) && DueIn(s, m, j.id) :: l == m
  }

  /** The work the loops hold can be done in any order at any time. */
  ghost predicate Safe(s: Service) { Ripe(s) && Unshared(s) }

  lemma {:induction false} RipeStep(s: Service, e: Event, gronx: Gronx, j': Job, x: Exec, l: nat)
    requires Basic(s) && Safe(s) && Possible(s, e) && !e.Check? && j' in Step(s, e, gronx).jobs
    ensures DueApart(Step(s, e, gronx), j', x, l)
  {
    var t := Step(s, e, gronx);
    if x in t.log && x.id == j'.id && Periodic(j') && DueIn(t, l, j'.id) {
      DueStep(s, e, gronx, l, j'.id);
      var j, c := Origin(s, e, gronx, j');
      if !c.Fresh? {
        if x in s.log {
          assert DueApart(s, j, x, l);
        } else {
          NewStart(s, e, gronx, x);
          assert DueIn(s, e.l, j.id);
          assert false;
        }
      }
    }
  }

  lemma {:induction false} UnsharedStep(s: Service, e: Event, gronx: Gronx, j': Job, l: nat, m: nat)
    requires Basic(s) && Safe(s) && Possible(s, e) && !e.Check? && j' in Step(s, e, gronx).jobs && Periodic(j')
    requires DueIn(Step(s, e, gronx), l, j'.id) && DueIn(Step(s, e, gronx), m, j'.id)
    ensures l == m
  {
    DueStep(s, e, gronx, l, j'.id);
    DueStep(s, e, gronx, m, j'.id);
    var j, c := Origin(s, e, gronx, j');
  }

  /** Until the next check nothing becomes unsafe. */
  lemma {:induction false} SafeStep(s: Service, e: Event, gronx: Gronx)
    requires Basic(s) && Safe(s) && Possible(s, e) && !e.Check?
    ensures Safe(Step(s, e, gronx))
  {
    var t := Step(s, e, gronx);
    forall j, x, l: nat | j in t.jobs && x in t.log && l < |t.loops| ensures DueApart(t, j, x, l) {
      RipeStep(s, e, gronx, j, x, l);
    }
    forall j, l: nat, m: nat | j in t.jobs && Periodic(j) && DueIn(t, l, j.id) && DueIn(t, m, j.id) ensures l == m {
      UnsharedStep(s, e, gronx, j, l, m);
    }
  }

  lemma {:induction false} SpacedStep(s: Service, e: Event, gronx: Gronx)
    requires Basic(s) && Safe(s) && Spaced(s.log) && Possible(s, e)
    ensures Spaced(Step(s, e, gronx).log)
  {
    var t := Step(s, e, gronx);
    if t.log != s.log {
      var j := StartedJob(s, e, gronx);
      var y := Exec(j.id, j.schedule, s.clock, e.l);
      forall x | x in s.log && x.id == y.id ensures Apart(x, y) { assert DueApart(s, j, x, e.l); }
      AppendSpaced(s.log, y);
    }
  }

  lemma {:induction false} AppendSpaced(log: seq<Exec>, y: Exec)
    requires Spaced(log) && forall x | x in log && x.id == y.id :: Apart(x, y)
    ensures Spaced(log + [y])
  {}

  // ---------------------------------------------------------------- until the next check

  /** One step, not a check. */
  ghost predicate Moves(s: Service, t: Service, gronx: Gronx) {
    exists e :: Possible(s, e) && !e.Check? && t == Step(s, e, gronx)
  }

  ghost predicate IsPath(path: seq<Service>, gronx: Gronx) {
    path != [] && forall i | 0 < i < |path| :: Moves(path[i - 1], path[i], gronx)
  }

  ghost predicate Joins(path: seq<Service>, s: Service, t: Service) {
    path != [] && path[0] == s && path[|path| - 1] == t
  }

  /** t can come about from s without a check. */
  ghost predicate Reaches(s: Service, t: Service, gronx: Gronx) {
    exists path :: IsPath(path, gronx) && Joins(path, s, t)
  }

  lemma {:induction false} Stays(s: Service, gronx: Gronx)
    ensures Reaches(s, s, gronx)
  {
    assert IsPath([s], gronx) && Joins([s], s, s);
  }

  lemma {:induction false} StepFirst(s: Service, e: Event, t: Service, gronx: Gronx)
    requires Possible(s, e) && !e.Check? && Reaches(Step(s, e, gronx), t, gronx)
    ensures Reaches(s, t, gronx)
  {
    MoveReaches(s, Step(s, e, gronx), gronx);
    ReachesOn(s, Step(s, e, gronx), t, gronx);
  }

  lemma {:induction false} MoveReaches(s: Service, t: Service, gronx: Gronx)
    requires Moves(s, t, gronx)
    ensures Reaches(s, t, gronx)
  {
    assert IsPath([s, t], gronx) && Joins([s, t], s, t);
  }

  lemma {:induction false} ReachesOn(s: Service, t: Service, u: Service, gronx: Gronx)
    requires Reaches(s, t, gronx) && Reaches(t, u, gronx)
    ensures Reaches(s, u, gronx)
  {
    var p :| IsPath(p, gronx) && Joins(p, s, t);
    var q :| IsPath(q, gronx) && Joins(q, t, u);
    PathsJoin(p, q, s, t, u, gronx);
  }

  lemma {:induction false} PathsJoin(p: seq<Service>, q: seq<Service>, s: Service, t: Service, u: Service, gronx: Gronx)
    requires IsPath(p, gronx) && IsPath(q, gronx) && Joins(p, s, t) && Joins(q, t, u)
    ensures IsPath(p + q[1..], gronx) && Joins(p + q[1..], s, u)
  {
    var r, n := p + q[1..], |p|;
    forall i | 0 < i < |r| ensures Moves(r[i - 1], r[i], gronx) {
      if i < n {
        assert r[i] == p[i] && r[i - 1] == p[i - 1];
      } else {
        var k := i - n + 1;
        assert r[i] == q[k] && r[i - 1] == q[k - 1];
        assert Moves(q[k - 1], q[k], gronx);
      }
    }
  }

  lemma {:induction false} SafePath(path: seq<Service>, n: nat, gronx: Gronx)
    requires IsPath(path, gronx) && n < |path| && Basic(path[0]) && Safe(path[0]) && Spaced(path[0].log)
    ensures Basic(path[n]) && Safe(path[n]) && Spaced(path[n].log)
  {
    if n > 0 {
      SafePath(path, n - 1, gronx);
      assert Moves(path[n - 1], path[n], gronx);
      SafeMove(path[n - 1], path[n], gronx);
    }
  }

  lemma {:induction false} SafeMove(s: Service, t: Service, gronx: Gronx)
    requires Basic(s) && Safe(s) && Spaced(s.log) && Moves(s, t, gronx)
    ensures Basic(t) && Safe(t) && Spaced(t.log)
  {
    var e :| Possible(s, e) && !e.Check? && t == Step(s, e, gronx);
    BasicStep(s, e, gronx);
    SafeStep(s, e, gronx);
    SpacedStep(s, e, gronx);
  }

  ghost predicate HasPeriodic(s: Service, id: string, schedule: Schedule) {
    IsPeriodic(schedule) && exists j :: j in s.jobs && j.id == id && j.schedule == schedule
  }

  /** What working through a due list leaves alone. */
  ghost predicate OnlyLoop(s: Service, t: Service, l: nat) {
    && |t.loops| == |s.loops| && t.clock == s.clock && s.log <= t.log
    && forall k | 0 <= k < |s.loops| && k != l :: t.loops[k] == s.loops[k]
  }

  /** One step of a loop towards a job in its due list. */
  lemma {:induction false} Advance(s: Service, e: Event, gronx: Gronx, l: nat, id: string, schedule: Schedule)
    requires Basic(s) && DueIn(s, l, id) && HasPeriodic(s, id, schedule)
    requires if s.loops[l].current.Some? then e == Finish(l) else e == Begin(l) && s.loops[l].due[0] != id
    ensures Possible(s, e)
    ensures var t := Step(s, e, gronx);
      Basic(t) && DueIn(t, l, id) && HasPeriodic(t, id, schedule) && OnlyLoop(s, t, l)
    ensures |Step(s, e, gronx).loops[l].due| == |s.loops[l].due| - if e.Begin? then 1 else 0
    ensures e.Finish? ==> Step(s, e, gronx).loops[l].current.None?
  {
    BasicStep(s, e, gronx);
    LogStep(s, e, gronx);
    if e.Finish? {
      PeriodicStays(s, e, gronx, id, schedule);
    } else {
      assert Step(s, e, gronx).loops[l].due == s.loops[l].due[1..];
    }
  }

  lemma {:induction false} PeriodicStays(s: Service, e: Event, gronx: Gronx, id: string, schedule: Schedule)
    requires Basic(s) && Possible(s, e) && e.Finish? && HasPeriodic(s, id, schedule)
    ensures HasPeriodic(Step(s, e, gronx), id, schedule)
  {
    var j :| j in s.jobs && j.id == id && j.schedule == schedule;
    var (done, start) := s.loops[e.l].current.value;
    var i := Find(s.jobs, done, 0);
    FindUnique(s.jobs, done);
    if i < |s.jobs| {
      if s.jobs[i].schedule.At? && s.jobs[i].deleteAfterRun {
        WithoutMembers(s.jobs, done);
        assert j in Step(s, e, gronx).jobs;
      } else {
        var c := Completed(s.jobs[i], start, s.clock, gronx);
        ReplacedMembers(s.jobs, i, c);
        if done == id { assert c in Step(s, e, gronx).jobs; } else { assert j in Step(s, e, gronx).jobs; }
      }
    }
  }

  /** A loop can always get to a job in its due list at once, with nobody else moving. */
  lemma {:induction false} GetTo(s: Service, gronx: Gronx, l: nat, id: string, schedule: Schedule) returns (t: Service)
    requires Basic(s) && DueIn(s, l, id) && HasPeriodic(s, id, schedule)
    ensures Reaches(s, t, gronx) && Basic(t) && DueIn(t, l, id) && HasPeriodic(t, id, schedule) && OnlyLoop(s, t, l)
    ensures t.loops[l].current.None? && t.loops[l].due[0] == id
    decreases |s.loops[l].due|, s.loops[l].current.Some?
  {
    if s.loops[l].current.None? && s.loops[l].due[0] == id {
      t := s;
      Stays(s, gronx);
    } else {
      var e := if s.loops[l].current.Some? then Finish(l) else Begin(l);
      Advance(s, e, gronx, l, id, schedule);
      t := GetTo(Step(s, e, gronx), gronx, l, id, schedule);
      StepFirst(s, e, t, gronx);
      OnlyLoopOn(s, Step(s, e, gronx), t, l);
    }
  }

  lemma {:induction false} OnlyLoopOn(s: Service, t: Service, u: Service, l: nat)
    requires OnlyLoop(s, t, l) && OnlyLoop(t, u, l)
    ensures OnlyLoop(s, u, l)
  {}

  /** Hence it can start the job now. */
  lemma {:induction false} StartNow(s: Service, gronx: Gronx, l: nat, id: string, schedule: Schedule) returns (t: Service)
    requires Basic(s) && DueIn(s, l, id) && HasPeriodic(s, id, schedule)
    ensures Reaches(s, t, gronx) && Basic(t) && HasPeriodic(t, id, schedule) && OnlyLoop(s, t, l)
    ensures |t.log| > |s.log| && t.log[|t.log| - 1] == Exec(id, schedule, s.clock, l)
  {
    var u := GetTo(s, gronx, l, id, schedule);
    var e := Begin(l);
    t := Step(u, e, gronx);
    var j :| j in u.jobs && j.id == id && j.schedule == schedule;
    FindUnique(u.jobs, id);
    BasicStep(u, e, gronx);
    assert t.log == u.log + [Exec(id, schedule, u.clock, l)];
    assert OnlyLoop(u, t, l);
    OnlyLoopOn(s, u, t, l);
    Stays(t, gronx);
    StepFirst(u, e, t, gronx);
    ReachesOn(s, u, t, gronx);
  }

  lemma {:induction false} TooSoon(log: seq<Exec>, i: nat, y: Exec)
    requires i < |log| - 1 && log[|log| - 1] == y && log[i].id == y.id && !Apart(log[i], y)
    ensures !Spaced(log)
  {}

  lemma {:induction false} UnripeBreaks(s: Service, gronx: Gronx, j: Job, x: Exec, l: nat) returns (t: Service)
    requires Basic(s) && j in s.jobs && x in s.log && !DueApart(s, j, x, l)
    ensures Reaches(s, t, gronx) && !Spaced(t.log)
  {
    assert HasPeriodic(s, j.id, j.schedule);
    t := StartNow(s, gronx, l, j.id, j.schedule);
    var i :| 0 <= i < |s.log| && s.log[i] == x;
    assert t.log[i] == x;
    TooSoon(t.log, i, Exec(j.id, j.schedule, s.clock, l));
  }

  lemma {:induction false} SharedBreaks(s: Service, gronx: Gronx, j: Job, l: nat, m: nat) returns (t: Service)
    requires Basic(s) && j in s.jobs && Periodic(j) && DueIn(s, l, j.id) && DueIn(s, m, j.id) && l != m
    ensures Reaches(s, t, gronx) && !Spaced(t.log)
  {
    assert HasPeriodic(s, j.id, j.schedule);
    var u := StartNow(s, gronx, l, j.id, j.schedule);
    assert u.loops[m] == s.loops[m];
    t := StartNow(u, gronx, m, j.id, j.schedule);
    var i := |u.log| - 1;
    assert t.log[i] == u.log[i] == Exec(j.id, j.schedule, s.clock, l);
    TooSoon(t.log, i, Exec(j.id, j.schedule, s.clock, m));
    ReachesOn(s, u, t, gronx);
  }

  /** What is unsafe can go wrong. */
  lemma {:induction false} UnsafeBreaks(s: Service, gronx: Gronx) returns (t: Service)
    requires Basic(s) && !Safe(s)
    ensures Reaches(s, t, gronx) && !Spaced(t.log)
  {
    if !Ripe(s) {
      var j, x, l: nat :| j in s.jobs && x in s.log && l < |s.loops| && !DueApart(s, j, x, l);
      t := UnripeBreaks(s, gronx, j, x, l);
    } else {
      var j, l: nat, m: nat :| j in s.jobs && Periodic(j) && DueIn(s, l, j.id) && DueIn(s, m, j.id) && l != m;
      t := SharedBreaks(s, gronx, j, l, m);
    }
  }

  /** Whatever happens until the next check, the log stays spaced: if and only if the work that the loops
      hold is safe, which is to say that no periodic job is in two due lists, nor in one less than a period
      after an earlier start. */
  lemma {:induction false} SpacedUntilCheck(s: Service, gronx: Gronx)
    requires Basic(s) && Spaced(s.log)
    ensures (forall t | Reaches(s, t, gronx) :: Spaced(t.log)) <==> Safe(s)
  {
    if Safe(s) {
      forall t | Reaches(s, t, gronx) ensures Spaced(t.log) {
        var path :| IsPath(path, gronx) && Joins(path, s, t);
        SafePath(path, |path| - 1, gronx);
      }
    } else {
      var t := UnsafeBreaks(s, gronx);
    }
  }

  // ---------------------------------------------------------------- whole runs

  /** No job is in the hands of two loops. */
  ghost predicate Alone(s: Service) {
    forall l, m, id | 0 <= l < |s.loops| && 0 <= m < |s.loops| && Holds(s.loops[l], id) && Holds(s.loops[m], id) :: l == m
  }

  /** A check that leaves no job in two hands collects nothing too soon. */
  lemma {:induction false} CheckIsRipe(s: Service, e: Event, gronx: Gronx, j': Job, x: Exec, l: nat)
    requires Basic(s) && KeepPeriods(s) && Safe(s) && Possible(s, e) && e.Check? && Alone(Step(s, e, gronx))
    requires j' in Step(s, e, gronx).jobs
    ensures DueApart(Step(s, e, gronx), j', x, l)
  {
    var t := Step(s, e, gronx);
    if x in t.log && x.id == j'.id && Periodic(j') && DueIn(t, l, j'.id) {
      DueStep(s, e, gronx, l, j'.id);
      var j, c := Origin(s, e, gronx, j');
      if DueIn(s, l, j.id) {
        assert DueApart(s, j, x, l);
      } else {
        CollectedIsDue(s, j);
        assert NextApart(s, j, x);
        if CurrentIn(s, x.loop, j.id) {
          assert Holds(t.loops[l], j.id) && Holds(t.loops[x.loop], j.id);
          assert false;
        }
      }
    }
  }

  lemma {:induction false} AloneIsUnshared(s: Service)
    requires Alone(s)
    ensures Unshared(s)
  {
    forall j, l: nat, m: nat | j in s.jobs && Periodic(j) && DueIn(s, l, j.id) && DueIn(s, m, j.id) ensures l == m {
      assert Holds(s.loops[l], j.id) && Holds(s.loops[m], j.id);
    }
  }

  lemma {:induction false} AloneStep(s: Service, e: Event, gronx: Gronx)
    requires Basic(s) && KeepPeriods(s) && Safe(s) && Possible(s, e) && Alone(Step(s, e, gronx))
    ensures Safe(Step(s, e, gronx))
  {
    var t := Step(s, e, gronx);
    if e.Check? {
      AloneIsUnshared(t);
      forall j, x, l: nat | j in t.jobs && x in t.log && l < |t.loops| ensures DueApart(t, j, x, l) {
        CheckIsRipe(s, e, gronx, j, x, l);
      }
    } else {
      SafeStep(s, e, gronx);
    }
  }

  /** While no job is in the hands of two loops, all its starts lie a period apart; and so they do in
      every run of a single loop. */
  lemma {:induction false} SpacedWhileAlone(states: seq<Service>, events: seq<Event>, gronx: Gronx, n: nat)
    requires IsRun(states, events, gronx) && Initial(states[0]) && n <= |events|
    requires forall k | 0 <= k <= n :: Alone(states[k])
    ensures Spaced(states[n].log) && Safe(states[n])
  {
    if n > 0 {
      SpacedWhileAlone(states, events, gronx, n - 1);
      LoopsKeepPeriods(states, events, gronx, n - 1);
      CronRuns(states, events, gronx, n - 1);
      SpacedStep(states[n - 1], events[n - 1], gronx);
      AloneStep(states[n - 1], events[n - 1], gronx);
    }
  }

  /** The loops of dead processes hold nothing. */
  ghost predicate GoneIdle(s: Service) {
    s.gone <= |s.loops| && forall l | 0 <= l < s.gone :: Idle(s.loops[l])
  }

  lemma {:induction false} GoneStays(states: seq<Service>, events: seq<Event>, gronx: Gronx, n: nat)
    requires IsRun(states, events, gronx) && Initial(states[0]) && n <= |events|
    ensures GoneIdle(states[n])
  {
    if n > 0 {
      GoneStays(states, events, gronx, n - 1);
      GoneStep(states[n - 1], events[n - 1], gronx);
    }
  }

  lemma {:induction false} GoneStep(s: Service, e: Event, gronx: Gronx)
    requires GoneIdle(s) && Possible(s, e)
    ensures GoneIdle(Step(s, e, gronx))
  {}

  /** One loop is always alone: processes may die and follow one another, if each has no more than one. */
  lemma {:induction false} OneLoopIsSpaced(states: seq<Service>, events: seq<Event>, gronx: Gronx, n: nat)
    requires IsRun(states, events, gronx) && Initial(states[0]) && n <= |events|
    requires forall k | 0 <= k <= n :: |states[k].loops| <= states[k].gone + 1
    ensures Spaced(states[n].log)
  {
    forall k | 0 <= k <= n ensures Alone(states[k]) { GoneStays(states, events, gronx, k); }
    SpacedWhileAlone(states, events, gronx, n);
  }

  // ---------------------------------------------------------------- a restart

  lemma {:induction false} Extend(states: seq<Service>, events: seq<Event>, gronx: Gronx, e: Event, t: Service)
    requires IsRun(states, events, gronx) && Possible(states[|events|], e) && t == Step(states[|events|], e, gronx)
    ensures IsRun(states + [t], events + [e], gronx) && (states + [t])[|events + [e]|] == t
    ensures (states + [t])[0] == states[0]
  {}

  /** A store with one job. */
  function Single(j: Job, running: bool, loops: seq<Loop>, clock: int, log: seq<Exec>): Service {
    Service([j], [j], running, loops, 0, clock, {j.id}, log)
  }

  lemma {:induction false} StartSingle(j: Job, loops: seq<Loop>, clock: int, gronx: Gronx)
    requires j.enabled
    ensures Step(Single(j, false, loops, clock, []), Start, gronx)
            == Single(Rescheduled(j, clock, gronx), true, loops + [Loop([], None)], clock, [])
  {
    assert Recompute([j], clock, gronx) == [Rescheduled(j, clock, gronx)];
  }

  lemma {:induction false} CheckSingle(j: Job, loops: seq<Loop>, clock: int, l: nat, gronx: Gronx)
    requires IsDue(j, clock) && l < |loops| && Idle(loops[l])
    ensures Step(Single(j, true, loops, clock, []), Check(l), gronx)
            == Single(j.(next := None), true, loops[l := Loop([j.id], None)], clock, [])
  {
    assert [j][..0] == [] && DueIDs([], clock) == [];
    assert DueIDs([j], clock) == [j.id];
    assert ClearNext([j], [j.id]) == [j.(next := None)];
  }

  lemma {:induction false} BeginSingle(j: Job, loops: seq<Loop>, clock: int, log: seq<Exec>, l: nat, gronx: Gronx)
    requires l < |loops| && loops[l] == Loop([j.id], None)
    ensures Step(Single(j, true, loops, clock, log), Begin(l), gronx)
            == Single(j, true, loops[l := Loop([], Some((j.id, clock)))], clock, log + [Exec(j.id, j.schedule, clock, l)])
  {
    assert loops[l].due[1..] == [];
  }

  /** One loop collects the job, and is held up. */
  lemma {:induction false} HeldOnce(gronx: Gronx) returns (states: seq<Service>, events: seq<Event>)
    ensures IsRun(states, events, gronx) && Initial(states[0])
    ensures states[|events|] == Single(Job("a", true, Every(Some(10)), None, None, false), true,
                                       [Loop(["a"], None)], 10, [])
  {
    var j := Job("a", true, Every(Some(10)), None, None, false);
    var none, held := Loop([], None), Loop(["a"], None);
    states, events := [Single(j, false, [], 0, [])], [];
    StartSingle(j, [], 0, gronx);
    states, events := Go(states, events, gronx, Start, Single(j.(next := Some(10)), true, [none], 0, []));
    states, events := Go(states, events, gronx, Tick(10), Single(j.(next := Some(10)), true, [none], 10, []));
    CheckSingle(j.(next := Some(10)), [none], 10, 0, gronx);
    states, events := Go(states, events, gronx, Check(0), Single(j, true, [held], 10, []));
  }

  /** The service is restarted, and the next loop collects it too. */
  lemma {:induction false} HeldTwice(gronx: Gronx) returns (states: seq<Service>, events: seq<Event>)
    ensures IsRun(states, events, gronx) && Initial(states[0])
    ensures states[|events|] == Single(Job("a", true, Every(Some(10)), None, None, false), true,
                                       [Loop(["a"], None), Loop(["a"], None)], 20, [])
  {
    var j := Job("a", true, Every(Some(10)), None, None, false);
    var none, held := Loop([], None), Loop(["a"], None);
    states, events := HeldOnce(gronx);
    states, events := Go(states, events, gronx, Stop, Single(j, false, [held], 10, []));
    StartSingle(j, [held], 10, gronx);
    states, events := Go(states, events, gronx, Start, Single(j.(next := Some(20)), true, [held, none], 10, []));
    states, events := Go(states, events, gronx, Tick(10), Single(j.(next := Some(20)), true, [held, none], 20, []));
    CheckSingle(j.(next := Some(20)), [held, none], 20, 1, gronx);
    states, events := Go(states, events, gronx, Check(1), Single(j, true, [held, held], 20, []));
  }

  lemma {:induction false} Go(states: seq<Service>, events: seq<Event>, gronx: Gronx, e: Event, t: Service)
      returns (states': seq<Service>, events': seq<Event>)
    requires IsRun(states, events, gronx) && Initial(states[0])
    requires Possible(states[|events|], e) && t == Step(states[|events|], e, gronx)
    ensures IsRun(states', events', gronx) && Initial(states'[0]) && states'[|events'|] == t
  {
    states', events' := states + [t], events + [e];
    Extend(states, events, gronx, e, t);
  }

  /** With two loops a job can be started twice at the same time, whatever its period. */
  lemma {:induction false} RestartBreaksSpacing(gronx: Gronx) returns (states: seq<Service>, events: seq<Event>)
    ensures IsRun(states, events, gronx) && Initial(states[0]) && !Spaced(states[|events|].log)
  {
    var j, held := Job("a", true, Every(Some(10)), None, None, false), Loop(["a"], None);
    var busy := Loop([], Some(("a", 20)));
    var x, y := Exec("a", Every(Some(10)), 20, 1), Exec("a", Every(Some(10)), 20, 0);
    states, events := HeldTwice(gronx);
    BeginSingle(j, [held, held], 20, [], 1, gronx);
    states, events := Go(states, events, gronx, Begin(1), Single(j, true, [held, busy], 20, [x]));
    BeginSingle(j, [held, busy], 20, [x], 0, gronx);
    states, events := Go(states, events, gronx, Begin(0), Single(j, true, [busy, busy], 20, [x, y]));
    assert !Apart([x, y][0], [x, y][1]);
  }
}
