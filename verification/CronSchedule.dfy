/**
  What every job is set for. A one-shot job keeps its appointment until a check collects it; the next run of a
  recurring job counts from the moment at which it was last set, and only the end of its run, an edit or a start
  of the service sets it.
*/
module CronSchedule {
  import opened Options
  import opened Cron

  // ---------------------------------------------------------------- recurring jobs

  /** The step sets the job's next run anew. */
  ghost predicate Sets(s: Service, e: Event, j: Job)
    requires Possible(s, e)
  {
    match e
    case Add(id, _) => id == j.id
    case Enable(id, enabled) => id == j.id && enabled
    case Finish(l) => s.loops[l].current.value.0 == j.id
    case Start => !s.running
    case _ => false
  }

  /** One period from this moment, or the library's tick behind it. */
  ghost predicate CountsFrom(j: Job, moment: int, gronx: Gronx) {
    || (j.schedule.Every? && j.schedule.every.Some? && j.next == Some(moment + j.schedule.every.value))
    || (j.schedule.CronExpr? && j.next == gronx(j.schedule.expr, moment))
  }

  ghost predicate Recurs(j: Job) {
    || (j.schedule.Every? && j.schedule.every.Some? && j.schedule.every.value > 0)
    || (j.schedule.CronExpr? && j.schedule.expr != "")
  }

  lemma {:induction false} SetsNow(s: Service, e: Event, gronx: Gronx, j: Job)
    requires Basic(s) && Possible(s, e) && j in Step(s, e, gronx).jobs
    requires j.enabled && Recurs(j) && Sets(s, e, j)
    ensures CountsFrom(j, s.clock, gronx)
  {
    var k, c := Origin(s, e, gronx, j);
  }

  /** What no step sets and no loop holds is as it was. */
  lemma {:induction false} KeepsNext(s: Service, e: Event, gronx: Gronx, j: Job)
    requires Basic(s) && Possible(s, e) && j in Step(s, e, gronx).jobs
    requires j.enabled && !Sets(s, e, j) && Step(s, e, gronx).running && !InFlight(Step(s, e, gronx), j.id)
    ensures j in s.jobs && s.running && !InFlight(s, j.id)
  {
    var t := Step(s, e, gronx);
    var k, c := Origin(s, e, gronx, j);
    if c.Clear? { assert Holds(t.loops[e.l], j.id); }
    FindUnique(s.jobs, j.id);
    if InFlight(s, j.id) { FlightStep(s, e, gronx, j.id); }
  }

  /** In every state of every run: a recurring job that is enabled and in no loop's hands has the next run that
      counts from the step which last set it. */
  lemma {:induction false} SetSince(states: seq<Service>, events: seq<Event>, gronx: Gronx, n: nat, j: Job) returns (m: nat)
    requires IsRun(states, events, gronx) && Initial(states[0]) && n <= |events| && states[n].running
    requires j in states[n].jobs && j.enabled && Recurs(j) && !InFlight(states[n], j.id)
    ensures m < n && Sets(states[m], events[m], j) && CountsFrom(j, states[m].clock, gronx)
    ensures forall k | m < k <= n :: j in states[k].jobs
  {
    hide Step, Sets, CountsFrom, Recurs, Basic;
    CronRuns(states, events, gronx, n - 1);
    m := n - 1;
    if Sets(states[m], events[m], j) {
      SetsNow(states[m], events[m], gronx, j);
    } else {
      KeepsNext(states[m], events[m], gronx, j);
      m := SetSince(states, events, gronx, m, j);
    }
  }

  /** A job of an unknown kind, or without a time, a period or an expression to go by. */
  ghost predicate Timeless(j: Job) {
    match j.schedule
    case At(at) => at.None?
    case Every(every) => every.None? || every.value <= 0
    case CronExpr(expr) => expr == ""
    case Unknown => true
  }

  ghost predicate NoneTimeless(s: Service) {
    s.running ==> forall j | j in s.jobs && j.enabled && Timeless(j) :: j.next.None?
  }

  lemma {:induction false} TimelessStep(s: Service, e: Event, gronx: Gronx)
    requires Basic(s) && NoneTimeless(s) && Possible(s, e)
    ensures NoneTimeless(Step(s, e, gronx))
  {
    var t := Step(s, e, gronx);
    if t.running {
      forall j' | j' in t.jobs && j'.enabled && Timeless(j') ensures j'.next.None? {
        var j, c := Origin(s, e, gronx, j');
      }
    }
  }

  /** Such a job is never scheduled while the service runs. */
  lemma {:induction false} TimelessNeverRun(states: seq<Service>, events: seq<Event>, gronx: Gronx, n: nat)
    requires IsRun(states, events, gronx) && Initial(states[0]) && n <= |events|
    ensures NoneTimeless(states[n])
  {
    if n > 0 {
      hide NoneTimeless, Step, Basic;
      TimelessNeverRun(states, events, gronx, n - 1);
      CronRuns(states, events, gronx, n - 1);
      TimelessStep(states[n - 1], events[n - 1], gronx);
    } else {
      assert !states[0].running;
    }
  }

  // ---------------------------------------------------------------- what stays switched on

  /** An operator switches the job off, or removes it. */
  predicate SwitchesOff(e: Event, id: string) { e == Enable(id, false) || e == Remove(id) }

  lemma {:induction false} OthersFinish(jobs: seq<Job>, id: string, start: int, now: int, gronx: Gronx, j: Job)
    requires UniqueIDs(jobs) && j in jobs && j.id != id
    ensures j in AfterRun(jobs, id, start, now, gronx)
  {
    WithoutMembers(jobs, id);
    var k := Find(jobs, id, 0);
    if k < |jobs| { ReplacedMembers(jobs, k, Completed(jobs[k], start, now, gronx)); }
  }

  lemma {:induction false} StaysInStore(s: Service, e: Event, gronx: Gronx, j: Job) returns (j': Job)
    requires Basic(s) && Possible(s, e) && j in s.jobs && e != Remove(j.id)
    requires e.Finish? ==> s.loops[e.l].current.value.0 != j.id
    ensures j' in Step(s, e, gronx).jobs && j'.id == j.id
  {
    hide AfterRun, Without, Find, DueIDs, NextRun;
    var i :| 0 <= i < |s.jobs| && s.jobs[i] == j;
    var t := Step(s, e, gronx);
    match e
    case Finish(l) =>
      var (id, start) := s.loops[l].current.value;
      OthersFinish(s.jobs, id, start, s.clock, gronx, j);
      j' := j;
    case Remove(id) =>
      WithoutMembers(s.jobs, id);
      j' := j;
    case _ =>
      assert t.jobs[i].id == j.id;
      j' := t.jobs[i];
  }

  lemma {:induction false} StaysOn(s: Service, e: Event, gronx: Gronx, j: Job) returns (j': Job)
    requires Basic(s) && Possible(s, e) && j in s.jobs && j.enabled && !j.schedule.At? && !SwitchesOff(e, j.id)
    ensures j' in Step(s, e, gronx).jobs && j'.id == j.id && j'.schedule == j.schedule && j'.enabled
    ensures j'.last == if e.Finish? && s.loops[e.l].current.value.0 == j.id then Some(s.loops[e.l].current.value.1)
                       else j.last
  {
    if e.Finish? && s.loops[e.l].current.value.0 == j.id {
      var i := Find(s.jobs, j.id, 0);
      FindUnique(s.jobs, j.id);
      j' := Completed(j, s.loops[e.l].current.value.1, s.clock, gronx);
      ReplacedMembers(s.jobs, i, j');
    } else {
      j' := StaysInStore(s, e, gronx, j);
      var k, c := Origin(s, e, gronx, j');
      FindUnique(s.jobs, j.id);
    }
  }

  /** In every run a recurring job that is enabled stays in the store and enabled, run after run of it, until an
      operator switches it off or removes it. */
  lemma {:induction false} RecursForEver(states: seq<Service>, events: seq<Event>, gronx: Gronx, m: nat, n: nat, j: Job)
      returns (j': Job)
    requires IsRun(states, events, gronx) && Initial(states[0]) && m <= n <= |events|
    requires j in states[m].jobs && j.enabled && !j.schedule.At?
    requires forall k | m <= k < n :: !SwitchesOff(events[k], j.id)
    ensures j' in states[n].jobs && j'.id == j.id && j'.schedule == j.schedule && j'.enabled
  {
    j' := j;
    if m < n {
      hide SwitchesOff, Step, Basic;
      j' := RecursForEver(states, events, gronx, m, n - 1, j);
      CronRuns(states, events, gronx, n - 1);
      j' := StaysOn(states[n - 1], events[n - 1], gronx, j');
    }
  }

  /** A new job is switched on, and goes after its run if it is for one time only. */
  lemma {:induction false} AddedIsOn(s: Service, gronx: Gronx, id: string, schedule: Schedule)
    requires Basic(s) && Possible(s, Add(id, schedule))
    ensures exists j :: j in Step(s, Add(id, schedule), gronx).jobs && j.id == id && j.schedule == schedule
                        && j.enabled && j.last.None? && j.deleteAfterRun == schedule.At?
  {
    var j := NewJob(id, schedule, s.clock, gronx);
    assert j in Step(s, Add(id, schedule), gronx).jobs;
  }

  /** Switched off is off: the job has no next run. */
  lemma {:induction false} SwitchedOff(s: Service, gronx: Gronx, id: string, j': Job)
    requires Basic(s) && j' in Step(s, Enable(id, false), gronx).jobs && j'.id == id
    ensures !j'.enabled && j'.next.None?
  {
    var j, c := Origin(s, Enable(id, false), gronx, j');
  }

  /** A one-shot job that has run is gone from the store, or stays there switched off, as it asks for. */
  lemma {:induction false} OneShotIsOver(s: Service, l: nat, gronx: Gronx, j: Job)
    requires Basic(s) && Possible(s, Finish(l)) && j in s.jobs && j.schedule.At? && s.loops[l].current.value.0 == j.id
    ensures var t := Step(s, Finish(l), gronx);
      if j.deleteAfterRun then forall k | k in t.jobs :: k.id != j.id
      else exists k :: k in t.jobs && k.id == j.id && !k.enabled && k.next.None?
                       && k.last == Some(s.loops[l].current.value.1)
  {
    var i := Find(s.jobs, j.id, 0);
    FindUnique(s.jobs, j.id);
    WithoutMembers(s.jobs, j.id);
    var k := Completed(j, s.loops[l].current.value.1, s.clock, gronx);
    ReplacedMembers(s.jobs, i, k);
    assert !j.deleteAfterRun ==> k in Step(s, Finish(l), gronx).jobs;
  }

  // ---------------------------------------------------------------- one-shot jobs

  /** While the service runs, a one-shot job whose time is ahead is set for that time. */
  ghost predicate Appointed(s: Service, j: Job) {
    s.running && j.enabled && j.schedule.At? && j.schedule.at.Some? && s.clock < j.schedule.at.value ==>
      j.next == j.schedule.at
  }

  ghost predicate AllAppointed(s: Service) { forall j | j in s.jobs :: Appointed(s, j) }

  /** A callback that is running is in the log. */
  ghost predicate Logged(s: Service) {
    forall loop | loop in s.loops && loop.current.Some? :: Starts(s.log, loop.current.value.0) > 0
  }

  lemma {:induction false} AppointedStep(s: Service, e: Event, gronx: Gronx)
    requires Basic(s) && OneShots(s) && AllAppointed(s) && Possible(s, e)
    ensures AllAppointed(Step(s, e, gronx))
  {
    var t := Step(s, e, gronx);
    forall j' | j' in t.jobs ensures Appointed(t, j') {
      var j, c := Origin(s, e, gronx, j');
      if c.Clear? {
        assert OneShot(s, j) && Appointed(s, j);
        DueMembers(s.jobs, s.clock);
        FindUnique(s.jobs, j.id);
      }
    }
  }

  lemma {:induction false} StartsGrow(log: seq<Exec>, x: Exec, id: string)
    ensures Starts(log + [x], id) == Starts(log, id) + if x.id == id then 1 else 0
  {
    assert (log + [x])[..|log|] == log;
  }

  lemma {:induction false} LoggedStep(s: Service, e: Event, gronx: Gronx)
    requires Basic(s) && Logged(s) && Possible(s, e)
    ensures Logged(Step(s, e, gronx))
  {
    hide Basic;
    var t := Step(s, e, gronx);
    LogStep(s, e, gronx);
    forall loop | loop in t.loops && loop.current.Some? ensures Starts(t.log, loop.current.value.0) > 0 {
      var id := loop.current.value.0;
      if t.log != s.log { StartsGrow(s.log, t.log[|s.log|], id); }
      var l :| 0 <= l < |t.loops| && t.loops[l] == loop;
      if l < |s.loops| { assert s.loops[l] in s.loops; }
    }
  }

  lemma {:induction false} AppointmentsHold(states: seq<Service>, events: seq<Event>, gronx: Gronx, n: nat)
    requires IsRun(states, events, gronx) && Initial(states[0]) && n <= |events|
    ensures AllAppointed(states[n]) && Logged(states[n])
  {
    if n > 0 {
      hide Appointed, Step, Basic, OneShot;
      AppointmentsHold(states, events, gronx, n - 1);
      CronRuns(states, events, gronx, n - 1);
      AppointedStep(states[n - 1], events[n - 1], gronx);
      LoggedStep(states[n - 1], events[n - 1], gronx);
    }
  }

  /** The step collects the one-shot job, edits it, or finds at a start that its time is over. */
  ghost predicate Ends(s: Service, e: Event, j: Job) {
    match e
    case Check(_) => s.running && j.next.Some? && j.next.value <= s.clock
    case Enable(id, _) => id == j.id
    case Remove(id) => id == j.id
    case Start => !s.running && j.next.Some? && j.next.value <= s.clock
    case _ => false
  }

  /** A one-shot job that waits for its time. */
  ghost predicate Waiting(s: Service, j: Job) {
    j in s.jobs && j.enabled && j.schedule.At? && j.schedule.at.Some? && j.next == j.schedule.at
  }

  lemma {:induction false} WaitsOn(s: Service, e: Event, gronx: Gronx, j: Job)
    requires Basic(s) && OneShots(s) && Logged(s) && Possible(s, e) && Waiting(s, j) && !Ends(s, e, j)
    ensures Waiting(Step(s, e, gronx), j)
  {
    assert OneShot(s, j);
    if e.Finish? { assert s.loops[e.l] in s.loops; }
    var j' := StaysInStore(s, e, gronx, j);
    var k, c := Origin(s, e, gronx, j');
    FindUnique(s.jobs, j.id);
    if c.Clear? { DueMembers(s.jobs, s.clock); }
  }

  /** It waits, in every run, until a check at or after its time collects it, unless somebody enables, disables or
      removes it, or the service is started when its time has passed. */
  lemma {:induction false} KeepsAppointment(states: seq<Service>, events: seq<Event>, gronx: Gronx, m: nat, n: nat, j: Job)
    requires IsRun(states, events, gronx) && Initial(states[0]) && m <= n <= |events| && Waiting(states[m], j)
    requires forall k | m <= k < n :: !Ends(states[k], events[k], j)
    ensures Waiting(states[n], j)
  {
    if m < n {
      hide Waiting, Step, Ends, Basic, OneShot, Logged, AllAppointed;
      KeepsAppointment(states, events, gronx, m, n - 1, j);
      CronRuns(states, events, gronx, n - 1);
      AppointmentsHold(states, events, gronx, n - 1);
      WaitsOn(states[n - 1], events[n - 1], gronx, j);
    }
  }

  /** That check hands it to the loop, which starts it when its turn comes. */
  lemma {:induction false} CheckCollects(s: Service, l: nat, gronx: Gronx, j: Job)
    requires Basic(s) && Possible(s, Check(l)) && s.running && Waiting(s, j) && j.next.value <= s.clock
    ensures j.id in Step(s, Check(l), gronx).loops[l].due
  {
    DueMembers(s.jobs, s.clock);
  }

  lemma {:induction false} BeginStarts(s: Service, l: nat, gronx: Gronx, j: Job)
    requires Basic(s) && Possible(s, Begin(l)) && j in s.jobs && s.loops[l].due[0] == j.id
    ensures Step(s, Begin(l), gronx).log == s.log + [Exec(j.id, j.schedule, s.clock, l)]
    ensures Step(s, Begin(l), gronx).loops[l] == Loop(s.loops[l].due[1..], Some((j.id, s.clock)))
  {
    FindUnique(s.jobs, j.id);
  }
}
