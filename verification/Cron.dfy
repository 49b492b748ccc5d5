/**
  The cron service. Its check loop collects the due jobs under the lock and runs them outside it,
  so every other operation may fall between any two of its steps; stopping the service does not
  stop a loop that is still working through its due list, and starting it again adds another loop.
  The process may die between any two steps; the next one begins with the store that was saved.
*/
module Cron {

  import opened Options

  datatype Schedule =
    | At(at: Option<int>)
    | Every(every: Option<int>)
    | CronExpr(expr: string)
    | Unknown

  datatype Job = Job(id: string, enabled: bool, schedule: Schedule, next: Option<int>, last: Option<int>,
                     deleteAfterRun: bool)

  /** The library that evaluates cron expressions: next tick after a time, if any. */
  type Gronx = (string, int) -> Option<int>

  // ---------------------------------------------------------------- what the locked sections do

  function NextRun(schedule: Schedule, now: int, gronx: Gronx): Option<int> {
    match schedule
    case At(t) => if t.Some? && t.value > now then t else None
    case Every(p) => if p.None? || p.value <= 0 then None else Some(now + p.value)
    case CronExpr(e) => if e == "" then None else gronx(e, now)
    case Unknown => None
  }

  predicate IsDue(j: Job, now: int) {
    j.enabled && j.next.Some? && j.next.value <= now
  }

  /** IDs of the due jobs, in the order of the jobs. */
  function DueIDs(jobs: seq<Job>, now: int): seq<string> {
    if jobs == [] then []
    else DueIDs(jobs[..|jobs| - 1], now) + if IsDue(jobs[|jobs| - 1], now) then [jobs[|jobs| - 1].id] else []
  }

  /** The first job with this ID, or |jobs|. */
  function Find(jobs: seq<Job>, id: string, from: nat): (i: nat)
    requires from <= |jobs|
    ensures from <= i <= |jobs| && (i < |jobs| ==> jobs[i].id == id)
    ensures forall k | from <= k < i :: jobs[k].id != id
    decreases |jobs| - from
  {
    if from < |jobs| && jobs[from].id != id then Find(jobs, id, from + 1) else from
  }

  function Cleared(j: Job, due: seq<string>): Job {
    if j.id in due then j.(next := None) else j
  }

  function ClearNext(jobs: seq<Job>, due: seq<string>): (r: seq<Job>)
    ensures |r| == |jobs| && forall i | 0 <= i < |jobs| :: r[i] == Cleared(jobs[i], due)
  {
    seq(|jobs|, i requires 0 <= i < |jobs| => Cleared(jobs[i], due))
  }

  function Rescheduled(j: Job, now: int, gronx: Gronx): Job {
    if j.enabled then j.(next := NextRun(j.schedule, now, gronx)) else j
  }

  function Recompute(jobs: seq<Job>, now: int, gronx: Gronx): (r: seq<Job>)
    ensures |r| == |jobs| && forall i | 0 <= i < |jobs| :: r[i] == Rescheduled(jobs[i], now, gronx)
  {
    seq(|jobs|, i requires 0 <= i < |jobs| => Rescheduled(jobs[i], now, gronx))
  }

  function Without(jobs: seq<Job>, id: string): (r: seq<Job>)
    ensures |r| <= |jobs|
  {
    if jobs == [] then []
    else Without(jobs[..|jobs| - 1], id) + if jobs[|jobs| - 1].id != id then [jobs[|jobs| - 1]] else []
  }

  function Enabled(j: Job, enabled: bool, now: int, gronx: Gronx): Job {
    j.(enabled := enabled, next := if enabled then NextRun(j.schedule, now, gronx) else None)
  }

  function SetEnabled(jobs: seq<Job>, id: string, enabled: bool, now: int, gronx: Gronx): seq<Job> {
    var i := Find(jobs, id, 0);
    if i == |jobs| then jobs else jobs[i := Enabled(jobs[i], enabled, now, gronx)]
  }

  /** A job that stays in the store, after its callback that started at `start`. */
  function Completed(j: Job, start: int, now: int, gronx: Gronx): Job {
    if j.schedule.At? then j.(last := Some(start), enabled := false, next := None)
    else j.(last := Some(start), next := NextRun(j.schedule, now, gronx))
  }

  function AfterRun(jobs: seq<Job>, id: string, start: int, now: int, gronx: Gronx): seq<Job> {
    var i := Find(jobs, id, 0);
    if i == |jobs| then jobs
    else if jobs[i].schedule.At? && jobs[i].deleteAfterRun then Without(jobs, id)
    else jobs[i := Completed(jobs[i], start, now, gronx)]
  }

  function NewJob(id: string, schedule: Schedule, now: int, gronx: Gronx): Job {
    Job(id, true, schedule, NextRun(schedule, now, gronx), None, schedule.At?)
  }

  // ---------------------------------------------------------------- the interleavings

  /** A loop's goroutine: the due jobs it has yet to begin, and the one whose callback is running. */
  datatype Loop = Loop(due: seq<string>, current: Option<(string, int)>)

  /** A callback that was started, and by which loop. */
  datatype Exec = Exec(id: string, schedule: Schedule, start: int, loop: nat)

  /** `file` is the saved store, `issued` all IDs ever given out, `log` all callbacks so far. The first
      `gone` loops were of processes that have died. */
  datatype Service = Service(jobs: seq<Job>, file: seq<Job>, running: bool, loops: seq<Loop>, gone: nat, clock: int,
                             issued: set<string>, log: seq<Exec>)

  datatype Event =
    | Tick(ms: nat)
    | Check(l: nat)
    | Begin(l: nat)
    | Finish(l: nat)
    | Add(id: string, schedule: Schedule)
    | Enable(id: string, enabled: bool)
    | Remove(id: string)
    | Start
    | Stop
    | Load
    | Die

  predicate Idle(loop: Loop) { loop.due == [] && loop.current.None? }

  predicate Possible(s: Service, e: Event) {
    match e
    case Check(l) => s.gone <= l < |s.loops| && Idle(s.loops[l])
    case Begin(l) => l < |s.loops| && s.loops[l].due != [] && s.loops[l].current.None?
    case Finish(l) => l < |s.loops| && s.loops[l].current.Some?
    case Add(id, _) => id !in s.issued
    case _ => true
  }

  function Saved(s: Service, jobs: seq<Job>): Service { s.(jobs := jobs, file := jobs) }

  function BeginHead(s: Service, l: nat): Service
    requires l < |s.loops| && s.loops[l].due != []
  {
    var id, rest := s.loops[l].due[0], s.loops[l].due[1..];
    var i := Find(s.jobs, id, 0);
    if i == |s.jobs| then s.(loops := s.loops[l := Loop(rest, None)])
    else s.(loops := s.loops[l := Loop(rest, Some((id, s.clock)))],
            log := s.log + [Exec(id, s.jobs[i].schedule, s.clock, l)])
  }

  function CheckLoop(s: Service, l: nat): Service
    requires l < |s.loops|
  {
    if !s.running then s
    else
      var due := DueIDs(s.jobs, s.clock);
      Saved(s, ClearNext(s.jobs, due)).(loops := s.loops[l := Loop(due, None)])
  }

  function FinishCurrent(s: Service, l: nat, gronx: Gronx): Service
    requires l < |s.loops| && s.loops[l].current.Some?
  {
    var (id, start) := s.loops[l].current.value;
    Saved(s, AfterRun(s.jobs, id, start, s.clock, gronx)).(loops := s.loops[l := s.loops[l].(current := None)])
  }

  function Step(s: Service, e: Event, gronx: Gronx): Service
    requires Possible(s, e)
  {
    match e
    case Tick(ms) => s.(clock := s.clock + ms)
    case Check(l) => CheckLoop(s, l)
    case Begin(l) => BeginHead(s, l)
    case Finish(l) => FinishCurrent(s, l, gronx)
    case Add(id, schedule) =>
      Saved(s, s.jobs + [NewJob(id, schedule, s.clock, gronx)]).(issued := s.issued + {id})
    case Enable(id, enabled) => Saved(s, SetEnabled(s.jobs, id, enabled, s.clock, gronx))
    case Remove(id) => Saved(s, Without(s.jobs, id))
    case Start =>
      if s.running then s
      else Saved(s, Recompute(s.file, s.clock, gronx)).(running := true, loops := s.loops + [Loop([], None)])
    case Stop => s.(running := false)
    case Load => s.(jobs := s.file)
    case Die =>
      s.(jobs := s.file, running := false, loops := seq(|s.loops|, _ => Loop([], None)), gone := |s.loops|)
  }

  ghost predicate IsRun(states: seq<Service>, events: seq<Event>, gronx: Gronx) {
    && |states| == |events| + 1
    && forall n | 0 <= n < |events| :: Possible(states[n], events[n]) && states[n + 1] == Step(states[n], events[n], gronx)
  }

  ghost predicate UniqueIDs(jobs: seq<Job>) {
    forall i, k | 0 <= i < k < |jobs| :: jobs[i].id != jobs[k].id
  }

  /** A service that has just read its store. */
  ghost predicate Initial(s: Service) {
    && s.file == s.jobs && UniqueIDs(s.jobs) && !s.running && s.loops == [] && s.gone == 0 && s.log == []
    && forall j | j in s.jobs :: j.id in s.issued
  }

  // ---------------------------------------------------------------- bookkeeping that never breaks

  function CountID(ids: seq<string>, id: string): nat {
    if ids == [] then 0 else (if ids[0] == id then 1 else 0) + CountID(ids[1..], id)
  }

  /** Due-list entries for this job that no loop has begun yet. */
  function Pending(loops: seq<Loop>, id: string): nat {
    if loops == [] then 0 else CountID(loops[0].due, id) + Pending(loops[1..], id)
  }

  function Starts(log: seq<Exec>, id: string): nat {
    if log == [] then 0
    else Starts(log[..|log| - 1], id) + if log[|log| - 1].id == id then 1 else 0
  }

  ghost predicate NoDuplicates(ids: seq<string>) {
    forall i, k | 0 <= i < k < |ids| :: ids[i] != ids[k]
  }

  ghost predicate Known(s: Service, id: string) { id in s.issued }

  ghost predicate Basic(s: Service) {
    && s.file == s.jobs && UniqueIDs(s.jobs)
    && (forall j | j in s.jobs :: Known(s, j.id))
    && (forall x | x in s.log :: Known(s, x.id) && x.start <= s.clock)
    && (forall loop | loop in s.loops :: NoDuplicates(loop.due) && forall id | id in loop.due :: Known(s, id))
    && (forall x, j | x in s.log && j in s.jobs && x.id == j.id :: x.schedule == j.schedule)
    && (forall x | x in s.log :: x.loop < |s.loops|)
  }

  lemma {:induction false} WithoutMembers(jobs: seq<Job>, id: string)
    ensures forall j :: j in Without(jobs, id) <==> j in jobs && j.id != id
    ensures UniqueIDs(jobs) ==> UniqueIDs(Without(jobs, id))
  {
    if jobs != [] {
      var init, m := jobs[..|jobs| - 1], jobs[|jobs| - 1];
      WithoutMembers(init, id);
      assert init + [m] == jobs;
      if UniqueIDs(jobs) {
        assert UniqueIDs(init);
        forall j | j in Without(init, id) ensures j.id != m.id {
          var k :| 0 <= k < |init| && init[k] == j;
        }
      }
    }
  }

  /** The ID decides: another job of the list is a job with another ID. */
  lemma {:induction false} FindUnique(jobs: seq<Job>, id: string)
    requires UniqueIDs(jobs)
    ensures var i := Find(jobs, id, 0);
            && (i == |jobs| ==> forall j | j in jobs :: j.id != id)
            && (i < |jobs| ==> forall j | j in jobs :: j.id == id <==> j == jobs[i])
  {
    var i := Find(jobs, id, 0);
    forall j | j in jobs && j.id == id ensures i < |jobs| && j == jobs[i] {
      var k :| 0 <= k < |jobs| && jobs[k] == j;
    }
  }

  lemma {:induction false} ReplacedMembers(jobs: seq<Job>, i: nat, j: Job)
    requires UniqueIDs(jobs) && i < |jobs| && j.id == jobs[i].id
    ensures UniqueIDs(jobs[i := j])
    ensures forall x :: x in jobs[i := j] <==> x == j || (x in jobs && x.id != j.id)
  {
    forall x | x in jobs[i := j] ensures x == j || (x in jobs && x.id != j.id) {
      var k :| 0 <= k < |jobs| && jobs[i := j][k] == x;
    }
    assert jobs[i := j][i] == j;
    forall x | x in jobs && x.id != j.id ensures x in jobs[i := j] {
      var k :| 0 <= k < |jobs| && jobs[k] == x;
      assert jobs[i := j][k] == x;
    }
  }

  /** How each job of the new store comes from one of the old store. */
  datatype Change = Same | Clear | Reschedule | Enabling(enabled: bool) | Complete(start: int) | Fresh

  ghost predicate Becomes(s: Service, j: Job, c: Change, t: Job, gronx: Gronx) {
    match c
    case Same => j in s.jobs && t == j
    case Clear => j in s.jobs && t == j.(next := None)
    case Reschedule => j in s.jobs && j.enabled && t == Rescheduled(j, s.clock, gronx)
    case Enabling(b) => j in s.jobs && t == Enabled(j, b, s.clock, gronx)
    case Complete(start) => j in s.jobs && t == Completed(j, start, s.clock, gronx)
    case Fresh => t == NewJob(t.id, t.schedule, s.clock, gronx) && t.id !in s.issued
  }

  lemma {:induction false} FinishedOrigin(jobs: seq<Job>, id: string, start: int, now: int, gronx: Gronx, t: Job)
      returns (j: Job)
    requires UniqueIDs(jobs) && t in AfterRun(jobs, id, start, now, gronx)
    ensures j in jobs && t == if t.id == id then Completed(j, start, now, gronx) else j
  {
    var i := Find(jobs, id, 0);
    FindUnique(jobs, id);
    WithoutMembers(jobs, id);
    j := t;
    if i < |jobs| && !(jobs[i].schedule.At? && jobs[i].deleteAfterRun) {
      ReplacedMembers(jobs, i, Completed(jobs[i], start, now, gronx));
      if t.id == id { j := jobs[i]; }
    }
  }

  lemma {:induction false} EnabledOrigin(jobs: seq<Job>, id: string, enabled: bool, now: int, gronx: Gronx, t: Job)
      returns (j: Job)
    requires UniqueIDs(jobs) && t in SetEnabled(jobs, id, enabled, now, gronx)
    ensures j in jobs && t == if t.id == id then Enabled(j, enabled, now, gronx) else j
  {
    var i := Find(jobs, id, 0);
    FindUnique(jobs, id);
    j := t;
    if i < |jobs| {
      ReplacedMembers(jobs, i, Enabled(jobs[i], enabled, now, gronx));
      if t.id == id { j := jobs[i]; }
    }
  }

  lemma {:induction false} Origin(s: Service, e: Event, gronx: Gronx, t: Job) returns (j: Job, c: Change)
    requires Basic(s) && Possible(s, e) && t in Step(s, e, gronx).jobs
    ensures Becomes(s, j, c, t, gronx) && (!c.Fresh? ==> t.id == j.id && t.schedule == j.schedule)
    ensures c.Fresh? <==> e.Add? && t.id == e.id
    ensures c.Clear? <==> e.Check? && s.running && t.id in DueIDs(s.jobs, s.clock)
    ensures c.Complete? <==> e.Finish? && s.loops[e.l].current.value.0 == t.id
    ensures c.Enabling? <==> e.Enable? && e.id == t.id
    ensures c.Reschedule? <==> e.Start? && !s.running && j.enabled
  {
    hide Find, Without, AfterRun, SetEnabled, DueIDs, Recompute, ClearNext, NextRun;
    j, c := t, Same;
    match e
    case Check(l) =>
      if s.running {
        var due := DueIDs(s.jobs, s.clock);
        var i :| 0 <= i < |s.jobs| && ClearNext(s.jobs, due)[i] == t;
        j, c := s.jobs[i], if t.id in due then Clear else Same;
      }
    case Finish(l) =>
      var (id, start) := s.loops[l].current.value;
      j := FinishedOrigin(s.jobs, id, start, s.clock, gronx, t);
      c := if t.id == id then Complete(start) else Same;
    case Add(id, schedule) =>
      if t.id == id { c := Fresh; }
    case Enable(id, enabled) =>
      j := EnabledOrigin(s.jobs, id, enabled, s.clock, gronx, t);
      c := if t.id == id then Enabling(enabled) else Same;
    case Remove(id) => WithoutMembers(s.jobs, id);
    case Start =>
      if !s.running {
        var i :| 0 <= i < |s.jobs| && Recompute(s.jobs, s.clock, gronx)[i] == t;
        j, c := s.jobs[i], if s.jobs[i].enabled then Reschedule else Same;
      }
    case _ =>
  }

  ghost predicate SomeDue(jobs: seq<Job>, now: int, id: string) {
    exists j | j in jobs :: j.id == id && IsDue(j, now)
  }

  lemma {:induction false} DueMembers(jobs: seq<Job>, now: int)
    ensures forall id :: id in DueIDs(jobs, now) <==> SomeDue(jobs, now, id)
    ensures UniqueIDs(jobs) ==> NoDuplicates(DueIDs(jobs, now))
  {
    if jobs != [] {
      var init, m := jobs[..|jobs| - 1], jobs[|jobs| - 1];
      DueMembers(init, now);
      assert init + [m] == jobs;
      forall id ensures SomeDue(jobs, now, id) <==> SomeDue(init, now, id) || (id == m.id && IsDue(m, now)) {
        SomeDueAppend(init, m, now, id);
      }
      if UniqueIDs(jobs) && IsDue(m, now) { LastIsNew(init, m, now); }
    }
  }

  lemma {:induction false} SomeDueAppend(init: seq<Job>, m: Job, now: int, id: string)
    ensures SomeDue(init + [m], now, id) <==> SomeDue(init, now, id) || (id == m.id && IsDue(m, now))
  {
    assert forall j :: j in init + [m] <==> j in init || j == m;
  }

  lemma {:induction false} LastIsNew(init: seq<Job>, m: Job, now: int)
    requires UniqueIDs(init + [m])
    ensures !SomeDue(init, now, m.id)
  {
    forall j | j in init ensures j.id != m.id {
      var k :| 0 <= k < |init| && init[k] == j;
      assert (init + [m])[k] == j && (init + [m])[|init|] == m;
    }
  }

  lemma {:induction false} FinishedIDs(jobs: seq<Job>, id: string, start: int, now: int, gronx: Gronx)
    requires UniqueIDs(jobs)
    ensures UniqueIDs(AfterRun(jobs, id, start, now, gronx))
  {
    var i := Find(jobs, id, 0);
    WithoutMembers(jobs, id);
    if i < |jobs| { ReplacedMembers(jobs, i, Completed(jobs[i], start, now, gronx)); }
  }

  lemma {:induction false} AppendedIDs(jobs: seq<Job>, m: Job)
    requires UniqueIDs(jobs) && forall j | j in jobs :: j.id != m.id
    ensures UniqueIDs(jobs + [m])
  {
    assert forall i | 0 <= i < |jobs| :: jobs[i] in jobs;
  }

  lemma {:induction false} UniqueStep(s: Service, e: Event, gronx: Gronx)
    requires Basic(s) && Possible(s, e)
    ensures UniqueIDs(Step(s, e, gronx).jobs)
  {
    match e
    case Finish(l) =>
      var (id, start) := s.loops[l].current.value;
      FinishedIDs(s.jobs, id, start, s.clock, gronx);
    case Enable(id, enabled) =>
      var i := Find(s.jobs, id, 0);
      if i < |s.jobs| { ReplacedMembers(s.jobs, i, Enabled(s.jobs[i], enabled, s.clock, gronx)); }
    case Remove(id) => WithoutMembers(s.jobs, id);
    case Add(id, schedule) => AppendedIDs(s.jobs, NewJob(id, schedule, s.clock, gronx));
    case _ =>
  }

  lemma {:induction false} TailNoDuplicates(ids: seq<string>)
    requires ids != [] && NoDuplicates(ids)
    ensures NoDuplicates(ids[1..]) && ids[0] !in ids[1..] && forall id | id in ids[1..] :: id in ids
  {}

  lemma {:induction false} LoopsStep(s: Service, e: Event, gronx: Gronx)
    requires Basic(s) && Possible(s, e)
    ensures var t := Step(s, e, gronx);
            forall loop | loop in t.loops :: NoDuplicates(loop.due) && forall id | id in loop.due :: Known(t, id)
  {
    var t := Step(s, e, gronx);
    match e
    case Check(l) =>
      DueMembers(s.jobs, s.clock);
      assert forall loop | loop in t.loops :: loop in s.loops || loop == t.loops[l];
    case Begin(l) =>
      assert s.loops[l] in s.loops;
      assert t.loops[l].due == s.loops[l].due[1..];
      TailNoDuplicates(s.loops[l].due);
      assert forall loop | loop in t.loops :: loop in s.loops || loop == t.loops[l];
    case Finish(l) =>
      assert s.loops[l] in s.loops;
      assert forall loop | loop in t.loops :: loop in s.loops || loop == t.loops[l];
    case _ =>
  }

  lemma {:induction false} LogStep(s: Service, e: Event, gronx: Gronx)
    requires Basic(s) && Possible(s, e)
    ensures var t := Step(s, e, gronx); s.log <= t.log && |t.log| <= |s.log| + 1
    ensures var t := Step(s, e, gronx);
            t.log != s.log ==>
              && e.Begin? && t.log == s.log + [Exec(s.loops[e.l].due[0], t.log[|s.log|].schedule, s.clock, e.l)]
              && t.jobs == s.jobs
              && exists j :: j in s.jobs && j.id == s.loops[e.l].due[0] && j.schedule == t.log[|s.log|].schedule
  {
    if e.Begin? {
      var i := Find(s.jobs, s.loops[e.l].due[0], 0);
      if i < |s.jobs| {
        var j := s.jobs[i];
        assert j in s.jobs && j.id == s.loops[e.l].due[0];
        assert Step(s, e, gronx).log[|s.log|] == Exec(j.id, j.schedule, s.clock, e.l);
      }
    }
  }

  lemma {:induction false} BasicStep(s: Service, e: Event, gronx: Gronx)
    requires Basic(s) && Possible(s, e)
    ensures Basic(Step(s, e, gronx))
  {
    var t := Step(s, e, gronx);
    UniqueStep(s, e, gronx);
    LoopsStep(s, e, gronx);
    LogStep(s, e, gronx);
    forall j' | j' in t.jobs ensures Known(t, j'.id) {
      var j, c := Origin(s, e, gronx, j');
    }
    forall x, j' | x in t.log && j' in t.jobs && x.id == j'.id ensures x.schedule == j'.schedule {
      var j, c := Origin(s, e, gronx, j');
      if x !in s.log {
        var k :| k in s.jobs && k.id == x.id && k.schedule == x.schedule;
        FindUnique(s.jobs, x.id);
      }
    }
    forall x | x in t.log ensures Known(t, x.id) && x.start <= t.clock && x.loop < |t.loops| {
      if x !in s.log { var j :| j in s.jobs && j.id == x.id; }
    }
  }

  // ---------------------------------------------------------------- one-shot jobs

  function Used(s: Service, id: string): nat { Starts(s.log, id) + Pending(s.loops, id) }

  /** A one-shot job is scheduled for its time or not at all; once it has been collected, its time is
      over and nothing schedules it again. */
  ghost predicate OneShot(s: Service, j: Job) {
    j.schedule.At? ==>
      && (s.running && j.enabled ==> j.next.None? || j.next == j.schedule.at)
      && Used(s, j.id) <= 1
      && (Used(s, j.id) == 1 ==> j.next.None? && (j.schedule.at.None? || j.schedule.at.value <= s.clock))
  }

  ghost predicate OneShots(s: Service) { forall j | j in s.jobs :: OneShot(s, j) }

  ghost predicate AtMostOnce(log: seq<Exec>) {
    forall i, k | 0 <= i < k < |log| && log[i].id == log[k].id :: !log[k].schedule.At?
  }

  lemma {:induction false} PendingReplace(loops: seq<Loop>, l: nat, loop: Loop, id: string)
    requires l < |loops|
    ensures Pending(loops[l := loop], id) + CountID(loops[l].due, id) == Pending(loops, id) + CountID(loop.due, id)
    decreases l
  {
    if l > 0 {
      assert loops[l := loop][1..] == loops[1..][l - 1 := loop];
      PendingReplace(loops[1..], l - 1, loop, id);
    } else {
      assert loops[0 := loop][1..] == loops[1..];
    }
  }

  lemma {:induction false} PendingAppend(loops: seq<Loop>, loop: Loop, id: string)
    requires loop.due == []
    ensures Pending(loops + [loop], id) == Pending(loops, id)
  {
    if loops != [] {
      assert (loops + [loop])[1..] == loops[1..] + [loop];
      PendingAppend(loops[1..], loop, id);
    } else {
      assert ([] + [loop])[1..] == [];
    }
  }

  lemma {:induction false} CountNoDuplicates(ids: seq<string>, id: string)
    requires NoDuplicates(ids)
    ensures CountID(ids, id) == if id in ids then 1 else 0
  {
    if ids != [] { CountNoDuplicates(ids[1..], id); }
  }

  lemma {:induction false} UnknownIsUnused(s: Service, id: string)
    requires Basic(s) && !Known(s, id)
    ensures Used(s, id) == 0
  {
    NoStarts(s.log, id);
    NoPending(s.loops, id);
  }

  lemma {:induction false} NoStarts(log: seq<Exec>, id: string)
    ensures Starts(log, id) == 0 <==> forall x | x in log :: x.id != id
  {
    if log != [] {
      var init := log[..|log| - 1];
      NoStarts(init, id);
      assert forall x | x in log :: x in init || x == log[|log| - 1];
      assert log[|log| - 1] in log;
    }
  }

  lemma {:induction false} NoPending(loops: seq<Loop>, id: string)
    requires forall loop | loop in loops :: id !in loop.due
    ensures Pending(loops, id) == 0
  {
    if loops != [] {
      assert loops[0] in loops;
      CountAbsent(loops[0].due, id);
      NoPending(loops[1..], id);
    }
  }

  lemma {:induction false} CountAbsent(ids: seq<string>, id: string)
    requires id !in ids
    ensures CountID(ids, id) == 0
  {
    if ids != [] { CountAbsent(ids[1..], id); }
  }

  /** Only collecting a due job uses it up; beginning it turns a pending entry into a start. Pending entries
      die with the process. */
  lemma {:induction false} UsedStep(s: Service, e: Event, gronx: Gronx, j: Job)
    requires Basic(s) && Possible(s, e) && j in s.jobs
    ensures e.Die? ==> Used(Step(s, e, gronx), j.id) == Starts(s.log, j.id) <= Used(s, j.id)
    ensures !e.Die? ==> Used(Step(s, e, gronx), j.id)
                        == Used(s, j.id) + if e.Check? && s.running && IsDue(j, s.clock) then 1 else 0
  {
    var id := j.id;
    match e
    case Check(l) => UsedCheck(s, l, j);
    case Begin(l) => UsedBegin(s, l, j);
    case Finish(l) => PendingReplace(s.loops, l, s.loops[l].(current := None), id);
    case Start => PendingAppend(s.loops, Loop([], None), id);
    case Die => NoPending(Step(s, e, gronx).loops, id);
    case _ =>
  }

  lemma {:induction false} UsedCheck(s: Service, l: nat, j: Job)
    requires Basic(s) && j in s.jobs && l < |s.loops| && Idle(s.loops[l])
    ensures Used(CheckLoop(s, l), j.id) == Used(s, j.id) + if s.running && IsDue(j, s.clock) then 1 else 0
  {
    if s.running {
      var due := DueIDs(s.jobs, s.clock);
      PendingReplace(s.loops, l, Loop(due, None), j.id);
      DueMembers(s.jobs, s.clock);
      CountNoDuplicates(due, j.id);
      FindUnique(s.jobs, j.id);
    }
  }

  lemma {:induction false} UsedBegin(s: Service, l: nat, j: Job)
    requires Basic(s) && j in s.jobs && l < |s.loops| && s.loops[l].due != []
    ensures Used(BeginHead(s, l), j.id) == Used(s, j.id)
  {
    hide Basic;
    var id, rest := s.loops[l].due[0], s.loops[l].due[1..];
    PendingReplace(s.loops, l, Loop(rest, None), j.id);
    PendingReplace(s.loops, l, Loop(rest, Some((id, s.clock))), j.id);
    var log := BeginHead(s, l).log;
    if log != s.log { assert log[..|s.log|] == s.log; }
    assert j.id == id ==> Find(s.jobs, id, 0) < |s.jobs|;
  }

  lemma {:induction false} OneShotStep(s: Service, e: Event, gronx: Gronx)
    requires Basic(s) && OneShots(s) && Possible(s, e)
    ensures OneShots(Step(s, e, gronx))
  {
    var t := Step(s, e, gronx);
    forall j' | j' in t.jobs ensures OneShot(t, j') {
      var j, c := Origin(s, e, gronx, j');
      if c.Fresh? {
        UnknownIsUnused(s, j'.id);
        assert Used(t, j'.id) == Used(s, j'.id);
      } else {
        UsedStep(s, e, gronx, j);
        assert OneShot(s, j);
        if e.Check? {
          DueMembers(s.jobs, s.clock);
          FindUnique(s.jobs, j.id);
        }
      }
    }
  }

  lemma {:induction false} OnceStep(s: Service, e: Event, gronx: Gronx)
    requires Basic(s) && OneShots(s) && Possible(s, e) && AtMostOnce(s.log)
    ensures AtMostOnce(Step(s, e, gronx).log)
  {
    var t := Step(s, e, gronx);
    LogStep(s, e, gronx);
    if t.log != s.log {
      var id, n := s.loops[e.l].due[0], |s.log|;
      var j :| j in s.jobs && j.id == id && j.schedule == t.log[n].schedule;
      if j.schedule.At? {
        assert OneShot(s, j);
        PendingHead(s.loops, e.l);
        NoStarts(s.log, id);
        forall i | 0 <= i < n ensures t.log[i].id != id { assert s.log[i] in s.log; }
      }
      assert forall i | 0 <= i < n :: t.log[i] == s.log[i];
    }
  }

  lemma {:induction false} PendingHead(loops: seq<Loop>, l: nat)
    requires l < |loops| && loops[l].due != []
    ensures Pending(loops, loops[l].due[0]) > 0
    decreases l
  {
    if l > 0 {
      PendingHead(loops[1..], l - 1);
    }
  }

  // ---------------------------------------------------------------- no job is forgotten

  /** In the hands of a loop of this process. */
  ghost predicate InFlight(s: Service, id: string) {
    exists l | s.gone <= l < |s.loops| :: Holds(s.loops[l], id)
  }

  predicate Holds(loop: Loop, id: string) {
    id in loop.due || (loop.current.Some? && loop.current.value.0 == id)
  }

  predicate IsPeriodic(schedule: Schedule) { schedule.Every? && schedule.every.Some? && schedule.every.value > 0 }

  predicate Periodic(j: Job) { IsPeriodic(j.schedule) }

  /** A periodic job that is enabled has a next run, or some loop is about to run or running it. */
  ghost predicate NotStranded(s: Service, j: Job) {
    s.running && j.enabled && Periodic(j) ==> j.next.Some? || InFlight(s, j.id)
  }

  ghost predicate NoneStranded(s: Service) { forall j | j in s.jobs :: NotStranded(s, j) }

  /** A job leaves a loop's hands only when its callback is over, when it is gone, or with the process. */
  lemma {:induction false} FlightStep(s: Service, e: Event, gronx: Gronx, id: string)
    requires Possible(s, e) && InFlight(s, id) && !InFlight(Step(s, e, gronx), id)
    ensures || (e.Finish? && s.loops[e.l].current.value.0 == id)
            || (e.Begin? && Find(s.jobs, id, 0) == |s.jobs|)
            || e.Die?
  {
    var t := Step(s, e, gronx);
    var l :| s.gone <= l < |s.loops| && Holds(s.loops[l], id);
    assert t.gone <= l < |t.loops| ==> !Holds(t.loops[l], id);
  }

  lemma {:induction false} StrandStep(s: Service, e: Event, gronx: Gronx)
    requires Basic(s) && NoneStranded(s) && Possible(s, e)
    ensures NoneStranded(Step(s, e, gronx))
  {
    var t := Step(s, e, gronx);
    forall j' | j' in t.jobs ensures NotStranded(t, j') {
      var j, c := Origin(s, e, gronx, j');
      if c.Clear? {
        assert Holds(t.loops[e.l], j'.id);
      } else if c.Same? {
        assert NotStranded(s, j);
        FindUnique(s.jobs, j.id);
        if s.running && InFlight(s, j.id) && !InFlight(t, j.id) { FlightStep(s, e, gronx, j.id); }
      }
    }
  }

  // ---------------------------------------------------------------- all runs

  ghost predicate Invariant(s: Service) {
    Basic(s) && OneShots(s) && AtMostOnce(s.log) && NoneStranded(s)
  }

  lemma {:induction false} InvariantStep(s: Service, e: Event, gronx: Gronx)
    requires Invariant(s) && Possible(s, e)
    ensures Invariant(Step(s, e, gronx))
  {
    BasicStep(s, e, gronx);
    OneShotStep(s, e, gronx);
    OnceStep(s, e, gronx);
    StrandStep(s, e, gronx);
  }

  /** In every state of every run, whatever the interleaving of checks, callbacks, edits, stops, starts and
      deaths of the process: no one-shot job has been run twice, and while the service runs every enabled periodic
      job has a next run or is in the hands of a loop of the living process. */
  lemma {:induction false} CronRuns(states: seq<Service>, events: seq<Event>, gronx: Gronx, n: nat)
    requires IsRun(states, events, gronx) && Initial(states[0]) && n <= |events|
    ensures AtMostOnce(states[n].log)
    ensures NoneStranded(states[n])
    ensures Invariant(states[n])
  {
    if n == 0 {
      var s := states[0];
      forall j | j in s.jobs ensures OneShot(s, j) { assert Used(s, j.id) == 0; }
    } else {
      CronRuns(states, events, gronx, n - 1);
      InvariantStep(states[n - 1], events[n - 1], gronx);
    }
  }

  // ---------------------------------------------------------------- what dies with the process

  /** No loop has the job in its due list, and nothing will schedule it: it is for a time that has passed. */
  ghost predicate Over(s: Service, id: string) {
    && Known(s, id) && Pending(s.loops, id) == 0
    && forall j | j in s.jobs && j.id == id ::
         j.schedule.At? && j.next.None? && (j.schedule.at.None? || j.schedule.at.value <= s.clock)
  }

  lemma {:induction false} OverPending(s: Service, e: Event, gronx: Gronx, id: string)
    requires Basic(s) && Possible(s, e) && Over(s, id)
    ensures Pending(Step(s, e, gronx).loops, id) == 0
  {
    match e
    case Check(l) =>
      if s.running {
        var due := DueIDs(s.jobs, s.clock);
        DueMembers(s.jobs, s.clock);
        CountAbsent(due, id);
        PendingReplace(s.loops, l, Loop(due, None), id);
      }
    case Begin(l) =>
      var rest := s.loops[l].due[1..];
      PendingReplace(s.loops, l, Loop(rest, None), id);
      PendingReplace(s.loops, l, Loop(rest, Some((s.loops[l].due[0], s.clock))), id);
    case Finish(l) => PendingReplace(s.loops, l, s.loops[l].(current := None), id);
    case Start => PendingAppend(s.loops, Loop([], None), id);
    case Die => NoPending(Step(s, e, gronx).loops, id);
    case _ =>
  }

  lemma {:induction false} OverLog(s: Service, e: Event, gronx: Gronx, id: string)
    requires Basic(s) && Possible(s, e) && Over(s, id)
    ensures Starts(Step(s, e, gronx).log, id) == Starts(s.log, id)
  {
    hide Basic, Step;
    var t := Step(s, e, gronx);
    LogStep(s, e, gronx);
    if t.log != s.log {
      assert t.log[..|s.log|] == s.log;
      PendingHead(s.loops, e.l);
    }
  }

  lemma {:induction false} OverStep(s: Service, e: Event, gronx: Gronx, id: string)
    requires Basic(s) && Possible(s, e) && Over(s, id)
    ensures Over(Step(s, e, gronx), id) && Starts(Step(s, e, gronx).log, id) == Starts(s.log, id)
  {
    hide Basic, Pending, Starts;
    var t := Step(s, e, gronx);
    OverPending(s, e, gronx, id);
    OverLog(s, e, gronx, id);
    forall j' | j' in t.jobs && j'.id == id
      ensures j'.schedule.At? && j'.next.None? && (j'.schedule.at.None? || j'.schedule.at.value <= t.clock)
    {
      var j, c := Origin(s, e, gronx, j');
    }
  }

  /** The process dies with a one-shot job collected and not yet started. */
  lemma {:induction false} DeathEnds(s: Service, gronx: Gronx, j: Job)
    requires Basic(s) && OneShots(s) && j in s.jobs && j.schedule.At? && Pending(s.loops, j.id) > 0
    ensures Over(Step(s, Die, gronx), j.id) && Starts(Step(s, Die, gronx).log, j.id) == 0
  {
    var t := Step(s, Die, gronx);
    assert OneShot(s, j);
    FindUnique(s.jobs, j.id);
    NoPending(t.loops, j.id);
  }

  /** Then that job is never started, whatever happens to it and to the service afterwards. */
  lemma {:induction false} LostForGood(states: seq<Service>, events: seq<Event>, gronx: Gronx, m: nat, n: nat, j: Job)
    requires IsRun(states, events, gronx) && Initial(states[0]) && m < n <= |events| && events[m].Die?
    requires j in states[m].jobs && j.schedule.At? && Pending(states[m].loops, j.id) > 0
    ensures Over(states[n], j.id) && Starts(states[n].log, j.id) == 0
  {
    hide Over, Starts, Pending, Step;
    CronRuns(states, events, gronx, n - 1);
    if n == m + 1 {
      DeathEnds(states[m], gronx, j);
    } else {
      LostForGood(states, events, gronx, m, n - 1, j);
      OverStep(states[n - 1], events[n - 1], gronx, j.id);
    }
  }
}
