/** The service object: the locked sections, each proved to be one step of the state machine. */
module CronService {
  import opened Options
  import opened Cron

  class Scheduler {
    var jobs: seq<Job>
    var file: seq<Job>
    var running: bool
    const gronx: Gronx

    /** The service of a new process, after the death of the one before. */
    constructor (file: seq<Job>, gronx: Gronx)
      ensures jobs == this.file == file && !running && this.gronx == gronx
      ensures forall s: Service | s.file == file ::
        var t := Step(s, Die, gronx);
        At(t.loops, t.gone, t.clock, t.issued, t.log) == t
    {
      this.file, jobs, running, this.gronx := file, file, false, gronx;
    }

    /** The same store, for a machine with these loops, this clock and this past. */
    ghost function At(loops: seq<Loop>, gone: nat, clock: int, issued: set<string>, log: seq<Exec>): Service
      reads this
    {
      Service(jobs, file, running, loops, gone, clock, issued, log)
    }

    method SaveStore()
      modifies this`file
      ensures file == jobs
    {
      file := jobs;
    }

    method RecomputeNextRuns(now: int)
      modifies this`jobs
      ensures jobs == Recompute(old(jobs), now, gronx)
    {
      ghost var before := jobs;
      for i := 0 to |jobs|
        invariant |jobs| == |before|
        invariant forall k | 0 <= k < i :: jobs[k] == Rescheduled(before[k], now, gronx)
        invariant forall k | i <= k < |jobs| :: jobs[k] == before[k]
      {
        if jobs[i].enabled {
          jobs := jobs[i := jobs[i].(next := NextRun(jobs[i].schedule, now, gronx))];
        }
      }
    }

    method StartService(now: int)
      modifies this
      ensures forall loops, gone, issued, log ::
        var before := old(At(loops, gone, now, issued, log));
        At(Step(before, Start, gronx).loops, gone, now, issued, log) == Step(before, Start, gronx)
    {
      if running {
        return;
      }
      jobs := file;
      RecomputeNextRuns(now);
      SaveStore();
      running := true;
    }

    method StopService()
      modifies this
      ensures forall loops, gone, now, issued, log ::
        At(loops, gone, now, issued, log) == Step(old(At(loops, gone, now, issued, log)), Stop, gronx)
    {
      running := false;
    }

    /** The first half of a check: which jobs are due, taken off the schedule in the same section. */
    method CollectDue(l: nat, now: int) returns (due: seq<string>)
      modifies this
      ensures forall loops: seq<Loop>, gone: nat, issued, log | gone <= l < |loops| && Idle(loops[l]) ::
        At(loops[l := Loop(due, None)], gone, now, issued, log)
        == Step(old(At(loops, gone, now, issued, log)), Check(l), gronx)
    {
      due := [];
      if !running {
        forall loops: seq<Loop>, gone: nat, issued, log | gone <= l < |loops| && Idle(loops[l])
          ensures At(loops[l := Loop(due, None)], gone, now, issued, log)
                  == Step(At(loops, gone, now, issued, log), Check(l), gronx)
        {
          assert loops[l := Loop(due, None)] == loops;
        }
        return;
      }
      for i := 0 to |jobs|
        invariant due == DueIDs(jobs[..i], now)
      {
        assert jobs[..i + 1][..i] == jobs[..i];
        if IsDue(jobs[i], now) {
          due := due + [jobs[i].id];
        }
      }
      assert jobs[..|jobs|] == jobs;
      ghost var before := jobs;
      for i := 0 to |jobs|
        invariant |jobs| == |before| && running
        invariant forall k | 0 <= k < i :: jobs[k] == Cleared(before[k], due)
        invariant forall k | i <= k < |jobs| :: jobs[k] == before[k]
      {
        if jobs[i].id in due {
          jobs := jobs[i := jobs[i].(next := None)];
        }
      }
      SaveStore();
      assert jobs == ClearNext(old(jobs), due);
      forall loops: seq<Loop>, gone: nat, issued, log | gone <= l < |loops| && Idle(loops[l])
        ensures At(loops[l := Loop(due, None)], gone, now, issued, log)
                == Step(old(At(loops, gone, now, issued, log)), Check(l), gronx)
      {}
    }

    method IndexOf(id: string) returns (i: nat)
      ensures i == Find(jobs, id, 0)
    {
      i := 0;
      while i < |jobs| && jobs[i].id != id
        invariant i <= |jobs| && Find(jobs, id, i) == Find(jobs, id, 0)
      {
        i := i + 1;
      }
    }

    /** A copy of the job for its callback, taken when the callback is about to start. */
    method LookUp(id: string) returns (job: Option<Job>)
      ensures job.None? <==> forall j | j in jobs :: j.id != id
      ensures job.Some? ==> job.value in jobs && job.value.id == id && job.value == jobs[Find(jobs, id, 0)]
    {
      var i := IndexOf(id);
      if i == |jobs| {
        return None;
      }
      return Some(jobs[i]);
    }

    method RemoveJob(id: string) returns (removed: bool)
      modifies this
      ensures jobs == Without(old(jobs), id)
      ensures removed <==> |jobs| < |old(jobs)|
      ensures removed ==> file == jobs
      ensures !removed ==> jobs == old(jobs) && file == old(file)
    {
      var kept: seq<Job> := [];
      for i := 0 to |jobs|
        invariant jobs == old(jobs) && kept == Without(jobs[..i], id)
      {
        assert jobs[..i + 1][..i] == jobs[..i];
        if jobs[i].id != id {
          kept := kept + [jobs[i]];
        }
      }
      assert jobs[..|jobs|] == jobs;
      removed := |kept| < |jobs|;
      if !removed { FullLength(jobs, id); }
      jobs := kept;
      if removed {
        SaveStore();
      }
    }

    static lemma {:induction false} FullLength(jobs: seq<Job>, id: string)
      requires |Without(jobs, id)| == |jobs|
      ensures Without(jobs, id) == jobs
    {
      if jobs != [] {
        FullLength(jobs[..|jobs| - 1], id);
        assert jobs[..|jobs| - 1] + [jobs[|jobs| - 1]] == jobs;
      }
    }

    /** After a callback that started at `start`: the state update of the job, if it is still there. */
    method FinishJob(id: string, start: int, now: int)
      requires file == jobs
      modifies this
      ensures jobs == file == AfterRun(old(jobs), id, start, now, gronx)
    {
      var i := IndexOf(id);
      if i == |jobs| {
        return;
      }
      ghost var before := jobs;
      jobs := jobs[i := jobs[i].(last := Some(start))];
      if jobs[i].schedule.At? {
        if jobs[i].deleteAfterRun {
          SameWithout(before, i, jobs[i], id);
          var _ := RemoveJob(id);
        } else {
          jobs := jobs[i := jobs[i].(enabled := false, next := None)];
        }
      } else {
        var nextRun := NextRun(jobs[i].schedule, now, gronx);
        jobs := jobs[i := jobs[i].(next := nextRun)];
      }
      SaveStore();
    }

    static lemma {:induction false} SameWithout(jobs: seq<Job>, i: nat, j: Job, id: string)
      requires i < |jobs| && j.id == jobs[i].id == id
      ensures Without(jobs[i := j], id) == Without(jobs, id)
      decreases |jobs|
    {
      var n := |jobs| - 1;
      if i < n {
        assert jobs[i := j][..n] == jobs[..n][i := j];
        SameWithout(jobs[..n], i, j, id);
      } else {
        assert jobs[i := j][..n] == jobs[..n];
      }
    }

    method AddJob(id: string, schedule: Schedule, now: int)
      modifies this
      ensures jobs == file == old(jobs) + [NewJob(id, schedule, now, gronx)]
    {
      var deleteAfterRun := schedule.At?;
      jobs := jobs + [Job(id, true, schedule, NextRun(schedule, now, gronx), None, deleteAfterRun)];
      SaveStore();
    }

    method EnableJob(id: string, enabled: bool, now: int)
      requires file == jobs
      modifies this
      ensures jobs == file == SetEnabled(old(jobs), id, enabled, now, gronx)
    {
      var i := IndexOf(id);
      if i < |jobs| {
        var job := jobs[i].(enabled := enabled);
        job := job.(next := if enabled then NextRun(job.schedule, now, gronx) else None);
        jobs := jobs[i := job];
        SaveStore();
      }
    }
  }
}
