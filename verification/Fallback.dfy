/**
  The fallback chain: which candidates are called, in what order, and what becomes of their failures.
  The calls themselves, the clock and the caller's cancellation are given, one moment for each candidate.
*/
module Fallback {

  import opened Options
  import opened Cooldown

  datatype Candidate = Candidate(provider: string, model: string)

  /** An error comes with its classification, if it has one. */
  datatype Reply = Response(text: string) | Failed(reason: Option<Reason>)

  /** What happens around a candidate, should it come to that. */
  datatype Moment = Moment(cancelledBefore: bool, checkedAt: int, reply: Reply, cancelledAfter: bool, markedAt: int)

  datatype Attempt = Attempt(candidate: Candidate, skipped: bool, reason: Reason)

  datatype Outcome =
    | NoCandidates
    | Answered(who: Candidate, text: string, attempts: seq<Attempt>)
    | Cancelled
    | Unclassified(who: Candidate)
    | Rejected(who: Candidate)
    | Exhausted(attempts: seq<Attempt>)

  predicate IsRetriable(r: Reason) { r != Format }

  /** The failures a trail of attempts marks. */
  function Marks(trail: seq<Attempt>, env: seq<Moment>): seq<Mark>
    requires |trail| <= |env|
  {
    if trail == [] then []
    else
      var n := |trail| - 1;
      Marks(trail[..n], env)
      + if trail[n].skipped then [] else [Mark(trail[n].candidate.provider, Failure(trail[n].reason, env[n].markedAt))]
  }

  ghost predicate AvailableAt(log: seq<Mark>, c: Candidate, now: int) {
    Available(After(Of(log, c.provider)), now)
  }

  /** A candidate to pass over: in cooldown, or with a failure another candidate may not share. */
  predicate Passes(available: bool, c: Candidate, m: Moment, a: Attempt) {
    && !m.cancelledBefore && a.candidate == c
    && if available then
         !a.skipped && !m.cancelledAfter && m.reply == Failed(Some(a.reason)) && a.reason != Format
       else
         a.skipped && a.reason == RateLimit
  }

  /** A candidate that settles the matter, and how. */
  predicate Settles(available: bool, c: Candidate, m: Moment, attempts: seq<Attempt>, outcome: Outcome) {
    if m.cancelledBefore then outcome == Cancelled
    else
      && available
      && match m.reply
         case Response(text) => outcome == Answered(c, text, attempts)
         case Failed(reason) =>
           if m.cancelledAfter then outcome == Cancelled
           else if reason.None? then outcome == Unclassified(c)
           else reason.value == Format && outcome == Rejected(c)
  }

  ghost predicate PassedOver(log: seq<Mark>, candidates: seq<Candidate>, env: seq<Moment>, trail: seq<Attempt>, i: nat)
    requires i < |trail| <= |candidates| == |env|
  {
    var available := AvailableAt(log + Marks(trail[..i], env), candidates[i], env[i].checkedAt);
    Passes(available, candidates[i], env[i], trail[i])
  }

  ghost predicate Tried(log: seq<Mark>, candidates: seq<Candidate>, env: seq<Moment>, trail: seq<Attempt>) {
    && |trail| <= |candidates| == |env|
    && forall i | 0 <= i < |trail| :: PassedOver(log, candidates, env, trail, i)
  }

  /** What the first candidate not passed over decides. */
  ghost predicate Decides(log: seq<Mark>, candidates: seq<Candidate>, env: seq<Moment>, trail: seq<Attempt>, outcome: Outcome)
    requires |trail| <= |candidates| == |env|
  {
    var k := |trail|;
    if candidates == [] then outcome == NoCandidates
    else if k == |candidates| then outcome == Exhausted(trail)
    else
      var available := AvailableAt(log + Marks(trail, env), candidates[k], env[k].checkedAt);
      Settles(available, candidates[k], env[k], trail, outcome)
  }

  /** The candidates called on the way, by index. */
  function Called(trail: seq<Attempt>): (calls: seq<nat>)
    ensures forall i | 0 <= i < |calls| :: calls[i] < |trail|
    ensures Rising(calls)
    ensures forall i | 0 <= i < |trail| :: i in calls <==> !trail[i].skipped
  {
    if trail == [] then []
    else
      var n := |trail| - 1;
      Called(trail[..n]) + if trail[n].skipped then [] else [n]
  }

  predicate Rising(calls: seq<nat>) { forall i, k | 0 <= i < k < |calls| :: calls[i] < calls[k] }

  /** And the one that decides, if it was called. */
  function CalledLast(candidates: seq<Candidate>, env: seq<Moment>, k: nat): seq<nat>
    requires k <= |candidates| == |env|
  {
    if k < |candidates| && !env[k].cancelledBefore then [k] else []
  }

  /** Each candidate at most once, and in order. */
  lemma {:induction false} CallsInOrder(candidates: seq<Candidate>, env: seq<Moment>, trail: seq<Attempt>)
    requires |trail| <= |candidates| == |env|
    ensures Rising(Called(trail) + CalledLast(candidates, env, |trail|))
  {
    var calls, last := Called(trail), CalledLast(candidates, env, |trail|);
    forall i, k | 0 <= i < k < |calls + last| ensures (calls + last)[i] < (calls + last)[k] {}
  }

  /** The clock does not run backwards. */
  ghost predicate Clocked(env: seq<Moment>, clock: int) {
    && (forall i | 0 <= i < |env| :: 0 < env[i].checkedAt <= env[i].markedAt && clock <= env[i].checkedAt)
    && forall i, k | 0 <= i < k < |env| :: env[i].markedAt <= env[k].checkedAt
  }

  // ---------------------------------------------------------------- consequences

  lemma {:induction false} TrailsAgree(log: seq<Mark>, candidates: seq<Candidate>, env: seq<Moment>,
                                       a: seq<Attempt>, b: seq<Attempt>)
    requires Tried(log, candidates, env, a) && Tried(log, candidates, env, b) && |a| <= |b|
    ensures a == b[..|a|]
  {
    if a != [] {
      var n := |a| - 1;
      TriedPrefix(log, candidates, env, a, n);
      TrailsAgree(log, candidates, env, a[..n], b);
      assert PassedOver(log, candidates, env, a, n) && PassedOver(log, candidates, env, b, n);
      assert a == a[..n] + [a[n]] && b[..|a|] == b[..n] + [b[n]];
    }
  }

  lemma {:induction false} TriedPrefix(log: seq<Mark>, candidates: seq<Candidate>, env: seq<Moment>,
                                       trail: seq<Attempt>, n: nat)
    requires Tried(log, candidates, env, trail) && n <= |trail|
    ensures Tried(log, candidates, env, trail[..n])
  {
    forall i | 0 <= i < n ensures PassedOver(log, candidates, env, trail[..n], i) {
      assert PassedOver(log, candidates, env, trail, i) && trail[..n][..i] == trail[..i];
    }
  }

  /** Past cooldowns, candidates, replies and clock leave the chain no choice. */
  lemma {:induction false} OutcomeIsDetermined(log: seq<Mark>, candidates: seq<Candidate>, env: seq<Moment>,
                            a: seq<Attempt>, x: Outcome, b: seq<Attempt>, y: Outcome)
    requires Tried(log, candidates, env, a) && Decides(log, candidates, env, a, x)
    requires Tried(log, candidates, env, b) && Decides(log, candidates, env, b, y)
    requires |a| <= |b|
    ensures a == b && x == y
  {
    TrailsAgree(log, candidates, env, a, b);
    if |a| < |b| {
      NotPassedOver(log, candidates, env, b, |a|, x);
      assert false;
    } else {
      assert b[..|a|] == b;
    }
  }

  lemma {:induction false} NotPassedOver(log: seq<Mark>, candidates: seq<Candidate>, env: seq<Moment>,
                                         trail: seq<Attempt>, k: nat, outcome: Outcome)
    requires k < |trail| <= |candidates| == |env| && Decides(log, candidates, env, trail[..k], outcome)
    ensures !PassedOver(log, candidates, env, trail, k)
  {}

  /** The failures of a trail, on its clock. */
  lemma {:induction false} MarksOnTime(log: seq<Mark>, clock: int, env: seq<Moment>, trail: seq<Attempt>)
    requires UpTo(log, clock) && Clocked(env, clock) && |trail| <= |env| && clock >= 0
    ensures UpTo(log + Marks(trail, env), if trail == [] then clock else env[|trail| - 1].markedAt)
  {
    if trail == [] {
      assert log + Marks(trail, env) == log;
    } else {
      var n := |trail| - 1;
      MarksOnTime(log, clock, env, trail[..n]);
      var before, was := log + Marks(trail[..n], env), if n == 0 then clock else env[n - 1].markedAt;
      assert n > 0 ==> env[n - 1].markedAt <= env[n].checkedAt;
      MarkOnTime(before, was, trail[n].candidate.provider, trail[n].reason, env[n].markedAt);
      if trail[n].skipped {
        assert log + Marks(trail, env) == before;
      } else {
        var m := Mark(trail[n].candidate.provider, Failure(trail[n].reason, env[n].markedAt));
        assert log + Marks(trail, env) == before + [m];
      }
    }
  }

  lemma {:induction false} MarkOnTime(log: seq<Mark>, clock: int, p: string, r: Reason, at: int)
    requires UpTo(log, clock) && clock <= at && 0 < at
    ensures UpTo(log + [Mark(p, Failure(r, at))], at) && UpTo(log, at)
  {
    forall q: string
      ensures Timed(Of(log + [Mark(p, Failure(r, at))], q)) && Latest(Of(log + [Mark(p, Failure(r, at))], q)) <= at
    {
      OfSnoc(log, Mark(p, Failure(r, at)), q);
      AfterSnoc(Of(log, q), Failure(r, at));
    }
  }

  /** What a longer trail adds to a provider's history: failures only. */
  lemma {:induction false} LaterMarks(log: seq<Mark>, env: seq<Moment>, trail: seq<Attempt>, i: nat, j: nat, p: string)
    requires i <= j <= |trail| <= |env|
    ensures var h, h' := Of(log + Marks(trail[..i], env), p), Of(log + Marks(trail[..j], env), p);
      h <= h' && forall n | |h| <= n < |h'| :: h'[n].Failure?
  {
    if i < j {
      LaterMarks(log, env, trail, i, j - 1, p);
      MarksStep(log, env, trail, j - 1, p);
    }
  }

  lemma {:induction false} MarksStep(log: seq<Mark>, env: seq<Moment>, trail: seq<Attempt>, n: nat, p: string)
    requires n < |trail| <= |env|
    ensures var h, h' := Of(log + Marks(trail[..n], env), p), Of(log + Marks(trail[..n + 1], env), p);
      h' == if trail[n].skipped || trail[n].candidate.provider != p then h
            else h + [Failure(trail[n].reason, env[n].markedAt)]
  {
    var before, m := log + Marks(trail[..n], env), Mark(trail[n].candidate.provider, Failure(trail[n].reason, env[n].markedAt));
    assert trail[..n + 1][..n] == trail[..n];
    if trail[n].skipped {
      assert log + Marks(trail[..n + 1], env) == before;
    } else {
      assert log + Marks(trail[..n + 1], env) == before + [m];
      OfSnoc(before, m, p);
    }
  }

  /** At candidate j its provider, which failed as candidate i, is still in cooldown. */
  lemma {:induction false} StillCooling(log: seq<Mark>, clock: int, candidates: seq<Candidate>, env: seq<Moment>,
                                        trail: seq<Attempt>, i: nat, j: nat)
    requires Tried(log, candidates, env, trail) && UpTo(log, clock) && Clocked(env, clock) && clock >= 0
    requires i < j <= |trail| && j < |candidates| && candidates[i].provider == candidates[j].provider
    requires !trail[i].skipped && env[j].checkedAt < env[i].markedAt + MINUTE
    ensures !AvailableAt(log + Marks(trail[..j], env), candidates[j], env[j].checkedAt)
  {
    var p, now := candidates[i].provider, env[j].checkedAt;
    assert PassedOver(log, candidates, env, trail, i);
    var h0 := Of(log + Marks(trail[..i], env), p);
    var h1 := Of(log + Marks(trail[..i + 1], env), p);
    var h2 := Of(log + Marks(trail[..j], env), p);
    MarksStep(log, env, trail, i, p);
    assert h1 == h0 + [Failure(trail[i].reason, env[i].markedAt)];
    LaterMarks(log, env, trail, i + 1, j, p);
    MarksOnTime(log, clock, env, trail[..j]);
    MarksOnTime(log, clock, env, trail[..i + 1]);
    assert Timed(h1) && Timed(h2) && env[i].markedAt <= now;
    FailureCools(h0, trail[i].reason, env[i].markedAt, now);
    StaysUnavailable(h1, h2, now);
  }

  /** A provider that failed is not called again within a minute, under this model or any other: its
      other candidates are skipped, or the chain has been cancelled before it gets to them. */
  lemma {:induction false} FailedProviderIsSpared(log: seq<Mark>, clock: int, candidates: seq<Candidate>, env: seq<Moment>,
                                                  trail: seq<Attempt>, outcome: Outcome, i: nat, j: nat)
    requires Tried(log, candidates, env, trail) && Decides(log, candidates, env, trail, outcome)
    requires UpTo(log, clock) && Clocked(env, clock) && clock >= 0
    requires i < j <= |trail| && j < |candidates| && candidates[i].provider == candidates[j].provider
    requires !trail[i].skipped && env[j].checkedAt < env[i].markedAt + MINUTE
    ensures j < |trail| ==> trail[j].skipped
    ensures j == |trail| ==> env[j].cancelledBefore && outcome == Cancelled
    ensures j !in Called(trail) + CalledLast(candidates, env, |trail|)
  {
    StillCooling(log, clock, candidates, env, trail, i, j);
    if j < |trail| {
      assert PassedOver(log, candidates, env, trail, j);
    } else {
      assert trail[..j] == trail;
    }
  }

  /** An answer forgives its provider: it has no failures left to count, and is available at once. A chain that ends
      otherwise leaves nothing but the failures on its way. */
  lemma {:induction false} AnswerForgives(log: seq<Mark>, env: seq<Moment>, trail: seq<Attempt>, outcome: Outcome, now: int)
    requires |trail| <= |env| && now > 0
    ensures var marked := Closed(log + Marks(trail, env), outcome);
      if outcome.Answered? then
        var entry := After(Of(marked, outcome.who.provider));
        entry.errorCount == 0 && entry.counts == map[] && Available(entry, now)
      else marked == log + Marks(trail, env)
  {
    if outcome.Answered? {
      var before, p := log + Marks(trail, env), outcome.who.provider;
      OfSnoc(before, Mark(p, Success), p);
      AfterSnoc(Of(before, p), Success);
    }
  }

  lemma {:induction false} StaysUnavailable(h: seq<Event>, h': seq<Event>, now: int)
    requires Timed(h) && Timed(h') && h <= h' && (forall n | |h| <= n < |h'| :: h'[n].Failure?)
    requires now > 0 && !Available(After(h), now)
    ensures !Available(After(h'), now)
  {
    EndsNeverEarlier(h', |h|, |h'|);
    assert h'[..|h|] == h && h'[..|h'|] == h';
  }

  // ---------------------------------------------------------------- the chain

  class FallbackChain {
    const cooldown: CooldownTracker

    constructor (cooldown: CooldownTracker)
      ensures this.cooldown == cooldown
    {
      this.cooldown := cooldown;
    }

    method Execute(candidates: seq<Candidate>, env: seq<Moment>)
      returns (outcome: Outcome, ghost trail: seq<Attempt>, ghost calls: seq<nat>)
      requires |candidates| == |env| && cooldown.Valid() && Clocked(env, cooldown.clock)
      modifies cooldown
      ensures cooldown.Valid()
      ensures Tried(old(cooldown.log), candidates, env, trail)
      ensures Decides(old(cooldown.log), candidates, env, trail, outcome)
      ensures calls == Called(trail) + CalledLast(candidates, env, |trail|)
      ensures cooldown.log == Closed(old(cooldown.log) + Marks(trail, env), outcome)
    {
      trail, calls := [], [];
      Begins(cooldown.log, candidates, env);
      if |candidates| == 0 {
        return NoCandidates, [], [];
      }
      ghost var log := cooldown.log;
      var attempts: seq<Attempt> := [];
      for i := 0 to |candidates|
        invariant |attempts| == i && Going(log, candidates, env, attempts, calls, cooldown.log)
        invariant cooldown.Valid() && (i < |env| ==> cooldown.clock <= env[i].checkedAt)
      {
        var step, called := Try(candidates[i], env[i], attempts);
        if step.Settled? {
          Concludes(log, candidates, env, attempts, calls, step.outcome, cooldown.log);
          return step.outcome, attempts, if called then calls + [i] else calls;
        }
        Extends(log, candidates, env, attempts, calls, step.attempt);
        calls := if called then calls + [i] else calls;
        attempts := attempts + [step.attempt];
      }
      Exhausts(log, candidates, env, attempts, calls, cooldown.log);
      return Exhausted(attempts), attempts, calls;
    }

    /** One candidate. */
    method Try(candidate: Candidate, moment: Moment, attempts: seq<Attempt>) returns (step: Step, called: bool)
      requires cooldown.Valid() && 0 < moment.checkedAt <= moment.markedAt && cooldown.clock <= moment.checkedAt
      modifies cooldown
      ensures cooldown.Valid() && cooldown.clock <= moment.markedAt
      ensures var available := old(AvailableAt(cooldown.log, candidate, moment.checkedAt));
        && called == (available && !moment.cancelledBefore)
        && match step
           case Over(a) => Passes(available, candidate, moment, a)
           case Settled(outcome) => Settles(available, candidate, moment, attempts, outcome)
      ensures cooldown.log == Extended(old(cooldown.log), step, candidate, moment)
    {
      called := false;
      if moment.cancelledBefore {
        return Settled(Cancelled), called;
      }
      var available := cooldown.IsAvailable(candidate.provider, moment.checkedAt);
      if !available {
        return Over(Attempt(candidate, true, RateLimit)), called;
      }
      called := true;
      match moment.reply
      case Response(text) =>
        cooldown.MarkSuccess(candidate.provider);
        return Settled(Answered(candidate, text, attempts)), called;
      case Failed(reason) =>
        if moment.cancelledAfter {
          return Settled(Cancelled), called;
        }
        if reason.None? {
          return Settled(Unclassified(candidate)), called;
        }
        if !IsRetriable(reason.value) {
          return Settled(Rejected(candidate)), called;
        }
        cooldown.MarkFailure(candidate.provider, reason.value, moment.markedAt);
        return Over(Attempt(candidate, false, reason.value)), called;
    }
  }

  datatype Step = Over(attempt: Attempt) | Settled(outcome: Outcome)

  function Extended(log: seq<Mark>, step: Step, c: Candidate, m: Moment): seq<Mark> {
    match step
    case Over(a) => if a.skipped then log else log + [Mark(c.provider, Failure(a.reason, m.markedAt))]
    case Settled(outcome) => Closed(log, outcome)
  }

  function Closed(log: seq<Mark>, outcome: Outcome): seq<Mark> {
    if outcome.Answered? then log + [Mark(outcome.who.provider, Success)] else log
  }

  /** The candidates of the trail have been passed over, with these calls and this much marked. */
  ghost predicate Going(log: seq<Mark>, candidates: seq<Candidate>, env: seq<Moment>, trail: seq<Attempt>,
                        calls: seq<nat>, marked: seq<Mark>)
  {
    && Tried(log, candidates, env, trail)
    && calls == Called(trail) && marked == log + Marks(trail, env)
  }

  lemma {:induction false} Begins(log: seq<Mark>, candidates: seq<Candidate>, env: seq<Moment>)
    requires |candidates| == |env|
    ensures Going(log, candidates, env, [], [], log)
    ensures candidates == [] ==>
      && Decides(log, candidates, env, [], NoCandidates) && log == Closed(log + Marks([], env), NoCandidates)
      && [] == Called([]) + CalledLast(candidates, env, 0)
  {
    assert log + [] == log;
  }

  lemma {:induction false} Exhausts(log: seq<Mark>, candidates: seq<Candidate>, env: seq<Moment>, trail: seq<Attempt>,
                                    calls: seq<nat>, marked: seq<Mark>)
    requires |trail| == |candidates| == |env| > 0 && Going(log, candidates, env, trail, calls, marked)
    ensures Tried(log, candidates, env, trail) && Decides(log, candidates, env, trail, Exhausted(trail))
    ensures calls == Called(trail) + CalledLast(candidates, env, |trail|)
    ensures marked == Closed(log + Marks(trail, env), Exhausted(trail))
  {
    assert calls + [] == calls;
  }

  lemma {:induction false} Concludes(log: seq<Mark>, candidates: seq<Candidate>, env: seq<Moment>, trail: seq<Attempt>,
                                     calls: seq<nat>, outcome: Outcome, marked: seq<Mark>)
    requires |trail| < |candidates| == |env| && Going(log, candidates, env, trail, calls, log + Marks(trail, env))
    requires Settles(AvailableAt(log + Marks(trail, env), candidates[|trail|], env[|trail|].checkedAt),
                     candidates[|trail|], env[|trail|], trail, outcome)
    requires marked == Closed(log + Marks(trail, env), outcome)
    ensures Tried(log, candidates, env, trail) && Decides(log, candidates, env, trail, outcome)
    ensures Called(trail) + CalledLast(candidates, env, |trail|)
            == if env[|trail|].cancelledBefore then calls else calls + [|trail|]
  {}

  lemma {:induction false} Extends(log: seq<Mark>, candidates: seq<Candidate>, env: seq<Moment>, trail: seq<Attempt>,
                                   calls: seq<nat>, a: Attempt)
    requires |trail| < |candidates| == |env| && Going(log, candidates, env, trail, calls, log + Marks(trail, env))
    requires Passes(AvailableAt(log + Marks(trail, env), candidates[|trail|], env[|trail|].checkedAt),
                    candidates[|trail|], env[|trail|], a)
    ensures Going(log, candidates, env, trail + [a], if a.skipped then calls else calls + [|trail|],
                  Extended(log + Marks(trail, env), Over(a), candidates[|trail|], env[|trail|]))
  {
    var n, more := |trail|, trail + [a];
    assert more[..n] == trail;
    forall i | 0 <= i <= n ensures PassedOver(log, candidates, env, more, i) {
      if i < n {
        assert PassedOver(log, candidates, env, trail, i) && more[..i] == trail[..i];
      }
    }
    assert log + Marks(more, env) == Extended(log + Marks(trail, env), Over(a), candidates[n], env[n]);
  }

  // ---------------------------------------------------------------- the candidates

  type Ref = Option<Candidate>

  /** Resolves what is configured, first the primary, into candidates without duplicates. */
  method ResolveCandidates(configured: seq<string>, parse: string -> Ref, key: Candidate -> string)
    returns (candidates: seq<Candidate>)
    ensures IsFirsts(seq(|configured|, i requires 0 <= i < |configured| => parse(configured[i])), key, candidates)
  {
    ghost var refs := seq(|configured|, i requires 0 <= i < |configured| => parse(configured[i]));
    candidates := [];
    var seen: set<string> := {};
    ghost var from: seq<nat> := [];
    for i := 0 to |configured|
      invariant FirstsUpTo(refs, key, candidates, from, i)
      invariant forall k: string :: k in seen <==> KeyBefore(refs, key, i, k)
    {
      var ref := parse(configured[i]);
      assert refs[i] == ref;
      FirstsStep(refs, key, candidates, from, i);
      if ref.Some? {
        var k := key(ref.value);
        if k !in seen {
          seen := seen + {k};
          candidates := candidates + [ref.value];
          from := from + [i];
        }
      }
    }
  }

  predicate HasKey(ref: Ref, key: Candidate -> string, k: string) { ref.Some? && key(ref.value) == k }

  /** Some reference before n has key k. */
  ghost predicate KeyBefore(refs: seq<Ref>, key: Candidate -> string, n: int, k: string)
    requires 0 <= n <= |refs|
  {
    exists i | 0 <= i < n :: HasKey(refs[i], key, k)
  }

  /** Reference i is the first with its key. */
  ghost predicate IsFirst(refs: seq<Ref>, key: Candidate -> string, i: nat)
    requires i < |refs|
  {
    refs[i].Some? && !KeyBefore(refs, key, i, key(refs[i].value))
  }

  /** from are exactly the indices, in order, of the references that are the first with their key. */
  ghost predicate FirstsUpTo(refs: seq<Ref>, key: Candidate -> string, candidates: seq<Candidate>, from: seq<nat>, n: nat)
    requires n <= |refs|
  {
    && |from| == |candidates| && Rising(from)
    && (forall i | 0 <= i < |from| :: from[i] < n && IsFirst(refs, key, from[i]) && refs[from[i]] == Some(candidates[i]))
    && forall i | 0 <= i < n && IsFirst(refs, key, i) :: i in from
  }

  ghost predicate IsFirsts(refs: seq<Ref>, key: Candidate -> string, candidates: seq<Candidate>) {
    exists from :: FirstsUpTo(refs, key, candidates, from, |refs|)
  }

  lemma {:induction false} FirstsStep(refs: seq<Ref>, key: Candidate -> string, candidates: seq<Candidate>,
                                      from: seq<nat>, n: nat)
    requires n < |refs| && FirstsUpTo(refs, key, candidates, from, n)
    ensures IsFirst(refs, key, n) ==> FirstsUpTo(refs, key, candidates + [refs[n].value], from + [n], n + 1)
    ensures !IsFirst(refs, key, n) ==> FirstsUpTo(refs, key, candidates, from, n + 1)
    ensures var m := n + 1;
      forall k: string :: KeyBefore(refs, key, m, k) <==> KeyBefore(refs, key, n, k) || HasKey(refs[n], key, k)
  {
    if IsFirst(refs, key, n) {
      forall i | 0 <= i < n + 1 && IsFirst(refs, key, i) ensures i in from + [n] {
        if i == n { assert (from + [n])[|from|] == n; } else { assert i in from; }
      }
    }
  }

  /** So no two candidates have the same key. */
  lemma {:induction false} FirstsAreDistinct(refs: seq<Ref>, key: Candidate -> string, candidates: seq<Candidate>)
    requires IsFirsts(refs, key, candidates)
    ensures forall i, k | 0 <= i < k < |candidates| :: key(candidates[i]) != key(candidates[k])
  {
    var from :| FirstsUpTo(refs, key, candidates, from, |refs|);
    forall i, k | 0 <= i < k < |candidates| ensures key(candidates[i]) != key(candidates[k]) {
      FirstsDiffer(refs, key, from[i], from[k]);
    }
  }

  lemma {:induction false} FirstsDiffer(refs: seq<Ref>, key: Candidate -> string, i: nat, k: nat)
    requires i < k < |refs| && refs[i].Some? && IsFirst(refs, key, k)
    ensures key(refs[i].value) != key(refs[k].value)
  {
    assert HasKey(refs[i], key, key(refs[i].value));
    assert KeyBefore(refs, key, k, key(refs[i].value));
  }

  /** And every reference that parses has its key among them. */
  lemma {:induction false} FirstsAreAll(refs: seq<Ref>, key: Candidate -> string, candidates: seq<Candidate>, i: nat)
    requires IsFirsts(refs, key, candidates) && i < |refs| && refs[i].Some?
    ensures exists c :: c in candidates && key(c) == key(refs[i].value)
  {
    var from :| FirstsUpTo(refs, key, candidates, from, |refs|);
    var f := FirstWithKey(refs, key, i);
    assert f in from;
    var n :| 0 <= n < |from| && from[n] == f;
    assert candidates[n] in candidates && refs[from[n]] == Some(candidates[n]);
  }

  lemma {:induction false} FirstWithKey(refs: seq<Ref>, key: Candidate -> string, i: nat) returns (f: nat)
    requires i < |refs| && refs[i].Some?
    ensures f <= i && IsFirst(refs, key, f) && key(refs[f].value) == key(refs[i].value)
  {
    var k := key(refs[i].value);
    if KeyBefore(refs, key, i, k) {
      var e :| 0 <= e < i && HasKey(refs[e], key, k);
      f := FirstWithKey(refs, key, e);
    } else {
      f := i;
    }
  }
}
