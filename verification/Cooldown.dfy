/**
  Provider cooldown: what failures and successes make of a provider's entry, over whole histories,
  and the tracker that keeps the entries. Times are in nanoseconds and positive; 0 is the zero time.
*/
module Cooldown {

  const MINUTE := 60_000_000_000
  const HOUR := 60 * MINUTE
  const WINDOW := 24 * HOUR

  datatype Reason = Auth | RateLimit | Billing | Timeout | Format | Overloaded | Unknown

  datatype Entry = Entry(errorCount: nat, counts: map<Reason, nat>, cooldownEnd: int,
                         disabledUntil: int, disabled: bool, lastFailure: int)

  const FRESH := Entry(0, map[], 0, 0, false, 0)

  function Count(counts: map<Reason, nat>, r: Reason): nat { if r in counts then counts[r] else 0 }

  function Total(counts: map<Reason, nat>): nat {
    Count(counts, Auth) + Count(counts, RateLimit) + Count(counts, Billing) + Count(counts, Timeout)
    + Count(counts, Format) + Count(counts, Overloaded) + Count(counts, Unknown)
  }

  // ---------------------------------------------------------------- backoff

  function Max(a: int, b: int): int { if a > b then a else b }

  function Min(a: int, b: int): int { if a < b then a else b }

  function Pow(base: nat, exp: nat): nat { if exp == 0 then 1 else base * Pow(base, exp - 1) }

  function StandardCooldown(errorCount: int): int {
    var exp := Min(Max(1, errorCount) - 1, 3);
    Min(3_600_000, 60_000 * Pow(5, exp)) * 1_000_000
  }

  function BillingCooldown(billingCount: int): int {
    var exp := Min(Max(1, billingCount) - 1, 10);
    Min(24 * 60 * 60 * 1000, 5 * 60 * 60 * 1000 * Pow(2, exp)) * 1_000_000
  }

  /** The documented table: 1, 5 and 25 minutes, then an hour. */
  lemma {:induction false} StandardTable(n: int)
    ensures StandardCooldown(n) ==
            if n <= 1 then MINUTE else if n == 2 then 5 * MINUTE else if n == 3 then 25 * MINUTE else HOUR
  {
    assert Pow(5, 0) == 1 && Pow(5, 1) == 5 && Pow(5, 2) == 25;
    assert Pow(5, 3) == 5 * Pow(5, 2);
  }

  lemma {:induction false} PowerOfTwo(n: nat)
    requires n >= 3
    ensures Pow(2, n) >= 8
  {
    if n > 3 { PowerOfTwo(n - 1); } else { assert Pow(2, 3) == 2 * Pow(2, 2) && Pow(2, 2) == 2 * Pow(2, 1); }
  }

  /** Likewise: 5, 10 and 20 hours, then a day. */
  lemma {:induction false} BillingTable(n: int)
    ensures BillingCooldown(n) ==
            if n <= 1 then 5 * HOUR else if n == 2 then 10 * HOUR else if n == 3 then 20 * HOUR else 24 * HOUR
  {
    assert Pow(2, 0) == 1 && Pow(2, 1) == 2 && Pow(2, 2) == 4;
    if n >= 4 { PowerOfTwo(Min(n - 1, 10)); }
  }

  // ---------------------------------------------------------------- one event

  datatype Event = Failure(reason: Reason, at: int) | Success

  /** The counters start again when the last failure is more than the window ago. */
  function Reset(e: Entry, now: int): Entry {
    if e.lastFailure != 0 && now - e.lastFailure > WINDOW then e.(errorCount := 0, counts := map[]) else e
  }

  function Counted(e: Entry, r: Reason, now: int): Entry {
    e.(errorCount := e.errorCount + 1, counts := e.counts[r := Count(e.counts, r) + 1], lastFailure := now)
  }

  function Punished(e: Entry, r: Reason, now: int): Entry {
    if r == Billing then
      e.(disabledUntil := now + BillingCooldown(Count(e.counts, Billing)), disabled := true)
    else
      e.(cooldownEnd := now + StandardCooldown(e.errorCount))
  }

  function Apply(e: Entry, event: Event): Entry {
    match event
    case Failure(r, at) => Punished(Counted(Reset(e, at), r, at), r, at)
    case Success => e.(errorCount := 0, counts := map[], cooldownEnd := 0, disabledUntil := 0, disabled := false)
  }

  /** The entry a history of events leaves. */
  function After(h: seq<Event>): Entry {
    if h == [] then FRESH else Apply(After(h[..|h| - 1]), h[|h| - 1])
  }

  /** The time of the last failure, 0 without. */
  function Latest(h: seq<Event>): int {
    if h == [] then 0
    else if h[|h| - 1].Failure? then h[|h| - 1].at else Latest(h[..|h| - 1])
  }

  /** On a monotone clock. */
  predicate Timed(h: seq<Event>) {
    h == [] || (Timed(h[..|h| - 1]) && (h[|h| - 1].Failure? ==> h[|h| - 1].at > 0 && h[|h| - 1].at >= Latest(h[..|h| - 1])))
  }

  // ---------------------------------------------------------------- bounds

  ghost predicate Bounded(e: Entry) {
    && e.errorCount == Total(e.counts) && e.lastFailure >= 0
    && 0 <= e.cooldownEnd && 0 <= e.disabledUntil
    && (e.cooldownEnd == 0 || e.cooldownEnd <= e.lastFailure + StandardCooldown(e.errorCount))
    && (e.disabledUntil == 0 || e.disabledUntil <= e.lastFailure + BillingCooldown(Count(e.counts, Billing)))
  }

  lemma {:induction false} CountedTotal(counts: map<Reason, nat>, r: Reason)
    ensures Total(counts[r := Count(counts, r) + 1]) == Total(counts) + 1
  {
    var more := counts[r := Count(counts, r) + 1];
    forall q ensures Count(more, q) == Count(counts, q) + if q == r then 1 else 0 {}
    hide Count;
    match r
    case Auth =>
    case RateLimit =>
    case Billing =>
    case Timeout =>
    case Format =>
    case Overloaded =>
    case Unknown =>
  }

  lemma {:induction false} BackoffGrows(n: int, m: int)
    requires n <= m
    ensures MINUTE <= StandardCooldown(n) <= StandardCooldown(m) <= HOUR
    ensures 5 * HOUR <= BillingCooldown(n) <= BillingCooldown(m) <= 24 * HOUR
  {
    StandardTable(n);
    StandardTable(m);
    BillingTable(n);
    BillingTable(m);
  }

  /** A reset comes later than any end. */
  lemma {:induction false} ResetStep(e: Entry, now: int)
    requires Bounded(e) && now > 0 && now >= e.lastFailure
    ensures var z := Reset(e, now);
      && z.errorCount == Total(z.counts) && z.cooldownEnd == e.cooldownEnd && z.disabledUntil == e.disabledUntil
      && (z.cooldownEnd == 0 || z.cooldownEnd <= now + StandardCooldown(z.errorCount))
      && (z.disabledUntil == 0 || z.disabledUntil <= now + BillingCooldown(Count(z.counts, Billing)))
  {
    BackoffGrows(0, e.errorCount);
    BackoffGrows(0, Count(e.counts, Billing));
    BackoffGrows(0, 0);
  }

  /** Counting a failure makes neither backoff shorter. */
  lemma {:induction false} CountStep(z: Entry, r: Reason, now: int)
    requires z.errorCount == Total(z.counts)
    ensures var c := Counted(z, r, now);
      && c.errorCount == Total(c.counts) == z.errorCount + 1 && Count(c.counts, Billing) >= Count(z.counts, Billing)
      && StandardCooldown(z.errorCount) <= StandardCooldown(c.errorCount)
      && BillingCooldown(Count(z.counts, Billing)) <= BillingCooldown(Count(c.counts, Billing))
  {
    var c := Counted(z, r, now);
    CountedTotal(z.counts, r);
    BackoffGrows(z.errorCount, c.errorCount);
    BackoffGrows(Count(z.counts, Billing), Count(c.counts, Billing));
  }

  lemma {:induction false} PunishStep(c: Entry, r: Reason, now: int)
    requires c.errorCount == Total(c.counts) && c.lastFailure == now > 0 && c.cooldownEnd >= 0 && c.disabledUntil >= 0
    requires c.cooldownEnd == 0 || c.cooldownEnd <= now + StandardCooldown(c.errorCount)
    requires c.disabledUntil == 0 || c.disabledUntil <= now + BillingCooldown(Count(c.counts, Billing))
    ensures var e := Punished(c, r, now);
      Bounded(e) && c.cooldownEnd <= e.cooldownEnd && c.disabledUntil <= e.disabledUntil
  {
    BackoffGrows(c.errorCount, c.errorCount);
    BackoffGrows(Count(c.counts, Billing), Count(c.counts, Billing));
  }

  /** One failure keeps the bounds and moves neither end to an earlier time. */
  lemma {:induction false} FailureStep(e: Entry, r: Reason, now: int)
    requires Bounded(e) && now > 0 && now >= e.lastFailure
    ensures var e' := Apply(e, Failure(r, now));
      Bounded(e') && e.cooldownEnd <= e'.cooldownEnd && e.disabledUntil <= e'.disabledUntil
  {
    var z := Reset(e, now);
    ResetStep(e, now);
    CountStep(z, r, now);
    PunishStep(Counted(z, r, now), r, now);
  }

  lemma {:induction false} LastFailureIsLatest(h: seq<Event>)
    ensures After(h).lastFailure == Latest(h)
  {
    if h != [] { LastFailureIsLatest(h[..|h| - 1]); }
  }

  /** In every history the counts add up, and no cooldown outlasts its last failure by an hour or a day. */
  lemma {:induction false} CooldownBounds(h: seq<Event>)
    requires Timed(h)
    ensures Bounded(After(h))
    ensures After(h).errorCount == Total(After(h).counts)
    ensures After(h).cooldownEnd <= After(h).lastFailure + HOUR
    ensures After(h).disabledUntil <= After(h).lastFailure + 24 * HOUR
  {
    var e := After(h);
    BackoffGrows(0, e.errorCount);
    BackoffGrows(0, Count(e.counts, Billing));
    if h != [] {
      var init, last := h[..|h| - 1], h[|h| - 1];
      CooldownBounds(init);
      LastFailureIsLatest(init);
      if last.Failure? { FailureStep(After(init), last.reason, last.at); }
    }
  }

  lemma {:induction false} TimedPrefix(h: seq<Event>, k: nat)
    requires Timed(h) && k <= |h|
    ensures Timed(h[..k])
    decreases |h|
  {
    if k < |h| {
      TimedPrefix(h[..|h| - 1], k);
      assert h[..|h| - 1][..k] == h[..k];
    } else {
      assert h[..k] == h;
    }
  }

  /** Between successes neither end moves to an earlier time. */
  lemma {:induction false} EndsNeverEarlier(h: seq<Event>, i: nat, k: nat)
    requires Timed(h) && i <= k <= |h| && forall n | i <= n < k :: h[n].Failure?
    ensures After(h[..i]).cooldownEnd <= After(h[..k]).cooldownEnd
    ensures After(h[..i]).disabledUntil <= After(h[..k]).disabledUntil
  {
    if i < k {
      EndsNeverEarlier(h, i, k - 1);
      var init := h[..k - 1];
      assert h[..k][..k - 1] == init;
      TimedPrefix(h, k);
      CooldownBounds(init);
      LastFailureIsLatest(init);
      FailureStep(After(init), h[k - 1].reason, h[k - 1].at);
    }
  }

  // ---------------------------------------------------------------- what the counters count

  ghost predicate Follows(h: seq<Event>, n: int)
    requires 0 < n < |h|
  {
    h[n - 1].Failure? && h[n].Failure? && h[n].at - h[n - 1].at <= 24 * HOUR
  }

  /** From j on there are failures only, none more than the window after the one before. */
  ghost predicate Streak(h: seq<Event>, j: int)
    requires 0 <= j <= |h|
  {
    && (forall n | j <= n < |h| :: h[n].Failure?)
    && forall n | j < n < |h| :: Follows(h, n)
  }

  /** And what is before j is not part of it. */
  ghost predicate StreakStarts(h: seq<Event>, j: int)
    requires 0 <= j <= |h|
  {
    j == 0 || h[j - 1].Success? || (j < |h| && h[j].Failure? && h[j].at - h[j - 1].at > 24 * HOUR)
  }

  ghost function CountIn(h: seq<Event>, j: int, r: Reason): nat
    requires 0 <= j <= |h|
    decreases |h| - j
  {
    if j == |h| then 0 else (if h[j].Failure? && h[j].reason == r then 1 else 0) + CountIn(h, j + 1, r)
  }

  lemma {:induction false} CountInSnoc(h: seq<Event>, e: Event, j: nat, r: Reason)
    requires j <= |h|
    ensures CountIn(h + [e], j, r) == CountIn(h, j, r) + if e.Failure? && e.reason == r then 1 else 0
    decreases |h| - j
  {
    if j < |h| {
      assert (h + [e])[j] == h[j];
      CountInSnoc(h, e, j + 1, r);
    }
  }

  /**
    The counters count the failures of the current streak, in all and by reason, and the last failure's
    cooldown is the backoff of that count.
  */
  lemma {:induction false} CountersCountTheStreak(h: seq<Event>, j: nat, r: Reason)
    requires Timed(h) && j <= |h| && Streak(h, j) && StreakStarts(h, j)
    ensures After(h).errorCount == |h| - j
    ensures Count(After(h).counts, r) == CountIn(h, j, r)
    ensures j < |h| && h[|h| - 1].reason != Billing ==>
              After(h).cooldownEnd == h[|h| - 1].at + StandardCooldown(|h| - j)
    ensures j < |h| && h[|h| - 1].reason == Billing == r ==>
              After(h).disabledUntil == h[|h| - 1].at + BillingCooldown(CountIn(h, j, r))
    decreases |h|
  {
    if j < |h| {
      var n := |h| - 1;
      if j == n {
        StreakOfOne(h, r);
        StreakOfOne(h, h[n].reason);
        StreakStep(h, j, r, Reset(After(h[..n]), h[n].at));
      } else {
        StreakInit(h, j);
        CountersCountTheStreak(h[..n], j, r);
        CountersCountTheStreak(h[..n], j, h[n].reason);
        StreakStep(h, j, r, After(h[..n]));
      }
    }
  }

  lemma {:induction false} StreakInit(h: seq<Event>, j: nat)
    requires Timed(h) && j < |h| - 1 && Streak(h, j) && StreakStarts(h, j)
    ensures Streak(h[..|h| - 1], j) && StreakStarts(h[..|h| - 1], j)
    ensures Reset(After(h[..|h| - 1]), h[|h| - 1].at) == After(h[..|h| - 1])
  {
    var n := |h| - 1;
    var init := h[..n];
    assert Follows(h, n) && init[n - 1] == h[n - 1];
    LastFailureIsLatest(init);
    forall i | j < i < n ensures Follows(init, i) { assert Follows(h, i); }
  }

  /** One more failure, given what the counters are once any reset is done. */
  lemma {:induction false} StreakStep(h: seq<Event>, j: nat, r: Reason, e: Entry)
    requires h != [] && j < |h| && h[|h| - 1].Failure?
    requires e == Reset(After(h[..|h| - 1]), h[|h| - 1].at)
    requires e.errorCount == |h| - 1 - j && Count(e.counts, r) == CountIn(h[..|h| - 1], j, r)
    requires Count(e.counts, h[|h| - 1].reason) == CountIn(h[..|h| - 1], j, h[|h| - 1].reason)
    ensures After(h).errorCount == |h| - j
    ensures Count(After(h).counts, r) == CountIn(h, j, r)
    ensures h[|h| - 1].reason != Billing ==>
              After(h).cooldownEnd == h[|h| - 1].at + StandardCooldown(|h| - j)
    ensures h[|h| - 1].reason == Billing == r ==>
              After(h).disabledUntil == h[|h| - 1].at + BillingCooldown(CountIn(h, j, r))
  {
    var init, last := h[..|h| - 1], h[|h| - 1];
    assert h == init + [last];
    CountInSnoc(init, last, j, r);
  }

  /** The first failure of a streak finds the counters at zero, or puts them there. */
  lemma {:induction false} StreakOfOne(h: seq<Event>, r: Reason)
    requires h != [] && Timed(h) && h[|h| - 1].Failure? && StreakStarts(h, |h| - 1)
    ensures var e := Reset(After(h[..|h| - 1]), h[|h| - 1].at); e.errorCount == 0 && Count(e.counts, r) == 0
  {
    var n := |h| - 1;
    var init := h[..n];
    LastFailureIsLatest(init);
    if n > 0 {
      assert init[|init| - 1] == h[n - 1];
      if h[n - 1].Failure? { assert Timed(init); }
    }
  }

  // ---------------------------------------------------------------- availability

  predicate Available(e: Entry, now: int) {
    && !(e.disabledUntil != 0 && now < e.disabledUntil)
    && !(e.cooldownEnd != 0 && now < e.cooldownEnd)
  }

  function Remaining(e: Entry, now: int): int {
    var d := if e.disabledUntil != 0 && now < e.disabledUntil then Max(0, e.disabledUntil - now) else 0;
    if e.cooldownEnd != 0 && now < e.cooldownEnd then Max(d, e.cooldownEnd - now) else d
  }

  /** The remaining cooldown is exactly how long the provider stays unavailable. */
  lemma {:induction false} RemainingIsExact(e: Entry, now: int, later: int)
    requires 0 < now <= later
    ensures Remaining(e, now) >= 0 && (Available(e, now) <==> Remaining(e, now) == 0)
    ensures Available(e, later) <==> later >= now + Remaining(e, now)
  {}

  /** A failure makes its provider unavailable for a minute at least. */
  lemma {:induction false} FailureCools(h: seq<Event>, r: Reason, at: int, now: int)
    requires Timed(h + [Failure(r, at)]) && at <= now < at + MINUTE
    ensures !Available(After(h + [Failure(r, at)]), now)
  {
    AfterSnoc(h, Failure(r, at));
    var e := Counted(Reset(After(h), at), r, at);
    StandardTable(e.errorCount);
    BillingTable(Count(e.counts, Billing));
  }

  /** A success makes it available, and so does a day without failures. */
  lemma {:induction false} Recovers(h: seq<Event>, now: int)
    requires Timed(h) && now > 0
    requires (h != [] && h[|h| - 1].Success?) || now >= Latest(h) + 24 * HOUR
    ensures Available(After(h), now)
  {
    CooldownBounds(h);
    LastFailureIsLatest(h);
  }

  // ---------------------------------------------------------------- the tracker

  datatype Mark = Mark(provider: string, event: Event)

  /** The events of one provider. */
  function Of(log: seq<Mark>, p: string): seq<Event> {
    if log == [] then []
    else Of(log[..|log| - 1], p) + if log[|log| - 1].provider == p then [log[|log| - 1].event] else []
  }

  lemma {:induction false} OfSnoc(log: seq<Mark>, m: Mark, p: string)
    ensures Of(log + [m], p) == if m.provider == p then Of(log, p) + [m.event] else Of(log, p)
  {
    assert (log + [m])[..|log|] == log;
  }

  lemma {:induction false} AfterSnoc(h: seq<Event>, e: Event)
    ensures After(h + [e]) == Apply(After(h), e)
    ensures Latest(h + [e]) == if e.Failure? then e.at else Latest(h)
    ensures Timed(h + [e]) <==> Timed(h) && (e.Failure? ==> e.at > 0 && e.at >= Latest(h))
  {
    assert (h + [e])[..|h|] == h;
  }

  /** No failure of any provider is later than clock. */
  ghost predicate UpTo(log: seq<Mark>, clock: int) {
    forall p: string :: Timed(Of(log, p)) && Latest(Of(log, p)) <= clock
  }

  /** The entry of a provider; without one it is as fresh. */
  function Lookup(entries: map<string, Entry>, p: string): Entry { if p in entries then entries[p] else FRESH }

  ghost predicate Keeps(entries: map<string, Entry>, log: seq<Mark>) {
    forall p: string :: Lookup(entries, p) == After(Of(log, p))
  }

  lemma {:induction false} Marked(entries: map<string, Entry>, log: seq<Mark>, clock: int, m: Mark, clock': int)
    requires Keeps(entries, log) && UpTo(log, clock) && clock <= clock'
    requires m.event.Failure? ==> 0 < m.event.at && clock <= m.event.at <= clock'
    ensures Keeps(entries[m.provider := Apply(Lookup(entries, m.provider), m.event)], log + [m])
    ensures UpTo(log + [m], clock')
  {
    forall p: string
      ensures After(Of(log + [m], p)) == if p == m.provider then Apply(After(Of(log, p)), m.event) else After(Of(log, p))
      ensures Timed(Of(log + [m], p)) && Latest(Of(log + [m], p)) <= clock'
    {
      OfSnoc(log, m, p);
      AfterSnoc(Of(log, p), m.event);
    }
  }

  function Forgiven(entries: map<string, Entry>, p: string): map<string, Entry> {
    if p in entries then entries[p := Apply(entries[p], Success)] else entries
  }

  /** A success needs no entry. */
  lemma {:induction false} Unmarked(entries: map<string, Entry>, log: seq<Mark>, clock: int, p: string)
    requires Keeps(entries, log) && UpTo(log, clock)
    ensures Keeps(Forgiven(entries, p), log + [Mark(p, Success)]) && UpTo(log + [Mark(p, Success)], clock)
  {
    Marked(entries, log, clock, Mark(p, Success), clock);
    var more := entries[p := Apply(Lookup(entries, p), Success)];
    forall q: string ensures Lookup(Forgiven(entries, p), q) == Lookup(more, q) { ForgivenLookup(entries, p, q); }
  }

  lemma {:induction false} ForgivenLookup(entries: map<string, Entry>, p: string, q: string)
    ensures Lookup(Forgiven(entries, p), q) == Lookup(entries[p := Apply(Lookup(entries, p), Success)], q)
  {}

  class CooldownTracker {
    var entries: map<string, Entry>
    /** Everything marked so far, and when the last of it was. */
    ghost var log: seq<Mark>
    ghost var clock: int

    /** Each provider's entry is what its own history makes of it. */
    ghost predicate Valid()
      reads this
    {
      Keeps(entries, log) && UpTo(log, clock) && clock >= 0
    }

    constructor ()
      ensures Valid() && log == [] && clock == 0
    {
      entries, log, clock := map[], [], 0;
    }

    method MarkFailure(provider: string, reason: Reason, now: int)
      requires Valid() && now > 0 && now >= clock
      modifies this
      ensures Valid() && clock == now && log == old(log) + [Mark(provider, Failure(reason, now))]
    {
      var entry := GetOrCreate(provider);
      Marked(entries, log, clock, Mark(provider, Failure(reason, now)), now);
      entry := Fail(entry, reason, now);
      entries := entries[provider := entry];
      log, clock := log + [Mark(provider, Failure(reason, now))], now;
    }

    static method Fail(was: Entry, reason: Reason, now: int) returns (entry: Entry)
      ensures entry == Apply(was, Failure(reason, now))
    {
      entry := was;
      if entry.lastFailure != 0 && now - entry.lastFailure > WINDOW {
        entry := entry.(errorCount := 0, counts := map[]);
      }
      entry := entry.(errorCount := entry.errorCount + 1,
                      counts := entry.counts[reason := Count(entry.counts, reason) + 1], lastFailure := now);
      if reason == Billing {
        var billingCount := entry.counts[Billing];
        entry := entry.(disabledUntil := now + BillingCooldown(billingCount), disabled := true);
      } else {
        entry := entry.(cooldownEnd := now + StandardCooldown(entry.errorCount));
      }
    }

    method GetOrCreate(provider: string) returns (entry: Entry)
      requires Valid()
      modifies this`entries
      ensures Valid() && provider in entries && entry == entries[provider] == Lookup(old(entries), provider)
      ensures forall p :: Lookup(entries, p) == Lookup(old(entries), p)
    {
      if provider !in entries {
        entries := entries[provider := FRESH];
      }
      entry := entries[provider];
    }

    method MarkSuccess(provider: string)
      requires Valid()
      modifies this
      ensures Valid() && clock == old(clock) && log == old(log) + [Mark(provider, Success)]
    {
      Unmarked(entries, log, clock, provider);
      entries := Succeed(entries, provider);
      log := log + [Mark(provider, Success)];
    }

    static method Succeed(was: map<string, Entry>, provider: string) returns (entries: map<string, Entry>)
      ensures entries == Forgiven(was, provider)
    {
      entries := was;
      if provider in entries {
        var entry := entries[provider];
        entry := entry.(errorCount := 0, counts := map[], cooldownEnd := 0, disabledUntil := 0, disabled := false);
        entries := entries[provider := entry];
      }
    }

    method IsAvailable(provider: string, now: int) returns (available: bool)
      requires Valid() && now > 0
      ensures available == Available(After(Of(log, provider)), now)
    {
      if provider !in entries {
        return true;
      }
      var entry := entries[provider];
      if entry.disabledUntil != 0 && now < entry.disabledUntil {
        return false;
      }
      if entry.cooldownEnd != 0 && now < entry.cooldownEnd {
        return false;
      }
      return true;
    }

    method CooldownRemaining(provider: string, now: int) returns (remaining: int)
      requires Valid() && now > 0
      ensures remaining == Remaining(After(Of(log, provider)), now)
    {
      remaining := 0;
      if provider !in entries {
        return;
      }
      var entry := entries[provider];
      if entry.disabledUntil != 0 && now < entry.disabledUntil {
        remaining := Max(remaining, entry.disabledUntil - now);
      }
      if entry.cooldownEnd != 0 && now < entry.cooldownEnd {
        remaining := Max(remaining, entry.cooldownEnd - now);
      }
    }
  }
}
