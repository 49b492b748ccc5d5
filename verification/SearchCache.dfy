/**
  The search cache: least-recently-used eviction, expiry, and lookup by trigram similarity.
  Queries are the bytes of the normalised text.
*/
module SearchCache {

  import opened Options

  type Byte = b: nat | b < 256
  type Query = seq<Byte>

  // ---------------------------------------------------------------- trigrams

  function Pack(a: Byte, b: Byte, c: Byte): nat { a * 65536 + b * 256 + c }

  /** Packed trigrams are as good as the trigrams themselves. */
  lemma {:induction false} PackIsInjective(a: Byte, b: Byte, c: Byte, x: Byte, y: Byte, z: Byte)
    requires Pack(a, b, c) == Pack(x, y, z)
    ensures a == x && b == y && c == z
  {}

  predicate TrigramAt(s: Query, i: int, t: nat)
    requires 0 <= i < |s| - 2
  {
    t == Pack(s[i], s[i + 1], s[i + 2])
  }

  predicate HasTrigram(s: Query, t: nat) {
    exists i | 0 <= i < |s| - 2 :: TrigramAt(s, i, t)
  }

  predicate Increasing(t: seq<nat>) { forall i, k | 0 <= i < k < |t| :: t[i] < t[k] }

  /** The strictly increasing list of exactly the trigrams of s. */
  ghost predicate IsTrigrams(t: seq<nat>, s: Query) {
    Increasing(t) && forall x :: x in t <==> HasTrigram(s, x)
  }

  function Elements(t: seq<nat>): set<nat> { set x | x in t }

  lemma {:induction false} IncreasingSize(t: seq<nat>)
    requires Increasing(t)
    ensures |Elements(t)| == |t|
  {
    if t != [] {
      var init, x := t[..|t| - 1], t[|t| - 1];
      IncreasingSize(init);
      assert init + [x] == t;
      assert Elements(t) == Elements(init) + {x} && x !in Elements(init);
    }
  }

  // ---------------------------------------------------------------- similarity

  /** |A n B| / |A u B|, and 1 for two empty sets. */
  ghost function Jaccard(a: set<nat>, b: set<nat>): real {
    if a + b == {} then 1.0 else |a * b| as real / |a + b| as real
  }

  lemma {:induction false} UnionSize(a: set<nat>, b: set<nat>)
    ensures |a + b| + |a * b| == |a| + |b|
  {
    assert a + b == a + (b - a) && |a + (b - a)| == |a| + |b - a|;
    assert b == (b - a) + (a * b) && |(b - a) + (a * b)| == |b - a| + |a * b|;
  }

  lemma {:induction false} SubsetSize(a: set<nat>, b: set<nat>)
    requires a <= b
    ensures |a| <= |b| && (|a| == |b| ==> a == b)
  {
    assert b == a + (b - a) && |a + (b - a)| == |a| + |b - a|;
  }

  lemma {:induction false} RatioBounds(n: nat, m: nat)
    requires n <= m && m > 0
    ensures 0.0 <= n as real / m as real <= 1.0
    ensures n as real / m as real == 1.0 <==> n == m
  {}

  /** Symmetric, between 0 and 1, and 1 for equal sets only. */
  lemma {:induction false} JaccardIsSimilarity(a: set<nat>, b: set<nat>)
    ensures 0.0 <= Jaccard(a, b) <= 1.0
    ensures Jaccard(a, b) == Jaccard(b, a)
    ensures Jaccard(a, b) == 1.0 <==> a == b
  {
    assert a + b == b + a && a * b == b * a;
    if a + b != {} {
      SubsetSize(a * b, a + b);
      RatioBounds(|a * b|, |a + b|);
      if |a * b| == |a + b| { assert a <= a + b && b <= a + b && a * b <= a && a * b <= b; }
      if a == b { assert a * b == a + b; }
    } else {
      assert a == {} && b == {};
    }
  }

  ghost function Grams(s: Query): set<nat> {
    if |s| < 3 then {} else Grams(s[..|s| - 1]) + {Pack(s[|s| - 3], s[|s| - 2], s[|s| - 1])}
  }

  lemma {:induction false} TrigramsGrow(s: Query, c: Byte, x: nat)
    requires |s| >= 2
    ensures HasTrigram(s + [c], x) <==> HasTrigram(s, x) || x == Pack(s[|s| - 2], s[|s| - 1], c)
  {
    var t, n := s + [c], |s| - 2;
    assert TrigramAt(t, n, x) <==> x == Pack(s[n], s[n + 1], c);
    if HasTrigram(s, x) {
      var i :| 0 <= i < n && TrigramAt(s, i, x);
      assert TrigramAt(t, i, x);
    }
    if HasTrigram(t, x) {
      var i :| 0 <= i <= n && TrigramAt(t, i, x);
      if i < n { assert TrigramAt(s, i, x); }
    }
  }

  lemma {:induction false} GramsAreTrigrams(s: Query, x: nat)
    ensures x in Grams(s) <==> HasTrigram(s, x)
  {
    if |s| >= 3 {
      var init := s[..|s| - 1];
      GramsAreTrigrams(init, x);
      TrigramsGrow(init, s[|s| - 1], x);
      assert init + [s[|s| - 1]] == s;
    }
  }

  lemma {:induction false} TrigramsAreGrams(t: seq<nat>, s: Query)
    requires IsTrigrams(t, s)
    ensures Elements(t) == Grams(s)
  {
    forall x ensures x in Elements(t) <==> x in Grams(s) { if x >= 0 { GramsAreTrigrams(s, x); } }
  }

  /** Any two queries of fewer than three bytes count as the same query. */
  lemma {:induction false} ShortQueriesCoincide(q: Query, r: Query)
    requires |q| < 3 && |r| < 3
    ensures Jaccard(Grams(q), Grams(r)) == 1.0
  {
    assert Grams(q) == {} && Grams(r) == {};
  }

  method JaccardSimilarity(a: seq<nat>, b: seq<nat>) returns (r: real)
    requires Increasing(a) && Increasing(b)
    ensures r == Jaccard(Elements(a), Elements(b))
  {
    if |a| == 0 && |b| == 0 {
      return 1.0;
    }
    var intersection := CountCommon(a, b);
    IncreasingSize(a);
    IncreasingSize(b);
    UnionSize(Elements(a), Elements(b));
    var union := |a| + |b| - intersection;
    SubsetSize(Elements(a), Elements(a) + Elements(b));
    SubsetSize(Elements(b), Elements(a) + Elements(b));
    r := intersection as real / union as real;
  }

  /** The common elements of two strictly increasing lists, counted by merging them. */
  method CountCommon(a: seq<nat>, b: seq<nat>) returns (intersection: nat)
    requires Increasing(a) && Increasing(b)
    ensures intersection == |Elements(a) * Elements(b)|
  {
    var i, j := 0, 0;
    intersection := 0;
    ghost var common: set<nat> := {};
    while i < |a| && j < |b|
      invariant 0 <= i <= |a| && 0 <= j <= |b|
      invariant intersection == |common| && Merging(a, i, b, j, common)
    {
      CommonStep(a, i, b, j, common);
      if a[i] == b[j] {
        common := common + {a[i]};
        intersection := intersection + 1;
        i := i + 1;
        j := j + 1;
      } else if a[i] < b[j] {
        i := i + 1;
      } else {
        j := j + 1;
      }
    }
    MergedCommon(a, b, i, j, common);
  }

  predicate InPrefix(x: nat, a: seq<nat>, i: int)
    requires i <= |a|
  {
    exists k | 0 <= k < i :: a[k] == x
  }

  /** The elements of a[..i] and b[..j] alike. */
  ghost predicate CommonPart(a: seq<nat>, i: int, b: seq<nat>, j: int, common: set<nat>)
    requires i <= |a| && j <= |b|
  {
    forall x :: x in common <==> InPrefix(x, a, i) && InPrefix(x, b, j)
  }

  ghost predicate Merging(a: seq<nat>, i: nat, b: seq<nat>, j: nat, common: set<nat>)
    requires i <= |a| && j <= |b|
  {
    Merged(a, i, b, j) && Merged(b, j, a, i) && CommonPart(a, i, b, j, common)
  }

  lemma {:induction false} PrefixStep(x: nat, a: seq<nat>, i: nat)
    requires i < |a|
    ensures InPrefix(x, a, i + 1) <==> InPrefix(x, a, i) || x == a[i]
  {}

  lemma {:induction false} CommonStep(a: seq<nat>, i: nat, b: seq<nat>, j: nat, common: set<nat>)
    requires Increasing(a) && Increasing(b) && i < |a| && j < |b|
    requires Merging(a, i, b, j, common)
    ensures a[i] == b[j] ==> a[i] !in common && Merging(a, i + 1, b, j + 1, common + {a[i]})
    ensures a[i] < b[j] ==> Merging(a, i + 1, b, j, common)
    ensures a[i] > b[j] ==> Merging(a, i, b, j + 1, common)
  {
    assert !InPrefix(a[i], b, j) && !InPrefix(b[j], a, i);
    var i', j' := i + 1, j + 1;
    forall x: nat ensures InPrefix(x, a, i') <==> InPrefix(x, a, i) || x == a[i] { PrefixStep(x, a, i); }
    forall x: nat ensures InPrefix(x, b, j') <==> InPrefix(x, b, j) || x == b[j] { PrefixStep(x, b, j); }
  }

  /** What has been passed in a is below what is still to come in b. */
  ghost predicate Merged(a: seq<nat>, i: int, b: seq<nat>, j: int)
    requires 0 <= i <= |a| && 0 <= j <= |b|
  {
    forall k | 0 <= k < i && j < |b| :: a[k] < b[j]
  }

  lemma {:induction false} MergedCommon(a: seq<nat>, b: seq<nat>, i: nat, j: nat, common: set<nat>)
    requires Increasing(a) && Increasing(b) && i <= |a| && j <= |b| && (i == |a| || j == |b|)
    requires Merging(a, i, b, j, common)
    ensures common == Elements(a) * Elements(b)
  {
    forall x | x in a && x in b ensures x in common {
      var k :| 0 <= k < |a| && a[k] == x;
      var n :| 0 <= n < |b| && b[n] == x;
      assert k < i && n < j;
    }
    forall x | x in common ensures x in a && x in b {
      assert InPrefix(x, a, i) && InPrefix(x, b, j);
    }
  }

  // ---------------------------------------------------------------- building the list

  predicate Ascending(s: seq<nat>) { forall i, k | 0 <= i < k < |s| :: s[i] <= s[k] }

  function InsertSorted(s: seq<nat>, x: nat): (t: seq<nat>)
    ensures |t| == |s| + 1 && forall y :: y in t <==> y in s || y == x
    ensures t[0] == x || (s != [] && t[0] == s[0])
  {
    if s == [] || x <= s[0] then [x] + s
    else
      assert s == [s[0]] + s[1..];
      [s[0]] + InsertSorted(s[1..], x)
  }

  lemma {:induction false} InsertAscends(s: seq<nat>, x: nat)
    requires Ascending(s)
    ensures Ascending(InsertSorted(s, x))
  {
    if s != [] && x > s[0] {
      var t := InsertSorted(s[1..], x);
      InsertAscends(s[1..], x);
      forall k | 0 <= k < |t| ensures s[0] <= t[k] { assert s[0] <= t[0]; }
    }
  }

  /** Stands for the library's sort. */
  method Sort(s: seq<nat>) returns (t: seq<nat>)
    ensures Ascending(t) && |t| == |s| && forall y :: y in t <==> y in s
  {
    t := [];
    for n := 0 to |s|
      invariant Ascending(t) && |t| == n && forall y :: y in t <==> y in s[..n]
    {
      assert s[..n + 1] == s[..n] + [s[n]];
      InsertAscends(t, s[n]);
      t := InsertSorted(t, s[n]);
    }
    assert s[..|s|] == s;
  }

  /** t has the elements of s, each once. */
  ghost predicate Deduped(s: seq<nat>, t: seq<nat>) {
    && Increasing(t) && t != [] && s != [] && t[|t| - 1] == s[|s| - 1]
    && forall y :: y in t <==> y in s
  }

  lemma {:induction false} DedupeStep(s: seq<nat>, t: seq<nat>, x: nat)
    requires Deduped(s, t) && x >= s[|s| - 1]
    ensures x != s[|s| - 1] ==> Deduped(s + [x], t + [x])
    ensures x == s[|s| - 1] ==> Deduped(s + [x], t)
  {}

  /** Keeps one of each run of equal elements, in place, and says how many are left. */
  method Dedupe(trigrams: array<nat>) returns (n: nat)
    requires trigrams.Length > 0 && Ascending(trigrams[..])
    modifies trigrams
    ensures 1 <= n <= trigrams.Length && Deduped(old(trigrams[..]), trigrams[..n])
  {
    ghost var sorted, kept := trigrams[..], trigrams[..1];
    n := 1;
    var i := 1;
    assert sorted[..1] == kept;
    while i < trigrams.Length
      invariant 1 <= n <= i <= trigrams.Length
      invariant forall k | i - 1 <= k < trigrams.Length :: trigrams[k] == sorted[k]
      invariant trigrams[..n] == kept && Deduped(sorted[..i], kept)
    {
      assert sorted[..i + 1] == sorted[..i] + [sorted[i]];
      DedupeStep(sorted[..i], kept, sorted[i]);
      if trigrams[i] != trigrams[i - 1] {
        kept := kept + [trigrams[i]];
        trigrams[n] := trigrams[i];
        n := n + 1;
      }
      i := i + 1;
    }
    assert sorted[..i] == sorted;
  }

  method AllTrigrams(s: Query) returns (raw: seq<nat>)
    requires |s| >= 3
    ensures raw != [] && forall x :: x in raw <==> HasTrigram(s, x)
  {
    raw := [];
    for i := 0 to |s| - 2
      invariant |raw| == i && forall k | 0 <= k < i :: raw[k] == Pack(s[k], s[k + 1], s[k + 2])
    {
      raw := raw + [Pack(s[i], s[i + 1], s[i + 2])];
    }
    RawTrigrams(s, raw);
  }

  lemma {:induction false} RawTrigrams(s: Query, raw: seq<nat>)
    requires |s| >= 3 && |raw| == |s| - 2
    requires forall k | 0 <= k < |raw| :: raw[k] == Pack(s[k], s[k + 1], s[k + 2])
    ensures forall x :: x in raw <==> HasTrigram(s, x)
  {
    forall x ensures x in raw <==> HasTrigram(s, x) {
      if HasTrigram(s, x) {
        var i :| 0 <= i < |s| - 2 && TrigramAt(s, i, x);
        assert raw[i] == x;
      }
      if x in raw {
        var k :| 0 <= k < |raw| && raw[k] == x;
        assert TrigramAt(s, k, x);
      }
    }
  }

  method BuildTrigrams(s: Query) returns (t: seq<nat>)
    ensures IsTrigrams(t, s)
  {
    if |s| < 3 {
      return [];
    }
    var raw := AllTrigrams(s);
    var sorted := Sort(raw);
    assert sorted != [] by { assert raw[0] in sorted; }
    var trigrams := new nat[|sorted|](k requires 0 <= k < |sorted| => sorted[k]);
    assert trigrams[..] == sorted;
    var n := Dedupe(trigrams);
    t := trigrams[..n];
  }

  // ---------------------------------------------------------------- the cache

  type Results = seq<string>

  datatype Entry = Entry(query: Query, trigrams: seq<nat>, results: Results, createdAt: int)

  predicate NoDuplicates(order: seq<Query>) { forall i, k | 0 <= i < k < |order| :: order[i] != order[k] }

  function Filter(order: seq<Query>, keep: set<Query>): seq<Query> {
    if order == [] then []
    else Filter(order[..|order| - 1], keep) + if order[|order| - 1] in keep then [order[|order| - 1]] else []
  }

  function Without(order: seq<Query>, key: Query): seq<Query> {
    if order == [] then []
    else Without(order[..|order| - 1], key) + if order[|order| - 1] == key then [] else [order[|order| - 1]]
  }

  /** The keys whose entries have not expired. */
  function Live(entries: map<Query, Entry>, ttl: int, now: int): set<Query> {
    set q | q in entries && now - entries[q].createdAt < ttl
  }

  function Alive(order: seq<Query>, entries: map<Query, Entry>, ttl: int, now: int): seq<Query> {
    Filter(order, Live(entries, ttl, now))
  }

  lemma {:induction false} FilterMembers(order: seq<Query>, keep: set<Query>)
    ensures forall q :: q in Filter(order, keep) <==> q in order && q in keep
    ensures NoDuplicates(order) ==> NoDuplicates(Filter(order, keep))
    ensures |Filter(order, keep)| <= |order|
  {
    if order != [] {
      FilterMembers(order[..|order| - 1], keep);
      assert order == order[..|order| - 1] + [order[|order| - 1]];
    }
  }

  /** Those that were stored less than the time to live ago. */
  lemma {:induction false} AliveMeans(order: seq<Query>, entries: map<Query, Entry>, ttl: int, now: int, q: Query)
    ensures q in Alive(order, entries, ttl, now) <==> q in order && q in entries && entries[q].createdAt > now - ttl
    ensures NoDuplicates(order) ==> NoDuplicates(Alive(order, entries, ttl, now))
  {
    FilterMembers(order, Live(entries, ttl, now));
  }

  /** Later in the list means used later. */
  ghost predicate ByUse(order: seq<Query>, lastUse: map<Query, nat>, uses: nat) {
    && (forall q | q in order :: q in lastUse && lastUse[q] < uses)
    && forall i, k | 0 <= i < k < |order| :: lastUse[order[i]] < lastUse[order[k]]
  }

  lemma {:induction false} FilterByUse(order: seq<Query>, keep: set<Query>, lastUse: map<Query, nat>, uses: nat)
    requires ByUse(order, lastUse, uses)
    ensures ByUse(Filter(order, keep), lastUse, uses)
  {
    if order != [] {
      var init, q := order[..|order| - 1], order[|order| - 1];
      assert order == init + [q];
      LastUsedLast(init, q, lastUse, uses);
      FilterByUse(init, keep, lastUse, uses);
      FilterMembers(init, keep);
      UsedLater(Filter(init, keep), q, lastUse, uses);
    }
  }

  /** What a list of keys, all of which have entries, needs for eviction to be by least recent use. */
  ghost predicate Tracks(order: seq<Query>, entries: map<Query, Entry>, lastUse: map<Query, nat>, uses: nat) {
    SameKeys(order, entries) && GoodEntries(entries) && ByUse(order, lastUse, uses)
  }

  lemma {:induction false} WithoutMembers(order: seq<Query>, key: Query)
    ensures forall q :: q in Without(order, key) <==> q in order && q != key
    ensures NoDuplicates(order) ==> NoDuplicates(Without(order, key))
  {
    if order != [] {
      var init, q := order[..|order| - 1], order[|order| - 1];
      WithoutMembers(init, key);
      assert order == init + [q];
      if NoDuplicates(order) { DistinctInit(init, q); }
    }
  }

  lemma {:induction false} DistinctInit(init: seq<Query>, q: Query)
    requires NoDuplicates(init + [q])
    ensures NoDuplicates(init) && q !in init
  {
    var order := init + [q];
    forall i, k | 0 <= i < k < |init| ensures init[i] != init[k] { assert order[i] != order[k]; }
    forall i | 0 <= i < |init| ensures init[i] != q { assert order[i] != order[|init|]; }
  }

  lemma {:induction false} WithoutAbsent(order: seq<Query>, key: Query)
    requires key !in order
    ensures Without(order, key) == order
  {
    if order != [] {
      assert order == order[..|order| - 1] + [order[|order| - 1]];
      WithoutAbsent(order[..|order| - 1], key);
    }
  }

  /** Cutting the key out where it first occurs takes it out altogether. */
  lemma {:induction false} WithoutAt(order: seq<Query>, key: Query, i: nat)
    requires NoDuplicates(order) && i < |order| && order[i] == key
    ensures Without(order, key) == order[..i] + order[i + 1..]
  {
    var n := |order| - 1;
    var init, q := order[..n], order[n];
    assert order == init + [q];
    DistinctInit(init, q);
    if i == n {
      WithoutAbsent(init, key);
    } else {
      assert init[i] == key && q != key;
      WithoutAt(init, key, i);
      CutLast(init, q, i);
    }
  }

  lemma {:induction false} CutLast(init: seq<Query>, q: Query, i: nat)
    requires i < |init|
    ensures (init + [q])[..i] + (init + [q])[i + 1..] == (init[..i] + init[i + 1..]) + [q]
  {}

  lemma {:induction false} WithoutByUse(order: seq<Query>, key: Query, lastUse: map<Query, nat>, uses: nat)
    requires ByUse(order, lastUse, uses)
    ensures ByUse(Without(order, key), lastUse, uses)
  {
    if order != [] {
      var init, q := order[..|order| - 1], order[|order| - 1];
      assert order == init + [q];
      LastUsedLast(init, q, lastUse, uses);
      WithoutByUse(init, key, lastUse, uses);
      WithoutMembers(init, key);
      UsedLater(Without(init, key), q, lastUse, uses);
    }
  }

  lemma {:induction false} LastUsedLast(init: seq<Query>, q: Query, lastUse: map<Query, nat>, uses: nat)
    requires ByUse(init + [q], lastUse, uses)
    ensures ByUse(init, lastUse, uses) && q in lastUse && lastUse[q] < uses
    ensures forall x | x in init :: x in lastUse && lastUse[x] < lastUse[q]
  {
    var order := init + [q];
    assert order[|init|] == q;
    forall i, k | 0 <= i < k < |init| ensures lastUse[init[i]] < lastUse[init[k]] {
      assert order[i] == init[i] && order[k] == init[k];
    }
    forall x | x in init ensures x in lastUse && lastUse[x] < lastUse[q] {
      var n :| 0 <= n < |init| && init[n] == x;
      assert order[n] == x;
    }
  }

  lemma {:induction false} UsedLater(order: seq<Query>, q: Query, lastUse: map<Query, nat>, uses: nat)
    requires ByUse(order, lastUse, uses) && q in lastUse && lastUse[q] < uses
    requires forall x | x in order :: lastUse[x] < lastUse[q]
    ensures ByUse(order + [q], lastUse, uses)
  {
    forall i, k | 0 <= i < k < |order + [q]| ensures lastUse[(order + [q])[i]] < lastUse[(order + [q])[k]] {
      assert order[i] in order;
    }
  }

  lemma {:induction false} UsedNow(order: seq<Query>, key: Query, lastUse: map<Query, nat>, uses: nat)
    requires ByUse(order, lastUse, uses) && key !in order
    ensures ByUse(order + [key], lastUse[key := uses], uses + 1)
  {
    forall i, k | 0 <= i < k < |order + [key]|
      ensures lastUse[key := uses][(order + [key])[i]] < lastUse[key := uses][(order + [key])[k]]
    {
      assert order[i] in order;
      if k < |order| { assert order[k] in order; }
    }
    forall q | q in order + [key] ensures q in lastUse[key := uses] && lastUse[key := uses][q] < uses + 1 {}
  }

  lemma {:induction false} Moved(order: seq<Query>, entries: map<Query, Entry>, key: Query, lastUse: map<Query, nat>, uses: nat)
    requires Tracks(order, entries, lastUse, uses) && key in entries
    ensures Tracks(Without(order, key) + [key], entries, lastUse[key := uses], uses + 1)
  {
    WithoutMembers(order, key);
    WithoutByUse(order, key, lastUse, uses);
    UsedNow(Without(order, key), key, lastUse, uses);
    KeysSize(Without(order, key) + [key], entries);
  }

  lemma {:induction false} Appended(order: seq<Query>, entries: map<Query, Entry>, key: Query, e: Entry,
                                    lastUse: map<Query, nat>, uses: nat)
    requires Tracks(order, entries, lastUse, uses) && key !in entries
    requires key != [] && e.query == key && IsTrigrams(e.trigrams, key)
    ensures Tracks(order + [key], entries[key := e], lastUse[key := uses], uses + 1)
  {
    UsedNow(order, key, lastUse, uses);
    KeysSize(order + [key], entries[key := e]);
  }

  lemma {:induction false} Replaced(order: seq<Query>, entries: map<Query, Entry>, key: Query, e: Entry,
                 lastUse: map<Query, nat>, uses: nat)
    requires Tracks(order, entries, lastUse, uses) && key in entries
    requires e.query == key && IsTrigrams(e.trigrams, key)
    ensures Tracks(order, entries[key := e], lastUse, uses)
  {
    assert entries[key := e].Keys == entries.Keys;
  }

  lemma {:induction false} TailByUse(order: seq<Query>, lastUse: map<Query, nat>, uses: nat)
    requires ByUse(order, lastUse, uses) && order != []
    ensures ByUse(order[1..], lastUse, uses) && order[0] in lastUse
    ensures forall q | q in order[1..] :: q in lastUse && lastUse[order[0]] < lastUse[q]
  {
    var tail := order[1..];
    forall k | 0 <= k < |tail| ensures tail[k] == order[k + 1] && tail[k] in lastUse {}
  }

  /** The entry dropped first is the one used longest ago. */
  lemma {:induction false} Dropped(order: seq<Query>, entries: map<Query, Entry>, lastUse: map<Query, nat>, uses: nat)
    requires Tracks(order, entries, lastUse, uses) && order != []
    ensures Tracks(order[1..], entries - {order[0]}, lastUse, uses)
    ensures forall q | q in entries && q != order[0] :: lastUse[order[0]] < lastUse[q]
  {
    TailByUse(order, lastUse, uses);
    assert order == [order[0]] + order[1..];
    KeysSize(order[1..], entries - {order[0]});
  }

  /** What eviction has left of a cache: the oldest entries are gone, and used before all that stay. */
  ghost predicate Evicted(all: map<Query, Entry>, order: seq<Query>, entries: map<Query, Entry>,
                          lastUse: map<Query, nat>, uses: nat) {
    && Tracks(order, entries, lastUse, uses)
    && (forall q | q in entries :: q in all && entries[q] == all[q])
    && (forall q | q in all :: q in lastUse)
    && forall q, r | q in all && q !in entries && r in entries :: lastUse[q] < lastUse[r]
  }

  lemma {:induction false} EvictOne(order: seq<Query>, entries: map<Query, Entry>, lastUse: map<Query, nat>, uses: nat)
    requires Tracks(order, entries, lastUse, uses)
    ensures Evicted(entries, order, entries, lastUse, uses)
    ensures order != [] ==> Evicted(entries, order[1..], entries - {order[0]}, lastUse, uses)
  {
    if order != [] {
      Dropped(order, entries, lastUse, uses);
    }
  }

  lemma {:induction false} KeysSize(order: seq<Query>, entries: map<Query, Entry>)
    requires NoDuplicates(order) && forall q :: q in order <==> q in entries
    ensures |order| == |entries|
  {
    if order == [] {
      assert entries.Keys == {};
    } else {
      var q := order[0];
      assert order == [q] + order[1..];
      KeysSize(order[1..], entries - {q});
      assert entries.Keys == (entries - {q}).Keys + {q};
    }
  }

  lemma {:induction false} Survivors(order: seq<Query>, entries: map<Query, Entry>, left: map<Query, Entry>,
                                     ttl: int, now: int, lastUse: map<Query, nat>, uses: nat)
    requires Tracks(order, entries, lastUse, uses)
    requires left.Keys == Live(entries, ttl, now) && forall q | q in left :: left[q] == entries[q]
    ensures Tracks(Alive(order, entries, ttl, now), left, lastUse, uses)
  {
    var keep := Live(entries, ttl, now);
    FilterMembers(order, keep);
    FilterByUse(order, keep, lastUse, uses);
    KeysSize(Filter(order, keep), left);
  }

  ghost predicate SameKeys(order: seq<Query>, entries: map<Query, Entry>) {
    NoDuplicates(order) && |order| == |entries| && forall q :: q in order <==> q in entries
  }

  ghost predicate GoodEntries(entries: map<Query, Entry>) {
    forall q | q in entries :: q != [] && entries[q].query == q && IsTrigrams(entries[q].trigrams, q)
  }

  const THRESHOLD := 0.7

  class Cache {
    var entries: map<Query, Entry>
    var order: seq<Query>
    const maxEntries: nat
    const ttl: int
    /** When each key was last put or found, counted in uses of the cache. */
    ghost var lastUse: map<Query, nat>
    ghost var uses: nat

    /** The order list is a permutation of the keys, without duplicates, and by time of last use. */
    ghost predicate Valid()
      reads this
    {
      Tracks(order, entries, lastUse, uses) && |order| <= maxEntries && 0 < maxEntries
    }

    constructor (maxEntries: int, ttl: int)
      ensures Valid() && entries == map[] && order == []
      ensures this.maxEntries == (if maxEntries <= 0 then 50 else maxEntries)
      ensures this.ttl == (if ttl <= 0 then 300_000_000_000 else ttl)
    {
      this.maxEntries := if maxEntries <= 0 then 50 else maxEntries;
      this.ttl := if ttl <= 0 then 300_000_000_000 else ttl;
      entries, order, lastUse, uses := map[], [], map[], 0;
    }

    method MoveToEnd(key: Query)
      requires NoDuplicates(order)
      modifies this`order
      ensures order == Without(old(order), key) + [key]
    {
      var i := 0;
      while i < |order| && order[i] != key
        invariant i <= |order| && order == old(order) && key !in order[..i]
      {
        assert order[..i + 1] == order[..i] + [order[i]];
        i := i + 1;
      }
      if i < |order| {
        WithoutAt(order, key, i);
        order := order[..i] + order[i + 1..];
      } else {
        assert order[..i] == order;
        WithoutAbsent(order, key);
      }
      order := order + [key];
    }

    /** Goes through the order list, dropping the expired entries. */
    static method Sweep(order: seq<Query>, entries: map<Query, Entry>, ttl: int, now: int)
      returns (newOrder: seq<Query>, left: map<Query, Entry>)
      ensures newOrder == Alive(order, entries, ttl, now)
      ensures forall q :: q in left <==> q in entries && (q in order ==> q in Live(entries, ttl, now))
      ensures forall q | q in left :: left[q] == entries[q]
    {
      newOrder, left := [], entries;
      ghost var live := Live(entries, ttl, now);
      for i := 0 to |order|
        invariant newOrder == Filter(order[..i], live)
        invariant forall q :: q in left <==> q in entries && (q in order[..i] ==> q in live)
        invariant forall q | q in left :: left[q] == entries[q]
      {
        assert order[..i + 1] == order[..i] + [order[i]] && order[..i + 1][..i] == order[..i];
        if order[i] in entries && now - entries[order[i]].createdAt < ttl {
          newOrder := newOrder + [order[i]];
        } else {
          left := left - {order[i]};
        }
      }
      assert order[..|order|] == order;
    }

    method EvictExpired(now: int)
      requires Valid()
      modifies this`order, this`entries
      ensures Valid() && order == Alive(old(order), old(entries), ttl, now)
      ensures forall q | q in entries :: q in old(entries) && entries[q] == old(entries)[q]
    {
      var newOrder, left := Sweep(order, entries, ttl, now);
      Survivors(order, entries, left, ttl, now, lastUse, uses);
      FilterMembers(order, Live(entries, ttl, now));
      order, entries := newOrder, left;
    }

    /** Makes room for one more entry. Whatever goes was used longer ago than whatever stays. */
    method EvictOldest()
      requires Valid()
      modifies this`order, this`entries
      ensures Evicted(old(entries), order, entries, lastUse, uses) && |order| < maxEntries
      ensures order == if |old(order)| >= maxEntries then old(order)[1..] else old(order)
    {
      EvictOne(order, entries, lastUse, uses);
      DropOldest();
    }

    method DropOldest()
      requires |order| == |entries| <= maxEntries && 0 < maxEntries && forall q | q in order :: q in entries
      modifies this`order, this`entries
      ensures |old(order)| < maxEntries ==> order == old(order) && entries == old(entries)
      ensures |old(order)| == maxEntries ==> order == old(order)[1..] && entries == old(entries) - {old(order)[0]}
    {
      ghost var before, all := order, entries;
      while |entries| >= maxEntries && |order| > 0
        invariant |order| == |entries| <= maxEntries
        invariant (order == before && entries == all)
                  || (|before| == maxEntries && order == before[1..] && entries == all - {before[0]})
        decreases |order|
      {
        var oldest := order[0];
        order := order[1..];
        RemovedOne(entries, oldest);
        entries := entries - {oldest};
      }
    }

    static lemma {:induction false} RemovedOne(entries: map<Query, Entry>, q: Query)
      requires q in entries
      ensures |entries - {q}| == |entries| - 1
    {
      assert (entries - {q}).Keys == entries.Keys - {q};
    }

    /** Stores results under a normalised query. */
    method Put(query: Query, results: Results, now: int)
      requires Valid()
      modifies this
      ensures Valid()
      ensures query == [] ==> order == old(order) && entries == old(entries) && lastUse == old(lastUse)
      ensures query != [] ==> lastUse == old(lastUse)[query := old(uses)]
      ensures query != [] ==>
        var alive := Alive(old(order), old(entries), ttl, now);
        && order == (if query in alive then Without(alive, query)
                     else if |alive| >= maxEntries then alive[1..] else alive) + [query]
        && query in entries && entries[query].results == results && entries[query].createdAt == now
        && forall q | q in entries && q != query :: q in old(entries) && entries[q] == old(entries)[q]
    {
      if query == [] {
        return;
      }
      EvictExpired(now);
      var trigrams := BuildTrigrams(query);
      var entry := Entry(query, trigrams, results, now);
      if query in entries {
        Renew(query, entry);
      } else {
        Insert(query, entry);
      }
    }

    method Renew(query: Query, entry: Entry)
      requires Valid() && query in entries && entry.query == query && IsTrigrams(entry.trigrams, query)
      modifies this
      ensures Valid() && order == Without(old(order), query) + [query] && lastUse == old(lastUse)[query := old(uses)]
      ensures entries == old(entries)[query := entry]
    {
      Replaced(order, entries, query, entry, lastUse, uses);
      entries := entries[query := entry];
      Use(query);
    }

    method Insert(query: Query, entry: Entry)
      requires Valid() && query !in entries && query != [] && entry.query == query && IsTrigrams(entry.trigrams, query)
      modifies this
      ensures Valid()
      ensures order == (if |old(order)| >= maxEntries then old(order)[1..] else old(order)) + [query]
      ensures query in entries && entries[query] == entry && lastUse == old(lastUse)[query := old(uses)]
      ensures forall q | q in entries && q != query :: q in old(entries) && entries[q] == old(entries)[q]
    {
      EvictOldest();
      Appended(order, entries, query, entry, lastUse, uses);
      entries := entries[query := entry];
      order := order + [query];
      lastUse, uses := lastUse[query := uses], uses + 1;
    }

    ghost predicate Unexpired(q: Query, now: int)
      reads this
    {
      q in entries && now - entries[q].createdAt < ttl
    }

    /** A live entry that is at least as similar as every other, and similar enough. */
    ghost predicate IsBestMatch(query: Query, q: Query, now: int)
      reads this
    {
      && Unexpired(q, now) && Jaccard(Grams(query), Grams(q)) >= 0.7
      && forall r | Unexpired(r, now) :: Jaccard(Grams(query), Grams(r)) <= Jaccard(Grams(query), Grams(q))
    }

    /** The entry itself if it is there and alive; else the most similar live one from the threshold on. */
    method Get(query: Query, now: int) returns (found: Option<Results>)
      requires Valid()
      modifies this`order, this`lastUse, this`uses
      ensures Valid()
      ensures query == [] ==> found.None? && order == old(order) && lastUse == old(lastUse)
      ensures query != [] && Unexpired(query, now) ==>
        found == Some(entries[query].results) && order == Without(old(order), query) + [query]
        && lastUse == old(lastUse)[query := old(uses)]
      ensures query != [] && !Unexpired(query, now) && found.Some? ==>
        exists q :: IsBestMatch(query, q, now) && found.value == entries[q].results
                    && order == Without(old(order), q) + [q] && lastUse == old(lastUse)[q := old(uses)]
      ensures query != [] && found.None? ==>
        order == old(order) && lastUse == old(lastUse)
        && forall q | Unexpired(q, now) :: Jaccard(Grams(query), Grams(q)) < 0.7
    {
      if query == [] {
        return None;
      }
      if query in entries && now - entries[query].createdAt < ttl {
        Use(query);
        return Some(entries[query].results);
      }
      var best, bestSim := MostSimilar(query, now);
      if bestSim >= THRESHOLD && best.Some? {
        assert IsBestMatch(query, best.value.query, now);
        Use(best.value.query);
        assert IsBestMatch(query, best.value.query, now);
        return Some(best.value.results);
      }
      return None;
    }

    method Use(key: Query)
      requires Valid() && key in entries
      modifies this`order, this`lastUse, this`uses
      ensures Valid() && order == Without(old(order), key) + [key] && lastUse == old(lastUse)[key := old(uses)]
    {
      Moved(order, entries, key, lastUse, uses);
      MoveToEnd(key);
      lastUse, uses := lastUse[key := uses], uses + 1;
    }

    /** Entries in any order; the first of the best wins. */
    method MostSimilar(query: Query, now: int) returns (best: Option<Entry>, bestSim: real)
      requires Valid()
      ensures best.Some? ==> Unexpired(best.value.query, now) && best.value == entries[best.value.query]
      ensures best.Some? ==> bestSim == Jaccard(Grams(query), Grams(best.value.query))
      ensures best.None? ==> bestSim == 0.0
      ensures forall q | Unexpired(q, now) :: Jaccard(Grams(query), Grams(q)) <= bestSim
    {
      var queryTrigrams := BuildTrigrams(query);
      TrigramsAreGrams(queryTrigrams, query);
      best, bestSim := None, 0.0;
      var rest := entries.Keys;
      while rest != {}
        invariant rest <= entries.Keys
        invariant best.Some? ==> Unexpired(best.value.query, now) && best.value == entries[best.value.query]
        invariant best.Some? ==> bestSim == Jaccard(Grams(query), Grams(best.value.query))
        invariant best.None? ==> bestSim == 0.0
        invariant forall q | Unexpired(q, now) && q !in rest :: Jaccard(Grams(query), Grams(q)) <= bestSim
        decreases rest
      {
        var q :| q in rest;
        var entry := entries[q];
        if now - entry.createdAt < ttl {
          var sim := Similarity(query, queryTrigrams, q, entry.trigrams);
          if sim > bestSim {
            best, bestSim := Some(entry), sim;
          }
        }
        rest := rest - {q};
      }
    }

    static method Similarity(query: Query, trigrams: seq<nat>, other: Query, others: seq<nat>) returns (sim: real)
      requires IsTrigrams(trigrams, query) && IsTrigrams(others, other)
      ensures sim == Jaccard(Grams(query), Grams(other))
    {
      TrigramsAreGrams(trigrams, query);
      TrigramsAreGrams(others, other);
      sim := JaccardSimilarity(trigrams, others);
    }
  }
}
