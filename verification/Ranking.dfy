/**
  What the BM25 ranking is for: the score in closed form, and what raises a document in the list. Counts are those
  of multisets and sets, not of the functions that the search computes with.
*/
module Ranking {
  import opened TopK
  import opened Bm25

  // ---------------------------------------------------------------- fractions

  lemma {:induction false} Scale(x: real, y: real, z: real)
    requires z > 0.0
    ensures x < y <==> x * z < y * z
  {
    assert (y - x) * z == y * z - x * z;
    if x < y { assert (y - x) * z > 0.0; }
    if x > y { assert (x - y) * z > 0.0; }
  }

  lemma {:induction false} Product(x: real, y: real)
    requires x > 0.0 && y > 0.0
    ensures x * y > 0.0
  {}

  /** a/b < c/d, by multiplying crosswise. */
  lemma {:induction false} Crosswise(a: real, b: real, c: real, d: real)
    requires b > 0.0 && d > 0.0
    ensures a / b < c / d <==> a * d < c * b
  {
    var x, y := a / b, c / d;
    Product(b, d);
    Scale(x, y, b * d);
    assert x * b == a && y * d == c;
    assert x * (b * d) == (x * b) * d;
    assert y * (b * d) == (y * d) * b;
  }

  // ---------------------------------------------------------------- counts

  ghost function DocsWith(e: Engine, t: string): set<nat> { set d: nat | d < |e.corpus| && t in e.corpus[d] }

  function AllTokens(corpus: seq<Doc>): Doc {
    if corpus == [] then [] else AllTokens(corpus[..|corpus| - 1]) + corpus[|corpus| - 1]
  }

  lemma {:induction false} OccurrencesCount(doc: Doc, t: string)
    ensures Occurrences(doc, t) == multiset(doc)[t]
  {
    if doc != [] {
      OccurrencesCount(doc[..|doc| - 1], t);
      assert doc == doc[..|doc| - 1] + [doc[|doc| - 1]];
    }
  }

  lemma {:induction false} FrequencyCounts(corpus: seq<Doc>, t: string)
    ensures DocFrequency(corpus, t) == |set d: nat | d < |corpus| && t in corpus[d]|
  {
    var all := set d: nat | d < |corpus| && t in corpus[d];
    if corpus == [] {
      assert all == {};
    } else {
      var n := |corpus| - 1;
      var init := corpus[..n];
      FrequencyCounts(init, t);
      var before := set d: nat | d < |init| && t in init[d];
      assert all == before + if t in corpus[n] then {n} else {};
    }
  }

  lemma {:induction false} LengthCounts(corpus: seq<Doc>)
    ensures TotalLength(corpus) == |AllTokens(corpus)|
  {
    if corpus != [] { LengthCounts(corpus[..|corpus| - 1]); }
  }

  lemma {:induction false} SomeTokens(corpus: seq<Doc>, d: nat)
    requires d < |corpus|
    ensures |AllTokens(corpus)| >= |corpus[d]|
  {
    if d < |corpus| - 1 { SomeTokens(corpus[..|corpus| - 1], d); }
  }

  // ---------------------------------------------------------------- the score

  ghost predicate Tuned(e: Engine) { e.k1 > 0.0 && 0.0 <= e.b <= 1.0 && IsLog(e.ln) }

  ghost predicate IsLog(ln: real -> real) {
    ln(1.0) == 0.0 && forall x, y | 0.0 < x < y :: ln(x) < ln(y)
  }

  /** The rarer a term, the more it weighs: n of N documents contain it. */
  function Rarity(all: real, n: real): real
    requires n >= 0.0
  {
    (all - n + 0.5) / (n + 0.5) + 1.0
  }

  /** What a term weighs in this corpus. */
  ghost function TermWeight(e: Engine, t: string): real { e.ln(Rarity(|e.corpus| as real, |DocsWith(e, t)| as real)) }

  /** A term of weight w that occurs f times: each further occurrence adds less. */
  function Okapi(w: real, f: real, c: real, norm: real): real
    requires f + norm > 0.0
  {
    w * (f * c / (f + norm))
  }

  function Stretched(k1: real, b: real, length: real, average: real): real
    requires average > 0.0
  {
    k1 * (1.0 - b + b * (length / average))
  }

  /** The length of a document against the average. */
  function Norm(e: Engine, length: real, tokens: real): real
    requires tokens > 0.0 && |e.corpus| > 0
  {
    QuotientPositive(tokens, |e.corpus| as real);
    Stretched(e.k1, e.b, length, tokens / |e.corpus| as real)
  }

  lemma {:induction false} QuotientPositive(a: real, b: real)
    requires a > 0.0 && b > 0.0
    ensures a / b > 0.0
  {
    var x := a / b;
    assert x * b == a;
    Scale(0.0, x, b);
  }

  lemma {:induction false} MixPositive(b: real, share: real)
    requires 0.0 <= b <= 1.0 && share > 0.0
    ensures 1.0 - b + b * share > 0.0
  {
    if b > 0.0 { Product(b, share); } else { assert b * share == 0.0; }
  }

  lemma {:induction false} StretchedPositive(k1: real, b: real, length: real, average: real)
    requires k1 > 0.0 && 0.0 <= b <= 1.0 && length > 0.0 && average > 0.0
    ensures Stretched(k1, b, length, average) > 0.0
  {
    var share := length / average;
    QuotientPositive(length, average);
    var inner := 1.0 - b + b * share;
    MixPositive(b, share);
    Product(k1, inner);
  }

  lemma {:induction false} NormPositive(e: Engine, length: real, tokens: real)
    requires Tuned(e) && tokens > 0.0 && |e.corpus| > 0 && length > 0.0
    ensures Norm(e, length, tokens) > 0.0
  {
    hide IsLog, Stretched;
    QuotientPositive(tokens, |e.corpus| as real);
    StretchedPositive(e.k1, e.b, length, tokens / |e.corpus| as real);
  }

  lemma {:induction false} RarityAboveOne(all: real, n: real)
    requires 0.0 <= n <= all
    ensures Rarity(all, n) > 1.0
  {
    var x := (all - n + 0.5) / (n + 0.5);
    assert x * (n + 0.5) == all - n + 0.5;
    Scale(0.0, x, n + 0.5);
  }

  lemma {:induction false} OneTerm(e: Engine, t: string, d: nat)
    requires d < |e.corpus|
    ensures d in DirectScores(e, [t]) <==> t in e.corpus[d]
    ensures t in e.corpus[d] ==> DirectScores(e, [t])[d] == Contribution(e, d, t)
  {
    assert [t][..0] == [] && Distinct([]) == [] && [] + [t] == [t];
    assert Distinct([t]) == [t];
    assert Score(e, d, [t]) == Score(e, d, []) + Contribution(e, d, t);
  }

  lemma {:induction false} IdfIs(e: Engine, t: string)
    requires |e.corpus| > 0
    ensures Idf(e, DocFrequency(e.corpus, t)) == TermWeight(e, t)
  {
    FrequencyCounts(e.corpus, t);
  }

  lemma {:induction false} NormIs(e: Engine, d: nat)
    requires d < |e.corpus| && |e.corpus[d]| > 0
    ensures |AllTokens(e.corpus)| > 0
    ensures LengthNorm(e, |e.corpus[d]|) == Norm(e, |e.corpus[d]| as real, |AllTokens(e.corpus)| as real)
  {
    LengthCounts(e.corpus);
    SomeTokens(e.corpus, d);
    assert |AllTokens(e.corpus)| as real / |e.corpus| as real > 0.0;
  }

  lemma {:induction false} WeightIs(e: Engine, f: nat, norm: real, w: real)
    requires f as real + norm > 0.0
    ensures Weight(e, f, norm, w) == Okapi(w, f as real, e.k1 + 1.0, norm)
  {}

  /** The score for one term: its logarithmic rarity times its saturated frequency. */
  lemma {:induction false} ScoreIsOkapi(e: Engine, t: string, d: nat)
    requires Tuned(e) && d < |e.corpus| && t in e.corpus[d]
    ensures d in DirectScores(e, [t]) && |AllTokens(e.corpus)| > 0
    ensures var f, norm := multiset(e.corpus[d])[t] as real, Norm(e, |e.corpus[d]| as real, |AllTokens(e.corpus)| as real);
      f > 0.0 && norm > 0.0 && DirectScores(e, [t])[d] == Okapi(TermWeight(e, t), f, e.k1 + 1.0, norm)
  {
    hide DirectScores, Weight, Idf, LengthNorm, Norm, TermWeight, Okapi;
    OneTerm(e, t, d);
    OccurrencesCount(e.corpus[d], t);
    IdfIs(e, t);
    NormIs(e, d);
    NormPositive(e, |e.corpus[d]| as real, |AllTokens(e.corpus)| as real);
    WeightIs(e, Occurrences(e.corpus[d], t), LengthNorm(e, |e.corpus[d]|), TermWeight(e, t));
  }

  lemma {:induction false} WeightPositive(e: Engine, t: string)
    requires Tuned(e)
    ensures TermWeight(e, t) > 0.0
  {
    FrequencyCounts(e.corpus, t);
    FrequencyBound(e.corpus, t);
    RarityAboveOne(|e.corpus| as real, |DocsWith(e, t)| as real);
  }

  lemma {:induction false} FrequencyBound(corpus: seq<Doc>, t: string)
    ensures DocFrequency(corpus, t) <= |corpus|
  {
    if corpus != [] { FrequencyBound(corpus[..|corpus| - 1], t); }
  }

  /** A term that is in the query already adds nothing; a new one adds its own score. */
  lemma {:induction false} OneMoreTerm(e: Engine, query: seq<string>, t: string, d: nat)
    requires d < |e.corpus|
    ensures t in query ==> DirectScores(e, query + [t]) == DirectScores(e, query)
    ensures t !in query ==>
      && (d in DirectScores(e, query + [t]) <==> d in DirectScores(e, query) || d in DirectScores(e, [t]))
      && (d in DirectScores(e, query + [t]) ==> DirectScores(e, query + [t])[d] == Of(e, query, d) + Of(e, [t], d))
  {
    var terms := Distinct(query);
    assert (query + [t])[..|query|] == query;
    if t !in query {
      assert Distinct(query + [t]) == terms + [t];
      MatchesAppend(e, d, terms, t);
      OneTerm(e, t, d);
      if !Matches(e, d, terms) { ScoreUnmatched(e, d, terms); }
    }
  }

  /** A document without a score counts as 0. */
  ghost function Of(e: Engine, query: seq<string>, d: nat): real {
    if d in DirectScores(e, query) then DirectScores(e, query)[d] else 0.0
  }

  // ---------------------------------------------------------------- the list

  /** Wherever j is listed, i is listed before it. */
  ghost predicate Ahead(out: seq<Scored>, i: nat, j: nat) {
    forall p | 0 <= p < |out| && out[p].docID == j :: exists q :: 0 <= q < p && out[q].docID == i
  }

  lemma {:induction false} HigherIsAhead(scores: map<nat, real>, k: nat, out: seq<Scored>, i: nat, j: nat)
    requires IsTopK(scores, k, out) && i in scores && (j in scores ==> scores[i] > scores[j])
    ensures Ahead(out, i, j)
  {
    forall p | 0 <= p < |out| && out[p].docID == j ensures exists q :: 0 <= q < p && out[q].docID == i {
      assert Listed(out, i);
      var q :| 0 <= q < |out| && out[q].docID == i;
      assert q < p;
    }
  }

  /** Of two documents of the same length, the one with more occurrences comes first. */
  lemma {:induction false} MoreOccurrencesFirst(e: Engine, t: string, i: nat, j: nat, k: nat, out: seq<Scored>)
    requires Tuned(e) && i < |e.corpus| && j < |e.corpus| && IsTopK(DirectScores(e, [t]), k, out)
    requires |e.corpus[i]| == |e.corpus[j]| && multiset(e.corpus[i])[t] > multiset(e.corpus[j])[t]
    ensures Ahead(out, i, j)
  {
    hide DirectScores, IsTopK, Norm, TermWeight, Okapi, Ahead;
    assert t in e.corpus[i];
    ScoreIsOkapi(e, t, i);
    OneTerm(e, t, j);
    if t in e.corpus[j] {
      ScoreIsOkapi(e, t, j);
      WeightPositive(e, t);
      MoreIsMore(TermWeight(e, t), e.k1 + 1.0, multiset(e.corpus[i])[t] as real,
                 multiset(e.corpus[j])[t] as real, Norm(e, |e.corpus[i]| as real, |AllTokens(e.corpus)| as real));
    }
    HigherIsAhead(DirectScores(e, [t]), k, out, i, j);
  }

  lemma {:induction false} MoreIsMore(w: real, c: real, f: real, g: real, norm: real)
    requires w > 0.0 && c > 0.0 && f > g > 0.0 && norm > 0.0
    ensures Okapi(w, f, c, norm) > Okapi(w, g, c, norm)
  {
    var a, b := g * c / (g + norm), f * c / (f + norm);
    assert a < b by { SaturatedGrows(c, f, g, norm); }
    Scale(a, b, w);
  }

  lemma {:induction false} SaturatedGrows(c: real, f: real, g: real, norm: real)
    requires c > 0.0 && f > g > 0.0 && norm > 0.0
    ensures g * c / (g + norm) < f * c / (f + norm)
  {
    Scale(g, f, c * norm) by { Product(c, norm); }
    assert (g * c) * (f + norm) == g * (c * f) + g * (c * norm);
    assert (f * c) * (g + norm) == f * (c * g) + f * (c * norm);
    assert g * (c * f) == f * (c * g);
    Crosswise(g * c, g + norm, f * c, f + norm);
  }

  /** Of two with as many occurrences, the longer one never scores higher, and lower if length counts. */
  lemma {:induction false} LongerNotFirst(e: Engine, t: string, i: nat, j: nat, k: nat, out: seq<Scored>)
    requires Tuned(e) && i < |e.corpus| && j < |e.corpus| && IsTopK(DirectScores(e, [t]), k, out)
    requires |e.corpus[i]| < |e.corpus[j]| && multiset(e.corpus[i])[t] == multiset(e.corpus[j])[t] > 0
    ensures i in DirectScores(e, [t]) && j in DirectScores(e, [t])
    ensures DirectScores(e, [t])[j] <= DirectScores(e, [t])[i]
    ensures e.b > 0.0 ==> DirectScores(e, [t])[j] < DirectScores(e, [t])[i] && Ahead(out, i, j)
  {
    hide DirectScores, IsTopK, Norm, TermWeight, Okapi, Ahead;
    assert t in e.corpus[i] && t in e.corpus[j];
    ScoreIsOkapi(e, t, i);
    ScoreIsOkapi(e, t, j);
    WeightPositive(e, t);
    var tokens := |AllTokens(e.corpus)| as real;
    NormGrows(e, |e.corpus[i]| as real, |e.corpus[j]| as real, tokens);
    var m, n := Norm(e, |e.corpus[i]| as real, tokens), Norm(e, |e.corpus[j]| as real, tokens);
    if m < n { LongerIsLess(TermWeight(e, t), e.k1 + 1.0, multiset(e.corpus[i])[t] as real, m, n); }
    if e.b > 0.0 { HigherIsAhead(DirectScores(e, [t]), k, out, i, j); }
  }

  lemma {:induction false} StretchedGrows(k1: real, b: real, m: real, n: real, average: real)
    requires k1 > 0.0 && 0.0 <= b <= 1.0 && m < n && average > 0.0
    ensures b > 0.0 ==> Stretched(k1, b, m, average) < Stretched(k1, b, n, average)
    ensures b == 0.0 ==> Stretched(k1, b, m, average) == Stretched(k1, b, n, average)
  {
    var x, y := m / average, n / average;
    Crosswise(m, average, n, average);
    Scale(m, n, average);
    var v, w := 1.0 - b + b * x, 1.0 - b + b * y;
    if b > 0.0 {
      Scale(x, y, b);
      Scale(v, w, k1);
    } else {
      assert b * x == 0.0 && b * y == 0.0;
    }
  }

  lemma {:induction false} NormGrows(e: Engine, a: real, b: real, tokens: real)
    requires Tuned(e) && tokens > 0.0 && |e.corpus| > 0 && a < b
    ensures Norm(e, a, tokens) <= Norm(e, b, tokens) && (e.b > 0.0 ==> Norm(e, a, tokens) < Norm(e, b, tokens))
  {
    hide IsLog, Stretched;
    QuotientPositive(tokens, |e.corpus| as real);
    StretchedGrows(e.k1, e.b, a, b, tokens / |e.corpus| as real);
  }

  lemma {:induction false} LongerIsLess(w: real, c: real, f: real, m: real, n: real)
    requires w > 0.0 && c > 0.0 && f > 0.0 && 0.0 < m < n
    ensures Okapi(w, f, c, n) < Okapi(w, f, c, m)
  {
    Scale(f + m, f + n, f * c) by { Product(f, c); }
    Crosswise(f * c, f + n, f * c, f + m);
    Scale(f * c / (f + n), f * c / (f + m), w);
  }

  /** Of two documents of the same length, each with one of the query's terms as often, the one with the term that
      is in fewer documents comes first. */
  lemma {:induction false} RarerFirst(e: Engine, t: string, u: string, query: seq<string>, i: nat, j: nat, k: nat,
                                      out: seq<Scored>)
    requires Tuned(e) && i < |e.corpus| && j < |e.corpus| && (query == [t, u] || query == [u, t])
    requires IsTopK(DirectScores(e, query), k, out) && |DocsWith(e, t)| < |DocsWith(e, u)|
    requires |e.corpus[i]| == |e.corpus[j]| && multiset(e.corpus[i])[t] == multiset(e.corpus[j])[u] > 0
    requires u !in e.corpus[i] && t !in e.corpus[j]
    ensures Ahead(out, i, j)
  {
    hide DirectScores, IsTopK, Norm, TermWeight, Okapi, Ahead;
    assert t in e.corpus[i] && u in e.corpus[j] && t != u;
    TwoTerms(e, query, i);
    TwoTerms(e, query, j);
    OneTerm(e, t, j);
    OneTerm(e, u, i);
    ScoreIsOkapi(e, t, i);
    ScoreIsOkapi(e, u, j);
    RarityFalls(e, t, u);
    HeavierIsMore(TermWeight(e, u), TermWeight(e, t), multiset(e.corpus[i])[t] as real, e.k1 + 1.0,
                  Norm(e, |e.corpus[i]| as real, |AllTokens(e.corpus)| as real));
    HigherIsAhead(DirectScores(e, query), k, out, i, j);
  }

  lemma {:induction false} HeavierIsMore(v: real, w: real, f: real, c: real, norm: real)
    requires v < w && f > 0.0 && c > 0.0 && norm > 0.0
    ensures Okapi(v, f, c, norm) < Okapi(w, f, c, norm)
  {
    SaturatedPositive(f, c, norm);
    Scale(v, w, f * c / (f + norm));
  }

  lemma {:induction false} TwoTerms(e: Engine, query: seq<string>, d: nat)
    requires |query| == 2 && query[0] != query[1] && d < |e.corpus|
    ensures d in DirectScores(e, query) <==> d in DirectScores(e, [query[0]]) || d in DirectScores(e, [query[1]])
    ensures Of(e, query, d) == Of(e, [query[0]], d) + Of(e, [query[1]], d)
  {
    OneMoreTerm(e, [query[0]], query[1], d);
    assert [query[0]] + [query[1]] == query;
  }

  lemma {:induction false} SaturatedPositive(f: real, c: real, norm: real)
    requires f > 0.0 && c > 0.0 && norm > 0.0
    ensures f * c / (f + norm) > 0.0
  {
    Product(f, c);
  }

  lemma {:induction false} RarityFalls(e: Engine, t: string, u: string)
    requires Tuned(e) && |DocsWith(e, t)| < |DocsWith(e, u)|
    ensures TermWeight(e, u) < TermWeight(e, t)
  {
    var all, n, m := |e.corpus| as real, |DocsWith(e, t)| as real, |DocsWith(e, u)| as real;
    FrequencyCounts(e.corpus, u);
    FrequencyBound(e.corpus, u);
    RarityAboveOne(all, m);
    RarerIsMore(all, n, m);
  }

  lemma {:induction false} RarerIsMore(all: real, n: real, m: real)
    requires 0.0 <= n < m <= all
    ensures Rarity(all, m) < Rarity(all, n)
  {
    Crosswise(all - m + 0.5, m + 0.5, all - n + 0.5, n + 0.5);
    assert (all - n + 0.5) * (m + 0.5) - (all - m + 0.5) * (n + 0.5) == (m - n) * (all + 1.0);
    Product(m - n, all + 1.0);
  }

  /** With every further query term that it contains, a document's score grows. */
  lemma {:induction false} MoreTermsScoreHigher(e: Engine, query: seq<string>, t: string, d: nat)
    requires Tuned(e) && d < |e.corpus| && t in e.corpus[d] && t !in query
    ensures d in DirectScores(e, query + [t]) && DirectScores(e, query + [t])[d] > Of(e, query, d)
  {
    hide DirectScores, Norm, TermWeight;
    OneMoreTerm(e, query, t, d);
    ScoreIsOkapi(e, t, d);
    WeightPositive(e, t);
    var f, norm := multiset(e.corpus[d])[t] as real, Norm(e, |e.corpus[d]| as real, |AllTokens(e.corpus)| as real);
    SaturatedPositive(f, e.k1 + 1.0, norm);
    Product(TermWeight(e, t), f * (e.k1 + 1.0) / (f + norm));
  }
}
