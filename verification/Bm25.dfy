/**
  The BM25 engine: an inverted index built at query time, scores accumulated posting list by
  posting list, and the top-k selection. Documents are their token lists, scores are reals.
*/
module Bm25 {
  import opened TopK

  type Doc = seq<string>

  // ---------------------------------------------------------------- scores, document by document

  function Occurrences(doc: Doc, term: string): nat {
    if doc == [] then 0
    else Occurrences(doc[..|doc| - 1], term) + if doc[|doc| - 1] == term then 1 else 0
  }

  /** Number of documents that contain the term. */
  function DocFrequency(corpus: seq<Doc>, term: string): nat {
    if corpus == [] then 0
    else DocFrequency(corpus[..|corpus| - 1], term) + if term in corpus[|corpus| - 1] then 1 else 0
  }

  function TotalLength(corpus: seq<Doc>): nat {
    if corpus == [] then 0 else TotalLength(corpus[..|corpus| - 1]) + |corpus[|corpus| - 1]|
  }

  /** Division as far as it is defined. */
  function Ratio(a: real, b: real): real { if b == 0.0 then 0.0 else a / b }

  /** Tuning constants; `ln` is the logarithm, left open. */
  datatype Engine = Engine(corpus: seq<Doc>, k1: real, b: real, ln: real -> real)

  function Idf(e: Engine, frequency: nat): real {
    e.ln(Ratio(|e.corpus| as real - frequency as real + 0.5, frequency as real + 0.5) + 1.0)
  }

  function LengthNorm(e: Engine, length: nat): real {
    e.k1 * (1.0 - e.b + e.b * Ratio(length as real, Ratio(TotalLength(e.corpus) as real, |e.corpus| as real)))
  }

  function Weight(e: Engine, freq: nat, norm: real, idf: real): real {
    idf * Ratio(freq as real * (e.k1 + 1.0), freq as real + norm)
  }

  function Contribution(e: Engine, d: nat, term: string): real
    requires d < |e.corpus|
  {
    if term !in e.corpus[d] then 0.0
    else Weight(e, Occurrences(e.corpus[d], term), LengthNorm(e, |e.corpus[d]|), Idf(e, DocFrequency(e.corpus, term)))
  }

  /** The direct score: the sum over the terms. */
  function Score(e: Engine, d: nat, terms: seq<string>): real
    requires d < |e.corpus|
  {
    if terms == [] then 0.0
    else Score(e, d, terms[..|terms| - 1]) + Contribution(e, d, terms[|terms| - 1])
  }

  predicate Matches(e: Engine, d: nat, terms: seq<string>)
    requires d < |e.corpus|
  {
    exists t | t in terms :: t in e.corpus[d]
  }

  /** Distinct query terms, in order of first occurrence. */
  function Distinct(tokens: seq<string>): (out: seq<string>)
    ensures forall t :: t in out <==> t in tokens
    ensures forall i, k | 0 <= i < k < |out| :: out[i] != out[k]
  {
    if tokens == [] then []
    else
      var init, t := tokens[..|tokens| - 1], tokens[|tokens| - 1];
      assert forall x :: x in tokens <==> x in init || x == t;
      if t in init then Distinct(init) else Distinct(init) + [t]
  }

  /** The specification of a search: direct scores of the matching documents. */
  ghost function DirectScores(e: Engine, query: seq<string>): map<nat, real> {
    map d: nat | d < |e.corpus| && Matches(e, d, Distinct(query)) :: Score(e, d, Distinct(query))
  }

  /** A document matches the distinct terms exactly if it contains some query token. */
  lemma {:induction false} DirectScoresCoverMatches(e: Engine, query: seq<string>, d: nat)
    requires d < |e.corpus|
    ensures d in DirectScores(e, query) <==> exists t | t in query :: t in e.corpus[d]
  {}

  // ---------------------------------------------------------------- the index

  method Dedupe(tokens: seq<string>) returns (out: seq<string>)
    ensures out == Distinct(tokens)
  {
    var seen: set<string> := {};
    out := [];
    for n := 0 to |tokens|
      invariant out == Distinct(tokens[..n]) && forall t :: t in seen <==> t in tokens[..n]
    {
      assert tokens[..n + 1][..n] == tokens[..n];
      if tokens[n] !in seen {
        seen := seen + {tokens[n]};
        out := out + [tokens[n]];
      }
    }
    assert tokens[..|tokens|] == tokens;
  }

  method CountTerms(doc: Doc) returns (tf: map<string, nat>)
    ensures forall t :: t in tf <==> t in doc
    ensures forall t | t in tf :: tf[t] == Occurrences(doc, t)
  {
    tf := map[];
    for n := 0 to |doc|
      invariant forall t :: t in tf <==> t in doc[..n]
      invariant forall t :: Occurrences(doc[..n], t) == if t in tf then tf[t] else 0
    {
      assert doc[..n + 1][..n] == doc[..n];
      tf := tf[doc[n] := (if doc[n] in tf then tf[doc[n]] else 0) + 1];
    }
    assert doc[..|doc|] == doc;
  }

  /** Counts each term of the map once. */
  method AddFrequencies(df: map<string, nat>, tf: map<string, nat>) returns (df': map<string, nat>)
    ensures df'.Keys == df.Keys + tf.Keys
    ensures forall t | t in df' :: df'[t] == (if t in df then df[t] else 0) + if t in tf then 1 else 0
  {
    df' := df;
    var rest := tf.Keys;
    while rest != {}
      invariant rest <= tf.Keys && df'.Keys == df.Keys + (tf.Keys - rest)
      invariant forall t | t in df' :: df'[t] == (if t in df then df[t] else 0) + if t in tf.Keys - rest then 1 else 0
      decreases rest
    {
      var t :| t in rest;
      df' := df'[t := (if t in df' then df'[t] else 0) + 1];
      rest := rest - {t};
    }
  }

  /** Term counts of every document. */
  ghost predicate Counts(corpus: seq<Doc>, entries: seq<map<string, nat>>) {
    |entries| == |corpus| && forall i | 0 <= i < |corpus| :: CountsDoc(corpus[i], entries[i])
  }

  ghost predicate CountsDoc(doc: Doc, tf: map<string, nat>) {
    (forall t :: t in tf <==> t in doc) && forall t | t in tf :: tf[t] == Occurrences(doc, t)
  }

  ghost predicate Frequencies(corpus: seq<Doc>, df: map<string, nat>) {
    forall t :: DocFrequency(corpus, t) == (if t in df then df[t] else 0) && (t in df ==> df[t] > 0)
  }

  lemma {:induction false} FrequenciesOneMore(corpus: seq<Doc>, doc: Doc, df: map<string, nat>,
                                              tf: map<string, nat>, df': map<string, nat>)
    requires Frequencies(corpus, df) && CountsDoc(doc, tf) && df'.Keys == df.Keys + tf.Keys
    requires forall t | t in df' :: df'[t] == (if t in df then df[t] else 0) + if t in tf then 1 else 0
    ensures Frequencies(corpus + [doc], df')
  {
    assert (corpus + [doc])[..|corpus|] == corpus;
  }

  lemma {:induction false} UnseenEverywhere(corpus: seq<Doc>, t: string)
    requires DocFrequency(corpus, t) == 0
    ensures forall d: nat | d < |corpus| :: t !in corpus[d]
  {
    if corpus != [] {
      var init := corpus[..|corpus| - 1];
      UnseenEverywhere(init, t);
      assert forall d: nat | d < |init| :: corpus[d] == init[d];
    }
  }

  method BuildIndex(corpus: seq<Doc>) returns (entries: seq<map<string, nat>>, df: map<string, nat>, totalLen: nat)
    ensures Counts(corpus, entries) && Frequencies(corpus, df) && totalLen == TotalLength(corpus)
  {
    entries, df, totalLen := [], map[], 0;
    for i := 0 to |corpus|
      invariant Counts(corpus[..i], entries) && Frequencies(corpus[..i], df) && totalLen == TotalLength(corpus[..i])
    {
      var tf := CountTerms(corpus[i]);
      var df' := AddFrequencies(df, tf);
      FrequenciesOneMore(corpus[..i], corpus[i], df, tf, df');
      assert corpus[..i + 1] == corpus[..i] + [corpus[i]];
      entries, df, totalLen := entries + [tf], df', totalLen + |corpus[i]|;
    }
    assert corpus[..|corpus|] == corpus;
  }

  /** The documents that contain the term, in order. */
  function PostingList(entries: seq<map<string, nat>>, term: string): (p: seq<nat>)
    ensures forall k | 0 <= k < |p| :: p[k] < |entries| && term in entries[p[k]]
    ensures forall i, k | 0 <= i < k < |p| :: p[i] < p[k]
  {
    if entries == [] then []
    else
      var init := entries[..|entries| - 1];
      PostingList(init, term) + if term in entries[|entries| - 1] then [|entries| - 1] else []
  }

  lemma {:induction false} PostingListMembers(entries: seq<map<string, nat>>, term: string, d: nat)
    ensures d in PostingList(entries, term) <==> d < |entries| && term in entries[d]
  {
    if entries != [] {
      PostingListMembers(entries[..|entries| - 1], term, d);
    }
  }

  ghost predicate Posts(posting: map<string, seq<nat>>, entries: seq<map<string, nat>>) {
    forall t :: PostingList(entries, t) == Posting(posting, t)
  }

  function Posting(posting: map<string, seq<nat>>, t: string): seq<nat> {
    if t in posting then posting[t] else []
  }

  method AppendToPostings(posting: map<string, seq<nat>>, i: nat, terms: set<string>) returns (posting': map<string, seq<nat>>)
    ensures forall t :: Posting(posting', t) == Posting(posting, t) + if t in terms then [i] else []
  {
    posting' := posting;
    var rest := terms;
    while rest != {}
      invariant rest <= terms
      invariant forall t :: Posting(posting', t) == Posting(posting, t) + if t in terms - rest then [i] else []
      decreases rest
    {
      var term :| term in rest;
      posting' := posting'[term := Posting(posting', term) + [i]];
      rest := rest - {term};
    }
  }

  method BuildPostings(entries: seq<map<string, nat>>) returns (posting: map<string, seq<nat>>)
    ensures Posts(posting, entries)
  {
    posting := map[];
    for i := 0 to |entries|
      invariant Posts(posting, entries[..i])
    {
      ghost var before := posting;
      posting := AppendToPostings(posting, i, entries[i].Keys);
      PostsOneMore(before, posting, entries[..i], entries[i]);
      assert entries[..i + 1] == entries[..i] + [entries[i]];
    }
    assert entries[..|entries|] == entries;
  }

  lemma {:induction false} PostsOneMore(before: map<string, seq<nat>>, after: map<string, seq<nat>>,
                                        entries: seq<map<string, nat>>, tf: map<string, nat>)
    requires Posts(before, entries)
    requires forall t :: Posting(after, t) == Posting(before, t) + if t in tf.Keys then [|entries|] else []
    ensures Posts(after, entries + [tf])
  {
    assert (entries + [tf])[..|entries|] == entries;
  }

  // ---------------------------------------------------------------- accumulation

  /** Scores so far: of the documents matching these terms, the direct sums over them. */
  ghost predicate Accumulated(e: Engine, scores: map<nat, real>, terms: seq<string>) {
    && (forall d: nat :: d in scores <==> d < |e.corpus| && Matches(e, d, terms))
    && (forall d | d in scores :: scores[d] == Score(e, d, terms))
  }

  lemma {:induction false} ScoreUnmatched(e: Engine, d: nat, terms: seq<string>)
    requires d < |e.corpus| && !Matches(e, d, terms)
    ensures Score(e, d, terms) == 0.0
  {
    if terms != [] {
      assert terms[|terms| - 1] in terms;
      assert forall t | t in terms[..|terms| - 1] :: t in terms;
      ScoreUnmatched(e, d, terms[..|terms| - 1]);
    }
  }

  lemma {:induction false} MatchesAppend(e: Engine, d: nat, terms: seq<string>, t: string)
    requires d < |e.corpus|
    ensures Matches(e, d, terms + [t]) <==> Matches(e, d, terms) || t in e.corpus[d]
    ensures Score(e, d, terms + [t]) == Score(e, d, terms) + Contribution(e, d, t)
  {
    assert (terms + [t])[..|terms|] == terms;
    assert forall x :: x in terms + [t] <==> x in terms || x == t;
  }

  /** Adds to each document of a duplicate-free list its weight. */
  method AddContributions(e: Engine, entries: seq<map<string, nat>>, docLenNorm: seq<real>, postings: seq<nat>,
                          termIDF: real, term: string, scores: map<nat, real>, ghost weights: seq<real>)
      returns (scores': map<nat, real>)
    requires |docLenNorm| == |entries| && |weights| == |postings|
    requires forall k | 0 <= k < |postings| :: postings[k] < |entries| && term in entries[postings[k]]
    requires forall i, k | 0 <= i < k < |postings| :: postings[i] < postings[k]
    requires forall k | 0 <= k < |postings| ::
      weights[k] == Weight(e, entries[postings[k]][term], docLenNorm[postings[k]], termIDF)
    ensures forall d: nat :: d in scores' <==> d in scores || d in postings
    ensures forall k | 0 <= k < |postings| ::
      scores'[postings[k]] == (if postings[k] in scores then scores[postings[k]] else 0.0) + weights[k]
    ensures forall d | d in scores && d !in postings :: scores'[d] == scores[d]
  {
    scores' := scores;
    for n := 0 to |postings|
      invariant forall d: nat :: d in scores' <==> d in scores || d in postings[..n]
      invariant forall k | 0 <= k < n ::
        scores'[postings[k]] == (if postings[k] in scores then scores[postings[k]] else 0.0) + weights[k]
      invariant forall d | d in scores && d !in postings[..n] :: scores'[d] == scores[d]
    {
      var docID := postings[n];
      assert docID !in postings[..n];
      assert postings[..n + 1] == postings[..n] + [docID];
      var added := Weight(e, entries[docID][term], docLenNorm[docID], termIDF);
      scores' := scores'[docID := (if docID in scores' then scores'[docID] else 0.0) + added];
    }
    assert postings[..|postings|] == postings;
  }

  /** The weights of a term's postings are its contributions. */
  lemma {:induction false} WeightsAreContributions(e: Engine, entries: seq<map<string, nat>>, norms: seq<real>,
                                                   term: string, d: nat)
    requires Counts(e.corpus, entries) && d < |e.corpus| == |norms| && term in entries[d]
    requires norms[d] == LengthNorm(e, |e.corpus[d]|)
    ensures Weight(e, entries[d][term], norms[d], Idf(e, DocFrequency(e.corpus, term))) == Contribution(e, d, term)
  {
    assert CountsDoc(e.corpus[d], entries[d]);
  }

  /** One term's posting list brings the scores up to date with that term. */
  lemma {:induction false} AccumulatedOneMore(e: Engine, entries: seq<map<string, nat>>, term: string, scores: map<nat, real>,
                           scores': map<nat, real>, terms: seq<string>, weights: seq<real>)
    requires Accumulated(e, scores, terms) && Counts(e.corpus, entries)
    requires var p := PostingList(entries, term);
             && |weights| == |p|
             && (forall d: nat :: d in scores' <==> d in scores || d in p)
             && (forall k | 0 <= k < |p| ::
                   && weights[k] == Contribution(e, p[k], term)
                   && scores'[p[k]] == (if p[k] in scores then scores[p[k]] else 0.0) + weights[k])
             && (forall d | d in scores && d !in p :: scores'[d] == scores[d])
    ensures Accumulated(e, scores', terms + [term])
  {
    forall d: nat | d < |e.corpus|
      ensures d in scores' <==> Matches(e, d, terms + [term])
      ensures d in scores' ==> scores'[d] == Score(e, d, terms + [term])
    {
      assert CountsDoc(e.corpus[d], entries[d]);
      PostingListMembers(entries, term, d);
      MatchesAppend(e, d, terms, term);
      if !Matches(e, d, terms) { ScoreUnmatched(e, d, terms); }
      var p := PostingList(entries, term);
      if d in p {
        var k :| 0 <= k < |p| && p[k] == d;
        assert weights[k] == Contribution(e, d, term);
      }
    }
    forall d: nat | d in scores' ensures d < |e.corpus| { PostingListMembers(entries, term, d); }
  }

  lemma {:induction false} UnseenTerm(e: Engine, scores: map<nat, real>, terms: seq<string>, term: string)
    requires Accumulated(e, scores, terms) && forall d: nat | d < |e.corpus| :: term !in e.corpus[d]
    ensures Accumulated(e, scores, terms + [term])
  {
    forall d: nat | d < |e.corpus|
      ensures Matches(e, d, terms + [term]) <==> Matches(e, d, terms)
      ensures Score(e, d, terms + [term]) == Score(e, d, terms)
    {
      MatchesAppend(e, d, terms, term);
    }
  }

  ghost predicate IsNorms(e: Engine, norms: seq<real>) {
    |norms| == |e.corpus| && forall d: nat | d < |e.corpus| :: norms[d] == LengthNorm(e, |e.corpus[d]|)
  }

  method ComputeNorms(e: Engine, entriesLen: nat) returns (norms: seq<real>)
    requires entriesLen == |e.corpus|
    ensures IsNorms(e, norms)
  {
    norms := [];
    for i := 0 to entriesLen
      invariant |norms| == i && forall d: nat | d < i :: norms[d] == LengthNorm(e, |e.corpus[d]|)
    {
      norms := norms + [LengthNorm(e, |e.corpus[i]|)];
    }
  }

  method AddTerm(e: Engine, entries: seq<map<string, nat>>, docLenNorm: seq<real>, postings: seq<nat>,
                 termIDF: real, term: string, scores: map<nat, real>, ghost terms: seq<string>)
      returns (scores': map<nat, real>)
    requires Accumulated(e, scores, terms) && Counts(e.corpus, entries)
    requires postings == PostingList(entries, term) && termIDF == Idf(e, DocFrequency(e.corpus, term))
    requires IsNorms(e, docLenNorm)
    ensures Accumulated(e, scores', terms + [term])
  {
    ghost var weights := seq(|postings|, k requires 0 <= k < |postings| => Contribution(e, postings[k], term));
    forall k | 0 <= k < |postings|
      ensures weights[k] == Weight(e, entries[postings[k]][term], docLenNorm[postings[k]], termIDF)
    {
      WeightsAreContributions(e, entries, docLenNorm, term, postings[k]);
    }
    scores' := AddContributions(e, entries, docLenNorm, postings, termIDF, term, scores, weights);
    AccumulatedOneMore(e, entries, term, scores, scores', terms, weights);
  }

  /** A term outside the vocabulary contributes nothing. */
  method ScoreTerm(e: Engine, entries: seq<map<string, nat>>, df: map<string, nat>, docLenNorm: seq<real>,
                   posting: map<string, seq<nat>>, term: string, scores: map<nat, real>, ghost terms: seq<string>)
      returns (scores': map<nat, real>)
    requires Accumulated(e, scores, terms) && Counts(e.corpus, entries) && Frequencies(e.corpus, df)
    requires IsNorms(e, docLenNorm) && Posts(posting, entries)
    ensures Accumulated(e, scores', terms + [term])
  {
    if term in df {
      scores' := AddTerm(e, entries, docLenNorm, Posting(posting, term), Idf(e, df[term]), term, scores, terms);
    } else {
      UnseenEverywhere(e.corpus, term);
      UnseenTerm(e, scores, terms, term);
      scores' := scores;
    }
  }

  /** Accumulating over posting lists gives every document exactly its direct score. */
  method Accumulate(e: Engine, query: seq<string>) returns (scores: map<nat, real>)
    ensures scores == DirectScores(e, query)
  {
    var entries, df, totalLen := BuildIndex(e.corpus);
    var docLenNorm := ComputeNorms(e, |entries|);
    var posting := BuildPostings(entries);
    var unique := Dedupe(query);
    scores := map[];
    for n := 0 to |unique|
      invariant Accumulated(e, scores, unique[..n])
    {
      assert unique[..n + 1] == unique[..n] + [unique[n]];
      scores := ScoreTerm(e, entries, df, docLenNorm, posting, unique[n], scores, unique[..n]);
    }
    assert unique[..|unique|] == unique;
    AccumulatedIsDirect(e, scores, query);
  }

  lemma {:induction false} AccumulatedIsDirect(e: Engine, scores: map<nat, real>, query: seq<string>)
    requires Accumulated(e, scores, Distinct(query))
    ensures scores == DirectScores(e, query)
  {}

  /** The search: the top k of the directly scored documents, whatever order maps are ranged over. */
  method Search(e: Engine, query: seq<string>, topK: int) returns (out: seq<Scored>)
    ensures topK <= 0 ==> out == []
    ensures topK > 0 ==> IsTopK(DirectScores(e, query), topK, out)
  {
    if topK <= 0 || |query| == 0 || |e.corpus| == 0 {
      return [];
    }
    var scores := Accumulate(e, query);
    if |scores| == 0 {
      return [];
    }
    out := SelectTopK(scores, topK);
  }
}
