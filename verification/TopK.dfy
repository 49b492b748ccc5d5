/** Top-k selection with a fixed-size min-heap, against sorting everything and taking k. */
module TopK {

  datatype Scored = Scored(docID: nat, score: real)

  // ---------------------------------------------------------------- the ranking

  predicate Descending(s: seq<Scored>) {
    forall i, k | 0 <= i < k < |s| :: s[i].score >= s[k].score
  }

  predicate DistinctDocs(s: seq<Scored>) {
    forall i, k | 0 <= i < k < |s| :: s[i].docID != s[k].docID
  }

  predicate Listed(s: seq<Scored>, d: nat) { exists k | 0 <= k < |s| :: s[k].docID == d }

  /** The k best of the scored documents, best first; ties may fall either way. */
  ghost predicate IsTopK(scores: map<nat, real>, topK: nat, out: seq<Scored>) {
    && |out| == (if topK < |scores| then topK else |scores|)
    && (forall k | 0 <= k < |out| :: out[k].docID in scores && out[k].score == scores[out[k].docID])
    && DistinctDocs(out) && Descending(out)
    && forall d | d in scores && !Listed(out, d) :: forall k | 0 <= k < |out| :: scores[d] <= out[k].score
  }

  ghost function Docs(s: seq<Scored>): set<nat> {
    if s == [] then {} else Docs(s[..|s| - 1]) + {s[|s| - 1].docID}
  }

  lemma {:induction false} ListedAppend(init: seq<Scored>, x: Scored, d: nat)
    ensures Listed(init + [x], d) <==> Listed(init, d) || d == x.docID
  {
    var s := init + [x];
    if Listed(init, d) {
      var k :| 0 <= k < |init| && init[k].docID == d;
      assert s[k].docID == d;
    }
    assert s[|init|] == x;
  }

  lemma {:induction false} DocsSize(s: seq<Scored>)
    ensures forall d :: d in Docs(s) <==> Listed(s, d)
    ensures |Docs(s)| <= |s| && (DistinctDocs(s) ==> |Docs(s)| == |s|)
  {
    if s != [] {
      var init, x := s[..|s| - 1], s[|s| - 1];
      DocsSize(init);
      assert init + [x] == s;
      forall d ensures Listed(s, d) <==> Listed(init, d) || d == x.docID { ListedAppend(init, x, d); }
      if DistinctDocs(s) {
        assert !Listed(init, x.docID) by { assert forall k | 0 <= k < |init| :: init[k] == s[k]; }
      }
    }
  }

  /** Ties apart there is one ranking: position by position the scores are determined. So whatever
      order the documents are visited in, the scores are those of sorting all and taking k. */
  lemma {:induction false} RankingIsDetermined(scores: map<nat, real>, topK: nat, a: seq<Scored>, b: seq<Scored>, i: nat)
    requires IsTopK(scores, topK, a) && IsTopK(scores, topK, b) && i < |a|
    ensures a[i].score == b[i].score
  {
    NotBelow(scores, topK, a, b, i);
    NotBelow(scores, topK, b, a, i);
  }

  lemma {:induction false} NotBelow(scores: map<nat, real>, topK: nat, a: seq<Scored>, b: seq<Scored>, i: nat)
    requires IsTopK(scores, topK, a) && IsTopK(scores, topK, b) && i < |a|
    ensures a[i].score >= b[i].score
  {
    if a[i].score < b[i].score {
      var better, before := b[..i + 1], a[..i];
      DocsSize(better);
      DocsSize(before);
      forall d | d in Docs(better) ensures d in Docs(before) {
        var k :| 0 <= k <= i && better[k].docID == d;
        assert scores[d] >= b[i].score > a[i].score;
        assert Listed(a, d);
        var n :| 0 <= n < |a| && a[n].docID == d;
        assert n < i && before[n].docID == d;
      }
      SubsetSize(Docs(better), Docs(before));
      assert false;
    }
  }

  lemma {:induction false} SubsetSize(s: set<nat>, t: set<nat>)
    requires s <= t
    ensures |s| <= |t|
    decreases s
  {
    if s != {} {
      var x :| x in s;
      SubsetSize(s - {x}, t - {x});
    }
  }

  // ---------------------------------------------------------------- the heap

  function Parent(c: nat): nat
    requires c > 0
  {
    (c - 1) / 2
  }

  /** No child of a node from i on is smaller than the node. */
  ghost predicate HeapFrom(h: seq<Scored>, i: nat) {
    forall c: nat | 0 < c < |h| && i <= Parent(c) :: h[Parent(c)].score <= h[c].score
  }

  lemma {:induction false} RootIsLeast(h: seq<Scored>, c: nat)
    requires HeapFrom(h, 0) && c < |h|
    ensures h[0].score <= h[c].score
  {
    if c > 0 { RootIsLeast(h, Parent(c)); }
  }

  /** The heap, but for node i, which may be larger than its children. */
  ghost predicate HeapBut(h: seq<Scored>, top: nat, i: nat) {
    && (forall c: nat | 0 < c < |h| && top <= Parent(c) && Parent(c) != i :: h[Parent(c)].score <= h[c].score)
    && (forall c: nat | 0 < c < |h| && 0 < i && top <= Parent(i) && Parent(c) == i :: h[Parent(i)].score <= h[c].score)
  }

  lemma {:induction false} ChildrenOf(i: nat, c: nat)
    requires c > 0
    ensures Parent(c) == i <==> c == 2 * i + 1 || c == 2 * i + 2
  {}

  lemma {:induction false} SwapDown(h: seq<Scored>, top: nat, i: nat, s: nat)
    requires HeapBut(h, top, i) && top <= i < |h| && s < |h| && (s == 2 * i + 1 || s == 2 * i + 2)
    requires forall c: nat | 0 < c < |h| && Parent(c) == i :: h[s].score <= h[c].score
    requires h[s].score < h[i].score
    ensures HeapBut(h[i := h[s]][s := h[i]], top, s)
  {
    var g := h[i := h[s]][s := h[i]];
    assert Parent(s) == i;
    forall c: nat | 0 < c < |g| && top <= Parent(c) && Parent(c) != s ensures g[Parent(c)].score <= g[c].score {
      ChildrenOf(i, c);
      if c == i { assert h[Parent(i)].score <= h[s].score; }
    }
    forall c: nat | 0 < c < |g| && Parent(c) == s ensures g[Parent(s)].score <= g[c].score {
      assert h[Parent(c)].score <= h[c].score;
    }
  }

  lemma {:induction false} Settled(h: seq<Scored>, top: nat, i: nat)
    requires HeapBut(h, top, i) && i < |h|
    requires forall c: nat | 0 < c < |h| && Parent(c) == i :: h[i].score <= h[c].score
    ensures HeapFrom(h, top)
  {
    forall c: nat | 0 < c < |h| && top <= Parent(c) ensures h[Parent(c)].score <= h[c].score {}
  }

  lemma {:induction false} SwapKeepsElements(h: seq<Scored>, i: nat, k: nat)
    requires i < |h| && k < |h| && i != k
    ensures multiset(h[i := h[k]][k := h[i]]) == multiset(h)
  {}

  /** The node or its smaller child, whichever is least. */
  method Smallest(h: array<Scored>, i: nat) returns (smallest: nat)
    requires i < h.Length
    ensures smallest < h.Length && (smallest == i || smallest == 2 * i + 1 || smallest == 2 * i + 2)
    ensures smallest != i ==> h[smallest].score < h[i].score
    ensures forall c: nat | 0 < c < h.Length && Parent(c) == i :: h[smallest].score <= h[c].score
  {
    smallest := i;
    var l, r := 2 * i + 1, 2 * i + 2;
    if l < h.Length && h[l].score < h[smallest].score {
      smallest := l;
    }
    if r < h.Length && h[r].score < h[smallest].score {
      smallest := r;
    }
    forall c: nat | 0 < c < h.Length && Parent(c) == i ensures c == l || c == r { ChildrenOf(i, c); }
  }

  method SiftDown(h: array<Scored>, top: nat)
    requires top < h.Length && HeapFrom(h[..], top + 1)
    modifies h
    ensures HeapFrom(h[..], top) && multiset(h[..]) == multiset(old(h[..]))
  {
    var i := top;
    while true
      invariant top <= i < h.Length && HeapBut(h[..], top, i)
      invariant multiset(h[..]) == multiset(old(h[..]))
      decreases h.Length - i
    {
      ghost var before := h[..];
      var smallest := Smallest(h, i);
      if smallest == i {
        Settled(before, top, i);
        break;
      }
      SwapDown(before, top, i, smallest);
      SwapKeepsElements(before, i, smallest);
      h[i], h[smallest] := h[smallest], h[i];
      assert h[..] == before[i := before[smallest]][smallest := before[i]];
      i := smallest;
    }
  }

  method MinHeapify(h: array<Scored>)
    modifies h
    ensures HeapFrom(h[..], 0) && multiset(h[..]) == multiset(old(h[..]))
  {
    var i := h.Length / 2 - 1;
    while i >= 0
      invariant -1 <= i < h.Length && HeapFrom(h[..], i + 1)
      invariant multiset(h[..]) == multiset(old(h[..]))
    {
      SiftDown(h, i);
      i := i - 1;
    }
  }

  // ---------------------------------------------------------------- selection

  /** The scored documents of a set. */
  ghost function Entries(scores: map<nat, real>, docs: set<nat>): set<Scored>
    requires docs <= scores.Keys
  {
    set d | d in docs :: Scored(d, scores[d])
  }

  /** A list that holds exactly the scored documents of `kept`, each once. */
  ghost predicate HoldsExactly(s: seq<Scored>, scores: map<nat, real>, kept: set<nat>) {
    && |s| == |kept| && kept <= scores.Keys
    && multiset(s) == multiset(Entries(scores, kept))
  }

  lemma {:induction false} HeldMembers(s: seq<Scored>, scores: map<nat, real>, kept: set<nat>)
    requires HoldsExactly(s, scores, kept)
    ensures forall k | 0 <= k < |s| :: s[k].docID in kept && s[k].score == scores[s[k].docID]
    ensures forall d | d in kept :: Listed(s, d)
    ensures DistinctDocs(s)
  {
    var e := Entries(scores, kept);
    forall k | 0 <= k < |s| ensures s[k].docID in kept && s[k].score == scores[s[k].docID] {
      assert s[k] in multiset(s) && s[k] in e;
    }
    forall d | d in kept ensures Listed(s, d) {
      assert Scored(d, scores[d]) in e && Scored(d, scores[d]) in multiset(s);
      var k :| 0 <= k < |s| && s[k] == Scored(d, scores[d]);
    }
    forall i, k | 0 <= i < k < |s| ensures s[i].docID != s[k].docID {
      if s[i] == s[k] { TwiceInMultiset(s, i, k); }
    }
  }

  lemma {:induction false} TwiceInMultiset(s: seq<Scored>, i: int, k: int)
    requires 0 <= i < k < |s| && s[i] == s[k]
    ensures multiset(s)[s[i]] >= 2
  {
    assert s == s[..k] + [s[k]] + s[k + 1..];
    assert s[i] in s[..k];
    assert multiset(s) == multiset(s[..k]) + multiset{s[k]} + multiset(s[k + 1..]);
  }

  lemma {:induction false} HoldOneMore(s: seq<Scored>, scores: map<nat, real>, kept: set<nat>, d: nat)
    requires HoldsExactly(s, scores, kept) && d in scores && d !in kept
    ensures HoldsExactly(s + [Scored(d, scores[d])], scores, kept + {d})
  {
    assert Entries(scores, kept + {d}) == Entries(scores, kept) + {Scored(d, scores[d])};
    assert Scored(d, scores[d]) !in Entries(scores, kept);
  }

  lemma {:induction false} HoldInstead(s: seq<Scored>, scores: map<nat, real>, kept: set<nat>, i: nat, d: nat)
    requires HoldsExactly(s, scores, kept) && i < |s| && d in scores && d !in kept && s[i].docID in kept
    requires s[i].score == scores[s[i].docID]
    ensures HoldsExactly(s[i := Scored(d, scores[d])], scores, kept - {s[i].docID} + {d})
  {
    var x, y := s[i], Scored(d, scores[d]);
    assert multiset(s[i := y]) == multiset(s) - multiset{x} + multiset{y};
    var rest := kept - {x.docID};
    assert Entries(scores, kept) == Entries(scores, rest) + {x} && x !in Entries(scores, rest);
    assert Entries(scores, rest + {d}) == Entries(scores, rest) + {y} && y !in Entries(scores, rest);
  }

  /** No document that was seen and not kept scores higher than one that is kept. */
  ghost predicate KeptBest(scores: map<nat, real>, seen: set<nat>, kept: set<nat>) {
    && kept <= seen <= scores.Keys
    && forall d, e | d in seen - kept && e in kept :: scores[d] <= scores[e]
  }

  lemma {:induction false} RootLeastKept(h: seq<Scored>, scores: map<nat, real>, kept: set<nat>)
    requires HoldsExactly(h, scores, kept) && HeapFrom(h, 0) && h != []
    ensures h[0].docID in kept && h[0].score == scores[h[0].docID]
    ensures forall e | e in kept :: h[0].score <= scores[e]
  {
    HeldMembers(h, scores, kept);
    forall e | e in kept ensures h[0].score <= scores[e] {
      var k :| 0 <= k < |h| && h[k].docID == e;
      RootIsLeast(h, k);
    }
  }

  lemma {:induction false} KeepOneMore(scores: map<nat, real>, seen: set<nat>, kept: set<nat>, d: nat)
    requires KeptBest(scores, seen, kept) && seen == kept && d in scores
    ensures KeptBest(scores, seen + {d}, kept + {d})
  {}

  lemma {:induction false} KeepInstead(scores: map<nat, real>, seen: set<nat>, kept: set<nat>, r: nat, d: nat)
    requires KeptBest(scores, seen, kept) && r in kept && d in scores && d !in seen
    requires forall e | e in kept :: scores[r] <= scores[e]
    ensures scores[d] > scores[r] ==> KeptBest(scores, seen + {d}, kept - {r} + {d})
    ensures scores[d] <= scores[r] ==> KeptBest(scores, seen + {d}, kept)
  {}

  method AppendEntry(heap: array<Scored>, size: nat, x: Scored, ghost scores: map<nat, real>, ghost kept: set<nat>)
    requires size < heap.Length && HoldsExactly(heap[..size], scores, kept)
    requires x.docID in scores && x.docID !in kept && x.score == scores[x.docID]
    modifies heap
    ensures HoldsExactly(heap[..size + 1], scores, kept + {x.docID})
    ensures size + 1 == heap.Length ==> HeapFrom(heap[..], 0)
  {
    HoldOneMore(heap[..size], scores, kept, x.docID);
    hide Entries, HeapFrom;
    ghost var before := heap[..size];
    heap[size] := x;
    assert heap[..size + 1] == before + [x];
    if size + 1 == heap.Length {
      assert heap[..size + 1] == heap[..];
      MinHeapify(heap);
      assert heap[..size + 1] == heap[..];
    }
  }

  method ReplaceRoot(heap: array<Scored>, x: Scored, ghost scores: map<nat, real>, ghost kept: set<nat>)
    requires heap.Length > 0 && HeapFrom(heap[..], 0) && HoldsExactly(heap[..], scores, kept)
    requires x.docID in scores && x.docID !in kept && x.score == scores[x.docID]
    modifies heap
    ensures HeapFrom(heap[..], 0)
    ensures HoldsExactly(heap[..], scores, kept - {old(heap[0]).docID} + {x.docID})
  {
    RootLeastKept(heap[..], scores, kept);
    HoldInstead(heap[..], scores, kept, 0, x.docID);
    ghost var before := heap[..];
    heap[0] := x;
    assert heap[..] == before[0 := x];
    SiftDown(heap, 0);
  }

  /** The first `size` slots hold the best documents seen so far, as a heap once all slots are taken. */
  ghost predicate Selecting(h: seq<Scored>, size: nat, scores: map<nat, real>, seen: set<nat>, kept: set<nat>) {
    && size <= |h| && |h| > 0
    && HoldsExactly(h[..size], scores, kept) && KeptBest(scores, seen, kept)
    && if size < |h| then kept == seen else HeapFrom(h, 0)
  }

  method Fill(heap: array<Scored>, size: nat, x: Scored, ghost scores: map<nat, real>, ghost seen: set<nat>,
              ghost kept: set<nat>)
    requires size < heap.Length && Selecting(heap[..], size, scores, seen, kept)
    requires x.docID in scores && x.docID !in seen && x.score == scores[x.docID]
    modifies heap
    ensures Selecting(heap[..], size + 1, scores, seen + {x.docID}, kept + {x.docID})
  {
    assert heap[..][..size] == heap[..size];
    AppendEntry(heap, size, x, scores, kept);
    KeepOneMore(scores, seen, kept, x.docID);
    assert heap[..][..size + 1] == heap[..size + 1];
  }

  method Challenge(heap: array<Scored>, x: Scored, ghost scores: map<nat, real>, ghost seen: set<nat>,
                   ghost kept: set<nat>)
      returns (ghost kept': set<nat>)
    requires Selecting(heap[..], heap.Length, scores, seen, kept)
    requires x.docID in scores && x.docID !in seen && x.score == scores[x.docID]
    modifies heap
    ensures Selecting(heap[..], heap.Length, scores, seen + {x.docID}, kept')
  {
    assert heap[..][..heap.Length] == heap[..];
    ghost var r := heap[0].docID;
    RootLeastKept(heap[..], scores, kept);
    KeepInstead(scores, seen, kept, r, x.docID);
    kept' := kept;
    if x.score > heap[0].score {
      ReplaceRoot(heap, x, scores, kept);
      kept' := kept - {r} + {x.docID};
      assert heap[..][..heap.Length] == heap[..];
    }
  }

  /** The documents come in any order, as from ranging over a map. */
  method SelectTopK(scores: map<nat, real>, topK: nat) returns (out: seq<Scored>)
    requires topK > 0
    ensures IsTopK(scores, topK, out)
  {
    var heap := new Scored[topK](_ => Scored(0, 0.0));
    var size := 0;
    var rest := scores.Keys;
    ghost var kept: set<nat>, seen: set<nat> := {}, {};
    NothingSelected(heap[..], scores);
    while rest != {}
      invariant seen + rest == scores.Keys && seen !! rest
      invariant Selecting(heap[..], size, scores, seen, kept)
      decreases rest
    {
      var docID :| docID in rest;
      if size < topK {
        Fill(heap, size, Scored(docID, scores[docID]), scores, seen, kept);
        size, kept := size + 1, kept + {docID};
      } else {
        kept := Challenge(heap, Scored(docID, scores[docID]), scores, seen, kept);
      }
      seen, rest := seen + {docID}, rest - {docID};
    }
    assert heap[..][..size] == heap[..size];
    out := SortDescending(heap[..size]);
    Selected(scores, topK, kept, out);
  }

  lemma {:induction false} NothingSelected(h: seq<Scored>, scores: map<nat, real>)
    requires h != []
    ensures Selecting(h, 0, scores, {}, {})
  {
    assert Entries(scores, {}) == {};
  }

  lemma {:induction false} Selected(scores: map<nat, real>, topK: nat, kept: set<nat>, out: seq<Scored>)
    requires HoldsExactly(out, scores, kept) && Descending(out) && KeptBest(scores, scores.Keys, kept)
    requires |out| <= topK && (|out| < topK ==> kept == scores.Keys)
    ensures IsTopK(scores, topK, out)
  {
    HeldMembers(out, scores, kept);
    SubsetSize(kept, scores.Keys);
  }

  function Insert(t: seq<Scored>, x: Scored): (u: seq<Scored>)
    ensures |u| == |t| + 1 && multiset(u) == multiset(t) + multiset{x}
    ensures u[0] == x || (t != [] && u[0] == t[0])
  {
    if t == [] || t[0].score < x.score then [x] + t
    else
      assert t == [t[0]] + t[1..];
      [t[0]] + Insert(t[1..], x)
  }

  lemma {:induction false} InsertDescends(t: seq<Scored>, x: Scored)
    requires Descending(t)
    ensures Descending(Insert(t, x))
  {
    if t != [] && t[0].score >= x.score {
      var u := Insert(t[1..], x);
      InsertDescends(t[1..], x);
      forall k | 0 <= k < |u| ensures t[0].score >= u[k].score { assert t[0].score >= u[0].score; }
    }
  }

  /** Stands for the library's sort: descending, and nothing lost. */
  method SortDescending(s: seq<Scored>) returns (t: seq<Scored>)
    ensures multiset(t) == multiset(s) && |t| == |s| && Descending(t)
  {
    t := [];
    for n := 0 to |s|
      invariant |t| == n && multiset(t) == multiset(s[..n]) && Descending(t)
    {
      assert s[..n + 1] == s[..n] + [s[n]];
      InsertDescends(t, s[n]);
      t := Insert(t, s[n]);
    }
    assert s[..|s|] == s;
  }
}
