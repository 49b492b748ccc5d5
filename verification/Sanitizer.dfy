/**
  The history sanitiser. Strict providers accept a conversation only if every tool call is
  answered in the run of tool messages right behind it, so histories are filtered in two passes
  before they are sent.
*/
module Sanitizer {
  import opened Chat

  // ---------------------------------------------------------------- well-formed histories

  /** An assistant message that calls tools. */
  predicate IsTurn(m: Message) { m.role.Assistant? && m.calls != [] }

  predicate IsTool(m: Message) { m.role.Tool? }

  /** Messages j..k are all tool messages. */
  predicate ToolsOnly(h: seq<Message>, j: int, k: int)
    requires 0 <= j && k <= |h|
  {
    forall n | j <= n < k :: IsTool(h[n])
  }

  /** Message i lies in the tool run right behind an assistant's tool-call turn. */
  ghost predicate InRun(h: seq<Message>, i: int)
    requires 0 <= i < |h|
  {
    exists t | 0 <= t < i :: IsTurn(h[t]) && ToolsOnly(h, t + 1, i + 1)
  }

  ghost predicate AnsweredBy(h: seq<Message>, i: int, id: string, j: int)
    requires 0 <= i < |h|
  {
    i < j < |h| && ToolsOnly(h, i + 1, j + 1) && h[j].answers == id
  }

  /** Every call of turn i has an answer in the tool run right behind it. */
  ghost predicate Answered(h: seq<Message>, i: int)
    requires 0 <= i < |h|
  {
    forall id | id in h[i].calls :: exists j :: AnsweredBy(h, i, id, j)
  }

  predicate UserOrTool(m: Message) { m.role.User? || m.role.Tool? }

  ghost predicate Placed(h: seq<Message>, i: int)
    requires 0 <= i < |h|
  {
    match h[i].role
    case System => false
    case Tool => InRun(h, i)
    case Assistant => h[i].calls != [] ==> i > 0 && (h[i - 1].role == User || h[i - 1].role == Tool)
    case _ => true
  }

  ghost predicate AllPlaced(h: seq<Message>) { forall i | 0 <= i < |h| :: Placed(h, i) }

  ghost predicate AllAnswered(h: seq<Message>) { forall i | 0 <= i < |h| && IsTurn(h[i]) :: Answered(h, i) }

  ghost predicate WellFormed(h: seq<Message>) { AllPlaced(h) && AllAnswered(h) }

  // ---------------------------------------------------------------- the two passes

  /** Behind the trailing tool messages stands an assistant's tool-call turn. */
  predicate AfterTurn(h: seq<Message>)
    decreases |h|
  {
    h != [] && (if IsTool(h[|h| - 1]) then AfterTurn(h[..|h| - 1]) else IsTurn(h[|h| - 1]))
  }

  predicate Accepts(kept: seq<Message>, m: Message) {
    match m.role
    case System => false
    case Tool => AfterTurn(kept)
    case Assistant => m.calls != [] ==> kept != [] && UserOrTool(kept[|kept| - 1])
    case _ => true
  }

  function FirstPass(h: seq<Message>): seq<Message> {
    if h == [] then []
    else
      var kept := FirstPass(h[..|h| - 1]);
      if Accepts(kept, h[|h| - 1]) then kept + [h[|h| - 1]] else kept
  }

  /** The end of the tool run that begins at j. */
  function RunEnd(h: seq<Message>, j: int): (e: int)
    requires 0 <= j <= |h|
    ensures j <= e <= |h| && ToolsOnly(h, j, e) && (e < |h| ==> !IsTool(h[e]))
    decreases |h| - j
  {
    if j < |h| && IsTool(h[j]) then RunEnd(h, j + 1) else j
  }

  predicate Complete(h: seq<Message>, i: int)
    requires 0 <= i < |h|
  {
    forall id | id in h[i].calls :: exists j | i < j < RunEnd(h, i + 1) :: h[j].answers == id
  }

  function SecondPass(h: seq<Message>, i: int): seq<Message>
    requires 0 <= i <= |h|
    decreases |h| - i
  {
    if i == |h| then []
    else if IsTurn(h[i]) && !Complete(h, i) then SecondPass(h, RunEnd(h, i + 1))
    else [h[i]] + SecondPass(h, i + 1)
  }

  function Sanitize(h: seq<Message>): seq<Message> {
    SecondPass(FirstPass(h), 0)
  }

  // ---------------------------------------------------------------- the passes as loops

  method FirstPassLoop(history: seq<Message>) returns (sanitized: seq<Message>)
    ensures sanitized == FirstPass(history)
  {
    sanitized := [];
    for n := 0 to |history|
      invariant sanitized == FirstPass(history[..n])
    {
      assert history[..n + 1][..n] == history[..n];
      var msg := history[n];
      match msg.role {
        case System =>
        case Tool =>
          var foundAssistant := FindsTurn(sanitized);
          if foundAssistant {
            sanitized := sanitized + [msg];
          }
        case Assistant =>
          if |msg.calls| > 0 && (|sanitized| == 0 || !UserOrTool(sanitized[|sanitized| - 1])) {
          } else {
            sanitized := sanitized + [msg];
          }
        case _ =>
          sanitized := sanitized + [msg];
      }
    }
    assert history[..|history|] == history;
  }

  /** Walks backwards over tool messages to the nearest other one. */
  method FindsTurn(sanitized: seq<Message>) returns (foundAssistant: bool)
    ensures foundAssistant == AfterTurn(sanitized)
  {
    var i := |sanitized| - 1;
    assert sanitized[..i + 1] == sanitized;
    while i >= 0
      invariant -1 <= i < |sanitized|
      invariant AfterTurn(sanitized) == AfterTurn(sanitized[..i + 1])
    {
      assert sanitized[..i + 1][..i] == sanitized[..i];
      if !IsTool(sanitized[i]) {
        return IsTurn(sanitized[i]);
      }
      i := i - 1;
    }
    return false;
  }

  method SanitizeHistoryForProvider(history: seq<Message>) returns (final: seq<Message>)
    ensures final == Sanitize(history)
  {
    if |history| == 0 {
      return history;
    }
    var sanitized := FirstPassLoop(history);
    final := [];
    var i := 0;
    while i < |sanitized|
      invariant 0 <= i <= |sanitized|
      invariant final + SecondPass(sanitized, i) == Sanitize(history)
    {
      var msg := sanitized[i];
      var skip := false;
      var toolMsgCount := 0;
      if IsTurn(msg) {
        var allFound: bool;
        allFound, toolMsgCount := CheckResults(sanitized, i);
        skip := !allFound;
      }
      if skip {
        i := i + toolMsgCount;
      } else {
        final := final + [msg];
      }
      i := i + 1;
    }
  }

  /** Looks the turn's calls up in the tool run behind it. */
  method CheckResults(sanitized: seq<Message>, i: nat) returns (allFound: bool, toolMsgCount: nat)
    requires i < |sanitized|
    ensures allFound == Complete(sanitized, i)
    ensures i + 1 + toolMsgCount == RunEnd(sanitized, i + 1)
  {
    toolMsgCount := 0;
    var expected := set id | id in sanitized[i].calls;
    var found: set<string> := {};
    var j := i + 1;
    while j < |sanitized| && IsTool(sanitized[j])
      invariant i + 1 <= j <= |sanitized| && j == i + 1 + toolMsgCount
      invariant RunEnd(sanitized, j) == RunEnd(sanitized, i + 1)
      invariant forall id :: id in found <==> id in expected && exists k | i < k < j :: sanitized[k].answers == id
    {
      toolMsgCount := toolMsgCount + 1;
      if sanitized[j].answers in expected {
        found := found + {sanitized[j].answers};
      }
      j := j + 1;
    }
    allFound := expected <= found;
    assert j == RunEnd(sanitized, i + 1);
    assert forall id :: id in expected <==> id in sanitized[i].calls;
  }

  // ---------------------------------------------------------------- the first pass

  ghost predicate EndsInRun(h: seq<Message>) {
    exists t | 0 <= t < |h| :: IsTurn(h[t]) && ToolsOnly(h, t + 1, |h|)
  }

  lemma {:induction false} AfterTurnEndsInRun(h: seq<Message>)
    ensures AfterTurn(h) <==> EndsInRun(h)
    decreases |h|
  {
    if h == [] {
    } else if IsTool(h[|h| - 1]) {
      AfterTurnEndsInRun(h[..|h| - 1]);
      RunGrows(h[..|h| - 1], h[|h| - 1]);
      assert h[..|h| - 1] + [h[|h| - 1]] == h;
    } else {
      assert ToolsOnly(h, |h|, |h|);
      forall t | 0 <= t < |h| - 1 && IsTurn(h[t]) ensures !ToolsOnly(h, t + 1, |h|) { assert !IsTool(h[|h| - 1]); }
    }
  }

  lemma {:induction false} RunGrows(h: seq<Message>, m: Message)
    requires IsTool(m)
    ensures EndsInRun(h) <==> EndsInRun(h + [m])
    ensures EndsInRun(h) <==> InRun(h + [m], |h|)
  {
    var g := h + [m];
    assert forall n | 0 <= n < |h| :: h[n] == g[n];
    if EndsInRun(h) {
      var t :| 0 <= t < |h| && IsTurn(h[t]) && ToolsOnly(h, t + 1, |h|);
      assert IsTurn(g[t]) && ToolsOnly(g, t + 1, |g|);
    }
    if t :| 0 <= t < |g| && IsTurn(g[t]) && ToolsOnly(g, t + 1, |g|) {
      assert t != |h| && IsTurn(h[t]) && ToolsOnly(h, t + 1, |h|);
    }
  }

  lemma {:induction false} PlacedPrefix(h: seq<Message>, g: seq<Message>, i: int)
    requires 0 <= i < |h| <= |g| && h == g[..|h|]
    ensures Placed(h, i) <==> Placed(g, i)
  {
    if InRun(h, i) {
      var t :| 0 <= t < i && IsTurn(h[t]) && ToolsOnly(h, t + 1, i + 1);
      assert IsTurn(g[t]) && ToolsOnly(g, t + 1, i + 1);
    }
    if InRun(g, i) {
      var t :| 0 <= t < i && IsTurn(g[t]) && ToolsOnly(g, t + 1, i + 1);
      assert IsTurn(h[t]) && ToolsOnly(h, t + 1, i + 1);
    }
  }

  /** The pass admits a message exactly when it may stand there. */
  lemma {:induction false} AcceptsMeansPlaced(kept: seq<Message>, m: Message)
    ensures Accepts(kept, m) <==> Placed(kept + [m], |kept|)
  {
    if IsTool(m) {
      AfterTurnEndsInRun(kept);
      RunGrows(kept, m);
    }
  }

  lemma {:induction false} PlacedAppend(h: seq<Message>, m: Message)
    ensures AllPlaced(h + [m]) <==> AllPlaced(h) && Placed(h + [m], |h|)
  {
    var g := h + [m];
    forall i | 0 <= i < |h| ensures Placed(h, i) <==> Placed(g, i) { PlacedPrefix(h, g, i); }
    if AllPlaced(g) { assert forall i | 0 <= i < |h| :: Placed(g, i); }
  }

  lemma {:induction false} FirstPassPlaces(h: seq<Message>)
    ensures AllPlaced(FirstPass(h))
  {
    if h != [] {
      var kept := FirstPass(h[..|h| - 1]);
      FirstPassPlaces(h[..|h| - 1]);
      AcceptsMeansPlaced(kept, h[|h| - 1]);
      PlacedAppend(kept, h[|h| - 1]);
    }
  }

  lemma {:induction false} FirstPassKeepsPlaced(h: seq<Message>)
    requires AllPlaced(h)
    ensures FirstPass(h) == h
  {
    if h != [] {
      var init := h[..|h| - 1];
      assert init + [h[|h| - 1]] == h;
      PlacedAppend(init, h[|h| - 1]);
      FirstPassKeepsPlaced(init);
      AcceptsMeansPlaced(init, h[|h| - 1]);
    }
  }

  // ---------------------------------------------------------------- the second pass

  lemma {:induction false} CompleteMeansAnswered(h: seq<Message>, i: int)
    requires 0 <= i < |h|
    ensures Complete(h, i) <==> Answered(h, i)
  {
    var e := RunEnd(h, i + 1);
    if Complete(h, i) {
      forall id | id in h[i].calls ensures exists j :: AnsweredBy(h, i, id, j) {
        var j :| i < j < e && h[j].answers == id;
        assert AnsweredBy(h, i, id, j);
      }
    }
    if Answered(h, i) {
      forall id | id in h[i].calls ensures exists j | i < j < e :: h[j].answers == id {
        var j :| AnsweredBy(h, i, id, j);
        if e < |h| { assert !IsTool(h[e]); }
      }
    }
  }

  lemma {:induction false} AnsweredExtends(h: seq<Message>, t: seq<Message>, i: int)
    requires 0 <= i < |h| && Answered(h, i)
    ensures Answered(h + t, i)
  {
    var g := h + t;
    forall id | id in g[i].calls ensures exists j :: AnsweredBy(g, i, id, j) {
      var j :| AnsweredBy(h, i, id, j);
      assert AnsweredBy(g, i, id, j);
    }
  }

  /** s[i..] begins a block, and what has been kept so far ends the way s[..i] does. */
  ghost predicate Boundary(kept: seq<Message>, s: seq<Message>, i: int)
    requires 0 <= i <= |s|
  {
    && WellFormed(kept)
    && (i < |s| ==> !IsTool(s[i]))
    && (i > 0 && UserOrTool(s[i - 1]) ==> kept != [] && UserOrTool(kept[|kept| - 1]))
  }

  lemma {:induction false} Reassociate(a: seq<Message>, b: seq<Message>, c: seq<Message>)
    ensures a + b + c == a + (b + c)
  {}

  lemma {:induction false} SecondPassRun(s: seq<Message>, i: int)
    requires 0 <= i <= |s|
    ensures SecondPass(s, i) == s[i..RunEnd(s, i)] + SecondPass(s, RunEnd(s, i))
    decreases |s| - i
  {
    var e := RunEnd(s, i);
    if i < |s| && IsTool(s[i]) {
      SecondPassRun(s, i + 1);
      assert s[i..e] == [s[i]] + s[i + 1..e];
      Reassociate([s[i]], s[i + 1..e], SecondPass(s, e));
    } else {
      assert s[i..e] == [];
    }
  }

  lemma {:induction false} PlainMessage(kept: seq<Message>, m: Message)
    requires WellFormed(kept) && !IsTurn(m) && Placed(kept + [m], |kept|)
    ensures WellFormed(kept + [m])
  {
    PlacedAppend(kept, m);
    forall i | 0 <= i < |kept| && IsTurn(kept[i]) ensures Answered(kept + [m], i) {
      AnsweredExtends(kept, [m], i);
    }
  }

  /** A turn and its complete tool run keep a history well formed. */
  lemma {:induction false} AnsweredBlock(kept: seq<Message>, block: seq<Message>)
    requires WellFormed(kept) && kept != [] && UserOrTool(kept[|kept| - 1])
    requires block != [] && IsTurn(block[0]) && ToolsOnly(block, 1, |block|) && Answered(block, 0)
    ensures WellFormed(kept + block)
  {
    var g, n := kept + block, |kept|;
    forall i | 0 <= i < |g| ensures Placed(g, i) {
      if i < n {
        PlacedPrefix(kept, g, i);
      } else if i > n {
        assert IsTurn(g[n]) && ToolsOnly(g, n + 1, i + 1);
      }
    }
    forall i | 0 <= i < |g| && IsTurn(g[i]) ensures Answered(g, i) {
      if i < n {
        AnsweredExtends(kept, block, i);
      } else {
        assert i == n by { assert i > n ==> IsTool(g[i]); }
        AnsweredShifts(kept, block);
      }
    }
  }

  lemma {:induction false} AnsweredShifts(kept: seq<Message>, block: seq<Message>)
    requires block != [] && Answered(block, 0)
    ensures Answered(kept + block, |kept|)
  {
    var g, n := kept + block, |kept|;
    forall id | id in g[n].calls ensures exists j :: AnsweredBy(g, n, id, j) {
      var j :| AnsweredBy(block, 0, id, j);
      assert AnsweredBy(g, n, id, n + j);
    }
  }

  lemma {:induction false} AnsweredInBlock(s: seq<Message>, i: int)
    requires 0 <= i < |s| && Complete(s, i)
    ensures Answered(s[i..RunEnd(s, i + 1)], 0)
  {
    var block := s[i..RunEnd(s, i + 1)];
    forall id | id in block[0].calls ensures exists j :: AnsweredBy(block, 0, id, j) {
      var j :| i < j < RunEnd(s, i + 1) && s[j].answers == id;
      assert AnsweredBy(block, 0, id, j - i);
    }
  }

  lemma {:induction false} SecondPassWellFormed(kept: seq<Message>, s: seq<Message>, i: int)
    requires 0 <= i <= |s| && AllPlaced(s) && Boundary(kept, s, i)
    ensures WellFormed(kept + SecondPass(s, i))
    decreases |s| - i
  {
    if i == |s| {
      assert kept + [] == kept;
    } else if IsTurn(s[i]) {
      var e := RunEnd(s, i + 1);
      assert Placed(s, i);
      if Complete(s, i) {
        var block := s[i..e];
        AnsweredInBlock(s, i);
        AnsweredBlock(kept, block);
        SecondPassRun(s, i + 1);
        assert [s[i]] + s[i + 1..e] == block;
        Reassociate([s[i]], s[i + 1..e], SecondPass(s, e));
        Reassociate(kept, block, SecondPass(s, e));
        SecondPassWellFormed(kept + block, s, e);
      } else {
        SecondPassWellFormed(kept, s, e);
      }
    } else {
      var m := s[i];
      assert Placed(s, i) && !IsTool(m);
      PlainMessage(kept, m);
      Reassociate(kept, [m], SecondPass(s, i + 1));
      if i + 1 < |s| && IsTool(s[i + 1]) { NoRunBehind(s, i); }
      SecondPassWellFormed(kept + [m], s, i + 1);
    }
  }

  /** Behind a message that is neither a turn nor a tool message no tool message may stand. */
  lemma {:induction false} NoRunBehind(s: seq<Message>, i: int)
    requires 0 <= i && i + 1 < |s| && !IsTurn(s[i]) && !IsTool(s[i]) && IsTool(s[i + 1])
    ensures !Placed(s, i + 1)
  {
    forall t | 0 <= t < i + 1 && IsTurn(s[t]) ensures !ToolsOnly(s, t + 1, i + 2) {
      assert !IsTool(s[i]);
    }
  }

  lemma {:induction false} SecondPassKeepsAnswered(s: seq<Message>, i: int)
    requires 0 <= i <= |s| && AllAnswered(s)
    ensures SecondPass(s, i) == s[i..]
    decreases |s| - i
  {
    if i < |s| {
      SecondPassKeepsAnswered(s, i + 1);
      if IsTurn(s[i]) { CompleteMeansAnswered(s, i); }
    }
  }

  // ---------------------------------------------------------------- the sanitiser

  /** Its output is always well formed. */
  lemma {:induction false} SanitizedIsWellFormed(h: seq<Message>)
    ensures WellFormed(Sanitize(h))
  {
    var s := FirstPass(h);
    FirstPassPlaces(h);
    assert s != [] && IsTool(s[0]) ==> Placed(s, 0);
    SecondPassWellFormed([], s, 0);
    assert [] + SecondPass(s, 0) == SecondPass(s, 0);
  }

  /** It changes nothing exactly on the well-formed histories; so it is a projection onto them. */
  lemma {:induction false} SanitizeFixesWellFormed(h: seq<Message>)
    ensures Sanitize(h) == h <==> WellFormed(h)
    ensures Sanitize(Sanitize(h)) == Sanitize(h)
  {
    SanitizedIsWellFormed(h);
    WellFormedStays(Sanitize(h));
    if WellFormed(h) { WellFormedStays(h); }
  }

  lemma {:induction false} WellFormedStays(h: seq<Message>)
    requires WellFormed(h)
    ensures Sanitize(h) == h
  {
    FirstPassKeepsPlaced(h);
    SecondPassKeepsAnswered(h, 0);
    assert h[0..] == h;
  }

  // ---------------------------------------------------------------- what is kept

  /** Messages that are never dropped. */
  predicate IsPlain(m: Message) {
    match m.role
    case System => false
    case Tool => false
    case Assistant => m.calls == []
    case _ => true
  }

  /** t consists of the messages of s at these positions, no plain one left out. */
  ghost predicate Picks(s: seq<Message>, t: seq<Message>, at: seq<nat>) {
    && |at| == |t|
    && (forall k | 0 <= k < |at| :: at[k] < |s| && t[k] == s[at[k]])
    && (forall k, n | 0 <= k < n < |at| :: at[k] < at[n])
    && (forall i: nat | i < |s| && IsPlain(s[i]) :: i in at)
  }

  lemma {:induction false} PicksTake(s: seq<Message>, t: seq<Message>, at: seq<nat>, m: Message)
    requires Picks(s, t, at)
    ensures Picks(s + [m], t + [m], at + [|s|])
  {
    assert (at + [|s|])[|at|] == |s|;
    forall i: nat | i < |s| && IsPlain((s + [m])[i]) ensures i in at + [|s|] { assert i in at; }
  }

  lemma {:induction false} PicksDrop(s: seq<Message>, t: seq<Message>, at: seq<nat>, m: Message)
    requires Picks(s, t, at) && !IsPlain(m)
    ensures Picks(s + [m], t, at)
  {}

  lemma {:induction false} FirstPassPicks(h: seq<Message>) returns (at: seq<nat>)
    ensures Picks(h, FirstPass(h), at)
  {
    at := [];
    if h != [] {
      var init, m := h[..|h| - 1], h[|h| - 1];
      at := FirstPassPicks(init);
      assert init + [m] == h;
      if Accepts(FirstPass(init), m) {
        PicksTake(init, FirstPass(init), at, m);
        at := at + [|init|];
      } else {
        PicksDrop(init, FirstPass(init), at, m);
      }
    }
  }

  lemma {:induction false} SecondPassPicks(s: seq<Message>, i: nat) returns (at: seq<nat>)
    requires i <= |s|
    ensures |at| == |SecondPass(s, i)|
    ensures forall k | 0 <= k < |at| :: i <= at[k] < |s| && SecondPass(s, i)[k] == s[at[k]]
    ensures forall k, n | 0 <= k < n < |at| :: at[k] < at[n]
    ensures forall k: nat | i <= k < |s| && IsPlain(s[k]) :: k in at
    decreases |s| - i
  {
    at := [];
    if i == |s| {
    } else if IsTurn(s[i]) && !Complete(s, i) {
      at := SecondPassPicks(s, RunEnd(s, i + 1));
      assert forall k | i < k < RunEnd(s, i + 1) :: IsTool(s[k]);
    } else {
      var rest := SecondPassPicks(s, i + 1);
      at := [i] + rest;
      assert i in at;
    }
  }

  lemma {:induction false} PicksCompose(s: seq<Message>, t: seq<Message>, u: seq<Message>, at: seq<nat>, bt: seq<nat>)
      returns (ct: seq<nat>)
    requires Picks(s, t, at) && Picks(t, u, bt)
    ensures Picks(s, u, ct)
  {
    ct := seq(|bt|, k requires 0 <= k < |bt| => at[bt[k]]);
    forall i: nat | i < |s| && IsPlain(s[i]) ensures i in ct {
      var n :| 0 <= n < |at| && at[n] == i;
      assert IsPlain(t[n]);
      var k :| 0 <= k < |bt| && bt[k] == n;
      assert ct[k] == i;
    }
  }

  /** The output is a subsequence of the history that keeps every plain assistant message and every
      message of any other role than system, tool and assistant. */
  lemma {:induction false} SanitizeKeepsPlain(h: seq<Message>)
    ensures exists at :: Picks(h, Sanitize(h), at)
  {
    var at := FirstPassPicks(h);
    var bt := SecondPassPicks(FirstPass(h), 0);
    var ct := PicksCompose(h, FirstPass(h), Sanitize(h), at, bt);
  }
}