/**
  Where the splitter cuts, told from the text alone: nothing here uses the searches of the splitter. Every turn
  of the loop obeys the rule, and so does all of a text without code blocks.
*/
module SplitRule {
  import opened Splitter
  import opened Text

  // ---------------------------------------------------------------- words

  /** The last of these characters behind start, among the `window` runes before end. */
  ghost predicate LastOf(r: string, cs: set<char>, start: int, end: int, window: int, k: int) {
    && 0 <= k < |r| && start < k < end && end - window <= k && r[k] in cs
    && forall j | k < j < end && j < |r| :: r[j] !in cs
  }

  ghost predicate NoneOf(r: string, cs: set<char>, start: int, end: int, window: int) {
    forall j | 0 <= j < |r| && start < j < end && end - window <= j :: r[j] !in cs
  }

  ghost predicate IsGreater(n: int, a: int, b: int) { n >= a && n >= b && (n == a || n == b) }

  ghost predicate IsLesser(n: int, a: int, b: int) { n <= a && n <= b && (n == a || n == b) }

  /** What a chunk leaves for closing a block: a tenth of the limit, 50 at least, and no more than half of it. */
  ghost predicate IsBuffer(limit: int, n: int) {
    exists tenth :: IsGreater(tenth, limit / 10, 50) && IsLesser(n, tenth, limit / 2)
  }

  ghost predicate IsLength(limit: int, n: int) {
    exists buffer :: IsBuffer(limit, buffer) && IsGreater(n, limit - buffer, limit / 2)
  }

  /** The last newline of the 200 runes before the buffer, else the last blank of 100, else all before it. */
  ghost predicate WordCut(r: string, start: int, limit: int, m: int) {
    exists n :: IsLength(limit, n) && CutWithin(r, start, start + n, m)
  }

  ghost predicate CutWithin(r: string, start: int, end: int, m: int) {
    || LastOf(r, {'\n'}, start, end, 200, m)
    || (NoneOf(r, {'\n'}, start, end, 200) && LastOf(r, {' ', '\t'}, start, end, 100, m))
    || (NoneOf(r, {'\n'}, start, end, 200) && NoneOf(r, {' ', '\t'}, start, end, 100) && m == end)
  }

  lemma {:induction false} SearchFinds(r: string, m: Mark, cs: set<char>, start: int, end: int, window: int)
    requires 0 <= start && end <= |r| && forall c :: c in cs <==> Marks(m, c)
    ensures var k := LastInRange(r, m, start, end, window);
      if k > start then LastOf(r, cs, start, end, window, k) else NoneOf(r, cs, start, end, window)
  {}

  lemma {:induction false} Lengths(limit: int)
    requires limit > 0
    ensures IsLength(limit, Effective(limit))
  {
    var tenth := Max(limit / 10, 50);
    var buffer := Min(tenth, limit / 2);
    assert IsGreater(tenth, limit / 10, 50) && IsLesser(buffer, tenth, limit / 2);
    assert IsBuffer(limit, buffer) && IsGreater(Effective(limit), limit - buffer, limit / 2);
  }

  lemma {:induction false} CutsAtWords(r: string, start: int, limit: int)
    requires limit > 0 && 0 <= start && |r| - start > limit
    ensures WordCut(r, start, limit, FirstCut(r, start, limit))
  {
    hide LastInRange, Effective, IsLength, LastOf, NoneOf;
    var n := Effective(limit);
    Lengths(limit);
    SearchFinds(r, Newline, {'\n'}, start, start + n, 200);
    SearchFinds(r, Blank, {' ', '\t'}, start, start + n, 100);
    assert CutWithin(r, start, start + n, FirstCut(r, start, limit));
  }

  // ---------------------------------------------------------------- code blocks

  ghost predicate Ticks(r: string, i: int) { 0 <= i && i + 3 <= |r| && r[i..i + 3] == "```" }

  lemma {:induction false} TicksAreFences(r: string, i: int)
    ensures Ticks(r, i) <==> Fence(r, i)
  {
    if 0 <= i && i + 3 <= |r| {
      assert r[i..i + 3] == [r[i], r[i + 1], r[i + 2]];
    }
  }

  ghost predicate NoTicks(r: string, from: int, end: int) {
    forall i | from <= i && i + 3 <= end :: !Ticks(r, i)
  }

  /** The fences of r[from..end] as they are read: each the first one behind the one before. */
  ghost predicate FencesOf(r: string, from: int, end: int, ps: seq<int>)
    decreases |ps|
  {
    if ps == [] then NoTicks(r, from, end)
    else
      && from <= ps[0] && ps[0] + 3 <= end && Ticks(r, ps[0]) && NoTicks(r, from, ps[0] + 2)
      && FencesOf(r, ps[0] + 3, end, ps[1..])
  }

  /** Every other fence closes a block: the one at u is left open at the end, or none is. */
  ghost predicate OpenAt(r: string, start: int, end: int, u: int) {
    exists ps :: FencesOf(r, start, end, ps) && |ps| % 2 == 1 && ps[|ps| - 1] == u
  }

  ghost predicate AllShut(r: string, start: int, end: int) {
    exists ps :: FencesOf(r, start, end, ps) && |ps| % 2 == 0
  }

  /** There is one way to read them, so the two exclude each other. */
  lemma {:induction false} ReadOneWay(r: string, from: int, end: int, ps: seq<int>, qs: seq<int>)
    requires FencesOf(r, from, end, ps) && FencesOf(r, from, end, qs)
    ensures ps == qs
    decreases |ps|
  {
    if ps != [] && qs != [] {
      assert ps[0] == qs[0];
      ReadOneWay(r, ps[0] + 3, end, ps[1..], qs[1..]);
    }
  }

  lemma {:induction false} ReadOne(r: string, i: int, end: int, ps: seq<int>)
    requires 0 <= i && i + 3 <= end <= |r| && Fence(r, i) && FencesOf(r, i + 3, end, ps)
    ensures FencesOf(r, i, end, [i] + ps)
  {
    TicksAreFences(r, i);
    assert ([i] + ps)[1..] == ps;
  }

  lemma {:induction false} ReadNone(r: string, i: int, end: int, ps: seq<int>)
    requires 0 <= i < end <= |r| && !(i + 2 < end && Fence(r, i)) && FencesOf(r, i + 1, end, ps)
    ensures FencesOf(r, i, end, ps)
  {
    TicksAreFences(r, i);
  }

  /** The block open at the end of fences read with `open` open before them. */
  function LeftOpen(ps: seq<int>, open: int): int {
    if (|ps| + if open < 0 then 0 else 1) % 2 == 0 then -1 else if ps == [] then open else ps[|ps| - 1]
  }

  lemma {:induction false} ReadFences(r: string, i: int, end: int, open: int) returns (ps: seq<int>)
    requires 0 <= i && end <= |r| && -1 <= open < i
    ensures FencesOf(r, i, end, ps) && Unclosed(r, i, end, open) == LeftOpen(ps, open)
    ensures ps != [] ==> ps[|ps| - 1] >= 0
    decreases end - i
  {
    hide FencesOf;
    if end <= i {
      ps := [];
      NothingToRead(r, i, end);
    } else if i + 2 < end && Fence(r, i) {
      ps := ReadFences(r, i + 3, end, if open < 0 then i else -1);
      ReadOne(r, i, end, ps);
      ps := [i] + ps;
    } else {
      ps := ReadFences(r, i + 1, end, open);
      ReadNone(r, i, end, ps);
    }
  }

  lemma {:induction false} NothingToRead(r: string, i: int, end: int)
    requires end <= i
    ensures FencesOf(r, i, end, [])
  {}

  lemma {:induction false} UnclosedIsOpen(r: string, start: int, m: int)
    requires 0 <= start && m <= |r|
    ensures var u := Unclosed(r, start, m, -1);
      if u < 0 then AllShut(r, start, m) else OpenAt(r, start, m, u)
  {
    hide FencesOf, Unclosed;
    var ps := ReadFences(r, start, m, -1);
  }

  /** The first fence that begins at or behind m ends at c. */
  ghost predicate ShutsAt(r: string, m: int, c: int) { m <= c - 3 && Ticks(r, c - 3) && NoTicks(r, m, c - 1) }

  lemma {:induction false} ClosingShuts(r: string, m: int)
    requires 0 <= m <= |r|
    ensures var c := NextClosing(r, m, |r|); if c > 0 then ShutsAt(r, m, c) else NoTicks(r, m, |r|)
  {
    var c := NextClosing(r, m, |r|);
    if c > 0 { TicksAreFences(r, c - 3); }
    forall i | m <= i && i + 3 <= (if c > 0 then c - 1 else |r|) ensures !Ticks(r, i) { TicksAreFences(r, i); }
  }

  /** The line of the fence at u ends at e; the last line counts as the bare fence. */
  ghost predicate LineEnds(r: string, u: int, e: int) {
    if exists k :: 0 <= u <= k < |r| && r[k] == '\n' then
      u <= e < |r| && r[e] == '\n' && forall k | u <= k < e :: r[k] != '\n'
    else
      e == u + 3
  }

  /** h is that line without the white space at its end. */
  ghost predicate IsLine(r: string, u: int, e: int, h: string) {
    && 0 <= u && u + |h| <= e <= |r| && r[u..u + |h|] == h
    && h != [] && !IsSpace(h[|h| - 1]) && forall k | u + |h| <= k < e :: IsSpace(r[k])
  }

  lemma {:induction false} HeaderIsLine(r: string, u: int)
    requires Fence(r, u)
    ensures LineEnds(r, u, HeaderEnd(r, u)) && IsLine(r, u, HeaderEnd(r, u), Header(r, u))
  {
    var e := HeaderEnd(r, u);
    var line := r[u..e];
    TrimFence(line);
    TrimEnds(line);
    var k := LastKept(line, Unicode, 0, |line|);
    assert FirstKept(line, 0) == 0;
    forall j | u + |Header(r, u)| <= j < e ensures IsSpace(r[j]) { assert line[j - u] == r[j]; }
  }

  /** A block that is open at m and cannot be closed within the limit. If more than 20 runes of it are in the
      chunk, it is cut open: at the last newline behind its first line, or where "\n```" still fits. Else the
      chunk ends before it, at a newline or a blank; failing those, right before it if that leaves more than 20
      runes, and otherwise it is cut open after all. */
  ghost predicate TornRule(r: string, start: int, limit: int, m: int, u: int, t: Turn) {
    exists e :: LineEnds(r, u, e) && TornAt(r, start, limit, m, u, e, t)
  }

  ghost predicate TornAt(r: string, start: int, limit: int, m: int, u: int, e: int, t: Turn) {
    var last := start + limit - 5;
    if m > e + 20 then
      && t.Reopen? && IsLine(r, u, e, t.header)
      && (LastOf(r, {'\n'}, e, last, 200, t.end) || (NoneOf(r, {'\n'}, e, last, 200) && t.end == last))
    else
      || (t.Plain? && LastOf(r, {'\n'}, start, u, 200, t.end))
      || (t.Plain? && NoneOf(r, {'\n'}, start, u, 200) && LastOf(r, {' ', '\t'}, start, u, 100, t.end))
      || (&& NoneOf(r, {'\n'}, start, u, 200) && NoneOf(r, {' ', '\t'}, start, u, 100)
          && if u - start > 20 then t == Plain(u) else t.Reopen? && t.end == last && IsLine(r, u, e, t.header))
  }

  /** All of a turn with more than the limit left. */
  ghost predicate Rule(r: string, start: int, limit: int, t: Turn) {
    exists m :: WordCut(r, start, limit, m) && RuleAt(r, start, limit, m, t)
  }

  ghost predicate RuleAt(r: string, start: int, limit: int, m: int, t: Turn) {
    || (AllShut(r, start, m) && t == Plain(m))
    || exists u :: OpenAt(r, start, m, u) && BlockRule(r, start, limit, m, u, t)
  }

  /** A block that is open at m is taken whole if it closes within the limit. */
  ghost predicate BlockRule(r: string, start: int, limit: int, m: int, u: int, t: Turn) {
    if NoTicks(r, m, start + limit) then TornRule(r, start, limit, m, u, t)
    else t.Plain? && ShutsAt(r, m, t.end) && t.end <= start + limit
  }

  lemma {:induction false} TearsByRule(r: string, start: int, limit: int, m: int, u: int)
    requires limit >= 5 && |r| - start > limit && 0 <= start <= u && Fence(r, u) && m <= |r|
    ensures TornRule(r, start, limit, m, u, TornCut(r, start, limit, m, u))
  {
    hide LastInRange, LastOf, NoneOf, Header, HeaderEnd, IsLine, LineEnds;
    HeaderIsLine(r, u);
    var e, last := HeaderEnd(r, u), start + limit - 5;
    SearchFinds(r, Newline, {'\n'}, start, u, 200);
    SearchFinds(r, Blank, {' ', '\t'}, start, u, 100);
    SearchBehind(r, start, last, e);
    assert TornAt(r, start, limit, m, u, e, TornCut(r, start, limit, m, u));
  }

  lemma {:induction false} SearchBehind(r: string, start: int, end: int, e: int)
    requires 0 <= start <= e && end <= |r|
    ensures var k := LastInRange(r, Newline, start, end, 200);
      if k > e then LastOf(r, {'\n'}, e, end, 200, k) else NoneOf(r, {'\n'}, e, end, 200)
  {}

  /** The turn that the program decides on is the one of the rule. */
  lemma {:induction false} TurnByRule(r: string, start: int, limit: int)
    requires limit > 0 && 0 <= start && |r| - start > limit
    ensures Rule(r, start, limit, Decide(r, start, limit))
  {
    hide FirstCut, TornCut, Unclosed, NextClosing, WordCut, OpenAt, AllShut, TornRule, ShutsAt, NoTicks;
    var m, t := FirstCut(r, start, limit), Decide(r, start, limit);
    CutsAtWords(r, start, limit);
    UnclosedIsOpen(r, start, m);
    var u := Unclosed(r, start, m, -1);
    if u >= 0 {
      var c := NextClosing(r, m, |r|);
      ClosingShuts(r, m);
      ClosesWithin(r, m, c, start + limit);
      if !(c > 0 && c - start <= limit) { TearsByRule(r, start, limit, m, u); }
      assert BlockRule(r, start, limit, m, u, t);
    }
    assert RuleAt(r, start, limit, m, t);
  }

  lemma {:induction false} ClosesWithin(r: string, m: int, c: int, end: int)
    requires 0 <= m <= |r| && end <= |r| && if c > 0 then ShutsAt(r, m, c) else NoTicks(r, m, |r|)
    ensures NoTicks(r, m, end) <==> !(c > 0 && c <= end)
  {
    if c > 0 && c <= end { assert Ticks(r, c - 3); }
  }

  // ---------------------------------------------------------------- what a turn writes

  /** c is r[i..e] without the blanks at its end. */
  ghost predicate Stripped(r: string, i: int, e: int, c: string) {
    && 0 <= i && i + |c| <= e <= |r| && r[i..i + |c|] == c
    && (forall k | i + |c| <= k < e :: r[k] in {' ', '\t', '\n', '\r'})
    && (c != [] ==> c[|c| - 1] !in {' ', '\t', '\n', '\r'})
  }

  /** k is the first position from e on that holds no blank. */
  ghost predicate Behind(r: string, e: int, k: int) {
    && 0 <= e <= k <= |r| && (forall j | e <= j < k :: r[j] in {' ', '\t', '\n', '\r'})
    && (k < |r| ==> r[k] !in {' ', '\t', '\n', '\r'})
  }

  /** The rest is kept with the header line h in front, and without white space at its end. */
  ghost predicate Resumed(r: string, e: nat, h: string, t: string)
    requires e <= |r|
  {
    exists n :: |h| <= n <= |h + "\n" + r[e..]| && t == (h + "\n" + r[e..])[..n]
      && (n > |h| ==> !IsSpace(t[n - 1]))
      && forall k | n <= k < |h + "\n" + r[e..]| :: IsSpace((h + "\n" + r[e..])[k])
  }

  ghost predicate Writes(s: State, turn: Turn, t: State)
    requires Applies(s, turn)
  {
    match turn
    case Last => t.runes == s.runes && Finished(t) && t.chunks == s.chunks + [s.runes[s.start..]]
    case Plain(e) =>
      t.runes == s.runes && t.chunks == s.chunks + [s.runes[s.start..e]] && Behind(s.runes, e, t.start)
    case Reopen(e, h) =>
      && t.start == 0 && Resumed(s.runes, e, h, t.runes)
      && s.start <= e && exists c :: Stripped(s.runes, s.start, e, c) && t.chunks == s.chunks + [c + "\n```"]
  }

  lemma {:induction false} StripsBlanks(r: string, i: int, e: int)
    requires 0 <= i <= e <= |r|
    ensures Stripped(r, i, e, TrimRight(r[i..e], Ascii))
  {
    var c := TrimRight(r[i..e], Ascii);
    forall k | i + |c| <= k < e ensures r[k] in {' ', '\t', '\n', '\r'} {
      assert r[i..e][k - i] == r[k];
      BlanksAtEnd(r[i..e], 0, e - i, k - i);
    }
  }

  lemma {:induction false} BlanksAtEnd(s: string, lo: int, end: int, k: int)
    requires 0 <= lo <= end <= |s| && LastKept(s, Ascii, lo, end) <= k < end
    ensures IsBlank(s[k])
    decreases end
  {
    if k < end - 1 { BlanksAtEnd(s, lo, end - 1, k); }
  }

  lemma {:induction false} ResumesRest(r: string, e: int, h: string)
    requires 0 <= e <= |r| && Fence(h, 0) && !IsSpace(h[|h| - 1])
    ensures Resumed(r, e, h, Reopened(r, e, h))
  {
    var w := h + "\n" + r[e..];
    ReopenedForm(r, h, e);
    ReopenedTrims(h, r[e..]);
    var n := LastKept(w, Unicode, 0, |w|);
    assert Reopened(r, e, h) == w[..n];
    assert w[|h| - 1] == h[|h| - 1];
  }

  lemma {:induction false} AppliedAsWritten(s: State, turn: Turn)
    requires Applies(s, turn) && (turn.Reopen? ==> Fence(turn.header, 0) && !IsSpace(turn.header[|turn.header| - 1]))
    ensures Writes(s, turn, Apply(s, turn))
  {
    hide Resumed, Stripped, Reopened;
    match turn
    case Reopen(e, h) =>
      StripsBlanks(s.runes, s.start, e);
      ResumesRest(s.runes, e, h);
    case _ =>
  }

  /** Every turn of every run cuts where the rule says, and writes what it says. */
  lemma {:induction false} RunsByRule(content: string, limit: int, n: nat) returns (turn: Turn)
    requires limit > 0 && !Finished(Run(Init(content), limit, n))
    ensures var s := Run(Init(content), limit, n);
      && Applies(s, turn)
      && (if |s.runes| - s.start <= limit then turn == Last else Rule(s.runes, s.start, limit, turn))
      && Writes(s, turn, Run(Init(content), limit, n + 1))
  {
    hide Run, Decide, Rule, Writes;
    var s := Run(Init(content), limit, n);
    turn := StepByRule(s, limit);
    assert Run(Init(content), limit, n + 1) == Step(s, limit) by { NextState(Init(content), limit, n); }
  }

  lemma {:induction false} NextState(s: State, limit: int, n: nat)
    requires limit > 0
    ensures Run(s, limit, n + 1) == Step(Run(s, limit, n), limit)
  {}

  lemma {:induction false} StepByRule(s: State, limit: int) returns (turn: Turn)
    requires limit > 0 && !Finished(s)
    ensures && Applies(s, turn) && Writes(s, turn, Step(s, limit))
            && if |s.runes| - s.start <= limit then turn == Last else Rule(s.runes, s.start, limit, turn)
  {
    hide Decide, Rule, Writes;
    turn := Decide(s.runes, s.start, limit);
    if turn.Reopen? { DecidedHeaderVisible(s.runes, s.start, limit); }
    if |s.runes| - s.start > limit { TurnByRule(s.runes, s.start, limit); }
    AppliedAsWritten(s, turn);
  }

  // ---------------------------------------------------------------- texts without code blocks

  /** Where no fence stands within the limit, the next chunk ends at a newline, at a blank, or where the runes
      run out; and the one after it begins behind the blanks. */
  lemma {:induction false} ChunkEndsAtWord(s: State, limit: int) returns (e: int)
    requires limit > 0 && |s.runes| - s.start > limit && NoTicks(s.runes, s.start, s.start + limit)
    ensures WordCut(s.runes, s.start, limit, e) && s.start < e <= s.start + limit
    ensures var t := Step(s, limit);
      && t.runes == s.runes && t.chunks == s.chunks + [s.runes[s.start..e]] && Behind(s.runes, e, t.start)
      && t.inserted == s.inserted
  {
    hide WordCut;
    e := FirstCut(s.runes, s.start, limit);
    CutsAtWords(s.runes, s.start, limit);
    forall j | s.start <= j && j + 3 <= e ensures !Fence(s.runes, j) { TicksAreFences(s.runes, j); }
    UnclosedStays(s.runes, s.start, e, -1);
  }

  /** The chunks are those of r up to start, each cut off by that rule. */
  ghost predicate SplitUpTo(r: string, limit: int, chunks: seq<string>, start: int)
    decreases |chunks|
  {
    if chunks == [] then start == 0
    else
      var init, last := chunks[..|chunks| - 1], chunks[|chunks| - 1];
      exists from :: SplitUpTo(r, limit, init, from) && NextPiece(r, limit, from, last, start)
  }

  ghost predicate NextPiece(r: string, limit: int, from: int, c: string, start: int) {
    && 0 <= from < |r|
    && if |r| - from <= limit then c == r[from..] && start == |r|
       else exists e :: from < e <= |r| && WordCut(r, from, limit, e) && c == r[from..e] && Behind(r, e, start)
  }

  lemma {:induction false} PieceAdded(r: string, limit: int, chunks: seq<string>, from: int, c: string, start: int)
    requires SplitUpTo(r, limit, chunks, from) && NextPiece(r, limit, from, c, start)
    ensures SplitUpTo(r, limit, chunks + [c], start)
  {
    assert (chunks + [c])[..|chunks|] == chunks;
  }

  lemma {:induction false} PlainStep(s: State, limit: int)
    requires limit > 0 && NoTicks(s.runes, 0, |s.runes|) && !Finished(s)
    requires SplitUpTo(s.runes, limit, s.chunks, s.start)
    ensures var t := Step(s, limit);
      t.runes == s.runes && t.inserted == s.inserted && SplitUpTo(t.runes, limit, t.chunks, t.start)
  {
    hide SplitUpTo, NextPiece, Step;
    PieceOfStep(s, limit);
    var t := Step(s, limit);
    var c := t.chunks[|s.chunks|];
    assert t.chunks == s.chunks + [c];
    PieceAdded(s.runes, limit, s.chunks, s.start, c, t.start);
  }

  lemma {:induction false} PieceOfStep(s: State, limit: int)
    requires limit > 0 && NoTicks(s.runes, 0, |s.runes|) && !Finished(s)
    ensures var t := Step(s, limit);
      && t.runes == s.runes && t.inserted == s.inserted && |t.chunks| == |s.chunks| + 1 && t.chunks[..|s.chunks|] == s.chunks
      && NextPiece(s.runes, limit, s.start, t.chunks[|s.chunks|], t.start)
  {
    hide WordCut, Behind;
    if |s.runes| - s.start > limit { var e := ChunkEndsAtWord(s, limit); }
  }

  /** A text without fences is split, and all of its chunks are cut off by that rule. */
  lemma {:induction false} PlainTextSplits(content: string, limit: int, n: nat)
    requires limit > 0 && NoTicks(content, 0, |content|)
    ensures Ends(Init(content), limit)
    ensures var s := Run(Init(content), limit, n);
      s.runes == content && s.inserted == [] && SplitUpTo(content, limit, s.chunks, s.start)
  {
    forall i ensures !Fence(content, i) { TicksAreFences(content, i); }
    Terminates(Init(content), limit);
    PlainRun(content, limit, n);
  }

  lemma {:induction false} PlainRun(content: string, limit: int, n: nat)
    requires limit > 0 && NoTicks(content, 0, |content|)
    ensures var s := Run(Init(content), limit, n);
      s.runes == content && s.inserted == [] && SplitUpTo(content, limit, s.chunks, s.start)
  {
    hide NoTicks, Step, NextPiece;
    if n > 0 {
      hide SplitUpTo;
      PlainRun(content, limit, n - 1);
      var s := Run(Init(content), limit, n - 1);
      if Finished(s) { FinishedStays(s, limit); } else { PlainStep(s, limit); }
    }
  }

  lemma {:induction false} FinishedStays(s: State, limit: int)
    requires limit > 0 && Finished(s)
    ensures Step(s, limit) == s
  {}
}
