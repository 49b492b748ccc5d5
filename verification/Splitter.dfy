/**
  The message splitter: long texts are cut into chunks of at most `limit` runes,
  and a code block that a cut would tear apart is closed in the one chunk and
  reopened, header line included, in the next.

  One turn of the splitter's loop is the function `Step`; `Run` iterates it. The
  loop may rewrite its own input, so it need not end: safety is therefore proved
  of every number of turns, and termination separately.
*/
module Splitter {

  import opened Text

  // ---------------------------------------------------------------- runes

  const FENCE := "```"
  const CLOSING := "\n```"

  function Max(a: int, b: int): int { if a < b then b else a }

  function Min(a: int, b: int): int { if a < b then a else b }

  // ---------------------------------------------------------------- the five searches

  datatype Mark = Newline | Blank

  predicate Marks(m: Mark, c: char) {
    match m
    case Newline => c == '\n'
    case Blank => c == ' ' || c == '\t'
  }

  predicate Fence(r: string, i: int) {
    0 <= i && i + 2 < |r| && r[i] == '`' && r[i + 1] == '`' && r[i + 2] == '`'
  }

  /** Greatest marked index in r[lo..end], or -1. */
  function LastMark(r: string, m: Mark, lo: int, end: int): (k: int)
    requires 0 <= lo && end <= |r|
    ensures k == -1 || (lo <= k < end && Marks(m, r[k]))
    ensures forall j | lo <= j < end && k < j :: !Marks(m, r[j])
    decreases end - lo
  {
    if end <= lo then -1
    else if Marks(m, r[end - 1]) then end - 1
    else LastMark(r, m, lo, end - 1)
  }

  /** The search is confined to the last `window` runes; start - 1 means not found. */
  function LastInRange(r: string, m: Mark, start: int, end: int, window: int): (k: int)
    requires 0 <= start && end <= |r|
  {
    var found := LastMark(r, m, Max(end - window, start), end);
    if found < 0 then start - 1 else found
  }

  /** Index of the block still open at `end` when `open` is the one open at `i`; -1 if none. */
  function Unclosed(r: string, i: int, end: int, open: int): (k: int)
    requires 0 <= i && end <= |r| && -1 <= open < i
    ensures k == open || k == -1 || (i <= k && k + 3 <= end && Fence(r, k))
    decreases end - i
  {
    if end <= i then open
    else if i + 2 < end && Fence(r, i) then Unclosed(r, i + 3, end, if open < 0 then i else -1)
    else Unclosed(r, i + 1, end, open)
  }

  /** Index just after the first fence of r[i..end], or -1. */
  function NextClosing(r: string, i: int, end: int): (k: int)
    requires 0 <= i && end <= |r|
    ensures k == -1 || (i + 3 <= k <= end && Fence(r, k - 3))
    ensures forall j | i <= j && j + 3 <= end && (k == -1 || j + 3 < k) :: !Fence(r, j)
    decreases end - i
  {
    if end <= i then -1
    else if i + 2 < end && Fence(r, i) then i + 3
    else NextClosing(r, i + 1, end)
  }

  function NewlineFrom(r: string, i: int): (k: int)
    requires 0 <= i
    ensures k == -1 || (i <= k < |r| && r[k] == '\n')
    ensures forall j | i <= j < |r| && (k == -1 || j < k) :: r[j] != '\n'
    decreases |r| - i
  {
    if |r| <= i then -1 else if r[i] == '\n' then i else NewlineFrom(r, i + 1)
  }

  // ---------------------------------------------------------------- one turn

  /** Runes a chunk may take before room is needed for closing a block. */
  function Effective(limit: int): (n: int)
    requires limit > 0
    ensures 1 <= n <= limit && (limit >= 10 ==> 5 <= n <= limit - 5) && (n >= 3 ==> limit >= 5)
  {
    var buffer := if Max(limit / 10, 50) > limit / 2 then limit / 2 else Max(limit / 10, 50);
    Max(limit - buffer, limit / 2)
  }

  /** The line that opened the block at u, without surrounding white space. */
  function Header(r: string, u: int): (h: string)
    requires Fence(r, u)
    ensures 3 <= |h| <= HeaderEnd(r, u) - u && h == r[u..u + |h|]
    ensures Fence(h, 0) && forall j | 0 <= j < |h| :: h[j] != '\n'
  {
    var line := r[u..HeaderEnd(r, u)];
    TrimFence(line);
    var h := TrimSpace(line);
    HeaderSlice(r, u, HeaderEnd(r, u), h);
    h
  }

  lemma {:induction false} HeaderSlice(r: string, u: int, e: int, h: string)
    requires 0 <= u <= e <= |r| && |h| <= e - u && h == r[u..e][..|h|] && forall j | u <= j < e :: r[j] != '\n'
    ensures h == r[u..u + |h|] && forall j | 0 <= j < |h| :: h[j] != '\n'
  {
    forall j | 0 <= j < |h| ensures h[j] != '\n' { assert h[j] == r[u + j]; }
  }

  /** A line that begins with a fence loses white space at its end only. */
  lemma {:induction false} TrimFence(line: string)
    requires Fence(line, 0)
    ensures var h := TrimSpace(line); 3 <= |h| <= |line| && h == line[..|h|] && Fence(h, 0)
  {
    assert !IsSpace(line[0]) && !IsSpace(line[2]);
    assert FirstKept(line, 0) == 0;
    var k := LastKept(line, Unicode, 0, |line|);
    assert k >= 3;
    assert line[0..k] == line[..k];
  }

  /** The end of that line; of the bare fence, on a last line without newline. */
  function HeaderEnd(r: string, u: int): (e: int)
    requires Fence(r, u)
    ensures u + 3 <= e <= |r|
    ensures forall j | u <= j < e :: r[j] != '\n'
    ensures e < |r| && e > u + 3 ==> r[e] == '\n'
  {
    var n := NewlineFrom(r, u);
    assert r[u] != '\n' && r[u + 1] != '\n' && r[u + 2] != '\n';
    if n == -1 then u + 3 else n
  }

  datatype Turn = Last | Plain(end: int) | Reopen(end: int, header: string)

  /** A newline, else a blank, else the effective limit. */
  function FirstCut(r: string, start: int, limit: int): (m: int)
    requires limit > 0 && 0 <= start && |r| - start > limit
    ensures start < m <= start + Effective(limit)
  {
    var end := start + Effective(limit);
    var newline := LastInRange(r, Newline, start, end, 200);
    if newline > start then newline
    else
      var blank := LastInRange(r, Blank, start, end, 100);
      if blank > start then blank else end
  }

  /** Where a block that cannot be closed in time is cut open. */
  function TornCut(r: string, start: int, limit: int, m: int, u: int): (t: Turn)
    requires limit >= 5 && |r| - start > limit && 0 <= start <= u && Fence(r, u) && m <= |r|
    ensures t.Reopen? ==> t.header == Header(r, u)
    ensures m > HeaderEnd(r, u) + 20 ==> t.Reopen?
    ensures m <= HeaderEnd(r, u) + 20 && t.Reopen? ==> t.end == start + limit - 5
    ensures u < m && t.Plain? ==> start < t.end <= m && t.end <= u
    ensures t.Reopen? ==> start <= t.end
    ensures t.Reopen? && t.end != start + limit - 5 ==>
              t.end == LastInRange(r, Newline, start, start + limit - 5, 200) && t.end > HeaderEnd(r, u)
  {
    var inner := Min(start + limit - 5, |r|);
    if m > HeaderEnd(r, u) + 20 then
      var better := LastInRange(r, Newline, start, inner, 200);
      Reopen(if better > HeaderEnd(r, u) then better else inner, Header(r, u))
    else
      var newline := LastInRange(r, Newline, start, u, 200);
      var before := if newline <= start then LastInRange(r, Blank, start, u, 100) else newline;
      if before > start then Plain(before)
      else if u - start > 20 then Plain(u)
      else Reopen(inner, Header(r, u))
  }

  function Decide(r: string, start: int, limit: int): (t: Turn)
    requires limit > 0 && 0 <= start < |r|
    ensures t.Plain? ==> start < t.end <= start + limit && t.end <= |r|
    ensures t.Reopen? ==> start <= t.end <= start + limit - 5 && t.end < |r|
    ensures t.Last? <==> |r| - start <= limit
  {
    if |r| - start <= limit then Last
    else
      var m := FirstCut(r, start, limit);
      var u := Unclosed(r, start, m, -1);
      if u < 0 then Plain(m)
      else
        var closing := NextClosing(r, m, |r|);
        if closing > 0 && closing - start <= limit then Plain(closing)
        else TornCut(r, start, limit, m, u)
  }

  /** A reopening writes FENCE + header into the text after `pos` visible runes. */
  datatype Insertion = Insertion(pos: nat, header: string)

  /** The locals of the loop, and a log of what the reopenings inserted. */
  datatype State = State(runes: string, start: nat, chunks: seq<string>, inserted: seq<Insertion>)

  function Init(content: string): State { State(content, 0, [], []) }

  predicate Finished(s: State) { s.start >= |s.runes| }

  function SkipBlanks(r: string, i: int): (k: int)
    requires 0 <= i <= |r|
    ensures i <= k <= |r|
    ensures forall j | i <= j < k :: IsBlank(r[j])
    ensures k < |r| ==> !IsBlank(r[k])
    decreases |r| - i
  {
    if i < |r| && IsBlank(r[i]) then SkipBlanks(r, i + 1) else i
  }

  function ClosedChunk(r: string, start: int, end: int): string
    requires 0 <= start <= end <= |r|
  {
    TrimRight(r[start..end], Ascii) + CLOSING
  }

  function Reopened(r: string, end: int, header: string): string
    requires 0 <= end <= |r|
  {
    TrimSpace(header + "\n" + r[end..])
  }

  predicate Applies(s: State, t: Turn) {
    && !Finished(s)
    && (t.Plain? ==> s.start < t.end <= |s.runes|)
    && (t.Reopen? ==> s.start <= t.end < |s.runes|)
  }

  function Apply(s: State, t: Turn): State
    requires Applies(s, t)
  {
    match t
    case Last =>
      State(s.runes, |s.runes|, s.chunks + [s.runes[s.start..]], s.inserted)
    case Plain(end) =>
      State(s.runes, SkipBlanks(s.runes, end), s.chunks + [s.runes[s.start..end]], s.inserted)
    case Reopen(end, header) =>
      State(Reopened(s.runes, end, header), 0, s.chunks + [ClosedChunk(s.runes, s.start, end)],
            s.inserted + [Insertion(SplicePoint(s, end), Visible(header))])
  }

  /** Visible runes in front of position `end` of the text, those already emitted included. */
  function SplicePoint(s: State, end: int): nat
    requires s.start <= end <= |s.runes|
  {
    |Visible(Join(s.chunks))| + |Visible(s.runes[s.start..end])|
  }

  function Step(s: State, limit: int): State
    requires limit > 0
  {
    if Finished(s) then s else Apply(s, Decide(s.runes, s.start, limit))
  }

  ghost function Run(s: State, limit: int, n: nat): State
    requires limit > 0
  {
    if n == 0 then s else Step(Run(s, limit, n - 1), limit)
  }

  // ---------------------------------------------------------------- conservation

  function Visible(s: string): (v: string)
    ensures |v| <= |s|
  {
    if s == [] then [] else (if IsSpace(s[0]) then [] else [s[0]]) + Visible(s[1..])
  }

  function Join(chunks: seq<string>): string {
    if chunks == [] then "" else Join(chunks[..|chunks| - 1]) + chunks[|chunks| - 1]
  }

  lemma {:induction false} VisibleConcat(a: string, b: string)
    ensures Visible(a + b) == Visible(a) + Visible(b)
  {
    if a == [] {
      assert a + b == b;
    } else {
      VisibleConcat(a[1..], b);
      assert (a + b)[0] == a[0] && (a + b)[1..] == a[1..] + b;
      var c := if IsSpace(a[0]) then [] else [a[0]];
      assert Visible(a + b) == c + (Visible(a[1..]) + Visible(b));
      Assoc(c, Visible(a[1..]), Visible(b));
    }
  }

  lemma {:induction false} VisibleSpace(s: string)
    requires forall k | 0 <= k < |s| :: IsSpace(s[k])
    ensures Visible(s) == []
  {
    if s != [] { VisibleSpace(s[1..]); }
  }

  lemma {:induction false} VisibleSplit(r: string, i: int, j: int)
    requires 0 <= i <= j <= |r|
    ensures Visible(r[i..]) == Visible(r[i..j]) + Visible(r[j..])
    ensures (forall k | i <= k < j :: IsSpace(r[k])) ==> Visible(r[i..]) == Visible(r[j..])
  {
    assert r[i..] == r[i..j] + r[j..];
    VisibleConcat(r[i..j], r[j..]);
    if forall k | i <= k < j :: IsSpace(r[k]) { VisibleSpace(r[i..j]); }
  }

  lemma {:induction false} VisibleTrimRight(s: string, cutset: Cutset)
    ensures Visible(TrimRight(s, cutset)) == Visible(s)
  {
    var k := LastKept(s, cutset, 0, |s|);
    VisibleSplit(s, 0, k);
    VisibleSpace(s[k..]);
    assert s[0..] == s;
  }

  lemma {:induction false} VisibleTrimSpace(s: string)
    ensures Visible(TrimSpace(s)) == Visible(s)
  {
    var lo := FirstKept(s, 0);
    var hi := LastKept(s, Unicode, lo, |s|);
    VisibleSplit(s, 0, lo);
    VisibleSplit(s, lo, hi);
    VisibleSpace(s[hi..]);
    assert s[0..] == s;
  }

  lemma {:induction false} JoinAppend(chunks: seq<string>, c: string)
    ensures Join(chunks + [c]) == Join(chunks) + c
  {
    assert (chunks + [c])[..|chunks|] == chunks;
  }

  /** The text with every insertion made, in order. */
  ghost function Insert(doc: string, ins: seq<Insertion>): string {
    if ins == [] then doc
    else
      var d := Insert(doc, ins[..|ins| - 1]);
      var i := ins[|ins| - 1];
      if i.pos > |d| then d else d[..i.pos] + FENCE + i.header + d[i.pos..]
  }

  /** Takes the insertions out again, the latest first. */
  ghost function Remove(doc: string, ins: seq<Insertion>): string {
    if ins == [] then doc
    else
      var i := ins[|ins| - 1];
      var cut := i.pos + |FENCE| + |i.header|;
      Remove(if cut > |doc| then doc else doc[..i.pos] + doc[cut..], ins[..|ins| - 1])
  }

  ghost predicate InBounds(doc: string, ins: seq<Insertion>) {
    ins == [] || (InBounds(doc, ins[..|ins| - 1]) && ins[|ins| - 1].pos <= |Insert(doc, ins[..|ins| - 1])|)
  }

  lemma {:induction false} RemoveUndoesInsert(doc: string, ins: seq<Insertion>)
    requires InBounds(doc, ins)
    ensures Remove(Insert(doc, ins), ins) == doc
  {
    if ins != [] {
      var d := Insert(doc, ins[..|ins| - 1]);
      var i := ins[|ins| - 1];
      var e := Insert(doc, ins);
      assert e[..i.pos] + e[i.pos + |FENCE| + |i.header|..] == d;
      RemoveUndoesInsert(doc, ins[..|ins| - 1]);
    }
  }

  ghost function Rest(s: State): string { if Finished(s) then "" else s.runes[s.start..] }

  /** Everything visible, emitted or not. */
  ghost function Woven(s: State): string {
    Visible(Join(s.chunks)) + Visible(Rest(s))
  }

  lemma {:induction false} PlainKeepsWoven(s: State, end: int)
    requires s.start < end <= |s.runes|
    ensures Woven(s) == Woven(State(s.runes, SkipBlanks(s.runes, end), s.chunks + [s.runes[s.start..end]], s.inserted))
  {
    hide Visible, Join, SkipBlanks;
    EmitVisible(s.chunks, s.runes[s.start..end]);
    VisibleSplit(s.runes, s.start, end);
    VisibleSplit(s.runes, end, SkipBlanks(s.runes, end));
    Assoc(Visible(Join(s.chunks)), Visible(s.runes[s.start..end]), Visible(s.runes[end..]));
  }

  lemma {:induction false} Assoc(a: string, b: string, c: string)
    ensures a + b + c == a + (b + c)
  {}

  lemma {:induction false} VisibleClosedChunk(r: string, start: int, end: int)
    requires 0 <= start <= end <= |r|
    ensures Visible(ClosedChunk(r, start, end)) == Visible(r[start..end]) + FENCE
  {
    VisibleConcat(TrimRight(r[start..end], Ascii), CLOSING);
    VisibleTrimRight(r[start..end], Ascii);
    assert CLOSING[1..] == FENCE && FENCE[1..] == "``" && FENCE[1..][1..] == "`" && FENCE[1..][1..][1..] == "";
  }

  lemma {:induction false} VisibleReopened(r: string, end: int, header: string)
    requires 0 <= end <= |r|
    ensures Visible(Reopened(r, end, header)) == Visible(header) + Visible(r[end..])
  {
    VisibleTrimSpace(header + "\n" + r[end..]);
    VisibleConcat(header + "\n", r[end..]);
    VisibleConcat(header, "\n");
    VisibleSpace("\n");
  }

  lemma {:induction false} EmitVisible(chunks: seq<string>, c: string)
    ensures Visible(Join(chunks + [c])) == Visible(Join(chunks)) + Visible(c)
  {
    JoinAppend(chunks, c);
    VisibleConcat(Join(chunks), c);
  }

  lemma {:induction false} ReopenWeaves(s: State, end: int, c: string, t: State, f: string, h: string)
    requires s.start <= end < |s.runes| && t.start == 0 && t.chunks == s.chunks + [c]
    requires Visible(c) == Visible(s.runes[s.start..end]) + f
    requires Visible(t.runes) == h + Visible(s.runes[end..])
    ensures var e, p, q := Visible(Join(s.chunks)), Visible(s.runes[s.start..end]), Visible(s.runes[end..]);
            Woven(s) == e + (p + q) && Woven(t) == (e + (p + f)) + (h + q)
  {
    VisibleSplit(s.runes, s.start, end);
    EmitVisible(s.chunks, c);
    assert Rest(t) == t.runes;
  }

  lemma {:induction false} Splice(e: string, p: string, q: string, f: string, h: string)
    ensures var w := e + (p + q);
            (e + (p + f)) + (h + q) == w[..|e| + |p|] + f + h + w[|e| + |p|..]
  {
    var w := e + (p + q);
    assert w[..|e| + |p|] == e + p && w[|e| + |p|..] == q;
  }

  ghost predicate Faithful(content: string, s: State) {
    && InBounds(Visible(content), s.inserted)
    && Woven(s) == Insert(Visible(content), s.inserted)
  }

  /** Nothing visible is lost, doubled or moved by any number of turns: chunks and rest are the
      text itself with exactly the logged fences and headers put in. */
  lemma {:induction false} Conservation(content: string, limit: int, n: nat)
    requires limit > 0
    ensures Faithful(content, Run(Init(content), limit, n))
  {
    if n == 0 {
      assert Rest(Init(content)) == content;
    } else {
      Conservation(content, limit, n - 1);
      StepWeaves(content, Run(Init(content), limit, n - 1), limit);
    }
  }

  lemma {:induction false} StepWeaves(content: string, s: State, limit: int)
    requires limit > 0 && Faithful(content, s)
    ensures Faithful(content, Step(s, limit))
  {
    if !Finished(s) { ApplyWeaves(Visible(content), s, Decide(s.runes, s.start, limit)); }
  }

  lemma {:induction false} ApplyWeaves(doc: string, s: State, turn: Turn)
    requires Applies(s, turn)
    requires InBounds(doc, s.inserted) && Woven(s) == Insert(doc, s.inserted)
    ensures var t := Apply(s, turn); InBounds(doc, t.inserted) && Woven(t) == Insert(doc, t.inserted)
  {
    match turn
    case Last => LastKeepsWoven(s);
    case Plain(end) => PlainKeepsWoven(s, end);
    case Reopen(end, header) => ReopenInserts(doc, s, turn);
  }

  lemma {:induction false} ReopenInserts(doc: string, s: State, turn: Turn)
    requires turn.Reopen? && Applies(s, turn)
    requires InBounds(doc, s.inserted) && Woven(s) == Insert(doc, s.inserted)
    ensures var t := Apply(s, turn); InBounds(doc, t.inserted) && Woven(t) == Insert(doc, t.inserted)
  {
    var end, h, t := turn.end, Visible(turn.header), Apply(s, turn);
    var e, p, q := Visible(Join(s.chunks)), Visible(s.runes[s.start..end]), Visible(s.runes[end..]);
    assert Woven(s) == e + (p + q) && Woven(t) == (e + (p + FENCE)) + (h + q) by {
      VisibleClosedChunk(s.runes, s.start, end);
      VisibleReopened(s.runes, end, turn.header);
      ReopenWeaves(s, end, ClosedChunk(s.runes, s.start, end), t, FENCE, h);
    }
    assert InBounds(doc, t.inserted) && Insert(doc, t.inserted)
           == Woven(s)[..|e| + |p|] + FENCE + h + Woven(s)[|e| + |p|..] by {
      InsertLast(doc, s.inserted, Insertion(SplicePoint(s, end), h));
    }
    Splice(e, p, q, FENCE, h);
  }

  lemma {:induction false} InsertLast(doc: string, ins: seq<Insertion>, i: Insertion)
    requires InBounds(doc, ins) && i.pos <= |Insert(doc, ins)|
    ensures InBounds(doc, ins + [i])
    ensures var d := Insert(doc, ins); Insert(doc, ins + [i]) == d[..i.pos] + FENCE + i.header + d[i.pos..]
  {
    assert (ins + [i])[..|ins|] == ins;
  }

  lemma {:induction false} LastKeepsWoven(s: State)
    requires s.start < |s.runes|
    ensures Woven(s) == Woven(State(s.runes, |s.runes|, s.chunks + [s.runes[s.start..]], s.inserted))
  {
    EmitVisible(s.chunks, s.runes[s.start..]);
  }

  // ---------------------------------------------------------------- length

  /** No turn, whatever the text, emits a chunk longer than the limit. */
  lemma {:induction false} ChunksFit(content: string, limit: int, n: nat)
    requires limit > 0
    ensures AllFit(Run(Init(content), limit, n).chunks, limit)
  {
    if n > 0 {
      ChunksFit(content, limit, n - 1);
      StepFits(Run(Init(content), limit, n - 1), limit);
    }
  }

  lemma {:induction false} StepFits(s: State, limit: int)
    requires limit > 0 && AllFit(s.chunks, limit)
    ensures AllFit(Step(s, limit).chunks, limit)
  {
    if !Finished(s) { ApplyFits(s, Decide(s.runes, s.start, limit), limit); }
  }

  predicate AllFit(chunks: seq<string>, limit: int) {
    forall c | c in chunks :: |c| <= limit
  }

  lemma {:induction false} ApplyFits(s: State, turn: Turn, limit: int)
    requires Applies(s, turn) && AllFit(s.chunks, limit)
    requires match turn
             case Last => |s.runes| - s.start <= limit
             case Plain(end) => end <= s.start + limit
             case Reopen(end, _) => end <= s.start + limit - 5
    ensures AllFit(Apply(s, turn).chunks, limit)
  {}

  // ---------------------------------------------------------------- fence balance

  /** Nothing but blanks stands before i on its line. */
  ghost predicate Leads(r: string, i: int)
    requires i <= |r|
    decreases i
  {
    i <= 0 || r[i - 1] == '\n' || (Marks(Blank, r[i - 1]) && Leads(r, i - 1))
  }

  /** Markdown fences: every ``` is the first thing on its line, indented or not. */
  ghost predicate LineStarts(r: string) { forall i | Fence(r, i) :: Leads(r, i) }

  /** Where the line begins. */
  lemma {:induction false} LineBegins(r: string, i: nat) returns (p: nat)
    requires i <= |r| && Leads(r, i)
    ensures p <= i && (forall k | p <= k < i :: Marks(Blank, r[k])) && (p == 0 || r[p - 1] == '\n')
    decreases i
  {
    if i == 0 || r[i - 1] == '\n' { p := i; } else { p := LineBegins(r, i - 1); }
  }

  /** What leads in a text leads wherever the text stands at the beginning of a line. */
  lemma {:induction false} LeadsShift(r: string, i: nat, t: string, k: nat)
    requires i <= |r| && i + k <= |t| && Leads(r, i) && (k == 0 || t[k - 1] == '\n')
    requires forall j | 0 <= j < i :: t[j + k] == r[j]
    ensures Leads(t, i + k)
    decreases i
  {
    if i > 0 {
      assert t[i - 1 + k] == r[i - 1];
      if r[i - 1] != '\n' { LeadsShift(r, i - 1, t, k); }
    }
  }

  /** And also if the text is cut off before it. */
  lemma {:induction false} LeadsSlice(r: string, start: nat, e: nat, i: nat)
    requires start <= i <= e <= |r| && Leads(r, i)
    ensures Leads(r[start..e], i - start)
    decreases i
  {
    if i > start {
      assert r[start..e][i - start - 1] == r[i - 1];
      if r[i - 1] != '\n' { LeadsSlice(r, start, e, i - 1); }
    }
  }

  /** The splitter's own test for a text that ends inside a code block. */
  predicate EndsOpen(s: string) { Unclosed(s, 0, |s|, -1) >= 0 }

  ghost function Count(r: string, i: int, end: int): nat
    requires 0 <= i && end <= |r|
    decreases end - i
  {
    if end < i + 3 then 0 else (if Fence(r, i) then 1 else 0) + Count(r, i + 1, end)
  }

  ghost predicate Odd(n: nat) { n % 2 == 1 }

  /** No fence that begins at or after i crosses position m. */
  ghost predicate Clean(r: string, i: int, m: int) {
    forall j | i <= j < m < j + 3 :: !Fence(r, j)
  }

  lemma {:induction false} CountSplit(r: string, i: int, m: int, end: int)
    requires 0 <= i <= m <= end <= |r| && Clean(r, i, m)
    ensures Count(r, i, end) == Count(r, i, m) + Count(r, m, end)
    decreases m - i
  {
    if i < m {
      CountSplit(r, i + 1, m, end);
      if end < i + 3 { CountNone(r, i + 1, m); CountNone(r, m, end); }
    }
  }

  lemma {:induction false} CountNone(r: string, i: int, end: int)
    requires 0 <= i && end <= |r| && forall j | i <= j && j + 3 <= end :: !Fence(r, j)
    ensures Count(r, i, end) == 0
    decreases end - i
  {
    if i + 3 <= end { CountNone(r, i + 1, end); }
  }

  lemma {:induction false} CountShift(r: string, i: int, end: int, t: string, k: int)
    requires 0 <= i <= end <= |r| && 0 <= i + k && end + k <= |t|
    requires forall j | i <= j < end :: r[j] == t[j + k]
    ensures Count(r, i, end) == Count(t, i + k, end + k)
    decreases end - i
  {
    if i + 3 <= end {
      assert r[i] == t[i + k] && r[i + 1] == t[i + 1 + k] && r[i + 2] == t[i + 2 + k];
      CountShift(r, i + 1, end, t, k);
    }
  }

  lemma {:induction false} UnclosedParity(r: string, i: int, end: int, open: int)
    requires 0 <= i && end <= |r| && -1 <= open < i && LineStarts(r)
    ensures Unclosed(r, i, end, open) >= 0 <==> Odd(Count(r, i, end) + if open < 0 then 0 else 1)
    decreases end - i
  {
    if end <= i {
    } else if i + 2 < end && Fence(r, i) {
      UnclosedParity(r, i + 3, end, if open < 0 then i else -1);
      assert !Fence(r, i + 1) && !Fence(r, i + 2);
      assert Count(r, i, end) == 1 + Count(r, i + 1, end);
      assert end >= i + 4 ==> Count(r, i + 1, end) == Count(r, i + 2, end);
      assert end >= i + 5 ==> Count(r, i + 2, end) == Count(r, i + 3, end);
    } else {
      UnclosedParity(r, i + 1, end, open);
    }
  }

  /** An even number of fences stands before the block that is still open. */
  lemma {:induction false} BeforeUnclosed(r: string, i: int, end: int, open: int)
    requires 0 <= i && end <= |r| && -1 <= open < i && LineStarts(r)
    ensures var u := Unclosed(r, i, end, open);
            u >= i ==> !Odd(Count(r, i, u) + if open < 0 then 0 else 1)
    decreases end - i
  {
    var u := Unclosed(r, i, end, open);
    if end <= i || u < i {
    } else if i + 2 < end && Fence(r, i) {
      if u != i {
        assert u >= i + 3;
        BeforeUnclosed(r, i + 3, end, if open < 0 then i else -1);
        assert !Fence(r, i + 1) && !Fence(r, i + 2);
        assert Clean(r, i, i + 3);
        CountSplit(r, i, i + 3, u);
        CountNone(r, i + 1, i + 3);
      }
    } else {
      BeforeUnclosed(r, i + 1, end, open);
      if u > i { CountSplit(r, i, i + 1, u) by { assert Clean(r, i, i + 1) by { assert !(i + 2 < end && Fence(r, i)); } } }
    }
  }

  lemma {:induction false} OpenIffOdd(s: string)
    requires LineStarts(s)
    ensures EndsOpen(s) <==> Odd(Count(s, 0, |s|))
  {
    UnclosedParity(s, 0, |s|, -1);
  }

  /** The first cut never tears a fence. */
  lemma {:induction false} FirstCutClean(r: string, start: int, limit: int)
    requires limit >= 10 && 0 <= start && |r| - start > limit && LineStarts(r)
    ensures Clean(r, start, FirstCut(r, start, limit))
  {
    var m := FirstCut(r, start, limit);
    forall j | start <= j < m < j + 3 ensures !Fence(r, j) {
      if j > 0 { assert r[j - 1] == '\n' ==> !Fence(r, j); }
    }
  }

  /** The second newline search, nearer to the limit, never lands before the first cut. */
  lemma {:induction false} BetterCut(r: string, start: int, limit: int)
    requires limit >= 10 && 0 <= start && |r| - start > limit
    ensures var m, inner := FirstCut(r, start, limit), start + limit - 5;
            var better := LastInRange(r, Newline, start, inner, 200);
            m <= inner && (better <= start || m <= better)
  {}

  lemma {:induction false} DecidedReopen(r: string, start: int, limit: int)
    requires limit > 0 && 0 <= start < |r| && Decide(r, start, limit).Reopen?
    ensures var m := FirstCut(r, start, limit);
            var u := Unclosed(r, start, m, -1);
            var closing := NextClosing(r, m, |r|);
            && limit >= 5 && |r| - start > limit && u >= start && Fence(r, u)
            && (closing == -1 || closing > start + limit)
            && Decide(r, start, limit) == TornCut(r, start, limit, m, u)
            && var h := Decide(r, start, limit).header;
               && h == Header(r, u) && Fence(h, 0) && u + |h| <= |r| && h == r[u..u + |h|]
               && forall j | 0 <= j < |h| :: h[j] != '\n'
  {
    hide FirstCut, Unclosed, NextClosing, Header, HeaderEnd, LastInRange;
  }

  lemma {:induction false} TornBehind(r: string, start: int, limit: int, u: int)
    requires limit >= 10 && 0 <= start <= u && |r| - start > limit && Fence(r, u)
    ensures var m := FirstCut(r, start, limit);
            var t := TornCut(r, start, limit, m, u);
            t.Reopen? ==> m <= t.end <= start + limit - 5
  {
    BetterCut(r, start, limit);
  }

  /** A block is cut open behind the first cut, and no fence closes it within the limit. */
  lemma {:induction false} ReopenRange(r: string, start: int, limit: int)
    requires limit >= 10 && 0 <= start < |r| && Decide(r, start, limit).Reopen?
    ensures var m, e := FirstCut(r, start, limit), Decide(r, start, limit).end;
            && m <= e <= start + limit - 5
            && forall j | m <= j && j + 3 <= start + limit :: !Fence(r, j)
  {
    DecidedReopen(r, start, limit);
    TornBehind(r, start, limit, Unclosed(r, start, FirstCut(r, start, limit), -1));
  }

  lemma {:induction false} OddUpTo(r: string, start: int, limit: int, m: int, e: int)
    requires 0 <= start <= m <= e <= start + limit - 5 && start + limit < |r| && LineStarts(r)
    requires Clean(r, start, m) && Unclosed(r, start, m, -1) >= 0
    requires forall j | m <= j && j + 3 <= start + limit :: !Fence(r, j)
    ensures Odd(Count(r, start, e)) && Clean(r, start, e)
  {
    UnclosedParity(r, start, m, -1);
    CountSplit(r, start, m, e);
    CountNone(r, m, e);
  }

  /** Hence an odd number of fences stands before that cut, and the cut tears none. */
  lemma {:induction false} ReopenOdd(r: string, start: int, limit: int)
    requires limit >= 10 && 0 <= start < |r| && LineStarts(r) && Decide(r, start, limit).Reopen?
    ensures var e := Decide(r, start, limit).end; Odd(Count(r, start, e)) && Clean(r, start, e)
  {
    DecidedReopen(r, start, limit);
    ReopenRange(r, start, limit);
    FirstCutClean(r, start, limit);
    OddUpTo(r, start, limit, FirstCut(r, start, limit), Decide(r, start, limit).end);
  }

  lemma {:induction false} ExtendedEven(r: string, start: int, m: int, closing: int)
    requires 0 <= start <= m && closing == NextClosing(r, m, |r|) > 0 && Clean(r, start, m)
    requires LineStarts(r) && m <= |r| && Unclosed(r, start, m, -1) >= 0
    ensures !Odd(Count(r, start, closing)) && Clean(r, start, closing)
  {
    UnclosedParity(r, start, m, -1);
    CountSplit(r, start, m, closing);
    OneFence(r, m, closing);
  }

  lemma {:induction false} OneFence(r: string, m: int, closing: int)
    requires 0 <= m <= closing - 3 && closing <= |r| && Fence(r, closing - 3)
    requires forall j | m <= j < closing - 3 :: !Fence(r, j)
    ensures Count(r, m, closing) == 1
  {
    CountSplit(r, m, closing - 3, closing);
    CountNone(r, m, closing - 3);
    assert Count(r, closing - 3, closing) == 1 + Count(r, closing - 2, closing);
  }

  /** Where fences begin lines, the cut before a block falls on the newline or the indentation in front of it. */
  lemma {:induction false} CutBefore(r: string, start: int, limit: int, m: int, u: int)
    requires limit >= 5 && |r| - start > limit && 0 <= start <= u < m <= |r| && Fence(r, u) && Leads(r, u)
    requires TornCut(r, start, limit, m, u).Plain?
    ensures var e := TornCut(r, start, limit, m, u).end;
      e < u && forall k | e <= k < u :: Marks(Newline, r[k]) || Marks(Blank, r[k])
  {
    var p := LineBegins(r, u);
  }

  lemma {:induction false} BeforeEven(r: string, start: int, limit: int, m: int, u: int)
    requires limit >= 5 && |r| - start > limit && 0 <= start <= u < m <= |r| && Fence(r, u) && LineStarts(r)
    requires u == Unclosed(r, start, m, -1) && TornCut(r, start, limit, m, u).Plain?
    ensures var e := TornCut(r, start, limit, m, u).end; !Odd(Count(r, start, e)) && Clean(r, start, e)
  {
    var e := TornCut(r, start, limit, m, u).end;
    BeforeUnclosed(r, start, m, -1);
    CutBefore(r, start, limit, m, u);
    assert Marks(Newline, r[e]) || Marks(Blank, r[e]);
    CountSplit(r, start, e, u);
    CountNone(r, e, u);
  }

  /** A chunk cut off as it stands closes every block it opens. */
  lemma {:induction false} PlainEven(r: string, start: int, limit: int)
    requires limit >= 10 && 0 <= start < |r| && LineStarts(r) && Decide(r, start, limit).Plain?
    ensures var e := Decide(r, start, limit).end; !Odd(Count(r, start, e)) && Clean(r, start, e)
  {
    var m := FirstCut(r, start, limit);
    var u := Unclosed(r, start, m, -1);
    var closing := NextClosing(r, m, |r|);
    FirstCutClean(r, start, limit);
    if u < 0 {
      UnclosedParity(r, start, m, -1);
    } else if closing > 0 && closing - start <= limit {
      ExtendedEven(r, start, m, closing);
    } else {
      BeforeEven(r, start, limit, m, u);
    }
  }

  /** A header is one line with one fence, at its front. */
  ghost predicate IsHeader(h: string) {
    Fence(h, 0) && LineStarts(h) && forall j | 0 <= j < |h| :: h[j] != '\n'
  }

  lemma {:induction false} OneFenceOnly(h: string, i: nat)
    requires IsHeader(h) && 0 < i < |h|
    ensures !Fence(h, i)
  {
    if Fence(h, i) {
      var p := LineBegins(h, i);
    }
  }

  /** Chunks are judged on their own text: no block stays open in them. */
  lemma {:induction false} PlainChunkEven(r: string, start: int, e: int)
    requires 0 <= start <= e <= |r| && LineStarts(r)
    ensures EndsOpen(r[start..e]) <==> Odd(Count(r, start, e))
  {
    var c := r[start..e];
    CountShift(r, start, e, c, -start);
    assert LineStarts(c) by { SliceLineStarts(r, start, e); }
    OpenIffOdd(c);
  }

  lemma {:induction false} SliceLineStarts(r: string, start: int, e: int)
    requires 0 <= start <= e <= |r| && LineStarts(r)
    ensures LineStarts(r[start..e])
  {
    var c := r[start..e];
    forall i | Fence(c, i) ensures Leads(c, i) {
      assert Fence(r, start + i);
      LeadsSlice(r, start, e, start + i);
    }
  }

  lemma {:induction false} SpaceIsNoFence(s: string, k: int)
    requires 0 <= k <= |s| && forall j | k <= j < |s| :: IsSpace(s[j])
    ensures Clean(s, 0, k) && forall j | k <= j && j + 3 <= |s| :: !Fence(s, j)
  {
    assert !IsSpace('`');
    forall j | 0 <= j < k < j + 3 ensures !Fence(s, j) {
      if k < |s| { assert IsSpace(s[k]); }
    }
  }

  /** Trimming white space off the end removes no fence. */
  lemma {:induction false} CountTrim(s: string, cutset: Cutset)
    ensures var t := TrimRight(s, cutset); Count(t, 0, |t|) == Count(s, 0, |s|)
  {
    var t := TrimRight(s, cutset);
    SpaceIsNoFence(s, |t|);
    CountSplit(s, 0, |t|, |s|);
    CountNone(s, |t|, |s|);
    CountShift(s, 0, |t|, t, 0);
  }

  lemma {:induction false} AppendClosing(t: string)
    requires LineStarts(t)
    ensures LineStarts(t + CLOSING) && Count(t + CLOSING, 0, |t| + 4) == Count(t, 0, |t|) + 1
  {
    var c := t + CLOSING;
    CountShift(t, 0, |t|, c, 0);
    assert c[|t|] == '\n' && Fence(c, |t| + 1);
    CountSplit(c, 0, |t|, |c|);
    assert Count(c, |t|, |c|) == Count(c, |t| + 1, |c|) == 1 + Count(c, |t| + 2, |c|);
    ClosingLeads(t);
  }

  lemma {:induction false} ClosingLeads(t: string)
    requires LineStarts(t)
    ensures LineStarts(t + CLOSING)
  {
    hide Count;
    var c := t + CLOSING;
    assert c[|t|] == '\n';
    forall i | Fence(c, i) ensures Leads(c, i) {
      if i < |t| {
        assert Fence(t, i);
        LeadsShift(t, i, c, 0);
      }
    }
  }

  lemma {:induction false} ClosedChunkEven(r: string, start: int, e: int)
    requires 0 <= start <= e <= |r| && LineStarts(r) && Odd(Count(r, start, e))
    ensures !EndsOpen(ClosedChunk(r, start, e))
  {
    var s := r[start..e];
    var t := TrimRight(s, Ascii);
    SliceLineStarts(r, start, e);
    CountShift(r, start, e, s, -start);
    CountTrim(s, Ascii);
    assert t == s[0..|t|];
    SliceLineStarts(s, 0, |t|);
    AppendClosing(t);
    OpenIffOdd(t + CLOSING);
  }

  lemma {:induction false} PrependHeader(h: string, rest: string)
    requires IsHeader(h) && LineStarts(rest)
    ensures var w := h + "\n" + rest; LineStarts(w) && Count(w, 0, |w|) == 1 + Count(rest, 0, |rest|)
  {
    var w, k := h + "\n" + rest, |h| + 1;
    CountShift(rest, 0, |rest|, w, k);
    assert w[|h|] == '\n' && Clean(w, 0, k);
    CountSplit(w, 0, k, |w|);
    assert Fence(w, 0);
    forall i | 1 <= i < k ensures !Fence(w, i) {
      if i + 3 <= |h| { OneFenceOnly(h, i); }
    }
    CountNone(w, 1, k);
    forall i | Fence(w, i) ensures Leads(w, i) {
      if i >= k {
        assert Fence(rest, i - k);
        LeadsShift(rest, i - k, w, k);
      }
    }
  }

  /** The rewritten text opens one block, by the header, and goes on as before. */
  lemma {:induction false} ReopenedCount(r: string, h: string, e: int)
    requires IsHeader(h) && 0 <= e <= |r| && LineStarts(r)
    ensures var t := Reopened(r, e, h); LineStarts(t) && Count(t, 0, |t|) == 1 + Count(r, e, |r|)
  {
    var rest := r[e..];
    CountShift(r, e, |r|, rest, -e);
    assert rest == r[e..|r|];
    SliceLineStarts(r, e, |r|);
    JoinedCount(h, rest);
  }

  lemma {:induction false} JoinedCount(h: string, rest: string)
    requires IsHeader(h) && LineStarts(rest)
    ensures var t := TrimSpace(h + "\n" + rest);
            LineStarts(t) && Count(t, 0, |t|) == 1 + Count(rest, 0, |rest|)
  {
    var w := h + "\n" + rest;
    PrependHeader(h, rest);
    ReopenedTrims(h, rest);
    CountTrim(w, Unicode);
    var t := TrimRight(w, Unicode);
    assert t == w[0..|t|];
    SliceLineStarts(w, 0, |t|);
  }

  lemma {:induction false} ReopenedTrims(h: string, rest: string)
    requires Fence(h, 0)
    ensures TrimSpace(h + "\n" + rest) == TrimRight(h + "\n" + rest, Unicode)
  {
    assert (h + "\n" + rest)[0] == '`';
  }

  /** What holds after every turn: see Balanced. */
  ghost predicate BalanceInv(content: string, s: State) {
    && LineStarts(s.runes)
    && if Finished(s) then
         content != "" ==>
           && s.chunks != []
           && AllClosed(s.chunks[..|s.chunks| - 1])
           && (EndsOpen(s.chunks[|s.chunks| - 1]) <==> EndsOpen(content))
       else
         && AllClosed(s.chunks)
         && (EndsOpen(content) <==> Odd(Count(s.runes, s.start, |s.runes|)))
  }

  predicate AllClosed(chunks: seq<string>) {
    forall c | c in chunks :: !EndsOpen(c)
  }

  lemma {:induction false} AppendClosed(chunks: seq<string>, c: string)
    requires AllClosed(chunks)
    ensures (chunks + [c])[..|chunks|] == chunks
    ensures !EndsOpen(c) ==> AllClosed(chunks + [c])
  {}

  lemma {:induction false} StepBalances(content: string, s: State, limit: int)
    requires limit >= 10 && BalanceInv(content, s)
    ensures BalanceInv(content, Step(s, limit))
  {
    if !Finished(s) { TurnBalances(content, s, limit); }
  }

  lemma {:induction false} TurnBalances(content: string, s: State, limit: int)
    requires limit >= 10 && !Finished(s) && BalanceInv(content, s)
    ensures BalanceInv(content, Apply(s, Decide(s.runes, s.start, limit)))
  {
    var turn := Decide(s.runes, s.start, limit);
    match turn
    case Last => LastBalances(content, s);
    case Plain(e) =>
      PlainEven(s.runes, s.start, limit);
      PlainBalances(content, s, e);
    case Reopen(e, header) =>
      ReopenOdd(s.runes, s.start, limit);
      DecidedHeader(s.runes, s.start, limit);
      ReopenBalances(content, s, turn);
  }

  lemma {:induction false} DecidedHeader(r: string, start: int, limit: int)
    requires limit > 0 && 0 <= start < |r| && LineStarts(r) && Decide(r, start, limit).Reopen?
    ensures IsHeader(Decide(r, start, limit).header)
  {
    hide Decide, IsHeader, LineStarts, FirstCut, TornCut, Unclosed, NextClosing;
    DecidedReopen(r, start, limit);
    var u := Unclosed(r, start, FirstCut(r, start, limit), -1);
    LineIsHeader(r, u, Decide(r, start, limit).header);
  }

  lemma {:induction false} LineIsHeader(r: string, u: int, h: string)
    requires LineStarts(r) && 0 <= u && u + |h| <= |r| && h == r[u..u + |h|]
    requires Fence(h, 0) && forall j | 0 <= j < |h| :: h[j] != '\n'
    ensures IsHeader(h)
  {
    SliceLineStarts(r, u, u + |h|);
  }

  lemma {:induction false} LastBalances(content: string, s: State)
    requires !Finished(s) && BalanceInv(content, s)
    ensures BalanceInv(content, State(s.runes, |s.runes|, s.chunks + [s.runes[s.start..]], s.inserted))
  {
    PlainChunkEven(s.runes, s.start, |s.runes|);
    assert s.runes[s.start..] == s.runes[s.start..|s.runes|];
    AppendClosed(s.chunks, s.runes[s.start..]);
  }

  lemma {:induction false} PlainBalances(content: string, s: State, e: int)
    requires !Finished(s) && BalanceInv(content, s) && s.start < e <= |s.runes|
    requires !Odd(Count(s.runes, s.start, e)) && Clean(s.runes, s.start, e)
    ensures BalanceInv(content, State(s.runes, SkipBlanks(s.runes, e), s.chunks + [s.runes[s.start..e]], s.inserted))
  {
    var r, k := s.runes, SkipBlanks(s.runes, e);
    PlainChunkEven(r, s.start, e);
    CountSplit(r, s.start, e, |r|);
    assert Clean(r, e, k);
    CountSplit(r, e, k, |r|);
    CountNone(r, e, k);
    AppendClosed(s.chunks, r[s.start..e]);
  }

  lemma {:induction false} ReopenBalances(content: string, s: State, turn: Turn)
    requires turn.Reopen? && Applies(s, turn) && BalanceInv(content, s) && IsHeader(turn.header)
    requires Odd(Count(s.runes, s.start, turn.end)) && Clean(s.runes, s.start, turn.end)
    ensures BalanceInv(content, Apply(s, turn))
  {
    var r, e, t := s.runes, turn.end, Apply(s, turn);
    var c := ClosedChunk(r, s.start, e);
    assert !EndsOpen(c) by { ClosedChunkEven(r, s.start, e); }
    assert LineStarts(t.runes) && Count(t.runes, 0, |t.runes|) == 1 + Count(r, e, |r|) by {
      ReopenedCount(r, turn.header, e);
    }
    assert Odd(1 + Count(r, e, |r|)) <==> Odd(Count(r, s.start, |r|)) by {
      CountSplit(r, s.start, e, |r|);
      OddSum(Count(r, s.start, e), Count(r, e, |r|));
    }
    AppendBalances(content, s, c, t);
  }

  lemma {:induction false} OddSum(a: nat, b: nat)
    requires Odd(a)
    ensures Odd(1 + b) <==> Odd(a + b)
  {}

  lemma {:induction false} AppendBalances(content: string, s: State, c: string, t: State)
    requires !Finished(s) && BalanceInv(content, s) && !EndsOpen(c)
    requires t.start == 0 && t.chunks == s.chunks + [c] && LineStarts(t.runes) && Count(t.runes, 0, |t.runes|) > 0
    requires Odd(Count(t.runes, 0, |t.runes|)) <==> Odd(Count(s.runes, s.start, |s.runes|))
    ensures BalanceInv(content, t)
  {
    AppendClosed(s.chunks, c);
  }

  /** Text whose fences begin lines: every chunk but the last closes all its blocks, and the last
      one ends inside a block exactly when the whole text does. */
  lemma {:induction false} Balanced(content: string, limit: int, n: nat)
    requires limit >= 10 && LineStarts(content)
    ensures BalanceInv(content, Run(Init(content), limit, n))
  {
    hide Step, LineStarts;
    if n == 0 {
      OpenIffOdd(content);
    } else {
      hide BalanceInv;
      Balanced(content, limit, n - 1);
      StepBalances(content, Run(Init(content), limit, n - 1), limit);
    }
  }

  /** Without fences at line starts a cut can tear one, and no chunk shows the block it opened. */
  lemma {:induction false} TornFence() returns (content: string)
    ensures var s := Run(Init(content), 10, 2);
      Finished(s) && EndsOpen(content) && forall c | c in s.chunks :: !EndsOpen(c)
  {
    content := seq(11, i => if 3 <= i < 6 then '`' else 'a');
    assert forall j | 0 <= j < 11 :: Fence(content, j) <==> j == 3;
    OneFenceOpens(content, 3);
    TornTurns(content);
    NoFenceNotOpen(content[..5]);
    NoFenceNotOpen(content[5..]);
  }

  lemma {:induction false} TornTurns(r: string)
    requires |r| == 11 && forall j | 0 <= j < 11 :: !Marks(Newline, r[j]) && !Marks(Blank, r[j]) && !IsBlank(r[j])
    requires forall j | 0 <= j < 11 :: Fence(r, j) <==> j == 3
    ensures Run(Init(r), 10, 2) == State(r, 11, [r[..5], r[5..]], [])
  {
    var s1 := State(r, 5, [r[..5]], []);
    FirstCutHard(r);
    UnclosedStays(r, 0, 5, -1);
    assert Decide(r, 0, 10) == Plain(5) && SkipBlanks(r, 5) == 5;
    assert [] + [r[0..5]] == [r[..5]];
    assert Step(Init(r), 10) == s1;
    assert Run(Init(r), 10, 1) == Step(Run(Init(r), 10, 0), 10) == s1;
    assert Decide(r, 5, 10) == Last;
    assert [r[..5]] + [r[5..]] == [r[..5], r[5..]];
  }

  /** Nor is it only the last chunk that suffers: the newline in front of a block may lie inside an earlier
      one, which the cut then leaves open. */
  lemma {:induction false} OpenCut() returns (content: string)
    ensures var s := Run(Init(content), 30, 1);
      !Finished(s) && |s.chunks| == 1 && EndsOpen(s.chunks[0])
  {
    content := seq(34, i => if i < 3 || 5 <= i < 8 || 9 <= i < 12 then '`' else if i == 3 || i == 13 then '\n' else 'z');
    assert forall j | 0 <= j < 34 :: Fence(content, j) <==> j == 0 || j == 5 || j == 9;
    CutAtThree(content);
    var head := content[0..3];
    OneFenceOpens(head, 0);
    assert [] + [head] == [head];
    assert Run(Init(content), 30, 1) == Step(Run(Init(content), 30, 0), 30);
  }

  /** And where fences do begin lines, a limit below 10 can still put the cut inside the fence itself. */
  lemma {:induction false} SmallLimit() returns (content: string)
    ensures LineStarts(content)
    ensures var s := Run(Init(content), 8, 1);
      !Finished(s) && |s.chunks| == 1 && EndsOpen(s.chunks[0])
  {
    content := "\n```abcdef";
    assert forall j | 0 <= j < 10 :: Fence(content, j) <==> j == 1;
    CutInFence(content);
    ChunkStaysOpen(content);
  }

  lemma {:induction false} ChunkStaysOpen(r: string)
    requires |r| == 10 && r[0] == '\n' && r[1] == r[2] == '`' && Decide(r, 0, 8) == Reopen(3, FENCE)
    ensures var s := Run(Init(r), 8, 1); !Finished(s) && |s.chunks| == 1 && EndsOpen(s.chunks[0])
  {
    hide Decide;
    var chunk := ClosedChunk(r, 0, 3);
    assert LastKept(r[0..3], Ascii, 0, 3) == 3;
    assert chunk == r[0..3] + CLOSING;
    OneFenceOpens(chunk, 4);
    assert [] + [chunk] == [chunk];
    assert Run(Init(r), 8, 1) == Step(Run(Init(r), 8, 0), 8);
    ReopenedTrims(FENCE, r[3..]);
  }

  lemma {:induction false} CutInFence(r: string)
    requires |r| == 10 && forall j | 0 <= j < 10 :: r[j] == '\n' <==> j == 0
    requires forall j | 0 <= j < 10 :: !Marks(Blank, r[j]) && (Fence(r, j) <==> j == 1)
    requires r[1..4] == FENCE
    ensures Decide(r, 0, 8) == Reopen(3, FENCE)
  {
    assert Effective(8) == 4;
    assert LastMark(r, Newline, 0, 4) == 0 && LastMark(r, Blank, 0, 4) == -1 && FirstCut(r, 0, 8) == 4;
    assert Unclosed(r, 0, 4, -1) == Unclosed(r, 1, 4, -1) == Unclosed(r, 4, 4, 1) == 1;
    assert NextClosing(r, 4, 10) == -1;
    assert HeaderEnd(r, 1) == 4 && Header(r, 1) == FENCE;
    assert LastMark(r, Newline, 0, 1) == 0 && LastMark(r, Blank, 0, 1) == -1;
  }

  lemma {:induction false} CutAtThree(r: string)
    requires |r| == 34 && forall j | 0 <= j < 34 :: r[j] == '\n' <==> j == 3 || j == 13
    requires forall j | 0 <= j < 34 :: Fence(r, j) <==> j == 0 || j == 5 || j == 9
    ensures Decide(r, 0, 30) == Plain(3)
  {
    assert Effective(30) == 15;
    assert LastMark(r, Newline, 0, 15) == 13 && FirstCut(r, 0, 30) == 13;
    ThreeFences(r);
    assert NextClosing(r, 13, 34) == -1;
    assert HeaderEnd(r, 9) == 13 && LastMark(r, Newline, 0, 9) == 3;
  }

  lemma {:induction false} ThreeFences(r: string)
    requires |r| == 34 && forall j | 0 <= j < 34 :: Fence(r, j) <==> j == 0 || j == 5 || j == 9
    ensures Unclosed(r, 0, 13, -1) == 9
  {
    assert Unclosed(r, 12, 13, 9) == 9;
    assert Unclosed(r, 8, 13, -1) == Unclosed(r, 9, 13, -1) == Unclosed(r, 12, 13, 9);
    assert Unclosed(r, 3, 13, 0) == Unclosed(r, 4, 13, 0) == Unclosed(r, 5, 13, 0) == Unclosed(r, 8, 13, -1);
  }

  /** No newline and no blank before the effective limit. */
  lemma {:induction false} FirstCutHard(r: string)
    requires |r| == 11 && forall j | 0 <= j < 11 :: !Marks(Newline, r[j]) && !Marks(Blank, r[j])
    ensures FirstCut(r, 0, 10) == 5
  {
    assert Effective(10) == 5;
    assert LastMark(r, Newline, 0, 5) == -1 && LastMark(r, Blank, 0, 5) == -1;
  }

  lemma {:induction false} OneFenceOpens(r: string, i: int)
    requires 0 <= i && i + 3 <= |r| && forall j | 0 <= j < |r| :: Fence(r, j) <==> j == i
    ensures EndsOpen(r)
  {
    OpensAt(r, 0, i);
  }

  lemma {:induction false} OpensAt(r: string, from: int, i: int)
    requires 0 <= from <= i && i + 3 <= |r| && forall j | 0 <= j < |r| :: Fence(r, j) <==> j == i
    ensures Unclosed(r, from, |r|, -1) == i
    decreases i - from
  {
    if from < i { OpensAt(r, from + 1, i); } else { UnclosedStays(r, i + 3, |r|, i); }
  }

  lemma {:induction false} NoFenceNotOpen(s: string)
    requires forall j | 0 <= j :: !Fence(s, j)
    ensures !EndsOpen(s)
  {
    UnclosedStays(s, 0, |s|, -1);
  }

  // ---------------------------------------------------------------- termination

  /** Every header line leaves room for "\n" and a closing fence behind it. */
  ghost predicate FencesFit(r: string, limit: int) {
    forall i | Fence(r, i) :: |Header(r, i)| < limit - 6
  }

  ghost function Measure(s: State): nat {
    if Finished(s) then 0 else |s.runes| - s.start
  }

  lemma {:induction false} HeaderWithin(r: string, j: int, t: string, i: int)
    requires Fence(t, i) && Fence(r, j) && |t| - i <= |r| - j
    requires forall k | i <= k < |t| :: t[k] == r[k - i + j]
    ensures |Header(t, i)| <= |Header(r, j)|
  {
    var n := NewlineFrom(t, i);
    if n != -1 {
      SameNewline(r, j, t, i);
      assert HeaderEnd(t, i) == n && HeaderEnd(r, j) == n - i + j;
      SameSlice(r, j, t, i, n - i);
    }
  }

  lemma {:induction false} SameSlice(r: string, j: int, t: string, i: int, n: int)
    requires 0 <= i && 0 <= j && 0 <= n <= |t| - i <= |r| - j
    requires forall k | i <= k < |t| :: t[k] == r[k - i + j]
    ensures t[i..i + n] == r[j..j + n]
  {
    var a, b := t[i..i + n], r[j..j + n];
    forall k | 0 <= k < n ensures a[k] == b[k] { assert t[i + k] == r[i + k - i + j]; }
  }

  lemma {:induction false} SameNewline(r: string, j: int, t: string, i: int)
    requires 0 <= i <= |t| && 0 <= j && |t| - i <= |r| - j
    requires forall k | i <= k < |t| :: t[k] == r[k - i + j]
    requires NewlineFrom(t, i) != -1
    ensures NewlineFrom(r, j) == NewlineFrom(t, i) - i + j
  {
    var n := NewlineFrom(t, i);
    forall k | j <= k < n - i + j ensures r[k] != '\n' { assert t[k - j + i] == r[k]; }
    assert r[n - i + j] == t[n];
  }

  lemma {:induction false} ReopenedFits(r: string, u: int, e: int, limit: int)
    requires Fence(r, u) && 0 <= e <= |r| && FencesFit(r, limit)
    ensures FencesFit(Reopened(r, e, Header(r, u)), limit)
    ensures |Reopened(r, e, Header(r, u))| <= |Header(r, u)| + 1 + |r| - e
  {
    JoinedFits(r, Header(r, u), e, limit);
  }

  lemma {:induction false} JoinedFits(r: string, h: string, e: int, limit: int)
    requires Fence(h, 0) && |h| < limit - 6 && 0 <= e <= |r| && FencesFit(r, limit)
    ensures var t := Reopened(r, e, h); FencesFit(t, limit) && |t| <= |h| + 1 + |r| - e
  {
    var w := h + "\n" + r[e..];
    var t := Reopened(r, e, h);
    ReopenedTrims(h, r[e..]);
    forall i | Fence(t, i) ensures |Header(t, i)| < limit - 6 {
      assert |t| > |h| ==> t[|h|] == w[|h|] == '\n';
      if i + 3 <= |h| {
        assert |Header(t, i)| <= HeaderEnd(t, i) - i;
      } else if i > |h| {
        var j := i - |h| - 1 + e;
        assert Fence(r, j);
        HeaderWithin(r, j, t, i);
      }
    }
  }

  /** When every header fits, each turn leaves strictly less text, a rewriting turn included. */
  lemma {:induction false} StepShrinks(s: State, limit: int)
    requires limit > 0 && !Finished(s) && FencesFit(s.runes, limit)
    ensures FencesFit(Step(s, limit).runes, limit) && Measure(Step(s, limit)) < Measure(s)
  {
    var turn := Decide(s.runes, s.start, limit);
    if turn.Reopen? {
      DecidedReopen(s.runes, s.start, limit);
      var u := Unclosed(s.runes, s.start, FirstCut(s.runes, s.start, limit), -1);
      assert |Header(s.runes, u)| < limit - 6;
      TornProgress(s.runes, s.start, limit, u);
      ReopenedFits(s.runes, u, turn.end, limit);
    }
  }

  lemma {:induction false} TornProgress(r: string, start: int, limit: int, u: int)
    requires limit >= 10 && 0 <= start <= u && |r| - start > limit && Fence(r, u) && |Header(r, u)| < limit - 6
    ensures var t := TornCut(r, start, limit, FirstCut(r, start, limit), u);
            t.Reopen? ==> |Header(r, u)| + 1 < t.end - start
  {
    TornBehind(r, start, limit, u);
  }

  ghost predicate Ends(s: State, limit: int)
    requires limit > 0
  {
    exists n: nat :: Finished(Run(s, limit, n))
  }

  /** The loop ends on every text whose headers fit. */
  lemma {:induction false} Terminates(s: State, limit: int)
    requires limit > 0 && FencesFit(s.runes, limit)
    ensures Ends(s, limit)
    decreases Measure(s)
  {
    if Finished(s) {
      assert Finished(Run(s, limit, 0));
    } else {
      StepShrinks(s, limit);
      Terminates(Step(s, limit), limit);
      EndsLater(s, limit);
    }
  }

  lemma {:induction false} RunFirst(s: State, limit: int, n: nat)
    requires limit > 0
    ensures Run(Step(s, limit), limit, n) == Run(s, limit, n + 1)
  {
    if n > 0 { RunFirst(s, limit, n - 1); }
  }

  /** A text that opens with the header line h, whose block no fence closes within the limit. */
  ghost predicate OpensLong(r: string, h: string, limit: int) {
    && limit >= 10 && |r| > limit && !IsSpace(r[|r| - 1])
    && Fence(h, 0) && (forall j | 0 <= j < |h| :: h[j] != '\n') && !IsSpace(h[|h| - 1])
    && h + "\n" <= r
    && forall i | 1 <= i && i + 3 <= limit :: !Fence(r, i)
  }

  lemma {:induction false} OpeningHeader(r: string, h: string, limit: int)
    requires OpensLong(r, h, limit)
    ensures Fence(r, 0) && HeaderEnd(r, 0) == |h| && Header(r, 0) == h
  {
    var w := h + "\n";
    assert w == r[..|w|] && w[|h|] == '\n';
    assert forall j | 0 <= j < |w| :: r[j] == w[j];
    assert NewlineFrom(r, 0) == |h| by {
      assert r[|h|] == '\n';
      assert forall j | 0 <= j < |h| :: r[j] == h[j];
    }
    assert r[0..|h|] == h;
    assert FirstKept(h, 0) == 0 && LastKept(h, Unicode, 0, |h|) == |h|;
  }

  lemma {:induction false} UnclosedStays(r: string, i: int, end: int, open: int)
    requires 0 <= i && end <= |r| && -1 <= open < i
    requires forall j | i <= j && j + 3 <= end :: !Fence(r, j)
    ensures Unclosed(r, i, end, open) == open
    decreases end - i
  {
    if i < end { UnclosedStays(r, i + 1, end, open); }
  }

  /** A header that fills the chunk is cut off again and again in front of everything new. */
  lemma {:induction false} StuckTurn(r: string, h: string, limit: int)
    requires OpensLong(r, h, limit) && |h| >= limit - 6
    ensures Decide(r, 0, limit) == Reopen(limit - 5, h)
  {
    OpeningHeader(r, h, limit);
    var m := FirstCut(r, 0, limit);
    assert 3 <= m by { assert r[0] == r[1] == r[2] == '`'; }
    assert Unclosed(r, 0, m, -1) == 0 by { UnclosedStays(r, 3, m, 0); }
    var closing := NextClosing(r, m, |r|);
    assert closing > 0 ==> closing > limit;
    assert LastInRange(r, Newline, 0, 0, 200) == LastInRange(r, Blank, 0, 0, 100) == -1;
  }

  lemma {:induction false} StuckStays(r: string, h: string, limit: int)
    requires OpensLong(r, h, limit) && |h| >= limit - 6
    ensures OpensLong(Reopened(r, limit - 5, h), h, limit)
  {
    OpeningHeader(r, h, limit);
    var w := h + "\n" + r[limit - 5..];
    assert w[0] == '`' && w[|w| - 1] == r[|r| - 1];
    assert FirstKept(w, 0) == 0 && LastKept(w, Unicode, 0, |w|) == |w|;
    assert Reopened(r, limit - 5, h) == w;
    forall i | 1 <= i && i + 3 <= limit ensures !Fence(w, i) {
      if i <= |h| {
        assert w[|h|] == '\n';
        if i + 3 <= |h| { assert r[..|h|] == h; assert !Fence(r, i); }
      } else {
        assert !Fence(r, i - |h| - 1 + limit - 5);
      }
    }
  }

  ghost predicate Stuck(s: State, h: string, limit: int, emitted: nat) {
    s.start == 0 && OpensLong(s.runes, h, limit) && |h| >= limit - 6 && |s.chunks| == emitted
  }

  lemma {:induction false} StuckStep(s: State, h: string, limit: int, emitted: nat)
    requires Stuck(s, h, limit, emitted)
    ensures Stuck(Step(s, limit), h, limit, emitted + 1)
  {
    StuckTurn(s.runes, h, limit);
    StuckStays(s.runes, h, limit);
  }

  /** Turn after turn it emits one more chunk, and never gets further into the text. */
  lemma {:induction false} NeverFinishes(r: string, h: string, limit: int, n: nat)
    requires OpensLong(r, h, limit) && |h| >= limit - 6
    ensures Stuck(Run(Init(r), limit, n), h, limit, n)
  {
    StuckRun(Init(r), h, limit, n);
  }

  lemma {:induction false} StuckUnfinished(s: State, h: string, limit: int, emitted: nat)
    requires Stuck(s, h, limit, emitted)
    ensures !Finished(s)
  {}

  /** For a text that opens with a long block, the length of the opening line alone decides whether
      the loop ends: a header of limit - 6 runes or more makes it emit chunks for ever. */
  lemma {:induction false} OpeningLineDecides(r: string, h: string, limit: int)
    requires OpensLong(r, h, limit)
    requires forall i | i > 0 && Fence(r, i) :: |Header(r, i)| < limit - 6
    ensures Ends(Init(r), limit) <==> |h| < limit - 6
  {
    OpeningHeader(r, h, limit);
    if |h| < limit - 6 {
      Terminates(Init(r), limit);
    } else {
      forall n: nat ensures !Finished(Run(Init(r), limit, n)) {
        NeverFinishes(r, h, limit, n);
        StuckUnfinished(Run(Init(r), limit, n), h, limit, n);
      }
    }
  }

  // ---------------------------------------------------------------- exactly when it ends

  /** The turn begins with a header line that fills the chunk, and no fence closes its block within the limit. */
  ghost predicate Blocked(s: State, limit: int) {
    && s.start == 0 && Fence(s.runes, 0)
    && var h := Header(s.runes, 0);
       OpensLong(s.runes, h, limit) && |h| >= limit - 6
  }

  ghost predicate NeverBlocked(s: State, limit: int)
    requires limit > 0
  {
    forall n: nat :: !Blocked(Run(s, limit, n), limit)
  }

  lemma {:induction false} StuckRun(s: State, h: string, limit: int, n: nat)
    requires limit > 0 && Stuck(s, h, limit, |s.chunks|)
    ensures Stuck(Run(s, limit, n), h, limit, |s.chunks| + n)
  {
    hide Step, Stuck;
    if n > 0 {
      StuckRun(s, h, limit, n - 1);
      StuckStep(Run(s, limit, n - 1), h, limit, |s.chunks| + n - 1);
    }
  }

  lemma {:induction false} RunAdds(s: State, limit: int, n: nat, k: nat)
    requires limit > 0
    ensures Run(Run(s, limit, n), limit, k) == Run(s, limit, n + k)
  {
    hide Step;
    if k > 0 {
      RunAdds(s, limit, n, k - 1);
      assert n + k - 1 == n + (k - 1);
    }
  }

  lemma {:induction false} StaysFinished(s: State, limit: int, n: nat)
    requires limit > 0 && Finished(s)
    ensures Run(s, limit, n) == s
  {
    if n > 0 { StaysFinished(s, limit, n - 1); }
  }

  lemma {:induction false} BlockedForEver(s: State, limit: int, n: nat)
    requires limit > 0 && Blocked(s, limit)
    ensures !Finished(Run(s, limit, n))
  {
    hide OpensLong, Run;
    StuckRun(s, Header(s.runes, 0), limit, n);
    StuckUnfinished(Run(s, limit, n), Header(s.runes, 0), limit, |s.chunks| + n);
  }

  /** Once blocked, the loop neither ends later nor has it ended before. */
  lemma {:induction false} BlockedNeverEnds(s: State, limit: int, n: nat, k: nat)
    requires limit > 0 && Blocked(Run(s, limit, n), limit)
    ensures !Finished(Run(s, limit, k))
  {
    hide Run, OpensLong, Header;
    if k >= n {
      BlockedForEver(Run(s, limit, n), limit, k - n);
      RunAdds(s, limit, n, k - n);
    } else if Finished(Run(s, limit, k)) {
      StaysFinished(Run(s, limit, k), limit, n - k);
      RunAdds(s, limit, k, n - k);
    }
  }

  lemma {:induction false} StepKeepsLineStarts(s: State, limit: int)
    requires limit >= 10 && LineStarts(s.runes)
    ensures LineStarts(Step(s, limit).runes)
  {
    hide Decide, IsHeader, LineStarts;
    if !Finished(s) && Decide(s.runes, s.start, limit).Reopen? {
      var turn := Decide(s.runes, s.start, limit);
      DecidedHeader(s.runes, s.start, limit);
      ReopenedCount(s.runes, turn.header, turn.end);
    }
  }

  /** The only cut that can leave no less text: a long header, cut at the last resort. */
  lemma {:induction false} LongCut(r: string, start: int, limit: int)
    requires limit >= 10 && 0 <= start < |r| && Decide(r, start, limit).Reopen?
    ensures var t := Decide(r, start, limit);
            |t.header| + 1 < t.end - start || (|t.header| >= limit - 6 && t.end == start + limit - 5)
  {
    DecidedReopen(r, start, limit);
    TornBehind(r, start, limit, Unclosed(r, start, FirstCut(r, start, limit), -1));
  }

  lemma {:induction false} HeaderEndsVisibly(r: string, u: int)
    requires Fence(r, u)
    ensures var h := Header(r, u); !IsSpace(h[|h| - 1])
  {
    TrimEnds(r[u..HeaderEnd(r, u)]);
  }

  /** The rewritten text is the header line with more behind it, or the header alone. */
  lemma {:induction false} ReopenedForm(r: string, h: string, e: int)
    requires Fence(h, 0) && !IsSpace(h[|h| - 1]) && 0 <= e <= |r|
    ensures var t := Reopened(r, e, h);
      (t == h || h + "\n" <= t) && !IsSpace(t[|t| - 1]) && |t| <= |h| + 1 + |r| - e
  {
    var w := h + "\n" + r[e..];
    var t := Reopened(r, e, h);
    ReopenedTrims(h, r[e..]);
    assert t == w[..LastKept(w, Unicode, 0, |w|)];
    assert w[|h| - 1] == h[|h| - 1];
    assert |t| >= |h|;
    if |t| == |h| {
      assert t == h;
    } else {
      assert t[..|h| + 1] == h + "\n";
    }
    assert w[0] == '`';
  }

  lemma {:induction false} HeaderAloneFits(h: string, limit: int)
    requires IsHeader(h) && limit >= 10
    ensures FencesFit(h, limit)
  {
    forall i | Fence(h, i) ensures |Header(h, i)| < limit - 6 {
      assert NewlineFrom(h, i) == -1;
      if i > 0 { OneFenceOnly(h, i); }
    }
  }

  /** Behind a header line the next fence stands on a later line. */
  lemma {:induction false} FencesBehind(t: string, h: string, j: int)
    requires IsHeader(h) && h + "\n" <= t && j >= 1 && Fence(t, j)
    ensures j > |h|
  {
    var w := h + "\n";
    assert forall k | 0 <= k < |w| :: t[k] == w[k];
    if j + 3 <= |h| { OneFenceOnly(h, j); }
  }

  /** A fence within the limit closes the block of a long header: the next turn goes on behind it. */
  lemma {:induction false} ClosedSoon(t: string, h: string, limit: int, i: int)
    requires limit >= 10 && IsHeader(h) && |h| >= limit - 6 && h + "\n" <= t && |t| > limit
    requires 1 <= i && i + 3 <= limit && Fence(t, i)
    ensures Decide(t, 0, limit).Plain? && Decide(t, 0, limit).end >= |h| + 4
  {
    var m := FirstCut(t, 0, limit);
    assert Fence(t, 0) by { assert forall k | 0 <= k < 3 :: t[k] == (h + "\n")[k]; }
    assert 3 <= m <= limit - 5;
    forall j | 1 <= j && Fence(t, j) ensures j > |h| { FencesBehind(t, h, j); }
    assert Unclosed(t, 0, m, -1) == 0 by { UnclosedStays(t, 3, m, 0); }
    var closing := NextClosing(t, m, |t|);
    assert 0 < closing <= limit && Fence(t, closing - 3);
  }

  lemma {:induction false} DecidedHeaderVisible(r: string, start: int, limit: int)
    requires limit > 0 && 0 <= start < |r| && Decide(r, start, limit).Reopen?
    ensures var h := Decide(r, start, limit).header; Fence(h, 0) && !IsSpace(h[|h| - 1])
  {
    hide Decide, FirstCut, TornCut, Unclosed, NextClosing, Header;
    DecidedReopen(r, start, limit);
    HeaderEndsVisibly(r, Unclosed(r, start, FirstCut(r, start, limit), -1));
  }

  lemma {:induction false} OnlyReopenGrows(s: State, limit: int)
    requires limit > 0 && !Finished(s) && Measure(Step(s, limit)) >= Measure(s)
    ensures var turn := Decide(s.runes, s.start, limit);
      turn.Reopen? && Step(s, limit).start == 0 && Step(s, limit).runes == Reopened(s.runes, turn.end, turn.header)
  {
    hide Decide, Reopened, ClosedChunk;
  }

  /** A turn that leaves no less text leads to a text that ends, is blocked, or has less left after the next turn. */
  lemma {:induction false} LongTurn(s: State, limit: int)
    requires limit >= 10 && !Finished(s) && LineStarts(s.runes)
    requires Measure(Step(s, limit)) >= Measure(s)
    ensures var t := Step(s, limit);
      || FencesFit(t.runes, limit)
      || Blocked(t, limit)
      || Measure(Step(t, limit)) < Measure(s)
  {
    hide Decide, Header, IsHeader, LineStarts, FencesFit, Blocked, Step, Reopened;
    var turn := Decide(s.runes, s.start, limit);
    OnlyReopenGrows(s, limit);
    LongCut(s.runes, s.start, limit);
    DecidedHeader(s.runes, s.start, limit);
    DecidedHeaderVisible(s.runes, s.start, limit);
    ReopenedForm(s.runes, turn.header, turn.end);
    AfterLong(Step(s, limit), turn.header, limit, Measure(s));
  }

  lemma {:induction false} AfterLong(t: State, h: string, limit: int, left: nat)
    requires limit >= 10 && t.start == 0 && IsHeader(h) && !IsSpace(h[|h| - 1]) && |h| >= limit - 6
    requires (t.runes == h || h + "\n" <= t.runes) && !IsSpace(t.runes[|t.runes| - 1])
    requires 0 < left && |t.runes| < left + |h|
    ensures FencesFit(t.runes, limit) || Blocked(t, limit) || Measure(Step(t, limit)) < left
  {
    hide IsHeader, FencesFit, Header, Decide, OpensLong;
    if t.runes == h {
      HeaderAloneFits(h, limit);
    } else if |t.runes| <= limit {
      assert Finished(Step(t, limit));
    } else {
      LongBehind(t, h, limit);
    }
  }

  lemma {:induction false} LongBehind(t: State, h: string, limit: int)
    requires limit >= 10 && t.start == 0 && IsHeader(h) && !IsSpace(h[|h| - 1]) && |h| >= limit - 6
    requires h + "\n" <= t.runes && !IsSpace(t.runes[|t.runes| - 1]) && |t.runes| > limit
    ensures Blocked(t, limit) || Measure(Step(t, limit)) <= Max(|t.runes| - |h| - 4, 0)
  {
    hide Header, Decide;
    if i :| 1 <= i && i + 3 <= limit && Fence(t.runes, i) {
      hide IsHeader, Blocked;
      ClosedSoon(t.runes, h, limit, i);
    } else {
      assert OpensLong(t.runes, h, limit);
      OpeningHeader(t.runes, h, limit);
    }
  }

  /** With fences at line starts, a loop that is never blocked ends. */
  lemma {:induction false} EndsUnlessBlocked(s: State, limit: int)
    requires limit >= 10 && LineStarts(s.runes) && NeverBlocked(s, limit)
    ensures Ends(s, limit)
    decreases Measure(s)
  {
    var t := Step(s, limit);
    if Finished(s) {
      assert Finished(Run(s, limit, 0));
    } else {
      StepKeepsLineStarts(s, limit);
      StepNeverBlocked(s, limit);
      if Measure(t) < Measure(s) {
        EndsUnlessBlocked(t, limit);
      } else {
        LongTurn(s, limit);
        assert !Blocked(Run(t, limit, 0), limit);
        if FencesFit(t.runes, limit) {
          Terminates(t, limit);
        } else {
          StepKeepsLineStarts(t, limit);
          StepNeverBlocked(t, limit);
          EndsUnlessBlocked(Step(t, limit), limit);
          EndsLater(t, limit);
        }
      }
      EndsLater(s, limit);
    }
  }

  lemma {:induction false} StepNeverBlocked(s: State, limit: int)
    requires limit > 0 && NeverBlocked(s, limit)
    ensures NeverBlocked(Step(s, limit), limit)
  {
    forall n: nat ensures !Blocked(Run(Step(s, limit), limit, n), limit) { RunFirst(s, limit, n); }
  }

  lemma {:induction false} EndsLater(s: State, limit: int)
    requires limit > 0 && Ends(Step(s, limit), limit)
    ensures Ends(s, limit)
  {
    var n: nat :| Finished(Run(Step(s, limit), limit, n));
    RunFirst(s, limit, n);
    assert Finished(Run(s, limit, n + 1));
  }

  /** With fences at line starts, standing at a long block is the only way not to end. */
  lemma {:induction false} EndsIffNeverBlocked(content: string, limit: int)
    requires limit >= 10 && LineStarts(content)
    ensures Ends(Init(content), limit) <==> NeverBlocked(Init(content), limit)
  {
    if NeverBlocked(Init(content), limit) {
      EndsUnlessBlocked(Init(content), limit);
    } else {
      var n: nat :| Blocked(Run(Init(content), limit, n), limit);
      forall k: nat ensures !Finished(Run(Init(content), limit, k)) {
        BlockedNeverEnds(Init(content), limit, n, k);
      }
    }
  }

  // ---------------------------------------------------------------- the program

  method FindLastInRange(runes: string, mark: Mark, start: int, end: int, searchWindow: int) returns (index: int)
    requires 0 <= start && end <= |runes|
    ensures index == LastInRange(runes, mark, start, end, searchWindow)
    ensures index == start - 1 ||
            (Max(end - searchWindow, start) <= index < end && Marks(mark, runes[index]))
  {
    var searchStart := Max(end - searchWindow, start);
    var i := end - 1;
    while i >= searchStart
      invariant i < end && (i >= searchStart - 1 || end <= searchStart)
      invariant LastMark(runes, mark, searchStart, i + 1) == LastMark(runes, mark, searchStart, end)
    {
      if Marks(mark, runes[i]) {
        return i;
      }
      i := i - 1;
    }
    return start - 1;
  }

  method FindNewlineFrom(runes: string, from: int) returns (index: int)
    requires 0 <= from
    ensures index == NewlineFrom(runes, from)
  {
    var i := from;
    while i < |runes|
      invariant from <= i && NewlineFrom(runes, i) == NewlineFrom(runes, from)
    {
      if runes[i] == '\n' {
        return i;
      }
      i := i + 1;
    }
    return -1;
  }

  method FindNextClosing(runes: string, startIdx: int, end: int) returns (index: int)
    requires 0 <= startIdx && end <= |runes|
    ensures index == NextClosing(runes, startIdx, end)
  {
    var i := startIdx;
    while i < end
      invariant startIdx <= i && NextClosing(runes, i, end) == NextClosing(runes, startIdx, end)
    {
      if i + 2 < end && Fence(runes, i) {
        return i + 3;
      }
      i := i + 1;
    }
    return -1;
  }

  method FindLastUnclosed(runes: string, start: int, end: int) returns (index: int)
    requires 0 <= start && end <= |runes|
    ensures index == Unclosed(runes, start, end, -1)
  {
    var inCodeBlock := false;
    var lastOpenIdx := -1;
    var i := start;
    while i < end
      invariant start <= i && -1 <= lastOpenIdx < i && (inCodeBlock ==> lastOpenIdx >= 0)
      invariant Unclosed(runes, i, end, if inCodeBlock then lastOpenIdx else -1) == Unclosed(runes, start, end, -1)
    {
      if i + 2 < end && Fence(runes, i) {
        if !inCodeBlock {
          lastOpenIdx := i;
        }
        inCodeBlock := !inCodeBlock;
        i := i + 2;
      }
      i := i + 1;
    }
    return if inCodeBlock then lastOpenIdx else -1;
  }

  /** The searches of one turn, in the program's order. */
  method ChooseCut(runes: string, start: int, maxLen: int) returns (turn: Turn)
    requires maxLen > 0 && 0 <= start < |runes| && |runes| - start > maxLen
    ensures turn == Decide(runes, start, maxLen)
  {
    var msgEnd := NaturalCut(runes, start, maxLen);
    var unclosedIdx := FindLastUnclosed(runes, start, msgEnd);
    var closingIdx := -1;
    if unclosedIdx >= 0 {
      closingIdx := FindNextClosing(runes, msgEnd, |runes|);
      if closingIdx > 0 && closingIdx - start <= maxLen {
        msgEnd := closingIdx;
      } else {
        turn := TearCut(runes, start, maxLen, msgEnd, unclosedIdx);
        return;
      }
    }
    turn := Plain(msgEnd);
  }

  method NaturalCut(runes: string, start: int, maxLen: int) returns (msgEnd: int)
    requires maxLen > 0 && 0 <= start && |runes| - start > maxLen
    ensures msgEnd == FirstCut(runes, start, maxLen)
  {
    hide LastInRange;
    var end := start + Effective(maxLen);
    msgEnd := FindLastInRange(runes, Newline, start, end, 200);
    if msgEnd <= start {
      msgEnd := FindLastInRange(runes, Blank, start, end, 100);
    }
    if msgEnd <= start {
      msgEnd := end;
    }
  }

  method TearCut(runes: string, start: int, maxLen: int, msgEnd: int, unclosedIdx: int) returns (turn: Turn)
    requires maxLen >= 5 && |runes| - start > maxLen && 0 <= start <= unclosedIdx && Fence(runes, unclosedIdx)
    requires msgEnd <= |runes|
    ensures turn == TornCut(runes, start, maxLen, msgEnd, unclosedIdx)
  {
    hide LastInRange, Header, HeaderEnd;
    var header, headerEndIdx := ReadHeader(runes, unclosedIdx);
    var innerLimit := Min(start + maxLen - 5, |runes|);
    if msgEnd > headerEndIdx + 20 {
      var betterEnd := FindLastInRange(runes, Newline, start, innerLimit, 200);
      return Reopen(if betterEnd > headerEndIdx then betterEnd else innerLimit, header);
    }
    var newEnd := FindLastInRange(runes, Newline, start, unclosedIdx, 200);
    if newEnd <= start {
      newEnd := FindLastInRange(runes, Blank, start, unclosedIdx, 100);
    }
    if newEnd > start {
      return Plain(newEnd);
    } else if unclosedIdx - start > 20 {
      return Plain(unclosedIdx);
    } else {
      return Reopen(innerLimit, header);
    }
  }

  /** The header of a block, and where its line ends. */
  method ReadHeader(runes: string, unclosedIdx: int) returns (header: string, headerEndIdx: int)
    requires Fence(runes, unclosedIdx)
    ensures header == Header(runes, unclosedIdx) && headerEndIdx == HeaderEnd(runes, unclosedIdx)
  {
    var headerEnd := FindNewlineFrom(runes, unclosedIdx);
    assert headerEnd == -1 || unclosedIdx + 3 <= headerEnd by {
      assert HeaderEnd(runes, unclosedIdx) >= unclosedIdx + 3;
    }
    header := if headerEnd == -1 then TrimSpace(runes[unclosedIdx..unclosedIdx + 3])
              else TrimSpace(runes[unclosedIdx..headerEnd]);
    headerEndIdx := if headerEnd != -1 then headerEnd else unclosedIdx + |header|;
  }

  method SkipLeadingBlanks(runes: string, from: nat) returns (start: nat)
    requires from <= |runes|
    ensures start == SkipBlanks(runes, from)
  {
    start := from;
    while start < |runes| && IsBlank(runes[start])
      invariant from <= start <= |runes| && SkipBlanks(runes, start) == SkipBlanks(runes, from)
    {
      start := start + 1;
    }
  }

  /** What a caller may rely on: see the conditions named one by one above. */
  ghost predicate Delivered(content: string, limit: int, s: State) {
    && AllFit(s.chunks, limit)
    && Visible(Join(s.chunks)) == Insert(Visible(content), s.inserted)
    && Remove(Visible(Join(s.chunks)), s.inserted) == Visible(content)
    && (limit >= 10 && LineStarts(content) && content != "" ==>
          && s.chunks != [] && AllClosed(s.chunks[..|s.chunks| - 1])
          && (EndsOpen(s.chunks[|s.chunks| - 1]) <==> EndsOpen(content)))
  }

  lemma {:induction false} FinishedRunDelivers(content: string, limit: int, n: nat)
    requires limit > 0 && Finished(Run(Init(content), limit, n))
    ensures Delivered(content, limit, Run(Init(content), limit, n))
  {
    ChunksFit(content, limit, n);
    Conservation(content, limit, n);
    RemoveUndoesInsert(Visible(content), Run(Init(content), limit, n).inserted);
    if limit >= 10 && LineStarts(content) { Balanced(content, limit, n); }
  }

  /** With a positive limit the chunks are those of a finished run of the turns above. All that is asked
      is that the loop ends: Terminates says when it is sure to, EndsIffNeverBlocked and OpeningLineDecides
      when it does not. */
  method SplitMessage(content: string, maxLen: int) returns (messages: seq<string>, ghost turns: nat)
    requires maxLen > 0 ==> Ends(Init(content), maxLen)
    ensures maxLen <= 0 ==> messages == if content == "" then [] else [content]
    ensures maxLen > 0 ==>
              var s := Run(Init(content), maxLen, turns);
              Finished(s) && messages == s.chunks && Delivered(content, maxLen, s)
  {
    if maxLen <= 0 {
      return if content == "" then [] else [content], 0;
    }
    messages, turns := SplitPositive(content, maxLen);
    FinishedRunDelivers(content, maxLen, turns);
  }

  method SplitPositive(content: string, maxLen: int) returns (messages: seq<string>, ghost turns: nat)
    requires maxLen > 0 && Ends(Init(content), maxLen)
    ensures Finished(Run(Init(content), maxLen, turns)) && messages == Run(Init(content), maxLen, turns).chunks
  {
    turns := 0;
    var runes, start: nat := content, 0;
    messages := [];
    ghost var state := Init(content);
    ghost var last: nat :| Finished(Run(state, maxLen, last));
    while start < |runes|
      invariant start <= |runes| && state == Run(Init(content), maxLen, turns)
      invariant state.runes == runes && state.start == start && state.chunks == messages
      invariant turns <= last
      decreases last - turns
    {
      runes, start, messages := TakeTurn(runes, start, messages, maxLen, state);
      state, turns := Step(state, maxLen), turns + 1;
    }
  }

  /** The body of the loop. */
  method TakeTurn(runes: string, start: nat, messages: seq<string>, maxLen: int, ghost state: State)
      returns (nextRunes: string, nextStart: nat, nextMessages: seq<string>)
    requires maxLen > 0 && start < |runes|
    requires state.runes == runes && state.start == start && state.chunks == messages
    ensures var t := Step(state, maxLen); nextRunes == t.runes && nextStart == t.start && nextMessages == t.chunks
    ensures nextStart <= |nextRunes|
  {
    nextRunes := runes;
    if |runes| - start <= maxLen {
      nextMessages := messages + [runes[start..]];
      nextStart := |runes|;
    } else {
      var turn := ChooseCut(runes, start, maxLen);
      if turn.Reopen? {
        nextMessages := messages + [TrimRight(runes[start..turn.end], Ascii) + "\n```"];
        nextRunes := TrimSpace(turn.header + "\n" + runes[turn.end..]);
        nextStart := 0;
      } else {
        nextMessages := messages + [runes[start..turn.end]];
        nextStart := SkipLeadingBlanks(runes, turn.end);
      }
    }
  }
}
