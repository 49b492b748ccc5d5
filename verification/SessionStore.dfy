/**
  The JSONL session store: per session an append-only log of messages and a metadata
  file whose `skip` says how many log lines are logically gone. Every operation is a
  list of file writes, each of them atomic; a crash may fall between any two.
*/
module SessionStore {
  import opened Options
  import opened Chat

  // ---------------------------------------------------------------- files

  /** A line of a log: an encoded message, or what a torn write left behind. */
  datatype Line = Record(message: Message) | Corrupt

  datatype Meta = Meta(key: string, summary: string, skip: nat, count: nat)

  /** A snapshot written by the older store; its key may be missing. */
  datatype Legacy = Legacy(key: string, messages: seq<Message>, summary: string)

  /** A name in the sessions directory; `snapshot` is None when the file cannot be parsed. */
  datatype Entry = Entry(name: string, isDir: bool, snapshot: Option<Legacy>)

  datatype Disk = Disk(logs: map<string, seq<Line>>, metas: map<string, Meta>, dir: seq<Entry>)

  datatype Write =
    | PutMeta(file: string, meta: Meta)
    | PutLog(file: string, lines: seq<Line>)
    | Append(file: string, line: Line)
    | Rename(index: nat)

  function Log(d: Disk, file: string): seq<Line> {
    if file in d.logs then d.logs[file] else []
  }

  function Apply(d: Disk, w: Write): Disk {
    match w
    case PutMeta(file, meta) => d.(metas := d.metas[file := meta])
    case PutLog(file, lines) => d.(logs := d.logs[file := lines])
    case Append(file, line) => d.(logs := d.logs[file := Log(d, file) + [line]])
    case Rename(i) =>
      if i < |d.dir| then d.(dir := d.dir[i := d.dir[i].(name := d.dir[i].name + ".migrated")]) else d
  }

  function ApplyAll(d: Disk, ws: seq<Write>): Disk
    decreases |ws|
  {
    if ws == [] then d else ApplyAll(Apply(d, ws[0]), ws[1..])
  }

  function SanitizeKey(key: string): (name: string)
    ensures |name| == |key|
    ensures forall k | 0 <= k < |name| :: name[k] != ':' && name[k] != '/' && name[k] != '\\'
  {
    if key == "" then ""
    else [if key[0] in ":/\\" then '_' else key[0]] + SanitizeKey(key[1..])
  }

  predicate Separates(c: char) { c == ':' || c == '/' || c == '\\' }

  /** The file of a key: each separator is replaced, and nothing else. */
  lemma {:induction false} NameOf(key: string, k: nat)
    requires k < |key|
    ensures SanitizeKey(key)[k] == if Separates(key[k]) then '_' else key[k]
  {
    if k > 0 { NameOf(key[1..], k - 1); }
  }

  /** Two keys share a file exactly if they differ in separators and underscores only. */
  lemma {:induction false} SharedName(a: string, b: string)
    ensures SanitizeKey(a) == SanitizeKey(b) <==>
            |a| == |b| && forall k | 0 <= k < |a| && a[k] != b[k] ::
                            (Separates(a[k]) || a[k] == '_') && (Separates(b[k]) || b[k] == '_')
  {
    if |a| == |b| {
      forall k | 0 <= k < |a|
        ensures SanitizeKey(a)[k] == SanitizeKey(b)[k] <==>
                a[k] == b[k] || ((Separates(a[k]) || a[k] == '_') && (Separates(b[k]) || b[k] == '_'))
      {
        NameOf(a, k);
        NameOf(b, k);
      }
    }
  }

  // ---------------------------------------------------------------- operations as writes

  datatype Op =
    | Add(message: Message)
    | SetHistory(history: seq<Message>)
    | SetSummary(summary: string)
    | Truncate(keepLast: int)
    | Compact

  function ReadMeta(d: Disk, key: string): Meta {
    var file := SanitizeKey(key);
    if file in d.metas then d.metas[file] else Meta(key, "", 0, 0)
  }

  function Encode(history: seq<Message>): (lines: seq<Line>)
    ensures |lines| == |history| && forall k | 0 <= k < |lines| :: lines[k] == Record(history[k])
  {
    seq(|history|, k requires 0 <= k < |history| => Record(history[k]))
  }

  /** The messages of the lines behind the first `skip`; corrupt lines are passed over. */
  function Decode(lines: seq<Line>, skip: nat): (history: seq<Message>)
    ensures |history| <= if skip <= |lines| then |lines| - skip else 0
    decreases |lines| - skip
  {
    if |lines| <= skip then []
    else (match lines[skip] case Record(m) => [m] case Corrupt => []) + Decode(lines, skip + 1)
  }

  function History(d: Disk, key: string): seq<Message> {
    Decode(Log(d, SanitizeKey(key)), ReadMeta(d, key).skip)
  }

  function Summary(d: Disk, key: string): string { ReadMeta(d, key).summary }

  function TruncatedSkip(lines: nat, skip: nat, keepLast: int): nat {
    if keepLast <= 0 then lines
    else if keepLast < lines - skip then lines - keepLast
    else skip
  }

  /** The file writes of an operation, in order. */
  function Writes(d: Disk, key: string, op: Op): seq<Write> {
    var file, meta := SanitizeKey(key), ReadMeta(d, key);
    match op
    case Add(m) => [Append(file, Record(m)), PutMeta(file, meta.(count := meta.count + 1))]
    case SetHistory(h) => [PutMeta(file, meta.(skip := 0, count := |h|)), PutLog(file, Encode(h))]
    case SetSummary(s) => [PutMeta(file, meta.(summary := s))]
    case Truncate(keepLast) =>
      var n := |Log(d, file)|;
      [PutMeta(file, meta.(count := n, skip := TruncatedSkip(n, meta.skip, keepLast)))]
    case Compact =>
      if meta.skip == 0 then []
      else
        var active := History(d, key);
        [PutMeta(file, meta.(skip := 0, count := |active|)), PutLog(file, Encode(active))]
  }

  function Do(d: Disk, key: string, op: Op): Disk { ApplyAll(d, Writes(d, key, op)) }

  /** The disk when the process dies after k of the operation's writes. */
  function Crash(d: Disk, key: string, op: Op, k: nat): Disk
    requires k <= |Writes(d, key, op)|
  {
    ApplyAll(d, Writes(d, key, op)[..k])
  }

  // ---------------------------------------------------------------- decoding

  lemma {:induction false} DecodeEncoded(h: seq<Message>, skip: nat)
    requires skip <= |h|
    ensures Decode(Encode(h), skip) == h[skip..]
    decreases |h| - skip
  {
    if skip < |h| {
      DecodeEncoded(h, skip + 1);
      assert h[skip..] == [h[skip]] + h[skip + 1..];
    }
  }

  ghost predicate IsSuffix(s: seq<Message>, t: seq<Message>) {
    |s| <= |t| && s == t[|t| - |s|..]
  }

  lemma {:induction false} DecodeSuffix(lines: seq<Line>, i: nat, j: nat)
    requires i <= j
    ensures IsSuffix(Decode(lines, j), Decode(lines, i))
    decreases j - i
  {
    if i < j { DecodeSuffix(lines, i + 1, j); }
  }

  lemma {:induction false} DecodeAppend(lines: seq<Line>, l: Line, skip: nat)
    requires skip <= |lines|
    ensures Decode(lines + [l], skip) == Decode(lines, skip) + Decode([l], 0)
    decreases |lines| - skip
  {
    if skip < |lines| {
      DecodeAppend(lines, l, skip + 1);
    } else {
      assert (lines + [l])[skip] == l;
      assert Decode(lines + [l], skip + 1) == [] && Decode([l], 1) == [];
    }
  }

  ghost predicate Lossless(lines: seq<Line>) { forall l | l in lines :: l.Record? }

  lemma {:induction false} DecodeLossless(lines: seq<Line>, skip: nat)
    requires Lossless(lines) && skip <= |lines|
    ensures |Decode(lines, skip)| == |lines| - skip
    decreases |lines| - skip
  {
    if skip < |lines| { DecodeLossless(lines, skip + 1); }
  }

  // ---------------------------------------------------------------- crash safety

  /** No session's offset points behind the end of its log. */
  ghost predicate SkipsInRange(d: Disk) {
    forall file | file in d.metas :: d.metas[file].skip <= |Log(d, file)|
  }

  datatype Event = Event(key: string, op: Op, writes: nat)

  /** A history of the disk: each operation gets as far as the event says, then the next begins. */
  ghost function Survive(d: Disk, events: seq<Event>): Disk {
    if events == [] then d
    else
      var before := Survive(d, events[..|events| - 1]);
      var e := events[|events| - 1];
      var ws := Writes(before, e.key, e.op);
      ApplyAll(before, ws[..if e.writes < |ws| then e.writes else |ws|])
  }

  /** The disk after none, one or both of an operation's writes. */
  lemma {:induction false} CrashStates(d: Disk, key: string, op: Op, k: nat)
    requires k <= |Writes(d, key, op)|
    ensures |Writes(d, key, op)| <= 2
    ensures var ws := Writes(d, key, op);
            Crash(d, key, op, k) == if k == 0 then d
                                    else if k == 1 then Apply(d, ws[0]) else Apply(Apply(d, ws[0]), ws[1])
  {
    var ws := Writes(d, key, op);
    if k == 1 {
      assert ws[..1] == [ws[0]];
      ApplyOne(d, ws[0]);
    } else if k == 2 {
      assert ws[..2] == [ws[0], ws[1]];
      ApplyTwo(d, ws[0], ws[1]);
    }
  }

  lemma {:induction false} ApplyOne(d: Disk, w: Write)
    ensures ApplyAll(d, [w]) == Apply(d, w)
  {
    assert [w][1..] == [];
  }

  lemma {:induction false} ApplyTwo(d: Disk, v: Write, w: Write)
    ensures ApplyAll(d, [v, w]) == Apply(Apply(d, v), w)
  {
    assert [v, w][1..] == [w];
    ApplyOne(Apply(d, v), w);
  }

  lemma {:induction false} DoStates(d: Disk, key: string, op: Op)
    ensures var ws := Writes(d, key, op);
            |ws| <= 2 && Do(d, key, op) == if |ws| == 0 then d
                                else if |ws| == 1 then Apply(d, ws[0]) else Apply(Apply(d, ws[0]), ws[1])
  {
    var ws := Writes(d, key, op);
    assert ws[..|ws|] == ws;
    CrashStates(d, key, op, |ws|);
  }

  lemma {:induction false} CrashKeepsSkips(d: Disk, key: string, op: Op, k: nat)
    requires SkipsInRange(d) && k <= |Writes(d, key, op)|
    ensures SkipsInRange(Crash(d, key, op, k))
  {
    CrashStates(d, key, op, k);
  }

  lemma {:induction false} SkipsAlwaysInRange(d: Disk, events: seq<Event>)
    requires SkipsInRange(d)
    ensures SkipsInRange(Survive(d, events))
  {
    if events != [] {
      var before, e := Survive(d, events[..|events| - 1]), events[|events| - 1];
      SkipsAlwaysInRange(d, events[..|events| - 1]);
      var n := |Writes(before, e.key, e.op)|;
      CrashKeepsSkips(before, e.key, e.op, if e.writes < n then e.writes else n);
    }
  }

  /** A crash shows the operation's full effect on the history, or still all of the history from
      before it, at most with older messages in front. */
  lemma {:induction false} CrashLosesNothing(d: Disk, key: string, op: Op, k: nat)
    requires SkipsInRange(d) && k <= |Writes(d, key, op)|
    ensures var crashed := Crash(d, key, op, k);
            || History(crashed, key) == History(Do(d, key, op), key)
            || IsSuffix(History(d, key), History(crashed, key))
    ensures Summary(Crash(d, key, op, k), key) in {Summary(d, key), Summary(Do(d, key, op), key)}
  {
    CrashStates(d, key, op, k);
    DoStates(d, key, op);
    if k == 1 && |Writes(d, key, op)| == 2 {
      if op.Add? { InterruptedAdd(d, key, op); } else { InterruptedRewrite(d, key, op); }
    }
  }

  lemma {:induction false} InterruptedAdd(d: Disk, key: string, op: Op)
    requires op.Add?
    ensures var ws := Writes(d, key, op);
            var one, two := Apply(d, ws[0]), Apply(Apply(d, ws[0]), ws[1]);
            History(one, key) == History(two, key) && Summary(one, key) == Summary(d, key)
  {}

  lemma {:induction false} InterruptedRewrite(d: Disk, key: string, op: Op)
    requires op.SetHistory? || (op.Compact? && Writes(d, key, op) != [])
    ensures var one := Apply(d, Writes(d, key, op)[0]);
            IsSuffix(History(d, key), History(one, key)) && Summary(one, key) == Summary(d, key)
  {
    var file, one := SanitizeKey(key), Apply(d, Writes(d, key, op)[0]);
    assert Log(one, file) == Log(d, file) && ReadMeta(one, key).skip == 0;
    DecodeSuffix(Log(d, file), 0, ReadMeta(d, key).skip);
  }

  /** The count in a session's metadata is the number of lines of its log. */
  ghost predicate CountRight(d: Disk, key: string) { ReadMeta(d, key).count == |Log(d, SanitizeKey(key))| }

  /** Every operation keeps it so; setting the history or truncating makes it so, whatever a crash has left. */
  lemma {:induction false} CountIsKept(d: Disk, key: string, op: Op)
    ensures SanitizeKey(key) !in d.metas && SanitizeKey(key) !in d.logs ==> CountRight(d, key)
    ensures CountRight(d, key) || op.SetHistory? || op.Truncate? ==> CountRight(Do(d, key, op), key)
  {
    DoStates(d, key, op);
  }

  /** A session's files are its own: other file names keep their history and summary, even in a crash. */
  lemma {:induction false} CrashSparesOthers(d: Disk, key: string, op: Op, k: nat, other: string)
    requires k <= |Writes(d, key, op)| && SanitizeKey(other) != SanitizeKey(key)
    ensures History(Crash(d, key, op, k), other) == History(d, other)
    ensures ReadMeta(Crash(d, key, op, k), other) == ReadMeta(d, other)
  {
    CrashStates(d, key, op, k);
  }

  // ---------------------------------------------------------------- repair after a crash

  function LastMessages(h: seq<Message>, n: int): seq<Message> {
    if n <= 0 then [] else if n < |h| then h[|h| - n..] else h
  }

  lemma {:induction false} DecodeLast(lines: seq<Line>, skip: nat, n: nat)
    requires Lossless(lines) && skip <= |lines| && n <= |lines| - skip
    ensures Decode(lines, |lines| - n) == LastMessages(Decode(lines, skip), n)
  {
    DecodeLossless(lines, skip);
    DecodeLossless(lines, |lines| - n);
    DecodeSuffix(lines, skip, |lines| - n);
  }

  /** Truncating keeps the last messages of the history. */
  lemma {:induction false} TruncateKeepsLast(d: Disk, key: string, keepLast: int)
    requires Lossless(Log(d, SanitizeKey(key))) && ReadMeta(d, key).skip <= |Log(d, SanitizeKey(key))|
    ensures History(Do(d, key, Truncate(keepLast)), key) == LastMessages(History(d, key), keepLast)
    ensures Summary(Do(d, key, Truncate(keepLast)), key) == Summary(d, key)
  {
    var lines, skip := Log(d, SanitizeKey(key)), ReadMeta(d, key).skip;
    DoStates(d, key, Truncate(keepLast));
    DecodeLossless(lines, skip);
    if keepLast <= 0 {
      assert Decode(lines, |lines|) == [];
    } else if keepLast < |lines| - skip {
      DecodeLast(lines, skip, keepLast);
    }
  }

  lemma {:induction false} CompactKeepsHistory(d: Disk, key: string)
    ensures var e := Do(d, key, Compact); History(e, key) == History(d, key) && Summary(e, key) == Summary(d, key)
    ensures ReadMeta(d, key).skip > 0 ==> ReadMeta(Do(d, key, Compact), key).skip == 0
    ensures ReadMeta(d, key).skip > 0 ==> Log(Do(d, key, Compact), SanitizeKey(key)) == Encode(History(d, key))
  {
    DoStates(d, key, Compact);
    DecodeEncoded(History(d, key), 0);
  }

  /** After a compaction that died between its writes, truncating gives what it would have given
      without the crash exactly when it asks for no more messages than were active. */
  lemma {:induction false} TruncateRepairsCompact(d: Disk, key: string, keepLast: int)
    requires Lossless(Log(d, SanitizeKey(key))) && 0 < ReadMeta(d, key).skip <= |Log(d, SanitizeKey(key))|
    ensures History(Do(Crash(d, key, Compact, 1), key, Truncate(keepLast)), key)
            == History(Do(Do(d, key, Compact), key, Truncate(keepLast)), key)
            <==> keepLast <= |History(d, key)|
  {
    var crashed, done := Crash(d, key, Compact, 1), Do(d, key, Compact);
    var lines, skip := Log(d, SanitizeKey(key)), ReadMeta(d, key).skip;
    CrashStates(d, key, Compact, 1);
    CompactKeepsHistory(d, key);
    TruncateKeepsLast(crashed, key, keepLast);
    TruncateKeepsLast(done, key, keepLast);
    DecodeLossless(lines, 0);
    DecodeLossless(lines, skip);
    DecodeSuffix(lines, 0, skip);
    SuffixLast(History(d, key), History(crashed, key), keepLast);
  }

  lemma {:induction false} SuffixLast(s: seq<Message>, t: seq<Message>, n: int)
    requires IsSuffix(s, t) && |s| < |t|
    ensures LastMessages(s, n) == LastMessages(t, n) <==> n <= |s|
  {}

  /** Compacting again does not repair it: the offset is 0 by then, and nothing is written. */
  lemma {:induction false} CompactDoesNotRepairCompact(d: Disk, key: string)
    requires ReadMeta(d, key).skip > 0
    ensures Writes(Crash(d, key, Compact, 1), key, Compact) == []
  {
    CrashStates(d, key, Compact, 1);
  }

  /** The next SetHistory does repair an interrupted one, or an interrupted compaction. */
  lemma {:induction false} SetHistoryRepairs(d: Disk, key: string, op: Op, h: seq<Message>, k: nat)
    requires k <= |Writes(d, key, op)|
    ensures var e := Do(Crash(d, key, op, k), key, SetHistory(h));
            History(e, key) == h && Summary(e, key) == Summary(Crash(d, key, op, k), key)
  {
    DoStates(Crash(d, key, op, k), key, SetHistory(h));
    DecodeEncoded(h, 0);
  }

  // ---------------------------------------------------------------- the plain in-memory list

  datatype Session = Session(messages: seq<Message>, summary: string)

  datatype Call = Call(key: string, op: Op)

  /** The in-memory manager; for it Compact is Save, which leaves the sessions alone. */
  function PlainDo(sessions: map<string, Session>, c: Call): map<string, Session> {
    var known := c.key in sessions;
    var s := if known then sessions[c.key] else Session([], "");
    match c.op
    case Add(m) => sessions[c.key := s.(messages := s.messages + [m])]
    case SetHistory(h) => if known then sessions[c.key := s.(messages := h)] else sessions
    case SetSummary(text) => if known then sessions[c.key := s.(summary := text)] else sessions
    case Truncate(keepLast) =>
      if known then sessions[c.key := s.(messages := LastMessages(s.messages, keepLast))] else sessions
    case Compact => sessions
  }

  function PlainHistory(sessions: map<string, Session>, key: string): seq<Message> {
    if key in sessions then sessions[key].messages else []
  }

  function PlainSummary(sessions: map<string, Session>, key: string): string {
    if key in sessions then sessions[key].summary else ""
  }

  ghost function RunStore(d: Disk, calls: seq<Call>): Disk {
    if calls == [] then d
    else
      var c := calls[|calls| - 1];
      Do(RunStore(d, calls[..|calls| - 1]), c.key, c.op)
  }

  ghost function RunPlain(calls: seq<Call>): map<string, Session> {
    if calls == [] then map[] else PlainDo(RunPlain(calls[..|calls| - 1]), calls[|calls| - 1])
  }

  const EMPTY := Disk(map[], map[], [])

  ghost predicate Agree(d: Disk, sessions: map<string, Session>, key: string) {
    History(d, key) == PlainHistory(sessions, key) && Summary(d, key) == PlainSummary(sessions, key)
  }

  /** The key shares no file with a different key of the run. */
  ghost predicate OwnFile(calls: seq<Call>, key: string) {
    forall c | c in calls && SanitizeKey(key) == SanitizeKey(c.key) :: key == c.key
  }

  /** A message is only added to keys that share their file with no other key of the run. */
  ghost predicate AddsOwnFiles(calls: seq<Call>) {
    forall i | 0 <= i < |calls| && calls[i].op.Add? :: OwnFile(calls, calls[i].key)
  }

  /** The manager ignores history and summary of a session that no message has been added to. */
  predicate IgnoredByPlain(op: Op) {
    (op.SetHistory? && op.history != []) || (op.SetSummary? && op.summary != "")
  }

  ghost predicate AddedBefore(calls: seq<Call>, i: nat)
    requires i < |calls|
  {
    exists j | 0 <= j < i :: calls[j].key == calls[i].key && calls[j].op.Add?
  }

  ghost predicate StartsWithAdd(calls: seq<Call>) {
    forall i | 0 <= i < |calls| && IgnoredByPlain(calls[i].op) :: AddedBefore(calls, i)
  }

  /** What the refinement rests on: logs without corrupt lines, offsets in range. */
  ghost predicate Sound(d: Disk) {
    SkipsInRange(d) && forall file | file in d.logs :: Lossless(d.logs[file])
  }

  lemma {:induction false} EncodeLossless(h: seq<Message>)
    ensures Lossless(Encode(h))
  {
    forall l | l in Encode(h) ensures l.Record? {
      var k :| 0 <= k < |h| && Encode(h)[k] == l;
    }
  }

  lemma {:induction false} DoSound(d: Disk, key: string, op: Op)
    requires Sound(d)
    ensures Sound(Do(d, key, op))
  {
    DoStates(d, key, op);
    var ws := Writes(d, key, op);
    assert ws[..|ws|] == ws;
    CrashKeepsSkips(d, key, op, |ws|);
    match op
    case SetHistory(h) => EncodeLossless(h);
    case Compact => EncodeLossless(History(d, key));
    case _ =>
  }

  /** What an operation does to its own session's history and summary. */
  lemma {:induction false} DoEffect(d: Disk, key: string, op: Op)
    requires Sound(d)
    ensures var e := Do(d, key, op);
            match op
            case Add(m) => History(e, key) == History(d, key) + [m] && Summary(e, key) == Summary(d, key)
            case SetHistory(h) => History(e, key) == h && Summary(e, key) == Summary(d, key)
            case SetSummary(s) => History(e, key) == History(d, key) && Summary(e, key) == s
            case Truncate(n) =>
              History(e, key) == LastMessages(History(d, key), n) && Summary(e, key) == Summary(d, key)
            case Compact => History(e, key) == History(d, key) && Summary(e, key) == Summary(d, key)
  {
    DoStates(d, key, op);
    match op
    case Add(m) =>
      DecodeAppend(Log(d, SanitizeKey(key)), Record(m), ReadMeta(d, key).skip);
      assert Decode([Record(m)], 0) == [m];
    case SetHistory(h) => DecodeEncoded(h, 0);
    case SetSummary(s) =>
    case Truncate(n) => TruncateKeepsLast(d, key, n);
    case Compact => CompactKeepsHistory(d, key);
  }

  lemma {:induction false} StepAgrees(d: Disk, sessions: map<string, Session>, c: Call, key: string)
    requires Sound(d) && Agree(d, sessions, key)
    requires SanitizeKey(key) == SanitizeKey(c.key) ==> key == c.key
    requires c.key in sessions || !IgnoredByPlain(c.op)
    ensures Agree(Do(d, c.key, c.op), PlainDo(sessions, c), key)
  {
    if key == c.key {
      OwnStepAgrees(d, sessions, c);
    } else {
      hide Do, PlainDo, History;
      DoSparesOthers(d, c.key, c.op, key);
      PlainSparesOthers(sessions, c, key);
    }
  }

  lemma {:induction false} PlainSparesOthers(sessions: map<string, Session>, c: Call, other: string)
    requires other != c.key
    ensures PlainHistory(PlainDo(sessions, c), other) == PlainHistory(sessions, other)
    ensures PlainSummary(PlainDo(sessions, c), other) == PlainSummary(sessions, other)
  {}

  lemma {:induction false} OwnStepAgrees(d: Disk, sessions: map<string, Session>, c: Call)
    requires Sound(d) && Agree(d, sessions, c.key)
    requires c.key in sessions || !IgnoredByPlain(c.op)
    ensures Agree(Do(d, c.key, c.op), PlainDo(sessions, c), c.key)
  {
    DoEffect(d, c.key, c.op);
  }

  lemma {:induction false} DoSparesOthers(d: Disk, key: string, op: Op, other: string)
    requires SanitizeKey(other) != SanitizeKey(key)
    ensures History(Do(d, key, op), other) == History(d, other)
    ensures ReadMeta(Do(d, key, op), other) == ReadMeta(d, other)
  {
    var ws := Writes(d, key, op);
    assert ws[..|ws|] == ws;
    CrashSparesOthers(d, key, op, |ws|, other);
  }

  lemma {:induction false} RunSound(calls: seq<Call>)
    ensures Sound(RunStore(EMPTY, calls))
  {
    if calls != [] {
      RunSound(calls[..|calls| - 1]);
      var c := calls[|calls| - 1];
      DoSound(RunStore(EMPTY, calls[..|calls| - 1]), c.key, c.op);
    }
  }

  lemma {:induction false} KnownIffAdded(calls: seq<Call>, key: string)
    ensures key in RunPlain(calls) <==> exists j | 0 <= j < |calls| :: calls[j].key == key && calls[j].op.Add?
  {
    if calls != [] {
      var init, c := calls[..|calls| - 1], calls[|calls| - 1];
      KnownIffAdded(init, key);
      assert forall j | 0 <= j < |init| :: calls[j] == init[j];
    }
  }

  lemma {:induction false} PrefixStartsWithAdd(calls: seq<Call>)
    requires calls != [] && StartsWithAdd(calls)
    ensures StartsWithAdd(calls[..|calls| - 1])
    ensures var c := calls[|calls| - 1];
            c.key in RunPlain(calls[..|calls| - 1]) || !IgnoredByPlain(c.op)
  {
    var init, n := calls[..|calls| - 1], |calls| - 1;
    forall i | 0 <= i < n && IgnoredByPlain(init[i].op) ensures AddedBefore(init, i) {
      assert AddedBefore(calls, i);
      var j :| 0 <= j < i && calls[j].key == calls[i].key && calls[j].op.Add?;
      assert init[j].key == init[i].key && init[j].op.Add?;
    }
    if IgnoredByPlain(calls[n].op) {
      assert AddedBefore(calls, n);
      var j :| 0 <= j < n && calls[j].key == calls[n].key && calls[j].op.Add?;
      assert init[j].key == calls[n].key && init[j].op.Add?;
    }
    KnownIffAdded(init, calls[n].key);
  }

  lemma {:induction false} RunAgrees(calls: seq<Call>, key: string)
    requires OwnFile(calls, key) && StartsWithAdd(calls)
    ensures Agree(RunStore(EMPTY, calls), RunPlain(calls), key)
  {
    if calls != [] {
      var init, c := calls[..|calls| - 1], calls[|calls| - 1];
      PrefixStartsWithAdd(calls);
      assert forall x | x in init :: x in calls;
      RunAgrees(init, key);
      RunSound(init);
      StepAgrees(RunStore(EMPTY, init), RunPlain(init), c, key);
    }
  }

  lemma {:induction false} RunDisagrees(calls: seq<Call>, i: nat)
    requires i < |calls| && IgnoredByPlain(calls[i].op) && !AddedBefore(calls, i)
    ensures !Agree(RunStore(EMPTY, calls[..i + 1]), RunPlain(calls[..i + 1]), calls[i].key)
  {
    var init, c := calls[..i], calls[i];
    assert calls[..i + 1][..i] == init && calls[..i + 1][i] == c;
    KnownIffAdded(init, c.key);
    assert forall j | 0 <= j < i :: init[j] == calls[j];
    assert c.key !in RunPlain(init) && PlainDo(RunPlain(init), c) == RunPlain(init);
    RunSound(init);
    DoEffect(RunStore(EMPTY, init), c.key, c.op);
  }

  // ---------------------------------------------------------------- keys that share a file

  /** Keys with the same file show the same. */
  lemma {:induction false} SameFileShowsSame(d: Disk, key: string, other: string)
    requires SanitizeKey(key) == SanitizeKey(other)
    ensures History(d, key) == History(d, other) && Summary(d, key) == Summary(d, other)
  {}

  ghost predicate AddsTo(calls: seq<Call>, file: string) {
    exists i | 0 <= i < |calls| :: calls[i].op.Add? && SanitizeKey(calls[i].key) == file
  }

  ghost predicate Blank(d: Disk, key: string) { History(d, key) == [] && Summary(d, key) == "" }

  lemma {:induction false} BlankStep(d: Disk, c: Call, key: string)
    requires Sound(d) && Blank(d, key) && !IgnoredByPlain(c.op)
    requires SanitizeKey(c.key) == SanitizeKey(key) ==> !c.op.Add?
    ensures Blank(Do(d, c.key, c.op), key)
  {
    if SanitizeKey(c.key) == SanitizeKey(key) {
      SameFileShowsSame(d, c.key, key);
      DoEffect(d, c.key, c.op);
      SameFileShowsSame(Do(d, c.key, c.op), c.key, key);
    } else {
      DoSparesOthers(d, c.key, c.op, key);
    }
  }

  lemma {:induction false} OtherStep(d: Disk, c: Call, key: string)
    requires Blank(d, key) && SanitizeKey(c.key) != SanitizeKey(key)
    ensures Blank(Do(d, c.key, c.op), key)
  {
    DoSparesOthers(d, c.key, c.op, key);
  }

  /** A file that no message is added to stays blank. */
  lemma {:induction false} StaysBlank(calls: seq<Call>, key: string)
    requires StartsWithAdd(calls) && !AddsTo(calls, SanitizeKey(key))
    ensures Blank(RunStore(EMPTY, calls), key)
  {
    if calls != [] {
      var init, n := calls[..|calls| - 1], |calls| - 1;
      var c := calls[n];
      PrefixStartsWithAdd(calls);
      forall i | 0 <= i < n && init[i].op.Add? ensures SanitizeKey(init[i].key) != SanitizeKey(key) {
        assert calls[i] == init[i];
      }
      StaysBlank(init, key);
      RunSound(init);
      if SanitizeKey(c.key) == SanitizeKey(key) {
        NotIgnored(calls, n);
        BlankStep(RunStore(EMPTY, init), c, key);
      } else {
        OtherStep(RunStore(EMPTY, init), c, key);
      }
    }
  }

  lemma {:induction false} NotIgnored(calls: seq<Call>, i: nat)
    requires StartsWithAdd(calls) && i < |calls| && !AddsTo(calls, SanitizeKey(calls[i].key))
    ensures !IgnoredByPlain(calls[i].op)
  {
    assert forall j | 0 <= j < |calls| && calls[j].key == calls[i].key :: !calls[j].op.Add?;
    assert !AddedBefore(calls, i);
  }

  lemma {:induction false} BlankAgrees(calls: seq<Call>, key: string)
    requires StartsWithAdd(calls) && !AddsTo(calls, SanitizeKey(key))
    ensures Agree(RunStore(EMPTY, calls), RunPlain(calls), key)
  {
    StaysBlank(calls, key);
    KnownIffAdded(calls, key);
    assert forall j | 0 <= j < |calls| && calls[j].key == key :: !calls[j].op.Add?;
  }

  /** A key either has its file to itself, or the file is one that no message is added to. */
  lemma {:induction false} KeyAgrees(calls: seq<Call>, n: nat, i: nat)
    requires StartsWithAdd(calls) && AddsOwnFiles(calls) && n <= |calls| && i < |calls|
    ensures Agree(RunStore(EMPTY, calls[..n]), RunPlain(calls[..n]), calls[i].key)
  {
    var key, init := calls[i].key, calls[..n];
    PrefixesStartWithAdd(calls, n);
    assert forall c | c in init :: c in calls;
    if OwnFile(calls, key) {
      RunAgrees(init, key);
    } else {
      var c :| c in calls && SanitizeKey(key) == SanitizeKey(c.key) && key != c.key;
      assert calls[i] in calls;
      forall j | 0 <= j < n && init[j].op.Add? ensures SanitizeKey(init[j].key) != SanitizeKey(key) {
        assert init[j] == calls[j] && OwnFile(calls, calls[j].key);
      }
      BlankAgrees(init, key);
    }
  }

  /** A message added to one of two keys with the same file shows under both; the manager keeps them apart. */
  lemma {:induction false} SharedFileDisagrees(calls: seq<Call>, i: nat, j: nat)
    requires i < |calls| && j < |calls| && calls[i].op.Add?
    requires SanitizeKey(calls[i].key) == SanitizeKey(calls[j].key) && calls[i].key != calls[j].key
    ensures !(Agree(RunStore(EMPTY, calls[..i]), RunPlain(calls[..i]), calls[j].key)
              && Agree(RunStore(EMPTY, calls[..i + 1]), RunPlain(calls[..i + 1]), calls[j].key))
  {
    var c, other, d := calls[i], calls[j].key, RunStore(EMPTY, calls[..i]);
    assert calls[..i + 1][..i] == calls[..i] && calls[..i + 1][i] == c;
    RunSound(calls[..i]);
    DoEffect(d, c.key, c.op);
    SameFileShowsSame(d, c.key, other);
    SameFileShowsSame(Do(d, c.key, c.op), c.key, other);
    assert PlainHistory(PlainDo(RunPlain(calls[..i]), c), other) == PlainHistory(RunPlain(calls[..i]), other);
    assert |History(d, other) + [c.op.message]| == |History(d, other)| + 1;
  }

  /** Both show every key of the run alike after each call. */
  ghost predicate AlwaysAgree(calls: seq<Call>) {
    forall n, i | 0 <= n <= |calls| && 0 <= i < |calls| ::
      Agree(RunStore(EMPTY, calls[..n]), RunPlain(calls[..n]), calls[i].key)
  }

  /** The JSONL store refines the plain list, for all calls on all keys, however the sessions interleave: if
      and only if no history or summary is set on a session before its first message, and no message is
      added to a key that shares its file with another key of the run. */
  lemma {:induction false} StoreRefinesList(calls: seq<Call>)
    ensures AlwaysAgree(calls) <==> StartsWithAdd(calls) && AddsOwnFiles(calls)
  {
    if StartsWithAdd(calls) && AddsOwnFiles(calls) {
      forall n, i | 0 <= n <= |calls| && 0 <= i < |calls|
        ensures Agree(RunStore(EMPTY, calls[..n]), RunPlain(calls[..n]), calls[i].key)
      {
        KeyAgrees(calls, n, i);
      }
    } else if !StartsWithAdd(calls) {
      var i :| 0 <= i < |calls| && IgnoredByPlain(calls[i].op) && !AddedBefore(calls, i);
      RunDisagrees(calls, i);
    } else {
      var i :| 0 <= i < |calls| && calls[i].op.Add? && !OwnFile(calls, calls[i].key);
      var c :| c in calls && SanitizeKey(calls[i].key) == SanitizeKey(c.key) && calls[i].key != c.key;
      var j :| 0 <= j < |calls| && calls[j] == c;
      SharedFileDisagrees(calls, i, j);
    }
  }

  /** Such keys: "a:b" and "a_b" have one file, so that each shows the other's messages. */
  lemma {:induction false} ColonSharesFile(m: Message) returns (calls: seq<Call>)
    ensures StartsWithAdd(calls) && !AlwaysAgree(calls)
    ensures forall i | 0 <= i < |calls| :: calls[i].op == Add(m)
  {
    calls := [Call("a:b", Add(m)), Call("a_b", Add(m))];
    assert SanitizeKey("a:b") == SanitizeKey("a_b");
    assert !OwnFile(calls, calls[0].key) by { assert calls[1] in calls; }
    StoreRefinesList(calls);
  }

  lemma {:induction false} PrefixesStartWithAdd(calls: seq<Call>, n: nat)
    requires n <= |calls| && StartsWithAdd(calls)
    ensures StartsWithAdd(calls[..n])
    decreases |calls|
  {
    if n < |calls| {
      PrefixStartsWithAdd(calls);
      PrefixesStartWithAdd(calls[..|calls| - 1], n);
      assert calls[..|calls| - 1][..n] == calls[..n];
    } else {
      assert calls[..n] == calls;
    }
  }
}
