/**
  The two loops that talk to a provider. Each round appends an assistant message with tool calls
  and the results of the calls, which run in parallel; a request that is too long for the provider
  makes the agent loop compress the stored session and start over from it.
*/
module AgentLoop {
  import opened Chat
  import opened Sanitizer
  import Text

  // ---------------------------------------------------------------- requests

  /** One system message, in front; every tool message in a run behind a turn; every call answered. */
  ghost predicate Ready(ms: seq<Message>) {
    && ms != [] && ms[0].role.System?
    && (forall i | 0 < i < |ms| :: !ms[i].role.System?)
    && (forall i | 0 <= i < |ms| && IsTool(ms[i]) :: InRun(ms, i))
    && AllAnswered(ms)
  }

  function SystemMessage(prompt: string): Message { Message(System, prompt, [], "") }

  function UserMessage(content: string): Message { Message(User, content, [], "") }

  /** System prompt, sanitised history, and the current message unless it is blank. */
  function BuildMessages(history: seq<Message>, prompt: string, current: string): seq<Message> {
    [SystemMessage(prompt)] + Sanitize(history)
    + if Text.TrimSpace(current) == "" then [] else [UserMessage(current)]
  }

  lemma {:induction false} ReadyAppendPlain(ms: seq<Message>, m: Message)
    requires Ready(ms) && !IsTurn(m) && !IsTool(m) && !m.role.System?
    ensures Ready(ms + [m])
  {
    RunsStay(ms, [m]);
  }

  /** Runs and answers within a list stay when it grows at the end. */
  lemma {:induction false} RunsStay(ms: seq<Message>, t: seq<Message>)
    ensures forall i | 0 <= i < |ms| && InRun(ms, i) :: InRun(ms + t, i)
    ensures forall i | 0 <= i < |ms| && Answered(ms, i) :: Answered(ms + t, i)
  {
    forall i | 0 <= i < |ms| && InRun(ms, i) ensures InRun(ms + t, i) { RunExtends(ms, t, i); }
    forall i | 0 <= i < |ms| && Answered(ms, i) ensures Answered(ms + t, i) { AnsweredExtends(ms, t, i); }
  }

  lemma {:induction false} RunExtends(ms: seq<Message>, t: seq<Message>, i: int)
    requires 0 <= i < |ms| && InRun(ms, i)
    ensures InRun(ms + t, i)
  {
    var k :| 0 <= k < i && IsTurn(ms[k]) && ToolsOnly(ms, k + 1, i + 1);
    assert IsTurn((ms + t)[k]) && ToolsOnly(ms + t, k + 1, i + 1);
  }

  lemma {:induction false} RunShifts(m: Message, h: seq<Message>, i: int)
    requires 0 <= i < |h| && InRun(h, i)
    ensures InRun([m] + h, i + 1)
  {
    var k :| 0 <= k < i && IsTurn(h[k]) && ToolsOnly(h, k + 1, i + 1);
    var g := [m] + h;
    forall n | k + 2 <= n < i + 2 ensures IsTool(g[n]) { assert g[n] == h[n - 1]; }
    assert IsTurn(g[k + 1]) && ToolsOnly(g, k + 2, i + 2);
  }

  lemma {:induction false} AnswerShifts(m: Message, h: seq<Message>, i: int)
    requires 0 <= i < |h| && Answered(h, i)
    ensures Answered([m] + h, i + 1)
  {
    var g, n := [m] + h, i + 1;
    forall id | id in g[n].calls ensures exists j :: AnsweredBy(g, n, id, j) {
      var j :| AnsweredBy(h, i, id, j);
      assert AnsweredBy(g, n, id, j + 1);
    }
  }

  lemma {:induction false} HistoryReady(history: seq<Message>, prompt: string)
    requires WellFormed(history)
    ensures Ready([SystemMessage(prompt)] + history)
  {
    var m := SystemMessage(prompt);
    var ms := [m] + history;
    forall i | 0 <= i < |ms| && i > 0 ensures !ms[i].role.System? && (IsTool(ms[i]) ==> InRun(ms, i)) {
      assert Placed(history, i - 1);
      if IsTool(ms[i]) { RunShifts(m, history, i - 1); }
    }
    forall i | 0 <= i < |ms| && IsTurn(ms[i]) ensures Answered(ms, i) { AnswerShifts(m, history, i - 1); }
  }

  /** Whatever the stored history looks like, the request built from it is acceptable. */
  lemma {:induction false} BuiltIsReady(history: seq<Message>, prompt: string, current: string)
    ensures Ready(BuildMessages(history, prompt, current))
  {
    SanitizedIsWellFormed(history);
    HistoryReady(Sanitize(history), prompt);
    var base := [SystemMessage(prompt)] + Sanitize(history);
    if Text.TrimSpace(current) == "" {
      assert base + [] == base;
    } else {
      ReadyAppendPlain(base, UserMessage(current));
    }
  }

  // ---------------------------------------------------------------- rounds of tool calls

  /** What a tool gives back: the text for the model, and its error if it failed. */
  datatype ToolResult = ToolResult(forLLM: string, error: string)

  function ContentForLLM(r: ToolResult): string {
    if r.forLLM == "" then r.error else r.forLLM
  }

  function TurnMessage(content: string, ids: seq<string>): Message { Message(Assistant, content, ids, "") }

  function ResultMessage(id: string, r: ToolResult): Message { Message(Tool, ContentForLLM(r), [], id) }

  /** The messages of a round: the turn, then the results in the order of the calls. */
  function Round(content: string, ids: seq<string>, results: seq<ToolResult>): (block: seq<Message>)
    requires |ids| == |results|
    ensures |block| == |ids| + 1
  {
    [TurnMessage(content, ids)]
    + seq(|ids|, k requires 0 <= k < |ids| == |results| => ResultMessage(ids[k], results[k]))
  }

  lemma {:induction false} RoundAnswered(content: string, ids: seq<string>, results: seq<ToolResult>)
    requires |ids| == |results|
    ensures ToolsOnly(Round(content, ids, results), 1, |ids| + 1) && Answered(Round(content, ids, results), 0)
  {
    var block := Round(content, ids, results);
    assert forall k | 1 <= k < |block| :: block[k] == ResultMessage(ids[k - 1], results[k - 1]);
    forall id | id in block[0].calls ensures exists j :: AnsweredBy(block, 0, id, j) {
      var k :| 0 <= k < |ids| && ids[k] == id;
      assert AnsweredBy(block, 0, id, k + 1);
    }
  }

  /** A round keeps a request acceptable. */
  lemma {:induction false} RoundKeepsReady(ms: seq<Message>, content: string, ids: seq<string>, results: seq<ToolResult>)
    requires Ready(ms) && ids != [] && |ids| == |results|
    ensures Ready(ms + Round(content, ids, results))
  {
    var block := Round(content, ids, results);
    RoundAnswered(content, ids, results);
    BlockKeepsReady(ms, block);
  }

  lemma {:induction false} BlockKeepsReady(ms: seq<Message>, block: seq<Message>)
    requires Ready(ms) && block != [] && IsTurn(block[0]) && ToolsOnly(block, 1, |block|) && Answered(block, 0)
    ensures Ready(ms + block)
  {
    var g, n := ms + block, |ms|;
    RunsStay(ms, block);
    AnsweredShifts(ms, block);
    assert g[n] == block[0];
    forall k | n < k < |g| ensures IsTool(g[k]) { assert g[k] == block[k - n]; }
    forall i | n < i < |g| ensures InRun(g, i) {
      assert IsTurn(g[n]) && ToolsOnly(g, n + 1, i + 1);
    }
  }

  function Slots(n: nat): (s: set<nat>)
    ensures forall k: nat :: k in s <==> k < n
  {
    if n == 0 then {} else Slots(n - 1) + {n - 1}
  }

  /** Calls run in parallel and finish in any order; each writes its own slot. */
  method ExecuteInParallel(ids: seq<string>, run: nat -> ToolResult) returns (results: array<ToolResult>)
    ensures fresh(results) && results.Length == |ids|
    ensures forall k | 0 <= k < |ids| :: results[k] == run(k)
  {
    results := new ToolResult[|ids|](_ => ToolResult("", ""));
    var running := Slots(|ids|);
    while running != {}
      invariant running <= Slots(|ids|)
      invariant forall k: nat | k < |ids| && k !in running :: results[k] == run(k)
      decreases running
    {
      var idx :| idx in running;
      results[idx] := run(idx);
      running := running - {idx};
    }
  }

  // ---------------------------------------------------------------- compression

  /** Decimal digits of n. */
  function Decimal(n: nat): string {
    if n < 10 then [('0' as int + n) as char] else Decimal(n / 10) + [('0' as int + n % 10) as char]
  }

  function CompressionNote(dropped: nat): string {
    "\n\n[System Note: Emergency compression dropped " + Decimal(dropped) + " oldest messages due to context limit]"
  }

  /** The first message with a note, the newer half of the conversation, and the last message. */
  function Compressed(h: seq<Message>): seq<Message> {
    if |h| <= 4 then h
    else
      var conversation := h[1..|h| - 1];
      var mid := |conversation| / 2;
      [h[0].(content := h[0].content + CompressionNote(mid))] + conversation[mid..] + [h[|h| - 1]]
  }

  lemma {:induction false} KeptIsSuffix(h: seq<Message>, mid: nat)
    requires mid + 2 <= |h|
    ensures h[1..|h| - 1][mid..] + [h[|h| - 1]] == h[mid + 1..]
  {}

  /** Compression drops messages from long histories only, and always keeps the last one. */
  lemma {:induction false} CompressionShrinks(h: seq<Message>)
    ensures |h| > 4 <==> |Compressed(h)| < |h|
    ensures h != [] ==> Compressed(h) != [] && Compressed(h)[|Compressed(h)| - 1] == h[|h| - 1]
    ensures |h| > 4 ==> exists mid | 0 < mid < |h| - 1 :: Compressed(h)[1..] == h[mid..]
  {
    if |h| > 4 {
      hide CompressionNote;
      var mid := (|h| - 2) / 2;
      KeptIsSuffix(h, mid);
      assert Compressed(h)[1..] == h[1..|h| - 1][mid..] + [h[|h| - 1]];
    }
  }

  /** The session as the loops use it; the stores show the same list. */
  class Session {
    var history: seq<Message>
    var summary: string

    method AddFullMessage(msg: Message)
      modifies this`history
      ensures history == old(history) + [msg]
    {
      history := history + [msg];
    }

    method ForceCompression()
      modifies this`history
      ensures history == Compressed(old(history))
    {
      if |history| <= 4 {
        return;
      }
      var conversation := history[1..|history| - 1];
      if |conversation| == 0 {
        return;
      }
      var mid := |conversation| / 2;
      var newHistory := [history[0].(content := history[0].content + CompressionNote(mid))];
      newHistory := newHistory + conversation[mid..];
      newHistory := newHistory + [history[|history| - 1]];
      history := newHistory;
    }
  }

  // ---------------------------------------------------------------- the loops

  datatype Reply =
    | Answer(content: string)
    | Calls(content: string, ids: seq<string>)
    | TimeoutError
    | ContextError
    | OtherError

  datatype Outcome = Done(content: string, iterations: nat) | Failed(error: Reply)

  predicate IsError(r: Reply) { r.TimeoutError? || r.ContextError? || r.OtherError? }

  const MAX_RETRIES := 2

  /** The results of the calls in the reply to request n, in the order of the calls. */
  function Results(tools: (nat, nat) -> ToolResult, n: nat, calls: nat): (rs: seq<ToolResult>)
    ensures |rs| == calls
  {
    seq(calls, k requires 0 <= k < calls => tools(n, k))
  }

  /** A request, and the history of the stored session when it is sent. */
  datatype Sent = Sent(messages: seq<Message>, history: seq<Message>)

  /** How request n + 1 comes about from request n and its reply: by a round of tool calls, which goes to
      the session as well; by repetition; or from the compressed session. `system` is the system prompt. */
  ghost predicate Follows(x: Sent, reply: Reply, tools: (nat, nat) -> ToolResult, n: nat, system: string, y: Sent) {
    match reply
    case Calls(content, ids) =>
      ids != [] && y == Extended(x, Round(content, ids, Results(tools, n, |ids|)))
    case TimeoutError => y == x
    case ContextError => y == Rebuilt(x.history, system)
    case _ => false
  }

  function Extended(x: Sent, block: seq<Message>): Sent { Sent(x.messages + block, x.history + block) }

  function Rebuilt(history: seq<Message>, system: string): Sent {
    Sent(BuildMessages(Compressed(history), system, ""), Compressed(history))
  }

  ghost predicate IsRun(run: seq<Sent>, provider: nat -> Reply, tools: (nat, nat) -> ToolResult, system: string) {
    forall n: nat | n < |run| - 1 :: Follows(run[n], provider(n), tools, n, system, run[n + 1])
  }

  ghost predicate AllReady(run: seq<Sent>) { forall x | x in run :: Ready(x.messages) }

  lemma {:induction false} NextRequest(run: seq<Sent>, provider: nat -> Reply, tools: (nat, nat) -> ToolResult,
                                       system: string, y: Sent, n: nat)
    requires IsRun(run, provider, tools, system) && n == |run| - 1
    requires Follows(run[n], provider(n), tools, n, system, y)
    ensures IsRun(run + [y], provider, tools, system)
  {
    var all := run + [y];
    forall k: nat | k < |all| - 1 ensures Follows(all[k], provider(k), tools, k, system, all[k + 1]) {
      if k < n { assert Follows(run[k], provider(k), tools, k, system, run[k + 1]); }
    }
  }

  /** The same rounds have been added to both. */
  ghost predicate InStep(x: Sent, y: Sent) {
    x.messages <= y.messages && y.history == x.history + y.messages[|x.messages|..]
  }

  lemma {:induction false} InStepOn(x: Sent, y: Sent, block: seq<Message>)
    requires InStep(x, y)
    ensures InStep(x, Extended(y, block))
  {
    var added := y.messages[|x.messages|..];
    assert (y.messages + block)[|x.messages|..] == added + block;
    assert x.history + (added + block) == (x.history + added) + block;
  }

  lemma {:induction false} FollowsInStep(x: Sent, y: Sent, reply: Reply, tools: (nat, nat) -> ToolResult, n: nat,
                                         system: string, z: Sent)
    requires InStep(x, y) && Follows(y, reply, tools, n, system, z) && !reply.ContextError?
    ensures InStep(x, z)
  {
    if reply.Calls? { InStepOn(x, y, Round(reply.content, reply.ids, Results(tools, n, |reply.ids|))); }
  }

  lemma {:induction false} InStepSelf(x: Sent)
    ensures InStep(x, x)
  {
    assert x.history + [] == x.history;
  }

  /** Since the last compression, or the beginning, requests and session have grown by the same rounds; the
      compressed session is what the first request since then was built from. */
  lemma {:induction false} SinceCompression(run: seq<Sent>, provider: nat -> Reply, tools: (nat, nat) -> ToolResult,
                                            system: string, n: nat) returns (k: nat)
    requires IsRun(run, provider, tools, system) && n < |run|
    ensures k <= n && InStep(run[k], run[n])
    ensures forall i: nat | k <= i < n :: !provider(i).ContextError?
    ensures k > 0 ==> provider(k - 1).ContextError? && run[k] == Rebuilt(run[k - 1].history, system)
  {
    hide Compressed, BuildMessages;
    InStepSelf(run[n]);
    if n == 0 {
      k := 0;
    } else {
      assert Follows(run[n - 1], provider(n - 1), tools, n - 1, system, run[n]);
      if provider(n - 1).ContextError? {
        k := n;
      } else {
        k := SinceCompression(run, provider, tools, system, n - 1);
        FollowsInStep(run[k], run[n - 1], provider(n - 1), tools, n - 1, system, run[n]);
      }
    }
  }

  predicate Retriable(reply: Reply) { reply.TimeoutError? || reply.ContextError? }

  predicate IsRound(reply: Reply) { reply.Calls? && reply.ids != [] }

  /** How many failed attempts in a row stand right before request n. */
  function Attempt(provider: nat -> Reply, n: nat): nat {
    if n > 0 && (provider(n - 1) == TimeoutError || provider(n - 1) == ContextError) then Attempt(provider, n - 1) + 1
    else 0
  }

  /** The rounds of tool calls before request n. */
  function Rounds(provider: nat -> Reply, n: nat): nat {
    if n == 0 then 0 else Rounds(provider, n - 1) + if IsRound(provider(n - 1)) then 1 else 0
  }

  /** The reply to request n ends the loop: no tool calls, an error without remedy, or the third in a row. */
  predicate Final(provider: nat -> Reply, n: nat) {
    !IsRound(provider(n))
    && (provider(n) == TimeoutError || provider(n) == ContextError ==> Attempt(provider, n) >= 2)
  }

  ghost predicate NoneFinal(provider: nat -> Reply, n: nat) { forall k: nat | k < n :: !Final(provider, k) }

  /** Request n is sent: nothing has ended the loop, and there are rounds left. */
  ghost predicate IsSent(provider: nat -> Reply, maxIterations: nat, n: nat) {
    NoneFinal(provider, n) && Rounds(provider, n) < maxIterations
  }

  /** The number of requests sent. */
  ghost predicate IsLength(provider: nat -> Reply, maxIterations: nat, n: nat) {
    (n > 0 ==> IsSent(provider, maxIterations, n - 1)) && !IsSent(provider, maxIterations, n)
  }

  /** The run, and where it leaves the messages and the session. */
  ghost predicate Completed(run: seq<Sent>, last: Sent, outcome: Outcome, maxIterations: nat,
                            provider: nat -> Reply, tools: (nat, nat) -> ToolResult, system: string)
  {
    && IsLength(provider, maxIterations, |run|)
    && if run != [] && Final(provider, |run| - 1) then
         var n := |run| - 1;
         && IsRun(run, provider, tools, system) && last == run[n]
         && outcome == if IsError(provider(n)) then Failed(provider(n))
                       else Done(provider(n).content, Rounds(provider, n) + 1)
       else
         IsRun(run + [last], provider, tools, system) && outcome == Done("", maxIterations)
  }

  // ---------------------------------------------------------------- there is one run only

  lemma {:induction false} RoundsGrow(provider: nat -> Reply, n: nat, m: nat)
    requires n <= m
    ensures Rounds(provider, n) <= Rounds(provider, m)
  {
    if n < m { RoundsGrow(provider, n, m - 1); }
  }

  lemma {:induction false} LengthIsUnique(provider: nat -> Reply, maxIterations: nat, n: nat, m: nat)
    requires IsLength(provider, maxIterations, n) && IsLength(provider, maxIterations, m)
    ensures n == m
  {
    if n < m { RoundsGrow(provider, n, m - 1); }
    if m < n { RoundsGrow(provider, m, n - 1); }
  }

  lemma {:induction false} RunsAgree(a: seq<Sent>, b: seq<Sent>, provider: nat -> Reply, tools: (nat, nat) -> ToolResult,
                                     system: string, n: nat)
    requires IsRun(a, provider, tools, system) && IsRun(b, provider, tools, system)
    requires n < |a| == |b| && a[0] == b[0]
    ensures a[n] == b[n]
  {
    hide BuildMessages, Compressed;
    if n > 0 {
      RunsAgree(a, b, provider, tools, system, n - 1);
      assert Follows(a[n - 1], provider(n - 1), tools, n - 1, system, a[n]);
      assert Follows(b[n - 1], provider(n - 1), tools, n - 1, system, b[n]);
    }
  }

  lemma {:induction false} RunIsUnique(a: seq<Sent>, b: seq<Sent>, provider: nat -> Reply, tools: (nat, nat) -> ToolResult,
                                       system: string)
    requires IsRun(a, provider, tools, system) && IsRun(b, provider, tools, system)
    requires |a| == |b| > 0 && a[0] == b[0]
    ensures a == b
  {
    forall n | 0 <= n < |a| ensures a[n] == b[n] { RunsAgree(a, b, provider, tools, system, n); }
  }

  /** The beginning, the replies and the tools leave the loop no choice of requests, messages or outcome. */
  lemma {:induction false} CompletionIsUnique(a: seq<Sent>, x: Sent, v: Outcome, b: seq<Sent>, y: Sent, w: Outcome,
                                              maxIterations: nat, provider: nat -> Reply,
                                              tools: (nat, nat) -> ToolResult, system: string)
    requires Completed(a, x, v, maxIterations, provider, tools, system) && (a + [x])[0] == (b + [y])[0]
    requires Completed(b, y, w, maxIterations, provider, tools, system)
    ensures a == b && x == y && v == w
  {
    hide IsRun;
    LengthIsUnique(provider, maxIterations, |a|, |b|);
    if a != [] && Final(provider, |a| - 1) {
      RunIsUnique(a, b, provider, tools, system);
    } else {
      RunIsUnique(a + [x], b + [y], provider, tools, system);
      assert (a + [x])[|a|] == x && (b + [y])[|b|] == y;
      assert (a + [x])[..|a|] == a && (b + [y])[..|b|] == b;
    }
  }

  // ---------------------------------------------------------------- the loop of an agent

  /** `provider` answers the n-th request of the run, `tools` the k-th call of its reply, and
      `prompt` gives the system prompt for a summary. `run` is what the provider was sent. */
  method RunLLMIteration(session: Session, initial: seq<Message>, maxIterations: nat, prompt: string -> string,
                         provider: nat -> Reply, tools: (nat, nat) -> ToolResult)
      returns (outcome: Outcome, run: seq<Sent>, messages: seq<Message>)
    requires Ready(initial)
    modifies session`history
    ensures AllReady(run) && |run| <= 3 * maxIterations
    ensures (run + [Sent(messages, session.history)])[0] == Sent(initial, old(session.history))
    ensures Completed(run, Sent(messages, session.history), outcome, maxIterations, provider, tools, prompt(session.summary))
  {
    hide Ready, BuildMessages, Compressed, IsRun, NoneFinal, Rounds, Attempt, Final, IsSent, IsLength, AllReady;
    run, messages := [], initial;
    ghost var system, first := prompt(session.summary), Sent(initial, session.history);
    var iteration := 0;
    Starts(first, maxIterations, provider, tools, system);
    while iteration < maxIterations
      invariant iteration <= maxIterations && |run| <= 3 * iteration
      invariant Looping(first, run, Sent(messages, session.history), iteration, maxIterations, provider, tools, system)
    {
      iteration := iteration + 1;
      ghost var sent := |run|;
      var reply: Reply;
      reply, messages, run := CallWithRetries(session, messages, prompt, provider, tools, run, first);
      ghost var x := Sent(messages, session.history);
      if IsError(reply) {
        Ends(first, run, x, sent, iteration, maxIterations, provider, tools, system);
        return Failed(reply), run, messages;
      }
      if reply.Answer? || reply.ids == [] {
        Ends(first, run, x, sent, iteration, maxIterations, provider, tools, system);
        return Done(reply.content, iteration), run, messages;
      }
      var call := |run| - 1;
      var results := ExecuteInParallel(reply.ids, (k: nat) => tools(call, k));
      assert results[..] == Results(tools, call, |reply.ids|);
      Continues(first, run, x, sent, iteration, maxIterations, provider, tools, system, results[..]);
      messages := AppendRound(session, messages, reply.content, reply.ids, results[..]);
    }
    UsedUp(first, run, Sent(messages, session.history), maxIterations, provider, tools, system);
    outcome := Done("", iteration);
  }

  /** Between two rounds: the requests so far, and the one to be sent next. */
  ghost predicate Looping(first: Sent, run: seq<Sent>, x: Sent, iteration: nat, maxIterations: nat,
                          provider: nat -> Reply, tools: (nat, nat) -> ToolResult, system: string)
  {
    && Sending(first, run, x, provider, tools, system)
    && NoneFinal(provider, |run|) && Rounds(provider, |run|) == iteration && Attempt(provider, |run|) == 0
    && (run != [] ==> IsSent(provider, maxIterations, |run| - 1))
  }

  lemma {:induction false} Starts(first: Sent, maxIterations: nat, provider: nat -> Reply, tools: (nat, nat) -> ToolResult,
                                  system: string)
    requires Ready(first.messages)
    ensures Looping(first, [], first, 0, maxIterations, provider, tools, system)
  {}

  /** A call with its retries: from request m on to request n, the last of it. */
  ghost predicate Called(provider: nat -> Reply, m: nat, n: nat) {
    && NoneFinal(provider, n) && Rounds(provider, n) == Rounds(provider, m)
    && (IsRound(provider(n)) || Final(provider, n))
  }

  lemma {:induction false} Ends(first: Sent, run: seq<Sent>, x: Sent, m: nat, iteration: nat, maxIterations: nat,
                                provider: nat -> Reply, tools: (nat, nat) -> ToolResult, system: string)
    requires WasSent(first, run, x, provider, tools, system) && Called(provider, m, |run| - 1)
    requires Rounds(provider, m) == iteration - 1 < maxIterations && !IsRound(provider(|run| - 1))
    ensures AllReady(run) && (run + [x])[0] == first
    ensures var reply := provider(|run| - 1);
      Completed(run, x, if IsError(reply) then Failed(reply) else Done(reply.content, iteration),
                maxIterations, provider, tools, system)
  {}

  lemma {:induction false} Continues(first: Sent, run: seq<Sent>, x: Sent, m: nat, iteration: nat, maxIterations: nat,
                                     provider: nat -> Reply, tools: (nat, nat) -> ToolResult, system: string,
                                     results: seq<ToolResult>)
    requires WasSent(first, run, x, provider, tools, system) && Called(provider, m, |run| - 1)
    requires Rounds(provider, m) == iteration - 1 < maxIterations && IsRound(provider(|run| - 1))
    requires var reply := provider(|run| - 1); results == Results(tools, |run| - 1, |reply.ids|)
    ensures var reply := provider(|run| - 1);
      Looping(first, run, Extended(x, Round(reply.content, reply.ids, results)), iteration, maxIterations,
              provider, tools, system)
  {
    var reply := provider(|run| - 1);
    SendRound(first, run, provider, tools, system, reply.content, reply.ids, results);
  }

  lemma {:induction false} UsedUp(first: Sent, run: seq<Sent>, x: Sent, maxIterations: nat, provider: nat -> Reply,
                                  tools: (nat, nat) -> ToolResult, system: string)
    requires Looping(first, run, x, maxIterations, maxIterations, provider, tools, system)
    ensures AllReady(run) && (run + [x])[0] == first
    ensures Completed(run, x, Done("", maxIterations), maxIterations, provider, tools, system)
  {}

  /** Appends the turn and its results to the messages and to the session alike. */
  method AppendRound(session: Session, messages: seq<Message>, content: string, ids: seq<string>,
                     results: seq<ToolResult>)
      returns (next: seq<Message>)
    requires |ids| == |results|
    modifies session`history
    ensures next == messages + Round(content, ids, results)
    ensures session.history == old(session.history) + Round(content, ids, results)
  {
    var block := [TurnMessage(content, ids)];
    next := messages + block;
    session.AddFullMessage(block[0]);
    ghost var whole := Round(content, ids, results);
    for k := 0 to |results|
      invariant next == messages + whole[..k + 1]
      invariant session.history == old(session.history) + whole[..k + 1]
    {
      var msg := ResultMessage(ids[k], results[k]);
      assert whole[..k + 2] == whole[..k + 1] + [msg];
      next := next + [msg];
      session.AddFullMessage(msg);
    }
    assert whole[..|ids| + 1] == whole;
  }

  /** A timeout repeats the request, a context error compresses the session and rebuilds it, at most
      twice; any other error, or a third one, is final. */
  method CallWithRetries(session: Session, initial: seq<Message>, prompt: string -> string, provider: nat -> Reply,
                         tools: (nat, nat) -> ToolResult, sent: seq<Sent>, ghost first: Sent)
      returns (reply: Reply, messages: seq<Message>, run: seq<Sent>)
    requires Sending(first, sent, Sent(initial, session.history), provider, tools, prompt(session.summary))
    requires NoneFinal(provider, |sent|) && Attempt(provider, |sent|) == 0
    modifies session`history
    ensures WasSent(first, run, Sent(messages, session.history), provider, tools, prompt(session.summary))
    ensures sent + [Sent(initial, old(session.history))] <= run && |run| <= |sent| + 3
    ensures reply == provider(|run| - 1)
    ensures Called(provider, |sent|, |run| - 1)
  {
    hide Compressed, BuildMessages, Ready, Sending, WasSent, NoneFinal, Attempt, Rounds, Final, Called, Follows;
    messages, run := initial, sent;
    ghost var system := prompt(session.summary);
    var retry := 0;
    FirstTry(first, run, Sent(messages, session.history), provider, tools, system);
    while true
      invariant 0 <= retry <= MAX_RETRIES
      invariant Retrying(first, run, Sent(messages, session.history), |sent|, retry, provider, tools, system)
      invariant sent + [Sent(initial, old(session.history))] <= run + [Sent(messages, session.history)]
      decreases MAX_RETRIES - retry
    {
      reply := provider(|run|);
      ghost var before, x := run, Sent(messages, session.history);
      run := run + [Sent(messages, session.history)];
      if !Retriable(reply) || retry == MAX_RETRIES {
        GivesUp(first, before, x, |sent|, retry, provider, tools, system);
        return;
      }
      messages := PrepareRetry(session, messages, prompt, reply);
      TriesAgain(first, before, x, Sent(messages, session.history), |sent|, retry, provider, tools, system);
      PrefixStays(sent + [Sent(initial, old(session.history))], run, Sent(messages, session.history));
      retry := retry + 1;
    }
  }

  /** After this many failed attempts since request m: the requests so far, and the next attempt. */
  ghost predicate Retrying(first: Sent, run: seq<Sent>, x: Sent, m: nat, retry: nat, provider: nat -> Reply,
                           tools: (nat, nat) -> ToolResult, system: string)
  {
    && Sending(first, run, x, provider, tools, system) && Ready(x.messages)
    && |run| == m + retry && NoneFinal(provider, |run|)
    && Attempt(provider, |run|) == retry && Rounds(provider, |run|) == Rounds(provider, m)
  }

  lemma {:induction false} FirstTry(first: Sent, run: seq<Sent>, x: Sent, provider: nat -> Reply,
                                    tools: (nat, nat) -> ToolResult, system: string)
    requires Sending(first, run, x, provider, tools, system) && NoneFinal(provider, |run|) && Attempt(provider, |run|) == 0
    ensures Retrying(first, run, x, |run|, 0, provider, tools, system)
  {}

  lemma {:induction false} GivesUp(first: Sent, run: seq<Sent>, x: Sent, m: nat, retry: nat, provider: nat -> Reply,
                                   tools: (nat, nat) -> ToolResult, system: string)
    requires Retrying(first, run, x, m, retry, provider, tools, system)
    requires !Retriable(provider(|run|)) || retry >= MAX_RETRIES
    ensures WasSent(first, run + [x], x, provider, tools, system) && Called(provider, m, |run|)
  {
    Send(first, run, x, provider, tools, system);
  }

  lemma {:induction false} TriesAgain(first: Sent, run: seq<Sent>, x: Sent, y: Sent, m: nat, retry: nat,
                                      provider: nat -> Reply, tools: (nat, nat) -> ToolResult, system: string)
    requires Retrying(first, run, x, m, retry, provider, tools, system) && retry < MAX_RETRIES
    requires Retriable(provider(|run|)) && Ready(y.messages)
    requires y == if provider(|run|).TimeoutError? then x else Rebuilt(x.history, system)
    ensures Retrying(first, run + [x], y, m, retry + 1, provider, tools, system)
  {
    hide Rebuilt, Ready;
    Send(first, run, x, provider, tools, system);
    SendAgain(first, run + [x], provider, tools, system, y);
  }

  /** The requests so far, and one about to be sent. */
  ghost predicate Sending(first: Sent, run: seq<Sent>, x: Sent, provider: nat -> Reply, tools: (nat, nat) -> ToolResult,
                          system: string)
  {
    && AllReady(run) && Ready(x.messages) && (run + [x])[0] == first
    && IsRun(run + [x], provider, tools, system)
  }

  /** The requests so far, x the last of them. */
  ghost predicate WasSent(first: Sent, run: seq<Sent>, x: Sent, provider: nat -> Reply, tools: (nat, nat) -> ToolResult,
                          system: string)
  {
    && AllReady(run) && run != [] && run[0] == first && run[|run| - 1] == x
    && IsRun(run, provider, tools, system)
  }

  lemma {:induction false} Send(first: Sent, run: seq<Sent>, x: Sent, provider: nat -> Reply,
                                tools: (nat, nat) -> ToolResult, system: string)
    requires Sending(first, run, x, provider, tools, system)
    ensures WasSent(first, run + [x], x, provider, tools, system)
  {}

  lemma {:induction false} SendAgain(first: Sent, run: seq<Sent>, provider: nat -> Reply,
                                     tools: (nat, nat) -> ToolResult, system: string, y: Sent)
    requires run != [] && WasSent(first, run, run[|run| - 1], provider, tools, system) && Ready(y.messages)
    requires Follows(run[|run| - 1], provider(|run| - 1), tools, |run| - 1, system, y)
    ensures Sending(first, run, y, provider, tools, system)
  {
    NextRequest(run, provider, tools, system, y, |run| - 1);
  }

  /** A round extends the last request sent. */
  lemma {:induction false} SendRound(first: Sent, run: seq<Sent>, provider: nat -> Reply, tools: (nat, nat) -> ToolResult,
                                     system: string, content: string, ids: seq<string>, results: seq<ToolResult>)
    requires run != [] && WasSent(first, run, run[|run| - 1], provider, tools, system)
    requires ids != [] && provider(|run| - 1) == Calls(content, ids) && results == Results(tools, |run| - 1, |ids|)
    ensures Sending(first, run, Extended(run[|run| - 1], Round(content, ids, results)), provider, tools, system)
  {
    var x := run[|run| - 1];
    assert x in run;
    RoundKeepsReady(x.messages, content, ids, results);
    SendAgain(first, run, provider, tools, system, Extended(x, Round(content, ids, results)));
  }

  lemma {:induction false} PrefixStays(a: seq<Sent>, b: seq<Sent>, y: Sent)
    requires a <= b
    ensures a <= b + [y]
  {}

  /** A timed out request is repeated as it is; one that was too long is built from the compressed session. */
  method PrepareRetry(session: Session, messages: seq<Message>, prompt: string -> string, reply: Reply)
      returns (next: seq<Message>)
    requires Ready(messages) && Retriable(reply)
    modifies session`history
    ensures Ready(next)
    ensures Sent(next, session.history) ==
            if reply.TimeoutError? then Sent(messages, old(session.history))
            else Rebuilt(old(session.history), prompt(session.summary))
  {
    next := messages;
    if reply.ContextError? {
      session.ForceCompression();
      BuiltIsReady(session.history, prompt(session.summary), "");
      next := BuildMessages(session.history, prompt(session.summary), "");
    }
  }

  /** How one request of a subagent leads to the next. */
  ghost predicate IsToolRun(requests: seq<seq<Message>>, provider: nat -> Reply, tools: (nat, nat) -> ToolResult) {
    forall n: nat | n < |requests| - 1 :: ToolFollows(requests[n], provider(n), tools, n, requests[n + 1])
  }

  ghost predicate ToolFollows(x: seq<Message>, reply: Reply, tools: (nat, nat) -> ToolResult, n: nat, y: seq<Message>) {
    reply.Calls? && reply.ids != [] && y == x + Round(reply.content, reply.ids, Results(tools, n, |reply.ids|))
  }

  ghost predicate ToolReady(initial: seq<Message>, x: seq<Message>) {
    AllAnswered(x) && initial <= x && (Ready(initial) ==> Ready(x))
  }

  /** After n requests: the last reply decides, unless it calls tools and the rounds are used up. */
  ghost predicate ToolCompleted(n: nat, outcome: Outcome, maxIterations: nat, provider: nat -> Reply) {
    if n > 0 && !IsRound(provider(n - 1)) then
      && n <= maxIterations
      && outcome == if IsError(provider(n - 1)) then Failed(provider(n - 1)) else Done(provider(n - 1).content, n)
    else
      n == maxIterations && outcome == Done("", maxIterations)
  }

  /** This loop has no choice either. */
  lemma {:induction false} ToolCompletionIsUnique(a: seq<seq<Message>>, v: Outcome, b: seq<seq<Message>>, w: Outcome,
                                                  maxIterations: nat, provider: nat -> Reply, tools: (nat, nat) -> ToolResult)
    requires IsToolRun(a, provider, tools) && ToolCompleted(|a|, v, maxIterations, provider)
    requires IsToolRun(b, provider, tools) && ToolCompleted(|b|, w, maxIterations, provider)
    requires a != [] && b != [] ==> a[0] == b[0]
    ensures a == b && v == w
  {
    ToolLengths(a, b, v, w, maxIterations, provider, tools);
    ToolLengths(b, a, w, v, maxIterations, provider, tools);
    forall n | 0 <= n < |a| ensures a[n] == b[n] { ToolRunsAgree(a, b, provider, tools, n); }
  }

  lemma {:induction false} ToolLengths(a: seq<seq<Message>>, b: seq<seq<Message>>, v: Outcome, w: Outcome,
                                       maxIterations: nat, provider: nat -> Reply, tools: (nat, nat) -> ToolResult)
    requires IsToolRun(b, provider, tools)
    requires ToolCompleted(|a|, v, maxIterations, provider) && ToolCompleted(|b|, w, maxIterations, provider)
    ensures |a| >= |b|
  {
    ToolRounds(b, provider, tools);
  }

  lemma {:induction false} ToolRounds(requests: seq<seq<Message>>, provider: nat -> Reply, tools: (nat, nat) -> ToolResult)
    requires IsToolRun(requests, provider, tools)
    ensures forall n: nat | n < |requests| - 1 :: IsRound(provider(n))
  {
    forall n: nat | n < |requests| - 1 ensures IsRound(provider(n)) {
      assert ToolFollows(requests[n], provider(n), tools, n, requests[n + 1]);
    }
  }

  lemma {:induction false} ToolRunsAgree(a: seq<seq<Message>>, b: seq<seq<Message>>, provider: nat -> Reply,
                                         tools: (nat, nat) -> ToolResult, n: nat)
    requires IsToolRun(a, provider, tools) && IsToolRun(b, provider, tools)
    requires n < |a| == |b| && a[0] == b[0]
    ensures a[n] == b[n]
  {
    if n > 0 {
      ToolRunsAgree(a, b, provider, tools, n - 1);
      assert ToolFollows(a[n - 1], provider(n - 1), tools, n - 1, a[n]);
      assert ToolFollows(b[n - 1], provider(n - 1), tools, n - 1, b[n]);
    }
  }

  /** The loop of subagents: no session, no retries. */
  method RunToolLoop(initial: seq<Message>, maxIterations: nat, provider: nat -> Reply, tools: (nat, nat) -> ToolResult)
      returns (outcome: Outcome, requests: seq<seq<Message>>)
    requires AllAnswered(initial)
    ensures forall x | x in requests :: ToolReady(initial, x)
    ensures requests != [] ==> requests[0] == initial
    ensures IsToolRun(requests, provider, tools)
    ensures ToolCompleted(|requests|, outcome, maxIterations, provider)
  {
    requests := [];
    var messages := initial;
    var iteration := 0;
    while iteration < maxIterations
      invariant iteration <= maxIterations && |requests| == iteration
      invariant requests != [] ==> IsRound(provider(|requests| - 1))
      invariant ToolReady(initial, messages) && forall x | x in requests :: ToolReady(initial, x)
      invariant (requests + [messages])[0] == initial && IsToolRun(requests + [messages], provider, tools)
    {
      var call := iteration;
      iteration := iteration + 1;
      var reply := provider(call);
      requests := requests + [messages];
      if IsError(reply) {
        return Failed(reply), requests;
      }
      if reply.Answer? || reply.ids == [] {
        return Done(reply.content, iteration), requests;
      }
      var results := ExecuteInParallel(reply.ids, (k: nat) => tools(call, k));
      assert results[..] == Results(tools, call, |reply.ids|);
      var next := messages + Round(reply.content, reply.ids, results[..]);
      RoundKeepsTool(initial, messages, reply.content, reply.ids, results[..]);
      ToolNext(requests, provider, tools, next, call);
      messages := next;
    }
    ToolPrefix(requests, messages, provider, tools);
    outcome := Done("", iteration);
  }

  lemma {:induction false} RoundKeepsTool(initial: seq<Message>, x: seq<Message>, content: string, ids: seq<string>,
                                          results: seq<ToolResult>)
    requires ToolReady(initial, x) && ids != [] && |ids| == |results|
    ensures ToolReady(initial, x + Round(content, ids, results))
  {
    RoundAnswered(content, ids, results);
    BlockKeepsAnswered(x, Round(content, ids, results));
    if Ready(x) { RoundKeepsReady(x, content, ids, results); }
  }

  lemma {:induction false} ToolNext(requests: seq<seq<Message>>, provider: nat -> Reply, tools: (nat, nat) -> ToolResult,
                                    y: seq<Message>, n: nat)
    requires IsToolRun(requests, provider, tools) && n == |requests| - 1
    requires ToolFollows(requests[n], provider(n), tools, n, y)
    ensures IsToolRun(requests + [y], provider, tools)
  {
    var all := requests + [y];
    forall k: nat | k < |all| - 1 ensures ToolFollows(all[k], provider(k), tools, k, all[k + 1]) {
      if k < n { assert ToolFollows(requests[k], provider(k), tools, k, requests[k + 1]); }
    }
  }

  lemma {:induction false} ToolPrefix(requests: seq<seq<Message>>, y: seq<Message>, provider: nat -> Reply,
                                      tools: (nat, nat) -> ToolResult)
    requires IsToolRun(requests + [y], provider, tools)
    ensures IsToolRun(requests, provider, tools)
  {
    var all := requests + [y];
    forall n: nat | n < |requests| - 1 ensures ToolFollows(requests[n], provider(n), tools, n, requests[n + 1]) {
      assert ToolFollows(all[n], provider(n), tools, n, all[n + 1]);
    }
  }

  lemma {:induction false} BlockKeepsAnswered(ms: seq<Message>, block: seq<Message>)
    requires AllAnswered(ms) && block != [] && ToolsOnly(block, 1, |block|) && Answered(block, 0)
    ensures AllAnswered(ms + block)
  {
    var g := ms + block;
    forall i | 0 <= i < |g| && IsTurn(g[i]) ensures Answered(g, i) {
      if i < |ms| {
        AnsweredExtends(ms, block, i);
      } else {
        assert g[i] == block[i - |ms|];
        AnsweredShifts(ms, block);
      }
    }
  }
}
