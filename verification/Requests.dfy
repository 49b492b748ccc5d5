/**
  What a provider is sent, message by message: how each request of the two loops comes from the one before it,
  told without the functions that build them.
*/
module Requests {
  import opened Chat
  import opened Sanitizer
  import opened AgentLoop
  import Text

  // ---------------------------------------------------------------- rounds

  /** The tool message for a call: what the tool has for the model, or its error if it has nothing. */
  ghost predicate Reports(m: Message, id: string, r: ToolResult) {
    && m.role == Tool && m.calls == [] && m.answers == id
    && (r.forLLM != "" ==> m.content == r.forLLM) && (r.forLLM == "" ==> m.content == r.error)
  }

  /** y is x, the reply as an assistant message, and a tool message for each of its calls, in their order. */
  ghost predicate RoundAdded(x: seq<Message>, y: seq<Message>, content: string, ids: seq<string>,
                             tools: (nat, nat) -> ToolResult, n: nat)
  {
    && |y| == |x| + 1 + |ids| && y[..|x|] == x
    && y[|x|] == Message(Assistant, content, ids, "")
    && forall k: nat | k < |ids| :: Reports(y[|x| + 1 + k], ids[k], tools(n, k))
  }

  lemma {:induction false} RoundAdds(x: seq<Message>, content: string, ids: seq<string>,
                                     tools: (nat, nat) -> ToolResult, n: nat)
    ensures RoundAdded(x, x + Round(content, ids, Results(tools, n, |ids|)), content, ids, tools, n)
  {
    var block := Round(content, ids, Results(tools, n, |ids|));
    var y := x + block;
    assert y[..|x|] == x && y[|x|] == block[0];
    forall k: nat | k < |ids| ensures Reports(y[|x| + 1 + k], ids[k], tools(n, k)) {
      assert y[|x| + 1 + k] == block[1 + k];
      assert block[1 + k] == ResultMessage(ids[k], tools(n, k));
    }
  }

  // ---------------------------------------------------------------- requests built from a history

  /** The prompt, the sanitised history, and the current message if there is any ink in it. */
  ghost predicate BuiltFrom(ms: seq<Message>, history: seq<Message>, prompt: string, current: string) {
    && |ms| > 0 && ms[0] == Message(System, prompt, [], "")
    && if forall c | c in current :: Text.IsSpace(c) then ms[1..] == Sanitize(history)
       else ms[1..] == Sanitize(history) + [Message(User, current, [], "")]
  }

  lemma {:induction false} BuildsFrom(history: seq<Message>, prompt: string, current: string)
    ensures BuiltFrom(BuildMessages(history, prompt, current), history, prompt, current)
  {
    hide Sanitize;
    BlankTrimsAway(current);
    var ms, rest := BuildMessages(history, prompt, current), Sanitize(history);
    if Text.TrimSpace(current) == "" {
      assert ms[1..] == rest;
    } else {
      assert ms[1..] == rest + [UserMessage(current)];
    }
  }

  lemma {:induction false} BlankTrimsAway(s: string)
    ensures Text.TrimSpace(s) == "" <==> forall c | c in s :: Text.IsSpace(c)
  {
    var lo := Text.FirstKept(s, 0);
    Text.FirstKeptStops(s, 0);
    if lo < |s| {
      assert s[lo] in s && !Text.IsSpace(s[lo]);
    }
  }

  // ---------------------------------------------------------------- compression

  function Value(digits: string): int {
    if digits == "" then 0
    else Value(digits[..|digits| - 1]) * 10 + (digits[|digits| - 1] as int - '0' as int)
  }

  /** The decimal notation of n. */
  ghost predicate Denotes(digits: string, n: int) {
    && digits != "" && (forall c | c in digits :: '0' <= c <= '9') && Value(digits) == n
    && (digits[0] == '0' ==> |digits| == 1)
  }

  lemma {:induction false} DecimalDenotes(n: nat)
    ensures Denotes(Decimal(n), n) && (n > 0 ==> Decimal(n)[0] != '0')
  {
    var d := Decimal(n);
    if n < 10 {
      assert d[..0] == "" && Value(d) == n;
    } else {
      DecimalDenotes(n / 10);
      assert d[..|d| - 1] == Decimal(n / 10);
    }
  }

  /** A history longer than 4 loses the older half, rounded down, of what is between its first and its last
      message, and the first one says how many messages that were. */
  ghost predicate Halved(h: seq<Message>, g: seq<Message>) {
    if |h| <= 4 then g == h
    else
      var dropped := (|h| - 2) / 2;
      && |g| == |h| - dropped && g[1..] == h[dropped + 1..]
      && g[0].role == h[0].role && g[0].calls == h[0].calls && g[0].answers == h[0].answers
      && exists digits :: Denotes(digits, dropped) && g[0].content == Noted(h[0].content, digits)
  }

  function Noted(content: string, digits: string): string {
    content + "\n\n[System Note: Emergency compression dropped " + digits
    + " oldest messages due to context limit]"
  }

  lemma {:induction false} Halves(h: seq<Message>)
    ensures Halved(h, Compressed(h))
  {
    if |h| > 4 {
      var mid := (|h| - 2) / 2;
      KeptIsSuffix(h, mid);
      var g := Compressed(h);
      DecimalDenotes(mid);
      NoteAdded(h[0].content, mid);
      assert g[1..] == h[1..|h| - 1][mid..] + [h[|h| - 1]];
      assert Denotes(Decimal(mid), mid) && g[0].content == Noted(h[0].content, Decimal(mid));
    }
  }

  lemma {:induction false} NoteAdded(content: string, n: nat)
    ensures content + CompressionNote(n) == Noted(content, Decimal(n))
  {
    var a, b := "\n\n[System Note: Emergency compression dropped ", " oldest messages due to context limit]";
    assert CompressionNote(n) == a + Decimal(n) + b;
    assert content + (a + Decimal(n) + b) == content + a + Decimal(n) + b;
  }

  // ---------------------------------------------------------------- whole runs

  /** How the next request of an agent, and the session, come from this one. */
  ghost predicate Continued(x: Sent, reply: Reply, tools: (nat, nat) -> ToolResult, n: nat, system: string, y: Sent) {
    match reply
    case Calls(content, ids) =>
      && ids != []
      && RoundAdded(x.messages, y.messages, content, ids, tools, n)
      && RoundAdded(x.history, y.history, content, ids, tools, n)
    case TimeoutError => y == x
    case ContextError => Halved(x.history, y.history) && BuiltFrom(y.messages, y.history, system, "")
    case _ => false
  }

  lemma {:induction false} FollowsContinued(x: Sent, reply: Reply, tools: (nat, nat) -> ToolResult, n: nat,
                                            system: string, y: Sent)
    requires Follows(x, reply, tools, n, system, y)
    ensures Continued(x, reply, tools, n, system, y)
  {
    hide Compressed, BuildMessages, Round, Results, RoundAdded, Halved, BuiltFrom;
    match reply
    case Calls(content, ids) =>
      RoundAdds(x.messages, content, ids, tools, n);
      RoundAdds(x.history, content, ids, tools, n);
    case ContextError =>
      Halves(x.history);
      BuildsFrom(Compressed(x.history), system, "");
    case _ =>
  }

  /** Every request of an agent's run, and where messages and session end: what the tools returned is in the next
      request and in the session, under the IDs of the calls. */
  lemma {:induction false} ResultsReachProvider(run: seq<Sent>, last: Sent, outcome: Outcome, maxIterations: nat,
                                                provider: nat -> Reply, tools: (nat, nat) -> ToolResult,
                                                system: string, n: nat)
    requires Completed(run, last, outcome, maxIterations, provider, tools, system) && n < |run|
    ensures n < |run| - 1 ==> Continued(run[n], provider(n), tools, n, system, run[n + 1])
    ensures n == |run| - 1 ==> last == run[n] || Continued(run[n], provider(n), tools, n, system, last)
    ensures n == |run| - 1 && IsRound(provider(n)) ==> Continued(run[n], provider(n), tools, n, system, last)
  {
    hide Follows, Continued, IsLength;
    var all := run + [last];
    if n < |run| - 1 {
      assert run[n + 1] == all[n + 1] && run[n] == all[n];
      assert Follows(run[n], provider(n), tools, n, system, run[n + 1]);
      FollowsContinued(run[n], provider(n), tools, n, system, run[n + 1]);
    } else if !Final(provider, n) {
      assert Follows(all[n], provider(n), tools, n, system, all[n + 1]);
      FollowsContinued(run[n], provider(n), tools, n, system, last);
    }
  }

  /** Likewise of a subagent's. */
  lemma {:induction false} ResultsReachSubagent(requests: seq<seq<Message>>, provider: nat -> Reply,
                                                tools: (nat, nat) -> ToolResult, n: nat)
    requires IsToolRun(requests, provider, tools) && n < |requests| - 1
    ensures provider(n).Calls? && provider(n).ids != []
    ensures RoundAdded(requests[n], requests[n + 1], provider(n).content, provider(n).ids, tools, n)
  {
    hide RoundAdded, Round, Results;
    assert ToolFollows(requests[n], provider(n), tools, n, requests[n + 1]);
    RoundAdds(requests[n], provider(n).content, provider(n).ids, tools, n);
  }
}
