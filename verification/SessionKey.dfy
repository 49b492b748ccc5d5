/**
  Session keys: how agents, channels and peers are written into one string, and what parsing gets back out
  of it.
*/
module SessionKey {

  import opened Options
  import opened Text

  // ---------------------------------------------------------------- identifiers

  function LowerChar(c: char): char { if 'A' <= c <= 'Z' then (c as int + 32) as char else c }

  function Lower(s: string): (t: string)
    ensures |t| == |s| && forall i | 0 <= i < |s| :: t[i] == LowerChar(s[i])
  {
    seq(|s|, i requires 0 <= i < |s| => LowerChar(s[i]))
  }

  predicate Alphanumeric(c: char) { 'a' <= c <= 'z' || '0' <= c <= '9' }

  /** The letters and digits of IDs, and the capitals that are lowered: no others. */
  lemma {:induction false} LettersAre(c: char)
    ensures Alphanumeric(c) <==> c in "abcdefghijklmnopqrstuvwxyz0123456789"
    ensures c !in "ABCDEFGHIJKLMNOPQRSTUVWXYZ" ==> LowerChar(c) == c
    ensures forall k | 0 <= k < 26 && c == "ABCDEFGHIJKLMNOPQRSTUVWXYZ"[k] :: LowerChar(c) == "abcdefghijklmnopqrstuvwxyz"[k]
  {
    CapitalsInOrder(c);
    LettersInOrder(c);
    DigitsInOrder(c);
  }

  lemma {:induction false} CapitalsInOrder(c: char)
    ensures forall k | 0 <= k < 26 :: "ABCDEFGHIJKLMNOPQRSTUVWXYZ"[k] as int == 'A' as int + k
    ensures 'A' <= c <= 'Z' <==> c in "ABCDEFGHIJKLMNOPQRSTUVWXYZ"
  {
    if 'A' <= c <= 'Z' { assert "ABCDEFGHIJKLMNOPQRSTUVWXYZ"[c as int - 'A' as int] == c; }
  }

  lemma {:induction false} LettersInOrder(c: char)
    ensures forall k | 0 <= k < 26 :: "abcdefghijklmnopqrstuvwxyz"[k] as int == 'a' as int + k
    ensures 'a' <= c <= 'z' <==> c in "abcdefghijklmnopqrstuvwxyz"
  {
    if 'a' <= c <= 'z' { assert "abcdefghijklmnopqrstuvwxyz"[c as int - 'a' as int] == c; }
  }

  lemma {:induction false} DigitsInOrder(c: char)
    ensures '0' <= c <= '9' <==> c in "0123456789"
    ensures c in "abcdefghijklmnopqrstuvwxyz0123456789" <==> c in "abcdefghijklmnopqrstuvwxyz" || c in "0123456789"
  {
    if '0' <= c <= '9' { assert "0123456789"[c as int - '0' as int] == c; }
    assert "abcdefghijklmnopqrstuvwxyz0123456789" == "abcdefghijklmnopqrstuvwxyz" + "0123456789";
  }

  predicate IdChar(c: char) { Alphanumeric(c) || c == '_' || c == '-' }

  predicate IsId(s: string) { forall i | 0 <= i < |s| :: IdChar(s[i]) }

  const MAX_ID := 64

  /** The documented form of an agent ID. */
  predicate Documented(s: string) { 0 < |s| <= MAX_ID && Alphanumeric(s[0]) && IsId(s) }

  /** Every run of other characters becomes one dash. */
  function Collapse(s: string): string {
    if s == [] then []
    else
      var n := |s| - 1;
      Collapse(s[..n]) + if IdChar(s[n]) then [s[n]] else if n > 0 && !IdChar(s[n - 1]) then [] else ['-']
  }

  function StripLeft(s: string): string { if s != [] && s[0] == '-' then StripLeft(s[1..]) else s }

  function StripRight(s: string): string { if s != [] && s[|s| - 1] == '-' then StripRight(s[..|s| - 1]) else s }

  function Stripped(id: string): string { StripRight(StripLeft(Collapse(Lower(TrimSpace(id))))) }

  function Truncated(s: string): string { if |s| > MAX_ID then s[..MAX_ID] else s }

  /** The normalisation of agent and account IDs, which differ in the default. */
  function Normalize(id: string, fallback: string): string {
    var lower := Lower(TrimSpace(id));
    if lower == [] then fallback
    else if Documented(lower) then lower
    else if Truncated(Stripped(id)) == [] then fallback
    else Truncated(Stripped(id))
  }

  function NormalizeAgentID(id: string): string { Normalize(id, "main") }

  function NormalizeAccountID(id: string): string { Normalize(id, "default") }

  predicate Solid(c: char) { Alphanumeric(c) || c == '_' }

  /** The first character an ID can begin with after dashes are stripped. */
  function FirstSolid(s: string): Option<char> {
    if s == [] then None
    else if FirstSolid(s[..|s| - 1]).Some? then FirstSolid(s[..|s| - 1])
    else if Solid(s[|s| - 1]) then Some(s[|s| - 1])
    else None
  }

  lemma {:induction false} FirstSolidSnoc(s: string, c: char)
    ensures FirstSolid(s + [c]) ==
            if FirstSolid(s).Some? then FirstSolid(s) else if Solid(c) then Some(c) else None
  {
    assert (s + [c])[..|s|] == s;
  }

  lemma {:induction false} CollapseSnoc(s: string, c: char)
    ensures Collapse(s + [c]) == Collapse(s)
         || (IdChar(c) && Collapse(s + [c]) == Collapse(s) + [c])
         || (!IdChar(c) && Collapse(s + [c]) == Collapse(s) + ['-'])
    ensures IdChar(c) ==> Collapse(s + [c]) == Collapse(s) + [c]
  {
    var t, n := s + [c], |s|;
    assert t[..n] == s && t[n] == c;
    var d := if IdChar(c) then [c] else if n > 0 && !IdChar(t[n - 1]) then [] else ['-'];
    assert Collapse(t) == Collapse(s) + d;
    assert Collapse(s) + [] == Collapse(s);
  }

  lemma {:induction false} IdSnoc(s: string, c: char)
    ensures IsId(s + [c]) <==> IsId(s) && IdChar(c)
  {
    var t := s + [c];
    assert t[|s|] == c;
    if IsId(t) {
      forall i | 0 <= i < |s| ensures IdChar(s[i]) { assert t[i] == s[i]; }
    }
  }

  lemma {:induction false} CollapseIsId(s: string)
    ensures IsId(Collapse(s)) && FirstSolid(Collapse(s)) == FirstSolid(s)
    ensures IsId(s) ==> Collapse(s) == s
  {
    if s != [] {
      var init, c := s[..|s| - 1], s[|s| - 1];
      assert s == init + [c];
      CollapseIsId(init);
      CollapseStep(init, c, Collapse(init), Collapse(init + [c]));
    }
  }

  lemma {:induction false} CollapseStep(init: string, c: char, x: string, y: string)
    requires x == Collapse(init) && y == Collapse(init + [c])
    requires IsId(x) && FirstSolid(x) == FirstSolid(init) && (IsId(init) ==> x == init)
    ensures IsId(y) && FirstSolid(y) == FirstSolid(init + [c])
    ensures IsId(init + [c]) ==> y == init + [c]
  {
    CollapseSnoc(init, c);
    IdSnoc(init, c);
    FirstSolidSnoc(init, c);
    if IdChar(c) {
      IdSnoc(x, c);
      FirstSolidSnoc(x, c);
    } else {
      IdSnoc(x, '-');
      FirstSolidSnoc(x, '-');
    }
  }

  /** From n on, s holds ID characters only, or none; and the run is not longer than that. */
  predicate LastRun(s: string, n: nat) {
    && n < |s|
    && (forall k | n <= k < |s| :: IdChar(s[k]) <==> IdChar(s[n]))
    && (n > 0 ==> !(IdChar(s[n - 1]) <==> IdChar(s[n])))
  }

  /** c is s with one dash for every run of other characters. */
  ghost predicate Dashed(s: string, c: string)
    decreases |s|
  {
    if s == [] then c == []
    else exists n: nat :: LastRun(s, n) && DashedFrom(s, n, c)
  }

  ghost predicate DashedFrom(s: string, n: nat, c: string)
    requires n < |s|
    decreases |s|, 0
  {
    var run := if IdChar(s[n]) then s[n..] else "-";
    |c| >= |run| && c[|c| - |run|..] == run && Dashed(s[..n], c[..|c| - |run|])
  }

  lemma {:induction false} FindLastRun(s: string) returns (n: nat)
    requires s != []
    ensures LastRun(s, n)
  {
    n := |s| - 1;
    while n > 0 && (IdChar(s[n - 1]) <==> IdChar(s[|s| - 1]))
      invariant n < |s| && forall k | n <= k < |s| :: IdChar(s[k]) <==> IdChar(s[|s| - 1])
    {
      n := n - 1;
    }
  }

  lemma {:induction false} CollapseRun(s: string, n: nat)
    requires n < |s| && forall k | n <= k < |s| :: IdChar(s[k]) <==> IdChar(s[n])
    requires n > 0 ==> !(IdChar(s[n - 1]) <==> IdChar(s[n]))
    ensures Collapse(s) == Collapse(s[..n]) + if IdChar(s[n]) then s[n..] else "-"
    decreases |s|
  {
    var m := |s| - 1;
    if n < m {
      var init := s[..m];
      CollapseRun(init, n);
      assert init[..n] == s[..n];
      assert s == init + [s[m]];
      if IdChar(s[n]) {
        CollapseSnoc(init, s[m]);
        assert s[n..] == init[n..] + [s[m]];
      }
    }
  }

  lemma {:induction false} DashedAdds(s: string, n: nat, c: string, run: string)
    requires LastRun(s, n) && run == (if IdChar(s[n]) then s[n..] else "-") && Dashed(s[..n], c)
    ensures Dashed(s, c + run)
  {
    hide IdChar;
    var d := c + run;
    assert d[|d| - |run|..] == run && d[..|d| - |run|] == c;
    assert DashedFrom(s, n, d);
  }

  lemma {:induction false} CollapseDashes(s: string)
    ensures Dashed(s, Collapse(s))
    decreases |s|
  {
    if s != [] {
      hide Dashed, Collapse, IdChar;
      var n := FindLastRun(s);
      CollapseRun(s, n);
      CollapseDashes(s[..n]);
      DashedAdds(s, n, Collapse(s[..n]), if IdChar(s[n]) then s[n..] else "-");
    }
  }

  predicate AllDashes(s: string) { forall k | 0 <= k < |s| :: s[k] == '-' }

  /** t is c without the dashes at both ends. */
  ghost predicate WithoutEnds(c: string, t: string) {
    && (exists n: nat :: n + |t| <= |c| && c[n..n + |t|] == t && AllDashes(c[..n]) && AllDashes(c[n + |t|..]))
    && (t != [] ==> t[0] != '-' && t[|t| - 1] != '-')
  }

  lemma {:induction false} LeftDashes(c: string) returns (n: nat)
    ensures n <= |c| && StripLeft(c) == c[n..] && AllDashes(c[..n]) && (n < |c| ==> c[n] != '-')
  {
    if c != [] && c[0] == '-' {
      n := LeftDashes(c[1..]);
      n := n + 1;
      assert c[1..][n - 1..] == c[n..];
      forall k | 0 <= k < n ensures c[k] == '-' { if k > 0 { assert c[1..][..n - 1][k - 1] == c[k]; } }
    } else {
      n := 0;
    }
  }

  lemma {:induction false} RightDashes(c: string) returns (n: nat)
    ensures n <= |c| && StripRight(c) == c[..n] && AllDashes(c[n..]) && (n > 0 ==> c[n - 1] != '-')
  {
    n := |c|;
    if c != [] && c[|c| - 1] == '-' {
      var init := c[..|c| - 1];
      n := RightDashes(init);
      assert init[..n] == c[..n];
      forall k | n <= k < |c| ensures c[k] == '-' { if k < |c| - 1 { assert init[n..][k - n] == c[k]; } }
    }
  }

  lemma {:induction false} StripsEnds(c: string)
    ensures WithoutEnds(c, StripRight(StripLeft(c)))
  {
    var n := LeftDashes(c);
    var rest := StripLeft(c);
    var m := RightDashes(rest);
    assert c[n..n + m] == rest[..m] && c[n + m..] == rest[m..];
  }

  /** The normalisation, told by what it makes of the text: lower case without surrounding white space, kept if it
      has the documented form; else dashes for other characters, none at the ends, cut after 64 characters. */
  lemma {:induction false} NormalizeMeans(id: string, fallback: string) returns (c: string, t: string)
    ensures var lower, r := Lower(TrimSpace(id)), Normalize(id, fallback);
      if Documented(lower) then r == lower
      else
        && Dashed(lower, c) && WithoutEnds(c, t)
        && if t == [] then r == fallback else r == if |t| > 64 then t[..64] else t
  {
    var lower := Lower(TrimSpace(id));
    c := Collapse(lower);
    t := Stripped(id);
    CollapseDashes(lower);
    StripsEnds(c);
    if lower == [] {
      assert c == [] && StripLeft(c) == [] && t == [];
    }
  }

  lemma {:induction false} FirstSolidTail(s: string)
    requires s != [] && !Solid(s[0])
    ensures FirstSolid(s[1..]) == FirstSolid(s)
  {
    var n := |s| - 1;
    if n > 0 {
      FirstSolidTail(s[..n]);
      assert s[..n][1..] == s[1..][..n - 1];
    }
  }

  lemma {:induction false} FirstSolidHead(s: string)
    requires s != [] && Solid(s[0])
    ensures FirstSolid(s) == Some(s[0])
  {
    if |s| > 1 { FirstSolidHead(s[..|s| - 1]); } else { assert s[..0] == []; }
  }

  lemma {:induction false} StripLeftSolid(s: string)
    requires IsId(s)
    ensures IsId(StripLeft(s)) && FirstSolid(StripLeft(s)) == FirstSolid(s)
    ensures StripLeft(s) != [] ==> Solid(StripLeft(s)[0]) && FirstSolid(s) == Some(StripLeft(s)[0])
    ensures StripLeft(s) == [] ==> FirstSolid(s) == None
  {
    if s != [] && s[0] == '-' {
      StripLeftSolid(s[1..]);
      FirstSolidTail(s);
    } else if s != [] {
      FirstSolidHead(s);
    }
  }

  lemma {:induction false} StripRightSolid(s: string)
    requires IsId(s) && (s != [] ==> s[0] != '-')
    ensures var t := StripRight(s);
      && t <= s && (t != [] ==> t[|t| - 1] != '-') && (s != [] ==> t != [])
      && (t == s <==> s == [] || s[|s| - 1] != '-')
  {
    if s != [] && s[|s| - 1] == '-' {
      StripRightSolid(s[..|s| - 1]);
    }
  }

  lemma {:induction false} StripForm(c: string)
    requires IsId(c)
    ensures var t := StripRight(StripLeft(c));
      && IsId(t) && (t == [] <==> FirstSolid(c) == None)
      && (t != [] ==> FirstSolid(c) == Some(t[0]) && Solid(t[0]) && t[|t| - 1] != '-')
  {
    StripLeftSolid(c);
    StripRightSolid(StripLeft(c));
  }

  /** What the intermediate string looks like, and what it begins with. */
  lemma {:induction false} StrippedForm(id: string, first: Option<char>)
    requires first == FirstSolid(Lower(TrimSpace(id)))
    ensures var t := Stripped(id);
      && IsId(t) && (t == [] <==> first == None)
      && (t != [] ==> first == Some(t[0]) && Solid(t[0]) && t[|t| - 1] != '-')
  {
    CollapseIsId(Lower(TrimSpace(id)));
    StripForm(Collapse(Lower(TrimSpace(id))));
  }

  /** A character of an ID is neither a space nor upper case, so trimming and lowering leave it alone. */
  lemma {:induction false} IdIsClean(s: string)
    requires IsId(s)
    ensures TrimSpace(s) == s && Lower(s) == s
  {
    if s != [] {
      assert IdChar(s[0]) && IdChar(s[|s| - 1]);
      TrimClean(s);
    }
  }

  /** Whether the ID a caller gave leads with an underscore, once normalised. */
  predicate LeadsWithUnderscore(id: string) { FirstSolid(Lower(TrimSpace(id))) == Some('_') }

  /** Whether truncation leaves a dash at the end. */
  predicate CutAtDash(id: string) { |Stripped(id)| > MAX_ID && Stripped(id)[MAX_ID - 1] == '-' }

  /**
    A normalised ID is a non-empty ID of at most 64 characters. It has the documented form unless it leads
    with an underscore, which the normalisation lets through.
  */
  lemma {:induction false} NormalForm(id: string, fallback: string)
    requires Documented(fallback)
    ensures var r := Normalize(id, fallback);
      && 0 < |r| <= MAX_ID && IsId(r) && r[0] != '-'
      && (Documented(r) <==> !LeadsWithUnderscore(id))
  {
    var lower := Lower(TrimSpace(id));
    StrippedForm(id, FirstSolid(lower));
    if Documented(lower) { FirstSolidHead(lower); }
  }

  /** Normalising twice is normalising once, except when an underscore leads and truncation leaves a dash. */
  lemma {:induction false} NormalizeTwice(id: string, fallback: string)
    requires Documented(fallback)
    ensures Normalize(Normalize(id, fallback), fallback) == Normalize(id, fallback)
            <==> !(LeadsWithUnderscore(id) && CutAtDash(id))
  {
    var r := Normalize(id, fallback);
    NormalForm(id, fallback);
    IdIsClean(r);
    if LeadsWithUnderscore(id) {
      Underscored(id, fallback);
      StrippedAgain(r);
    }
  }

  lemma {:induction false} Underscored(id: string, fallback: string)
    requires Documented(fallback) && LeadsWithUnderscore(id)
    ensures var r := Normalize(id, fallback);
      r == Truncated(Stripped(id)) && r != [] && r[0] == '_' && (r[|r| - 1] == '-' <==> CutAtDash(id))
  {
    var lower := Lower(TrimSpace(id));
    StrippedForm(id, FirstSolid(lower));
    if Documented(lower) { FirstSolidHead(lower); }
  }

  lemma {:induction false} StrippedAgain(r: string)
    requires IsId(r) && r != [] && r[0] == '_'
    ensures Stripped(r) == StripRight(r) && StripRight(r) != [] && |StripRight(r)| <= |r|
    ensures StripRight(r) == r <==> r[|r| - 1] != '-'
  {
    IdIsClean(r);
    CollapseIsId(r);
    StripRightSolid(r);
  }

  lemma {:induction false} NormalizeOfId(s: string, fallback: string)
    requires IsId(s) && s != [] && s[0] == '_' && s[|s| - 1] != '-'
    ensures Stripped(s) == s && LeadsWithUnderscore(s)
  {
    IdIsClean(s);
    CollapseIsId(s);
    StripRightSolid(s);
    FirstSolidHead(s);
  }

  /** Such an ID: an underscore, 62 letters, a dash, and one more letter. */
  lemma {:induction false} NormalizeTwiceFails() returns (id: string)
    ensures NormalizeAgentID(NormalizeAgentID(id)) != NormalizeAgentID(id)
  {
    id := seq(65, i => if i == 0 then '_' else if i == 63 then '-' else 'a');
    NormalizeOfId(id, "main");
    assert Documented("main");
    NormalizeTwice(id, "main");
  }

  lemma {:induction false} LowerKeepsSpaces(c: char)
    ensures IsSpace(LowerChar(c)) <==> IsSpace(c)
    ensures LowerChar(c) == ':' <==> c == ':'
  {}

  // ---------------------------------------------------------------- building keys

  /** Anything the source does not name counts as Other. */
  datatype Scope = Unset | Main | PerPeer | PerChannelPeer | PerAccountChannelPeer | Other

  datatype Peer = Peer(kind: string, id: string)

  datatype Params = Params(agentID: string, channel: string, accountID: string, peer: Option<Peer>, scope: Scope)

  function KindOf(p: Params): string {
    var kind := if p.peer.Some? then TrimSpace(p.peer.value.kind) else [];
    if kind == [] then "direct" else kind
  }

  /** The peer as given, trimmed. */
  function PeerOf(p: Params): string { if p.peer.Some? then TrimSpace(p.peer.value.id) else [] }

  function NormalizeChannel(channel: string): string {
    var c := TrimSpace(Lower(channel));
    if c == [] then "unknown" else c
  }

  function MainKey(agentID: string): string { "agent:" + NormalizeAgentID(agentID) + ":" + "main" }

  /** linked is the canonical name the identity links give the peer, empty without. */
  function Build(p: Params, linked: string): string {
    var agentID := NormalizeAgentID(p.agentID);
    if KindOf(p) == "direct" then
      var scope := if p.scope == Unset then Main else p.scope;
      var peerID := Lower(if scope != Main && PeerOf(p) != [] && linked != [] then linked else PeerOf(p));
      if scope == PerAccountChannelPeer && peerID != [] then
        "agent:" + agentID + ":" + (NormalizeChannel(p.channel) + ":" + NormalizeAccountID(p.accountID) + ":direct:" + peerID)
      else if scope == PerChannelPeer && peerID != [] then
        "agent:" + agentID + ":" + (NormalizeChannel(p.channel) + ":direct:" + peerID)
      else if scope == PerPeer && peerID != [] then
        "agent:" + agentID + ":" + ("direct:" + peerID)
      else
        MainKey(agentID)
    else
      var peerID := if Lower(PeerOf(p)) == [] then "unknown" else Lower(PeerOf(p));
      "agent:" + agentID + ":" + (NormalizeChannel(p.channel) + ":" + KindOf(p) + ":" + peerID)
  }

  datatype Parsed = Parsed(agentID: string, rest: string)

  function IndexOf(s: string, from: nat): (k: nat)
    requires from <= |s|
    ensures from <= k <= |s| && (k < |s| ==> s[k] == ':')
    ensures forall i | from <= i < k :: s[i] != ':'
    decreases |s| - from
  {
    if from < |s| && s[from] != ':' then IndexOf(s, from + 1) else from
  }

  function Parse(key: string): Option<Parsed> {
    var raw := TrimSpace(key);
    var first := IndexOf(raw, 0);
    if first == |raw| then None
    else
      var second := IndexOf(raw, first + 1);
      if second == |raw| then None
      else
        var agentID, rest := TrimSpace(raw[first + 1..second]), raw[second + 1..];
        if raw[..first] != "agent" || agentID == [] || rest == [] then None else Some(Parsed(agentID, rest))
  }

  /** A key parses exactly if it has three parts, the first "agent" and none empty; the last may have colons. */
  lemma {:induction false} ParseIs(key: string, agentID: string, rest: string)
    ensures Parse(key) == Some(Parsed(agentID, rest)) <==>
            agentID != "" && rest != "" && exists id :: Splits(TrimSpace(key), id, rest) && TrimSpace(id) == agentID
  {
    var raw := TrimSpace(key);
    var first := IndexOf(raw, 0);
    if first < |raw| {
      var second := IndexOf(raw, first + 1);
      if second < |raw| { SplitsOnly(raw, first, second); }
    }
    forall id, tail | Splits(raw, id, tail)
      ensures first < |raw| && IndexOf(raw, first + 1) < |raw|
    {
      var joined := "agent:" + id + ":" + tail;
      assert joined[5] == ':' && joined[6 + |id|] == ':';
    }
  }

  ghost predicate Splits(raw: string, id: string, rest: string) { ColonFree(id) && raw == "agent:" + id + ":" + rest }

  lemma {:induction false} SplitsOnly(raw: string, first: nat, second: nat)
    requires first < second < |raw| && raw[first] == raw[second] == ':'
    requires forall i | 0 <= i < second && i != first :: raw[i] != ':'
    ensures raw[..first] == "agent" ==> Splits(raw, raw[first + 1..second], raw[second + 1..])
    ensures forall id, rest | Splits(raw, id, rest) ::
      raw[..first] == "agent" && id == raw[first + 1..second] && rest == raw[second + 1..]
  {
    forall id, rest | Splits(raw, id, rest)
      ensures raw[..first] == "agent" && id == raw[first + 1..second] && rest == raw[second + 1..]
    {
      var joined := "agent:" + id + ":" + rest;
      assert joined[5] == ':' && joined[6 + |id|] == ':';
      assert joined[..5] == "agent" && joined[6..6 + |id|] == id && joined[7 + |id|..] == rest;
      assert forall i | 0 <= i < |id| :: joined[6 + i] == id[i];
    }
  }

  // ---------------------------------------------------------------- round trip

  predicate ColonFree(s: string) { forall i | 0 <= i < |s| :: s[i] != ':' }

  /** No space at either end, and not empty. */
  predicate Clean(s: string) { s != [] && !IsSpace(s[0]) && !IsSpace(s[|s| - 1]) }

  lemma {:induction false} ParseAt(key: string, first: nat, second: nat)
    requires Clean(key) && first < second < |key| && key[first] == key[second] == ':'
    requires forall i | 0 <= i < second && i != first :: key[i] != ':'
    requires key[..first] == "agent" && second + 1 < |key| && Clean(key[first + 1..second])
    ensures Parse(key) == Some(Parsed(key[first + 1..second], key[second + 1..]))
  {
    TrimClean(key);
    TrimClean(key[first + 1..second]);
    IndexIs(key, 0, first);
    IndexIs(key, first + 1, second);
  }

  lemma {:induction false} KeyShape(agentID: string, rest: string)
    requires agentID != [] && rest != []
    ensures var key, n := "agent:" + agentID + ":" + rest, 6 + |agentID|;
      && key[..5] == "agent" && key[5] == key[n] == ':' && key[6..n] == agentID && key[n + 1..] == rest
      && key[0] == 'a' && key[|key| - 1] == rest[|rest| - 1]
  {}

  /** A key split at its first two colons. */
  lemma {:induction false} ParseKey(agentID: string, rest: string)
    requires IsId(agentID) && agentID != [] && EndsWell(rest)
    ensures Parse("agent:" + agentID + ":" + rest) == Some(Parsed(agentID, rest))
  {
    var key, n := "agent:" + agentID + ":" + rest, 6 + |agentID|;
    KeyShape(agentID, rest);
    forall i | 0 <= i < n && i != 5 ensures key[i] != ':' {
      if i < 5 { assert key[i] == key[..5][i]; } else { assert key[i] == key[6..n][i - 6]; }
    }
    assert IdChar(agentID[0]) && IdChar(agentID[|agentID| - 1]);
    ParseAt(key, 5, n);
  }

  lemma {:induction false} IndexIs(s: string, from: nat, k: nat)
    requires from <= k < |s| && s[k] == ':' && forall i | from <= i < k :: s[i] != ':'
    ensures IndexOf(s, from) == k
  {}

  /** Whether a key names the agent only: a direct message in the main scope, or without a peer. */
  predicate IsMainKey(p: Params) {
    KindOf(p) == "direct" && (p.scope.Unset? || p.scope.Main? || p.scope.Other? || PeerOf(p) == [])
  }

  /** What follows the agent in the key. */
  function Rest(p: Params, linked: string): string {
    if IsMainKey(p) then "main"
    else if KindOf(p) != "direct" then
      NormalizeChannel(p.channel) + ":" + KindOf(p) + ":" + if PeerOf(p) == [] then "unknown" else Lower(PeerOf(p))
    else
      var peerID := Lower(if linked != [] then linked else PeerOf(p));
      match p.scope
      case PerAccountChannelPeer =>
        NormalizeChannel(p.channel) + ":" + NormalizeAccountID(p.accountID) + ":direct:" + peerID
      case PerChannelPeer => NormalizeChannel(p.channel) + ":direct:" + peerID
      case _ => "direct:" + peerID
  }

  /** The main key normalises the agent ID a second time. */
  function AgentIn(p: Params): string {
    if IsMainKey(p) then NormalizeAgentID(NormalizeAgentID(p.agentID)) else NormalizeAgentID(p.agentID)
  }

  lemma {:induction false} KeyParts(p: Params, linked: string)
    ensures Build(p, linked) == "agent:" + AgentIn(p) + ":" + Rest(p, linked)
  {
    if IsMainKey(p) {
      MainKeyParts(p, linked);
    } else if KindOf(p) != "direct" {
      GroupKeyParts(p, linked);
    } else {
      DirectKeyParts(p, linked);
    }
  }

  lemma {:induction false} MainKeyParts(p: Params, linked: string)
    requires IsMainKey(p)
    ensures Build(p, linked) == MainKey(NormalizeAgentID(p.agentID))
  {}

  lemma {:induction false} GroupKeyParts(p: Params, linked: string)
    requires KindOf(p) != "direct"
    ensures Build(p, linked) == "agent:" + NormalizeAgentID(p.agentID) + ":" + Rest(p, linked)
  {
    assert |Lower(PeerOf(p))| == |PeerOf(p)|;
  }

  lemma {:induction false} DirectKeyParts(p: Params, linked: string)
    requires KindOf(p) == "direct" && !IsMainKey(p)
    ensures Build(p, linked) == "agent:" + NormalizeAgentID(p.agentID) + ":" + Rest(p, linked)
  {
    assert |Lower(PeerOf(p))| == |PeerOf(p)| && |Lower(linked)| == |linked|;
  }

  /** What a key says behind the agent, spelled out. */
  ghost predicate Spells(p: Params, linked: string, rest: string) {
    var kind := if p.peer.Some? && TrimSpace(p.peer.value.kind) != "" then TrimSpace(p.peer.value.kind) else "direct";
    var id := if p.peer.Some? then TrimSpace(p.peer.value.id) else "";
    var channel := if TrimSpace(Lower(p.channel)) == "" then "unknown" else TrimSpace(Lower(p.channel));
    var name := Lower(if linked != "" then linked else id);
    if kind != "direct" then rest == channel + ":" + kind + ":" + if id == "" then "unknown" else Lower(id)
    else if id == "" then rest == "main"
    else
      match p.scope
      case PerAccountChannelPeer => rest == channel + ":" + Normalize(p.accountID, "default") + ":direct:" + name
      case PerChannelPeer => rest == channel + ":direct:" + name
      case PerPeer => rest == "direct:" + name
      case _ => rest == "main"
  }

  /** Every key spells out agent and conversation: groups by channel, kind and peer; direct messages by what their
      scope names; and all else is the agent's main session. */
  lemma {:induction false} KeySpells(p: Params, linked: string) returns (agent: string, rest: string)
    ensures Build(p, linked) == "agent:" + agent + ":" + rest && Spells(p, linked, rest)
    ensures agent == Normalize(p.agentID, "main")
            || (rest == "main" && agent == Normalize(Normalize(p.agentID, "main"), "main"))
  {
    hide Build, Normalize;
    agent, rest := AgentIn(p), Rest(p, linked);
    KeyParts(p, linked);
  }

  /** The rest without the peer. */
  function RestStart(p: Params): string {
    if KindOf(p) != "direct" then NormalizeChannel(p.channel) + ":" + KindOf(p) + ":"
    else
      match p.scope
      case PerAccountChannelPeer => NormalizeChannel(p.channel) + ":" + NormalizeAccountID(p.accountID) + ":direct:"
      case PerChannelPeer => NormalizeChannel(p.channel) + ":direct:"
      case _ => "direct:"
  }

  /** And the peer. */
  function RestEnd(p: Params, linked: string): string {
    if KindOf(p) != "direct" then (if PeerOf(p) == [] then "unknown" else Lower(PeerOf(p)))
    else Lower(if linked != [] then linked else PeerOf(p))
  }

  lemma {:induction false} LowerClean(s: string)
    requires Clean(s)
    ensures Clean(Lower(s))
  {
    LowerKeepsSpaces(s[0]);
    LowerKeepsSpaces(s[|s| - 1]);
  }

  lemma {:induction false} RestEndIsClean(p: Params, linked: string)
    requires !IsMainKey(p) && (linked == [] || Clean(linked))
    ensures Clean(RestEnd(p, linked))
  {
    if p.peer.Some? { TrimEnds(p.peer.value.id); }
    if PeerOf(p) != [] { LowerClean(PeerOf(p)); }
    if linked != [] { LowerClean(linked); }
  }

  lemma {:induction false} RestIs(p: Params, linked: string)
    requires !IsMainKey(p)
    ensures Rest(p, linked) == RestStart(p) + RestEnd(p, linked)
  {}

  predicate EndsWell(s: string) { s != [] && !IsSpace(s[|s| - 1]) }

  lemma {:induction false} EndsClean(s: string, x: string, y: string)
    requires s == x + y && Clean(y)
    ensures EndsWell(s)
  {}

  lemma {:induction false} MainEnds(p: Params, linked: string)
    requires IsMainKey(p)
    ensures EndsWell(Rest(p, linked))
  {
    assert Rest(p, linked) == "main";
  }

  lemma {:induction false} RestEnds(p: Params, linked: string)
    requires linked == [] || Clean(linked)
    ensures EndsWell(Rest(p, linked))
  {
    if IsMainKey(p) {
      MainEnds(p, linked);
    } else {
      RestIs(p, linked);
      RestEndIsClean(p, linked);
      EndsClean(Rest(p, linked), RestStart(p), RestEnd(p, linked));
    }
  }

  /**
    Parsing a built key gives back the normalised agent ID, unless it is a main key and normalising twice
    makes a difference; and always a rest that says what was put in.
  */
  lemma {:induction false} ParseBuilt(p: Params, linked: string)
    requires linked == [] || Clean(linked)
    ensures Parse(Build(p, linked)) == Some(Parsed(AgentIn(p), Rest(p, linked))) && Rest(p, linked) != []
    ensures AgentIn(p) == NormalizeAgentID(p.agentID)
            <==> !(IsMainKey(p) && LeadsWithUnderscore(p.agentID) && CutAtDash(p.agentID))
  {
    assert Documented("main");
    NormalForm(p.agentID, "main");
    NormalForm(NormalizeAgentID(p.agentID), "main");
    NormalizeTwice(p.agentID, "main");
    RestEnds(p, linked);
    KeyParts(p, linked);
    ParseKey(AgentIn(p), Rest(p, linked));
  }

  // ---------------------------------------------------------------- identity links

  type Links = map<string, seq<string>>

  /** The peer as the links may write it: by itself, with its channel, or without its platform. */
  function Spellings(channel: string, peerID: string): set<string> {
    var raw, ch := Lower(TrimSpace(peerID)), Lower(TrimSpace(channel));
    var colon := IndexOf(raw, 0);
    {raw} + (if ch != [] then {ch + ":" + raw} else {})
    + if 0 < colon < |raw| - 1 then {raw[colon + 1..]} else {}
  }

  predicate IsAmong(id: string, spellings: set<string>) {
    Lower(TrimSpace(id)) != [] && Lower(TrimSpace(id)) in spellings
  }

  /** x names the peer: as it is, with its channel in front, or by what follows its first colon. */
  ghost predicate Names(x: string, channel: string, peerID: string) {
    var raw, ch := Lower(TrimSpace(peerID)), Lower(TrimSpace(channel));
    || x == raw
    || (ch != [] && x == ch + ":" + raw)
    || exists k :: 0 < k < |raw| && raw[k] == ':' && (forall j | 0 <= j < k :: raw[j] != ':') && raw[k + 1..] == x && x != []
  }

  lemma {:induction false} SpellingsName(x: string, channel: string, peerID: string)
    ensures x in Spellings(channel, peerID) <==> Names(x, channel, peerID)
  {
    var raw := Lower(TrimSpace(peerID));
    var colon := IndexOf(raw, 0);
  }

  /** An entry of the list names the peer. */
  ghost predicate ListsPeer(ids: seq<string>, channel: string, peerID: string) {
    exists i | 0 <= i < |ids| :: Lower(TrimSpace(ids[i])) != [] && Names(Lower(TrimSpace(ids[i])), channel, peerID)
  }

  lemma {:induction false} ListsIsPeer(ids: seq<string>, channel: string, peerID: string)
    ensures Lists(ids, Spellings(channel, peerID)) <==> ListsPeer(ids, channel, peerID)
  {
    hide Names, Spellings;
    forall i | 0 <= i < |ids|
      ensures IsAmong(ids[i], Spellings(channel, peerID)) <==>
              Lower(TrimSpace(ids[i])) != [] && Names(Lower(TrimSpace(ids[i])), channel, peerID)
    {
      SpellingsName(Lower(TrimSpace(ids[i])), channel, peerID);
    }
  }

  predicate Lists(ids: seq<string>, spellings: set<string>) {
    exists i | 0 <= i < |ids| :: IsAmong(ids[i], spellings)
  }

  /** In any order of the links: a name that lists the peer if there is one. */
  method ResolveLinkedPeerID(links: Links, channel: string, peerID: string) returns (name: string)
    ensures name == [] ==>
              (TrimSpace(peerID) == []
               || forall n | n in links && TrimSpace(n) != [] :: !ListsPeer(links[n], channel, peerID))
    ensures name != [] ==>
              (TrimSpace(peerID) != [] && Clean(name)
               && exists n :: n in links && TrimSpace(n) == name && ListsPeer(links[n], channel, peerID))
  {
    hide Lists, ListsPeer, Spellings;
    forall n | n in links ensures Lists(links[n], Spellings(channel, peerID)) <==> ListsPeer(links[n], channel, peerID) {
      ListsIsPeer(links[n], channel, peerID);
    }
    if |links| == 0 || TrimSpace(peerID) == [] {
      return [];
    }
    var candidates := Spellings(channel, peerID);
    var rest := links.Keys;
    while rest != {}
      invariant rest <= links.Keys
      invariant forall n | n in links && n !in rest && TrimSpace(n) != [] :: !Lists(links[n], candidates)
      decreases rest
    {
      var canonical :| canonical in rest;
      rest := rest - {canonical};
      var canonicalName := TrimSpace(canonical);
      if canonicalName != [] {
        var found := ListsAny(links[canonical], candidates);
        if found {
          TrimEnds(canonical);
          return canonicalName;
        }
      }
    }
    return [];
  }

  method ListsAny(ids: seq<string>, candidates: set<string>) returns (found: bool)
    ensures found <==> Lists(ids, candidates)
  {
    for i := 0 to |ids|
      invariant forall k | 0 <= k < i :: !IsAmong(ids[k], candidates)
    {
      var normalized := Lower(TrimSpace(ids[i]));
      if normalized != [] && normalized in candidates {
        assert IsAmong(ids[i], candidates);
        return true;
      }
    }
    return false;
  }
}
