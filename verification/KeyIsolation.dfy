/**
  When two conversations share a session key. A key runs its parts together with colons, so that a
  conversation is told from all others exactly if its key can be taken apart in one way only.
*/
module KeyIsolation {

  import opened Options
  import opened SessionKey
  import opened Text

  // ---------------------------------------------------------------- joining with colons

  lemma {:induction false} HeadsAgree(a: string, r: string, b: string, t: string)
    requires ColonFree(a) && ColonFree(b) && a + ":" + r == b + ":" + t
    ensures a == b && r == t
  {
    var s := a + ":" + r;
    assert s[|a|] == ':' && s[|b|] == ':';
    assert forall i | 0 <= i < |a| :: s[i] == a[i];
    assert forall i | 0 <= i < |b| :: s[i] == b[i];
    assert |a| == |b|;
    assert s[..|a|] == a && s[..|a|] == b && s[|a| + 1..] == r && s[|a| + 1..] == t;
  }

  lemma {:induction false} TrimColonFree(s: string)
    requires ColonFree(s)
    ensures ColonFree(TrimSpace(s)) && ColonFree(Lower(s))
  {}

  lemma {:induction false} ChannelColonFree(channel: string)
    requires ColonFree(channel)
    ensures ColonFree(NormalizeChannel(channel))
  {
    TrimColonFree(channel);
    TrimColonFree(Lower(channel));
  }

  lemma {:induction false} IdColonFree(id: string, fallback: string)
    requires Documented(fallback)
    ensures ColonFree(Normalize(id, fallback))
  {
    NormalForm(id, fallback);
  }

  lemma {:induction false} Nest(c: string, k: string, id: string)
    ensures (c + ":" + k + ":") + id == c + ":" + (k + ":" + id)
  {}

  lemma {:induction false} NestDirect(c: string, id: string)
    ensures (c + ":direct:") + id == c + ":" + ("direct" + ":" + id)
  {
    assert ":direct:" == ":" + ("direct" + ":");
    Nest(c, "direct", id);
    assert c + ":" + "direct" + ":" == c + (":" + ("direct" + ":"));
  }

  lemma {:induction false} AgentColonFree(id: string)
    ensures ColonFree(NormalizeAgentID(id))
  {
    assert Documented("main");
    IdColonFree(id, "main");
  }

  lemma {:induction false} AgentsAgree(a: string, r: string, b: string, t: string)
    requires ColonFree(a) && ColonFree(b) && "agent:" + a + ":" + r == "agent:" + b + ":" + t
    ensures a == b && r == t
  {
    assert ("agent:" + a + ":" + r)[6..] == a + ":" + r;
    assert ("agent:" + b + ":" + t)[6..] == b + ":" + t;
    HeadsAgree(a, r, b, t);
  }

  lemma {:induction false} PartsAgree(c: string, k: string, i: string, d: string, l: string, j: string)
    requires ColonFree(c) && ColonFree(d) && ColonFree(k) && ColonFree(l)
    requires c + ":" + (k + ":" + i) == d + ":" + (l + ":" + j)
    ensures c == d && k == l && i == j
  {
    HeadsAgree(c, k + ":" + i, d, l + ":" + j);
    HeadsAgree(k, i, l, j);
  }

  // ---------------------------------------------------------------- one key for each channel and peer

  /** A conversation with a peer under the per-channel-peer scope. */
  predicate Scoped(p: Params) { p.scope == PerChannelPeer && PeerOf(p) != [] }

  datatype Parts = Parts(channel: string, kind: string, peer: string)

  function PartsOf(p: Params): Parts { Parts(NormalizeChannel(p.channel), KindOf(p), Lower(PeerOf(p))) }

  function Joined(s: Parts): string { s.channel + ":" + (s.kind + ":" + s.peer) }

  /** All that tells two of them apart. */
  ghost predicate SameConversation(p: Params, q: Params) {
    NormalizeAgentID(p.agentID) == NormalizeAgentID(q.agentID) && PartsOf(p) == PartsOf(q)
  }

  lemma {:induction false} ScopedRest(p: Params)
    requires Scoped(p)
    ensures Build(p, []) == "agent:" + NormalizeAgentID(p.agentID) + ":" + Joined(PartsOf(p))
  {
    hide Build, NormalizeChannel, NormalizeAgentID, Rest;
    KeyParts(p, []);
    RestIs(p, []);
    if KindOf(p) == "direct" {
      NestDirect(NormalizeChannel(p.channel), Lower(PeerOf(p)));
    } else {
      Nest(NormalizeChannel(p.channel), KindOf(p), Lower(PeerOf(p)));
    }
  }

  lemma {:induction false} SameKey(p: Params, q: Params)
    requires Scoped(p) && Scoped(q)
    ensures Build(p, []) == Build(q, [])
            <==> NormalizeAgentID(p.agentID) == NormalizeAgentID(q.agentID) && Joined(PartsOf(p)) == Joined(PartsOf(q))
  {
    hide Build, NormalizeAgentID, PartsOf, Joined, Scoped, ColonFree;
    ScopedRest(p);
    ScopedRest(q);
    AgentColonFree(p.agentID);
    AgentColonFree(q.agentID);
    if Build(p, []) == Build(q, []) {
      AgentsAgree(NormalizeAgentID(p.agentID), Joined(PartsOf(p)), NormalizeAgentID(q.agentID), Joined(PartsOf(q)));
    }
  }

  /** What the parts of a conversation look like: nothing is empty or has space at an end, and channel and
      peer are in lower case. */
  predicate Proper(s: Parts) {
    && Clean(s.channel) && Clean(s.kind) && Clean(s.peer)
    && Lower(s.channel) == s.channel && Lower(s.peer) == s.peer
  }

  lemma {:induction false} LowerTwice(s: string)
    ensures Lower(Lower(s)) == Lower(s)
  {}

  lemma {:induction false} TrimmedLower(s: string)
    requires Lower(s) == s
    ensures Lower(TrimSpace(s)) == TrimSpace(s)
  {
    assert forall i | 0 <= i < |s| :: LowerChar(s[i]) == s[i];
  }

  lemma {:induction false} PartsAreProper(p: Params)
    requires Scoped(p)
    ensures Proper(PartsOf(p))
  {
    hide NormalizeChannel, Lower;
    ChannelIsProper(p.channel);
    assert Clean("direct");
    TrimEnds(p.peer.value.kind);
    TrimEnds(p.peer.value.id);
    LowerClean(PeerOf(p));
    LowerTwice(PeerOf(p));
  }

  lemma {:induction false} ChannelIsProper(channel: string)
    ensures Clean(NormalizeChannel(channel)) && Lower(NormalizeChannel(channel)) == NormalizeChannel(channel)
  {
    LowerTwice(channel);
    TrimmedLower(Lower(channel));
    TrimEnds(Lower(channel));
    assert Clean("unknown") && Lower("unknown") == "unknown";
  }

  lemma {:induction false} JoinedClean(a: string, m: string, b: string)
    requires Clean(a) && Clean(b) && Lower(a) == a && Lower(b) == b && Lower(m) == m
    ensures Clean(a + m + b) && Lower(a + m + b) == a + m + b
  {}

  lemma {:induction false} CleanParts(p: Params, channel: string, kind: string, id: string)
    requires p.channel == channel && p.peer == Some(Peer(kind, id)) && p.scope == PerChannelPeer
    requires Clean(channel) && Clean(kind) && Clean(id) && Lower(channel) == channel && Lower(id) == id
    ensures Scoped(p) && NormalizeChannel(p.channel) == channel && KindOf(p) == kind && Lower(PeerOf(p)) == id
  {
    TrimClean(channel);
    TrimClean(kind);
    TrimClean(id);
  }

  function Conversation(agentID: string, s: Parts): Params {
    Params(agentID, s.channel, "", Some(Peer(s.kind, s.peer)), PerChannelPeer)
  }

  /** Parts that look like it are some conversation's. */
  lemma {:induction false} ProperIsReached(agentID: string, s: Parts)
    requires Proper(s)
    ensures Scoped(Conversation(agentID, s)) && PartsOf(Conversation(agentID, s)) == s
  {
    CleanParts(Conversation(agentID, s), s.channel, s.kind, s.peer);
  }

  /** The rest of a key can be taken apart at these two colons. */
  predicate SplitsAt(r: string, i: int, j: int) {
    0 <= i < j < |r| && r[i] == r[j] == ':' && Proper(Parts(r[..i], r[i + 1..j], r[j + 1..]))
  }

  /** It can be taken apart at other colons than it was put together with. */
  predicate SplitsElsewhere(s: Parts) {
    exists i, j | 0 <= i < |Joined(s)| && 0 <= j < |Joined(s)| ::
      SplitsAt(Joined(s), i, j) && (i != |s.channel| || j != |s.channel| + 1 + |s.kind|)
  }

  lemma {:induction false} SplitBack(s: Parts)
    ensures var r, i, j := Joined(s), |s.channel|, |s.channel| + 1 + |s.kind|;
      && i < j < |r| && r[i] == r[j] == ':'
      && r[..i] == s.channel && r[i + 1..j] == s.kind && r[j + 1..] == s.peer
  {}

  lemma {:induction false} JoinBack(r: string, i: nat, j: nat)
    requires i < j < |r| && r[i] == r[j] == ':'
    ensures Joined(Parts(r[..i], r[i + 1..j], r[j + 1..])) == r
  {
    assert r == r[..i] + ":" + (r[i + 1..j] + ":" + r[j + 1..]);
  }

  /** Other parts that join to the same are a split elsewhere. */
  lemma {:induction false} OtherParts(s: Parts, t: Parts)
    requires Joined(s) == Joined(t) && s != t && Proper(t)
    ensures SplitsElsewhere(s)
  {
    hide Proper, Joined;
    SplitBack(s);
    SplitBack(t);
    var i, j := |t.channel|, |t.channel| + 1 + |t.kind|;
    assert SplitsAt(Joined(s), i, j);
  }

  lemma {:induction false} PartsElsewhere(s: Parts) returns (t: Parts)
    requires SplitsElsewhere(s)
    ensures Proper(t) && Joined(t) == Joined(s) && t != s
  {
    hide Proper, Joined;
    var r := Joined(s);
    var i, j :| 0 <= i < |r| && 0 <= j < |r| && SplitsAt(r, i, j) && (i != |s.channel| || j != |s.channel| + 1 + |s.kind|);
    t := Parts(r[..i], r[i + 1..j], r[j + 1..]);
    JoinBack(r, i, j);
    assert |t.channel| == i && |t.kind| == j - i - 1;
  }

  /**
    A conversation shares its key with another one exactly if the part of the key behind the agent can be
    taken apart at other colons as well.
  */
  lemma {:induction false} SharesKey(p: Params)
    requires Scoped(p)
    ensures (exists q :: Scoped(q) && Build(q, []) == Build(p, []) && !SameConversation(p, q))
            <==> SplitsElsewhere(PartsOf(p))
  {
    hide Build, PartsOf, Scoped, Proper, Joined, SplitsElsewhere, NormalizeAgentID;
    if q :| Scoped(q) && Build(q, []) == Build(p, []) && !SameConversation(p, q) {
      SameKey(q, p);
      PartsAreProper(q);
      OtherParts(PartsOf(p), PartsOf(q));
    }
    if SplitsElsewhere(PartsOf(p)) {
      var t := PartsElsewhere(PartsOf(p));
      var q := Conversation(p.agentID, t);
      ProperIsReached(p.agentID, t);
      SameKey(q, p);
      assert Scoped(q) && Build(q, []) == Build(p, []) && !SameConversation(p, q);
    }
  }

  lemma {:induction false} ColonFreeSplit(s: Parts)
    requires ColonFree(s.channel) && ColonFree(s.kind) && ColonFree(s.peer)
    ensures !SplitsElsewhere(s)
  {
    var r, i, j := Joined(s), |s.channel|, |s.channel| + 1 + |s.kind|;
    SplitBack(s);
    forall k | 0 <= k < |r| && k != i && k != j ensures r[k] != ':' {
      if k < i { InPart(r, 0, i, k); } else if k < j { InPart(r, i + 1, j, k); } else { InPart(r, j + 1, |r|, k); }
    }
  }

  lemma {:induction false} InPart(r: string, lo: nat, hi: nat, k: nat)
    requires lo <= k < hi <= |r| && ColonFree(r[lo..hi])
    ensures r[k] != ':'
  {
    assert r[lo..hi][k - lo] == r[k];
  }

  /** So a conversation without colons in its parts shares its key with no other, whatever that one's parts are. */
  lemma {:induction false} ColonFreeIsolates(p: Params, q: Params)
    requires Scoped(p) && Scoped(q)
    requires ColonFree(NormalizeChannel(p.channel)) && ColonFree(KindOf(p)) && ColonFree(PeerOf(p))
    ensures Build(p, []) == Build(q, []) <==> SameConversation(p, q)
  {
    TrimColonFree(PeerOf(p));
    ColonFreeSplit(PartsOf(p));
    SharesKey(p);
    SameKey(p, q);
    assert Build(q, []) == Build(p, []) ==> SameConversation(p, q);
  }

  /** Nor do two conversations with colon-free channels and kinds share one, whatever their peers. */
  lemma {:induction false} KeysIsolate(p: Params, q: Params)
    requires Scoped(p) && Scoped(q)
    requires ColonFree(p.channel) && ColonFree(KindOf(p)) && ColonFree(q.channel) && ColonFree(KindOf(q))
    ensures Build(p, []) == Build(q, []) <==> SameConversation(p, q)
  {
    hide Build, NormalizeChannel, NormalizeAgentID, KindOf, PeerOf, Lower, Scoped, ColonFree;
    SameKey(p, q);
    ChannelColonFree(p.channel);
    ChannelColonFree(q.channel);
    if Joined(PartsOf(p)) == Joined(PartsOf(q)) {
      PartsAgree(NormalizeChannel(p.channel), KindOf(p), Lower(PeerOf(p)),
                 NormalizeChannel(q.channel), KindOf(q), Lower(PeerOf(q)));
    }
  }

  lemma {:induction false} SplitStarts(r: string, i: int, j: int)
    requires SplitsAt(r, i, j)
    ensures !IsSpace(r[i + 1])
  {
    assert r[i + 1..j][0] == r[i + 1];
  }

  /** A colon that a space follows does no harm: the part behind it would begin with the space. */
  lemma {:induction false} SpaceProtects()
    ensures !SplitsElsewhere(Parts("a: b", "direct", "c"))
  {
    var s := Parts("a: b", "direct", "c");
    assert Joined(s) == "a: b:direct:c";
    NoOtherSplit(Joined(s));
  }

  lemma {:induction false} NoOtherSplit(r: string)
    requires |r| == 13 && r[2] == ' ' && forall k | 0 <= k < |r| && r[k] == ':' :: k == 1 || k == 4 || k == 11
    ensures forall i, j | 0 <= i < |r| && 0 <= j < |r| && SplitsAt(r, i, j) :: i == 4 && j == 11
  {
    forall i, j | 0 <= i < |r| && 0 <= j < |r| && SplitsAt(r, i, j) ensures i == 4 && j == 11 {
      SplitStarts(r, i, j);
    }
  }

  /** Colons between trimmed parts do: a channel a:b shares its keys with kind b on channel a, */
  lemma {:induction false} ChannelsCollide(a: string, b: string, c: string)
    requires Proper(Parts(a, b, c)) && Lower(b) == b
    ensures Proper(Parts(a + ":" + b, "direct", c)) && SplitsElsewhere(Parts(a + ":" + b, "direct", c))
  {
    JoinedClean(a, ":", b);
    JoinedClean("direct", ":", c);
    assert Clean("direct") && "direct" + ":" == "direct:";
    Regroup(a, b, c);
    OtherParts(Parts(a + ":" + b, "direct", c), Parts(a, b, "direct:" + c));
  }

  lemma {:induction false} Regroup(a: string, b: string, c: string)
    ensures (a + ":" + b) + ":" + ("direct" + ":" + c) == a + ":" + (b + ":" + ("direct:" + c))
    ensures |a + ":" + b| != |a|
  {}

  /** and a peer b:direct:c with peer c on channel a:direct:b. */
  lemma {:induction false} PeersCollide(a: string, b: string, c: string)
    requires Proper(Parts(a, "direct", b)) && Clean(c) && Lower(c) == c
    ensures Proper(Parts(a, "direct", b + ":direct:" + c)) && SplitsElsewhere(Parts(a, "direct", b + ":direct:" + c))
  {
    JoinedClean(a, ":direct:", b);
    JoinedClean(b, ":direct:", c);
    RegroupPeer(a, b, c);
    OtherParts(Parts(a, "direct", b + ":direct:" + c), Parts(a + ":direct:" + b, "direct", c));
  }

  lemma {:induction false} RegroupPeer(a: string, b: string, c: string)
    ensures a + ":" + ("direct" + ":" + (b + ":direct:" + c)) == (a + ":direct:" + b) + ":" + ("direct" + ":" + c)
    ensures |a + ":direct:" + b| != |a|
  {}

  // ---------------------------------------------------------------- the other scopes

  predicate Direct(p: Params, scope: Scope) { KindOf(p) == "direct" && p.scope == scope && PeerOf(p) != [] }

  /** For each peer: direct messages share a key exactly if agent and peer are the same. */
  lemma {:induction false} PeersIsolate(p: Params, q: Params)
    requires Direct(p, PerPeer) && Direct(q, PerPeer)
    ensures Build(p, []) == Build(q, [])
            <==> NormalizeAgentID(p.agentID) == NormalizeAgentID(q.agentID) && Lower(PeerOf(p)) == Lower(PeerOf(q))
  {
    hide Build, NormalizeAgentID, PeerOf, ColonFree;
    PeerKey(p);
    PeerKey(q);
    AgentColonFree(p.agentID);
    AgentColonFree(q.agentID);
    var a, b := "direct:" + Lower(PeerOf(p)), "direct:" + Lower(PeerOf(q));
    assert a[7..] == Lower(PeerOf(p)) && b[7..] == Lower(PeerOf(q));
    if Build(p, []) == Build(q, []) {
      AgentsAgree(NormalizeAgentID(p.agentID), a, NormalizeAgentID(q.agentID), b);
    }
  }

  lemma {:induction false} PeerKey(p: Params)
    requires Direct(p, PerPeer)
    ensures Build(p, []) == "agent:" + NormalizeAgentID(p.agentID) + ":" + ("direct:" + Lower(PeerOf(p)))
  {
    hide NormalizeAgentID, NormalizeChannel;
    KeyParts(p, []);
  }

  /** For each account, channel and peer, in channels without colons: likewise. */
  lemma {:induction false} AccountsIsolate(p: Params, q: Params)
    requires Direct(p, PerAccountChannelPeer) && Direct(q, PerAccountChannelPeer)
    requires ColonFree(p.channel) && ColonFree(q.channel)
    ensures Build(p, []) == Build(q, []) <==>
            && NormalizeAgentID(p.agentID) == NormalizeAgentID(q.agentID)
            && NormalizeChannel(p.channel) == NormalizeChannel(q.channel)
            && NormalizeAccountID(p.accountID) == NormalizeAccountID(q.accountID)
            && Lower(PeerOf(p)) == Lower(PeerOf(q))
  {
    hide Build, NormalizeAgentID, NormalizeAccountID, NormalizeChannel, PeerOf, ColonFree;
    AccountKey(p);
    AccountKey(q);
    AgentColonFree(p.agentID);
    AgentColonFree(q.agentID);
    AccountColonFree(p.accountID);
    AccountColonFree(q.accountID);
    ChannelColonFree(p.channel);
    ChannelColonFree(q.channel);
    if Build(p, []) == Build(q, []) {
      var a, b := "direct:" + Lower(PeerOf(p)), "direct:" + Lower(PeerOf(q));
      assert a[7..] == Lower(PeerOf(p)) && b[7..] == Lower(PeerOf(q));
      AgentsAgree(NormalizeAgentID(p.agentID), NormalizeChannel(p.channel) + ":" + (NormalizeAccountID(p.accountID) + ":" + a),
                  NormalizeAgentID(q.agentID), NormalizeChannel(q.channel) + ":" + (NormalizeAccountID(q.accountID) + ":" + b));
      PartsAgree(NormalizeChannel(p.channel), NormalizeAccountID(p.accountID), a,
                 NormalizeChannel(q.channel), NormalizeAccountID(q.accountID), b);
    }
  }

  lemma {:induction false} AccountColonFree(id: string)
    ensures ColonFree(NormalizeAccountID(id))
  {
    assert Documented("default");
    IdColonFree(id, "default");
  }

  lemma {:induction false} AccountKey(p: Params)
    requires Direct(p, PerAccountChannelPeer)
    ensures Build(p, [])
            == "agent:" + NormalizeAgentID(p.agentID) + ":"
               + (NormalizeChannel(p.channel) + ":"
                  + (NormalizeAccountID(p.accountID) + ":" + ("direct:" + Lower(PeerOf(p)))))
  {
    hide NormalizeAgentID, NormalizeChannel, NormalizeAccountID;
    KeyParts(p, []);
    NestAccount(NormalizeChannel(p.channel), NormalizeAccountID(p.accountID), Lower(PeerOf(p)));
  }

  lemma {:induction false} NestAccount(c: string, x: string, id: string)
    ensures c + ":" + x + ":direct:" + id == c + ":" + (x + ":" + ("direct:" + id))
  {
    assert ":direct:" == ":" + "direct:";
  }

  /** But a group of kind x with a peer direct:c shares its key with the direct message of account x and peer c. */
  lemma {:induction false} AccountsCollide(agentID: string, channel: string, other: string, x: string, c: string)
    requires Documented(x) && x != "direct" && Clean(c) && Lower(c) == c
    ensures var p := Params(agentID, channel, x, Some(Peer("direct", c)), PerAccountChannelPeer);
      var q := Params(agentID, channel, other, Some(Peer(x, "direct:" + c)), PerAccountChannelPeer);
      Build(p, []) == Build(q, []) && KindOf(p) != KindOf(q)
  {
    var p := Params(agentID, channel, x, Some(Peer("direct", c)), PerAccountChannelPeer);
    var q := Params(agentID, channel, other, Some(Peer(x, "direct:" + c)), PerAccountChannelPeer);
    IdIsClean(x);
    TrimClean("direct");
    TrimClean(c);
    JoinedClean("direct", ":", c);
    assert "direct" + ":" == "direct:";
    TrimClean("direct:" + c);
    AccountKey(p);
    GroupKeyParts(q, []);
    Nest(NormalizeChannel(channel), x, "direct:" + c);
  }
}
