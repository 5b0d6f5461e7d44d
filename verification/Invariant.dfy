/** The invariant that ties servers and packets to the history of the run. */
module Invariant {
  import opened RaftTypes
  import opened Peers
  import opened Handlers
  import opened RaftCluster
  import opened AppendLaws
  import opened History
  import opened HistorySteps

  /** Facts about one server that need no history. */
  ghost predicate LocalOK(m: set<NodeId>, n: NodeId, s: Server) {
    && s.id == n && n in m
    && DistinctIds(s.peers) && Ids(s.peers) == m
    && (forall p :: p in s.peers ==> p.voting && p.active && 1 <= p.nextIdx)
    && s.applied <= s.commit <= |s.log|
    && s.fed == HandedOver(s.log[..s.applied])
    && WindowOK(s)
  }

  /** The server's term, vote and role against what it voted and won. */
  ghost predicate BallotOK(h: History, n: NodeId, s: Server) {
    && (forall t: nat :: (t, n) in h.votes ==> t <= s.term)
    && (forall t: nat :: (t, n) in h.acks ==> t <= s.term)
    && ((s.term, n) in h.votes ==> s.votedFor == Some(h.votes[(s.term, n)].candidate))
    && ((s.term, n) !in h.votes ==> s.votedFor == None)
    && (forall t: nat :: t in h.elections && h.elections[t].leader == n ==>
          t < s.term || (t == s.term && s.role == Leader))
  }

  /** A candidate has voted for itself with its present log, and every vote it counts was cast. */
  ghost predicate CandidateOK(h: History, n: NodeId, s: Server) {
    s.role == Candidate ==>
      && (s.term, n) in h.votes && h.votes[(s.term, n)] == Vote(n, s.log)
      && forall p :: p in s.peers && p.id != n && p.votedForMe ==>
           (s.term, p.id) in h.votes && h.votes[(s.term, p.id)].candidate == n
  }

  /** Replication bookkeeping of a leader for one peer. */
  ghost predicate ProgressOK(h: History, s: Server, p: Peer) {
    && 1 <= p.nextIdx <= |s.log| + 1
    && (p.matchIdx == 0 || p.matchIdx == p.nextIdx - 1)
    && (0 < p.matchIdx ==> (s.term, p.id) in h.acks && p.matchIdx <= h.acks[(s.term, p.id)])
  }

  ghost predicate LeaderOK(h: History, n: NodeId, s: Server) {
    s.role == Leader ==>
      && s.term in h.elections && h.elections[s.term].leader == n
      && s.term in h.logs && h.logs[s.term] == s.log
      && (s.term, n) in h.acks && h.acks[(s.term, n)] == |s.log|
      && forall p :: p in s.peers && p.id != n ==> ProgressOK(h, s, p)
  }

  /** The leader a server names was elected in the server's term. */
  ghost predicate HintOK(h: History, s: Server) {
    s.leader.Some? ==> s.term in h.elections && h.elections[s.term].leader == s.leader.value
  }

  ghost predicate ServerOK(m: set<NodeId>, h: History, n: NodeId, s: Server) {
    && LocalOK(m, n, s)
    && LogOK(h, s.log) && TermsAtMost(s.log, s.term)
    && BallotOK(h, n, s)
    && CandidateOK(h, n, s)
    && LeaderOK(h, n, s)
    && HintOK(h, s)
    && KeepsAcked(h, n, s.term + 1, s.log)
    && Settled(m, h, s.term, s.log[..s.commit])
  }

  lemma ServerParts(m: set<NodeId>, h: History, n: NodeId, s: Server)
    requires ServerOK(m, h, n, s)
    ensures LocalOK(m, n, s) && LogOK(h, s.log) && TermsAtMost(s.log, s.term) && s.commit <= |s.log|
    ensures Settled(m, h, s.term, s.log[..s.commit]) && KeepsAcked(h, n, s.term + 1, s.log) && n in m
    ensures forall u: nat :: (u, n) in h.votes ==> u <= s.term
    ensures forall u: nat :: (u, n) in h.acks ==> u <= s.term
  {
    hide LogOK, TermsAtMost, KeepsAcked, Settled, CandidateOK, LeaderOK, HintOK, DistinctIds, Ids;
  }

  lemma PartsOK(m: set<NodeId>, h: History, n: NodeId, s: Server)
    requires LocalOK(m, n, s) && LogOK(h, s.log) && TermsAtMost(s.log, s.term) && BallotOK(h, n, s) && CandidateOK(h, n, s)
    requires LeaderOK(h, n, s) && HintOK(h, s) && KeepsAcked(h, n, s.term + 1, s.log) && s.commit <= |s.log|
    requires Settled(m, h, s.term, s.log[..s.commit])
    ensures ServerOK(m, h, n, s)
  {
    hide LocalOK, LogOK, TermsAtMost, BallotOK, CandidateOK, LeaderOK, HintOK, KeepsAcked, Settled;
  }

  ghost predicate MessageOK(m: set<NodeId>, h: History, src: NodeId, dst: NodeId, msg: Message) {
    match msg
    case RequestVote(t, candidate, lastIdx, lastTerm) =>
      && candidate == src
      && (t, src) in h.votes
      && var v := h.votes[(t, src)];
      && v.candidate == src && lastIdx == |v.log| && lastTerm <= LastTerm(v.log)
    case VoteReply(t, ballot) =>
      ballot == Granted ==> (t, src) in h.votes && h.votes[(t, src)].candidate == dst
    case AppendEntries(t, prev, prevTerm, lc, n, entries) =>
      && t in h.elections && h.elections[t].leader == src
      && t in h.logs && Carries(msg, h.logs[t])
      && |entries| == n && lc <= prev + n
      && Settled(m, h, t, h.logs[t][..lc])
    case AppendReply(t, success, currentIdx, _) =>
      success ==>
        && t in h.elections && h.elections[t].leader == dst
        && (t, src) in h.acks && currentIdx <= h.acks[(t, src)]
  }

  ghost predicate PacketOK(m: set<NodeId>, h: History, p: Packet) {
    p.src in m && p.dst in m && p.src != p.dst && MessageOK(m, h, p.src, p.dst, p.msg)
  }

  ghost predicate Inv(m: set<NodeId>, c: Cluster, h: History) {
    && 2 <= |m|
    && HistoryOK(m, h)
    && c.servers.Keys == m
    && (forall n {:trigger ServerOK(m, h, n, c.servers[n])} :: n in m ==> ServerOK(m, h, n, c.servers[n]))
    && (forall p {:trigger PacketOK(m, h, p)} :: p in c.net ==> PacketOK(m, h, p))
  }

  const NoHistory := History(map[], map[], map[], map[])

  lemma InitialInv(m: set<NodeId>, c: Cluster)
    requires Initial(m, c)
    ensures Inv(m, c, NoHistory)
  {
    EmptyHistoryOK(m);
    hide HistoryOK, ServerOK, InitialServer;
    forall n | n in m ensures ServerOK(m, NoHistory, n, c.servers[n]) {
      assert InitialServer(m, n, c.servers[n]);
      InitialServerOK(m, n, c.servers[n]);
    }
  }

  lemma EmptyHistoryOK(m: set<NodeId>)
    ensures HistoryOK(m, NoHistory)
  {
  }

  lemma InitialServerOK(m: set<NodeId>, n: NodeId, s: Server)
    requires InitialServer(m, n, s) && n in m
    ensures ServerOK(m, NoHistory, n, s)
  {
    hide DistinctIds, Ids;
  }

  /** The history grows without touching what it says about node `n`. */
  ghost predicate LeavesAlone(h: History, h': History, n: NodeId) {
    && (forall t: nat :: (t, n) in h'.votes ==> (t, n) in h.votes)
    && (forall t: nat :: (t, n) in h'.acks ==> (t, n) in h.acks && h'.acks[(t, n)] == h.acks[(t, n)])
    && (forall t: nat :: t in h'.elections && h'.elections[t].leader == n ==>
          t in h.elections && t in h.logs && t in h'.logs && h'.logs[t] == h.logs[t])
  }

  lemma ServerFrame(m: set<NodeId>, h: History, h': History, n: NodeId, s: Server)
    requires HistoryOK(m, h) && HistoryOK(m, h') && Grows(h, h') && LeavesAlone(h, h', n)
    requires ServerOK(m, h, n, s)
    ensures ServerOK(m, h', n, s)
  {
    LogOKGrows(h, h', s.log);
    SettledGrows(m, h, h', s.term, s.term, s.log[..s.commit]);
    KeepsAckedGrows(m, h, h', n, s.term + 1, s.term + 1, s.log);
    forall p | p in s.peers && p.id != n && s.role == Leader ensures ProgressOK(h', s, p) {
      assert ProgressOK(h, s, p);
    }
  }

  lemma PacketFrame(m: set<NodeId>, h: History, h': History, p: Packet)
    requires Grows(h, h') && PacketOK(m, h, p)
    ensures PacketOK(m, h', p)
  {
    match p.msg
    case AppendEntries(t, prev, prevTerm, lc, n, entries) =>
      assert h.logs[t] == h'.logs[t][..|h.logs[t]|];
      assert h.logs[t][prev..prev + n] == h'.logs[t][prev..prev + n];
      assert h.logs[t][..lc] == h'.logs[t][..lc];
      SettledGrows(m, h, h', t, t, h.logs[t][..lc]);
    case _ =>
  }

  lemma OthersStay(m: set<NodeId>, c: Cluster, h: History, n: NodeId, h': History)
    requires Inv(m, c, h) && HistoryOK(m, h') && Grows(h, h')
    requires forall k :: k in m && k != n ==> LeavesAlone(h, h', k)
    ensures forall k :: k in m && k != n ==> ServerOK(m, h', k, c.servers[k])
  {
    forall k | k in m && k != n ensures ServerOK(m, h', k, c.servers[k]) {
      ServerFrame(m, h, h', k, c.servers[k]);
    }
  }

  lemma PacketsStay(m: set<NodeId>, c: Cluster, h: History, h': History)
    requires Inv(m, c, h) && Grows(h, h')
    ensures forall p :: p in c.net ==> PacketOK(m, h', p)
  {
    forall p | p in c.net ensures PacketOK(m, h', p) {
      PacketFrame(m, h, h', p);
    }
  }

  /** One server acts, the history grows, everything else stays put. */
  lemma StepInv(m: set<NodeId>, c: Cluster, h: History, n: NodeId, s': Server, out: set<Packet>, h': History)
    requires Inv(m, c, h) && n in m
    requires HistoryOK(m, h') && Grows(h, h')
    requires ServerOK(m, h', n, s')
    requires forall k :: k in m && k != n ==> LeavesAlone(h, h', k)
    requires forall p :: p in out ==> PacketOK(m, h', p)
    ensures Inv(m, Cluster(c.servers[n := s'], c.net + out), h')
  {
    hide HistoryOK, ServerOK, PacketOK, LeavesAlone, Grows;
    var c' := Cluster(c.servers[n := s'], c.net + out);
    OthersStay(m, c, h, n, h');
    PacketsStay(m, c, h, h');
    assert c'.servers.Keys == m;
    forall k | k in m ensures ServerOK(m, h', k, c'.servers[k]) {
      assert k != n ==> ServerOK(m, h', k, c.servers[k]);
    }
  }
}
