/** The steps that concern terms, votes and elections keep the invariant. */
module ElectionSteps {
  import opened RaftTypes
  import opened Peers
  import opened Handlers
  import opened RaftCluster
  import opened Quorum
  import opened History
  import opened HistorySteps
  import opened Invariant

  /** Every packet of a broadcast is the letter to some addressed peer. */
  lemma {:induction false} BroadcastLetters(s: Server, ps: seq<Peer>, w: Wave, q: Packet)
    requires NextPositive(ps) && q in Broadcast(s, ps, w)
    ensures exists p :: p in ps && 1 <= p.nextIdx && Addressed(s, p, w) && q == Letter(s, p, w)
  {
    var k := |ps| - 1;
    if q in Broadcast(s, ps[..k], w) {
      BroadcastLetters(s, ps[..k], w, q);
      var p :| p in ps[..k] && 1 <= p.nextIdx && Addressed(s, p, w) && q == Letter(s, p, w);
      assert p in ps;
    } else {
      assert ps[k] in ps && q == Letter(s, ps[k], w);
    }
  }

  lemma AllVote(m: set<NodeId>, n: NodeId, s: Server)
    requires LocalOK(m, n, s)
    ensures VotingIds(s.peers) == m && NextPositive(s.peers) && SelfVoting(s)
  {
    assert VotingIds(s.peers) == Ids(s.peers);
  }

  ghost predicate DifferInTimers(s: Server, s': Server) {
    s' == s.(elapsed := s'.elapsed, electionRand := s'.electionRand)
  }

  lemma TimersDoNotMatter(m: set<NodeId>, h: History, n: NodeId, s: Server, s': Server)
    requires ServerOK(m, h, n, s) && DifferInTimers(s, s')
    ensures ServerOK(m, h, n, s')
  {
    forall p | p in s.peers && p.id != n && s.role == Leader ensures ProgressOK(h, s', p) {
      assert ProgressOK(h, s, p);
    }
  }

  /** A server that sees a higher term and follows it. */
  lemma AdoptTerm(m: set<NodeId>, h: History, n: NodeId, s: Server, t: nat, rnd: nat)
    requires HistoryOK(m, h) && ServerOK(m, h, n, s) && s.term < t
    ensures ServerOK(m, h, n, StepDown(s, t, rnd))
  {
    var s' := StepDown(s, t, rnd);
    assert BallotOK(h, n, s');
    KeepsAckedGrows(m, h, h, n, s.term + 1, t + 1, s.log);
    SettledGrows(m, h, h, s.term, t, s.log[..s.commit]);
  }

  // ----- Candidacy -----

  lemma CandidacyVote(m: set<NodeId>, h: History, n: NodeId, s: Server)
    requires HistoryOK(m, h) && ServerOK(m, h, n, s)
    ensures var h' := RecordVote(h, s.term + 1, n, n, s.log);
            HistoryOK(m, h') && Grows(h, h') && KeepsAcked(h', n, s.term + 2, s.log)
  {
    var t := s.term + 1;
    var h' := RecordVote(h, t, n, n, s.log);
    KeepsAckedGrows(m, h, h, n, t, t + 1, s.log);
    RecordVoteOK(m, h, t, n, n, s.log);
    KeepsAckedGrows(m, h, h', n, t, t + 1, s.log);
  }

  lemma CandidateBallot(m: set<NodeId>, h: History, n: NodeId, s: Server, s': Server)
    requires ServerOK(m, h, n, s)
    requires s'.term == s.term + 1 && s'.votedFor == Some(n) && s'.role == Candidate && s'.log == s.log
    requires forall p :: p in s'.peers ==> !p.votedForMe
    ensures var h' := RecordVote(h, s.term + 1, n, n, s.log);
            BallotOK(h', n, s') && CandidateOK(h', n, s')
  {
  }

  lemma CandidateServer(m: set<NodeId>, h: History, n: NodeId, s: Server, rnd: nat)
    requires HistoryOK(m, h) && ServerOK(m, h, n, s)
    requires NextPositive(s.peers)
    ensures var h' := RecordVote(h, s.term + 1, n, n, s.log);
            HistoryOK(m, h') && Grows(h, h') && ServerOK(m, h', n, BecomeCandidate(s, rnd).server)
  {
    hide HistoryOK, Grows, KeepsAcked, LogOK, BallotOK, CandidateOK, Settled, DistinctIds, Ids, ClearVotes, Broadcast, RecordVote;
    var t := s.term + 1;
    var h' := RecordVote(h, t, n, n, s.log);
    var s' := BecomeCandidate(s, rnd).server;
    ClearedPeers(m, n, s, s');
    CandidateBallot(m, h, n, s, s');
    CandidacyVote(m, h, n, s);
    LogOKGrows(h, h', s.log);
    SettledGrows(m, h, h', s.term, t, s.log[..s.commit]);
  }

  lemma ClearedPeers(m: set<NodeId>, n: NodeId, s: Server, s': Server)
    requires LocalOK(m, n, s) && s'.peers == ClearVotes(s.peers)
    ensures DistinctIds(s'.peers) && Ids(s'.peers) == m
    ensures forall p :: p in s'.peers ==> p.voting && p.active && 1 <= p.nextIdx && !p.votedForMe
  {
    assert forall i :: 0 <= i < |s.peers| ==> s.peers[i] in s.peers;
    SameIds(s.peers, s'.peers);
  }

  lemma SameIds(ps: seq<Peer>, qs: seq<Peer>)
    requires |ps| == |qs| && forall i :: 0 <= i < |ps| ==> qs[i].id == ps[i].id
    ensures Ids(qs) == Ids(ps)
    ensures DistinctIds(ps) ==> DistinctIds(qs)
  {
    forall id | id in Ids(ps) ensures id in Ids(qs) {
      var i :| 0 <= i < |ps| && ps[i].id == id;
      assert qs[i] in qs;
    }
    forall id | id in Ids(qs) ensures id in Ids(ps) {
      var i :| 0 <= i < |qs| && qs[i].id == id;
      assert ps[i] in ps;
    }
  }

  lemma VoteRequestOK(m: set<NodeId>, h: History, n: NodeId, s: Server, q: Packet)
    requires ServerOK(m, h, n, s) && s.role == Candidate && NextPositive(s.peers)
    requires q in Broadcast(s, s.peers, Canvass)
    ensures PacketOK(m, h, q) && Backed(s, q.msg)
  {
    BroadcastLetters(s, s.peers, Canvass, q);
    var p :| p in s.peers && 1 <= p.nextIdx && Addressed(s, p, Canvass) && q == Letter(s, p, Canvass);
    assert p.id in Ids(s.peers);
  }

  // ----- Votes -----

  /** A server that answers a vote request without granting it. */
  lemma HearCandidateServer(m: set<NodeId>, h: History, n: NodeId, s: Server, rv: Message, rnd: nat)
    requires HistoryOK(m, h) && ServerOK(m, h, n, s) && rv.RequestVote?
    ensures ServerOK(m, h, n, HearCandidate(s, rv, rnd))
  {
    if s.term < rv.term {
      AdoptTerm(m, h, n, s, rv.term, rnd);
    }
  }

  /** Only a follower grants: a leader or candidate has voted in its term. */
  lemma OnlyFollowersGrant(m: set<NodeId>, h: History, n: NodeId, s: Server, rv: Message, rnd: nat)
    requires HistoryOK(m, h) && ServerOK(m, h, n, s) && rv.RequestVote?
    ensures RequestVoteAsserts(s, rv, rnd)
  {
    HearCandidateServer(m, h, n, s, rv, rnd);
    var s1 := HearCandidate(s, rv, rnd);
    assert s1.role == Leader ==> ElectionOK(m, h, s1.term);
  }

  ghost function GrantedTo(s: Server, rv: Message): Server
    requires rv.RequestVote?
  {
    s.(votedFor := Some(rv.candidate), leader := None, elapsed := 0)
  }

  lemma GrantingServer(m: set<NodeId>, h: History, n: NodeId, s: Server, src: NodeId, rv: Message)
    requires HistoryOK(m, h) && ServerOK(m, h, n, s) && s.role == Follower
    requires rv.RequestVote? && n != src && MessageOK(m, h, src, n, rv)
    requires rv.term <= s.term && ShouldGrantVote(s, rv)
    ensures rv.term == s.term
    ensures var h' := RecordVote(h, s.term, n, src, s.log);
            HistoryOK(m, h') && Grows(h, h') && ServerOK(m, h', n, GrantedTo(s, rv))
  {
    hide *;
    var t := s.term;
    var h' := RecordVote(h, t, n, src, s.log);
    var s' := GrantedTo(s, rv);
    GrantConditions(m, h, n, s, src, rv);
    RecordVoteOK(m, h, t, n, src, s.log);
    LogOKGrows(h, h', s.log);
    VoteKeepsAcks(h, t, n, src, s.log);
    KeepsAckedGrows(m, h, h', n, t + 1, t + 1, s.log);
    SettledGrows(m, h, h', t, t, s.log[..s.commit]);
    GrantedState(m, h, n, s, src, rv);
  }

  /** A vote that is granted is the first in its term, for a candidate that stands and whose log is
      up to date. */
  lemma GrantConditions(m: set<NodeId>, h: History, n: NodeId, s: Server, src: NodeId, rv: Message)
    requires HistoryOK(m, h) && ServerOK(m, h, n, s) && s.role == Follower
    requires rv.RequestVote? && n != src && MessageOK(m, h, src, n, rv) && rv.term <= s.term && ShouldGrantVote(s, rv)
    ensures rv.term == s.term && rv.candidate == src && (s.term, n) !in h.votes && n in m && LogOK(h, s.log) && s.commit <= |s.log|
    ensures (s.term, src) in h.votes && h.votes[(s.term, src)].candidate == src
    ensures UpToDate(|h.votes[(s.term, src)].log|, LastTerm(h.votes[(s.term, src)].log), s.log)
    ensures KeepsAcked(h, n, s.term + 1, s.log) && Settled(m, h, s.term, s.log[..s.commit])
  {
    hide HistoryOK, LogOK, TermsAtMost, KeepsAcked, Settled, CandidateOK, LeaderOK, HintOK, DistinctIds, Ids, SelfVoting, WindowOK;
  }

  lemma VoteKeepsAcks(h: History, t: nat, n: NodeId, src: NodeId, log: seq<Entry>)
    ensures RecordVote(h, t, n, src, log).acks == h.acks
  {
  }

  lemma GrantedState(m: set<NodeId>, h: History, n: NodeId, s: Server, src: NodeId, rv: Message)
    requires ServerOK(m, h, n, s) && s.role == Follower && rv.RequestVote? && rv.candidate == src
    requires var h' := RecordVote(h, s.term, n, src, s.log);
      LogOK(h', s.log) && KeepsAcked(h', n, s.term + 1, s.log) && s.commit <= |s.log| && Settled(m, h', s.term, s.log[..s.commit])
    ensures ServerOK(m, RecordVote(h, s.term, n, src, s.log), n, GrantedTo(s, rv))
  {
    hide LogOK, TermsAtMost, KeepsAcked, Settled, DistinctIds, Ids;
  }

  // ----- Counting votes -----

  lemma SupportServer(m: set<NodeId>, h: History, n: NodeId, s: Server, from: NodeId)
    requires HistoryOK(m, h) && ServerOK(m, h, n, s) && s.role == Candidate
    requires (s.term, from) in h.votes && h.votes[(s.term, from)].candidate == n
    ensures ServerOK(m, h, n, RecordSupport(s, from))
  {
    hide HistoryOK, BallotOK, LogOK, KeepsAcked, Settled, Replace, DistinctIds, Ids, LeaderOK, HintOK, TermsAtMost, WindowOK;
    var f := Find(s.peers, from);
    if f.Some? {
      var q := f.value.(votedForMe := true);
      SupportedPeers(h, n, s, from, q);
      SupportKeeps(m, h, n, s, s.(peers := Replace(s.peers, q)));
    }
  }

  /** A change to the peers leaves the rest of a candidate's invariant as it is. */
  lemma SupportKeeps(m: set<NodeId>, h: History, n: NodeId, s: Server, s': Server)
    requires ServerOK(m, h, n, s) && s.role == Candidate && s' == s.(peers := s'.peers)
    ensures BallotOK(h, n, s') && LeaderOK(h, n, s') && HintOK(h, s') && WindowOK(s')
  {
  }

  lemma SupportedPeers(h: History, n: NodeId, s: Server, from: NodeId, q: Peer)
    requires Find(s.peers, from).Some? && q == Find(s.peers, from).value.(votedForMe := true)
    requires (s.term, from) in h.votes && h.votes[(s.term, from)].candidate == n
    requires forall p :: p in s.peers ==> p.voting && p.active && 1 <= p.nextIdx
    requires forall p :: p in s.peers && p.id != n && p.votedForMe ==>
      (s.term, p.id) in h.votes && h.votes[(s.term, p.id)].candidate == n
    ensures var ps := Replace(s.peers, q);
      && Ids(ps) == Ids(s.peers) && (DistinctIds(s.peers) ==> DistinctIds(ps))
      && (forall p :: p in ps ==> p.voting && p.active && 1 <= p.nextIdx)
      && (forall p :: p in ps && p.id != n && p.votedForMe ==>
            (s.term, p.id) in h.votes && h.votes[(s.term, p.id)].candidate == n)
  {
    ReplaceKeepsIds(s.peers, q);
    var ps := Replace(s.peers, q);
    forall p | p in ps
      ensures p.voting && p.active && 1 <= p.nextIdx
      ensures p.id != n && p.votedForMe ==> (s.term, p.id) in h.votes && h.votes[(s.term, p.id)].candidate == n
    {
      var i :| 0 <= i < |ps| && ps[i] == p;
      assert s.peers[i] in s.peers;
    }
  }

  /** The votes a candidate counts form a quorum of voters for it once they are a majority, and
      no other leader of the term can exist. */
  lemma CountedQuorum(m: set<NodeId>, h: History, n: NodeId, s: Server)
    requires HistoryOK(m, h) && ServerOK(m, h, n, s) && s.role == Candidate
    requires VotesIsMajority(|VotingIds(s.peers)|, VotesForMe(s))
    ensures var q := Supporters(s.peers, n) + {n};
      && Majority(m, q)
      && (forall v :: v in q ==> (s.term, v) in h.votes && h.votes[(s.term, v)].candidate == n)
    ensures s.term !in h.elections
  {
    hide *;
    CandidateParts(m, h, n, s);
    AllVote(m, n, s);
    var q := Supporters(s.peers, n) + {n};
    CountedMajority(m, n, s);
    forall v | v in q ensures (s.term, v) in h.votes && h.votes[(s.term, v)].candidate == n {
      SupporterVoted(h, n, s, v);
    }
    OnlyLeadersElected(m, h, n, s);
    if s.term in h.elections {
      var w := ElectedBy(m, h, s.term);
      var v := MajoritiesMeet(m, q, w);
    }
  }

  lemma CandidateParts(m: set<NodeId>, h: History, n: NodeId, s: Server)
    requires ServerOK(m, h, n, s) && s.role == Candidate
    ensures LocalOK(m, n, s) && s.id == n && n in m && CandidateOK(h, n, s)
  {
    hide LogOK, TermsAtMost, KeepsAcked, Settled, BallotOK, CandidateOK, HintOK, DistinctIds, Ids, WindowOK;
  }

  lemma CountedMajority(m: set<NodeId>, n: NodeId, s: Server)
    requires LocalOK(m, n, s) && VotingIds(s.peers) == m && VotesIsMajority(|m|, VotesForMe(s))
    ensures Majority(m, Supporters(s.peers, n) + {n})
  {
    hide DistinctIds, WindowOK;
    assert Supporters(s.peers, n) <= Ids(s.peers);
    assert |Supporters(s.peers, n) + {n}| == |Supporters(s.peers, n)| + 1;
  }

  lemma SupporterVoted(h: History, n: NodeId, s: Server, v: NodeId)
    requires CandidateOK(h, n, s) && s.role == Candidate && v in Supporters(s.peers, n) + {n}
    ensures (s.term, v) in h.votes && h.votes[(s.term, v)].candidate == n
  {
  }

  lemma ElectedBy(m: set<NodeId>, h: History, t: nat) returns (q: set<NodeId>)
    requires HistoryOK(m, h) && t in h.elections
    ensures q == h.elections[t].quorum && Majority(m, q)
    ensures forall v :: v in q ==> (t, v) in h.votes && h.votes[(t, v)].candidate == h.elections[t].leader
  {
    assert ElectionOK(m, h, t);
    hide LogOK, TermsBelow;
    q := h.elections[t].quorum;
  }

  /** A candidate was not elected in its term. */
  lemma OnlyLeadersElected(m: set<NodeId>, h: History, n: NodeId, s: Server)
    requires ServerOK(m, h, n, s) && s.role == Candidate
    ensures s.term in h.elections ==> h.elections[s.term].leader != n
  {
    hide LogOK, TermsAtMost, KeepsAcked, Settled, CandidateOK, HintOK, LocalOK;
  }

  lemma WinnerBallot(m: set<NodeId>, h: History, n: NodeId, s: Server, s': Server, q: set<NodeId>)
    requires ServerOK(m, h, n, s) && s.role == Candidate
    requires s'.term == s.term && s'.votedFor == s.votedFor && s'.role == Leader && s'.log == s.log
    ensures BallotOK(RecordElection(h, s.term, n, s.log, q), n, s')
  {
  }

  lemma WinnerElection(m: set<NodeId>, h: History, n: NodeId, s: Server)
    requires HistoryOK(m, h) && ServerOK(m, h, n, s) && s.role == Candidate
    requires VotesIsMajority(|VotingIds(s.peers)|, VotesForMe(s))
    ensures var h' := RecordElection(h, s.term, n, s.log, Supporters(s.peers, n) + {n});
            HistoryOK(m, h') && Grows(h, h') && s.term !in h.elections
  {
    CountedQuorum(m, h, n, s);
    hide HistoryOK, ElectionOK, VoteOK;
    RecordElectionOK(m, h, s.term, n, s.log, Supporters(s.peers, n) + {n});
  }

  lemma WinningServer(m: set<NodeId>, h: History, n: NodeId, s: Server)
    requires HistoryOK(m, h) && ServerOK(m, h, n, s) && s.role == Candidate && NextPositive(s.peers)
    requires VotesIsMajority(|VotingIds(s.peers)|, VotesForMe(s))
    ensures var h' := RecordElection(h, s.term, n, s.log, Supporters(s.peers, n) + {n});
            && HistoryOK(m, h') && Grows(h, h') && ServerOK(m, h', n, BecomeLeader(s).server)
            && s.term !in h.elections
  {
    hide *;
    var t := s.term;
    var q := Supporters(s.peers, n) + {n};
    var h' := RecordElection(h, t, n, s.log, q);
    var s' := BecomeLeader(s).server;
    CandidateParts(m, h, n, s);
    ServerParts(m, h, n, s);
    WinnerState(s);
    WinnerLocal(m, h', n, s, s');
    WinnerBallot(m, h, n, s, s', q);
    WinnerElection(m, h, n, s);
    WinnerLeads(h, n, s, s', q);
    LogOKGrows(h, h', s.log);
    SettledGrows(m, h, h', t, t, s.log[..s.commit]);
    WinnerKeeps(m, h, h', n, s, q);
    NoCandidate(h', n, s');
    assert ServerOK(m, h', n, s') by { PartsOK(m, h', n, s'); }
  }

  lemma NoCandidate(h: History, n: NodeId, s: Server)
    requires s.role == Leader
    ensures CandidateOK(h, n, s)
  {
  }

  lemma WinnerLocal(m: set<NodeId>, h: History, n: NodeId, s: Server, s': Server)
    requires LocalOK(m, n, s)
    requires s' == s.(role := Leader, leader := Some(n), elapsed := 0, peers := ResetProgress(s.peers, n, |s.log|))
    ensures LocalOK(m, n, s')
    ensures forall p :: p in s'.peers && p.id != n ==> ProgressOK(h, s', p)
  {
    hide ProgressOK, LogOK, KeepsAcked, Settled;
    ResetPeers(m, n, s, s', h);
  }

  lemma WinnerState(s: Server)
    requires NextPositive(s.peers)
    ensures BecomeLeader(s).server ==
      s.(role := Leader, leader := Some(s.id), elapsed := 0, peers := ResetProgress(s.peers, s.id, |s.log|))
  {
  }

  lemma WinnerLeads(h: History, n: NodeId, s: Server, s': Server, q: set<NodeId>)
    requires s'.role == Leader && s'.leader == Some(n) && s'.term == s.term && s'.log == s.log
    requires var h' := RecordElection(h, s.term, n, s.log, q);
      forall p :: p in s'.peers && p.id != n ==> ProgressOK(h', s', p)
    ensures var h' := RecordElection(h, s.term, n, s.log, q); LeaderOK(h', n, s') && HintOK(h', s')
  {
    hide ProgressOK;
  }

  lemma ResetPeers(m: set<NodeId>, n: NodeId, s: Server, s': Server, h: History)
    requires LocalOK(m, n, s) && s'.peers == ResetProgress(s.peers, n, |s.log|) && s'.log == s.log
    ensures DistinctIds(s'.peers) && Ids(s'.peers) == m
    ensures forall p :: p in s'.peers ==> p.voting && p.active && 1 <= p.nextIdx
    ensures forall p :: p in s'.peers && p.id != n ==> ProgressOK(h, s', p)
  {
    SameIds(s.peers, s'.peers);
    forall p | p in s'.peers
      ensures p.voting && p.active && 1 <= p.nextIdx
      ensures p.id != n ==> ProgressOK(h, s', p)
    {
      var i :| 0 <= i < |s'.peers| && s'.peers[i] == p;
      assert s.peers[i] in s.peers;
    }
  }

  /** The winner's own acknowledgement is of its own log. */
  lemma WinnerKeeps(m: set<NodeId>, h: History, h': History, n: NodeId, s: Server, q: set<NodeId>)
    requires HistoryOK(m, h) && ServerOK(m, h, n, s) && s.term !in h.elections
    requires h' == RecordElection(h, s.term, n, s.log, q)
    ensures KeepsAcked(h', n, s.term + 1, s.log)
  {
    var hi := s.term + 1;
    forall t: nat, k: nat |
      (t, n) in h'.acks && t < hi && k <= h'.acks[(t, n)] && t in h'.logs && k <= |h'.logs[t]|
      ensures Keeps(h', t, k, hi, s.log)
    {
      assert s.term in h'.elections;
    }
  }
}
