/** The outcome of each handler for all states and inputs: what changes, what is sent and what is
    returned, in terms of the node list, the log and the message alone. */
module Outcomes {
  import opened RaftTypes
  import opened Peers
  import opened Handlers
  import opened HandlerLaws

  // ----- What is sent -----

  /** A message for a peer: with the entries before it, its entries make up the log; the term told for
      the entry before is that entry's, or 0 if it is not listed. */
  lemma MessageCompletes(s: Server, p: Peer)
    requires 1 <= p.nextIdx
    ensures var msg := AppendFor(s, p);
      && msg.AppendEntries? && msg.term == s.term && msg.leaderCommit == s.commit
      && msg.prevIdx == p.nextIdx - 1 && msg.n == |msg.entries|
      && (msg.prevIdx <= |s.log| ==> s.log[..msg.prevIdx] + msg.entries == s.log)
      && (|s.log| < msg.prevIdx ==> msg.entries == [])
      && (s.gone < msg.prevIdx <= |s.log| ==> msg.prevTerm == s.log[msg.prevIdx - 1].term)
      && (!(s.gone < msg.prevIdx <= |s.log|) ==> msg.prevTerm == 0)
  {
  }

  lemma {:induction false} BroadcastReaches(s: Server, ps: seq<Peer>, w: Wave, q: Packet)
    requires NextPositive(ps)
    ensures q in Broadcast(s, ps, w) <==> exists i :: 0 <= i < |ps| && Addressed(s, ps[i], w) && q == Letter(s, ps[i], w)
  {
    if ps != [] {
      var k := |ps| - 1;
      BroadcastReaches(s, ps[..k], w, q);
      hide Addressed, Letter;
      if q in Broadcast(s, ps[..k], w) {
        var i :| 0 <= i < k && Addressed(s, ps[..k][i], w) && q == Letter(s, ps[..k][i], w);
        assert ps[i] == ps[..k][i];
      }
      if i :| 0 <= i < |ps| && Addressed(s, ps[i], w) && q == Letter(s, ps[i], w) {
        assert i < k ==> ps[..k][i] == ps[i];
      }
    }
  }

  /** Nobody is written to twice. */
  lemma {:induction false} BroadcastOnce(s: Server, ps: seq<Peer>, w: Wave)
    requires NextPositive(ps) && DistinctIds(ps)
    ensures forall i, j :: 0 <= i < j < |Broadcast(s, ps, w)| ==> Broadcast(s, ps, w)[i].dst != Broadcast(s, ps, w)[j].dst
    ensures forall q :: q in Broadcast(s, ps, w) ==> q.dst in Ids(ps)
  {
    if ps != [] {
      var k := |ps| - 1;
      BroadcastOnce(s, ps[..k], w);
      hide Addressed;
      assert forall p :: p in ps[..k] ==> p in ps;
      assert ps[k] in ps && forall i :: 0 <= i < k ==> ps[..k][i].id != ps[k].id;
    }
  }

  /** A heartbeat goes to every other active peer. */
  lemma HeartbeatReaches(s: Server, q: Packet)
    requires NextPositive(s.peers)
    ensures q in Broadcast(s, s.peers, Heartbeat) <==>
      exists p :: p in s.peers && p.id != s.id && p.active && 1 <= p.nextIdx && q == Packet(s.id, p.id, AppendFor(s, p))
  {
    BroadcastReaches(s, s.peers, Heartbeat, q);
    hide Broadcast, AppendFor;
    if p :| p in s.peers && p.id != s.id && p.active && 1 <= p.nextIdx && q == Packet(s.id, p.id, AppendFor(s, p)) {
      var i :| 0 <= i < |s.peers| && s.peers[i] == p;
      assert Addressed(s, s.peers[i], Heartbeat) && q == Letter(s, s.peers[i], Heartbeat);
    }
  }

  /** A new entry goes to the other active voting peers that lack nothing else. */
  lemma NewEntryReaches(s: Server, q: Packet)
    requires NextPositive(s.peers)
    ensures q in Broadcast(s, s.peers, NewEntry) <==>
      exists p :: p in s.peers && p.id != s.id && p.active && p.voting && 1 <= p.nextIdx == |s.log|
        && q == Packet(s.id, p.id, AppendFor(s, p))
  {
    BroadcastReaches(s, s.peers, NewEntry, q);
    hide Broadcast, AppendFor;
    if p :| p in s.peers && p.id != s.id && p.active && p.voting && 1 <= p.nextIdx == |s.log|
            && q == Packet(s.id, p.id, AppendFor(s, p)) {
      var i :| 0 <= i < |s.peers| && s.peers[i] == p;
      assert Addressed(s, s.peers[i], NewEntry) && q == Letter(s, s.peers[i], NewEntry);
    }
  }

  /** A candidate asks every other active voting peer, and tells it where its log ends. */
  lemma CanvassReaches(s: Server, q: Packet)
    requires NextPositive(s.peers)
    ensures q in Broadcast(s, s.peers, Canvass) <==>
      exists p :: p in s.peers && p.id != s.id && p.active && p.voting
        && q == Packet(s.id, p.id, RequestVote(s.term, s.id, |s.log|, if s.gone < |s.log| then LastTerm(s.log) else 0))
  {
    BroadcastReaches(s, s.peers, Canvass, q);
    hide Broadcast;
    if p :| p in s.peers && p.id != s.id && p.active && p.voting && q == Packet(s.id, p.id, VoteRequest(s)) {
      var i :| 0 <= i < |s.peers| && s.peers[i] == p;
      assert Addressed(s, s.peers[i], Canvass) && q == Letter(s, s.peers[i], Canvass);
    }
  }

  // ----- Votes -----

  /** The state of a server that saw the higher term `t`. */
  predicate SteppedDown(s: Server, s': Server, t: nat, rnd: nat) {
    s' == s.(term := t, votedFor := None, role := Follower, leader := None, elapsed := 0,
             electionRand := s.electionTimeout + rnd % s.electionTimeout)
  }

  lemma OwnVote(s: Server)
    requires DistinctIds(s.peers)
    ensures SelfVoting(s) <==> exists p :: p in s.peers && p.id == s.id && p.voting
  {
    if p :| p in s.peers && p.id == s.id && p.voting {
      var i :| 0 <= i < |s.peers| && s.peers[i] == p;
      FindIs(s.peers, i);
    }
  }

  /** The answer to a vote request. The vote is granted if the server votes, has no vote left from that
      term, and is no more up to date. Otherwise the ballot says `UnknownNode` exactly if neither the
      sender nor the candidate is listed. A higher term is adopted in any case. */
  lemma VoteRequestAnswered(s: Server, from: NodeId, rv: Message, rnd: nat)
    requires rv.RequestVote? && DistinctIds(s.peers)
    ensures var a := RecvRequestVote(s, from, rv, rnd);
      var grant :=
        && (exists p :: p in s.peers && p.id == s.id && p.voting)
        && (s.term < rv.term || (s.term == rv.term && s.votedFor == None))
        && (LastTerm(s.log) < rv.lastTerm || (LastTerm(s.log) == rv.lastTerm && |s.log| <= rv.lastIdx));
      var stranger := forall p :: p in s.peers ==> p.id != from && p.id != rv.candidate;
      && a.err == 0 && a.reply.VoteReply? && a.reply.term == Max(s.term, rv.term)
      && (a.reply.ballot == Granted <==> grant)
      && (a.reply.ballot == UnknownNode <==> !grant && stranger)
      && (s.term < rv.term && !grant ==> SteppedDown(s, a.server, rv.term, rnd))
      && (s.term < rv.term && grant ==>
            SteppedDown(s, a.server.(votedFor := None), rv.term, rnd) && a.server.votedFor == Some(rv.candidate))
      && (rv.term <= s.term && grant ==> a.server == s.(votedFor := Some(rv.candidate), leader := None, elapsed := 0))
      && (rv.term <= s.term && !grant ==> a.server == s)
  {
    OwnVote(s);
    OwnVote(HearCandidate(s, rv, rnd));
    hide SelfVoting, DistinctIds, Find;
  }

  /** The peers after a vote of `from`. */
  ghost predicate VoteMarked(ps: seq<Peer>, from: NodeId, qs: seq<Peer>) {
    |qs| == |ps| && forall i :: 0 <= i < |ps| ==> qs[i] == if ps[i].id == from then ps[i].(votedForMe := true) else ps[i]
  }

  lemma SupportMarks(s: Server, from: NodeId)
    requires DistinctIds(s.peers)
    ensures var s1 := RecordSupport(s, from); s1 == s.(peers := s1.peers) && VoteMarked(s.peers, from, s1.peers)
  {
    forall i | 0 <= i < |s.peers| && s.peers[i].id == from ensures Find(s.peers, from) == Some(s.peers[i]) {
      FindIs(s.peers, i);
    }
    if Find(s.peers, from).None? {
      assert forall i :: 0 <= i < |s.peers| ==> s.peers[i] in s.peers;
    }
  }

  lemma MarkedVoters(ps: seq<Peer>, from: NodeId, qs: seq<Peer>, self: NodeId)
    requires VoteMarked(ps, from, qs)
    ensures (set p | p in qs && p.active && p.voting :: p.id) == (set p | p in ps && p.active && p.voting :: p.id)
    ensures Supporters(qs, self) ==
      set p | p in ps && p.id != self && p.active && p.voting && (p.votedForMe || p.id == from) :: p.id
  {
    forall i | 0 <= i < |ps| ensures ps[i] in ps && qs[i] in qs && qs[i].id == ps[i].id {
    }
  }

  /** What a candidate makes of a vote reply. It leads if and only if the active voting nodes whose vote is
      on record now, with its own, are more than half of the active voting nodes. */
  lemma VoteReplyCounted(s: Server, from: NodeId, r: Message, rnd: nat)
    requires r.VoteReply? && NextPositive(s.peers) && DistinctIds(s.peers)
    requires s.role == Candidate && s.term == r.term && r.ballot == Granted
    ensures var e := RecvVoteReply(s, from, r, rnd);
      var voters := set p | p in s.peers && p.active && p.voting :: p.id;
      var mine := set p | p in s.peers && p.id != s.id && p.active && p.voting && (p.votedForMe || p.id == from) :: p.id;
      var count := |mine| + if s.votedFor == Some(s.id) then 1 else 0;
      && e.err == 0
      && (e.server.role == Leader <==> |voters| < 2 * count <= 2 * |voters|)
      && (e.server.role != Leader ==>
            VoteMarked(s.peers, from, e.server.peers) && e.server == s.(peers := e.server.peers) && e.out == [])
      && (e.server.role == Leader ==> exists qs :: VoteMarked(s.peers, from, qs) && Crowned(s.(peers := qs), e))
  {
    hide BecomeLeader, DistinctIds, Supporters, NextPositive, RecordSupport, VoteMarked, Crowned;
    SupportMarks(s, from);
    var s1 := RecordSupport(s, from);
    MarkedVoters(s.peers, from, s1.peers, s.id);
    VotesAreMajority(|VotingIds(s1.peers)|, VotesForMe(s1));
    MarkedPositive(s, from, rnd);
    LeaderCrowned(s1);
  }

  lemma MarkedPositive(s: Server, from: NodeId, rnd: nat)
    requires NextPositive(s.peers)
    ensures NextPositive(RecordSupport(s, from).peers)
  {
    assert Find(s.peers, from).Some? ==> 1 <= Find(s.peers, from).value.nextIdx;
  }

  lemma VotesAreMajority(n: nat, votes: nat)
    ensures VotesIsMajority(n, votes) <==> n < 2 * votes <= 2 * n
  {
  }

  /** A vote reply that counts for nothing: a higher term is adopted by a candidate, all else ignored. */
  lemma VoteReplyIgnored(s: Server, from: NodeId, r: Message, rnd: nat)
    requires r.VoteReply? && NextPositive(s.peers)
    requires !(s.role == Candidate && s.term == r.term && r.ballot == Granted)
    ensures var e := RecvVoteReply(s, from, r, rnd);
      && e.err == 0 && e.out == []
      && (s.role == Candidate && s.term < r.term ==> SteppedDown(s, e.server, r.term, rnd))
      && (!(s.role == Candidate && s.term < r.term) ==> e.server == s)
  {
  }

  /** `s` became the leader of its term: every other active peer starts over at the end of the log, and is
      sent a heartbeat. */
  ghost predicate Crowned(s: Server, e: Effect) {
    && |e.server.peers| == |s.peers|
    && (forall i :: 0 <= i < |s.peers| ==>
          e.server.peers[i] == if s.peers[i].id == s.id || !s.peers[i].active then s.peers[i]
                               else s.peers[i].(nextIdx := |s.log| + 1, matchIdx := 0))
    && e.server == s.(role := Leader, leader := Some(s.id), elapsed := 0, peers := e.server.peers)
    && NextPositive(e.server.peers) && e.out == Broadcast(e.server, e.server.peers, Heartbeat) && e.err == 0
  }

  lemma LeaderCrowned(s: Server)
    requires NextPositive(s.peers)
    ensures Crowned(s, BecomeLeader(s)) && BecomeLeader(s).server.role == Leader && BecomeLeader(s).err == 0
  {
  }

  // ----- A client entry -----

  /** A leader appends the entry under its term and tells the peers that lack nothing else; a full list
      drops its oldest entry. Alone among the voters, it has committed it at once. */
  lemma EntryTaken(s: Server, e: Entry)
    requires NextPositive(s.peers) && WindowOK(s)
    ensures var f := RecvEntry(s, e);
      var voters := set p | p in s.peers && p.active && p.voting :: p.id;
      && (s.role != Leader ==> f == Effect(s, [], ERR_NOT_LEADER))
      && (s.role == Leader ==>
            && f.err == 0
            && f.server == s.(log := s.log + [e.(term := s.term)], gone := f.server.gone, commit := f.server.commit)
            && f.server.gone == (if |s.log| < s.gone + s.capacity then s.gone else s.gone + 1)
            && f.server.commit == (if |voters| == 1 then |s.log| + 1 else s.commit)
            && f.out == Broadcast(f.server.(commit := s.commit), s.peers, NewEntry))
  {
    hide Broadcast;
  }

  /** The response names the entry, the index it went to and the term. */
  lemma ResponseNames(s: Server, e: Entry)
    requires NextPositive(s.peers) && s.role == Leader
    ensures var r := RecvEntryResponse(s, e);
      var log := RecvEntry(s, e).server.log;
      r.id == e.id && 1 <= r.idx == |log| && log[r.idx - 1] == e.(term := r.term)
  {
    hide Broadcast;
  }

  // ----- Replies to AppendEntries -----

  /** The peers after the bookkeeping of `from` became `q`. */
  ghost predicate OnlyChanged(ps: seq<Peer>, from: NodeId, q: Peer, qs: seq<Peer>) {
    |qs| == |ps| && forall i :: 0 <= i < |ps| ==> qs[i] == if ps[i].id == from then q else ps[i]
  }

  /** A reply that is none of this leader's term, or brings no news, changes nothing; a higher term makes
      the leader step down. */
  lemma ReplyWithoutNews(s: Server, from: NodeId, r: Message, ready: bool, rnd: nat)
    requires r.AppendReply? && NextPositive(s.peers) && AppendReplyAsserts(s, from, r)
    requires s.role == Leader && s.term == r.term ==>
      var p := Find(s.peers, from).value;
      if r.success then r.currentIdx <= p.matchIdx else p.matchIdx == p.nextIdx - 1
    ensures var e := RecvAppendReply(s, from, r, ready, rnd);
      && e.out == [] && e.err == (if s.role == Leader then 0 else ERR_NOT_LEADER)
      && (s.role == Leader && s.term < r.term ==> SteppedDown(s, e.server, r.term, rnd))
      && (!(s.role == Leader && s.term < r.term) ==> e.server == s)
  {
    hide AdvanceCommit, Acknowledged, BackOff;
  }

  /** A failure reply with news: the next index goes to the entry after the peer's last one, or down by
      one if the peer has more, but not below 1 or beyond the leader's last entry; and the message for
      it is sent. Nothing else changes. */
  lemma FailureBacksOff(s: Server, from: NodeId, r: Message, ready: bool, rnd: nat)
    requires r.AppendReply? && NextPositive(s.peers) && AppendReplyAsserts(s, from, r)
    requires s.role == Leader && s.term == r.term && !r.success
    requires Find(s.peers, from).value.matchIdx != Find(s.peers, from).value.nextIdx - 1
    ensures var e := RecvAppendReply(s, from, r, ready, rnd);
      var p := Find(s.peers, from).value;
      var next := if r.currentIdx < p.nextIdx - 1 then Max(1, Min(r.currentIdx + 1, |s.log|)) else Max(1, p.nextIdx - 1);
      && e.err == 0 && e.server == s.(peers := e.server.peers)
      && OnlyChanged(s.peers, from, p.(nextIdx := next), e.server.peers)
      && e.out == [Packet(s.id, from, AppendFor(s, p.(nextIdx := next)))]
  {
    hide *;
    KnownSender(s, from, r);
    var p := Find(s.peers, from).value;
    FailureReply(s, from, r, ready, rnd);
    BackOffGoes(s, p, r);
    ReplacedOnly(s.peers, BackOff(s, p, r));
    SameMessage(s, RecvAppendReply(s, from, r, ready, rnd).server, BackOff(s, p, r));
  }

  lemma KnownSender(s: Server, from: NodeId, r: Message)
    requires r.AppendReply? && AppendReplyAsserts(s, from, r) && s.role == Leader && s.term == r.term
    ensures Find(s.peers, from).Some? && Find(s.peers, from).value.id == from
    ensures NextPositive(s.peers) ==> 1 <= Find(s.peers, from).value.nextIdx
  {
  }

  lemma BackOffGoes(s: Server, p: Peer, r: Message)
    requires r.AppendReply? && 1 <= p.nextIdx
    ensures 1 <= BackOff(s, p, r).nextIdx
    ensures BackOff(s, p, r) ==
      p.(nextIdx := if r.currentIdx < p.nextIdx - 1 then Max(1, Min(r.currentIdx + 1, |s.log|)) else Max(1, p.nextIdx - 1))
  {
  }

  lemma ReplacedOnly(ps: seq<Peer>, q: Peer)
    ensures OnlyChanged(ps, q.id, q, Replace(ps, q))
  {
  }

  lemma SameMessage(s: Server, s': Server, p: Peer)
    requires 1 <= p.nextIdx && s' == s.(peers := s'.peers)
    ensures AppendFor(s', p) == AppendFor(s, p)
  {
  }

  /** What the jump is worth: the retry starts within the log of a peer that answered with its last index. */
  lemma RetryMeetsPeer(s: Server, from: NodeId, r: Message, ready: bool, rnd: nat)
    requires r.AppendReply? && NextPositive(s.peers) && AppendReplyAsserts(s, from, r)
    requires s.role == Leader && s.term == r.term && !r.success
    requires Find(s.peers, from).value.matchIdx != Find(s.peers, from).value.nextIdx - 1
    requires r.currentIdx < Find(s.peers, from).value.nextIdx - 1
    ensures var e := RecvAppendReply(s, from, r, ready, rnd);
      && |e.out| == 1 && e.out[0].dst == from && e.out[0].msg.AppendEntries?
      && e.out[0].msg.prevIdx <= r.currentIdx
      && (r.currentIdx < |s.log| ==> e.out[0].msg.prevIdx == r.currentIdx)
  {
    FailureBacksOff(s, from, r, ready, rnd);
    hide RecvAppendReply, AppendReplyAsserts, Find, OnlyChanged, NextPositive;
  }

  /** A success reply with news: the peer's indices follow it; a non-voting peer counts as caught up if the
      callback accepts and at most one entry is missing; whatever is left is sent. */
  lemma SuccessCounts(s: Server, from: NodeId, r: Message, ready: bool, rnd: nat)
    requires r.AppendReply? && NextPositive(s.peers) && AppendReplyAsserts(s, from, r)
    requires s.role == Leader && s.term == r.term && r.success && Find(s.peers, from).value.matchIdx < r.currentIdx
    ensures var e := RecvAppendReply(s, from, r, ready, rnd);
      var p := Find(s.peers, from).value;
      var caughtUp := ready && !p.voting && !p.votingCommitted && |s.log| <= r.currentIdx + 1;
      var q := p.(nextIdx := r.currentIdx + 1, matchIdx := r.currentIdx, sufficientLogs := p.sufficientLogs || caughtUp);
      && e.err == 0 && e.server == s.(peers := e.server.peers, commit := e.server.commit)
      && OnlyChanged(s.peers, from, q, e.server.peers)
      && e.out == if s.gone < r.currentIdx + 1 <= |s.log| then [Packet(s.id, from, AppendFor(e.server, q))] else []
  {
    hide *;
    KnownSender(s, from, r);
    var p := Find(s.peers, from).value;
    var q := Acknowledged(s, p, r, ready);
    AcknowledgedGoes(s, p, r, ready);
    SuccessReply(s, from, r, ready, rnd);
    ReplacedOnly(s.peers, q);
    CommitRule(s.(peers := Replace(s.peers, q)), r.currentIdx);
  }

  /** The commit index moves to what the peer acknowledged if and only if it was below, the entry there has
      the leader's term, and the active voting nodes that hold it, with the leader, are more than half of the
      active voting nodes. */
  lemma SuccessCommits(s: Server, from: NodeId, r: Message, ready: bool, rnd: nat)
    requires r.AppendReply? && NextPositive(s.peers) && AppendReplyAsserts(s, from, r)
    requires s.role == Leader && s.term == r.term && r.success && Find(s.peers, from).value.matchIdx < r.currentIdx
    ensures 1 <= r.currentIdx <= |s.log|
    ensures var s' := RecvAppendReply(s, from, r, ready, rnd).server;
      var voters := set v | v in s'.peers && v.active && v.voting :: v.id;
      var holders := set v | v in s'.peers && v.active && v.voting && r.currentIdx <= v.matchIdx :: v.id;
      s'.commit == if s.commit < r.currentIdx && s.log[r.currentIdx - 1].term == s.term
                      && |voters| < 2 * |holders + {s.id}|
                   then r.currentIdx else s.commit
  {
    hide *;
    KnownSender(s, from, r);
    var q := Acknowledged(s, Find(s.peers, from).value, r, ready);
    SuccessReply(s, from, r, ready, rnd);
    CommitRule(s.(peers := Replace(s.peers, q)), r.currentIdx);
    HoldersAndSelf(Replace(s.peers, q), s.id, r.currentIdx);
  }

  lemma AcknowledgedGoes(s: Server, p: Peer, r: Message, ready: bool)
    requires r.AppendReply?
    ensures var caughtUp := ready && !p.voting && !p.votingCommitted && |s.log| <= r.currentIdx + 1;
      Acknowledged(s, p, r, ready) ==
        p.(nextIdx := r.currentIdx + 1, matchIdx := r.currentIdx, sufficientLogs := p.sufficientLogs || caughtUp)
  {
  }

  lemma SuccessReply(s: Server, from: NodeId, r: Message, ready: bool, rnd: nat)
    requires r.AppendReply? && NextPositive(s.peers) && AppendReplyAsserts(s, from, r)
    requires s.role == Leader && s.term == r.term && r.success && Find(s.peers, from).Some?
    requires Find(s.peers, from).value.matchIdx < r.currentIdx
    ensures 1 <= r.currentIdx <= |s.log|
    ensures var e := RecvAppendReply(s, from, r, ready, rnd);
      var q := Acknowledged(s, Find(s.peers, from).value, r, ready);
      && q.id == from && q.nextIdx == r.currentIdx + 1
      && e.err == 0 && e.server == AdvanceCommit(s.(peers := Replace(s.peers, q)), r.currentIdx)
      && e.out == if s.gone < r.currentIdx + 1 <= |s.log| then [Packet(s.id, from, AppendFor(e.server, q))] else []
  {
    hide AppendFor, Replace, VotingIds, Holders;
  }

  lemma CommitRule(s: Server, point: nat)
    requires 1 <= point <= |s.log|
    ensures AdvanceCommit(s, point) == s.(commit := if s.commit < point && s.log[point - 1].term == s.term
                                                         && |VotingIds(s.peers)| / 2 < 1 + |Holders(s.peers, s.id, point)|
                                                    then point else s.commit)
  {
    hide VotingIds, Holders;
  }

  lemma HoldersAndSelf(ps: seq<Peer>, self: NodeId, point: nat)
    ensures var voters := set v | v in ps && v.active && v.voting :: v.id;
      var holders := set v | v in ps && v.active && v.voting && point <= v.matchIdx :: v.id;
      (|VotingIds(ps)| / 2 < 1 + |Holders(ps, self, point)|) <==> |voters| < 2 * |holders + {self}|
  {
    var holders := set v | v in ps && v.active && v.voting && point <= v.matchIdx :: v.id;
    assert holders + {self} == Holders(ps, self, point) + {self};
    assert |Holders(ps, self, point) + {self}| == |Holders(ps, self, point)| + 1;
  }

  // ----- AppendEntries -----

  /** A message of an earlier term is refused and changes nothing. */
  lemma StaleAppendRefused(s: Server, from: NodeId, ae: Message, pop: int, rnd: nat)
    requires ae.AppendEntries? && ae.term < s.term
    ensures RecvAppendEntries(s, from, ae, pop, rnd) == Answer(s, AppendReply(s.term, false, |s.log|, ae.prevIdx + 1), 0)
  {
  }

  /** Any other message: term, vote, role, leader and timers. It succeeds if and only if it starts at the
      start of the log, or the entry before it is listed with the term it tells. */
  lemma AppendHeard(s: Server, from: NodeId, ae: Message, pop: int, rnd: nat)
    requires ae.AppendEntries? && s.term <= ae.term
    ensures var a := RecvAppendEntries(s, from, ae, pop, rnd);
      var gives := s.term < ae.term || s.role == Candidate;
      && a.reply.AppendReply? && a.reply.term == ae.term && a.reply.firstIdx == ae.prevIdx + 1
      && (a.reply.success <==>
            ae.prevIdx == 0 || (s.gone < ae.prevIdx <= |s.log| && s.log[ae.prevIdx - 1].term == ae.prevTerm))
      && a.server == s.(log := a.server.log, gone := a.server.gone, commit := a.server.commit,
                        term := ae.term, votedFor := if s.term < ae.term then None else s.votedFor,
                        role := if gives then Follower else s.role, leader := Some(from), elapsed := 0,
                        electionRand := if gives then s.electionTimeout + rnd % s.electionTimeout else s.electionRand)
  {
    hide MatchFrom, Passes;
  }

  /** A refusal counts the log as it then is. It deletes from the entry before the message on, but never what
      the leader has committed, if that entry is listed with another term and `log_pop` accepts. */
  lemma AppendRefused(s: Server, from: NodeId, ae: Message, pop: int, rnd: nat)
    requires ae.AppendEntries? && s.term <= ae.term && !RecvAppendEntries(s, from, ae, pop, rnd).reply.success
    requires RecvAppendEntries(s, from, ae, pop, rnd).reply.AppendReply?
    ensures var a := RecvAppendEntries(s, from, ae, pop, rnd);
      var d := Max(ae.prevIdx, ae.leaderCommit + 1);
      var conflict := s.gone < ae.prevIdx <= |s.log|;
      && a.reply.currentIdx == |a.server.log| && a.server.gone == s.gone && a.server.commit == s.commit
      && a.server.log == (if conflict && s.gone < d <= |s.log| && pop == 0 then s.log[..d - 1] else s.log)
      && a.err == if !conflict then 0 else if s.gone < d <= |s.log| then pop else -1
  {
    hide MatchFrom, Passes;
  }

  /** A success: if an entry conflicts and `log_pop` refuses, nothing but the count of the entries in place.
      Otherwise a full list drops its oldest entries, and the commit index follows the leader's within
      the log once the chain was complete. What becomes of the log is said by `MergeByIndex`. */
  lemma AppendSucceeds(s: Server, from: NodeId, ae: Message, pop: int, rnd: nat)
    requires ae.AppendEntries? && s.term <= ae.term && WindowOK(s)
    requires RecvAppendEntries(s, from, ae, pop, rnd).reply.AppendReply? && RecvAppendEntries(s, from, ae, pop, rnd).reply.success
    ensures var a := RecvAppendEntries(s, from, ae, pop, rnd);
      && (a.err != 0 ==>
            && a.err == pop && a.server.log == s.log && a.server.gone == s.gone && a.server.commit == s.commit
            && ae.prevIdx <= a.reply.currentIdx && s.gone < a.reply.currentIdx + 1 <= |s.log|
            && forall j :: 0 <= j < a.reply.currentIdx - ae.prevIdx ==> Passes(s, ae, j))
      && (a.err == 0 ==>
            && a.server.gone == (if s.gone + s.capacity < |a.server.log| then |a.server.log| - s.capacity else s.gone)
            && a.server.commit == if ae.n <= |ae.entries| && s.commit < ae.leaderCommit
                                  then Min(Max(|a.server.log|, 1), ae.leaderCommit) else s.commit)
  {
    hide MatchFrom, Passes, Merge;
    var s1 := HearLeader(s, from, ae, rnd);
    HearingKeeps(s, from, ae, rnd);
    PassesSame(s, s1, ae);
    MergeSucceeds(s1, ae, pop);
  }

  lemma PassesSame(s: Server, s1: Server, ae: Message)
    requires ae.AppendEntries? && s1.log == s.log && s1.gone == s.gone && s1.commit == s.commit
    ensures forall j: nat :: Passes(s1, ae, j) <==> Passes(s, ae, j)
  {
  }

  lemma MergeSucceeds(s: Server, ae: Message, pop: int)
    requires ae.AppendEntries? && PrevMatches(s, ae) && WindowOK(s)
    ensures var a := Merge(s, ae, pop);
      && a.reply.AppendReply? && a.reply.success
      && (a.err != 0 ==>
            && a.err == pop && a.server == s
            && ae.prevIdx <= a.reply.currentIdx && s.gone < a.reply.currentIdx + 1 <= |s.log|
            && forall j: nat :: j < a.reply.currentIdx - ae.prevIdx ==> Passes(s, ae, j))
      && (a.err == 0 ==>
            && a.server.gone == (if s.gone + s.capacity < |a.server.log| then |a.server.log| - s.capacity else s.gone)
            && a.server.commit == if ae.n <= |ae.entries| && s.commit < ae.leaderCommit
                                  then Min(Max(|a.server.log|, 1), ae.leaderCommit) else s.commit)
  {
    hide Passes;
  }

  /** The log loses entries if and only if the deletion index is listed and `log_pop` accepts: that entry and
      all after it go, for good on a refusal, and on a success none of the same term takes its place. */
  lemma EntriesGo(s: Server, from: NodeId, ae: Message, pop: int, rnd: nat)
    requires ae.AppendEntries?
    ensures var a := RecvAppendEntries(s, from, ae, pop, rnd);
      var d := DeletionIdx(s, ae);
      && a.reply.AppendReply?
      && if d.Some? && s.gone < d.value <= |s.log| && pop == 0 then
           && s.log[..d.value - 1] <= a.server.log
           && (!a.reply.success ==> a.server.log == s.log[..d.value - 1])
           && (d.value <= |a.server.log| ==> a.server.log[d.value - 1].term != s.log[d.value - 1].term)
         else s.log <= a.server.log
  {
    hide MatchFrom, Passes, Merge;
    if s.term <= ae.term && PrevMatches(s, ae) {
      var s1 := HearLeader(s, from, ae, rnd);
      HearingKeeps(s, from, ae, rnd);
      MergeGoes(s1, ae, pop);
    }
  }

  lemma MergeGoes(s: Server, ae: Message, pop: int)
    requires ae.AppendEntries? && PrevMatches(s, ae) && s.term <= ae.term
    ensures var a := Merge(s, ae, pop);
      var d := DeletionIdx(s, ae);
      && a.reply.AppendReply? && a.reply.success
      && if d.Some? && HasEntry(s, d.value) && pop == 0 then
           && s.log[..d.value - 1] <= a.server.log
           && (d.value <= |a.server.log| ==> a.server.log[d.value - 1].term != s.log[d.value - 1].term)
         else s.log <= a.server.log
  {
  }

  // ----- Time -----

  /** A period is what the timers do, and then at most one application. */
  lemma PeriodRuns(s: Server, msec: nat, rnd: nat, shutdown: bool)
    requires NextPositive(s.peers)
    ensures var e := Periodic(s, msec, rnd, shutdown);
      var e1 := Tick(s, msec);
      var e2 := Timers(e1.server, rnd);
      && e.server == e2.server.(applied := e.server.applied, fed := e.server.fed) && e.out == e1.out + e2.out
  {
    hide Tick, Timers, Broadcast;
  }

  lemma TimersKeepApplied(s: Server, msec: nat, rnd: nat)
    requires NextPositive(s.peers)
    ensures var s' := Timers(Tick(s, msec).server, rnd).server; s'.applied == s.applied && s'.fed == s.fed
  {
    hide Broadcast, VotingIds, SelfVoting, ResetProgress, ClearVotes;
  }

  lemma TickLeads(s: Server, msec: nat)
    requires NextPositive(s.peers)
    ensures var s0 := s.(elapsed := s.elapsed + msec);
      var e := Tick(s, msec);
      if s.role != Leader && SelfVoting(s0) && |VotingIds(s.peers)| == 1 then Crowned(s0, e) else e == Effect(s0, [], 0)
  {
    hide Broadcast, VotingIds, SelfVoting, Crowned, BecomeLeader;
    LeaderCrowned(s.(elapsed := s.elapsed + msec));
  }

  lemma TimersFire(s: Server, rnd: nat)
    requires NextPositive(s.peers)
    ensures var e := Timers(s, rnd);
      if s.role == Leader && s.requestTimeout <= s.elapsed then
        e.server == s.(elapsed := 0) && e.out == Broadcast(e.server, e.server.peers, Heartbeat)
      else if s.role != Leader && SelfVoting(s) && 1 < |VotingIds(s.peers)| && s.electionRand <= s.elapsed then
        Stood(s, e.server, rnd) && NextPositive(e.server.peers) && e.out == Broadcast(e.server, e.server.peers, Canvass)
      else e.server == s && e.out == []
  {
    hide Broadcast, VotingIds, SelfVoting;
  }

  /** A period, with `t` the time since the timer was reset. Alone among the voters, a server takes the lead. A
      leader whose heartbeat is due sends it. A voter among others whose election timer has run out stands. */
  lemma PeriodTimes(s: Server, msec: nat, rnd: nat, shutdown: bool)
    requires NextPositive(s.peers) && DistinctIds(s.peers)
    ensures var e := Periodic(s, msec, rnd, shutdown);
      var s' := e.server.(applied := s.applied, fed := s.fed);
      var t := s.elapsed + msec;
      var voters := set p | p in s.peers && p.active && p.voting :: p.id;
      var votes := exists p :: p in s.peers && p.id == s.id && p.voting;
      if s.role != Leader && votes && |voters| == 1 then
        exists c :: Crowned(s.(elapsed := t), c) && s' == c.server && c.out <= e.out
      else if s.role == Leader && s.requestTimeout <= t then
        s' == s.(elapsed := 0) && e.out == Broadcast(s', s'.peers, Heartbeat)
      else if s.role != Leader && votes && 1 < |voters| && s.electionRand <= t then
        Stood(s, s', rnd) && NextPositive(s'.peers) && e.out == Broadcast(s', s'.peers, Canvass)
      else s' == s.(elapsed := t) && e.out == []
  {
    hide Periodic, Tick, Timers, Broadcast, SelfVoting, DistinctIds, NextPositive, Find;
    var t := s.elapsed + msec;
    var s0 := s.(elapsed := t);
    OwnVote(s0);
    PeriodRuns(s, msec, rnd, shutdown);
    TimersKeepApplied(s, msec, rnd);
    TickLeads(s, msec);
    var c := Tick(s, msec);
    TimersFire(c.server, rnd);
    if s.role != Leader && SelfVoting(s0) && |VotingIds(s.peers)| == 1 {
      assert Crowned(s0, c);
    }
  }

  /** `s` stood for election in the next term: it votes for itself and has no other votes. */
  ghost predicate Stood(s: Server, s': Server, rnd: nat) {
    && |s'.peers| == |s.peers| && (forall i :: 0 <= i < |s.peers| ==> s'.peers[i] == s.peers[i].(votedForMe := false))
    && s' == s.(term := s.term + 1, votedFor := Some(s.id), leader := None, role := Candidate, elapsed := 0,
                electionRand := s.electionTimeout + rnd % s.electionTimeout, peers := s'.peers)
  }

  /** Every period hands over the next committed entry, with its index less one, if the list still holds it,
      whatever the role; the callback's request for a shutdown is passed on. Otherwise it hands over nothing. */
  lemma PeriodApplies(s: Server, msec: nat, rnd: nat, shutdown: bool)
    requires NextPositive(s.peers)
    ensures var e := Periodic(s, msec, rnd, shutdown);
      && e.server.commit == s.commit && e.server.log == s.log && e.server.gone == s.gone
      && if s.applied < s.commit && s.gone < s.applied + 1 <= |s.log| then
           && e.server.applied == s.applied + 1 && e.server.fed == s.fed + [Handed(s.log[s.applied], s.applied)]
           && e.err == if shutdown then ERR_SHUTDOWN else 0
         else e.server.applied == s.applied && e.server.fed == s.fed && e.err == 0
  {
    hide VotingIds, SelfVoting, Broadcast, ResetProgress, ClearVotes;
  }

  // ----- The client's question -----

  /** -1 if and only if the list has another leader's entry at the index; 0 if and only if the index is not
      listed, or has the entry but is not committed; 1 in the remaining case. */
  lemma QuestionAnswered(s: Server, r: EntryResponse)
    ensures var listed := s.gone < r.idx <= |s.log|;
      var a := ResponseCommitted(s, r);
      && (a == -1 <==> listed && s.log[r.idx - 1].term != r.term)
      && (a == 0 <==> !listed || (s.log[r.idx - 1].term == r.term && s.commit < r.idx))
      && (a == 1 <==> listed && s.log[r.idx - 1].term == r.term && r.idx <= s.commit)
  {
  }
}
