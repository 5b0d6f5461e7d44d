/** Every step of the cluster keeps the invariant, and no assertion of a handler fails. */
module ClusterSteps {
  import opened RaftTypes
  import opened Peers
  import opened Handlers
  import opened RaftCluster
  import opened AppendLaws
  import opened History
  import opened HistorySteps
  import opened Invariant
  import opened ElectionSteps
  import opened ReplicationSteps

  /** The acting server `n` moved from `s` to `s'`, sent `out`, and the history became `h'`. */
  ghost predicate StepOK(m: set<NodeId>, h: History, n: NodeId, s: Server, s': Server, out: set<Packet>, h': History) {
    && HistoryOK(m, h') && Grows(h, h')
    && ServerOK(m, h', n, s') && Slides(s, s') && s.term <= s'.term && s.commit <= s'.commit && s.applied <= s'.applied
    && (forall k :: k in m && k != n ==> LeavesAlone(h, h', k))
    && (s'.gone == 0 ==> SendsBacked(s', out))
    && (SendsBacked(s', out) ==> forall p :: p in out ==> PacketOK(m, h', p))
  }

  // ----- Who is left alone -----

  lemma VoteLeavesAlone(h: History, t: nat, n: NodeId, candidate: NodeId, log: seq<Entry>)
    requires h.logs.Keys == h.elections.Keys
    ensures forall k :: k != n ==> LeavesAlone(h, RecordVote(h, t, n, candidate, log), k)
  {
  }

  lemma ElectionLeavesAlone(h: History, t: nat, n: NodeId, log: seq<Entry>, q: set<NodeId>)
    requires h.logs.Keys == h.elections.Keys && t !in h.elections
    ensures forall k :: k != n ==> LeavesAlone(h, RecordElection(h, t, n, log, q), k)
  {
  }

  lemma AppendLeavesAlone(h: History, t: nat, n: NodeId, e: Entry)
    requires h.logs.Keys == h.elections.Keys && t in h.elections && h.elections[t].leader == n
    ensures forall k :: k != n ==> LeavesAlone(h, RecordAppend(h, t, n, e), k)
  {
  }

  lemma AckLeavesAlone(h: History, t: nat, n: NodeId, k: nat)
    requires h.logs.Keys == h.elections.Keys
    ensures forall j :: j != n ==> LeavesAlone(h, RecordAck(h, t, n, k), j)
  {
  }

  lemma NothingLeavesAlone(h: History)
    requires h.logs.Keys == h.elections.Keys
    ensures forall k :: LeavesAlone(h, h, k)
  {
  }

  // ----- Time -----

  lemma CandidacyStep(m: set<NodeId>, h: History, n: NodeId, s: Server, rnd: nat) returns (h': History)
    requires HistoryOK(m, h) && ServerOK(m, h, n, s) && NextPositive(s.peers)
    ensures var e := BecomeCandidate(s, rnd); StepOK(m, h, n, s, e.server, (set q | q in e.out), h')
  {
    var e := BecomeCandidate(s, rnd);
    SameKeys(m, h);
    hide HistoryOK, ServerOK, PacketOK, Grows, LeavesAlone;
    CandidateServer(m, h, n, s, rnd);
    h' := RecordVote(h, s.term + 1, n, n, s.log);
    VoteLeavesAlone(h, s.term + 1, n, n, s.log);
    forall q | q in e.out ensures PacketOK(m, h', q) && Backed(e.server, q.msg) {
      VoteRequestOK(m, h', n, e.server, q);
    }
  }

  /** The timers: a leader's heartbeats, or a candidacy. */
  lemma TimersStep(m: set<NodeId>, h: History, n: NodeId, s: Server, rnd: nat) returns (h': History)
    requires HistoryOK(m, h) && ServerOK(m, h, n, s) && NextPositive(s.peers)
    ensures var e := Timers(s, rnd); StepOK(m, h, n, s, e.server, (set q | q in e.out), h')
  {
    var e := Timers(s, rnd);
    SameKeys(m, h);
    hide HistoryOK, ServerOK, PacketOK, Grows, LeavesAlone;
    NothingLeavesAlone(h);
    GrowsReflexive(h);
    h' := h;
    if s.role == Leader {
      if s.requestTimeout <= s.elapsed {
        TimersDoNotMatter(m, h, n, s, e.server);
        forall q | q in e.out
          ensures e.server.gone == 0 ==> Backed(e.server, q.msg)
          ensures Backed(e.server, q.msg) ==> PacketOK(m, h, q)
        {
          HeartbeatOK(m, h, n, e.server, Heartbeat, q);
        }
      }
    } else if s.electionRand <= s.elapsed && 1 < |VotingIds(s.peers)| && SelfVoting(s) {
      h' := CandidacyStep(m, h, n, s, rnd);
    }
  }

  /** In a cluster of two or more voters, a period is: time passes, the timers fire, at most one
      entry is applied. */
  lemma PeriodicParts(m: set<NodeId>, n: NodeId, s: Server, msec: nat, rnd: nat, shutdown: bool)
    requires 2 <= |m| && LocalOK(m, n, s) && NextPositive(s.peers)
    ensures var e := Periodic(s, msec, rnd, shutdown);
            var e2 := Timers(s.(elapsed := s.elapsed + msec), rnd);
            && e.out == e2.out
            && (e.server == e2.server || e.server == ApplyEntry(e2.server, shutdown).server)
  {
    hide LocalOK, VotingIds, Timers, ApplyEntry, BecomeLeader, NextPositive, Find;
    AllVote(m, n, s);
    var s1 := s.(elapsed := s.elapsed + msec);
    assert Tick(s, msec) == Effect(s1, [], 0);
    assert [] + Timers(s1, rnd).out == Timers(s1, rnd).out;
  }

  lemma PeriodicStep(m: set<NodeId>, h: History, n: NodeId, s: Server, msec: nat, rnd: nat, shutdown: bool)
    returns (h': History)
    requires 2 <= |m| && HistoryOK(m, h) && ServerOK(m, h, n, s) && NextPositive(s.peers)
    ensures var e := Periodic(s, msec, rnd, shutdown); StepOK(m, h, n, s, e.server, (set q | q in e.out), h')
  {
    hide HistoryOK, LocalOK, StepOK, Timers, Periodic, ApplyEntry, LogOK, BallotOK, CandidateOK, LeaderOK, HintOK, KeepsAcked, Settled;
    var s1 := s.(elapsed := s.elapsed + msec);
    PeriodicParts(m, n, s, msec, rnd, shutdown);
    TimersDoNotMatter(m, h, n, s, s1);
    hide ServerOK;
    h' := TimersStep(m, h, n, s1, rnd);
    var e2 := Timers(s1, rnd);
    LaterStep(m, h, n, s, msec, e2.server, (set q | q in e2.out), h');
    ApplyAfter(m, h, n, s, e2.server, shutdown, (set q | q in e2.out), h');
  }

  /** Applying an entry afterwards does not disturb a step. */
  lemma ApplyAfter(m: set<NodeId>, h: History, n: NodeId, s: Server, s2: Server, shutdown: bool, out: set<Packet>, h': History)
    requires StepOK(m, h, n, s, s2, out, h')
    ensures StepOK(m, h, n, s, ApplyEntry(s2, shutdown).server, out, h')
  {
    var s3 := ApplyEntry(s2, shutdown).server;
    ApplyServer(m, h', n, s2, shutdown);
    hide HistoryOK, ServerOK, PacketOK, Grows, LeavesAlone;
    assert s3 == s2.(applied := s3.applied, fed := s3.fed);
    assert forall q: Packet :: Backed(s3, q.msg) <==> Backed(s2, q.msg);
  }

  lemma LaterStep(m: set<NodeId>, h: History, n: NodeId, s: Server, msec: nat, s2: Server, out: set<Packet>, h': History)
    requires StepOK(m, h, n, s.(elapsed := s.elapsed + msec), s2, out, h')
    ensures StepOK(m, h, n, s, s2, out, h')
  {
    hide HistoryOK, ServerOK, PacketOK, Grows, LeavesAlone, SendsBacked;
  }

  lemma ApplyAllStep(m: set<NodeId>, h: History, n: NodeId, s: Server, quota: nat)
    requires HistoryOK(m, h) && ServerOK(m, h, n, s)
    ensures var e := ApplyAll(s, quota); StepOK(m, h, n, s, e.server, (set q | q in e.out), h)
  {
    ApplyAllServer(m, h, n, s, quota);
    NothingLeavesAlone(h);
  }

  // ----- Clients -----

  lemma ClientStep(m: set<NodeId>, h: History, n: NodeId, s: Server, e: Entry) returns (h': History)
    requires 2 <= |m| && HistoryOK(m, h) && ServerOK(m, h, n, s) && NextPositive(s.peers)
    ensures var f := RecvEntry(s, e); StepOK(m, h, n, s, f.server, (set q | q in f.out), h')
  {
    SameKeys(m, h);
    LocalServer(m, h, n, s);
    hide HistoryOK, ServerOK, PacketOK, Grows, LeavesAlone, RecvEntry, Grown, Slides, RecordAppend, Broadcast, NextPositive, LocalOK;
    h' := h;
    if s.role == Leader {
      var e1 := e.(term := s.term);
      LeaderTakes(m, n, s, e);
      EntryServer(m, h, n, s, e1);
      GrownSlides(s, e1);
      h' := RecordAppend(h, s.term, n, e1);
      AppendLeavesAlone(h, s.term, n, e1);
      var s1 := Grown(s, [e1]);
      forall q | q in Broadcast(s1, s1.peers, NewEntry)
        ensures s1.gone == 0 ==> Backed(s1, q.msg)
        ensures Backed(s1, q.msg) ==> PacketOK(m, h', q)
      {
        HeartbeatOK(m, h', n, s1, NewEntry, q);
      }
    } else {
      OthersRefuse(s, e);
      NothingLeavesAlone(h);
      GrowsReflexive(h);
    }
  }

  lemma LocalServer(m: set<NodeId>, h: History, n: NodeId, s: Server)
    requires ServerOK(m, h, n, s)
    ensures LocalOK(m, n, s) && WindowOK(s) && s.commit <= |s.log|
    ensures s.role == Leader ==> s.term in h.elections && h.elections[s.term].leader == n
  {
    hide LogOK, TermsAtMost, BallotOK, CandidateOK, HintOK, KeepsAcked, Settled;
  }

  lemma LeaderTakes(m: set<NodeId>, n: NodeId, s: Server, e: Entry)
    requires 2 <= |m| && LocalOK(m, n, s) && s.role == Leader && NextPositive(s.peers)
    ensures var s1 := Grown(s, [e.(term := s.term)]);
      NextPositive(s1.peers) && RecvEntry(s, e) == Effect(s1, Broadcast(s1, s1.peers, NewEntry), 0)
  {
    AllVote(m, n, s);
    hide Broadcast, VotingIds, LocalOK;
  }

  lemma OthersRefuse(s: Server, e: Entry)
    requires s.role != Leader && NextPositive(s.peers)
    ensures RecvEntry(s, e).server == s && RecvEntry(s, e).out == [] && Slides(s, s)
  {
  }

  lemma GrownSlides(s: Server, e: Entry)
    requires WindowOK(s)
    ensures var s1 := Grown(s, [e]);
      Slides(s, s1) && s1.role == s.role && s1.term == s.term && s1.commit == s.commit && s1.applied == s.applied
  {
  }

  // ----- Votes -----

  lemma RequestVoteStep(m: set<NodeId>, h: History, n: NodeId, s: Server, src: NodeId, rv: Message, rnd: nat)
    returns (h': History)
    requires HistoryOK(m, h) && ServerOK(m, h, n, s)
    requires rv.RequestVote? && PacketOK(m, h, Packet(src, n, rv))
    ensures RequestVoteAsserts(s, rv, rnd)
    ensures var a := RecvRequestVote(s, src, rv, rnd);
            StepOK(m, h, n, s, a.server, {Packet(n, src, a.reply)}, h')
  {
    hide *;
    SameKeys(m, h);
    var s1 := HearCandidate(s, rv, rnd);
    OnlyFollowersGrant(m, h, n, s, rv, rnd);
    HearCandidateServer(m, h, n, s, rv, rnd);
    h' := h;
    GrowsReflexive(h);
    NothingLeavesAlone(h);
    VoteAnswered(s, src, rv, rnd);
    AskedByCandidate(m, h, n, src, rv);
    var a := RecvRequestVote(s, src, rv, rnd);
    if ShouldGrantVote(s1, rv) {
      FollowerGrants(s, rv, rnd);
      GrantingServer(m, h, n, s1, src, rv);
      h' := RecordVote(h, s1.term, n, src, s1.log);
      VoteLeavesAlone(h, s1.term, n, src, s1.log);
      VoteRecorded(m, h, s1.term, n, src, s1.log, rv.term);
    } else {
      RefusalOK(m, h, src, n, a.reply);
    }
    AnswerStep(m, h, n, s, a.server, Packet(n, src, a.reply), h');
  }

  lemma FollowerGrants(s: Server, rv: Message, rnd: nat)
    requires rv.RequestVote? && RequestVoteAsserts(s, rv, rnd) && ShouldGrantVote(HearCandidate(s, rv, rnd), rv)
    ensures HearCandidate(s, rv, rnd).role == Follower && rv.term <= HearCandidate(s, rv, rnd).term
  {
    hide SelfVoting;
  }

  /** A step whose only packet is no AppendEntries. */
  lemma AnswerStep(m: set<NodeId>, h: History, n: NodeId, s: Server, s': Server, p: Packet, h': History)
    requires HistoryOK(m, h') && Grows(h, h') && ServerOK(m, h', n, s') && Slides(s, s')
    requires s.term <= s'.term && s.commit <= s'.commit && s.applied <= s'.applied
    requires forall k :: k in m && k != n ==> LeavesAlone(h, h', k)
    requires PacketOK(m, h', p) && !p.msg.AppendEntries?
    ensures StepOK(m, h, n, s, s', {p}, h')
  {
    hide HistoryOK, Grows, ServerOK, Slides, LeavesAlone, PacketOK;
  }

  lemma AskedByCandidate(m: set<NodeId>, h: History, n: NodeId, src: NodeId, rv: Message)
    requires rv.RequestVote? && PacketOK(m, h, Packet(src, n, rv))
    ensures rv.candidate == src && src in m && n in m && src != n && MessageOK(m, h, src, n, rv)
  {
  }

  lemma VoteRecorded(m: set<NodeId>, h: History, t: nat, n: NodeId, src: NodeId, log: seq<Entry>, rt: nat)
    requires rt == t && n in m && src in m && n != src
    ensures PacketOK(m, RecordVote(h, t, n, src, log), Packet(n, src, VoteReply(rt, Granted)))
  {
  }

  lemma RefusalOK(m: set<NodeId>, h: History, src: NodeId, n: NodeId, r: Message)
    requires n in m && src in m && n != src && r.VoteReply? && r.ballot != Granted
    ensures PacketOK(m, h, Packet(n, src, r))
  {
  }

  /** The answer to a vote request, once the candidate's term is heard. */
  lemma VoteAnswered(s: Server, src: NodeId, rv: Message, rnd: nat)
    requires rv.RequestVote?
    ensures var s1 := HearCandidate(s, rv, rnd);
      var a := RecvRequestVote(s, src, rv, rnd);
      && a.reply.VoteReply? && a.reply.term == s1.term
      && (ShouldGrantVote(s1, rv) ==> a.reply.ballot == Granted && a.server == GrantedTo(s1, rv))
      && (!ShouldGrantVote(s1, rv) ==> a.reply.ballot != Granted && a.server == s1)
      && Slides(s, a.server) && s.term <= a.server.term && s.commit == a.server.commit && s.applied == a.server.applied
  {
    hide ShouldGrantVote;
  }

  /** The vote that completes a majority elects its candidate. */
  lemma WinningStep(m: set<NodeId>, h: History, n: NodeId, s0: Server, s: Server) returns (h': History)
    requires HistoryOK(m, h) && ServerOK(m, h, n, s) && s.role == Candidate && NextPositive(s.peers)
    requires VotesIsMajority(|VotingIds(s.peers)|, VotesForMe(s)) && Slides(s0, s) && s0.term == s.term && s0.commit == s.commit && s0.applied == s.applied
    ensures var e := BecomeLeader(s); StepOK(m, h, n, s0, e.server, (set q | q in e.out), h')
  {
    SameKeys(m, h);
    LocalServer(m, h, n, s);
    WinnerSends(s);
    hide HistoryOK, ServerOK, PacketOK, Grows, LeavesAlone, BecomeLeader, RecordElection, Broadcast, NextPositive, Supporters,
         VotesIsMajority, Slides, LocalOK;
    var e := BecomeLeader(s);
    var q := Supporters(s.peers, n) + {n};
    WinningServer(m, h, n, s);
    h' := RecordElection(h, s.term, n, s.log, q);
    ElectionLeavesAlone(h, s.term, n, s.log, q);
    forall p | p in e.out
      ensures e.server.gone == 0 ==> Backed(e.server, p.msg)
      ensures Backed(e.server, p.msg) ==> PacketOK(m, h', p)
    {
      HeartbeatOK(m, h', n, e.server, Heartbeat, p);
    }
    SlidesSame(s0, s, e.server);
  }

  lemma WinnerSends(s: Server)
    requires NextPositive(s.peers)
    ensures var e := BecomeLeader(s);
      && NextPositive(e.server.peers) && e.out == Broadcast(e.server, e.server.peers, Heartbeat) && e.server.role == Leader
      && e.server.log == s.log && e.server.gone == s.gone && e.server.capacity == s.capacity
      && e.server.term == s.term && e.server.commit == s.commit && e.server.applied == s.applied
  {
  }

  lemma SlidesSame(s0: Server, s: Server, s': Server)
    requires Slides(s0, s) && s'.log == s.log && s'.gone == s.gone && s'.capacity == s.capacity
    ensures Slides(s0, s')
  {
  }

  lemma VoteReplyStep(m: set<NodeId>, h: History, n: NodeId, s: Server, src: NodeId, r: Message, rnd: nat)
    returns (h': History)
    requires HistoryOK(m, h) && ServerOK(m, h, n, s) && NextPositive(s.peers)
    requires r.VoteReply? && PacketOK(m, h, Packet(src, n, r))
    ensures var e := RecvVoteReply(s, src, r, rnd); StepOK(m, h, n, s, e.server, (set q | q in e.out), h')
  {
    hide HistoryOK, ServerOK, PacketOK, Grows, LeavesAlone, BecomeLeader, StepDown, RecordSupport, VotesIsMajority;
    h' := h;
    SameKeys(m, h);
    NothingLeavesAlone(h);
    GrowsReflexive(h);
    if s.role == Candidate && s.term == r.term && r.ballot == Granted {
      var s1 := RecordSupport(s, src);
      GrantCounts(m, h, n, src, r);
      SupportServer(m, h, n, s, src);
      SupportFrame(m, h, n, s, s1, src);
      if VotesIsMajority(|VotingIds(s1.peers)|, VotesForMe(s1)) {
        h' := WinningStep(m, h, n, s, s1);
      }
    } else if s.role == Candidate && s.term < r.term {
      AdoptTerm(m, h, n, s, r.term, rnd);
      StepDownFrame(s, r.term, rnd);
    }
  }

  lemma GrantCounts(m: set<NodeId>, h: History, n: NodeId, src: NodeId, r: Message)
    requires r.VoteReply? && r.ballot == Granted && PacketOK(m, h, Packet(src, n, r))
    ensures (r.term, src) in h.votes && h.votes[(r.term, src)].candidate == n
  {
  }

  lemma SupportFrame(m: set<NodeId>, h: History, n: NodeId, s: Server, s1: Server, src: NodeId)
    requires s1 == RecordSupport(s, src) && ServerOK(m, h, n, s1)
    ensures s1 == s.(peers := s1.peers) && NextPositive(s1.peers)
  {
    AllVote(m, n, s1);
  }

  lemma StepDownFrame(s: Server, t: nat, rnd: nat)
    requires s.term < t
    ensures var s1 := StepDown(s, t, rnd); Slides(s, s1) && s1.term == t && s1.commit == s.commit && s1.applied == s.applied
  {
  }

  // ----- Replication -----

  lemma AppendEntriesStep(m: set<NodeId>, h: History, n: NodeId, s: Server, src: NodeId, msg: Message, chain: nat, pop: int, rnd: nat)
    returns (h': History)
    requires HistoryOK(m, h) && ServerOK(m, h, n, s)
    requires msg.AppendEntries? && PacketOK(m, h, Packet(src, n, msg)) && chain <= |msg.entries|
    requires NoNullRead(s, Cut(msg, chain)) && Anchored(s, Cut(msg, chain))
    ensures AppendEntriesAsserts(s, Cut(msg, chain), pop)
    ensures var a := RecvAppendEntries(s, src, Cut(msg, chain), pop, rnd);
            StepOK(m, h, n, s, a.server, {Packet(n, src, a.reply)}, h')
  {
    hide RecvAppendEntries, AppendEntriesAsserts, NoNullRead, Anchored, ServerOK, HistoryOK, Grows, LeavesAlone, RecordAck, Follows, Received;
    SameKeys(m, h);
    GrowsReflexive(h);
    NothingLeavesAlone(h);
    h' := h;
    if s.term <= msg.term {
      HandlerReceives(m, h, n, s, src, msg, chain, pop, rnd);
      var a := RecvAppendEntries(s, src, Cut(msg, chain), pop, rnd);
      ReceiverServer(m, h, n, s, a.server, src, msg.term, msg.leaderCommit, a.reply.success, a.reply.currentIdx);
      CountersRise(s, a.server, src, msg.term, h.logs[msg.term], msg.leaderCommit, a.reply.success, a.reply.currentIdx);
      if a.reply.success {
        h' := RecordAck(h, msg.term, n, a.reply.currentIdx);
        AckLeavesAlone(h, msg.term, n, a.reply.currentIdx);
        AckKeepsElections(h, msg.term, n, a.reply.currentIdx);
      }
    } else {
      StaleAppend(s, src, Cut(msg, chain), pop, rnd);
    }
  }

  lemma AckKeepsElections(h: History, t: nat, n: NodeId, k: nat)
    ensures RecordAck(h, t, n, k).elections == h.elections
  {
  }

  lemma CountersRise(s: Server, s': Server, src: NodeId, t: nat, lead: seq<Entry>, lc: nat, success: bool, cur: nat)
    requires s.term <= t && Follows(s, s', src, t) && Received(s, s', lead, lc, success, cur)
    ensures s.term <= s'.term && s.commit <= s'.commit && s.applied <= s'.applied && Slides(s, s')
  {
  }

  lemma StaleAppend(s: Server, from: NodeId, ae: Message, pop: int, rnd: nat)
    requires ae.AppendEntries? && ae.term < s.term
    ensures AppendEntriesAsserts(s, ae, pop)
    ensures var a := RecvAppendEntries(s, from, ae, pop, rnd);
      a.server == s && a.reply.AppendReply? && !a.reply.success
  {
  }

  lemma ReplyStep(m: set<NodeId>, h: History, n: NodeId, s: Server, src: NodeId, r: Message, ready: bool, rnd: nat)
    requires HistoryOK(m, h) && ServerOK(m, h, n, s) && NextPositive(s.peers)
    requires r.AppendReply? && PacketOK(m, h, Packet(src, n, r))
    ensures AppendReplyAsserts(s, src, r)
    ensures var e := RecvAppendReply(s, src, r, ready, rnd); StepOK(m, h, n, s, e.server, (set q | q in e.out), h)
  {
    SameKeys(m, h);
    hide HistoryOK, ServerOK, MessageOK, Grows, LeavesAlone, RecvAppendReply, AppendReplyAsserts;
    AppendReplyStep(m, h, n, s, src, r, ready, rnd);
    NothingLeavesAlone(h);
    GrowsReflexive(h);
  }

  lemma SameKeys(m: set<NodeId>, h: History)
    requires HistoryOK(m, h)
    ensures h.logs.Keys == h.elections.Keys
  {
  }

  // ----- All steps -----

  /** What the invariant says of the server that acts. */
  lemma ActingServer(m: set<NodeId>, c: Cluster, h: History, ev: Event)
    requires Inv(m, c, h) && Possible(c, ev)
    ensures 2 <= |m| && HistoryOK(m, h)
    ensures var s := c.servers[Actor(ev)]; ServerOK(m, h, Actor(ev), s) && NextPositive(s.peers)
    ensures ev.Deliver? ==> PacketOK(m, h, Packet(ev.p.src, Actor(ev), ev.p.msg))
  {
    var n := Actor(ev);
    assert ServerOK(m, h, n, c.servers[n]);
    AllVote(m, n, c.servers[n]);
    if ev.Deliver? {
      assert PacketOK(m, h, ev.p);
    }
  }

  lemma DeliverStep(m: set<NodeId>, h: History, c: Cluster, ev: Event) returns (h': History)
    requires ev.Deliver? && Possible(c, ev)
    requires HistoryOK(m, h) && ServerOK(m, h, Actor(ev), c.servers[Actor(ev)]) && NextPositive(c.servers[Actor(ev)].peers)
    requires PacketOK(m, h, Packet(ev.p.src, Actor(ev), ev.p.msg))
    ensures AssertsHold(c, ev)
    ensures var (s', out) := Outcome(c, ev); StepOK(m, h, Actor(ev), c.servers[Actor(ev)], s', out, h')
  {
    hide HistoryOK, ServerOK, PacketOK, StepOK, RecvAppendEntries, RecvRequestVote, RecvVoteReply, RecvAppendReply,
         RequestVoteAsserts, AppendReplyAsserts, AppendEntriesAsserts, NoNullRead, Anchored, GrantReads, QuorumReads;
    var n := Actor(ev);
    var s := c.servers[n];
    match ev.p.msg
    case RequestVote(_, _, _, _) => h' := RequestVoteStep(m, h, n, s, ev.p.src, ev.p.msg, ev.rnd);
    case VoteReply(_, _) => h' := VoteReplyStep(m, h, n, s, ev.p.src, ev.p.msg, ev.rnd);
    case AppendEntries(_, _, _, _, _, _) =>
      h' := AppendEntriesStep(m, h, n, s, ev.p.src, ev.p.msg, ev.chain, ev.pop, ev.rnd);
    case AppendReply(_, _, _, _) =>
      ReplyStep(m, h, n, s, ev.p.src, ev.p.msg, ev.ready, ev.rnd);
      h' := h;
  }

  /** The step of any event: its assertions hold and its outcome is sound. */
  lemma EventStep(m: set<NodeId>, c: Cluster, h: History, ev: Event) returns (h': History)
    requires Inv(m, c, h) && Possible(c, ev)
    ensures AssertsHold(c, ev)
    ensures var (s', out) := Outcome(c, ev); StepOK(m, h, Actor(ev), c.servers[Actor(ev)], s', out, h')
  {
    hide HistoryOK, ServerOK, PacketOK, Inv, StepOK, Periodic, RecvEntry, ApplyAll;
    ActingServer(m, c, h, ev);
    var n := Actor(ev);
    var s := c.servers[n];
    match ev
    case PeriodicAt(_, msec, rnd, shutdown) => h' := PeriodicStep(m, h, n, s, msec, rnd, shutdown);
    case ClientEntry(_, e) => h' := ClientStep(m, h, n, s, e);
    case ApplyAllAt(_, quota) =>
      ApplyAllStep(m, h, n, s, quota);
      h' := h;
    case Deliver(_, _, _, _, _) => h' := DeliverStep(m, h, c, ev);
  }

  lemma ActorPresent(c: Cluster, ev: Event)
    requires Possible(c, ev)
    ensures Actor(ev) in c.servers
  {
  }

  /** The invariant is inductive. */
  lemma NextInv(m: set<NodeId>, c: Cluster, h: History, c': Cluster) returns (h': History)
    requires Inv(m, c, h) && Next(c, c')
    ensures Inv(m, c', h') && Grows(h, h')
    ensures forall n :: n in m ==>
      && n in c.servers && n in c'.servers && Slides(c.servers[n], c'.servers[n]) && c.servers[n].term <= c'.servers[n].term
      && c.servers[n].commit <= c'.servers[n].commit && c.servers[n].applied <= c'.servers[n].applied
  {
    hide HistoryOK, ServerOK, PacketOK, LeavesAlone, Grows, Outcome, AssertsHold, Enabled, ListSuffices;
    var ev :| StepBy(c, ev, c');
    h' := EventStep(m, c, h, ev);
    var (s', out) := Outcome(c, ev);
    assert Actor(ev) in m by { ActorPresent(c, ev); }
    StepInv(m, c, h, Actor(ev), s', out, h');
  }
}
