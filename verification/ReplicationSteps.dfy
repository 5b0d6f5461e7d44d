/** The steps that concern log replication and commitment keep the invariant. */
module ReplicationSteps {
  import opened RaftTypes
  import opened Peers
  import opened Handlers
  import opened RaftCluster
  import opened AppendLaws
  import opened Quorum
  import opened History
  import opened HistorySteps
  import opened Invariant
  import opened ElectionSteps

  // ----- The leader's side -----

  /** Every AppendEntries a leader builds for a peer carries its log, and its commit index does
      not exceed the last index the message covers. */
  lemma AppendForOK(m: set<NodeId>, h: History, n: NodeId, s: Server, p: Peer)
    requires ServerOK(m, h, n, s) && s.role == Leader
    requires p in s.peers && p.id != n && 1 <= p.nextIdx && Backed(s, AppendFor(s, p))
    ensures PacketOK(m, h, Packet(n, p.id, AppendFor(s, p)))
  {
    assert ProgressOK(h, s, p);
    assert p.id in Ids(s.peers);
  }

  /** While the list has lost nothing, every entry a message is built from is there. */
  lemma FullListBacks(m: set<NodeId>, h: History, n: NodeId, s: Server, p: Peer)
    requires ServerOK(m, h, n, s) && s.role == Leader
    requires p in s.peers && p.id != n && 1 <= p.nextIdx && s.gone == 0
    ensures Backed(s, AppendFor(s, p))
  {
    assert ProgressOK(h, s, p);
  }

  lemma HeartbeatOK(m: set<NodeId>, h: History, n: NodeId, s: Server, w: Wave, q: Packet)
    requires ServerOK(m, h, n, s) && s.role == Leader && w != Canvass && NextPositive(s.peers)
    requires q in Broadcast(s, s.peers, w)
    ensures s.gone == 0 ==> Backed(s, q.msg)
    ensures Backed(s, q.msg) ==> PacketOK(m, h, q)
  {
    BroadcastLetters(s, s.peers, w, q);
    var p :| p in s.peers && 1 <= p.nextIdx && Addressed(s, p, w) && q == Letter(s, p, w);
    if s.gone == 0 {
      FullListBacks(m, h, n, s, p);
    }
    if Backed(s, q.msg) {
      AppendForOK(m, h, n, s, p);
    }
  }

  /** New bookkeeping of a leader, within its bounds, leaves the rest of its invariant as it is. */
  lemma NewPeers(m: set<NodeId>, h: History, n: NodeId, s: Server, s': Server)
    requires ServerOK(m, h, n, s) && s.role == Leader && s' == s.(peers := s'.peers)
    requires DistinctIds(s'.peers) && Ids(s'.peers) == m
    requires forall p :: p in s'.peers ==> p.voting && p.active && 1 <= p.nextIdx && (p.id != n ==> ProgressOK(h, s', p))
    ensures ServerOK(m, h, n, s')
  {
    hide LogOK, TermsAtMost, KeepsAcked, Settled, ProgressOK, DistinctIds, Ids, HandedOver, WindowOK;
    assert WindowOK(s') by { SameWindow(s, s'); }
  }

  lemma SameWindow(s: Server, s': Server)
    requires WindowOK(s) && s' == s.(peers := s'.peers)
    ensures WindowOK(s')
  {
  }

  /** One peer's bookkeeping is overwritten. */
  lemma ReplacedPeer(m: set<NodeId>, h: History, n: NodeId, s: Server, q: Peer)
    requires ServerOK(m, h, n, s) && s.role == Leader
    requires q.id != n && q.voting && q.active && ProgressOK(h, s, q)
    ensures ServerOK(m, h, n, s.(peers := Replace(s.peers, q)))
  {
    hide LogOK, TermsAtMost, KeepsAcked, Settled, ProgressOK, DistinctIds, Ids, HandedOver, WindowOK, BallotOK, CandidateOK, HintOK,
         Replace;
    var s' := s.(peers := Replace(s.peers, q));
    ReplaceKeepsIds(s.peers, q);
    forall p | p in s'.peers
      ensures p.voting && p.active && 1 <= p.nextIdx
      ensures p.id != n ==> ProgressOK(h, s', p)
    {
      var i :| 0 <= i < |s'.peers| && s'.peers[i] == p;
      assert s.peers[i] in s.peers;
      assert s.peers[i].id != n ==> ProgressOK(h, s, s.peers[i]);
      ProgressIgnoresPeers(h, s, s', p);
    }
    NewPeers(m, h, n, s, s');
  }

  lemma ProgressIgnoresPeers(h: History, s: Server, s': Server, p: Peer)
    requires s' == s.(peers := s'.peers)
    ensures ProgressOK(h, s, p) <==> ProgressOK(h, s', p)
    ensures ProgressOK(h, s, p) ==> 1 <= p.nextIdx
  {
  }

  /** Every failure reply that is not ignored strictly lowers the next index. */
  lemma BackOffDescends(h: History, s: Server, p: Peer, r: Message)
    requires r.AppendReply? && ProgressOK(h, s, p) && p.matchIdx != p.nextIdx - 1
    ensures 1 <= BackOff(s, p, r).nextIdx < p.nextIdx
    ensures ProgressOK(h, s, BackOff(s, p, r))
  {
  }

  /** The peers whose match index reaches `point`, with the leader, hold it: a quorum of them
      commits it. */
  lemma QuorumCommits(m: set<NodeId>, h: History, n: NodeId, s: Server, point: nat)
    requires ServerOK(m, h, n, s) && s.role == Leader && 1 <= point <= |s.log|
    requires s.log[point - 1].term == s.term
    requires |VotingIds(s.peers)| / 2 < 1 + |Holders(s.peers, s.id, point)|
    ensures Committed(m, h, s.term, point)
  {
    hide *;
    LeaderParts(m, h, n, s);
    AllVote(m, n, s);
    NotHolder(s.peers, n, point);
    var q := Holders(s.peers, n, point) + {n};
    forall v | v in q ensures v in AckSet(m, h, s.term, point) {
      HolderAcked(m, h, n, s, point, v);
    }
    SubsetSize(q, AckSet(m, h, s.term, point));
    EnoughHolders(m, h, s, point, Holders(s.peers, n, point), n);
  }

  lemma LeaderParts(m: set<NodeId>, h: History, n: NodeId, s: Server)
    requires ServerOK(m, h, n, s) && s.role == Leader
    ensures LocalOK(m, n, s) && s.id == n && s.term in h.logs && h.logs[s.term] == s.log
  {
    hide LogOK, TermsAtMost, KeepsAcked, Settled, BallotOK, CandidateOK, HintOK, DistinctIds, Ids, WindowOK;
  }

  lemma HolderAcked(m: set<NodeId>, h: History, n: NodeId, s: Server, point: nat, v: NodeId)
    requires ServerOK(m, h, n, s) && s.role == Leader && point <= |s.log| && v in Holders(s.peers, n, point) + {n} && 1 <= point
    ensures v in AckSet(m, h, s.term, point)
  {
    hide LogOK, TermsAtMost, KeepsAcked, Settled, BallotOK, CandidateOK, HintOK, WindowOK;
    if v != n {
      var p :| p in s.peers && p.id == v && p.id != n && point <= p.matchIdx;
      assert ProgressOK(h, s, p);
      assert v in Ids(s.peers);
    }
  }

  lemma NotHolder(ps: seq<Peer>, n: NodeId, point: nat)
    ensures n !in Holders(ps, n, point)
  {
  }

  lemma EnoughHolders(m: set<NodeId>, h: History, s: Server, point: nat, holders: set<NodeId>, n: NodeId)
    requires s.term in h.logs && h.logs[s.term] == s.log && 1 <= point <= |s.log| && s.log[point - 1].term == s.term
    requires |m| / 2 < 1 + |holders| && n !in holders && |holders + {n}| <= |AckSet(m, h, s.term, point)|
    ensures Committed(m, h, s.term, point)
  {
    assert |holders + {n}| == |holders| + 1;
  }

  /** The commit index moves to a settled point. */
  lemma MovedCommit(m: set<NodeId>, h: History, n: NodeId, s: Server, point: nat)
    requires ServerOK(m, h, n, s) && s.commit <= point <= |s.log|
    requires Settled(m, h, s.term, s.log[..point])
    ensures ServerOK(m, h, n, s.(commit := point))
  {
    hide KeepsAcked, Settled, LogOK;
    var s' := s.(commit := point);
    forall p | p in s.peers && p.id != n && s.role == Leader ensures ProgressOK(h, s', p) {
      assert ProgressOK(h, s, p);
    }
  }

  /** A commit point reached by the quorum rule is settled. */
  lemma AdvanceSettled(m: set<NodeId>, h: History, n: NodeId, s: Server, point: nat)
    requires ServerOK(m, h, n, s) && s.role == Leader && 1 <= point <= |s.log|
    ensures ServerOK(m, h, n, AdvanceCommit(s, point))
  {
    if AdvanceCommit(s, point).commit != s.commit {
      QuorumCommits(m, h, n, s, point);
      assert SettledBy(m, h, s.term, s.log[..point], s.term, point);
      hide ServerOK;
      MovedCommit(m, h, n, s, point);
    }
  }

  /** What a leader knows of the peer that replied. */
  lemma ReplyingPeer(m: set<NodeId>, h: History, n: NodeId, s: Server, src: NodeId, r: Message)
    requires HistoryOK(m, h) && ServerOK(m, h, n, s) && s.role == Leader && s.term == r.term
    requires r.AppendReply? && src != n && src in m && MessageOK(m, h, src, n, r)
    ensures AppendReplyAsserts(s, src, r)
    ensures var p := Find(s.peers, src).value;
            && p in s.peers && p.id == src && p.voting && p.active && ProgressOK(h, s, p)
            && (r.success && p.matchIdx < r.currentIdx ==> ProgressOK(h, s, Acknowledged(s, p, r, false)))
  {
    var p := Find(s.peers, src).value;
    assert ProgressOK(h, s, p);
    if r.success {
      assert AckOK(m, h, r.term, src);
    }
  }

  /** A peer's bookkeeping is overwritten, and what goes out next to that peer is sound. */
  lemma PeerUpdateStep(m: set<NodeId>, h: History, n: NodeId, s: Server, p: Peer, q: Peer)
    requires ServerOK(m, h, n, s) && s.role == Leader && p in s.peers && p.id == q.id
    requires q.id != n && q.voting && q.active && ProgressOK(h, s, q)
    ensures var s1 := s.(peers := Replace(s.peers, q));
            && ServerOK(m, h, n, s1)
            && (s1.gone == 0 ==> Backed(s1, AppendFor(s1, q)))
            && (Backed(s1, AppendFor(s1, q)) ==> PacketOK(m, h, Packet(n, q.id, AppendFor(s1, q))))
  {
    ReplacedPeer(m, h, n, s, q);
    PeerReplaced(s.peers, q, p);
    hide ServerOK, PacketOK;
    var s1 := s.(peers := Replace(s.peers, q));
    if s1.gone == 0 {
      FullListBacks(m, h, n, s1, q);
    }
    if Backed(s1, AppendFor(s1, q)) {
      AppendForOK(m, h, n, s1, q);
    }
  }

  lemma PeerAckStep(m: set<NodeId>, h: History, n: NodeId, s: Server, p: Peer, q: Peer, point: nat)
    requires ServerOK(m, h, n, s) && s.role == Leader && p in s.peers && p.id == q.id
    requires q.id != n && q.voting && q.active && ProgressOK(h, s, q) && 1 <= point <= |s.log|
    ensures var s1 := AdvanceCommit(s.(peers := Replace(s.peers, q)), point);
            && ServerOK(m, h, n, s1)
            && (s1.gone == 0 ==> Backed(s1, AppendFor(s1, q)))
            && (Backed(s1, AppendFor(s1, q)) ==> PacketOK(m, h, Packet(n, q.id, AppendFor(s1, q))))
  {
    PeerReplaced(s.peers, q, p);
    var s0 := s.(peers := Replace(s.peers, q));
    hide ServerOK, PacketOK, ProgressOK;
    ReplacedPeer(m, h, n, s, q);
    AdvanceSettled(m, h, n, s0, point);
    var s1 := AdvanceCommit(s0, point);
    if s1.gone == 0 {
      FullListBacks(m, h, n, s1, q);
    }
    if Backed(s1, AppendFor(s1, q)) {
      AppendForOK(m, h, n, s1, q);
    }
  }

  /** The reply of a peer is acted on: bookkeeping, commit index, and what is sent next. */
  lemma AppendReplyStep(m: set<NodeId>, h: History, n: NodeId, s: Server, src: NodeId, r: Message, ready: bool, rnd: nat)
    requires HistoryOK(m, h) && ServerOK(m, h, n, s) && NextPositive(s.peers)
    requires r.AppendReply? && src != n && src in m && MessageOK(m, h, src, n, r)
    ensures AppendReplyAsserts(s, src, r) && ReplyOK(m, h, n, s, RecvAppendReply(s, src, r, ready, rnd))
  {
    hide *;
    LocalId(m, h, n, s);
    if s.role == Leader && s.term == r.term {
      ReplyingPeer(m, h, n, s, src, r);
      ReplyEffects(s, src, r, ready, rnd);
      var p := Find(s.peers, src).value;
      var e := RecvAppendReply(s, src, r, ready, rnd);
      if r.success {
        if p.matchIdx < r.currentIdx {
          var q := Acknowledged(s, p, r, ready);
          AcknowledgedOK(h, s, p, r, ready);
          PeerAckStep(m, h, n, s, p, q, r.currentIdx);
          AdvanceSlides(s, Replace(s.peers, q), r.currentIdx);
          ReplySent(m, h, n, s, e, q);
        } else {
          NothingSent(m, h, n, s, e);
        }
      } else if p.matchIdx != p.nextIdx - 1 {
        BackOffDescends(h, s, p, r);
        BackedOffPeer(s, p, r);
        PeerUpdateStep(m, h, n, s, p, BackOff(s, p, r));
        ReplySent(m, h, n, s, e, BackOff(s, p, r));
      } else {
        NothingSent(m, h, n, s, e);
      }
    } else {
      ReplyIgnored(s, src, r);
      ReplyEffects(s, src, r, ready, rnd);
      if s.role == Leader && s.term < r.term {
        AdoptTerm(m, h, n, s, r.term, rnd);
      }
      NothingSent(m, h, n, s, RecvAppendReply(s, src, r, ready, rnd));
    }
  }

  /** What a leader makes of a reply is sound. */
  ghost predicate ReplyOK(m: set<NodeId>, h: History, n: NodeId, s: Server, e: Effect) {
    && ServerOK(m, h, n, e.server) && Slides(s, e.server)
    && s.term <= e.server.term && s.commit <= e.server.commit && s.applied <= e.server.applied
    && (forall q :: q in e.out && e.server.gone == 0 ==> Backed(e.server, q.msg))
    && (forall q :: q in e.out && Backed(e.server, q.msg) ==> PacketOK(m, h, q))
  }

  lemma LocalId(m: set<NodeId>, h: History, n: NodeId, s: Server)
    requires ServerOK(m, h, n, s)
    ensures s.id == n
  {
  }

  lemma NothingSent(m: set<NodeId>, h: History, n: NodeId, s: Server, e: Effect)
    requires ServerOK(m, h, n, e.server) && Slides(s, e.server) && e.out == []
    requires s.term <= e.server.term && s.commit <= e.server.commit && s.applied <= e.server.applied
    ensures ReplyOK(m, h, n, s, e)
  {
    hide ServerOK, Slides;
  }

  lemma ReplySent(m: set<NodeId>, h: History, n: NodeId, s: Server, e: Effect, q: Peer)
    requires ServerOK(m, h, n, e.server) && Slides(s, e.server) && 1 <= q.nextIdx
    requires e.out == [] || e.out == [Packet(n, q.id, AppendFor(e.server, q))]
    requires s.term <= e.server.term && s.commit <= e.server.commit && s.applied <= e.server.applied
    requires e.server.gone == 0 ==> Backed(e.server, AppendFor(e.server, q))
    requires Backed(e.server, AppendFor(e.server, q)) ==> PacketOK(m, h, Packet(n, q.id, AppendFor(e.server, q)))
    ensures ReplyOK(m, h, n, s, e)
  {
    hide ServerOK, Slides, PacketOK, Backed, AppendFor;
  }

  lemma ReplyIgnored(s: Server, src: NodeId, r: Message)
    requires r.AppendReply? && !(s.role == Leader && s.term == r.term)
    ensures AppendReplyAsserts(s, src, r)
  {
  }

  lemma AcknowledgedOK(h: History, s: Server, p: Peer, r: Message, ready: bool)
    requires r.AppendReply? && ProgressOK(h, s, Acknowledged(s, p, r, false)) && p.matchIdx < r.currentIdx
    ensures var q := Acknowledged(s, p, r, ready);
      ProgressOK(h, s, q) && q.id == p.id && q.voting == p.voting && q.active == p.active && 1 <= r.currentIdx <= |s.log|
  {
  }

  lemma BackedOffPeer(s: Server, p: Peer, r: Message)
    requires r.AppendReply? && 1 <= p.nextIdx
    ensures var q := BackOff(s, p, r); q.id == p.id && q.voting == p.voting && q.active == p.active
  {
  }

  lemma AdvanceSlides(s: Server, ps: seq<Peer>, point: nat)
    requires 1 <= point <= |s.log|
    ensures var s' := AdvanceCommit(s.(peers := ps), point);
      Slides(s, s') && s'.gone == s.gone && s'.term == s.term && s.commit <= s'.commit && s'.applied == s.applied
  {
    hide VotingIds, Holders;
  }

  /** What a leader does with a reply, case by case. */
  lemma ReplyEffects(s: Server, src: NodeId, r: Message, ready: bool, rnd: nat)
    requires r.AppendReply? && NextPositive(s.peers) && AppendReplyAsserts(s, src, r)
    ensures var e := RecvAppendReply(s, src, r, ready, rnd);
      if s.role != Leader || r.term < s.term then e.server == s && e.out == [] && Slides(s, s)
      else if s.term < r.term then
        && e.server == StepDown(s, r.term, rnd) && e.out == []
        && Slides(s, e.server) && s.term <= e.server.term && s.commit == e.server.commit && s.applied == e.server.applied
      else
        && Find(s.peers, src).Some?
        && var p := Find(s.peers, src).value;
        if !r.success then
          1 <= p.nextIdx &&
          if p.matchIdx == p.nextIdx - 1 then e.server == s && e.out == [] && Slides(s, s)
          else
            && e.server == s.(peers := Replace(s.peers, BackOff(s, p, r))) && Slides(s, e.server)
            && e.out == [Packet(s.id, src, AppendFor(e.server, BackOff(s, p, r)))]
        else if r.currentIdx <= p.matchIdx then e.server == s && e.out == [] && Slides(s, s)
        else
          var q := Acknowledged(s, p, r, ready);
          && 1 <= r.currentIdx <= |s.log| && 1 <= q.nextIdx
          && e.server == AdvanceCommit(s.(peers := Replace(s.peers, q)), r.currentIdx)
          && (e.out == [] || e.out == [Packet(s.id, src, AppendFor(e.server, q))])
  {
    hide AppendFor, Replace, VotingIds, Holders;
  }

  lemma PeerReplaced(ps: seq<Peer>, q: Peer, p: Peer)
    requires p in ps && p.id == q.id
    ensures q in Replace(ps, q)
  {
    var i :| 0 <= i < |ps| && ps[i] == p;
    assert Replace(ps, q)[i] == q;
  }

  // ----- A client entry -----

  lemma EntryKept(m: set<NodeId>, h: History, n: NodeId, s: Server, e: Entry)
    requires HistoryOK(m, h) && ServerOK(m, h, n, s) && s.role == Leader && e.term == s.term
    ensures KeepsAcked(RecordAppend(h, s.term, n, e), n, s.term + 1, s.log + [e])
  {
    var h' := RecordAppend(h, s.term, n, e);
    var hi, log := s.term + 1, s.log + [e];
    forall t: nat, k: nat |
      (t, n) in h'.acks && t < hi && k <= h'.acks[(t, n)] && t in h'.logs && k <= |h'.logs[t]|
      ensures Keeps(h', t, k, hi, log)
    {
      if t == s.term {
        assert h'.logs[t] == log;
      } else {
        assert Keeps(h, t, k, hi, s.log);
        assert ElectedHave(h', t, hi, h.logs[t][..k]) ==> ElectedHave(h, t, hi, h.logs[t][..k]);
      }
    }
  }

  lemma LongerProgress(h: History, h': History, n: NodeId, s: Server, s': Server)
    requires LeaderOK(h, n, s) && s.role == Leader && Grows(h, h')
    requires s'.term == s.term && s'.peers == s.peers && |s.log| <= |s'.log|
    ensures forall p :: p in s'.peers && p.id != n ==> ProgressOK(h', s', p)
  {
    forall p | p in s'.peers && p.id != n ensures ProgressOK(h', s', p) {
      assert ProgressOK(h, s, p);
    }
  }

  lemma EntryRecorded(m: set<NodeId>, h: History, n: NodeId, s: Server, e: Entry)
    requires HistoryOK(m, h) && ServerOK(m, h, n, s) && s.role == Leader && e.term == s.term
    ensures var h' := RecordAppend(h, s.term, n, e);
            HistoryOK(m, h') && Grows(h, h') && LogOK(h', s.log + [e])
  {
    RecordAppendOK(m, h, s.term, n, e);
    assert ElectionOK(m, RecordAppend(h, s.term, n, e), s.term);
  }

  lemma EntryServer(m: set<NodeId>, h: History, n: NodeId, s: Server, e: Entry)
    requires HistoryOK(m, h) && ServerOK(m, h, n, s) && s.role == Leader && e.term == s.term
    ensures var h' := RecordAppend(h, s.term, n, e);
            HistoryOK(m, h') && Grows(h, h') && ServerOK(m, h', n, Grown(s, [e]))
  {
    hide *;
    LeaderParts(m, h, n, s);
    ServerParts(m, h, n, s);
    var h' := RecordAppend(h, s.term, n, e);
    var s' := Grown(s, [e]);
    EntryRecorded(m, h, n, s, e);
    EntryKept(m, h, n, s, e);
    EntryLocal(m, n, s, e);
    EntryBallot(m, h, n, s, e);
    EntryTerms(s, e);
    SettledGrows(m, h, h', s.term, s.term, s.log[..s.commit]);
    assert ServerOK(m, h', n, s') by { PartsOK(m, h', n, s'); }
  }

  lemma EntryTerms(s: Server, e: Entry)
    requires TermsAtMost(s.log, s.term) && e.term == s.term && s.commit <= |s.log|
    ensures var s' := Grown(s, [e]);
      TermsAtMost(s'.log, s'.term) && s'.log == s.log + [e] && s'.term == s.term && s'.commit == s.commit
      && s'.log[..s'.commit] == s.log[..s.commit]
  {
  }

  lemma EntryLocal(m: set<NodeId>, n: NodeId, s: Server, e: Entry)
    requires LocalOK(m, n, s)
    ensures LocalOK(m, n, Grown(s, [e])) && s.commit <= |s.log|
  {
    hide DistinctIds, Ids;
    assert (s.log + [e])[..s.applied] == s.log[..s.applied];
  }

  lemma EntryBallot(m: set<NodeId>, h: History, n: NodeId, s: Server, e: Entry)
    requires ServerOK(m, h, n, s) && s.role == Leader && s.term in h.logs && Grows(h, RecordAppend(h, s.term, n, e))
    ensures var h' := RecordAppend(h, s.term, n, e);
      var s' := Grown(s, [e]);
      BallotOK(h', n, s') && LeaderOK(h', n, s') && HintOK(h', s') && CandidateOK(h', n, s')
  {
    hide Grows, KeepsAcked, LogOK, Settled, ProgressOK, LocalOK, TermsAtMost;
    LongerProgress(h, RecordAppend(h, s.term, n, e), n, s, Grown(s, [e]));
  }

  // ----- The follower's side -----

  /** A server that receives a sent AppendEntries of its term or later is compatible with the
      log of the leader that sent it. */
  lemma ReceiverCompatible(m: set<NodeId>, h: History, n: NodeId, s: Server, src: NodeId, msg: Message, chain: nat)
    requires HistoryOK(m, h) && ServerOK(m, h, n, s)
    requires msg.AppendEntries? && MessageOK(m, h, src, n, msg) && chain <= |msg.entries|
    requires s.term <= msg.term && NoNullRead(s, Cut(msg, chain)) && Anchored(s, Cut(msg, chain))
    ensures Compatible(s, Cut(msg, chain), h.logs[msg.term])
  {
    var lead := h.logs[msg.term];
    var ae := Cut(msg, chain);
    assert ae.entries == lead[ae.prevIdx..ae.prevIdx + |ae.entries|];
    assert LogOK(h, lead) by { assert ElectionOK(m, h, msg.term); }
    forall i | 0 <= i < |s.log| && i < |lead| ensures AgreeThrough(s.log, lead, i) {
      if s.log[i].term == lead[i].term {
        SameTermSamePrefix(h, s.log, lead, i);
      }
    }
    SettledGrows(m, h, h, s.term, msg.term, s.log[..s.commit]);
    SettledInLeader(m, h, msg.term, s.log[..s.commit]);
  }

  /** What the receiver keeps of earlier acknowledgements, and the new one. */
  lemma ReceiverKeeps(m: set<NodeId>, h: History, n: NodeId, s: Server, t: nat, log': seq<Entry>, success: bool, cur: nat)
    requires HistoryOK(m, h) && KeepsAcked(h, n, s.term + 1, s.log) && s.term <= t && t in h.elections && t in h.logs
    requires forall u: nat :: (u, n) in h.acks ==> u <= s.term
    requires KeepsShared(s.log, h.logs[t], log')
    requires success ==> Shared(log', h.logs[t], cur)
    ensures KeepsAcked(if success then RecordAck(h, t, n, cur) else h, n, t + 1, log')
  {
    var h' := if success then RecordAck(h, t, n, cur) else h;
    var hi := t + 1;
    var lead := h.logs[t];
    forall u: nat, k: nat |
      (u, n) in h'.acks && u < hi && k <= h'.acks[(u, n)] && u in h'.logs && k <= |h'.logs[u]|
      ensures Keeps(h', u, k, hi, log')
    {
      var p := h.logs[u][..k];
      if u == t && !((u, n) in h.acks && k <= h.acks[(u, n)]) {
        assert p == log'[..cur][..k];
      } else if ElectedHave(h', u, hi, p) {
        assert Keeps(h, u, k, s.term + 1, s.log);
        assert ElectedHave(h, u, s.term + 1, p);
        assert ElectionOK(m, h, t);
        assert p <= lead;
        assert Shared(s.log, lead, k);
      }
    }
  }

  lemma PrefixTerms(h: History, a: seq<Entry>, b: seq<Entry>, t: nat)
    requires a <= b && LogOK(h, b) && TermsAtMost(b, t)
    ensures LogOK(h, a) && TermsAtMost(a, t)
  {
    PrefixOK(h, b, |a|);
    assert a == b[..|a|];
  }

  lemma HandlerReceives(m: set<NodeId>, h: History, n: NodeId, s: Server, src: NodeId, msg: Message, chain: nat, pop: int, rnd: nat)
    requires HistoryOK(m, h) && ServerOK(m, h, n, s)
    requires msg.AppendEntries? && MessageOK(m, h, src, n, msg) && chain <= |msg.entries|
    requires s.term <= msg.term && NoNullRead(s, Cut(msg, chain)) && Anchored(s, Cut(msg, chain))
    ensures AppendEntriesAsserts(s, Cut(msg, chain), pop)
    ensures var a := RecvAppendEntries(s, src, Cut(msg, chain), pop, rnd);
            && a.reply.AppendReply? && a.reply.term == msg.term
            && Follows(s, a.server, src, msg.term)
            && Received(s, a.server, h.logs[msg.term], msg.leaderCommit, a.reply.success, a.reply.currentIdx)
  {
    ReceiverCompatible(m, h, n, s, src, msg, chain);
    hide HistoryOK, ServerOK, RecvAppendEntries, Compatible, NoNullRead, Anchored, AppendEntriesAsserts, Received;
    AppendAssertsHold(s, src, Cut(msg, chain), pop, rnd, h.logs[msg.term]);
    AppendReceives(s, src, Cut(msg, chain), pop, rnd, h.logs[msg.term]);
  }

  /** The log and the settled prefix of the receiver. */
  lemma ReceiverLog(m: set<NodeId>, h: History, s: Server, s': Server, t: nat, lc: nat, success: bool, cur: nat)
    requires HistoryOK(m, h) && t in h.logs && s.term <= t
    requires LogOK(h, s.log) && TermsAtMost(s.log, s.term) && s.commit <= |s.log| && Settled(m, h, s.term, s.log[..s.commit])
    requires lc <= |h.logs[t]| && Settled(m, h, t, h.logs[t][..lc])
    requires Received(s, s', h.logs[t], lc, success, cur)
    ensures LogOK(h, s'.log) && TermsAtMost(s'.log, t)
    ensures Settled(m, h, t, s'.log[..s'.commit])
    ensures s.log[..s.commit] <= s'.log
  {
    var lead := h.logs[t];
    LeaderTerms(m, h, t);
    assert LogOK(h, lead) by { assert ElectionOK(m, h, t); }
    hide HistoryOK, LogOK, Settled;
    assert Shared(s.log, lead, s.commit);
    if s'.log <= s.log {
      PrefixTerms(h, s'.log, s.log, s.term);
    } else {
      PrefixTerms(h, s'.log, lead, t);
    }
    if s'.commit == s.commit {
      assert s'.log[..s'.commit] == s.log[..s.commit];
      SettledGrows(m, h, h, s.term, t, s.log[..s.commit]);
    }
  }

  lemma ReceiverBallot(m: set<NodeId>, h: History, n: NodeId, s: Server, src: NodeId, s': Server, h': History)
    requires ServerOK(m, h, n, s) && s.term <= s'.term && n != src
    requires s'.term in h.elections && h.elections[s'.term].leader == src
    requires Follows(s, s', src, s'.term)
    requires h'.votes == h.votes && h'.elections == h.elections
    requires forall u: nat :: (u, n) in h'.acks ==> (u, n) in h.acks || u == s'.term
    ensures BallotOK(h', n, s') && s'.role == Follower && HintOK(h', s')
  {
  }

  lemma ReceiverServer(m: set<NodeId>, h: History, n: NodeId, s: Server, s': Server, src: NodeId, t: nat, lc: nat, success: bool, cur: nat)
    requires HistoryOK(m, h) && ServerOK(m, h, n, s) && n != src && s.term <= t
    requires t in h.elections && t in h.logs && h.elections[t].leader == src
    requires lc <= |h.logs[t]| && Settled(m, h, t, h.logs[t][..lc])
    requires Follows(s, s', src, t) && Received(s, s', h.logs[t], lc, success, cur)
    ensures var h' := if success then RecordAck(h, t, n, cur) else h;
            && HistoryOK(m, h') && Grows(h, h') && ServerOK(m, h', n, s')
            && (success ==> (t, n) in h'.acks && cur <= h'.acks[(t, n)])
  {
    hide *;
    var h' := if success then RecordAck(h, t, n, cur) else h;
    ServerParts(m, h, n, s);
    AckRecorded(m, h, t, n, cur, success, s, s', h.logs[t], lc);
    ReceiverLog(m, h, s, s', t, lc, success, cur);
    ReceiverLocal(m, n, s, s', src, t, h.logs[t], lc, success, cur);
    ReceiverBallot(m, h, n, s, src, s', h');
    ReceiverKept(m, h, n, s, s', t, lc, success, cur);
    LogOKGrows(h, h', s'.log);
    SettledGrows(m, h, h', t, t, s'.log[..s'.commit]);
    NotActing(h', n, s');
    assert ServerOK(m, h', n, s') by { PartsOK(m, h', n, s'); }
  }

  lemma ReceiverKept(m: set<NodeId>, h: History, n: NodeId, s: Server, s': Server, t: nat, lc: nat, success: bool, cur: nat)
    requires HistoryOK(m, h) && KeepsAcked(h, n, s.term + 1, s.log) && s.term <= t && t in h.elections && t in h.logs
    requires forall u: nat :: (u, n) in h.acks ==> u <= s.term
    requires Received(s, s', h.logs[t], lc, success, cur)
    ensures KeepsAcked(if success then RecordAck(h, t, n, cur) else h, n, t + 1, s'.log)
  {
    hide HistoryOK, KeepsAcked, KeepsShared, Shared, RecordAck, WindowOK, Slides;
    ReceiverKeeps(m, h, n, s, t, s'.log, success, cur);
  }

  lemma AckRecorded(m: set<NodeId>, h: History, t: nat, n: NodeId, cur: nat, success: bool, s: Server, s': Server, lead: seq<Entry>, lc: nat)
    requires HistoryOK(m, h) && t in h.elections && t in h.logs && h.logs[t] == lead && n in m && s.term <= t
    requires forall u: nat :: (u, n) in h.votes ==> u <= s.term
    requires Received(s, s', lead, lc, success, cur)
    ensures var h' := if success then RecordAck(h, t, n, cur) else h;
      && HistoryOK(m, h') && Grows(h, h') && h'.votes == h.votes && h'.elections == h.elections
      && (forall u: nat :: (u, n) in h'.acks ==> (u, n) in h.acks || u == t)
      && (success ==> (t, n) in h'.acks && cur <= h'.acks[(t, n)])
  {
    hide HistoryOK, KeepsShared, WindowOK, Slides;
    GrowsReflexive(h);
    if success {
      RecordAckOK(m, h, t, n, cur);
      hide Grows;
    }
  }

  lemma ReceiverLocal(m: set<NodeId>, n: NodeId, s: Server, s': Server, src: NodeId, t: nat, lead: seq<Entry>, lc: nat, success: bool, cur: nat)
    requires LocalOK(m, n, s) && Follows(s, s', src, t) && Received(s, s', lead, lc, success, cur) && s.log[..s.commit] <= s'.log
    ensures LocalOK(m, n, s') && s'.term == t && s'.commit <= |s'.log|
  {
    hide DistinctIds, Ids, KeepsShared, Shared, Slides;
    assert s.log[..s.applied] == s.log[..s.commit][..s.applied] == s'.log[..s.applied];
  }

  lemma NotActing(h: History, n: NodeId, s: Server)
    requires s.role == Follower
    ensures CandidateOK(h, n, s) && LeaderOK(h, n, s)
  {
  }

  // ----- Applying -----

  /** One application hands over the next committed entry. */
  lemma ApplyServer(m: set<NodeId>, h: History, n: NodeId, s: Server, shutdown: bool)
    requires ServerOK(m, h, n, s)
    ensures ServerOK(m, h, n, ApplyEntry(s, shutdown).server)
  {
    var s' := ApplyEntry(s, shutdown).server;
    if s' != s {
      assert s'.fed == HandedOver(s.log[..s.applied + 1]);
    }
    assert forall p :: p in s.peers && p.id != n && s.role == Leader ==> ProgressOK(h, s, p) && ProgressOK(h, s', p);
  }

  lemma {:induction false} ApplyAllServer(m: set<NodeId>, h: History, n: NodeId, s: Server, quota: nat)
    requires ServerOK(m, h, n, s)
    ensures ServerOK(m, h, n, ApplyAll(s, quota).server)
    ensures Slides(s, ApplyAll(s, quota).server) && ApplyAll(s, quota).server.gone == s.gone
    ensures ApplyAll(s, quota).out == [] && ApplyAll(s, quota).server.commit == s.commit && ApplyAll(s, quota).server.term == s.term
    ensures s.applied <= ApplyAll(s, quota).server.applied
    decreases s.commit - s.applied
  {
    hide ServerOK;
    if s.applied < s.commit {
      ApplyServer(m, h, n, s, quota == 0);
      var e := ApplyEntry(s, quota == 0);
      if e.err == 0 {
        ApplyAllServer(m, h, n, e.server, quota - 1);
      }
    }
  }
}
