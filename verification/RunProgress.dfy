/** In every reachable state the servers can make progress: a leader can repair the log of any peer
    that is not ahead of its term, and a candidate can win the votes of a willing majority. */
module RunProgress {
  import opened RaftTypes
  import opened Peers
  import opened Handlers
  import opened RaftCluster
  import opened HandlerLaws
  import opened AppendLaws
  import opened Outcomes
  import opened Quorum
  import opened History
  import opened HistorySteps
  import opened Invariant
  import opened ElectionSteps
  import opened ClusterSteps
  import opened Safety
  import opened Progress

  lemma LogsMatchHere(m: set<NodeId>, h: History, a: NodeId, s: Server, b: NodeId, u: Server)
    requires HistoryOK(m, h) && ServerOK(m, h, a, s) && ServerOK(m, h, b, u)
    ensures LogsMatch(u.log, s.log) && WindowOK(u) && s.id == a && u.id == b
  {
    forall i | 0 <= i < |u.log| && i < |s.log| ensures AgreeThrough(u.log, s.log, i) {
      if u.log[i].term == s.log[i].term {
        SameTermSamePrefix(h, u.log, s.log, i);
      }
    }
  }

  lemma CommittedInLeader(m: set<NodeId>, h: History, a: NodeId, s: Server, b: NodeId, u: Server)
    requires HistoryOK(m, h) && ServerOK(m, h, a, s) && ServerOK(m, h, b, u) && s.role == Leader && u.term <= s.term
    ensures u.commit <= |u.log| && u.log[..u.commit] <= s.log
  {
    SettledGrows(m, h, h, u.term, s.term, u.log[..u.commit]) by { assert Grows(h, h); }
    SettledInLeader(m, h, s.term, u.log[..u.commit]);
  }

  lemma LeaderTracks(m: set<NodeId>, h: History, a: NodeId, s: Server, b: NodeId)
    requires ServerOK(m, h, a, s) && s.role == Leader && b in m && b != a
    ensures Tracks(s, b)
    ensures var p := Find(s.peers, b).value; 0 < p.matchIdx ==> (s.term, b) in h.acks && p.matchIdx <= h.acks[(s.term, b)]
  {
    AllVote(m, a, s);
    var p := Find(s.peers, b).value;
    assert ProgressOK(h, s, p);
  }

  /** What leader and peer have in common, and list, is enough to repair the peer. */
  predicate CommonBase(s: Server, u: Server, b: NodeId, base: nat) {
    && Find(s.peers, b).Some? && base < Find(s.peers, b).value.nextIdx
    && base <= |u.log| && base <= |s.log| && u.log[..base] == s.log[..base]
    && ListsFrom(s, base) && ListsFrom(u, base)
  }

  lemma PairRepairable(m: set<NodeId>, h: History, a: NodeId, s: Server, b: NodeId, u: Server, base: nat)
    requires HistoryOK(m, h) && ServerOK(m, h, a, s) && ServerOK(m, h, b, u) && a != b
    requires s.role == Leader && u.term <= s.term && b in m && CommonBase(s, u, b, base)
    ensures Repairable(s, u, base)
  {
    hide HistoryOK, ServerOK, Tracks, LogsMatch, WindowOK;
    LogsMatchHere(m, h, a, s, b, u);
    CommittedInLeader(m, h, a, s, b, u);
    LeaderTracks(m, h, a, s, b);
    var p := Find(s.peers, b).value;
    if 0 < p.matchIdx {
      AckedPeerAgrees(m, h, a, s, b, u, p.matchIdx);
    }
  }

  lemma Present(m: set<NodeId>, c: Cluster, h: History, n: NodeId)
    requires Inv(m, c, h) && n in c.servers
    ensures HistoryOK(m, h) && ServerOK(m, h, n, c.servers[n]) && c.servers[n].id == n && n in m
    ensures WindowOK(c.servers[n])
  {
    assert ServerOK(m, h, n, c.servers[n]);
  }

  // ----- Runs that go on -----

  lemma Extend(m: set<NodeId>, run: seq<Cluster>, ev: Event)
    requires IsRun(m, run) && Possible(run[|run| - 1], ev) && AssertsHold(run[|run| - 1], ev)
    requires SendsBacked(Outcome(run[|run| - 1], ev).0, Outcome(run[|run| - 1], ev).1)
    ensures IsRun(m, run + [After(run[|run| - 1], ev)])
  {
    hide Initial, Enabled, ListSuffices, AssertsHold, Outcome, After, SendsBacked;
    var c := run[|run| - 1];
    var run' := run + [After(c, ev)];
    assert StepBy(c, ev, After(c, ev));
    forall i | 0 <= i < |run'| - 1 ensures Next(run'[i], run'[i + 1]) {
      assert i < |run| - 1 ==> Next(run[i], run[i + 1]);
    }
  }

  /** In the step, `log_pop` answers `pop` on server `b`. */
  ghost predicate NextWith(c: Cluster, c': Cluster, b: NodeId, pop: int) {
    exists ev :: StepBy(c, ev, c') && Answers(ev, b, pop)
  }

  predicate Answers(ev: Event, b: NodeId, pop: int) {
    ev.Deliver? && ev.p.dst == b ==> ev.pop == pop
  }

  /** The run goes on to `run'`, with `log_pop` answering `pop` on server `b` all the while. */
  ghost predicate GoesOn(m: set<NodeId>, run: seq<Cluster>, run': seq<Cluster>, b: NodeId, pop: int)
    ensures GoesOn(m, run, run', b, pop) ==> IsRun(m, run) && IsRun(m, run') && run <= run'
  {
    && IsRun(m, run) && IsRun(m, run') && run <= run'
    && forall k: nat :: |run| - 1 <= k < |run'| - 1 ==> NextWith(run'[k], run'[k + 1], b, pop)
  }

  lemma GoesOnBy(m: set<NodeId>, run: seq<Cluster>, ev: Event, b: NodeId, pop: int)
    requires IsRun(m, run) && Possible(run[|run| - 1], ev) && AssertsHold(run[|run| - 1], ev) && Answers(ev, b, pop)
    requires SendsBacked(Outcome(run[|run| - 1], ev).0, Outcome(run[|run| - 1], ev).1)
    ensures GoesOn(m, run, run + [After(run[|run| - 1], ev)], b, pop)
  {
    hide IsRun, Enabled, ListSuffices, AssertsHold, Outcome, After, SendsBacked, Answers;
    Extend(m, run, ev);
    var c := run[|run| - 1];
    assert NextWith(c, After(c, ev), b, pop) by { assert StepBy(c, ev, After(c, ev)); }
    hide NextWith;
  }

  lemma GoesFurther(m: set<NodeId>, run: seq<Cluster>, run1: seq<Cluster>, run2: seq<Cluster>, b: NodeId, pop: int)
    requires GoesOn(m, run, run1, b, pop) && GoesOn(m, run1, run2, b, pop)
    ensures GoesOn(m, run, run2, b, pop)
  {
    hide IsRun, NextWith;
    forall k: nat | |run| - 1 <= k < |run2| - 1 ensures NextWith(run2[k], run2[k + 1], b, pop) {
      if k < |run1| - 1 {
        assert NextWith(run1[k], run1[k + 1], b, pop);
      }
    }
  }

  /** A leader, a peer that it can repair, and the message it has for that peer under way. */
  ghost predicate Underway(c: Cluster, a: NodeId, b: NodeId, base: nat)
    ensures Underway(c, a, b, base) ==> a in c.servers && b in c.servers
  {
    && a in c.servers && b in c.servers && c.servers[a].id == a && c.servers[b].id == b
    && Repairable(c.servers[a], c.servers[b], base)
    && Packet(a, b, AppendFor(c.servers[a], Find(c.servers[a].peers, b).value)) in c.net
  }

  lemma WholeChain(s: Server, u: Server, base: nat)
    requires Repairable(s, u, base)
    ensures Find(s.peers, u.id).Some? && 1 <= Find(s.peers, u.id).value.nextIdx
    ensures var msg := AppendFor(s, Find(s.peers, u.id).value);
      msg.AppendEntries? && Cut(msg, |msg.entries|) == msg && NoNullRead(u, msg) && Anchored(u, msg)
  {
    HeardCompatible(s, u, base);
    hide NoNullRead, Repairable;
  }

  /** The message arrives. */
  lemma MessageArrives(m: set<NodeId>, run: seq<Cluster>, a: NodeId, b: NodeId, base: nat, pop: int) returns (c': Cluster)
    requires IsRun(m, run) && Underway(run[|run| - 1], a, b, base)
    ensures GoesOn(m, run, run + [c'], b, pop)
    ensures var c := run[|run| - 1];
      var h := Heard(c.servers[a], c.servers[b], pop, 0);
      c' == Cluster(c.servers[b := h.server], c.net + {Packet(b, a, h.reply)}) && h.reply.AppendReply?
  {
    hide *;
    var c := run[|run| - 1];
    var ev := MessagePossible(c, a, b, base, pop);
    NoAssertionFails(m, run, |run| - 1, ev);
    AppendOutcome(c, ev);
    GoesOnBy(m, run, ev, b, pop);
    c' := After(c, ev);
  }

  lemma MessagePossible(c: Cluster, a: NodeId, b: NodeId, base: nat, pop: int) returns (ev: Event)
    requires Underway(c, a, b, base)
    ensures Possible(c, ev) && Enabled(c, ev) && ev.Deliver? && ev.p.msg.AppendEntries? && ev.p.src == a && ev.p.dst == b
    ensures Answers(ev, b, pop) && Find(c.servers[a].peers, c.servers[b].id).Some?
    ensures 1 <= Find(c.servers[a].peers, c.servers[b].id).value.nextIdx
    ensures ev.chain <= |ev.p.msg.entries|
    ensures RecvAppendEntries(c.servers[b], a, Cut(ev.p.msg, ev.chain), ev.pop, ev.rnd) == Heard(c.servers[a], c.servers[b], pop, 0)
    ensures Heard(c.servers[a], c.servers[b], pop, 0).reply.AppendReply?
  {
    hide *;
    var s, u := c.servers[a], c.servers[b];
    UnderwayParts(c, a, b, base);
    WholeChain(s, u, base);
    HeardReply(s, u, base, pop);
    ev := DeliveryPossible(c, a, b, AppendFor(s, Find(s.peers, b).value), pop);
    HeardRuns(s, u, pop, 0);
  }

  lemma UnderwayParts(c: Cluster, a: NodeId, b: NodeId, base: nat)
    requires Underway(c, a, b, base)
    ensures var s := c.servers[a];
      && Repairable(s, c.servers[b], base) && c.servers[b].id == b && s.id == a
      && Find(s.peers, b).Some? && 1 <= Find(s.peers, b).value.nextIdx
      && Packet(a, b, AppendFor(s, Find(s.peers, b).value)) in c.net
  {
    hide Trails, DistinctIds, NextPositive, ListsFrom, AppendFor;
  }

  lemma HeardReply(s: Server, u: Server, base: nat, pop: int)
    requires Repairable(s, u, base)
    ensures Find(s.peers, u.id).Some? && 1 <= Find(s.peers, u.id).value.nextIdx && Heard(s, u, pop, 0).reply.AppendReply?
  {
    hide Heard, GoesIn, AnswersYes, AnswersNo, AnswersStuck, Trails, DistinctIds, NextPositive, ListsFrom;
    HeardAnswer(s, u, base, pop, 0);
  }

  /** A message that is under way, with its whole chain, can be delivered. */
  lemma DeliveryPossible(c: Cluster, a: NodeId, b: NodeId, msg: Message, pop: int) returns (ev: Event)
    requires b in c.servers && Packet(a, b, msg) in c.net && msg.AppendEntries?
    requires Cut(msg, |msg.entries|) == msg && NoNullRead(c.servers[b], msg) && Anchored(c.servers[b], msg)
    ensures ev == Deliver(Packet(a, b, msg), |msg.entries|, pop, false, 0)
    ensures Possible(c, ev) && Enabled(c, ev) && Answers(ev, b, pop)
  {
    hide NoNullRead, Anchored;
    ev := Deliver(Packet(a, b, msg), |msg.entries|, pop, false, 0);
  }

  lemma AppendOutcome(c: Cluster, ev: Event)
    requires Possible(c, ev) && AssertsHold(c, ev) && ev.Deliver? && ev.p.msg.AppendEntries?
    ensures var a := RecvAppendEntries(c.servers[ev.p.dst], ev.p.src, Cut(ev.p.msg, ev.chain), ev.pop, ev.rnd);
      && Outcome(c, ev) == (a.server, {Packet(ev.p.dst, ev.p.src, a.reply)})
      && After(c, ev) == Cluster(c.servers[ev.p.dst := a.server], c.net + {Packet(ev.p.dst, ev.p.src, a.reply)})
      && (a.reply.AppendReply? ==> SendsBacked(Outcome(c, ev).0, Outcome(c, ev).1))
  {
    hide RecvAppendEntries, AppendEntriesAsserts, NoNullRead, Anchored;
  }

  /** The answer arrives back at the leader, which has the entries it needs for what it does then. */
  lemma AnswerArrives(m: set<NodeId>, run: seq<Cluster>, a: NodeId, b: NodeId, r: Message, pop: int) returns (c': Cluster)
    requires IsRun(m, run) && a in run[|run| - 1].servers && Packet(b, a, r) in run[|run| - 1].net && r.AppendReply? && a != b
    requires ReplyRuns(run[|run| - 1].servers[a], b, r)
    ensures GoesOn(m, run, run + [c'], b, pop)
    ensures var c := run[|run| - 1];
      var e := RecvAppendReply(c.servers[a], b, r, false, 0);
      c' == Cluster(c.servers[a := e.server], c.net + set q | q in e.out)
  {
    hide *;
    var c := run[|run| - 1];
    var ev := AnswerPossible(c, a, b, r, pop);
    NoAssertionFails(m, run, |run| - 1, ev);
    ReplyOutcome(c, ev);
    GoesOnBy(m, run, ev, b, pop);
    c' := After(c, ev);
  }

  ghost predicate ReplyRuns(s: Server, b: NodeId, r: Message)
    ensures ReplyRuns(s, b, r) ==> r.AppendReply? && NextPositive(s.peers) && AppendReplyAsserts(s, b, r)
  {
    && r.AppendReply? && NextPositive(s.peers) && AppendReplyAsserts(s, b, r) && QuorumReads(s, b, r)
    && var e := RecvAppendReply(s, b, r, false, 0); SendsBacked(e.server, set q | q in e.out)
  }

  lemma AnswerPossible(c: Cluster, a: NodeId, b: NodeId, r: Message, pop: int) returns (ev: Event)
    requires a in c.servers && a != b && Packet(b, a, r) in c.net && ReplyRuns(c.servers[a], b, r)
    ensures Possible(c, ev) && Enabled(c, ev) && Answers(ev, b, pop) && ev == Deliver(Packet(b, a, r), 0, 0, false, 0)
    ensures var e := RecvAppendReply(c.servers[a], b, r, false, 0); SendsBacked(e.server, set q | q in e.out)
  {
    hide RecvAppendReply, SendsBacked, AppendReplyAsserts;
    ev := Deliver(Packet(b, a, r), 0, 0, false, 0);
  }

  lemma ReplyOutcome(c: Cluster, ev: Event)
    requires Possible(c, ev) && AssertsHold(c, ev) && ev.Deliver? && ev.p.msg.AppendReply?
    ensures NextPositive(c.servers[ev.p.dst].peers) && AppendReplyAsserts(c.servers[ev.p.dst], ev.p.src, ev.p.msg)
    ensures var e := RecvAppendReply(c.servers[ev.p.dst], ev.p.src, ev.p.msg, ev.ready, ev.rnd);
      && Outcome(c, ev) == (e.server, set q | q in e.out)
      && After(c, ev) == Cluster(c.servers[ev.p.dst := e.server], c.net + set q | q in e.out)
      && e.server.log == c.servers[ev.p.dst].log && e.server.capacity == c.servers[ev.p.dst].capacity
  {
    hide AppendReplyAsserts, QuorumReads, BackOff, Acknowledged, AppendFor, Replace;
  }

  /** The peer's answer finds the entries it needs listed at the leader. */
  lemma AnswerRuns(s: Server, u: Server, base: nat, pop: int)
    requires Repairable(s, u, base)
    ensures ReplyRuns(s, u.id, Heard(s, u, pop, 0).reply)
  {
    HeardAnswer(s, u, base, pop, 0);
    HeardAsserts(s, u, base, pop, 0);
    hide Heard, Trails, GoesIn, DistinctIds;
    var r := Heard(s, u, pop, 0).reply;
    if r.success {
      SuccessBacked(s, u.id, r, base);
    } else {
      FailureBacked(s, u.id, r, base);
    }
  }

  lemma SuccessBacked(s: Server, b: NodeId, r: Message, base: nat)
    requires Tracks(s, b) && ListsFrom(s, base) && r.AppendReply? && r.success && r.term == s.term && AppendReplyAsserts(s, b, r)
    requires base <= r.currentIdx <= |s.log|
    ensures QuorumReads(s, b, r)
    ensures var e := RecvAppendReply(s, b, r, false, 0); SendsBacked(e.server, set q | q in e.out)
  {
    var p := Find(s.peers, b).value;
    if p.matchIdx < r.currentIdx {
      AcknowledgedPeer(s, p, r, false);
      CommitAdvances(s.(peers := Replace(s.peers, Acknowledged(s, p, r, false))), r.currentIdx);
      hide Replace, Acknowledged, AdvanceCommit, DistinctIds, Find;
    }
  }

  lemma FailureBacked(s: Server, b: NodeId, r: Message, base: nat)
    requires Tracks(s, b) && ListsFrom(s, base) && r.AppendReply? && !r.success && r.term == s.term && AppendReplyAsserts(s, b, r)
    requires var p := Find(s.peers, b).value; p.matchIdx != p.nextIdx - 1 && base < p.nextIdx - 1 && base <= r.currentIdx
    ensures QuorumReads(s, b, r)
    ensures var e := RecvAppendReply(s, b, r, false, 0); SendsBacked(e.server, set q | q in e.out)
  {
    var p := Find(s.peers, b).value;
    FailureReply(s, b, r, false, 0);
    LowerNext(s, p, r, base);
    hide RecvAppendReply, AppendReplyAsserts, BackOff, Replace, DistinctIds, Find;
  }

  /** Only `a` and `b` have changed, and of its peers the leader `a` knows of `b` alone something new. */
  ghost predicate Apart(c: Cluster, c': Cluster, a: NodeId, b: NodeId) {
    && a in c.servers && a in c'.servers && NextPositive(c'.servers[a].peers)
    && c'.servers[a].log == c.servers[a].log && c'.servers[a].gone == c.servers[a].gone && c'.servers[a].term == c.servers[a].term
    && (forall x :: x != b ==> Find(c'.servers[a].peers, x) == Find(c.servers[a].peers, x))
    && (forall n :: n in c.servers && n != a && n != b ==> n in c'.servers && c'.servers[n] == c.servers[n])
  }

  lemma ApartFurther(c: Cluster, c1: Cluster, c2: Cluster, a: NodeId, b: NodeId)
    requires Apart(c, c1, a, b) && Apart(c1, c2, a, b)
    ensures Apart(c, c2, a, b)
  {
    hide NextPositive, Find;
  }

  lemma {:induction false} FindOthers(ps: seq<Peer>, q: Peer, qs: seq<Peer>, x: NodeId)
    requires OnlyChanged(ps, q.id, q, qs) && x != q.id
    ensures Find(qs, x) == Find(ps, x)
  {
    if ps != [] {
      assert OnlyChanged(ps[1..], q.id, q, qs[1..]);
      FindOthers(ps[1..], q, qs[1..], x);
    }
  }

  /** What a leader makes of a reply of its term leaves its log and the other peers alone. */
  lemma ReplyApart(s: Server, b: NodeId, r: Message)
    requires r.AppendReply? && NextPositive(s.peers) && AppendReplyAsserts(s, b, r) && s.role == Leader && r.term == s.term
    ensures var s' := RecvAppendReply(s, b, r, false, 0).server;
      && s'.log == s.log && s'.gone == s.gone && s'.term == s.term && NextPositive(s'.peers)
      && forall x :: x != b ==> Find(s'.peers, x) == Find(s.peers, x)
  {
    hide *;
    KnownSender(s, b, r);
    var p := Find(s.peers, b).value;
    if if r.success then r.currentIdx <= p.matchIdx else p.matchIdx == p.nextIdx - 1 {
      ReplyWithoutNews(s, b, r, false, 0);
    } else if r.success {
      SuccessCounts(s, b, r, false, 0);
      OthersFound(s.peers, b, p.(nextIdx := r.currentIdx + 1, matchIdx := r.currentIdx,
                                 sufficientLogs := p.sufficientLogs || false), RecvAppendReply(s, b, r, false, 0).server.peers);
    } else {
      FailureBacksOff(s, b, r, false, 0);
      var next := if r.currentIdx < p.nextIdx - 1 then Max(1, Min(r.currentIdx + 1, |s.log|)) else Max(1, p.nextIdx - 1);
      AtLeastOne(Min(r.currentIdx + 1, |s.log|), p.nextIdx - 1);
      OthersFound(s.peers, b, p.(nextIdx := next), RecvAppendReply(s, b, r, false, 0).server.peers);
    }
  }

  lemma AtLeastOne(x: nat, y: nat)
    ensures 1 <= Max(1, x) && 1 <= Max(1, y)
  {
  }

  lemma OthersFound(ps: seq<Peer>, b: NodeId, q: Peer, qs: seq<Peer>)
    requires OnlyChanged(ps, b, q, qs) && q.id == b && NextPositive(ps) && 1 <= q.nextIdx
    ensures NextPositive(qs) && forall x :: x != b ==> Find(qs, x) == Find(ps, x)
  {
    forall x | x != b ensures Find(qs, x) == Find(ps, x) {
      FindOthers(ps, q, qs, x);
    }
  }

  lemma ExchangeApart(c: Cluster, a: NodeId, b: NodeId, base: nat, pop: int, c1: Cluster, c2: Cluster)
    requires Underway(c, a, b, base)
    requires var h := Heard(c.servers[a], c.servers[b], pop, 0);
      h.reply.AppendReply? && c1 == Cluster(c.servers[b := h.server], c.net + {Packet(b, a, h.reply)})
    requires NextPositive(c.servers[a].peers) && a != b
    requires AppendReplyAsserts(c.servers[a], b, Heard(c.servers[a], c.servers[b], pop, 0).reply)
    requires var e := RecvAppendReply(c.servers[a], b, Heard(c.servers[a], c.servers[b], pop, 0).reply, false, 0);
      c2 == Cluster(c1.servers[a := e.server], c1.net + set q | q in e.out)
    ensures Apart(c, c2, a, b)
  {
    var s, u := c.servers[a], c.servers[b];
    HeardTerm(s, u, base, pop);
    hide Underway, Heard, RecvAppendReply, AppendReplyAsserts, NextPositive, Find;
    ReplyApart(s, b, Heard(s, u, pop, 0).reply);
  }

  lemma HeardTerm(s: Server, u: Server, base: nat, pop: int)
    requires Repairable(s, u, base)
    ensures s.role == Leader && Heard(s, u, pop, 0).reply.AppendReply? && Heard(s, u, pop, 0).reply.term == s.term
  {
    HeardAnswer(s, u, base, pop, 0);
    hide Heard, GoesIn, AnswersYes, AnswersNo, AnswersStuck, Trails, DistinctIds, NextPositive, ListsFrom;
  }

  /** One exchange as two more steps of the run. If it was refused, the next message is under way. */
  lemma ExchangeInRun(m: set<NodeId>, run: seq<Cluster>, a: NodeId, b: NodeId, base: nat, pop: int) returns (run': seq<Cluster>)
    requires IsRun(m, run) && Underway(run[|run| - 1], a, b, base)
    ensures GoesOn(m, run, run', b, pop) && |run'| == |run| + 2
    ensures var c, c' := run[|run| - 1], run'[|run'| - 1];
      && a in c'.servers && b in c'.servers
      && var s, u, s', u' := c.servers[a], c.servers[b], c'.servers[a], c'.servers[b];
      && Exchange(s, u, pop, false, 0, s', u')
      && Heard(s, u, pop, 0).reply.AppendReply?
      && (!Heard(s, u, pop, 0).reply.success ==> Underway(c', a, b, base))
      && Apart(c, c', a, b)
  {
    hide *;
    var c := run[|run| - 1];
    UnderwayServers(c, a, b, base, pop);
    var c1 := MessageArrives(m, run, a, b, base, pop);
    var r := Heard(c.servers[a], c.servers[b], pop, 0).reply;
    var c2 := AnswerArrives(m, run + [c1], a, b, r, pop);
    run' := run + [c1] + [c2];
    GoesFurther(m, run, run + [c1], run', b, pop);
    Exchanged(c, a, b, base, pop, c1, c2);
    ExchangeApart(c, a, b, base, pop, c1, c2);
  }

  lemma UnderwayServers(c: Cluster, a: NodeId, b: NodeId, base: nat, pop: int)
    requires Underway(c, a, b, base)
    ensures a != b && ReplyRuns(c.servers[a], b, Heard(c.servers[a], c.servers[b], pop, 0).reply)
    ensures Find(c.servers[a].peers, c.servers[b].id).Some? && 1 <= Find(c.servers[a].peers, c.servers[b].id).value.nextIdx
  {
    AnswerRuns(c.servers[a], c.servers[b], base, pop);
    hide Heard, ReplyRuns, Trails, DistinctIds;
  }

  lemma Exchanged(c: Cluster, a: NodeId, b: NodeId, base: nat, pop: int, c1: Cluster, c2: Cluster)
    requires Underway(c, a, b, base)
    requires var h := Heard(c.servers[a], c.servers[b], pop, 0);
      h.reply.AppendReply? && c1 == Cluster(c.servers[b := h.server], c.net + {Packet(b, a, h.reply)})
    requires NextPositive(c.servers[a].peers)
    requires AppendReplyAsserts(c.servers[a], b, Heard(c.servers[a], c.servers[b], pop, 0).reply)
    requires var e := RecvAppendReply(c.servers[a], b, Heard(c.servers[a], c.servers[b], pop, 0).reply, false, 0);
      c2 == Cluster(c1.servers[a := e.server], c1.net + set q | q in e.out)
    ensures a in c2.servers && b in c2.servers
    ensures Exchange(c.servers[a], c.servers[b], pop, false, 0, c2.servers[a], c2.servers[b])
    ensures !Heard(c.servers[a], c.servers[b], pop, 0).reply.success ==> Underway(c2, a, b, base)
  {
    var s, u := c.servers[a], c.servers[b];
    var s', u' := c2.servers[a], c2.servers[b];
    hide Heard, RecvAppendReply, AppendReplyAsserts, AppendFor;
    assert Exchange(s, u, pop, false, 0, s', u') by { hide Trails, DistinctIds; }
    if !Heard(s, u, pop, 0).reply.success {
      hide Exchange, Repairable;
      RefusedExchange(s, u, base, pop, false, 0, s', u');
      RetrySent(s, u, base, pop, s', u');
    }
  }

  /** After a refusal the leader sends the message for the lowered next index. */
  lemma RetrySent(s: Server, u: Server, base: nat, pop: int, s': Server, u': Server)
    requires Repairable(s, u, base) && Exchange(s, u, pop, false, 0, s', u') && !Heard(s, u, pop, 0).reply.success
    ensures Find(s'.peers, u.id).Some? && 1 <= Find(s'.peers, u.id).value.nextIdx
    ensures Packet(s.id, u.id, AppendFor(s', Find(s'.peers, u.id).value))
      in RecvAppendReply(s, u.id, Heard(s, u, pop, 0).reply, false, 0).out
  {
    hide Heard, RecvAppendReply, AppendReplyAsserts, AppendFor, LogsMatch, Replace, DistinctIds, GoesIn;
    HeardAnswer(s, u, base, pop, 0);
    var r := Heard(s, u, pop, 0).reply;
    var p := Find(s.peers, u.id).value;
    FailureReply(s, u.id, r, false, 0);
    LowerNext(s, p, r, base);
    FindReplacement(s.peers, p, BackOff(s, p, r));
  }

  /** The repair ends with an accepted exchange. */
  lemma {:induction false} RepairInRun(m: set<NodeId>, run: seq<Cluster>, a: NodeId, b: NodeId, base: nat, pop: int)
    returns (run': seq<Cluster>)
    requires IsRun(m, run) && Underway(run[|run| - 1], a, b, base)
    requires GoesIn(run[|run| - 1].servers[a], run[|run| - 1].servers[b], pop)
    ensures GoesOn(m, run, run', b, pop) && |run'| <= |run| + 2 * Rounds(run[|run| - 1], a, b)
    ensures var c, c' := run[|run| - 1], run'[|run'| - 1];
      && a in c'.servers && b in c'.servers
      && Repaired(c.servers[a], c.servers[b], c'.servers[a], c'.servers[b]) && Apart(c, c', a, b)
    decreases NextOf(run[|run| - 1], a, b)
  {
    hide *;
    var c := run[|run| - 1];
    var run1 := ExchangeInRun(m, run, a, b, base, pop);
    var c1 := run1[|run1| - 1];
    UnderwayServers(c, a, b, base, pop);
    ExchangeResult(c, a, b, base, pop, c1);
    if Heard(c.servers[a], c.servers[b], pop, 0).reply.success {
      run' := run1;
    } else {
      run' := RepairInRun(m, run1, a, b, base, pop);
      GoesFurther(m, run, run1, run', b, pop);
      ApartFurther(c, c1, run'[|run'| - 1], a, b);
      RepairedLater(c.servers[a], c.servers[b], c1.servers[a], c1.servers[b], run'[|run'| - 1].servers[a], run'[|run'| - 1].servers[b]);
    }
  }

  function NextOf(c: Cluster, a: NodeId, b: NodeId): nat
    requires a in c.servers
  {
    var p := Find(c.servers[a].peers, b);
    if p.Some? then p.value.nextIdx else 0
  }

  /** How many exchanges a repair takes at most: the peer's next index, or two more than its log is long. */
  function Rounds(c: Cluster, a: NodeId, b: NodeId): nat
    requires a in c.servers && b in c.servers
  {
    Min(NextOf(c, a, b), |c.servers[b].log| + 2)
  }

  lemma ExchangeResult(c: Cluster, a: NodeId, b: NodeId, base: nat, pop: int, c': Cluster)
    requires Underway(c, a, b, base) && a in c'.servers && b in c'.servers
    requires Exchange(c.servers[a], c.servers[b], pop, false, 0, c'.servers[a], c'.servers[b])
    requires Heard(c.servers[a], c.servers[b], pop, 0).reply.AppendReply? && GoesIn(c.servers[a], c.servers[b], pop)
    ensures 1 <= Rounds(c, a, b)
    ensures var s, u, s', u' := c.servers[a], c.servers[b], c'.servers[a], c'.servers[b];
      && (Heard(s, u, pop, 0).reply.success ==> Repaired(s, u, s', u'))
      && (!Heard(s, u, pop, 0).reply.success ==>
            && GoesIn(s', u', pop) && NextOf(c', a, b) < NextOf(c, a, b) && Rounds(c', a, b) < Rounds(c, a, b)
            && s'.log == s.log && s'.term == s.term && s'.commit == s.commit && s'.id == s.id && u'.id == u.id)
  {
    hide Heard, Exchange, GoesIn, Trails, DistinctIds, NextPositive;
    var s, u, s', u' := c.servers[a], c.servers[b], c'.servers[a], c'.servers[b];
    if Heard(s, u, pop, 0).reply.success {
      AcceptedExchange(s, u, base, pop, false, 0, s', u');
    } else {
      RefusedExchange(s, u, base, pop, false, 0, s', u');
      ShorterGoesIn(s, u, s', u', pop);
    }
  }

  lemma RepairedLater(s: Server, u: Server, s1: Server, u1: Server, s': Server, u': Server)
    requires Repaired(s1, u1, s', u') && s1.log == s.log && s1.term == s.term && s1.commit == s.commit
    requires s1.id == s.id && u1.id == u.id
    ensures Repaired(s, u, s', u')
  {
  }

  lemma {:induction false} LetterSent(s: Server, ps: seq<Peer>, w: Wave, p: Peer)
    requires NextPositive(ps) && p in ps && Addressed(s, p, w)
    ensures 1 <= p.nextIdx && Letter(s, p, w) in Broadcast(s, ps, w)
  {
    var k := |ps| - 1;
    if ps[k] != p {
      LetterSent(s, ps[..k], w, p);
    }
  }

  /** A leader whose heartbeat is due sends to every peer; it may apply an entry besides. */
  lemma HeartbeatDue(m: set<NodeId>, a: NodeId, s: Server, b: NodeId)
    requires 2 <= |m| && LocalOK(m, a, s) && s.role == Leader && b in m && b != a && NextPositive(s.peers)
    ensures Find(s.peers, b).Some? && 1 <= Find(s.peers, b).value.nextIdx
    ensures var e := Periodic(s, s.requestTimeout, 0, false);
      && e.server == s.(elapsed := 0, applied := e.server.applied, fed := e.server.fed)
      && Packet(a, b, AppendFor(e.server, Find(s.peers, b).value)) in e.out
  {
    HeartbeatOut(m, a, s);
    var s1 := s.(elapsed := 0);
    var p := Find(s.peers, b).value;
    LetterSent(s1, s.peers, Heartbeat, p);
    hide Periodic, Broadcast;
    assert Letter(s1, p, Heartbeat) == Packet(a, b, AppendFor(Periodic(s, s.requestTimeout, 0, false).server, p));
  }

  lemma TimeOutcome(c: Cluster, ev: Event)
    requires Possible(c, ev) && AssertsHold(c, ev) && ev.PeriodicAt?
    ensures NextPositive(c.servers[ev.n].peers)
    ensures var e := Periodic(c.servers[ev.n], ev.msec, ev.rnd, ev.shutdown);
      && Outcome(c, ev) == (e.server, set q | q in e.out)
      && After(c, ev) == Cluster(c.servers[ev.n := e.server], c.net + set q | q in e.out)
  {
    hide Periodic;
  }

  lemma AcceptedFields(s: Server, s': Server, u: Server, base: nat)
    requires Repairable(s, u, base) && s' == s.(elapsed := 0, applied := s'.applied, fed := s'.fed)
    ensures Repairable(s', u, base)
  {
    hide LogsMatch, DistinctIds;
  }

  lemma TimeRuns(m: set<NodeId>, run: seq<Cluster>, n: NodeId)
    requires IsRun(m, run) && n in run[|run| - 1].servers
    ensures var s := run[|run| - 1].servers[n];
      2 <= |m| && LocalOK(m, n, s) && NextPositive(s.peers) && s.id == n && |s.log| <= s.gone + s.capacity && n in m
  {
    hide *;
    var h := HistoryAt(m, run, |run| - 1);
    InvLocal(m, run[|run| - 1], h, n);
  }

  lemma InvLocal(m: set<NodeId>, c: Cluster, h: History, n: NodeId)
    requires Inv(m, c, h) && n in c.servers
    ensures var s := c.servers[n];
      2 <= |m| && LocalOK(m, n, s) && NextPositive(s.peers) && s.id == n && |s.log| <= s.gone + s.capacity && n in m
  {
    hide HistoryOK, PacketOK;
    Present(m, c, h, n);
    AllVote(m, n, c.servers[n]);
  }

  /** Time passes on one server, if what it then sends is backed. */
  lemma BackedTimeStep(m: set<NodeId>, run: seq<Cluster>, n: NodeId, msec: nat, rnd: nat, b: NodeId, pop: int)
    returns (c': Cluster)
    requires IsRun(m, run) && n in run[|run| - 1].servers && NextPositive(run[|run| - 1].servers[n].peers)
    requires var e := Periodic(run[|run| - 1].servers[n], msec, rnd, false); SendsBacked(e.server, set q | q in e.out)
    ensures GoesOn(m, run, run + [c'], b, pop)
    ensures var c := run[|run| - 1];
      var e := Periodic(c.servers[n], msec, rnd, false);
      c' == Cluster(c.servers[n := e.server], c.net + set q | q in e.out)
  {
    hide IsRun, Periodic, SendsBacked, NextPositive, AssertsHold;
    var c := run[|run| - 1];
    var ev := PeriodicAt(n, msec, rnd, false);
    NoAssertionFails(m, run, |run| - 1, ev);
    TimeOutcome(c, ev);
    GoesOnBy(m, run, ev, b, pop);
    c' := After(c, ev);
  }

  /** Every message the leader has for a peer now is built from entries it lists. */
  ghost predicate PeersInReach(s: Server)
    requires NextPositive(s.peers)
  {
    forall i :: 0 <= i < |s.peers| && s.peers[i].id != s.id ==> Backed(s, AppendFor(s, s.peers[i]))
  }

  lemma HeartbeatsBacked(m: set<NodeId>, a: NodeId, s: Server)
    requires 2 <= |m| && LocalOK(m, a, s) && s.role == Leader && NextPositive(s.peers) && PeersInReach(s)
    ensures var e := Periodic(s, s.requestTimeout, 0, false); SendsBacked(e.server, set q | q in e.out)
  {
    hide *;
    HeartbeatOut(m, a, s);
    var e := Periodic(s, s.requestTimeout, 0, false);
    forall q | q in e.out ensures Backed(e.server, q.msg) {
      HeartbeatBacked(s, e.server, q);
    }
    AllBacked(e.server, e.out);
  }

  lemma AllBacked(s: Server, out: seq<Packet>)
    requires forall q :: q in out ==> Backed(s, q.msg)
    ensures SendsBacked(s, set q | q in out)
  {
    hide Backed;
  }

  lemma HeartbeatBacked(s: Server, s': Server, q: Packet)
    requires NextPositive(s.peers) && PeersInReach(s) && s' == s.(elapsed := 0, applied := s'.applied, fed := s'.fed)
    requires q in Broadcast(s.(elapsed := 0), s.peers, Heartbeat)
    ensures Backed(s', q.msg)
  {
    hide Broadcast;
    var s1 := s.(elapsed := 0);
    BroadcastLetters(s1, s1.peers, Heartbeat, q);
    var p :| p in s1.peers && 1 <= p.nextIdx && Addressed(s1, p, Heartbeat) && q == Letter(s1, p, Heartbeat);
    SameLetter(s, s1, p);
    hide AppendFor, NextPositive;
    var i :| 0 <= i < |s.peers| && s.peers[i] == p;
    assert Backed(s, AppendFor(s, s.peers[i]));
  }

  lemma SameLetter(s: Server, s1: Server, p: Peer)
    requires s1 == s.(elapsed := 0) && 1 <= p.nextIdx
    ensures AppendFor(s1, p) == AppendFor(s, p)
  {
  }

  lemma HeartbeatOut(m: set<NodeId>, a: NodeId, s: Server)
    requires 2 <= |m| && LocalOK(m, a, s) && s.role == Leader && NextPositive(s.peers)
    ensures var e := Periodic(s, s.requestTimeout, 0, false);
      && e.server == s.(elapsed := 0, applied := e.server.applied, fed := e.server.fed)
      && e.out == Broadcast(s.(elapsed := 0), s.peers, Heartbeat)
  {
    hide Periodic, Broadcast, ApplyEntry;
    var s1 := s.(elapsed := 0);
    PeriodicParts(m, a, s, s.requestTimeout, 0, false);
    TimersBeat(s.(elapsed := s.elapsed + s.requestTimeout));
    ApplyKeepsRest(s1, false);
  }

  lemma TimersBeat(s: Server)
    requires s.role == Leader && s.requestTimeout <= s.elapsed && NextPositive(s.peers)
    ensures var s1 := s.(elapsed := 0); Timers(s, 0) == Effect(s1, Broadcast(s1, s1.peers, Heartbeat), 0)
  {
  }

  /** The leader's heartbeat falls due, and its message for the peer is under way. */
  lemma HeartbeatInRun(m: set<NodeId>, run: seq<Cluster>, a: NodeId, b: NodeId, base: nat, pop: int) returns (c': Cluster)
    requires IsRun(m, run) && a in run[|run| - 1].servers && b in run[|run| - 1].servers && a != b
    requires Repairable(run[|run| - 1].servers[a], run[|run| - 1].servers[b], base)
    requires NextPositive(run[|run| - 1].servers[a].peers) && PeersInReach(run[|run| - 1].servers[a])
    ensures GoesOn(m, run, run + [c'], b, pop) && Underway(c', a, b, base)
    ensures var c := run[|run| - 1]; var s' := c'.servers[a];
      && c'.servers == c.servers[a := s'] && s' == c.servers[a].(elapsed := 0, applied := s'.applied, fed := s'.fed)
  {
    hide *;
    var c := run[|run| - 1];
    TimeRuns(m, run, a);
    TimeRuns(m, run, b);
    RepairableLeads(c.servers[a], c.servers[b], base);
    HeartbeatsBacked(m, a, c.servers[a]);
    c' := BackedTimeStep(m, run, a, c.servers[a].requestTimeout, 0, b, pop);
    HeartbeatUnderway(m, c, a, b, base, c');
  }

  lemma HeartbeatUnderway(m: set<NodeId>, c: Cluster, a: NodeId, b: NodeId, base: nat, c': Cluster)
    requires 2 <= |m| && a in c.servers && b in c.servers && a != b && b in m
    requires LocalOK(m, a, c.servers[a]) && NextPositive(c.servers[a].peers) && c.servers[b].id == b
    requires Repairable(c.servers[a], c.servers[b], base)
    requires var e := Periodic(c.servers[a], c.servers[a].requestTimeout, 0, false);
      c' == Cluster(c.servers[a := e.server], c.net + set q | q in e.out)
    ensures Underway(c', a, b, base)
    ensures var s' := c'.servers[a];
      c'.servers == c.servers[a := s'] && s' == c.servers[a].(elapsed := 0, applied := s'.applied, fed := s'.fed)
  {
    var s, u := c.servers[a], c.servers[b];
    assert s.role == Leader && s.id == a;
    hide Periodic, AppendFor, Repairable, LogsMatch, DistinctIds;
    HeartbeatDue(m, a, s, b);
    AcceptedFields(s, c'.servers[a], u, base);
  }

  lemma RepairableLeads(s: Server, u: Server, base: nat)
    requires Repairable(s, u, base)
    ensures s.role == Leader
  {
  }

  /** What the repair needs at the end of a run: a leader, a peer whose term is not ahead, a common prefix
      that both list from its end on, and messages for all peers that the leader can build. */
  ghost predicate RepairPossible(m: set<NodeId>, run: seq<Cluster>, a: NodeId, b: NodeId, base: nat)
    ensures RepairPossible(m, run, a, b, base) ==> IsRun(m, run) && a in run[|run| - 1].servers && b in run[|run| - 1].servers
  {
    && IsRun(m, run) && a in run[|run| - 1].servers && b in run[|run| - 1].servers && a != b
    && var s, u := run[|run| - 1].servers[a], run[|run| - 1].servers[b];
    && s.role == Leader && u.term <= s.term && CommonBase(s, u, b, base)
    && NextPositive(s.peers) && PeersInReach(s)
  }

  /** Every run can go on so that its leader repairs a peer, if nothing conflicts or `log_pop` accepts: after
      a heartbeat and at most as many exchanges as the peer's next index, or two more than its log is long,
      the peer has the leader's whole log and commit index, and the leader knows. */
  lemma LeaderRepairsPeer(m: set<NodeId>, run: seq<Cluster>, a: NodeId, b: NodeId, base: nat, pop: int) returns (run': seq<Cluster>)
    requires RepairPossible(m, run, a, b, base)
    requires pop == 0 || !Conflict(run[|run| - 1].servers[b].log, run[|run| - 1].servers[a].log)
    ensures GoesOn(m, run, run', b, pop) && |run'| <= |run| + 1 + 2 * Rounds(run[|run| - 1], a, b)
    ensures RepairedAt(run, run', a, b) && Apart(run[|run| - 1], run'[|run'| - 1], a, b)
  {
    hide *;
    var c := run[|run| - 1];
    LeaderReady(m, run, a, b, base);
    var c1 := HeartbeatInRun(m, run, a, b, base, pop);
    SameForRepair(c, c1, a, b, pop);
    BeatApart(c, c1, a, b);
    run' := RepairInRun(m, run + [c1], a, b, base, pop);
    GoesFurther(m, run, run + [c1], run', b, pop);
    var c' := run'[|run'| - 1];
    RepairedLater(c.servers[a], c.servers[b], c1.servers[a], c1.servers[b], c'.servers[a], c'.servers[b]);
    RepairedHere(run, run', a, b);
    ApartFurther(c, c1, c', a, b);
  }

  lemma BeatApart(c: Cluster, c1: Cluster, a: NodeId, b: NodeId)
    requires a in c.servers && b in c.servers && a in c1.servers && NextPositive(c.servers[a].peers)
    requires var s' := c1.servers[a];
      c1.servers == c.servers[a := s'] && s' == c.servers[a].(elapsed := 0, applied := s'.applied, fed := s'.fed)
    ensures Apart(c, c1, a, b)
  {
  }

  /** At the end of `run'`, the peer is repaired with what the leader had at the end of `run`. */
  ghost predicate RepairedAt(run: seq<Cluster>, run': seq<Cluster>, a: NodeId, b: NodeId) {
    && run != [] && run' != []
    && var c, c' := run[|run| - 1], run'[|run'| - 1];
    && a in c.servers && b in c.servers && a in c'.servers && b in c'.servers
    && Repaired(c.servers[a], c.servers[b], c'.servers[a], c'.servers[b])
  }

  lemma RepairedHere(run: seq<Cluster>, run': seq<Cluster>, a: NodeId, b: NodeId)
    requires run != [] && run' != []
    requires var c, c' := run[|run| - 1], run'[|run'| - 1];
      && a in c.servers && b in c.servers && a in c'.servers && b in c'.servers
      && Repaired(c.servers[a], c.servers[b], c'.servers[a], c'.servers[b])
    ensures RepairedAt(run, run', a, b)
  {
  }

  lemma SameForRepair(c: Cluster, c1: Cluster, a: NodeId, b: NodeId, pop: int)
    requires a in c.servers && b in c.servers && a != b && a in c1.servers
    requires var s' := c1.servers[a];
      c1.servers == c.servers[a := s'] && s' == c.servers[a].(elapsed := 0, applied := s'.applied, fed := s'.fed)
    requires pop == 0 || !Conflict(c.servers[b].log, c.servers[a].log)
    ensures GoesIn(c1.servers[a], c1.servers[b], pop) && NextOf(c1, a, b) == NextOf(c, a, b) && Rounds(c1, a, b) == Rounds(c, a, b)
    ensures var s, s' := c.servers[a], c1.servers[a]; s'.log == s.log && s'.term == s.term && s'.commit == s.commit && s'.id == s.id
    ensures c1.servers[b] == c.servers[b]
  {
  }

  lemma LeaderReady(m: set<NodeId>, run: seq<Cluster>, a: NodeId, b: NodeId, base: nat)
    requires RepairPossible(m, run, a, b, base)
    ensures var s := run[|run| - 1].servers[a];
      Repairable(s, run[|run| - 1].servers[b], base) && a != b && NextPositive(s.peers) && PeersInReach(s)
  {
    hide *;
    var c := run[|run| - 1];
    RepairParts(m, run, a, b, base);
    var h := HistoryAt(m, run, |run| - 1);
    Present(m, c, h, a);
    Present(m, c, h, b);
    PairRepairable(m, h, a, c.servers[a], b, c.servers[b], base);
  }

  lemma RepairParts(m: set<NodeId>, run: seq<Cluster>, a: NodeId, b: NodeId, base: nat)
    requires RepairPossible(m, run, a, b, base)
    ensures var s, u := run[|run| - 1].servers[a], run[|run| - 1].servers[b];
      && a != b && s.role == Leader && u.term <= s.term && CommonBase(s, u, b, base)
      && NextPositive(s.peers) && PeersInReach(s)
  {
    hide IsRun, CommonBase, NextPositive, PeersInReach;
  }

  // ----- When `log_pop` refuses -----

  lemma PeriodKeepsLog(m: set<NodeId>, n: NodeId, s: Server, msec: nat, rnd: nat, shutdown: bool)
    requires 2 <= |m| && LocalOK(m, n, s) && NextPositive(s.peers)
    ensures Periodic(s, msec, rnd, shutdown).server.log == s.log
  {
    hide Periodic, Timers, ApplyEntry, LocalOK;
    var s1 := s.(elapsed := s.elapsed + msec);
    PeriodicParts(m, n, s, msec, rnd, shutdown);
    TimersKeepFed(s1, rnd);
    ApplyKeepsRest(Timers(s1, rnd).server, shutdown);
  }

  /** Only an AppendEntries takes entries off a log, and only if `log_pop` accepts. */
  lemma RefusingStep(m: set<NodeId>, c: Cluster, h: History, ev: Event, b: NodeId)
    requires Inv(m, c, h) && Enabled(c, ev) && AssertsHold(c, ev) && b in c.servers
    requires ev.Deliver? && ev.p.dst == b ==> ev.pop != 0
    ensures b in After(c, ev).servers && c.servers[b].log <= After(c, ev).servers[b].log
  {
    hide Inv, HistoryOK, ServerOK, PacketOK, Periodic, ApplyAll, RecvEntry, RecvAppendReply, RecvVoteReply, RecvRequestVote,
         RecvAppendEntries, AppendReplyAsserts, RequestVoteAsserts, AppendEntriesAsserts, NoNullRead;
    if b == Actor(ev) {
      var s := c.servers[b];
      ServerLocal(m, c, h, b);
      match ev
      case PeriodicAt(_, msec, rnd, shutdown) => PeriodKeepsLog(m, b, s, msec, rnd, shutdown);
      case ClientEntry(_, e) => EntryKeepsFed(s, e);
      case ApplyAllAt(_, quota) => ApplyAllKeepsRest(s, quota);
      case Deliver(p, chain, pop, ready, rnd) =>
        match p.msg
        case RequestVote(_, _, _, _) => RequestKeepsFed(s, p.src, p.msg, rnd);
        case VoteReply(_, _) => VoteKeepsFed(s, p.src, p.msg, rnd);
        case AppendEntries(_, _, _, _, _, _) => AppendKeepsFed(s, p.src, Cut(p.msg, chain), pop, rnd);
        case AppendReply(_, _, _, _) => ReplyKeepsFed(s, p.src, p.msg, ready, rnd);
    }
  }

  lemma RefusingNext(m: set<NodeId>, run: seq<Cluster>, i: nat, b: NodeId, pop: int)
    requires IsRun(m, run) && i + 1 < |run| && b in run[i].servers && NextWith(run[i], run[i + 1], b, pop) && pop != 0
    ensures b in run[i + 1].servers && run[i].servers[b].log <= run[i + 1].servers[b].log
  {
    hide IsRun, Inv, Enabled, ListSuffices, AssertsHold, After, Outcome;
    var h := HistoryAt(m, run, i);
    var ev :| StepBy(run[i], ev, run[i + 1]) && Answers(ev, b, pop);
    RefusingStep(m, run[i], h, ev, b);
  }

  /** While `log_pop` refuses on a server, its log only grows. */
  lemma {:induction false} RefusingGrows(m: set<NodeId>, run: seq<Cluster>, run': seq<Cluster>, b: NodeId, pop: int, k: nat)
    requires GoesOn(m, run, run', b, pop) && pop != 0 && b in run[|run| - 1].servers && |run| - 1 <= k < |run'|
    ensures b in run'[k].servers && run[|run| - 1].servers[b].log <= run'[k].servers[b].log
    decreases k
  {
    hide IsRun, NextWith;
    if |run| <= k {
      RefusingGrows(m, run, run', b, pop, k - 1);
      assert NextWith(run'[k - 1], run'[k - 1 + 1], b, pop);
      RefusingNext(m, run', k - 1, b, pop);
    }
  }

  lemma PrefixesAgree(a: seq<Entry>, b: seq<Entry>, whole: seq<Entry>)
    requires a <= whole && b <= whole
    ensures !Conflict(a, b)
  {
  }

  /** A peer whose log conflicts with the leader's stays unrepaired for as long as `log_pop` refuses on
      it, whatever else happens in the run. */
  lemma RefusedStaysBroken(m: set<NodeId>, run: seq<Cluster>, run': seq<Cluster>, a: NodeId, b: NodeId, pop: int)
    requires GoesOn(m, run, run', b, pop) && pop != 0 && a in run[|run| - 1].servers && b in run[|run| - 1].servers
    requires Conflict(run[|run| - 1].servers[b].log, run[|run| - 1].servers[a].log)
    ensures !RepairedAt(run, run', a, b)
  {
    hide IsRun, NextWith, Conflict;
    RefusingGrows(m, run, run', b, pop, |run'| - 1);
    if RepairedAt(run, run', a, b) {
      var u, s, u' := run[|run| - 1].servers[b], run[|run| - 1].servers[a], run'[|run'| - 1].servers[b];
      PrefixesAgree(u.log, s.log, u'.log);
    }
  }

  /** The run can go on, with `log_pop` answering `pop` on the peer, to one in which it is repaired. */
  ghost predicate CanGoOn(m: set<NodeId>, run: seq<Cluster>, a: NodeId, b: NodeId, pop: int) {
    exists run' :: GoesOn(m, run, run', b, pop) && RepairedAt(run, run', a, b)
  }

  /** The run can go on so that the leader repairs the peer if and only if `log_pop` accepts there or no
      index of both logs holds different terms. */
  lemma LeaderRepairsExactly(m: set<NodeId>, run: seq<Cluster>, a: NodeId, b: NodeId, base: nat, pop: int)
    requires RepairPossible(m, run, a, b, base)
    ensures CanGoOn(m, run, a, b, pop) <==>
      pop == 0 || !Conflict(run[|run| - 1].servers[b].log, run[|run| - 1].servers[a].log)
  {
    hide IsRun, GoesOn, RepairedAt, RepairPossible, Conflict;
    if pop == 0 || !Conflict(run[|run| - 1].servers[b].log, run[|run| - 1].servers[a].log) {
      var run' := LeaderRepairsPeer(m, run, a, b, base, pop);
    } else if CanGoOn(m, run, a, b, pop) {
      var run' :| GoesOn(m, run, run', b, pop) && RepairedAt(run, run', a, b);
      RefusedStaysBroken(m, run, run', a, b, pop);
    }
  }

  /** In a run, a failure reply of the leader's term is ignored, or lowers the next index of its
      sender while the match index stays. */
  lemma FailureLowersNextInRun(m: set<NodeId>, run: seq<Cluster>, i: nat, ev: Event)
    requires IsRun(m, run) && i < |run| && Possible(run[i], ev)
    requires ev.Deliver? && ev.p.msg.AppendReply? && !ev.p.msg.success
    requires run[i].servers[ev.p.dst].role == Leader && run[i].servers[ev.p.dst].term == ev.p.msg.term
    ensures AssertsHold(run[i], ev)
    ensures var s, s' := run[i].servers[ev.p.dst], After(run[i], ev).servers[ev.p.dst];
      && Find(s.peers, ev.p.src).Some? && Find(s'.peers, ev.p.src).Some?
      && var p, q := Find(s.peers, ev.p.src).value, Find(s'.peers, ev.p.src).value;
      && (p.matchIdx == p.nextIdx - 1 ==> s' == s)
      && (p.matchIdx != p.nextIdx - 1 ==> 1 <= q.nextIdx < p.nextIdx && q.matchIdx == p.matchIdx)
  {
    hide *;
    var c := run[i];
    var h := HistoryAt(m, run, i);
    NoAssertionFails(m, run, i, ev);
    ReplySender(m, c, h, ev);
    Present(m, c, h, ev.p.dst);
    LeaderTracks(m, h, ev.p.dst, c.servers[ev.p.dst], ev.p.src);
    ReplyOutcome(c, ev);
    FailureMoves(c.servers[ev.p.dst], ev.p.src, ev.p.msg, ev.ready, ev.rnd);
  }

  lemma ReplySender(m: set<NodeId>, c: Cluster, h: History, ev: Event)
    requires Inv(m, c, h) && Possible(c, ev) && ev.Deliver?
    ensures ev.p.src in m && ev.p.dst in c.servers && ev.p.src != ev.p.dst
  {
    hide ListSuffices, NoNullRead;
    Sender(m, c, h, ev.p);
  }

  lemma FailureMoves(s: Server, from: NodeId, r: Message, ready: bool, rnd: nat)
    requires Tracks(s, from) && r.AppendReply? && !r.success && r.term == s.term
    requires NextPositive(s.peers) && AppendReplyAsserts(s, from, r)
    ensures var s' := RecvAppendReply(s, from, r, ready, rnd).server;
      && Find(s.peers, from).Some? && Find(s'.peers, from).Some?
      && var p, q := Find(s.peers, from).value, Find(s'.peers, from).value;
      && (p.matchIdx == p.nextIdx - 1 ==> s' == s)
      && (p.matchIdx != p.nextIdx - 1 ==> 1 <= q.nextIdx < p.nextIdx && q.matchIdx == p.matchIdx)
  {
    hide RecvAppendReply, AppendReplyAsserts, DistinctIds, NextPositive;
    if Find(s.peers, from).value.matchIdx != Find(s.peers, from).value.nextIdx - 1 {
      RefusedLeader(s, from, r, ready, rnd, 0);
    } else {
      FailureReply(s, from, r, ready, rnd);
    }
  }

  lemma Sender(m: set<NodeId>, c: Cluster, h: History, p: Packet)
    requires Inv(m, c, h) && p in c.net
    ensures p.src in m && p.dst in m && p.src != p.dst
  {
    assert PacketOK(m, h, p);
  }

  // ----- Elections -----

  /** The last entry, if there is one, is still in the list. */
  predicate TailListed(s: Server) {
    s.log == [] || HasEntry(s, |s.log|)
  }

  /** A candidate whose requests to the servers `q` are under way; their votes, with those it has, would
      make a majority. */
  ghost predicate Canvassing(c: Cluster, a: NodeId, q: set<NodeId>) {
    && a in c.servers && c.servers[a].id == a
    && VotesSuffice(c.servers[a], q) && TailListed(c.servers[a])
    && forall v :: v in q ==> Asked(c, c.servers[a], v)
  }

  ghost predicate VotesSuffice(s: Server, q: set<NodeId>) {
    && s.role == Candidate && s.votedFor == Some(s.id)
    && DistinctIds(s.peers) && NextPositive(s.peers) && s.id in VotingIds(s.peers)
    && q <= VotingIds(s.peers) - {s.id} && |VotingIds(s.peers)| / 2 <= |Supporters(s.peers, s.id) + q|
  }

  predicate Asked(c: Cluster, s: Server, v: NodeId) {
    && v in c.servers && c.servers[v].id == v && v != s.id
    && Willing(c.servers[v], s) && TailListed(c.servers[v])
    && Packet(s.id, v, VoteRequest(s)) in c.net
  }

  /** The request arrives and is granted. */
  lemma RequestArrives(m: set<NodeId>, run: seq<Cluster>, s: Server, v: NodeId) returns (c': Cluster)
    requires IsRun(m, run) && Asked(run[|run| - 1], s, v)
    ensures IsRun(m, run + [c'])
    ensures var c := run[|run| - 1];
      var g := Polled(s, c.servers[v], 0);
      c' == Cluster(c.servers[v := g.server], c.net + {Packet(v, s.id, g.reply)})
  {
    var c := run[|run| - 1];
    var ev := Deliver(Packet(s.id, v, VoteRequest(s)), 0, 0, false, 0);
    hide IsRun, Willing, RecvRequestVote, AssertsHold;
    assert Possible(c, ev);
    NoAssertionFails(m, run, |run| - 1, ev);
    RequestOutcome(c, ev);
    Extend(m, run, ev);
    c' := After(c, ev);
  }

  lemma RequestOutcome(c: Cluster, ev: Event)
    requires Possible(c, ev) && AssertsHold(c, ev) && ev.Deliver? && ev.p.msg.RequestVote?
    ensures var g := RecvRequestVote(c.servers[ev.p.dst], ev.p.src, ev.p.msg, ev.rnd);
      && Outcome(c, ev) == (g.server, {Packet(ev.p.dst, ev.p.src, g.reply)})
      && After(c, ev) == Cluster(c.servers[ev.p.dst := g.server], c.net + {Packet(ev.p.dst, ev.p.src, g.reply)})
      && SendsBacked(Outcome(c, ev).0, Outcome(c, ev).1)
  {
    hide ShouldGrantVote, HearCandidate, GrantReads, RequestVoteAsserts;
  }

  /** A new leader's first messages are backed if its last entry is listed. */
  lemma FirstHeartbeatsBacked(s: Server)
    requires NextPositive(s.peers) && TailListed(s)
    ensures SendsBacked(BecomeLeader(s).server, set q | q in BecomeLeader(s).out)
  {
    var s1 := BecomeLeader(s).server;
    forall q | q in BecomeLeader(s).out ensures Backed(s1, q.msg) {
      BroadcastLetters(s1, s1.peers, Heartbeat, q);
      var p :| p in s1.peers && 1 <= p.nextIdx && Addressed(s1, p, Heartbeat) && q == Letter(s1, p, Heartbeat);
      assert p.nextIdx == |s.log| + 1;
    }
  }

  lemma VoteOutcome(c: Cluster, ev: Event)
    requires Possible(c, ev) && AssertsHold(c, ev) && ev.Deliver? && ev.p.msg.VoteReply?
    ensures NextPositive(c.servers[ev.p.dst].peers)
    ensures var e := RecvVoteReply(c.servers[ev.p.dst], ev.p.src, ev.p.msg, ev.rnd);
      && Outcome(c, ev) == (e.server, set q | q in e.out)
      && After(c, ev) == Cluster(c.servers[ev.p.dst := e.server], c.net + set q | q in e.out)
  {
    hide RecvVoteReply;
  }

  lemma VoteSendsBacked(s: Server, v: NodeId, r: Message)
    requires r.VoteReply? && NextPositive(s.peers) && TailListed(s)
    ensures var e := RecvVoteReply(s, v, r, 0); SendsBacked(e.server, set q | q in e.out)
  {
    var s1 := RecordSupport(s, v);
    var f := Find(s.peers, v);
    assert f.Some? ==> 1 <= f.value.nextIdx;
    assert NextPositive(s1.peers) && TailListed(s1);
    FirstHeartbeatsBacked(s1);
    hide BecomeLeader, VotesIsMajority, TailListed, Replace;
  }

  /** The vote arrives at the candidate. */
  lemma VoteArrives(m: set<NodeId>, run: seq<Cluster>, a: NodeId, v: NodeId, r: Message) returns (c': Cluster)
    requires IsRun(m, run) && a in run[|run| - 1].servers && Packet(v, a, r) in run[|run| - 1].net && r.VoteReply?
    requires TailListed(run[|run| - 1].servers[a])
    ensures NextPositive(run[|run| - 1].servers[a].peers) && IsRun(m, run + [c'])
    ensures var c := run[|run| - 1];
      var e := RecvVoteReply(c.servers[a], v, r, 0);
      c' == Cluster(c.servers[a := e.server], c.net + set q | q in e.out)
  {
    var c := run[|run| - 1];
    var ev := Deliver(Packet(v, a, r), 0, 0, false, 0);
    hide IsRun, RecvVoteReply, SendsBacked;
    assert Possible(c, ev);
    NoAssertionFails(m, run, |run| - 1, ev);
    VoteOutcome(c, ev);
    VoteSendsBacked(c.servers[a], v, r);
    Extend(m, run, ev);
    c' := After(c, ev);
  }

  /** One more voter has answered: the candidate leads, or can still win with the voters left. */
  lemma VoterInRun(m: set<NodeId>, run: seq<Cluster>, a: NodeId, q: set<NodeId>, v: NodeId) returns (run': seq<Cluster>)
    requires IsRun(m, run) && Canvassing(run[|run| - 1], a, q) && v in q
    ensures IsRun(m, run') && run <= run' && |run'| == |run| + 2
    ensures var c, c' := run[|run| - 1], run'[|run'| - 1];
      (a in c'.servers && Elected(c.servers[a], c'.servers[a])) || Canvasses(c, c', a, q - {v})
  {
    hide *;
    var c := run[|run| - 1];
    CanvassAsks(c, a, q, v);
    var s := c.servers[a];
    AskedOther(c, s, v);
    var c1 := RequestArrives(m, run, s, v);
    var r := Polled(s, c.servers[v], 0).reply;
    var c2 := VoteArrives(m, run + [c1], a, v, r);
    run' := run + [c1] + [c2];
    VoteCounted(c, a, q, v, c1, c2);
  }

  lemma CanvassAsks(c: Cluster, a: NodeId, q: set<NodeId>, v: NodeId)
    requires Canvassing(c, a, q) && v in q
    ensures a in c.servers && c.servers[a].id == a && TailListed(c.servers[a]) && Asked(c, c.servers[a], v)
  {
    hide VotesSuffice, TailListed, Asked;
  }

  lemma AskedOther(c: Cluster, s: Server, v: NodeId)
    requires Asked(c, s, v)
    ensures v != s.id && v in c.servers && c.servers[v].id == v && Willing(c.servers[v], s)
  {
  }

  /** The candidate has become the leader of its term, with its log as it was. */
  predicate Elected(s: Server, s': Server) {
    s'.role == Leader && s'.leader == Some(s.id) && s'.term == s.term && s'.log == s.log
  }

  ghost predicate Canvasses(c: Cluster, c': Cluster, a: NodeId, q: set<NodeId>) {
    && Canvassing(c', a, q) && q != {} && a in c.servers && a in c'.servers
    && c'.servers[a].term == c.servers[a].term && c'.servers[a].log == c.servers[a].log
    && c'.servers[a].id == c.servers[a].id
  }

  lemma VoteCounted(c: Cluster, a: NodeId, q: set<NodeId>, v: NodeId, c1: Cluster, c2: Cluster)
    requires Canvassing(c, a, q) && v in q && v in c.servers
    requires var g := Polled(c.servers[a], c.servers[v], 0);
      c1 == Cluster(c.servers[v := g.server], c.net + {Packet(v, a, g.reply)})
    requires v != a && NextPositive(c.servers[a].peers)
    requires var e := RecvVoteReply(c.servers[a], v, Polled(c.servers[a], c.servers[v], 0).reply, 0);
      c2 == Cluster(c1.servers[a := e.server], c1.net + set p | p in e.out)
    ensures (a in c2.servers && Elected(c.servers[a], c2.servers[a])) || Canvasses(c, c2, a, q - {v})
  {
    hide *;
    CanvassAsks(c, a, q, v);
    CanvassSuffices(c, a, q);
    var s := c.servers[a];
    AskedOther(c, s, v);
    var s2 := VoteTaken(s, c.servers[v], q);
    if !Elected(s, s2) {
      StillAsked(c, c2, s, s2, q, v);
      CanvassGoesOn(c, c2, a, q - {v}, s2);
    }
  }

  lemma CanvassSuffices(c: Cluster, a: NodeId, q: set<NodeId>)
    requires Canvassing(c, a, q)
    ensures a in c.servers && VotesSuffice(c.servers[a], q) && forall v :: v in q ==> Asked(c, c.servers[a], v)
  {
    hide VotesSuffice, TailListed, Asked;
  }

  lemma CanvassGoesOn(c: Cluster, c': Cluster, a: NodeId, q: set<NodeId>, s': Server)
    requires a in c.servers && a in c'.servers && c'.servers[a] == s' && c.servers[a].id == a && q != {}
    requires s' == c.servers[a].(peers := s'.peers) && VotesSuffice(s', q) && TailListed(s')
    requires forall v :: v in q ==> Asked(c', s', v)
    ensures Canvasses(c, c', a, q)
  {
    hide VotesSuffice, TailListed, Asked;
  }

  lemma VoteTaken(s: Server, v: Server, q: set<NodeId>) returns (s': Server)
    requires VotesSuffice(s, q) && v.id in q && Willing(v, s) && NextPositive(s.peers)
    ensures s' == RecvVoteReply(s, v.id, Polled(s, v, 0).reply, 0).server
    ensures Elected(s, s') || (s' == s.(peers := s'.peers) && VotesSuffice(s', q - {v.id}) && q - {v.id} != {})
  {
    hide Willing, Polled, RecvVoteReply, Supporters, VotingIds, VotesIsMajority, BecomeLeader, DistinctIds, NextPositive,
         RecordSupport;
    VoterAnswers(s, v, 0);
    s' := RecvVoteReply(s, v.id, Polled(s, v, 0).reply, 0).server;
    var s1 := RecordSupport(s, v.id);
    LeaderState(s1);
    assert Supporters(s1.peers, s.id) + (q - {v.id}) == Supporters(s.peers, s.id) + q;
    WonSoFar(VotingIds(s1.peers), s.id, Supporters(s1.peers, s.id), q - {v.id});
  }

  /** The voters not asked yet are as they were. */
  lemma StillAsked(c: Cluster, c': Cluster, s: Server, s1: Server, q: set<NodeId>, v: NodeId)
    requires forall w :: w in q ==> Asked(c, s, w)
    requires s1 == s.(peers := s1.peers)
    requires forall w :: w in c.servers && w != v && w != s.id ==> w in c'.servers && c'.servers[w] == c.servers[w]
    requires c.net <= c'.net
    ensures forall w :: w in q - {v} ==> Asked(c', s1, w)
    ensures TailListed(s) <==> TailListed(s1)
  {
    forall w | w in q - {v} ensures Asked(c', s1, w) {
      assert Asked(c, s, w);
    }
  }

  lemma PrefixTransitive(a: seq<Cluster>, b: seq<Cluster>, c: seq<Cluster>)
    requires a <= b && b <= c
    ensures a <= c
  {
  }

  /** A run at whose end `a` canvasses the servers `q`. */
  ghost predicate Campaign(m: set<NodeId>, run: seq<Cluster>, a: NodeId, q: set<NodeId>)
    ensures Campaign(m, run, a, q) ==> run != [] && a in run[|run| - 1].servers && q != {}
  {
    IsRun(m, run) && Canvassing(run[|run| - 1], a, q) && q != {}
  }

  lemma {:induction false} WinInRun(m: set<NodeId>, run: seq<Cluster>, a: NodeId, q: set<NodeId>) returns (run': seq<Cluster>)
    requires Campaign(m, run, a, q)
    ensures IsRun(m, run') && run <= run' && |run'| <= |run| + 2 * |q|
    ensures a in run'[|run'| - 1].servers && Elected(run[|run| - 1].servers[a], run'[|run'| - 1].servers[a])
    decreases |q|
  {
    hide *;
    var s := run[|run| - 1].servers[a];
    var v :| v in q;
    var run1 := CampaignGoesOn(m, run, a, q, v);
    var s1 := run1[|run1| - 1].servers[a];
    if Elected(s, s1) {
      run' := run1;
    } else {
      run' := WinInRun(m, run1, a, q - {v});
      ElectedLater(s, s1, run'[|run'| - 1].servers[a]);
      PrefixTransitive(run, run1, run');
    }
  }

  lemma CampaignGoesOn(m: set<NodeId>, run: seq<Cluster>, a: NodeId, q: set<NodeId>, v: NodeId) returns (run': seq<Cluster>)
    requires Campaign(m, run, a, q) && v in q
    ensures IsRun(m, run') && run <= run' && |run'| == |run| + 2 && a in run'[|run'| - 1].servers
    ensures var s, s' := run[|run| - 1].servers[a], run'[|run'| - 1].servers[a];
      Elected(s, s') || (Campaign(m, run', a, q - {v}) && s'.term == s.term && s'.log == s.log && s'.id == s.id)
  {
    hide IsRun, Canvassing, Elected;
    run' := VoterInRun(m, run, a, q, v);
  }

  lemma ElectedLater(s: Server, s1: Server, s2: Server)
    requires Elected(s1, s2) && s1.term == s.term && s1.log == s.log && s1.id == s.id
    ensures Elected(s, s2)
  {
  }

  // ----- From any state -----

  /** A server, not ahead in its term, that would vote for `s` in the next term. */
  predicate WouldVote(v: Server, s: Server) {
    v.term <= s.term && UpToDate(|s.log|, LastTerm(s.log), v.log) && TailListed(v)
  }

  /** What a server that stood for election is, and what it sent: a request to every other server. */
  ghost predicate Stands(m: set<NodeId>, a: NodeId, s: Server, s': Server, out: set<Packet>) {
    && s'.role == Candidate && s'.votedFor == Some(a) && s'.id == a && s'.term == s.term + 1
    && s'.log == s.log && TailListed(s') && TailTerm(s') == LastTerm(s.log)
    && s'.peers == ClearVotes(s.peers) && NextPositive(s'.peers)
    && (forall v :: v in m && v != a ==> Packet(a, v, VoteRequest(s')) in out)
  }

  lemma CandidacyState(m: set<NodeId>, a: NodeId, s: Server)
    requires 2 <= |m| && LocalOK(m, a, s) && s.role != Leader && NextPositive(s.peers)
    ensures var e := Periodic(s, s.electionRand, 0, false);
      var c := BecomeCandidate(s.(elapsed := s.elapsed + s.electionRand), 0);
      && NextPositive(c.server.peers)
      && e.out == c.out && e.server == c.server.(applied := e.server.applied, fed := e.server.fed)
      && e.out == Broadcast(c.server, c.server.peers, Canvass)
      && c.server == s.(term := s.term + 1, votedFor := Some(a), leader := None, role := Candidate,
                        peers := ClearVotes(s.peers), elapsed := 0, electionRand := c.server.electionRand)
  {
    hide Periodic, Broadcast, BecomeCandidate, Timers, VotingIds, SelfVoting, HandedOver, DistinctIds, ClearVotes;
    PeriodicParts(m, a, s, s.electionRand, 0, false);
    AllVote(m, a, s);
    var s0 := s.(elapsed := s.elapsed + s.electionRand);
    SameVoters(s, s0);
    TimersStand(s0);
    CandidacyOut(s0);
    ApplyKeepsRest(BecomeCandidate(s0, 0).server, false);
  }

  lemma SameVoters(s: Server, s0: Server)
    requires s0.peers == s.peers && s0.id == s.id
    ensures SelfVoting(s0) == SelfVoting(s)
  {
  }

  lemma TimersStand(s: Server)
    requires s.role != Leader && s.electionRand <= s.elapsed && 1 < |VotingIds(s.peers)| && SelfVoting(s) && NextPositive(s.peers)
    ensures Timers(s, 0) == BecomeCandidate(s, 0)
  {
  }

  lemma CandidacyOut(s: Server)
    requires NextPositive(s.peers)
    ensures var e := BecomeCandidate(s, 0);
      && e.server == s.(term := s.term + 1, votedFor := Some(s.id), leader := None, role := Candidate,
                        peers := ClearVotes(s.peers), elapsed := 0, electionRand := e.server.electionRand)
      && NextPositive(e.server.peers) && e.out == Broadcast(e.server, e.server.peers, Canvass)
  {
  }

  lemma CandidacyMail(m: set<NodeId>, a: NodeId, c: Server, ps: seq<Peer>)
    requires c.id == a && c.peers == ClearVotes(ps) && Ids(ps) == m && NextPositive(c.peers)
    requires forall p :: p in ps ==> p.voting && p.active
    ensures forall v :: v in m && v != a ==> Packet(a, v, VoteRequest(c)) in Broadcast(c, c.peers, Canvass)
    ensures forall q :: q in Broadcast(c, c.peers, Canvass) ==> q.msg.RequestVote?
  {
    hide Broadcast;
    forall v | v in m && v != a ensures Packet(a, v, VoteRequest(c)) in Broadcast(c, c.peers, Canvass) {
      var i :| 0 <= i < |ps| && ps[i].id == v;
      assert ps[i] in ps && c.peers[i] in c.peers;
      LetterSent(c, c.peers, Canvass, c.peers[i]);
    }
    forall q | q in Broadcast(c, c.peers, Canvass) ensures q.msg.RequestVote? {
      BroadcastLetters(c, c.peers, Canvass, q);
    }
  }

  /** A server that is no leader and whose timer has run out stands for election. */
  lemma CandidacyDue(m: set<NodeId>, a: NodeId, s: Server)
    requires 2 <= |m| && LocalOK(m, a, s) && s.role != Leader && NextPositive(s.peers) && TailListed(s)
    ensures var e := Periodic(s, s.electionRand, 0, false);
      Stands(m, a, s, e.server, set q | q in e.out) && SendsBacked(e.server, set q | q in e.out)
  {
    hide Periodic, BecomeCandidate, Broadcast, ClearVotes, NextPositive, WindowOK, DistinctIds, HandedOver;
    CandidacyState(m, a, s);
    var c := BecomeCandidate(s.(elapsed := s.elapsed + s.electionRand), 0).server;
    CandidacyMail(m, a, c, s.peers);
    CandidateStands(m, a, s, c, Periodic(s, s.electionRand, 0, false).server, Broadcast(c, c.peers, Canvass));
  }

  lemma CandidateStands(m: set<NodeId>, a: NodeId, s: Server, c: Server, s': Server, out: seq<Packet>)
    requires TailListed(s) && s' == c.(applied := s'.applied, fed := s'.fed) && NextPositive(c.peers)
    requires c == s.(term := s.term + 1, votedFor := Some(a), leader := None, role := Candidate,
                     peers := ClearVotes(s.peers), elapsed := 0, electionRand := c.electionRand) && s.id == a
    requires forall v :: v in m && v != a ==> Packet(a, v, VoteRequest(c)) in out
    requires forall q :: q in out ==> q.msg.RequestVote?
    ensures Stands(m, a, s, s', set q | q in out) && SendsBacked(s', set q | q in out)
  {
    hide ClearVotes, NextPositive;
    assert VoteRequest(s') == VoteRequest(c);
  }

  lemma StandsFields(m: set<NodeId>, a: NodeId, s: Server, s': Server, out: set<Packet>, net: set<Packet>)
    requires Stands(m, a, s, s', out) && out <= net
    ensures Stands(m, a, s, s', net) && s'.term == s.term + 1 && s'.log == s.log && s'.id == a
  {
    hide TailListed, ClearVotes, NextPositive;
  }

  lemma CandidacyInRun(m: set<NodeId>, run: seq<Cluster>, a: NodeId) returns (c': Cluster)
    requires IsRun(m, run) && a in run[|run| - 1].servers
    requires run[|run| - 1].servers[a].role != Leader && TailListed(run[|run| - 1].servers[a])
    ensures IsRun(m, run + [c'])
    ensures var c := run[|run| - 1];
      a in c'.servers && c'.servers == c.servers[a := c'.servers[a]] && Stands(m, a, c.servers[a], c'.servers[a], c'.net)
  {
    hide *;
    var c := run[|run| - 1];
    var s := c.servers[a];
    TimeRuns(m, run, a);
    CandidacyDue(m, a, s);
    c' := BackedTimeStep(m, run, a, s.electionRand, 0, a, 0);
    StandsFields(m, a, s, c'.servers[a], (set q | q in Periodic(s, s.electionRand, 0, false).out), c'.net);
  }

  /** After it stood, it canvasses the servers that would vote for it. */
  lemma StandingCanvasses(m: set<NodeId>, c: Cluster, a: NodeId, q: set<NodeId>, c': Cluster)
    requires 2 <= |m| && a in c.servers && a in c'.servers && LocalOK(m, a, c.servers[a])
    requires q <= m - {a} && Majority(m, q + {a})
    requires c'.servers == c.servers[a := c'.servers[a]] && Stands(m, a, c.servers[a], c'.servers[a], c'.net)
    requires forall v :: v in q ==> v in c.servers && Voter(m, v, c.servers[v], c.servers[a])
    ensures Canvassing(c', a, q) && q != {}
  {
    hide *;
    var s, s' := c.servers[a], c'.servers[a];
    StandsSuffice(m, a, s, s', c'.net, q);
    forall v | v in q ensures Asked(c', s', v) {
      VoterIsAsked(m, c, a, v, c');
    }
    assert Canvassing(c', a, q) by { CanvassStarts(c', a, q); }
  }

  lemma StandsSuffice(m: set<NodeId>, a: NodeId, s: Server, s': Server, net: set<Packet>, q: set<NodeId>)
    requires 2 <= |m| && LocalOK(m, a, s) && Stands(m, a, s, s', net) && q <= m - {a} && Majority(m, q + {a})
    ensures VotesSuffice(s', q) && TailListed(s') && s'.id == a && q != {}
  {
    ClearedPeers(m, a, s, s');
    ClearedVote(m, s', a);
    hide TailListed, DistinctIds, VotingIds, Supporters, ClearVotes, Ids;
    VotersCount(m, a, q, Supporters(s'.peers, a));
  }

  lemma VoterIsAsked(m: set<NodeId>, c: Cluster, a: NodeId, v: NodeId, c': Cluster)
    requires a in c.servers && a in c'.servers && v in c.servers && v in m && v != a
    requires c'.servers == c.servers[a := c'.servers[a]] && Stands(m, a, c.servers[a], c'.servers[a], c'.net)
    requires Voter(m, v, c.servers[v], c.servers[a])
    ensures Asked(c', c'.servers[a], v)
  {
    hide TailListed, ClearVotes, NextPositive, Voter, Willing;
    AskedInTime(m, c.servers[v], v, c.servers[a], c'.servers[a]);
  }

  lemma CanvassStarts(c: Cluster, a: NodeId, q: set<NodeId>)
    requires a in c.servers && c.servers[a].id == a && VotesSuffice(c.servers[a], q) && TailListed(c.servers[a])
    requires forall v :: v in q ==> Asked(c, c.servers[a], v)
    ensures Canvassing(c, a, q)
  {
  }

  ghost predicate Voter(m: set<NodeId>, n: NodeId, v: Server, s: Server) {
    LocalOK(m, n, v) && WouldVote(v, s)
  }

  lemma ClearedVote(m: set<NodeId>, s: Server, a: NodeId)
    requires Ids(s.peers) == m && a in m && forall p :: p in s.peers ==> p.voting && p.active
    ensures VotingIds(s.peers) == m
  {
    assert VotingIds(s.peers) == Ids(s.peers);
  }

  lemma AskedInTime(m: set<NodeId>, v: Server, n: NodeId, s: Server, s': Server)
    requires Voter(m, n, v, s) && s'.term == s.term + 1 && s'.log == s.log && TailTerm(s') == LastTerm(s.log)
    ensures Willing(v, s') && TailListed(v) && v.id == n
  {
    AllVote(m, n, v);
    hide LocalOK;
  }

  lemma VotersCount(m: set<NodeId>, a: NodeId, voters: set<NodeId>, more: set<NodeId>)
    requires 2 <= |m| && Majority(m, voters + {a})
    ensures |m| / 2 <= |more + voters| && voters != {}
  {
    SubsetSize(voters, more + voters);
    assert |voters + {a}| <= |voters| + 1;
  }

  /** Every run can go on so that a server which is no leader wins the next term with its log as it is, if
      servers that with it are a majority are not ahead of its term and have logs no more up to date. */
  lemma CandidateWins(m: set<NodeId>, run: seq<Cluster>, a: NodeId, q: set<NodeId>) returns (run': seq<Cluster>)
    requires IsRun(m, run) && a in run[|run| - 1].servers && q <= m - {a} && Majority(m, q + {a})
    requires run[|run| - 1].servers[a].role != Leader && TailListed(run[|run| - 1].servers[a])
    requires forall v :: v in q ==>
      v in run[|run| - 1].servers && WouldVote(run[|run| - 1].servers[v], run[|run| - 1].servers[a])
    ensures IsRun(m, run') && run <= run' && |run'| <= |run| + 1 + 2 * |q|
    ensures a in run'[|run'| - 1].servers
    ensures var s, s' := run[|run| - 1].servers[a], run'[|run'| - 1].servers[a];
      s'.role == Leader && s'.leader == Some(a) && s'.term == s.term + 1 && s'.log == s.log
  {
    hide *;
    var c := run[|run| - 1];
    VotersStand(m, run, a, q);
    TimeRuns(m, run, a);
    var c1 := CandidacyInRun(m, run, a);
    StandingCanvasses(m, c, a, q, c1);
    StandsFields(m, a, c.servers[a], c1.servers[a], c1.net, c1.net);
    assert Campaign(m, run + [c1], a, q) by { Campaigning(m, run + [c1], a, q); }
    run' := WinInRun(m, run + [c1], a, q);
    ElectedFields(c1.servers[a], run'[|run'| - 1].servers[a]);
  }

  lemma Campaigning(m: set<NodeId>, run: seq<Cluster>, a: NodeId, q: set<NodeId>)
    requires IsRun(m, run) && Canvassing(run[|run| - 1], a, q) && q != {}
    ensures Campaign(m, run, a, q)
  {
  }

  lemma VotersStand(m: set<NodeId>, run: seq<Cluster>, a: NodeId, q: set<NodeId>)
    requires IsRun(m, run) && a in run[|run| - 1].servers
    requires forall v :: v in q ==>
      v in run[|run| - 1].servers && WouldVote(run[|run| - 1].servers[v], run[|run| - 1].servers[a])
    ensures forall v :: v in q ==> Voter(m, v, run[|run| - 1].servers[v], run[|run| - 1].servers[a])
  {
    hide IsRun, WouldVote, LocalOK;
    forall v | v in q ensures Voter(m, v, run[|run| - 1].servers[v], run[|run| - 1].servers[a]) {
      TimeRuns(m, run, v);
    }
  }

  lemma ElectedFields(s: Server, s': Server)
    requires Elected(s, s')
    ensures s'.role == Leader && s'.leader == Some(s.id) && s'.term == s.term && s'.log == s.log
  {
  }
}
