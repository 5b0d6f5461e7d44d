/** The safety of whole runs: whatever packets are lost, duplicated or reordered. The
    theorems speak of servers at any two moments `i` and `j` of a run. */
module Safety {
  import opened RaftTypes
  import opened Peers
  import opened Handlers
  import opened RaftCluster
  import opened AppendLaws
  import opened Outcomes
  import opened Quorum
  import opened History
  import opened HistorySteps
  import opened Invariant
  import opened ElectionSteps
  import opened ReplicationSteps
  import opened ClusterSteps

  // ----- A history for every moment of a run -----

  lemma {:induction false} HistoryAt(m: set<NodeId>, run: seq<Cluster>, i: nat) returns (h: History)
    requires IsRun(m, run) && i < |run|
    ensures Inv(m, run[i], h)
    decreases i
  {
    if i == 0 {
      InitialInv(m, run[0]);
      h := NoHistory;
    } else {
      var g := HistoryAt(m, run, i - 1);
      assert Next(run[i - 1], run[i - 1 + 1]);
      h := NextInv(m, run[i - 1], g, run[i]);
    }
  }

  ghost predicate Advances(m: set<NodeId>, c: Cluster, c': Cluster) {
    forall n :: n in m ==>
      && n in c.servers && n in c'.servers && c.servers[n].term <= c'.servers[n].term
      && c.servers[n].commit <= c'.servers[n].commit && c.servers[n].applied <= c'.servers[n].applied
  }

  /** The history of an earlier moment extends to one of a later moment. */
  lemma {:induction false} Onward(m: set<NodeId>, run: seq<Cluster>, i: nat, h: History, j: nat) returns (h': History)
    requires IsRun(m, run) && i <= j < |run| && Inv(m, run[i], h)
    ensures Inv(m, run[j], h') && Grows(h, h') && Advances(m, run[i], run[j])
    decreases j
  {
    hide Inv, HistoryOK, Grows, Initial, Next, IsRun;
    if i == j {
      h' := h;
      GrowsReflexive(h);
      ServersPresent(m, run[i], h);
    } else {
      var g := Onward(m, run, i, h, j - 1);
      RunStep(m, run, j - 1);
      h' := NextInv(m, run[j - 1], g, run[j]);
      GrowsTransitive(h, g, h');
    }
  }

  lemma RunStep(m: set<NodeId>, run: seq<Cluster>, i: nat)
    requires IsRun(m, run) && i + 1 < |run|
    ensures Next(run[i], run[i + 1])
  {
  }

  lemma ServersPresent(m: set<NodeId>, c: Cluster, h: History)
    requires Inv(m, c, h)
    ensures c.servers.Keys == m
  {
  }

  /** One history that covers both moments. */
  ghost predicate Covers(m: set<NodeId>, c: Cluster, h: History, whole: History) {
    Inv(m, c, h) && Grows(h, whole) && HistoryOK(m, whole)
  }

  lemma TwoMoments(m: set<NodeId>, run: seq<Cluster>, i: nat, j: nat) returns (hi: History, hj: History, whole: History)
    requires IsRun(m, run) && i < |run| && j < |run|
    ensures Covers(m, run[i], hi, whole) && Covers(m, run[j], hj, whole)
  {
    if i <= j {
      hi := HistoryAt(m, run, i);
      hj := Onward(m, run, i, hi, j);
      GrowsReflexive(hj);
      whole := hj;
    } else {
      hj := HistoryAt(m, run, j);
      hi := Onward(m, run, j, hj, i);
      GrowsReflexive(hi);
      whole := hi;
    }
  }

  lemma MomentServer(m: set<NodeId>, c: Cluster, h: History, whole: History, n: NodeId)
    requires Covers(m, c, h, whole) && n in m
    ensures n in c.servers && ServerOK(m, h, n, c.servers[n])
  {
    assert ServerOK(m, h, n, c.servers[n]);
  }

  // ----- Room in the list -----

  /** A list that never had more entries than it has room for has lost none. */
  lemma {:induction false} NothingLost(m: set<NodeId>, run: seq<Cluster>, i: nat, n: NodeId)
    requires IsRun(m, run) && i < |run| && n in m
    requires forall j :: 0 <= j <= i ==> n in run[j].servers && |run[j].servers[n].log| <= run[j].servers[n].capacity
    ensures run[i].servers[n].gone == 0
    decreases i
  {
    hide Initial, Next;
    if i == 0 {
      InitialList(m, run[0], n);
    } else {
      NothingLost(m, run, i - 1, n);
      StepSlides(m, run, i - 1, n);
    }
  }

  lemma InitialList(m: set<NodeId>, c: Cluster, n: NodeId)
    requires Initial(m, c) && n in m
    ensures n in c.servers && c.servers[n].gone == 0
  {
  }

  lemma StepSlides(m: set<NodeId>, run: seq<Cluster>, i: nat, n: NodeId)
    requires IsRun(m, run) && i + 1 < |run| && n in m
    ensures n in run[i].servers && n in run[i + 1].servers && Slides(run[i].servers[n], run[i + 1].servers[n])
  {
    hide Inv, IsRun, Next, Slides;
    var h := HistoryAt(m, run, i);
    RunStep(m, run, i);
    var h' := NextInv(m, run[i], h, run[i + 1]);
  }

  /** While a list has lost nothing, an enabled event can always happen: the list suffices for it, no
      assertion fails, and what is sent is backed, if the list still has room afterwards. */
  lemma RoomSuffices(m: set<NodeId>, run: seq<Cluster>, i: nat, ev: Event)
    requires IsRun(m, run) && i < |run| && Enabled(run[i], ev) && run[i].servers[Actor(ev)].gone == 0
    ensures Possible(run[i], ev) && AssertsHold(run[i], ev)
    ensures var s' := Outcome(run[i], ev).0;
            |s'.log| <= s'.capacity ==> StepBy(run[i], ev, After(run[i], ev))
  {
    hide *;
    var c := run[i];
    var h := HistoryAt(m, run, i);
    EnabledActor(c, ev);
    FullListSuffices(m, c, h, ev);
    var h' := EventStep(m, c, h, ev);
    RoomBacks(m, h, Actor(ev), c.servers[Actor(ev)], Outcome(c, ev).0, Outcome(c, ev).1, h');
    MakesStep(c, ev);
  }

  lemma RoomBacks(m: set<NodeId>, h: History, n: NodeId, s: Server, s': Server, out: set<Packet>, h': History)
    requires StepOK(m, h, n, s, s', out, h') && s.gone == 0
    ensures |s'.log| <= s'.capacity ==> SendsBacked(s', out)
  {
    hide HistoryOK, ServerOK, LeavesAlone, Grows, SendsBacked;
  }

  lemma MakesStep(c: Cluster, ev: Event)
    requires Possible(c, ev) && AssertsHold(c, ev)
    ensures SendsBacked(Outcome(c, ev).0, Outcome(c, ev).1) ==> StepBy(c, ev, After(c, ev))
  {
    hide Enabled, ListSuffices, AssertsHold, Outcome, SendsBacked;
  }

  lemma EnabledActor(c: Cluster, ev: Event)
    requires Enabled(c, ev)
    ensures Actor(ev) in c.servers
  {
  }

  /** A sequence of enabled steps from an initial cluster in which no log outgrows its list. */
  ghost predicate BelowCapacity(m: set<NodeId>, cs: seq<Cluster>)
    ensures BelowCapacity(m, cs) ==> cs != []
  {
    && cs != [] && Initial(m, cs[0])
    && (forall i :: 0 <= i < |cs| - 1 ==> EnabledNext(cs[i], cs[i + 1]))
    && (forall i :: 0 <= i < |cs| ==> WithinCapacity(cs[i]))
  }

  /** Below capacity, every sequence of enabled steps is a run, whatever the lists are asked for and
      sent from. */
  lemma {:induction false} BelowCapacityIsRun(m: set<NodeId>, cs: seq<Cluster>)
    requires BelowCapacity(m, cs)
    ensures IsRun(m, cs)
    decreases |cs|
  {
    hide *;
    if |cs| == 1 {
      Beginning(m, cs);
    } else {
      var k := |cs| - 1;
      var run := cs[..k];
      ShorterBelow(m, cs);
      BelowCapacityIsRun(m, run);
      WithinIsStep(m, run, cs[k]);
      RunExtends(m, run, cs[k]);
      assert cs == run + [cs[k]];
    }
  }

  lemma Beginning(m: set<NodeId>, cs: seq<Cluster>)
    requires BelowCapacity(m, cs) && |cs| == 1
    ensures IsRun(m, cs)
  {
    hide Initial, WithinCapacity;
  }

  lemma ShorterBelow(m: set<NodeId>, cs: seq<Cluster>)
    requires BelowCapacity(m, cs) && 1 < |cs|
    ensures var k := |cs| - 1;
      BelowCapacity(m, cs[..k]) && EnabledNext(cs[..k][k - 1], cs[k]) && WithinCapacity(cs[k])
  {
    hide Initial, WithinCapacity, EnabledNext;
    var k := |cs| - 1;
    assert EnabledNext(cs[k - 1], cs[k - 1 + 1]);
    forall i | 0 <= i < k - 1 ensures EnabledNext(cs[..k][i], cs[..k][i + 1]) {
      assert EnabledNext(cs[i], cs[i + 1]);
    }
  }

  lemma RunExtends(m: set<NodeId>, run: seq<Cluster>, c': Cluster)
    requires IsRun(m, run) && Next(run[|run| - 1], c')
    ensures IsRun(m, run + [c'])
  {
    hide Initial, Next;
    var run' := run + [c'];
    forall i | 0 <= i < |run'| - 1 ensures Next(run'[i], run'[i + 1]) {
      assert i < |run| - 1 ==> Next(run[i], run[i + 1]);
    }
  }

  lemma WithinIsStep(m: set<NodeId>, run: seq<Cluster>, c': Cluster)
    requires IsRun(m, run) && BelowCapacity(m, run)
    requires EnabledNext(run[|run| - 1], c') && WithinCapacity(c')
    ensures Next(run[|run| - 1], c')
  {
    hide IsRun, Initial, Enabled, AssertsHold, Outcome, StepBy, Possible;
    var i := |run| - 1;
    var ev :| EnabledBy(run[i], ev, c');
    EnabledActor(run[i], ev);
    WithinLostNothing(m, run, i, Actor(ev));
    RoomSuffices(m, run, i, ev);
    assert Outcome(run[i], ev).0 == c'.servers[Actor(ev)];
    assert StepBy(run[i], ev, c');
  }

  lemma WithinLostNothing(m: set<NodeId>, run: seq<Cluster>, i: nat, n: NodeId)
    requires IsRun(m, run) && i < |run| && n in run[i].servers
    requires forall j :: 0 <= j < |run| ==> WithinCapacity(run[j])
    ensures run[i].servers[n].gone == 0
  {
    hide IsRun, Inv;
    var h := HistoryAt(m, run, i);
    ServersPresent(m, run[i], h);
    forall j | 0 <= j <= i ensures n in run[j].servers && |run[j].servers[n].log| <= run[j].servers[n].capacity {
      var hj := HistoryAt(m, run, j);
      ServersPresent(m, run[j], hj);
      assert WithinCapacity(run[j]);
    }
    NothingLost(m, run, i, n);
  }

  lemma FullListSuffices(m: set<NodeId>, c: Cluster, h: History, ev: Event)
    requires Inv(m, c, h) && Enabled(c, ev) && c.servers[Actor(ev)].gone == 0
    ensures Possible(c, ev)
  {
    var n := Actor(ev);
    var s := c.servers[n];
    assert ServerOK(m, h, n, s);
    if ev.Deliver? && ev.p.msg.AppendReply? && s.role == Leader && s.term == ev.p.msg.term {
      assert PacketOK(m, h, ev.p);
      hide Inv, HistoryOK, ServerOK;
      LeaderHears(m, h, n, s, ev.p);
    }
  }

  lemma LeaderHears(m: set<NodeId>, h: History, n: NodeId, s: Server, p: Packet)
    requires HistoryOK(m, h) && ServerOK(m, h, n, s) && s.role == Leader && s.gone == 0
    requires PacketOK(m, h, p) && p.dst == n && p.msg.AppendReply? && p.msg.term == s.term
    ensures QuorumReads(s, p.src, p.msg)
  {
    hide ServerOK;
    ReplyingPeer(m, h, n, s, p.src, p.msg);
  }

  // ----- Election safety -----

  /** What a server claims about the leader of its term is what the whole history records. */
  lemma LeaderOnRecord(m: set<NodeId>, c: Cluster, h: History, whole: History, n: NodeId)
    requires Covers(m, c, h, whole) && n in m
    ensures n in c.servers
    ensures var s := c.servers[n];
            && (s.role == Leader ==> s.term in whole.elections && whole.elections[s.term].leader == n)
            && (s.leader.Some? ==> s.term in whole.elections && whole.elections[s.term].leader == s.leader.value)
  {
    MomentServer(m, c, h, whole, n);
  }

  /** At most one node ever leads a term. */
  lemma ElectionSafety(m: set<NodeId>, run: seq<Cluster>, i: nat, j: nat, a: NodeId, b: NodeId)
    requires IsRun(m, run) && i < |run| && j < |run|
    requires a in run[i].servers && b in run[j].servers
    requires run[i].servers[a].role == Leader && run[j].servers[b].role == Leader
    requires run[i].servers[a].term == run[j].servers[b].term
    ensures a == b
  {
    var hi, hj, whole := TwoMoments(m, run, i, j);
    Members(m, run[i], hi, whole);
    Members(m, run[j], hj, whole);
    hide Covers, IsRun;
    LeaderOnRecord(m, run[i], hi, whole, a);
    LeaderOnRecord(m, run[j], hj, whole, b);
  }

  lemma Members(m: set<NodeId>, c: Cluster, h: History, whole: History)
    requires Covers(m, c, h, whole)
    ensures c.servers.Keys == m
  {
  }

  /** All servers that name a leader in the same term name the same one, and it is the one that
      leads if any does. */
  lemma LeaderHintsAgree(m: set<NodeId>, run: seq<Cluster>, i: nat, j: nat, a: NodeId, b: NodeId)
    requires IsRun(m, run) && i < |run| && j < |run|
    requires a in run[i].servers && b in run[j].servers
    requires run[i].servers[a].term == run[j].servers[b].term
    ensures run[i].servers[a].leader.Some? && run[j].servers[b].leader.Some? ==>
      run[i].servers[a].leader == run[j].servers[b].leader
    ensures run[i].servers[a].leader.Some? && run[j].servers[b].role == Leader ==>
      run[i].servers[a].leader.value == b
  {
    var hi, hj, whole := TwoMoments(m, run, i, j);
    Members(m, run[i], hi, whole);
    Members(m, run[j], hj, whole);
    hide Covers, IsRun;
    LeaderOnRecord(m, run[i], hi, whole, a);
    LeaderOnRecord(m, run[j], hj, whole, b);
  }

  /** A server grants its vote in a term to one candidate only, however often it is asked. */
  lemma OneVotePerTerm(m: set<NodeId>, run: seq<Cluster>, i: nat, j: nat, p: Packet, q: Packet)
    requires IsRun(m, run) && i < |run| && j < |run| && p in run[i].net && q in run[j].net
    requires p.msg.VoteReply? && p.msg.ballot == Granted && q.msg.VoteReply? && q.msg.ballot == Granted
    requires p.src == q.src && p.msg.term == q.msg.term
    ensures p.dst == q.dst
  {
    hide *;
    var hi, hj, whole := TwoMoments(m, run, i, j);
    GrantOnRecord(m, run[i], hi, whole, p);
    GrantOnRecord(m, run[j], hj, whole, q);
  }

  lemma GrantOnRecord(m: set<NodeId>, c: Cluster, h: History, whole: History, p: Packet)
    requires Covers(m, c, h, whole) && p in c.net && p.msg.VoteReply? && p.msg.ballot == Granted
    ensures (p.msg.term, p.src) in whole.votes && whole.votes[(p.msg.term, p.src)].candidate == p.dst
  {
    hide HistoryOK, ServerOK;
    assert PacketOK(m, h, p);
  }

  /** A server's term never falls, and while it stays in a term it keeps its vote. */
  lemma TermsAndVotesKept(m: set<NodeId>, run: seq<Cluster>, i: nat, j: nat, a: NodeId)
    requires IsRun(m, run) && i <= j < |run| && a in run[i].servers
    ensures a in run[j].servers
    ensures var s, u := run[i].servers[a], run[j].servers[a];
            && s.term <= u.term
            && (s.term == u.term && s.votedFor.Some? ==> u.votedFor == s.votedFor)
  {
    hide *;
    var h := HistoryAt(m, run, i);
    ServersPresent(m, run[i], h);
    var h' := Onward(m, run, i, h, j);
    AdvancesAt(m, run[i], run[j], a);
    ServerHere(m, run[i], h, a);
    ServerHere(m, run[j], h', a);
    VoteKept(m, h, h', a, run[i].servers[a], run[j].servers[a]);
  }

  lemma VoteKept(m: set<NodeId>, h: History, h': History, a: NodeId, s: Server, u: Server)
    requires Grows(h, h') && ServerOK(m, h, a, s) && ServerOK(m, h', a, u)
    ensures s.term == u.term && s.votedFor.Some? ==> u.votedFor == s.votedFor
  {
    hide LocalOK, LogOK, TermsAtMost, CandidateOK, LeaderOK, HintOK, KeepsAcked, Settled;
  }

  // ----- Log matching -----

  /** Two logs with an entry of the same term at the same index are identical through it. */
  lemma LogMatching(m: set<NodeId>, run: seq<Cluster>, i: nat, j: nat, a: NodeId, b: NodeId, x: nat)
    requires IsRun(m, run) && i < |run| && j < |run|
    requires a in run[i].servers && b in run[j].servers
    requires x < |run[i].servers[a].log| && x < |run[j].servers[b].log|
    requires run[i].servers[a].log[x].term == run[j].servers[b].log[x].term
    ensures run[i].servers[a].log[..x + 1] == run[j].servers[b].log[..x + 1]
  {
    hide *;
    var hi, hj, whole := TwoMoments(m, run, i, j);
    LogOnRecord(m, run[i], hi, whole, a);
    LogOnRecord(m, run[j], hj, whole, b);
    SameTermSamePrefix(whole, run[i].servers[a].log, run[j].servers[b].log, x);
  }

  lemma LogOnRecord(m: set<NodeId>, c: Cluster, h: History, whole: History, a: NodeId)
    requires Covers(m, c, h, whole) && a in c.servers
    ensures LogOK(whole, c.servers[a].log)
  {
    Members(m, c, h, whole);
    MomentServer(m, c, h, whole, a);
    hide Inv, HistoryOK, LocalOK;
    LogOKGrows(h, whole, c.servers[a].log);
  }

  // ----- Leader completeness -----

  /** What any server has committed is in the log of every leader of a later term. */
  lemma CommittedInLaterLeaders(m: set<NodeId>, run: seq<Cluster>, i: nat, j: nat, a: NodeId, b: NodeId)
    requires IsRun(m, run) && i < |run| && j < |run|
    requires a in run[i].servers && b in run[j].servers
    requires run[j].servers[b].role == Leader && run[i].servers[a].term < run[j].servers[b].term
    ensures run[i].servers[a].commit <= |run[i].servers[a].log|
    ensures run[i].servers[a].log[..run[i].servers[a].commit] <= run[j].servers[b].log
  {
    hide *;
    var hi, hj, whole := TwoMoments(m, run, i, j);
    var s, l := run[i].servers[a], run[j].servers[b];
    CommitOnRecord(m, run[i], hi, whole, a);
    ElectionOnRecord(m, run[j], hj, whole, b);
    SettledInElection(m, whole, s.term, s.log[..s.commit], l.term);
  }

  /** What a server has committed is settled in the whole history. */
  lemma CommitOnRecord(m: set<NodeId>, c: Cluster, h: History, whole: History, a: NodeId)
    requires Covers(m, c, h, whole) && a in c.servers
    ensures var s := c.servers[a];
      s.commit <= |s.log| && HistoryOK(m, whole) && Settled(m, whole, s.term, s.log[..s.commit])
  {
    Members(m, c, h, whole);
    MomentServer(m, c, h, whole, a);
    hide LogOK, BallotOK, CandidateOK, LeaderOK, KeepsAcked, ElectionOK, VoteOK, AckOK;
    var s := c.servers[a];
    SettledGrows(m, h, whole, s.term, s.term, s.log[..s.commit]);
  }

  /** A leader's log extends the one it was elected with. */
  lemma ElectionOnRecord(m: set<NodeId>, c: Cluster, h: History, whole: History, a: NodeId)
    requires Covers(m, c, h, whole) && a in c.servers && c.servers[a].role == Leader
    ensures var s := c.servers[a]; s.term in whole.elections && whole.elections[s.term].log <= s.log
  {
    Members(m, c, h, whole);
    MomentServer(m, c, h, whole, a);
    hide LocalOK, LogOK, BallotOK, CandidateOK, KeepsAcked, VoteOK, AckOK, Settled;
    assert ElectionOK(m, h, c.servers[a].term);
  }

  lemma SettledInElection(m: set<NodeId>, h: History, t: nat, p: seq<Entry>, t': nat)
    requires HistoryOK(m, h) && Settled(m, h, t, p) && t < t' && t' in h.elections
    ensures p <= h.elections[t'].log
  {
    if p != [] {
      var t0: nat, k0: nat :| SettledBy(m, h, t, p, t0, k0);
      LeaderCompleteness(m, h, t0, k0, t');
    }
  }

  // ----- State machine safety -----

  /** Committed prefixes agree, whichever servers and moments they belong to. */
  lemma CommittedAgree(m: set<NodeId>, run: seq<Cluster>, i: nat, j: nat, a: NodeId, b: NodeId)
    requires IsRun(m, run) && i < |run| && j < |run|
    requires a in run[i].servers && b in run[j].servers
    ensures var s, u := run[i].servers[a], run[j].servers[b];
            && s.commit <= |s.log| && u.commit <= |u.log|
            && (s.log[..s.commit] <= u.log[..u.commit] || u.log[..u.commit] <= s.log[..s.commit])
  {
    hide *;
    var hi, hj, whole := TwoMoments(m, run, i, j);
    CommitOnRecord(m, run[i], hi, whole, a);
    CommitOnRecord(m, run[j], hj, whole, b);
    var s, u := run[i].servers[a], run[j].servers[b];
    SettledAgree(m, whole, s.term, s.log[..s.commit], u.term, u.log[..u.commit]);
  }

  /** What one server handed to its state machine is a prefix of what the other did, or the
      other way round: no two servers ever apply different entries at the same index. */
  lemma StateMachineSafety(m: set<NodeId>, run: seq<Cluster>, i: nat, j: nat, a: NodeId, b: NodeId)
    requires IsRun(m, run) && i < |run| && j < |run|
    requires a in run[i].servers && b in run[j].servers
    ensures run[i].servers[a].fed <= run[j].servers[b].fed || run[j].servers[b].fed <= run[i].servers[a].fed
  {
    CommittedAgree(m, run, i, j, a, b);
    FedIsLog(m, run, i, a);
    FedIsLog(m, run, j, b);
    FedPrefixes(run[i].servers[a], run[j].servers[b]);
  }

  lemma FedPrefixes(s: Server, u: Server)
    requires s.applied <= s.commit <= |s.log| && s.fed == HandedOver(s.log[..s.applied])
    requires u.applied <= u.commit <= |u.log| && u.fed == HandedOver(u.log[..u.applied])
    requires s.log[..s.commit] <= u.log[..u.commit] || u.log[..u.commit] <= s.log[..s.commit]
    ensures s.fed <= u.fed || u.fed <= s.fed
  {
    forall k | 0 <= k < s.applied && k < u.applied ensures s.log[k] == u.log[k] {
      assert s.log[k] == s.log[..s.commit][k] && u.log[k] == u.log[..u.commit][k];
    }
  }

  /** A server hands over entries 1, 2, 3, ... in order, never beyond its commit index. The callback
      is told 0, 1, 2, ...: each time the index of the entry less one, never the index itself. */
  lemma ApplyDiscipline(m: set<NodeId>, run: seq<Cluster>, i: nat, a: NodeId)
    requires IsRun(m, run) && i < |run| && a in run[i].servers
    ensures var s := run[i].servers[a];
            && s.applied <= s.commit <= |s.log| && |s.fed| == s.applied
            && forall k :: 0 <= k < s.applied ==> s.fed[k].entry == s.log[k] && s.fed[k].idx == k != k + 1
  {
    FedIsLog(m, run, i, a);
  }

  lemma FedIsLog(m: set<NodeId>, run: seq<Cluster>, i: nat, a: NodeId)
    requires IsRun(m, run) && i < |run| && a in run[i].servers
    ensures var s := run[i].servers[a];
            s.applied <= s.commit <= |s.log| && s.fed == HandedOver(s.log[..s.applied])
  {
    var h := HistoryAt(m, run, i);
    GrowsReflexive(h);
    MomentServer(m, run[i], h, h, a);
  }

  /** What an event does to a server whose list has lost the next entry to apply. */
  lemma StuckEvent(m: set<NodeId>, c: Cluster, h: History, ev: Event, a: NodeId)
    requires Inv(m, c, h) && Enabled(c, ev) && AssertsHold(c, ev) && a in c.servers
    requires c.servers[a].applied < c.servers[a].gone
    ensures a in After(c, ev).servers && After(c, ev).servers[a].fed == c.servers[a].fed
      && After(c, ev).servers[a].applied == c.servers[a].applied
  {
    hide Inv, HistoryOK, ServerOK, PacketOK, Periodic, ApplyAll, RecvEntry, RecvAppendReply, RecvVoteReply, RecvRequestVote,
         RecvAppendEntries, AppendReplyAsserts, RequestVoteAsserts, AppendEntriesAsserts, NoNullRead;
    if a == Actor(ev) {
      var s := c.servers[a];
      ServerLocal(m, c, h, a);
      match ev
      case PeriodicAt(_, msec, rnd, shutdown) => StuckPeriod(m, a, s, msec, rnd, shutdown);
      case ClientEntry(_, e) => EntryKeepsFed(s, e);
      case ApplyAllAt(_, quota) => StuckApplyAll(s, quota);
      case Deliver(p, chain, pop, ready, rnd) =>
        match p.msg
        case RequestVote(_, _, _, _) => RequestKeepsFed(s, p.src, p.msg, rnd);
        case VoteReply(_, _) => VoteKeepsFed(s, p.src, p.msg, rnd);
        case AppendEntries(_, _, _, _, _, _) => AppendKeepsFed(s, p.src, Cut(p.msg, chain), pop, rnd);
        case AppendReply(_, _, _, _) => ReplyKeepsFed(s, p.src, p.msg, ready, rnd);
    }
  }

  lemma ServerLocal(m: set<NodeId>, c: Cluster, h: History, a: NodeId)
    requires Inv(m, c, h) && a in c.servers
    ensures 2 <= |m| && LocalOK(m, a, c.servers[a]) && NextPositive(c.servers[a].peers)
    ensures c.servers[a].applied <= c.servers[a].commit && c.servers[a].gone <= |c.servers[a].log|
  {
    assert ServerOK(m, h, a, c.servers[a]);
    AllVote(m, a, c.servers[a]);
  }

  predicate SameFed(s: Server, s': Server) {
    s'.fed == s.fed && s'.applied == s.applied
  }

  lemma StuckEntry(s: Server, shutdown: bool)
    requires s.applied < s.gone
    ensures ApplyEntry(s, shutdown).server == s && ApplyEntry(s, shutdown).err == -1
  {
  }

  lemma StuckApplyAll(s: Server, quota: nat)
    requires s.applied < s.gone && s.applied <= s.commit
    ensures SameFed(s, ApplyAll(s, quota).server)
  {
    StuckEntry(s, quota == 0);
  }

  lemma StuckPeriod(m: set<NodeId>, a: NodeId, s: Server, msec: nat, rnd: nat, shutdown: bool)
    requires 2 <= |m| && LocalOK(m, a, s) && NextPositive(s.peers) && s.applied < s.gone
    ensures SameFed(s, Periodic(s, msec, rnd, shutdown).server)
  {
    hide Periodic, Timers, ApplyEntry, LocalOK;
    var s1 := s.(elapsed := s.elapsed + msec);
    PeriodicParts(m, a, s, msec, rnd, shutdown);
    TimersKeepFed(s1, rnd);
    StuckEntry(Timers(s1, rnd).server, shutdown);
  }

  lemma TimersKeepFed(s: Server, rnd: nat)
    requires NextPositive(s.peers)
    ensures var s' := Timers(s, rnd).server; SameFed(s, s') && s'.gone == s.gone && s'.log == s.log
  {
    hide Broadcast;
  }

  lemma EntryKeepsFed(s: Server, e: Entry)
    requires NextPositive(s.peers)
    ensures SameFed(s, RecvEntry(s, e).server) && s.log <= RecvEntry(s, e).server.log
  {
    hide Broadcast;
  }

  lemma RequestKeepsFed(s: Server, from: NodeId, rv: Message, rnd: nat)
    requires rv.RequestVote?
    ensures SameFed(s, RecvRequestVote(s, from, rv, rnd).server) && RecvRequestVote(s, from, rv, rnd).server.log == s.log
  {
    hide ShouldGrantVote;
  }

  lemma VoteKeepsFed(s: Server, from: NodeId, r: Message, rnd: nat)
    requires r.VoteReply? && NextPositive(s.peers)
    ensures SameFed(s, RecvVoteReply(s, from, r, rnd).server) && RecvVoteReply(s, from, r, rnd).server.log == s.log
  {
    hide Broadcast, VotesIsMajority;
  }

  lemma AppendKeepsFed(s: Server, from: NodeId, ae: Message, pop: int, rnd: nat)
    requires ae.AppendEntries?
    ensures SameFed(s, RecvAppendEntries(s, from, ae, pop, rnd).server)
    ensures pop != 0 ==> s.log <= RecvAppendEntries(s, from, ae, pop, rnd).server.log
  {
    hide MatchFrom, Passes;
  }

  lemma ReplyKeepsFed(s: Server, from: NodeId, r: Message, ready: bool, rnd: nat)
    requires r.AppendReply? && NextPositive(s.peers) && AppendReplyAsserts(s, from, r)
    ensures SameFed(s, RecvAppendReply(s, from, r, ready, rnd).server) && RecvAppendReply(s, from, r, ready, rnd).server.log == s.log
  {
    hide Acknowledged, BackOff, AppendFor, Replace, VotingIds, Holders;
  }

  /** A server whose list has lost the next entry to apply never applies anything again. */
  lemma {:induction false} StuckForever(m: set<NodeId>, run: seq<Cluster>, i: nat, j: nat, a: NodeId)
    requires IsRun(m, run) && i <= j < |run| && a in run[i].servers && run[i].servers[a].applied < run[i].servers[a].gone
    ensures a in run[j].servers && run[j].servers[a].fed == run[i].servers[a].fed
    ensures run[j].servers[a].applied < run[j].servers[a].gone
    decreases j
  {
    hide IsRun, Inv, Next;
    if i < j {
      StuckForever(m, run, i, j - 1, a);
      var h := HistoryAt(m, run, j - 1);
      ServersPresent(m, run[j - 1], h);
      StepSlides(m, run, j - 1, a);
      StuckNext(m, run, j - 1, h, a);
    }
  }

  lemma StuckNext(m: set<NodeId>, run: seq<Cluster>, i: nat, h: History, a: NodeId)
    requires IsRun(m, run) && i + 1 < |run| && Inv(m, run[i], h) && a in run[i].servers
    requires run[i].servers[a].applied < run[i].servers[a].gone
    ensures a in run[i + 1].servers && SameFed(run[i].servers[a], run[i + 1].servers[a])
  {
    RunStep(m, run, i);
    hide IsRun, Inv, Enabled, ListSuffices, AssertsHold, After, Outcome;
    var ev :| StepBy(run[i], ev, run[i + 1]);
    StuckEvent(m, run[i], h, ev, a);
  }

  lemma AgreedPrefixes(s: Server, u: Server)
    requires s.applied <= s.commit <= |s.log| && s.fed == HandedOver(s.log[..s.applied])
    requires u.applied <= u.commit <= |u.log| && u.fed == HandedOver(u.log[..u.applied])
    requires s.commit <= u.commit && s.applied <= u.applied
    requires s.log[..s.commit] <= u.log[..u.commit] || u.log[..u.commit] <= s.log[..s.commit]
    ensures s.log[..s.commit] == u.log[..s.commit] && s.fed <= u.fed
  {
    assert s.log[..s.commit] <= u.log[..u.commit];
    assert u.log[..u.commit][..s.commit] == u.log[..s.commit];
    assert s.log[..s.commit][..s.applied] == s.log[..s.applied];
  }

  /** Committed and applied entries of a server stay: the commit index never goes down, what is
      below it never changes, and what was applied is never applied again or differently. */
  lemma CommittedStays(m: set<NodeId>, run: seq<Cluster>, i: nat, j: nat, a: NodeId)
    requires IsRun(m, run) && i <= j < |run| && a in run[i].servers
    ensures a in run[j].servers
    ensures var s, u := run[i].servers[a], run[j].servers[a];
            && s.commit <= u.commit <= |u.log| && s.commit <= |s.log|
            && s.log[..s.commit] == u.log[..s.commit]
            && s.fed <= u.fed
  {
    var h := HistoryAt(m, run, i);
    ServersPresent(m, run[i], h);
    hide Inv, IsRun, Grows, Advances;
    var h' := Onward(m, run, i, h, j);
    AdvancesAt(m, run[i], run[j], a);
    CommittedAgree(m, run, i, j, a, a);
    FedIsLog(m, run, i, a);
    FedIsLog(m, run, j, a);
    AgreedPrefixes(run[i].servers[a], run[j].servers[a]);
  }

  lemma AdvancesAt(m: set<NodeId>, c: Cluster, c': Cluster, a: NodeId)
    requires Advances(m, c, c') && a in m
    ensures a in c.servers && a in c'.servers && c.servers[a].term <= c'.servers[a].term
    ensures c.servers[a].commit <= c'.servers[a].commit && c.servers[a].applied <= c'.servers[a].applied
  {
  }

  /** A leader only appends: its log only grows while it leads a term. */
  lemma LeaderAppendsOnly(m: set<NodeId>, run: seq<Cluster>, i: nat, j: nat, a: NodeId)
    requires IsRun(m, run) && i <= j < |run| && a in run[i].servers && a in run[j].servers
    requires run[i].servers[a].role == Leader && run[j].servers[a].role == Leader
    requires run[i].servers[a].term == run[j].servers[a].term
    ensures run[i].servers[a].log <= run[j].servers[a].log
  {
    hide *;
    var h := HistoryAt(m, run, i);
    ServersPresent(m, run[i], h);
    var h' := Onward(m, run, i, h, j);
    ServerHere(m, run[i], h, a);
    ServerHere(m, run[j], h', a);
    LogExtended(m, h, h', a, run[i].servers[a], run[j].servers[a]);
  }

  lemma LogExtended(m: set<NodeId>, h: History, h': History, a: NodeId, s: Server, u: Server)
    requires Grows(h, h') && ServerOK(m, h, a, s) && ServerOK(m, h', a, u)
    requires s.role == Leader && u.role == Leader && s.term == u.term
    ensures s.log <= u.log
  {
    hide LocalOK, LogOK, TermsAtMost, CandidateOK, BallotOK, HintOK, KeepsAcked, Settled;
  }

  // ----- The client's answer -----

  /** Once a response is reported committed, that server reports it committed ever after for as long
      as its list holds the entry, then not found, and never superseded; and no server ever applies a
      different entry at its index. */
  lemma AnswerIsDurable(m: set<NodeId>, run: seq<Cluster>, i: nat, j: nat, k: nat, a: NodeId, b: NodeId, r: EntryResponse)
    requires IsRun(m, run) && i <= j < |run| && k < |run|
    requires a in run[i].servers && b in run[k].servers
    requires ResponseCommitted(run[i].servers[a], r) == 1
    ensures a in run[j].servers
    ensures ResponseCommitted(run[j].servers[a], r) == if run[j].servers[a].gone < r.idx then 1 else 0
    ensures r.idx <= |run[k].servers[b].fed| ==> run[k].servers[b].fed[r.idx - 1].entry == run[i].servers[a].log[r.idx - 1]
  {
    hide *;
    CommittedStays(m, run, i, j, a);
    CommittedAgree(m, run, i, k, a, b);
    ApplyDiscipline(m, run, k, b);
    AnswerStays(run[i].servers[a], run[j].servers[a], r);
    SameApplied(run[i].servers[a], run[k].servers[b], r);
  }

  lemma AnswerStays(s: Server, u: Server, r: EntryResponse)
    requires ResponseCommitted(s, r) == 1 && s.commit <= u.commit <= |u.log| && s.commit <= |s.log|
    requires s.log[..s.commit] == u.log[..s.commit]
    ensures 1 <= r.idx <= s.commit && ResponseCommitted(u, r) == if u.gone < r.idx then 1 else 0
  {
    assert u.log[r.idx - 1] == u.log[..s.commit][r.idx - 1] == s.log[..s.commit][r.idx - 1];
  }

  lemma SameApplied(s: Server, v: Server, r: EntryResponse)
    requires 1 <= r.idx <= s.commit <= |s.log| && v.applied <= v.commit <= |v.log| && |v.fed| == v.applied
    requires forall k :: 0 <= k < v.applied ==> v.fed[k].entry == v.log[k]
    requires s.log[..s.commit] <= v.log[..v.commit] || v.log[..v.commit] <= s.log[..s.commit]
    ensures r.idx <= |v.fed| ==> v.fed[r.idx - 1].entry == s.log[r.idx - 1]
  {
    if r.idx <= |v.fed| {
      assert v.fed[r.idx - 1].entry == v.log[..v.commit][r.idx - 1];
      assert s.log[r.idx - 1] == s.log[..s.commit][r.idx - 1];
    }
  }

  lemma EntryStored(c: Cluster, c': Cluster, a: NodeId, e: Entry)
    requires StepBy(c, ClientEntry(a, e), c') && c.servers[a].role == Leader
    ensures a in c'.servers
    ensures var s := c.servers[a];
      var r := RecvEntryResponse(s, e);
      && r.id == e.id && r.idx == |s.log| + 1 && r.term == s.term
      && c'.servers[a].log == s.log + [e.(term := s.term)]
  {
    hide Broadcast;
  }

  /** What the response to a client's entry is good for: wherever and whenever it is later reported
      committed, the log there has that very entry at its index, and every server that applies
      something at that index, ever, applies that entry. */
  lemma AnswerNamesEntry(m: set<NodeId>, run: seq<Cluster>, i: nat, a: NodeId, e: Entry, j: nat, b: NodeId, k: nat, d: NodeId)
    requires IsRun(m, run) && i + 1 < |run| && j < |run| && k < |run|
    requires StepBy(run[i], ClientEntry(a, e), run[i + 1]) && run[i].servers[a].role == Leader
    requires b in run[j].servers && d in run[k].servers
    requires ResponseCommitted(run[j].servers[b], RecvEntryResponse(run[i].servers[a], e)) == 1
    ensures var s := run[i].servers[a];
      var r := RecvEntryResponse(s, e);
      && 1 <= r.idx <= |run[j].servers[b].log| && run[j].servers[b].log[r.idx - 1] == e.(term := s.term)
      && (r.idx <= |run[k].servers[d].fed| ==> run[k].servers[d].fed[r.idx - 1].entry == e.(term := s.term))
  {
    EntryStored(run[i], run[i + 1], a, e);
    hide IsRun, StepBy;
    var s := run[i].servers[a];
    var x := |s.log|;
    LogMatching(m, run, i + 1, j, a, b, x);
    assert run[j].servers[b].log[x] == run[j].servers[b].log[..x + 1][x] == run[i + 1].servers[a].log[..x + 1][x];
    AnswerIsDurable(m, run, j, j, k, b, d, RecvEntryResponse(s, e));
  }

  /** Once a response is reported superseded at an index that is committed, no server ever reports it
      committed, and none ever applies an entry of its term there. */
  lemma SupersededIsFinal(m: set<NodeId>, run: seq<Cluster>, i: nat, k: nat, a: NodeId, b: NodeId, r: EntryResponse)
    requires IsRun(m, run) && i < |run| && k < |run| && a in run[i].servers && b in run[k].servers
    requires ResponseCommitted(run[i].servers[a], r) == -1 && r.idx <= run[i].servers[a].commit
    ensures ResponseCommitted(run[k].servers[b], r) != 1
    ensures r.idx <= |run[k].servers[b].fed| ==> run[k].servers[b].fed[r.idx - 1].entry.term != r.term
  {
    hide *;
    CommittedAgree(m, run, i, k, a, b);
    ApplyDiscipline(m, run, k, b);
    OtherTermThere(run[i].servers[a], run[k].servers[b], r);
  }

  lemma OtherTermThere(s: Server, v: Server, r: EntryResponse)
    requires ResponseCommitted(s, r) == -1 && r.idx <= s.commit <= |s.log|
    requires v.applied <= v.commit <= |v.log| && |v.fed| == v.applied
    requires forall k :: 0 <= k < v.applied ==> v.fed[k].entry == v.log[k]
    requires s.log[..s.commit] <= v.log[..v.commit] || v.log[..v.commit] <= s.log[..s.commit]
    ensures 1 <= r.idx && ResponseCommitted(v, r) != 1
    ensures r.idx <= |v.fed| ==> v.fed[r.idx - 1].entry.term != r.term
  {
    if r.idx <= v.commit {
      assert s.log[r.idx - 1] == s.log[..s.commit][r.idx - 1] == v.log[..v.commit][r.idx - 1] == v.log[r.idx - 1];
    }
  }

  // ----- Ballots -----

  /** No vote reply among `out` takes its receiver for a stranger. */
  ghost predicate NoStranger(out: set<Packet>) {
    forall q :: q in out && q.msg.VoteReply? ==> q.msg.ballot != UnknownNode
  }

  lemma LettersNoStranger(s: Server, ps: seq<Peer>, w: Wave)
    requires NextPositive(ps)
    ensures NoStranger(set q | q in Broadcast(s, ps, w))
  {
    forall q | q in Broadcast(s, ps, w) ensures !q.msg.VoteReply? {
      BroadcastLetters(s, ps, w, q);
    }
  }

  lemma PeriodNoStranger(m: set<NodeId>, a: NodeId, s: Server, msec: nat, rnd: nat, shutdown: bool)
    requires 2 <= |m| && LocalOK(m, a, s) && NextPositive(s.peers)
    ensures NoStranger(set q | q in Periodic(s, msec, rnd, shutdown).out)
  {
    hide Periodic, Broadcast, ApplyEntry, Tick, NoStranger;
    PeriodicParts(m, a, s, msec, rnd, shutdown);
    var s1 := s.(elapsed := s.elapsed + msec);
    TimersFire(s1, rnd);
    var e := Timers(s1, rnd);
    if NextPositive(e.server.peers) {
      LettersNoStranger(e.server, e.server.peers, Heartbeat);
      LettersNoStranger(e.server, e.server.peers, Canvass);
    }
    NothingNoStranger();
  }

  lemma NothingNoStranger()
    ensures NoStranger({}) && NoStranger(set q | q in [])
  {
  }

  lemma EntryNoStranger(s: Server, e: Entry)
    requires NextPositive(s.peers)
    ensures NoStranger(set q | q in RecvEntry(s, e).out)
  {
    hide Broadcast;
    var s1 := Grown(s, [e.(term := s.term)]);
    LettersNoStranger(s1, s1.peers, NewEntry);
  }

  lemma VoteNoStranger(s: Server, from: NodeId, r: Message, rnd: nat)
    requires r.VoteReply? && NextPositive(s.peers)
    ensures NoStranger(set q | q in RecvVoteReply(s, from, r, rnd).out)
  {
    hide Broadcast, VotesIsMajority, NoStranger, ResetProgress;
    NothingNoStranger();
    MarkedPositive(s, from, rnd);
    var e := BecomeLeader(RecordSupport(s, from));
    LeaderCrowned(RecordSupport(s, from));
    LettersNoStranger(e.server, e.server.peers, Heartbeat);
  }

  lemma ReplyNoStranger(s: Server, from: NodeId, r: Message, ready: bool, rnd: nat)
    requires r.AppendReply? && NextPositive(s.peers) && AppendReplyAsserts(s, from, r)
    ensures NoStranger(set q | q in RecvAppendReply(s, from, r, ready, rnd).out)
  {
    hide Acknowledged, BackOff, Replace, VotingIds, Holders;
  }

  /** A request from a member of the cluster is known. */
  lemma RequestNoStranger(m: set<NodeId>, a: NodeId, s: Server, from: NodeId, rv: Message, rnd: nat)
    requires rv.RequestVote? && LocalOK(m, a, s) && from in m
    ensures RecvRequestVote(s, from, rv, rnd).reply.VoteReply? && RecvRequestVote(s, from, rv, rnd).reply.ballot != UnknownNode
  {
    hide RecvRequestVote, DistinctIds, WindowOK;
    VoteRequestAnswered(s, from, rv, rnd);
    var p :| p in s.peers && p.id == from;
  }

  lemma AppendNoStranger(s: Server, from: NodeId, ae: Message, pop: int, rnd: nat)
    requires ae.AppendEntries?
    ensures RecvAppendEntries(s, from, ae, pop, rnd).reply.AppendReply?
  {
    hide MatchFrom, Passes;
  }

  lemma EventNoStranger(m: set<NodeId>, c: Cluster, h: History, ev: Event)
    requires Inv(m, c, h) && Possible(c, ev) && AssertsHold(c, ev)
    ensures NoStranger(Outcome(c, ev).1)
  {
    hide Inv, HistoryOK, ServerOK, PacketOK, Periodic, ApplyAll, RecvEntry, RecvAppendReply, RecvVoteReply, RecvRequestVote,
         RecvAppendEntries, AppendReplyAsserts, RequestVoteAsserts, AppendEntriesAsserts, NoNullRead, Anchored;
    ActingServer(m, c, h, ev);
    var n := Actor(ev);
    var s := c.servers[n];
    ActingLocal(m, h, n, s);
    match ev
    case PeriodicAt(_, msec, rnd, shutdown) => PeriodNoStranger(m, n, s, msec, rnd, shutdown);
    case ClientEntry(_, e) => EntryNoStranger(s, e);
    case ApplyAllAt(_, quota) => ApplyAllServer(m, h, n, s, quota);
    case Deliver(p, chain, pop, ready, rnd) =>
      match p.msg
      case RequestVote(_, _, _, _) =>
        SenderMember(m, h, p);
        RequestNoStranger(m, n, s, p.src, p.msg, rnd);
      case VoteReply(_, _) => VoteNoStranger(s, p.src, p.msg, rnd);
      case AppendEntries(_, _, _, _, _, _) => AppendNoStranger(s, p.src, Cut(p.msg, chain), pop, rnd);
      case AppendReply(_, _, _, _) => ReplyNoStranger(s, p.src, p.msg, ready, rnd);
  }

  lemma SenderMember(m: set<NodeId>, h: History, p: Packet)
    requires PacketOK(m, h, p)
    ensures p.src in m
  {
  }

  /** In a cluster of fixed membership nobody is ever told that it is unknown. */
  lemma {:induction false} NobodyIsUnknown(m: set<NodeId>, run: seq<Cluster>, i: nat, p: Packet)
    requires IsRun(m, run) && i < |run| && p in run[i].net && p.msg.VoteReply?
    ensures p.msg.ballot != UnknownNode
    decreases i
  {
    hide IsRun, Inv, NoStranger;
    if i == 0 {
      NoPacketYet(m, run);
    } else if p in run[i - 1].net {
      NobodyIsUnknown(m, run, i - 1, p);
    } else {
      var h := HistoryAt(m, run, i - 1);
      NewPacketKnown(m, run, i - 1, h, p);
    }
  }

  lemma NoPacketYet(m: set<NodeId>, run: seq<Cluster>)
    requires IsRun(m, run)
    ensures run[0].net == {}
  {
    hide Next;
  }

  lemma NewPacketKnown(m: set<NodeId>, run: seq<Cluster>, i: nat, h: History, p: Packet)
    requires IsRun(m, run) && i + 1 < |run| && Inv(m, run[i], h) && p in run[i + 1].net && p !in run[i].net && p.msg.VoteReply?
    ensures p.msg.ballot != UnknownNode
  {
    RunStep(m, run, i);
    hide IsRun, Inv, Enabled, ListSuffices, AssertsHold, Outcome, SendsBacked;
    var ev :| StepBy(run[i], ev, run[i + 1]);
    EventNoStranger(m, run[i], h, ev);
  }

  // ----- Assertions -----

  /** No assertion of any handler fails in any run. */
  lemma NoAssertionFails(m: set<NodeId>, run: seq<Cluster>, i: nat, ev: Event)
    requires IsRun(m, run) && i < |run| && Possible(run[i], ev)
    ensures AssertsHold(run[i], ev)
  {
    var h := HistoryAt(m, run, i);
    hide Inv, AssertsHold, StepOK;
    var h' := EventStep(m, run[i], h, ev);
  }

  // ----- Replication -----

  lemma AckedPeerAgrees(m: set<NodeId>, h: History, a: NodeId, s: Server, n: NodeId, u: Server, k: nat)
    requires HistoryOK(m, h) && ServerOK(m, h, a, s) && s.role == Leader && ServerOK(m, h, n, u)
    requires (s.term, n) in h.acks && k <= h.acks[(s.term, n)]
    ensures s.term <= u.term && k <= |s.log|
    ensures u.term == s.term ==> s.log[..k] <= u.log
  {
    assert AckOK(m, h, s.term, n);
    if u.term == s.term {
      assert Keeps(h, s.term, k, u.term + 1, u.log);
    }
  }

  /** Bookkeeping of a leader, and what it is worth: a peer still in the leader's term agrees
      with the leader through its match index. */
  lemma QuorumSoundness(m: set<NodeId>, run: seq<Cluster>, i: nat, a: NodeId, p: Peer)
    requires IsRun(m, run) && i < |run| && a in run[i].servers
    requires run[i].servers[a].role == Leader && p in run[i].servers[a].peers && p.id != a
    ensures var s := run[i].servers[a];
            && 1 <= p.nextIdx <= |s.log| + 1
            && (p.matchIdx == 0 || p.matchIdx == p.nextIdx - 1)
            && p.id in run[i].servers
            && var u := run[i].servers[p.id];
            && (0 < p.matchIdx ==> s.term <= u.term)
            && (0 < p.matchIdx && u.term == s.term ==> s.log[..p.matchIdx] <= u.log)
  {
    var h := HistoryAt(m, run, i);
    ServersPresent(m, run[i], h);
    GrowsReflexive(h);
    var s := run[i].servers[a];
    assert Covers(m, run[i], h, h);
    hide HistoryOK, Inv, IsRun, Grows;
    MomentServer(m, run[i], h, h, a);
    assert ProgressOK(h, s, p);
    assert p.id in Ids(s.peers);
    MomentServer(m, run[i], h, h, p.id);
    hide ServerOK;
    if 0 < p.matchIdx {
      AckedPeerAgrees(m, h, a, s, p.id, run[i].servers[p.id], p.matchIdx);
    }
  }

  /** The commit index is at an entry of the current term that a majority is known to hold. */
  predicate QuorumPoint(a: NodeId, s: Server) {
    && 1 <= s.commit <= |s.log| && s.log[s.commit - 1].term == s.term
    && |VotingIds(s.peers)| / 2 < 1 + |Holders(s.peers, a, s.commit)|
  }

  lemma ReplyMovesCommit(s: Server, from: NodeId, r: Message, ready: bool, rnd: nat)
    requires r.AppendReply? && NextPositive(s.peers) && AppendReplyAsserts(s, from, r)
    ensures var s' := RecvAppendReply(s, from, r, ready, rnd).server;
      s'.commit != s.commit ==> QuorumPoint(s.id, s')
  {
    hide Acknowledged, BackOff, AppendFor, Replace, VotingIds, Holders;
  }

  lemma PeriodKeepsCommit(m: set<NodeId>, n: NodeId, s: Server, msec: nat, rnd: nat, shutdown: bool)
    requires 2 <= |m| && LocalOK(m, n, s) && NextPositive(s.peers)
    ensures Periodic(s, msec, rnd, shutdown).server.commit == s.commit
  {
    PeriodicParts(m, n, s, msec, rnd, shutdown);
    hide Periodic;
  }

  lemma VoteReplyKeepsCommit(s: Server, from: NodeId, r: Message, rnd: nat)
    requires r.VoteReply? && NextPositive(s.peers)
    ensures RecvVoteReply(s, from, r, rnd).server.commit == s.commit
  {
  }

  /** A leader hears no AppendEntries of its own term. */
  lemma NoRival(m: set<NodeId>, h: History, a: NodeId, s: Server, p: Packet)
    requires HistoryOK(m, h) && ServerOK(m, h, a, s) && s.role == Leader && PacketOK(m, h, p) && p.dst == a
    requires p.msg.AppendEntries?
    ensures p.msg.term != s.term
  {
  }

  lemma OtherTermAppend(s: Server, from: NodeId, ae: Message, pop: int, rnd: nat)
    requires ae.AppendEntries? && ae.term != s.term
    ensures var s' := RecvAppendEntries(s, from, ae, pop, rnd).server; s'.term == s.term ==> s'.commit == s.commit
  {
  }

  /** Only a reply of a peer moves a leader's commit index within its term, by the quorum rule. */
  lemma LeaderCommitMoves(m: set<NodeId>, c: Cluster, h: History, ev: Event, a: NodeId)
    requires Inv(m, c, h) && Possible(c, ev) && AssertsHold(c, ev) && a in m
    requires a in c.servers && c.servers[a].role == Leader
    requires var s' := After(c, ev).servers[a];
      s'.role == Leader && s'.term == c.servers[a].term && s'.commit != c.servers[a].commit
    ensures QuorumPoint(a, After(c, ev).servers[a])
  {
    hide Inv, HistoryOK, ServerOK, PacketOK, QuorumPoint, Periodic, ApplyAll, RecvAppendReply, RecvVoteReply,
         AppendReplyAsserts, RequestVoteAsserts, AppendEntriesAsserts, NoNullRead, Merge, FollowCommit;
    ActingServer(m, c, h, ev);
    var s := c.servers[a];
    ActingLocal(m, h, Actor(ev), c.servers[Actor(ev)]);
    match ev
    case PeriodicAt(_, msec, rnd, shutdown) => PeriodKeepsCommit(m, a, s, msec, rnd, shutdown);
    case ClientEntry(_, e) =>
    case ApplyAllAt(_, quota) => ApplyAllServer(m, h, a, s, quota);
    case Deliver(p, _, _, ready, rnd) =>
      match p.msg
      case RequestVote(_, _, _, _) =>
      case VoteReply(_, _) => VoteReplyKeepsCommit(s, p.src, p.msg, rnd);
      case AppendEntries(_, _, _, _, _, _) =>
        NoRival(m, h, a, s, p);
        OtherTermAppend(s, p.src, Cut(p.msg, ev.chain), ev.pop, ev.rnd);
      case AppendReply(_, _, _, _) => ReplyMovesCommit(s, p.src, p.msg, ready, rnd);
  }

  /** Whenever a leader's commit index moves while it leads, it moves to an entry of the leader's
      term, and a strict majority holds the log through it: each of them has it now, unless it has
      gone on to a later term. */
  lemma CommitNeedsQuorum(m: set<NodeId>, run: seq<Cluster>, i: nat, a: NodeId) returns (q: set<NodeId>)
    requires IsRun(m, run) && i + 1 < |run| && a in run[i].servers && a in run[i + 1].servers
    requires var s, s' := run[i].servers[a], run[i + 1].servers[a];
      s.role == Leader && s'.role == Leader && s'.term == s.term && s'.commit != s.commit
    ensures var s' := run[i + 1].servers[a];
      && 1 <= s'.commit <= |s'.log| && s'.log[s'.commit - 1].term == s'.term
      && Majority(m, q) && a in q
      && forall v :: v in q ==> v in run[i + 1].servers && HoldsThrough(run[i + 1].servers[v], s'.term, s'.log[..s'.commit])
  {
    hide *;
    var h := HistoryAt(m, run, i);
    ServersPresent(m, run[i], h);
    var h' := HistoryAt(m, run, i + 1);
    CommitMoveNext(m, run, i, h, a);
    q := QuorumHolds(m, run[i + 1], h', a);
    QuorumPointIs(a, run[i + 1].servers[a]);
  }

  lemma CommitMoveNext(m: set<NodeId>, run: seq<Cluster>, i: nat, h: History, a: NodeId)
    requires IsRun(m, run) && i + 1 < |run| && Inv(m, run[i], h) && a in m && a in run[i].servers && a in run[i + 1].servers
    requires var s, s' := run[i].servers[a], run[i + 1].servers[a];
      s.role == Leader && s'.role == Leader && s'.term == s.term && s'.commit != s.commit
    ensures QuorumPoint(a, run[i + 1].servers[a])
  {
    RunStep(m, run, i);
    hide IsRun, Inv, After, Outcome, Enabled, ListSuffices, AssertsHold, QuorumPoint;
    var ev :| StepBy(run[i], ev, run[i + 1]);
    LeaderCommitMoves(m, run[i], h, ev, a);
  }

  lemma QuorumPointIs(a: NodeId, s: Server)
    requires QuorumPoint(a, s)
    ensures 1 <= s.commit <= |s.log| && s.log[s.commit - 1].term == s.term
  {
    hide VotingIds, Holders;
  }

  /** In a later term, or holding `p`. */
  predicate HoldsThrough(u: Server, t: nat, p: seq<Entry>) {
    t <= u.term && (u.term == t ==> p <= u.log)
  }

  lemma QuorumHolds(m: set<NodeId>, c: Cluster, h: History, a: NodeId) returns (q: set<NodeId>)
    requires Inv(m, c, h) && a in m && a in c.servers && c.servers[a].role == Leader && QuorumPoint(a, c.servers[a])
    ensures var s := c.servers[a];
      && Majority(m, q) && a in q
      && forall v :: v in q ==> v in c.servers && HoldsThrough(c.servers[v], s.term, s.log[..s.commit])
  {
    hide Inv, HistoryOK, ServerOK;
    ServerHere(m, c, h, a);
    var s := c.servers[a];
    q := HolderQuorum(m, h, a, s);
    forall v | v in q ensures v in c.servers && HoldsThrough(c.servers[v], s.term, s.log[..s.commit]) {
      ServerHere(m, c, h, v);
      AckedPeerAgrees(m, h, a, s, v, c.servers[v], s.commit);
    }
  }

  lemma ServerHere(m: set<NodeId>, c: Cluster, h: History, n: NodeId)
    requires Inv(m, c, h) && n in m
    ensures n in c.servers && HistoryOK(m, h) && ServerOK(m, h, n, c.servers[n])
  {
    assert ServerOK(m, h, n, c.servers[n]);
  }

  lemma HolderQuorum(m: set<NodeId>, h: History, a: NodeId, s: Server) returns (q: set<NodeId>)
    requires ServerOK(m, h, a, s) && s.role == Leader && QuorumPoint(a, s)
    ensures Majority(m, q) && a in q
    ensures forall v :: v in q ==> v in m && (s.term, v) in h.acks && s.commit <= h.acks[(s.term, v)]
  {
    AllVote(m, a, s);
    q := Holders(s.peers, a, s.commit) + {a};
    assert q <= Ids(s.peers);
    forall v | v in q ensures (s.term, v) in h.acks && s.commit <= h.acks[(s.term, v)] {
      if v != a {
        var p :| p in s.peers && p.id == v && p.id != a && s.commit <= p.matchIdx;
        assert ProgressOK(h, s, p);
      }
    }
  }

  lemma ActingLocal(m: set<NodeId>, h: History, n: NodeId, s: Server)
    requires ServerOK(m, h, n, s)
    ensures LocalOK(m, n, s) && s.id == n && VotingIds(s.peers) == m
  {
    AllVote(m, n, s);
  }

  /** The leader and the voters known to hold its log through `point` are a majority. */
  ghost predicate MajorityHolds(s: Server, point: nat) {
    |VotingIds(s.peers)| < 2 * |Holders(s.peers, s.id, point) + {s.id}|
  }

  /** If a majority is known to hold a leader's whole log, and its last entry is of the leader's term, then the
      leader has committed all of it. */
  ghost predicate WholeLogCommitted(s: Server) {
    s.role == Leader && s.log != [] && LastTerm(s.log) == s.term && MajorityHolds(s, |s.log|) ==> s.commit == |s.log|
  }

  lemma NoLeaderCommitted(s: Server)
    requires s.role != Leader
    ensures WholeLogCommitted(s)
  {
  }

  lemma SameCommitted(s: Server, s': Server)
    requires WholeLogCommitted(s) && s'.role == s.role && s'.log == s.log && s'.term == s.term && s'.commit == s.commit
    requires s'.peers == s.peers && s'.id == s.id
    ensures WholeLogCommitted(s')
  {
    hide VotingIds, Holders;
  }

  /** A period leaves a leader's log, term, commit index and bookkeeping alone. */
  lemma PeriodCommitted(m: set<NodeId>, a: NodeId, s: Server, msec: nat, rnd: nat, shutdown: bool)
    requires 2 <= |m| && LocalOK(m, a, s) && NextPositive(s.peers) && WholeLogCommitted(s)
    ensures WholeLogCommitted(Periodic(s, msec, rnd, shutdown).server)
  {
    hide Periodic, Broadcast, ApplyEntry, Tick, WholeLogCommitted, Stood;
    PeriodicParts(m, a, s, msec, rnd, shutdown);
    var s1 := s.(elapsed := s.elapsed + msec);
    TimersFire(s1, rnd);
    var s2 := Timers(s1, rnd).server;
    ApplyKeepsRest(s2, shutdown);
    var s' := Periodic(s, msec, rnd, shutdown).server;
    if s'.role == Leader {
      StoodNoLeader(s1, s2, rnd);
      SameCommitted(s, s');
    } else {
      NoLeaderCommitted(s');
    }
  }

  lemma ApplyKeepsRest(s: Server, shutdown: bool)
    ensures var s' := ApplyEntry(s, shutdown).server; s' == s.(applied := s'.applied, fed := s'.fed)
  {
  }

  lemma StoodNoLeader(s: Server, s': Server, rnd: nat)
    ensures Stood(s, s', rnd) ==> s'.role == Candidate
  {
  }

  /** A new entry is held by the leader alone, which is no majority. */
  lemma EntryCommitted(m: set<NodeId>, h: History, a: NodeId, s: Server, e: Entry)
    requires 2 <= |m| && ServerOK(m, h, a, s) && NextPositive(s.peers) && WholeLogCommitted(s)
    ensures WholeLogCommitted(RecvEntry(s, e).server)
  {
    if s.role == Leader {
      ActingLocal(m, h, a, s);
      forall p | p in s.peers && p.id != a ensures p.matchIdx <= |s.log| {
        assert ProgressOK(h, s, p);
      }
      hide ServerOK, Broadcast, VotingIds;
      assert Holders(s.peers, a, |s.log| + 1) == {};
      assert {} + {a} == {a};
    }
  }

  lemma ApplyAllCommitted(s: Server, quota: nat)
    requires WholeLogCommitted(s)
    ensures WholeLogCommitted(ApplyAll(s, quota).server)
  {
    hide WholeLogCommitted;
    ApplyAllKeepsRest(s, quota);
    SameCommitted(s, ApplyAll(s, quota).server);
  }

  lemma {:induction false} ApplyAllKeepsRest(s: Server, quota: nat)
    ensures var s' := ApplyAll(s, quota).server; s' == s.(applied := s'.applied, fed := s'.fed)
    decreases s.commit - s.applied
  {
    if s.applied < s.commit && ApplyEntry(s, quota == 0).err == 0 {
      ApplyAllKeepsRest(ApplyEntry(s, quota == 0).server, quota - 1);
    }
  }

  lemma RequestCommitted(s: Server, from: NodeId, rv: Message, rnd: nat)
    requires rv.RequestVote? && DistinctIds(s.peers) && WholeLogCommitted(s)
    ensures WholeLogCommitted(RecvRequestVote(s, from, rv, rnd).server)
  {
    hide RecvRequestVote, WholeLogCommitted;
    VoteRequestAnswered(s, from, rv, rnd);
    var s' := RecvRequestVote(s, from, rv, rnd).server;
    if s'.role == Leader {
      SameCommitted(s, s');
    } else {
      NoLeaderCommitted(s');
    }
  }

  /** A server wins with a log of earlier terms. */
  lemma VoteCommitted(m: set<NodeId>, h: History, a: NodeId, s: Server, from: NodeId, r: Message, rnd: nat)
    requires HistoryOK(m, h) && ServerOK(m, h, a, s) && r.VoteReply? && NextPositive(s.peers) && WholeLogCommitted(s)
    ensures WholeLogCommitted(RecvVoteReply(s, from, r, rnd).server)
  {
    var s' := RecvVoteReply(s, from, r, rnd).server;
    if s.role == Candidate {
      CandidateLogOlder(m, h, a, s);
      hide HistoryOK, ServerOK, VotingIds, Holders, Broadcast, VotesIsMajority;
    } else {
      hide HistoryOK, ServerOK, WholeLogCommitted;
      SameCommitted(s, s');
    }
  }

  lemma CandidateLogOlder(m: set<NodeId>, h: History, a: NodeId, s: Server)
    requires HistoryOK(m, h) && ServerOK(m, h, a, s) && s.role == Candidate
    ensures s.log != [] ==> LastTerm(s.log) < s.term
  {
    assert VoteOK(m, h, s.term, a);
  }

  /** No leader hears an AppendEntries of its own term. */
  lemma AppendCommitted(m: set<NodeId>, h: History, a: NodeId, s: Server, p: Packet, ae: Message, pop: int, rnd: nat)
    requires HistoryOK(m, h) && ServerOK(m, h, a, s) && PacketOK(m, h, p) && p.dst == a && p.msg.AppendEntries?
    requires ae.AppendEntries? && ae.term == p.msg.term && WholeLogCommitted(s)
    ensures WholeLogCommitted(RecvAppendEntries(s, p.src, ae, pop, rnd).server)
  {
    if s.role == Leader {
      NoRival(m, h, a, s, p);
    }
    hide HistoryOK, ServerOK, PacketOK, RecvAppendEntries, WholeLogCommitted;
    var s' := RecvAppendEntries(s, p.src, ae, pop, rnd).server;
    if ae.term < s.term {
      StaleAppendRefused(s, p.src, ae, pop, rnd);
    } else {
      AppendHeard(s, p.src, ae, pop, rnd);
      NoLeaderCommitted(s');
    }
  }

  lemma HoldersStay(ps: seq<Peer>, p: Peer, q: Peer, qs: seq<Peer>, self: NodeId, point: nat)
    requires DistinctIds(ps) && Find(ps, q.id) == Some(p) && OnlyChanged(ps, q.id, q, qs)
    requires q.voting == p.voting && q.active == p.active
    ensures VotingIds(qs) == VotingIds(ps)
    ensures (point <= q.matchIdx <==> point <= p.matchIdx) ==> Holders(qs, self, point) == Holders(ps, self, point)
  {
    forall i | 0 <= i < |ps| ensures ps[i] in ps && qs[i] in qs && qs[i].id == ps[i].id
      ensures qs[i].voting == ps[i].voting && qs[i].active == ps[i].active && (ps[i].id == q.id ==> ps[i] == p && qs[i] == q)
    {
      FindIs(ps, i);
    }
    hide DistinctIds, Find, OnlyChanged;
  }

  /** The quorum rule is evaluated whenever a peer is newly known to hold the whole log. */
  lemma NewsCommitted(s: Server, from: NodeId, r: Message, ready: bool, rnd: nat)
    requires r.AppendReply? && NextPositive(s.peers) && AppendReplyAsserts(s, from, r) && DistinctIds(s.peers)
    requires s.role == Leader && s.term == r.term && r.success && Find(s.peers, from).Some?
    requires Find(s.peers, from).value.matchIdx < r.currentIdx && s.commit <= |s.log| && WholeLogCommitted(s)
    ensures WholeLogCommitted(RecvAppendReply(s, from, r, ready, rnd).server)
  {
    hide RecvAppendReply, AppendReplyAsserts, NextPositive, VotingIds, Holders, DistinctIds, Find, OnlyChanged;
    var p := Find(s.peers, from).value;
    var s' := RecvAppendReply(s, from, r, ready, rnd).server;
    SuccessCounts(s, from, r, ready, rnd);
    SuccessCommits(s, from, r, ready, rnd);
    var q := p.(nextIdx := r.currentIdx + 1, matchIdx := r.currentIdx, sufficientLogs := p.sufficientLogs
                || (ready && !p.voting && !p.votingCommitted && |s.log| <= r.currentIdx + 1));
    HoldersStay(s.peers, p, q, s'.peers, s.id, |s.log|);
    AsHolders(s'.peers, s.id, r.currentIdx);
  }

  lemma AsHolders(ps: seq<Peer>, self: NodeId, point: nat)
    ensures (set v | v in ps && v.active && v.voting :: v.id) == VotingIds(ps)
    ensures (set v | v in ps && v.active && v.voting && point <= v.matchIdx :: v.id) + {self} == Holders(ps, self, point) + {self}
  {
  }

  lemma FailureCommitted(s: Server, from: NodeId, r: Message, ready: bool, rnd: nat)
    requires r.AppendReply? && NextPositive(s.peers) && AppendReplyAsserts(s, from, r) && DistinctIds(s.peers)
    requires s.role == Leader && s.term == r.term && !r.success && Find(s.peers, from).Some?
    requires Find(s.peers, from).value.matchIdx != Find(s.peers, from).value.nextIdx - 1 && WholeLogCommitted(s)
    ensures WholeLogCommitted(RecvAppendReply(s, from, r, ready, rnd).server)
  {
    hide RecvAppendReply, AppendReplyAsserts, NextPositive, VotingIds, Holders, DistinctIds, Find, OnlyChanged;
    var p := Find(s.peers, from).value;
    KnownSender(s, from, r);
    FailureBacksOff(s, from, r, ready, rnd);
    var next := if r.currentIdx < p.nextIdx - 1 then Max(1, Min(r.currentIdx + 1, |s.log|)) else Max(1, p.nextIdx - 1);
    HoldersStay(s.peers, p, p.(nextIdx := next), RecvAppendReply(s, from, r, ready, rnd).server.peers, s.id, |s.log|);
  }

  lemma ReplyCommitted(s: Server, from: NodeId, r: Message, ready: bool, rnd: nat)
    requires r.AppendReply? && NextPositive(s.peers) && AppendReplyAsserts(s, from, r) && DistinctIds(s.peers)
    requires s.commit <= |s.log| && WholeLogCommitted(s)
    ensures WholeLogCommitted(RecvAppendReply(s, from, r, ready, rnd).server)
  {
    hide RecvAppendReply, WholeLogCommitted, NextPositive, DistinctIds, Find;
    var s' := RecvAppendReply(s, from, r, ready, rnd).server;
    if s.role == Leader && s.term == r.term && (if r.success then Find(s.peers, from).value.matchIdx < r.currentIdx
                                                else Find(s.peers, from).value.matchIdx != Find(s.peers, from).value.nextIdx - 1) {
      if r.success {
        NewsCommitted(s, from, r, ready, rnd);
      } else {
        FailureCommitted(s, from, r, ready, rnd);
      }
    } else {
      ReplyWithoutNews(s, from, r, ready, rnd);
      if s'.role == Leader {
        SameCommitted(s, s');
      } else {
        NoLeaderCommitted(s');
      }
    }
  }

  lemma EventCommitted(m: set<NodeId>, c: Cluster, h: History, ev: Event)
    requires Inv(m, c, h) && Possible(c, ev) && AssertsHold(c, ev) && WholeLogCommitted(c.servers[Actor(ev)])
    ensures WholeLogCommitted(Outcome(c, ev).0)
  {
    hide Inv, HistoryOK, ServerOK, PacketOK, Periodic, ApplyAll, RecvEntry, RecvAppendReply, RecvVoteReply, RecvRequestVote,
         RecvAppendEntries, AppendReplyAsserts, RequestVoteAsserts, AppendEntriesAsserts, NoNullRead, Anchored, WholeLogCommitted;
    ActingServer(m, c, h, ev);
    var n := Actor(ev);
    var s := c.servers[n];
    ActingLocal(m, h, n, s);
    match ev
    case PeriodicAt(_, msec, rnd, shutdown) => PeriodCommitted(m, n, s, msec, rnd, shutdown);
    case ClientEntry(_, e) => EntryCommitted(m, h, n, s, e);
    case ApplyAllAt(_, quota) => ApplyAllCommitted(s, quota);
    case Deliver(p, chain, pop, ready, rnd) =>
      match p.msg
      case RequestVote(_, _, _, _) => RequestCommitted(s, p.src, p.msg, rnd);
      case VoteReply(_, _) => VoteCommitted(m, h, n, s, p.src, p.msg, rnd);
      case AppendEntries(_, _, _, _, _, _) => AppendCommitted(m, h, n, s, p, Cut(p.msg, chain), pop, rnd);
      case AppendReply(_, _, _, _) => ReplyCommitted(s, p.src, p.msg, ready, rnd);
  }

  lemma {:induction false} AlwaysWholeLog(m: set<NodeId>, run: seq<Cluster>, i: nat, a: NodeId)
    requires IsRun(m, run) && i < |run| && a in run[i].servers
    ensures WholeLogCommitted(run[i].servers[a])
    decreases i
  {
    hide IsRun, Inv, WholeLogCommitted;
    if i == 0 {
      StartsFollower(m, run, a);
      NoLeaderCommitted(run[0].servers[a]);
    } else {
      var h := HistoryAt(m, run, i - 1);
      StepServers(m, run, i - 1);
      AlwaysWholeLog(m, run, i - 1, a);
      NextWholeLog(m, run, i - 1, h, a);
    }
  }

  lemma StartsFollower(m: set<NodeId>, run: seq<Cluster>, a: NodeId)
    requires IsRun(m, run) && a in run[0].servers
    ensures run[0].servers[a].role == Follower
  {
    hide Next;
  }

  lemma StepServers(m: set<NodeId>, run: seq<Cluster>, i: nat)
    requires IsRun(m, run) && i + 1 < |run|
    ensures run[i + 1].servers.Keys == run[i].servers.Keys
  {
    hide *;
    var ev := StepEvent(m, run, i);
    NoServerJoins(run[i], ev, run[i + 1]);
  }

  lemma NoServerJoins(c: Cluster, ev: Event, c': Cluster)
    requires StepBy(c, ev, c')
    ensures c'.servers.Keys == c.servers.Keys
  {
    hide ListSuffices, AssertsHold, Outcome, SendsBacked;
  }

  lemma NextWholeLog(m: set<NodeId>, run: seq<Cluster>, i: nat, h: History, a: NodeId)
    requires IsRun(m, run) && i + 1 < |run| && Inv(m, run[i], h) && a in run[i].servers && a in run[i + 1].servers
    requires WholeLogCommitted(run[i].servers[a])
    ensures WholeLogCommitted(run[i + 1].servers[a])
  {
    hide *;
    var ev := StepEvent(m, run, i);
    StepChanges(run[i], ev, run[i + 1], a);
    if a == Actor(ev) {
      EventCommitted(m, run[i], h, ev);
    }
  }

  lemma StepEvent(m: set<NodeId>, run: seq<Cluster>, i: nat) returns (ev: Event)
    requires IsRun(m, run) && i + 1 < |run|
    ensures StepBy(run[i], ev, run[i + 1])
  {
    RunStep(m, run, i);
    hide IsRun, StepBy;
    ev :| StepBy(run[i], ev, run[i + 1]);
  }

  /** In a step one server changes. */
  lemma StepChanges(c: Cluster, ev: Event, c': Cluster, a: NodeId)
    requires StepBy(c, ev, c') && a in c.servers
    ensures Possible(c, ev) && AssertsHold(c, ev) && Actor(ev) in c.servers
    ensures a in c'.servers && c'.servers[a] == if a == Actor(ev) then Outcome(c, ev).0 else c.servers[a]
  {
    hide ListSuffices, AssertsHold, Outcome, SendsBacked;
  }

  /** A majority is enough: whenever voters that with the leader are a majority are known to hold its whole log,
      and its last entry is of its term, the leader has committed all of it. */
  lemma MajorityIsEnough(m: set<NodeId>, run: seq<Cluster>, i: nat, a: NodeId, q: set<NodeId>)
    requires IsRun(m, run) && i < |run| && a in run[i].servers && run[i].servers[a].role == Leader
    requires run[i].servers[a].log != [] && LastTerm(run[i].servers[a].log) == run[i].servers[a].term
    requires Majority(m, q + {a})
    requires forall v :: v in q && v != a ==>
      exists p :: p in run[i].servers[a].peers && p.id == v && |run[i].servers[a].log| <= p.matchIdx
    ensures run[i].servers[a].commit == |run[i].servers[a].log|
  {
    hide *;
    AlwaysWholeLog(m, run, i, a);
    var h := HistoryAt(m, run, i);
    ServersPresent(m, run[i], h);
    ServerHere(m, run[i], h, a);
    ActingLocal(m, h, a, run[i].servers[a]);
    EnoughHold(m, a, run[i].servers[a], q);
    CommittedWhole(run[i].servers[a]);
  }

  lemma EnoughHold(m: set<NodeId>, a: NodeId, s: Server, q: set<NodeId>)
    requires LocalOK(m, a, s) && VotingIds(s.peers) == m && Majority(m, q + {a})
    requires forall v :: v in q && v != a ==> exists p :: p in s.peers && p.id == v && |s.log| <= p.matchIdx
    ensures MajorityHolds(s, |s.log|)
  {
    hide DistinctIds, WindowOK, VotingIds;
    forall v | v in q + {a} ensures v in Holders(s.peers, a, |s.log|) + {a} {
      if v != a {
        var p :| p in s.peers && p.id == v && |s.log| <= p.matchIdx;
      }
    }
    SubsetSize(q + {a}, Holders(s.peers, a, |s.log|) + {a});
  }

  lemma CommittedWhole(s: Server)
    requires WholeLogCommitted(s) && s.role == Leader && s.log != [] && LastTerm(s.log) == s.term && MajorityHolds(s, |s.log|)
    ensures s.commit == |s.log|
  {
    hide MajorityHolds;
  }

  /** Every AppendEntries in flight covers the commit index it announces. */
  lemma SentCommitIsCovered(m: set<NodeId>, run: seq<Cluster>, i: nat, p: Packet)
    requires IsRun(m, run) && i < |run| && p in run[i].net && p.msg.AppendEntries?
    ensures p.msg.leaderCommit <= p.msg.prevIdx + p.msg.n && |p.msg.entries| == p.msg.n
  {
    var h := HistoryAt(m, run, i);
    assert PacketOK(m, h, p);
  }

  /** An AppendEntries delivered at any time, first, again or late: whatever prefix the receiver
      shares with the log the leader of that term has or had stays in its log, so a receiver
      that is a prefix of the leader never gets shorter; its commit index does not go down and
      ends inside the prefix the reply vouches for. */
  lemma LateAppendIsHarmless(m: set<NodeId>, run: seq<Cluster>, i: nat, j: nat, p: Packet, chain: nat, pop: int, rnd: nat, b: NodeId)
    requires IsRun(m, run) && j <= i < |run| && p in run[i].net && p.msg.AppendEntries? && p.dst in run[i].servers
    requires chain <= |p.msg.entries| && NoNullRead(run[i].servers[p.dst], Cut(p.msg, chain))
    requires Anchored(run[i].servers[p.dst], Cut(p.msg, chain))
    requires run[i].servers[p.dst].term <= p.msg.term
    requires b in run[j].servers && run[j].servers[b].role == Leader && run[j].servers[b].term == p.msg.term
    ensures b == p.src
    ensures var s := run[i].servers[p.dst];
            var a := RecvAppendEntries(s, p.src, Cut(p.msg, chain), pop, rnd);
            && KeepsShared(s.log, run[j].servers[b].log, a.server.log)
            && s.commit <= a.server.commit
            && a.reply.AppendReply?
            && (s.commit < a.server.commit ==> a.reply.success && a.server.commit <= a.reply.currentIdx <= |a.server.log|)
  {
    var hj := HistoryAt(m, run, j);
    var h := Onward(m, run, j, hj, i);
    LateDelivery(m, run[j], hj, run[i], h, p, chain, b);
    hide IsRun, Inv, RecvAppendEntries, NoNullRead, Anchored, Grows;
    LateAppend(run[i].servers[p.dst], p.src, Cut(p.msg, chain), pop, rnd, run[j].servers[b].log, h.logs[p.msg.term]);
  }

  /** The receiver is compatible with the log of the sender, which extends the log the sender
      had at any earlier moment of its term. */
  lemma LateDelivery(m: set<NodeId>, c: Cluster, h: History, c': Cluster, h': History, p: Packet, chain: nat, b: NodeId)
    requires Inv(m, c, h) && Inv(m, c', h') && Grows(h, h')
    requires p in c'.net && p.msg.AppendEntries? && p.dst in c'.servers
    requires chain <= |p.msg.entries| && NoNullRead(c'.servers[p.dst], Cut(p.msg, chain))
    requires Anchored(c'.servers[p.dst], Cut(p.msg, chain))
    requires c'.servers[p.dst].term <= p.msg.term
    requires b in c.servers && c.servers[b].role == Leader && c.servers[b].term == p.msg.term
    ensures b == p.src && p.msg.term in h'.logs && c.servers[b].log <= h'.logs[p.msg.term]
    ensures Compatible(c'.servers[p.dst], Cut(p.msg, chain), h'.logs[p.msg.term])
    ensures p.msg.leaderCommit <= p.msg.prevIdx + p.msg.n
  {
    assert ServerOK(m, h, b, c.servers[b]);
    assert PacketOK(m, h', p);
    assert MessageOK(m, h', p.src, p.dst, p.msg);
    assert ServerOK(m, h', p.dst, c'.servers[p.dst]);
    hide HistoryOK, ServerOK, Compatible, NoNullRead, Anchored, Inv;
    ReceiverCompatible(m, h', p.dst, c'.servers[p.dst], p.src, p.msg, chain);
  }

  lemma LateAppend(s: Server, from: NodeId, ae: Message, pop: int, rnd: nat, lead: seq<Entry>, now: seq<Entry>)
    requires ae.AppendEntries? && Compatible(s, ae, now) && lead <= now
    requires ae.leaderCommit <= ae.prevIdx + ae.n
    ensures var a := RecvAppendEntries(s, from, ae, pop, rnd);
            && KeepsShared(s.log, lead, a.server.log)
            && s.commit <= a.server.commit
            && a.reply.AppendReply?
            && (s.commit < a.server.commit ==> a.reply.success && a.server.commit <= a.reply.currentIdx <= |a.server.log|)
  {
    hide RecvAppendEntries, Compatible, NoNullRead, Anchored;
    AppendFollowsLeader(s, from, ae, pop, rnd, now);
    AppendReceives(s, from, ae, pop, rnd, now);
    forall k: nat | Shared(s.log, lead, k) ensures s.log[..k] <= RecvAppendEntries(s, from, ae, pop, rnd).server.log {
      assert now[..k] == lead[..k];
      assert Shared(s.log, now, k);
    }
  }
}
