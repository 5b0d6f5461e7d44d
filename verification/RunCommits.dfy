/** In every reachable state a majority is enough to commit, and periods are enough to apply: how runs
    can go on although the other servers are silent. */
module RunCommits {
  import opened RaftTypes
  import opened Peers
  import opened Handlers
  import opened RaftCluster
  import opened AppendLaws
  import opened Outcomes
  import opened Quorum
  import opened History
  import opened Invariant
  import opened ElectionSteps
  import opened ClusterSteps
  import opened Safety
  import opened Progress
  import opened RunProgress

  // ----- Commitment by a majority -----

  /** The leader can repair each of the servers `q`; `bases` says from which common prefix on. */
  ghost predicate AllRepairable(m: set<NodeId>, run: seq<Cluster>, a: NodeId, q: set<NodeId>, bases: map<NodeId, nat>, pop: int)
    ensures AllRepairable(m, run, a, q, bases, pop) ==> run != [] && a in run[|run| - 1].servers && q <= bases.Keys
  {
    && IsRun(m, run) && a in run[|run| - 1].servers && q <= bases.Keys
    && forall v :: v in q ==> Reaches(m, run, a, v, bases[v], pop)
  }

  ghost predicate Reaches(m: set<NodeId>, run: seq<Cluster>, a: NodeId, v: NodeId, base: nat, pop: int) {
    && RepairPossible(m, run, a, v, base)
    && (pop == 0 || !Conflict(run[|run| - 1].servers[v].log, run[|run| - 1].servers[a].log))
  }

  /** Only the leader and servers of `q` have acted, and the leader leads on with the same log. */
  ghost predicate OnlyActed(c: Cluster, c': Cluster, a: NodeId, q: set<NodeId>) {
    && a in c.servers && a in c'.servers
    && c'.servers[a].role == Leader && c'.servers[a].log == c.servers[a].log && c'.servers[a].term == c.servers[a].term
    && forall n :: n in c.servers && n != a && n !in q ==> n in c'.servers && c'.servers[n] == c.servers[n]
  }

  /** The leader knows that `v` has its whole log. */
  ghost predicate KnownToHold(c: Cluster, a: NodeId, v: NodeId) {
    && a in c.servers
    && Find(c.servers[a].peers, v).Some? && Find(c.servers[a].peers, v).value.matchIdx == |c.servers[a].log|
  }

  /** What the leader knows of servers not in `q` it still knows. */
  ghost predicate Remembers(c: Cluster, c': Cluster, a: NodeId, q: set<NodeId>) {
    forall x :: x !in q && KnownToHold(c, a, x) ==> KnownToHold(c', a, x)
  }

  ghost predicate AllHold(c: Cluster, a: NodeId, q: set<NodeId>) {
    forall v :: v in q ==> KnownToHold(c, a, v)
  }

  lemma BackedSame(s: Server, s': Server, p: Peer)
    requires 1 <= p.nextIdx && s'.log == s.log && s'.gone == s.gone && Backed(s, AppendFor(s, p))
    ensures Backed(s', AppendFor(s', p))
  {
  }

  /** A peer that has everything is sent an empty message after the last entry. */
  lemma CaughtUpBacked(s: Server, p: Peer)
    requires p.nextIdx == |s.log| + 1 && (s.log == [] || HasEntry(s, |s.log|))
    ensures Backed(s, AppendFor(s, p))
  {
  }

  /** After one repair the leader can still build its messages for all peers. */
  lemma StillInReach(s: Server, s': Server, v: NodeId)
    requires NextPositive(s.peers) && NextPositive(s'.peers) && DistinctIds(s'.peers) && PeersInReach(s)
    requires s'.log == s.log && s'.gone == s.gone && s'.id == s.id
    requires forall x :: x != v ==> Find(s'.peers, x) == Find(s.peers, x)
    requires Find(s'.peers, v).Some? && Find(s'.peers, v).value.nextIdx == |s.log| + 1
    requires s.log == [] || HasEntry(s, |s.log|)
    ensures PeersInReach(s')
  {
    hide AppendFor, Backed, Find;
    forall i | 0 <= i < |s'.peers| && s'.peers[i].id != s'.id ensures Backed(s', AppendFor(s', s'.peers[i])) {
      var p := s'.peers[i];
      FindIs(s'.peers, i);
      if p.id == v {
        CaughtUpBacked(s', p);
      } else {
        assert Find(s.peers, p.id) == Some(p);
        var j :| 0 <= j < |s.peers| && s.peers[j] == p;
        assert Backed(s, AppendFor(s, s.peers[j]));
        PositiveAt(s.peers, j);
        BackedSame(s, s', p);
      }
    }
  }

  lemma PositiveAt(ps: seq<Peer>, i: nat)
    requires NextPositive(ps) && i < |ps|
    ensures 1 <= ps[i].nextIdx
  {
  }

  /** A leader that lists its log from a common prefix on lists its last entry. */
  lemma TailStaysListed(s: Server, u: Server, v: NodeId, base: nat)
    requires CommonBase(s, u, v, base)
    ensures s.log == [] || HasEntry(s, |s.log|)
  {
  }

  lemma NextAfterMatch(m: set<NodeId>, run: seq<Cluster>, a: NodeId, v: NodeId)
    requires IsRun(m, run) && a in run[|run| - 1].servers && run[|run| - 1].servers[a].role == Leader && v != a
    requires Find(run[|run| - 1].servers[a].peers, v).Some?
    requires Find(run[|run| - 1].servers[a].peers, v).value.matchIdx == |run[|run| - 1].servers[a].log|
    requires run[|run| - 1].servers[a].log != []
    ensures Find(run[|run| - 1].servers[a].peers, v).value.nextIdx == |run[|run| - 1].servers[a].log| + 1
  {
    hide *;
    QuorumSoundness(m, run, |run| - 1, a, Find(run[|run| - 1].servers[a].peers, v).value);
  }

  /** One voter is repaired; the others still can be. */
  lemma RepairOne(m: set<NodeId>, run: seq<Cluster>, a: NodeId, q: set<NodeId>, bases: map<NodeId, nat>, pop: int, v: NodeId)
    returns (run': seq<Cluster>)
    requires AllRepairable(m, run, a, q, bases, pop) && v in q && run[|run| - 1].servers[a].log != []
    ensures AllRepairable(m, run', a, q - {v}, bases, pop) && run <= run'
    ensures OnlyActed(run[|run| - 1], run'[|run'| - 1], a, {v}) && KnownToHold(run'[|run'| - 1], a, v)
    ensures Remembers(run[|run| - 1], run'[|run'| - 1], a, {v})
  {
    hide *;
    var c := run[|run| - 1];
    RepairableOne(m, run, a, q, bases, pop, v);
    ReachParts(m, run, a, v, bases[v], pop);
    run' := LeaderRepairsPeer(m, run, a, v, bases[v], pop);
    GoesOnRun(m, run, run', v, pop);
    TimeRuns(m, run, v);
    RepairedParts(run, run', a, v);
    var c' := run'[|run'| - 1];
    ApartParts(c, c', a, v);
    NextAfterMatch(m, run', a, v);
    TimeRuns(m, run, a);
    TimeRuns(m, run', a);
    LocalParts(m, a, c.servers[a]);
    LocalParts(m, a, c'.servers[a]);
    TailStaysListed(c.servers[a], c.servers[v], v, bases[v]);
    StillTailed(c.servers[a], c'.servers[a]);
    StillInReach(c.servers[a], c'.servers[a], v);
    forall w | w in q - {v} ensures Reaches(m, run', a, w, bases[w], pop) {
      RepairableOne(m, run, a, q, bases, pop, w);
      StillReaches(m, run, run', a, v, w, bases[w], pop);
    }
    RepairableRest(m, run', a, q, v, bases, pop);
    HeldStay(c, c', a, v);
  }

  lemma GoesOnRun(m: set<NodeId>, run: seq<Cluster>, run': seq<Cluster>, b: NodeId, pop: int)
    requires GoesOn(m, run, run', b, pop)
    ensures IsRun(m, run') && run <= run' && run' != []
  {
    hide IsRun, NextWith;
  }

  lemma RepairableOne(m: set<NodeId>, run: seq<Cluster>, a: NodeId, q: set<NodeId>, bases: map<NodeId, nat>, pop: int, v: NodeId)
    requires AllRepairable(m, run, a, q, bases, pop) && v in q
    ensures IsRun(m, run) && run != [] && a in run[|run| - 1].servers && v in bases && Reaches(m, run, a, v, bases[v], pop)
  {
    hide IsRun, Reaches;
  }

  lemma RepairableRest(m: set<NodeId>, run: seq<Cluster>, a: NodeId, q: set<NodeId>, v: NodeId, bases: map<NodeId, nat>, pop: int)
    requires IsRun(m, run) && run != [] && a in run[|run| - 1].servers && q <= bases.Keys
    requires forall w :: w in q - {v} ==> Reaches(m, run, a, w, bases[w], pop)
    ensures AllRepairable(m, run, a, q - {v}, bases, pop)
  {
    hide IsRun, Reaches;
  }

  lemma ReachParts(m: set<NodeId>, run: seq<Cluster>, a: NodeId, v: NodeId, base: nat, pop: int)
    requires Reaches(m, run, a, v, base, pop)
    ensures RepairPossible(m, run, a, v, base) && run != [] && a != v && a in run[|run| - 1].servers && v in run[|run| - 1].servers
    ensures pop == 0 || !Conflict(run[|run| - 1].servers[v].log, run[|run| - 1].servers[a].log)
    ensures var s, u := run[|run| - 1].servers[a], run[|run| - 1].servers[v];
      s.role == Leader && u.term <= s.term && CommonBase(s, u, v, base) && NextPositive(s.peers) && PeersInReach(s)
  {
    hide IsRun, Conflict, CommonBase, NextPositive, PeersInReach;
  }

  lemma RepairedParts(run: seq<Cluster>, run': seq<Cluster>, a: NodeId, v: NodeId)
    requires RepairedAt(run, run', a, v) && v in run[|run| - 1].servers && run[|run| - 1].servers[v].id == v
    ensures run != [] && run' != [] && a in run[|run| - 1].servers && a in run'[|run'| - 1].servers
    ensures run'[|run'| - 1].servers[a].role == Leader && KnownToHold(run'[|run'| - 1], a, v)
  {
  }

  lemma ApartParts(c: Cluster, c': Cluster, a: NodeId, v: NodeId)
    requires Apart(c, c', a, v) && c'.servers[a].role == Leader
    ensures a in c.servers && a in c'.servers && NextPositive(c'.servers[a].peers) && OnlyActed(c, c', a, {v})
    ensures c'.servers[a].log == c.servers[a].log && c'.servers[a].gone == c.servers[a].gone
    ensures forall x :: x != v ==> Find(c'.servers[a].peers, x) == Find(c.servers[a].peers, x)
  {
    hide NextPositive, Find;
  }

  lemma LocalParts(m: set<NodeId>, a: NodeId, s: Server)
    requires LocalOK(m, a, s)
    ensures DistinctIds(s.peers) && s.id == a
  {
    hide DistinctIds, WindowOK, Ids;
  }

  lemma StillTailed(s: Server, s': Server)
    requires s'.log == s.log && s'.gone == s.gone && (s.log == [] || HasEntry(s, |s.log|))
    ensures s'.log == [] || HasEntry(s', |s'.log|)
  {
  }

  lemma StillReaches(m: set<NodeId>, run: seq<Cluster>, run': seq<Cluster>, a: NodeId, v: NodeId, w: NodeId, base: nat, pop: int)
    requires Reaches(m, run, a, w, base, pop) && IsRun(m, run') && run' != [] && w != v
    requires Apart(run[|run| - 1], run'[|run'| - 1], a, v)
    requires run'[|run'| - 1].servers[a].role == Leader
    requires NextPositive(run'[|run'| - 1].servers[a].peers) && PeersInReach(run'[|run'| - 1].servers[a])
    ensures Reaches(m, run', a, w, base, pop)
  {
    hide IsRun, Conflict, NextPositive, PeersInReach, Find;
  }

  lemma HeldStay(c: Cluster, c': Cluster, a: NodeId, v: NodeId)
    requires Apart(c, c', a, v)
    ensures Remembers(c, c', a, {v})
  {
    hide NextPositive, Find;
  }

  lemma {:induction false} RepairAll(m: set<NodeId>, run: seq<Cluster>, a: NodeId, q: set<NodeId>, bases: map<NodeId, nat>, pop: int)
    returns (run': seq<Cluster>)
    requires AllRepairable(m, run, a, q, bases, pop) && run[|run| - 1].servers[a].log != []
    requires run[|run| - 1].servers[a].role == Leader
    ensures IsRun(m, run') && run <= run' && OnlyActed(run[|run| - 1], run'[|run'| - 1], a, q)
    ensures AllHold(run'[|run'| - 1], a, q) && Remembers(run[|run| - 1], run'[|run'| - 1], a, q)
    decreases |q|
  {
    hide *;
    if q == {} {
      run' := run;
      RunOf(m, run, a, q, bases, pop);
      NobodyActed(run[|run| - 1], a);
    } else {
      var v :| v in q;
      var run1 := RepairOne(m, run, a, q, bases, pop, v);
      var c, c1 := run[|run| - 1], run1[|run1| - 1];
      ActedLeads(c, c1, a, {v});
      run' := RepairAll(m, run1, a, q - {v}, bases, pop);
      var c' := run'[|run'| - 1];
      ActedFurther(c, c1, c', a, v, q);
      PrefixTransitive(run, run1, run');
      HoldFurther(c, c1, c', a, v, q);
    }
  }

  lemma RunOf(m: set<NodeId>, run: seq<Cluster>, a: NodeId, q: set<NodeId>, bases: map<NodeId, nat>, pop: int)
    requires AllRepairable(m, run, a, q, bases, pop)
    ensures IsRun(m, run)
  {
    hide IsRun, Reaches;
  }

  lemma NobodyActed(c: Cluster, a: NodeId)
    requires a in c.servers && c.servers[a].role == Leader
    ensures OnlyActed(c, c, a, {}) && AllHold(c, a, {}) && Remembers(c, c, a, {})
  {
  }

  lemma ActedLeads(c: Cluster, c': Cluster, a: NodeId, q: set<NodeId>)
    requires OnlyActed(c, c', a, q)
    ensures a in c.servers && a in c'.servers && c'.servers[a].role == Leader
    ensures c'.servers[a].log == c.servers[a].log && c'.servers[a].term == c.servers[a].term
  {
  }

  lemma ActedFurther(c: Cluster, c1: Cluster, c': Cluster, a: NodeId, v: NodeId, q: set<NodeId>)
    requires OnlyActed(c, c1, a, {v}) && OnlyActed(c1, c', a, q - {v}) && v in q
    ensures OnlyActed(c, c', a, q)
  {
  }

  lemma HoldFurther(c: Cluster, c1: Cluster, c': Cluster, a: NodeId, v: NodeId, q: set<NodeId>)
    requires Remembers(c, c1, a, {v}) && Remembers(c1, c', a, q - {v}) && v in q
    requires KnownToHold(c1, a, v) && AllHold(c', a, q - {v})
    ensures Remembers(c, c', a, q) && AllHold(c', a, q)
  {
    hide KnownToHold;
  }

  /** Every run can go on so that a leader whose last entry is of its term commits its whole log, with no
      server acting but the leader and voters that with it are a majority, if it can repair these. */
  lemma MajorityCommits(m: set<NodeId>, run: seq<Cluster>, a: NodeId, q: set<NodeId>, bases: map<NodeId, nat>, pop: int)
    returns (run': seq<Cluster>)
    requires AllRepairable(m, run, a, q, bases, pop) && Majority(m, q + {a})
    requires run[|run| - 1].servers[a].role == Leader
    requires run[|run| - 1].servers[a].log != [] && LastTerm(run[|run| - 1].servers[a].log) == run[|run| - 1].servers[a].term
    ensures IsRun(m, run') && run <= run' && OnlyActed(run[|run| - 1], run'[|run'| - 1], a, q)
    ensures run'[|run'| - 1].servers[a].commit == |run[|run| - 1].servers[a].log|
  {
    hide *;
    run' := RepairAll(m, run, a, q, bases, pop);
    var c, c' := run[|run| - 1], run'[|run'| - 1];
    ActedLeads(c, c', a, q);
    forall v | v in q && v != a
      ensures exists p :: p in c'.servers[a].peers && p.id == v && |c'.servers[a].log| <= p.matchIdx
    {
      HoldingPeer(c', a, q, v);
    }
    MajorityIsEnough(m, run', |run'| - 1, a, q);
  }

  lemma HoldingPeer(c: Cluster, a: NodeId, q: set<NodeId>, v: NodeId)
    requires AllHold(c, a, q) && v in q
    ensures a in c.servers
    ensures exists p :: p in c.servers[a].peers && p.id == v && |c.servers[a].log| <= p.matchIdx
  {
    assert KnownToHold(c, a, v);
    var p := Find(c.servers[a].peers, v).value;
    assert p in c.servers[a].peers && p.id == v;
  }

  // ----- Application by periods -----

  /** What a server may send in a period is built from entries it lists. */
  ghost predicate PeriodsBacked(s: Server) {
    NextPositive(s.peers) && (s.role == Leader ==> PeersInReach(s))
  }

  /** Time and application do not matter for that. */
  lemma StaysBacked(s: Server, s': Server)
    requires PeriodsBacked(s) && s' == s.(elapsed := s'.elapsed, applied := s'.applied, fed := s'.fed)
    ensures PeriodsBacked(s')
  {
    hide AppendFor, Backed;
    if s.role == Leader {
      forall i | 0 <= i < |s'.peers| && s'.peers[i].id != s'.id ensures Backed(s', AppendFor(s', s'.peers[i])) {
        assert Backed(s, AppendFor(s, s.peers[i]));
        BackedSame(s, s', s.peers[i]);
      }
    }
  }

  lemma TimersBacked(s: Server, rnd: nat)
    requires PeriodsBacked(s)
    ensures NextPositive(s.peers)
    ensures var e := Timers(s, rnd); PeriodsBacked(e.server) && SendsBacked(e.server, set q | q in e.out)
  {
    hide Timers, Broadcast, PeersInReach, AppendFor, VotingIds, SelfVoting;
    TimersFire(s, rnd);
    var e := Timers(s, rnd);
    forall q | q in e.out ensures Backed(e.server, q.msg) {
      if s.role == Leader {
        HeartbeatBacked(s, e.server, q);
      } else {
        CanvassReaches(e.server, q);
      }
    }
    if s.role == Leader {
      StaysBacked(s, e.server);
    }
  }

  lemma BackedOn(s: Server, s': Server, out: set<Packet>)
    requires SendsBacked(s, out) && s' == s.(applied := s'.applied, fed := s'.fed)
    ensures SendsBacked(s', out)
  {
  }

  lemma PeriodBacked(m: set<NodeId>, a: NodeId, s: Server, msec: nat, rnd: nat)
    requires 2 <= |m| && LocalOK(m, a, s) && PeriodsBacked(s) && NextPositive(s.peers)
    ensures var e := Periodic(s, msec, rnd, false);
      SendsBacked(e.server, set q | q in e.out) && PeriodsBacked(e.server)
  {
    hide *;
    var s1 := s.(elapsed := s.elapsed + msec);
    StaysBacked(s, s1);
    TimersBacked(s1, rnd);
    PeriodicParts(m, a, s, msec, rnd, false);
    var s2 := Timers(s1, rnd).server;
    ApplyKeepsRest(s2, false);
    var e := Periodic(s, msec, rnd, false);
    StaysBacked(s2, e.server);
    BackedOn(s2, e.server, set q | q in e.out);
  }

  /** One more period as the next step of the run. */
  lemma PeriodInRun(m: set<NodeId>, run: seq<Cluster>, a: NodeId, msec: nat, rnd: nat) returns (c': Cluster)
    requires IsRun(m, run) && a in run[|run| - 1].servers && PeriodsBacked(run[|run| - 1].servers[a])
    ensures IsRun(m, run + [c']) && StepBy(run[|run| - 1], PeriodicAt(a, msec, rnd, false), c') && a in c'.servers
    ensures NextPositive(run[|run| - 1].servers[a].peers)
    ensures c'.servers[a] == Periodic(run[|run| - 1].servers[a], msec, rnd, false).server && PeriodsBacked(c'.servers[a])
  {
    hide *;
    var c := run[|run| - 1];
    var s := c.servers[a];
    TimeRuns(m, run, a);
    PeriodBacked(m, a, s, msec, rnd);
    var ev := PeriodicAt(a, msec, rnd, false);
    PeriodPossible(c, a, msec, rnd);
    NoAssertionFails(m, run, |run| - 1, ev);
    TimeOutcome(c, ev);
    Extend(m, run, ev);
    c' := After(c, ev);
    assert StepBy(c, ev, c') by { BackedStep(c, ev); }
  }

  lemma PeriodPossible(c: Cluster, a: NodeId, msec: nat, rnd: nat)
    requires a in c.servers
    ensures Possible(c, PeriodicAt(a, msec, rnd, false)) && Enabled(c, PeriodicAt(a, msec, rnd, false))
  {
  }

  lemma BackedStep(c: Cluster, ev: Event)
    requires Possible(c, ev) && AssertsHold(c, ev) && SendsBacked(Outcome(c, ev).0, Outcome(c, ev).1)
    ensures StepBy(c, ev, After(c, ev))
  {
    hide Enabled, ListSuffices, AssertsHold, Outcome, SendsBacked;
  }

  /** From moment `from` on, every step of the run is a period on `a`. */
  ghost predicate PeriodsOnly(run: seq<Cluster>, from: nat, a: NodeId, msec: nat, rnd: nat) {
    forall k: nat :: from <= k < |run| - 1 ==> PeriodNext(run[k], run[k + 1], a, msec, rnd)
  }

  ghost predicate PeriodNext(c: Cluster, c': Cluster, a: NodeId, msec: nat, rnd: nat) {
    StepBy(c, PeriodicAt(a, msec, rnd, false), c')
  }

  lemma PeriodsJoin(run: seq<Cluster>, c': Cluster, run': seq<Cluster>, a: NodeId, msec: nat, rnd: nat)
    requires run != [] && PeriodNext(run[|run| - 1], c', a, msec, rnd)
    requires run + [c'] <= run' && PeriodsOnly(run', |run|, a, msec, rnd)
    ensures run <= run' && PeriodsOnly(run', |run| - 1, a, msec, rnd)
  {
    hide PeriodNext;
    forall k: nat | |run| - 1 <= k < |run'| - 1 ensures PeriodNext(run'[k], run'[k + 1], a, msec, rnd) {
      if k == |run| - 1 {
        assert run'[k] == run[k] && run'[k + 1] == c';
      }
    }
  }

  /** Every run can go on by as many periods as a server has committed entries to apply, after which it has
      applied them all, if its list still holds them: whatever its role, and with no message delivered. */
  lemma {:induction false} PeriodsApplyAll(m: set<NodeId>, run: seq<Cluster>, a: NodeId, msec: nat, rnd: nat)
    returns (run': seq<Cluster>)
    requires IsRun(m, run) && a in run[|run| - 1].servers && PeriodsBacked(run[|run| - 1].servers[a])
    requires run[|run| - 1].servers[a].gone <= run[|run| - 1].servers[a].applied <= run[|run| - 1].servers[a].commit
    ensures IsRun(m, run') && run <= run' && PeriodsOnly(run', |run| - 1, a, msec, rnd) && a in run'[|run'| - 1].servers
    ensures var s, s' := run[|run| - 1].servers[a], run'[|run'| - 1].servers[a];
      && |run'| == |run| + (s.commit - s.applied)
      && s'.applied == s'.commit == s.commit <= |s.log| && s'.log == s.log && s'.fed == HandedOver(s.log[..s.commit])
    decreases run[|run| - 1].servers[a].commit - run[|run| - 1].servers[a].applied
  {
    hide *;
    var s := run[|run| - 1].servers[a];
    FedIsLog(m, run, |run| - 1, a);
    if s.applied == s.commit {
      run' := run;
      assert PeriodsOnly(run', |run| - 1, a, msec, rnd) by { NoPeriods(run', a, msec, rnd); }
    } else {
      var c' := PeriodInRun(m, run, a, msec, rnd);
      PeriodApplies(s, msec, rnd, false);
      run' := PeriodsApplyAll(m, run + [c'], a, msec, rnd);
      assert PeriodNext(run[|run| - 1], c', a, msec, rnd) by { IsPeriod(run[|run| - 1], c', a, msec, rnd); }
      PeriodsJoin(run, c', run', a, msec, rnd);
    }
  }

  lemma NoPeriods(run: seq<Cluster>, a: NodeId, msec: nat, rnd: nat)
    requires run != []
    ensures PeriodsOnly(run, |run| - 1, a, msec, rnd)
  {
  }

  lemma IsPeriod(c: Cluster, c': Cluster, a: NodeId, msec: nat, rnd: nat)
    requires StepBy(c, PeriodicAt(a, msec, rnd, false), c')
    ensures PeriodNext(c, c', a, msec, rnd)
  {
  }
}
