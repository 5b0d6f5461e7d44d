/** A cluster of servers with static voting membership over a network that may lose,
    duplicate and reorder packets: every packet ever sent stays deliverable. */
module RaftCluster {
  import opened RaftTypes
  import opened Peers
  import opened Handlers

  datatype Cluster = Cluster(servers: map<NodeId, Server>, net: set<Packet>)

  predicate InitialPeer(p: Peer) {
    p == Peer(p.id, 1, 0, false, true, false, true, false, false)
  }

  predicate InitialServer(members: set<NodeId>, n: NodeId, s: Server) {
    && s.id == n && s.term == 0 && s.votedFor == None && s.role == Follower && s.leader == None
    && s.log == [] && s.gone == 0 && s.commit == 0 && s.applied == 0 && s.fed == []
    && DistinctIds(s.peers) && Ids(s.peers) == members
    && (forall p :: p in s.peers ==> InitialPeer(p))
  }

  predicate Initial(members: set<NodeId>, c: Cluster) {
    && 2 <= |members|
    && c.servers.Keys == members
    && (forall n :: n in members ==> InitialServer(members, n, c.servers[n]))
    && c.net == {}
  }

  /** One handler runs on one server. `chain` is how many entries of a delivered
      AppendEntries the receiver can reach; `pop`, `ready` and `shutdown` are callback
      results; `quota` bounds the entries `applylog` accepts; `rnd` is a random number. */
  datatype Event =
    | PeriodicAt(n: NodeId, msec: nat, rnd: nat, shutdown: bool)
    | ClientEntry(n: NodeId, e: Entry)
    | ApplyAllAt(n: NodeId, quota: nat)
    | Deliver(p: Packet, chain: nat, pop: int, ready: bool, rnd: nat)

  function Actor(ev: Event): NodeId {
    if ev.Deliver? then ev.p.dst else ev.n
  }

  function Cut(ae: Message, chain: nat): Message
    requires ae.AppendEntries? && chain <= |ae.entries|
  {
    ae.(entries := ae.entries[..chain])
  }

  /** The event is enabled: its packet was sent, its client entry is no membership change, and a
      receiver does not read past the end of the chain. */
  predicate Enabled(c: Cluster, ev: Event) {
    && Actor(ev) in c.servers
    && (ev.ClientEntry? ==> !IsCfgChange(ev.e))
    && (ev.Deliver? ==>
          && ev.p in c.net
          && (ev.p.msg.AppendEntries? ==>
                && ev.chain <= |ev.p.msg.entries|
                && NoNullRead(c.servers[ev.p.dst], Cut(ev.p.msg, ev.chain))))
  }

  /** What the handler needs of its list is there: the message it receives is anchored in it, and
      the entries that a vote and the quorum rule are decided on are listed. */
  predicate ListSuffices(c: Cluster, ev: Event)
    requires Enabled(c, ev)
  {
    ev.Deliver? ==>
      && (ev.p.msg.AppendEntries? ==> Anchored(c.servers[ev.p.dst], Cut(ev.p.msg, ev.chain)))
      && (ev.p.msg.RequestVote? ==> GrantReads(c.servers[ev.p.dst], ev.p.msg))
      && (ev.p.msg.AppendReply? ==> QuorumReads(c.servers[ev.p.dst], ev.p.src, ev.p.msg))
  }

  predicate Possible(c: Cluster, ev: Event) {
    Enabled(c, ev) && ListSuffices(c, ev)
  }

  /** No assertion of the handler that runs fails. */
  predicate AssertsHold(c: Cluster, ev: Event)
    requires Enabled(c, ev)
  {
    var s := c.servers[Actor(ev)];
    && NextPositive(s.peers)
    && (ev.Deliver? ==>
          match ev.p.msg
          case RequestVote(_, _, _, _) => RequestVoteAsserts(s, ev.p.msg, ev.rnd)
          case VoteReply(_, _) => true
          case AppendEntries(_, _, _, _, _, _) => AppendEntriesAsserts(s, Cut(ev.p.msg, ev.chain), ev.pop)
          case AppendReply(_, _, _, _) => AppendReplyAsserts(s, ev.p.src, ev.p.msg))
  }

  /** The acting server's new state and the packets it sends. */
  function Outcome(c: Cluster, ev: Event): (Server, set<Packet>)
    requires Enabled(c, ev) && AssertsHold(c, ev)
  {
    var s := c.servers[Actor(ev)];
    match ev
    case PeriodicAt(n, msec, rnd, shutdown) => Sent(Periodic(s, msec, rnd, shutdown))
    case ClientEntry(n, e) => Sent(RecvEntry(s, e))
    case ApplyAllAt(n, quota) => Sent(ApplyAll(s, quota))
    case Deliver(p, chain, pop, ready, rnd) =>
      match p.msg
      case RequestVote(_, _, _, _) => Replied(p, RecvRequestVote(s, p.src, p.msg, rnd))
      case VoteReply(_, _) => Sent(RecvVoteReply(s, p.src, p.msg, rnd))
      case AppendEntries(_, _, _, _, _, _) => Replied(p, RecvAppendEntries(s, p.src, Cut(p.msg, chain), pop, rnd))
      case AppendReply(_, _, _, _) => Sent(RecvAppendReply(s, p.src, p.msg, ready, rnd))
  }

  function Sent(e: Effect): (Server, set<Packet>) {
    (e.server, set q | q in e.out)
  }

  function Replied(p: Packet, a: Answer): (Server, set<Packet>) {
    (a.server, {Packet(p.dst, p.src, a.reply)})
  }

  function After(c: Cluster, ev: Event): Cluster
    requires Enabled(c, ev) && AssertsHold(c, ev)
  {
    var (s, out) := Outcome(c, ev);
    Cluster(c.servers[Actor(ev) := s], c.net + out)
  }

  /** An AppendEntries is built from listed entries: the one before its entries, whose term it
      tells, and the first of them. */
  predicate Backed(s: Server, msg: Message) {
    msg.AppendEntries? ==>
      && (0 < msg.prevIdx ==> HasEntry(s, msg.prevIdx))
      && (0 < msg.n ==> HasEntry(s, msg.prevIdx + 1))
  }

  predicate SendsBacked(s: Server, out: set<Packet>) {
    forall q :: q in out ==> Backed(s, q.msg)
  }

  predicate StepBy(c: Cluster, ev: Event, c': Cluster) {
    && Possible(c, ev) && AssertsHold(c, ev)
    && SendsBacked(Outcome(c, ev).0, Outcome(c, ev).1)
    && c' == After(c, ev)
  }

  ghost predicate Next(c: Cluster, c': Cluster) {
    exists ev :: StepBy(c, ev, c')
  }

  /** A run: it starts in an initial cluster and every step is one handler on one server. */
  ghost predicate IsRun(members: set<NodeId>, run: seq<Cluster>)
    ensures IsRun(members, run) ==> run != []
  {
    && run != []
    && Initial(members, run[0])
    && forall i :: 0 <= i < |run| - 1 ==> Next(run[i], run[i + 1])
  }

  /** A step of which only that it is enabled is known. If an assertion fails, anything may follow. */
  ghost predicate EnabledNext(c: Cluster, c': Cluster) {
    exists ev :: EnabledBy(c, ev, c')
  }

  predicate EnabledBy(c: Cluster, ev: Event, c': Cluster) {
    Enabled(c, ev) && (AssertsHold(c, ev) ==> c' == After(c, ev))
  }

  /** No log of the cluster is longer than its list has room for. */
  ghost predicate WithinCapacity(c: Cluster) {
    forall n :: n in c.servers ==> |c.servers[n].log| <= c.servers[n].capacity
  }
}
