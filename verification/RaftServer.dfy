/** The server object. Each handler changes its fields in place and is proved against the
    function of the same name in `Handlers`; the callbacks that send a message append to the
    outbox, and `applylog` appends to `fed`. */
module ServerObject {
  import opened RaftTypes
  import opened Peers
  import opened Handlers
  import opened HandlerLaws
  import opened LogModel
  import opened ListLoops
  import opened RaftLog
  import opened RaftNode
  import opened Membership

  const MAX_NODES := 7

  function Entries(chain: seq<Stored>): (r: seq<Entry>)
    ensures |r| == |chain|
    ensures forall i :: 0 <= i < |chain| ==> r[i] == chain[i].entry
  {
    seq(|chain|, i requires 0 <= i < |chain| => chain[i].entry)
  }

  ghost function PeersOf(nodes: seq<Node>): seq<Peer>
    reads nodes
  {
    seq(|nodes|, i requires 0 <= i < |nodes| reads nodes => nodes[i].View())
  }

  /** No voting change is in progress, and the callback for sufficient logs exists and accepts. */
  predicate Ready(changing: bool, sufficient: Option<int>) {
    !changing && sufficient == Some(0)
  }

  /** A voting candidate hears that a server of its term does not know it. */
  predicate ToldUnknown(s: Server, r: Message)
    requires r.VoteReply?
  {
    s.role == Candidate && s.term == r.term && r.ballot == UnknownNode && SelfVoting(s)
  }

  predicate NoCfg(es: seq<Entry>) {
    forall e :: e in es ==> !IsCfgChange(e)
  }

  /** Where the send callbacks put their packets. */
  class Outbox {
    var sent: seq<Packet>

    constructor ()
      ensures sent == []
    {
      sent := [];
    }
  }

  class RaftServer {
    const node: Node
    const log: Log
    const outbox: Outbox
    var nodes: seq<Node>
    var term: nat
    var votedFor: Option<NodeId>
    var role: Role
    var currentLeader: Node?
    var commit: nat
    var applied: nat
    var fed: seq<Handed>
    var elapsed: nat
    var electionTimeout: Pos
    var electionRand: nat
    var requestTimeout: nat

    /** All entries appended and not deleted, whether or not the list still holds them. */
    ghost var history: seq<Entry>

    /** The state this object stands for. */
    ghost function View(): Server
      reads this, log, nodes
    {
      Server(node.id, term, votedFor, role, if currentLeader == null then None else Some(currentLeader.id),
             history, Gone(), log.capacity, commit, applied, fed, PeersOf(nodes),
             elapsed, electionTimeout, electionRand, requestTimeout)
    }

    /** How many entries the list has lost. */
    ghost function Gone(): nat
      reads log
    {
      if |log.entries| <= log.count then log.count - |log.entries| else 0
    }

    /** Node objects and ids are distinct, the own node is listed, and next indices start at 1. */
    ghost predicate NodesOK()
      reads `nodes, nodes
    {
      NodesDistinct() && forall n :: n in nodes ==> 1 <= n.nextIdx
    }

    ghost predicate NodesDistinct()
      reads `nodes
    {
      && node in nodes
      && (forall i, j :: 0 <= i < j < |nodes| ==> nodes[i] != nodes[j] && nodes[i].id != nodes[j].id)
    }

    /** The list is a window on the history. */
    ghost predicate LogOK()
      reads `history, log
    {
      log.Valid() && Window(log.State(), log.capacity, history)
    }

    ghost predicate Valid()
      reads this, log, nodes
    {
      NodesOK() && LogOK() && applied <= commit <= |history|
    }

    // ----- Construction -----

    /** A fresh server whose own node was added, as the application does first. */
    constructor (self: NodeId, capacity: Pos, rnd: nat)
      ensures Valid() && fresh(log) && fresh(nodes) && nodes == [node]
      ensures View() == Server(self, 0, None, Follower, None, [], 0, capacity, 0, 0, [], [NewPeer(self, true)],
                               0, 1000, 1000 + rnd % 1000, 200)
      ensures fresh(outbox) && outbox.sent == [] && log.capacity == capacity
    {
      var n := new Node(self);
      node := n;
      log := new Log(capacity);
      outbox := new Outbox();
      nodes := [n];
      term, votedFor, role, currentLeader, commit, applied := 0, None, Follower, null, 0, 0;
      fed, elapsed, electionTimeout, electionRand, requestTimeout := [], 0, 1000, 1000 + rnd % 1000, 200;
      history := [];
      new;
      assert PeersOf(nodes) == [NewPeer(self, true)];
    }

    // ----- Term and role -----

    /** The common answer to a higher term: adopt it as a follower that knows no leader. */
    method StepDownTo(t: nat, rnd: nat)
      requires Valid()
      modifies `term, `votedFor, `role, `currentLeader, `elapsed, `electionRand
      ensures Valid()
      ensures View() == StepDown(old(View()), t, rnd)
    {
      hide PeersOf, NodesOK, LogOK, Entries;
      SetCurrentTerm(t);
      BecomeFollower(rnd);
      currentLeader := null;
    }

    method SetCurrentTerm(t: nat)
      requires Valid()
      modifies `term, `votedFor
      ensures Valid()
      ensures View() == SetTerm(old(View()), t)
    {
      hide PeersOf, NodesOK, LogOK, Entries;
      if term < t {
        term := t;
        votedFor := None;
      }
    }

    method BecomeFollower(rnd: nat)
      requires Valid()
      modifies `role, `electionRand, `elapsed
      ensures Valid()
      ensures View() == Handlers.BecomeFollower(old(View()), rnd)
    {
      hide PeersOf, NodesOK, LogOK, Entries;
      role := Follower;
      electionRand := electionTimeout + rnd % electionTimeout;
      elapsed := 0;
    }

    /** The source asserts both bounds. */
    method SetCommitIdx(idx: nat)
      requires Valid() && commit <= idx <= log.CurrentIdx()
      modifies `commit
      ensures Valid()
      ensures View() == old(View()).(commit := idx)
    {
      hide PeersOf, NodesOK;
      CountIsLength();
      commit := idx;
    }

    // ----- The node list -----

    lemma ViewsDistinct()
      requires NodesOK()
      ensures DistinctIds(PeersOf(nodes)) && NextPositive(PeersOf(nodes)) && node.View() in PeersOf(nodes)
    {
      var i :| 0 <= i < |nodes| && nodes[i] == node;
      assert PeersOf(nodes)[i] == node.View();
    }

    method GetNode(id: NodeId) returns (r: Node?)
      requires NodesOK()
      ensures r != null ==> r in nodes && Find(PeersOf(nodes), id) == Some(r.View())
      ensures r == null ==> Find(PeersOf(nodes), id) == None
    {
      ViewsDistinct();
      for i := 0 to |nodes|
        invariant forall j :: 0 <= j < i ==> nodes[j].id != id
      {
        if nodes[i].id == id {
          FindIs(PeersOf(nodes), i);
          return nodes[i];
        }
      }
      r := null;
    }

    lemma SelfFound()
      requires NodesOK()
      ensures Find(PeersOf(nodes), node.id) == Some(node.View())
    {
      ViewsDistinct();
      var i :| 0 <= i < |nodes| && nodes[i] == node;
      FindIs(PeersOf(nodes), i);
    }

    method NumVotingNodes() returns (num: nat)
      requires NodesOK()
      ensures num == |VotingIds(PeersOf(nodes))|
    {
      ViewsDistinct();
      ghost var ps := PeersOf(nodes);
      num := 0;
      for i := 0 to |nodes|
        invariant num == |VotingIds(ps[..i])|
      {
        VotingIdsExtend(ps, i);
        if !Bit(nodes[i].flags, INACTIVE) && Bit(nodes[i].flags, VOTING) {
          num := num + 1;
        }
      }
      assert ps[..|nodes|] == ps;
    }

    method NVotesForMe() returns (votes: nat)
      requires Valid()
      ensures votes == VotesForMe(View())
    {
      ViewsDistinct();
      ghost var ps := PeersOf(nodes);
      votes := 0;
      for i := 0 to |nodes|
        invariant votes == |Supporters(ps[..i], node.id)|
      {
        SupportersExtend(ps, node.id, i);
        if nodes[i] != node && !Bit(nodes[i].flags, INACTIVE) && Bit(nodes[i].flags, VOTING) && Bit(nodes[i].flags, VOTED_FOR_ME) {
          votes := votes + 1;
        }
      }
      assert ps[..|nodes|] == ps;
      if votedFor == Some(node.id) {
        votes := votes + 1;
      }
    }

    // ----- Sending -----

    /** What a lookup finds. */
    lemma ListedAt(idx: nat)
      requires LogOK()
      ensures At(log.State(), idx) == if Gone() < idx <= |history| then Some(history[idx - 1]) else None
    {
      LookupInWindow(log.State(), log.capacity, history, idx);
    }

    /** `raft_get_entry_from_idx`. */
    method GetEntry(idx: nat) returns (r: Option<Entry>)
      requires LogOK()
      ensures r == if Gone() < idx <= |history| then Some(history[idx - 1]) else None
    {
      ListedAt(idx);
      r := log.GetAtIdx(idx);
    }

    /** `raft_get_entries_from_idx`: the announced number is the length of the chain. The index must
        not have left the list. */
    method GetEntriesFrom(idx: nat) returns (es: seq<Entry>, n: nat)
      requires LogOK() && Gone() < idx
      ensures es == (if idx <= |history| then history[idx - 1..] else []) && n == |es|
    {
      var chain, count := log.GetFromIdx(idx, history);
      es, n := Entries(chain), count;
    }

    /** The source asserts that the peer is not the server itself, and reads the entry at the peer's
        next index. */
    method SendAppendEntries(n: Node)
      requires LogOK() && 1 <= n.nextIdx && n != node && CanSend(View(), n.View())
      modifies outbox
      ensures outbox.sent == old(outbox.sent) + [Packet(node.id, n.id, AppendFor(View(), n.View()))]
    {
      hide LogOK, PeersOf, Entries;
      var prevIdx, prevTerm := 0, 0;
      var es, count := GetEntriesFrom(n.nextIdx);
      if 1 < n.nextIdx {
        var prev := GetEntry(n.nextIdx - 1);
        prevIdx := n.nextIdx - 1;
        prevTerm := if prev.Some? then prev.value.term else 0;
      }
      outbox.sent := outbox.sent + [Packet(node.id, n.id, AppendEntries(term, prevIdx, prevTerm, commit, count, es))];
    }

    method LastLogTerm() returns (t: nat)
      requires LogOK()
      ensures t == TailTerm(View())
    {
      CountIsLength();
      t := 0;
      if 0 < log.CurrentIdx() {
        var ety := GetEntry(log.CurrentIdx());
        if ety.Some? {
          t := ety.value.term;
        }
      }
    }

    method SendRequestVote(n: Node)
      requires LogOK() && n != node
      modifies outbox
      ensures outbox.sent == old(outbox.sent) + [Packet(node.id, n.id, VoteRequest(View()))]
    {
      CountIsLength();
      var lastTerm := LastLogTerm();
      outbox.sent := outbox.sent + [Packet(node.id, n.id, RequestVote(term, node.id, log.CurrentIdx(), lastTerm))];
    }

    /** Element `i` of the list: which node it is and whether it is this server. */
    lemma Listed(i: nat)
      requires NodesOK() && i < |nodes|
      ensures PeersOf(nodes)[i] == nodes[i].View() && 1 <= nodes[i].nextIdx && nodes[i] in nodes
      ensures nodes[i] == node <==> nodes[i].id == node.id
    {
      var k :| 0 <= k < |nodes| && nodes[k] == node;
    }

    method SendAppendEntriesAll()
      requires Valid() && CanSendAll(View(), View().peers, Heartbeat)
      modifies this, outbox
      ensures Valid() && nodes == old(nodes)
      ensures NextPositive(old(View()).peers)
      ensures View() == Handlers.SendAppendEntriesAll(old(View())).server
      ensures outbox.sent == old(outbox.sent) + Handlers.SendAppendEntriesAll(old(View())).out
    {
      elapsed := 0;
      ViewsDistinct();
      ghost var v := View();
      BroadcastAll(v, Heartbeat);
    }

    /** The loop of every broadcast: each addressed peer gets its letter, in list order. */
    method BroadcastAll(ghost v: Server, w: Wave)
      requires NodesOK() && LogOK() && v == View() && NextPositive(v.peers) && CanSendAll(v, v.peers, w)
      modifies outbox
      ensures outbox.sent == old(outbox.sent) + Broadcast(v, v.peers, w)
    {
      hide Letter, Addressed, LogOK, NodesOK, Broadcast, PeersOf, Entries;
      BroadcastEnds(v, w);
      for i := 0 to |nodes|
        modifies outbox
        invariant outbox.sent == old(outbox.sent) + Broadcast(v, v.peers[..i], w)
      {
        BroadcastExtend(v, v.peers, w, i);
        SendLetterAt(i, v, w);
      }
    }

    lemma BroadcastEnds(v: Server, w: Wave)
      requires v == View() && NextPositive(v.peers)
      ensures |v.peers| == |nodes| && v.peers[..|nodes|] == v.peers && Broadcast(v, v.peers[..0], w) == []
    {
    }

    method SendLetterAt(i: nat, ghost v: Server, w: Wave)
      requires NodesOK() && LogOK() && v == View() && i < |nodes| == |v.peers| && 1 <= v.peers[i].nextIdx
      requires Addressed(v, v.peers[i], w) && !w.Canvass? ==> CanSend(v, v.peers[i])
      modifies outbox
      ensures outbox.sent == old(outbox.sent) + if Addressed(v, v.peers[i], w) then [Letter(v, v.peers[i], w)] else []
    {
      hide Letter, Addressed, LogOK, NodesOK, Entries;
      Listed(i);
      SendLetter(nodes[i], w);
    }

    method SendLetter(n: Node, w: Wave)
      requires LogOK() && 1 <= n.nextIdx && (n == node <==> n.id == node.id)
      requires Addressed(View(), n.View(), w) && !w.Canvass? ==> CanSend(View(), n.View())
      modifies outbox
      ensures outbox.sent == old(outbox.sent) +
        if Addressed(View(), n.View(), w) then [Letter(View(), n.View(), w)] else []
    {
      if n == node || Bit(n.flags, INACTIVE) {
      } else if w.Canvass? {
        if Bit(n.flags, VOTING) {
          SendRequestVote(n);
        }
      } else if w.Heartbeat? || (Bit(n.flags, VOTING) && n.nextIdx == log.CurrentIdx()) {
        SendAppendEntries(n);
      }
    }

    // ----- Elections -----

    method BecomeCandidate(rnd: nat)
      requires Valid()
      modifies this, nodes, outbox
      ensures Valid() && nodes == old(nodes)
      ensures NextPositive(old(View()).peers)
      ensures View() == Handlers.BecomeCandidate(old(View()), rnd).server
      ensures outbox.sent == old(outbox.sent) + Handlers.BecomeCandidate(old(View()), rnd).out
    {
      hide NodesOK, LogOK, Broadcast, PeersOf, Entries, NextPositive, Handlers.BecomeCandidate;
      ViewsDistinct();
      EnterCandidacy(rnd);
      CandidacyOut(old(View()), rnd);
      BroadcastAll(View(), Canvass);
    }

    /** A new term, no votes on record but the own one. */
    method EnterCandidacy(rnd: nat)
      requires Valid()
      modifies `term, `votedFor, `currentLeader, `role, `electionRand, `elapsed, nodes
      ensures Valid() && NextPositive(old(View()).peers)
      ensures View() == Handlers.BecomeCandidate(old(View()), rnd).server
    {
      hide NodesOK, LogOK, Broadcast, PeersOf, Entries, ClearVotes, NextPositive;
      ViewsDistinct();
      SetCurrentTerm(term + 1);
      ClearAllVotes();
      StandForElection(rnd);
    }

    method StandForElection(rnd: nat)
      requires Valid()
      modifies `votedFor, `currentLeader, `role, `electionRand, `elapsed
      ensures Valid()
      ensures View() == old(View()).(votedFor := Some(node.id), leader := None, role := Candidate, elapsed := 0,
                                     electionRand := electionTimeout + rnd % electionTimeout)
    {
      hide NodesOK, LogOK, PeersOf, Entries;
      votedFor := Some(node.id);
      currentLeader := null;
      role := Candidate;
      electionRand := electionTimeout + rnd % electionTimeout;
      elapsed := 0;
    }

    method ClearAllVotes()
      requires Valid()
      modifies nodes
      ensures Valid() && View() == old(View()).(peers := ClearVotes(old(View().peers)))
    {
      for i := 0 to |nodes|
        invariant Valid()
        invariant forall j :: 0 <= j < i ==> nodes[j].View() == old(nodes[j].View()).(votedForMe := false)
        invariant forall j :: i <= j < |nodes| ==> nodes[j].View() == old(nodes[j].View())
      {
        nodes[i].VoteForMe(false);
      }
      assert PeersOf(nodes) == ClearVotes(old(PeersOf(nodes)));
    }

    /** Each peer's progress is reset and a heartbeat goes out to it at once. */
    method BecomeLeader()
      requires Valid()
      modifies this, nodes, outbox
      ensures Valid() && nodes == old(nodes)
      ensures NextPositive(old(View()).peers)
      ensures View() == Handlers.BecomeLeader(old(View())).server
      ensures outbox.sent == old(outbox.sent) + Handlers.BecomeLeader(old(View())).out
    {
      hide NodesOK, LogOK, PeersOf, Entries, Broadcast, ResetProgress, NextPositive;
      ViewsDistinct();
      TakeLead();
      PromoteAll(View().(peers := ResetProgress(View().peers, node.id, |history|)));
    }

    method TakeLead()
      requires Valid()
      modifies `role, `currentLeader, `elapsed
      ensures Valid() && View() == old(View()).(role := Leader, leader := Some(node.id), elapsed := 0)
    {
      hide NodesOK, LogOK, PeersOf, Entries;
      role := Leader;
      currentLeader := node;
      elapsed := 0;
    }

    /** What a message built by this server depends on is the same in `v`. */
    ghost predicate Sends(v: Server)
      reads `term, `commit, `history, log
    {
      v.id == node.id && v.term == term && v.commit == commit && v.log == history && v.gone == Gone()
    }

    /** The loop in `raft_become_leader`, for the leader state `v`. */
    method PromoteAll(ghost v: Server)
      requires NodesOK() && LogOK() && Sends(v)
      requires v.peers == ResetProgress(PeersOf(nodes), node.id, |v.log|)
      modifies nodes, outbox
      ensures NodesOK() && PeersOf(nodes) == v.peers && NextPositive(v.peers)
      ensures outbox.sent == old(outbox.sent) + Broadcast(v, v.peers, Heartbeat)
    {
      hide Broadcast, Letter, Addressed, NodesOK, LogOK, PeersOf, Sends, PartReset, ResetProgress;
      ghost var ps := PeersOf(nodes);
      PromotionStarts(v);
      for i := 0 to |nodes|
        invariant NodesOK()
        invariant PeersOf(nodes) == PartReset(ps, node.id, |v.log|, i)
        invariant outbox.sent == old(outbox.sent) + Broadcast(v, v.peers[..i], Heartbeat)
      {
        BroadcastExtend(v, v.peers, Heartbeat, i);
        PartResetStep(ps, node.id, |v.log|, i);
        PromoteAt(i, v);
      }
      assert v.peers[..|nodes|] == v.peers;
    }

    lemma PromotionStarts(v: Server)
      requires NodesOK() && v.peers == ResetProgress(PeersOf(nodes), node.id, |v.log|)
      ensures NextPositive(v.peers) && |PeersOf(nodes)| == |nodes| == |v.peers|
      ensures PeersOf(nodes) == PartReset(PeersOf(nodes), node.id, |v.log|, 0)
      ensures v.peers == PartReset(PeersOf(nodes), node.id, |v.log|, |nodes|)
      ensures Broadcast(v, v.peers[..0], Heartbeat) == []
    {
      ViewsDistinct();
      PartResetEnds(PeersOf(nodes), node.id, |v.log|);
    }

    method PromoteAt(i: nat, ghost v: Server)
      requires NodesOK() && LogOK() && i < |nodes| == |v.peers|
      requires Sends(v)
      requires var p := PeersOf(nodes)[i];
        v.peers[i] == if p.id == node.id || !p.active then p else p.(nextIdx := |v.log| + 1, matchIdx := 0)
      modifies nodes[i], outbox
      ensures NodesOK() && PeersOf(nodes) == old(PeersOf(nodes))[i := v.peers[i]]
      ensures 1 <= v.peers[i].nextIdx
      ensures outbox.sent == old(outbox.sent) +
        if Addressed(v, v.peers[i], Heartbeat) then [Letter(v, v.peers[i], Heartbeat)] else []
    {
      Listed(i);
      PromotePeer(nodes[i], v);
      assert PeersOf(nodes) == old(PeersOf(nodes))[i := v.peers[i]];
    }

    /** One round of that loop. */
    method PromotePeer(n: Node, ghost v: Server)
      requires LogOK() && 1 <= n.nextIdx && (n == node <==> n.id == node.id)
      requires Sends(v)
      modifies n, outbox
      ensures 1 <= n.nextIdx
      ensures n.View() == if n == node || !old(n.View()).active then old(n.View())
                          else old(n.View()).(nextIdx := |v.log| + 1, matchIdx := 0)
      ensures outbox.sent == old(outbox.sent) +
        if Addressed(v, n.View(), Heartbeat) then [Letter(v, n.View(), Heartbeat)] else []
    {
      if n != node && !Bit(n.flags, INACTIVE) {
        n.SetNextIdx(log.CurrentIdx() + 1);
        n.SetMatchIdx(0);
        SendAppendEntries(n);
      }
    }

    lemma SelfVotes()
      requires NodesOK()
      ensures SelfVoting(View()) == Bit(node.flags, VOTING)
    {
      SelfFound();
      hide NodesOK, PeersOf, Find, Entries;
    }

    lemma CountIsLength()
      requires LogOK()
      ensures log.CurrentIdx() == |history|
    {
    }

    method ShouldGrantVote(rv: Message) returns (grant: bool)
      requires Valid() && rv.RequestVote? && GrantReads(View(), rv)
      ensures grant == Handlers.ShouldGrantVote(View(), rv)
    {
      hide NodesOK, LogOK, PeersOf, SelfVoting;
      SelfVotes();
      CountIsLength();
      if !Bit(node.flags, VOTING) || rv.term < term || votedFor != None {
        return false;
      }
      var currentIdx := log.CurrentIdx();
      if currentIdx == 0 {
        return true;
      }
      var ety := GetEntry(currentIdx);
      if ety.value.term < rv.lastTerm {
        return true;
      }
      return rv.lastTerm == ety.value.term && currentIdx <= rv.lastIdx;
    }

    method RecvRequestVote(from: NodeId, rv: Message, rnd: nat) returns (r: Message, e: int)
      requires Valid() && rv.RequestVote? && RequestVoteAsserts(View(), rv, rnd) && GrantReads(View(), rv)
      modifies `term, `votedFor, `role, `currentLeader, `elapsed, `electionRand
      ensures Valid()
      ensures Answer(View(), r, e) == Handlers.RecvRequestVote(old(View()), from, rv, rnd)
    {
      hide NodesOK, LogOK, PeersOf, Entries, SelfVoting, Handlers.ShouldGrantVote, StepDown, Ids, Find;
      StillReads(View(), rv, rnd);
      var known := GetNode(from);
      if known == null {
        known := GetNode(rv.candidate);
      }
      if term < rv.term {
        StepDownTo(rv.term, rnd);
      }
      var ballot;
      var grant := ShouldGrantVote(rv);
      if grant {
        assert role == Follower;
        VoteFor(rv.candidate);
        ballot := Granted;
      } else {
        ballot := if known == null then UnknownNode else NotGranted;
      }
      return VoteReply(term, ballot), 0;
    }

    method VoteFor(candidate: NodeId)
      requires Valid()
      modifies `votedFor, `currentLeader, `elapsed
      ensures Valid()
      ensures View() == old(View()).(votedFor := Some(candidate), leader := None, elapsed := 0)
    {
      hide NodesOK, LogOK, PeersOf, Entries;
      votedFor := Some(candidate);
      currentLeader := null;
      elapsed := 0;
    }

    /** `disconnecting`: whether the server is leaving the cluster, which is for the caller to know. */
    method RecvVoteReply(from: NodeId, r: Message, disconnecting: bool, rnd: nat) returns (e: int)
      requires Valid() && r.VoteReply?
      modifies this, nodes, outbox
      ensures Valid() && nodes == old(nodes)
      ensures NextPositive(old(View()).peers)
      ensures var f := Handlers.RecvVoteReply(old(View()), from, r, rnd);
        && View() == f.server && outbox.sent == old(outbox.sent) + f.out
        && e == if ToldUnknown(old(View()), r) && disconnecting then ERR_SHUTDOWN else f.err
    {
      hide NodesOK, LogOK, Broadcast, PeersOf, Entries, SelfVoting, Handlers.BecomeLeader, VotingIds, RecordSupport,
           VotesForMe, VotesIsMajority;
      ViewsDistinct();
      e := 0;
      if role != Candidate {
        return;
      } else if term < r.term {
        StepDownTo(r.term, rnd);
        return;
      } else if term != r.term {
        return;
      }
      SelfVotes();
      match r.ballot
      case Granted =>
        CountVote(from);
        LeadsWithoutError(RecordSupport(old(View()), from));
      case NotGranted =>
      case UnknownNode =>
        if Bit(node.flags, VOTING) && disconnecting {
          return ERR_SHUTDOWN;
        }
    }

    method CountVote(from: NodeId)
      requires Valid()
      modifies this, nodes, outbox
      ensures Valid() && nodes == old(nodes)
      ensures var s1 := RecordSupport(old(View()), from);
        && NextPositive(s1.peers)
        && if VotesIsMajority(|VotingIds(s1.peers)|, VotesForMe(s1)) then
             View() == Handlers.BecomeLeader(s1).server && outbox.sent == old(outbox.sent) + Handlers.BecomeLeader(s1).out
           else View() == s1 && outbox.sent == old(outbox.sent)
    {
      hide NodesOK, LogOK, PeersOf, Entries, Handlers.BecomeLeader, VotingIds, RecordSupport, VotesForMe, VotesIsMajority;
      RecordVote(from);
      ViewsDistinct();
      var votes := NVotesForMe();
      var num := NumVotingNodes();
      if VotesIsMajority(num, votes) {
        BecomeLeader();
      }
    }

    method RecordVote(from: NodeId)
      requires Valid()
      modifies nodes
      ensures Valid() && View() == RecordSupport(old(View()), from)
    {
      var n := GetNode(from);
      if n != null {
        ghost var q := n.View().(votedForMe := true);
        n.VoteForMe(true);
        ReplacedNode(n, q, old(PeersOf(nodes)));
      }
    }

    /** One node object changed: the list shows the peer replaced. */
    lemma ReplacedNode(n: Node, q: Peer, before: seq<Peer>)
      requires NodesOK() && n in nodes && n.View() == q && |before| == |nodes|
      requires forall i :: 0 <= i < |nodes| ==> before[i].id == nodes[i].id && (nodes[i] == n || before[i] == nodes[i].View())
      ensures PeersOf(nodes) == Replace(before, q)
    {
      forall i | 0 <= i < |nodes| ensures PeersOf(nodes)[i] == Replace(before, q)[i] {
        var k :| 0 <= k < |nodes| && nodes[k] == n;
      }
    }

    // ----- Replication: the leader's side -----

    method AppendEntry(e: Entry)
      requires Valid() && !IsCfgChange(e)
      modifies `history, log
      ensures Valid() && View() == Grown(old(View()), [e])
    {
      hide NodesOK, PeersOf;
      AppendKeepsWindow(log.State(), log.capacity, history, e, 0);
      var err := log.Append(e, 0);
      history := history + [e];
    }

    method RecvEntry(ety: Entry) returns (e: int, r: EntryResponse)
      requires Valid() && !IsCfgChange(ety)
      modifies this, log, outbox
      ensures Valid() && nodes == old(nodes)
      ensures NextPositive(old(View()).peers)
      ensures var f := Handlers.RecvEntry(old(View()), ety);
        View() == f.server && e == f.err && outbox.sent == old(outbox.sent) + f.out
      ensures e == 0 ==> r == RecvEntryResponse(old(View()), ety)
    {
      hide NodesOK, PeersOf, LogOK, Broadcast, VotingIds;
      ViewsDistinct();
      r := EntryResponse(0, 0, 0);
      if role != Leader {
        return ERR_NOT_LEADER, r;
      }
      ListBounds();
      AppendEntry(ety.(term := term));
      NewestListed(View());
      BroadcastAll(View(), NewEntry);
      var num := NumVotingNodes();
      CountIsLength();
      if num == 1 {
        SetCommitIdx(log.CurrentIdx());
      }
      return 0, EntryResponse(ety.id, log.CurrentIdx(), term);
    }

    lemma ListBounds()
      requires LogOK()
      ensures Gone() <= |history| <= Gone() + log.capacity && Lists(log.State(), View())
      ensures log.Valid() && log.count == |history|
    {
    }

    /** The loop of the quorum rule: this server and the peers known to hold the log that far. */
    method CountHolders(point: nat) returns (votes: nat)
      requires NodesOK()
      ensures votes == 1 + |Holders(PeersOf(nodes), node.id, point)|
    {
      ViewsDistinct();
      ghost var ps := PeersOf(nodes);
      votes := 1;
      for i := 0 to |nodes|
        invariant votes == 1 + |Holders(ps[..i], node.id, point)|
      {
        Listed(i);
        HoldersExtend(ps, node.id, point, i);
        if nodes[i] != node && !Bit(nodes[i].flags, INACTIVE) && Bit(nodes[i].flags, VOTING) && point <= nodes[i].matchIdx {
          votes := votes + 1;
        }
      }
      assert ps[..|nodes|] == ps;
    }

    method AdvanceCommit(point: nat)
      requires Valid() && 1 <= point <= |history| && (commit < point ==> Gone() < point)
      modifies this
      ensures Valid() && nodes == old(nodes)
      ensures View() == Handlers.AdvanceCommit(old(View()), point)
    {
      hide NodesOK, PeersOf, LogOK, VotingIds, Holders;
      CountIsLength();
      var ety := GetEntry(point);
      if commit < point && ety.value.term == term {
        var votes := CountHolders(point);
        var num := NumVotingNodes();
        if num / 2 < votes {
          SetCommitIdx(point);
        }
      }
    }

    /** `changing`: whether a voting change is in progress. `sufficient`: what the callback for sufficient
        logs returns, if there is one. */
    method RecvAppendReply(n: Node, r: Message, changing: bool, sufficient: Option<int>, rnd: nat) returns (e: int)
      requires Valid() && n in nodes && r.AppendReply? && AppendReplyAsserts(View(), n.id, r)
      requires QuorumReads(View(), n.id, r) && NextPositive(View().peers) && RetryReads(View(), n.id, r)
      modifies this, nodes, outbox
      ensures Valid() && nodes == old(nodes)
      ensures NextPositive(old(View()).peers)
      ensures var f := Handlers.RecvAppendReply(old(View()), n.id, r, Ready(changing, sufficient), rnd);
        View() == f.server && e == f.err && outbox.sent == old(outbox.sent) + f.out
    {
      hide NodesOK, AppendFor, BackOff, Acknowledged, Handlers.AdvanceCommit, Replace, LogOK, PeersOf, Ready;
      ViewsDistinct();
      NodeFound(n);
      if role != Leader {
        return ERR_NOT_LEADER;
      }
      e := 0;
      if term < r.term {
        StepDownTo(r.term, rnd);
        return;
      } else if term != r.term {
        return;
      }
      if !r.success {
        RecvFailure(n, r);
      } else {
        RecvSuccess(n, r, changing, sufficient);
      }
    }

    /** A failure reply of the current term: back off and retry, unless it is stale. */
    method RecvFailure(n: Node, r: Message)
      requires Valid() && n in nodes && n != node && r.AppendReply? && 1 <= n.nextIdx
      requires n.matchIdx != n.nextIdx - 1 ==> CanSend(View(), BackOff(View(), n.View(), r))
      modifies this, nodes, outbox
      ensures Valid() && nodes == old(nodes) && old(n.View()).nextIdx >= 1
      ensures old(n.View()).matchIdx == old(n.View()).nextIdx - 1 ==> View() == old(View()) && outbox.sent == old(outbox.sent)
      ensures old(n.View()).matchIdx != old(n.View()).nextIdx - 1 ==>
        var p1 := BackOff(old(View()), old(n.View()), r);
        && View() == old(View()).(peers := Replace(old(View()).peers, p1))
        && outbox.sent == old(outbox.sent) + [Packet(node.id, n.id, AppendFor(View(), p1))]
    {
      hide LogOK, PeersOf, Entries, AppendFor, BackOff, Replace;
      if n.matchIdx == n.nextIdx - 1 {
        return;
      }
      BackOffNode(n, r);
      SendAppendEntries(n);
    }

    /** A success reply of the current term: progress, commit index, remaining entries. */
    method RecvSuccess(n: Node, r: Message, changing: bool, sufficient: Option<int>)
      requires Valid() && n in nodes && n != node && r.AppendReply?
      requires n.matchIdx < r.currentIdx ==> r.currentIdx <= |history| && (commit < r.currentIdx ==> Gone() < r.currentIdx)
      modifies this, nodes, outbox
      ensures Valid() && nodes == old(nodes)
      ensures r.currentIdx <= old(n.View()).matchIdx ==> View() == old(View()) && outbox.sent == old(outbox.sent)
      ensures old(n.View()).matchIdx < r.currentIdx ==>
        var p1 := Acknowledged(old(View()), old(n.View()), r, Ready(changing, sufficient));
        && r.currentIdx <= |old(View()).log|
        && View() == Handlers.AdvanceCommit(old(View()).(peers := Replace(old(View()).peers, p1)), r.currentIdx)
        && outbox.sent == old(outbox.sent) +
             if HasEntry(View(), p1.nextIdx) then [Packet(node.id, n.id, AppendFor(View(), p1))] else []
    {
      hide LogOK, PeersOf, AppendFor, Acknowledged, Replace, Handlers.AdvanceCommit;
      if r.currentIdx <= n.matchIdx {
        return;
      }
      AcknowledgeNode(n, r, changing, sufficient);
      AdvanceCommit(r.currentIdx);
      var next := GetEntry(n.nextIdx);
      if next.Some? {
        SendAppendEntries(n);
      }
    }

    lemma NodeFound(n: Node)
      requires NodesOK() && n in nodes
      ensures Find(PeersOf(nodes), n.id) == Some(n.View())
      ensures n == node <==> n.id == node.id
    {
      ViewsDistinct();
      var i :| 0 <= i < |nodes| && nodes[i] == n;
      FindIs(PeersOf(nodes), i);
      Listed(i);
    }

    method BackOffNode(n: Node, r: Message)
      requires Valid() && n in nodes && r.AppendReply?
      modifies nodes
      ensures Valid() && 1 <= n.nextIdx
      ensures n.View() == BackOff(old(View()), old(n.View()), r)
      ensures View() == old(View()).(peers := Replace(old(View().peers), n.View()))
    {
      var next := n.nextIdx;
      if r.currentIdx < next - 1 {
        n.SetNextIdx(Min(r.currentIdx + 1, log.CurrentIdx()));
      } else {
        n.SetNextIdx(next - 1);
      }
      ReplacedNode(n, n.View(), old(PeersOf(nodes)));
    }

    method AcknowledgeNode(n: Node, r: Message, changing: bool, sufficient: Option<int>)
      requires Valid() && n in nodes && r.AppendReply?
      modifies nodes
      ensures Valid() && 1 <= n.nextIdx
      ensures n.View() == Acknowledged(old(View()), old(n.View()), r, Ready(changing, sufficient))
      ensures View() == old(View()).(peers := Replace(old(View().peers), n.View()))
    {
      hide Acknowledged, Ready, LogOK;
      CountIsLength();
      MarkAcknowledged(n, View(), r, changing, sufficient);
      ReplacedNode(n, n.View(), old(PeersOf(nodes)));
    }

    /** The peer's indices, and its flag for sufficient logs. */
    method MarkAcknowledged(n: Node, ghost s: Server, r: Message, changing: bool, sufficient: Option<int>)
      requires r.AppendReply? && |s.log| == log.CurrentIdx()
      modifies n
      ensures n.View() == Acknowledged(s, old(n.View()), r, Ready(changing, sufficient)) && 1 <= n.nextIdx
    {
      n.SetNextIdx(r.currentIdx + 1);
      n.SetMatchIdx(r.currentIdx);
      if !Bit(n.flags, VOTING) && !changing && log.CurrentIdx() <= r.currentIdx + 1 && !Bit(n.flags, VOTING_COMMITTED)
         && sufficient.Some? && !Bit(n.flags, HAS_SUFFICIENT_LOG) {
        if sufficient.value == 0 {
          n.SetHasSufficientLogs();
        }
      }
    }

    // ----- Replication: the follower's side -----

    /** The source asserts that the index is above the commit index. */
    method DeleteEntryFromIdx(idx: nat, pop: int) returns (e: int)
      requires log.Valid() && commit < idx
      modifies log
      ensures log.Valid() && (log.State(), e) == Delete(old(log.State()), idx, pop)
    {
      e := log.DeleteAt(idx, pop);
    }

    /** The first lines of the handler: term, role, leader hint and timer. */
    method HearLeaderFrom(from: Node, ae: Message, rnd: nat)
      requires Valid() && ae.AppendEntries? && term <= ae.term
      modifies `term, `votedFor, `role, `currentLeader, `elapsed, `electionRand
      ensures Valid()
      ensures View() == HearLeader(old(View()), from.id, ae, rnd) && currentLeader == from && elapsed == 0
    {
      hide NodesOK, LogOK, PeersOf, Entries;
      if role == Candidate && term == ae.term {
        BecomeFollower(rnd);
      } else if term < ae.term {
        SetCurrentTerm(ae.term);
        BecomeFollower(rnd);
      }
      currentLeader := from;
      elapsed := 0;
    }

    /** What happens to the list is stated for any deletion; if the handler deletes nothing but the
        last entry, the new state and the answer are those on values. */
    method RecvAppendEntries(from: Node, ae: Message, pop: int, rnd: nat) returns (r: Message, e: int)
      requires Valid() && ae.AppendEntries? && NoCfg(ae.entries)
      requires NoNullRead(View(), ae) && AppendEntriesAsserts(View(), ae, pop)
      modifies this, log
      ensures nodes == old(nodes) && NodesOK() && log.Valid()
      ensures old(term) <= ae.term ==> term == ae.term && currentLeader == from && elapsed == 0
      ensures old(term) <= ae.term ==>
        && 0 <= old(log.State()).count
        && Reception(log.State(), commit, r, e) == Received(old(log.State()), ae.term, old(commit), ae, log.capacity, pop)
      ensures TailDeletion(old(View()), ae, pop) ==>
        Valid() && Answer(View(), r, e) == Handlers.RecvAppendEntries(old(View()), from.id, ae, pop, rnd)
    {
      hide NodesOK, LogOK, PeersOf, NoNullRead, AppendEntriesAsserts, TailDeletion, Receive, HearLeader, Received;
      CountIsLength();
      ListBounds();
      if ae.term < term {
        return AppendReply(term, false, log.CurrentIdx(), ae.prevIdx + 1), 0;
      }
      HearLeaderKeeps(View(), from.id, ae, rnd, pop);
      HearLeaderFrom(from, ae, rnd);
      r, e := ReceiveEntries(ae, pop);
    }

    method ReceiveEntries(ae: Message, pop: int) returns (r: Message, e: int)
      requires Valid() && ae.AppendEntries? && NoCfg(ae.entries) && term == ae.term
      requires NoNullRead(View(), ae) && AppendEntriesAsserts(View(), ae, pop)
      modifies `commit, `history, log
      ensures NodesOK() && log.Valid() && 0 <= old(log.State()).count
      ensures Reception(log.State(), commit, r, e) == Received(old(log.State()), term, old(commit), ae, log.capacity, pop)
      ensures TailDeletion(old(View()), ae, pop) ==>
        Valid() && Answer(View(), r, e) == Receive(old(View()), ae, pop)
    {
      hide NodesOK, LogOK, PeersOf, TailDeletion, Receive, Received, Lists, NoNullRead, AppendEntriesAsserts, ListRuns;
      ghost var v, l := View(), log.State();
      CountIsLength();
      ListBounds();
      ListedRuns(l, v, ae, pop);
      r, e := ReceiveIntoList(ae, pop);
      if TailDeletion(v, ae, pop) {
        ghost var a := Receive(v, ae, pop);
        ReceivedLists(l, v, ae, pop);
        ReceivedFields(v, ae, pop);
        history := a.server.log;
        Relisted(a.server);
      }
    }

    lemma Relisted(s: Server)
      requires log.Valid() && Lists(log.State(), s) && s.capacity == log.capacity && s.log == history
      ensures LogOK() && Gone() == s.gone
    {
    }

    /** From the check of the previous entry on. */
    method ReceiveIntoList(ae: Message, pop: int) returns (r: Message, e: int)
      requires log.Valid() && 0 <= log.count && ae.AppendEntries? && NoCfg(ae.entries)
      requires ListRuns(log.State(), commit, ae, log.capacity, pop)
      modifies `commit, log
      ensures log.Valid() && 0 <= old(log.State()).count
      ensures Reception(log.State(), commit, r, e) == Received(old(log.State()), term, old(commit), ae, log.capacity, pop)
    {
      hide At, Delete, FirstLoop, SecondLoop;
      if 0 < ae.prevIdx {
        var ety := log.GetAtIdx(ae.prevIdx);
        if ety.None? {
          return AppendReply(term, false, log.CurrentIdx(), ae.prevIdx + 1), 0;
        }
        if ety.value.term != ae.prevTerm {
          DeleteCounts(log.State(), ae.prevIdx, Max(ae.prevIdx, ae.leaderCommit + 1), pop);
          e := DeleteEntryFromIdx(Max(ae.prevIdx, ae.leaderCommit + 1), pop);
          return AppendReply(term, false, log.CurrentIdx(), ae.prevIdx + 1), e;
        }
      }
      var i: nat;
      i, e := MatchLoop(ae, pop);
      if e != 0 {
        return AppendReply(term, true, ae.prevIdx + i, ae.prevIdx + 1), e;
      }
      r := PickUpLoop(ae, i);
    }

    /** The first loop: pass over the entries that are in place, delete a conflicting one. */
    method MatchLoop(ae: Message, pop: int) returns (i: nat, e: int)
      requires log.Valid() && ae.AppendEntries?
      requires var m := FirstLoop(log.State(), commit, ae, 0);
        m == ae.n || m < |ae.entries| || At(log.State(), ae.prevIdx + 1 + m).None?
      modifies log
      ensures log.Valid() && i == FirstLoop(old(log.State()), commit, ae, 0)
      ensures (log.State(), e) ==
        if i < ae.n && At(old(log.State()), ae.prevIdx + 1 + i).Some? then Delete(old(log.State()), ae.prevIdx + 1 + i, pop)
        else (old(log.State()), 0)
    {
      hide At, Delete;
      ghost var l := log.State();
      i, e := 0, 0;
      while i < ae.n
        modifies log
        invariant i <= ae.n && i <= |ae.entries| && FirstLoop(l, commit, ae, i) == FirstLoop(l, commit, ae, 0)
        invariant log.Valid() && log.State() == l && e == 0
      {
        var existing := log.GetAtIdx(ae.prevIdx + 1 + i);
        if existing.Some? && existing.value.term != ae.entries[i].term && commit < ae.prevIdx + 1 + i {
          e := DeleteEntryFromIdx(ae.prevIdx + 1 + i, pop);
          break;
        } else if existing.None? {
          break;
        }
        i := i + 1;
      }
    }

    /** The second loop: append the rest of the chain; then the follower's commit rule. */
    method PickUpLoop(ae: Message, m: nat) returns (r: Message)
      requires log.Valid() && ae.AppendEntries? && NoCfg(ae.entries) && m <= ae.n && m <= |ae.entries|
      requires var count := SecondLoop(log.State(), ae, log.capacity, m).count;
        ae.n <= |ae.entries| && commit < ae.leaderCommit ==> 1 <= count && commit <= count
      modifies `commit, log
      ensures log.Valid() && log.State() == SecondLoop(old(log.State()), ae, log.capacity, m)
      ensures commit == if ae.n <= |ae.entries| && old(commit) < ae.leaderCommit
                        then Min(LastIndex(log.count), ae.leaderCommit) else old(commit)
      ensures r == AppendReply(term, true, ae.prevIdx + Min(ae.n, |ae.entries|), ae.prevIdx + 1)
    {
      ghost var l := log.State();
      var i, cur := m, ae.prevIdx + m;
      while i < ae.n
        modifies log
        invariant m <= i <= ae.n && i <= |ae.entries| && cur == ae.prevIdx + i
        invariant log.Valid() && SecondLoop(log.State(), ae, log.capacity, i) == SecondLoop(l, ae, log.capacity, m)
      {
        if |ae.entries| <= i {
          return AppendReply(term, true, cur, ae.prevIdx + 1);
        }
        var err := log.Append(ae.entries[i], 0);
        cur := ae.prevIdx + 1 + i;
        i := i + 1;
      }
      if commit < ae.leaderCommit {
        var last := LastIndex(log.CurrentIdx());
        assert commit <= Min(last, ae.leaderCommit) <= log.CurrentIdx();
        commit := Min(last, ae.leaderCommit);
      }
      return AppendReply(term, true, cur, ae.prevIdx + 1);
    }

    // ----- Applying -----

    /** `shutdown`: whether the `applylog` callback asks for one. */
    method ApplyEntry(shutdown: bool) returns (e: int)
      requires Valid() && (applied < commit ==> !IsCfgChange(history[applied]))
      modifies `applied, `fed
      ensures Valid()
      ensures Effect(View(), [], e) == Handlers.ApplyEntry(old(View()), shutdown)
    {
      hide NodesOK, PeersOf, LogOK;
      if applied == commit {
        return -1;
      }
      var ety := GetEntry(applied + 1);
      if ety.None? {
        return -1;
      }
      applied := applied + 1;
      fed := fed + [Handed(ety.value, applied - 1)];
      e := if shutdown then ERR_SHUTDOWN else 0;
    }

    /** `quota`: how many entries the callback accepts before it asks for a shutdown. */
    method ApplyAll(quota: nat) returns (e: int)
      requires Valid() && NoCfg(history[applied..commit])
      modifies `applied, `fed
      ensures Valid()
      ensures Effect(View(), [], e) == Handlers.ApplyAll(old(View()), quota)
    {
      hide NodesOK, PeersOf, Entries, LogOK, Handlers.ApplyEntry;
      ghost var goal := Handlers.ApplyAll(View(), quota);
      var left := quota;
      while applied < commit
        invariant Valid() && old(applied) <= applied
        invariant Handlers.ApplyAll(View(), left) == goal
        decreases commit - applied
      {
        ApplyAllUnfolds(View(), left);
        assert history[applied] in history[old(applied)..commit];
        e := ApplyEntry(left == 0);
        if e != 0 {
          return;
        }
        left := left - 1;
      }
      e := 0;
    }

    // ----- Time -----

    method Periodic(msec: nat, rnd: nat, shutdown: bool) returns (e: int)
      requires Valid() && (applied < commit ==> !IsCfgChange(history[applied]))
      requires NextPositive(View().peers) && TimersRead(Tick(View(), msec).server)
      modifies this, nodes, outbox
      ensures Valid() && nodes == old(nodes)
      ensures NextPositive(old(View()).peers)
      ensures var f := Handlers.Periodic(old(View()), msec, rnd, shutdown);
        View() == f.server && e == f.err && outbox.sent == old(outbox.sent) + f.out
    {
      hide NodesOK, LogOK, PeersOf, Entries, Handlers.ApplyEntry, Handlers.BecomeLeader, Handlers.BecomeCandidate,
           Handlers.SendAppendEntriesAll, Tick, TimersRead, Handlers.Timers;
      ViewsDistinct();
      ghost var v := View();
      PassTime(msec);
      FireTimers(rnd);
      TimeKeepsLog(v, msec, rnd);
      if applied < commit {
        var e1 := ApplyEntry(shutdown);
        if e1 != -1 {
          return e1;
        }
      }
      e := 0;
    }

    method PassTime(msec: nat)
      requires Valid()
      modifies this, nodes, outbox
      ensures Valid() && nodes == old(nodes)
      ensures NextPositive(old(View()).peers)
      ensures View() == Tick(old(View()), msec).server
      ensures outbox.sent == old(outbox.sent) + Tick(old(View()), msec).out
    {
      hide NodesOK, LogOK, PeersOf, Entries, SelfVoting, VotingIds, Handlers.BecomeLeader;
      ViewsDistinct();
      AddElapsed(msec);
      var num := NumVotingNodes();
      SelfVotes();
      if num == 1 && Bit(node.flags, VOTING) && role != Leader {
        BecomeLeader();
      }
    }

    method AddElapsed(msec: nat)
      requires Valid()
      modifies `elapsed
      ensures Valid() && View() == old(View()).(elapsed := old(elapsed) + msec)
    {
      hide NodesOK, LogOK, PeersOf, Entries;
      elapsed := elapsed + msec;
    }

    method FireTimers(rnd: nat)
      requires Valid() && TimersRead(View())
      modifies this, nodes, outbox
      ensures Valid() && nodes == old(nodes)
      ensures NextPositive(old(View()).peers)
      ensures View() == Timers(old(View()), rnd).server
      ensures outbox.sent == old(outbox.sent) + Timers(old(View()), rnd).out
    {
      hide NodesOK, LogOK, PeersOf, Entries, SelfVoting, VotingIds, Handlers.BecomeCandidate, Handlers.SendAppendEntriesAll;
      ViewsDistinct();
      if role == Leader {
        if requestTimeout <= elapsed {
          SendAppendEntriesAll();
        }
      } else if electionRand <= elapsed {
        var num := NumVotingNodes();
        SelfVotes();
        if 1 < num && Bit(node.flags, VOTING) {
          BecomeCandidate(rnd);
        }
      }
    }

    // ----- The client's question -----

    method MsgEntryResponseCommitted(r: EntryResponse) returns (a: int)
      requires Valid()
      ensures a == ResponseCommitted(View(), r)
    {
      var ety := GetEntry(r.idx);
      if ety.None? {
        return 0;
      }
      if r.term != ety.value.term {
        return -1;
      }
      a := if r.idx <= commit then 1 else 0;
    }

    // ----- Membership -----

    /** Returns the node made voting or added; null if it was voting already, or no block is free. */
    method AddNode(id: NodeId) returns (r: Node?)
      requires NodesOK()
      modifies this, nodes
      ensures NodesOK()
      ensures var ps := old(PeersOf(nodes));
        var p := Find(ps, id);
        && (p.Some? && p.value.voting ==> r == null && PeersOf(nodes) == ps && nodes == old(nodes))
        && (p.Some? && !p.value.voting ==>
              r != null && PeersOf(nodes) == Replace(ps, p.value.(voting := true)) && nodes == old(nodes))
        && (p.None? && MAX_NODES <= |ps| ==> r == null && PeersOf(nodes) == ps && nodes == old(nodes))
        && (p.None? && |ps| < MAX_NODES ==>
              r != null && fresh(r) && PeersOf(nodes) == ps + [NewPeer(id, true)] && nodes == old(nodes) + [r])
      ensures r != null ==> r in nodes && r.View().voting && r.id == id
      ensures unchanged(`term, `votedFor, `role, `currentLeader, `commit, `applied, `fed,
                        `elapsed, `electionTimeout, `electionRand, `requestTimeout)
    {
      ghost var ps := PeersOf(nodes);
      r := GetNode(id);
      if r != null {
        if !Bit(r.flags, VOTING) {
          SetNodeVoting(r, true);
        } else {
          r := null;
        }
        return;
      }
      if |nodes| < MAX_NODES {
        r := ListNode(id);
      }
    }

    method ListNode(id: NodeId) returns (r: Node)
      requires NodesOK() && Find(PeersOf(nodes), id).None?
      modifies `nodes
      ensures NodesOK() && fresh(r) && r.id == id && r.View().voting
      ensures nodes == old(nodes) + [r] && PeersOf(nodes) == old(PeersOf(nodes)) + [NewPeer(id, true)]
    {
      ghost var ps := PeersOf(nodes);
      AbsentNode(id);
      r := new Node(id);
      nodes := nodes + [r];
      assert PeersOf(nodes) == ps + [NewPeer(id, true)];
    }

    method SetNodeVoting(n: Node, voting: bool)
      requires NodesOK() && n in nodes && n.View().voting != voting
      modifies n
      ensures NodesOK() && PeersOf(nodes) == Replace(old(PeersOf(nodes)), old(n.View()).(voting := voting))
    {
      n.SetVoting(voting);
      ReplacedNode(n, n.View(), old(PeersOf(nodes)));
    }

    method SetNodeActive(n: Node, active: bool)
      requires NodesOK() && n in nodes
      modifies n
      ensures NodesOK() && PeersOf(nodes) == Replace(old(PeersOf(nodes)), old(n.View()).(active := active))
    {
      n.SetActive(active);
      ReplacedNode(n, n.View(), old(PeersOf(nodes)));
    }

    /** Null if the id is known or no block is free. */
    method AddNonVotingNode(id: NodeId) returns (r: Node?)
      requires NodesOK()
      modifies this, nodes
      ensures NodesOK()
      ensures var ps := old(PeersOf(nodes));
        if Find(ps, id).None? && |ps| < MAX_NODES then
          r != null && fresh(r) && nodes == old(nodes) + [r] && PeersOf(nodes) == ps + [NewPeer(id, false)]
        else r == null && nodes == old(nodes) && PeersOf(nodes) == ps
      ensures unchanged(`term, `votedFor, `role, `currentLeader, `commit, `applied, `fed,
                        `elapsed, `electionTimeout, `electionRand, `requestTimeout)
    {
      ghost var ps := PeersOf(nodes);
      var known := GetNode(id);
      if known != null {
        return null;
      }
      r := AddNode(id);
      if r == null {
        return;
      }
      assert PeersOf(nodes)[|ps|] == r.View() == NewPeer(id, true);
      hide NodesOK, PeersOf;
      SetNodeVoting(r, false);
      AddedNonVoting(ps, id);
    }

    /** Removes a listed node. The source hands `list_remove` the first element as if it were the
        list, so the node must not be the first one. */
    method RemoveNode(n: Node)
      requires NodesOK() && n in nodes && n != nodes[0] && n != node
      modifies `nodes
      ensures NodesOK() && PeersOf(nodes) == Without(old(PeersOf(nodes)), n.id)
      ensures n !in nodes && forall k :: k in nodes ==> k in old(nodes)
    {
      var i := 0;
      while nodes[i] != n
        modifies {}
        invariant 0 <= i < |nodes| && n in nodes[i..]
        decreases |nodes| - i
      {
        i := i + 1;
      }
      Unlinked(i);
      hide NodesOK, PeersOf, NodesDistinct, Without;
      nodes := nodes[..i] + nodes[i + 1..];
      RelinkedOK(old(nodes), i);
    }

    lemma Unlinked(i: nat)
      requires NodesOK() && i < |nodes|
      ensures |PeersOf(nodes)| == |nodes|
      ensures Without(PeersOf(nodes), nodes[i].id) == PeersOf(nodes)[..i] + PeersOf(nodes)[i + 1..]
    {
      ViewsDistinct();
      WithoutAt(PeersOf(nodes), i);
    }

    ghost predicate ListOK(ns: seq<Node>)
      reads ns
    {
      && node in ns
      && (forall i, j :: 0 <= i < j < |ns| ==> ns[i] != ns[j] && ns[i].id != ns[j].id)
      && (forall n :: n in ns ==> 1 <= n.nextIdx)
    }

    lemma RelinkedOK(was: seq<Node>, i: nat)
      requires ListOK(was) && i < |was| && was[i] != node && nodes == was[..i] + was[i + 1..]
      ensures NodesOK() && PeersOf(nodes) == PeersOf(was)[..i] + PeersOf(was)[i + 1..]
      ensures was[i] !in nodes && forall k :: k in nodes ==> k in was
    {
      var k :| 0 <= k < |was| && was[k] == node;
      assert node == nodes[if k < i then k else k - 1];
    }

    /** A configuration entry was appended to the log. */
    method OfferLog(c: Change)
      requires NodesOK() && OfferRuns(PeersOf(nodes), node.id, c, MAX_NODES)
      modifies this, nodes
      ensures NodesOK() && PeersOf(nodes) == Offer(old(PeersOf(nodes)), node.id, c)
      ensures unchanged(`term, `votedFor, `role, `currentLeader, `commit, `applied, `fed,
                        `elapsed, `electionTimeout, `electionRand, `requestTimeout)
    {
      hide NodesOK, PeersOf, Replace, NodesDistinct;
      var n := GetNode(c.id);
      match c.kind
      case AddNonVotingNode =>
        if c.id != node.id {
          if n != null && Bit(n.flags, INACTIVE) {
            SetNodeActive(n, true);
          } else if n == null {
            n := AddNonVotingNode(c.id);
          }
        }
      case AddNode =>
        n := AddNode(c.id);
        assert n != null && n.View().voting;
      case DemoteNode =>
        if n != null {
          SetNodeVoting(n, false);
        }
      case RemoveNode =>
        if n != null {
          SetNodeActive(n, false);
        }
    }

    /** A configuration entry was removed from the end of the log. */
    method PopLog(c: Change)
      requires NodesOK() && PopRuns(PeersOf(nodes), node.id, c)
      modifies this, nodes
      ensures NodesOK() && PeersOf(nodes) == Pop(old(PeersOf(nodes)), c)
      ensures unchanged(`term, `votedFor, `role, `currentLeader, `commit, `applied, `fed,
                        `elapsed, `electionTimeout, `electionRand, `requestTimeout)
    {
      hide NodesOK, PeersOf, Replace, NodesDistinct, Without, Find;
      var n := GetNode(c.id);
      FirstNode();
      NodeFound(n);
      match c.kind
      case DemoteNode => SetNodeVoting(n, true);
      case RemoveNode => SetNodeActive(n, true);
      case AddNonVotingNode => RemoveNode(n);
      case AddNode => SetNodeVoting(n, false);
    }

    lemma FirstNode()
      requires NodesOK()
      ensures nodes != [] && PeersOf(nodes) != [] && PeersOf(nodes)[0].id == nodes[0].id
    {
      Listed(0);
    }

    lemma AbsentNode(id: NodeId)
      requires NodesOK() && Find(PeersOf(nodes), id) == None
      ensures forall n :: n in nodes ==> n.id != id
    {
      forall n | n in nodes ensures n.id != id {
        var i :| 0 <= i < |nodes| && nodes[i] == n;
        assert PeersOf(nodes)[i] in PeersOf(nodes);
      }
    }
  }

  lemma {:induction false} WithoutAt(ps: seq<Peer>, i: nat)
    requires DistinctIds(ps) && i < |ps|
    ensures Without(ps, ps[i].id) == ps[..i] + ps[i + 1..]
  {
    if 0 < i {
      WithoutAt(ps[1..], i - 1);
    }
  }

  /** A node added as voting and then demoted is a new non-voting node. */
  lemma AddedNonVoting(ps: seq<Peer>, id: NodeId)
    requires id !in Ids(ps)
    ensures Replace(ps + [NewPeer(id, true)], NewPeer(id, false)) == ps + [NewPeer(id, false)]
  {
    assert forall i :: 0 <= i < |ps| ==> ps[i] in ps;
  }

  lemma ApplyAllUnfolds(s: Server, quota: nat)
    requires s.applied < s.commit
    ensures var e := Handlers.ApplyEntry(s, quota == 0);
      && (quota == 0 ==> e.err != 0)
      && (e.err == 0 ==> e.server.applied == s.applied + 1 && e.server.commit == s.commit)
      && Handlers.ApplyAll(s, quota) == if e.err != 0 then e else Handlers.ApplyAll(e.server, quota - 1)
  {
  }

  /** A new entry goes out only to peers that lack just that one. */
  lemma NewestListed(s: Server)
    requires s.gone < |s.log|
    ensures CanSendAll(s, s.peers, NewEntry)
  {
  }

  lemma TimeKeepsLog(s: Server, msec: nat, rnd: nat)
    requires NextPositive(s.peers)
    ensures var s' := Handlers.Timers(Tick(s, msec).server, rnd).server;
      s'.log == s.log && s'.applied == s.applied && s'.commit == s.commit
  {
  }

  lemma HearLeaderKeeps(s: Server, from: NodeId, ae: Message, rnd: nat, pop: int)
    requires ae.AppendEntries? && s.term <= ae.term
    requires NoNullRead(s, ae) && AppendEntriesAsserts(s, ae, pop)
    ensures var s1 := HearLeader(s, from, ae, rnd);
      && s1.term == ae.term && s1.log == s.log && s1.commit == s.commit && s1.gone == s.gone && s1.capacity == s.capacity
      && NoNullRead(s1, ae) && AppendEntriesAsserts(s1, ae, pop) && (TailDeletion(s1, ae, pop) <==> TailDeletion(s, ae, pop))
  {
    HearingKeeps(s, from, ae, rnd);
    var s1 := HearLeader(s, from, ae, rnd);
    hide Merge, Matched, HearLeader;
    if PrevMatches(s, ae) {
      MergeSame(s, s1, ae, pop);
    }
  }

  lemma LeadsWithoutError(s: Server)
    requires NextPositive(s.peers)
    ensures Handlers.BecomeLeader(s).err == 0
  {
  }

  /** Hearing the candidate's term takes nothing away that the decision reads. */
  lemma StillReads(s: Server, rv: Message, rnd: nat)
    requires rv.RequestVote? && GrantReads(s, rv)
    ensures GrantReads(HearCandidate(s, rv, rnd), rv)
  {
  }

  lemma MergeSame(s: Server, s1: Server, ae: Message, pop: int)
    requires ae.AppendEntries? && PrevMatches(s, ae) && PrevMatches(s1, ae) && Matched(s1, ae) == Matched(s, ae)
    requires s1.log == s.log && s1.commit == s.commit && s1.gone == s.gone && s1.capacity == s.capacity
    ensures Merge(s1, ae, pop).server.commit == Merge(s, ae, pop).server.commit
    ensures Merge(s1, ae, pop).server.log == Merge(s, ae, pop).server.log
  {
    hide Matched, PickUp;
    var m := Matched(s, ae);
    if m <= |ae.entries| {
      var d, d1 := DeleteFrom(s, ae.prevIdx + m + 1, pop).0, DeleteFrom(s1, ae.prevIdx + m + 1, pop).0;
      PickUpSame(s, s1, ae, m);
      PickUpSame(d, d1, ae, m);
    }
  }

  lemma PickUpSame(s: Server, s1: Server, ae: Message, m: nat)
    requires ae.AppendEntries? && m <= ae.n && m <= |ae.entries|
    requires s1.log == s.log && s1.commit == s.commit && s1.gone == s.gone && s1.capacity == s.capacity
    ensures PickUp(s1, ae, m).server.commit == PickUp(s, ae, m).server.commit
    ensures PickUp(s1, ae, m).server.log == PickUp(s, ae, m).server.log
  {
  }

  lemma ReceivedFields(s: Server, ae: Message, pop: int)
    requires ae.AppendEntries? && AppendEntriesAsserts(s, ae, pop) && s.term == ae.term && s.applied <= s.commit <= |s.log|
    ensures var a := Receive(s, ae, pop).server;
      a == s.(log := a.log, gone := a.gone, commit := a.commit) && a.applied <= a.commit <= |a.log|
  {
    hide Passes, MatchFrom;
  }

  lemma DeleteCounts(l: LogState, prev: nat, idx: nat, pop: int)
    requires 0 < prev && At(l, prev).Some?
    ensures 0 <= Delete(l, idx, pop).0.count
  {
  }

  // ----- Counting and sending along the list -----

  /** The list after `i` rounds of the loop in `raft_become_leader`. */
  ghost function PartReset(ps: seq<Peer>, self: NodeId, len: nat, i: nat): seq<Peer>
    requires i <= |ps|
  {
    seq(|ps|, j requires 0 <= j < |ps| => if j < i then ResetProgress(ps, self, len)[j] else ps[j])
  }

  lemma PartResetEnds(ps: seq<Peer>, self: NodeId, len: nat)
    ensures PartReset(ps, self, len, 0) == ps
    ensures PartReset(ps, self, len, |ps|) == ResetProgress(ps, self, len)
  {
  }

  lemma PartResetStep(ps: seq<Peer>, self: NodeId, len: nat, i: nat)
    requires i < |ps|
    ensures var before, after := PartReset(ps, self, len, i), PartReset(ps, self, len, i + 1);
      && |before| == |after| == |ps|
      && before[i] == ps[i]
      && after == before[i := ResetProgress(ps, self, len)[i]]
      && ResetProgress(ps, self, len)[i] ==
           if ps[i].id == self || !ps[i].active then ps[i] else ps[i].(nextIdx := len + 1, matchIdx := 0)
  {
  }

  lemma CandidacyOut(s: Server, rnd: nat)
    requires NextPositive(s.peers)
    ensures var f := Handlers.BecomeCandidate(s, rnd);
      NextPositive(f.server.peers) && f.out == Broadcast(f.server, f.server.peers, Canvass)
  {
  }

  lemma VotingIdsExtend(ps: seq<Peer>, i: nat)
    requires DistinctIds(ps) && i < |ps|
    ensures |VotingIds(ps[..i + 1])| == |VotingIds(ps[..i])| + if ps[i].active && ps[i].voting then 1 else 0
  {
    var more := if ps[i].active && ps[i].voting then {ps[i].id} else {};
    assert VotingIds(ps[..i + 1]) == VotingIds(ps[..i]) + more;
  }

  lemma SupportersExtend(ps: seq<Peer>, self: NodeId, i: nat)
    requires DistinctIds(ps) && i < |ps|
    ensures |Supporters(ps[..i + 1], self)| == |Supporters(ps[..i], self)| +
      if ps[i].id != self && ps[i].active && ps[i].voting && ps[i].votedForMe then 1 else 0
  {
    var more := if ps[i].id != self && ps[i].active && ps[i].voting && ps[i].votedForMe then {ps[i].id} else {};
    assert Supporters(ps[..i + 1], self) == Supporters(ps[..i], self) + more;
  }

  lemma HoldersExtend(ps: seq<Peer>, self: NodeId, point: nat, i: nat)
    requires DistinctIds(ps) && i < |ps|
    ensures |Holders(ps[..i + 1], self, point)| == |Holders(ps[..i], self, point)| +
      if ps[i].id != self && ps[i].active && ps[i].voting && point <= ps[i].matchIdx then 1 else 0
  {
    var more := if ps[i].id != self && ps[i].active && ps[i].voting && point <= ps[i].matchIdx then {ps[i].id} else {};
    assert Holders(ps[..i + 1], self, point) == Holders(ps[..i], self, point) + more;
  }

  lemma BroadcastExtend(s: Server, ps: seq<Peer>, w: Wave, i: nat)
    requires NextPositive(ps) && i < |ps|
    ensures Broadcast(s, ps[..i + 1], w) ==
      Broadcast(s, ps[..i], w) + if Addressed(s, ps[i], w) then [Letter(s, ps[i], w)] else []
  {
    assert ps[..i + 1][..i] == ps[..i];
  }
}
