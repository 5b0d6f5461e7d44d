/** The node list of a server, and the counts the server takes over it. */
module Peers {
  import opened RaftTypes

  predicate DistinctIds(ps: seq<Peer>) {
    forall i, j :: 0 <= i < j < |ps| ==> ps[i].id != ps[j].id
  }

  function Ids(ps: seq<Peer>): set<NodeId> {
    set p | p in ps :: p.id
  }

  /** The first list element with the given id. */
  function Find(ps: seq<Peer>, id: NodeId): (r: Option<Peer>)
    ensures r.Some? ==> r.value in ps && r.value.id == id
    ensures r.None? <==> id !in Ids(ps)
  {
    if ps == [] then None
    else if ps[0].id == id then Some(ps[0])
    else
      assert forall p :: p in ps <==> p == ps[0] || p in ps[1..];
      Find(ps[1..], id)
  }

  /** The list with the peer of `q.id` overwritten by `q`. */
  function Replace(ps: seq<Peer>, q: Peer): (r: seq<Peer>)
    ensures |r| == |ps|
    ensures forall i :: 0 <= i < |ps| ==> r[i] == if ps[i].id == q.id then q else ps[i]
    ensures forall i :: 0 <= i < |ps| ==> r[i].id == ps[i].id
  {
    seq(|ps|, i requires 0 <= i < |ps| => if ps[i].id == q.id then q else ps[i])
  }

  /** The voting members: what `raft_get_num_voting_nodes` counts. */
  function VotingIds(ps: seq<Peer>): set<NodeId> {
    set p | p in ps && p.active && p.voting :: p.id
  }

  /** The other voting members whose vote for this server is on record. */
  function Supporters(ps: seq<Peer>, self: NodeId): set<NodeId> {
    set p | p in ps && p.id != self && p.active && p.voting && p.votedForMe :: p.id
  }

  /** The other voting members known to hold the log up to `point`. */
  function Holders(ps: seq<Peer>, self: NodeId, point: nat): set<NodeId> {
    set p | p in ps && p.id != self && p.active && p.voting && point <= p.matchIdx :: p.id
  }

  lemma FindIs(ps: seq<Peer>, i: nat)
    requires DistinctIds(ps) && i < |ps|
    ensures Find(ps, ps[i].id) == Some(ps[i])
  {
    assert ps[i].id in Ids(ps);
    var r := Find(ps, ps[i].id);
    var j :| 0 <= j < |ps| && ps[j] == r.value;
  }

  lemma ReplaceKeepsIds(ps: seq<Peer>, q: Peer)
    ensures Ids(Replace(ps, q)) == Ids(ps)
    ensures DistinctIds(ps) ==> DistinctIds(Replace(ps, q))
  {
    var r := Replace(ps, q);
    forall id | id in Ids(ps) ensures id in Ids(r) {
      var i :| 0 <= i < |ps| && ps[i].id == id;
      assert r[i] in r;
    }
    forall id | id in Ids(r) ensures id in Ids(ps) {
      var i :| 0 <= i < |r| && r[i].id == id;
      assert ps[i] in ps;
    }
  }

  /** A majority as `raft_votes_is_majority` decides it. */
  predicate VotesIsMajority(numNodes: nat, votes: nat) {
    !(numNodes < votes) && numNodes / 2 + 1 <= votes
  }
}
