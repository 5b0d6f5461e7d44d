/** Configuration entries: what offering one to the log does to the node list, what popping it
    again does, and when the second undoes the first. */
module Membership {
  import opened RaftTypes
  import opened Peers

  /** A configuration entry together with the node it affects. */
  datatype Change = Change(kind: LogType, id: NodeId)

  predicate IsChange(c: Change) {
    c.kind == AddNode || c.kind == AddNonVotingNode || c.kind == DemoteNode || c.kind == RemoveNode
  }

  function NewPeer(id: NodeId, voting: bool): Peer {
    Peer(id, 1, 0, false, voting, false, true, false, false)
  }

  function Without(ps: seq<Peer>, id: NodeId): seq<Peer> {
    if ps == [] then [] else if ps[0].id == id then ps[1..] else [ps[0]] + Without(ps[1..], id)
  }

  function Offer(ps: seq<Peer>, self: NodeId, c: Change): seq<Peer> {
    var p := Find(ps, c.id);
    match c.kind
    case AddNonVotingNode =>
      if c.id == self then ps
      else if p.None? then ps + [NewPeer(c.id, false)]
      else if !p.value.active then Replace(ps, p.value.(active := true))
      else ps
    case AddNode => if p.None? then ps + [NewPeer(c.id, true)] else Replace(ps, p.value.(voting := true))
    case DemoteNode => if p.None? then ps else Replace(ps, p.value.(voting := false))
    case RemoveNode => if p.None? then ps else Replace(ps, p.value.(active := false))
    case _ => ps
  }

  function Pop(ps: seq<Peer>, c: Change): seq<Peer> {
    var p := Find(ps, c.id);
    if p.None? then ps
    else
      match c.kind
      case AddNonVotingNode => Without(ps, c.id)
      case AddNode => Replace(ps, p.value.(voting := false))
      case DemoteNode => Replace(ps, p.value.(voting := true))
      case RemoveNode => Replace(ps, p.value.(active := true))
      case _ => ps
  }

  /** Offering runs to its end: its assertions hold and the node pool has room. */
  predicate OfferRuns(ps: seq<Peer>, self: NodeId, c: Change, maxNodes: nat) {
    var p := Find(ps, c.id);
    && IsChange(c)
    && (c.kind == AddNode && p.Some? ==> !p.value.voting)
    && (c.kind == DemoteNode && p.Some? ==> p.value.voting)
    && (p.None? && (c.kind == AddNode || (c.kind == AddNonVotingNode && c.id != self)) ==> |ps| < maxNodes)
  }

  /** Popping runs to its end: the node is listed, its assertions hold, and a node that is
      removed is neither the server itself nor the first of the list. */
  predicate PopRuns(ps: seq<Peer>, self: NodeId, c: Change) {
    var p := Find(ps, c.id);
    && IsChange(c)
    && p.Some?
    && (c.kind == AddNonVotingNode ==> c.id != self && ps[0].id != c.id)
    && (c.kind == AddNode ==> p.value.voting)
    && (c.kind == DemoteNode ==> !p.value.voting)
  }

  /** When popping undoes offering; a caller can check it before it offers. */
  predicate Undoable(ps: seq<Peer>, c: Change) {
    var p := Find(ps, c.id);
    match c.kind
    case AddNonVotingNode => p.None?
    case AddNode => p.Some? && !p.value.voting
    case DemoteNode => p.Some? && p.value.voting
    case RemoveNode => p.Some? && p.value.active
    case _ => false
  }

  lemma OfferForm(ps: seq<Peer>, self: NodeId, c: Change) returns (q: Peer)
    ensures var r := Offer(ps, self, c); r == ps || r == Replace(ps, q) || (q.id !in Ids(ps) && r == ps + [q])
  {
    hide Replace, Ids;
    var p := Find(ps, c.id);
    q := if p.None? then NewPeer(c.id, c.kind == AddNode)
         else if c.kind == AddNode || c.kind == DemoteNode then p.value.(voting := c.kind == AddNode)
         else p.value.(active := c.kind == AddNonVotingNode);
  }

  /** Offering keeps the ids in the list, and keeps them distinct. */
  lemma OfferKeepsDistinct(ps: seq<Peer>, self: NodeId, c: Change)
    requires DistinctIds(ps)
    ensures DistinctIds(Offer(ps, self, c)) && Ids(ps) <= Ids(Offer(ps, self, c))
  {
    var q := OfferForm(ps, self, c);
    hide Offer;
    ReplaceKeepsIds(ps, q);
    if q.id !in Ids(ps) {
      FindAppended(ps, q);
    }
  }

  lemma {:induction false} WithoutLast(ps: seq<Peer>, q: Peer)
    requires q.id !in Ids(ps)
    ensures Without(ps + [q], q.id) == ps
  {
    if ps != [] {
      assert ps[0] in ps;
      assert (ps + [q])[1..] == ps[1..] + [q];
      assert forall p :: p in ps[1..] ==> p in ps;
      WithoutLast(ps[1..], q);
    }
  }

  lemma {:induction false} WithoutShorter(ps: seq<Peer>, id: NodeId)
    requires id in Ids(ps)
    ensures |Without(ps, id)| == |ps| - 1
  {
    if ps[0].id != id {
      var p :| p in ps && p.id == id;
      assert p in ps[1..];
      WithoutShorter(ps[1..], id);
    }
  }

  lemma FindReplaced(ps: seq<Peer>, p: Peer, q: Peer)
    requires DistinctIds(ps) && Find(ps, q.id) == Some(p)
    ensures Find(Replace(ps, q), q.id) == Some(q)
    ensures Replace(Replace(ps, q), p) == ps
  {
    var i :| 0 <= i < |ps| && ps[i] == p;
    var r := Replace(ps, q);
    assert r[i] == q;
    FindIs(r, i);
    forall j | 0 <= j < |ps| ensures Replace(r, p)[j] == ps[j] {
      assert ps[j].id == p.id ==> j == i;
    }
  }

  lemma FindAppended(ps: seq<Peer>, q: Peer)
    requires DistinctIds(ps) && q.id !in Ids(ps)
    ensures DistinctIds(ps + [q]) && Find(ps + [q], q.id) == Some(q)
  {
    var r := ps + [q];
    assert forall i :: 0 <= i < |ps| ==> ps[i] in ps;
    assert r[|ps|] == q;
    FindIs(r, |ps|);
  }

  /** What offering does to the list, peer by peer. An unknown node is listed last, voting only if it is added
      to vote; the server itself is never listed as non-voting. Of a known node one flag changes. */
  lemma OfferLists(ps: seq<Peer>, self: NodeId, c: Change)
    requires DistinctIds(ps)
    ensures var r := Offer(ps, self, c);
      var isNew := c.id !in Ids(ps) && (c.kind == AddNode || (c.kind == AddNonVotingNode && c.id != self));
      && |r| == (if isNew then |ps| + 1 else |ps|)
      && (isNew ==> r[|ps|] == Peer(c.id, 1, 0, false, c.kind == AddNode, false, true, false, false))
      && forall i :: 0 <= i < |ps| ==>
           r[i] == if ps[i].id != c.id then ps[i]
                   else ps[i].(voting := c.kind == AddNode || (ps[i].voting && c.kind != DemoteNode),
                               active := (ps[i].active || (c.kind == AddNonVotingNode && c.id != self)) && c.kind != RemoveNode)
  {
    ListedOnce(ps, c.id);
    hide DistinctIds, Ids;
  }

  lemma ListedOnce(ps: seq<Peer>, id: NodeId)
    requires DistinctIds(ps)
    ensures Find(ps, id).None? ==> id !in Ids(ps) && forall i :: 0 <= i < |ps| ==> ps[i].id != id
    ensures Find(ps, id).Some? ==> id in Ids(ps) && forall i :: 0 <= i < |ps| && ps[i].id == id ==> Find(ps, id) == Some(ps[i])
  {
    assert forall i :: 0 <= i < |ps| ==> ps[i] in ps;
    forall i | 0 <= i < |ps| && ps[i].id == id ensures Find(ps, id) == Some(ps[i]) {
      FindIs(ps, i);
    }
  }

  /** What popping does: a node listed as non-voting leaves the list; of any other one flag changes. */
  lemma PopLists(ps: seq<Peer>, c: Change)
    requires DistinctIds(ps)
    ensures var r := Pop(ps, c);
      if c.kind == AddNonVotingNode then
        (c.id !in Ids(ps) ==> r == ps) && forall i :: 0 <= i < |ps| && ps[i].id == c.id ==> r == ps[..i] + ps[i + 1..]
      else
        |r| == |ps| && forall i :: 0 <= i < |ps| ==>
          r[i] == if ps[i].id != c.id then ps[i]
                  else ps[i].(voting := c.kind == DemoteNode || (ps[i].voting && c.kind != AddNode),
                              active := c.kind == RemoveNode || ps[i].active)
  {
    ListedOnce(ps, c.id);
    if c.kind == AddNonVotingNode {
      forall i | 0 <= i < |ps| && ps[i].id == c.id ensures Pop(ps, c) == ps[..i] + ps[i + 1..] {
        ListedWithout(ps, i);
      }
    }
    hide DistinctIds, Ids, Without;
  }

  lemma {:induction false} ListedWithout(ps: seq<Peer>, i: nat)
    requires i < |ps| && DistinctIds(ps)
    ensures Without(ps, ps[i].id) == ps[..i] + ps[i + 1..]
  {
    if i != 0 {
      assert ps[0].id != ps[i].id;
      ListedWithout(ps[1..], i - 1);
      assert ps[..i] == [ps[0]] + ps[1..][..i - 1];
    }
  }

  /** Popping undoes offering exactly when the change is undoable, among all the changes for
      which both run to their end. */
  lemma PopUndoesOffer(ps: seq<Peer>, self: NodeId, c: Change, maxNodes: nat)
    requires DistinctIds(ps) && self in Ids(ps)
    requires OfferRuns(ps, self, c, maxNodes) && PopRuns(Offer(ps, self, c), self, c)
    ensures Pop(Offer(ps, self, c), c) == ps <==> Undoable(ps, c)
  {
    hide *;
    if Find(ps, c.id).None? {
      PopUndoesNew(ps, self, c, maxNodes);
    } else {
      PopUndoesKnown(ps, self, c, maxNodes);
    }
  }

  lemma PopUndoesNew(ps: seq<Peer>, self: NodeId, c: Change, maxNodes: nat)
    requires DistinctIds(ps) && Find(ps, c.id).None?
    requires OfferRuns(ps, self, c, maxNodes) && PopRuns(Offer(ps, self, c), self, c)
    ensures Pop(Offer(ps, self, c), c) == ps <==> Undoable(ps, c)
  {
    hide Replace, Without, DistinctIds, Ids;
    NewPeerPopped(ps, NewPeer(c.id, c.kind == AddNode));
  }

  lemma PopUndoesKnown(ps: seq<Peer>, self: NodeId, c: Change, maxNodes: nat)
    requires DistinctIds(ps) && Find(ps, c.id).Some?
    requires OfferRuns(ps, self, c, maxNodes) && PopRuns(Offer(ps, self, c), self, c)
    ensures Pop(Offer(ps, self, c), c) == ps <==> Undoable(ps, c)
  {
    hide Replace, Without, DistinctIds, Ids, PopRuns;
    var p := Find(ps, c.id).value;
    if c.kind == AddNonVotingNode {
      KnownPeerRemoved(ps, Offer(ps, self, c), p);
    } else {
      var q := if c.kind == AddNode then p.(voting := true)
               else if c.kind == DemoteNode then p.(voting := false)
               else p.(active := false);
      FindReplaced(ps, p, q);
      if c.kind == RemoveNode && !p.active {
        Reactivated(ps, Replace(Replace(ps, q), q.(active := true)), p);
      }
    }
  }

  /** A new peer is last, so removing it gives the list before; changing its flags does not. */
  lemma NewPeerPopped(ps: seq<Peer>, q: Peer)
    requires DistinctIds(ps) && Find(ps, q.id).None?
    ensures Find(ps + [q], q.id) == Some(q) && Without(ps + [q], q.id) == ps
    ensures forall q' :: Replace(ps + [q], q') != ps
  {
    FindAppended(ps, q);
    WithoutLast(ps, q);
    forall q' ensures Replace(ps + [q], q') != ps {
      assert |Replace(ps + [q], q')| == |ps| + 1;
    }
  }

  /** Removing a peer that was known before shortens the list. */
  lemma KnownPeerRemoved(ps: seq<Peer>, r: seq<Peer>, p: Peer)
    requires Find(ps, p.id) == Some(p) && (r == ps || r == Replace(ps, p.(active := true)))
    ensures Without(r, p.id) != ps
  {
    ReplaceKeepsIds(ps, p.(active := true));
    WithoutShorter(r, p.id);
  }

  /** A peer that was inactive before and is active afterwards. */
  lemma Reactivated(ps: seq<Peer>, r: seq<Peer>, p: Peer)
    requires p in ps && !p.active && |r| == |ps| && forall i :: 0 <= i < |r| && r[i].id == p.id ==> r[i].active
    requires forall i :: 0 <= i < |r| ==> r[i].id == ps[i].id
    ensures r != ps
  {
    var i :| 0 <= i < |ps| && ps[i] == p;
    assert r[i].active && !ps[i].active;
  }

  /** An undoable change can be popped right after it was offered. */
  lemma UndoablePops(ps: seq<Peer>, self: NodeId, c: Change, maxNodes: nat)
    requires DistinctIds(ps) && self in Ids(ps)
    requires OfferRuns(ps, self, c, maxNodes) && Undoable(ps, c)
    ensures PopRuns(Offer(ps, self, c), self, c)
  {
    var p := Find(ps, c.id);
    if p.None? {
      FindAppended(ps, NewPeer(c.id, false));
      assert ps[0] in ps;
    } else {
      var q := if c.kind == AddNode then p.value.(voting := true)
               else if c.kind == DemoteNode then p.value.(voting := false)
               else p.value.(active := false);
      FindReplaced(ps, p.value, q);
    }
  }

  // ----- What membership is: ids and the voting and active flags -----

  datatype Member = Member(id: NodeId, voting: bool, active: bool)

  function Shape(ps: seq<Peer>): (r: seq<Member>)
    ensures |r| == |ps|
    ensures forall i :: 0 <= i < |ps| ==> r[i] == Member(ps[i].id, ps[i].voting, ps[i].active)
  {
    seq(|ps|, i requires 0 <= i < |ps| => Member(ps[i].id, ps[i].voting, ps[i].active))
  }

  /** Two lists of the same shape find peers with the same flags. */
  lemma {:induction false} SameShapeFind(ps: seq<Peer>, qs: seq<Peer>, id: NodeId)
    requires Shape(ps) == Shape(qs)
    ensures Find(ps, id).Some? == Find(qs, id).Some?
    ensures Find(ps, id).Some? ==>
      Find(ps, id).value.voting == Find(qs, id).value.voting && Find(ps, id).value.active == Find(qs, id).value.active
  {
    if ps != [] {
      assert Shape(ps)[0] == Shape(qs)[0];
      assert Shape(ps[1..]) == Shape(ps)[1..] == Shape(qs)[1..] == Shape(qs[1..]);
      SameShapeFind(ps[1..], qs[1..], id);
    }
  }

  lemma ShapeCons(p: Peer, ps: seq<Peer>)
    ensures Shape([p] + ps) == [Member(p.id, p.voting, p.active)] + Shape(ps)
  {
  }

  lemma {:induction false} SameShapeWithout(ps: seq<Peer>, qs: seq<Peer>, id: NodeId)
    requires Shape(ps) == Shape(qs)
    ensures Shape(Without(ps, id)) == Shape(Without(qs, id))
  {
    if ps != [] {
      assert Shape(ps)[0] == Shape(qs)[0];
      assert Shape(ps[1..]) == Shape(ps)[1..] == Shape(qs)[1..] == Shape(qs[1..]);
      SameShapeWithout(ps[1..], qs[1..], id);
      hide Shape;
      ShapeCons(ps[0], Without(ps[1..], id));
      ShapeCons(qs[0], Without(qs[1..], id));
    }
  }

  lemma SameShapeReplace(ps: seq<Peer>, qs: seq<Peer>, p: Peer, q: Peer)
    requires Shape(ps) == Shape(qs) && p.id == q.id && p.voting == q.voting && p.active == q.active
    ensures Shape(Replace(ps, p)) == Shape(Replace(qs, q))
  {
    forall i | 0 <= i < |ps| ensures Shape(Replace(ps, p))[i] == Shape(Replace(qs, q))[i] {
      assert Shape(ps)[i] == Shape(qs)[i];
    }
  }

  /** Popping depends on the shape only. */
  lemma PopByShape(ps: seq<Peer>, qs: seq<Peer>, c: Change)
    requires Shape(ps) == Shape(qs)
    ensures Shape(Pop(ps, c)) == Shape(Pop(qs, c))
  {
    hide Shape, Find, Replace, Without;
    SameShapeFind(ps, qs, c.id);
    SameShapeWithout(ps, qs, c.id);
    var p, q := Find(ps, c.id), Find(qs, c.id);
    if p.Some? {
      SameShapeReplace(ps, qs, p.value.(voting := true), q.value.(voting := true));
      SameShapeReplace(ps, qs, p.value.(voting := false), q.value.(voting := false));
      SameShapeReplace(ps, qs, p.value.(active := true), q.value.(active := true));
    }
  }

  lemma PopRunsByShape(ps: seq<Peer>, qs: seq<Peer>, self: NodeId, c: Change)
    requires Shape(ps) == Shape(qs) && PopRuns(ps, self, c)
    ensures PopRuns(qs, self, c)
  {
    SameShapeFind(ps, qs, c.id);
    assert Shape(ps)[0] == Shape(qs)[0];
  }

  // ----- Any number of changes -----

  /** `states[k]` is the node list before change `k` is offered; between offers the replication
      indices and votes of the peers may change freely. */
  predicate Offered(states: seq<seq<Peer>>, self: NodeId, cs: seq<Change>, maxNodes: nat)
    ensures Offered(states, self, cs, maxNodes) ==> |states| == |cs| + 1
  {
    && |states| == |cs| + 1
    && forall k {:trigger cs[k]} :: 0 <= k < |cs| ==> OfferedAt(states[k], self, cs[k], maxNodes, states[k + 1])
  }

  predicate OfferedAt(ps: seq<Peer>, self: NodeId, c: Change, maxNodes: nat, next: seq<Peer>) {
    && OfferRuns(ps, self, c, maxNodes) && Undoable(ps, c)
    && Shape(next) == Shape(Offer(ps, self, c))
  }

  /** `back[k]` is the node list after change `k` is popped, newest first, again with free
      changes to the bookkeeping in between. */
  predicate Popped(back: seq<seq<Peer>>, cs: seq<Change>)
    ensures Popped(back, cs) ==> |back| == |cs| + 1
  {
    && |back| == |cs| + 1
    && forall k {:trigger cs[k]} :: 0 <= k < |cs| ==> PoppedAt(back[k + 1], cs[k], back[k])
  }

  predicate PoppedAt(ps: seq<Peer>, c: Change, next: seq<Peer>) {
    Shape(next) == Shape(Pop(ps, c))
  }

  lemma SameShapeIds(ps: seq<Peer>, qs: seq<Peer>)
    requires Shape(ps) == Shape(qs)
    ensures Ids(ps) == Ids(qs) && (DistinctIds(ps) ==> DistinctIds(qs))
  {
    assert forall i :: 0 <= i < |ps| ==> Shape(ps)[i] == Shape(qs)[i] && ps[i] in ps && qs[i] in qs;
    assert forall i :: 0 <= i < |ps| ==> ps[i].id == qs[i].id;
  }

  /** At every stage the list has each id once, and that of the server itself. */
  lemma {:induction false} StagesDistinct(states: seq<seq<Peer>>, self: NodeId, cs: seq<Change>, maxNodes: nat, k: nat)
    requires Offered(states, self, cs, maxNodes) && k <= |cs|
    requires DistinctIds(states[0]) && self in Ids(states[0])
    ensures DistinctIds(states[k]) && self in Ids(states[k])
    decreases k
  {
    hide Offer, OfferRuns, Undoable, Shape, DistinctIds, Ids;
    if 0 < k {
      StagesDistinct(states, self, cs, maxNodes, k - 1);
      assert OfferedAt(states[k - 1], self, cs[k - 1], maxNodes, states[k - 1 + 1]);
      OfferKeepsDistinct(states[k - 1], self, cs[k - 1]);
      SameShapeIds(Offer(states[k - 1], self, cs[k - 1]), states[k]);
    }
  }

  lemma PopUndoesStage(ps: seq<Peer>, self: NodeId, c: Change, maxNodes: nat, next: seq<Peer>, from: seq<Peer>, back: seq<Peer>)
    requires DistinctIds(ps) && self in Ids(ps)
    requires OfferedAt(ps, self, c, maxNodes, next) && Shape(from) == Shape(next) && PoppedAt(from, c, back)
    ensures Shape(back) == Shape(ps) && PopRuns(from, self, c)
  {
    hide Offer, Pop, OfferRuns, PopRuns, Undoable, Shape, DistinctIds, Ids;
    UndoablePops(ps, self, c, maxNodes);
    PopUndoesOffer(ps, self, c, maxNodes);
    PopByShape(from, Offer(ps, self, c), c);
    PopRunsByShape(Offer(ps, self, c), from, self, c);
  }

  /** Popping the changes newest first takes the membership back through every stage, and every
      pop on the way runs to its end. */
  lemma {:induction false} PopsRestoreMembership(states: seq<seq<Peer>>, back: seq<seq<Peer>>, self: NodeId, cs: seq<Change>, maxNodes: nat, k: nat)
    requires Offered(states, self, cs, maxNodes) && Popped(back, cs) && k <= |cs|
    requires DistinctIds(states[0]) && self in Ids(states[0])
    requires Shape(back[|cs|]) == Shape(states[|cs|])
    ensures Shape(back[k]) == Shape(states[k]) && DistinctIds(back[k])
    ensures k < |cs| ==> PopRuns(back[k + 1], self, cs[k])
    decreases |cs| - k
  {
    hide Shape, PopRuns, OfferedAt, PoppedAt, Offered, Popped, DistinctIds, Ids;
    StagesDistinct(states, self, cs, maxNodes, k);
    if k < |cs| {
      StageAt(states, back, self, cs, maxNodes, k);
      PopsRestoreMembership(states, back, self, cs, maxNodes, k + 1);
      PopUndoesStage(states[k], self, cs[k], maxNodes, states[k + 1], back[k + 1], back[k]);
    }
    SameShapeIds(states[k], back[k]);
  }

  lemma StageAt(states: seq<seq<Peer>>, back: seq<seq<Peer>>, self: NodeId, cs: seq<Change>, maxNodes: nat, k: nat)
    requires Offered(states, self, cs, maxNodes) && Popped(back, cs) && k < |cs|
    ensures |states| == |back| == |cs| + 1
    ensures OfferedAt(states[k], self, cs[k], maxNodes, states[k + 1]) && PoppedAt(back[k + 1], cs[k], back[k])
  {
  }
}
