/** Laws of single handlers that hold for every state and message, inside a cluster or not. */
module HandlerLaws {
  import opened RaftTypes
  import opened Peers
  import opened Handlers

  // ----- The merge, index by index -----

  /** What an accepted AppendEntries does to the log, for any message and any log. There is a
      first entry `d` of the message that is missing or conflicts. Before it nothing changes; from
      it on the message's entries follow, entry `j` at index `prevIdx + 1 + j`, and nothing else. If
      all entries are in place the log is untouched. The reply counts the entries in place. If the
      message is not anchored, its entries are appended at the end instead, under wrong indices. */
  lemma MergeByIndex(s: Server, from: NodeId, ae: Message, pop: int, rnd: nat) returns (d: nat)
    requires ae.AppendEntries? && s.commit <= |s.log| && WindowOK(s) && NoNullRead(s, ae)
    requires var a := RecvAppendEntries(s, from, ae, pop, rnd); a.reply.AppendReply? && a.reply.success && a.err == 0
    ensures var a := RecvAppendEntries(s, from, ae, pop, rnd);
      var k := Min(ae.n, |ae.entries|);
      && d <= k && (forall j :: 0 <= j < d ==> Passes(s, ae, j)) && (d < k ==> !Passes(s, ae, d))
      && (Anchored(s, ae) ==>
            && ae.prevIdx + d <= |s.log|
            && a.server.log == (if d == k then s.log else s.log[..ae.prevIdx + d] + ae.entries[d..k])
            && ae.prevIdx + k <= |a.server.log|
            && (k < ae.n ==> !HasEntry(a.server, ae.prevIdx + k + 1)))
      && (!Anchored(s, ae) ==> a.server.log == s.log + ae.entries[..k])
      && WindowOK(a.server) && Slides(s, a.server)
      && a.reply.currentIdx == ae.prevIdx + k
  {
    var s1 := HearLeader(s, from, ae, rnd);
    d := Matched(s, ae);
    MatchIgnoresRole(s, s1, ae, 0);
    assert d < ae.n ==> !Passes(s, ae, d);
    hide Passes, MatchFrom;
    assert RecvAppendEntries(s, from, ae, pop, rnd) == Merge(s1, ae, pop);
    hide RecvAppendEntries, HearLeader;
    MergedLog(s1, ae, pop);
  }

  lemma MergedLog(s: Server, ae: Message, pop: int)
    requires ae.AppendEntries? && WindowOK(s) && s.term == ae.term && PrevMatches(s, ae) && NoNullRead(s, ae)
    requires Merge(s, ae, pop).err == 0
    ensures var a := Merge(s, ae, pop);
      var d, k := Matched(s, ae), Min(ae.n, |ae.entries|);
      && (Anchored(s, ae) ==>
            && ae.prevIdx + d <= |s.log|
            && a.server.log == (if d == k then s.log else s.log[..ae.prevIdx + d] + ae.entries[d..k])
            && ae.prevIdx + k <= |a.server.log|
            && (k < ae.n ==> !HasEntry(a.server, ae.prevIdx + k + 1)))
      && (!Anchored(s, ae) ==> a.server.log == s.log + ae.entries[..k])
      && WindowOK(a.server) && Slides(s, a.server)
      && a.reply.AppendReply? && a.reply.currentIdx == ae.prevIdx + k
  {
    var d, k := Matched(s, ae), Min(ae.n, |ae.entries|);
    assert !Anchored(s, ae) ==> d == 0 by { assert !Anchored(s, ae) ==> !Passes(s, ae, 0); }
    hide Passes, MatchFrom;
    assert s.log + ae.entries[d..d] == s.log;
    assert !EntryConflicts(s, ae) && d < k && Anchored(s, ae) ==> s.log == s.log[..ae.prevIdx + d];
  }

  lemma {:induction false} MatchIgnoresRole(s: Server, s1: Server, ae: Message, i: nat)
    requires ae.AppendEntries? && i <= ae.n && i <= |ae.entries|
    requires s1.log == s.log && s1.commit == s.commit && s1.gone == s.gone
    ensures MatchFrom(s1, ae, i) == MatchFrom(s, ae, i)
    decreases ae.n - i
  {
    assert Passes(s, ae, i) == Passes(s1, ae, i);
    if i < ae.n && Passes(s, ae, i) {
      MatchIgnoresRole(s, s1, ae, i + 1);
    }
  }

  // ----- The list against the full history -----

  /** The server as if its list had never lost an entry. */
  function Whole(s: Server): Server {
    s.(gone := 0)
  }

  predicate SameOutcome(a: Answer, b: Answer) {
    a.server.log == b.server.log && a.server.commit == b.server.commit && a.reply == b.reply && a.err == b.err
  }

  /** Hearing a leader leaves log and commit index alone, and what the loops make of a message. */
  lemma HearingKeeps(s: Server, from: NodeId, ae: Message, rnd: nat)
    requires ae.AppendEntries? && s.term <= ae.term
    ensures var s1 := HearLeader(s, from, ae, rnd);
      && s1.log == s.log && s1.gone == s.gone && s1.capacity == s.capacity && s1.commit == s.commit && s1.term == ae.term
      && Matched(s1, ae) == Matched(s, ae)
      && (EntryConflicts(s1, ae) <==> EntryConflicts(s, ae)) && (PrevMatches(s1, ae) <==> PrevMatches(s, ae))
      && (PrevConflicts(s1, ae) <==> PrevConflicts(s, ae))
  {
    MatchIgnoresRole(s, HearLeader(s, from, ae, rnd), ae, 0);
    hide MatchFrom, Passes;
  }

  lemma {:induction false} MatchedInWhole(s: Server, ae: Message, i: nat)
    requires ae.AppendEntries? && i <= ae.n && i <= |ae.entries|
    requires s.gone <= ae.prevIdx
    ensures MatchFrom(s, ae, i) == MatchFrom(Whole(s), ae, i)
    decreases ae.n - i
  {
    assert Passes(s, ae, i) == Passes(Whole(s), ae, i);
    if i < ae.n && Passes(s, ae, i) {
      MatchedInWhole(s, ae, i + 1);
    }
  }

  /** The two loops over a list that may have lost its oldest entries do what they would do over
      the full history if and only if the message is anchored. */
  lemma LoopsMeetHistoryExactly(s: Server, ae: Message, pop: int)
    requires ae.AppendEntries? && WindowOK(s) && s.term == ae.term && PrevMatches(s, ae)
    requires NoNullRead(Whole(s), ae)
    ensures PrevMatches(Whole(s), ae)
    ensures SameOutcome(Merge(s, ae, pop), Merge(Whole(s), ae, pop)) <==> Anchored(s, ae)
  {
    hide Passes, MatchFrom;
    if !Anchored(s, ae) {
      UnanchoredLonger(s, ae, pop);
    } else if 0 < ae.prevIdx || s.gone == 0 {
      MatchedInWhole(s, ae, 0);
      hide NoNullRead;
    } else {
      NothingBrought(s, ae);
      NothingBrought(Whole(s), ae);
      hide NoNullRead;
    }
  }

  lemma NothingBrought(s: Server, ae: Message)
    requires ae.AppendEntries? && ae.prevIdx == 0 && (ae.entries == [] || ae.n == 0)
    ensures Matched(s, ae) == 0 && s.log + ae.entries[0..0] == s.log
  {
  }

  lemma UnanchoredLonger(s: Server, ae: Message, pop: int)
    requires ae.AppendEntries? && WindowOK(s) && s.term == ae.term && PrevMatches(s, ae)
    ensures !Anchored(s, ae) ==> |Merge(Whole(s), ae, pop).server.log| < |Merge(s, ae, pop).server.log|
  {
    if !Anchored(s, ae) {
      assert !Passes(s, ae, 0);
      assert Matched(s, ae) == 0;
    }
  }

  /** An input for the other half: the list has lost entry 1, and the first AppendEntries of the
      term arrives again. Its entry is appended at index 4. The leader's entry 4, of the same term,
      is then passed over, acknowledged and committed, and the wrong entry is applied. */
  lemma LateFirstAppendCorrupts(s: Server, from: NodeId, t: nat, a: Entry, b: Entry, c: Entry, d: Entry)
    requires s.term == t && s.role == Follower && s.log == [a, b, c] && s.gone == 1 && s.capacity == 2
    requires s.commit == s.applied == 3
    requires a.term == t && c.term == t && d.term == t && d != a
    ensures var first := AppendEntries(t, 0, 0, 0, 1, [a]);
      var s1 := RecvAppendEntries(s, from, first, 0, 0).server;
      var next := AppendEntries(t, 3, t, 4, 1, [d]);
      var r := RecvAppendEntries(s1, from, next, 0, 0);
      var s2 := r.server;
      && NoNullRead(s, first) && AppendEntriesAsserts(s, first, 0) && !Anchored(s, first)
      && s1.log == [a, b, c, a]
      && NoNullRead(s1, next) && AppendEntriesAsserts(s1, next, 0) && Anchored(s1, next)
      && r.reply == AppendReply(t, true, 4, 4) && s2.commit == 4
      && ApplyEntry(s2, false).server.fed == s.fed + [Handed(a, 3)]
  {
    var first := AppendEntries(t, 0, 0, 0, 1, [a]);
    assert !Passes(s, first, 0);
    var s1 := RecvAppendEntries(s, from, first, 0, 0).server;
    assert s.log + first.entries[0..1] == [a, b, c, a];
    var next := AppendEntries(t, 3, t, 4, 1, [d]);
    assert Passes(s1, next, 0);
    assert s1.log + next.entries[1..1] == s1.log;
  }

  // ----- Peers that fall out of the list -----

  /** A leader accepts one client entry after the other, and no peer answers. */
  function Accepted(s: Server, es: seq<Entry>): Server
    requires NextPositive(s.peers)
    decreases |es|
  {
    if es == [] then s else Accepted(RecvEntry(s, es[0]).server, es[1..])
  }

  /** The leader can send to a peer after accepting `es` if and only if it could before and the entries
      from the peer's next index on still fit in the list. */
  lemma {:induction false} LaggingPeerLost(s: Server, p: Peer, es: seq<Entry>)
    requires s.role == Leader && NextPositive(s.peers) && WindowOK(s)
    ensures CanSend(Accepted(s, es), p) <==> CanSend(s, p) && |s.log| + |es| < p.nextIdx + s.capacity
    decreases |es|
  {
    if es != [] {
      LaggingPeerLost(RecvEntry(s, es[0]).server, p, es[1..]);
    }
  }

  /** A message for a peer whose previous entry was dropped tells term 0 for it. The peer, which has
      that entry and acknowledged it, takes it for a conflict and deletes it, and commits less than a
      quorum may count on. */
  lemma UnbackedAppendDeletes(s: Server, u: Server, p: Peer, t: nat, a: Entry, b: Entry)
    requires 0 < t && s.term == t && s.log == [a, b] && s.gone == 1 && s.commit == 0 && a.term == t && b.term == t
    requires p.nextIdx == 2 && u.term == t && u.role == Follower && u.log == [a] && u.gone == 0 && u.commit == 0
    ensures CanSend(s, p) && AppendFor(s, p) == AppendEntries(t, 1, 0, 0, 1, [b])
    ensures AppendEntriesAsserts(u, AppendFor(s, p), 0)
    ensures RecvAppendEntries(u, s.id, AppendFor(s, p), 0, 0).server.log == []
  {
    assert s.log[1..] == [b];
  }

  // ----- Chains that are too short -----

  /** The first loop stays inside the chain exactly when the handler does not reach it, the chain
      has all the announced entries, the list does not go on after the chain, or some entry of the
      chain is not in place. */
  lemma NullReadExactly(s: Server, ae: Message)
    requires ae.AppendEntries? && |ae.entries| <= ae.n
    ensures NoNullRead(s, ae) <==>
      || ae.term < s.term || !PrevMatches(s, ae)
      || |ae.entries| == ae.n || !HasEntry(s, ae.prevIdx + |ae.entries| + 1)
      || exists j :: 0 <= j < |ae.entries| && !Passes(s, ae, j)
  {
    var m := Matched(s, ae);
    if m == |ae.entries| {
      forall j | 0 <= j < |ae.entries| ensures Passes(s, ae, j) {
      }
    }
  }

  /** A retransmission whose links were cut, to a receiver that has its entries, reads past the end. */
  lemma CutChainReadsNull(s: Server, e: Entry, f: Entry)
    requires s.term == 1 && s.log == [e, f] && s.gone == 0
    ensures !NoNullRead(s, AppendEntries(1, 0, 0, 0, 2, [e]))
  {
    var ae := AppendEntries(1, 0, 0, 0, 2, [e]);
    NullReadExactly(s, ae);
    assert Passes(s, ae, 0);
  }

  // ----- Receiving twice -----

  /** The entry before the message's entries is listed, or there is none and nothing was lost. */
  predicate StillListed(s: Server, ae: Message)
    requires ae.AppendEntries?
  {
    (0 < ae.prevIdx ==> HasEntry(s, ae.prevIdx)) && Anchored(s, ae)
  }

  /** The entries the message brings fit into the list together with the one before them. */
  predicate Fits(s: Server, ae: Message)
    requires ae.AppendEntries?
  {
    var k := Min(ae.n, |ae.entries|);
    if 0 < ae.prevIdx then k < s.capacity else k == 0 || (s.gone == 0 && k <= s.capacity)
  }

  /** Handling the same accepted message again changes nothing and gives the same reply, if and
      only if its entries fit: otherwise the list has lost the place where they begin. */
  lemma AppendTwice(s: Server, from: NodeId, ae: Message, pop: int, rnd: nat, pop': int, rnd': nat)
    requires ae.AppendEntries? && s.commit <= |s.log| && WindowOK(s) && NoNullRead(s, ae)
    requires var a := RecvAppendEntries(s, from, ae, pop, rnd); a.reply.AppendReply? && a.reply.success && a.err == 0
    ensures var a := RecvAppendEntries(s, from, ae, pop, rnd);
      RecvAppendEntries(a.server, from, ae, pop', rnd') == a <==> Fits(s, ae)
  {
    var a := RecvAppendEntries(s, from, ae, pop, rnd);
    var d := MergeByIndex(s, from, ae, pop, rnd);
    AcceptedFrame(s, from, ae, pop, rnd);
    assert StillListed(a.server, ae) <==> Fits(s, ae) by {
      hide RecvAppendEntries, NoNullRead, Passes;
    }
    if StillListed(a.server, ae) {
      AcceptedState(s, from, ae, pop, rnd, d);
      hide RecvAppendEntries;
      AcceptedAgain(a.server, from, ae, pop', rnd');
    } else {
      hide RecvAppendEntries;
      LostAgain(a.server, from, ae, pop', rnd');
    }
  }

  /** A server that has everything the message brings. */
  predicate Holds(s: Server, from: NodeId, ae: Message)
    requires ae.AppendEntries?
  {
    var k := Min(ae.n, |ae.entries|);
    && s.term == ae.term && s.role != Candidate && s.leader == Some(from) && s.elapsed == 0 && WindowOK(s)
    && PrevMatches(s, ae)
    && (k < ae.n ==> !HasEntry(s, ae.prevIdx + k + 1))
    && (forall j :: 0 <= j < k ==> Passes(s, ae, j))
    && (k == ae.n ==> ae.leaderCommit <= s.commit || s.commit == Min(Max(|s.log|, 1), ae.leaderCommit))
  }

  /** What acceptance says besides the log. */
  lemma AcceptedFrame(s: Server, from: NodeId, ae: Message, pop: int, rnd: nat)
    requires ae.AppendEntries? && s.commit <= |s.log| && NoNullRead(s, ae)
    requires var a := RecvAppendEntries(s, from, ae, pop, rnd); a.reply.AppendReply? && a.reply.success && a.err == 0
    ensures var a := RecvAppendEntries(s, from, ae, pop, rnd);
      var k := Min(ae.n, |ae.entries|);
      && PrevMatches(s, ae)
      && a.server.term == ae.term && a.server.role != Candidate && a.server.leader == Some(from) && a.server.elapsed == 0
      && s.commit <= a.server.commit
      && (k == ae.n ==> ae.leaderCommit <= a.server.commit || a.server.commit == Min(Max(|a.server.log|, 1), ae.leaderCommit))
      && a.reply == AppendReply(ae.term, true, ae.prevIdx + k, ae.prevIdx + 1)
  {
    var s1 := HearLeader(s, from, ae, rnd);
    assert Matched(s, ae) == Matched(s1, ae) by { MatchIgnoresRole(s, s1, ae, 0); }
    assert RecvAppendEntries(s, from, ae, pop, rnd) == Merge(s1, ae, pop);
    MergeFrame(s1, ae, pop);
  }

  lemma MergeFrame(s: Server, ae: Message, pop: int)
    requires ae.AppendEntries? && PrevMatches(s, ae) && s.term == ae.term && s.commit <= |s.log| && NoNullRead(s, ae)
    requires Merge(s, ae, pop).err == 0
    ensures var a := Merge(s, ae, pop);
      var k := Min(ae.n, |ae.entries|);
      && a.server == s.(log := a.server.log, gone := a.server.gone, commit := a.server.commit)
      && s.commit <= a.server.commit
      && (k == ae.n ==> ae.leaderCommit <= a.server.commit || a.server.commit == Min(Max(|a.server.log|, 1), ae.leaderCommit))
      && a.reply == AppendReply(ae.term, true, ae.prevIdx + k, ae.prevIdx + 1)
  {
    var m := Matched(s, ae);
    assert EntryConflicts(s, ae) ==> !Passes(s, ae, m);
  }

  lemma AcceptedState(s: Server, from: NodeId, ae: Message, pop: int, rnd: nat, d: nat)
    requires ae.AppendEntries? && s.commit <= |s.log| && WindowOK(s) && NoNullRead(s, ae)
    requires var a := RecvAppendEntries(s, from, ae, pop, rnd);
      && a.reply.AppendReply? && a.reply.success && a.err == 0
      && var k := Min(ae.n, |ae.entries|);
      && d <= k && ae.prevIdx + d <= |s.log|
      && (forall j :: 0 <= j < d ==> Passes(s, ae, j)) && (d < k ==> !Passes(s, ae, d))
      && (a.server.log == if d == k then s.log else s.log[..ae.prevIdx + d] + ae.entries[d..k])
      && ae.prevIdx + k <= |a.server.log| && (k < ae.n ==> !HasEntry(a.server, ae.prevIdx + k + 1)) && WindowOK(a.server) && s.gone <= a.server.gone
      && StillListed(a.server, ae)
    ensures var a := RecvAppendEntries(s, from, ae, pop, rnd); Holds(a.server, from, ae)
  {
    hide RecvAppendEntries, NoNullRead, Slides;
    AcceptedFrame(s, from, ae, pop, rnd);
    var a := RecvAppendEntries(s, from, ae, pop, rnd);
    var k := Min(ae.n, |ae.entries|);
    forall j | 0 <= j < k ensures Passes(a.server, ae, j) {
      if j < d {
        assert Passes(s, ae, j);
      }
    }
  }

  lemma AcceptedAgain(s: Server, from: NodeId, ae: Message, pop: int, rnd: nat)
    requires ae.AppendEntries? && Holds(s, from, ae)
    ensures NoNullRead(s, ae)
    ensures RecvAppendEntries(s, from, ae, pop, rnd)
      == Answer(s, AppendReply(ae.term, true, ae.prevIdx + Min(ae.n, |ae.entries|), ae.prevIdx + 1), 0)
  {
    var k := Min(ae.n, |ae.entries|);
    assert k == |ae.entries| ==> !Passes(s, ae, k);
    assert Matched(s, ae) == k;
    assert s.log + ae.entries[k..k] == s.log;
    assert HearLeader(s, from, ae, rnd) == s;
  }

  /** A server whose list has lost the place either refuses, or appends once more. */
  lemma LostAgain(s: Server, from: NodeId, ae: Message, pop: int, rnd: nat)
    requires ae.AppendEntries? && WindowOK(s) && s.term == ae.term && !StillListed(s, ae)
    ensures var b := RecvAppendEntries(s, from, ae, pop, rnd);
      b.reply.AppendReply? && (!b.reply.success || |s.log| < |b.server.log|)
  {
    var s1 := HearLeader(s, from, ae, rnd);
    assert ae.prevIdx == 0 && 0 < s.gone ==> !Passes(s1, ae, 0);
  }

  // ----- Voting -----

  /** A vote is granted exactly when the server is voting, has no vote left from the term of the
      request, and does not come after the candidate in the order by last term, then length. */
  lemma GrantedExactly(s: Server, from: NodeId, rv: Message, rnd: nat)
    requires rv.RequestVote?
    ensures var a := RecvRequestVote(s, from, rv, rnd);
      && a.reply.VoteReply? && a.reply.term == Max(s.term, rv.term) == a.server.term
      && (a.reply.ballot == Granted <==>
            && SelfVoting(s)
            && (s.term < rv.term || (s.term == rv.term && s.votedFor == None))
            && (LastTerm(s.log) < rv.lastTerm || (LastTerm(s.log) == rv.lastTerm && |s.log| <= rv.lastIdx)))
      && (a.reply.ballot == Granted ==> a.server.votedFor == Some(rv.candidate))
      && a.server.log == s.log && a.server.commit == s.commit && a.server.peers == s.peers
  {
  }

  /** After a grant, no further request of that term or an earlier one is granted, whoever asks. */
  lemma NoSecondGrant(s: Server, from: NodeId, rv: Message, rnd: nat, from': NodeId, rv': Message, rnd': nat)
    requires rv.RequestVote? && rv'.RequestVote? && rv'.term <= rv.term
    requires RecvRequestVote(s, from, rv, rnd).reply == VoteReply(rv.term, Granted)
    ensures RecvRequestVote(RecvRequestVote(s, from, rv, rnd).server, from', rv', rnd').reply.ballot != Granted
  {
    var s1 := RecvRequestVote(s, from, rv, rnd).server;
    GrantedExactly(s, from, rv, rnd);
    GrantedExactly(s1, from', rv', rnd');
  }

  // ----- Applying -----

  /** Applying everything hands over the committed entries in order, each told its index less one,
      up to the one for which the callback asks for a shutdown. If the list has lost the next entry
      it hands over nothing. */
  lemma {:induction false} ApplyAllReaches(s: Server, quota: nat)
    requires s.applied <= s.commit <= |s.log| && s.fed == HandedOver(s.log[..s.applied])
    ensures var e := ApplyAll(s, quota);
      var upTo := Min(s.commit, s.applied + quota + 1);
      if s.applied == s.commit || s.gone <= s.applied then
        && e.server == s.(applied := upTo, fed := HandedOver(s.log[..upTo]))
        && e.err == if quota < s.commit - s.applied then ERR_SHUTDOWN else 0
      else e.server == s && e.err == -1
    decreases s.commit - s.applied
  {
    if s.applied < s.commit && s.gone <= s.applied {
      var e := ApplyEntry(s, quota == 0);
      assert e.server.fed == HandedOver(s.log[..s.applied + 1]);
      if quota != 0 {
        ApplyAllReaches(e.server, quota - 1);
      }
    }
  }

  // ----- Backing off -----

  lemma FailureReply(s: Server, from: NodeId, r: Message, ready: bool, rnd: nat)
    requires r.AppendReply? && NextPositive(s.peers) && AppendReplyAsserts(s, from, r)
    requires s.role == Leader && s.term == r.term && !r.success
    requires Find(s.peers, from).Some?
    ensures var e := RecvAppendReply(s, from, r, ready, rnd);
      var p := Find(s.peers, from).value;
      && 1 <= p.nextIdx && e.err == 0
      && (p.matchIdx == p.nextIdx - 1 ==> e.server == s && e.out == [])
      && (p.matchIdx != p.nextIdx - 1 ==>
            && e.server == s.(peers := Replace(s.peers, BackOff(s, p, r)))
            && e.out == [Packet(s.id, from, AppendFor(e.server, BackOff(s, p, r)))])
  {
  }

  /** A failure reply that is not ignored strictly lowers the next index of its sender and leaves
      every other peer alone: the next index is a termination measure for the repair of a log. */
  lemma FailureLowersNext(s: Server, from: NodeId, r: Message, ready: bool, rnd: nat)
    requires r.AppendReply? && NextPositive(s.peers) && DistinctIds(s.peers) && AppendReplyAsserts(s, from, r)
    requires s.role == Leader && s.term == r.term && !r.success
    requires Find(s.peers, from).Some?
    requires var p := Find(s.peers, from).value;
      p.nextIdx <= |s.log| + 1 && (p.matchIdx == 0 || p.matchIdx == p.nextIdx - 1)
    ensures var e := RecvAppendReply(s, from, r, ready, rnd);
      var p := Find(s.peers, from).value;
      && |e.server.peers| == |s.peers|
      && (forall i :: 0 <= i < |s.peers| && s.peers[i].id != from ==> e.server.peers[i] == s.peers[i])
      && (forall i :: 0 <= i < |s.peers| && s.peers[i].id == from ==>
            if p.matchIdx == p.nextIdx - 1 then e.server.peers[i] == p
            else 1 <= e.server.peers[i].nextIdx < p.nextIdx)
      && (e.out == [] <==> p.matchIdx == p.nextIdx - 1)
  {
    hide RecvAppendReply, AppendReplyAsserts, DistinctIds, Find, Replace, NextPositive;
    FailureReply(s, from, r, ready, rnd);
    var p := Find(s.peers, from).value;
    forall i | 0 <= i < |s.peers| && s.peers[i].id == from ensures s.peers[i] == p {
      FindIs(s.peers, i);
    }
    assert p.matchIdx != p.nextIdx - 1 ==> 1 <= BackOff(s, p, r).nextIdx < p.nextIdx && BackOff(s, p, r).id == from;
  }
}
