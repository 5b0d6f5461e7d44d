/** What a delivered AppendEntries does to the log of its receiver, measured against the log
    `lead` of the leader that sent it. */
module AppendLaws {
  import opened RaftTypes
  import opened Handlers
  import opened HandlerLaws

  /** The message carries a stretch of `lead` starting after `prevIdx`. */
  predicate Carries(ae: Message, lead: seq<Entry>)
    requires ae.AppendEntries?
  {
    && ae.prevIdx + ae.n <= |lead|
    && |ae.entries| <= ae.n
    && ae.entries == lead[ae.prevIdx..ae.prevIdx + |ae.entries|]
    && (0 < ae.prevIdx ==> ae.prevTerm == lead[ae.prevIdx - 1].term)
  }

  predicate AgreeThrough(a: seq<Entry>, b: seq<Entry>, i: nat)
    requires i < |a| && i < |b|
  {
    a[i].term == b[i].term ==> a[..i + 1] == b[..i + 1]
  }

  /** Log matching between two logs. */
  ghost predicate LogsMatch(a: seq<Entry>, b: seq<Entry>) {
    forall i {:trigger AgreeThrough(a, b, i)} :: 0 <= i < |a| && i < |b| ==> AgreeThrough(a, b, i)
  }

  /** What the receiver must satisfy: its log matches the leader's, its committed entries are
      the leader's, the message is anchored, and the chain lasts through the first loop. */
  ghost predicate Compatible(s: Server, ae: Message, lead: seq<Entry>)
    requires ae.AppendEntries?
  {
    && Carries(ae, lead)
    && LogsMatch(s.log, lead)
    && s.commit <= |s.log| && s.log[..s.commit] <= lead
    && s.term <= ae.term
    && WindowOK(s) && Anchored(s, ae) && NoNullRead(s, ae)
  }

  lemma PassedAgree(s: Server, ae: Message, lead: seq<Entry>)
    requires ae.AppendEntries? && Compatible(s, ae, lead) && PrevMatches(s, ae)
    ensures var l := ae.prevIdx + Matched(s, ae);
            l <= |lead| && l <= |s.log| && s.log[..l] == lead[..l]
  {
    var m := Matched(s, ae);
    if m == 0 {
      if 0 < ae.prevIdx {
        assert AgreeThrough(s.log, lead, ae.prevIdx - 1);
      }
    } else {
      var j := ae.prevIdx + m - 1;
      assert Passes(s, ae, m - 1);
      if j < s.commit {
        assert lead[..j + 1] == s.log[..s.commit][..j + 1];
      } else {
        assert AgreeThrough(s.log, lead, j);
      }
    }
  }

  lemma PickUpReplies(s: Server, ae: Message, m: nat)
    requires ae.AppendEntries? && m <= |ae.entries| <= ae.n
    ensures var a := PickUp(s, ae, m);
      a.reply == AppendReply(s.term, true, ae.prevIdx + |ae.entries|, ae.prevIdx + 1) && a.server.log == s.log + ae.entries[m..]
  {
  }

  /** When the log ends where the second loop starts, the loop copies the leader's entries. */
  lemma PickUpFollowsLeader(s: Server, ae: Message, m: nat, lead: seq<Entry>)
    requires ae.AppendEntries? && Carries(ae, lead) && m <= |ae.entries|
    requires s.log == lead[..ae.prevIdx + m]
    ensures var a := PickUp(s, ae, m);
      a.reply == AppendReply(s.term, true, ae.prevIdx + |ae.entries|, ae.prevIdx + 1)
      && a.server.log == lead[..ae.prevIdx + |ae.entries|]
  {
    PickUpReplies(s, ae, m);
    hide PickUp;
    var l, k := ae.prevIdx + m, |ae.entries|;
    assert ae.entries[m..] == lead[l..ae.prevIdx + k];
    assert lead[..l] + lead[l..ae.prevIdx + k] == lead[..ae.prevIdx + k];
  }

  /** The two loops refine one declarative merge: afterwards the log agrees with the leader's
      through `currentIdx`, and beyond that it is either untouched or empty. */
  lemma MergeFollowsLeader(s: Server, ae: Message, pop: int, lead: seq<Entry>)
    requires ae.AppendEntries? && Compatible(s, ae, lead) && PrevMatches(s, ae)
    ensures var a := Merge(s, ae, pop);
            var cur := a.reply.currentIdx;
            && a.reply.AppendReply? && a.reply.success
            && ae.prevIdx <= cur <= ae.prevIdx + ae.n && cur <= |lead|
            && cur <= |a.server.log| && a.server.log[..cur] == lead[..cur]
            && (a.server.log == s.log || a.server.log == lead[..cur])
  {
    hide Merge, PickUp, Compatible, Carries, LogsMatch, WindowOK, MatchFrom, Passes, DeleteFrom, EntryConflicts, PrevMatches;
    PassedAgree(s, ae, lead);
    CompatibleWindow(s, ae, lead);
    CarriedWithin(ae, lead);
    var m := Matched(s, ae);
    var l := ae.prevIdx + m;
    if EntryConflicts(s, ae) {
      MergeDeletes(s, ae, pop);
      if HasEntry(s, l + 1) && pop == 0 {
        PickUpFollowsLeader(DeleteFrom(s, l + 1, pop).0, ae, m, lead);
      }
    } else {
      MergePicksUp(s, ae, pop);
      if m == |ae.entries| {
        PickUpReplies(s, ae, m);
        assert s.log + ae.entries[m..] == s.log;
      } else {
        assert s.log == s.log[..l];
        PickUpFollowsLeader(s, ae, m, lead);
      }
    }
  }

  lemma CarriedWithin(ae: Message, lead: seq<Entry>)
    requires ae.AppendEntries? && Carries(ae, lead)
    ensures |ae.entries| <= ae.n && ae.prevIdx + ae.n <= |lead|
  {
  }

  /** The loops at a conflict: nothing changes, or the log is cut there and the rest goes in. */
  lemma MergeDeletes(s: Server, ae: Message, pop: int)
    requires ae.AppendEntries? && s.term <= ae.term && PrevMatches(s, ae) && EntryConflicts(s, ae) && NoNullRead(s, ae)
    ensures var m := Matched(s, ae);
      && m < |ae.entries| && HasEntry(s, ae.prevIdx + m + 1)
      && DeleteFrom(s, ae.prevIdx + m + 1, 0).0.log == s.log[..ae.prevIdx + m]
      && (pop != 0 ==> Merge(s, ae, pop) == Answer(s, AppendReply(s.term, true, ae.prevIdx + m, ae.prevIdx + 1), pop))
      && (pop == 0 ==> Merge(s, ae, pop) == PickUp(DeleteFrom(s, ae.prevIdx + m + 1, pop).0, ae, m))
  {
    hide PickUp, MatchFrom, Passes;
  }

  /** The loops without a conflict: only the second has anything to do, at the end of the log. */
  lemma MergePicksUp(s: Server, ae: Message, pop: int)
    requires ae.AppendEntries? && s.term <= ae.term && PrevMatches(s, ae) && !EntryConflicts(s, ae)
    requires WindowOK(s) && Anchored(s, ae) && |ae.entries| <= ae.n
    ensures var m := Matched(s, ae);
      && m <= |ae.entries| && Merge(s, ae, pop) == PickUp(s, ae, m)
      && (m < |ae.entries| ==> |s.log| <= ae.prevIdx + m)
  {
    hide PickUp, MatchFrom, Passes;
  }

  lemma MergeCommits(s: Server, ae: Message, pop: int)
    requires ae.AppendEntries? && WindowOK(s) && PrevMatches(s, ae)
    ensures Merge(s, ae, pop).reply.AppendReply? && Merge(s, ae, pop).reply.term == s.term
    ensures CommitFollows(s, ae, Merge(s, ae, pop))
  {
    hide MatchFrom, Passes;
  }

  /** Only the log and the commit index change, and the commit index only by the commit rule
      and only once all `n` entries are in place. */
  ghost predicate CommitFollows(s: Server, ae: Message, a: Answer)
    requires ae.AppendEntries? && a.reply.AppendReply?
  {
    && a.server == s.(log := a.server.log, gone := a.server.gone, commit := a.server.commit)
    && WindowOK(a.server) && Slides(s, a.server)
    && (a.server.commit != s.commit ==>
          && a.reply.currentIdx == ae.prevIdx + ae.n && a.reply.success
          && s.commit < ae.leaderCommit
          && a.server.commit == Min(Max(|a.server.log|, 1), ae.leaderCommit))
  }

  /** What the receiver and the leader agree on survives the merge. */
  lemma MergeKeepsAgreed(s: Server, ae: Message, pop: int, lead: seq<Entry>, p: seq<Entry>)
    requires ae.AppendEntries? && Compatible(s, ae, lead) && PrevMatches(s, ae)
    requires p <= s.log && p <= lead
    ensures p <= Merge(s, ae, pop).server.log
  {
    MergeFollowsLeader(s, ae, pop, lead);
    var m := Matched(s, ae);
    var l := ae.prevIdx + m;
    if EntryConflicts(s, ae) {
      assert !Passes(s, ae, m);
      assert l < |p| ==> s.log[l] == p[l] && lead[l] == p[l];
    } else if m != ae.n {
      PassedAgree(s, ae, lead);
    }
  }

  /** A conflict just before the message's entries lies beyond anything agreed on. */
  lemma PrevConflictBeyond(s: Server, ae: Message, lead: seq<Entry>, p: seq<Entry>)
    requires ae.AppendEntries? && Carries(ae, lead) && PrevConflicts(s, ae)
    requires p <= s.log && p <= lead
    ensures |p| < ae.prevIdx
  {
    assert p == s.log[..|p|] == lead[..|p|];
  }

  lemma HearingFollows(s: Server, from: NodeId, ae: Message, rnd: nat)
    requires ae.AppendEntries? && s.term <= ae.term
    ensures Follows(s, HearLeader(s, from, ae, rnd), from, ae.term)
  {
  }

  lemma HeardCompatibly(s: Server, from: NodeId, ae: Message, rnd: nat, lead: seq<Entry>)
    requires ae.AppendEntries? && Compatible(s, ae, lead)
    ensures s.term <= ae.term && Compatible(HearLeader(s, from, ae, rnd), ae, lead)
  {
    HearingKeeps(s, from, ae, rnd);
    hide Matched, LogsMatch, Carries, HearLeader;
  }

  /** The handler hears the leader, and runs the two loops if it has the previous entry. */
  lemma HandlerMerges(s: Server, from: NodeId, ae: Message, pop: int, rnd: nat)
    requires ae.AppendEntries? && s.term <= ae.term && PrevMatches(HearLeader(s, from, ae, rnd), ae)
    ensures RecvAppendEntries(s, from, ae, pop, rnd) == Merge(HearLeader(s, from, ae, rnd), ae, pop)
  {
    hide HearLeader, Merge;
  }

  /** Without the previous entry it refuses; if that conflicts, it may shorten the log. */
  lemma HandlerRefuses(s: Server, from: NodeId, ae: Message, pop: int, rnd: nat, lead: seq<Entry>)
    requires ae.AppendEntries? && s.term <= ae.term && !PrevMatches(HearLeader(s, from, ae, rnd), ae) && WindowOK(s)
    ensures var a := RecvAppendEntries(s, from, ae, pop, rnd);
      && a.reply.AppendReply? && a.reply.term == ae.term && Follows(s, a.server, from, ae.term) && Adopts(s, a, ae, lead)
      && (a.server.log == s.log
          || (PrevConflicts(s, ae) && Max(ae.prevIdx, ae.leaderCommit + 1) - 1 <= |s.log|
              && a.server.log == s.log[..Max(ae.prevIdx, ae.leaderCommit + 1) - 1]))
  {
    HearingKeeps(s, from, ae, rnd);
    HearingFollows(s, from, ae, rnd);
    hide HearLeader, Merge, Matched;
  }

  /** The whole handler against the leader's log. On success the reply's index is the length of
      a prefix shared with the leader; otherwise the log is only shortened. */
  lemma AppendFollowsLeader(s: Server, from: NodeId, ae: Message, pop: int, rnd: nat, lead: seq<Entry>)
    requires ae.AppendEntries? && Compatible(s, ae, lead)
    ensures var a := RecvAppendEntries(s, from, ae, pop, rnd);
            && a.reply.AppendReply? && a.reply.term == ae.term
            && Follows(s, a.server, from, ae.term)
            && Adopts(s, a, ae, lead)
  {
    hide *;
    HeardCompatibly(s, from, ae, rnd, lead);
    CompatibleWindow(s, ae, lead);
    var s1 := HearLeader(s, from, ae, rnd);
    if PrevMatches(s1, ae) {
      CompatibleWindow(s1, ae, lead);
      HandlerMerges(s, from, ae, pop, rnd);
      MergeFollowsLeader(s1, ae, pop, lead);
      MergeCommits(s1, ae, pop);
      HearingKeeps(s, from, ae, rnd);
      HearingFollows(s, from, ae, rnd);
      MergeAdopts(s, s1, from, ae, Merge(s1, ae, pop), lead);
    } else {
      HandlerRefuses(s, from, ae, pop, rnd, lead);
    }
  }

  lemma CompatibleWindow(s: Server, ae: Message, lead: seq<Entry>)
    requires ae.AppendEntries? && Compatible(s, ae, lead)
    ensures s.term <= ae.term && WindowOK(s) && Anchored(s, ae) && NoNullRead(s, ae)
    ensures Carries(ae, lead) && s.commit <= |s.log| && s.log[..s.commit] <= lead
  {
    hide LogsMatch, Anchored, NoNullRead;
  }

  lemma MergeAdopts(s: Server, s1: Server, from: NodeId, ae: Message, a: Answer, lead: seq<Entry>)
    requires ae.AppendEntries? && a.reply.AppendReply? && CommitFollows(s1, ae, a) && Follows(s, s1, from, ae.term)
    requires s1.log == s.log && s1.gone == s.gone && s1.capacity == s.capacity && s1.commit == s.commit
    requires a.reply.success && a.reply.term == s1.term && a.reply.currentIdx <= |lead|
    requires a.reply.currentIdx <= |a.server.log| && a.server.log[..a.reply.currentIdx] == lead[..a.reply.currentIdx]
    requires a.server.log == s.log || a.server.log == lead[..a.reply.currentIdx]
    ensures Follows(s, a.server, from, ae.term) && Adopts(s, a, ae, lead) && a.reply.term == ae.term
  {
  }

  ghost predicate Shared(a: seq<Entry>, b: seq<Entry>, k: nat) {
    k <= |a| && k <= |b| && a[..k] == b[..k]
  }

  lemma ShorterShared(a: seq<Entry>, b: seq<Entry>, j: nat, k: nat)
    requires Shared(a, b, j) && k <= j
    ensures Shared(a, b, k)
  {
    assert a[..k] == a[..j][..k];
    assert b[..k] == b[..j][..k];
  }

  /** The log and commit index the handler leaves behind. */
  ghost predicate Adopts(s: Server, a: Answer, ae: Message, lead: seq<Entry>)
    requires ae.AppendEntries? && a.reply.AppendReply?
  {
    var cur := a.reply.currentIdx;
    && WindowOK(a.server) && Slides(s, a.server)
    && (a.reply.success ==>
          Shared(a.server.log, lead, cur) && (a.server.log == s.log || a.server.log == lead[..cur]))
    && (!a.reply.success ==> a.server.log <= s.log && a.server.commit == s.commit)
    && (a.server.commit != s.commit ==>
          cur == ae.prevIdx + ae.n && a.reply.success
          && a.server.commit == Min(Max(|a.server.log|, 1), ae.leaderCommit) && s.commit < ae.leaderCommit)
  }

  /** What the receiver and the leader agree on survives the whole handler. */
  lemma AppendKeepsAgreed(s: Server, from: NodeId, ae: Message, pop: int, rnd: nat, lead: seq<Entry>, p: seq<Entry>)
    requires ae.AppendEntries? && Compatible(s, ae, lead)
    requires p <= s.log && p <= lead
    ensures p <= RecvAppendEntries(s, from, ae, pop, rnd).server.log
  {
    hide *;
    HeardCompatibly(s, from, ae, rnd, lead);
    CompatibleWindow(s, ae, lead);
    HearingKeeps(s, from, ae, rnd);
    var s1 := HearLeader(s, from, ae, rnd);
    if PrevMatches(s1, ae) {
      HandlerMerges(s, from, ae, pop, rnd);
      MergeKeepsAgreed(s1, ae, pop, lead, p);
    } else {
      HandlerRefuses(s, from, ae, pop, rnd, lead);
      if PrevConflicts(s, ae) {
        PrevConflictBeyond(s, ae, lead, p);
        BelowDeletion(s.log, p, ae.prevIdx, ae.leaderCommit);
      }
    }
  }

  lemma BelowDeletion(log: seq<Entry>, p: seq<Entry>, prev: nat, lc: nat)
    requires p <= log && |p| < prev
    ensures var d := Max(prev, lc + 1) - 1; d <= |log| ==> p <= log[..d]
  {
  }

  /** Whatever prefix `a` and `b` share is a prefix of `r`. */
  ghost predicate KeepsShared(a: seq<Entry>, b: seq<Entry>, r: seq<Entry>) {
    forall k: nat {:trigger Shared(a, b, k)} :: Shared(a, b, k) ==> a[..k] <= r
  }

  lemma AppendKeepsShared(s: Server, from: NodeId, ae: Message, pop: int, rnd: nat, lead: seq<Entry>)
    requires ae.AppendEntries? && Compatible(s, ae, lead)
    ensures KeepsShared(s.log, lead, RecvAppendEntries(s, from, ae, pop, rnd).server.log)
  {
    forall k: nat | Shared(s.log, lead, k)
      ensures s.log[..k] <= RecvAppendEntries(s, from, ae, pop, rnd).server.log
    {
      AppendKeepsAgreed(s, from, ae, pop, rnd, lead, s.log[..k]);
    }
  }

  /** With a leader commit index inside the message, no assertion of the handler fails and the
      commit index reached is the leader's. */
  lemma AppendAssertsHold(s: Server, from: NodeId, ae: Message, pop: int, rnd: nat, lead: seq<Entry>)
    requires ae.AppendEntries? && Compatible(s, ae, lead)
    requires ae.leaderCommit <= ae.prevIdx + ae.n
    ensures AppendEntriesAsserts(s, ae, pop)
    ensures var a := RecvAppendEntries(s, from, ae, pop, rnd);
            && s.commit <= a.server.commit <= |a.server.log|
            && (a.server.commit == s.commit || a.server.commit == ae.leaderCommit)
  {
    hide *;
    CompatibleWindow(s, ae, lead);
    AppendKeepsAgreed(s, from, ae, pop, rnd, lead, s.log[..s.commit]);
    AppendFollowsLeader(s, from, ae, pop, rnd, lead);
    CommitReached(s, ae, RecvAppendEntries(s, from, ae, pop, rnd), lead);
    DeletesAboveCommit(s, ae, lead);
    if PrevMatches(s, ae) {
      MergeCommitsInLog(s, ae, pop, lead);
    }
    assert AppendEntriesAsserts(s, ae, pop) by { AssertsFrom(s, ae, pop); }
  }

  lemma AssertsFrom(s: Server, ae: Message, pop: int)
    requires ae.AppendEntries? && (DeletionIdx(s, ae).Some? ==> s.commit < DeletionIdx(s, ae).value)
    requires PrevMatches(s, ae) ==> s.commit <= Merge(s, ae, pop).server.commit <= |Merge(s, ae, pop).server.log|
    ensures AppendEntriesAsserts(s, ae, pop)
  {
    hide Merge, DeletionIdx;
  }

  /** Nothing at or below the commit index is deleted. */
  lemma DeletesAboveCommit(s: Server, ae: Message, lead: seq<Entry>)
    requires ae.AppendEntries? && Compatible(s, ae, lead)
    ensures DeletionIdx(s, ae).Some? ==> s.commit < DeletionIdx(s, ae).value
  {
    CompatibleWindow(s, ae, lead);
    if PrevConflicts(s, ae) {
      PrevConflictBeyond(s, ae, lead, s.log[..s.commit]);
    } else if PrevMatches(s, ae) && EntryConflicts(s, ae) {
      assert !Passes(s, ae, Matched(s, ae));
    }
    hide Compatible, Matched;
  }

  lemma MergeCommitsInLog(s: Server, ae: Message, pop: int, lead: seq<Entry>)
    requires ae.AppendEntries? && Compatible(s, ae, lead) && PrevMatches(s, ae) && ae.leaderCommit <= ae.prevIdx + ae.n
    ensures s.commit <= Merge(s, ae, pop).server.commit <= |Merge(s, ae, pop).server.log|
  {
    CompatibleWindow(s, ae, lead);
    hide Merge, Compatible, PrevMatches, Carries, WindowOK, Slides;
    MergeFollowsLeader(s, ae, pop, lead);
    MergeCommits(s, ae, pop);
    MergeKeepsAgreed(s, ae, pop, lead, s.log[..s.commit]);
  }

  /** The commit index that an answer which adopts the leader's entries shows. */
  lemma CommitReached(s: Server, ae: Message, a: Answer, lead: seq<Entry>)
    requires ae.AppendEntries? && a.reply.AppendReply? && Adopts(s, a, ae, lead) && ae.leaderCommit <= ae.prevIdx + ae.n
    requires s.commit <= |s.log| && s.log[..s.commit] <= a.server.log
    ensures s.commit <= a.server.commit <= |a.server.log|
    ensures a.server.commit == s.commit || a.server.commit == ae.leaderCommit
  {
    hide WindowOK, Slides;
  }

  /** The receiver's term, vote, role and hint after it followed the leader `src` of term `t`. */
  predicate Follows(s: Server, s': Server, src: NodeId, t: nat) {
    && s'.id == s.id && s'.peers == s.peers && s'.applied == s.applied && s'.fed == s.fed
    && s'.term == t && s'.leader == Some(src)
    && (s'.votedFor == if s.term < t then None else s.votedFor)
    && (s'.role == if s.term < t || s.role == Candidate then Follower else s.role)
  }

  /** The receiver's log and commit index, seen against the leader's log. */
  ghost predicate Received(s: Server, s': Server, lead: seq<Entry>, lc: nat, success: bool, cur: nat) {
    && s.commit <= s'.commit <= |s'.log| && WindowOK(s') && Slides(s, s')
    && KeepsShared(s.log, lead, s'.log)
    && (success ==> Shared(s'.log, lead, cur))
    && (s'.log <= s.log || s'.log <= lead)
    && (s'.commit == s.commit || (s'.commit == lc && Shared(s'.log, lead, lc)))
    && Shared(s.log, lead, s.commit)
  }

  lemma AppendReceives(s: Server, from: NodeId, ae: Message, pop: int, rnd: nat, lead: seq<Entry>)
    requires ae.AppendEntries? && Compatible(s, ae, lead)
    requires ae.leaderCommit <= ae.prevIdx + ae.n
    ensures var a := RecvAppendEntries(s, from, ae, pop, rnd);
            && a.reply.AppendReply? && a.reply.term == ae.term
            && Follows(s, a.server, from, ae.term)
            && Received(s, a.server, lead, ae.leaderCommit, a.reply.success, a.reply.currentIdx)
  {
    assert Shared(s.log, lead, s.commit);
    hide RecvAppendEntries, AppendEntriesAsserts, KeepsShared, Compatible, Carries, NoNullRead, Shared;
    AppendAssertsHold(s, from, ae, pop, rnd, lead);
    AppendKeepsShared(s, from, ae, pop, rnd, lead);
    AppendFollowsLeader(s, from, ae, pop, rnd, lead);
    var a := RecvAppendEntries(s, from, ae, pop, rnd);
    if a.server.commit != s.commit {
      ShorterShared(a.server.log, lead, a.reply.currentIdx, ae.leaderCommit);
    }
  }

  // ----- Messages for peers at the edge of the leader's list -----

  /** A leader `s`, a peer `u` in its term or before, and the leader's bookkeeping `p` for it: the logs
      agree up to the entry before the next index, which the peer still lists. */
  ghost predicate AtEdge(s: Server, u: Server, p: Peer) {
    && 2 <= p.nextIdx <= |s.log| + 1 && CanSend(s, p)
    && u.term <= s.term && WindowOK(u)
    && LogsMatch(u.log, s.log) && u.commit <= |u.log| && u.log[..u.commit] <= s.log
    && HasEntry(u, p.nextIdx - 1) && Shared(u.log, s.log, p.nextIdx - 1) && 0 < s.log[p.nextIdx - 2].term
  }

  /** Where the peer deletes if it takes the previous entry for a conflict. */
  function DropIdx(s: Server, p: Peer): nat
    requires 1 <= p.nextIdx
  {
    Max(p.nextIdx - 1, s.commit + 1)
  }

  /** The leader still lists the previous entry: its message is like any other. */
  lemma ListedPrevKeeps(s: Server, u: Server, p: Peer, pop: int, rnd: nat)
    requires AtEdge(s, u, p) && HasEntry(s, p.nextIdx - 1)
    ensures KeepsShared(u.log, s.log, RecvAppendEntries(u, s.id, AppendFor(s, p), pop, rnd).server.log)
  {
    assert Compatible(u, AppendFor(s, p), s.log);
    hide RecvAppendEntries, Compatible, AppendFor;
    AppendKeepsShared(u, s.id, AppendFor(s, p), pop, rnd, s.log);
  }

  /** The leader has dropped the previous entry: the peer finds a conflict and deletes, if it may. */
  lemma DroppedPrevDeletes(s: Server, u: Server, p: Peer, pop: int, rnd: nat)
    requires AtEdge(s, u, p) && !HasEntry(s, p.nextIdx - 1)
    ensures RecvAppendEntries(u, s.id, AppendFor(s, p), pop, rnd).server.log
      == if HasEntry(u, DropIdx(s, p)) && pop == 0 then u.log[..DropIdx(s, p) - 1] else u.log
  {
    var prev := p.nextIdx - 1;
    assert u.log[prev - 1] == u.log[..prev][prev - 1] == s.log[..prev][prev - 1] == s.log[prev - 1];
    var ae := AppendFor(s, p);
    assert ae.AppendEntries? && ae.prevIdx == prev && ae.prevTerm == 0 && ae.leaderCommit == s.commit && ae.term == s.term;
    hide LogsMatch, AppendFor, Merge;
    PrevTaken(u, s.id, ae, pop, rnd);
  }

  lemma PrevTaken(u: Server, from: NodeId, ae: Message, pop: int, rnd: nat)
    requires ae.AppendEntries? && u.term <= ae.term && PrevConflicts(u, ae) && WindowOK(u)
    ensures var d := Max(ae.prevIdx, ae.leaderCommit + 1);
      RecvAppendEntries(u, from, ae, pop, rnd).server.log == if HasEntry(u, d) && pop == 0 then u.log[..d - 1] else u.log
  {
    HearingKeeps(u, from, ae, rnd);
    hide HearLeader, Merge, Matched;
  }

  /** The message for a peer whose log agrees up to its next index keeps what the two share if and only if
      the leader still lists the entry before that index, or `log_pop` refuses, or the entry at which the
      peer would delete is not one they share. */
  lemma EdgeKeepsExactly(s: Server, u: Server, p: Peer, pop: int, rnd: nat)
    requires AtEdge(s, u, p)
    ensures KeepsShared(u.log, s.log, RecvAppendEntries(u, s.id, AppendFor(s, p), pop, rnd).server.log) <==>
      || HasEntry(s, p.nextIdx - 1) || pop != 0
      || !(HasEntry(u, DropIdx(s, p)) && Shared(u.log, s.log, DropIdx(s, p)))
  {
    var d := DropIdx(s, p);
    if HasEntry(s, p.nextIdx - 1) {
      ListedPrevKeeps(s, u, p, pop, rnd);
    } else {
      DroppedPrevDeletes(s, u, p, pop, rnd);
      hide RecvAppendEntries, AppendFor, LogsMatch;
      var log := RecvAppendEntries(u, s.id, AppendFor(s, p), pop, rnd).server.log;
      if pop == 0 && HasEntry(u, d) && Shared(u.log, s.log, d) {
        assert !(u.log[..d] <= log);
      } else {
        forall k: nat | Shared(u.log, s.log, k) ensures u.log[..k] <= log {
          if d <= k {
            ShorterShared(u.log, s.log, k, d);
          }
        }
      }
    }
  }

  /** What the leader can tell by itself: the peer keeps the entries before its next index if and only if
      the leader still lists the last of them, or has committed it, or `log_pop` refuses. */
  lemma AcknowledgedKeptExactly(s: Server, u: Server, p: Peer, pop: int, rnd: nat)
    requires AtEdge(s, u, p)
    ensures u.log[..p.nextIdx - 1] <= RecvAppendEntries(u, s.id, AppendFor(s, p), pop, rnd).server.log <==>
      HasEntry(s, p.nextIdx - 1) || p.nextIdx - 1 <= s.commit || pop != 0
  {
    if HasEntry(s, p.nextIdx - 1) {
      ListedPrevKeeps(s, u, p, pop, rnd);
      assert Shared(u.log, s.log, p.nextIdx - 1);
    } else {
      DroppedPrevDeletes(s, u, p, pop, rnd);
    }
    hide RecvAppendEntries, AppendFor, LogsMatch;
  }
}
