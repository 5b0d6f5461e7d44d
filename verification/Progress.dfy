/** What servers achieve when the messages between them get through: a leader repairs the log of
    any peer in a bounded number of exchanges, and a willing voter's answer counts for a candidate. */
module Progress {
  import opened RaftTypes
  import opened Peers
  import opened Handlers
  import opened HandlerLaws
  import opened AppendLaws
  import opened Quorum

  // ----- Log repair -----

  /** A leader and its bookkeeping for peer `id`. */
  ghost predicate Tracks(s: Server, id: NodeId) {
    && s.role == Leader && id != s.id && s.commit <= |s.log|
    && DistinctIds(s.peers) && NextPositive(s.peers)
    && Find(s.peers, id).Some?
    && var p := Find(s.peers, id).value;
    && 1 <= p.nextIdx <= |s.log| + 1
    && (p.matchIdx == 0 || p.matchIdx == p.nextIdx - 1)
  }

  /** A peer in the leader's term or an earlier one, whose log matches the leader's. */
  ghost predicate Trails(s: Server, u: Server) {
    && u.term <= s.term && WindowOK(u)
    && LogsMatch(u.log, s.log)
    && u.commit <= |u.log| && u.log[..u.commit] <= s.log
  }

  /** The list holds the log from index `k` on, or all of it if `k` is 0. */
  predicate ListsFrom(s: Server, k: nat) {
    if k == 0 then s.gone == 0 else s.gone < k
  }

  /** Both logs have the first `base` entries in common, and both lists hold theirs from there on. */
  ghost predicate Repairable(s: Server, u: Server, base: nat) {
    && Tracks(s, u.id) && Trails(s, u)
    && var p := Find(s.peers, u.id).value;
    && Shared(u.log, s.log, p.matchIdx)
    && base < p.nextIdx && Shared(u.log, s.log, base) && ListsFrom(s, base) && ListsFrom(u, base)
  }

  /** An index of both logs holds different terms. */
  ghost predicate Conflict(a: seq<Entry>, b: seq<Entry>) {
    exists x :: 0 <= x < |a| && x < |b| && a[x].term != b[x].term
  }

  /** The peer's answer to the AppendEntries the leader has for it now; `pop` is what `log_pop` returns. */
  function Heard(s: Server, u: Server, pop: int, rnd: nat): Answer
    requires Find(s.peers, u.id).Some? && 1 <= Find(s.peers, u.id).value.nextIdx
  {
    RecvAppendEntries(u, s.id, AppendFor(s, Find(s.peers, u.id).value), pop, rnd)
  }

  /** One exchange: the leader's message reaches the peer and the answer gets back. */
  ghost predicate Exchange(s: Server, u: Server, pop: int, ready: bool, rnd: nat, s': Server, u': Server) {
    && NextPositive(s.peers)
    && Find(s.peers, u.id).Some? && 1 <= Find(s.peers, u.id).value.nextIdx
    && var a := Heard(s, u, pop, rnd);
    && a.reply.AppendReply? && AppendReplyAsserts(s, u.id, a.reply)
    && u' == a.server
    && s' == RecvAppendReply(s, u.id, a.reply, ready, rnd).server
  }

  ghost predicate Exchanges(trace: seq<(Server, Server)>, pop: int, ready: bool, rnd: nat) {
    forall k :: 0 <= k < |trace| - 1 ==> Exchange(trace[k].0, trace[k].1, pop, ready, rnd, trace[k + 1].0, trace[k + 1].1)
  }

  /** The peer has all of the leader's log and commit index, and the leader knows. */
  ghost predicate Repaired(s: Server, u: Server, s': Server, u': Server) {
    && s'.log == s.log && s'.term == s.term && s'.role == Leader
    && u'.term == s.term && u'.leader == Some(s.id)
    && s.log <= u'.log && s.commit <= u'.commit
    && Find(s'.peers, u.id).Some? && Find(s'.peers, u.id).value.matchIdx == |s.log|
  }

  lemma LetterCarries(s: Server, p: Peer, base: nat)
    requires 1 <= p.nextIdx <= |s.log| + 1 && base < p.nextIdx && ListsFrom(s, base)
    ensures var ae := AppendFor(s, p);
      Carries(ae, s.log) && ae.term == s.term && |ae.entries| == ae.n && ae.prevIdx == p.nextIdx - 1
      && ae.prevIdx + ae.n == |s.log| && ae.leaderCommit == s.commit
  {
  }

  lemma HeardCompatible(s: Server, u: Server, base: nat)
    requires Repairable(s, u, base)
    ensures Compatible(u, AppendFor(s, Find(s.peers, u.id).value), s.log)
  {
    var p := Find(s.peers, u.id).value;
    hide AppendFor, Carries, LogsMatch, DistinctIds, NextPositive, Shared;
    LetterCarries(s, p, base);
  }

  lemma PrefixMatches(a: seq<Entry>, b: seq<Entry>, lead: seq<Entry>)
    requires LogsMatch(b, lead) && a <= b
    ensures LogsMatch(a, lead)
  {
    forall i | 0 <= i < |a| && i < |lead| ensures AgreeThrough(a, lead, i) {
      assert AgreeThrough(b, lead, i);
      assert a[..i + 1] == b[..i + 1];
    }
  }

  /** The entries of the message go in, because nothing conflicts or `log_pop` accepts. */
  ghost predicate GoesIn(s: Server, u: Server, pop: int) {
    pop == 0 || !Conflict(u.log, s.log)
  }

  lemma HeardRoute(s: Server, u: Server, ae: Message, pop: int, rnd: nat)
    requires ae.AppendEntries? && u.term <= ae.term
    ensures var a := RecvAppendEntries(u, s.id, ae, pop, rnd);
      && a.reply.AppendReply?
      && (PrevMatches(u, ae) ==> a == Merge(HearLeader(u, s.id, ae, rnd), ae, pop))
      && (!PrevMatches(u, ae) ==> !a.reply.success && a.reply.currentIdx == |a.server.log|)
  {
  }

  /** When the first loop of a compatible receiver meets a conflict. */
  lemma ConflictMet(u: Server, ae: Message, lead: seq<Entry>)
    requires ae.AppendEntries? && Compatible(u, ae, lead) && PrevMatches(u, ae)
    requires |ae.entries| == ae.n && ae.prevIdx + ae.n == |lead|
    ensures EntryConflicts(u, ae) <==> Conflict(u.log, lead)
  {
    var m := Matched(u, ae);
    PassedAgree(u, ae, lead);
    if EntryConflicts(u, ae) {
      assert !Passes(u, ae, m);
      assert u.log[ae.prevIdx + m].term != lead[ae.prevIdx + m].term;
    }
    if x :| 0 <= x < |u.log| && x < |lead| && u.log[x].term != lead[x].term {
      assert ae.prevIdx + m <= x by { assert u.log[..ae.prevIdx + m] == lead[..ae.prevIdx + m]; }
    }
  }

  lemma MergeOutcome(s: Server, ae: Message, pop: int)
    requires ae.AppendEntries? && PrevMatches(s, ae)
    ensures var a := Merge(s, ae, pop);
      && a.reply.AppendReply? && a.reply.success
      && (a.err == 0 <==> !EntryConflicts(s, ae) || pop == 0)
      && (a.err != 0 ==> a.server == s && a.reply.currentIdx == ae.prevIdx + Matched(s, ae))
  {
    hide MatchFrom, Passes;
  }

  /** The peer answers yes exactly when it has the previous entry. It then takes everything, unless an
      entry conflicts and `log_pop` refuses: then it takes nothing. */
  lemma HeardSuccess(s: Server, u: Server, ae: Message, pop: int, rnd: nat)
    requires ae.AppendEntries? && Compatible(u, ae, s.log) && |ae.entries| == ae.n && ae.prevIdx + ae.n == |s.log|
    ensures var a := RecvAppendEntries(u, s.id, ae, pop, rnd);
      && a.reply.AppendReply?
      && (a.reply.success <==> PrevMatches(u, ae))
      && (!a.reply.success ==> a.reply.currentIdx == |a.server.log|)
      && (a.reply.success && GoesIn(s, u, pop) ==>
            && a.err == 0 && a.reply.currentIdx == ae.prevIdx + ae.n
            && Min(|a.server.log|, ae.leaderCommit) <= a.server.commit)
      && (a.reply.success && !GoesIn(s, u, pop) ==>
            && a.server.log == u.log && a.server.gone == u.gone && a.server.commit == u.commit
            && a.reply.currentIdx == ae.prevIdx + Matched(u, ae))
  {
    hide RecvAppendEntries, Merge, Conflict, MatchFrom, Matched, Passes, PrevMatches, EntryConflicts, LogsMatch, Carries, NoNullRead,
         HearLeader;
    HeardRoute(s, u, ae, pop, rnd);
    if PrevMatches(u, ae) {
      var u1 := HearLeader(u, s.id, ae, rnd);
      HearingKeeps(u, s.id, ae, rnd);
      ConflictMet(u, ae, s.log);
      MergeOutcome(u1, ae, pop);
      if GoesIn(s, u, pop) {
        AcceptedFrame(u, s.id, ae, pop, rnd);
      }
    }
  }

  /** What the leader may rely on when the peer took everything. */
  ghost predicate AnswersYes(s: Server, a: Answer)
    requires a.reply.AppendReply?
  {
    a.reply.success && a.reply.currentIdx == |s.log| && s.log <= a.server.log && s.commit <= a.server.commit
  }

  /** The peer had the previous entry, met a conflict, and was not allowed to delete. */
  ghost predicate AnswersStuck(s: Server, u: Server, base: nat, a: Answer)
    requires a.reply.AppendReply?
  {
    && a.reply.success
    && a.server.log == u.log && a.server.gone == u.gone && a.server.commit == u.commit && WindowOK(a.server)
    && base <= a.reply.currentIdx && Shared(u.log, s.log, a.reply.currentIdx)
  }

  ghost predicate AnswersNo(s: Server, u: Server, base: nat, p: Peer, a: Answer)
    requires a.reply.AppendReply?
  {
    && !a.reply.success
    && p.matchIdx != p.nextIdx - 1 && base < p.nextIdx - 1 && a.reply.currentIdx == |a.server.log|
    && a.server.commit == u.commit && a.server.log <= u.log && Shared(a.server.log, u.log, u.commit)
    && a.server.gone == u.gone && WindowOK(a.server)
    && Shared(a.server.log, s.log, p.matchIdx) && Shared(a.server.log, s.log, base)
  }

  /** What the peer answers. */
  lemma HeardAnswer(s: Server, u: Server, base: nat, pop: int, rnd: nat)
    requires Repairable(s, u, base)
    ensures var a := Heard(s, u, pop, rnd);
      var p := Find(s.peers, u.id).value;
      && a.reply.AppendReply? && a.reply.term == s.term
      && a.server.id == u.id && a.server.term == s.term && a.server.leader == Some(s.id)
      && (a.reply.success && GoesIn(s, u, pop) ==> AnswersYes(s, a))
      && (a.reply.success && !GoesIn(s, u, pop) ==> AnswersStuck(s, u, base, a))
      && (!a.reply.success ==> AnswersNo(s, u, base, p, a))
      && (pop != 0 ==> |u.log| <= |a.server.log|)
  {
    hide *;
    HeardLetter(s, u, base);
    var p := Find(s.peers, u.id).value;
    var ae := AppendFor(s, p);
    HeardRuns(s, u, pop, rnd);
    HeardCompatible(s, u, base);
    BaseListed(s, u, base);
    HeardSuccess(s, u, ae, pop, rnd);
    AppendFollowsLeader(u, s.id, ae, pop, rnd, s.log);
    FollowsFields(u, RecvAppendEntries(u, s.id, ae, pop, rnd).server, s.id, s.term);
    CompatibleParts(u, ae, s.log);
    HeardParts(s, u, base, p, ae, pop, rnd);
    RefusedKeepsLength(u, s.id, ae, pop, rnd);
  }

  lemma HeardRuns(s: Server, u: Server, pop: int, rnd: nat)
    requires Find(s.peers, u.id).Some? && 1 <= Find(s.peers, u.id).value.nextIdx
    ensures Heard(s, u, pop, rnd) == RecvAppendEntries(u, s.id, AppendFor(s, Find(s.peers, u.id).value), pop, rnd)
  {
    hide RecvAppendEntries, AppendFor;
  }

  /** What the leader sends to a peer it can repair, and what the two have in common. */
  lemma HeardLetter(s: Server, u: Server, base: nat)
    requires Repairable(s, u, base)
    ensures Find(s.peers, u.id).Some? && 1 <= Find(s.peers, u.id).value.nextIdx
    ensures var p := Find(s.peers, u.id).value;
      var ae := AppendFor(s, p);
      && ae.AppendEntries? && ae.term == s.term && |ae.entries| == ae.n && ae.prevIdx == p.nextIdx - 1
      && ae.prevIdx + ae.n == |s.log| && ae.leaderCommit == s.commit && s.commit <= |s.log|
      && WindowOK(u) && u.commit <= |u.log| && base <= ae.prevIdx
      && Shared(u.log, s.log, base) && Shared(u.log, s.log, p.matchIdx) && Shared(u.log, s.log, u.commit)
  {
    hide AppendFor, Carries, LogsMatch, DistinctIds, NextPositive, WindowOK, ListsFrom;
    LetterHead(s, Find(s.peers, u.id).value);
    LetterCarries(s, Find(s.peers, u.id).value, base);
  }

  lemma FollowsFields(u: Server, u': Server, src: NodeId, t: nat)
    requires Follows(u, u', src, t)
    ensures u'.id == u.id && u'.term == t && u'.leader == Some(src)
  {
  }

  /** A refusing `log_pop` keeps every entry. */
  lemma RefusedKeepsLength(u: Server, from: NodeId, ae: Message, pop: int, rnd: nat)
    requires ae.AppendEntries?
    ensures pop != 0 ==> u.log <= RecvAppendEntries(u, from, ae, pop, rnd).server.log
  {
    hide MatchFrom, Passes;
  }

  lemma HeardParts(s: Server, u: Server, base: nat, p: Peer, ae: Message, pop: int, rnd: nat)
    requires ae.AppendEntries? && Compatible(u, ae, s.log) && WindowOK(u) && u.commit <= |u.log|
    requires ae.prevIdx == p.nextIdx - 1 && ae.prevIdx + ae.n == |s.log| && ae.leaderCommit == s.commit && s.commit <= |s.log|
    requires base <= ae.prevIdx && Shared(u.log, s.log, base) && Shared(u.log, s.log, p.matchIdx) && Shared(u.log, s.log, u.commit)
    requires p.matchIdx == p.nextIdx - 1 || base == p.nextIdx - 1 ==> PrevMatches(u, ae)
    requires PrevMatches(u, ae) ==> ae.prevIdx + Matched(u, ae) <= |s.log| && Shared(u.log, s.log, ae.prevIdx + Matched(u, ae))
    requires var a := RecvAppendEntries(u, s.id, ae, pop, rnd);
      && a.reply.AppendReply?
      && Adopts(u, a, ae, s.log)
      && (a.reply.success <==> PrevMatches(u, ae))
      && (!a.reply.success ==> a.reply.currentIdx == |a.server.log|)
      && (a.reply.success && GoesIn(s, u, pop) ==>
            && a.err == 0 && a.reply.currentIdx == ae.prevIdx + ae.n
            && Min(|a.server.log|, ae.leaderCommit) <= a.server.commit)
      && (a.reply.success && !GoesIn(s, u, pop) ==>
            && a.server.log == u.log && a.server.gone == u.gone && a.server.commit == u.commit
            && a.reply.currentIdx == ae.prevIdx + Matched(u, ae))
    ensures var a := RecvAppendEntries(u, s.id, ae, pop, rnd);
      && (a.reply.success && GoesIn(s, u, pop) ==> AnswersYes(s, a))
      && (a.reply.success && !GoesIn(s, u, pop) ==> AnswersStuck(s, u, base, a))
      && (!a.reply.success ==> AnswersNo(s, u, base, p, a))
  {
    hide RecvAppendEntries, Compatible, Matched, PrevMatches, GoesIn;
    var a := RecvAppendEntries(u, s.id, ae, pop, rnd);
    if !a.reply.success {
      KeptShared(s, u, ae, pop, rnd, p.matchIdx);
      KeptShared(s, u, ae, pop, rnd, base);
      KeptShared(s, u, ae, pop, rnd, u.commit);
    }
  }

  lemma KeptShared(s: Server, u: Server, ae: Message, pop: int, rnd: nat, k: nat)
    requires ae.AppendEntries? && Compatible(u, ae, s.log) && Shared(u.log, s.log, k)
    ensures var log := RecvAppendEntries(u, s.id, ae, pop, rnd).server.log; Shared(log, s.log, k) && Shared(log, u.log, k)
  {
    hide RecvAppendEntries, Compatible;
    AppendKeepsAgreed(u, s.id, ae, pop, rnd, s.log, u.log[..k]);
  }

  lemma CompatibleParts(u: Server, ae: Message, lead: seq<Entry>)
    requires ae.AppendEntries? && Compatible(u, ae, lead)
    ensures PrevMatches(u, ae) ==> ae.prevIdx + Matched(u, ae) <= |lead| && Shared(u.log, lead, ae.prevIdx + Matched(u, ae))
  {
    if PrevMatches(u, ae) {
      PassedAgree(u, ae, lead);
    }
  }

  /** The peer has the entry before a message that starts right after a common prefix it lists. */
  lemma BaseListed(s: Server, u: Server, base: nat)
    requires Repairable(s, u, base)
    ensures var p := Find(s.peers, u.id).value;
      p.matchIdx == p.nextIdx - 1 || base == p.nextIdx - 1 ==> PrevMatches(u, AppendFor(s, p))
  {
    hide LogsMatch, DistinctIds, NextPositive, WindowOK, AppendFor;
    var p := Find(s.peers, u.id).value;
    LetterHead(s, p);
    var prev := p.nextIdx - 1;
    if 0 < prev && Shared(u.log, s.log, prev) {
      assert u.log[prev - 1] == u.log[..prev][prev - 1] == s.log[prev - 1];
    }
  }

  lemma LetterHead(s: Server, p: Peer)
    requires 1 <= p.nextIdx
    ensures var ae := AppendFor(s, p);
      ae.AppendEntries? && ae.prevIdx == p.nextIdx - 1
      && (HasEntry(s, p.nextIdx - 1) ==> ae.prevTerm == s.log[p.nextIdx - 2].term)
  {
  }

  lemma LowerNext(s: Server, p: Peer, r: Message, base: nat)
    requires r.AppendReply? && 1 <= p.nextIdx <= |s.log| + 1 && p.matchIdx == 0 && p.matchIdx != p.nextIdx - 1
    requires base < p.nextIdx - 1 && base <= r.currentIdx
    ensures var q := BackOff(s, p, r); q.id == p.id && base < q.nextIdx < p.nextIdx && q.matchIdx == 0 && q.nextIdx <= r.currentIdx + 1
  {
  }

  lemma RefusedLeader(s: Server, id: NodeId, r: Message, ready: bool, rnd: nat, base: nat)
    requires Tracks(s, id) && r.AppendReply? && !r.success && r.term == s.term && AppendReplyAsserts(s, id, r)
    requires Find(s.peers, id).value.matchIdx != Find(s.peers, id).value.nextIdx - 1
    requires base < Find(s.peers, id).value.nextIdx - 1 && base <= r.currentIdx
    ensures var s' := RecvAppendReply(s, id, r, ready, rnd).server;
      && s' == s.(peers := s'.peers) && Tracks(s', id)
      && base < Find(s'.peers, id).value.nextIdx < Find(s.peers, id).value.nextIdx
      && Find(s'.peers, id).value.nextIdx <= r.currentIdx + 1
      && Find(s'.peers, id).value.matchIdx == Find(s.peers, id).value.matchIdx
  {
    var p := Find(s.peers, id).value;
    hide RecvAppendReply, AppendReplyAsserts, Replace, DistinctIds, BackOff;
    FailureReply(s, id, r, ready, rnd);
    LowerNext(s, p, r, base);
    FindReplacement(s.peers, p, BackOff(s, p, r));
  }

  /** A pair whose peer has a shorter log of the same kind. */
  lemma StaysRepairable(s: Server, u: Server, s': Server, u': Server, base: nat, p: Peer)
    requires Repairable(s, u, base) && s'.log == s.log && s'.term == s.term && s'.gone == s.gone && Tracks(s', u'.id)
    requires u'.term == s.term && u'.log <= u.log && u'.commit == u.commit && u'.gone == u.gone && WindowOK(u')
    requires Shared(u'.log, u.log, u.commit) && Find(s'.peers, u'.id) == Some(p)
    requires Shared(u'.log, s.log, p.matchIdx) && Shared(u'.log, s.log, base) && base < p.nextIdx
    ensures Repairable(s', u', base)
  {
    PrefixMatches(u'.log, u.log, s.log);
    hide LogsMatch, DistinctIds, NextPositive;
  }

  /** A refused exchange: the next index is lower, at most one beyond the peer's log, and the pair is
      still repairable. */
  lemma RefusedExchange(s: Server, u: Server, base: nat, pop: int, ready: bool, rnd: nat, s': Server, u': Server)
    requires Repairable(s, u, base) && Exchange(s, u, pop, ready, rnd, s', u') && !Heard(s, u, pop, rnd).reply.success
    ensures Repairable(s', u', base) && s' == s.(peers := s'.peers) && u'.id == u.id && u'.log <= u.log
    ensures Find(s'.peers, u.id).value.nextIdx < Find(s.peers, u.id).value.nextIdx
    ensures Find(s'.peers, u.id).value.nextIdx <= |u'.log| + 1
  {
    hide Heard, RecvAppendReply, AppendReplyAsserts, LogsMatch, DistinctIds, NextPositive, Trails, GoesIn;
    HeardAnswer(s, u, base, pop, rnd);
    RefusedLeader(s, u.id, Heard(s, u, pop, rnd).reply, ready, rnd, base);
    StaysRepairable(s, u, s', u', base, Find(s'.peers, u.id).value);
  }

  lemma FindReplacement(ps: seq<Peer>, p: Peer, q: Peer)
    requires DistinctIds(ps) && Find(ps, q.id) == Some(p)
    ensures DistinctIds(Replace(ps, q)) && Find(Replace(ps, q), q.id) == Some(q)
    ensures NextPositive(ps) && 1 <= q.nextIdx ==> NextPositive(Replace(ps, q))
  {
    ReplaceKeepsIds(ps, q);
    var i :| 0 <= i < |ps| && ps[i] == p;
    FindIs(Replace(ps, q), i);
  }

  /** A success reply moves the peer's progress to the index it names, or is no news. */
  lemma AcknowledgedLeader(s: Server, id: NodeId, r: Message, ready: bool, rnd: nat)
    requires Tracks(s, id) && r.AppendReply? && r.success && r.term == s.term && AppendReplyAsserts(s, id, r)
    ensures var s' := RecvAppendReply(s, id, r, ready, rnd).server;
      var p := Find(s.peers, id).value;
      && s'.log == s.log && s'.term == s.term && s'.gone == s.gone && s'.id == s.id && Tracks(s', id)
      && var p' := Find(s'.peers, id).value;
      if p.matchIdx < r.currentIdx then p'.matchIdx == r.currentIdx && p'.nextIdx == r.currentIdx + 1
      else p' == p
  {
    var p := Find(s.peers, id).value;
    if p.matchIdx < r.currentIdx {
      var q := Acknowledged(s, p, r, ready);
      AcknowledgedPeer(s, p, r, ready);
      FindReplacement(s.peers, p, q);
      CommitAdvances(s.(peers := Replace(s.peers, q)), r.currentIdx);
      hide DistinctIds, Replace, NextPositive, AdvanceCommit, Acknowledged, Find;
    }
  }

  lemma AcknowledgedPeer(s: Server, p: Peer, r: Message, ready: bool)
    requires r.AppendReply?
    ensures var q := Acknowledged(s, p, r, ready); q.id == p.id && q.matchIdx == r.currentIdx && q.nextIdx == r.currentIdx + 1
  {
  }

  lemma CommitAdvances(s: Server, point: nat)
    requires 1 <= point <= |s.log| && s.commit <= |s.log|
    ensures var s' := AdvanceCommit(s, point); s' == s.(commit := s'.commit) && s'.commit <= |s.log|
  {
    hide VotingIds, Holders;
  }

  /** An accepted exchange: the peer is repaired. */
  lemma AcceptedExchange(s: Server, u: Server, base: nat, pop: int, ready: bool, rnd: nat, s': Server, u': Server)
    requires Repairable(s, u, base) && Exchange(s, u, pop, ready, rnd, s', u')
    requires Heard(s, u, pop, rnd).reply.success && GoesIn(s, u, pop)
    ensures Repaired(s, u, s', u')
  {
    hide Heard, RecvAppendReply, AppendReplyAsserts, Trails, DistinctIds, NextPositive, GoesIn;
    HeardAnswer(s, u, base, pop, rnd);
    AcknowledgedLeader(s, u.id, Heard(s, u, pop, rnd).reply, ready, rnd);
  }

  /** An exchange in which `log_pop` refuses at a conflict: nothing is gained. */
  lemma StuckExchange(s: Server, u: Server, base: nat, pop: int, ready: bool, rnd: nat, s': Server, u': Server)
    requires Repairable(s, u, base) && Exchange(s, u, pop, ready, rnd, s', u')
    requires Heard(s, u, pop, rnd).reply.success && !GoesIn(s, u, pop)
    ensures Repairable(s', u', base) && s'.log == s.log && u'.log == u.log && u'.id == u.id
  {
    hide Heard, RecvAppendReply, AppendReplyAsserts, DistinctIds, NextPositive, GoesIn, LogsMatch;
    HeardAnswer(s, u, base, pop, rnd);
    AcknowledgedLeader(s, u.id, Heard(s, u, pop, rnd).reply, ready, rnd);
    StaysRepairable(s, u, s', u', base, Find(s'.peers, u.id).value);
  }

  lemma ExchangeRuns(s: Server, u: Server, base: nat, pop: int, ready: bool, rnd: nat) returns (s': Server, u': Server)
    requires Repairable(s, u, base)
    ensures Exchange(s, u, pop, ready, rnd, s', u') && Heard(s, u, pop, rnd).reply.AppendReply?
  {
    HeardAnswer(s, u, base, pop, rnd);
    HeardAsserts(s, u, base, pop, rnd);
    hide Heard, Trails, AppendReplyAsserts;
    var a := Heard(s, u, pop, rnd);
    s', u' := RecvAppendReply(s, u.id, a.reply, ready, rnd).server, a.server;
  }

  lemma HeardAsserts(s: Server, u: Server, base: nat, pop: int, rnd: nat)
    requires Repairable(s, u, base) && Heard(s, u, pop, rnd).reply.AppendReply?
    ensures AppendReplyAsserts(s, u.id, Heard(s, u, pop, rnd).reply)
  {
    hide Heard, Trails, DistinctIds, NextPositive, GoesIn;
    HeardAnswer(s, u, base, pop, rnd);
  }

  /** Repair ends, if nothing conflicts or `log_pop` accepts: after at most as many exchanges as the
      peer's next index, and at most two more than its log is long, the peer's log extends the leader's,
      its commit index has caught up, and the leader's match index is the length of its log. */
  lemma {:induction false} RepairEnds(s: Server, u: Server, base: nat, pop: int, ready: bool, rnd: nat)
    returns (trace: seq<(Server, Server)>)
    requires Repairable(s, u, base) && GoesIn(s, u, pop)
    ensures 2 <= |trace| <= Min(Find(s.peers, u.id).value.nextIdx, |u.log| + 2) + 1
    ensures trace[0] == (s, u) && Exchanges(trace, pop, ready, rnd)
    ensures Repaired(s, u, trace[|trace| - 1].0, trace[|trace| - 1].1)
    decreases Find(s.peers, u.id).value.nextIdx
  {
    hide Exchange, Heard, Trails, DistinctIds, NextPositive, Exchanges;
    var s', u' := ExchangeRuns(s, u, base, pop, ready, rnd);
    if Heard(s, u, pop, rnd).reply.success {
      AcceptedExchange(s, u, base, pop, ready, rnd, s', u');
      trace := [(s, u), (s', u')];
      OneExchange(s, u, pop, ready, rnd, s', u');
    } else {
      RefusedExchange(s, u, base, pop, ready, rnd, s', u');
      ShorterGoesIn(s, u, s', u', pop);
      var rest := RepairEnds(s', u', base, pop, ready, rnd);
      trace := [(s, u)] + rest;
      ExchangeFirst(s, u, pop, ready, rnd, rest);
    }
  }

  lemma ShorterGoesIn(s: Server, u: Server, s': Server, u': Server, pop: int)
    requires GoesIn(s, u, pop) && s'.log == s.log && u'.log <= u.log
    ensures GoesIn(s', u', pop)
  {
  }

  lemma OneExchange(s: Server, u: Server, pop: int, ready: bool, rnd: nat, s': Server, u': Server)
    requires Exchange(s, u, pop, ready, rnd, s', u')
    ensures Exchanges([(s, u), (s', u')], pop, ready, rnd)
  {
    hide Exchange;
  }

  lemma ExchangeFirst(s: Server, u: Server, pop: int, ready: bool, rnd: nat, rest: seq<(Server, Server)>)
    requires rest != [] && Exchange(s, u, pop, ready, rnd, rest[0].0, rest[0].1) && Exchanges(rest, pop, ready, rnd)
    ensures Exchanges([(s, u)] + rest, pop, ready, rnd)
  {
    hide Exchange;
    var trace := [(s, u)] + rest;
    forall k | 0 <= k < |trace| - 1
      ensures Exchange(trace[k].0, trace[k].1, pop, ready, rnd, trace[k + 1].0, trace[k + 1].1)
    {
      assert 0 < k ==> trace[k] == rest[k - 1] && trace[k + 1] == rest[k - 1 + 1];
    }
  }

  /** Exchanges at a conflict that `log_pop` refuses to resolve leave both logs as they are, however many. */
  lemma {:induction false} StuckForGood(trace: seq<(Server, Server)>, base: nat, pop: int, ready: bool, rnd: nat, k: nat)
    requires k < |trace| && Exchanges(trace, pop, ready, rnd)
    requires Repairable(trace[0].0, trace[0].1, base) && !GoesIn(trace[0].0, trace[0].1, pop)
    ensures Repairable(trace[k].0, trace[k].1, base)
    ensures trace[k].0.log == trace[0].0.log && trace[k].1.log == trace[0].1.log
    decreases k
  {
    if 0 < k {
      StuckForGood(trace, base, pop, ready, rnd, k - 1);
      assert Exchange(trace[k - 1].0, trace[k - 1].1, pop, ready, rnd, trace[k - 1 + 1].0, trace[k - 1 + 1].1);
      hide Exchanges, Exchange, Heard, Repairable;
      StuckStep(trace[k - 1].0, trace[k - 1].1, base, pop, ready, rnd, trace[k].0, trace[k].1);
    }
  }

  lemma StuckStep(s: Server, u: Server, base: nat, pop: int, ready: bool, rnd: nat, s': Server, u': Server)
    requires Repairable(s, u, base) && Exchange(s, u, pop, ready, rnd, s', u') && !GoesIn(s, u, pop)
    ensures Repairable(s', u', base) && s'.log == s.log && u'.log == u.log
  {
    hide Heard, RecvAppendReply, AppendReplyAsserts, Trails, Tracks;
    HeardAnswer(s, u, base, pop, rnd);
    if Heard(s, u, pop, rnd).reply.success {
      StuckExchange(s, u, base, pop, ready, rnd, s', u');
    } else {
      RefusedExchange(s, u, base, pop, ready, rnd, s', u');
    }
  }

  /** Some number of exchanges repairs the peer. */
  ghost predicate CanRepair(s: Server, u: Server, pop: int, ready: bool, rnd: nat) {
    exists trace :: Repairs(trace, s, u, pop, ready, rnd)
  }

  ghost predicate Repairs(trace: seq<(Server, Server)>, s: Server, u: Server, pop: int, ready: bool, rnd: nat) {
    && trace != [] && trace[0] == (s, u) && Exchanges(trace, pop, ready, rnd)
    && Repaired(s, u, trace[|trace| - 1].0, trace[|trace| - 1].1)
  }

  /** Exchanges repair the peer if and only if `log_pop` accepts or no index of both logs holds
      different terms. */
  lemma RepairsExactly(s: Server, u: Server, base: nat, pop: int, ready: bool, rnd: nat)
    requires Repairable(s, u, base)
    ensures CanRepair(s, u, pop, ready, rnd) <==> pop == 0 || !Conflict(u.log, s.log)
  {
    if GoesIn(s, u, pop) {
      var trace := RepairEnds(s, u, base, pop, ready, rnd);
      assert Repairs(trace, s, u, pop, ready, rnd);
    } else if CanRepair(s, u, pop, ready, rnd) {
      var trace :| Repairs(trace, s, u, pop, ready, rnd);
      hide Repairable, Exchanges;
      StuckForGood(trace, base, pop, ready, rnd, |trace| - 1);
    }
  }

  // ----- Winning an election -----

  /** A voter in an earlier term whose log is no more up to date than the candidate's. */
  predicate Willing(v: Server, c: Server) {
    SelfVoting(v) && v.term < c.term && UpToDate(|c.log|, TailTerm(c), v.log)
  }

  function Polled(c: Server, v: Server, rnd: nat): (a: Answer)
    ensures a.reply.VoteReply?
  {
    RecvRequestVote(v, c.id, VoteRequest(c), rnd)
  }

  lemma WillingGrants(c: Server, v: Server, rnd: nat)
    requires Willing(v, c)
    ensures var a := Polled(c, v, rnd);
      && a.reply == VoteReply(c.term, Granted) && a.server.votedFor == Some(c.id) && a.server.term == c.term
  {
  }

  lemma SupportCounts(c: Server, id: NodeId)
    requires DistinctIds(c.peers) && NextPositive(c.peers) && id in VotingIds(c.peers) && id != c.id
    ensures var c1 := RecordSupport(c, id);
      && DistinctIds(c1.peers) && NextPositive(c1.peers)
      && VotingIds(c1.peers) == VotingIds(c.peers)
      && Supporters(c1.peers, c.id) == Supporters(c.peers, c.id) + {id}
  {
    var p := Find(c.peers, id).value;
    var q := p.(votedForMe := true);
    var at :| 0 <= at < |c.peers| && c.peers[at] == p;
    var ps := Replace(c.peers, q);
    ReplaceKeepsIds(c.peers, q);
    hide DistinctIds, Ids, VotingIds, Supporters;
    OneReplaced(c.peers, at, q);
    assert p.voting && p.active by { VoterFound(c.peers, at); }
    SameVoting(c.peers, at, q);
    OneMoreSupporter(c.peers, at, q, c.id);
  }

  lemma OneReplaced(ps: seq<Peer>, at: nat, q: Peer)
    requires DistinctIds(ps) && at < |ps| && ps[at].id == q.id
    ensures Replace(ps, q) == ps[at := q]
    ensures NextPositive(ps) && 1 <= q.nextIdx ==> NextPositive(ps[at := q])
  {
  }

  lemma VoterFound(ps: seq<Peer>, at: nat)
    requires DistinctIds(ps) && at < |ps| && ps[at].id in VotingIds(ps)
    ensures ps[at].voting && ps[at].active
  {
  }

  lemma SameVoting(ps: seq<Peer>, at: nat, q: Peer)
    requires at < |ps| && q.id == ps[at].id && q.voting && q.active && ps[at].voting && ps[at].active
    ensures VotingIds(ps[at := q]) == VotingIds(ps)
  {
    var rs := ps[at := q];
    assert ps[at] in ps && rs[at] in rs;
    forall x | x in VotingIds(ps) ensures x in VotingIds(rs) {
      var i :| 0 <= i < |ps| && ps[i].id == x && ps[i].voting && ps[i].active;
      assert rs[i] in rs;
    }
  }

  lemma OneMoreSupporter(ps: seq<Peer>, at: nat, q: Peer, self: NodeId)
    requires at < |ps| && q == ps[at].(votedForMe := true) && q.voting && q.active && q.id != self
    ensures Supporters(ps[at := q], self) == Supporters(ps, self) + {q.id}
  {
    var rs := ps[at := q];
    assert rs[at] in rs;
    forall x | x in Supporters(ps, self) ensures x in Supporters(rs, self) {
      var i :| 0 <= i < |ps| && ps[i].id == x && ps[i].voting && ps[i].active && ps[i].votedForMe;
      assert rs[i] in rs;
    }
  }

  lemma GrantHeard(c: Server, from: NodeId, r: Message, rnd: nat)
    requires NextPositive(c.peers) && c.role == Candidate && r == VoteReply(c.term, Granted)
    ensures var c1 := RecordSupport(c, from);
      && c1 == c.(peers := c1.peers) && NextPositive(c1.peers)
      && RecvVoteReply(c, from, r, rnd).server ==
           if VotesIsMajority(|VotingIds(c1.peers)|, VotesForMe(c1)) then BecomeLeader(c1).server else c1
  {
    var f := Find(c.peers, from);
    assert f.Some? ==> 1 <= f.value.nextIdx;
  }

  lemma WonSoFar(voting: set<NodeId>, self: NodeId, supporters: set<NodeId>, rest: set<NodeId>)
    requires self in voting && supporters <= voting - {self}
    requires |voting| / 2 <= |supporters + rest|
    ensures |supporters| + 1 <= |voting|
    ensures rest == {} ==> VotesIsMajority(|voting|, |supporters| + 1)
  {
    SubsetSize(supporters, voting - {self});
    assert supporters + {} == supporters;
  }

  lemma SupportersVote(c: Server)
    ensures Supporters(c.peers, c.id) <= VotingIds(c.peers) - {c.id}
  {
  }

  /** What the candidate makes of a willing voter's answer. */
  lemma VoterAnswers(c: Server, v: Server, rnd: nat)
    requires c.role == Candidate && c.votedFor == Some(c.id) && Willing(v, c)
    requires DistinctIds(c.peers) && NextPositive(c.peers) && v.id in VotingIds(c.peers) && v.id != c.id
    ensures var c' := RecvVoteReply(c, v.id, Polled(c, v, rnd).reply, rnd).server;
      var c1 := RecordSupport(c, v.id);
      && c1 == c.(peers := c1.peers) && NextPositive(c1.peers) && DistinctIds(c1.peers)
      && VotingIds(c1.peers) == VotingIds(c.peers)
      && Supporters(c1.peers, c.id) == Supporters(c.peers, c.id) + {v.id}
      && Supporters(c1.peers, c.id) <= VotingIds(c1.peers) - {c.id}
      && c' == if VotesIsMajority(|VotingIds(c1.peers)|, |Supporters(c1.peers, c.id)| + 1) then BecomeLeader(c1).server else c1
  {
    hide Willing, DistinctIds, RecordSupport, RecvVoteReply, Polled, NextPositive, Supporters, VotingIds, BecomeLeader, VotesIsMajority;
    WillingGrants(c, v, rnd);
    SupportCounts(c, v.id);
    GrantHeard(c, v.id, VoteReply(c.term, Granted), rnd);
    SupportersVote(RecordSupport(c, v.id));
  }

  lemma LeaderState(c: Server)
    requires NextPositive(c.peers)
    ensures var c' := BecomeLeader(c).server;
      c'.role == Leader && c'.term == c.term && c'.id == c.id && c'.log == c.log && c'.leader == Some(c.id)
  {
  }
}
