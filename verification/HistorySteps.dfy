/** How the history grows: a vote, an election, an entry appended by a leader, an
    acknowledgement. Each keeps the records consistent. */
module HistorySteps {
  import opened RaftTypes
  import opened Handlers
  import opened Quorum
  import opened History

  ghost predicate Grows(h: History, h': History) {
    && (forall t: nat :: t in h.elections ==> t in h'.elections && h'.elections[t] == h.elections[t])
    && (forall t: nat :: t in h.logs ==> t in h'.logs && h.logs[t] <= h'.logs[t])
    && (forall v :: v in h.votes ==> v in h'.votes && h'.votes[v] == h.votes[v])
    && (forall a :: a in h.acks ==> a in h'.acks && h.acks[a] <= h'.acks[a])
  }

  lemma GrowsReflexive(h: History)
    ensures Grows(h, h)
  {
  }

  lemma GrowsTransitive(a: History, b: History, c: History)
    requires Grows(a, b) && Grows(b, c)
    ensures Grows(a, c)
  {
  }

  lemma LogOKGrows(h: History, h': History, log: seq<Entry>)
    requires LogOK(h, log) && Grows(h, h')
    ensures LogOK(h', log)
  {
    forall i | 0 <= i < |log| ensures EntryOK(h', log, i) {
      assert EntryOK(h, log, i);
      var t := log[i].term;
      assert h.logs[t] == h'.logs[t][..|h.logs[t]|];
      assert h.logs[t][..i + 1] == h'.logs[t][..i + 1];
    }
  }

  lemma CommittedGrows(m: set<NodeId>, h: History, h': History, t: nat, k: nat)
    requires Committed(m, h, t, k) && Grows(h, h')
    ensures Committed(m, h', t, k) && h'.logs[t][..k] == h.logs[t][..k]
  {
    assert h.logs[t] == h'.logs[t][..|h.logs[t]|];
    LargerIsMajority(m, AckSet(m, h, t, k), AckSet(m, h', t, k));
  }

  lemma SettledGrows(m: set<NodeId>, h: History, h': History, t: nat, t': nat, p: seq<Entry>)
    requires Settled(m, h, t, p) && Grows(h, h') && t <= t'
    ensures Settled(m, h', t', p)
  {
    if p != [] {
      var t0: nat, k0: nat :| SettledBy(m, h, t, p, t0, k0);
      CommittedGrows(m, h, h', t0, k0);
      assert SettledBy(m, h', t', p, t0, k0);
    }
  }

  /** What a node's log keeps, it still keeps when the history grows elsewhere and the range of
      terms widens: more elections only strengthen the hypothesis. */
  lemma KeepsAckedGrows(m: set<NodeId>, h: History, h': History, n: NodeId, hi: nat, hi': nat, log: seq<Entry>)
    requires HistoryOK(m, h) && Grows(h, h') && KeepsAcked(h, n, hi, log)
    requires forall t: nat :: (t, n) in h'.acks && t < hi' ==> t < hi && (t, n) in h.acks && h'.acks[(t, n)] == h.acks[(t, n)]
    requires hi <= hi'
    ensures KeepsAcked(h', n, hi', log)
  {
    forall t: nat, k: nat |
      (t, n) in h'.acks && t < hi' && k <= h'.acks[(t, n)] && t in h'.logs && k <= |h'.logs[t]|
      ensures Keeps(h', t, k, hi', log)
    {
      assert AckOK(m, h, t, n);
      assert h.logs[t] == h'.logs[t][..|h.logs[t]|];
      assert h'.logs[t][..k] == h.logs[t][..k];
      assert Keeps(h, t, k, hi, log);
    }
  }

  /** The records that do not change stay consistent. */
  lemma RecordsGrow(m: set<NodeId>, h: History, h': History)
    requires HistoryOK(m, h) && Grows(h, h')
    ensures forall t: nat, n: NodeId :: (t, n) in h.votes ==> VoteOK(m, h', t, n)
    ensures forall t: nat :: t in h.elections && h'.logs[t] == h.logs[t] ==> ElectionOK(m, h', t)
  {
    forall t: nat, n: NodeId | (t, n) in h.votes ensures VoteOK(m, h', t, n) {
      assert VoteOK(m, h, t, n);
      LogOKGrows(h, h', h.votes[(t, n)].log);
    }
    forall t: nat | t in h.elections && h'.logs[t] == h.logs[t] ensures ElectionOK(m, h', t) {
      assert ElectionOK(m, h, t);
      LogOKGrows(h, h', h.logs[t]);
    }
  }

  /** Votes that count keep what their voters acknowledged, if no voter acknowledged
      anything new in a term before its vote. */
  lemma VotesKeepAcked(m: set<NodeId>, h: History, h': History, t: nat, n: NodeId)
    requires HistoryOK(m, h) && Grows(h, h')
    requires Counts(h, t, n) && (t, n) in h'.votes
    requires forall u: nat :: (u, n) in h'.acks && u < t ==> (u, n) in h.acks && h'.acks[(u, n)] == h.acks[(u, n)]
    ensures KeepsAcked(h', n, t, h'.votes[(t, n)].log)
  {
    KeepsAckedGrows(m, h, h', n, t, t, h.votes[(t, n)].log);
  }

  /** Acknowledgements change at one term and node only, and that node has not voted later. */
  lemma AcksGrow(m: set<NodeId>, h: History, h': History, t: nat, n: NodeId)
    requires HistoryOK(m, h) && Grows(h, h')
    requires forall u: nat, v: NodeId :: Counts(h', u, v) ==> Counts(h, u, v)
    requires forall a :: a in h'.acks && a != (t, n) ==> a in h.acks && h'.acks[a] == h.acks[a]
    requires forall u: nat :: (u, n) in h.votes ==> u <= t
    requires (t, n) in h'.acks ==> AckOK(m, h', t, n)
    ensures forall u: nat, v: NodeId :: (u, v) in h'.acks ==> AckOK(m, h', u, v)
    ensures forall u: nat, v: NodeId :: Counts(h', u, v) ==> KeepsAcked(h', v, u, h'.votes[(u, v)].log)
  {
    forall u: nat, v: NodeId | (u, v) in h'.acks ensures AckOK(m, h', u, v) {
      if (u, v) != (t, n) {
        assert (u, v) in h.acks && h'.acks[(u, v)] == h.acks[(u, v)];
        assert AckOK(m, h, u, v);
      }
    }
    forall u: nat, v: NodeId | Counts(h', u, v) ensures KeepsAcked(h', v, u, h'.votes[(u, v)].log) {
      assert Counts(h, u, v);
      VotesKeepAcked(m, h, h', u, v);
    }
  }

  // ----- A vote -----

  ghost function RecordVote(h: History, t: nat, n: NodeId, candidate: NodeId, log: seq<Entry>): History {
    h.(votes := h.votes[(t, n) := Vote(candidate, log)])
  }

  lemma RecordVoteOK(m: set<NodeId>, h: History, t: nat, n: NodeId, candidate: NodeId, log: seq<Entry>)
    requires HistoryOK(m, h) && (t, n) !in h.votes
    requires n in m && LogOK(h, log)
    requires n == candidate ==> TermsBelow(log, t)
    requires n != candidate ==>
      && (t, candidate) in h.votes && h.votes[(t, candidate)].candidate == candidate
      && UpToDate(|h.votes[(t, candidate)].log|, LastTerm(h.votes[(t, candidate)].log), log)
    requires KeepsAcked(h, n, t + 1, log)
    ensures HistoryOK(m, RecordVote(h, t, n, candidate, log))
    ensures Grows(h, RecordVote(h, t, n, candidate, log))
  {
    var h' := RecordVote(h, t, n, candidate, log);
    RecordsGrow(m, h, h');
    LogOKGrows(h, h', log);
    if n != candidate { assert VoteOK(m, h, t, candidate); }
    forall u: nat, v: NodeId | (u, v) in h'.votes ensures VoteOK(m, h', u, v) {
      if (u, v) == (t, n) {
      } else {
        assert (u, v) in h.votes;
      }
    }
    forall u: nat, v: NodeId | (u, v) in h'.acks ensures AckOK(m, h', u, v) {
      assert AckOK(m, h, u, v);
    }
    forall u: nat, v: NodeId | Counts(h', u, v) ensures KeepsAcked(h', v, u, h'.votes[(u, v)].log) {
      if (u, v) == (t, n) {
        assert t !in h.elections by {
          assert t in h.elections ==> ElectionOK(m, h, t);
        }
        OpenVoteKeeps(h, h', n, t, log);
      } else {
        assert Counts(h, u, v);
        VotesKeepAcked(m, h, h', u, v);
      }
    }
  }

  /** With no election in term `t`, the range up to and including `t` is the range before `t`. */
  lemma OpenVoteKeeps(h: History, h': History, n: NodeId, t: nat, log: seq<Entry>)
    requires KeepsAcked(h, n, t + 1, log) && t !in h.elections
    requires h'.elections == h.elections && h'.logs == h.logs && h'.acks == h.acks
    ensures KeepsAcked(h', n, t, log)
  {
    forall u: nat, k: nat |
      (u, n) in h'.acks && u < t && k <= h'.acks[(u, n)] && u in h'.logs && k <= |h'.logs[u]|
      ensures Keeps(h', u, k, t, log)
    {
      assert Keeps(h, u, k, t + 1, log);
      if ElectedHave(h', u, t, h'.logs[u][..k]) {
        forall w | w in h.elections && u < w < t + 1 ensures h.logs[u][..k] <= h.elections[w].log {
          assert w != t;
        }
        assert ElectedHave(h, u, t + 1, h.logs[u][..k]);
      }
    }
  }

  // ----- An election -----

  ghost function RecordElection(h: History, t: nat, n: NodeId, log: seq<Entry>, quorum: set<NodeId>): History {
    h.(elections := h.elections[t := Election(n, log, quorum)],
       logs := h.logs[t := log],
       acks := h.acks[(t, n) := |log|])
  }

  lemma FreshElectionOK(m: set<NodeId>, h: History, t: nat, n: NodeId, log: seq<Entry>, quorum: set<NodeId>)
    requires HistoryOK(m, h) && t !in h.elections
    requires n in m && Majority(m, quorum)
    requires (t, n) in h.votes && h.votes[(t, n)] == Vote(n, log)
    requires forall v :: v in quorum ==> (t, v) in h.votes && h.votes[(t, v)].candidate == n
    ensures Grows(h, RecordElection(h, t, n, log, quorum))
    ensures ElectionOK(m, RecordElection(h, t, n, log, quorum), t)
  {
    var h' := RecordElection(h, t, n, log, quorum);
    assert (t, n) in h.acks ==> AckOK(m, h, t, n);
    assert VoteOK(m, h, t, n);
    LogOKGrows(h, h', log);
  }

  lemma RecordElectionOK(m: set<NodeId>, h: History, t: nat, n: NodeId, log: seq<Entry>, quorum: set<NodeId>)
    requires HistoryOK(m, h) && t !in h.elections
    requires n in m && Majority(m, quorum)
    requires (t, n) in h.votes && h.votes[(t, n)] == Vote(n, log)
    requires forall v :: v in quorum ==> (t, v) in h.votes && h.votes[(t, v)].candidate == n
    requires forall u: nat :: (u, n) in h.votes ==> u <= t
    ensures HistoryOK(m, RecordElection(h, t, n, log, quorum))
    ensures Grows(h, RecordElection(h, t, n, log, quorum))
  {
    hide *;
    var h' := RecordElection(h, t, n, log, quorum);
    FreshElectionOK(m, h, t, n, log, quorum);
    RecordsGrow(m, h, h');
    ElectionRecorded(m, h, t, n, log, quorum);
    AckOfOwnLog(m, h', t, n);
    AcksGrow(m, h, h', t, n);
    forall u: nat | u in h'.elections ensures u in h'.logs && ElectionOK(m, h', u) {
      assert u != t ==> u in h.elections && h'.logs[u] == h.logs[u];
    }
    Consistent(m, h');
  }

  lemma ElectionRecorded(m: set<NodeId>, h: History, t: nat, n: NodeId, log: seq<Entry>, quorum: set<NodeId>)
    requires HistoryOK(m, h) && t !in h.elections
    ensures var h' := RecordElection(h, t, n, log, quorum);
      && h'.votes == h.votes && h'.logs.Keys == h'.elections.Keys
      && (t, n) in h'.acks && t in h'.logs && h'.acks[(t, n)] == |h'.logs[t]|
      && (forall u: nat :: u in h'.elections && u != t ==> u in h.elections && u in h.logs && h'.logs[u] == h.logs[u])
      && (forall a :: a in h'.acks && a != (t, n) ==> a in h.acks && h'.acks[a] == h.acks[a])
      && (forall u: nat, v: NodeId :: Counts(h', u, v) ==> Counts(h, u, v))
  {
    hide ElectionOK, VoteOK, AckOK, KeepsAcked;
  }

  lemma Consistent(m: set<NodeId>, h: History)
    requires h.logs.Keys == h.elections.Keys
    requires forall t: nat :: t in h.elections ==> ElectionOK(m, h, t)
    requires forall t: nat, n: NodeId :: (t, n) in h.votes ==> VoteOK(m, h, t, n)
    requires forall t: nat, n: NodeId :: (t, n) in h.acks ==> AckOK(m, h, t, n)
    requires forall t: nat, n: NodeId :: Counts(h, t, n) ==> KeepsAcked(h, n, t, h.votes[(t, n)].log)
    ensures HistoryOK(m, h)
  {
    hide ElectionOK, VoteOK, AckOK, KeepsAcked;
  }

  lemma AckOfOwnLog(m: set<NodeId>, h: History, t: nat, n: NodeId)
    requires (t, n) in h.acks && n in m && t in h.logs && h.acks[(t, n)] <= |h.logs[t]|
    ensures AckOK(m, h, t, n)
  {
  }

  // ----- An entry appended by a leader -----

  ghost function RecordAppend(h: History, t: nat, n: NodeId, e: Entry): History
    requires t in h.logs
  {
    h.(logs := h.logs[t := h.logs[t] + [e]], acks := h.acks[(t, n) := |h.logs[t]| + 1])
  }

  lemma RecordAppendOK(m: set<NodeId>, h: History, t: nat, n: NodeId, e: Entry)
    requires HistoryOK(m, h) && t in h.elections && n == h.elections[t].leader && e.term == t
    requires forall u: nat :: (u, n) in h.votes ==> u <= t
    ensures t in h.logs
    ensures HistoryOK(m, RecordAppend(h, t, n, e))
    ensures Grows(h, RecordAppend(h, t, n, e))
  {
    hide *;
    AppendRecorded(m, h, t, n, e);
    var h' := RecordAppend(h, t, n, e);
    RecordsGrow(m, h, h');
    LongerElectionOK(m, h, t, n, e);
    AckOfOwnLog(m, h', t, n);
    AcksGrow(m, h, h', t, n);
    forall u: nat | u in h'.elections ensures u in h'.logs && ElectionOK(m, h', u) {
      assert u != t ==> h'.logs[u] == h.logs[u];
    }
    Consistent(m, h');
  }

  lemma AppendRecorded(m: set<NodeId>, h: History, t: nat, n: NodeId, e: Entry)
    requires HistoryOK(m, h) && t in h.elections && n == h.elections[t].leader
    ensures t in h.logs && n in m && ElectionOK(m, h, t)
    ensures var h' := RecordAppend(h, t, n, e);
      && Grows(h, h') && h'.votes == h.votes && h'.elections == h.elections && h'.logs.Keys == h'.elections.Keys
      && (t, n) in h'.acks && t in h'.logs && h'.logs[t] == h.logs[t] + [e] && h'.acks[(t, n)] == |h'.logs[t]|
      && (forall u: nat :: u in h'.elections && u != t ==> u in h.logs && h'.logs[u] == h.logs[u])
      && (forall a :: a in h'.acks && a != (t, n) ==> a in h.acks && h'.acks[a] == h.acks[a])
      && (forall u: nat, v: NodeId :: Counts(h', u, v) ==> Counts(h, u, v))
  {
    assert ElectionOK(m, h, t);
    assert (t, n) in h.acks && AckOK(m, h, t, n);
    hide VoteOK, KeepsAcked, LogOK;
  }

  lemma LongerElectionOK(m: set<NodeId>, h: History, t: nat, n: NodeId, e: Entry)
    requires t in h.elections && t in h.logs && ElectionOK(m, h, t) && e.term == t && n == h.elections[t].leader
    requires Grows(h, RecordAppend(h, t, n, e))
    ensures ElectionOK(m, RecordAppend(h, t, n, e), t)
  {
    var h' := RecordAppend(h, t, n, e);
    LogOKGrows(h, h', h.logs[t]);
    hide Grows;
    var log := h'.logs[t];
    forall i | 0 <= i < |log| ensures EntryOK(h', log, i) {
      if i < |h.logs[t]| {
        assert EntryOK(h', h.logs[t], i);
        assert log[..i + 1] == h.logs[t][..i + 1];
      }
    }
  }

  // ----- An acknowledgement -----

  ghost function RecordAck(h: History, t: nat, n: NodeId, k: nat): History {
    if (t, n) in h.acks && k <= h.acks[(t, n)] then h else h.(acks := h.acks[(t, n) := k])
  }

  lemma RecordAckOK(m: set<NodeId>, h: History, t: nat, n: NodeId, k: nat)
    requires HistoryOK(m, h) && t in h.elections && n in m
    requires t in h.logs && k <= |h.logs[t]|
    requires forall u: nat :: (u, n) in h.votes ==> u <= t
    ensures HistoryOK(m, RecordAck(h, t, n, k))
    ensures Grows(h, RecordAck(h, t, n, k))
  {
    var h' := RecordAck(h, t, n, k);
    AckGrows(h, t, n, k);
    AckOfOwnLog(m, h', t, n) by { assert (t, n) in h.acks ==> AckOK(m, h, t, n); }
    hide ElectionOK, VoteOK, AckOK, KeepsAcked, Grows;
    RecordsGrow(m, h, h');
    AcksGrow(m, h, h', t, n);
  }

  lemma AckGrows(h: History, t: nat, n: NodeId, k: nat)
    ensures Grows(h, RecordAck(h, t, n, k))
  {
  }
}
