/** What happened in a run so far, term by term: who was elected with which log and by whom,
    how the leader's log grew, who voted with which log, and who acknowledged how much.
    The history is a proof device: no handler reads it. */
module History {
  import opened RaftTypes
  import opened Handlers
  import opened Quorum

  datatype Election = Election(leader: NodeId, log: seq<Entry>, quorum: set<NodeId>)

  /** A vote, with the voter's log at the time. */
  datatype Vote = Vote(candidate: NodeId, log: seq<Entry>)

  /** `logs[t]` is the log of the leader of term `t`; `acks[(t, n)]` is the length of the
      prefix of it that `n` is known to have held in term `t`. */
  datatype History = History(
    elections: map<nat, Election>,
    logs: map<nat, seq<Entry>>,
    votes: map<(nat, NodeId), Vote>,
    acks: map<(nat, NodeId), nat>)

  // ----- Logs against the history -----

  /** The log up to and including position `i` is what the leader of that entry's term had. */
  ghost predicate EntryOK(h: History, log: seq<Entry>, i: nat)
    requires i < |log|
  {
    && log[i].term in h.logs
    && i < |h.logs[log[i].term]|
    && log[..i + 1] == h.logs[log[i].term][..i + 1]
  }

  ghost predicate LogOK(h: History, log: seq<Entry>) {
    forall i :: 0 <= i < |log| ==> EntryOK(h, log, i)
  }

  ghost predicate TermsAtMost(log: seq<Entry>, t: nat) {
    forall i :: 0 <= i < |log| ==> log[i].term <= t
  }

  ghost predicate TermsBelow(log: seq<Entry>, t: nat) {
    forall i :: 0 <= i < |log| ==> log[i].term < t
  }

  // ----- The records -----

  ghost predicate ElectionOK(m: set<NodeId>, h: History, t: nat)
    requires t in h.elections && t in h.logs
  {
    var el := h.elections[t];
    && el.leader in m
    && Majority(m, el.quorum)
    && el.log <= h.logs[t]
    && LogOK(h, h.logs[t])
    && TermsBelow(el.log, t)
    && (forall i :: |el.log| <= i < |h.logs[t]| ==> h.logs[t][i].term == t)
    && (t, el.leader) in h.votes && h.votes[(t, el.leader)] == Vote(el.leader, el.log)
    && (t, el.leader) in h.acks
    && (forall v :: v in el.quorum ==> (t, v) in h.votes && h.votes[(t, v)].candidate == el.leader)
  }

  ghost predicate VoteOK(m: set<NodeId>, h: History, t: nat, n: NodeId)
    requires (t, n) in h.votes
  {
    var v := h.votes[(t, n)];
    && n in m && v.candidate in m
    && LogOK(h, v.log)
    && (t, v.candidate) in h.votes
    && var w := h.votes[(t, v.candidate)];
    && w.candidate == v.candidate
    && TermsBelow(w.log, t)
    && UpToDate(|w.log|, LastTerm(w.log), v.log)
  }

  ghost predicate AckOK(m: set<NodeId>, h: History, t: nat, n: NodeId)
    requires (t, n) in h.acks
  {
    n in m && t in h.logs && h.acks[(t, n)] <= |h.logs[t]|
  }

  /** Every leader elected after `t` and before `hi` started with the prefix `p`. */
  ghost predicate ElectedHave(h: History, t: nat, hi: nat, p: seq<Entry>) {
    forall u: nat :: u in h.elections && t < u < hi ==> p <= h.elections[u].log
  }

  /** If all leaders between `t` and `hi` started with the first `k` entries of term `t`'s
      leader, then `log` has them too. */
  ghost predicate Keeps(h: History, t: nat, k: nat, hi: nat, log: seq<Entry>)
    requires t in h.logs && k <= |h.logs[t]|
  {
    ElectedHave(h, t, hi, h.logs[t][..k]) ==> h.logs[t][..k] <= log
  }

  /** What `n` acknowledged in terms before `hi` is kept in `log`. */
  ghost predicate KeepsAcked(h: History, n: NodeId, hi: nat, log: seq<Entry>) {
    forall t: nat, k: nat {:trigger Keeps(h, t, k, hi, log)} ::
      ((t, n) in h.acks && t < hi && k <= h.acks[(t, n)] && t in h.logs && k <= |h.logs[t]|)
      ==> Keeps(h, t, k, hi, log)
  }

  /** A vote that can still matter: cast for an election that is open, or was decided by it. */
  ghost predicate Counts(h: History, t: nat, n: NodeId) {
    (t, n) in h.votes && (t in h.elections ==> n in h.elections[t].quorum)
  }

  ghost predicate HistoryOK(m: set<NodeId>, h: History) {
    && h.logs.Keys == h.elections.Keys
    && (forall t: nat {:trigger ElectionOK(m, h, t)} :: t in h.elections ==> ElectionOK(m, h, t))
    && (forall t: nat, n: NodeId {:trigger VoteOK(m, h, t, n)} :: (t, n) in h.votes ==> VoteOK(m, h, t, n))
    && (forall t: nat, n: NodeId {:trigger AckOK(m, h, t, n)} :: (t, n) in h.acks ==> AckOK(m, h, t, n))
    && (forall t: nat, n: NodeId {:trigger Counts(h, t, n)} :: Counts(h, t, n) ==> KeepsAcked(h, n, t, h.votes[(t, n)].log))
  }

  // ----- Commitment -----

  ghost function AckSet(m: set<NodeId>, h: History, t: nat, k: nat): set<NodeId> {
    set n | n in m && (t, n) in h.acks && k <= h.acks[(t, n)]
  }

  /** The quorum rule: a majority holds the first `k` entries of the leader of term `t`,
      and the last of them is of that term. */
  ghost predicate Committed(m: set<NodeId>, h: History, t: nat, k: nat) {
    && t in h.logs
    && 1 <= k <= |h.logs[t]|
    && h.logs[t][k - 1].term == t
    && Majority(m, AckSet(m, h, t, k))
  }

  /** `p` is part of what was committed in term `t` or before. */
  ghost predicate Settled(m: set<NodeId>, h: History, t: nat, p: seq<Entry>) {
    p == [] || exists t0: nat, k0: nat :: SettledBy(m, h, t, p, t0, k0)
  }

  ghost predicate SettledBy(m: set<NodeId>, h: History, t: nat, p: seq<Entry>, t0: nat, k0: nat) {
    t0 <= t && Committed(m, h, t0, k0) && p <= h.logs[t0][..k0]
  }

  // ----- Log matching -----

  lemma SameTermSamePrefix(h: History, a: seq<Entry>, b: seq<Entry>, i: nat)
    requires LogOK(h, a) && LogOK(h, b)
    requires i < |a| && i < |b| && a[i].term == b[i].term
    ensures a[..i + 1] == b[..i + 1]
  {
    assert EntryOK(h, a, i) && EntryOK(h, b, i);
  }

  lemma PrefixOK(h: History, log: seq<Entry>, k: nat)
    requires LogOK(h, log) && k <= |log|
    ensures LogOK(h, log[..k])
  {
    forall i | 0 <= i < k ensures EntryOK(h, log[..k], i) {
      assert EntryOK(h, log, i);
      assert log[..k][..i + 1] == log[..i + 1];
    }
  }

  lemma LeaderTerms(m: set<NodeId>, h: History, t: nat)
    requires HistoryOK(m, h) && t in h.logs
    ensures TermsAtMost(h.logs[t], t)
  {
    assert ElectionOK(m, h, t);
    forall i | 0 <= i < |h.logs[t]| ensures h.logs[t][i].term <= t {
      if i < |h.elections[t].log| {
        assert h.logs[t][i] == h.elections[t].log[i];
      }
    }
  }

  /** Terms never decrease along a log. */
  lemma TermsRise(m: set<NodeId>, h: History, log: seq<Entry>, j: nat, i: nat)
    requires HistoryOK(m, h) && LogOK(h, log) && j <= i < |log|
    ensures log[j].term <= log[i].term
  {
    assert EntryOK(h, log, i);
    LeaderTerms(m, h, log[i].term);
    assert log[j] == log[..i + 1][j] == h.logs[log[i].term][j];
  }

  // ----- Leader completeness -----

  /** Two logs whose last entries have the same term: the shorter is a prefix of the longer. */
  lemma SameLastTerm(h: History, a: seq<Entry>, b: seq<Entry>)
    requires LogOK(h, a) && LogOK(h, b)
    requires a != [] && b != [] && LastTerm(a) == LastTerm(b) && |b| <= |a|
    ensures b <= a
  {
    assert EntryOK(h, a, |a| - 1) && EntryOK(h, b, |b| - 1);
    assert a == a[..|a| - 1 + 1];
    assert b == b[..|b| - 1 + 1];
  }

  /** A log that ends in an entry of term `u` extends the log term `u`'s leader started with. */
  lemma ExtendsElection(m: set<NodeId>, h: History, log: seq<Entry>)
    requires HistoryOK(m, h) && LogOK(h, log) && log != []
    ensures LastTerm(log) in h.elections && h.elections[LastTerm(log)].log <= log
  {
    var u, i := LastTerm(log), |log| - 1;
    assert EntryOK(h, log, i);
    assert log == log[..i + 1];
    assert ElectionOK(m, h, u);
    var start := h.elections[u].log;
    assert h.logs[u][i] == log[i];
    assert start == h.logs[u][..|start|];
  }

  /** A candidate whose log is at least as up to date as that of a voter holding `p`, the
      committed prefix of term `t`, holds `p` itself, if the leaders in between do. */
  lemma UpToDateHasPrefix(m: set<NodeId>, h: History, t: nat, k: nat, t': nat, cand: seq<Entry>, voter: seq<Entry>)
    requires HistoryOK(m, h) && t in h.logs && 1 <= k <= |h.logs[t]| && h.logs[t][k - 1].term == t
    requires LogOK(h, cand) && LogOK(h, voter) && TermsBelow(cand, t')
    requires UpToDate(|cand|, LastTerm(cand), voter)
    requires h.logs[t][..k] <= voter
    requires ElectedHave(h, t, t', h.logs[t][..k])
    ensures h.logs[t][..k] <= cand
  {
    var p := h.logs[t][..k];
    assert voter[k - 1] == p[k - 1];
    TermsRise(m, h, voter, k - 1, |voter| - 1);
    assert cand != [];
    if LastTerm(cand) == LastTerm(voter) {
      SameLastTerm(h, cand, voter);
    } else {
      ExtendsElection(m, h, cand);
      assert cand[|cand| - 1].term < t';
    }
  }

  /** Leader completeness: what was committed in term `t` is in the log with which every
      leader of a later term was elected. */
  lemma {:induction false} LeaderCompleteness(m: set<NodeId>, h: History, t: nat, k: nat, t': nat)
    requires HistoryOK(m, h) && Committed(m, h, t, k)
    requires t < t' && t' in h.elections
    ensures h.logs[t][..k] <= h.elections[t'].log
    decreases t'
  {
    var p := h.logs[t][..k];
    forall u: nat | u in h.elections && t < u < t' ensures p <= h.elections[u].log {
      LeaderCompleteness(m, h, t, k, u);
    }
    assert ElectedHave(h, t, t', p);
    assert ElectionOK(m, h, t');
    var v := MajoritiesMeet(m, AckSet(m, h, t, k), h.elections[t'].quorum);
    assert Counts(h, t', v);
    assert VoteOK(m, h, t', v);
    assert KeepsAcked(h, v, t', h.votes[(t', v)].log);
    assert Keeps(h, t, k, t', h.votes[(t', v)].log);
    assert VoteOK(m, h, t', h.elections[t'].leader);
    UpToDateHasPrefix(m, h, t, k, t', h.elections[t'].log, h.votes[(t', v)].log);
  }

  /** Whatever is settled by term `t` is in the log of the leader of term `t`. */
  lemma SettledInLeader(m: set<NodeId>, h: History, t: nat, p: seq<Entry>)
    requires HistoryOK(m, h) && Settled(m, h, t, p) && t in h.elections
    ensures p <= h.logs[t]
  {
    if p != [] {
      var t0: nat, k0: nat :| SettledBy(m, h, t, p, t0, k0);
      if t0 < t {
        LeaderCompleteness(m, h, t0, k0, t);
        assert ElectionOK(m, h, t);
      }
    }
  }

  /** Any two settled prefixes agree. */
  lemma SettledAgree(m: set<NodeId>, h: History, t: nat, p: seq<Entry>, u: nat, q: seq<Entry>)
    requires HistoryOK(m, h) && Settled(m, h, t, p) && Settled(m, h, u, q)
    ensures p <= q || q <= p
  {
    if p != [] && q != [] {
      var t0: nat, k0: nat :| SettledBy(m, h, t, p, t0, k0);
      var u0: nat, j0: nat :| SettledBy(m, h, u, q, u0, j0);
      if t0 <= u0 {
        assert Settled(m, h, u0, p) by { assert SettledBy(m, h, u0, p, t0, k0); }
        SettledInLeader(m, h, u0, p);
        assert q <= h.logs[u0];
      } else {
        assert Settled(m, h, t0, q) by { assert SettledBy(m, h, t0, q, u0, j0); }
        SettledInLeader(m, h, t0, q);
        assert p <= h.logs[t0];
      }
    }
  }
}
