/** What each handler of the Raft server does, as a function from the server's state
    and the handler's inputs to the new state, the packets sent and the return value. */
module Handlers {
  import opened RaftTypes
  import opened Peers

  datatype Effect = Effect(server: Server, out: seq<Packet>, err: int)

  datatype Answer = Answer(server: Server, reply: Message, err: int)

  // ----- Term and role -----

  function SetTerm(s: Server, term: nat): Server {
    if s.term < term then s.(term := term, votedFor := None) else s
  }

  /** `rnd` is the value drawn from the random number generator. */
  function BecomeFollower(s: Server, rnd: nat): Server {
    s.(role := Follower, electionRand := s.electionTimeout + rnd % s.electionTimeout, elapsed := 0)
  }

  /** A higher term was seen: adopt it as a follower that knows no leader. */
  function StepDown(s: Server, term: nat, rnd: nat): Server {
    BecomeFollower(SetTerm(s, term), rnd).(leader := None)
  }

  // ----- Outgoing messages -----

  /** The list holds an entry of this index. */
  predicate HasEntry(s: Server, idx: nat) {
    s.gone < idx <= |s.log|
  }

  /** The list holds the end of the history, at most as much as there is room for. */
  predicate WindowOK(s: Server) {
    s.gone <= |s.log| <= s.gone + s.capacity
  }

  /** From `s` to `s'` the list loses entries only when it is full. */
  predicate Slides(s: Server, s': Server) {
    s'.capacity == s.capacity && s.gone <= s'.gone && (s.gone < s'.gone ==> |s'.log| == s'.gone + s'.capacity)
  }

  /** Appending, one entry after the other: the oldest ones go when there is no room. */
  function Grown(s: Server, es: seq<Entry>): Server {
    s.(log := s.log + es, gone := if s.gone + s.capacity < |s.log| + |es| then |s.log| + |es| - s.capacity else s.gone)
  }

  /** The term of the last entry in the list; 0 if there is none. */
  function TailTerm(s: Server): nat {
    if HasEntry(s, |s.log|) then s.log[|s.log| - 1].term else 0
  }

  /** The AppendEntries message for a peer: everything from its next index on. The source reads
      the entry at the next index if it is counted, and the one before if it is listed. */
  function AppendFor(s: Server, p: Peer): Message
    requires 1 <= p.nextIdx
  {
    var prev := p.nextIdx - 1;
    var entries := if p.nextIdx <= |s.log| then s.log[prev..] else [];
    var prevTerm := if HasEntry(s, prev) then s.log[prev - 1].term else 0;
    AppendEntries(s.term, prev, prevTerm, s.commit, |entries|, entries)
  }

  /** The entry at a peer's next index, if it is counted, is listed: otherwise the source reads
      through a null pointer when it builds the message. */
  predicate CanSend(s: Server, p: Peer) {
    s.gone < p.nextIdx
  }

  function VoteRequest(s: Server): Message {
    RequestVote(s.term, s.id, |s.log|, TailTerm(s))
  }

  /** The three loops over the node list that send: heartbeats to every active peer, a new
      entry to the voting peers that lack only it, vote requests to the voting peers. */
  datatype Wave = Heartbeat | NewEntry | Canvass

  predicate Addressed(s: Server, p: Peer, w: Wave) {
    && p.id != s.id
    && p.active
    && (w.NewEntry? ==> p.voting && p.nextIdx == |s.log|)
    && (w.Canvass? ==> p.voting)
  }

  function Letter(s: Server, p: Peer, w: Wave): Packet
    requires 1 <= p.nextIdx
  {
    Packet(s.id, p.id, if w.Canvass? then VoteRequest(s) else AppendFor(s, p))
  }

  predicate CanSendAll(s: Server, ps: seq<Peer>, w: Wave) {
    forall i :: 0 <= i < |ps| && Addressed(s, ps[i], w) && !w.Canvass? ==> CanSend(s, ps[i])
  }

  predicate NextPositive(ps: seq<Peer>) {
    forall i :: 0 <= i < |ps| ==> 1 <= ps[i].nextIdx
  }

  function Broadcast(s: Server, ps: seq<Peer>, w: Wave): seq<Packet>
    requires NextPositive(ps)
  {
    if ps == [] then []
    else
      var k := |ps| - 1;
      Broadcast(s, ps[..k], w) + (if Addressed(s, ps[k], w) then [Letter(s, ps[k], w)] else [])
  }

  // ----- Elections -----

  function ClearVotes(ps: seq<Peer>): (r: seq<Peer>)
    ensures |r| == |ps|
    ensures forall i :: 0 <= i < |ps| ==> r[i] == ps[i].(votedForMe := false)
  {
    seq(|ps|, i requires 0 <= i < |ps| => ps[i].(votedForMe := false))
  }

  function BecomeCandidate(s: Server, rnd: nat): Effect
    requires NextPositive(s.peers)
  {
    var s1 := SetTerm(s, s.term + 1);
    var s2 := s1.(
      votedFor := Some(s.id), leader := None, role := Candidate, peers := ClearVotes(s.peers), elapsed := 0,
      electionRand := s.electionTimeout + rnd % s.electionTimeout);
    Effect(s2, Broadcast(s2, s2.peers, Canvass), 0)
  }

  function ResetProgress(ps: seq<Peer>, self: NodeId, len: nat): (r: seq<Peer>)
    ensures |r| == |ps|
    ensures forall i :: 0 <= i < |ps| ==>
      r[i] == if ps[i].id == self || !ps[i].active then ps[i] else ps[i].(nextIdx := len + 1, matchIdx := 0)
  {
    seq(|ps|, i requires 0 <= i < |ps| =>
      if ps[i].id == self || !ps[i].active then ps[i] else ps[i].(nextIdx := len + 1, matchIdx := 0))
  }

  function BecomeLeader(s: Server): Effect
    requires NextPositive(s.peers)
  {
    var s1 := s.(role := Leader, leader := Some(s.id), elapsed := 0,
                 peers := ResetProgress(s.peers, s.id, |s.log|));
    Effect(s1, Broadcast(s1, s1.peers, Heartbeat), 0)
  }

  predicate SelfVoting(s: Server) {
    var me := Find(s.peers, s.id);
    me.Some? && me.value.voting
  }

  predicate UpToDate(lastIdx: nat, lastTerm: nat, log: seq<Entry>) {
    log == [] || LastTerm(log) < lastTerm || (lastTerm == LastTerm(log) && |log| <= lastIdx)
  }

  /** The decision on a vote reads the last entry only if the list holds it. */
  predicate GrantReads(s: Server, rv: Message)
    requires rv.RequestVote?
  {
    SelfVoting(s) && s.term <= rv.term && (s.term < rv.term || s.votedFor == None) && s.log != [] ==>
      HasEntry(s, |s.log|)
  }

  predicate ShouldGrantVote(s: Server, rv: Message)
    requires rv.RequestVote?
  {
    && SelfVoting(s)
    && !(rv.term < s.term)
    && s.votedFor == None
    && UpToDate(rv.lastIdx, rv.lastTerm, s.log)
  }

  function HearCandidate(s: Server, rv: Message, rnd: nat): Server
    requires rv.RequestVote?
  {
    if s.term < rv.term then StepDown(s, rv.term, rnd) else s
  }

  /** The assertion in `raft_recv_requestvote`: only a follower grants a vote. */
  predicate RequestVoteAsserts(s: Server, rv: Message, rnd: nat)
    requires rv.RequestVote?
  {
    var s1 := HearCandidate(s, rv, rnd);
    ShouldGrantVote(s1, rv) ==> s1.role == Follower
  }

  function RecvRequestVote(s: Server, from: NodeId, rv: Message, rnd: nat): Answer
    requires rv.RequestVote?
  {
    var s1 := HearCandidate(s, rv, rnd);
    if ShouldGrantVote(s1, rv) then
      Answer(s1.(votedFor := Some(rv.candidate), leader := None, elapsed := 0), VoteReply(s1.term, Granted), 0)
    else
      var known := from in Ids(s.peers) || rv.candidate in Ids(s.peers);
      Answer(s1, VoteReply(s1.term, if known then NotGranted else UnknownNode), 0)
  }

  function VotesForMe(s: Server): nat {
    |Supporters(s.peers, s.id)| + (if s.votedFor == Some(s.id) then 1 else 0)
  }

  function RecordSupport(s: Server, from: NodeId): Server {
    var p := Find(s.peers, from);
    if p.Some? then s.(peers := Replace(s.peers, p.value.(votedForMe := true))) else s
  }

  function RecvVoteReply(s: Server, from: NodeId, r: Message, rnd: nat): Effect
    requires r.VoteReply? && NextPositive(s.peers)
  {
    if s.role != Candidate then Effect(s, [], 0)
    else if s.term < r.term then Effect(StepDown(s, r.term, rnd), [], 0)
    else if s.term != r.term || r.ballot != Granted then Effect(s, [], 0)
    else
      var s1 := RecordSupport(s, from);
      if VotesIsMajority(|VotingIds(s1.peers)|, VotesForMe(s1)) then BecomeLeader(s1) else Effect(s1, [], 0)
  }

  // ----- Replication: the leader's side -----

  /** A client entry: appended under the current term and sent to the peers that are up to date. */
  function RecvEntry(s: Server, e: Entry): Effect
    requires NextPositive(s.peers)
  {
    if s.role != Leader then Effect(s, [], ERR_NOT_LEADER)
    else
      var s1 := Grown(s, [e.(term := s.term)]);
      var s2 := if |VotingIds(s.peers)| == 1 then s1.(commit := |s1.log|) else s1;
      Effect(s2, Broadcast(s1, s1.peers, NewEntry), 0)
  }

  function RecvEntryResponse(s: Server, e: Entry): EntryResponse {
    EntryResponse(e.id, |s.log| + 1, s.term)
  }

  function SetNext(p: Peer, next: int): (q: Peer)
    ensures 1 <= q.nextIdx
  {
    p.(nextIdx := if next < 1 then 1 else next)
  }

  /** The assertions in `raft_recv_appendentries_response`. */
  predicate AppendReplyAsserts(s: Server, from: NodeId, r: Message)
    requires r.AppendReply?
  {
    s.role == Leader && s.term == r.term ==>
      && Find(s.peers, from).Some?
      && var p := Find(s.peers, from).value;
      && from != s.id
      && (!r.success ==> 0 < p.nextIdx && p.matchIdx <= p.nextIdx - 1)
      && (r.success && p.matchIdx < r.currentIdx ==> r.currentIdx <= |s.log|)
  }

  /** The quorum rule reads the acknowledged entry only if the list holds it. */
  predicate QuorumReads(s: Server, from: NodeId, r: Message)
    requires r.AppendReply?
  {
    var p := Find(s.peers, from);
    s.role == Leader && s.term == r.term && r.success && p.Some? && p.value.matchIdx < r.currentIdx && s.commit < r.currentIdx ==>
      HasEntry(s, r.currentIdx)
  }

  /** Commit `point` when it holds an entry of the current term on a majority. */
  function AdvanceCommit(s: Server, point: nat): Server
    requires 1 <= point <= |s.log|
  {
    if s.commit < point && s.log[point - 1].term == s.term
       && |VotingIds(s.peers)| / 2 < 1 + |Holders(s.peers, s.id, point)|
    then s.(commit := point) else s
  }

  function BackOff(s: Server, p: Peer, r: Message): Peer
    requires r.AppendReply? && 1 <= p.nextIdx
  {
    if r.currentIdx < p.nextIdx - 1 then SetNext(p, Min(r.currentIdx + 1, |s.log|))
    else SetNext(p, p.nextIdx - 1)
  }

  /** The retry after a failure reply reads the entry at the lowered next index. */
  predicate RetryReads(s: Server, from: NodeId, r: Message)
    requires r.AppendReply? && NextPositive(s.peers)
  {
    var p := Find(s.peers, from);
    s.role == Leader && s.term == r.term && !r.success && p.Some? && p.value.matchIdx != p.value.nextIdx - 1 ==>
      CanSend(s, BackOff(s, p.value, r))
  }

  /** `ready`: the callback for non-voting peers with sufficient logs exists and returned 0. */
  function Acknowledged(s: Server, p: Peer, r: Message, ready: bool): Peer
    requires r.AppendReply?
  {
    var p1 := SetNext(p, r.currentIdx + 1).(matchIdx := r.currentIdx);
    if !p.voting && |s.log| <= r.currentIdx + 1 && !p.votingCommitted && !p.sufficientLogs && ready
    then p1.(sufficientLogs := true) else p1
  }

  function RecvAppendReply(s: Server, from: NodeId, r: Message, ready: bool, rnd: nat): Effect
    requires r.AppendReply? && NextPositive(s.peers)
    requires AppendReplyAsserts(s, from, r)
  {
    if s.role != Leader then Effect(s, [], ERR_NOT_LEADER)
    else if s.term < r.term then Effect(StepDown(s, r.term, rnd), [], 0)
    else if s.term != r.term then Effect(s, [], 0)
    else
      var p := Find(s.peers, from).value;
      if !r.success then
        if p.matchIdx == p.nextIdx - 1 then Effect(s, [], 0)
        else
          var p1 := BackOff(s, p, r);
          var s1 := s.(peers := Replace(s.peers, p1));
          Effect(s1, [Packet(s.id, from, AppendFor(s1, p1))], 0)
      else if r.currentIdx <= p.matchIdx then Effect(s, [], 0)
      else
        var p1 := Acknowledged(s, p, r, ready);
        var s1 := AdvanceCommit(s.(peers := Replace(s.peers, p1)), r.currentIdx);
        Effect(s1, if HasEntry(s1, p1.nextIdx) then [Packet(s.id, from, AppendFor(s1, p1))] else [], 0)
  }

  // ----- Replication: the follower's side -----

  /** The first loop passes entry `i` when the list has an entry at its index that has the same
      term or is already committed. */
  predicate Passes(s: Server, ae: Message, i: nat)
    requires ae.AppendEntries?
  {
    && i < |ae.entries|
    && HasEntry(s, ae.prevIdx + i + 1)
    && (s.log[ae.prevIdx + i].term == ae.entries[i].term || ae.prevIdx + i < s.commit)
  }

  function MatchFrom(s: Server, ae: Message, i: nat): (m: nat)
    requires ae.AppendEntries? && i <= ae.n && i <= |ae.entries|
    ensures i <= m <= ae.n && m <= |ae.entries| && (i < m ==> HasEntry(s, ae.prevIdx + m))
    ensures forall j :: i <= j < m ==> Passes(s, ae, j)
    ensures m == ae.n || !Passes(s, ae, m)
    decreases ae.n - i
  {
    if i == ae.n || !Passes(s, ae, i) then i else MatchFrom(s, ae, i + 1)
  }

  /** How many leading entries of the message the first loop passes over. */
  function Matched(s: Server, ae: Message): (m: nat)
    requires ae.AppendEntries?
    ensures m <= ae.n && m <= |ae.entries| && (0 < m ==> HasEntry(s, ae.prevIdx + m))
  {
    MatchFrom(s, ae, 0)
  }

  /** The previous entry named by the message is not in the list, or has another term. */
  predicate PrevMissing(s: Server, ae: Message)
    requires ae.AppendEntries?
  {
    0 < ae.prevIdx && !HasEntry(s, ae.prevIdx)
  }

  predicate PrevConflicts(s: Server, ae: Message)
    requires ae.AppendEntries?
  {
    0 < ae.prevIdx && HasEntry(s, ae.prevIdx) && s.log[ae.prevIdx - 1].term != ae.prevTerm
  }

  predicate PrevMatches(s: Server, ae: Message)
    requires ae.AppendEntries?
  {
    !PrevMissing(s, ae) && !PrevConflicts(s, ae)
  }

  /** The first loop compares its entry with an existing one only while the chain lasts. */
  predicate NoNullRead(s: Server, ae: Message)
    requires ae.AppendEntries?
  {
    s.term <= ae.term && PrevMatches(s, ae) ==>
      var m := Matched(s, ae);
      m == ae.n || !HasEntry(s, ae.prevIdx + m + 1) || m < |ae.entries|
  }

  /** The message does not bring entries from the start of the log to a server whose list has lost
      the start: the source takes the lost entries for missing and appends them again. */
  predicate Anchored(s: Server, ae: Message)
    requires ae.AppendEntries?
  {
    ae.term < s.term || 0 < ae.prevIdx || s.gone == 0 || ae.entries == [] || ae.n == 0
  }

  /** The first loop stopped at an entry that is present with another term. */
  predicate EntryConflicts(s: Server, ae: Message)
    requires ae.AppendEntries?
  {
    var m := Matched(s, ae);
    m < ae.n && HasEntry(s, ae.prevIdx + m + 1)
  }

  /** The index the handler deletes at, if it deletes. */
  function DeletionIdx(s: Server, ae: Message): Option<nat>
    requires ae.AppendEntries?
  {
    if ae.term < s.term || PrevMissing(s, ae) then None
    else if PrevConflicts(s, ae) then Some(Max(ae.prevIdx, ae.leaderCommit + 1))
    else if EntryConflicts(s, ae) then Some(ae.prevIdx + Matched(s, ae) + 1)
    else None
  }

  /** The documented effect of deleting at `idx`: that entry and all that follow go, unless the
      `log_pop` callback refuses (`pop` is its return value) or the list has no such entry. */
  function DeleteFrom(s: Server, idx: nat, pop: int): (Server, int) {
    if !HasEntry(s, idx) then (s, -1)
    else if pop != 0 then (s, pop)
    else (s.(log := s.log[..idx - 1]), 0)
  }

  function HearLeader(s: Server, from: NodeId, ae: Message, rnd: nat): Server
    requires ae.AppendEntries? && s.term <= ae.term
  {
    var s1 :=
      if s.role == Candidate && s.term == ae.term then BecomeFollower(s, rnd)
      else if s.term < ae.term then BecomeFollower(SetTerm(s, ae.term), rnd)
      else s;
    s1.(leader := Some(from), elapsed := 0)
  }

  function Refusal(s: Server, ae: Message, err: int): Answer
    requires ae.AppendEntries?
  {
    Answer(s, AppendReply(s.term, false, |s.log|, ae.prevIdx + 1), err)
  }

  /** The commit rule of the follower: bounded by its own last index. */
  function FollowCommit(s: Server, ae: Message): Server
    requires ae.AppendEntries?
  {
    if s.commit < ae.leaderCommit then s.(commit := Min(Max(|s.log|, 1), ae.leaderCommit)) else s
  }

  /** The second loop and the commit rule, from entry `m` of the message on. */
  function PickUp(s: Server, ae: Message, m: nat): Answer
    requires ae.AppendEntries? && m <= ae.n && m <= |ae.entries|
  {
    var k := Min(ae.n, |ae.entries|);
    var s1 := Grown(s, ae.entries[m..k]);
    var s2 := if k < ae.n then s1 else FollowCommit(s1, ae);
    Answer(s2, AppendReply(s.term, true, ae.prevIdx + k, ae.prevIdx + 1), 0)
  }

  function Merge(s: Server, ae: Message, pop: int): Answer
    requires ae.AppendEntries? && PrevMatches(s, ae)
  {
    var m := Matched(s, ae);
    if EntryConflicts(s, ae) then
      var (s1, err) := DeleteFrom(s, ae.prevIdx + m + 1, pop);
      if err != 0 then Answer(s, AppendReply(s.term, true, ae.prevIdx + m, ae.prevIdx + 1), err)
      else PickUp(s1, ae, m)
    else PickUp(s, ae, m)
  }

  /** What follows once the term and the leader are accepted. */
  function Receive(s: Server, ae: Message, pop: int): Answer
    requires ae.AppendEntries?
  {
    if PrevMissing(s, ae) then Refusal(s, ae, 0)
    else if PrevConflicts(s, ae) then
      var (s1, err) := DeleteFrom(s, Max(ae.prevIdx, ae.leaderCommit + 1), pop);
      Refusal(s1, ae, err)
    else Merge(s, ae, pop)
  }

  function RecvAppendEntries(s: Server, from: NodeId, ae: Message, pop: int, rnd: nat): Answer
    requires ae.AppendEntries?
  {
    if ae.term < s.term then Refusal(s, ae, 0) else Receive(HearLeader(s, from, ae, rnd), ae, pop)
  }

  /** The assertions reached by `raft_recv_appendentries`: a deletion is above the commit index,
      and the commit index does not go down or past the log. */
  predicate AppendEntriesAsserts(s: Server, ae: Message, pop: int)
    requires ae.AppendEntries?
  {
    s.term <= ae.term ==>
      && (DeletionIdx(s, ae).Some? ==> s.commit < DeletionIdx(s, ae).value)
      && (PrevMatches(s, ae) ==> s.commit <= Merge(s, ae, pop).server.commit <= |Merge(s, ae, pop).server.log|)
  }

  // ----- Applying -----

  /** `shutdown`: what the `applylog` callback answers. It is told the index after the increment,
      minus one. */
  function ApplyEntry(s: Server, shutdown: bool): Effect {
    if s.applied == s.commit || !HasEntry(s, s.applied + 1) then Effect(s, [], -1)
    else Effect(s.(applied := s.applied + 1, fed := s.fed + [Handed(s.log[s.applied], s.applied)]), [],
                if shutdown then ERR_SHUTDOWN else 0)
  }

  /** `quota`: the number of entries the callback accepts before it asks for a shutdown. */
  function ApplyAll(s: Server, quota: nat): Effect
    decreases s.commit - s.applied
  {
    if s.applied < s.commit then
      var e := ApplyEntry(s, quota == 0);
      if e.err != 0 then e else ApplyAll(e.server, quota - 1)
    else Effect(s, [], 0)
  }

  // ----- Time -----

  function SendAppendEntriesAll(s: Server): Effect
    requires NextPositive(s.peers)
  {
    var s1 := s.(elapsed := 0);
    Effect(s1, Broadcast(s1, s1.peers, Heartbeat), 0)
  }

  /** The single-voter shortcut at the start of `raft_periodic`. */
  function Tick(s: Server, msec: nat): (e: Effect)
    requires NextPositive(s.peers)
    ensures NextPositive(e.server.peers)
  {
    var s0 := s.(elapsed := s.elapsed + msec);
    if |VotingIds(s0.peers)| == 1 && SelfVoting(s0) && s0.role != Leader then BecomeLeader(s0)
    else Effect(s0, [], 0)
  }

  /** A heartbeat reads the entry at each addressed peer's next index. */
  predicate TimersRead(s: Server) {
    s.role == Leader && s.requestTimeout <= s.elapsed ==> CanSendAll(s, s.peers, Heartbeat)
  }

  function Timers(s: Server, rnd: nat): Effect
    requires NextPositive(s.peers)
  {
    if s.role == Leader then
      if s.requestTimeout <= s.elapsed then SendAppendEntriesAll(s) else Effect(s, [], 0)
    else if s.electionRand <= s.elapsed && 1 < |VotingIds(s.peers)| && SelfVoting(s) then BecomeCandidate(s, rnd)
    else Effect(s, [], 0)
  }

  function Periodic(s: Server, msec: nat, rnd: nat, shutdown: bool): Effect
    requires NextPositive(s.peers)
  {
    var e1 := Tick(s, msec);
    var e2 := Timers(e1.server, rnd);
    var out := e1.out + e2.out;
    if e2.server.applied < e2.server.commit then
      var e3 := ApplyEntry(e2.server, shutdown);
      Effect(e3.server, out, if e3.err != -1 then e3.err else 0)
    else Effect(e2.server, out, 0)
  }

  // ----- The client's question -----

  /** 1: committed; 0: not yet; -1: another leader's entry took the place. */
  function ResponseCommitted(s: Server, r: EntryResponse): int {
    if !HasEntry(s, r.idx) then 0
    else if r.term != s.log[r.idx - 1].term then -1
    else if r.idx <= s.commit then 1
    else 0
  }
}
