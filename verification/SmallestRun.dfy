/** The smallest cluster at work, handler by handler: an election, a client's entry, its commitment
    and its application on both servers; then two more entries, for which the lists, with room for
    two, drop the first. The theorems about runs speak of runs like these. */
module SmallestRun {
  import opened RaftTypes
  import opened Peers
  import opened Handlers
  import opened RaftCluster

  const A: NodeId := 0
  const B: NodeId := 1

  function Known(id: NodeId, next: nat, matched: nat, voted: bool): Peer {
    Peer(id, next, matched, voted, true, false, true, false, false)
  }

  const Fresh := [Known(A, 1, 0, false), Known(B, 1, 0, false)]

  function ServerAt(id: NodeId, term: nat, vote: Option<NodeId>, role: Role, leader: Option<NodeId>, log: seq<Entry>,
                    commit: nat, fed: seq<Handed>, peers: seq<Peer>, rand: nat): Server {
    Server(id, term, vote, role, leader, log, 0, 2, commit, |fed|, fed, peers, 0, 1, rand, 0)
  }

  // ----- Server A -----

  const A0 := ServerAt(A, 0, None, Follower, None, [], 0, [], Fresh, 0)
  const A1 := ServerAt(A, 1, Some(A), Candidate, None, [], 0, [], Fresh, 1)
  const A2 := ServerAt(A, 1, Some(A), Leader, Some(A), [], 0, [], [Known(A, 1, 0, false), Known(B, 1, 0, true)], 1)

  function A3(e: Entry): Server { A2.(log := [e]) }

  function A4(e: Entry): Server { A3(e).(commit := 1, peers := [Known(A, 1, 0, false), Known(B, 2, 1, true)]) }

  function A5(e: Entry): Server { A4(e).(applied := 1, fed := [Handed(e, 0)]) }

  // ----- Server B -----

  const B0 := ServerAt(B, 0, None, Follower, None, [], 0, [], Fresh, 0)
  const B1 := ServerAt(B, 1, Some(A), Follower, None, [], 0, [], Fresh, 1)

  function B2(e: Entry): Server { B1.(leader := Some(A), log := [e]) }

  function B3(e: Entry): Server { B2(e).(commit := 1) }

  function B4(e: Entry): Server { B3(e).(applied := 1, fed := [Handed(e, 0)]) }

  // ----- Messages -----

  const Ask := Packet(A, B, RequestVote(1, A, 0, 0))
  const Yes := Packet(B, A, VoteReply(1, Granted))
  const First := Packet(A, B, AppendEntries(1, 0, 0, 0, 0, []))

  function Carry(e: Entry): Packet { Packet(A, B, AppendEntries(1, 0, 0, 0, 1, [e])) }

  const Took := Packet(B, A, AppendReply(1, true, 1, 1))
  const Beat := Packet(A, B, AppendEntries(1, 1, 1, 1, 0, []))
  const Agrees := Packet(B, A, AppendReply(1, true, 1, 2))

  lemma BothVote(ps: seq<Peer>)
    requires |ps| == 2 && ps[0].id == A && ps[1].id == B && forall p :: p in ps ==> p.voting && p.active
    ensures VotingIds(ps) == {A, B} && |VotingIds(ps)| == 2 && Ids(ps) == {A, B}
    ensures Supporters(ps, A) == if ps[1].votedForMe then {B} else {}
    ensures forall k: nat :: Holders(ps, A, k) == if k <= ps[1].matchIdx then {B} else {}
    ensures Find(ps, A) == Some(ps[0]) && Find(ps, B) == Some(ps[1])
  {
    assert ps[0] in ps && ps[1] in ps;
    assert ps[1..][0] == ps[1];
    assert Find(ps[1..], B) == Some(ps[1]);
  }

  lemma ToB(s: Server, w: Wave)
    requires s.id == A && |s.peers| == 2 && s.peers[0].id == A && s.peers[1].id == B && NextPositive(s.peers)
    ensures Broadcast(s, s.peers, w) == if Addressed(s, s.peers[1], w) then [Letter(s, s.peers[1], w)] else []
  {
    var ps := s.peers;
    assert ps[..1][..0] == [];
    assert Broadcast(s, ps[..1], w) == [];
  }

  lemma StandsUp()
    ensures NextPositive(A0.peers) && Periodic(A0, 0, 0, false) == Effect(A1, [Ask], 0)
  {
    BothVote(Fresh);
    assert ClearVotes(Fresh) == Fresh;
    ToB(A1, Canvass);
  }

  lemma Grants()
    ensures RequestVoteAsserts(B0, Ask.msg, 0) && RecvRequestVote(B0, A, Ask.msg, 0) == Answer(B1, Yes.msg, 0)
  {
    BothVote(Fresh);
  }

  lemma Supports()
    ensures RecordSupport(A1, B) == A1.(peers := A2.peers)
  {
    BothVote(Fresh);
    assert Replace(Fresh, Known(B, 1, 0, true)) == A2.peers;
  }

  lemma Leads()
    ensures NextPositive(A2.peers) && BecomeLeader(A1.(peers := A2.peers)) == Effect(A2, [First], 0)
  {
    assert ResetProgress(A2.peers, A, 0) == A2.peers;
    ToB(A2, Heartbeat);
  }

  lemma Wins()
    ensures NextPositive(A1.peers) && RecvVoteReply(A1, B, Yes.msg, 0) == Effect(A2, [First], 0)
  {
    Supports();
    BothVote(A2.peers);
    Leads();
    hide RecordSupport, VotingIds, Supporters, BecomeLeader, Find;
  }

  /** The leader of the pair takes an entry and tells B of it, if B lacks nothing else. */
  lemma PairTakes(s: Server, e: Entry)
    requires s.id == A && s.role == Leader && e.term == s.term && NextPositive(s.peers)
    requires |s.peers| == 2 && s.peers[0].id == A && s.peers[1].id == B && forall p :: p in s.peers ==> p.voting && p.active
    ensures var s1 := Grown(s, [e]);
      RecvEntry(s, e) == Effect(s1, if s.peers[1].nextIdx == |s1.log| then [Letter(s1, s1.peers[1], NewEntry)] else [], 0)
  {
    assert e.(term := s.term) == e;
    hide Broadcast, VotingIds, Letter;
    assert s.peers[1] in s.peers;
    BothVote(s.peers);
    ToB(Grown(s, [e]), NewEntry);
  }

  lemma TakesEntry(e: Entry)
    requires e.term == 1
    ensures NextPositive(A2.peers) && RecvEntry(A2, e) == Effect(A3(e), [Carry(e)], 0)
  {
    hide RecvEntry;
    PairTakes(A2, e);
    assert A2.log + [e] == [e];
  }

  lemma Stores(e: Entry)
    ensures NoNullRead(B1, Carry(e).msg) && AppendEntriesAsserts(B1, Carry(e).msg, 0)
    ensures RecvAppendEntries(B1, A, Carry(e).msg, 0, 0) == Answer(B2(e), Took.msg, 0)
  {
    assert B1.log + [e][0..1] == [e];
  }

  lemma Commits(e: Entry)
    requires e.term == 1
    ensures NextPositive(A3(e).peers) && AppendReplyAsserts(A3(e), B, Took.msg)
    ensures RecvAppendReply(A3(e), B, Took.msg, false, 0) == Effect(A4(e), [], 0)
  {
    BothVote(A3(e).peers);
    var p := Known(B, 2, 1, true);
    assert Acknowledged(A3(e), Known(B, 1, 0, true), Took.msg, false) == p;
    assert Replace(A3(e).peers, p) == A4(e).peers;
    BothVote(A4(e).peers);
  }

  lemma Applies(e: Entry)
    requires e.term == 1
    ensures NextPositive(A4(e).peers) && Periodic(A4(e), 0, 0, false) == Effect(A5(e), [Beat], 0)
  {
    BothVote(A4(e).peers);
    Beats(e);
    assert ApplyEntry(A4(e), false) == Effect(A5(e), [], 0);
    assert [] + [Beat] == [Beat];
    hide VotingIds, Broadcast, SendAppendEntriesAll, ApplyEntry;
  }

  lemma Beats(e: Entry)
    requires e.term == 1
    ensures NextPositive(A4(e).peers) && SendAppendEntriesAll(A4(e)) == Effect(A4(e), [Beat], 0)
  {
    ToB(A4(e), Heartbeat);
  }

  lemma Learns(e: Entry)
    requires e.term == 1
    ensures NoNullRead(B2(e), Beat.msg) && AppendEntriesAsserts(B2(e), Beat.msg, 0)
    ensures RecvAppendEntries(B2(e), A, Beat.msg, 0, 0) == Answer(B3(e), Agrees.msg, 0)
  {
    assert B2(e).log + [] == [e];
  }

  lemma Follows(e: Entry)
    ensures ApplyAll(B3(e), 1) == Effect(B4(e), [], 0)
  {
  }

  // ----- The run -----

  function Pair(a: Server, b: Server, net: set<Packet>): Cluster {
    Cluster(map[A := a, B := b], net)
  }

  lemma Acts(a: Server, b: Server, net: set<Packet>, ev: Event, a': Server, b': Server, out: set<Packet>)
    requires var c := Pair(a, b, net);
      && Possible(c, ev) && AssertsHold(c, ev)
      && SendsBacked(if Actor(ev) == A then a' else b', out)
      && ((Actor(ev) == A && Outcome(c, ev) == (a', out) && b' == b) || (Actor(ev) == B && Outcome(c, ev) == (b', out) && a' == a))
    ensures Next(Pair(a, b, net), Pair(a', b', net + out))
  {
    hide Enabled, ListSuffices, AssertsHold, Outcome;
    var c := Pair(a, b, net);
    assert After(c, ev) == Pair(a', b', net + out);
    assert StepBy(c, ev, Pair(a', b', net + out));
  }

  lemma One(p: Packet)
    ensures (set q | q in [p]) == {p}
    ensures (set q: Packet | q in []) == {}
  {
  }

  function Net(k: nat, e: Entry): set<Packet> {
    (if 1 <= k then {Ask} else {}) + (if 2 <= k then {Yes} else {}) + (if 3 <= k then {First} else {}) +
    (if 4 <= k then {Carry(e)} else {}) + (if 5 <= k then {Took} else {}) + (if 7 <= k then {Beat} else {}) +
    (if 8 <= k then {Agrees} else {})
  }

  function Moment(k: nat, e: Entry): Cluster {
    var a := if k < 1 then A0 else if k < 3 then A1 else if k < 4 then A2 else if k < 6 then A3(e) else if k < 7 then A4(e) else A5(e);
    var b := if k < 2 then B0 else if k < 5 then B1 else if k < 8 then B2(e) else if k < 9 then B3(e) else B4(e);
    Pair(a, b, Net(k, e))
  }

  lemma Moment1(e: Entry)
    ensures Next(Moment(0, e), Moment(1, e))
  {
    hide Periodic, RecvEntry, RecvRequestVote, RecvVoteReply, RecvAppendEntries, RecvAppendReply, ApplyAll,
         RequestVoteAsserts, AppendEntriesAsserts, AppendReplyAsserts, NoNullRead;
    StandsUp();
    One(Ask);
    Acts(A0, B0, Net(0, e), PeriodicAt(A, 0, 0, false), A1, B0, {Ask});
    assert Net(0, e) + {Ask} == Net(1, e);
  }

  lemma Moment2(e: Entry)
    ensures Next(Moment(1, e), Moment(2, e))
  {
    hide Periodic, RecvEntry, RecvRequestVote, RecvVoteReply, RecvAppendEntries, RecvAppendReply, ApplyAll,
         RequestVoteAsserts, AppendEntriesAsserts, AppendReplyAsserts, NoNullRead;
    Grants();
    Acts(A1, B0, Net(1, e), Deliver(Ask, 0, 0, false, 0), A1, B1, {Yes});
    assert Net(1, e) + {Yes} == Net(2, e);
  }

  lemma Moment3(e: Entry)
    ensures Next(Moment(2, e), Moment(3, e))
  {
    hide Periodic, RecvEntry, RecvRequestVote, RecvVoteReply, RecvAppendEntries, RecvAppendReply, ApplyAll,
         RequestVoteAsserts, AppendEntriesAsserts, AppendReplyAsserts, NoNullRead;
    Wins();
    One(First);
    Acts(A1, B1, Net(2, e), Deliver(Yes, 0, 0, false, 0), A2, B1, {First});
    assert Net(2, e) + {First} == Net(3, e);
  }

  lemma Moment4(e: Entry)
    requires e.term == 1 && !IsCfgChange(e)
    ensures Next(Moment(3, e), Moment(4, e))
  {
    hide Periodic, RecvEntry, RecvRequestVote, RecvVoteReply, RecvAppendEntries, RecvAppendReply, ApplyAll,
         RequestVoteAsserts, AppendEntriesAsserts, AppendReplyAsserts, NoNullRead;
    TakesEntry(e);
    One(Carry(e));
    Acts(A2, B1, Net(3, e), ClientEntry(A, e), A3(e), B1, {Carry(e)});
    assert Net(3, e) + {Carry(e)} == Net(4, e);
  }

  lemma Moment5(e: Entry)
    ensures Next(Moment(4, e), Moment(5, e))
  {
    hide Periodic, RecvEntry, RecvRequestVote, RecvVoteReply, RecvAppendEntries, RecvAppendReply, ApplyAll,
         RequestVoteAsserts, AppendEntriesAsserts, AppendReplyAsserts, NoNullRead;
    Stores(e);
    assert Cut(Carry(e).msg, 1) == Carry(e).msg;
    Acts(A3(e), B1, Net(4, e), Deliver(Carry(e), 1, 0, false, 0), A3(e), B2(e), {Took});
    assert Net(4, e) + {Took} == Net(5, e);
  }

  lemma Moment6(e: Entry)
    requires e.term == 1
    ensures Next(Moment(5, e), Moment(6, e))
  {
    hide Periodic, RecvEntry, RecvRequestVote, RecvVoteReply, RecvAppendEntries, RecvAppendReply, ApplyAll,
         RequestVoteAsserts, AppendEntriesAsserts, AppendReplyAsserts, NoNullRead;
    Commits(e);
    One(Took);
    Acts(A3(e), B2(e), Net(5, e), Deliver(Took, 0, 0, false, 0), A4(e), B2(e), {});
    assert Net(5, e) + {} == Net(6, e);
  }

  lemma Moment7(e: Entry)
    requires e.term == 1
    ensures Next(Moment(6, e), Moment(7, e))
  {
    hide Periodic, RecvEntry, RecvRequestVote, RecvVoteReply, RecvAppendEntries, RecvAppendReply, ApplyAll,
         RequestVoteAsserts, AppendEntriesAsserts, AppendReplyAsserts, NoNullRead;
    Applies(e);
    One(Beat);
    Acts(A4(e), B2(e), Net(6, e), PeriodicAt(A, 0, 0, false), A5(e), B2(e), {Beat});
    assert Net(6, e) + {Beat} == Net(7, e);
  }

  lemma Moment8(e: Entry)
    requires e.term == 1
    ensures Next(Moment(7, e), Moment(8, e))
  {
    hide Periodic, RecvEntry, RecvRequestVote, RecvVoteReply, RecvAppendEntries, RecvAppendReply, ApplyAll,
         RequestVoteAsserts, AppendEntriesAsserts, AppendReplyAsserts, NoNullRead;
    Learns(e);
    assert Cut(Beat.msg, 0) == Beat.msg;
    Acts(A5(e), B2(e), Net(7, e), Deliver(Beat, 0, 0, false, 0), A5(e), B3(e), {Agrees});
    assert Net(7, e) + {Agrees} == Net(8, e);
  }

  lemma Moment9(e: Entry)
    ensures Next(Moment(8, e), Moment(9, e))
  {
    hide Periodic, RecvEntry, RecvRequestVote, RecvVoteReply, RecvAppendEntries, RecvAppendReply, ApplyAll,
         RequestVoteAsserts, AppendEntriesAsserts, AppendReplyAsserts, NoNullRead;
    Follows(e);
    One(Beat);
    Acts(A5(e), B3(e), Net(8, e), ApplyAllAt(B, 1), A5(e), B4(e), {});
    assert Net(8, e) + {} == Net(9, e);
  }

  lemma StartsInitial(e: Entry)
    ensures Initial({A, B}, Moment(0, e))
  {
    BothVote(Fresh);
    hide VotingIds, Supporters, Holders, Find;
  }

  lemma EndsApplied(e: Entry)
    requires e.term == 1
    ensures Moment(9, e).servers == map[A := A5(e), B := B4(e)]
    ensures ResponseCommitted(A5(e), EntryResponse(e.id, 1, 1)) == 1
  {
  }

  /** There is a run in which a client's entry is committed, reported so, and applied by every
      server: what the safety theorems forbid to differ does get applied. */
  lemma EntryGetsThrough(e: Entry) returns (run: seq<Cluster>, a: Server, b: Server)
    requires !IsCfgChange(e) && e.term == 1
    ensures IsRun({A, B}, run) && run[|run| - 1].servers == map[A := a, B := b]
    ensures run[|run| - 1] == Moment(9, e)
    ensures a.fed == b.fed == [Handed(e, 0)] && ResponseCommitted(a, EntryResponse(e.id, 1, 1)) == 1
  {
    hide Next, Moment, Initial, ResponseCommitted;
    run := seq(10, k requires 0 <= k < 10 => Moment(k, e));
    a, b := A5(e), B4(e);
    StartsInitial(e);
    EndsApplied(e);
    forall k | 0 <= k < 9 ensures Next(run[k], run[k + 1]) {
      match k
      case 0 => Moment1(e);
      case 1 => Moment2(e);
      case 2 => Moment3(e);
      case 3 => Moment4(e);
      case 4 => Moment5(e);
      case 5 => Moment6(e);
      case 6 => Moment7(e);
      case 7 => Moment8(e);
      case 8 => Moment9(e);
    }
  }

  // ----- Two more entries -----

  function A6(e: Entry, f: Entry): Server { A5(e).(log := [e, f]) }

  function A7(e: Entry, f: Entry): Server { A6(e, f).(commit := 2, peers := [Known(A, 1, 0, false), Known(B, 3, 2, true)]) }

  function A8(e: Entry, f: Entry, g: Entry): Server { A7(e, f).(log := [e, f, g], gone := 1) }

  function A9(e: Entry, f: Entry, g: Entry): Server {
    A8(e, f, g).(commit := 3, peers := [Known(A, 1, 0, false), Known(B, 4, 3, true)])
  }

  function A10(e: Entry, f: Entry, g: Entry): Server { A9(e, f, g).(applied := 2, fed := [Handed(e, 0), Handed(f, 1)]) }

  function B5(e: Entry, f: Entry): Server { B4(e).(log := [e, f]) }

  function B6(e: Entry, f: Entry, g: Entry): Server { B5(e, f).(log := [e, f, g], gone := 1, commit := 2) }

  function B7(e: Entry, f: Entry, g: Entry): Server { B6(e, f, g).(commit := 3) }

  function B8(e: Entry, f: Entry, g: Entry): Server {
    B7(e, f, g).(applied := 3, fed := [Handed(e, 0), Handed(f, 1), Handed(g, 2)])
  }

  function Carry2(f: Entry): Packet { Packet(A, B, AppendEntries(1, 1, 1, 1, 1, [f])) }

  function Carry3(g: Entry): Packet { Packet(A, B, AppendEntries(1, 2, 1, 2, 1, [g])) }

  const Took2 := Packet(B, A, AppendReply(1, true, 2, 2))
  const Took3 := Packet(B, A, AppendReply(1, true, 3, 3))
  const Beat3 := Packet(A, B, AppendEntries(1, 3, 1, 3, 0, []))
  const Agrees3 := Packet(B, A, AppendReply(1, true, 3, 4))

  lemma TakesSecond(e: Entry, f: Entry)
    requires e.term == f.term == 1
    ensures NextPositive(A5(e).peers) && RecvEntry(A5(e), f) == Effect(A6(e, f), [Carry2(f)], 0)
  {
    hide RecvEntry;
    PairTakes(A5(e), f);
    assert A5(e).log + [f] == [e, f] && [e, f][1..] == [f];
  }

  lemma StoresSecond(e: Entry, f: Entry)
    requires e.term == f.term == 1
    ensures NoNullRead(B4(e), Carry2(f).msg) && AppendEntriesAsserts(B4(e), Carry2(f).msg, 0)
    ensures RecvAppendEntries(B4(e), A, Carry2(f).msg, 0, 0) == Answer(B5(e, f), Took2.msg, 0)
  {
    assert B4(e).log + [f][0..1] == [e, f];
  }

  lemma CommitsSecond(e: Entry, f: Entry)
    requires e.term == f.term == 1
    ensures NextPositive(A6(e, f).peers) && AppendReplyAsserts(A6(e, f), B, Took2.msg)
    ensures RecvAppendReply(A6(e, f), B, Took2.msg, false, 0) == Effect(A7(e, f), [], 0)
  {
    BothVote(A6(e, f).peers);
    var p := Known(B, 3, 2, true);
    assert Acknowledged(A6(e, f), Known(B, 2, 1, true), Took2.msg, false) == p;
    assert Replace(A6(e, f).peers, p) == A7(e, f).peers;
    BothVote(A7(e, f).peers);
  }

  lemma TakesThird(e: Entry, f: Entry, g: Entry)
    requires e.term == f.term == g.term == 1
    ensures NextPositive(A7(e, f).peers) && RecvEntry(A7(e, f), g) == Effect(A8(e, f, g), [Carry3(g)], 0)
  {
    hide RecvEntry;
    PairTakes(A7(e, f), g);
    assert A7(e, f).log + [g] == [e, f, g] && [e, f, g][2..] == [g];
  }

  lemma StoresThird(e: Entry, f: Entry, g: Entry)
    requires e.term == f.term == g.term == 1
    ensures NoNullRead(B5(e, f), Carry3(g).msg) && AppendEntriesAsserts(B5(e, f), Carry3(g).msg, 0)
    ensures RecvAppendEntries(B5(e, f), A, Carry3(g).msg, 0, 0) == Answer(B6(e, f, g), Took3.msg, 0)
  {
    assert B5(e, f).log + [g][0..1] == [e, f, g];
  }

  lemma CommitsThird(e: Entry, f: Entry, g: Entry)
    requires e.term == f.term == g.term == 1
    ensures NextPositive(A8(e, f, g).peers) && AppendReplyAsserts(A8(e, f, g), B, Took3.msg)
    ensures RecvAppendReply(A8(e, f, g), B, Took3.msg, false, 0) == Effect(A9(e, f, g), [], 0)
  {
    BothVote(A8(e, f, g).peers);
    var p := Known(B, 4, 3, true);
    assert Acknowledged(A8(e, f, g), Known(B, 3, 2, true), Took3.msg, false) == p;
    assert Replace(A8(e, f, g).peers, p) == A9(e, f, g).peers;
    BothVote(A9(e, f, g).peers);
  }

  lemma AppliesSecond(e: Entry, f: Entry, g: Entry)
    requires e.term == f.term == g.term == 1
    ensures NextPositive(A9(e, f, g).peers) && Periodic(A9(e, f, g), 0, 0, false) == Effect(A10(e, f, g), [Beat3], 0)
  {
    BothVote(A9(e, f, g).peers);
    BeatsThird(e, f, g);
    assert ApplyEntry(A9(e, f, g), false) == Effect(A10(e, f, g), [], 0);
    assert [] + [Beat3] == [Beat3];
    hide VotingIds, Broadcast, SendAppendEntriesAll, ApplyEntry;
  }

  lemma BeatsThird(e: Entry, f: Entry, g: Entry)
    requires e.term == f.term == g.term == 1
    ensures NextPositive(A9(e, f, g).peers) && SendAppendEntriesAll(A9(e, f, g)) == Effect(A9(e, f, g), [Beat3], 0)
  {
    ToB(A9(e, f, g), Heartbeat);
  }

  lemma LearnsThird(e: Entry, f: Entry, g: Entry)
    requires e.term == f.term == g.term == 1
    ensures NoNullRead(B6(e, f, g), Beat3.msg) && AppendEntriesAsserts(B6(e, f, g), Beat3.msg, 0)
    ensures RecvAppendEntries(B6(e, f, g), A, Beat3.msg, 0, 0) == Answer(B7(e, f, g), Agrees3.msg, 0)
  {
    assert B6(e, f, g).log + [] == [e, f, g];
  }

  lemma FollowsThird(e: Entry, f: Entry, g: Entry)
    ensures ApplyAll(B7(e, f, g), 2) == Effect(B8(e, f, g), [], 0)
  {
    var s := ApplyEntry(B7(e, f, g), false).server;
    assert s == B7(e, f, g).(applied := 2, fed := [Handed(e, 0), Handed(f, 1)]);
    assert ApplyEntry(s, false) == Effect(B8(e, f, g), [], 0);
    assert ApplyAll(s, 1) == Effect(B8(e, f, g), [], 0);
  }

  function LaterNet(k: nat, e: Entry, f: Entry, g: Entry): set<Packet> {
    Net(9, e) + (if 1 <= k then {Carry2(f)} else {}) + (if 2 <= k then {Took2} else {}) +
    (if 4 <= k then {Carry3(g)} else {}) + (if 5 <= k then {Took3} else {}) +
    (if 7 <= k then {Beat3} else {}) + (if 8 <= k then {Agrees3} else {})
  }

  /** The moments after `Moment(9, e)`. */
  function Later(k: nat, e: Entry, f: Entry, g: Entry): Cluster {
    var a := if k < 1 then A5(e) else if k < 3 then A6(e, f) else if k < 4 then A7(e, f)
             else if k < 6 then A8(e, f, g) else if k < 7 then A9(e, f, g) else A10(e, f, g);
    var b := if k < 2 then B4(e) else if k < 5 then B5(e, f) else if k < 8 then B6(e, f, g)
             else if k < 9 then B7(e, f, g) else B8(e, f, g);
    Pair(a, b, LaterNet(k, e, f, g))
  }

  lemma Later1(e: Entry, f: Entry, g: Entry)
    requires AllPlain(e, f, g)
    ensures Next(Later(0, e, f, g), Later(1, e, f, g))
  {
    hide Periodic, RecvEntry, RecvRequestVote, RecvVoteReply, RecvAppendEntries, RecvAppendReply, ApplyAll,
         RequestVoteAsserts, AppendEntriesAsserts, AppendReplyAsserts, NoNullRead;
    TakesSecond(e, f);
    One(Carry2(f));
    Acts(A5(e), B4(e), LaterNet(0, e, f, g), ClientEntry(A, f), A6(e, f), B4(e), {Carry2(f)});
    assert LaterNet(0, e, f, g) + {Carry2(f)} == LaterNet(1, e, f, g);
  }

  lemma Later2(e: Entry, f: Entry, g: Entry)
    requires AllPlain(e, f, g)
    ensures Next(Later(1, e, f, g), Later(2, e, f, g))
  {
    hide Periodic, RecvEntry, RecvRequestVote, RecvVoteReply, RecvAppendEntries, RecvAppendReply, ApplyAll,
         RequestVoteAsserts, AppendEntriesAsserts, AppendReplyAsserts, NoNullRead;
    StoresSecond(e, f);
    assert Cut(Carry2(f).msg, 1) == Carry2(f).msg;
    Acts(A6(e, f), B4(e), LaterNet(1, e, f, g), Deliver(Carry2(f), 1, 0, false, 0), A6(e, f), B5(e, f), {Took2});
    assert LaterNet(1, e, f, g) + {Took2} == LaterNet(2, e, f, g);
  }

  lemma Later3(e: Entry, f: Entry, g: Entry)
    requires AllPlain(e, f, g)
    ensures Next(Later(2, e, f, g), Later(3, e, f, g))
  {
    hide Periodic, RecvEntry, RecvRequestVote, RecvVoteReply, RecvAppendEntries, RecvAppendReply, ApplyAll,
         RequestVoteAsserts, AppendEntriesAsserts, AppendReplyAsserts, NoNullRead;
    CommitsSecond(e, f);
    One(Took2);
    Acts(A6(e, f), B5(e, f), LaterNet(2, e, f, g), Deliver(Took2, 0, 0, false, 0), A7(e, f), B5(e, f), {});
    assert LaterNet(2, e, f, g) + {} == LaterNet(3, e, f, g);
  }

  lemma Later4(e: Entry, f: Entry, g: Entry)
    requires AllPlain(e, f, g)
    ensures Next(Later(3, e, f, g), Later(4, e, f, g))
  {
    hide Periodic, RecvEntry, RecvRequestVote, RecvVoteReply, RecvAppendEntries, RecvAppendReply, ApplyAll,
         RequestVoteAsserts, AppendEntriesAsserts, AppendReplyAsserts, NoNullRead;
    TakesThird(e, f, g);
    One(Carry3(g));
    Acts(A7(e, f), B5(e, f), LaterNet(3, e, f, g), ClientEntry(A, g), A8(e, f, g), B5(e, f), {Carry3(g)});
    assert LaterNet(3, e, f, g) + {Carry3(g)} == LaterNet(4, e, f, g);
  }

  lemma Later5(e: Entry, f: Entry, g: Entry)
    requires AllPlain(e, f, g)
    ensures Next(Later(4, e, f, g), Later(5, e, f, g))
  {
    hide Periodic, RecvEntry, RecvRequestVote, RecvVoteReply, RecvAppendEntries, RecvAppendReply, ApplyAll,
         RequestVoteAsserts, AppendEntriesAsserts, AppendReplyAsserts, NoNullRead;
    StoresThird(e, f, g);
    assert Cut(Carry3(g).msg, 1) == Carry3(g).msg;
    Acts(A8(e, f, g), B5(e, f), LaterNet(4, e, f, g), Deliver(Carry3(g), 1, 0, false, 0), A8(e, f, g), B6(e, f, g), {Took3});
    assert LaterNet(4, e, f, g) + {Took3} == LaterNet(5, e, f, g);
  }

  lemma Later6(e: Entry, f: Entry, g: Entry)
    requires AllPlain(e, f, g)
    ensures Next(Later(5, e, f, g), Later(6, e, f, g))
  {
    hide Periodic, RecvEntry, RecvRequestVote, RecvVoteReply, RecvAppendEntries, RecvAppendReply, ApplyAll,
         RequestVoteAsserts, AppendEntriesAsserts, AppendReplyAsserts, NoNullRead;
    CommitsThird(e, f, g);
    One(Took3);
    Acts(A8(e, f, g), B6(e, f, g), LaterNet(5, e, f, g), Deliver(Took3, 0, 0, false, 0), A9(e, f, g), B6(e, f, g), {});
    assert LaterNet(5, e, f, g) + {} == LaterNet(6, e, f, g);
  }

  lemma Later7(e: Entry, f: Entry, g: Entry)
    requires AllPlain(e, f, g)
    ensures Next(Later(6, e, f, g), Later(7, e, f, g))
  {
    hide Periodic, RecvEntry, RecvRequestVote, RecvVoteReply, RecvAppendEntries, RecvAppendReply, ApplyAll,
         RequestVoteAsserts, AppendEntriesAsserts, AppendReplyAsserts, NoNullRead;
    AppliesSecond(e, f, g);
    One(Beat3);
    Acts(A9(e, f, g), B6(e, f, g), LaterNet(6, e, f, g), PeriodicAt(A, 0, 0, false), A10(e, f, g), B6(e, f, g), {Beat3});
    assert LaterNet(6, e, f, g) + {Beat3} == LaterNet(7, e, f, g);
  }

  lemma Later8(e: Entry, f: Entry, g: Entry)
    requires AllPlain(e, f, g)
    ensures Next(Later(7, e, f, g), Later(8, e, f, g))
  {
    hide Periodic, RecvEntry, RecvRequestVote, RecvVoteReply, RecvAppendEntries, RecvAppendReply, ApplyAll,
         RequestVoteAsserts, AppendEntriesAsserts, AppendReplyAsserts, NoNullRead;
    LearnsThird(e, f, g);
    assert Cut(Beat3.msg, 0) == Beat3.msg;
    Acts(A10(e, f, g), B6(e, f, g), LaterNet(7, e, f, g), Deliver(Beat3, 0, 0, false, 0), A10(e, f, g), B7(e, f, g), {Agrees3});
    assert LaterNet(7, e, f, g) + {Agrees3} == LaterNet(8, e, f, g);
  }

  lemma Later9(e: Entry, f: Entry, g: Entry)
    requires AllPlain(e, f, g)
    ensures Next(Later(8, e, f, g), Later(9, e, f, g))
  {
    hide Periodic, RecvEntry, RecvRequestVote, RecvVoteReply, RecvAppendEntries, RecvAppendReply, ApplyAll,
         RequestVoteAsserts, AppendEntriesAsserts, AppendReplyAsserts, NoNullRead;
    FollowsThird(e, f, g);
    One(Beat3);
    Acts(A10(e, f, g), B7(e, f, g), LaterNet(8, e, f, g), ApplyAllAt(B, 2), A10(e, f, g), B8(e, f, g), {});
    assert LaterNet(8, e, f, g) + {} == LaterNet(9, e, f, g);
  }

  /** Three entries of the leader's term, none of which changes membership. */
  predicate AllPlain(e: Entry, f: Entry, g: Entry) {
    e.term == f.term == g.term == 1 && !IsCfgChange(e) && !IsCfgChange(f) && !IsCfgChange(g)
  }

  lemma LaterSteps(e: Entry, f: Entry, g: Entry, k: nat)
    requires AllPlain(e, f, g) && k < 9
    ensures Next(Later(k, e, f, g), Later(k + 1, e, f, g))
  {
    hide Next, Later;
    match k
    case 0 => Later1(e, f, g);
    case 1 => Later2(e, f, g);
    case 2 => Later3(e, f, g);
    case 3 => Later4(e, f, g);
    case 4 => Later5(e, f, g);
    case 5 => Later6(e, f, g);
    case 6 => Later7(e, f, g);
    case 7 => Later8(e, f, g);
    case 8 => Later9(e, f, g);
  }

  lemma Joins(m: set<NodeId>, run: seq<Cluster>, more: seq<Cluster>)
    requires IsRun(m, run) && more != [] && run[|run| - 1] == more[0]
    requires forall k :: 0 <= k < |more| - 1 ==> Next(more[k], more[k + 1])
    ensures IsRun(m, run + more[1..])
  {
    hide Initial, Next;
    var whole := run + more[1..];
    forall i | 0 <= i < |whole| - 1 ensures Next(whole[i], whole[i + 1]) {
      if i < |run| - 1 {
        assert Next(run[i], run[i + 1]);
      } else {
        var k := i - (|run| - 1);
        assert whole[i] == more[k] && Next(more[k], more[k + 1]);
      }
    }
  }

  lemma EndsDropped(e: Entry, f: Entry, g: Entry)
    requires AllPlain(e, f, g)
    ensures Later(9, e, f, g).servers == map[A := A10(e, f, g), B := B8(e, f, g)]
    ensures Later(0, e, f, g) == Moment(9, e) && Carry(e) in Later(9, e, f, g).net
    ensures ResponseCommitted(A10(e, f, g), EntryResponse(e.id, 1, 1)) == 0
    ensures !Anchored(B8(e, f, g), Carry(e).msg)
  {
  }

  /** The run of `EntryGetsThrough` goes on to one in which both lists have dropped that entry. The
      response is now reported not found, and on B the message that brought the entry is still under
      way, no longer anchored: the input of `HandlerLaws.LateFirstAppendCorrupts`. */
  lemma EntryDropped(e: Entry, f: Entry, g: Entry) returns (run: seq<Cluster>, at: nat, a: Server, b: Server)
    requires AllPlain(e, f, g)
    ensures IsRun({A, B}, run) && at < |run| && A in run[at].servers
    ensures ResponseCommitted(run[at].servers[A], EntryResponse(e.id, 1, 1)) == 1
    ensures run[|run| - 1].servers == map[A := a, B := b]
    ensures a.gone == 1 && ResponseCommitted(a, EntryResponse(e.id, 1, 1)) == 0
    ensures b.log == [e, f, g] && b.gone == 1 && b.capacity == 2 && b.commit == b.applied == 3 && b.role == Follower && b.term == 1
    ensures Carry(e) in run[|run| - 1].net && !Anchored(b, Carry(e).msg)
  {
    hide Next, Moment, Later, Initial, ResponseCommitted, Anchored;
    var first, a1, b1 := EntryGetsThrough(e);
    var more := seq(10, k requires 0 <= k < 10 => Later(k, e, f, g));
    EndsDropped(e, f, g);
    forall k | 0 <= k < 9 ensures Next(more[k], more[k + 1]) {
      LaterSteps(e, f, g, k);
    }
    Joins({A, B}, first, more);
    run, at := first + more[1..], |first| - 1;
    a, b := A10(e, f, g), B8(e, f, g);
  }
}
