/** The values the Raft server works on: log entries, the four protocol messages,
    what a server knows of a peer, and the state of a server. */
module RaftTypes {

  datatype Option<+T> = None | Some(value: T)

  type NodeId = nat

  type Pos = n: int | 0 < n witness 1

  const ERR_NOT_LEADER := -2
  const ERR_SHUTDOWN := -4

  datatype LogType =
    | Normal
    | AddNonVotingNode
    | AddNode
    | DemoteNode
    | RemoveNode
    | Snapshot
    | User(code: nat)

  datatype Entry = Entry(term: nat, id: nat, kind: LogType, data: nat)

  predicate IsCfgChange(e: Entry) {
    e.kind == AddNode || e.kind == AddNonVotingNode || e.kind == DemoteNode || e.kind == RemoveNode
  }

  datatype Ballot = Granted | NotGranted | UnknownNode

  /** `entries` is the chain of entries the receiver can reach by following links;
      it may be shorter than the announced count `n`. */
  datatype Message =
    | RequestVote(term: nat, candidate: NodeId, lastIdx: nat, lastTerm: nat)
    | VoteReply(term: nat, ballot: Ballot)
    | AppendEntries(term: nat, prevIdx: nat, prevTerm: nat, leaderCommit: nat, n: nat, entries: seq<Entry>)
    | AppendReply(term: nat, success: bool, currentIdx: nat, firstIdx: nat)

  /** A message together with the two ids of its envelope. */
  datatype Packet = Packet(src: NodeId, dst: NodeId, msg: Message)

  /** What the client is told about the entry it submitted. */
  datatype EntryResponse = EntryResponse(id: nat, idx: nat, term: nat)

  /** One element of a server's node list. */
  datatype Peer = Peer(
    id: NodeId,
    nextIdx: nat,
    matchIdx: nat,
    votedForMe: bool,
    voting: bool,
    sufficientLogs: bool,
    active: bool,
    votingCommitted: bool,
    additionCommitted: bool)

  datatype Role = Follower | Candidate | Leader

  /** One call of the `applylog` callback: the entry and the index it is told. */
  datatype Handed = Handed(entry: Entry, idx: int)

  /** Calls with the given entries, in order, told 0, 1, 2, ... */
  function HandedOver(es: seq<Entry>): (r: seq<Handed>)
    ensures |r| == |es|
    ensures forall k :: 0 <= k < |es| ==> r[k] == Handed(es[k], k)
  {
    seq(|es|, k requires 0 <= k < |es| => Handed(es[k], k))
  }

  /** The state of one server. `log` is the history of entries appended and not deleted, with
      `log[i]` the entry of index `i + 1`. The first `gone` of them are no longer in the list,
      which has room for `capacity`. `fed` lists the calls of `applylog` so far. */
  datatype Server = Server(
    id: NodeId,
    term: nat,
    votedFor: Option<NodeId>,
    role: Role,
    leader: Option<NodeId>,
    log: seq<Entry>,
    gone: nat,
    capacity: Pos,
    commit: nat,
    applied: nat,
    fed: seq<Handed>,
    peers: seq<Peer>,
    elapsed: nat,
    electionTimeout: Pos,
    electionRand: nat,
    requestTimeout: nat)

  function Min(a: nat, b: nat): nat {
    if a < b then a else b
  }

  function Max(a: nat, b: nat): nat {
    if a < b then b else a
  }

  function LastTerm(log: seq<Entry>): nat {
    if log == [] then 0 else log[|log| - 1].term
  }
}
