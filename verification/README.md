# The Raft server, modelled and verified

A model of the Raft server in `src/raft_server.c`, its bounded log in `src/raft_log.c`, its peer
records in `src/raft_node.c` and the accessors in `src/raft_server_properties.c`. Check it with
`dafny verify dfyconfig.toml`, adding `--resource-limit 2000000`.

## What is modelled

**One server.** `RaftServer`, `Log` and `Node` are classes whose methods change their fields in
place, as the source does: loops over the node list, the two loops of `raft_recv_appendentries`, flag
bits in a word (each setter of `Node` changes one bit or one index and nothing else), a list of entries
over a block pool. Each handler is proved equal, in state, messages sent and return value, to a function
in `Handlers` that maps a `Server` value to its outcome (below: the value level). `Outcomes` says of each
of these functions what it does, for all states and inputs, in terms of the node list, the log and the
message alone, without naming its steps. Packets go to an `Outbox`; calls of `applylog`, with the index they are told, are collected in `fed`.

**The list.** The list has room for `capacity` entries; when it is full, appending drops the oldest. A
`Server` keeps the whole history in `log` and counts the dropped entries in `gone`; every lookup sees only
what the list still holds, and an index that was dropped counts as missing, as in the source. `LogModel`
relates list and history, `ListLoops` the two loops over the list, with deletion as the code has it, to
the loops on values.

**A cluster.** `RaftCluster` is a transition system whose steps are the handlers: a period passes, a
client submits an entry, committed entries are applied, or a packet is delivered. Packets are never removed
from the network, so any of them may be delivered late, repeatedly, out of order or never. Membership is
any fixed set of two or more voting servers, each with a list of any capacity. `IsRun` says what a run is;
the theorems of `Safety` and `RunProgress` hold of every run, often of two different moments of it, and
speak of the whole history of each server.

A step is one in which the handler finds in its list what it relies on (`ListSuffices`, `Backed`):

- a message that brings entries from index 1 on does not reach a server that has dropped entry 1 (`Anchored`);
- the entry before the first one of an outgoing AppendEntries, and that first one, are listed;
- the last entry is listed when a vote depends on it, and the acknowledged entry when the quorum rule does.

Where these fail the source reads through a null pointer or goes wrong as described below. While a list
has dropped nothing they always hold (`Safety.RoomSuffices`), and a list that never had more entries than it
has room for has dropped nothing (`Safety.NothingLost`). So below capacity every sequence of enabled steps is
a run (`Safety.BelowCapacityIsRun`), and of the longer ones those are covered that keep to these conditions.

**The proofs** rest on a history (`History`) that no handler reads: who was elected in each term, with
which log and by whom; how each leader's log grew; who voted, with which log; who acknowledged how much.
`Invariant` ties servers and packets to it, `ElectionSteps`, `ReplicationSteps` and `ClusterSteps` show
that every step keeps the invariant and that no assertion of a handler fails on the way, and `Safety`
draws the conclusions. `RunProgress` and `RunCommits` show the other side: every run can go on so that a
leader repairs a peer, a server wins an election, a majority commits what its leader appended with nobody
else acting, or periods alone apply what is committed. `SmallestRun` exhibits a run in which an entry is committed and applied
everywhere, and its continuation to one in which the lists have dropped it, so the theorems are not about
nothing.

**Deletion.** In the cluster a deletion is the documented one: the entry and all that follow go, or
nothing if the `log_pop` callback refuses. The source removes only the one entry; the two coincide exactly
when it is the last one (`LogModel.DeleteIsTruncateAtTail`). So of the source, the cluster theorems cover
the runs in which each deletion that succeeds is at the tail. In the application `log_pop` always refuses
(app/main.c:470-479), so this is no restriction for it; the capacity of 50 entries (src/raft_log.c:25) is,
since it appends without end. A callback that refuses has another price: a leader can repair a
peer's log if and only if nothing in the two logs conflicts (`RunProgress.LeaderRepairsExactly`).

**Chains.** The receiver follows links, so a message has a chain that may be shorter than its announced
count. The second loop stops at the end of the chain; the first does not look. `HandlerLaws.NullReadExactly`
says when that is harmless, and only such deliveries are steps. `HandlerLaws.CutChainReadsNull` is an input for
the other half: a retransmission that lost its links.

## Where code and documentation part

- A server that has dropped entry 1 takes a late AppendEntries that starts at index 1 for new: the check of
  the previous entry is skipped (src/raft_server.c:434), entry 1 is not found, and the old entries are
  appended again at the end. The leader's next entry of that term is then passed over, acknowledged and
  committed in their place, and a wrong entry is applied (`HandlerLaws.LateFirstAppendCorrupts`). The two loops
  agree with the full history exactly when this does not happen and no accepted deletion is inside the list
  (`ListLoops.LoopsMeetHistory`).
- A duplicate of an accepted AppendEntries has no effect exactly when its entries, with the one before them,
  fit in the list (`HandlerLaws.AppendTwice`).
- A leader that sends to a peer whose next index was dropped reads through a null pointer (src/raft_log.c:194;
  `LogModel.ReadsNullExactly`, `ListLoops.SendReadsNull`). A peer that does not answer is lost in this way as soon
  as its next entry no longer fits (`HandlerLaws.LaggingPeerLost`).
- If only the entry before was dropped, the leader tells term 0 for it (src/raft_server.c:885-888), and the
  peer may delete an entry it has acknowledged (`HandlerLaws.UnbackedAppendDeletes`). `AppendLaws.EdgeKeepsExactly`
  says when exactly such a message is harmless; the leader can tell from what it has committed
  (`AppendLaws.AcknowledgedKeptExactly`).
- When the list is full the oldest entry is dropped, though count and base stay (src/raft_log.c:130-136);
  the comment there says "youngest".
- `log_delete` removes one entry (src/raft_log.c:242-264), although include/raft_log.h:27-29 says "from this
  log onwards". After a deletion inside the list the next entry appended gets the index of an older one that
  is still listed (`LogModel.MiddleDeletionShadowsAppend`), and the handler answers success for an index at
  which the list has, but for equal entries, not what the leader sent (`ListLoops.InsideVouchesWrongly`).
- The follower bounds its commit index by its own last index (src/raft_server.c:500-506), not by the last
  new entry as in Figure 2 of the Raft paper. It is safe because the leader never announces more than its
  message covers (`Safety.SentCommitIsCovered`).
- A server that has voted for a candidate refuses the same candidate's repeated request
  (src/raft_server.c:534-536; `HandlerLaws.NoSecondGrant`). A lost reply can cost an election, never safety.
- A response reported committed is reported not found once its entry was dropped (`Safety.AnswerIsDurable`,
  reached in `SmallestRun.EntryDropped`).
- An entry that is dropped before it is applied stops applying for good (`Safety.StuckForever`).
- A nonzero `log_offer` leaves the entry linked but not counted (src/raft_log.c:145-161); the log is then no
  window of any history (`LogModel.AppendKeepsWindow`).
- `applylog` is told `last_applied_idx - 1` after the increment (src/raft_server.c:798-802), where
  include/raft.h:331 says the entry's index in the log; it is always one less (`Safety.ApplyDiscipline`).
- Popping a configuration entry does not always undo offering it: re-activating an inactive node is undone by
  removing it, and promoting an unknown node by leaving it listed. `Membership.PopUndoesOffer` says exactly
  when it does.

## Model

| member | source | states |
|---|---|---|
| Safety.ElectionSafety | src/raft_server.c:629-686 | over every run, two leaders of one term, at any two moments, are the same server |
| Safety.OneVotePerTerm | src/raft_server.c:556-619 | all granting replies a server ever sends in a term go to one candidate |
| Safety.TermsAndVotesKept | src/raft_server_properties.c:90-106 | a server's term never falls and within a term its vote stays |
| Safety.LeaderHintsAgree | src/raft_server_properties.c:143-150 | any two servers that name a leader for the same term name the same one, the one that leads if any does |
| Safety.LogMatching | src/raft_server.c:434-498 | over every run of steps whose lists suffice, two histories, at any two moments, with an entry of the same term at the same index are identical through that index |
| Safety.CommittedInLaterLeaders | src/raft_server.c:351-376 | over the same runs, what any server has ever committed is a prefix of the history of every leader of a later term |
| Safety.CommittedAgree | src/raft_server.c:500-506 | over the same runs, of any two committed prefixes, one is a prefix of the other |
| Safety.StateMachineSafety | src/raft_server.c:779-805 | over the same runs, of any two sequences of calls of the state machine, one is a prefix of the other, entries and told indices alike |
| Safety.ApplyDiscipline | src/raft_server.c:779-805 | entries 1, 2, 3, ... are handed over once each in order, never beyond the commit index, each told its index less one |
| Safety.CommittedStays | src/raft_server_properties.c:119-125 | the commit index never falls, what is below it never changes, what was applied stays a prefix |
| Safety.LeaderAppendsOnly | src/raft_server.c:688-747 | while a server leads a term its history is only extended |
| Safety.AnswerIsDurable | src/raft_server.c:1028-1039 | a response once reported committed is so ever after exactly while its entry is listed, then not found, never superseded; no server applies another entry at its index |
| Safety.AnswerNamesEntry | src/raft_server.c:688-747 | wherever a client's response is ever reported committed, the history has the client's entry at its index, and no server ever applies another there |
| Safety.SupersededIsFinal | src/raft_server.c:1028-1039 | once a server answers -1 for an index it has committed, no server at any moment answers 1 for that response or has applied an entry of its term there |
| Safety.NoAssertionFails | src/raft_server.c:278-514 | in every reachable state, no assertion of the handler run by any possible event fails |
| Safety.RoomSuffices | src/raft_log.c:123-163 | while a list has dropped nothing every enabled event is a step, if there is room for what it appends |
| Safety.NothingLost | src/raft_log.c:130-136 | a list that never had more entries than it has room for has dropped none |
| Safety.BelowCapacityIsRun | src/raft_log.c:123-163 | a sequence whose steps are only enabled, in which no log outgrows its list, is a run: no assertion fails on the way and every list suffices |
| Safety.StuckForever | src/raft_server.c:779-805 | over every run, a server whose list has dropped the next entry to apply never hands over anything again |
| Safety.QuorumSoundness | src/raft_server.c:330-376 | a leader's next and match indices are in bounds, and a peer in the leader's term agrees with it through its match index |
| Safety.CommitNeedsQuorum | src/raft_server.c:347-376 | whenever a leader's commit index moves, it is to an entry of its term, and a strict majority has appended the history through it, or has gone on to a later term |
| Safety.MajorityIsEnough | src/raft_server.c:347-376 | over every run, a leader that knows voters to hold its whole log, a majority with itself, and whose last entry is of its term, has committed it all |
| Safety.NobodyIsUnknown | src/raft_server.c:596-608 | no vote reply that is ever sent in a cluster of fixed membership says that the node is unknown |
| Safety.SentCommitIsCovered | src/raft_server.c:850-902 | every AppendEntries ever sent announces a commit index within the entries it covers |
| Safety.LateAppendIsHarmless | src/raft_server.c:387-514 | an anchored delivery at any time keeps whatever the receiver shares with any past history of that leader, and moves commit only within the prefix the reply vouches for |
| RunProgress.LeaderRepairsPeer | src/raft_server.c:308-336 | if `log_pop` accepts or nothing conflicts, every run can go on, by a heartbeat and at most as many exchanges as a peer's next index, or two more than its log is long, to one in which the peer has the leader's whole log and commit index, the leader knows, and all other servers are as before |
| RunProgress.LeaderRepairsExactly | src/raft_server.c:452-484 | a run can go on to such a one if and only if `log_pop` accepts on the peer or no index of both logs holds different terms |
| RunProgress.CandidateWins | src/raft_server.c:175-212 | every run can go on so that a server wins the next term with its log unchanged, if a majority is not ahead of its term and no more up to date |
| RunCommits.MajorityCommits | src/raft_server.c:330-376 | every run can go on so that a leader whose last entry is of its term commits its whole log while no server acts but it and a given set of voters, a majority with it, if it can repair these |
| RunCommits.PeriodsApplyAll | src/raft_server.c:224-265 | every run can go on by just as many periods on a server, of any role, as it has committed entries left, after which it has handed over its whole committed log |
| RunProgress.FailureLowersNextInRun | src/raft_server.c:308-328 | on every run, a failure reply of the term is ignored or lowers the sender's next index, with the match index kept |
| SmallestRun.EntryGetsThrough | src/raft_server.c:224-265 | there is a run in which a client's entry is committed, reported so and applied by both servers |
| SmallestRun.EntryDropped | src/raft_log.c:130-136 | there is a run in which a response reported committed is reported not found later, and a message is under way that is no longer anchored |
| History.UpToDateHasPrefix | src/raft_server.c:538-551 | the up-to-date test passes a committed prefix from voter to candidate |
| History.LeaderCompleteness | src/raft_server.c:521-554 | by induction on terms, what a quorum acknowledged in term t is in the log every later leader was elected with |
| History.SettledAgree | src/raft_server.c:351-376 | any two prefixes committed in any terms agree |
| ClusterSteps.EventStep | src/raft_server.c:224-619 | any possible event passes the assertions of its handler and has an outcome that keeps the invariant |
| ClusterSteps.NextInv | src/raft_server.c:224-747 | the invariant is inductive, no server's term, commit or applied index falls, and lists lose entries only when full |
| ElectionSteps.CountedQuorum | src/raft_server.c:985-1008 | counted votes that pass the majority test come from a majority that really voted, and the term has no other leader |
| ReplicationSteps.QuorumCommits | src/raft_server.c:354-375 | a count that passes the quorum rule is an acknowledgement by a majority of servers |
| HandlerLaws.MergeByIndex | src/raft_server.c:458-513 | for any state and message: accepted entries follow from the first missing or conflicting one, each at its index, or, if the message is not anchored, at the end |
| HandlerLaws.LoopsMeetHistoryExactly | src/raft_server.c:458-506 | over a list that may have dropped entries, the two loops do what they would over the full history if and only if the message is anchored |
| HandlerLaws.LateFirstAppendCorrupts | src/raft_server.c:434-498 | an input for the other half, up to the application of a wrong entry |
| HandlerLaws.LaggingPeerLost | src/raft_log.c:130-136 | a leader can still send to a silent peer after accepting entries if and only if the entries from its next index on fit in the list |
| HandlerLaws.UnbackedAppendDeletes | src/raft_server.c:879-889 | a message whose previous entry was dropped makes its receiver delete an entry it has acknowledged |
| AppendLaws.EdgeKeepsExactly | src/raft_server.c:879-889 | a message for a peer whose log agrees up to its next index keeps what the two logs share if and only if the entry before is listed, or `log_pop` refuses, or the entry at which the peer would delete is not shared |
| AppendLaws.AcknowledgedKeptExactly | src/raft_server.c:879-889 | the peer keeps the entries before its next index if and only if the leader still lists the last of them, or has committed it, or `log_pop` refuses |
| HandlerLaws.AppendTwice | src/raft_server.c:387-514 | handling an accepted AppendEntries again leaves state and reply as they are if and only if its entries fit in the list with the one before |
| HandlerLaws.NullReadExactly | src/raft_server.c:465-486 | when exactly the first loop stays inside a chain that is shorter than announced |
| HandlerLaws.CutChainReadsNull | src/raft_server.c:465-486 | an input for the other half: a retransmission whose links were cut |
| HandlerLaws.GrantedExactly | src/raft_server.c:521-554 | a vote is granted if and only if the server votes, has no vote left from that term, and its log is no more up to date |
| HandlerLaws.NoSecondGrant | src/raft_server.c:534-536 | after a grant no request of that term or an earlier one is granted, not even the same candidate's |
| HandlerLaws.ApplyAllReaches | src/raft_server.c:1041-1054 | applying all hands over the committed entries in order, up to the one that asks for a shutdown, or nothing if the next one was dropped |
| HandlerLaws.FailureLowersNext | src/raft_server.c:308-328 | a failure reply that is not ignored strictly lowers the sender's next index and leaves the other peers alone |
| Outcomes.ReplyWithoutNews | src/raft_server.c:278-331 | a reply of another term, an old one, or one with nothing new changes nothing, except that a higher term makes a leader step down |
| Outcomes.FailureBacksOff | src/raft_server.c:308-328 | after any other failure the next index is the one after the peer's last entry if the peer ends before the previous index, else one less, between 1 and the leader's last; the retry is the message for it, and nothing else changes |
| Outcomes.RetryMeetsPeer | src/raft_server.c:320-327 | what the jump is worth: the retry starts within the log of a peer that ends before the previous index, at its end if the leader's log is longer |
| Outcomes.SuccessCounts | src/raft_server.c:330-381 | after a success with news, next and match index follow it, a non-voting peer that lacks one entry at most is marked if the callback accepts, and the rest of the log is sent if it is listed |
| Outcomes.SuccessCommits | src/raft_server.c:347-376 | commit moves to the acknowledged index if and only if it was below, the entry there is of the leader's term, and the active voters that hold it, with the leader, are more than half of the active voters |
| Outcomes.VoteRequestAnswered | src/raft_server.c:556-619 | the whole answer and state: granted by the condition of the paper; otherwise unknown if and only if neither sender nor candidate is listed; a higher term is adopted either way |
| Outcomes.VoteReplyCounted | src/raft_server.c:629-672 | a candidate leads if and only if the active voters on record, with its own vote, are more than half of the active voters, and no more than there are; then every other active peer starts over and is sent a heartbeat |
| Outcomes.VoteReplyIgnored | src/raft_server.c:629-686 | any other vote reply changes nothing, but for a higher term, which a candidate adopts |
| Outcomes.EntryTaken | src/raft_server.c:688-747 | a leader appends under its term, a full list drops one entry, a sole voter commits at once; who is no leader refuses |
| Outcomes.ResponseNames | src/raft_server.c:738-741 | the response names the entry, the index at which the log has it, and its term |
| Outcomes.AppendHeard | src/raft_server.c:396-456 | term, vote, role, leader and timer after an AppendEntries that is not stale; it succeeds if and only if it starts the log, or the entry before it is listed with the told term |
| Outcomes.StaleAppendRefused | src/raft_server.c:417-424 | one of an earlier term is refused and changes nothing |
| Outcomes.AppendRefused | src/raft_server.c:434-456 | what a refusal deletes, from the previous entry on but above what the leader has committed, what it answers, and with which error |
| Outcomes.AppendSucceeds | src/raft_server.c:458-513 | what a success leaves of the list, where the commit index goes, and what is kept if `log_pop` refuses |
| Outcomes.EntriesGo | src/raft_server.c:452-484 | the log loses entries if and only if the index at which the handler deletes is listed and `log_pop` accepts, and none of the same term takes the place |
| Outcomes.PeriodTimes | src/raft_server.c:224-254 | when exactly a period makes a sole voter lead, a leader send heartbeats, or a voter among others stand for election, and the state after each |
| Outcomes.PeriodApplies | src/raft_server.c:256-264 | whatever the role, a period hands over the next entry if it is committed and listed, and passes on the request for a shutdown; else it hands over nothing and returns 0 |
| Outcomes.QuestionAnswered | src/raft_server.c:1028-1039 | -1 if and only if the list has an entry of another term at the index, 1 if and only if it has the response's and that is committed, 0 if and only if it has none, or the response's above the commit index |
| Outcomes.HeartbeatReaches | src/raft_server.c:904-925 | a packet is part of a heartbeat if and only if it is the message for another active peer |
| Outcomes.NewEntryReaches | src/raft_server.c:711-726 | a new entry is sent to exactly the other active voting peers that lack nothing else |
| Outcomes.CanvassReaches | src/raft_server.c:199-210 | the votes of exactly the other active voting peers are asked for, telling them where the log ends |
| Outcomes.BroadcastOnce | src/raft_server.c:904-925 | no peer is written to twice in one round, and nobody who is not listed |
| Outcomes.MessageCompletes | src/raft_server.c:850-902 | the entries of a message complete the log from the previous index on, whose term it tells if that is listed and else 0 |
| AppendLaws.MergeFollowsLeader | src/raft_server.c:458-513 | the two loops leave a log that agrees with the leader's through the replied index, and untouched or nothing beyond |
| AppendLaws.AppendFollowsLeader | src/raft_server.c:387-514 | the same for the whole handler, which on refusal only shortens the log |
| AppendLaws.AppendKeepsAgreed | src/raft_server.c:452-484 | no prefix shared with the leader is ever deleted |
| AppendLaws.AppendAssertsHold | src/raft_server.c:129-139 | deletion is above the commit index, and commit goes up within the log, to what the leader announced |
| Progress.RepairEnds | src/raft_server.c:308-345 | any leader and peer, inside a run or not, that have a prefix in common from whose end on both list their logs, end repaired within as many exchanges as the peer's next index, and as two more than its log is long, if `log_pop` accepts or nothing conflicts |
| Progress.RepairsExactly | src/raft_server.c:308-345 | some number of exchanges repairs the peer if and only if `log_pop` accepts or no index of both logs holds different terms |
| ListLoops.LoopsMeetHistory | src/raft_server.c:465-498 | the two loops over the list leave a window on what the full history would be, with the same reply, if and only if the message is anchored and no accepted deletion is inside |
| ListLoops.ReceivedLists | src/raft_server.c:432-513 | the rest of the handler over the list is the one on values if it deletes nothing but the last entry |
| ListLoops.InsideVouchesWrongly | src/raft_server.c:470-498 | after a deletion inside, the list has the leader's entry at the index the success reply names if and only if an older entry happens to equal it |
| ListLoops.SendReadsNull | src/raft_log.c:165-198 | building a message reads through a null pointer exactly if the peer's next index was dropped |
| LogModel.LookupInWindow | src/raft_log.c:200-223 | lookup agrees with the full history inside the window and finds nothing outside |
| LogModel.SuffixInWindow | src/raft_log.c:165-198 | from an index on, the list is the rest of the history, and the index difference is its length |
| LogModel.ReadsNullExactly | src/raft_log.c:177-194 | an index that is counted but not found, whose use is a null read, is exactly one that was dropped |
| LogModel.TooManyPushesReadNull | src/raft_log.c:123-198 | for every capacity, one entry more than fits makes the first index such a one |
| LogModel.AppendKeepsWindow | src/raft_log.c:123-163 | appending, with eviction, extends the history, exactly when `log_offer` accepts |
| LogModel.DeleteIsTruncateAtTail | src/raft_log.c:230-268 | deletion inside the window is the documented truncation, and keeps the window, if and only if the entry is the last |
| LogModel.TruncateKeepsWindow | include/raft_log.h:27-29 | the documented truncation keeps the window whatever the index |
| LogModel.MiddleDeletionShadowsAppend | src/raft_log.c:260-265 | after a deletion in the middle, the next entry appended cannot be looked up |
| LogModel.OpsKeepWindow | src/raft_log.c:123-268 | any sequence of appends and tail deletions keeps the list a window on the history of an unbounded log |
| Membership.PopUndoesOffer | src/raft_server.c:1071-1167 | popping a configuration entry undoes offering it if and only if the change is undoable, a condition on the list before |
| Membership.OfferLists | src/raft_server.c:1071-1119 | what offering does to each node: an unknown one is listed last, voting only if it is added to vote; of a known one a single flag changes |
| Membership.PopLists | src/raft_server.c:1121-1167 | what popping does: a node added as non-voting leaves the list, of any other a single flag changes |
| Membership.UndoablePops | src/raft_server.c:1121-1167 | an undoable change can be popped without failing an assertion |
| Membership.PopsRestoreMembership | src/raft_server.c:1071-1167 | for any sequence of changes, popping newest first restores ids and flags at every stage, with bookkeeping changing in between |
| RaftLog.Log.Append | src/raft_log.c:123-163 | in place: refines the append on values; the pool never runs dry |
| RaftLog.Log.GetAtIdx | src/raft_log.c:200-223 | the walk finds the entry the value level looks up |
| RaftLog.Log.GetFromIdx | src/raft_log.c:165-198 | the rest of the history from an index that was not dropped, and exactly its length |
| RaftLog.Log.DeleteAt | src/raft_log.c:230-268 | in place: refines the deletion on values |
| RaftLog.Log.Clear | src/raft_log.c:109-120 | all blocks are given back and the log is empty |
| RaftLog.Log.PeekTail | src/raft_log.c:296-304 | of a window, the last entry of the history with its index, if that is still listed; of any list, the element that ends it |
| RaftNode.Node.SetNextIdx | src/raft_node.c:70-75 | the next index never falls below 1; nothing else changes |
| RaftNode.Node.SetVoting | src/raft_node.c:104-117 | changes the voting bit and no other, given that it changes |
| ServerObject.RaftServer.constructor | src/raft_server.c:62-91 | the state of a new server with its own node added |
| ServerObject.RaftServer.GetNode | src/raft_server_properties.c:157-171 | finds the node of the id, or that there is none |
| ServerObject.RaftServer.NumVotingNodes | src/raft_server_properties.c:58-71 | the size of the set of active voting ids |
| ServerObject.RaftServer.NVotesForMe | src/raft_server.c:985-1008 | the number of supporters, with the own vote |
| ServerObject.RaftServer.GetEntry | src/raft_server.c:267-271 | the entry of the history at the index if it is still listed |
| ServerObject.RaftServer.BecomeCandidate | src/raft_server.c:175-212 | the whole new state, and a request to every active voting peer in list order |
| ServerObject.RaftServer.BecomeLeader | src/raft_server.c:152-173 | the loop that resets a peer and sends to it at once equals resetting all and then broadcasting |
| ServerObject.RaftServer.SendAppendEntries | src/raft_server.c:850-902 | the message for the peer's next index, if that was not dropped |
| ServerObject.RaftServer.SendAppendEntriesAll | src/raft_server.c:904-925 | a heartbeat to every active peer in list order |
| ServerObject.RaftServer.RecvRequestVote | src/raft_server.c:556-619 | new state and reply of the value level, which `VoteRequestAnswered` gives in full |
| ServerObject.RaftServer.RecvVoteReply | src/raft_server.c:629-686 | new state and packets of the value level; a shutdown exactly for a voting candidate that is leaving and is told it is unknown |
| ServerObject.RaftServer.RecvEntry | src/raft_server.c:688-747 | new state, packets and response of the value level, with or without room in the list |
| ServerObject.RaftServer.CountHolders | src/raft_server.c:357-370 | the number of peers holding the point, and the server itself |
| ServerObject.RaftServer.AdvanceCommit | src/raft_server.c:347-376 | the quorum rule of the value level: after a success reply, that of `SuccessCommits` |
| ServerObject.RaftServer.RecvAppendReply | src/raft_server.c:278-385 | new state and packets of the value level (`FailureBacksOff`, `SuccessCounts`, `SuccessCommits`), where logs count as sufficient if no voting change is in progress and the callback exists and accepts |
| ServerObject.RaftServer.MatchLoop | src/raft_server.c:465-486 | over any list, the first loop stops at the first missing or conflicting entry, and deletes a conflicting one |
| ServerObject.RaftServer.PickUpLoop | src/raft_server.c:488-513 | over any list, the second loop appends the rest of the chain; commit moves only if nothing is left |
| ServerObject.RaftServer.RecvAppendEntries | src/raft_server.c:387-514 | list, commit index and reply for any deletion; if only the last entry is deleted, new state and reply of the value level |
| ServerObject.RaftServer.ApplyEntry | src/raft_server.c:779-842 | the next committed entry is handed over if it is still listed |
| ServerObject.RaftServer.ApplyAll | src/raft_server.c:1041-1054 | the loop ends and hands over what the value level says |
| ServerObject.RaftServer.Periodic | src/raft_server.c:224-265 | time, timers and at most one application, as `PeriodTimes` and `PeriodApplies` say |
| ServerObject.RaftServer.MsgEntryResponseCommitted | src/raft_server.c:1028-1039 | 1, 0 or -1 exactly as `QuestionAnswered` says |
| ServerObject.RaftServer.AddNode | src/raft_server.c:927-958 | a new node is listed last, a non-voting one is promoted, a voting one is refused |
| ServerObject.RaftServer.AddNonVotingNode | src/raft_server.c:960-971 | an unknown node is listed as non-voting if a block is free, and otherwise nothing changes |
| ServerObject.RaftServer.RemoveNode | src/raft_server.c:973-983 | the node leaves the list, the others keep their places |
| ServerObject.RaftServer.OfferLog | src/raft_server.c:1071-1119 | refines offering on values, node by node that of `OfferLists` |
| ServerObject.RaftServer.PopLog | src/raft_server.c:1121-1167 | refines popping on values, node by node that of `PopLists` |

## Left out

- Safety.LogMatching: and the other theorems on runs, for steps in which the list suffices (`ListSuffices`, `Backed`); outside them the source crashes or, as `HandlerLaws.LateFirstAppendCorrupts` and `HandlerLaws.UnbackedAppendDeletes` show, the property fails.
- ServerObject.RaftServer.RecvAppendEntries: entries that change membership; a chain that the first loop leaves; after a deletion inside, what later handlers do on the list.
- ServerObject.RaftServer.RecvEntry: entries that change membership.
- ServerObject.RaftServer.SendAppendEntries: not for a peer whose next index was dropped, where the source reads through a null pointer.
- ServerObject.RaftServer.RecvRequestVote: not when the vote depends on a last entry that is not listed, where the source reads through a null pointer (src/raft_server.c:546).
- ServerObject.RaftServer.RecvAppendReply: the same for the acknowledged entry (src/raft_server.c:356) and the retry; whether a voting change is in progress, and what the callback for sufficient logs returns, are parameters, so it cannot call back into the server.
- ServerObject.RaftServer.RecvVoteReply: whether the server is leaving is a parameter; nothing in the library sets that status (src/raft_server.c:677, 824).
- ServerObject.RaftServer.ApplyEntry: what applying a committed configuration entry does to flags and the node list.
- ServerObject.RaftServer.RemoveNode: not the first element, because the source passes it to `list_remove` as if it were the list (src/raft_server.c:979), and not the server's own node.
- RaftLog.Log.GetFromIdx: for lists that are a window, and not for an index that was dropped, for which the source reads through a null pointer (src/raft_log.c:194).
- ListLoops.InsideVouchesWrongly: while there is room for the new entries, so that no old one is dropped on the way.
- LogModel.OpsKeepWindow: for `log_offer` accepting; what a refusal does is stated by `AppendKeepsWindow`.
- Progress.RepairEnds: leader and peer have a prefix in common, below the peer's next index, from whose end on both list their logs; lists that start later are not covered.
- RunProgress.LeaderRepairsPeer: the same, and the leader's messages for its other peers, which the heartbeat sends too, are built from listed entries.
- RunCommits.MajorityCommits: each voter of the majority can be repaired in that sense, so none of them is ahead of the leader's term.
- RunCommits.PeriodsApplyAll: the server still lists the entries it has to apply, no callback asks for a shutdown, and if it leads, what its heartbeats send is built from listed entries.
- Safety.NobodyIsUnknown: for the fixed membership of the cluster; `Outcomes.VoteRequestAnswered` covers any node list.
- Linked lists are sequences held in a field; links, aliasing of payload entries between messages and logs, and `memcpy` are not modelled.
- Membership changes inside the cluster, `voting_cfg_change_log_idx`, and the error for a second voting change.
- The single-voter shortcuts in the cluster, which need a cluster of one; the server object has them.
- External calls of `raft_become_leader`.
- Snapshots and compaction: the bodies are commented out; `base` and the snapshot fields stay 0.
- `raft_free`, `log_free`, `log_empty`, `raft_clear`: they leave list and counters out of step.
- Crash and restart; `persist_vote`, `persist_term`, the send callbacks and, in the handlers, `log_offer` return 0.
- The log line at src/raft_server.c:612-615, which reads the id of a node that may be NULL.
- Wrap-around of `int`: indices, terms and times are unbounded.
- Timing of elections and termination of whole runs: progress is stated as how a run can go on.
- app/main.c: packet layout, transport, processes and timers.
