/** The two loops of the AppendEntries handler over the list as it is: a counter and stored
    entries, with deletion removing one entry only. When they do what `Handlers.Merge` does on the
    full history, and what they do otherwise. */
module ListLoops {
  import opened RaftTypes
  import opened Handlers
  import opened HandlerLaws
  import opened LogModel

  datatype Outcome = Outcome(list: LogState, currentIdx: nat, err: int)

  /** Where the first loop stops: at a missing or conflicting entry, or at the end of the chain. */
  function FirstLoop(l: LogState, commit: nat, ae: Message, i: nat): (m: nat)
    requires ae.AppendEntries? && i <= ae.n && i <= |ae.entries|
    ensures i <= m <= ae.n && m <= |ae.entries|
    decreases ae.n - i
  {
    if i == ae.n || i == |ae.entries| then i
    else
      var existing := At(l, ae.prevIdx + 1 + i);
      if existing.None? || (existing.value.term != ae.entries[i].term && commit < ae.prevIdx + 1 + i) then i
      else FirstLoop(l, commit, ae, i + 1)
  }

  function SecondLoop(l: LogState, ae: Message, cap: Pos, i: nat): LogState
    requires ae.AppendEntries?
    decreases ae.n - i
  {
    if ae.n <= i || |ae.entries| <= i then l else SecondLoop(AppendTo(l, ae.entries[i], cap, 0).0, ae, cap, i + 1)
  }

  function Merged(l: LogState, commit: nat, ae: Message, cap: Pos, pop: int): Outcome
    requires ae.AppendEntries?
  {
    var m := FirstLoop(l, commit, ae, 0);
    var (l1, err) := if m < ae.n && At(l, ae.prevIdx + 1 + m).Some? then Delete(l, ae.prevIdx + 1 + m, pop) else (l, 0);
    if err != 0 then Outcome(l1, ae.prevIdx + m, err)
    else Outcome(SecondLoop(l1, ae, cap, m), ae.prevIdx + Min(ae.n, |ae.entries|), 0)
  }

  // ----- Over a window -----

  /** The list of server `s`: what it lists is the end of the log. */
  predicate Lists(l: LogState, s: Server) {
    Window(l, s.capacity, s.log) && First(l) == s.gone + 1
  }

  lemma ListedEntry(l: LogState, s: Server, idx: nat)
    requires Lists(l, s)
    ensures At(l, idx) == if HasEntry(s, idx) then Some(s.log[idx - 1]) else None
  {
    LookupInWindow(l, s.capacity, s.log, idx);
  }

  /** Building a message for a peer whose next index is counted reads through a null pointer exactly if
      that index was dropped. */
  lemma SendReadsNull(l: LogState, s: Server, p: Peer)
    requires Lists(l, s) && 1 <= p.nextIdx
    ensures ReadsNull(l, p.nextIdx) <==> !CanSend(s, p)
  {
    ReadsNullExactly(l, s.capacity, s.log, p.nextIdx);
  }

  lemma {:induction false} FirstLoopMatches(l: LogState, s: Server, ae: Message, i: nat)
    requires Lists(l, s) && ae.AppendEntries? && i <= ae.n && i <= |ae.entries|
    ensures FirstLoop(l, s.commit, ae, i) == MatchFrom(s, ae, i)
    decreases ae.n - i
  {
    hide Lists, At;
    ListedEntry(l, s, ae.prevIdx + 1 + i);
    if i < ae.n && Passes(s, ae, i) {
      FirstLoopMatches(l, s, ae, i + 1);
    }
  }

  lemma PushLists(l: LogState, s: Server, e: Entry)
    requires Lists(l, s)
    ensures Lists(AppendTo(l, e, s.capacity, 0).0, Grown(s, [e]))
  {
    AppendKeepsWindow(l, s.capacity, s.log, e, 0);
  }

  lemma {:induction false} SecondLoopGrows(l: LogState, s: Server, ae: Message, i: nat)
    requires Lists(l, s) && ae.AppendEntries? && i <= Min(ae.n, |ae.entries|)
    ensures Lists(SecondLoop(l, ae, s.capacity, i), Grown(s, ae.entries[i..Min(ae.n, |ae.entries|)]))
    decreases ae.n - i
  {
    var k := Min(ae.n, |ae.entries|);
    if i < k {
      PushLists(l, s, ae.entries[i]);
      SecondLoopGrows(AppendTo(l, ae.entries[i], s.capacity, 0).0, Grown(s, [ae.entries[i]]), ae, i + 1);
      assert s.log + [ae.entries[i]] + ae.entries[i + 1..k] == s.log + ae.entries[i..k];
    } else {
      assert s.log + ae.entries[i..k] == s.log;
    }
  }

  lemma TailDeleteLists(l: LogState, s: Server, pop: int)
    requires Lists(l, s) && HasEntry(s, |s.log|) && pop == 0
    ensures Lists(Delete(l, |s.log|, pop).0, DeleteFrom(s, |s.log|, pop).0) && Delete(l, |s.log|, pop).1 == 0
  {
    DeleteIsTruncateAtTail(l, s.capacity, s.log, |s.log|);
    PositionInWindow(l, s.capacity, s.log, |s.log|);
  }

  /** A conflict is met, the callback accepts, and the entry to delete is not the last one. */
  predicate DeletesInside(s: Server, ae: Message, pop: int)
    requires ae.AppendEntries?
  {
    EntryConflicts(s, ae) && pop == 0 && ae.prevIdx + Matched(s, ae) + 1 < |s.log|
  }

  lemma RefusedDelete(l: LogState, s: Server, idx: nat, pop: int)
    requires Lists(l, s) && HasEntry(s, idx) && pop != 0
    ensures Delete(l, idx, pop) == (l, pop)
  {
    PositionInWindow(l, s.capacity, s.log, idx);
  }

  lemma SameList(l: LogState, s: Server, s': Server)
    requires Lists(l, s) && s'.log == s.log && s'.gone == s.gone && s'.capacity == s.capacity
    ensures Lists(l, s')
  {
  }

  /** The second loop and the commit rule. */
  lemma PickUpLists(l: LogState, s: Server, ae: Message, m: nat)
    requires Lists(l, s) && ae.AppendEntries? && m <= ae.n && m <= |ae.entries|
    ensures var a := PickUp(s, ae, m);
      Lists(SecondLoop(l, ae, s.capacity, m), a.server) && a.reply.AppendReply?
      && a.reply.currentIdx == ae.prevIdx + Min(ae.n, |ae.entries|) && a.err == 0
  {
    hide Lists, SecondLoop, Grown;
    var k := Min(ae.n, |ae.entries|);
    SecondLoopGrows(l, s, ae, m);
    SameList(SecondLoop(l, ae, s.capacity, m), Grown(s, ae.entries[m..k]), PickUp(s, ae, m).server) by {
      GrownFields(s, ae.entries[m..k]);
    }
  }

  lemma GrownFields(s: Server, es: seq<Entry>)
    ensures Grown(s, es) == s.(log := Grown(s, es).log, gone := Grown(s, es).gone)
  {
  }

  /** Without a deletion inside, the loops over the list are those on values. */
  lemma MergedLists(l: LogState, s: Server, ae: Message, pop: int)
    requires Lists(l, s) && ae.AppendEntries? && PrevMatches(s, ae) && !DeletesInside(s, ae, pop)
    ensures var o := Merged(l, s.commit, ae, s.capacity, pop);
      var a := Merge(s, ae, pop);
      Lists(o.list, a.server) && a.reply.AppendReply? && o.currentIdx == a.reply.currentIdx && o.err == a.err
  {
    hide Passes, MatchFrom, FirstLoop, SecondLoop, Lists, Delete, At, PickUp;
    var m := Matched(s, ae);
    FirstLoopMatches(l, s, ae, 0);
    ListedEntry(l, s, ae.prevIdx + 1 + m);
    if EntryConflicts(s, ae) {
      if pop == 0 {
        TailDeleteLists(l, s, pop);
        PickUpLists(Delete(l, |s.log|, pop).0, DeleteFrom(s, |s.log|, pop).0, ae, m);
      } else {
        RefusedDelete(l, s, ae.prevIdx + 1 + m, pop);
      }
    } else {
      PickUpLists(l, s, ae, m);
    }
  }

  // ----- The whole handler over the list -----

  /** The last index as the commit rule takes it: at least 1. */
  function LastIndex(count: int): nat {
    if count < 1 then 1 else count
  }

  datatype Reception = Reception(list: LogState, commit: nat, reply: Message, err: int)

  /** What follows once the term and the leader are accepted: `raft_recv_appendentries` from the check
      of the previous entry on. */
  function Received(l: LogState, term: nat, commit: nat, ae: Message, cap: Pos, pop: int): Reception
    requires ae.AppendEntries? && 0 <= l.count
  {
    var prev := At(l, ae.prevIdx);
    if 0 < ae.prevIdx && prev.None? then Reception(l, commit, AppendReply(term, false, l.count, ae.prevIdx + 1), 0)
    else if 0 < ae.prevIdx && prev.value.term != ae.prevTerm then
      var (l1, err) := Delete(l, Max(ae.prevIdx, ae.leaderCommit + 1), pop);
      Reception(l1, commit, AppendReply(term, false, if l1.count < 0 then 0 else l1.count, ae.prevIdx + 1), err)
    else
      var o := Merged(l, commit, ae, cap, pop);
      var commit' := if o.err == 0 && ae.n <= |ae.entries| && commit < ae.leaderCommit
                     then Min(LastIndex(o.list.count), ae.leaderCommit) else commit;
      Reception(o.list, commit', AppendReply(term, true, o.currentIdx, ae.prevIdx + 1), o.err)
  }

  /** The reads and assertions of that part: the first loop stays inside the chain, a deletion is above
      the commit index, and the commit index does not go down or past the count. */
  predicate ListRuns(l: LogState, commit: nat, ae: Message, cap: Pos, pop: int)
    requires ae.AppendEntries?
  {
    var prev := At(l, ae.prevIdx);
    if 0 < ae.prevIdx && prev.None? then true
    else if 0 < ae.prevIdx && prev.value.term != ae.prevTerm then commit < Max(ae.prevIdx, ae.leaderCommit + 1)
    else
      var m := FirstLoop(l, commit, ae, 0);
      var o := Merged(l, commit, ae, cap, pop);
      && (m == ae.n || m < |ae.entries| || At(l, ae.prevIdx + 1 + m).None?)
      && (o.err == 0 && ae.n <= |ae.entries| && commit < ae.leaderCommit ==> 1 <= o.list.count && commit <= o.list.count)
  }

  /** If the handler deletes and the callback accepts, it deletes the last entry. */
  predicate TailDeletion(s: Server, ae: Message, pop: int)
    requires ae.AppendEntries?
  {
    var d := DeletionIdx(s, ae);
    pop == 0 && d.Some? && HasEntry(s, d.value) ==> d.value == |s.log|
  }

  lemma DeleteLists(l: LogState, s: Server, idx: nat, pop: int)
    requires Lists(l, s) && (pop == 0 && HasEntry(s, idx) ==> idx == |s.log|)
    ensures Lists(Delete(l, idx, pop).0, DeleteFrom(s, idx, pop).0) && Delete(l, idx, pop).1 == DeleteFrom(s, idx, pop).1
  {
    PositionInWindow(l, s.capacity, s.log, idx);
    if pop == 0 && HasEntry(s, idx) {
      TailDeleteLists(l, s, pop);
    }
  }

  lemma ListCount(l: LogState, s: Server)
    requires Lists(l, s)
    ensures l.count == |s.log| && WindowOK(s)
  {
  }

  lemma MergedCommit(s: Server, ae: Message, pop: int)
    requires ae.AppendEntries? && PrevMatches(s, ae)
    ensures var a := Merge(s, ae, pop);
      && a.reply.AppendReply?
      && a.reply == AppendReply(s.term, true, a.reply.currentIdx, ae.prevIdx + 1)
      && a.server.commit == (if a.err == 0 && ae.n <= |ae.entries| && s.commit < ae.leaderCommit
                             then Min(Max(|a.server.log|, 1), ae.leaderCommit) else s.commit)
  {
    hide Passes, MatchFrom;
  }

  /** If nothing but the last entry is deleted, the handler over the list is the one on values. */
  lemma ReceivedLists(l: LogState, s: Server, ae: Message, pop: int)
    requires Lists(l, s) && ae.AppendEntries? && s.term == ae.term && TailDeletion(s, ae, pop)
    ensures 0 <= l.count
    ensures var o := Received(l, s.term, s.commit, ae, s.capacity, pop);
      var a := Receive(s, ae, pop);
      Lists(o.list, a.server) && o.commit == a.server.commit && o.reply == a.reply && o.err == a.err
  {
    hide Lists, At, Delete, Matched, Merged, Merge, EntryConflicts;
    ListCount(l, s);
    ListedEntry(l, s, ae.prevIdx);
    if PrevMissing(s, ae) {
    } else if PrevConflicts(s, ae) {
      var idx := Max(ae.prevIdx, ae.leaderCommit + 1);
      DeleteLists(l, s, idx, pop);
      ListCount(Delete(l, idx, pop).0, DeleteFrom(s, idx, pop).0);
    } else {
      TailNotInside(s, ae, pop);
      MergedLists(l, s, ae, pop);
      MergedCommit(s, ae, pop);
      ListCount(Merged(l, s.commit, ae, s.capacity, pop).list, Merge(s, ae, pop).server);
    }
  }

  lemma TailNotInside(s: Server, ae: Message, pop: int)
    requires ae.AppendEntries? && s.term == ae.term && PrevMatches(s, ae) && TailDeletion(s, ae, pop)
    ensures !DeletesInside(s, ae, pop)
  {
    hide MatchFrom, Passes;
  }

  // ----- Against the full history -----

  lemma {:induction false} SecondLoopCounts(l: LogState, ae: Message, cap: Pos, i: nat)
    requires ae.AppendEntries? && i <= Min(ae.n, |ae.entries|)
    ensures SecondLoop(l, ae, cap, i).count == l.count + Min(ae.n, |ae.entries|) - i
    decreases ae.n - i
  {
    if i < Min(ae.n, |ae.entries|) {
      SecondLoopCounts(AppendTo(l, ae.entries[i], cap, 0).0, ae, cap, i + 1);
    }
  }

  /** What a deletion inside does to the list. */
  lemma InsideDelete(l: LogState, s: Server, ae: Message, pop: int)
    requires Lists(l, s) && ae.AppendEntries? && PrevMatches(s, ae) && DeletesInside(s, ae, pop)
    ensures var m := Matched(s, ae);
      var at := ae.prevIdx + m - s.gone;
      && 0 <= at < |l.chain|
      && Delete(l, ae.prevIdx + 1 + m, pop) == (LogState(|s.log| - 1, l.chain[..at] + l.chain[at + 1..]), 0)
      && Merged(l, s.commit, ae, s.capacity, pop) ==
           Outcome(SecondLoop(Delete(l, ae.prevIdx + 1 + m, pop).0, ae, s.capacity, m), ae.prevIdx + Min(ae.n, |ae.entries|), 0)
  {
    hide Passes, MatchFrom, FirstLoop, SecondLoop, Position, At;
    var idx := ae.prevIdx + 1 + Matched(s, ae);
    FirstLoopMatches(l, s, ae, 0);
    ListedEntry(l, s, idx);
    PositionInWindow(l, s.capacity, s.log, idx);
  }

  /** A deletion inside leaves a count that does not fit: it went down by one only. */
  lemma InsideCounts(l: LogState, s: Server, ae: Message, pop: int)
    requires Lists(l, s) && ae.AppendEntries? && PrevMatches(s, ae) && DeletesInside(s, ae, pop)
    ensures Merged(l, s.commit, ae, s.capacity, pop).list.count
      == |s.log| - 1 + Min(ae.n, |ae.entries|) - Matched(s, ae)
    ensures Merged(l, s.commit, ae, s.capacity, pop).err == 0
    ensures |Merge(s, ae, pop).server.log| == ae.prevIdx + Min(ae.n, |ae.entries|)
  {
    hide Passes, MatchFrom, Matched, Lists, Merged, Delete, SecondLoop;
    var m := Matched(s, ae);
    InsideDelete(l, s, ae, pop);
    SecondLoopCounts(Delete(l, ae.prevIdx + 1 + m, pop).0, ae, s.capacity, m);
    InsideMerge(s, ae, pop);
  }

  lemma InsideMerge(s: Server, ae: Message, pop: int)
    requires ae.AppendEntries? && PrevMatches(s, ae) && DeletesInside(s, ae, pop)
    ensures |Merge(s, ae, pop).server.log| == ae.prevIdx + Min(ae.n, |ae.entries|)
  {
    hide Passes, MatchFrom;
  }

  /** The list ends up as a window on what the full history would be, with the same reply and the same
      error, if and only if the message is anchored and no accepted deletion is inside. */
  lemma LoopsMeetHistory(l: LogState, s: Server, ae: Message, pop: int)
    requires Lists(l, s) && ae.AppendEntries? && s.term == ae.term && PrevMatches(s, ae)
    requires NoNullRead(Whole(s), ae)
    ensures var o := Merged(l, s.commit, ae, s.capacity, pop);
      var w := Merge(Whole(s), ae, pop);
      && w.reply.AppendReply?
      && ((Window(o.list, s.capacity, w.server.log) && o.currentIdx == w.reply.currentIdx && o.err == w.err)
          <==> (Anchored(s, ae) && !DeletesInside(s, ae, pop)))
  {
    hide Merged, Merge, Passes, MatchFrom, Matched, NoNullRead, Window, EntryConflicts, HasEntry, Anchored, Whole;
    ListCount(l, s);
    LoopsMeetHistoryExactly(s, ae, pop);
    KeptCapacity(s, ae, pop);
    WindowCount(Merged(l, s.commit, ae, s.capacity, pop).list, s.capacity, Merge(Whole(s), ae, pop).server.log);
    if DeletesInside(s, ae, pop) {
      InsideCounts(l, s, ae, pop);
      InsideAnchored(s, ae, pop);
    } else {
      MergedLists(l, s, ae, pop);
      MergedCommit(s, ae, pop);
      UnanchoredLonger(s, ae, pop);
      ListCount(Merged(l, s.commit, ae, s.capacity, pop).list, Merge(s, ae, pop).server);
    }
  }

  lemma WindowCount(l: LogState, cap: Pos, history: seq<Entry>)
    ensures Window(l, cap, history) ==> l.count == |history|
  {
  }

  lemma InsideAnchored(s: Server, ae: Message, pop: int)
    requires ae.AppendEntries? && PrevMatches(s, ae) && DeletesInside(s, ae, pop) && s.term == ae.term
    ensures Anchored(s, ae) && 0 < |s.log| - (ae.prevIdx + Matched(s, ae) + 1)
  {
  }

  lemma KeptCapacity(s: Server, ae: Message, pop: int)
    requires ae.AppendEntries? && PrevMatches(s, ae)
    ensures Merge(s, ae, pop).server.capacity == s.capacity
    ensures PrevMatches(Whole(s), ae) ==> Merge(Whole(s), ae, pop).reply.AppendReply?
  {
    hide Passes, MatchFrom;
  }

  lemma ListedRuns(l: LogState, s: Server, ae: Message, pop: int)
    requires Lists(l, s) && ae.AppendEntries? && s.term == ae.term && s.commit <= |s.log|
    requires NoNullRead(s, ae) && AppendEntriesAsserts(s, ae, pop)
    ensures ListRuns(l, s.commit, ae, s.capacity, pop)
  {
    hide Merged, Merge, Matched, FirstLoop, At, Lists, DeletesInside, NoNullRead, EntryConflicts;
    ListedEntry(l, s, ae.prevIdx);
    if PrevMatches(s, ae) {
      ListCount(l, s);
      LoopStays(l, s, ae);
      MergedCounts(l, s, ae, pop);
    }
  }

  lemma LoopStays(l: LogState, s: Server, ae: Message)
    requires Lists(l, s) && ae.AppendEntries? && s.term == ae.term && PrevMatches(s, ae) && NoNullRead(s, ae)
    ensures var m := FirstLoop(l, s.commit, ae, 0);
      m == ae.n || m < |ae.entries| || At(l, ae.prevIdx + 1 + m).None?
  {
    hide Passes, MatchFrom, FirstLoop, At, Lists;
    FirstLoopMatches(l, s, ae, 0);
    ListedEntry(l, s, ae.prevIdx + 1 + Matched(s, ae));
  }

  lemma MergedCounts(l: LogState, s: Server, ae: Message, pop: int)
    requires Lists(l, s) && ae.AppendEntries? && s.term == ae.term && s.commit <= |s.log| && PrevMatches(s, ae)
    requires NoNullRead(s, ae) && AppendEntriesAsserts(s, ae, pop)
    ensures var o := Merged(l, s.commit, ae, s.capacity, pop);
      o.err == 0 && ae.n <= |ae.entries| && s.commit < ae.leaderCommit ==> 1 <= o.list.count && s.commit <= o.list.count
  {
    hide Merged, Merge, Lists, MatchFrom, Passes;
    if DeletesInside(s, ae, pop) {
      InsideCounts(l, s, ae, pop);
    } else {
      MergedLists(l, s, ae, pop);
      MergedCommit(s, ae, pop);
      ListCount(Merged(l, s.commit, ae, s.capacity, pop).list, Merge(s, ae, pop).server);
    }
  }

  // ----- After a deletion inside -----

  function Fresh(ae: Message, count: int, i: nat, k: nat): (r: seq<Stored>)
    requires ae.AppendEntries? && i <= k <= |ae.entries|
    ensures |r| == k - i
    ensures forall t :: 0 <= t < k - i ==> r[t] == Stored(count + 1 + t, ae.entries[i + t])
  {
    seq(k - i, t requires 0 <= t < k - i => Stored(count + 1 + t, ae.entries[i + t]))
  }

  lemma {:induction false} SecondLoopChain(l: LogState, ae: Message, cap: Pos, i: nat)
    requires ae.AppendEntries? && i <= Min(ae.n, |ae.entries|) && |l.chain| + Min(ae.n, |ae.entries|) - i <= cap
    ensures SecondLoop(l, ae, cap, i).chain == l.chain + Fresh(ae, l.count, i, Min(ae.n, |ae.entries|))
    decreases ae.n - i
  {
    var k := Min(ae.n, |ae.entries|);
    if i < k {
      SecondLoopChain(AppendTo(l, ae.entries[i], cap, 0).0, ae, cap, i + 1);
    }
  }

  /** The list after a deletion inside that had room for the new entries: the indices after the
      deleted one are still there, and the new entries count on from the last but one. */
  lemma InsideChain(l: LogState, s: Server, ae: Message, pop: int)
    requires Lists(l, s) && ae.AppendEntries? && PrevMatches(s, ae) && DeletesInside(s, ae, pop)
    requires |l.chain| - 1 + Min(ae.n, |ae.entries|) - Matched(s, ae) <= s.capacity
    ensures var m := Matched(s, ae);
      var at := ae.prevIdx + m - s.gone;
      && 0 <= at < |l.chain|
      && Merged(l, s.commit, ae, s.capacity, pop).list.chain
         == l.chain[..at] + l.chain[at + 1..] + Fresh(ae, |s.log| - 1, m, Min(ae.n, |ae.entries|))
  {
    hide Passes, MatchFrom, Matched, Merged, Delete, SecondLoop, Lists;
    ListShape(l, s);
    var m := Matched(s, ae);
    InsideDelete(l, s, ae, pop);
    SecondLoopChain(Delete(l, ae.prevIdx + 1 + m, pop).0, ae, s.capacity, m);
  }

  /** What the list has at the index the success reply vouches for, after a deletion inside. */
  lemma InsideLookup(l: LogState, s: Server, ae: Message, pop: int)
    requires Lists(l, s) && ae.AppendEntries? && PrevMatches(s, ae) && DeletesInside(s, ae, pop)
    requires s.term <= ae.term && NoNullRead(s, ae)
    requires |l.chain| - 1 + Min(ae.n, |ae.entries|) - Matched(s, ae) <= s.capacity
    ensures var o := Merged(l, s.commit, ae, s.capacity, pop);
      var m, k := Matched(s, ae), Min(ae.n, |ae.entries|);
      var left := |s.log| - (ae.prevIdx + m + 1);
      && m < k && 0 < left && o.err == 0 && o.currentIdx == ae.prevIdx + k
      && At(o.list, o.currentIdx)
         == if k == m + 1 then None
            else if o.currentIdx <= |s.log| then Some(s.log[o.currentIdx - 1])
            else Some(ae.entries[k - 1 - left])
  {
    hide Merged, Passes, MatchFrom, Matched, NoNullRead, At, Position, PrevMatches, Lists, Window, EntryConflicts;
    var o := Merged(l, s.commit, ae, s.capacity, pop);
    var m, k := Matched(s, ae), Min(ae.n, |ae.entries|);
    ListShape(l, s);
    InsideCounts(l, s, ae, pop);
    InsideChain(l, s, ae, pop);
    InsideReply(l, s, ae, pop);
    SplicedAt(o.list, l.chain, s.gone + 1, ae.prevIdx + m - s.gone, Fresh(ae, |s.log| - 1, m, k), ae.prevIdx + k);
  }

  lemma ListShape(l: LogState, s: Server)
    requires Lists(l, s)
    ensures l.count == |s.log| && |l.chain| == |s.log| - s.gone
    ensures forall j :: 0 <= j < |l.chain| ==> l.chain[j] == Stored(s.gone + 1 + j, s.log[s.gone + j])
  {
  }

  lemma SplicedAt(l: LogState, was: seq<Stored>, first: nat, at: nat, more: seq<Stored>, x: nat)
    requires forall j :: 0 <= j < |was| ==> was[j].idx == first + j
    requires at < |was| - 1 && first + at <= x < first + |was| - 1 + |more|
    requires forall t :: 0 <= t < |more| ==> more[t].idx == first + |was| - 1 + t
    requires l.chain == was[..at] + was[at + 1..] + more && 1 <= x <= l.count
    ensures At(l, x) == if x == first + at then None
                        else if x < first + |was| then Some(was[x - first].entry) else Some(more[x - first - |was| + 1].entry)
  {
    SplicedLookup(was, first, at, more, x);
    hide Position;
  }

  lemma InsideReply(l: LogState, s: Server, ae: Message, pop: int)
    requires Lists(l, s) && ae.AppendEntries? && PrevMatches(s, ae) && DeletesInside(s, ae, pop)
    requires s.term <= ae.term && NoNullRead(s, ae)
    ensures Merged(l, s.commit, ae, s.capacity, pop).currentIdx == ae.prevIdx + Min(ae.n, |ae.entries|)
    ensures Matched(s, ae) < Min(ae.n, |ae.entries|)
  {
    InsideCounts(l, s, ae, pop);
    FirstLoopMatches(l, s, ae, 0);
    hide Passes, MatchFrom, FirstLoop, SecondLoop, Delete, At;
  }

  /** A run of indices from `first` on without the one at position `at`, and then a run that starts
      again at the last index of the first: where an index is found. */
  lemma SplicedLookup(was: seq<Stored>, first: nat, at: nat, more: seq<Stored>, x: nat)
    requires forall j :: 0 <= j < |was| ==> was[j].idx == first + j
    requires at < |was| - 1 && first + at <= x < first + |was| - 1 + |more|
    requires forall t :: 0 <= t < |more| ==> more[t].idx == first + |was| - 1 + t
    ensures var c := was[..at] + was[at + 1..] + more;
      Position(c, x) == if x == first + at then None else Some(x - first - if x < first + |was| then 1 else 0)
  {
    hide Position;
    var c := was[..at] + was[at + 1..] + more;
    assert forall j :: 0 <= j < |c| ==>
      c[j].idx == if j < at then first + j else if j < |was| - 1 then first + j + 1 else first + j;
    if x != first + at {
      FirstAt(c, x, x - first - if x < first + |was| then 1 else 0);
    } else {
      NowhereAt(c, x);
    }
  }

  lemma NowhereAt(chain: seq<Stored>, idx: nat)
    requires forall j :: 0 <= j < |chain| ==> chain[j].idx != idx
    ensures Position(chain, idx) == None
  {
  }

  lemma FirstAt(chain: seq<Stored>, idx: nat, p: nat)
    requires p < |chain| && chain[p].idx == idx && forall j :: 0 <= j < p ==> chain[j].idx != idx
    ensures Position(chain, idx) == Some(p)
  {
  }

  /** The handler answers success and names an index. After a deletion inside, the entry the list has
      there is the one the leader sent for it if and only if more than one entry was appended and an
      older entry happens to equal it: one of the log before, or one sent for an earlier index. */
  lemma InsideVouchesWrongly(l: LogState, s: Server, ae: Message, pop: int)
    requires Lists(l, s) && ae.AppendEntries? && PrevMatches(s, ae) && DeletesInside(s, ae, pop)
    requires s.term <= ae.term && NoNullRead(s, ae)
    requires |l.chain| - 1 + Min(ae.n, |ae.entries|) - Matched(s, ae) <= s.capacity
    ensures var o := Merged(l, s.commit, ae, s.capacity, pop);
      var m, k := Matched(s, ae), Min(ae.n, |ae.entries|);
      var left := |s.log| - (ae.prevIdx + m + 1);
      && m < k && 0 < left
      && (At(o.list, o.currentIdx) == Some(ae.entries[k - 1]) <==>
            && m + 1 < k
            && (if o.currentIdx <= |s.log| then s.log[o.currentIdx - 1] else ae.entries[k - 1 - left]) == ae.entries[k - 1])
  {
    InsideLookup(l, s, ae, pop);
    hide Merged, Passes, MatchFrom, Position, NoNullRead;
  }
}
