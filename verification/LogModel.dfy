/** The log as the source keeps it: a counter and a bounded list of entries that carry their
    own index. When the list is full the oldest entry is dropped, so the list is a window on
    the full history of appended entries. */
module LogModel {
  import opened RaftTypes

  datatype Stored = Stored(idx: int, entry: Entry)

  /** `base` of the source is 0 throughout: nothing in it sets another value. */
  datatype LogState = LogState(count: int, chain: seq<Stored>)

  const EmptyLog := LogState(0, [])

  // ----- The operations -----

  /** The position of the first list element with the given index. */
  function Position(chain: seq<Stored>, idx: nat): (r: Option<nat>)
    ensures r.Some? ==> r.value < |chain| && chain[r.value].idx == idx
    ensures r.Some? ==> forall j :: 0 <= j < r.value ==> chain[j].idx != idx
    ensures r.None? ==> forall j :: 0 <= j < |chain| ==> chain[j].idx != idx
  {
    if chain == [] then None
    else if chain[0].idx == idx then Some(0)
    else
      var r := Position(chain[1..], idx);
      if r.Some? then Some(r.value + 1) else None
  }

  function At(l: LogState, idx: nat): Option<Entry> {
    if idx == 0 || l.count < idx then None
    else
      var r := Position(l.chain, idx);
      if r.Some? then Some(l.chain[r.value].entry) else None
  }

  /** `offer` is the return value of the `log_offer` callback: when it is not 0 the entry is
      already linked into the list, but not counted. */
  function AppendTo(l: LogState, e: Entry, cap: Pos, offer: int): (LogState, int) {
    var kept := if |l.chain| == cap then l.chain[1..] else l.chain;
    (LogState(if offer == 0 then l.count + 1 else l.count, kept + [Stored(l.count + 1, e)]), offer)
  }

  /** `pop` is the return value of the `log_pop` callback. Only the one entry goes. */
  function Delete(l: LogState, idx: nat, pop: int): (LogState, int) {
    var r := Position(l.chain, idx);
    if idx == 0 || r.None? then (l, -1)
    else if pop != 0 then (l, pop)
    else (LogState(l.count - 1, l.chain[..r.value] + l.chain[r.value + 1..]), 0)
  }

  /** What include/raft_log.h documents: all entries from `idx` onwards go. */
  function Truncate(l: LogState, idx: nat): LogState
    requires 1 <= idx
  {
    var r := Position(l.chain, idx);
    LogState(idx - 1, if r.Some? then l.chain[..r.value] else l.chain)
  }

  // ----- The window -----

  /** The list holds the last entries of `history`, with consecutive indices up to the count. */
  predicate Window(l: LogState, cap: Pos, history: seq<Entry>) {
    && l.count == |history|
    && |l.chain| <= cap && |l.chain| <= l.count
    && forall j :: 0 <= j < |l.chain| ==> l.chain[j] == Stored(First(l) + j, history[First(l) + j - 1])
  }

  /** The index of the oldest entry still in the list. */
  function First(l: LogState): int {
    l.count - |l.chain| + 1
  }

  lemma PositionInWindow(l: LogState, cap: Pos, history: seq<Entry>, idx: nat)
    requires Window(l, cap, history)
    ensures Position(l.chain, idx) == if First(l) <= idx <= l.count then Some(idx - First(l)) else None
  {
    if First(l) <= idx <= l.count {
      assert l.chain[idx - First(l)].idx == idx;
    }
    var r := Position(l.chain, idx);
    if r.Some? {
      assert l.chain[r.value].idx == First(l) + r.value;
    }
  }

  /** Lookup agrees with the full history inside the window and finds nothing outside. */
  lemma LookupInWindow(l: LogState, cap: Pos, history: seq<Entry>, idx: nat)
    requires Window(l, cap, history)
    ensures At(l, idx) == if First(l) <= idx <= l.count then Some(history[idx - 1]) else None
  {
    PositionInWindow(l, cap, history, idx);
  }

  /** From an index inside the window the list runs to the end of the history, and its length is
      the difference of the indices of its ends. */
  lemma SuffixInWindow(l: LogState, cap: Pos, history: seq<Entry>, idx: nat)
    requires Window(l, cap, history) && First(l) <= idx <= l.count
    ensures var r := Position(l.chain, idx);
      && r.Some?
      && var rest := l.chain[r.value..];
      && |rest| == l.chain[|l.chain| - 1].idx - idx + 1 == |history| - idx + 1
      && forall j :: 0 <= j < |rest| ==> rest[j] == Stored(idx + j, history[idx - 1..][j])
  {
    PositionInWindow(l, cap, history, idx);
  }

  /** The walk of `log_get_from_idx` finds no entry of an index that is counted. The source then
      reads the index of the entry it did not find, through a null pointer. */
  predicate ReadsNull(l: LogState, idx: nat) {
    idx <= l.count && Position(l.chain, idx).None?
  }

  /** That happens exactly for the indices whose entries were dropped. */
  lemma ReadsNullExactly(l: LogState, cap: Pos, history: seq<Entry>, idx: nat)
    requires Window(l, cap, history) && 1 <= idx
    ensures ReadsNull(l, idx) <==> idx < First(l)
  {
    PositionInWindow(l, cap, history, idx);
  }

  /** Appending extends the history, whether or not the oldest entry has to go. The window is
      kept exactly when the callback accepts the entry. */
  lemma AppendKeepsWindow(l: LogState, cap: Pos, history: seq<Entry>, e: Entry, offer: int)
    requires Window(l, cap, history)
    ensures offer == 0 ==> Window(AppendTo(l, e, cap, offer).0, cap, history + [e])
    ensures offer != 0 ==> forall h :: !Window(AppendTo(l, e, cap, offer).0, cap, h)
  {
    var l' := AppendTo(l, e, cap, offer).0;
    var last := |l'.chain| - 1;
    assert l'.chain[last].idx == l.count + 1;
    if offer != 0 {
      forall h ensures !Window(l', cap, h) {
        assert l'.chain[last].idx != l'.count;
      }
    }
  }

  /** Deletion inside the window, with `log_pop` accepting: it is the documented truncation, and
      it keeps the window, exactly when the deleted entry is the last one. */
  lemma DeleteIsTruncateAtTail(l: LogState, cap: Pos, history: seq<Entry>, idx: nat)
    requires Window(l, cap, history) && First(l) <= idx <= l.count
    ensures Delete(l, idx, 0).0 == Truncate(l, idx) <==> idx == l.count
    ensures (exists h :: Window(Delete(l, idx, 0).0, cap, h)) <==> idx == l.count
    ensures idx == l.count ==> Window(Delete(l, idx, 0).0, cap, history[..idx - 1])
  {
    PositionInWindow(l, cap, history, idx);
    var l' := Delete(l, idx, 0).0;
    var at := idx - First(l);
    if idx == l.count {
      assert l'.chain == l.chain[..at];
      assert Window(l', cap, history[..idx - 1]);
    } else {
      var last := |l.chain| - 2;
      assert l'.chain[last] == l.chain[last + 1];
      forall h ensures !Window(l', cap, h) {
        assert l'.chain[last].idx != l'.count;
      }
    }
  }

  /** Whatever the index: the documented truncation keeps the window. */
  lemma TruncateKeepsWindow(l: LogState, cap: Pos, history: seq<Entry>, idx: nat)
    requires Window(l, cap, history) && First(l) <= idx <= l.count
    ensures Window(Truncate(l, idx), cap, history[..idx - 1])
  {
    PositionInWindow(l, cap, history, idx);
  }

  /** A deletion that `log_pop` refuses, or of an index outside the window, changes nothing. */
  lemma DeleteRefused(l: LogState, cap: Pos, history: seq<Entry>, idx: nat, pop: int)
    requires Window(l, cap, history)
    requires pop != 0 || !(First(l) <= idx <= l.count)
    ensures Delete(l, idx, pop).0 == l && Delete(l, idx, pop).1 != 0
  {
    PositionInWindow(l, cap, history, idx);
  }

  /** What a deletion in the middle leads to: the next entry appended gets the index of an older
      entry that is still in the list, and looking that index up finds the older entry. */
  lemma MiddleDeletionShadowsAppend(l: LogState, cap: Pos, history: seq<Entry>, idx: nat, e: Entry)
    requires Window(l, cap, history) && First(l) <= idx < l.count
    ensures var l1 := Delete(l, idx, 0).0;
            var l2 := AppendTo(l1, e, cap, 0).0;
            l2.count == l.count && At(l2, l2.count) == Some(history[l.count - 1])
  {
    PositionInWindow(l, cap, history, idx);
    var l1 := Delete(l, idx, 0).0;
    var l2 := AppendTo(l1, e, cap, 0).0;
    var last := |l.chain| - 2;
    assert l1.chain[last] == l.chain[last + 1];
    assert l2.chain[last] == l.chain[last + 1];
    forall j | 0 <= j < last ensures l2.chain[j].idx != l.count {
      assert l2.chain[j] == if j < idx - First(l) then l.chain[j] else l.chain[j + 1];
    }
  }

  // ----- Whole sequences of operations -----

  datatype LogOp = Push(e: Entry) | DeleteAt(idx: nat, pop: int)

  /** An operation as the cluster uses it: a deletion that succeeds is at the tail. */
  predicate TailOp(l: LogState, op: LogOp) {
    op.DeleteAt? && op.pop == 0 && Position(l.chain, op.idx).Some? ==> op.idx == l.count
  }

  function Apply(l: LogState, cap: Pos, op: LogOp): LogState {
    match op
    case Push(e) => AppendTo(l, e, cap, 0).0
    case DeleteAt(idx, pop) => Delete(l, idx, pop).0
  }

  function ApplyOps(l: LogState, cap: Pos, ops: seq<LogOp>): LogState
    decreases |ops|
  {
    if ops == [] then l else ApplyOps(Apply(l, cap, ops[0]), cap, ops[1..])
  }

  predicate TailOps(l: LogState, cap: Pos, ops: seq<LogOp>)
    decreases |ops|
  {
    ops == [] || (TailOp(l, ops[0]) && TailOps(Apply(l, cap, ops[0]), cap, ops[1..]))
  }

  /** The history an unbounded log would hold after the same operations; `l` tells which
      deletions find their entry. */
  ghost function Replay(l: LogState, cap: Pos, history: seq<Entry>, ops: seq<LogOp>): seq<Entry>
    decreases |ops|
  {
    if ops == [] then history
    else
      var op := ops[0];
      var next :=
        if op.Push? then history + [op.e]
        else if history != [] && op.pop == 0 && Position(l.chain, op.idx).Some? then history[..|history| - 1]
        else history;
      Replay(Apply(l, cap, op), cap, next, ops[1..])
  }

  /** Under any sequence of appends, with eviction, and deletions at the tail, the list stays a
      window on the history of an unbounded log. */
  lemma {:induction false} OpsKeepWindow(l: LogState, cap: Pos, history: seq<Entry>, ops: seq<LogOp>)
    requires Window(l, cap, history) && TailOps(l, cap, ops)
    ensures Window(ApplyOps(l, cap, ops), cap, Replay(l, cap, history, ops))
    decreases |ops|
  {
    if ops != [] {
      var op := ops[0];
      match op
      case Push(e) =>
        AppendKeepsWindow(l, cap, history, e, 0);
        OpsKeepWindow(Apply(l, cap, op), cap, history + [e], ops[1..]);
      case DeleteAt(idx, pop) =>
        PositionInWindow(l, cap, history, idx);
        if pop == 0 && Position(l.chain, idx).Some? {
          DeleteIsTruncateAtTail(l, cap, history, idx);
          OpsKeepWindow(Apply(l, cap, op), cap, history[..|history| - 1], ops[1..]);
        } else {
          DeleteRefused(l, cap, history, idx, pop);
          OpsKeepWindow(l, cap, history, ops[1..]);
        }
    }
  }

  function Pushes(es: seq<Entry>): (r: seq<LogOp>)
    ensures |r| == |es|
  {
    seq(|es|, k requires 0 <= k < |es| => Push(es[k]))
  }

  lemma {:induction false} PushesReplay(l: LogState, cap: Pos, history: seq<Entry>, es: seq<Entry>)
    ensures TailOps(l, cap, Pushes(es)) && Replay(l, cap, history, Pushes(es)) == history + es
    decreases |es|
  {
    if es != [] {
      assert Pushes(es)[0] == Push(es[0]) && Pushes(es)[1..] == Pushes(es[1..]);
      PushesReplay(Apply(l, cap, Push(es[0])), cap, history + [es[0]], es[1..]);
      assert history + [es[0]] + es[1..] == history + es;
    } else {
      assert history + es == history;
    }
  }

  /** More entries than there is room for, and the first index can no longer be read from. */
  lemma TooManyPushesReadNull(cap: Pos, es: seq<Entry>)
    requires cap < |es|
    ensures ReadsNull(ApplyOps(EmptyLog, cap, Pushes(es)), 1)
  {
    PushesReplay(EmptyLog, cap, [], es);
    OpsKeepWindow(EmptyLog, cap, [], Pushes(es));
    ReadsNullExactly(ApplyOps(EmptyLog, cap, Pushes(es)), cap, [] + es, 1);
  }
}
