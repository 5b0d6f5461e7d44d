/** The log object: a list of entries over a pool of `capacity` blocks. */
module RaftLog {
  import opened RaftTypes
  import opened LogModel

  class Log {
    const capacity: Pos
    var entries: seq<Stored>
    var count: int
    var base: nat
    var used: nat

    ghost function State(): LogState
      reads this
    {
      LogState(count, entries)
    }

    /** Every block in use holds one list element. */
    ghost predicate Valid()
      reads this
    {
      base == 0 && used == |entries| <= capacity
    }

    constructor (capacity: Pos)
      ensures Valid() && State() == EmptyLog && this.capacity == capacity
    {
      this.capacity := capacity;
      entries, count, base, used := [], 0, 0, 0;
    }

    /** Returns 0, or what `log_offer` returned. The pool never runs dry. */
    method Append(e: Entry, offer: int) returns (err: int)
      requires Valid()
      modifies this
      ensures Valid()
      ensures (State(), err) == AppendTo(old(State()), e, capacity, offer)
    {
      var idx := base + count + 1;
      if |entries| == capacity {
        entries := entries[1..];
        used := used - 1;
      }
      if used == capacity {
        err := 1;
        assert false;
      } else {
        used := used + 1;
        entries := entries + [Stored(idx, e)];
        if offer != 0 {
          return offer;
        }
        count := count + 1;
        err := 0;
      }
    }

    method GetAtIdx(idx: nat) returns (r: Option<Entry>)
      requires Valid()
      ensures r == At(State(), idx)
    {
      if idx == 0 || idx <= base || base + count < idx {
        return None;
      }
      for i := 0 to |entries|
        invariant forall j :: 0 <= j < i ==> entries[j].idx != idx
      {
        if entries[i].idx == idx {
          assert Position(entries, idx) == Some(i);
          return Some(entries[i].entry);
        }
      }
      r := None;
    }

    /** The chain from `idx` on and the number of entries announced for it: of a window, the rest of
        the history. The entry of a counted index must not have been dropped. */
    method GetFromIdx(idx: nat, ghost history: seq<Entry>) returns (chain: seq<Stored>, n: int)
      requires Valid() && Window(State(), capacity, history)
      requires 1 <= idx && (idx <= count ==> First(State()) <= idx)
      ensures n == |chain| == if idx <= |history| then |history| - idx + 1 else 0
      ensures forall j :: 0 <= j < |chain| ==> chain[j] == Stored(idx + j, history[idx - 1 + j])
    {
      if base + count < idx || idx < base {
        return [], 0;
      }
      SuffixInWindow(State(), capacity, history, idx);
      var i := 0;
      while entries[i].idx != idx
        invariant 0 <= i <= Position(entries, idx).value
        decreases |entries| - i
      {
        i := i + 1;
      }
      assert i == Position(entries, idx).value;
      var last := entries[|entries| - 1];
      return entries[i..], last.idx - entries[i].idx + 1;
    }

    /** `pop`: the return value of the `log_pop` callback, if it is called. */
    method DeleteAt(idx: nat, pop: int) returns (err: int)
      requires Valid()
      modifies this
      ensures Valid()
      ensures (State(), err) == Delete(old(State()), idx, pop)
    {
      if idx == 0 {
        return -1;
      }
      var target := if idx < base then base else idx;
      var i := 0;
      while i < |entries| && entries[i].idx != target
        invariant 0 <= i <= |entries|
        invariant forall j :: 0 <= j < i ==> entries[j].idx != target
      {
        i := i + 1;
      }
      if i == |entries| {
        return -1;
      }
      assert Position(entries, target) == Some(i);
      if pop != 0 {
        return pop;
      }
      count := count - 1;
      entries := entries[..i] + entries[i + 1..];
      used := used - 1;
      err := 0;
    }

    method Clear()
      requires Valid()
      modifies this
      ensures Valid() && State() == EmptyLog
    {
      while |entries| != 0
        invariant used == |entries| <= capacity
      {
        entries := entries[1..];
        used := used - 1;
      }
      count, base := 0, 0;
    }

    /** Of a window, the last entry of the history with its index, if that is still listed. Of any
        list, the element that no other follows, unless the counter says there is none. */
    method PeekTail(ghost history: seq<Entry>) returns (r: Option<Stored>)
      requires Valid()
      ensures Window(State(), capacity, history) ==>
        r == if First(State()) <= |history| then Some(Stored(|history|, history[|history| - 1])) else None
      ensures r.Some? ==> exists rest :: entries == rest + [r.value]
      ensures r.None? <==> count == 0 || entries == []
    {
      if count == 0 || |entries| == 0 {
        return None;
      }
      assert entries == entries[..|entries| - 1] + [entries[|entries| - 1]];
      r := Some(entries[|entries| - 1]);
    }

    function CurrentIdx(): int
      reads this
    {
      count + base
    }
  }
}
