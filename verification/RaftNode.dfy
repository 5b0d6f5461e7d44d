/** A peer object: replication indices and a word of flag bits, changed in place. */
module RaftNode {
  import opened RaftTypes

  const VOTED_FOR_ME: bv8 := 1
  const VOTING: bv8 := 2
  const HAS_SUFFICIENT_LOG: bv8 := 4
  const INACTIVE: bv8 := 8
  const VOTING_COMMITTED: bv8 := 16
  const ADDITION_COMMITTED: bv8 := 32

  predicate Bit(flags: bv8, mask: bv8) {
    flags & mask != 0
  }

  class Node {
    var nextIdx: nat
    var matchIdx: nat
    var flags: bv8
    const id: NodeId

    /** The peer this object stands for. */
    function View(): Peer
      reads this
    {
      Peer(id, nextIdx, matchIdx, Bit(flags, VOTED_FOR_ME), Bit(flags, VOTING), Bit(flags, HAS_SUFFICIENT_LOG),
           !Bit(flags, INACTIVE), Bit(flags, VOTING_COMMITTED), Bit(flags, ADDITION_COMMITTED))
    }

    constructor (id: NodeId)
      ensures View() == Peer(id, 1, 0, false, true, false, true, false, false)
    {
      this.id := id;
      nextIdx, matchIdx, flags := 1, 0, VOTING;
    }

    method SetNextIdx(idx: int)
      modifies this
      ensures View() == old(View()).(nextIdx := if idx < 1 then 1 else idx)
    {
      nextIdx := if idx < 1 then 1 else idx;
    }

    method SetMatchIdx(idx: nat)
      modifies this
      ensures View() == old(View()).(matchIdx := idx)
    {
      matchIdx := idx;
    }

    method VoteForMe(vote: bool)
      modifies this
      ensures View() == old(View()).(votedForMe := vote)
    {
      flags := if vote then flags | VOTED_FOR_ME else flags & !VOTED_FOR_ME;
    }

    /** The source asserts that the flag really changes. */
    method SetVoting(voting: bool)
      requires View().voting != voting
      modifies this
      ensures View() == old(View()).(voting := voting)
    {
      flags := if voting then flags | VOTING else flags & !VOTING;
    }

    method SetHasSufficientLogs()
      modifies this
      ensures View() == old(View()).(sufficientLogs := true)
    {
      flags := flags | HAS_SUFFICIENT_LOG;
    }

    method SetActive(active: bool)
      modifies this
      ensures View() == old(View()).(active := active)
    {
      flags := if active then flags & !INACTIVE else flags | INACTIVE;
    }
  }
}
