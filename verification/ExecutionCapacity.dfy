/** The process-wide ceiling on concurrent agent runs. */
module ExecutionCapacity {
  import opened Wrappers

  /** Slots handed out and not given back yet. `released[i]` is slot `i`'s own released flag. */
  function Held(released: seq<bool>): nat {
    if released == [] then 0
    else Held(released[..|released| - 1]) + if released[|released| - 1] then 0 else 1
  }

  lemma {:induction false} HeldAfterRelease(released: seq<bool>, i: nat)
    requires i < |released| && !released[i]
    ensures Held(released[i := true]) == Held(released) - 1
  {
    var n := |released| - 1;
    if i < n {
      HeldAfterRelease(released[..n], i);
      assert released[i := true][..n] == released[..n][i := true];
    } else {
      assert released[i := true][..n] == released[..n];
    }
  }

  class Capacity {
    const limit: int
    var active: int
    /** The closures' `released` flags, one per slot in the order the slots were acquired. */
    var released: seq<bool>

    ghost predicate Valid()
      reads this
    {
      limit >= 1 && 0 <= active == Held(released) <= limit
    }

    constructor (limit: int)
      requires limit >= 1
      ensures Valid() && this.limit == limit && released == []
    {
      this.limit, active, released := limit, 0, [];
    }

    /** A slot, or nothing when every slot is held. */
    method TryAcquire() returns (slot: Option<nat>)
      requires Valid()
      modifies this
      ensures Valid()
      ensures slot.Some? <==> Held(old(released)) < limit
      ensures slot.Some? ==> slot.value == |old(released)| && released == old(released) + [false]
      ensures slot.None? ==> released == old(released)
    {
      if active >= limit {
        return None;
      }
      active := active + 1;
      slot := Some(|released|);
      assert (released + [false])[..|released|] == released;
      released := released + [false];
    }

    /** Giving a slot back twice counts once, and the source's clamp at zero never bites. */
    method Release(slot: nat)
      requires Valid() && slot < |released|
      modifies this
      ensures Valid() && released == old(released)[slot := true]
      ensures active == old(active) - if old(released)[slot] then 0 else 1
    {
      if released[slot] {
        return;
      }
      HeldAfterRelease(released, slot);
      released := released[slot := true];
      active := if active - 1 < 0 then 0 else active - 1;
    }
  }
}
