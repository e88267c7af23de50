/** Network slots: the addresses one stands for, and the pool they are drawn from. */
module Slots {
  import opened Wrappers
  import opened Decimal

  /** The address of a slot's guest. */
  function GuestIP(base: nat, slot: nat): string {
    "172." + Digits(base) + "." + Digits(slot) + ".2"
  }

  lemma GuestIPInjective(base: nat, slot: nat, other: nat)
    requires GuestIP(base, slot) == GuestIP(base, other)
    ensures slot == other
  {
    var head := "172." + Digits(base) + ".";
    var s := GuestIP(base, slot);
    assert s == head + Digits(slot) + ".2" && s == head + Digits(other) + ".2";
    assert s[|head|..] == Digits(slot) + ['.'] + "2" == Digits(other) + ['.'] + "2";
    SplitsOnce(Digits(slot), Digits(other), "2", "2", '.');
    DigitsInjective(slot, other);
  }

  /** The pool: the last slot given back is the first handed out again. */
  class Ipam {
    var free: seq<nat>

    constructor (size: nat)
      ensures |free| == size && forall i :: 0 <= i < size ==> free[i] == i
    {
      var slots: seq<nat> := [];
      var i := 0;
      while i < size
        invariant 0 <= i <= size && |slots| == i
        invariant forall k :: 0 <= k < i ==> slots[k] == k
      {
        slots := slots + [i];
        i := i + 1;
      }
      free := slots;
    }

    method Acquire() returns (slot: Option<nat>)
      modifies this
      ensures (free, slot) == Pop(old(free))
    {
      if |free| == 0 {
        return None;
      }
      slot := Some(free[|free| - 1]);
      free := free[..|free| - 1];
    }

    method Available() returns (n: nat)
      ensures n == |free|
    {
      n := |free|;
    }

    method Release(slot: nat)
      modifies this
      ensures free == old(free) + [slot]
    {
      free := free + [slot];
    }
  }

  function Pop(free: seq<nat>): (seq<nat>, Option<nat>) {
    if free == [] then (free, None) else (free[..|free| - 1], Some(free[|free| - 1]))
  }
}
