/**
  Supersession identities (compute_supersession.cpp): canonical keys and the
  graph-wide generation allocator, which hands out each 64-bit value once.
 */
module Supersession {
  import opened Options

  const UINT64_MAX: nat := 0xFFFF_FFFF_FFFF_FFFF

  datatype Intent = GlobalHighPrecision | RealTimeUpdate

  datatype Key = Key(targetNode: nat, intent: Intent)

  /** The allocator's two fields; `next` is never zero. */
  datatype Allocator = Allocator(next: nat, exhausted: bool) {
    ghost predicate Valid() {
      1 <= next <= UINT64_MAX && (exhausted ==> next == UINT64_MAX)
    }

    /** `g` may already have been handed out. */
    ghost predicate Issued(g: nat) {
      1 <= g <= next && (g == next ==> exhausted)
    }

    /** The value the next call returns, or None once the range is used up. */
    function Peek(): (r: Option<nat>) {
      if exhausted then None else Some(next)
    }

    function Advance(): (a: Allocator) {
      if exhausted then this
      else if next == UINT64_MAX then Allocator(next, true)
      else Allocator(next + 1, false)
    }
  }

  /** The state after `n` calls. */
  function AdvanceMany(a: Allocator, n: nat): (r: Allocator) {
    if n == 0 then a else AdvanceMany(a, n - 1).Advance()
  }

  /**
    No value is ever returned twice and values only grow: a value returned
    after `j` calls is larger than one returned after `i < j` calls, and once
    the allocator refuses it refuses forever, exactly after UINT64_MAX.
   */
  lemma {:induction false} GenerationsNeverRepeat(a: Allocator, i: nat, j: nat)
    requires a.Valid() && i < j
    ensures AdvanceMany(a, i).Valid() && AdvanceMany(a, j).Valid()
    ensures AdvanceMany(a, i).Peek().None? ==> AdvanceMany(a, j).Peek().None?
    ensures AdvanceMany(a, j).Peek().Some? ==>
              AdvanceMany(a, i).Peek().Some?
              && AdvanceMany(a, i).Peek().value < AdvanceMany(a, j).Peek().value
    ensures AdvanceMany(a, j).Peek().None? <==> a.exhausted || UINT64_MAX < a.next + j
  {
    AdvanceManyClosedForm(a, i);
    AdvanceManyClosedForm(a, j);
  }

  lemma {:induction false} AdvanceManyClosedForm(a: Allocator, n: nat)
    requires a.Valid()
    ensures AdvanceMany(a, n) ==
              if a.exhausted then a
              else if a.next + n <= UINT64_MAX then Allocator(a.next + n, false)
              else Allocator(UINT64_MAX, true)
  {
    if n > 0 {
      AdvanceManyClosedForm(a, n - 1);
    }
  }

  /** SupersessionGenerationAllocator, mutated under the coordinator mutex. */
  class GenerationAllocator {
    var next: nat
    var exhausted: bool

    ghost function State(): (a: Allocator)
      reads this
    {
      Allocator(next, exhausted)
    }

    constructor (first: nat)
      requires 1 <= first <= UINT64_MAX
      ensures State() == Allocator(first, false) && State().Valid()
    {
      next, exhausted := first, false;
    }

    method Allocate() returns (r: Option<nat>)
      requires State().Valid()
      modifies this
      ensures r == old(State()).Peek()
      ensures State() == old(State()).Advance() && State().Valid()
      ensures r.Some? ==> State().Issued(r.value) && !old(State().Issued(r.value))
    {
      if exhausted {
        return None;
      }
      r := Some(next);
      if next == UINT64_MAX {
        exhausted := true;
      } else {
        next := next + 1;
      }
    }
  }
}
