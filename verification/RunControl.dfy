/**
  ComputeRunControl (compute_run.cpp): the terminal and commit arbiter of one
  Run, its phase, its cancellation slots, and the move-only commit contender.
  Every locked region is a function on the guarded values and a method of a
  class that performs the same update in place.
 */
module RunControl {
  import opened Options

  datatype RunPhase = Created | Admitted | Queued | Running | CommitPending | Terminal

  datatype Reason = ExplicitRequest | GraphClose | ProcessShutdown | Superseded | DeadlineExceeded

  /** `failure` names the retained exception. */
  datatype Outcome = Succeeded | Failed(failure: nat) | Cancelled(reason: Reason)

  datatype Arbiter = Open | CommitClaimed | Closed

  /** What the Run mutex guards, apart from the slots. */
  datatype Control = Control(arbiter: Arbiter, outcome: Option<Outcome>, phase: RunPhase)

  const NEW_CONTROL := Control(Open, None, Created)

  datatype Claim = NotOpen | DeadlineCancelled | WrongPhase | Claimed

  datatype Advance = BadTarget | Settled | Backward | SamePhase | Advanced

  function Rank(p: RunPhase): (n: nat) {
    match p
    case Created => 0
    case Admitted => 1
    case Queued => 2
    case Running => 3
    case CommitPending => 4
    case Terminal => 5
  }

  function Settle(c: Control, o: Outcome): (c': Control) {
    c.(arbiter := Closed, outcome := Some(o))
  }

  /** publish_terminal and the arbitration of request_cancellation. */
  function Publish(c: Control, o: Outcome): (c': Control) {
    if c.arbiter.Open? then Settle(c, o) else c
  }

  /** The locked region of try_claim_commit; `late` is whether the deadline has passed. */
  function TryClaim(c: Control, late: bool): (r: (Control, Claim)) {
    if !c.arbiter.Open? then (c, NotOpen)
    else if late then (Settle(c, Cancelled(DeadlineExceeded)), DeadlineCancelled)
    else if !c.phase.CommitPending? then (c, WrongPhase)
    else (c.(arbiter := CommitClaimed), Claimed)
  }

  function Resolve(c: Control, o: Outcome): (c': Control) {
    if c.arbiter.CommitClaimed? then Settle(c, o) else c
  }

  function AdvanceTo(c: Control, next: RunPhase): (r: (Control, Advance)) {
    if next.Terminal? then (c, BadTarget)
    else if !c.arbiter.Open? then (c, Settled)
    else if Rank(next) < Rank(c.phase) then (c, Backward)
    else if Rank(next) == Rank(c.phase) then (c, SamePhase)
    else (c.(phase := next), Advanced)
  }

  /** The phases are ordered as a Run goes through them. */
  lemma PhaseOrder()
    ensures Rank(Created) < Rank(Admitted) < Rank(Queued) < Rank(Running) < Rank(CommitPending) < Rank(Terminal)
  {
  }

  /**
    An open arbiter takes the first terminal publication, is claimed exactly in
    CommitPending before the deadline, is cancelled by a claim after it, and a
    claimed one takes its contender's outcome; everything else changes nothing.
   */
  lemma ArbiterMeaning(c: Control, o: Outcome, late: bool)
    ensures Publish(c, o) == if c.arbiter == Open then Control(Closed, Some(o), c.phase) else c
    ensures TryClaim(c, late).1.Claimed? <==> c.arbiter == Open && c.phase == CommitPending && !late
    ensures TryClaim(c, late).1.DeadlineCancelled? <==> c.arbiter == Open && late
    ensures TryClaim(c, late).0 ==
              if c.arbiter == Open && late then Control(Closed, Some(Cancelled(DeadlineExceeded)), c.phase)
              else if c.arbiter == Open && c.phase == CommitPending then Control(CommitClaimed, c.outcome, c.phase)
              else c
    ensures Resolve(c, o) == if c.arbiter == CommitClaimed then Control(Closed, Some(o), c.phase) else c
  {
  }

  /** The phase moves exactly for an open Run and a later target that is not Terminal. */
  lemma AdvanceMeaning(c: Control, next: RunPhase)
    ensures var (c', r) := AdvanceTo(c, next);
            && (r.Advanced? <==> c.arbiter == Open && next != Terminal && Rank(c.phase) < Rank(next))
            && c' == (if r.Advanced? then Control(Open, c.outcome, next) else c)
            && (r.Backward? <==> c.arbiter == Open && next != Terminal && Rank(next) < Rank(c.phase))
            && (r.BadTarget? <==> next == Terminal)
  {
  }

  /** What every region keeps. */
  predicate Consistent(c: Control) {
    && (c.outcome.Some? <==> c.arbiter.Closed?)
    && (c.arbiter.CommitClaimed? ==> c.phase.CommitPending?)
    && !c.phase.Terminal?
  }

  /**
    What may become of a Run's control over any number of regions: the outcome
    is final, the phase never goes back and stops once the arbiter left Open,
    the arbiter never reopens, and a claimed commit ends in success or failure.
   */
  predicate Evolves(c: Control, c': Control) {
    && (c.outcome.Some? ==> c' == c)
    && Rank(c.phase) <= Rank(c'.phase)
    && (!c.arbiter.Open? ==> !c'.arbiter.Open? && c'.phase == c.phase)
    && (c.arbiter.CommitClaimed? ==>
          c' == c || (c'.outcome.Some? && !c'.outcome.value.Cancelled?))
  }

  lemma EvolvesTransitively(a: Control, b: Control, c: Control)
    requires Evolves(a, b) && Evolves(b, c)
    ensures Evolves(a, c)
  {
  }

  /** Every region keeps consistency and evolves the control. */
  lemma RegionsEvolve(c: Control, o: Outcome, late: bool, next: RunPhase)
    requires Consistent(c)
    ensures Consistent(Publish(c, o)) && Evolves(c, Publish(c, o))
    ensures Consistent(TryClaim(c, late).0) && Evolves(c, TryClaim(c, late).0)
    ensures !o.Cancelled? ==> Consistent(Resolve(c, o)) && Evolves(c, Resolve(c, o))
    ensures Consistent(AdvanceTo(c, next).0) && Evolves(c, AdvanceTo(c, next).0)
  {
  }

  // ----------------------------------------------------------- slot storage

  /** `i` is the first position of `slots` whose slot is not in `owned`. */
  predicate FirstExpired(slots: seq<nat>, owned: set<nat>, i: nat) {
    i <= |slots| && (i < |slots| ==> slots[i] !in owned) && forall j | 0 <= j < i :: slots[j] in owned
  }

  function ExpiredFrom(slots: seq<nat>, owned: set<nat>, i: nat): (r: nat)
    requires i <= |slots| && forall j | 0 <= j < i :: slots[j] in owned
    ensures FirstExpired(slots, owned, r)
    decreases |slots| - i
  {
    if i == |slots| || slots[i] !in owned then i else ExpiredFrom(slots, owned, i + 1)
  }

  /** register_cancellation_slot on an open Run: reuse the first expired position or append. */
  function StoreSlot(slots: seq<nat>, owned: set<nat>, id: nat): (r: seq<nat>) {
    var i := ExpiredFrom(slots, owned, 0);
    if i < |slots| then slots[i := id] else slots + [id]
  }

  ghost predicate NoDuplicates(q: seq<nat>) {
    forall i, j | 0 <= i < j < |q| :: q[i] != q[j]
  }

  /** Storing a new slot drops only an expired one, duplicates nothing, and grows only when all are owned. */
  lemma StoreSlotKeeps(slots: seq<nat>, owned: set<nat>, id: nat)
    requires NoDuplicates(slots) && id !in slots
    ensures var r := StoreSlot(slots, owned, id);
            && NoDuplicates(r) && id in r
            && (forall x | x in slots && x in owned :: x in r)
            && (forall x | x in r :: x == id || x in slots)
            && |slots| <= |r|
            && (|slots| < |r| ==> |r| == |slots| + 1 && forall x | x in slots :: x in owned)
  {
    var i := ExpiredFrom(slots, owned, 0);
    var r := StoreSlot(slots, owned, id);
    assert r[i] == id;
    forall x | x in slots && x in owned ensures x in r {
      var p :| 0 <= p < |slots| && slots[p] == x;
      assert r[p] == x;
    }
  }

  // -------------------------------------------------------------- the objects

  /** ComputeRunCancellationSlot, with the strong owner that keeps it from expiring. */
  class CancellationSlot {
    var active: bool
    var owned: bool
    var calls: seq<Reason>        // callback invocations, oldest first

    constructor ()
      ensures active && owned && calls == []
    {
      active, owned, calls := true, true, [];
    }

    method Invoke(reason: Reason)
      modifies this
      ensures active == old(active) && owned == old(owned)
      ensures calls == old(calls) + if active then [reason] else []
    {
      if active {
        calls := calls + [reason];
      }
    }

    method Deactivate()
      modifies this
      ensures !active && owned == old(owned) && calls == old(calls)
    {
      active := false;
    }
  }

  class ComputeRunControl {
    var arbiter: Arbiter
    var outcome: Option<Outcome>
    var phase: RunPhase
    var slots: seq<CancellationSlot>
    const deadline: Option<int>

    ghost function State(): (c: Control)
      reads this
    {
      Control(arbiter, outcome, phase)
    }

    ghost predicate Valid()
      reads this
    {
      Consistent(State()) && forall i, j | 0 <= i < j < |slots| :: slots[i] != slots[j]
    }

    predicate Expired(now: int) {
      deadline.Some? && deadline.value <= now
    }

    constructor (deadline: Option<int>)
      ensures Valid() && State() == NEW_CONTROL && slots == [] && this.deadline == deadline
      ensures arbiter == Open && outcome == None && phase == Created
    {
      arbiter, outcome, phase, slots := Open, None, Created, [];
      this.deadline := deadline;
    }

    method PublishTerminal(o: Outcome) returns (won: bool)
      requires Valid()
      modifies this
      ensures Valid() && slots == old(slots)
      ensures State() == Publish(old(State()), o)
      ensures won <==> old(arbiter).Open?
      ensures won ==> arbiter == Closed && outcome == Some(o) && phase == old(phase)
      ensures !won ==> State() == old(State())
    {
      if !arbiter.Open? {
        return false;
      }
      outcome := Some(o);
      arbiter := Closed;
      return true;
    }

    /** The dispatch loop: every slot that is still owned and active is invoked once. */
    method Dispatch(reason: Reason)
      requires Valid()
      modifies slots
      ensures forall s | s in slots ::
                s.active == old(s.active) && s.owned == old(s.owned)
                && s.calls == old(s.calls) + if s.owned && s.active then [reason] else []
    {
      var i := 0;
      while i < |slots|
        invariant 0 <= i <= |slots|
        invariant forall s | s in slots :: s.active == old(s.active) && s.owned == old(s.owned)
        invariant forall j | 0 <= j < |slots| ::
                    slots[j].calls == old(slots[j].calls) +
                      if j < i && slots[j].owned && slots[j].active then [reason] else []
      {
        if slots[i].owned {
          slots[i].Invoke(reason);
        }
        i := i + 1;
      }
    }

    method RequestCancellation(reason: Reason) returns (won: bool)
      requires Valid()
      modifies this, slots
      ensures Valid() && slots == old(slots)
      ensures State() == Publish(old(State()), Cancelled(reason))
      ensures won <==> old(arbiter).Open?
      ensures won ==> arbiter == Closed && outcome == Some(Cancelled(reason))
      ensures !won ==> State() == old(State())
      ensures forall s | s in slots ::
                s.active == old(s.active) && s.owned == old(s.owned)
                && s.calls == old(s.calls) + if won && s.owned && s.active then [reason] else []
    {
      won := PublishTerminal(Cancelled(reason));
      if won {
        Dispatch(reason);
      }
    }

    method ObserveCancellation(now: int) returns (r: Option<Reason>)
      requires Valid()
      modifies this, slots
      ensures Valid() && slots == old(slots)
      ensures State() == if Expired(now) then Publish(old(State()), Cancelled(DeadlineExceeded)) else old(State())
      ensures r.Some? <==> outcome.Some? && outcome.value.Cancelled?
      ensures r.Some? ==> outcome == Some(Cancelled(r.value))
      ensures var cancels := old(arbiter).Open? && Expired(now);
              forall s | s in slots ::
                s.active == old(s.active) && s.owned == old(s.owned)
                && s.calls == old(s.calls) + if cancels && s.owned && s.active then [DeadlineExceeded] else []
    {
      if arbiter.Open? && Expired(now) {
        var _ := RequestCancellation(DeadlineExceeded);
      }
      if outcome.Some? && outcome.value.Cancelled? {
        return Some(outcome.value.reason);
      }
      return None;
    }

    method TryClaimCommit(now: int) returns (claimed: bool)
      requires Valid()
      modifies this, slots
      ensures Valid() && slots == old(slots)
      ensures State() == TryClaim(old(State()), Expired(now)).0
      ensures claimed <==> TryClaim(old(State()), Expired(now)).1.Claimed?
      ensures claimed <==>
                old(arbiter) == Open && old(phase) == CommitPending && !(deadline.Some? && deadline.value <= now)
      ensures claimed ==> arbiter == CommitClaimed && phase == CommitPending && outcome == old(outcome)
      ensures old(arbiter) == Open && deadline.Some? && deadline.value <= now ==>
                arbiter == Closed && outcome == Some(Cancelled(DeadlineExceeded))
      ensures var cancelled := TryClaim(old(State()), Expired(now)).1.DeadlineCancelled?;
              forall s | s in slots ::
                s.active == old(s.active) && s.owned == old(s.owned)
                && s.calls == old(s.calls) + if cancelled && s.owned && s.active then [DeadlineExceeded] else []
    {
      if !arbiter.Open? {
        return false;
      }
      if Expired(now) {
        outcome := Some(Cancelled(DeadlineExceeded));
        arbiter := Closed;
      } else if !phase.CommitPending? {
        return false;
      } else {
        arbiter := CommitClaimed;
        return true;
      }
      Dispatch(DeadlineExceeded);
      return false;
    }

    method ResolveCommit(o: Outcome) returns (won: bool)
      requires Valid()
      modifies this
      ensures Valid() && slots == old(slots)
      ensures State() == Resolve(old(State()), o)
      ensures won <==> old(arbiter).CommitClaimed?
      ensures won ==> arbiter == Closed && outcome == Some(o) && phase == old(phase)
      ensures !won ==> State() == old(State())
    {
      if !arbiter.CommitClaimed? {
        return false;
      }
      outcome := Some(o);
      arbiter := Closed;
      return true;
    }

    method AdvancePhase(next: RunPhase) returns (r: Advance)
      requires Valid()
      modifies this
      ensures Valid() && slots == old(slots)
      ensures State() == AdvanceTo(old(State()), next).0 && r == AdvanceTo(old(State()), next).1
      ensures old(arbiter) == Open && next != Terminal && Rank(old(phase)) < Rank(next) ==>
                phase == next && r == Advanced
      ensures r != Advanced ==> State() == old(State())
    {
      if next.Terminal? {
        return BadTarget;
      }
      if !arbiter.Open? {
        return Settled;
      }
      if Rank(next) < Rank(phase) {
        return Backward;
      }
      if Rank(next) == Rank(phase) {
        return SamePhase;
      }
      phase := next;
      return Advanced;
    }

    /** Stores the slot on an open Run; invokes it at once on a cancelled one. */
    method RegisterSlot(slot: CancellationSlot) returns (installed: bool)
      requires Valid()
      modifies this, slot
      ensures Consistent(State()) && State() == old(State())
      ensures slot !in old(slots) || !installed ==> Valid()
      ensures installed <==> arbiter.Open?
      ensures slot.active == old(slot.active) && slot.owned == old(slot.owned)
      ensures slot.calls == old(slot.calls) +
                if outcome.Some? && outcome.value.Cancelled? && slot.active then [outcome.value.reason] else []
      ensures !installed ==> slots == old(slots)
      ensures installed ==>
                slot in slots && (forall s | s in old(slots) && old(s.owned) :: s in slots)
                && (forall s | s in slots :: s == slot || s in old(slots)) && |old(slots)| <= |slots|
                && |slots| <= |old(slots)| + 1
                && (|old(slots)| < |slots| ==> forall s | s in old(slots) :: old(s.owned))
      ensures installed ==> forall i | 0 <= i < |old(slots)| ::
                slots[i] == old(slots)[i]
                || (slots[i] == slot && !old(slots[i].owned) && forall j | 0 <= j < i :: old(slots[j].owned))
    {
      if arbiter.Open? {
        var i := 0;
        while i < |slots| && slots[i].owned
          invariant 0 <= i <= |slots|
          invariant forall j | 0 <= j < i :: slots[j].owned
        {
          i := i + 1;
        }
        ghost var was := slots;
        if i < |slots| {
          slots := slots[i := slot];
        } else {
          slots := slots + [slot];
        }
        assert slots[i] == slot;
        assert forall j | 0 <= j < |was| && was[j].owned :: slots[j] == was[j];
        return true;
      }
      if outcome.Some? && outcome.value.Cancelled? {
        slot.Invoke(outcome.value.reason);
      }
      return false;
    }
  }

  /** ComputeRunCommitContender: move-only ownership of one claimed commit. */
  class CommitContender {
    var control: ComputeRunControl?

    /** A contender holds a control only while its commit is claimed. */
    ghost predicate Valid()
      reads this, control
    {
      control != null ==> control.Valid() && control.arbiter.CommitClaimed?
    }

    constructor (control: ComputeRunControl?)
      requires control != null ==> control.Valid() && control.arbiter.CommitClaimed?
      ensures Valid() && this.control == control
    {
      this.control := control;
    }

    method Finish(o: Outcome) returns (published: bool)
      requires Valid() && !o.Cancelled?
      modifies this, control
      ensures published <==> old(control) != null
      ensures control == null
      ensures var was := old(control); was != null ==> was.Valid() && was.State() == Settle(old(was.State()), o)
      ensures var was := old(control); was != null ==> was.arbiter == Closed && was.outcome == Some(o)
    {
      if control == null {
        return false;
      }
      published := control.ResolveCommit(o);
      if published {
        control := null;
      }
    }

    /** Dropping a contender that never published fails its Run. */
    method Abandon(failure: nat)
      requires Valid()
      modifies this, control
      ensures control == null
      ensures var was := old(control);
              was != null ==> was.Valid() && was.State() == Settle(old(was.State()), Failed(failure))
      ensures var was := old(control); was != null ==> was.arbiter == Closed && was.outcome == Some(Failed(failure))
    {
      if control != null {
        var resolved := control.ResolveCommit(Failed(failure));
        assert resolved;
        control := null;
      }
    }

    /** Move assignment: abandons what this held, takes what `other` held. */
    method MoveFrom(other: CommitContender, failure: nat)
      requires Valid() && other.Valid()
      requires other != this && control != null ==> control != other.control
      modifies this, other, control
      ensures Valid() && other.Valid()
      ensures other == this ==> control == old(control)
      ensures other == this && control != null ==> control.State() == old(control.State())
      ensures other != this ==> control == old(other.control) && other.control == null
      ensures other != this && control != null ==> control.State() == old(other.control.State())
      ensures var was := old(control);
              other != this && was != null ==> was.State() == Settle(old(was.State()), Failed(failure))
    {
      if other == this {
        return;
      }
      Abandon(failure);
      control := other.control;
      other.control := null;
    }
  }

  ghost function SlotsOf(children: seq<ComputeRunControl>): (a: set<CancellationSlot>)
    reads children
  {
    set c, s | c in children && s in c.slots :: s
  }

  /** The fan-out loop: every child is offered the reason; reports whether it won one. */
  method VisitAll(visiting: seq<ComputeRunControl>, reason: Reason) returns (some: bool)
    requires forall c | c in visiting :: c.Valid()
    requires forall i, j | 0 <= i < j < |visiting| :: visiting[i] != visiting[j]
    modifies visiting, SlotsOf(visiting)
    ensures forall c | c in visiting :: c.Valid() && c.State() == Publish(old(c.State()), Cancelled(reason))
    ensures some <==> exists c | c in visiting :: old(c.arbiter).Open?
  {
    some := false;
    var i := 0;
    while i < |visiting|
      invariant 0 <= i <= |visiting|
      invariant forall j | 0 <= j < |visiting| ::
                  visiting[j].Valid() && visiting[j].slots == old(visiting[j].slots)
                  && visiting[j].State() ==
                       if j < i then Publish(old(visiting[j].State()), Cancelled(reason))
                       else old(visiting[j].State())
      invariant some <==> exists j | 0 <= j < i :: old(visiting[j].arbiter).Open?
    {
      ghost var child := visiting[i];
      assert forall s | s in child.slots :: s in old(SlotsOf(visiting)) by {
        assert child in visiting && child.slots == old(child.slots);
      }
      var accept := visiting[i].RequestCancellation(reason);
      some := some || accept;
      i := i + 1;
    }
  }

  /** ComputeRequestCancellationSource without concurrent callers: attachment and the fan-out loop. */
  class RequestCancellationSource {
    var accepted: Option<Reason>
    var won: bool
    var ids: seq<nat>
    var children: seq<ComputeRunControl>

    constructor ()
      ensures accepted.None? && !won && ids == [] && children == []
    {
      accepted, won, ids, children := None, false, [], [];
    }

    /** A child is attached once; one attached after acceptance is offered the reason at once. */
    method Attach(id: nat, child: ComputeRunControl)
      requires child.Valid()
      modifies this, child, child.slots
      ensures child.Valid() && accepted == old(accepted)
      ensures ids == if id in old(ids) then old(ids) else old(ids) + [id]
      ensures children == if id in old(ids) then old(children) else old(children) + [child]
      ensures child.State() ==
                if id in old(ids) || accepted.None? then old(child.State())
                else Publish(old(child.State()), Cancelled(accepted.value))
      ensures won == (old(won) || (id !in old(ids) && accepted.Some? && old(child.arbiter).Open?))
      ensures var cancels := id !in old(ids) && accepted.Some? && old(child.arbiter).Open?;
              child.slots == old(child.slots) && forall s | s in child.slots ::
                s.active == old(s.active) && s.owned == old(s.owned)
                && s.calls == old(s.calls) + if cancels && s.owned && s.active then [accepted.value] else []
    {
      var i := 0;
      while i < |ids|
        invariant 0 <= i <= |ids|
        invariant forall j | 0 <= j < i :: ids[j] != id
      {
        if ids[i] == id {
          return;
        }
        i := i + 1;
      }
      ids := ids + [id];
      children := children + [child];
      if accepted.Some? {
        var accept := child.RequestCancellation(accepted.value);
        won := won || accept;
      }
    }

    /** Offers the first reason to every attached child; the latch says whether it won one of them. */
    method RequestCancellation(reason: Reason) returns (first: bool)
      requires forall c | c in children :: c.Valid()
      requires forall i, j | 0 <= i < j < |children| :: children[i] != children[j]
      modifies this, children, SlotsOf(children)
      ensures first <==> old(accepted).None?
      ensures accepted == if first then Some(reason) else old(accepted)
      ensures ids == old(ids) && children == if first then [] else old(children)
      ensures forall c | c in old(children) ::
                c.Valid() && c.State() == if first then Publish(old(c.State()), Cancelled(reason)) else old(c.State())
      ensures won == (old(won) || (first && exists c | c in old(children) :: old(c.arbiter).Open?))
    {
      if accepted.Some? {
        return false;
      }
      accepted := Some(reason);
      var visiting := children;
      children := [];
      var some := VisitAll(visiting, reason);
      won := won || some;
      return true;
    }
  }
}
