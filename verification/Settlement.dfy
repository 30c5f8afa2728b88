/**
  Root-reservation settlement of one Run (compute_run.cpp): pending and live
  counts under the Run mutex, and the lifecycle telemetry counted outside it.
  A root observation begins, then is cancelled or committed; its reservation
  completes only after the committing call has returned and its child grants
  are released (execution_service.cpp).  Threads interleave freely otherwise.
 */
module Settlement {
  import opened Counting
  import opened Options
  import opened Paths

  const COUNT_MAX: nat := 0xFFFF_FFFF_FFFF_FFFF

  /** What the Run mutex guards. */
  datatype Counters = Counters(owner: Option<nat>, pending: nat, live: nat)

  datatype BeginOutcome = Begun | SpansOwners | Exhausted

  function BeginRegion(c: Counters, telemetry: nat): (r: (Counters, BeginOutcome)) {
    if c.owner != Some(telemetry) && (c.pending != 0 || c.live != 0) then (c, SpansOwners)
    else
      var c1 := c.(owner := Some(telemetry));
      if c.pending == COUNT_MAX then (c1, Exhausted) else (c1.(pending := c.pending + 1), Begun)
  }

  /** None is std::terminate. */
  function CommitRegion(c: Counters): (r: Option<Counters>) {
    if c.pending == 0 || c.live == COUNT_MAX then None
    else Some(c.(pending := c.pending - 1, live := c.live + 1))
  }

  function CancelRegion(c: Counters): (r: Option<Counters>) {
    if c.pending == 0 then None else Some(c.(pending := c.pending - 1))
  }

  function CompleteRegion(c: Counters): (r: Option<Counters>) {
    if c.live == 0 || c.owner.None? then None else Some(c.(live := c.live - 1))
  }

  /**
    When each region goes through and what it counts: an observation begins for
    the present owner or when nothing is counted, moves from pending to live,
    leaves pending, or leaves live; a region that does not go through counts nothing.
   */
  lemma CounterMeaning(c: Counters, telemetry: nat)
    ensures var (b, outcome) := BeginRegion(c, telemetry);
            && (outcome.SpansOwners? <==> c.owner != Some(telemetry) && c.pending + c.live > 0)
            && (outcome.Begun? <==>
                  (c.owner == Some(telemetry) || c.pending + c.live == 0) && c.pending != COUNT_MAX)
            && b.owner == (if outcome.SpansOwners? then c.owner else Some(telemetry))
            && b.pending == (if outcome.Begun? then c.pending + 1 else c.pending) && b.live == c.live
    ensures CommitRegion(c).Some? <==> c.pending > 0 && c.live != COUNT_MAX
    ensures CommitRegion(c).Some? ==> CommitRegion(c).value == Counters(c.owner, c.pending - 1, c.live + 1)
    ensures CancelRegion(c).Some? <==> c.pending > 0
    ensures CancelRegion(c).Some? ==> CancelRegion(c).value == Counters(c.owner, c.pending - 1, c.live)
    ensures CompleteRegion(c).Some? <==> c.live > 0 && c.owner.Some?
    ensures CompleteRegion(c).Some? ==> CompleteRegion(c).value == Counters(c.owner, c.pending, c.live - 1)
  {
  }

  /** The counters as the Run updates them in place. */
  class SettlementCounters {
    var owner: Option<nat>
    var pending: nat
    var live: nat

    ghost function State(): (c: Counters)
      reads this
    {
      Counters(owner, pending, live)
    }

    constructor ()
      ensures State() == Counters(None, 0, 0)
    {
      owner, pending, live := None, 0, 0;
    }

    method Begin(telemetry: nat) returns (r: BeginOutcome)
      modifies this
      ensures State() == BeginRegion(old(State()), telemetry).0 && r == BeginRegion(old(State()), telemetry).1
      ensures r.Begun? <==>
                (old(owner) == Some(telemetry) || (old(pending) == 0 && old(live) == 0)) && old(pending) != COUNT_MAX
      ensures r.Begun? ==> owner == Some(telemetry) && pending == old(pending) + 1 && live == old(live)
      ensures !r.Begun? ==> pending == old(pending) && live == old(live)
      ensures old(pending) + old(live) > 0 ==> owner == old(owner)
    {
      if owner != Some(telemetry) {
        if pending != 0 || live != 0 {
          return SpansOwners;
        }
        owner := Some(telemetry);
      }
      if pending == COUNT_MAX {
        return Exhausted;
      }
      pending := pending + 1;
      return Begun;
    }

    method Commit() returns (survived: bool)
      modifies this
      ensures survived <==> CommitRegion(old(State())).Some?
      ensures State() == if survived then CommitRegion(old(State())).value else old(State())
      ensures survived <==> old(pending) != 0 && old(live) != COUNT_MAX
      ensures survived ==> owner == old(owner) && pending == old(pending) - 1 && live == old(live) + 1
    {
      if pending == 0 || live == COUNT_MAX {
        return false;
      }
      pending := pending - 1;
      live := live + 1;
      return true;
    }

    method Cancel() returns (survived: bool)
      modifies this
      ensures survived <==> CancelRegion(old(State())).Some?
      ensures State() == if survived then CancelRegion(old(State())).value else old(State())
      ensures survived <==> old(pending) != 0
      ensures survived ==> owner == old(owner) && pending == old(pending) - 1 && live == old(live)
    {
      if pending == 0 {
        return false;
      }
      pending := pending - 1;
      return true;
    }

    /** Captures the telemetry owner before the count goes down. */
    method Complete() returns (telemetry: Option<nat>)
      modifies this
      ensures telemetry == if CompleteRegion(old(State())).Some? then old(owner) else None
      ensures telemetry.Some? ==> State() == CompleteRegion(old(State())).value
      ensures telemetry.None? ==> State() == old(State())
      ensures telemetry.Some? <==> old(live) != 0 && old(owner).Some?
      ensures telemetry.Some? ==>
                telemetry == owner == old(owner) && pending == old(pending) && live == old(live) - 1
    {
      if live == 0 || owner.None? {
        return None;
      }
      telemetry := owner;
      live := live - 1;
    }
  }

  // ------------------------------------------------------------------ interleaving

  /** Where one root observation stands. */
  datatype RootStage =
    | Pending
    | Committing             // counted live, telemetry not yet incremented
    | Live
    | Completing(captured: nat)   // no longer counted live, telemetry not yet decremented
    | Done

  /** `telemetry` is the owner named at begin, `incremented` the one the commit counted at. */
  datatype Root = Root(telemetry: nat, stage: RootStage, incremented: Option<nat>)

  datatype State = State(
    counters: Counters,
    roots: map<nat, Root>,
    grants: map<nat, nat>,         // outstanding child grants and their roots
    liveRoots: map<nat, int>,      // each telemetry owner's LiveRootReservation counter
    liveGrants: map<nat, int>)     // each telemetry owner's LiveChildGrant counter

  const INIT := State(Counters(None, 0, 0), map[], map[], map[], map[])

  datatype Step =
    | BeginRoot(root: nat, telemetry: nat)
    | CommitRoot(root: nat)
    | CountCommitted(root: nat)
    | CancelRoot(root: nat)
    | CompleteRoot(root: nat)
    | CountCompleted(root: nat)
    | GrantChild(root: nat, grant: nat)
    | ReleaseChild(grant: nat)

  function At(m: map<nat, int>, o: nat): (n: int) { if o in m then m[o] else 0 }

  function Bump(m: map<nat, int>, o: nat, d: int): (m': map<nat, int>) { m[o := At(m, o) + d] }

  predicate InStage(s: State, x: nat, stage: RootStage) { x in s.roots && s.roots[x].stage == stage }

  /** Only what callers are bound to; the counter checks are not assumed. */
  predicate Enabled(s: State, step: Step) {
    match step
    case BeginRoot(x, _) => x !in s.roots
    case CommitRoot(x) => InStage(s, x, Pending)
    case CountCommitted(x) => InStage(s, x, Committing)
    case CancelRoot(x) => InStage(s, x, Pending)
    case CompleteRoot(x) => InStage(s, x, Live) && forall g | g in s.grants :: s.grants[g] != x
    case CountCompleted(x) => x in s.roots && s.roots[x].stage.Completing?
    case GrantChild(x, g) => InStage(s, x, Live) && g !in s.grants
    case ReleaseChild(g) => g in s.grants
  }

  /** The step reaches std::terminate. */
  predicate Terminates(s: State, step: Step)
    requires Enabled(s, step)
  {
    match step
    case CommitRoot(_) => CommitRegion(s.counters).None?
    case CancelRoot(_) => CancelRegion(s.counters).None?
    case CompleteRoot(_) => CompleteRegion(s.counters).None?
    case CountCommitted(_) => s.counters.owner.None?
    case GrantChild(_, _) => s.counters.owner.None?
    case ReleaseChild(_) => s.counters.owner.None?
    case _ => false
  }

  function SetRoot(s: State, x: nat, r: Root): (s': State) { s.(roots := s.roots[x := r]) }

  /** Telemetry owners are read from the counters at the moment of counting. */
  function Apply(s: State, step: Step): (s': State)
    requires Enabled(s, step) && !Terminates(s, step)
  {
    match step
    case BeginRoot(x, o) =>
      var (c, outcome) := BeginRegion(s.counters, o);
      var s1 := s.(counters := c);
      if outcome.Begun? then SetRoot(s1, x, Root(o, Pending, None)) else s1
    case CommitRoot(x) =>
      SetRoot(s, x, s.roots[x].(stage := Committing)).(counters := CommitRegion(s.counters).value)
    case CountCommitted(x) =>
      var o := s.counters.owner.value;
      SetRoot(s, x, s.roots[x].(stage := Live, incremented := Some(o)))
        .(liveRoots := Bump(s.liveRoots, o, 1))
    case CancelRoot(x) =>
      SetRoot(s, x, s.roots[x].(stage := Done)).(counters := CancelRegion(s.counters).value)
    case CompleteRoot(x) =>
      SetRoot(s, x, s.roots[x].(stage := Completing(s.counters.owner.value)))
        .(counters := CompleteRegion(s.counters).value)
    case CountCompleted(x) =>
      SetRoot(s, x, s.roots[x].(stage := Done))
        .(liveRoots := Bump(s.liveRoots, s.roots[x].stage.captured, -1))
    case GrantChild(x, g) =>
      s.(grants := s.grants[g := x], liveGrants := Bump(s.liveGrants, s.counters.owner.value, 1))
    case ReleaseChild(g) =>
      s.(grants := s.grants - {g}, liveGrants := Bump(s.liveGrants, s.counters.owner.value, -1))
  }

  // --------------------------------------------------------------------- invariant

  function PendingRoots(roots: map<nat, Root>): (a: set<nat>) {
    set x | x in roots && roots[x].stage.Pending?
  }

  function LiveRoots(roots: map<nat, Root>): (a: set<nat>) {
    set x | x in roots && (roots[x].stage.Committing? || roots[x].stage.Live?)
  }

  /** Roots counted at telemetry owner `o`. */
  function CountedAt(roots: map<nat, Root>, o: nat): (a: set<nat>) {
    set x | x in roots && roots[x].telemetry == o && (roots[x].stage.Live? || roots[x].stage.Completing?)
  }

  predicate RootInv(owner: Option<nat>, r: Root) {
    && (r.stage.Pending? || r.stage.Committing? || r.stage.Live? ==> owner == Some(r.telemetry))
    && (r.stage.Live? || r.stage.Completing? ==> r.incremented == Some(r.telemetry))
    && (r.stage.Completing? ==> r.stage.captured == r.telemetry)
  }

  function GrantsAt(roots: map<nat, Root>, grants: map<nat, nat>, o: nat): (a: set<nat>) {
    set g | g in grants && grants[g] in roots && roots[grants[g]].telemetry == o
  }

  ghost predicate CountInv(c: Counters, roots: map<nat, Root>) {
    c.pending == |PendingRoots(roots)| && c.live == |LiveRoots(roots)|
  }

  ghost predicate OwnerInv(owner: Option<nat>, roots: map<nat, Root>, grants: map<nat, nat>) {
    && (forall x | x in roots :: RootInv(owner, roots[x]))
    && (forall g | g in grants :: grants[g] in roots && roots[grants[g]].stage.Live?)
  }

  ghost predicate RootsCounted(liveRoots: map<nat, int>, roots: map<nat, Root>) {
    forall o: nat :: At(liveRoots, o) == |CountedAt(roots, o)|
  }

  ghost predicate GrantsCounted(liveGrants: map<nat, int>, roots: map<nat, Root>, grants: map<nat, nat>) {
    forall o: nat :: At(liveGrants, o) == |GrantsAt(roots, grants, o)|
  }

  /** The counts match the observations; every root is counted at the owner it began with. */
  ghost predicate Inv(s: State) {
    CountInv(s.counters, s.roots) && OwnerInv(s.counters.owner, s.roots, s.grants)
    && RootsCounted(s.liveRoots, s.roots) && GrantsCounted(s.liveGrants, s.roots, s.grants)
  }

  /** What replacing one root does to the three sets. */
  lemma SetRootCounts(roots: map<nat, Root>, x: nat, r: Root, o: nat)
    ensures PendingRoots(roots[x := r]) ==
              if r.stage.Pending? then PendingRoots(roots) + {x} else PendingRoots(roots) - {x}
    ensures LiveRoots(roots[x := r]) ==
              if r.stage.Committing? || r.stage.Live? then LiveRoots(roots) + {x} else LiveRoots(roots) - {x}
    ensures CountedAt(roots[x := r], o) ==
              if r.telemetry == o && (r.stage.Live? || r.stage.Completing?)
              then CountedAt(roots, o) + {x} else CountedAt(roots, o) - {x}
  {
  }

  predicate WasLive(roots: map<nat, Root>, x: nat) {
    x in roots && (roots[x].stage.Committing? || roots[x].stage.Live?)
  }

  lemma SetRootSizes(roots: map<nat, Root>, x: nat, r: Root)
    ensures |PendingRoots(roots[x := r])| + B(x in roots && roots[x].stage.Pending?) ==
              |PendingRoots(roots)| + B(r.stage.Pending?)
    ensures |LiveRoots(roots[x := r])| + B(WasLive(roots, x)) ==
              |LiveRoots(roots)| + B(r.stage.Committing? || r.stage.Live?)
  {
    SetRootCounts(roots, x, r, 0);
    assert x in PendingRoots(roots) <==> x in roots && roots[x].stage.Pending?;
    assert x in LiveRoots(roots) <==> WasLive(roots, x);
  }

  lemma SameTelemetryGrants(roots: map<nat, Root>, grants: map<nat, nat>, x: nat, r: Root, o: nat)
    requires if x in roots then roots[x].telemetry == r.telemetry else forall g | g in grants :: grants[g] != x
    ensures GrantsAt(roots[x := r], grants, o) == GrantsAt(roots, grants, o)
  {
  }

  /** Replacing root `x` by `r`, with counters that follow, keeps the invariant. */
  lemma RootStepKeeps(s: State, x: nat, r: Root, c: Counters, liveRoots: map<nat, int>)
    requires Inv(s) && RootInv(c.owner, r)
    requires c.owner == s.counters.owner || (PendingRoots(s.roots) == {} && LiveRoots(s.roots) == {})
    requires x in s.roots ==> s.roots[x].telemetry == r.telemetry
    requires c.pending == |PendingRoots(s.roots[x := r])| && c.live == |LiveRoots(s.roots[x := r])|
    requires RootsCounted(liveRoots, s.roots[x := r])
    requires forall g | g in s.grants && s.grants[g] == x :: r.stage.Live?
    ensures Inv(s.(roots := s.roots[x := r], counters := c, liveRoots := liveRoots))
  {
    var s' := s.(roots := s.roots[x := r], counters := c, liveRoots := liveRoots);
    forall y | y in s'.roots ensures RootInv(c.owner, s'.roots[y]) {
      if y != x {
        assert RootInv(s.counters.owner, s.roots[y]);
        assert y in PendingRoots(s.roots) || y in LiveRoots(s.roots) || c.owner == s.counters.owner
               || s.roots[y].stage.Completing? || s.roots[y].stage.Done?;
      }
    }
    forall o: nat ensures At(s'.liveGrants, o) == |GrantsAt(s'.roots, s'.grants, o)| {
      SameTelemetryGrants(s.roots, s.grants, x, r, o);
      assert At(s.liveGrants, o) == |GrantsAt(s.roots, s.grants, o)|;
    }
  }

  lemma BeginKeeps(s: State, x: nat, o: nat)
    requires Inv(s) && Enabled(s, BeginRoot(x, o))
    ensures Inv(Apply(s, BeginRoot(x, o)))
  {
    var (c, outcome) := BeginRegion(s.counters, o);
    if outcome.Begun? {
      var r := Root(o, Pending, None);
      SetRootSizes(s.roots, x, r);
      UncountedRoot(s, x, r);
      RootStepKeeps(s, x, r, c, s.liveRoots);
    }
  }

  /** A root that is not counted at its telemetry changes no telemetry count. */
  lemma UncountedRoot(s: State, x: nat, r: Root)
    requires RootsCounted(s.liveRoots, s.roots) && !r.stage.Live? && !r.stage.Completing?
    requires x in s.roots ==> !s.roots[x].stage.Live? && !s.roots[x].stage.Completing?
    ensures RootsCounted(s.liveRoots, s.roots[x := r])
  {
    forall o: nat ensures At(s.liveRoots, o) == |CountedAt(s.roots[x := r], o)| {
      SetRootCounts(s.roots, x, r, o);
      assert CountedAt(s.roots[x := r], o) == CountedAt(s.roots, o);
    }
  }

  /** Under the invariant only a commit beyond the counter's range reaches terminate. */
  lemma NeverTerminates(s: State, step: Step)
    requires Inv(s) && Enabled(s, step)
    ensures Terminates(s, step) <==> step.CommitRoot? && s.counters.live == COUNT_MAX
  {
    match step
    case CommitRoot(x) => assert x in PendingRoots(s.roots);
    case CancelRoot(x) => assert x in PendingRoots(s.roots);
    case CompleteRoot(x) =>
      assert x in LiveRoots(s.roots) && RootInv(s.counters.owner, s.roots[x]);
    case CountCommitted(x) => assert RootInv(s.counters.owner, s.roots[x]);
    case GrantChild(x, _) => assert RootInv(s.counters.owner, s.roots[x]);
    case ReleaseChild(g) => assert RootInv(s.counters.owner, s.roots[s.grants[g]]);
    case _ =>
  }

  lemma PendingStepKeeps(s: State, step: Step)
    requires Inv(s) && Enabled(s, step) && !Terminates(s, step) && (step.CommitRoot? || step.CancelRoot?)
    ensures Inv(Apply(s, step))
  {
    var x := step.root;
    var r := s.roots[x].(stage := if step.CommitRoot? then Committing else Done);
    assert RootInv(s.counters.owner, s.roots[x]);
    SetRootSizes(s.roots, x, r);
    UncountedRoot(s, x, r);
    RootStepKeeps(s, x, r, Apply(s, step).counters, s.liveRoots);
  }

  lemma BumpOne(s: State, x: nat, r: Root, d: int, o: nat)
    requires At(s.liveRoots, o) == |CountedAt(s.roots, o)|
    requires x in s.roots && s.roots[x].telemetry == r.telemetry
    requires if d == 1 then s.roots[x].stage.Committing? && r.stage.Live?
             else d == -1 && s.roots[x].stage.Completing? && r.stage.Done?
    ensures At(Bump(s.liveRoots, r.telemetry, d), o) == |CountedAt(s.roots[x := r], o)|
  {
    SetRootCounts(s.roots, x, r, o);
    assert x in CountedAt(s.roots, o) <==> o == r.telemetry && d == -1;
  }

  lemma BumpCounts(s: State, x: nat, r: Root, d: int)
    requires RootsCounted(s.liveRoots, s.roots) && x in s.roots && s.roots[x].telemetry == r.telemetry
    requires if d == 1 then s.roots[x].stage.Committing? && r.stage.Live?
             else d == -1 && s.roots[x].stage.Completing? && r.stage.Done?
    ensures RootsCounted(Bump(s.liveRoots, r.telemetry, d), s.roots[x := r])
  {
    forall o: nat ensures At(Bump(s.liveRoots, r.telemetry, d), o) == |CountedAt(s.roots[x := r], o)| {
      BumpOne(s, x, r, d, o);
    }
  }

  lemma CountCommittedKeeps(s: State, x: nat)
    requires Inv(s) && Enabled(s, CountCommitted(x)) && !Terminates(s, CountCommitted(x))
    ensures Inv(Apply(s, CountCommitted(x)))
  {
    assert RootInv(s.counters.owner, s.roots[x]);
    var r := s.roots[x].(stage := Live, incremented := s.counters.owner);
    SetRootSizes(s.roots, x, r);
    BumpCounts(s, x, r, 1);
    RootStepKeeps(s, x, r, s.counters, Bump(s.liveRoots, r.telemetry, 1));
  }

  /** A live root that starts completing stays counted at its telemetry. */
  lemma CompletingStaysCounted(s: State, x: nat, r: Root)
    requires RootsCounted(s.liveRoots, s.roots) && x in s.roots && s.roots[x].stage.Live? && r.stage.Completing?
    requires s.roots[x].telemetry == r.telemetry
    ensures RootsCounted(s.liveRoots, s.roots[x := r])
  {
    forall o: nat ensures At(s.liveRoots, o) == |CountedAt(s.roots[x := r], o)| {
      SetRootCounts(s.roots, x, r, o);
      assert CountedAt(s.roots[x := r], o) == CountedAt(s.roots, o);
    }
  }

  lemma CompleteKeeps(s: State, x: nat)
    requires Inv(s) && Enabled(s, CompleteRoot(x)) && !Terminates(s, CompleteRoot(x))
    ensures Inv(Apply(s, CompleteRoot(x)))
  {
    assert RootInv(s.counters.owner, s.roots[x]);
    var r := s.roots[x].(stage := Completing(s.counters.owner.value));
    SetRootSizes(s.roots, x, r);
    CompletingStaysCounted(s, x, r);
    RootStepKeeps(s, x, r, CompleteRegion(s.counters).value, s.liveRoots);
  }

  lemma CountCompletedKeeps(s: State, x: nat)
    requires Inv(s) && Enabled(s, CountCompleted(x))
    ensures Inv(Apply(s, CountCompleted(x)))
  {
    assert RootInv(s.counters.owner, s.roots[x]);
    var r := s.roots[x].(stage := Done);
    SetRootSizes(s.roots, x, r);
    BumpCounts(s, x, r, -1);
    RootStepKeeps(s, x, r, s.counters, Bump(s.liveRoots, r.telemetry, -1));
  }

  lemma GrantCount(roots: map<nat, Root>, grants: map<nat, nat>, x: nat, g: nat, o: nat)
    requires x in roots && g !in grants
    ensures GrantsAt(roots, grants[g := x], o) ==
              GrantsAt(roots, grants, o) + if roots[x].telemetry == o then {g} else {}
    ensures g !in GrantsAt(roots, grants, o)
  {
  }

  lemma GrantKeeps(s: State, x: nat, g: nat)
    requires Inv(s) && Enabled(s, GrantChild(x, g)) && !Terminates(s, GrantChild(x, g))
    ensures Inv(Apply(s, GrantChild(x, g)))
  {
    var s' := Apply(s, GrantChild(x, g));
    assert RootInv(s.counters.owner, s.roots[x]);
    forall o: nat ensures At(s'.liveGrants, o) == |GrantsAt(s'.roots, s'.grants, o)| {
      assert At(s.liveGrants, o) == |GrantsAt(s.roots, s.grants, o)|;
      GrantCount(s.roots, s.grants, x, g, o);
    }
  }

  lemma ReleaseKeeps(s: State, g: nat)
    requires Inv(s) && Enabled(s, ReleaseChild(g)) && !Terminates(s, ReleaseChild(g))
    ensures Inv(Apply(s, ReleaseChild(g)))
  {
    var s' := Apply(s, ReleaseChild(g));
    var x := s.grants[g];
    assert RootInv(s.counters.owner, s.roots[x]);
    assert s.grants == s'.grants[g := x];
    forall o: nat ensures At(s'.liveGrants, o) == |GrantsAt(s'.roots, s'.grants, o)| {
      assert At(s.liveGrants, o) == |GrantsAt(s.roots, s.grants, o)|;
      GrantCount(s.roots, s'.grants, x, g, o);
    }
  }

  lemma StepKeepsInv(s: State, step: Step)
    requires Inv(s) && Enabled(s, step) && !Terminates(s, step)
    ensures Inv(Apply(s, step))
  {
    match step
    case BeginRoot(x, o) => BeginKeeps(s, x, o);
    case CommitRoot(_) => PendingStepKeeps(s, step);
    case CancelRoot(_) => PendingStepKeeps(s, step);
    case CountCommitted(x) => CountCommittedKeeps(s, x);
    case CompleteRoot(x) => CompleteKeeps(s, x);
    case CountCompleted(x) => CountCompletedKeeps(s, x);
    case GrantChild(x, g) => GrantKeeps(s, x, g);
    case ReleaseChild(g) => ReleaseKeeps(s, g);
  }

  ghost predicate Takes(s: State, step: Step, s': State) {
    Enabled(s, step) && !Terminates(s, step) && s' == Apply(s, step)
  }

  ghost predicate IsRun(states: seq<State>, steps: seq<Step>) {
    && |states| == |steps| + 1
    && states[0] == INIT
    && (forall i: nat | i < |steps| :: Takes(states[i], steps[i], states[i + 1]))
  }

  lemma {:induction false} RunKeepsInv(states: seq<State>, steps: seq<Step>, i: nat)
    requires IsRun(states, steps) && i <= |steps|
    ensures Inv(states[i])
  {
    if i == 0 {
      assert PendingRoots(map[]) == {} && LiveRoots(map[]) == {};
      assert forall o: nat :: CountedAt(map[], o) == {} && GrantsAt(map[], map[], o) == {};
    } else {
      RunKeepsInv(states, steps, i - 1);
      assert Takes(states[i - 1], steps[i - 1], states[i]);
      StepKeepsInv(states[i - 1], steps[i - 1]);
    }
  }

  /**
    In every reachable state the pending and live counts are the numbers of
    pending and live observations, every owner's telemetry is the number of its
    own roots and grants that are counted there (so it is never negative), and
    a root is decremented where it was incremented.
   */
  lemma SettlementIsConserved(states: seq<State>, steps: seq<Step>, i: nat, o: nat, x: nat)
    requires IsRun(states, steps) && i <= |steps|
    ensures var s := states[i];
            && s.counters.pending == |PendingRoots(s.roots)| && s.counters.live == |LiveRoots(s.roots)|
            && At(s.liveRoots, o) == |CountedAt(s.roots, o)|
            && At(s.liveGrants, o) == |GrantsAt(s.roots, s.grants, o)|
            && (x in s.roots && s.roots[x].stage.Completing? ==>
                  s.roots[x].incremented == Some(s.roots[x].stage.captured)
                  && s.roots[x].stage.captured == s.roots[x].telemetry)
  {
    RunKeepsInv(states, steps, i);
    assert At(states[i].liveRoots, o) == |CountedAt(states[i].roots, o)|;
    if x in states[i].roots {
      assert RootInv(states[i].counters.owner, states[i].roots[x]);
    }
  }

  /** While either count is nonzero the telemetry owner cannot change. */
  lemma OwnerIsFixedWhileCounted(states: seq<State>, steps: seq<Step>, i: nat)
    requires IsRun(states, steps) && i < |steps|
    requires states[i].counters.pending != 0 || states[i].counters.live != 0
    ensures states[i + 1].counters.owner == states[i].counters.owner && states[i].counters.owner.Some?
  {
    assert Takes(states[i], steps[i], states[i + 1]);
    RunKeepsInv(states, steps, i);
    var s := states[i];
    var x :| x in PendingRoots(s.roots) + LiveRoots(s.roots);
    assert RootInv(s.counters.owner, s.roots[x]);
  }

  // ---------------------------------------------------------------------- progress

  /** Every step moves its observation or its grant to the next place. */
  lemma StepMoves(s: State, step: Step, s': State)
    requires Takes(s, step, s')
    ensures match step
            case BeginRoot(x, o) =>
              var counted := s.counters.pending + s.counters.live;
              (s.counters.owner == Some(o) || counted == 0) && s.counters.pending != COUNT_MAX ==>
                InStage(s', x, Pending) && s'.roots[x].telemetry == o
            case CommitRoot(x) => InStage(s', x, Committing)
            case CountCommitted(x) => InStage(s', x, Live)
            case CancelRoot(x) => InStage(s', x, Done)
            case CompleteRoot(x) => x in s'.roots && s'.roots[x].stage.Completing?
            case CountCompleted(x) => InStage(s', x, Done)
            case GrantChild(x, g) => s'.grants == s.grants[g := x]
            case ReleaseChild(g) => s'.grants == s.grants - {g}
  {
  }

  lemma StepGoesThrough(s: State, step: Step) returns (s': State)
    requires Inv(s) && Enabled(s, step) && (step.CommitRoot? ==> s.counters.live != COUNT_MAX)
    ensures Takes(s, step, s') && Inv(s')
  {
    NeverTerminates(s, step);
    StepKeepsInv(s, step);
    s' := Apply(s, step);
  }

  lemma PendingGoesLive(s: State, x: nat) returns (s1: State, s2: State)
    requires Inv(s) && InStage(s, x, Pending) && s.counters.live != COUNT_MAX
    ensures Takes(s, CommitRoot(x), s1) && Takes(s1, CountCommitted(x), s2) && Inv(s2) && InStage(s2, x, Live)
    ensures s2.counters == Counters(s.counters.owner, s.counters.pending - 1, s.counters.live + 1)
    ensures s2.counters.owner == Some(s2.roots[x].telemetry) && s2.grants == s.grants
    ensures s2.liveRoots == Bump(s.liveRoots, s2.roots[x].telemetry, 1)
  {
    CounterMeaning(s.counters, 0);
    s1 := StepGoesThrough(s, CommitRoot(x));
    s2 := StepGoesThrough(s1, CountCommitted(x));
    assert RootInv(s2.counters.owner, s2.roots[x]);
  }

  lemma LiveGoesDone(s: State, x: nat) returns (s1: State, s2: State)
    requires Inv(s) && InStage(s, x, Live) && forall g | g in s.grants :: s.grants[g] != x
    ensures Takes(s, CompleteRoot(x), s1) && Takes(s1, CountCompleted(x), s2) && Inv(s2) && InStage(s2, x, Done)
    ensures s2.counters == Counters(s.counters.owner, s.counters.pending, s.counters.live - 1)
    ensures s2.liveRoots == Bump(s.liveRoots, s.roots[x].telemetry, -1)
  {
    CounterMeaning(s.counters, 0);
    assert RootInv(s.counters.owner, s.roots[x]);
    s1 := StepGoesThrough(s, CompleteRoot(x));
    s2 := StepGoesThrough(s1, CountCompleted(x));
  }

  /**
    From every reachable state a pending observation can be committed, counted,
    completed and uncounted, which leaves one observation less pending, the live
    count and every telemetry count as they were.
   */
  lemma RootCanSettle(states: seq<State>, steps: seq<Step>, i: nat, x: nat) returns (s': State)
    requires IsRun(states, steps) && i <= |steps|
    requires InStage(states[i], x, Pending) && states[i].counters.live != COUNT_MAX
    ensures Leads(Takes, states[i], [CommitRoot(x), CountCommitted(x), CompleteRoot(x), CountCompleted(x)], s')
    ensures InStage(s', x, Done)
    ensures s'.counters == states[i].counters.(pending := states[i].counters.pending - 1)
    ensures forall o: nat :: At(s'.liveRoots, o) == At(states[i].liveRoots, o)
  {
    RunKeepsInv(states, steps, i);
    var s := states[i];
    NoGrantsYet(s, x);
    var s1, s2 := PendingGoesLive(s, x);
    var s3;
    s3, s' := LiveGoesDone(s2, x);
    LeadsByFour(Takes, s, CommitRoot(x), s1, CountCommitted(x), s2, CompleteRoot(x), s3, CountCompleted(x), s');
  }

  lemma NoGrantsYet(s: State, x: nat)
    requires Inv(s) && InStage(s, x, Pending)
    ensures s.counters.pending > 0 && forall g | g in s.grants :: s.grants[g] != x
  {
    assert x in PendingRoots(s.roots);
  }
}
