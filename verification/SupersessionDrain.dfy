/**
  Draining a closed graph: what a state looks like in which no thread can do
  anything any more, and that such a state is drained exactly when no step of
  the run lost a ticket and none stranded a candidate for good.
 */
module SupersessionDrain {
  import opened Supersession
  import opened RequestLane
  import opened SupersessionProtocol
  import opened SupersessionInvariant
  import opened SupersessionTheorems
  import opened SupersessionTickets
  import opened SupersessionClose

  /** No thread can change anything any more. */
  ghost predicate Halted(s: System) {
    forall step | Enabled(s, step) :: Apply(s, step) == s
  }

  /** The step can be taken and changes something. */
  ghost predicate Moves(s: System, step: Step) {
    Enabled(s, step) && Apply(s, step) != s
  }

  /** A step that changes its key changes the graph. */
  lemma StepMoves(s: System, step: Step)
    requires Enabled(s, step) && !step.StopLane? && !step.StopCoordinator?
    requires CellAfter(s, View(s, step.key), step) != View(s, step.key)
    ensures Moves(s, step)
  {
    StepIsLocal(s, step, step.key);
  }

  lemma CallerMoves(s: System, k: Key, g: nat) returns (step: Step)
    requires !s.coord.accepting && g in View(s, k).preps
    ensures Moves(s, step) && !step.PumpFirst?
  {
    var v := View(s, k);
    match v.preps[g]
    case Waiting =>
      assert g !in WakeCell(v, false, g).preps;
      step := WakePrepare(k, g);
      StepMoves(s, step);
    case Reserving =>
      assert g !in ReserveThrowCell(v, g).preps;
      step := ReserveThrow(k, g);
      StepMoves(s, step);
    case Reserved(_) =>
      assert InstallCell(v, g).preps[g] == Prepared;
      step := Install(k, g);
      StepMoves(s, step);
    case Prepared =>
      assert g !in AbandonCell(v, g).preps;
      step := AbandonPrepared(k, g);
      StepMoves(s, step);
  }

  lemma EffectMoves(s: System, k: Key, e: Effect)
    requires e in View(s, k).clients
    ensures Moves(s, RunClientEffect(k, e))
  {
    var v := View(s, k);
    EffectFields(s.laneOpen, v.(clients := v.clients - multiset{e}), e);
    assert (v.clients - multiset{e})[e] == v.clients[e] - 1;
    StepMoves(s, RunClientEffect(k, e));
  }

  lemma ItemMoves(s: System, k: Key)
    requires View(s, k).tail != []
    ensures Moves(s, RunGraphEffect(k))
  {
    var v := View(s, k);
    EffectFields(s.laneOpen, v.(tail := v.tail[1..]), v.tail[0]);
    assert |v.tail[1..]| != |v.tail|;
    StepMoves(s, RunGraphEffect(k));
  }

  lemma TurnMoves(s: System, k: Key, t: nat) returns (step: Step)
    requires t in View(s, k).tickets
    requires var x := View(s, k).tickets[t]; CanStart(s.laneOpen, x) || x.phase.Running?
    ensures Moves(s, step)
  {
    var v := View(s, k);
    var x := v.tickets[t];
    if CanStart(s.laneOpen, x) {
      assert WithTicket(v, t, StartTurn(x)).tickets[t].phase.Running?;
      step := BeginTurn(k, t);
      StepMoves(s, step);
    } else {
      step := RunningMoves(s, k, t);
    }
  }

  lemma RunningMoves(s: System, k: Key, t: nat) returns (step: Step)
    requires t in View(s, k).tickets && View(s, k).tickets[t].phase.Running?
    ensures Moves(s, step)
  {
    var v := View(s, k);
    var x := v.tickets[t];
    match x.phase.stage
    case Entering =>
      assert !PumpFirstCell(v, s.coord.activeKey.Some?, t).tickets[t].phase.stage.Entering?;
      step := PumpFirst(k, t);
      StepMoves(s, step);
    case Executing(_) =>
      assert PumpLastCell(v, t).tickets[t].phase.stage.Returning?;
      step := PumpLast(k, t);
      StepMoves(s, step);
    case Returning(action) =>
      assert !WithTicket(v, t, FinishTurn(s.laneOpen, x, action)).tickets[t].phase.Running?;
      step := EndTurn(k, t);
      StepMoves(s, step);
  }

  /** The ticket has no turn running or due. */
  predicate AtRest(x: Ticket) {
    x.phase.Retired? || (x.phase.Parked? && !x.closeTurn)
  }

  predicate Closed(s: System) { !s.coord.accepting && !s.laneOpen }

  /** What one key looks like in a closed graph in which nothing can happen. */
  ghost predicate RestShape(v: Cell) {
    && v.preps == map[] && v.tail == [] && v.clients == multiset{} && !v.running
    && (forall t | t in v.tickets :: AtRest(v.tickets[t]))
    && (v.row.Some? ==>
          v.row.value.pending.Some? && v.row.value.ticket.Some?
          && v.row.value.ticket.value in v.tickets && v.tickets[v.row.value.ticket.value].phase.Parked?)
  }

  lemma RestingTicket(s: System, k: Key, t: nat)
    requires Halted(s) && Closed(s) && t in View(s, k).tickets
    ensures AtRest(View(s, k).tickets[t])
  {
    if !AtRest(View(s, k).tickets[t]) {
      var step := TurnMoves(s, k, t);
    }
  }

  lemma RestingCallers(s: System, k: Key)
    requires Halted(s) && Closed(s)
    ensures View(s, k).preps == map[] && View(s, k).clients == multiset{} && View(s, k).tail == []
  {
    var v := View(s, k);
    if v.tail != [] {
      ItemMoves(s, k);
    } else if v.preps != map[] {
      var g :| g in v.preps;
      var step := CallerMoves(s, k, g);
    } else if v.clients != multiset{} {
      var e :| e in v.clients;
      EffectMoves(s, k, e);
    }
  }

  lemma RestingRow(v: Cell)
    requires CellInv(v, false) && v.preps == map[] && forall t | t in v.tickets :: AtRest(v.tickets[t])
    ensures !v.running
    ensures v.row.Some? ==>
              v.row.value.pending.Some? && v.row.value.ticket.Some?
              && v.row.value.ticket.value in v.tickets && v.tickets[v.row.value.ticket.value].phase.Parked?
  {
  }

  lemma HaltedShape(s: System, k: Key)
    requires Inv(s) && Halted(s) && Closed(s)
    ensures RestShape(View(s, k))
  {
    RestingCallers(s, k);
    forall t | t in View(s, k).tickets ensures AtRest(View(s, k).tickets[t]) {
      RestingTicket(s, k, t);
    }
    assert CellInv(View(s, k), s.laneOpen);
    RestingRow(View(s, k));
  }

  /** Everything the coordinator's destructor and the lane's drain wait for. */
  ghost predicate CellDrained(v: Cell) {
    v.row.None? && v.preps == map[] && forall t | t in v.tickets :: v.tickets[t].phase.Retired?
  }

  // -------------------------------------------------------------------- ticket shape

  /** A parked ticket has no retirement pending. */
  ghost predicate Shaped(tickets: map<nat, Ticket>) {
    forall t | t in tickets :: tickets[t].phase.Parked? ==> !tickets[t].retirePending
  }

  lemma EffectShaped(open: bool, v: Cell, e: Effect)
    requires Shaped(v.tickets)
    ensures Shaped(RunEffect(open, v, e).tickets)
  {
  }

  lemma TurnShaped(s: System, v: Cell, step: Step)
    requires EnabledAt(s, v, step) && Shaped(v.tickets)
    requires step.BeginTurn? || step.PumpFirst? || step.PumpLast? || step.EndTurn?
    requires v.tail == if s.itemKey == StepKey(s, step) then s.tail else []
    ensures Shaped(CellAfter(s, v, step).tickets)
  {
  }

  lemma OwnShaped(s: System, v: Cell, step: Step)
    requires EnabledAt(s, v, step) && !step.StopLane? && !step.StopCoordinator? && Shaped(v.tickets)
    requires v.tail == if s.itemKey == StepKey(s, step) then s.tail else []
    ensures Shaped(CellAfter(s, v, step).tickets)
  {
    match step
    case RunClientEffect(_, e) => EffectShaped(s.laneOpen, v.(clients := v.clients - multiset{e}), e);
    case RunGraphEffect(_) => EffectShaped(s.laneOpen, v.(tail := v.tail[1..]), v.tail[0]);
    case BeginTurn(_, _) => TurnShaped(s, v, step);
    case PumpFirst(_, _) => TurnShaped(s, v, step);
    case PumpLast(_, _) => TurnShaped(s, v, step);
    case EndTurn(_, _) => TurnShaped(s, v, step);
    case _ =>
  }

  lemma CloseShaped(v: Cell)
    requires Shaped(v.tickets)
    ensures Shaped(CloseCell(v).tickets)
  {
  }

  lemma StepShaped(s: System, step: Step, k: Key)
    requires Enabled(s, step) && Shaped(View(s, k).tickets)
    ensures Shaped(View(Apply(s, step), k).tickets)
  {
    if step.StopLane? || step.StopCoordinator? {
      StopIsUniform(s, step, k);
      CloseShaped(View(s, k));
    } else {
      StepIsLocal(s, step, k);
      if k == step.key {
        OwnShaped(s, View(s, k), step);
      }
    }
  }

  lemma {:induction false} RunShaped(first: nat, states: seq<System>, steps: seq<Step>, i: nat, k: Key)
    requires IsRun(first, states, steps) && i <= |steps|
    ensures Shaped(View(states[i], k).tickets)
  {
    if i == 0 {
      InitiallyEmpty(first, k);
    } else {
      RunShaped(first, states, steps, i - 1, k);
      assert Takes(states[i - 1], steps[i - 1], states[i]);
      StepShaped(states[i - 1], steps[i - 1], k);
    }
  }

  // ------------------------------------------------------------------------ draining

  lemma RestDrainedIff(v: Cell)
    requires RestShape(v) && Shaped(v.tickets)
    ensures CellDrained(v) <==> NotStranded(v, false) && forall t: nat :: !Lost(v, t, false)
  {
    if NotStranded(v, false) && forall t: nat :: !Lost(v, t, false) {
      forall t | t in v.tickets ensures v.tickets[t].phase.Retired? {
        assert !Lost(v, t, false);
      }
    }
  }

  /**
    A closed graph in which nothing can happen is drained exactly when no
    mailbox is stranded and no ticket is lost: callers, reservations, running
    candidates and effects never hang a close.
   */
  lemma HangsOnlyTwoWays(first: nat, states: seq<System>, steps: seq<Step>, i: nat, k: Key)
    requires IsRun(first, states, steps) && i <= |steps| && Halted(states[i]) && Closed(states[i])
    ensures var v := View(states[i], k);
            CellDrained(v) <==> NotStranded(v, false) && forall t: nat :: !Lost(v, t, false)
  {
    RunKeepsInv(first, states, steps, i);
    HaltedShape(states[i], k);
    RunShaped(first, states, steps, i, k);
    RestDrainedIff(View(states[i], k));
  }

  /** The steps that lost a ticket of the key. */
  ghost predicate LosesSome(states: seq<System>, steps: seq<Step>, k: Key)
    requires |steps| < |states|
  {
    exists i: nat, t: nat | i < |steps| :: LosesAt(states[i], steps[i], k, t)
  }

  lemma LosesSomeIff(first: nat, states: seq<System>, steps: seq<Step>, k: Key)
    requires IsRun(first, states, steps)
    ensures LosesSome(states, steps, k) <==>
              exists t: nat :: Lost(View(states[|steps|], k), t, states[|steps|].laneOpen)
  {
    if LosesSome(states, steps, k) {
      var i: nat, t: nat :| i < |steps| && LosesAt(states[i], steps[i], k, t);
      assert LostBefore(states, steps, |steps|, k, t);
      LostIff(first, states, steps, |steps|, k, t);
    }
    if t: nat :| Lost(View(states[|steps|], k), t, states[|steps|].laneOpen) {
      LostIff(first, states, steps, |steps|, k, t);
    }
  }

  /**
    A run that closes the graph and cannot go on leaves a key drained exactly
    when none of its steps lost a ticket of the key and, if stopping the lane
    stranded the key's candidate, a preparation of the key was abandoned later.
   */
  lemma CloseDrainsIff(first: nat, states: seq<System>, steps: seq<Step>, k: Key)
    requires IsRun(first, states, steps) && Halted(states[|steps|]) && Closed(states[|steps|])
    ensures CellDrained(View(states[|steps|], k)) <==>
              !LosesSome(states, steps, k) && !StrandedSince(states, steps, |steps|, k)
  {
    HangsOnlyTwoWays(first, states, steps, |steps|, k);
    LosesSomeIff(first, states, steps, k);
    StrandedIff(first, states, steps, |steps|, k);
  }
}
