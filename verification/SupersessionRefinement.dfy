/**
  The protocol runs the coordinator's own methods: what a step does to the
  coordinator's state is what the contract of the method it stands for says.
 */
module SupersessionRefinement {
  import opened Options
  import opened Supersession
  import opened RequestCoordinator
  import opened RequestLane
  import opened SupersessionProtocol
  import opened SupersessionInvariant
  import opened SupersessionTheorems
  import opened SupersessionTickets

  /** The coordinator after a step, in the words of ComputeRequestCoordinator's contracts. */
  function CoordAfter(s: System, step: Step): (c': Coord)
    requires Enabled(s, step)
  {
    var c := s.coord;
    var v := View(s, StepKey(s, step));
    match step
    case EnterPrepare(k) =>
      if !c.accepting || c.allocator.Peek().None? then c
      else if EnterRow(RowAt(c, k)).None? then c.(allocator := c.allocator.Advance())
      else SetRow(c, k, Some(EnterRow(RowAt(c, k)).value.0)).(allocator := c.allocator.Advance())
    case WakePrepare(k, _) => SetRow(c, k, WakeRow(RowAt(c, k), c.accepting).0)
    case ReserveThrow(k, _) => SetRow(c, k, ReserveFailedRow(RowAt(c, k)).0)
    case Install(k, g) => SetRow(c, k, InstallRow(RowAt(c, k), v.preps[g].ticket).0)
    case AbandonPrepared(k, _) => SetRow(c, k, AbandonRow(RowAt(c, k)).0)
    case PublishPrepared(k, g) => SetRow(c, k, PublishRow(RowAt(c, k), c.accepting, g).0)
    case PumpFirst(k, t) =>
      var o := PumpBeginRow(RowAt(c, k), c.activeKey.Some?, t);
      SetRow(c, k, o.0).(activeKey := if o.1.Execute? then Some(k) else c.activeKey)
    case PumpLast(k, t) =>
      var o := PumpEndRow(RowAt(c, k), c.activeKey == Some(k), t, v.tickets[t].phase.stage.generation);
      SetRow(c, k, o.0).(activeKey := if o.1.Settled? then None else c.activeKey)
    case StopCoordinator => c.(accepting := false)
    case _ => c
  }

  lemma PutCoord(s: System, k: Key, w: Cell)
    ensures (if w == View(s, k) then s else Put(s, k, w)).coord ==
              SetRow(s.coord, k, w.row).(activeKey :=
                if w.running then Some(k) else if s.coord.activeKey == Some(k) then None else s.coord.activeKey)
  {
    assert SetRow(s.coord, k, RowAt(s.coord, k)).rows == s.coord.rows;
  }

  /** The row and the active key after CellAfter are those of CoordAfter. */
  predicate Agrees(s: System, step: Step, w: Cell)
    requires Enabled(s, step) && !step.StopLane? && !step.StopCoordinator?
  {
    var c' := CoordAfter(s, step);
    && SetRow(s.coord, step.key, w.row).rows == c'.rows
    && c'.activeKey == (if w.running then Some(step.key)
                        else if s.coord.activeKey == Some(step.key) then None else s.coord.activeKey)
    && c'.accepting == s.coord.accepting
  }

  lemma SameRow(c: Coord, k: Key)
    ensures SetRow(c, k, RowAt(c, k)) == c
  {
    assert SetRow(c, k, RowAt(c, k)).rows == c.rows;
  }

  lemma EnterAgrees(s: System, v: Cell, step: Step)
    requires v == View(s, StepKey(s, step)) && EnabledAt(s, v, step) && step.EnterPrepare?
    ensures Agrees(s, step, CellAfter(s, v, step))
  {
    SameRow(s.coord, step.key);
  }

  lemma CallerAgrees(s: System, v: Cell, step: Step)
    requires v == View(s, StepKey(s, step)) && EnabledAt(s, v, step) && OfCaller(step) && !step.EnterPrepare?
    ensures Agrees(s, step, CellAfter(s, v, step))
  {
    SameRow(s.coord, step.key);
  }

  lemma EffectFrame(open: bool, v: Cell, e: Effect)
    ensures RunEffect(open, v, e).row == v.row && RunEffect(open, v, e).running == v.running
  {
  }

  lemma EffectAgrees(s: System, v: Cell, step: Step)
    requires v == View(s, StepKey(s, step)) && EnabledAt(s, v, step)
    requires step.RunGraphEffect? || step.RunClientEffect? || step.BeginTurn? || step.EndTurn?
    ensures Agrees(s, step, CellAfter(s, v, step))
  {
    SameRow(s.coord, step.key);
    if step.RunGraphEffect? {
      EffectFrame(s.laneOpen, v.(tail := v.tail[1..]), v.tail[0]);
    } else if step.RunClientEffect? {
      EffectFrame(s.laneOpen, v.(clients := v.clients - multiset{step.effect}), step.effect);
    }
  }

  lemma PumpAgrees(s: System, v: Cell, step: Step)
    requires v == View(s, StepKey(s, step)) && EnabledAt(s, v, step)
    requires step.PumpFirst? || step.PumpLast? || step.PublishPrepared?
    ensures Agrees(s, step, CellAfter(s, v, step))
  {
  }

  lemma CommitCoord(s: System, step: Step, w: Cell)
    requires !step.StopLane? && !step.StopCoordinator?
    ensures Commit(s, step, w).coord ==
              SetRow(s.coord, step.key, w.row).(
                activeKey := if w.running then Some(step.key)
                             else if s.coord.activeKey == Some(step.key) then None else s.coord.activeKey,
                allocator := if step.EnterPrepare? && s.coord.accepting then s.coord.allocator.Advance()
                             else s.coord.allocator)
  {
    PutCoord(s, step.key, w);
  }

  lemma KeyStepRunsCoordinator(s: System, step: Step, w: Cell)
    requires Enabled(s, step) && !step.StopLane? && !step.StopCoordinator? && Agrees(s, step, w)
    ensures Commit(s, step, w).coord == CoordAfter(s, step)
  {
    CommitCoord(s, step, w);
  }

  lemma StepAgrees(s: System, step: Step)
    requires Enabled(s, step) && !step.StopLane? && !step.StopCoordinator?
    ensures Agrees(s, step, CellAfter(s, View(s, step.key), step))
  {
    if step.EnterPrepare? {
      EnterAgrees(s, View(s, step.key), step);
    } else if OfCaller(step) {
      CallerAgrees(s, View(s, step.key), step);
    } else if step.PumpFirst? || step.PumpLast? || step.PublishPrepared? {
      PumpAgrees(s, View(s, step.key), step);
    } else {
      EffectAgrees(s, View(s, step.key), step);
    }
  }

  /** Every step changes the coordinator as the method it stands for promises. */
  lemma StepRunsCoordinator(s: System, step: Step)
    requires Enabled(s, step)
    ensures Apply(s, step).coord == CoordAfter(s, step)
  {
    if !step.StopLane? && !step.StopCoordinator? {
      StepAgrees(s, step);
      KeyStepRunsCoordinator(s, step, CellAfter(s, View(s, step.key), step));
    }
  }

  /** The first region of a turn whose ticket is not the row's changes no row and retires. */
  lemma StaleTurnIsHarmless(s: System, k: Key, t: nat)
    requires Enabled(s, PumpFirst(k, t))
    requires k in s.coord.rows ==> s.coord.rows[k].ticket != Some(t)
    ensures Apply(s, PumpFirst(k, t)).coord == s.coord
    ensures t in SideOf(Apply(s, PumpFirst(k, t)), k).tickets
    ensures DecidesRetire(SideOf(Apply(s, PumpFirst(k, t)), k).tickets[t])
  {
    StepRunsCoordinator(s, PumpFirst(k, t));
    SameRow(s.coord, k);
  }

  /** A step of a turn of ticket `t` of key `k`. */
  predicate OfTurn(step: Step, k: Key, t: nat) {
    step == BeginTurn(k, t) || step == PumpFirst(k, t) || step == PumpLast(k, t) || step == EndTurn(k, t)
  }

  lemma UnownedTurnIsHarmless(s: System, step: Step, k: Key, t: nat)
    requires Inv(s) && Enabled(s, step) && OfTurn(step, k, t) && !RowHolds(View(s, k).row, t)
    ensures Apply(s, step).coord == s.coord && !step.PumpLast?
  {
    assert CellInv(View(s, k), s.laneOpen);
    if step.PumpFirst? {
      StaleTurnIsHarmless(s, k, t);
    } else {
      StepRunsCoordinator(s, step);
    }
  }

  lemma ErasedIsUnowned(first: nat, states: seq<System>, steps: seq<Step>, i: nat, j: nat, k: Key, t: nat)
    requires IsRun(first, states, steps) && i <= j <= |steps| && View(states[i], k).log.erased[t] > 0
    ensures !RowHolds(View(states[j], k).row, t)
  {
    RunLogGrows(first, states, steps, i, j, k);
    EveryTicketHasOneOwner(first, states, steps, j, k, t);
  }

  /**
    From the erasure of a ticket's row on, no turn of the ticket changes the
    coordinator at any time, not even a recreated row, and none executes a
    candidate.
   */
  lemma ErasedTicketTouchesNothing(
      first: nat, states: seq<System>, steps: seq<Step>, i: nat, j: nat, k: Key, t: nat)
    requires IsRun(first, states, steps) && i <= j < |steps| && View(states[i], k).log.erased[t] > 0
    requires OfTurn(steps[j], k, t)
    ensures states[j + 1].coord == states[j].coord && !steps[j].PumpLast?
  {
    ErasedIsUnowned(first, states, steps, i, j, k, t);
    RunKeepsInv(first, states, steps, j);
    assert Takes(states[j], steps[j], states[j + 1]);
    UnownedTurnIsHarmless(states[j], steps[j], k, t);
  }
}
