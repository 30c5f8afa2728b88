/**
  Two runs in which closing the graph breaks a promise that holds while it is
  open: a reservation nobody will retire, and a published candidate nobody will
  run.  Both end in a state that no enabled step changes.
 */
module SupersessionCloseRuns {
  import opened Options
  import opened Supersession
  import opened RequestCoordinator
  import opened RequestLane
  import opened SupersessionProtocol
  import opened SupersessionTheorems
  import opened SupersessionTickets
  import opened SupersessionClose
  import opened SupersessionDrain

  const K := Key(0, GlobalHighPrecision)

  /** The system in which only key K was ever used. */
  function Solo(v: Cell, accepting: bool, next: nat, open: bool, tickets: nat): (s: System) {
    System(Coord(if v.row.Some? then map[K := v.row.value] else map[], accepting,
                 if v.running then Some(K) else None, Allocator(next, false)),
           map[K := Side(v.preps, v.tickets, v.clients, v.log)], open, tickets, K, v.tail)
  }

  lemma SoloView(v: Cell, accepting: bool, next: nat, open: bool, tickets: nat, k: Key)
    ensures View(Solo(v, accepting, next, open, tickets), k) == if k == K then v else EMPTY_CELL
  {
  }

  /** A step of K other than Enter, ReserveOk and the stops stays within Solo. */
  lemma SoloStep(v: Cell, accepting: bool, next: nat, open: bool, tickets: nat, step: Step)
    requires !step.StopLane? && !step.StopCoordinator? && step.key == K
    requires EnabledAt(Solo(v, accepting, next, open, tickets), v, step)
    requires next < UINT64_MAX
    ensures Takes(Solo(v, accepting, next, open, tickets), step,
                  Solo(CellAfter(Solo(v, accepting, next, open, tickets), v, step), accepting,
                       if step.EnterPrepare? && accepting then next + 1 else next, open,
                       if step.ReserveOk? then tickets + 1 else tickets))
  {
    SoloView(v, accepting, next, open, tickets, K);
    var s := Solo(v, accepting, next, open, tickets);
    var w := CellAfter(s, v, step);
    SoloCommit(v, accepting, next, open, tickets, step, w);
  }

  lemma SoloCommit(v: Cell, accepting: bool, next: nat, open: bool, tickets: nat, step: Step, w: Cell)
    requires !step.StopLane? && !step.StopCoordinator? && step.key == K && next < UINT64_MAX
    ensures Commit(Solo(v, accepting, next, open, tickets), step, w) ==
              Solo(w, accepting, if step.EnterPrepare? && accepting then next + 1 else next, open,
                   if step.ReserveOk? then tickets + 1 else tickets)
  {
    SoloView(v, accepting, next, open, tickets, K);
    SoloPut(v, accepting, next, open, tickets, w);
  }

  lemma SoloPut(v: Cell, accepting: bool, next: nat, open: bool, tickets: nat, w: Cell)
    ensures Put(Solo(v, accepting, next, open, tickets), K, w) == Solo(w, accepting, next, open, tickets)
  {
    SoloView(v, accepting, next, open, tickets, K);
  }

  /** States reachable from an empty coordinator whose first generation is 1. */
  ghost predicate Reachable(s: System) {
    exists states, steps :: IsRun(1, states, steps) && states[|steps|] == s
  }

  lemma Reach(s: System, step: Step, s': System)
    requires Reachable(s) && Takes(s, step, s')
    ensures Reachable(s')
  {
    var states, steps :| IsRun(1, states, steps) && states[|steps|] == s;
    var states', steps' := states + [s'], steps + [step];
    forall i: nat | i < |steps'| ensures Takes(states'[i], steps'[i], states'[i + 1]) {
      if i < |steps| {
        assert Takes(states[i], steps[i], states[i + 1]);
      }
    }
    assert IsRun(1, states', steps');
  }

  lemma ReachSolo(v: Cell, accepting: bool, next: nat, open: bool, tickets: nat, step: Step)
    requires Reachable(Solo(v, accepting, next, open, tickets))
    requires !step.StopLane? && !step.StopCoordinator? && step.key == K && next < UINT64_MAX
    requires EnabledAt(Solo(v, accepting, next, open, tickets), v, step)
    ensures Reachable(Solo(CellAfter(Solo(v, accepting, next, open, tickets), v, step), accepting,
                           if step.EnterPrepare? && accepting then next + 1 else next, open,
                           if step.ReserveOk? then tickets + 1 else tickets))
  {
    SoloStep(v, accepting, next, open, tickets, step);
    Reach(Solo(v, accepting, next, open, tickets), step,
          Solo(CellAfter(Solo(v, accepting, next, open, tickets), v, step), accepting,
               if step.EnterPrepare? && accepting then next + 1 else next, open,
               if step.ReserveOk? then tickets + 1 else tickets));
  }

  /** stop_admission, then the lane's stop. */
  lemma ReachClosed(v: Cell, next: nat, tickets: nat)
    requires Reachable(Solo(v, true, next, true, tickets))
    ensures Reachable(Solo(CloseCell(v), false, next, false, tickets))
  {
    var s1, s2 := Solo(v, false, next, true, tickets), Solo(CloseCell(v), false, next, false, tickets);
    assert Takes(Solo(v, true, next, true, tickets), StopCoordinator, s1);
    Reach(Solo(v, true, next, true, tickets), StopCoordinator, s1);
    SoloView(v, false, next, true, tickets, K);
    assert s2.sides == Apply(s1, StopLane).sides;
    assert Takes(s1, StopLane, s2);
    Reach(s1, StopLane, s2);
  }

  lemma ReachFirst()
    ensures Reachable(Solo(EnterCell(EMPTY_CELL, 1), true, 2, true, 0))
  {
    var s := Init(1);
    var none: seq<Step> := [];
    assert IsRun(1, [s], none) && [s][|none|] == s;
    var s' := Solo(EnterCell(EMPTY_CELL, 1), true, 2, true, 0);
    assert View(s, K) == EMPTY_CELL;
    assert Takes(s, EnterPrepare(K), s');
    Reach(s, EnterPrepare(K), s');
  }

  lemma ReachSecond()
    ensures Reachable(Solo(EnterCell(EnterCell(EMPTY_CELL, 1), 2), true, 3, true, 0))
  {
    ReachFirst();
    ReachSolo(EnterCell(EMPTY_CELL, 1), true, 2, true, 0, EnterPrepare(K));
  }

  // ------------------------------------------------------------ a lost reservation

  const T_EXECUTES := Ticket(Running(Executing(1)), false, false, false)

  /** Two callers enter; the first reserves the ticket and publishes; its turn executes. */
  lemma FirstExecutes(v: Cell, next: nat)
    requires Reachable(Solo(v, true, next, true, 0)) && next < UINT64_MAX
    requires v.row.Some? && v.row.value.ticket.None? && v.row.value.reserving
    requires v.row.value.current.None? && v.row.value.pending.None? && v.row.value.active.None?
    requires v.row.value.adopters > 0 && !v.running && v.tail == [] && v.tickets == map[]
    requires 1 in v.preps && v.preps[1].Reserving?
    ensures exists w: Cell ::
              Reachable(Solo(w, true, next, true, 1))
              && w.row == Some(Row(Some(1), Some(0), None, Some(1), v.row.value.adopters - 1, false))
              && w.preps == v.preps - {1} && w.tickets == map[0 := T_EXECUTES] && w.clients == v.clients
              && w.tail == [] && w.running
  {
    ReachSolo(v, true, next, true, 0, ReserveOk(K, 1));
    var v1 := CellAfter(Solo(v, true, next, true, 0), v, ReserveOk(K, 1));
    assert v1.preps[1] == Reserved(0);
    ReachSolo(v1, true, next, true, 1, Install(K, 1));
    var v2 := CellAfter(Solo(v1, true, next, true, 1), v1, Install(K, 1));
    assert v2.preps == v.preps[1 := Prepared] && v2.preps - {1} == v.preps - {1};
    FirstPublishes(v2, next);
  }

  lemma FirstPublishes(v: Cell, next: nat)
    requires Reachable(Solo(v, true, next, true, 1)) && next < UINT64_MAX
    requires v.row.Some? && v.row.value.ticket == Some(0) && !v.row.value.reserving
    requires v.row.value.current.None? && v.row.value.pending.None? && v.row.value.active.None?
    requires v.row.value.adopters > 0 && !v.running && v.tail == [] && v.tickets == map[0 := NEW_TICKET]
    requires 1 in v.preps && v.preps[1].Prepared?
    ensures exists w: Cell ::
              Reachable(Solo(w, true, next, true, 1))
              && w.row == Some(Row(Some(1), Some(0), None, Some(1), v.row.value.adopters - 1, false))
              && w.preps == v.preps - {1} && w.tickets == map[0 := T_EXECUTES] && w.clients == v.clients
              && w.tail == [] && w.running
  {
    ReachSolo(v, true, next, true, 1, PublishPrepared(K, 1));
    var v1 := CellAfter(Solo(v, true, next, true, 1), v, PublishPrepared(K, 1));
    assert v1.tail == [DoWake(0)] && v1.preps == v.preps - {1};
    FirstTurn(v1, next);
  }

  lemma FirstTurn(v: Cell, next: nat)
    requires Reachable(Solo(v, true, next, true, 1)) && next < UINT64_MAX
    requires v.row.Some? && v.row.value.ticket == Some(0) && !v.row.value.reserving
    requires v.row.value.current == Some(1) && v.row.value.pending == Some(1) && v.row.value.active.None?
    requires !v.running && v.tail == [DoWake(0)] && v.tickets == map[0 := NEW_TICKET]
    ensures exists w: Cell ::
              Reachable(Solo(w, true, next, true, 1))
              && w.row == Some(Row(Some(1), Some(0), None, Some(1), v.row.value.adopters, false))
              && w.preps == v.preps && w.tickets == map[0 := T_EXECUTES] && w.clients == v.clients
              && w.tail == [] && w.running
  {
    ReachSolo(v, true, next, true, 1, RunGraphEffect(K));
    var v1 := CellAfter(Solo(v, true, next, true, 1), v, RunGraphEffect(K));
    assert v1.tickets[0] == NEW_TICKET.(phase := Queued) && v1.tail == [];
    ReachSolo(v1, true, next, true, 1, BeginTurn(K, 0));
    var v2 := CellAfter(Solo(v1, true, next, true, 1), v1, BeginTurn(K, 0));
    assert v2.tickets[0] == NEW_TICKET.(phase := Running(Entering));
    ReachSolo(v2, true, next, true, 1, PumpFirst(K, 0));
    var v3 := CellAfter(Solo(v2, true, next, true, 1), v2, PumpFirst(K, 0));
    assert v3.tickets == map[0 := T_EXECUTES];
  }

  /** A parked ticket of K belongs to no row and nobody is about to retire it. */
  ghost predicate TicketLost(s: System) {
    && K !in s.coord.rows && Lost(View(s, K), 0, s.laneOpen)
    && 0 in SideOf(s, K).tickets && SideOf(s, K).tickets[0].phase.Parked?
  }

  /** A published candidate of K waits for a turn that nobody owes. */
  ghost predicate CandidateStranded(s: System) {
    K in s.coord.rows && s.coord.rows[K].pending == Some(2) && !NotStranded(View(s, K), s.laneOpen)
  }

  lemma IdleIsLost(v: Cell)
    requires v.row.None? && v.preps == map[] && v.tickets == map[0 := NEW_TICKET]
    requires v.clients == multiset{} && v.tail == []
    ensures TicketLost(Solo(v, false, 3, false, 1))
  {
    SoloView(v, false, 3, false, 1, K);
    assert Lost(v, 0, false);
  }

  lemma IdleIsStranded(v: Cell)
    requires v.row == Some(Row(Some(2), Some(0), Some(2), None, 0, false))
    requires v.tickets == map[0 := NEW_TICKET] && v.tail == [] && v.clients == multiset{}
    ensures CandidateStranded(Solo(v, false, 3, false, 1))
  {
    SoloView(v, false, 3, false, 1, K);
  }

  /** Everybody has left, no turn is running or due, and the graph-state lane is idle. */
  lemma IdleIsHalted(v: Cell, next: nat)
    requires v.preps == map[] && v.tickets == map[0 := NEW_TICKET] && v.clients == multiset{} && v.tail == []
    ensures Halted(Solo(v, false, next, false, 1))
  {
    var s := Solo(v, false, next, false, 1);
    forall step | Enabled(s, step) ensures Apply(s, step) == s {
      var k := StepKey(s, step);
      SoloView(v, false, next, false, 1, k);
      assert step.EnterPrepare? || step.StopLane? || step.StopCoordinator?;
    }
  }

  /**
    A run of ten steps and the two stops after which a parked ticket belongs to
    no row, no turn of it is due, nothing changes any more, and the lane's drain
    waits for its retirement for ever.
   */
  lemma CloseCanLoseTicket()
    ensures exists s: System :: Reachable(s) && Halted(s) && TicketLost(s)
  {
    var v2 := EnterCell(EnterCell(EMPTY_CELL, 1), 2);
    ReachSecond();
    assert v2.preps == map[1 := Reserving, 2 := Waiting];
    FirstExecutes(v2, 3);
    var v3: Cell :| Reachable(Solo(v3, true, 3, true, 1))
                    && v3.row == Some(Row(Some(1), Some(0), None, Some(1), 1, false))
                    && v3.preps == v2.preps - {1} && v3.tickets == map[0 := T_EXECUTES]
                    && v3.clients == multiset{} && v3.tail == [] && v3.running;
    WaiterLosesTicket(v3);
  }

  lemma WaiterLosesTicket(v: Cell)
    requires Reachable(Solo(v, true, 3, true, 1))
    requires v.row == Some(Row(Some(1), Some(0), None, Some(1), 1, false)) && v.preps == map[2 := Waiting]
    requires v.tickets == map[0 := T_EXECUTES] && v.clients == multiset{} && v.tail == [] && v.running
    ensures exists s: System :: Reachable(s) && Halted(s) && TicketLost(s)
  {
    ReachClosed(v, 3, 1);
    var v1 := CloseCell(v);
    assert v1.tickets[0] == T_EXECUTES;
    ReachSolo(v1, false, 3, false, 1, PumpLast(K, 0));
    var v2 := CellAfter(Solo(v1, false, 3, false, 1), v1, PumpLast(K, 0));
    assert v2.tickets[0] == T_EXECUTES.(phase := Running(Returning(Park)));
    WaiterIsRejected(v2);
  }

  /** The turn parks the ticket; the waiter then erases the row that held it. */
  lemma WaiterIsRejected(v: Cell)
    requires Reachable(Solo(v, false, 3, false, 1))
    requires v.row == Some(Row(Some(1), Some(0), None, None, 1, false)) && v.preps == map[2 := Waiting]
    requires v.tickets == map[0 := T_EXECUTES.(phase := Running(Returning(Park)))]
    requires v.clients == multiset{} && v.tail == [] && !v.running
    ensures exists s: System :: Reachable(s) && Halted(s) && TicketLost(s)
  {
    ReachSolo(v, false, 3, false, 1, EndTurn(K, 0));
    var v1 := CellAfter(Solo(v, false, 3, false, 1), v, EndTurn(K, 0));
    assert v1.tickets == map[0 := NEW_TICKET];
    ReachSolo(v1, false, 3, false, 1, WakePrepare(K, 2));
    var v2 := CellAfter(Solo(v1, false, 3, false, 1), v1, WakePrepare(K, 2));
    IdleIsHalted(v2, 3);
    IdleIsLost(v2);
  }

  // ---------------------------------------------------------- a stranded mailbox

  /** A run after which a published candidate waits in its mailbox and nothing changes any more. */
  lemma CloseCanStrandMailbox()
    ensures exists s: System :: Reachable(s) && Halted(s) && CandidateStranded(s)
  {
    ReachFirst();
    var v1 := EnterCell(EMPTY_CELL, 1);
    FirstExecutes(v1, 2);
    var v2: Cell :| Reachable(Solo(v2, true, 2, true, 1))
                    && v2.row == Some(Row(Some(1), Some(0), None, Some(1), 0, false))
                    && v2.preps == v1.preps - {1} && v2.tickets == map[0 := T_EXECUTES]
                    && v2.clients == multiset{} && v2.tail == [] && v2.running;
    ReachSolo(v2, true, 2, true, 1, EnterPrepare(K));
    var v3 := CellAfter(Solo(v2, true, 2, true, 1), v2, EnterPrepare(K));
    assert v3 == EnterCell(v2, 2) && v3.preps == map[2 := Prepared];
    ParkedCandidate(v3);
  }

  lemma ParkedCandidate(v: Cell)
    requires Reachable(Solo(v, true, 3, true, 1))
    requires v.row == Some(Row(Some(1), Some(0), None, Some(1), 1, false)) && v.preps == map[2 := Prepared]
    requires v.tickets == map[0 := T_EXECUTES] && v.clients == multiset{} && v.tail == [] && v.running
    ensures exists s: System :: Reachable(s) && Halted(s) && CandidateStranded(s)
  {
    ReachSolo(v, true, 3, true, 1, PumpLast(K, 0));
    var v1 := CellAfter(Solo(v, true, 3, true, 1), v, PumpLast(K, 0));
    assert v1.tickets[0] == T_EXECUTES.(phase := Running(Returning(Park)));
    ReachSolo(v1, true, 3, true, 1, PublishPrepared(K, 2));
    var v2 := CellAfter(Solo(v1, true, 3, true, 1), v1, PublishPrepared(K, 2));
    assert v2.tail == [DoWake(0)] && v2.preps == map[];
    ReachClosed(v2, 3, 1);
    WakeComesTooLate(CloseCell(v2));
  }

  lemma WakeComesTooLate(v: Cell)
    requires Reachable(Solo(v, false, 3, false, 1))
    requires v.row == Some(Row(Some(2), Some(0), Some(2), None, 0, false)) && v.preps == map[]
    requires v.tickets == map[0 := T_EXECUTES.(phase := Running(Returning(Park)))]
    requires v.clients == multiset{} && v.tail == [DoWake(0)] && !v.running
    ensures exists s: System :: Reachable(s) && Halted(s) && CandidateStranded(s)
  {
    ReachSolo(v, false, 3, false, 1, RunGraphEffect(K));
    var v1 := CellAfter(Solo(v, false, 3, false, 1), v, RunGraphEffect(K));
    assert v1.tickets[0] == T_EXECUTES.(phase := Running(Returning(Park))) && v1.tail == [];
    ReachSolo(v1, false, 3, false, 1, EndTurn(K, 0));
    var v2 := CellAfter(Solo(v1, false, 3, false, 1), v1, EndTurn(K, 0));
    assert v2.tickets == map[0 := NEW_TICKET];
    IdleIsHalted(v2, 3);
    IdleIsStranded(v2);
  }
}
