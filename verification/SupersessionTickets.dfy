/**
  The coordinator and the lane's tickets: no published candidate is left without
  a turn while the lane is open, exactly when stopping the lane strands one, and
  every ticket has one owner and is retired exactly when its row is erased while
  the coordinator accepts.
 */
module SupersessionTickets {
  import opened Counting
  import opened Options
  import opened Supersession
  import opened RequestCoordinator
  import opened RequestLane
  import opened SupersessionProtocol
  import opened SupersessionInvariant
  import opened SupersessionTheorems

  // ------------------------------------------------------------- stranded mailboxes

  /** The ticket will run pump_turn's mailbox check again by itself. */
  predicate Due(x: Ticket, open: bool) {
    || x.phase.Queued?
    || (x.phase.Running? && x.phase.stage.Entering?)
    || Executes(x)
    || DecidesQueue(x)
    || (DecidesPark(x) && x.wakePending)
    || (!open && x.closeTurn && (x.phase.Parked? || DecidesPark(x)))
  }

  /**
    Ticket `t` will run the check again without any further publication or
    abandonment: a turn is due, or a wake on the open lane or a resume on the
    stopped one is on its way.
   */
  predicate Owed(x: Ticket, t: nat, tail: seq<Effect>, clients: multiset<Effect>, open: bool) {
    Due(x, open) || (open && DoWake(t) in tail) || (!open && DoResume(t) in clients)
  }

  /** A mailbox with a candidate in it has a turn coming. */
  predicate NotStranded(v: Cell, open: bool) {
    v.row.Some? && v.row.value.pending.Some? && v.row.value.ticket.Some? ==>
      var t := v.row.value.ticket.value;
      t in v.tickets && Owed(v.tickets[t], t, v.tail, v.clients, open)
  }

  /**
    A turn has decided to park, a candidate arrived since, its wake is not
    latched yet, and no abandoned preparation is about to resume the ticket.
   */
  predicate AtRisk(v: Cell) {
    v.row.Some? && v.row.value.pending.Some? && v.row.value.ticket.Some?
    && v.row.value.ticket.value in v.tickets
    && var x := v.tickets[v.row.value.ticket.value];
       DecidesPark(x) && !x.wakePending && !x.closeTurn && DoResume(v.row.value.ticket.value) !in v.clients
  }

  lemma CallerNotStranded(s: System, v: Cell, step: Step)
    requires EnabledAt(s, v, step) && OfCaller(step)
    requires v.tail == if s.itemKey == StepKey(s, step) then s.tail else []
    requires InvRow(v.row, v.preps, v.running, v.log.published) && s.nextTicket !in v.tickets
    requires NotStranded(v, s.laneOpen)
    ensures NotStranded(CellAfter(s, v, step), s.laneOpen)
  {
    if step.EnterPrepare? || step.WakePrepare? {
      EnteringNotStranded(s, v, step);
    } else {
      ReservingNotStranded(s, v, step);
    }
  }

  lemma EnteringNotStranded(s: System, v: Cell, step: Step)
    requires EnabledAt(s, v, step) && (step.EnterPrepare? || step.WakePrepare?)
    requires v.tail == if s.itemKey == StepKey(s, step) then s.tail else []
    requires NotStranded(v, s.laneOpen)
    ensures NotStranded(CellAfter(s, v, step), s.laneOpen)
  {
  }

  lemma ReservingNotStranded(s: System, v: Cell, step: Step)
    requires EnabledAt(s, v, step) && OfCaller(step) && !step.EnterPrepare? && !step.WakePrepare?
    requires v.tail == if s.itemKey == StepKey(s, step) then s.tail else []
    requires InvRow(v.row, v.preps, v.running, v.log.published) && s.nextTicket !in v.tickets
    requires NotStranded(v, s.laneOpen)
    ensures NotStranded(CellAfter(s, v, step), s.laneOpen)
  {
  }

  lemma PublishNotStranded(v: Cell, open: bool, accepting: bool, g: nat)
    requires InvTicket(v, open) && v.tail == [] && (accepting ==> open) && NotStranded(v, open)
    ensures NotStranded(PublishCell(v, accepting, g), open)
  {
    var p := PublishRow(v.row, accepting, g).1;
    if p.verdict.Accepted? {
      TailMembers(p, g);
    }
  }

  lemma EffectNotStranded(v: Cell, open: bool, e: Effect)
    requires InvTicket(v, open)
    requires v.row.Some? && v.row.value.ticket.Some? ==> e != DoRetire(v.row.value.ticket.value)
    requires || NotStranded(v, open)
             || (v.row.Some? && ((open && e.DoWake?) || (!open && e.DoResume?)) && v.row.value.ticket == Some(e.ticket))
    ensures NotStranded(RunEffect(open, v, e), open)
  {
  }

  lemma ClientNotStranded(v: Cell, open: bool, e: Effect)
    requires CellInv(v, open) && NotStranded(v, open) && e in v.clients
    ensures NotStranded(RunEffect(open, v.(clients := v.clients - multiset{e}), e), open)
  {
    EffectNotStranded(v.(clients := v.clients - multiset{e}), open, e);
  }

  lemma GraphNotStranded(v: Cell, open: bool, e: Effect, rest: seq<Effect>)
    requires CellInv(v, open) && NotStranded(v, open) && v.tail == [e] + rest
    ensures NotStranded(RunEffect(open, v.(tail := rest), e), open)
  {
    TailRest(v.tail, e, rest);
    ShorterTailKeepsLane(v, open, e, rest);
    EffectNotStranded(v.(tail := rest), open, e);
  }

  lemma TicketNotStranded(v: Cell, open: bool, t: nat)
    requires t in v.tickets && InvTicket(v, open) && NotStranded(v, open)
    ensures CanStart(open, v.tickets[t]) ==>
              NotStranded(WithTicket(v, t, StartTurn(v.tickets[t])), open)
    ensures Decides(v.tickets[t]) ==>
              NotStranded(WithTicket(v, t, FinishTurn(open, v.tickets[t], v.tickets[t].phase.stage.action)), open)
  {
  }

  lemma PumpNotStranded(v: Cell, open: bool, busy: bool, t: nat)
    requires t in v.tickets && InvTicket(v, open) && NotStranded(v, open)
    requires InvRow(v.row, v.preps, v.running, v.log.published) && InvTurns(v.row, v.tickets)
    ensures NotStranded(PumpFirstCell(v, busy, t), open)
    ensures Executes(v.tickets[t]) ==> NotStranded(PumpLastCell(v, t), open)
  {
  }

  lemma OwnNotStranded(s: System, v: Cell, step: Step)
    requires EnabledAt(s, v, step) && !step.StopLane? && !step.StopCoordinator? && !OfCaller(step)
    requires v.tail == if s.itemKey == StepKey(s, step) then s.tail else []
    requires CellInv(v, s.laneOpen) && NotStranded(v, s.laneOpen) && (s.coord.accepting ==> s.laneOpen)
    ensures NotStranded(CellAfter(s, v, step), s.laneOpen)
  {
    match step
    case PublishPrepared(_, g) => PublishNotStranded(v, s.laneOpen, s.coord.accepting, g);
    case RunClientEffect(_, e) => ClientNotStranded(v, s.laneOpen, e);
    case RunGraphEffect(_) =>
      assert v.tail == [v.tail[0]] + v.tail[1..];
      GraphNotStranded(v, s.laneOpen, v.tail[0], v.tail[1..]);
    case BeginTurn(_, t) => TicketNotStranded(v, s.laneOpen, t);
    case PumpFirst(_, t) => PumpNotStranded(v, s.laneOpen, s.coord.activeKey.Some?, t);
    case PumpLast(_, t) => PumpNotStranded(v, s.laneOpen, true, t);
    case EndTurn(_, t) => TicketNotStranded(v, s.laneOpen, t);
  }

  /** Every step except the one that stops the lane keeps every mailbox served. */
  lemma StepKeepsMailboxesServed(s: System, step: Step, k: Key)
    requires Inv(s) && Enabled(s, step) && !(step.StopLane? && s.laneOpen)
    requires NotStranded(View(s, k), s.laneOpen)
    ensures NotStranded(View(Apply(s, step), k), Apply(s, step).laneOpen)
  {
    if step.StopLane? || step.StopCoordinator? {
      StopIsUniform(s, step, k);
    } else {
      GlobalStep(s, step);
      StepIsLocal(s, step, k);
      if k == step.key {
        OwnKeepsMailboxServed(s, step);
      }
    }
  }

  lemma OwnKeepsMailboxServed(s: System, step: Step)
    requires Inv(s) && Enabled(s, step) && !step.StopLane? && !step.StopCoordinator?
    requires NotStranded(View(s, step.key), s.laneOpen)
    ensures NotStranded(CellAfter(s, View(s, step.key), step), s.laneOpen)
  {
    var v := View(s, step.key);
    assert CellInv(v, s.laneOpen);
    NewTicketUnknown(s, step.key);
    if OfCaller(step) {
      CallerNotStranded(s, v, step);
    } else {
      OwnNotStranded(s, v, step);
    }
  }

  /** The two counters' next values are new to every key. */
  lemma NewTicketUnknown(s: System, k: Key)
    requires GlobalInv(s)
    ensures s.nextTicket !in View(s, k).tickets
    ensures s.coord.allocator.Peek().Some? ==> s.coord.allocator.Peek().value !in View(s, k).log.issued
  {
    forall g | g in View(s, k).log.issued ensures s.coord.allocator.Peek() != Some(g) {
      assert k in s.sides && g in s.sides[k].log.issued;
      assert s.coord.allocator.Issued(g);
    }
  }

  lemma CloseStrandsIff(v: Cell)
    requires CellInv(v, true)
    ensures NotStranded(CloseCell(v), false) <==> !AtRisk(v)
  {
  }

  /**
    Stopping the lane leaves a key's candidate without a turn exactly when a turn
    of the key has decided to park, the candidate was published after that
    decision, its wake has not been latched, and no resume is on its way.
   */
  lemma StopLaneStrandsIff(s: System, k: Key)
    requires Inv(s) && s.laneOpen && Enabled(s, StopLane)
    ensures NotStranded(View(Apply(s, StopLane), k), false) <==> !AtRisk(View(s, k))
  {
    StopIsUniform(s, StopLane, k);
    assert CellInv(View(s, k), true);
    CloseStrandsIff(View(s, k));
  }

  lemma RunStepServes(first: nat, states: seq<System>, steps: seq<Step>, i: nat, k: Key)
    requires IsRun(first, states, steps) && i < |steps| && states[i].laneOpen && states[i + 1].laneOpen
    requires NotStranded(View(states[i], k), true)
    ensures NotStranded(View(states[i + 1], k), true)
  {
    RunKeepsInv(first, states, steps, i);
    assert Takes(states[i], steps[i], states[i + 1]);
    StaysStopped(states[i], steps[i], states[i + 1]);
    StepKeepsMailboxesServed(states[i], steps[i], k);
  }

  lemma RunStaysStopped(first: nat, states: seq<System>, steps: seq<Step>, i: nat)
    requires IsRun(first, states, steps) && i < |steps|
    ensures states[i + 1].laneOpen ==> states[i].laneOpen
    ensures states[i + 1].coord.accepting ==> states[i].coord.accepting
  {
    assert Takes(states[i], steps[i], states[i + 1]);
    StaysStopped(states[i], steps[i], states[i + 1]);
  }

  /** While the lane admits work, no reachable state has a stranded mailbox. */
  lemma {:induction false} MailboxesServedWhileOpen(
      first: nat, states: seq<System>, steps: seq<Step>, i: nat, k: Key)
    requires IsRun(first, states, steps) && i <= |steps| && states[i].laneOpen
    ensures NotStranded(View(states[i], k), true)
  {
    if i == 0 {
      InitiallyEmpty(first, k);
    } else {
      RunStaysStopped(first, states, steps, i - 1);
      MailboxesServedWhileOpen(first, states, steps, i - 1, k);
      RunStepServes(first, states, steps, i - 1, k);
    }
  }

  /** Neither the lane nor the coordinator reopens. */
  lemma StaysStopped(s: System, step: Step, s': System)
    requires Takes(s, step, s')
    ensures s'.laneOpen ==> s.laneOpen && !step.StopLane?
    ensures s'.coord.accepting ==> s.coord.accepting
  {
    if !step.StopLane? && !step.StopCoordinator? {
      CommitFrame(s, step, CellAfter(s, View(s, step.key), step));
    }
  }

  // --------------------------------------------------------------- lost reservations

  predicate HeldByReserver(preps: map<nat, PrepStage>, t: nat) {
    exists g | g in preps :: preps[g] == Reserved(t)
  }

  /** Somebody owns ticket `t`, or its retirement is done, latched, decided or about to be asked for. */
  ghost predicate Accounted(v: Cell, t: nat) {
    t in v.tickets ==>
      || Deaf(v.tickets[t])
      || DecidesRetire(v.tickets[t])
      || (v.row.Some? && v.row.value.ticket == Some(t))
      || HeldByReserver(v.preps, t)
      || Retiring(v.tail, v.clients, t)
  }

  ghost predicate AllAccounted(v: Cell) {
    forall t: nat | t in v.tickets :: Accounted(v, t)
  }

  lemma ReserverMoves(m: map<nat, PrepStage>, g: nat, p: PrepStage, t: nat)
    requires g in m ==> m[g] != Reserved(t)
    ensures HeldByReserver(m[g := p], t) <==> p == Reserved(t) || HeldByReserver(m, t)
    ensures HeldByReserver(m - {g}, t) <==> HeldByReserver(m, t)
  {
    var m', m'' := m[g := p], m - {g};
    if HeldByReserver(m, t) {
      var h :| h in m && m[h] == Reserved(t);
      assert h in m' && m'[h] == Reserved(t) && h in m'' && m''[h] == Reserved(t);
    }
    if p == Reserved(t) {
      assert g in m' && m'[g] == Reserved(t);
    }
  }

  lemma AdmitAccounts(v: Cell, g: nat, t: nat)
    requires v.row.Some? && g in v.preps && v.preps[g].Waiting? && Accounted(v, t)
    ensures Accounted(WakeCell(v, true, g), t)
  {
    ReserverMoves(v.preps, g, StageOf(Admit(v.row.value)), t);
  }

  /** While the row has a ticket nobody holds a reserved one. */
  lemma NotHeldTwice(v: Cell, t: nat)
    requires InvPreps(v.row, v.preps) && InvRow(v.row, v.preps, v.running, v.log.published)
    requires v.row.Some? && v.row.value.ticket.Some?
    ensures !HeldByReserver(v.preps, t)
  {
    forall g | g in v.preps ensures v.preps[g] != Reserved(t) {
      assert !IsReserver(v.preps[g]);
    }
  }

  lemma EnterAccounts(v: Cell, g: nat, t: nat)
    requires g !in v.preps && Accounted(v, t)
    ensures Accounted(EnterCell(v, g), t)
  {
    if EnterRow(v.row).Some? {
      ReserverMoves(v.preps, g, StageOf(EnterRow(v.row).value.1), t);
    }
  }

  lemma ReserveAccounts(v: Cell, g: nat, t: nat, newTicket: nat)
    requires g in v.preps && v.preps[g].Reserving? && newTicket !in v.tickets && Accounted(v, t)
    ensures Accounted(ReserveCell(v, g, newTicket), t)
    ensures Accounted(ReserveCell(v, g, newTicket), newTicket)
  {
    ReserverMoves(v.preps, g, Reserved(newTicket), t);
    ReserverMoves(v.preps, g, Reserved(newTicket), newTicket);
  }

  lemma ReserveThrowAccounts(v: Cell, g: nat, t: nat)
    requires InvPreps(v.row, v.preps) && InvRow(v.row, v.preps, v.running, v.log.published)
    requires g in v.preps && v.preps[g].Reserving? && Accounted(v, t)
    ensures Accounted(ReserveThrowCell(v, g), t)
  {
    ReserverMoves(v.preps, g, Waiting, t);
  }

  lemma InstallAccounts(v: Cell, g: nat, t: nat)
    requires InvPreps(v.row, v.preps) && InvRow(v.row, v.preps, v.running, v.log.published)
    requires g in v.preps && v.preps[g].Reserved? && Accounted(v, t)
    ensures Accounted(InstallCell(v, g), t)
  {
    if v.preps[g] != Reserved(t) {
      ReserverMoves(v.preps, g, Prepared, t);
    }
  }

  lemma AbandonAccounts(v: Cell, g: nat, t: nat)
    requires g in v.preps && v.preps[g].Prepared? && Accounted(v, t)
    ensures Accounted(AbandonCell(v, g), t)
  {
    ReserverMoves(v.preps, g, Waiting, t);
  }

  lemma PublishAccounts(v: Cell, accepting: bool, g: nat, t: nat)
    requires g in v.preps && v.preps[g].Prepared? && v.tail == [] && Accounted(v, t)
    ensures Accounted(PublishCell(v, accepting, g), t)
  {
    ReserverMoves(v.preps, g, Waiting, t);
    TailMembers(PublishRow(v.row, accepting, g).1, g);
  }

  lemma EffectAccounts(v: Cell, open: bool, e: Effect, t: nat)
    requires Accounted(v, t) || e == DoRetire(t)
    ensures Accounted(RunEffect(open, v, e), t)
  {
  }

  lemma GraphAccounts(v: Cell, open: bool, e: Effect, rest: seq<Effect>, t: nat)
    requires Accounted(v, t) && v.tail == [e] + rest
    ensures Accounted(RunEffect(open, v.(tail := rest), e), t)
  {
    assert DoRetire(t) in v.tail ==> e == DoRetire(t) || DoRetire(t) in rest;
    EffectAccounts(v.(tail := rest), open, e, t);
  }

  lemma ClientAccounts(v: Cell, open: bool, e: Effect, t: nat)
    requires Accounted(v, t) && e in v.clients
    ensures Accounted(RunEffect(open, v.(clients := v.clients - multiset{e}), e), t)
  {
    assert DoRetire(t) in v.clients ==> e == DoRetire(t) || DoRetire(t) in v.clients - multiset{e};
    EffectAccounts(v.(clients := v.clients - multiset{e}), open, e, t);
  }

  lemma TicketAccounts(v: Cell, open: bool, u: nat, t: nat)
    requires u in v.tickets && Accounted(v, t)
    ensures CanStart(open, v.tickets[u]) ==> Accounted(WithTicket(v, u, StartTurn(v.tickets[u])), t)
    ensures Decides(v.tickets[u]) ==>
              Accounted(WithTicket(v, u, FinishTurn(open, v.tickets[u], v.tickets[u].phase.stage.action)), t)
  {
  }

  lemma PumpAccounts(v: Cell, busy: bool, u: nat, t: nat)
    requires u in v.tickets && v.tickets[u].phase.Running? && Accounted(v, t)
    ensures v.tickets[u].phase.stage.Entering? ==> Accounted(PumpFirstCell(v, busy, u), t)
    ensures Executes(v.tickets[u]) ==> Accounted(PumpLastCell(v, u), t)
  {
  }

  /** While the coordinator accepts, every step of a key keeps ticket `t` accounted for. */
  lemma OwnAccounts(s: System, v: Cell, step: Step, t: nat)
    requires EnabledAt(s, v, step) && !step.StopLane? && !step.StopCoordinator? && s.coord.accepting
    requires v.tail == if s.itemKey == StepKey(s, step) then s.tail else []
    requires CellInv(v, s.laneOpen) && Accounted(v, t) && s.nextTicket !in v.tickets
    requires step.EnterPrepare? && s.coord.allocator.Peek().Some? ==> s.coord.allocator.Peek().value !in v.preps
    ensures Accounted(CellAfter(s, v, step), t)
  {
    if OfCaller(step) {
      CallerAccounts(s, v, step, t);
    } else {
      match step
      case PublishPrepared(_, g) => PublishAccounts(v, s.coord.accepting, g, t);
      case RunClientEffect(_, e) => ClientAccounts(v, s.laneOpen, e, t);
      case RunGraphEffect(_) =>
        assert v.tail == [v.tail[0]] + v.tail[1..];
        GraphAccounts(v, s.laneOpen, v.tail[0], v.tail[1..], t);
      case BeginTurn(_, u) => TicketAccounts(v, s.laneOpen, u, t);
      case PumpFirst(_, u) => PumpAccounts(v, s.coord.activeKey.Some?, u, t);
      case PumpLast(_, u) => PumpAccounts(v, true, u, t);
      case EndTurn(_, u) => TicketAccounts(v, s.laneOpen, u, t);
    }
  }

  lemma CallerAccounts(s: System, v: Cell, step: Step, t: nat)
    requires EnabledAt(s, v, step) && OfCaller(step) && s.coord.accepting
    requires v.tail == if s.itemKey == StepKey(s, step) then s.tail else []
    requires InvPreps(v.row, v.preps) && InvRow(v.row, v.preps, v.running, v.log.published)
    requires Accounted(v, t) && s.nextTicket !in v.tickets
    requires step.EnterPrepare? && s.coord.allocator.Peek().Some? ==> s.coord.allocator.Peek().value !in v.preps
    ensures Accounted(CellAfter(s, v, step), t)
  {
    match step
    case EnterPrepare(_) =>
      if s.coord.allocator.Peek().Some? {
        EnterAccounts(v, s.coord.allocator.Peek().value, t);
      }
    case WakePrepare(_, g) => AdmitAccounts(v, g, t);
    case ReserveOk(_, g) => ReserveAccounts(v, g, t, s.nextTicket);
    case ReserveThrow(_, g) => ReserveThrowAccounts(v, g, t);
    case Install(_, g) => InstallAccounts(v, g, t);
    case AbandonPrepared(_, g) => AbandonAccounts(v, g, t);
  }

  /** While the coordinator accepts, a step keeps every ticket of every key accounted for. */
  lemma StepKeepsAccounted(s: System, step: Step, k: Key)
    requires Inv(s) && Enabled(s, step) && AllAccounted(View(s, k)) && s.coord.accepting
    ensures AllAccounted(View(Apply(s, step), k))
  {
    if step.StopCoordinator? {
      StopIsUniform(s, step, k);
    } else {
      StepIsLocal(s, step, k);
      if k == step.key {
        OwnKeepsAccounted(s, step);
      }
    }
  }

  lemma OwnKeepsAccounted(s: System, step: Step)
    requires Inv(s) && Enabled(s, step) && !step.StopLane? && !step.StopCoordinator? && s.coord.accepting
    requires AllAccounted(View(s, step.key))
    ensures AllAccounted(CellAfter(s, View(s, step.key), step))
  {
    var v := View(s, step.key);
    assert CellInv(v, s.laneOpen);
    NewTicketUnknown(s, step.key);
    forall t: nat ensures Accounted(CellAfter(s, v, step), t) {
      assert Accounted(v, t);
      OwnAccounts(s, v, step, t);
    }
  }

  // ------------------------------------------------------------- one owner per ticket

  predicate RowHolds(o: Option<Row>, t: nat) { o.Some? && o.value.ticket == Some(t) }

  /** How many of row, reserver and history of erased rows name ticket `t`. */
  ghost function Owners(v: Cell, t: nat): (n: nat) {
    B(RowHolds(v.row, t)) + B(HeldByReserver(v.preps, t)) + v.log.erased[t]
  }

  ghost predicate OneOwner(v: Cell, t: nat) {
    Owners(v, t) == B(t in v.tickets)
  }

  /** Erasing a row moves its ticket to the history; keeping the row keeps its ticket. */
  lemma RowOwners(v: Cell, o: Option<Row>, t: nat)
    requires o.Some? ==> v.row.Some? && o.value.ticket == v.row.value.ticket
    ensures B(RowHolds(o, t)) + WithRow(v, o).log.erased[t] == B(RowHolds(v.row, t)) + v.log.erased[t]
  {
  }

  lemma EnterOwners(v: Cell, g: nat, t: nat)
    requires g !in v.preps
    ensures EnterCell(v, g).tickets == v.tickets && Owners(EnterCell(v, g), t) == Owners(v, t)
  {
    if EnterRow(v.row).Some? {
      ReserverMoves(v.preps, g, StageOf(EnterRow(v.row).value.1), t);
    }
  }

  lemma WakeOwners(v: Cell, accepting: bool, g: nat, t: nat)
    requires g in v.preps && v.preps[g].Waiting? && v.row.Some?
    ensures WakeCell(v, accepting, g).tickets == v.tickets && Owners(WakeCell(v, accepting, g), t) == Owners(v, t)
  {
    RowOwners(v, WakeRow(v.row, accepting).0, t);
    ReserverMoves(v.preps, g, StageOf(Admit(v.row.value)), t);
  }

  lemma LeavingOwners(v: Cell, g: nat, t: nat)
    requires g in v.preps
    requires InvRow(v.row, v.preps, v.running, v.log.published) && InvPreps(v.row, v.preps)
    ensures v.preps[g].Reserving? ==> Owners(ReserveThrowCell(v, g), t) == Owners(v, t)
    ensures v.preps[g].Prepared? ==> Owners(AbandonCell(v, g), t) == Owners(v, t)
  {
    if v.preps[g].Reserving? {
      RowOwners(v, ReserveFailedRow(v.row).0, t);
      ReserverMoves(v.preps, g, Waiting, t);
    } else if v.preps[g].Prepared? {
      RowOwners(v, AbandonRow(v.row).0, t);
      ReserverMoves(v.preps, g, Waiting, t);
    }
  }

  lemma ReserveOwners(v: Cell, g: nat, n: nat, t: nat)
    requires g in v.preps && v.preps[g].Reserving? && n !in v.tickets && OneOwner(v, t)
    ensures OneOwner(ReserveCell(v, g, n), t)
  {
    ReserverMoves(v.preps, g, Reserved(n), t);
  }

  lemma InstallOwners(v: Cell, g: nat, t: nat)
    requires InvRow(v.row, v.preps, v.running, v.log.published) && InvPreps(v.row, v.preps)
    requires g in v.preps && v.preps[g].Reserved? && OneOwner(v, t)
    ensures OneOwner(InstallCell(v, g), t)
  {
    var w := InstallCell(v, g);
    if v.preps[g] != Reserved(t) {
      ReserverMoves(v.preps, g, Prepared, t);
    } else {
      forall h | h in w.preps ensures w.preps[h] != Reserved(t) {
        assert h != g ==> !IsReserver(v.preps[h]);
      }
    }
  }

  lemma PublishOwners(v: Cell, accepting: bool, g: nat, t: nat)
    requires g in v.preps && v.preps[g].Prepared?
    ensures Owners(PublishCell(v, accepting, g), t) == Owners(v, t)
  {
    RowOwners(v, PublishRow(v.row, accepting, g).0, t);
    ReserverMoves(v.preps, g, Waiting, t);
  }

  lemma EffectOwners(open: bool, v: Cell, e: Effect, t: nat)
    ensures Owners(RunEffect(open, v, e), t) == Owners(v, t)
    ensures t in RunEffect(open, v, e).tickets <==> t in v.tickets
  {
  }

  lemma PumpOwners(v: Cell, busy: bool, u: nat, t: nat)
    requires u in v.tickets && v.tickets[u].phase.Running?
    ensures Owners(PumpFirstCell(v, busy, u), t) == Owners(v, t)
    ensures Executes(v.tickets[u]) ==> Owners(PumpLastCell(v, u), t) == Owners(v, t)
  {
    RowOwners(v, PumpBeginRow(v.row, busy, u).0, t);
    if Executes(v.tickets[u]) {
      RowOwners(v, PumpEndRow(v.row, v.running, u, v.tickets[u].phase.stage.generation).0, t);
    }
  }

  lemma OwnOwners(s: System, v: Cell, step: Step, t: nat)
    requires EnabledAt(s, v, step) && !step.StopLane? && !step.StopCoordinator?
    requires v.tail == if s.itemKey == StepKey(s, step) then s.tail else []
    requires InvRow(v.row, v.preps, v.running, v.log.published) && InvPreps(v.row, v.preps)
    requires s.nextTicket !in v.tickets && OneOwner(v, t)
    requires step.EnterPrepare? && s.coord.allocator.Peek().Some? ==> s.coord.allocator.Peek().value !in v.preps
    ensures OneOwner(CellAfter(s, v, step), t)
  {
    if OfCaller(step) {
      CallerOwners(s, v, step, t);
    } else {
      OtherOwners(s, v, step, t);
    }
  }

  lemma CallerOwners(s: System, v: Cell, step: Step, t: nat)
    requires EnabledAt(s, v, step) && OfCaller(step)
    requires v.tail == if s.itemKey == StepKey(s, step) then s.tail else []
    requires InvRow(v.row, v.preps, v.running, v.log.published) && InvPreps(v.row, v.preps)
    requires s.nextTicket !in v.tickets && OneOwner(v, t)
    requires step.EnterPrepare? && s.coord.allocator.Peek().Some? ==> s.coord.allocator.Peek().value !in v.preps
    ensures OneOwner(CellAfter(s, v, step), t)
  {
    match step
    case EnterPrepare(_) =>
      if s.coord.allocator.Peek().Some? {
        EnterOwners(v, s.coord.allocator.Peek().value, t);
      }
    case WakePrepare(_, g) => WakeOwners(v, s.coord.accepting, g, t);
    case ReserveOk(_, g) => ReserveOwners(v, g, s.nextTicket, t);
    case ReserveThrow(_, g) => LeavingOwners(v, g, t);
    case Install(_, g) => InstallOwners(v, g, t);
    case AbandonPrepared(_, g) => LeavingOwners(v, g, t);
  }

  lemma OtherOwners(s: System, v: Cell, step: Step, t: nat)
    requires EnabledAt(s, v, step) && !OfCaller(step) && !step.StopLane? && !step.StopCoordinator?
    requires v.tail == if s.itemKey == StepKey(s, step) then s.tail else []
    requires OneOwner(v, t)
    ensures OneOwner(CellAfter(s, v, step), t)
  {
    match step
    case PublishPrepared(_, g) => PublishOwners(v, s.coord.accepting, g, t);
    case RunClientEffect(_, e) => EffectOwners(s.laneOpen, v.(clients := v.clients - multiset{e}), e, t);
    case RunGraphEffect(_) => EffectOwners(s.laneOpen, v.(tail := v.tail[1..]), v.tail[0], t);
    case BeginTurn(_, u) =>
    case PumpFirst(_, u) => PumpOwners(v, s.coord.activeKey.Some?, u, t);
    case PumpLast(_, u) => PumpOwners(v, true, u, t);
    case EndTurn(_, u) =>
  }

  lemma OwnKeepsOwner(s: System, step: Step, t: nat)
    requires Inv(s) && Enabled(s, step) && !step.StopLane? && !step.StopCoordinator?
    requires OneOwner(View(s, step.key), t)
    ensures OneOwner(CellAfter(s, View(s, step.key), step), t)
  {
    assert CellInv(View(s, step.key), s.laneOpen);
    NewTicketUnknown(s, step.key);
    OwnOwners(s, View(s, step.key), step, t);
  }

  lemma CloseKeepsOwner(v: Cell, t: nat)
    requires OneOwner(v, t)
    ensures OneOwner(CloseCell(v), t)
  {
  }

  lemma StepKeepsOwner(s: System, step: Step, k: Key, t: nat)
    requires Enabled(s, step) && Inv(s) && OneOwner(View(s, k), t)
    ensures OneOwner(View(Apply(s, step), k), t)
  {
    if step.StopLane? || step.StopCoordinator? {
      StopIsUniform(s, step, k);
      CloseKeepsOwner(View(s, k), t);
    } else {
      StepIsLocal(s, step, k);
      if k == step.key {
        OwnKeepsOwner(s, step, t);
      }
    }
  }

  lemma RunStepKeepsOwner(first: nat, states: seq<System>, steps: seq<Step>, i: nat, k: Key, t: nat)
    requires IsRun(first, states, steps) && i < |steps| && OneOwner(View(states[i], k), t)
    ensures OneOwner(View(states[i + 1], k), t)
  {
    RunKeepsInv(first, states, steps, i);
    assert Takes(states[i], steps[i], states[i + 1]);
    StepKeepsOwner(states[i], steps[i], k, t);
  }

  /** In every reachable state a ticket belongs to one row, or one reserver, or one erased row. */
  lemma {:induction false} EveryTicketHasOneOwner(
      first: nat, states: seq<System>, steps: seq<Step>, i: nat, k: Key, t: nat)
    requires IsRun(first, states, steps) && i <= |steps|
    ensures OneOwner(View(states[i], k), t)
  {
    if i == 0 {
      InitiallyEmpty(first, k);
      assert OneOwner(EMPTY_CELL, t);
    } else {
      EveryTicketHasOneOwner(first, states, steps, i - 1, k, t);
      RunStepKeepsOwner(first, states, steps, i - 1, k, t);
    }
  }

  lemma RunStepKeepsAccounted(first: nat, states: seq<System>, steps: seq<Step>, i: nat, k: Key)
    requires IsRun(first, states, steps) && i < |steps| && states[i].coord.accepting
    requires AllAccounted(View(states[i], k))
    ensures AllAccounted(View(states[i + 1], k))
  {
    RunKeepsInv(first, states, steps, i);
    assert Takes(states[i], steps[i], states[i + 1]);
    StepKeepsAccounted(states[i], steps[i], k);
  }

  lemma InitiallyAccounted(first: nat, k: Key)
    ensures AllAccounted(View(Init(first), k))
  {
    InitiallyEmpty(first, k);
  }

  lemma {:induction false} AccountedWhileAccepting(
      first: nat, states: seq<System>, steps: seq<Step>, i: nat, k: Key)
    requires IsRun(first, states, steps) && i <= |steps| && states[i].coord.accepting
    ensures AllAccounted(View(states[i], k))
  {
    if i == 0 {
      InitiallyAccounted(first, k);
    } else {
      RunStaysStopped(first, states, steps, i - 1);
      AccountedWhileAccepting(first, states, steps, i - 1, k);
      RunStepKeepsAccounted(first, states, steps, i - 1, k);
    }
  }

  /** Ticket `t` is retired, or its retirement is latched, decided or about to be asked for. */
  ghost predicate Leaving(v: Cell, t: nat) {
    t in v.tickets && (Deaf(v.tickets[t]) || DecidesRetire(v.tickets[t]) || Retiring(v.tail, v.clients, t))
  }

  lemma OwnedIsNotLeaving(v: Cell, t: nat)
    requires CellInv(v, true) && (RowHolds(v.row, t) || HeldByReserver(v.preps, t))
    ensures !Leaving(v, t)
  {
    if HeldByReserver(v.preps, t) {
      var g :| g in v.preps && v.preps[g] == Reserved(t);
      assert !Names(DoRetire(t), t) || Unnamed(v.tail, v.clients, t);
    }
  }

  /**
    Until stop_admission a key's tickets retire exactly when their row was
    erased, once each, and at most one ticket of the key is not leaving.
   */
  lemma ErasureIsRetirementWhileAccepting(
      first: nat, states: seq<System>, steps: seq<Step>, i: nat, k: Key, t: nat, u: nat)
    requires IsRun(first, states, steps) && i <= |steps| && states[i].coord.accepting
    ensures var v := View(states[i], k);
            && v.log.erased[t] == B(Leaving(v, t))
            && (t in v.tickets && u in v.tickets && !Leaving(v, t) && !Leaving(v, u) ==> t == u)
  {
    var v := View(states[i], k);
    RunKeepsInv(first, states, steps, i);
    assert CellInv(v, states[i].laneOpen);
    AccountedWhileAccepting(first, states, steps, i, k);
    EveryTicketHasOneOwner(first, states, steps, i, k, t);
    EveryTicketHasOneOwner(first, states, steps, i, k, u);
    LeavingIffErased(v, t);
    LeavingIffErased(v, u);
    if t in v.tickets && u in v.tickets && !Leaving(v, t) && !Leaving(v, u) {
      SoleOwner(v, t, u);
    }
  }

  lemma LeavingIffErased(v: Cell, t: nat)
    requires CellInv(v, true) && AllAccounted(v) && OneOwner(v, t)
    ensures v.log.erased[t] == B(Leaving(v, t))
  {
    if RowHolds(v.row, t) || HeldByReserver(v.preps, t) {
      OwnedIsNotLeaving(v, t);
    } else if t in v.tickets {
      assert Accounted(v, t);
    }
  }

  lemma SoleOwner(v: Cell, t: nat, u: nat)
    requires InvPreps(v.row, v.preps) && InvRow(v.row, v.preps, v.running, v.log.published)
    requires RowHolds(v.row, t) || HeldByReserver(v.preps, t)
    requires RowHolds(v.row, u) || HeldByReserver(v.preps, u)
    ensures t == u
  {
    if RowHolds(v.row, t) || RowHolds(v.row, u) {
      NotHeldTwice(v, t);
      NotHeldTwice(v, u);
    } else {
      var g :| g in v.preps && v.preps[g] == Reserved(t);
      var h :| h in v.preps && v.preps[h] == Reserved(u);
      assert IsReserver(v.preps[g]) && IsReserver(v.preps[h]);
    }
  }
}
