/**
  What closing can cost a key.  A candidate may be left without a turn and a
  ticket without anybody to retire it; for both, exactly which steps do it, and
  that nothing but an abandoned preparation makes up for the first and nothing
  at all for the second.
 */
module SupersessionClose {
  import opened Options
  import opened Supersession
  import opened RequestCoordinator
  import opened RequestLane
  import opened SupersessionProtocol
  import opened SupersessionInvariant
  import opened SupersessionTheorems
  import opened SupersessionTickets

  // --------------------------------------------------------- candidates left behind

  /** On the stopped lane: a candidate waits and its live ticket has no turn coming. */
  ghost predicate Stranded(v: Cell) {
    v.row.Some? && v.row.value.pending.Some? && v.row.value.ticket.Some?
    && var t := v.row.value.ticket.value;
       t in v.tickets && Live(v.tickets[t]) && !Due(v.tickets[t], false) && DoResume(t) !in v.clients
  }

  lemma StrandedIsNotServed(v: Cell)
    requires CellInv(v, false)
    ensures Stranded(v) <==> !NotStranded(v, false)
  {
  }

  /** The candidate that waited in `v` still waits in `w`, without a turn coming. */
  ghost predicate StillStranded(v: Cell, w: Cell) {
    Stranded(w) && v.row.Some? && w.row.value.pending == v.row.value.pending
  }

  lemma CallerLeavesStranded(s: System, v: Cell, step: Step)
    requires EnabledAt(s, v, step) && OfCaller(step) && !step.AbandonPrepared?
    requires v.tail == if s.itemKey == StepKey(s, step) then s.tail else []
    requires InvRow(v.row, v.preps, v.running, v.log.published) && InvPreps(v.row, v.preps)
    requires !s.coord.accepting && !s.laneOpen && Stranded(v)
    ensures StillStranded(v, CellAfter(s, v, step))
  {
  }

  /** An abandoned preparation sends the waiting candidate's ticket a resume. */
  lemma AbandonServes(v: Cell, g: nat)
    requires CellInv(v, false) && g in v.preps && v.preps[g].Prepared?
    ensures NotStranded(AbandonCell(v, g), false)
  {
  }

  lemma PublishLeavesStranded(v: Cell, g: nat)
    requires Stranded(v)
    ensures StillStranded(v, PublishCell(v, false, g))
  {
    PublishFields(v, false, g);
  }

  lemma EffectLeavesStranded(v: Cell, e: Effect)
    requires Stranded(v) && e != DoRetire(v.row.value.ticket.value) && e != DoResume(v.row.value.ticket.value)
    ensures StillStranded(v, RunEffect(false, v, e))
  {
  }

  lemma ClientLeavesStranded(v: Cell, e: Effect)
    requires Stranded(v) && e in v.clients && !Retiring(v.tail, v.clients, v.row.value.ticket.value)
    ensures StillStranded(v, RunEffect(false, v.(clients := v.clients - multiset{e}), e))
  {
    EffectLeavesStranded(v.(clients := v.clients - multiset{e}), e);
  }

  lemma ItemLeavesStranded(v: Cell)
    requires Stranded(v) && v.tail != [] && InvTicket(v, false) && InvNamed(v.tail, v.clients, v.tickets)
    ensures StillStranded(v, RunEffect(false, v.(tail := v.tail[1..]), v.tail[0]))
  {
    assert v.tail[0] in v.tail;
    EffectLeavesStranded(v.(tail := v.tail[1..]), v.tail[0]);
  }

  lemma TurnLeavesStranded(s: System, v: Cell, step: Step)
    requires EnabledAt(s, v, step) && (step.BeginTurn? || step.PumpFirst? || step.PumpLast? || step.EndTurn?)
    requires v.tail == if s.itemKey == StepKey(s, step) then s.tail else []
    requires !s.laneOpen && Stranded(v) && InvTurns(v.row, v.tickets)
    ensures StillStranded(v, CellAfter(s, v, step))
  {
  }

  lemma OwnLeavesStranded(s: System, v: Cell, step: Step)
    requires EnabledAt(s, v, step) && !step.StopLane? && !step.StopCoordinator? && !step.AbandonPrepared?
    requires v.tail == if s.itemKey == StepKey(s, step) then s.tail else []
    requires CellInv(v, false) && !s.coord.accepting && !s.laneOpen && Stranded(v)
    ensures StillStranded(v, CellAfter(s, v, step))
  {
    if OfCaller(step) {
      CallerLeavesStranded(s, v, step);
    } else {
      match step
      case PublishPrepared(_, g) => PublishLeavesStranded(v, g);
      case RunClientEffect(_, e) => ClientLeavesStranded(v, e);
      case RunGraphEffect(_) => ItemLeavesStranded(v);
      case _ => TurnLeavesStranded(s, v, step);
    }
  }

  predicate Abandons(step: Step, k: Key) { step.AbandonPrepared? && step.key == k }

  /** On the stopped lane only an abandoned preparation of the key ends its candidate's wait. */
  lemma StepLeavesStranded(s: System, step: Step, k: Key)
    requires Inv(s) && Enabled(s, step) && !s.laneOpen && Stranded(View(s, k)) && !Abandons(step, k)
    ensures StillStranded(View(s, k), View(Apply(s, step), k))
  {
    if step.StopLane? || step.StopCoordinator? {
      StopIsUniform(s, step, k);
    } else {
      StepIsLocal(s, step, k);
      if k == step.key {
        assert CellInv(View(s, k), s.laneOpen);
        OwnLeavesStranded(s, View(s, k), step);
      }
    }
  }

  lemma AbandonStepServes(s: System, step: Step, k: Key)
    requires Inv(s) && Enabled(s, step) && !s.laneOpen && Abandons(step, k)
    ensures NotStranded(View(Apply(s, step), k), false)
  {
    StepIsLocal(s, step, k);
    assert CellInv(View(s, k), s.laneOpen);
    AbandonServes(View(s, k), step.generation);
  }

  lemma LaneStaysStopped(s: System, step: Step)
    requires Enabled(s, step) && !s.laneOpen
    ensures !Apply(s, step).laneOpen
  {
    StaysStopped(s, step, Apply(s, step));
  }

  lemma StrandedAfter(s: System, step: Step, k: Key)
    requires Inv(s) && Enabled(s, step) && !s.laneOpen && !NotStranded(View(s, k), false) && !Abandons(step, k)
    ensures !NotStranded(View(Apply(s, step), k), false)
  {
    assert CellInv(View(s, k), s.laneOpen);
    StrandedIsNotServed(View(s, k));
    StepLeavesStranded(s, step, k);
    StepKeepsInv(s, step);
    LaneStaysStopped(s, step);
    assert CellInv(View(Apply(s, step), k), Apply(s, step).laneOpen);
    StrandedIsNotServed(View(Apply(s, step), k));
  }

  /**
    After any step on the stopped lane a key's mailbox is served exactly when it
    was served before or the step abandons a preparation of the key.
   */
  lemma StepServesIff(s: System, step: Step, k: Key)
    requires Inv(s) && Enabled(s, step) && !s.laneOpen
    ensures NotStranded(View(Apply(s, step), k), false) <==>
              NotStranded(View(s, k), false) || Abandons(step, k)
  {
    if Abandons(step, k) {
      AbandonStepServes(s, step, k);
    } else if NotStranded(View(s, k), false) {
      LaneStaysStopped(s, step);
      StepKeepsMailboxesServed(s, step, k);
    } else {
      StrandedAfter(s, step, k);
    }
  }

  /** The step stops the lane while the key's candidate is at risk. */
  ghost predicate StrandsAt(s: System, step: Step, k: Key) {
    step.StopLane? && s.laneOpen && AtRisk(View(s, k))
  }

  lemma StepStrandsIff(s: System, step: Step, s': System, k: Key)
    requires Inv(s) && Takes(s, step, s') && (s.laneOpen ==> NotStranded(View(s, k), true))
    ensures !NotStranded(View(s', k), s'.laneOpen) <==>
              StrandsAt(s, step, k) || (!NotStranded(View(s, k), s.laneOpen) && !Abandons(step, k))
  {
    if !s.laneOpen {
      LaneStaysStopped(s, step);
      StepServesIff(s, step, k);
    } else if step.StopLane? {
      StopLaneStrandsIff(s, k);
    } else {
      StepKeepsMailboxesServed(s, step, k);
    }
  }

  predicate NoAbandon(steps: seq<Step>, i: nat, j: nat, k: Key)
    requires j <= |steps|
  {
    forall l | i <= l < j :: !Abandons(steps[l], k)
  }

  /** Some step before `i` stranded the key and no preparation of it was abandoned since. */
  ghost predicate StrandedSince(states: seq<System>, steps: seq<Step>, i: nat, k: Key)
    requires i <= |steps| < |states|
  {
    exists j | 0 <= j < i :: StrandsAt(states[j], steps[j], k) && NoAbandon(steps, j + 1, i, k)
  }

  lemma SinceOneMore(states: seq<System>, steps: seq<Step>, i: nat, k: Key)
    requires i < |steps| < |states|
    ensures StrandedSince(states, steps, i + 1, k) <==>
              StrandsAt(states[i], steps[i], k)
              || (StrandedSince(states, steps, i, k) && !Abandons(steps[i], k))
  {
    if StrandsAt(states[i], steps[i], k) {
      assert NoAbandon(steps, i + 1, i + 1, k);
    }
    if StrandedSince(states, steps, i, k) && !Abandons(steps[i], k) {
      var j :| 0 <= j < i && StrandsAt(states[j], steps[j], k) && NoAbandon(steps, j + 1, i, k);
      assert NoAbandon(steps, j + 1, i + 1, k);
    }
    if StrandedSince(states, steps, i + 1, k) && !StrandsAt(states[i], steps[i], k) {
      SinceOneLess(states, steps, i, k);
    }
  }

  lemma SinceOneLess(states: seq<System>, steps: seq<Step>, i: nat, k: Key)
    requires i < |steps| < |states|
    requires StrandedSince(states, steps, i + 1, k) && !StrandsAt(states[i], steps[i], k)
    ensures StrandedSince(states, steps, i, k) && !Abandons(steps[i], k)
  {
    var j :| 0 <= j < i + 1 && StrandsAt(states[j], steps[j], k) && NoAbandon(steps, j + 1, i + 1, k);
    assert NoAbandon(steps, j + 1, i, k);
  }

  lemma RunStepStrandsIff(first: nat, states: seq<System>, steps: seq<Step>, i: nat, k: Key)
    requires IsRun(first, states, steps) && i < |steps|
    ensures !NotStranded(View(states[i + 1], k), states[i + 1].laneOpen) <==>
              StrandsAt(states[i], steps[i], k)
              || (!NotStranded(View(states[i], k), states[i].laneOpen) && !Abandons(steps[i], k))
  {
    RunKeepsInv(first, states, steps, i);
    assert Takes(states[i], steps[i], states[i + 1]);
    if states[i].laneOpen {
      MailboxesServedWhileOpen(first, states, steps, i, k);
    }
    StepStrandsIff(states[i], steps[i], states[i + 1], k);
  }

  lemma StrandedOneMore(first: nat, states: seq<System>, steps: seq<Step>, i: nat, k: Key)
    requires IsRun(first, states, steps) && i < |steps|
    requires !NotStranded(View(states[i], k), states[i].laneOpen) <==> StrandedSince(states, steps, i, k)
    ensures !NotStranded(View(states[i + 1], k), states[i + 1].laneOpen) <==> StrandedSince(states, steps, i + 1, k)
  {
    SinceOneMore(states, steps, i, k);
    RunStepStrandsIff(first, states, steps, i, k);
  }

  lemma ServedAtStart(first: nat, states: seq<System>, steps: seq<Step>, k: Key)
    requires IsRun(first, states, steps)
    ensures NotStranded(View(states[0], k), states[0].laneOpen) && !StrandedSince(states, steps, 0, k)
  {
    InitiallyEmpty(first, k);
  }

  /**
    In every reachable state a key's candidate is without a turn exactly when
    stopping the lane stranded it and no preparation of the key was abandoned
    since.
   */
  lemma {:induction false} StrandedIff(first: nat, states: seq<System>, steps: seq<Step>, i: nat, k: Key)
    requires IsRun(first, states, steps) && i <= |steps|
    ensures !NotStranded(View(states[i], k), states[i].laneOpen) <==> StrandedSince(states, steps, i, k)
  {
    if i == 0 {
      ServedAtStart(first, states, steps, k);
    } else {
      StrandedIff(first, states, steps, i - 1, k);
      StrandedOneMore(first, states, steps, i - 1, k);
    }
  }

  // ----------------------------------------------------------- never served again

  ghost predicate AllWaiting(preps: map<nat, PrepStage>) {
    forall g | g in preps :: preps[g].Waiting?
  }

  /** Once admission has stopped, callers that only wait are rejected one by one. */
  lemma CallerStaysWaiting(s: System, v: Cell, step: Step)
    requires EnabledAt(s, v, step) && !step.StopLane? && !step.StopCoordinator?
    requires v.tail == if s.itemKey == StepKey(s, step) then s.tail else []
    requires !s.coord.accepting && AllWaiting(v.preps)
    ensures AllWaiting(CellAfter(s, v, step).preps)
  {
  }

  lemma StepStaysWaiting(s: System, step: Step, k: Key)
    requires Enabled(s, step) && !s.coord.accepting && AllWaiting(View(s, k).preps)
    ensures AllWaiting(View(Apply(s, step), k).preps)
    ensures !Abandons(step, k)
  {
    if step.StopLane? || step.StopCoordinator? {
      StopIsUniform(s, step, k);
    } else {
      StepIsLocal(s, step, k);
      if k == step.key {
        CallerStaysWaiting(s, View(s, k), step);
      }
    }
  }

  /** The candidate waits on the stopped lane without a turn, and nobody is left who could abandon. */
  ghost predicate Abandoned(s: System, k: Key, g: nat) {
    && !s.laneOpen && !s.coord.accepting && AllWaiting(View(s, k).preps)
    && Stranded(View(s, k)) && View(s, k).row.value.pending == Some(g)
  }

  lemma StepStaysAbandoned(s: System, step: Step, s': System, k: Key, g: nat)
    requires Inv(s) && Takes(s, step, s') && Abandoned(s, k, g)
    ensures Abandoned(s', k, g)
  {
    StepStaysWaiting(s, step, k);
    StepLeavesStranded(s, step, k);
    StaysStopped(s, step, s');
  }

  lemma RunStepStaysAbandoned(first: nat, states: seq<System>, steps: seq<Step>, i: nat, k: Key, g: nat)
    requires IsRun(first, states, steps) && i < |steps| && Abandoned(states[i], k, g)
    ensures Abandoned(states[i + 1], k, g)
  {
    RunKeepsInv(first, states, steps, i);
    assert Takes(states[i], steps[i], states[i + 1]);
    StepStaysAbandoned(states[i], steps[i], states[i + 1], k, g);
  }

  lemma {:induction false} RunStaysAbandoned(
      first: nat, states: seq<System>, steps: seq<Step>, i: nat, j: nat, k: Key, g: nat)
    requires IsRun(first, states, steps) && i <= j <= |steps| && Abandoned(states[i], k, g)
    ensures Abandoned(states[j], k, g)
    decreases j
  {
    if i < j {
      RunStaysAbandoned(first, states, steps, i, j - 1, k, g);
      RunStepStaysAbandoned(first, states, steps, j - 1, k, g);
    }
  }

  /**
    A candidate that waits without a turn on the stopped lane, while no
    preparation of its key is left to abandon, waits and is not started at any
    later time; a row without adopters is such a case.
   */
  lemma StrandedForever(
      first: nat, states: seq<System>, steps: seq<Step>, i: nat, j: nat, k: Key, g: nat)
    requires IsRun(first, states, steps) && i <= j <= |steps| && !states[i].laneOpen
    requires !NotStranded(View(states[i], k), false) && View(states[i], k).row.value.pending == Some(g)
    requires View(states[i], k).row.value.adopters == 0 || AllWaiting(View(states[i], k).preps)
    ensures !NotStranded(View(states[j], k), false) && IsPending(View(states[j], k).row, g)
    ensures !Started(View(states[j], k), g)
  {
    RunKeepsInv(first, states, steps, i);
    StartsAbandoned(states[i], k, g);
    RunStaysAbandoned(first, states, steps, i, j, k, g);
    OnePlacePerCandidate(first, states, steps, j, k, g);
    RunKeepsInv(first, states, steps, j);
    assert CellInv(View(states[j], k), states[j].laneOpen);
    StrandedIsNotServed(View(states[j], k));
  }

  lemma StartsAbandoned(s: System, k: Key, g: nat)
    requires Inv(s) && !s.laneOpen
    requires !NotStranded(View(s, k), false) && View(s, k).row.value.pending == Some(g)
    requires View(s, k).row.value.adopters == 0 || AllWaiting(View(s, k).preps)
    ensures Abandoned(s, k, g)
  {
    var v := View(s, k);
    assert CellInv(v, s.laneOpen);
    StrandedIsNotServed(v);
    assert |v.preps.Keys| == |v.preps|;
  }

  // ------------------------------------------------------------------ lost tickets

  /**
    On the stopped lane: a live ticket that belongs to no row and no reserver,
    with no turn due, no resume and no retirement on its way.
   */
  ghost predicate Lost(v: Cell, t: nat, open: bool) {
    && !open && t in v.tickets && Live(v.tickets[t]) && !Due(v.tickets[t], false)
    && !RowHolds(v.row, t) && !HeldByReserver(v.preps, t)
    && !Retiring(v.tail, v.clients, t) && DoResume(t) !in v.clients
  }

  /** A rejected waiter is the last user of a row whose ticket has no turn coming. */
  ghost predicate RejectLoses(v: Cell, t: nat) {
    && RowHolds(v.row, t) && v.row.value.adopters == 1
    && v.row.value.pending.None? && v.row.value.active.None?
    && t in v.tickets && Live(v.tickets[t]) && !Due(v.tickets[t], false) && DoResume(t) !in v.clients
  }

  /** A ticket of an erased row has decided to park and nothing wakes or retires it. */
  ghost predicate CloseLoses(v: Cell, t: nat) {
    && t in v.tickets && DecidesPark(v.tickets[t]) && !v.tickets[t].wakePending
    && !v.tickets[t].closeTurn && !v.tickets[t].retirePending
    && !RowHolds(v.row, t) && !HeldByReserver(v.preps, t)
    && !Retiring(v.tail, v.clients, t) && DoResume(t) !in v.clients
  }

  lemma WakeLosesIff(v: Cell, g: nat, t: nat)
    requires InvRow(v.row, v.preps, v.running, v.log.published) && InvPreps(v.row, v.preps) && InvTicket(v, false)
    requires g in v.preps && v.preps[g].Waiting?
    ensures Lost(WakeCell(v, false, g), t, false) <==> Lost(v, t, false) || RejectLoses(v, t)
  {
    ReserverMoves(v.preps, g, Waiting, t);
    assert g in v.preps.Keys && |v.preps.Keys| == |v.preps|;
    if v.row.value.ticket.Some? {
      NotHeldTwice(v, t);
    }
  }

  lemma ThrowLosesNone(v: Cell, g: nat, t: nat)
    requires InvRow(v.row, v.preps, v.running, v.log.published) && InvPreps(v.row, v.preps)
    requires g in v.preps && v.preps[g].Reserving?
    ensures Lost(ReserveThrowCell(v, g), t, false) <==> Lost(v, t, false)
  {
    ReserverMoves(v.preps, g, Waiting, t);
  }

  lemma InstallLosesNone(v: Cell, g: nat, t: nat)
    requires InvRow(v.row, v.preps, v.running, v.log.published) && InvPreps(v.row, v.preps)
    requires g in v.preps && v.preps[g].Reserved?
    ensures Lost(InstallCell(v, g), t, false) <==> Lost(v, t, false)
  {
    if v.preps[g] != Reserved(t) {
      ReserverMoves(v.preps, g, Prepared, t);
    } else {
      assert HeldByReserver(v.preps, t);
    }
  }

  lemma AbandonLosesNone(v: Cell, g: nat, t: nat)
    requires g in v.preps && v.preps[g].Prepared?
    requires v.row.Some? && v.row.value.adopters > 0
    ensures Lost(AbandonCell(v, g), t, false) <==> Lost(v, t, false)
  {
    ReserverMoves(v.preps, g, Waiting, t);
  }

  lemma PublishLosesNone(v: Cell, g: nat, t: nat)
    requires g in v.preps && v.preps[g].Prepared? && v.tail == []
    requires v.row.Some? && v.row.value.adopters > 0
    ensures Lost(PublishCell(v, false, g), t, false) <==> Lost(v, t, false)
  {
    ReserverMoves(v.preps, g, Waiting, t);
    PublishFields(v, false, g);
    TailMembers(PublishRow(v.row, false, g).1, g);
  }

  lemma EffectLosesNone(v: Cell, e: Effect, t: nat)
    requires e != DoRetire(t) && e != DoResume(t)
    ensures Lost(RunEffect(false, v, e), t, false) <==> Lost(v, t, false)
  {
  }

  lemma ClientLosesNone(v: Cell, e: Effect, t: nat)
    requires e in v.clients
    ensures Lost(RunEffect(false, v.(clients := v.clients - multiset{e}), e), t, false) <==> Lost(v, t, false)
  {
    var v1 := v.(clients := v.clients - multiset{e});
    if e != DoRetire(t) && e != DoResume(t) {
      EffectLosesNone(v1, e, t);
    }
  }

  lemma ItemLosesNone(v: Cell, t: nat)
    requires v.tail != [] && InvNamed(v.tail, v.clients, v.tickets)
    ensures Lost(RunEffect(false, v.(tail := v.tail[1..]), v.tail[0]), t, false) <==> Lost(v, t, false)
  {
    var e, rest := v.tail[0], v.tail[1..];
    assert v.tail == [e] + rest && e in v.tail;
    if e != DoRetire(t) {
      EffectLosesNone(v.(tail := rest), e, t);
      assert DoRetire(t) in v.tail <==> DoRetire(t) in rest;
    }
  }

  lemma TurnLosesNone(s: System, v: Cell, step: Step, t: nat)
    requires EnabledAt(s, v, step) && (step.BeginTurn? || step.EndTurn?)
    requires v.tail == if s.itemKey == StepKey(s, step) then s.tail else []
    requires !s.laneOpen
    ensures Lost(CellAfter(s, v, step), t, false) <==> Lost(v, t, false)
  {
  }

  lemma PumpLosesNone(v: Cell, busy: bool, u: nat, t: nat)
    requires u in v.tickets && v.tickets[u].phase.Running? && InvTurns(v.row, v.tickets)
    ensures v.tickets[u].phase.stage.Entering? ==>
              (Lost(PumpFirstCell(v, busy, u), t, false) <==> Lost(v, t, false))
    ensures Executes(v.tickets[u]) ==> (Lost(PumpLastCell(v, u), t, false) <==> Lost(v, t, false))
  {
  }

  lemma OwnLosesIff(s: System, v: Cell, step: Step, t: nat)
    requires EnabledAt(s, v, step) && !step.StopLane? && !step.StopCoordinator?
    requires v.tail == if s.itemKey == StepKey(s, step) then s.tail else []
    requires CellInv(v, false) && !s.coord.accepting && !s.laneOpen
    requires forall g | g in v.preps :: v.row.Some? && v.row.value.adopters > 0
    ensures Lost(CellAfter(s, v, step), t, false) <==>
              Lost(v, t, false) || (step.WakePrepare? && RejectLoses(v, t))
  {
    match step
    case EnterPrepare(_) =>
    case WakePrepare(_, g) => WakeLosesIff(v, g, t);
    case ReserveThrow(_, g) => ThrowLosesNone(v, g, t);
    case Install(_, g) => InstallLosesNone(v, g, t);
    case AbandonPrepared(_, g) => AbandonLosesNone(v, g, t);
    case PublishPrepared(_, g) => PublishLosesNone(v, g, t);
    case RunClientEffect(_, e) => ClientLosesNone(v, e, t);
    case RunGraphEffect(_) => ItemLosesNone(v, t);
    case BeginTurn(_, _) => TurnLosesNone(s, v, step, t);
    case EndTurn(_, _) => TurnLosesNone(s, v, step, t);
    case PumpFirst(_, u) => PumpLosesNone(v, s.coord.activeKey.Some?, u, t);
    case PumpLast(_, u) => PumpLosesNone(v, true, u, t);
  }

  lemma CloseLosesIff(v: Cell, t: nat)
    ensures Lost(CloseCell(v), t, false) <==> CloseLoses(v, t)
  {
  }

  /** The step is the one that loses ticket `t` of key `k`. */
  ghost predicate LosesAt(s: System, step: Step, k: Key, t: nat) {
    || (step.WakePrepare? && step.key == k && !s.laneOpen && RejectLoses(View(s, k), t))
    || (step.StopLane? && s.laneOpen && CloseLoses(View(s, k), t))
  }

  /**
    After any step a ticket is lost exactly when it was lost before or the step
    is a waiter, rejected on the stopped lane, that was the last user of a row
    whose ticket has no turn coming, or stops the lane while a ticket of an
    erased row has decided to park.
   */
  lemma StepLosesTicketIff(s: System, step: Step, k: Key, t: nat)
    requires Inv(s) && Enabled(s, step)
    ensures Lost(View(Apply(s, step), k), t, Apply(s, step).laneOpen) <==>
              Lost(View(s, k), t, s.laneOpen) || LosesAt(s, step, k, t)
  {
    if step.StopLane? || step.StopCoordinator? {
      StopLosesIff(s, step, k, t);
    } else {
      StepIsLocal(s, step, k);
      CommitFrame(s, step, CellAfter(s, View(s, step.key), step));
      if k == step.key && !s.laneOpen {
        OwnStepLosesIff(s, step, t);
      }
    }
  }

  lemma StopLosesIff(s: System, step: Step, k: Key, t: nat)
    requires Enabled(s, step) && (step.StopLane? || step.StopCoordinator?)
    ensures Lost(View(Apply(s, step), k), t, Apply(s, step).laneOpen) <==>
              Lost(View(s, k), t, s.laneOpen) || LosesAt(s, step, k, t)
  {
    StopIsUniform(s, step, k);
    CloseLosesIff(View(s, k), t);
  }

  lemma OwnStepLosesIff(s: System, step: Step, t: nat)
    requires Inv(s) && Enabled(s, step) && !step.StopLane? && !step.StopCoordinator? && !s.laneOpen
    ensures Lost(CellAfter(s, View(s, step.key), step), t, false) <==>
              Lost(View(s, step.key), t, false) || (step.WakePrepare? && RejectLoses(View(s, step.key), t))
  {
    var v := View(s, step.key);
    assert CellInv(v, s.laneOpen);
    forall g | g in v.preps ensures v.row.Some? && v.row.value.adopters > 0 {
      assert g in v.preps.Keys && |v.preps.Keys| == |v.preps|;
    }
    OwnLosesIff(s, v, step, t);
  }

  /** Some step before `i` lost the ticket. */
  ghost predicate LostBefore(states: seq<System>, steps: seq<Step>, i: nat, k: Key, t: nat)
    requires i <= |steps| < |states|
  {
    exists j | 0 <= j < i :: LosesAt(states[j], steps[j], k, t)
  }

  lemma RunStepLosesIff(first: nat, states: seq<System>, steps: seq<Step>, i: nat, k: Key, t: nat)
    requires IsRun(first, states, steps) && i < |steps|
    ensures Lost(View(states[i + 1], k), t, states[i + 1].laneOpen) <==>
              Lost(View(states[i], k), t, states[i].laneOpen) || LosesAt(states[i], steps[i], k, t)
  {
    RunKeepsInv(first, states, steps, i);
    assert Takes(states[i], steps[i], states[i + 1]);
    StepLosesTicketIff(states[i], steps[i], k, t);
  }

  /** A ticket is lost exactly when some earlier step lost it; it is never found again. */
  lemma {:induction false} LostIff(first: nat, states: seq<System>, steps: seq<Step>, i: nat, k: Key, t: nat)
    requires IsRun(first, states, steps) && i <= |steps|
    ensures Lost(View(states[i], k), t, states[i].laneOpen) <==> LostBefore(states, steps, i, k, t)
  {
    if i == 0 {
      assert states[0].laneOpen;
    } else {
      LostIff(first, states, steps, i - 1, k, t);
      RunStepLosesIff(first, states, steps, i - 1, k, t);
      LostOneMore(states, steps, i - 1, k, t);
    }
  }

  lemma LostOneMore(states: seq<System>, steps: seq<Step>, i: nat, k: Key, t: nat)
    requires i < |steps| < |states|
    ensures LostBefore(states, steps, i + 1, k, t) <==>
              LostBefore(states, steps, i, k, t) || LosesAt(states[i], steps[i], k, t)
  {
    if LostBefore(states, steps, i, k, t) {
      var j :| 0 <= j < i && LosesAt(states[j], steps[j], k, t);
      assert 0 <= j < i + 1;
    }
  }

  /** A lost ticket is not retired at any later time. */
  lemma LostForever(first: nat, states: seq<System>, steps: seq<Step>, i: nat, j: nat, k: Key, t: nat)
    requires IsRun(first, states, steps) && i <= j <= |steps| && Lost(View(states[i], k), t, states[i].laneOpen)
    ensures t in View(states[j], k).tickets && !View(states[j], k).tickets[t].phase.Retired?
  {
    LostIff(first, states, steps, i, k, t);
    LostIff(first, states, steps, j, k, t);
    var l :| 0 <= l < i && LosesAt(states[l], steps[l], k, t);
    assert LostBefore(states, steps, j, k, t);
  }
}
