/**
  Progress while the lane is open: from every reachable state with a published
  candidate waiting, a handful of lane and turn steps start it, without any
  further publication, abandonment or stop.
 */
module SupersessionProgress {
  import opened Options
  import opened Paths
  import opened Supersession
  import opened RequestCoordinator
  import opened RequestLane
  import opened SupersessionProtocol
  import opened SupersessionInvariant
  import opened SupersessionTheorems
  import opened SupersessionTickets

  /** A step of the publication item in the lane or of a turn. */
  predicate OfLane(step: Step) {
    step.RunGraphEffect? || step.BeginTurn? || step.PumpFirst? || step.PumpLast? || step.EndTurn?
  }

  predicate AllOfLane(steps: seq<Step>) { forall i | 0 <= i < |steps| :: OfLane(steps[i]) }

  // ---------------------------------------------------------------- one turn at a time

  predicate IsRunning(s: System, k: Key, t: nat) {
    t in View(s, k).tickets && View(s, k).tickets[t].phase.Running?
  }

  /** At most one turn is running, as on the lane's sole worker. */
  ghost predicate SoleWorker(s: System) {
    forall k, t, q, u | IsRunning(s, k, t) && IsRunning(s, q, u) :: k == q && t == u
  }

  lemma SameTurn(s: System, k: Key, t: nat, q: Key, u: nat)
    requires SoleWorker(s) && IsRunning(s, k, t) && IsRunning(s, q, u)
    ensures k == q && t == u
  {
  }

  /** No turn but that of ticket `t` is running. */
  ghost predicate OnlyTurn(s: System, k: Key, t: nat) {
    forall q, u | IsRunning(s, q, u) :: q == k && u == t
  }

  /** A protocol step; with `sole`, one that a sole worker can take. */
  ghost predicate Steps(sole: bool, s: System, step: Step, s': System) {
    Takes(s, step, s') && (sole ==> SoleWorker(s) && SoleWorker(s'))
  }

  ghost function Next(sole: bool): (f: (System, Step, System) -> bool) {
    (s, step, s') => Steps(sole, s, step, s')
  }

  lemma EffectKeepsTurns(open: bool, v: Cell, e: Effect, t: nat)
    ensures var w := RunEffect(open, v, e);
            t in w.tickets && w.tickets[t].phase.Running? ==> t in v.tickets && v.tickets[t].phase.Running?
  {
  }

  lemma TurnKeepsTurns(s: System, v: Cell, step: Step, t: nat)
    requires EnabledAt(s, v, step) && (step.PumpFirst? || step.PumpLast? || step.EndTurn? || step.BeginTurn?)
    requires v.tail == if s.itemKey == StepKey(s, step) then s.tail else []
    requires step.BeginTurn? ==> step.ticket != t
    ensures var w := CellAfter(s, v, step);
            t in w.tickets && w.tickets[t].phase.Running? ==> t in v.tickets && v.tickets[t].phase.Running?
  {
  }

  /** Only beginning a turn makes one run. */
  lemma NoOtherTurnBegins(s: System, step: Step, s': System, k: Key, t: nat)
    requires Takes(s, step, s') && OfLane(step) && IsRunning(s', k, t)
    ensures IsRunning(s, k, t) || step == BeginTurn(k, t)
  {
    StepIsLocal(s, step, k);
    if k == step.key {
      var v := View(s, k);
      if step.RunGraphEffect? {
        EffectKeepsTurns(s.laneOpen, v.(tail := v.tail[1..]), v.tail[0], t);
      } else if step != BeginTurn(k, t) {
        TurnKeepsTurns(s, v, step, t);
      }
    }
  }

  lemma StaysSole(s: System, step: Step, s': System)
    requires Takes(s, step, s') && OfLane(step) && !step.BeginTurn? && SoleWorker(s)
    ensures SoleWorker(s')
  {
    forall k, t, q, u | IsRunning(s', k, t) && IsRunning(s', q, u) ensures k == q && t == u {
      NoOtherTurnBegins(s, step, s', k, t);
      NoOtherTurnBegins(s, step, s', q, u);
    }
  }

  lemma StaysOnly(s: System, step: Step, s': System, k: Key, t: nat)
    requires Takes(s, step, s') && OfLane(step) && OnlyTurn(s, k, t)
    requires step.BeginTurn? ==> step == BeginTurn(k, t)
    ensures OnlyTurn(s', k, t) && SoleWorker(s) && SoleWorker(s')
  {
    forall q, u | IsRunning(s', q, u) ensures q == k && u == t {
      NoOtherTurnBegins(s, step, s', q, u);
    }
  }

  // ---------------------------------------------------------------- short items

  lemma ShortTail(p: Publication, g: nat)
    requires p.verdict.Accepted? ==> p.wake.Some?
    ensures |Tail(p, g)| <= 4
  {
  }

  lemma CallerTail(s: System, v: Cell, step: Step)
    requires EnabledAt(s, v, step) && OfCaller(step)
    requires v.tail == if s.itemKey == StepKey(s, step) then s.tail else []
    ensures CellAfter(s, v, step).tail == v.tail
  {
  }

  lemma OtherTail(s: System, v: Cell, step: Step)
    requires EnabledAt(s, v, step) && !OfCaller(step) && !step.StopLane? && !step.StopCoordinator?
    requires v.tail == if s.itemKey == StepKey(s, step) then s.tail else []
    ensures |CellAfter(s, v, step).tail| <= |v.tail| || |CellAfter(s, v, step).tail| <= 4
  {
    match step
    case PublishPrepared(_, g) =>
      PublishFields(v, s.coord.accepting, g);
      ShortTail(PublishRow(v.row, s.coord.accepting, g).1, g);
    case RunClientEffect(_, e) => EffectFields(s.laneOpen, v.(clients := v.clients - multiset{e}), e);
    case RunGraphEffect(_) => EffectFields(s.laneOpen, v.(tail := v.tail[1..]), v.tail[0]);
    case _ =>
  }

  lemma CommitTailIs(s: System, step: Step, w: Cell)
    requires !step.StopLane? && !step.StopCoordinator?
    ensures Commit(s, step, w).tail == s.tail || Commit(s, step, w).tail == w.tail
  {
  }

  lemma StepKeepsItemShort(s: System, step: Step)
    requires Enabled(s, step) && |s.tail| <= 4
    ensures |Apply(s, step).tail| <= 4
  {
    if !step.StopLane? && !step.StopCoordinator? {
      var v := View(s, step.key);
      if OfCaller(step) {
        CallerTail(s, v, step);
      } else {
        OtherTail(s, v, step);
      }
      CommitTailIs(s, step, CellAfter(s, v, step));
    }
  }

  /** A publication item never has more than four effects left. */
  lemma {:induction false} ItemsAreShort(first: nat, states: seq<System>, steps: seq<Step>, i: nat)
    requires IsRun(first, states, steps) && i <= |steps|
    ensures |states[i].tail| <= 4
  {
    if i > 0 {
      ItemsAreShort(first, states, steps, i - 1);
      assert Takes(states[i - 1], steps[i - 1], states[i]);
      StepKeepsItemShort(states[i - 1], steps[i - 1]);
    }
  }

  // -------------------------------------------------------------- the continuation

  /** Candidate `g` waits in the mailbox of `k` on the open lane. */
  ghost predicate Waits(s: System, k: Key, g: nat) {
    Inv(s) && s.laneOpen && IsPending(View(s, k).row, g) && NotStranded(View(s, k), true)
  }

  /** The ticket in the row of a waiting candidate. */
  function TicketOf(s: System, k: Key): (t: nat) {
    var o := View(s, k).row;
    if o.Some? && o.value.ticket.Some? then o.value.ticket.value else 0
  }

  /** A lane step that leaves the key's mailbox alone leaves the candidate waiting. */
  lemma StillWaits(s: System, step: Step, k: Key, g: nat)
    requires Waits(s, k, g) && Enabled(s, step) && OfLane(step)
    requires IsPending(View(Apply(s, step), k).row, g)
    ensures Waits(Apply(s, step), k, g)
  {
    StepKeepsInv(s, step);
    CommitFrame(s, step, CellAfter(s, View(s, step.key), step));
    StepKeepsMailboxesServed(s, step, k);
  }

  lemma OtherKeyWaits(s: System, step: Step, k: Key, g: nat)
    requires Waits(s, k, g) && Enabled(s, step) && OfLane(step) && step.key != k
    ensures Waits(Apply(s, step), k, g)
  {
    StepIsLocal(s, step, k);
    StillWaits(s, step, k, g);
  }

  lemma ItemStepWaits(s: System, k: Key, g: nat) returns (s': System)
    requires Waits(s, k, g) && s.tail != []
    ensures Takes(s, RunGraphEffect(s.itemKey), s') && Waits(s', k, g) && |s'.tail| == |s.tail| - 1
  {
    var step := RunGraphEffect(s.itemKey);
    s' := Apply(s, step);
    StepIsLocal(s, step, k);
    StepIsLocal(s, step, s.itemKey);
    var v := View(s, s.itemKey);
    EffectFields(s.laneOpen, v.(tail := v.tail[1..]), v.tail[0]);
    StillWaits(s, step, k, g);
    ItemShrinks(s, CellAfter(s, v, step));
  }

  lemma ItemShrinks(s: System, w: Cell)
    requires s.tail != [] && w.tail == s.tail[1..]
    ensures Commit(s, RunGraphEffect(s.itemKey), w).tail == s.tail[1..]
  {
    assert |w.tail| != |View(s, s.itemKey).tail|;
  }

  lemma OneStep(sole: bool, s: System, step: Step, s': System)
    requires Steps(sole, s, step, s') && OfLane(step)
    ensures Leads(Next(sole), s, [step], s') && AllOfLane([step])
  {
    LeadsByOne(Next(sole), s, step, s');
  }

  lemma BothOfLane(a: seq<Step>, b: seq<Step>)
    requires AllOfLane(a) && AllOfLane(b)
    ensures AllOfLane(a + b)
  {
  }

  lemma OneEffect(sole: bool, s: System, k: Key, g: nat) returns (steps: seq<Step>, s': System)
    requires Waits(s, k, g) && s.tail != [] && (sole ==> SoleWorker(s))
    ensures Leads(Next(sole), s, steps, s') && |steps| == 1 && AllOfLane(steps)
    ensures Waits(s', k, g) && |s'.tail| == |s.tail| - 1 && (sole ==> SoleWorker(s'))
  {
    s' := ItemStepWaits(s, k, g);
    steps := [RunGraphEffect(s.itemKey)];
    if sole {
      StaysSole(s, RunGraphEffect(s.itemKey), s');
    }
    OneStep(sole, s, RunGraphEffect(s.itemKey), s');
  }

  /** The publication item in the lane runs to its end. */
  lemma {:induction false} FinishItem(sole: bool, s: System, k: Key, g: nat) returns (steps: seq<Step>, s': System)
    requires Waits(s, k, g) && (sole ==> SoleWorker(s))
    ensures Leads(Next(sole), s, steps, s') && |steps| == |s.tail| && AllOfLane(steps)
    ensures Waits(s', k, g) && s'.tail == [] && (sole ==> SoleWorker(s'))
    decreases |s.tail|
  {
    if s.tail == [] {
      steps, s' := [], s;
      LeadsNowhere(Next(sole), s);
    } else {
      var a, m := OneEffect(sole, s, k, g);
      var b;
      b, s' := FinishItem(sole, m, k, g);
      steps := a + b;
      LeadsOn(Next(sole), s, a, m, b, s');
      BothOfLane(a, b);
    }
  }

  /** The turn of the active key executes the row's candidate. */
  lemma RunnerTurn(s: System) returns (k: Key, t: nat)
    requires Inv(s) && s.coord.activeKey.Some?
    ensures s.coord.activeKey == Some(k) && RowHolds(View(s, k).row, t) && View(s, k).running
    ensures t in View(s, k).tickets && Executes(View(s, k).tickets[t])
    ensures View(s, k).row.value.active == Some(View(s, k).tickets[t].phase.stage.generation)
  {
    k := s.coord.activeKey.value;
    assert CellInv(View(s, k), s.laneOpen) && View(s, k).running;
    t := View(s, k).row.value.ticket.value;
  }

  lemma PumpLastFrees(v: Cell, t: nat)
    requires t in v.tickets && Executes(v.tickets[t]) && RowHolds(v.row, t) && v.running
    requires v.row.value.active == Some(v.tickets[t].phase.stage.generation)
    ensures !PumpLastCell(v, t).running && PumpLastCell(v, t).tail == v.tail
    ensures PumpLastCell(v, t).row.Some? ==>
              PumpLastCell(v, t).row.value.pending == v.row.value.pending
              && PumpLastCell(v, t).row.value.ticket == v.row.value.ticket
    ensures PumpLastCell(v, t).row.None? ==> v.row.value.pending.None?
  {
  }

  lemma RunnerFreed(s: System, k: Key, w: Cell, step: Step)
    requires !step.StopLane? && !step.StopCoordinator? && step.key == k
    requires s.coord.activeKey == Some(k) && !w.running && w.tail == View(s, k).tail
    ensures Commit(s, step, w).coord.activeKey.None? && Commit(s, step, w).tail == s.tail
  {
    assert View(s, k).running;
  }

  lemma RunnerKeepsPending(s: System, q: Key, t: nat, k: Key, g: nat)
    requires s.coord.activeKey == Some(q) && RowHolds(View(s, q).row, t)
    requires t in View(s, q).tickets && Executes(View(s, q).tickets[t])
    requires View(s, q).row.value.active == Some(View(s, q).tickets[t].phase.stage.generation)
    requires IsPending(View(s, k).row, g)
    ensures Enabled(s, PumpLast(q, t)) && IsPending(View(Apply(s, PumpLast(q, t)), k).row, g)
    ensures Apply(s, PumpLast(q, t)).coord.activeKey.None? && Apply(s, PumpLast(q, t)).tail == s.tail
    ensures TicketOf(Apply(s, PumpLast(q, t)), k) == TicketOf(s, k)
  {
    PumpLastFrees(View(s, q), t);
    RunnerFreed(s, q, PumpLastCell(View(s, q), t), PumpLast(q, t));
    StepIsLocal(s, PumpLast(q, t), k);
  }

  lemma RunnerStops(s: System, k: Key, g: nat) returns (q: Key, t: nat, s': System)
    requires Waits(s, k, g) && s.coord.activeKey.Some?
    ensures Takes(s, PumpLast(q, t), s') && IsRunning(s, q, t)
    ensures Waits(s', k, g) && s'.tail == s.tail && s'.coord.activeKey.None? && TicketOf(s', k) == TicketOf(s, k)
  {
    q, t := RunnerTurn(s);
    RunnerKeepsPending(s, q, t, k, g);
    s' := Apply(s, PumpLast(q, t));
    StillWaits(s, PumpLast(q, t), k, g);
  }

  /** The running candidate's turn, if there is one, ends its execution. */
  lemma StopRunner(sole: bool, s: System, k: Key, g: nat) returns (steps: seq<Step>, s': System)
    requires Waits(s, k, g) && s.tail == [] && (sole ==> OnlyTurn(s, k, TicketOf(s, k)))
    ensures Leads(Next(sole), s, steps, s') && |steps| <= 1 && AllOfLane(steps)
    ensures Waits(s', k, g) && s'.tail == [] && s'.coord.activeKey.None?
    ensures sole ==> OnlyTurn(s', k, TicketOf(s', k))
  {
    if s.coord.activeKey.None? {
      steps, s' := [], s;
      LeadsNowhere(Next(sole), s);
    } else {
      var q, u;
      q, u, s' := RunnerStops(s, k, g);
      steps := [PumpLast(q, u)];
      if sole {
        StaysOnly(s, PumpLast(q, u), s', k, TicketOf(s, k));
      }
      OneStep(sole, s, PumpLast(q, u), s');
    }
  }

  /** The candidate waits, nobody runs and the ticket's turn is due. */
  ghost predicate TurnDue(s: System, k: Key, g: nat, t: nat) {
    && Waits(s, k, g) && s.tail == [] && s.coord.activeKey.None?
    && RowHolds(View(s, k).row, t) && t in View(s, k).tickets
    && Live(View(s, k).tickets[t]) && Due(View(s, k).tickets[t], true) && !Executes(View(s, k).tickets[t])
  }

  lemma ReadyTurn(s: System, k: Key, g: nat)
    requires Waits(s, k, g) && s.tail == [] && s.coord.activeKey.None?
    ensures TurnDue(s, k, g, TicketOf(s, k))
  {
    assert CellInv(View(s, k), s.laneOpen) && !View(s, k).running;
  }

  lemma NobodyStarts(s: System, step: Step, w: Cell)
    requires !step.StopLane? && !step.StopCoordinator? && s.coord.activeKey.None? && !w.running
    ensures Commit(s, step, w).coord.activeKey.None?
  {
  }

  /** Ending a turn that is due again queues the ticket; beginning it enters pump_turn. */
  lemma TicketStep(s: System, k: Key, g: nat, t: nat, step: Step) returns (s': System)
    requires TurnDue(s, k, g, t)
    requires || (step == EndTurn(k, t) && Decides(View(s, k).tickets[t]))
             || (step == BeginTurn(k, t) && View(s, k).tickets[t].phase.Queued?)
    ensures Takes(s, step, s') && TurnDue(s', k, g, t)
    ensures if step.EndTurn? then View(s', k).tickets[t].phase.Queued?
            else View(s', k).tickets[t].phase == Running(Entering)
  {
    s' := Apply(s, step);
    StepIsLocal(s, step, k);
    StillWaits(s, step, k, g);
    CommitTailIs(s, step, CellAfter(s, View(s, k), step));
    NobodyStarts(s, step, CellAfter(s, View(s, k), step));
  }

  /** The same step as the lane's worker may take it. */
  lemma WorkerStep(sole: bool, s: System, k: Key, g: nat, t: nat, step: Step)
      returns (steps: seq<Step>, s': System)
    requires TurnDue(s, k, g, t) && (sole ==> OnlyTurn(s, k, t))
    requires || (step == EndTurn(k, t) && Decides(View(s, k).tickets[t]))
             || (step == BeginTurn(k, t) && View(s, k).tickets[t].phase.Queued?)
    ensures Leads(Next(sole), s, steps, s') && |steps| == 1 && AllOfLane(steps)
    ensures TurnDue(s', k, g, t) && (sole ==> OnlyTurn(s', k, t))
    ensures if step.EndTurn? then View(s', k).tickets[t].phase.Queued?
            else View(s', k).tickets[t].phase == Running(Entering)
  {
    s' := TicketStep(s, k, g, t, step);
    steps := [step];
    if sole {
      StaysOnly(s, step, s', k, t);
    }
    OneStep(sole, s, step, s');
  }

  lemma PumpStarts(s: System, k: Key, g: nat, t: nat) returns (s': System)
    requires TurnDue(s, k, g, t) && View(s, k).tickets[t].phase == Running(Entering)
    ensures Takes(s, PumpFirst(k, t), s') && Started(View(s', k), g)
  {
    s' := Apply(s, PumpFirst(k, t));
    StepIsLocal(s, PumpFirst(k, t), k);
  }

  lemma EnteringStarts(sole: bool, s: System, k: Key, g: nat, t: nat) returns (steps: seq<Step>, s': System)
    requires TurnDue(s, k, g, t) && View(s, k).tickets[t].phase == Running(Entering)
    requires sole ==> OnlyTurn(s, k, t)
    ensures Leads(Next(sole), s, steps, s') && |steps| == 1 && AllOfLane(steps) && Started(View(s', k), g)
  {
    s' := PumpStarts(s, k, g, t);
    steps := [PumpFirst(k, t)];
    if sole {
      StaysOnly(s, PumpFirst(k, t), s', k, t);
    }
    OneStep(sole, s, PumpFirst(k, t), s');
  }

  lemma QueuedStarts(sole: bool, s: System, k: Key, g: nat, t: nat) returns (steps: seq<Step>, s': System)
    requires TurnDue(s, k, g, t) && View(s, k).tickets[t].phase.Queued? && (sole ==> OnlyTurn(s, k, t))
    ensures Leads(Next(sole), s, steps, s') && |steps| == 2 && AllOfLane(steps) && Started(View(s', k), g)
  {
    var a, m := WorkerStep(sole, s, k, g, t, BeginTurn(k, t));
    var b;
    b, s' := EnteringStarts(sole, m, k, g, t);
    steps := a + b;
    LeadsOn(Next(sole), s, a, m, b, s');
    BothOfLane(a, b);
  }

  lemma DecidingStarts(sole: bool, s: System, k: Key, g: nat, t: nat) returns (steps: seq<Step>, s': System)
    requires TurnDue(s, k, g, t) && Decides(View(s, k).tickets[t]) && (sole ==> OnlyTurn(s, k, t))
    ensures Leads(Next(sole), s, steps, s') && |steps| == 3 && AllOfLane(steps) && Started(View(s', k), g)
  {
    var a, m := WorkerStep(sole, s, k, g, t, EndTurn(k, t));
    var b;
    b, s' := QueuedStarts(sole, m, k, g, t);
    steps := a + b;
    LeadsOn(Next(sole), s, a, m, b, s');
    BothOfLane(a, b);
  }

  lemma TurnStarts(sole: bool, s: System, k: Key, g: nat, t: nat) returns (steps: seq<Step>, s': System)
    requires TurnDue(s, k, g, t) && (sole ==> OnlyTurn(s, k, t))
    ensures Leads(Next(sole), s, steps, s') && |steps| <= 3 && AllOfLane(steps) && Started(View(s', k), g)
  {
    var x := View(s, k).tickets[t];
    if Decides(x) {
      steps, s' := DecidingStarts(sole, s, k, g, t);
    } else if x.phase.Queued? {
      steps, s' := QueuedStarts(sole, s, k, g, t);
    } else {
      steps, s' := EnteringStarts(sole, s, k, g, t);
    }
  }

  lemma FreeRunnerStarts(sole: bool, s: System, k: Key, g: nat) returns (steps: seq<Step>, s': System)
    requires Waits(s, k, g) && s.tail == [] && s.coord.activeKey.None?
    requires sole ==> OnlyTurn(s, k, TicketOf(s, k))
    ensures Leads(Next(sole), s, steps, s') && |steps| <= 3 && AllOfLane(steps) && Started(View(s', k), g)
  {
    ReadyTurn(s, k, g);
    steps, s' := TurnStarts(sole, s, k, g, TicketOf(s, k));
  }

  lemma IdleItemStarts(sole: bool, s: System, k: Key, g: nat) returns (steps: seq<Step>, s': System)
    requires Waits(s, k, g) && s.tail == [] && (sole ==> OnlyTurn(s, k, TicketOf(s, k)))
    ensures Leads(Next(sole), s, steps, s') && |steps| <= 4 && AllOfLane(steps) && Started(View(s', k), g)
  {
    var a, m := StopRunner(sole, s, k, g);
    var b;
    b, s' := FreeRunnerStarts(sole, m, k, g);
    steps := a + b;
    LeadsOn(Next(sole), s, a, m, b, s');
    BothOfLane(a, b);
  }

  // ------------------------------------------------------- the turn of another ticket

  function StageRank(x: Ticket): (n: nat)
    ensures n <= 3
  {
    match x.phase
    case Running(Entering) => 3
    case Running(Executing(_)) => 2
    case Running(Returning(_)) => 1
    case _ => 0
  }

  /** The turn of ticket `u` is running and is not the waiting candidate's own. */
  predicate OtherTurn(s: System, k: Key, q: Key, u: nat) {
    IsRunning(s, q, u) && !(q == k && u == TicketOf(s, k))
  }

  /** The next step of a running turn. */
  function TurnStep(x: Ticket, q: Key, u: nat): (step: Step)
    requires x.phase.Running?
  {
    match x.phase.stage
    case Entering => PumpFirst(q, u)
    case Executing(_) => PumpLast(q, u)
    case Returning(_) => EndTurn(q, u)
  }

  /** Ticket `u` is one stage further and the publication item is untouched. */
  predicate Advanced(v: Cell, w: Cell, u: nat) {
    u in v.tickets && u in w.tickets && StageRank(w.tickets[u]) < StageRank(v.tickets[u]) && w.tail == v.tail
  }

  lemma PumpFirstAdvances(v: Cell, busy: bool, u: nat)
    requires u in v.tickets && v.tickets[u].phase == Running(Entering)
    ensures Advanced(v, PumpFirstCell(v, busy, u), u)
  {
  }

  lemma PumpLastAdvances(v: Cell, u: nat)
    requires u in v.tickets && Executes(v.tickets[u])
    ensures Advanced(v, PumpLastCell(v, u), u)
  {
  }

  lemma EndAdvances(v: Cell, open: bool, u: nat)
    requires u in v.tickets && Decides(v.tickets[u])
    ensures Advanced(v, WithTicket(v, u, FinishTurn(open, v.tickets[u], v.tickets[u].phase.stage.action)), u)
  {
  }

  lemma TurnAdvances(s: System, v: Cell, q: Key, u: nat)
    requires u in v.tickets && v.tickets[u].phase.Running?
    requires EnabledAt(s, v, TurnStep(v.tickets[u], q, u)) && v.tail == if s.itemKey == q then s.tail else []
    ensures Advanced(v, CellAfter(s, v, TurnStep(v.tickets[u], q, u)), u)
  {
    match v.tickets[u].phase.stage
    case Entering => PumpFirstAdvances(v, s.coord.activeKey.Some?, u);
    case Executing(_) => PumpLastAdvances(v, u);
    case Returning(_) => EndAdvances(v, s.laneOpen, u);
  }

  lemma TurnLeavesRow(s: System, v: Cell, q: Key, u: nat)
    requires u in v.tickets && v.tickets[u].phase.Running? && v.row.Some? && v.row.value.ticket != Some(u)
    requires EnabledAt(s, v, TurnStep(v.tickets[u], q, u)) && v.tail == if s.itemKey == q then s.tail else []
    ensures CellAfter(s, v, TurnStep(v.tickets[u], q, u)).row == v.row
  {
  }

  lemma OtherTurnEnabled(s: System, q: Key, u: nat)
    requires IsRunning(s, q, u)
    ensures Enabled(s, TurnStep(View(s, q).tickets[u], q, u)) && OfLane(TurnStep(View(s, q).tickets[u], q, u))
  {
  }

  lemma OtherTurnRow(s: System, k: Key, q: Key, u: nat, step: Step)
    requires IsRunning(s, q, u) && step == TurnStep(View(s, q).tickets[u], q, u) && Enabled(s, step)
    requires View(s, k).row.Some? && (q == k ==> View(s, k).row.value.ticket != Some(u))
    ensures View(Apply(s, step), k).row == View(s, k).row
  {
    StepIsLocal(s, step, k);
    if q == k {
      TurnLeavesRow(s, View(s, q), q, u);
    }
  }

  lemma OtherTurnRank(s: System, q: Key, u: nat, step: Step)
    requires IsRunning(s, q, u) && step == TurnStep(View(s, q).tickets[u], q, u) && Enabled(s, step)
    ensures u in View(Apply(s, step), q).tickets
    ensures StageRank(View(Apply(s, step), q).tickets[u]) < StageRank(View(s, q).tickets[u])
  {
    StepIsLocal(s, step, q);
    TurnAdvances(s, View(s, q), q, u);
  }

  lemma OtherTurnTail(s: System, q: Key, u: nat, step: Step)
    requires IsRunning(s, q, u) && step == TurnStep(View(s, q).tickets[u], q, u) && Enabled(s, step)
    requires s.tail == []
    ensures Apply(s, step).tail == []
  {
    TurnAdvances(s, View(s, q), q, u);
    CommitTailIs(s, step, CellAfter(s, View(s, q), step));
  }

  lemma OtherTurnStep(s: System, k: Key, g: nat, q: Key, u: nat) returns (s': System)
    requires Waits(s, k, g) && s.tail == [] && OtherTurn(s, k, q, u)
    ensures Takes(s, TurnStep(View(s, q).tickets[u], q, u), s') && Waits(s', k, g) && s'.tail == []
    ensures TicketOf(s', k) == TicketOf(s, k)
    ensures u in View(s', q).tickets && StageRank(View(s', q).tickets[u]) < StageRank(View(s, q).tickets[u])
  {
    var step := TurnStep(View(s, q).tickets[u], q, u);
    MailboxHasTicket(s, k, g);
    OtherTurnEnabled(s, q, u);
    OtherTurnRow(s, k, q, u, step);
    OtherTurnRank(s, q, u, step);
    OtherTurnTail(s, q, u, step);
    s' := Apply(s, step);
    StillWaits(s, step, k, g);
  }

  lemma MailboxHasTicket(s: System, k: Key, g: nat)
    requires Waits(s, k, g)
    ensures View(s, k).row.Some? && View(s, k).row.value.ticket == Some(TicketOf(s, k))
  {
    assert CellInv(View(s, k), s.laneOpen);
  }

  lemma OneOtherStep(s: System, k: Key, g: nat, q: Key, u: nat) returns (steps: seq<Step>, s': System)
    requires Waits(s, k, g) && s.tail == [] && SoleWorker(s) && OtherTurn(s, k, q, u)
    ensures Leads(Next(true), s, steps, s') && |steps| == 1 && AllOfLane(steps)
    ensures Waits(s', k, g) && s'.tail == [] && SoleWorker(s') && TicketOf(s', k) == TicketOf(s, k)
    ensures OnlyTurn(s', q, u) && u in View(s', q).tickets
    ensures StageRank(View(s', q).tickets[u]) < StageRank(View(s, q).tickets[u])
  {
    var step := TurnStep(View(s, q).tickets[u], q, u);
    s' := OtherTurnStep(s, k, g, q, u);
    steps := [step];
    OnlyThat(s, q, u);
    StaysOnly(s, step, s', q, u);
    OneStep(true, s, step, s');
  }

  lemma OnlyThat(s: System, q: Key, u: nat)
    requires SoleWorker(s) && IsRunning(s, q, u)
    ensures OnlyTurn(s, q, u)
  {
    forall x, y | IsRunning(s, x, y) ensures x == q && y == u {
      SameTurn(s, q, u, x, y);
    }
  }

  /** The turn that the worker is in ends, in at most three steps. */
  lemma {:induction false} FinishOther(s: System, k: Key, g: nat, q: Key, u: nat)
      returns (steps: seq<Step>, s': System)
    requires Waits(s, k, g) && s.tail == [] && SoleWorker(s) && OtherTurn(s, k, q, u)
    ensures Leads(Next(true), s, steps, s') && |steps| <= StageRank(View(s, q).tickets[u]) && AllOfLane(steps)
    ensures Waits(s', k, g) && s'.tail == [] && OnlyTurn(s', k, TicketOf(s', k))
    decreases StageRank(View(s, q).tickets[u])
  {
    var a, m := OneOtherStep(s, k, g, q, u);
    if IsRunning(m, q, u) {
      var b;
      b, s' := FinishOther(m, k, g, q, u);
      steps := a + b;
      LeadsOn(Next(true), s, a, m, b, s');
      BothOfLane(a, b);
    } else {
      steps, s' := a, m;
    }
  }

  ghost predicate HasOtherTurn(s: System, k: Key) { exists q, u :: OtherTurn(s, k, q, u) }

  lemma NoOtherTurn(s: System, k: Key)
    requires !HasOtherTurn(s, k)
    ensures OnlyTurn(s, k, TicketOf(s, k))
  {
    forall q, u | IsRunning(s, q, u) ensures q == k && u == TicketOf(s, k) {
      assert !OtherTurn(s, k, q, u);
    }
  }

  lemma SomeOtherTurn(s: System, k: Key) returns (q: Key, u: nat)
    requires HasOtherTurn(s, k)
    ensures OtherTurn(s, k, q, u)
  {
    q, u :| OtherTurn(s, k, q, u);
  }

  lemma FinishSomeOther(s: System, k: Key, g: nat) returns (steps: seq<Step>, s': System)
    requires Waits(s, k, g) && s.tail == [] && SoleWorker(s) && HasOtherTurn(s, k)
    ensures Leads(Next(true), s, steps, s') && |steps| <= 3 && AllOfLane(steps)
    ensures Waits(s', k, g) && s'.tail == [] && OnlyTurn(s', k, TicketOf(s', k))
  {
    var q, u := SomeOtherTurn(s, k);
    steps, s' := FinishOther(s, k, g, q, u);
  }

  lemma ClearWorker(s: System, k: Key, g: nat) returns (steps: seq<Step>, s': System)
    requires Waits(s, k, g) && s.tail == [] && SoleWorker(s)
    ensures Leads(Next(true), s, steps, s') && |steps| <= 3 && AllOfLane(steps)
    ensures Waits(s', k, g) && s'.tail == [] && OnlyTurn(s', k, TicketOf(s', k))
  {
    if HasOtherTurn(s, k) {
      steps, s' := FinishSomeOther(s, k, g);
    } else {
      steps, s' := [], s;
      LeadsNowhere(Next(true), s);
      NoOtherTurn(s, k);
    }
  }

  // ---------------------------------------------------------------------- theorems

  lemma StartSoon(s: System, k: Key, g: nat) returns (steps: seq<Step>, s': System)
    requires Waits(s, k, g)
    ensures Leads(Next(false), s, steps, s') && |steps| <= |s.tail| + 4 && AllOfLane(steps)
    ensures Started(View(s', k), g)
  {
    var a, m := FinishItem(false, s, k, g);
    var b;
    b, s' := IdleItemStarts(false, m, k, g);
    steps := a + b;
    LeadsOn(Next(false), s, a, m, b, s');
    BothOfLane(a, b);
  }

  lemma WorkerClearsAndStarts(s: System, k: Key, g: nat) returns (steps: seq<Step>, s': System)
    requires Waits(s, k, g) && s.tail == [] && SoleWorker(s)
    ensures Leads(Next(true), s, steps, s') && |steps| <= 7 && AllOfLane(steps) && Started(View(s', k), g)
  {
    var a, m := ClearWorker(s, k, g);
    var b;
    b, s' := IdleItemStarts(true, m, k, g);
    steps := a + b;
    LeadsOn(Next(true), s, a, m, b, s');
    BothOfLane(a, b);
  }

  lemma WorkerStartsSoon(s: System, k: Key, g: nat) returns (steps: seq<Step>, s': System)
    requires Waits(s, k, g) && SoleWorker(s)
    ensures Leads(Next(true), s, steps, s') && |steps| <= |s.tail| + 7 && AllOfLane(steps)
    ensures Started(View(s', k), g)
  {
    var a, m := FinishItem(true, s, k, g);
    var b;
    b, s' := WorkerClearsAndStarts(m, k, g);
    steps := a + b;
    LeadsOn(Next(true), s, a, m, b, s');
    BothOfLane(a, b);
  }

  lemma RunWaits(first: nat, states: seq<System>, steps: seq<Step>, i: nat, k: Key, g: nat)
    requires IsRun(first, states, steps) && i <= |steps| && states[i].laneOpen
    requires IsPending(View(states[i], k).row, g)
    ensures Waits(states[i], k, g) && |states[i].tail| <= 4
  {
    RunKeepsInv(first, states, steps, i);
    MailboxesServedWhileOpen(first, states, steps, i, k);
    ItemsAreShort(first, states, steps, i);
  }

  /**
    From every reachable state with a candidate waiting on the open lane, at
    most eight steps of the item in the lane, of the running turn and of the
    key's own turn start that candidate.
   */
  lemma PendingCanStart(first: nat, states: seq<System>, steps: seq<Step>, i: nat, k: Key, g: nat)
    requires IsRun(first, states, steps) && i <= |steps| && states[i].laneOpen
    requires IsPending(View(states[i], k).row, g)
    ensures exists more: seq<Step>, s': System ::
              Leads(Next(false), states[i], more, s') && |more| <= 8 && AllOfLane(more) && Started(View(s', k), g)
  {
    RunWaits(first, states, steps, i, k, g);
    var more, s' := StartSoon(states[i], k, g);
  }

  /**
    The same on the lane's sole worker: if one turn at most is running, eleven
    steps suffice during which one turn at most is running.
   */
  lemma PendingCanStartOnSoleWorker(first: nat, states: seq<System>, steps: seq<Step>, i: nat, k: Key, g: nat)
    requires IsRun(first, states, steps) && i <= |steps| && states[i].laneOpen && SoleWorker(states[i])
    requires IsPending(View(states[i], k).row, g)
    ensures exists more: seq<Step>, s': System ::
              Leads(Next(true), states[i], more, s') && |more| <= 11 && AllOfLane(more) && Started(View(s', k), g)
  {
    RunWaits(first, states, steps, i, k, g);
    var more, s' := WorkerStartsSoon(states[i], k, g);
  }
}
