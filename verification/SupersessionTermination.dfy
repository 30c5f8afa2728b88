/**
  A closed graph comes to rest: every step that changes a closed graph lowers a
  measure, unless a turn finds another key running and queues itself again.  On
  a sole worker that cannot happen, so a close changes the graph only boundedly
  often; and whatever the workers did so far, some continuation comes to rest.
 */
module SupersessionTermination {
  import opened Counting
  import opened Options
  import opened Paths
  import opened Supersession
  import opened RequestCoordinator
  import opened RequestLane
  import opened SupersessionProtocol
  import opened SupersessionInvariant
  import opened SupersessionTheorems
  import opened SupersessionTickets
  import opened SupersessionProgress
  import opened SupersessionDrain

  // -------------------------------------------------------------------- the measure

  function PrepWeight(p: PrepStage): (n: nat) {
    match p
    case Waiting => 1
    case Reserving => 1
    case Reserved(_) => 8
    case Prepared => 7
  }

  function PhaseWeight(p: Phase, closeTurn: bool): (n: nat) {
    match p
    case Retired => 0
    case Parked => if closeTurn then 4 else 0
    case Queued => 4 + 5 * B(closeTurn)
    case Running(Entering) => 3 + 5 * B(closeTurn)
    case Running(Executing(_)) => 7 + 5 * B(closeTurn)
    case Running(Returning(Queue)) => 6 + 5 * B(closeTurn)
    case Running(Returning(_)) => 1 + 5 * B(closeTurn)
  }

  /** How many steps the ticket may still take by itself, at most. */
  function TicketWeight(x: Ticket): (n: nat) {
    PhaseWeight(x.phase, x.closeTurn) + if x.phase.Retired? then 0 else 5 * B(x.wakePending)
  }

  ghost function PrepWeights(preps: map<nat, PrepStage>): (m: map<nat, nat>) {
    map g | g in preps :: PrepWeight(preps[g])
  }

  ghost function TicketWeights(tickets: map<nat, Ticket>): (m: map<nat, nat>) {
    map t | t in tickets :: TicketWeight(tickets[t])
  }

  function RowWeight(o: Option<Row>): (n: nat) { 5 * B(o.Some? && o.value.pending.Some?) }

  /** The key's share, without the publication item. */
  ghost function CellWeight(v: Cell): (n: nat) {
    RowWeight(v.row) + Sum(PrepWeights(v.preps)) + 6 * |v.clients| + Sum(TicketWeights(v.tickets))
  }

  lemma PrepRemoved(preps: map<nat, PrepStage>, g: nat)
    requires g in preps
    ensures Sum(PrepWeights(preps - {g})) + PrepWeight(preps[g]) == Sum(PrepWeights(preps))
  {
    assert PrepWeights(preps - {g}) == PrepWeights(preps) - {g};
    SumSplit(PrepWeights(preps), g);
  }

  lemma PrepChanged(preps: map<nat, PrepStage>, g: nat, p: PrepStage)
    requires g in preps
    ensures Sum(PrepWeights(preps[g := p])) + PrepWeight(preps[g]) == Sum(PrepWeights(preps)) + PrepWeight(p)
  {
    assert PrepWeights(preps[g := p]) == PrepWeights(preps)[g := PrepWeight(p)];
    SumUpdate(PrepWeights(preps), g, PrepWeight(p));
  }

  lemma TicketChanged(tickets: map<nat, Ticket>, t: nat, x: Ticket)
    requires t in tickets
    ensures Sum(TicketWeights(tickets[t := x])) + TicketWeight(tickets[t]) ==
              Sum(TicketWeights(tickets)) + TicketWeight(x)
  {
    assert TicketWeights(tickets[t := x]) == TicketWeights(tickets)[t := TicketWeight(x)];
    SumUpdate(TicketWeights(tickets), t, TicketWeight(x));
  }

  // ------------------------------------------------------------------ steps of a key

  /** `w` weighs less than `v`, the publication item included. */
  ghost predicate Lighter(v: Cell, w: Cell) {
    CellWeight(w) + |w.tail| < CellWeight(v) + |v.tail|
  }

  lemma WakeLightens(v: Cell, g: nat)
    requires g in v.preps && v.preps[g].Waiting?
    ensures Lighter(v, WakeCell(v, false, g))
  {
    PrepRemoved(v.preps, g);
  }

  lemma ThrowLightens(v: Cell, g: nat)
    requires g in v.preps && v.preps[g].Reserving?
    ensures Lighter(v, ReserveThrowCell(v, g))
  {
    PrepRemoved(v.preps, g);
  }

  lemma InstallLightens(v: Cell, g: nat)
    requires g in v.preps && v.preps[g].Reserved?
    ensures Lighter(v, InstallCell(v, g))
  {
    PrepChanged(v.preps, g, Prepared);
  }

  lemma AbandonLightens(v: Cell, g: nat)
    requires g in v.preps && v.preps[g].Prepared?
    ensures Lighter(v, AbandonCell(v, g))
  {
    PrepRemoved(v.preps, g);
    assert |AbandonTail(AbandonRow(v.row).1)| <= 1;
  }

  lemma RejectedTail(o: Option<Row>, g: nat)
    ensures |Tail(PublishRow(o, false, g).1, g)| <= 2
    ensures RowWeight(PublishRow(o, false, g).0) == RowWeight(o)
  {
  }

  lemma PublishLightens(v: Cell, g: nat)
    requires g in v.preps && v.preps[g].Prepared? && v.tail == []
    ensures Lighter(v, PublishCell(v, false, g))
  {
    PrepRemoved(v.preps, g);
    PublishFields(v, false, g);
    RejectedTail(v.row, g);
  }

  lemma CallWeighs(x: Ticket)
    ensures TicketWeight(RetireRequest(x)) <= TicketWeight(x)
    ensures TicketWeight(Resume(false, x)) <= TicketWeight(x) + 5
    ensures Wake(false, x) == x
  {
  }

  lemma CalledTicketWeighs(v: Cell, e: Effect)
    requires (e.DoRetire? || e.DoWake? || e.DoResume?) && e.ticket in v.tickets
    ensures Sum(TicketWeights(RunEffect(false, v, e).tickets)) <=
              Sum(TicketWeights(v.tickets)) + if e.DoResume? then 5 else 0
  {
    var x := v.tickets[e.ticket];
    CallWeighs(x);
    TicketChanged(v.tickets, e.ticket, RunEffect(false, v, e).tickets[e.ticket]);
  }

  /** On the stopped lane an effect adds at most the weight of one turn. */
  lemma EffectWeighs(v: Cell, e: Effect)
    ensures var w := RunEffect(false, v, e);
            && CellWeight(w) <= CellWeight(v) + (if e.DoResume? then 5 else 0)
            && w.clients == v.clients && w.tail == v.tail
  {
    EffectFields(false, v, e);
    if (e.DoRetire? || e.DoWake? || e.DoResume?) && e.ticket in v.tickets {
      CalledTicketWeighs(v, e);
    }
  }

  lemma ClientLightens(v: Cell, e: Effect)
    requires e in v.clients
    ensures Lighter(v, RunEffect(false, v.(clients := v.clients - multiset{e}), e))
  {
    var v1 := v.(clients := v.clients - multiset{e});
    assert |v1.clients| == |v.clients| - 1;
    EffectWeighs(v1, e);
  }

  lemma ItemLightens(v: Cell)
    requires v.tail != [] && !v.tail[0].DoResume?
    ensures Lighter(v, RunEffect(false, v.(tail := v.tail[1..]), v.tail[0]))
  {
    EffectWeighs(v.(tail := v.tail[1..]), v.tail[0]);
  }

  lemma BeginLightens(v: Cell, t: nat)
    requires t in v.tickets && CanStart(false, v.tickets[t])
    ensures Lighter(v, WithTicket(v, t, StartTurn(v.tickets[t])))
  {
    TicketChanged(v.tickets, t, StartTurn(v.tickets[t]));
  }

  lemma EndLightens(v: Cell, t: nat)
    requires t in v.tickets && Decides(v.tickets[t])
    ensures Lighter(v, WithTicket(v, t, FinishTurn(false, v.tickets[t], v.tickets[t].phase.stage.action)))
  {
    TicketChanged(v.tickets, t, FinishTurn(false, v.tickets[t], v.tickets[t].phase.stage.action));
  }

  lemma PumpFirstLightens(v: Cell, t: nat)
    requires t in v.tickets && v.tickets[t].phase == Running(Entering)
    ensures Lighter(v, PumpFirstCell(v, false, t))
  {
    TicketChanged(v.tickets, t, PumpFirstCell(v, false, t).tickets[t]);
  }

  lemma PumpLastLightens(v: Cell, t: nat)
    requires t in v.tickets && Executes(v.tickets[t])
    ensures Lighter(v, PumpLastCell(v, t))
  {
    TicketChanged(v.tickets, t, PumpLastCell(v, t).tickets[t]);
  }

  /** Every step of a key of a closed graph lightens it or leaves it as it is. */
  lemma CellStepLightens(s: System, v: Cell, step: Step)
    requires EnabledAt(s, v, step) && !step.StopLane? && !step.StopCoordinator?
    requires v.tail == if s.itemKey == StepKey(s, step) then s.tail else []
    requires Closed(s) && InvNamed(v.tail, v.clients, v.tickets)
    requires step.PumpFirst? ==> s.coord.activeKey.None?
    ensures CellAfter(s, v, step) == v || Lighter(v, CellAfter(s, v, step))
  {
    if OfCaller(step) {
      CallerLightens(s, v, step);
    } else {
      OtherLightens(s, v, step);
    }
  }

  lemma CallerLightens(s: System, v: Cell, step: Step)
    requires EnabledAt(s, v, step) && OfCaller(step) && Closed(s)
    requires v.tail == if s.itemKey == StepKey(s, step) then s.tail else []
    ensures CellAfter(s, v, step) == v || Lighter(v, CellAfter(s, v, step))
  {
    match step
    case EnterPrepare(_) =>
    case WakePrepare(_, g) => WakeLightens(v, g);
    case ReserveThrow(_, g) => ThrowLightens(v, g);
    case Install(_, g) => InstallLightens(v, g);
    case AbandonPrepared(_, g) => AbandonLightens(v, g);
  }

  lemma OtherLightens(s: System, v: Cell, step: Step)
    requires EnabledAt(s, v, step) && !OfCaller(step) && !step.StopLane? && !step.StopCoordinator?
    requires v.tail == if s.itemKey == StepKey(s, step) then s.tail else []
    requires Closed(s) && InvNamed(v.tail, v.clients, v.tickets)
    requires step.PumpFirst? ==> s.coord.activeKey.None?
    ensures Lighter(v, CellAfter(s, v, step))
  {
    match step
    case PublishPrepared(_, g) => PublishLightens(v, g);
    case RunClientEffect(_, e) => ClientLightens(v, e);
    case RunGraphEffect(_) =>
      assert v.tail[0] in v.tail;
      ItemLightens(v);
    case BeginTurn(_, t) => BeginLightens(v, t);
    case PumpFirst(_, t) => PumpFirstLightens(v, t);
    case PumpLast(_, t) => PumpLastLightens(v, t);
    case EndTurn(_, t) => EndLightens(v, t);
  }

  // --------------------------------------------------------------- the whole graph

  ghost function Weights(s: System): (m: map<Key, nat>) {
    map k | k in s.sides :: CellWeight(View(s, k))
  }

  ghost function Measure(s: System): (n: nat) {
    |s.tail| + Sum(Weights(s))
  }

  lemma UnknownKeyWeighsNothing(s: System, k: Key)
    requires CellInv(View(s, k), s.laneOpen) && k !in s.sides
    ensures CellWeight(View(s, k)) == 0
  {
    var v := View(s, k);
    assert v.tickets == map[] && v.preps == map[];
    assert PrepWeights(v.preps) == map[] && TicketWeights(v.tickets) == map[];
  }

  /** The graph's item changes by what the key's item changes. */
  lemma CommitTailSize(s: System, step: Step, w: Cell)
    requires !step.StopLane? && !step.StopCoordinator?
    requires w.tail == View(s, step.key).tail || s.itemKey == step.key || s.tail == []
    ensures |Commit(s, step, w).tail| + |View(s, step.key).tail| == |s.tail| + |w.tail|
  {
  }

  lemma CommitSides(s: System, step: Step, w: Cell)
    requires !step.StopLane? && !step.StopCoordinator? && w != View(s, step.key)
    ensures Commit(s, step, w).sides.Keys == s.sides.Keys + {step.key}
  {
  }

  lemma OneEntryChanges(m: map<Key, nat>, m': map<Key, nat>, k: Key, n: nat)
    requires m'.Keys == m.Keys + {k} && m'[k] == n
    requires forall q | q in m' && q != k :: m'[q] == m[q]
    ensures m' == m[k := n]
  {
  }

  /** Only key `k` weighs differently. */
  lemma OneWeightChanges(s: System, s': System, k: Key, w: Cell)
    requires s'.sides.Keys == s.sides.Keys + {k} && View(s', k) == w
    requires forall q: Key | q != k :: View(s', q) == View(s, q)
    ensures Weights(s') == Weights(s)[k := CellWeight(w)]
  {
    var m, m' := Weights(s), Weights(s');
    assert m'.Keys == s'.sides.Keys && m.Keys == s.sides.Keys;
    forall q | q in m' && q != k ensures m'[q] == m[q] {
      SameWeight(s, s', q);
    }
    OneEntryChanges(m, m', k, CellWeight(w));
  }

  lemma SameWeight(s: System, s': System, k: Key)
    requires View(s', k) == View(s, k) && k in s.sides && k in s'.sides
    ensures Weights(s')[k] == Weights(s)[k]
  {
  }

  lemma ChangedWeights(s: System, step: Step)
    requires Enabled(s, step) && !step.StopLane? && !step.StopCoordinator?
    requires CellAfter(s, View(s, step.key), step) != View(s, step.key)
    ensures Weights(Apply(s, step)) ==
              Weights(s)[step.key := CellWeight(CellAfter(s, View(s, step.key), step))]
  {
    var w := CellAfter(s, View(s, step.key), step);
    CommitSides(s, step, w);
    forall q: Key ensures View(Apply(s, step), q) == if q != step.key then View(s, q) else w {
      StepIsLocal(s, step, q);
    }
    OneWeightChanges(s, Apply(s, step), step.key, w);
  }

  /** A step of a key of a closed graph changes nothing or lowers the measure. */
  lemma KeyStepLowers(s: System, step: Step)
    requires Inv(s) && Closed(s) && Enabled(s, step) && !step.StopLane? && !step.StopCoordinator?
    requires step.PumpFirst? ==> s.coord.activeKey.None?
    ensures Apply(s, step) == s || Measure(Apply(s, step)) < Measure(s)
  {
    var v := View(s, step.key);
    var w := CellAfter(s, v, step);
    if w != v {
      assert CellInv(v, s.laneOpen);
      CellStepLightens(s, v, step);
      CellAfterFrame(s, v, step);
      CommitTailSize(s, step, w);
      WeightsLower(s, step);
    }
  }

  lemma WeightsLower(s: System, step: Step)
    requires Inv(s) && Enabled(s, step) && !step.StopLane? && !step.StopCoordinator?
    requires CellAfter(s, View(s, step.key), step) != View(s, step.key)
    ensures Sum(Weights(Apply(s, step))) + CellWeight(View(s, step.key)) ==
              Sum(Weights(s)) + CellWeight(CellAfter(s, View(s, step.key), step))
  {
    ChangedWeights(s, step);
    SumUpdate(Weights(s), step.key, CellWeight(CellAfter(s, View(s, step.key), step)));
    if step.key !in s.sides {
      assert CellInv(View(s, step.key), s.laneOpen);
      UnknownKeyWeighsNothing(s, step.key);
    }
  }

  lemma StepLowers(s: System, step: Step)
    requires Inv(s) && Closed(s) && Enabled(s, step)
    requires step.PumpFirst? ==> s.coord.activeKey.None?
    ensures Apply(s, step) == s || Measure(Apply(s, step)) < Measure(s)
  {
    if !step.StopLane? && !step.StopCoordinator? {
      KeyStepLowers(s, step);
    }
  }

  lemma TakenStepLowers(s: System, step: Step, s': System)
    requires Inv(s) && Closed(s) && Takes(s, step, s')
    requires step.PumpFirst? ==> s.coord.activeKey.None?
    ensures Inv(s') && Closed(s') && (s' == s || Measure(s') < Measure(s))
  {
    StepKeepsInv(s, step);
    StaysStopped(s, step, s');
    StepLowers(s, step);
  }

  // --------------------------------------------------------------------- sole worker

  /** On a sole worker a turn never enters while a candidate is running. */
  lemma EnteringFindsNobodyRunning(s: System, k: Key, t: nat)
    requires Inv(s) && SoleWorker(s)
    requires t in View(s, k).tickets && View(s, k).tickets[t].phase == Running(Entering)
    ensures s.coord.activeKey.None?
  {
    if s.coord.activeKey.Some? {
      var q := s.coord.activeKey.value;
      RunnerIsExecuting(s, q);
      SameTurn(s, k, t, q, View(s, q).row.value.ticket.value);
    }
  }

  lemma RunnerIsExecuting(s: System, q: Key)
    requires Inv(s) && s.coord.activeKey == Some(q)
    ensures View(s, q).row.Some? && View(s, q).row.value.ticket.Some?
    ensures var u := View(s, q).row.value.ticket.value;
            IsRunning(s, q, u) && Executes(View(s, q).tickets[u])
  {
    assert CellInv(View(s, q), s.laneOpen) && View(s, q).running;
  }

  lemma RunStepLowers(first: nat, states: seq<System>, steps: seq<Step>, i: nat)
    requires IsRun(first, states, steps) && i < |steps| && Closed(states[i]) && SoleWorker(states[i])
    ensures Closed(states[i + 1])
    ensures states[i + 1] == states[i] || Measure(states[i + 1]) < Measure(states[i])
  {
    RunKeepsInv(first, states, steps, i);
    assert Takes(states[i], steps[i], states[i + 1]);
    if steps[i].PumpFirst? {
      EnteringFindsNobodyRunning(states[i], steps[i].key, steps[i].ticket);
    }
    TakenStepLowers(states[i], steps[i], states[i + 1]);
  }

  lemma OneMoreChange(first: nat, states: seq<System>, steps: seq<Step>, i: nat, j: nat, n: nat)
    requires IsRun(first, states, steps) && i <= j < |steps| && Closed(states[j]) && SoleWorker(states[j])
    requires Changes(states, i, j) + Measure(states[j]) <= n
    ensures Closed(states[j + 1]) && Changes(states, i, j + 1) + Measure(states[j + 1]) <= n
  {
    RunStepLowers(first, states, steps, j);
  }

  ghost predicate SoleBetween(states: seq<System>, i: nat, j: nat)
    requires j <= |states|
  {
    forall l | i <= l < j :: SoleWorker(states[l])
  }

  lemma SoleSplit(states: seq<System>, i: nat, j: nat)
    requires i <= j < |states| && SoleBetween(states, i, j + 1)
    ensures SoleBetween(states, i, j) && SoleWorker(states[j])
  {
  }

  /** On a sole worker a closed graph changes at most as often as its measure says when it closes. */
  lemma {:induction false} CloseChangesBoundedlyOften(
      first: nat, states: seq<System>, steps: seq<Step>, i: nat, j: nat)
    requires IsRun(first, states, steps) && i <= j <= |steps| && Closed(states[i]) && SoleBetween(states, i, j)
    ensures Closed(states[j]) && Changes(states, i, j) + Measure(states[j]) <= Measure(states[i])
    decreases j
  {
    if i == j {
      assert Changes(states, i, j) == 0;
    } else {
      SoleSplit(states, i, j - 1);
      CloseChangesBoundedlyOften(first, states, steps, i, j - 1);
      OneMoreChange(first, states, steps, i, j - 1, Measure(states[i]));
    }
  }

  // ---------------------------------------------------------------- coming to rest

  /** Nobody is inside prepare, no effect is left and no turn is running or due. */
  ghost predicate Rests(s: System) {
    s.tail == [] && forall k: Key ::
      View(s, k).preps == map[] && View(s, k).clients == multiset{}
      && forall t | t in View(s, k).tickets :: AtRest(View(s, k).tickets[t])
  }

  lemma RestIsHalted(s: System)
    requires Rests(s) && Closed(s)
    ensures Halted(s)
  {
    forall step | Enabled(s, step) ensures Apply(s, step) == s {
      var v := View(s, StepKey(s, step));
      assert v.preps == map[] && v.clients == multiset{};
      assert step.EnterPrepare? || step.StopLane? || step.StopCoordinator?;
    }
  }

  ghost predicate HasCaller(s: System) { exists k: Key, g :: g in View(s, k).preps }

  ghost predicate HasEffect(s: System) { exists k: Key, e :: e in View(s, k).clients }

  /** A closed graph that does not rest has a step that lowers its measure. */
  lemma NextStep(s: System) returns (step: Step)
    requires Inv(s) && Closed(s) && !Rests(s)
    ensures Moves(s, step) && (step.PumpFirst? ==> s.coord.activeKey.None?)
  {
    if s.tail != [] {
      step := RunGraphEffect(s.itemKey);
      ItemMoves(s, s.itemKey);
    } else if HasCaller(s) {
      step := NextCaller(s);
    } else if HasEffect(s) {
      step := NextEffect(s);
    } else {
      step := NextTurn(s);
    }
  }

  lemma NextCaller(s: System) returns (step: Step)
    requires Closed(s) && HasCaller(s)
    ensures Moves(s, step) && !step.PumpFirst?
  {
    var k: Key, g :| g in View(s, k).preps;
    step := CallerMoves(s, k, g);
  }

  lemma NextEffect(s: System) returns (step: Step)
    requires HasEffect(s)
    ensures Moves(s, step) && !step.PumpFirst?
  {
    var k: Key, e :| e in View(s, k).clients;
    step := RunClientEffect(k, e);
    EffectMoves(s, k, e);
  }

  lemma NextTurn(s: System) returns (step: Step)
    requires Inv(s) && Closed(s) && !Rests(s) && s.tail == [] && !HasCaller(s) && !HasEffect(s)
    ensures Moves(s, step) && (step.PumpFirst? ==> s.coord.activeKey.None?)
  {
    if s.coord.activeKey.Some? {
      step := RunnerStep(s, s.coord.activeKey.value);
    } else {
      var k, t := UnrestingTicket(s);
      step := TurnMoves(s, k, t);
    }
  }

  lemma RunnerStep(s: System, q: Key) returns (step: Step)
    requires Inv(s) && s.coord.activeKey == Some(q)
    ensures Moves(s, step) && !step.PumpFirst?
  {
    RunnerIsExecuting(s, q);
    var t := View(s, q).row.value.ticket.value;
    step := PumpLast(q, t);
    assert PumpLastCell(View(s, q), t).tickets[t].phase.stage.Returning?;
    StepMoves(s, step);
  }

  lemma UnrestingTicket(s: System) returns (k: Key, t: nat)
    requires Closed(s) && !Rests(s) && s.tail == [] && !HasCaller(s) && !HasEffect(s)
    ensures t in View(s, k).tickets
    ensures CanStart(s.laneOpen, View(s, k).tickets[t]) || View(s, k).tickets[t].phase.Running?
  {
    forall q: Key ensures View(s, q).preps == map[] && View(s, q).clients == multiset{} {
      assert forall g :: g !in View(s, q).preps;
      assert forall e :: e !in View(s, q).clients;
    }
    k, t :| t in View(s, k).tickets && !AtRest(View(s, k).tickets[t]);
  }

  /** Whatever happened so far, a closed graph can be brought to rest. */
  lemma {:induction false} ComesToRest(s: System) returns (steps: seq<Step>, s': System)
    requires Inv(s) && Closed(s)
    ensures Leads(Takes, s, steps, s') && |steps| <= Measure(s) && Closed(s') && Halted(s')
    decreases Measure(s)
  {
    if Rests(s) {
      steps, s' := [], s;
      LeadsNowhere(Takes, s);
      RestIsHalted(s);
    } else {
      var step, m := Lowers(s);
      var rest;
      rest, s' := ComesToRest(m);
      steps := [step] + rest;
      LeadsByOne(Takes, s, step, m);
      LeadsOn(Takes, s, [step], m, rest, s');
    }
  }

  lemma Lowers(s: System) returns (step: Step, s': System)
    requires Inv(s) && Closed(s) && !Rests(s)
    ensures Takes(s, step, s') && Inv(s') && Closed(s') && Measure(s') < Measure(s)
  {
    step := NextStep(s);
    s' := Apply(s, step);
    TakenStepLowers(s, step, s');
  }

  /**
    From every reachable closed state some continuation of at most as many
    steps as the measure says ends in a state in which nothing can happen.
   */
  lemma CloseCanComeToRest(first: nat, states: seq<System>, steps: seq<Step>, i: nat)
    requires IsRun(first, states, steps) && i <= |steps| && Closed(states[i])
    ensures exists more: seq<Step>, s': System ::
              Leads(Takes, states[i], more, s') && |more| <= Measure(states[i]) && Closed(s') && Halted(s')
  {
    RunKeepsInv(first, states, steps, i);
    var more, s' := ComesToRest(states[i]);
  }
}
