/**
  The latest-wins protocol of one graph: callers inside prepare, publication
  items in the graph-state lane, pump turns in the compute-request lane and
  close.  Every critical section and every after-unlock effect is one step, and
  steps of different threads and keys interleave freely.
 */
module SupersessionProtocol {
  import opened Options
  import opened Supersession
  import opened RequestCoordinator
  import opened RequestLane

  /** Where one caller of prepare stands. */
  datatype PrepStage = Waiting | Reserving | Reserved(ticket: nat) | Prepared

  /** Work a critical section leaves for after its unlock. */
  datatype Effect =
    | DoRetire(ticket: nat)
    | DoWake(ticket: nat)
    | DoResume(ticket: nat)
    | FailCandidate(generation: nat)
    | CancelSuperseded(generation: nat)
    | SettleSuperseded(generation: nat)

  /** Where the candidates ended that are no longer in the row. */
  datatype Ends = Ends(
    finished: multiset<nat>,       // executed to the end of the turn
    superseded: multiset<nat>,     // born stale or displaced from the mailbox
    rejected: multiset<nat>)       // refused because of close

  /** What has happened so far to one key. */
  datatype KeyLog = KeyLog(
    issued: set<nat>,              // generations handed to callers
    published: seq<nat>,           // accepted publications, oldest first
    ran: set<nat>,                 // publication items that ran
    ends: Ends,                    // where candidates that left the row ended
    settled: multiset<nat>,        // settle_superseded calls
    failed: multiset<nat>,         // settle_failure calls of the publication item
    cancelled: set<nat>,           // sources asked for Superseded
    erased: multiset<nat>)         // tickets of erased rows

  /** One key's share of the system. */
  datatype Cell = Cell(
    row: Option<Row>,
    preps: map<nat, PrepStage>,    // callers by the generation they were given
    tickets: map<nat, Ticket>,     // lane reservations whose callback pumps this key
    clients: multiset<Effect>,     // rest of each abandon_preparation call
    tail: seq<Effect>,             // rest of this key's publication item, if it holds the lane
    running: bool,                 // this key is the coordinator's active key
    log: KeyLog)

  const EMPTY_LOG :=
    KeyLog({}, [], {}, Ends(multiset{}, multiset{}, multiset{}), multiset{}, multiset{}, {}, multiset{})

  const EMPTY_CELL := Cell(None, map[], map[], multiset{}, [], false, EMPTY_LOG)

  // ------------------------------------------------------------ steps of one key

  function StageOf(a: Admission): (p: PrepStage) {
    match a
    case HasTicket => Prepared
    case MustReserve => Reserving
    case MustWait => Waiting
  }

  /** The publication item after its unlock, in program order. */
  function Tail(p: Publication, g: nat): (r: seq<Effect>)
    requires p.verdict.Accepted? ==> p.wake.Some?
  {
    match p.verdict
    case Accepted => AcceptedTail(p.displacedActive, p.displacedPending, p.wake.value)
    case BornSuperseded =>
      if p.cleanup.Some? then [DoRetire(p.cleanup.value), CancelSuperseded(g), SettleSuperseded(g)]
      else [CancelSuperseded(g), SettleSuperseded(g)]
    case _ =>
      if p.cleanup.Some? then [DoRetire(p.cleanup.value), FailCandidate(g)] else [FailCandidate(g)]
  }

  /** Cancel the running candidate, cancel and settle the displaced one, wake the ticket. */
  function AcceptedTail(active: Option<nat>, pending: Option<nat>, t: nat): (r: seq<Effect>) {
    match (active, pending)
    case (None, None) => [DoWake(t)]
    case (Some(a), None) => [CancelSuperseded(a), DoWake(t)]
    case (None, Some(d)) => [CancelSuperseded(d), SettleSuperseded(d), DoWake(t)]
    case (Some(a), Some(d)) =>
      [CancelSuperseded(a), CancelSuperseded(d), SettleSuperseded(d), DoWake(t)]
  }

  /**
    After the unlock of an accepted item the candidate that waited is asked to
    stop and settled, the running one is asked to stop, nobody else is, and the
    wake comes last; a rejected or stale one settles its own candidate last.
   */
  lemma TailMeaning(p: Publication, g: nat)
    requires p.verdict.Accepted? ==> p.wake.Some?
    ensures var q := Tail(p, g);
            && q != []
            && (p.verdict.Accepted? ==>
                  && q[|q| - 1] == DoWake(p.wake.value)
                  && (forall x: nat :: CancelSuperseded(x) in q <==>
                                      p.displacedActive == Some(x) || p.displacedPending == Some(x))
                  && (forall x: nat :: SettleSuperseded(x) in q <==> p.displacedPending == Some(x)))
            && (!p.verdict.Accepted? ==>
                  && q[|q| - 1] == (if p.verdict.BornSuperseded? then SettleSuperseded(g) else FailCandidate(g))
                  && (forall x: nat :: CancelSuperseded(x) in q <==> p.verdict.BornSuperseded? && x == g)
                  && (forall t: nat :: DoRetire(t) in q <==> p.cleanup == Some(t)))
  {
  }

  function Opt(o: Option<nat>): (m: multiset<nat>) {
    if o.Some? then multiset{o.value} else multiset{}
  }

  /** Replaces the row, noting the ticket of a row that is erased. */
  function WithRow(v: Cell, o: Option<Row>): (v': Cell) {
    v.(row := o,
       log := if v.row.Some? && o.None?
              then v.log.(erased := v.log.erased + Opt(v.row.value.ticket)) else v.log)
  }

  function WithTicket(v: Cell, t: nat, x: Ticket): (v': Cell) {
    v.(tickets := v.tickets[t := x])
  }

  function RunEffect(open: bool, v: Cell, e: Effect): (v': Cell) {
    match e
    case DoRetire(t) => if t in v.tickets then WithTicket(v, t, RetireRequest(v.tickets[t])) else v
    case DoWake(t) => if t in v.tickets then WithTicket(v, t, Wake(open, v.tickets[t])) else v
    case DoResume(t) => if t in v.tickets then WithTicket(v, t, Resume(open, v.tickets[t])) else v
    case FailCandidate(g) => v.(log := v.log.(failed := v.log.failed + multiset{g}))
    case CancelSuperseded(g) => v.(log := v.log.(cancelled := v.log.cancelled + {g}))
    case SettleSuperseded(g) => v.(log := v.log.(settled := v.log.settled + multiset{g}))
  }

  function EnterCell(v: Cell, g: nat): (v': Cell) {
    var o := EnterRow(v.row);
    if o.None? then v
    else v.(row := Some(o.value.0), preps := v.preps[g := StageOf(o.value.1)],
            log := v.log.(issued := v.log.issued + {g}))
  }

  function WakeCell(v: Cell, accepting: bool, g: nat): (v': Cell) {
    var (o, outcome) := WakeRow(v.row, accepting);
    WithRow(v, o).(preps :=
      if outcome.WakeAdmitted? then v.preps[g := StageOf(outcome.admission)] else v.preps - {g})
  }

  function ReserveCell(v: Cell, g: nat, t: nat): (v': Cell) {
    WithTicket(v, t, NEW_TICKET).(preps := v.preps[g := Reserved(t)])
  }

  function ReserveThrowCell(v: Cell, g: nat): (v': Cell) {
    WithRow(v, ReserveFailedRow(v.row).0).(preps := v.preps - {g})
  }

  function InstallCell(v: Cell, g: nat): (v': Cell)
    requires g in v.preps && v.preps[g].Reserved?
  {
    v.(row := InstallRow(v.row, v.preps[g].ticket).0, preps := v.preps[g := Prepared])
  }

  function AbandonTail(o: Abandonment): (m: multiset<Effect>) {
    if o.Released? && o.cleanup.Some? then multiset{DoRetire(o.cleanup.value)}
    else if o.Released? && o.resume.Some? then multiset{DoResume(o.resume.value)}
    else multiset{}
  }

  function AbandonCell(v: Cell, g: nat): (v': Cell) {
    var (o, outcome) := AbandonRow(v.row);
    WithRow(v, o).(preps := v.preps - {g}, clients := v.clients + AbandonTail(outcome))
  }

  function EndsAfter(e: Ends, p: Publication, g: nat): (e': Ends) {
    match p.verdict
    case Accepted => e.(superseded := e.superseded + Opt(p.displacedPending))
    case BornSuperseded => e.(superseded := e.superseded + multiset{g})
    case RejectedByClose => e.(rejected := e.rejected + multiset{g})
    case LostOwnership => e.(rejected := e.rejected + multiset{g})
  }

  function PublishCell(v: Cell, accepting: bool, g: nat): (v': Cell) {
    var (o, p) := PublishRow(v.row, accepting, g);
    var v1 := WithRow(v, o);
    v1.(preps := v.preps - {g}, tail := Tail(p, g),
        log := v1.log.(
          ran := v.log.ran + {g},
          published := if p.verdict.Accepted? then v.log.published + [g] else v.log.published,
          ends := EndsAfter(v.log.ends, p, g)))
  }

  function PumpFirstCell(v: Cell, busy: bool, t: nat): (v': Cell)
    requires t in v.tickets
  {
    var (o, start) := PumpBeginRow(v.row, busy, t);
    var stage := if start.Decided? then Returning(start.action) else Executing(start.generation);
    WithTicket(WithRow(v, o), t, v.tickets[t].(phase := Running(stage)))
      .(running := v.running || start.Execute?)
  }

  function PumpLastCell(v: Cell, t: nat): (v': Cell)
    requires t in v.tickets && v.tickets[t].phase.Running? && v.tickets[t].phase.stage.Executing?
  {
    var g := v.tickets[t].phase.stage.generation;
    var (o, finish) := PumpEndRow(v.row, v.running, t, g);
    var v1 := WithTicket(WithRow(v, o), t, v.tickets[t].(phase :=
                Running(Returning(if finish.Settled? then finish.action else Action.Retire))));
    v1.(running := v.running && finish.StaleTurn?,
        log := v1.log.(ends := v.log.ends.(finished := v.log.ends.finished + multiset{g})))
  }

  function CloseCell(v: Cell): (v': Cell) {
    v.(tickets := map t | t in v.tickets :: CloseTicket(v.tickets[t]))
  }

  // ------------------------------------------------------------- the whole graph

  /** What one key keeps outside the coordinator and the graph-state lane. */
  datatype Side = Side(
    preps: map<nat, PrepStage>,
    tickets: map<nat, Ticket>,
    clients: multiset<Effect>,
    log: KeyLog)

  const EMPTY_SIDE := Side(map[], map[], multiset{}, EMPTY_LOG)

  datatype System = System(
    coord: Coord,
    sides: map<Key, Side>,
    laneOpen: bool,
    nextTicket: nat,
    itemKey: Key,                  // the publication item in the graph-state lane ...
    tail: seq<Effect>)             // ... and the rest of it; empty when the lane is idle

  function SideOf(s: System, k: Key): (d: Side) {
    if k in s.sides then s.sides[k] else EMPTY_SIDE
  }

  function View(s: System, k: Key): (v: Cell) {
    var d := SideOf(s, k);
    Cell(RowAt(s.coord, k), d.preps, d.tickets, d.clients,
         if s.itemKey == k then s.tail else [],
         s.coord.activeKey == Some(k),
         d.log)
  }

  /** Replaces everything of one key. */
  function Put(s: System, k: Key, v: Cell): (s': System) {
    var c := SetRow(s.coord, k, v.row);
    var before := View(s, k);
    s.(coord := c.(activeKey := if v.running then Some(k) else if before.running then None else c.activeKey),
       sides := s.sides[k := Side(v.preps, v.tickets, v.clients, v.log)],
       itemKey := if v.tail == before.tail then s.itemKey else k,
       tail := if v.tail == before.tail then s.tail else v.tail)
  }

  datatype Step =
    | EnterPrepare(key: Key)
    | WakePrepare(key: Key, generation: nat)
    | ReserveOk(key: Key, generation: nat)
    | ReserveThrow(key: Key, generation: nat)
    | Install(key: Key, generation: nat)
    | AbandonPrepared(key: Key, generation: nat)
    | RunClientEffect(key: Key, effect: Effect)
    | PublishPrepared(key: Key, generation: nat)
    | RunGraphEffect(key: Key)
    | BeginTurn(key: Key, ticket: nat)
    | PumpFirst(key: Key, ticket: nat)
    | PumpLast(key: Key, ticket: nat)
    | EndTurn(key: Key, ticket: nat)
    | StopCoordinator
    | StopLane

  /** The steps of prepare and of an abandoned preparation. */
  predicate OfCaller(step: Step) {
    step.EnterPrepare? || step.WakePrepare? || step.ReserveOk? || step.ReserveThrow?
    || step.Install? || step.AbandonPrepared?
  }

  function Init(firstGeneration: nat): (s: System) {
    System(Coord(map[], true, None, Allocator(firstGeneration, false)), map[], true, 0,
           Key(0, GlobalHighPrecision), [])
  }

  predicate TurnIn(v: Cell, t: nat) {
    t in v.tickets && v.tickets[t].phase.Running?
  }

  predicate EnabledAt(s: System, v: Cell, step: Step) {
    match step
    case EnterPrepare(_) => true
    case WakePrepare(_, g) => g in v.preps && v.preps[g].Waiting? && WaiterReady(v.row, s.coord.accepting)
    case ReserveOk(_, g) => g in v.preps && v.preps[g].Reserving? && s.laneOpen
    case ReserveThrow(_, g) => g in v.preps && v.preps[g].Reserving?
    case Install(_, g) => g in v.preps && v.preps[g].Reserved?
    case AbandonPrepared(_, g) => g in v.preps && v.preps[g].Prepared?
    case RunClientEffect(_, e) => e in v.clients
    case PublishPrepared(_, g) => g in v.preps && v.preps[g].Prepared? && s.tail == []
    case RunGraphEffect(k) => s.itemKey == k && s.tail != []
    case BeginTurn(_, t) => t in v.tickets && CanStart(s.laneOpen, v.tickets[t])
    case PumpFirst(_, t) => TurnIn(v, t) && v.tickets[t].phase.stage.Entering?
    case PumpLast(_, t) => TurnIn(v, t) && v.tickets[t].phase.stage.Executing?
    case EndTurn(_, t) => TurnIn(v, t) && v.tickets[t].phase.stage.Returning?
    case StopCoordinator => true
    // GraphRuntime stops the coordinator before the lane (graph_runtime.hpp).
    case StopLane => !s.coord.accepting
  }

  /** The key a step works on; the two stops work on all. */
  function StepKey(s: System, step: Step): (k: Key) {
    if step.StopCoordinator? || step.StopLane? then s.itemKey else step.key
  }

  predicate Enabled(s: System, step: Step) {
    EnabledAt(s, View(s, StepKey(s, step)), step)
  }

  /** The step's key after the step, given it before. */
  function CellAfter(s: System, v: Cell, step: Step): (v': Cell)
    requires EnabledAt(s, v, step)
    requires v.tail == if s.itemKey == StepKey(s, step) then s.tail else []
  {
    match step
    case EnterPrepare(_) =>
      if s.coord.accepting && s.coord.allocator.Peek().Some?
      then EnterCell(v, s.coord.allocator.Peek().value) else v
    case WakePrepare(_, g) => WakeCell(v, s.coord.accepting, g)
    case ReserveOk(_, g) => ReserveCell(v, g, s.nextTicket)
    case ReserveThrow(_, g) => ReserveThrowCell(v, g)
    case Install(_, g) => InstallCell(v, g)
    case AbandonPrepared(_, g) => AbandonCell(v, g)
    case RunClientEffect(_, e) => RunEffect(s.laneOpen, v.(clients := v.clients - multiset{e}), e)
    case PublishPrepared(_, g) => PublishCell(v, s.coord.accepting, g)
    case RunGraphEffect(_) => RunEffect(s.laneOpen, v.(tail := v.tail[1..]), v.tail[0])
    case BeginTurn(_, t) => WithTicket(v, t, StartTurn(v.tickets[t]))
    case PumpFirst(_, t) => PumpFirstCell(v, s.coord.activeKey.Some?, t)
    case PumpLast(_, t) => PumpLastCell(v, t)
    case EndTurn(_, t) =>
      WithTicket(v, t, FinishTurn(s.laneOpen, v.tickets[t], v.tickets[t].phase.stage.action))
    case StopCoordinator => v
    case StopLane => if s.laneOpen then CloseCell(v) else v
  }

  /** Everything a step other than a stop does to the graph, once its key's new state is known. */
  function Commit(s: System, step: Step, w: Cell): (s': System)
    requires !step.StopLane? && !step.StopCoordinator?
  {
    var s1 := if w == View(s, step.key) then s else Put(s, step.key, w);
    s1.(nextTicket := if step.ReserveOk? then s.nextTicket + 1 else s.nextTicket,
        coord := s1.coord.(allocator :=
          if step.EnterPrepare? && s.coord.accepting then s.coord.allocator.Advance()
          else s1.coord.allocator))
  }

  function Apply(s: System, step: Step): (s': System)
    requires Enabled(s, step)
  {
    if step.StopCoordinator? then s.(coord := s.coord.(accepting := false))
    else if step.StopLane? then
      if !s.laneOpen then s
      else s.(laneOpen := false,
              sides := map k | k in s.sides :: s.sides[k].(tickets := CloseCell(View(s, k)).tickets))
    else
      Commit(s, step, CellAfter(s, View(s, step.key), step))
  }
}
