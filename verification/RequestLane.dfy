/**
  The compute-request lane's reusable tickets (graph_state_executor.cpp): wake,
  resume, retire, turn start, turn end and admission stop, each one region of
  the executor mutex, as functions of the ticket they touch and of whether the
  lane still admits work.  FIFO order is not kept: any queued ticket may start
  next, and turns of different tickets may overlap, so every result also covers
  the sole FIFO worker of the real lane.
 */
module RequestLane {
  import opened RequestCoordinator

  /** Where a running turn stands inside pump_turn. */
  datatype Stage = Entering | Executing(generation: nat) | Returning(action: Action)

  datatype Phase = Parked | Queued | Running(stage: Stage) | Retired

  datatype Ticket = Ticket(
    phase: Phase,
    wakePending: bool,
    retirePending: bool,
    closeTurn: bool)

  /** What reserve_continuation hands out. */
  const NEW_TICKET := Ticket(Parked, false, false, false)

  const RETIRED_TICKET := Ticket(Retired, false, false, false)

  /** The turn's callback is executing a candidate. */
  predicate Executes(x: Ticket) {
    x.phase.Running? && x.phase.stage.Executing?
  }

  /** The turn's callback has chosen its action and has not yet handed it to the lane. */
  predicate Decides(x: Ticket) {
    x.phase.Running? && x.phase.stage.Returning?
  }

  predicate DecidesRetire(x: Ticket) { Decides(x) && x.phase.stage.action.Retire? }

  predicate DecidesPark(x: Ticket) { Decides(x) && x.phase.stage.action.Park? }

  predicate DecidesQueue(x: Ticket) { Decides(x) && x.phase.stage.action.Queue? }

  /** Wake, resume and retire return false and change nothing. */
  predicate Deaf(x: Ticket) {
    x.phase.Retired? || x.retirePending
  }

  function Wake(open: bool, x: Ticket): (x': Ticket) {
    if !open || Deaf(x) then x
    else if x.phase.Parked? then x.(phase := Queued)
    else if x.phase.Running? then x.(wakePending := true)
    else x
  }

  function Resume(open: bool, x: Ticket): (x': Ticket) {
    if Deaf(x) then x
    else if x.phase.Parked? then
      if open then x.(phase := Queued) else x.(closeTurn := true)
    else if x.phase.Running? then x.(wakePending := true)
    else x
  }

  function RetireRequest(x: Ticket): (x': Ticket) {
    if Deaf(x) then x
    else if x.phase.Parked? then RETIRED_TICKET
    else x.(retirePending := true, wakePending := false, closeTurn := false)
  }

  predicate CanStart(open: bool, x: Ticket) {
    x.phase.Queued? || (!open && x.phase.Parked? && x.closeTurn)
  }

  /** The worker takes a ticket; a pending retirement skips the callback. */
  function StartTurn(x: Ticket): (x': Ticket) {
    x.(phase := Running(if x.retirePending then Returning(Action.Retire) else Entering),
       closeTurn := x.phase.Queued? && x.closeTurn)
  }

  /** finish_continuation_turn_locked. */
  function FinishTurn(open: bool, x: Ticket, action: Action): (x': Ticket) {
    if x.retirePending || action.Retire? then RETIRED_TICKET
    else if x.wakePending || action.Queue? then
      if open then x.(wakePending := false, phase := Queued)
      else x.(wakePending := false, phase := Parked, closeTurn := true)
    else x.(phase := Parked)
  }

  /** stop_admission_for_close: every parked ticket is owed one turn. */
  function CloseTicket(x: Ticket): (x': Ticket) {
    if x.phase.Parked? then x.(closeTurn := true) else x
  }

  // ------------------------------------------------------------------ what they mean

  /**
    A ticket that is neither retired nor about to be hears a wake while the lane
    is open and a resume always: parked it is queued, or on the closed lane owed
    a turn; running it latches the wake.  Nothing else changes.
   */
  lemma CallMeaning(open: bool, x: Ticket)
    ensures var hears := x.phase != Retired && !x.retirePending;
            && Wake(open, x) == Ticket(if hears && open && x.phase == Parked then Queued else x.phase,
                                       x.wakePending || (hears && open && x.phase.Running?),
                                       x.retirePending, x.closeTurn)
            && Resume(open, x) == Ticket(if hears && open && x.phase == Parked then Queued else x.phase,
                                         x.wakePending || (hears && x.phase.Running?),
                                         x.retirePending, x.closeTurn || (hears && !open && x.phase == Parked))
            && RetireRequest(x) ==
                 (if !hears then x
                  else if x.phase == Parked then Ticket(Retired, false, false, false)
                  else Ticket(x.phase, false, true, false))
    ensures CloseTicket(x) == Ticket(x.phase, x.wakePending, x.retirePending, x.closeTurn || x.phase == Parked)
  {
  }

  /** A turn starts from the queue, or once from a ticket owed one, and ends retired, queued, owed one or parked. */
  lemma TurnMeaning(open: bool, x: Ticket, action: Action)
    ensures CanStart(open, x) <==> x.phase == Queued || (x.phase == Parked && x.closeTurn && !open)
    ensures StartTurn(x).phase == Running(if x.retirePending then Returning(Action.Retire) else Entering)
    ensures StartTurn(x).wakePending == x.wakePending && StartTurn(x).retirePending == x.retirePending
    ensures StartTurn(x).closeTurn <==> x.closeTurn && x.phase == Queued
    ensures var y := FinishTurn(open, x, action);
            && (y.phase == Retired <==> x.retirePending || action == Action.Retire)
            && (y.phase == Queued <==>
                  open && !x.retirePending && action != Action.Retire && (x.wakePending || action == Action.Queue))
            && (y.phase == Retired || y.phase == Queued || y.phase == Parked)
            && !y.wakePending && !y.retirePending
            && (y.phase == Retired ==> !y.closeTurn)
            && (y.phase == Queued ==> y.closeTurn == x.closeTurn)
            && (y.phase == Parked ==>
                  (y.closeTurn <==> x.closeTurn || (!open && (x.wakePending || action == Action.Queue))))
  {
  }

  /** A wake that an open lane hears is not lost: the ticket is queued now, or when its running turn ends. */
  lemma WakeIsNotLost(x: Ticket, action: Action)
    requires x.phase != Retired && !x.retirePending && action != Action.Retire
    ensures var y := Wake(true, x);
            if x.phase.Running? then FinishTurn(true, y, action).phase == Queued else y.phase == Queued
  {
  }
}
