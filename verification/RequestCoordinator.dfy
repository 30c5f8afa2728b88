/**
  ComputeRequestCoordinator (compute_request_coordinator.cpp): every critical
  section of the coordinator mutex, as a function of the one lineage row it
  touches, and as a method of a class that performs the same update in place.
  What happens after a section unlocks (cancel, settle, wake, retire) is
  returned as data and ordered by the protocol module.
 */
module RequestCoordinator {
  import opened Options
  import opened Supersession

  const SIZE_MAX: nat := 0xFFFF_FFFF_FFFF_FFFF

  /** One lineage row; candidates are named by their generation, tickets by id. */
  datatype Row = Row(
    current: Option<nat>,
    ticket: Option<nat>,
    pending: Option<nat>,
    active: Option<nat>,
    adopters: nat,
    reserving: bool)

  const EMPTY_ROW := Row(None, None, None, None, 0, false)

  /** How `prepare` leaves its critical section. */
  datatype Admission = HasTicket | MustReserve | MustWait

  datatype EnterOutcome =
    | AdmissionClosed
    | GenerationsExhausted
    | AdoptersExhausted
    | Entered(generation: nat, admission: Admission)

  datatype WakeOutcome = WakeRejected | WakeLostRow | WakeUnderflow | WakeAdmitted(admission: Admission)

  datatype Verdict = LostOwnership | RejectedByClose | BornSuperseded | Accepted

  /** Everything the publication item carries out of its critical section. */
  datatype Publication = Publication(
    verdict: Verdict,
    cleanup: Option<nat>,
    displacedPending: Option<nat>,
    displacedActive: Option<nat>,
    wake: Option<nat>)

  datatype Action = Park | Queue | Retire

  datatype PumpStart = Decided(action: Action) | Execute(generation: nat)

  datatype PumpFinish = StaleTurn | Settled(action: Action)

  datatype Abandonment =
    | NoRow
    | AbandonUnderflow
    | Released(cleanup: Option<nat>, resume: Option<nat>)

  /** No adopter, mailbox value or running candidate keeps the row. */
  predicate Unused(r: Row) {
    r.adopters == 0 && r.pending.None? && r.active.None?
  }

  function Admit(r: Row): (a: Admission) {
    if r.ticket.Some? then HasTicket
    else if !r.reserving then MustReserve
    else MustWait
  }

  function Claim(r: Row): (r': Row) {
    if Admit(r).MustReserve? then r.(reserving := true) else r
  }

  function Leave(r: Row): (r': Row)
    requires r.adopters > 0
  {
    r.(adopters := r.adopters - 1)
  }

  /** Keeps the row unless it satisfies `gone`. */
  function KeepUnless(gone: bool, r: Row): (o: Option<Row>) {
    if gone then None else Some(r)
  }

  /** prepare, up to the first wait or the end of the loop; None is overflow_error. */
  function EnterRow(o: Option<Row>): (r: Option<(Row, Admission)>) {
    var row := if o.Some? then o.value else EMPTY_ROW;
    if row.adopters == SIZE_MAX then None
    else
      var joined := row.(adopters := row.adopters + 1);
      Some((Claim(joined), Admit(joined)))
  }

  /** The condition-variable predicate of a same-key adopter. */
  predicate WaiterReady(o: Option<Row>, accepting: bool) {
    !accepting || o.None? || o.value.ticket.Some? || !o.value.reserving
  }

  /** prepare, from the end of a wait to the next wait or the end of the loop. */
  function WakeRow(o: Option<Row>, accepting: bool): (r: (Option<Row>, WakeOutcome)) {
    if o.None? then (None, WakeLostRow)
    else if !accepting then
      if o.value.adopters == 0 then (o, WakeUnderflow)
      else
        var left := Leave(o.value);
        (KeepUnless(Unused(left) && !left.reserving, left), WakeRejected)
    else (Some(Claim(o.value)), WakeAdmitted(Admit(o.value)))
  }

  /** prepare, after reserve_continuation threw; the flag is false for std::terminate. */
  function ReserveFailedRow(o: Option<Row>): (r: (Option<Row>, bool)) {
    if o.None? then (None, true)
    else
      var row := o.value.(reserving := false);
      if row.adopters == 0 then (Some(row), false)
      else (KeepUnless(Unused(Leave(row)), Leave(row)), true)
  }

  /** prepare, adopting the reserved ticket; the flag is false for std::terminate. */
  function InstallRow(o: Option<Row>, t: nat): (r: (Option<Row>, bool)) {
    if o.None? || !o.value.reserving || o.value.ticket.Some? then (o, false)
    else (Some(o.value.(ticket := Some(t), reserving := false)), true)
  }

  /** The publication item's critical section for generation `g`. */
  function PublishRow(o: Option<Row>, accepting: bool, g: nat): (r: (Option<Row>, Publication)) {
    if o.None? || o.value.adopters == 0 then (o, Publication(LostOwnership, None, None, None, None))
    else
      var row := Leave(o.value);
      var rejected := !accepting || row.ticket.None?;
      var born := !rejected && row.current.Some? && g <= row.current.value;
      if !rejected && !born then
        (Some(row.(current := Some(g), pending := Some(g))),
         Publication(Accepted, None, row.pending, row.active, row.ticket))
      else
        var gone := Unused(row) && !row.reserving;
        (KeepUnless(gone, row),
         Publication(if rejected then RejectedByClose else BornSuperseded,
                     if gone then row.ticket else None, None, None, None))
  }

  /** pump_turn, first critical section; `busy` is whether any key is active. */
  function PumpBeginRow(o: Option<Row>, busy: bool, t: nat): (r: (Option<Row>, PumpStart)) {
    if o.None? || o.value.ticket != Some(t) then (o, Decided(Retire))
    else if o.value.pending.None? then
      if Unused(o.value) then (None, Decided(Retire)) else (o, Decided(Park))
    else if busy then (o, Decided(Queue))
    else
      (Some(o.value.(pending := None, active := o.value.pending)), Execute(o.value.pending.value))
  }

  /** pump_turn, the section after execute returned; `mine` is whether this key is the active one. */
  function PumpEndRow(o: Option<Row>, mine: bool, t: nat, g: nat): (r: (Option<Row>, PumpFinish)) {
    if o.None? || o.value.ticket != Some(t) || o.value.active != Some(g) || !mine then (o, StaleTurn)
    else
      var row := o.value.(active := None);
      if row.pending.Some? then (Some(row), Settled(Queue))
      else if row.adopters != 0 then (Some(row), Settled(Park))
      else (None, Settled(Retire))
  }

  function AbandonRow(o: Option<Row>): (r: (Option<Row>, Abandonment)) {
    if o.None? then (None, NoRow)
    else if o.value.adopters == 0 then (o, AbandonUnderflow)
    else
      var row := Leave(o.value);
      if Unused(row) && !row.reserving then (None, Released(row.ticket, None))
      else (Some(row), Released(None, row.ticket))
  }

  // ------------------------------------------------- what each region decides, in fields

  /** The publication item takes generation `g`. */
  predicate Accepts(o: Option<Row>, accepting: bool, g: nat) {
    o.Some? && o.value.adopters > 0 && accepting && o.value.ticket.Some?
    && (o.value.current.None? || o.value.current.value < g)
  }

  /**
    A publication is accepted exactly when the row is pinned, admission open, the
    ticket there and no current generation as new; it then becomes current and
    waiting and displaces what waited.  A refused one leaves the row, which goes
    with its last use and hands out its ticket for retirement.
   */
  lemma PublishMeaning(o: Option<Row>, accepting: bool, g: nat)
    ensures var p := PublishRow(o, accepting, g).1;
            && (p.verdict.Accepted? <==> Accepts(o, accepting, g))
            && (p.verdict.LostOwnership? <==> o.None? || o.value.adopters == 0)
            && (p.verdict.BornSuperseded? <==>
                  o.Some? && o.value.adopters > 0 && accepting && o.value.ticket.Some?
                  && o.value.current.Some? && g <= o.value.current.value)
    ensures Accepts(o, accepting, g) ==>
              PublishRow(o, accepting, g) ==
                (Some(Row(Some(g), o.value.ticket, Some(g), o.value.active, o.value.adopters - 1, o.value.reserving)),
                 Publication(Accepted, None, o.value.pending, o.value.active, o.value.ticket))
    ensures o.Some? && o.value.adopters > 0 && !Accepts(o, accepting, g) ==>
              var (o', p) := PublishRow(o, accepting, g);
              var r := o.value;
              var last := r.adopters == 1 && r.pending.None? && r.active.None? && !r.reserving;
              && p.displacedPending.None? && p.displacedActive.None? && p.wake.None?
              && p.cleanup == (if last then r.ticket else None)
              && o' == if last then None
                       else Some(Row(r.current, r.ticket, r.pending, r.active, r.adopters - 1, r.reserving))
  {
  }

  /** A caller joins with one adopter; it reserves exactly when nobody has and nobody is. */
  lemma EnterMeaning(o: Option<Row>)
    ensures EnterRow(o).None? <==> o.Some? && o.value.adopters == SIZE_MAX
    ensures EnterRow(o).Some? ==>
              var (r, a) := EnterRow(o).value;
              var b := if o.Some? then o.value else Row(None, None, None, None, 0, false);
              && (a.HasTicket? <==> b.ticket.Some?)
              && (a.MustReserve? <==> b.ticket.None? && !b.reserving)
              && r == Row(b.current, b.ticket, b.pending, b.active, b.adopters + 1, b.reserving || b.ticket.None?)
  {
  }

  /** A woken waiter is rejected exactly after close; otherwise it goes on as a caller that enters. */
  lemma WakeMeaning(r: Row, accepting: bool)
    requires r.adopters > 0
    ensures !accepting ==>
              WakeRow(Some(r), false) ==
                (if r.adopters == 1 && r.pending.None? && r.active.None? && !r.reserving then None
                 else Some(Row(r.current, r.ticket, r.pending, r.active, r.adopters - 1, r.reserving)),
                 WakeRejected)
    ensures accepting ==>
              var (o, w) := WakeRow(Some(r), true);
              && w.WakeAdmitted?
              && (w.admission.HasTicket? <==> r.ticket.Some?)
              && (w.admission.MustReserve? <==> r.ticket.None? && !r.reserving)
              && o == Some(Row(r.current, r.ticket, r.pending, r.active, r.adopters, r.reserving || r.ticket.None?))
    ensures WakeRow(None, accepting) == (None, WakeLostRow)
  {
  }

  /** A failed reservation gives up claim and adopter; a good one becomes the row's ticket. */
  lemma ReservationMeaning(r: Row, t: nat)
    ensures r.adopters > 0 ==>
              ReserveFailedRow(Some(r)) ==
                (if r.adopters == 1 && r.pending.None? && r.active.None? then None
                 else Some(Row(r.current, r.ticket, r.pending, r.active, r.adopters - 1, false)),
                 true)
    ensures InstallRow(Some(r), t) ==
              if r.reserving && r.ticket.None?
              then (Some(Row(r.current, Some(t), r.pending, r.active, r.adopters, false)), true)
              else (Some(r), false)
  {
  }

  /**
    A turn executes exactly when its ticket is the row's, a candidate waits and
    nobody runs; it queues behind a runner, parks beside an empty mailbox that is
    still in use, and retires otherwise, a row without use going with it.
   */
  lemma PumpBeginMeaning(r: Row, busy: bool, t: nat)
    ensures var (o, start) := PumpBeginRow(Some(r), busy, t);
            && (start.Execute? <==> r.ticket == Some(t) && r.pending.Some? && !busy)
            && (start == Decided(Queue) <==> r.ticket == Some(t) && r.pending.Some? && busy)
            && (start == Decided(Park) <==>
                  r.ticket == Some(t) && r.pending.None? && (r.active.Some? || r.adopters > 0))
            && (start.Execute? ==>
                  Some(start.generation) == r.pending
                  && o == Some(Row(r.current, r.ticket, None, r.pending, r.adopters, r.reserving)))
            && (!start.Execute? ==>
                  o == if r.ticket == Some(t) && r.pending.None? && r.active.None? && r.adopters == 0 then None
                       else Some(r))
    ensures PumpBeginRow(None, busy, t) == (None, Decided(Retire))
  {
  }

  /** After execution the runner is freed and the turn queues, parks or retires with its row. */
  lemma PumpEndMeaning(r: Row, mine: bool, t: nat, g: nat)
    ensures var (o, finish) := PumpEndRow(Some(r), mine, t, g);
            && (finish.StaleTurn? <==> r.ticket != Some(t) || r.active != Some(g) || !mine)
            && (finish.StaleTurn? ==> o == Some(r))
            && (finish.Settled? ==>
                  && (finish.action.Queue? <==> r.pending.Some?)
                  && (finish.action.Retire? <==> r.pending.None? && r.adopters == 0)
                  && o == if r.pending.None? && r.adopters == 0 then None
                          else Some(Row(r.current, r.ticket, r.pending, None, r.adopters, r.reserving)))
  {
  }

  /** An abandoned preparation retires the ticket with the row's last use and resumes it otherwise. */
  lemma AbandonMeaning(r: Row)
    requires r.adopters > 0
    ensures AbandonRow(Some(r)) ==
              if r.adopters == 1 && r.pending.None? && r.active.None? && !r.reserving
              then (None, Released(r.ticket, None))
              else (Some(Row(r.current, r.ticket, r.pending, r.active, r.adopters - 1, r.reserving)),
                    Released(None, r.ticket))
  {
  }

  /** The state guarded by the coordinator mutex. */
  datatype Coord = Coord(
    rows: map<Key, Row>,
    accepting: bool,
    activeKey: Option<Key>,
    allocator: Allocator)

  function RowAt(c: Coord, k: Key): (o: Option<Row>) {
    if k in c.rows then Some(c.rows[k]) else None
  }

  function SetRow(c: Coord, k: Key, o: Option<Row>): (c': Coord) {
    c.(rows := if o.Some? then c.rows[k := o.value] else c.rows - {k})
  }

  predicate IsCurrent(c: Coord, k: Key, g: nat) {
    k in c.rows && c.rows[k].current == Some(g)
  }

  /** What every region keeps of a row by itself. */
  predicate RowCoherent(r: Row) {
    && (r.reserving ==> r.ticket.None?)
    && (r.ticket.None? ==> r.pending.None? && r.active.None?)
    && (r.pending.Some? ==> r.current == r.pending)
    && (r.active.Some? ==> r.current.Some? && r.active.value <= r.current.value)
  }

  /** What every region keeps of the whole: coherent rows and one runner, known as the active key. */
  ghost predicate Coherent(c: Coord) {
    && c.allocator.Valid()
    && (forall k | k in c.rows :: RowCoherent(c.rows[k]) && (c.rows[k].active.Some? <==> c.activeKey == Some(k)))
    && (c.activeKey.Some? ==> c.activeKey.value in c.rows)
  }

  /** The coordinator object; every method is one locked region. */
  class ComputeRequestCoordinator {
    var rows: map<Key, Row>
    var accepting: bool
    var activeKey: Option<Key>
    const allocator: GenerationAllocator

    ghost function State(): (c: Coord)
      reads this, allocator
    {
      Coord(rows, accepting, activeKey, allocator.State())
    }

    constructor (firstGeneration: nat)
      requires 1 <= firstGeneration <= UINT64_MAX
      ensures fresh(allocator)
      ensures State() == Coord(map[], true, None, Allocator(firstGeneration, false)) && Coherent(State())
    {
      rows, accepting, activeKey := map[], true, None;
      allocator := new GenerationAllocator(firstGeneration);
    }

    method PrepareEnter(key: Key) returns (outcome: EnterOutcome)
      requires Coherent(State())
      modifies this, allocator
      ensures Coherent(State())
      ensures outcome.Entered? ==>
                !old(allocator.State()).Issued(outcome.generation) && key in rows && rows[key].adopters > 0
                && (outcome.admission.HasTicket? <==> rows[key].ticket.Some?)
      ensures var c := old(State());
              var joined := EnterRow(RowAt(c, key));
              if !c.accepting then outcome == AdmissionClosed && State() == c
              else if c.allocator.Peek().None? then outcome == GenerationsExhausted && State() == c
              else if joined.None? then
                outcome == AdoptersExhausted && State() == c.(allocator := c.allocator.Advance())
              else
                outcome == Entered(c.allocator.Peek().value, joined.value.1)
                && State() == SetRow(c, key, Some(joined.value.0)).(allocator := c.allocator.Advance())
    {
      if !accepting {
        return AdmissionClosed;
      }
      var generation := allocator.Allocate();
      if generation.None? {
        return GenerationsExhausted;
      }
      var row := if key in rows then rows[key] else EMPTY_ROW;
      if row.adopters == SIZE_MAX {
        return AdoptersExhausted;
      }
      row := row.(adopters := row.adopters + 1);
      outcome := Entered(generation.value, Admit(row));
      if row.ticket.None? && !row.reserving {
        row := row.(reserving := true);
      }
      rows := rows[key := row];
    }

    method PrepareWake(key: Key) returns (outcome: WakeOutcome)
      requires WaiterReady(RowAt(State(), key), accepting)
      requires Coherent(State())
      modifies this
      ensures Coherent(State())
      ensures outcome.WakeAdmitted? ==> key in rows && (outcome.admission.HasTicket? <==> rows[key].ticket.Some?)
      ensures outcome == WakeRow(RowAt(old(State()), key), old(accepting)).1
      ensures State() == SetRow(old(State()), key, WakeRow(RowAt(old(State()), key), old(accepting)).0)
    {
      if key !in rows {
        return WakeLostRow;
      }
      var row := rows[key];
      if !accepting {
        if row.adopters == 0 {
          return WakeUnderflow;
        }
        row := row.(adopters := row.adopters - 1);
        if row.adopters == 0 && !row.reserving && row.pending.None? && row.active.None? {
          rows := rows - {key};
        } else {
          rows := rows[key := row];
        }
        return WakeRejected;
      }
      outcome := WakeAdmitted(Admit(row));
      if row.ticket.None? && !row.reserving {
        row := row.(reserving := true);
      }
      rows := rows[key := row];
    }

    method PrepareReserveFailed(key: Key) returns (survived: bool)
      requires Coherent(State())
      modifies this
      ensures Coherent(State()) && (survived && key in rows ==> !rows[key].reserving)
      ensures survived == ReserveFailedRow(RowAt(old(State()), key)).1
      ensures State() == SetRow(old(State()), key, ReserveFailedRow(RowAt(old(State()), key)).0)
    {
      if key in rows {
        var row := rows[key].(reserving := false);
        rows := rows[key := row];
        if row.adopters == 0 {
          return false;
        }
        row := row.(adopters := row.adopters - 1);
        rows := rows[key := row];
        if row.adopters == 0 && row.pending.None? && row.active.None? {
          rows := rows - {key};
        }
      }
      return true;
    }

    method PrepareInstall(key: Key, ticket: nat) returns (survived: bool)
      requires Coherent(State())
      modifies this
      ensures Coherent(State()) && (survived ==> key in rows && rows[key].ticket == Some(ticket))
      ensures survived == InstallRow(RowAt(old(State()), key), ticket).1
      ensures State() == SetRow(old(State()), key, InstallRow(RowAt(old(State()), key), ticket).0)
    {
      if key !in rows || !rows[key].reserving || rows[key].ticket.Some? {
        return false;
      }
      rows := rows[key := rows[key].(ticket := Some(ticket), reserving := false)];
      return true;
    }

    method PublishItem(key: Key, generation: nat) returns (p: Publication)
      requires Coherent(State())
      modifies this
      ensures Coherent(State())
      ensures p.verdict.Accepted? <==>
                && key in old(rows) && old(rows)[key].adopters > 0 && old(accepting)
                && old(rows)[key].ticket.Some?
                && (old(rows)[key].current.None? || old(rows)[key].current.value < generation)
      ensures p.verdict.Accepted? ==>
                && key in rows && rows[key].current == Some(generation) && rows[key].pending == Some(generation)
                && p.displacedPending == old(rows)[key].pending && p.displacedActive == old(rows)[key].active
                && p.wake == old(rows)[key].ticket
      ensures p == PublishRow(RowAt(old(State()), key), old(accepting), generation).1
      ensures State() ==
                SetRow(old(State()), key, PublishRow(RowAt(old(State()), key), old(accepting), generation).0)
    {
      if key !in rows || rows[key].adopters == 0 {
        return Publication(LostOwnership, None, None, None, None);
      }
      var row := rows[key];
      row := row.(adopters := row.adopters - 1);
      var rejected := !accepting || row.ticket.None?;
      var born := !rejected && row.current.Some? && !(row.current.value < generation);
      p := Publication(if rejected then RejectedByClose else if born then BornSuperseded else Accepted,
                       None, None, None, None);
      if !rejected && !born {
        p := p.(displacedPending := row.pending, displacedActive := row.active, wake := row.ticket);
        rows := rows[key := row.(current := Some(generation), pending := Some(generation))];
      } else if row.adopters == 0 && row.pending.None? && row.active.None? && !row.reserving {
        p := p.(cleanup := row.ticket);
        rows := rows - {key};
      } else {
        rows := rows[key := row];
      }
    }

    method PumpTurnBegin(key: Key, ticket: nat) returns (start: PumpStart)
      requires Coherent(State())
      modifies this
      ensures Coherent(State())
      ensures start.Execute? ==>
                old(activeKey).None? && activeKey == Some(key) && IsCurrent(State(), key, start.generation)
      ensures start == PumpBeginRow(RowAt(old(State()), key), old(activeKey).Some?, ticket).1
      ensures State() ==
                SetRow(old(State()), key, PumpBeginRow(RowAt(old(State()), key), old(activeKey).Some?, ticket).0)
                .(activeKey := if start.Execute? then Some(key) else old(activeKey))
    {
      if key !in rows || rows[key].ticket != Some(ticket) {
        return Decided(Retire);
      }
      var row := rows[key];
      if row.pending.None? {
        if row.active.None? && row.adopters == 0 {
          rows := rows - {key};
          return Decided(Retire);
        }
        return Decided(Park);
      }
      if activeKey.Some? {
        return Decided(Queue);
      }
      start := Execute(row.pending.value);
      rows := rows[key := row.(pending := None, active := row.pending)];
      activeKey := Some(key);
    }

    method PumpTurnEnd(key: Key, ticket: nat, generation: nat) returns (finish: PumpFinish)
      requires Coherent(State())
      modifies this
      ensures Coherent(State())
      ensures finish.Settled? ==> forall k | k in rows :: rows[k].active.None?
      ensures var o := PumpEndRow(RowAt(old(State()), key), old(activeKey) == Some(key), ticket, generation);
              finish == o.1
              && State() == SetRow(old(State()), key, o.0)
                            .(activeKey := if o.1.Settled? then None else old(activeKey))
    {
      if key !in rows || rows[key].ticket != Some(ticket) || rows[key].active != Some(generation)
         || activeKey != Some(key) {
        return StaleTurn;
      }
      var row := rows[key].(active := None);
      activeKey := None;
      if row.pending.Some? {
        rows := rows[key := row];
        return Settled(Queue);
      }
      if row.adopters != 0 {
        rows := rows[key := row];
        return Settled(Park);
      }
      rows := rows - {key};
      return Settled(Retire);
    }

    method AbandonPreparation(key: Key) returns (outcome: Abandonment)
      requires Coherent(State())
      modifies this
      ensures Coherent(State())
      ensures outcome.Released? ==>
                (outcome.cleanup.Some? ==> key !in rows && outcome.resume.None?)
                && (outcome.resume.Some? ==> key in rows && rows[key].ticket == outcome.resume)
      ensures outcome == AbandonRow(RowAt(old(State()), key)).1
      ensures State() == SetRow(old(State()), key, AbandonRow(RowAt(old(State()), key)).0)
    {
      if key !in rows {
        return NoRow;
      }
      if rows[key].adopters == 0 {
        return AbandonUnderflow;
      }
      var row := rows[key].(adopters := rows[key].adopters - 1);
      if row.adopters == 0 && row.pending.None? && row.active.None? && !row.reserving {
        rows := rows - {key};
        return Released(row.ticket, None);
      }
      rows := rows[key := row];
      return Released(None, row.ticket);
    }

    method TestCurrent(key: Key, generation: nat) returns (current: bool)
      ensures current == IsCurrent(State(), key, generation)
    {
      current := key in rows && rows[key].current.Some? && rows[key].current.value == generation;
    }

    method StopAdmission()
      requires Coherent(State())
      modifies this
      ensures Coherent(State())
      ensures State() == old(State()).(accepting := false)
    {
      accepting := false;
    }
  }
}
