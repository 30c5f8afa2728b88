/**
  The invariant of the latest-wins protocol, key by key, and the proof that every
  step of every thread keeps it.
 */
module SupersessionInvariant {
  import opened Counting
  import opened Options
  import opened Supersession
  import opened RequestCoordinator
  import opened RequestLane
  import opened SupersessionProtocol

  function Last(q: seq<nat>): (n: nat) {
    if q == [] then 0 else q[|q| - 1]
  }

  /** Publications are accepted in strictly increasing order; a caller's own item has not run. */
  ghost predicate InvLog(preps: map<nat, PrepStage>, issued: set<nat>, ran: set<nat>, published: seq<nat>) {
    && (forall g | g in preps :: g in issued && g !in ran)
    && ran <= issued
    && (forall i | 0 <= i < |published| :: published[i] in ran)
    && (forall i, j | 0 <= i < j < |published| :: published[i] < published[j])
  }

  /**
    The row's shape.  A row exists exactly while something uses it; `current` is
    the newest accepted generation of the key; and before the first acceptance
    into a (re)created row, every caller in prepare is newer than everything
    accepted into earlier rows.
   */
  ghost predicate InvRow(row: Option<Row>, preps: map<nat, PrepStage>, running: bool, published: seq<nat>) {
    match row
    case None => preps == map[] && !running
    case Some(r) =>
      && r.adopters == |preps|
      && !Unused(r)
      && (r.reserving ==> r.ticket.None?)
      && (r.ticket.None? ==> r.pending.None? && r.active.None?)
      && (r.pending.Some? ==> r.current == r.pending)
      && (r.active.Some? ==> r.current.Some? && r.active.value <= r.current.value)
      && (r.pending.Some? && r.active.Some? ==> r.active.value < r.pending.value)
      && (r.active.Some? <==> running)
      && (r.current.Some? ==> published != [] && r.current.value == Last(published))
      && (r.current.None? ==> forall g | g in preps :: published == [] || Last(published) < g)
  }

  predicate IsReserver(p: PrepStage) { p.Reserving? || p.Reserved? }

  predicate HasReserver(preps: map<nat, PrepStage>) {
    exists g | g in preps :: IsReserver(preps[g])
  }

  ghost predicate InvPreps(row: Option<Row>, preps: map<nat, PrepStage>) {
    && (forall g | g in preps && preps[g].Prepared? :: row.Some? && row.value.ticket.Some?)
    && (forall g | g in preps && IsReserver(preps[g]) :: row.Some? && row.value.reserving)
    && (row.Some? && row.value.reserving ==> HasReserver(preps))
    && (forall g, h | g in preps && h in preps && IsReserver(preps[g]) && IsReserver(preps[h]) :: g == h)
  }

  ghost predicate Retiring(tail: seq<Effect>, clients: multiset<Effect>, t: nat) {
    DoRetire(t) in tail || DoRetire(t) in clients
  }

  predicate Names(e: Effect, t: nat) {
    e == DoRetire(t) || e == DoWake(t) || e == DoResume(t)
  }

  /** No after-unlock effect is about to touch ticket `t`. */
  ghost predicate Unnamed(tail: seq<Effect>, clients: multiset<Effect>, t: nat) {
    forall e | e in tail || e in clients :: !Names(e, t)
  }

  /** A reserved ticket not yet adopted is known to its reserver only. */
  ghost predicate InvReserved(v: Cell, open: bool) {
    forall g | g in v.preps && v.preps[g].Reserved? ::
      v.preps[g].ticket in v.tickets
      && Unnamed(v.tail, v.clients, v.preps[g].ticket)
      && (open ==> v.tickets[v.preps[g].ticket] == NEW_TICKET)
  }

  /** Effects name tickets of this key; only abandonment leaves a resume, and nothing besides that or a retirement. */
  ghost predicate InvNamed(tail: seq<Effect>, clients: multiset<Effect>, tickets: map<nat, Ticket>) {
    && (forall e | e in tail || e in clients :: e.DoRetire? || e.DoWake? || e.DoResume? ==> e.ticket in tickets)
    && (forall e | e in clients :: e.DoRetire? || e.DoResume?)
    && (forall e | e in tail :: !e.DoResume?)
  }

  ghost predicate Live(x: Ticket) {
    !Deaf(x) && !DecidesRetire(x)
  }

  /** The row's ticket is alive, and its turn executes exactly the row's active candidate. */
  ghost predicate InvTicket(v: Cell, open: bool) {
    v.row.Some? && v.row.value.ticket.Some? ==>
      var r := v.row.value; var t := r.ticket.value;
      && t in v.tickets
      && !Retiring(v.tail, v.clients, t)
      && (Live(v.tickets[t]) || (!open && r.pending.None? && r.active.None?))
      && (Executes(v.tickets[t]) <==> r.active.Some?)
      && (r.active.Some? ==> v.tickets[t].phase.stage.generation == r.active.value)
  }

  ghost predicate InvTurns(row: Option<Row>, tickets: map<nat, Ticket>) {
    forall t | t in tickets && Executes(tickets[t]) :: row.Some? && row.value.ticket == Some(t)
  }

  predicate IsPending(row: Option<Row>, g: nat) { row.Some? && row.value.pending == Some(g) }

  predicate IsActive(row: Option<Row>, g: nat) { row.Some? && row.value.active == Some(g) }

  /** In how many places generation `g` of this key is found. */
  function Places(row: Option<Row>, ends: Ends, g: nat): (n: nat) {
    B(IsPending(row, g)) + B(IsActive(row, g))
    + ends.finished[g] + ends.superseded[g] + ends.rejected[g]
  }

  ghost predicate InvPlaces(row: Option<Row>, ends: Ends, ran: set<nat>) {
    forall g: nat :: Places(row, ends, g) == B(g in ran)
  }

  /** Each displaced or stale candidate is settled once, each rejected one failed once. */
  ghost predicate InvSettled(tail: seq<Effect>, settled: multiset<nat>, failed: multiset<nat>, ends: Ends) {
    forall g: nat ::
      && settled[g] + B(SettleSuperseded(g) in tail) == ends.superseded[g]
      && failed[g] + B(FailCandidate(g) in tail) == ends.rejected[g]
  }

  /** No effect of a publication item is run twice. */
  ghost predicate Distinct(tail: seq<Effect>) {
    forall i, j | 0 <= i < j < |tail| :: tail[i] != tail[j]
  }

  /** A running candidate with a newer one waiting has been, or is being, asked to stop. */
  ghost predicate InvCancel(row: Option<Row>, tail: seq<Effect>, cancelled: set<nat>) {
    row.Some? && row.value.pending.Some? && row.value.active.Some? ==>
      row.value.active.value in cancelled || CancelSuperseded(row.value.active.value) in tail
  }

  /** What concerns the coordinator's row and the candidates. */
  ghost predicate RowInv(v: Cell) {
    && InvLog(v.preps, v.log.issued, v.log.ran, v.log.published)
    && InvRow(v.row, v.preps, v.running, v.log.published)
    && InvPreps(v.row, v.preps)
    && InvPlaces(v.row, v.log.ends, v.log.ran)
    && InvSettled(v.tail, v.log.settled, v.log.failed, v.log.ends)
    && Distinct(v.tail)
    && InvCancel(v.row, v.tail, v.log.cancelled)
  }

  /** What concerns the lane's tickets. */
  ghost predicate LaneInv(v: Cell, open: bool) {
    InvReserved(v, open) && InvTicket(v, open) && InvTurns(v.row, v.tickets)
    && InvNamed(v.tail, v.clients, v.tickets)
  }

  ghost predicate CellInv(v: Cell, open: bool) {
    RowInv(v) && LaneInv(v, open)
  }

  // ------------------------------------------------- every step of a key keeps it

  lemma RemoveOne(m: map<nat, PrepStage>, g: nat)
    requires g in m
    ensures |m - {g}| == |m| - 1
    ensures |m - {g}| == 0 ==> m - {g} == map[]
  {
    assert (m - {g}).Keys == m.Keys - {g};
    assert |(m - {g}).Keys| == |m - {g}|;
  }

  lemma SetOne(m: map<nat, PrepStage>, g: nat, p: PrepStage)
    ensures |m[g := p]| == if g in m then |m| else |m| + 1
  {
    assert m[g := p].Keys == m.Keys + {g};
    assert |m[g := p].Keys| == |m[g := p]|;
  }

  /** Restaging a caller that is not the reserver, or into one, leaves a reserver. */
  lemma SetReserver(m: map<nat, PrepStage>, g: nat, p: PrepStage)
    requires g in m && IsReserver(m[g]) ==> IsReserver(p)
    ensures IsReserver(p) || HasReserver(m) ==> HasReserver(m[g := p])
  {
    var m' := m[g := p];
    if IsReserver(p) {
      assert g in m' && IsReserver(m'[g]);
    } else if HasReserver(m) {
      var h :| h in m && IsReserver(m[h]);
      assert h in m' && IsReserver(m'[h]);
    }
  }

  /** A step that moves no candidate leaves every candidate in its one place. */
  lemma SameCandidates(o: Option<Row>, o': Option<Row>, ends: Ends, ran: set<nat>)
    requires InvPlaces(o, ends, ran)
    requires (if o.Some? then o.value.pending else None) == (if o'.Some? then o'.value.pending else None)
    requires (if o.Some? then o.value.active else None) == (if o'.Some? then o'.value.active else None)
    ensures InvPlaces(o', ends, ran)
  {
    forall g: nat ensures Places(o', ends, g) == B(g in ran) {
      assert Places(o, ends, g) == B(g in ran);
    }
  }

  lemma EnterKeepsRow(v: Cell, g: nat)
    requires RowInv(v) && EnterRow(v.row).Some?
    requires forall h | h in v.log.issued :: h < g
    ensures RowInv(EnterCell(v, g))
  {
    EnterKeepsShape(v, g);
    SameCandidates(v.row, EnterCell(v, g).row, v.log.ends, v.log.ran);
  }

  lemma EnterKeepsShape(v: Cell, g: nat)
    requires InvLog(v.preps, v.log.issued, v.log.ran, v.log.published)
    requires InvRow(v.row, v.preps, v.running, v.log.published) && InvPreps(v.row, v.preps)
    requires EnterRow(v.row).Some? && forall h | h in v.log.issued :: h < g
    ensures var w := EnterCell(v, g);
            InvLog(w.preps, w.log.issued, w.log.ran, w.log.published)
            && InvRow(w.row, w.preps, w.running, w.log.published) && InvPreps(w.row, w.preps)
  {
    var p := StageOf(EnterRow(v.row).value.1);
    SetOne(v.preps, g, p);
    SetReserver(v.preps, g, p);
    assert EnterCell(v, g).preps == v.preps[g := p];
  }

  lemma EnterKeeps(v: Cell, open: bool, g: nat)
    requires CellInv(v, open) && EnterRow(v.row).Some?
    requires forall h | h in v.log.issued :: h < g
    ensures CellInv(EnterCell(v, g), open)
  {
    EnterKeepsRow(v, g);
    EnterKeepsLane(v, open, g);
  }

  lemma EnterKeepsLane(v: Cell, open: bool, g: nat)
    requires LaneInv(v, open) && EnterRow(v.row).Some?
    ensures LaneInv(EnterCell(v, g), open)
  {
  }

  lemma WakeKeeps(v: Cell, open: bool, accepting: bool, g: nat)
    requires CellInv(v, open) && g in v.preps && v.preps[g].Waiting? && WaiterReady(v.row, accepting)
    ensures CellInv(WakeCell(v, accepting, g), open)
  {
    if accepting {
      AdmitWaiterKeepsRow(v, g);
    } else {
      RejectWaiterKeepsRow(v, g);
    }
    WakeKeepsLane(v, open, accepting, g);
  }

  lemma AdmitWaiterKeepsRow(v: Cell, g: nat)
    requires RowInv(v) && g in v.preps && v.preps[g].Waiting? && WaiterReady(v.row, true)
    ensures RowInv(WakeCell(v, true, g))
  {
    var p := StageOf(Admit(v.row.value));
    SetOne(v.preps, g, p);
    SetReserver(v.preps, g, p);
  }

  lemma RejectWaiterKeepsRow(v: Cell, g: nat)
    requires RowInv(v) && g in v.preps && v.preps[g].Waiting?
    ensures RowInv(WakeCell(v, false, g))
  {
    RemoveOne(v.preps, g);
    if v.row.value.reserving {
      var h :| h in v.preps && IsReserver(v.preps[h]);
      assert h in v.preps - {g};
    }
    SameCandidates(v.row, WakeCell(v, false, g).row, v.log.ends, v.log.ran);
  }

  lemma WakeKeepsLane(v: Cell, open: bool, accepting: bool, g: nat)
    requires InvPreps(v.row, v.preps) && InvRow(v.row, v.preps, v.running, v.log.published)
    requires LaneInv(v, open) && g in v.preps && v.preps[g].Waiting?
    ensures LaneInv(WakeCell(v, accepting, g), open)
  {
  }

  lemma ReserveKeeps(v: Cell, g: nat, t: nat)
    requires CellInv(v, true) && g in v.preps && v.preps[g].Reserving? && t !in v.tickets
    ensures CellInv(ReserveCell(v, g, t), true)
  {
    SetOne(v.preps, g, Reserved(t));
    SetReserver(v.preps, g, Reserved(t));
    ReserveKeepsLane(v, g, t);
  }

  lemma ReserveKeepsLane(v: Cell, g: nat, t: nat)
    requires InvPreps(v.row, v.preps) && InvRow(v.row, v.preps, v.running, v.log.published)
    requires LaneInv(v, true) && g in v.preps && v.preps[g].Reserving? && t !in v.tickets
    ensures LaneInv(ReserveCell(v, g, t), true)
  {
    assert Unnamed(v.tail, v.clients, t);
  }

  lemma ReserveThrowKeeps(v: Cell, open: bool, g: nat)
    requires CellInv(v, open) && g in v.preps && v.preps[g].Reserving?
    ensures CellInv(ReserveThrowCell(v, g), open)
  {
    ReserveThrowKeepsRow(v, g);
    ReserveThrowKeepsLane(v, open, g);
  }

  lemma ReserveThrowKeepsRow(v: Cell, g: nat)
    requires RowInv(v) && g in v.preps && v.preps[g].Reserving?
    ensures RowInv(ReserveThrowCell(v, g))
  {
    RemoveOne(v.preps, g);
    var w := ReserveThrowCell(v, g);
    assert InvPlaces(w.row, w.log.ends, w.log.ran) by {
      SameCandidates(v.row, w.row, v.log.ends, v.log.ran);
    }
  }

  lemma ReserveThrowKeepsLane(v: Cell, open: bool, g: nat)
    requires InvPreps(v.row, v.preps) && InvRow(v.row, v.preps, v.running, v.log.published)
    requires LaneInv(v, open) && g in v.preps && v.preps[g].Reserving?
    ensures LaneInv(ReserveThrowCell(v, g), open)
  {
  }

  lemma InstallKeeps(v: Cell, open: bool, g: nat)
    requires CellInv(v, open) && g in v.preps && v.preps[g].Reserved?
    ensures CellInv(InstallCell(v, g), open)
  {
    InstallKeepsRow(v, g);
    InstallKeepsLane(v, open, g);
  }

  lemma InstallKeepsRow(v: Cell, g: nat)
    requires RowInv(v) && g in v.preps && v.preps[g].Reserved?
    ensures RowInv(InstallCell(v, g))
  {
    SetOne(v.preps, g, Prepared);
    SameCandidates(v.row, InstallCell(v, g).row, v.log.ends, v.log.ran);
  }

  lemma InstallKeepsLane(v: Cell, open: bool, g: nat)
    requires InvPreps(v.row, v.preps) && InvRow(v.row, v.preps, v.running, v.log.published)
    requires LaneInv(v, open) && g in v.preps && v.preps[g].Reserved?
    ensures LaneInv(InstallCell(v, g), open)
  {
  }

  lemma AbandonKeeps(v: Cell, open: bool, g: nat)
    requires CellInv(v, open) && g in v.preps && v.preps[g].Prepared?
    ensures CellInv(AbandonCell(v, g), open)
  {
    AbandonKeepsRow(v, g);
    AbandonKeepsLane(v, open, g);
  }

  lemma AbandonKeepsRow(v: Cell, g: nat)
    requires RowInv(v) && g in v.preps && v.preps[g].Prepared?
    ensures RowInv(AbandonCell(v, g))
  {
    RemoveOne(v.preps, g);
  }

  lemma AbandonKeepsLane(v: Cell, open: bool, g: nat)
    requires InvPreps(v.row, v.preps) && InvRow(v.row, v.preps, v.running, v.log.published)
    requires LaneInv(v, open) && g in v.preps && v.preps[g].Prepared?
    ensures LaneInv(AbandonCell(v, g), open)
  {
  }

  lemma ClientEffectKeeps(v: Cell, open: bool, e: Effect)
    requires CellInv(v, open) && e in v.clients
    ensures CellInv(RunEffect(open, v.(clients := v.clients - multiset{e}), e), open)
  {
    forall g | g in v.preps && v.preps[g].Reserved?
      ensures v.preps[g].ticket != e.ticket
    {
      assert !Names(e, v.preps[g].ticket);
    }
    TicketEffectKeeps(v.(clients := v.clients - multiset{e}), open, e);
  }

  /** Wake, resume and retire touch one ticket that nobody is about to adopt. */
  lemma TicketEffectKeeps(v: Cell, open: bool, e: Effect)
    requires LaneInv(v, open) && (e.DoRetire? || e.DoWake? || e.DoResume?)
    requires e.DoRetire? ==> v.row.Some? ==> v.row.value.ticket != Some(e.ticket)
    requires forall g | g in v.preps && v.preps[g].Reserved? :: v.preps[g].ticket != e.ticket
    ensures LaneInv(RunEffect(open, v, e), open)
  {
  }

  lemma GraphEffectKeeps(v: Cell, open: bool, e: Effect, rest: seq<Effect>)
    requires CellInv(v, open) && v.tail == [e] + rest
    ensures CellInv(RunEffect(open, v.(tail := rest), e), open)
  {
    GraphEffectKeepsLane(v, open, e, rest);
    GraphEffectKeepsRow(v, open, e, rest);
  }

  lemma TailRest(tail: seq<Effect>, e: Effect, rest: seq<Effect>)
    requires tail == [e] + rest && Distinct(tail)
    ensures Distinct(rest) && e !in rest && forall x :: x in tail <==> x == e || x in rest
  {
    forall i | 0 <= i < |rest| ensures rest[i] != e {
      assert tail[0] == e && rest[i] == tail[i + 1];
    }
    forall i, j | 0 <= i < j < |rest| ensures rest[i] != rest[j] {
      assert rest[i] == tail[i + 1] && rest[j] == tail[j + 1];
    }
  }

  lemma GraphEffectKeepsRow(v: Cell, open: bool, e: Effect, rest: seq<Effect>)
    requires RowInv(v) && v.tail == [e] + rest
    ensures RowInv(RunEffect(open, v.(tail := rest), e))
  {
    TailRest(v.tail, e, rest);
    SettledAfter(v, open, e, rest);
    CancelAfter(v.row, v.tail, e, rest, v.log.cancelled);
    EffectFields(open, v.(tail := rest), e);
  }

  function AlsoCancelled(cancelled: set<nat>, e: Effect): (c: set<nat>) {
    if e.CancelSuperseded? then cancelled + {e.generation} else cancelled
  }

  /** What an effect leaves alone. */
  lemma EffectFields(open: bool, v: Cell, e: Effect)
    ensures var w := RunEffect(open, v, e);
            && w.row == v.row && w.preps == v.preps && w.running == v.running && w.tail == v.tail
            && w.clients == v.clients && w.log.issued == v.log.issued && w.log.ran == v.log.ran
            && w.log.published == v.log.published && w.log.ends == v.log.ends
            && w.log.cancelled == AlsoCancelled(v.log.cancelled, e)
  {
  }

  lemma CancelAfter(row: Option<Row>, tail: seq<Effect>, e: Effect, rest: seq<Effect>, cancelled: set<nat>)
    requires InvCancel(row, tail, cancelled) && forall x :: x in tail <==> x == e || x in rest
    ensures InvCancel(row, rest, AlsoCancelled(cancelled, e))
  {
  }

  lemma SettledAfter(v: Cell, open: bool, e: Effect, rest: seq<Effect>)
    requires InvSettled(v.tail, v.log.settled, v.log.failed, v.log.ends)
    requires e !in rest && forall x :: x in v.tail <==> x == e || x in rest
    ensures var w := RunEffect(open, v.(tail := rest), e);
            InvSettled(rest, w.log.settled, w.log.failed, v.log.ends)
  {
    var w := RunEffect(open, v.(tail := rest), e);
    forall g: nat
      ensures w.log.settled[g] + B(SettleSuperseded(g) in rest) == v.log.ends.superseded[g]
              && w.log.failed[g] + B(FailCandidate(g) in rest) == v.log.ends.rejected[g]
    {
      assert v.log.settled[g] + B(SettleSuperseded(g) in v.tail) == v.log.ends.superseded[g]
             && v.log.failed[g] + B(FailCandidate(g) in v.tail) == v.log.ends.rejected[g];
    }
  }

  lemma GraphEffectKeepsLane(v: Cell, open: bool, e: Effect, rest: seq<Effect>)
    requires LaneInv(v, open) && v.tail == [e] + rest
    ensures LaneInv(RunEffect(open, v.(tail := rest), e), open)
  {
    ShorterTailKeepsLane(v, open, e, rest);
    if e.DoRetire? || e.DoWake? || e.DoResume? {
      TicketEffectKeeps(v.(tail := rest), open, e);
    }
  }

  lemma ShorterTailKeepsLane(v: Cell, open: bool, e: Effect, rest: seq<Effect>)
    requires LaneInv(v, open) && v.tail == [e] + rest
    ensures LaneInv(v.(tail := rest), open)
    ensures e.DoRetire? ==> v.row.Some? ==> v.row.value.ticket != Some(e.ticket)
    ensures e.DoRetire? || e.DoWake? || e.DoResume? ==>
              forall g | g in v.preps && v.preps[g].Reserved? :: v.preps[g].ticket != e.ticket
  {
    assert forall x | x in rest :: x in v.tail;
    assert e in v.tail;
    if e.DoRetire? || e.DoWake? || e.DoResume? {
      forall g | g in v.preps && v.preps[g].Reserved?
        ensures v.preps[g].ticket != e.ticket
      {
        assert !Names(e, v.preps[g].ticket);
      }
    }
  }

  /** What the publication item still owes after its unlock. */
  lemma TailMembers(p: Publication, g: nat)
    requires p.verdict.Accepted? ==> p.wake.Some? && p.cleanup.None?
    ensures forall t: nat :: DoRetire(t) in Tail(p, g) <==> p.cleanup == Some(t)
    ensures forall t: nat :: DoResume(t) !in Tail(p, g)
    ensures forall t: nat :: DoWake(t) in Tail(p, g) <==> p.verdict.Accepted? && p.wake == Some(t)
    ensures p.verdict.Accepted? && p.displacedActive.Some? ==>
              CancelSuperseded(p.displacedActive.value) in Tail(p, g)
  {
  }

  lemma TailSettles(p: Publication, g: nat)
    requires p.verdict.Accepted? ==> p.wake.Some?
    requires p.displacedActive.Some? && p.displacedPending.Some? ==>
               p.displacedActive.value < p.displacedPending.value
    ensures forall h: nat ::
              SettleSuperseded(h) in Tail(p, g) <==>
                if p.verdict.Accepted? then p.displacedPending == Some(h)
                else p.verdict.BornSuperseded? && h == g
    ensures forall h: nat ::
              FailCandidate(h) in Tail(p, g) <==>
                (p.verdict.RejectedByClose? || p.verdict.LostOwnership?) && h == g
    ensures Distinct(Tail(p, g))
  {
  }

  lemma PublishKeeps(v: Cell, open: bool, accepting: bool, g: nat)
    requires CellInv(v, open) && g in v.preps && v.preps[g].Prepared? && v.tail == []
    requires accepting ==> open
    ensures CellInv(PublishCell(v, accepting, g), open)
  {
    PublishKeepsRow(v, accepting, g);
    PublishKeepsLane(v, open, accepting, g);
  }

  lemma PublishKeepsRow(v: Cell, accepting: bool, g: nat)
    requires RowInv(v) && g in v.preps && v.preps[g].Prepared? && v.tail == []
    ensures RowInv(PublishCell(v, accepting, g))
  {
    RemoveOne(v.preps, g);
    PublishKeepsPlaces(v, accepting, g);
    PublishKeepsSettled(v, accepting, g);
    PublishKeepsShape(v, accepting, g);
  }

  lemma PublishKeepsShape(v: Cell, accepting: bool, g: nat)
    requires InvLog(v.preps, v.log.issued, v.log.ran, v.log.published)
    requires InvRow(v.row, v.preps, v.running, v.log.published) && InvPreps(v.row, v.preps)
    requires g in v.preps && v.preps[g].Prepared?
    requires |v.preps - {g}| == |v.preps| - 1 && (|v.preps - {g}| == 0 ==> v.preps - {g} == map[])
    ensures var w := PublishCell(v, accepting, g);
            InvLog(w.preps, w.log.issued, w.log.ran, w.log.published)
            && InvRow(w.row, w.preps, w.running, w.log.published) && InvPreps(w.row, w.preps)
  {
    PublishFields(v, accepting, g);
    PublishKeepsLog(v, accepting, g);
    PublishedRow(v.row, v.preps, v.running, v.log.published, accepting, g);
    PublishedPreps(v.row, v.preps, accepting, g);
  }

  function AfterPublication(published: seq<nat>, p: Publication, g: nat): (q: seq<nat>) {
    if p.verdict.Accepted? then published + [g] else published
  }

  lemma PublishKeepsLog(v: Cell, accepting: bool, g: nat)
    requires InvLog(v.preps, v.log.issued, v.log.ran, v.log.published) && g in v.preps
    requires InvRow(v.row, v.preps, v.running, v.log.published)
    ensures var w := PublishCell(v, accepting, g);
            && InvLog(w.preps, w.log.issued, w.log.ran, w.log.published)
            && w.log.published == AfterPublication(v.log.published, PublishRow(v.row, accepting, g).1, g)
  {
    if PublishRow(v.row, accepting, g).1.verdict.Accepted? {
      AppendKeepsLog(v.preps, v.log.issued, v.log.ran, v.log.published, g);
    }
  }

  /** The row a publication leaves keeps its shape. */
  lemma PublishedRow(
      o: Option<Row>, preps: map<nat, PrepStage>, running: bool, published: seq<nat>, accepting: bool, g: nat)
    requires InvRow(o, preps, running, published) && g in preps && o.Some? && o.value.ticket.Some?
    requires |preps - {g}| == |preps| - 1 && (|preps - {g}| == 0 ==> preps - {g} == map[])
    ensures var (o', p) := PublishRow(o, accepting, g);
            InvRow(o', preps - {g}, running, AfterPublication(published, p, g))
  {
  }

  lemma PublishedPreps(o: Option<Row>, preps: map<nat, PrepStage>, accepting: bool, g: nat)
    requires InvPreps(o, preps) && g in preps && preps[g].Prepared?
    requires o.Some? && !o.value.reserving && o.value.adopters == |preps|
    requires |preps - {g}| == |preps| - 1 && (|preps - {g}| == 0 ==> preps - {g} == map[])
    ensures InvPreps(PublishRow(o, accepting, g).0, preps - {g})
  {
  }

  lemma AppendKeepsLog(preps: map<nat, PrepStage>, issued: set<nat>, ran: set<nat>, published: seq<nat>, g: nat)
    requires InvLog(preps, issued, ran, published) && g in preps
    requires published == [] || Last(published) < g
    ensures InvLog(preps - {g}, issued, ran + {g}, published + [g])
  {
  }

  lemma PublishKeepsPlaces(v: Cell, accepting: bool, g: nat)
    requires InvPlaces(v.row, v.log.ends, v.log.ran)
    requires g !in v.log.ran && v.row.Some? && v.row.value.adopters > 0
    ensures var w := PublishCell(v, accepting, g); InvPlaces(w.row, w.log.ends, w.log.ran)
  {
    PublishFields(v, accepting, g);
    var (o, p) := PublishRow(v.row, accepting, g);
    forall h: nat ensures Places(o, EndsAfter(v.log.ends, p, g), h) == B(h in v.log.ran + {g}) {
      assert Places(v.row, v.log.ends, h) == B(h in v.log.ran);
      PublicationMoves(v.row, accepting, g, v.log.ends, h);
    }
  }

  /** A publication adds its own candidate to one place and moves at most one other. */
  lemma PublicationMoves(o: Option<Row>, accepting: bool, g: nat, ends: Ends, h: nat)
    requires o.Some? && o.value.adopters > 0
    ensures var (o', p) := PublishRow(o, accepting, g);
            Places(o', EndsAfter(ends, p, g), h) == Places(o, ends, h) + B(h == g)
  {
  }

  lemma PublishKeepsSettled(v: Cell, accepting: bool, g: nat)
    requires InvRow(v.row, v.preps, v.running, v.log.published) && |v.preps| > 0
    requires InvSettled([], v.log.settled, v.log.failed, v.log.ends)
    requires InvCancel(v.row, [], v.log.cancelled)
    ensures var w := PublishCell(v, accepting, g);
            InvSettled(w.tail, w.log.settled, w.log.failed, w.log.ends)
            && Distinct(w.tail) && InvCancel(w.row, w.tail, w.log.cancelled)
  {
    PublicationSettles(v.row, accepting, g, v.log.settled, v.log.failed, v.log.ends, v.log.cancelled);
    PublishFields(v, accepting, g);
  }

  lemma PublishFields(v: Cell, accepting: bool, g: nat)
    ensures var (o, p) := PublishRow(v.row, accepting, g);
            var w := PublishCell(v, accepting, g);
            && w.row == o && w.tail == Tail(p, g) && w.preps == v.preps - {g}
            && w.tickets == v.tickets && w.clients == v.clients && w.running == v.running
            && w.log.settled == v.log.settled && w.log.failed == v.log.failed
            && w.log.cancelled == v.log.cancelled && w.log.ends == EndsAfter(v.log.ends, p, g)
            && w.log.ran == v.log.ran + {g}
  {
  }

  lemma PublicationSettles(
      o: Option<Row>, accepting: bool, g: nat, settled: multiset<nat>, failed: multiset<nat>, ends: Ends,
      cancelled: set<nat>)
    requires o.Some? && o.value.adopters > 0
    requires o.value.pending.Some? && o.value.active.Some? ==> o.value.active.value < o.value.pending.value
    requires InvSettled([], settled, failed, ends) && InvCancel(o, [], cancelled)
    ensures var (o', p) := PublishRow(o, accepting, g);
            InvSettled(Tail(p, g), settled, failed, EndsAfter(ends, p, g))
            && Distinct(Tail(p, g)) && InvCancel(o', Tail(p, g), cancelled)
  {
    var p := PublishRow(o, accepting, g).1;
    TailSettles(p, g);
    PublicationOwes(settled, failed, ends, p, g);
    PublicationCancels(o, accepting, cancelled, g);
  }

  lemma PublicationCancels(o: Option<Row>, accepting: bool, cancelled: set<nat>, g: nat)
    requires o.Some? && o.value.adopters > 0 && InvCancel(o, [], cancelled)
    ensures var (o', p) := PublishRow(o, accepting, g); InvCancel(o', Tail(p, g), cancelled)
  {
    TailMembers(PublishRow(o, accepting, g).1, g);
  }

  lemma PublicationOwes(settled: multiset<nat>, failed: multiset<nat>, ends: Ends, p: Publication, g: nat)
    requires p.verdict.Accepted? ==> p.wake.Some?
    requires p.displacedActive.Some? && p.displacedPending.Some? ==>
               p.displacedActive.value < p.displacedPending.value
    requires InvSettled([], settled, failed, ends)
    ensures InvSettled(Tail(p, g), settled, failed, EndsAfter(ends, p, g))
  {
    TailSettles(p, g);
    var tail, ends' := Tail(p, g), EndsAfter(ends, p, g);
    forall h: nat
      ensures settled[h] + B(SettleSuperseded(h) in tail) == ends'.superseded[h]
              && failed[h] + B(FailCandidate(h) in tail) == ends'.rejected[h]
    {
      assert settled[h] == ends.superseded[h] && failed[h] == ends.rejected[h];
    }
  }

  lemma PublishKeepsLane(v: Cell, open: bool, accepting: bool, g: nat)
    requires InvPreps(v.row, v.preps) && InvRow(v.row, v.preps, v.running, v.log.published)
    requires LaneInv(v, open) && g in v.preps && v.preps[g].Prepared? && v.tail == []
    requires accepting ==> open
    ensures LaneInv(PublishCell(v, accepting, g), open)
  {
    PublishFields(v, accepting, g);
    NoReserverBesidePrepared(v, g);
    PublishKeepsTicket(v, open, accepting, g);
    PublishKeepsNamed(v, accepting, g);
  }

  /** While a prepared caller exists nobody holds a reserved ticket. */
  lemma NoReserverBesidePrepared(v: Cell, g: nat)
    requires InvPreps(v.row, v.preps) && InvRow(v.row, v.preps, v.running, v.log.published)
    requires g in v.preps && v.preps[g].Prepared?
    ensures forall h | h in v.preps :: !v.preps[h].Reserved?
  {
    forall h | h in v.preps ensures !v.preps[h].Reserved? {
      assert !IsReserver(v.preps[h]);
    }
  }

  lemma PublishKeepsTicket(v: Cell, open: bool, accepting: bool, g: nat)
    requires InvRow(v.row, v.preps, v.running, v.log.published)
    requires InvTicket(v, open) && InvTurns(v.row, v.tickets) && v.tail == []
    requires accepting ==> open
    ensures var w := PublishCell(v, accepting, g); InvTicket(w, open) && InvTurns(w.row, w.tickets)
  {
    PublishFields(v, accepting, g);
    PublishRowTicket(v.row, accepting, g);
    TailMembers(PublishRow(v.row, accepting, g).1, g);
    TicketStays(v, PublishCell(v, accepting, g), open);
  }

  /** A publication never changes a row's ticket or running candidate and retires only an erased row's ticket. */
  lemma PublishRowTicket(o: Option<Row>, accepting: bool, g: nat)
    ensures var (o', p) := PublishRow(o, accepting, g);
            && (o'.Some? ==>
                  && o.Some? && o'.value.ticket == o.value.ticket && o'.value.active == o.value.active
                  && p.cleanup.None? && (o'.value.pending == o.value.pending || accepting))
            && (o'.None? && o.Some? ==> o.value.active.None?)
  {
  }

  lemma TicketStays(v: Cell, w: Cell, open: bool)
    requires InvTicket(v, open) && InvTurns(v.row, v.tickets) && w.tickets == v.tickets && w.clients == v.clients
    requires w.row.Some? ==>
               && v.row.Some? && w.row.value.ticket == v.row.value.ticket && w.row.value.active == v.row.value.active
               && (w.row.value.pending == v.row.value.pending || open)
    requires w.row.None? && v.row.Some? ==> v.row.value.active.None?
    requires v.row.Some? && v.row.value.active.Some? ==> v.row.value.ticket.Some?
    requires w.row.Some? && w.row.value.ticket.Some? ==> DoRetire(w.row.value.ticket.value) !in w.tail
    ensures InvTicket(w, open) && InvTurns(w.row, w.tickets)
  {
  }

  lemma PublishKeepsNamed(v: Cell, accepting: bool, g: nat)
    requires InvNamed([], v.clients, v.tickets)
    requires v.row.Some? && v.row.value.ticket.Some? ==> v.row.value.ticket.value in v.tickets
    ensures var w := PublishCell(v, accepting, g); InvNamed(w.tail, w.clients, w.tickets)
  {
    PublishFields(v, accepting, g);
    TailMembers(PublishRow(v.row, accepting, g).1, g);
  }

  lemma BeginTurnKeeps(v: Cell, open: bool, t: nat)
    requires CellInv(v, open) && t in v.tickets && CanStart(open, v.tickets[t])
    ensures CellInv(WithTicket(v, t, StartTurn(v.tickets[t])), open)
  {
  }

  lemma PumpFirstKeepsRow(v: Cell, busy: bool, t: nat)
    requires RowInv(v) && t in v.tickets && (v.running ==> busy)
    ensures RowInv(PumpFirstCell(v, busy, t))
  {
    var w := PumpFirstCell(v, busy, t);
    PumpFirstKeepsShape(v, busy, t);
    forall h: nat ensures Places(w.row, w.log.ends, h) == B(h in w.log.ran) {
      assert Places(v.row, v.log.ends, h) == B(h in v.log.ran);
      StartMoves(v.row, busy, t, v.log.ends, h);
    }
  }

  /** Starting a candidate moves it from the mailbox to the runner and nothing else. */
  lemma StartMoves(o: Option<Row>, busy: bool, t: nat, ends: Ends, h: nat)
    requires o.Some? && o.value.active.Some? ==> busy
    ensures Places(PumpBeginRow(o, busy, t).0, ends, h) == Places(o, ends, h)
  {
  }

  lemma PumpFirstKeepsShape(v: Cell, busy: bool, t: nat)
    requires InvRow(v.row, v.preps, v.running, v.log.published) && InvPreps(v.row, v.preps)
    requires InvCancel(v.row, v.tail, v.log.cancelled) && t in v.tickets && (v.running ==> busy)
    ensures var w := PumpFirstCell(v, busy, t);
            InvRow(w.row, w.preps, w.running, w.log.published) && InvPreps(w.row, w.preps)
            && InvCancel(w.row, w.tail, w.log.cancelled)
  {
  }

  lemma PumpFirstKeeps(v: Cell, open: bool, busy: bool, t: nat)
    requires CellInv(v, open) && t in v.tickets && v.tickets[t].phase == Running(Entering)
    requires v.running ==> busy
    ensures CellInv(PumpFirstCell(v, busy, t), open)
  {
    PumpFirstKeepsRow(v, busy, t);
    PumpFirstKeepsLane(v, open, busy, t);
  }

  lemma PumpFirstKeepsLane(v: Cell, open: bool, busy: bool, t: nat)
    requires InvRow(v.row, v.preps, v.running, v.log.published) && InvPreps(v.row, v.preps)
    requires LaneInv(v, open) && t in v.tickets && v.tickets[t].phase == Running(Entering)
    requires v.running ==> busy
    ensures LaneInv(PumpFirstCell(v, busy, t), open)
  {
  }

  lemma PumpLastKeeps(v: Cell, open: bool, t: nat)
    requires CellInv(v, open) && t in v.tickets && Executes(v.tickets[t])
    ensures CellInv(PumpLastCell(v, t), open)
  {
    PumpLastKeepsRow(v, open, t);
    PumpLastKeepsLane(v, open, t);
  }

  lemma PumpLastKeepsRow(v: Cell, open: bool, t: nat)
    requires RowInv(v) && InvTicket(v, open) && InvTurns(v.row, v.tickets)
    requires t in v.tickets && Executes(v.tickets[t])
    ensures RowInv(PumpLastCell(v, t))
  {
    var w := PumpLastCell(v, t);
    forall h: nat ensures Places(w.row, w.log.ends, h) == B(h in w.log.ran) {
      assert Places(v.row, v.log.ends, h) == B(h in v.log.ran);
    }
  }

  lemma PumpLastKeepsLane(v: Cell, open: bool, t: nat)
    requires InvRow(v.row, v.preps, v.running, v.log.published) && InvPreps(v.row, v.preps)
    requires LaneInv(v, open) && t in v.tickets && Executes(v.tickets[t])
    ensures LaneInv(PumpLastCell(v, t), open)
  {
  }

  lemma EndTurnKeeps(v: Cell, open: bool, t: nat)
    requires CellInv(v, open) && t in v.tickets
    requires v.tickets[t].phase.Running? && v.tickets[t].phase.stage.Returning?
    ensures CellInv(WithTicket(v, t, FinishTurn(open, v.tickets[t], v.tickets[t].phase.stage.action)), open)
  {
  }

  lemma CloseKeeps(v: Cell)
    requires CellInv(v, true)
    ensures CellInv(CloseCell(v), false)
  {
  }

  ghost predicate GlobalInv(s: System) {
    && s.coord.allocator.Valid()
    && (s.coord.accepting ==> s.laneOpen)
    && (forall k, g | k in s.sides && g in s.sides[k].log.issued :: s.coord.allocator.Issued(g))
    && (forall k, k', g | k in s.sides && k' in s.sides && g in s.sides[k].log.issued
                          && g in s.sides[k'].log.issued :: k == k')
    && (forall k, t | k in s.sides && t in s.sides[k].tickets :: t < s.nextTicket)
  }

  ghost predicate Inv(s: System) {
    GlobalInv(s) && forall k: Key :: CellInv(View(s, k), s.laneOpen)
  }

  lemma InitInv(firstGeneration: nat)
    requires 1 <= firstGeneration <= UINT64_MAX
    ensures Inv(Init(firstGeneration))
  {
    forall k: Key ensures CellInv(View(Init(firstGeneration), k), true) {
      assert View(Init(firstGeneration), k) == EMPTY_CELL;
    }
  }

  lemma PutView(s: System, k: Key, v: Cell, k': Key)
    requires v.tail == View(s, k).tail || s.itemKey == k || s.tail == []
    requires v.running ==> s.coord.activeKey.None? || s.coord.activeKey == Some(k)
    ensures View(Put(s, k, v), k') == if k' == k then v else View(s, k')
  {
  }

  /** Only publication items touch the graph-state lane; only pump turns the active key. */
  lemma CellAfterFrame(s: System, v: Cell, step: Step)
    requires EnabledAt(s, v, step)
    requires v.tail == if s.itemKey == StepKey(s, step) then s.tail else []
    requires v.running <==> s.coord.activeKey == Some(StepKey(s, step))
    ensures var w := CellAfter(s, v, step);
            && (w.tail == v.tail || s.itemKey == StepKey(s, step) || s.tail == [])
            && (w.running ==> s.coord.activeKey.None? || s.coord.activeKey == Some(StepKey(s, step)))
  {
  }

  lemma CountersInvisible(s: System, n: nat, a: Allocator, k: Key)
    ensures View(s.(nextTicket := n, coord := s.coord.(allocator := a)), k) == View(s, k)
  {
  }

  lemma CommitView(s: System, step: Step, w: Cell, k: Key)
    requires !step.StopLane? && !step.StopCoordinator?
    requires w.tail == View(s, step.key).tail || s.itemKey == step.key || s.tail == []
    requires w.running ==> s.coord.activeKey.None? || s.coord.activeKey == Some(step.key)
    ensures View(Commit(s, step, w), k) == if k == step.key then w else View(s, k)
  {
    var s' := Commit(s, step, w);
    if w == View(s, step.key) {
      CountersInvisible(s, s'.nextTicket, s'.coord.allocator, k);
    } else {
      PutView(s, step.key, w, k);
      CountersInvisible(Put(s, step.key, w), s'.nextTicket, s'.coord.allocator, k);
    }
  }

  /** A step changes the view of its own key only, and changes it as CellAfter says. */
  lemma StepIsLocal(s: System, step: Step, k: Key)
    requires Enabled(s, step) && !step.StopLane? && !step.StopCoordinator?
    ensures View(Apply(s, step), k) ==
              if k != step.key then View(s, k) else CellAfter(s, View(s, k), step)
  {
    CellAfterFrame(s, View(s, step.key), step);
    CommitView(s, step, CellAfter(s, View(s, step.key), step), k);
  }

  lemma StopIsUniform(s: System, step: Step, k: Key)
    requires Enabled(s, step) && (step.StopLane? || step.StopCoordinator?)
    ensures View(Apply(s, step), k) ==
              if step.StopLane? && s.laneOpen then CloseCell(View(s, k)) else View(s, k)
  {
  }

  lemma PrepareStepKeeps(s: System, step: Step)
    requires Enabled(s, step) && GlobalInv(s)
    requires step.EnterPrepare? || step.WakePrepare? || step.ReserveOk? || step.ReserveThrow? || step.Install?
    requires CellInv(View(s, step.key), s.laneOpen)
    ensures CellInv(CellAfter(s, View(s, step.key), step), s.laneOpen)
  {
    var v, open := View(s, step.key), s.laneOpen;
    match step
    case EnterPrepare(_) =>
      if s.coord.accepting && s.coord.allocator.Peek().Some? && EnterRow(v.row).Some? {
        forall h | h in v.log.issued ensures h < s.coord.allocator.Peek().value {
          assert h in s.sides[step.key].log.issued && s.coord.allocator.Issued(h);
        }
        EnterKeeps(v, open, s.coord.allocator.Peek().value);
      }
    case WakePrepare(_, g) => WakeKeeps(v, open, s.coord.accepting, g);
    case ReserveOk(_, g) =>
      assert s.nextTicket !in v.tickets;
      ReserveKeeps(v, g, s.nextTicket);
    case ReserveThrow(_, g) => ReserveThrowKeeps(v, open, g);
    case Install(_, g) => InstallKeeps(v, open, g);
  }

  lemma PublishStepKeeps(s: System, step: Step)
    requires Enabled(s, step) && GlobalInv(s)
    requires step.AbandonPrepared? || step.RunClientEffect? || step.PublishPrepared?
    requires CellInv(View(s, step.key), s.laneOpen)
    ensures CellInv(CellAfter(s, View(s, step.key), step), s.laneOpen)
  {
    var v, open := View(s, step.key), s.laneOpen;
    match step
    case AbandonPrepared(_, g) => AbandonKeeps(v, open, g);
    case RunClientEffect(_, e) => ClientEffectKeeps(v, open, e);
    case PublishPrepared(_, g) => PublishKeeps(v, open, s.coord.accepting, g);
  }

  lemma ItemEffectKeeps(v: Cell, open: bool)
    requires CellInv(v, open) && v.tail != []
    ensures CellInv(RunEffect(open, v.(tail := v.tail[1..]), v.tail[0]), open)
  {
    assert v.tail == [v.tail[0]] + v.tail[1..];
    GraphEffectKeeps(v, open, v.tail[0], v.tail[1..]);
  }

  lemma GraphStepKeeps(s: System, v: Cell, step: Step)
    requires EnabledAt(s, v, step) && step.RunGraphEffect? && CellInv(v, s.laneOpen)
    requires v.tail == if s.itemKey == StepKey(s, step) then s.tail else []
    ensures CellInv(CellAfter(s, v, step), s.laneOpen)
  {
    ItemEffectKeeps(v, s.laneOpen);
  }

  lemma TurnStepKeeps(s: System, step: Step)
    requires Enabled(s, step) && (step.BeginTurn? || step.EndTurn?)
    requires CellInv(View(s, step.key), s.laneOpen)
    ensures CellInv(CellAfter(s, View(s, step.key), step), s.laneOpen)
  {
    if step.BeginTurn? {
      BeginTurnKeeps(View(s, step.key), s.laneOpen, step.ticket);
    } else {
      EndTurnKeeps(View(s, step.key), s.laneOpen, step.ticket);
    }
  }

  lemma PumpStepKeeps(s: System, step: Step)
    requires Enabled(s, step) && (step.PumpFirst? || step.PumpLast?)
    requires CellInv(View(s, step.key), s.laneOpen)
    ensures CellInv(CellAfter(s, View(s, step.key), step), s.laneOpen)
  {
    if step.PumpFirst? {
      PumpFirstKeeps(View(s, step.key), s.laneOpen, s.coord.activeKey.Some?, step.ticket);
    } else {
      PumpLastKeeps(View(s, step.key), s.laneOpen, step.ticket);
    }
  }

  /** Generations and tickets come from the two counters only. */
  lemma CellAfterGrows(s: System, v: Cell, step: Step)
    requires EnabledAt(s, v, step) && !step.StopLane? && !step.StopCoordinator?
    requires v.tail == if s.itemKey == StepKey(s, step) then s.tail else []
    ensures Grows(s, v, step, CellAfter(s, v, step))
  {
    if OfCaller(step) {
      CallerGrows(s, v, step);
    } else {
      OtherGrows(s, v, step);
    }
  }

  ghost predicate Grows(s: System, v: Cell, step: Step, w: Cell) {
    && (forall g | g in w.log.issued :: g in v.log.issued || Fresh(s, step, g))
    && (forall t | t in w.tickets :: t in v.tickets || (step.ReserveOk? && t == s.nextTicket))
  }

  lemma CallerGrows(s: System, v: Cell, step: Step)
    requires EnabledAt(s, v, step) && OfCaller(step)
    requires v.tail == if s.itemKey == StepKey(s, step) then s.tail else []
    ensures Grows(s, v, step, CellAfter(s, v, step))
  {
  }

  lemma OtherGrows(s: System, v: Cell, step: Step)
    requires EnabledAt(s, v, step) && !OfCaller(step) && !step.StopLane? && !step.StopCoordinator?
    requires v.tail == if s.itemKey == StepKey(s, step) then s.tail else []
    ensures Grows(s, v, step, CellAfter(s, v, step))
  {
  }

  /** What `log.issued` and `tickets` of key `k` may have gained. */
  lemma CommitGrows(s: System, step: Step, w: Cell, k: Key)
    requires !step.StopLane? && !step.StopCoordinator?
    requires k in Commit(s, step, w).sides
    ensures var d := Commit(s, step, w).sides[k];
            if k == step.key then d.log.issued == w.log.issued && d.tickets == w.tickets
            else k in s.sides && d == s.sides[k]
  {
  }

  ghost predicate Fresh(s: System, step: Step, g: nat) {
    step.EnterPrepare? && s.coord.accepting && s.coord.allocator.Peek() == Some(g)
  }

  lemma IssuedKept(s: System, step: Step, w: Cell, k: Key, g: nat)
    requires GlobalInv(s) && !step.StopLane? && !step.StopCoordinator?
    requires Grows(s, View(s, step.key), step, w)
    requires k in Commit(s, step, w).sides && g in Commit(s, step, w).sides[k].log.issued
    ensures Commit(s, step, w).coord.allocator.Issued(g)
    ensures if Fresh(s, step, g) then k == step.key else k in s.sides && g in s.sides[k].log.issued
  {
    CommitGrows(s, step, w, k);
    if k == step.key {
      assert g in w.log.issued;
      if !Fresh(s, step, g) {
        assert g in View(s, k).log.issued && k in s.sides;
        assert s.coord.allocator.Issued(g);
      }
    } else {
      assert k in s.sides && g in s.sides[k].log.issued;
      assert s.coord.allocator.Issued(g) && !Fresh(s, step, g);
    }
  }

  lemma GlobalKept(s: System, step: Step, w: Cell)
    requires GlobalInv(s) && !step.StopLane? && !step.StopCoordinator?
    requires Grows(s, View(s, step.key), step, w)
    ensures GlobalInv(Commit(s, step, w))
  {
    var s' := Commit(s, step, w);
    forall k, g | k in s'.sides && g in s'.sides[k].log.issued
      ensures s'.coord.allocator.Issued(g)
    {
      IssuedKept(s, step, w, k, g);
    }
    forall k, k', g | k in s'.sides && k' in s'.sides && g in s'.sides[k].log.issued
                      && g in s'.sides[k'].log.issued
      ensures k == k'
    {
      IssuedKept(s, step, w, k, g);
      IssuedKept(s, step, w, k', g);
    }
    forall k, t | k in s'.sides && t in s'.sides[k].tickets
      ensures t < s'.nextTicket
    {
      CommitGrows(s, step, w, k);
    }
  }

  /** Every step of every thread keeps the invariant. */
  lemma StepKeepsInv(s: System, step: Step)
    requires Enabled(s, step) && Inv(s)
    ensures Inv(Apply(s, step))
  {
    if step.StopLane? || step.StopCoordinator? {
      StopKeepsInv(s, step);
    } else {
      GlobalStep(s, step);
      forall k: Key ensures CellInv(View(Apply(s, step), k), s.laneOpen) {
        EveryCellKept(s, step, k);
      }
    }
  }

  lemma CommitFrame(s: System, step: Step, w: Cell)
    requires !step.StopLane? && !step.StopCoordinator?
    ensures Commit(s, step, w).laneOpen == s.laneOpen
    ensures Commit(s, step, w).coord.accepting == s.coord.accepting
  {
  }

  lemma GlobalStep(s: System, step: Step)
    requires Enabled(s, step) && GlobalInv(s) && !step.StopLane? && !step.StopCoordinator?
    ensures GlobalInv(Apply(s, step)) && Apply(s, step).laneOpen == s.laneOpen
  {
    var w := CellAfter(s, View(s, step.key), step);
    CellAfterGrows(s, View(s, step.key), step);
    CommitKeepsGlobal(s, step, w);
    assert Apply(s, step) == Commit(s, step, w);
  }

  lemma CommitKeepsGlobal(s: System, step: Step, w: Cell)
    requires GlobalInv(s) && !step.StopLane? && !step.StopCoordinator? && Grows(s, View(s, step.key), step, w)
    ensures GlobalInv(Commit(s, step, w)) && Commit(s, step, w).laneOpen == s.laneOpen
  {
    GlobalKept(s, step, w);
    CommitFrame(s, step, w);
  }

  lemma EveryCellKept(s: System, step: Step, k: Key)
    requires Enabled(s, step) && Inv(s) && !step.StopLane? && !step.StopCoordinator?
    ensures CellInv(View(Apply(s, step), k), s.laneOpen)
  {
    StepIsLocal(s, step, k);
    if k == step.key {
      OwnCellKept(s, step);
    }
  }

  lemma OwnCellKept(s: System, step: Step)
    requires Enabled(s, step) && GlobalInv(s) && !step.StopLane? && !step.StopCoordinator?
    requires CellInv(View(s, step.key), s.laneOpen)
    ensures CellInv(CellAfter(s, View(s, step.key), step), s.laneOpen)
  {
    if step.AbandonPrepared? || step.RunClientEffect? || step.PublishPrepared? {
      PublishStepKeeps(s, step);
    } else if step.RunGraphEffect? {
      GraphStepKeeps(s, View(s, step.key), step);
    } else if step.BeginTurn? || step.EndTurn? {
      TurnStepKeeps(s, step);
    } else if step.PumpFirst? || step.PumpLast? {
      PumpStepKeeps(s, step);
    } else {
      PrepareStepKeeps(s, step);
    }
  }

  lemma StopKeepsCell(s: System, step: Step, k: Key)
    requires Enabled(s, step) && (step.StopLane? || step.StopCoordinator?) && CellInv(View(s, k), s.laneOpen)
    ensures CellInv(View(Apply(s, step), k), Apply(s, step).laneOpen)
  {
    StopIsUniform(s, step, k);
    if step.StopLane? && s.laneOpen {
      CloseKeeps(View(s, k));
    }
  }

  lemma StopKeepsGlobal(s: System, step: Step)
    requires Enabled(s, step) && (step.StopLane? || step.StopCoordinator?) && GlobalInv(s)
    ensures GlobalInv(Apply(s, step))
  {
    var s' := Apply(s, step);
    assert s'.sides.Keys == s.sides.Keys;
    forall k | k in s'.sides ensures s'.sides[k].log == s.sides[k].log
                                     && s'.sides[k].tickets.Keys == s.sides[k].tickets.Keys {
      assert View(s, k).tickets == s.sides[k].tickets;
    }
  }

  lemma StopKeepsInv(s: System, step: Step)
    requires Enabled(s, step) && Inv(s) && (step.StopLane? || step.StopCoordinator?)
    ensures Inv(Apply(s, step))
  {
    StopKeepsGlobal(s, step);
    forall k: Key ensures CellInv(View(Apply(s, step), k), Apply(s, step).laneOpen) {
      StopKeepsCell(s, step, k);
    }
  }
}
