/**
  What the latest-wins protocol promises over whole runs: ordering of accepted
  publications, one place per candidate, a single runner, and no reachable
  failure branch.
 */
module SupersessionTheorems {
  import opened Counting
  import opened Options
  import opened Supersession
  import opened RequestCoordinator
  import opened SupersessionProtocol
  import opened SupersessionInvariant

  /** A finite run of the protocol from an open, empty coordinator. */
  ghost predicate IsRun(first: nat, states: seq<System>, steps: seq<Step>) {
    && 1 <= first <= UINT64_MAX
    && |states| == |steps| + 1
    && states[0] == Init(first)
    && (forall i: nat | i < |steps| :: Takes(states[i], steps[i], states[i + 1]))
  }

  ghost predicate Takes(s: System, step: Step, s': System) {
    Enabled(s, step) && s' == Apply(s, step)
  }

  lemma {:induction false} RunKeepsInv(first: nat, states: seq<System>, steps: seq<Step>, i: nat)
    requires IsRun(first, states, steps) && i <= |steps|
    ensures Inv(states[i])
  {
    if i == 0 {
      InitInv(first);
    } else {
      RunKeepsInv(first, states, steps, i - 1);
      assert Takes(states[i - 1], steps[i - 1], states[i]);
      StepKeepsInv(states[i - 1], steps[i - 1]);
    }
  }

  lemma InitiallyEmpty(first: nat, k: Key)
    ensures View(Init(first), k) == EMPTY_CELL
  {
  }

  // ---------------------------------------------------------- history only grows

  ghost predicate LogGrows(l: KeyLog, l': KeyLog) {
    && l.published <= l'.published
    && l.ran <= l'.ran
    && l.ends.superseded <= l'.ends.superseded
    && l.ends.rejected <= l'.ends.rejected
    && l.ends.finished <= l'.ends.finished
    && l.settled <= l'.settled
    && l.failed <= l'.failed
    && l.cancelled <= l'.cancelled
    && l.erased <= l'.erased
  }

  lemma CallerLogGrows(s: System, v: Cell, step: Step)
    requires EnabledAt(s, v, step) && OfCaller(step)
    requires v.tail == if s.itemKey == StepKey(s, step) then s.tail else []
    ensures LogGrows(v.log, CellAfter(s, v, step).log)
  {
  }

  lemma EffectLogGrows(open: bool, v: Cell, e: Effect)
    ensures LogGrows(v.log, RunEffect(open, v, e).log)
  {
  }

  lemma TurnLogGrows(s: System, v: Cell, step: Step)
    requires EnabledAt(s, v, step) && (step.BeginTurn? || step.PumpFirst? || step.EndTurn?)
    requires v.tail == if s.itemKey == StepKey(s, step) then s.tail else []
    ensures LogGrows(v.log, CellAfter(s, v, step).log)
  {
  }

  lemma PublishLogGrows(v: Cell, accepting: bool, g: nat)
    ensures LogGrows(v.log, PublishCell(v, accepting, g).log)
  {
  }

  lemma PumpLastLogGrows(v: Cell, t: nat)
    requires TurnIn(v, t) && v.tickets[t].phase.stage.Executing?
    ensures LogGrows(v.log, PumpLastCell(v, t).log)
  {
  }

  lemma OwnLogGrows(s: System, v: Cell, step: Step)
    requires EnabledAt(s, v, step) && !step.StopLane? && !step.StopCoordinator?
    requires v.tail == if s.itemKey == StepKey(s, step) then s.tail else []
    ensures LogGrows(v.log, CellAfter(s, v, step).log)
  {
    if OfCaller(step) {
      CallerLogGrows(s, v, step);
    } else {
      match step
      case PublishPrepared(_, g) => PublishLogGrows(v, s.coord.accepting, g);
      case PumpLast(_, t) => PumpLastLogGrows(v, t);
      case RunClientEffect(_, e) => EffectLogGrows(s.laneOpen, v.(clients := v.clients - multiset{e}), e);
      case RunGraphEffect(_) => EffectLogGrows(s.laneOpen, v.(tail := v.tail[1..]), v.tail[0]);
      case _ => TurnLogGrows(s, v, step);
    }
  }

  lemma StepLogGrows(s: System, step: Step, k: Key)
    requires Enabled(s, step)
    ensures LogGrows(View(s, k).log, View(Apply(s, step), k).log)
  {
    if step.StopLane? || step.StopCoordinator? {
      StopIsUniform(s, step, k);
    } else {
      StepIsLocal(s, step, k);
      if k == step.key {
        OwnLogGrows(s, View(s, k), step);
      }
    }
  }

  lemma LogGrowsFromItself(l: KeyLog)
    ensures LogGrows(l, l)
  {
  }

  lemma LogGrowsTransitively(a: KeyLog, b: KeyLog, c: KeyLog)
    requires LogGrows(a, b) && LogGrows(b, c)
    ensures LogGrows(a, c)
  {
  }

  lemma LogGrowsOneMore(first: nat, states: seq<System>, steps: seq<Step>, l: KeyLog, j: nat, k: Key)
    requires IsRun(first, states, steps) && j < |steps| && LogGrows(l, View(states[j], k).log)
    ensures LogGrows(l, View(states[j + 1], k).log)
  {
    assert Takes(states[j], steps[j], states[j + 1]);
    StepLogGrows(states[j], steps[j], k);
    LogGrowsTransitively(l, View(states[j], k).log, View(states[j + 1], k).log);
  }

  lemma {:induction false} RunLogGrows(
      first: nat, states: seq<System>, steps: seq<Step>, i: nat, j: nat, k: Key)
    requires IsRun(first, states, steps) && i <= j <= |steps|
    ensures LogGrows(View(states[i], k).log, View(states[j], k).log)
    decreases j
  {
    if i == j {
      LogGrowsFromItself(View(states[i], k).log);
    } else {
      RunLogGrows(first, states, steps, i, j - 1, k);
      LogGrowsOneMore(first, states, steps, View(states[i], k).log, j - 1, k);
    }
  }

  // ------------------------------------------------------------- publication order

  /** The publication item of generation `g`, if it ran now, would be accepted. */
  predicate Acceptable(s: System, k: Key, g: nat) {
    Accepts(RowAt(s.coord, k), s.coord.accepting, g)
  }

  lemma AcceptAppends(s: System, s': System, k: Key, g: nat)
    requires Takes(s, PublishPrepared(k, g), s') && Acceptable(s, k, g)
    ensures View(s', k).log.published == View(s, k).log.published + [g]
  {
    StepIsLocal(s, PublishPrepared(k, g), k);
    AcceptedCell(View(s, k), s.coord.accepting, g);
  }

  lemma RunAcceptAppends(first: nat, states: seq<System>, steps: seq<Step>, i: nat, k: Key, g: nat)
    requires IsRun(first, states, steps) && i < |steps|
    requires steps[i] == PublishPrepared(k, g) && Acceptable(states[i], k, g)
    ensures View(states[i + 1], k).log.published == View(states[i], k).log.published + [g]
  {
    assert Takes(states[i], steps[i], states[i + 1]);
    AcceptAppends(states[i], states[i + 1], k, g);
  }

  lemma AcceptedCell(v: Cell, accepting: bool, g: nat)
    requires Accepts(v.row, accepting, g)
    ensures PublishCell(v, accepting, g).log.published == v.log.published + [g]
  {
    PublishMeaning(v.row, accepting, g);
  }

  /** What the newest candidate's publication leaves behind. */
  ghost predicate TakenOver(v: Cell, w: Cell, g: nat) {
    && w.row.Some? && w.row.value.current == Some(g) && w.row.value.pending == Some(g)
    && v.row.Some? && w.row.value.active == v.row.value.active
    && w.log.published == v.log.published + [g]
    && w.log.ends.superseded == v.log.ends.superseded + Opt(v.row.value.pending)
  }

  lemma NewestTakesOver(v: Cell, g: nat)
    requires Accepts(v.row, true, g)
    ensures TakenOver(v, PublishCell(v, true, g), g)
  {
    PublishMeaning(v.row, true, g);
    PublishFields(v, true, g);
    AcceptedCell(v, true, g);
  }

  lemma NewestIsAcceptable(v: Cell, g: nat)
    requires InvRow(v.row, v.preps, v.running, v.log.published) && InvPreps(v.row, v.preps)
    requires g in v.preps && v.preps[g].Prepared? && forall x | x in v.log.published :: x < g
    ensures Accepts(v.row, true, g)
  {
    assert g in v.preps.Keys && |v.preps.Keys| == |v.preps|;
    if v.row.value.current.Some? {
      assert v.log.published[|v.log.published| - 1] in v.log.published;
    }
  }

  /**
    Latest wins: on an open graph the publication item of a generation newer
    than every accepted one of its key makes it current and waiting, and moves
    the candidate that waited before to the superseded ones.
   */
  lemma LatestWins(first: nat, states: seq<System>, steps: seq<Step>, i: nat, k: Key, g: nat)
    requires IsRun(first, states, steps) && i < |steps| && steps[i] == PublishPrepared(k, g)
    requires states[i].coord.accepting && forall x | x in View(states[i], k).log.published :: x < g
    ensures TakenOver(View(states[i], k), View(states[i + 1], k), g)
    ensures IsCurrent(states[i + 1].coord, k, g)
  {
    RunKeepsInv(first, states, steps, i);
    assert Takes(states[i], steps[i], states[i + 1]);
    PublicationTakesOver(states[i], states[i + 1], k, g);
  }

  lemma PublicationTakesOver(s: System, s': System, k: Key, g: nat)
    requires Inv(s) && Takes(s, PublishPrepared(k, g), s')
    requires s.coord.accepting && forall x | x in View(s, k).log.published :: x < g
    ensures TakenOver(View(s, k), View(s', k), g)
    ensures IsCurrent(s'.coord, k, g)
  {
    PublishedView(s, s', k, g);
    NewestAccepts(s, k, g);
    NewestTakesOver(View(s, k), g);
    RowIsCurrent(s', k, g);
  }

  lemma PublishedView(s: System, s': System, k: Key, g: nat)
    requires Takes(s, PublishPrepared(k, g), s')
    ensures View(s', k) == PublishCell(View(s, k), s.coord.accepting, g)
    ensures g in View(s, k).preps && View(s, k).preps[g].Prepared?
  {
    StepIsLocal(s, PublishPrepared(k, g), k);
  }

  lemma NewestAccepts(s: System, k: Key, g: nat)
    requires Inv(s) && g in View(s, k).preps && View(s, k).preps[g].Prepared?
    requires forall x | x in View(s, k).log.published :: x < g
    ensures Accepts(View(s, k).row, true, g)
  {
    assert CellInv(View(s, k), s.laneOpen);
    NewestIsAcceptable(View(s, k), g);
  }

  lemma RowIsCurrent(s: System, k: Key, g: nat)
    requires View(s, k).row.Some? && View(s, k).row.value.current == Some(g)
    ensures IsCurrent(s.coord, k, g)
  {
  }

  lemma RunPublishedSorted(first: nat, states: seq<System>, steps: seq<Step>, i: nat, k: Key)
    requires IsRun(first, states, steps) && i <= |steps|
    ensures var p := View(states[i], k).log.published; forall a, b | 0 <= a < b < |p| :: p[a] < p[b]
  {
    RunKeepsInv(first, states, steps, i);
    PublishedSorted(states[i], k);
  }

  lemma PublishedSorted(s: System, k: Key)
    requires Inv(s)
    ensures var p := View(s, k).log.published; forall i, j | 0 <= i < j < |p| :: p[i] < p[j]
  {
    assert CellInv(View(s, k), s.laneOpen);
  }

  /**
    Along every run, the publications a key accepts carry strictly increasing
    generations, even when its row was erased and recreated in between.
   */
  lemma AcceptedGenerationsIncrease(
      first: nat, states: seq<System>, steps: seq<Step>, i: nat, j: nat, k: Key, g: nat, h: nat)
    requires IsRun(first, states, steps) && i < j < |steps|
    requires steps[i] == PublishPrepared(k, g) && Acceptable(states[i], k, g)
    requires steps[j] == PublishPrepared(k, h) && Acceptable(states[j], k, h)
    ensures g < h
  {
    AcceptedStays(first, states, steps, i, j, k, g);
    RunAcceptAppends(first, states, steps, j, k, h);
    RunPublishedSorted(first, states, steps, j + 1, k);
    AppendedLater(View(states[i], k).log.published, View(states[j], k).log.published, g, h);
  }

  lemma AcceptedStays(first: nat, states: seq<System>, steps: seq<Step>, i: nat, j: nat, k: Key, g: nat)
    requires IsRun(first, states, steps) && i < j <= |steps|
    requires steps[i] == PublishPrepared(k, g) && Acceptable(states[i], k, g)
    ensures View(states[i], k).log.published + [g] <= View(states[j], k).log.published
  {
    RunAcceptAppends(first, states, steps, i, k, g);
    RunLogGrows(first, states, steps, i + 1, j, k);
  }

  lemma AppendedLater(p: seq<nat>, q: seq<nat>, g: nat, h: nat)
    requires p + [g] <= q && forall i, j | 0 <= i < j < |q + [h]| :: (q + [h])[i] < (q + [h])[j]
    ensures g < h
  {
    assert (q + [h])[|p|] == g && (q + [h])[|q|] == h;
  }

  lemma CurrentIsNewest(s: System, k: Key, g: nat)
    requires Inv(s) && IsCurrent(s.coord, k, g)
    ensures var p := View(s, k).log.published;
            p != [] && p[|p| - 1] == g && forall i | 0 <= i < |p| :: p[i] <= g
  {
    PublishedSorted(s, k);
    assert CellInv(View(s, k), s.laneOpen);
    assert View(s, k).row == Some(s.coord.rows[k]);
  }

  /** Once a newer generation of the key is current, an older one is never current again. */
  lemma SupersededNeverCurrentAgain(
      first: nat, states: seq<System>, steps: seq<Step>, i: nat, j: nat, k: Key, g: nat, h: nat)
    requires IsRun(first, states, steps) && i <= j <= |steps|
    requires g < h && IsCurrent(states[i].coord, k, h)
    ensures !IsCurrent(states[j].coord, k, g)
  {
    RunKeepsInv(first, states, steps, i);
    CurrentIsNewest(states[i], k, h);
    RunLogGrows(first, states, steps, i, j, k);
    assert View(states[j], k).log.published[|View(states[i], k).log.published| - 1] == h;
    RunKeepsInv(first, states, steps, j);
    if IsCurrent(states[j].coord, k, g) {
      CurrentIsNewest(states[j], k, g);
    }
  }

  // --------------------------------------------------------------- candidate places

  /** In every reachable state a candidate is in one place if its item ran, and nowhere before. */
  lemma OnePlacePerCandidate(first: nat, states: seq<System>, steps: seq<Step>, i: nat, k: Key, g: nat)
    requires IsRun(first, states, steps) && i <= |steps|
    ensures var v := View(states[i], k);
            && Places(v.row, v.log.ends, g) == B(g in v.log.ran)
            && v.log.settled[g] <= v.log.ends.superseded[g] <= 1
            && v.log.failed[g] <= v.log.ends.rejected[g] <= 1
            && (v.tail == [] ==> v.log.settled[g] == v.log.ends.superseded[g]
                                 && v.log.failed[g] == v.log.ends.rejected[g])
  {
    RunKeepsInv(first, states, steps, i);
    var v := View(states[i], k);
    assert CellInv(v, states[i].laneOpen);
    assert Places(v.row, v.log.ends, g) == B(g in v.log.ran);
    assert v.log.settled[g] + B(SettleSuperseded(g) in v.tail) == v.log.ends.superseded[g];
    assert v.log.failed[g] + B(FailCandidate(g) in v.tail) == v.log.ends.rejected[g];
  }

  /** The candidate is executing, or its turn has ended. */
  predicate Started(v: Cell, g: nat) {
    IsActive(v.row, g) || v.log.ends.finished[g] > 0
  }

  lemma PumpFirstStarted(v: Cell, busy: bool, t: nat, g: nat)
    requires t in v.tickets && (v.running ==> busy) && Started(v, g)
    requires IsActive(v.row, g) ==> v.running
    ensures Started(PumpFirstCell(v, busy, t), g)
  {
  }

  lemma PumpLastStarted(v: Cell, t: nat, g: nat)
    requires TurnIn(v, t) && v.tickets[t].phase.stage.Executing? && Started(v, g)
    ensures Started(PumpLastCell(v, t), g)
  {
  }

  lemma EnteringStarted(s: System, v: Cell, step: Step, g: nat)
    requires EnabledAt(s, v, step) && (step.EnterPrepare? || step.WakePrepare?) && Started(v, g)
    requires v.tail == if s.itemKey == StepKey(s, step) then s.tail else []
    ensures Started(CellAfter(s, v, step), g)
  {
  }

  lemma ReservingStarted(s: System, v: Cell, step: Step, g: nat)
    requires EnabledAt(s, v, step) && (step.ReserveOk? || step.ReserveThrow? || step.Install?) && Started(v, g)
    requires v.tail == if s.itemKey == StepKey(s, step) then s.tail else []
    ensures Started(CellAfter(s, v, step), g)
  {
  }

  lemma AbandonStarted(v: Cell, h: nat, g: nat)
    requires Started(v, g)
    ensures Started(AbandonCell(v, h), g)
  {
  }

  lemma PublishStarted(v: Cell, accepting: bool, g: nat, h: nat)
    requires Started(v, g)
    ensures Started(PublishCell(v, accepting, h), g)
  {
  }

  lemma EffectStarted(open: bool, v: Cell, e: Effect, g: nat)
    requires Started(v, g)
    ensures Started(RunEffect(open, v, e), g)
  {
  }

  lemma OwnStarted(s: System, v: Cell, step: Step, g: nat)
    requires EnabledAt(s, v, step) && !step.StopLane? && !step.StopCoordinator? && Started(v, g)
    requires v.tail == if s.itemKey == StepKey(s, step) then s.tail else []
    requires (v.running ==> s.coord.activeKey.Some?) && (IsActive(v.row, g) ==> v.running)
    ensures Started(CellAfter(s, v, step), g)
  {
    if step.EnterPrepare? || step.WakePrepare? {
      EnteringStarted(s, v, step, g);
    } else if step.ReserveOk? || step.ReserveThrow? || step.Install? {
      ReservingStarted(s, v, step, g);
    } else {
      match step
      case AbandonPrepared(_, h) => AbandonStarted(v, h, g);
      case PublishPrepared(_, h) => PublishStarted(v, s.coord.accepting, g, h);
      case PumpFirst(_, t) => PumpFirstStarted(v, s.coord.activeKey.Some?, t, g);
      case PumpLast(_, t) => PumpLastStarted(v, t, g);
      case RunClientEffect(_, e) => EffectStarted(s.laneOpen, v.(clients := v.clients - multiset{e}), e, g);
      case RunGraphEffect(_) => EffectStarted(s.laneOpen, v.(tail := v.tail[1..]), v.tail[0], g);
      case _ =>
    }
  }

  lemma StepStartedStays(s: System, step: Step, s': System, k: Key, g: nat)
    requires Takes(s, step, s') && Inv(s) && Started(View(s, k), g)
    ensures Started(View(s', k), g)
  {
    if step.StopLane? || step.StopCoordinator? {
      StopIsUniform(s, step, k);
    } else {
      StepIsLocal(s, step, k);
      if k == step.key {
        OwnStartedStays(s, step, g);
      }
    }
  }

  lemma OwnStartedStays(s: System, step: Step, g: nat)
    requires Enabled(s, step) && !step.StopLane? && !step.StopCoordinator?
    requires Inv(s) && Started(View(s, step.key), g)
    ensures Started(CellAfter(s, View(s, step.key), step), g)
  {
    assert CellInv(View(s, step.key), s.laneOpen);
    OwnStarted(s, View(s, step.key), step, g);
  }

  lemma RunStepStartedStays(first: nat, states: seq<System>, steps: seq<Step>, i: nat, k: Key, g: nat)
    requires IsRun(first, states, steps) && i < |steps| && Started(View(states[i], k), g)
    ensures Started(View(states[i + 1], k), g)
  {
    RunKeepsInv(first, states, steps, i);
    assert Takes(states[i], steps[i], states[i + 1]);
    StepStartedStays(states[i], steps[i], states[i + 1], k, g);
  }

  lemma {:induction false} RunStartedStays(
      first: nat, states: seq<System>, steps: seq<Step>, i: nat, j: nat, k: Key, g: nat)
    requires IsRun(first, states, steps) && i <= j <= |steps| && Started(View(states[i], k), g)
    ensures Started(View(states[j], k), g)
    decreases j
  {
    if i < j {
      RunStartedStays(first, states, steps, i, j - 1, k, g);
      RunStepStartedStays(first, states, steps, j - 1, k, g);
    }
  }

  /** A displaced, born-stale or rejected candidate executes at no point of the run. */
  lemma SupersededNeverExecutes(
      first: nat, states: seq<System>, steps: seq<Step>, i: nat, j: nat, k: Key, g: nat)
    requires IsRun(first, states, steps) && i <= |steps| && j <= |steps|
    requires View(states[i], k).log.ends.superseded[g] + View(states[i], k).log.ends.rejected[g] > 0
    ensures !Started(View(states[j], k), g)
  {
    var top := if i < j then j else i;
    RunLogGrows(first, states, steps, i, top, k);
    OnePlacePerCandidate(first, states, steps, top, k, g);
    if Started(View(states[j], k), g) {
      RunStartedStays(first, states, steps, j, top, k, g);
    }
  }

  // ------------------------------------------------------------- asked before settled

  /** Before each settlement still to come the candidate's source is asked to stop. */
  ghost predicate AsksFirst(tail: seq<Effect>, cancelled: set<nat>) {
    forall i | 0 <= i < |tail| && tail[i].SettleSuperseded? ::
      tail[i].generation in cancelled || exists j | 0 <= j < i :: tail[j] == CancelSuperseded(tail[i].generation)
  }

  ghost predicate Asked(v: Cell) {
    (forall g: nat | v.log.settled[g] > 0 :: g in v.log.cancelled) && AsksFirst(v.tail, v.log.cancelled)
  }

  lemma TailAsksFirst(p: Publication, g: nat, cancelled: set<nat>)
    requires p.verdict.Accepted? ==> p.wake.Some?
    ensures AsksFirst(Tail(p, g), cancelled)
  {
    var tail := Tail(p, g);
    forall i | 0 <= i < |tail| && tail[i].SettleSuperseded?
      ensures exists j | 0 <= j < i :: tail[j] == CancelSuperseded(tail[i].generation)
    {
      assert i > 0 && tail[i - 1] == CancelSuperseded(tail[i].generation);
    }
  }

  lemma RestAsksFirst(tail: seq<Effect>, cancelled: set<nat>)
    requires tail != [] && AsksFirst(tail, cancelled)
    ensures AsksFirst(tail[1..], if tail[0].CancelSuperseded? then cancelled + {tail[0].generation} else cancelled)
  {
    var rest := tail[1..];
    var c := if tail[0].CancelSuperseded? then cancelled + {tail[0].generation} else cancelled;
    forall i | 0 <= i < |rest| && rest[i].SettleSuperseded?
      ensures rest[i].generation in c || exists j | 0 <= j < i :: rest[j] == CancelSuperseded(rest[i].generation)
    {
      var e := CancelSuperseded(tail[i + 1].generation);
      if tail[i + 1].generation !in cancelled {
        var j :| 0 <= j < i + 1 && tail[j] == e;
        if j > 0 {
          assert rest[j - 1] == e;
        }
      }
    }
  }

  lemma GraphEffectAsked(open: bool, v: Cell)
    requires v.tail != [] && Asked(v)
    ensures Asked(RunEffect(open, v.(tail := v.tail[1..]), v.tail[0]))
  {
    RestAsksFirst(v.tail, v.log.cancelled);
    var e := v.tail[0];
    if e.SettleSuperseded? {
      assert e.generation in v.log.cancelled;
    }
  }

  lemma PublishAsked(v: Cell, accepting: bool, g: nat)
    requires Asked(v)
    ensures Asked(PublishCell(v, accepting, g))
  {
    PublishFields(v, accepting, g);
    TailAsksFirst(PublishRow(v.row, accepting, g).1, g, v.log.cancelled);
  }

  /** The step leaves settlements, requests to stop and the item alone. */
  predicate LeavesItem(v: Cell, w: Cell) {
    w.tail == v.tail && w.log.settled == v.log.settled && w.log.cancelled == v.log.cancelled
  }

  lemma CallerLeavesItem(s: System, v: Cell, step: Step)
    requires EnabledAt(s, v, step) && OfCaller(step)
    requires v.tail == if s.itemKey == StepKey(s, step) then s.tail else []
    ensures LeavesItem(v, CellAfter(s, v, step))
  {
  }

  lemma ClientLeavesItem(open: bool, v: Cell, e: Effect)
    requires InvNamed(v.tail, v.clients, v.tickets) && e in v.clients
    ensures LeavesItem(v, RunEffect(open, v.(clients := v.clients - multiset{e}), e))
  {
  }

  lemma TurnLeavesItem(s: System, v: Cell, step: Step)
    requires EnabledAt(s, v, step) && (step.BeginTurn? || step.PumpFirst? || step.PumpLast? || step.EndTurn?)
    requires v.tail == if s.itemKey == StepKey(s, step) then s.tail else []
    ensures LeavesItem(v, CellAfter(s, v, step))
  {
  }

  lemma OwnAsked(s: System, v: Cell, step: Step)
    requires EnabledAt(s, v, step) && !step.StopLane? && !step.StopCoordinator? && Asked(v)
    requires v.tail == if s.itemKey == StepKey(s, step) then s.tail else []
    requires InvNamed(v.tail, v.clients, v.tickets)
    ensures Asked(CellAfter(s, v, step))
  {
    if OfCaller(step) {
      CallerLeavesItem(s, v, step);
    } else {
      match step
      case PublishPrepared(_, g) => PublishAsked(v, s.coord.accepting, g);
      case RunGraphEffect(_) => GraphEffectAsked(s.laneOpen, v);
      case RunClientEffect(_, e) => ClientLeavesItem(s.laneOpen, v, e);
      case _ => TurnLeavesItem(s, v, step);
    }
  }

  lemma StepAsked(s: System, step: Step, s': System, k: Key)
    requires Takes(s, step, s') && Inv(s) && Asked(View(s, k))
    ensures Asked(View(s', k))
  {
    if step.StopLane? || step.StopCoordinator? {
      StopIsUniform(s, step, k);
    } else {
      StepIsLocal(s, step, k);
      if k == step.key {
        assert CellInv(View(s, k), s.laneOpen);
        OwnAsked(s, View(s, k), step);
      }
    }
  }

  lemma RunStepAsked(first: nat, states: seq<System>, steps: seq<Step>, i: nat, k: Key)
    requires IsRun(first, states, steps) && i < |steps| && Asked(View(states[i], k))
    ensures Asked(View(states[i + 1], k))
  {
    RunKeepsInv(first, states, steps, i);
    assert Takes(states[i], steps[i], states[i + 1]);
    StepAsked(states[i], steps[i], states[i + 1], k);
  }

  /** In every reachable state a candidate settled as superseded has been asked to stop first. */
  lemma {:induction false} AskedBeforeSettled(
      first: nat, states: seq<System>, steps: seq<Step>, i: nat, k: Key)
    requires IsRun(first, states, steps) && i <= |steps|
    ensures Asked(View(states[i], k))
  {
    if i == 0 {
      InitiallyEmpty(first, k);
    } else {
      AskedBeforeSettled(first, states, steps, i - 1, k);
      RunStepAsked(first, states, steps, i - 1, k);
    }
  }

  // ------------------------------------------------------------------ rows and runner

  /**
    In every reachable state: the mailbox holds the row's current generation, a
    running candidate is at most current, no two keys run, the active key is set
    exactly while one runs, and outside a publication item of the key a running
    candidate with a newer one waiting has been asked to stop.
   */
  lemma RowContract(first: nat, states: seq<System>, steps: seq<Step>, i: nat, k: Key, k': Key)
    requires IsRun(first, states, steps) && i <= |steps|
    requires k in states[i].coord.rows && k' in states[i].coord.rows
    ensures var r := states[i].coord.rows[k]; var c := states[i].coord;
            && (r.pending.Some? ==> r.current == r.pending)
            && (r.active.Some? ==> r.current.Some? && r.active.value <= r.current.value)
            && (r.active.Some? <==> c.activeKey == Some(k))
            && (r.active.Some? && c.rows[k'].active.Some? ==> k == k')
            && r.adopters == |View(states[i], k).preps|
            && (r.adopters > 0 || r.pending.Some? || r.active.Some?)
            && (r.ticket.Some? ==> !r.reserving)
            && (r.pending.Some? && r.active.Some? && View(states[i], k).tail == [] ==>
                  r.active.value in View(states[i], k).log.cancelled)
    ensures states[i].coord.activeKey.Some? ==> states[i].coord.activeKey.value in states[i].coord.rows
  {
    RunKeepsInv(first, states, steps, i);
    var c := states[i].coord;
    assert View(states[i], k).row == Some(c.rows[k]) && View(states[i], k').row == Some(c.rows[k']);
    assert CellInv(View(states[i], k), states[i].laneOpen);
    assert CellInv(View(states[i], k'), states[i].laneOpen);
    if c.activeKey.Some? {
      assert CellInv(View(states[i], c.activeKey.value), states[i].laneOpen);
    }
  }

  /** A key with an outstanding preparation has a row. */
  lemma PreparationPinsRow(first: nat, states: seq<System>, steps: seq<Step>, i: nat, k: Key, g: nat)
    requires IsRun(first, states, steps) && i <= |steps| && g in View(states[i], k).preps
    ensures k in states[i].coord.rows && states[i].coord.rows[k].adopters > 0
  {
    RunKeepsInv(first, states, steps, i);
    var v := View(states[i], k);
    assert CellInv(v, states[i].laneOpen);
    assert g in v.preps.Keys && |v.preps.Keys| == |v.preps|;
  }

  // ----------------------------------------------------------------- failure branches

  /** The step takes a branch in which the source throws logic_error or terminates. */
  predicate Faults(s: System, v: Cell, step: Step)
    requires EnabledAt(s, v, step)
  {
    match step
    case EnterPrepare(_) =>
      s.coord.accepting && s.coord.allocator.Peek().Some? && EnterRow(v.row).None?
    case WakePrepare(_, _) =>
      var o := WakeRow(v.row, s.coord.accepting).1; o.WakeLostRow? || o.WakeUnderflow?
    case ReserveThrow(_, _) => v.row.None? || !ReserveFailedRow(v.row).1
    case Install(_, g) => !InstallRow(v.row, v.preps[g].ticket).1
    case AbandonPrepared(_, _) => !AbandonRow(v.row).1.Released?
    case PublishPrepared(_, g) => PublishRow(v.row, s.coord.accepting, g).1.verdict.LostOwnership?
    case PumpLast(_, t) =>
      PumpEndRow(v.row, v.running, t, v.tickets[t].phase.stage.generation).1.StaleTurn?
    case _ => false
  }

  /** A set of numbers below `bound` has at most `bound` elements. */
  lemma {:induction false} SmallNumbers(a: set<nat>, bound: nat)
    requires forall g | g in a :: g < bound
    ensures |a| <= bound
  {
    if bound == 0 {
      assert a == {};
    } else {
      var b := a - {bound - 1};
      SmallNumbers(b, bound - 1);
      assert a <= b + {bound - 1};
      SubsetSize(a, b + {bound - 1});
    }
  }

  lemma FewAdopters(v: Cell, next: nat)
    requires InvLog(v.preps, v.log.issued, v.log.ran, v.log.published)
    requires InvRow(v.row, v.preps, v.running, v.log.published)
    requires next <= UINT64_MAX && forall g | g in v.log.issued :: 1 <= g < next
    ensures EnterRow(v.row).Some?
  {
    var shifted := v.preps.Keys + {0};
    SmallNumbers(shifted, next + 1);
    assert |shifted| == |v.preps.Keys| + 1 && |v.preps.Keys| == |v.preps|;
    if next > 0 {
      SmallNumbers(shifted, next);
    }
  }

  /** There are never enough outstanding preparations to exhaust the adopter count. */
  lemma AdoptersNeverExhausted(s: System, k: Key)
    requires Inv(s) && s.coord.allocator.Peek().Some?
    ensures EnterRow(View(s, k).row).Some?
  {
    assert CellInv(View(s, k), s.laneOpen);
    forall g | g in View(s, k).log.issued ensures 1 <= g < s.coord.allocator.next {
      assert k in s.sides && g in s.sides[k].log.issued;
      assert s.coord.allocator.Issued(g);
    }
    FewAdopters(View(s, k), s.coord.allocator.next);
  }

  lemma CellNeverFaults(s: System, v: Cell, step: Step)
    requires EnabledAt(s, v, step) && CellInv(v, s.laneOpen)
    requires !step.EnterPrepare?
    requires forall g | g in v.preps :: |v.preps| > 0
    ensures !Faults(s, v, step)
  {
  }

  lemma StepNeverFaults(s: System, step: Step)
    requires Inv(s) && Enabled(s, step)
    ensures !Faults(s, View(s, StepKey(s, step)), step)
  {
    var v := View(s, StepKey(s, step));
    assert CellInv(v, s.laneOpen);
    if step.EnterPrepare? {
      if s.coord.allocator.Peek().Some? {
        AdoptersNeverExhausted(s, step.key);
      }
    } else {
      forall g | g in v.preps ensures |v.preps| > 0 {
        assert g in v.preps.Keys && |v.preps.Keys| == |v.preps|;
      }
      CellNeverFaults(s, v, step);
    }
  }

  ghost predicate FaultFree(s: System, step: Step) {
    Enabled(s, step) && !Faults(s, View(s, StepKey(s, step)), step)
  }

  /** No reachable step underflows an adopter count, loses its row or terminates. */
  lemma NoFaultReachable(first: nat, states: seq<System>, steps: seq<Step>, i: nat)
    requires IsRun(first, states, steps) && i < |steps|
    ensures FaultFree(states[i], steps[i])
  {
    RunKeepsInv(first, states, steps, i);
    assert Takes(states[i], steps[i], states[i + 1]);
    StepNeverFaults(states[i], steps[i]);
  }

  /** After the lane retired every ticket and every caller left, the destructor finds nothing. */
  lemma DrainedIsEmpty(first: nat, states: seq<System>, steps: seq<Step>, i: nat)
    requires IsRun(first, states, steps) && i <= |steps|
    requires forall k: Key :: View(states[i], k).preps == map[]
    requires forall k: Key, t | t in View(states[i], k).tickets :: View(states[i], k).tickets[t].phase.Retired?
    ensures states[i].coord.rows == map[] && states[i].coord.activeKey.None?
  {
    RunKeepsInv(first, states, steps, i);
    var s := states[i];
    forall k: Key ensures k !in s.coord.rows && s.coord.activeKey != Some(k) {
      assert CellInv(View(s, k), s.laneOpen);
    }
    assert s.coord.rows.Keys == {};
    match s.coord.activeKey {
      case None =>
      case Some(k) => assert false;
    }
  }
}
