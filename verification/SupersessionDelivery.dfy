/**
  A request made on an open graph can be carried through: its caller gets a
  ticket, its publication item takes the mailbox over, and a turn executes it.
 */
module SupersessionDelivery {
  import opened Options
  import opened Paths
  import opened Supersession
  import opened RequestCoordinator
  import opened SupersessionProtocol
  import opened SupersessionInvariant
  import opened SupersessionTheorems
  import opened SupersessionTickets
  import opened SupersessionProgress

  /** `g` is newer than everything its key has accepted. */
  ghost predicate NewestOf(v: Cell, g: nat) { forall x | x in v.log.published :: x < g }

  /** The key of an open graph before and during one request. */
  ghost predicate Serving(s: System, k: Key) {
    Inv(s) && s.coord.accepting && NotStranded(View(s, k), true) && |s.tail| <= 4
  }

  /** The caller with generation `g` is inside prepare, or past it with its item not yet run. */
  ghost predicate UnderWay(s: System, k: Key, g: nat) {
    Serving(s, k) && g in View(s, k).preps && NewestOf(View(s, k), g)
  }

  lemma One(s: System, step: Step, s': System)
    requires Takes(s, step, s')
    ensures Leads(Next(false), s, [step], s')
  {
    LeadsByOne(Next(false), s, step, s');
  }

  lemma AcceptingIsOpen(s: System)
    requires Inv(s) && s.coord.accepting
    ensures s.laneOpen
  {
  }

  lemma StaysServing(s: System, step: Step, k: Key)
    requires Serving(s, k) && Enabled(s, step) && !step.StopLane? && !step.StopCoordinator?
    ensures Serving(Apply(s, step), k)
  {
    AcceptingIsOpen(s);
    StepKeepsInv(s, step);
    CommitFrame(s, step, CellAfter(s, View(s, step.key), step));
    StepKeepsMailboxesServed(s, step, k);
    StepKeepsItemShort(s, step);
  }

  lemma StaysUnderWay(s: System, step: Step, k: Key, g: nat)
    requires UnderWay(s, k, g) && Enabled(s, step) && !step.StopLane? && !step.StopCoordinator?
    requires g in View(Apply(s, step), k).preps
    requires View(Apply(s, step), k).log.published == View(s, k).log.published
    ensures UnderWay(Apply(s, step), k, g)
  {
    StaysServing(s, step, k);
  }

  // ------------------------------------------------------------------ inside prepare

  /** The caller's own reservation or the one it waits for. */
  lemma RowOfCaller(s: System, k: Key, h: nat)
    requires Inv(s) && h in View(s, k).preps
    ensures var o := View(s, k).row;
            && o.Some? && o.value.adopters > 0
            && (View(s, k).preps[h].Reserved? || View(s, k).preps[h].Reserving? ==>
                  o.value.reserving && o.value.ticket.None?)
            && (o.value.reserving ==> HasReserver(View(s, k).preps))
  {
    assert CellInv(View(s, k), s.laneOpen);
    assert h in View(s, k).preps.Keys && |View(s, k).preps.Keys| == |View(s, k).preps|;
  }

  lemma InstallCellIs(v: Cell, h: nat)
    requires h in v.preps && v.preps[h].Reserved? && v.row.Some? && v.row.value.reserving && v.row.value.ticket.None?
    ensures var w := InstallCell(v, h);
            && w.preps == v.preps[h := Prepared] && w.log == v.log
            && w.row.Some? && w.row.value.ticket == Some(v.preps[h].ticket)
  {
    ReservationMeaning(v.row.value, v.preps[h].ticket);
  }

  lemma InstallTakes(s: System, k: Key, g: nat, h: nat) returns (s': System)
    requires UnderWay(s, k, g) && h in View(s, k).preps && View(s, k).preps[h].Reserved?
    ensures Takes(s, Install(k, h), s') && UnderWay(s', k, g)
    ensures View(s', k).preps == View(s, k).preps[h := Prepared]
    ensures View(s', k).row.Some? && View(s', k).row.value.ticket.Some?
  {
    RowOfCaller(s, k, h);
    InstallCellIs(View(s, k), h);
    s' := Apply(s, Install(k, h));
    StepIsLocal(s, Install(k, h), k);
    StaysUnderWay(s, Install(k, h), k, g);
  }

  lemma ReserveTakes(s: System, k: Key, g: nat, h: nat) returns (s': System)
    requires UnderWay(s, k, g) && h in View(s, k).preps && View(s, k).preps[h].Reserving?
    ensures Takes(s, ReserveOk(k, h), s') && UnderWay(s', k, g)
    ensures View(s', k).preps == View(s, k).preps[h := Reserved(s.nextTicket)]
  {
    AcceptingIsOpen(s);
    s' := Apply(s, ReserveOk(k, h));
    StepIsLocal(s, ReserveOk(k, h), k);
    StaysUnderWay(s, ReserveOk(k, h), k, g);
  }

  lemma WakeCellIs(v: Cell, g: nat)
    requires g in v.preps && v.row.Some? && v.row.value.adopters > 0
    requires v.row.value.ticket.Some? || !v.row.value.reserving
    ensures var w := WakeCell(v, true, g);
            && w.preps == v.preps[g := if v.row.value.ticket.Some? then Prepared else Reserving]
            && w.log == v.log
  {
    WakeMeaning(v.row.value, true);
  }

  lemma WakeTakes(s: System, k: Key, g: nat) returns (s': System)
    requires UnderWay(s, k, g) && View(s, k).preps[g].Waiting?
    requires View(s, k).row.Some? && (View(s, k).row.value.ticket.Some? || !View(s, k).row.value.reserving)
    ensures Takes(s, WakePrepare(k, g), s') && UnderWay(s', k, g)
    ensures View(s', k).preps[g] == if View(s, k).row.value.ticket.Some? then Prepared else Reserving
  {
    RowOfCaller(s, k, g);
    WakeCellIs(View(s, k), g);
    s' := Apply(s, WakePrepare(k, g));
    StepIsLocal(s, WakePrepare(k, g), k);
    StaysUnderWay(s, WakePrepare(k, g), k, g);
  }

  lemma ReserveAndInstall(s: System, k: Key, g: nat, h: nat) returns (steps: seq<Step>, s': System)
    requires UnderWay(s, k, g) && h in View(s, k).preps && View(s, k).preps[h].Reserving?
    ensures Leads(Next(false), s, steps, s') && |steps| == 2 && UnderWay(s', k, g)
    ensures h in View(s', k).preps && View(s', k).preps[h].Prepared?
    ensures g != h ==> View(s', k).preps[g] == View(s, k).preps[g]
    ensures View(s', k).row.Some? && View(s', k).row.value.ticket.Some?
  {
    var m := ReserveTakes(s, k, g, h);
    s' := InstallTakes(m, k, g, h);
    steps := [ReserveOk(k, h)] + [Install(k, h)];
    One(s, ReserveOk(k, h), m);
    One(m, Install(k, h), s');
    LeadsOn(Next(false), s, [ReserveOk(k, h)], m, [Install(k, h)], s');
  }

  /** A reservation under way can be completed; its reserver is then prepared and the row has a ticket. */
  lemma ReserverFinishes(s: System, k: Key, g: nat, h: nat) returns (steps: seq<Step>, s': System)
    requires UnderWay(s, k, g) && h in View(s, k).preps && IsReserver(View(s, k).preps[h])
    ensures Leads(Next(false), s, steps, s') && |steps| <= 2 && UnderWay(s', k, g)
    ensures h in View(s', k).preps && View(s', k).preps[h].Prepared?
    ensures g != h ==> View(s', k).preps[g] == View(s, k).preps[g]
    ensures View(s', k).row.Some? && View(s', k).row.value.ticket.Some?
  {
    if View(s, k).preps[h].Reserved? {
      s' := InstallTakes(s, k, g, h);
      steps := [Install(k, h)];
      One(s, Install(k, h), s');
    } else {
      steps, s' := ReserveAndInstall(s, k, g, h);
    }
  }

  lemma SomeReserver(preps: map<nat, PrepStage>) returns (h: nat)
    requires HasReserver(preps)
    ensures h in preps && IsReserver(preps[h])
  {
    h :| h in preps && IsReserver(preps[h]);
  }

  lemma WaitForReserver(s: System, k: Key, g: nat) returns (steps: seq<Step>, s': System)
    requires UnderWay(s, k, g) && View(s, k).preps[g].Waiting? && View(s, k).row.Some?
    requires View(s, k).row.value.reserving
    ensures Leads(Next(false), s, steps, s') && |steps| <= 3
    ensures UnderWay(s', k, g) && View(s', k).preps[g].Prepared?
  {
    RowOfCaller(s, k, g);
    var h := SomeReserver(View(s, k).preps);
    var a, m := ReserverFinishes(s, k, g, h);
    s' := WakeTakes(m, k, g);
    steps := a + [WakePrepare(k, g)];
    One(m, WakePrepare(k, g), s');
    LeadsOn(Next(false), s, a, m, [WakePrepare(k, g)], s');
  }

  lemma WaitEnds(s: System, k: Key, g: nat) returns (steps: seq<Step>, s': System)
    requires UnderWay(s, k, g) && View(s, k).preps[g].Waiting? && View(s, k).row.Some?
    requires View(s, k).row.value.ticket.Some? || !View(s, k).row.value.reserving
    ensures Leads(Next(false), s, steps, s') && |steps| <= 3
    ensures UnderWay(s', k, g) && View(s', k).preps[g].Prepared?
  {
    var m := WakeTakes(s, k, g);
    One(s, WakePrepare(k, g), m);
    if View(m, k).preps[g].Prepared? {
      steps, s' := [WakePrepare(k, g)], m;
    } else {
      var b;
      b, s' := ReserverFinishes(m, k, g, g);
      steps := [WakePrepare(k, g)] + b;
      LeadsOn(Next(false), s, [WakePrepare(k, g)], m, b, s');
    }
  }

  /** A caller inside prepare gets through it. */
  lemma PreparesSoon(s: System, k: Key, g: nat) returns (steps: seq<Step>, s': System)
    requires UnderWay(s, k, g)
    ensures Leads(Next(false), s, steps, s') && |steps| <= 3
    ensures UnderWay(s', k, g) && View(s', k).preps[g].Prepared?
  {
    RowOfCaller(s, k, g);
    if View(s, k).preps[g].Prepared? {
      steps, s' := [], s;
      LeadsNowhere(Next(false), s);
    } else if IsReserver(View(s, k).preps[g]) {
      steps, s' := ReserverFinishes(s, k, g, g);
    } else if View(s, k).row.value.reserving {
      steps, s' := WaitForReserver(s, k, g);
    } else {
      steps, s' := WaitEnds(s, k, g);
    }
  }

  // ------------------------------------------------------------ publication and turn

  lemma EffectTakes(s: System, k: Key, g: nat) returns (s': System)
    requires UnderWay(s, k, g) && s.tail != []
    ensures Takes(s, RunGraphEffect(s.itemKey), s') && UnderWay(s', k, g) && |s'.tail| == |s.tail| - 1
    ensures View(s', k).preps == View(s, k).preps
  {
    var step := RunGraphEffect(s.itemKey);
    s' := Apply(s, step);
    StepIsLocal(s, step, k);
    var v := View(s, s.itemKey);
    EffectFields(s.laneOpen, v.(tail := v.tail[1..]), v.tail[0]);
    StaysUnderWay(s, step, k, g);
    ItemShrinks(s, CellAfter(s, v, step));
  }

  /** The publication item in the graph-state lane runs to its end. */
  lemma {:induction false} LaneClears(s: System, k: Key, g: nat) returns (steps: seq<Step>, s': System)
    requires UnderWay(s, k, g) && View(s, k).preps[g].Prepared?
    ensures Leads(Next(false), s, steps, s') && |steps| == |s.tail| && s'.tail == []
    ensures UnderWay(s', k, g) && View(s', k).preps[g].Prepared?
    decreases |s.tail|
  {
    if s.tail == [] {
      steps, s' := [], s;
      LeadsNowhere(Next(false), s);
    } else {
      var m := EffectTakes(s, k, g);
      var b;
      b, s' := LaneClears(m, k, g);
      steps := [RunGraphEffect(s.itemKey)] + b;
      One(s, RunGraphEffect(s.itemKey), m);
      LeadsOn(Next(false), s, [RunGraphEffect(s.itemKey)], m, b, s');
    }
  }

  lemma PublicationTakes(s: System, k: Key, g: nat) returns (s': System)
    requires UnderWay(s, k, g) && View(s, k).preps[g].Prepared? && s.tail == []
    ensures Takes(s, PublishPrepared(k, g), s') && Serving(s', k)
    ensures TakenOver(View(s, k), View(s', k), g)
  {
    var step := PublishPrepared(k, g);
    s' := Apply(s, step);
    PublicationTakesOver(s, s', k, g);
    StaysServing(s, step, k);
  }

  /** A published candidate is started. */
  lemma StartsAfterPublication(s: System, k: Key, g: nat) returns (steps: seq<Step>, s': System)
    requires UnderWay(s, k, g) && View(s, k).preps[g].Prepared? && s.tail == []
    ensures Leads(Next(false), s, steps, s') && |steps| <= 9 && Started(View(s', k), g)
  {
    var m := PublicationTakes(s, k, g);
    AcceptingIsOpen(m);
    var b;
    b, s' := StartSoon(m, k, g);
    steps := [PublishPrepared(k, g)] + b;
    One(s, PublishPrepared(k, g), m);
    LeadsOn(Next(false), s, [PublishPrepared(k, g)], m, b, s');
  }

  lemma PublishedAndStarted(s: System, k: Key, g: nat) returns (steps: seq<Step>, s': System)
    requires UnderWay(s, k, g) && View(s, k).preps[g].Prepared?
    ensures Leads(Next(false), s, steps, s') && |steps| <= 13 && Started(View(s', k), g)
  {
    var a, m := LaneClears(s, k, g);
    var b;
    b, s' := StartsAfterPublication(m, k, g);
    steps := a + b;
    LeadsOn(Next(false), s, a, m, b, s');
  }

  lemma CarriedThrough(s: System, k: Key, g: nat) returns (steps: seq<Step>, s': System)
    requires UnderWay(s, k, g)
    ensures Leads(Next(false), s, steps, s') && |steps| <= 16 && Started(View(s', k), g)
  {
    var a, m := PreparesSoon(s, k, g);
    var b;
    b, s' := PublishedAndStarted(m, k, g);
    steps := a + b;
    LeadsOn(Next(false), s, a, m, b, s');
  }

  // ------------------------------------------------------------------------ theorems

  /** Some continuation of at most `n` steps starts candidate `g`. */
  ghost predicate CanStartWithin(s: System, k: Key, g: nat, n: nat) {
    exists more: seq<Step>, s': System ::
      Leads(Next(false), s, more, s') && |more| <= n && Started(View(s', k), g)
  }

  lemma RunServes(first: nat, states: seq<System>, steps: seq<Step>, i: nat, k: Key)
    requires IsRun(first, states, steps) && i <= |steps| && states[i].coord.accepting
    ensures Serving(states[i], k)
  {
    RunKeepsInv(first, states, steps, i);
    AcceptingIsOpen(states[i]);
    MailboxesServedWhileOpen(first, states, steps, i, k);
    ItemsAreShort(first, states, steps, i);
  }

  lemma UnderWayStarts(s: System, k: Key, g: nat)
    requires UnderWay(s, k, g)
    ensures CanStartWithin(s, k, g, 16)
  {
    var more, s' := CarriedThrough(s, k, g);
  }

  /**
    From every reachable state of an open graph, a caller anywhere in prepare
    whose generation is newer than all accepted ones of its key can be started
    within sixteen steps.
   */
  lemma CallerCanStart(first: nat, states: seq<System>, steps: seq<Step>, i: nat, k: Key, g: nat)
    requires IsRun(first, states, steps) && i <= |steps| && states[i].coord.accepting
    requires g in View(states[i], k).preps && NewestOf(View(states[i], k), g)
    ensures CanStartWithin(states[i], k, g, 16)
  {
    RunServes(first, states, steps, i, k);
    UnderWayStarts(states[i], k, g);
  }

  lemma NewCallerIsNewest(s: System, k: Key)
    requires Serving(s, k) && s.coord.allocator.Peek().Some?
    ensures NewestOf(View(s, k), s.coord.allocator.next)
  {
    assert CellInv(View(s, k), s.laneOpen);
    var p := View(s, k).log.published;
    forall x | x in p ensures x < s.coord.allocator.next {
      var j :| 0 <= j < |p| && p[j] == x;
      assert p[j] in View(s, k).log.ran;
      assert k in s.sides && x in s.sides[k].log.issued;
      assert s.coord.allocator.Issued(x);
    }
  }

  lemma EnterCellIs(v: Cell, g: nat)
    requires EnterRow(v.row).Some?
    ensures g in EnterCell(v, g).preps && EnterCell(v, g).log.published == v.log.published
  {
  }

  lemma EnterTakes(s: System, k: Key) returns (s': System)
    requires Serving(s, k) && s.coord.allocator.Peek().Some?
    ensures Takes(s, EnterPrepare(k), s') && UnderWay(s', k, s.coord.allocator.next)
  {
    var g := s.coord.allocator.next;
    AdoptersNeverExhausted(s, k);
    NewCallerIsNewest(s, k);
    EnterCellIs(View(s, k), g);
    s' := Apply(s, EnterPrepare(k));
    StepIsLocal(s, EnterPrepare(k), k);
    StaysServing(s, EnterPrepare(k), k);
  }

  lemma FromOneStepOn(s: System, step: Step, m: System, k: Key, g: nat, n: nat)
    requires Takes(s, step, m) && CanStartWithin(m, k, g, n)
    ensures CanStartWithin(s, k, g, n + 1)
  {
    var b: seq<Step>, s': System :|
      Leads(Next(false), m, b, s') && |b| <= n && Started(View(s', k), g);
    One(s, step, m);
    LeadsOn(Next(false), s, [step], m, b, s');
    assert |[step] + b| <= n + 1;
  }

  lemma EnterAndStart(s: System, k: Key)
    requires Serving(s, k) && s.coord.allocator.Peek().Some?
    ensures CanStartWithin(s, k, s.coord.allocator.next, 17)
  {
    var m := EnterTakes(s, k);
    UnderWayStarts(m, k, s.coord.allocator.next);
    FromOneStepOn(s, EnterPrepare(k), m, k, s.coord.allocator.next, 16);
  }

  /** And so can a request that nobody has made yet, under the generation that it will be given. */
  lemma NewRequestCanStart(first: nat, states: seq<System>, steps: seq<Step>, i: nat, k: Key)
    requires IsRun(first, states, steps) && i <= |steps| && states[i].coord.accepting
    requires states[i].coord.allocator.Peek().Some?
    ensures CanStartWithin(states[i], k, states[i].coord.allocator.next, 17)
  {
    RunServes(first, states, steps, i, k);
    EnterAndStart(states[i], k);
  }
}
