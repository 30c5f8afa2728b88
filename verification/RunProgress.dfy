/**
  What the Run protocol does, beside what it never does: contenders of an open
  Run win, commits are claimed, registrations are installed or called, a
  cancellation's walk over the slots and a request's fan-out can always be
  finished.
 */
module RunProgress {
  import opened Options
  import opened Paths
  import opened RunControl
  import opened RunProtocol
  import opened RunInvariant
  import opened RunTheorems

  // -------------------------------------------------------------------- contenders

  /** The first terminal publication on an open Run gives it its outcome; a cancellation starts dispatching. */
  lemma OpenRunTakesOutcome(states: seq<Sys>, steps: seq<Step>, i: nat, r: nat, o: Outcome)
    requires IsRun(states, steps) && i < |steps| && steps[i] == Local(r, PublishStep(o))
    requires r in states[i].runs && states[i].runs[r].ctl.arbiter == Open
    ensures r in states[i + 1].runs
    ensures var x := states[i + 1].runs[r];
            && x.ctl.arbiter == Closed && x.ctl.outcome == Some(o) && x.wins == [o]
            && x.dispatch == if o.Cancelled? then Scanning(0, None) else Idle
  {
    RunKeepsInv(states, steps, i);
    assert Takes(states[i], steps[i], states[i + 1]) && RunInv(states[i].runs[r]);
    StepTouchesOneRun(states[i], steps[i], states[i + 1], r);
    ArbiterMeaning(states[i].runs[r].ctl, o, false);
  }

  /**
    A claim on an open Run in CommitPending is granted before the deadline and
    hands out its contender; after the deadline it cancels the Run.
   */
  lemma ClaimIsGranted(states: seq<Sys>, steps: seq<Step>, i: nat, r: nat, v: nat, late: bool)
    requires IsRun(states, steps) && i < |steps| && steps[i] == ClaimCommit(r, v, late)
    requires r in states[i].runs && states[i].runs[r].ctl.arbiter == Open
    ensures r in states[i + 1].runs
    ensures !late && states[i].runs[r].ctl.phase == CommitPending ==>
              states[i + 1].runs[r].ctl.arbiter == CommitClaimed
              && v in states[i + 1].holders && states[i + 1].holders[v] == r
    ensures late ==> states[i + 1].runs[r].ctl.outcome == Some(Cancelled(DeadlineExceeded))
                     && states[i + 1].runs[r].dispatch == Scanning(0, None)
  {
    assert Takes(states[i], steps[i], states[i + 1]);
    ArbiterMeaning(states[i].runs[r].ctl, Succeeded, late);
  }

  /** An open Run moves to every later phase it is told to. */
  lemma OpenRunAdvances(states: seq<Sys>, steps: seq<Step>, i: nat, r: nat, next: RunPhase)
    requires IsRun(states, steps) && i < |steps| && steps[i] == Local(r, AdvanceStep(next))
    requires r in states[i].runs && states[i].runs[r].ctl.arbiter == Open
    requires next != Terminal && Rank(states[i].runs[r].ctl.phase) < Rank(next)
    ensures r in states[i + 1].runs && states[i + 1].runs[r].ctl.phase == next
  {
    assert Takes(states[i], steps[i], states[i + 1]);
    StepTouchesOneRun(states[i], steps[i], states[i + 1], r);
    AdvanceMeaning(states[i].runs[r].ctl, next);
  }

  // ----------------------------------------------------------------- registrations

  /** A registration on an open Run is installed; on a cancelled one its call is the registering thread's next step. */
  lemma RegistrationTakes(states: seq<Sys>, steps: seq<Step>, i: nat, r: nat, id: nat)
    requires IsRun(states, steps) && i < |steps| && steps[i] == Local(r, RegisterStep(id))
    requires r in states[i].runs
    ensures r in states[i + 1].runs
    ensures states[i].runs[r].ctl.arbiter == Open ==>
              id in Installed(states[i + 1].runs[r]) && id in states[i + 1].runs[r].slots
    ensures IsCancelled(states[i].runs[r].ctl) ==>
              id in states[i + 1].runs[r].late && Enabled(states[i + 1], Local(r, LateInvokeStep(id)))
  {
    RunKeepsInv(states, steps, i);
    RegistrationStep(states[i], states[i + 1], r, id);
  }

  lemma RegistrationStep(s: Sys, s': Sys, r: nat, id: nat)
    requires Inv(s) && r in s.runs && Takes(s, Local(r, RegisterStep(id)), s')
    ensures r in s'.runs
    ensures s.runs[r].ctl.arbiter == Open ==> id in Installed(s'.runs[r]) && id in s'.runs[r].slots
    ensures IsCancelled(s.runs[r].ctl) ==> id in s'.runs[r].late && Enabled(s', Local(r, LateInvokeStep(id)))
  {
    assert RunInv(s.runs[r]);
    StepTouchesOneRun(s, Local(r, RegisterStep(id)), s', r);
    RegisteredRun(s.runs[r], id);
  }

  lemma RegisteredRun(x: Run, id: nat)
    requires RunInv(x) && id !in x.regs
    ensures var y := RegisterRun(x, id);
            && (x.ctl.arbiter == Open ==> id in Installed(y) && id in y.slots)
            && (IsCancelled(x.ctl) ==> id in y.late && RunEnabled(y, LateInvokeStep(id)))
  {
    if x.ctl.arbiter == Open {
      StoreSlotKeeps(x.slots, Installed(x), id);
    }
  }

  /** A registration that its owner deactivates is never called afterwards, and one that it drops frees its slot. */
  lemma ReleasedIsSilent(states: seq<Sys>, steps: seq<Step>, i: nat, j: nat, r: nat, id: nat)
    requires IsRun(states, steps) && i < j <= |steps|
    requires steps[i] == Local(r, DeactivateStep(id)) || steps[i] == Local(r, DropStep(id))
    ensures r in states[i].runs && id in states[i].runs[r].regs
    ensures r in states[j].runs && id in states[j].runs[r].regs && !states[j].runs[r].regs[id].active
    ensures states[j].runs[r].regs[id].calls == states[i].runs[r].regs[id].calls
    ensures steps[i].step.DropStep? ==> r in states[i + 1].runs && id !in Installed(states[i + 1].runs[r])
  {
    assert Takes(states[i], steps[i], states[i + 1]);
    StepTouchesOneRun(states[i], steps[i], states[i + 1], r);
    OutcomeIsFinal(states, steps, i + 1, j, r);
  }

  /** The Run has won its cancellation and its walk over the slots is under way. */
  ghost predicate Walks(s: Sys, r: nat) {
    Inv(s) && Alive(s, r) && s.runs[r].dispatch.Scanning?
  }

  /** How many steps the walk may still take. */
  function WalkLeft(x: Run): (n: nat) {
    if x.dispatch.Scanning? && x.dispatch.index <= |x.slots|
    then 2 * (|x.slots| - x.dispatch.index) + 1 + (if x.dispatch.grabbed.Some? then 1 else 0)
    else 0
  }

  lemma WalkStep(s: Sys, r: nat) returns (step: Step, s': Sys)
    requires Walks(s, r)
    ensures Takes(s, step, s') && Inv(s') && Alive(s', r)
    ensures s'.runs[r].dispatch.Finished? || (Walks(s', r) && WalkLeft(s'.runs[r]) < WalkLeft(s.runs[r]))
  {
    var x := s.runs[r];
    assert RunInv(x);
    step := Local(r, if x.dispatch.grabbed.Some? then InvokeStep else GrabStep);
    assert x.dispatch.grabbed.Some? ==> x.dispatch.grabbed.value in x.slots;
    assert r !in s.request.holding;
    s' := Apply(s, step);
    StepKeepsInv(s, step);
    WalkAdvances(x);
  }

  lemma WalkAdvances(x: Run)
    requires RunInv(x) && x.dispatch.Scanning?
    ensures var step := if x.dispatch.grabbed.Some? then InvokeStep else GrabStep;
            && RunEnabled(x, step)
            && (RunApply(x, step).dispatch.Finished?
                || (RunApply(x, step).dispatch.Scanning? && WalkLeft(RunApply(x, step)) < WalkLeft(x)))
  {
    assert x.dispatch.grabbed.Some? ==> x.dispatch.grabbed.value in x.slots;
  }

  /** The walk of a won cancellation can be finished whatever else has happened. */
  lemma {:induction false} WalkCanFinish(s: Sys, r: nat) returns (steps: seq<Step>, s': Sys)
    requires Walks(s, r)
    ensures Leads(Takes, s, steps, s') && r in s'.runs && s'.runs[r].dispatch.Finished?
    ensures |steps| <= WalkLeft(s.runs[r]) + 1
    decreases WalkLeft(s.runs[r])
  {
    var step, m := WalkStep(s, r);
    if m.runs[r].dispatch.Finished? {
      steps, s' := [step], m;
      LeadsByOne(Takes, s, step, m);
    } else {
      var rest;
      rest, s' := WalkCanFinish(m, r);
      steps := [step] + rest;
      LeadsByOne(Takes, s, step, m);
      LeadsOn(Takes, s, [step], m, rest, s');
    }
  }

  /** Some continuation finishes the walk. */
  ghost predicate WalkEnds(s: Sys, r: nat) {
    exists more: seq<Step>, s': Sys ::
      Leads(Takes, s, more, s') && r in s'.runs && s'.runs[r].dispatch.Finished?
  }

  lemma WalkEndsBy(s: Sys, r: nat, more: seq<Step>, s': Sys)
    requires Leads(Takes, s, more, s') && r in s'.runs && s'.runs[r].dispatch.Finished?
    ensures WalkEnds(s, r)
  {
  }

  lemma WalkingEnds(s: Sys, r: nat)
    requires Walks(s, r)
    ensures WalkEnds(s, r)
  {
    var more, s' := WalkCanFinish(s, r);
    WalkEndsBy(s, r, more, s');
  }

  lemma CancelledWalks(s: Sys, r: nat)
    requires Inv(s) && Alive(s, r) && IsCancelled(s.runs[r].ctl)
    ensures s.runs[r].dispatch.Finished? || Walks(s, r)
  {
    assert RunInv(s.runs[r]);
  }

  /** In every reachable state of a live cancelled Run the walk is finished or can be. */
  lemma DispatchCanFinish(states: seq<Sys>, steps: seq<Step>, i: nat, r: nat)
    requires IsRun(states, steps) && i <= |steps| && Alive(states[i], r) && IsCancelled(states[i].runs[r].ctl)
    ensures states[i].runs[r].dispatch.Finished? || WalkEnds(states[i], r)
  {
    RunKeepsInv(states, steps, i);
    CancelledWalks(states[i], r);
    if !states[i].runs[r].dispatch.Finished? {
      WalkingEnds(states[i], r);
    }
  }

  // ----------------------------------------------------------------------- fan-out

  /** Attaching makes the Run a child; the first request is accepted and will visit every child. */
  lemma RequestTakes(states: seq<Sys>, steps: seq<Step>, i: nat, c: nat)
    requires IsRun(states, steps) && i < |steps|
    ensures steps[i] == Attach(c) ==> c in states[i + 1].request.ids
    ensures steps[i].Accept? && states[i].request.accepted.None? ==>
              states[i + 1].request.accepted == Some(steps[i].reason)
              && (c in states[i].request.ids ==> c in states[i + 1].request.queue)
  {
    RunKeepsInv(states, steps, i);
    assert Takes(states[i], steps[i], states[i + 1]);
  }

  function VisitsLeft(q: Request): (n: nat) { 2 * |q.queue| + 2 * |q.attaching| + |q.holding| }

  /** A child is waiting to be visited at most in one way. */
  lemma VisitedShrinks(q: Request, r: nat)
    requires r in q.attaching || (q.queue != [] && q.queue[0] == r)
    ensures var p := Visited(q, r);
            2 * |p.queue| + 2 * |p.attaching| + 2 <= 2 * |q.queue| + 2 * |q.attaching|
  {
    if r !in q.attaching {
      assert q.attaching - {r} == q.attaching;
    }
  }

  lemma OfferShrinks(s: Sys, r: nat)
    requires s.request.holding == {}
    requires r in s.request.attaching || (s.request.queue != [] && s.request.queue[0] == r)
    ensures VisitsLeft(OfferStep(s, r).request) < VisitsLeft(s.request)
    ensures OfferStep(s, r).request.accepted == s.request.accepted
  {
    VisitedShrinks(s.request, r);
    assert |{r}| == 1 && {} + {r} == {r};
  }

  lemma SettleStep(s: Sys, c: nat) returns (s': Sys)
    requires Inv(s) && s.request.accepted.Some? && c in s.request.holding
    ensures Takes(s, Step.Settle(c), s') && Inv(s') && s'.request.accepted == s.request.accepted
    ensures VisitsLeft(s'.request) < VisitsLeft(s.request)
  {
    HeldIsOpen(s, c);
    s' := Apply(s, Step.Settle(c));
    StepKeepsInv(s, Step.Settle(c));
  }

  lemma HeldIsOpen(s: Sys, c: nat)
    requires Inv(s) && c in s.request.holding
    ensures c in s.runs
  {
    assert IsOpen(s.runs, c);
  }

  lemma OfferApplies(s: Sys, c: nat)
    requires Inv(s) && s.request.accepted.Some? && s.request.holding == {}
    requires c in s.request.attaching || (s.request.queue != [] && s.request.queue[0] == c)
    ensures Takes(s, Offer(c), OfferStep(s, c)) && Inv(OfferStep(s, c))
  {
    OfferEnabled(s, c);
    StepKeepsInv(s, Offer(c));
  }

  lemma OfferEnabled(s: Sys, c: nat)
    requires s.request.accepted.Some? && s.request.holding == {}
    requires c in s.request.attaching || (s.request.queue != [] && s.request.queue[0] == c)
    ensures Enabled(s, Offer(c))
  {
  }

  lemma OfferNext(s: Sys, c: nat) returns (s': Sys)
    requires Inv(s) && s.request.accepted.Some? && s.request.holding == {}
    requires c in s.request.attaching || (s.request.queue != [] && s.request.queue[0] == c)
    ensures Takes(s, Offer(c), s') && Inv(s') && s'.request.accepted == s.request.accepted
    ensures VisitsLeft(s'.request) < VisitsLeft(s.request)
  {
    s' := OfferStep(s, c);
    OfferShrinks(s, c);
    OfferApplies(s, c);
  }

  lemma DeliveryStep(s: Sys) returns (step: Step, s': Sys)
    requires Inv(s) && s.request.accepted.Some? && !Delivered(s.request)
    ensures Takes(s, step, s') && Inv(s') && s'.request.accepted == s.request.accepted
    ensures VisitsLeft(s'.request) < VisitsLeft(s.request)
  {
    if s.request.holding != {} {
      var c :| c in s.request.holding;
      step := Step.Settle(c);
      s' := SettleStep(s, c);
    } else {
      var c := NextVisit(s.request);
      step := Offer(c);
      s' := OfferNext(s, c);
    }
  }

  lemma NextVisit(q: Request) returns (c: nat)
    requires q.accepted.Some? && !Delivered(q) && q.holding == {}
    ensures c in q.attaching || (q.queue != [] && q.queue[0] == c)
  {
    if q.queue != [] {
      c := q.queue[0];
    } else {
      c :| c in q.attaching;
    }
  }

  lemma {:induction false} DeliveryContinues(s: Sys) returns (steps: seq<Step>, s': Sys)
    requires Inv(s) && s.request.accepted.Some?
    ensures Leads(Takes, s, steps, s') && Delivered(s'.request) && |steps| <= VisitsLeft(s.request)
    decreases VisitsLeft(s.request)
  {
    if Delivered(s.request) {
      steps, s' := [], s;
      LeadsNowhere(Takes, s);
    } else {
      var step, m := DeliveryStep(s);
      var rest;
      rest, s' := DeliveryContinues(m);
      steps := [step] + rest;
      LeadsByOne(Takes, s, step, m);
      LeadsOn(Takes, s, [step], m, rest, s');
    }
  }

  /** Some continuation of at most `n` steps visits every child and settles those it won. */
  ghost predicate DeliveryEnds(s: Sys, n: nat) {
    exists more: seq<Step>, s': Sys :: Leads(Takes, s, more, s') && Delivered(s'.request) && |more| <= n
  }

  lemma DeliveryEndsSoon(s: Sys)
    requires Inv(s) && s.request.accepted.Some?
    ensures DeliveryEnds(s, VisitsLeft(s.request))
  {
    var more, s' := DeliveryContinues(s);
  }

  /** In every reachable state an accepted request's delivery can be finished. */
  lemma DeliveryCanFinish(states: seq<Sys>, steps: seq<Step>, i: nat)
    requires IsRun(states, steps) && i <= |steps| && states[i].request.accepted.Some?
    ensures DeliveryEnds(states[i], VisitsLeft(states[i].request))
  {
    RunKeepsInv(states, steps, i);
    DeliveryEndsSoon(states[i]);
  }
}
