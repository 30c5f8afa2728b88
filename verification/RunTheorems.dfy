/**
  What the Run protocol promises over whole runs: exact-once arbitration, one
  resolution per claimed commit, complete fan-out of a request's cancellation,
  and exactly one notification per live registration.
 */
module RunTheorems {
  import opened Counting
  import opened Options
  import opened RunControl
  import opened RunProtocol
  import opened RunInvariant

  ghost predicate Takes(s: Sys, step: Step, s': Sys) {
    Enabled(s, step) && s' == Apply(s, step)
  }

  /** A finite run from the state without Runs. */
  ghost predicate IsRun(states: seq<Sys>, steps: seq<Step>) {
    && |states| == |steps| + 1
    && states[0] == INIT
    && (forall i: nat | i < |steps| :: Takes(states[i], steps[i], states[i + 1]))
  }

  lemma {:induction false} RunKeepsInv(states: seq<Sys>, steps: seq<Step>, i: nat)
    requires IsRun(states, steps) && i <= |steps|
    ensures Inv(states[i])
  {
    if i > 0 {
      RunKeepsInv(states, steps, i - 1);
      assert Takes(states[i - 1], steps[i - 1], states[i]);
      StepKeepsInv(states[i - 1], steps[i - 1]);
    }
  }

  // ------------------------------------------------------------------ two states

  /** Callbacks are only added, and never to a registration that has been released. */
  predicate RegsEvolve(m: map<nat, Slot>, m': map<nat, Slot>) {
    forall id | id in m ::
      id in m' && m[id].calls <= m'[id].calls
      && (!m[id].active ==> !m'[id].active && m'[id].calls == m[id].calls)
  }

  predicate RunEvolves(r: Run, r': Run) {
    Evolves(r.ctl, r'.ctl) && RegsEvolve(r.regs, r'.regs)
  }

  lemma RunEvolvesTransitively(a: Run, b: Run, c: Run)
    requires RunEvolves(a, b) && RunEvolves(b, c)
    ensures RunEvolves(a, c)
  {
    EvolvesTransitively(a.ctl, b.ctl, c.ctl);
    forall id | id in a.regs
      ensures id in c.regs && a.regs[id].calls <= c.regs[id].calls
              && (!a.regs[id].active ==> !c.regs[id].active && c.regs[id].calls == a.regs[id].calls)
    {
      assert id in b.regs;
    }
  }

  lemma LocalRunEvolves(r: Run, step: RunStep)
    requires RunInv(r) && RunEnabled(r, step)
    ensures RunEvolves(r, RunApply(r, step))
  {
    LocalEvolves(r, step);
  }

  lemma ResolveEvolves(r: Run, o: Outcome)
    requires RunInv(r) && !o.Cancelled?
    ensures RunEvolves(r, ResolveRun(r, o))
  {
  }

  lemma ClaimRunEvolves(r: Run, late: bool)
    requires RunInv(r)
    ensures RunEvolves(r, ClaimRun(r, late))
  {
    ClaimEvolves(r, late);
  }

  /** What a step makes of Run `r`. */
  function RunAfter(s: Sys, step: Step, r: nat): (x: Run)
    requires Enabled(s, step) && r in s.runs
  {
    var x := s.runs[r];
    match step
    case Local(q, a) => if q == r then RunApply(x, a) else x
    case ClaimCommit(q, _, late) => if q == r then ClaimRun(x, late) else x
    case Finish(v, o) => if v in s.holders && s.holders[v] == r then ResolveRun(x, o) else x
    case Drop(v, f) => if v in s.holders && s.holders[v] == r then ResolveRun(x, Failed(f)) else x
    case Move(a, v, f) => if a != v && v in s.holders && s.holders[v] == r then ResolveRun(x, Failed(f)) else x
    case Settle(q) => if q == r then PublishRun(x, Cancelled(s.request.accepted.value)) else x
    case _ => x
  }

  /** A step changes the Run it is about and no other. */
  lemma StepTouchesOneRun(s: Sys, step: Step, s': Sys, r: nat)
    requires Takes(s, step, s') && r in s.runs
    ensures r in s'.runs && s'.runs[r] == RunAfter(s, step, r)
  {
  }

  lemma RunAfterEvolves(s: Sys, step: Step, r: nat)
    requires Enabled(s, step) && r in s.runs && RunInv(s.runs[r])
    ensures RunEvolves(s.runs[r], RunAfter(s, step, r))
  {
    match step
    case Local(_, a) => if step.run == r { LocalRunEvolves(s.runs[r], a); }
    case ClaimCommit(_, _, late) => ClaimRunEvolves(s.runs[r], late);
    case Finish(_, o) => ResolveEvolves(s.runs[r], o);
    case Drop(_, f) => ResolveEvolves(s.runs[r], Failed(f));
    case Move(_, _, f) => ResolveEvolves(s.runs[r], Failed(f));
    case Settle(_) => LocalRunEvolves(s.runs[r], PublishStep(Cancelled(s.request.accepted.value)));
    case _ =>
  }

  lemma StepEvolves(s: Sys, step: Step, s': Sys, r: nat)
    requires Inv(s) && Takes(s, step, s') && r in s.runs
    ensures r in s'.runs && RunEvolves(s.runs[r], s'.runs[r])
  {
    StepTouchesOneRun(s, step, s', r);
    RunAfterEvolves(s, step, r);
  }

  lemma EvolvesOneMore(states: seq<Sys>, steps: seq<Step>, x: Run, j: nat, r: nat)
    requires IsRun(states, steps) && j < |steps| && r in states[j].runs && RunEvolves(x, states[j].runs[r])
    ensures r in states[j + 1].runs && RunEvolves(x, states[j + 1].runs[r])
  {
    RunKeepsInv(states, steps, j);
    assert Takes(states[j], steps[j], states[j + 1]);
    StepEvolves(states[j], steps[j], states[j + 1], r);
    RunEvolvesTransitively(x, states[j].runs[r], states[j + 1].runs[r]);
  }

  /**
    Over any part of any run: the outcome of a Run never changes, its phase never
    goes back, its arbiter never reopens, a claimed commit ends only in success
    or failure, and a released registration is never called again.
   */
  lemma {:induction false} OutcomeIsFinal(states: seq<Sys>, steps: seq<Step>, i: nat, j: nat, r: nat)
    requires IsRun(states, steps) && i <= j <= |steps| && r in states[i].runs
    ensures r in states[j].runs && RunEvolves(states[i].runs[r], states[j].runs[r])
    decreases j
  {
    if i < j {
      OutcomeIsFinal(states, steps, i, j - 1, r);
      EvolvesOneMore(states, steps, states[i].runs[r], j - 1, r);
    }
  }

  // ---------------------------------------------------------- exact-once arbitration

  /** At most one contender ever wins, and the outcome is the winner's exactly while closed. */
  lemma ExactlyOneWinner(states: seq<Sys>, steps: seq<Step>, i: nat, r: nat)
    requires IsRun(states, steps) && i <= |steps| && r in states[i].runs
    ensures var x := states[i].runs[r];
            && |x.wins| == (if x.ctl.arbiter.Closed? then 1 else 0)
            && x.ctl.outcome == (if x.ctl.arbiter.Closed? then Some(x.wins[0]) else None)
            && (x.ctl.arbiter.CommitClaimed? ==> x.ctl.phase.CommitPending?)
  {
    RunKeepsInv(states, steps, i);
    assert RunInv(states[i].runs[r]);
  }

  /** A commit contender holds a Run exactly while its arbiter is CommitClaimed, and no two do. */
  lemma ContenderIffClaimed(states: seq<Sys>, steps: seq<Step>, i: nat, r: nat, v: nat, w: nat)
    requires IsRun(states, steps) && i <= |steps|
    ensures var s := states[i];
            && (IsClaimed(s.runs, r) <==> Held(s.holders, r))
            && (v in s.holders && w in s.holders && s.holders[v] == s.holders[w] ==> v == w)
  {
    RunKeepsInv(states, steps, i);
  }

  /** One resolution: the contender's Run is settled, so `abandon` does not reach its terminate branch. */
  lemma ContenderResolvesItsClaim(s: Sys, v: nat, o: Outcome)
    requires HolderInv(s.runs, s.gone, s.holders) && v in s.holders && !o.Cancelled?
    ensures IsClaimed(s.runs, s.holders[v])
    ensures var s' := ResolveHolder(s, v, o);
            && s'.runs == s.runs[s.holders[v] := s'.runs[s.holders[v]]]
            && s'.runs[s.holders[v]].ctl == RunControl.Settle(s.runs[s.holders[v]].ctl, o)
            && !Held(s'.holders, s.holders[v])
            && s'.holders == s.holders - {v}
  {
    assert IsClaimed(s.runs, s.holders[v]);
  }

  /** One move into a contender that holds nothing. */
  lemma MovingKeepsClaims(s: Sys, a: nat, b: nat, f: nat)
    requires Enabled(s, Move(a, b, f)) && a in s.holders && (b in s.holders ==> a == b)
    ensures var s' := Apply(s, Move(a, b, f));
            s'.runs == s.runs && b in s'.holders && s'.holders[b] == s.holders[a] && (a != b ==> a !in s'.holders)
  {
  }

  /** The step publishes through, drops or assigns over a contender that holds Run `r`. */
  predicate Resolves(s: Sys, step: Step, r: nat) {
    match step
    case Finish(v, _) => v in s.holders && s.holders[v] == r
    case Drop(v, _) => v in s.holders && s.holders[v] == r
    case Move(a, v, _) => a != v && v in s.holders && s.holders[v] == r
    case _ => false
  }

  /** The outcome such a step gives. */
  function Resolution(step: Step): (o: Outcome)
    requires step.Finish? || step.Drop? || step.Move?
  {
    if step.Finish? then step.outcome else Failed(step.failure)
  }

  lemma StepResolves(s: Sys, step: Step, r: nat)
    requires Enabled(s, step) && IsClaimed(s.runs, r) && RunInv(s.runs[r])
    ensures if Resolves(s, step, r)
            then RunAfter(s, step, r).ctl == RunControl.Settle(s.runs[r].ctl, Resolution(step))
                 && RunAfter(s, step, r).wins == [Resolution(step)]
            else RunAfter(s, step, r).ctl == s.runs[r].ctl
  {
  }

  /**
    A claimed commit stays claimed until a step publishes through, drops or
    assigns over its contender; moves hand the claim on and resolve nothing.
   */
  lemma ClaimedUntilResolved(states: seq<Sys>, steps: seq<Step>, i: nat, r: nat)
    requires IsRun(states, steps) && i < |steps| && IsClaimed(states[i].runs, r)
    ensures IsClaimed(states[i + 1].runs, r) <==> !Resolves(states[i], steps[i], r)
  {
    RunKeepsInv(states, steps, i);
    assert Takes(states[i], steps[i], states[i + 1]);
    StepTouchesOneRun(states[i], steps[i], states[i + 1], r);
    StepResolves(states[i], steps[i], r);
  }

  /** From then on the Run's outcome is the one its contender gave, for ever and as its only win. */
  lemma ClaimEndsWithItsContender(states: seq<Sys>, steps: seq<Step>, i: nat, j: nat, r: nat)
    requires IsRun(states, steps) && i < j <= |steps|
    requires IsClaimed(states[i].runs, r) && Resolves(states[i], steps[i], r)
    ensures r in states[j].runs && states[j].runs[r].ctl.outcome == Some(Resolution(steps[i]))
    ensures states[j].runs[r].wins == [Resolution(steps[i])]
  {
    RunKeepsInv(states, steps, i);
    assert Takes(states[i], steps[i], states[i + 1]);
    StepTouchesOneRun(states[i], steps[i], states[i + 1], r);
    StepResolves(states[i], steps[i], r);
    OutcomeIsFinal(states, steps, i + 1, j, r);
    ExactlyOneWinner(states, steps, j, r);
  }

  // ---------------------------------------------------------------------- fan-out

  lemma StepKeepsReason(s: Sys, step: Step, s': Sys)
    requires Takes(s, step, s') && s.request.accepted.Some?
    ensures s'.request.accepted == s.request.accepted
  {
  }

  /** The first accepted reason sticks. */
  lemma {:induction false} FirstReasonSticks(states: seq<Sys>, steps: seq<Step>, i: nat, j: nat)
    requires IsRun(states, steps) && i <= j <= |steps| && states[i].request.accepted.Some?
    ensures states[j].request.accepted == states[i].request.accepted
    decreases j
  {
    if i < j {
      FirstReasonSticks(states, steps, i, j - 1);
      assert Takes(states[j - 1], steps[j - 1], states[j]);
      StepKeepsReason(states[j - 1], steps[j - 1], states[j]);
    }
  }

  /** No thread has a child left to visit or a visit to finish. */
  predicate Delivered(q: Request) {
    q.accepted.Some? && q.queue == [] && q.attaching == {} && q.holding == {}
  }

  /**
    In every reachable state a child is visited at most once and only if attached;
    the latch is set whenever a child cancelled by the request is visible; once
    delivery has finished, every attached child was visited exactly once, none
    that is alive is Open, and the latch is set exactly when the request's reason
    is the outcome it gave to some child.
   */
  lemma FanOutIsComplete(states: seq<Sys>, steps: seq<Step>, i: nat, c: nat)
    requires IsRun(states, steps) && i <= |steps|
    ensures var s := states[i]; var q := s.request;
            && q.offered[c] <= B(c in q.ids)
            && (c in q.winners ==>
                  q.won && c in s.runs && q.accepted.Some?
                  && s.runs[c].ctl.outcome == Some(Cancelled(q.accepted.value)))
            && (Delivered(q) ==>
                  && (c in q.ids ==> q.offered[c] == 1 && c in s.runs)
                  && (c in q.ids && Alive(s, c) ==> !s.runs[c].ctl.arbiter.Open?)
                  && (q.won <==> exists d :: d in q.winners))
  {
    RunKeepsInv(states, steps, i);
    var q := states[i].request;
    if q.accepted.Some? {
      assert q.offered[c] + B(c in q.queue) + B(c in q.attaching) == B(c in q.ids);
    }
    if Delivered(q) && q.won {
      assert q.holding + q.winners == q.winners;
      var d :| d in q.winners;
    }
  }

  /** A child that the request cancels was open until then: no other contender won it. */
  lemma WinnersWereOpen(states: seq<Sys>, steps: seq<Step>, i: nat, c: nat)
    requires IsRun(states, steps) && i < |steps| && steps[i] == Step.Settle(c)
    ensures c in states[i].runs && states[i].runs[c].ctl.arbiter.Open? && states[i].request.won
    ensures c in states[i + 1].request.winners
    ensures states[i + 1].runs[c].ctl.outcome == Some(Cancelled(states[i].request.accepted.value))
  {
    RunKeepsInv(states, steps, i);
    assert Takes(states[i], steps[i], states[i + 1]);
    assert IsOpen(states[i].runs, c);
    assert c in states[i].request.holding + states[i].request.winners;
  }

  // ----------------------------------------------------------------- notifications

  /**
    No callback runs unless the Run was cancelled, none runs twice, each carries
    the winning reason, and once the walk has finished every registration that
    is still alive has been called.
   */
  lemma NotifiedExactlyOnce(states: seq<Sys>, steps: seq<Step>, i: nat, r: nat, id: nat)
    requires IsRun(states, steps) && i <= |steps| && r in states[i].runs && id in states[i].runs[r].regs
    ensures var x := states[i].runs[r];
            && (x.regs[id].calls != [] ==> x.ctl.outcome == Some(Cancelled(x.regs[id].calls[0]))
                                           && |x.regs[id].calls| == 1)
            && (x.dispatch.Finished? && x.regs[id].active && id !in x.late ==>
                  IsCancelled(x.ctl) && x.regs[id].calls == [x.ctl.outcome.value.reason])
  {
    RunKeepsInv(states, steps, i);
    var x := states[i].runs[r];
    assert RunInv(x);
    if x.dispatch.Finished? && x.regs[id].active && id !in x.late {
      assert id in Installed(x);
      var p :| 0 <= p < |x.slots| && x.slots[p] == id;
      assert Reached(x.dispatch, p);
    }
  }

  lemma InvokedNow(x: Run, id: nat)
    requires RunInv(x) && RunEnabled(x, InvokeStep) && x.dispatch.grabbed == Some(id) && x.regs[id].active
    ensures RunApply(x, InvokeStep).regs[id].calls == [x.ctl.outcome.value.reason]
  {
    assert !Reached(x.dispatch, x.dispatch.index - 1);
  }

  lemma LateInvokedNow(x: Run, id: nat)
    requires RunInv(x) && RunEnabled(x, LateInvokeStep(id))
    ensures RunApply(x, LateInvokeStep(id)).regs[id].calls == [x.ctl.outcome.value.reason]
  {
  }

  /**
    A registration alive when the walk reaches it, and one made after the
    cancellation, has been called exactly once from then on.
   */
  lemma ReachedIsCalledOnce(states: seq<Sys>, steps: seq<Step>, i: nat, j: nat, r: nat, id: nat)
    requires IsRun(states, steps) && i < j <= |steps|
    requires
      || steps[i] == Local(r, LateInvokeStep(id))
      || (steps[i] == Local(r, InvokeStep) && r in states[i].runs && id in states[i].runs[r].regs
          && states[i].runs[r].dispatch.Scanning? && states[i].runs[r].dispatch.grabbed == Some(id)
          && states[i].runs[r].regs[id].active)
    ensures r in states[j].runs && id in states[j].runs[r].regs
    ensures var x := states[j].runs[r];
            IsCancelled(x.ctl) && x.regs[id].calls == [x.ctl.outcome.value.reason]
  {
    assert Takes(states[i], steps[i], states[i + 1]);
    RunKeepsInv(states, steps, i);
    assert RunInv(states[i].runs[r]);
    if steps[i].step.InvokeStep? {
      InvokedNow(states[i].runs[r], id);
    } else {
      LateInvokedNow(states[i].runs[r], id);
    }
    OutcomeIsFinal(states, steps, i + 1, j, r);
    NotifiedExactlyOnce(states, steps, j, r, id);
  }

  // ------------------------------------------------------------------ slot storage

  lemma {:induction false} DistinctCount(q: seq<nat>, a: set<nat>)
    requires NoDuplicates(q) && forall x | x in q :: x in a
    ensures |q| <= |a|
  {
    if q != [] {
      forall x | x in q[1..] ensures x in a - {q[0]} {
        var p :| 0 <= p < |q[1..]| && q[1..][p] == x;
        assert q[p + 1] == x;
      }
      DistinctCount(q[1..], a - {q[0]});
    }
  }

  /** Storage grows only when every stored slot is a live registration. */
  lemma RegisterGrowth(x: Run, id: nat)
    requires RunInv(x) && id !in x.regs
    ensures var x' := RegisterRun(x, id); |x'.slots| == |x.slots| || |x'.slots| <= |Installed(x')|
  {
    if x.ctl.arbiter.Open? {
      StoreSlotKeeps(x.slots, Installed(x), id);
      var x' := RegisterRun(x, id);
      if |x'.slots| > |x.slots| {
        RegisterKeeps(x, id);
        forall y | y in x'.slots ensures y in Installed(x') {
          assert y == id || y in Installed(x);
        }
        DistinctCount(x'.slots, Installed(x'));
      }
    }
  }

  lemma LocalGrowth(x: Run, a: RunStep)
    requires RunInv(x) && RunEnabled(x, a)
    ensures var x' := RunApply(x, a); x'.slots == x.slots || (a.RegisterStep? && x' == RegisterRun(x, a.id))
  {
  }

  lemma RunAfterGrowth(s: Sys, step: Step, r: nat)
    requires Enabled(s, step) && r in s.runs && RunInv(s.runs[r])
    ensures var x' := RunAfter(s, step, r); |x'.slots| <= |s.runs[r].slots| || |x'.slots| <= |Installed(x')|
  {
    if step.Local? && step.run == r {
      LocalGrowth(s.runs[r], step.step);
      if step.step.RegisterStep? {
        RegisterGrowth(s.runs[r], step.step.id);
      }
    }
  }

  lemma StepGrowth(s: Sys, step: Step, s': Sys, r: nat)
    requires Inv(s) && Takes(s, step, s') && r in s.runs
    ensures r in s'.runs
    ensures |s'.runs[r].slots| <= |s.runs[r].slots| || |s'.runs[r].slots| <= |Installed(s'.runs[r])|
  {
    StepTouchesOneRun(s, step, s', r);
    RunAfterGrowth(s, step, r);
  }

  lemma NewRunIsEmpty(s: Sys, step: Step, s': Sys, r: nat)
    requires Takes(s, step, s') && r !in s.runs && r in s'.runs
    requires HolderInv(s.runs, s.gone, s.holders)
    ensures s'.runs[r].slots == []
  {
  }

  /** At some time up to `i`, at least `n` registrations of Run `r` were live at once. */
  ghost predicate LiveAtOnce(states: seq<Sys>, i: nat, r: nat, n: nat)
    requires i < |states|
  {
    exists j: nat | j <= i :: r in states[j].runs && n <= |Installed(states[j].runs[r])|
  }

  lemma RunStepGrowth(states: seq<Sys>, steps: seq<Step>, i: nat, r: nat)
    requires IsRun(states, steps) && i < |steps| && r in states[i + 1].runs
    ensures var n := |states[i + 1].runs[r].slots|;
            || n <= |Installed(states[i + 1].runs[r])|
            || (r in states[i].runs && n <= |states[i].runs[r].slots|)
  {
    assert Takes(states[i], steps[i], states[i + 1]);
    RunKeepsInv(states, steps, i);
    if r in states[i].runs {
      StepGrowth(states[i], steps[i], states[i + 1], r);
    } else {
      NewRunIsEmpty(states[i], steps[i], states[i + 1], r);
    }
  }

  /** Slot storage never exceeds the number of registrations that were live at once at some time. */
  lemma {:induction false} StorageWithinPeak(states: seq<Sys>, steps: seq<Step>, i: nat, r: nat)
    requires IsRun(states, steps) && i <= |steps| && r in states[i].runs
    ensures LiveAtOnce(states, i, r, |states[i].runs[r].slots|)
  {
    assert i > 0;
    RunStepGrowth(states, steps, i - 1, r);
    if r in states[i - 1].runs {
      StorageWithinPeak(states, steps, i - 1, r);
    }
  }
}
