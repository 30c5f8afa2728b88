/**
  The invariant of the Run protocol and the proof that every step keeps it:
  one winner per arbiter, one contender per claimed commit, slots and their
  callbacks, and the request's fan-out.
 */
module RunInvariant {
  import opened Counting
  import opened Options
  import opened RunControl
  import opened RunProtocol

  predicate IsCancelled(c: Control) { c.outcome.Some? && c.outcome.value.Cancelled? }

  /** The outcome is there exactly when the arbiter is closed, and is the one winner's. */
  ghost predicate WinInv(r: Run) {
    && Consistent(r.ctl)
    && |r.wins| == B(r.ctl.arbiter.Closed?)
    && (r.ctl.arbiter.Closed? ==> r.ctl.outcome == Some(r.wins[0]))
  }

  /** Every live registration is stored once; only cancellation leaves late ones. */
  ghost predicate SlotInv(r: Run) {
    && NoDuplicates(r.slots)
    && (forall id | id in r.slots :: id in r.regs && id !in r.late)
    && (forall id | id in Installed(r) :: id in r.slots)
    && (forall id | id in r.regs && r.regs[id].active :: r.regs[id].owned)
    && (forall id | id in r.late :: id in r.regs && r.regs[id] == Slot(true, true, []))
    && (r.late != {} ==> IsCancelled(r.ctl))
  }

  /** The walk has dealt with position `p`. */
  predicate Reached(d: Dispatch, p: nat) {
    d.Finished? || (d.Scanning? && p < d.index && !(d.grabbed.Some? && p == d.index - 1))
  }

  ghost predicate DispatchInv(r: Run) {
    && (r.dispatch.Idle? <==> !IsCancelled(r.ctl))
    && (r.dispatch.Scanning? ==> r.dispatch.index <= |r.slots|)
    && (r.dispatch.Scanning? && r.dispatch.grabbed.Some? ==>
          r.dispatch.index > 0 && r.slots[r.dispatch.index - 1] == r.dispatch.grabbed.value)
  }

  /** A callback runs at most once, with the winning reason, and not before the walk comes to it. */
  ghost predicate CallInv(r: Run) {
    && (forall id | id in r.regs && r.regs[id].calls != [] ::
          IsCancelled(r.ctl) && r.regs[id].calls == [r.ctl.outcome.value.reason])
    && (forall p: nat | p < |r.slots| && r.slots[p] in r.regs ::
          if Reached(r.dispatch, p) then r.regs[r.slots[p]].active ==> r.regs[r.slots[p]].calls != []
          else r.regs[r.slots[p]].calls == [])
  }

  ghost predicate RunInv(r: Run) {
    WinInv(r) && SlotInv(r) && DispatchInv(r) && CallInv(r)
  }

  lemma WinKeeps(r: Run, c: Control, o: Outcome)
    requires RunInv(r) && !r.ctl.arbiter.Closed? && Consistent(c) && c.outcome == Some(o)
    ensures RunInv(Win(r, c, o))
  {
    var r' := Win(r, c, o);
    assert r'.regs == r.regs && r'.slots == r.slots && Installed(r') == Installed(r);
  }

  lemma RegisterKeeps(r: Run, id: nat)
    requires RunInv(r) && id !in r.regs
    ensures RunInv(RegisterRun(r, id))
  {
    if r.ctl.arbiter.Open? {
      StoreSlotKeeps(r.slots, Installed(r), id);
      assert Installed(RegisterRun(r, id)) == Installed(r) + {id};
    } else {
      assert id !in r.slots;
      assert Installed(RegisterRun(r, id)) <= Installed(r);
    }
  }

  lemma SlotStepKeeps(r: Run, step: RunStep)
    requires RunInv(r) && RunEnabled(r, step) && (step.DeactivateStep? || step.DropStep? || step.LateInvokeStep?)
    ensures RunInv(RunApply(r, step))
  {
    var r' := RunApply(r, step);
    assert Installed(r') <= Installed(r);
  }

  lemma GrabKeeps(r: Run)
    requires RunInv(r) && RunEnabled(r, GrabStep)
    ensures RunInv(RunApply(r, GrabStep))
  {
    var r' := GrabRun(r);
    assert Installed(r') == Installed(r);
    var i := r.dispatch.index;
    forall p: nat | p < |r.slots|
      ensures if Reached(r'.dispatch, p) then r.regs[r.slots[p]].active ==> r.regs[r.slots[p]].calls != []
              else r.regs[r.slots[p]].calls == []
    {
      if p != i {
        assert Reached(r'.dispatch, p) <==> Reached(r.dispatch, p);
      }
    }
  }

  lemma InvokeKeeps(r: Run)
    requires RunInv(r) && RunEnabled(r, InvokeStep)
    ensures RunInv(RunApply(r, InvokeStep))
  {
    var r' := RunApply(r, InvokeStep);
    var i := r.dispatch.index - 1;
    assert !Reached(r.dispatch, i) && r.regs[r.slots[i]].calls == [];
    assert Installed(r') == Installed(r);
    forall p: nat | p < |r.slots|
      ensures if Reached(r'.dispatch, p) then r'.regs[r.slots[p]].active ==> r'.regs[r.slots[p]].calls != []
              else r'.regs[r.slots[p]].calls == []
    {
      if p != i {
        assert r.slots[p] != r.slots[i];
        assert Reached(r'.dispatch, p) <==> Reached(r.dispatch, p);
      }
    }
  }

  /** Every step that concerns one Run keeps its invariant. */
  lemma LocalKeeps(r: Run, step: RunStep)
    requires RunInv(r) && RunEnabled(r, step)
    ensures RunInv(RunApply(r, step))
  {
    match step
    case PublishStep(o) =>
      if r.ctl.arbiter.Open? {
        WinKeeps(r, Publish(r.ctl, o), o);
      }
    case AdvanceStep(next) =>
      var r' := RunApply(r, step);
      assert Installed(r') == Installed(r);
    case RegisterStep(id) => RegisterKeeps(r, id);
    case GrabStep => GrabKeeps(r);
    case InvokeStep => InvokeKeeps(r);
    case _ => SlotStepKeeps(r, step);
  }

  lemma ClaimKeeps(r: Run, late: bool)
    requires RunInv(r)
    ensures RunInv(ClaimRun(r, late))
  {
    if r.ctl.arbiter.Open? && late {
      WinKeeps(r, TryClaim(r.ctl, late).0, Cancelled(DeadlineExceeded));
    } else {
      assert Installed(ClaimRun(r, late)) == Installed(r);
    }
  }

  lemma ResolveKeeps(r: Run, o: Outcome)
    requires RunInv(r) && !o.Cancelled?
    ensures RunInv(ResolveRun(r, o))
  {
    if r.ctl.arbiter.CommitClaimed? {
      WinKeeps(r, Resolve(r.ctl, o), o);
    }
  }

  // ------------------------------------------------------------------- contenders

  predicate IsClaimed(runs: map<nat, Run>, r: nat) {
    r in runs && runs[r].ctl.arbiter.CommitClaimed?
  }

  predicate Held(holders: map<nat, nat>, r: nat) {
    exists v | v in holders :: holders[v] == r
  }

  /** A contender holds a Run exactly while its commit is claimed, and only one does. */
  ghost predicate HolderInv(runs: map<nat, Run>, gone: set<nat>, holders: map<nat, nat>) {
    && (forall v | v in holders :: IsClaimed(runs, holders[v]) && holders[v] !in gone)
    && (forall v, w | v in holders && w in holders && holders[v] == holders[w] :: v == w)
    && (forall r | IsClaimed(runs, r) :: Held(holders, r))
  }

  lemma ClaimHolds(runs: map<nat, Run>, gone: set<nat>, holders: map<nat, nat>, r: nat, v: nat, late: bool)
    requires HolderInv(runs, gone, holders) && r in runs && r !in gone && v !in holders
    ensures HolderInv(runs[r := ClaimRun(runs[r], late)], gone,
                      if TryClaim(runs[r].ctl, late).1.Claimed? then holders[v := r] else holders)
  {
    var runs' := runs[r := ClaimRun(runs[r], late)];
    var claimed := TryClaim(runs[r].ctl, late).1.Claimed?;
    var holders' := if claimed then holders[v := r] else holders;
    assert IsClaimed(runs', r) <==> claimed || IsClaimed(runs, r);
    if claimed {
      assert holders'[v] == r;
      forall w | w in holders ensures holders[w] != r {
        assert IsClaimed(runs, holders[w]);
      }
    }
    forall x | IsClaimed(runs', x) ensures Held(holders', x) {
      if x != r || !claimed {
        assert IsClaimed(runs, x);
        var w :| w in holders && holders[w] == x;
        assert w in holders' && holders'[w] == x;
      }
    }
  }

  lemma ResolveReleases(runs: map<nat, Run>, gone: set<nat>, holders: map<nat, nat>, v: nat, o: Outcome)
    requires HolderInv(runs, gone, holders) && v in holders
    ensures HolderInv(runs[holders[v] := ResolveRun(runs[holders[v]], o)], gone, holders - {v})
  {
    var r := holders[v];
    var runs', holders' := runs[r := ResolveRun(runs[r], o)], holders - {v};
    assert !IsClaimed(runs', r);
    forall x | IsClaimed(runs', x) ensures Held(holders', x) {
      assert IsClaimed(runs, x);
      var w :| w in holders && holders[w] == x;
      assert w in holders' && holders'[w] == x;
    }
  }

  lemma TransferHolds(runs: map<nat, Run>, gone: set<nat>, holders: map<nat, nat>, a: nat, b: nat)
    requires HolderInv(runs, gone, holders) && b !in holders && a != b
    ensures HolderInv(runs, gone, Transfer(holders, a, b))
  {
    var holders' := Transfer(holders, a, b);
    forall x | IsClaimed(runs, x) ensures Held(holders', x) {
      var w :| w in holders && holders[w] == x;
      var w' := if w == a then b else w;
      assert w' in holders' && holders'[w'] == x;
    }
  }

  /** A change of one Run that claims and resolves nothing leaves the contenders right. */
  lemma OtherRunHolds(runs: map<nat, Run>, gone: set<nat>, holders: map<nat, nat>, r: nat, x: Run)
    requires HolderInv(runs, gone, holders)
    requires x.ctl.arbiter.CommitClaimed? <==> IsClaimed(runs, r)
    ensures HolderInv(runs[r := x], gone, holders)
  {
    var runs' := runs[r := x];
    forall y ensures IsClaimed(runs', y) <==> IsClaimed(runs, y) {
    }
  }

  // ---------------------------------------------------------------------- fan-out

  /** Every attached child is offered an accepted reason once. */
  ghost predicate OfferInv(q: Request) {
    && NoDuplicates(q.queue)
    && (q.accepted.None? ==>
          && q.queue == [] && q.attaching == {} && q.holding == {} && q.winners == {} && q.offered == multiset{}
          && NoDuplicates(q.sources) && forall c: nat :: c in q.sources <==> c in q.ids)
    && (q.accepted.Some? ==>
          forall c: nat :: q.offered[c] + B(c in q.queue) + B(c in q.attaching) == B(c in q.ids))
    && (q.won <==> q.holding + q.winners != {})
  }

  predicate IsOpen(runs: map<nat, Run>, c: nat) { c in runs && runs[c].ctl.arbiter.Open? }

  /** What the request has done to its children. */
  ghost predicate ChildInv(runs: map<nat, Run>, gone: set<nat>, q: Request) {
    && (forall c | c in q.ids :: c in runs)
    && (forall c | c in q.holding :: IsOpen(runs, c) && c !in gone && c in q.ids)
    && (forall c | c in q.winners ::
          c in q.ids && c in runs && q.accepted.Some? && runs[c].ctl.outcome == Some(Cancelled(q.accepted.value)))
    && (forall c: nat | q.offered[c] > 0 && IsOpen(runs, c) :: c in q.holding || c in gone)
  }

  lemma QueueHead(queue: seq<nat>, r: nat)
    requires NoDuplicates(queue) && queue != [] && queue[0] == r
    ensures NoDuplicates(queue[1..]) && forall c :: c in queue[1..] <==> c in queue && c != r
  {
    forall c | c in queue && c != r ensures c in queue[1..] {
      var p :| 0 <= p < |queue| && queue[p] == c;
      assert queue[1..][p - 1] == c;
    }
  }

  lemma VisitKeeps(q: Request, r: nat)
    requires OfferInv(q) && q.accepted.Some?
    requires r in q.attaching || (q.queue != [] && q.queue[0] == r)
    ensures OfferInv(Visited(q, r)) && r in q.ids && q.offered[r] == 0
  {
    var q' := Visited(q, r);
    assert q.offered[r] + B(r in q.queue) + B(r in q.attaching) == B(r in q.ids);
    if r !in q.attaching {
      QueueHead(q.queue, r);
    }
    forall c: nat ensures q'.offered[c] + B(c in q'.queue) + B(c in q'.attaching) == B(c in q'.ids) {
      assert q.offered[c] + B(c in q.queue) + B(c in q.attaching) == B(c in q.ids);
    }
  }

  lemma OfferKeeps(s: Sys, r: nat)
    requires Enabled(s, Offer(r)) && OfferInv(s.request) && ChildInv(s.runs, s.gone, s.request)
    ensures var q := OfferStep(s, r).request; OfferInv(q) && ChildInv(s.runs, s.gone, q)
  {
    VisitKeeps(s.request, r);
    var q := OfferStep(s, r).request;
    if Alive(s, r) && s.runs[r].ctl.arbiter.Open? {
      assert r in q.holding;
    }
  }

  lemma AttachKeeps(runs: map<nat, Run>, gone: set<nat>, q: Request, r: nat)
    requires OfferInv(q) && ChildInv(runs, gone, q) && r in runs
    ensures OfferInv(AttachStep(q, r)) && ChildInv(runs, gone, AttachStep(q, r))
  {
    var q' := AttachStep(q, r);
    if r !in q.ids {
      if q.accepted.Some? {
        forall c: nat ensures q'.offered[c] + B(c in q'.queue) + B(c in q'.attaching) == B(c in q'.ids) {
          assert q.offered[c] + B(c in q.queue) + B(c in q.attaching) == B(c in q.ids);
        }
      } else {
        assert r !in q.sources;
        assert forall c: nat :: c in q'.sources <==> c in q.sources || c == r;
      }
    }
  }

  lemma AcceptKeeps(runs: map<nat, Run>, gone: set<nat>, q: Request, reason: Reason)
    requires OfferInv(q) && ChildInv(runs, gone, q)
    ensures OfferInv(AcceptStep(q, reason)) && ChildInv(runs, gone, AcceptStep(q, reason))
  {
  }

  lemma SettleKeeps(runs: map<nat, Run>, gone: set<nat>, q: Request, r: nat)
    requires OfferInv(q) && ChildInv(runs, gone, q) && r in q.holding && q.accepted.Some?
    ensures var q' := q.(holding := q.holding - {r}, winners := q.winners + {r});
            OfferInv(q')
            && ChildInv(runs[r := PublishRun(runs[r], Cancelled(q.accepted.value))], gone, q')
  {
    var q' := q.(holding := q.holding - {r}, winners := q.winners + {r});
    assert r in q'.holding + q'.winners && OfferInv(q') by {
      assert q.won;
    }
    SettleChildren(runs, gone, q, r);
  }

  lemma SettleChildren(runs: map<nat, Run>, gone: set<nat>, q: Request, r: nat)
    requires ChildInv(runs, gone, q) && r in q.holding && q.accepted.Some?
    ensures ChildInv(runs[r := PublishRun(runs[r], Cancelled(q.accepted.value))], gone,
                     q.(holding := q.holding - {r}, winners := q.winners + {r}))
  {
    assert IsOpen(runs, r);
  }

  /** Runs only leave Open and never lose an outcome, which the request relies on. */
  lemma OtherRunChildren(runs: map<nat, Run>, gone: set<nat>, q: Request, r: nat, x: Run)
    requires ChildInv(runs, gone, q) && r in runs && Evolves(runs[r].ctl, x.ctl)
    requires r in q.holding ==> x.ctl == runs[r].ctl
    ensures ChildInv(runs[r := x], gone, q)
  {
  }

  ghost predicate AllRuns(runs: map<nat, Run>, gone: set<nat>) {
    (forall r | r in runs :: RunInv(runs[r])) && forall r | r in gone :: r in runs
  }

  ghost predicate Inv(s: Sys) {
    && AllRuns(s.runs, s.gone)
    && HolderInv(s.runs, s.gone, s.holders)
    && OfferInv(s.request)
    && ChildInv(s.runs, s.gone, s.request)
  }

  lemma LocalEvolves(r: Run, step: RunStep)
    requires RunInv(r) && RunEnabled(r, step)
    ensures Evolves(r.ctl, RunApply(r, step).ctl)
    ensures RunApply(r, step).ctl.arbiter.CommitClaimed? <==> r.ctl.arbiter.CommitClaimed?
    ensures !Locks(step) ==> RunApply(r, step).ctl == r.ctl
  {
  }

  lemma SetRunKeeps(runs: map<nat, Run>, gone: set<nat>, r: nat, x: Run)
    requires AllRuns(runs, gone) && RunInv(x)
    ensures AllRuns(runs[r := x], gone)
  {
  }

  lemma ClaimEvolves(r: Run, late: bool)
    requires RunInv(r)
    ensures Evolves(r.ctl, ClaimRun(r, late).ctl)
  {
  }

  lemma LocalStepKeeps(s: Sys, r: nat, a: RunStep)
    requires Inv(s) && Enabled(s, Local(r, a))
    ensures Inv(Apply(s, Local(r, a)))
  {
    LocalKeeps(s.runs[r], a);
    LocalEvolves(s.runs[r], a);
    SetRunKeeps(s.runs, s.gone, r, RunApply(s.runs[r], a));
    OtherRunHolds(s.runs, s.gone, s.holders, r, RunApply(s.runs[r], a));
    OtherRunChildren(s.runs, s.gone, s.request, r, RunApply(s.runs[r], a));
  }

  lemma ClaimStepKeeps(s: Sys, r: nat, v: nat, late: bool)
    requires Inv(s) && Enabled(s, ClaimCommit(r, v, late))
    ensures Inv(Apply(s, ClaimCommit(r, v, late)))
  {
    ClaimKeeps(s.runs[r], late);
    ClaimEvolves(s.runs[r], late);
    SetRunKeeps(s.runs, s.gone, r, ClaimRun(s.runs[r], late));
    ClaimHolds(s.runs, s.gone, s.holders, r, v, late);
    OtherRunChildren(s.runs, s.gone, s.request, r, ClaimRun(s.runs[r], late));
  }

  lemma ResolveStepKeeps(s: Sys, v: nat, o: Outcome)
    requires Inv(s) && !o.Cancelled? && (v in s.holders ==> Free(s, s.holders[v]))
    ensures Inv(ResolveHolder(s, v, o)) && v !in ResolveHolder(s, v, o).holders
  {
    if v in s.holders {
      var r := s.holders[v];
      ResolveKeeps(s.runs[r], o);
      SetRunKeeps(s.runs, s.gone, r, ResolveRun(s.runs[r], o));
      ResolveReleases(s.runs, s.gone, s.holders, v, o);
      OtherRunChildren(s.runs, s.gone, s.request, r, ResolveRun(s.runs[r], o));
    }
  }

  lemma NewRunChildren(runs: map<nat, Run>, gone: set<nat>, q: Request, r: nat)
    requires OfferInv(q) && ChildInv(runs, gone, q) && r !in runs
    ensures ChildInv(runs[r := NEW_RUN], gone, q)
  {
    assert q.offered[r] == 0;
  }

  lemma CreateKeeps(s: Sys, r: nat)
    requires Inv(s) && Enabled(s, Create(r))
    ensures Inv(Apply(s, Create(r)))
  {
    assert RunInv(NEW_RUN);
    SetRunKeeps(s.runs, s.gone, r, NEW_RUN);
    OtherRunHolds(s.runs, s.gone, s.holders, r, NEW_RUN);
    NewRunChildren(s.runs, s.gone, s.request, r);
  }

  lemma DestroyKeeps(s: Sys, r: nat)
    requires Inv(s) && Enabled(s, Destroy(r))
    ensures Inv(Apply(s, Destroy(r)))
  {
    var gone := s.gone + {r};
    assert HolderInv(s.runs, gone, s.holders);
    assert ChildInv(s.runs, gone, s.request);
  }

  lemma SettleStepKeeps(s: Sys, r: nat)
    requires Inv(s) && Enabled(s, Settle(r))
    ensures Inv(Apply(s, Settle(r)))
  {
    var o := Cancelled(s.request.accepted.value);
    LocalKeeps(s.runs[r], PublishStep(o));
    LocalEvolves(s.runs[r], PublishStep(o));
    SetRunKeeps(s.runs, s.gone, r, PublishRun(s.runs[r], o));
    OtherRunHolds(s.runs, s.gone, s.holders, r, PublishRun(s.runs[r], o));
    SettleKeeps(s.runs, s.gone, s.request, r);
  }

  /** Every step of every thread keeps the invariant. */
  lemma StepKeepsInv(s: Sys, step: Step)
    requires Inv(s) && Enabled(s, step)
    ensures Inv(Apply(s, step))
  {
    match step
    case Create(r) => CreateKeeps(s, r);
    case Destroy(r) => DestroyKeeps(s, r);
    case Local(r, a) => LocalStepKeeps(s, r, a);
    case ClaimCommit(r, v, late) => ClaimStepKeeps(s, r, v, late);
    case Finish(v, o) => ResolveStepKeeps(s, v, o);
    case Drop(v, f) => ResolveStepKeeps(s, v, Failed(f));
    case Move(a, b, f) =>
      if a != b {
        ResolveStepKeeps(s, b, Failed(f));
        var s1 := ResolveHolder(s, b, Failed(f));
        TransferHolds(s1.runs, s1.gone, s1.holders, a, b);
      }
    case Attach(r) => AttachKeeps(s.runs, s.gone, s.request, r);
    case Accept(reason) => AcceptKeeps(s.runs, s.gone, s.request, reason);
    case Offer(r) => OfferKeeps(s, r);
    case Settle(r) => SettleStepKeeps(s, r);
  }
}
