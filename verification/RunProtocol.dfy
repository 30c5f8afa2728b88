/**
  Any number of Runs, the threads that contend for their arbiters, the commit
  contenders that move between owners, the cancellation registrations, and one
  request-level source that fans a cancellation out over its child Runs.  Every
  locked region is one step and steps of different threads interleave freely.
 */
module RunProtocol {
  import opened Options
  import opened RunControl

  /** A registered callback; the slot has expired once it is not owned. */
  datatype Slot = Slot(owned: bool, active: bool, calls: seq<Reason>)

  /** The winning cancellation's walk over the slots, with the slot it has locked for invocation. */
  datatype Dispatch = Idle | Scanning(index: nat, grabbed: Option<nat>) | Finished

  datatype Run = Run(
    ctl: Control,
    slots: seq<nat>,
    regs: map<nat, Slot>,
    late: set<nat>,                // registered after cancellation, callback not yet invoked
    dispatch: Dispatch,
    wins: seq<Outcome>)            // outcomes of the calls that reported winning

  const NEW_RUN := Run(NEW_CONTROL, [], map[], {}, Idle, [])

  /** Registrations whose owner has not released them. */
  function Installed(r: Run): (a: set<nat>) {
    set id | id in r.regs && r.regs[id].owned && id !in r.late
  }

  /** The arbiter went to Closed with `o`; a cancellation then starts dispatching. */
  function Win(r: Run, c: Control, o: Outcome): (r': Run) {
    r.(ctl := c, wins := r.wins + [o], dispatch := if o.Cancelled? then Scanning(0, None) else r.dispatch)
  }

  function PublishRun(r: Run, o: Outcome): (r': Run) {
    if r.ctl.arbiter.Open? then Win(r, Publish(r.ctl, o), o) else r
  }

  function ClaimRun(r: Run, late: bool): (r': Run) {
    var (c, claim) := TryClaim(r.ctl, late);
    if claim.DeadlineCancelled? then Win(r, c, Cancelled(DeadlineExceeded)) else r.(ctl := c)
  }

  function ResolveRun(r: Run, o: Outcome): (r': Run) {
    if r.ctl.arbiter.CommitClaimed? then Win(r, Resolve(r.ctl, o), o) else r
  }

  function RegisterRun(r: Run, id: nat): (r': Run) {
    if r.ctl.arbiter.Open? then
      r.(slots := StoreSlot(r.slots, Installed(r), id), regs := r.regs[id := Slot(true, true, [])])
    else if r.ctl.outcome.Some? && r.ctl.outcome.value.Cancelled? then
      r.(late := r.late + {id}, regs := r.regs[id := Slot(true, true, [])])
    else r.(regs := r.regs[id := Slot(false, false, [])])
  }

  /** slot->invoke: the callback runs only while the slot is active. */
  function Called(x: Slot, reason: Reason): (x': Slot) {
    if x.active then x.(calls := x.calls + [reason]) else x
  }

  /** One step of one Run that concerns nothing else. */
  datatype RunStep =
    | PublishStep(outcome: Outcome)        // publish_terminal, or a cancellation by the Run's own source
    | AdvanceStep(next: RunPhase)
    | RegisterStep(id: nat)
    | LateInvokeStep(id: nat)
    | DeactivateStep(id: nat)
    | DropStep(id: nat)
    | GrabStep
    | InvokeStep

  /** The step takes the Run mutex. */
  predicate Locks(step: RunStep) {
    step.PublishStep? || step.AdvanceStep? || step.RegisterStep? || step.GrabStep?
  }

  predicate RunEnabled(r: Run, step: RunStep) {
    match step
    case PublishStep(_) => true
    case AdvanceStep(_) => true
    case RegisterStep(id) => id !in r.regs
    case LateInvokeStep(id) => id in r.late && id in r.regs && r.ctl.outcome.Some? && r.ctl.outcome.value.Cancelled?
    case DeactivateStep(id) => id in r.regs && r.regs[id].owned && id !in r.late
    case DropStep(id) => id in r.regs && r.regs[id].owned && !r.regs[id].active && id !in r.late
    case GrabStep => r.dispatch.Scanning? && r.dispatch.grabbed.None?
    case InvokeStep =>
      r.dispatch.Scanning? && r.dispatch.grabbed.Some? && r.dispatch.grabbed.value in r.regs
      && r.ctl.outcome.Some? && r.ctl.outcome.value.Cancelled?
  }

  function GrabRun(r: Run): (r': Run)
    requires r.dispatch.Scanning?
  {
    var i := r.dispatch.index;
    if i >= |r.slots| then r.(dispatch := Finished)
    else
      var id := r.slots[i];
      var locked := id in r.regs && r.regs[id].owned;
      r.(dispatch := Scanning(i + 1, if locked then Some(id) else None))
  }

  function RunApply(r: Run, step: RunStep): (r': Run)
    requires RunEnabled(r, step)
  {
    match step
    case PublishStep(o) => PublishRun(r, o)
    case AdvanceStep(next) => r.(ctl := AdvanceTo(r.ctl, next).0)
    case RegisterStep(id) => RegisterRun(r, id)
    case LateInvokeStep(id) =>
      r.(regs := r.regs[id := Called(r.regs[id], r.ctl.outcome.value.reason).(owned := false, active := false)],
         late := r.late - {id})
    case DeactivateStep(id) => r.(regs := r.regs[id := r.regs[id].(active := false)])
    case DropStep(id) => r.(regs := r.regs[id := r.regs[id].(owned := false)])
    case GrabStep => GrabRun(r)
    case InvokeStep =>
      var id := r.dispatch.grabbed.value;
      r.(regs := r.regs[id := Called(r.regs[id], r.ctl.outcome.value.reason)],
         dispatch := r.dispatch.(grabbed := None))
  }

  // ------------------------------------------------------------------ all Runs

  /** ComputeRequestCancellationSource and the threads delivering its reason. */
  datatype Request = Request(
    accepted: Option<Reason>,
    ids: set<nat>,                 // attached children
    sources: seq<nat>,
    queue: seq<nat>,               // children the accepting call has still to visit
    attaching: set<nat>,           // late attachments still to be offered the reason
    holding: set<nat>,             // children whose mutex a delivery holds, latch set, outcome not yet public
    won: bool,                     // child_cancellation_won
    offered: multiset<nat>,        // children visited
    winners: set<nat>)             // children the request cancelled

  const NEW_REQUEST := Request(None, {}, [], [], {}, {}, false, multiset{}, {})

  datatype Sys = Sys(
    runs: map<nat, Run>,
    gone: set<nat>,                // Runs whose last owner has left
    holders: map<nat, nat>,        // commit contenders that hold a Run, by contender object
    request: Request)

  const INIT := Sys(map[], {}, map[], NEW_REQUEST)

  datatype Step =
    | Create(run: nat)
    | Destroy(run: nat)
    | Local(run: nat, step: RunStep)
    | ClaimCommit(run: nat, contender: nat, late: bool)
    | Finish(contender: nat, outcome: Outcome)          // publish_succeeded or publish_failed
    | Drop(contender: nat, failure: nat)                // destructor
    | Move(source: nat, target: nat, failure: nat)      // move construction or assignment
    | Attach(run: nat)
    | Accept(reason: Reason)                            // request_cancellation's locked region
    | Offer(run: nat)                                   // a child's region, up to the latch
    | Settle(run: nat)                                  // the rest of that region

  predicate Alive(s: Sys, r: nat) { r in s.runs && r !in s.gone }

  /** The Run's mutex can be taken. */
  predicate Free(s: Sys, r: nat) { Alive(s, r) && r !in s.request.holding }

  predicate Enabled(s: Sys, step: Step) {
    match step
    case Create(r) => r !in s.runs
    case Destroy(r) => Free(s, r) && forall v | v in s.holders :: s.holders[v] != r
    case Local(r, a) => Alive(s, r) && (Locks(a) ==> Free(s, r)) && RunEnabled(s.runs[r], a)
    case ClaimCommit(r, v, _) => Free(s, r) && v !in s.holders
    case Finish(v, o) => !o.Cancelled? && (v in s.holders ==> Free(s, s.holders[v]))
    case Drop(v, _) => v in s.holders ==> Free(s, s.holders[v])
    case Move(_, v, _) => v in s.holders ==> Free(s, s.holders[v])
    case Attach(r) => Alive(s, r)
    case Accept(_) => true
    case Offer(r) =>
      s.request.accepted.Some?
      && (r in s.request.attaching || (s.request.queue != [] && s.request.queue[0] == r))
      && (Alive(s, r) ==> Free(s, r))
    case Settle(r) => r in s.request.holding && r in s.runs && s.request.accepted.Some?
  }

  function SetRun(s: Sys, r: nat, x: Run): (s': Sys) {
    s.(runs := s.runs[r := x])
  }

  /** resolve_commit through contender `v`, which then holds nothing. */
  function ResolveHolder(s: Sys, v: nat, o: Outcome): (s': Sys)
    requires v in s.holders ==> s.holders[v] in s.runs
  {
    if v !in s.holders then s
    else SetRun(s, s.holders[v], ResolveRun(s.runs[s.holders[v]], o)).(holders := s.holders - {v})
  }

  /** Hands over what contender `a` held to contender `b`. */
  function Transfer(holders: map<nat, nat>, a: nat, b: nat): (m: map<nat, nat>) {
    if a in holders then (holders - {a})[b := holders[a]] else holders - {b}
  }

  function Visited(q: Request, r: nat): (q': Request) {
    q.(queue := if r in q.attaching || q.queue == [] then q.queue else q.queue[1..],
       attaching := q.attaching - {r},
       offered := q.offered + multiset{r})
  }

  function OfferStep(s: Sys, r: nat): (s': Sys) {
    var q := Visited(s.request, r);
    if Alive(s, r) && s.runs[r].ctl.arbiter.Open?
    then s.(request := q.(won := true, holding := q.holding + {r}))
    else s.(request := q)
  }

  function AttachStep(q: Request, r: nat): (q': Request) {
    if r in q.ids then q
    else q.(ids := q.ids + {r}, sources := q.sources + [r],
            attaching := if q.accepted.Some? then q.attaching + {r} else q.attaching)
  }

  function AcceptStep(q: Request, reason: Reason): (q': Request) {
    if q.accepted.Some? then q
    else q.(accepted := Some(reason), queue := q.sources, sources := [])
  }

  function Apply(s: Sys, step: Step): (s': Sys)
    requires Enabled(s, step)
  {
    match step
    case Create(r) => SetRun(s, r, NEW_RUN)
    case Destroy(r) => s.(gone := s.gone + {r})
    case Local(r, a) => SetRun(s, r, RunApply(s.runs[r], a))
    case ClaimCommit(r, v, late) =>
      var s1 := SetRun(s, r, ClaimRun(s.runs[r], late));
      if TryClaim(s.runs[r].ctl, late).1.Claimed? then s1.(holders := s.holders[v := r]) else s1
    case Finish(v, o) => ResolveHolder(s, v, o)
    case Drop(v, f) => ResolveHolder(s, v, Failed(f))
    case Move(a, b, f) =>
      if a == b then s
      else
        var s1 := ResolveHolder(s, b, Failed(f));
        s1.(holders := Transfer(s1.holders, a, b))
    case Attach(r) => s.(request := AttachStep(s.request, r))
    case Accept(reason) => s.(request := AcceptStep(s.request, reason))
    case Offer(r) => OfferStep(s, r)
    case Settle(r) =>
      SetRun(s, r, PublishRun(s.runs[r], Cancelled(s.request.accepted.value)))
        .(request := s.request.(holding := s.request.holding - {r}, winners := s.request.winners + {r}))
  }
}
