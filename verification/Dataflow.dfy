/**
  Schedule independence of whole-node plans: whatever order the scheduler and
  its workers choose, a run resolves all connected inputs, computes for every
  node what sequential recursive evaluation computes, and leaves the same graph
  after commit.
 */
module Dataflow {
  import opened Counting
  import opened Options
  import opened TaskDependency
  import opened NodeTasks
  import S = Scheduler

  /** One planned request: a task per node of `order`, with its dependency occurrences. */
  datatype Job = Job(
    graph: Graph,
    order: seq<int>,
    plan: S.Plan,
    nodeOf: map<nat, int>,
    resolved: set<int>)

  // ------------------------------------------------------- sequential evaluation

  /** Every connected input lies below its node; the graph has no cycle. */
  ghost predicate Ordered(g: Graph, rank: map<int, nat>) {
    && (forall n | n in g :: n in rank)
    && (forall n, u | n in g && u in g && IsUpstream(g[n], u) :: rank[u] < rank[n])
  }

  /** What sequential recursive evaluation gives for node `id`. */
  ghost function Eval(j: Job, op: Operation, rank: map<int, nat>, id: int): (r: Result<Output>)
    requires Ordered(j.graph, rank) && id in j.graph
    decreases rank[id], 1
  {
    if j.graph[id].cached.Some? then Ok(j.graph[id].cached.value)
    else ComputeUncached(j.graph, EvalInputs(j, op, rank, id), j.resolved, op, id)
  }

  /** The evaluated inputs of node `id`. */
  ghost function EvalInputs(j: Job, op: Operation, rank: map<int, nat>, id: int): (m: map<int, Output>)
    requires Ordered(j.graph, rank) && id in j.graph
    decreases rank[id], 0
  {
    map u | u in j.graph && IsUpstream(j.graph[id], u) && Eval(j, op, rank, u).Ok? :: Eval(j, op, rank, u).value
  }

  // ------------------------------------------------------------------- the machine

  datatype State = State(
    sched: S.State,
    temp: map<int, Output>,
    outcome: map<nat, Result<Option<Output>>>)   // what each task's body came to

  datatype Step =
    | Schedule(step: S.Step)       // submit, start or release
    | Compute(task: nat)           // a started task reads its inputs and runs the operation
    | Complete(task: nat)          // it stores the result and finishes

  /** compute_node's result for node `n` given the stored results. */
  function TaskOutcome(j: Job, op: Operation, temp: map<int, Output>, n: int): (r: Result<Option<Output>>)
    requires n in j.graph
  {
    if j.graph[n].cached.Some? || n in temp then Ok(None)
    else
      match ComputeUncached(j.graph, temp, j.resolved, op, n)
      case Ok(v) => Ok(Some(v))
      case Err(f) => Err(f)
  }

  predicate Planned(j: Job, t: nat) { t in j.nodeOf && j.nodeOf[t] in j.graph }

  predicate Enabled(j: Job, s: State, step: Step) {
    match step
    case Schedule(a) => !a.Finish? && S.Enabled(j.plan, s.sched, a)
    case Compute(t) => Planned(j, t) && t in s.sched.started && t !in s.sched.finished && t !in s.outcome
    case Complete(t) =>
      Planned(j, t) && t in s.sched.started && t !in s.sched.finished && t in s.outcome && s.outcome[t].Ok?
  }

  function Apply(j: Job, op: Operation, s: State, step: Step): (s': State)
    requires Enabled(j, s, step)
  {
    match step
    case Schedule(a) => s.(sched := S.Apply(j.plan, s.sched, a))
    case Compute(t) => s.(outcome := s.outcome[t := TaskOutcome(j, op, s.temp, j.nodeOf[t])])
    case Complete(t) =>
      s.(sched := S.Apply(j.plan, s.sched, S.Finish(t)),
         temp := if s.outcome[t].value.Some? then s.temp[j.nodeOf[t] := s.outcome[t].value.value] else s.temp)
  }

  function Init(j: Job): (s: State) { State(S.Init(j.plan), map[], map[]) }

  // --------------------------------------------------------------------- soundness

  /** Task `t` waits for the task of node `u`. */
  ghost predicate WaitsFor(j: Job, t: nat, u: int) {
    exists e | 0 <= e < |j.plan.edges| ::
      j.plan.edges[e].to == t && j.plan.edges[e].from in j.nodeOf && j.nodeOf[j.plan.edges[e].from] == u
  }

  /** One task per planned node, and every planned producer of a node is listed as a dependency. */
  ghost predicate Sound(j: Job) {
    && S.ValidPlan(j.plan) && j.plan.active == j.nodeOf.Keys
    && (forall t | t in j.nodeOf :: j.nodeOf[t] in j.graph && j.nodeOf[t] in j.order)
    && (forall t, t' | t in j.nodeOf && t' in j.nodeOf && j.nodeOf[t] == j.nodeOf[t'] :: t == t')
    && (forall t, u | t in j.nodeOf && IsUpstream(j.graph[j.nodeOf[t]], u)
                      && j.graph[j.nodeOf[t]].cached.None? ::
          u in j.graph && (j.graph[u].cached.Some? || WaitsFor(j, t, u)))
  }

  // ------------------------------------------------------------- plans from task lists

  /** The task list of `t` names the task of node `u`. */
  ghost predicate Lists(j: Job, tasks: seq<Task>, o: Override, t: nat, u: int) {
    exists d: nat | d in j.nodeOf :: j.nodeOf[d] == u && t < |tasks| && d in ListOf(tasks, o, t)
  }

  /**
    The plan is the one built from dense task lists, one task per node, and
    every planned producer of a node is in its task's own list.
   */
  ghost predicate BuiltFrom(j: Job, tasks: seq<Task>, active: Activity, o: Override) {
    && Dense(tasks) && j.plan == S.PlanOf(tasks, active, o) && j.plan.active == j.nodeOf.Keys
    && (forall t | t in j.nodeOf :: j.nodeOf[t] in j.graph && j.nodeOf[t] in j.order)
    && (forall t, t' | t in j.nodeOf && t' in j.nodeOf && j.nodeOf[t] == j.nodeOf[t'] :: t == t')
    && (forall t, u | t in j.nodeOf && IsUpstream(j.graph[j.nodeOf[t]], u)
                      && j.graph[j.nodeOf[t]].cached.None? ::
          u in j.graph && (j.graph[u].cached.Some? || Lists(j, tasks, o, t, u)))
  }

  lemma ActiveInRange(tasks: seq<Task>, active: Activity, o: Override, t: nat)
    requires Dense(tasks) && t in S.PlanOf(tasks, active, o).active
    ensures t < |tasks| && (active.None? || t in active.value)
  {
  }

  /** A listed producer is waited for: the build loop made an occurrence for it. */
  lemma ListedIsWaitedFor(j: Job, tasks: seq<Task>, active: Activity, o: Override, t: nat, u: int)
    requires BuiltFrom(j, tasks, active, o) && t in j.nodeOf && Lists(j, tasks, o, t, u)
    ensures WaitsFor(j, t, u)
  {
    var d: nat :| d in j.nodeOf && j.nodeOf[d] == u && t < |tasks| && d in ListOf(tasks, o, t);
    ActiveInRange(tasks, active, o, t);
    ActiveInRange(tasks, active, o, d);
    BuiltFromLists(tasks, active, o, d, t);
    var deps := ListOf(tasks, o, t);
    var p :| 0 <= p < |deps| && deps[p] == d;
    assert p in PositionsOf(deps, d);
    CountedIsThere(j.plan.edges, Edge(d, t));
  }

  /** What is listed in the task lists is what schedule independence needs. */
  lemma BuiltIsSound(j: Job, tasks: seq<Task>, active: Activity, o: Override)
    requires BuiltFrom(j, tasks, active, o)
    ensures Sound(j)
  {
    S.DensePlanIsValid(tasks, active, o);
    forall t, u | t in j.nodeOf && IsUpstream(j.graph[j.nodeOf[t]], u) && j.graph[j.nodeOf[t]].cached.None?
      ensures u in j.graph && (j.graph[u].cached.Some? || WaitsFor(j, t, u))
    {
      if j.graph[u].cached.None? {
        ListedIsWaitedFor(j, tasks, active, o, t, u);
      }
    }
  }

  /** The evaluation of a node, as its task reports it. */
  ghost function Expected(j: Job, op: Operation, rank: map<int, nat>, n: int): (r: Result<Option<Output>>)
    requires Ordered(j.graph, rank) && n in j.graph
  {
    if j.graph[n].cached.Some? then Ok(None)
    else
      match Eval(j, op, rank, n)
      case Ok(v) => Ok(Some(v))
      case Err(f) => Err(f)
  }

  /** A finished task's node has its evaluated output. */
  ghost predicate Stored(j: Job, op: Operation, rank: map<int, nat>, temp: map<int, Output>, n: int)
    requires Ordered(j.graph, rank) && n in j.graph
  {
    if j.graph[n].cached.Some? then n !in temp
    else n in temp && Eval(j, op, rank, n) == Ok(temp[n])
  }

  /** Node `n` belongs to a finished task. */
  ghost predicate FinishedNode(j: Job, finished: set<nat>, n: int) {
    exists t | t in finished && t in j.nodeOf :: j.nodeOf[t] == n
  }

  /** Stored results are those of finished tasks whose node had no output, and are right. */
  ghost predicate TempInv(
      j: Job, op: Operation, rank: map<int, nat>, finished: set<nat>, temp: map<int, Output>)
    requires Ordered(j.graph, rank) && Sound(j)
  {
    && (forall n | n in temp :: n in j.graph && j.graph[n].cached.None? && FinishedNode(j, finished, n))
    && (forall t | t in finished :: t in j.nodeOf && Stored(j, op, rank, temp, j.nodeOf[t]))
  }

  ghost predicate OutcomeInv(
      j: Job, op: Operation, rank: map<int, nat>, finished: set<nat>, outcome: map<nat, Result<Option<Output>>>)
    requires Ordered(j.graph, rank) && Sound(j)
  {
    && (forall t | t in outcome :: t in j.nodeOf && outcome[t] == Expected(j, op, rank, j.nodeOf[t]))
    && (forall t | t in finished :: t in outcome && outcome[t].Ok?)
  }

  ghost predicate Inv(j: Job, op: Operation, rank: map<int, nat>, s: State)
    requires Ordered(j.graph, rank) && Sound(j)
  {
    && S.Inv(j.plan, s.sched)
    && TempInv(j, op, rank, s.sched.finished, s.temp)
    && OutcomeInv(j, op, rank, s.sched.finished, s.outcome)
  }

  /** All dependencies of task `t` have finished. */
  ghost predicate DependenciesDone(p: S.Plan, finished: set<nat>, t: nat) {
    forall e | 0 <= e < |p.edges| && p.edges[e].to == t :: p.edges[e].from in finished
  }

  lemma StartedAfterDependencies(p: S.Plan, s: S.State, t: nat)
    requires S.Inv(p, s) && t in s.started
    ensures DependenciesDone(p, s.finished, t)
  {
    assert t in s.found;
    assert s.found[t] == B(t in p.active && |S.Unreleased(p, s.released, t)| == 0);
    forall e | 0 <= e < |p.edges| && p.edges[e].to == t ensures p.edges[e].from in s.finished {
      assert e !in S.Unreleased(p, s.released, t);
    }
  }

  /** A producer that has an output, cached or stored, shows its evaluation to its consumers. */
  lemma ProducerShowsEvaluation(
      j: Job, op: Operation, rank: map<int, nat>, finished: set<nat>, temp: map<int, Output>, n: int, u: int)
    requires Ordered(j.graph, rank) && Sound(j) && TempInv(j, op, rank, finished, temp)
    requires n in j.graph && u in j.graph && IsUpstream(j.graph[n], u)
    requires j.graph[u].cached.Some? || FinishedNode(j, finished, u)
    ensures Upstream(j.graph, temp, u).Some?
    ensures Upstream(j.graph, temp, u) == Upstream(j.graph, EvalInputs(j, op, rank, n), u)
  {
    if j.graph[u].cached.Some? {
      assert Eval(j, op, rank, u) == Ok(j.graph[u].cached.value);
    } else {
      assert Stored(j, op, rank, temp, u);
    }
  }

  /** Every producer of a started task has an output. */
  lemma ProducerIsDone(j: Job, finished: set<nat>, t: nat, u: int)
    requires Sound(j) && DependenciesDone(j.plan, finished, t) && t in j.nodeOf
    requires j.graph[j.nodeOf[t]].cached.None? && IsUpstream(j.graph[j.nodeOf[t]], u)
    ensures u in j.graph && (j.graph[u].cached.Some? || FinishedNode(j, finished, u))
  {
    if j.graph[u].cached.None? {
      var e :| 0 <= e < |j.plan.edges| && j.plan.edges[e].to == t && j.plan.edges[e].from in j.nodeOf
               && j.nodeOf[j.plan.edges[e].from] == u;
      assert j.plan.edges[e].from in finished;
    }
  }

  lemma NotStoredUntilFinished(j: Job, finished: set<nat>, t: nat)
    requires Sound(j) && t in j.nodeOf && t !in finished
    ensures !FinishedNode(j, finished, j.nodeOf[t])
  {
    forall x | x in finished && x in j.nodeOf ensures j.nodeOf[x] != j.nodeOf[t] {
      assert x != t;
    }
  }

  /** A task's body gives what evaluation gives, and never finds an input missing. */
  lemma BodyIsEvaluation(j: Job, op: Operation, rank: map<int, nat>, s: State, t: nat)
    requires Ordered(j.graph, rank) && Sound(j) && Inv(j, op, rank, s) && Enabled(j, s, Compute(t))
    ensures TaskOutcome(j, op, s.temp, j.nodeOf[t]) == Expected(j, op, rank, j.nodeOf[t])
    ensures TaskOutcome(j, op, s.temp, j.nodeOf[t]) != Err(InputNotReady)
  {
    var n := j.nodeOf[t];
    NotStoredUntilFinished(j, s.sched.finished, t);
    if j.graph[n].cached.None? {
      var inputs := EvalInputs(j, op, rank, n);
      StartedAfterDependencies(j.plan, s.sched, t);
      forall u | IsUpstream(j.graph[n], u)
        ensures Upstream(j.graph, s.temp, u) == Upstream(j.graph, inputs, u) && Upstream(j.graph, s.temp, u).Some?
      {
        ProducerIsDone(j, s.sched.finished, t, u);
        ProducerShowsEvaluation(j, op, rank, s.sched.finished, s.temp, n, u);
      }
      ResultDependsOnInputs(j.graph, s.temp, inputs, j.resolved, op, n);
      ReadyNodeIsNotBlocked(j.graph, s.temp, j.resolved, op, n);
    }
  }

  lemma StoreKeepsTemp(
      j: Job, op: Operation, rank: map<int, nat>, finished: set<nat>, temp: map<int, Output>, t: nat)
    requires Ordered(j.graph, rank) && Sound(j) && TempInv(j, op, rank, finished, temp)
    requires t in j.nodeOf && t !in finished && Expected(j, op, rank, j.nodeOf[t]).Ok?
    ensures var o := Expected(j, op, rank, j.nodeOf[t]).value;
            TempInv(j, op, rank, finished + {t}, if o.Some? then temp[j.nodeOf[t] := o.value] else temp)
  {
    var n := j.nodeOf[t];
    var o := Expected(j, op, rank, n).value;
    var temp' := if o.Some? then temp[n := o.value] else temp;
    NotStoredUntilFinished(j, finished, t);
    forall x | x in finished + {t} ensures x in j.nodeOf && Stored(j, op, rank, temp', j.nodeOf[x]) {
      if x != t {
        assert Stored(j, op, rank, temp, j.nodeOf[x]);
      }
    }
    forall m | m in temp' ensures FinishedNode(j, finished + {t}, m) {
      if m != n {
        var x :| x in finished && x in j.nodeOf && j.nodeOf[x] == m;
        assert x in finished + {t};
      } else {
        assert t in finished + {t};
      }
    }
  }

  lemma CompleteKeeps(j: Job, op: Operation, rank: map<int, nat>, s: State, t: nat)
    requires Ordered(j.graph, rank) && Sound(j) && Inv(j, op, rank, s) && Enabled(j, s, Complete(t))
    ensures Inv(j, op, rank, Apply(j, op, s, Complete(t)))
  {
    S.StepKeepsInv(j.plan, s.sched, S.Finish(t));
    StoreKeepsTemp(j, op, rank, s.sched.finished, s.temp, t);
  }

  lemma ScheduleFrame(p: S.Plan, s: S.State, a: S.Step)
    requires S.Enabled(p, s, a) && !a.Finish?
    ensures S.Apply(p, s, a).finished == s.finished
  {
  }

  lemma StepKeepsInv(j: Job, op: Operation, rank: map<int, nat>, s: State, step: Step)
    requires Ordered(j.graph, rank) && Sound(j) && Inv(j, op, rank, s) && Enabled(j, s, step)
    ensures Inv(j, op, rank, Apply(j, op, s, step))
  {
    match step
    case Schedule(a) =>
      S.StepKeepsInv(j.plan, s.sched, a);
      ScheduleFrame(j.plan, s.sched, a);
    case Compute(t) => BodyIsEvaluation(j, op, rank, s, t);
    case Complete(t) => CompleteKeeps(j, op, rank, s, t);
  }

  // ---------------------------------------------------------------------- whole runs

  ghost predicate Takes(j: Job, op: Operation, s: State, step: Step, s': State) {
    Enabled(j, s, step) && s' == Apply(j, op, s, step)
  }

  ghost predicate IsRun(j: Job, op: Operation, states: seq<State>, steps: seq<Step>) {
    && |states| == |steps| + 1
    && states[0] == Init(j)
    && (forall i: nat | i < |steps| :: Takes(j, op, states[i], steps[i], states[i + 1]))
  }

  lemma InitKeepsInv(j: Job, op: Operation, rank: map<int, nat>)
    requires Ordered(j.graph, rank) && Sound(j)
    ensures Inv(j, op, rank, Init(j))
  {
    S.InitInv(j.plan);
  }

  lemma RunStepKeepsInv(
      j: Job, op: Operation, rank: map<int, nat>, states: seq<State>, steps: seq<Step>, i: nat)
    requires Ordered(j.graph, rank) && Sound(j) && IsRun(j, op, states, steps) && i < |steps|
    requires Inv(j, op, rank, states[i])
    ensures Inv(j, op, rank, states[i + 1])
  {
    assert Takes(j, op, states[i], steps[i], states[i + 1]);
    StepKeepsInv(j, op, rank, states[i], steps[i]);
  }

  lemma {:induction false} RunKeepsInv(
      j: Job, op: Operation, rank: map<int, nat>, states: seq<State>, steps: seq<Step>, i: nat)
    requires Ordered(j.graph, rank) && Sound(j) && IsRun(j, op, states, steps) && i <= |steps|
    ensures Inv(j, op, rank, states[i])
  {
    if i == 0 {
      InitKeepsInv(j, op, rank);
    } else {
      RunKeepsInv(j, op, rank, states, steps, i - 1);
      RunStepKeepsInv(j, op, rank, states, steps, i - 1);
    }
  }

  /**
    In every state of every schedule, a stored result is the node's evaluation,
    and a task that fails fails exactly as evaluation of its node fails, never
    for want of an input.
   */
  lemma EveryScheduleEvaluates(
      j: Job, op: Operation, rank: map<int, nat>, states: seq<State>, steps: seq<Step>, i: nat, t: nat)
    requires Ordered(j.graph, rank) && Sound(j) && IsRun(j, op, states, steps) && i <= |steps| && t in j.nodeOf
    ensures var s := states[i]; var n := j.nodeOf[t];
            && (n in s.temp ==> Eval(j, op, rank, n) == Ok(s.temp[n]))
            && (t in s.outcome && s.outcome[t].Err? ==> Eval(j, op, rank, n) == Err(s.outcome[t].fault))
            && (t in s.outcome ==> s.outcome[t] != Err(InputNotReady))
  {
    RunKeepsInv(j, op, rank, states, steps, i);
    var s, n := states[i], j.nodeOf[t];
    if n in s.temp {
      assert FinishedNode(j, s.sched.finished, n);
      assert Stored(j, op, rank, s.temp, n);
    }
    if t in s.outcome {
      assert s.outcome[t] == Expected(j, op, rank, n);
      OutcomeIsNotBlocked(j, op, rank, states, steps, i, t);
    }
  }

  lemma {:induction false} OutcomeIsNotBlocked(
      j: Job, op: Operation, rank: map<int, nat>, states: seq<State>, steps: seq<Step>, i: nat, t: nat)
    requires Ordered(j.graph, rank) && Sound(j) && IsRun(j, op, states, steps) && i <= |steps|
    requires t in states[i].outcome
    ensures states[i].outcome[t] != Err(InputNotReady)
  {
    if i > 0 {
      assert Takes(j, op, states[i - 1], steps[i - 1], states[i]);
      if t in states[i - 1].outcome {
        OutcomeIsNotBlocked(j, op, rank, states, steps, i - 1, t);
      } else {
        RunKeepsInv(j, op, rank, states, steps, i - 1);
        BodyIsEvaluation(j, op, rank, states[i - 1], t);
      }
    }
  }

  ghost predicate Stuck(j: Job, s: State) { forall step :: !Enabled(j, s, step) }

  ghost predicate NoFailure(s: State) { forall t | t in s.outcome :: s.outcome[t].Ok? }

  lemma NothingLeftToSchedule(j: Job, s: State)
    requires Sound(j) && Stuck(j, s) && NoFailure(s) && s.sched.started <= j.plan.active
    ensures S.Stuck(j.plan, s.sched)
  {
    forall step ensures !S.Enabled(j.plan, s.sched, step) {
      if step.Finish? {
        assert !Enabled(j, s, Compute(step.task)) && !Enabled(j, s, Complete(step.task));
      } else {
        assert !Enabled(j, s, Schedule(step));
      }
    }
  }

  lemma StuckIsDone(j: Job, s: State, t: nat)
    requires Sound(j) && S.Inv(j.plan, s.sched)
    requires S.Acyclic(j.plan) && Stuck(j, s) && NoFailure(s) && t in j.nodeOf
    ensures t in s.sched.finished
  {
    NothingLeftToSchedule(j, s);
    var ranks :| S.Ranks(j.plan, ranks);
    S.StuckMeansFinished(j.plan, s.sched, ranks, t);
  }

  /**
    Whether a schedule that is carried to its end succeeds does not depend on
    the schedule: it does exactly when every planned node evaluates.
   */
  lemma SuccessIsScheduleIndependent(
      j: Job, op: Operation, rank: map<int, nat>, states: seq<State>, steps: seq<Step>)
    requires Ordered(j.graph, rank) && Sound(j) && IsRun(j, op, states, steps)
    requires S.Acyclic(j.plan) && Stuck(j, states[|steps|])
    ensures NoFailure(states[|steps|]) <==> forall t | t in j.nodeOf :: Eval(j, op, rank, j.nodeOf[t]).Ok?
  {
    var s := states[|steps|];
    RunKeepsInv(j, op, rank, states, steps, |steps|);
    if NoFailure(s) {
      forall t | t in j.nodeOf ensures Eval(j, op, rank, j.nodeOf[t]).Ok? {
        StuckIsDone(j, s, t);
        assert Stored(j, op, rank, s.temp, j.nodeOf[t]);
      }
    }
  }

  // --------------------------------------------------------------------- after commit

  /** The temporary results in execution order. */
  function Slots(order: seq<int>, temp: map<int, Output>): (q: seq<Option<Output>>)
    ensures |q| == |order|
    ensures forall i | 0 <= i < |order| :: q[i] == if order[i] in temp then Some(temp[order[i]]) else None
  {
    if order == [] then []
    else Slots(order[..|order| - 1], temp)
         + [if order[|order| - 1] in temp then Some(temp[order[|order| - 1]]) else None]
  }

  lemma {:induction false} PopulatedOnce(order: seq<int>, q: seq<Option<Output>>, i: nat, id: int)
    requires i <= |order| <= |q| && forall a, b | 0 <= a < b < |order| :: order[a] != order[b]
    ensures Populated(order, q, i, id) <= 1
    ensures Populated(order, q, i, id) == 1 <==> exists k | 0 <= k < i :: order[k] == id && q[k].Some?
  {
    if i > 0 {
      PopulatedOnce(order, q, i - 1, id);
    }
  }

  /**
    After any successful schedule and the commit, every planned node holds its
    evaluation; its version rose by one if it was computed and not at all if it
    was already cached; and every other node is untouched.
   */
  lemma CommittedGraphIsEvaluation(
      j: Job, op: Operation, rank: map<int, nat>, states: seq<State>, steps: seq<Step>, n: int)
    requires Ordered(j.graph, rank) && Sound(j) && IsRun(j, op, states, steps)
    requires S.Acyclic(j.plan) && Stuck(j, states[|steps|]) && NoFailure(states[|steps|])
    requires forall a, b | 0 <= a < b < |j.order| :: j.order[a] != j.order[b]
    requires n in j.graph
    ensures var h := CommitUpTo(j.graph, j.order, Slots(j.order, states[|steps|].temp), |j.order|);
            && h.Keys == j.graph.Keys
            && (n in j.nodeOf.Values ==> Eval(j, op, rank, n).Ok? && h[n].cached == Some(Eval(j, op, rank, n).value))
            && h[n].version == j.graph[n].version +
                 (if n in j.nodeOf.Values && j.graph[n].cached.None? then 1 else 0)
            && (n !in j.nodeOf.Values || j.graph[n].cached.Some? ==> h[n] == j.graph[n])
  {
    var s := states[|steps|];
    var q := Slots(j.order, s.temp);
    RunKeepsInv(j, op, rank, states, steps, |steps|);
    CommitMeaning(j.graph, j.order, q, |j.order|, n);
    PopulatedOnce(j.order, q, |j.order|, n);
    if n in s.temp {
      assert FinishedNode(j, s.sched.finished, n);
      assert Stored(j, op, rank, s.temp, n);
      var k :| 0 <= k < |j.order| && j.order[k] == n;
      assert q[k].Some?;
    }
    if n in j.nodeOf.Values {
      var t :| t in j.nodeOf && j.nodeOf[t] == n;
      StuckIsDone(j, s, t);
      assert Stored(j, op, rank, s.temp, n);
    }
  }

  /**
    Schedule independence from the task lists alone: any successful schedule of
    a plan built from lists that name every planned producer commits exactly
    what sequential recursive evaluation gives.
   */
  lemma BuiltPlanCommitsEvaluation(
      j: Job, tasks: seq<Task>, active: Activity, o: Override, op: Operation, rank: map<int, nat>,
      states: seq<State>, steps: seq<Step>, t: nat)
    requires BuiltFrom(j, tasks, active, o) && Ordered(j.graph, rank) && IsRun(j, op, states, steps)
    requires S.Acyclic(j.plan) && Stuck(j, states[|steps|]) && NoFailure(states[|steps|])
    requires forall a, b | 0 <= a < b < |j.order| :: j.order[a] != j.order[b]
    requires t in j.nodeOf
    ensures var n := j.nodeOf[t];
            var h := CommitUpTo(j.graph, j.order, Slots(j.order, states[|steps|].temp), |j.order|);
            n in h && Eval(j, op, rank, n).Ok? && h[n].cached == Some(Eval(j, op, rank, n).value)
            && h[n].version == j.graph[n].version + (if j.graph[n].cached.None? then 1 else 0)
  {
    BuiltIsSound(j, tasks, active, o);
    CommittedGraphIsEvaluation(j, op, rank, states, steps, j.nodeOf[t]);
  }
}
