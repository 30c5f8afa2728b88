/**
  The dependency scheduler under any interleaving: workers start submitted
  tasks, finish them, lower one counter at a time for each waiting occurrence,
  and submit the tasks whose counter they took to zero.
 */
module Scheduler {
  import opened Counting
  import opened TaskDependency

  /** `size` tasks numbered from zero, the active ones, and the active dependency occurrences. */
  datatype Plan = Plan(size: nat, active: set<nat>, edges: seq<Edge>)

  ghost predicate ValidPlan(p: Plan) {
    && (forall t | t in p.active :: t < p.size)
    && (forall i | 0 <= i < |p.edges| :: p.edges[i].from in p.active && p.edges[i].to in p.active)
  }

  /** The plan that TaskDependencyState is built for: its active flags and its occurrences. */
  function PlanOf(tasks: seq<Task>, active: Activity, o: Override): (p: Plan) {
    Plan(|tasks|, set k | 0 <= k < |tasks| && IsActive(|tasks|, active, tasks[k].id) :: tasks[k].id,
         Edges(tasks, active, o, |tasks|))
  }

  /** A dense plan never waits for a task that cannot run. */
  lemma DensePlanIsValid(tasks: seq<Task>, active: Activity, o: Override)
    requires forall i | 0 <= i < |tasks| :: tasks[i].id == i
    ensures ValidPlan(PlanOf(tasks, active, o))
  {
    EdgesInRange(tasks, active, o, |tasks|);
    var p := PlanOf(tasks, active, o);
    forall t: nat | IsActive(|tasks|, active, t) ensures t in p.active {
      assert tasks[t].id == t;
    }
  }

  datatype State = State(
    counters: map<nat, int>,
    released: set<nat>,            // positions of the occurrences already released
    found: multiset<nat>,          // tasks found ready, initially or by a release
    submitted: set<nat>,
    started: set<nat>,
    finished: set<nat>)

  datatype Step =
    | Submit(task: nat)
    | Start(task: nat)
    | Finish(task: nat)
    | ReleaseOne(edge: nat)

  /** Occurrences into `t` not yet released. */
  function Unreleased(p: Plan, released: set<nat>, t: nat): (a: set<nat>) {
    set i | 0 <= i < |p.edges| && i !in released && p.edges[i].to == t
  }

  /** The counters as built, and every active task whose counter is zero found ready. */
  function Init(p: Plan): (s: State) {
    State(map t | t in p.active :: InCount(p.edges, t), {},
          multiset(set t | t in p.active && InCount(p.edges, t) == 0), {}, {}, {})
  }

  predicate Enabled(p: Plan, s: State, step: Step) {
    match step
    case Submit(t) => t in s.found && t !in s.submitted
    case Start(t) => t in s.submitted && t !in s.started
    case Finish(t) => t in s.started && t !in s.finished
    case ReleaseOne(i) =>
      i < |p.edges| && i !in s.released && p.edges[i].from in s.finished && p.edges[i].to in s.counters
  }

  function Apply(p: Plan, s: State, step: Step): (s': State)
    requires Enabled(p, s, step)
  {
    match step
    case Submit(t) => s.(submitted := s.submitted + {t})
    case Start(t) => s.(started := s.started + {t})
    case Finish(t) => s.(finished := s.finished + {t})
    case ReleaseOne(i) =>
      var t := p.edges[i].to;
      var previous := s.counters[t];
      s.(counters := s.counters[t := previous - 1],
         released := s.released + {i},
         found := if previous == 1 then s.found + multiset{t} else s.found)
  }

  // --------------------------------------------------------------------- invariant

  /** Each counter is the number of unreleased occurrences; a task is found once, when it reaches zero. */
  ghost predicate CounterInv(p: Plan, s: State) {
    && s.counters.Keys == p.active
    && (forall t | t in p.active :: s.counters[t] == |Unreleased(p, s.released, t)|)
    && (forall t: nat :: s.found[t] == B(t in p.active && |Unreleased(p, s.released, t)| == 0))
  }

  ghost predicate OrderInv(p: Plan, s: State) {
    && s.finished <= s.started <= s.submitted <= p.active
    && (forall t | t in s.submitted :: t in s.found)
    && (forall i | i in s.released :: i < |p.edges| && p.edges[i].from in s.finished)
  }

  ghost predicate Inv(p: Plan, s: State) {
    CounterInv(p, s) && OrderInv(p, s)
  }

  lemma {:induction false} InCountIsSize(p: Plan, n: nat, t: nat)
    requires n <= |p.edges|
    ensures InCount(p.edges[..n], t) == |set i | 0 <= i < n && p.edges[i].to == t|
  {
    var a := set i | 0 <= i < n && p.edges[i].to == t;
    if n == 0 {
      assert a == {};
    } else {
      InCountIsSize(p, n - 1, t);
      var b := set i | 0 <= i < n - 1 && p.edges[i].to == t;
      assert p.edges[..n][..n - 1] == p.edges[..n - 1];
      if p.edges[n - 1].to == t {
        assert a == b + {n - 1};
      } else {
        assert a == b;
      }
    }
  }

  /** The built counters count the occurrences. */
  lemma InitialCounters(p: Plan, t: nat)
    ensures InCount(p.edges, t) == |Unreleased(p, {}, t)|
  {
    InCountIsSize(p, |p.edges|, t);
    assert p.edges[..|p.edges|] == p.edges;
    assert Unreleased(p, {}, t) == set i | 0 <= i < |p.edges| && p.edges[i].to == t;
  }

  lemma InitInv(p: Plan)
    requires ValidPlan(p)
    ensures Inv(p, Init(p))
  {
    forall t: nat ensures InCount(p.edges, t) == |Unreleased(p, {}, t)| {
      InitialCounters(p, t);
    }
  }

  lemma ReleaseSets(p: Plan, released: set<nat>, i: nat, t: nat)
    requires i < |p.edges| && i !in released
    ensures i in Unreleased(p, released, p.edges[i].to)
    ensures Unreleased(p, released + {i}, t) ==
              if t == p.edges[i].to then Unreleased(p, released, t) - {i} else Unreleased(p, released, t)
  {
  }

  lemma ReleaseKeepsCounters(p: Plan, s: State, i: nat)
    requires ValidPlan(p) && CounterInv(p, s) && Enabled(p, s, ReleaseOne(i))
    ensures CounterInv(p, Apply(p, s, ReleaseOne(i)))
  {
    var s' := Apply(p, s, ReleaseOne(i));
    forall t: nat
      ensures t in p.active ==> s'.counters[t] == |Unreleased(p, s'.released, t)|
      ensures s'.found[t] == B(t in p.active && |Unreleased(p, s'.released, t)| == 0)
    {
      ReleaseSets(p, s.released, i, t);
      assert s.found[t] == B(t in p.active && |Unreleased(p, s.released, t)| == 0);
    }
  }

  lemma StepKeepsInv(p: Plan, s: State, step: Step)
    requires ValidPlan(p) && Inv(p, s) && Enabled(p, s, step)
    ensures Inv(p, Apply(p, s, step))
  {
    if step.ReleaseOne? {
      ReleaseKeepsCounters(p, s, step.edge);
    } else if step.Submit? {
      assert s.found[step.task] == B(step.task in p.active && |Unreleased(p, s.released, step.task)| == 0);
    }
  }

  // ---------------------------------------------------------------------- whole runs

  ghost predicate Takes(p: Plan, s: State, step: Step, s': State) {
    Enabled(p, s, step) && s' == Apply(p, s, step)
  }

  ghost predicate IsRun(p: Plan, states: seq<State>, steps: seq<Step>) {
    && ValidPlan(p)
    && |states| == |steps| + 1
    && states[0] == Init(p)
    && (forall i: nat | i < |steps| :: Takes(p, states[i], steps[i], states[i + 1]))
  }

  lemma {:induction false} RunKeepsInv(p: Plan, states: seq<State>, steps: seq<Step>, i: nat)
    requires IsRun(p, states, steps) && i <= |steps|
    ensures Inv(p, states[i])
  {
    if i == 0 {
      InitInv(p);
    } else {
      RunKeepsInv(p, states, steps, i - 1);
      assert Takes(p, states[i - 1], steps[i - 1], states[i]);
      StepKeepsInv(p, states[i - 1], steps[i - 1]);
    }
  }

  /**
    In every reachable state a counter is the number of unreleased active
    occurrences of its task, duplicates included; a task is found ready at most
    once, only if active, and only after every dependency has finished.
   */
  lemma ReadyOnceAfterDependencies(p: Plan, states: seq<State>, steps: seq<Step>, i: nat, t: nat, e: nat)
    requires IsRun(p, states, steps) && i <= |steps|
    ensures var s := states[i];
            && (t in p.active ==> t in s.counters && s.counters[t] == |Unreleased(p, s.released, t)|)
            && s.found[t] <= B(t in p.active)
            && (t in s.found && e < |p.edges| && p.edges[e].to == t ==> p.edges[e].from in s.finished)
  {
    RunKeepsInv(p, states, steps, i);
    var s := states[i];
    assert s.found[t] == B(t in p.active && |Unreleased(p, s.released, t)| == 0);
    if t in s.found && e < |p.edges| && p.edges[e].to == t {
      assert e !in Unreleased(p, s.released, t);
    }
  }

  /** Every dependency has a smaller rank than the task that waits for it. */
  ghost predicate Ranks(p: Plan, rank: map<nat, nat>) {
    && (forall t | t in p.active :: t in rank)
    && (forall i | 0 <= i < |p.edges| :: p.edges[i].from in rank && p.edges[i].to in rank
                                         && rank[p.edges[i].from] < rank[p.edges[i].to])
  }

  ghost predicate Acyclic(p: Plan) { exists rank :: Ranks(p, rank) }

  ghost predicate Stuck(p: Plan, s: State) { forall step :: !Enabled(p, s, step) }

  lemma {:induction false} StuckMeansFinished(p: Plan, s: State, rank: map<nat, nat>, t: nat)
    requires ValidPlan(p) && Inv(p, s) && Ranks(p, rank) && Stuck(p, s) && t in p.active
    ensures t in s.finished
    decreases rank[t]
  {
    forall i | i in Unreleased(p, s.released, t) ensures false {
      StuckMeansFinished(p, s, rank, p.edges[i].from);
      assert Enabled(p, s, ReleaseOne(i));
    }
    assert Unreleased(p, s.released, t) == {};
    assert s.found[t] == B(t in p.active && |Unreleased(p, s.released, t)| == 0);
    assert !Enabled(p, s, Submit(t)) && !Enabled(p, s, Start(t)) && !Enabled(p, s, Finish(t));
  }

  /** On an acyclic plan a run that cannot go on has finished every active task. */
  lemma NoStall(p: Plan, states: seq<State>, steps: seq<Step>)
    requires IsRun(p, states, steps) && Acyclic(p) && Stuck(p, states[|steps|])
    ensures states[|steps|].finished == p.active
  {
    RunKeepsInv(p, states, steps, |steps|);
    var rank :| Ranks(p, rank);
    forall t | t in p.active ensures t in states[|steps|].finished {
      StuckMeansFinished(p, states[|steps|], rank, t);
    }
  }

  /** How far a state has come. */
  function Progress(s: State): (n: nat) {
    |s.released| + |s.submitted| + |s.started| + |s.finished|
  }

  lemma StepProgress(p: Plan, s: State, step: Step)
    requires Enabled(p, s, step)
    ensures Progress(Apply(p, s, step)) == Progress(s) + 1
  {
  }

  lemma {:induction false} RunProgress(p: Plan, states: seq<State>, steps: seq<Step>, i: nat)
    requires IsRun(p, states, steps) && i <= |steps|
    ensures Progress(states[i]) == i
  {
    if i > 0 {
      RunProgress(p, states, steps, i - 1);
      assert Takes(p, states[i - 1], steps[i - 1], states[i]);
      StepProgress(p, states[i - 1], steps[i - 1]);
    }
  }

  /** The numbers below `n`. */
  function Below(n: nat): (a: set<nat>) {
    if n == 0 then {} else Below(n - 1) + {n - 1}
  }

  lemma {:induction false} BelowSize(n: nat)
    ensures |Below(n)| == n && forall i: nat :: i in Below(n) <==> i < n
  {
    if n > 0 {
      BelowSize(n - 1);
    }
  }

  /**
    Every run is finite, and on an acyclic plan every run that is carried to its
    end takes exactly one step per dependency occurrence and three per task.
   */
  lemma RunsEnd(p: Plan, states: seq<State>, steps: seq<Step>)
    requires IsRun(p, states, steps)
    ensures |steps| <= |p.edges| + 3 * |p.active|
    ensures Acyclic(p) && Stuck(p, states[|steps|]) ==> |steps| == |p.edges| + 3 * |p.active|
  {
    var s := states[|steps|];
    RunKeepsInv(p, states, steps, |steps|);
    RunProgress(p, states, steps, |steps|);
    var all := Below(|p.edges|);
    BelowSize(|p.edges|);
    SubsetSize(s.released, all);
    SubsetSize(s.submitted, p.active);
    SubsetSize(s.started, p.active);
    SubsetSize(s.finished, p.active);
    if Acyclic(p) && Stuck(p, s) {
      NoStall(p, states, steps);
      forall i | i in all ensures i in s.released {
        assert !Enabled(p, s, ReleaseOne(i));
      }
      assert s.released == all && s.submitted == p.active && s.started == p.active;
    }
  }

  // ------------------------------------------------- the loop and the interleaved steps

  /** Occurrences that wait for `d`. */
  function EdgesFrom(p: Plan, d: nat): (a: set<nat>) {
    set i | 0 <= i < |p.edges| && p.edges[i].from == d
  }

  /** Occurrences among the first `n` in which `t` waits for `d`. */
  function Between(p: Plan, n: nat, d: nat, t: nat): (a: set<nat>)
    requires n <= |p.edges|
  {
    set i | 0 <= i < n && p.edges[i].from == d && p.edges[i].to == t
  }

  lemma OneMoreBetween(p: Plan, n: nat, d: nat, t: nat)
    requires n < |p.edges|
    ensures |Between(p, n + 1, d, t)| == |Between(p, n, d, t)| + B(p.edges[n] == Edge(d, t))
  {
    if p.edges[n] == Edge(d, t) {
      assert Between(p, n + 1, d, t) == Between(p, n, d, t) + {n};
    } else {
      assert Between(p, n + 1, d, t) == Between(p, n, d, t);
    }
  }

  lemma {:induction false} DependentsCount(p: Plan, n: nat, d: nat, t: nat)
    requires n <= |p.edges|
    ensures CountOf(DependentsOf(p.edges[..n], d), t) == |Between(p, n, d, t)|
  {
    if n > 0 {
      DependentsCount(p, n - 1, d, t);
      OneMoreBetween(p, n - 1, d, t);
      assert p.edges[..n] == p.edges[..n - 1] + [p.edges[n - 1]];
      OneMoreEdge(p.edges[..n - 1], p.edges[n - 1], d);
      var q := DependentsOf(p.edges[..n - 1], d);
      assert q + [] == q;
      OneMoreCount(q, p.edges[n - 1].to, t);
    }
  }

  lemma ReleasedTogether(p: Plan, released: set<nat>, d: nat, t: nat)
    requires released !! EdgesFrom(p, d)
    ensures |Unreleased(p, released + EdgesFrom(p, d), t)| ==
              |Unreleased(p, released, t)| - |Between(p, |p.edges|, d, t)|
  {
    var before, after := Unreleased(p, released, t), Unreleased(p, released + EdgesFrom(p, d), t);
    var gone := Between(p, |p.edges|, d, t);
    assert forall i | i in gone :: i in EdgesFrom(p, d);
    assert before == after + gone && after !! gone;
  }

  /**
    release_dependents run to its end by one thread leaves the counters that the
    single releases of all of the task's occurrences, in any order, leave.
   */
  lemma LoopIsSingleReleases(p: Plan, s: State, c: seq<int>, d: nat, t: nat)
    requires ValidPlan(p) && CounterInv(p, s) && |c| == p.size && t in p.active
    requires c[t] == s.counters[t]
    requires s.released !! EdgesFrom(p, d)
    requires forall i | 0 <= i < |DependentsOf(p.edges, d)| :: DependentsOf(p.edges, d)[i] < |c|
    ensures Release(c, DependentsOf(p.edges, d)).0[t] == |Unreleased(p, s.released + EdgesFrom(p, d), t)|
  {
    ReleaseMeaning(c, DependentsOf(p.edges, d), t);
    DependentsCount(p, |p.edges|, d, t);
    assert p.edges[..|p.edges|] == p.edges;
    ReleasedTogether(p, s.released, d, t);
  }
}
