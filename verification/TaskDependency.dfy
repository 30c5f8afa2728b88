/**
  TaskDependencyState (compute_task_dependency_state.cpp): dependency counters,
  dependents lists and active flags built by loops from a task graph, the
  initial ready test, and the release loop of a completed task.
 */
module TaskDependency {
  import opened Options

  /** A planned task; ids need not be positions and dependencies may repeat or lie outside the plan. */
  datatype Task = Task(id: int, deps: seq<int>)

  /** One active dependency occurrence: `to` waits for `from`. */
  datatype Edge = Edge(from: nat, to: nat)

  /** The active tasks, or None when every planned task is. */
  type Activity = Option<set<int>>

  /** The plan's own dependencies, or a table indexed by task id that replaces them. */
  type Override = Option<seq<seq<int>>>

  predicate IsActive(n: nat, active: Activity, id: int) {
    0 <= id < n && (active.None? || id in active.value)
  }

  /** The table lookup `at` succeeds. */
  predicate HasDeps(o: Override, id: int) {
    o.None? || 0 <= id < |o.value|
  }

  /** The dependencies that count for a task; none where the table has no entry. */
  function DepsOf(o: Override, t: Task): (d: seq<int>) {
    if o.None? then t.deps else if HasDeps(o, t.id) then o.value[t.id] else []
  }

  predicate Buildable(tasks: seq<Task>, active: Activity, o: Override) {
    forall i | 0 <= i < |tasks| :: IsActive(|tasks|, active, tasks[i].id) ==> HasDeps(o, tasks[i].id)
  }

  /** The active occurrences among a task's first `j` dependencies, in order. */
  function TaskEdges(n: nat, active: Activity, id: nat, deps: seq<int>, j: nat): (e: seq<Edge>)
    requires j <= |deps|
  {
    if j == 0 then []
    else
      var e := TaskEdges(n, active, id, deps, j - 1);
      if IsActive(n, active, deps[j - 1]) then e + [Edge(deps[j - 1], id)] else e
  }

  /** All active occurrences of the first `i` tasks, in plan order. */
  function Edges(tasks: seq<Task>, active: Activity, o: Override, i: nat): (e: seq<Edge>)
    requires i <= |tasks|
  {
    if i == 0 then []
    else
      var e := Edges(tasks, active, o, i - 1);
      var t := tasks[i - 1];
      if IsActive(|tasks|, active, t.id)
      then e + TaskEdges(|tasks|, active, t.id, DepsOf(o, t), |DepsOf(o, t)|) else e
  }

  /** Number of occurrences that `x` waits for. */
  function InCount(e: seq<Edge>, x: nat): (n: nat) {
    if e == [] then 0 else InCount(e[..|e| - 1], x) + if e[|e| - 1].to == x then 1 else 0
  }

  /** Tasks waiting for `d`, one entry per occurrence. */
  function DependentsOf(e: seq<Edge>, d: nat): (q: seq<nat>) {
    if e == [] then []
    else DependentsOf(e[..|e| - 1], d) + if e[|e| - 1].from == d then [e[|e| - 1].to] else []
  }

  lemma OneMoreEdge(e: seq<Edge>, x: Edge, y: nat)
    ensures InCount(e + [x], y) == InCount(e, y) + if x.to == y then 1 else 0
    ensures DependentsOf(e + [x], y) == DependentsOf(e, y) + if x.from == y then [x.to] else []
  {
    assert (e + [x])[..|e|] == e;
  }

  lemma {:induction false} EdgesInRange(tasks: seq<Task>, active: Activity, o: Override, i: nat)
    requires i <= |tasks|
    ensures forall k | 0 <= k < |Edges(tasks, active, o, i)| ::
              var e := Edges(tasks, active, o, i)[k];
              IsActive(|tasks|, active, e.from) && IsActive(|tasks|, active, e.to)
  {
    if i > 0 {
      EdgesInRange(tasks, active, o, i - 1);
      var t := tasks[i - 1];
      if IsActive(|tasks|, active, t.id) {
        TaskEdgesInRange(|tasks|, active, t.id, DepsOf(o, t), |DepsOf(o, t)|);
      }
    }
  }

  lemma {:induction false} TaskEdgesInRange(n: nat, active: Activity, id: nat, deps: seq<int>, j: nat)
    requires j <= |deps|
    ensures forall k | 0 <= k < |TaskEdges(n, active, id, deps, j)| ::
              var e := TaskEdges(n, active, id, deps, j)[k]; IsActive(n, active, e.from) && e.to == id
  {
    if j > 0 {
      TaskEdgesInRange(n, active, id, deps, j - 1);
    }
  }

  // ------------------------------------------------------- what the build loop builds

  /** Every task's id is its position. */
  predicate Dense(tasks: seq<Task>) { forall i | 0 <= i < |tasks| :: tasks[i].id == i }

  /** The list that counts for the task at position `t` of a dense plan. */
  function ListOf(tasks: seq<Task>, o: Override, t: nat): (d: seq<int>)
    requires t < |tasks|
  {
    match o
    case None => tasks[t].deps
    case Some(table) => if t < |table| then table[t] else []
  }

  /** Positions of `d` in a dependency list. */
  function PositionsOf(deps: seq<int>, d: int): (a: set<int>) {
    set p | 0 <= p < |deps| && deps[p] == d
  }

  /** Positions of a dependency list that name an active task of the plan. */
  function ActivePositions(n: nat, active: Activity, deps: seq<int>): (a: set<int>) {
    set p | 0 <= p < |deps| && 0 <= deps[p] < n && (active.None? || deps[p] in active.value)
  }

  function EdgeCount(e: seq<Edge>, x: Edge): (n: nat) {
    if e == [] then 0 else EdgeCount(e[..|e| - 1], x) + if e[|e| - 1] == x then 1 else 0
  }

  lemma OneMoreCounted(e: seq<Edge>, x: Edge, y: Edge)
    ensures EdgeCount(e + [x], y) == EdgeCount(e, y) + if x == y then 1 else 0
  {
    assert (e + [x])[..|e|] == e;
  }

  lemma {:induction false} CountsAdd(a: seq<Edge>, b: seq<Edge>, x: Edge)
    ensures EdgeCount(a + b, x) == EdgeCount(a, x) + EdgeCount(b, x)
    ensures InCount(a + b, x.to) == InCount(a, x.to) + InCount(b, x.to)
    decreases |b|
  {
    if b == [] {
      assert a + b == a;
    } else {
      var c, y := b[..|b| - 1], b[|b| - 1];
      CountsAdd(a, c, x);
      assert a + b == (a + c) + [y] && b == c + [y];
      OneMoreCounted(a + c, y, x);
      OneMoreCounted(c, y, x);
      OneMoreEdge(a + c, y, x.to);
      OneMoreEdge(c, y, x.to);
    }
  }

  lemma OneMorePosition(deps: seq<int>, j: nat, d: int)
    requires j < |deps|
    ensures |PositionsOf(deps[..j + 1], d)| == |PositionsOf(deps[..j], d)| + if deps[j] == d then 1 else 0
  {
    var a, a' := PositionsOf(deps[..j], d), PositionsOf(deps[..j + 1], d);
    assert a' == if deps[j] == d then a + {j} else a;
  }

  lemma OneMoreActive(n: nat, active: Activity, deps: seq<int>, j: nat)
    requires j < |deps|
    ensures |ActivePositions(n, active, deps[..j + 1])| ==
              |ActivePositions(n, active, deps[..j])| + if IsActive(n, active, deps[j]) then 1 else 0
  {
    var b, b' := ActivePositions(n, active, deps[..j]), ActivePositions(n, active, deps[..j + 1]);
    assert b' == if IsActive(n, active, deps[j]) then b + {j} else b;
  }

  /** `e` has the edge `x` once per position that names its start among a task's first `j` dependencies. */
  predicate EdgesMatch(n: nat, active: Activity, id: nat, deps: seq<int>, j: nat, x: Edge, e: seq<Edge>)
    requires j <= |deps|
  {
    EdgeCount(e, x) == if x.to == id && IsActive(n, active, x.from) then |PositionsOf(deps[..j], x.from)| else 0
  }

  /** `e` has an edge into the task once per active position among its first `j` dependencies. */
  predicate WaitsMatch(n: nat, active: Activity, id: nat, deps: seq<int>, j: nat, to: nat, e: seq<Edge>)
    requires j <= |deps|
  {
    InCount(e, to) == if to == id then |ActivePositions(n, active, deps[..j])| else 0
  }

  function WithDependency(n: nat, active: Activity, id: nat, d: int, e: seq<Edge>): (e': seq<Edge>) {
    if IsActive(n, active, d) then e + [Edge(d, id)] else e
  }

  lemma OneMoreMatch(n: nat, active: Activity, id: nat, deps: seq<int>, j: nat, x: Edge, e: seq<Edge>)
    requires j < |deps| && EdgesMatch(n, active, id, deps, j, x, e)
    ensures EdgesMatch(n, active, id, deps, j + 1, x, WithDependency(n, active, id, deps[j], e))
  {
    OneMorePosition(deps, j, x.from);
    if IsActive(n, active, deps[j]) {
      OneMoreCounted(e, Edge(deps[j], id), x);
    }
  }

  lemma OneMoreWait(n: nat, active: Activity, id: nat, deps: seq<int>, j: nat, to: nat, e: seq<Edge>)
    requires j < |deps| && WaitsMatch(n, active, id, deps, j, to, e)
    ensures WaitsMatch(n, active, id, deps, j + 1, to, WithDependency(n, active, id, deps[j], e))
  {
    OneMoreActive(n, active, deps, j);
    if IsActive(n, active, deps[j]) {
      OneMoreEdge(e, Edge(deps[j], id), to);
    }
  }

  lemma {:induction false} TaskEdgesCount(n: nat, active: Activity, id: nat, deps: seq<int>, j: nat, x: Edge)
    requires j <= |deps|
    ensures EdgesMatch(n, active, id, deps, j, x, TaskEdges(n, active, id, deps, j))
    ensures WaitsMatch(n, active, id, deps, j, x.to, TaskEdges(n, active, id, deps, j))
  {
    if j == 0 {
      assert PositionsOf(deps[..0], x.from) == {} && ActivePositions(n, active, deps[..0]) == {};
    } else {
      var e := TaskEdges(n, active, id, deps, j - 1);
      TaskEdgesCount(n, active, id, deps, j - 1, x);
      OneMoreMatch(n, active, id, deps, j - 1, x, e);
      OneMoreWait(n, active, id, deps, j - 1, x.to, e);
    }
  }

  lemma {:induction false} EdgesCount(tasks: seq<Task>, active: Activity, o: Override, i: nat, x: Edge)
    requires i <= |tasks| && Dense(tasks)
    ensures var e := Edges(tasks, active, o, i);
            var listed := x.to < i && IsActive(|tasks|, active, x.to);
            && EdgeCount(e, x) ==
                 (if listed && IsActive(|tasks|, active, x.from) then |PositionsOf(DepsOf(o, tasks[x.to]), x.from)|
                  else 0)
            && InCount(e, x.to) ==
                 (if listed then |ActivePositions(|tasks|, active, DepsOf(o, tasks[x.to]))| else 0)
  {
    if i > 0 {
      EdgesCount(tasks, active, o, i - 1, x);
      var t := tasks[i - 1];
      if IsActive(|tasks|, active, t.id) {
        var deps := DepsOf(o, t);
        TaskEdgesCount(|tasks|, active, t.id, deps, |deps|, x);
        assert deps[..|deps|] == deps;
        CountsAdd(Edges(tasks, active, o, i - 1), TaskEdges(|tasks|, active, t.id, deps, |deps|), x);
      }
    }
  }

  lemma {:induction false} DependentsAreEdges(e: seq<Edge>, d: nat, t: nat)
    ensures CountOf(DependentsOf(e, d), t) == EdgeCount(e, Edge(d, t))
  {
    if e != [] {
      var c, y := e[..|e| - 1], e[|e| - 1];
      DependentsAreEdges(c, d, t);
      assert DependentsOf(c, d) + [] == DependentsOf(c, d);
      OneMoreCount(DependentsOf(c, d), y.to, t);
    }
  }

  lemma {:induction false} CountedIsThere(e: seq<Edge>, x: Edge)
    requires EdgeCount(e, x) > 0
    ensures exists i | 0 <= i < |e| :: e[i] == x
  {
    if e[|e| - 1] != x {
      CountedIsThere(e[..|e| - 1], x);
    }
  }

  /**
    With dense ids a task waits once for every position of its own dependency
    list that names an active task, and is listed by an active task once for
    every position that names it; an inactive task neither waits nor is listed.
   */
  lemma BuiltFromLists(tasks: seq<Task>, active: Activity, o: Override, d: nat, t: nat)
    requires Dense(tasks) && d < |tasks| && t < |tasks|
    ensures var e := Edges(tasks, active, o, |tasks|);
            var on := active.None? || t in active.value;
            && InCount(e, t) == (if on then |ActivePositions(|tasks|, active, ListOf(tasks, o, t))| else 0)
            && CountOf(DependentsOf(e, d), t) ==
                 (if on && (active.None? || d in active.value) then |PositionsOf(ListOf(tasks, o, t), d)| else 0)
            && EdgeCount(e, Edge(d, t)) == CountOf(DependentsOf(e, d), t)
  {
    EdgesCount(tasks, active, o, |tasks|, Edge(d, t));
    DependentsAreEdges(Edges(tasks, active, o, |tasks|), d, t);
  }

  // ---------------------------------------------------------------------- release

  /** The counters and the newly ready tasks after decrementing along `q`. */
  function Release(c: seq<int>, q: seq<nat>): (r: (seq<int>, seq<nat>))
    requires forall i | 0 <= i < |q| :: q[i] < |c|
    ensures |r.0| == |c|
  {
    if q == [] then (c, [])
    else
      var (d, ready) := Release(c, q[..|q| - 1]);
      var x := q[|q| - 1];
      (d[x := d[x] - 1], if d[x] == 1 then ready + [x] else ready)
  }

  function CountOf(q: seq<nat>, x: nat): (n: nat) {
    if q == [] then 0 else CountOf(q[..|q| - 1], x) + if q[|q| - 1] == x then 1 else 0
  }

  /**
    Releasing lowers a counter by the occurrences released; a task is reported
    ready at most once, and exactly when the release takes its counter from
    above zero to zero or below.
   */
  lemma {:induction false} ReleaseMeaning(c: seq<int>, q: seq<nat>, x: nat)
    requires x < |c| && forall i | 0 <= i < |q| :: q[i] < |c|
    ensures Release(c, q).0[x] == c[x] - CountOf(q, x)
    ensures CountOf(Release(c, q).1, x) == if 0 < c[x] <= CountOf(q, x) then 1 else 0
  {
    if q != [] {
      var p, y := q[..|q| - 1], q[|q| - 1];
      ReleaseMeaning(c, p, x);
      assert q == p + [y];
      OneMoreCount(p, y, x);
      OneMoreCount(Release(c, p).1, y, x);
    }
  }

  lemma OneMoreCount(q: seq<nat>, y: nat, x: nat)
    ensures CountOf(q + [y], x) == CountOf(q, x) + if y == x then 1 else 0
  {
    assert (q + [y])[..|q|] == q;
  }

  // -------------------------------------------------------------------- the object

  class TaskDependencyState {
    var counters: array<int>
    var dependents: array<seq<nat>>
    var active: array<bool>

    ghost predicate Valid()
      reads this, counters, dependents, active
    {
      && counters.Length == dependents.Length == active.Length
      && forall d, i | 0 <= d < dependents.Length && 0 <= i < |dependents[d]| ::
           dependents[d][i] < counters.Length
    }

    constructor ()
      ensures Valid() && fresh(counters) && fresh(dependents) && fresh(active)
    {
      counters, dependents, active := new int[0], new seq<nat>[0], new bool[0];
    }

    /** The counters and lists hold exactly the occurrences `e`. */
    ghost predicate Holds(e: seq<Edge>)
      reads this, counters, dependents
    {
      && counters.Length == dependents.Length
      && forall x: nat | x < counters.Length ::
           counters[x] == InCount(e, x) && dependents[x] == DependentsOf(e, x)
    }

    /** Every counter and list follows from the tasks' own dependency lists. */
    ghost predicate CountsLists(tasks: seq<Task>, activity: Activity, override: Override)
      reads this, counters, dependents
    {
      && counters.Length == dependents.Length == |tasks|
      && (forall t: nat | t < |tasks| ::
            counters[t] == if activity.None? || t in activity.value
                           then |ActivePositions(|tasks|, activity, ListOf(tasks, override, t))| else 0)
      && (forall d: nat, t: nat | d < |tasks| && t < |tasks| ::
            CountOf(dependents[d], t) ==
              if (activity.None? || t in activity.value) && (activity.None? || d in activity.value)
              then |PositionsOf(ListOf(tasks, override, t), d)| else 0)
    }

    lemma HoldsCountsLists(tasks: seq<Task>, activity: Activity, override: Override)
      requires Dense(tasks) && counters.Length == |tasks| && Holds(Edges(tasks, activity, override, |tasks|))
      ensures CountsLists(tasks, activity, override)
    {
      forall d: nat, t: nat | d < |tasks| && t < |tasks|
        ensures counters[t] == if activity.None? || t in activity.value
                               then |ActivePositions(|tasks|, activity, ListOf(tasks, override, t))| else 0
        ensures CountOf(dependents[d], t) ==
                  if (activity.None? || t in activity.value) && (activity.None? || d in activity.value)
                  then |PositionsOf(ListOf(tasks, override, t), d)| else 0
      {
        BuiltFromLists(tasks, activity, override, d, t);
      }
    }

    /** The flags mark exactly the planned active tasks. */
    ghost predicate Flags(tasks: seq<Task>, activity: Activity)
      reads this, active
    {
      && active.Length == |tasks|
      && forall x: nat | x < |tasks| ::
           active[x] <==>
             (activity.None? || x in activity.value) && exists k | 0 <= k < |tasks| :: tasks[k].id == x
    }

    /** False when an active task's entry in the override table is missing (out_of_range). */
    method BuildDependencyState(tasks: seq<Task>, activity: Activity, override: Override) returns (ok: bool)
      modifies this
      ensures ok <==>
                forall i | 0 <= i < |tasks| ::
                  0 <= tasks[i].id < |tasks| && (activity.None? || tasks[i].id in activity.value) ==>
                    override.None? || tasks[i].id < |override.value|
      ensures ok ==>
                && Valid() && fresh(counters) && fresh(dependents) && fresh(active)
                && counters.Length == |tasks| && Holds(Edges(tasks, activity, override, |tasks|))
                && Flags(tasks, activity) && (Dense(tasks) ==> CountsLists(tasks, activity, override))
    {
      counters := new int[|tasks|](_ => 0);
      dependents := new seq<nat>[|tasks|](_ => []);
      MarkActive(tasks, activity);
      ok := AddPlan(tasks, activity, override);
      ListsInRange(tasks, activity, override);
      if ok && Dense(tasks) {
        HoldsCountsLists(tasks, activity, override);
      }
    }

    method AddPlan(tasks: seq<Task>, activity: Activity, override: Override) returns (ok: bool)
      requires counters.Length == |tasks| && Holds([])
      modifies counters, dependents
      ensures ok <==> Buildable(tasks, activity, override)
      ensures ok ==> Holds(Edges(tasks, activity, override, |tasks|))
    {
      var i := 0;
      while i < |tasks|
        invariant 0 <= i <= |tasks|
        invariant forall k | 0 <= k < i :: IsActive(|tasks|, activity, tasks[k].id) ==> HasDeps(override, tasks[k].id)
        invariant Holds(Edges(tasks, activity, override, i))
      {
        ok := AddPlanned(tasks, activity, override, i);
        if !ok {
          return;
        }
        i := i + 1;
      }
      ok := true;
    }

    /** The outer loop's body for task `i`. */
    method AddPlanned(tasks: seq<Task>, activity: Activity, override: Override, i: nat) returns (ok: bool)
      requires i < |tasks| == counters.Length && Holds(Edges(tasks, activity, override, i))
      modifies counters, dependents
      ensures ok <==> IsActive(|tasks|, activity, tasks[i].id) ==> HasDeps(override, tasks[i].id)
      ensures ok ==> Holds(Edges(tasks, activity, override, i + 1))
    {
      var t := tasks[i];
      if IsActive(|tasks|, activity, t.id) {
        if !HasDeps(override, t.id) {
          return false;
        }
        AddTask(activity, t.id, DepsOf(override, t), Edges(tasks, activity, override, i));
      }
      return true;
    }

    method MarkActive(tasks: seq<Task>, activity: Activity)
      modifies this`active
      ensures fresh(active) && active.Length == |tasks|
      ensures Flags(tasks, activity)
    {
      active := new bool[|tasks|](_ => false);
      var i := 0;
      while i < |tasks|
        invariant 0 <= i <= |tasks| && fresh(active) && active.Length == |tasks|
        invariant forall x: nat | x < |tasks| ::
                    active[x] <==> IsActive(|tasks|, activity, x) && exists k | 0 <= k < i :: tasks[k].id == x
      {
        if 0 <= tasks[i].id < |tasks| {
          active[tasks[i].id] := IsActive(|tasks|, activity, tasks[i].id);
        }
        i := i + 1;
      }
    }

    /** The inner loop: one task's active dependency occurrences. */
    method AddTask(activity: Activity, id: nat, deps: seq<int>, ghost e: seq<Edge>)
      requires Holds(e) && id < counters.Length
      modifies counters, dependents
      ensures Holds(e + TaskEdges(counters.Length, activity, id, deps, |deps|))
    {
      var n := counters.Length;
      assert e + [] == e;
      var j := 0;
      while j < |deps|
        invariant 0 <= j <= |deps|
        invariant Holds(e + TaskEdges(n, activity, id, deps, j))
      {
        if IsActive(n, activity, deps[j]) {
          ghost var before := e + TaskEdges(n, activity, id, deps, j);
          AddOccurrence(deps[j], id, before);
          assert before + [Edge(deps[j], id)] == e + TaskEdges(n, activity, id, deps, j + 1);
        }
        j := j + 1;
      }
    }

    method AddOccurrence(from: nat, to: nat, ghost e: seq<Edge>)
      requires Holds(e) && from < counters.Length && to < counters.Length
      modifies counters, dependents
      ensures Holds(e + [Edge(from, to)])
    {
      dependents[from] := dependents[from] + [to];
      counters[to] := counters[to] + 1;
      forall y: nat | y < counters.Length
        ensures counters[y] == InCount(e + [Edge(from, to)], y)
                && dependents[y] == DependentsOf(e + [Edge(from, to)], y)
      {
        OneMoreEdge(e, Edge(from, to), y);
      }
    }

    /** None when the id is outside the plan (out_of_range). */
    method ReadyForInitialSubmit(id: int) returns (r: Option<bool>)
      requires Valid()
      ensures r.None? <==> !(0 <= id < counters.Length)
      ensures r.Some? ==> (r.value <==> active[id] && counters[id] == 0)
    {
      if !(0 <= id < counters.Length) {
        return None;
      }
      return Some(active[id] && counters[id] == 0);
    }

    /** release_dependents by one thread: None when the id is outside the plan. */
    method ReleaseDependents(id: int) returns (ready: Option<seq<nat>>)
      requires Valid()
      modifies counters
      ensures Valid() && (ready.None? <==> !(0 <= id < counters.Length))
      ensures ready.Some? ==>
                counters[..] == Release(old(counters[..]), dependents[id]).0
                && ready.value == Release(old(counters[..]), dependents[id]).1
      ensures ready.None? ==> counters[..] == old(counters[..])
    {
      if !(0 <= id < counters.Length) {
        return None;
      }
      var found: seq<nat> := [];
      var q := dependents[id];
      var i := 0;
      assert q[..0] == [];
      while i < |q|
        invariant 0 <= i <= |q|
        invariant counters[..] == Release(old(counters[..]), q[..i]).0
        invariant found == Release(old(counters[..]), q[..i]).1
      {
        assert q[..i + 1][..i] == q[..i];
        var x := q[i];
        var previous := counters[x];
        counters[x] := previous - 1;
        if previous == 1 {
          found := found + [x];
        }
        i := i + 1;
      }
      assert q[..|q|] == q;
      return Some(found);
    }
  }

  lemma {:induction false} DependentsInRange(e: seq<Edge>, d: nat, n: nat)
    requires forall k | 0 <= k < |e| :: e[k].to < n
    ensures forall k | 0 <= k < |DependentsOf(e, d)| :: DependentsOf(e, d)[k] < n
  {
    if e != [] {
      DependentsInRange(e[..|e| - 1], d, n);
    }
  }

  lemma ListsInRange(tasks: seq<Task>, active: Activity, o: Override)
    ensures forall d: nat :: forall k | 0 <= k < |DependentsOf(Edges(tasks, active, o, |tasks|), d)| ::
              DependentsOf(Edges(tasks, active, o, |tasks|), d)[k] < |tasks|
  {
    EdgesInRange(tasks, active, o, |tasks|);
    forall d: nat
      ensures forall k | 0 <= k < |DependentsOf(Edges(tasks, active, o, |tasks|), d)| ::
                DependentsOf(Edges(tasks, active, o, |tasks|), d)[k] < |tasks|
    {
      DependentsInRange(Edges(tasks, active, o, |tasks|), d, |tasks|);
    }
  }
}
