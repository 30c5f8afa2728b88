/**
  Visible commits (compute_commit_policy.hpp, kernel_compute.cpp) beside the
  latest-wins protocol.  A commit item claims its Run's arbiter, checks that its
  generation is current, publishes and resolves; publication items and commit
  items take turns in the graph-state lane, everything else interleaves.
 */
module CommitProtocol {
  import opened Options
  import opened Paths
  import opened Supersession
  import opened RequestCoordinator
  import opened SupersessionProtocol
  import opened SupersessionInvariant
  import opened SupersessionTheorems
  import R = RunControl

  /** A Run and the supersession identity in its descriptor. */
  datatype RunRecord = RunRecord(key: Key, generation: nat, ctl: R.Control)

  /** How far the commit item in the graph-state lane has come. */
  datatype CommitStage = HasClaim | HasValidated | IsVisible

  datatype Item = Item(run: nat, stage: CommitStage)

  datatype VisibleCommit = VisibleCommit(run: nat, key: Key, generation: nat)

  datatype World = World(
    sup: System,
    runs: map<nat, RunRecord>,
    item: Option<Item>,
    commits: seq<VisibleCommit>)    // visible publications, oldest first

  datatype WorldStep =
    | Coordinate(step: Step)                        // any step of the latest-wins protocol
    | NewRun(run: nat, key: Key, generation: nat)
    | Contend(run: nat, outcome: R.Outcome)         // success, failure or cancellation outside a commit
    | Advance(run: nat, phase: R.RunPhase)
    | BeginCommit(run: nat, late: bool)
    | Validate(permitted: bool)                     // lifecycle and revision checks are `permitted`
    | MakeVisible(persisted: bool)
    | ResolveItem(succeeds: bool, failure: nat)

  predicate WorldEnabled(w: World, step: WorldStep) {
    match step
    case Coordinate(a) => Enabled(w.sup, a) && (a.PublishPrepared? ==> w.item.None?)
    case NewRun(r, _, _) => r !in w.runs
    case Contend(r, _) => r in w.runs
    case Advance(r, _) => r in w.runs
    case BeginCommit(r, _) => r in w.runs && w.item.None? && w.sup.tail == []
    case Validate(_) => w.item.Some? && w.item.value.run in w.runs && w.item.value.stage.HasClaim?
    case MakeVisible(_) => w.item.Some? && w.item.value.run in w.runs && w.item.value.stage.HasValidated?
    case ResolveItem(_, _) => w.item.Some? && w.item.value.run in w.runs && w.item.value.stage.IsVisible?
  }

  function SetControl(w: World, r: nat, c: R.Control): (w': World)
    requires r in w.runs
  {
    w.(runs := w.runs[r := w.runs[r].(ctl := c)])
  }

  /** The item ends by resolving its contender. */
  function EndItem(w: World, o: R.Outcome): (w': World)
    requires w.item.Some? && w.item.value.run in w.runs
  {
    var r := w.item.value.run;
    SetControl(w, r, R.Resolve(w.runs[r].ctl, o)).(item := None)
  }

  function BeginItem(w: World, r: nat, late: bool): (w': World)
    requires r in w.runs
  {
    var (c, claim) := R.TryClaim(w.runs[r].ctl, late);
    var w1 := SetControl(w, r, c);
    if claim.Claimed? then w1.(item := Some(Item(r, HasClaim))) else w1
  }

  function WorldApply(w: World, step: WorldStep): (w': World)
    requires WorldEnabled(w, step)
  {
    match step
    case Coordinate(a) => w.(sup := Apply(w.sup, a))
    case NewRun(r, k, g) => w.(runs := w.runs[r := RunRecord(k, g, R.NEW_CONTROL)])
    case Contend(r, o) => SetControl(w, r, R.Publish(w.runs[r].ctl, o))
    case Advance(r, p) => SetControl(w, r, R.AdvanceTo(w.runs[r].ctl, p).0)
    case BeginCommit(r, late) => BeginItem(w, r, late)
    case Validate(permitted) =>
      var x := w.runs[w.item.value.run];
      if permitted && IsCurrent(w.sup.coord, x.key, x.generation)
      then w.(item := Some(w.item.value.(stage := HasValidated)))
      else EndItem(w, R.Failed(0))
    case MakeVisible(persisted) =>
      var r := w.item.value.run;
      if persisted
      then w.(item := Some(Item(r, IsVisible)),
              commits := w.commits + [VisibleCommit(r, w.runs[r].key, w.runs[r].generation)])
      else EndItem(w, R.Failed(0))
    case ResolveItem(succeeds, f) => EndItem(w, if succeeds then R.Succeeded else R.Failed(f))
  }

  // ------------------------------------------------------------------- invariant

  /** Accepted publications of key `k` so far. */
  function Published(s: System, k: Key): (p: seq<nat>) { View(s, k).log.published }

  /** Nothing newer than `g` has been accepted for `k`. */
  predicate Newest(s: System, k: Key, g: nat) {
    Published(s, k) != [] && Last(Published(s, k)) == g
  }

  ghost predicate ItemInv(sup: System, runs: map<nat, RunRecord>, item: Option<Item>) {
    && (item.Some? ==>
          && sup.tail == [] && item.value.run in runs
          && runs[item.value.run].ctl.arbiter.CommitClaimed?
          && (!item.value.stage.HasClaim? ==>
                Newest(sup, runs[item.value.run].key, runs[item.value.run].generation)))
    && (forall r | r in runs && runs[r].ctl.arbiter.CommitClaimed? :: item.Some? && item.value.run == r)
  }

  predicate CommittedRun(runs: map<nat, RunRecord>, c: VisibleCommit) {
    c.run in runs && runs[c.run].key == c.key && runs[c.run].generation == c.generation
    && !runs[c.run].ctl.arbiter.Open?
    && (runs[c.run].ctl.outcome.Some? ==> !runs[c.run].ctl.outcome.value.Cancelled?)
  }

  /** Every visible commit is of a Run that was not cancelled, once per Run. */
  ghost predicate CommitInv(runs: map<nat, RunRecord>, item: Option<Item>, commits: seq<VisibleCommit>) {
    && (forall i | 0 <= i < |commits| :: CommittedRun(runs, commits[i]))
    && (forall i, j | 0 <= i < j < |commits| :: commits[i].run != commits[j].run)
    && (item.Some? && !item.value.stage.IsVisible? ==>
          forall i | 0 <= i < |commits| :: commits[i].run != item.value.run)
  }

  predicate NotNewerThan(s: System, c: VisibleCommit) {
    Published(s, c.key) != [] && c.generation <= Last(Published(s, c.key))
  }

  /** Commits of a key are in generation order and not newer than its last publication. */
  ghost predicate OrderInv(sup: System, commits: seq<VisibleCommit>) {
    && (forall i | 0 <= i < |commits| :: NotNewerThan(sup, commits[i]))
    && (forall i, j | 0 <= i < j < |commits| && commits[i].key == commits[j].key ::
          commits[i].generation <= commits[j].generation)
  }

  ghost predicate RunsConsistent(runs: map<nat, RunRecord>) {
    forall r | r in runs :: R.Consistent(runs[r].ctl)
  }

  ghost predicate WorldInv(w: World) {
    && Inv(w.sup)
    && RunsConsistent(w.runs)
    && ItemInv(w.sup, w.runs, w.item)
    && CommitInv(w.runs, w.item, w.commits)
    && OrderInv(w.sup, w.commits)
  }

  lemma CallerPublishes(s: System, v: Cell, step: Step)
    requires EnabledAt(s, v, step) && OfCaller(step)
    requires v.tail == if s.itemKey == StepKey(s, step) then s.tail else []
    ensures CellAfter(s, v, step).log.published == v.log.published && CellAfter(s, v, step).tail == v.tail
  {
  }

  lemma OtherPublishes(s: System, v: Cell, step: Step)
    requires EnabledAt(s, v, step) && !OfCaller(step) && !step.PublishPrepared?
    requires v.tail == if s.itemKey == StepKey(s, step) then s.tail else []
    ensures CellAfter(s, v, step).log.published == v.log.published
    ensures v.tail == [] ==> CellAfter(s, v, step).tail == []
  {
  }

  lemma CommitTail(s: System, step: Step, w: Cell)
    requires !step.StopLane? && !step.StopCoordinator?
    requires s.tail == [] && w.tail == []
    ensures Commit(s, step, w).tail == []
  {
  }

  /** Only a publication item publishes or fills the lane. */
  lemma OnlyItemsPublish(s: System, step: Step, k: Key)
    requires Enabled(s, step) && !step.PublishPrepared? && s.tail == []
    ensures Published(Apply(s, step), k) == Published(s, k) && Apply(s, step).tail == []
  {
    if step.StopLane? || step.StopCoordinator? {
      StopIsUniform(s, step, k);
    } else {
      StepIsLocal(s, step, k);
      if OfCaller(step) {
        CallerPublishes(s, View(s, step.key), step);
      } else {
        OtherPublishes(s, View(s, step.key), step);
      }
      CommitTail(s, step, CellAfter(s, View(s, step.key), step));
    }
  }

  lemma LastGrows(p: seq<nat>, q: seq<nat>)
    requires p <= q && p != [] && forall i, j | 0 <= i < j < |q| :: q[i] < q[j]
    ensures Last(p) <= Last(q)
  {
  }

  lemma StillNotNewer(s: System, step: Step, c: VisibleCommit)
    requires Inv(s) && Enabled(s, step) && NotNewerThan(s, c)
    ensures NotNewerThan(Apply(s, step), c)
  {
    StepLogGrows(s, step, c.key);
    StepKeepsInv(s, step);
    PublishedSorted(Apply(s, step), c.key);
    LastGrows(Published(s, c.key), Published(Apply(s, step), c.key));
  }

  lemma CoordinateKeeps(w: World, a: Step)
    requires WorldInv(w) && WorldEnabled(w, Coordinate(a))
    ensures WorldInv(WorldApply(w, Coordinate(a)))
  {
    var sup' := Apply(w.sup, a);
    StepKeepsInv(w.sup, a);
    forall i | 0 <= i < |w.commits| ensures NotNewerThan(sup', w.commits[i]) {
      StillNotNewer(w.sup, a, w.commits[i]);
    }
    if w.item.Some? {
      OnlyItemsPublish(w.sup, a, w.runs[w.item.value.run].key);
    }
    assert ItemInv(sup', w.runs, w.item);
  }

  /** Changing one Run's control without claiming it. */
  lemma ControlKeeps(w: World, r: nat, c: R.Control)
    requires WorldInv(w) && r in w.runs && R.Consistent(c) && R.Evolves(w.runs[r].ctl, c)
    requires c.arbiter.CommitClaimed? <==> w.runs[r].ctl.arbiter.CommitClaimed?
    ensures WorldInv(SetControl(w, r, c))
  {
    var w' := SetControl(w, r, c);
    assert CommitInv(w'.runs, w.item, w.commits);
    assert ItemInv(w.sup, w'.runs, w.item);
  }

  lemma EndItemKeeps(w: World, o: R.Outcome)
    requires WorldInv(w) && w.item.Some? && !o.Cancelled?
    ensures WorldInv(EndItem(w, o))
  {
    EndItemRuns(w.sup, w.runs, w.item.value, w.commits, o);
  }

  lemma EndItemRuns(sup: System, runs: map<nat, RunRecord>, item: Item, commits: seq<VisibleCommit>, o: R.Outcome)
    requires ItemInv(sup, runs, Some(item)) && CommitInv(runs, Some(item), commits) && RunsConsistent(runs)
    requires !o.Cancelled?
    ensures var runs' := runs[item.run := runs[item.run].(ctl := R.Resolve(runs[item.run].ctl, o))];
            ItemInv(sup, runs', None) && CommitInv(runs', None, commits) && RunsConsistent(runs')
  {
    var runs' := runs[item.run := runs[item.run].(ctl := R.Resolve(runs[item.run].ctl, o))];
    forall i | 0 <= i < |commits| ensures CommittedRun(runs', commits[i]) {
      assert CommittedRun(runs, commits[i]);
    }
  }

  lemma BeginKeeps(w: World, r: nat, late: bool)
    requires WorldInv(w) && WorldEnabled(w, BeginCommit(r, late))
    ensures WorldInv(BeginItem(w, r, late))
  {
    var (c, claim) := R.TryClaim(w.runs[r].ctl, late);
    R.RegionsEvolve(w.runs[r].ctl, R.Succeeded, late, R.Created);
    if claim.Claimed? {
      ClaimRuns(w.sup, w.runs, w.commits, r, c);
    } else {
      ControlKeeps(w, r, c);
    }
  }

  lemma ClaimRuns(sup: System, runs: map<nat, RunRecord>, commits: seq<VisibleCommit>, r: nat, c: R.Control)
    requires ItemInv(sup, runs, None) && CommitInv(runs, None, commits) && RunsConsistent(runs)
    requires r in runs && runs[r].ctl.arbiter.Open? && c.arbiter.CommitClaimed? && R.Consistent(c) && sup.tail == []
    ensures var runs' := runs[r := runs[r].(ctl := c)];
            ItemInv(sup, runs', Some(Item(r, HasClaim))) && CommitInv(runs', Some(Item(r, HasClaim)), commits)
            && RunsConsistent(runs')
  {
    var runs' := runs[r := runs[r].(ctl := c)];
    forall i | 0 <= i < |commits| ensures CommittedRun(runs', commits[i]) && commits[i].run != r {
      assert CommittedRun(runs, commits[i]);
    }
  }

  /** The currency check passes only for the newest accepted generation. */
  lemma CurrentMeansNewest(s: System, k: Key, g: nat)
    requires Inv(s) && IsCurrent(s.coord, k, g)
    ensures Newest(s, k, g)
  {
    CurrentIsNewest(s, k, g);
  }

  lemma ValidateKeeps(w: World, permitted: bool)
    requires WorldInv(w) && WorldEnabled(w, Validate(permitted))
    ensures WorldInv(WorldApply(w, Validate(permitted)))
  {
    var x := w.runs[w.item.value.run];
    if permitted && IsCurrent(w.sup.coord, x.key, x.generation) {
      CurrentMeansNewest(w.sup, x.key, x.generation);
    } else {
      EndItemKeeps(w, R.Failed(0));
    }
  }

  lemma AppendKeepsOrder(sup: System, commits: seq<VisibleCommit>, c: VisibleCommit)
    requires OrderInv(sup, commits) && Newest(sup, c.key, c.generation)
    ensures OrderInv(sup, commits + [c])
  {
    forall i | 0 <= i < |commits| && commits[i].key == c.key ensures commits[i].generation <= c.generation {
      assert NotNewerThan(sup, commits[i]);
    }
  }

  lemma AppendKeepsCommits(runs: map<nat, RunRecord>, item: Item, commits: seq<VisibleCommit>, c: VisibleCommit)
    requires CommitInv(runs, Some(item), commits) && !item.stage.IsVisible?
    requires c.run == item.run && CommittedRun(runs, c)
    ensures CommitInv(runs, Some(Item(item.run, IsVisible)), commits + [c])
  {
  }

  lemma VisibleKeeps(w: World, persisted: bool)
    requires WorldInv(w) && WorldEnabled(w, MakeVisible(persisted))
    ensures WorldInv(WorldApply(w, MakeVisible(persisted)))
  {
    if persisted {
      var r := w.item.value.run;
      var c := VisibleCommit(r, w.runs[r].key, w.runs[r].generation);
      AppendKeepsOrder(w.sup, w.commits, c);
      AppendKeepsCommits(w.runs, w.item.value, w.commits, c);
    } else {
      EndItemKeeps(w, R.Failed(0));
    }
  }

  lemma NewRunKeeps(w: World, r: nat, k: Key, g: nat)
    requires WorldInv(w) && r !in w.runs
    ensures WorldInv(WorldApply(w, NewRun(r, k, g)))
  {
    var w' := WorldApply(w, NewRun(r, k, g));
    assert CommitInv(w'.runs, w.item, w.commits);
    assert ItemInv(w.sup, w'.runs, w.item);
  }

  lemma WorldStepKeeps(w: World, step: WorldStep)
    requires WorldInv(w) && WorldEnabled(w, step)
    ensures WorldInv(WorldApply(w, step))
  {
    match step
    case Coordinate(a) => CoordinateKeeps(w, a);
    case NewRun(r, k, g) => NewRunKeeps(w, r, k, g);
    case Contend(r, o) =>
      R.RegionsEvolve(w.runs[r].ctl, o, false, R.Created);
      ControlKeeps(w, r, R.Publish(w.runs[r].ctl, o));
    case Advance(r, p) =>
      R.RegionsEvolve(w.runs[r].ctl, R.Succeeded, false, p);
      ControlKeeps(w, r, R.AdvanceTo(w.runs[r].ctl, p).0);
    case BeginCommit(r, late) => BeginKeeps(w, r, late);
    case Validate(permitted) => ValidateKeeps(w, permitted);
    case MakeVisible(persisted) => VisibleKeeps(w, persisted);
    case ResolveItem(succeeds, f) => EndItemKeeps(w, if succeeds then R.Succeeded else R.Failed(f));
  }

  // -------------------------------------------------------------------- theorems

  ghost predicate WorldTakes(w: World, step: WorldStep, w': World) {
    WorldEnabled(w, step) && w' == WorldApply(w, step)
  }

  ghost predicate IsWorldRun(first: nat, worlds: seq<World>, steps: seq<WorldStep>) {
    && 1 <= first <= UINT64_MAX
    && |worlds| == |steps| + 1
    && worlds[0] == World(Init(first), map[], None, [])
    && (forall i: nat | i < |steps| :: WorldTakes(worlds[i], steps[i], worlds[i + 1]))
  }

  lemma {:induction false} RunKeepsWorldInv(first: nat, worlds: seq<World>, steps: seq<WorldStep>, i: nat)
    requires IsWorldRun(first, worlds, steps) && i <= |steps|
    ensures WorldInv(worlds[i])
  {
    if i == 0 {
      InitInv(first);
    } else {
      RunKeepsWorldInv(first, worlds, steps, i - 1);
      assert WorldTakes(worlds[i - 1], steps[i - 1], worlds[i]);
      WorldStepKeeps(worlds[i - 1], steps[i - 1]);
    }
  }

  lemma StepPublishedGrows(w: World, step: WorldStep, w': World, k: Key)
    requires WorldTakes(w, step, w')
    ensures Published(w.sup, k) <= Published(w'.sup, k)
    ensures w.commits <= w'.commits
  {
    if step.Coordinate? {
      StepLogGrows(w.sup, step.step, k);
    }
  }

  lemma RunStepPublishedGrows(first: nat, worlds: seq<World>, steps: seq<WorldStep>, i: nat, k: Key)
    requires IsWorldRun(first, worlds, steps) && i < |steps|
    ensures Extends(worlds[i], worlds[i + 1], k)
  {
    assert WorldTakes(worlds[i], steps[i], worlds[i + 1]);
    StepPublishedGrows(worlds[i], steps[i], worlds[i + 1], k);
  }

  /** The later world extends what the earlier one published and committed. */
  ghost predicate Extends(w: World, w': World, k: Key) {
    Published(w.sup, k) <= Published(w'.sup, k) && w.commits <= w'.commits
  }

  lemma ExtendsTransitively(a: World, b: World, c: World, k: Key)
    requires Extends(a, b, k) && Extends(b, c, k)
    ensures Extends(a, c, k)
  {
    PrefixOfPrefix(Published(a.sup, k), Published(b.sup, k), Published(c.sup, k));
  }

  lemma ExtendsItself(w: World, k: Key)
    ensures Extends(w, w, k)
  {
  }

  lemma PrefixOfPrefix(a: seq<nat>, b: seq<nat>, c: seq<nat>)
    requires a <= b && b <= c
    ensures a <= c
  {
  }

  lemma GrowsOneMore(first: nat, worlds: seq<World>, steps: seq<WorldStep>, w: World, j: nat, k: Key)
    requires IsWorldRun(first, worlds, steps) && j < |steps| && Extends(w, worlds[j], k)
    ensures Extends(w, worlds[j + 1], k)
  {
    RunStepPublishedGrows(first, worlds, steps, j, k);
    ExtendsTransitively(w, worlds[j], worlds[j + 1], k);
  }

  lemma {:induction false} PublishedGrows(
      first: nat, worlds: seq<World>, steps: seq<WorldStep>, i: nat, j: nat, k: Key)
    requires IsWorldRun(first, worlds, steps) && i <= j <= |steps|
    ensures Extends(worlds[i], worlds[j], k)
    decreases j
  {
    if i == j {
      ExtendsItself(worlds[i], k);
    } else {
      PublishedGrows(first, worlds, steps, i, j - 1, k);
      GrowsOneMore(first, worlds, steps, worlds[i], j - 1, k);
    }
  }

  /**
    Per key, visible commits never go back to an older generation; a committed
    Run is never cancelled and commits once.
   */
  lemma CommitsNeverGoBack(first: nat, worlds: seq<World>, steps: seq<WorldStep>, n: nat, i: nat, j: nat)
    requires IsWorldRun(first, worlds, steps) && n <= |steps| && i < j < |worlds[n].commits|
    ensures var c := worlds[n].commits;
            && (c[i].key == c[j].key ==> c[i].generation <= c[j].generation)
            && c[i].run != c[j].run
            && CommittedRun(worlds[n].runs, c[i]) && CommittedRun(worlds[n].runs, c[j])
  {
    RunKeepsWorldInv(first, worlds, steps, n);
  }

  /** Every visible commit, the only one included, is of a Run that is not and never will be cancelled. */
  lemma CommittedIsNeverCancelled(first: nat, worlds: seq<World>, steps: seq<WorldStep>, m: nat, n: nat, i: nat)
    requires IsWorldRun(first, worlds, steps) && m <= n <= |steps| && i < |worlds[m].commits|
    ensures i < |worlds[n].commits| && worlds[n].commits[i] == worlds[m].commits[i]
    ensures CommittedRun(worlds[n].runs, worlds[m].commits[i])
  {
    PublishedGrows(first, worlds, steps, m, n, worlds[m].commits[i].key);
    RunKeepsWorldInv(first, worlds, steps, n);
  }

  /**
    No commit of a key becomes visible after a newer generation of that key was
    accepted: if step `a` accepts generation `h` and the later step `b` makes
    generation `g` visible, then `h` is not newer than `g`.
   */
  lemma NoCommitAfterNewerPublication(
      first: nat, worlds: seq<World>, steps: seq<WorldStep>, a: nat, b: nat, k: Key, h: nat)
    requires IsWorldRun(first, worlds, steps) && a < b < |steps|
    requires steps[a] == Coordinate(PublishPrepared(k, h)) && Acceptable(worlds[a].sup, k, h)
    requires steps[b] == MakeVisible(true) && worlds[b].item.Some?
    requires worlds[b].item.value.run in worlds[b].runs
    requires worlds[b].runs[worlds[b].item.value.run].key == k
    ensures h <= worlds[b].runs[worlds[b].item.value.run].generation
    ensures worlds[b + 1].commits ==
              worlds[b].commits + [VisibleCommit(worlds[b].item.value.run, k,
                                                 worlds[b].runs[worlds[b].item.value.run].generation)]
  {
    assert WorldTakes(worlds[b], steps[b], worlds[b + 1]);
    AcceptedInWorld(first, worlds, steps, a, k, h);
    PublishedGrows(first, worlds, steps, a + 1, b, k);
    SortedInWorld(first, worlds, steps, b, k);
    LastGrows(Published(worlds[a + 1].sup, k), Published(worlds[b].sup, k));
    VisibleIsNewest(first, worlds, steps, b);
  }

  lemma AcceptedInWorld(first: nat, worlds: seq<World>, steps: seq<WorldStep>, a: nat, k: Key, h: nat)
    requires IsWorldRun(first, worlds, steps) && a < |steps|
    requires steps[a] == Coordinate(PublishPrepared(k, h)) && Acceptable(worlds[a].sup, k, h)
    ensures Newest(worlds[a + 1].sup, k, h)
  {
    assert WorldTakes(worlds[a], steps[a], worlds[a + 1]);
    AcceptAppends(worlds[a].sup, worlds[a + 1].sup, k, h);
  }

  lemma SortedInWorld(first: nat, worlds: seq<World>, steps: seq<WorldStep>, i: nat, k: Key)
    requires IsWorldRun(first, worlds, steps) && i <= |steps|
    ensures var p := Published(worlds[i].sup, k); forall a, b | 0 <= a < b < |p| :: p[a] < p[b]
  {
    RunKeepsWorldInv(first, worlds, steps, i);
    PublishedSorted(worlds[i].sup, k);
  }

  /** The generation a commit item makes visible is the newest accepted one of its key. */
  lemma VisibleIsNewest(first: nat, worlds: seq<World>, steps: seq<WorldStep>, b: nat)
    requires IsWorldRun(first, worlds, steps) && b < |steps| && steps[b].MakeVisible?
    ensures worlds[b].item.Some? && worlds[b].item.value.run in worlds[b].runs
    ensures var x := worlds[b].runs[worlds[b].item.value.run]; Newest(worlds[b].sup, x.key, x.generation)
  {
    assert WorldTakes(worlds[b], steps[b], worlds[b + 1]);
    RunKeepsWorldInv(first, worlds, steps, b);
  }

  // ------------------------------------------------------------------ commits happen

  /** Run `r` may commit now: the lane is idle, the Run waits for it and its generation is current. */
  predicate MayCommit(w: World, r: nat) {
    && w.item.None? && w.sup.tail == [] && r in w.runs
    && w.runs[r].ctl.arbiter == R.Open && w.runs[r].ctl.phase == R.CommitPending
    && IsCurrent(w.sup.coord, w.runs[r].key, w.runs[r].generation)
  }

  /** Run `r` has committed visibly, last of all, and has succeeded. */
  predicate HasCommitted(w: World, w': World, r: nat)
    requires r in w.runs
  {
    && w'.commits == w.commits + [VisibleCommit(r, w.runs[r].key, w.runs[r].generation)]
    && r in w'.runs && w'.runs[r].ctl.outcome == Some(R.Succeeded)
    && w'.item.None? && w'.sup == w.sup
  }

  /** The four steps of an undisturbed commit item. */
  lemma CommitGoesThrough(w: World, r: nat, f: nat) returns (w1: World, w2: World, w3: World, w4: World)
    requires MayCommit(w, r)
    ensures WorldTakes(w, BeginCommit(r, false), w1) && WorldTakes(w1, Validate(true), w2)
    ensures WorldTakes(w2, MakeVisible(true), w3) && WorldTakes(w3, ResolveItem(true, f), w4)
    ensures HasCommitted(w, w4, r)
  {
    R.ArbiterMeaning(w.runs[r].ctl, R.Succeeded, false);
    w1 := WorldApply(w, BeginCommit(r, false));
    w2 := WorldApply(w1, Validate(true));
    w3 := WorldApply(w2, MakeVisible(true));
    w4 := WorldApply(w3, ResolveItem(true, f));
  }

  /**
    From every reachable world in which a Run may commit, the commit item's four
    steps make it visible and let it succeed.
   */
  lemma CommitCanSucceed(first: nat, worlds: seq<World>, steps: seq<WorldStep>, i: nat, r: nat, f: nat)
    requires IsWorldRun(first, worlds, steps) && i <= |steps| && MayCommit(worlds[i], r)
    ensures exists w' ::
              Leads(WorldTakes, worlds[i],
                    [BeginCommit(r, false), Validate(true), MakeVisible(true), ResolveItem(true, f)], w')
              && HasCommitted(worlds[i], w', r)
  {
    var w1, w2, w3, w4 := CommitGoesThrough(worlds[i], r, f);
    LeadsByFour(WorldTakes, worlds[i], BeginCommit(r, false), w1, Validate(true), w2,
                MakeVisible(true), w3, ResolveItem(true, f), w4);
  }

  /** The step ends the commit item of a Run with generation `g` of key `k`. */
  predicate EndsItem(w: World, step: WorldStep, k: Key, g: nat) {
    || (step.Validate? && !(step.permitted && IsCurrent(w.sup.coord, k, g)))
    || (step.MakeVisible? && !step.persisted)
    || step.ResolveItem?
  }

  /**
    A commit item goes on exactly while it is permitted, current and persisted,
    with its Run still claimed.  An item that is refused or not persisted fails
    its Run and shows nothing; one that comes to its end settles it as it says.
   */
  lemma ItemGoesOnOrSettles(first: nat, worlds: seq<World>, steps: seq<WorldStep>, i: nat)
    requires IsWorldRun(first, worlds, steps) && i < |steps|
    requires steps[i].Validate? || steps[i].MakeVisible? || steps[i].ResolveItem?
    ensures worlds[i].item.Some? && worlds[i].item.value.run in worlds[i].runs
    ensures var r := worlds[i].item.value.run;
            var x := worlds[i].runs[r];
            && r in worlds[i + 1].runs
            && (worlds[i + 1].item.None? <==> EndsItem(worlds[i], steps[i], x.key, x.generation))
            && (worlds[i + 1].item.Some? ==>
                  worlds[i + 1].item.value.run == r && worlds[i + 1].runs[r].ctl.arbiter == R.CommitClaimed)
            && (worlds[i + 1].item.None? ==>
                  worlds[i + 1].commits == worlds[i].commits
                  && worlds[i + 1].runs[r].ctl.outcome ==
                       Some(if !steps[i].ResolveItem? then R.Failed(0)
                            else if steps[i].succeeds then R.Succeeded else R.Failed(steps[i].failure)))
  {
    RunKeepsWorldInv(first, worlds, steps, i);
    assert WorldTakes(worlds[i], steps[i], worlds[i + 1]);
    ItemStep(worlds[i], steps[i], worlds[i + 1]);
  }

  lemma ItemStep(w: World, step: WorldStep, w': World)
    requires WorldTakes(w, step, w') && (step.Validate? || step.MakeVisible? || step.ResolveItem?)
    requires ItemInv(w.sup, w.runs, w.item)
    ensures var r := w.item.value.run;
            var x := w.runs[r];
            && r in w'.runs
            && (w'.item.None? <==> EndsItem(w, step, x.key, x.generation))
            && (w'.item.Some? ==> w'.item.value.run == r && w'.runs[r].ctl.arbiter == R.CommitClaimed)
            && (w'.item.None? ==>
                  w'.commits == w.commits
                  && w'.runs[r].ctl.outcome ==
                       Some(if !step.ResolveItem? then R.Failed(0)
                            else if step.succeeds then R.Succeeded else R.Failed(step.failure)))
  {
    var x := w.runs[w.item.value.run];
    R.ArbiterMeaning(x.ctl, R.Succeeded, false);
    R.ArbiterMeaning(x.ctl, R.Failed(0), false);
    if step.ResolveItem? {
      R.ArbiterMeaning(x.ctl, R.Failed(step.failure), false);
    }
  }
}
