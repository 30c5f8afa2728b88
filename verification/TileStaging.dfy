/**
  Tile tasks of one node (compute_node_task_runner.cpp): the precomputed flag,
  the staging output guarded by the node mutex, and the completion counter, as
  locked or atomic regions, as methods, and under every interleaving of the
  node's tile tasks.  A disk load is an oracle that may hit or miss each time.
 */
module TileStaging {
  import opened Counting

  /** The node's temporary output: whole from disk, or a staging buffer with its tiles written so far. */
  datatype Temp = Empty | FromDisk | Staging(written: set<nat>)

  /** What the tile tasks of a node share; `buffers` counts the buffers made. */
  datatype Shared = Shared(precomputed: bool, temp: Temp, completed: nat, buffers: nat)

  /** Fixed for the run; `tiles` is also the expected completion count. */
  datatype Setup = Setup(tiles: set<nat>, memoryCached: bool, force: bool, diskDisabled: bool) {
    predicate UsesMemory() { memoryCached && !force }
    predicate AllowDisk() { !diskDisabled && !force }
  }

  /** Entry checks; true means the task returns at once. */
  function EnterTile(c: Setup, x: Shared): (r: (Shared, bool)) {
    if c.UsesMemory() then (x.(precomputed := true), true) else (x, x.precomputed)
  }

  /** try_satisfy_tile_from_disk_cache; `hit` is what a disk load would find. */
  function TryDisk(c: Setup, x: Shared, hit: bool): (r: (Shared, bool)) {
    if !c.AllowDisk() || x.precomputed then (x, x.precomputed)
    else if !x.temp.Empty? then (x, false)
    else if hit then (x.(temp := FromDisk, precomputed := true), true)
    else (x, false)
  }

  /** ensure_tile_output_buffer; true means the task returns without a buffer. */
  function EnsureBuffer(x: Shared): (r: (Shared, bool)) {
    if x.precomputed then (x, true)
    else if x.temp.Empty? then (x.(temp := Staging({}), buffers := x.buffers + 1), false)
    else (x, false)
  }

  /** The completion counter; true means this task finalizes. */
  function CountTile(c: Setup, x: Shared): (r: (Shared, bool)) {
    if |c.tiles| == 0 then (x, false)
    else (x.(completed := x.completed + 1), x.completed + 1 == |c.tiles|)
  }

  /**
    What the four regions decide, in fields.  A tile is skipped at entry exactly
    when memory serves the node or it is marked; a disk load marks exactly an
    empty unmarked node on a hit that is allowed, and a miss changes nothing; a
    buffer is made exactly for an empty unmarked node; the last count finalizes.
   */
  lemma RegionMeaning(c: Setup, x: Shared, hit: bool)
    ensures var uses := c.memoryCached && !c.force;
            EnterTile(c, x) ==
              (Shared(x.precomputed || uses, x.temp, x.completed, x.buffers), x.precomputed || uses)
    ensures var loads := !c.diskDisabled && !c.force && !x.precomputed && x.temp == Empty && hit;
            TryDisk(c, x, hit) ==
              (if loads then Shared(true, FromDisk, x.completed, x.buffers) else x, x.precomputed || loads)
    ensures EnsureBuffer(x) ==
              (if !x.precomputed && x.temp == Empty
               then Shared(false, Staging({}), x.completed, x.buffers + 1) else x, x.precomputed)
    ensures c.tiles != {} ==>
              CountTile(c, x) ==
                (Shared(x.precomputed, x.temp, x.completed + 1, x.buffers), x.completed + 1 == |c.tiles|)
  {
  }

  /** The shared state as the runner mutates it. */
  class TileNode {
    const setup: Setup
    var precomputed: bool
    var temp: Temp
    var completed: nat
    ghost var buffers: nat

    ghost function State(): (x: Shared)
      reads this
    {
      Shared(precomputed, temp, completed, buffers)
    }

    /** A node marked precomputed has no staging buffer, and a loaded one is marked. */
    ghost predicate Valid()
      reads this
    {
      (precomputed ==> !temp.Staging?) && (temp.FromDisk? ==> precomputed)
    }

    constructor (setup: Setup)
      ensures Valid() && this.setup == setup && State() == Shared(false, Empty, 0, 0)
    {
      this.setup := setup;
      precomputed, temp, completed, buffers := false, Empty, 0, 0;
    }

    method Enter() returns (skip: bool)
      requires Valid()
      modifies this
      ensures (State(), skip) == EnterTile(setup, old(State()))
      ensures temp == old(temp) && (skip <==> precomputed)
      ensures !setup.UsesMemory() || !temp.Staging? ==> Valid()
    {
      if !setup.force && setup.memoryCached {
        precomputed := true;
        return true;
      }
      return precomputed;
    }

    method TrySatisfyFromDisk(hit: bool) returns (skip: bool)
      requires Valid()
      modifies this
      ensures (State(), skip) == TryDisk(setup, old(State()), hit)
      ensures Valid() && (skip <==> precomputed)
      ensures old(temp).Staging? ==> temp == old(temp) && !skip
      ensures !hit ==> State() == old(State())
      ensures !old(precomputed) ==>
                (skip <==> !setup.diskDisabled && !setup.force && old(temp) == Empty && hit)
      ensures !old(precomputed) && skip ==> temp == FromDisk
    {
      if setup.diskDisabled || setup.force {
        return precomputed;
      }
      if precomputed {
        return true;
      }
      if !temp.Empty? {
        return false;
      }
      if hit {
        temp := FromDisk;
      }
      if !temp.Empty? {
        precomputed := true;
        return true;
      }
      return false;
    }

    method EnsureOutputBuffer() returns (skip: bool)
      requires Valid()
      modifies this
      ensures (State(), skip) == EnsureBuffer(old(State()))
      ensures Valid() && (skip <==> precomputed) && (!skip ==> temp.Staging?)
      ensures !old(temp).Empty? ==> temp == old(temp)
    {
      if precomputed {
        return true;
      }
      if temp.Empty? {
        temp := Staging({});
        buffers := buffers + 1;
      }
      return false;
    }

    method CountCompleted() returns (finalizes: bool)
      modifies this
      ensures (State(), finalizes) == CountTile(setup, old(State()))
      ensures finalizes ==> completed == |setup.tiles| == old(completed) + 1
      ensures temp == old(temp) && precomputed == old(precomputed)
    {
      if |setup.tiles| <= 0 {
        return false;
      }
      completed := completed + 1;
      return completed == |setup.tiles|;
    }
  }

  // ------------------------------------------------------------------ interleaving

  datatype Stage = Fresh | Entered | Tried | Executing | Written | Finalizing | Done | Skipped

  datatype State = State(shared: Shared, stage: map<nat, Stage>, finalized: nat)

  datatype Step =
    | Enter(tile: nat)
    | Disk(tile: nat, hit: bool)
    | Buffer(tile: nat)
    | Write(tile: nat)
    | Count(tile: nat)
    | Finalize(tile: nat)

  function Init(c: Setup): (s: State) {
    State(Shared(false, Empty, 0, 0), map t | t in c.tiles :: Fresh, 0)
  }

  predicate At(s: State, t: nat, x: Stage) { t in s.stage && s.stage[t] == x }

  predicate Enabled(s: State, step: Step) {
    match step
    case Enter(t) => At(s, t, Fresh)
    case Disk(t, _) => At(s, t, Entered)
    case Buffer(t) => At(s, t, Tried)
    case Write(t) => At(s, t, Executing) && s.shared.temp.Staging?
    case Count(t) => At(s, t, Written)
    case Finalize(t) => At(s, t, Finalizing)
  }

  function Move(s: State, t: nat, x: Shared, next: Stage): (s': State) {
    s.(shared := x, stage := s.stage[t := next])
  }

  function Apply(c: Setup, s: State, step: Step): (s': State)
    requires Enabled(s, step)
  {
    match step
    case Enter(t) => var (x, skip) := EnterTile(c, s.shared); Move(s, t, x, if skip then Skipped else Entered)
    case Disk(t, hit) => var (x, skip) := TryDisk(c, s.shared, hit); Move(s, t, x, if skip then Skipped else Tried)
    case Buffer(t) => var (x, skip) := EnsureBuffer(s.shared); Move(s, t, x, if skip then Skipped else Executing)
    case Write(t) =>
      Move(s, t, s.shared.(temp := s.shared.temp.(written := s.shared.temp.written + {t})), Written)
    case Count(t) =>
      var (x, finalizes) := CountTile(c, s.shared); Move(s, t, x, if finalizes then Finalizing else Done)
    case Finalize(t) => Move(s, t, s.shared, Done).(finalized := s.finalized + 1)
  }

  /** The tile has the staging buffer. */
  predicate HasBuffer(x: Stage) { x.Executing? || x.Written? || x.Finalizing? || x.Done? }

  /** The tile has been counted as complete. */
  predicate Counted(x: Stage) { x.Finalizing? || x.Done? }

  function CountedTiles(stage: map<nat, Stage>): (a: set<nat>) { set t | t in stage && Counted(stage[t]) }

  function FinalizingTiles(stage: map<nat, Stage>): (a: set<nat>) { set t | t in stage && stage[t].Finalizing? }

  /** Whole-node output and staging exclude each other, tile by tile. */
  ghost predicate MixInv(c: Setup, s: State) {
    && s.stage.Keys == c.tiles
    && (s.shared.precomputed ==> !s.shared.temp.Staging?)
    && (c.UsesMemory() ==> s.shared.temp.Empty? && forall t | t in s.stage :: s.stage[t].Fresh? || s.stage[t].Skipped?)
    && (s.shared.temp.FromDisk? ==> s.shared.precomputed)
    && (s.shared.precomputed ==> c.UsesMemory() || s.shared.temp.FromDisk?)
    && s.shared.buffers == B(s.shared.temp.Staging?)
    && (forall t | t in s.stage :: HasBuffer(s.stage[t]) ==> s.shared.temp.Staging?)
    && (forall t | t in s.stage :: s.stage[t].Skipped? ==> s.shared.precomputed)
  }

  /** The counter counts, writes precede counting, and finalization belongs to the last count. */
  ghost predicate CountInv(c: Setup, s: State) {
    && s.shared.completed == |CountedTiles(s.stage)|
    && s.finalized + |FinalizingTiles(s.stage)| == B(s.shared.completed == |c.tiles| && |c.tiles| > 0)
    && WrittenInv(s.shared.temp, s.stage)
  }

  ghost predicate WrittenInv(temp: Temp, stage: map<nat, Stage>) {
    temp.Staging? ==>
      forall t :: t in temp.written <==> t in stage && HasBuffer(stage[t]) && !stage[t].Executing?
  }

  ghost predicate Inv(c: Setup, s: State) { MixInv(c, s) && CountInv(c, s) }

  lemma StageSets(stage: map<nat, Stage>, t: nat, x: Stage)
    ensures CountedTiles(stage[t := x]) ==
              if Counted(x) then CountedTiles(stage) + {t} else CountedTiles(stage) - {t}
    ensures FinalizingTiles(stage[t := x]) ==
              if x.Finalizing? then FinalizingTiles(stage) + {t} else FinalizingTiles(stage) - {t}
  {
  }

  lemma StepKeepsMix(c: Setup, s: State, step: Step)
    requires MixInv(c, s) && Enabled(s, step)
    ensures MixInv(c, Apply(c, s, step))
  {
  }

  lemma EarlyStepKeepsWritten(c: Setup, s: State, step: Step)
    requires MixInv(c, s) && WrittenInv(s.shared.temp, s.stage)
    requires Enabled(s, step) && (step.Enter? || step.Disk? || step.Buffer? || step.Write?)
    ensures var s' := Apply(c, s, step); WrittenInv(s'.shared.temp, s'.stage)
  {
  }

  /** A stage that is not counted before or after leaves the counted tiles alone. */
  lemma UncountedMove(stage: map<nat, Stage>, t: nat, x: Stage)
    requires t in stage && !Counted(stage[t]) && !Counted(x)
    ensures CountedTiles(stage[t := x]) == CountedTiles(stage)
    ensures FinalizingTiles(stage[t := x]) == FinalizingTiles(stage)
  {
    StageSets(stage, t, x);
  }

  lemma EarlyStepFrame(c: Setup, s: State, step: Step)
    requires Enabled(s, step) && (step.Enter? || step.Disk? || step.Buffer? || step.Write?)
    ensures var s' := Apply(c, s, step);
            && s'.shared.completed == s.shared.completed && s'.finalized == s.finalized
            && step.tile in s'.stage && s'.stage == s.stage[step.tile := s'.stage[step.tile]]
            && !Counted(s'.stage[step.tile])
  {
  }

  lemma EarlyStepKeepsCount(c: Setup, s: State, step: Step)
    requires Inv(c, s) && Enabled(s, step) && (step.Enter? || step.Disk? || step.Buffer? || step.Write?)
    ensures CountInv(c, Apply(c, s, step))
  {
    EarlyStepFrame(c, s, step);
    UncountedMove(s.stage, step.tile, Apply(c, s, step).stage[step.tile]);
    EarlyStepKeepsWritten(c, s, step);
  }

  /** A tile not yet counted leaves room for one more. */
  lemma RoomToCount(tiles: set<nat>, stage: map<nat, Stage>, t: nat, x: Stage)
    requires stage.Keys == tiles && t in stage && !Counted(stage[t]) && Counted(x)
    ensures |CountedTiles(stage)| < |tiles|
    ensures |CountedTiles(stage[t := x])| == |CountedTiles(stage)| + 1
    ensures |FinalizingTiles(stage[t := x])| == |FinalizingTiles(stage)| + B(x.Finalizing?)
  {
    StageSets(stage, t, x);
    assert t !in CountedTiles(stage) && t !in FinalizingTiles(stage);
    SubsetSize(CountedTiles(stage) + {t}, tiles);
  }

  lemma CountKeepsCount(c: Setup, s: State, t: nat)
    requires Inv(c, s) && Enabled(s, Count(t))
    ensures CountInv(c, Apply(c, s, Count(t)))
  {
    var s' := Apply(c, s, Count(t));
    assert t in c.tiles;
    RoomToCount(c.tiles, s.stage, t, s'.stage[t]);
  }

  lemma FinalizeKeepsCount(c: Setup, s: State, t: nat)
    requires Inv(c, s) && Enabled(s, Finalize(t))
    ensures CountInv(c, Apply(c, s, Finalize(t)))
  {
    var s' := Apply(c, s, Finalize(t));
    StageSets(s.stage, t, Done);
    assert t in CountedTiles(s.stage) && t in FinalizingTiles(s.stage);
    assert CountedTiles(s'.stage) == CountedTiles(s.stage);
  }

  lemma StepKeepsInv(c: Setup, s: State, step: Step)
    requires Inv(c, s) && Enabled(s, step)
    ensures Inv(c, Apply(c, s, step))
  {
    StepKeepsMix(c, s, step);
    match step
    case Count(t) => CountKeepsCount(c, s, t);
    case Finalize(t) => FinalizeKeepsCount(c, s, t);
    case _ => EarlyStepKeepsCount(c, s, step);
  }

  ghost predicate Takes(c: Setup, s: State, step: Step, s': State) {
    Enabled(s, step) && s' == Apply(c, s, step)
  }

  ghost predicate IsRun(c: Setup, states: seq<State>, steps: seq<Step>) {
    && |states| == |steps| + 1
    && states[0] == Init(c)
    && (forall i: nat | i < |steps| :: Takes(c, states[i], steps[i], states[i + 1]))
  }

  lemma {:induction false} RunKeepsInv(c: Setup, states: seq<State>, steps: seq<Step>, i: nat)
    requires IsRun(c, states, steps) && i <= |steps|
    ensures Inv(c, states[i])
  {
    if i == 0 {
      assert CountedTiles(Init(c).stage) == {} && FinalizingTiles(Init(c).stage) == {};
    } else {
      RunKeepsInv(c, states, steps, i - 1);
      assert Takes(c, states[i - 1], steps[i - 1], states[i]);
      StepKeepsInv(c, states[i - 1], steps[i - 1]);
    }
  }

  /** In no reachable state has one tile been skipped while another has a buffer. */
  lemma NeverMixed(c: Setup, states: seq<State>, steps: seq<Step>, i: nat, t: nat, u: nat)
    requires IsRun(c, states, steps) && i <= |steps| && t in c.tiles && u in c.tiles
    ensures t in states[i].stage && u in states[i].stage
    ensures !(states[i].stage[t].Skipped? && HasBuffer(states[i].stage[u]))
    ensures states[i].shared.buffers <= 1
  {
    RunKeepsInv(c, states, steps, i);
  }

  /** Metadata is finalized at most once, and when it is every tile has been written. */
  lemma FinalizedAfterLastWrite(c: Setup, states: seq<State>, steps: seq<Step>, i: nat, t: nat)
    requires IsRun(c, states, steps) && i <= |steps|
    ensures states[i].finalized <= 1
    ensures (states[i].finalized == 1 || At(states[i], t, Finalizing)) ==>
              states[i].shared.temp.Staging? && states[i].shared.temp.written == c.tiles
  {
    RunKeepsInv(c, states, steps, i);
    var s := states[i];
    if At(s, t, Finalizing) {
      assert t in FinalizingTiles(s.stage);
    }
    if s.finalized == 1 || At(s, t, Finalizing) {
      SubsetSize(CountedTiles(s.stage), c.tiles);
      assert CountedTiles(s.stage) == c.tiles;
      var u :| u in c.tiles;
      assert u in CountedTiles(s.stage);
      forall x | x in c.tiles ensures x in s.shared.temp.written {
        assert x in CountedTiles(s.stage);
      }
    }
  }

  /** Every tile task has returned. */
  predicate AllReturned(s: State) { forall t | t in s.stage :: s.stage[t].Done? || s.stage[t].Skipped? }

  /**
    When all tile tasks have returned, either every one was skipped, the node has
    its whole output from memory or disk and nothing was staged or finalized, or
    every one wrote into the one buffer and the metadata was finalized exactly
    once.
   */
  lemma AllTilesOrNone(c: Setup, states: seq<State>, steps: seq<Step>)
    requires IsRun(c, states, steps) && AllReturned(states[|steps|]) && c.tiles != {}
    ensures var s := states[|steps|];
            || ((forall t | t in c.tiles :: At(s, t, Skipped)) && s.shared.buffers == 0 && s.finalized == 0
                && s.shared.precomputed && (c.UsesMemory() || s.shared.temp.FromDisk?))
            || ((forall t | t in c.tiles :: At(s, t, Done)) && s.shared.buffers == 1 && s.finalized == 1
                && s.shared.temp.Staging? && s.shared.temp.written == c.tiles)
  {
    var s := states[|steps|];
    RunKeepsInv(c, states, steps, |steps|);
    var u :| u in c.tiles;
    assert FinalizingTiles(s.stage) == {};
    if s.stage[u].Skipped? {
      assert CountedTiles(s.stage) == {};
    } else {
      assert CountedTiles(s.stage) == c.tiles;
      FinalizedAfterLastWrite(c, states, steps, |steps|, u);
    }
  }

  // -------------------------------------------------------------- tiles do execute

  /** The step finds the node on disk. */
  predicate DiskHit(step: Step) { step.Disk? && step.hit }

  lemma StepMarksOnlyOnHit(c: Setup, s: State, step: Step)
    requires Enabled(s, step) && !c.UsesMemory() && !s.shared.precomputed && !DiskHit(step)
    ensures !Apply(c, s, step).shared.precomputed
  {
  }

  lemma {:induction false} UnmarkedWithoutHit(c: Setup, states: seq<State>, steps: seq<Step>, i: nat)
    requires IsRun(c, states, steps) && i <= |steps| && !c.UsesMemory()
    requires forall l | 0 <= l < |steps| :: !DiskHit(steps[l])
    ensures !states[i].shared.precomputed
  {
    if i > 0 {
      UnmarkedWithoutHit(c, states, steps, i - 1);
      assert Takes(c, states[i - 1], steps[i - 1], states[i]);
      StepMarksOnlyOnHit(c, states[i - 1], steps[i - 1]);
    }
  }

  /** Without a usable memory cache and without a disk hit every tile executes. */
  lemma UncachedTilesExecute(c: Setup, states: seq<State>, steps: seq<Step>)
    requires IsRun(c, states, steps) && AllReturned(states[|steps|]) && c.tiles != {} && !c.UsesMemory()
    requires forall l | 0 <= l < |steps| :: !DiskHit(steps[l])
    ensures var s := states[|steps|];
            (forall t | t in c.tiles :: At(s, t, Done)) && s.finalized == 1 && s.shared.temp == Staging(c.tiles)
  {
    AllTilesOrNone(c, states, steps);
    UnmarkedWithoutHit(c, states, steps, |steps|);
  }

  /** With a usable memory cache no tile executes. */
  lemma CachedTilesAreSkipped(c: Setup, states: seq<State>, steps: seq<Step>)
    requires IsRun(c, states, steps) && AllReturned(states[|steps|]) && c.UsesMemory()
    ensures forall t | t in c.tiles :: At(states[|steps|], t, Skipped)
  {
    RunKeepsInv(c, states, steps, |steps|);
  }

  /** A run of tile tasks that cannot go on has seen all of them return. */
  lemma TilesNeverStall(c: Setup, states: seq<State>, steps: seq<Step>)
    requires IsRun(c, states, steps) && forall step :: !Enabled(states[|steps|], step)
    ensures AllReturned(states[|steps|])
  {
    RunKeepsInv(c, states, steps, |steps|);
    var s := states[|steps|];
    forall t | t in s.stage ensures s.stage[t].Done? || s.stage[t].Skipped? {
      assert !Enabled(s, Enter(t)) && !Enabled(s, Disk(t, false)) && !Enabled(s, Buffer(t));
      assert !Enabled(s, Write(t)) && !Enabled(s, Count(t)) && !Enabled(s, Finalize(t));
    }
  }
}
