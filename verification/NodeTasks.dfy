/**
  Node tasks (compute_node_task_runner.cpp) and the commit of their results
  (compute_result_committer.cpp), for whole-node plans with the disk cache off:
  input resolution, the compute-if-missing rule, and the loops that move
  temporary outputs into the graph and reset planned caches.
 */
module NodeTasks {
  import opened Options

  /** Images, output names, parameter names and values are opaque numbers. */
  datatype Output = Output(image: nat, data: map<nat, nat>)

  datatype ParamInput = ParamInput(from: int, output: nat, to: nat)

  datatype Node = Node(
    params: map<nat, nat>,
    paramInputs: seq<ParamInput>,
    imageInputs: seq<int>,         // upstream node per slot, negative when disconnected
    cached: Option<Output>,
    version: nat)                  // hp_version

  type Graph = map<int, Node>

  datatype Fault = NoOperation | InputNotReady | MissingOutput | OperationFailed(code: nat)

  datatype Result<+T> = Ok(value: T) | Err(fault: Fault)

  type Images = seq<Option<Output>>

  /** The resolved operation of each node together with metadata finalization; deterministic. */
  type Operation = (int, map<nat, nat>, Images) -> OperationResult

  datatype OperationResult = Produced(output: Output) | Threw(code: nat)

  /** upstream_output: the temporary result if there is one, else the cached one. */
  function Upstream(g: Graph, temp: map<int, Output>, u: int): (o: Option<Output>) {
    if u < 0 || u !in g then None
    else if u in temp then Some(temp[u])
    else g[u].cached
  }

  /** resolve_runtime_parameters from input `i` on, with `acc` overlaid so far. */
  function ParamsFrom(g: Graph, temp: map<int, Output>, inputs: seq<ParamInput>, i: nat, acc: map<nat, nat>)
      : (r: Result<map<nat, nat>>)
    requires i <= |inputs|
    decreases |inputs| - i
  {
    if i == |inputs| then Ok(acc)
    else if inputs[i].from < 0 then ParamsFrom(g, temp, inputs, i + 1, acc)
    else
      var o := Upstream(g, temp, inputs[i].from);
      if o.None? then Err(InputNotReady)
      else if inputs[i].output !in o.value.data then Err(MissingOutput)
      else ParamsFrom(g, temp, inputs, i + 1, acc[inputs[i].to := o.value.data[inputs[i].output]])
  }

  /** resolve_image_inputs from slot `i` on. */
  function ImagesFrom(g: Graph, temp: map<int, Output>, inputs: seq<int>, i: nat, acc: Images): (r: Result<Images>)
    requires i <= |inputs|
    decreases |inputs| - i
  {
    if i == |inputs| then Ok(acc)
    else if inputs[i] < 0 then ImagesFrom(g, temp, inputs, i + 1, acc + [None])
    else
      var o := Upstream(g, temp, inputs[i]);
      if o.None? then Err(InputNotReady) else ImagesFrom(g, temp, inputs, i + 1, acc + [o])
  }

  /** compute_uncached_node. */
  function ComputeUncached(g: Graph, temp: map<int, Output>, resolved: set<int>, op: Operation, id: int)
      : (r: Result<Output>)
    requires id in g
  {
    if id !in resolved then Err(NoOperation)
    else
      var params := ParamsFrom(g, temp, g[id].paramInputs, 0, g[id].params);
      if params.Err? then Err(params.fault)
      else
        var images := ImagesFrom(g, temp, g[id].imageInputs, 0, []);
        if images.Err? then Err(images.fault)
        else
          match op(id, params.value, images.value)
          case Produced(o) => Ok(o)
          case Threw(code) => Err(OperationFailed(code))
  }

  // --------------------------------------------------- what resolution means, by position

  /** The connected input has no upstream output, or one that lacks the named datum. */
  predicate Bad(g: Graph, temp: map<int, Output>, p: ParamInput) {
    p.from >= 0 && (Upstream(g, temp, p.from).None? || p.output !in Upstream(g, temp, p.from).value.data)
  }

  function FaultOf(g: Graph, temp: map<int, Output>, p: ParamInput): (f: Fault) {
    if Upstream(g, temp, p.from).None? then InputNotReady else MissingOutput
  }

  /** `j` is the first bad input from `i` on. */
  predicate FirstBad(g: Graph, temp: map<int, Output>, inputs: seq<ParamInput>, i: nat, j: nat) {
    i <= j < |inputs| && Bad(g, temp, inputs[j]) && forall l | i <= l < j :: !Bad(g, temp, inputs[l])
  }

  /** `j` is the last connected input from `i` on that sets parameter `n`. */
  predicate LastSetter(inputs: seq<ParamInput>, i: nat, j: nat, n: nat) {
    && i <= j < |inputs| && inputs[j].from >= 0 && inputs[j].to == n
    && forall l | j < l < |inputs| && inputs[l].from >= 0 :: inputs[l].to != n
  }

  /** Some connected input from `i` on sets parameter `n`. */
  predicate IsSet(inputs: seq<ParamInput>, i: nat, n: nat) {
    exists j | i <= j < |inputs| :: inputs[j].from >= 0 && inputs[j].to == n
  }

  /** `m` is `acc` with every connected input from `i` on overlaid, later ones over earlier ones. */
  ghost predicate Overlaid(
      g: Graph, temp: map<int, Output>, inputs: seq<ParamInput>, i: nat, acc: map<nat, nat>, m: map<nat, nat>)
    requires forall j | i <= j < |inputs| :: !Bad(g, temp, inputs[j])
  {
    && (forall n :: n in m <==> n in acc || IsSet(inputs, i, n))
    && (forall n | n in m && !IsSet(inputs, i, n) :: m[n] == acc[n])
    && (forall j: nat | i <= j < |inputs| && !Bad(g, temp, inputs[j]) && LastSetter(inputs, i, j, inputs[j].to) ::
          inputs[j].to in m
          && m[inputs[j].to] == Upstream(g, temp, inputs[j].from).value.data[inputs[j].output])
  }

  /** The result is the overlay if no input is bad, and else the fault of the first bad one. */
  ghost predicate ParamsAre(
      g: Graph, temp: map<int, Output>, inputs: seq<ParamInput>, i: nat, acc: map<nat, nat>,
      r: Result<map<nat, nat>>)
  {
    && (r.Ok? <==> forall j | i <= j < |inputs| :: !Bad(g, temp, inputs[j]))
    && (r.Ok? ==> Overlaid(g, temp, inputs, i, acc, r.value))
    && (forall j: nat | FirstBad(g, temp, inputs, i, j) :: r == Err(FaultOf(g, temp, inputs[j])))
  }

  lemma {:induction false} ParamsMeaning(
      g: Graph, temp: map<int, Output>, inputs: seq<ParamInput>, i: nat, acc: map<nat, nat>)
    requires i <= |inputs|
    ensures ParamsAre(g, temp, inputs, i, acc, ParamsFrom(g, temp, inputs, i, acc))
    decreases |inputs| - i
  {
    if i < |inputs| {
      var p := inputs[i];
      if p.from < 0 {
        ParamsMeaning(g, temp, inputs, i + 1, acc);
        SkippedInput(g, temp, inputs, i, acc, ParamsFrom(g, temp, inputs, i + 1, acc));
      } else if !Bad(g, temp, p) {
        var v := Upstream(g, temp, p.from).value.data[p.output];
        ParamsMeaning(g, temp, inputs, i + 1, acc[p.to := v]);
        OverlaidInput(g, temp, inputs, i, acc, ParamsFrom(g, temp, inputs, i + 1, acc[p.to := v]));
      }
    }
  }

  lemma SetFromNext(inputs: seq<ParamInput>, i: nat, n: nat)
    requires i < |inputs|
    ensures IsSet(inputs, i, n) <==> IsSet(inputs, i + 1, n) || (inputs[i].from >= 0 && inputs[i].to == n)
  {
  }

  lemma SkippedInput(
      g: Graph, temp: map<int, Output>, inputs: seq<ParamInput>, i: nat, acc: map<nat, nat>,
      r: Result<map<nat, nat>>)
    requires i < |inputs| && inputs[i].from < 0 && ParamsAre(g, temp, inputs, i + 1, acc, r)
    ensures ParamsAre(g, temp, inputs, i, acc, r)
  {
    forall n ensures IsSet(inputs, i, n) <==> IsSet(inputs, i + 1, n) {
      SetFromNext(inputs, i, n);
    }
    forall j: nat | FirstBad(g, temp, inputs, i, j) ensures FirstBad(g, temp, inputs, i + 1, j) {
    }
  }

  lemma OverlaidInput(
      g: Graph, temp: map<int, Output>, inputs: seq<ParamInput>, i: nat, acc: map<nat, nat>,
      r: Result<map<nat, nat>>)
    requires i < |inputs| && inputs[i].from >= 0 && !Bad(g, temp, inputs[i])
    requires var v := Upstream(g, temp, inputs[i].from).value.data[inputs[i].output];
             ParamsAre(g, temp, inputs, i + 1, acc[inputs[i].to := v], r)
    ensures ParamsAre(g, temp, inputs, i, acc, r)
  {
    forall n ensures IsSet(inputs, i, n) <==> IsSet(inputs, i + 1, n) || inputs[i].to == n {
      SetFromNext(inputs, i, n);
    }
    forall j: nat | FirstBad(g, temp, inputs, i, j) ensures FirstBad(g, temp, inputs, i + 1, j) {
    }
    forall j: nat | j < |inputs| && j != i && LastSetter(inputs, i, j, inputs[j].to)
      ensures LastSetter(inputs, i + 1, j, inputs[j].to)
    {
    }
    if LastSetter(inputs, i, i, inputs[i].to) {
      assert !IsSet(inputs, i + 1, inputs[i].to);
    }
  }

  /** Image slots resolve each to its own upstream exactly when every connected one has an output. */
  ghost predicate ImagesAre(g: Graph, temp: map<int, Output>, inputs: seq<int>, r: Result<Images>) {
    && (r.Ok? <==> forall k | 0 <= k < |inputs| && inputs[k] >= 0 :: Upstream(g, temp, inputs[k]).Some?)
    && (r.Err? ==> r.fault == InputNotReady)
    && (r.Ok? ==> |r.value| == |inputs| && forall k | 0 <= k < |inputs| ::
                    r.value[k] == if inputs[k] < 0 then None else Upstream(g, temp, inputs[k]))
  }

  lemma {:induction false} ImagesFromMeaning(g: Graph, temp: map<int, Output>, inputs: seq<int>, i: nat, acc: Images)
    requires i <= |inputs| && |acc| == i
    requires forall k | 0 <= k < i :: acc[k] == if inputs[k] < 0 then None else Upstream(g, temp, inputs[k])
    requires forall k | 0 <= k < i && inputs[k] >= 0 :: Upstream(g, temp, inputs[k]).Some?
    ensures ImagesAre(g, temp, inputs, ImagesFrom(g, temp, inputs, i, acc))
    decreases |inputs| - i
  {
    if i < |inputs| && (inputs[i] < 0 || Upstream(g, temp, inputs[i]).Some?) {
      ImagesFromMeaning(g, temp, inputs, i + 1, acc + [if inputs[i] < 0 then None else Upstream(g, temp, inputs[i])]);
    }
  }

  /**
    A node is computed by its operation from exactly its resolved parameters and
    images; without an operation, or with inputs that do not resolve, it fails
    before the operation, in that order.
   */
  lemma ComputeMeaning(g: Graph, temp: map<int, Output>, resolved: set<int>, op: Operation, id: int)
    requires id in g
    ensures var r := ComputeUncached(g, temp, resolved, op, id);
            var params := ParamsFrom(g, temp, g[id].paramInputs, 0, g[id].params);
            var images := ImagesFrom(g, temp, g[id].imageInputs, 0, []);
            && ParamsAre(g, temp, g[id].paramInputs, 0, g[id].params, params)
            && ImagesAre(g, temp, g[id].imageInputs, images)
            && (r == Err(NoOperation) <==> id !in resolved)
            && (id in resolved && params.Err? ==> r == Err(params.fault))
            && (id in resolved && params.Ok? && images.Err? ==> r == Err(InputNotReady))
            && (id in resolved && params.Ok? && images.Ok? ==>
                  var made := op(id, params.value, images.value);
                  r == if made.Produced? then Ok(made.output) else Err(OperationFailed(made.code)))
  {
    ParamsMeaning(g, temp, g[id].paramInputs, 0, g[id].params);
    ImagesFromMeaning(g, temp, g[id].imageInputs, 0, []);
    ParamFaults(g, temp, g[id].paramInputs, 0, g[id].params);
  }

  lemma {:induction false} ParamFaults(
      g: Graph, temp: map<int, Output>, inputs: seq<ParamInput>, i: nat, acc: map<nat, nat>)
    requires i <= |inputs|
    ensures ParamsFrom(g, temp, inputs, i, acc) != Err(NoOperation)
    decreases |inputs| - i
  {
    if i < |inputs| {
      var p := inputs[i];
      if p.from < 0 {
        ParamFaults(g, temp, inputs, i + 1, acc);
      } else if !Bad(g, temp, p) {
        ParamFaults(g, temp, inputs, i + 1, acc[p.to := Upstream(g, temp, p.from).value.data[p.output]]);
      }
    }
  }

  /** Nodes a node's inputs are connected to. */
  predicate IsUpstream(x: Node, u: int) {
    u >= 0 && ((exists i | 0 <= i < |x.paramInputs| :: x.paramInputs[i].from == u) || u in x.imageInputs)
  }

  /** Two stores give node `x` the same inputs. */
  ghost predicate SameInputs(g: Graph, a: map<int, Output>, b: map<int, Output>, x: Node) {
    forall u | IsUpstream(x, u) :: Upstream(g, a, u) == Upstream(g, b, u)
  }

  lemma {:induction false} SameParams(
      g: Graph, a: map<int, Output>, b: map<int, Output>, x: Node, i: nat, acc: map<nat, nat>)
    requires SameInputs(g, a, b, x) && i <= |x.paramInputs|
    ensures ParamsFrom(g, a, x.paramInputs, i, acc) == ParamsFrom(g, b, x.paramInputs, i, acc)
    decreases |x.paramInputs| - i
  {
    if i < |x.paramInputs| {
      var p := x.paramInputs[i];
      if p.from < 0 {
        SameParams(g, a, b, x, i + 1, acc);
      } else {
        assert IsUpstream(x, p.from);
        var o := Upstream(g, a, p.from);
        if o.Some? && p.output in o.value.data {
          SameParams(g, a, b, x, i + 1, acc[p.to := o.value.data[p.output]]);
        }
      }
    }
  }

  lemma {:induction false} SameImages(
      g: Graph, a: map<int, Output>, b: map<int, Output>, x: Node, i: nat, acc: Images)
    requires SameInputs(g, a, b, x) && i <= |x.imageInputs|
    ensures ImagesFrom(g, a, x.imageInputs, i, acc) == ImagesFrom(g, b, x.imageInputs, i, acc)
    decreases |x.imageInputs| - i
  {
    if i < |x.imageInputs| {
      var u := x.imageInputs[i];
      assert u >= 0 ==> IsUpstream(x, u);
      SameImages(g, a, b, x, i + 1, acc + [if u < 0 then None else Upstream(g, a, u)]);
    }
  }

  /** A node's result depends on its connected inputs only. */
  lemma ResultDependsOnInputs(
      g: Graph, a: map<int, Output>, b: map<int, Output>, resolved: set<int>, op: Operation, id: int)
    requires id in g && SameInputs(g, a, b, g[id])
    ensures ComputeUncached(g, a, resolved, op, id) == ComputeUncached(g, b, resolved, op, id)
  {
    SameParams(g, a, b, g[id], 0, g[id].params);
    SameImages(g, a, b, g[id], 0, []);
  }

  /** Every connected input is there. */
  ghost predicate InputsReady(g: Graph, temp: map<int, Output>, x: Node) {
    forall u | IsUpstream(x, u) :: Upstream(g, temp, u).Some?
  }

  lemma {:induction false} ReadyParams(g: Graph, temp: map<int, Output>, x: Node, i: nat, acc: map<nat, nat>)
    requires InputsReady(g, temp, x) && i <= |x.paramInputs|
    ensures ParamsFrom(g, temp, x.paramInputs, i, acc) != Err(InputNotReady)
    decreases |x.paramInputs| - i
  {
    if i < |x.paramInputs| {
      var p := x.paramInputs[i];
      if p.from < 0 {
        ReadyParams(g, temp, x, i + 1, acc);
      } else {
        assert IsUpstream(x, p.from);
        var o := Upstream(g, temp, p.from);
        if p.output in o.value.data {
          ReadyParams(g, temp, x, i + 1, acc[p.to := o.value.data[p.output]]);
        }
      }
    }
  }

  /** With every input ready the image slots resolve, each to its own upstream. */
  lemma {:induction false} ReadyImages(g: Graph, temp: map<int, Output>, x: Node, i: nat, acc: Images)
    requires InputsReady(g, temp, x) && i <= |x.imageInputs| && |acc| == i
    ensures var r := ImagesFrom(g, temp, x.imageInputs, i, acc);
            && r.Ok? && |r.value| == |x.imageInputs| && acc <= r.value
            && forall k | i <= k < |x.imageInputs| ::
                 r.value[k] == if x.imageInputs[k] < 0 then None else Upstream(g, temp, x.imageInputs[k])
    decreases |x.imageInputs| - i
  {
    if i < |x.imageInputs| {
      var u := x.imageInputs[i];
      assert u >= 0 ==> IsUpstream(x, u);
      ReadyImages(g, temp, x, i + 1, acc + [if u < 0 then None else Upstream(g, temp, u)]);
    }
  }

  /** With every input ready a node fails for a reason of its own only. */
  lemma ReadyNodeIsNotBlocked(g: Graph, temp: map<int, Output>, resolved: set<int>, op: Operation, id: int)
    requires id in g && InputsReady(g, temp, g[id])
    ensures ComputeUncached(g, temp, resolved, op, id) != Err(InputNotReady)
  {
    ReadyParams(g, temp, g[id], 0, g[id].params);
    ReadyImages(g, temp, g[id], 0, []);
  }

  // ------------------------------------------------------------------ the runner

  class NodeTaskRunner {
    const graph: Graph
    const order: seq<int>
    const idToIdx: map<int, nat>
    const resolved: set<int>
    const op: Operation
    const temp: array<Option<Output>>

    ghost predicate Valid() {
      && temp.Length == |order|
      && (forall i | 0 <= i < |order| :: order[i] in idToIdx && idToIdx[order[i]] == i)
      && (forall id | id in idToIdx :: idToIdx[id] < |order| && order[idToIdx[id]] == id)
    }

    /** The temporary results by node. */
    ghost function Temp(): (m: map<int, Output>)
      requires Valid()
      reads temp
    {
      map id | id in idToIdx && temp[idToIdx[id]].Some? :: temp[idToIdx[id]].value
    }

    constructor (graph: Graph, order: seq<int>, resolved: set<int>, op: Operation)
      requires forall i, j | 0 <= i < j < |order| :: order[i] != order[j]
      ensures Valid() && fresh(temp) && Temp() == map[]
      ensures this.graph == graph && this.order == order && this.resolved == resolved && this.op == op
    {
      var index: map<int, nat> := map[];
      var i := 0;
      while i < |order|
        invariant 0 <= i <= |order|
        invariant forall k | 0 <= k < i :: order[k] in index && index[order[k]] == k
        invariant forall id | id in index :: index[id] < i && order[index[id]] == id
      {
        index := index[order[i] := i];
        i := i + 1;
      }
      this.graph, this.order, this.resolved, this.op, this.idToIdx := graph, order, resolved, op, index;
      temp := new Option<Output>[|order|](_ => None);
      new;
      assert forall i | 0 <= i < temp.Length :: temp[i].None?;
      assert forall id | id in idToIdx :: id !in Temp();
    }

    method UpstreamOutput(u: int) returns (o: Option<Output>)
      requires Valid()
      ensures o == Upstream(graph, Temp(), u)
      ensures u < 0 || u !in graph ==> o == None
      ensures u >= 0 && u in graph && u in idToIdx && temp[idToIdx[u]].Some? ==> o == temp[idToIdx[u]]
      ensures u >= 0 && u in graph && !(u in idToIdx && temp[idToIdx[u]].Some?) ==> o == graph[u].cached
    {
      if u < 0 || u !in graph {
        return None;
      }
      if u in idToIdx && temp[idToIdx[u]].Some? {
        return temp[idToIdx[u]];
      }
      return graph[u].cached;
    }

    method ResolveRuntimeParameters(id: int) returns (r: Result<map<nat, nat>>)
      requires Valid() && id in graph
      ensures r == ParamsFrom(graph, Temp(), graph[id].paramInputs, 0, graph[id].params)
      ensures ParamsAre(graph, Temp(), graph[id].paramInputs, 0, graph[id].params, r)
    {
      ParamsMeaning(graph, Temp(), graph[id].paramInputs, 0, graph[id].params);
      var inputs := graph[id].paramInputs;
      var params: map<nat, nat> := graph[id].params;
      var i := 0;
      while i < |inputs|
        invariant 0 <= i <= |inputs|
        invariant ParamsFrom(graph, Temp(), inputs, i, params) ==
                    ParamsFrom(graph, Temp(), inputs, 0, graph[id].params)
      {
        if inputs[i].from >= 0 {
          var o := UpstreamOutput(inputs[i].from);
          if o.None? {
            return Err(InputNotReady);
          }
          if inputs[i].output !in o.value.data {
            return Err(MissingOutput);
          }
          params := params[inputs[i].to := o.value.data[inputs[i].output]];
        }
        i := i + 1;
      }
      return Ok(params);
    }

    method ResolveImageInputs(id: int) returns (r: Result<Images>)
      requires Valid() && id in graph
      ensures r == ImagesFrom(graph, Temp(), graph[id].imageInputs, 0, [])
      ensures ImagesAre(graph, Temp(), graph[id].imageInputs, r)
    {
      ImagesFromMeaning(graph, Temp(), graph[id].imageInputs, 0, []);
      var inputs := graph[id].imageInputs;
      var images: Images := [];
      var i := 0;
      while i < |inputs|
        invariant 0 <= i <= |inputs|
        invariant ImagesFrom(graph, Temp(), inputs, i, images) == ImagesFrom(graph, Temp(), inputs, 0, [])
      {
        if inputs[i] < 0 {
          images := images + [None];
        } else {
          var o := UpstreamOutput(inputs[i]);
          if o.None? {
            return Err(InputNotReady);
          }
          images := images + [o];
        }
        i := i + 1;
      }
      return Ok(images);
    }

    /** compute_node: nothing to do when the node already has an output; None means no fault. */
    method ComputeNode(id: int) returns (fault: Option<Fault>)
      requires Valid() && id in graph && id in idToIdx
      modifies temp
      ensures var was := old(Temp());
              if graph[id].cached.Some? || id in was then fault.None? && Temp() == was
              else match ComputeUncached(graph, was, resolved, op, id)
                   case Ok(v) => fault.None? && Temp() == was[id := v]
                   case Err(f) => fault == Some(f) && Temp() == was
    {
      var idx := idToIdx[id];
      if graph[id].cached.Some? || temp[idx].Some? {
        return None;
      }
      if id !in resolved {
        return Some(NoOperation);
      }
      var params := ResolveRuntimeParameters(id);
      if params.Err? {
        return Some(params.fault);
      }
      var images := ResolveImageInputs(id);
      if images.Err? {
        return Some(images.fault);
      }
      var result := op(id, params.value, images.value);
      if result.Threw? {
        return Some(OperationFailed(result.code));
      }
      temp[idx] := Some(result.output);
      assert forall k | k in idToIdx && k != id :: idToIdx[k] != idx;
      assert Temp() == old(Temp())[id := result.output];
      return None;
    }
  }

  // ------------------------------------------------------------------ the committer

  /** commit for the first `i` slots; a slot whose node is missing is not committed. */
  function CommitUpTo(g: Graph, order: seq<int>, temp: seq<Option<Output>>, i: nat): (h: Graph)
    requires i <= |order| <= |temp|
  {
    if i == 0 then g
    else
      var h := CommitUpTo(g, order, temp, i - 1);
      var id := order[i - 1];
      if temp[i - 1].None? || id !in h then h
      else h[id := h[id].(cached := temp[i - 1], version := h[id].version + 1)]
  }

  /** Populated slots of node `id` among the first `i`. */
  function Populated(order: seq<int>, temp: seq<Option<Output>>, i: nat, id: int): (n: nat)
    requires i <= |order| <= |temp|
  {
    if i == 0 then 0
    else Populated(order, temp, i - 1, id) + if order[i - 1] == id && temp[i - 1].Some? then 1 else 0
  }

  /**
    Committing raises a node's version once per populated slot, leaves a node
    without one as it was, keeps everything but output and version, and gives a
    node with exactly one populated slot that slot's output.
   */
  lemma {:induction false} CommitMeaning(
      g: Graph, order: seq<int>, temp: seq<Option<Output>>, i: nat, id: int)
    requires i <= |order| <= |temp| && id in g
    ensures var h := CommitUpTo(g, order, temp, i); var n := Populated(order, temp, i, id);
            && h.Keys == g.Keys
            && h[id] == g[id].(cached := h[id].cached, version := g[id].version + n)
            && (n == 0 ==> h[id].cached == g[id].cached)
            && (forall k | 0 <= k < i && order[k] == id && temp[k].Some? :: n == 1 ==> h[id].cached == temp[k])
  {
    if i > 0 {
      CommitMeaning(g, order, temp, i - 1, id);
      forall k | 0 <= k < i - 1 && order[k] == id && temp[k].Some?
        ensures Populated(order, temp, i - 1, id) >= 1
      {
        PopulatedAt(order, temp, i - 1, id, k);
      }
    }
  }

  lemma {:induction false} PopulatedAt(order: seq<int>, temp: seq<Option<Output>>, i: nat, id: int, k: nat)
    requires k < i <= |order| <= |temp| && order[k] == id && temp[k].Some?
    ensures Populated(order, temp, i, id) >= 1
  {
    if k < i - 1 {
      PopulatedAt(order, temp, i - 1, id, k);
    }
  }

  /** clear_planned_high_precision_caches for the first `i` ids. */
  function ClearUpTo(g: Graph, order: seq<int>, i: nat): (h: Graph)
    requires i <= |order|
  {
    if i == 0 then g
    else
      var h := ClearUpTo(g, order, i - 1);
      if order[i - 1] in h then h[order[i - 1] := h[order[i - 1]].(cached := None)] else h
  }

  /** Clearing drops exactly the planned nodes' outputs and changes nothing else. */
  lemma {:induction false} ClearMeaning(g: Graph, order: seq<int>, i: nat, id: int)
    requires i <= |order| && id in g
    ensures ClearUpTo(g, order, i).Keys == g.Keys
    ensures ClearUpTo(g, order, i)[id] == if id in order[..i] then g[id].(cached := None) else g[id]
  {
    if i > 0 {
      ClearMeaning(g, order, i - 1, id);
      assert order[..i] == order[..i - 1] + [order[i - 1]];
    }
  }

  /** The graph as the committer mutates it. */
  class LiveGraph {
    var nodes: Graph

    constructor (nodes: Graph)
      ensures this.nodes == nodes
    {
      this.nodes := nodes;
    }

    /** False when a populated slot names a missing node; the slots before it are committed. */
    method Commit(order: seq<int>, temp: seq<Option<Output>>) returns (ok: bool, done: nat)
      requires |order| <= |temp|
      modifies this
      ensures done <= |order| && nodes == CommitUpTo(old(nodes), order, temp, done)
      ensures ok ==> done == |order|
      ensures !ok ==> done < |order| && temp[done].Some? && order[done] !in nodes
      ensures forall k | 0 <= k < done :: temp[k].Some? ==> order[k] in nodes
    {
      done := 0;
      while done < |order|
        invariant 0 <= done <= |order|
        invariant nodes == CommitUpTo(old(nodes), order, temp, done)
        invariant forall k | 0 <= k < done :: temp[k].Some? ==> order[k] in nodes
      {
        if temp[done].Some? {
          var id := order[done];
          if id !in nodes {
            return false, done;
          }
          nodes := nodes[id := nodes[id].(cached := temp[done], version := nodes[id].version + 1)];
        }
        done := done + 1;
      }
      return true, done;
    }

    method ClearPlanned(order: seq<int>)
      modifies this
      ensures nodes == ClearUpTo(old(nodes), order, |order|)
    {
      var i := 0;
      while i < |order|
        invariant 0 <= i <= |order|
        invariant nodes == ClearUpTo(old(nodes), order, i)
      {
        if order[i] in nodes {
          nodes := nodes[order[i] := nodes[order[i]].(cached := None)];
        }
        i := i + 1;
      }
    }
  }
}
