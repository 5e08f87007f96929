/**
 * The dependency graph (`Nexus`) that a fit registers its quantities in.
 * The graph engine (kafe2/core/fitters/nexus.py) is not part of this model:
 * here it is a registry of named nodes with their dependency lists, plus
 * aliases, that answers every request by accepting or refusing it. The
 * insertion policies below are the semantics assumed for the engine's
 * `existing_behavior` argument; lazy evaluation, dirty propagation and cycle
 * checks are not modelled. Every request made is kept in a log.
 */
module Nexuses {
  /** The function a function node evaluates. */
  datatype Func =
    | PropertyGetter(prop: string)
    | InvertMatrix
    | AddInQuadrature
    | MatrixSum
    | Concatenate
    | CostFunction(name: string)

  datatype NodeKind =
    | EmptyNode
    | ParameterNode(value: real)
    | FunctionNode(func: Func, parNames: seq<string>)

  /** What happens when a node changes; the only one a fit registers pushes `poi_values` into the model. */
  datatype Callback = PushPoiValues

  datatype Node = Node(kind: NodeKind, deps: seq<string>, callbacks: seq<Callback>)

  /** `existing_behavior`: what to do when the name is already taken. */
  datatype Policy = FailIfExists | Replace | ReplaceIfEmpty | Ignore

  datatype Request =
    | AddNode(name: string, kind: NodeKind, policy: Policy)
    | AddDependency(name: string, dependsOn: seq<string>)
    | AddAlias(alias: string, target: string, aliasPolicy: Policy)
    | RegisterCallback(node: string, callback: Callback)

  datatype Graph = Graph(nodes: map<string, Node>, aliases: map<string, string>)

  /** The engine's answer: accepted or refused (a `NexusError`), and the graph afterwards. */
  datatype Answer = Answer(accepted: bool, graph: Graph)

  predicate Known(g: Graph, name: string) {
    name in g.nodes || name in g.aliases
  }

  /** A new node depends on its parameters. */
  function NewNode(kind: NodeKind): Node {
    Node(kind, if kind.FunctionNode? then kind.parNames else [], [])
  }

  /** Parameters a function node names before they exist are created as empty placeholders. */
  function WithPlaceholders(g: Graph, names: seq<string>): (r: Graph)
    ensures g.aliases == r.aliases
    ensures forall nm :: nm in g.nodes ==> nm in r.nodes && r.nodes[nm] == g.nodes[nm]
    ensures forall i :: 0 <= i < |names| ==> Known(r, names[i])
    ensures forall nm :: nm in r.nodes && nm !in g.nodes ==> r.nodes[nm] == NewNode(EmptyNode)
  {
    if names == [] then g
    else
      var h := WithPlaceholders(g, names[..|names| - 1]);
      var last := names[|names| - 1];
      if Known(h, last) then h else Graph(h.nodes[last := NewNode(EmptyNode)], h.aliases)
  }

  /** Registers `name` as a node of `kind`, displacing an alias of that name. */
  function Insert(g: Graph, name: string, kind: NodeKind): (r: Graph)
    ensures name in r.nodes && r.nodes[name] == NewNode(kind) && name !in r.aliases
  {
    var h := if kind.FunctionNode? then WithPlaceholders(g, kind.parNames) else g;
    Graph(h.nodes[name := NewNode(kind)], h.aliases - {name})
  }

  /**
   * One request. A free name is always taken. A taken one: `FailIfExists`
   * refuses, `Ignore` accepts and changes nothing, `Replace` replaces,
   * `ReplaceIfEmpty` replaces only an empty placeholder. A dependency or
   * callback needs an existing node, an alias an existing target.
   */
  function Step(g: Graph, req: Request): (a: Answer)
    ensures !a.accepted ==> a.graph == g
    ensures req.AddNode? && !Known(g, req.name) ==> a.accepted && req.name in a.graph.nodes && a.graph.nodes[req.name] == NewNode(req.kind)
    ensures req.AddNode? && Known(g, req.name) && req.policy == FailIfExists ==> !a.accepted
    ensures req.AddNode? && Known(g, req.name) && req.policy == Ignore ==> a == Answer(true, g)
    ensures req.AddAlias? && req.target in g.nodes && Known(g, req.alias) && req.aliasPolicy == Ignore ==> a == Answer(true, g)
    ensures req.AddAlias? && Known(g, req.alias) && req.aliasPolicy == FailIfExists ==> !a.accepted
    ensures a.accepted && req.AddNode? ==> Known(a.graph, req.name)
  {
    match req
    case AddNode(name, kind, policy) =>
      if !Known(g, name) then Answer(true, Insert(g, name, kind))
      else (
        match policy
        case FailIfExists => Answer(false, g)
        case Ignore => Answer(true, g)
        case Replace => Answer(true, Insert(g, name, kind))
        case ReplaceIfEmpty =>
          if name in g.nodes && g.nodes[name].kind.EmptyNode? then Answer(true, Insert(g, name, kind))
          else Answer(false, g))
    case AddDependency(name, deps) =>
      if name in g.nodes && forall i :: 0 <= i < |deps| ==> Known(g, deps[i]) then
        var nd := g.nodes[name];
        Answer(true, Graph(g.nodes[name := nd.(deps := nd.deps + deps)], g.aliases))
      else Answer(false, g)
    case AddAlias(alias, target, policy) =>
      if target !in g.nodes then Answer(false, g)
      else if !Known(g, alias) then Answer(true, Graph(g.nodes, g.aliases[alias := target]))
      else (
        match policy
        case FailIfExists => Answer(false, g)
        case Ignore => Answer(true, g)
        case Replace => Answer(true, Graph(g.nodes - {alias}, g.aliases[alias := target]))
        case ReplaceIfEmpty =>
          if alias in g.nodes && g.nodes[alias].kind.EmptyNode? then
            Answer(true, Graph(g.nodes - {alias}, g.aliases[alias := target]))
          else Answer(false, g))
    case RegisterCallback(name, cb) =>
      if name in g.nodes then
        var nd := g.nodes[name];
        Answer(true, Graph(g.nodes[name := nd.(callbacks := nd.callbacks + [cb])], g.aliases))
      else Answer(false, g)
  }

  /** The graph after a sequence of requests, refused ones changing nothing. */
  function Apply(g: Graph, reqs: seq<Request>): Graph {
    if reqs == [] then g else Step(Apply(g, reqs[..|reqs| - 1]), reqs[|reqs| - 1]).graph
  }

  /** Requests that change nothing leave the whole run unaffected: a graph replays the same after a refused request. */
  lemma {:induction false} ApplyRefusedIsNoop(g: Graph, reqs: seq<Request>, req: Request, rest: seq<Request>)
    requires !Step(Apply(g, reqs), req).accepted
    ensures Apply(g, reqs + [req] + rest) == Apply(Apply(g, reqs), rest)
    decreases |rest|
  {
    if rest == [] {
      assert reqs + [req] + rest == reqs + [req];
      assert (reqs + [req])[..|reqs|] == reqs;
    } else {
      var whole := reqs + [req] + rest;
      assert whole[..|whole| - 1] == reqs + [req] + rest[..|rest| - 1];
      ApplyRefusedIsNoop(g, reqs, req, rest[..|rest| - 1]);
    }
  }

  class Nexus {
    /** The graph the object started from. */
    ghost const origin: Graph
    var graph: Graph
    /** Every request made, accepted or not, in order. */
    var log: seq<Request>

    /** The graph is the starting graph after every logged request. */
    ghost predicate Valid()
      reads this
    {
      graph == Apply(origin, log)
    }

    /** `Nexus()`: an empty graph. */
    constructor Init()
      ensures Valid() && graph == Graph(map[], map[]) && log == []
    {
      origin := Graph(map[], map[]);
      graph := Graph(map[], map[]);
      log := [];
    }

    /** One call into the engine: logged, and answered by `Step`. */
    method Submit(req: Request) returns (accepted: bool)
      requires Valid()
      modifies this`graph, this`log
      ensures Valid()
      ensures log == old(log) + [req]
      ensures Answer(accepted, graph) == Step(old(graph), req)
    {
      var a := Step(graph, req);
      log := log + [req];
      assert log[..|log| - 1] == old(log);
      graph := a.graph;
      accepted := a.accepted;
    }
  }
}
