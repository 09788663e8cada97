/**
 * The workflow graph: named nodes wrapping state functions, directed edges
 * with optional conditions, an entry point, the builder operations that
 * check their arguments eagerly, validation, and first-match routing.
 */
module GraphModel {
  import opened Values

  /** What calling a node function does: return a value, or raise. */
  datatype NodeOutcome = NodeReturned(value: Value) | NodeRaised(message: string)

  /** What evaluating an edge condition does: truthy, falsy, or raise. */
  datatype CondResult = CondTrue | CondFalse | CondRaised(message: string)

  type NodeFn = State -> NodeOutcome
  type Condition = State -> CondResult

  datatype NodeDefinition = NodeDefinition(name: string, func: NodeFn, description: string)

  datatype EdgeDefinition = EdgeDefinition(
    fromNode: string,
    toNode: string,
    condition: Option<Condition>,
    description: string)

  /** A builder call either succeeds or raises a ValueError with a message. */
  datatype Outcome = Pass | Fail(message: string)

  datatype Result<T> = Ok(value: T) | Err(message: string)

  /** The condition of an edge on a state; an edge without one is always taken. */
  function Evaluate(e: EdgeDefinition, s: State): CondResult
  {
    if e.condition.None? then CondTrue else e.condition.value(s)
  }

  /**
   * get_next_nodes as a function of the edge list: the targets of the edges
   * leaving `current` whose condition holds, in edge order; the first
   * condition that raises makes the whole call raise.
   */
  function NextNodes(edges: seq<EdgeDefinition>, current: string, s: State): Result<seq<string>>
    decreases |edges|
  {
    if edges == [] then Ok([])
    else
      match NextNodes(edges[..|edges| - 1], current, s)
      case Err(m) => Err(m)
      case Ok(found) =>
        var e := edges[|edges| - 1];
        if e.fromNode != current then Ok(found)
        else
          match Evaluate(e, s)
          case CondTrue => Ok(found + [e.toNode])
          case CondFalse => Ok(found)
          case CondRaised(m) => Err(m)
  }

  /** Reference definition of routing: the target of the first edge leaving
      `current` whose condition is true, if there is one. */
  function Successor(edges: seq<EdgeDefinition>, current: string, s: State): Option<string>
    decreases |edges|
  {
    if edges == [] then None
    else if edges[0].fromNode == current && Evaluate(edges[0], s) == CondTrue then Some(edges[0].toNode)
    else Successor(edges[1..], current, s)
  }

  /** Edge `e` leaves `current` and its condition is true on `s`. */
  predicate Qualifies(e: EdgeDefinition, current: string, s: State)
  {
    e.fromNode == current && Evaluate(e, s) == CondTrue
  }

  /** Edge `e` leaves `current` and its condition raises on `s`. */
  predicate RaisesOn(e: EdgeDefinition, current: string, s: State)
  {
    e.fromNode == current && Evaluate(e, s).CondRaised?
  }

  /** Appending two pieces one after the other appends their concatenation. */
  lemma AppendAssoc<T>(a: seq<T>, b: seq<T>, c: seq<T>)
    ensures a + b + c == a + (b + c)
  {}

  /** Four single appends make one four-element append. */
  lemma AppendFour<T>(v: seq<T>, a: T, b: T, c: T, d: T)
    ensures v + [a] + [b] + [c] + [d] == v + [a, b, c, d]
  {}

  /** Five single appends to the empty sequence make a five-element sequence. */
  lemma AppendFive<T>(a: T, b: T, c: T, d: T, e: T)
    ensures [] + [a] + [b] + [c] + [d] + [e] == [a, b, c, d, e]
  {}

  /** Combining the routing results of two consecutive runs of edges. */
  function Concat<T>(a: Result<seq<T>>, b: Result<seq<T>>): Result<seq<T>>
  {
    match a
    case Err(m) => Err(m)
    case Ok(x) =>
      match b
      case Err(m) => Err(m)
      case Ok(y) => Ok(x + y)
  }

  /** Combining with a result that found nothing leaves the other result as it is. */
  lemma ConcatNothing<T>(r: Result<seq<T>>)
    ensures Concat(Ok([]), r) == r && Concat(r, Ok([])) == r
  {
    if r.Ok? {
      assert [] + r.value == r.value && r.value + [] == r.value;
    }
  }

  /** Routing over `a + b` scans `a` first, then `b`: targets of `a` come first,
      and a raise in `a` wins over anything in `b`. */
  lemma {:induction false} NextNodesAppend(a: seq<EdgeDefinition>, b: seq<EdgeDefinition>, current: string, s: State)
    ensures NextNodes(a + b, current, s) == Concat(NextNodes(a, current, s), NextNodes(b, current, s))
    decreases |b|
  {
    if b == [] {
      assert a + b == a;
      match NextNodes(a, current, s)
      case Err(_) =>
      case Ok(x) => assert x + [] == x;
    } else {
      var b' := b[..|b| - 1];
      assert (a + b)[..|a + b| - 1] == a + b';
      assert (a + b)[|a + b| - 1] == b[|b| - 1];
      NextNodesAppend(a, b', current, s);
      match NextNodes(a, current, s)
      case Err(_) =>
      case Ok(x) =>
        match NextNodes(b', current, s)
        case Err(_) =>
        case Ok(y) =>
          assert (x + y) + [b[|b| - 1].toNode] == x + (y + [b[|b| - 1].toNode]);
    }
  }

  /** Routing raises exactly when some edge leaving `current` has a condition
      that raises on `s`. */
  lemma {:induction false} NextNodesRaises(edges: seq<EdgeDefinition>, current: string, s: State)
    ensures NextNodes(edges, current, s).Err? <==> exists i :: 0 <= i < |edges| && RaisesOn(edges[i], current, s)
    decreases |edges|
  {
    if edges != [] {
      var pre := edges[..|edges| - 1];
      NextNodesRaises(pre, current, s);
      if exists i :: 0 <= i < |pre| && RaisesOn(pre[i], current, s) {
        var i :| 0 <= i < |pre| && RaisesOn(pre[i], current, s);
        assert RaisesOn(edges[i], current, s);
      }
      if exists i :: 0 <= i < |edges| && RaisesOn(edges[i], current, s) {
        var i :| 0 <= i < |edges| && RaisesOn(edges[i], current, s);
        if i < |pre| {
          assert RaisesOn(pre[i], current, s);
        }
      }
    }
  }

  /** When routing succeeds, a name is among the next nodes exactly when some
      qualifying edge leaving `current` leads to it. */
  lemma {:induction false} NextNodesMembers(edges: seq<EdgeDefinition>, current: string, s: State, x: string)
    requires NextNodes(edges, current, s).Ok?
    ensures x in NextNodes(edges, current, s).value <==>
            exists i :: 0 <= i < |edges| && Qualifies(edges[i], current, s) && edges[i].toNode == x
    decreases |edges|
  {
    if edges != [] {
      var pre := edges[..|edges| - 1];
      NextNodesMembers(pre, current, s, x);
      if exists i :: 0 <= i < |pre| && Qualifies(pre[i], current, s) && pre[i].toNode == x {
        var i :| 0 <= i < |pre| && Qualifies(pre[i], current, s) && pre[i].toNode == x;
        assert Qualifies(edges[i], current, s) && edges[i].toNode == x;
      }
      if exists i :: 0 <= i < |edges| && Qualifies(edges[i], current, s) && edges[i].toNode == x {
        var i :| 0 <= i < |edges| && Qualifies(edges[i], current, s) && edges[i].toNode == x;
        if i < |pre| {
          assert Qualifies(pre[i], current, s) && pre[i].toNode == x;
        }
      }
    }
  }

  /** When routing succeeds, its first element (the node execute moves to) is
      the target of the first qualifying edge, and there is none exactly when
      no edge qualifies. */
  lemma {:induction false} NextNodesFirst(edges: seq<EdgeDefinition>, current: string, s: State)
    requires NextNodes(edges, current, s).Ok?
    ensures var found := NextNodes(edges, current, s).value;
            Successor(edges, current, s) == if |found| > 0 then Some(found[0]) else None
    decreases |edges|
  {
    if edges != [] {
      var head, tail := [edges[0]], edges[1..];
      assert edges == head + tail;
      NextNodesAppend(head, tail, current, s);
      assert head[..0] == [];
      NextNodesFirst(tail, current, s);
    }
  }

  /** A raise while scanning a prefix of the edges makes the whole scan raise. */
  lemma NextNodesPrefixRaises(edges: seq<EdgeDefinition>, k: nat, current: string, s: State)
    requires k <= |edges| && NextNodes(edges[..k], current, s).Err?
    ensures NextNodes(edges, current, s) == NextNodes(edges[..k], current, s)
  {
    assert edges == edges[..k] + edges[k..];
    NextNodesAppend(edges[..k], edges[k..], current, s);
  }

  class Graph {
    const name: string
    const graphId: string
    var nodes: map<string, NodeDefinition>
    var edges: seq<EdgeDefinition>
    var entryPoint: Option<string>

    /** What the builder operations guarantee of every graph built with them. */
    ghost predicate Valid()
      reads this
    {
      && (forall n :: n in nodes ==> nodes[n].name == n)
      && (forall i :: 0 <= i < |edges| ==> edges[i].fromNode in nodes && edges[i].toNode in nodes)
      && (entryPoint.Some? <==> nodes != map[])
      && (entryPoint.Some? ==> entryPoint.value in nodes)
    }

    constructor (name: string, graphId: string)
      ensures this.name == name && this.graphId == graphId
      ensures nodes == map[] && edges == [] && entryPoint == None
      ensures Valid()
    {
      this.name := name;
      this.graphId := graphId;
      nodes := map[];
      edges := [];
      entryPoint := None;
    }

    /** add_node: refuses a duplicate name; the first node added becomes the entry point. */
    method AddNode(name: string, func: NodeFn, description: string) returns (r: Outcome)
      modifies this
      ensures name in old(nodes) ==>
                r == Fail("Node '" + name + "' already exists") &&
                nodes == old(nodes) && entryPoint == old(entryPoint)
      ensures name !in old(nodes) ==>
                r == Pass &&
                nodes == old(nodes)[name := NodeDefinition(name, func, description)] &&
                entryPoint == (if old(entryPoint).None? then Some(name) else old(entryPoint))
      ensures edges == old(edges)
      ensures old(Valid()) ==> Valid()
    {
      if name in nodes {
        return Fail("Node '" + name + "' already exists");
      }
      nodes := nodes[name := NodeDefinition(name, func, description)];
      if entryPoint.None? {
        entryPoint := Some(name);
      }
      r := Pass;
    }

    /** add_edge: both endpoints must already be nodes; the edge goes at the end. */
    method AddEdge(fromNode: string, toNode: string, condition: Option<Condition>, description: string)
      returns (r: Outcome)
      modifies this
      ensures fromNode !in old(nodes) ==> r == Fail("Source node '" + fromNode + "' does not exist")
      ensures fromNode in old(nodes) && toNode !in old(nodes) ==>
                r == Fail("Destination node '" + toNode + "' does not exist")
      ensures r.Pass? <==> fromNode in old(nodes) && toNode in old(nodes)
      ensures edges == if r.Pass? then old(edges) + [EdgeDefinition(fromNode, toNode, condition, description)]
                       else old(edges)
      ensures nodes == old(nodes) && entryPoint == old(entryPoint)
      ensures old(Valid()) ==> Valid()
    {
      if fromNode !in nodes {
        return Fail("Source node '" + fromNode + "' does not exist");
      }
      if toNode !in nodes {
        return Fail("Destination node '" + toNode + "' does not exist");
      }
      edges := edges + [EdgeDefinition(fromNode, toNode, condition, description)];
      r := Pass;
    }

    /** set_entry_point: the node must exist at call time. */
    method SetEntryPoint(nodeName: string) returns (r: Outcome)
      modifies this
      ensures nodeName !in old(nodes) ==>
                r == Fail("Node '" + nodeName + "' does not exist") && entryPoint == old(entryPoint)
      ensures nodeName in old(nodes) ==> r == Pass && entryPoint == Some(nodeName)
      ensures nodes == old(nodes) && edges == old(edges)
      ensures old(Valid()) ==> Valid()
    {
      if nodeName !in nodes {
        return Fail("Node '" + nodeName + "' does not exist");
      }
      entryPoint := Some(nodeName);
      r := Pass;
    }

    /** get_next_nodes: scan the edges in insertion order and collect the
        targets of those leaving `current` whose condition is absent or true. */
    method GetNextNodes(current: string, s: State) returns (r: Result<seq<string>>)
      ensures r == NextNodes(edges, current, s)
    {
      var found: seq<string> := [];
      var i := 0;
      while i < |edges|
        invariant 0 <= i <= |edges|
        invariant NextNodes(edges[..i], current, s) == Ok(found)
      {
        var e := edges[i];
        assert edges[..i + 1][..i] == edges[..i];
        if e.fromNode == current {
          if e.condition.None? {
            found := found + [e.toNode];
          } else {
            var verdict := e.condition.value(s);
            match verdict
            case CondTrue =>
              found := found + [e.toNode];
            case CondFalse =>
            case CondRaised(m) =>
              NextNodesPrefixRaises(edges, i + 1, current, s);
              return Err(m);
          }
        }
        i := i + 1;
      }
      assert edges[..i] == edges;
      r := Ok(found);
    }

    /** validate: a graph is runnable when it has nodes and an entry point that is one of them. */
    function Validate(): (r: (bool, string))
      reads this
      ensures r.0 <==> nodes != map[] && entryPoint.Some? && entryPoint.value in nodes
      ensures r.0 <==> r.1 == ""
      ensures Valid() && nodes != map[] ==> r.0
    {
      if nodes == map[] then (false, "Graph has no nodes")
      else if entryPoint.None? then (false, "No entry point set")
      else if entryPoint.value !in nodes then (false, "Entry point '" + entryPoint.value + "' does not exist")
      else (true, "")
    }
  }
}
