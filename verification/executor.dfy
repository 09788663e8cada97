/**
 * Running a workflow: the run record, the executor's main loop, and what a
 * finished run is guaranteed to look like (log and visit bookkeeping, the
 * flat-merge history of the state, first-match routing, the iteration bound
 * and the failure paths).
 */
module Executor {
  import opened Values
  import opened GraphModel

  /** Status of a run. Paused is declared but no execution reaches it. */
  datatype ExecutionStatus = Running | Completed | Failed | Paused

  datatype LogStatus = Success | Error

  /** One step-log entry; the step id, timestamp and duration are not modelled. */
  datatype ExecutionLog = ExecutionLog(
    nodeName: string,
    status: LogStatus,
    stateSnapshot: State,
    error: Option<string>)

  /** The exceptions execute raises. */
  datatype Failure =
    | InvalidGraph(reason: string)      // ValueError, raised before any run exists
    | MissingNode(name: string)         // KeyError from looking the current node up
    | NodeError(message: string)        // raised by a node function
    | ConditionError(message: string)   // raised by an edge condition while routing
    | IterationLimit(limit: int)        // RuntimeError from the check after the loop
  {
    /** `str(e)`, which is what the run's error field records. */
    function Text(): string
    {
      match this
      case InvalidGraph(reason) => "Invalid graph: " + reason
      case MissingNode(name) => "'" + name + "'"
      case NodeError(m) => m
      case ConditionError(m) => m
      case IterationLimit(n) => "Workflow exceeded maximum iterations (" + IntToDecimal(n) + ")"
    }
  }

  const MaxIterations: int := 1000

  /** `max_iterations or MAX_ITERATIONS`: None and 0 both give the default. */
  function Limit(maxIterations: Option<int>): int
  {
    if maxIterations.None? || maxIterations.value == 0 then MaxIterations else maxIterations.value
  }

  /** The most steps a loop with this limit can take. */
  function Cap(limit: int): nat
  {
    if limit > 0 then limit else 0
  }

  /** `while current_node`: None and the empty name both end the walk. */
  predicate Truthy(current: Option<string>)
  {
    current.Some? && current.value != ""
  }

  /** The variables the main loop updates. */
  datatype Loop = Loop(
    state: State,
    logs: seq<ExecutionLog>,
    visited: seq<string>,
    current: Option<string>,
    iteration: nat)

  /** A loop still going (or left normally), or one left by an exception. */
  datatype Walk = Walking(at: Loop) | Crashed(at: Loop, failure: Failure)

  /** One pass of the loop body. */
  function Step(nodes: map<string, NodeDefinition>, edges: seq<EdgeDefinition>, l: Loop): (w: Walk)
    requires Truthy(l.current)
    ensures w.at.iteration == l.iteration + 1
  {
    var name := l.current.value;
    var counted := l.(iteration := l.iteration + 1);
    if name !in nodes then Crashed(counted, MissingNode(name))
    else
      match nodes[name].func(l.state)
      case NodeRaised(m) =>
        Crashed(counted.(logs := l.logs + [ExecutionLog(name, Error, l.state, Some(m))]), NodeError(m))
      case NodeReturned(v) =>
        var s := Merge(l.state, v);
        var stepped := counted.(state := s,
                                logs := l.logs + [ExecutionLog(name, Success, s, None)],
                                visited := l.visited + [name]);
        match NextNodes(edges, name, s)
        case Err(m) => Crashed(stepped, ConditionError(m))
        case Ok(found) => Walking(stepped.(current := if |found| > 0 then Some(found[0]) else None))
  }

  /** The main loop: step while there is a current node and the counter is below the limit. */
  function RunLoop(nodes: map<string, NodeDefinition>, edges: seq<EdgeDefinition>, l: Loop, limit: int): Walk
    decreases limit - l.iteration
  {
    if Truthy(l.current) && l.iteration < limit then
      match Step(nodes, edges, l)
      case Walking(next) => RunLoop(nodes, edges, next, limit)
      case Crashed(at, f) => Crashed(at, f)
    else Walking(l)
  }

  /** The observable part of a run. */
  datatype RunRecord = RunRecord(
    state: State,
    status: ExecutionStatus,
    logs: seq<ExecutionLog>,
    visited: seq<string>,
    error: Option<string>)

  /** A finished run and the exception execute re-raises, if any. */
  datatype Execution = Execution(record: RunRecord, raised: Option<Failure>)

  /** execute on a graph that passed validation, as a function of the graph's contents. */
  function ExecuteSpec(
    nodes: map<string, NodeDefinition>, edges: seq<EdgeDefinition>,
    entry: string, init: State, maxIterations: Option<int>): Execution
  {
    var limit := Limit(maxIterations);
    match RunLoop(nodes, edges, Loop(init, [], [], Some(entry), 0), limit)
    case Crashed(l, f) =>
      Execution(RunRecord(l.state, Failed, l.logs, l.visited, Some(f.Text())), Some(f))
    case Walking(l) =>
      if l.iteration >= limit then
        Execution(RunRecord(l.state, Failed, l.logs, l.visited, Some(IterationLimit(limit).Text())),
                  Some(IterationLimit(limit)))
      else
        Execution(RunRecord(l.state, Completed, l.logs, l.visited, None), None)
  }

  // ---------------------------------------------------------------------
  // What a run looks like
  // ---------------------------------------------------------------------

  /** The state the i-th step started from: the initial state, or the snapshot
      logged by the step before it. */
  function Before(init: State, logs: seq<ExecutionLog>, i: nat): State
    requires i <= |logs|
  {
    if i == 0 then init else logs[i - 1].stateSnapshot
  }

  /** The i-th step ran node visited[i] on the state it started from, the node
      returned, and the log holds a success entry with the merged state. */
  ghost predicate StepAt(
    nodes: map<string, NodeDefinition>, init: State,
    logs: seq<ExecutionLog>, visited: seq<string>, i: nat)
    requires i < |visited| == |logs|
  {
    var before := Before(init, logs, i);
    && visited[i] != ""
    && visited[i] in nodes
    && nodes[visited[i]].func(before).NodeReturned?
    && logs[i] == ExecutionLog(visited[i], Success, Merge(before, nodes[visited[i]].func(before).value), None)
  }

  /** The node the walk goes to after these steps. */
  ghost function Pending(
    edges: seq<EdgeDefinition>, entry: string,
    logs: seq<ExecutionLog>, visited: seq<string>): Option<string>
    requires |logs| == |visited|
  {
    if visited == [] then Some(entry)
    else Successor(edges, visited[|visited| - 1], logs[|logs| - 1].stateSnapshot)
  }

  /** A sequence of successful steps from the entry point, each one moving
      along the first qualifying edge of the one before. */
  ghost predicate Trace(
    nodes: map<string, NodeDefinition>, edges: seq<EdgeDefinition>, entry: string, init: State,
    logs: seq<ExecutionLog>, visited: seq<string>)
  {
    && |logs| == |visited|
    && (|visited| > 0 ==> visited[0] == entry)
    && (forall i :: 0 <= i < |visited| ==> StepAt(nodes, init, logs, visited, i))
    && (forall i :: 0 < i < |visited| ==> RoutedAt(edges, logs, visited, i))
  }

  /** Step i went to the node the first qualifying edge of step i - 1 leads to. */
  ghost predicate RoutedAt(edges: seq<EdgeDefinition>, logs: seq<ExecutionLog>, visited: seq<string>, i: nat)
    requires 0 < i < |visited| == |logs|
  {
    Successor(edges, visited[i - 1], logs[i - 1].stateSnapshot) == Some(visited[i])
  }

  /** The invariant of the main loop while no exception has been raised. */
  ghost predicate Walkable(
    nodes: map<string, NodeDefinition>, edges: seq<EdgeDefinition>, entry: string, init: State, l: Loop)
  {
    && Trace(nodes, edges, entry, init, l.logs, l.visited)
    && l.state == Before(init, l.logs, |l.logs|)
    && l.current == Pending(edges, entry, l.logs, l.visited)
    && l.iteration == |l.visited|
  }

  /** Where the loop stands when an exception leaves it. */
  ghost predicate CrashedAt(
    nodes: map<string, NodeDefinition>, edges: seq<EdgeDefinition>, entry: string, init: State,
    l: Loop, f: Failure)
  {
    var n := |l.visited|;
    match f
    case MissingNode(name) =>
      && Walkable(nodes, edges, entry, init, l.(iteration := n))
      && l.iteration == n + 1
      && l.current == Some(name) && name != "" && name !in nodes
    case NodeError(m) =>
      && |l.logs| == n + 1
      && Walkable(nodes, edges, entry, init, l.(logs := l.logs[..n], iteration := n))
      && l.iteration == n + 1
      && Truthy(l.current) && l.current.value in nodes
      && nodes[l.current.value].func(l.state) == NodeRaised(m)
      && l.logs[n] == ExecutionLog(l.current.value, Error, l.state, Some(m))
    case ConditionError(m) =>
      && Trace(nodes, edges, entry, init, l.logs, l.visited)
      && l.state == Before(init, l.logs, n)
      && l.iteration == n > 0
      && NextNodes(edges, l.visited[n - 1], l.state) == Err(m)
    case _ => false
  }

  /** Where the main loop ends. */
  ghost predicate Reached(
    nodes: map<string, NodeDefinition>, edges: seq<EdgeDefinition>, entry: string, init: State,
    w: Walk, limit: int)
  {
    && w.at.iteration <= Cap(limit)
    && match w
       case Walking(l) =>
         Walkable(nodes, edges, entry, init, l) && !(Truthy(l.current) && l.iteration < limit)
       case Crashed(l, f) =>
         CrashedAt(nodes, edges, entry, init, l, f)
  }

  /** Appending a log does not change the state any earlier step started from. */
  lemma BeforeExtends(init: State, logs: seq<ExecutionLog>, log: ExecutionLog, i: nat)
    requires i <= |logs|
    ensures Before(init, logs + [log], i) == Before(init, logs, i)
  {
    if i > 0 {
      assert (logs + [log])[i - 1] == logs[i - 1];
    }
  }

  /** Appending a step whose entry is right keeps every earlier entry right. */
  lemma StepsExtend(
    nodes: map<string, NodeDefinition>, init: State,
    logs: seq<ExecutionLog>, visited: seq<string>, log: ExecutionLog, name: string)
    requires |logs| == |visited|
    requires forall i :: 0 <= i < |visited| ==> StepAt(nodes, init, logs, visited, i)
    requires StepAt(nodes, init, logs + [log], visited + [name], |visited|)
    ensures forall i :: 0 <= i < |visited| + 1 ==> StepAt(nodes, init, logs + [log], visited + [name], i)
  {
    forall i | 0 <= i < |visited|
      ensures StepAt(nodes, init, logs + [log], visited + [name], i)
    {
      BeforeExtends(init, logs, log, i);
      assert StepAt(nodes, init, logs, visited, i);
    }
  }

  /** Appending the pending node keeps every routing entry right. */
  lemma RoutesExtend(
    edges: seq<EdgeDefinition>, entry: string,
    logs: seq<ExecutionLog>, visited: seq<string>, log: ExecutionLog, name: string)
    requires |logs| == |visited|
    requires forall i :: 0 < i < |visited| ==> RoutedAt(edges, logs, visited, i)
    requires Pending(edges, entry, logs, visited) == Some(name)
    ensures forall i :: 0 < i < |visited| + 1 ==> RoutedAt(edges, logs + [log], visited + [name], i)
  {
    forall i | 0 < i < |visited| + 1
      ensures RoutedAt(edges, logs + [log], visited + [name], i)
    {
      if i < |visited| {
        assert RoutedAt(edges, logs, visited, i);
      }
    }
  }

  /** A successful step extends the trace by one visit and one success log. */
  lemma TraceExtends(
    nodes: map<string, NodeDefinition>, edges: seq<EdgeDefinition>, entry: string, init: State, l: Loop)
    requires Walkable(nodes, edges, entry, init, l) && Truthy(l.current)
    requires l.current.value in nodes && nodes[l.current.value].func(l.state).NodeReturned?
    ensures var name := l.current.value;
            var s := Merge(l.state, nodes[name].func(l.state).value);
            Trace(nodes, edges, entry, init, l.logs + [ExecutionLog(name, Success, s, None)], l.visited + [name])
  {
    var name := l.current.value;
    var s := Merge(l.state, nodes[name].func(l.state).value);
    var log := ExecutionLog(name, Success, s, None);
    BeforeExtends(init, l.logs, log, |l.logs|);
    assert StepAt(nodes, init, l.logs + [log], l.visited + [name], |l.visited|);
    StepsExtend(nodes, init, l.logs, l.visited, log, name);
    RoutesExtend(edges, entry, l.logs, l.visited, log, name);
  }

  /** A step whose node returns moves on along the first qualifying edge, or
      stops on a raising condition. */
  lemma StepReturns(
    nodes: map<string, NodeDefinition>, edges: seq<EdgeDefinition>, entry: string, init: State, l: Loop)
    requires Walkable(nodes, edges, entry, init, l) && Truthy(l.current)
    requires l.current.value in nodes && nodes[l.current.value].func(l.state).NodeReturned?
    ensures Step(nodes, edges, l).Walking? ==> Walkable(nodes, edges, entry, init, Step(nodes, edges, l).at)
    ensures Step(nodes, edges, l).Crashed? ==>
              CrashedAt(nodes, edges, entry, init, Step(nodes, edges, l).at, Step(nodes, edges, l).failure)
  {
    var name := l.current.value;
    var s := Merge(l.state, nodes[name].func(l.state).value);
    TraceExtends(nodes, edges, entry, init, l);
    if NextNodes(edges, name, s).Ok? {
      NextNodesFirst(edges, name, s);
    }
  }

  /** A step whose node raises leaves one error log and no visit. */
  lemma StepRaises(
    nodes: map<string, NodeDefinition>, edges: seq<EdgeDefinition>, entry: string, init: State, l: Loop)
    requires Walkable(nodes, edges, entry, init, l) && Truthy(l.current)
    requires l.current.value in nodes && nodes[l.current.value].func(l.state).NodeRaised?
    ensures Step(nodes, edges, l).Crashed?
    ensures CrashedAt(nodes, edges, entry, init, Step(nodes, edges, l).at, Step(nodes, edges, l).failure)
  {
    var name := l.current.value;
    var m := nodes[name].func(l.state).message;
    var at := Step(nodes, edges, l).at;
    assert at.logs == l.logs + [ExecutionLog(name, Error, l.state, Some(m))];
    assert at.logs[..|l.visited|] == l.logs;
    assert at.(logs := at.logs[..|at.visited|], iteration := |at.visited|) == l;
  }

  /** One pass of the loop body keeps the loop invariant, or leaves the loop
      in one of the three exception states. */
  lemma StepKeepsTrace(
    nodes: map<string, NodeDefinition>, edges: seq<EdgeDefinition>, entry: string, init: State, l: Loop)
    requires Walkable(nodes, edges, entry, init, l) && Truthy(l.current)
    ensures Step(nodes, edges, l).Walking? ==> Walkable(nodes, edges, entry, init, Step(nodes, edges, l).at)
    ensures Step(nodes, edges, l).Crashed? ==>
              CrashedAt(nodes, edges, entry, init, Step(nodes, edges, l).at, Step(nodes, edges, l).failure)
  {
    var name := l.current.value;
    if name !in nodes {
      assert Step(nodes, edges, l).at.(iteration := |l.visited|) == l;
    } else if nodes[name].func(l.state).NodeReturned? {
      StepReturns(nodes, edges, entry, init, l);
    } else {
      StepRaises(nodes, edges, entry, init, l);
    }
  }

  /** A step whose node returns `v` and whose routing finds exactly `next`:
      the state is merged, one success log and one visit are added. */
  lemma StepForward(nodes: map<string, NodeDefinition>, edges: seq<EdgeDefinition>, l: Loop, v: Value, next: Option<string>)
    requires Truthy(l.current) && l.current.value in nodes
    requires nodes[l.current.value].func(l.state) == NodeReturned(v)
    requires NextNodes(edges, l.current.value, Merge(l.state, v)) == Ok(if next.Some? then [next.value] else [])
    ensures Step(nodes, edges, l) ==
              Walking(Loop(Merge(l.state, v),
                           l.logs + [ExecutionLog(l.current.value, Success, Merge(l.state, v), None)],
                           l.visited + [l.current.value], next, l.iteration + 1))
  {
  }

  /** The main loop takes a step that did not crash and carries on from there. */
  lemma RunLoopForward(nodes: map<string, NodeDefinition>, edges: seq<EdgeDefinition>, l: Loop, limit: int)
    requires Truthy(l.current) && l.iteration < limit
    requires Step(nodes, edges, l).Walking?
    ensures RunLoop(nodes, edges, l, limit) == RunLoop(nodes, edges, Step(nodes, edges, l).at, limit)
  {
  }

  /** Where the main loop of execute stops, the specification's outcome is
      read off the loop's last position and failure. */
  lemma LoopEnds(nodes: map<string, NodeDefinition>, edges: seq<EdgeDefinition>, entry: string, init: State,
                 maxIterations: Option<int>, here: Loop, failure: Option<Failure>)
    requires var start := Loop(init, [], [], Some(entry), 0);
             var limit := Limit(maxIterations);
             if failure.None? then RunLoop(nodes, edges, start, limit) == RunLoop(nodes, edges, here, limit)
                                   && !(Truthy(here.current) && here.iteration < limit)
             else RunLoop(nodes, edges, start, limit) == Crashed(here, failure.value)
    ensures var limit := Limit(maxIterations);
            ExecuteSpec(nodes, edges, entry, init, maxIterations) ==
              if failure.Some? then
                Execution(RunRecord(here.state, Failed, here.logs, here.visited, Some(failure.value.Text())), failure)
              else if here.iteration >= limit then
                Execution(RunRecord(here.state, Failed, here.logs, here.visited, Some(IterationLimit(limit).Text())),
                          Some(IterationLimit(limit)))
              else
                Execution(RunRecord(here.state, Completed, here.logs, here.visited, None), None)
  {
  }

  /** A walk from the entry point that runs out of successors below the default
      limit is a completed run with that walk's state, logs and visits. */
  lemma WalkCompletes(nodes: map<string, NodeDefinition>, edges: seq<EdgeDefinition>, entry: string, init: State, last: Loop)
    requires RunLoop(nodes, edges, Loop(init, [], [], Some(entry), 0), MaxIterations) == Walking(last)
    requires last.iteration < MaxIterations
    ensures ExecuteSpec(nodes, edges, entry, init, None) ==
              Execution(RunRecord(last.state, Completed, last.logs, last.visited, None), None)
  {
  }

  /** The main loop ends in a state described by Reached. */
  lemma {:induction false} RunLoopReaches(
    nodes: map<string, NodeDefinition>, edges: seq<EdgeDefinition>, entry: string, init: State,
    l: Loop, limit: int)
    requires Walkable(nodes, edges, entry, init, l) && l.iteration <= Cap(limit)
    ensures Reached(nodes, edges, entry, init, RunLoop(nodes, edges, l, limit), limit)
    decreases limit - l.iteration
  {
    if Truthy(l.current) && l.iteration < limit {
      StepKeepsTrace(nodes, edges, entry, init, l);
      match Step(nodes, edges, l)
      case Walking(next) => RunLoopReaches(nodes, edges, entry, init, next, limit);
      case Crashed(at, f) =>
    }
  }

  /**
   * Bookkeeping of every run: the visited nodes are a trace from the entry
   * point whose success logs pair up with them one to one (each snapshot being
   * the state after merging that step's result); a node that raised adds one
   * error log and no visit; the final state is the last logged snapshot; and
   * no run calls more nodes (log entries) than its limit.
   */
  lemma ExecuteTrace(
    nodes: map<string, NodeDefinition>, edges: seq<EdgeDefinition>, entry: string, init: State,
    maxIterations: Option<int>)
    ensures var e := ExecuteSpec(nodes, edges, entry, init, maxIterations);
            var rec := e.record;
            var n := |rec.visited|;
            && n <= |rec.logs|
            && Trace(nodes, edges, entry, init, rec.logs[..n], rec.visited)
            && |rec.logs| == (if e.raised.Some? && e.raised.value.NodeError? then n + 1 else n)
            && (e.raised.Some? && e.raised.value.NodeError? ==>
                  rec.logs[n].status == Error && rec.logs[n].error == Some(e.raised.value.message) &&
                  rec.logs[n].stateSnapshot == rec.state)
            && rec.state == Before(init, rec.logs, n)
            && n <= |rec.logs| <= Cap(Limit(maxIterations))
  {
    var limit := Limit(maxIterations);
    var start := Loop(init, [], [], Some(entry), 0);
    RunLoopReaches(nodes, edges, entry, init, start, limit);
    var w := RunLoop(nodes, edges, start, limit);
    assert w.at.logs[..|w.at.visited|] == w.at.logs || w.at.logs[..|w.at.visited|] == w.at.logs[..|w.at.logs| - 1];
  }

  /**
   * How a run ends: Completed exactly when nothing was raised, with no error
   * and fewer steps than the limit, because the walk ran out of successors;
   * otherwise Failed with the raised exception's text. Reaching the limit
   * fails the run even when the last step had no successor.
   */
  lemma ExecuteStatus(
    nodes: map<string, NodeDefinition>, edges: seq<EdgeDefinition>, entry: string, init: State,
    maxIterations: Option<int>)
    ensures var e := ExecuteSpec(nodes, edges, entry, init, maxIterations);
            var rec := e.record;
            var limit := Limit(maxIterations);
            && (rec.status == Completed || rec.status == Failed)
            && (rec.status == Completed <==> e.raised.None?)
            && (rec.status == Completed ==>
                  rec.error == None && |rec.visited| < limit && |rec.logs| == |rec.visited| &&
                  !Truthy(Pending(edges, entry, rec.logs, rec.visited)))
            && (e.raised.Some? ==> rec.error == Some(e.raised.value.Text()))
            && (e.raised == Some(IterationLimit(limit)) <==>
                  e.raised.Some? && e.raised.value.IterationLimit?)
            && (e.raised.Some? && e.raised.value.IterationLimit? ==> |rec.visited| == Cap(limit))
  {
    var limit := Limit(maxIterations);
    var start := Loop(init, [], [], Some(entry), 0);
    RunLoopReaches(nodes, edges, entry, init, start, limit);
  }

  /** The node a run fails to find is never a node of a graph whose entry point
      and edge targets are all nodes, as add_edge and set_entry_point ensure. */
  lemma ExecuteNeverMissesNode(
    nodes: map<string, NodeDefinition>, edges: seq<EdgeDefinition>, entry: string, init: State,
    maxIterations: Option<int>)
    requires entry in nodes
    requires forall i :: 0 <= i < |edges| ==> edges[i].toNode in nodes
    ensures var e := ExecuteSpec(nodes, edges, entry, init, maxIterations);
            !(e.raised.Some? && e.raised.value.MissingNode?)
  {
    var limit := Limit(maxIterations);
    var start := Loop(init, [], [], Some(entry), 0);
    RunLoopReaches(nodes, edges, entry, init, start, limit);
    match RunLoop(nodes, edges, start, limit)
    case Walking(_) =>
    case Crashed(l, f) =>
      if f.MissingNode? {
        if l.visited != [] {
          var n := |l.visited|;
          SuccessorIsTarget(edges, l.visited[n - 1], l.logs[n - 1].stateSnapshot);
        }
      }
  }

  /** The successor is always the target of some edge. */
  lemma {:induction false} SuccessorIsTarget(edges: seq<EdgeDefinition>, current: string, s: State)
    ensures Successor(edges, current, s).Some? ==>
            exists i :: 0 <= i < |edges| && edges[i].toNode == Successor(edges, current, s).value
    decreases |edges|
  {
    if edges != [] && Successor(edges, current, s) != Some(edges[0].toNode) {
      SuccessorIsTarget(edges[1..], current, s);
      if Successor(edges, current, s).Some? {
        var i :| 0 <= i < |edges[1..]| && edges[1..][i].toNode == Successor(edges, current, s).value;
        assert edges[i + 1].toNode == Successor(edges, current, s).value;
      }
    }
  }

  /** Every node returns and always has a truthy successor that is a node:
      a walk on such a graph never ends by itself. */
  ghost predicate NeverExits(nodes: map<string, NodeDefinition>, edges: seq<EdgeDefinition>)
  {
    forall n, s :: n in nodes ==>
      && nodes[n].func(s).NodeReturned?
      && var after := Merge(s, nodes[n].func(s).value);
         && NextNodes(edges, n, after).Ok?
         && |NextNodes(edges, n, after).value| > 0
         && NextNodes(edges, n, after).value[0] != ""
         && NextNodes(edges, n, after).value[0] in nodes
  }

  lemma {:induction false} RunLoopNeverExits(
    nodes: map<string, NodeDefinition>, edges: seq<EdgeDefinition>, l: Loop, limit: int)
    requires NeverExits(nodes, edges)
    requires Truthy(l.current) && l.current.value in nodes && |l.visited| == l.iteration
    ensures RunLoop(nodes, edges, l, limit).Walking?
    ensures var out := RunLoop(nodes, edges, l, limit).at;
            out.iteration == (if l.iteration < limit then limit else l.iteration) &&
            |out.visited| == out.iteration
    decreases limit - l.iteration
  {
    if l.iteration < limit {
      RunLoopNeverExits(nodes, edges, Step(nodes, edges, l).at, limit);
    }
  }

  /** A walk that never ends by itself fails with the iteration-limit error
      after exactly as many steps as the limit allows. */
  lemma ExecuteNeverExits(
    nodes: map<string, NodeDefinition>, edges: seq<EdgeDefinition>, entry: string, init: State,
    maxIterations: Option<int>)
    requires NeverExits(nodes, edges) && entry in nodes && entry != ""
    ensures var e := ExecuteSpec(nodes, edges, entry, init, maxIterations);
            && e.record.status == Failed
            && e.raised == Some(IterationLimit(Limit(maxIterations)))
            && |e.record.visited| == Cap(Limit(maxIterations))
  {
    RunLoopNeverExits(nodes, edges, Loop(init, [], [], Some(entry), 0), Limit(maxIterations));
  }

  /** A numbering of node names that strictly decreases along every edge;
      a graph that has one contains no cycle. */
  ghost predicate Ranked(edges: seq<EdgeDefinition>, rank: string -> nat)
  {
    forall i :: 0 <= i < |edges| ==> rank(edges[i].toNode) < rank(edges[i].fromNode)
  }

  /** No node function and no routing raises, whatever the state. */
  ghost predicate NeverRaises(nodes: map<string, NodeDefinition>, edges: seq<EdgeDefinition>)
  {
    forall n, s :: n in nodes ==>
      && nodes[n].func(s).NodeReturned?
      && NextNodes(edges, n, Merge(s, nodes[n].func(s).value)).Ok?
  }

  /** The node a step moves to is the target of an edge and ranks strictly
      below the node it leaves. */
  lemma NextRanksLower(edges: seq<EdgeDefinition>, name: string, s: State, rank: string -> nat)
    requires Ranked(edges, rank)
    requires NextNodes(edges, name, s).Ok? && |NextNodes(edges, name, s).value| > 0
    ensures var x := NextNodes(edges, name, s).value[0];
            && rank(x) < rank(name)
            && exists i :: 0 <= i < |edges| && edges[i].toNode == x
  {
    var x := NextNodes(edges, name, s).value[0];
    NextNodesMembers(edges, name, s, x);
    var i :| 0 <= i < |edges| && Qualifies(edges[i], name, s) && edges[i].toNode == x;
  }

  /** On a ranked graph every step lowers the rank of the current node, so the
      loop visits at most rank(entry) + 1 nodes; when nothing raises and every
      edge target is a node, it stops by running out of successors or at the limit. */
  lemma {:induction false} RunLoopRanked(
    nodes: map<string, NodeDefinition>, edges: seq<EdgeDefinition>, entry: string,
    l: Loop, limit: int, rank: string -> nat)
    requires Ranked(edges, rank)
    requires |l.visited| <= rank(entry) + 1
    requires Truthy(l.current) ==> rank(l.current.value) + |l.visited| <= rank(entry)
    ensures |RunLoop(nodes, edges, l, limit).at.visited| <= rank(entry) + 1
    ensures && NeverRaises(nodes, edges)
            && (forall i :: 0 <= i < |edges| ==> edges[i].toNode in nodes)
            && (Truthy(l.current) ==> l.current.value in nodes)
            && l.iteration == |l.visited|
            ==> var w := RunLoop(nodes, edges, l, limit);
                && w.Walking?
                && w.at.iteration == |w.at.visited|
                && !(Truthy(w.at.current) && w.at.iteration < limit)
    decreases limit - l.iteration
  {
    if Truthy(l.current) && l.iteration < limit {
      var name := l.current.value;
      if name in nodes && nodes[name].func(l.state).NodeReturned? {
        var s := Merge(l.state, nodes[name].func(l.state).value);
        if NextNodes(edges, name, s).Ok? {
          if |NextNodes(edges, name, s).value| > 0 {
            NextRanksLower(edges, name, s, rank);
          }
          RunLoopRanked(nodes, edges, entry, Step(nodes, edges, l).at, limit, rank);
        }
      }
    }
  }

  /**
   * A run on a graph without cycles visits at most rank(entry) + 1 nodes.
   * When no node or condition raises and every edge target is a node, it
   * completes, provided that number of visits stays below the limit.
   */
  lemma ExecuteAcyclic(
    nodes: map<string, NodeDefinition>, edges: seq<EdgeDefinition>, entry: string, init: State,
    maxIterations: Option<int>, rank: string -> nat)
    requires Ranked(edges, rank)
    ensures |ExecuteSpec(nodes, edges, entry, init, maxIterations).record.visited| <= rank(entry) + 1
    ensures && NeverRaises(nodes, edges) && entry in nodes
            && (forall i :: 0 <= i < |edges| ==> edges[i].toNode in nodes)
            && rank(entry) + 1 < Limit(maxIterations)
            ==> && ExecuteSpec(nodes, edges, entry, init, maxIterations).raised.None?
                && ExecuteSpec(nodes, edges, entry, init, maxIterations).record.status == Completed
  {
    RunLoopRanked(nodes, edges, entry, Loop(init, [], [], Some(entry), 0), Limit(maxIterations), rank);
  }

  /**
   * The same bound in terms of the size of the graph: numbering the nodes of a
   * graph without cycles in reverse topological order gives ranks below
   * |nodes|, so a run visits at most as many nodes as the graph has. When nothing
   * raises, it completes whenever the graph has fewer nodes than the limit.
   */
  lemma AcyclicWithinNodeCount(
    nodes: map<string, NodeDefinition>, edges: seq<EdgeDefinition>, entry: string, init: State,
    maxIterations: Option<int>, rank: string -> nat)
    requires Ranked(edges, rank) && entry in nodes
    requires forall n :: n in nodes ==> rank(n) < |nodes|
    ensures |ExecuteSpec(nodes, edges, entry, init, maxIterations).record.visited| <= |nodes|
    ensures && NeverRaises(nodes, edges)
            && (forall i :: 0 <= i < |edges| ==> edges[i].toNode in nodes)
            && |nodes| < Limit(maxIterations)
            ==> ExecuteSpec(nodes, edges, entry, init, maxIterations).record.status == Completed
  {
    ExecuteAcyclic(nodes, edges, entry, init, maxIterations, rank);
  }

  /** The post-loop test `iteration >= max_iterations`: a one-node graph whose
      walk ends naturally after one step fails when the limit is one, and
      completes when it is two. */
  lemma ExactLimitFails(init: State)
    ensures var nodes := map["only" := NodeDefinition("only", (s: State) => NodeReturned(VNone), "")];
            && ExecuteSpec(nodes, [], "only", init, Some(1)).raised == Some(IterationLimit(1))
            && ExecuteSpec(nodes, [], "only", init, Some(1)).record.visited == ["only"]
            && ExecuteSpec(nodes, [], "only", init, Some(2)).record.status == Completed
            && ExecuteSpec(nodes, [], "only", init, Some(2)).record.visited == ["only"]
  {
    var nodes := map["only" := NodeDefinition("only", (s: State) => NodeReturned(VNone), "")];
    var first := Loop(init, [], [], Some("only"), 0);
    var after := Loop(init, [ExecutionLog("only", Success, init, None)], ["only"], None, 1);
    assert Step(nodes, [], first) == Walking(after);
    assert RunLoop(nodes, [], after, 1) == Walking(after);
    assert RunLoop(nodes, [], after, 2) == Walking(after);
  }

  class WorkflowRun {
    const runId: string
    const graph: Graph
    var state: State
    var status: ExecutionStatus
    var logs: seq<ExecutionLog>
    var completedAt: Option<nat>
    var error: Option<string>
    var visitedNodes: seq<string>

    /** A new run starts Running on a copy of the caller's state. */
    constructor (runId: string, graph: Graph, initialState: State)
      ensures this.runId == runId && this.graph == graph
      ensures state == initialState && status == Running
      ensures logs == [] && visitedNodes == [] && error == None && completedAt == None
    {
      this.runId := runId;
      this.graph := graph;
      state := initialState;
      status := Running;
      logs := [];
      completedAt := None;
      error := None;
      visitedNodes := [];
    }

    /**
     * One pass of execute's loop body on this run: the node at `current` runs
     * on the state, and a successful step merges its result, logs it, records
     * the visit and routes on; an exception leaves the loop where it stood.
     */
    method RunNode(current: Option<string>, iteration: nat) returns (next: Option<string>, failure: Option<Failure>)
      requires Truthy(current)
      modifies this
      ensures status == old(status) && error == old(error) && completedAt == old(completedAt)
      ensures var here := Loop(state, logs, visitedNodes, next, iteration + 1);
              Step(graph.nodes, graph.edges, Loop(old(state), old(logs), old(visitedNodes), current, iteration)) ==
                if failure.None? then Walking(here) else Crashed(here, failure.value)
    {
      next, failure := current, None;
      var name := current.value;
      if name !in graph.nodes {
        failure := Some(MissingNode(name));
        return;
      }
      var outcome := graph.nodes[name].func(state);
      match outcome
      case NodeRaised(m) =>
        logs := logs + [ExecutionLog(name, Error, state, Some(m))];
        failure := Some(NodeError(m));
      case NodeReturned(v) =>
        var merged := Merge(state, v);
        var found := graph.GetNextNodes(name, merged);
        state, logs, visitedNodes := merged, logs + [ExecutionLog(name, Success, merged, None)], visitedNodes + [name];
        match found
        case Err(m) =>
          failure := Some(ConditionError(m));
        case Ok(targets) =>
          next := if |targets| > 0 then Some(targets[0]) else None;
    }

    /**
     * The main loop of execute: run nodes from `entry` while no exception has
     * been raised, there is a node to run and fewer than `limit` have run.
     * It stops where the specification's walk stops.
     */
    method Drive(entry: Option<string>, limit: int) returns (current: Option<string>, iteration: nat, failure: Option<Failure>)
      modifies this
      ensures status == old(status) && error == old(error) && completedAt == old(completedAt)
      ensures var start := Loop(old(state), old(logs), old(visitedNodes), entry, 0);
              var here := Loop(state, logs, visitedNodes, current, iteration);
              if failure.None? then
                RunLoop(graph.nodes, graph.edges, start, limit) == RunLoop(graph.nodes, graph.edges, here, limit)
                && !(Truthy(current) && iteration < limit)
              else RunLoop(graph.nodes, graph.edges, start, limit) == Crashed(here, failure.value)
    {
      current, iteration, failure := entry, 0, None;
      ghost var start := Loop(state, logs, visitedNodes, entry, 0);
      while failure.None? && Truthy(current) && iteration < limit
        invariant status == old(status) && error == old(error) && completedAt == old(completedAt)
        invariant start == Loop(old(state), old(logs), old(visitedNodes), entry, 0)
        invariant var here := Loop(state, logs, visitedNodes, current, iteration);
                  if failure.None? then RunLoop(graph.nodes, graph.edges, start, limit) == RunLoop(graph.nodes, graph.edges, here, limit)
                  else RunLoop(graph.nodes, graph.edges, start, limit) == Crashed(here, failure.value)
        decreases limit - iteration
      {
        var next, f := RunNode(current, iteration);
        current, failure, iteration := next, f, iteration + 1;
      }
    }

    /** The end of execute: Completed when nothing was raised, otherwise
        Failed with the exception's text; the completion time is stamped
        either way. */
    method Finish(failure: Option<Failure>, now: nat)
      modifies this
      ensures state == old(state) && logs == old(logs) && visitedNodes == old(visitedNodes)
      ensures status == (if failure.None? then Completed else Failed)
      ensures error == (if failure.None? then old(error) else Some(failure.value.Text()))
      ensures completedAt == Some(now)
    {
      if failure.None? {
        status := Completed;
      } else {
        status := Failed;
        error := Some(failure.value.Text());
      }
      completedAt := Some(now);
    }

    function Record(): RunRecord
      reads this
    {
      RunRecord(state, status, logs, visitedNodes, error)
    }

    /** get_state: a copy of the run's state, the state its record reports. */
    function GetState(): (r: State)
      reads this
      ensures r == Record().state
    {
      state
    }

    /** get_logs: a copy of the run's logs, the logs its record reports. */
    function GetLogs(): (r: seq<ExecutionLog>)
      reads this
      ensures r == Record().logs
    {
      logs
    }
  }

  /** What execute hands back: the run, or the exception it raised. */
  datatype ExecResult = Returned(run: WorkflowRun) | Raised(failure: Failure)

  class WorkflowExecutor {
    const graph: Graph
    var run: WorkflowRun?

    constructor (graph: Graph)
      ensures this.graph == graph && run == null
    {
      this.graph := graph;
      run := null;
    }

    /**
     * execute: an invalid graph raises before any run is created; otherwise a
     * fresh run becomes the executor's current run, the main loop drives it,
     * and it ends Completed (and is returned) or Failed (and the exception is
     * re-raised), with the completion time stamped either way.
     */
    method Execute(initialState: State, maxIterations: Option<int>, runId: string, now: nat)
      returns (r: ExecResult)
      modifies this
      ensures !graph.Validate().0 ==> r == Raised(InvalidGraph(graph.Validate().1)) && run == old(run)
      ensures graph.Validate().0 ==>
                && run != null && fresh(run) && run.graph == graph && run.runId == runId
                && run.completedAt == Some(now)
                && var e := ExecuteSpec(graph.nodes, graph.edges, graph.entryPoint.value, initialState, maxIterations);
                   && run.Record() == e.record
                   && r == (if e.raised.None? then Returned(run) else Raised(e.raised.value))
    {
      var (ok, message) := graph.Validate();
      if !ok {
        return Raised(InvalidGraph(message));
      }
      var theRun := new WorkflowRun(runId, graph, initialState);
      run := theRun;
      var limit := Limit(maxIterations);
      var current, iteration, failure := theRun.Drive(graph.entryPoint, limit);
      LoopEnds(graph.nodes, graph.edges, graph.entryPoint.value, initialState, maxIterations,
               Loop(theRun.state, theRun.logs, theRun.visitedNodes, current, iteration), failure);
      if failure.None? && iteration >= limit {
        failure := Some(IterationLimit(limit));
      }
      theRun.Finish(failure, now);
      r := if failure.None? then Returned(theRun) else Raised(failure.value);
    }

    /** get_current_run: the run of the latest execute that got past validation. */
    function GetCurrentRun(): (r: WorkflowRun?)
      reads this
      ensures r == run
    {
      run
    }
  }
}
