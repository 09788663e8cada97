# Workflow graph engine — a Dafny model

This project models the core of a small workflow engine. A workflow is a
directed graph of named nodes. Each node wraps a function of a shared state
dictionary. Edges carry optional conditions, and one node is the entry point.
The executor walks the graph:

- it runs the current node on the state and flat-merges the returned dictionary into it;
- it logs the step and records the visit;
- it moves along the first edge whose condition holds;
- it stops when there is no successor or the iteration counter reaches its limit.

The run ends Completed or Failed. On failure the exception is re-raised, and
the run stays reachable through the executor.

Beside the engine the model covers four more pieces:

- the built-in data-quality pipeline. It runs profile → identify_anomalies →
  generate_rules → apply_rules, loops back while `should_loop` holds, then
  runs summarize. Its deterministic steps are modelled exactly. Its two
  random steps are driven by arbitrary functions.
- the tool registry;
- the in-memory graph and run stores;
- the three-step linear graph of the engine's own test.

Files (one module each):

- `values.dfy` (`Values`): the values of the state dictionary, `dict.get`, and
  the flat merge a successful step applies.
- `graph.dfy` (`GraphModel`): node and edge definitions and the `Graph` class
  with its builder methods, `validate` and `get_next_nodes`. It also holds
  `NextNodes`, the routing function the loop of `get_next_nodes` is proved
  against, and `Successor`, an independent first-match definition.
- `executor.dfy` (`Executor`): the run record, and the loop as specification
  functions (`Step`, `RunLoop`, `ExecuteSpec`). It holds the `WorkflowRun` and
  `WorkflowExecutor` classes, whose `while` loop is proved equal to
  `ExecuteSpec`, and the lemmas that describe every run: trace, status,
  iteration bound and failure paths.
- `data_quality.dfy` (`DataQuality`): the pipeline's step functions, its
  construction, its routing, and the proof that a run of it completes.
- `tools.dfy` (`Tools`) and `storage.dfy` (`Storage`): keyed tables as classes with map fields.
- `linear_example.dfy` (`LinearExample`): the linear test graph, run to completion with counter 111.

Where the specification and the code disagree, the model follows the code:

- `add_edge` refuses unknown endpoints at once. Validation is not deferred.
- `validate` does not look at edges.
- A condition that raises while routing is not swallowed: it fails the run.
- When a node raises, the run has one more log entry than visits.
- The exception is re-raised rather than only recorded.
- Adding an existing node name raises.
- The post-loop test `iteration >= max_iterations` fails a run that stops on its own at exactly the limit.
- A graph without cycles completes within its node count only when no node or condition raises and the graph has fewer nodes than the limit (`AcyclicWithinNodeCount`).

## Model

| member | source | states |
|---|---|---|
| `Values.Merge` | app/core/graph.py:258-259 | a dictionary result overrides the state key by key and keeps every other key; anything that is not a dictionary leaves the state as it was |
| `GraphModel.Graph.constructor` | app/core/graph.py:69-75 | a new graph has no nodes, no edges and no entry point, and satisfies the builder invariant |
| `GraphModel.Graph.AddNode` | app/core/graph.py:91-98 | a duplicate name raises and changes nothing; otherwise exactly that name is mapped to the new node, the first node added becomes the entry point, later additions never move it, and the builder invariant is kept |
| `GraphModel.Graph.AddEdge` | app/core/graph.py:117-127 | succeeds exactly when both endpoints are nodes (source checked first); on success exactly one edge is appended at the end, otherwise the edges are unchanged; nodes and entry point never change |
| `GraphModel.Graph.SetEntryPoint` | app/core/graph.py:129-133 | an unknown node raises and keeps the entry point; a known node becomes the entry point; nodes and edges are untouched |
| `GraphModel.Graph.GetNextNodes` | app/core/graph.py:135-156 | the loop over the edges returns the routing function `NextNodes` on the graph's edges, and modifies nothing |
| `GraphModel.Graph.Validate` | app/core/graph.py:158-174 | fails with a non-empty message exactly when there are no nodes, no entry point, or the entry point is not a node; every non-empty graph built with the builder methods validates |
| `GraphModel.NextNodesAppend` | app/core/graph.py:146-156 | routing over two runs of edges is routing over the first followed by the second, and a raise in the first wins |
| `GraphModel.NextNodesRaises` | app/core/graph.py:147-154 | routing raises exactly when some edge leaving the node has a condition that raises on the state |
| `GraphModel.NextNodesMembers` | app/core/graph.py:146-156 | a name is among the next nodes exactly when some edge leaving the node qualifies and leads to it |
| `GraphModel.NextNodesFirst` | app/core/graph.py:292-296 | the node execute moves to (the first next node, or none) is the target of the first qualifying edge in insertion order |
| `Executor.WorkflowRun.constructor` | app/core/graph.py:180-189 | a run starts Running on the caller's state, with no logs, no visits, no error and no completion time |
| `Executor.WorkflowRun.RunNode` | app/core/graph.py:246-296 | one pass of the loop body moves the run exactly as one `Step` of the specification: merge, success log and visit, then the first successor; or an error log and a raise; or a missing node |
| `Executor.WorkflowRun.Drive` | app/core/graph.py:243-296 | the `while` loop stops where the specification's walk stops, at the same state, logs, visits and counter, or at the same exception |
| `Executor.WorkflowRun.Finish` | app/core/graph.py:298-307 | the end of a run: Completed when nothing was raised, otherwise Failed with the exception's text; completion time stamped either way, state, logs and visits untouched |
| `Executor.WorkflowRun.GetState` | app/core/graph.py:191-193 | the state handed out is the state the run's record reports |
| `Executor.WorkflowRun.GetLogs` | app/core/graph.py:195-197 | the logs handed out are the logs the run's record reports |
| `Executor.WorkflowExecutor.constructor` | app/core/graph.py:212-214 | an executor starts with no current run |
| `Executor.WorkflowExecutor.Execute` | app/core/graph.py:216-311 | an invalid graph raises before any run is created; otherwise a fresh run becomes the current run, its record equals `ExecuteSpec` of the graph, and the run is returned exactly when the specification raises nothing |
| `Executor.WorkflowExecutor.GetCurrentRun` | app/core/graph.py:313-315 | the executor's current run: none before the first execute that passes validation, afterwards that execute's run (see `Execute`) |
| `Executor.StepKeepsTrace` | app/core/graph.py:250-296 | one pass of the loop keeps the trace invariant, or leaves the loop in the state described for a missing node, a raising node or a raising condition |
| `Executor.StepReturns` | app/core/graph.py:255-296 | a step whose node returns extends the trace by one visit and one success log whose snapshot is the merged state, and moves along the first qualifying edge |
| `Executor.StepRaises` | app/core/graph.py:275-289 | a step whose node raises adds one error log with the message and the unchanged state, and no visit |
| `Executor.RunLoopReaches` | app/core/graph.py:245-296 | from any point of a valid trace, the loop ends within its cap either with a trace that has no truthy successor or below the limit, or in one of the three exception states |
| `Executor.ExecuteTrace` | app/core/graph.py:255-296 | every run's visits are a first-match walk from the entry point; success logs pair one to one with visits, each snapshot being the merged state; a raising node adds exactly one error log; the final state is the last snapshot; no run calls more nodes (log entries, visits included) than its limit |
| `Executor.ExecuteStatus` | app/core/graph.py:298-309 | a run is Completed exactly when nothing was raised, then with no error, fewer steps than the limit and no successor; otherwise Failed with the exception's text; an iteration-limit failure has taken exactly the limit in steps |
| `Executor.ExecuteNeverMissesNode` | app/core/graph.py:250 | on a graph whose entry point and edge targets are nodes (as the builder methods guarantee), no run fails on a missing node |
| `Executor.RunLoopNeverExits` | app/core/graph.py:245-296 | on a graph that never lets a walk end, the loop runs until the counter reaches the limit |
| `Executor.ExecuteNeverExits` | app/core/graph.py:298-299 | such a run fails with the iteration-limit error after exactly the limit in steps (1000 when no limit or 0 is given) |
| `Executor.RunLoopRanked` | app/core/graph.py:245-296 | on a graph whose edges all lead to a lower-ranked node, each step of the loop lowers the current node's rank, so at most rank(entry) + 1 nodes are visited; when nothing raises and edge targets are nodes, the loop stops without an exception |
| `Executor.ExecuteAcyclic` | app/core/graph.py:245-302 | a run on a graph without cycles visits at most rank(entry) + 1 nodes; when no node or condition raises and edge targets are nodes, it completes provided that count is below the limit |
| `Executor.AcyclicWithinNodeCount` | app/core/graph.py:245-302 | with a reverse topological numbering of the nodes, a run of a graph without cycles visits at most as many nodes as the graph has, and completes when nothing raises and the graph has fewer nodes than the limit |
| `Executor.ExactLimitFails` | app/core/graph.py:298-299 | a one-step walk fails with the iteration-limit error when the limit is 1 and completes when it is 2 |
| `DataQuality.NullCount` | app/workflows/data_quality.py:39 | the number of None values is at most the number of records |
| `DataQuality.ProfileData` | app/workflows/data_quality.py:25-49 | returns exactly when the data is a dictionary and the counter is a number; then the profile has record and field counts equal to the number of records, a null count equal to the number of None values among them, and the counter is advanced by one |
| `DataQuality.Sampled` | app/workflows/data_quality.py:80-89 | whatever the random draws, at most three anomalies, each with one of the known types |
| `DataQuality.IdentifyAnomalies` | app/workflows/data_quality.py:52-96 | returns exactly when the profile is a dictionary with numeric counts; then at most four anomalies, each with a known type, and their number |
| `DataQuality.CollectRules` | app/workflows/data_quality.py:109-137 | the `for` loop over the anomalies computes `RulesFor`, and stops at the first anomaly that is not a dictionary with a type |
| `DataQuality.RulesForAppend` | app/workflows/data_quality.py:112-136 | the rules of two runs of anomalies are those of the first followed by those of the second |
| `DataQuality.RulesForShape` | app/workflows/data_quality.py:109-143 | rule generation succeeds exactly when every anomaly is a dictionary with a type, and then emits at most one rule per anomaly, each one of the four known rules |
| `DataQuality.RulesForKnown` | app/workflows/data_quality.py:113-136 | when every anomaly has a known type, there is exactly one rule per anomaly, in anomaly order, given by the fixed type-to-rule mapping |
| `DataQuality.GenerateRules` | app/workflows/data_quality.py:99-143 | for a list, returns exactly when rule generation succeeds, with the rules and their count; anything else gives no rules when empty and raises otherwise |
| `DataQuality.FixedAmong` | app/workflows/data_quality.py:160-166 | no more anomalies are fixed than rules applied |
| `DataQuality.CountApplied` | app/workflows/data_quality.py:156-166 | the loop applies every rule and counts the fixes the random coin grants |
| `DataQuality.ApplyRules` | app/workflows/data_quality.py:146-173 | returns exactly when the rules can be iterated; then it reports all of them applied and at most that many fixed |
| `DataQuality.ShouldLoop` | app/workflows/data_quality.py:176-196 | true exactly when the anomaly count is above 1 and the counter below 5 (both default 0); raises exactly when a comparison it reaches is on a non-number |
| `DataQuality.ShouldStop` | app/workflows/data_quality.py:307-312 | the exit condition is the negation of `should_loop`, and raises exactly when it does |
| `DataQuality.SummarizeResults` | app/workflows/data_quality.py:276-285 | the summary holds exactly the four counters copied from the state, each defaulting to 0 |
| `DataQuality.CreateDataQualityPipeline` | app/workflows/data_quality.py:233-317 | the new graph is named data_quality_pipeline, has the five nodes with their functions, the five edges in order, entry point profile, and validates |
| `DataQuality.BuildPipeline` | app/workflows/data_quality.py:251-315 | the builder calls succeed, produce exactly those nodes and edges for any node functions and conditions, and leave a valid graph |
| `DataQuality.AddFrontNodes` | app/workflows/data_quality.py:254-268 | the first three add_node calls succeed, and profile becomes the entry point |
| `DataQuality.AddPipelineNodes` | app/workflows/data_quality.py:254-291 | all five add_node calls succeed, leaving exactly the five pipeline nodes |
| `DataQuality.AddPipelineEdges` | app/workflows/data_quality.py:293-312 | all five add_edge calls succeed, appending exactly the pipeline's edges in order |
| `DataQuality.PipelineRouting` | app/workflows/data_quality.py:294-312 | profile, identify_anomalies and generate_rules go straight on, summarize has no successor, and apply_rules goes back to profile or on to summarize as should_loop says, or raises with it |
| `DataQuality.ExitComplementsLoop` | app/workflows/data_quality.py:298-312 | unless should_loop raises, exactly one of the two edges out of apply_rules qualifies; if it raises, both raise |
| `DataQuality.RoundsFrom` | app/workflows/data_quality.py:190-196 | from the start of a round with counter 0 ≤ j < 5, the walk ends at summarize after between 1 and 5 - j more rounds, with the summary recording the final counter |
| `DataQuality.PipelineCompletes` | app/workflows/data_quality.py:176-196 | whatever the random steps do, a pipeline run from a state whose data is a dictionary and whose counter j satisfies 0 ≤ j < 5 completes with no error, after 1 to 5 - j rounds and then summarize, and the summary records the final counter |
| `Tools.ToolRegistry.constructor` | app/core/tools.py:21-23 | a new registry is empty, and both tables have the same names |
| `Tools.ToolRegistry.Register` | app/core/tools.py:25-44 | the tool and description are stored under the name, overwriting any earlier ones; every other name is unchanged; calling the name now runs that tool; both tables keep the same names |
| `Tools.ToolRegistry.Get` | app/core/tools.py:46-56 | the tool under the name, or None exactly when none is registered |
| `Tools.ToolRegistry.Call` | app/core/tools.py:58-74 | an unknown name raises "not found"; a known one runs exactly the registered tool on the given arguments |
| `Tools.ToolRegistry.ListTools` | app/core/tools.py:76-83 | the description table, which names exactly the registered tools |
| `Tools.ToolRegistry.Exists` | app/core/tools.py:85-87 | true exactly when the name is registered |
| `Storage.GraphStore.constructor` | app/core/storage.py:17-18 | a new store is empty |
| `Storage.GraphStore.Save` | app/core/storage.py:20-23 | get of the graph's id then returns the graph, overwriting any earlier one; every other id is unchanged |
| `Storage.GraphStore.Get` | app/core/storage.py:25-27 | the stored graph, or None exactly when the id is unknown |
| `Storage.GraphStore.Delete` | app/core/storage.py:29-35 | returns true exactly when the id was stored; the id is gone afterwards and every other id is unchanged |
| `Storage.GraphStore.ListAll` | app/core/storage.py:37-39 | exactly the stored graphs, each under its id |
| `Storage.RunStore.constructor` | app/core/storage.py:45-46 | a new store is empty |
| `Storage.RunStore.Save` | app/core/storage.py:48-51 | get of the run's id then returns the run, overwriting any earlier one; every other id is unchanged; the run is listed under its graph |
| `Storage.RunStore.Get` | app/core/storage.py:53-55 | the stored run, or None exactly when the id is unknown |
| `Storage.RunStore.Delete` | app/core/storage.py:57-63 | returns true exactly when the id was stored; the id is gone afterwards and every other id is unchanged |
| `Storage.RunStore.ListAll` | app/core/storage.py:65-67 | exactly the stored runs, each under its id |
| `Storage.RunStore.ListByGraph` | app/core/storage.py:69-75 | exactly the stored runs whose graph has the given id, under the same ids |
| `LinearExample.BuildLinearGraph` | test_engine.py:24-51 | the three nodes and two edges of the test, with step_1 as entry point by default, form a valid graph |
| `LinearExample.LinearRun` | test_engine.py:53-64 | the run completes with counter 111 after visiting step_1, step_2 and step_3 once each, with one log per step |

## Left out

- The HTTP layer, request and response schemas and the launcher (app/main.py, app/models/schemas.py, run.py) are not part of this model. Neither are the demonstrations in examples.py.
- Identifiers and clocks:
  - run ids and graph ids are parameters instead of fresh UUIDs;
  - the completion time is a parameter `now`;
  - creation times, step ids, log timestamps and step durations are dropped;
  - logging calls are dropped.
- Node functions and conditions are function values that return a result or raise. A node that mutates the state it was passed in place (as the test's step functions do) is modelled as returning the updated dictionary. The aliasing itself is not modelled.
- The random choices of identify_anomalies and apply_rules are function parameters (`draw`, `coin`) of the state. Any single outcome can be chosen this way. The functions are fixed when `CreateDataQualityPipeline` builds the graph, so two executions of one graph from the same state repeat the same draws in the model. Python's global `random` does not: its draws change from run to run. `PipelineCompletes` holds for every choice of these functions.
- Floats are not modelled: the null threshold `null_count > record_count * 0.1` is stated on integers as `10 * null_count > record_count`.
- Error messages from Python's own TypeErrors and KeyErrors inside the step functions are approximations of the interpreter's texts. So is the missing-node text (`MissingNode`'s `Text`): it always puts the name in single quotes. `str(KeyError(name))` is `repr(name)`, which switches to double quotes or escapes when the name contains a quote or a backslash.
- The process-wide singletons get_tool_registry, get_graph_store and get_run_store, and register_data_quality_tools, are not modelled. They only create or fill a global registry.
- Dictionary insertion order is not modelled: maps are unordered. The order of node listings and of `list_tools` output is lost. Edge order, which routing depends on, is kept.
- Keyword and positional arguments of a tool call are one `Arguments` value.
- The Paused status exists but nothing reaches it, as in the source.
- `DataQuality.ApplyRules`: states only that the number of fixes is at most the number of rules, since the count itself is random. The exact count, given the coin, is `FixedAmong`.
- `DataQuality.IdentifyAnomalies`: states the shape of the anomaly list (known types, at most four), not which random anomalies appear.
