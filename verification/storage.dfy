/**
 * The in-memory stores: graphs keyed by graph id, runs keyed by run id.
 */
module Storage {
  import opened Values
  import opened GraphModel
  import opened Executor

  class GraphStore {
    var graphs: map<string, Graph>

    constructor ()
      ensures graphs == map[]
    {
      graphs := map[];
    }

    /** save: stores the graph under its own id, replacing what was there. */
    method Save(graph: Graph)
      modifies this
      ensures graphs == old(graphs)[graph.graphId := graph]
      ensures Get(graph.graphId) == Some(graph)
      ensures forall id :: id != graph.graphId ==> Get(id) == old(Get(id))
    {
      graphs := graphs[graph.graphId := graph];
    }

    /** get: the graph stored under the id, or None. */
    function Get(graphId: string): (r: Option<Graph>)
      reads this
      ensures r.Some? <==> graphId in graphs
      ensures r.Some? ==> r.value == graphs[graphId]
    {
      if graphId in graphs then Some(graphs[graphId]) else None
    }

    /** delete: removes the id and says whether it was there. */
    method Delete(graphId: string) returns (deleted: bool)
      modifies this
      ensures deleted <==> old(Get(graphId)).Some?
      ensures graphs == old(graphs) - {graphId}
      ensures Get(graphId) == None
      ensures forall id :: id != graphId ==> Get(id) == old(Get(id))
    {
      deleted := graphId in graphs;
      if deleted {
        graphs := graphs - {graphId};
      }
    }

    /** list_all: every stored graph under its id, and nothing else. */
    function ListAll(): (r: map<string, Graph>)
      reads this
      ensures forall id :: id in r <==> Get(id).Some?
      ensures forall id :: id in r ==> Get(id) == Some(r[id])
    {
      graphs
    }
  }

  class RunStore {
    var runs: map<string, WorkflowRun>

    constructor ()
      ensures runs == map[]
    {
      runs := map[];
    }

    /** save: stores the run under its own id, replacing what was there. */
    method Save(run: WorkflowRun)
      modifies this
      ensures runs == old(runs)[run.runId := run]
      ensures Get(run.runId) == Some(run)
      ensures forall id :: id != run.runId ==> Get(id) == old(Get(id))
      ensures run.runId in ListByGraph(run.graph.graphId)
    {
      runs := runs[run.runId := run];
    }

    /** get: the run stored under the id, or None. */
    function Get(runId: string): (r: Option<WorkflowRun>)
      reads this
      ensures r.Some? <==> runId in runs
      ensures r.Some? ==> r.value == runs[runId]
    {
      if runId in runs then Some(runs[runId]) else None
    }

    /** delete: removes the id and says whether it was there. */
    method Delete(runId: string) returns (deleted: bool)
      modifies this
      ensures deleted <==> old(Get(runId)).Some?
      ensures runs == old(runs) - {runId}
      ensures Get(runId) == None
      ensures forall id :: id != runId ==> Get(id) == old(Get(id))
    {
      deleted := runId in runs;
      if deleted {
        runs := runs - {runId};
      }
    }

    /** list_all: every stored run under its id, and nothing else. */
    function ListAll(): (r: map<string, WorkflowRun>)
      reads this
      ensures forall id :: id in r <==> Get(id).Some?
      ensures forall id :: id in r ==> Get(id) == Some(r[id])
    {
      runs
    }

    /** list_by_graph: exactly the stored runs of the given graph, under their ids. */
    function ListByGraph(graphId: string): (r: map<string, WorkflowRun>)
      reads this
      ensures forall id :: id in r <==> id in runs && runs[id].graph.graphId == graphId
      ensures forall id :: id in r ==> r[id] == runs[id]
    {
      map id | id in runs && runs[id].graph.graphId == graphId :: runs[id]
    }
  }
}
