/**
 * The three-step linear graph of the engine's own test: each step marks
 * itself done and adds 1, 10 and 100 to a counter.
 */
module LinearExample {
  import opened Values
  import opened GraphModel
  import opened Executor

  /** A step that sets `flag` and adds `amount` to "counter" (default 0),
      returning the whole updated state. */
  function Bump(flag: string, amount: int): NodeFn
  {
    s =>
      var counter := Get(s, "counter", VInt(0));
      match AsInt(counter)
      case None => NodeRaised(AddIntError(counter))
      case Some(c) => NodeReturned(VDict(s[flag := VBool(true)]["counter" := VInt(c + amount)]))
  }

  function LinearNodes(): map<string, NodeDefinition>
  {
    map[
      "step_1" := NodeDefinition("step_1", Bump("step_1_done", 1), "First step"),
      "step_2" := NodeDefinition("step_2", Bump("step_2_done", 10), "Second step"),
      "step_3" := NodeDefinition("step_3", Bump("step_3_done", 100), "Third step")]
  }

  function LinearEdges(): seq<EdgeDefinition>
  {
    [EdgeDefinition("step_1", "step_2", None, ""), EdgeDefinition("step_2", "step_3", None, "")]
  }

  /** Building the graph: no set_entry_point call, so the first node added is the entry. */
  method BuildLinearGraph(graphId: string) returns (g: Graph)
    ensures fresh(g)
    ensures g.nodes == LinearNodes() && g.edges == LinearEdges()
    ensures g.entryPoint == Some("step_1")
    ensures g.Valid() && g.Validate() == (true, "")
  {
    g := new Graph("test_linear", graphId);
    var ok := g.AddNode("step_1", Bump("step_1_done", 1), "First step");
    ok := g.AddNode("step_2", Bump("step_2_done", 10), "Second step");
    ok := g.AddNode("step_3", Bump("step_3_done", 100), "Third step");
    assert g.nodes == LinearNodes();
    ok := g.AddEdge("step_1", "step_2", None, "");
    ok := g.AddEdge("step_2", "step_3", None, "");
    assert g.edges == LinearEdges();
  }

  /** Taking one more element of a sequence appends it. */
  lemma TakeOneMore<T>(s: seq<T>, n: nat)
    requires n < |s|
    ensures s[..n] + [s[n]] == s[..n + 1]
  {}

  /** Routing in the linear graph: each step leads to the next, step_3 to nothing. */
  lemma LinearRouting(s: State)
    ensures NextNodes(LinearEdges(), "step_1", s) == Ok(["step_2"])
    ensures NextNodes(LinearEdges(), "step_2", s) == Ok(["step_3"])
    ensures NextNodes(LinearEdges(), "step_3", s) == Ok([])
  {
    var e := LinearEdges();
    var none: seq<string> := [];
    assert e[..1][..0] == [] && e[..1] == [e[0]] && e[..|e| - 1] == e[..1];
    assert none + ["step_2"] == ["step_2"] && none + ["step_3"] == ["step_3"];
  }

  /** The states after each step: the test's initial state plus the flags
      set so far and the counter. */
  function After(n: nat): State
    requires n <= 3
  {
    var start: State := map["start" := VBool(true)];
    if n == 0 then start
    else if n == 1 then start["step_1_done" := VBool(true)]["counter" := VInt(1)]
    else if n == 2 then After(1)["step_2_done" := VBool(true)]["counter" := VInt(11)]
    else After(2)["step_3_done" := VBool(true)]["counter" := VInt(111)]
  }

  /** The steps in the order the edges chain them. */
  const Names: seq<string> := ["step_1", "step_2", "step_3"]

  /** Step n + 1 of the linear run returns the state after it, and the merge keeps exactly that. */
  lemma LinearStepResult(n: nat)
    requires n < 3
    ensures LinearNodes()[Names[n]].func(After(n)) == NodeReturned(VDict(After(n + 1)))
    ensures Merge(After(n), VDict(After(n + 1))) == After(n + 1)
  {
    assert After(n + 1).Keys >= After(n).Keys;
  }

  /** Step n + 1 of the linear walk, from the loop after n steps to the loop after n + 1. */
  lemma LinearStep(n: nat, l: Loop) returns (l': Loop)
    requires n < 3
    requires l.state == After(n) && l.current == Some(Names[n]) && l.iteration == n
    requires l.visited == Names[..n] && |l.logs| == n
    ensures RunLoop(LinearNodes(), LinearEdges(), l, MaxIterations) == RunLoop(LinearNodes(), LinearEdges(), l', MaxIterations)
    ensures l'.state == After(n + 1) && l'.current == (if n < 2 then Some(Names[n + 1]) else None)
    ensures l'.iteration == n + 1 && l'.visited == Names[..n + 1] && |l'.logs| == n + 1
  {
    var nodes, edges := LinearNodes(), LinearEdges();
    LinearStepResult(n);
    LinearRouting(After(n + 1));
    StepForward(nodes, edges, l, VDict(After(n + 1)), if n < 2 then Some(Names[n + 1]) else None);
    RunLoopForward(nodes, edges, l, MaxIterations);
    l' := Step(nodes, edges, l).at;
    TakeOneMore(Names, n);
  }

  /** The walk of the linear run: step_3 has no successor, so the walk stops. */
  lemma LinearWalk() returns (last: Loop)
    ensures RunLoop(LinearNodes(), LinearEdges(), Loop(After(0), [], [], Some("step_1"), 0), MaxIterations) == Walking(last)
    ensures last.state == After(3) && last.current == None && last.iteration == 3
    ensures last.visited == Names && |last.logs| == 3
  {
    var l1 := LinearStep(0, Loop(After(0), [], [], Some("step_1"), 0));
    var l2 := LinearStep(1, l1);
    last := LinearStep(2, l2);
    assert Names[..3] == Names;
  }

  /** The test's expectations: the run completes with counter 111 after
      visiting the three steps once each, one success log per step. */
  lemma LinearRun()
    ensures var e := ExecuteSpec(LinearNodes(), LinearEdges(), "step_1", map["start" := VBool(true)], None);
            && e.raised.None?
            && e.record.status == Completed
            && Get(e.record.state, "counter", VNone) == VInt(111)
            && e.record.visited == Names
            && |e.record.logs| == 3
  {
    var last := LinearWalk();
    WalkCompletes(LinearNodes(), LinearEdges(), "step_1", After(0), last);
  }
}
