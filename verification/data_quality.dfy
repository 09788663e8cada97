/**
 * The built-in data-quality pipeline: its deterministic step functions,
 * its two random steps (driven here by arbitrary draw functions), the
 * wiring of the graph, and the guarantee that a run of it stops after at
 * most five rounds with a summary.
 */
module DataQuality {
  import opened Values
  import opened GraphModel
  import opened Executor

  // ---------------------------------------------------------------------
  // Python behaviour the step functions rely on
  // ---------------------------------------------------------------------

  /** Text of the TypeError an order comparison `x op y` raises on a non-number. */
  function CompareError(op: string, v: Value, other: string): string
  {
    "'" + op + "' not supported between instances of '" + TypeName(v) + "' and '" + other + "'"
  }

  /** Text of the error `x["type"]` raises when x is not a dictionary. */
  function SubscriptError(v: Value): string
  {
    match v
    case VList(_) => "list indices must be integers or slices, not str"
    case VStr(_) => "string indices must be integers"
    case _ => "'" + TypeName(v) + "' object is not subscriptable"
  }

  /** How many times `for x in v` runs, or None when v is not iterable. */
  function IterationCount(v: Value): Option<nat>
  {
    match v
    case VList(xs) => Some(|xs|)
    case VDict(m) => Some(|m|)
    case VStr(t) => Some(|t|)
    case _ => None
  }

  // ---------------------------------------------------------------------
  // profile_data
  // ---------------------------------------------------------------------

  /** The number of entries of a dictionary whose value is None. */
  function NullCount(m: map<string, Value>): (n: nat)
    ensures n <= |m|
  {
    var nulls := set k | k in m && m[k] == VNone;
    assert nulls <= m.Keys;
    SubsetCardinality(nulls, m.Keys);
    |nulls|
  }

  lemma SubsetCardinality<T>(a: set<T>, b: set<T>)
    requires a <= b
    ensures |a| <= |b|
  {
    if a != {} {
      var x :| x in a;
      SubsetCardinality(a - {x}, b - {x});
    }
  }

  /** `state.get("data", {})` is a dictionary. */
  predicate DataOk(s: State)
  {
    Get(s, "data", VDict(map[])).VDict?
  }

  /** `state.get("iteration", 0)` as a number, if it is one. */
  function Iteration(s: State): Option<int>
  {
    AsInt(Get(s, "iteration", VInt(0)))
  }

  /** A dictionary the way profile_data builds it, for `count` records of which `nulls` are None. */
  predicate IsProfile(v: Value, count: nat, nulls: nat)
  {
    && v.VDict?
    && Get(v.entries, "record_count", VNone) == VInt(count)
    && Get(v.entries, "field_count", VNone) == VInt(count)
    && Get(v.entries, "null_count", VNone) == VInt(nulls)
    && Get(v.entries, "profile_complete", VNone) == VBool(true)
  }

  /**
   * profile_data: counts the records of the data dictionary and the None
   * values among them, and advances the iteration counter by one.
   */
  function ProfileData(s: State): (r: NodeOutcome)
    ensures r.NodeReturned? <==> DataOk(s) && Iteration(s).Some?
    ensures r.NodeReturned? ==>
              && r.value.VDict?
              && r.value.entries.Keys == {"profile", "iteration"}
              && r.value.entries["iteration"] == VInt(Iteration(s).value + 1)
              && var records := Get(s, "data", VDict(map[])).entries;
                 IsProfile(r.value.entries["profile"], |records|, NullCount(records))
  {
    var data := Get(s, "data", VDict(map[]));
    if !data.VDict? then
      NodeRaised(
        if data.VList? || data.VStr? then "'" + TypeName(data) + "' object has no attribute 'values'"
        else "object of type '" + TypeName(data) + "' has no len()")
    else
      var records := data.entries;
      var iteration := Get(s, "iteration", VInt(0));
      match AsInt(iteration)
      case None => NodeRaised(AddIntError(iteration))
      case Some(i) =>
        var nulls := NullCount(records);
        var profile := VDict(map[
          "record_count" := VInt(|records|),
          "null_count" := VInt(nulls),
          "field_count" := VInt(|records|),
          "profile_complete" := VBool(true)]);
        assert Get(profile.entries, "null_count", VNone) == VInt(nulls);
        NodeReturned(VDict(map["profile" := profile, "iteration" := VInt(i + 1)]))
  }

  // ---------------------------------------------------------------------
  // identify_anomalies (random)
  // ---------------------------------------------------------------------

  /** The random choices identify_anomalies makes: whether each sampled
      anomaly is kept, and the raw number its count is drawn from. */
  datatype Draw = Draw(outOfRange: Option<nat>, duplicates: Option<nat>, formatMismatch: Option<nat>)

  function AnomalyRecord(kind: string, severity: string, count: Value): Value
  {
    VDict(map["type" := VStr(kind), "severity" := VStr(severity), "count" := count])
  }

  /** The anomaly types the pipeline knows rules for. */
  predicate KnownType(kind: string)
  {
    kind in {"high_null_count", "out_of_range_values", "duplicate_records", "format_mismatch"}
  }

  /** A dictionary with a "type" key, which is all generate_rules needs of an anomaly. */
  predicate HasType(v: Value)
  {
    v.VDict? && "type" in v.entries
  }

  /** The anomalies drawn at random: out-of-range (count 1..10), duplicates
      (count 0..5), format mismatch (count 0..3), each kept or not. */
  function Sampled(d: Draw): (r: seq<Value>)
    ensures |r| <= 3
    ensures forall i :: 0 <= i < |r| ==> HasType(r[i]) && r[i].entries["type"].VStr? && KnownType(r[i].entries["type"].s)
  {
    (if d.outOfRange.Some? then [AnomalyRecord("out_of_range_values", "error", VInt(1 + d.outOfRange.value % 10))] else [])
    + (if d.duplicates.Some? then [AnomalyRecord("duplicate_records", "warning", VInt(d.duplicates.value % 6))] else [])
    + (if d.formatMismatch.Some? then [AnomalyRecord("format_mismatch", "error", VInt(d.formatMismatch.value % 4))] else [])
  }

  /**
   * identify_anomalies: a high-null anomaly when more than a tenth of the
   * records are None (stated on integers as 10 * nulls > records), followed
   * by the randomly sampled anomalies; `draw` stands for the random module.
   */
  function IdentifyAnomalies(draw: State -> Draw, s: State): (r: NodeOutcome)
    ensures r.NodeReturned? <==>
              && Get(s, "profile", VDict(map[])).VDict?
              && AsInt(Get(Get(s, "profile", VDict(map[])).entries, "null_count", VInt(0))).Some?
              && AsInt(Get(Get(s, "profile", VDict(map[])).entries, "record_count", VInt(1))).Some?
    ensures r.NodeReturned? ==>
              && r.value.VDict?
              && r.value.entries.Keys == {"anomalies", "anomaly_count"}
              && r.value.entries["anomalies"].VList?
              && var found := r.value.entries["anomalies"].items;
                 && |found| <= 4
                 && r.value.entries["anomaly_count"] == VInt(|found|)
                 && forall i :: 0 <= i < |found| ==>
                      HasType(found[i]) && found[i].entries["type"].VStr? && KnownType(found[i].entries["type"].s)
  {
    var profile := Get(s, "profile", VDict(map[]));
    if !profile.VDict? then NodeRaised("'" + TypeName(profile) + "' object has no attribute 'get'")
    else
      var nulls := Get(profile.entries, "null_count", VInt(0));
      var records := Get(profile.entries, "record_count", VInt(1));
      if AsInt(records).None? then
        NodeRaised(
          if records.VStr? || records.VList? then "can't multiply sequence by non-int of type 'float'"
          else "unsupported operand type(s) for *: '" + TypeName(records) + "' and 'float'")
      else if AsInt(nulls).None? then NodeRaised(CompareError(">", nulls, "float"))
      else
        var high := if 10 * AsInt(nulls).value > AsInt(records).value
                    then [AnomalyRecord("high_null_count", "warning", nulls)] else [];
        var found := high + Sampled(draw(s));
        NodeReturned(VDict(map["anomalies" := VList(found), "anomaly_count" := VInt(|found|)]))
  }

  // ---------------------------------------------------------------------
  // generate_rules
  // ---------------------------------------------------------------------

  function Rule(id: string, description: string, check: string): Value
  {
    VDict(map["id" := VStr(id), "description" := VStr(description), "check_function" := VStr(check)])
  }

  /** The fixed mapping from anomaly type to rule; other types have none. */
  function RuleFor(kind: Value): Option<Value>
  {
    if kind == VStr("high_null_count") then
      Some(Rule("rule_null_check", "Null values should be < 10% of records", "check_null_count"))
    else if kind == VStr("out_of_range_values") then
      Some(Rule("rule_range_check", "Values must be within expected range", "check_value_range"))
    else if kind == VStr("duplicate_records") then
      Some(Rule("rule_uniqueness", "Records should be unique", "check_uniqueness"))
    else if kind == VStr("format_mismatch") then
      Some(Rule("rule_format", "Values must match expected format", "check_format"))
    else None
  }

  /** The four rules generate_rules can emit. */
  ghost predicate IsRule(v: Value)
  {
    exists kind: string :: KnownType(kind) && RuleFor(VStr(kind)) == Some(v)
  }

  /** The rule one anomaly contributes (or none), or the error `anomaly["type"]` raises. */
  function RuleOf(anomaly: Value): Result<Option<Value>>
  {
    if !anomaly.VDict? then Err(SubscriptError(anomaly))
    else if "type" !in anomaly.entries then Err("'type'")
    else Ok(RuleFor(anomaly.entries["type"]))
  }

  /** The loop of generate_rules over a list of anomalies, as a function of the list. */
  function RulesFor(anomalies: seq<Value>): Result<seq<Value>>
    decreases |anomalies|
  {
    if anomalies == [] then Ok([])
    else
      match RulesFor(anomalies[..|anomalies| - 1])
      case Err(m) => Err(m)
      case Ok(rules) =>
        match RuleOf(anomalies[|anomalies| - 1])
        case Err(m) => Err(m)
        case Ok(None) => Ok(rules)
        case Ok(Some(rule)) => Ok(rules + [rule])
  }

  /** The `for anomaly in anomalies` loop of generate_rules. */
  method CollectRules(anomalies: seq<Value>) returns (r: Result<seq<Value>>)
    ensures r == RulesFor(anomalies)
  {
    var rules: seq<Value> := [];
    for i := 0 to |anomalies|
      invariant RulesFor(anomalies[..i]) == Ok(rules)
    {
      assert anomalies[..i + 1][..i] == anomalies[..i];
      var anomaly := anomalies[i];
      if !anomaly.VDict? {
        RulesForPrefixFails(anomalies, i + 1);
        return Err(SubscriptError(anomaly));
      }
      if "type" !in anomaly.entries {
        RulesForPrefixFails(anomalies, i + 1);
        return Err("'type'");
      }
      var rule := RuleFor(anomaly.entries["type"]);
      if rule.Some? {
        rules := rules + [rule.value];
      }
    }
    assert anomalies[..|anomalies|] == anomalies;
    r := Ok(rules);
  }

  /** Rules over `a + b` are those of `a` followed by those of `b`. */
  lemma {:induction false} RulesForAppend(a: seq<Value>, b: seq<Value>)
    ensures RulesFor(a + b) == Concat(RulesFor(a), RulesFor(b))
    decreases |b|
  {
    if b == [] {
      assert a + b == a;
      if RulesFor(a).Ok? {
        assert RulesFor(a).value + [] == RulesFor(a).value;
      }
    } else {
      var b' := b[..|b| - 1];
      assert (a + b)[..|a + b| - 1] == a + b';
      assert (a + b)[|a + b| - 1] == b[|b| - 1];
      RulesForAppend(a, b');
      if RulesFor(a).Ok? && RulesFor(b').Ok? && RuleOf(b[|b| - 1]).Ok? && RuleOf(b[|b| - 1]).value.Some? {
        var x, y, z := RulesFor(a).value, RulesFor(b').value, RuleOf(b[|b| - 1]).value.value;
        assert (x + y) + [z] == x + (y + [z]);
      }
    }
  }

  lemma RulesForPrefixFails(anomalies: seq<Value>, k: nat)
    requires k <= |anomalies| && RulesFor(anomalies[..k]).Err?
    ensures RulesFor(anomalies) == RulesFor(anomalies[..k])
  {
    assert anomalies == anomalies[..k] + anomalies[k..];
    RulesForAppend(anomalies[..k], anomalies[k..]);
  }

  /**
   * generate_rules over a list succeeds exactly when every anomaly is a
   * dictionary with a "type"; it then emits at most one rule per anomaly,
   * each one of the four known rules.
   */
  lemma {:induction false} RulesForShape(anomalies: seq<Value>)
    ensures RulesFor(anomalies).Ok? <==> forall i :: 0 <= i < |anomalies| ==> HasType(anomalies[i])
    ensures RulesFor(anomalies).Ok? ==>
              |RulesFor(anomalies).value| <= |anomalies| &&
              forall k :: 0 <= k < |RulesFor(anomalies).value| ==> IsRule(RulesFor(anomalies).value[k])
    decreases |anomalies|
  {
    if anomalies != [] {
      var pre := anomalies[..|anomalies| - 1];
      var last := anomalies[|anomalies| - 1];
      RulesForShape(pre);
      assert forall i :: 0 <= i < |pre| ==> pre[i] == anomalies[i];
      if RuleOf(last).Ok? && RuleOf(last).value.Some? {
        var kind := last.entries["type"];
        assert kind.VStr? && KnownType(kind.s) && RuleFor(VStr(kind.s)) == RuleOf(last).value;
      }
    }
  }

  /** The type of an anomaly generate_rules accepts. */
  function TypeOf(anomaly: Value): Value
    requires HasType(anomaly)
  {
    anomaly.entries["type"]
  }

  /** When every anomaly has a known type, there is exactly one rule per
      anomaly, in anomaly order, given by the fixed mapping. */
  lemma {:induction false} RulesForKnown(anomalies: seq<Value>)
    requires forall i :: 0 <= i < |anomalies| ==> HasType(anomalies[i]) && RuleFor(TypeOf(anomalies[i])).Some?
    ensures RulesFor(anomalies).Ok?
    ensures |RulesFor(anomalies).value| == |anomalies|
    ensures forall i :: 0 <= i < |anomalies| ==> RulesFor(anomalies).value[i] == RuleFor(TypeOf(anomalies[i])).value
    decreases |anomalies|
  {
    if anomalies != [] {
      var pre := anomalies[..|anomalies| - 1];
      var last := anomalies[|anomalies| - 1];
      assert forall i :: 0 <= i < |pre| ==> pre[i] == anomalies[i];
      RulesForKnown(pre);
      var rules := RulesFor(pre).value;
      assert RuleOf(last) == Ok(Some(RuleFor(TypeOf(last)).value));
      var out := rules + [RuleFor(TypeOf(last)).value];
      assert RulesFor(anomalies) == Ok(out);
      forall i | 0 <= i < |anomalies|
        ensures out[i] == RuleFor(TypeOf(anomalies[i])).value
      {
        if i < |pre| {
          assert out[i] == rules[i] && anomalies[i] == pre[i];
        } else {
          assert i == |rules| && anomalies[i] == last;
        }
      }
    }
  }

  /**
   * generate_rules: the rules for the anomalies in the state, and their
   * number. Iterating over anything but a list raises unless it is empty
   * (an empty dictionary or string gives no rules).
   */
  function GenerateRules(s: State): (r: NodeOutcome)
    ensures var anomalies := Get(s, "anomalies", VList([]));
            anomalies.VList? ==>
              (r.NodeReturned? <==> RulesFor(anomalies.items).Ok?) &&
              (r.NodeReturned? ==>
                 r.value == VDict(map["rules" := VList(RulesFor(anomalies.items).value),
                                      "rule_count" := VInt(|RulesFor(anomalies.items).value|)]))
    ensures var anomalies := Get(s, "anomalies", VList([]));
            !anomalies.VList? ==>
              (r.NodeReturned? <==> IterationCount(anomalies) == Some(0)) &&
              (r.NodeReturned? ==> r.value == VDict(map["rules" := VList([]), "rule_count" := VInt(0)]))
  {
    var anomalies := Get(s, "anomalies", VList([]));
    var none := NodeReturned(VDict(map["rules" := VList([]), "rule_count" := VInt(0)]));
    match anomalies
    case VList(items) =>
      (match RulesFor(items)
       case Err(m) => NodeRaised(m)
       case Ok(rules) => NodeReturned(VDict(map["rules" := VList(rules), "rule_count" := VInt(|rules|)])))
    case VDict(m) => if |m| == 0 then none else NodeRaised(SubscriptError(VStr("")))
    case VStr(t) => if |t| == 0 then none else NodeRaised(SubscriptError(VStr("")))
    case _ => NodeRaised("'" + TypeName(anomalies) + "' object is not iterable")
  }

  // ---------------------------------------------------------------------
  // apply_rules (random)
  // ---------------------------------------------------------------------

  /** How many of the first `n` rules the fix coin declares fixed. */
  function FixedAmong(coin: (State, nat) -> bool, s: State, n: nat): (fixed: nat)
    ensures fixed <= n
  {
    if n == 0 then 0 else FixedAmong(coin, s, n - 1) + (if coin(s, n - 1) then 1 else 0)
  }

  /**
   * The `for rule in rules` loop of apply_rules: every rule is applied, and
   * each fixes an anomaly when its coin comes up (the random draw, here a
   * parameter indexed by the rule's position).
   */
  method CountApplied(coin: (State, nat) -> bool, s: State, rules: nat) returns (applied: nat, fixed: nat)
    ensures applied == rules
    ensures fixed == FixedAmong(coin, s, rules)
  {
    applied, fixed := 0, 0;
    for i := 0 to rules
      invariant applied == i
      invariant fixed == FixedAmong(coin, s, i)
    {
      applied := applied + 1;
      if coin(s, i) {
        fixed := fixed + 1;
      }
    }
  }

  /**
   * apply_rules: the number of rules gone through and how many of them fixed
   * an anomaly; anything that cannot be iterated over raises.
   */
  function ApplyRules(coin: (State, nat) -> bool, s: State): (r: NodeOutcome)
    ensures r.NodeReturned? <==> IterationCount(Get(s, "rules", VList([]))).Some?
    ensures r.NodeReturned? ==>
              && r.value.VDict?
              && r.value.entries.Keys == {"rules_applied", "anomalies_fixed"}
              && var applied := IterationCount(Get(s, "rules", VList([]))).value;
                 && r.value.entries["rules_applied"] == VInt(applied)
                 && exists fixed: nat :: fixed <= applied && r.value.entries["anomalies_fixed"] == VInt(fixed)
  {
    var rules := Get(s, "rules", VList([]));
    match IterationCount(rules)
    case None => NodeRaised("'" + TypeName(rules) + "' object is not iterable")
    case Some(applied) =>
      var fixed := FixedAmong(coin, s, applied);
      NodeReturned(VDict(map["rules_applied" := VInt(applied), "anomalies_fixed" := VInt(fixed)]))
  }

  // ---------------------------------------------------------------------
  // should_loop and summarize_results
  // ---------------------------------------------------------------------

  /**
   * should_loop: go round again exactly when there is more than one anomaly
   * and fewer than five iterations (both default to 0); comparing something
   * that is not a number raises.
   */
  function ShouldLoop(s: State): (r: CondResult)
    ensures r == CondTrue <==>
              exists count: int, iteration: int ::
                && AsInt(Get(s, "anomaly_count", VInt(0))) == Some(count)
                && Iteration(s) == Some(iteration)
                && count > 1 && iteration < 5
    ensures r.CondRaised? <==>
              || AsInt(Get(s, "anomaly_count", VInt(0))).None?
              || (AsInt(Get(s, "anomaly_count", VInt(0))).value > 1 && Iteration(s).None?)
  {
    var count := Get(s, "anomaly_count", VInt(0));
    var iteration := Get(s, "iteration", VInt(0));
    match AsInt(count)
    case None => CondRaised(CompareError(">", count, "int"))
    case Some(c) =>
      if c <= 1 then CondFalse
      else
        match AsInt(iteration)
        case None => CondRaised(CompareError("<", iteration, "int"))
        case Some(i) => if i < 5 then CondTrue else CondFalse
  }

  /** The exit condition of the loop: `lambda state: not should_loop(state)`. */
  function ShouldStop(s: State): (r: CondResult)
    ensures r == CondTrue <==> ShouldLoop(s) == CondFalse
    ensures r == CondFalse <==> ShouldLoop(s) == CondTrue
    ensures r.CondRaised? <==> ShouldLoop(s).CondRaised?
  {
    match ShouldLoop(s)
    case CondTrue => CondFalse
    case CondFalse => CondTrue
    case CondRaised(m) => CondRaised(m)
  }

  /** summarize_results: copies four counters, each defaulting to 0, into "summary". */
  function SummarizeResults(s: State): (r: NodeOutcome)
    ensures r.NodeReturned? && r.value.VDict? && r.value.entries.Keys == {"summary"}
    ensures var summary := r.value.entries["summary"];
            && summary.VDict?
            && summary.entries.Keys == {"total_iterations", "final_anomaly_count", "total_rules_applied", "final_anomalies_fixed"}
            && summary.entries["total_iterations"] == Get(s, "iteration", VInt(0))
            && summary.entries["final_anomaly_count"] == Get(s, "anomaly_count", VInt(0))
            && summary.entries["total_rules_applied"] == Get(s, "rules_applied", VInt(0))
            && summary.entries["final_anomalies_fixed"] == Get(s, "anomalies_fixed", VInt(0))
  {
    NodeReturned(VDict(map["summary" := VDict(map[
      "total_iterations" := Get(s, "iteration", VInt(0)),
      "final_anomaly_count" := Get(s, "anomaly_count", VInt(0)),
      "total_rules_applied" := Get(s, "rules_applied", VInt(0)),
      "final_anomalies_fixed" := Get(s, "anomalies_fixed", VInt(0))])]))
  }

  // ---------------------------------------------------------------------
  // The pipeline graph
  // ---------------------------------------------------------------------

  const PipelineName: string := "data_quality_pipeline"

  /** The identify_anomalies node, with its random draws fixed by `draw`. */
  function IdentifyStep(draw: State -> Draw): NodeFn
  {
    s => IdentifyAnomalies(draw, s)
  }

  /** The apply_rules node, with its random draws fixed by `coin`. */
  function ApplyStep(coin: (State, nat) -> bool): NodeFn
  {
    s => ApplyRules(coin, s)
  }

  /** The pipeline's five nodes, for whichever functions they run. */
  function NodeMap(profile: NodeFn, identify: NodeFn, generate: NodeFn, apply: NodeFn, summarize: NodeFn)
    : map<string, NodeDefinition>
  {
    map[
      "profile" := NodeDefinition("profile", profile, "Profile the dataset to understand its characteristics"),
      "identify_anomalies" := NodeDefinition("identify_anomalies", identify, "Identify data quality issues and anomalies"),
      "generate_rules" := NodeDefinition("generate_rules", generate, "Generate quality rules based on detected anomalies"),
      "apply_rules" := NodeDefinition("apply_rules", apply, "Apply quality rules to fix issues"),
      "summarize" := NodeDefinition("summarize", summarize, "Summarize the results of the quality pipeline")]
  }

  /** The pipeline's five edges, for whichever conditions guard the loop and the exit. */
  function EdgeList(loop: Condition, stop: Condition): seq<EdgeDefinition>
  {
    [ EdgeDefinition("profile", "identify_anomalies", None, "Always proceed to anomaly detection"),
      EdgeDefinition("identify_anomalies", "generate_rules", None, "Always proceed to rule generation"),
      EdgeDefinition("generate_rules", "apply_rules", None, "Always proceed to rule application"),
      EdgeDefinition("apply_rules", "profile", Some(loop), "Loop back if anomalies remain and not exceeded max iterations"),
      EdgeDefinition("apply_rules", "summarize", Some(stop), "Proceed to summary when quality goals are met") ]
  }

  function PipelineNodes(draw: State -> Draw, coin: (State, nat) -> bool): map<string, NodeDefinition>
  {
    NodeMap(ProfileData, IdentifyStep(draw), GenerateRules, ApplyStep(coin), SummarizeResults)
  }

  function PipelineEdges(): seq<EdgeDefinition>
  {
    EdgeList(ShouldLoop, ShouldStop)
  }

  /**
   * create_data_quality_pipeline: five nodes, three unconditional edges, the
   * guarded loop back to profile and its complementary exit, entry at profile.
   */
  method CreateDataQualityPipeline(draw: State -> Draw, coin: (State, nat) -> bool, graphId: string)
    returns (g: Graph)
    ensures fresh(g)
    ensures g.name == PipelineName && g.graphId == graphId
    ensures g.nodes == PipelineNodes(draw, coin)
    ensures g.edges == PipelineEdges()
    ensures g.entryPoint == Some("profile")
    ensures g.Valid() && g.Validate().0
  {
    g := new Graph(PipelineName, graphId);
    BuildPipeline(g, ProfileData, IdentifyStep(draw), GenerateRules, ApplyStep(coin), SummarizeResults, ShouldLoop, ShouldStop);
  }

  /** The builder calls of create_data_quality_pipeline on a new graph, for
      whichever functions and conditions it wires together. */
  method BuildPipeline(g: Graph, profile: NodeFn, identify: NodeFn, generate: NodeFn, apply: NodeFn, summarize: NodeFn,
                       loop: Condition, stop: Condition)
    requires g.nodes == map[] && g.edges == [] && g.entryPoint == None && g.Valid()
    modifies g
    ensures g.nodes == NodeMap(profile, identify, generate, apply, summarize)
    ensures g.edges == EdgeList(loop, stop)
    ensures g.entryPoint == Some("profile")
    ensures g.Valid() && g.Validate().0
  {
    AddPipelineNodes(g, profile, identify, generate, apply, summarize);
    AddPipelineEdges(g, loop, stop);
    var ok := g.SetEntryPoint("profile");
  }

  /** The first three add_node calls of create_data_quality_pipeline. */
  method AddFrontNodes(g: Graph, profile: NodeFn, identify: NodeFn, generate: NodeFn)
    requires g.nodes == map[] && g.edges == [] && g.entryPoint == None && g.Valid()
    modifies g
    ensures g.nodes == map[
      "profile" := NodeDefinition("profile", profile, "Profile the dataset to understand its characteristics"),
      "identify_anomalies" := NodeDefinition("identify_anomalies", identify, "Identify data quality issues and anomalies"),
      "generate_rules" := NodeDefinition("generate_rules", generate, "Generate quality rules based on detected anomalies")]
    ensures g.edges == [] && g.entryPoint == Some("profile")
    ensures g.Valid()
  {
    var ok := g.AddNode("profile", profile, "Profile the dataset to understand its characteristics");
    assert "identify_anomalies" !in g.nodes;
    ok := g.AddNode("identify_anomalies", identify, "Identify data quality issues and anomalies");
    assert "generate_rules" !in g.nodes;
    ok := g.AddNode("generate_rules", generate, "Generate quality rules based on detected anomalies");
  }

  /** The add_node calls of create_data_quality_pipeline, for whichever
      functions the five nodes run. */
  method AddPipelineNodes(g: Graph, profile: NodeFn, identify: NodeFn, generate: NodeFn, apply: NodeFn, summarize: NodeFn)
    requires g.nodes == map[] && g.edges == [] && g.entryPoint == None && g.Valid()
    modifies g
    ensures g.nodes == NodeMap(profile, identify, generate, apply, summarize)
    ensures "profile" in g.nodes && "identify_anomalies" in g.nodes && "generate_rules" in g.nodes
    ensures "apply_rules" in g.nodes && "summarize" in g.nodes
    ensures g.edges == [] && g.entryPoint == Some("profile")
    ensures g.Valid()
  {
    AddFrontNodes(g, profile, identify, generate);
    assert "apply_rules" !in g.nodes;
    var ok := g.AddNode("apply_rules", apply, "Apply quality rules to fix issues");
    assert "summarize" !in g.nodes;
    ok := g.AddNode("summarize", summarize, "Summarize the results of the quality pipeline");
  }

  /** The add_edge calls of create_data_quality_pipeline, for whichever
      conditions guard the loop and the exit. */
  method AddPipelineEdges(g: Graph, loop: Condition, stop: Condition)
    requires g.edges == [] && g.Valid()
    requires "profile" in g.nodes && "identify_anomalies" in g.nodes && "generate_rules" in g.nodes
    requires "apply_rules" in g.nodes && "summarize" in g.nodes
    modifies g
    ensures g.edges == EdgeList(loop, stop)
    ensures g.nodes == old(g.nodes) && g.entryPoint == old(g.entryPoint)
    ensures g.Valid()
  {
    var ok := g.AddEdge("profile", "identify_anomalies", None, "Always proceed to anomaly detection");
    ok := g.AddEdge("identify_anomalies", "generate_rules", None, "Always proceed to rule generation");
    ok := g.AddEdge("generate_rules", "apply_rules", None, "Always proceed to rule application");
    ok := g.AddEdge("apply_rules", "profile", Some(loop), "Loop back if anomalies remain and not exceeded max iterations");
    ok := g.AddEdge("apply_rules", "summarize", Some(stop), "Proceed to summary when quality goals are met");
    AppendFive(EdgeDefinition("profile", "identify_anomalies", None, "Always proceed to anomaly detection"),
               EdgeDefinition("identify_anomalies", "generate_rules", None, "Always proceed to rule generation"),
               EdgeDefinition("generate_rules", "apply_rules", None, "Always proceed to rule application"),
               EdgeDefinition("apply_rules", "profile", Some(loop), "Loop back if anomalies remain and not exceeded max iterations"),
               EdgeDefinition("apply_rules", "summarize", Some(stop), "Proceed to summary when quality goals are met"));
  }

  /** Routing over a single edge. */
  lemma RouteOne(x: EdgeDefinition, c: string, s: State)
    ensures NextNodes([x], c, s) ==
              if x.fromNode != c then Ok([])
              else match Evaluate(x, s)
                   case CondTrue => Ok([x.toNode])
                   case CondFalse => Ok([])
                   case CondRaised(m) => Err(m)
  {
    assert [x][..0] == [];
    var none: seq<string> := [];
    assert none + [x.toNode] == [x.toNode];
  }

  /** Routing over the pipeline's edges, one edge at a time. */
  lemma PipelineRouteSplit(c: string, s: State)
    ensures var e := PipelineEdges();
            NextNodes(e, c, s) ==
              Concat(Concat(Concat(Concat(NextNodes([e[0]], c, s), NextNodes([e[1]], c, s)),
                                   NextNodes([e[2]], c, s)), NextNodes([e[3]], c, s)), NextNodes([e[4]], c, s))
  {
    var e := PipelineEdges();
    var p2 := [e[0]] + [e[1]];
    var p3 := p2 + [e[2]];
    var p4 := p3 + [e[3]];
    assert e == p4 + [e[4]];
    NextNodesAppend([e[0]], [e[1]], c, s);
    NextNodesAppend(p2, [e[2]], c, s);
    NextNodesAppend(p3, [e[3]], c, s);
    NextNodesAppend(p4, [e[4]], c, s);
  }

  /** The routing results of the five edges for one current node. */
  lemma RouteEach(c: string, s: State) returns (n0: Result<seq<string>>, n1: Result<seq<string>>, n2: Result<seq<string>>,
                                                 n3: Result<seq<string>>, n4: Result<seq<string>>)
    ensures NextNodes(PipelineEdges(), c, s) == Concat(Concat(Concat(Concat(n0, n1), n2), n3), n4)
    ensures n0 == if c == "profile" then Ok(["identify_anomalies"]) else Ok([])
    ensures n1 == if c == "identify_anomalies" then Ok(["generate_rules"]) else Ok([])
    ensures n2 == if c == "generate_rules" then Ok(["apply_rules"]) else Ok([])
    ensures n3 == if c != "apply_rules" then Ok([])
                  else match ShouldLoop(s) case CondTrue => Ok(["profile"]) case CondFalse => Ok([]) case CondRaised(m) => Err(m)
    ensures n4 == if c != "apply_rules" then Ok([])
                  else match ShouldStop(s) case CondTrue => Ok(["summarize"]) case CondFalse => Ok([]) case CondRaised(m) => Err(m)
  {
    var e := PipelineEdges();
    PipelineRouteSplit(c, s);
    RouteOne(e[0], c, s);
    RouteOne(e[1], c, s);
    RouteOne(e[2], c, s);
    RouteOne(e[3], c, s);
    RouteOne(e[4], c, s);
    n0, n1, n2, n3, n4 := NextNodes([e[0]], c, s), NextNodes([e[1]], c, s), NextNodes([e[2]], c, s),
                          NextNodes([e[3]], c, s), NextNodes([e[4]], c, s);
  }

  /** The unconditional part of the pipeline's routing. */
  lemma RouteStraight(s: State)
    ensures NextNodes(PipelineEdges(), "profile", s) == Ok(["identify_anomalies"])
    ensures NextNodes(PipelineEdges(), "identify_anomalies", s) == Ok(["generate_rules"])
    ensures NextNodes(PipelineEdges(), "generate_rules", s) == Ok(["apply_rules"])
  {
    var nothing: Result<seq<string>> := Ok([]);
    ConcatNothing(nothing);
    ConcatNothing(Ok(["identify_anomalies"]));
    ConcatNothing(Ok(["generate_rules"]));
    ConcatNothing(Ok(["apply_rules"]));
    var _, _, _, _, _ := RouteEach("profile", s);
    var _, _, _, _, _ := RouteEach("identify_anomalies", s);
    var _, _, _, _, _ := RouteEach("generate_rules", s);
  }

  /** The guarded part of the pipeline's routing, and the end of the walk. */
  lemma RouteGuarded(s: State)
    ensures NextNodes(PipelineEdges(), "summarize", s) == Ok([])
    ensures NextNodes(PipelineEdges(), "apply_rules", s) ==
              match ShouldLoop(s)
              case CondTrue => Ok(["profile"])
              case CondFalse => Ok(["summarize"])
              case CondRaised(m) => Err(m)
  {
    var nothing: Result<seq<string>> := Ok([]);
    ConcatNothing(nothing);
    ConcatNothing(Ok(["profile"]));
    ConcatNothing(Ok(["summarize"]));
    var _, _, _, _, _ := RouteEach("summarize", s);
    var _, _, _, _, _ := RouteEach("apply_rules", s);
  }

  /** Where each node of the pipeline routes to: profile, identify_anomalies
      and generate_rules go straight on, summarize ends the walk, and
      apply_rules loops back or exits as should_loop says. */
  lemma PipelineRouting(s: State)
    ensures NextNodes(PipelineEdges(), "profile", s) == Ok(["identify_anomalies"])
    ensures NextNodes(PipelineEdges(), "identify_anomalies", s) == Ok(["generate_rules"])
    ensures NextNodes(PipelineEdges(), "generate_rules", s) == Ok(["apply_rules"])
    ensures NextNodes(PipelineEdges(), "summarize", s) == Ok([])
    ensures NextNodes(PipelineEdges(), "apply_rules", s) ==
              match ShouldLoop(s)
              case CondTrue => Ok(["profile"])
              case CondFalse => Ok(["summarize"])
              case CondRaised(m) => Err(m)
  {
    RouteStraight(s);
    RouteGuarded(s);
  }

  /** The two guarded edges out of apply_rules: unless should_loop raises,
      exactly one of them is taken. */
  lemma ExitComplementsLoop(s: State)
    ensures var e := PipelineEdges();
            !ShouldLoop(s).CondRaised? ==>
              (Qualifies(e[3], "apply_rules", s) <==> !Qualifies(e[4], "apply_rules", s))
    ensures var e := PipelineEdges();
            ShouldLoop(s).CondRaised? ==> RaisesOn(e[3], "apply_rules", s) && RaisesOn(e[4], "apply_rules", s)
  {
  }

  // ---------------------------------------------------------------------
  // A run of the pipeline stops after at most five rounds
  // ---------------------------------------------------------------------

  /** The nodes one round of the loop visits. */
  const Round: seq<string> := ["profile", "identify_anomalies", "generate_rules", "apply_rules"]

  function Rounds(r: nat): (visits: seq<string>)
    ensures |visits| == 4 * r
  {
    if r == 0 then [] else Round + Rounds(r - 1)
  }

  /** identify_anomalies can run: the profile holds numeric counts. */
  predicate ProfileReady(s: State)
  {
    var profile := Get(s, "profile", VDict(map[]));
    && profile.VDict?
    && AsInt(Get(profile.entries, "null_count", VInt(0))).Some?
    && AsInt(Get(profile.entries, "record_count", VInt(1))).Some?
  }

  /** The part of the state a round relies on: the data and the counter. */
  predicate Carries(s: State, j: int)
  {
    DataOk(s) && Get(s, "iteration", VInt(0)) == VInt(j)
  }

  /** After identify_anomalies: k anomalies, each with a type. */
  predicate Identified(s: State, j: int, k: nat)
  {
    && Carries(s, j)
    && Get(s, "anomaly_count", VInt(0)) == VInt(k)
    && Get(s, "anomalies", VList([])).VList?
    && (forall i :: 0 <= i < |Get(s, "anomalies", VList([])).items| ==> HasType(Get(s, "anomalies", VList([])).items[i]))
  }

  /** After generate_rules (and still after apply_rules): the rules are a list. */
  predicate RulesReady(s: State, j: int, k: nat)
  {
    Carries(s, j) && Get(s, "anomaly_count", VInt(0)) == VInt(k) && Get(s, "rules", VList([])).VList?
  }

  /** The iteration count summarize_results recorded, VNone before it has run. */
  function SummaryTotal(s: State): Value
  {
    if "summary" in s && s["summary"].VDict? then Get(s["summary"].entries, "total_iterations", VNone) else VNone
  }

  /** The node functions of the pipeline, whatever else the node map holds. */
  ghost predicate IsPipeline(nodes: map<string, NodeDefinition>, draw: State -> Draw, coin: (State, nat) -> bool)
  {
    && "profile" in nodes && nodes["profile"].func == ProfileData
    && "identify_anomalies" in nodes && nodes["identify_anomalies"].func == IdentifyStep(draw)
    && "generate_rules" in nodes && nodes["generate_rules"].func == GenerateRules
    && "apply_rules" in nodes && nodes["apply_rules"].func == ApplyStep(coin)
    && "summarize" in nodes && nodes["summarize"].func == SummarizeResults
  }

  lemma PipelineNodesArePipeline(draw: State -> Draw, coin: (State, nat) -> bool)
    ensures IsPipeline(PipelineNodes(draw, coin), draw, coin)
  {
  }

  lemma ProfileKeeps(s: State, j: int)
    requires DataOk(s) && Iteration(s) == Some(j)
    ensures ProfileData(s).NodeReturned?
    ensures var s' := Merge(s, ProfileData(s).value); Carries(s', j + 1) && ProfileReady(s')
  {
    var out := ProfileData(s).value.entries;
    assert "data" !in out && "profile" in out && "iteration" in out;
    var profile := out["profile"];
    var nulls: nat :| Get(profile.entries, "null_count", VNone) == VInt(nulls);
    assert Get(profile.entries, "null_count", VInt(0)) == VInt(nulls);
    assert Get(profile.entries, "record_count", VInt(1)) == VInt(|Get(s, "data", VDict(map[])).entries|);
    var s' := Merge(s, ProfileData(s).value);
    assert Get(s', "data", VDict(map[])) == Get(s, "data", VDict(map[]));
    assert Get(s', "iteration", VInt(0)) == VInt(j + 1) && Get(s', "profile", VDict(map[])) == profile;
  }

  lemma IdentifyKeeps(draw: State -> Draw, s: State, j: int) returns (k: nat)
    requires Carries(s, j) && ProfileReady(s)
    ensures IdentifyAnomalies(draw, s).NodeReturned?
    ensures Identified(Merge(s, IdentifyAnomalies(draw, s).value), j, k)
  {
    var out := IdentifyAnomalies(draw, s).value.entries;
    assert "data" !in out && "iteration" !in out && "anomalies" in out && "anomaly_count" in out;
    k := |out["anomalies"].items|;
  }

  lemma GenerateKeeps(s: State, j: int, k: nat)
    requires Identified(s, j, k)
    ensures GenerateRules(s).NodeReturned?
    ensures RulesReady(Merge(s, GenerateRules(s).value), j, k)
  {
    RulesForShape(Get(s, "anomalies", VList([])).items);
    var out := GenerateRules(s).value.entries;
    assert "data" !in out && "iteration" !in out && "anomaly_count" !in out && "rules" in out;
  }

  lemma ApplyKeeps(coin: (State, nat) -> bool, s: State, j: int, k: nat)
    requires RulesReady(s, j, k)
    ensures ApplyRules(coin, s).NodeReturned?
    ensures var s' := Merge(s, ApplyRules(coin, s).value);
            Carries(s', j) && ShouldLoop(s') == if k > 1 && j < 5 then CondTrue else CondFalse
  {
    var out := ApplyRules(coin, s).value.entries;
    var s' := Merge(s, ApplyRules(coin, s).value);
    assert "data" !in out && "iteration" !in out && "anomaly_count" !in out;
    assert Get(s', "iteration", VInt(0)) == Get(s, "iteration", VInt(0));
    assert Get(s', "anomaly_count", VInt(0)) == Get(s, "anomaly_count", VInt(0));
  }

  /** How the pipeline's edges route, as PipelineRouting states it, for
      whichever edge list does so. */
  ghost predicate RoutesAsPipeline(edges: seq<EdgeDefinition>)
  {
    forall s: State ::
      && NextNodes(edges, "profile", s) == Ok(["identify_anomalies"])
      && NextNodes(edges, "identify_anomalies", s) == Ok(["generate_rules"])
      && NextNodes(edges, "generate_rules", s) == Ok(["apply_rules"])
      && NextNodes(edges, "summarize", s) == Ok([])
      && NextNodes(edges, "apply_rules", s) ==
           match ShouldLoop(s)
           case CondTrue => Ok(["profile"])
           case CondFalse => Ok(["summarize"])
           case CondRaised(m) => Err(m)
  }

  lemma PipelineEdgesRoute()
    ensures RoutesAsPipeline(PipelineEdges())
  {
    forall s: State {
      PipelineRouting(s);
    }
  }

  /** One step of the walk that returned and moved on to `next`, as the main
      loop sees it: it carries on from `l'`. */
  predicate Moved(nodes: map<string, NodeDefinition>, edges: seq<EdgeDefinition>, l: Loop, l': Loop, name: string, next: Option<string>)
  {
    && l.iteration < MaxIterations
    && RunLoop(nodes, edges, l, MaxIterations) == RunLoop(nodes, edges, l', MaxIterations)
    && l'.current == next && l'.visited == l.visited + [name] && l'.iteration == l.iteration + 1
  }

  lemma StepProfile(nodes: map<string, NodeDefinition>, edges: seq<EdgeDefinition>, draw: State -> Draw, coin: (State, nat) -> bool, l: Loop, j: int)
    returns (l': Loop)
    requires IsPipeline(nodes, draw, coin) && RoutesAsPipeline(edges) && l.iteration < MaxIterations
    requires l.current == Some("profile") && DataOk(l.state) && Iteration(l.state) == Some(j)
    ensures Moved(nodes, edges, l, l', "profile", Some("identify_anomalies"))
    ensures Carries(l'.state, j + 1) && ProfileReady(l'.state)
  {
    ProfileKeeps(l.state, j);
    StepForward(nodes, edges, l, ProfileData(l.state).value, Some("identify_anomalies"));
    RunLoopForward(nodes, edges, l, MaxIterations);
    l' := Step(nodes, edges, l).at;
  }

  lemma StepIdentify(nodes: map<string, NodeDefinition>, edges: seq<EdgeDefinition>, draw: State -> Draw, coin: (State, nat) -> bool, l: Loop, j: int)
    returns (l': Loop, k: nat)
    requires IsPipeline(nodes, draw, coin) && RoutesAsPipeline(edges) && l.iteration < MaxIterations
    requires l.current == Some("identify_anomalies") && Carries(l.state, j) && ProfileReady(l.state)
    ensures Moved(nodes, edges, l, l', "identify_anomalies", Some("generate_rules"))
    ensures Identified(l'.state, j, k)
  {
    assert nodes["identify_anomalies"].func(l.state) == IdentifyAnomalies(draw, l.state);
    k := IdentifyKeeps(draw, l.state, j);
    StepForward(nodes, edges, l, IdentifyAnomalies(draw, l.state).value, Some("generate_rules"));
    RunLoopForward(nodes, edges, l, MaxIterations);
    l' := Step(nodes, edges, l).at;
  }

  lemma StepGenerate(nodes: map<string, NodeDefinition>, edges: seq<EdgeDefinition>, draw: State -> Draw, coin: (State, nat) -> bool, l: Loop, j: int, k: nat)
    returns (l': Loop)
    requires IsPipeline(nodes, draw, coin) && RoutesAsPipeline(edges) && l.iteration < MaxIterations
    requires l.current == Some("generate_rules") && Identified(l.state, j, k)
    ensures Moved(nodes, edges, l, l', "generate_rules", Some("apply_rules"))
    ensures RulesReady(l'.state, j, k)
  {
    GenerateKeeps(l.state, j, k);
    StepForward(nodes, edges, l, GenerateRules(l.state).value, Some("apply_rules"));
    RunLoopForward(nodes, edges, l, MaxIterations);
    l' := Step(nodes, edges, l).at;
  }

  lemma StepApply(nodes: map<string, NodeDefinition>, edges: seq<EdgeDefinition>, draw: State -> Draw, coin: (State, nat) -> bool, l: Loop, j: int, k: nat)
    returns (l': Loop)
    requires IsPipeline(nodes, draw, coin) && RoutesAsPipeline(edges) && l.iteration < MaxIterations
    requires l.current == Some("apply_rules") && RulesReady(l.state, j, k)
    ensures Moved(nodes, edges, l, l', "apply_rules", if k > 1 && j < 5 then Some("profile") else Some("summarize"))
    ensures Carries(l'.state, j)
  {
    assert nodes["apply_rules"].func(l.state) == ApplyRules(coin, l.state);
    ApplyKeeps(coin, l.state, j, k);
    StepForward(nodes, edges, l, ApplyRules(coin, l.state).value, if k > 1 && j < 5 then Some("profile") else Some("summarize"));
    RunLoopForward(nodes, edges, l, MaxIterations);
    l' := Step(nodes, edges, l).at;
  }

  lemma StepSummarize(nodes: map<string, NodeDefinition>, edges: seq<EdgeDefinition>, draw: State -> Draw, coin: (State, nat) -> bool, l: Loop, j: int)
    returns (l': Loop)
    requires IsPipeline(nodes, draw, coin) && RoutesAsPipeline(edges) && l.iteration < MaxIterations
    requires l.current == Some("summarize") && Carries(l.state, j)
    ensures Moved(nodes, edges, l, l', "summarize", None)
    ensures SummaryTotal(l'.state) == VInt(j)
  {
    StepForward(nodes, edges, l, SummarizeResults(l.state).value, None);
    RunLoopForward(nodes, edges, l, MaxIterations);
    l' := Step(nodes, edges, l).at;
  }

  /** One round, profile through apply_rules, as four steps of the walk. */
  lemma StepRound(nodes: map<string, NodeDefinition>, edges: seq<EdgeDefinition>, draw: State -> Draw, coin: (State, nat) -> bool, l: Loop, j: int)
    returns (l4: Loop, k: nat)
    requires IsPipeline(nodes, draw, coin) && RoutesAsPipeline(edges)
    requires l.current == Some("profile") && DataOk(l.state) && Iteration(l.state) == Some(j)
    requires l.iteration + 4 < MaxIterations
    ensures RunLoop(nodes, edges, l, MaxIterations) == RunLoop(nodes, edges, l4, MaxIterations)
    ensures l4.visited == l.visited + Round && l4.iteration == l.iteration + 4
    ensures l4.current == if k > 1 && j + 1 < 5 then Some("profile") else Some("summarize")
    ensures Carries(l4.state, j + 1)
  {
    var l1 := StepProfile(nodes, edges, draw, coin, l, j);
    var l2;
    l2, k := StepIdentify(nodes, edges, draw, coin, l1, j + 1);
    var l3 := StepGenerate(nodes, edges, draw, coin, l2, j + 1, k);
    l4 := StepApply(nodes, edges, draw, coin, l3, j + 1, k);
    AppendFour(l.visited, "profile", "identify_anomalies", "generate_rules", "apply_rules");
  }

  /** summarize is the last step of the walk. */
  lemma SummarizeEnds(nodes: map<string, NodeDefinition>, edges: seq<EdgeDefinition>, draw: State -> Draw, coin: (State, nat) -> bool, l: Loop, j: int)
    returns (l5: Loop)
    requires IsPipeline(nodes, draw, coin) && RoutesAsPipeline(edges)
    requires l.current == Some("summarize") && Carries(l.state, j) && l.iteration + 1 < MaxIterations
    ensures RunLoop(nodes, edges, l, MaxIterations) == Walking(l5)
    ensures l5.current == None && l5.visited == l.visited + ["summarize"] && l5.iteration == l.iteration + 1
    ensures SummaryTotal(l5.state) == VInt(j)
  {
    l5 := StepSummarize(nodes, edges, draw, coin, l, j);
  }

  lemma StepBudget(iteration: int, j: int)
    requires iteration + 4 * (5 - j) + 1 < MaxIterations && j < 5
    ensures iteration + 4 + 1 < MaxIterations
  {
  }

  lemma VisitsCompose(before: seq<string>, r: nat)
    ensures before + Round + Rounds(r) + ["summarize"] == before + Rounds(r + 1) + ["summarize"]
  {
    assert Rounds(r + 1) == Round + Rounds(r);
  }

  lemma LastRound(before: seq<string>)
    ensures before + Round + ["summarize"] == before + Rounds(1) + ["summarize"]
  {
    assert Rounds(1) == Round + [];
    AppendAssoc(before, Round, []);
  }

  /** A walk that takes one more round in front of a walk of `more` rounds
      makes more + 1 rounds. */
  lemma OneMoreRound(nodes: map<string, NodeDefinition>, edges: seq<EdgeDefinition>, l: Loop, l4: Loop, last: Loop, more: nat, j: int)
    returns (r: nat)
    requires l4.visited == l.visited + Round && l4.iteration == l.iteration + 4
    requires RunLoop(nodes, edges, l, MaxIterations) == RunLoop(nodes, edges, l4, MaxIterations)
    requires RunLoop(nodes, edges, l4, MaxIterations) == Walking(last)
    requires last.visited == l4.visited + Rounds(more) + ["summarize"]
    requires last.iteration == l4.iteration + 4 * more + 1
    requires SummaryTotal(last.state) == VInt(j + 1 + more)
    requires 1 <= more <= 5 - (j + 1)
    ensures RunLoop(nodes, edges, l, MaxIterations) == Walking(last)
    ensures 1 <= r <= 5 - j
    ensures last.visited == l.visited + Rounds(r) + ["summarize"]
    ensures last.iteration == l.iteration + 4 * r + 1
    ensures SummaryTotal(last.state) == VInt(j + r)
  {
    r := more + 1;
    VisitsCompose(l.visited, more);
  }

  /** The round that is followed by summarize. */
  lemma FinalRound(nodes: map<string, NodeDefinition>, edges: seq<EdgeDefinition>, draw: State -> Draw, coin: (State, nat) -> bool, l: Loop, l4: Loop, j: int)
    returns (last: Loop, r: nat)
    requires IsPipeline(nodes, draw, coin) && RoutesAsPipeline(edges)
    requires l4.visited == l.visited + Round && l4.iteration == l.iteration + 4
    requires RunLoop(nodes, edges, l, MaxIterations) == RunLoop(nodes, edges, l4, MaxIterations)
    requires l4.current == Some("summarize") && Carries(l4.state, j + 1)
    requires l.iteration + 4 * (5 - j) + 1 < MaxIterations && 0 <= j < 5
    ensures RunLoop(nodes, edges, l, MaxIterations) == Walking(last)
    ensures 1 <= r <= 5 - j
    ensures last.visited == l.visited + Rounds(r) + ["summarize"]
    ensures last.iteration == l.iteration + 4 * r + 1
    ensures SummaryTotal(last.state) == VInt(j + r)
  {
    StepBudget(l.iteration, j);
    last := SummarizeEnds(nodes, edges, draw, coin, l4, j + 1);
    LastRound(l.visited);
    r := 1;
  }

  /** From the start of round j (counting from 0), the walk ends at summarize
      within 5 - j more rounds, well below the iteration limit. */
  lemma {:induction false} RoundsFrom(nodes: map<string, NodeDefinition>, edges: seq<EdgeDefinition>, draw: State -> Draw, coin: (State, nat) -> bool, l: Loop, j: int)
    returns (last: Loop, r: nat)
    requires IsPipeline(nodes, draw, coin) && RoutesAsPipeline(edges)
    requires l.current == Some("profile")
    requires DataOk(l.state) && Iteration(l.state) == Some(j) && 0 <= j < 5
    requires l.iteration + 4 * (5 - j) + 1 < MaxIterations
    ensures RunLoop(nodes, edges, l, MaxIterations) == Walking(last)
    ensures 1 <= r <= 5 - j
    ensures last.visited == l.visited + Rounds(r) + ["summarize"]
    ensures last.iteration == l.iteration + 4 * r + 1
    ensures SummaryTotal(last.state) == VInt(j + r)
    decreases 5 - j
  {
    var l4, k := StepRound(nodes, edges, draw, coin, l, j);
    if k > 1 && j + 1 < 5 {
      var more;
      last, more := RoundsFrom(nodes, edges, draw, coin, l4, j + 1);
      r := OneMoreRound(nodes, edges, l, l4, last, more, j);
    } else {
      last, r := FinalRound(nodes, edges, draw, coin, l, l4, j);
    }
  }

  /** The walk of any node map holding the pipeline's functions, from its
      entry point: it stops below the limit after r rounds and summarize. */
  lemma PipelineWalk(nodes: map<string, NodeDefinition>, edges: seq<EdgeDefinition>, draw: State -> Draw, coin: (State, nat) -> bool, init: State, j: int)
    returns (last: Loop, r: nat)
    requires IsPipeline(nodes, draw, coin) && RoutesAsPipeline(edges)
    requires DataOk(init) && Iteration(init) == Some(j) && 0 <= j < 5
    ensures RunLoop(nodes, edges, Loop(init, [], [], Some("profile"), 0), MaxIterations) == Walking(last)
    ensures last.iteration < MaxIterations
    ensures 1 <= r <= 5 - j && last.visited == Rounds(r) + ["summarize"] && SummaryTotal(last.state) == VInt(j + r)
  {
    var start := Loop(init, [], [], Some("profile"), 0);
    last, r := RoundsFrom(nodes, edges, draw, coin, start, j);
    AppendAssoc([], Rounds(r), ["summarize"]);
  }

  /**
   * A run of the pipeline from a state whose "data" is a dictionary (or
   * absent) and whose counter starts at some 0 <= j < 5 always completes: it makes
   * between one and 5 - j rounds, then runs summarize and stops, with a
   * summary recording the final counter.
   */
  lemma PipelineCompletes(draw: State -> Draw, coin: (State, nat) -> bool, init: State, j: int)
    requires DataOk(init) && Iteration(init) == Some(j) && 0 <= j < 5
    ensures var e := ExecuteSpec(PipelineNodes(draw, coin), PipelineEdges(), "profile", init, None);
            && e.raised.None?
            && e.record.status == Completed
            && e.record.error.None?
            && exists r: nat ::
                 && 1 <= r <= 5 - j
                 && e.record.visited == Rounds(r) + ["summarize"]
                 && SummaryTotal(e.record.state) == VInt(j + r)
  {
    PipelineNodesArePipeline(draw, coin);
    PipelineEdgesRoute();
    var last, r := PipelineWalk(PipelineNodes(draw, coin), PipelineEdges(), draw, coin, init, j);
    WalkCompletes(PipelineNodes(draw, coin), PipelineEdges(), "profile", init, last);
  }
}
