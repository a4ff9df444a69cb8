/** Plan construction and validation: dependencies point backwards, and each phase is a barrier for the next. */
module Plan {
  import opened Workflow

  datatype AnalysisMode = Fast | Standard | Deep

  datatype PlanError = BadPhase(key: string) | BadNode(key: string)

  const ANALYST_ROLES := [
    "market_analyst", "sentiment_analyst", "news_analyst", "fundamentals_analyst", "policy_analyst",
    "capital_flow_analyst", "lockup_supply_analyst"]
  const RISK_ROLES := ["aggressive_risk_agent", "neutral_risk_agent", "conservative_risk_agent"]
  const DEBATE_NODES := ["bull_round_1", "bear_round_1", "bull_round_2", "bear_round_2", "claim_resolver"]

  // ----- what validation asks for -----

  function Flatten(phases: seq<PhaseSpec>): seq<NodeSpec> {
    if phases == [] then [] else Flatten(phases[..|phases| - 1]) + phases[|phases| - 1].nodes
  }

  predicate Among(nodes: seq<NodeSpec>, key: string) {
    exists i :: 0 <= i < |nodes| && nodes[i].key == key
  }

  predicate NodeFits(before: seq<NodeSpec>, node: NodeSpec) {
    !Among(before, node.key) && forall d :: d in node.dependencies ==> Among(before, d)
  }

  /** Node keys are distinct and every dependency names an earlier node. */
  predicate Topological(nodes: seq<NodeSpec>) {
    forall i :: 0 <= i < |nodes| ==> NodeFits(nodes[..i], nodes[i])
  }

  predicate PhaseAmong(phases: seq<PhaseSpec>, key: string) {
    exists i :: 0 <= i < |phases| && phases[i].key == key
  }

  predicate PhaseFits(before: seq<PhaseSpec>, phase: PhaseSpec) {
    !PhaseAmong(before, phase.key) && forall d :: d in phase.dependencies ==> PhaseAmong(before, d)
  }

  predicate WellFormed(phases: seq<PhaseSpec>) {
    (forall i :: 0 <= i < |phases| ==> PhaseFits(phases[..i], phases[i])) && Topological(Flatten(phases))
  }

  lemma {:induction false} TopologicalPrefix(nodes: seq<NodeSpec>, k: nat)
    requires Topological(nodes) && k <= |nodes|
    ensures Topological(nodes[..k])
  {
    forall i | 0 <= i < k
      ensures NodeFits(nodes[..k][..i], nodes[..k][i])
    {
      assert nodes[..k][..i] == nodes[..i];
    }
  }

  lemma {:induction false} TopologicalExtend(nodes: seq<NodeSpec>, node: NodeSpec)
    ensures Topological(nodes + [node]) <==> Topological(nodes) && NodeFits(nodes, node)
  {
    assert (nodes + [node])[..|nodes|] == nodes;
    if Topological(nodes + [node]) {
      TopologicalPrefix(nodes + [node], |nodes|);
      assert NodeFits((nodes + [node])[..|nodes|], (nodes + [node])[|nodes|]);
    }
    if Topological(nodes) && NodeFits(nodes, node) {
      forall i | 0 <= i < |nodes| + 1
        ensures NodeFits((nodes + [node])[..i], (nodes + [node])[i])
      {
        if i < |nodes| {
          assert (nodes + [node])[..i] == nodes[..i];
        }
      }
    }
  }

  lemma {:induction false} FlattenExtend(phases: seq<PhaseSpec>, i: nat)
    requires i < |phases|
    ensures Flatten(phases[..i + 1]) == Flatten(phases[..i]) + phases[i].nodes
  {
    assert phases[..i + 1][..i] == phases[..i];
  }

  lemma {:induction false} WellFormedPrefix(phases: seq<PhaseSpec>, i: nat)
    requires WellFormed(phases) && i <= |phases|
    ensures WellFormed(phases[..i])
    decreases |phases| - i
  {
    if i == |phases| {
      assert phases[..i] == phases;
    } else {
      WellFormedPrefix(phases, i + 1);
      FlattenExtend(phases, i);
      TopologicalPrefix(Flatten(phases[..i + 1]), |Flatten(phases[..i])|);
      assert Flatten(phases[..i + 1])[..|Flatten(phases[..i])|] == Flatten(phases[..i]);
      forall j | 0 <= j < i
        ensures PhaseFits(phases[..i][..j], phases[..i][j])
      {
        assert phases[..i][..j] == phases[..j];
      }
    }
  }

  /** `WorkflowPlan.validate`: accepts exactly the well-formed plans, and otherwise names the first offender. */
  method Validate(phases: seq<PhaseSpec>) returns (error: Option<PlanError>)
    ensures error.None? <==> WellFormed(phases)
    ensures error.Some? && error.value.BadPhase? ==>
              exists i :: 0 <= i < |phases| && phases[i].key == error.value.key
                          && WellFormed(phases[..i]) && !PhaseFits(phases[..i], phases[i])
    ensures error.Some? && error.value.BadNode? ==>
              exists i :: 0 <= i < |phases| && WellFormed(phases[..i]) && PhaseFits(phases[..i], phases[i])
                          && FirstMisfit(Flatten(phases[..i]), phases[i].nodes, error.value.key)
  {
    var phasesSeen: set<string> := {};
    var nodesSeen: set<string> := {};
    assert phases[..0] == [];
    for i := 0 to |phases|
      invariant WellFormed(phases[..i])
      invariant forall k :: k in phasesSeen <==> PhaseAmong(phases[..i], k)
      invariant forall k :: k in nodesSeen <==> Among(Flatten(phases[..i]), k)
    {
      var phase := phases[i];
      if phase.key in phasesSeen || exists d :: d in phase.dependencies && d !in phasesSeen {
        error := Some(BadPhase(phase.key));
        assert !PhaseFits(phases[..i], phase);
        return;
      }
      phasesSeen := phasesSeen + {phase.key};
      FlattenExtend(phases, i);
      error, nodesSeen := ValidateNodes(nodesSeen, phase.nodes, Flatten(phases[..i]));
      if error.Some? {
        if WellFormed(phases) {
          WellFormedPrefix(phases, i + 1);
        }
        return;
      }
      PhaseAdded(phases, i, phasesSeen - {phase.key}, phasesSeen);
    }
    assert phases[..|phases|] == phases;
    error := None;
  }

  /** `key` names the first of `nodes` that does not fit behind `earlier`. */
  predicate FirstMisfit(earlier: seq<NodeSpec>, nodes: seq<NodeSpec>, key: string) {
    exists j :: 0 <= j < |nodes| && nodes[j].key == key
                && Topological(earlier + nodes[..j]) && !NodeFits(earlier + nodes[..j], nodes[j])
  }

  method ValidateNodes(seen: set<string>, nodes: seq<NodeSpec>, ghost earlier: seq<NodeSpec>)
      returns (error: Option<PlanError>, nodesSeen: set<string>)
    requires Topological(earlier) && forall k :: k in seen <==> Among(earlier, k)
    ensures error.None? <==> Topological(earlier + nodes)
    ensures error.None? ==> forall k :: k in nodesSeen <==> Among(earlier + nodes, k)
    ensures error.Some? ==> error.value.BadNode? && FirstMisfit(earlier, nodes, error.value.key)
  {
    nodesSeen := seen;
    assert earlier + nodes[..0] == earlier;
    for j := 0 to |nodes|
      invariant Topological(earlier + nodes[..j])
      invariant forall k :: k in nodesSeen <==> Among(earlier + nodes[..j], k)
    {
      var node := nodes[j];
      ghost var before := earlier + nodes[..j];
      assert earlier + nodes[..j + 1] == before + [node];
      TopologicalExtend(before, node);
      if node.key in nodesSeen || exists d :: d in node.dependencies && d !in nodesSeen {
        error := Some(BadNode(node.key));
        assert !NodeFits(before, node);
        assert (earlier + nodes)[..|before| + 1] == before + [node];
        if Topological(earlier + nodes) {
          TopologicalPrefix(earlier + nodes, |before| + 1);
        }
        return;
      }
      nodesSeen := nodesSeen + {node.key};
      forall k
        ensures Among(before + [node], k) <==> Among(before, k) || k == node.key
      {
        AmongAppend(before, node, k);
      }
    }
    assert nodes[..|nodes|] == nodes;
    error := None;
  }

  lemma {:induction false} AmongAppend(nodes: seq<NodeSpec>, node: NodeSpec, key: string)
    ensures Among(nodes + [node], key) <==> Among(nodes, key) || key == node.key
  {
    assert (nodes + [node])[|nodes|] == node;
    if Among(nodes, key) {
      var at :| 0 <= at < |nodes| && nodes[at].key == key;
      assert (nodes + [node])[at].key == key;
    }
  }

  lemma {:induction false} PhaseAdded(phases: seq<PhaseSpec>, i: nat, before: set<string>, after: set<string>)
    requires i < |phases| && WellFormed(phases[..i]) && PhaseFits(phases[..i], phases[i])
    requires Topological(Flatten(phases[..i + 1]))
    requires after == before + {phases[i].key} && forall k :: k in before <==> PhaseAmong(phases[..i], k)
    ensures WellFormed(phases[..i + 1]) && forall k :: k in after <==> PhaseAmong(phases[..i + 1], k)
  {
    var grown := phases[..i + 1];
    assert grown == phases[..i] + [phases[i]];
    forall k
      ensures k in after <==> PhaseAmong(grown, k)
    {
      if k == phases[i].key {
        assert grown[i].key == k;
      } else if PhaseAmong(phases[..i], k) {
        var at :| 0 <= at < i && phases[..i][at].key == k;
        assert grown[at].key == k;
      }
    }
    forall j | 0 <= j < i + 1
      ensures PhaseFits(grown[..j], grown[j])
    {
      assert grown[..j] == phases[..j];
      if j < i {
        assert phases[..i][..j] == phases[..j];
      }
    }
  }

  // ----- dependencies -----

  predicate DependsOn(nodes: seq<NodeSpec>, i: nat, j: nat)
    requires i < |nodes| && j < |nodes|
  {
    nodes[j].key in nodes[i].dependencies
  }

  /** Node i depends on node j, directly or through other nodes. */
  predicate Reaches(nodes: seq<NodeSpec>, i: nat, j: nat)
    requires i < |nodes| && j < |nodes|
    decreases i
  {
    j < i && (DependsOn(nodes, i, j) || exists m :: j < m < i && DependsOn(nodes, i, m) && Reaches(nodes, m, j))
  }

  lemma {:induction false} KeysAreDistinct(nodes: seq<NodeSpec>, i: nat, j: nat)
    requires Topological(nodes) && i < j < |nodes|
    ensures nodes[i].key != nodes[j].key
  {
    assert NodeFits(nodes[..j], nodes[j]);
    assert nodes[..j][i] == nodes[i];
  }

  /** In a plan that validates, dependencies lead backwards only, so the relation has no cycle. */
  lemma {:induction false} DependencyIsEarlier(nodes: seq<NodeSpec>, i: nat, j: nat)
    requires Topological(nodes) && i < |nodes| && j < |nodes| && DependsOn(nodes, i, j)
    ensures j < i
  {
    assert NodeFits(nodes[..i], nodes[i]);
    var at :| 0 <= at < i && nodes[..i][at].key == nodes[j].key;
    if i <= j {
      KeysAreDistinct(nodes, at, j);
    }
  }

  lemma {:induction false} ReachesTransitive(nodes: seq<NodeSpec>, i: nat, m: nat, j: nat)
    requires i < |nodes| && m < |nodes| && j < |nodes| && Reaches(nodes, i, m) && Reaches(nodes, m, j)
    ensures Reaches(nodes, i, j)
    decreases i
  {
    if !DependsOn(nodes, i, m) {
      var k :| m < k < i && DependsOn(nodes, i, k) && Reaches(nodes, k, m);
      ReachesTransitive(nodes, k, m, j);
    }
  }

  /** Growing the plan does not change what an earlier node reaches. */
  lemma {:induction false} ReachesPrefix(nodes: seq<NodeSpec>, more: seq<NodeSpec>, i: nat, j: nat)
    requires i < |nodes| && j < |nodes|
    ensures Reaches(nodes + more, i, j) <==> Reaches(nodes, i, j)
    decreases i
  {
    forall m | j < m < i
      ensures Reaches(nodes + more, m, j) <==> Reaches(nodes, m, j)
    {
      ReachesPrefix(nodes, more, m, j);
    }
    assert DependsOn(nodes + more, i, j) <==> DependsOn(nodes, i, j);
    assert forall m :: 0 <= m < |nodes| ==> (DependsOn(nodes + more, i, m) <==> DependsOn(nodes, i, m));
  }

  // ----- construction -----

  function Agent(key: string, dependencies: seq<string>, optional: bool): NodeSpec {
    NodeSpec(key, if optional then Optional else Important, true, true, DEFAULT_NODE_MAX_ATTEMPTS, dependencies)
  }

  function Roles(mode: AnalysisMode): seq<string> {
    match mode
    case Fast => ["market_analyst", "capital_flow_analyst"]
    case Standard => ["market_analyst", "news_analyst", "fundamentals_analyst", "policy_analyst", "capital_flow_analyst"]
    case Deep => ANALYST_ROLES
  }

  function Kept(mode: AnalysisMode, key: string): bool {
    mode == Deep || (key != "investment_debate" && key != "risk_debate")
  }

  function Agents(roles: seq<string>, previous: seq<string>): seq<NodeSpec> {
    seq(|roles|, i requires 0 <= i < |roles| => Agent(roles[i], previous, roles[i] == "lockup_supply_analyst"))
  }

  /** Each node depends on the one before it, the first on the whole previous phase. */
  function Chain(nodes: seq<NodeSpec>, previous: seq<string>): seq<NodeSpec> {
    seq(|nodes|, i requires 0 <= i < |nodes| =>
      nodes[i].(dependencies := if i == 0 then previous else [nodes[i - 1].key]))
  }

  function DebateNode(key: string): NodeSpec {
    Agent(key, [], false).(criticality := Mandatory)
  }

  function Debate(previous: seq<string>): seq<NodeSpec> {
    Chain(seq(|DEBATE_NODES|, i requires 0 <= i < |DEBATE_NODES| => DebateNode(DEBATE_NODES[i])), previous)
  }

  function RiskNodes(previous: seq<string>): seq<NodeSpec> {
    Agents(RISK_ROLES, previous) + [Agent("risk_synthesis", RISK_ROLES, false).(criticality := Mandatory)]
  }

  function AnalystNodes(mode: AnalysisMode, previous: seq<string>): seq<NodeSpec> {
    Agents(Roles(mode), previous)
    + if mode == Fast then [NodeSpec("trigger_recheck", Mandatory, false, false, 1, Roles(mode))] else []
  }

  function PhaseNodes(mode: AnalysisMode, source: PhaseSpec, previous: seq<string>): seq<NodeSpec> {
    if source.key == "analysts_running" then AnalystNodes(mode, previous)
    else if source.key == "investment_debate" then Debate(previous)
    else if source.key == "risk_debate" then RiskNodes(previous)
    else
      var nodes := Chain(source.nodes, previous);
      if mode == Fast && source.key == "research_verdict" && nodes != [] then
        [nodes[0].(llm := false, retryable := false, maxAttempts := 1)]
      else nodes
  }

  function Keys(nodes: seq<NodeSpec>): seq<string> {
    seq(|nodes|, i requires 0 <= i < |nodes| => nodes[i].key)
  }

  function Last(phases: seq<PhaseSpec>): seq<string> {
    if phases == [] then [] else Keys(phases[|phases| - 1].nodes)
  }

  function Build(mode: AnalysisMode, sources: seq<PhaseSpec>): seq<PhaseSpec> {
    if sources == [] then []
    else
      var before := Build(mode, sources[..|sources| - 1]);
      var source := sources[|sources| - 1];
      if !Kept(mode, source.key) then before
      else before + [NextPhase(mode, source, before)]
  }

  function NextPhase(mode: AnalysisMode, source: PhaseSpec, before: seq<PhaseSpec>): PhaseSpec {
    source.(nodes := PhaseNodes(mode, source, Last(before)),
            dependencies := if before == [] then [] else [before[|before| - 1].key])
  }

  method AddPhase(mode: AnalysisMode, source: PhaseSpec, phases: seq<PhaseSpec>, previousNodes: seq<string>)
      returns (plan: seq<PhaseSpec>, nextNodes: seq<string>)
    requires previousNodes == Last(phases)
    ensures plan == phases + [NextPhase(mode, source, phases)] && nextNodes == Last(plan)
  {
    hide PhaseNodes;
    var nodes := PhaseNodes(mode, source, previousNodes);
    plan := phases + [source.(nodes := nodes, dependencies := if phases != [] then [phases[|phases| - 1].key] else [])];
    nextNodes := Keys(nodes);
  }

  /** The fast mode takes the first node of this phase, and raises when there is none. */
  predicate LacksVerdict(mode: AnalysisMode, source: PhaseSpec) {
    mode == Fast && source.key == "research_verdict" && source.nodes == []
  }

  /** `build_workflow_plan` over any source table. */
  method BuildPlan(mode: AnalysisMode, sources: seq<PhaseSpec>) returns (plan: Option<seq<PhaseSpec>>, error: Option<PlanError>)
    ensures plan.None? <==> exists i :: 0 <= i < |sources| && LacksVerdict(mode, sources[i])
    ensures plan.Some? ==> plan.value == Build(mode, sources) && (error.None? <==> WellFormed(plan.value))
    ensures plan.Some? ==> exists at :: IsPlan(mode, sources, plan.value, at)
  {
    hide NextPhase, IsPlan;
    var phases: seq<PhaseSpec> := [];
    var previousNodes: seq<string> := [];
    for i := 0 to |sources|
      invariant phases == Build(mode, sources[..i])
      invariant previousNodes == Last(phases)
      invariant forall j :: 0 <= j < i ==> !LacksVerdict(mode, sources[j])
    {
      assert sources[..i + 1][..i] == sources[..i];
      var source := sources[i];
      if LacksVerdict(mode, source) {
        return None, None;
      }
      if Kept(mode, source.key) {
        phases, previousNodes := AddPhase(mode, source, phases, previousNodes);
      }
    }
    assert sources[..|sources|] == sources;
    plan := Some(phases);
    error := Validate(phases);
    ghost var at := BuildIsExact(mode, sources);
  }

  // ----- what a plan is, mode by mode -----

  /** A model-backed node that may be tried three times. */
  function Asked(key: string, criticality: Criticality, dependencies: seq<string>): NodeSpec {
    NodeSpec(key, criticality, true, true, 3, dependencies)
  }

  function Analyst(key: string, previous: seq<string>): NodeSpec {
    Asked(key, Important, previous)
  }

  predicate AnalystsAre(mode: AnalysisMode, previous: seq<string>, nodes: seq<NodeSpec>) {
    match mode
    case Fast =>
      nodes == [Analyst("market_analyst", previous), Analyst("capital_flow_analyst", previous),
                NodeSpec("trigger_recheck", Mandatory, false, false, 1, ["market_analyst", "capital_flow_analyst"])]
    case Standard =>
      nodes == [Analyst("market_analyst", previous), Analyst("news_analyst", previous), Analyst("fundamentals_analyst", previous),
                Analyst("policy_analyst", previous), Analyst("capital_flow_analyst", previous)]
    case Deep =>
      nodes == [Analyst("market_analyst", previous), Analyst("sentiment_analyst", previous), Analyst("news_analyst", previous),
                Analyst("fundamentals_analyst", previous), Analyst("policy_analyst", previous),
                Analyst("capital_flow_analyst", previous), Asked("lockup_supply_analyst", Optional, previous)]
  }

  /** A chain of five, none of which the run can do without. */
  predicate DebateIs(previous: seq<string>, nodes: seq<NodeSpec>) {
    nodes == [Asked("bull_round_1", Mandatory, previous), Asked("bear_round_1", Mandatory, ["bull_round_1"]),
              Asked("bull_round_2", Mandatory, ["bear_round_1"]), Asked("bear_round_2", Mandatory, ["bull_round_2"]),
              Asked("claim_resolver", Mandatory, ["bear_round_2"])]
  }

  predicate RisksAre(previous: seq<string>, nodes: seq<NodeSpec>) {
    nodes == [Analyst("aggressive_risk_agent", previous), Analyst("neutral_risk_agent", previous),
              Analyst("conservative_risk_agent", previous),
              Asked("risk_synthesis", Mandatory, ["aggressive_risk_agent", "neutral_risk_agent", "conservative_risk_agent"])]
  }

  /** The source's own nodes as a chain; the fast mode keeps only the first node of the verdict, asks no model and tries once. */
  predicate ChainIs(source: PhaseSpec, verdict: bool, previous: seq<string>, nodes: seq<NodeSpec>) {
    && |nodes| == (if verdict && source.nodes != [] then 1 else |source.nodes|)
    && forall k :: 0 <= k < |nodes| ==>
         && nodes[k].key == source.nodes[k].key && nodes[k].criticality == source.nodes[k].criticality
         && nodes[k].dependencies == (if k == 0 then previous else [source.nodes[k - 1].key])
         && if verdict then !nodes[k].llm && !nodes[k].retryable && nodes[k].maxAttempts == 1
            else nodes[k].llm == source.nodes[k].llm && nodes[k].retryable == source.nodes[k].retryable
                 && nodes[k].maxAttempts == source.nodes[k].maxAttempts
  }

  predicate NodesAre(mode: AnalysisMode, source: PhaseSpec, previous: seq<string>, nodes: seq<NodeSpec>) {
    if source.key == "analysts_running" then AnalystsAre(mode, previous, nodes)
    else if source.key == "investment_debate" then DebateIs(previous, nodes)
    else if source.key == "risk_debate" then RisksAre(previous, nodes)
    else ChainIs(source, mode == Fast && source.key == "research_verdict", previous, nodes)
  }

  lemma {:induction false} NodesAreSpelled(mode: AnalysisMode, source: PhaseSpec, previous: seq<string>)
    ensures NodesAre(mode, source, previous, PhaseNodes(mode, source, previous))
  {
    hide AnalystsAre, DebateIs, RisksAre, ChainIs, AnalystNodes, Debate, RiskNodes;
    AnalystsAreSpelled(mode, previous);
    DebateIsSpelled(previous);
    RisksAreSpelled(previous);
    if !Coordinated(source.key) {
      ChainIsSpelled(mode, source, previous);
    }
  }

  lemma {:induction false} AnalystsAreSpelled(mode: AnalysisMode, previous: seq<string>)
    ensures AnalystsAre(mode, previous, AnalystNodes(mode, previous))
  {
    var nodes := AnalystNodes(mode, previous);
    match mode
    case Fast => assert |nodes| == 3;
    case Standard => assert |nodes| == 5;
    case Deep => assert |nodes| == 7;
  }

  lemma {:induction false} DebateIsSpelled(previous: seq<string>)
    ensures DebateIs(previous, Debate(previous))
  {
    assert |Debate(previous)| == 5;
  }

  lemma {:induction false} RisksAreSpelled(previous: seq<string>)
    ensures RisksAre(previous, RiskNodes(previous))
  {
    assert |RiskNodes(previous)| == 4;
  }

  lemma {:induction false} ChainIsSpelled(mode: AnalysisMode, source: PhaseSpec, previous: seq<string>)
    requires !Coordinated(source.key)
    ensures ChainIs(source, mode == Fast && source.key == "research_verdict", previous, PhaseNodes(mode, source, previous))
  {
    var nodes := Chain(source.nodes, previous);
    forall k | 0 <= k < |nodes|
      ensures nodes[k].key == source.nodes[k].key && nodes[k].criticality == source.nodes[k].criticality
      ensures nodes[k].llm == source.nodes[k].llm && nodes[k].retryable == source.nodes[k].retryable
      ensures nodes[k].maxAttempts == source.nodes[k].maxAttempts
      ensures nodes[k].dependencies == if k == 0 then previous else [source.nodes[k - 1].key]
    {
      ChainLink(source.nodes, previous, k);
    }
    hide Chain;
    if mode == Fast && source.key == "research_verdict" && nodes != [] {
      assert PhaseNodes(mode, source, previous) == [nodes[0].(llm := false, retryable := false, maxAttempts := 1)];
    } else {
      assert PhaseNodes(mode, source, previous) == nodes;
    }
  }

  lemma {:induction false} ChainLink(nodes: seq<NodeSpec>, previous: seq<string>, k: nat)
    requires k < |nodes|
    ensures |Chain(nodes, previous)| == |nodes|
    ensures var link, node := Chain(nodes, previous)[k], nodes[k];
            && link.key == node.key && link.criticality == node.criticality && link.llm == node.llm
            && link.retryable == node.retryable && link.maxAttempts == node.maxAttempts
            && link.dependencies == if k == 0 then previous else [nodes[k - 1].key]
  {
    assert Chain(nodes, previous)[k] == nodes[k].(dependencies := if k == 0 then previous else [nodes[k - 1].key]);
  }

  /** `at` lists, in order, the places of the sources that the plan has a phase for: all of them in the deep mode, and all but the
      two debates in the others. Each phase waits for the one before it, and its first layer for all nodes of that. */
  ghost predicate IsPlan(mode: AnalysisMode, sources: seq<PhaseSpec>, plan: seq<PhaseSpec>, at: seq<nat>) {
    && |at| == |plan|
    && (forall p, q :: 0 <= p < q < |at| ==> at[p] < at[q])
    && (forall p :: 0 <= p < |at| ==> at[p] < |sources| && IsPhase(mode, sources[at[p]], plan, p))
    && (forall i :: 0 <= i < |sources| ==>
          (i in at <==> mode == Deep || (sources[i].key != "investment_debate" && sources[i].key != "risk_debate")))
  }

  ghost predicate IsPhase(mode: AnalysisMode, source: PhaseSpec, plan: seq<PhaseSpec>, p: nat)
    requires p < |plan|
  {
    && plan[p].key == source.key && plan[p].checkpoint == source.checkpoint
    && plan[p].dependencies == (if p == 0 then [] else [plan[p - 1].key])
    && exists previous ::
         && (if p == 0 then previous == [] else IsKeys(plan[p - 1].nodes, previous))
         && NodesAre(mode, source, previous, plan[p].nodes)
  }

  predicate IsKeys(nodes: seq<NodeSpec>, keys: seq<string>) {
    |keys| == |nodes| && forall k :: 0 <= k < |nodes| ==> keys[k] == nodes[k].key
  }

  /** What is built from any source table is that table's plan. */
  lemma {:induction false} BuildIsExact(mode: AnalysisMode, sources: seq<PhaseSpec>) returns (at: seq<nat>)
    ensures IsPlan(mode, sources, Build(mode, sources), at)
  {
    hide NextPhase, IsPhase, IsPlan;
    if sources == [] {
      at := [];
      NoPlan(mode);
    } else {
      var n := |sources| - 1;
      var front := BuildIsExact(mode, sources[..n]);
      var before := Build(mode, sources[..n]);
      assert sources == sources[..n] + [sources[n]];
      if Kept(mode, sources[n].key) {
        at := front + [n];
        PhaseAdds(mode, sources[..n], sources[n], before, front);
      } else {
        at := front;
        PhaseSkips(mode, sources[..n], sources[n], before, front);
      }
    }
  }

  lemma {:induction false} NoPlan(mode: AnalysisMode)
    ensures IsPlan(mode, [], [], [])
  {
  }

  lemma {:induction false} PhaseAdds(
      mode: AnalysisMode, sources: seq<PhaseSpec>, source: PhaseSpec, plan: seq<PhaseSpec>, at: seq<nat>)
    requires IsPlan(mode, sources, plan, at) && Kept(mode, source.key)
    ensures IsPlan(mode, sources + [source], plan + [NextPhase(mode, source, plan)], at + [|sources|])
  {
    hide NextPhase, IsPhase;
    var all, more, places := sources + [source], plan + [NextPhase(mode, source, plan)], at + [|sources|];
    NextIsPhase(mode, source, plan);
    assert all[|sources|] == source && places[|at|] == |sources|;
    forall p | 0 <= p < |at|
      ensures IsPhase(mode, all[places[p]], more, p)
    {
      PhaseStays(mode, sources[at[p]], plan, more[|plan|], p);
    }
    forall i | 0 <= i < |all|
      ensures i in places <==> mode == Deep || (all[i].key != "investment_debate" && all[i].key != "risk_debate")
    {
      assert i in places <==> i in at || i == |sources|;
    }
  }

  lemma {:induction false} PhaseSkips(
      mode: AnalysisMode, sources: seq<PhaseSpec>, source: PhaseSpec, plan: seq<PhaseSpec>, at: seq<nat>)
    requires IsPlan(mode, sources, plan, at) && !Kept(mode, source.key)
    ensures IsPlan(mode, sources + [source], plan, at)
  {
    hide IsPhase;
    var all := sources + [source];
    assert forall p :: 0 <= p < |at| ==> all[at[p]] == sources[at[p]];
  }

  lemma {:induction false} PhaseStays(mode: AnalysisMode, source: PhaseSpec, plan: seq<PhaseSpec>, last: PhaseSpec, p: nat)
    requires p < |plan| && IsPhase(mode, source, plan, p)
    ensures IsPhase(mode, source, plan + [last], p)
  {
    hide NodesAre;
  }

  lemma {:induction false} NextIsPhase(mode: AnalysisMode, source: PhaseSpec, before: seq<PhaseSpec>)
    ensures IsPhase(mode, source, before + [NextPhase(mode, source, before)], |before|)
  {
    hide NodesAre, PhaseNodes;
    NodesAreSpelled(mode, source, Last(before));
  }

  /** Each node depends on the whole previous phase, or else only on earlier nodes of its own phase and on at least one. */
  predicate Layered(nodes: seq<NodeSpec>, previous: seq<string>) {
    forall k :: 0 <= k < |nodes| ==>
      nodes[k].dependencies == previous
      || (nodes[k].dependencies != [] && forall d :: d in nodes[k].dependencies ==> Among(nodes[..k], d))
  }

  lemma {:induction false} PhaseIsLayered(mode: AnalysisMode, source: PhaseSpec, previous: seq<string>)
    ensures Layered(PhaseNodes(mode, source, previous), previous)
  {
    var nodes := PhaseNodes(mode, source, previous);
    forall k | 0 <= k < |nodes|
      ensures nodes[k].dependencies == previous
              || (nodes[k].dependencies != [] && forall d :: d in nodes[k].dependencies ==> Among(nodes[..k], d))
    {
      if source.key == "analysts_running" {
        if k == |Roles(mode)| {
          RolesComeFirst(nodes, Roles(mode));
        }
      } else if source.key == "risk_debate" {
        if k == |RISK_ROLES| {
          RolesComeFirst(nodes, RISK_ROLES);
        }
      } else if k > 0 {
        assert nodes[..k][k - 1].key == nodes[k].dependencies[0];
      }
    }
  }

  lemma {:induction false} RolesComeFirst(nodes: seq<NodeSpec>, roles: seq<string>)
    requires |roles| <= |nodes| && forall i :: 0 <= i < |roles| ==> nodes[i].key == roles[i]
    ensures forall d :: d in roles ==> Among(nodes[..|roles|], d)
  {
    forall d | d in roles
      ensures Among(nodes[..|roles|], d)
    {
      var i :| 0 <= i < |roles| && roles[i] == d;
      assert nodes[..|roles|][i].key == d;
    }
  }

  predicate DistinctNodes(nodes: seq<NodeSpec>) {
    forall i, j :: 0 <= i < j < |nodes| ==> nodes[i].key != nodes[j].key
  }

  predicate DistinctPhases(phases: seq<PhaseSpec>) {
    forall i, j :: 0 <= i < j < |phases| ==> phases[i].key != phases[j].key
  }

  /** A layered phase keeps the node list topological and lies wholly behind the nodes before it. */
  lemma {:induction false} LayerExtends(earlier: seq<NodeSpec>, nodes: seq<NodeSpec>, previous: seq<string>)
    requires Topological(earlier) && Layered(nodes, previous) && DistinctNodes(earlier + nodes)
    requires forall d :: d in previous ==> Among(earlier, d)
    ensures Topological(earlier + nodes)
  {
    var all := earlier + nodes;
    forall i | 0 <= i < |all|
      ensures NodeFits(all[..i], all[i])
    {
      if i < |earlier| {
        assert all[..i] == earlier[..i];
      } else {
        assert all[..i] == earlier + nodes[..i - |earlier|];
        assert all[i] == nodes[i - |earlier|];
        forall d | d in all[i].dependencies
          ensures Among(all[..i], d)
        {
          if Among(earlier, d) {
            var at :| 0 <= at < |earlier| && earlier[at].key == d;
            assert all[..i][at].key == d;
          } else {
            assert Among(nodes[..i - |earlier|], d);
            var at :| 0 <= at < i - |earlier| && nodes[..i - |earlier|][at].key == d;
            assert all[..i][|earlier| + at].key == d;
          }
        }
      }
    }
  }

  /** Node i of the grown plan reaches every node of the previous phase, then everything that phase reaches. */
  lemma {:induction false} LayerReaches(
      earlier: seq<NodeSpec>, nodes: seq<NodeSpec>, previous: seq<string>, k: nat, j: nat)
    requires Layered(nodes, previous) && k < |nodes| && j < |earlier| && earlier[j].key in previous
    ensures Reaches(earlier + nodes, |earlier| + k, j)
    decreases k
  {
    var all := earlier + nodes;
    assert all[|earlier| + k] == nodes[k] && all[j] == earlier[j];
    if nodes[k].dependencies == previous {
      assert DependsOn(all, |earlier| + k, j);
    } else {
      var d := nodes[k].dependencies[0];
      assert Among(nodes[..k], d);
      var at :| 0 <= at < k && nodes[..k][at].key == d;
      LayerReaches(earlier, nodes, previous, at, j);
      assert all[|earlier| + at] == nodes[at];
      assert DependsOn(all, |earlier| + k, |earlier| + at);
      assert Reaches(all, |earlier| + at, j);
    }
  }

  /** Every node of a later phase depends, directly or not, on every node of every earlier phase. */
  predicate Barrier(phases: seq<PhaseSpec>) {
    forall p, i, j :: 0 <= p < |phases| && |Flatten(phases[..p])| <= i < |Flatten(phases)| && 0 <= j < |Flatten(phases[..p])| ==>
      Reaches(Flatten(phases), i, j)
  }

  lemma {:induction false} BuildPrefix(mode: AnalysisMode, sources: seq<PhaseSpec>)
    requires sources != []
    ensures var before := Build(mode, sources[..|sources| - 1]);
            var source := sources[|sources| - 1];
            Build(mode, sources) == if Kept(mode, source.key) then before + [NextPhase(mode, source, before)] else before
  {
  }

  /** Nothing in the first step of a plan depends on anything outside it. */
  lemma {:induction false} FlattenAppend(phases: seq<PhaseSpec>, phase: PhaseSpec)
    ensures Flatten(phases + [phase]) == Flatten(phases) + phase.nodes
  {
    assert (phases + [phase])[..|phases|] == phases;
  }

  lemma {:induction false} FlattenSplit(phases: seq<PhaseSpec>, p: nat)
    requires p <= |phases|
    ensures |Flatten(phases[..p])| <= |Flatten(phases)| && Flatten(phases)[..|Flatten(phases[..p])|] == Flatten(phases[..p])
    decreases |phases| - p
  {
    if p == |phases| {
      assert phases[..p] == phases;
    } else {
      FlattenSplit(phases, p + 1);
      FlattenExtend(phases, p);
    }
  }

  /** The keys of the last phase belong to the last nodes of the plan. */
  lemma {:induction false} LastIsLate(phases: seq<PhaseSpec>, j: nat)
    requires phases != [] && |Flatten(phases[..|phases| - 1])| <= j < |Flatten(phases)|
    ensures Flatten(phases)[j].key in Last(phases)
  {
    var start := |Flatten(phases[..|phases| - 1])|;
    assert Flatten(phases)[j] == phases[|phases| - 1].nodes[j - start];
    assert Last(phases)[j - start] == Flatten(phases)[j].key;
  }

  /** The last phase behind a barrier leaves a barrier, and must itself wait for the nodes before it. */
  lemma {:induction false} BarrierStep(phases: seq<PhaseSpec>, phase: PhaseSpec)
    requires Layered(phase.nodes, Last(phases))
    ensures Barrier(phases + [phase]) <==>
            Barrier(phases) && (phase.nodes == [] || Flatten(phases) == [] || Last(phases) != [])
  {
    if Barrier(phases + [phase]) {
      BarrierShrinks(phases, phase);
      if phase.nodes != [] && Flatten(phases) != [] && Last(phases) == [] {
        WaitsForNothing(phases, phase);
      }
    } else if Barrier(phases) && (phase.nodes == [] || Flatten(phases) == [] || Last(phases) != []) {
      BarrierExtends(phases, phase);
    }
  }

  /** Behind an empty phase, the first node of the next one depends on nothing at all. */
  lemma {:induction false} WaitsForNothing(phases: seq<PhaseSpec>, phase: PhaseSpec)
    requires Layered(phase.nodes, []) && phase.nodes != [] && Flatten(phases) != []
    ensures !Barrier(phases + [phase])
  {
    var grown := phases + [phase];
    var first := |Flatten(phases)|;
    FlattenAppend(phases, phase);
    assert grown[..|phases|] == phases;
    var waits := phase.nodes[0].dependencies;
    assert waits == [] || !Among(phase.nodes[..0], waits[0]);
    assert Flatten(grown)[first] == phase.nodes[0];
    NothingToReach(Flatten(grown), first, 0);
  }

  lemma {:induction false} NothingToReach(nodes: seq<NodeSpec>, i: nat, j: nat)
    requires i < |nodes| && j < |nodes| && nodes[i].dependencies == []
    ensures !Reaches(nodes, i, j)
  {
  }

  lemma {:induction false} BarrierShrinks(phases: seq<PhaseSpec>, phase: PhaseSpec)
    requires Barrier(phases + [phase])
    ensures Barrier(phases)
  {
    var grown := phases + [phase];
    FlattenAppend(phases, phase);
    forall p, i, j | 0 <= p < |phases| && |Flatten(phases[..p])| <= i < |Flatten(phases)| && 0 <= j < |Flatten(phases[..p])|
      ensures Reaches(Flatten(phases), i, j)
    {
      assert grown[..p] == phases[..p];
      assert Reaches(Flatten(grown), i, j);
      ReachesPrefix(Flatten(phases), phase.nodes, i, j);
    }
  }

  lemma {:induction false} BarrierExtends(phases: seq<PhaseSpec>, phase: PhaseSpec)
    requires Barrier(phases) && Layered(phase.nodes, Last(phases))
    requires phase.nodes == [] || Flatten(phases) == [] || Last(phases) != []
    ensures Barrier(phases + [phase])
  {
    var grown := phases + [phase];
    var earlier, all := Flatten(phases), Flatten(grown);
    FlattenAppend(phases, phase);
    forall p, i, j | 0 <= p < |grown| && |Flatten(grown[..p])| <= i < |all| && 0 <= j < |Flatten(grown[..p])|
      ensures Reaches(all, i, j)
    {
      assert grown[..p] == phases[..p];
      FlattenSplit(phases, p);
      assert p == |phases| ==> phases[..p] == phases;
      if i < |earlier| {
        assert p < |phases|;
        ReachesPrefix(earlier, phase.nodes, i, j);
      } else {
        ReachesAllBefore(phases, phase, i - |earlier|, j);
      }
    }
  }

  /** A node of the new phase reaches the previous phase, and through it everything before. */
  lemma {:induction false} ReachesAllBefore(phases: seq<PhaseSpec>, phase: PhaseSpec, k: nat, j: nat)
    requires Barrier(phases) && Layered(phase.nodes, Last(phases)) && k < |phase.nodes| && j < |Flatten(phases)|
    requires Last(phases) != []
    ensures Reaches(Flatten(phases) + phase.nodes, |Flatten(phases)| + k, j)
  {
    var earlier := Flatten(phases);
    var start := |Flatten(phases[..|phases| - 1])|;
    if start <= j {
      LastIsLate(phases, j);
      LayerReaches(earlier, phase.nodes, Last(phases), k, j);
    } else {
      FlattenExtend(phases, |phases| - 1);
      assert phases[..|phases| - 1 + 1] == phases;
      LastIsLate(phases, start);
      LayerReaches(earlier, phase.nodes, Last(phases), k, start);
      assert Reaches(earlier, start, j);
      ReachesPrefix(earlier, phase.nodes, start, j);
      ReachesTransitive(earlier + phase.nodes, |earlier| + k, start, j);
    }
  }

  /** No phase with nodes stands right behind an empty one, once any node has been placed. */
  predicate Gapless(phases: seq<PhaseSpec>) {
    phases == []
    || (var before := phases[..|phases| - 1];
        Gapless(before) && (phases[|phases| - 1].nodes == [] || Flatten(before) == [] || Last(before) != []))
  }

  /** A built plan with distinct keys passes validation, and every phase is a full barrier for the ones after it exactly when
      the plan is gapless. */
  lemma {:induction false} BuiltPlanLayers(mode: AnalysisMode, sources: seq<PhaseSpec>)
    requires DistinctPhases(Build(mode, sources)) && DistinctNodes(Flatten(Build(mode, sources)))
    ensures WellFormed(Build(mode, sources))
    ensures Barrier(Build(mode, sources)) <==> Gapless(Build(mode, sources))
  {
    hide PhaseNodes, Layered, Barrier, DistinctNodes, DistinctPhases, WellFormed;
    if sources == [] {
      EmptyPlan();
    } else {
      BuildPrefix(mode, sources);
      var front := sources[..|sources| - 1];
      var source := sources[|sources| - 1];
      var before := Build(mode, front);
      if Kept(mode, source.key) {
        var phase := NextPhase(mode, source, before);
        assert (before + [phase])[..|before|] == before;
        FlattenAppend(before, phase);
        DistinctParts(before, phase);
        BuiltPlanLayers(mode, front);
        PhaseIsLayered(mode, source, Last(before));
        BarrierStep(before, phase);
        StepIsWellFormed(before, phase);
      } else {
        BuiltPlanLayers(mode, front);
      }
    }
  }

  lemma {:induction false} EmptyPlan()
    ensures WellFormed([]) && Barrier([])
  {
  }

  // ----- the condition, over the source table -----

  /** The phases whose nodes the builder replaces by nodes of its own, which are those that the coordinator runs. */
  predicate Coordinated(key: string) {
    key == "analysts_running" || key == "investment_debate" || key == "risk_debate"
  }

  function KeptSources(mode: AnalysisMode, sources: seq<PhaseSpec>): seq<PhaseSpec> {
    if sources == [] then []
    else
      KeptSources(mode, sources[..|sources| - 1])
      + if Kept(mode, sources[|sources| - 1].key) then [sources[|sources| - 1]] else []
  }

  /** A source that leaves its phase without nodes. */
  predicate Bare(source: PhaseSpec) {
    source.nodes == [] && !Coordinated(source.key)
  }

  /** Among these sources, once there is one with nodes, none with nodes stands right behind a bare one. */
  predicate NoGap(sources: seq<PhaseSpec>) {
    forall i, j :: 0 <= i < j < |sources| - 1 && !Bare(sources[i]) && Bare(sources[j]) ==> Bare(sources[j + 1])
  }

  lemma {:induction false} BareSources(mode: AnalysisMode, sources: seq<PhaseSpec>)
    ensures var plan, kept := Build(mode, sources), KeptSources(mode, sources);
            |plan| == |kept| && forall p :: 0 <= p < |plan| ==> plan[p].key == kept[p].key && (plan[p].nodes == [] <==> Bare(kept[p]))
  {
    hide Roles;
    if sources != [] {
      BareSources(mode, sources[..|sources| - 1]);
      SomeRoles(mode);
    }
  }

  lemma {:induction false} SomeRoles(mode: AnalysisMode)
    ensures |Roles(mode)| > 0
  {
  }

  predicate NoGapAt(phases: seq<PhaseSpec>, i: nat, j: nat)
    requires i < j < |phases| - 1
  {
    phases[i].nodes != [] && phases[j].nodes == [] ==> phases[j + 1].nodes == []
  }

  lemma {:induction false} GaplessMeans(phases: seq<PhaseSpec>)
    ensures Gapless(phases) <==> forall i, j :: 0 <= i < j < |phases| - 1 ==> NoGapAt(phases, i, j)
  {
    if phases != [] {
      var n := |phases| - 1;
      var before := phases[..n];
      GaplessMeans(before);
      NothingPlaced(before);
      assert forall i, j :: 0 <= i < j < |before| - 1 ==> (NoGapAt(before, i, j) <==> NoGapAt(phases, i, j));
      if n >= 2 && before[n - 1].nodes == [] && phases[n].nodes != [] && Flatten(before) != [] {
        var i :| 0 <= i < |before| && before[i].nodes != [];
        assert !NoGapAt(phases, i, n - 1);
      }
      forall i, j | Gapless(phases) && 0 <= i < j < n
        ensures NoGapAt(phases, i, j)
      {
        assert j < n - 1 ==> NoGapAt(before, i, j);
      }
    }
  }

  lemma {:induction false} NothingPlaced(phases: seq<PhaseSpec>)
    ensures Flatten(phases) == [] <==> forall p :: 0 <= p < |phases| ==> phases[p].nodes == []
  {
    if phases != [] {
      NothingPlaced(phases[..|phases| - 1]);
    }
  }

  /** The plan that `build_workflow_plan` makes of any source table with distinct keys passes validation, and every phase is a full
      barrier for the ones after it if and only if the kept sources leave no gap. */
  lemma {:induction false} BuiltPlanIsSound(mode: AnalysisMode, sources: seq<PhaseSpec>)
    requires DistinctPhases(KeptSources(mode, sources)) && DistinctNodes(Flatten(Build(mode, sources)))
    ensures WellFormed(Build(mode, sources))
    ensures Barrier(Build(mode, sources)) <==> NoGap(KeptSources(mode, sources))
  {
    hide WellFormed, Barrier, Build, DistinctNodes, Gapless, KeptSources, Bare;
    var plan, kept := Build(mode, sources), KeptSources(mode, sources);
    BareSources(mode, sources);
    BuiltPlanLayers(mode, sources);
    GaplessMeans(plan);
    forall i, j | 0 <= i < j < |plan| - 1
      ensures NoGapAt(plan, i, j) <==> (!Bare(kept[i]) && Bare(kept[j]) ==> Bare(kept[j + 1]))
    {
    }
  }

  /** A source table with non-empty phases leaves no gap, and so gives a full barrier between any two phases. */
  lemma {:induction false} NonEmptySourcesGiveBarriers(mode: AnalysisMode, sources: seq<PhaseSpec>)
    requires forall i :: 0 <= i < |sources| ==> sources[i].nodes != []
    requires DistinctPhases(KeptSources(mode, sources)) && DistinctNodes(Flatten(Build(mode, sources)))
    ensures WellFormed(Build(mode, sources)) && Barrier(Build(mode, sources))
  {
    hide WellFormed, Barrier, Build, DistinctNodes, DistinctPhases;
    BuiltPlanIsSound(mode, sources);
    KeptAreSources(mode, sources);
  }

  lemma {:induction false} KeptAreSources(mode: AnalysisMode, sources: seq<PhaseSpec>)
    requires forall i :: 0 <= i < |sources| ==> sources[i].nodes != []
    ensures forall p :: 0 <= p < |KeptSources(mode, sources)| ==> KeptSources(mode, sources)[p].nodes != []
  {
    if sources != [] {
      KeptAreSources(mode, sources[..|sources| - 1]);
    }
  }

  lemma {:induction false} DistinctParts(before: seq<PhaseSpec>, phase: PhaseSpec)
    requires DistinctPhases(before + [phase]) && DistinctNodes(Flatten(before) + phase.nodes)
    ensures DistinctPhases(before) && DistinctNodes(Flatten(before)) && !PhaseAmong(before, phase.key)
  {
    var phases, nodes := before + [phase], Flatten(before) + phase.nodes;
    assert forall i :: 0 <= i < |before| ==> before[i] == phases[i];
    assert forall i :: 0 <= i < |Flatten(before)| ==> Flatten(before)[i] == nodes[i];
    assert phases[|before|] == phase;
  }

  lemma {:induction false} LastIsAmong(phases: seq<PhaseSpec>, d: string)
    requires d in Last(phases)
    ensures Among(Flatten(phases), d)
  {
    var last := phases[|phases| - 1].nodes;
    var at :| 0 <= at < |last| && Last(phases)[at] == d;
    assert Flatten(phases)[|Flatten(phases[..|phases| - 1])| + at].key == d;
  }

  lemma {:induction false} StepIsWellFormed(before: seq<PhaseSpec>, phase: PhaseSpec)
    requires WellFormed(before) && !PhaseAmong(before, phase.key)
    requires phase.dependencies == if before == [] then [] else [before[|before| - 1].key]
    requires Layered(phase.nodes, Last(before)) && DistinctNodes(Flatten(before) + phase.nodes)
    ensures WellFormed(before + [phase])
  {
    var grown := before + [phase];
    FlattenAppend(before, phase);
    forall d | d in Last(before)
      ensures Among(Flatten(before), d)
    {
      LastIsAmong(before, d);
    }
    LayerExtends(Flatten(before), phase.nodes, Last(before));
    forall i | 0 <= i < |grown|
      ensures PhaseFits(grown[..i], grown[i])
    {
      if i < |before| {
        assert grown[..i] == before[..i];
      } else {
        assert grown[..i] == before;
      }
    }
  }

  /** A phase of any other name keeps its nodes, chained behind the previous phase. */
  lemma {:induction false} OrdinaryPhase(source: PhaseSpec, previous: seq<string>)
    requires source.key == "first" || source.key == "second" || source.key == "third"
    requires |source.nodes| <= 1
    ensures PhaseNodes(Deep, source, previous)
            == if source.nodes == [] then [] else [source.nodes[0].(dependencies := previous)]
  {
  }

  /** The failing case at a concrete input: with an empty phase in the middle, the last one does not wait for the first. */
  lemma {:induction false} EmptyPhaseBreaksBarrier(a: NodeSpec, c: NodeSpec)
    requires a.key != c.key
    ensures var sources := [PhaseSpec("first", [a], None, []), PhaseSpec("second", [], None, []), PhaseSpec("third", [c], None, [])];
            var plan := Build(Deep, sources);
            WellFormed(plan) && |plan| == 3 && |Flatten(plan)| == 2
            && !DependsOn(Flatten(plan), 1, 0) && !Reaches(Flatten(plan), 1, 0) && !Barrier(plan)
  {
    hide WellFormed, PhaseNodes, Barrier, Gapless, Build, Flatten, Reaches, DependsOn;
    var sources := [PhaseSpec("first", [a], None, []), PhaseSpec("second", [], None, []), PhaseSpec("third", [c], None, [])];
    var plan := Build(Deep, sources);
    GapPlan(a, c);
    NothingBehindTheGap(plan[..1], plan[..2], plan);
    DifferentNames();
    BuiltPlanLayers(Deep, sources);
  }

  lemma {:induction false} DifferentNames()
    ensures "first" != "second" && "first" != "third" && "second" != "third"
  {
    assert "first"[0] == 'f' && "second"[0] == 's' && "third"[0] == 't';
  }

  lemma {:induction false} GapPlan(a: NodeSpec, c: NodeSpec)
    ensures var sources := [PhaseSpec("first", [a], None, []), PhaseSpec("second", [], None, []), PhaseSpec("third", [c], None, [])];
            Build(Deep, sources) == [
              PhaseSpec("first", [a.(dependencies := [])], None, []), PhaseSpec("second", [], None, ["first"]),
              PhaseSpec("third", [c.(dependencies := [])], None, ["second"])]
  {
    hide PhaseNodes;
    var first, second, third := PhaseSpec("first", [a], None, []), PhaseSpec("second", [], None, []), PhaseSpec("third", [c], None, []);
    var one := [first.(nodes := [a.(dependencies := [])])];
    var two := one + [second.(dependencies := ["first"])];
    OrdinaryPhase(first, []);
    OrdinaryPhase(second, [a.key]);
    OrdinaryPhase(third, []);
    assert [first, second, third][..2] == [first, second] && [first, second][..1] == [first] && [first][..0] == [];
    assert Keys(one[0].nodes) == [a.key] && Keys(two[1].nodes) == [];
    assert Build(Deep, [first]) == one;
    assert Build(Deep, [first, second]) == two;
  }

  lemma {:induction false} NothingBehindTheGap(one: seq<PhaseSpec>, two: seq<PhaseSpec>, three: seq<PhaseSpec>)
    requires |one| == 1 && |two| == 2 && |three| == 3 && two[..1] == one && three[..2] == two
    requires |one[0].nodes| == 1 && two[1].nodes == [] && |three[2].nodes| == 1 && three[2].nodes[0].dependencies == []
    requires one[0].nodes[0].key != three[2].nodes[0].key
    ensures var nodes := Flatten(three);
            |nodes| == 2 && DistinctNodes(nodes) && !DependsOn(nodes, 1, 0) && !Reaches(nodes, 1, 0) && !Barrier(three)
  {
    assert Flatten(three) == one[0].nodes + three[2].nodes by {
      assert one[..0] == [];
      assert Flatten(one) == one[0].nodes && Flatten(two) == Flatten(one);
      assert Flatten(three[..2]) == Flatten(two);
    }
    assert Flatten(three[..2]) == one[0].nodes by {
      assert one[..0] == [];
    }
  }
}
