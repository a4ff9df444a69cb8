/** Schedule independence: whatever order node executions finish in, every node is given the same input. */
module Independence {
  import opened Json
  import opened Workflow
  import opened Plan
  import opened Schedule
  import E = Execution

  // ----- the sequential reference: the nodes one after the other, in plan order -----

  function RefTask(nodes: seq<NodeSpec>, task: Task, i: nat): TaskResult
    requires i < |nodes|
    decreases i, 2
  {
    task(i, RefInputs(nodes, task, i))
  }

  function RefInputs(nodes: seq<NodeSpec>, task: Task, i: nat): Inputs
    requires i < |nodes|
    decreases i, 1
  {
    InputsFor(nodes, i, RefEntries(nodes, task, i))
  }

  /** The results of the first i nodes; an execution that raises leaves none. */
  function RefEntries(nodes: seq<NodeSpec>, task: Task, i: nat): (entries: seq<Entry>)
    requires i <= |nodes|
    ensures InPhase(nodes, entries)
    decreases i, 0
  {
    if i == 0 then []
    else
      var last := RefTask(nodes, task, i - 1);
      RefEntries(nodes, task, i - 1) + if last.Finished? then [Entry(i - 1, last.result)] else []
  }

  predicate Follows(nodes: seq<NodeSpec>, k: nat)
    requires 0 < k < |nodes|
  {
    DependsOn(nodes, k, k - 1)
  }

  /** Every node that reads results is comparable with all the others: it waits for all earlier nodes, all later ones
      wait for it; and where the order of claims shows, the nodes before it form a chain. */
  predicate OrderedReaders(nodes: seq<NodeSpec>) {
    forall i :: 0 <= i < |nodes| ==>
      && (ReadsClaims(nodes[i]) ==> forall k :: 0 < k <= i ==> Follows(nodes, k))
      && (ReadsAgents(nodes[i]) ==> forall j :: 0 <= j < i ==> Reaches(nodes, i, j))
      && (ReadsClaims(nodes[i]) || ReadsAgents(nodes[i]) ==> forall j :: i < j < |nodes| ==> Reaches(nodes, j, i))
  }

  ghost predicate Independent(nodes: seq<NodeSpec>, task: Task, b: Board) {
    && InBounds(nodes, b)
    && (forall i :: i in b.inputs ==> i < |nodes| && b.inputs[i] == RefInputs(nodes, task, i))
    && (forall p :: 0 <= p < |b.results| ==> RefTask(nodes, task, b.results[p].node) == Finished(b.results[p].result))
    && (forall i :: i in b.failed ==> i < |nodes| && RefTask(nodes, task, i).Broke?)
  }

  /** The dependencies of a result stand before it. */
  ghost predicate Causal(nodes: seq<NodeSpec>, b: Board) {
    InBounds(nodes, b)
    && forall p, j :: 0 <= p < |b.results| && 0 <= j < |nodes| && DependsOn(nodes, b.results[p].node, j) ==> Before(b, p, j)
  }

  predicate Before(b: Board, p: nat, j: nat) {
    exists q :: 0 <= q < p && q < |b.results| && b.results[q].node == j
  }

  // ----- what has finished when a node is submitted -----

  lemma {:induction false} ReachedHasResult(nodes: seq<NodeSpec>, limit: nat, b: Board, i: nat, j: nat)
    requires Safe(nodes, limit, b) && i < |nodes| && j < |nodes| && Ready(nodes, b, i) && Reaches(nodes, i, j)
    ensures HasResult(b, j)
    decreases i
  {
    if !DependsOn(nodes, i, j) {
      var m :| j < m < i && DependsOn(nodes, i, m) && Reaches(nodes, m, j);
      assert Submitted(b, m);
      ReachedHasResult(nodes, limit, b, m, j);
    }
  }

  /** When a reader is submitted, exactly the nodes before it have results. */
  lemma {:induction false} ReaderSeesEarlier(nodes: seq<NodeSpec>, limit: nat, b: Board, i: nat, j: nat)
    requires Safe(nodes, limit, b) && OrderedReaders(nodes) && i in b.pending && i < |nodes| && Ready(nodes, b, i)
    requires ReadsClaims(nodes[i]) || ReadsAgents(nodes[i])
    ensures HasResult(b, j) <==> j < i
  {
    hide ReadsClaims, ReadsAgents, Reaches;
    assert !Submitted(b, i);
    if HasResult(b, j) && j > i {
      assert Submitted(b, j);
      ReachedHasResult(nodes, limit, b, j, i);
    }
    if j < i {
      if ReadsClaims(nodes[i]) {
        ChainReaches(nodes, i, j);
      }
      ReachedHasResult(nodes, limit, b, i, j);
    }
  }

  lemma {:induction false} ChainReaches(nodes: seq<NodeSpec>, i: nat, j: nat)
    requires j < i < |nodes| && forall k :: 0 < k <= i ==> Follows(nodes, k)
    ensures Reaches(nodes, i, j)
    decreases i
  {
    assert Follows(nodes, i);
    if j < i - 1 {
      ChainReaches(nodes, i - 1, j);
    }
  }

  /** Along a chain, results come in plan order. */
  lemma {:induction false} ChainOrder(nodes: seq<NodeSpec>, limit: nat, b: Board, i: nat, k: nat)
    requires Safe(nodes, limit, b) && Causal(nodes, b) && i < |nodes| && k < |b.results|
    requires forall m :: 0 < m <= i ==> Follows(nodes, m)
    requires forall j: nat :: HasResult(b, j) ==> j < i
    ensures b.results[k].node == k
    decreases k
  {
    hide DependsOn;
    var x := b.results[k].node;
    assert HasResult(b, x);
    forall q | 0 <= q < k
      ensures b.results[q].node == q
    {
      ChainOrder(nodes, limit, b, i, q);
    }
    if x < k {
      ChainOrder(nodes, limit, b, i, x);
    }
    assert x > 0 ==> Follows(nodes, x) && Before(b, k, x - 1);
  }

  lemma {:induction false} AllResultsCount(nodes: seq<NodeSpec>, b: Board, i: nat)
    requires forall k :: 0 <= k < |b.results| ==> b.results[k].node == k
    requires forall j: nat :: HasResult(b, j) <==> j < i
    ensures |b.results| == i
  {
    assert i < |b.results| ==> HasResult(b, b.results[i].node);
    assert !HasResult(b, |b.results|);
  }

  lemma {:induction false} PrefixIsReference(nodes: seq<NodeSpec>, task: Task, b: Board, k: nat)
    requires Independent(nodes, task, b) && k <= |b.results| && k <= |nodes|
    requires forall m :: 0 <= m < |b.results| ==> b.results[m].node == m
    ensures RefEntries(nodes, task, k) == b.results[..k]
    decreases k
  {
    hide RefTask;
    if k > 0 {
      PrefixIsReference(nodes, task, b, k - 1);
      assert b.results[k - 1] == Entry(k - 1, b.results[k - 1].result);
      assert b.results[..k] == b.results[..k - 1] + [b.results[k - 1]];
    }
  }

  // ----- lookups do not depend on the order of results -----

  lemma {:induction false} FindFinds(nodes: seq<NodeSpec>, results: seq<Entry>, p: nat)
    requires Distinct(nodes) && InPhase(nodes, results) && p < |results|
    requires forall q, r :: 0 <= q < r < |results| ==> results[q].node != results[r].node
    ensures Find(nodes, results, nodes[results[p].node].key) == Some(results[p].result)
  {
    if p < |results| - 1 {
      var front := results[..|results| - 1];
      FindFinds(nodes, front, p);
      assert results[p].node != results[|results| - 1].node;
    }
  }

  predicate NoRepeats(results: seq<Entry>) {
    forall q, r :: 0 <= q < r < |results| ==> results[q].node != results[r].node
  }

  predicate Inside(a: seq<Entry>, b: seq<Entry>) {
    forall p :: 0 <= p < |a| ==> a[p] in b
  }

  lemma {:induction false} SameEntriesSameInputs(nodes: seq<NodeSpec>, i: nat, a: seq<Entry>, b: seq<Entry>)
    requires Distinct(nodes) && i < |nodes| && InPhase(nodes, a) && InPhase(nodes, b) && NoRepeats(a) && NoRepeats(b)
    requires Inside(a, b) && Inside(b, a) && !ReadsClaims(nodes[i])
    ensures InputsFor(nodes, i, a) == InputsFor(nodes, i, b)
  {
    hide ReadsClaims, Lookup, ResultKeys, Opponent, AllClaims, Distinct, NoRepeats, Inside;
    KeysInside(nodes, a, b);
    KeysInside(nodes, b, a);
    forall k | k in ResultKeys(nodes, a)
      ensures Lookup(nodes, a, k) == Lookup(nodes, b, k)
    {
      SameLookup(nodes, a, b, k);
    }
    var x, y := InputsFor(nodes, i, a), InputsFor(nodes, i, b);
    assert x.outputs == y.outputs;
    assert x.statuses == y.statuses;
    assert x.failures == y.failures;
  }

  lemma {:induction false} SameLookup(nodes: seq<NodeSpec>, a: seq<Entry>, b: seq<Entry>, k: string)
    requires Distinct(nodes) && InPhase(nodes, a) && InPhase(nodes, b) && NoRepeats(a) && NoRepeats(b) && Inside(a, b)
    requires k in ResultKeys(nodes, a)
    ensures Lookup(nodes, a, k) == Lookup(nodes, b, k)
  {
    hide Find, Distinct;
    var p :| 0 <= p < |a| && nodes[a[p].node].key == k;
    FindFinds(nodes, a, p);
    assert a[p] in b;
    var q :| 0 <= q < |b| && b[q] == a[p];
    FindFinds(nodes, b, q);
  }

  lemma {:induction false} KeysInside(nodes: seq<NodeSpec>, a: seq<Entry>, b: seq<Entry>)
    requires InPhase(nodes, a) && InPhase(nodes, b) && Inside(a, b)
    ensures ResultKeys(nodes, a) <= ResultKeys(nodes, b)
  {
    forall k | k in ResultKeys(nodes, a)
      ensures k in ResultKeys(nodes, b)
    {
      var p :| 0 <= p < |a| && nodes[a[p].node].key == k;
      assert a[p] in b;
    }
  }

  lemma {:induction false} RefEntriesFacts(nodes: seq<NodeSpec>, task: Task, i: nat)
    requires i <= |nodes|
    ensures NoRepeats(RefEntries(nodes, task, i))
    ensures forall e :: e in RefEntries(nodes, task, i) <==> e.node < i && RefTask(nodes, task, e.node) == Finished(e.result)
  {
    hide RefTask;
    if i > 0 {
      RefEntriesFacts(nodes, task, i - 1);
      var front, all := RefEntries(nodes, task, i - 1), RefEntries(nodes, task, i);
      assert forall p :: 0 <= p < |front| ==> front[p] in front;
    }
  }

  // ----- the turns -----

  /** Whatever has finished so far, a node that may be submitted is given its reference input. */
  lemma {:induction false} SubmitGetsReference(nodes: seq<NodeSpec>, limit: nat, task: Task, b: Board, i: nat)
    requires Distinct(nodes) && OrderedReaders(nodes) && Safe(nodes, limit, b) && Independent(nodes, task, b) && Causal(nodes, b)
    requires i in b.pending && i < |nodes| && Ready(nodes, b, i)
    ensures InputsFor(nodes, i, b.results) == RefInputs(nodes, task, i)
  {
    hide ReadsClaims, ReadsAgents, Reaches, RefTask, RefEntries, Opponent, AllClaims, Ready;
    if ReadsClaims(nodes[i]) || ReadsAgents(nodes[i]) {
      forall j: nat
        ensures HasResult(b, j) <==> j < i
      {
        ReaderSeesEarlier(nodes, limit, b, i, j);
      }
      if ReadsClaims(nodes[i]) {
        ClaimsComeInOrder(nodes, limit, task, b, i);
      } else {
        EarlierEntries(nodes, limit, task, b, i);
        SameEntriesSameInputs(nodes, i, b.results, RefEntries(nodes, task, i));
      }
    }
  }

  lemma {:induction false} ClaimsComeInOrder(nodes: seq<NodeSpec>, limit: nat, task: Task, b: Board, i: nat)
    requires Safe(nodes, limit, b) && Independent(nodes, task, b) && Causal(nodes, b) && i < |nodes|
    requires forall m :: 0 < m <= i ==> Follows(nodes, m)
    requires forall j: nat :: HasResult(b, j) <==> j < i
    ensures b.results == RefEntries(nodes, task, i)
  {
    hide Follows, RefTask, RefEntries, Safe, Causal, Independent;
    forall k | 0 <= k < |b.results|
      ensures b.results[k].node == k
    {
      ChainOrder(nodes, limit, b, i, k);
    }
    AllResultsCount(nodes, b, i);
    PrefixIsReference(nodes, task, b, i);
    assert b.results[..i] == b.results;
  }

  lemma {:induction false} EarlierEntries(nodes: seq<NodeSpec>, limit: nat, task: Task, b: Board, i: nat)
    requires Safe(nodes, limit, b) && Independent(nodes, task, b) && i < |nodes|
    requires forall j: nat :: HasResult(b, j) <==> j < i
    ensures NoRepeats(b.results) && NoRepeats(RefEntries(nodes, task, i))
    ensures Inside(b.results, RefEntries(nodes, task, i)) && Inside(RefEntries(nodes, task, i), b.results)
  {
    hide RefTask, RefEntries, RefInputs;
    var entries := RefEntries(nodes, task, i);
    RefEntriesFacts(nodes, task, i);
    forall p | 0 <= p < |b.results|
      ensures b.results[p] in entries
    {
      assert HasResult(b, b.results[p].node);
    }
    forall p | 0 <= p < |entries|
      ensures entries[p] in b.results
    {
      assert entries[p] in entries;
      assert HasResult(b, entries[p].node);
      var q :| 0 <= q < |b.results| && b.results[q].node == entries[p].node;
      assert b.results[q] == entries[p];
    }
  }

  lemma {:induction false} TurnIsIndependent(nodes: seq<NodeSpec>, limit: nat, task: Task, b: Board, t: Turn)
    requires Distinct(nodes) && OrderedReaders(nodes) && Safe(nodes, limit, b) && Legal(nodes, limit, b, t)
    requires Independent(nodes, task, b) && Causal(nodes, b)
    ensures var c := Make(nodes, limit, task, b, t); Independent(nodes, task, c) && Causal(nodes, c)
  {
    hide OrderedReaders, RefInputs, RefTask, InputsFor, Distinct, Without, Ready, NextUp, Safe;
    var c := Make(nodes, limit, task, b, t);
    match t
    case Cancel =>
    case Submit(i) =>
      SubmittedIsReady(nodes, limit, b, i);
      SubmitGetsReference(nodes, limit, task, b, i);
      WithoutRemoves(b.pending, i);
      assert forall p :: 0 <= p < |c.pending| ==> c.pending[p] in c.pending;
    case Collect(i) =>
      CollectIsCausal(nodes, limit, task, b, i);
      TaskOfReference(nodes, task, i);
  }

  lemma {:induction false} SubmittedIsReady(nodes: seq<NodeSpec>, limit: nat, b: Board, i: nat)
    requires Safe(nodes, limit, b) && Legal(nodes, limit, b, Submit(i))
    ensures i in b.pending && i < |nodes| && Ready(nodes, b, i) && Increasing(b.pending)
  {
  }

  lemma {:induction false} TaskOfReference(nodes: seq<NodeSpec>, task: Task, i: nat)
    requires i < |nodes|
    ensures RefTask(nodes, task, i) == task(i, RefInputs(nodes, task, i))
  {
  }

  lemma {:induction false} CollectIsCausal(nodes: seq<NodeSpec>, limit: nat, task: Task, b: Board, i: nat)
    requires Safe(nodes, limit, b) && Causal(nodes, b) && Legal(nodes, limit, b, Collect(i))
    ensures Causal(nodes, Make(nodes, limit, task, b, Collect(i)))
  {
    hide DependsOn, InputsFor;
    var c := Make(nodes, limit, task, b, Collect(i));
    assert b.results <= c.results;
    assert Submitted(b, i);
    forall p, j | 0 <= p < |c.results| && 0 <= j < |nodes| && DependsOn(nodes, c.results[p].node, j)
      ensures Before(c, p, j)
    {
      if p < |b.results| {
        assert c.results[p] == b.results[p];
        assert Before(b, p, j);
        var q :| 0 <= q < p && b.results[q].node == j;
        assert c.results[q].node == j;
      } else {
        assert HasResult(b, j);
        var q :| 0 <= q < |b.results| && b.results[q].node == j;
        assert c.results[q].node == j;
      }
    }
  }

  lemma {:induction false} StartIsIndependent(nodes: seq<NodeSpec>, task: Task)
    ensures Independent(nodes, task, Start(nodes)) && Causal(nodes, Start(nodes))
  {
    hide RefInputs, RefTask;
  }

  /** Schedule independence. In every board that any order of completions and any degree of parallelism leads to, each
      submitted node was given its reference input and each result is the reference result. */
  lemma {:induction false} RunIsIndependent(
    nodes: seq<NodeSpec>, limit: nat, task: Task, boards: seq<Board>, turns: seq<Turn>, k: nat)
    requires Distinct(nodes) && OrderedReaders(nodes) && Run(nodes, limit, task, boards, turns) && k <= |turns|
    ensures Independent(nodes, task, boards[k]) && Causal(nodes, boards[k])
  {
    hide Independent, Causal, Safe, Legal, Make, OrderedReaders, Distinct;
    if k == 0 {
      StartIsIndependent(nodes, task);
    } else {
      RunIsIndependent(nodes, limit, task, boards, turns, k - 1);
      RunIsSafe(nodes, limit, task, boards, turns, k - 1);
      assert boards[k - 1 + 1] == Make(nodes, limit, task, boards[k - 1], turns[k - 1]);
      TurnIsIndependent(nodes, limit, task, boards[k - 1], turns[k - 1]);
    }
  }

  /** The results in plan order, as the phase returns them. */
  function InOrder(results: seq<Entry>, n: nat): seq<Entry> {
    if n == 0 then [] else InOrder(results, n - 1) + EntryOf(results, n - 1)
  }

  function EntryOf(results: seq<Entry>, i: nat): seq<Entry> {
    if results == [] then []
    else if results[|results| - 1].node == i then [results[|results| - 1]]
    else EntryOf(results[..|results| - 1], i)
  }

  lemma {:induction false} EntryOfFinds(results: seq<Entry>, p: nat)
    requires p < |results| && NoRepeats(results)
    ensures EntryOf(results, results[p].node) == [results[p]]
  {
    if p < |results| - 1 {
      var front := results[..|results| - 1];
      assert results[p].node != results[|results| - 1].node;
      EntryOfFinds(front, p);
    }
  }

  /** A phase that ran through returns the sequential results, in plan order. */
  lemma {:induction false} CompleteBoardIsReference(nodes: seq<NodeSpec>, limit: nat, task: Task, b: Board, n: nat)
    requires Safe(nodes, limit, b) && Independent(nodes, task, b) && n <= |nodes|
    requires forall i :: 0 <= i < |nodes| ==> HasResult(b, i)
    ensures InOrder(b.results, n) == RefEntries(nodes, task, n) && |InOrder(b.results, n)| == n
  {
    hide RefTask, RefInputs, Ready, InputsFor, EntryOf;
    if n > 0 {
      CompleteBoardIsReference(nodes, limit, task, b, n - 1);
      assert HasResult(b, n - 1);
      var p :| 0 <= p < |b.results| && b.results[p].node == n - 1;
      EntryOfFinds(b.results, p);
      assert b.results[p] == Entry(n - 1, b.results[p].result);
    }
  }

  /** Nothing is left to do and nothing went wrong. */
  predicate Complete(nodes: seq<NodeSpec>, b: Board) {
    forall i :: 0 <= i < |nodes| ==> HasResult(b, i)
  }

  /** Any two runs of a phase that complete, under any two limits and orders of completion, return the same results and
      gave every node the same input. */
  lemma {:induction false} CompleteRunsAgree(
    nodes: seq<NodeSpec>, task: Task, limit1: nat, boards1: seq<Board>, turns1: seq<Turn>,
    limit2: nat, boards2: seq<Board>, turns2: seq<Turn>)
    requires Distinct(nodes) && OrderedReaders(nodes)
    requires Run(nodes, limit1, task, boards1, turns1) && Complete(nodes, boards1[|turns1|])
    requires Run(nodes, limit2, task, boards2, turns2) && Complete(nodes, boards2[|turns2|])
    ensures InOrder(boards1[|turns1|].results, |nodes|) == InOrder(boards2[|turns2|].results, |nodes|)
    ensures boards1[|turns1|].inputs == boards2[|turns2|].inputs
  {
    hide OrderedReaders, Distinct, Causal, Legal, Make, RefInputs, RefEntries, InOrder, DependsOn;
    var a, b := boards1[|turns1|], boards2[|turns2|];
    RunIsSafe(nodes, limit1, task, boards1, turns1, |turns1|);
    RunIsSafe(nodes, limit2, task, boards2, turns2, |turns2|);
    RunIsIndependent(nodes, limit1, task, boards1, turns1, |turns1|);
    RunIsIndependent(nodes, limit2, task, boards2, turns2, |turns2|);
    CompleteBoardIsReference(nodes, limit1, task, a, |nodes|);
    CompleteBoardIsReference(nodes, limit2, task, b, |nodes|);
    assert forall i :: 0 <= i < |nodes| ==> Submitted(a, i) && Submitted(b, i);
  }

  // ----- what the payloads hold -----

  /** A node that reads agents sees the output and status of every node with a result, and a warning for each that did not
      succeed. */
  lemma {:induction false} AgentsSeeEveryResult(nodes: seq<NodeSpec>, i: nat, results: seq<Entry>, p: nat)
    requires Distinct(nodes) && InPhase(nodes, results) && NoRepeats(results) && i < |nodes| && p < |results|
    requires ReadsAgents(nodes[i])
    ensures var key, result, inputs := nodes[results[p].node].key, results[p].result, InputsFor(nodes, i, results);
            && key in inputs.outputs && inputs.outputs[key] == result.output
            && key in inputs.statuses && inputs.statuses[key] == result.status
            && (key in inputs.failures <==> !Success(result.status))
            && (key in inputs.failures ==> inputs.failures[key] == result.warning)
            && inputs.outputs.Keys == ResultKeys(nodes, results)
  {
    hide ReadsClaims, Find, Opponent, AllClaims;
    FindFinds(nodes, results, p);
    assert nodes[results[p].node].key in ResultKeys(nodes, results);
  }

  /** A debate node whose only dependency is a debate node with a result answers that node's claims. */
  lemma {:induction false} OpponentIsPredecessor(
      nodes: seq<NodeSpec>, key: string, results: seq<Entry>, at: nat, upTo: nat)
    requires InPhase(nodes, results) && Find(nodes, results, key).Some?
    requires at < upTo <= |DEBATE_NODES| && DEBATE_NODES[at] == key
    ensures Opponent(nodes, [key], results, upTo) == ClaimsOf(Find(nodes, results, key).value)
    decreases upTo
  {
    hide Find, ClaimsOf;
    if at < upTo - 1 {
      if DEBATE_NODES[upTo - 1] != key {
        OpponentIsPredecessor(nodes, key, results, at, upTo - 1);
      }
    }
  }

  /** In the sequential debate, each round and the resolver answer the claims of the node right before them, and have all
      earlier claims in order. */
  lemma {:induction false} DebateAnswersPredecessor(nodes: seq<NodeSpec>, task: Task, i: nat, at: nat)
    requires 0 < i < |nodes| && Distinct(nodes)
    requires nodes[i].dependencies == [nodes[i - 1].key] && at < |DEBATE_NODES| && DEBATE_NODES[at] == nodes[i - 1].key
    requires RefTask(nodes, task, i - 1).Finished?
    ensures ReadsClaims(nodes[i]) ==> RefInputs(nodes, task, i).opponent == ClaimsOf(RefTask(nodes, task, i - 1).result)
    ensures ReadsClaims(nodes[i]) ==>
              RefInputs(nodes, task, i).prior == AllClaims(RefEntries(nodes, task, i - 1)) + ClaimsOf(RefTask(nodes, task, i - 1).result)
  {
    hide RefTask, ReadsClaims, Opponent, ClaimsOf;
    var entries, last := RefEntries(nodes, task, i), Entry(i - 1, RefTask(nodes, task, i - 1).result);
    assert entries == RefEntries(nodes, task, i - 1) + [last];
    assert entries[..|entries| - 1] == RefEntries(nodes, task, i - 1) && entries[|entries| - 1] == last;
    assert Find(nodes, entries, nodes[i - 1].key) == Some(last.result);
    OpponentIsPredecessor(nodes, nodes[i - 1].key, entries, at, |DEBATE_NODES|);
  }

  // ----- the phases of a built plan -----

  /** The LLM nodes of each phase of a validated plan: distinct keys, dependencies inside the phase lead backwards. */
  lemma {:induction false} ValidPhaseIsOrdered(phases: seq<PhaseSpec>, p: nat)
    requires WellFormed(phases) && p < |phases|
    ensures Ordered(LlmNodes(phases[p].nodes))
  {
    hide Topological, Ordered, Places, LlmNodes, Flatten;
    var nodes, start := phases[p].nodes, |Flatten(phases[..p])|;
    PhaseInPlan(phases, p);
    LlmPlaces(nodes);
    var places := Places(nodes);
    var place := seq(|places|, k requires 0 <= k < |places| => start + places[k]);
    ValidatedPhasesAreOrdered(Flatten(phases), LlmNodes(nodes), place);
  }

  lemma {:induction false} PhaseInPlan(phases: seq<PhaseSpec>, p: nat)
    requires p < |phases|
    ensures var start, nodes := |Flatten(phases[..p])|, phases[p].nodes;
            start + |nodes| <= |Flatten(phases)|
            && forall i :: 0 <= i < |nodes| ==> Flatten(phases)[start + i] == nodes[i]
  {
    hide Flatten;
    FlattenSplit(phases, p + 1);
    FlattenExtend(phases, p);
  }

  function Places(nodes: seq<NodeSpec>): seq<nat> {
    if nodes == [] then [] else Places(nodes[..|nodes| - 1]) + if nodes[|nodes| - 1].llm then [|nodes| - 1] else []
  }

  lemma {:induction false} LlmPlaces(nodes: seq<NodeSpec>)
    ensures |Places(nodes)| == |LlmNodes(nodes)|
    ensures forall k :: 0 <= k < |Places(nodes)| ==> Places(nodes)[k] < |nodes| && nodes[Places(nodes)[k]] == LlmNodes(nodes)[k]
    ensures forall j, k :: 0 <= j < k < |Places(nodes)| ==> Places(nodes)[j] < Places(nodes)[k]
  {
    if nodes != [] {
      LlmPlaces(nodes[..|nodes| - 1]);
    }
  }

  function LlmNodes(nodes: seq<NodeSpec>): seq<NodeSpec> {
    if nodes == [] then []
    else LlmNodes(nodes[..|nodes| - 1]) + if nodes[|nodes| - 1].llm then [nodes[|nodes| - 1]] else []
  }

  lemma {:induction false} AllLlm(nodes: seq<NodeSpec>)
    requires forall i :: 0 <= i < |nodes| ==> nodes[i].llm
    ensures LlmNodes(nodes) == nodes
  {
    if nodes != [] {
      AllLlm(nodes[..|nodes| - 1]);
    }
  }

  lemma {:induction false} ContainsLetters(text: string, part: string, c: char)
    requires Contains(text, part) && c in part
    ensures c in text
  {
    if text[..|part|] == part {
      assert c in text[..|part|];
    } else {
      ContainsLetters(text[1..], part, c);
    }
  }

  /** A key without an 'o' or without a 'd' is no debate round. */
  lemma {:induction false} NoRound(key: string)
    requires 'o' !in key || 'd' !in key
    ensures !Contains(key, "_round_")
  {
    assert "_round_"[2] == 'o' && "_round_"[5] == 'd';
    if Contains(key, "_round_") {
      ContainsLetters(key, "_round_", 'o');
      ContainsLetters(key, "_round_", 'd');
    }
  }

  predicate ReadsNothing(key: string) {
    !Contains(key, "_round_") && key != "claim_resolver" && key != "risk_synthesis"
  }

  lemma {:induction false} AnalystsLackLetter(role: string)
    requires role in ANALYST_ROLES
    ensures 'o' !in role || 'd' !in role
  {
    if role == "fundamentals_analyst" {
      assert 'o' !in "fundamentals_analyst";
    } else if role == "market_analyst" || role == "sentiment_analyst" || role == "news_analyst" {
      assert 'd' !in "market_analyst" && 'd' !in "sentiment_analyst" && 'd' !in "news_analyst";
    } else {
      assert 'd' !in "policy_analyst" && 'd' !in "capital_flow_analyst" && 'd' !in "lockup_supply_analyst";
    }
  }

  lemma {:induction false} AnalystsAreNoReaders(role: string)
    requires role in ANALYST_ROLES
    ensures |role| > 11 && (role[0] != 'c' || |role| > 14) && role[0] != 'r'
  {
  }

  lemma {:induction false} RisksLackLetter(role: string)
    requires role in RISK_ROLES
    ensures ('o' !in role || 'd' !in role) && |role| > 11 && (role[0] != 'c' || |role| > 14) && role[0] != 'r'
  {
    assert 'd' !in "aggressive_risk_agent" && 'd' !in "neutral_risk_agent" && 'd' !in "conservative_risk_agent";
  }

  lemma {:induction false} AnalystsReadNothing(role: string)
    requires role in ANALYST_ROLES || role in RISK_ROLES
    ensures ReadsNothing(role)
  {
    hide Contains;
    if role in ANALYST_ROLES {
      AnalystsLackLetter(role);
      AnalystsAreNoReaders(role);
    } else {
      RisksLackLetter(role);
    }
    NoRound(role);
    assert |"claim_resolver"| == 14 && "claim_resolver"[0] == 'c' && "risk_synthesis"[0] == 'r';
  }

  lemma {:induction false} RolesAreAnalysts(mode: AnalysisMode)
    ensures forall r :: r in Roles(mode) ==> r in ANALYST_ROLES
  {
    assert ANALYST_ROLES[0] == "market_analyst" && ANALYST_ROLES[2] == "news_analyst";
    assert ANALYST_ROLES[3] == "fundamentals_analyst" && ANALYST_ROLES[4] == "policy_analyst";
    assert ANALYST_ROLES[5] == "capital_flow_analyst";
  }

  lemma {:induction false} AnalystNodesAreAgents(mode: AnalysisMode, previous: seq<string>)
    ensures LlmNodes(AnalystNodes(mode, previous)) == Agents(Roles(mode), previous)
  {
    hide Roles;
    var agents, nodes := Agents(Roles(mode), previous), AnalystNodes(mode, previous);
    AllLlm(agents);
    assert if mode == Fast then nodes[..|nodes| - 1] == agents else nodes == agents;
  }

  lemma {:induction false} AnalystsAreOrdered(mode: AnalysisMode, previous: seq<string>)
    ensures OrderedReaders(LlmNodes(AnalystNodes(mode, previous)))
  {
    hide Contains, Roles, LlmNodes, AnalystNodes;
    var agents := Agents(Roles(mode), previous);
    RolesAreAnalysts(mode);
    AnalystNodesAreAgents(mode, previous);
    forall i | 0 <= i < |agents|
      ensures !ReadsClaims(agents[i]) && !ReadsAgents(agents[i])
    {
      assert Roles(mode)[i] in Roles(mode);
      AnalystsReadNothing(agents[i].key);
    }
  }

  lemma {:induction false} DebateIsNoSynthesis(key: string)
    requires key in DEBATE_NODES
    ensures key != "risk_synthesis"
  {
    assert key[0] != 'r';
  }

  lemma {:induction false} DebateIsOrdered(previous: seq<string>)
    ensures OrderedReaders(LlmNodes(Debate(previous)))
  {
    var nodes := Debate(previous);
    DebateIsChain(previous);
    hide Contains, Debate, LlmNodes, ReadsClaims, DependsOn;
    AllLlm(nodes);
    forall i, j | 0 <= i < j < |nodes|
      ensures Reaches(nodes, j, i)
    {
      ChainReaches(nodes, j, i);
    }
    forall i | 0 <= i < |nodes|
      ensures !ReadsAgents(nodes[i])
    {
      DebateIsNoSynthesis(nodes[i].key);
    }
  }

  lemma {:induction false} DebateIsChain(previous: seq<string>)
    ensures forall k :: 0 < k < |Debate(previous)| ==> Follows(Debate(previous), k)
    ensures forall k :: 0 <= k < |Debate(previous)| ==> Debate(previous)[k].llm && Debate(previous)[k].key in DEBATE_NODES
  {
    var nodes := Debate(previous);
    assert forall k :: 0 < k < |nodes| ==> nodes[k].dependencies == [nodes[k - 1].key];
    assert forall k :: 0 <= k < |nodes| ==> nodes[k].key == DEBATE_NODES[k];
  }

  lemma {:induction false} RisksAreOrdered(previous: seq<string>)
    ensures OrderedReaders(LlmNodes(RiskNodes(previous)))
  {
    hide Contains;
    var nodes := RiskNodes(previous);
    AllLlm(nodes);
    assert |nodes| == 4 && nodes[3].dependencies == RISK_ROLES;
    forall i | 0 <= i < 3
      ensures !ReadsClaims(nodes[i]) && !ReadsAgents(nodes[i])
      ensures Reaches(nodes, 3, i)
    {
      assert nodes[i].key == RISK_ROLES[i];
      AnalystsReadNothing(nodes[i].key);
      assert DependsOn(nodes, 3, i);
    }
    assert 'o' !in "risk_synthesis";
    NoRound("risk_synthesis");
  }

  /** In every phase the coordinator runs, of every plan the builder makes, whoever reads results is ordered against all others. */
  lemma {:induction false} BuiltPhasesAreOrdered(mode: AnalysisMode, source: PhaseSpec, previous: seq<string>)
    requires Coordinated(source.key)
    ensures OrderedReaders(LlmNodes(PhaseNodes(mode, source, previous)))
  {
    hide OrderedReaders, LlmNodes, AnalystNodes, Debate, RiskNodes;
    AnalystsAreOrdered(mode, previous);
    DebateIsOrdered(previous);
    RisksAreOrdered(previous);
  }

  // ----- what the nodes of a built plan are given -----

  /** The claims that a result reports: the list under "claims", or none at all. */
  predicate Reports(output: Option<Json>, claims: seq<Json>) {
    match output
    case None => claims == []
    case Some(json) =>
      json.Obj? && if HasKey(json.fields, "claims") then Get(json.fields, "claims") == Arr(claims) else claims == []
  }

  function Joined(lists: seq<seq<Json>>): seq<Json> {
    if lists == [] then [] else Joined(lists[..|lists| - 1]) + lists[|lists| - 1]
  }

  lemma {:induction false} ReportedClaims(result: E.NodeResult, claims: seq<Json>)
    requires Reports(result.output, claims)
    ensures ClaimsOf(result) == claims
  {
  }

  lemma {:induction false} ReportedByAll(nodes: seq<NodeSpec>, task: Task, k: nat, claims: seq<seq<Json>>)
    requires k <= |nodes| && |claims| == k
    requires forall j :: 0 <= j < k ==>
               RefTask(nodes, task, j).Finished? && Reports(RefTask(nodes, task, j).result.output, claims[j])
    ensures |RefEntries(nodes, task, k)| == k && AllClaims(RefEntries(nodes, task, k)) == Joined(claims)
    ensures forall j :: 0 <= j < k ==> RefEntries(nodes, task, k)[j] == Entry(j, RefTask(nodes, task, j).result)
    decreases k
  {
    hide RefTask, Reports, ClaimsOf;
    if k > 0 {
      ReportedByAll(nodes, task, k - 1, claims[..k - 1]);
      ReportedClaims(RefTask(nodes, task, k - 1).result, claims[k - 1]);
      var entries := RefEntries(nodes, task, k);
      assert entries == RefEntries(nodes, task, k - 1) + [Entry(k - 1, RefTask(nodes, task, k - 1).result)];
      assert entries[..k - 1] == RefEntries(nodes, task, k - 1);
    }
  }

  lemma {:induction false} ContainsAt(text: string, part: string, at: nat)
    requires at + |part| <= |text| && text[at..at + |part|] == part
    ensures Contains(text, part)
  {
    if at > 0 {
      assert text[1..][at - 1..at - 1 + |part|] == part;
      ContainsAt(text[1..], part, at - 1);
    }
  }

  lemma {:induction false} DebateReadsClaims(previous: seq<string>, k: nat)
    requires k < |Debate(previous)|
    ensures ReadsClaims(Debate(previous)[k]) && |Debate(previous)| == 5
  {
    hide Contains;
    if k < 4 {
      assert DEBATE_NODES[k][4..11] == "_round_";
      ContainsAt(DEBATE_NODES[k], "_round_", 4);
    }
  }

  /** In the debate of every built plan, whatever its nodes return: each is given the claims of all nodes before it, in order, and
      answers those of the node right before it. */
  lemma {:induction false} DebateIsGivenClaims(previous: seq<string>, task: Task, k: nat, claims: seq<seq<Json>>)
    requires k < 5 && |claims| == k
    requires forall j :: 0 <= j < k ==>
               |Debate(previous)| == 5
               && RefTask(Debate(previous), task, j).Finished?
               && Reports(RefTask(Debate(previous), task, j).result.output, claims[j])
    ensures LlmNodes(Debate(previous)) == Debate(previous) && |Debate(previous)| == 5
    ensures var inputs := RefInputs(Debate(previous), task, k);
            inputs.prior == Joined(claims) && (k > 0 ==> inputs.opponent == claims[k - 1])
            && (k == 0 ==> inputs.opponent == [])
  {
    hide RefTask, ReadsClaims, Contains, Opponent, Reports, LlmNodes, RefEntries, Debate;
    var nodes := Debate(previous);
    assert |nodes| == 5 by { DebateHasFive(previous); }
    DebateReadsClaims(previous, k);
    DebateIsChain(previous);
    AllLlm(nodes);
    ReportedByAll(nodes, task, k, claims);
    if k == 0 {
      NoOpponent(nodes, nodes[0].dependencies, |DEBATE_NODES|);
    } else {
      DebateKeys(previous, k);
      ReportedClaims(RefTask(nodes, task, k - 1).result, claims[k - 1]);
      LastIsFound(nodes, RefEntries(nodes, task, k));
      OpponentIsPredecessor(nodes, nodes[k - 1].key, RefEntries(nodes, task, k), k - 1, |DEBATE_NODES|);
    }
  }

  lemma {:induction false} DebateHasFive(previous: seq<string>)
    ensures |Debate(previous)| == 5
  {
  }

  lemma {:induction false} DebateKeys(previous: seq<string>, k: nat)
    requires 0 < k < 5
    ensures |Debate(previous)| == 5 && Debate(previous)[k - 1].key == DEBATE_NODES[k - 1]
    ensures Debate(previous)[k].dependencies == [Debate(previous)[k - 1].key]
  {
  }

  lemma {:induction false} LastIsFound(nodes: seq<NodeSpec>, results: seq<Entry>)
    requires InPhase(nodes, results) && results != []
    ensures Find(nodes, results, nodes[results[|results| - 1].node].key) == Some(results[|results| - 1].result)
  {
  }

  lemma {:induction false} NoOpponent(nodes: seq<NodeSpec>, dependencies: seq<string>, upTo: nat)
    requires upTo <= |DEBATE_NODES|
    ensures Opponent(nodes, dependencies, [], upTo) == []
    decreases upTo
  {
    if upTo > 0 {
      NoOpponent(nodes, dependencies, upTo - 1);
    }
  }

  /** Analysts and risk agents are given no claims, and analysts and the three risk agents no results of others either. */
  lemma {:induction false} OthersAreGivenNoClaims(mode: AnalysisMode, previous: seq<string>, task: Task, i: nat)
    ensures var nodes := LlmNodes(AnalystNodes(mode, previous));
            i < |nodes| ==> RefInputs(nodes, task, i) == Inputs([], [], map[], map[], map[])
    ensures var nodes := LlmNodes(RiskNodes(previous));
            |nodes| == 4 && (i < 4 ==> RefInputs(nodes, task, i).prior == [] && RefInputs(nodes, task, i).opponent == [])
            && (i < 3 ==> RefInputs(nodes, task, i) == Inputs([], [], map[], map[], map[]))
  {
    hide Contains, Roles, LlmNodes, AnalystNodes, RefTask, RefEntries, AllClaims, Opponent;
    var agents, risks := Agents(Roles(mode), previous), RiskNodes(previous);
    RolesAreAnalysts(mode);
    AnalystNodesAreAgents(mode, previous);
    AllLlm(risks);
    if i < |agents| {
      assert Roles(mode)[i] in Roles(mode);
      AnalystsReadNothing(agents[i].key);
    }
    if i < 3 {
      assert risks[i].key == RISK_ROLES[i];
      AnalystsReadNothing(risks[i].key);
    }
    assert 'o' !in "risk_synthesis";
    NoRound("risk_synthesis");
    assert "risk_synthesis"[0] == 'r' && "claim_resolver"[0] == 'c';
  }

  /** The risk synthesis is given what each risk agent returned, under the agent's key: its output, its status and, unless it
      succeeded, its warning. */
  lemma {:induction false} SynthesisIsGivenAgents(previous: seq<string>, task: Task, j: nat)
    requires j < 3
    ensures var nodes := RiskNodes(previous);
            |nodes| == 4 && LlmNodes(nodes) == nodes
            && (RefTask(nodes, task, j).Finished? ==>
                  var key, result, inputs := RISK_ROLES[j], RefTask(nodes, task, j).result, RefInputs(nodes, task, 3);
                  && key in inputs.outputs && inputs.outputs[key] == result.output
                  && key in inputs.statuses && inputs.statuses[key] == result.status
                  && (key in inputs.failures <==> result.status !in {Succeeded, Completed})
                  && (key in inputs.failures ==> inputs.failures[key] == result.warning))
  {
    hide Contains, RefTask, RefEntries, AllClaims, Opponent, LlmNodes, Find, ReadsClaims;
    var nodes := RiskNodes(previous);
    AllLlm(nodes);
    assert Distinct(nodes) by { RisksAreDistinct(previous); }
    if RefTask(nodes, task, j).Finished? {
      RefEntriesFacts(nodes, task, 3);
      var entries := RefEntries(nodes, task, 3);
      var e := Entry(j, RefTask(nodes, task, j).result);
      assert e in entries;
      var p :| 0 <= p < |entries| && entries[p] == e;
      AgentsSeeEveryResult(nodes, 3, entries, p);
    }
  }

  lemma {:induction false} RisksAreDistinct(previous: seq<string>)
    ensures Distinct(RiskNodes(previous))
  {
    assert RISK_ROLES[0][0] == 'a' && RISK_ROLES[1][0] == 'n' && RISK_ROLES[2][0] == 'c' && "risk_synthesis"[0] == 'r';
  }

  /** Every phase of a built plan that the coordinator runs is fit for it. */
  lemma {:induction false} BuiltPhaseIsFit(mode: AnalysisMode, sources: seq<PhaseSpec>, p: nat)
    requires WellFormed(Build(mode, sources)) && p < |Build(mode, sources)|
    ensures Ordered(LlmNodes(Build(mode, sources)[p].nodes))
    ensures Coordinated(Build(mode, sources)[p].key) ==> OrderedReaders(LlmNodes(Build(mode, sources)[p].nodes))
  {
    hide WellFormed, LlmNodes, OrderedReaders, PhaseNodes;
    ValidPhaseIsOrdered(Build(mode, sources), p);
    var source, previous := BuiltFrom(mode, sources, p);
    if Coordinated(source.key) {
      BuiltPhasesAreOrdered(mode, source, previous);
    }
  }

  /** Each phase of a built plan is made from one source phase. */
  lemma {:induction false} BuiltFrom(mode: AnalysisMode, sources: seq<PhaseSpec>, p: nat)
      returns (source: PhaseSpec, previous: seq<string>)
    requires p < |Build(mode, sources)|
    ensures var phase := Build(mode, sources)[p]; phase.key == source.key && phase.nodes == PhaseNodes(mode, source, previous)
  {
    hide PhaseNodes;
    BuildPrefix(mode, sources);
    var before := Build(mode, sources[..|sources| - 1]);
    if p < |before| {
      source, previous := BuiltFrom(mode, sources[..|sources| - 1], p);
    } else {
      source, previous := sources[|sources| - 1], Last(before);
    }
  }
}
