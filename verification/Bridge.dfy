/** The coordinator and the run over time meet here: what the coordinator hands a node is built from the outputs of the nodes
    it depends on, which is all that a run over time lets a payload depend on. */
module Bridge {
  import opened Json
  import opened Workflow
  import opened Plan
  import E = Execution
  import opened Schedule
  import opened Independence
  import P = Protocol

  /** The result of a node that did not give up. */
  function Plain(enabled: bool, output: Option<Json>): E.NodeResult {
    E.NodeResult(if enabled then Succeeded else Skipped, output, false, false, None, None, 0)
  }

  /** As far as a reader can tell, this is the result of a node that did not give up. */
  predicate LooksPlain(enabled: bool, result: E.NodeResult) {
    result.status == (if enabled then Succeeded else Skipped) && (!enabled ==> result.warning == None)
  }

  predicate NoneGaveUp(w: P.World, start: nat, results: seq<Entry>) {
    forall p :: 0 <= p < |results| ==> LooksPlain(w.enabled(start + results[p].node), results[p].result)
  }

  /** The results of the first n nodes of a phase, rebuilt from the outputs alone. The phase begins at node `start`. */
  function Entries(w: P.World, start: nat, n: nat, outputs: map<nat, Option<Json>>): (entries: seq<Entry>)
    ensures forall p :: 0 <= p < |entries| ==> entries[p].node < n
  {
    if n == 0 then []
    else
      var at := start + n - 1;
      Entries(w, start, n - 1, outputs) + if at in outputs then [Entry(n - 1, Plain(w.enabled(at), outputs[at]))] else []
  }

  /** What the coordinator gives node i of a phase, as a function of nothing but outputs. */
  function FromOutputs(w: P.World, start: nat, nodes: seq<NodeSpec>, i: nat, outputs: map<nat, Option<Json>>): Inputs
    requires i < |nodes|
  {
    InputsFor(nodes, i, Entries(w, start, i, outputs))
  }

  /** The nodes of one phase, within the plan of the whole run. */
  predicate PhaseAt(w: P.World, start: nat, nodes: seq<NodeSpec>)
    requires start + |nodes| <= |w.nodes|
  {
    forall k :: 0 <= k < |nodes| ==> w.nodes[start + k] == nodes[k]
  }

  function Output(outputs: map<nat, Option<Json>>, at: nat): Option<Json> {
    if at in outputs then outputs[at] else None
  }

  /** The outputs of the phase that are in are those on the board. */
  predicate SameOutputs(start: nat, nodes: seq<NodeSpec>, b: Board, outputs: map<nat, Option<Json>>) {
    && (forall j: nat :: j < |nodes| && start + j in outputs ==> HasResult(b, j))
    && forall p :: 0 <= p < |b.results| ==>
         start + b.results[p].node in outputs && Output(outputs, start + b.results[p].node) == b.results[p].result.output
  }

  // ----- reaching inside a phase is reaching in the plan -----

  lemma {:induction false} ReachesInPhase(w: P.World, start: nat, nodes: seq<NodeSpec>, i: nat, j: nat)
    requires start + |nodes| <= |w.nodes| && PhaseAt(w, start, nodes) && i < |nodes| && j < |nodes|
    ensures Reaches(w.nodes, start + i, start + j) <==> Reaches(nodes, i, j)
    decreases i
  {
    forall m | j < m < i
      ensures Reaches(w.nodes, start + m, start + j) <==> Reaches(nodes, m, j)
      ensures DependsOn(w.nodes, start + i, start + m) <==> DependsOn(nodes, i, m)
    {
      ReachesInPhase(w, start, nodes, m, j);
    }
    assert DependsOn(w.nodes, start + i, start + j) <==> DependsOn(nodes, i, j);
    if Reaches(nodes, i, j) && !DependsOn(nodes, i, j) {
      var m :| j < m < i && DependsOn(nodes, i, m) && Reaches(nodes, m, j);
      assert DependsOn(w.nodes, start + i, start + m) && Reaches(w.nodes, start + m, start + j);
    }
    if Reaches(w.nodes, start + i, start + j) && !DependsOn(nodes, i, j) {
      var at :| start + j < at < start + i && DependsOn(w.nodes, start + i, at) && Reaches(w.nodes, at, start + j);
      assert DependsOn(nodes, i, at - start) && Reaches(nodes, at - start, j);
    }
  }

  // ----- what a reader can tell -----

  /** No reader can tell these results apart. */
  predicate Alike(x: E.NodeResult, y: E.NodeResult) {
    x.output == y.output && x.status == y.status && (!Success(x.status) ==> x.warning == y.warning)
  }

  predicate AllAlike(a: seq<Entry>, b: seq<Entry>) {
    |a| == |b| && forall p :: 0 <= p < |a| ==> a[p].node == b[p].node && Alike(a[p].result, b[p].result)
  }

  lemma {:induction false} FrontsAlike(a: seq<Entry>, b: seq<Entry>)
    requires AllAlike(a, b) && a != []
    ensures AllAlike(a[..|a| - 1], b[..|b| - 1])
    ensures a[|a| - 1].node == b[|b| - 1].node && Alike(a[|a| - 1].result, b[|b| - 1].result)
  {
    hide Alike;
  }

  lemma {:induction false} AlikeClaims(x: E.NodeResult, y: E.NodeResult)
    requires Alike(x, y)
    ensures ClaimsOf(x) == ClaimsOf(y)
  {
  }

  lemma {:induction false} AlikeAllClaims(a: seq<Entry>, b: seq<Entry>)
    requires AllAlike(a, b)
    ensures AllClaims(a) == AllClaims(b)
  {
    hide Alike, AllAlike, ClaimsOf;
    AlikeLengths(a, b);
    if a != [] {
      FrontsAlike(a, b);
      AlikeAllClaims(a[..|a| - 1], b[..|b| - 1]);
      AlikeClaims(a[|a| - 1].result, b[|b| - 1].result);
    }
  }

  lemma {:induction false} AlikeLengths(a: seq<Entry>, b: seq<Entry>)
    requires AllAlike(a, b)
    ensures |a| == |b|
  {
  }

  lemma {:induction false} AlikeFind(nodes: seq<NodeSpec>, a: seq<Entry>, b: seq<Entry>, key: string)
    requires InPhase(nodes, a) && InPhase(nodes, b) && AllAlike(a, b)
    ensures Find(nodes, a, key).Some? == Find(nodes, b, key).Some?
    ensures Find(nodes, a, key).Some? ==> Alike(Find(nodes, a, key).value, Find(nodes, b, key).value)
  {
    hide Alike, AllAlike;
    AlikeLengths(a, b);
    if a != [] {
      FrontsAlike(a, b);
      AlikeFind(nodes, a[..|a| - 1], b[..|b| - 1], key);
    }
  }

  lemma {:induction false} AlikeOpponent(
      nodes: seq<NodeSpec>, dependencies: seq<string>, a: seq<Entry>, b: seq<Entry>, upTo: nat)
    requires InPhase(nodes, a) && InPhase(nodes, b) && AllAlike(a, b) && upTo <= |DEBATE_NODES|
    ensures Opponent(nodes, dependencies, a, upTo) == Opponent(nodes, dependencies, b, upTo)
    decreases upTo
  {
    hide Find, Alike, AllAlike, ClaimsOf, InPhase;
    if upTo > 0 {
      AlikeFind(nodes, a, b, DEBATE_NODES[upTo - 1]);
      if Find(nodes, a, DEBATE_NODES[upTo - 1]).Some? {
        AlikeClaims(Find(nodes, a, DEBATE_NODES[upTo - 1]).value, Find(nodes, b, DEBATE_NODES[upTo - 1]).value);
      }
      AlikeOpponent(nodes, dependencies, a, b, upTo - 1);
    }
  }

  lemma {:induction false} AlikeKeys(nodes: seq<NodeSpec>, a: seq<Entry>, b: seq<Entry>)
    requires InPhase(nodes, a) && InPhase(nodes, b) && AllAlike(a, b)
    ensures ResultKeys(nodes, a) == ResultKeys(nodes, b)
  {
    hide Alike;
  }

  lemma {:induction false} AlikeLookup(nodes: seq<NodeSpec>, a: seq<Entry>, b: seq<Entry>, key: string)
    requires InPhase(nodes, a) && InPhase(nodes, b) && AllAlike(a, b)
    ensures Alike(Lookup(nodes, a, key), Lookup(nodes, b, key))
  {
    hide Find, AllAlike;
    AlikeFind(nodes, a, b, key);
  }

  /** Results alike make the same input. */
  lemma {:induction false} AlikeInputs(nodes: seq<NodeSpec>, i: nat, a: seq<Entry>, b: seq<Entry>)
    requires InPhase(nodes, a) && InPhase(nodes, b) && AllAlike(a, b) && i < |nodes|
    ensures InputsFor(nodes, i, a) == InputsFor(nodes, i, b)
  {
    hide Lookup, AllAlike, InPhase, Opponent, AllClaims, ReadsClaims, ReadsAgents, ResultKeys;
    AlikeAllClaims(a, b);
    AlikeOpponent(nodes, nodes[i].dependencies, a, b, |DEBATE_NODES|);
    AlikeKeys(nodes, a, b);
    forall k
      ensures Alike(Lookup(nodes, a, k), Lookup(nodes, b, k))
    {
      AlikeLookup(nodes, a, b, k);
    }
    var x, y := InputsFor(nodes, i, a), InputsFor(nodes, i, b);
    assert x.outputs == y.outputs;
    assert x.statuses == y.statuses;
    assert x.failures == y.failures;
  }

  function Plained(w: P.World, start: nat, results: seq<Entry>): (plain: seq<Entry>) {
    seq(|results|, p requires 0 <= p < |results| =>
      Entry(results[p].node, Plain(w.enabled(start + results[p].node), results[p].result.output)))
  }

  lemma {:induction false} PlainedIsAlike(w: P.World, start: nat, results: seq<Entry>)
    requires NoneGaveUp(w, start, results)
    ensures AllAlike(results, Plained(w, start, results))
  {
    forall p | 0 <= p < |results|
      ensures Alike(results[p].result, Plained(w, start, results)[p].result)
    {
      assert LooksPlain(w.enabled(start + results[p].node), results[p].result);
    }
  }

  // ----- the bridge -----

  lemma {:induction false} EntriesAreAll(w: P.World, start: nat, n: nat, outputs: map<nat, Option<Json>>)
    requires forall at :: start <= at < start + n ==> at in outputs
    ensures var entries := Entries(w, start, n, outputs);
            |entries| == n && forall j :: 0 <= j < n ==> entries[j] == Entry(j, Plain(w.enabled(start + j), Output(outputs, start + j)))
  {
    if n > 0 {
      EntriesAreAll(w, start, n - 1, outputs);
    }
  }

  /** A reader sees the outputs of all nodes before it in the phase. */
  lemma {:induction false} ReaderReachesEarlier(w: P.World, start: nat, nodes: seq<NodeSpec>, i: nat, j: nat)
    requires start + |nodes| <= |w.nodes| && PhaseAt(w, start, nodes) && OrderedReaders(nodes) && j < i < |nodes|
    requires ReadsClaims(nodes[i]) || ReadsAgents(nodes[i])
    ensures Reaches(w.nodes, start + i, start + j)
  {
    hide ReadsClaims, ReadsAgents, Reaches;
    ReachesInPhase(w, start, nodes, i, j);
    if ReadsClaims(nodes[i]) {
      ChainReaches(nodes, i, j);
    }
  }

  lemma {:induction false} ReaderGetsVisible(
      w: P.World, start: nat, nodes: seq<NodeSpec>, limit: nat, b: Board, i: nat, outputs: map<nat, Option<Json>>)
    requires start + |nodes| <= |w.nodes| && PhaseAt(w, start, nodes) && Distinct(nodes) && OrderedReaders(nodes)
    requires Safe(nodes, limit, b) && Causal(nodes, b) && i < |nodes| && i in b.pending && Ready(nodes, b, i)
    requires NoneGaveUp(w, start, b.results) && SameOutputs(start, nodes, b, outputs)
    requires ReadsClaims(nodes[i]) || ReadsAgents(nodes[i])
    ensures InputsFor(nodes, i, Plained(w, start, b.results))
            == FromOutputs(w, start, nodes, i, P.Visible(w, start + i, outputs))
  {
    hide ReadsClaims, ReadsAgents, Reaches, OrderedReaders, Distinct, Causal, InputsFor, Ready, LooksPlain, PhaseAt, Plain,
      Entries, Follows, DependsOn, NoneGaveUp;
    var visible := P.Visible(w, start + i, outputs);
    var plain, entries := Plained(w, start, b.results), Entries(w, start, i, visible);
    forall j: nat
      ensures HasResult(b, j) <==> j < i
    {
      ReaderSeesEarlier(nodes, limit, b, i, j);
    }
    forall at | start <= at < start + i
      ensures at in visible && Output(visible, at) == Output(outputs, at)
    {
      ReaderReachesEarlier(w, start, nodes, i, at - start);
      assert HasResult(b, at - start);
    }
    EntriesAreAll(w, start, i, visible);
    if ReadsClaims(nodes[i]) {
      assert forall m :: 0 < m <= i ==> Follows(nodes, m) by { ClaimsFollow(nodes, i); }
      forall k | 0 <= k < |b.results|
        ensures b.results[k].node == k
      {
        ChainOrder(nodes, limit, b, i, k);
      }
      AllResultsCount(nodes, b, i);
      assert plain == entries;
    } else {
      SameEntries(w, start, b, i, plain, entries, outputs);
      SameEntriesSameInputs(nodes, i, plain, entries);
    }
  }

  lemma {:induction false} ClaimsFollow(nodes: seq<NodeSpec>, i: nat)
    requires OrderedReaders(nodes) && i < |nodes| && ReadsClaims(nodes[i])
    ensures forall m :: 0 < m <= i ==> Follows(nodes, m)
  {
    hide ReadsClaims, ReadsAgents, Reaches;
  }

  lemma {:induction false} SameEntries(
      w: P.World, start: nat, b: Board, i: nat, plain: seq<Entry>, entries: seq<Entry>, outputs: map<nat, Option<Json>>)
    requires plain == Plained(w, start, b.results) && |entries| == i && NoRepeats(b.results)
    requires forall j: nat :: HasResult(b, j) <==> j < i
    requires forall p :: 0 <= p < |b.results| ==>
               start + b.results[p].node in outputs && Output(outputs, start + b.results[p].node) == b.results[p].result.output
    requires forall j :: 0 <= j < i ==> entries[j] == Entry(j, Plain(w.enabled(start + j), Output(outputs, start + j)))
    ensures NoRepeats(plain) && NoRepeats(entries) && Inside(plain, entries) && Inside(entries, plain)
  {
    forall p | 0 <= p < |plain|
      ensures plain[p] in entries
    {
      assert HasResult(b, b.results[p].node);
      assert plain[p] == entries[b.results[p].node];
    }
    forall j | 0 <= j < |entries|
      ensures entries[j] in plain
    {
      assert HasResult(b, j);
      var p :| 0 <= p < |b.results| && b.results[p].node == j;
      assert plain[p] == entries[j];
    }
  }

  /** In every legal run of a phase in which no node gives up, a node that may be submitted finds every node it reaches inside
      the phase finished, and what the coordinator gives it is a function of the outputs visible to it. */
  lemma {:induction false} CoordinatorGivesVisible(
      w: P.World, start: nat, nodes: seq<NodeSpec>, limit: nat, task: Task, boards: seq<Board>, turns: seq<Turn>, k: nat,
      i: nat, outputs: map<nat, Option<Json>>)
    requires start + |nodes| <= |w.nodes| && PhaseAt(w, start, nodes) && Distinct(nodes) && OrderedReaders(nodes)
    requires Run(nodes, limit, task, boards, turns) && k < |turns| && turns[k] == Submit(i)
    requires NoneGaveUp(w, start, boards[k].results) && SameOutputs(start, nodes, boards[k], outputs)
    ensures i < |nodes|
            && InputsFor(nodes, i, boards[k].results) == FromOutputs(w, start, nodes, i, P.Visible(w, start + i, outputs))
    ensures forall j: nat :: start <= j < start + i && Reaches(w.nodes, start + i, j) ==> j in outputs
  {
    hide ReadsClaims, ReadsAgents, Reaches, OrderedReaders, Distinct, Causal, Safe, Make, LooksPlain, PhaseAt, Independent,
      SameOutputs, NoneGaveUp, Ready;
    var b := boards[k];
    RunIsSafe(nodes, limit, task, boards, turns, k);
    RunIsIndependent(nodes, limit, task, boards, turns, k);
    SubmittedIsReady(nodes, limit, b, i);
    PlainedIsAlike(w, start, b.results);
    AlikeInputs(nodes, i, b.results, Plained(w, start, b.results));
    if ReadsClaims(nodes[i]) || ReadsAgents(nodes[i]) {
      ReaderGetsVisible(w, start, nodes, limit, b, i, outputs);
    }
    forall j: nat | start <= j < start + i && Reaches(w.nodes, start + i, j)
      ensures j in outputs
    {
      ReachedHasOutput(w, start, nodes, limit, b, i, j, outputs);
    }
  }

  lemma {:induction false} ReachedHasOutput(
      w: P.World, start: nat, nodes: seq<NodeSpec>, limit: nat, b: Board, i: nat, j: nat, outputs: map<nat, Option<Json>>)
    requires start + |nodes| <= |w.nodes| && PhaseAt(w, start, nodes) && i < |nodes|
    requires Safe(nodes, limit, b) && Ready(nodes, b, i)
    requires start <= j < start + i && Reaches(w.nodes, start + i, j)
    requires SameOutputs(start, nodes, b, outputs)
    ensures j in outputs
  {
    hide Reaches, Ready, Safe, PhaseAt;
    ReachesInPhase(w, start, nodes, i, j - start);
    ReachedHasResult(nodes, limit, b, i, j - start);
    var p :| 0 <= p < |b.results| && b.results[p].node == j - start;
  }
}
