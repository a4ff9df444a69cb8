/** The coordinator of one phase as a board of nodes: what may move when, and what no schedule can change. */
module Schedule {
  import opened Json
  import opened Workflow
  import opened Plan
  import opened Execution

  datatype Entry = Entry(node: nat, result: NodeResult)

  /** What a submitted node is given besides the frozen evidence. */
  datatype Inputs = Inputs(
    prior: seq<Json>,
    opponent: seq<Json>,
    outputs: map<string, Option<Json>>,
    statuses: map<string, NodeStatus>,
    failures: map<string, Option<string>>)

  datatype TaskResult = Finished(result: NodeResult) | Broke(exc: Exc)

  /** A node's whole execution, as a function of the node and its input. */
  type Task = (nat, Inputs) -> TaskResult

  /** `failed` are the nodes whose execution raised; `inputs` remembers what each submitted node was given. */
  datatype Board = Board(
    pending: seq<nat>, running: set<nat>, results: seq<Entry>, failed: set<nat>, error: Option<Exc>, inputs: map<nat, Inputs>)

  datatype Turn = Cancel | Submit(node: nat) | Collect(node: nat)

  // ----- what a node reads -----

  predicate Contains(text: string, part: string) {
    |text| >= |part| && (text[..|part|] == part || (text != [] && Contains(text[1..], part)))
  }

  predicate ReadsClaims(node: NodeSpec) {
    Contains(node.key, "_round_") || node.key == "claim_resolver"
  }

  predicate ReadsAgents(node: NodeSpec) {
    node.key == "risk_synthesis"
  }

  function ClaimsOf(result: NodeResult): seq<Json> {
    if result.output.Some? && result.output.value.Obj? && Get(result.output.value.fields, "claims").Arr?
    then Get(result.output.value.fields, "claims").items else []
  }

  function AllClaims(results: seq<Entry>): seq<Json> {
    if results == [] then [] else AllClaims(results[..|results| - 1]) + ClaimsOf(results[|results| - 1].result)
  }

  predicate InPhase(nodes: seq<NodeSpec>, results: seq<Entry>) {
    forall p :: 0 <= p < |results| ==> results[p].node < |nodes|
  }

  function Find(nodes: seq<NodeSpec>, results: seq<Entry>, key: string): Option<NodeResult>
    requires InPhase(nodes, results)
  {
    if results == [] then None
    else
      var last := results[|results| - 1];
      if nodes[last.node].key == key then Some(last.result) else Find(nodes, results[..|results| - 1], key)
  }

  /** The claims of the latest debate node that this one depends on and that has a result. */
  function Opponent(nodes: seq<NodeSpec>, dependencies: seq<string>, results: seq<Entry>, upTo: nat): seq<Json>
    requires InPhase(nodes, results) && upTo <= |DEBATE_NODES|
  {
    if upTo == 0 then []
    else
      var found := Find(nodes, results, DEBATE_NODES[upTo - 1]);
      if DEBATE_NODES[upTo - 1] in dependencies && found.Some? then ClaimsOf(found.value)
      else Opponent(nodes, dependencies, results, upTo - 1)
  }

  function ResultKeys(nodes: seq<NodeSpec>, results: seq<Entry>): set<string>
    requires InPhase(nodes, results)
  {
    set p | 0 <= p < |results| :: nodes[results[p].node].key
  }

  function Lookup(nodes: seq<NodeSpec>, results: seq<Entry>, key: string): NodeResult
    requires InPhase(nodes, results)
  {
    var found := Find(nodes, results, key);
    if found.Some? then found.value else NodeResult(Pending, None, false, false, None, None, 0)
  }

  function InputsFor(nodes: seq<NodeSpec>, i: nat, results: seq<Entry>): Inputs
    requires i < |nodes| && InPhase(nodes, results)
  {
    var claims, agents := ReadsClaims(nodes[i]), ReadsAgents(nodes[i]);
    var keys := if agents then ResultKeys(nodes, results) else {};
    Inputs(
      if claims then AllClaims(results) else [],
      if claims then Opponent(nodes, nodes[i].dependencies, results, |DEBATE_NODES|) else [],
      map k | k in keys :: Lookup(nodes, results, k).output,
      map k | k in keys :: Lookup(nodes, results, k).status,
      map k | k in keys && !Success(Lookup(nodes, results, k).status) :: Lookup(nodes, results, k).warning)
  }

  // ----- the turns -----

  predicate HasResult(b: Board, node: nat) {
    exists p :: 0 <= p < |b.results| && b.results[p].node == node
  }

  /** Every dependency inside the phase has a result; those outside it do not count here. */
  predicate Ready(nodes: seq<NodeSpec>, b: Board, i: nat)
    requires i < |nodes|
  {
    forall j :: 0 <= j < |nodes| && DependsOn(nodes, i, j) ==> HasResult(b, j)
  }

  function Start(nodes: seq<NodeSpec>): Board {
    Board(seq(|nodes|, i requires 0 <= i < |nodes| => i), {}, [], {}, None, map[])
  }

  predicate InBounds(nodes: seq<NodeSpec>, b: Board) {
    (forall p :: 0 <= p < |b.pending| ==> b.pending[p] < |nodes|) && InPhase(nodes, b.results)
  }

  /** The first pending node that is ready, in plan order, is the next to be submitted. */
  predicate NextUp(nodes: seq<NodeSpec>, b: Board, p: nat)
    requires InBounds(nodes, b) && p < |b.pending|
  {
    Ready(nodes, b, b.pending[p]) && forall q :: 0 <= q < p ==> !Ready(nodes, b, b.pending[q])
  }

  predicate Legal(nodes: seq<NodeSpec>, limit: nat, b: Board, t: Turn) {
    InBounds(nodes, b)
    && match t
       case Cancel => true
       case Submit(i) =>
         b.error.None? && |b.running| < limit && exists p :: 0 <= p < |b.pending| && b.pending[p] == i && NextUp(nodes, b, p)
       case Collect(i) => i in b.running && i in b.inputs
  }

  function Without(pending: seq<nat>, i: nat): seq<nat> {
    if pending == [] then [] else if pending[0] == i then pending[1..] else [pending[0]] + Without(pending[1..], i)
  }

  function Make(nodes: seq<NodeSpec>, limit: nat, task: Task, b: Board, t: Turn): Board
    requires Legal(nodes, limit, b, t)
  {
    match t
    case Cancel => b.(error := Some(JobCancelled))
    case Submit(i) =>
      b.(pending := Without(b.pending, i), running := b.running + {i}, inputs := b.inputs[i := InputsFor(nodes, i, b.results)])
    case Collect(i) =>
      match task(i, b.inputs[i])
      case Finished(result) => b.(running := b.running - {i}, results := b.results + [Entry(i, result)])
      case Broke(exc) =>
        b.(running := b.running - {i}, failed := b.failed + {i}, error := if b.error.Some? then b.error else Some(exc))
  }

  /** A run of the coordinator: the boards it goes through and the turns between them. */
  ghost predicate Run(nodes: seq<NodeSpec>, limit: nat, task: Task, boards: seq<Board>, turns: seq<Turn>) {
    |boards| == |turns| + 1 && boards[0] == Start(nodes)
    && forall k :: 0 <= k < |turns| ==>
         Legal(nodes, limit, boards[k], turns[k]) && boards[k + 1] == Make(nodes, limit, task, boards[k], turns[k])
  }

  // ----- safety -----

  predicate Distinct(nodes: seq<NodeSpec>) {
    forall i, j :: 0 <= i < j < |nodes| ==> nodes[i].key != nodes[j].key
  }

  /** The nodes of one phase of a validated plan: distinct keys, dependencies inside the phase lead backwards. */
  predicate Ordered(nodes: seq<NodeSpec>) {
    Distinct(nodes) && forall i, j :: 0 <= i < |nodes| && 0 <= j < |nodes| && DependsOn(nodes, i, j) ==> j < i
  }

  predicate Submitted(b: Board, i: nat) {
    i in b.running || HasResult(b, i) || i in b.failed
  }

  predicate Increasing(pending: seq<nat>) {
    forall p, q :: 0 <= p < q < |pending| ==> pending[p] < pending[q]
  }

  ghost predicate Safe(nodes: seq<NodeSpec>, limit: nat, b: Board) {
    && InBounds(nodes, b) && Increasing(b.pending) && |b.running| <= limit
    // pending, running, results and failed share out the nodes of the phase
    && (forall i :: 0 <= i < |nodes| ==> (i in b.pending <==> !Submitted(b, i)))
    && (forall i :: i in b.running ==> i < |nodes| && !HasResult(b, i) && i !in b.failed)
    && (forall i :: i in b.failed ==> i < |nodes| && !HasResult(b, i))
    && (forall p, q :: 0 <= p < q < |b.results| ==> b.results[p].node != b.results[q].node)
    && (forall i :: i in b.inputs <==> Submitted(b, i))
    // a node starts only after all its dependencies inside the phase have results
    && (forall i :: 0 <= i < |nodes| && Submitted(b, i) ==> Ready(nodes, b, i))
    && (b.failed != {} ==> b.error.Some?)
  }

  lemma {:induction false} WithoutRemoves(pending: seq<nat>, i: nat)
    requires Increasing(pending) && i in pending
    ensures Increasing(Without(pending, i)) && |Without(pending, i)| == |pending| - 1
    ensures forall k :: k in Without(pending, i) <==> k in pending && k != i
  {
    if pending[0] != i {
      var rest := pending[1..];
      assert forall k :: k in pending <==> k == pending[0] || k in rest;
      WithoutRemoves(rest, i);
      var left := Without(pending, i);
      assert left == [pending[0]] + Without(rest, i);
      assert forall k :: k in left <==> k == pending[0] || k in Without(rest, i);
      forall p, q | 0 <= p < q < |left|
        ensures left[p] < left[q]
      {
        assert left[q] in Without(rest, i);
        assert left[q] in rest;
      }
    } else {
      assert forall k :: k in pending <==> k == i || k in pending[1..];
    }
  }

  lemma {:induction false} StartIsSafe(nodes: seq<NodeSpec>, limit: nat)
    ensures Safe(nodes, limit, Start(nodes))
  {
    var b := Start(nodes);
    forall i | 0 <= i < |nodes|
      ensures i in b.pending
    {
      assert b.pending[i] == i;
    }
  }

  lemma {:induction false} SubmitIsSafe(nodes: seq<NodeSpec>, limit: nat, task: Task, b: Board, i: nat)
    requires Safe(nodes, limit, b) && Legal(nodes, limit, b, Submit(i))
    ensures Safe(nodes, limit, Make(nodes, limit, task, b, Submit(i)))
  {
    hide InputsFor, Ready, Without, Increasing;
    var c := Make(nodes, limit, task, b, Submit(i));
    WithoutRemoves(b.pending, i);
    assert forall k :: HasResult(c, k) <==> HasResult(b, k);
    assert forall p :: 0 <= p < |c.pending| ==> c.pending[p] in c.pending;
    ReadyGrows(nodes, b, c);
  }

  lemma {:induction false} ResultAdded(b: Board, c: Board, e: Entry, i: nat)
    requires c.results == b.results + [e]
    ensures HasResult(c, i) <==> HasResult(b, i) || i == e.node
  {
    assert c.results[|b.results|] == e;
    if HasResult(b, i) {
      var p :| 0 <= p < |b.results| && b.results[p].node == i;
      assert c.results[p].node == i;
    }
  }

  lemma {:induction false} CollectIsSafe(nodes: seq<NodeSpec>, limit: nat, task: Task, b: Board, i: nat)
    requires Safe(nodes, limit, b) && Legal(nodes, limit, b, Collect(i))
    ensures Safe(nodes, limit, Make(nodes, limit, task, b, Collect(i)))
  {
    hide InputsFor, Ready, Increasing;
    var c := Make(nodes, limit, task, b, Collect(i));
    assert |c.running| == |b.running| - 1;
    match task(i, b.inputs[i])
    case Finished(result) =>
      forall k
        ensures HasResult(c, k) <==> HasResult(b, k) || k == i
      {
        ResultAdded(b, c, Entry(i, result), k);
      }
      ReadyGrows(nodes, b, c);
    case Broke(_) =>
      assert forall k :: HasResult(c, k) <==> HasResult(b, k);
      ReadyGrows(nodes, b, c);
  }

  lemma {:induction false} ReadyGrows(nodes: seq<NodeSpec>, b: Board, c: Board)
    requires forall k :: HasResult(b, k) ==> HasResult(c, k)
    ensures forall k :: 0 <= k < |nodes| && Ready(nodes, b, k) ==> Ready(nodes, c, k)
  {
  }

  lemma {:induction false} TurnIsSafe(nodes: seq<NodeSpec>, limit: nat, task: Task, b: Board, t: Turn)
    requires Safe(nodes, limit, b) && Legal(nodes, limit, b, t)
    ensures Safe(nodes, limit, Make(nodes, limit, task, b, t))
  {
    match t
    case Cancel => ReadyGrows(nodes, b, b.(error := Some(JobCancelled)));
    case Submit(i) => SubmitIsSafe(nodes, limit, task, b, i);
    case Collect(i) => CollectIsSafe(nodes, limit, task, b, i);
  }

  /** Coordinator safety: every board a phase goes through is safe. */
  lemma {:induction false} RunIsSafe(
      nodes: seq<NodeSpec>, limit: nat, task: Task, boards: seq<Board>, turns: seq<Turn>, k: nat)
    requires Run(nodes, limit, task, boards, turns) && k <= |turns|
    ensures Safe(nodes, limit, boards[k])
  {
    hide Safe, Legal, Make;
    if k == 0 {
      StartIsSafe(nodes, limit);
    } else {
      RunIsSafe(nodes, limit, task, boards, turns, k - 1);
      assert boards[k - 1 + 1] == Make(nodes, limit, task, boards[k - 1], turns[k - 1]);
      TurnIsSafe(nodes, limit, task, boards[k - 1], turns[k - 1]);
    }
  }

  /** Once an error or a cancel is recorded, it stays and nothing more is submitted. */
  lemma {:induction false} NothingSubmittedAfterError(
    nodes: seq<NodeSpec>, limit: nat, task: Task, boards: seq<Board>, turns: seq<Turn>, k: nat, m: nat)
    requires Run(nodes, limit, task, boards, turns) && k <= m <= |turns| && boards[k].error.Some?
    ensures boards[m].error.Some? && boards[m].inputs == boards[k].inputs && boards[m].pending == boards[k].pending
    decreases m
  {
    hide InputsFor, NextUp, InBounds, Without;
    if k < m {
      NothingSubmittedAfterError(nodes, limit, task, boards, turns, k, m - 1);
      assert boards[m - 1 + 1] == Make(nodes, limit, task, boards[m - 1], turns[m - 1]);
    }
  }

  /** Deadlock freedom: with nothing running and no error, some pending node is ready. */
  lemma {:induction false} SomethingIsReady(nodes: seq<NodeSpec>, limit: nat, b: Board)
    requires Ordered(nodes) && Safe(nodes, limit, b) && b.error.None? && b.running == {} && b.pending != []
    ensures NextUp(nodes, b, 0)
  {
    var i := b.pending[0];
    forall j | 0 <= j < |nodes| && DependsOn(nodes, i, j)
      ensures HasResult(b, j)
    {
      assert j < i;
      assert j !in b.pending;
    }
  }

  /** What is left to do; every submission and every collection makes it smaller. */
  function Left(b: Board): nat {
    2 * |b.pending| + |b.running|
  }

  lemma {:induction false} TurnsUseUpWork(nodes: seq<NodeSpec>, limit: nat, task: Task, b: Board, t: Turn)
    requires Safe(nodes, limit, b) && Legal(nodes, limit, b, t) && !t.Cancel?
    ensures Left(Make(nodes, limit, task, b, t)) < Left(b)
  {
    hide InputsFor, Ready;
    if t.Submit? {
      WithoutRemoves(b.pending, t.node);
      assert t.node !in b.running;
    }
  }

  /** Distinct keys and backward dependencies are what validation guarantees, for any part of a phase. */
  lemma {:induction false} ValidatedPhasesAreOrdered(all: seq<NodeSpec>, nodes: seq<NodeSpec>, place: seq<nat>)
    requires Topological(all) && |place| == |nodes|
    requires forall i :: 0 <= i < |nodes| ==> place[i] < |all| && all[place[i]] == nodes[i]
    requires forall i, j :: 0 <= i < j < |nodes| ==> place[i] < place[j]
    ensures Ordered(nodes)
  {
    hide Topological;
    forall i, j | 0 <= i < j < |nodes|
      ensures nodes[i].key != nodes[j].key
    {
      KeysAreDistinct(all, place[i], place[j]);
    }
    forall i, j | 0 <= i < |nodes| && 0 <= j < |nodes| && DependsOn(nodes, i, j)
      ensures j < i
    {
      DependencyIsEarlier(all, place[i], place[j]);
    }
  }
}
