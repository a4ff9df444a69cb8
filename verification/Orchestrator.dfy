/** `AgentOrchestrator.execute_phase`: a bounded pool of node executions under one coordinator loop. */
module Orchestrator {
  import opened Workflow
  import opened Plan
  import opened Schedule
  import opened Independence

  /** What the outside does, poll by poll: whether the job is cancelled, and which executions have finished. */
  datatype Surroundings = Surroundings(cancelled: nat -> bool, finished: nat -> seq<nat>)

  /** Every execution finishes eventually. */
  ghost predicate Fair(nodes: seq<NodeSpec>, s: Surroundings) {
    forall i: nat, t: nat :: i < |nodes| ==> Due(s, i, t)
  }

  ghost predicate Due(s: Surroundings, i: nat, t: nat) {
    exists u: nat :: u >= t && i in s.finished(u)
  }

  datatype PhaseOutcome = PhaseResults(entries: seq<Entry>) | PhaseRaised(exc: Exc) | DependenciesNotComplete

  /** The pending nodes that are ready, in plan order. */
  function ReadyAmong(nodes: seq<NodeSpec>, b: Board, pending: seq<nat>): seq<nat>
    requires forall p :: 0 <= p < |pending| ==> pending[p] < |nodes|
  {
    if pending == [] then []
    else (if Ready(nodes, b, pending[0]) then [pending[0]] else []) + ReadyAmong(nodes, b, pending[1..])
  }

  /** The first of them is the next to be submitted, and once it is gone the others remain. */
  lemma {:induction false} FirstReady(nodes: seq<NodeSpec>, b: Board, pending: seq<nat>) returns (p: nat)
    requires Increasing(pending) && forall q :: 0 <= q < |pending| ==> pending[q] < |nodes|
    requires ReadyAmong(nodes, b, pending) != []
    ensures p < |pending| && pending[p] == ReadyAmong(nodes, b, pending)[0] && Ready(nodes, b, pending[p])
    ensures forall q :: 0 <= q < p ==> !Ready(nodes, b, pending[q])
    ensures var rest := Without(pending, pending[p]);
            (forall q :: 0 <= q < |rest| ==> rest[q] < |nodes|)
            && ReadyAmong(nodes, b, rest) == ReadyAmong(nodes, b, pending)[1..]
  {
    hide Ready;
    if Ready(nodes, b, pending[0]) {
      p := 0;
    } else {
      var q := FirstReady(nodes, b, pending[1..]);
      p := q + 1;
      var rest := Without(pending[1..], pending[p]);
      assert pending[0] != pending[p];
      assert Without(pending, pending[p]) == [pending[0]] + rest;
      assert Without(pending, pending[p])[1..] == rest;
    }
  }

  lemma {:induction false} ReadyIgnoresSubmissions(nodes: seq<NodeSpec>, b: Board, c: Board, pending: seq<nat>)
    requires b.results == c.results && forall q :: 0 <= q < |pending| ==> pending[q] < |nodes|
    ensures ReadyAmong(nodes, b, pending) == ReadyAmong(nodes, c, pending)
  {
    hide DependsOn;
    if pending != [] {
      assert forall j :: HasResult(b, j) <==> HasResult(c, j);
      ReadyIgnoresSubmissions(nodes, b, c, pending[1..]);
    }
  }

  /** No execution of the sequential reference raises. */
  predicate AllReturn(nodes: seq<NodeSpec>, task: Task) {
    forall i :: 0 <= i < |nodes| ==> RefTask(nodes, task, i).Finished?
  }

  class Coordinator {
    const nodes: seq<NodeSpec>
    const limit: nat
    const task: Task
    var pending: seq<nat>
    var running: set<nat>
    var results: seq<Entry>
    var error: Option<Exc>
    var given: map<nat, Inputs>
    ghost var failed: set<nat>
    ghost var boards: seq<Board>
    ghost var turns: seq<Turn>

    ghost function View(): Board
      reads this
    {
      Board(pending, running, results, failed, error, given)
    }

    /** The fields are where a legal run of the board has led. */
    ghost predicate Valid()
      reads this
    {
      Run(nodes, limit, task, boards, turns) && boards[|turns|] == View() && Safe(nodes, limit, View())
    }

    constructor (phase: PhaseSpec, limit: nat, task: Task)
      ensures Valid() && nodes == LlmNodes(phase.nodes) && this.limit == limit && this.task == task
      ensures View() == Start(nodes)
    {
      var llm := LlmNodes(phase.nodes);
      nodes, this.limit, this.task := llm, limit, task;
      pending := seq(|llm|, i requires 0 <= i < |llm| => i);
      running, results, error, given, failed := {}, [], None, map[], {};
      boards, turns := [Start(llm)], [];
      StartIsSafe(llm, limit);
    }

    ghost method Log(t: Turn, before: Board)
      requires Run(nodes, limit, task, boards, turns) && boards[|turns|] == before && Safe(nodes, limit, before)
      requires Legal(nodes, limit, before, t) && View() == Make(nodes, limit, task, before, t)
      modifies this`boards, this`turns
      ensures Valid() && turns == old(turns) + [t]
    {
      hide Legal, Make, Safe;
      TurnIsSafe(nodes, limit, task, before, t);
      boards, turns := boards + [View()], turns + [t];
    }

    method SeeCancel()
      requires Valid()
      modifies this
      ensures Valid() && View() == old(View()).(error := Some(JobCancelled))
    {
      ghost var before := View();
      error := Some(JobCancelled);
      Log(Cancel, before);
    }

    method SubmitNode(i: nat)
      requires Valid() && Legal(nodes, limit, View(), Submit(i))
      modifies this
      ensures Valid()
      ensures View() == Make(nodes, limit, task, old(View()), Submit(i))
    {
      ghost var before := View();
      given := given[i := InputsFor(nodes, i, results)];
      hide Safe, Legal;
      running := running + {i};
      pending := Without(pending, i);
      Log(Submit(i), before);
    }

    /** One finished execution: its result is kept, or its exception becomes the error unless there is one already. */
    method CollectNode(i: nat)
      requires Valid() && i in running
      modifies this
      ensures Valid() && Legal(nodes, limit, old(View()), Collect(i))
      ensures View() == Make(nodes, limit, task, old(View()), Collect(i))
    {
      ghost var before := View();
      CanCollect(nodes, limit, before, i);
      hide Safe, Legal;
      running := running - {i};
      match task(i, given[i]) {
        case Finished(result) =>
          results := results + [Entry(i, result)];
        case Broke(exc) =>
          error := if error.Some? then error else Some(exc);
          failed := failed + {i};
      }
      Log(Collect(i), before);
    }

    /** Submits the first ready node. */
    method SubmitReady(i: nat)
      requires Valid() && error.None? && |running| < limit
      requires ReadyAmong(nodes, View(), pending) != [] && ReadyAmong(nodes, View(), pending)[0] == i
      modifies this
      ensures Valid() && error.None? && failed == old(failed) && results == old(results)
      ensures Left(View()) < Left(old(View())) && |running| == old(|running|) + 1 && running != {}
      ensures forall q :: 0 <= q < |pending| ==> pending[q] < |nodes|
      ensures ReadyAmong(nodes, View(), pending) == old(ReadyAmong(nodes, View(), pending))[1..]
    {
      ghost var before := View();
      ghost var p := FirstReady(nodes, before, pending);
      FirstReadyIsNext(nodes, limit, before, p);
      SubmitNode(i);
      Admitted(nodes, limit, task, before, i);
      ReadyIgnoresSubmissions(nodes, before, View(), pending);
    }

    /** Submits ready nodes in plan order while the pool has room. */
    method AdmitReady()
      requires Valid() && error.None?
      modifies this
      ensures Valid() && error.None? && failed == old(failed) && results == old(results)
      ensures (running == old(running) && Left(View()) == Left(old(View()))) || Left(View()) < Left(old(View()))
      ensures |running| >= limit || ReadyAmong(nodes, View(), pending) == []
    {
      assert InBounds(nodes, View()) && |running| <= limit;
      hide Safe, Run, ReadyAmong, Left;
      var seen := Board(pending, running, results, {}, error, given);
      var ready := ReadyAmong(nodes, seen, pending);
      ReadyIgnoresSubmissions(nodes, seen, View(), pending);
      var slots := if limit < |running| then 0 else limit - |running|;
      var k := 0;
      while k < |ready| && k < slots
        invariant 0 <= k <= |ready| && k <= slots
        invariant Valid() && error.None? && failed == old(failed) && results == old(results)
        invariant slots == limit - |running| + k
        invariant forall q :: 0 <= q < |pending| ==> pending[q] < |nodes|
        invariant ReadyAmong(nodes, View(), pending) == ready[k..]
        invariant (running == old(running) && Left(View()) == Left(old(View()))) || Left(View()) < Left(old(View()))
      {
        SubmitReady(ready[k]);
        k := k + 1;
      }
    }

    /** The coordinator handles every execution the wait reported, in whatever order. */
    method CollectFinished(done: seq<nat>)
      requires Valid()
      modifies this
      ensures Valid() && pending == old(pending)
      ensures (running == old(running) && Left(View()) == Left(old(View()))) || Left(View()) < Left(old(View()))
      ensures (exists k :: 0 <= k < |done| && done[k] in old(running)) ==> Left(View()) < Left(old(View()))
      ensures error.Some? ==> old(error).Some? || failed != {}
      ensures old(error).Some? ==> error.Some?
      ensures old(failed) <= failed
    {
      hide Make, Legal, Safe;
      for k := 0 to |done|
        invariant Valid() && pending == old(pending) && running <= old(running)
        invariant (running == old(running) && Left(View()) == Left(old(View()))) || Left(View()) < Left(old(View()))
        invariant (exists j :: 0 <= j < k && done[j] in old(running)) ==> Left(View()) < Left(old(View()))
        invariant error.Some? ==> old(error).Some? || failed != {}
        invariant old(error).Some? ==> error.Some?
        invariant old(failed) <= failed
      {
        if done[k] in running {
          ghost var before := View();
          CollectNode(done[k]);
          Collected(nodes, limit, task, before, done[k]);
        }
      }
    }

    /** One pass of the loop: see a cancel, submit what is ready, wait, and handle what has finished. */
    method Pass(s: Surroundings, poll: nat) returns (over: bool)
      requires Valid() && Ordered(nodes) && limit >= 1
      modifies this
      ensures Valid()
      ensures over ==> running == {} && (error.Some? || pending == [])
      ensures !over ==>
                Left(View()) < Left(old(View()))
                || (Left(View()) == Left(old(View())) && running == old(running) != {} && !AnyDue(s, poll, running))
      ensures error.Some? ==> old(error).Some? || failed != {} || s.cancelled(poll)
      ensures old(failed) <= failed
      ensures Left(View()) <= Left(old(View()))
    {
      hide Safe, Make, Legal, Ready, Ordered;
      if s.cancelled(poll) {
        SeeCancel();
      }
      if error.None? {
        AdmitReady();
      }
      if running == {} {
        if error.None? {
          NoDeadlock(nodes, limit, View());
          if pending != [] {
            // "workflow_dependency_deadlock" is never raised
            assert false;
          }
        }
        return true;
      }
      CollectFinished(s.finished(poll));
      return false;
    }

    /** The coordinator loop. It ends, having drained the pool, and never deadlocks. When the readers of results are
        ordered, it returns the sequential results in plan order, and raises only after a cancel or a failed execution. */
    method ExecutePhase(
        phase: PhaseSpec, stages: map<string, StageStatus>, s: Surroundings) returns (outcome: PhaseOutcome)
      requires Valid() && View() == Start(nodes) && Ordered(nodes) && limit >= 1 && Fair(nodes, s)
      modifies this
      ensures Valid() && running == {}
      ensures outcome.DependenciesNotComplete? <==>
              exists d :: d in phase.dependencies && !(d in stages && stages[d] == StageCompleted)
      ensures !outcome.DependenciesNotComplete? ==> (outcome.PhaseRaised? <==> error.Some?)
      ensures outcome.PhaseRaised? ==> Some(outcome.exc) == error
      ensures outcome.PhaseResults? ==> Complete(nodes, View()) && outcome.entries == InOrder(results, |nodes|)
      ensures OrderedReaders(nodes) && outcome.PhaseResults? ==>
                outcome.entries == RefEntries(nodes, task, |nodes|) && |outcome.entries| == |nodes|
      ensures OrderedReaders(nodes) && AllReturn(nodes, task) && (forall t: nat :: !s.cancelled(t)) ==> !outcome.PhaseRaised?
    {
      assert Distinct(nodes);
      hide Safe, RefTask, Ordered, Left, OrderedReaders, Fair, RefEntries, Legal, Make;
      if exists d :: d in phase.dependencies && !(d in stages && stages[d] == StageCompleted) {
        return DependenciesNotComplete;
      }
      RunToEnd(s);
      if OrderedReaders(nodes) {
        RunIsIndependent(nodes, limit, task, boards, turns, |turns|);
      }
      if error.Some? {
        return PhaseRaised(error.value);
      }
      Drained(nodes, limit, View());
      if OrderedReaders(nodes) {
        CompleteBoardIsReference(nodes, limit, task, View(), |nodes|);
      }
      return PhaseResults(InOrder(results, |nodes|));
    }

    method RunToEnd(s: Surroundings)
      requires Valid() && Ordered(nodes) && limit >= 1 && Fair(nodes, s) && error.None? && running == {}
      modifies this
      ensures Valid() && running == {} && (error.Some? || pending == [])
      ensures (forall t: nat :: !s.cancelled(t)) && error.Some? ==> failed != {}
    {
      hide Safe, Ordered, Left, Fair;
      var poll: nat, over: bool := 0, false;
      ghost var due: nat := 0;
      while !over && (pending != [] || running != {})
        invariant Valid()
        invariant running != {} ==> poll <= due && AnyDue(s, due, running)
        invariant over ==> running == {} && (error.Some? || pending == [])
        invariant (forall t: nat :: !s.cancelled(t)) && error.Some? ==> failed != {}
        decreases !over, Left(View()), due - poll
      {
        ghost var before := Left(View());
        over := Pass(s, poll);
        poll := poll + 1;
        if Left(View()) < before && running != {} {
          due := NextDue(nodes, limit, s, View(), poll);
        }
      }
    }
  }

  ghost predicate AnyDue(s: Surroundings, t: nat, running: set<nat>) {
    exists k :: 0 <= k < |s.finished(t)| && s.finished(t)[k] in running
  }

  /** Among running executions, one finishes at some later poll. */
  lemma {:induction false} NextDue(
      nodes: seq<NodeSpec>, limit: nat, s: Surroundings, b: Board, t: nat) returns (due: nat)
    requires Fair(nodes, s) && Safe(nodes, limit, b) && b.running != {}
    ensures due >= t && AnyDue(s, due, b.running)
  {
    var i :| i in b.running;
    assert Due(s, i, t);
    due :| due >= t && i in s.finished(due);
  }

  lemma {:induction false} NoDeadlock(nodes: seq<NodeSpec>, limit: nat, b: Board)
    requires Ordered(nodes) && Safe(nodes, limit, b) && b.error.None? && b.running == {}
    requires ReadyAmong(nodes, b, b.pending) == []
    ensures b.pending == []
  {
    hide Ordered, Ready;
    if b.pending != [] {
      SomethingIsReady(nodes, limit, b);
    }
  }

  lemma {:induction false} Drained(nodes: seq<NodeSpec>, limit: nat, b: Board)
    requires Safe(nodes, limit, b) && b.error.None? && b.running == {} && b.pending == []
    ensures Complete(nodes, b)
  {
    assert b.failed == {};
    forall i | 0 <= i < |nodes|
      ensures HasResult(b, i)
    {
      assert i !in b.pending && Submitted(b, i);
    }
  }

  lemma {:induction false} Collected(nodes: seq<NodeSpec>, limit: nat, task: Task, b: Board, i: nat)
    requires Safe(nodes, limit, b) && Legal(nodes, limit, b, Collect(i))
    ensures var c := Make(nodes, limit, task, b, Collect(i));
            c.pending == b.pending && c.running == b.running - {i} && Left(c) < Left(b)
            && (c.error.Some? ==> b.error.Some? || c.failed != {}) && (b.error.Some? ==> c.error.Some?) && b.failed <= c.failed
  {
  }

  lemma {:induction false} CanCollect(nodes: seq<NodeSpec>, limit: nat, b: Board, i: nat)
    requires Safe(nodes, limit, b) && i in b.running
    ensures Legal(nodes, limit, b, Collect(i))
  {
  }

  lemma {:induction false} FirstReadyIsNext(nodes: seq<NodeSpec>, limit: nat, b: Board, p: nat)
    requires Safe(nodes, limit, b) && b.error.None? && |b.running| < limit && p < |b.pending|
    requires Ready(nodes, b, b.pending[p]) && forall q :: 0 <= q < p ==> !Ready(nodes, b, b.pending[q])
    ensures Legal(nodes, limit, b, Submit(b.pending[p]))
  {
    assert NextUp(nodes, b, p);
  }

  lemma {:induction false} Admitted(nodes: seq<NodeSpec>, limit: nat, task: Task, b: Board, i: nat)
    requires Safe(nodes, limit, b) && Legal(nodes, limit, b, Submit(i))
    ensures var c := Make(nodes, limit, task, b, Submit(i));
            c.results == b.results && c.error == b.error && c.failed == b.failed && Left(c) < Left(b)
            && c.running == b.running + {i} && i !in b.running && c.pending == Without(b.pending, i)
  {
    TurnsUseUpWork(nodes, limit, task, b, Submit(i));
    assert i in b.pending && !Submitted(b, i);
  }

  /** The plan is built, and one of its coordinator phases is run: whatever the source table, the pool size and the order in
      which executions finish, the phase returns the sequential results, and raises only after a cancel or a failed execution. */
  method RunBuiltPhase(
      mode: AnalysisMode, sources: seq<PhaseSpec>, p: nat, limit: nat, task: Task, stages: map<string, StageStatus>, s: Surroundings)
      returns (outcome: Option<PhaseOutcome>)
    requires p < |Build(mode, sources)| && Coordinated(Build(mode, sources)[p].key) && limit >= 1
    requires Fair(LlmNodes(Build(mode, sources)[p].nodes), s)
    ensures outcome.Some? <==>
            WellFormed(Build(mode, sources)) && forall i :: 0 <= i < |sources| ==> !LacksVerdict(mode, sources[i])
    ensures var nodes := LlmNodes(Build(mode, sources)[p].nodes);
            && (outcome.Some? && outcome.value.PhaseResults? ==>
                  outcome.value.entries == RefEntries(nodes, task, |nodes|) && |outcome.value.entries| == |nodes|)
            && (outcome.Some? && AllReturn(nodes, task) && (forall t: nat :: !s.cancelled(t)) ==> !outcome.value.PhaseRaised?)
    ensures outcome.Some? ==>
              (outcome.value.DependenciesNotComplete? <==>
               exists d :: d in Build(mode, sources)[p].dependencies && !(d in stages && stages[d] == StageCompleted))
  {
    hide Build, WellFormed, LlmNodes, OrderedReaders, RefEntries, RefTask, Fair;
    var plan, error := BuildPlan(mode, sources);
    if plan.None? || error.Some? {
      return None;
    }
    BuiltPhaseIsFit(mode, sources, p);
    var coordinator := new Coordinator(plan.value[p], limit, task);
    var result := coordinator.ExecutePhase(plan.value[p], stages, s);
    return Some(result);
  }
}
