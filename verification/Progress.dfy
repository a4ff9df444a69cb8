/** Nothing a crash leaves behind can block a run: from every reachable state it can be brought to its end. And what does not
    stay when a run is not resumed from a checkpoint. */
module Progress {
  import opened Json
  import opened Workflow
  import opened Store
  import opened Execution
  import opened Plan
  import opened Process
  import opened Stances
  import opened Workers
  import opened Durability
  import opened Resumption
  import opened Protocol
  import opened Recovery
  import G = Gate

  /** A worker whose function returns when called and whose job is not cancelled. */
  ghost predicate Smooth(worker: Worker) {
    && (forall p :: !worker.env.cancelled(p))
    && (forall calls, mode :: worker.env.invoke(calls, mode).Returns?)
    && match worker.control
       case Enter => worker.todo == [] && worker.regs.stage.Some?
       case Settle(outcome) => outcome.Returns?
       case Conclude(v) => v.Returned? && (worker.job.enabled ==> v.result.status == Succeeded)
       case Done(v) => v.Returned? && worker.todo == []
       case _ => true
  }

  function Distance(control: Control): nat {
    match control
    case Enter => 6
    case Head => 5
    case Bind => 4
    case Call => 3
    case Settle(_) => 2
    case Conclude(_) => 1
    case Done(_) => 0
  }

  lemma {:induction false} SmoothEnter(w: World, i: nat, worker: Worker, db: Db)
    requires Valued(w, i, worker) && NodeOk(w, i, db) && Smooth(worker) && worker.control.Enter?
    ensures Smooth(DecideEnter(worker, db)) && !DecideEnter(worker, db).control.Enter?
  {
    hide Ref, RefPayload, GateRejects, HashesFit, LoadOutput, Holds, Durable;
    GatePasses(w, i, worker);
  }

  lemma {:induction false} SmoothMove(w: World, i: nat, worker: Worker, db: Db)
    requires Valued(w, i, worker) && NodeOk(w, i, db) && Smooth(worker) && !worker.control.Done?
    ensures var next := Move(Config(worker, db)).worker;
            Smooth(next) && !GivesUp(next)
            && (Distance(next.control) < Distance(worker.control)
                || (next.control == worker.control && |next.todo| < |worker.todo|))
  {
    hide Ref, RefPayload, Valued, NodeOk, DecideEnter, Apply, ReturnProgram, BindProgram, PromptProgram;
    if worker.todo == [] {
      Decides(Config(worker, db));
      if worker.control.Enter? {
        SmoothEnter(w, i, worker, db);
      }
    } else {
      MoveTodo(Config(worker, db));
    }
  }

  predicate Closer(next: Worker, worker: Worker) {
    Distance(next.control) < Distance(worker.control)
    || (Distance(next.control) == Distance(worker.control) && |next.todo| < |worker.todo|)
  }

  /** Only worker i and the database have moved on; its stage and the run's checkpoint are what they were. */
  ghost predicate OnlyWorker(i: nat, s: Sys, t: Sys) {
    i in s.workers && i in t.workers && t == s.(workers := s.workers[i := t.workers[i]], db := t.db)
    && t.workers[i].regs.stage == s.workers[i].regs.stage && (HasCheckpoint(t.db) <==> HasCheckpoint(s.db))
  }

  lemma {:induction false} SmoothStep(w: World, i: nat, s: Sys)
    requires Ok(Base(w), s) && ValuesOk(w, s) && s.up && i in s.workers && Smooth(s.workers[i])
    requires !s.workers[i].control.Done?
    ensures var t := RegularHappen(w, Step(i), s);
            OnlyWorker(i, s, t) && Smooth(t.workers[i]) && Closer(t.workers[i], s.workers[i])
  {
    hide Ref, Move, GivesUp, Valued, NodeOk, ArtifactsOk, ResultsOk, Smooth, Distance, MainStep, Booted, HashesFit, WorkerOk, DbOk,
      SuccessesKnown, DirectOk, Trusted, Grows, HasCheckpoint, Closer;
    assert Valued(w, i, s.workers[i]);
    InWorld(w, i, s.workers[i]);
    assert NodeOk(w, i, s.db);
    SmoothMove(w, i, s.workers[i], s.db);
    CloserMove(Move(Config(s.workers[i], s.db)).worker, s.workers[i]);
    assert WorkerOk(Base(w), i, s.workers[i], s.db, s.opening.Again?);
    InPlan(Base(w), i, s.workers[i], s.db, s.opening.Again?);
    EnabledSuccess(Base(w), i, s.db);
    MoveKeeps(Base(w), i, s.workers[i], s.db, s.opening.Again?);
    GrowsKeepsCheckpoint(s.workers[i].job, Want(s.workers[i].control), s.db, Move(Config(s.workers[i], s.db)).db);
  }

  lemma {:induction false} CloserMove(next: Worker, worker: Worker)
    requires Distance(next.control) < Distance(worker.control)
             || (next.control == worker.control && |next.todo| < |worker.todo|)
    ensures Closer(next, worker)
  {
  }

  lemma {:induction false} GrowsKeepsCheckpoint(job: Job, want: Option<Json>, a: Db, b: Db)
    requires Grows(job, want, a, b)
    ensures HasCheckpoint(b) <==> HasCheckpoint(a)
  {
  }

  lemma {:induction false} InWorld(w: World, i: nat, worker: Worker)
    requires Valued(w, i, worker)
    ensures i < |w.nodes|
  {
  }

  lemma {:induction false} AppendRegular(w: World, events: seq<Event>, e: Event)
    ensures RegularReplay(w, events + [e]) == RegularHappen(w, e, RegularReplay(w, events))
  {
    hide RegularHappen;
    assert (events + [e])[..|events|] == events;
  }

  /** A smooth worker can be stepped until it is done, and nothing else changes. */
  lemma {:induction false} WorkerCanFinish(w: World, events: seq<Event>, i: nat) returns (steps: seq<Event>)
    requires Topological(w.nodes) && RegularReplay(w, events).up && i in RegularReplay(w, events).workers
    requires Smooth(RegularReplay(w, events).workers[i])
    ensures var s, t := RegularReplay(w, events), RegularReplay(w, events + steps);
            OnlyWorker(i, s, t) && Smooth(t.workers[i]) && t.workers[i].control.Done?
    ensures forall e :: e in steps ==> e == Step(i)
    decreases Distance(RegularReplay(w, events).workers[i].control), |RegularReplay(w, events).workers[i].todo|
  {
    hide Topological, RegularHappen, Smooth, Ok, ValuesOk, RegularReplay, Distance;
    var s := RegularReplay(w, events);
    if s.workers[i].control.Done? {
      steps := [];
      assert events + steps == events;
    } else {
      RegularIsOk(w, events);
      SmoothStep(w, i, s);
      AppendRegular(w, events, Step(i));
      var rest := WorkerCanFinish(w, events + [Step(i)], i);
      steps := [Step(i)] + rest;
      assert events + steps == events + [Step(i)] + rest;
    }
  }

  ghost function KindEnv(w: World, i: nat, payload: Option<Payload>): Env {
    Env(w.hash, (calls: nat, mode: ContextMode) => Returns([], w.value(i, payload)), (polls: nat) => false, 1, true)
  }

  /** The coordinator between two nodes of a sequential run. */
  ghost predicate AtRest(s: Sys, done: nat) {
    s.up && !s.halted && s.workers == map[] && s.direct.None? && s.main.stage.Some? && forall j: nat :: j in s.results <==> j < done
  }

  lemma {:induction false} AdmitSmooth(w: World, i: nat, s: Sys) returns (e: Event)
    requires i < |w.nodes| && AtRest(s, i)
    ensures var t := RegularHappen(w, e, s);
            i in t.workers && Smooth(t.workers[i]) && t == s.(workers := map[i := t.workers[i]], direct := Some(i)) && e.Admit?
            && t.workers[i].regs.stage == s.main.stage
  {
    hide Ref, Reaches, Ready, MainStep, Booted, Stepped, Collected;
    AllBeforeAreReady(w, i, s.results);
    var payload := w.payload(i, Visible(w, i, s.results));
    var env := KindEnv(w, i, payload);
    assert Deterministic(w, i, payload, env);
    e := Admit(i, payload, env, None, false, true);
  }

  lemma {:induction false} CollectRests(w: World, i: nat, s: Sys)
    requires s.up && i in s.workers && s.workers[i].control.Done? && Smooth(s.workers[i]) && s.workers[i].regs.stage.Some?
    requires s.direct == Some(i) && AtRest(s.(workers := map[], direct := None), i) && s.workers.Keys == {i}
    ensures var t := RegularHappen(w, Collect(i), s); AtRest(t, i + 1) && t.db == s.db
  {
    hide MainStep, Booted, Stepped, Move;
    var t := RegularHappen(w, Collect(i), s);
    assert t.workers.Keys == {};
  }

  lemma {:induction false} NodeCanFinish(w: World, events: seq<Event>, i: nat) returns (more: seq<Event>)
    requires Topological(w.nodes) && i < |w.nodes| && AtRest(RegularReplay(w, events), i)
    ensures AtRest(RegularReplay(w, events + more), i + 1)
    ensures HasCheckpoint(RegularReplay(w, events + more).db) <==> HasCheckpoint(RegularReplay(w, events).db)
    ensures forall e :: e in more ==> e.Admit? || e.Step? || e.Collect?
  {
    hide Topological, RegularHappen, Smooth, RegularReplay, HasCheckpoint;
    var admission := AdmitSmooth(w, i, RegularReplay(w, events));
    AppendRegular(w, events, admission);
    var steps := WorkerCanFinish(w, events + [admission], i);
    CollectRests(w, i, RegularReplay(w, events + [admission] + steps));
    AppendRegular(w, events + [admission] + steps, Collect(i));
    more := [admission] + steps + [Collect(i)];
    assert events + more == events + [admission] + steps + [Collect(i)];
  }

  lemma {:induction false} AllBeforeAreReady(w: World, i: nat, results: map<nat, Option<Json>>)
    requires i < |w.nodes| && forall j: nat :: j < i ==> j in results
    ensures Ready(w, i, results)
  {
  }

  /** How the program opens the run it finds in the tables. */
  function Reopening(db: Db): Event {
    Boot(G.CallerResumes(db.run), false)
  }

  /** A process that was just started, with its first stage open. */
  lemma {:induction false} Restarted(w: World, events: seq<Event>, resume: bool)
    ensures var s := RegularReplay(w, events + [Crash, Boot(resume, false), Drive(OpenStage("stage"))]);
            AtRest(s, 0) && (HasCheckpoint(s.db) <==> HasCheckpoint(RegularReplay(w, events).db))
  {
    hide Ref, RegularReplay, Move, RestoreMemory, Stepped, Collected;
    AppendRegular(w, events, Crash);
    AppendRegular(w, events + [Crash], Boot(resume, false));
    AppendRegular(w, events + [Crash] + [Boot(resume, false)], Drive(OpenStage("stage")));
    assert events + [Crash, Boot(resume, false), Drive(OpenStage("stage"))]
        == events + [Crash] + [Boot(resume, false)] + [Drive(OpenStage("stage"))];
  }

  /** Whatever has happened so far, crashes included, the program can be started once more and bring the run to its end,
      opening it in the way it always does. */
  lemma {:induction false} EveryRunCanBeFinished(w: World, events: seq<Event>) returns (work: seq<Event>)
    requires Topological(w.nodes)
    ensures Complete(w, RegularReplay(w, events + [Crash, Reopening(RegularReplay(w, events).db)] + work))
    ensures forall e :: e in work ==> !e.Crash? && !e.Boot?
  {
    hide Ref, Topological, RegularReplay, AtRest;
    var db := RegularReplay(w, events).db;
    var restart := events + [Crash, Reopening(db)];
    Restarted(w, events, G.CallerResumes(db.run));
    work := [Drive(OpenStage("stage"))];
    assert restart + work == events + [Crash, Reopening(db), Drive(OpenStage("stage"))];
    var i := 0;
    while i < |w.nodes|
      invariant i <= |w.nodes| && AtRest(RegularReplay(w, restart + work), i)
      invariant forall e :: e in work ==> !e.Crash? && !e.Boot?
    {
      var next := NodeCanFinish(w, restart + work, i);
      assert restart + work + next == restart + (work + next);
      work := work + next;
      i := i + 1;
    }
    RestsComplete(w, RegularReplay(w, restart + work));
  }

  lemma {:induction false} RestsComplete(w: World, s: Sys)
    requires AtRest(s, |w.nodes|)
    ensures Complete(w, s)
  {
  }

  // ----- runs that are not resumed from a checkpoint -----

  lemma {:induction false} AppendEvent(w: Setup, events: seq<Event>, e: Event)
    ensures Replay(w, events + [e]) == Happen(w, e, Replay(w, events))
  {
    hide Happen;
    assert (events + [e])[..|events|] == events;
  }

  /** A forced restart starts over: no node counts as succeeded, while every artifact is still there. */
  lemma {:induction false} ForcedRestartStartsOver(w: Setup, events: seq<Event>)
    ensures var s := Replay(w, events + [Crash, Boot(false, true), Reset]);
            SucceededNodes(s.db) == {} && s.main.memory == EMPTY_MEMORY && s.db.artifacts == Replay(w, events).db.artifacts
  {
    hide Replay, Move, RestoreMemory, Stepped, Collected;
    AppendEvent(w, events, Crash);
    AppendEvent(w, events + [Crash], Boot(false, true));
    AppendEvent(w, events + [Crash] + [Boot(false, true)], Reset);
    assert events + [Crash, Boot(false, true), Reset] == events + [Crash] + [Boot(false, true)] + [Reset];
  }

  /** The first node, executed by the coordinator itself, its job not cancelled. */
  function FirstCall(env: Env): Event {
    Admit(0, None, env, None, false, true)
  }

  /** A process that opened the run anew without forcing it, and its first stage. */
  predicate JustOpened(s: Sys, resume: bool) {
    s.up && !s.halted && s.workers == map[] && s.results == map[] && s.direct.None? && s.main.stage.Some? && s.main.node.None?
    && s.main.resume == resume && !s.main.force && s.main.memory == EMPTY_MEMORY
  }

  lemma {:induction false} OpenedAnew(w: Setup, events: seq<Event>, resume: bool)
    requires var db := Replay(w, events).db; resume ==> db.run.Some? && !HasCheckpoint(db)
    ensures var s := Replay(w, events + [Crash, Boot(resume, false), Drive(OpenStage("stage"))]);
            JustOpened(s, resume) && s.db.nodes == Replay(w, events).db.nodes
  {
    hide Replay, Move, Stepped, Collected;
    AppendEvent(w, events, Crash);
    AppendEvent(w, events + [Crash], Boot(resume, false));
    AppendEvent(w, events + [Crash] + [Boot(resume, false)], Drive(OpenStage("stage")));
    assert events + [Crash, Boot(resume, false), Drive(OpenStage("stage"))]
        == events + [Crash] + [Boot(resume, false)] + [Drive(OpenStage("stage"))];
  }

  /** A run that is opened again without being resumed starts over as well: the first node, even if it has succeeded before,
      is opened again and for the time being has not succeeded. */
  lemma {:induction false} ReopeningStartsOver(w: Setup, events: seq<Event>, env: Env)
    requires w.nodes != [] && w.enabled(0) && env.hash == w.hash && !env.cancelled(0)
    ensures var again := [Crash, Boot(false, false), Drive(OpenStage("stage")), FirstCall(env), Step(0), Step(0)];
            var s := Replay(w, events + again);
            !Durable(s.db, w.nodes[0].key) && s.workers.Keys == {0} && s.workers[0].control.Head?
  {
    hide Replay, Happen, JustOpened;
    var start := events + [Crash, Boot(false, false), Drive(OpenStage("stage"))];
    OpenedAnew(w, events, false);
    AppendEvent(w, start, FirstCall(env));
    AppendEvent(w, start + [FirstCall(env)], Step(0));
    AppendEvent(w, start + [FirstCall(env)] + [Step(0)], Step(0));
    assert events + [Crash, Boot(false, false), Drive(OpenStage("stage")), FirstCall(env), Step(0), Step(0)]
        == start + [FirstCall(env)] + [Step(0)] + [Step(0)];
    FirstNodeOpens(w, Replay(w, start), env);
  }

  lemma {:induction false} FirstNodeOpens(w: Setup, s: Sys, env: Env)
    requires w.nodes != [] && w.enabled(0) && JustOpened(s, false) && env.hash == w.hash && !env.cancelled(0)
    ensures var t := Happen(w, Step(0), Happen(w, Step(0), Happen(w, FirstCall(env), s)));
            !Durable(t.db, w.nodes[0].key) && t.workers.Keys == {0} && t.workers[0].control.Head?
  {
    hide Move, Bound, Sync, MainStep, Booted, Collected;
    var worker := Start(Job(w.nodes[0], None, None, false, true), env, s.main);
    Decides(Config(worker, s.db));
    var entered := DecideEnter(worker, s.db);
    MoveTodo(Config(entered, s.db));
  }

  /** Resuming without a checkpoint: the recorder reuses the first node, which had succeeded, and leaves it open; when the run
      then fails, the node's success is lost. */
  lemma {:induction false} BlindResumeLosesSuccess(w: Setup, events: seq<Event>, env: Env, exc: Exc, failure: Failure)
    requires w.nodes != [] && w.enabled(0) && env.hash == w.hash && !env.cancelled(0)
    requires var db := Replay(w, events).db; db.run.Some? && !HasCheckpoint(db) && Durable(db, w.nodes[0].key)
    ensures var blind := events + [Crash, Boot(true, false), Drive(OpenStage("stage")), FirstCall(env), Step(0), Collect(0)];
            && Durable(Replay(w, blind).db, w.nodes[0].key) && Loses(Replay(w, blind), FailRun(exc, failure))
            && !Durable(Replay(w, blind + [FailRun(exc, failure)]).db, w.nodes[0].key)
  {
    hide Replay, Happen, JustOpened, HasCheckpoint;
    var start := events + [Crash, Boot(true, false), Drive(OpenStage("stage"))];
    OpenedAnew(w, events, true);
    AppendEvent(w, start, FirstCall(env));
    AppendEvent(w, start + [FirstCall(env)], Step(0));
    AppendEvent(w, start + [FirstCall(env)] + [Step(0)], Collect(0));
    var blind := events + [Crash, Boot(true, false), Drive(OpenStage("stage")), FirstCall(env), Step(0), Collect(0)];
    assert blind == start + [FirstCall(env)] + [Step(0)] + [Collect(0)];
    FirstNodeIsReused(w, Replay(w, start), env);
    AppendEvent(w, blind, FailRun(exc, failure));
    FailRunTakes(w, exc, failure, Replay(w, blind));
  }

  lemma {:induction false} FirstNodeIsReused(w: Setup, s: Sys, env: Env)
    requires w.nodes != [] && w.enabled(0) && JustOpened(s, true) && env.hash == w.hash && !env.cancelled(0)
    requires Durable(s.db, w.nodes[0].key)
    ensures var t := Happen(w, Collect(0), Happen(w, Step(0), Happen(w, FirstCall(env), s)));
            t.up && t.direct.None? && t.workers == map[] && t.main.node == Some(w.nodes[0].key) && t.db == s.db
  {
    hide Move, Bound, Sync, MainStep, Booted, LoadOutput;
    var worker := Start(Job(w.nodes[0], None, None, false, true), env, s.main);
    Decides(Config(worker, s.db));
    var t := Happen(w, Collect(0), Happen(w, Step(0), Happen(w, FirstCall(env), s)));
    assert t.workers.Keys == {};
  }

  /** The case can be reached: in a run whose first node succeeds in the first process, which then dies before any checkpoint. */
  lemma {:induction false} FailedRunLosesSuccess(w: World, env: Env, exc: Exc, failure: Failure) returns (events: seq<Event>)
    requires Topological(w.nodes) && w.nodes != [] && w.enabled(0) && env.hash == w.hash && !env.cancelled(0)
    ensures Durable(Replay(Base(w), events).db, w.nodes[0].key) && Loses(Replay(Base(w), events), FailRun(exc, failure))
    ensures !Durable(Replay(Base(w), events + [FailRun(exc, failure)]).db, w.nodes[0].key)
  {
    hide Ref, Topological, Replay, RegularReplay, AtRest, Ok, ValuesOk, HasCheckpoint, Durable, Loses;
    var first := [Crash, Boot(false, false), Drive(OpenStage("stage"))];
    assert [] + first == first;
    Restarted(w, [], false);
    var more := NodeCanFinish(w, first, 0);
    RegularIsOk(w, first + more);
    TablesOk(w, RegularReplay(w, first + more));
    FirstIsIn(RegularReplay(w, first + more));
    NothingToResumeFrom(w);
    OkParts(Base(w), RegularReplay(w, first + more));
    var regular := RegularRunsAreRuns(w, first + more);
    BlindResumeLosesSuccess(Base(w), regular, env, exc, failure);
    events := regular + [Crash, Boot(true, false), Drive(OpenStage("stage")), FirstCall(env), Step(0), Collect(0)];
  }

  lemma {:induction false} FirstIsIn(s: Sys)
    requires AtRest(s, 1)
    ensures 0 in s.results && s.up
  {
  }

  lemma {:induction false} NothingToResumeFrom(w: World)
    ensures !HasCheckpoint(RegularReplay(w, []).db)
  {
  }

  /** Under the program's own policy no failure ever takes a success: whatever boots, crashes and forced restarts there are, as
      long as a process resumes only when the policy says so. */
  lemma {:induction false} PolicyNeverLoses(w: Setup, events: seq<Event>, m: nat)
    requires Topological(w.nodes) && m < |events|
    requires forall k :: 0 <= k < |events| && events[k].Boot? && events[k].resume ==> G.CallerResumes(Replay(w, events[..k]).db.run)
    ensures !Loses(Replay(w, events[..m]), events[m])
  {
    hide Ok, Topological, Replay;
    ReachableOk(w, events[..m]);
    OkParts(w, Replay(w, events[..m]));
    NeverBlind(w, events, m);
  }

  lemma {:induction false} NeverBlind(w: Setup, events: seq<Event>, m: nat)
    requires m <= |events|
    requires forall k :: 0 <= k < m && events[k].Boot? && events[k].resume ==> G.CallerResumes(Replay(w, events[..k]).db.run)
    ensures !Replay(w, events[..m]).opening.WithoutCheckpoint?
    decreases m
  {
    hide Happen, G.CallerResumes;
    if m > 0 {
      NeverBlind(w, events, m - 1);
      assert events[..m][..m - 1] == events[..m - 1];
      StaysSighted(w, events[m - 1], Replay(w, events[..m - 1]));
    } else {
      assert events[..0] == [];
    }
  }

  lemma {:induction false} StaysSighted(w: Setup, e: Event, s: Sys)
    requires !s.opening.WithoutCheckpoint? && (e.Boot? && e.resume ==> G.CallerResumes(s.db.run))
    ensures !Happen(w, e, s).opening.WithoutCheckpoint?
  {
    hide Move, Apply, After, RestoreMemory, Sync;
  }
}
