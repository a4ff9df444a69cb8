/** What every run keeps, whatever its node functions return and however they fail: each worker is in order, no memory trusts a
    node in vain, and only a resume without a checkpoint can leave a succeeded node open. */
module Durability {
  import opened Json
  import opened Workflow
  import opened Store
  import opened Execution
  import opened Plan
  import opened Process
  import opened Stances
  import opened Workers

  ghost predicate Planned(w: Setup, n: string) {
    exists i :: 0 <= i < |w.nodes| && w.nodes[i].key == n
  }

  /** Every output that a row names is stored. */
  predicate Usable(db: Db) {
    forall n :: n in db.nodes && db.nodes[n].output.Some? ==> LoadOutput(db, n).Some?
  }

  /** Only planned nodes have rows, only enabled ones have succeeded, and every output that a row names is stored. */
  ghost predicate DbOk(w: Setup, db: Db) {
    && (forall i :: 0 <= i < |w.nodes| && Durable(db, w.nodes[i].key) ==> w.enabled(i))
    && (forall n :: n in db.nodes ==> Planned(w, n)) && Usable(db)
    && (db.run.None? ==> db.nodes == map[])
  }

  predicate Accounted(s: Sys, i: nat) {
    i in s.results || i in s.workers
  }

  /** A node that a memory lists as completed has succeeded durably, unless this process has executed it again. */
  ghost predicate Trusted(w: Setup, s: Sys, memory: Memory) {
    forall i :: 0 <= i < |w.nodes| && w.nodes[i].key in memory.completed ==>
      Durable(s.db, w.nodes[i].key) || Accounted(s, i) || s.halted
  }

  ghost predicate WorkersOk(w: Setup, s: Sys) {
    forall i :: i in s.workers ==>
      i !in s.results && WorkerOk(w, i, s.workers[i], s.db, s.opening.Again?) && s.workers[i].regs.resume == s.main.resume
      && Trusted(w, s, s.workers[i].regs.memory)
  }

  /** In a first run, a node succeeds only under this process; in a run resumed from a checkpoint, the memory lists all others. */
  ghost predicate SuccessesKnown(w: Setup, s: Sys) {
    forall i :: 0 <= i < |w.nodes| && s.up && Durable(s.db, w.nodes[i].key) && !Accounted(s, i) ==>
      !s.opening.FirstTime?
      && (s.opening.FromCheckpoint? && !s.halted ==> w.nodes[i].key in s.main.memory.completed)
  }

  /** A node is left open only by a run resumed without a checkpoint, and then it has succeeded. */
  predicate NodeLeft(s: Sys, regs: Regs) {
    regs.node.Some? ==> s.opening.WithoutCheckpoint? && Durable(s.db, regs.node.value)
  }

  predicate DirectOk(s: Sys) {
    NodeLeft(s, s.main)
    && (s.direct.Some? ==>
          s.workers.Keys == {s.direct.value}
          && var worker := s.workers[s.direct.value];
          && s.main.memory.completed <= worker.regs.memory.completed
          && (worker.control.Enter? || worker.control.Done? ==> NodeLeft(s, worker.regs))
          && (worker.control.Enter? && s.opening.FromCheckpoint? && Durable(s.db, worker.job.spec.key) ==>
                worker.job.spec.key in worker.regs.memory.completed))
  }

  ghost predicate OpeningOk(s: Sys) {
    && (s.main.resume <==> s.up && (s.opening.FromCheckpoint? || s.opening.WithoutCheckpoint?))
    && (s.main.resume ==> !s.main.force) && (s.up ==> s.db.run.Some?)
    && (!s.up ==> s == INITIAL.(db := s.db))
  }

  ghost predicate Ok(w: Setup, s: Sys) {
    && DbOk(w, s.db) && OpeningOk(s) && Trusted(w, s, s.main.memory) && Trusted(w, s, s.scope)
    && WorkersOk(w, s) && SuccessesKnown(w, s) && DirectOk(s)
  }

  // ----- what stays for a node that is not touched -----

  /** Node m keeps its status and its output, and no artifact is lost. */
  predicate Spares(m: string, a: Db, b: Db) {
    && a.artifacts <= b.artifacts && (m in a.nodes <==> m in b.nodes)
    && (m in a.nodes ==> a.nodes[m].status == b.nodes[m].status && a.nodes[m].output == b.nodes[m].output)
  }

  lemma {:induction false} GrowthSpares(nodes: seq<NodeSpec>, i: nat, j: nat, job: Job, want: Option<Json>, a: Db, b: Db)
    requires Topological(nodes) && i < |nodes| && j < |nodes| && i != j && job.spec == nodes[i] && Grows(job, want, a, b)
    ensures Spares(nodes[j].key, a, b) && nodes[i].key != nodes[j].key
  {
    hide Topological;
    if i < j {
      KeysAreDistinct(nodes, i, j);
    } else {
      KeysAreDistinct(nodes, j, i);
    }
  }

  lemma {:induction false} SparedOutput(n: string, a: Db, b: Db)
    requires Spares(n, a, b)
    ensures Durable(a, n) <==> Durable(b, n)
    ensures LoadOutput(a, n).Some? ==> LoadOutput(b, n) == LoadOutput(a, n)
  {
  }

  lemma {:induction false} SparedRow(n: string, a: Db, b: Db)
    requires Spares(n, a, b)
    ensures n in b.nodes ==> n in a.nodes && a.nodes[n].output == b.nodes[n].output
  {
  }

  lemma {:induction false} SparedWorker(w: Setup, j: nat, worker: Worker, a: Db, b: Db, again: bool)
    requires WorkerOk(w, j, worker, a, again) && Spares(worker.job.spec.key, a, b)
    ensures WorkerOk(w, j, worker, b, again)
  {
    hide Ends, Typed, LoadOutput, Durable, Spares;
    SparedOutput(worker.job.spec.key, a, b);
    if !worker.control.Done? {
      var stance :| Stands(worker.job.spec.key, Want(worker.control), stance, State(worker.regs, a)) && Typed(worker, stance, again);
      SparedStance(worker.job.spec.key, Want(worker.control), stance, worker.regs, a, b);
      assert Stands(worker.job.spec.key, Want(worker.control), stance, State(worker.regs, b));
    }
  }

  lemma {:induction false} SparedStance(n: string, want: Option<Json>, stance: Stance, regs: Regs, a: Db, b: Db)
    requires Stands(n, want, stance, State(regs, a)) && Spares(n, a, b)
    ensures Stands(n, want, stance, State(regs, b))
  {
    hide LoadOutput;
    SparedOutput(n, a, b);
  }

  lemma {:induction false} InPlan(w: Setup, j: nat, worker: Worker, db: Db, again: bool)
    requires WorkerOk(w, j, worker, db, again)
    ensures j < |w.nodes| && worker.job.spec == w.nodes[j] && worker.job.enabled == w.enabled(j) && worker.env.hash == w.hash
  {
  }

  /** What a memory trusts stays so while no success is lost except under this process. */
  lemma {:induction false} TrustCarries(w: Setup, s: Sys, t: Sys, memory: Memory)
    requires Trusted(w, s, memory)
    requires forall i :: 0 <= i < |w.nodes| && (Durable(s.db, w.nodes[i].key) || Accounted(s, i) || s.halted) ==>
               Durable(t.db, w.nodes[i].key) || Accounted(t, i) || t.halted
    ensures Trusted(w, t, memory)
  {
    hide Durable, Accounted;
  }

  // ----- opening a run -----

  /** A synchronised memory lists exactly the nodes that have succeeded. */
  lemma {:induction false} SyncTrusts(w: Setup, s: Sys, memory: Memory)
    ensures Trusted(w, s, Sync(memory, s.db)) && Sync(memory, s.db).completed == SucceededNodes(s.db)
    ensures forall n :: Durable(s.db, n) <==> n in Sync(memory, s.db).completed
  {
    hide ReadInputHashes, ReadOutputHashes;
  }

  lemma {:induction false} RestoreTrusts(w: Setup, s: Sys)
    ensures Trusted(w, s, RestoreMemory(s.db)) && Trusted(w, s, EMPTY_MEMORY)
    ensures HasCheckpoint(s.db) ==> forall n :: Durable(s.db, n) <==> n in RestoreMemory(s.db).completed
    ensures RestoreMemory(s.db).completed <= SucceededNodes(s.db)
  {
    hide Sync, Latest, HasCheckpoint, Trusted, Durable;
    NothingToTrust(w, s);
    if HasCheckpoint(s.db) {
      var found := Latest(s.db.artifacts, Checkpoint, "checkpoint." + CheckpointName(s.db));
      var base := if found.Some? && s.db.artifacts[found.value].content.Snapshot?
                  then s.db.artifacts[found.value].content.memory else EMPTY_MEMORY;
      assert RestoreMemory(s.db) == Sync(base, s.db) by { RestoreIsSync(s.db); }
      SyncTrusts(w, s, base);
    }
  }

  function CheckpointName(db: Db): string {
    if db.run.Some? && db.run.value.lastCheckpoint.Some? then db.run.value.lastCheckpoint.value else ""
  }

  lemma {:induction false} RestoreIsSync(db: Db)
    requires HasCheckpoint(db)
    ensures var found := Latest(db.artifacts, Checkpoint, "checkpoint." + CheckpointName(db));
            RestoreMemory(db) == Sync(if found.Some? && db.artifacts[found.value].content.Snapshot?
                                      then db.artifacts[found.value].content.memory else EMPTY_MEMORY, db)
  {
    hide Sync, Latest;
  }

  lemma {:induction false} NothingToTrust(w: Setup, s: Sys)
    ensures Trusted(w, s, EMPTY_MEMORY)
  {
  }

  /** However a run is opened, for the first time, once more, resumed or by force, it starts in order. */
  lemma {:induction false} BootKeeps(w: Setup, resume: bool, force: bool, s: Sys)
    requires Ok(w, s) && !s.up
    ensures Ok(w, Booted(resume, force, s.db))
  {
    hide RestoreMemory, WorkerOk, Trusted, Planned;
    var t := Booted(resume, force, s.db);
    assert t.db.nodes == s.db.nodes && t.db.artifacts == s.db.artifacts;
    assert HasCheckpoint(t.db) <==> HasCheckpoint(s.db);
    RestoreTrusts(w, t);
  }

  /** A process that is over leaves nothing but the tables. */
  lemma {:induction false} DownIsOk(w: Setup, db: Db)
    requires DbOk(w, db)
    ensures Ok(w, INITIAL.(db := db))
  {
    hide DbOk;
  }

  // ----- the coordinator's own steps -----

  /** A forced restart forgets all successes; no memory, worker or result relies on one. */
  lemma {:induction false} ResetKeeps(w: Setup, s: Sys)
    requires Ok(w, s) && s.up && s.direct.None?
    ensures Ok(w, MainStep(w, Reset, s))
  {
    hide WorkerOk, Planned, Apply;
    ResetForgets(w, s);
  }

  lemma {:induction false} ResetForgets(w: Setup, s: Sys)
    ensures var t := Apply(w.hash, ResetForRestart, State(s.main, s.db)).db;
            && t.nodes.Keys == s.db.nodes.Keys && t.artifacts == s.db.artifacts && t.run == s.db.run
            && (forall n :: !Durable(t, n)) && forall n :: n in t.nodes ==> t.nodes[n].output.None?
  {
  }

  /** Changing the coordinator's memory only. */
  lemma {:induction false} MemoryKeeps(w: Setup, e: Event, s: Sys)
    requires Ok(w, s) && s.up && s.direct.None? && (e.OpenScope? || e.SyncMain? || e.BindMain?)
    ensures Ok(w, MainStep(w, e, s))
  {
    hide DbOk, WorkerOk, Sync, Durable;
    SyncTrusts(w, s, s.main.memory);
    var t := MainStep(w, e, s);
    assert forall i :: Accounted(t, i) == Accounted(s, i);
  }

  /** A driver commit changes no status and no output. */
  lemma {:induction false} DriverCommitSpares(hash: Hasher, c: Commit, s: State)
    requires DriverCommit(c, s.regs) && s.db.run.Some?
    ensures var t := Apply(hash, c, s);
            && t.db.run.Some? && t.regs.resume == s.regs.resume && t.regs.force == s.regs.force && t.regs.node == s.regs.node
            && t.regs.memory.completed == s.regs.memory.completed && t.db.nodes.Keys == s.db.nodes.Keys
            && forall m :: Spares(m, s.db, t.db)
    ensures var t := Apply(hash, c, s);
            forall a :: |s.db.artifacts| <= a < |t.db.artifacts| && t.db.artifacts[a].content.Snapshot? ==>
              t.db.artifacts[a].content.memory == s.regs.memory
  {
    hide ApplyClaims, ApplyResolutions;
  }

  lemma {:induction false} DriveKeeps(w: Setup, c: Commit, s: Sys)
    requires Ok(w, s) && s.up && s.direct.None?
    ensures Ok(w, MainStep(w, Drive(c), s))
  {
    hide WorkerOk, DriverCommit, Apply, Trusted, Durable, Planned, Spares, LoadOutput;
    if DriverCommit(c, s.main) {
      var t := MainStep(w, Drive(c), s);
      DriverCommitSpares(w.hash, c, State(s.main, s.db));
      forall n
        ensures Durable(s.db, n) <==> Durable(t.db, n)
        ensures LoadOutput(s.db, n).Some? ==> LoadOutput(t.db, n).Some?
        ensures n in t.db.nodes ==> n in s.db.nodes && s.db.nodes[n].output == t.db.nodes[n].output
      {
        SparedOutput(n, s.db, t.db);
        SparedRow(n, s.db, t.db);
      }
      forall memory | Trusted(w, s, memory)
        ensures Trusted(w, t, memory)
      {
        TrustCarries(w, s, t, memory);
      }
      SameCompleted(w, t, s.main.memory, t.main.memory);
      forall j | j in s.workers
        ensures WorkerOk(w, j, s.workers[j], t.db, t.opening.Again?)
      {
        assert WorkerOk(w, j, s.workers[j], s.db, s.opening.Again?);
        SparedWorker(w, j, s.workers[j], s.db, t.db, s.opening.Again?);
      }
    }
  }

  lemma {:induction false} SameCompleted(w: Setup, s: Sys, m: Memory, more: Memory)
    requires Trusted(w, s, m) && m.completed == more.completed
    ensures Trusted(w, s, more)
  {
  }

  // ----- the end of a failed run -----

  predicate IsReport(row: ArtifactRow) {
    row.kind == ErrorReport && row.content.Document?
  }

  /** Only the open node loses its status, and only to a failure. */
  predicate Closes(node: Option<string>, a: Db, b: Db) {
    && b.nodes.Keys == a.nodes.Keys && a.artifacts <= b.artifacts && (a.run.Some? ==> b.run.Some?)
    && (forall k :: |a.artifacts| <= k < |b.artifacts| ==> IsReport(b.artifacts[k]))
    && forall n :: n in a.nodes ==>
         b.nodes[n].output == a.nodes[n].output
         && if node == Some(n) then !Success(b.nodes[n].status) && b.nodes[n].status != Skipped
            else b.nodes[n].status == a.nodes[n].status
  }

  /** No row changes, and only error reports are added. */
  predicate Notes(a: Db, b: Db) {
    a.nodes == b.nodes && a.artifacts <= b.artifacts && (a.run.Some? ==> b.run.Some?)
    && forall k :: |a.artifacts| <= k < |b.artifacts| ==> IsReport(b.artifacts[k])
  }

  lemma {:induction false} NotesAround(node: Option<string>, a: Db, b: Db, c: Db, d: Db)
    requires Notes(a, b) && Closes(node, b, c) && Notes(c, d)
    ensures Closes(node, a, d)
  {
  }

  lemma {:induction false} NotesAdd(a: Db, b: Db, c: Db)
    requires Notes(a, b) && Notes(b, c)
    ensures Notes(a, c)
  {
  }

  /** The node that is open, if it has a row. */
  function OpenNow(s: State): Option<string> {
    if NodeOpen(s) then s.regs.node else None
  }

  lemma {:induction false} AttemptNotes(hash: Hasher, c: Commit, s: State)
    requires c.FailAttempt? || c.TouchRun?
    ensures var t := Apply(hash, c, s); Notes(s.db, t.db) && t.regs.node == s.regs.node
  {
    hide AttemptErrorKey;
  }

  lemma {:induction false} AttemptCloses(hash: Hasher, exc: Exc, failure: Failure, s: State)
    ensures var t := After(hash, FailAttemptPart(exc, failure, s), s); Notes(s.db, t.db) && OpenNow(t) == OpenNow(s)
  {
    hide After, AttemptOpen, Apply;
    if AttemptOpen(s) {
      var fail := FailAttempt(exc, None, !failure.CancelledRun? && !failure.BlockedRun?, failure.CancelledRun?);
      AfterThree(hash, fail, TouchRun, AfterFail(false), s);
      AttemptNotes(hash, fail, s);
      AttemptNotes(hash, TouchRun, Apply(hash, fail, s));
      NotWaiting(hash, Apply(hash, TouchRun, Apply(hash, fail, s)));
    } else {
      AfterNothing(hash, s);
    }
  }

  lemma {:induction false} NotWaiting(hash: Hasher, s: State)
    ensures Apply(hash, AfterFail(false), s) == s
  {
  }

  lemma {:induction false} NodeCloses(hash: Hasher, exc: Exc, failure: Failure, s: State, before: State)
    requires OpenNow(s) == OpenNow(before)
    ensures var t := After(hash, FailNodePart(exc, failure, before), s); Closes(OpenNow(s), s.db, t.db)
  {
    if NodeOpen(s) {
      var program := FailNodePart(exc, failure, before);
      assert program[1..] == [];
      assert After(hash, program, s) == Apply(hash, program[0], s);
    }
  }

  lemma {:induction false} StageCloses(hash: Hasher, failure: Failure, s: State, before: State)
    ensures Notes(s.db, After(hash, FailStagePart(failure, before), s).db)
  {
    if StageOpen(before) {
      var program := FailStagePart(failure, before);
      assert program[1..] == [];
      assert After(hash, program, s) == Apply(hash, program[0], s);
    }
  }

  lemma {:induction false} RunCloses(hash: Hasher, status: RunStatus, s: State)
    ensures Notes(s.db, After(hash, [CloseRun(status)], s).db)
  {
    assert [CloseRun(status)][1..] == [];
    assert After(hash, [CloseRun(status)], s) == Apply(hash, CloseRun(status), s);
  }

  /** `fail_run` takes the success of the node that is open, and of no other. */
  lemma {:induction false} FailRunCloses(hash: Hasher, exc: Exc, failure: Failure, s: State)
    ensures Closes(OpenNow(s), s.db, After(hash, FailRunProgram(exc, failure, s), s).db)
  {
    hide Apply, After, Closes, Notes, OpenNow, FailAttemptPart, FailNodePart, FailStagePart, FailedStatus;
    var first, second, third := FailAttemptPart(exc, failure, s), FailNodePart(exc, failure, s), FailStagePart(failure, s);
    var last := [CloseRun(FailedStatus(failure))];
    AfterAppend(hash, first + second + third, last, s);
    AfterAppend(hash, first + second, third, s);
    AfterAppend(hash, first, second, s);
    var s1 := After(hash, first, s);
    var s2 := After(hash, second, s1);
    var s3 := After(hash, third, s2);
    AttemptCloses(hash, exc, failure, s);
    NodeCloses(hash, exc, failure, s1, s);
    StageCloses(hash, failure, s2, s);
    RunCloses(hash, FailedStatus(failure), s3);
    NotesAdd(s2.db, s3.db, After(hash, last, s3).db);
    NotesAround(OpenNow(s), s.db, s1.db, s2.db, After(hash, last, s3).db);
  }

  lemma {:induction false} FailRunKeeps(w: Setup, exc: Exc, failure: Failure, s: Sys)
    requires Ok(w, s) && s.up && s.direct.None?
    ensures Ok(w, MainStep(w, FailRun(exc, failure), s))
  {
    hide FailRunProgram, After, WorkersOk, Trusted, Planned;
    if s.workers == map[] {
      FailRunCloses(w.hash, exc, failure, State(s.main, s.db));
      DownIsOk(w, MainStep(w, FailRun(exc, failure), s).db);
    }
  }

  lemma {:induction false} MainKeeps(w: Setup, e: Event, s: Sys)
    requires Ok(w, s) && s.up && s.direct.None?
    ensures Ok(w, MainStep(w, e, s))
  {
    match e
    case Reset => { hide Ok, MainStep; ResetKeeps(w, s); }
    case Drive(c) => { hide Ok, MainStep; DriveKeeps(w, c, s); }
    case FailRun(exc, failure) => { hide Ok, MainStep; FailRunKeeps(w, exc, failure, s); }
    case OpenScope => { hide Ok, MainStep; MemoryKeeps(w, e, s); }
    case SyncMain => { hide Ok, MainStep; MemoryKeeps(w, e, s); }
    case BindMain(_, _) => { hide Ok, MainStep; MemoryKeeps(w, e, s); }
    case _ => { hide Ok; }
  }

  // ----- executions -----

  lemma {:induction false} AdmittedIsOk(w: Setup, e: Event, s: Sys)
    requires Ok(w, s) && Admissible(w, e, s)
    ensures WorkerOk(w, e.i, Admitted(w, e, s), s.db, s.opening.Again?)
  {
    hide DbOk, Ends, Durable, WorkersOk;
    var worker := Admitted(w, e, s);
    var stance := if Durable(s.db, w.nodes[e.i].key) then Stale(s.opening.Again?) else Fresh;
    EndsNothing(worker.job, None, stance);
    assert Stands(worker.job.spec.key, Want(worker.control), stance, State(worker.regs, s.db))
           && Typed(worker, stance, s.opening.Again?);
  }

  lemma {:induction false} AdmitKeeps(w: Setup, e: Event, s: Sys)
    requires Ok(w, s) && Admissible(w, e, s)
    ensures Ok(w, Happen(w, e, s))
  {
    hide DbOk, Trusted, WorkerOk, Durable;
    AdmittedIsOk(w, e, s);
    var t := Happen(w, e, s);
    forall memory | Trusted(w, s, memory)
      ensures Trusted(w, t, memory)
    {
      TrustCarries(w, s, t, memory);
    }
  }

  lemma {:induction false} CollectKeeps(w: Setup, i: nat, s: Sys)
    requires Ok(w, s) && s.up && i in s.workers && s.workers[i].control.Done?
    ensures Ok(w, Collected(i, s))
  {
    hide DbOk, WorkerOk, Trusted, Durable, SuccessesKnown;
    CollectKnows(w, i, s);
    var t := Collected(i, s);
    assert WorkerOk(w, i, s.workers[i], s.db, s.opening.Again?);
    FinishedWorker(w, i, s.workers[i], s.db, s.opening.Again?);
    forall memory | Trusted(w, s, memory)
      ensures Trusted(w, t, memory)
    {
      TrustCarries(w, s, t, memory);
    }
  }

  lemma {:induction false} CollectKnows(w: Setup, i: nat, s: Sys)
    requires SuccessesKnown(w, s) && WorkersOk(w, s) && DirectOk(s) && OpeningOk(s)
    requires s.up && i in s.workers && s.workers[i].control.Done?
    ensures SuccessesKnown(w, Collected(i, s))
  {
    hide WorkerOk, Trusted, Durable;
    assert WorkerOk(w, i, s.workers[i], s.db, s.opening.Again?);
    FinishedWorker(w, i, s.workers[i], s.db, s.opening.Again?);
  }

  lemma {:induction false} FinishedWorker(w: Setup, i: nat, worker: Worker, db: Db, again: bool)
    requires WorkerOk(w, i, worker, db, again) && worker.control.Done?
    ensures i < |w.nodes| && worker.job.spec == w.nodes[i] && DoneOk(worker, db, worker.regs.resume || again)
    ensures worker.regs.resume ==> !worker.regs.force
  {
    hide DoneOk;
  }

  /** A step of worker i leaves the successes of all other nodes as they are, and in a run that is not opened again its own. */
  lemma {:induction false} StepSpares(w: Setup, i: nat, s: Sys, next: Config)
    requires Topological(w.nodes) && i in s.workers && i < |w.nodes| && s.workers[i].job.spec == w.nodes[i]
    requires DbOk(w, s.db) && s.workers[i].job.enabled == w.enabled(i)
    requires Moved(s.workers[i], s.db, next, s.opening.Again?)
    ensures forall j :: 0 <= j < |w.nodes| && j != i ==> Spares(w.nodes[j].key, s.db, next.db)
    ensures forall j :: 0 <= j < |w.nodes| && j != i ==> (Durable(s.db, w.nodes[j].key) <==> Durable(next.db, w.nodes[j].key))
    ensures !s.opening.Again? ==> forall n :: Durable(s.db, n) ==> Durable(next.db, n)
    ensures DbOk(w, next.db) && next.db.run.Some?
  {
    hide Topological, Spares, LoadOutput, Holds;
    var job, want := s.workers[i].job, Want(s.workers[i].control);
    forall j | 0 <= j < |w.nodes| && j != i
      ensures Spares(w.nodes[j].key, s.db, next.db)
      ensures Durable(s.db, w.nodes[j].key) <==> Durable(next.db, w.nodes[j].key)
    {
      GrowthSpares(w.nodes, i, j, job, want, s.db, next.db);
      SparedOutput(w.nodes[j].key, s.db, next.db);
    }
    assert Planned(w, w.nodes[i].key);
    GrowsUsable(job, want, s.db, next.db);
  }

  lemma {:induction false} GrowsUsable(job: Job, want: Option<Json>, a: Db, b: Db)
    requires Grows(job, want, a, b) && Usable(a)
    ensures Usable(b)
  {
  }

  lemma {:induction false} StepKeeps(w: Setup, i: nat, s: Sys)
    requires Ok(w, s) && s.up && i in s.workers && Topological(w.nodes)
    ensures Ok(w, Stepped(i, s))
  {
    hide DbOk, Trusted, WorkerOk, Topological, Move, Durable, Grows, Spares;
    var worker := s.workers[i];
    assert WorkerOk(w, i, worker, s.db, s.opening.Again?);
    InPlan(w, i, worker, s.db, s.opening.Again?);
    EnabledSuccess(w, i, s.db);
    MoveKeeps(w, i, worker, s.db, s.opening.Again?);
    var next, t := Move(Config(worker, s.db)), Stepped(i, s);
    StepSpares(w, i, s, next);
    forall memory | Trusted(w, s, memory)
      ensures Trusted(w, t, memory)
    {
      TrustCarries(w, s, t, memory);
    }
    StepTrusts(w, t, worker.regs.memory, next.worker.regs.memory);
    forall j | j in s.workers && j != i
      ensures WorkerOk(w, j, s.workers[j], next.db, s.opening.Again?)
    {
      assert WorkerOk(w, j, s.workers[j], s.db, s.opening.Again?);
      InPlan(w, j, s.workers[j], s.db, s.opening.Again?);
      SparedWorker(w, j, s.workers[j], s.db, next.db, s.opening.Again?);
    }
    StepIsDirect(w, i, s);
  }

  lemma {:induction false} EnabledSuccess(w: Setup, i: nat, db: Db)
    requires DbOk(w, db) && i < |w.nodes|
    ensures Durable(db, w.nodes[i].key) ==> w.enabled(i)
  {
  }

  lemma {:induction false} StepTrusts(w: Setup, t: Sys, before: Memory, after: Memory)
    requires Trusted(w, t, before) && forall k :: k in after.completed ==> k in before.completed || Durable(t.db, k)
    ensures Trusted(w, t, after)
  {
    hide Durable, Accounted;
  }

  /** The direct worker leaves no node open but one that the recorder itself reused, in a run resumed without a checkpoint. */
  lemma {:induction false} StepIsDirect(w: Setup, i: nat, s: Sys)
    requires OpeningOk(s) && WorkersOk(w, s) && DbOk(w, s.db) && DirectOk(s) && s.up && i in s.workers
    requires var next := Move(Config(s.workers[i], s.db));
             (!s.opening.Again? ==> forall n :: Durable(s.db, n) ==> Durable(next.db, n))
             && s.workers[i].regs.memory.completed <= next.worker.regs.memory.completed
    ensures DirectOk(Stepped(i, s))
  {
    hide DbOk, Trusted, WorkerOk, Move, Durable;
    var worker := s.workers[i];
    assert WorkerOk(w, i, worker, s.db, s.opening.Again?);
    InPlan(w, i, worker, s.db, s.opening.Again?);
    EnabledSuccess(w, i, s.db);
    if worker.control.Done? {
      FinishedStays(w, i, worker, s.db, s.opening.Again?);
    } else {
      NodeLeftOpen(w, i, worker, s.db, s.opening.Again?);
      EntersEmpty(w, i, worker, s.db, s.opening.Again?);
      NeverEntersAgain(worker, s.db);
    }
  }

  lemma {:induction false} EntersEmpty(w: Setup, i: nat, worker: Worker, db: Db, again: bool)
    requires WorkerOk(w, i, worker, db, again)
    ensures worker.control.Enter? ==> worker.todo == []
  {
  }

  lemma {:induction false} FinishedStays(w: Setup, i: nat, worker: Worker, db: Db, again: bool)
    requires WorkerOk(w, i, worker, db, again) && worker.control.Done?
    ensures Move(Config(worker, db)) == Config(worker, db)
  {
    hide DoneOk, JobOk;
  }

  lemma {:induction false} NeverEntersAgain(worker: Worker, db: Db)
    requires worker.control.Enter? ==> worker.todo == []
    ensures !Move(Config(worker, db)).worker.control.Enter?
  {
    hide ReturnProgram, BindProgram, PromptProgram, FailAttemptProgram, EndProgram, Retry, TerminalVerdict, GateRejects, LoadOutput,
      Apply, Move;
    if worker.todo == [] {
      Decides(Config(worker, db));
    } else {
      MoveTodo(Config(worker, db));
    }
  }

  // ----- every event -----

  lemma {:induction false} EventKeeps(w: Setup, e: Event, s: Sys)
    requires Ok(w, s) && Topological(w.nodes)
    ensures Ok(w, Happen(w, e, s))
  {
    hide Ok, Topological, MainStep, Booted, Stepped, Collected, Admissible, Admitted;
    match e
    case Boot(resume, force) => if !s.up { BootKeeps(w, resume, force, s); }
    case Crash => CrashKeeps(w, s);
    case Admit(_, _, _, _, _, _) => if Admissible(w, e, s) { AdmitKeeps(w, e, s); }
    case Step(i) => if s.up && i in s.workers { StepKeeps(w, i, s); }
    case Collect(i) => if s.up && i in s.workers && s.workers[i].control.Done? { CollectKeeps(w, i, s); }
    case _ => if s.up && s.direct.None? { MainKeeps(w, e, s); }
  }

  lemma {:induction false} CrashKeeps(w: Setup, s: Sys)
    requires Ok(w, s)
    ensures Ok(w, INITIAL.(db := s.db))
  {
    hide DbOk;
    DownIsOk(w, s.db);
  }

  /** Every state that any sequence of processes, node executions, failures and crashes can reach is in order. */
  lemma {:induction false} ReachableOk(w: Setup, events: seq<Event>)
    requires Topological(w.nodes)
    ensures Ok(w, Replay(w, events))
  {
    hide Ok, Happen, Topological;
    if events == [] {
      NothingIsOk(w);
    } else {
      ReachableOk(w, events[..|events| - 1]);
      EventKeeps(w, events[|events| - 1], Replay(w, events[..|events| - 1]));
    }
  }

  lemma {:induction false} NothingIsOk(w: Setup)
    ensures Ok(w, INITIAL)
  {
    assert EMPTY_DB.nodes == map[];
    DownIsOk(w, EMPTY_DB);
  }
}
