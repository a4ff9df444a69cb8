/** What a run keeps from one resume to the next: no success is lost, what a call returned stays readable, and checkpoints never
    promise too much. The one exception is a failed run that had been resumed without a checkpoint. */
module Resumption {
  import opened Json
  import opened Workflow
  import opened Store
  import opened Execution
  import opened Plan
  import opened Process
  import opened Stances
  import opened Workers
  import opened Durability

  /** The run fails while the coordinator's recorder still holds a succeeded node open. */
  predicate Loses(s: Sys, e: Event) {
    e.FailRun? && s.up && s.direct.None? && s.workers == map[] && s.main.node.Some? && Durable(s.db, s.main.node.value)
  }

  /** Since moment k the run was only resumed, or opened for the first time, and no failure took a success. */
  ghost predicate ResumedSince(w: Setup, events: seq<Event>, k: nat) {
    && (forall m :: k <= m <= |events| ==> !Replay(w, events[..m]).opening.Again?)
    && forall m :: k <= m < |events| ==> !Loses(Replay(w, events[..m]), events[m])
  }

  ghost predicate NothingLost(a: Db, b: Db) {
    forall n :: Durable(a, n) ==> Durable(b, n)
  }

  ghost predicate OutputsStay(a: Db, b: Db) {
    forall n :: Durable(a, n) && LoadOutput(a, n).Some? ==> LoadOutput(b, n) == LoadOutput(a, n)
  }

  /** The memory lists durably succeeded nodes only. */
  predicate Backed(db: Db, memory: Memory) {
    memory.completed <= SucceededNodes(db)
  }

  /** All memories, and all checkpoints from artifact `from` on, list durably succeeded nodes only. */
  ghost predicate Firm(s: Sys, from: nat) {
    && Backed(s.db, s.main.memory) && Backed(s.db, s.scope)
    && (forall i :: i in s.workers ==> Backed(s.db, s.workers[i].regs.memory))
    && forall a :: from <= a < |s.db.artifacts| && s.db.artifacts[a].content.Snapshot? ==>
         Backed(s.db, s.db.artifacts[a].content.memory)
  }

  lemma {:induction false} StaysBacked(a: Db, b: Db, memory: Memory)
    requires NothingLost(a, b) && Backed(a, memory)
    ensures Backed(b, memory)
  {
    forall n | n in memory.completed
      ensures n in SucceededNodes(b)
    {
      assert n in SucceededNodes(a);
      assert Durable(a, n);
    }
  }

  // ----- one event -----

  /** From s to t nothing is lost, and whatever lists nodes in t is backed if all memories of s were. */
  ghost predicate Carried(s: Sys, t: Sys) {
    && NothingLost(s.db, t.db) && OutputsStay(s.db, t.db) && s.db.artifacts <= t.db.artifacts
    && (Firm(s, |s.db.artifacts|) ==> Firm(t, |s.db.artifacts|))
  }

  lemma {:induction false} SparedTables(a: Db, b: Db)
    requires forall n :: Spares(n, a, b)
    ensures NothingLost(a, b) && OutputsStay(a, b) && SucceededNodes(a) == SucceededNodes(b)
  {
    hide Durable, LoadOutput, Spares;
    forall n
      ensures Durable(a, n) <==> Durable(b, n)
      ensures LoadOutput(a, n).Some? ==> LoadOutput(b, n) == LoadOutput(a, n)
    {
      assert Spares(n, a, b);
      SparedOutput(n, a, b);
    }
    SameSuccesses(a, b);
  }

  lemma {:induction false} SameSuccesses(a: Db, b: Db)
    requires forall n :: Durable(a, n) <==> Durable(b, n)
    ensures SucceededNodes(a) == SucceededNodes(b)
  {
    assert forall n :: n in SucceededNodes(a) <==> Durable(a, n);
    assert forall n :: n in SucceededNodes(b) <==> Durable(b, n);
  }

  lemma {:induction false} SameTables(a: Db, b: Db)
    requires a.nodes == b.nodes && a.artifacts == b.artifacts
    ensures NothingLost(a, b) && OutputsStay(a, b) && SucceededNodes(a) == SucceededNodes(b)
  {
    assert forall n :: Spares(n, a, b);
    SparedTables(a, b);
  }

  lemma {:induction false} StepLosesNothing(job: Job, want: Option<Json>, a: Db, b: Db)
    requires Grows(job, want, a, b) && (Durable(a, job.spec.key) ==> a == b)
    ensures NothingLost(a, b) && OutputsStay(a, b) && a.artifacts <= b.artifacts
    ensures forall k :: |a.artifacts| <= k < |b.artifacts| ==> b.artifacts[k].content.Document?
  {
  }

  lemma {:induction false} LearnsBacked(db: Db, n: string, before: Memory, after: Memory)
    requires Backed(db, before) && forall k :: k in after.completed ==> k in before.completed || (k == n && Durable(db, k))
    ensures Backed(db, after)
  {
  }

  lemma {:induction false} StepCarries(w: Setup, i: nat, s: Sys)
    requires Ok(w, s) && Topological(w.nodes) && !s.opening.Again? && s.up && i in s.workers
    ensures Carried(s, Stepped(i, s))
  {
    hide DbOk, Trusted, WorkerOk, Topological, Move, SuccessesKnown, SucceededNodes, Backed, Durable, Grows, NothingLost, OutputsStay,
      DirectOk;
    var t, worker := Stepped(i, s), s.workers[i];
    assert WorkerOk(w, i, worker, s.db, false);
    InPlan(w, i, worker, s.db, false);
    EnabledSuccess(w, i, s.db);
    MoveKeeps(w, i, worker, s.db, false);
    StepLosesNothing(worker.job, Want(worker.control), s.db, t.db);
    forall memory | Backed(s.db, memory)
      ensures Backed(t.db, memory)
    {
      StaysBacked(s.db, t.db, memory);
    }
    if Backed(s.db, worker.regs.memory) {
      LearnsBacked(t.db, worker.job.spec.key, worker.regs.memory, t.workers[i].regs.memory);
    }
  }

  /** A forced restart that is no reopening starts a run in which nothing has succeeded yet. */
  lemma {:induction false} NothingToReset(w: Setup, s: Sys)
    requires DbOk(w, s.db) && OpeningOk(s) && SuccessesKnown(w, s) && !s.opening.Again? && s.up && s.main.force
    requires s.workers == map[] && s.results == map[]
    ensures forall n :: !Durable(s.db, n)
  {
    forall n | n in s.db.nodes
      ensures !Durable(s.db, n)
    {
      assert Planned(w, n);
    }
  }

  lemma {:induction false} ResetCarries(w: Setup, s: Sys)
    requires Ok(w, s) && !s.opening.Again? && s.up && s.direct.None?
    ensures Carried(s, MainStep(w, Reset, s))
  {
    hide Ok, Durable, LoadOutput, Apply;
    if s.main.force && s.workers == map[] && s.results == map[] {
      assert DbOk(w, s.db) && OpeningOk(s) && SuccessesKnown(w, s) by { OkParts(w, s); }
      NothingToReset(w, s);
      ResetForgets(w, s);
    } else {
      SameTables(s.db, s.db);
    }
  }

  lemma {:induction false} OkParts(w: Setup, s: Sys)
    requires Ok(w, s)
    ensures DbOk(w, s.db) && OpeningOk(s) && SuccessesKnown(w, s) && DirectOk(s)
  {
  }

  /** The memory a recorder starts with lists what the tables show as succeeded, or nothing. */
  lemma {:induction false} BootCarries(w: Setup, resume: bool, force: bool, s: Sys)
    ensures Carried(s, Booted(resume, force, s.db))
  {
    hide RestoreMemory, SucceededNodes, NothingLost, OutputsStay;
    var t := Booted(resume, force, s.db);
    SameTables(s.db, t.db);
    RestoreTrusts(w, t);
  }

  lemma {:induction false} DriveCarries(w: Setup, c: Commit, s: Sys)
    requires Ok(w, s) && s.up && s.direct.None?
    ensures Carried(s, MainStep(w, Drive(c), s))
  {
    hide DbOk, WorkersOk, SuccessesKnown, DirectOk, Trusted, SucceededNodes, NothingLost, OutputsStay, DriverCommit, Apply;
    if DriverCommit(c, s.main) {
      DriverCommitSpares(w.hash, c, State(s.main, s.db));
      var t := MainStep(w, Drive(c), s);
      SparedTables(s.db, t.db);
      assert Spares("", s.db, t.db);
    } else {
      SameTables(s.db, s.db);
    }
  }

  lemma {:induction false} ClosesNothing(a: Db, b: Db)
    requires Closes(None, a, b)
    ensures forall n :: Spares(n, a, b)
  {
  }

  lemma {:induction false} FailRunCarries(w: Setup, exc: Exc, failure: Failure, s: Sys)
    requires Ok(w, s) && s.up && s.direct.None? && !Loses(s, FailRun(exc, failure))
    ensures Carried(s, MainStep(w, FailRun(exc, failure), s))
  {
    hide DbOk, WorkersOk, SuccessesKnown, Trusted, SucceededNodes, NothingLost, OutputsStay, Closes, After, FailRunProgram, Durable;
    if s.workers == map[] {
      var t := MainStep(w, FailRun(exc, failure), s);
      FailRunCloses(w.hash, exc, failure, State(s.main, s.db));
      ClosesNothing(s.db, t.db);
      SparedTables(s.db, t.db);
      assert Spares("", s.db, t.db);
      assert forall a :: |s.db.artifacts| <= a < |t.db.artifacts| ==> t.db.artifacts[a].content.Document? by {
        ClosesWithDocuments(s.db, t.db);
      }
    } else {
      SameTables(s.db, s.db);
    }
  }

  lemma {:induction false} ClosesWithDocuments(a: Db, b: Db)
    requires Closes(None, a, b)
    ensures forall k :: |a.artifacts| <= k < |b.artifacts| ==> b.artifacts[k].content.Document?
  {
    assert forall k :: |a.artifacts| <= k < |b.artifacts| ==> IsReport(b.artifacts[k]);
  }

  /** The steps that leave the database alone hand memories on, or read them back from the tables. */
  lemma {:induction false} MemoryCarries(w: Setup, e: Event, s: Sys)
    requires e.OpenScope? || e.SyncMain? || e.BindMain?
    ensures Carried(s, MainStep(w, e, s))
  {
    hide SucceededNodes, ReadInputHashes, ReadOutputHashes, NothingLost, OutputsStay;
    SameTables(s.db, s.db);
  }

  lemma {:induction false} AdmitCarries(w: Setup, e: Event, s: Sys)
    requires e.Admit? || e.Crash? || (e.Collect? && s.up && e.i in s.workers && s.workers[e.i].control.Done?)
    ensures Carried(s, Happen(w, e, s))
  {
    hide SucceededNodes, NothingLost, OutputsStay, MainStep, Booted, Stepped;
    SameTables(s.db, s.db);
  }

  lemma {:induction false} SameCarries(s: Sys)
    ensures Carried(s, s)
  {
    hide SucceededNodes, NothingLost, OutputsStay;
    SameTables(s.db, s.db);
  }

  lemma {:induction false} MainCarries(w: Setup, e: Event, s: Sys)
    requires Ok(w, s) && !s.opening.Again? && s.up && s.direct.None? && !Loses(s, e)
    ensures Carried(s, MainStep(w, e, s))
  {
    hide Ok, Carried, Loses;
    match e
    case Reset => { hide MainStep; ResetCarries(w, s); }
    case Drive(c) => { hide MainStep; DriveCarries(w, c, s); }
    case FailRun(exc, failure) => { hide MainStep; FailRunCarries(w, exc, failure, s); }
    case OpenScope => { hide MainStep; MemoryCarries(w, e, s); }
    case SyncMain => { hide MainStep; MemoryCarries(w, e, s); }
    case BindMain(_, _) => { hide MainStep; MemoryCarries(w, e, s); }
    case _ => SameCarries(s);
  }

  lemma {:induction false} EventCarries(w: Setup, e: Event, s: Sys)
    requires Ok(w, s) && Topological(w.nodes) && !s.opening.Again? && !Loses(s, e)
    ensures Carried(s, Happen(w, e, s))
  {
    hide Ok, Topological, Carried, MainStep, Booted, Stepped, Collected, Admissible, Admitted, Loses;
    SameCarries(s);
    match e
    case Boot(resume, force) => if !s.up { BootCarries(w, resume, force, s); }
    case Step(i) => if s.up && i in s.workers { StepCarries(w, i, s); }
    case Crash => AdmitCarries(w, e, s);
    case Admit(_, _, _, _, _, _) => AdmitCarries(w, e, s);
    case Collect(i) => if s.up && i in s.workers && s.workers[i].control.Done? { AdmitCarries(w, e, s); }
    case _ => if s.up && s.direct.None? { MainCarries(w, e, s); }
  }

  /** Exactly which event takes a success from a run that is not opened again: its failure, while its recorder holds a succeeded
      node open; and that can only be a run resumed without a checkpoint. */
  lemma {:induction false} SuccessIsLostExactly(w: Setup, e: Event, s: Sys)
    requires Ok(w, s) && Topological(w.nodes) && !s.opening.Again?
    ensures NothingLost(s.db, Happen(w, e, s).db) <==> !Loses(s, e)
    ensures Loses(s, e) ==> s.opening.WithoutCheckpoint? && s.main.resume
  {
    hide Topological, Ok, Happen;
    OkParts(w, s);
    if Loses(s, e) {
      FailRunTakes(w, e.exc, e.failure, s);
    } else {
      EventCarries(w, e, s);
    }
  }

  lemma {:induction false} FailRunTakes(w: Setup, exc: Exc, failure: Failure, s: Sys)
    requires Loses(s, FailRun(exc, failure))
    ensures !Durable(Happen(w, FailRun(exc, failure), s).db, s.main.node.value)
  {
    hide FailRunProgram, After;
    FailRunCloses(w.hash, exc, failure, State(s.main, s.db));
  }

  // ----- whole runs -----

  lemma {:induction false} MomentCarries(w: Setup, events: seq<Event>, k: nat)
    requires Topological(w.nodes) && k < |events| && !Replay(w, events[..k]).opening.Again?
    requires !Loses(Replay(w, events[..k]), events[k])
    ensures Carried(Replay(w, events[..k]), Replay(w, events[..k + 1]))
  {
    hide Ok, Topological, Happen, Carried, Loses;
    ReachableOk(w, events[..k]);
    EventCarries(w, events[k], Replay(w, events[..k]));
    assert events[..k + 1][..k] == events[..k];
  }

  /** For a run to count as only resumed since moment k, it is enough that every process booted since then resumes it, and finds
      a checkpoint to resume from unless it finds no run at all. */
  lemma {:induction false} ResumingBootsSuffice(w: Setup, events: seq<Event>, k: nat)
    requires Topological(w.nodes) && k <= |events| && !Replay(w, events[..k]).up
    requires forall m :: k <= m < |events| && events[m].Boot? ==>
               events[m].resume && !events[m].force
               && (Replay(w, events[..m]).db.run.Some? ==> HasCheckpoint(Replay(w, events[..m]).db))
    ensures ResumedSince(w, events, k)
  {
    hide Happen, Replay, Topological, Loses, HasCheckpoint;
    forall m | k <= m <= |events|
      ensures !Replay(w, events[..m]).opening.Again?
      ensures m < |events| ==> !Loses(Replay(w, events[..m]), events[m])
    {
      OpenedWell(w, events, k, m);
      if m < |events| {
        WellLosesNothing(w, events, m);
      }
    }
  }

  /** The process that is up, if any, opened the run for the first time or resumed it from a checkpoint. */
  predicate WellOpened(s: Sys) {
    s.opening.FirstTime? || s.opening.FromCheckpoint?
  }

  lemma {:induction false} WellLosesNothing(w: Setup, events: seq<Event>, m: nat)
    requires Topological(w.nodes) && m < |events| && WellOpened(Replay(w, events[..m]))
    ensures !Loses(Replay(w, events[..m]), events[m])
  {
    hide Happen, Replay, Topological, Ok;
    ReachableOk(w, events[..m]);
    OkParts(w, Replay(w, events[..m]));
  }

  lemma {:induction false} OpenedWell(w: Setup, events: seq<Event>, k: nat, m: nat)
    requires Topological(w.nodes) && k <= m <= |events| && !Replay(w, events[..k]).up
    requires forall m :: k <= m < |events| && events[m].Boot? ==>
               events[m].resume && !events[m].force
               && (Replay(w, events[..m]).db.run.Some? ==> HasCheckpoint(Replay(w, events[..m]).db))
    ensures WellOpened(Replay(w, events[..m]))
    decreases m
  {
    hide Happen, Replay, Topological, HasCheckpoint, Ok;
    if m == k {
      ReachableOk(w, events[..k]);
      OkParts(w, Replay(w, events[..k]));
    } else {
      OpenedWell(w, events, k, m - 1);
      assert Replay(w, events[..m]) == Happen(w, events[m - 1], Replay(w, events[..m - 1])) by {
        assert events[..m][..m - 1] == events[..m - 1];
        ReplayLast(w, events[..m]);
      }
      StaysWellOpened(w, events[m - 1], Replay(w, events[..m - 1]));
    }
  }

  lemma {:induction false} ReplayLast(w: Setup, events: seq<Event>)
    requires events != []
    ensures Replay(w, events) == Happen(w, events[|events| - 1], Replay(w, events[..|events| - 1]))
  {
  }

  lemma {:induction false} StaysWellOpened(w: Setup, e: Event, s: Sys)
    requires WellOpened(s) && (e.Boot? ==> e.resume && !e.force && (s.db.run.Some? ==> HasCheckpoint(s.db)))
    ensures WellOpened(Happen(w, e, s))
  {
    hide Move, Apply, After, RestoreMemory, HasCheckpoint, Sync;
  }

  /** As long as the run is only resumed, the set of durably succeeded nodes only grows, and their outputs stay. */
  lemma {:induction false} DurableSuccessOnlyGrows(w: Setup, events: seq<Event>, k: nat)
    requires Topological(w.nodes) && k <= |events| && ResumedSince(w, events, k)
    ensures NothingLost(Replay(w, events[..k]).db, Replay(w, events).db)
    ensures OutputsStay(Replay(w, events[..k]).db, Replay(w, events).db)
    decreases |events| - k
  {
    hide Topological, Durable, Replay, Firm, Loses, LoadOutput;
    if k == |events| {
      assert events[..k] == events;
    } else {
      MomentCarries(w, events, k);
      DurableSuccessOnlyGrows(w, events, k + 1);
    }
  }

  /** At every moment, a row that names an output names one that can be read back. */
  lemma {:induction false} DurableSuccessIsUsable(w: Setup, events: seq<Event>, n: string)
    requires Topological(w.nodes)
    ensures var db := Replay(w, events).db; n in db.nodes && db.nodes[n].output.Some? ==> LoadOutput(db, n).Some?
  {
    hide Replay, Topological, Ok, LoadOutput;
    ReachableOk(w, events);
    OkParts(w, Replay(w, events));
  }

  /** Once a call of node i has ended as succeeded with output v, the node counts as succeeded and v can be read back, at every
      later moment as long as the run is only resumed. */
  lemma {:induction false} ReturnedOutputStays(w: Setup, events: seq<Event>, k: nat, i: nat, v: Json)
    requires Topological(w.nodes) && k <= |events| && ResumedSince(w, events, k)
    requires i in Replay(w, events[..k]).workers && w.enabled(i)
    requires var control := Replay(w, events[..k]).workers[i].control;
             control.Done? && control.verdict.Returned? && Success(control.verdict.result.status)
             && control.verdict.result.output == Some(v)
    ensures i < |w.nodes| && Durable(Replay(w, events).db, w.nodes[i].key)
            && LoadOutput(Replay(w, events).db, w.nodes[i].key) == Some(v)
  {
    hide Replay, Topological, DbOk, Trusted, SuccessesKnown, DirectOk, LoadOutput, Durable;
    var s := Replay(w, events[..k]);
    ReachableOk(w, events[..k]);
    assert WorkerOk(w, i, s.workers[i], s.db, s.opening.Again?);
    DurableSuccessOnlyGrows(w, events, k);
  }

  /** The worker of node i is about to call the node's function. */
  predicate Calls(s: Sys, e: Event, i: nat) {
    e.Step? && e.i == i && s.up && i in s.workers && s.workers[i].control.Call? && s.workers[i].todo == []
  }

  /** Once a node has durably succeeded, its function is not called again for as long as the run is only resumed. */
  lemma {:induction false} NeverCalledAgain(w: Setup, events: seq<Event>, k: nat, later: nat, i: nat)
    requires Topological(w.nodes) && k <= later < |events| && i < |w.nodes| && ResumedSince(w, events[..later], k)
    requires Durable(Replay(w, events[..k]).db, w.nodes[i].key)
    ensures !Calls(Replay(w, events[..later]), events[later], i)
  {
    hide Happen, Topological, DbOk, Trusted, SuccessesKnown, DirectOk, WorkerOk, Replay, Durable;
    var s := Replay(w, events[..later]);
    ReachableOk(w, events[..later]);
    assert events[..later][..k] == events[..k];
    DurableSuccessOnlyGrows(w, events[..later], k);
    if i in s.workers {
      assert WorkerOk(w, i, s.workers[i], s.db, s.opening.Again?);
      InPlan(w, i, s.workers[i], s.db, s.opening.Again?);
      if Calls(s, events[later], i) {
        CallerIsUnfinished(w, i, s.workers[i], s.db, s.opening.Again?);
      }
    }
  }

  lemma {:induction false} CallerIsUnfinished(w: Setup, i: nat, worker: Worker, db: Db, again: bool)
    requires WorkerOk(w, i, worker, db, again) && worker.control.Call? && worker.todo == []
    ensures !Durable(db, worker.job.spec.key)
  {
    hide JobOk, Holds;
    var stance :| Stands(worker.job.spec.key, Want(worker.control), stance, State(worker.regs, db)) && Typed(worker, stance, again);
    EndsNothing(worker.job, Want(worker.control), stance);
  }

  lemma {:induction false} DownIsFirm(s: Sys)
    requires s == INITIAL.(db := s.db)
    ensures Firm(s, |s.db.artifacts|)
  {
  }

  lemma {:induction false} CarriesFirm(s: Sys, t: Sys, from: nat)
    requires Carried(s, t) && Firm(s, from) && from <= |s.db.artifacts|
    ensures Firm(t, from) && from <= |t.db.artifacts|
  {
    hide NothingLost, Backed, OutputsStay;
    forall memory | Backed(s.db, memory)
      ensures Backed(t.db, memory)
    {
      StaysBacked(s.db, t.db, memory);
    }
    assert Firm(s, |s.db.artifacts|);
    forall a | from <= a < |s.db.artifacts| && t.db.artifacts[a].content.Snapshot?
      ensures Backed(t.db, t.db.artifacts[a].content.memory)
    {
      assert t.db.artifacts[a] == s.db.artifacts[a];
    }
  }

  /** From a moment without a process on, memories and new checkpoints are backed, as long as the run is only resumed. */
  lemma {:induction false} FirmSince(w: Setup, events: seq<Event>, k: nat, m: nat)
    requires Topological(w.nodes) && k <= m <= |events| && ResumedSince(w, events, k) && !Replay(w, events[..k]).up
    ensures var from := |Replay(w, events[..k]).db.artifacts|;
            from <= |Replay(w, events[..m]).db.artifacts| && Firm(Replay(w, events[..m]), from)
    decreases m
  {
    hide Topological, Replay, Firm, Carried, Loses, Ok;
    if m == k {
      ReachableOk(w, events[..k]);
      OkParts(w, Replay(w, events[..k]));
      DownIsFirm(Replay(w, events[..k]));
    } else {
      FirmSince(w, events, k, m - 1);
      MomentCarries(w, events, m - 1);
      CarriesFirm(Replay(w, events[..m - 1]), Replay(w, events[..m]), |Replay(w, events[..k]).db.artifacts|);
    }
  }

  /** Every checkpoint written since lists durably succeeded nodes only, and still does after any number of further resumes. */
  lemma {:induction false} CheckpointsAreContained(w: Setup, events: seq<Event>, k: nat, a: nat)
    requires Topological(w.nodes) && k <= |events| && ResumedSince(w, events, k) && !Replay(w, events[..k]).up
    requires |Replay(w, events[..k]).db.artifacts| <= a < |Replay(w, events).db.artifacts|
    requires Replay(w, events).db.artifacts[a].content.Snapshot?
    ensures Replay(w, events).db.artifacts[a].content.memory.completed <= SucceededNodes(Replay(w, events).db)
  {
    hide Topological, Replay, SucceededNodes, Loses;
    FirmSince(w, events, k, |events|);
    assert events[..|events|] == events;
  }
}
