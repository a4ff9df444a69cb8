/** The resume gate: which input digests survive crashes, and exactly when a changed input is turned away. */
module Gate {
  import opened Json
  import opened Workflow
  import opened Store
  import opened Tables
  import opened Execution
  import opened Process
  import opened Protocol
  import D = Discipline
  import H = History

  /** The digest of the newest input recorded under `key`. */
  function Recorded(artifacts: seq<ArtifactRow>, key: string): Option<Digest> {
    if artifacts == [] then None
    else
      var last := artifacts[|artifacts| - 1];
      if RecordsInput(last) && last.key[..|last.key| - 6] == key then Some(last.hash)
      else Recorded(artifacts[..|artifacts| - 1], key)
  }

  /** Reading the input digests back finds, for each key, the newest one recorded. */
  lemma {:induction false} NewestInputWins(start: map<string, Digest>, artifacts: seq<ArtifactRow>, key: string)
    ensures var read := ReadInputHashes(start, artifacts);
            match Recorded(artifacts, key)
            case Some(digest) => key in read && read[key] == digest
            case None => (key in read <==> key in start) && (key in read ==> read[key] == start[key])
  {
    if artifacts != [] {
      NewestInputWins(start, artifacts[..|artifacts| - 1], key);
    }
  }

  lemma {:induction false} NothingNewRecorded(before: seq<ArtifactRow>, more: seq<ArtifactRow>, key: string)
    requires forall a :: 0 <= a < |more| ==> !(RecordsInput(more[a]) && more[a].key[..|more[a].key| - 6] == key)
    ensures Recorded(before + more, key) == Recorded(before, key)
  {
    if more == [] {
      assert before + more == before;
    } else {
      var front := more[..|more| - 1];
      assert (before + more)[..|before + more| - 1] == before + front;
      assert (before + more)[|before + more| - 1] == more[|more| - 1];
      NothingNewRecorded(before, front, key);
    }
  }

  lemma {:induction false} InputIsRecorded(before: seq<ArtifactRow>, row: ArtifactRow, key: string)
    requires row.kind == Input && row.key == key + ".input"
    ensures Recorded(before + [row], key) == Some(row.hash)
  {
    assert (before + [row])[|before + [row]| - 1] == row;
    assert row.key[..|row.key| - 6] == key && row.key[|row.key| - 6..] == ".input";
  }

  /** Some recorder writes another input under `key`. */
  predicate Rebinds(e: H.Event, key: string) {
    e.Work? && e.commit.AddArtifact? && e.commit.kind == Input && e.commit.key == key + ".input"
  }

  lemma {:induction false} CommitRecords(hash: Hasher, e: H.Event, f: H.Fleet, key: string)
    requires !Rebinds(e, key)
    ensures Recorded(H.Happen(hash, e, f).db.artifacts, key) == Recorded(f.db.artifacts, key)
  {
    if e.Work? && e.id in f.recorders {
      var s := State(f.recorders[e.id], f.db);
      AddsAtMostOne(hash, e.commit, s, key);
    }
  }

  lemma {:induction false} KeyRejoins(key: string)
    ensures EndsWith(key, ".input") ==> key == key[..|key| - 6] + ".input"
  {
    if |key| >= 6 {
      assert key == key[..|key| - 6] + key[|key| - 6..];
    }
  }

  lemma {:induction false} AddsAtMostOne(hash: Hasher, c: Commit, s: State, key: string)
    requires !(c.AddArtifact? && c.kind == Input && c.key == key + ".input")
    ensures Recorded(Apply(hash, c, s).db.artifacts, key) == Recorded(s.db.artifacts, key)
  {
    hide Recorded, ApplyClaims, ApplyResolutions, AttemptErrorKey, ErrorContent;
    if c.AddArtifact? || (c.FailAttempt? && AttemptOpen(s)) {
      var t := Apply(hash, c, s);
      var row := t.db.artifacts[|s.db.artifacts|];
      assert t.db.artifacts == s.db.artifacts + [row];
      KeyRejoins(row.key);
      NothingNewRecorded(s.db.artifacts, [row], key);
    } else {
      assert Apply(hash, c, s).db.artifacts == s.db.artifacts;
    }
  }

  /** No crash, restart or other recorder loses or replaces a recorded input digest. */
  lemma {:induction false} RecordedInputSurvives(hash: Hasher, events: seq<H.Event>, f: H.Fleet, key: string)
    requires forall k :: 0 <= k < |events| ==> !Rebinds(events[k], key)
    ensures Recorded(H.Replay(hash, events, f).db.artifacts, key) == Recorded(f.db.artifacts, key)
  {
    hide Recorded, H.Happen;
    if events != [] {
      var front := events[..|events| - 1];
      assert forall k :: 0 <= k < |front| ==> front[k] == events[k];
      RecordedInputSurvives(hash, front, f, key);
      CommitRecords(hash, events[|events| - 1], H.Replay(hash, front, f), key);
    }
  }

  /** Binding an input makes its digest the newest one under its key. */
  lemma {:induction false} BindingIsRecorded(hash: Hasher, key: string, content: Json, s: State)
    requires NodeOpen(s)
    ensures Recorded(After(hash, BindProgram(hash, key, content), s).db.artifacts, key) == Some(hash(Document(content)))
  {
    hide Recorded;
    var program := BindProgram(hash, key, content);
    var s1 := Apply(hash, program[0], s);
    var s2 := Apply(hash, program[1], s1);
    var s3 := Apply(hash, program[2], s2);
    var s4 := Apply(hash, program[3], s3);
    assert program[1..][1..][1..][1..] == [];
    assert After(hash, program[1..][1..][1..][1..], s4) == s4;
    assert After(hash, program[1..][1..][1..], s3) == s4;
    assert After(hash, program[1..][1..], s2) == s4;
    assert After(hash, program, s) == s4;
    InputIsRecorded(s1.db.artifacts, s2.db.artifacts[|s1.db.artifacts|], key);
    assert s4.db.artifacts == s1.db.artifacts + [s2.db.artifacts[|s1.db.artifacts|]];
  }

  /** A resumed recorder holds the newest recorded digest of every input, provided the run ever reached a checkpoint;
      before the first checkpoint it holds none. */
  lemma {:induction false} RestoredDigest(db: Db, key: string, digest: Digest)
    requires Recorded(db.artifacts, key) == Some(digest)
    ensures key in RestoreMemory(db).inputHashes <==> HasCheckpoint(db)
    ensures HasCheckpoint(db) ==> RestoreMemory(db).inputHashes[key] == digest
  {
    hide Recorded, ReadInputHashes, ReadOutputHashes, SucceededNodes, Latest;
    if HasCheckpoint(db) {
      var found := Latest(db.artifacts, Checkpoint, "checkpoint." + db.run.value.lastCheckpoint.value);
      var base := if found.Some? && db.artifacts[found.value].content.Snapshot?
                  then db.artifacts[found.value].content.memory else EMPTY_MEMORY;
      NewestInputWins(base.inputHashes, db.artifacts, key);
    }
  }

  ghost predicate Injective(hash: Hasher) {
    (forall a, b :: hash(Document(a)) == hash(Document(b)) ==> a == b) && forall a :: hash(Document(a)) != ""
  }

  /** The recorder that a resume of this database opens. */
  function Resumed(db: Db): Regs {
    ApplyOpenRun(true, false, State(EMPTY_REGS, db)).regs
  }

  /** The gate is exact. A node's full input p was bound; later, after any events at all, the run is resumed and the
      node is executed with input q. It is rejected if and only if q differs from p and the run has a checkpoint. */
  lemma {:induction false} GateIsExact(
      hash: Hasher, s: State, p: Json, others: map<nat, Regs>, events: seq<H.Event>, job: Job, env: Env)
    requires Injective(hash) && env.hash == hash && env.planned && NodeOpen(s) && job.payload.Some?
    requires forall k :: 0 <= k < |events| ==> !Rebinds(events[k], FullKey(job.spec.key))
    requires s.db.run.Some?
    ensures var bound := After(hash, BindProgram(hash, FullKey(job.spec.key), p), s);
            var db := H.Replay(hash, events, H.Fleet(others, bound.db)).db;
            db.run.Some? && (GateRejects(job, env, Resumed(db)) <==> job.payload.value != p && HasCheckpoint(db))
  {
    hide Recorded, RestoreMemory, BindProgram;
    var key := FullKey(job.spec.key);
    var bound := After(hash, BindProgram(hash, key, p), s);
    var f := H.Fleet(others, bound.db);
    var db := H.Replay(hash, events, f).db;
    BindingIsRecorded(hash, key, p, s);
    RecordedInputSurvives(hash, events, f, key);
    ProgramKeepsRun(hash, BindProgram(hash, key, p), s);
    ReplayKeepsRun(hash, events, f);
    var reopened := db.(run := Some(ReopenedRun(db.run, true)));
    RestoredDigest(reopened, key, hash(Document(p)));
    assert HasCheckpoint(reopened) <==> HasCheckpoint(db);
    assert Resumed(db).memory == RestoreMemory(reopened) && Resumed(db).resume;
    assert key == job.spec.key + ".full";
  }

  lemma {:induction false} CommitKeepsRun(hash: Hasher, c: Commit, s: State)
    requires s.db.run.Some?
    ensures Apply(hash, c, s).db.run.Some?
  {
    hide ApplyClaims, ApplyResolutions, RestoreMemory, AttemptErrorKey;
  }

  lemma {:induction false} ProgramKeepsRun(hash: Hasher, program: Program, s: State)
    requires s.db.run.Some?
    ensures After(hash, program, s).db.run.Some?
    decreases |program|
  {
    hide Apply;
    if program != [] {
      CommitKeepsRun(hash, program[0], s);
      ProgramKeepsRun(hash, program[1..], Apply(hash, program[0], s));
    }
  }

  lemma {:induction false} ReplayKeepsRun(hash: Hasher, events: seq<H.Event>, f: H.Fleet)
    requires f.db.run.Some?
    ensures H.Replay(hash, events, f).db.run.Some?
  {
    hide Apply;
    if events != [] {
      var front := events[..|events| - 1];
      ReplayKeepsRun(hash, front, f);
      var e := events[|events| - 1];
      var before := H.Replay(hash, front, f);
      if e.Work? && e.id in before.recorders {
        CommitKeepsRun(hash, e.commit, State(before.recorders[e.id], before.db));
      }
    }
  }

  /** A rejected execution of an enabled node ends at once, and no crash point on the way shows a changed database. */
  lemma {:induction false} RejectionWritesNothing(job: Job, env: Env, regs: Regs, db: Db, k: nat)
    requires job.enabled && GateRejects(job, env, regs) && !env.cancelled(0)
    ensures var c := Run(Config(Start(job, env, regs), db), k + 1);
            c.db == db && c.worker.todo == [] && c.worker.control == Done(Raised(ResumeRejected("resume_input_hash_mismatch")))
    decreases k
  {
    hide GateRejects;
    var c := Config(Start(job, env, regs), db);
    Decides(c);
    if k == 0 {
      assert Run(c, 1) == Run(Move(c), 0);
    } else {
      RejectionWritesNothing(job, env, regs, db, k - 1);
      RunSplit(c, k, 1);
      var before := Run(c, k);
      assert Run(before, 1) == Run(Move(before), 0);
      Decides(before);
    }
  }

  // ----- checkpoint and restore -----

  /** What a recorder that has just synchronised knows, and the tables once it has saved that under a checkpoint. */
  function Synced(s: State): State {
    s.(regs := s.regs.(memory := Sync(s.regs.memory, s.db)))
  }

  function Saved(hash: Hasher, name: string, s: State): Db {
    After(hash, CheckpointProgram(name, Synced(s).regs.memory), Synced(s)).db
  }

  /** A checkpoint written after a sync lists exactly the nodes that have succeeded, and a process that resumes from it knows
      them, every input digest and every output digest that the recorder knew, those of the stages included. */
  lemma {:induction false} CheckpointRestores(hash: Hasher, name: string, s: State)
    requires s.db.run.Some? && name != ""
    requires forall n :: n in s.db.nodes && s.db.nodes[n].output.Some? ==> s.db.nodes[n].output.value < |s.db.artifacts|
    ensures var memory, restored := Synced(s).regs.memory, RestoreMemory(Saved(hash, name, s));
            && (forall n :: n in memory.completed <==> n in s.db.nodes && s.db.nodes[n].status in {Succeeded, Completed})
            && restored.completed == memory.completed
            && restored.inputHashes == memory.inputHashes
            && restored.outputHashes == memory.outputHashes
    ensures var memory := Snapshot(Synced(s).regs.memory);
            Saved(hash, name, s).artifacts
            == s.db.artifacts + [ArtifactRow(Checkpoint, "checkpoint." + name, memory, hash(memory), s.regs.node, s.regs.attempt)]
  {
    hide ReadInputHashes, Latest, CheckpointProgram, After, ReadOutputHashes;
    var memory, db := Synced(s).regs.memory, Saved(hash, name, s);
    AfterCheckpoint(hash, name, memory, Synced(s));
    var row := ArtifactRow(Checkpoint, "checkpoint." + name, Snapshot(memory), hash(Snapshot(memory)), s.regs.node, s.regs.attempt);
    assert db.artifacts == s.db.artifacts + [row];
    LatestIsLast(s.db.artifacts, row);
    InputsReadAgain(s.regs.memory.inputHashes, s.db.artifacts, row);
    assert RestoreMemory(db) == Sync(memory, db);
    OutputsReadAgain(s.regs.memory.outputHashes, s.db, db);
  }

  lemma {:induction false} OutputsReadAgain(start: map<string, Digest>, a: Db, b: Db)
    requires a.nodes == b.nodes && a.artifacts <= b.artifacts
    requires forall n :: n in a.nodes && a.nodes[n].output.Some? ==> a.nodes[n].output.value < |a.artifacts|
    ensures var all := ReadOutputHashes(start, SucceededNodes(a), a);
            SucceededNodes(b) == SucceededNodes(a) && ReadOutputHashes(all, SucceededNodes(b), b) == all
  {
    assert SucceededNodes(a) == SucceededNodes(b);
    var nodes := SucceededNodes(a);
    assert OutputHashes(nodes, a) == OutputHashes(nodes, b) by {
      forall n | n in nodes
        ensures HasOutputRow(a, n) <==> HasOutputRow(b, n)
        ensures HasOutputRow(a, n) ==> OutputHash(a, n) == OutputHash(b, n)
      {
      }
    }
  }

  lemma {:induction false} LatestIsLast(artifacts: seq<ArtifactRow>, row: ArtifactRow)
    ensures Latest(artifacts + [row], row.kind, row.key) == Some(|artifacts|)
  {
    assert (artifacts + [row])[|artifacts|] == row;
  }

  /** Reading the inputs once more changes nothing. */
  lemma {:induction false} InputsReadAgain(start: map<string, Digest>, artifacts: seq<ArtifactRow>, row: ArtifactRow)
    requires row.kind == Checkpoint
    ensures ReadInputHashes(ReadInputHashes(start, artifacts), artifacts + [row]) == ReadInputHashes(start, artifacts)
  {
    hide ReadInputHashes, Recorded;
    var all := ReadInputHashes(start, artifacts);
    var again := ReadInputHashes(all, artifacts + [row]);
    forall key
      ensures key in again <==> key in all
      ensures key in again ==> again[key] == all[key]
    {
      NewestInputWins(start, artifacts, key);
      NewestInputWins(all, artifacts + [row], key);
      NothingNewRecorded(artifacts, [row], key);
    }
  }

  // ----- which runs may be resumed -----

  /** How the program opens an existing run that it does not restart by force. */
  predicate CallerResumes(run: Option<RunRow>) {
    run.Some?
    && if run.value.status == RunRunning then run.value.lastCheckpoint.Some? && run.value.lastCheckpoint.value != ""
       else IsRunResumable(run)
  }

  /** Under the program's own policy the gate is exact without more: a changed input is turned away if and only if the run
      is resumed at all. */
  lemma {:induction false} CallerGateIsExact(
      hash: Hasher, s: State, p: Json, others: map<nat, Regs>, events: seq<H.Event>, job: Job, env: Env)
    requires Injective(hash) && env.hash == hash && env.planned && NodeOpen(s) && job.payload.Some?
    requires forall k :: 0 <= k < |events| ==> !Rebinds(events[k], FullKey(job.spec.key))
    requires s.db.run.Some?
    ensures var db := H.Replay(hash, events, H.Fleet(others, After(hash, BindProgram(hash, FullKey(job.spec.key), p), s).db)).db;
            var regs := ApplyOpenRun(CallerResumes(db.run), false, State(EMPTY_REGS, db)).regs;
            GateRejects(job, env, regs) <==> job.payload.value != p && CallerResumes(db.run)
  {
    hide Recorded, RestoreMemory, BindProgram, After, H.Replay, Injective, FullKey, Rebinds;
    GateIsExact(hash, s, p, others, events, job, env);
  }

  /** `is_run_resumable` */
  predicate IsRunResumable(run: Option<RunRow>) {
    run.Some? && (run.value.status == RunFailed || run.value.status == RunInterrupted || run.value.status == RunCancelled)
    && run.value.resumable
    && run.value.lastCheckpoint.Some? && run.value.lastCheckpoint.value != "" && run.value.lastCheckpoint.value != "FINALIZED"
  }

  /** A run that was ended may be resumed exactly when it did not end well and a checkpoint other than the last was reached. */
  lemma {:induction false} EndedRunIsResumable(hash: Hasher, status: RunStatus, s: State)
    requires s.db.run.Some?
    ensures IsRunResumable(Apply(hash, CloseRun(status), s).db.run) <==>
            (status == RunFailed || status == RunInterrupted || status == RunCancelled)
            && HasCheckpoint(s.db) && s.db.run.value.lastCheckpoint.value != "FINALIZED"
  {
  }

  /** By the program's policy, a run that was opened and cut off is resumed exactly when it has a checkpoint, and one that was
      ended exactly when it did not end well and has a checkpoint other than the last; no run at all never is. */
  lemma {:induction false} PolicyIsExact(hash: Hasher, s: State, resume: bool, force: bool, status: RunStatus)
    ensures var begun := ApplyOpenRun(resume, force, s).db; CallerResumes(begun.run) <==> HasCheckpoint(begun)
    ensures s.db.run.Some? && status != RunRunning ==>
              (CallerResumes(Apply(hash, CloseRun(status), s).db.run) <==>
                 && status in {RunFailed, RunInterrupted, RunCancelled}
                 && HasCheckpoint(s.db) && s.db.run.value.lastCheckpoint.value != "FINALIZED")
    ensures !CallerResumes(None)
  {
    hide RestoreMemory;
  }

  /** An enabled node that was given up on, and so is marked skipped, is never tried again by a resumed run: it answers with
      no output, whatever its function would return. Runs in which a node gives up are therefore no refinement. */
  lemma {:induction false} GivenUpNodeIsNotRetried(job: Job, env: Env, regs: Regs, db: Db, k: nat)
    requires job.enabled && regs.resume && !regs.force && !env.cancelled(0) && !GateRejects(job, env, regs)
    requires job.spec.key in db.nodes && db.nodes[job.spec.key].status == Skipped
    ensures var c := Run(Config(Start(job, env, regs), db), k + 1);
            c.db == db && c.worker.calls == 0 && c.worker.todo == [] && c.worker.control.Done?
            && c.worker.control.verdict.Returned? && c.worker.control.verdict.result.output == None
            && c.worker.control.verdict.result.status == Skipped
    decreases k
  {
    hide GateRejects;
    var c := Config(Start(job, env, regs), db);
    Decides(c);
    if k == 0 {
      assert Run(c, 1) == Run(Move(c), 0);
    } else {
      GivenUpNodeIsNotRetried(job, env, regs, db, k - 1);
      RunSplit(c, k, 1);
      var before := Run(c, k);
      assert Run(before, 1) == Run(Move(before), 0);
      Decides(before);
    }
  }

  /** The exact condition. In a resumed, unforced run whose memory lists succeeded nodes only, a call that is enabled, not
      cancelled, has a stage and passes the gate invokes its function if and only if the node's row is neither skipped nor
      succeeded. */
  lemma {:induction false} ResumedCallIsExact(job: Job, env: Env, regs: Regs, db: Db)
    requires regs.resume && !regs.force && regs.stage.Some? && regs.memory.completed <= SucceededNodes(db)
    requires job.enabled && !env.cancelled(0) && !env.cancelled(1) && !GateRejects(job, env, regs)
    ensures var c := Config(Start(job, env, regs), db);
            D.Finish(c).worker.calls >= 1 <==>
            !(job.spec.key in db.nodes && (db.nodes[job.spec.key].status == Skipped || Success(db.nodes[job.spec.key].status)))
  {
    hide GateRejects, D.Finish, D.Ending, D.ModeAt, D.Retried, LoadOutput;
    if D.Admitted(job, env, regs, db) {
      D.RetryDiscipline(job, env, regs, db);
    } else {
      D.TurnedAwayChangesNothing(job, env, regs, db);
    }
  }

  lemma {:induction false} RunKeepsRun(c: Config, k: nat)
    requires c.db.run.Some?
    ensures Run(c, k).db.run.Some?
    decreases k
  {
    hide Move, Apply;
    if k > 0 {
      if c.worker.todo == [] {
        Decides(c);
      } else {
        MoveTodo(c);
        CommitKeepsRun(c.worker.env.hash, c.worker.todo[0], State(c.worker.regs, c.db));
      }
      RunKeepsRun(Move(c), k - 1);
    }
  }

  /** The failing case can be reached. An optional node whose every invocation fails in a way that is retried uses up its whole
      budget and is marked skipped; after a crash, a resumed run never invokes it again, whatever it would return. It answers with
      the warning and the class that the first call answered with. */
  lemma {:induction false} GivenUpForGood(job: Job, env: Env, regs: Regs, db: Db, later: Env, stage: Option<string>)
    requires D.Admitted(job, env, regs, db) && job.spec.criticality == Optional && db.run.Some?
    requires forall p :: !env.cancelled(p)
    requires forall n, mode :: AlwaysTransient(env.invoke(n, mode))
    ensures var end := D.Finish(Config(Start(job, env, regs), db));
            var resumed := ApplyOpenRun(true, false, State(EMPTY_REGS, end.db));
            var again := D.Finish(Config(Start(job, later, resumed.regs.(stage := stage)), resumed.db));
            && end.worker.calls == MaxAttemptsFor(job.spec, env.fallback)
            && job.spec.key in end.db.nodes && end.db.nodes[job.spec.key].status == Skipped
            && again.worker.calls == 0 && again.db == resumed.db
            && (!later.cancelled(0) && !GateRejects(job, later, resumed.regs.(stage := stage)) ==>
                  again.worker.control.verdict == end.worker.control.verdict)
  {
    hide GateRejects, D.Finish, D.ModeAt, LoadOutput, RestoreMemory, Run, D.Ending, D.Tells, D.SameButCount, D.StatusFor, Message;
    D.CallEnds(job, env, regs, db);
    var c := Config(Start(job, env, regs), db);
    var end := D.Finish(c);
    D.RetryDiscipline(job, env, regs, db);
    assert AlwaysTransient(env.invoke(end.worker.calls, D.ModeAt(env, end.worker.calls)));
    var k := D.FinishIsRun(c);
    RunKeepsRun(c, k);
    var resumed := ApplyOpenRun(true, false, State(EMPTY_REGS, end.db));
    D.TurnedAwayChangesNothing(job, later, resumed.regs.(stage := stage), resumed.db);
    D.EntryEnds(job, later, resumed.regs.(stage := stage), resumed.db);
  }

  predicate AlwaysTransient(outcome: Outcome) {
    outcome.Raises? && outcome.exc.NodeError? && outcome.exc.failureClass == Transient
  }

  /** A changed input at a concrete database: node "a" was bound to one number, the run crashed before its first checkpoint,
      and a recorder that resumes it lets another number pass. */
  lemma {:induction false} ChangedInputPasses(hash: Hasher, job: Job, env: Env)
    requires Injective(hash) && env.hash == hash && env.planned && job.spec.key == "a" && job.payload == Some(Num(2))
    ensures var row := NodeRow("stage", Running, Mandatory, 1, 3, true, None, None, None, None);
            var db := EMPTY_DB.(run := Some(RunRow(RunRunning, None, false, None, None, None)), nodes := map["a" := row]);
            var crashed := After(hash, BindProgram(hash, FullKey("a"), Num(1)), State(EMPTY_REGS.(node := Some("a")), db)).db;
            && Recorded(crashed.artifacts, FullKey("a")) == Some(hash(Document(Num(1))))
            && hash(Document(Num(1))) != hash(Document(Num(2)))
            && !GateRejects(job, env, Resumed(crashed)) && !CallerResumes(crashed.run)
  {
    hide Recorded, RestoreMemory, BindProgram, GateRejects, After;
    var row := NodeRow("stage", Running, Mandatory, 1, 3, true, None, None, None, None);
    var db := EMPTY_DB.(run := Some(RunRow(RunRunning, None, false, None, None, None)), nodes := map["a" := row]);
    var s := State(EMPTY_REGS.(node := Some("a")), db);
    BindingIsRecorded(hash, FullKey("a"), Num(1), s);
    GateIsExact(hash, s, Num(1), map[], [], job, env);
    BindingKeepsCheckpoint(hash, FullKey("a"), Num(1), s);
    assert hash(Document(Num(1))) == hash(Document(Num(2))) ==> Num(1) == Num(2);
  }

  lemma {:induction false} BindingKeepsCheckpoint(hash: Hasher, key: string, content: Json, s: State)
    requires s.db.run.Some?
    ensures var run := After(hash, BindProgram(hash, key, content), s).db.run;
            run.Some? && run.value.lastCheckpoint == s.db.run.value.lastCheckpoint && run.value.status == s.db.run.value.status
  {
    hide LinkNew;
    var program := BindProgram(hash, key, content);
    var s1 := Apply(hash, program[0], s);
    var s2 := Apply(hash, program[1], s1);
    var s3 := Apply(hash, program[2], s2);
    var s4 := Apply(hash, program[3], s3);
    assert program[1..][1..][1..][1..] == [];
    assert After(hash, program[1..][1..][1..][1..], s4) == s4;
    assert After(hash, program[1..][1..][1..], s3) == s4;
    assert After(hash, program[1..][1..], s2) == s4;
    assert After(hash, program, s) == s4;
  }

  // ----- nodes left open -----

  /** A recorder that resumes this database executes a node that has succeeded, in some stage and past the gate: the call leaves
      the node open if and only if the run has no checkpoint. Otherwise it leaves none. */
  lemma {:induction false} OpenNodeIsExact(job: Job, env: Env, db: Db, stage: string)
    requires db.run.Some? && Durable(db, job.spec.key) && job.enabled && !env.cancelled(0) && !GateRejects(job, env, Resumed(db))
    ensures var t := ApplyOpenRun(true, false, State(EMPTY_REGS, db));
            var end := D.Finish(Config(Start(job, env, t.regs.(stage := Some(stage))), t.db));
            end.worker.regs.node == if HasCheckpoint(db) then None else Some(job.spec.key)
  {
    hide D.Finish, GateRejects, D.Admitted, Sync, Latest;
    var t := ApplyOpenRun(true, false, State(EMPTY_REGS, db));
    D.NodeOpenAtEnd(job, env, t.regs.(stage := Some(stage)), t.db);
    assert HasCheckpoint(t.db) <==> HasCheckpoint(db);
    RestoreListsSuccesses(t.db, job.spec.key);
    GateIgnoresStage(job, env, t.regs, stage);
    assert !D.Admitted(job, env, t.regs.(stage := Some(stage)), t.db) by { SucceededIsNotAdmitted(job, env, t, stage); }
  }

  lemma {:induction false} GateIgnoresStage(job: Job, env: Env, regs: Regs, stage: string)
    ensures GateRejects(job, env, regs.(stage := Some(stage))) <==> GateRejects(job, env, regs)
  {
  }

  lemma {:induction false} SucceededIsNotAdmitted(job: Job, env: Env, s: State, stage: string)
    requires s.regs.resume && !s.regs.force && Durable(s.db, job.spec.key)
    ensures !D.Admitted(job, env, s.regs.(stage := Some(stage)), s.db)
  {
    hide GateRejects;
  }

  lemma {:induction false} RestoreListsSuccesses(db: Db, n: string)
    requires Durable(db, n)
    ensures n in RestoreMemory(db).completed <==> HasCheckpoint(db)
  {
    hide Latest, ReadInputHashes, ReadOutputHashes;
  }
}
