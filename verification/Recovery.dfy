/** Crash, resume and restart refine the uninterrupted run: in every state that a regular run reaches, results and stored
    outputs are the reference ones. */
module Recovery {
  import opened Json
  import opened Workflow
  import opened Context
  import opened Store
  import opened Execution
  import opened Plan
  import opened Process
  import opened Stances
  import opened Workers
  import opened Durability
  import opened Protocol

  // ----- keys -----

  lemma {:induction false} SuffixDecides(left: string, right: string, a: string, b: string)
    requires left + a == right + b && |a| >= 2 && |b| >= 2
    ensures a[|a| - 1] == b[|b| - 1] && a[|a| - 2] == b[|b| - 2]
  {
    var l, r := left + a, right + b;
    assert l[|l| - 1] == a[|a| - 1] && l[|l| - 2] == a[|a| - 2];
    assert r[|r| - 1] == b[|b| - 1] && r[|r| - 2] == b[|b| - 2];
  }

  /** Only a node's own full input is stored under its full key. */
  lemma {:induction false} FullKeyIsOwn(n: string, mode: ContextMode, m: string)
    requires InputKey(n, mode) == FullKey(m)
    ensures mode == Full && n == m
  {
    assert FullKey(m) == m + "." + "full" && InputKey(n, mode) == n + "." + ModeName(mode);
    SuffixDecides(n + ".", m + ".", ModeName(mode), "full");
    assert InputKey(n, mode)[..|n|] == n && FullKey(m)[..|m|] == m;
  }

  lemma {:induction false} InputSuffix(key: string)
    ensures EndsWith(key + ".input", ".input") && (key + ".input")[..|key + ".input"| - 6] == key
  {
  }

  lemma {:induction false} DecimalEndsInDigit(n: nat)
    ensures '0' <= Decimal(n)[|Decimal(n)| - 1] <= '9'
  {
  }

  lemma {:induction false} OutputIsNoInput(prefix: string, n: nat)
    ensures !EndsWith(prefix + Decimal(n), ".input")
  {
    var key := prefix + Decimal(n);
    DecimalEndsInDigit(n);
    assert key[|key| - 1] == Decimal(n)[|Decimal(n)| - 1];
    if |key| >= 6 {
      assert key[|key| - 6..][5] == key[|key| - 1];
    }
  }

  lemma {:induction false} InputFits(w: World, i: nat, mode: ContextMode)
    requires i < |w.nodes| && Topological(w.nodes) && RefPayload(w, i).Some?
    ensures var payload := CompressPayload(RefPayload(w, i).value, mode);
            Fits(w, InputKey(w.nodes[i].key, mode), w.hash(Document(payload)))
  {
    hide Topological, Ref, RefPayload, InputKey;
    var key := InputKey(w.nodes[i].key, mode);
    forall j | 0 <= j < |w.nodes| && key == FullKey(w.nodes[j].key)
      ensures j == i && mode == Full
    {
      FullKeyIsOwn(w.nodes[i].key, mode, w.nodes[j].key);
      if i < j {
        KeysAreDistinct(w.nodes, i, j);
      } else if j < i {
        KeysAreDistinct(w.nodes, j, i);
      }
    }
  }

  // ----- rows -----

  /** The output a node's row names is the reference output, a succeeded node names it, and only disabled nodes are skipped. */
  ghost predicate NodeOk(w: World, i: nat, db: Db)
    requires i < |w.nodes|
  {
    var n := w.nodes[i].key;
    && (OutputOf(db, n).Some? ==> Holds(db.artifacts, OutputOf(db, n), Ref(w, i)))
    && (Durable(db, n) && Ref(w, i).Some? ==> OutputOf(db, n).Some?)
    && (n in db.nodes && db.nodes[n].status == Skipped ==> !w.enabled(i))
  }

  ghost predicate NodesOk(w: World, db: Db) {
    forall i :: 0 <= i < |w.nodes| ==> NodeOk(w, i, db)
  }

  lemma {:induction false} StoredIsReference(w: World, i: nat, db: Db)
    requires i < |w.nodes| && NodeOk(w, i, db) && Durable(db, w.nodes[i].key)
    ensures LoadOutput(db, w.nodes[i].key) == Ref(w, i)
  {
    hide Ref, RefPayload;
  }

  lemma {:induction false} SparedNode(w: World, i: nat, a: Db, b: Db)
    requires i < |w.nodes| && NodeOk(w, i, a) && Spares(w.nodes[i].key, a, b)
    ensures NodeOk(w, i, b)
  {
    hide Ref, RefPayload;
  }

  // ----- one worker -----

  /** What a pending commit may store and claim. */
  ghost predicate CommitOk(w: World, i: nat, control: Control, c: Commit)
    requires i < |w.nodes|
  {
    && (c.AddArtifact? && c.kind == Input && EndsWith(c.key, ".input") ==> Fits(w, c.key[..|c.key| - 6], w.hash(c.content)))
    && (c.FailNode? ==> c.nodeStatus != Skipped && !Success(c.nodeStatus))
    && (c.MarkSkipped? ==> !w.enabled(i))
    && (c.CloseNode? ==> control.Conclude? && control.pending.Returned? && control.pending.result.output == Ref(w, i))
  }

  ghost predicate TodoOk(w: World, i: nat, control: Control, todo: Program)
    requires i < |w.nodes|
  {
    forall c :: c in todo ==> CommitOk(w, i, control, c)
  }

  ghost predicate GoodVerdict(w: World, i: nat, v: Verdict)
    requires i < |w.nodes|
  {
    v.Returned? ==> v.result.output == Ref(w, i) && (w.enabled(i) ==> Success(v.result.status))
  }

  ghost predicate ControlOk(w: World, i: nat, control: Control)
    requires i < |w.nodes|
  {
    match control
    case Enter => true
    case Settle(outcome) => w.enabled(i) && (outcome.Returns? ==> outcome.output == Ref(w, i))
    case Conclude(v) => GoodVerdict(w, i, v)
    case Done(v) => GoodVerdict(w, i, v)
    case _ => w.enabled(i)
  }

  ghost predicate GivenOk(w: World, i: nat, worker: Worker)
    requires i < |w.nodes|
  {
    worker.job.payload == RefPayload(w, i) && Deterministic(w, i, RefPayload(w, i), worker.env)
    && worker.job.spec == w.nodes[i] && worker.job.enabled == w.enabled(i)
  }

  ghost predicate Valued(w: World, i: nat, worker: Worker) {
    && i < |w.nodes| && GivenOk(w, i, worker) && HashesFit(w, worker.regs.memory.inputHashes)
    && ControlOk(w, i, worker.control) && TodoOk(w, i, worker.control, worker.todo)
  }

  /** An unchanged input passes the resume gate. */
  lemma {:induction false} GatePasses(w: World, i: nat, worker: Worker)
    requires i < |w.nodes| && GivenOk(w, i, worker) && HashesFit(w, worker.regs.memory.inputHashes)
    ensures !GateRejects(worker.job, worker.env, worker.regs)
  {
    hide Ref, RefPayload;
    var key := FullKey(w.nodes[i].key);
    if key in worker.regs.memory.inputHashes {
      assert Fits(w, key, worker.regs.memory.inputHashes[key]);
      assert key == FullKey(w.nodes[i].key);
    }
  }

  lemma {:induction false} DisabledHasNoOutput(w: World, i: nat)
    requires i < |w.nodes| && !w.enabled(i)
    ensures Ref(w, i) == None
  {
  }

  lemma {:induction false} EnabledReturns(w: World, i: nat)
    requires i < |w.nodes| && w.enabled(i)
    ensures Ref(w, i) == w.value(i, RefPayload(w, i))
  {
  }

  lemma {:induction false} EnterIsValued(w: World, i: nat, worker: Worker, db: Db)
    requires Valued(w, i, worker) && worker.control.Enter? && EnterOk(worker, db) && NodeOk(w, i, db)
    ensures Valued(w, i, DecideEnter(worker, db))
  {
    hide Ref, RefPayload, Fits, HashesFit, GateRejects, LoadOutput, Deterministic, OutputOf, Holds;
    if Durable(db, w.nodes[i].key) {
      StoredIsReference(w, i, db);
    }
    if !w.enabled(i) {
      DisabledHasNoOutput(w, i);
    }
  }

  lemma {:induction false} HeadIsValued(w: World, i: nat, worker: Worker)
    requires Valued(w, i, worker) && worker.control.Head?
    ensures Valued(w, i, DecideHead(worker))
  {
    hide Ref, RefPayload, Fits, HashesFit, Deterministic;
  }

  lemma {:induction false} BindingIsOk(w: World, i: nat, control: Control, key: string, json: Json, job: Job, no: nat)
    requires i < |w.nodes| && Fits(w, key, w.hash(Document(json)))
    ensures TodoOk(w, i, control, BindProgram(w.hash, key, json) + PromptProgram(job, no, json))
  {
    hide Ref, RefPayload, Fits, Decimal;
    InputSuffix(key);
    assert BindProgram(w.hash, key, json)
        == [BindStage(w.hash(Document(json))), AddArtifact(Input, key + ".input", Document(json)), TouchRun, LinkInput];
  }

  lemma {:induction false} LearningFits(w: World, hashes: map<string, Digest>, key: string, digest: Digest)
    requires HashesFit(w, hashes) && Fits(w, key, digest)
    ensures HashesFit(w, hashes[key := digest])
  {
    hide Fits;
  }

  lemma {:induction false} BindIsValued(w: World, i: nat, worker: Worker, db: Db)
    requires Topological(w.nodes) && Valued(w, i, worker) && worker.control.Bind? && worker.todo == []
    ensures Valued(w, i, DecideBind(worker, db))
  {
    hide Ref, RefPayload, Fits, HashesFit, Topological, BindProgram, PromptProgram, InputKey, CompressPayload, TodoOk;
    assert w.hash == worker.env.hash;
    if worker.job.payload.Some? {
      var payload := CompressPayload(worker.job.payload.value, worker.mode);
      var key := InputKey(w.nodes[i].key, worker.mode);
      InputFits(w, i, worker.mode);
      LearningFits(w, worker.regs.memory.inputHashes, key, w.hash(Document(payload)));
      BindingIsOk(w, i, Call, key, payload, worker.job, AttemptNo(State(worker.regs, db)));
    } else {
      NothingTodo(w, i, Call);
    }
  }

  lemma {:induction false} NothingTodo(w: World, i: nat, control: Control)
    requires i < |w.nodes|
    ensures TodoOk(w, i, control, [])
  {
  }

  lemma {:induction false} EffectsAreOk(w: World, i: nat, control: Control, effects: Effects)
    requires i < |w.nodes|
    ensures TodoOk(w, i, control, effects)
  {
    hide Ref, RefPayload, Fits;
    assert forall c :: c in effects ==> Effect(c);
  }

  lemma {:induction false} CallIsValued(w: World, i: nat, worker: Worker)
    requires Valued(w, i, worker) && worker.control.Call?
    ensures Valued(w, i, DecideCall(worker))
  {
    hide Ref, RefPayload, Fits, HashesFit, TodoOk;
    EnabledReturns(w, i);
    var outcome := worker.env.invoke(worker.calls, worker.mode);
    EffectsAreOk(w, i, Settle(outcome), outcome.effects);
  }

  lemma {:induction false} ReturningIsOk(w: World, i: nat, control: Control, job: Job, no: nat, output: Option<Json>)
    requires i < |w.nodes| && control.Conclude? && control.pending.Returned? && control.pending.result.output == output == Ref(w, i)
    ensures TodoOk(w, i, control, ReturnProgram(job, no, output))
  {
    hide Ref, RefPayload, Fits, Decimal;
    OutputIsNoInput(job.spec.key + ".output.", no);
  }

  lemma {:induction false} FailingIsOk(
      w: World, i: nat, control: Control, job: Job, exc: Exc, failureClass: Option<FailureClass>, again: bool, cancelled: bool)
    requires i < |w.nodes|
    ensures TodoOk(w, i, control, FailAttemptProgram(exc, failureClass, again, again, cancelled) + [])
    ensures exc.JobCancelled? || TerminalVerdict(job, exc).Raised? ==>
              TodoOk(w, i, control, FailAttemptProgram(exc, failureClass, again, again, cancelled) + EndProgram(job, exc))
  {
    hide Ref, RefPayload, Fits, Classify, Message;
  }

  lemma {:induction false} SettleIsValued(w: World, i: nat, worker: Worker, db: Db)
    requires Valued(w, i, worker) && worker.control.Settle? && !GivesUp(DecideSettle(worker, db))
    ensures Valued(w, i, DecideSettle(worker, db))
  {
    hide Ref, RefPayload, Fits, HashesFit, TodoOk, DecideSettle, ReturnProgram, FailAttemptProgram, EndProgram, Retry, Classify,
      TerminalVerdict, Deterministic;
    if worker.control.outcome.Raises? {
      var exc := worker.control.outcome.exc;
      SettleRaise(worker, db);
      var again := !exc.JobCancelled? && Retry(worker.job, worker.env, exc, worker.calls, worker.mode).0;
      var failureClass := if exc.JobCancelled? then None else Some(Classify(exc));
      TerminalGivesUp(worker.job, exc);
      FailingIsOk(w, i, DecideSettle(worker, db).control, worker.job, exc, failureClass, again, exc.JobCancelled?);
    } else {
      var output := worker.control.outcome.output;
      SettleReturns(worker, db);
      ReturningIsOk(w, i, DecideSettle(worker, db).control, worker.job, AttemptNo(State(worker.regs, db)), output);
    }
  }

  lemma {:induction false} TerminalGivesUp(job: Job, exc: Exc)
    ensures var v := TerminalVerdict(job, exc); v.Returned? ==> v.result.status != Succeeded
  {
    hide Classify, Message;
  }

  lemma {:induction false} SettleReturns(worker: Worker, db: Db)
    requires worker.control.Settle? && worker.control.outcome.Returns?
    ensures var output := worker.control.outcome.output;
            DecideSettle(worker, db) == worker.(
              todo := ReturnProgram(worker.job, AttemptNo(State(worker.regs, db)), output),
              control := Conclude(Returned(NodeResult(Succeeded, output, false, false, None, None, 0))))
  {
    hide ReturnProgram;
  }

  lemma {:induction false} DecisionIsValued(w: World, i: nat, worker: Worker, db: Db)
    requires Topological(w.nodes) && Valued(w, i, worker) && worker.todo == [] && EnterOk(worker, db) && NodeOk(w, i, db)
    requires !GivesUp(Move(Config(worker, db)).worker)
    ensures Valued(w, i, Move(Config(worker, db)).worker)
  {
    hide Valued, Topological, NodeOk, DecideEnter, DecideHead, DecideBind, DecideCall, DecideSettle, Move, GivesUp, EnterOk;
    Decides(Config(worker, db));
    match worker.control
    case Enter => EnterIsValued(w, i, worker, db);
    case Head => HeadIsValued(w, i, worker);
    case Bind => BindIsValued(w, i, worker, db);
    case Call => CallIsValued(w, i, worker);
    case Settle(_) => SettleIsValued(w, i, worker, db);
    case Conclude(_) => ConcludeIsValued(w, i, worker, db);
    case Done(_) => {}
  }

  lemma {:induction false} ConcludeIsValued(w: World, i: nat, worker: Worker, db: Db)
    requires Valued(w, i, worker) && worker.control.Conclude? && worker.todo == []
    ensures Valued(w, i, worker.(control := Done(Count(worker.control.pending, worker.job, db))))
  {
    hide Ref, RefPayload, Fits, HashesFit, Deterministic;
  }

  /** The artifacts that a worker's commit adds fit. */
  lemma {:induction false} NewArtifactsFit(w: World, i: nat, control: Control, job: Job, c: Commit, stance: Stance, s: State)
    requires i < |w.nodes| && CommitOk(w, i, control, c) && Next(job, Want(control), c, stance).Some?
    ensures var t := Apply(w.hash, c, s);
            forall a :: |s.db.artifacts| <= a < |t.db.artifacts| ==> ArtifactOk(w, t.db.artifacts[a])
  {
    hide Ref, RefPayload, Fits, AttemptErrorKey, ApplyClaims, ApplyResolutions, LoadOutput;
  }

  /** The row of node i stays in order: it succeeds only with the reference output stored. */
  lemma {:induction false} CommitKeepsNode(w: World, i: nat, worker: Worker, c: Commit, a: Db, b: Db)
    requires i < |w.nodes| && NodeOk(w, i, a) && CommitOk(w, i, worker.control, c) && ControlOk(w, i, worker.control)
    requires worker.job.spec == w.nodes[i] && Grows(worker.job, Want(worker.control), a, b) && StatusAfter(w.nodes[i].key, c, a, b)
    ensures NodeOk(w, i, b)
  {
    hide Ref, RefPayload, Fits;
    var n := w.nodes[i].key;
    if Durable(b, n) && !Durable(a, n) {
      assert c.CloseNode?;
    }
    if !w.enabled(i) {
      DisabledHasNoOutput(w, i);
    }
  }

  /** What a move keeps of the values, besides the worker itself. */
  ghost predicate ValuesKept(w: World, i: nat, a: Db, b: Db)
    requires i < |w.nodes|
  {
    NodeOk(w, i, b) && a.artifacts <= b.artifacts && forall k :: |a.artifacts| <= k < |b.artifacts| ==> ArtifactOk(w, b.artifacts[k])
  }

  lemma {:induction false} CommitIsValued(w: World, i: nat, worker: Worker, db: Db, again: bool)
    requires db.run.Some? && WorkerOk(Base(w), i, worker, db, again) && Valued(w, i, worker) && NodeOk(w, i, db)
    requires worker.todo != []
    ensures var next := Move(Config(worker, db)); Valued(w, i, next.worker) && ValuesKept(w, i, db, next.db)
  {
    hide Ref, RefPayload, Fits, HashesFit, Deterministic, DoneOk, Move, Next, Stands, Apply, Grows, EnterOk, CommitOk, NodeOk,
      StatusAfter, ArtifactOk, ControlOk;
    var stance :| Stands(worker.job.spec.key, Want(worker.control), stance, State(worker.regs, db)) && Typed(worker, stance, again);
    var s, want, c := State(worker.regs, db), Want(worker.control), worker.todo[0];
    MoveTodo(Config(worker, db));
    CommitKeeps(w.hash, worker.job, want, c, stance, s);
    StatusesChange(w.hash, worker.job, want, c, stance, s);
    assert CommitOk(w, i, worker.control, c);
    NewArtifactsFit(w, i, worker.control, worker.job, c, stance, s);
    var next := Move(Config(worker, db));
    CommitKeepsNode(w, i, worker, c, db, next.db);
    GrowsArtifacts(worker.job, want, db, next.db);
  }

  lemma {:induction false} GrowsArtifacts(job: Job, want: Option<Json>, a: Db, b: Db)
    requires Grows(job, want, a, b)
    ensures a.artifacts <= b.artifacts
  {
  }

  /** Whatever a worker of a regular run does next, the values it stores and returns are the reference ones. */
  lemma {:induction false} MoveIsValued(w: World, i: nat, worker: Worker, db: Db, again: bool)
    requires Topological(w.nodes) && db.run.Some? && WorkerOk(Base(w), i, worker, db, again)
    requires Valued(w, i, worker) && NodeOk(w, i, db) && !GivesUp(Move(Config(worker, db)).worker)
    ensures var next := Move(Config(worker, db)); Valued(w, i, next.worker) && ValuesKept(w, i, db, next.db)
  {
    hide Valued, Topological, NodeOk, Move, GivesUp, DoneOk, Typed, Stands, ArtifactOk, JobOk;
    if worker.todo == [] {
      Decides(Config(worker, db));
      DecisionIsValued(w, i, worker, db);
    } else {
      CommitIsValued(w, i, worker, db, again);
    }
  }

  // ----- the whole run -----

  ghost predicate ResultsOk(w: World, s: Sys) {
    forall i :: i in s.results ==>
      i < |w.nodes| && s.results[i] == Ref(w, i) && (w.enabled(i) ==> Durable(s.db, w.nodes[i].key))
  }

  ghost predicate ValuesOk(w: World, s: Sys) {
    && NodesOk(w, s.db) && ArtifactsOk(w, s.db) && HashesFit(w, s.main.memory.inputHashes) && HashesFit(w, s.scope.inputHashes)
    && (forall i :: i in s.workers ==> Valued(w, i, s.workers[i]))
    && ResultsOk(w, s)
  }

  lemma {:induction false} SyncFits(w: World, start: map<string, Digest>, artifacts: seq<ArtifactRow>)
    requires HashesFit(w, start)
    requires forall a :: 0 <= a < |artifacts| && RecordsInput(artifacts[a]) ==>
               Fits(w, artifacts[a].key[..|artifacts[a].key| - 6], artifacts[a].hash)
    ensures HashesFit(w, ReadInputHashes(start, artifacts))
  {
    hide Fits, RecordsInput;
    if artifacts != [] {
      var front := artifacts[..|artifacts| - 1];
      assert forall a :: 0 <= a < |front| ==> front[a] == artifacts[a];
      SyncFits(w, start, front);
    }
  }

  lemma {:induction false} SyncKeeps(w: World, db: Db, memory: Memory)
    requires ArtifactsOk(w, db) && HashesFit(w, memory.inputHashes)
    ensures HashesFit(w, Sync(memory, db).inputHashes)
  {
    hide Fits, HashesFit, ReadInputHashes, ReadOutputHashes;
    forall a | 0 <= a < |db.artifacts| && RecordsInput(db.artifacts[a])
      ensures Fits(w, db.artifacts[a].key[..|db.artifacts[a].key| - 6], db.artifacts[a].hash)
    {
      assert ArtifactOk(w, db.artifacts[a]);
    }
    SyncFits(w, memory.inputHashes, db.artifacts);
  }

  lemma {:induction false} NoHashesFit(w: World)
    ensures HashesFit(w, EMPTY_MEMORY.inputHashes)
  {
  }

  /** What a resumed recorder restores fits the tables, whatever checkpoint it starts from. */
  lemma {:induction false} RestoreKeeps(w: World, db: Db)
    requires ArtifactsOk(w, db)
    ensures HashesFit(w, RestoreMemory(db).inputHashes)
  {
    hide Fits, HashesFit, Sync, Latest, HasCheckpoint;
    NoHashesFit(w);
    if HasCheckpoint(db) {
      RestoreIsSync(db);
      var found := Latest(db.artifacts, Checkpoint, "checkpoint." + CheckpointName(db));
      if found.Some? && db.artifacts[found.value].content.Snapshot? {
        assert ArtifactOk(w, db.artifacts[found.value]);
        SyncKeeps(w, db, db.artifacts[found.value].content.memory);
      } else {
        SyncKeeps(w, db, EMPTY_MEMORY);
      }
    }
  }

  lemma {:induction false} BootIsValued(w: World, resume: bool, force: bool, s: Sys)
    requires ValuesOk(w, s)
    ensures ValuesOk(w, Booted(resume, force, s.db))
  {
    hide Ref, RefPayload, HashesFit, RestoreMemory, ArtifactOk, Holds;
    var t := Booted(resume, force, s.db);
    assert t.db.nodes == s.db.nodes && t.db.artifacts == s.db.artifacts;
    forall i | 0 <= i < |w.nodes|
      ensures NodeOk(w, i, t.db)
    {
      assert NodeOk(w, i, s.db);
    }
    NoHashesFit(w);
    RestoreKeeps(w, t.db);
  }

  lemma {:induction false} DownIsValued(w: World, db: Db)
    requires NodesOk(w, db) && ArtifactsOk(w, db)
    ensures ValuesOk(w, INITIAL.(db := db))
  {
    hide Ref, RefPayload, HashesFit, NodesOk, ArtifactsOk;
    NoHashesFit(w);
  }

  lemma {:induction false} ResetIsValued(w: World, s: Sys)
    requires ValuesOk(w, s) && s.workers == map[] && s.results == map[]
    ensures ValuesOk(w, s.(db := Apply(w.hash, ResetForRestart, State(s.main, s.db)).db))
  {
    hide Ref, RefPayload, HashesFit, ArtifactOk, Valued;
  }

  /** Tables that differ in attempts, stages, claims and new fitting artifacts only are as good. */
  lemma {:induction false} SparedValues(w: World, s: Sys, db: Db)
    requires ValuesOk(w, s) && forall n :: Spares(n, s.db, db)
    requires forall a :: |s.db.artifacts| <= a < |db.artifacts| ==> ArtifactOk(w, db.artifacts[a])
    ensures NodesOk(w, db) && ArtifactsOk(w, db) && ResultsOk(w, s.(db := db))
  {
    hide Ref, RefPayload, HashesFit, ArtifactOk, Valued, NodeOk, Durable, Spares;
    forall i | 0 <= i < |w.nodes|
      ensures NodeOk(w, i, db) && (Durable(s.db, w.nodes[i].key) <==> Durable(db, w.nodes[i].key))
    {
      assert Spares(w.nodes[i].key, s.db, db);
      SparedNode(w, i, s.db, db);
      SparedOutput(w.nodes[i].key, s.db, db);
    }
    SparedArtifacts("", s.db, db);
    forall a | 0 <= a < |db.artifacts|
      ensures ArtifactOk(w, db.artifacts[a])
    {
      if a < |s.db.artifacts| {
        assert db.artifacts[a] == s.db.artifacts[a];
      }
    }
  }

  lemma {:induction false} SparedArtifacts(n: string, a: Db, b: Db)
    requires Spares(n, a, b)
    ensures a.artifacts <= b.artifacts
  {
  }

  /** The artifacts of a regular driver commit fit. */
  lemma {:induction false} DriverArtifactsFit(w: World, c: Commit, s: State)
    requires DriverCommit(c, s.regs) && HashesFit(w, s.regs.memory.inputHashes)
    requires c.AddArtifact? && c.kind == Input && EndsWith(c.key, ".input") ==> ForeignKey(w, c.key[..|c.key| - 6])
    ensures var t := Apply(w.hash, c, s);
            (forall a :: |s.db.artifacts| <= a < |t.db.artifacts| ==> ArtifactOk(w, t.db.artifacts[a]))
            && t.regs.memory.inputHashes == s.regs.memory.inputHashes
  {
    hide Ref, RefPayload, HashesFit, ApplyClaims, ApplyResolutions, FullKey;
  }

  lemma {:induction false} DriveIsValued(w: World, c: Commit, s: Sys)
    requires Ok(Base(w), s) && ValuesOk(w, s) && s.up && s.direct.None? && Regular(w, Drive(c), s)
    ensures ValuesOk(w, MainStep(Base(w), Drive(c), s))
  {
    hide Ref, RefPayload, HashesFit, ArtifactOk, Valued, NodesOk, ArtifactsOk, Apply, DriverCommit, DbOk, WorkersOk, SuccessesKnown,
      DirectOk, Trusted, ForeignKey, Durable;
    if DriverCommit(c, s.main) {
      DriverCommitSpares(w.hash, c, State(s.main, s.db));
      DriverArtifactsFit(w, c, State(s.main, s.db));
      SparedValues(w, s, MainStep(Base(w), Drive(c), s).db);
    }
  }

  lemma {:induction false} ClosedNode(w: World, i: nat, node: Option<string>, a: Db, b: Db)
    requires i < |w.nodes| && NodeOk(w, i, a) && Closes(node, a, b)
    ensures NodeOk(w, i, b)
  {
    hide Ref, RefPayload;
    var n := w.nodes[i].key;
    if n in b.nodes {
      assert n in a.nodes;
    }
  }

  lemma {:induction false} ClosedValues(w: World, s: Sys, node: Option<string>, db: Db)
    requires NodesOk(w, s.db) && ArtifactsOk(w, s.db) && Closes(node, s.db, db)
    ensures NodesOk(w, db) && ArtifactsOk(w, db)
  {
    hide Ref, RefPayload, Fits, HashesFit;
    forall i | 0 <= i < |w.nodes|
      ensures NodeOk(w, i, db)
    {
      assert NodeOk(w, i, s.db);
      ClosedNode(w, i, node, s.db, db);
    }
    forall a | 0 <= a < |db.artifacts|
      ensures ArtifactOk(w, db.artifacts[a])
    {
      if a < |s.db.artifacts| {
        assert db.artifacts[a] == s.db.artifacts[a];
      }
    }
  }

  lemma {:induction false} FailRunIsValued(w: World, exc: Exc, failure: Failure, s: Sys)
    requires ValuesOk(w, s) && s.up && s.direct.None?
    ensures ValuesOk(w, MainStep(Base(w), FailRun(exc, failure), s))
  {
    hide Ref, RefPayload, NodesOk, ArtifactsOk, Valued, FailRunProgram, After, Closes;
    if s.workers == map[] {
      var t := MainStep(Base(w), FailRun(exc, failure), s);
      FailRunCloses(w.hash, exc, failure, State(s.main, s.db));
      ClosedValues(w, s, OpenNow(State(s.main, s.db)), t.db);
      DownIsValued(w, t.db);
    }
  }

  lemma {:induction false} MainIsValued(w: World, e: Event, s: Sys)
    requires Ok(Base(w), s) && ValuesOk(w, s) && s.up && s.direct.None? && Regular(w, e, s)
    ensures ValuesOk(w, MainStep(Base(w), e, s))
  {
    match e
    case Drive(c) => { hide ValuesOk, MainStep, Ok; DriveIsValued(w, c, s); }
    case FailRun(exc, failure) => { hide ValuesOk, MainStep, Ok; FailRunIsValued(w, exc, failure, s); }
    case Reset => {
      hide ValuesOk, Ok, Apply;
      if s.workers == map[] && s.results == map[] {
        ResetIsValued(w, s);
      }
    }
    case SyncMain => { hide Ok; MemoryIsValued(w, e, s); }
    case OpenScope => { hide Ok; MemoryIsValued(w, e, s); }
    case BindMain(_, _) => { hide Ok; MemoryIsValued(w, e, s); }
    case _ => { hide Ok, ValuesOk; }
  }

  lemma {:induction false} MemoryIsValued(w: World, e: Event, s: Sys)
    requires ValuesOk(w, s) && (e.OpenScope? || e.SyncMain? || e.BindMain?) && Regular(w, e, s)
    ensures ValuesOk(w, MainStep(Base(w), e, s))
  {
    hide Ref, RefPayload, HashesFit, NodesOk, ArtifactsOk, Valued, Sync, FullKey;
    SyncKeeps(w, s.db, s.main.memory);
    if e.BindMain? {
      ForeignFits(w, e.key, w.hash(Document(e.content)));
      LearningFits(w, s.main.memory.inputHashes, e.key, w.hash(Document(e.content)));
    }
  }

  lemma {:induction false} ForeignFits(w: World, key: string, digest: Digest)
    requires ForeignKey(w, key)
    ensures Fits(w, key, digest)
  {
    hide FullKey, RefPayload;
  }

  lemma {:induction false} VisibleIsReference(w: World, i: nat, s: Sys)
    requires ResultsOk(w, s) && i < |w.nodes| && Ready(w, i, s.results)
    ensures w.payload(i, Visible(w, i, s.results)) == RefPayload(w, i)
  {
    hide Reaches, Ref, Durable;
    assert Visible(w, i, s.results) == RefInputs(w, i);
  }

  lemma {:induction false} AdmitIsValued(w: World, e: Event, s: Sys)
    requires ValuesOk(w, s) && e.Admit? && Regular(w, e, s) && Admissible(Base(w), e, s)
    ensures ValuesOk(w, Happen(Base(w), e, s))
  {
    hide Ref, RefPayload, NodesOk, ArtifactsOk, HashesFit, Ready, Visible, Deterministic, Durable;
    VisibleIsReference(w, e.i, s);
    NothingTodo(w, e.i, Enter);
  }

  /** What a finished worker returned is the reference output, and an enabled node has succeeded durably. */
  lemma {:induction false} FinishedIsReference(w: World, i: nat, worker: Worker, db: Db, again: bool)
    requires WorkerOk(Base(w), i, worker, db, again) && Valued(w, i, worker) && worker.control.Done?
    requires worker.control.verdict.Returned?
    ensures i < |w.nodes| && worker.control.verdict.result.output == Ref(w, i) && (w.enabled(i) ==> Durable(db, w.nodes[i].key))
  {
    hide Ref, RefPayload, HashesFit, Durable, TodoOk, Deterministic, LoadOutput;
    FinishedWorker(Base(w), i, worker, db, again);
  }

  lemma {:induction false} CollectIsValued(w: World, i: nat, s: Sys)
    requires WorkersOk(Base(w), s) && ValuesOk(w, s) && s.up && i in s.workers && s.workers[i].control.Done?
    ensures ValuesOk(w, Collected(i, s))
  {
    hide Ref, RefPayload, NodesOk, ArtifactsOk, HashesFit, Durable, Trusted, WorkerOk, Valued;
    assert WorkerOk(Base(w), i, s.workers[i], s.db, s.opening.Again?) && Valued(w, i, s.workers[i]);
    FullWorker(w, i, s.workers[i]);
    if s.workers[i].control.verdict.Returned? {
      FinishedIsReference(w, i, s.workers[i], s.db, s.opening.Again?);
    }
  }

  lemma {:induction false} StepIsValued(w: World, i: nat, s: Sys)
    requires Ok(Base(w), s) && ValuesOk(w, s) && s.up && i in s.workers && Topological(w.nodes)
    requires !GivesUp(Move(Config(s.workers[i], s.db)).worker)
    ensures ValuesOk(w, Stepped(i, s))
  {
    hide Ref, RefPayload, HashesFit, Durable, DbOk, SuccessesKnown, DirectOk, Trusted, WorkerOk, Valued, NodeOk, Move, GivesUp,
      Topological, Grows, Spares;
    var worker, next := s.workers[i], Move(Config(s.workers[i], s.db));
    assert WorkerOk(Base(w), i, worker, s.db, s.opening.Again?);
    InPlan(Base(w), i, worker, s.db, s.opening.Again?);
    EnabledSuccess(Base(w), i, s.db);
    MoveKeeps(Base(w), i, worker, s.db, s.opening.Again?);
    StepSpares(Base(w), i, s, next);
    assert NodeOk(w, i, s.db);
    MoveIsValued(w, i, worker, s.db, s.opening.Again?);
    forall j | 0 <= j < |w.nodes|
      ensures NodeOk(w, j, next.db)
    {
      if j != i {
        assert NodeOk(w, j, s.db);
        SparedNode(w, j, s.db, next.db);
      }
    }
    StoredValues(w, i, s.db, next.db);
    FullWorker(w, i, next.worker);
  }

  lemma {:induction false} StoredValues(w: World, i: nat, a: Db, b: Db)
    requires i < |w.nodes| && ArtifactsOk(w, a) && ValuesKept(w, i, a, b)
    ensures ArtifactsOk(w, b)
  {
    hide ArtifactOk, NodeOk;
    forall k | 0 <= k < |b.artifacts|
      ensures ArtifactOk(w, b.artifacts[k])
    {
      if k < |a.artifacts| {
        assert b.artifacts[k] == a.artifacts[k];
      }
    }
  }

  lemma {:induction false} FullWorker(w: World, i: nat, worker: Worker)
    requires Valued(w, i, worker)
    ensures HashesFit(w, worker.regs.memory.inputHashes)
  {
  }

  lemma {:induction false} EventIsValued(w: World, e: Event, s: Sys)
    requires Ok(Base(w), s) && ValuesOk(w, s) && Topological(w.nodes) && Regular(w, e, s)
    ensures ValuesOk(w, Happen(Base(w), e, s))
  {
    hide Ok, ValuesOk, Topological, MainStep, Booted, Stepped, Collected, Admissible, Admitted;
    match e
    case Boot(resume, force) => if !s.up { BootIsValued(w, resume, force, s); }
    case Crash =>
      TablesOk(w, s);
      DownIsValued(w, s.db);
    case Admit(_, _, _, _, _, _) => if Admissible(Base(w), e, s) { AdmitIsValued(w, e, s); }
    case Step(i) => if s.up && i in s.workers { StepIsValued(w, i, s); }
    case Collect(i) =>
      if s.up && i in s.workers && s.workers[i].control.Done? {
        WorkersAreOk(Base(w), s);
        CollectIsValued(w, i, s);
      }
    case _ => if s.up && s.direct.None? { MainIsValued(w, e, s); }
  }

  lemma {:induction false} WorkersAreOk(w: Setup, s: Sys)
    requires Ok(w, s)
    ensures WorkersOk(w, s)
  {
  }

  lemma {:induction false} TablesOk(w: World, s: Sys)
    requires ValuesOk(w, s)
    ensures NodesOk(w, s.db) && ArtifactsOk(w, s.db) && ResultsOk(w, s)
  {
  }

  /** In every state that a regular run reaches, the values are in order, besides what every run keeps. */
  lemma {:induction false} RegularIsOk(w: World, events: seq<Event>)
    requires Topological(w.nodes)
    ensures Ok(Base(w), RegularReplay(w, events)) && ValuesOk(w, RegularReplay(w, events))
  {
    hide Ok, ValuesOk, Happen, Topological, Regular;
    if events == [] {
      NothingIsOk(Base(w));
      NothingIsValued(w);
    } else {
      var s := RegularReplay(w, events[..|events| - 1]);
      RegularIsOk(w, events[..|events| - 1]);
      EventKeeps(Base(w), events[|events| - 1], s);
      if Regular(w, events[|events| - 1], s) {
        EventIsValued(w, events[|events| - 1], s);
      }
    }
  }

  lemma {:induction false} NothingIsValued(w: World)
    ensures ValuesOk(w, INITIAL)
  {
    hide Ref, RefPayload;
  }

  /** A regular run is a run: it is what the regular ones among its events make. */
  lemma {:induction false} RegularRunsAreRuns(w: World, events: seq<Event>) returns (regular: seq<Event>)
    ensures Replay(Base(w), regular) == RegularReplay(w, events)
    ensures forall e :: e in regular ==> e in events
  {
    hide Happen, Regular;
    if events == [] {
      regular := [];
    } else {
      var e, s := events[|events| - 1], RegularReplay(w, events[..|events| - 1]);
      regular := RegularRunsAreRuns(w, events[..|events| - 1]);
      if Regular(w, e, s) {
        assert (regular + [e])[..|regular|] == regular;
        regular := regular + [e];
      }
    }
  }

  // ----- what it means for a run -----

  /** Every result a regular run hands on is the output of the uninterrupted run, wherever crashes fell, however the run was opened
      again each time, and however the node executions were scheduled. */
  lemma {:induction false} ResumedRunsRefineTheReference(w: World, events: seq<Event>, i: nat)
    requires Topological(w.nodes) && i in RegularReplay(w, events).results
    ensures i < |w.nodes| && RegularReplay(w, events).results[i] == Ref(w, i)
  {
    hide Ref, RegularReplay, Topological, Ok, ValuesOk, Durable;
    RegularIsOk(w, events);
    TablesOk(w, RegularReplay(w, events));
  }

  ghost predicate Complete(w: World, s: Sys) {
    forall i: nat :: i in s.results <==> i < |w.nodes|
  }

  /** Two complete runs over the same inputs end with the same outputs, whatever happened on the way. */
  lemma {:induction false} CompleteRunsAgree(w: World, left: seq<Event>, right: seq<Event>)
    requires Topological(w.nodes) && Complete(w, RegularReplay(w, left)) && Complete(w, RegularReplay(w, right))
    ensures RegularReplay(w, left).results == RegularReplay(w, right).results
    ensures forall i :: 0 <= i < |w.nodes| && w.enabled(i) ==>
              LoadOutput(RegularReplay(w, left).db, w.nodes[i].key) == LoadOutput(RegularReplay(w, right).db, w.nodes[i].key)
              == Ref(w, i)
  {
    hide Ref, RegularReplay, Topological, Ok, ValuesOk, Durable, LoadOutput, NodesOk, ArtifactsOk;
    var a, b := RegularReplay(w, left), RegularReplay(w, right);
    RegularIsOk(w, left);
    RegularIsOk(w, right);
    TablesOk(w, a);
    TablesOk(w, b);
    forall i | 0 <= i < |w.nodes|
      ensures a.results[i] == b.results[i]
      ensures w.enabled(i) ==> LoadOutput(a.db, w.nodes[i].key) == LoadOutput(b.db, w.nodes[i].key) == Ref(w, i)
    {
      if w.enabled(i) {
        DurableOutputIsReference(w, left, i);
        DurableOutputIsReference(w, right, i);
      }
    }
  }

  /** At every commit point of a regular run, a node that durably succeeded has its reference output stored and readable. */
  lemma {:induction false} DurableOutputIsReference(w: World, events: seq<Event>, i: nat)
    requires Topological(w.nodes) && i < |w.nodes| && Durable(RegularReplay(w, events).db, w.nodes[i].key)
    ensures LoadOutput(RegularReplay(w, events).db, w.nodes[i].key) == Ref(w, i)
  {
    hide Ref, RegularReplay, Topological, Ok, ValuesOk, Durable, LoadOutput, NodeOk, ArtifactsOk, ResultsOk;
    RegularIsOk(w, events);
    TablesOk(w, RegularReplay(w, events));
    StoredIsReference(w, i, RegularReplay(w, events).db);
  }

  /** Whatever crashed before, a node whose input is unchanged passes the resume gate. */
  lemma {:induction false} UnchangedInputIsNeverRejected(w: World, events: seq<Event>, i: nat)
    requires Topological(w.nodes) && i in RegularReplay(w, events).workers
    ensures var worker := RegularReplay(w, events).workers[i]; !GateRejects(worker.job, worker.env, worker.regs)
  {
    hide Ref, RefPayload, RegularReplay, Topological, Ok, NodesOk, ArtifactsOk, HashesFit, ResultsOk, GateRejects, GivenOk;
    RegularIsOk(w, events);
    var s := RegularReplay(w, events);
    assert Valued(w, i, s.workers[i]);
    GatePasses(w, i, s.workers[i]);
  }
}
