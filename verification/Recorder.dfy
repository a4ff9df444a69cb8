/** The commit-on-write audit recorder: every method is proved against the commits it makes durable, in order. */
module Recorder {
  import opened Json
  import opened Workflow
  import opened Store
  import opened Tables

  class Database {
    var content: Db
    ghost var log: seq<Db>

    constructor ()
      ensures content == EMPTY_DB && log == []
    {
      content := EMPTY_DB;
      log := [];
    }

    method Write(next: Db)
      modifies this
      ensures content == next && log == old(log) + [next]
    {
      content := next;
      log := log + [next];
    }
  }

  lemma {:induction false} NoOutputHashes(db: Db)
    ensures OutputHashes({}, db) == map[]
  {
  }

  lemma {:induction false} AddOutputHash(done: set<string>, n: string, db: Db)
    ensures OutputHashes(done + {n}, db) ==
            if HasOutputRow(db, n) then OutputHashes(done, db)[n := OutputHash(db, n)] else OutputHashes(done, db)
  {
    hide HasOutputRow, OutputHash;
  }

  /** Only an id that is known already may be listed more than once. */
  predicate NewIdsOnce(claims: seq<ClaimInput>, known: map<string, ClaimRow>) {
    forall i, j :: 0 <= i < j < |claims| && claims[i].id == claims[j].id ==> claims[i].id == "" || claims[i].id in known
  }

  /** Failing the attempt leaves node and stage as open as they were. */
  lemma {:induction false} OpenAfterAttempt(hash: Hasher, exc: Exc, failure: Failure, s: State)
    ensures var t := After(hash, FailAttemptPart(exc, failure, s), s);
            (NodeOpen(t) <==> NodeOpen(s)) && (StageOpen(t) <==> StageOpen(s))
  {
    if AttemptOpen(s) {
      var program := FailAttemptPart(exc, failure, s);
      var s1 := Apply(hash, program[0], s);
      var s2 := Apply(hash, program[1], s1);
      assert program[1..][1..][1..] == [];
      assert After(hash, program[1..][1..], s2) == s2;
      assert After(hash, program, s) == s2;
    }
  }

  lemma {:induction false} OpenAfterNode(hash: Hasher, exc: Exc, failure: Failure, s: State, before: State)
    ensures var t := After(hash, FailNodePart(exc, failure, before), s); StageOpen(t) <==> StageOpen(s)
  {
    if NodeOpen(before) {
      assert FailNodePart(exc, failure, before)[1..] == [];
    }
  }

  class AuditRecorder {
    const database: Database
    const hash: Hasher
    const planned: bool
    var stageId: Option<string>
    var nodeId: Option<string>
    var attemptId: Option<nat>
    var lastArtifactId: Option<nat>
    var nodeSkipped: bool
    var stageSkipped: bool
    var resumeMode: bool
    var forceRestart: bool
    var completedNodes: set<string>
    var inputHashes: map<string, Digest>
    var outputHashes: map<string, Digest>

    constructor (database: Database, hash: Hasher, planned: bool)
      ensures this.database == database && this.hash == hash && this.planned == planned
      ensures View() == State(EMPTY_REGS, database.content)
    {
      this.database := database;
      this.hash := hash;
      this.planned := planned;
      stageId, nodeId, attemptId, lastArtifactId := None, None, None, None;
      nodeSkipped, stageSkipped, resumeMode, forceRestart := false, false, false, false;
      completedNodes, inputHashes, outputHashes := {}, map[], map[];
    }

    function CurrentMemory(): Memory
      reads this
    {
      Memory(completedNodes, inputHashes, outputHashes)
    }

    function View(): State
      reads this, database
    {
      State(
        Regs(stageId, nodeId, attemptId, lastArtifactId, nodeSkipped, stageSkipped, resumeMode, forceRestart, CurrentMemory()),
        database.content)
    }

    /** The new state and the new durable states are those of the program, and nothing else was committed. */
    twostate predicate Performed(program: Program)
      reads this, database
    {
      View() == After(hash, program, old(View()))
      && database.log == old(database.log) + Commits(hash, program, old(View()))
    }

    /** One commit, which makes `c` durable. */
    twostate predicate Committed(c: Commit)
      reads this, database
    {
      View() == Apply(hash, c, old(View())) && database.log == old(database.log) + [database.content]
    }

    lemma {:induction false} Once(c: Commit, s: State)
      ensures After(hash, [c], s) == Apply(hash, c, s) && Commits(hash, [c], s) == [Apply(hash, c, s).db]
    {
    }

    // ----- runs -----

    method StartRun(resume: bool, force: bool)
      modifies this, database
      ensures Performed([OpenRun(resume, force)] + if planned && force then [ResetForRestart] else [])
      ensures RunOpened(resume, force, old(View()), View())
      ensures if planned && force
              then NodesPending(old(database.content.nodes), database.content.nodes)
                   && StagesPending(old(database.content.stages), database.content.stages)
              else database.content.nodes == old(database.content.nodes) && database.content.stages == old(database.content.stages)
    {
      ghost var s := View();
      AfterOpening(hash, resume, force, s);
      ReopenRun(resume, force);
      Once(OpenRun(resume, force), s);
      if planned && force {
        Once(ResetForRestart, View());
        ResetRows();
        AfterAppend(hash, [OpenRun(resume, force)], [ResetForRestart], s);
      } else {
        assert [OpenRun(resume, force)] + [] == [OpenRun(resume, force)];
      }
    }

    method ReopenRun(resume: bool, force: bool)
      modifies this, database
      ensures Committed(OpenRun(resume, force))
    {
      var db := database.content;
      resumeMode := resume && !force && db.run.Some?;
      forceRestart := force;
      var run := ReopenRow(db.run, resumeMode);
      database.Write(db.(run := Some(run)));
      ForgetFields();
      if resumeMode {
        RestoreCheckpointState();
      }
    }

    method ForgetFields()
      modifies this
      ensures View().regs == EMPTY_REGS.(resume := old(resumeMode), force := old(forceRestart))
    {
      stageId, nodeId, attemptId, lastArtifactId := None, None, None, None;
      nodeSkipped, stageSkipped := false, false;
      completedNodes, inputHashes, outputHashes := {}, map[], map[];
    }

    static method ReopenRow(run: Option<RunRow>, resuming: bool) returns (row: RunRow)
      ensures row == ReopenedRun(run, resuming)
    {
      if run.None? {
        return RunRow(RunRunning, None, false, None, None, None);
      }
      row := run.value;
      if row.status == RunRunning {
        row := row.(status := RunInterrupted, resumable := row.lastCheckpoint.Some? && row.lastCheckpoint.value != "");
      }
      row := row.(status := RunRunning);
      if !resuming {
        row := row.(failedStage := None, failedNode := None);
      }
    }

    method ResetRows()
      modifies database
      ensures Committed(ResetForRestart)
    {
      var db := database.content;
      database.Write(db.(
        nodes := map n | n in db.nodes :: db.nodes[n].(status := Pending, output := None),
        stages := map p | p in db.stages :: db.stages[p].(status := StagePending)));
    }

    method RestoreCheckpointState()
      requires CurrentMemory() == EMPTY_MEMORY
      modifies this`completedNodes, this`inputHashes, this`outputHashes
      ensures CurrentMemory() == RestoreMemory(database.content)
    {
      var db := database.content;
      if db.run.None? || db.run.value.lastCheckpoint.None? || db.run.value.lastCheckpoint.value == "" {
        return;
      }
      var found := Latest(db.artifacts, Checkpoint, "checkpoint." + db.run.value.lastCheckpoint.value);
      if found.Some? && db.artifacts[found.value].content.Snapshot? {
        var payload := db.artifacts[found.value].content.memory;
        completedNodes, inputHashes, outputHashes := payload.completed, payload.inputHashes, payload.outputHashes;
      }
      SyncNodeState();
    }

    method SyncNodeState()
      modifies this`completedNodes, this`inputHashes, this`outputHashes
      ensures CurrentMemory() == Sync(old(CurrentMemory()), database.content)
    {
      var db := database.content;
      completedNodes := set n | n in db.nodes && Success(db.nodes[n].status);
      outputHashes := SyncOutputHashes(outputHashes, completedNodes, db);
      inputHashes := SyncInputHashes(inputHashes, db.artifacts);
    }

    static method SyncOutputHashes(
        start: map<string, Digest>, nodes: set<string>, db: Db) returns (hashes: map<string, Digest>)
      ensures hashes == ReadOutputHashes(start, nodes, db)
    {
      hide HasOutputRow, OutputHashes, OutputHash;
      hashes := start;
      var rest := nodes;
      ghost var done := {};
      NoOutputHashes(db);
      while rest != {}
        invariant nodes == done + rest
        invariant hashes == start + OutputHashes(done, db)
      {
        var n :| n in rest;
        AddOutputHash(done, n, db);
        if HasOutputRow(db, n) {
          hashes := hashes[n := OutputHash(db, n)];
        }
        rest := rest - {n};
        done := done + {n};
      }
      assert done == nodes;
    }

    static method SyncInputHashes(
        start: map<string, Digest>, artifacts: seq<ArtifactRow>) returns (hashes: map<string, Digest>)
      ensures hashes == ReadInputHashes(start, artifacts)
    {
      hashes := start;
      for i := 0 to |artifacts|
        invariant hashes == ReadInputHashes(start, artifacts[..i])
      {
        var row := artifacts[i];
        assert artifacts[..i + 1][..i] == artifacts[..i];
        if row.kind == Input && EndsWith(row.key, ".input") {
          hashes := hashes[row.key[..|row.key| - 6] := row.hash];
        }
      }
      assert artifacts[..|artifacts|] == artifacts;
    }

    method FinishRun(status: RunStatus)
      modifies this, database
      ensures Performed([CloseRun(status)])
      ensures RunEnded(status, old(View()), View())
    {
      ghost var s := View();
      Once(CloseRun(status), s);
      AfterEnding(hash, status, s);
      var db := database.content;
      var next := db;
      if db.run.Some? {
        var run := db.run.value.(status := status);
        if status == RunCompleted || status == RunBlocked {
          run := run.(resumable := false);
          if forall n :: n in db.nodes ==> db.nodes[n].status != Failed && db.nodes[n].status != Blocked {
            run := run.(failedStage := None, failedNode := None);
          }
        } else if status == RunFailed || status == RunInterrupted || status == RunCancelled {
          run := run.(resumable := run.lastCheckpoint.Some? && run.lastCheckpoint.value != ""
                                   && run.lastCheckpoint.value != "FINALIZED");
        } else {
          run := run.(resumable := false);
        }
        next := db.(run := Some(run));
      }
      database.Write(next);
    }

    // ----- artifacts, checkpoints, claims -----

    method Touch()
      modifies database
      ensures Performed([TouchRun])
      ensures database.content == old(database.content).(run := database.content.run)
    {
      Once(TouchRun, View());
      var db := database.content;
      database.Write(if db.run.Some? then db.(run := Some(db.run.value.(lastArtifact := lastArtifactId))) else db);
    }

    method RecordArtifact(kind: ArtifactType, key: string, content: Content) returns (id: nat)
      modifies this`lastArtifactId, database
      ensures Performed(ArtifactProgram(kind, key, content))
      ensures id == |old(database.content.artifacts)| && lastArtifactId == Some(id)
      ensures ArtifactAdded(hash, kind, key, content, old(View()), View())
    {
      ghost var s := View();
      var db := database.content;
      id := |db.artifacts|;
      database.Write(db.(artifacts := db.artifacts + [ArtifactRow(kind, key, content, hash(content), nodeId, attemptId)]));
      lastArtifactId := Some(id);
      ghost var added := View();
      Once(AddArtifact(kind, key, content), s);
      Touch();
      AfterAppend(hash, [AddArtifact(kind, key, content)], [TouchRun], s);
      AfterAdding(hash, kind, key, content, s);
    }

    method WriteCheckpoint(name: string)
      modifies this`lastArtifactId, database
      ensures Performed(CheckpointProgram(name, old(CurrentMemory())))
      ensures CheckpointWritten(hash, name, old(CurrentMemory()), old(View()), View())
    {
      hide CheckpointWritten;
      ghost var s := View();
      ghost var log := database.log;
      ghost var first := ArtifactProgram(Checkpoint, "checkpoint." + name, Snapshot(CurrentMemory()));
      var _ := RecordArtifact(Checkpoint, "checkpoint." + name, Snapshot(CurrentMemory()));
      ghost var recorded := View();
      var db := database.content;
      database.Write(if db.run.Some? then
                       db.(run := Some(db.run.value.(lastCheckpoint := Some(name), resumable := name != "FINALIZED")))
                     else db);
      Once(SetCheckpoint(name), recorded);
      AfterAppend(hash, first, [SetCheckpoint(name)], s);
      AfterCheckpoint(hash, name, s.regs.memory, s);
    }

    /** A new id listed twice violates the uniqueness of claim ids, and nothing is committed. */
    method RecordClaims(claims: seq<ClaimInput>, debate: string) returns (ok: bool)
      modifies this`lastArtifactId, database
      ensures ok <==> NewIdsOnce(claims, old(database.content.claims))
      ensures ok ==> Performed(ClaimsProgram(claims, debate, old(View())))
      ensures ok ==> ClaimsRecorded(claims, old(nodeId), old(stageId), old(database.content.claims), database.content.claims)
      ensures !ok ==> View() == old(View()) && database.log == old(database.log)
    {
      hide NewIdsOnce, ApplyClaims, ClaimsRecorded;
      ClaimsAreRecorded(claims, nodeId, stageId, database.content.claims);
      ghost var s := View();
      var rows := ClaimRows(claims);
      if rows.None? {
        return false;
      }
      database.Write(database.content.(claims := rows.value));
      ghost var stored := View();
      Once(UpsertClaims(claims), s);
      var items := ClaimItems(claims, rows.value);
      if items != [] {
        var _ := RecordArtifact(ClaimList, "claims." + debate, Document(Arr(items)));
        AfterAppend(hash, [UpsertClaims(claims)], ArtifactProgram(ClaimList, "claims." + debate, Document(Arr(items))), s);
      } else {
        assert [UpsertClaims(claims)] + [] == [UpsertClaims(claims)];
      }
      return true;
    }

    /** The rows after the upserts, unless two of them would be new and have one id. */
    method ClaimRows(claims: seq<ClaimInput>) returns (rows: Option<map<string, ClaimRow>>)
      ensures rows.Some? <==> NewIdsOnce(claims, database.content.claims)
      ensures rows.Some? ==> rows.value == ApplyClaims(database.content.claims, claims, nodeId, stageId)
    {
      var before := database.content.claims;
      var after := before;
      for i := 0 to |claims|
        invariant after == ApplyClaims(before, claims[..i], nodeId, stageId)
        invariant forall k :: k in after <==> k in before || (k != "" && exists j :: 0 <= j < i && claims[j].id == k)
        invariant NewIdsOnce(claims[..i], before)
      {
        assert claims[..i + 1][..i] == claims[..i];
        var claim := claims[i];
        var status := if claim.status.Some? then claim.status.value else Open;
        if claim.id != "" {
          if claim.id !in after {
            after := after[claim.id := ClaimRow(claim.facts, nodeId, stageId, status)];
          } else if claim.id in before {
            after := after[claim.id := after[claim.id].(status := status)];
          } else {
            return None;
          }
        }
      }
      assert claims[..|claims|] == claims;
      rows := Some(after);
    }

    /** The rows after the updates, unless one of them is missing. */
    method ResolvedRows(resolutions: seq<Resolution>) returns (rows: Option<map<string, ClaimRow>>)
      ensures rows.Some? <==> forall i :: 0 <= i < |resolutions| ==> resolutions[i].id in database.content.claims
      ensures rows.Some? ==> rows.value == ApplyResolutions(database.content.claims, resolutions)
    {
      var before := database.content.claims;
      var after := before;
      for i := 0 to |resolutions|
        invariant after == ApplyResolutions(before, resolutions[..i]) && after.Keys == before.Keys
        invariant forall j :: 0 <= j < i ==> resolutions[j].id in before
      {
        assert resolutions[..i + 1][..i] == resolutions[..i];
        var resolution := resolutions[i];
        if resolution.id !in after {
          return None;
        }
        after := after[resolution.id := after[resolution.id].(
                         status := if resolution.status.Some? then resolution.status.value else Open)];
      }
      assert resolutions[..|resolutions|] == resolutions;
      rows := Some(after);
    }

    /** An unknown claim id raises before anything is committed. */
    method ResolveClaimRows(resolutions: seq<Resolution>) returns (ok: bool)
      modifies this`lastArtifactId, database
      ensures ok <==> forall i :: 0 <= i < |resolutions| ==> resolutions[i].id in old(database.content.claims)
      ensures ok ==> Performed(ResolveProgram(resolutions))
      ensures ok ==> ClaimsResolved(resolutions, old(database.content.claims), database.content.claims)
      ensures !ok ==> View() == old(View()) && database.log == old(database.log)
    {
      hide After, Commits, ResolutionItems, ClaimsResolved;
      ClaimsAreResolved(resolutions, database.content.claims);
      ghost var s := View();
      var db := database.content;
      var rows := ResolvedRows(resolutions);
      if rows.None? {
        return false;
      }
      database.Write(db.(claims := rows.value));
      ghost var resolved := View();
      Once(ResolveClaims(resolutions), s);
      var content := Document(Arr(ResolutionItems(resolutions)));
      var _ := RecordArtifact(ClaimList, "claims.resolutions", content);
      AfterAppend(hash, [ResolveClaims(resolutions)], ArtifactProgram(ClaimList, "claims.resolutions", content), s);
      ok := true;
    }

    /** Records the input of the open node and of its running attempt; memory learns the digest before any commit. */
    method BindInputHash(key: string, content: Json)
      modifies this`lastArtifactId, this`inputHashes, database
      ensures var s := Bound(old(View()), key, hash(Document(content)));
              View() == After(hash, NeededBinding(hash, key, content, s), s)
              && database.log == old(database.log) + Commits(hash, NeededBinding(hash, key, content, s), s)
      ensures InputBound(hash, key, content, old(View()), View())
      ensures database.content.nodes.Keys == old(database.content.nodes).Keys
      ensures |database.content.attempts| == |old(database.content.attempts)|
    {
      hide Apply, After, Commits, InputProgram, InputBound;
      AfterBindingInput(hash, key, content, View());
      var digest := hash(Document(content));
      inputHashes := inputHashes[key := digest];
      ghost var s := View();
      ghost var stageProgram: Program := if UnboundStage(s) then [BindStage(digest)] else [];
      BindStageHash(digest);
      if nodeId.Some? && nodeId.value in database.content.nodes {
        LinkInputArtifact(key, content);
        AfterAppend(hash, stageProgram, InputProgram(key, content), s);
      } else {
        assert stageProgram + [] == stageProgram;
      }
      assert s == Bound(old(View()), key, digest);
    }

    method BindStageHash(digest: Digest)
      modifies database
      ensures Performed(if UnboundStage(old(View())) then [BindStage(digest)] else [])
      ensures database.content == old(database.content).(stages := database.content.stages)
    {
      Once(BindStage(digest), View());
      var db := database.content;
      if stageId.Some? && stageId.value in db.stages && db.stages[stageId.value].inputHash.None? {
        database.Write(db.(stages := db.stages[stageId.value := db.stages[stageId.value].(inputHash := Some(digest))]));
      }
    }

    method LinkInputArtifact(key: string, content: Json)
      requires NodeOpen(View())
      modifies this`lastArtifactId, database
      ensures Performed(InputProgram(key, content))
      ensures database.content.nodes.Keys == old(database.content.nodes).Keys
      ensures |database.content.attempts| == |old(database.content.attempts)|
    {
      hide After, Commits, ArtifactProgram;
      ghost var s := View();
      var id := RecordArtifact(Input, key + ".input", Document(content));
      Once(LinkInput, View());
      var db := database.content;
      var n := nodeId.value;
      var attempts := db.attempts;
      if attemptId.Some? && attemptId.value < |attempts| && attempts[attemptId.value].inputHash.None? {
        attempts := attempts[attemptId.value := attempts[attemptId.value].(inputHash := Some(db.artifacts[id].hash))];
      }
      database.Write(db.(nodes := db.nodes[n := db.nodes[n].(input := Some(id))], attempts := attempts));
      AfterAppend(hash, ArtifactProgram(Input, key + ".input", Document(content)), [LinkInput], s);
    }

    // ----- stages -----

    method StartStage(phase: string)
      modifies this`stageId, this`stageSkipped, database
      ensures stageId == Some(phase) && (stageSkipped <==> old(StageReusable(View(), phase, planned)))
      ensures stageSkipped ==> database.content == old(database.content) && database.log == old(database.log)
      ensures !stageSkipped ==> Performed([OpenStage(phase)])
      ensures !stageSkipped ==> StageOpened(phase, old(View()), View())
    {
      ghost var s := View();
      Once(OpenStage(phase), s);
      AfterStageOpening(hash, phase, s);
      var db := database.content;
      stageSkipped := false;
      var row := StageRow(StageRunning, None, None);
      if phase in db.stages {
        var complete := db.stages[phase].status == StageCompleted;
        if complete && planned {
          complete := forall n :: n in db.nodes && db.nodes[n].stage == phase ==>
            Success(db.nodes[n].status) || db.nodes[n].status == Skipped;
        }
        if resumeMode && complete && !forceRestart {
          stageId := Some(phase);
          stageSkipped := true;
          return;
        }
        row := db.stages[phase].(status := StageRunning);
      }
      database.Write(db.(stages := db.stages[phase := row]));
      stageId := Some(phase);
    }

    /** `checkpoint` is the checkpoint name of the phase, if it has one. */
    method FinishStage(output: Option<Json>, checkpoint: Option<string>)
      modifies this, database
      ensures !old(StageOpen(View())) ==> View() == old(View()) && database.log == old(database.log)
      ensures old(StageOpen(View()) && StageWasSkipped(View())) ==>
              View() == old(View()).(regs := old(View()).regs.(stage := None)) && database.log == old(database.log)
      ensures old(StageOpen(View()) && !StageWasSkipped(View())) ==>
              Performed(FinishStageProgram(hash, output, checkpoint, old(View())))
      ensures old(StageOpen(View()) && !StageWasSkipped(View())) ==>
              StageFinished(hash, output, checkpoint, old(View()), View())
    {
      if stageId.None? || stageId.value !in database.content.stages {
        return;
      }
      if stageSkipped && database.content.stages[stageId.value].status == StageCompleted {
        stageId := None;
        return;
      }
      hide FinishStageProgram, StageFinished;
      AfterStageFinishing(hash, output, checkpoint, View());
      CompleteStage(output, checkpoint);
    }

    method CompleteStage(output: Option<Json>, checkpoint: Option<string>)
      requires StageOpen(View())
      modifies this, database
      ensures Performed(FinishStageProgram(hash, output, checkpoint, old(View())))
    {
      hide Apply, After, Commits, StageClosing, CheckpointProgram;
      ghost var s := View();
      CloseStageRow(output);
      ghost var closing := StageClosing(s.regs.stage.value, output);
      if checkpoint.Some? {
        ghost var memory := CurrentMemory();
        WriteCheckpoint(checkpoint.value);
        AfterAppend(hash, closing, CheckpointProgram(checkpoint.value, memory), s);
      } else {
        assert closing + [] == closing;
      }
    }

    method CloseStageRow(output: Option<Json>)
      requires StageOpen(View())
      modifies this, database
      ensures Performed(StageClosing(old(stageId.value), output))
    {
      ghost var s := View();
      var phase := stageId.value;
      ghost var artifact: Program := [];
      if output.Some? {
        var id := RecordArtifact(Structured, phase + ".output", Document(output.value));
        artifact := ArtifactProgram(Structured, phase + ".output", Document(output.value));
      }
      ghost var recorded := View();
      Once(CloseStage(StageCompleted, output.Some?), recorded);
      var db := database.content;
      var row := db.stages[phase].(status := StageCompleted);
      if output.Some? {
        var digest := db.artifacts[lastArtifactId.value].hash;
        row := row.(outputHash := Some(digest));
        outputHashes := outputHashes[phase := digest];
      }
      database.Write(db.(stages := db.stages[phase := row]));
      stageId := None;
      AfterAppend(hash, artifact, [CloseStage(StageCompleted, output.Some?)], s);
    }

    /** A stage that ends without completing; the run remembers where it failed. */
    method FailStage(blocked: bool, cancelled: bool)
      modifies this, database
      ensures !old(StageOpen(View())) ==> View() == old(View()) && database.log == old(database.log)
      ensures old(StageOpen(View())) ==>
              Performed([CloseStage(if cancelled then StageCancelled else if blocked then StageBlocked else StageFailed, false)])
      ensures old(StageOpen(View())) ==>
              StageEndedBadly(if cancelled then StageCancelled else if blocked then StageBlocked else StageFailed, old(View()), View())
    {
      if stageId.None? || stageId.value !in database.content.stages {
        return;
      }
      var phase := stageId.value;
      var status := if cancelled then StageCancelled else if blocked then StageBlocked else StageFailed;
      Once(CloseStage(status, false), View());
      AfterStageFailing(hash, status, View());
      var db := database.content;
      var run := if db.run.Some? then Some(db.run.value.(failedStage := Some(phase))) else None;
      database.Write(db.(stages := db.stages[phase := db.stages[phase].(status := status)], run := run));
      stageId := None;
    }

    // ----- nodes and attempts -----

    method StartNode(spec: NodeSpec) returns (ok: bool)
      modifies this`nodeId, this`nodeSkipped, database
      ensures ok <==> old(stageId).Some?
      ensures ok ==> nodeId == Some(spec.key) && spec.key in database.content.nodes
      ensures ok ==> (nodeSkipped <==> old(NodeReusable(View(), spec.key)))
      ensures !ok ==> View() == old(View()) && database.log == old(database.log)
      ensures ok && old(NodeReusable(View(), spec.key)) ==>
              View() == old(View()).(regs := old(View()).regs.(node := Some(spec.key), nodeSkipped := true))
              && database.log == old(database.log)
      ensures ok && !old(NodeReusable(View(), spec.key)) ==> Performed([OpenNode(spec)])
      ensures ok && !old(NodeReusable(View(), spec.key)) ==> NodeOpened(spec, old(View()), View())
    {
      if stageId.None? {
        return false;
      }
      ghost var s := View();
      Once(OpenNode(spec), s);
      AfterNodeOpening(hash, spec, s);
      ok := true;
      nodeSkipped := false;
      var db := database.content;
      var row;
      if spec.key in db.nodes {
        row := db.nodes[spec.key];
        if resumeMode && Success(row.status) && !forceRestart {
          nodeId := Some(spec.key);
          nodeSkipped := true;
          return;
        }
        row := row.(stage := stageId.value, status := Running, error := None,
                    maxAttempts := spec.maxAttempts, retryable := spec.retryable);
      } else {
        row := NodeRow(stageId.value, Running, spec.criticality, 0, spec.maxAttempts, spec.retryable, None, None, None, None);
      }
      database.Write(db.(nodes := db.nodes[spec.key := row]));
      nodeId := Some(spec.key);
    }

    method FinishNode(output: Option<Json>)
      modifies this, database
      ensures old(NodeOpen(View())) && !(old(nodeSkipped) && Success(old(database.content.nodes[nodeId.value].status))) ==>
              Performed(FinishNodeProgram(old(nodeId.value), output)) && NodeFinished(hash, output, old(View()), View())
      ensures old(NodeOpen(View())) && old(nodeSkipped) && Success(old(database.content.nodes[nodeId.value].status)) ==>
              nodeId == None && database.content == old(database.content) && database.log == old(database.log)
      ensures !old(NodeOpen(View())) ==> View() == old(View()) && database.log == old(database.log)
    {
      if nodeId.None? || nodeId.value !in database.content.nodes {
        return;
      }
      var n := nodeId.value;
      if nodeSkipped && Success(database.content.nodes[n].status) {
        nodeId := None;
        return;
      }
      ghost var s := View();
      AfterNodeFinishing(hash, output, s);
      if output.Some? {
        var _ := RecordArtifact(Structured, n + ".output", Document(output.value));
      }
      ghost var artifact: Program :=
        if output.Some? then ArtifactProgram(Structured, n + ".output", Document(output.value)) else [];
      Once(CloseNode(output.Some?), View());
      AfterAppend(hash, artifact, [CloseNode(output.Some?)], s);
      CloseNodeRow(output.Some?);
      assert artifact + [CloseNode(output.Some?)] == FinishNodeProgram(n, output);
    }

    method CloseNodeRow(withOutput: bool)
      requires NodeOpen(View()) && (withOutput ==> ArtifactKnown(View()))
      modifies this, database
      ensures Committed(CloseNode(withOutput))
    {
      var db := database.content;
      var n := nodeId.value;
      var row := db.nodes[n].(status := Succeeded);
      if withOutput {
        row := row.(output := lastArtifactId);
        outputHashes := outputHashes[n := db.artifacts[lastArtifactId.value].hash];
      }
      completedNodes := completedNodes + {n};
      database.Write(db.(nodes := db.nodes[n := row]));
      nodeId := None;
    }

    method FailNodeRow(exc: Exc, status: NodeStatus, failureClass: Option<FailureClass>)
      modifies this`nodeId, database
      ensures old(NodeOpen(View())) ==> Performed([FailNode(status, exc, failureClass)])
      ensures old(NodeOpen(View())) ==> NodeEndedBadly(status, exc, failureClass, old(View()), View())
      ensures !old(NodeOpen(View())) ==> View() == old(View()) && database.log == old(database.log)
    {
      if nodeId.None? || nodeId.value !in database.content.nodes {
        return;
      }
      hide NodeEndedBadly, After, Commits, Apply;
      Once(FailNode(status, exc, failureClass), View());
      AfterNodeFailing(hash, status, exc, failureClass, View());
      CloseFailedRow(exc, status, failureClass);
    }

    lemma {:induction false} FailNodeApplies(
        hash: Hasher, status: NodeStatus, exc: Exc, failureClass: Option<FailureClass>, s: State)
      ensures Apply(hash, FailNode(status, exc, failureClass), s) == ApplyFailNode(status, exc, failureClass, s)
    {
    }

    method CloseFailedRow(exc: Exc, status: NodeStatus, failureClass: Option<FailureClass>)
      requires NodeOpen(View())
      modifies this`nodeId, database
      ensures Committed(FailNode(status, exc, failureClass))
    {
      hide Apply, Message;
      FailNodeApplies(hash, status, exc, failureClass, View());
      var db := database.content;
      var n := nodeId.value;
      var row := db.nodes[n].(status := status, error := Some(Message(exc)));
      if failureClass.Some? {
        row := row.(note := Some(FailureNote(failureClass.value, Message(exc))));
      }
      var run := db.run;
      if row.criticality != Optional && run.Some? {
        var failedStage := if run.value.failedStage.Some? then run.value.failedStage else stageId;
        run := Some(run.value.(failedNode := Some(n), failedStage := failedStage));
      }
      database.Write(db.(nodes := db.nodes[n := row], run := run));
      nodeId := None;
    }

    method SkipNode(spec: NodeSpec) returns (ok: bool)
      modifies this`nodeId, this`nodeSkipped, database
      ensures ok <==> old(stageId).Some?
      ensures !ok ==> View() == old(View()) && database.log == old(database.log)
      ensures ok && !old(NodeReusable(View(), spec.key)) ==> Performed([OpenNode(spec), MarkSkipped])
      ensures ok && old(NodeReusable(View(), spec.key)) ==>
              var s := old(View()).(regs := old(View()).regs.(node := Some(spec.key), nodeSkipped := true));
              View() == After(hash, [MarkSkipped], s) && database.log == old(database.log) + Commits(hash, [MarkSkipped], s)
      ensures ok ==> NodeSkipped(spec.key, old(View()), View())
    {
      ghost var s := View();
      ok := StartNode(spec);
      if ok {
        ghost var started := View();
        var db := database.content;
        database.Write(db.(nodes := db.nodes[spec.key := db.nodes[spec.key].(status := Skipped)]));
        nodeId := None;
        Once(MarkSkipped, started);
        AfterAppend(hash, [OpenNode(spec)], [MarkSkipped], s);
        assert [OpenNode(spec)] + [MarkSkipped] == [OpenNode(spec), MarkSkipped];
      }
    }

    method StartAttempt() returns (no: Option<nat>)
      modifies this`attemptId, database
      ensures old(NodeOpen(View())) ==>
              Performed([OpenAttempt]) && NodeOpen(View()) && AttemptOpen(View())
              && no == Some(database.content.nodes[nodeId.value].attemptCount) && AttemptOpened(old(View()), View())
      ensures !old(NodeOpen(View())) ==> no == None && View() == old(View()) && database.log == old(database.log)
    {
      if nodeId.None? || nodeId.value !in database.content.nodes {
        return None;
      }
      ghost var s := View();
      Once(OpenAttempt, s);
      AfterAttemptOpening(hash, s);
      var db := database.content;
      var n := nodeId.value;
      var count := db.nodes[n].attemptCount + 1;
      attemptId := Some(|db.attempts|);
      database.Write(db.(
        nodes := db.nodes[n := db.nodes[n].(attemptCount := count)],
        attempts := db.attempts + [AttemptRow(n, count, AttemptRunning, false, None, None, None)]));
      no := Some(count);
    }

    /** `outputHash` stands for the hash of the artifact written last, when the caller passes one. */
    method FinishAttempt(output: Option<Json>, useLastHash: bool)
      requires useLastHash ==> output.None? && ArtifactKnown(View())
      modifies this`attemptId, this`lastArtifactId, database
      ensures old(AttemptOpen(View())) ==>
              Performed(if useLastHash then [CloseAttempt(true)]
                        else FinishAttemptProgram(old(database.content.attempts[attemptId.value].no), output))
              && AttemptFinished(hash, output, useLastHash, old(View()), View())
      ensures database.content.nodes == old(database.content.nodes)
      ensures !old(AttemptOpen(View())) ==> View() == old(View()) && database.log == old(database.log)
    {
      if attemptId.None? || attemptId.value >= |database.content.attempts| {
        return;
      }
      ghost var s := View();
      AfterAttemptFinishing(hash, output, useLastHash, s);
      var a := attemptId.value;
      ghost var artifact: Program := [];
      if output.Some? {
        var key := "attempt." + Decimal(database.content.attempts[a].no) + ".output";
        var id := RecordArtifact(Structured, key, Document(output.value));
        artifact := ArtifactProgram(Structured, key, Document(output.value));
      }
      ghost var recorded := View();
      assert recorded == After(hash, artifact, s);
      var db := database.content;
      var row := db.attempts[a].(status := AttemptCompleted);
      if output.Some? || useLastHash {
        row := row.(outputHash := Some(db.artifacts[lastArtifactId.value].hash));
      }
      database.Write(db.(attempts := db.attempts[a := row]));
      attemptId := None;
      ghost var closing := CloseAttempt(output.Some? || useLastHash);
      Once(closing, recorded);
      AfterAppend(hash, artifact, [closing], s);
      if useLastHash {
        assert artifact + [closing] == [CloseAttempt(true)];
      } else {
        assert artifact + [closing] == FinishAttemptProgram(s.db.attempts[a].no, output);
      }
    }

    method FailAttemptRow(exc: Exc, failureClass: Option<FailureClass>, retryable: bool, waiting: bool, cancelled: bool)
      modifies this`attemptId, this`lastArtifactId, database
      ensures old(AttemptOpen(View())) ==> Performed(FailAttemptProgram(exc, failureClass, retryable, waiting, cancelled))
      ensures old(AttemptOpen(View())) ==>
              AttemptEndedBadly(hash, exc, failureClass, retryable, waiting, cancelled, old(View()), View())
      ensures database.content.nodes.Keys == old(database.content.nodes).Keys
      ensures !old(AttemptOpen(View())) ==> View() == old(View()) && database.log == old(database.log)
    {
      if attemptId.None? || attemptId.value >= |database.content.attempts| {
        return;
      }
      hide AttemptEndedBadly;
      ghost var s := View();
      ghost var first := FailAttempt(exc, failureClass, retryable, cancelled);
      AfterAttemptFailing(hash, exc, failureClass, retryable, waiting, cancelled, s);
      CloseFailedAttempt(exc, failureClass, retryable, cancelled);
      Touch();
      AfterAppend(hash, [first], [TouchRun], s);
      SetWaiting(waiting);
      AfterAppend(hash, [first] + [TouchRun], [AfterFail(waiting)], s);
      assert [first] + [TouchRun] + [AfterFail(waiting)] == FailAttemptProgram(exc, failureClass, retryable, waiting, cancelled);
    }

    /** The closed attempt is still unsaved when its error report is added, so one commit saves both. */
    method CloseFailedAttempt(exc: Exc, failureClass: Option<FailureClass>, retryable: bool, cancelled: bool)
      requires AttemptOpen(View())
      modifies this`attemptId, this`lastArtifactId, database
      ensures Performed([FailAttempt(exc, failureClass, retryable, cancelled)])
      ensures database.content.nodes == old(database.content.nodes)
    {
      Once(FailAttempt(exc, failureClass, retryable, cancelled), View());
      var db := database.content;
      var a := attemptId.value;
      var row := db.attempts[a].(status := if cancelled then AttemptCancelled else AttemptFailed, retryable := retryable);
      if failureClass.Some? {
        row := row.(failureClass := failureClass);
      }
      var content := ErrorContent(exc);
      database.Write(db.(
        attempts := db.attempts[a := row],
        artifacts := db.artifacts
        + [ArtifactRow(ErrorReport, AttemptErrorKey(row.no), content, hash(content), nodeId, attemptId)]));
      lastArtifactId := Some(|db.artifacts|);
      attemptId := None;
    }

    method SetWaiting(waiting: bool)
      modifies database
      ensures Performed([AfterFail(waiting)])
      ensures database.content.nodes.Keys == old(database.content.nodes).Keys
    {
      Once(AfterFail(waiting), View());
      var db := database.content;
      var nodes := db.nodes;
      if waiting && nodeId.Some? && nodeId.value in nodes {
        nodes := nodes[nodeId.value := nodes[nodeId.value].(status := RetryWaiting)];
      }
      database.Write(db.(nodes := nodes));
    }

    /** Closes what is still open: the attempt, the node, the stage. */
    method FailOpenWork(exc: Exc, failure: Failure)
      modifies this, database
      ensures Performed(FailOpenProgram(exc, failure, old(View())))
      ensures WorkClosed(exc, failure, old(View()), View())
    {
      AfterClosingWork(hash, exc, failure, View());
      hide WorkClosed;
      hide Apply, After, Commits, FailAttemptPart, FailNodePart, FailStagePart, AttemptOpen, NodeOpen, StageOpen;
      ghost var s := View();
      ghost var first, second, third :=
        FailAttemptPart(exc, failure, s), FailNodePart(exc, failure, s), FailStagePart(failure, s);
      FailOpenAttempt(exc, failure);
      OpenAfterAttempt(hash, exc, failure, s);
      FailOpenNode(exc, failure, s);
      AfterAppend(hash, first, second, s);
      OpenAfterNode(hash, exc, failure, After(hash, first, s), s);
      FailOpenStage(failure, s);
      AfterAppend(hash, first + second, third, s);
    }

    method FailOpenAttempt(exc: Exc, failure: Failure)
      modifies this, database
      ensures Performed(FailAttemptPart(exc, failure, old(View())))
    {
      hide Apply, FailAttemptProgram, AttemptOpen;
      Nothing(View());
      FailAttemptRow(exc, None, !failure.CancelledRun? && !failure.BlockedRun?, false, failure.CancelledRun?);
    }

    method FailOpenNode(exc: Exc, failure: Failure, ghost s: State)
      requires NodeOpen(View()) <==> NodeOpen(s)
      modifies this, database
      ensures Performed(FailNodePart(exc, failure, s))
    {
      hide Apply, NodeOpen;
      Nothing(View());
      FailNodeRow(exc, if failure.CancelledRun? then Cancelled else if failure.BlockedRun? then Blocked else Failed, None);
    }

    method FailOpenStage(failure: Failure, ghost s: State)
      requires StageOpen(View()) <==> StageOpen(s)
      modifies this, database
      ensures Performed(FailStagePart(failure, s))
    {
      hide Apply, StageOpen;
      Nothing(View());
      FailStage(failure.BlockedRun?, failure.CancelledRun?);
    }

    lemma {:induction false} Nothing(s: State)
      ensures After(hash, [], s) == s && Commits(hash, [], s) == []
    {
    }

    method FailRun(exc: Exc, failure: Failure)
      modifies this, database
      ensures Performed(FailRunProgram(exc, failure, old(View())))
      ensures WorkClosed(exc, failure, old(View()), View()) && database.content.claims == old(database.content.claims)
      ensures old(database.content.run).Some? ==>
              database.content.run.Some?
              && database.content.run.value.status == (match failure
                                                       case FailedRun => RunFailed
                                                       case BlockedRun => RunBlocked
                                                       case CancelledRun => RunCancelled
                                                       case InterruptedRun => RunInterrupted)
    {
      hide Apply, After, Commits, FailOpenProgram;
      ghost var s := View();
      FailOpenWork(exc, failure);
      var status := match failure
                    case FailedRun => RunFailed
                    case BlockedRun => RunBlocked
                    case CancelledRun => RunCancelled
                    case InterruptedRun => RunInterrupted;
      FinishRun(status);
      AfterAppend(hash, FailOpenProgram(exc, failure, s), [CloseRun(status)], s);
    }

    /** Commits that a node function makes through its recorder while it runs. */
    method Perform(effects: Program)
      modifies this, database
      ensures Performed(effects)
    {
      ghost var s := View();
      ghost var log := database.log;
      for i := 0 to |effects|
        invariant View() == After(hash, effects[..i], s)
        invariant database.log == log + Commits(hash, effects[..i], s)
      {
        var next := Apply(hash, effects[i], View());
        ghost var here := View();
        database.Write(next.db);
        SetRegs(next.regs);
        Once(effects[i], here);
        AfterAppend(hash, effects[..i], [effects[i]], s);
        assert effects[..i + 1] == effects[..i] + [effects[i]];
      }
      assert effects[..|effects|] == effects;
    }

    method SetRegs(r: Regs)
      modifies this
      ensures View() == State(r, old(database.content))
    {
      stageId, nodeId, attemptId, lastArtifactId := r.stage, r.node, r.attempt, r.artifact;
      nodeSkipped, stageSkipped, resumeMode, forceRestart := r.nodeSkipped, r.stageSkipped, r.resume, r.force;
      completedNodes, inputHashes, outputHashes := r.memory.completed, r.memory.inputHashes, r.memory.outputHashes;
    }

    method LoadNodeOutput(n: string) returns (output: Option<Json>)
      ensures output == LoadOutput(database.content, n)
    {
      var db := database.content;
      if n !in db.nodes || db.nodes[n].output.None? || db.nodes[n].output.value >= |db.artifacts| {
        return None;
      }
      var content := db.artifacts[db.nodes[n].output.value].content;
      output := if content.Document? then Some(content.json) else None;
    }
  }

  /** A stage is finished, the process dies, and another one resumes the run: under a plan it reuses the stage if and only if
      all nodes of the stage have succeeded or were skipped, without one always. */
  method FinishThenResume(first: AuditRecorder, output: Option<Json>, checkpoint: Option<string>) returns (second: AuditRecorder)
    requires StageOpen(first.View()) && !StageWasSkipped(first.View()) && first.database.content.run.Some?
    modifies first, first.database
    ensures fresh(second) && second.database == first.database && second.stageId == old(first.stageId)
    ensures second.stageSkipped <==>
            (first.planned ==>
               forall n ::
                 n in first.database.content.nodes && first.database.content.nodes[n].stage == old(first.stageId).value ==>
                   first.database.content.nodes[n].status in {Succeeded, Completed, Skipped})
    ensures first.database.content.nodes == old(first.database.content.nodes)
  {
    hide StageFinished, RunOpened, StageOpened, StageReusable, Apply, After, Commits;
    var phase := first.stageId.value;
    ghost var before := first.View();
    first.FinishStage(output, checkpoint);
    ghost var finished := first.View();
    second := new AuditRecorder(first.database, first.hash, first.planned);
    assert second.View().db == finished.db;
    second.StartRun(true, false);
    FinishedIsReusable(first.hash, output, checkpoint, first.planned, before, finished, second.View());
    second.StartStage(phase);
  }
}
