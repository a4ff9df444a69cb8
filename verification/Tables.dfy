/** What each recorder call leaves in the tables and in the recorder, field by field, whatever commits it takes. */
module Tables {
  import opened Json
  import opened Workflow
  import opened Store

  // ----- artifacts and checkpoints -----

  function Touched(run: Option<RunRow>, id: nat): Option<RunRow> {
    if run.None? then None else Some(run.value.(lastArtifact := Some(id)))
  }

  /** One artifact more, made by the open node and attempt, and the run names it as its last. */
  predicate ArtifactAdded(hash: Hasher, kind: ArtifactType, key: string, content: Content, a: State, b: State) {
    var id := |a.db.artifacts|;
    && b.db == a.db.(
         artifacts := a.db.artifacts + [ArtifactRow(kind, key, content, hash(content), a.regs.node, a.regs.attempt)],
         run := Touched(a.db.run, id))
    && b.regs == a.regs.(artifact := Some(id))
  }

  lemma {:induction false} AfterAdding(hash: Hasher, kind: ArtifactType, key: string, content: Content, s: State)
    ensures ArtifactAdded(hash, kind, key, content, s, After(hash, ArtifactProgram(kind, key, content), s))
  {
    var program := ArtifactProgram(kind, key, content);
    var s1 := Apply(hash, program[0], s);
    var s2 := Apply(hash, program[1], s1);
    assert program[1..][1..] == [];
    assert After(hash, program[1..][1..], s2) == s2;
    assert After(hash, program[1..], s1) == s2;
  }

  lemma {:induction false} AfterAddingThen(
      hash: Hasher, kind: ArtifactType, key: string, content: Content, c: Commit, s: State)
    ensures var added := After(hash, ArtifactProgram(kind, key, content), s);
            ArtifactAdded(hash, kind, key, content, s, added)
            && After(hash, ArtifactProgram(kind, key, content) + [c], s) == Apply(hash, c, added)
  {
    hide Apply, ArtifactAdded;
    AfterAdding(hash, kind, key, content, s);
    AfterAppend(hash, ArtifactProgram(kind, key, content), [c], s);
    AfterOne(hash, c, After(hash, ArtifactProgram(kind, key, content), s));
  }

  /** The memory is stored, and the run names the checkpoint as its last; it may be resumed from any but the final one. */
  predicate CheckpointWritten(hash: Hasher, name: string, memory: Memory, a: State, b: State) {
    var id, content := |a.db.artifacts|, Snapshot(memory);
    && b.db.artifacts
       == a.db.artifacts + [ArtifactRow(Checkpoint, "checkpoint." + name, content, hash(content), a.regs.node, a.regs.attempt)]
    && b.db.(artifacts := a.db.artifacts, run := a.db.run) == a.db && b.regs == a.regs.(artifact := Some(id))
    && (a.db.run.None? ==> b.db.run.None?)
    && (a.db.run.Some? ==>
          b.db.run == Some(a.db.run.value.(lastArtifact := Some(id), lastCheckpoint := Some(name), resumable := name != "FINALIZED")))
  }

  lemma {:induction false} AfterCheckpoint(hash: Hasher, name: string, memory: Memory, s: State)
    ensures CheckpointWritten(hash, name, memory, s, After(hash, CheckpointProgram(name, memory), s))
  {
    AfterAddingThen(hash, Checkpoint, "checkpoint." + name, Snapshot(memory), SetCheckpoint(name), s);
  }

  // ----- runs -----

  predicate NodesPending(a: map<string, NodeRow>, b: map<string, NodeRow>) {
    a.Keys == b.Keys && forall n :: n in b ==> b[n] == a[n].(status := Pending, output := None)
  }

  predicate StagesPending(a: map<string, StageRow>, b: map<string, StageRow>) {
    a.Keys == b.Keys && forall p :: p in b ==> b[p] == a[p].(status := StagePending)
  }

  /** The run is running and keeps its last checkpoint and artifact; it forgets where it failed unless it is resumed. A run found
      running may be resumed if it has a checkpoint. The recorder forgets everything. */
  predicate RunOpened(resume: bool, force: bool, a: State, b: State) {
    var resumed := resume && !force && a.db.run.Some?;
    && b.db.run.Some? && b.db.run.value.status == RunRunning
    && (a.db.run.None? ==> b.db.run.value == RunRow(RunRunning, None, false, None, None, None))
    && (a.db.run.Some? ==>
          var was, now := a.db.run.value, b.db.run.value;
          && now.lastCheckpoint == was.lastCheckpoint && now.lastArtifact == was.lastArtifact
          && (was.status == RunRunning ==> (now.resumable <==> HasCheckpoint(a.db)))
          && (was.status != RunRunning ==> now.resumable == was.resumable)
          && now.failedNode == (if resumed then was.failedNode else None)
          && now.failedStage == (if resumed then was.failedStage else None))
    && b.db.attempts == a.db.attempts && b.db.artifacts == a.db.artifacts && b.db.claims == a.db.claims
    && b.regs.(memory := EMPTY_MEMORY) == Regs(None, None, None, None, false, false, resumed, force, EMPTY_MEMORY)
    && (!resumed ==> b.regs.memory == EMPTY_MEMORY)
  }

  lemma {:induction false} AfterOpening(hash: Hasher, resume: bool, force: bool, s: State)
    ensures var t := After(hash, [OpenRun(resume, force)], s);
            RunOpened(resume, force, s, t) && t.db.nodes == s.db.nodes && t.db.stages == s.db.stages
    ensures var t := After(hash, [OpenRun(resume, force)] + [ResetForRestart], s);
            RunOpened(resume, force, s, t) && NodesPending(s.db.nodes, t.db.nodes) && StagesPending(s.db.stages, t.db.stages)
  {
    hide RestoreMemory;
    AfterOne(hash, OpenRun(resume, force), s);
    AfterAppend(hash, [OpenRun(resume, force)], [ResetForRestart], s);
    AfterOne(hash, ResetForRestart, Apply(hash, OpenRun(resume, force), s));
  }

  /** The run ends with this status. It may be resumed if it did not end well and has a checkpoint but the final one; it keeps
      the marks of its failure unless it ended well with no node failed or blocked. */
  predicate RunEnded(status: RunStatus, a: State, b: State) {
    && b.regs == a.regs && b.db.(run := a.db.run) == a.db && (a.db.run.None? ==> b.db.run.None?)
    && (a.db.run.Some? ==>
          b.db.run.Some?
          && var was, now := a.db.run.value, b.db.run.value;
          && now.status == status && now.lastCheckpoint == was.lastCheckpoint && now.lastArtifact == was.lastArtifact
          && (now.resumable <==>
              status in {RunFailed, RunInterrupted, RunCancelled}
              && HasCheckpoint(a.db) && was.lastCheckpoint != Some("FINALIZED"))
          && (if status in {RunCompleted, RunBlocked}
                 && (forall n :: n in a.db.nodes ==> a.db.nodes[n].status !in {Failed, Blocked})
              then now.failedNode.None? && now.failedStage.None?
              else now.failedNode == was.failedNode && now.failedStage == was.failedStage))
  }

  lemma {:induction false} AfterEnding(hash: Hasher, status: RunStatus, s: State)
    ensures RunEnded(status, s, After(hash, [CloseRun(status)], s))
  {
    AfterOne(hash, CloseRun(status), s);
  }

  // ----- stages -----

  predicate StageOpened(phase: string, a: State, b: State) {
    && b.regs == a.regs.(stage := Some(phase), stageSkipped := false)
    && b.db == a.db.(stages := b.db.stages)
    && phase in b.db.stages && b.db.stages == a.db.stages[phase := b.db.stages[phase]] && b.db.stages[phase].status == StageRunning
    && (phase in a.db.stages ==> b.db.stages[phase] == a.db.stages[phase].(status := StageRunning))
    && (phase !in a.db.stages ==> b.db.stages[phase] == StageRow(StageRunning, None, None))
  }

  lemma {:induction false} AfterStageOpening(hash: Hasher, phase: string, s: State)
    ensures StageOpened(phase, s, After(hash, [OpenStage(phase)], s))
  {
    AfterOne(hash, OpenStage(phase), s);
  }

  /** The rows written for a value, if there is one. */
  function Stored(hash: Hasher, key: string, value: Option<Json>, a: State): seq<ArtifactRow> {
    if value.None? then []
    else [ArtifactRow(Structured, key, Document(value.value), hash(Document(value.value)), a.regs.node, a.regs.attempt)]
  }

  /** The open stage is completed; its output's hash is stored, in its row and in memory; the memory is saved under the name of the
      checkpoint, if there is one, and the run may be resumed from there. Where the run failed stays as it was. */
  predicate StageFinished(hash: Hasher, output: Option<Json>, checkpoint: Option<string>, a: State, b: State)
    requires StageOpen(a)
  {
    var phase := a.regs.stage.value;
    var row, memory, run := a.db.stages[phase], a.regs.memory, a.db.run;
    var digest := if output.Some? then Some(hash(Document(output.value))) else None;
    var learnt := if digest.Some? then memory.(outputHashes := memory.outputHashes[phase := digest.value]) else memory;
    var stored := Stored(hash, phase + ".output", output, a);
    var saved := if checkpoint.None? then []
                 else [ArtifactRow(Checkpoint, "checkpoint." + checkpoint.value, Snapshot(learnt), hash(Snapshot(learnt)),
                                   a.regs.node, a.regs.attempt)];
    var last := if stored + saved == [] then a.regs.artifact else Some(|a.db.artifacts + stored + saved| - 1);
    && b.db.stages
       == a.db.stages[phase := row.(status := StageCompleted, outputHash := if digest.Some? then digest else row.outputHash)]
    && b.db.artifacts == a.db.artifacts + stored + saved
    && b.db.nodes == a.db.nodes && b.db.attempts == a.db.attempts && b.db.claims == a.db.claims
    && b.regs == a.regs.(stage := None, memory := learnt, artifact := last)
    && (run.None? ==> b.db.run.None?)
    && (run.Some? ==>
          && b.db.run.Some? && b.db.run.value.status == run.value.status
          && b.db.run.value.failedStage == run.value.failedStage && b.db.run.value.failedNode == run.value.failedNode
          && b.db.run.value.lastCheckpoint == (if checkpoint.Some? then checkpoint else run.value.lastCheckpoint)
          && b.db.run.value.resumable == (if checkpoint.Some? then checkpoint != Some("FINALIZED") else run.value.resumable))
  }

  lemma {:induction false} AfterStageClosing(hash: Hasher, output: Option<Json>, s: State)
    requires StageOpen(s)
    ensures StageFinished(hash, output, None, s, After(hash, StageClosing(s.regs.stage.value, output), s))
  {
    var phase := s.regs.stage.value;
    if output.Some? {
      AfterAddingThen(hash, Structured, phase + ".output", Document(output.value), CloseStage(StageCompleted, true), s);
    } else {
      AfterOne(hash, CloseStage(StageCompleted, false), s);
      assert [] + [CloseStage(StageCompleted, false)] == [CloseStage(StageCompleted, false)];
    }
  }

  lemma {:induction false} AfterStageFinishing(hash: Hasher, output: Option<Json>, checkpoint: Option<string>, s: State)
    requires StageOpen(s)
    ensures StageFinished(hash, output, checkpoint, s, After(hash, FinishStageProgram(hash, output, checkpoint, s), s))
  {
    hide After, Apply, StageClosing, CheckpointProgram;
    var closing := StageClosing(s.regs.stage.value, output);
    var closed := After(hash, closing, s);
    AfterStageClosing(hash, output, s);
    if checkpoint.Some? {
      AfterAppend(hash, closing, CheckpointProgram(checkpoint.value, closed.regs.memory), s);
      AfterCheckpoint(hash, checkpoint.value, closed.regs.memory, closed);
    } else {
      assert closing + [] == closing;
    }
  }

  /** The open stage ends without completing, and the run names it as the one it failed in. */
  predicate StageEndedBadly(status: StageStatus, a: State, b: State)
    requires StageOpen(a)
  {
    var phase := a.regs.stage.value;
    && b.regs == a.regs.(stage := None)
    && b.db == a.db.(
         stages := a.db.stages[phase := a.db.stages[phase].(status := status)],
         run := if a.db.run.None? then None else Some(a.db.run.value.(failedStage := Some(phase))))
  }

  lemma {:induction false} AfterStageFailing(hash: Hasher, status: StageStatus, s: State)
    requires StageOpen(s) && status != StageCompleted
    ensures StageEndedBadly(status, s, After(hash, [CloseStage(status, false)], s))
  {
    AfterOne(hash, CloseStage(status, false), s);
  }

  // ----- nodes -----

  /** The node is running, in the open stage and under its specification; it keeps its attempts, its input and its output. */
  predicate NodeOpened(spec: NodeSpec, a: State, b: State)
    requires a.regs.stage.Some?
  {
    var n, stage := spec.key, a.regs.stage.value;
    && b.regs == a.regs.(node := Some(n), nodeSkipped := false)
    && n in b.db.nodes && b.db == a.db.(nodes := a.db.nodes[n := b.db.nodes[n]])
    && (n in a.db.nodes ==>
          b.db.nodes[n] == a.db.nodes[n].(stage := stage, status := Running, error := None,
                                          maxAttempts := spec.maxAttempts, retryable := spec.retryable))
    && (n !in a.db.nodes ==>
          b.db.nodes[n]
          == NodeRow(stage, Running, spec.criticality, 0, spec.maxAttempts, spec.retryable, None, None, None, None))
  }

  lemma {:induction false} AfterNodeOpening(hash: Hasher, spec: NodeSpec, s: State)
    requires s.regs.stage.Some?
    ensures NodeOpened(spec, s, After(hash, [OpenNode(spec)], s))
  {
    AfterOne(hash, OpenNode(spec), s);
  }

  /** The open node has succeeded, its output is stored and linked, and the memory lists it. */
  predicate NodeFinished(hash: Hasher, output: Option<Json>, a: State, b: State)
    requires NodeOpen(a)
  {
    var n, memory := a.regs.node.value, a.regs.memory;
    var row, id := a.db.nodes[n], |a.db.artifacts|;
    && b.db.nodes == a.db.nodes[n := row.(status := Succeeded, output := if output.Some? then Some(id) else row.output)]
    && b.db == a.db.(
         nodes := b.db.nodes, artifacts := a.db.artifacts + Stored(hash, n + ".output", output, a),
         run := if output.Some? then Touched(a.db.run, id) else a.db.run)
    && b.regs == a.regs.(
         node := None, artifact := if output.Some? then Some(id) else a.regs.artifact,
         memory := memory.(
           completed := memory.completed + {n},
           outputHashes := if output.Some? then memory.outputHashes[n := hash(Document(output.value))] else memory.outputHashes))
  }

  lemma {:induction false} AfterNodeFinishing(hash: Hasher, output: Option<Json>, s: State)
    requires NodeOpen(s)
    ensures NodeFinished(hash, output, s, After(hash, FinishNodeProgram(s.regs.node.value, output), s))
  {
    if output.Some? {
      AfterAddingThen(hash, Structured, s.regs.node.value + ".output", Document(output.value), CloseNode(true), s);
    } else {
      AfterOne(hash, CloseNode(false), s);
    }
  }

  /** The open node ends without success, with its error and, if there is one, the class of its failure. The run names it as failed
      unless it is optional, and the stage it failed in unless it has named one before. */
  predicate NodeEndedBadly(status: NodeStatus, exc: Exc, failureClass: Option<FailureClass>, a: State, b: State)
    requires NodeOpen(a)
  {
    var n, run := a.regs.node.value, a.db.run;
    var row := a.db.nodes[n];
    && b.regs == a.regs.(node := None)
    && b.db.nodes == a.db.nodes[n := row.(
         status := status, error := Some(Message(exc)),
         note := if failureClass.Some? then Some(FailureNote(failureClass.value, Message(exc))) else row.note)]
    && b.db == a.db.(
         nodes := b.db.nodes,
         run := if row.criticality == Optional || run.None? then run
                else Some(run.value.(
                  failedNode := Some(n),
                  failedStage := if run.value.failedStage.Some? then run.value.failedStage else a.regs.stage)))
  }

  lemma {:induction false} AfterNodeFailing(
      hash: Hasher, status: NodeStatus, exc: Exc, failureClass: Option<FailureClass>, s: State)
    requires NodeOpen(s)
    ensures NodeEndedBadly(status, exc, failureClass, s, After(hash, [FailNode(status, exc, failureClass)], s))
  {
    AfterOne(hash, FailNode(status, exc, failureClass), s);
  }

  /** The node is marked skipped and closed, whatever it was before. */
  predicate NodeSkipped(n: string, a: State, b: State) {
    && n in b.db.nodes && b.db.nodes[n].status == Skipped && b.regs.node.None?
    && b.db == a.db.(nodes := a.db.nodes[n := b.db.nodes[n]])
    && (n in a.db.nodes ==>
          b.db.nodes[n].output == a.db.nodes[n].output && b.db.nodes[n].attemptCount == a.db.nodes[n].attemptCount)
  }

  // ----- attempts -----

  /** The open node has one attempt more, which is running and carries the next number. */
  predicate AttemptOpened(a: State, b: State)
    requires NodeOpen(a)
  {
    var n := a.regs.node.value;
    var no := a.db.nodes[n].attemptCount + 1;
    && b.regs == a.regs.(attempt := Some(|a.db.attempts|))
    && b.db == a.db.(
         nodes := a.db.nodes[n := a.db.nodes[n].(attemptCount := no)],
         attempts := a.db.attempts + [AttemptRow(n, no, AttemptRunning, false, None, None, None)])
  }

  lemma {:induction false} AfterAttemptOpening(hash: Hasher, s: State)
    requires NodeOpen(s)
    ensures AttemptOpened(s, After(hash, [OpenAttempt], s))
  {
    AfterOne(hash, OpenAttempt, s);
  }

  /** The open attempt is completed, with the hash of its output or of the artifact written last. */
  predicate AttemptFinished(hash: Hasher, output: Option<Json>, useLastHash: bool, a: State, b: State)
    requires AttemptOpen(a)
  {
    var at, id := a.regs.attempt.value, |a.db.artifacts|;
    var row := a.db.attempts[at];
    && b.db == a.db.(
         attempts := a.db.attempts[at := row.(
           status := AttemptCompleted,
           outputHash := if output.Some? then Some(hash(Document(output.value)))
                         else if useLastHash && ArtifactKnown(a) then Some(a.db.artifacts[a.regs.artifact.value].hash)
                         else row.outputHash)],
         artifacts := a.db.artifacts + Stored(hash, "attempt." + Decimal(row.no) + ".output", output, a),
         run := if output.Some? then Touched(a.db.run, id) else a.db.run)
    && b.regs == a.regs.(attempt := None, artifact := if output.Some? then Some(id) else a.regs.artifact)
  }

  lemma {:induction false} AfterAttemptFinishing(hash: Hasher, output: Option<Json>, useLastHash: bool, s: State)
    requires AttemptOpen(s) && (useLastHash ==> output.None? && ArtifactKnown(s))
    ensures AttemptFinished(hash, output, useLastHash, s, After(hash,
              if useLastHash then [CloseAttempt(true)] else FinishAttemptProgram(s.db.attempts[s.regs.attempt.value].no, output), s))
  {
    hide Decimal;
    AfterOne(hash, CloseAttempt(useLastHash), s);
    if output.Some? {
      var key := "attempt." + Decimal(s.db.attempts[s.regs.attempt.value].no) + ".output";
      AfterAddingThen(hash, Structured, key, Document(output.value), CloseAttempt(true), s);
    }
  }

  /** The open attempt has failed, or was cancelled; an error report is stored, and a node that waits for its next attempt says so. */
  predicate AttemptEndedBadly(
      hash: Hasher, exc: Exc, failureClass: Option<FailureClass>, retryable: bool, waiting: bool, cancelled: bool,
      a: State, b: State)
    requires AttemptOpen(a)
  {
    var at, id := a.regs.attempt.value, |a.db.artifacts|;
    var row, report := a.db.attempts[at], Document(Obj([Field("error_message", Str(Message(exc)))]));
    && b.regs == a.regs.(attempt := None, artifact := Some(id))
    && b.db.attempts == a.db.attempts[at := row.(
         status := if cancelled then AttemptCancelled else AttemptFailed, retryable := retryable,
         failureClass := if failureClass.Some? then failureClass else row.failureClass)]
    && b.db.artifacts == a.db.artifacts + [
         ArtifactRow(ErrorReport, "attempt." + Decimal(row.no) + ".error", report, hash(report), a.regs.node, a.regs.attempt)]
    && b.db.run == Touched(a.db.run, id) && b.db.stages == a.db.stages && b.db.claims == a.db.claims
    && b.db.nodes == if waiting && NodeOpen(a)
                     then a.db.nodes[a.regs.node.value := a.db.nodes[a.regs.node.value].(status := RetryWaiting)] else a.db.nodes
  }

  lemma {:induction false} AfterAttemptFailing(
      hash: Hasher, exc: Exc, failureClass: Option<FailureClass>, retryable: bool, waiting: bool, cancelled: bool, s: State)
    requires AttemptOpen(s)
    ensures AttemptEndedBadly(hash, exc, failureClass, retryable, waiting, cancelled, s,
              After(hash, FailAttemptProgram(exc, failureClass, retryable, waiting, cancelled), s))
  {
    hide Decimal, After, Apply, AttemptEndedBadly;
    var fail := FailAttempt(exc, failureClass, retryable, cancelled);
    AfterThree(hash, fail, TouchRun, AfterFail(waiting), s);
    FailingSteps(hash, exc, failureClass, retryable, waiting, cancelled, s);
  }

  lemma {:induction false} FailingSteps(
      hash: Hasher, exc: Exc, failureClass: Option<FailureClass>, retryable: bool, waiting: bool, cancelled: bool, s: State)
    requires AttemptOpen(s)
    ensures AttemptEndedBadly(hash, exc, failureClass, retryable, waiting, cancelled, s,
              Apply(hash, AfterFail(waiting), Apply(hash, TouchRun, Apply(hash, FailAttempt(exc, failureClass, retryable, cancelled), s))))
  {
    hide AttemptEndedBadly, Apply, AttemptOpen;
    if waiting {
      FailingWaits(hash, exc, failureClass, retryable, cancelled, s);
    } else {
      FailingEnds(hash, exc, failureClass, retryable, cancelled, s);
    }
  }

  lemma {:induction false} FailingWaits(
      hash: Hasher, exc: Exc, failureClass: Option<FailureClass>, retryable: bool, cancelled: bool, s: State)
    requires AttemptOpen(s)
    ensures AttemptEndedBadly(hash, exc, failureClass, retryable, true, cancelled, s,
              Apply(hash, AfterFail(true), Apply(hash, TouchRun, Apply(hash, FailAttempt(exc, failureClass, retryable, cancelled), s))))
  {
    hide Decimal;
  }

  lemma {:induction false} FailingEnds(
      hash: Hasher, exc: Exc, failureClass: Option<FailureClass>, retryable: bool, cancelled: bool, s: State)
    requires AttemptOpen(s)
    ensures AttemptEndedBadly(hash, exc, failureClass, retryable, false, cancelled, s,
              Apply(hash, AfterFail(false), Apply(hash, TouchRun, Apply(hash, FailAttempt(exc, failureClass, retryable, cancelled), s))))
  {
    hide Decimal;
  }

  // ----- inputs -----

  /** The memory learns the digest; the open stage keeps the first one it is given; an open node links the stored input, and its
      running attempt keeps the first digest. */
  predicate InputBound(hash: Hasher, key: string, content: Json, a: State, b: State) {
    var digest, id := hash(Document(content)), |a.db.artifacts|;
    var memory := a.regs.memory.(inputHashes := a.regs.memory.inputHashes[key := digest]);
    && b.db.stages == (if StageOpen(a) && a.db.stages[a.regs.stage.value].inputHash.None?
                       then a.db.stages[a.regs.stage.value := a.db.stages[a.regs.stage.value].(inputHash := Some(digest))]
                       else a.db.stages)
    && b.db.claims == a.db.claims
    && if !NodeOpen(a) then
         b.regs == a.regs.(memory := memory) && b.db == a.db.(stages := b.db.stages)
       else
         && b.regs == a.regs.(memory := memory, artifact := Some(id))
         && b.db.artifacts == a.db.artifacts + [
              ArtifactRow(Input, key + ".input", Document(content), digest, a.regs.node, a.regs.attempt)]
         && b.db.nodes == a.db.nodes[a.regs.node.value := a.db.nodes[a.regs.node.value].(input := Some(id))]
         && b.db.run == Touched(a.db.run, id)
         && b.db.attempts == if AttemptOpen(a) && a.db.attempts[a.regs.attempt.value].inputHash.None?
                             then a.db.attempts[a.regs.attempt.value :=
                                    a.db.attempts[a.regs.attempt.value].(inputHash := Some(digest))]
                             else a.db.attempts
  }

  lemma {:induction false} AfterStageBinding(hash: Hasher, digest: Digest, s: State)
    ensures var t := After(hash, if UnboundStage(s) then [BindStage(digest)] else [], s);
            t == s.(db := s.db.(
              stages := if UnboundStage(s)
                        then s.db.stages[s.regs.stage.value := s.db.stages[s.regs.stage.value].(inputHash := Some(digest))]
                        else s.db.stages))
  {
    AfterOne(hash, BindStage(digest), s);
  }

  lemma {:induction false} AfterLinking(hash: Hasher, key: string, content: Json, s: State)
    requires NodeOpen(s)
    ensures var t, digest, id := After(hash, InputProgram(key, content), s), hash(Document(content)), |s.db.artifacts|;
            && t.regs == s.regs.(artifact := Some(id)) && t.db.stages == s.db.stages && t.db.claims == s.db.claims
            && t.db.artifacts
               == s.db.artifacts + [ArtifactRow(Input, key + ".input", Document(content), digest, s.regs.node, s.regs.attempt)]
            && t.db.nodes == s.db.nodes[s.regs.node.value := s.db.nodes[s.regs.node.value].(input := Some(id))]
            && t.db.run == Touched(s.db.run, id)
            && t.db.attempts == if AttemptOpen(s) && s.db.attempts[s.regs.attempt.value].inputHash.None?
                                then s.db.attempts[s.regs.attempt.value :=
                                       s.db.attempts[s.regs.attempt.value].(inputHash := Some(digest))]
                                else s.db.attempts
  {
    AfterAddingThen(hash, Input, key + ".input", Document(content), LinkInput, s);
  }

  lemma {:induction false} AfterBindingInput(hash: Hasher, key: string, content: Json, s: State)
    ensures var bound := Bound(s, key, hash(Document(content)));
            InputBound(hash, key, content, s, After(hash, NeededBinding(hash, key, content, bound), bound))
  {
    hide After, InputProgram;
    var digest := hash(Document(content));
    var bound := Bound(s, key, digest);
    var first := if UnboundStage(bound) then [BindStage(digest)] else [];
    AfterStageBinding(hash, digest, bound);
    if NodeOpen(bound) {
      AfterAppend(hash, first, InputProgram(key, content), bound);
      AfterLinking(hash, key, content, After(hash, first, bound));
    } else {
      assert first + [] == first;
    }
  }

  // ----- the end of a failed run -----

  predicate AttemptClosed(failure: Failure, a: State, b: State) {
    if AttemptOpen(a) then
      b.regs.attempt.None?
      && b.db.attempts
         == a.db.attempts[a.regs.attempt.value := a.db.attempts[a.regs.attempt.value].(
              status := if failure.CancelledRun? then AttemptCancelled else AttemptFailed,
              retryable := failure.FailedRun? || failure.InterruptedRun?)]
    else b.regs.attempt == a.regs.attempt && b.db.attempts == a.db.attempts
  }

  predicate NodeClosed(exc: Exc, failure: Failure, a: State, b: State) {
    if NodeOpen(a) then
      b.regs.node.None?
      && b.db.nodes
         == a.db.nodes[a.regs.node.value := a.db.nodes[a.regs.node.value].(
              status := match failure
                        case CancelledRun => Cancelled
                        case BlockedRun => Blocked
                        case _ => Failed,
              error := Some(Message(exc)))]
    else b.regs.node == a.regs.node && b.db.nodes == a.db.nodes
  }

  predicate StageClosed(failure: Failure, a: State, b: State) {
    if StageOpen(a) then
      b.regs.stage.None?
      && b.db.stages
         == a.db.stages[a.regs.stage.value := a.db.stages[a.regs.stage.value].(
              status := match failure
                        case CancelledRun => StageCancelled
                        case BlockedRun => StageBlocked
                        case _ => StageFailed)]
    else b.regs.stage == a.regs.stage && b.db.stages == a.db.stages
  }

  /** What was open is closed: the attempt and the node as failed, cancelled or blocked, the stage likewise. Nothing that was
      closed changes. */
  predicate WorkClosed(exc: Exc, failure: Failure, a: State, b: State) {
    && AttemptClosed(failure, a, b) && NodeClosed(exc, failure, a, b) && StageClosed(failure, a, b)
    && b.regs.memory == a.regs.memory && b.db.claims == a.db.claims && (a.db.run.Some? ==> b.db.run.Some?)
  }

  /** Only what is named may differ. */
  predicate ElseSame(attempts: bool, nodes: bool, stages: bool, a: State, b: State) {
    && (!attempts ==> b.db.attempts == a.db.attempts && b.regs.attempt == a.regs.attempt)
    && (!nodes ==> b.db.nodes == a.db.nodes && b.regs.node == a.regs.node)
    && (!stages ==> b.db.stages == a.db.stages && b.regs.stage == a.regs.stage)
    && b.regs.memory == a.regs.memory && b.db.claims == a.db.claims && (a.db.run.Some? ==> b.db.run.Some?)
  }

  lemma {:induction false} AfterAttemptPart(hash: Hasher, exc: Exc, failure: Failure, s: State)
    ensures var t := After(hash, FailAttemptPart(exc, failure, s), s);
            AttemptClosed(failure, s, t) && ElseSame(true, false, false, s, t)
  {
    hide After, FailAttemptProgram, Decimal;
    AfterNothing(hash, s);
    if AttemptOpen(s) {
      AfterAttemptFailing(hash, exc, None, !failure.CancelledRun? && !failure.BlockedRun?, false, failure.CancelledRun?, s);
    }
  }

  lemma {:induction false} AfterNodePart(hash: Hasher, exc: Exc, failure: Failure, before: State, s: State)
    requires ElseSame(true, false, false, before, s)
    ensures var t := After(hash, FailNodePart(exc, failure, before), s);
            NodeClosed(exc, failure, s, t) && ElseSame(false, true, false, s, t)
  {
    hide After, Apply;
    AfterNothing(hash, s);
    if NodeOpen(s) {
      AfterNodeFailing(hash, if failure.CancelledRun? then Cancelled else if failure.BlockedRun? then Blocked else Failed, exc, None, s);
    }
  }

  lemma {:induction false} AfterStagePart(hash: Hasher, failure: Failure, before: State, s: State)
    requires ElseSame(true, true, false, before, s)
    ensures var t := After(hash, FailStagePart(failure, before), s);
            StageClosed(failure, s, t) && ElseSame(false, false, true, s, t)
  {
    hide After, Apply;
    AfterNothing(hash, s);
    if StageOpen(s) {
      AfterStageFailing(
        hash, if failure.CancelledRun? then StageCancelled else if failure.BlockedRun? then StageBlocked else StageFailed, s);
    }
  }

  lemma {:induction false} AfterClosingWork(hash: Hasher, exc: Exc, failure: Failure, s: State)
    ensures WorkClosed(exc, failure, s, After(hash, FailOpenProgram(exc, failure, s), s))
  {
    hide After, Apply, FailAttemptPart, FailNodePart, FailStagePart, AttemptClosed, NodeClosed, StageClosed, ElseSame, WorkClosed;
    var first, second, third := FailAttemptPart(exc, failure, s), FailNodePart(exc, failure, s), FailStagePart(failure, s);
    AfterAppend(hash, first + second, third, s);
    AfterAppend(hash, first, second, s);
    var s1 := After(hash, first, s);
    var s2 := After(hash, second, s1);
    AfterAttemptPart(hash, exc, failure, s);
    AfterNodePart(hash, exc, failure, s, s1);
    OtherTables(s, s1, s2);
    AfterStagePart(hash, failure, s, s2);
    ClosedTogether(exc, failure, s, s1, s2, After(hash, third, s2));
  }

  lemma {:induction false} OtherTables(a: State, b: State, c: State)
    requires ElseSame(true, false, false, a, b) && ElseSame(false, true, false, b, c)
    ensures ElseSame(true, true, false, a, c)
  {
  }

  lemma {:induction false} ClosedTogether(exc: Exc, failure: Failure, a: State, b: State, c: State, d: State)
    requires AttemptClosed(failure, a, b) && ElseSame(true, false, false, a, b)
    requires NodeClosed(exc, failure, b, c) && ElseSame(false, true, false, b, c)
    requires StageClosed(failure, c, d) && ElseSame(false, false, true, c, d)
    ensures WorkClosed(exc, failure, a, d)
  {
  }

  // ----- claims -----

  predicate Lists(claims: seq<ClaimInput>, id: string) {
    exists i :: 0 <= i < |claims| && claims[i].id == id
  }

  /** No later claim has the id of claim i. */
  predicate LastListed(claims: seq<ClaimInput>, i: nat)
    requires i < |claims|
  {
    forall j :: i < j < |claims| ==> claims[j].id != claims[i].id
  }

  predicate FirstListed(claims: seq<ClaimInput>, i: nat)
    requires i < |claims|
  {
    forall j :: 0 <= j < i ==> claims[j].id != claims[i].id
  }

  /** Every listed claim has a row. A new row says what its first listing said, and by which node; an old row keeps what it said.
      The status is that of the last listing, an unknown one counting as open. */
  ghost predicate ClaimsRecorded(
      claims: seq<ClaimInput>, node: Option<string>, stage: Option<string>,
      a: map<string, ClaimRow>, b: map<string, ClaimRow>)
  {
    && (forall k :: k in b <==> k in a || (k != "" && Lists(claims, k)))
    && (forall k :: k in a && !Lists(claims, k) ==> k in b && b[k] == a[k])
    && (forall k :: k in a ==> k in b && b[k].(status := a[k].status) == a[k])
    && (forall i :: 0 <= i < |claims| && claims[i].id != "" && LastListed(claims, i) ==>
          claims[i].id in b
          && b[claims[i].id].status == if claims[i].status.Some? then claims[i].status.value else Open)
    && (forall i :: 0 <= i < |claims| && claims[i].id != "" && claims[i].id !in a && FirstListed(claims, i) ==>
          claims[i].id in b && b[claims[i].id].(status := Open) == ClaimRow(claims[i].facts, node, stage, Open))
  }

  lemma {:induction false} ListedRows(
      claims: seq<ClaimInput>, node: Option<string>, stage: Option<string>, rows: map<string, ClaimRow>, k: string)
    ensures var b := ApplyClaims(rows, claims, node, stage);
            (k in b <==> k in rows || (k != "" && Lists(claims, k)))
            && (k in rows ==> b[k].(status := rows[k].status) == rows[k] && (!Lists(claims, k) ==> b[k] == rows[k]))
  {
    if claims != [] {
      var n := |claims| - 1;
      ListedRows(claims[..n], node, stage, rows, k);
      assert Lists(claims, k) <==> Lists(claims[..n], k) || claims[n].id == k by { ListsMore(claims, k); }
    }
  }

  lemma {:induction false} ListsMore(claims: seq<ClaimInput>, k: string)
    requires claims != []
    ensures Lists(claims, k) <==> Lists(claims[..|claims| - 1], k) || claims[|claims| - 1].id == k
  {
    var front := claims[..|claims| - 1];
    if Lists(front, k) {
      var i :| 0 <= i < |front| && front[i].id == k;
      assert claims[i].id == k;
    }
  }

  lemma {:induction false} LastStatusWins(
      claims: seq<ClaimInput>, node: Option<string>, stage: Option<string>, rows: map<string, ClaimRow>, i: nat)
    requires i < |claims| && claims[i].id != "" && LastListed(claims, i)
    ensures var b, id := ApplyClaims(rows, claims, node, stage), claims[i].id;
            id in b && b[id].status == if claims[i].status.Some? then claims[i].status.value else Open
  {
    if i < |claims| - 1 {
      LastStatusWins(claims[..|claims| - 1], node, stage, rows, i);
    }
  }

  lemma {:induction false} FirstFactsStay(
      claims: seq<ClaimInput>, node: Option<string>, stage: Option<string>, rows: map<string, ClaimRow>, i: nat)
    requires i < |claims| && claims[i].id != "" && claims[i].id !in rows && FirstListed(claims, i)
    ensures var b, id := ApplyClaims(rows, claims, node, stage), claims[i].id;
            id in b && b[id].(status := Open) == ClaimRow(claims[i].facts, node, stage, Open)
  {
    var n := |claims| - 1;
    ListedRows(claims[..n], node, stage, rows, claims[i].id);
    if i < n {
      FirstFactsStay(claims[..n], node, stage, rows, i);
    }
  }

  lemma {:induction false} ClaimsAreRecorded(
      claims: seq<ClaimInput>, node: Option<string>, stage: Option<string>, rows: map<string, ClaimRow>)
    ensures ClaimsRecorded(claims, node, stage, rows, ApplyClaims(rows, claims, node, stage))
  {
    hide ApplyClaims, Lists, LastListed, FirstListed;
    forall k {
      ListedRows(claims, node, stage, rows, k);
    }
    forall i | 0 <= i < |claims| && claims[i].id != "" && LastListed(claims, i) {
      LastStatusWins(claims, node, stage, rows, i);
    }
    forall i | 0 <= i < |claims| && claims[i].id != "" && claims[i].id !in rows && FirstListed(claims, i) {
      FirstFactsStay(claims, node, stage, rows, i);
    }
  }

  predicate LastResolved(resolutions: seq<Resolution>, i: nat)
    requires i < |resolutions|
  {
    forall j :: i < j < |resolutions| ==> resolutions[j].id != resolutions[i].id
  }

  predicate Resolves(resolutions: seq<Resolution>, id: string) {
    exists i :: 0 <= i < |resolutions| && resolutions[i].id == id
  }

  /** Every resolved claim has the status of its last resolution, an unknown one counting as open; nothing else changes. */
  ghost predicate ClaimsResolved(resolutions: seq<Resolution>, a: map<string, ClaimRow>, b: map<string, ClaimRow>) {
    && b.Keys == a.Keys
    && (forall k :: k in a && !Resolves(resolutions, k) ==> b[k] == a[k])
    && (forall k :: k in a ==> b[k].(status := a[k].status) == a[k])
    && forall i :: 0 <= i < |resolutions| && resolutions[i].id in a && LastResolved(resolutions, i) ==>
         b[resolutions[i].id].status == if resolutions[i].status.Some? then resolutions[i].status.value else Open
  }

  lemma {:induction false} ResolvedRows(resolutions: seq<Resolution>, rows: map<string, ClaimRow>, k: string)
    ensures var b := ApplyResolutions(rows, resolutions);
            b.Keys == rows.Keys
            && (k in rows ==> b[k].(status := rows[k].status) == rows[k] && (!Resolves(resolutions, k) ==> b[k] == rows[k]))
  {
    if resolutions != [] {
      var n := |resolutions| - 1;
      ResolvedRows(resolutions[..n], rows, k);
      if Resolves(resolutions[..n], k) {
        var i :| 0 <= i < n && resolutions[..n][i].id == k;
        assert resolutions[i].id == k;
      }
    }
  }

  lemma {:induction false} LastResolutionWins(resolutions: seq<Resolution>, rows: map<string, ClaimRow>, i: nat)
    requires i < |resolutions| && resolutions[i].id in rows && LastResolved(resolutions, i)
    ensures var b, id := ApplyResolutions(rows, resolutions), resolutions[i].id;
            id in b && b[id].status == if resolutions[i].status.Some? then resolutions[i].status.value else Open
  {
    var n := |resolutions| - 1;
    ResolvedRows(resolutions[..n], rows, resolutions[i].id);
    if i < n {
      LastResolutionWins(resolutions[..n], rows, i);
    }
  }

  lemma {:induction false} ClaimsAreResolved(resolutions: seq<Resolution>, rows: map<string, ClaimRow>)
    ensures ClaimsResolved(resolutions, rows, ApplyResolutions(rows, resolutions))
  {
    hide ApplyResolutions, Resolves, LastResolved;
    ResolvedRows(resolutions, rows, "");
    forall k {
      ResolvedRows(resolutions, rows, k);
    }
    forall i | 0 <= i < |resolutions| && resolutions[i].id in rows && LastResolved(resolutions, i) {
      LastResolutionWins(resolutions, rows, i);
    }
  }

  /** A stage that was finished before the run is opened again to be resumed may be reused: under a plan if and only if all its
      nodes have succeeded or were skipped, without one always. */
  lemma {:induction false} FinishedIsReusable(
    hash: Hasher, output: Option<Json>, checkpoint: Option<string>, planned: bool, s: State, t: State, u: State)
    requires StageOpen(s) && s.db.run.Some? && StageFinished(hash, output, checkpoint, s, t)
    requires RunOpened(true, false, t, u) && u.db.nodes == t.db.nodes && u.db.stages == t.db.stages
    ensures u.db.nodes == s.db.nodes
    ensures StageReusable(u, s.regs.stage.value, planned) <==>
            (planned ==> forall n :: n in s.db.nodes && s.db.nodes[n].stage == s.regs.stage.value ==>
              s.db.nodes[n].status in {Succeeded, Completed, Skipped})
  {
  }
}
