/** The audit tables of one run, the recorder's memory, and the commits that change them.
    Every `Commit` is one `_commit` of the recorder: a crash may fall between any two. */
module Store {
  import opened Json
  import opened Workflow

  type Digest = string

  /** SHA-256 over canonical JSON, left uninterpreted. */
  type Hasher = Content -> Digest

  datatype Content = Document(json: Json) | Snapshot(memory: Memory)

  /** What a checkpoint payload carries and a resumed recorder restores. */
  datatype Memory = Memory(
    completed: set<string>,
    inputHashes: map<string, Digest>,
    outputHashes: map<string, Digest>)

  const EMPTY_MEMORY := Memory({}, map[], map[])

  datatype FailureNote = FailureNote(failureClass: FailureClass, warning: string)

  datatype RunRow = RunRow(
    status: RunStatus,
    lastCheckpoint: Option<string>,
    resumable: bool,
    failedNode: Option<string>,
    failedStage: Option<string>,
    lastArtifact: Option<nat>)

  datatype StageRow = StageRow(status: StageStatus, inputHash: Option<Digest>, outputHash: Option<Digest>)

  datatype NodeRow = NodeRow(
    stage: string,
    status: NodeStatus,
    criticality: Criticality,
    attemptCount: nat,
    maxAttempts: int,
    retryable: bool,
    input: Option<nat>,
    output: Option<nat>,
    error: Option<string>,
    note: Option<FailureNote>)

  datatype AttemptRow = AttemptRow(
    node: string,
    no: nat,
    status: AttemptStatus,
    retryable: bool,
    failureClass: Option<FailureClass>,
    inputHash: Option<Digest>,
    outputHash: Option<Digest>)

  datatype ArtifactRow = ArtifactRow(
    kind: ArtifactType,
    key: string,
    content: Content,
    hash: Digest,
    node: Option<string>,
    attempt: Option<nat>)

  datatype ClaimFacts = ClaimFacts(
    speaker: string, stance: string, statement: string, evidence: Json, confidence: Json, targets: seq<string>)

  datatype ClaimRow = ClaimRow(facts: ClaimFacts, node: Option<string>, stage: Option<string>, status: ClaimStatus)

  /** A claim as an agent reports it; `None` is a status text that `_claim_status` does not know. */
  datatype ClaimInput = ClaimInput(id: string, facts: ClaimFacts, status: Option<ClaimStatus>)

  datatype Resolution = Resolution(id: string, status: Option<ClaimStatus>)

  /** Attempts and artifacts are numbered by their position; nodes, stages and claims by their unique key. */
  datatype Db = Db(
    run: Option<RunRow>,
    stages: map<string, StageRow>,
    nodes: map<string, NodeRow>,
    attempts: seq<AttemptRow>,
    artifacts: seq<ArtifactRow>,
    claims: map<string, ClaimRow>)

  const EMPTY_DB := Db(None, map[], map[], [], [], map[])

  /** The recorder fields that a crash loses. */
  datatype Regs = Regs(
    stage: Option<string>,
    node: Option<string>,
    attempt: Option<nat>,
    artifact: Option<nat>,
    nodeSkipped: bool,
    stageSkipped: bool,
    resume: bool,
    force: bool,
    memory: Memory)

  const EMPTY_REGS := Regs(None, None, None, None, false, false, false, false, EMPTY_MEMORY)

  datatype State = State(regs: Regs, db: Db)

  datatype Commit =
    | OpenRun(resume: bool, force: bool)
    | ResetForRestart
    | CloseRun(status: RunStatus)
    | OpenStage(phase: string)
    | CloseStage(stageStatus: StageStatus, withOutput: bool)
    | OpenNode(spec: NodeSpec)
    | CloseNode(withOutput: bool)
    | FailNode(nodeStatus: NodeStatus, exc: Exc, failureClass: Option<FailureClass>)
    | MarkSkipped
    | OpenAttempt
    | CloseAttempt(withHash: bool)
    | FailAttempt(exc: Exc, failureClass: Option<FailureClass>, retryable: bool, cancelled: bool)
    | AfterFail(waiting: bool)
    | AddArtifact(kind: ArtifactType, key: string, content: Content)
    | TouchRun
    | BindStage(digest: Digest)
    | LinkInput
    | SetCheckpoint(name: string)
    | UpsertClaims(claims: seq<ClaimInput>)
    | ResolveClaims(resolutions: seq<Resolution>)

  // ----- restoring -----

  predicate EndsWith(text: string, suffix: string) {
    |text| >= |suffix| && text[|text| - |suffix|..] == suffix
  }

  predicate RecordsInput(row: ArtifactRow) {
    row.kind == Input && EndsWith(row.key, ".input")
  }

  /** `_input_hashes` after the artifacts were read in id order: the last row for a key wins. */
  function ReadInputHashes(start: map<string, Digest>, artifacts: seq<ArtifactRow>): map<string, Digest> {
    if artifacts == [] then start
    else
      var last := artifacts[|artifacts| - 1];
      var before := ReadInputHashes(start, artifacts[..|artifacts| - 1]);
      if RecordsInput(last) then before[last.key[..|last.key| - 6] := last.hash] else before
  }

  function SucceededNodes(db: Db): set<string> {
    set n | n in db.nodes && Success(db.nodes[n].status)
  }

  predicate HasOutputRow(db: Db, n: string) {
    n in db.nodes && db.nodes[n].output.Some? && db.nodes[n].output.value < |db.artifacts|
  }

  function OutputHash(db: Db, n: string): Digest
    requires HasOutputRow(db, n)
  {
    db.artifacts[db.nodes[n].output.value].hash
  }

  function OutputHashes(nodes: set<string>, db: Db): map<string, Digest> {
    map n | n in nodes && HasOutputRow(db, n) :: OutputHash(db, n)
  }

  function ReadOutputHashes(start: map<string, Digest>, nodes: set<string>, db: Db): map<string, Digest> {
    start + OutputHashes(nodes, db)
  }

  /** `sync_node_state` */
  function Sync(memory: Memory, db: Db): Memory {
    Memory(
      SucceededNodes(db),
      ReadInputHashes(memory.inputHashes, db.artifacts),
      ReadOutputHashes(memory.outputHashes, SucceededNodes(db), db))
  }

  /** The newest artifact of this kind and key. */
  function Latest(artifacts: seq<ArtifactRow>, kind: ArtifactType, key: string): (found: Option<nat>)
    ensures found.Some? ==> found.value < |artifacts|
                            && artifacts[found.value].kind == kind && artifacts[found.value].key == key
  {
    if artifacts == [] then None
    else if artifacts[|artifacts| - 1].kind == kind && artifacts[|artifacts| - 1].key == key then Some(|artifacts| - 1)
    else Latest(artifacts[..|artifacts| - 1], kind, key)
  }

  predicate HasCheckpoint(db: Db) {
    db.run.Some? && db.run.value.lastCheckpoint.Some? && db.run.value.lastCheckpoint.value != ""
  }

  /** `_restore_checkpoint_state`: nothing at all is restored while the run has no checkpoint. */
  function RestoreMemory(db: Db): Memory {
    if !HasCheckpoint(db) then EMPTY_MEMORY
    else
      var found := Latest(db.artifacts, Checkpoint, "checkpoint." + db.run.value.lastCheckpoint.value);
      var base := if found.Some? && db.artifacts[found.value].content.Snapshot?
                  then db.artifacts[found.value].content.memory else EMPTY_MEMORY;
      Sync(base, db)
  }

  // ----- commits -----

  function ApplyClaims(
      rows: map<string, ClaimRow>, claims: seq<ClaimInput>, node: Option<string>, stage: Option<string>):
      map<string, ClaimRow>
  {
    if claims == [] then rows
    else
      var before := ApplyClaims(rows, claims[..|claims| - 1], node, stage);
      var claim := claims[|claims| - 1];
      var status := if claim.status.Some? then claim.status.value else Open;
      if claim.id == "" then before
      else if claim.id in before then before[claim.id := before[claim.id].(status := status)]
      else before[claim.id := ClaimRow(claim.facts, node, stage, status)]
  }

  function ApplyResolutions(rows: map<string, ClaimRow>, resolutions: seq<Resolution>): map<string, ClaimRow> {
    if resolutions == [] then rows
    else
      var before := ApplyResolutions(rows, resolutions[..|resolutions| - 1]);
      var last := resolutions[|resolutions| - 1];
      var status := if last.status.Some? then last.status.value else Open;
      if last.id in before then before[last.id := before[last.id].(status := status)] else before
  }

  function LinkNew(hash: Hasher, kind: ArtifactType, key: string, content: Content, r: Regs): ArtifactRow {
    ArtifactRow(kind, key, content, hash(content), r.node, r.attempt)
  }

  predicate NodeOpen(s: State) {
    s.regs.node.Some? && s.regs.node.value in s.db.nodes
  }

  predicate AttemptOpen(s: State) {
    s.regs.attempt.Some? && s.regs.attempt.value < |s.db.attempts|
  }

  predicate ArtifactKnown(s: State) {
    s.regs.artifact.Some? && s.regs.artifact.value < |s.db.artifacts|
  }

  predicate StageOpen(s: State) {
    s.regs.stage.Some? && s.regs.stage.value in s.db.stages
  }

  function AttemptErrorKey(no: nat): string {
    "attempt." + Decimal(no) + ".error"
  }

  function Digit(d: nat): char
    requires d < 10
  {
    "0123456789"[d]
  }

  function Decimal(n: nat): (text: string)
    ensures text != []
  {
    if n < 10 then [Digit(n)] else Decimal(n / 10) + [Digit(n % 10)]
  }

  function ErrorContent(exc: Exc): Content {
    Document(Obj([Field("error_message", Str(Message(exc)))]))
  }

  /** Adds an artifact row and remembers it as the last one written. */
  function WithArtifact(hash: Hasher, kind: ArtifactType, key: string, content: Content, s: State): State {
    State(
      s.regs.(artifact := Some(|s.db.artifacts|)),
      s.db.(artifacts := s.db.artifacts + [LinkNew(hash, kind, key, content, s.regs)]))
  }

  /** The run row as `start_run` leaves it; a run still marked running was interrupted. */
  function ReopenedRun(run: Option<RunRow>, resuming: bool): RunRow {
    if run.None? then RunRow(RunRunning, None, false, None, None, None)
    else
      var row := run.value;
      var kept := if row.status == RunRunning
                  then row.(resumable := row.lastCheckpoint.Some? && row.lastCheckpoint.value != "") else row;
      (if resuming then kept else kept.(failedNode := None, failedStage := None)).(status := RunRunning)
  }

  function ApplyOpenRun(resume: bool, force: bool, s: State): State {
    var resuming := resume && !force && s.db.run.Some?;
    var db := s.db.(run := Some(ReopenedRun(s.db.run, resuming)));
    State(EMPTY_REGS.(resume := resuming, force := force, memory := if resuming then RestoreMemory(db) else EMPTY_MEMORY), db)
  }

  function ApplyCloseRun(status: RunStatus, s: State): State {
    if s.db.run.None? then s
    else
      var row := s.db.run.value;
      var resumable := (status == RunFailed || status == RunInterrupted || status == RunCancelled)
                       && row.lastCheckpoint.Some? && row.lastCheckpoint.value != ""
                       && row.lastCheckpoint.value != "FINALIZED";
      var clean := (status == RunCompleted || status == RunBlocked)
                   && forall n :: n in s.db.nodes ==> s.db.nodes[n].status != Failed && s.db.nodes[n].status != Blocked;
      var run := row.(status := status, resumable := resumable,
                      failedNode := if clean then None else row.failedNode,
                      failedStage := if clean then None else row.failedStage);
      s.(db := s.db.(run := Some(run)))
  }

  function ApplyOpenStage(phase: string, s: State): State {
    var row := if phase in s.db.stages then s.db.stages[phase].(status := StageRunning) else StageRow(StageRunning, None, None);
    State(s.regs.(stage := Some(phase), stageSkipped := false), s.db.(stages := s.db.stages[phase := row]))
  }

  function ApplyCloseStage(hash: Hasher, status: StageStatus, withOutput: bool, s: State): State {
    if !StageOpen(s) then s
    else
      var phase := s.regs.stage.value;
      var digest := if withOutput && ArtifactKnown(s) then Some(s.db.artifacts[s.regs.artifact.value].hash) else None;
      var row := s.db.stages[phase].(status := status);
      var stages := s.db.stages[phase := if digest.Some? then row.(outputHash := digest) else row];
      var run := if status == StageCompleted || s.db.run.None? then s.db.run
                 else Some(s.db.run.value.(failedStage := Some(phase)));
      var memory := if digest.Some?
                    then s.regs.memory.(outputHashes := s.regs.memory.outputHashes[phase := digest.value]) else s.regs.memory;
      State(s.regs.(stage := None, memory := memory), s.db.(stages := stages, run := run))
  }

  function ApplyOpenNode(spec: NodeSpec, s: State): State {
    var stage := if s.regs.stage.Some? then s.regs.stage.value else "";
    var row :=
      if spec.key in s.db.nodes then
        s.db.nodes[spec.key].(stage := stage, status := Running, error := None,
                              maxAttempts := spec.maxAttempts, retryable := spec.retryable)
      else NodeRow(stage, Running, spec.criticality, 0, spec.maxAttempts, spec.retryable, None, None, None, None);
    State(s.regs.(node := Some(spec.key), nodeSkipped := false), s.db.(nodes := s.db.nodes[spec.key := row]))
  }

  function ApplyCloseNode(withOutput: bool, s: State): State {
    if !NodeOpen(s) then s
    else
      var n := s.regs.node.value;
      var digest := if withOutput && ArtifactKnown(s) then Some(s.db.artifacts[s.regs.artifact.value].hash) else None;
      var row := s.db.nodes[n].(status := Succeeded, output := if withOutput then s.regs.artifact else s.db.nodes[n].output);
      var memory := s.regs.memory.(completed := s.regs.memory.completed + {n},
                                   outputHashes := if digest.Some? then s.regs.memory.outputHashes[n := digest.value]
                                                   else s.regs.memory.outputHashes);
      State(s.regs.(node := None, memory := memory), s.db.(nodes := s.db.nodes[n := row]))
  }

  function ApplyFailNode(status: NodeStatus, exc: Exc, failureClass: Option<FailureClass>, s: State): State {
    if !NodeOpen(s) then s
    else
      var n := s.regs.node.value;
      var row := s.db.nodes[n].(status := status, error := Some(Message(exc)),
                                note := if failureClass.Some? then Some(FailureNote(failureClass.value, Message(exc)))
                                        else s.db.nodes[n].note);
      var run :=
        if row.criticality == Optional || s.db.run.None? then s.db.run
        else
          var row := s.db.run.value;
          Some(row.(failedNode := Some(n),
                    failedStage := if row.failedStage.Some? then row.failedStage else s.regs.stage));
      State(s.regs.(node := None), s.db.(nodes := s.db.nodes[n := row], run := run))
  }

  function ApplyOpenAttempt(s: State): State {
    if !NodeOpen(s) then s
    else
      var n := s.regs.node.value;
      var no := s.db.nodes[n].attemptCount + 1;
      State(
        s.regs.(attempt := Some(|s.db.attempts|)),
        s.db.(nodes := s.db.nodes[n := s.db.nodes[n].(attemptCount := no)],
              attempts := s.db.attempts + [AttemptRow(n, no, AttemptRunning, false, None, None, None)]))
  }

  function ApplyCloseAttempt(withHash: bool, s: State): State {
    if !AttemptOpen(s) then s
    else
      var a := s.regs.attempt.value;
      var row := s.db.attempts[a].(
        status := AttemptCompleted,
        outputHash := if withHash && ArtifactKnown(s) then Some(s.db.artifacts[s.regs.artifact.value].hash)
                      else s.db.attempts[a].outputHash);
      State(s.regs.(attempt := None), s.db.(attempts := s.db.attempts[a := row]))
  }

  /** The first commit of `fail_attempt`: the closed attempt and its error report become durable together. */
  function ApplyFailAttempt(hash: Hasher, exc: Exc, failureClass: Option<FailureClass>, retryable: bool, cancelled: bool,
                            s: State): State
  {
    if !AttemptOpen(s) then s
    else
      var a := s.regs.attempt.value;
      var row := s.db.attempts[a].(
        status := if cancelled then AttemptCancelled else AttemptFailed,
        retryable := retryable,
        failureClass := if failureClass.Some? then failureClass else s.db.attempts[a].failureClass);
      var noted := WithArtifact(hash, ErrorReport, AttemptErrorKey(row.no), ErrorContent(exc), s);
      State(noted.regs.(attempt := None), noted.db.(attempts := s.db.attempts[a := row]))
  }

  function ApplyLinkInput(s: State): State {
    if !NodeOpen(s) || !ArtifactKnown(s) then s
    else
      var n, id := s.regs.node.value, s.regs.artifact.value;
      var nodes := s.db.nodes[n := s.db.nodes[n].(input := Some(id))];
      var attempts :=
        if AttemptOpen(s) && s.db.attempts[s.regs.attempt.value].inputHash.None? then
          s.db.attempts[s.regs.attempt.value :=
            s.db.attempts[s.regs.attempt.value].(inputHash := Some(s.db.artifacts[id].hash))]
        else s.db.attempts;
      s.(db := s.db.(nodes := nodes, attempts := attempts))
  }

  function SetNodeStatus(status: NodeStatus, s: State): State {
    if !NodeOpen(s) then s
    else s.(db := s.db.(nodes := s.db.nodes[s.regs.node.value := s.db.nodes[s.regs.node.value].(status := status)]))
  }

  function Apply(hash: Hasher, c: Commit, s: State): State {
    match c
    case OpenRun(resume, force) => ApplyOpenRun(resume, force, s)
    case ResetForRestart =>
      s.(db := s.db.(
        nodes := map n | n in s.db.nodes :: s.db.nodes[n].(status := Pending, output := None),
        stages := map p | p in s.db.stages :: s.db.stages[p].(status := StagePending)))
    case CloseRun(status) => ApplyCloseRun(status, s)
    case OpenStage(phase) => ApplyOpenStage(phase, s)
    case CloseStage(status, withOutput) => ApplyCloseStage(hash, status, withOutput, s)
    case OpenNode(spec) => ApplyOpenNode(spec, s)
    case CloseNode(withOutput) => ApplyCloseNode(withOutput, s)
    case FailNode(status, exc, failureClass) => ApplyFailNode(status, exc, failureClass, s)
    case MarkSkipped => var marked := SetNodeStatus(Skipped, s); marked.(regs := marked.regs.(node := None))
    case OpenAttempt => ApplyOpenAttempt(s)
    case CloseAttempt(withHash) => ApplyCloseAttempt(withHash, s)
    case FailAttempt(exc, failureClass, retryable, cancelled) =>
      ApplyFailAttempt(hash, exc, failureClass, retryable, cancelled, s)
    case AfterFail(waiting) => if waiting then SetNodeStatus(RetryWaiting, s) else s
    case AddArtifact(kind, key, content) => WithArtifact(hash, kind, key, content, s)
    case TouchRun =>
      if s.db.run.None? then s else s.(db := s.db.(run := Some(s.db.run.value.(lastArtifact := s.regs.artifact))))
    case BindStage(digest) =>
      if !StageOpen(s) || s.db.stages[s.regs.stage.value].inputHash.Some? then s
      else
        s.(db := s.db.(stages := s.db.stages[s.regs.stage.value :=
                                   s.db.stages[s.regs.stage.value].(inputHash := Some(digest))]))
    case LinkInput => ApplyLinkInput(s)
    case SetCheckpoint(name) =>
      if s.db.run.None? then s
      else s.(db := s.db.(run := Some(s.db.run.value.(lastCheckpoint := Some(name), resumable := name != "FINALIZED"))))
    case UpsertClaims(claims) =>
      s.(db := s.db.(claims := ApplyClaims(s.db.claims, claims, s.regs.node, s.regs.stage)))
    case ResolveClaims(resolutions) => s.(db := s.db.(claims := ApplyResolutions(s.db.claims, resolutions)))
  }

  /** A program is the commits of one or more recorder calls, in order. */
  type Program = seq<Commit>

  function After(hash: Hasher, program: Program, s: State): State {
    if program == [] then s else After(hash, program[1..], Apply(hash, program[0], s))
  }

  /** The durable states a program goes through, one per commit. */
  function Commits(hash: Hasher, program: Program, s: State): (log: seq<Db>)
    ensures |log| == |program|
  {
    if program == [] then []
    else
      var next := Apply(hash, program[0], s);
      [next.db] + Commits(hash, program[1..], next)
  }

  lemma {:induction false} AfterAppend(hash: Hasher, left: Program, right: Program, s: State)
    ensures After(hash, left + right, s) == After(hash, right, After(hash, left, s))
    ensures Commits(hash, left + right, s) == Commits(hash, left, s) + Commits(hash, right, After(hash, left, s))
  {
    if left == [] {
      assert left + right == right;
    } else {
      assert (left + right)[1..] == left[1..] + right;
      AfterAppend(hash, left[1..], right, Apply(hash, left[0], s));
    }
  }

  lemma {:induction false} AfterNothing(hash: Hasher, s: State)
    ensures After(hash, [], s) == s
  {
  }

  lemma {:induction false} AfterOne(hash: Hasher, c: Commit, s: State)
    ensures After(hash, [c], s) == Apply(hash, c, s)
  {
  }

  lemma {:induction false} AfterThree(hash: Hasher, c: Commit, d: Commit, e: Commit, s: State)
    ensures After(hash, [c, d, e], s) == Apply(hash, e, Apply(hash, d, Apply(hash, c, s)))
  {
    hide Apply;
    var s1 := Apply(hash, c, s);
    var s2 := Apply(hash, d, s1);
    assert [c, d, e][1..] == [d, e] && [d, e][1..] == [e];
    AfterOne(hash, e, s2);
    assert After(hash, [d, e], s1) == After(hash, [e], s2);
  }

  // ----- what the recorder's methods commit -----

  function ArtifactProgram(kind: ArtifactType, key: string, content: Content): Program {
    [AddArtifact(kind, key, content), TouchRun]
  }

  function FinishNodeProgram(n: string, output: Option<Json>): Program {
    if output.Some? then ArtifactProgram(Structured, n + ".output", Document(output.value)) + [CloseNode(true)]
    else [CloseNode(false)]
  }

  function FinishAttemptProgram(no: nat, output: Option<Json>): Program {
    if output.Some? then
      ArtifactProgram(Structured, "attempt." + Decimal(no) + ".output", Document(output.value)) + [CloseAttempt(true)]
    else [CloseAttempt(false)]
  }

  function FailAttemptProgram(
      exc: Exc, failureClass: Option<FailureClass>, retryable: bool, waiting: bool, cancelled: bool):
      Program
  {
    [FailAttempt(exc, failureClass, retryable, cancelled), TouchRun, AfterFail(waiting)]
  }

  function InputProgram(key: string, content: Json): Program {
    ArtifactProgram(Input, key + ".input", Document(content)) + [LinkInput]
  }

  function BindProgram(hash: Hasher, key: string, content: Json): Program {
    [BindStage(hash(Document(content)))] + InputProgram(key, content)
  }

  predicate UnboundStage(s: State) {
    StageOpen(s) && s.db.stages[s.regs.stage.value].inputHash.None?
  }

  /** The recorder's memory has learned an input digest. */
  function Bound(s: State, key: string, digest: Digest): State {
    s.(regs := s.regs.(memory := s.regs.memory.(inputHashes := s.regs.memory.inputHashes[key := digest])))
  }

  /** The commits `bind_input_hash` needs: a stage hash is written once, an input only for an open node. */
  function NeededBinding(hash: Hasher, key: string, content: Json, s: State): Program {
    (if UnboundStage(s) then [BindStage(hash(Document(content)))] else [])
    + if NodeOpen(s) then InputProgram(key, content) else []
  }

  /** Asking for a stage hash that is already there commits nothing. */
  lemma {:induction false} BindingIsIdempotent(hash: Hasher, key: string, content: Json, s: State)
    requires NodeOpen(s)
    ensures After(hash, NeededBinding(hash, key, content, s), s) == After(hash, BindProgram(hash, key, content), s)
    ensures forall d :: d in Commits(hash, NeededBinding(hash, key, content, s), s) ==>
                          d in Commits(hash, BindProgram(hash, key, content), s)
  {
    var bind := BindStage(hash(Document(content)));
    var input := InputProgram(key, content);
    AfterAppend(hash, [bind], input, s);
    assert After(hash, [bind], s) == Apply(hash, bind, s);
    if !UnboundStage(s) {
      assert [] + input == input;
    }
  }

  predicate StageWasSkipped(s: State)
    requires StageOpen(s)
  {
    s.regs.stageSkipped && s.db.stages[s.regs.stage.value].status == StageCompleted
  }

  function StageClosing(phase: string, output: Option<Json>): Program {
    (if output.Some? then ArtifactProgram(Structured, phase + ".output", Document(output.value)) else [])
    + [CloseStage(StageCompleted, output.Some?)]
  }

  function FinishStageProgram(hash: Hasher, output: Option<Json>, checkpoint: Option<string>, s: State): Program
    requires StageOpen(s)
  {
    var closing := StageClosing(s.regs.stage.value, output);
    closing + if checkpoint.Some? then CheckpointProgram(checkpoint.value, After(hash, closing, s).regs.memory) else []
  }

  function CheckpointProgram(name: string, memory: Memory): Program {
    ArtifactProgram(Checkpoint, "checkpoint." + name, Snapshot(memory)) + [SetCheckpoint(name)]
  }

  /** How a run fails: the ways `fail_run` is told apart. */
  datatype Failure = FailedRun | BlockedRun | CancelledRun | InterruptedRun

  function FailAttemptPart(exc: Exc, failure: Failure, s: State): Program {
    if AttemptOpen(s)
    then FailAttemptProgram(exc, None, !failure.CancelledRun? && !failure.BlockedRun?, false, failure.CancelledRun?) else []
  }

  function FailNodePart(exc: Exc, failure: Failure, s: State): Program {
    if NodeOpen(s)
    then [FailNode(if failure.CancelledRun? then Cancelled else if failure.BlockedRun? then Blocked else Failed, exc, None)] else []
  }

  function FailStagePart(failure: Failure, s: State): Program {
    if StageOpen(s)
    then [CloseStage(if failure.CancelledRun? then StageCancelled else if failure.BlockedRun? then StageBlocked else StageFailed, false)]
    else []
  }

  /** What `fail_open_work` commits: the open attempt, the open node and the open stage are closed, in this order. */
  function FailOpenProgram(exc: Exc, failure: Failure, s: State): Program {
    FailAttemptPart(exc, failure, s) + FailNodePart(exc, failure, s) + FailStagePart(failure, s)
  }

  function FailedStatus(failure: Failure): RunStatus {
    match failure
    case FailedRun => RunFailed
    case BlockedRun => RunBlocked
    case CancelledRun => RunCancelled
    case InterruptedRun => RunInterrupted
  }

  /** `fail_run` */
  function FailRunProgram(exc: Exc, failure: Failure, s: State): Program {
    FailOpenProgram(exc, failure, s) + [CloseRun(FailedStatus(failure))]
  }

  function StatusName(status: ClaimStatus): string {
    match status
    case Open => "open"
    case Addressed => "addressed"
    case Resolved => "resolved"
    case Unresolved => "unresolved"
    case Accepted => "accepted"
    case Rejected => "rejected"
    case PartiallyAccepted => "partially_accepted"
  }

  /** The rows `record_claims` stored, as its artifact lists them. */
  function ClaimItems(claims: seq<ClaimInput>, rows: map<string, ClaimRow>): seq<Json> {
    if claims == [] then []
    else
      var before := ClaimItems(claims[..|claims| - 1], rows);
      var id := claims[|claims| - 1].id;
      if id == "" || id !in rows then before
      else
        var row := rows[id];
        before + [Obj([Field("claim_id", Str(id)), Field("speaker", Str(row.facts.speaker)),
                       Field("stance", Str(row.facts.stance)), Field("statement", Str(row.facts.statement)),
                       Field("status", Str(StatusName(row.status)))])]
  }

  function ClaimsProgram(claims: seq<ClaimInput>, debate: string, s: State): Program {
    var items := ClaimItems(claims, ApplyClaims(s.db.claims, claims, s.regs.node, s.regs.stage));
    [UpsertClaims(claims)]
    + if items == [] then [] else ArtifactProgram(ClaimList, "claims." + debate, Document(Arr(items)))
  }

  function ResolutionItems(resolutions: seq<Resolution>): seq<Json> {
    seq(|resolutions|, i requires 0 <= i < |resolutions| =>
      Obj([Field("claim_id", Str(resolutions[i].id)),
           Field("status", if resolutions[i].status.Some? then Str(StatusName(resolutions[i].status.value)) else Null)]))
  }

  function ResolveProgram(resolutions: seq<Resolution>): Program {
    [ResolveClaims(resolutions)]
    + ArtifactProgram(ClaimList, "claims.resolutions", Document(Arr(ResolutionItems(resolutions))))
  }

  /** A resumed run reuses a completed stage; under a plan, only when all its nodes succeeded or were skipped. */
  predicate StageReusable(s: State, phase: string, planned: bool) {
    s.regs.resume && !s.regs.force && phase in s.db.stages && s.db.stages[phase].status == StageCompleted
    && (planned ==> forall n :: n in s.db.nodes && s.db.nodes[n].stage == phase ==>
          Success(s.db.nodes[n].status) || s.db.nodes[n].status == Skipped)
  }

  /** A resumed run reuses a node that already succeeded. */
  predicate NodeReusable(s: State, n: string) {
    s.regs.resume && !s.regs.force && n in s.db.nodes && Success(s.db.nodes[n].status)
  }

  /** The stored output of a node, as `load_node_output` reads it back. */
  function LoadOutput(db: Db, n: string): Option<Json> {
    if HasOutputRow(db, n) && db.artifacts[db.nodes[n].output.value].content.Document?
    then Some(db.artifacts[db.nodes[n].output.value].content.json) else None
  }
}
