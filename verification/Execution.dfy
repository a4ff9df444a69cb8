/** One `NodeExecutor.execute` call as a machine: each move is one durable commit or one decision between commits. */
module Execution {
  import opened Json
  import opened Workflow
  import opened Context
  import opened Store

  type Payload = j: Json | WellShaped(j) witness Null

  /** What a node function may commit while it runs: artifacts that are no inputs or checkpoints, and claims. */
  predicate Effect(c: Commit) {
    || (c.AddArtifact? && c.kind != Input && c.kind != Checkpoint && c.content.Document?)
    || c.TouchRun? || c.UpsertClaims? || c.ResolveClaims?
  }

  type Effects = p: Program | forall c :: c in p ==> Effect(c) witness []

  datatype Outcome = Returns(effects: Effects, output: Option<Json>) | Raises(effects: Effects, exc: Exc)

  datatype Job = Job(
    spec: NodeSpec, payload: Option<Payload>, outputKind: Option<ArtifactType>, failClosed: bool, enabled: bool)

  /** The surroundings of one call: what the node function does at each invocation, and what each cancel poll answers. */
  datatype Env = Env(
    hash: Hasher, invoke: (nat, ContextMode) -> Outcome, cancelled: nat -> bool, fallback: int, planned: bool)

  datatype NodeResult = NodeResult(
    status: NodeStatus, output: Option<Json>, skipped: bool, degraded: bool,
    warning: Option<string>, failureClass: Option<FailureClass>, attemptCount: nat)

  datatype Verdict = Returned(result: NodeResult) | Raised(exc: Exc)

  datatype Control =
    | Enter
    | Head
    | Bind
    | Call
    | Settle(outcome: Outcome)
    | Conclude(pending: Verdict)
    | Done(verdict: Verdict)

  /** `calls` counts invocations of the node function, `polls` cancel checks. */
  datatype Worker = Worker(
    job: Job, env: Env, control: Control, todo: Program, regs: Regs, mode: ContextMode, calls: nat, polls: nat)

  datatype Config = Config(worker: Worker, db: Db)

  function Start(job: Job, env: Env, regs: Regs): Worker {
    Worker(job, env, Enter, [], regs, Full, 0, 0)
  }

  function Attempts(db: Db, n: string): nat {
    if n in db.nodes then db.nodes[n].attemptCount else 0
  }

  function AttemptNo(s: State): nat {
    if AttemptOpen(s) then s.db.attempts[s.regs.attempt.value].no else 0
  }

  predicate GateRejects(job: Job, env: Env, regs: Regs) {
    var key := job.spec.key + ".full";
    regs.resume && job.payload.Some? && env.planned
    && key in regs.memory.inputHashes && regs.memory.inputHashes[key] != ""
    && regs.memory.inputHashes[key] != env.hash(Document(job.payload.value))
  }

  function SkippedBefore(row: NodeRow): NodeResult {
    NodeResult(Skipped, None, true, false,
               if row.note.Some? then Some(row.note.value.warning) else row.error,
               if row.note.Some? then Some(row.note.value.failureClass) else None,
               row.attemptCount)
  }

  function Reused(db: Db, n: string): NodeResult {
    NodeResult(if n in db.nodes then db.nodes[n].status else Succeeded, LoadOutput(db, n), true, false, None, None, Attempts(db, n))
  }

  function DecideEnter(w: Worker, db: Db): Worker {
    var n := w.job.spec.key;
    var w1 := w.(polls := w.polls + 1);
    if w.env.cancelled(w.polls) then w1.(control := Done(Raised(JobCancelled)))
    else if !w.job.enabled then
      if w.regs.stage.None? then w1.(control := Done(Raised(StageNotStarted)))
      else if NodeReusable(State(w.regs, db), n) then
        w1.(regs := w.regs.(node := Some(n), nodeSkipped := true), todo := [MarkSkipped],
            control := Conclude(Returned(NodeResult(Skipped, None, true, false, None, None, 0))))
      else
        w1.(todo := [OpenNode(w.job.spec), MarkSkipped],
            control := Conclude(Returned(NodeResult(Skipped, None, true, false, None, None, 0))))
    else if GateRejects(w.job, w.env, w.regs) then w1.(control := Done(Raised(ResumeRejected("resume_input_hash_mismatch"))))
    else if w.regs.resume && !w.regs.force && n in db.nodes && db.nodes[n].status == Skipped then
      w1.(control := Done(Returned(SkippedBefore(db.nodes[n]))))
    else if !w.regs.force && n in w.regs.memory.completed then w1.(control := Done(Returned(Reused(db, n))))
    else if w.regs.stage.None? then w1.(control := Done(Raised(StageNotStarted)))
    else if NodeReusable(State(w.regs, db), n) then
      w1.(regs := w.regs.(node := Some(n), nodeSkipped := true), control := Done(Returned(Reused(db, n))))
    else w1.(todo := [OpenNode(w.job.spec)], control := Head)
  }

  function DecideHead(w: Worker): Worker {
    var w1 := w.(polls := w.polls + 1);
    if w.env.cancelled(w.polls) then
      w1.(todo := [FailNode(Cancelled, JobCancelled, None)], control := Conclude(Raised(JobCancelled)))
    else w1.(todo := [OpenAttempt], control := Bind)
  }

  function PromptProgram(job: Job, no: nat, payload: Json): Program {
    if job.spec.llm then ArtifactProgram(RenderedPrompt, job.spec.key + ".prompt." + Decimal(no), Document(payload)) else []
  }

  function InputKey(n: string, mode: ContextMode): string {
    n + "." + ModeName(mode)
  }

  function DecideBind(w: Worker, db: Db): Worker {
    var w1 := w.(calls := w.calls + 1, control := Call);
    if w.job.payload.None? then w1
    else
      var payload := CompressPayload(w.job.payload.value, w.mode);
      var key := InputKey(w.job.spec.key, w.mode);
      w1.(regs := Bound(State(w.regs, db), key, w.env.hash(Document(payload))).regs,
          todo := BindProgram(w.env.hash, key, payload) + PromptProgram(w.job, AttemptNo(State(w.regs, db)), payload))
  }

  function DecideCall(w: Worker): Worker {
    var outcome := w.env.invoke(w.calls, w.mode);
    w.(todo := outcome.effects, control := Settle(outcome))
  }

  function AttemptReturnProgram(job: Job, no: nat, output: Option<Json>): Program {
    if job.outputKind.Some? && output.Some? then
      ArtifactProgram(job.outputKind.value, job.spec.key + ".output." + Decimal(no), Document(output.value)) + [CloseAttempt(true)]
    else FinishAttemptProgram(no, output)
  }

  function ReturnProgram(job: Job, no: nat, output: Option<Json>): Program {
    AttemptReturnProgram(job, no, output) + FinishNodeProgram(job.spec.key, output)
  }

  /** The retry decision and the context mode of the next attempt. */
  function Retry(job: Job, env: Env, exc: Exc, calls: nat, mode: ContextMode): (r: (bool, ContextMode))
    ensures r.0 ==> calls < MaxAttemptsFor(job.spec, env.fallback)
    ensures r.1 != mode <==> r.0 && Classify(exc) == ContextOverflow
  {
    var wanted := ShouldRetry(job.spec, Classify(exc), calls, env.fallback) && calls < MaxAttemptsFor(job.spec, env.fallback);
    if wanted && Classify(exc) == ContextOverflow then
      if NextContextMode(mode).None? then (false, mode) else (true, NextContextMode(mode).value)
    else (wanted, mode)
  }

  /** How the node row ends when no attempt is left or the job was cancelled. */
  function EndProgram(job: Job, exc: Exc): Program {
    if exc.JobCancelled? then [FailNode(Cancelled, exc, None)]
    else if exc.ResumeRejected? then [FailNode(Failed, exc, None)]
    else if job.spec.criticality == Optional then [FailNode(Skipped, exc, Some(Classify(exc)))]
    else [FailNode(Failed, exc, None)]
  }

  /** How a call ends once its attempts are used up. */
  function TerminalVerdict(job: Job, exc: Exc): Verdict {
    if exc.ResumeRejected? then Raised(exc)
    else if job.spec.criticality == Optional then
      Returned(NodeResult(Skipped, None, true, false, Some(Message(exc)), Some(Classify(exc)), 0))
    else if job.failClosed || job.spec.criticality == Mandatory then Raised(exc)
    else Returned(NodeResult(Failed, None, false, true, Some(Message(exc)), Some(Classify(exc)), 0))
  }

  lemma {:induction false} OneEffect(hash: Hasher, c: Commit, s: State)
    requires Effect(c)
    ensures var t := Apply(hash, c, s);
            t.db.nodes == s.db.nodes && t.db.attempts == s.db.attempts && s.db.artifacts <= t.db.artifacts
            && t.regs.(artifact := s.regs.artifact) == s.regs
  {
    hide ApplyClaims, ApplyResolutions;
  }

  /** A node function's own commits leave node rows, attempts and the open registers alone. */
  lemma {:induction false} EffectsFrame(hash: Hasher, effects: Effects, s: State)
    ensures var t := After(hash, effects, s);
            t.db.nodes == s.db.nodes && t.db.attempts == s.db.attempts && s.db.artifacts <= t.db.artifacts
            && t.regs.(artifact := s.regs.artifact) == s.regs
  {
    hide Apply;
    if effects != [] {
      assert effects[0] in effects;
      OneEffect(hash, effects[0], s);
      EffectsFrame(hash, effects[1..], Apply(hash, effects[0], s));
    }
  }

  function DecideSettle(w: Worker, db: Db): Worker
    requires w.control.Settle?
  {
    match w.control.outcome
    case Returns(_, output) =>
      w.(todo := ReturnProgram(w.job, AttemptNo(State(w.regs, db)), output),
         control := Conclude(Returned(NodeResult(Succeeded, output, false, false, None, None, 0))))
    case Raises(_, exc) =>
      if exc.JobCancelled? then
        w.(todo := FailAttemptProgram(exc, None, false, false, true) + EndProgram(w.job, exc),
           control := Conclude(Raised(exc)))
      else
        var (retry, mode) := Retry(w.job, w.env, exc, w.calls, w.mode);
        var failing := FailAttemptProgram(exc, Some(Classify(exc)), retry, retry, false);
        if retry then w.(todo := failing, mode := mode, control := Head)
        else w.(todo := failing + EndProgram(w.job, exc), control := Conclude(TerminalVerdict(w.job, exc)))
  }

  /** A raised outcome in one piece: the attempt fails, and either the next round or the end of the call follows. */
  lemma {:induction false} SettleRaise(w: Worker, db: Db)
    requires w.control.Settle? && w.control.outcome.Raises?
    ensures var exc := w.control.outcome.exc;
            var (again, next) := if exc.JobCancelled? then (false, w.mode) else Retry(w.job, w.env, exc, w.calls, w.mode);
            var lastClass := if exc.JobCancelled? then None else Some(Classify(exc));
            DecideSettle(w, db) == w.(
              todo := FailAttemptProgram(exc, lastClass, again, again, exc.JobCancelled?)
                      + (if again then [] else EndProgram(w.job, exc)),
              mode := next,
              control := if again then Head
                         else Conclude(if exc.JobCancelled? then Raised(exc) else TerminalVerdict(w.job, exc)))
  {
    var exc := w.control.outcome.exc;
    if !exc.JobCancelled? {
      var again := Retry(w.job, w.env, exc, w.calls, w.mode).0;
      var failing := FailAttemptProgram(exc, Some(Classify(exc)), again, again, false);
      assert failing + [] == failing;
    }
  }

  /** The returned result carries the node's lifetime attempt count; a disabled node reports none. */
  function Count(v: Verdict, job: Job, db: Db): Verdict {
    if v.Returned? && job.enabled then Returned(v.result.(attemptCount := Attempts(db, job.spec.key))) else v
  }

  function Move(c: Config): Config {
    var w := c.worker;
    if w.todo != [] then
      var s := Apply(w.env.hash, w.todo[0], State(w.regs, c.db));
      Config(w.(todo := w.todo[1..], regs := s.regs), s.db)
    else
      match w.control
      case Enter => c.(worker := DecideEnter(w, c.db))
      case Head => c.(worker := DecideHead(w))
      case Bind => c.(worker := DecideBind(w, c.db))
      case Call => c.(worker := DecideCall(w))
      case Settle(_) => c.(worker := DecideSettle(w, c.db))
      case Conclude(v) => c.(worker := w.(control := Done(Count(v, w.job, c.db))))
      case Done(_) => c
  }

  /** What each control point decides, without its details. */
  lemma {:induction false} Decides(c: Config)
    requires c.worker.todo == []
    ensures var w := c.worker;
            Move(c) == c.(worker :=
              match w.control
              case Enter => DecideEnter(w, c.db)
              case Head => DecideHead(w)
              case Bind => DecideBind(w, c.db)
              case Call => DecideCall(w)
              case Settle(_) => DecideSettle(w, c.db)
              case Conclude(v) => w.(control := Done(Count(v, w.job, c.db)))
              case Done(_) => w)
  {
  }

  function Run(c: Config, k: nat): Config
    decreases k
  {
    if k == 0 then c else Run(Move(c), k - 1)
  }

  /** A crash while the call is under way leaves one of these databases. */
  ghost predicate Visited(c: Config, k: nat, d: Db) {
    exists i: nat :: i <= k && Run(c, i).db == d
  }

  lemma {:induction false} RunSplit(c: Config, i: nat, j: nat)
    ensures Run(c, i + j) == Run(Run(c, i), j)
    decreases i
  {
    hide Move;
    if i > 0 {
      RunSplit(Move(c), i - 1, j);
    }
  }

  lemma {:induction false} MoveTodo(c: Config)
    requires c.worker.todo != []
    ensures var s := Apply(c.worker.env.hash, c.worker.todo[0], State(c.worker.regs, c.db));
            Move(c) == Config(c.worker.(todo := c.worker.todo[1..], regs := s.regs), s.db)
  {
  }

  /** Running a pending program to its end performs its commits, one move each. */
  lemma {:induction false} RunTodo(c: Config, program: Program, s: State)
    requires c.worker.todo == program && s == State(c.worker.regs, c.db)
    ensures var end := After(c.worker.env.hash, program, s);
            Run(c, |program|) == Config(c.worker.(todo := [], regs := end.regs), end.db)
    ensures forall i :: 0 <= i < |program| ==> Run(c, i + 1).db == Commits(c.worker.env.hash, program, s)[i]
    decreases |program|
  {
    if program != [] {
      MoveTodo(c);
      var next := Apply(c.worker.env.hash, program[0], s);
      RunTodo(Move(c), program[1..], next);
      forall i | 0 <= i < |program|
        ensures Run(c, i + 1).db == Commits(c.worker.env.hash, program, s)[i]
      {
        assert Run(c, i + 1) == Run(Move(c), i);
        if i > 0 {
          assert Run(Move(c), i - 1 + 1).db == Commits(c.worker.env.hash, program[1..], next)[i - 1];
        }
      }
    }
  }
}
