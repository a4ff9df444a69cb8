/** Retry discipline: what one `execute` call does with its attempts, its context modes and its node row. */
module Discipline {
  import opened Json
  import opened Workflow
  import opened Context
  import opened Store
  import opened Tables
  import opened Execution

  function Budget(w: Worker): nat {
    MaxAttemptsFor(w.job.spec, w.env.fallback)
  }

  /** A worker with nothing pending, at a point the control flow can reach. */
  predicate Paced(w: Worker) {
    w.todo == []
    && match w.control
       case Enter => w.calls == 0 && w.mode == Full
       case Head => w.calls < Budget(w)
       case Bind => w.calls < Budget(w)
       case Call => 1 <= w.calls <= Budget(w)
       case Settle(_) => 1 <= w.calls <= Budget(w)
       case _ => w.calls <= Budget(w)
  }

  function Rank(w: Worker): nat
    requires Paced(w)
  {
    match w.control
    case Enter => 4 * Budget(w) + 6
    case Head => 4 * (Budget(w) - w.calls) + 3
    case Bind => 4 * (Budget(w) - w.calls) + 2
    case Call => 4 * (Budget(w) - w.calls) + 5
    case Settle(_) => 4 * (Budget(w) - w.calls) + 4
    case Conclude(_) => 1
    case Done(_) => 0
  }

  /** One decision together with the commits it asks for. */
  function Round(c: Config): Config {
    var d := Move(c);
    var end := After(d.worker.env.hash, d.worker.todo, State(d.worker.regs, d.db));
    Config(d.worker.(todo := [], regs := end.regs), end.db)
  }

  lemma {:induction false} RoundDescends(c: Config)
    requires Paced(c.worker) && !c.worker.control.Done?
    ensures Paced(Round(c).worker) && Rank(Round(c).worker) < Rank(c.worker)
    ensures Round(c).worker.job == c.worker.job && Round(c).worker.env == c.worker.env
  {
    Decides(c);
    if c.worker.control.Settle? && c.worker.control.outcome.Raises? {
      SettleRaise(c.worker, c.db);
    }
  }

  /** The whole call in one piece. */
  function Finish(c: Config): (end: Config)
    requires Paced(c.worker)
    ensures end.worker.control.Done? && Paced(end.worker)
    decreases Rank(c.worker)
  {
    if c.worker.control.Done? then c
    else
      RoundDescends(c);
      Finish(Round(c))
  }

  lemma {:induction false} RoundIsRun(c: Config) returns (k: nat)
    requires c.worker.todo == []
    ensures Run(c, k) == Round(c)
  {
    var d := Move(c);
    k := 1 + |d.worker.todo|;
    RunTodo(d, d.worker.todo, State(d.worker.regs, d.db));
  }

  lemma {:induction false} FinishIsRun(c: Config) returns (k: nat)
    requires Paced(c.worker)
    ensures Run(c, k) == Finish(c)
    decreases Rank(c.worker)
  {
    if c.worker.control.Done? {
      k := 0;
    } else {
      RoundDescends(c);
      var i := RoundIsRun(c);
      var j := FinishIsRun(Round(c));
      RunSplit(c, i, j);
      k := i + j;
    }
  }

  lemma {:induction false} DoneStays(c: Config, k: nat)
    requires c.worker.control.Done? && c.worker.todo == []
    ensures Run(c, k) == c
    decreases k
  {
    if k > 0 {
      DoneStays(c, k - 1);
    }
  }

  lemma {:induction false} DoneHasNothingPending(c: Config, k: nat)
    requires c.worker.control.Done? ==> c.worker.todo == []
    ensures Run(c, k).worker.control.Done? ==> Run(c, k).worker.todo == []
    decreases k
  {
    if k > 0 {
      if c.worker.todo == [] {
        Decides(c);
      } else {
        MoveTodo(c);
      }
      DoneHasNothingPending(Move(c), k - 1);
    }
  }

  /** However many moves it took, a call that is done ended as `Finish` says. */
  lemma {:induction false} DoneIsFinish(c: Config, k: nat)
    requires Paced(c.worker) && Run(c, k).worker.control.Done?
    ensures Run(c, k) == Finish(c)
  {
    var j := FinishIsRun(c);
    DoneHasNothingPending(c, k);
    if k <= j {
      RunSplit(c, k, j - k);
      DoneStays(Run(c, k), j - k);
    } else {
      RunSplit(c, j, k - j);
      DoneStays(Finish(c), k - j);
    }
  }

  // ----- attempts -----

  /** The context mode of the i-th invocation: it starts full and moves on exactly when the one before overflowed. */
  function ModeAt(env: Env, i: nat): ContextMode {
    if i <= 1 then Full
    else
      var mode := ModeAt(env, i - 1);
      var outcome := env.invoke(i - 1, mode);
      if outcome.Raises? && Classify(outcome.exc) == ContextOverflow && NextContextMode(mode).Some?
      then NextContextMode(mode).value else mode
  }

  /** The i-th invocation failed in a way that earns another attempt. */
  predicate Retried(env: Env, i: nat) {
    var outcome := env.invoke(i, ModeAt(env, i));
    outcome.Raises? && Classify(outcome.exc) != NonRetryable
    && (Classify(outcome.exc) == ContextOverflow ==> NextContextMode(ModeAt(env, i)).Some?)
  }

  predicate RetriedUpTo(env: Env, bound: nat) {
    forall i :: 1 <= i < bound ==> Retried(env, i)
  }

  /** What the row of the i-th attempt says once it is closed: whether the invocation returned, failed or was cancelled, the class
      of its failure, and whether another attempt follows for it. */
  predicate Tells(job: Job, env: Env, i: nat, row: AttemptRow) {
    match env.invoke(i, ModeAt(env, i))
    case Returns(_, _) => row.status == AttemptCompleted
    case Raises(_, exc) =>
      if exc.JobCancelled? then row.status == AttemptCancelled && !row.retryable
      else
        row.status == AttemptFailed && row.failureClass == Some(Classify(exc))
        && (row.retryable <==> Retried(env, i) && i < MaxAttemptsFor(job.spec, env.fallback))
  }

  /** The node is open, and the attempts count since `first` are `count` closed ones of this node. */
  predicate Between(job: Job, env: Env, first: nat, s: State, count: nat) {
    && s.regs.node == Some(job.spec.key) && job.spec.key in s.db.nodes
    && Opened(job.spec.key, first, s.db, count) && AllClosed(job, env, first, s.db)
  }

  /** As `Between`, with the last attempt still running. */
  predicate Midway(job: Job, env: Env, first: nat, s: State, count: nat) {
    && s.regs.node == Some(job.spec.key) && job.spec.key in s.db.nodes
    && count >= 1 && Opened(job.spec.key, first, s.db, count)
    && s.regs.attempt == Some(first + count - 1)
    && s.db.attempts[first + count - 1].status == AttemptRunning
    && forall a :: first <= a < first + count - 1 ==> Tells(job, env, a - first + 1, s.db.attempts[a])
  }

  predicate Opened(n: string, first: nat, db: Db, count: nat) {
    |db.attempts| == first + count && forall a :: first <= a < |db.attempts| ==> db.attempts[a].node == n
  }

  predicate AllClosed(job: Job, env: Env, first: nat, db: Db) {
    forall a :: first <= a < |db.attempts| ==> Tells(job, env, a - first + 1, db.attempts[a])
  }

  lemma {:induction false} AfterArtifact(hash: Hasher, kind: ArtifactType, key: string, content: Content, s: State)
    ensures var t := After(hash, ArtifactProgram(kind, key, content), s);
            && t.db == s.db.(artifacts := s.db.artifacts + [LinkNew(hash, kind, key, content, s.regs)], run := t.db.run)
            && t.regs == s.regs.(artifact := Some(|s.db.artifacts|))
  {
    AfterAppend(hash, [AddArtifact(kind, key, content)], [TouchRun], s);
    AfterOne(hash, AddArtifact(kind, key, content), s);
    AfterOne(hash, TouchRun, Apply(hash, AddArtifact(kind, key, content), s));
  }

  lemma {:induction false} OpenKeepsCount(hash: Hasher, job: Job, env: Env, first: nat, s: State, count: nat)
    requires Between(job, env, first, s, count)
    ensures Midway(job, env, first, After(hash, [OpenAttempt], s), count + 1)
  {
    AfterOne(hash, OpenAttempt, s);
  }

  lemma {:induction false} BindKeepsMidway(
      hash: Hasher, job: Job, env: Env, first: nat, s: State, count: nat, key: string, content: Json, no: nat)
    requires Midway(job, env, first, s, count)
    ensures Midway(job, env, first, After(hash, BindProgram(hash, key, content) + PromptProgram(job, no, content), s), count)
  {
    var bind := BindStage(hash(Document(content)));
    AfterAppend(hash, BindProgram(hash, key, content), PromptProgram(job, no, content), s);
    AfterAppend(hash, [bind], InputProgram(key, content), s);
    AfterOne(hash, bind, s);
    var s1 := Apply(hash, bind, s);
    AfterAppend(hash, ArtifactProgram(Input, key + ".input", Document(content)), [LinkInput], s1);
    AfterArtifact(hash, Input, key + ".input", Document(content), s1);
    var s2 := After(hash, ArtifactProgram(Input, key + ".input", Document(content)), s1);
    AfterOne(hash, LinkInput, s2);
    LinkKeepsMidway(job, env, first, s2, count);
    var s3 := ApplyLinkInput(s2);
    if job.spec.llm {
      AfterArtifact(hash, RenderedPrompt, job.spec.key + ".prompt." + Decimal(no), Document(content), s3);
    }
  }

  lemma {:induction false} LinkKeepsMidway(job: Job, env: Env, first: nat, s: State, count: nat)
    requires Midway(job, env, first, s, count)
    ensures Midway(job, env, first, ApplyLinkInput(s), count)
  {
  }

  /** The commit that closes the i-th attempt is the one its failure calls for. */
  predicate Closing(job: Job, env: Env, i: nat, fail: Commit)
    requires fail.FailAttempt?
  {
    var outcome := env.invoke(i, ModeAt(env, i));
    outcome.Raises? && fail.cancelled == outcome.exc.JobCancelled?
    && (fail.cancelled ==> !fail.retryable)
    && (!fail.cancelled ==>
          fail.failureClass == Some(Classify(outcome.exc))
          && (fail.retryable <==> Retried(env, i) && i < MaxAttemptsFor(job.spec, env.fallback)))
  }

  lemma {:induction false} FailCloses(
    hash: Hasher, job: Job, env: Env, first: nat, s: State, count: nat, exc: Exc, failureClass: Option<FailureClass>, again: bool,
    cancelled: bool)
    requires Midway(job, env, first, s, count) && Closing(job, env, count, FailAttempt(exc, failureClass, again, cancelled))
    ensures Between(job, env, first, After(hash, FailAttemptProgram(exc, failureClass, again, again, cancelled), s), count)
  {
    hide Apply, After, Midway, Between;
    var fail := FailAttempt(exc, failureClass, again, cancelled);
    var program := FailAttemptProgram(exc, failureClass, again, again, cancelled);
    assert program == [fail] + ([TouchRun] + [AfterFail(again)]);
    AfterAppend(hash, [fail], [TouchRun] + [AfterFail(again)], s);
    AfterOne(hash, fail, s);
    AttemptFails(hash, job, env, first, s, count, fail);
    var s1 := Apply(hash, fail, s);
    AfterAppend(hash, [TouchRun], [AfterFail(again)], s1);
    AfterOne(hash, TouchRun, s1);
    TailKeepsBetween(hash, job, env, first, s1, count, again);
    AfterOne(hash, AfterFail(again), Apply(hash, TouchRun, s1));
  }

  lemma {:induction false} ClosingTells(job: Job, env: Env, i: nat, fail: Commit, row: AttemptRow)
    requires fail.FailAttempt? && Closing(job, env, i, fail)
    requires row.status == (if fail.cancelled then AttemptCancelled else AttemptFailed) && row.retryable == fail.retryable
    requires fail.failureClass.Some? ==> row.failureClass == fail.failureClass
    ensures Tells(job, env, i, row)
  {
    hide ModeAt, Retried;
  }

  lemma {:induction false} AttemptFails(hash: Hasher, job: Job, env: Env, first: nat, s: State, count: nat, fail: Commit)
    requires Midway(job, env, first, s, count) && fail.FailAttempt? && Closing(job, env, count, fail)
    ensures Between(job, env, first, Apply(hash, fail, s), count)
  {
    hide AttemptErrorKey, ErrorContent, Tells, Closing;
    var t := Apply(hash, fail, s);
    ClosingTells(job, env, count, fail, t.db.attempts[first + count - 1]);
  }

  lemma {:induction false} TailKeepsBetween(hash: Hasher, job: Job, env: Env, first: nat, s: State, count: nat, again: bool)
    requires Between(job, env, first, s, count)
    ensures Between(job, env, first, Apply(hash, AfterFail(again), Apply(hash, TouchRun, s)), count)
  {
  }

  /** The row of a node that ended badly tells its error; that of an optional one also the class of its failure. */
  predicate Reported(job: Job, exc: Exc, row: NodeRow) {
    row.error == Some(Message(exc))
    && (job.spec.criticality == Optional && !exc.ResumeRejected? && !exc.JobCancelled? ==>
          row.note == Some(FailureNote(Classify(exc), Message(exc))))
  }

  lemma {:induction false} EndFailsNode(hash: Hasher, job: Job, env: Env, first: nat, s: State, count: nat, exc: Exc)
    requires Between(job, env, first, s, count)
    ensures var t := After(hash, EndProgram(job, exc), s);
            Opened(job.spec.key, first, t.db, count) && AllClosed(job, env, first, t.db) && job.spec.key in t.db.nodes && t.regs.node.None?
            && t.db.nodes[job.spec.key].status == (if exc.JobCancelled? then Cancelled
                                        else if job.spec.criticality == Optional && !exc.ResumeRejected? then Skipped else Failed)
            && Reported(job, exc, t.db.nodes[job.spec.key])
  {
    AfterOne(hash, EndProgram(job, exc)[0], s);
  }

  lemma {:induction false} ReturnCloses(
      hash: Hasher, job: Job, env: Env, first: nat, s: State, count: nat, no: nat, output: Option<Json>)
    requires Midway(job, env, first, s, count) && env.invoke(count, ModeAt(env, count)).Returns?
    ensures var t := After(hash, ReturnProgram(job, no, output), s);
            Opened(job.spec.key, first, t.db, count) && AllClosed(job, env, first, t.db) && job.spec.key in t.db.nodes && t.regs.node.None?
            && t.db.nodes[job.spec.key].status == Succeeded && (output.Some? ==> LoadOutput(t.db, job.spec.key) == output)
  {
    AfterAppend(hash, AttemptReturnProgram(job, no, output), FinishNodeProgram(job.spec.key, output), s);
    AttemptReturnCloses(hash, job, env, first, s, count, no, output);
    FinishSucceeds(hash, job, env, first, After(hash, AttemptReturnProgram(job, no, output), s), count, output);
  }

  lemma {:induction false} CloseKeepsCount(job: Job, env: Env, first: nat, s: State, count: nat, withHash: bool)
    requires Midway(job, env, first, s, count) && env.invoke(count, ModeAt(env, count)).Returns?
    ensures Between(job, env, first, ApplyCloseAttempt(withHash, s), count)
  {
    hide ModeAt, Retried, Classify, MaxAttemptsFor;
  }

  lemma {:induction false} AttemptReturnCloses(
      hash: Hasher, job: Job, env: Env, first: nat, s: State, count: nat, no: nat, output: Option<Json>)
    requires Midway(job, env, first, s, count) && env.invoke(count, ModeAt(env, count)).Returns?
    ensures Between(job, env, first, After(hash, AttemptReturnProgram(job, no, output), s), count)
  {
    hide Midway, Between, Tells, Apply, ModeAt, Decimal;
    if output.Some? {
      var kind, key := Structured, "attempt." + Decimal(no) + ".output";
      if job.outputKind.Some? {
        kind, key := job.outputKind.value, job.spec.key + ".output." + Decimal(no);
      }
      AfterAppend(hash, ArtifactProgram(kind, key, Document(output.value)), [CloseAttempt(true)], s);
      AfterArtifact(hash, kind, key, Document(output.value), s);
      var s1 := After(hash, ArtifactProgram(kind, key, Document(output.value)), s);
      AfterOne(hash, CloseAttempt(true), s1);
      SameAttempts(job, env, first, s, s1, count);
      CloseIsApplied(hash, true, s1);
      CloseKeepsCount(job, env, first, s1, count, true);
    } else {
      AfterOne(hash, CloseAttempt(false), s);
      CloseIsApplied(hash, false, s);
      CloseKeepsCount(job, env, first, s, count, false);
    }
  }

  lemma {:induction false} CloseIsApplied(hash: Hasher, withHash: bool, s: State)
    ensures Apply(hash, CloseAttempt(withHash), s) == ApplyCloseAttempt(withHash, s)
  {
  }

  lemma {:induction false} FinishSucceeds(
      hash: Hasher, job: Job, env: Env, first: nat, s: State, count: nat, output: Option<Json>)
    requires Between(job, env, first, s, count)
    ensures var t := After(hash, FinishNodeProgram(job.spec.key, output), s);
            Opened(job.spec.key, first, t.db, count) && AllClosed(job, env, first, t.db) && job.spec.key in t.db.nodes && t.regs.node.None?
            && t.db.nodes[job.spec.key].status == Succeeded && (output.Some? ==> LoadOutput(t.db, job.spec.key) == output)
  {
    if output.Some? {
      AfterAppend(hash, ArtifactProgram(Structured, job.spec.key + ".output", Document(output.value)), [CloseNode(true)], s);
      AfterArtifact(hash, Structured, job.spec.key + ".output", Document(output.value), s);
      AfterOne(hash, CloseNode(true), After(hash, ArtifactProgram(Structured, job.spec.key + ".output", Document(output.value)), s));
    } else {
      AfterOne(hash, CloseNode(false), s);
    }
  }

  // ----- the whole call -----

  /** The verdict that the last invocation and the node's criticality call for. */
  function Ending(job: Job, outcome: Outcome): Verdict {
    match outcome
    case Returns(_, output) => Returned(NodeResult(Succeeded, output, false, false, None, None, 0))
    case Raises(_, exc) => if exc.JobCancelled? then Raised(exc) else TerminalVerdict(job, exc)
  }

  predicate SameButCount(v: Verdict, u: Verdict) {
    if v.Returned? && u.Returned? then v.result.(attemptCount := 0) == u.result.(attemptCount := 0) else v == u
  }

  function StatusFor(v: Verdict): NodeStatus {
    match v
    case Returned(result) => result.status
    case Raised(exc) => if exc.JobCancelled? then Cancelled else Failed
  }

  /** The first n polls found the job not cancelled. */
  predicate NotCancelled(env: Env, n: nat) {
    forall i :: 0 <= i < n ==> !env.cancelled(i)
  }

  /** How far a call has come at a point with nothing pending. */
  predicate Progress(c: Config, first: nat) {
    var w, s, n := c.worker, State(c.worker.regs, c.db), c.worker.job.spec.key;
    Paced(w) && w.job.enabled && NotCancelled(w.env, w.calls + 1)
    && match w.control
       case Head =>
         Between(w.job, w.env, first, s, w.calls) && RetriedUpTo(w.env, w.calls + 1) && w.mode == ModeAt(w.env, w.calls + 1)
         && w.polls == w.calls + 1
       case Bind =>
         Midway(w.job, w.env, first, s, w.calls + 1) && RetriedUpTo(w.env, w.calls + 1) && w.mode == ModeAt(w.env, w.calls + 1)
         && w.polls == w.calls + 2 && !w.env.cancelled(w.calls + 1)
       case Call =>
         Midway(w.job, w.env, first, s, w.calls) && RetriedUpTo(w.env, w.calls) && w.mode == ModeAt(w.env, w.calls)
         && w.polls == w.calls + 1
       case Settle(outcome) =>
         Midway(w.job, w.env, first, s, w.calls) && RetriedUpTo(w.env, w.calls) && w.mode == ModeAt(w.env, w.calls)
         && w.polls == w.calls + 1 && outcome == w.env.invoke(w.calls, w.mode)
       case Conclude(v) => Concluded(c, first, v)
       case Done(v) => Concluded(c, first, v) && (v.Returned? ==> v.result.attemptCount == Attempts(c.db, n))
       case Enter => false
  }

  predicate Concluded(c: Config, first: nat, v: Verdict) {
    var w, n := c.worker, c.worker.job.spec.key;
    && Opened(n, first, c.db, w.calls) && AllClosed(w.job, w.env, first, c.db)
    && Decided(w.job, w.env, w.calls, v) && w.regs.node.None?
    && (v == Raised(JobCancelled) ==> n in c.db.nodes && Reported(w.job, JobCancelled, c.db.nodes[n]))
    && (v != Raised(JobCancelled) && w.env.invoke(w.calls, ModeAt(w.env, w.calls)).Raises? ==>
          n in c.db.nodes && Reported(w.job, w.env.invoke(w.calls, ModeAt(w.env, w.calls)).exc, c.db.nodes[n]))
    && n in c.db.nodes && c.db.nodes[n].status == StatusFor(v)
    && (v.Returned? && v.result.status == Succeeded && v.result.output.Some? ==> LoadOutput(c.db, n) == v.result.output)
  }

  /** The verdict after so many invocations: either the poll before the next one found the job cancelled, or the last
      invocation earned no further attempt and the verdict is the one it calls for. */
  predicate Decided(job: Job, env: Env, calls: nat, v: Verdict) {
    || (v == Raised(JobCancelled) && env.cancelled(calls + 1) && RetriedUpTo(env, calls + 1)
        && calls < MaxAttemptsFor(job.spec, env.fallback))
    || (calls >= 1 && RetriedUpTo(env, calls) && !(Retried(env, calls) && calls < MaxAttemptsFor(job.spec, env.fallback))
        && SameButCount(v, Ending(job, env.invoke(calls, ModeAt(env, calls)))))
  }

  lemma {:induction false} RoundFrom(c: Config, d: Worker)
    requires Move(c) == Config(d, c.db)
    ensures var end := After(d.env.hash, d.todo, State(d.regs, c.db));
            Round(c) == Config(d.(todo := [], regs := end.regs), end.db)
  {
  }

  lemma {:induction false} HeadProgresses(c: Config, first: nat)
    requires Progress(c, first) && c.worker.control.Head?
    ensures Progress(Round(c), first)
  {
    hide Move, Round, After, Ending, Between, Midway, Opened, AllClosed, ModeAt, Retried, SameButCount, LoadOutput;
    var w, s, n := c.worker, State(c.worker.regs, c.db), c.worker.job.spec.key;
    Decides(c);
    RoundFrom(c, DecideHead(w));
    if w.env.cancelled(w.polls) {
      EndFailsNode(w.env.hash, w.job, w.env, first, s, w.calls, JobCancelled);
    } else {
      OpenKeepsCount(w.env.hash, w.job, w.env, first, s, w.calls);
    }
  }

  lemma {:induction false} BindProgresses(c: Config, first: nat)
    requires Progress(c, first) && c.worker.control.Bind?
    ensures Progress(Round(c), first)
  {
    hide Move, Round, After, BindProgram, PromptProgram, CompressPayload, RetriedUpTo, ModeAt, Between, Concluded, Midway, Bound;
    var w, s, n := c.worker, State(c.worker.regs, c.db), c.worker.job.spec.key;
    Decides(c);
    RoundFrom(c, DecideBind(w, c.db));
    if w.job.payload.Some? {
      var payload := CompressPayload(w.job.payload.value, w.mode);
      var key := InputKey(n, w.mode);
      var bound := Bound(s, key, w.env.hash(Document(payload)));
      BoundKeepsMidway(w.job, w.env, first, s, w.calls + 1, key, w.env.hash(Document(payload)));
      BindKeepsMidway(w.env.hash, w.job, w.env, first, bound, w.calls + 1, key, payload, AttemptNo(s));
    } else {
      AfterNothing(w.env.hash, s);
    }
  }

  lemma {:induction false} BoundKeepsMidway(job: Job, env: Env, first: nat, s: State, count: nat, key: string, digest: Digest)
    requires Midway(job, env, first, s, count)
    ensures Midway(job, env, first, Bound(s, key, digest), count) && Bound(s, key, digest).db == s.db
  {
  }

  lemma {:induction false} CallProgresses(c: Config, first: nat)
    requires Progress(c, first) && c.worker.control.Call?
    ensures Progress(Round(c), first)
  {
    hide Move, Round, After, RetriedUpTo, ModeAt, Between, Concluded, Midway;
    var w, s := c.worker, State(c.worker.regs, c.db);
    var effects := w.env.invoke(w.calls, w.mode).effects;
    Decides(c);
    RoundFrom(c, DecideCall(w));
    EffectsFrame(w.env.hash, effects, s);
    SameAttempts(w.job, w.env, first, s, After(w.env.hash, effects, s), w.calls);
  }

  lemma {:induction false} SameAttempts(job: Job, env: Env, first: nat, s: State, t: State, count: nat)
    requires Midway(job, env, first, s, count) && t.db.nodes == s.db.nodes && t.db.attempts == s.db.attempts
    requires t.regs.(artifact := s.regs.artifact) == s.regs
    ensures Midway(job, env, first, t, count)
  {
  }

  lemma {:induction false} ReturnProgresses(c: Config, first: nat)
    requires Progress(c, first) && c.worker.control.Settle? && c.worker.control.outcome.Returns?
    ensures Progress(Round(c), first)
  {
    hide Move, Round, After, ReturnProgram, RetriedUpTo, ModeAt, Opened, AllClosed, Midway, Between, LoadOutput;
    var w, s, n := c.worker, State(c.worker.regs, c.db), c.worker.job.spec.key;
    Decides(c);
    RoundFrom(c, DecideSettle(w, c.db));
    ReturnCloses(w.env.hash, w.job, w.env, first, s, w.calls, AttemptNo(s), w.control.outcome.output);
  }

  lemma {:induction false} EarnedIsRetried(job: Job, env: Env, calls: nat)
    requires calls >= 1 && env.invoke(calls, ModeAt(env, calls)).Raises?
    requires !env.invoke(calls, ModeAt(env, calls)).exc.JobCancelled?
    ensures var exc := env.invoke(calls, ModeAt(env, calls)).exc;
            Retry(job, env, exc, calls, ModeAt(env, calls)).0
            <==> Retried(env, calls) && calls < MaxAttemptsFor(job.spec, env.fallback)
  {
    hide ModeAt;
  }

  /** The part of a raised outcome that concerns the attempt. */
  lemma {:induction false} RaiseRound(c: Config, first: nat, exc: Exc)
    requires Progress(c, first) && c.worker.control.Settle?
    requires c.worker.control.outcome.Raises? && c.worker.control.outcome.exc == exc
    ensures var (again, next) := if exc.JobCancelled? then (false, c.worker.mode)
                                 else Retry(c.worker.job, c.worker.env, exc, c.worker.calls, c.worker.mode);
            var n, end := c.worker.job.spec.key, Round(c);
            && end.worker == c.worker.(todo := [], regs := end.worker.regs, mode := next,
                                       control := if again then Head
                                                  else Conclude(if exc.JobCancelled? then Raised(exc)
                                                                else TerminalVerdict(c.worker.job, exc)))
            && (if again then Between(c.worker.job, c.worker.env, first, State(end.worker.regs, end.db), c.worker.calls)
                else Opened(n, first, end.db, c.worker.calls) && AllClosed(c.worker.job, c.worker.env, first, end.db) && n in end.db.nodes
                     && end.worker.regs.node.None? && Reported(c.worker.job, exc, end.db.nodes[n])
                     && end.db.nodes[n].status == (if exc.JobCancelled? then Cancelled
                                                   else if c.worker.job.spec.criticality == Optional && !exc.ResumeRejected?
                                                   then Skipped else Failed))
  {
    hide Move, Round, After, FailAttemptProgram, EndProgram, DecideSettle, TerminalVerdict, Retry, Retried, ModeAt;
    var w, s, n := c.worker, State(c.worker.regs, c.db), c.worker.job.spec.key;
    Decides(c);
    SettleRaise(w, c.db);
    RoundFrom(c, DecideSettle(w, c.db));
    var again := !exc.JobCancelled? && Retry(w.job, w.env, exc, w.calls, w.mode).0;
    var lastClass := if exc.JobCancelled? then None else Some(Classify(exc));
    var failing := FailAttemptProgram(exc, lastClass, again, again, exc.JobCancelled?);
    if !exc.JobCancelled? {
      EarnedIsRetried(w.job, w.env, w.calls);
    }
    FailCloses(w.env.hash, w.job, w.env, first, s, w.calls, exc, lastClass, again, exc.JobCancelled?);
    var failed := After(w.env.hash, failing, s);
    if again {
      assert failing + [] == failing;
    } else {
      AfterAppend(w.env.hash, failing, EndProgram(w.job, exc), s);
      EndFailsNode(w.env.hash, w.job, w.env, first, failed, w.calls, exc);
    }
  }

  lemma {:induction false} RetryProgresses(c: Config, first: nat, exc: Exc)
    requires Progress(c, first) && c.worker.control.Settle? && !exc.JobCancelled?
    requires c.worker.control.outcome.Raises? && c.worker.control.outcome.exc == exc
    requires Retry(c.worker.job, c.worker.env, exc, c.worker.calls, c.worker.mode).0
    ensures Progress(Round(c), first)
  {
    hide Move, Round, After, DecideSettle, Midway, Between, TerminalVerdict, Opened, AllClosed;
    RaiseRound(c, first, exc);
    assert Retried(c.worker.env, c.worker.calls);
  }

  lemma {:induction false} EndProgresses(c: Config, first: nat, exc: Exc)
    requires Progress(c, first) && c.worker.control.Settle?
    requires c.worker.control.outcome.Raises? && c.worker.control.outcome.exc == exc
    requires exc.JobCancelled? || !Retry(c.worker.job, c.worker.env, exc, c.worker.calls, c.worker.mode).0
    ensures Progress(Round(c), first)
  {
    hide Move, Round, After, DecideSettle, Midway, Between, Opened, AllClosed, RetriedUpTo, ModeAt, LoadOutput;
    RaiseRound(c, first, exc);
  }

  lemma {:induction false} RoundProgresses(c: Config, first: nat)
    requires Progress(c, first)
    ensures Progress(Round(c), first)
  {
    match c.worker.control
    case Head => HeadProgresses(c, first);
    case Bind => BindProgresses(c, first);
    case Call => CallProgresses(c, first);
    case Settle(outcome) =>
      if outcome.Returns? {
        ReturnProgresses(c, first);
      } else if !outcome.exc.JobCancelled? && Retry(c.worker.job, c.worker.env, outcome.exc, c.worker.calls, c.worker.mode).0 {
        RetryProgresses(c, first, outcome.exc);
      } else {
        EndProgresses(c, first, outcome.exc);
      }
    case Conclude(_) => Decides(c);
    case Done(_) => Decides(c);
  }

  lemma {:induction false} FinishProgresses(c: Config, first: nat)
    requires Progress(c, first)
    ensures Progress(Finish(c), first) && Finish(c).worker.control.Done?
    ensures Finish(c).worker.job == c.worker.job && Finish(c).worker.env == c.worker.env
    decreases Rank(c.worker)
  {
    hide Progress, Round;
    if !c.worker.control.Done? {
      ProgressIsPaced(c, first);
      RoundDescends(c);
      RoundProgresses(c, first);
      FinishProgresses(Round(c), first);
    }
  }

  lemma {:induction false} ProgressIsPaced(c: Config, first: nat)
    requires Progress(c, first)
    ensures Paced(c.worker)
  {
  }

  /** A call that is not turned away at the entry opens its node and enters the loop. */
  predicate Admitted(job: Job, env: Env, regs: Regs, db: Db) {
    && !env.cancelled(0) && job.enabled && !GateRejects(job, env, regs) && regs.stage.Some?
    && (regs.force || job.spec.key !in regs.memory.completed)
    && !NodeReusable(State(regs, db), job.spec.key)
    && !(regs.resume && !regs.force && job.spec.key in db.nodes && db.nodes[job.spec.key].status == Skipped)
  }

  lemma {:induction false} EnterProgresses(job: Job, env: Env, regs: Regs, db: Db)
    requires Admitted(job, env, regs, db)
    ensures Progress(Round(Config(Start(job, env, regs), db)), |db.attempts|)
  {
    var c := Config(Start(job, env, regs), db);
    Decides(c);
    RoundFrom(c, DecideEnter(c.worker, db));
    AfterOne(env.hash, OpenNode(job.spec), State(regs, db));
  }

  /** Retry discipline of one whole `execute` call. Attempts opened are attempts invoked and within budget, and all of them
      are closed on exit; no poll before an invocation found the job cancelled, and every invocation but the last earned a
      retry; the call stopped because the next poll found the job cancelled, or because the last invocation earned no further
      attempt, and then the verdict is the one that invocation and the criticality call for; the node's final status fits
      the verdict, and what a succeeded call returns can be read back. */
  lemma {:induction false} RetryDiscipline(job: Job, env: Env, regs: Regs, db: Db)
    requires Admitted(job, env, regs, db)
    ensures var end := Finish(Config(Start(job, env, regs), db));
            var calls, verdict, budget := end.worker.calls, end.worker.control.verdict, MaxAttemptsFor(job.spec, env.fallback);
            && calls <= budget
            && |end.db.attempts| == |db.attempts| + calls
            && (forall a :: |db.attempts| <= a < |end.db.attempts| ==>
                  end.db.attempts[a].node == job.spec.key && Tells(job, env, a - |db.attempts| + 1, end.db.attempts[a]))
            && (forall i :: 0 <= i <= calls ==> !env.cancelled(i))
            && (forall i :: 1 <= i < calls ==> Retried(env, i))
            && (if calls < budget && (calls == 0 || Retried(env, calls)) then
                  env.cancelled(calls + 1) && verdict == Raised(JobCancelled)
                else SameButCount(verdict, Ending(job, env.invoke(calls, ModeAt(env, calls)))))
            && job.spec.key in end.db.nodes && end.db.nodes[job.spec.key].status == StatusFor(verdict)
            && (verdict.Returned? && verdict.result.status == Succeeded && verdict.result.output.Some? ==>
                  LoadOutput(end.db, job.spec.key) == verdict.result.output)
            && end.worker.regs.node.None?
  {
    hide Round, Move, After, Ending, ModeAt, LoadOutput, SameButCount, StatusFor, Progress, Retried, Tells;
    var c := Config(Start(job, env, regs), db);
    RoundDescends(c);
    EnterProgresses(job, env, regs, db);
    FinishProgresses(Round(c), |db.attempts|);
    DoneIsDecided(Finish(Round(c)), |db.attempts|);
  }

  /** What an admitted call answers when its last invocation earned no further attempt, spelled out. A returned value is the
      result. After an error, a mandatory node raises it and so does one that must not fail open, unless it is optional; an
      optional node is skipped; an important one goes on degraded. Both say which error it was. Cancellation and a rejected
      resume are always raised. The node's row tells the same. */
  lemma {:induction false} CallEnds(job: Job, env: Env, regs: Regs, db: Db)
    requires Admitted(job, env, regs, db)
    ensures var end := Finish(Config(Start(job, env, regs), db));
            var calls, n := end.worker.calls, job.spec.key;
            var outcome, verdict := env.invoke(calls, ModeAt(env, calls)), end.worker.control.verdict;
            calls >= 1 && !(Retried(env, calls) && calls < MaxAttemptsFor(job.spec, env.fallback)) ==>
              n in end.db.nodes
              && var row := end.db.nodes[n];
              match outcome
              case Returns(_, output) =>
                verdict == Returned(NodeResult(Succeeded, output, false, false, None, None, row.attemptCount))
                && row.status == Succeeded
              case Raises(_, exc) =>
                && (exc.JobCancelled? ==> verdict == Raised(exc) && row.status == Cancelled)
                && (exc.ResumeRejected? ==> verdict == Raised(exc) && row.status == Failed)
                && (!exc.JobCancelled? && !exc.ResumeRejected? ==>
                      && (job.spec.criticality == Mandatory ==> verdict == Raised(exc) && row.status == Failed)
                      && (job.spec.criticality == Important && job.failClosed ==> verdict == Raised(exc) && row.status == Failed)
                      && (job.spec.criticality == Important && !job.failClosed ==>
                            verdict == Returned(NodeResult(
                              Failed, None, false, true, Some(Message(exc)), Some(Classify(exc)), row.attemptCount))
                            && row.status == Failed)
                      && (job.spec.criticality == Optional ==>
                            verdict == Returned(NodeResult(
                              Skipped, None, true, false, Some(Message(exc)), Some(Classify(exc)), row.attemptCount))
                            && row.status == Skipped && row.note == Some(FailureNote(Classify(exc), Message(exc)))))
                && row.error == Some(Message(exc))
  {
    hide Round, Move, After, ModeAt, LoadOutput, Progress, Retried, Tells, Classify, Message, MaxAttemptsFor, Opened, AllClosed;
    var c := Config(Start(job, env, regs), db);
    RoundDescends(c);
    EnterProgresses(job, env, regs, db);
    FinishProgresses(Round(c), |db.attempts|);
    DoneIsDecided(Finish(Round(c)), |db.attempts|);
  }

  lemma {:induction false} DoneIsDecided(c: Config, first: nat)
    requires Progress(c, first) && c.worker.control.Done?
    ensures var v, budget := c.worker.control.verdict, MaxAttemptsFor(c.worker.job.spec, c.worker.env.fallback);
            Concluded(c, first, v) && c.worker.calls <= budget && NotCancelled(c.worker.env, c.worker.calls + 1)
            && (v.Returned? ==> v.result.attemptCount == Attempts(c.db, c.worker.job.spec.key))
  {
    hide Concluded;
  }

  /** A call that is turned away at the entry invokes nothing, and leaves the tables as they are unless it is disabled. */
  lemma {:induction false} TurnedAwayChangesNothing(job: Job, env: Env, regs: Regs, db: Db)
    requires !Admitted(job, env, regs, db)
    ensures var end := Finish(Config(Start(job, env, regs), db));
            && end.worker.calls == 0
            && (job.enabled || env.cancelled(0) || regs.stage.None? ==> end.db == db)
            && end.db.attempts == db.attempts && end.db.artifacts == db.artifacts
  {
    hide After, Apply;
    var c := Config(Start(job, env, regs), db);
    RoundDescends(c);
    Decides(c);
    RoundFrom(c, DecideEnter(c.worker, db));
    var d := DecideEnter(c.worker, db);
    AfterNothing(env.hash, State(d.regs, db));
    if d.control.Conclude? {
      SkipKeepsHistory(env.hash, job.spec, d, db);
      RoundDescends(Round(c));
      Decides(Round(c));
      RoundFrom(Round(c), Round(c).worker.(control := Done(Count(d.control.pending, job, Round(c).db))));
      AfterNothing(env.hash, State(Round(c).worker.regs, Round(c).db));
      var last := Round(Round(c));
      assert last.worker.control.Done? && last.db == Round(c).db;
      assert Finish(c) == Finish(Round(c)) == Finish(last) == last;
    }
  }

  /** What a call answers that is turned away at the entry, in the order of the tests. A node skipped in an earlier process answers
      with the warning and the class its row kept; one that has succeeded with its stored output. */
  lemma {:induction false} EntryEnds(job: Job, env: Env, regs: Regs, db: Db)
    requires !Admitted(job, env, regs, db)
    ensures var end, n := Finish(Config(Start(job, env, regs), db)), job.spec.key;
            var verdict, resumed := end.worker.control.verdict, regs.resume && !regs.force;
            if env.cancelled(0) then verdict == Raised(JobCancelled)
            else if !job.enabled then
              if regs.stage.None? then verdict == Raised(StageNotStarted)
              else verdict == Returned(NodeResult(Skipped, None, true, false, None, None, 0))
                   && n in end.db.nodes && end.db.nodes[n].status == Skipped
            else if GateRejects(job, env, regs) then verdict == Raised(ResumeRejected("resume_input_hash_mismatch"))
            else if resumed && n in db.nodes && db.nodes[n].status == Skipped then
              var row := db.nodes[n];
              verdict == Returned(NodeResult(
                Skipped, None, true, false, if row.note.Some? then Some(row.note.value.warning) else row.error,
                if row.note.Some? then Some(row.note.value.failureClass) else None, row.attemptCount))
            else if regs.stage.None? && (regs.force || n !in regs.memory.completed) then verdict == Raised(StageNotStarted)
            else
              && verdict.Returned? && verdict.result.output == LoadOutput(db, n) && verdict.result.skipped
              && !verdict.result.degraded && verdict.result.warning.None? && verdict.result.failureClass.None?
              && (n in db.nodes ==>
                    verdict.result.status == db.nodes[n].status && verdict.result.attemptCount == db.nodes[n].attemptCount)
              && (n !in db.nodes ==> verdict.result.status == Succeeded && verdict.result.attemptCount == 0)
  {
    hide After, Apply, GateRejects, LoadOutput, Finish;
    var c := Config(Start(job, env, regs), db);
    Decides(c);
    var d := DecideEnter(c.worker, db);
    RoundFrom(c, d);
    AfterNothing(env.hash, State(d.regs, db));
    if d.control.Conclude? {
      SkipMarks(env.hash, job.spec, d, db);
      Decides(Round(c));
      RoundFrom(Round(c), Round(c).worker.(control := Done(Count(d.control.pending, job, Round(c).db))));
      AfterNothing(env.hash, State(Round(c).worker.regs, Round(c).db));
      FinishInTwo(c);
    } else {
      FinishInOne(c);
    }
  }

  lemma {:induction false} SkipMarks(hash: Hasher, spec: NodeSpec, d: Worker, db: Db)
    requires d.todo == [OpenNode(spec), MarkSkipped]
             || (d.todo == [MarkSkipped] && d.regs.node == Some(spec.key) && spec.key in db.nodes)
    ensures var t := After(hash, d.todo, State(d.regs, db)).db; spec.key in t.nodes && t.nodes[spec.key].status == Skipped
  {
    if d.todo == [MarkSkipped] {
      AfterOne(hash, MarkSkipped, State(d.regs, db));
    } else {
      assert d.todo == [OpenNode(spec)] + [MarkSkipped];
      AfterAppend(hash, [OpenNode(spec)], [MarkSkipped], State(d.regs, db));
      AfterOne(hash, OpenNode(spec), State(d.regs, db));
      AfterOne(hash, MarkSkipped, Apply(hash, OpenNode(spec), State(d.regs, db)));
    }
  }

  /** Before each invocation the input is stored in the form the context mode asks for, under the node's key and the mode's name,
      and for a node of the model as its prompt too; the memory learns its digest. */
  lemma {:induction false} InputIsStored(c: Config)
    requires c.worker.control.Bind? && c.worker.todo == [] && c.worker.job.payload.Some?
    requires NodeOpen(State(c.worker.regs, c.db))
    ensures var w, a := c.worker, State(c.worker.regs, c.db);
            var key := w.job.spec.key + (match w.mode case Full => ".full" case Compressed => ".compressed" case Minimal => ".minimal");
            var input := Document(CompressPayload(w.job.payload.value, w.mode));
            var digest := w.env.hash(input);
            && Round(c).db.artifacts
               == c.db.artifacts + [ArtifactRow(Input, key + ".input", input, digest, a.regs.node, a.regs.attempt)]
                  + (if w.job.spec.llm
                     then [ArtifactRow(RenderedPrompt, w.job.spec.key + ".prompt." + Decimal(AttemptNo(a)), input, digest,
                                       a.regs.node, a.regs.attempt)]
                     else [])
            && key in Round(c).worker.regs.memory.inputHashes && Round(c).worker.regs.memory.inputHashes[key] == digest
            && Round(c).worker.control.Call? && Round(c).worker.mode == w.mode && Round(c).worker.calls == w.calls + 1
  {
    hide After, CompressPayload, Decimal;
    var w, a := c.worker, State(c.worker.regs, c.db);
    Decides(c);
    RoundFrom(c, DecideBind(w, c.db));
    var payload, key := CompressPayload(w.job.payload.value, w.mode), InputKey(w.job.spec.key, w.mode);
    assert key == w.job.spec.key
                  + (match w.mode case Full => ".full" case Compressed => ".compressed" case Minimal => ".minimal");
    var bound := Bound(a, key, w.env.hash(Document(payload)));
    StoresInput(w.env.hash, w.job, key, payload, AttemptNo(a), bound);
  }

  lemma {:induction false} StoresInput(hash: Hasher, job: Job, key: string, payload: Json, no: nat, s: State)
    requires NodeOpen(s)
    ensures var t, input := After(hash, BindProgram(hash, key, payload) + PromptProgram(job, no, payload), s), Document(payload);
            t.regs.memory == s.regs.memory
            && t.db.artifacts
               == s.db.artifacts + [ArtifactRow(Input, key + ".input", input, hash(input), s.regs.node, s.regs.attempt)]
                  + (if job.spec.llm
                     then [ArtifactRow(RenderedPrompt, job.spec.key + ".prompt." + Decimal(no), input, hash(input),
                                       s.regs.node, s.regs.attempt)]
                     else [])
  {
    hide After, Apply, Decimal;
    var bind := BindStage(hash(Document(payload)));
    AfterAppend(hash, BindProgram(hash, key, payload), PromptProgram(job, no, payload), s);
    AfterAppend(hash, [bind], InputProgram(key, payload), s);
    AfterOne(hash, bind, s);
    BindingStores(hash, bind, s);
    var s1 := Apply(hash, bind, s);
    AfterLinking(hash, key, payload, s1);
    var s2 := After(hash, InputProgram(key, payload), s1);
    if job.spec.llm {
      AfterAdding(hash, RenderedPrompt, job.spec.key + ".prompt." + Decimal(no), Document(payload), s2);
    } else {
      AfterNothing(hash, s2);
    }
  }

  lemma {:induction false} BindingStores(hash: Hasher, bind: Commit, s: State)
    requires bind.BindStage?
    ensures var t := Apply(hash, bind, s); t.regs == s.regs && t.db == s.db.(stages := t.db.stages)
  {
  }

  /** After an invocation that returned, the artifacts written are its output, if there is one, first for the attempt and then for the
      node: the attempt's under the kind the caller asked for, or as structured data of the attempt. Both rows hold its digest or
      place; the memory lists the node and its digest. */
  predicate OutputStored(job: Job, hash: Hasher, output: Option<Json>, a: State, b: State)
    requires AttemptOpen(a)
  {
    var at, n := a.regs.attempt.value, job.spec.key;
    var no := Decimal(a.db.attempts[at].no);
    && n in a.db.nodes && n in b.db.nodes && b.db.nodes[n].status == Succeeded && n in b.regs.memory.completed
    && at < |b.db.attempts| && b.db.attempts[at].status == AttemptCompleted
    && match output
       case None => b.db.artifacts == a.db.artifacts && b.db.nodes[n].output == a.db.nodes[n].output
       case Some(json) =>
         var value, digest := Document(json), hash(Document(json));
         && b.db.artifacts
            == a.db.artifacts
               + [if job.outputKind.Some?
                  then ArtifactRow(job.outputKind.value, n + ".output." + no, value, digest, Some(n), Some(at))
                  else ArtifactRow(Structured, "attempt." + no + ".output", value, digest, Some(n), Some(at))]
               + [ArtifactRow(Structured, n + ".output", value, digest, Some(n), None)]
         && b.db.attempts[at].outputHash == Some(digest) && b.db.nodes[n].output == Some(|a.db.artifacts| + 1)
         && n in b.regs.memory.outputHashes && b.regs.memory.outputHashes[n] == digest
  }

  lemma {:induction false} OutputIsStored(c: Config)
    requires c.worker.control.Settle? && c.worker.control.outcome.Returns? && c.worker.todo == []
    requires NodeOpen(State(c.worker.regs, c.db)) && AttemptOpen(State(c.worker.regs, c.db))
    requires c.worker.regs.node == Some(c.worker.job.spec.key)
    ensures var w, end := c.worker, Round(c);
            OutputStored(w.job, w.env.hash, w.control.outcome.output, State(w.regs, c.db), State(end.worker.regs, end.db))
  {
    hide After, Apply, Decimal, OutputStored, ReturnProgram;
    Decides(c);
    RoundFrom(c, DecideSettle(c.worker, c.db));
    OutputStores(c.worker.env.hash, c.worker.job, c.worker.control.outcome.output, State(c.worker.regs, c.db));
  }

  lemma {:induction false} OutputStores(hash: Hasher, job: Job, output: Option<Json>, s: State)
    requires NodeOpen(s) && AttemptOpen(s) && s.regs.node == Some(job.spec.key)
    ensures OutputStored(job, hash, output, s, After(hash, ReturnProgram(job, AttemptNo(s), output), s))
  {
    hide After, Apply, Decimal, AttemptReturnProgram, FinishNodeProgram;
    var first := AttemptReturnProgram(job, AttemptNo(s), output);
    AfterAppend(hash, first, FinishNodeProgram(job.spec.key, output), s);
    AttemptStores(hash, job, output, s);
    AfterNodeFinishing(hash, output, After(hash, first, s));
  }

  lemma {:induction false} AttemptStores(hash: Hasher, job: Job, output: Option<Json>, s: State)
    requires NodeOpen(s) && AttemptOpen(s)
    ensures var at := s.regs.attempt.value;
            var no := s.db.attempts[at].no;
            var t := After(hash, AttemptReturnProgram(job, no, output), s);
            && t.db.nodes == s.db.nodes && t.regs.node == s.regs.node && t.regs.attempt.None? && t.regs.memory == s.regs.memory
            && |t.db.attempts| == |s.db.attempts| && t.db.attempts[at].status == AttemptCompleted
            && match output
               case None => t.db.artifacts == s.db.artifacts
               case Some(json) =>
                 var value, digest := Document(json), hash(Document(json));
                 && t.db.artifacts
                    == s.db.artifacts
                       + [if job.outputKind.Some?
                          then ArtifactRow(job.outputKind.value, job.spec.key + ".output." + Decimal(no), value, digest,
                                           s.regs.node, s.regs.attempt)
                          else ArtifactRow(Structured, "attempt." + Decimal(no) + ".output", value, digest,
                                           s.regs.node, s.regs.attempt)]
                 && t.db.attempts[at].outputHash == Some(digest)
  {
    hide After, Apply, Decimal;
    var no := s.db.attempts[s.regs.attempt.value].no;
    if job.outputKind.Some? && output.Some? {
      var key := job.spec.key + ".output." + Decimal(no);
      AfterAppend(hash, ArtifactProgram(job.outputKind.value, key, Document(output.value)), [CloseAttempt(true)], s);
      AfterAdding(hash, job.outputKind.value, key, Document(output.value), s);
      var s1 := After(hash, ArtifactProgram(job.outputKind.value, key, Document(output.value)), s);
      AfterAttemptFinishing(hash, None, true, s1);
    } else {
      AfterAttemptFinishing(hash, output, false, s);
    }
  }

  /** The recorder answers the call itself, by reusing a succeeded node that its memory does not list. */
  predicate ReusesNode(job: Job, env: Env, regs: Regs, db: Db) {
    && job.enabled && !env.cancelled(0) && !GateRejects(job, env, regs) && regs.stage.Some?
    && job.spec.key !in regs.memory.completed && NodeReusable(State(regs, db), job.spec.key)
  }

  /** Which node is open when a call has ended: none, except that a call which never opens its node leaves the one that was open,
      and one that the recorder answers itself leaves its own. */
  lemma {:induction false} NodeOpenAtEnd(job: Job, env: Env, regs: Regs, db: Db)
    ensures Finish(Config(Start(job, env, regs), db)).worker.regs.node
            == if ReusesNode(job, env, regs, db) then Some(job.spec.key)
               else if Admitted(job, env, regs, db) || (!job.enabled && !env.cancelled(0) && regs.stage.Some?) then None
               else regs.node
  {
    hide After, Apply, Finish, Decided, Retried, SameButCount, StatusFor, LoadOutput;
    var c := Config(Start(job, env, regs), db);
    if Admitted(job, env, regs, db) {
      RetryDiscipline(job, env, regs, db);
    } else {
      Decides(c);
      var d := DecideEnter(c.worker, db);
      RoundFrom(c, d);
      AfterNothing(env.hash, State(d.regs, db));
      if d.control.Conclude? {
        SkipClosesNode(env.hash, job.spec, d, db);
        Decides(Round(c));
        RoundFrom(Round(c), Round(c).worker.(control := Done(Count(d.control.pending, job, Round(c).db))));
        AfterNothing(env.hash, State(Round(c).worker.regs, Round(c).db));
        FinishInTwo(c);
      } else {
        FinishInOne(c);
      }
    }
  }

  lemma {:induction false} FinishInOne(c: Config)
    requires Paced(c.worker) && !c.worker.control.Done? && Round(c).worker.control.Done?
    ensures Finish(c) == Round(c)
  {
    hide Round;
    RoundDescends(c);
  }

  lemma {:induction false} FinishInTwo(c: Config)
    requires Paced(c.worker) && !c.worker.control.Done? && !Round(c).worker.control.Done? && Round(Round(c)).worker.control.Done?
    ensures Finish(c) == Round(Round(c))
  {
    hide Round;
    RoundDescends(c);
    FinishInOne(Round(c));
  }

  lemma {:induction false} SkipClosesNode(hash: Hasher, spec: NodeSpec, d: Worker, db: Db)
    requires d.todo == [MarkSkipped] || d.todo == [OpenNode(spec), MarkSkipped]
    ensures After(hash, d.todo, State(d.regs, db)).regs.node.None?
  {
    if d.todo == [MarkSkipped] {
      AfterOne(hash, MarkSkipped, State(d.regs, db));
    } else {
      assert d.todo == [OpenNode(spec)] + [MarkSkipped];
      AfterAppend(hash, [OpenNode(spec)], [MarkSkipped], State(d.regs, db));
      AfterOne(hash, OpenNode(spec), State(d.regs, db));
      AfterOne(hash, MarkSkipped, Apply(hash, OpenNode(spec), State(d.regs, db)));
    }
  }

  lemma {:induction false} SkipKeepsHistory(hash: Hasher, spec: NodeSpec, d: Worker, db: Db)
    requires d.todo == [MarkSkipped] || d.todo == [OpenNode(spec), MarkSkipped]
    ensures var t := After(hash, d.todo, State(d.regs, db));
            t.db.attempts == db.attempts && t.db.artifacts == db.artifacts
  {
    if d.todo == [MarkSkipped] {
      AfterOne(hash, MarkSkipped, State(d.regs, db));
    } else {
      assert d.todo == [OpenNode(spec)] + [MarkSkipped];
      AfterAppend(hash, [OpenNode(spec)], [MarkSkipped], State(d.regs, db));
      AfterOne(hash, OpenNode(spec), State(d.regs, db));
      AfterOne(hash, MarkSkipped, Apply(hash, OpenNode(spec), State(d.regs, db)));
    }
  }

  // ----- context modes, move by move -----

  /** At every control point, the mode is the one that the invocations so far lead to, and all of them earned a retry. */
  predicate InMode(w: Worker) {
    match w.control
    case Enter => w.calls == 0 && w.mode == Full
    case Head => w.mode == ModeAt(w.env, w.calls + 1) && RetriedUpTo(w.env, w.calls + 1)
    case Bind => w.mode == ModeAt(w.env, w.calls + 1) && RetriedUpTo(w.env, w.calls + 1)
    case Call => w.calls >= 1 && w.mode == ModeAt(w.env, w.calls) && RetriedUpTo(w.env, w.calls)
    case Settle(outcome) =>
      w.calls >= 1 && w.mode == ModeAt(w.env, w.calls) && RetriedUpTo(w.env, w.calls) && outcome == w.env.invoke(w.calls, w.mode)
    case _ => true
  }

  lemma {:induction false} MoveKeepsMode(c: Config)
    requires InMode(c.worker)
    ensures InMode(Move(c).worker) && Move(c).worker.env == c.worker.env && c.worker.calls <= Move(c).worker.calls
  {
    hide Apply, Move, ReturnProgram, BindProgram, PromptProgram, LoadOutput, ModeAt, RetriedUpTo, NodeReusable, GateRejects,
      DecideSettle;
    if c.worker.todo != [] {
      MoveTodo(c);
    } else {
      Decides(c);
      if c.worker.control.Settle? {
        SettleKeepsMode(c.worker, c.db);
      } else if c.worker.control.Enter? {
        FirstMode(c.worker.env);
      }
    }
  }

  lemma {:induction false} FirstMode(env: Env)
    ensures ModeAt(env, 1) == Full && RetriedUpTo(env, 1)
  {
  }

  lemma {:induction false} SettleKeepsMode(w: Worker, db: Db)
    requires InMode(w) && w.control.Settle?
    ensures var next := DecideSettle(w, db); InMode(next) && next.env == w.env && next.calls == w.calls
  {
    hide FailAttemptProgram, EndProgram, ReturnProgram, TerminalVerdict, DecideSettle;
    if w.control.outcome.Raises? {
      SettleRaise(w, db);
      var exc := w.control.outcome.exc;
      if !exc.JobCancelled? && Retry(w.job, w.env, exc, w.calls, w.mode).0 {
        assert Retried(w.env, w.calls);
      }
    } else {
      SettleReturn(w, db);
    }
  }

  lemma {:induction false} SettleReturn(w: Worker, db: Db)
    requires w.control.Settle? && w.control.outcome.Returns?
    ensures var next := DecideSettle(w, db); next.control.Conclude? && next.env == w.env && next.calls == w.calls
  {
    hide ReturnProgram;
  }

  lemma {:induction false} RunKeepsMode(c: Config, k: nat)
    requires InMode(c.worker)
    ensures InMode(Run(c, k).worker) && Run(c, k).worker.env == c.worker.env && c.worker.calls <= Run(c, k).worker.calls
    decreases k
  {
    hide Move, InMode;
    if k > 0 {
      MoveKeepsMode(c);
      RunKeepsMode(Move(c), k - 1);
    }
  }

  /** Whenever the machine is about to call the function, it does so in the mode that the invocations before it lead to. */
  lemma {:induction false} CallsUseTheirMode(job: Job, env: Env, regs: Regs, db: Db, k: nat)
    ensures var w := Run(Config(Start(job, env, regs), db), k).worker;
            w.control.Call? ==> w.calls >= 1 && w.mode == ModeAt(env, w.calls) && forall i :: 1 <= i < w.calls ==> Retried(env, i)
  {
    hide Run, Move, ModeAt, Retried;
    RunKeepsMode(Config(Start(job, env, regs), db), k);
  }

  /** Over the invocations one call makes, the context mode starts full and never goes back; from one invocation to the next it
      moves on by one step exactly when the former overflowed, which the minimal mode never survives. */
  lemma {:induction false} ModesOnlyMoveForward(job: Job, env: Env, regs: Regs, db: Db, i: nat, j: nat)
    requires i <= j
    ensures var c := Config(Start(job, env, regs), db);
            var a, b := Run(c, i).worker, Run(c, j).worker;
            a.control.Call? && b.control.Call? ==>
              && a.calls <= b.calls && ModeRank(a.mode) <= ModeRank(b.mode)
              && (a.calls == 1 ==> a.mode == Full)
              && (b.calls == a.calls + 1 ==>
                    var outcome := env.invoke(a.calls, a.mode);
                    if outcome.Raises? && Classify(outcome.exc) == ContextOverflow then
                      (a.mode == Full && b.mode == Compressed) || (a.mode == Compressed && b.mode == Minimal)
                    else b.mode == a.mode)
  {
    hide Run, Move, RetriedUpTo, ModeAt, Retried, ModeRank, Classify;
    var c := Config(Start(job, env, regs), db);
    var a, b := Run(c, i).worker, Run(c, j).worker;
    RunKeepsMode(c, i);
    RunSplit(c, i, j - i);
    RunKeepsMode(Run(c, i), j - i);
    if a.control.Call? && b.control.Call? {
      CallsUseTheirMode(job, env, regs, db, j);
      assert a.calls == 1 ==> a.mode == Full by { FirstMode(env); }
      ModesGrow(env, a.calls, b.calls);
      if b.calls == a.calls + 1 {
        ModeAdvances(env, a.calls);
      }
    }
  }

  lemma {:induction false} ModeAdvances(env: Env, i: nat)
    requires i >= 1 && Retried(env, i)
    ensures var outcome := env.invoke(i, ModeAt(env, i));
            if outcome.Raises? && Classify(outcome.exc) == ContextOverflow then
              (ModeAt(env, i) == Full && ModeAt(env, i + 1) == Compressed)
              || (ModeAt(env, i) == Compressed && ModeAt(env, i + 1) == Minimal)
            else ModeAt(env, i + 1) == ModeAt(env, i)
  {
  }

  lemma {:induction false} ModesGrow(env: Env, i: nat, j: nat)
    requires i <= j
    ensures ModeRank(ModeAt(env, i)) <= ModeRank(ModeAt(env, j))
    decreases j - i
  {
    if i < j {
      ModesGrow(env, i, j - 1);
    }
  }
}
