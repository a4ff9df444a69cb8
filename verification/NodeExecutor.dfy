/** `NodeExecutor.execute` over the recorder, proved to follow the machine of module Execution move by move. */
module NodeExecutor {
  import opened Json
  import opened Workflow
  import opened Context
  import opened Store
  import opened Execution
  import opened Recorder

  /** Moves add up, and what was visited stays visited. */
  lemma {:induction false} Segment(c0: Config, k: nat, w: Worker, program: Program, s: State)
    requires Run(c0, k) == Config(w, s.db) && w.todo == program && w.regs == s.regs
    ensures var end := After(w.env.hash, program, s);
            Run(c0, k + |program|) == Config(w.(todo := [], regs := end.regs), end.db)
    ensures forall d :: d in Commits(w.env.hash, program, s) ==> Visited(c0, k + |program|, d)
    ensures forall d :: Visited(c0, k, d) ==> Visited(c0, k + |program|, d)
  {
    var c := Run(c0, k);
    RunTodo(c, program, s);
    RunSplit(c0, k, |program|);
    var log := Commits(w.env.hash, program, s);
    forall d | d in log
      ensures Visited(c0, k + |program|, d)
    {
      var i :| 0 <= i < |log| && log[i] == d;
      RunSplit(c0, k, i + 1);
      assert Run(c0, k + i + 1).db == d;
    }
  }

  /** After a recorder call that made `program` durable, the machine is where the recorder is. */
  lemma {:induction false} Follow(
      c0: Config, k: nat, w: Worker, from: nat, program: Program, s: State, before: seq<Db>, log: seq<Db>)
    requires Run(c0, k) == Config(w, s.db) && w.todo == program && w.regs == s.regs
    requires from <= |before| && before <= log
    requires forall d :: d in before[from..] ==> Visited(c0, k, d)
    requires forall d :: d in log[|before|..] ==> d in Commits(w.env.hash, program, s)
    ensures var end := After(w.env.hash, program, s);
            Run(c0, k + |program|) == Config(w.(todo := [], regs := end.regs), end.db)
    ensures forall d :: d in log[from..] ==> Visited(c0, k + |program|, d)
  {
    Segment(c0, k, w, program, s);
    assert log[from..] == before[from..] + log[|before|..];
  }

  lemma {:induction false} Decision(c0: Config, k: nat, w: Worker, db: Db)
    requires Run(c0, k) == Config(w, db) && w.todo == []
    ensures Run(c0, k + 1) == Config(
              match w.control
              case Enter => DecideEnter(w, db)
              case Head => DecideHead(w)
              case Bind => DecideBind(w, db)
              case Call => DecideCall(w)
              case Settle(_) => DecideSettle(w, db)
              case Conclude(v) => w.(control := Done(Count(v, w.job, db)))
              case Done(_) => w, db)
    ensures forall d :: Visited(c0, k, d) ==> Visited(c0, k + 1, d)
  {
    RunSplit(c0, k, 1);
    Decides(Config(w, db));
  }

  /** What the executor chooses is the machine's retry decision. */
  lemma {:induction false} RetryIsChosen(
      job: Job, env: Env, exc: Exc, calls: nat, mode: ContextMode, again: bool, next: ContextMode)
    requires again <==> job.spec.retryable && !exc.JobCancelled? && Classify(exc) != NonRetryable
                        && calls < MaxAttemptsFor(job.spec, env.fallback)
                        && (Classify(exc) == ContextOverflow ==> mode != Minimal)
    requires (next != mode <==> again && Classify(exc) == ContextOverflow)
             && (next != mode ==> ModeRank(next) == ModeRank(mode) + 1)
    ensures (again, next) == if exc.JobCancelled? then (false, mode) else Retry(job, env, exc, calls, mode)
  {
  }

  lemma {:induction false} FailureIsDecided(w: Worker, db: Db, exc: Exc, again: bool, next: ContextMode)
    requires w.control.Settle? && w.control.outcome.Raises? && w.control.outcome.exc == exc
    requires (again, next) == if exc.JobCancelled? then (false, w.mode) else Retry(w.job, w.env, exc, w.calls, w.mode)
    ensures DecideSettle(w, db) == w.(
              todo := FailAttemptProgram(exc, if exc.JobCancelled? then None else Some(Classify(exc)), again, again, exc.JobCancelled?)
                      + (if again then [] else EndProgram(w.job, exc)),
              mode := next,
              control := if again then Head
                         else Conclude(if exc.JobCancelled? then Raised(exc) else TerminalVerdict(w.job, exc)))
  {
    hide DecideSettle, Retry, FailAttemptProgram, EndProgram, TerminalVerdict, Classify;
    SettleRaise(w, db);
  }

  /** One move after a raised outcome, as the executor's choice has it. */
  lemma {:induction false} SettleMoves(
      c0: Config, k: nat, w: Worker, db: Db, exc: Exc, again: bool, next: ContextMode) returns (settled: Worker)
    requires Run(c0, k) == Config(w, db) && w.todo == []
    requires w.control.Settle? && w.control.outcome.Raises? && w.control.outcome.exc == exc
    requires again <==> w.job.spec.retryable && !exc.JobCancelled? && Classify(exc) != NonRetryable
                        && w.calls < MaxAttemptsFor(w.job.spec, w.env.fallback)
                        && (Classify(exc) == ContextOverflow ==> w.mode != Minimal)
    requires (next != w.mode <==> again && Classify(exc) == ContextOverflow)
             && (next != w.mode ==> ModeRank(next) == ModeRank(w.mode) + 1)
    ensures settled == w.(
              todo := FailAttemptProgram(exc, if exc.JobCancelled? then None else Some(Classify(exc)), again, again, exc.JobCancelled?)
                      + (if again then [] else EndProgram(w.job, exc)),
              mode := next,
              control := if again then Head
                         else Conclude(if exc.JobCancelled? then Raised(exc) else TerminalVerdict(w.job, exc)))
    ensures Run(c0, k + 1) == Config(settled, db) && forall d :: Visited(c0, k, d) ==> Visited(c0, k + 1, d)
  {
    hide Run, DecideSettle, Retry, FailAttemptProgram, EndProgram, TerminalVerdict, Visited, Classify, MaxAttemptsFor, ModeRank;
    RetryIsChosen(w.job, w.env, exc, w.calls, w.mode, again, next);
    FailureIsDecided(w, db, exc, again, next);
    Decision(c0, k, w, db);
    settled := DecideSettle(w, db);
  }

  class NodeRunner {
    const recorder: AuditRecorder

    constructor (recorder: AuditRecorder)
      ensures this.recorder == recorder
    {
      this.recorder := recorder;
    }

    /** The recorder is where the machine is after `k` moves, and every commit since `from` was on the machine's way. */
    ghost predicate Tracks(c0: Config, k: nat, w: Worker, from: nat)
      reads recorder, recorder.database
    {
      && Run(c0, k) == Config(w, recorder.database.content)
      && w.regs == recorder.View().regs
      && w.env.hash == recorder.hash && w.env.planned == recorder.planned
      && from <= |recorder.database.log|
      && forall d :: d in recorder.database.log[from..] ==> Visited(c0, k, d)
    }

    ghost predicate Ready(n: string)
      reads recorder, recorder.database
    {
      recorder.nodeId == Some(n) && n in recorder.database.content.nodes && !recorder.nodeSkipped
    }

    method Execute(job: Job, env: Env) returns (v: Verdict, ghost k: nat)
      requires env.hash == recorder.hash && env.planned == recorder.planned
      modifies recorder, recorder.database
      ensures var c := Run(Config(Start(job, env, old(recorder.View().regs)), old(recorder.database.content)), k);
              c.worker.control == Done(v) && c.worker.regs == recorder.View().regs && c.db == recorder.database.content
      ensures |old(recorder.database.log)| <= |recorder.database.log|
      ensures forall d :: d in recorder.database.log[|old(recorder.database.log)|..] ==>
                Visited(Config(Start(job, env, old(recorder.View().regs)), old(recorder.database.content)), k, d)
    {
      hide Apply, After, Commits, Move;
      ghost var c0 := Config(Start(job, env, recorder.View().regs), recorder.database.content);
      ghost var from := |recorder.database.log|;
      ghost var w := c0.worker;
      k := 0;
      assert Tracks(c0, 0, w, from);
      var early;
      early, k, w := Admit(job, env, c0, from);
      if early.Some? {
        return early.value, k;
      }
      v, k, w := Loop(job, env, c0, k, w, from);
    }

    method Loop(job: Job, env: Env, ghost c0: Config, ghost k0: nat, ghost w0: Worker, ghost from: nat)
        returns (v: Verdict, ghost k: nat, ghost w: Worker)
      requires Tracks(c0, k0, w0, from) && job.enabled && Ready(job.spec.key)
      requires w0 == Worker(job, env, Head, [], recorder.View().regs, Full, 0, 1)
      modifies recorder, recorder.database
      ensures Tracks(c0, k, w, from) && w.control == Done(v)
    {
      hide Run, Apply, After, Commits, DecideHead, DecideBind, DecideSettle;
      k, w := k0, w0;
      var contextMode := Full;
      var executionAttempts := 0;
      var polls := 1;
      while true
        invariant Tracks(c0, k, w, from) && Ready(job.spec.key)
        invariant w == Worker(job, env, Head, [], recorder.View().regs, contextMode, executionAttempts, polls)
        invariant job.enabled && executionAttempts < MaxAttemptsFor(job.spec, env.fallback)
        decreases MaxAttemptsFor(job.spec, env.fallback) - executionAttempts
      {
        if env.cancelled(polls) {
          k, w := Stop(job, JobCancelled, [FailNode(Cancelled, JobCancelled, None)], Raised(JobCancelled), c0, k, w, from);
          return Raised(JobCancelled), k, w;
        }
        polls := polls + 1;
        k, w := OpenOne(job, env, contextMode, c0, k, w, from);
        executionAttempts := executionAttempts + 1;
        var outcome := env.invoke(executionAttempts, contextMode);
        k, w := CallOne(job, env, outcome, c0, k, w, from);
        if outcome.Returns? {
          v, k, w := Succeed(job, outcome.output, c0, k, w, from);
          return v, k, w;
        }
        var again;
        again, contextMode, v, k, w := Fail(job, env, outcome.exc, contextMode, executionAttempts, c0, k, w, from);
        if !again {
          return v, k, w;
        }
      }
    }

    /** Everything before the loop: cancel, disabled node, resume gate, and the three ways to reuse earlier work. */
    method Admit(job: Job, env: Env, ghost c0: Config, ghost from: nat)
        returns (early: Option<Verdict>, ghost k: nat, ghost w: Worker)
      requires c0.worker == Start(job, env, recorder.View().regs)
      requires Tracks(c0, 0, c0.worker, from)
      modifies recorder, recorder.database
      ensures Tracks(c0, k, w, from)
      ensures early.Some? ==> w.control == Done(early.value)
      ensures early.None? ==> job.enabled && Ready(job.spec.key) && w == Worker(job, env, Head, [], recorder.View().regs, Full, 0, 1)
    {
      hide Apply, After, Commits;
      var n := job.spec.key;
      Decision(c0, 0, c0.worker, recorder.database.content);
      k, w := 1, DecideEnter(c0.worker, recorder.database.content);
      if env.cancelled(0) {
        early := Some(Raised(JobCancelled));
        return;
      }
      if !job.enabled {
        early, k, w := SkipDisabled(job, env, c0, from);
        return;
      }
      if recorder.resumeMode && job.payload.Some? && recorder.planned {
        var stored := recorder.inputHashes;
        if n + ".full" in stored && stored[n + ".full"] != "" && stored[n + ".full"] != recorder.hash(Document(job.payload.value)) {
          early := Some(Raised(ResumeRejected("resume_input_hash_mismatch")));
          return;
        }
      }
      var db := recorder.database.content;
      if recorder.resumeMode && !recorder.forceRestart && n in db.nodes && db.nodes[n].status == Skipped {
        early := Some(Returned(SkippedBefore(db.nodes[n])));
        return;
      }
      if !recorder.forceRestart && n in recorder.completedNodes {
        var output := recorder.LoadNodeOutput(n);
        early := Some(Returned(NodeResult(if n in db.nodes then db.nodes[n].status else Succeeded, output, true, false,
                                          None, None, Attempts(db, n))));
        return;
      }
      early, k, w := EnterNode(job, env, c0, from);
    }

    method SkipDisabled(job: Job, env: Env, ghost c0: Config, ghost from: nat)
        returns (early: Option<Verdict>, ghost k: nat, ghost w: Worker)
      requires c0.worker == Start(job, env, recorder.View().regs) && !env.cancelled(0) && !job.enabled
      requires Tracks(c0, 0, c0.worker, from)
      modifies recorder, recorder.database
      ensures early.Some? && Tracks(c0, k, w, from) && w.control == Done(early.value)
    {
      hide Run, Apply, After, Commits;
      Decision(c0, 0, c0.worker, recorder.database.content);
      k, w := 1, DecideEnter(c0.worker, recorder.database.content);
      ghost var s := State(w.regs, recorder.database.content);
      ghost var before := recorder.database.log;
      var ok := recorder.SkipNode(job.spec);
      if !ok {
        early := Some(Raised(StageNotStarted));
        return;
      }
      assert recorder.database.log[|before|..] == Commits(recorder.hash, w.todo, s);
      Follow(c0, k, w, from, w.todo, s, before, recorder.database.log);
      k, w := k + |w.todo|, w.(todo := [], regs := recorder.View().regs);
      Decision(c0, k, w, recorder.database.content);
      k, w := k + 1, w.(control := Done(Count(w.control.pending, job, recorder.database.content)));
      early := Some(Returned(NodeResult(Skipped, None, true, false, None, None, 0)));
    }

    method EnterNode(job: Job, env: Env, ghost c0: Config, ghost from: nat)
        returns (early: Option<Verdict>, ghost k: nat, ghost w: Worker)
      requires c0.worker == Start(job, env, recorder.View().regs) && !env.cancelled(0) && job.enabled
      requires !GateRejects(job, env, c0.worker.regs) && (c0.worker.regs.force || job.spec.key !in c0.worker.regs.memory.completed)
      requires !(c0.worker.regs.resume && !c0.worker.regs.force && job.spec.key in recorder.database.content.nodes
                 && recorder.database.content.nodes[job.spec.key].status == Skipped)
      requires Tracks(c0, 0, c0.worker, from)
      modifies recorder, recorder.database
      ensures Tracks(c0, k, w, from)
      ensures early.Some? ==> w.control == Done(early.value)
      ensures early.None? ==> job.enabled && Ready(job.spec.key) && w == Worker(job, env, Head, [], recorder.View().regs, Full, 0, 1)
    {
      hide Run, Apply, After, Commits;
      Decision(c0, 0, c0.worker, recorder.database.content);
      k, w := 1, DecideEnter(c0.worker, recorder.database.content);
      ghost var s := State(w.regs, recorder.database.content);
      ghost var before := recorder.database.log;
      var ok := recorder.StartNode(job.spec);
      if !ok {
        early := Some(Raised(StageNotStarted));
        return;
      }
      if recorder.nodeSkipped {
        var output := recorder.LoadNodeOutput(job.spec.key);
        var row := recorder.database.content.nodes[job.spec.key];
        early := Some(Returned(NodeResult(row.status, output, true, false, None, None, row.attemptCount)));
        return;
      }
      early := None;
      assert recorder.database.log[|before|..] == Commits(recorder.hash, w.todo, s);
      Follow(c0, k, w, from, w.todo, s, before, recorder.database.log);
      k, w := k + |w.todo|, w.(todo := [], regs := recorder.View().regs);
    }

    /** Fails the open node and concludes. */
    method Stop(job: Job, exc: Exc, ghost program: Program, ghost pending: Verdict,
                ghost c0: Config, ghost k0: nat, ghost w0: Worker, ghost from: nat)
        returns (ghost k: nat, ghost w: Worker)
      requires Tracks(c0, k0, w0, from) && Ready(job.spec.key)
      requires w0.control == Head && w0.todo == [] && w0.job == job && w0.env.cancelled(w0.polls)
      requires exc == JobCancelled && program == [FailNode(Cancelled, exc, None)] && pending == Raised(exc)
      modifies recorder, recorder.database
      ensures Tracks(c0, k, w, from) && w.control == Done(pending)
    {
      hide Run, Apply, After, Commits;
      Decision(c0, k0, w0, recorder.database.content);
      k, w := k0 + 1, DecideHead(w0);
      ghost var here, before := recorder.View(), recorder.database.log;
      recorder.FailNodeRow(exc, Cancelled, None);
      Follow(c0, k, w, from, program, here, before, recorder.database.log);
      k, w := k + |program|, w.(todo := [], regs := recorder.View().regs);
      Decision(c0, k, w, recorder.database.content);
      k, w := k + 1, w.(control := Done(Count(w.control.pending, job, recorder.database.content)));
    }

    /** Opens an attempt and binds its input. */
    method OpenOne(
        job: Job, env: Env, mode: ContextMode, ghost c0: Config, ghost k0: nat, ghost w0: Worker, ghost from: nat)
        returns (ghost k: nat, ghost w: Worker)
      requires Tracks(c0, k0, w0, from) && Ready(job.spec.key)
      requires w0.control == Head && w0.todo == [] && w0.job == job && w0.env == env && w0.mode == mode && !env.cancelled(w0.polls)
      modifies recorder, recorder.database
      ensures Tracks(c0, k, w, from) && Ready(job.spec.key) && AttemptOpen(recorder.View())
      ensures w == w0.(control := Call, calls := w0.calls + 1, polls := w0.polls + 1, regs := recorder.View().regs)
    {
      hide Run, Apply, After, Commits;
      Decision(c0, k0, w0, recorder.database.content);
      k, w := k0 + 1, DecideHead(w0);
      ghost var here, before := recorder.View(), recorder.database.log;
      var no := recorder.StartAttempt();
      Follow(c0, k, w, from, [OpenAttempt], here, before, recorder.database.log);
      k, w := k + 1, w.(todo := [], regs := recorder.View().regs);
      k, w := BindOne(job, env, mode, c0, k, w, from);
    }

    method BindOne(
        job: Job, env: Env, mode: ContextMode, ghost c0: Config, ghost k0: nat, ghost w0: Worker, ghost from: nat)
        returns (ghost k: nat, ghost w: Worker)
      requires Tracks(c0, k0, w0, from) && Ready(job.spec.key) && AttemptOpen(recorder.View())
      requires w0.control == Bind && w0.todo == [] && w0.job == job && w0.env == env && w0.mode == mode
      modifies recorder, recorder.database
      ensures Tracks(c0, k, w, from) && Ready(job.spec.key) && AttemptOpen(recorder.View())
      ensures w == w0.(control := Call, calls := w0.calls + 1, regs := recorder.View().regs)
    {
      hide Run, Apply, After, Commits;
      Decision(c0, k0, w0, recorder.database.content);
      k, w := k0 + 1, DecideBind(w0, recorder.database.content);
      if job.payload.None? {
        return;
      }
      ghost var here, before := recorder.View(), recorder.database.log;
      var no := recorder.database.content.attempts[recorder.attemptId.value].no;
      var payload := CompressPayload(job.payload.value, mode);
      ghost var s := Bound(recorder.View(), InputKey(job.spec.key, mode), recorder.hash(Document(payload)));
      WriteBinding(job, no, InputKey(job.spec.key, mode), payload);
      Follow(c0, k, w, from, w.todo, s, before, recorder.database.log);
      k, w := k + |w.todo|, w.(todo := [], regs := recorder.View().regs);
    }

    method WriteBinding(job: Job, no: nat, key: string, payload: Json)
      requires Ready(job.spec.key) && AttemptOpen(recorder.View())
      modifies recorder, recorder.database
      ensures Ready(job.spec.key) && AttemptOpen(recorder.View())
      ensures var s := Bound(old(recorder.View()), key, recorder.hash(Document(payload)));
              var program := BindProgram(recorder.hash, key, payload) + PromptProgram(job, no, payload);
              recorder.View() == After(recorder.hash, program, s)
              && old(recorder.database.log) <= recorder.database.log
              && forall d :: d in recorder.database.log[|old(recorder.database.log)|..] ==> d in Commits(recorder.hash, program, s)
    {
      ghost var s := Bound(recorder.View(), key, recorder.hash(Document(payload)));
      BindingIsIdempotent(recorder.hash, key, payload, s);
      AfterAppend(recorder.hash, BindProgram(recorder.hash, key, payload), PromptProgram(job, no, payload), s);
      recorder.BindInputHash(key, payload);
      if job.spec.llm {
        var _ := recorder.RecordArtifact(RenderedPrompt, job.spec.key + ".prompt." + Decimal(no), Document(payload));
      }
    }

    /** Invokes the node function; what it commits through the recorder comes first. */
    method CallOne(
        job: Job, env: Env, outcome: Outcome, ghost c0: Config, ghost k0: nat, ghost w0: Worker, ghost from: nat)
        returns (ghost k: nat, ghost w: Worker)
      requires Tracks(c0, k0, w0, from) && Ready(job.spec.key) && AttemptOpen(recorder.View())
      requires w0.control == Call && w0.todo == [] && w0.env == env && outcome == env.invoke(w0.calls, w0.mode)
      modifies recorder, recorder.database
      ensures Tracks(c0, k, w, from) && Ready(job.spec.key) && AttemptOpen(recorder.View())
      ensures w == w0.(control := Settle(outcome), regs := recorder.View().regs)
    {
      hide Run, Apply, After, Commits;
      Decision(c0, k0, w0, recorder.database.content);
      k, w := k0 + 1, DecideCall(w0);
      EffectsFrame(recorder.hash, outcome.effects, recorder.View());
      ghost var here, before := recorder.View(), recorder.database.log;
      recorder.Perform(outcome.effects);
      Follow(c0, k, w, from, outcome.effects, here, before, recorder.database.log);
      k, w := k + |outcome.effects|, w.(todo := [], regs := recorder.View().regs);
    }

    method Succeed(job: Job, output: Option<Json>, ghost c0: Config, ghost k0: nat, ghost w0: Worker, ghost from: nat)
        returns (v: Verdict, ghost k: nat, ghost w: Worker)
      requires Tracks(c0, k0, w0, from) && Ready(job.spec.key) && AttemptOpen(recorder.View())
      requires w0.control.Settle? && w0.control.outcome.Returns? && w0.control.outcome.output == output
      requires w0.todo == [] && w0.job == job && job.enabled
      modifies recorder, recorder.database
      ensures Tracks(c0, k, w, from) && w.control == Done(v)
    {
      hide Run, Apply, After, Commits, Visited, ReturnProgram, FailAttemptProgram, EndProgram, TerminalVerdict, Retry;
      Decision(c0, k0, w0, recorder.database.content);
      k, w := k0 + 1, DecideSettle(w0, recorder.database.content);
      ghost var here, before := recorder.View(), recorder.database.log;
      WriteReturn(job, output);
      Follow(c0, k, w, from, w.todo, here, before, recorder.database.log);
      k, w := k + |w.todo|, w.(todo := [], regs := recorder.View().regs);
      Decision(c0, k, w, recorder.database.content);
      k, w := k + 1, w.(control := Done(Count(w.control.pending, job, recorder.database.content)));
      v := Returned(NodeResult(Succeeded, output, false, false, None, None, Attempts(recorder.database.content, job.spec.key)));
    }

    method WriteReturn(job: Job, output: Option<Json>)
      requires Ready(job.spec.key) && AttemptOpen(recorder.View())
      modifies recorder, recorder.database
      ensures recorder.Performed(ReturnProgram(job, AttemptNo(old(recorder.View())), output))
    {
      ghost var s := recorder.View();
      WriteAttemptReturn(job, output);
      AfterAppend(recorder.hash, AttemptReturnProgram(job, AttemptNo(s), output), FinishNodeProgram(job.spec.key, output), s);
      recorder.FinishNode(output);
    }

    method WriteAttemptReturn(job: Job, output: Option<Json>)
      requires Ready(job.spec.key) && AttemptOpen(recorder.View())
      modifies recorder, recorder.database
      ensures Ready(job.spec.key)
      ensures recorder.Performed(AttemptReturnProgram(job, AttemptNo(old(recorder.View())), output))
    {
      ghost var s := recorder.View();
      var no := recorder.database.content.attempts[recorder.attemptId.value].no;
      if job.outputKind.Some? && output.Some? {
        var key := job.spec.key + ".output." + Decimal(no);
        var _ := recorder.RecordArtifact(job.outputKind.value, key, Document(output.value));
        AfterAppend(recorder.hash, ArtifactProgram(job.outputKind.value, key, Document(output.value)), [CloseAttempt(true)], s);
        recorder.FinishAttempt(None, true);
      } else {
        recorder.FinishAttempt(output, false);
      }
    }

    /** A failed attempt: another round, or the end of the call. */
    method Fail(job: Job, env: Env, exc: Exc, mode: ContextMode, calls: nat,
                ghost c0: Config, ghost k0: nat, ghost w0: Worker, ghost from: nat)
        returns (again: bool, next: ContextMode, v: Verdict, ghost k: nat, ghost w: Worker)
      requires Tracks(c0, k0, w0, from) && Ready(job.spec.key) && AttemptOpen(recorder.View())
      requires w0.control.Settle? && w0.control.outcome.Raises? && w0.control.outcome.exc == exc
      requires w0.todo == [] && w0.job == job && w0.env == env && w0.mode == mode && w0.calls == calls && job.enabled
      modifies recorder, recorder.database
      ensures Tracks(c0, k, w, from)
      ensures again ==> calls < MaxAttemptsFor(job.spec, env.fallback) && Ready(job.spec.key)
                        && w == w0.(control := Head, mode := next, regs := recorder.View().regs)
      ensures !again ==> w.control == Done(v)
    {
      hide Run, TerminalVerdict, Visited, Count, Classify, Retry, MaxAttemptsFor, DecideEnter, DecideHead, DecideBind, DecideCall,
        DecideSettle;
      again, next, k, w := CloseAttemptAndNode(job, env, exc, mode, calls, c0, k0, w0, from);
      v := Raised(exc);
      if !again {
        Decision(c0, k, w, recorder.database.content);
        k, w := k + 1, w.(control := Done(Count(w.control.pending, job, recorder.database.content)));
        v := Count(if exc.JobCancelled? then Raised(exc) else TerminalVerdict(job, exc), job, recorder.database.content);
      }
    }

    method CloseAttemptAndNode(job: Job, env: Env, exc: Exc, mode: ContextMode, calls: nat,
                               ghost c0: Config, ghost k0: nat, ghost w0: Worker, ghost from: nat)
        returns (again: bool, next: ContextMode, ghost k: nat, ghost w: Worker)
      requires Tracks(c0, k0, w0, from) && Ready(job.spec.key) && AttemptOpen(recorder.View())
      requires w0.control.Settle? && w0.control.outcome.Raises? && w0.control.outcome.exc == exc
      requires w0.todo == [] && w0.job == job && w0.env == env && w0.mode == mode && w0.calls == calls && job.enabled
      modifies recorder, recorder.database
      ensures Tracks(c0, k, w, from)
      ensures again ==> calls < MaxAttemptsFor(job.spec, env.fallback) && Ready(job.spec.key)
      ensures w == w0.(
                mode := next, regs := recorder.View().regs,
                control := if again then Head
                           else Conclude(if exc.JobCancelled? then Raised(exc) else TerminalVerdict(job, exc)))
    {
      hide Run, Apply, After, Commits, DecideSettle, FailAttemptProgram, EndProgram, TerminalVerdict, Retry, Visited, Count, Classify,
        DecideEnter, DecideHead, DecideBind, DecideCall, MaxAttemptsFor, Move, NodeOpen;
      again, next := ChooseRetry(job, env, exc, calls, mode);
      w := SettleMoves(c0, k0, w0, recorder.database.content, exc, again, next);
      k := k0 + 1;
      TrackFailure(job, exc, if exc.JobCancelled? then None else Some(Classify(exc)), again, c0, k, w, from);
      k, w := k + |w.todo|, w.(todo := [], regs := recorder.View().regs);
    }

    method TrackFailure(job: Job, exc: Exc, lastClass: Option<FailureClass>, again: bool,
                        ghost c0: Config, ghost k: nat, ghost w: Worker, ghost from: nat)
      requires Tracks(c0, k, w, from) && Ready(job.spec.key) && AttemptOpen(recorder.View())
      requires lastClass == (if exc.JobCancelled? then None else Some(Classify(exc))) && (again ==> !exc.JobCancelled?)
      requires w.todo == FailAttemptProgram(exc, lastClass, again, again, exc.JobCancelled?)
                         + if again then [] else EndProgram(job, exc)
      modifies recorder, recorder.database
      ensures again ==> Ready(job.spec.key)
      ensures Tracks(c0, k + |w.todo|, w.(todo := [], regs := recorder.View().regs), from)
    {
      hide Run, Apply, After, Commits, FailAttemptProgram, EndProgram, Visited, Classify;
      ghost var here, before := recorder.View(), recorder.database.log;
      WriteFailure(job, exc, lastClass, again);
      Follow(c0, k, w, from, w.todo, here, before, recorder.database.log);
    }

    /** A failure earns another attempt exactly when the node may be retried, the failure is neither a cancellation nor final,
        the budget is not used up and, for an overflow, a smaller context is left; only then the context shrinks. */
    static method ChooseRetry(
        job: Job, env: Env, exc: Exc, calls: nat, mode: ContextMode) returns (again: bool, next: ContextMode)
      ensures again <==> job.spec.retryable && !exc.JobCancelled? && Classify(exc) != NonRetryable
                         && calls < MaxAttemptsFor(job.spec, env.fallback)
                         && (Classify(exc) == ContextOverflow ==> mode != Minimal)
      ensures next != mode <==> again && Classify(exc) == ContextOverflow
      ensures next != mode ==> ModeRank(next) == ModeRank(mode) + 1
    {
      again, next := false, mode;
      if !exc.JobCancelled? {
        again := ShouldRetry(job.spec, Classify(exc), calls, env.fallback) && calls < MaxAttemptsFor(job.spec, env.fallback);
        if again && Classify(exc) == ContextOverflow {
          var nxt := NextContextMode(mode);
          if nxt.None? {
            again := false;
          } else {
            next := nxt.value;
          }
        }
      }
    }

    method WriteFailure(job: Job, exc: Exc, lastClass: Option<FailureClass>, again: bool)
      requires Ready(job.spec.key) && AttemptOpen(recorder.View())
      requires lastClass == (if exc.JobCancelled? then None else Some(Classify(exc))) && (again ==> !exc.JobCancelled?)
      modifies recorder, recorder.database
      ensures again ==> Ready(job.spec.key)
      ensures recorder.Performed(FailAttemptProgram(exc, lastClass, again, again, exc.JobCancelled?)
                                 + if again then [] else EndProgram(job, exc))
    {
      ghost var s := recorder.View();
      recorder.FailAttemptRow(exc, lastClass, again, again, exc.JobCancelled?);
      ghost var failing := FailAttemptProgram(exc, lastClass, again, again, exc.JobCancelled?);
      if again {
        assert failing + [] == failing;
      } else {
        AfterAppend(recorder.hash, failing, EndProgram(job, exc), s);
        if exc.JobCancelled? {
          recorder.FailNodeRow(exc, Cancelled, None);
        } else if exc.ResumeRejected? {
          recorder.FailNodeRow(exc, Failed, None);
        } else if job.spec.criticality == Optional {
          recorder.FailNodeRow(exc, Skipped, lastClass);
        } else {
          recorder.FailNodeRow(exc, Failed, None);
        }
      }
    }
  }
}
