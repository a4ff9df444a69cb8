/** One worker of a run: whatever it decides or commits next, it stays in order and touches its own node's row only. */
module Workers {
  import opened Json
  import opened Workflow
  import opened Context
  import opened Store
  import opened Execution
  import opened Process
  import opened Stances

  ghost predicate JobOk(w: Setup, i: nat, worker: Worker)
    requires i < |w.nodes|
  {
    worker.job.spec == w.nodes[i] && worker.job.enabled == w.enabled(i) && worker.env.hash == w.hash
    && (worker.regs.resume ==> !worker.regs.force)
  }

  /** A call that succeeded left its node succeeded, with what it returned stored. */
  predicate DoneOk(worker: Worker, db: Db, mayBeStale: bool)
    requires worker.control.Done?
  {
    var n := worker.job.spec.key;
    match worker.control.verdict
    case Returned(result) =>
      worker.job.enabled && Success(result.status) ==> Durable(db, n) && (result.output.Some? ==> LoadOutput(db, n) == result.output)
    case Raised(_) => !mayBeStale ==> !Durable(db, n)
  }

  predicate EnterOk(worker: Worker, db: Db) {
    worker.control.Enter? ==>
      worker.todo == [] && (worker.job.spec.key in worker.regs.memory.completed ==> Durable(db, worker.job.spec.key))
  }

  ghost predicate WorkerOk(w: Setup, i: nat, worker: Worker, db: Db, again: bool) {
    && i < |w.nodes| && JobOk(w, i, worker) && EnterOk(worker, db)
    && if worker.control.Done? then worker.todo == [] && DoneOk(worker, db, worker.regs.resume || again)
       else exists stance ::
         Stands(worker.job.spec.key, Want(worker.control), stance, State(worker.regs, db)) && Typed(worker, stance, again)
  }

  /** What holds of a worker that has no commit pending, and of the database it sees. */
  predicate Idle(worker: Worker, db: Db, stance: Stance, again: bool) {
    && !worker.control.Done? && worker.todo == [] && EnterOk(worker, db)
    && (Durable(db, worker.job.spec.key) ==> worker.job.enabled) && (worker.regs.resume ==> !worker.regs.force)
    && Stands(worker.job.spec.key, Want(worker.control), stance, State(worker.regs, db))
    && Suits(worker.job, worker.control, stance, worker.regs.resume || again) && (stance == Stale(true) ==> again)
  }

  /** The decided worker is in order: its pending commits are typed, or it is done. */
  predicate Decided(next: Worker, db: Db, stance: Stance, again: bool) {
    && !next.control.Enter?
    && if next.control.Done? then next.todo == [] && DoneOk(next, db, next.regs.resume || again)
       else Stands(next.job.spec.key, Want(next.control), stance, State(next.regs, db)) && Typed(next, stance, again)
  }

  lemma {:induction false} OpenEnds(job: Job, want: Option<Json>, stance: Stance)
    requires stance == Fresh || stance == Stale(true)
    ensures Ends(job, want, [OpenNode(job.spec)], stance) == Some(Working(false))
    ensures !job.enabled ==> Ends(job, want, [OpenNode(job.spec), MarkSkipped], stance) == Some(Dropped)
  {
    hide Ends;
    EndsOne(job, want, OpenNode(job.spec), stance);
    EndsOne(job, want, MarkSkipped, Working(false));
    EndsAppend(job, want, [OpenNode(job.spec)], [MarkSkipped], stance);
    assert [OpenNode(job.spec)] + [MarkSkipped] == [OpenNode(job.spec), MarkSkipped];
  }

  /** A node that succeeded before may be entered as one to start again when the run was opened again. */
  function EnterStance(stance: Stance, again: bool): Stance {
    if stance.Stale? then Stale(again) else stance
  }

  lemma {:induction false} EnterDecides(worker: Worker, db: Db, stance: Stance, again: bool)
    requires Idle(worker, db, stance, again) && worker.control.Enter?
    ensures Decided(DecideEnter(worker, db), db, EnterStance(stance, again), again)
  {
    hide Ends, Next, GateRejects, LoadOutput;
    OpenEnds(worker.job, None, Fresh);
    OpenEnds(worker.job, None, Stale(true));
  }

  lemma {:induction false} HeadDecides(worker: Worker, db: Db, stance: Stance, again: bool)
    requires Idle(worker, db, stance, again) && worker.control.Head?
    ensures Decided(DecideHead(worker), db, Working(false), again)
  {
    hide Ends;
    EndsOne(worker.job, None, FailNode(Cancelled, JobCancelled, None), Working(false));
    EndsOne(worker.job, None, OpenAttempt, Working(false));
  }

  lemma {:induction false} BindDecides(worker: Worker, db: Db, stance: Stance, again: bool)
    requires Idle(worker, db, stance, again) && worker.control.Bind?
    ensures Decided(DecideBind(worker, db), db, Working(false), again)
  {
    hide Ends, BindProgram, PromptProgram, InputKey, CompressPayload;
    EndsNothing(worker.job, None, Working(false));
    if worker.job.payload.Some? {
      var payload := CompressPayload(worker.job.payload.value, worker.mode);
      InputEnds(worker.env.hash, worker.job, None, InputKey(worker.job.spec.key, worker.mode), payload,
                AttemptNo(State(worker.regs, db)), Working(false));
    }
  }

  lemma {:induction false} CallDecides(worker: Worker, db: Db, stance: Stance, again: bool)
    requires Idle(worker, db, stance, again) && worker.control.Call?
    ensures Decided(DecideCall(worker), db, Working(false), again)
  {
    hide Ends;
    EffectsEnd(worker.job, None, worker.env.invoke(worker.calls, worker.mode).effects, Working(false));
  }

  lemma {:induction false} ReturnDecides(worker: Worker, db: Db, stance: Stance, again: bool)
    requires Idle(worker, db, stance, again) && worker.control.Settle? && worker.control.outcome.Returns?
    ensures Decided(DecideSettle(worker, db), db, Working(false), again)
  {
    hide Ends, ReturnProgram, AttemptNo;
    ReturnEnds(worker.job, AttemptNo(State(worker.regs, db)), worker.control.outcome.output, Working(false));
  }

  lemma {:induction false} EndProgramEnds(job: Job, exc: Exc, want: Option<Json>)
    ensures Ends(job, want, EndProgram(job, exc), Working(false)) == Some(Dropped)
  {
    hide Ends, Classify;
    EndsOne(job, want, EndProgram(job, exc)[0], Working(false));
    assert EndProgram(job, exc) == [EndProgram(job, exc)[0]];
  }

  lemma {:induction false} RaiseDecides(worker: Worker, db: Db, stance: Stance, again: bool)
    requires Idle(worker, db, stance, again) && worker.control.Settle? && worker.control.outcome.Raises?
    ensures Decided(DecideSettle(worker, db), db, Working(false), again)
  {
    hide Ends, Retry, FailAttemptProgram, EndProgram, DecideSettle, Classify, Message;
    var exc := worker.control.outcome.exc;
    SettleRaise(worker, db);
    var retried := !exc.JobCancelled? && Retry(worker.job, worker.env, exc, worker.calls, worker.mode).0;
    var failureClass := if exc.JobCancelled? then None else Some(Classify(exc));
    var end := if retried then [] else EndProgram(worker.job, exc);
    var want := Want(DecideSettle(worker, db).control);
    FailureEnds(worker.job, want, exc, failureClass, retried, exc.JobCancelled?, end, Working(false));
    EndsNothing(worker.job, want, Working(false));
    EndProgramEnds(worker.job, exc, want);
  }

  lemma {:induction false} ConcludeDecides(worker: Worker, db: Db, stance: Stance, again: bool)
    requires Idle(worker, db, stance, again) && worker.control.Conclude?
    ensures Decided(worker.(control := Done(Count(worker.control.pending, worker.job, db))), db, stance, again)
  {
    hide Ends, LoadOutput;
  }

  /** Every decision of a worker in order leaves it in order. */
  lemma {:induction false} DecisionKeeps(worker: Worker, db: Db, stance: Stance, again: bool)
    requires Idle(worker, db, stance, again)
    ensures exists after :: Decided(Move(Config(worker, db)).worker, db, after, again)
  {
    hide Typed, Stands, DoneOk, Suits, DecideEnter, DecideHead, DecideBind, DecideCall, DecideSettle, Move, Decided;
    Decides(Config(worker, db));
    match worker.control
    case Enter => EnterDecides(worker, db, stance, again);
    case Head => HeadDecides(worker, db, stance, again);
    case Bind => BindDecides(worker, db, stance, again);
    case Call => CallDecides(worker, db, stance, again);
    case Settle(outcome) =>
      if outcome.Returns? {
        ReturnDecides(worker, db, stance, again);
      } else {
        RaiseDecides(worker, db, stance, again);
      }
    case Conclude(_) => ConcludeDecides(worker, db, stance, again);
  }

  /** A decision changes the registers only where a call is answered from the tables, and where an input digest is learnt. */
  lemma {:induction false} DecisionsKeepRegs(worker: Worker, db: Db)
    requires worker.todo == []
    ensures var next := Move(Config(worker, db)).worker;
            && next.job == worker.job && next.env == worker.env
            && next.regs.(node := worker.regs.node, nodeSkipped := worker.regs.nodeSkipped, memory := worker.regs.memory)
               == worker.regs
            && next.regs.memory.completed == worker.regs.memory.completed
  {
    hide Move, ReturnProgram, BindProgram, PromptProgram, FailAttemptProgram, EndProgram, GateRejects, LoadOutput, CompressPayload,
      Retry, TerminalVerdict;
    Decides(Config(worker, db));
  }

  /** What a move must leave behind, besides the worker itself. */
  ghost predicate Moved(worker: Worker, db: Db, next: Config, again: bool) {
    var n := worker.job.spec.key;
    && Grows(worker.job, Want(worker.control), db, next.db)
    && (!again && Durable(db, n) ==> next.db == db)
    && next.worker.job == worker.job && next.worker.env == worker.env
    && next.worker.regs.resume == worker.regs.resume && next.worker.regs.force == worker.regs.force
    && next.worker.regs.stage == worker.regs.stage
    && worker.regs.memory.completed <= next.worker.regs.memory.completed
    && forall k :: k in next.worker.regs.memory.completed ==>
         k in worker.regs.memory.completed || (k == n && Durable(next.db, k) && worker.job.enabled)
  }

  lemma {:induction false} PendingKeeps(w: Setup, i: nat, worker: Worker, db: Db, stance: Stance, again: bool)
    requires db.run.Some? && WorkerOk(w, i, worker, db, again) && worker.todo != []
    requires Stands(worker.job.spec.key, Want(worker.control), stance, State(worker.regs, db)) && Typed(worker, stance, again)
    ensures var next := Move(Config(worker, db));
            WorkerOk(w, i, next.worker, next.db, again) && Moved(worker, db, next, again)
  {
    hide DoneOk, Move, Next, Stands, Apply, Grows;
    var s, want := State(worker.regs, db), Want(worker.control);
    MoveTodo(Config(worker, db));
    CommitKeeps(worker.env.hash, worker.job, want, worker.todo[0], stance, s);
    CommitsAreUnfinished(worker.job, want, worker.todo[0], stance, s);
    var next := Move(Config(worker, db));
    var after := Next(worker.job, want, worker.todo[0], stance).value;
    assert Stands(next.worker.job.spec.key, want, after, State(next.worker.regs, next.db)) && Typed(next.worker, after, again);
  }

  lemma {:induction false} NothingGrows(job: Job, want: Option<Json>, db: Db)
    requires db.run.Some?
    ensures Grows(job, want, db, db)
  {
    hide LoadOutput;
  }

  /** Whatever a worker in order does next, it stays in order, and only its own node's row changes. */
  lemma {:induction false} MoveKeeps(w: Setup, i: nat, worker: Worker, db: Db, again: bool)
    requires db.run.Some? && WorkerOk(w, i, worker, db, again) && (Durable(db, worker.job.spec.key) ==> worker.job.enabled)
    ensures var next := Move(Config(worker, db));
            WorkerOk(w, i, next.worker, next.db, again) && Moved(worker, db, next, again)
  {
    hide DoneOk, Suits, Move, Ends, Stands, Grows, EnterOk;
    var c := Config(worker, db);
    NothingGrows(worker.job, Want(worker.control), db);
    if worker.control.Done? {
      Decides(c);
    } else {
      var stance :| Stands(worker.job.spec.key, Want(worker.control), stance, State(worker.regs, db)) && Typed(worker, stance, again);
      if worker.todo == [] {
        EndsNothing(worker.job, Want(worker.control), stance);
        DecisionKeeps(worker, db, stance, again);
        DecisionsKeepRegs(worker, db);
        Decides(c);
        NotEntering(Move(c).worker, db);
        var after :| Decided(Move(c).worker, db, after, again);
      } else {
        PendingKeeps(w, i, worker, db, stance, again);
      }
    }
  }

  lemma {:induction false} NotEntering(worker: Worker, db: Db)
    ensures !worker.control.Enter? ==> EnterOk(worker, db)
  {
  }

  // ----- which node a call leaves open -----

  /** The call was answered because the recorder itself reused the node. */
  predicate ReusedByRecorder(worker: Worker, db: Db) {
    worker.control.Enter? && worker.regs.resume && !worker.regs.force && Durable(db, worker.job.spec.key)
    && worker.job.spec.key !in worker.regs.memory.completed
  }

  /** A call that ends leaves no node open, except the one that was open before it, or its own when the recorder reused it. */
  lemma {:induction false} NodeLeftOpen(w: Setup, i: nat, worker: Worker, db: Db, again: bool)
    requires WorkerOk(w, i, worker, db, again) && (Durable(db, worker.job.spec.key) ==> worker.job.enabled)
    requires !worker.control.Done?
    ensures var next := Move(Config(worker, db)).worker;
            next.control.Done? && next.regs.node.Some? ==>
              worker.control.Enter?
              && (next.regs.node == worker.regs.node
                  || (ReusedByRecorder(worker, db) && next.regs.node == Some(worker.job.spec.key)))
  {
    hide GateRejects, LoadOutput, Ends, Grows, DecideHead, DecideBind, DecideCall, DecideSettle, Move;
    var stance :| Stands(worker.job.spec.key, Want(worker.control), stance, State(worker.regs, db)) && Typed(worker, stance, again);
    if worker.todo == [] {
      EndsNothing(worker.job, Want(worker.control), stance);
      Decides(Config(worker, db));
      DecisionsContinue(worker, db);
    } else {
      MoveTodo(Config(worker, db));
    }
  }

  lemma {:induction false} DecisionsContinue(worker: Worker, db: Db)
    ensures !DecideHead(worker).control.Done? && !DecideBind(worker, db).control.Done? && !DecideCall(worker).control.Done?
    ensures worker.control.Settle? ==> !DecideSettle(worker, db).control.Done?
  {
    hide ReturnProgram, BindProgram, PromptProgram, FailAttemptProgram, EndProgram, Retry, TerminalVerdict;
  }
}
