/** The life of a node's row under one worker: which commits the worker may make there, and where each leaves the row. */
module Stances {
  import opened Json
  import opened Workflow
  import opened Store
  import opened Execution
  import opened Process

  /** Where a worker stands between its commits. A stale node had succeeded before this worker touched it; `again`: it may be
      started all the same. `good`: the artifact the worker wrote last holds what it wants to return. Dropped and closed:
      the worker has ended its node without and with success. */
  datatype Stance = Fresh | Stale(again: bool) | Working(good: bool) | Dropped | Closed

  predicate Holds(artifacts: seq<ArtifactRow>, id: Option<nat>, want: Option<Json>) {
    id.Some? && id.value < |artifacts| && want.Some? && artifacts[id.value].content == Document(want.value)
  }

  /** `want` is what the worker is about to return. */
  predicate Stands(n: string, want: Option<Json>, stance: Stance, s: State) {
    match stance
    case Fresh => !Durable(s.db, n)
    case Stale(_) => Durable(s.db, n)
    case Working(good) =>
      s.regs.node == Some(n) && n in s.db.nodes && !Success(s.db.nodes[n].status)
      && (good ==> Holds(s.db.artifacts, s.regs.artifact, want))
    case Dropped => s.regs.node.None? && !Durable(s.db, n)
    case Closed => s.regs.node.None? && Durable(s.db, n) && (want.Some? ==> LoadOutput(s.db, n) == want)
  }

  /** The stance a commit leads to, or none when a worker may not make it there. */
  function Next(job: Job, want: Option<Json>, c: Commit, stance: Stance): Option<Stance> {
    if stance.Fresh? || (stance.Stale? && stance.again) then
      if c.OpenNode? && c.spec == job.spec then Some(Working(false)) else None
    else if !stance.Working? then None
    else
      match c
      case TouchRun => Some(stance)
      case OpenAttempt => Some(stance)
      case CloseAttempt(_) => Some(stance)
      case AfterFail(_) => Some(stance)
      case LinkInput => Some(stance)
      case BindStage(_) => Some(stance)
      case UpsertClaims(_) => Some(stance)
      case ResolveClaims(_) => Some(stance)
      case FailAttempt(_, _, _, _) => Some(Working(false))
      case AddArtifact(_, _, content) =>
        if content.Document? then Some(Working(want.Some? && content == Document(want.value))) else None
      case MarkSkipped => if job.enabled then None else Some(Dropped)
      case FailNode(status, _, _) => if Success(status) then None else Some(Dropped)
      case CloseNode(withOutput) =>
        if job.enabled && withOutput == want.Some? && (withOutput ==> stance.good) then Some(Closed) else None
      case _ => None
  }

  /** The stance a pending program ends in. */
  function Ends(job: Job, want: Option<Json>, todo: Program, stance: Stance): Option<Stance>
    decreases |todo|
  {
    if todo == [] then Some(stance)
    else
      var next := Next(job, want, todo[0], stance);
      if next.None? then None else Ends(job, want, todo[1..], next.value)
  }

  function Want(control: Control): Option<Json> {
    if control.Conclude? && control.pending.Returned? then control.pending.result.output else None
  }

  /** The stance each control point is entered with. */
  predicate Suits(job: Job, control: Control, stance: Stance, mayBeStale: bool) {
    match control
    case Enter => stance.Fresh? || (stance.Stale? && mayBeStale)
    case Conclude(v) => if v.Returned? && Success(v.result.status) then stance.Closed? else stance.Dropped?
    case Done(_) => true
    case _ => stance.Working? && job.enabled
  }

  /** The pending commits may be made, and lead to where the next decision is taken. Only in a run that was opened again
      without resuming may a worker start a node that has already succeeded. */
  predicate Typed(worker: Worker, stance: Stance, again: bool) {
    var end := Ends(worker.job, Want(worker.control), worker.todo, stance);
    end.Some? && Suits(worker.job, worker.control, end.value, worker.regs.resume || again) && (stance == Stale(true) ==> again)
  }

  // ----- what a commit of node n may change -----

  function OutputOf(db: Db, n: string): Option<nat> {
    if n in db.nodes then db.nodes[n].output else None
  }

  /** Only row n changes. It succeeds only for an enabled node with the wanted output stored, and its output changes only to
      that. */
  predicate Grows(job: Job, want: Option<Json>, a: Db, b: Db) {
    var n := job.spec.key;
    && a.artifacts <= b.artifacts && (forall k :: |a.artifacts| <= k < |b.artifacts| ==> b.artifacts[k].content.Document?)
    && (forall k :: k in a.nodes && k != n ==> k in b.nodes && b.nodes[k] == a.nodes[k])
    && (forall k :: k in b.nodes && k != n ==> k in a.nodes)
    && (n in a.nodes ==> n in b.nodes)
    && (Durable(b, n) && !Durable(a, n) ==> job.enabled && (want.Some? ==> LoadOutput(b, n) == want))
    && (OutputOf(b, n) == OutputOf(a, n) || Holds(b.artifacts, OutputOf(b, n), want))
    && a.run.Some? && b.run.Some? && b.run.value.lastCheckpoint == a.run.value.lastCheckpoint
  }

  /** The memory learns the success of its own node only. */
  predicate Learns(job: Job, before: Memory, after: Memory, db: Db) {
    && after.inputHashes == before.inputHashes && before.completed <= after.completed
    && forall k :: k in after.completed ==> k in before.completed || (k == job.spec.key && Durable(db, k) && job.enabled)
  }

  /** What a commit must leave behind. */
  predicate Kept(job: Job, want: Option<Json>, stance: Stance, s: State, t: State) {
    && Stands(job.spec.key, want, stance, t) && Grows(job, want, s.db, t.db)
    && t.regs.resume == s.regs.resume && t.regs.force == s.regs.force && t.regs.stage == s.regs.stage
    && Learns(job, s.regs.memory, t.regs.memory, t.db)
  }

  predicate Before(job: Job, want: Option<Json>, stance: Stance, s: State) {
    s.db.run.Some? && Stands(job.spec.key, want, stance, s)
  }

  // ----- commits -----

  lemma {:induction false} AddKeeps(hash: Hasher, job: Job, want: Option<Json>, c: Commit, stance: Stance, s: State)
    requires Before(job, want, stance, s) && c.AddArtifact? && stance.Working? && c.content.Document?
    ensures Kept(job, want, Working(want.Some? && c.content == Document(want.value)), s, Apply(hash, c, s))
  {
  }

  lemma {:induction false} FailAttemptKeeps(hash: Hasher, job: Job, want: Option<Json>, c: Commit, stance: Stance, s: State)
    requires Before(job, want, stance, s) && c.FailAttempt? && stance.Working?
    ensures Kept(job, want, Working(false), s, Apply(hash, c, s))
  {
    hide AttemptErrorKey;
  }

  /** Commits about attempts, claims, the stage or the run touch no artifact, no memory and no output. */
  predicate Quiet(n: string, s: State, t: State) {
    && t.db.artifacts == s.db.artifacts && t.regs.memory == s.regs.memory && t.regs.artifact == s.regs.artifact
    && t.regs.node == s.regs.node && t.regs.resume == s.regs.resume && t.regs.force == s.regs.force
    && t.regs.stage == s.regs.stage && s.db.run.Some? && t.db.run.Some?
    && t.db.run.value.lastCheckpoint == s.db.run.value.lastCheckpoint
    && n in s.db.nodes && n in t.db.nodes && t.db.nodes == s.db.nodes[n := t.db.nodes[n]]
    && t.db.nodes[n].output == s.db.nodes[n].output
    && (t.db.nodes[n].status == s.db.nodes[n].status || t.db.nodes[n].status == RetryWaiting)
  }

  lemma {:induction false} QuietCommit(hash: Hasher, job: Job, want: Option<Json>, c: Commit, stance: Stance, s: State)
    requires stance.Working? && Before(job, want, stance, s)
    requires Next(job, want, c, stance) == Some(stance) && !c.AddArtifact? && !c.FailAttempt?
    ensures Quiet(job.spec.key, s, Apply(hash, c, s))
  {
    hide ApplyClaims, ApplyResolutions, Holds;
  }

  lemma {:induction false} QuietKeeps(hash: Hasher, job: Job, want: Option<Json>, c: Commit, stance: Stance, s: State)
    requires Before(job, want, stance, s) && stance.Working? && Next(job, want, c, stance) == Some(stance)
    requires !c.AddArtifact? && !c.FailAttempt?
    ensures Kept(job, want, stance, s, Apply(hash, c, s))
  {
    hide Apply, Next;
    QuietCommit(hash, job, want, c, stance, s);
  }

  lemma {:induction false} OpenNodeKeeps(hash: Hasher, job: Job, want: Option<Json>, stance: Stance, s: State)
    requires Before(job, want, stance, s) && (stance.Fresh? || (stance.Stale? && stance.again))
    ensures Kept(job, want, Working(false), s, Apply(hash, OpenNode(job.spec), s))
  {
  }

  lemma {:induction false} EndKeeps(hash: Hasher, job: Job, want: Option<Json>, c: Commit, stance: Stance, s: State)
    requires Before(job, want, stance, s) && stance.Working? && Next(job, want, c, stance) == Some(Dropped)
    ensures Kept(job, want, Dropped, s, Apply(hash, c, s))
  {
  }

  lemma {:induction false} CloseNodeKeeps(hash: Hasher, job: Job, want: Option<Json>, c: Commit, stance: Stance, s: State)
    requires Before(job, want, stance, s) && stance.Working? && Next(job, want, c, stance) == Some(Closed)
    ensures Kept(job, want, Closed, s, Apply(hash, c, s))
  {
  }

  /** Every commit a worker may make leads to the stance foreseen for it, and touches no row but its own node's. */
  lemma {:induction false} CommitKeeps(hash: Hasher, job: Job, want: Option<Json>, c: Commit, stance: Stance, s: State)
    requires Before(job, want, stance, s) && Next(job, want, c, stance).Some?
    ensures Kept(job, want, Next(job, want, c, stance).value, s, Apply(hash, c, s))
  {
    hide Apply, Kept, Before, Grows;
    match c
    case AddArtifact(_, _, _) => AddKeeps(hash, job, want, c, stance, s);
    case FailAttempt(_, _, _, _) => FailAttemptKeeps(hash, job, want, c, stance, s);
    case OpenNode(_) => OpenNodeKeeps(hash, job, want, stance, s);
    case CloseNode(_) => CloseNodeKeeps(hash, job, want, c, stance, s);
    case MarkSkipped => EndKeeps(hash, job, want, c, stance, s);
    case FailNode(_, _, _) => EndKeeps(hash, job, want, c, stance, s);
    case _ => QuietKeeps(hash, job, want, c, stance, s);
  }

  /** A worker commits for a node that has succeeded only when it may start the node again; no commit makes a node stale. */
  lemma {:induction false} CommitsAreUnfinished(job: Job, want: Option<Json>, c: Commit, stance: Stance, s: State)
    requires Stands(job.spec.key, want, stance, s) && Next(job, want, c, stance).Some?
    ensures stance != Stale(true) ==> !Durable(s.db, job.spec.key)
    ensures !Next(job, want, c, stance).value.Stale? && !Next(job, want, c, stance).value.Fresh?
  {
    hide Holds;
  }

  /** How a commit may leave the status of its node. */
  predicate StatusAfter(n: string, c: Commit, a: Db, b: Db) {
    n in b.nodes ==>
      || (n in a.nodes && b.nodes[n].status == a.nodes[n].status)
      || b.nodes[n].status == Running || b.nodes[n].status == RetryWaiting
      || (c.CloseNode? && b.nodes[n].status == Succeeded)
      || (c.FailNode? && b.nodes[n].status == c.nodeStatus)
      || (c.MarkSkipped? && b.nodes[n].status == Skipped)
  }

  lemma {:induction false} StatusesChange(hash: Hasher, job: Job, want: Option<Json>, c: Commit, stance: Stance, s: State)
    requires Before(job, want, stance, s) && Next(job, want, c, stance).Some?
    ensures StatusAfter(job.spec.key, c, s.db, Apply(hash, c, s).db)
  {
    hide ApplyClaims, ApplyResolutions, Holds, AttemptErrorKey, LoadOutput;
  }

  // ----- pending programs -----

  lemma {:induction false} EndsAppend(job: Job, want: Option<Json>, left: Program, right: Program, stance: Stance)
    requires Ends(job, want, left, stance).Some?
    ensures Ends(job, want, left + right, stance) == Ends(job, want, right, Ends(job, want, left, stance).value)
    decreases |left|
  {
    hide Next;
    if left == [] {
      assert left + right == right;
    } else {
      assert (left + right)[1..] == left[1..] + right;
      EndsAppend(job, want, left[1..], right, Next(job, want, left[0], stance).value);
    }
  }

  lemma {:induction false} EndsOne(job: Job, want: Option<Json>, c: Commit, stance: Stance)
    ensures Ends(job, want, [c], stance) == Next(job, want, c, stance)
  {
    hide Next;
  }

  lemma {:induction false} EndsNothing(job: Job, want: Option<Json>, stance: Stance)
    ensures Ends(job, want, [], stance) == Some(stance)
  {
  }

  lemma {:induction false} ArtifactEnds(job: Job, want: Option<Json>, kind: ArtifactType, key: string, json: Json, stance: Stance)
    requires stance.Working?
    ensures Ends(job, want, ArtifactProgram(kind, key, Document(json)), stance) == Some(Working(want == Some(json)))
  {
    var program := ArtifactProgram(kind, key, Document(json));
    EndsOne(job, want, TouchRun, Working(want == Some(json)));
    assert program[1..] == [TouchRun];
  }

  lemma {:induction false} EffectsEnd(job: Job, want: Option<Json>, effects: Effects, stance: Stance)
    requires stance.Working?
    ensures Ends(job, want, effects, stance).Some? && Ends(job, want, effects, stance).value.Working?
    decreases |effects|
  {
    if effects != [] {
      assert effects[0] in effects;
      EffectsEnd(job, want, effects[1..], Next(job, want, effects[0], stance).value);
    }
  }

  lemma {:induction false} InputEnds(
      hash: Hasher, job: Job, want: Option<Json>, key: string, json: Json, no: nat, stance: Stance)
    requires stance.Working?
    ensures var end := Ends(job, want, BindProgram(hash, key, json) + PromptProgram(job, no, json), stance);
            end.Some? && end.value.Working?
  {
    hide Ends;
    var bind, add, link, prompt := BindStage(hash(Document(json))), ArtifactProgram(Input, key + ".input", Document(json)),
      [LinkInput], PromptProgram(job, no, json);
    var given := Working(want == Some(json));
    ArtifactEnds(job, want, Input, key + ".input", json, stance);
    EndsOne(job, want, LinkInput, given);
    EndsAppend(job, want, add, link, stance);
    EndsOne(job, want, bind, stance);
    EndsAppend(job, want, [bind], add + link, stance);
    if job.spec.llm {
      ArtifactEnds(job, want, RenderedPrompt, job.spec.key + ".prompt." + Decimal(no), json, given);
    } else {
      EndsNothing(job, want, given);
    }
    EndsAppend(job, want, [bind] + (add + link), prompt, stance);
  }

  lemma {:induction false} AttemptReturnEnds(job: Job, want: Option<Json>, no: nat, output: Option<Json>, stance: Stance)
    requires stance.Working?
    ensures var end := Ends(job, want, AttemptReturnProgram(job, no, output), stance); end.Some? && end.value.Working?
  {
    hide Ends, Decimal;
    if output.None? {
      EndsOne(job, want, CloseAttempt(false), stance);
    } else {
      var json := output.value;
      EndsOne(job, want, CloseAttempt(true), Working(want == Some(json)));
      var kind, key := Structured, "attempt." + Decimal(no) + ".output";
      if job.outputKind.Some? {
        kind, key := job.outputKind.value, job.spec.key + ".output." + Decimal(no);
      }
      ArtifactEnds(job, want, kind, key, json, stance);
      EndsAppend(job, want, ArtifactProgram(kind, key, Document(json)), [CloseAttempt(true)], stance);
    }
  }

  /** Storing what was returned closes the node for good. */
  lemma {:induction false} ReturnEnds(job: Job, no: nat, output: Option<Json>, stance: Stance)
    requires stance.Working? && job.enabled
    ensures Ends(job, output, ReturnProgram(job, no, output), stance) == Some(Closed)
  {
    hide Ends, AttemptReturnProgram;
    AttemptReturnEnds(job, output, no, output, stance);
    var middle := Ends(job, output, AttemptReturnProgram(job, no, output), stance).value;
    EndsAppend(job, output, AttemptReturnProgram(job, no, output), FinishNodeProgram(job.spec.key, output), stance);
    if output.None? {
      EndsOne(job, output, CloseNode(false), middle);
    } else {
      ArtifactEnds(job, output, Structured, job.spec.key + ".output", output.value, middle);
      EndsOne(job, output, CloseNode(true), Working(true));
      EndsAppend(job, output, ArtifactProgram(Structured, job.spec.key + ".output", Document(output.value)), [CloseNode(true)], middle);
    }
  }

  lemma {:induction false} FailureEnds(
      job: Job, want: Option<Json>, exc: Exc, failureClass: Option<FailureClass>, again: bool, cancelled: bool, end: Program,
      stance: Stance)
    requires stance.Working?
    ensures Ends(job, want, FailAttemptProgram(exc, failureClass, again, again, cancelled) + end, stance)
            == Ends(job, want, end, Working(false))
  {
    hide Ends;
    var fail := FailAttempt(exc, failureClass, again, cancelled);
    EndsOne(job, want, AfterFail(again), Working(false));
    EndsOne(job, want, TouchRun, Working(false));
    EndsOne(job, want, fail, stance);
    EndsAppend(job, want, [TouchRun], [AfterFail(again)], Working(false));
    EndsAppend(job, want, [fail], [TouchRun] + [AfterFail(again)], stance);
    assert [fail] + ([TouchRun] + [AfterFail(again)]) == FailAttemptProgram(exc, failureClass, again, again, cancelled);
    EndsAppend(job, want, FailAttemptProgram(exc, failureClass, again, again, cancelled), end, stance);
  }
}
