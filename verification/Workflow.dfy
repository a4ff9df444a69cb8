/** Statuses, failure classes, node and phase specifications, and the node retry policy. */
module Workflow {

  datatype Option<+T> = None | Some(value: T)

  datatype Criticality = Mandatory | Important | Optional

  datatype FailureClass = Transient | StructuredOutput | ContextOverflow | NonRetryable

  datatype ContextMode = Full | Compressed | Minimal

  datatype RunStatus = RunQueued | RunRunning | RunCompleted | RunBlocked | RunFailed | RunCancelled | RunInterrupted

  datatype StageStatus =
    | StagePending | StageRunning | StageCompleted | StageFailed | StageBlocked | StageSkipped | StageCancelled

  datatype NodeStatus =
    | Pending | Running | Succeeded | Completed | Failed | Blocked | Skipped | Cancelled | RetryWaiting

  datatype AttemptStatus = AttemptRunning | AttemptCompleted | AttemptFailed | AttemptCancelled

  datatype ClaimStatus = Open | Addressed | Resolved | Unresolved | Accepted | Rejected | PartiallyAccepted

  datatype ArtifactType =
    | Input | EvidenceSnapshot | PromptTemplate | RenderedPrompt | ModelRawOutput | Structured | QualityGate
    | ClaimList | Checkpoint | ErrorReport | FinalDecision | MarketSnapshot | PortfolioSnapshot

  datatype NodeSpec = NodeSpec(
    key: string,
    criticality: Criticality,
    retryable: bool,
    llm: bool,
    maxAttempts: int,
    dependencies: seq<string>)

  datatype PhaseSpec = PhaseSpec(
    key: string,
    nodes: seq<NodeSpec>,
    checkpoint: Option<string>,
    dependencies: seq<string>)

  const DEFAULT_NODE_MAX_ATTEMPTS := 3

  /** What a node function or the resume gate can raise. `JobCancelled` is any exception that reads "job_cancelled". */
  datatype Exc =
    | JobCancelled
    | ResumeRejected(reason: string)
    | StageNotStarted
    | NodeError(failureClass: FailureClass, text: string)

  function Message(exc: Exc): string {
    match exc
    case JobCancelled => "job_cancelled"
    case ResumeRejected(reason) => reason
    case StageNotStarted => "workflow_stage_not_started"
    case NodeError(_, text) => text
  }

  /** The class `classify_failure` gives; for an ordinary error it is part of the error itself. */
  function Classify(exc: Exc): FailureClass {
    match exc
    case NodeError(failureClass, _) => failureClass
    case _ => NonRetryable
  }

  predicate Success(status: NodeStatus) {
    status == Succeeded || status == Completed
  }

  function MaxInt(a: int, b: int): int {
    if a < b then b else a
  }

  /** The attempt budget of one execution; `fallback` is the policy's own limit. */
  function MaxAttemptsFor(spec: NodeSpec, fallback: int): (budget: nat)
    ensures budget >= 1
    ensures !spec.retryable || spec.maxAttempts < 0 ==> budget == 1
    ensures spec.retryable && spec.maxAttempts > 0 ==> budget == spec.maxAttempts
    ensures spec.retryable && spec.maxAttempts == 0 && fallback >= 1 ==> budget == fallback
  {
    if !spec.retryable then 1
    else MaxInt(1, if spec.maxAttempts != 0 then spec.maxAttempts else MaxInt(1, fallback))
  }

  predicate ShouldRetry(spec: NodeSpec, failureClass: FailureClass, attempts: nat, fallback: int) {
    spec.retryable && failureClass != NonRetryable && MaxInt(0, MaxAttemptsFor(spec, fallback) - attempts) > 0
  }

  /** The mode a retried context overflow moves to, if any is left. */
  function NextContextMode(mode: ContextMode): Option<ContextMode> {
    match mode
    case Full => Some(Compressed)
    case Compressed => Some(Minimal)
    case Minimal => None
  }

  function ModeRank(mode: ContextMode): nat {
    match mode
    case Full => 0
    case Compressed => 1
    case Minimal => 2
  }

  function ModeName(mode: ContextMode): string {
    match mode
    case Full => "full"
    case Compressed => "compressed"
    case Minimal => "minimal"
  }

  // ----- the order of texts -----

  /** Text order by code points. */
  predicate Earlier(a: string, b: string) {
    b != [] && (a == [] || a[0] < b[0] || (a[0] == b[0] && Earlier(a[1..], b[1..])))
  }

  lemma {:induction false} TextsAreOrdered(a: string, b: string)
    ensures !(Earlier(a, b) && Earlier(b, a))
    ensures Earlier(a, b) || Earlier(b, a) || a == b
  {
    if a != [] && b != [] && a[0] == b[0] {
      TextsAreOrdered(a[1..], b[1..]);
      assert a == [a[0]] + a[1..] && b == [b[0]] + b[1..];
    }
  }

  /** One text is earlier than another if it is a proper beginning of it, or has the smaller character where they first differ. */
  lemma {:induction false} EarlierIsExact(a: string, b: string)
    ensures Earlier(a, b) <==> exists i: nat :: DiffersAt(a, b, i)
  {
    if a == [] {
      assert b != [] ==> DiffersAt(a, b, 0);
    } else if b != [] {
      assert a[0] < b[0] ==> DiffersAt(a, b, 0);
      EarlierIsExact(a[1..], b[1..]);
      if a[0] == b[0] {
        if i: nat :| DiffersAt(a[1..], b[1..], i) {
          assert a[..i + 1] == [a[0]] + a[1..][..i] && b[..i + 1] == [b[0]] + b[1..][..i];
          assert DiffersAt(a, b, i + 1);
        }
      }
      if i: nat :| DiffersAt(a, b, i) {
        if i > 0 {
          assert a[0] == a[..i][0] == b[..i][0] == b[0];
          assert a[1..][..i - 1] == a[..i][1..] && b[1..][..i - 1] == b[..i][1..];
          assert DiffersAt(a[1..], b[1..], i - 1);
        }
      }
    }
  }

  predicate DiffersAt(a: string, b: string, i: nat) {
    i <= |a| && i < |b| && a[..i] == b[..i] && (i == |a| || a[i] < b[i])
  }

  lemma {:induction false} EarlierChains(a: string, b: string, c: string)
    requires Earlier(a, b) && Earlier(b, c)
    ensures Earlier(a, c)
  {
    if a != [] && a[0] == b[0] == c[0] {
      EarlierChains(a[1..], b[1..], c[1..]);
    }
  }
}
