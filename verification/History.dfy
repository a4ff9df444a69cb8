/** The audit history is append-only, whatever recorders run, crash, resume or restart, in any interleaving. */
module History {
  import opened Workflow
  import opened Store

  function CountFor(attempts: seq<AttemptRow>, n: string): nat {
    if attempts == [] then 0
    else CountFor(attempts[..|attempts| - 1], n) + if attempts[|attempts| - 1].node == n then 1 else 0
  }

  ghost predicate ValidDb(db: Db) {
    && (forall a :: 0 <= a < |db.attempts| ==>
          db.attempts[a].node in db.nodes && db.attempts[a].no == CountFor(db.attempts[..a], db.attempts[a].node) + 1)
    && (forall n :: n in db.nodes ==> db.nodes[n].attemptCount == CountFor(db.attempts, n))
    && (forall n :: n in db.nodes && db.nodes[n].output.Some? ==> db.nodes[n].output.value < |db.artifacts|)
    && (forall n :: n in db.nodes && db.nodes[n].input.Some? ==> db.nodes[n].input.value < |db.artifacts|)
  }

  ghost predicate ValidRegs(r: Regs, db: Db) {
    && (r.node.Some? ==> r.node.value in db.nodes)
    && (r.attempt.Some? ==> r.attempt.value < |db.attempts| && db.attempts[r.attempt.value].status == AttemptRunning)
    && (r.artifact.Some? ==> r.artifact.value < |db.artifacts|)
  }

  ghost predicate Valid(s: State) {
    ValidDb(s.db) && ValidRegs(s.regs, s.db)
  }

  predicate Closed(row: AttemptRow) {
    row.status != AttemptRunning
  }

  /** Nothing recorded in `before` is lost or rewritten in `later`. */
  ghost predicate Extends(before: Db, later: Db) {
    && before.artifacts <= later.artifacts
    && |before.attempts| <= |later.attempts|
    && (forall a :: 0 <= a < |before.attempts| ==>
          && before.attempts[a].node == later.attempts[a].node
          && before.attempts[a].no == later.attempts[a].no
          && (Closed(before.attempts[a]) ==> before.attempts[a] == later.attempts[a]))
    && before.nodes.Keys <= later.nodes.Keys
    && (forall n :: n in before.nodes ==> before.nodes[n].attemptCount <= later.nodes[n].attemptCount)
    && before.stages.Keys <= later.stages.Keys
    && ClaimsExtend(before.claims, later.claims)
  }

  /** A claim's author, statement, evidence and origin are facts; only its status may move. */
  ghost predicate ClaimsExtend(before: map<string, ClaimRow>, later: map<string, ClaimRow>) {
    && before.Keys <= later.Keys
    && (forall c :: c in before ==> before[c].facts == later[c].facts
                                    && before[c].node == later[c].node && before[c].stage == later[c].stage)
  }

  lemma {:induction false} ExtendsTransitive(a: Db, b: Db, c: Db)
    requires Extends(a, b) && Extends(b, c)
    ensures Extends(a, c)
  {
    forall k | 0 <= k < |a.attempts|
      ensures a.attempts[k].node == c.attempts[k].node && a.attempts[k].no == c.attempts[k].no
      ensures Closed(a.attempts[k]) ==> a.attempts[k] == c.attempts[k]
    {
      assert b.attempts[k].node == c.attempts[k].node;
    }
    forall n | n in a.nodes
      ensures n in c.nodes && a.nodes[n].attemptCount <= c.nodes[n].attemptCount
    {
      assert n in b.nodes;
    }
    forall d | d in a.claims
      ensures d in c.claims && a.claims[d].facts == c.claims[d].facts
      ensures a.claims[d].node == c.claims[d].node && a.claims[d].stage == c.claims[d].stage
    {
      assert d in b.claims;
    }
  }

  lemma {:induction false} ClaimsOnlyChangeStatus(
    rows: map<string, ClaimRow>, claims: seq<ClaimInput>, node: Option<string>, stage: Option<string>)
    ensures ClaimsExtend(rows, ApplyClaims(rows, claims, node, stage))
  {
    if claims != [] {
      ClaimsOnlyChangeStatus(rows, claims[..|claims| - 1], node, stage);
    }
  }

  lemma {:induction false} ResolutionsOnlyChangeStatus(rows: map<string, ClaimRow>, resolutions: seq<Resolution>)
    ensures ClaimsExtend(rows, ApplyResolutions(rows, resolutions))
    ensures rows.Keys == ApplyResolutions(rows, resolutions).Keys
  {
    if resolutions != [] {
      ResolutionsOnlyChangeStatus(rows, resolutions[..|resolutions| - 1]);
    }
  }

  /** Counting looks at the node of a row only. */
  lemma {:induction false} CountIgnoresStatus(left: seq<AttemptRow>, right: seq<AttemptRow>, n: string)
    requires |left| == |right|
    requires forall a :: 0 <= a < |left| ==> left[a].node == right[a].node
    ensures CountFor(left, n) == CountFor(right, n)
  {
    if left != [] {
      CountIgnoresStatus(left[..|left| - 1], right[..|right| - 1], n);
    }
  }

  /** Replacing one attempt row by another of the same node and number leaves the numbering valid. */
  lemma {:induction false} AttemptUpdateValid(db: Db, later: Db, a: nat, row: AttemptRow)
    requires ValidDb(db) && a < |db.attempts| && row.node == db.attempts[a].node && row.no == db.attempts[a].no
    requires later.attempts == db.attempts[a := row]
    requires later.nodes.Keys == db.nodes.Keys
    requires forall n :: n in db.nodes ==> later.nodes[n].attemptCount == db.nodes[n].attemptCount
    requires forall n :: n in db.nodes ==> later.nodes[n].output == db.nodes[n].output
    requires forall n :: n in db.nodes && later.nodes[n].input.Some? ==> later.nodes[n].input.value < |later.artifacts|
    requires |db.artifacts| <= |later.artifacts|
    ensures ValidDb(later)
  {
    forall k | 0 <= k < |later.attempts|
      ensures later.attempts[k].node in later.nodes
      ensures later.attempts[k].no == CountFor(later.attempts[..k], later.attempts[k].node) + 1
    {
      CountIgnoresStatus(db.attempts[..k], later.attempts[..k], db.attempts[k].node);
      assert db.attempts[k].node in db.nodes;
    }
    forall n | n in later.nodes
      ensures later.nodes[n].attemptCount == CountFor(later.attempts, n)
    {
      CountIgnoresStatus(db.attempts, later.attempts, n);
    }
  }

  lemma {:induction false} OpenAttemptKeeps(s: State)
    requires Valid(s)
    ensures Valid(ApplyOpenAttempt(s)) && Extends(s.db, ApplyOpenAttempt(s).db)
  {
    if NodeOpen(s) {
      var t := ApplyOpenAttempt(s);
      assert t.db.attempts[..|s.db.attempts|] == s.db.attempts;
      forall k | 0 <= k < |t.db.attempts|
        ensures t.db.attempts[k].node in t.db.nodes
        ensures t.db.attempts[k].no == CountFor(t.db.attempts[..k], t.db.attempts[k].node) + 1
      {
        if k < |s.db.attempts| {
          assert t.db.attempts[..k] == s.db.attempts[..k];
        }
      }
    }
  }

  lemma {:induction false} NewNodeHasNoAttempts(db: Db, n: string)
    requires ValidDb(db) && n !in db.nodes
    ensures CountFor(db.attempts, n) == 0
  {
    NoRowsNoCount(db.attempts, n);
  }

  lemma {:induction false} NoRowsNoCount(attempts: seq<AttemptRow>, n: string)
    requires forall a :: 0 <= a < |attempts| ==> attempts[a].node != n
    ensures CountFor(attempts, n) == 0
  {
    if attempts != [] {
      NoRowsNoCount(attempts[..|attempts| - 1], n);
    }
  }

  lemma {:induction false} CloseAttemptKeeps(withHash: bool, s: State)
    requires Valid(s)
    ensures Valid(ApplyCloseAttempt(withHash, s)) && Extends(s.db, ApplyCloseAttempt(withHash, s).db)
  {
    if AttemptOpen(s) {
      var t := ApplyCloseAttempt(withHash, s);
      AttemptUpdateValid(s.db, t.db, s.regs.attempt.value, t.db.attempts[s.regs.attempt.value]);
    }
  }

  lemma {:induction false} FailAttemptKeeps(
    hash: Hasher, exc: Exc, failureClass: Option<FailureClass>, retryable: bool, cancelled: bool, s: State)
    requires Valid(s)
    ensures var t := ApplyFailAttempt(hash, exc, failureClass, retryable, cancelled, s);
            Valid(t) && Extends(s.db, t.db)
  {
    if AttemptOpen(s) {
      var t := ApplyFailAttempt(hash, exc, failureClass, retryable, cancelled, s);
      AttemptUpdateValid(s.db, t.db, s.regs.attempt.value, t.db.attempts[s.regs.attempt.value]);
    }
  }

  lemma {:induction false} LinkInputKeeps(s: State)
    requires Valid(s)
    ensures Valid(ApplyLinkInput(s)) && Extends(s.db, ApplyLinkInput(s).db)
  {
    var t := ApplyLinkInput(s);
    if NodeOpen(s) && ArtifactKnown(s) && AttemptOpen(s) {
      AttemptUpdateValid(s.db, t.db, s.regs.attempt.value, t.db.attempts[s.regs.attempt.value]);
    }
  }

  /** Commits that leave the attempts alone keep the tables valid as long as node rows keep their counts. */
  lemma {:induction false} NodesKeep(s: State, t: State)
    requires Valid(s) && t.db.attempts == s.db.attempts && s.db.artifacts <= t.db.artifacts
    requires s.db.nodes.Keys <= t.db.nodes.Keys
    requires forall n :: n in t.db.nodes ==>
               t.db.nodes[n].attemptCount == if n in s.db.nodes then s.db.nodes[n].attemptCount else 0
    requires forall n :: n in t.db.nodes && t.db.nodes[n].output.Some? ==> t.db.nodes[n].output.value < |t.db.artifacts|
    requires forall n :: n in t.db.nodes && t.db.nodes[n].input.Some? ==> t.db.nodes[n].input.value < |t.db.artifacts|
    requires s.db.stages.Keys <= t.db.stages.Keys && ClaimsExtend(s.db.claims, t.db.claims)
    requires ValidRegs(t.regs, t.db)
    ensures Valid(t) && Extends(s.db, t.db)
  {
    forall n | n in t.db.nodes
      ensures t.db.nodes[n].attemptCount == CountFor(t.db.attempts, n)
    {
      if n !in s.db.nodes {
        NewNodeHasNoAttempts(s.db, n);
      }
    }
  }

  /** What validity says about node rows alone. */
  lemma {:induction false} ValidNodes(s: State)
    requires Valid(s)
    ensures forall n :: n in s.db.nodes && s.db.nodes[n].output.Some? ==> s.db.nodes[n].output.value < |s.db.artifacts|
    ensures forall n :: n in s.db.nodes && s.db.nodes[n].input.Some? ==> s.db.nodes[n].input.value < |s.db.artifacts|
  {
  }

  lemma {:induction false} OpenNodeKeeps(spec: NodeSpec, s: State)
    requires Valid(s)
    ensures Valid(ApplyOpenNode(spec, s)) && Extends(s.db, ApplyOpenNode(spec, s).db)
  {
    hide CountFor, Extends, ValidDb, RestoreMemory;
    ValidNodes(s);
    NodesKeep(s, ApplyOpenNode(spec, s));
  }

  lemma {:induction false} CloseNodeKeeps(withOutput: bool, s: State)
    requires Valid(s)
    ensures Valid(ApplyCloseNode(withOutput, s)) && Extends(s.db, ApplyCloseNode(withOutput, s).db)
  {
    hide CountFor, Extends, ValidDb, RestoreMemory;
    ValidNodes(s);
    NodesKeep(s, ApplyCloseNode(withOutput, s));
  }

  lemma {:induction false} FailNodeKeeps(status: NodeStatus, exc: Exc, failureClass: Option<FailureClass>, s: State)
    requires Valid(s)
    ensures var t := ApplyFailNode(status, exc, failureClass, s); Valid(t) && Extends(s.db, t.db)
  {
    hide CountFor, Extends, ValidDb, RestoreMemory;
    ValidNodes(s);
    NodesKeep(s, ApplyFailNode(status, exc, failureClass, s));
  }

  lemma {:induction false} SetNodeStatusKeeps(status: NodeStatus, s: State)
    requires Valid(s)
    ensures Valid(SetNodeStatus(status, s)) && Extends(s.db, SetNodeStatus(status, s).db)
  {
    hide CountFor, Extends, ValidDb, RestoreMemory;
    ValidNodes(s);
    NodesKeep(s, SetNodeStatus(status, s));
  }

  lemma {:induction false} RunCommitKeeps(hash: Hasher, c: Commit, s: State)
    requires Valid(s) && (c.OpenRun? || c.ResetForRestart? || c.CloseRun?)
    ensures Valid(Apply(hash, c, s)) && Extends(s.db, Apply(hash, c, s).db)
  {
    hide CountFor, Extends, ValidDb, RestoreMemory;
    ValidNodes(s);
    NodesKeep(s, Apply(hash, c, s));
  }

  lemma {:induction false} StageCommitKeeps(hash: Hasher, c: Commit, s: State)
    requires Valid(s)
    requires c.OpenStage? || c.CloseStage? || c.AddArtifact? || c.TouchRun? || c.BindStage? || c.SetCheckpoint?
    ensures Valid(Apply(hash, c, s)) && Extends(s.db, Apply(hash, c, s).db)
  {
    hide CountFor, Extends, ValidDb, RestoreMemory;
    ValidNodes(s);
    NodesKeep(s, Apply(hash, c, s));
  }

  lemma {:induction false} ClaimCommitKeeps(hash: Hasher, c: Commit, s: State)
    requires Valid(s) && (c.UpsertClaims? || c.ResolveClaims?)
    ensures Valid(Apply(hash, c, s)) && Extends(s.db, Apply(hash, c, s).db)
  {
    hide CountFor, Extends, ValidDb, ApplyClaims, ApplyResolutions;
    ValidNodes(s);
    if c.UpsertClaims? {
      ClaimsOnlyChangeStatus(s.db.claims, c.claims, s.regs.node, s.regs.stage);
    } else {
      ResolutionsOnlyChangeStatus(s.db.claims, c.resolutions);
    }
    NodesKeep(s, Apply(hash, c, s));
  }

  lemma {:induction false} AttemptCommitKeeps(hash: Hasher, c: Commit, s: State)
    requires Valid(s) && (c.OpenAttempt? || c.CloseAttempt? || c.FailAttempt? || c.LinkInput?)
    ensures Valid(Apply(hash, c, s)) && Extends(s.db, Apply(hash, c, s).db)
  {
    hide Valid, Extends, ApplyOpenAttempt, ApplyCloseAttempt, ApplyFailAttempt, ApplyLinkInput;
    match c
    case OpenAttempt => OpenAttemptKeeps(s);
    case CloseAttempt(withHash) => CloseAttemptKeeps(withHash, s);
    case FailAttempt(exc, failureClass, retryable, cancelled) =>
      FailAttemptKeeps(hash, exc, failureClass, retryable, cancelled, s);
    case LinkInput => LinkInputKeeps(s);
  }

  lemma {:induction false} NodeCommitKeeps(hash: Hasher, c: Commit, s: State)
    requires Valid(s) && (c.OpenNode? || c.CloseNode? || c.FailNode? || c.MarkSkipped? || c.AfterFail?)
    ensures Valid(Apply(hash, c, s)) && Extends(s.db, Apply(hash, c, s).db)
  {
    hide ValidDb, Extends, ApplyOpenNode, ApplyCloseNode, ApplyFailNode, SetNodeStatus;
    match c
    case OpenNode(spec) => OpenNodeKeeps(spec, s);
    case CloseNode(withOutput) => CloseNodeKeeps(withOutput, s);
    case FailNode(status, exc, failureClass) => FailNodeKeeps(status, exc, failureClass, s);
    case MarkSkipped => SetNodeStatusKeeps(Skipped, s);
    case AfterFail(_) =>
      SetNodeStatusKeeps(RetryWaiting, s);
      ExtendsItself(s.db);
  }

  lemma {:induction false} ExtendsItself(db: Db)
    ensures Extends(db, db)
  {
  }

  /** Every commit of every recorder keeps the tables valid and only adds to the history. */
  lemma {:induction false} CommitKeepsHistory(hash: Hasher, c: Commit, s: State)
    requires Valid(s)
    ensures Valid(Apply(hash, c, s)) && Extends(s.db, Apply(hash, c, s).db)
  {
    hide Valid, Extends, Apply;
    if c.OpenAttempt? || c.CloseAttempt? || c.FailAttempt? || c.LinkInput? {
      AttemptCommitKeeps(hash, c, s);
    } else if c.UpsertClaims? || c.ResolveClaims? {
      ClaimCommitKeeps(hash, c, s);
    } else if c.OpenNode? || c.CloseNode? || c.FailNode? || c.MarkSkipped? || c.AfterFail? {
      NodeCommitKeeps(hash, c, s);
    } else if c.OpenRun? || c.ResetForRestart? || c.CloseRun? {
      RunCommitKeeps(hash, c, s);
    } else {
      StageCommitKeeps(hash, c, s);
    }
  }

  // ----- any number of recorders -----

  /** A recorder opens with no node or attempt of its own, works, and is lost in a crash. */
  datatype Event = Spawn(id: nat, regs: Regs) | Work(id: nat, commit: Commit) | Crash(lost: set<nat>)

  datatype Fleet = Fleet(recorders: map<nat, Regs>, db: Db)

  function Happen(hash: Hasher, e: Event, f: Fleet): Fleet {
    match e
    case Spawn(id, regs) => f.(recorders := f.recorders[id := regs.(node := None, attempt := None, artifact := None)])
    case Crash(lost) => f.(recorders := f.recorders - lost)
    case Work(id, commit) =>
      if id !in f.recorders then f
      else
        var t := Apply(hash, commit, State(f.recorders[id], f.db));
        Fleet(f.recorders[id := t.regs], t.db)
  }

  function Replay(hash: Hasher, events: seq<Event>, f: Fleet): Fleet {
    if events == [] then f else Happen(hash, events[|events| - 1], Replay(hash, events[..|events| - 1], f))
  }

  /** No two recorders hold the same open attempt. */
  ghost predicate ValidFleet(f: Fleet) {
    && ValidDb(f.db)
    && (forall id :: id in f.recorders ==> ValidRegs(f.recorders[id], f.db))
    && (forall i, j :: i in f.recorders && j in f.recorders && i != j && f.recorders[i].attempt.Some? ==>
          f.recorders[i].attempt != f.recorders[j].attempt)
  }

  /** A commit closes no attempt but its own, and the attempt it holds afterwards is its own or new. */
  lemma {:induction false} CommitTouchesOwnAttempt(hash: Hasher, c: Commit, s: State)
    ensures var t := Apply(hash, c, s);
            && |t.db.attempts| >= |s.db.attempts|
            && (forall a :: 0 <= a < |s.db.attempts| && s.regs.attempt != Some(a) ==> t.db.attempts[a] == s.db.attempts[a])
            && (t.regs.attempt.Some? ==> t.regs.attempt == s.regs.attempt || t.regs.attempt.value >= |s.db.attempts|)
  {
    match c
    case OpenRun(_, _) =>
    case OpenAttempt =>
    case CloseAttempt(_) =>
    case FailAttempt(_, _, _, _) =>
    case LinkInput =>
    case _ =>
  }

  lemma {:induction false} WorkKeepsFleet(f: Fleet, id: nat, t: State)
    requires ValidFleet(f) && id in f.recorders
    requires Valid(t) && Extends(f.db, t.db)
    requires forall a :: 0 <= a < |f.db.attempts| && f.recorders[id].attempt != Some(a) ==> t.db.attempts[a] == f.db.attempts[a]
    requires t.regs.attempt.Some? ==> t.regs.attempt == f.recorders[id].attempt || t.regs.attempt.value >= |f.db.attempts|
    ensures ValidFleet(Fleet(f.recorders[id := t.regs], t.db))
  {
  }

  lemma {:induction false} EventKeepsHistory(hash: Hasher, e: Event, f: Fleet)
    requires ValidFleet(f)
    ensures ValidFleet(Happen(hash, e, f)) && Extends(f.db, Happen(hash, e, f).db)
  {
    if e.Work? && e.id in f.recorders {
      var s := State(f.recorders[e.id], f.db);
      CommitKeepsHistory(hash, e.commit, s);
      CommitTouchesOwnAttempt(hash, e.commit, s);
      WorkKeepsFleet(f, e.id, Apply(hash, e.commit, s));
    }
  }

  /** Append-only history over any sequence of runs, crashes, resumes and forced restarts. */
  lemma {:induction false} HistoryIsAppendOnly(hash: Hasher, events: seq<Event>, f: Fleet)
    requires ValidFleet(f)
    ensures ValidFleet(Replay(hash, events, f)) && Extends(f.db, Replay(hash, events, f).db)
  {
    if events != [] {
      var before := Replay(hash, events[..|events| - 1], f);
      HistoryIsAppendOnly(hash, events[..|events| - 1], f);
      EventKeepsHistory(hash, events[|events| - 1], before);
      ExtendsTransitive(f.db, before.db, Replay(hash, events, f).db);
    }
  }

  /** The attempt numbers of a node, in the order they were opened. */
  function Numbers(attempts: seq<AttemptRow>, n: string): seq<nat> {
    if attempts == [] then []
    else
      var before := Numbers(attempts[..|attempts| - 1], n);
      if attempts[|attempts| - 1].node == n then before + [attempts[|attempts| - 1].no] else before
  }

  /** 1, 2, ..., n */
  function UpTo(n: nat): seq<nat> {
    if n == 0 then [] else UpTo(n - 1) + [n]
  }

  lemma {:induction false} NumbersCount(attempts: seq<AttemptRow>, n: string)
    requires forall a :: 0 <= a < |attempts| ==> attempts[a].no == CountFor(attempts[..a], attempts[a].node) + 1
    ensures Numbers(attempts, n) == UpTo(CountFor(attempts, n))
  {
    hide CountFor, Numbers;
    NoAttempts(n);
    if attempts != [] {
      var front, last := attempts[..|attempts| - 1], attempts[|attempts| - 1];
      forall a | 0 <= a < |front|
        ensures front[a].no == CountFor(front[..a], front[a].node) + 1
      {
        assert front[..a] == attempts[..a];
      }
      NumbersCount(front, n);
      NumbersStep(attempts, n);
      assert last.no == CountFor(front, last.node) + 1;
      UpToStep(CountFor(front, n));
    }
  }

  lemma {:induction false} NoAttempts(n: string)
    ensures CountFor([], n) == 0 && Numbers([], n) == [] == UpTo(0)
  {
  }

  lemma {:induction false} NumbersStep(attempts: seq<AttemptRow>, n: string)
    requires attempts != []
    ensures var front, last := attempts[..|attempts| - 1], attempts[|attempts| - 1];
            CountFor(attempts, n) == CountFor(front, n) + (if last.node == n then 1 else 0)
            && Numbers(attempts, n) == Numbers(front, n) + if last.node == n then [last.no] else []
  {
  }

  lemma {:induction false} UpToStep(n: nat)
    ensures UpTo(n + 1) == UpTo(n) + [n + 1]
  {
  }

  /** From an empty database, whatever happens, each node's attempt numbers are exactly 1, 2, ..., attempt_count. */
  lemma {:induction false} AttemptNumbersAreExact(hash: Hasher, events: seq<Event>, n: string)
    ensures var db := Replay(hash, events, Fleet(map[], EMPTY_DB)).db;
            n in db.nodes ==> Numbers(db.attempts, n) == UpTo(db.nodes[n].attemptCount)
  {
    var f := Fleet(map[], EMPTY_DB);
    HistoryIsAppendOnly(hash, events, f);
    NumbersCount(Replay(hash, events, f).db.attempts, n);
  }

  /** What one moment of a history records, every later moment still records. */
  lemma {:induction false} LaterMomentsExtend(hash: Hasher, events: seq<Event>, i: nat, f: Fleet)
    requires ValidFleet(f) && i <= |events|
    ensures Extends(Replay(hash, events[..i], f).db, Replay(hash, events, f).db)
    decreases |events| - i
  {
    HistoryIsAppendOnly(hash, events[..i], f);
    if i < |events| {
      HistoryIsAppendOnly(hash, events[..i + 1], f);
      assert events[..i + 1][..i] == events[..i];
      EventKeepsHistory(hash, events[i], Replay(hash, events[..i], f));
      LaterMomentsExtend(hash, events, i + 1, f);
      ExtendsTransitive(Replay(hash, events[..i], f).db, Replay(hash, events[..i + 1], f).db, Replay(hash, events, f).db);
    } else {
      assert events[..i] == events;
    }
  }
}
