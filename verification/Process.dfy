/** A whole run over time: processes open the run in any way, node executions interleave, the driver commits between them, and
    a crash may fall anywhere. Inputs, node functions and their failures are arbitrary. */
module Process {
  import opened Json
  import opened Workflow
  import opened Store
  import opened Execution

  /** What stays the same across crashes, resumes and restarts. */
  datatype Setup = Setup(hash: Hasher, nodes: seq<NodeSpec>, enabled: nat -> bool)

  /** How the process that is up opened the run: for the first time, resumed with or without a checkpoint, or once more
      without resuming it. */
  datatype Opening = FirstTime | FromCheckpoint | WithoutCheckpoint | Again

  /** Everything but `db` belongs to the process that is up. `direct` is the node that the coordinator executes on its own
      recorder; all others run on recorders of their own, which start with `scope`. */
  datatype Sys = Sys(
    db: Db,
    up: bool,
    main: Regs,
    scope: Memory,
    results: map<nat, Option<Json>>,
    workers: map<nat, Worker>,
    direct: Option<nat>,
    halted: bool,
    opening: Opening)

  const INITIAL := Sys(EMPTY_DB, false, EMPTY_REGS, EMPTY_MEMORY, map[], map[], None, false, FirstTime)

  datatype Event =
    | Boot(resume: bool, force: bool)
    | Reset
    | Crash
    | OpenScope
    | SyncMain
    | BindMain(key: string, content: Json)
    | Drive(commit: Commit)
    | FailRun(exc: Exc, failure: Failure)
    | Admit(i: nat, payload: Option<Payload>, env: Env, outputKind: Option<ArtifactType>, failClosed: bool, direct: bool)
    | Step(i: nat)
    | Collect(i: nat)

  /** What the driver commits itself, between node executions. */
  predicate DriverCommit(c: Commit, main: Regs) {
    || c.OpenStage? || c.CloseStage? || c.CloseRun? || c.TouchRun? || c.BindStage? || c.SetCheckpoint? || c.LinkInput?
    || c.UpsertClaims? || c.ResolveClaims?
    || (c.AddArtifact? && (c.content.Document? || c.content.memory == main.memory))
  }

  function ScopedRegs(main: Regs, memory: Memory): Regs {
    EMPTY_REGS.(stage := main.stage, resume := main.resume, force := main.force, memory := memory)
  }

  function OpeningOf(db: Db, resumed: bool): Opening {
    if db.run.None? then FirstTime
    else if !resumed then Again
    else if HasCheckpoint(db) then FromCheckpoint
    else WithoutCheckpoint
  }

  function Booted(resume: bool, force: bool, db: Db): Sys {
    var t := ApplyOpenRun(resume, force, State(EMPTY_REGS, db));
    INITIAL.(db := t.db, up := true, main := t.regs, opening := OpeningOf(db, t.regs.resume))
  }

  ghost predicate Admissible(w: Setup, e: Event, s: Sys) {
    e.Admit? && s.up && !s.halted && s.direct.None? && e.i < |w.nodes| && e.i !in s.results && e.i !in s.workers
    && e.env.hash == w.hash && (e.direct ==> s.workers == map[])
  }

  function Admitted(w: Setup, e: Event, s: Sys): Worker
    requires e.Admit? && e.i < |w.nodes|
  {
    var job := Job(w.nodes[e.i], e.payload, e.outputKind, e.failClosed, w.enabled(e.i));
    Start(job, e.env, if e.direct then s.main else ScopedRegs(s.main, s.scope))
  }

  function Stepped(i: nat, s: Sys): Sys
    requires i in s.workers
  {
    var next := Move(Config(s.workers[i], s.db));
    s.(workers := s.workers[i := next.worker], db := next.db)
  }

  /** A direct execution leaves the coordinator's recorder as it is at its end. */
  function Collected(i: nat, s: Sys): Sys
    requires i in s.workers && s.workers[i].control.Done?
  {
    var worker := s.workers[i];
    var left := s.(workers := s.workers - {i}, direct := None, main := if s.direct == Some(i) then worker.regs else s.main);
    match worker.control.verdict
    case Returned(result) => left.(results := s.results[i := result.output])
    case Raised(_) => left.(halted := true)
  }

  /** What the coordinator's own thread does between its executions; while it executes a node itself, nothing. */
  function MainStep(w: Setup, e: Event, s: Sys): Sys {
    match e
    case Reset =>
      if !s.main.force || s.main.memory != EMPTY_MEMORY || s.scope != EMPTY_MEMORY || s.workers != map[] || s.results != map[]
      then s else s.(db := Apply(w.hash, ResetForRestart, State(s.main, s.db)).db)
    case OpenScope => s.(scope := s.main.memory.(outputHashes := map[]))
    case SyncMain => s.(main := s.main.(memory := Sync(s.main.memory, s.db)))
    case BindMain(key, content) => s.(main := Bound(State(s.main, s.db), key, w.hash(Document(content))).regs)
    case Drive(c) =>
      if !DriverCommit(c, s.main) then s
      else
        var t := Apply(w.hash, c, State(s.main, s.db));
        s.(main := t.regs, db := t.db)
    case FailRun(exc, failure) =>
      // in one transaction, and then the process is over
      if s.workers != map[] then s
      else INITIAL.(db := After(w.hash, FailRunProgram(exc, failure, State(s.main, s.db)), State(s.main, s.db)).db)
    case _ => s
  }

  ghost function Happen(w: Setup, e: Event, s: Sys): Sys {
    match e
    case Crash => INITIAL.(db := s.db)
    case Boot(resume, force) => if s.up then s else Booted(resume, force, s.db)
    case Admit(i, _, _, _, _, direct) =>
      if Admissible(w, e, s)
      then s.(workers := s.workers[i := Admitted(w, e, s)], direct := if direct then Some(i) else None) else s
    case Step(i) => if s.up && i in s.workers then Stepped(i, s) else s
    case Collect(i) => if s.up && i in s.workers && s.workers[i].control.Done? then Collected(i, s) else s
    case _ => if s.up && s.direct.None? then MainStep(w, e, s) else s
  }

  ghost function Replay(w: Setup, events: seq<Event>): Sys {
    if events == [] then INITIAL else Happen(w, events[|events| - 1], Replay(w, events[..|events| - 1]))
  }

  predicate Durable(db: Db, n: string) {
    n in db.nodes && Success(db.nodes[n].status)
  }
}
