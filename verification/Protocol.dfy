/** The runs that can be compared with an uninterrupted one: the plan's inputs and what node functions return do not change,
    and no enabled node gives up without raising. */
module Protocol {
  import opened Json
  import opened Workflow
  import opened Store
  import opened Execution
  import opened Plan
  import opened Process

  /** What stays the same across crashes and resumes: the plan, the inputs it builds, and what node functions return. */
  datatype World = World(
    hash: Hasher,
    nodes: seq<NodeSpec>,
    payload: (nat, map<nat, Option<Json>>) -> Option<Payload>,
    value: (nat, Option<Payload>) -> Option<Json>,
    enabled: nat -> bool)

  function Base(w: World): Setup {
    Setup(w.hash, w.nodes, w.enabled)
  }

  // ----- the simple form: evaluate the plan once, in order -----

  /** The output of node i when nothing ever fails or crashes: its function applied to the outputs it depends on. */
  ghost function Ref(w: World, i: nat): Option<Json>
    requires i < |w.nodes|
    decreases i, 2
  {
    if w.enabled(i) then w.value(i, RefPayload(w, i)) else None
  }

  ghost function RefPayload(w: World, i: nat): Option<Payload>
    requires i < |w.nodes|
    decreases i, 1
  {
    w.payload(i, RefInputs(w, i))
  }

  ghost function RefInputs(w: World, i: nat): map<nat, Option<Json>>
    requires i < |w.nodes|
    decreases i, 0
  {
    map j: nat | j < i && Reaches(w.nodes, i, j) :: Ref(w, j)
  }

  // ----- the runs -----

  /** A node function may fail as it likes; whenever it returns, it returns the same value, in every context mode. */
  ghost predicate Deterministic(w: World, i: nat, payload: Option<Payload>, env: Env) {
    env.hash == w.hash
    && forall calls, mode :: env.invoke(calls, mode).Returns? ==> env.invoke(calls, mode).output == w.value(i, payload)
  }

  /** The results a node's input may be built from. */
  function Visible(w: World, i: nat, results: map<nat, Option<Json>>): map<nat, Option<Json>>
    requires i < |w.nodes|
  {
    map j: nat | j in results && j < i && Reaches(w.nodes, i, j) :: results[j]
  }

  predicate Ready(w: World, i: nat, results: map<nat, Option<Json>>)
    requires i < |w.nodes|
  {
    forall j: nat :: j < i && Reaches(w.nodes, i, j) ==> j in results
  }

  /** A call that gives up on an enabled node without raising: only nodes that are not mandatory can. */
  predicate GivesUp(worker: Worker) {
    worker.job.enabled && worker.control.Conclude? && worker.control.pending.Returned?
    && worker.control.pending.result.status != Succeeded
  }

  function FullKey(n: string): string {
    InputKey(n, Full)
  }

  /** No node stores its full input under this key. */
  predicate ForeignKey(w: World, key: string) {
    forall i :: 0 <= i < |w.nodes| ==> key != FullKey(w.nodes[i].key)
  }

  /** The input of node i is built from the results it depends on, and its function returns what it always does. */
  ghost predicate RegularCall(w: World, i: nat, payload: Option<Payload>, env: Env, results: map<nat, Option<Json>>) {
    i < |w.nodes| && Ready(w, i, results) && payload == w.payload(i, Visible(w, i, results)) && Deterministic(w, i, payload, env)
  }

  /** The events of the runs considered here. */
  ghost predicate Regular(w: World, e: Event, s: Sys) {
    match e
    case Admit(i, payload, env, _, _, _) => RegularCall(w, i, payload, env, s.results)
    case Step(i) => i in s.workers ==> !GivesUp(Move(Config(s.workers[i], s.db)).worker)
    case BindMain(key, _) => ForeignKey(w, key)
    case Drive(c) =>
      c.AddArtifact? && c.kind == Input && EndsWith(c.key, ".input") ==> ForeignKey(w, c.key[..|c.key| - 6])
    case _ => true
  }

  ghost function RegularHappen(w: World, e: Event, s: Sys): Sys {
    if Regular(w, e, s) then Happen(Base(w), e, s) else s
  }

  /** The run that these events make, without those that are not regular. */
  ghost function RegularReplay(w: World, events: seq<Event>): Sys {
    if events == [] then INITIAL
    else RegularHappen(w, events[|events| - 1], RegularReplay(w, events[..|events| - 1]))
  }

  // ----- what every such run keeps besides -----

  /** A digest stored for a node's full input is the digest of that node's reference input. */
  ghost predicate Fits(w: World, key: string, digest: Digest) {
    forall i :: 0 <= i < |w.nodes| && key == FullKey(w.nodes[i].key) ==>
      RefPayload(w, i).Some? && digest == w.hash(Document(RefPayload(w, i).value))
  }

  ghost predicate HashesFit(w: World, hashes: map<string, Digest>) {
    forall key :: key in hashes ==> Fits(w, key, hashes[key])
  }

  ghost predicate ArtifactOk(w: World, row: ArtifactRow) {
    && (RecordsInput(row) ==> Fits(w, row.key[..|row.key| - 6], row.hash))
    && (row.content.Snapshot? ==> HashesFit(w, row.content.memory.inputHashes))
  }

  ghost predicate ArtifactsOk(w: World, db: Db) {
    forall a :: 0 <= a < |db.artifacts| ==> ArtifactOk(w, db.artifacts[a])
  }
}
