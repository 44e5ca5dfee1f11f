/** The runtime behind the API: it runs the registered chain of a request as one attempt. */
module Runtime {
  import opened Core
  import opened Text
  import opened ArtifactStore
  import opened Names
  import opened Evidence
  import opened Context
  import opened Executor
  import opened Registry
  import opened Handlers
  import opened ChainRuns
  import opened Thesis
  import opened EvidenceOrder
  import opened Footprint

  datatype Outcome = Outcome(result: ChainExecutionResult, disk: map<string, string>)

  /** Running a request as an attempt, on a disk, in a world, on a tree. */
  type Runner = (map<string, string>, Request, string, World, Option<Snapshot>) -> Outcome

  datatype Configuration = Configuration(
    artifacts: Path, digest: Digest, naming: Naming, checkpoint: (Decision, HandlerResult) -> string)

  function LaunchOf(c: Configuration, disk: map<string, string>, q: Request, attemptId: string, w: World, tree: Option<Snapshot>): Launch {
    NewLaunch(Resolve(q.taskType), w, c.checkpoint, q, Store(c.artifacts, Some(attemptId), c.digest, disk), c.naming, tree, None)
  }

  function OutcomeOf(end: Run, chain: ChainId): Outcome {
    Outcome(ResultOf(end, Some(chain)), end.ctx.ev.store.files)
  }

  function RunnerOf(c: Configuration): Runner {
    (disk: map<string, string>, q: Request, attemptId: string, w: World, tree: Option<Snapshot>) =>
      OutcomeOf(End(LaunchOf(c, disk, q, attemptId, w, tree)), Resolve(q.taskType))
  }

  // --------------------------------------------------------------- what a runner promises

  /** What an attempt leaves behind: a result that asks for no merge and no deployment, artifacts
      that carry the attempt's id and stand under paths of its own directory, and every file
      outside that directory as it was. */
  ghost predicate Contained(dir: Path, digest: string -> string, attemptId: string, disk: map<string, string>, out: Outcome) {
    && !out.result.autoMerge && !out.result.autoDeploy
    && AllPlaced(dir, digest, attemptId, out.disk, out.result.evidenceArtifacts)
    && LeftAlone(dir, disk, out.disk)
  }

  ghost predicate AllPlaced(dir: Path, digest: string -> string, attemptId: string, disk: map<string, string>, artifacts: seq<Artifact>) {
    forall i | 0 <= i < |artifacts| :: Placed(dir, digest, attemptId, disk, artifacts[i])
  }

  ghost predicate LeftAlone(dir: Path, before: map<string, string>, after: map<string, string>) {
    forall path: string {:trigger InDir(dir, path)} :: !InDir(dir, path) ==> SameBytes(before, after, path)
  }

  ghost predicate Placed(dir: Path, digest: string -> string, attemptId: string, disk: map<string, string>, a: Artifact) {
    a.attemptId == Some(attemptId) && Stands(disk, digest, a) && InDir(dir, a.path)
  }

  /** The path of a plain file name in a directory. */
  ghost predicate InDir(dir: Path, path: string) {
    exists f: string :: FileName(f) && path == Render(Join(dir, f))
  }

  /** Attempts stay in their directories, whatever the request, the world and the disk. */
  ghost predicate ContainsAttempts(runner: Runner, root: Path, digest: string -> string) {
    forall disk: map<string, string>, q: Request, attemptId: string, w: World, tree: Option<Snapshot> ::
      Contained(RunDir(root, q.runId, Some(attemptId)), digest, attemptId, disk, runner(disk, q, attemptId, w, tree))
  }

  lemma LayoutInDir(store: Store, runId: string, naming: Naming, n: Name)
    ensures InDir(RunDir(store.root, runId, store.attemptId), LayoutOf(store, runId, naming)(n).path)
  {
    hide RunDir, Join, Render, Plain, Kept;
    assert FileName(naming(n));
  }

  lemma StartOf(c: Configuration, disk: map<string, string>, q: Request, attemptId: string, w: World, tree: Option<Snapshot>)
    ensures var store := Store(c.artifacts, Some(attemptId), c.digest, disk);
            var l := LaunchOf(c, disk, q, attemptId, w, tree);
            && l.start.ev.layout == LayoutOf(store, q.runId, c.naming)
            && l.start.ev.store == store
  {
    hide LayoutOf, EffectsIn, DefaultRegistry, CheckpointSaver, ChainOf;
  }

  /** What stays in the layout of a store stays in its directory. */
  lemma StaysInDir(store: Store, runId: string, naming: Naming, a: Evidence, b: Evidence, attemptId: string)
    requires StaysIn(a, b) && a.layout == LayoutOf(store, runId, naming) && a.store == store && store.attemptId == Some(attemptId)
    ensures var dir := RunDir(store.root, runId, store.attemptId);
            LeftAlone(dir, store.files, b.store.files) && AllPlaced(dir, store.digest, attemptId, b.store.files, b.artifacts)
  {
    hide InDir, RunDir, LayoutOf, SameBytes, Stands, Outside, OwnFile;
    var dir := RunDir(store.root, runId, store.attemptId);
    forall path: string | !InDir(dir, path) ensures SameBytes(store.files, b.store.files, path) {
      OwnIsInDir(store, runId, naming, path);
    }
    forall i | 0 <= i < |b.artifacts| ensures Placed(dir, store.digest, attemptId, b.store.files, b.artifacts[i]) {
      OwnIsInDir(store, runId, naming, b.artifacts[i].path);
    }
  }

  lemma OwnIsInDir(store: Store, runId: string, naming: Naming, path: string)
    ensures InDir(RunDir(store.root, runId, store.attemptId), path) || Outside(LayoutOf(store, runId, naming), path)
    ensures OwnFile(LayoutOf(store, runId, naming), path) ==> InDir(RunDir(store.root, runId, store.attemptId), path)
  {
    hide InDir, RunDir, LayoutOf;
    if !Outside(LayoutOf(store, runId, naming), path) {
      var n: Name :| LayoutOf(store, runId, naming)(n).path == path;
      LayoutInDir(store, runId, naming, n);
    }
  }

  lemma RunnerContains(c: Configuration, disk: map<string, string>, q: Request, attemptId: string, w: World, tree: Option<Snapshot>)
    requires WellFormed(c.artifacts)
    ensures var out := OutcomeOf(End(LaunchOf(c, disk, q, attemptId, w, tree)), Resolve(q.taskType));
            Contained(RunDir(c.artifacts, q.runId, Some(attemptId)), c.digest, attemptId, disk, out)
  {
    hide RunsChain, Careful, EffectsIn, Traced, StaysIn, LeftAlone, AllPlaced, RunDir, LayoutOf, NewLaunch, End, VerdictOf, Resolve,
         VerifierAt, ChainOf, WellFormed;
    var store := Store(c.artifacts, Some(attemptId), c.digest, disk);
    var l, t := RegisteredRuns(Resolve(q.taskType), w, c.checkpoint, q, store, c.naming, tree, None);
    StartOf(c, disk, q, attemptId, w, tree);
    RunStaysIn(l, t);
    StaysInDir(store, q.runId, c.naming, l.start.ev, t[|t| - 1].ctx.ev, attemptId);
  }

  /** The runtime keeps every attempt in the directory of its run and id. */
  lemma RuntimeContainsAttempts(c: Configuration)
    requires WellFormed(c.artifacts)
    ensures ContainsAttempts(RunnerOf(c), c.artifacts, c.digest)
  {
    hide Contained, OutcomeOf, LaunchOf, End, Resolve, WellFormed, RunDir;
    var runner := RunnerOf(c);
    forall disk: map<string, string>, q: Request, attemptId: string, w: World, tree: Option<Snapshot>
      ensures Contained(RunDir(c.artifacts, q.runId, Some(attemptId)), c.digest, attemptId, disk, runner(disk, q, attemptId, w, tree))
    {
      RunnerContains(c, disk, q, attemptId, w, tree);
    }
  }

  class RuntimeExecutor {
    const config: Configuration
    ghost const runner: Runner

    ghost predicate Valid() {
      runner == RunnerOf(config)
    }

    constructor (config: Configuration)
      ensures Valid() && this.config == config
    {
      this.config := config;
      this.runner := RunnerOf(config);
    }

    /** Run the chain of a request on the attempt's own store. */
    method Execute(disk: map<string, string>, q: Request, attemptId: string, w: World, tree: Option<Snapshot>)
      returns (result: ChainExecutionResult, after: map<string, string>)
      requires Valid()
      ensures Outcome(result, after) == runner(disk, q, attemptId, w, tree)
    {
      hide DefaultRegistry, CheckpointSaver, ChainOf, Whole, NewCtx, ResultOf, Resolve, EffectsIn, StartEvidence;
      var store := Store(config.artifacts, Some(attemptId), config.digest, disk);
      var executor := new ChainExecutor(DefaultRegistry(w), CheckpointSaver(config.checkpoint));
      var chain := Resolve(q.taskType);
      var final: Ctx;
      result, final := executor.Execute(q, chain, ChainOf(chain), StartEvidence(q, store, config.naming), tree, None);
      after := final.ev.store.files;
    }
  }
}
