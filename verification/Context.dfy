/** The context that a chain run threads through its handlers. */
module Context {
  import opened Core
  import opened Gates
  import opened Evidence

  datatype Candidate = Candidate(
    agentRunId: string, summary: string, rawOutput: string, diff: string,
    gitStatus: string, diffCheck: string, changedFiles: seq<string>)

  /** The `exit_code` of a captured outcome: the key may be absent, null or a number. */
  datatype ExitKey = NoKey | NullCode | Code(value: int)

  datatype LogItem = LogItem(command: Option<string>, exitCode: ExitKey)

  /** Caller-supplied outcomes, perhaps under a caption of the caller's own, or commands to run. */
  datatype RunPlan = RunPlan(outcomes: seq<LogItem>, commands: seq<string>, caption: Option<string> := None)

  /** The request metadata the handlers read. `design` is the supplied strategic design, as the
      reasons its gate finds against it. */
  datatype Metadata = Metadata(
    design: Option<seq<Reason>>, candidate: Option<Candidate>, codingAgentRunId: string,
    testsNotApplicable: bool, tests: RunPlan, reproduction: Option<RunPlan>)

  datatype Request = Request(
    runId: string, taskId: string, taskType: TaskType, mode: RunType,
    inScope: seq<string>, outOfScope: seq<string>, dodVersion: string,
    envelopeReasons: seq<Reason>, scrumReasons: seq<Reason>, meta: Metadata)

  /** A supplied manifest: its gate's reasons and the identities it carries. */
  datatype ManifestView = ManifestView(reasons: seq<Reason>, codingRunId: string, verifierRunId: string)

  /** A repository tree as a snapshot has it: relative path to file hash. */
  type Snapshot = map<string, string>

  /** What the handlers accumulate besides evidence. */
  datatype Work = Work(
    manifest: Option<ManifestView>, lockedDod: Option<string>, strategic: Option<seq<Reason>>,
    changedFiles: seq<string>, testOutcomes: seq<TestOutcome>,
    codingRunId: string, verifierRunId: string,
    summaryQuarantined: bool, selfCertificationUsed: bool, evalScore: Option<real>,
    candidate: Option<Candidate>, reproduced: bool, agentOutput: Option<string>)

  /** `repo` is the tree on disk now, absent when its path does not exist; `repoSnapshot` is the
      snapshot taken once, before the first handler. */
  datatype Ctx = Ctx(
    request: Request, ev: Evidence, repo: Option<Snapshot>, repoSnapshot: Snapshot,
    verifierDecision: Decision, work: Work)

  function EmptyWork(manifest: Option<ManifestView>): Work {
    Work(manifest, None, None, [], [], "", "", false, false, None, None, false, None)
  }

  function Snapshot0(repo: Option<Snapshot>): Snapshot {
    repo.GetOr(map[])
  }

  function NewCtx(request: Request, ev: Evidence, repo: Option<Snapshot>, manifest: Option<ManifestView>): Ctx {
    Ctx(request, ev, repo, Snapshot0(repo), Pending, EmptyWork(manifest))
  }
}
