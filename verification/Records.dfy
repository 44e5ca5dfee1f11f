/** The run records that the control API keeps and the repositories store. */
module Records {
  import opened Core
  import opened Text

  /** A run manifest: the identities and release switches the lifecycle reads, and `faults`, what
      the manifest gate holds against the rest of it. */
  datatype Manifest = Manifest(
    runId: string, taskId: string, autoMerge: bool, autoDeploy: bool, faults: seq<Reason>)

  datatype VerifierReport = VerifierReport(
    taskId: string, runId: string, verifierId: string, verifierRunId: string, codingRunId: string,
    decision: Decision, failureReasons: seq<string>)

  /** An attempt at a run. */
  datatype RunAttempt = RunAttempt(
    attemptId: string, number: int, baseCommit: Option<string>, workspaceId: Option<string>,
    finalStatus: Option<FinalStatus>)

  /** What `POST /runs/{id}/chain` answers and stores. */
  datatype Plan = Plan(runId: string, taskType: TaskType, chainId: ChainId, envelopeReasons: seq<Reason>)

  datatype RunState = Intake | ExecuteChain | VerifyState | PrGateState

  datatype RunRecord = RunRecord(
    runId: string, manifest: Manifest, state: RunState, verifierReport: Option<VerifierReport>,
    chainResult: Option<Plan>, chainExecutionResult: Option<ChainExecutionResult>,
    llmInvocations: seq<string>, tenantId: Option<string>, attempts: seq<RunAttempt>, artifacts: seq<Artifact>)

  function NewRecord(runId: string, manifest: Manifest): RunRecord {
    RunRecord(runId, manifest, Intake, None, None, None, [], None, [], [])
  }

  /** The result without the in-process carrier of its evidence artifacts, which no dump includes. */
  function StrippedResult(r: ChainExecutionResult): ChainExecutionResult {
    r.(evidenceArtifacts := [])
  }

  function Stripped(r: RunRecord): RunRecord {
    match r.chainExecutionResult
    case None => r
    case Some(result) => r.(chainExecutionResult := Some(StrippedResult(result)))
  }

  /** The attempts of a record are those the allocator mints: numbered 1, 2, ..., each with the id
      made from its run and number. */
  ghost predicate MintedAttempts(r: RunRecord) {
    forall i | 0 <= i < |r.attempts| ::
      r.attempts[i].number == i + 1 && r.attempts[i].attemptId == AttemptId(r.runId, i + 1)
  }

  predicate NamesAttempt(r: RunRecord, attemptId: Option<string>) {
    attemptId.Some? && exists i | 0 <= i < |r.attempts| :: r.attempts[i].attemptId == attemptId.value
  }

  /** Every stored artifact names one of the stored attempts. */
  ghost predicate ArtifactsPlaced(r: RunRecord) {
    forall i | 0 <= i < |r.artifacts| :: NamesAttempt(r, r.artifacts[i].attemptId)
  }

  ghost predicate Minted(r: RunRecord) {
    MintedAttempts(r) && ArtifactsPlaced(r)
  }
}
