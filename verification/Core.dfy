/** The shared vocabulary of the control plane: decisions, statuses, results, artifacts. */
module Core {

  datatype Option<+T> = None | Some(value: T) {
    function GetOr(default: T): T {
      match this
      case None => default
      case Some(v) => v
    }
  }

  datatype Result<+T, +E> = Ok(value: T) | Err(error: E)

  datatype RunType = ReadOnlyAnalysis | Implementation

  datatype Decision = Pass | Fail | Blocked | Pending

  /** Final status of a chain run. */
  datatype FinalStatus = RunPass | RunFail | RunBlocked

  datatype HandlerType =
    | PureCheck | ReadOnlyCommand | WriteCommand | AgentCall | Verifier | PrAction | EvaluatorType

  datatype HandlerStatus = StatusPass | StatusFail | StatusBlocked | StatusSkipped

  datatype HandlerDecision = Continue | SkipNotApplicable | DecideFail | DecideBlocked | Stop

  datatype PrStatus = Gated | NotRequired | NotReady | PrBlocked

  datatype ArtifactType =
    | DIFF | TEST | LINT | TYPECHECK | BUILD | VERIFIER_REPORT | PR | CHECKPOINT | COMMAND_OUTPUT
    | SCOPE_CHANGE | ANALYSIS_REPORT | SCRUM_MAPPING | STRATEGIC_REVIEW | LLM_INVOCATION

  datatype LedgerResult = EntryPass | EntryFail | EntryBlocked | EntryInfo

  /** The failure reasons of gates and handlers: one constructor-like kind for each sentence of
      the source, and the label, path or name the sentence ends with. */
  datatype ReasonKind =
    | NotLinkedToRun | NotLinkedToTask | SelfCertified | SummaryAsProof | HashMissing
    | CommandWithoutOutput | MutatedInPlace | RequiredMissing
    | SameRunId | SameAgent | SummaryUsed | DoneWithoutVerifier
    | NoTestsRan | SkippedUnapproved | ClaimedWithoutRunning | ExitCodeMissing
    | NoOutput | Truncated | CommandFailed
    | HarnessFile | ProtectedFile | OutOfScopeFile | OutsideScope
    | MergeRequested | DeployRequested | PrMissing
    | GateFailed | NotImplemented | NotApplicable | AuthorityViolation
    | EvidenceMissing | CommandRejected | NotReproduced | CheckFailed | RepositoryChanged
    | IdentityMismatch | PathForbidden | WorkspaceRefused

  /** What a reason is about: a label, or an artifact type when there is no better label. */
  datatype Subject = Named(name: string) | Typed(artifactType: ArtifactType)

  datatype Reason = Reason(kind: ReasonKind, about: Subject)

  datatype GateName =
    | EvidenceGateName | SelfCertificationGateName | TestGateName | ScopeGateName
    | StrategicGateName | ManifestGateName | EnvelopeGateName | ScrumGateName | PrGateName

  /** A gate's verdict: it passed exactly when it has no reasons. */
  datatype GateResult = GateResult(gate: GateName, reasons: seq<Reason>) {
    predicate Passed() { reasons == [] }
  }

  datatype Artifact = Artifact(
    name: string, runId: string, taskId: string, artifactType: ArtifactType,
    path: string, hash: string, attemptId: Option<string>, recordedBy: string)

  /** The registered handlers, in the order of their modules, and the name the API gives to the
      result of a refused workspace. */
  datatype HandlerName =
    | ManifestValidation | ScrumMapping | DefinitionOfDoneLock | ScopeValidation | EvidenceGate
    | StopOrLoop | RepoInventory | CommandDiscovery | CIInventory | DependencyInventory
    | ReadOnlyCompliance | AnalysisAgentInvocation | StructuredOutputParser | AIReadinessScoring
    | StrategicProgrammingAssessment | BacklogFindingGenerator | BacklogUpdate | StrategicDesignGate
    | AgentInvocation | AgentOutputQuarantine | DiffCapture | TestRunner | StaticCheck | ScopeDiff
    | FailureReproduction | AnalysisVerifier | ImplementationVerifier | Evaluator | MemoryUpdate | PRGate
    | DocumentationGap | LinkCheck | DocumentationVerifier | SecurityReviewTestsNotApplicable | SecretScan
    | DependencyVulnerability | AuthChangeRisk | InputValidationRisk | SecurityVerifier | DependencyRisk
    | LicenseCheck | LockfileValidation | Build | CIFailureLogParser | FailureClassification | Reproduction
    | CIConfigValidation | WorkspacePolicy

  datatype TaskType =
    | AiReadinessAudit | ImplementationTask | BugFix | SecurityReview | DependencyUpdate
    | DocumentationUpdate | CiFailureRepair | Refactor | TestCoverageExpansion

  datatype ChainId =
    | AiReadinessAuditChain | ImplementationChain | BugFixChain | SecurityReviewChain
    | DependencyUpdateChain | DocumentationUpdateChain | CiFailureRepairChain

  /** What else a result carries along. `metadata` has the keys other than the pull request status, each
      with its value as JSON text. */
  datatype Details = Details(
    evidenceRefs: seq<string>, nextHandler: string, corrections: seq<string>, metadata: map<string, string>)

  const NO_DETAILS := Details([], "", [], map[])

  /** Nothing but some metadata. */
  function Noted(metadata: map<string, string>): Details {
    NO_DETAILS.(metadata := metadata)
  }

  datatype HandlerResult = HandlerResult(
    handlerName: HandlerName, handlerType: HandlerType, status: HandlerStatus, decision: HandlerDecision,
    artifactsCreated: seq<string>, gateResults: seq<GateResult>, failureReasons: seq<Reason>,
    prStatus: Option<PrStatus>, details: Details := NO_DETAILS)

  /** What a run comes to. Only the executor makes one, and no handler changes it. */
  datatype ChainExecutionResult = ChainExecutionResult(
    runId: string, taskId: string, taskType: TaskType, chainId: Option<ChainId>, mode: RunType,
    handlerResults: seq<HandlerResult>, finalStatus: FinalStatus, verifierDecision: Decision,
    evalScore: Option<real>, prStatus: PrStatus, selfCertificationUsed: bool,
    autoMerge: bool, autoDeploy: bool, evidenceArtifacts: seq<Artifact>)

  const NOTHING := Named("")

  /** The first string, or the second where the first is empty. */
  function Or(a: string, b: string): string { if a != "" then a else b }

  /** One reason when the condition holds, none otherwise. */
  function When(c: bool, kind: ReasonKind, about: Subject): seq<Reason> {
    if c then [Reason(kind, about)] else []
  }
}
