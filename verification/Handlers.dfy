/**
 The registered handlers. What a handler does is an effect: the files it writes, the parts of the
 context it sets, and its result; `Applied` carries an effect out. What the handlers learn from
 outside (git, commands, a model, scanners) comes from a `World`.
 */
module Handlers {
  import opened Core
  import opened Gates
  import opened EvidenceWriter
  import opened Names
  import opened Evidence
  import opened Context
  import opened Executor

  // -------------------------------------------------------------------- the world

  datatype GitTree =
    | NotARepository
    | Tree(diff: string, status: string, check: string, checkOk: bool, changed: seq<string>)

  datatype CommandRun = Rejected | Finished(exitCode: Option<int>)

  /** What an auxiliary check finds: it does not apply, lacks its evidence, or leaves a record. */
  datatype AuxOutcome =
    | AuxSkip
    | AuxBlock
    | AuxRecord(data: string, command: string, result: LedgerResult, failures: seq<Reason>, details: Details := NO_DETAILS)

  /** The analyst stage: the outputs of its four read-only tools, and what the model replied. */
  datatype Analyst =
    | NoAnalyst
    | Analyst(tools: (Option<string>, Option<string>, Option<string>, Option<string>), reply: Option<ModelReply>)

  datatype ModelReply = ModelReply(model: string, prompt: string, text: string, record: string)

  /** What the parser makes of the analyst's answer: the findings, and how confident they are, as JSON text. */
  datatype Findings = Findings(data: string, confidence: string)

  datatype World = World(
    matcher: Matcher,
    text: Name -> string,
    repoAfter: HandlerName -> Option<Snapshot>,
    git: GitTree,
    run: (HandlerName, nat) -> CommandRun,
    aux: HandlerName -> AuxOutcome,
    analyst: Analyst,
    parsed: Option<Findings>,
    score: seq<LedgerEntry> -> real,
    joined: seq<string> -> string)  // the commands, joined into the one that the ledger shows

  // ---------------------------------------------------------------- result builders

  function TypeOf(h: HandlerName): HandlerType {
    match h
    case RepoInventory => ReadOnlyCommand
    case CommandDiscovery => ReadOnlyCommand
    case CIInventory => ReadOnlyCommand
    case DependencyInventory => ReadOnlyCommand
    case AIReadinessScoring => ReadOnlyCommand
    case BacklogFindingGenerator => ReadOnlyCommand
    case BacklogUpdate => ReadOnlyCommand
    case DocumentationGap => ReadOnlyCommand
    case SecretScan => ReadOnlyCommand
    case Build => ReadOnlyCommand
    case CIFailureLogParser => ReadOnlyCommand
    case AnalysisAgentInvocation => ReadOnlyCommand
    case StructuredOutputParser => ReadOnlyCommand
    case AgentInvocation => AgentCall
    case DiffCapture => ReadOnlyCommand
    case TestRunner => ReadOnlyCommand
    case StaticCheck => ReadOnlyCommand
    case FailureReproduction => ReadOnlyCommand
    case Reproduction => ReadOnlyCommand
    case AnalysisVerifier => Verifier
    case ImplementationVerifier => Verifier
    case DocumentationVerifier => Verifier
    case SecurityVerifier => Verifier
    case Evaluator => EvaluatorType
    case PRGate => PrAction
    case _ => PureCheck
  }

  function Done(h: HandlerName, decision: HandlerDecision, artifacts: seq<string>, gates: seq<GateResult>): HandlerResult {
    HandlerResult(h, TypeOf(h), StatusPass, decision, artifacts, gates, [], None)
  }

  function Failed(h: HandlerName, reasons: seq<Reason>, blocked: bool, gates: seq<GateResult>): HandlerResult {
    HandlerResult(h, TypeOf(h), if blocked then StatusBlocked else StatusFail,
                  if blocked then DecideBlocked else DecideFail, [], gates, reasons, None)
  }

  function Skipped(h: HandlerName): HandlerResult {
    HandlerResult(h, TypeOf(h), StatusSkipped, SkipNotApplicable, [], [], [Reason(NotApplicable, NOTHING)], None)
  }

  function AllReasons(gates: seq<GateResult>): seq<Reason> {
    if gates == [] then [] else AllReasons(gates[..|gates| - 1]) + gates[|gates| - 1].reasons
  }

  /** The result of a handler that is nothing but its gates. */
  function FromGates(h: HandlerName, gates: seq<GateResult>): HandlerResult {
    if AllReasons(gates) != [] then Failed(h, AllReasons(gates), false, gates) else Done(h, Continue, [], gates)
  }

  ghost predicate AllPassed(gates: seq<GateResult>) {
    forall i | 0 <= i < |gates| :: gates[i].Passed()
  }

  lemma {:induction false} GatesAggregate(gates: seq<GateResult>)
    ensures AllReasons(gates) == [] <==> AllPassed(gates)
  {
    if gates != [] {
      var n := |gates| - 1;
      GatesAggregate(gates[..n]);
      if AllPassed(gates) { assert forall i | 0 <= i < n :: gates[..n][i] == gates[i]; }
      if AllPassed(gates[..n]) && gates[n].Passed() {
        forall i | 0 <= i < |gates| ensures gates[i].Passed() { if i < n { assert gates[..n][i].Passed(); } }
      }
    }
  }

  // ------------------------------------------------------------------------ effects

  /** `finalStatus` is set by the one handler that finalizes the ledger, and `declaresNoTests` by
      the one that declares tests not applicable. */
  datatype Effect = Effect(
    ops: seq<Op>, work: Work, finalStatus: Option<Decision>, declaresNoTests: bool, result: HandlerResult)

  function Plainly(c: Ctx, r: HandlerResult): Effect {
    Effect([], c.work, None, false, r)
  }

  function Closed(ev: Evidence, status: Option<Decision>): Evidence {
    if status.Some? then ev.(writer := Finalize(ev.writer, status.value)) else ev
  }

  function RequestAfter(q: Request, e: Effect): Request {
    if e.declaresNoTests then q.(meta := q.meta.(testsNotApplicable := true)) else q
  }

  function Applied(c: Ctx, e: Effect, repo: Option<Snapshot>): Ctx {
    Ctx(RequestAfter(c.request, e), Closed(PerformAll(c.ev, e.ops), e.finalStatus), repo, c.repoSnapshot,
        c.verifierDecision, e.work)
  }

  // -------------------------------------------------------------- auxiliary checks

  datatype AuxFile = AuxFile(name: Name, artifactType: ArtifactType)

  /** Checks that leave one record and a verdict; their findings come from the world. */
  function AuxFileOf(h: HandlerName): Option<AuxFile> {
    match h
    case RepoInventory => Some(AuxFile(Inventory(RepoTree), ANALYSIS_REPORT))
    case CommandDiscovery => Some(AuxFile(Inventory(CommandDiscoveryLog), ANALYSIS_REPORT))
    case CIInventory => Some(AuxFile(Inventory(CiInventoryLog), ANALYSIS_REPORT))
    case DependencyInventory => Some(AuxFile(Inventory(DependencyInventoryLog), ANALYSIS_REPORT))
    case AIReadinessScoring => Some(AuxFile(Assessment(ReadinessReport), ANALYSIS_REPORT))
    case StrategicProgrammingAssessment => Some(AuxFile(Assessment(StrategicAssessment), STRATEGIC_REVIEW))
    case BacklogFindingGenerator => Some(AuxFile(Assessment(GapBacklog), ANALYSIS_REPORT))
    case BacklogUpdate => Some(AuxFile(Assessment(SprintPlan), ANALYSIS_REPORT))
    case DocumentationGap => Some(AuxFile(Documents(DocumentationGapLog), ANALYSIS_REPORT))
    case LinkCheck => Some(AuxFile(Documents(LinkCheckLog), COMMAND_OUTPUT))
    case SecretScan => Some(AuxFile(Scan(SecretScanLog), COMMAND_OUTPUT))
    case DependencyVulnerability => Some(AuxFile(Scan(VulnerabilityLog), ANALYSIS_REPORT))
    case AuthChangeRisk => Some(AuxFile(Scan(AuthRiskLog), ANALYSIS_REPORT))
    case InputValidationRisk => Some(AuxFile(Scan(InputRiskLog), COMMAND_OUTPUT))
    case DependencyRisk => Some(AuxFile(Repair(DependencyRiskLog), ANALYSIS_REPORT))
    case LicenseCheck => Some(AuxFile(Repair(LicenseLog), COMMAND_OUTPUT))
    case LockfileValidation => Some(AuxFile(Repair(LockfileLog), COMMAND_OUTPUT))
    case Build => Some(AuxFile(Repair(BuildOutput), BUILD))
    case CIFailureLogParser => Some(AuxFile(Repair(CiParsedLog), COMMAND_OUTPUT))
    case FailureClassification => Some(AuxFile(Repair(CiClassificationLog), ANALYSIS_REPORT))
    case CIConfigValidation => Some(AuxFile(Repair(CiConfigLog), COMMAND_OUTPUT))
    case _ => None
  }

  function AuxCheck(h: HandlerName, file: AuxFile, w: World, c: Ctx): Effect {
    match w.aux(h)
    case AuxSkip => Plainly(c, Skipped(h))
    case AuxBlock => Plainly(c, Failed(h, [Reason(EvidenceMissing, NOTHING)], true, []))
    case AuxRecord(data, command, result, failures, details) =>
      Effect([Record(file.name, data, file.artifactType, result, command, "check")], c.work, None, false,
             if failures != [] then Failed(h, failures, false, [])
             else Done(h, Continue, [PathOf(c.ev, file.name)], []).(details := details))
  }

  // ---------------------------------------------------------------------- control

  function ManifestCheck(c: Ctx): Effect {
    var gates := [GateResult(EnvelopeGateName, c.request.envelopeReasons)]
                 + if c.work.manifest.Some? then [GateResult(ManifestGateName, c.work.manifest.value.reasons)] else [];
    var work := if c.work.manifest.Some?
                then c.work.(codingRunId := c.work.manifest.value.codingRunId,
                             verifierRunId := c.work.manifest.value.verifierRunId)
                else c.work;
    Effect([], work, None, false, FromGates(ManifestValidation, gates))
  }

  function ScrumCheck(c: Ctx): Effect {
    Plainly(c, FromGates(ScrumMapping, [GateResult(ScrumGateName, c.request.scrumReasons)]))
  }

  function DodLockCheck(w: World, c: Ctx): Effect {
    var version := c.request.dodVersion;
    if version == "" || (c.work.lockedDod.Some? && c.work.lockedDod.value != version) then
      Plainly(c, Failed(DefinitionOfDoneLock, [Reason(CheckFailed, NOTHING)], false, []))
    else
      Effect([Record(Verdict(DodLock), w.text(Verdict(DodLock)), SCRUM_MAPPING, EntryInfo, "", "dod")],
             c.work.(lockedDod := Some(version)), None, false, Done(DefinitionOfDoneLock, Continue, [], []))
  }

  function ScopeCheck(c: Ctx): Effect {
    Plainly(c, if c.request.mode == Implementation && c.request.inScope == []
               then Failed(ScopeValidation, [Reason(CheckFailed, NOTHING)], false, [])
               else Done(ScopeValidation, Continue, [], []))
  }

  /** The artifact types the evidence gate handler asks for; it goes by the request's own mode. */
  function RequiredByMode(q: Request): seq<ArtifactType> {
    if q.mode == Implementation then (if q.meta.testsNotApplicable then [DIFF] else [DIFF, TEST])
    else [ANALYSIS_REPORT]
  }

  function EvidenceGateOf(c: Ctx, required: seq<ArtifactType>): GateResult {
    GateResult(EvidenceGateName, EvidenceReasons(c.ev.writer.ledger, c.ev.runId, c.ev.taskId, required))
  }

  function EvidenceCheck(c: Ctx): Effect {
    Plainly(c, FromGates(EvidenceGate, [EvidenceGateOf(c, RequiredByMode(c.request))]))
  }

  /** The last handler closes the ledger; where nobody decided it closes as BLOCKED. */
  function StopCheck(c: Ctx): Effect {
    var final := if c.verifierDecision == Pending then Blocked else c.verifierDecision;
    Effect([], c.work, Some(final), false, Done(StopOrLoop, Stop, [], []))
  }

  // --------------------------------------------------------------------- analysis

  function ComplianceCheck(c: Ctx): Effect {
    Plainly(c, if c.repo.GetOr(map[]) != c.repoSnapshot
               then Failed(ReadOnlyCompliance, [Reason(RepositoryChanged, NOTHING)], false, [])
               else Done(ReadOnlyCompliance, Continue, [], []))
  }

  function ToolOp(file: AgentFile, output: Option<string>): seq<Op> {
    if output.Some? then [Record(Agent(file), output.value, COMMAND_OUTPUT, EntryInfo, "tool", "tool_executor")] else []
  }

  function ToolOps(w: World): seq<Op>
    requires w.analyst.Analyst?
  {
    ToolOp(ToolRepoTree, w.analyst.tools.0) + ToolOp(ToolCommands, w.analyst.tools.1)
    + ToolOp(ToolCi, w.analyst.tools.2) + ToolOp(ToolDependencies, w.analyst.tools.3)
  }

  const ANALYST_NAME := "analysis-agent"

  /** The optional analyst: tool runs are evidence, the model's answer is quarantined. */
  function AnalystStage(w: World, c: Ctx): Effect {
    if w.analyst.NoAnalyst? then Plainly(c, Skipped(AnalysisAgentInvocation))
    else if w.analyst.reply.None? then
      Effect(ToolOps(w), c.work, None, false,
             Failed(AnalysisAgentInvocation, [Reason(EvidenceMissing, NOTHING)], true, []))
    else
      var r := w.analyst.reply.value;
      Effect(ToolOps(w) + (Invoke(1, r.model, r.prompt, r.text, r.record)
                           + [Hold(RAW_FILE, r.text, "analyst"), Hold(SUMMARY_FILE, w.text(SUMMARY_FILE), "analyst")]),
             c.work.(agentOutput := Some(r.text), codingRunId := Or(r.model, ANALYST_NAME)), None, false,
             Done(AnalysisAgentInvocation, Continue, [], []).(details := AnalystDetails(r.model)))
  }

  function AnalystDetails(model: string): Details {
    Noted(map["used_as_evidence" := "false", "model_id" := model])
  }

  const IGNORED_CLAIM := Noted(map["used_as_evidence" := "false", "claimed_status" := "IGNORED"])

  function ParseStage(w: World, c: Ctx): Effect {
    if c.work.agentOutput.None? then Plainly(c, Skipped(StructuredOutputParser))
    else if w.parsed.None? then
      Plainly(c, Failed(StructuredOutputParser, [Reason(CheckFailed, NOTHING)], true, []))
    else
      Effect([Hold(Agent(StructuredOutput), w.parsed.value.data, "parser")], c.work, None, false,
             Done(StructuredOutputParser, Continue, [], []).(details := Noted(map["confidence" := w.parsed.value.confidence])))
  }

  // --------------------------------------------------------------- implementation

  function DesignCheck(c: Ctx): Effect {
    match c.request.meta.design
    case None => Plainly(c, Failed(StrategicDesignGate, [Reason(EvidenceMissing, NOTHING)], true, []))
    case Some(reasons) =>
      Effect([], c.work.(strategic := Some(reasons)), None, false,
             FromGates(StrategicDesignGate, [GateResult(StrategicGateName, reasons)]))
  }

  /** What an agent says of its own work is held back, and kept out of the ledger. */
  function AgentStage(c: Ctx): Effect {
    var meta := c.request.meta;
    match meta.candidate
    case None =>
      if meta.codingAgentRunId != "" then
        Effect([], c.work.(codingRunId := meta.codingAgentRunId), None, false, Skipped(AgentInvocation))
      else Plainly(c, Failed(AgentInvocation, [Reason(EvidenceMissing, NOTHING)], true, []))
    case Some(candidate) =>
      Effect([Hold(SUMMARY_FILE, candidate.summary, "agent"), Hold(RAW_FILE, candidate.rawOutput, "agent")],
             c.work.(candidate := Some(candidate), codingRunId := Or(candidate.agentRunId, c.work.codingRunId)),
             None, false, Done(AgentInvocation, Continue, [], []).(details := IGNORED_CLAIM))
  }

  predicate AnyQuarantined(entries: seq<LedgerEntry>) {
    exists i | 0 <= i < |entries| :: Quarantined(entries[i].artifactPath)
  }

  function QuarantineCheck(c: Ctx): Effect {
    if AnyQuarantined(c.ev.writer.ledger.entries) then
      Plainly(c, Failed(AgentOutputQuarantine, [Reason(SummaryAsProof, NOTHING)], false, []))
    else
      Effect([], c.work.(summaryQuarantined := true), None, false, Done(AgentOutputQuarantine, Continue, [], []))
  }

  /** White space, as the standard library strips it. */
  predicate IsSpace(c: char) {
    || '\U{9}' <= c <= '\U{D}' || '\U{1C}' <= c <= '\U{20}' || c == '\U{85}' || c == '\U{A0}' || c == '\U{1680}'
    || '\U{2000}' <= c <= '\U{200A}' || c == '\U{2028}' || c == '\U{2029}' || c == '\U{202F}' || c == '\U{205F}'
    || c == '\U{3000}'
  }

  predicate Blank(s: string) {
    forall i | 0 <= i < |s| :: IsSpace(s[i])
  }

  function DiffOps(diff: string, status: string, check: string): seq<Op> {
    [Record(Change(DiffPatch), diff, DIFF, EntryInfo, "git diff", "diff"),
     Record(Change(GitStatusLog), status, COMMAND_OUTPUT, EntryInfo, "git status --short", "diff"),
     Record(Change(DiffCheckLog), check, COMMAND_OUTPUT, EntryInfo, "git diff --check", "diff")]
  }

  function DiffStage(w: World, c: Ctx): Effect {
    if c.work.candidate.Some? && c.work.candidate.value.diff != "" then
      var d := c.work.candidate.value;
      Effect(DiffOps(d.diff, d.gitStatus, d.diffCheck), c.work.(changedFiles := d.changedFiles), None, false,
             Done(DiffCapture, Continue, [PathOf(c.ev, Change(DiffPatch))], []))
    else if c.repo.None? || w.git.NotARepository? || Blank(w.git.diff) then
      Plainly(c, Failed(DiffCapture, [Reason(EvidenceMissing, NOTHING)], true, []))
    else
      Effect(DiffOps(w.git.diff, w.git.status, w.git.check), c.work.(changedFiles := w.git.changed), None, false,
             if w.git.checkOk then Done(DiffCapture, Continue, [PathOf(c.ev, Change(DiffPatch))], [])
             else Failed(DiffCapture, [Reason(CheckFailed, NOTHING)], false, []))
  }

  /** The captured outcome of the k-th command. */
  function LogOf(w: World, h: HandlerName, k: nat, command: string): seq<LogItem> {
    match w.run(h, k)
    case Rejected => []
    case Finished(code) => [LogItem(Some(command), if code.Some? then Code(code.value) else NullCode)]
  }

  function LogsOf(w: World, h: HandlerName, commands: seq<string>): seq<LogItem> {
    if commands == [] then []
    else LogsOf(w, h, commands[..|commands| - 1]) + LogOf(w, h, |commands| - 1, commands[|commands| - 1])
  }

  function AnyRejected(w: World, h: HandlerName, count: nat): bool {
    exists k: nat | k < count :: w.run(h, k) == Rejected
  }

  const PYTEST := "python -m pytest"

  /** What a run of commands, or a supplied set of outcomes, amounts to. */
  datatype Gathered = NoEvidence | RejectedCommands | Logs(items: seq<LogItem>, command: string)

  /** The caption of supplied outcomes: a reproduction may bring its own, the test stage has only one. */
  function CaptionOf(h: HandlerName, plan: RunPlan): string {
    if h == TestRunner then PYTEST else plan.caption.GetOr(PYTEST)
  }

  function Gather(w: World, h: HandlerName, plan: RunPlan): Gathered {
    if plan.outcomes != [] then Logs(plan.outcomes, CaptionOf(h, plan))
    else if plan.commands == [] then NoEvidence
    else if AnyRejected(w, h, |plan.commands|) then RejectedCommands
    else Logs(LogsOf(w, h, plan.commands), w.joined(plan.commands))
  }

  /** The exit code of an outcome, a missing one counting as success. */
  function ExitOrZero(o: LogItem): Option<int> {
    match o.exitCode
    case NoKey => Some(0)
    case NullCode => None
    case Code(n) => Some(n)
  }

  function OutcomeOf(o: LogItem, command: string, path: string): TestOutcome {
    TestOutcome(o.command.GetOr(command), true, ExitOrZero(o), path, false, false, false)
  }

  function OutcomesOf(logs: seq<LogItem>, command: string, path: string): (r: seq<TestOutcome>)
    ensures |r| == |logs| && forall i | 0 <= i < |logs| :: r[i] == OutcomeOf(logs[i], command, path)
  {
    if logs == [] then []
    else OutcomesOf(logs[..|logs| - 1], command, path) + [OutcomeOf(logs[|logs| - 1], command, path)]
  }

  /** Every item has an exit code, and it is zero. */
  predicate AllZero(logs: seq<LogItem>) {
    forall i | 0 <= i < |logs| :: logs[i].exitCode == Code(0)
  }

  function TestStage(w: World, c: Ctx): Effect {
    if c.request.meta.testsNotApplicable then Plainly(c, Skipped(TestRunner))
    else
      match Gather(w, TestRunner, c.request.meta.tests)
      case NoEvidence => Plainly(c, Failed(TestRunner, [Reason(EvidenceMissing, NOTHING)], true, []))
      case RejectedCommands => Plainly(c, Failed(TestRunner, [Reason(CommandRejected, NOTHING)], true, []))
      case Logs(items, command) =>
        var path := PathOf(c.ev, Change(TestOutput));
        Effect([Record(Change(TestOutput), w.text(Change(TestOutput)), TEST,
                       if AllZero(items) then EntryPass else EntryFail, command, "tests")],
               c.work.(testOutcomes := c.work.testOutcomes + OutcomesOf(items, command, path)), None, false,
               Done(TestRunner, Continue, [path], []))
  }

  function ScopeDiffCheck(w: World, c: Ctx): Effect {
    Plainly(c, FromGates(ScopeDiff, [ScopeGateOf(w, c)]))
  }

  function RulesOf(q: Request): ScopeRules {
    ScopeRules(q.inScope, q.outOfScope, [], [], [], false)
  }

  function ScopeGateOf(w: World, c: Ctx): GateResult {
    GateResult(ScopeGateName, ScopeReasons(w.matcher, RulesOf(c.request), c.work.changedFiles))
  }

  /** Some item has an exit code other than zero. */
  predicate Reproduces(logs: seq<LogItem>) {
    exists i | 0 <= i < |logs| :: logs[i].exitCode.Code? && logs[i].exitCode.value != 0
  }

  const REPRODUCED := Noted(map["reproduced" := "true"])

  /** The shared reproduction step of the bug-fix and repair chains: the run has to fail. */
  function ReproductionStage(h: HandlerName, file: Name, w: World, c: Ctx): Effect {
    match c.request.meta.reproduction
    case None => Plainly(c, Failed(h, [Reason(EvidenceMissing, NOTHING)], true, []))
    case Some(plan) =>
      match Gather(w, h, plan)
      case NoEvidence => Plainly(c, Failed(h, [Reason(EvidenceMissing, NOTHING)], true, []))
      case RejectedCommands => Plainly(c, Failed(h, [Reason(CommandRejected, NOTHING)], true, []))
      case Logs(items, command) =>
        var ops := [Record(file, w.text(file), TEST, if Reproduces(items) then EntryFail else EntryPass, command, "repro")];
        if Reproduces(items) then
          Effect(ops, c.work.(reproduced := true), None, false,
                 Done(h, Continue, [PathOf(c.ev, file)], []).(details := REPRODUCED))
        else Effect(ops, c.work, None, false, Failed(h, [Reason(NotReproduced, NOTHING)], false, []))
  }

  // ----------------------------------------------------------------- verification

  const ANALYSIS_VERIFIER := "analysis-verifier"
  const IMPL_VERIFIER := "impl-verifier"
  const DOC_VERIFIER := "doc-verifier"
  const SECURITY_VERIFIER := "security-verifier"

  function SelfGate(work: Work, summaryUsed: bool): GateResult {
    GateResult(SelfCertificationGateName, SelfCertificationReasons(
      Certification(work.codingRunId, work.verifierRunId, "", "", Pending, summaryUsed, false)))
  }

  function ReportOp(w: World, r: HandlerResult): Op {
    Record(Verdict(VerifierReportFile), w.text(Verdict(VerifierReportFile)), VERIFIER_REPORT,
           if r.status == StatusPass then EntryPass else EntryFail, "", "verifier")
  }

  function Verification(h: HandlerName, w: World, work: Work, gates: seq<GateResult>): Effect {
    var r := FromGates(h, gates);
    Effect([ReportOp(w, r)], work, None, false, r)
  }

  function AnalysisVerdict(w: World, c: Ctx): Effect {
    var work := c.work.(verifierRunId := Or(c.work.verifierRunId, ANALYSIS_VERIFIER));
    Verification(AnalysisVerifier, w, work, [SelfGate(work, false), EvidenceGateOf(c, [ANALYSIS_REPORT])])
  }

  /** Reasons against the design of a run that supplied none. */
  const NO_DESIGN := [Reason(GateFailed, NOTHING)]

  function RequiredByTests(q: Request): seq<ArtifactType> {
    if q.meta.testsNotApplicable then [DIFF] else [DIFF, TEST]
  }

  function ChangeGates(w: World, c: Ctx, work: Work): seq<GateResult> {
    [SelfGate(work, !c.work.summaryQuarantined),
     GateResult(TestGateName, TestReasons(c.work.testOutcomes, Implementation, !c.request.meta.testsNotApplicable)),
     EvidenceGateOf(c, RequiredByTests(c.request)),
     GateResult(StrategicGateName, c.work.strategic.GetOr(NO_DESIGN)),
     ScopeGateOf(w, c)]
  }

  function ChangeVerdict(w: World, c: Ctx): Effect {
    var work := c.work.(verifierRunId := Or(c.work.verifierRunId, IMPL_VERIFIER));
    Verification(ImplementationVerifier, w, work, ChangeGates(w, c, work))
  }

  function DocumentVerdict(w: World, c: Ctx): Effect {
    var work := c.work.(verifierRunId := Or(c.work.verifierRunId, DOC_VERIFIER));
    Verification(DocumentationVerifier, w, work,
                 [SelfGate(work, !c.work.summaryQuarantined), EvidenceGateOf(c, [DIFF]), ScopeGateOf(w, c)])
  }

  function SecurityVerdict(w: World, c: Ctx): Effect {
    var work := c.work.(verifierRunId := Or(c.work.verifierRunId, SECURITY_VERIFIER));
    Verification(SecurityVerifier, w, work, [SelfGate(work, false), EvidenceGateOf(c, [DIFF]), ScopeGateOf(w, c)])
  }

  // ------------------------------------------------- evaluation, memory, PR, security

  /** The evaluator scores and never decides. */
  function EvaluationStage(w: World, c: Ctx): Effect {
    Effect([Record(Verdict(EvaluationReport), w.text(Verdict(EvaluationReport)), ANALYSIS_REPORT, EntryInfo, "", "evaluator")],
           c.work.(evalScore := Some(w.score(c.ev.writer.ledger.entries))), None, false,
           Done(Evaluator, Continue, [PathOf(c.ev, Verdict(EvaluationReport))], []))
  }

  function MemoryStage(w: World, c: Ctx): Effect {
    var file := Verdict(if c.verifierDecision == Pass then MemoryRecord else MemorySkipReason);
    Effect([Record(file, w.text(file), ANALYSIS_REPORT, EntryInfo, "", "memory")], c.work, None, false,
           Done(MemoryUpdate, Continue, [PathOf(c.ev, file)], []))
  }

  const PR_SKIP := "deferred"

  function PrStage(w: World, c: Ctx): Effect {
    if c.verifierDecision != Pass then
      var gate := GateResult(PrGateName, PrReasons(c.verifierDecision, "", "", false, false));
      Plainly(c, Done(PRGate, Continue, [], [gate]).(prStatus := Some(NotReady)))
    else
      var gate := GateResult(PrGateName, PrReasons(c.verifierDecision, "", PR_SKIP, false, false));
      Effect([Record(Verdict(PrBody), w.text(Verdict(PrBody)), PR, EntryInfo, "", "pr"),
              Record(Verdict(PrGateReport), w.text(Verdict(PrGateReport)), PR, EntryInfo, "", "pr")],
             c.work, None, false,
             Done(PRGate, Continue, [PathOf(c.ev, Verdict(PrBody))], [gate]).(prStatus := Some(Gated)))
  }

  const NO_TESTS_NOTED := Noted(map["tests_not_applicable" := "true"])

  /** Declared before the evidence gate, and only in security reviews. */
  function NoTestsNote(w: World, c: Ctx): Effect {
    if c.request.taskType != SecurityReview then Plainly(c, Skipped(SecurityReviewTestsNotApplicable))
    else
      var file := Documents(TestsNotApplicableNote);
      Effect([Record(file, w.text(file), ANALYSIS_REPORT, EntryInfo, "security_review_tests_not_applicable", "security")], c.work, None, true,
             Done(SecurityReviewTestsNotApplicable, Continue, [PathOf(c.ev, file)], []).(details := NO_TESTS_NOTED))
  }

  // --------------------------------------------------------------------- registry

  /** The handlers by the part of a chain they belong to. */
  datatype Family = ControlFamily | AuxFamily | StageFamily | VerdictFamily | ClosingFamily

  function FamilyOf(h: HandlerName): Family {
    if h.AnalysisVerifier? || h.ImplementationVerifier? || h.DocumentationVerifier? || h.SecurityVerifier? then VerdictFamily
    else if h.Evaluator? || h.MemoryUpdate? || h.PRGate? || h.SecurityReviewTestsNotApplicable? then ClosingFamily
    else if h.AnalysisAgentInvocation? || h.StructuredOutputParser? || h.StrategicDesignGate? || h.AgentInvocation?
            || h.AgentOutputQuarantine? || h.DiffCapture? || h.TestRunner? || h.ScopeDiff?
            || h.FailureReproduction? || h.Reproduction? then StageFamily
    else if AuxFileOf(h).Some? then AuxFamily
    else ControlFamily
  }

  /** Static checks are deferred; the API's pseudo handler is never registered. */
  function ControlEffect(h: HandlerName, w: World, c: Ctx): Effect {
    match h
    case ManifestValidation => ManifestCheck(c)
    case ScrumMapping => ScrumCheck(c)
    case DefinitionOfDoneLock => DodLockCheck(w, c)
    case ScopeValidation => ScopeCheck(c)
    case EvidenceGate => EvidenceCheck(c)
    case StopOrLoop => StopCheck(c)
    case ReadOnlyCompliance => ComplianceCheck(c)
    case _ => Plainly(c, Skipped(h))
  }

  function StageEffect(h: HandlerName, w: World, c: Ctx): Effect {
    match h
    case AnalysisAgentInvocation => AnalystStage(w, c)
    case StructuredOutputParser => ParseStage(w, c)
    case StrategicDesignGate => DesignCheck(c)
    case AgentInvocation => AgentStage(c)
    case AgentOutputQuarantine => QuarantineCheck(c)
    case DiffCapture => DiffStage(w, c)
    case TestRunner => TestStage(w, c)
    case ScopeDiff => ScopeDiffCheck(w, c)
    case FailureReproduction => ReproductionStage(FailureReproduction, Change(FailureReproductionLog), w, c)
    case _ => ReproductionStage(Reproduction, Change(CiReproductionLog), w, c)
  }

  function VerdictEffect(h: HandlerName, w: World, c: Ctx): Effect {
    match h
    case AnalysisVerifier => AnalysisVerdict(w, c)
    case ImplementationVerifier => ChangeVerdict(w, c)
    case DocumentationVerifier => DocumentVerdict(w, c)
    case _ => SecurityVerdict(w, c)
  }

  function ClosingEffect(h: HandlerName, w: World, c: Ctx): Effect {
    match h
    case Evaluator => EvaluationStage(w, c)
    case MemoryUpdate => MemoryStage(w, c)
    case PRGate => PrStage(w, c)
    case _ => NoTestsNote(w, c)
  }

  function EffectOf(h: HandlerName, w: World, c: Ctx): Effect {
    match FamilyOf(h)
    case ControlFamily => ControlEffect(h, w, c)
    case AuxFamily => AuxCheck(h, AuxFileOf(h).value, w, c)
    case StageFamily => StageEffect(h, w, c)
    case VerdictFamily => VerdictEffect(h, w, c)
    case ClosingFamily => ClosingEffect(h, w, c)
  }

  function Handle(h: HandlerName, w: World, c: Ctx): (Ctx, HandlerResult) {
    var e := EffectOf(h, w, c);
    (Applied(c, e, w.repoAfter(h)), e.result)
  }

  function HandlerOf(h: HandlerName, w: World): Handler {
    Handler(TypeOf(h), _ => true, c => Handle(h, w, c))
  }

  /** Every handler of every chain is registered; the API's pseudo handler is not. */
  function DefaultRegistry(w: World): HandlerRegistry {
    h => if h == WorkspacePolicy then None else Some(HandlerOf(h, w))
  }
}
