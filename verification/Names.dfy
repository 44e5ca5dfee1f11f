/**
 The file names the handlers write. Every theorem about a run holds for any naming that keeps
 names plain, keeps all but the checkpoints apart and gives the two agent narratives their
 quarantined names; the names the system uses are shown to be such a naming.
 */
module Names {
  import opened Core
  import opened Text
  import opened Gates

  /** Files of control.py, verification.py, evaluation.py and pr.py. */
  datatype VerdictFile =
    | DodLock | VerifierReportFile | EvaluationReport | MemoryRecord | MemorySkipReason | PrBody
    | PrGateReport

  /** Files of the inventories of analysis.py. */
  datatype InventoryFile =
    | RepoTree | CommandDiscoveryLog | CiInventoryLog | DependencyInventoryLog

  /** Files of the assessments of analysis.py. */
  datatype AssessmentFile =
    | ReadinessReport | StrategicAssessment | GapBacklog | SprintPlan

  /** Files of the quarantined agent output and the tool runs. */
  datatype AgentFile =
    | AgentSummary | RawOutput | StructuredOutput | ToolRepoTree | ToolCommands | ToolCi | ToolDependencies

  /** Files of implementation.py. */
  datatype ChangeFile =
    | DiffPatch | GitStatusLog | DiffCheckLog | TestOutput | FailureReproductionLog | CiReproductionLog

  /** Files of documentation.py, and the note of security.py. */
  datatype DocumentsFile =
    | DocumentationGapLog | LinkCheckLog | TestsNotApplicableNote

  /** Files of the scans of security.py. */
  datatype ScanFile =
    | SecretScanLog | VulnerabilityLog | AuthRiskLog | InputRiskLog

  /** Files of dependency.py and ci_failure.py. */
  datatype RepairFile =
    | DependencyRiskLog | LicenseLog | LockfileLog | BuildOutput | CiParsedLog | CiClassificationLog
    | CiConfigLog

  datatype LlmPart = Prompt | Reply | Invocation

  /** Everything a run writes below its directory. */
  datatype Name =
    | Verdict(fileVerdict: VerdictFile)
    | Inventory(fileInventory: InventoryFile)
    | Assessment(fileAssessment: AssessmentFile)
    | Agent(fileAgent: AgentFile)
    | Change(fileChange: ChangeFile)
    | Documents(fileDocuments: DocumentsFile)
    | Scan(fileScan: ScanFile)
    | Repair(fileRepair: RepairFile)
    | LlmFile(part: LlmPart, number: nat)
    | CheckpointFile(index: nat, handler: HandlerName)

  const SUMMARY_FILE := Agent(AgentSummary)
  const RAW_FILE := Agent(RawOutput)

  ghost predicate GoodNaming(f: Name -> string) {
    && (forall n: Name :: Plain(f(n)) && Kept(f(n)))
    && (forall m: Name, n: Name {:trigger f(m), f(n)} :: f(m) == f(n) && !m.CheckpointFile? ==> m == n)
    && f(SUMMARY_FILE) == AGENT_SUMMARY
    && f(RAW_FILE) == RAW_OUTPUT
  }

  type PlainText = s: string | Plain(s)

  type Naming = f: Name -> string | GoodNaming(f) witness SampleNaming()

  function SampleNaming(): (f: Name -> string)
    ensures GoodNaming(f)
  {
    SourceNamesAreGood(_ => "");
    SourceNames(_ => "")
  }

  function VerdictText(f: VerdictFile): string {
    match f
    case DodLock => "definition_of_done_lock.json"
    case VerifierReportFile => "verifier_report.json"
    case EvaluationReport => "evaluation_report.json"
    case MemoryRecord => "memory_update_record.json"
    case MemorySkipReason => "memory_update_skip_reason.json"
    case PrBody => "pr_body.md"
    case PrGateReport => "pr_gate_report.json"
  }

  function InventoryText(f: InventoryFile): string {
    match f
    case RepoTree => "repo_tree.log"
    case CommandDiscoveryLog => "command_discovery.log"
    case CiInventoryLog => "ci_inventory.log"
    case DependencyInventoryLog => "dependency_inventory.log"
  }

  function AssessmentText(f: AssessmentFile): string {
    match f
    case ReadinessReport => "codebase_ai_readiness_report.json"
    case StrategicAssessment => "strategic_programming_assessment.json"
    case GapBacklog => "ai_safety_gap_backlog.json"
    case SprintPlan => "recommended_sprint_plan.json"
  }

  function AgentText(f: AgentFile): string {
    match f
    case AgentSummary => "agent_summary.md"
    case RawOutput => "raw_agent_output.log"
    case StructuredOutput => "structured_agent_output.json"
    case ToolRepoTree => "tool_list_repo_tree.log"
    case ToolCommands => "tool_discover_commands.log"
    case ToolCi => "tool_inspect_ci_config.log"
    case ToolDependencies => "tool_inspect_dependencies.log"
  }

  function ChangeText(f: ChangeFile): string {
    match f
    case DiffPatch => "diff.patch"
    case GitStatusLog => "git_status.log"
    case DiffCheckLog => "diff_check.log"
    case TestOutput => "test_output.log"
    case FailureReproductionLog => "failure_reproduction.log"
    case CiReproductionLog => "ci_failure_reproduction.log"
  }

  function DocumentsText(f: DocumentsFile): string {
    match f
    case DocumentationGapLog => "documentation_gap.log"
    case LinkCheckLog => "link_check.log"
    case TestsNotApplicableNote => "security_review_tests_not_applicable.json"
  }

  function ScanText(f: ScanFile): string {
    match f
    case SecretScanLog => "secret_scan.log"
    case VulnerabilityLog => "dependency_vulnerability.log"
    case AuthRiskLog => "auth_change_risk.log"
    case InputRiskLog => "input_validation_risk.log"
  }

  function RepairText(f: RepairFile): string {
    match f
    case DependencyRiskLog => "dependency_risk.log"
    case LicenseLog => "license_check.log"
    case LockfileLog => "lockfile_validation.log"
    case BuildOutput => "build_output.log"
    case CiParsedLog => "ci_failure_parsed.log"
    case CiClassificationLog => "ci_failure_classification.log"
    case CiConfigLog => "ci_config_validation.log"
  }

  function LlmPrefix(part: LlmPart): string {
    match part
    case Prompt => "llm_request_"
    case Reply => "llm_response_"
    case Invocation => "llm_invocation_"
  }

  function LlmSuffix(part: LlmPart): string {
    if part == Invocation then ".json" else ".txt"
  }

  function LlmText(part: LlmPart, number: nat): string {
    LlmPrefix(part) + InvocationId(number) + LlmSuffix(part)
  }

  function CheckpointText(index: nat, handler: string): string {
    "checkpoint_" + ZeroPadded(Decimal(index), 2) + "_" + handler + ".json"
  }

  /** The names as the handlers spell them; `handlerText` gives the handlers' own names. */
  function SourceName(handlerText: HandlerName -> PlainText, n: Name): string {
    match n
    case Verdict(f) => VerdictText(f)
    case Inventory(f) => InventoryText(f)
    case Assessment(f) => AssessmentText(f)
    case Agent(f) => AgentText(f)
    case Change(f) => ChangeText(f)
    case Documents(f) => DocumentsText(f)
    case Scan(f) => ScanText(f)
    case Repair(f) => RepairText(f)
    case LlmFile(part, number) => LlmText(part, number)
    case CheckpointFile(index, h) => CheckpointText(index, handlerText(h))
  }

  function SourceNames(handlerText: HandlerName -> PlainText): Name -> string {
    (n: Name) => SourceName(handlerText, n)
  }

  // Names are told apart by a fingerprint: the length and the first and sixth characters.

  datatype Print = Print(length: nat, first: char, sixth: char)

  /** A file's text is plain, does not start like a generated name, and has this fingerprint. */
  ghost predicate Facts(s: string, p: Print) {
    Plain(s) && Starts(s, p)
  }

  ghost predicate Starts(s: string, p: Print) {
    && |s| == p.length >= 6
    && s[0] == p.first
    && s[5] == p.sixth
    && s[1] != 'l' && s[1] != 'h'
  }

  function VerdictPrint(f: VerdictFile): Print {
    match f
    case DodLock => Print(28, 'd', 'i')
    case VerifierReportFile => Print(20, 'v', 'i')
    case EvaluationReport => Print(22, 'e', 'a')
    case MemoryRecord => Print(25, 'm', 'y')
    case MemorySkipReason => Print(30, 'm', 'y')
    case PrBody => Print(10, 'p', 'd')
    case PrGateReport => Print(19, 'p', 't')
  }

  lemma VerdictNoSlash(f: VerdictFile)
    ensures '/' !in VerdictText(f)
  {
  }

  lemma VerdictNoBackslash(f: VerdictFile)
    ensures '\\' !in VerdictText(f)
  {
  }

  lemma VerdictStarts(f: VerdictFile)
    ensures Starts(VerdictText(f), VerdictPrint(f))
  {
  }

  lemma VerdictFacts(f: VerdictFile)
    ensures Facts(VerdictText(f), VerdictPrint(f))
  {
    VerdictNoSlash(f);
    VerdictNoBackslash(f);
    VerdictStarts(f);
  }

  function InventoryPrint(f: InventoryFile): Print {
    match f
    case RepoTree => Print(13, 'r', 't')
    case CommandDiscoveryLog => Print(21, 'c', 'n')
    case CiInventoryLog => Print(16, 'c', 'v')
    case DependencyInventoryLog => Print(24, 'd', 'd')
  }

  lemma InventoryNoSlash(f: InventoryFile)
    ensures '/' !in InventoryText(f)
  {
  }

  lemma InventoryNoBackslash(f: InventoryFile)
    ensures '\\' !in InventoryText(f)
  {
  }

  lemma InventoryStarts(f: InventoryFile)
    ensures Starts(InventoryText(f), InventoryPrint(f))
  {
  }

  lemma InventoryFacts(f: InventoryFile)
    ensures Facts(InventoryText(f), InventoryPrint(f))
  {
    InventoryNoSlash(f);
    InventoryNoBackslash(f);
    InventoryStarts(f);
  }

  function AssessmentPrint(f: AssessmentFile): Print {
    match f
    case ReadinessReport => Print(33, 'c', 'a')
    case StrategicAssessment => Print(37, 's', 'e')
    case GapBacklog => Print(26, 'a', 'f')
    case SprintPlan => Print(28, 'r', 'm')
  }

  lemma AssessmentNoSlash(f: AssessmentFile)
    ensures '/' !in AssessmentText(f)
  {
  }

  lemma AssessmentNoBackslash(f: AssessmentFile)
    ensures '\\' !in AssessmentText(f)
  {
  }

  lemma AssessmentStarts(f: AssessmentFile)
    ensures Starts(AssessmentText(f), AssessmentPrint(f))
  {
  }

  lemma AssessmentFacts(f: AssessmentFile)
    ensures Facts(AssessmentText(f), AssessmentPrint(f))
  {
    AssessmentNoSlash(f);
    AssessmentNoBackslash(f);
    AssessmentStarts(f);
  }

  function AgentPrint(f: AgentFile): Print {
    match f
    case AgentSummary => Print(16, 'a', '_')
    case RawOutput => Print(20, 'r', 'g')
    case StructuredOutput => Print(28, 's', 't')
    case ToolRepoTree => Print(23, 't', 'l')
    case ToolCommands => Print(26, 't', 'd')
    case ToolCi => Print(26, 't', 'i')
    case ToolDependencies => Print(29, 't', 'i')
  }

  lemma AgentNoSlash(f: AgentFile)
    ensures '/' !in AgentText(f)
  {
  }

  lemma AgentNoBackslash(f: AgentFile)
    ensures '\\' !in AgentText(f)
  {
  }

  lemma AgentStarts(f: AgentFile)
    ensures Starts(AgentText(f), AgentPrint(f))
  {
  }

  lemma AgentFacts(f: AgentFile)
    ensures Facts(AgentText(f), AgentPrint(f))
  {
    AgentNoSlash(f);
    AgentNoBackslash(f);
    AgentStarts(f);
  }

  function ChangePrint(f: ChangeFile): Print {
    match f
    case DiffPatch => Print(10, 'd', 'p')
    case GitStatusLog => Print(14, 'g', 't')
    case DiffCheckLog => Print(14, 'd', 'c')
    case TestOutput => Print(15, 't', 'o')
    case FailureReproductionLog => Print(24, 'f', 'r')
    case CiReproductionLog => Print(27, 'c', 'i')
  }

  lemma ChangeNoSlash(f: ChangeFile)
    ensures '/' !in ChangeText(f)
  {
  }

  lemma ChangeNoBackslash(f: ChangeFile)
    ensures '\\' !in ChangeText(f)
  {
  }

  lemma ChangeStarts(f: ChangeFile)
    ensures Starts(ChangeText(f), ChangePrint(f))
  {
  }

  lemma ChangeFacts(f: ChangeFile)
    ensures Facts(ChangeText(f), ChangePrint(f))
  {
    ChangeNoSlash(f);
    ChangeNoBackslash(f);
    ChangeStarts(f);
  }

  function DocumentsPrint(f: DocumentsFile): Print {
    match f
    case DocumentationGapLog => Print(21, 'd', 'e')
    case LinkCheckLog => Print(14, 'l', 'c')
    case TestsNotApplicableNote => Print(41, 's', 'i')
  }

  lemma DocumentsNoSlash(f: DocumentsFile)
    ensures '/' !in DocumentsText(f)
  {
  }

  lemma DocumentsNoBackslash(f: DocumentsFile)
    ensures '\\' !in DocumentsText(f)
  {
  }

  lemma DocumentsStarts(f: DocumentsFile)
    ensures Starts(DocumentsText(f), DocumentsPrint(f))
  {
  }

  lemma DocumentsFacts(f: DocumentsFile)
    ensures Facts(DocumentsText(f), DocumentsPrint(f))
  {
    DocumentsNoSlash(f);
    DocumentsNoBackslash(f);
    DocumentsStarts(f);
  }

  function ScanPrint(f: ScanFile): Print {
    match f
    case SecretScanLog => Print(15, 's', 't')
    case VulnerabilityLog => Print(28, 'd', 'd')
    case AuthRiskLog => Print(20, 'a', 'c')
    case InputRiskLog => Print(25, 'i', '_')
  }

  lemma ScanNoSlash(f: ScanFile)
    ensures '/' !in ScanText(f)
  {
  }

  lemma ScanNoBackslash(f: ScanFile)
    ensures '\\' !in ScanText(f)
  {
  }

  lemma ScanStarts(f: ScanFile)
    ensures Starts(ScanText(f), ScanPrint(f))
  {
  }

  lemma ScanFacts(f: ScanFile)
    ensures Facts(ScanText(f), ScanPrint(f))
  {
    ScanNoSlash(f);
    ScanNoBackslash(f);
    ScanStarts(f);
  }

  function RepairPrint(f: RepairFile): Print {
    match f
    case DependencyRiskLog => Print(19, 'd', 'd')
    case LicenseLog => Print(17, 'l', 's')
    case LockfileLog => Print(23, 'l', 'i')
    case BuildOutput => Print(16, 'b', '_')
    case CiParsedLog => Print(21, 'c', 'i')
    case CiClassificationLog => Print(29, 'c', 'i')
    case CiConfigLog => Print(24, 'c', 'n')
  }

  lemma RepairNoSlash(f: RepairFile)
    ensures '/' !in RepairText(f)
  {
  }

  lemma RepairNoBackslash(f: RepairFile)
    ensures '\\' !in RepairText(f)
  {
  }

  lemma RepairStarts(f: RepairFile)
    ensures Starts(RepairText(f), RepairPrint(f))
  {
  }

  lemma RepairFacts(f: RepairFile)
    ensures Facts(RepairText(f), RepairPrint(f))
  {
    RepairNoSlash(f);
    RepairNoBackslash(f);
    RepairStarts(f);
  }

  function PrintOf(n: Name): Print
    requires !n.LlmFile? && !n.CheckpointFile?
  {
    match n
    case Verdict(f) => VerdictPrint(f)
    case Inventory(f) => InventoryPrint(f)
    case Assessment(f) => AssessmentPrint(f)
    case Agent(f) => AgentPrint(f)
    case Change(f) => ChangePrint(f)
    case Documents(f) => DocumentsPrint(f)
    case Scan(f) => ScanPrint(f)
    case Repair(f) => RepairPrint(f)
  }

  lemma NameFacts(handlerText: HandlerName -> PlainText, n: Name)
    requires !n.LlmFile? && !n.CheckpointFile?
    ensures Facts(SourceName(handlerText, n), PrintOf(n))
  {
    match n
    case Verdict(f) => VerdictFacts(f);
    case Inventory(f) => InventoryFacts(f);
    case Assessment(f) => AssessmentFacts(f);
    case Agent(f) => AgentFacts(f);
    case Change(f) => ChangeFacts(f);
    case Documents(f) => DocumentsFacts(f);
    case Scan(f) => ScanFacts(f);
    case Repair(f) => RepairFacts(f);
  }

  lemma PrintsDiffer(m: Name, n: Name)
    requires !m.LlmFile? && !m.CheckpointFile? && !n.LlmFile? && !n.CheckpointFile?
    requires PrintOf(m) == PrintOf(n)
    ensures m == n
  {
  }

  lemma DigitsArePlain(s: string)
    requires AllDigits(s)
    ensures Plain(s)
  {
  }

  lemma LlmFixedParts(part: LlmPart)
    ensures Plain(LlmPrefix(part)) && Plain(LlmSuffix(part))
    ensures |LlmPrefix(part)| >= 12 && LlmPrefix(part)[0] == 'l' && LlmPrefix(part)[1] == 'l'
  {
    match part
    case Prompt =>
    case Reply =>
    case Invocation =>
  }

  lemma IdPlain(number: nat)
    ensures Plain(InvocationId(number))
  {
    DigitsArePlain(ZeroPadded(Decimal(number), 4));
  }

  lemma LlmFacts(part: LlmPart, number: nat)
    ensures var s := LlmText(part, number);
            Plain(s) && |s| >= 12 && s[0] == 'l' && s[1] == 'l'
  {
    LlmFixedParts(part);
    IdPlain(number);
  }

  lemma CheckpointFacts(index: nat, handler: PlainText)
    ensures var s := CheckpointText(index, handler);
            Plain(s) && |s| >= 2 && s[0] == 'c' && s[1] == 'h'
  {
    DigitsArePlain(ZeroPadded(Decimal(index), 2));
  }

  lemma Middle(a1: string, m1: string, z1: string, a2: string, m2: string, z2: string)
    requires |a1| == |a2| && |z1| == |z2| && a1 + m1 + z1 == a2 + m2 + z2
    ensures m1 == m2
  {
    var s, t := a1 + m1 + z1, a2 + m2 + z2;
    assert s[|a1|..|s| - |z1|] == m1;
    assert t[|a2|..|t| - |z2|] == m2;
  }

  lemma LlmPartsDiffer(p1: LlmPart, k1: nat, p2: LlmPart, k2: nat)
    requires LlmText(p1, k1) == LlmText(p2, k2)
    ensures p1 == p2
  {
    var s1, s2 := LlmText(p1, k1), LlmText(p2, k2);
    assert s1[4] == LlmPrefix(p1)[4] && s1[6] == LlmPrefix(p1)[6];
    assert s2[4] == LlmPrefix(p2)[4] && s2[6] == LlmPrefix(p2)[6];
  }

  lemma LlmApart(p1: LlmPart, k1: nat, p2: LlmPart, k2: nat)
    requires LlmText(p1, k1) == LlmText(p2, k2)
    ensures p1 == p2 && k1 == k2
  {
    LlmPartsDiffer(p1, k1, p2, k2);
    Middle(LlmPrefix(p1), InvocationId(k1), LlmSuffix(p1), LlmPrefix(p2), InvocationId(k2), LlmSuffix(p2));
    InvocationIdInjective(k1, k2);
  }

  lemma NamesApart(handlerText: HandlerName -> PlainText, m: Name, n: Name)
    requires !m.CheckpointFile? && SourceName(handlerText, m) == SourceName(handlerText, n)
    ensures m == n
  {
    if m.LlmFile? {
      LlmFacts(m.part, m.number);
    } else {
      NameFacts(handlerText, m);
    }
    if n.LlmFile? {
      LlmFacts(n.part, n.number);
    } else if n.CheckpointFile? {
      CheckpointFacts(n.index, handlerText(n.handler));
    } else {
      NameFacts(handlerText, n);
    }
    if m.LlmFile? && n.LlmFile? {
      LlmApart(m.part, m.number, n.part, n.number);
    } else if !m.LlmFile? && !n.LlmFile? && !n.CheckpointFile? {
      PrintsDiffer(m, n);
    }
  }

  lemma NamePlain(handlerText: HandlerName -> PlainText, n: Name)
    ensures Plain(SourceName(handlerText, n)) && Kept(SourceName(handlerText, n))
  {
    if n.LlmFile? {
      LlmFacts(n.part, n.number);
    } else if n.CheckpointFile? {
      CheckpointFacts(n.index, handlerText(n.handler));
    } else {
      NameFacts(handlerText, n);
    }
  }

  /** The system's own file names are a good naming. */
  lemma SourceNamesAreGood(handlerText: HandlerName -> PlainText)
    ensures GoodNaming(SourceNames(handlerText))
  {
    var f := SourceNames(handlerText);
    forall n: Name ensures Plain(f(n)) && Kept(f(n)) {
      NamePlain(handlerText, n);
    }
    forall m: Name, n: Name | f(m) == f(n) && !m.CheckpointFile? ensures m == n {
      NamesApart(handlerText, m, n);
    }
  }
}
