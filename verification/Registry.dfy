/**
 The registered chains: ordered, fixed sequences of handler names, one per task type. Each chain
 comes with the position of every handler slot in it, which is how distinctness is shown.
 */
module Registry {
  import opened Core

  function AiReadinessAuditHandlers(): seq<HandlerName> {
    [ManifestValidation, ScrumMapping, DefinitionOfDoneLock, ScopeValidation, RepoInventory,
     CommandDiscovery, CIInventory, DependencyInventory, ReadOnlyCompliance, AnalysisAgentInvocation,
     AgentOutputQuarantine, StructuredOutputParser, AIReadinessScoring, StrategicProgrammingAssessment,
     BacklogFindingGenerator, EvidenceGate, AnalysisVerifier, Evaluator, MemoryUpdate, BacklogUpdate,
     StopOrLoop]
  }

  function ImplementationHandlers(): seq<HandlerName> {
    [ManifestValidation, ScrumMapping, DefinitionOfDoneLock, ScopeValidation, StrategicDesignGate,
     AgentInvocation, AgentOutputQuarantine, DiffCapture, TestRunner, StaticCheck, ScopeDiff,
     EvidenceGate, ImplementationVerifier, Evaluator, MemoryUpdate, PRGate, StopOrLoop]
  }

  function BugFixHandlers(): seq<HandlerName> {
    [ManifestValidation, ScrumMapping, DefinitionOfDoneLock, ScopeValidation, FailureReproduction,
     StrategicDesignGate, AgentInvocation, AgentOutputQuarantine, DiffCapture, TestRunner, StaticCheck,
     ScopeDiff, EvidenceGate, ImplementationVerifier, Evaluator, MemoryUpdate, PRGate, StopOrLoop]
  }

  function SecurityReviewHandlers(): seq<HandlerName> {
    [ManifestValidation, ScrumMapping, ScopeValidation, SecurityReviewTestsNotApplicable, DiffCapture,
     SecretScan, DependencyVulnerability, AuthChangeRisk, InputValidationRisk, EvidenceGate,
     SecurityVerifier, Evaluator, PRGate, StopOrLoop]
  }

  function DependencyUpdateHandlers(): seq<HandlerName> {
    [ManifestValidation, ScrumMapping, DefinitionOfDoneLock, DependencyInventory, DependencyRisk,
     LicenseCheck, StrategicDesignGate, AgentInvocation, AgentOutputQuarantine, DiffCapture,
     LockfileValidation, TestRunner, StaticCheck, Build, EvidenceGate, ImplementationVerifier, Evaluator,
     PRGate, StopOrLoop]
  }

  function DocumentationUpdateHandlers(): seq<HandlerName> {
    [ManifestValidation, ScrumMapping, DocumentationGap, StrategicDesignGate, AgentInvocation,
     AgentOutputQuarantine, DiffCapture, LinkCheck, DocumentationVerifier, EvidenceGate, Evaluator,
     PRGate, StopOrLoop]
  }

  function CiFailureRepairHandlers(): seq<HandlerName> {
    [ManifestValidation, ScrumMapping, CIFailureLogParser, FailureClassification, Reproduction,
     StrategicDesignGate, AgentInvocation, AgentOutputQuarantine, DiffCapture, TestRunner,
     CIConfigValidation, EvidenceGate, ImplementationVerifier, Evaluator, PRGate, StopOrLoop]
  }

  function ChainOf(id: ChainId): seq<HandlerName> {
    match id
    case AiReadinessAuditChain => AiReadinessAuditHandlers()
    case ImplementationChain => ImplementationHandlers()
    case BugFixChain => BugFixHandlers()
    case SecurityReviewChain => SecurityReviewHandlers()
    case DependencyUpdateChain => DependencyUpdateHandlers()
    case DocumentationUpdateChain => DocumentationUpdateHandlers()
    case CiFailureRepairChain => CiFailureRepairHandlers()
  }

  /** Routing: every task type names a registered chain. */
  function Resolve(task: TaskType): ChainId {
    match task
    case AiReadinessAudit => AiReadinessAuditChain
    case ImplementationTask => ImplementationChain
    case BugFix => BugFixChain
    case SecurityReview => SecurityReviewChain
    case DependencyUpdate => DependencyUpdateChain
    case DocumentationUpdate => DocumentationUpdateChain
    case CiFailureRepair => CiFailureRepairChain
    case Refactor => ImplementationChain
    case TestCoverageExpansion => ImplementationChain
  }

  // ---------------------------------------------------------------------- positions

  predicate IsVerifier(h: HandlerName) {
    h == AnalysisVerifier || h == ImplementationVerifier || h == DocumentationVerifier || h == SecurityVerifier
  }

  /** Handlers that write the same files are one slot: the verifiers, and the two agent stages. */
  function Slot(h: HandlerName): HandlerName {
    if IsVerifier(h) then ImplementationVerifier
    else if h == AnalysisAgentInvocation then AgentInvocation
    else h
  }

  /** A position no chain has. */
  const NOWHERE := 99

  function AiReadinessAuditPosition(slot: HandlerName): nat {
    match slot
    case ManifestValidation => 0
    case ScrumMapping => 1
    case DefinitionOfDoneLock => 2
    case ScopeValidation => 3
    case RepoInventory => 4
    case CommandDiscovery => 5
    case CIInventory => 6
    case DependencyInventory => 7
    case ReadOnlyCompliance => 8
    case AgentInvocation => 9
    case AgentOutputQuarantine => 10
    case StructuredOutputParser => 11
    case AIReadinessScoring => 12
    case StrategicProgrammingAssessment => 13
    case BacklogFindingGenerator => 14
    case EvidenceGate => 15
    case ImplementationVerifier => 16
    case Evaluator => 17
    case MemoryUpdate => 18
    case BacklogUpdate => 19
    case StopOrLoop => 20
    case _ => NOWHERE
  }

  lemma AiReadinessAuditPositions(i: nat)
    requires i < |AiReadinessAuditHandlers()|
    ensures AiReadinessAuditPosition(Slot(AiReadinessAuditHandlers()[i])) == i
  {
  }

  function ImplementationPosition(slot: HandlerName): nat {
    match slot
    case ManifestValidation => 0
    case ScrumMapping => 1
    case DefinitionOfDoneLock => 2
    case ScopeValidation => 3
    case StrategicDesignGate => 4
    case AgentInvocation => 5
    case AgentOutputQuarantine => 6
    case DiffCapture => 7
    case TestRunner => 8
    case StaticCheck => 9
    case ScopeDiff => 10
    case EvidenceGate => 11
    case ImplementationVerifier => 12
    case Evaluator => 13
    case MemoryUpdate => 14
    case PRGate => 15
    case StopOrLoop => 16
    case _ => NOWHERE
  }

  lemma ImplementationPositions(i: nat)
    requires i < |ImplementationHandlers()|
    ensures ImplementationPosition(Slot(ImplementationHandlers()[i])) == i
  {
  }

  function BugFixPosition(slot: HandlerName): nat {
    match slot
    case ManifestValidation => 0
    case ScrumMapping => 1
    case DefinitionOfDoneLock => 2
    case ScopeValidation => 3
    case FailureReproduction => 4
    case StrategicDesignGate => 5
    case AgentInvocation => 6
    case AgentOutputQuarantine => 7
    case DiffCapture => 8
    case TestRunner => 9
    case StaticCheck => 10
    case ScopeDiff => 11
    case EvidenceGate => 12
    case ImplementationVerifier => 13
    case Evaluator => 14
    case MemoryUpdate => 15
    case PRGate => 16
    case StopOrLoop => 17
    case _ => NOWHERE
  }

  lemma BugFixPositions(i: nat)
    requires i < |BugFixHandlers()|
    ensures BugFixPosition(Slot(BugFixHandlers()[i])) == i
  {
  }

  function SecurityReviewPosition(slot: HandlerName): nat {
    match slot
    case ManifestValidation => 0
    case ScrumMapping => 1
    case ScopeValidation => 2
    case SecurityReviewTestsNotApplicable => 3
    case DiffCapture => 4
    case SecretScan => 5
    case DependencyVulnerability => 6
    case AuthChangeRisk => 7
    case InputValidationRisk => 8
    case EvidenceGate => 9
    case ImplementationVerifier => 10
    case Evaluator => 11
    case PRGate => 12
    case StopOrLoop => 13
    case _ => NOWHERE
  }

  lemma SecurityReviewPositions(i: nat)
    requires i < |SecurityReviewHandlers()|
    ensures SecurityReviewPosition(Slot(SecurityReviewHandlers()[i])) == i
  {
  }

  function DependencyUpdatePosition(slot: HandlerName): nat {
    match slot
    case ManifestValidation => 0
    case ScrumMapping => 1
    case DefinitionOfDoneLock => 2
    case DependencyInventory => 3
    case DependencyRisk => 4
    case LicenseCheck => 5
    case StrategicDesignGate => 6
    case AgentInvocation => 7
    case AgentOutputQuarantine => 8
    case DiffCapture => 9
    case LockfileValidation => 10
    case TestRunner => 11
    case StaticCheck => 12
    case Build => 13
    case EvidenceGate => 14
    case ImplementationVerifier => 15
    case Evaluator => 16
    case PRGate => 17
    case StopOrLoop => 18
    case _ => NOWHERE
  }

  lemma DependencyUpdatePositions(i: nat)
    requires i < |DependencyUpdateHandlers()|
    ensures DependencyUpdatePosition(Slot(DependencyUpdateHandlers()[i])) == i
  {
  }

  function DocumentationUpdatePosition(slot: HandlerName): nat {
    match slot
    case ManifestValidation => 0
    case ScrumMapping => 1
    case DocumentationGap => 2
    case StrategicDesignGate => 3
    case AgentInvocation => 4
    case AgentOutputQuarantine => 5
    case DiffCapture => 6
    case LinkCheck => 7
    case ImplementationVerifier => 8
    case EvidenceGate => 9
    case Evaluator => 10
    case PRGate => 11
    case StopOrLoop => 12
    case _ => NOWHERE
  }

  lemma DocumentationUpdatePositions(i: nat)
    requires i < |DocumentationUpdateHandlers()|
    ensures DocumentationUpdatePosition(Slot(DocumentationUpdateHandlers()[i])) == i
  {
  }

  function CiFailureRepairPosition(slot: HandlerName): nat {
    match slot
    case ManifestValidation => 0
    case ScrumMapping => 1
    case CIFailureLogParser => 2
    case FailureClassification => 3
    case Reproduction => 4
    case StrategicDesignGate => 5
    case AgentInvocation => 6
    case AgentOutputQuarantine => 7
    case DiffCapture => 8
    case TestRunner => 9
    case CIConfigValidation => 10
    case EvidenceGate => 11
    case ImplementationVerifier => 12
    case Evaluator => 13
    case PRGate => 14
    case StopOrLoop => 15
    case _ => NOWHERE
  }

  lemma CiFailureRepairPositions(i: nat)
    requires i < |CiFailureRepairHandlers()|
    ensures CiFailureRepairPosition(Slot(CiFailureRepairHandlers()[i])) == i
  {
  }

  function Position(id: ChainId, slot: HandlerName): nat {
    match id
    case AiReadinessAuditChain => AiReadinessAuditPosition(slot)
    case ImplementationChain => ImplementationPosition(slot)
    case BugFixChain => BugFixPosition(slot)
    case SecurityReviewChain => SecurityReviewPosition(slot)
    case DependencyUpdateChain => DependencyUpdatePosition(slot)
    case DocumentationUpdateChain => DocumentationUpdatePosition(slot)
    case CiFailureRepairChain => CiFailureRepairPosition(slot)
  }

  lemma PositionsHold(id: ChainId, i: nat)
    requires i < |ChainOf(id)|
    ensures Position(id, Slot(ChainOf(id)[i])) == i
  {
    match id
    case AiReadinessAuditChain => AiReadinessAuditPositions(i);
    case ImplementationChain => ImplementationPositions(i);
    case BugFixChain => BugFixPositions(i);
    case SecurityReviewChain => SecurityReviewPositions(i);
    case DependencyUpdateChain => DependencyUpdatePositions(i);
    case DocumentationUpdateChain => DocumentationUpdatePositions(i);
    case CiFailureRepairChain => CiFailureRepairPositions(i);
  }

  ghost predicate DistinctSlots(chain: seq<HandlerName>) {
    forall i, j | 0 <= i < j < |chain| :: Slot(chain[i]) != Slot(chain[j])
  }

  /** No chain has two handlers of the same slot. */
  lemma SlotsAreDistinct(id: ChainId)
    ensures DistinctSlots(ChainOf(id))
  {
    var chain := ChainOf(id);
    forall i, j | 0 <= i < j < |chain| ensures Slot(chain[i]) != Slot(chain[j]) {
      PositionsHold(id, i);
      PositionsHold(id, j);
    }
  }

  // ----------------------------------------------------------- shape of the chains

  /** Position of the verifier in each chain. */
  function VerifierAt(id: ChainId): nat {
    Position(id, ImplementationVerifier)
  }

  /** Handlers that read the verifier decision. */
  predicate Advisory(h: HandlerName) {
    h == Evaluator || h == MemoryUpdate || h == PRGate || h == StopOrLoop
  }

  ghost predicate OneVerifier(chain: seq<HandlerName>, v: nat) {
    && v < |chain|
    && IsVerifier(chain[v])
    && forall i | 0 <= i < |chain| && i != v :: !IsVerifier(chain[i])
  }

  ghost predicate StopsLast(chain: seq<HandlerName>) {
    && |chain| > 0
    && chain[|chain| - 1] == StopOrLoop
    && forall i | 0 <= i < |chain| - 1 :: chain[i] != StopOrLoop
  }

  ghost predicate ReadersAfter(chain: seq<HandlerName>, v: nat) {
    forall i | 0 <= i < |chain| && Advisory(chain[i]) :: i > v
  }

  lemma VerifierPositions(id: ChainId)
    ensures VerifierAt(id) < |ChainOf(id)| && IsVerifier(ChainOf(id)[VerifierAt(id)])
    ensures |ChainOf(id)| == Position(id, StopOrLoop) + 1 < NOWHERE
    ensures ChainOf(id)[|ChainOf(id)| - 1] == StopOrLoop
  {
    match id
    case AiReadinessAuditChain =>
    case ImplementationChain =>
    case BugFixChain =>
    case SecurityReviewChain =>
    case DependencyUpdateChain =>
    case DocumentationUpdateChain =>
    case CiFailureRepairChain =>
  }

  lemma ReaderPositions(id: ChainId, h: HandlerName)
    requires Advisory(h)
    ensures Position(id, h) > VerifierAt(id)
  {
  }

  /** What the handler at one position can be. */
  lemma ShapeAt(id: ChainId, i: nat)
    requires i < |ChainOf(id)|
    ensures IsVerifier(ChainOf(id)[i]) ==> i == VerifierAt(id)
    ensures ChainOf(id)[i] == StopOrLoop ==> i == Position(id, StopOrLoop)
    ensures Advisory(ChainOf(id)[i]) ==> i > VerifierAt(id)
    ensures ChainOf(id)[i] != WorkspacePolicy
  {
    PositionsHold(id, i);
    if Advisory(ChainOf(id)[i]) { ReaderPositions(id, ChainOf(id)[i]); }
    VerifierPositions(id);
    NowhereToBe(id);
  }

  lemma NowhereToBe(id: ChainId)
    ensures Position(id, WorkspacePolicy) == NOWHERE
  {
  }

  /** Every chain has exactly one verifier, whatever reads its decision comes after it, and the
      chain ends with its only StopOrLoop; the API's pseudo handler is in none. */
  lemma ChainShapes(id: ChainId)
    ensures OneVerifier(ChainOf(id), VerifierAt(id))
    ensures StopsLast(ChainOf(id))
    ensures ReadersAfter(ChainOf(id), VerifierAt(id))
    ensures forall i | 0 <= i < |ChainOf(id)| :: ChainOf(id)[i] != WorkspacePolicy
  {
    VerifierPositions(id);
    Collect(id, ChainOf(id));
  }

  lemma Collect(id: ChainId, chain: seq<HandlerName>)
    requires chain == ChainOf(id)
    ensures forall i | 0 <= i < |chain| && i != VerifierAt(id) :: !IsVerifier(chain[i])
    ensures forall i | 0 <= i < |chain| && i != Position(id, StopOrLoop) :: chain[i] != StopOrLoop
    ensures ReadersAfter(chain, VerifierAt(id))
    ensures forall i | 0 <= i < |chain| :: chain[i] != WorkspacePolicy
  {
    forall i: nat | i < |chain|
      ensures IsVerifier(chain[i]) ==> i == VerifierAt(id)
      ensures chain[i] == StopOrLoop ==> i == Position(id, StopOrLoop)
      ensures Advisory(chain[i]) ==> i > VerifierAt(id)
      ensures chain[i] != WorkspacePolicy
    {
      ShapeAt(id, i);
    }
  }

  /** The chains that certify a change with tests. */
  predicate CertifiesChange(id: ChainId) {
    id == ImplementationChain || id == BugFixChain || id == DependencyUpdateChain || id == CiFailureRepairChain
  }

  ghost predicate OnlyAdvisoryAfter(chain: seq<HandlerName>, v: nat) {
    forall i | v < i < |chain| :: Advisory(chain[i])
  }

  /** In those chains the verifier is the one that runs the test gate, and only advisory handlers
      follow it. */
  lemma CertifyingChains(id: ChainId)
    requires CertifiesChange(id)
    ensures VerifierAt(id) < |ChainOf(id)| && ChainOf(id)[VerifierAt(id)] == ImplementationVerifier
    ensures OnlyAdvisoryAfter(ChainOf(id), VerifierAt(id))
  {
    match id
    case ImplementationChain =>
    case BugFixChain =>
    case DependencyUpdateChain =>
    case CiFailureRepairChain =>
  }
}
