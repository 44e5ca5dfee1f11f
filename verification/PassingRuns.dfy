/** Runs that pass. Every registered chain has one: where nothing stands in the way of a run, it reaches
    the end of its chain, and whether it then passes depends on the tree that its last handler leaves. */
module PassingRuns {
  import opened Core
  import opened Text
  import opened Gates
  import opened EvidenceWriter
  import opened ArtifactStore
  import opened Names
  import opened Evidence
  import opened Context
  import opened Executor
  import opened Registry
  import opened Handlers
  import opened ResultLaws
  import opened ChainRuns
  import opened Thesis
  import opened EvidenceOrder

  // ------------------------------------------------------------------- what stands in the way

  predicate VerifierId(s: string) {
    s == ANALYSIS_VERIFIER || s == IMPL_VERIFIER || s == DOC_VERIFIER || s == SECURITY_VERIFIER
  }

  /** A request that brings everything the handlers ask for. */
  ghost predicate Complete(q: Request) {
    && q.runId != "" && q.taskId != "" && q.dodVersion != "" && q.inScope != []
    && q.envelopeReasons == [] && q.scrumReasons == []
    && q.meta.design == Some([]) && q.meta.candidate.None?
    && q.meta.codingAgentRunId != "" && !VerifierId(q.meta.codingAgentRunId)
    && q.meta.tests.outcomes != [] && AllZeroOrMissing(q.meta.tests.outcomes)
    && q.meta.reproduction.Some? && q.meta.reproduction.value.outcomes != []
    && Reproduces(q.meta.reproduction.value.outcomes)
  }

  /** A world that gives such a request what it needs: a clean diff within its scope, checks that find
      nothing, and no analyst. */
  ghost predicate Kind(w: World, q: Request) {
    && w.git.Tree? && !Blank(w.git.diff) && w.git.checkOk
    && AllInScope(w.matcher, RulesOf(q), w.git.changed)
    && w.analyst.NoAnalyst?
    && forall h: HandlerName :: w.aux(h).AuxRecord? && w.aux(h).failures == []
  }

  /** The request is one for this chain: analyses are read-only, and tests are declared not applicable
      where the chain runs none. */
  predicate Suits(id: ChainId, q: Request) {
    && (q.mode == Implementation <==> id != AiReadinessAuditChain)
    && (q.meta.testsNotApplicable <==> id == SecurityReviewChain || id == DocumentationUpdateChain)
  }

  /** Every handler but the last leaves the tree there, as it was. */
  ghost predicate Undisturbed(trees: Trees, repo: Option<Snapshot>) {
    forall h: HandlerName | h != StopOrLoop :: trees(h) == Some(Snapshot0(repo))
  }

  // ---------------------------------------------------------------------- what a handler needs

  /** The handlers that must have run before this one. */
  predicate Prepared(h: HandlerName, q: Request, seen: seq<HandlerName>) {
    match h
    case ImplementationVerifier =>
      && DiffCapture in seen && StrategicDesignGate in seen && AgentOutputQuarantine in seen
      && (q.meta.testsNotApplicable || TestRunner in seen)
    case DocumentationVerifier => DiffCapture in seen && AgentOutputQuarantine in seen
    case SecurityVerifier => DiffCapture in seen
    case DiffCapture => seen != []
    case AnalysisVerifier => RepoInventory in seen
    case EvidenceGate =>
      if q.mode == Implementation then DiffCapture in seen && (q.meta.testsNotApplicable || TestRunner in seen)
      else RepoInventory in seen
    case _ => true
  }

  lemma InPrefix(chain: seq<HandlerName>, j: nat, i: nat)
    requires j < i <= |chain|
    ensures chain[j] in chain[..i]
  {
    assert chain[..i][j] == chain[j];
  }

  /** What ran before the handlers of the chains that change code. */
  lemma PreparedForChange(id: ChainId, q: Request, i: nat)
    requires CertifiesChange(id) && Suits(id, q) && i < |ChainOf(id)|
    ensures Prepared(ChainOf(id)[i], q, ChainOf(id)[..i])
  {
    hide ChainOf, Position;
    var chain := ChainOf(id);
    var diff, tests, design, quarantine := Position(id, DiffCapture), Position(id, TestRunner),
                                           Position(id, StrategicDesignGate), Position(id, AgentOutputQuarantine);
    StagePositions(id);
    if chain[i] == ImplementationVerifier || chain[i] == HandlerName.EvidenceGate {
      LateEnough(id, i);
      InPrefix(chain, diff, i);
      InPrefix(chain, tests, i);
      InPrefix(chain, design, i);
      InPrefix(chain, quarantine, i);
    } else {
      OneVerifierOnly(id, i);
      if chain[i] == DiffCapture {
        PositionsHold(id, i);
        InPrefix(chain, 0, i);
      }
    }
  }

  /** The stages of the chains that change code come in this order. */
  lemma StagePositions(id: ChainId)
    requires CertifiesChange(id)
    ensures StagesInOrder(id)
  {
    hide StagesInOrder;
    match id
    case ImplementationChain => StagesOfImplementation();
    case BugFixChain => StagesOfBugFix();
    case DependencyUpdateChain => StagesOfDependencyUpdate();
    case CiFailureRepairChain => StagesOfRepair();
  }

  lemma StagesOfImplementation() ensures StagesInOrder(ImplementationChain) {}

  lemma StagesOfBugFix() ensures StagesInOrder(BugFixChain) {}

  lemma StagesOfDependencyUpdate() ensures StagesInOrder(DependencyUpdateChain) {}

  lemma StagesOfRepair() ensures StagesInOrder(CiFailureRepairChain) {}

  predicate StagesInOrder(id: ChainId) {
    && Position(id, StrategicDesignGate) < Position(id, AgentOutputQuarantine) < Position(id, DiffCapture)
       < Position(id, TestRunner) < Position(id, HandlerName.EvidenceGate) < |ChainOf(id)|
    && ChainOf(id)[Position(id, StrategicDesignGate)] == StrategicDesignGate
    && ChainOf(id)[Position(id, AgentOutputQuarantine)] == AgentOutputQuarantine
    && ChainOf(id)[Position(id, DiffCapture)] == DiffCapture
    && ChainOf(id)[Position(id, TestRunner)] == TestRunner
  }

  lemma LateEnough(id: ChainId, i: nat)
    requires CertifiesChange(id) && i < |ChainOf(id)|
    requires ChainOf(id)[i] == ImplementationVerifier || ChainOf(id)[i] == HandlerName.EvidenceGate
    ensures i >= Position(id, HandlerName.EvidenceGate)
  {
    PositionsHold(id, i);
    match id
    case ImplementationChain =>
    case BugFixChain =>
    case DependencyUpdateChain =>
    case CiFailureRepairChain =>
  }

  lemma OneVerifierOnly(id: ChainId, i: nat)
    requires CertifiesChange(id) && i < |ChainOf(id)| && ChainOf(id)[i] != ImplementationVerifier
    ensures !IsVerifier(ChainOf(id)[i])
  {
    hide ChainOf;
    ChainShapes(id);
    CertifyingChains(id);
  }

  lemma PreparedForAudit(q: Request, i: nat)
    requires Suits(AiReadinessAuditChain, q) && i < |AiReadinessAuditHandlers()|
    ensures Prepared(AiReadinessAuditHandlers()[i], q, AiReadinessAuditHandlers()[..i])
  {
    if i > 4 { InPrefix(AiReadinessAuditHandlers(), 4, i); }
  }

  lemma PreparedForSecurity(q: Request, i: nat)
    requires Suits(SecurityReviewChain, q) && i < |SecurityReviewHandlers()|
    ensures Prepared(SecurityReviewHandlers()[i], q, SecurityReviewHandlers()[..i])
  {
    if i > 4 { InPrefix(SecurityReviewHandlers(), 4, i); }
  }

  lemma PreparedForDocuments(q: Request, i: nat)
    requires Suits(DocumentationUpdateChain, q) && i < |DocumentationUpdateHandlers()|
    ensures Prepared(DocumentationUpdateHandlers()[i], q, DocumentationUpdateHandlers()[..i])
  {
    if i > 6 {
      InPrefix(DocumentationUpdateHandlers(), 5, i);
      InPrefix(DocumentationUpdateHandlers(), 6, i);
    }
  }

  /** In every registered chain each handler finds run what it needs. */
  lemma ChainsArePrepared(id: ChainId, q: Request, i: nat)
    requires Suits(id, q) && i < |ChainOf(id)|
    ensures Prepared(ChainOf(id)[i], q, ChainOf(id)[..i])
  {
    hide Prepared, Suits, AiReadinessAuditHandlers, SecurityReviewHandlers, DocumentationUpdateHandlers, ImplementationHandlers,
         BugFixHandlers, DependencyUpdateHandlers, CiFailureRepairHandlers;
    match id
    case AiReadinessAuditChain => PreparedForAudit(q, i);
    case SecurityReviewChain => PreparedForSecurity(q, i);
    case DocumentationUpdateChain => PreparedForDocuments(q, i);
    case _ => PreparedForChange(id, q, i);
  }

  // ------------------------------------------------------------------------- what a run has then

  /** The work after these handlers, where nothing stood in the way. */
  ghost predicate WorkHolds(q: Request, m: Matcher, work: Work, seen: seq<HandlerName>) {
    && work.manifest.None? && work.candidate.None? && work.agentOutput.None?
    && (work.lockedDod.Some? ==> work.lockedDod.value == q.dodVersion)
    && (StrategicDesignGate in seen ==> work.strategic == Some([]))
    && (AgentOutputQuarantine in seen ==> work.summaryQuarantined)
    && AllInScope(m, RulesOf(q), work.changedFiles)
    && AllAccepted(work.testOutcomes)
    && (TestRunner in seen && !q.meta.testsNotApplicable ==> AnyRan(work.testOutcomes))
    && (work.codingRunId == "" || work.codingRunId == q.meta.codingAgentRunId)
    && (work.verifierRunId == "" || exists h :: h in seen && IsVerifier(h))
  }

  /** The types on the ledger by then. */
  ghost predicate LedgerHolds(q: Request, entries: seq<LedgerEntry>, seen: seq<HandlerName>) {
    && (DiffCapture in seen ==> Present(entries, DIFF))
    && (TestRunner in seen && !q.meta.testsNotApplicable ==> Present(entries, TEST))
    && (RepoInventory in seen ==> Present(entries, ANALYSIS_REPORT))
  }

  /** The ledger of a run under this request, as far as the gates look at it. */
  ghost predicate LedgerClean(c: Ctx) {
    && Linked(c.ev.writer.ledger, c.ev.runId, c.ev.taskId)
    && AllSound(c.ev.writer.ledger.entries) && DistinctIds(c.ev.writer.ledger.entries)
    && PathOf(c.ev, Change(TestOutput)) != ""
  }

  ghost predicate Ready(c: Ctx, q: Request, m: Matcher, seen: seq<HandlerName>) {
    && c.request == q
    && WorkHolds(q, m, c.work, seen)
    && LedgerHolds(q, c.ev.writer.ledger.entries, seen)
    && LedgerClean(c)
    && c.repo.GetOr(map[]) == c.repoSnapshot && (seen != [] ==> c.repo.Some?)
  }

  /** A handler goes on, leaves the request as it is and the work as it should be. */
  ghost predicate Advances(q: Request, m: Matcher, h: HandlerName, c: Ctx, e: Effect, seen: seq<HandlerName>) {
    && !Failing(e.result)
    && RequestAfter(c.request, e) == q
    && WorkHolds(q, m, e.work, seen + [h])
  }

  /** Handlers that leave the work alone, and are not waited for. */
  predicate Unawaited(h: HandlerName) {
    h != StrategicDesignGate && h != AgentOutputQuarantine && h != TestRunner
  }

  lemma SameWorkHolds(q: Request, m: Matcher, work: Work, h: HandlerName, seen: seq<HandlerName>)
    requires WorkHolds(q, m, work, seen) && Unawaited(h)
    ensures WorkHolds(q, m, work, seen + [h])
  {
    hide AllInScope, AllAccepted, AnyRan, RulesOf, IsVerifier;
    if work.verifierRunId != "" {
      var x :| x in seen && IsVerifier(x);
      assert x in seen + [h];
    }
  }

  lemma QuietlyOn(q: Request, m: Matcher, h: HandlerName, c: Ctx, e: Effect, seen: seq<HandlerName>)
    requires Ready(c, q, m, seen) && Unawaited(h) && e.work == c.work && !e.declaresNoTests && !Failing(e.result)
    ensures Advances(q, m, h, c, e, seen)
  {
    hide WorkHolds, LedgerHolds, LedgerClean;
    SameWorkHolds(q, m, c.work, h, seen);
  }

  // ----------------------------------------------------------------------- one handler at a time

  lemma AuxGoesOn(h: HandlerName, w: World, q: Request, c: Ctx, seen: seq<HandlerName>)
    requires Kind(w, q) && Ready(c, q, w.matcher, seen) && FamilyOf(h) == AuxFamily
    ensures Advances(q, w.matcher, h, c, EffectOf(h, w, c), seen)
  {
    AuxIsPlain(h, w, c);
    hide EffectOf, FamilyOf, Ready, Advances, Failing;
    QuietlyOn(q, w.matcher, h, c, EffectOf(h, w, c), seen);
  }

  lemma AuxIsPlain(h: HandlerName, w: World, c: Ctx)
    requires w.aux(h).AuxRecord? && w.aux(h).failures == [] && FamilyOf(h) == AuxFamily
    ensures var e := EffectOf(h, w, c);
            e.work == c.work && !e.declaresNoTests && !Failing(e.result) && Unawaited(h)
    ensures h == RepoInventory ==> Ledgers(EffectOf(h, w, c), Inventory(RepoTree), ANALYSIS_REPORT, w.aux(h).result)
  {
    hide PathOf;
  }

  lemma ControlGoesOn(h: HandlerName, w: World, q: Request, c: Ctx, seen: seq<HandlerName>)
    requires Complete(q) && Ready(c, q, w.matcher, seen) && FamilyOf(h) == ControlFamily
    requires h != StopOrLoop && h != HandlerName.EvidenceGate && h != DefinitionOfDoneLock
    ensures Advances(q, w.matcher, h, c, EffectOf(h, w, c), seen)
  {
    ControlUnfolds(h, w, c);
    ControlIsPlain(h, w, q, c, seen);
    hide EffectOf, ControlEffect, FamilyOf, Ready, Advances, Failing;
    QuietlyOn(q, w.matcher, h, c, EffectOf(h, w, c), seen);
  }

  /** An effect that changes nothing of the work and lets the run go on. */
  ghost predicate Plainest(e: Effect, c: Ctx) {
    e.work == c.work && !e.declaresNoTests && !Failing(e.result)
  }

  lemma ManifestGoesOn(q: Request, c: Ctx)
    requires Complete(q) && c.request == q && c.work.manifest.None?
    ensures Plainest(ManifestCheck(c), c)
  {
    hide AllReasons;
    var gate := GateResult(EnvelopeGateName, []);
    NoneFails(ManifestValidation, [gate]);
    assert [gate] + [] == [gate];
  }

  lemma ScrumGoesOn(q: Request, c: Ctx)
    requires Complete(q) && c.request == q
    ensures Plainest(ScrumCheck(c), c)
  {
    hide AllReasons;
    NoneFails(ScrumMapping, [GateResult(ScrumGateName, [])]);
  }

  lemma ScopeGoesOn(q: Request, c: Ctx)
    requires Complete(q) && c.request == q && c.repo.GetOr(map[]) == c.repoSnapshot
    ensures Plainest(ScopeCheck(c), c) && Plainest(ComplianceCheck(c), c)
  {
  }

  lemma ControlIsPlain(h: HandlerName, w: World, q: Request, c: Ctx, seen: seq<HandlerName>)
    requires Complete(q) && Ready(c, q, w.matcher, seen) && FamilyOf(h) == ControlFamily
    requires h != StopOrLoop && h != HandlerName.EvidenceGate && h != DefinitionOfDoneLock
    ensures Plainest(ControlEffect(h, w, c), c)
  {
    hide LedgerHolds, LedgerClean, AllInScope, AllAccepted, AnyRan, ManifestCheck, ScrumCheck, ScopeCheck, ComplianceCheck,
         Complete;
    ManifestGoesOn(q, c);
    ScrumGoesOn(q, c);
    ScopeGoesOn(q, c);
  }

  lemma ControlUnfolds(h: HandlerName, w: World, c: Ctx)
    requires FamilyOf(h) == ControlFamily
    ensures EffectOf(h, w, c) == ControlEffect(h, w, c) && Unawaited(h)
  {
    hide ControlEffect;
  }

  lemma NoneFails(h: HandlerName, gates: seq<GateResult>)
    requires |gates| == 1 && gates[0].reasons == []
    ensures FromGates(h, gates) == Done(h, Continue, [], gates)
  {
    assert gates[..0] == [] && AllReasons(gates[..0]) == [];
  }

  lemma LockGoesOn(w: World, q: Request, c: Ctx, seen: seq<HandlerName>)
    requires Complete(q) && Ready(c, q, w.matcher, seen)
    ensures Advances(q, w.matcher, DefinitionOfDoneLock, c, EffectOf(DefinitionOfDoneLock, w, c), seen)
  {
    hide LedgerHolds, LedgerClean, AllInScope, AllAccepted, AnyRan;
    SameWorkHolds(q, w.matcher, c.work, DefinitionOfDoneLock, seen);
  }

  lemma GateGoesOn(w: World, q: Request, c: Ctx, seen: seq<HandlerName>)
    requires Ready(c, q, w.matcher, seen) && Prepared(HandlerName.EvidenceGate, q, seen)
    ensures Advances(q, w.matcher, HandlerName.EvidenceGate, c, EffectOf(HandlerName.EvidenceGate, w, c), seen)
  {
    hide WorkHolds, EvidenceReasons, AllSound, DistinctIds, Linked;
    var required, ledger := RequiredByMode(q), c.ev.writer.ledger;
    assert Supports(ledger, c.ev.runId, c.ev.taskId, required);
    EvidenceGateExact(ledger, c.ev.runId, c.ev.taskId, required);
    NoneFails(HandlerName.EvidenceGate, [EvidenceGateOf(c, required)]);
    QuietlyOn(q, w.matcher, HandlerName.EvidenceGate, c, EffectOf(HandlerName.EvidenceGate, w, c), seen);
  }

  /** The closing handlers never fail; the one that declares tests not applicable is asked only where
      the request has declared it already. */
  lemma ClosingGoesOn(h: HandlerName, w: World, q: Request, c: Ctx, seen: seq<HandlerName>)
    requires Ready(c, q, w.matcher, seen) && FamilyOf(h) == ClosingFamily
    requires h == SecurityReviewTestsNotApplicable ==> q.meta.testsNotApplicable
    ensures Advances(q, w.matcher, h, c, EffectOf(h, w, c), seen)
  {
    ClosingUnfolds(h, w, c);
    ClosingIsPlain(h, w, c);
    hide ClosingEffect, FamilyOf, WorkHolds, LedgerHolds, LedgerClean, Failing, EffectOf;
    var e := EffectOf(h, w, c);
    SameWorkHolds(q, w.matcher, c.work, h, seen);
    if e.declaresNoTests { assert q.meta.(testsNotApplicable := true) == q.meta; }
  }

  lemma ClosingUnfolds(h: HandlerName, w: World, c: Ctx)
    requires FamilyOf(h) == ClosingFamily
    ensures EffectOf(h, w, c) == ClosingEffect(h, w, c) && Unawaited(h)
  {
    hide ClosingEffect;
  }

  /** An effect of a handler that scores at most. */
  ghost predicate Scoring(h: HandlerName, e: Effect, c: Ctx) {
    && e.work == c.work.(evalScore := e.work.evalScore) && !Failing(e.result)
    && (e.declaresNoTests ==> h == SecurityReviewTestsNotApplicable)
  }

  lemma ClosersScore(w: World, c: Ctx)
    ensures Scoring(Evaluator, EvaluationStage(w, c), c)
    ensures Scoring(MemoryUpdate, MemoryStage(w, c), c)
    ensures Scoring(SecurityReviewTestsNotApplicable, NoTestsNote(w, c), c)
  {
    hide PathOf;
  }

  lemma PrGoesOn(w: World, c: Ctx)
    ensures Scoring(PRGate, PrStage(w, c), c)
  {
    hide PathOf, PrReasons;
  }

  lemma ClosingIsPlain(h: HandlerName, w: World, c: Ctx)
    requires FamilyOf(h) == ClosingFamily
    ensures Scoring(h, ClosingEffect(h, w, c), c)
  {
    hide EvaluationStage, MemoryStage, PrStage, NoTestsNote, Scoring;
    ClosersScore(w, c);
    PrGoesOn(w, c);
  }

  // ------------------------------------------------------------------------------- the stages

  lemma StageUnfolds(h: HandlerName, w: World, c: Ctx)
    requires FamilyOf(h) == StageFamily
    ensures EffectOf(h, w, c) == StageEffect(h, w, c)
  {
    hide StageEffect;
  }

  /** No analyst takes part. */
  lemma AnalystGoesOn(w: World, q: Request, c: Ctx, seen: seq<HandlerName>)
    requires Kind(w, q) && Ready(c, q, w.matcher, seen)
    ensures Advances(q, w.matcher, AnalysisAgentInvocation, c, AnalystStage(w, c), seen)
  {
    hide LedgerHolds, LedgerClean, WorkHolds, AllInScope, Blank;
    SameWorkHolds(q, w.matcher, c.work, AnalysisAgentInvocation, seen);
  }

  lemma ParserGoesOn(w: World, q: Request, c: Ctx, seen: seq<HandlerName>)
    requires Ready(c, q, w.matcher, seen)
    ensures Advances(q, w.matcher, StructuredOutputParser, c, ParseStage(w, c), seen)
  {
    hide LedgerHolds, LedgerClean, AllInScope, AllAccepted, AnyRan;
    SameWorkHolds(q, w.matcher, c.work, StructuredOutputParser, seen);
  }

  /** The agent's work was done elsewhere. */
  lemma AgentGoesOn(w: World, q: Request, c: Ctx, seen: seq<HandlerName>)
    requires Complete(q) && Ready(c, q, w.matcher, seen)
    ensures Advances(q, w.matcher, AgentInvocation, c, AgentStage(c), seen)
  {
    hide LedgerHolds, LedgerClean, AllInScope, AllAccepted, AnyRan, AllZeroOrMissing, Reproduces;
    SameWorkHolds(q, w.matcher, c.work, AgentInvocation, seen);
  }

  lemma AwaitedHolds(q: Request, m: Matcher, work: Work, after: Work, h: HandlerName, seen: seq<HandlerName>)
    requires WorkHolds(q, m, work, seen)
    requires || (h == StrategicDesignGate && after == work.(strategic := Some([])))
             || (h == AgentOutputQuarantine && after == work.(summaryQuarantined := true))
    ensures WorkHolds(q, m, after, seen + [h])
  {
    hide AllInScope, AllAccepted, AnyRan, RulesOf, IsVerifier;
    if work.verifierRunId != "" {
      var x :| x in seen && IsVerifier(x);
      assert x in seen + [h];
    }
  }

  lemma DesignGoesOn(w: World, q: Request, c: Ctx, seen: seq<HandlerName>)
    requires Complete(q) && Ready(c, q, w.matcher, seen)
    ensures Advances(q, w.matcher, StrategicDesignGate, c, DesignCheck(c), seen)
  {
    hide LedgerHolds, LedgerClean, WorkHolds, AllReasons, AllZeroOrMissing, Reproduces;
    NoneFails(StrategicDesignGate, [GateResult(StrategicGateName, [])]);
    AwaitedHolds(q, w.matcher, c.work, c.work.(strategic := Some([])), StrategicDesignGate, seen);
  }

  lemma QuarantineGoesOn(w: World, q: Request, c: Ctx, seen: seq<HandlerName>)
    requires Ready(c, q, w.matcher, seen)
    ensures Advances(q, w.matcher, AgentOutputQuarantine, c, QuarantineCheck(c), seen)
  {
    hide LedgerHolds, WorkHolds, Quarantined, Linked, DistinctIds, PathOf;
    var entries := c.ev.writer.ledger.entries;
    forall i | 0 <= i < |entries| ensures !Quarantined(entries[i].artifactPath) { assert SoundEntry(entries[i]); }
    AwaitedHolds(q, w.matcher, c.work, c.work.(summaryQuarantined := true), AgentOutputQuarantine, seen);
  }

  lemma DiffGoesOn(w: World, q: Request, c: Ctx, seen: seq<HandlerName>)
    requires Kind(w, q) && Ready(c, q, w.matcher, seen) && seen != []
    ensures Advances(q, w.matcher, DiffCapture, c, DiffStage(w, c), seen)
  {
    hide LedgerHolds, LedgerClean, AllInScope, AllAccepted, AnyRan, Blank, PathOf;
    SameWorkHolds(q, w.matcher, c.work, DiffCapture, seen);
  }

  lemma AcceptedTogether(a: seq<TestOutcome>, b: seq<TestOutcome>)
    requires AllAccepted(a) && TestsPass(b, Implementation, true)
    ensures AllAccepted(a + b) && AnyRan(a + b)
  {
    hide Accepted;
    var i :| 0 <= i < |b| && b[i].ran;
    assert (a + b)[|a| + i] == b[i];
  }

  lemma TestedHolds(q: Request, m: Matcher, work: Work, outcomes: seq<TestOutcome>, seen: seq<HandlerName>)
    requires WorkHolds(q, m, work, seen) && (q.meta.testsNotApplicable || AnyRan(outcomes)) && AllAccepted(outcomes)
    ensures WorkHolds(q, m, work.(testOutcomes := outcomes), seen + [TestRunner])
  {
    hide AllInScope, AllAccepted, AnyRan, RulesOf, IsVerifier;
    if work.verifierRunId != "" {
      var x :| x in seen && IsVerifier(x);
      assert x in seen + [TestRunner];
    }
  }

  lemma TestsGoOn(w: World, q: Request, c: Ctx, seen: seq<HandlerName>)
    requires Complete(q) && Ready(c, q, w.matcher, seen)
    ensures Advances(q, w.matcher, TestRunner, c, TestStage(w, c), seen)
  {
    hide LedgerHolds, WorkHolds, Linked, AllSound, DistinctIds, PathOf, OutcomesOf, AllZero, Reproduces, TestsPass, AllZeroOrMissing;
    assert AllAccepted(c.work.testOutcomes) && (c.work == c.work.(testOutcomes := c.work.testOutcomes)) by { AcceptedSoFar(q, w.matcher, c.work, seen); }
    if q.meta.testsNotApplicable {
      TestedHolds(q, w.matcher, c.work, c.work.testOutcomes, seen);
    } else {
      var path, items := PathOf(c.ev, Change(TestOutput)), q.meta.tests.outcomes;
      GateAcceptsLogs(items, PYTEST, path);
      var added := OutcomesOf(items, PYTEST, path);
      AcceptedTogether(c.work.testOutcomes, added);
      TestedHolds(q, w.matcher, c.work, c.work.testOutcomes + added, seen);
    }
  }

  lemma AcceptedSoFar(q: Request, m: Matcher, work: Work, seen: seq<HandlerName>)
    requires WorkHolds(q, m, work, seen)
    ensures AllAccepted(work.testOutcomes) && AllInScope(m, RulesOf(q), work.changedFiles)
  {
    hide AllInScope, AllAccepted, AnyRan, RulesOf;
  }

  lemma ScopeDiffGoesOn(w: World, q: Request, c: Ctx, seen: seq<HandlerName>)
    requires Ready(c, q, w.matcher, seen)
    ensures Advances(q, w.matcher, ScopeDiff, c, ScopeDiffCheck(w, c), seen)
  {
    hide LedgerHolds, LedgerClean, WorkHolds, AllInScope, ScopeReasons, AllReasons, RulesOf;
    AcceptedSoFar(q, w.matcher, c.work, seen);
    ScopeClean(w.matcher, RulesOf(q), c.work.changedFiles);
    NoneFails(ScopeDiff, [ScopeGateOf(w, c)]);
    SameWorkHolds(q, w.matcher, c.work, ScopeDiff, seen);
  }

  lemma ReproductionGoesOn(h: HandlerName, file: Name, w: World, q: Request, c: Ctx, seen: seq<HandlerName>)
    requires Complete(q) && Ready(c, q, w.matcher, seen) && (h == FailureReproduction || h == Reproduction)
    ensures Advances(q, w.matcher, h, c, ReproductionStage(h, file, w, c), seen)
  {
    hide LedgerHolds, LedgerClean, AllInScope, AllAccepted, AnyRan, PathOf, Reproduces, AllZeroOrMissing;
    SameWorkHolds(q, w.matcher, c.work, h, seen);
  }

  lemma StageEffectGoesOn(h: HandlerName, w: World, q: Request, c: Ctx, seen: seq<HandlerName>)
    requires Complete(q) && Kind(w, q) && Ready(c, q, w.matcher, seen) && FamilyOf(h) == StageFamily && Prepared(h, q, seen)
    ensures Advances(q, w.matcher, h, c, StageEffect(h, w, c), seen)
  {
    hide Complete, Kind, Ready, Advances, AnalystStage, ParseStage, DesignCheck, AgentStage, QuarantineCheck, DiffStage,
         TestStage, ScopeDiffCheck, ReproductionStage;
    match h
    case StrategicDesignGate => DesignGoesOn(w, q, c, seen);
    case AgentOutputQuarantine => QuarantineGoesOn(w, q, c, seen);
    case DiffCapture => DiffGoesOn(w, q, c, seen);
    case TestRunner => TestsGoOn(w, q, c, seen);
    case ScopeDiff => ScopeDiffGoesOn(w, q, c, seen);
    case FailureReproduction => ReproductionGoesOn(h, Change(FailureReproductionLog), w, q, c, seen);
    case Reproduction => ReproductionGoesOn(h, Change(CiReproductionLog), w, q, c, seen);
    case AnalysisAgentInvocation => AnalystGoesOn(w, q, c, seen);
    case StructuredOutputParser => ParserGoesOn(w, q, c, seen);
    case AgentInvocation => AgentGoesOn(w, q, c, seen);
  }

  lemma StageGoesOn(h: HandlerName, w: World, q: Request, c: Ctx, seen: seq<HandlerName>)
    requires Complete(q) && Kind(w, q) && Ready(c, q, w.matcher, seen) && FamilyOf(h) == StageFamily && Prepared(h, q, seen)
    ensures Advances(q, w.matcher, h, c, EffectOf(h, w, c), seen)
  {
    hide StageEffect, EffectOf, Complete, Kind, Ready, Advances;
    StageUnfolds(h, w, c);
    StageEffectGoesOn(h, w, q, c, seen);
  }

  // ------------------------------------------------------------------------------ the verifier

  lemma VerifierGoesOn(h: HandlerName, w: World, q: Request, c: Ctx, seen: seq<HandlerName>)
    requires Complete(q) && Ready(c, q, w.matcher, seen) && IsVerifier(h) && Prepared(h, q, seen)
    requires forall x | x in seen :: !IsVerifier(x)
    ensures Advances(q, w.matcher, h, c, EffectOf(h, w, c), seen)
  {
    hide EffectOf, WorkHolds, LedgerHolds, LedgerClean, Complete, Coherent, IsVerifier, Failing, Prepared;
    var e := EffectOf(h, w, c);
    VerifierPasses(h, w, q, c, seen);
    HandlersCohere(h, w, c);
    PassGoesOn(h, e);
    VerifiedHolds(q, w.matcher, c.work, e.work, h, seen);
  }

  lemma PassGoesOn(h: HandlerName, e: Effect)
    requires IsVerifier(h) && Coherent(h, e) && e.result.status == StatusPass
    ensures !Failing(e.result) && !e.declaresNoTests
  {
  }

  lemma VerifierPasses(h: HandlerName, w: World, q: Request, c: Ctx, seen: seq<HandlerName>)
    requires Complete(q) && Ready(c, q, w.matcher, seen) && IsVerifier(h) && Prepared(h, q, seen)
    requires forall x | x in seen :: !IsVerifier(x)
    ensures var e := EffectOf(h, w, c);
            e.result.status == StatusPass && e.work == c.work.(verifierRunId := e.work.verifierRunId)
  {
    hide EffectOf, Vouched, LedgerSupports, Ready, Complete, IsVerifier, Prepared, Or;
    VerifierIsExact(h, w, c);
    VerifierNamesItself(h, w, c);
    CanVouch(h, w, q, c, seen, EffectOf(h, w, c).work);
    CanSupport(h, q, c, w.matcher, seen);
  }

  lemma VerifierNamesItself(h: HandlerName, w: World, c: Ctx)
    requires IsVerifier(h)
    ensures EffectOf(h, w, c).work.verifierRunId == Or(c.work.verifierRunId, DefaultRunId(h))
  {
    hide Verification, AllReasons, VerifierGates, EffectOf, VerdictEffect, Or;
    VerifierEffect(h, w, c);
    VerificationQuiet(h, w, VerifierWork(h, c), VerifierGates(h, w, c, VerifierWork(h, c)));
  }

  lemma CanVouch(h: HandlerName, w: World, q: Request, c: Ctx, seen: seq<HandlerName>, after: Work)
    requires Complete(q) && Ready(c, q, w.matcher, seen) && IsVerifier(h) && Prepared(h, q, seen)
    requires forall x | x in seen :: !IsVerifier(x)
    requires after == c.work.(verifierRunId := Or(c.work.verifierRunId, DefaultRunId(h)))
    ensures Vouched(h, w.matcher, c.request, after)
  {
    hide LedgerHolds, LedgerClean, AllInScope, AllAccepted, AnyRan, AllZeroOrMissing, Reproduces, RulesOf;
    assert c.work.verifierRunId == "";
  }

  lemma CanSupport(h: HandlerName, q: Request, c: Ctx, m: Matcher, seen: seq<HandlerName>)
    requires Ready(c, q, m, seen) && IsVerifier(h) && Prepared(h, q, seen)
    ensures LedgerSupports(c, h)
  {
    hide WorkHolds, Linked, AllSound, DistinctIds, Present;
  }

  lemma VerifiedHolds(q: Request, m: Matcher, work: Work, after: Work, h: HandlerName, seen: seq<HandlerName>)
    requires WorkHolds(q, m, work, seen) && IsVerifier(h) && after == work.(verifierRunId := after.verifierRunId)
    ensures WorkHolds(q, m, after, seen + [h])
  {
    hide AllInScope, AllAccepted, AnyRan, RulesOf;
    assert h in seen + [h];
  }

  /** Where nothing stands in the way, every handler goes on, the last one aside. */
  lemma HandlerGoesOn(h: HandlerName, w: World, q: Request, c: Ctx, seen: seq<HandlerName>)
    requires Complete(q) && Kind(w, q) && Ready(c, q, w.matcher, seen) && Prepared(h, q, seen) && h != StopOrLoop
    requires h == SecurityReviewTestsNotApplicable ==> q.meta.testsNotApplicable
    requires IsVerifier(h) ==> forall x | x in seen :: !IsVerifier(x)
    ensures Advances(q, w.matcher, h, c, EffectOf(h, w, c), seen)
  {
    hide EffectOf, Complete, Kind, Ready, Prepared, Advances, AuxFileOf;
    match FamilyOf(h)
    case AuxFamily => AuxGoesOn(h, w, q, c, seen);
    case StageFamily => StageGoesOn(h, w, q, c, seen);
    case VerdictFamily => VerifierGoesOn(h, w, q, c, seen);
    case ClosingFamily => ClosingGoesOn(h, w, q, c, seen);
    case ControlFamily =>
      if h == HandlerName.EvidenceGate {
        GateGoesOn(w, q, c, seen);
      } else if h == DefinitionOfDoneLock {
        LockGoesOn(w, q, c, seen);
      } else {
        ControlGoesOn(h, w, q, c, seen);
      }
  }

  // --------------------------------------------------------------------------------- whole runs

  /** Where nothing stood in the way of the handlers before it, nothing stands in the way of this one. */
  ghost predicate Obliged(h: HandlerName, w: World, q: Request, c: Ctx, seen: seq<HandlerName>) {
    && Ready(c, q, w.matcher, seen) && Prepared(h, q, seen) && h != StopOrLoop
    && (h == SecurityReviewTestsNotApplicable ==> q.meta.testsNotApplicable)
    && (IsVerifier(h) ==> forall x | x in seen :: !IsVerifier(x))
  }

  /** What such an effect does then, and what the inventory and the verifiers record in any case. */
  ghost predicate Willing(h: HandlerName, w: World, q: Request, c: Ctx, e: Effect) {
    && (forall seen: seq<HandlerName> :: Obliged(h, w, q, c, seen) ==> Advances(q, w.matcher, h, c, e, seen))
    && (h == RepoInventory ==> w.aux(h).AuxRecord? && Ledgers(e, Inventory(RepoTree), ANALYSIS_REPORT, w.aux(h).result))
    && (IsVerifier(h) ==> e.ops == [ReportOp(w, e.result)])
  }

  ghost predicate AllWilling(l: Launch, w: World) {
    forall h: HandlerName, c: Ctx :: Willing(h, w, l.start.request, c, l.effects(h, c))
  }

  lemma EffectsAreWilling(h: HandlerName, w: World, q: Request, c: Ctx)
    requires Complete(q) && Kind(w, q)
    ensures Willing(h, w, q, c, EffectOf(h, w, c))
  {
    hide EffectOf, Complete, Ready, Prepared, Advances, Ledgers, ReportOp, IsVerifier, AllInScope, Blank;
    forall seen: seq<HandlerName> | Obliged(h, w, q, c, seen) ensures Advances(q, w.matcher, h, c, EffectOf(h, w, c), seen) {
      HandlerGoesOn(h, w, q, c, seen);
    }
    if h == RepoInventory { AuxIsPlain(h, w, c); }
    if IsVerifier(h) { VerifiersReport(h, w, c); }
  }

  /** A launch of a registered chain with nothing in its way, but for what its last handler may leave. */
  ghost predicate Clear(l: Launch, id: ChainId, w: World) {
    && Chain(l) == ChainOf(id) && RunsChain(l, VerifierAt(id), w) && Careful(l)
    && l.start.work.manifest.None? && AllWilling(l, w)
    && Complete(l.start.request) && Suits(id, l.start.request)
    && Undisturbed(l.trees, l.start.repo)
  }

  /** The run has not been cut after n handlers, and has what it should. */
  ghost predicate Onward(l: Launch, w: World, t: seq<Run>, n: nat) {
    && n < |t| && n <= |Chain(l)| && !t[n].halted
    && Ready(t[n].ctx, l.start.request, w.matcher, Chain(l)[..n])
  }

  lemma CleanAlong(l: Launch, t: seq<Run>, n: nat)
    requires Unworked(l.start) && Careful(l) && Traced(l, t) && n < |t| && l.start.request.runId != "" && l.start.request.taskId != ""
    ensures LedgerClean(t[n].ctx)
  {
    hide Careful, Traced, Built, Placed, Mirrored, OneAttempt, Agreement, AllSound, DistinctIds;
    var names := EvidenceStaysSound(l, t, n);
    GrownIsSound(t[n].ctx.ev, names);
    PathIsNamed(l, t, n, Change(TestOutput));
    LedgerOnlyGrows(l, t, 0, n);
    TraceStarts(l, t);
  }

  lemma StartIsReady(l: Launch, id: ChainId, w: World, t: seq<Run>)
    requires Clear(l, id, w) && Traced(l, t)
    ensures Onward(l, w, t, 0)
  {
    hide LawfulIn, WellShaped, Careful, AllWilling, LedgerClean, TracedAt;
    CleanAlong(l, t, 0);
    TraceStarts(l, t);
    assert Chain(l)[..0] == [];
  }

  lemma PresentFrom(entries: seq<LedgerEntry>, p: nat, kind: ArtifactType, path: string, result: LedgerResult)
    requires Recorded(entries, p, kind, path, result)
    ensures Present(entries, kind)
  {
    assert entries[p] in entries;
  }

  lemma StillPresent(a: seq<LedgerEntry>, b: seq<LedgerEntry>, kind: ArtifactType)
    requires a <= b && Present(a, kind)
    ensures Present(b, kind)
  {
    var e :| e in a && e.artifactType == kind;
    assert e in b;
  }

  lemma LedgerHoldsNext(q: Request, a: seq<LedgerEntry>, b: seq<LedgerEntry>, seen: seq<HandlerName>, h: HandlerName)
    requires LedgerHolds(q, a, seen) && a <= b
    requires h == DiffCapture ==> Present(b, DIFF)
    requires h == TestRunner && !q.meta.testsNotApplicable ==> Present(b, TEST)
    requires h == RepoInventory ==> Present(b, ANALYSIS_REPORT)
    ensures LedgerHolds(q, b, seen + [h])
  {
    hide Present;
    if DiffCapture in seen { StillPresent(a, b, DIFF); }
    if TestRunner in seen && !q.meta.testsNotApplicable { StillPresent(a, b, TEST); }
    if RepoInventory in seen { StillPresent(a, b, ANALYSIS_REPORT); }
  }

  /** The awaited types are on the ledger once their handlers have run. */
  lemma NewlyPresent(l: Launch, v: nat, w: World, t: seq<Run>, i: nat, kind: ArtifactType)
    requires RunsChain(l, v, w) && AllWilling(l, w) && Traced(l, t) && i + 1 < |t| && i < |Chain(l)|
    requires !Failing(EffectAt(l, t[i], Chain(l)[i]).result)
    requires || (Chain(l)[i] == DiffCapture && kind == DIFF)
             || (Chain(l)[i] == TestRunner && !t[i].ctx.request.meta.testsNotApplicable && kind == TEST)
             || (Chain(l)[i] == RepoInventory && kind == ANALYSIS_REPORT)
    ensures Present(t[i + 1].ctx.ev.writer.ledger.entries, kind)
  {
    hide RunsChain, Traced, After, Present, PathOf, Recorded, Failing, Coherent, RealGrowth, Judges, KeepsWork, Obliged, Advances, Place;
    var h, e, r := StepOf(l, v, w, t, i);
    assert Willing(h, w, l.start.request, t[i].ctx, l.effects(h, t[i].ctx));
    var name, result := e.ops[0].name, e.ops[0].entry.value.result;
    RecordedNext(l, v, w, t, i, name, kind, result);
    PresentFrom(t[i + 1].ctx.ev.writer.ledger.entries, |t[i].ctx.ev.writer.ledger.entries|, kind, PathOf(t[i].ctx.ev, name), result);
  }

  lemma LedgerStepHolds(l: Launch, v: nat, w: World, t: seq<Run>, i: nat)
    requires RunsChain(l, v, w) && AllWilling(l, w) && Traced(l, t) && i + 1 < |t| && i < |Chain(l)|
    requires t[i].ctx.request == l.start.request && !Failing(EffectAt(l, t[i], Chain(l)[i]).result)
    requires LedgerHolds(l.start.request, t[i].ctx.ev.writer.ledger.entries, Chain(l)[..i])
    ensures LedgerHolds(l.start.request, t[i + 1].ctx.ev.writer.ledger.entries, Chain(l)[..i] + [Chain(l)[i]])
  {
    hide RunsChain, AllWilling, Traced, EffectAt, Failing, LedgerHolds, Present;
    LedgerOnlyGrows(l, t, i, i + 1);
    var h := Chain(l)[i];
    if h == DiffCapture { NewlyPresent(l, v, w, t, i, DIFF); }
    if h == TestRunner && !t[i].ctx.request.meta.testsNotApplicable { NewlyPresent(l, v, w, t, i, TEST); }
    if h == RepoInventory { NewlyPresent(l, v, w, t, i, ANALYSIS_REPORT); }
    LedgerHoldsNext(l.start.request, t[i].ctx.ev.writer.ledger.entries, t[i + 1].ctx.ev.writer.ledger.entries, Chain(l)[..i], h);
  }

  lemma NoneBefore(chain: seq<HandlerName>, v: nat, i: nat)
    requires WellShaped(chain, v) && i < |chain|
    ensures IsVerifier(chain[i]) ==> forall x | x in chain[..i] :: !IsVerifier(x)
    ensures i + 1 < |chain| ==> chain[i] != StopOrLoop
  {
    hide IsVerifier, Late, Advisory;
    assert Place(chain, v, i);
    forall j: nat | j < i ensures chain[..i][j] == chain[j] && (IsVerifier(chain[j]) <==> j == v) {
      assert Place(chain, v, j);
    }
  }

  lemma DeclaresWhereSuited(id: ChainId, q: Request, i: nat)
    requires Suits(id, q) && i < |ChainOf(id)| && ChainOf(id)[i] == SecurityReviewTestsNotApplicable
    ensures q.meta.testsNotApplicable
  {
    PositionsHold(id, i);
    VerifierPositions(id);
  }

  lemma HandlerAdvances(l: Launch, id: ChainId, w: World, t: seq<Run>, n: nat)
    requires Clear(l, id, w) && Traced(l, t) && n + 1 < |Chain(l)| && Onward(l, w, t, n)
    ensures Advances(l.start.request, w.matcher, Chain(l)[n], t[n].ctx, EffectAt(l, t[n], Chain(l)[n]), Chain(l)[..n])
    ensures n + 1 < |t|
  {
    hide LawfulIn, Unworked, WellShaped, Careful, TracedAt, Complete, Suits, Undisturbed, Ready, Advances, Prepared, IsVerifier, ChainOf,
         VerifierAt;
    var h := Chain(l)[n];
    ChainsArePrepared(id, l.start.request, n);
    NoneBefore(Chain(l), VerifierAt(id), n);
    if h == SecurityReviewTestsNotApplicable { DeclaresWhereSuited(id, l.start.request, n); }
    assert Willing(h, w, l.start.request, t[n].ctx, l.effects(h, t[n].ctx));
    assert Obliged(h, w, l.start.request, t[n].ctx, Chain(l)[..n]);
  }

  lemma StepOnward(l: Launch, id: ChainId, w: World, t: seq<Run>, n: nat)
    requires Clear(l, id, w) && Traced(l, t) && n + 1 < |Chain(l)| && Onward(l, w, t, n)
    ensures Onward(l, w, t, n + 1)
  {
    hide LawfulIn, Unworked, WellShaped, Careful, AllWilling, Traced, Suits, ChainOf, VerifierAt, WorkHolds, LedgerHolds, LedgerClean,
         TypeOf, Decided, PerformAll, Closed, Lawful, Place, IsVerifier, RequestAfter, Failing;
    var v, q := VerifierAt(id), l.start.request;
    HandlerAdvances(l, id, w, t, n);
    NoneBefore(Chain(l), v, n);
    var h, e, r := StepOf(l, v, w, t, n);
    AllAlong(l, v, w, t, n + 1);
    LedgerStepHolds(l, v, w, t, n);
    CleanAlong(l, t, n + 1);
    assert Chain(l)[..n + 1] == Chain(l)[..n] + [h];
    assert !Mutated(t[n + 1].ctx);
    GoingOnDoesNotCut(h, w, t[n].ctx, e);
  }

  lemma GoingOnDoesNotCut(h: HandlerName, w: World, c: Ctx, e: Effect)
    requires Lawful(h, w, c, e) && h != StopOrLoop && !Failing(e.result)
    ensures !Cutting(e.result)
  {
    hide RealGrowth, Judges, KeepsWork, Records;
  }

  lemma {:induction false} AllOnward(l: Launch, id: ChainId, w: World, t: seq<Run>, n: nat)
    requires Clear(l, id, w) && Traced(l, t) && n < |Chain(l)|
    ensures Onward(l, w, t, n)
  {
    hide *;
    if n == 0 {
      StartIsReady(l, id, w, t);
    } else {
      AllOnward(l, id, w, t, n - 1);
      StepOnward(l, id, w, t, n - 1);
    }
  }

  /** With nothing in its way a run reaches the end of its chain and closes its ledger as PASS; it then
      passes exactly when the tree its last handler leaves is the one it started from, or gone. */
  lemma ClearRunsFinish(l: Launch, id: ChainId, w: World, t: seq<Run>)
    requires Clear(l, id, w) && Traced(l, t)
    ensures |t| == |Chain(l)| + 1
    ensures t[|t| - 1].ctx.ev.writer.ledger.finalStatus == Pass
    ensures VerdictOf(t[|t| - 1]) == RunPass <==> Unchanged(l.trees(StopOrLoop), l.start.repo)
  {
    hide LawfulIn, Unworked, WellShaped, Careful, AllWilling, TracedAt, Complete, Suits, Ready, ChainOf, VerifierAt, VerdictOf;
    var v := VerifierAt(id);
    ShapeEnds(Chain(l), v);
    AllOnward(l, id, w, t, |Chain(l)| - 1);
    PassIsWhole(l, v, w, t);
    LedgerCloses(l, v, w, t);
    LedgerAgreesWithVerdict(l, v, w, t);
  }

  // ------------------------------------------------------------------------ registered launches

  lemma ClearLaunch(l: Launch, id: ChainId, w: World, q: Request)
    requires Chain(l) == ChainOf(id) && RunsChain(l, VerifierAt(id), w) && Careful(l) && l.start.work.manifest.None?
    requires l.effects == EffectsIn(w) && l.start.request == q && Undisturbed(l.trees, l.start.repo)
    requires Complete(q) && Kind(w, q) && Suits(id, q)
    ensures Clear(l, id, w)
  {
    hide RunsChain, Careful, EffectOf, Complete, Kind, Suits, Undisturbed, ChainOf, VerifierAt, Willing;
    forall h: HandlerName, c: Ctx ensures Willing(h, w, q, c, l.effects(h, c)) {
      EffectsAreWilling(h, w, q, c);
    }
  }

  /** A task type that a chain serves. */
  function TaskOf(id: ChainId): (task: TaskType)
    ensures Resolve(task) == id
  {
    match id
    case AiReadinessAuditChain => AiReadinessAudit
    case ImplementationChain => ImplementationTask
    case BugFixChain => BugFix
    case SecurityReviewChain => SecurityReview
    case DependencyUpdateChain => DependencyUpdate
    case DocumentationUpdateChain => DocumentationUpdate
    case CiFailureRepairChain => CiFailureRepair
  }

  /** A request that brings everything, for each chain. */
  function SampleRequest(id: ChainId): Request {
    Request("run", "task", TaskOf(id),
            if id == AiReadinessAuditChain then ReadOnlyAnalysis else Implementation,
            ["*"], [], "1", [], [],
            Metadata(Some([]), None, "coder", id == SecurityReviewChain || id == DocumentationUpdateChain,
                     RunPlan([LogItem(None, Code(0))], []), Some(RunPlan([LogItem(None, Code(1))], []))))
  }

  /** A world that gives it what it needs on a tree, and whose last handler leaves another. */
  function SampleWorld(text: Name -> string, before: Snapshot, tree: Option<Snapshot>): World {
    World((path, pattern) => true, text, h => if h == StopOrLoop then tree else Some(before),
          Tree("diff", "", "", true, ["file"]), (h, k) => Rejected, h => AuxRecord("", "", EntryInfo, []),
          NoAnalyst, None, entries => 1.0, commands => "")
  }

  lemma RequestFits(id: ChainId)
    ensures Complete(SampleRequest(id)) && Suits(id, SampleRequest(id))
    ensures RulesOf(SampleRequest(id)) == ScopeRules(["*"], [], [], [], [], false)
  {
    var meta := SampleRequest(id).meta;
    assert meta.reproduction.value.outcomes[0].exitCode == Code(1);
    assert meta.tests.outcomes[0].exitCode == Code(0);
  }

  lemma WorldFits(text: Name -> string, repo: Option<Snapshot>, tree: Option<Snapshot>)
    ensures var w := SampleWorld(text, Snapshot0(repo), tree);
            && w.git == Tree("diff", "", "", true, ["file"]) && w.analyst.NoAnalyst?
            && (forall path: string, pattern: string :: w.matcher(path, pattern))
            && (forall h: HandlerName :: w.aux(h) == AuxRecord("", "", EntryInfo, []))
            && Undisturbed(w.repoAfter, repo) && w.repoAfter(StopOrLoop) == tree
  {
  }

  lemma NotBlank()
    ensures !Blank("diff")
  {
    assert "diff"[0] == 'd';
  }

  lemma SamplesFit(id: ChainId, text: Name -> string, repo: Option<Snapshot>, tree: Option<Snapshot>)
    ensures var q, w := SampleRequest(id), SampleWorld(text, Snapshot0(repo), tree);
            Complete(q) && Kind(w, q) && Suits(id, q) && Undisturbed(w.repoAfter, repo) && w.repoAfter(StopOrLoop) == tree
  {
    hide Complete, Suits, SampleRequest, SampleWorld, RulesOf, AllInScope, Undisturbed, Blank;
    RequestFits(id);
    WorldFits(text, repo, tree);
    NotBlank();
    SampleIsInScope(SampleWorld(text, Snapshot0(repo), tree).matcher);
  }

  lemma SampleIsInScope(m: Matcher)
    requires forall path: string, pattern: string :: m(path, pattern)
    ensures AllInScope(m, ScopeRules(["*"], [], [], [], [], false), ["file"])
  {
    var rules := ScopeRules(["*"], [], [], [], [], false);
    assert m(ForwardSlashes("file"), ForwardSlashes(rules.inScope[0]));
  }

  lemma ClearRegistered(id: ChainId, w: World, text: (Decision, HandlerResult) -> string, q: Request, store: Store,
                        naming: Naming, repo: Option<Snapshot>)
    returns (l: Launch, t: seq<Run>)
    requires WellFormed(store.root) && Complete(q) && Kind(w, q) && Suits(id, q) && Undisturbed(w.repoAfter, repo)
    ensures l == NewLaunch(id, w, text, q, store, naming, repo, None)
    ensures RunsChain(l, VerifierAt(id), w) && Traced(l, t) && t[|t| - 1] == End(l) && Clear(l, id, w)
    ensures VerdictOf(End(l)) == RunPass <==> Unchanged(w.repoAfter(StopOrLoop), repo)
    ensures End(l).ctx.ev.writer.ledger.finalStatus == Pass
  {
    hide *;
    l, t := RegisteredRuns(id, w, text, q, store, naming, repo, None);
    ClearLaunch(l, id, w, q);
    ClearRunsFinish(l, id, w, t);
  }

  lemma SameTreeIsUnchanged(tree: Snapshot)
    ensures Unchanged(Some(tree), Some(tree)) && Snapshot0(Some(tree)) == tree
  {
  }

  /** Every registered chain has a run that passes, from any tree, store and naming, and so has everything
      that passing runs are shown to have. */
  lemma EveryChainCanPass(id: ChainId, texts: Name -> string, text: (Decision, HandlerResult) -> string, store: Store,
                          naming: Naming, tree: Snapshot)
    returns (l: Launch, t: seq<Run>)
    requires WellFormed(store.root)
    ensures l == NewLaunch(id, SampleWorld(texts, tree, Some(tree)), text, SampleRequest(id), store, naming, Some(tree), None)
    ensures RunsChain(l, VerifierAt(id), SampleWorld(texts, tree, Some(tree))) && Traced(l, t) && t[|t| - 1] == End(l)
    ensures Clear(l, id, SampleWorld(texts, tree, Some(tree)))
    ensures VerdictOf(End(l)) == RunPass
  {
    hide *;
    SamplesFit(id, texts, Some(tree), Some(tree));
    SameTreeIsUnchanged(tree);
    l, t := ClearRegistered(id, SampleWorld(texts, tree, Some(tree)), text, SampleRequest(id), store, naming, Some(tree));
  }

  /** Ledger and verdict agree on whether a run passed. */
  ghost predicate EndsAgree(l: Launch) {
    End(l).ctx.ev.writer.ledger.finalStatus == Pass <==> VerdictOf(End(l)) == RunPass
  }

  lemma AgreesIfUnchanged(id: ChainId, w: World, text: (Decision, HandlerResult) -> string, q: Request, store: Store,
                          naming: Naming, repo: Option<Snapshot>)
    requires WellFormed(store.root) && Unchanged(w.repoAfter(StopOrLoop), repo)
    ensures EndsAgree(NewLaunch(id, w, text, q, store, naming, repo, None))
  {
    hide NewLaunch, RunsChain, Careful, EffectsIn, Traced, ChainOf, VerifierAt, WellFormed, VerdictOf;
    var l, t := RegisteredRuns(id, w, text, q, store, naming, repo, None);
    LedgerAgreesWithVerdict(l, VerifierAt(id), w, t);
  }

  lemma DisagreesIfChanged(id: ChainId, texts: Name -> string, text: (Decision, HandlerResult) -> string, store: Store,
                           naming: Naming, repo: Option<Snapshot>, tree: Option<Snapshot>)
    requires WellFormed(store.root) && !Unchanged(tree, repo)
    ensures !EndsAgree(NewLaunch(id, SampleWorld(texts, Snapshot0(repo), tree), text, SampleRequest(id), store, naming, repo, None))
  {
    hide NewLaunch, RunsChain, Traced, ChainOf, VerifierAt, WellFormed, VerdictOf, SampleWorld, SampleRequest, Clear, Complete, Kind,
         Suits, Undisturbed, Unchanged, End;
    SamplesFit(id, texts, repo, tree);
    var l, t := ClearRegistered(id, SampleWorld(texts, Snapshot0(repo), tree), text, SampleRequest(id), store, naming, repo);
  }

  /** For each registered chain, and for what its last handler leaves of a tree: the ledger says PASS of
      just the runs that pass, whatever the request and the world, exactly when that tree is the one the
      run started from, or gone. */
  lemma AgreementIsExact(id: ChainId, text: (Decision, HandlerResult) -> string, store: Store, naming: Naming,
                         repo: Option<Snapshot>, tree: Option<Snapshot>)
    requires WellFormed(store.root)
    ensures (forall w: World, q: Request | w.repoAfter(StopOrLoop) == tree ::
               EndsAgree(NewLaunch(id, w, text, q, store, naming, repo, None)))
            <==> Unchanged(tree, repo)
  {
    hide NewLaunch, WellFormed, Unchanged, EndsAgree;
    if Unchanged(tree, repo) {
      forall w: World, q: Request | w.repoAfter(StopOrLoop) == tree
        ensures EndsAgree(NewLaunch(id, w, text, q, store, naming, repo, None))
      {
        AgreesIfUnchanged(id, w, text, q, store, naming, repo);
      }
    } else {
      var texts := (n: Name) => "";
      DisagreesIfChanged(id, texts, text, store, naming, repo, tree);
      assert SampleWorld(texts, Snapshot0(repo), tree).repoAfter(StopOrLoop) == tree;
    }
  }

  /** What `FixIsProven` says of a clear run of the bug-fix chain: all it asks for is there. */
  lemma ClearFixIsProven(l: Launch, w: World, t: seq<Run>) returns (trail: Trail, items: seq<LogItem>)
    requires Clear(l, BugFixChain, w) && Traced(l, t) && VerdictOf(t[|t| - 1]) == RunPass
    ensures trail.reproduction < trail.diff < trail.tests
    ensures var end := t[|t| - 1].ctx;
            && Reproduced(end, FailureReproduction, trail.reproduction) && Changed(end, trail.diff)
            && AllZeroOrMissing(items) && Tested(end, trail.tests, items)
  {
    BugFixPlaces(l);
    hide RunsChain, Careful, AllWilling, Traced, VerdictOf, Reproduced, Changed, Tested, Gather, Complete, Undisturbed, Mutated,
         Onward, AllZeroOrMissing, SomeKeyMissing, VerifierAt, ChainOf;
    PassIsWhole(l, VerifierAt(BugFixChain), w, t);
    AllOnward(l, BugFixChain, w, t, 9);
    var command;
    trail, items, command := FixIsProven(l, VerifierAt(BugFixChain), w, t, 4, 8, 9);
  }

  lemma BugFixPlaces(l: Launch)
    requires Chain(l) == ChainOf(BugFixChain)
    ensures |Chain(l)| > 13 && Chain(l)[4] == FailureReproduction && Chain(l)[8] == DiffCapture && Chain(l)[9] == TestRunner
    ensures VerifierAt(BugFixChain) == 13 && Chain(l)[13] == ImplementationVerifier
  {
  }

  // ------------------------------------------------------------- an artifact of every such run

  /** Among the artifacts is one at this path with this hash. */
  ghost predicate HasArtifact(artifacts: seq<Artifact>, path: string, hash: string) {
    exists i | 0 <= i < |artifacts| :: artifacts[i].path == path && artifacts[i].hash == hash
  }

  lemma StillHas(a: seq<Artifact>, b: seq<Artifact>, path: string, hash: string)
    requires a <= b && HasArtifact(a, path, hash)
    ensures HasArtifact(b, path, hash)
  {
    var i :| 0 <= i < |a| && a[i].path == path && a[i].hash == hash;
    assert b[i] == a[i];
  }

  lemma {:induction false} PerformAllKeepsArtifacts(ev: Evidence, ops: seq<Op>)
    ensures ev.artifacts <= PerformAll(ev, ops).artifacts
    decreases |ops|
  {
    if ops != [] { PerformAllKeepsArtifacts(Perform(ev, ops[0]), ops[1..]); }
  }

  lemma StepKeepsArtifacts(l: Launch, before: Run, after: Run, i: nat, name: HandlerName)
    requires Stepped(l, before, after, i, name)
    ensures PerformAll(before.ctx.ev, EffectAt(l, before, name).ops).artifacts <= after.ctx.ev.artifacts
    ensures before.ctx.ev.artifacts <= after.ctx.ev.artifacts
  {
    var data := StepEvidence(l, before, after, i, name);
    hide Stepped, PerformAll, EffectAt, Finalize, WriteAt;
    PerformAllKeepsArtifacts(before.ctx.ev, EffectAt(l, before, name).ops);
  }

  lemma {:induction false} ArtifactsKept(l: Launch, t: seq<Run>, m: nat, n: nat)
    requires Traced(l, t) && m <= n < |t|
    ensures t[m].ctx.ev.artifacts <= t[n].ctx.ev.artifacts
  {
    hide *;
    if m < n {
      ArtifactsKept(l, t, m, n - 1);
      TraceStep(l, t, n - 1);
      StepKeepsArtifacts(l, t[n - 1], t[n], n - 1, Chain(l)[n - 1]);
    }
  }

  lemma PutIsHad(ev: Evidence, op: Op)
    requires op.joins
    ensures HasArtifact(Perform(ev, op).artifacts, PathOf(ev, op.name), ev.store.digest(op.data))
  {
    hide Append;
    var artifacts := Perform(ev, op).artifacts;
    assert artifacts == ev.artifacts + [Put(ev, op).1];
    assert artifacts[|ev.artifacts|] == Put(ev, op).1;
  }

  lemma RecordedIsHad(ev: Evidence, op: Op)
    requires op.joins
    ensures HasArtifact(PerformAll(ev, [op]).artifacts, PathOf(ev, op.name), ev.store.digest(op.data))
  {
    hide *;
    OneOp(ev, op);
    PutIsHad(ev, op);
  }

  /** What a handler of a clear run records is among the artifacts at the end. */
  lemma RecordedAtEnd(l: Launch, id: ChainId, w: World, t: seq<Run>, i: nat, op: Op)
    requires Clear(l, id, w) && Traced(l, t) && i < |Chain(l)| < |t|
    requires op.joins && EffectAt(l, t[i], Chain(l)[i]).ops == [op]
    ensures HasArtifact(t[|t| - 1].ctx.ev.artifacts, PathOf(l.start.ev, op.name), l.start.ev.store.digest(op.data))
  {
    hide TracedAt, RunsChain, Careful, AllWilling, Complete, Suits, Undisturbed, EffectAt, PathOf, HasArtifact, PerformAll, Stepped, VerifierAt, ChainOf;
    TraceStep(l, t, i);
    StepKeepsArtifacts(l, t[i], t[i + 1], i, Chain(l)[i]);
    RecordedIsHad(t[i].ctx.ev, op);
    ArtifactsKept(l, t, i + 1, |t| - 1);
    StillHas(PerformAll(t[i].ctx.ev, [op]).artifacts, t[|t| - 1].ctx.ev.artifacts, PathOf(t[i].ctx.ev, op.name),
             t[i].ctx.ev.store.digest(op.data));
    LedgerOnlyGrows(l, t, 0, i);
    SamePaths(t[0].ctx.ev, t[i].ctx.ev, op.name);
  }

  /** A clear run of any chain ends with the report of its verifier among its artifacts. */
  lemma ReportIsRecorded(l: Launch, id: ChainId, w: World, t: seq<Run>)
    requires Clear(l, id, w) && Traced(l, t)
    ensures |t| > 0 && HasArtifact(t[|t| - 1].ctx.ev.artifacts, PathOf(l.start.ev, Verdict(VerifierReportFile)),
                                   l.start.ev.store.digest(w.text(Verdict(VerifierReportFile))))
  {
    hide LawfulIn, WellShaped, Unworked, Careful, TracedAt, Complete, Suits, Undisturbed, Obliged, Advances, ReportOp, PathOf, HasArtifact,
         VerifierAt, ChainOf, IsVerifier;
    var v := VerifierAt(id);
    ClearRunsFinish(l, id, w, t);
    ShapeEnds(Chain(l), v);
    var e := EffectAt(l, t[v], Chain(l)[v]);
    assert Willing(Chain(l)[v], w, l.start.request, t[v].ctx, e);
    ReportSays(w, e.result);
    RecordedAtEnd(l, id, w, t, v, ReportOp(w, e.result));
  }

  lemma ReportSays(w: World, r: HandlerResult)
    ensures var op := ReportOp(w, r); op.joins && op.name == Verdict(VerifierReportFile) && op.data == w.text(op.name)
  {
  }

  lemma VerificationReports(h: HandlerName, w: World, work: Work, gates: seq<GateResult>)
    ensures var e := Verification(h, w, work, gates); e.ops == [ReportOp(w, e.result)]
  {
  }

  lemma VerifiersReport(h: HandlerName, w: World, c: Ctx)
    requires IsVerifier(h)
    ensures EffectOf(h, w, c).ops == [ReportOp(w, EffectOf(h, w, c).result)]
  {
    hide Verification, ReportOp, SelfGate, EvidenceGateOf, ScopeGateOf, ChangeGates, Or;
    match h {
      case AnalysisVerifier =>
        var work := c.work.(verifierRunId := Or(c.work.verifierRunId, ANALYSIS_VERIFIER));
        VerificationReports(h, w, work, [SelfGate(work, false), EvidenceGateOf(c, [ANALYSIS_REPORT])]);
      case ImplementationVerifier =>
        var work := c.work.(verifierRunId := Or(c.work.verifierRunId, IMPL_VERIFIER));
        VerificationReports(h, w, work, ChangeGates(w, c, work));
      case DocumentationVerifier =>
        var work := c.work.(verifierRunId := Or(c.work.verifierRunId, DOC_VERIFIER));
        VerificationReports(h, w, work,
                            [SelfGate(work, !c.work.summaryQuarantined), EvidenceGateOf(c, [DIFF]), ScopeGateOf(w, c)]);
      case SecurityVerifier =>
        var work := c.work.(verifierRunId := Or(c.work.verifierRunId, SECURITY_VERIFIER));
        VerificationReports(h, w, work, [SelfGate(work, false), EvidenceGateOf(c, [DIFF]), ScopeGateOf(w, c)]);
    }
  }
}
