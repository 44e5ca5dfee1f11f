/** What the results of the registered handlers stand for: how statuses and decisions go
    together, what exactly a verifier vouches for, and what the handlers after it leave alone. */
module ResultLaws {
  import opened Core
  import opened Gates
  import opened Names
  import opened Evidence
  import opened Context
  import opened Executor
  import opened Registry
  import opened Handlers

  // ------------------------------------------------------------------ coherence

  /** A verdict is PASS and lets the run go on, or FAIL and cuts it. */
  ghost predicate Decisive(r: HandlerResult) {
    if r.status == StatusPass then r.decision == Continue else r.status == StatusFail && r.decision == DecideFail
  }

  /** How a handler's result and its marks on the run go together. */
  ghost predicate Coherent(h: HandlerName, e: Effect) {
    && (e.result.decision == Stop <==> h == StopOrLoop)
    && (e.finalStatus.Some? <==> h == StopOrLoop)
    && (e.declaresNoTests ==> h == SecurityReviewTestsNotApplicable)
    && (e.result.prStatus.Some? <==> h == PRGate)
    && (IsVerifier(h) ==> Decisive(e.result))
  }

  /** A result that neither stops nor speaks of a pull request. */
  ghost predicate Ordinary(r: HandlerResult) {
    r.decision != Stop && r.prStatus.None?
  }

  ghost predicate Quiet(e: Effect) {
    Ordinary(e.result) && e.finalStatus.None? && !e.declaresNoTests
  }

  lemma AuxQuiet(h: HandlerName, file: AuxFile, w: World, c: Ctx)
    ensures Quiet(AuxCheck(h, file, w, c)) && AuxCheck(h, file, w, c).work == c.work
  {
    hide PathOf, Record;
  }

  lemma ControlQuiet(w: World, c: Ctx)
    ensures Quiet(ManifestCheck(c)) && Quiet(ScrumCheck(c)) && Quiet(DodLockCheck(w, c))
    ensures Quiet(ScopeCheck(c)) && Quiet(EvidenceCheck(c)) && Quiet(ComplianceCheck(c))
  {
    hide AllReasons, EvidenceReasons;
  }

  lemma StagesQuiet(w: World, c: Ctx)
    ensures Quiet(AnalystStage(w, c)) && Quiet(ParseStage(w, c)) && Quiet(DesignCheck(c)) && Quiet(AgentStage(c))
    ensures Quiet(QuarantineCheck(c)) && Quiet(DiffStage(w, c)) && Quiet(ScopeDiffCheck(w, c))
  {
    hide AllReasons, ToolOps, Invoke, AnyQuarantined, Blank, ScopeReasons, PathOf;
  }

  lemma TestsQuiet(w: World, c: Ctx)
    ensures Quiet(TestStage(w, c))
  {
    hide Gather, OutcomesOf, AllZero, PathOf;
  }

  lemma RunsQuiet(h: HandlerName, file: Name, w: World, c: Ctx)
    ensures Quiet(ReproductionStage(h, file, w, c))
  {
    hide Gather, Reproduces, PathOf, Record, Noted;
  }

  lemma VerificationQuiet(h: HandlerName, w: World, work: Work, gates: seq<GateResult>)
    ensures Quiet(Verification(h, w, work, gates)) && Decisive(Verification(h, w, work, gates).result)
    ensures Verification(h, w, work, gates).work == work
    ensures Verification(h, w, work, gates).result.status == StatusPass <==> AllReasons(gates) == []
  {
  }

  lemma VerificationCoheres(h: HandlerName, w: World, work: Work, gates: seq<GateResult>)
    requires IsVerifier(h)
    ensures Coherent(h, Verification(h, w, work, gates))
  {
    VerificationQuiet(h, w, work, gates);
  }

  /** The gates a verifier aggregates. */
  function VerifierGates(h: HandlerName, w: World, c: Ctx, work: Work): seq<GateResult> {
    match h
    case ImplementationVerifier => ChangeGates(w, c, work)
    case DocumentationVerifier => [SelfGate(work, !c.work.summaryQuarantined), EvidenceGateOf(c, [DIFF]), ScopeGateOf(w, c)]
    case SecurityVerifier => [SelfGate(work, false), EvidenceGateOf(c, [DIFF]), ScopeGateOf(w, c)]
    case _ => [SelfGate(work, false), EvidenceGateOf(c, [ANALYSIS_REPORT])]
  }

  function DefaultRunId(h: HandlerName): string {
    match h
    case ImplementationVerifier => IMPL_VERIFIER
    case DocumentationVerifier => DOC_VERIFIER
    case SecurityVerifier => SECURITY_VERIFIER
    case _ => ANALYSIS_VERIFIER
  }

  function VerifierWork(h: HandlerName, c: Ctx): (work: Work)
    ensures work.verifierRunId != ""
  {
    c.work.(verifierRunId := Or(c.work.verifierRunId, DefaultRunId(h)))
  }

  lemma VerifierEffect(h: HandlerName, w: World, c: Ctx)
    requires IsVerifier(h)
    ensures VerdictEffect(h, w, c) == Verification(h, w, VerifierWork(h, c), VerifierGates(h, w, c, VerifierWork(h, c)))
    ensures EffectOf(h, w, c) == VerdictEffect(h, w, c)
  {
    hide Verification, ControlEffect, AuxCheck, StageEffect, ClosingEffect, SelfGate, EvidenceGateOf, ScopeGateOf, ChangeGates, Or;
  }

  lemma ClosingCoheres(h: HandlerName, w: World, c: Ctx)
    requires FamilyOf(h) == ClosingFamily
    ensures Coherent(h, ClosingEffect(h, w, c))
  {
    hide PrReasons, PathOf;
  }

  lemma ControlCoheres(h: HandlerName, w: World, c: Ctx)
    requires FamilyOf(h) == ControlFamily
    ensures Coherent(h, ControlEffect(h, w, c))
  {
    hide ControlEffect;
    if h == StopOrLoop { StopCoheres(w, c); } else { ControlIsQuiet(h, w, c); }
  }

  lemma StopCoheres(w: World, c: Ctx)
    ensures Coherent(StopOrLoop, ControlEffect(StopOrLoop, w, c))
  {
  }

  lemma ControlIsQuiet(h: HandlerName, w: World, c: Ctx)
    requires FamilyOf(h) == ControlFamily && h != StopOrLoop
    ensures Quiet(ControlEffect(h, w, c))
  {
    hide ManifestCheck, ScrumCheck, DodLockCheck, ScopeCheck, EvidenceCheck, ComplianceCheck, StopCheck;
    ControlQuiet(w, c);
  }

  lemma StagesCohere(h: HandlerName, w: World, c: Ctx)
    requires FamilyOf(h) == StageFamily
    ensures Coherent(h, StageEffect(h, w, c))
  {
    hide AnalystStage, ParseStage, DesignCheck, AgentStage, QuarantineCheck, DiffStage, ScopeDiffCheck, TestStage,
         ReproductionStage;
    StagesQuiet(w, c);
    TestsQuiet(w, c);
    RunsQuiet(FailureReproduction, Change(FailureReproductionLog), w, c);
    RunsQuiet(Reproduction, Change(CiReproductionLog), w, c);
  }

  lemma AuxCoheres(h: HandlerName, w: World, c: Ctx)
    requires FamilyOf(h) == AuxFamily
    ensures Coherent(h, AuxCheck(h, AuxFileOf(h).value, w, c))
  {
    hide AuxCheck;
    AuxQuiet(h, AuxFileOf(h).value, w, c);
  }

  lemma VerdictsCohere(h: HandlerName, w: World, c: Ctx)
    requires FamilyOf(h) == VerdictFamily
    ensures Coherent(h, VerdictEffect(h, w, c))
  {
    hide Verification, VerifierGates, VerifierWork, VerdictEffect, Coherent;
    VerifierEffect(h, w, c);
    VerificationCoheres(h, w, VerifierWork(h, c), VerifierGates(h, w, c, VerifierWork(h, c)));
  }

  /** Only StopOrLoop stops and finalizes, only PRGate speaks of a pull request, only one handler
      declares tests not applicable, and a verifier passes or fails but never blocks or skips. */
  lemma HandlersCohere(h: HandlerName, w: World, c: Ctx)
    ensures Coherent(h, EffectOf(h, w, c))
  {
    hide ControlEffect, AuxCheck, StageEffect, VerdictEffect, ClosingEffect, Coherent;
    match FamilyOf(h)
    case ControlFamily => ControlCoheres(h, w, c);
    case AuxFamily => AuxCoheres(h, w, c);
    case StageFamily => StagesCohere(h, w, c);
    case VerdictFamily => VerdictsCohere(h, w, c);
    case ClosingFamily => ClosingCoheres(h, w, c);
  }

  // ----------------------------------------------------------- what a PASS vouches for

  predicate Independent(work: Work) {
    work.verifierRunId != "" && work.codingRunId != work.verifierRunId
  }

  /** What a verifier's PASS says about the request and the run's work, gate by gate. */
  ghost predicate Vouched(h: HandlerName, m: Matcher, q: Request, work: Work) {
    && Independent(work)
    && (h != AnalysisVerifier ==> AllInScope(m, RulesOf(q), work.changedFiles))
    && (h == ImplementationVerifier || h == DocumentationVerifier ==> work.summaryQuarantined)
    && (h == ImplementationVerifier ==>
          && TestsPass(work.testOutcomes, Implementation, !q.meta.testsNotApplicable)
          && work.strategic == Some([]))
  }

  /** The artifact types a verifier asks the ledger for. */
  function RequiredBy(h: HandlerName, q: Request): seq<ArtifactType> {
    match h
    case AnalysisVerifier => [ANALYSIS_REPORT]
    case ImplementationVerifier => RequiredByTests(q)
    case _ => [DIFF]
  }

  ghost predicate LedgerSupports(c: Ctx, h: HandlerName) {
    Supports(c.ev.writer.ledger, c.ev.runId, c.ev.taskId, RequiredBy(h, c.request))
  }

  lemma SelfGateExact(work: Work, summaryUsed: bool)
    requires work.verifierRunId != ""
    ensures SelfGate(work, summaryUsed).reasons == [] <==> Independent(work) && !summaryUsed
  {
  }

  lemma TwoGates(a: GateResult, b: GateResult)
    ensures AllReasons([a, b]) == [] <==> a.reasons == [] && b.reasons == []
  {
    var gates := [a, b];
    GatesAggregate(gates);
    assert gates[0] == a && gates[1] == b;
  }

  lemma ThreeGates(a: GateResult, b: GateResult, c: GateResult)
    ensures AllReasons([a, b, c]) == [] <==> a.reasons == [] && b.reasons == [] && c.reasons == []
  {
    var gates := [a, b, c];
    GatesAggregate(gates);
    assert gates[0] == a && gates[1] == b && gates[2] == c;
  }

  lemma FiveGates(a: GateResult, b: GateResult, c: GateResult, d: GateResult, e: GateResult)
    ensures AllReasons([a, b, c, d, e]) == [] <==>
            a.reasons == [] && b.reasons == [] && c.reasons == [] && d.reasons == [] && e.reasons == []
  {
    var gates := [a, b, c, d, e];
    GatesAggregate(gates);
    assert gates[0] == a && gates[1] == b && gates[2] == c && gates[3] == d && gates[4] == e;
  }

  lemma TestGateExact(outcomes: seq<TestOutcome>, applicable: bool)
    ensures TestReasons(outcomes, Implementation, applicable) == [] <==> TestsPass(outcomes, Implementation, applicable)
  {
    hide AnyRan, OutcomesReasons, AllAccepted;
    OutcomesClean(outcomes);
  }

  lemma GatesOfChange(w: World, c: Ctx, work: Work)
    requires work == VerifierWork(ImplementationVerifier, c)
    ensures AllReasons(ChangeGates(w, c, work)) == [] <==>
            Vouched(ImplementationVerifier, w.matcher, c.request, work) && LedgerSupports(c, ImplementationVerifier)
  {
    hide AllReasons, EvidenceReasons, Supports, TestReasons, TestsPass, ScopeReasons, AllInScope,
         SelfCertificationReasons, RulesOf, RequiredByTests;
    var applicable := !c.request.meta.testsNotApplicable;
    SelfGateExact(work, !c.work.summaryQuarantined);
    TestGateExact(c.work.testOutcomes, applicable);
    EvidenceGateExact(c.ev.writer.ledger, c.ev.runId, c.ev.taskId, RequiredByTests(c.request));
    ScopeClean(w.matcher, RulesOf(c.request), c.work.changedFiles);
    FiveGates(SelfGate(work, !c.work.summaryQuarantined),
              GateResult(TestGateName, TestReasons(c.work.testOutcomes, Implementation, applicable)),
              EvidenceGateOf(c, RequiredByTests(c.request)),
              GateResult(StrategicGateName, c.work.strategic.GetOr(NO_DESIGN)),
              ScopeGateOf(w, c));
  }

  lemma GatesOfReview(h: HandlerName, w: World, c: Ctx, work: Work)
    requires h == DocumentationVerifier || h == SecurityVerifier
    requires work == VerifierWork(h, c)
    ensures AllReasons(VerifierGates(h, w, c, work)) == [] <==>
            Vouched(h, w.matcher, c.request, work) && LedgerSupports(c, h)
  {
    hide AllReasons, EvidenceReasons, Supports, ScopeReasons, AllInScope, SelfCertificationReasons, RulesOf;
    var used := h == DocumentationVerifier && !c.work.summaryQuarantined;
    SelfGateExact(work, used);
    EvidenceGateExact(c.ev.writer.ledger, c.ev.runId, c.ev.taskId, [DIFF]);
    ScopeClean(w.matcher, RulesOf(c.request), c.work.changedFiles);
    ThreeGates(SelfGate(work, used), EvidenceGateOf(c, [DIFF]), ScopeGateOf(w, c));
  }

  lemma GatesOfAnalysis(w: World, c: Ctx, work: Work)
    requires work == VerifierWork(AnalysisVerifier, c)
    ensures AllReasons(VerifierGates(AnalysisVerifier, w, c, work)) == [] <==>
            Vouched(AnalysisVerifier, w.matcher, c.request, work) && LedgerSupports(c, AnalysisVerifier)
  {
    hide AllReasons, EvidenceReasons, Supports, SelfCertificationReasons;
    SelfGateExact(work, false);
    EvidenceGateExact(c.ev.writer.ledger, c.ev.runId, c.ev.taskId, [ANALYSIS_REPORT]);
    TwoGates(SelfGate(work, false), EvidenceGateOf(c, [ANALYSIS_REPORT]));
  }

  /** A verifier passes exactly when the ledger supports the types it asks for and everything it
      vouches for holds; it sets its own run id and nothing else of the work. */
  lemma VerifierIsExact(h: HandlerName, w: World, c: Ctx)
    requires IsVerifier(h)
    ensures var e := EffectOf(h, w, c);
            && e.work == c.work.(verifierRunId := e.work.verifierRunId)
            && (e.result.status == StatusPass <==> Vouched(h, w.matcher, c.request, e.work) && LedgerSupports(c, h))
  {
    hide Verification, AllReasons, Vouched, LedgerSupports, ChangeGates, SelfGate, EvidenceGateOf, ScopeGateOf, Or, EffectOf;
    var work := VerifierWork(h, c);
    VerifierEffect(h, w, c);
    VerificationQuiet(h, w, work, VerifierGates(h, w, c, work));
    match h
    case ImplementationVerifier => GatesOfChange(w, c, work);
    case DocumentationVerifier => GatesOfReview(h, w, c, work);
    case SecurityVerifier => GatesOfReview(h, w, c, work);
    case AnalysisVerifier => GatesOfAnalysis(w, c, work);
  }

  // --------------------------------------------------------------- after the verifier

  /** The handlers that follow a verifier in some registered chain. */
  predicate Late(h: HandlerName) {
    Advisory(h) || h == EvidenceGate || h == BacklogUpdate
  }

  ghost predicate KeepsWork(e: Effect, c: Ctx) {
    e.work == c.work.(evalScore := e.work.evalScore) && !e.declaresNoTests
  }

  lemma ClosingKeepsWork(h: HandlerName, w: World, c: Ctx)
    requires h == Evaluator || h == MemoryUpdate || h == PRGate
    ensures KeepsWork(ClosingEffect(h, w, c), c)
  {
    hide PathOf, PrReasons;
  }

  lemma ControlKeepsWork(h: HandlerName, w: World, c: Ctx)
    requires h == StopOrLoop || h == HandlerName.EvidenceGate
    ensures KeepsWork(ControlEffect(h, w, c), c)
  {
    hide FromGates, EvidenceGateOf;
  }

  /** They leave the work alone, up to the evaluator's score. */
  lemma LateKeepsWork(h: HandlerName, w: World, c: Ctx)
    requires Late(h)
    ensures KeepsWork(EffectOf(h, w, c), c)
  {
    hide AuxCheck, ClosingEffect, ControlEffect, AuxFileOf, KeepsWork;
    match h
    case Evaluator => ClosingKeepsWork(h, w, c);
    case MemoryUpdate => ClosingKeepsWork(h, w, c);
    case PRGate => ClosingKeepsWork(h, w, c);
    case BacklogUpdate => BacklogKeepsWork(w, c);
    case _ => LateControl(h, w, c);
  }

  lemma LateControl(h: HandlerName, w: World, c: Ctx)
    requires h == StopOrLoop || h == HandlerName.EvidenceGate
    ensures KeepsWork(EffectOf(h, w, c), c)
  {
    hide ControlEffect, KeepsWork;
    ControlKeepsWork(h, w, c);
  }

  lemma BacklogKeepsWork(w: World, c: Ctx)
    ensures KeepsWork(EffectOf(BacklogUpdate, w, c), c)
  {
    hide AuxCheck;
    AuxQuiet(BacklogUpdate, AuxFileOf(BacklogUpdate).value, w, c);
  }

  /** The last handler closes the ledger with the decision it finds, or as blocked where there is none. */
  ghost predicate Finalizes(c: Ctx, e: Effect) {
    e.finalStatus == Some(if c.verifierDecision == Pending then Blocked else c.verifierDecision)
  }

  /** The pull request stage follows the decision it finds. */
  ghost predicate PresentsPr(c: Ctx, e: Effect) {
    && e.result.prStatus == Some(if c.verifierDecision == Pass then Gated else NotReady)
    && e.result.decision == Continue
    && (c.verifierDecision != Pass ==> e.ops == [])
  }

  /** So does the memory stage: it writes a record after a PASS, and a skip reason otherwise. */
  ghost predicate Remembers(c: Ctx, e: Effect) {
    |e.ops| == 1 && e.ops[0].name == Verdict(if c.verifierDecision == Pass then MemoryRecord else MemorySkipReason)
  }

  lemma ReadersFollowDecision(h: HandlerName, w: World, c: Ctx)
    ensures h == StopOrLoop ==> Finalizes(c, EffectOf(h, w, c))
    ensures h == PRGate ==> PresentsPr(c, EffectOf(h, w, c))
    ensures h == MemoryUpdate ==> Remembers(c, EffectOf(h, w, c))
  {
    hide PathOf, PrReasons;
  }

  // -------------------------------------------------------------- tests and reproduction

  lemma {:induction false} LogsCount(w: World, h: HandlerName, commands: seq<string>)
    requires !AnyRejected(w, h, |commands|)
    ensures |LogsOf(w, h, commands)| == |commands|
  {
    if commands != [] {
      var n: nat := |commands| - 1;
      assert w.run(h, n) != Rejected;
      assert !AnyRejected(w, h, n);
      LogsCount(w, h, commands[..n]);
    }
  }

  /** Evidence that was gathered at all is not empty. */
  lemma GatheredIsNotEmpty(w: World, h: HandlerName, plan: RunPlan)
    ensures Gather(w, h, plan).Logs? ==> Gather(w, h, plan).items != []
  {
    if plan.outcomes == [] && plan.commands != [] && !AnyRejected(w, h, |plan.commands|) {
      LogsCount(w, h, plan.commands);
    }
  }

  /** The one file a handler ledgers first. */
  ghost predicate Ledgers(e: Effect, name: Name, t: ArtifactType, result: LedgerResult) {
    && e.ops != []
    && e.ops[0].name == name
    && e.ops[0].artifactType == t
    && e.ops[0].entry.Some?
    && e.ops[0].entry.value.result == result
  }

  function ReproductionFile(h: HandlerName): Name {
    Change(if h == FailureReproduction then FailureReproductionLog else CiReproductionLog)
  }

  /** A reproduction that lets the run go on has recorded a failing test. */
  lemma ReproductionFails(h: HandlerName, w: World, c: Ctx)
    requires h == FailureReproduction || h == Reproduction
    requires !Failing(EffectOf(h, w, c).result)
    ensures Ledgers(EffectOf(h, w, c), ReproductionFile(h), TEST, EntryFail)
  {
    hide Gather, Reproduces, PathOf;
  }

  /** A diff stage that lets the run go on has recorded a diff. */
  lemma DiffIsRecorded(w: World, c: Ctx)
    requires !Failing(EffectOf(DiffCapture, w, c).result)
    ensures Ledgers(EffectOf(DiffCapture, w, c), Change(DiffPatch), DIFF, EntryInfo)
  {
    hide Blank, PathOf;
  }

  /** The outcomes a run of the test stage appends are those of its non-empty logs, and the ledger
      entry it records passes exactly when every log item's exit code is there and zero. */
  lemma TestsAreRecorded(w: World, c: Ctx) returns (items: seq<LogItem>, command: string)
    requires !Failing(EffectOf(TestRunner, w, c).result) && !c.request.meta.testsNotApplicable
    ensures items != []
    ensures Gather(w, TestRunner, c.request.meta.tests) == Logs(items, command)
    ensures var e := EffectOf(TestRunner, w, c);
            && Ledgers(e, Change(TestOutput), TEST, if AllZero(items) then EntryPass else EntryFail)
            && e.work.testOutcomes ==
               c.work.testOutcomes + OutcomesOf(items, command, PathOf(c.ev, Change(TestOutput)))
  {
    hide Gather, AllZero, PathOf, OutcomesOf;
    var g := Gather(w, TestRunner, c.request.meta.tests);
    GatheredIsNotEmpty(w, TestRunner, c.request.meta.tests);
    assert g.Logs?;
    items, command := g.items, g.command;
  }

  predicate SomeKeyMissing(logs: seq<LogItem>) {
    exists i | 0 <= i < |logs| :: logs[i].exitCode == NoKey
  }

  /** Every exit code that is there is zero. */
  predicate AllZeroOrMissing(logs: seq<LogItem>) {
    forall i | 0 <= i < |logs| :: logs[i].exitCode == NoKey || logs[i].exitCode == Code(0)
  }

  /** The test gate accepts the outcomes of a log when every exit code in it is zero or missing. */
  lemma GateAcceptsLogs(logs: seq<LogItem>, command: string, path: string)
    requires path != "" && logs != []
    ensures TestsPass(OutcomesOf(logs, command, path), Implementation, true) <==> AllZeroOrMissing(logs)
  {
    hide OutcomesOf;
    var r := OutcomesOf(logs, command, path);
    forall i | 0 <= i < |logs| ensures Accepted(r[i]) <==> logs[i].exitCode == NoKey || logs[i].exitCode == Code(0) {
      assert r[i] == OutcomeOf(logs[i], command, path);
    }
    assert r[0] == OutcomeOf(logs[0], command, path);
  }

  /** The recorded entry and the test gate agree about a log exactly when it is not the case that
      some exit code is missing and all the others are zero. */
  lemma LedgerAgreesWithGate(logs: seq<LogItem>, command: string, path: string)
    requires path != "" && logs != []
    ensures (AllZero(logs) <==> TestsPass(OutcomesOf(logs, command, path), Implementation, true))
            <==> !(SomeKeyMissing(logs) && AllZeroOrMissing(logs))
  {
    GateAcceptsLogs(logs, command, path);
    if AllZeroOrMissing(logs) && !AllZero(logs) {
      var i :| 0 <= i < |logs| && logs[i].exitCode != Code(0);
      assert logs[i].exitCode == NoKey;
    }
  }

  /** One supplied outcome without an exit code: recorded as FAIL, accepted by the gate. */
  lemma MissingKeyDisagrees(command: string, path: string)
    requires path != ""
    ensures var logs := [LogItem(None, NoKey)];
            !AllZero(logs) && TestsPass(OutcomesOf(logs, command, path), Implementation, true)
  {
    var logs := [LogItem(None, NoKey)];
    assert logs[0].exitCode == NoKey;
    GateAcceptsLogs(logs, command, path);
  }

  // ------------------------------------------------------------------- outcomes only grow

  /** Outcomes of commands that really ran and were not skipped. */
  ghost predicate Real(outcomes: seq<TestOutcome>) {
    forall i | 0 <= i < |outcomes| :: outcomes[i].ran && !outcomes[i].skipped
  }

  ghost predicate RealGrowth(before: seq<TestOutcome>, after: seq<TestOutcome>) {
    before <= after && (Real(before) ==> Real(after))
  }

  lemma TestsGrow(w: World, c: Ctx)
    ensures RealGrowth(c.work.testOutcomes, TestStage(w, c).work.testOutcomes)
  {
    hide Gather, AllZero, PathOf;
  }

  ghost predicate SameOutcomes(e: Effect, c: Ctx) {
    e.work.testOutcomes == c.work.testOutcomes
  }

  lemma StagesKeepOutcomes(h: HandlerName, w: World, c: Ctx)
    requires FamilyOf(h) == StageFamily && h != TestRunner
    ensures SameOutcomes(StageEffect(h, w, c), c)
  {
    hide AllReasons, ToolOps, Invoke, AnyQuarantined, Blank, ScopeReasons, PathOf, Gather, Reproduces, DiffOps;
    hide TestStage;
  }

  lemma ControlKeepsOutcomes(h: HandlerName, w: World, c: Ctx)
    requires FamilyOf(h) == ControlFamily
    ensures SameOutcomes(ControlEffect(h, w, c), c)
  {
    hide AllReasons, EvidenceReasons;
  }

  lemma ClosingKeepsOutcomes(h: HandlerName, w: World, c: Ctx)
    requires FamilyOf(h) == ClosingFamily
    ensures SameOutcomes(ClosingEffect(h, w, c), c)
  {
    hide PathOf, PrReasons;
  }

  lemma VerdictsKeepOutcomes(h: HandlerName, w: World, c: Ctx)
    requires FamilyOf(h) == VerdictFamily
    ensures SameOutcomes(EffectOf(h, w, c), c)
  {
    hide EffectOf, Vouched, LedgerSupports;
    VerifierIsExact(h, w, c);
  }

  /** Only the test stage adds outcomes, and only of commands that ran. */
  lemma OutcomesGrow(h: HandlerName, w: World, c: Ctx)
    ensures RealGrowth(c.work.testOutcomes, EffectOf(h, w, c).work.testOutcomes)
  {
    hide ControlEffect, AuxCheck, StageEffect, ClosingEffect, TestStage, Real;
    match FamilyOf(h)
    case ControlFamily => ControlKeepsOutcomes(h, w, c);
    case AuxFamily => AuxQuiet(h, AuxFileOf(h).value, w, c);
    case StageFamily => StagesGrowOutcomes(h, w, c);
    case VerdictFamily => VerdictsKeepOutcomes(h, w, c);
    case ClosingFamily => ClosingKeepsOutcomes(h, w, c);
  }

  lemma StagesGrowOutcomes(h: HandlerName, w: World, c: Ctx)
    requires FamilyOf(h) == StageFamily
    ensures RealGrowth(c.work.testOutcomes, StageEffect(h, w, c).work.testOutcomes)
  {
    hide TestStage, Real, AnalystStage, ParseStage, DesignCheck, AgentStage, QuarantineCheck, DiffStage, ScopeDiffCheck,
         ReproductionStage;
    if h == TestRunner { TestsGrow(w, c); } else { StagesKeepOutcomes(h, w, c); }
  }

  // ------------------------------------------------------------------------ all of it

  /** A verifier passes exactly where what it vouches for holds and the ledger supports it. */
  ghost predicate Judges(h: HandlerName, m: Matcher, c: Ctx, e: Effect) {
    && e.work == c.work.(verifierRunId := e.work.verifierRunId)
    && (e.result.status == StatusPass <==> Vouched(h, m, c.request, e.work) && LedgerSupports(c, h))
  }

  ghost predicate RecordsTests(w: World, c: Ctx, e: Effect) {
    var g := Gather(w, TestRunner, c.request.meta.tests);
    && g.Logs? && g.items != []
    && Ledgers(e, Change(TestOutput), TEST, if AllZero(g.items) then EntryPass else EntryFail)
    && e.work.testOutcomes == c.work.testOutcomes + OutcomesOf(g.items, g.command, PathOf(c.ev, Change(TestOutput)))
  }

  /** What a stage that lets the run go on has recorded. */
  ghost predicate Records(h: HandlerName, w: World, c: Ctx, e: Effect) {
    && (h == FailureReproduction || h == Reproduction ==> Ledgers(e, ReproductionFile(h), TEST, EntryFail))
    && (h == DiffCapture ==> Ledgers(e, Change(DiffPatch), DIFF, EntryInfo))
    && (h == TestRunner && !c.request.meta.testsNotApplicable ==> RecordsTests(w, c, e))
  }

  /** What the runs of the registered chains rest on: the laws that the effects of handlers obey. */
  ghost predicate Lawful(h: HandlerName, w: World, c: Ctx, e: Effect) {
    && Coherent(h, e)
    && RealGrowth(c.work.testOutcomes, e.work.testOutcomes)
    && (IsVerifier(h) ==> Judges(h, w.matcher, c, e))
    && (Late(h) ==> KeepsWork(e, c))
    && (h == StopOrLoop ==> Finalizes(c, e))
    && (h == PRGate ==> PresentsPr(c, e))
    && (h == MemoryUpdate ==> Remembers(c, e))
    && (!Failing(e.result) ==> Records(h, w, c, e))
  }

  /** The effect of every registered handler, in every world and context, obeys them. */
  lemma EffectsAreLawful(h: HandlerName, w: World, c: Ctx)
    ensures Lawful(h, w, c, EffectOf(h, w, c))
  {
    hide EffectOf, Coherent, RealGrowth, IsVerifier, Late, KeepsWork, Records, Failing, Finalizes, PresentsPr, Remembers, Judges;
    HandlersCohere(h, w, c);
    OutcomesGrow(h, w, c);
    if IsVerifier(h) { VerifierJudges(h, w, c); }
    if Late(h) { LateKeepsWork(h, w, c); }
    ReadersFollowDecision(h, w, c);
    if !Failing(EffectOf(h, w, c).result) { StagesRecord(h, w, c); }
  }

  lemma VerifierJudges(h: HandlerName, w: World, c: Ctx)
    requires IsVerifier(h)
    ensures Judges(h, w.matcher, c, EffectOf(h, w, c))
  {
    hide EffectOf, IsVerifier, Vouched, LedgerSupports;
    VerifierIsExact(h, w, c);
  }

  lemma StagesRecord(h: HandlerName, w: World, c: Ctx)
    requires !Failing(EffectOf(h, w, c).result)
    ensures Records(h, w, c, EffectOf(h, w, c))
  {
    hide EffectOf, Ledgers, Failing, Gather, AllZero, OutcomesOf, PathOf;
    if h == FailureReproduction || h == Reproduction { ReproductionFails(h, w, c); }
    if h == DiffCapture { DiffIsRecorded(w, c); }
    if h == TestRunner && !c.request.meta.testsNotApplicable {
      var items, command := TestsAreRecorded(w, c);
    }
  }
}
