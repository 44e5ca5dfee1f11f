/** What every registered handler keeps: proper evidence, its own files, coherent results. */
module HandlerLaws {
  import opened Core
  import opened Gates
  import opened Names
  import opened Evidence
  import opened Context
  import opened Registry
  import opened Handlers

  // -------------------------------------------------------------------- file owners

  /** The slot that writes a file. */
  function Owner(n: Name): HandlerName {
    match n
    case Verdict(f) => VerdictOwner(f)
    case Inventory(f) => InventoryOwner(f)
    case Assessment(f) => AssessmentOwner(f)
    case Agent(f) => if f == StructuredOutput then StructuredOutputParser else AgentInvocation
    case Change(f) => ChangeOwner(f)
    case Documents(f) => DocumentsOwner(f)
    case Scan(f) => ScanOwner(f)
    case Repair(f) => RepairOwner(f)
    case LlmFile(_, _) => AgentInvocation
    case CheckpointFile(_, _) => WorkspacePolicy
  }

  function VerdictOwner(f: VerdictFile): HandlerName {
    match f
    case DodLock => DefinitionOfDoneLock
    case VerifierReportFile => ImplementationVerifier
    case EvaluationReport => Evaluator
    case MemoryRecord => MemoryUpdate
    case MemorySkipReason => MemoryUpdate
    case PrBody => PRGate
    case PrGateReport => PRGate
  }

  function InventoryOwner(f: InventoryFile): HandlerName {
    match f
    case RepoTree => RepoInventory
    case CommandDiscoveryLog => CommandDiscovery
    case CiInventoryLog => CIInventory
    case DependencyInventoryLog => DependencyInventory
  }

  function AssessmentOwner(f: AssessmentFile): HandlerName {
    match f
    case ReadinessReport => AIReadinessScoring
    case StrategicAssessment => StrategicProgrammingAssessment
    case GapBacklog => BacklogFindingGenerator
    case SprintPlan => BacklogUpdate
  }

  function ChangeOwner(f: ChangeFile): HandlerName {
    match f
    case DiffPatch => DiffCapture
    case GitStatusLog => DiffCapture
    case DiffCheckLog => DiffCapture
    case TestOutput => TestRunner
    case FailureReproductionLog => FailureReproduction
    case CiReproductionLog => Reproduction
  }

  function DocumentsOwner(f: DocumentsFile): HandlerName {
    match f
    case DocumentationGapLog => DocumentationGap
    case LinkCheckLog => LinkCheck
    case TestsNotApplicableNote => SecurityReviewTestsNotApplicable
  }

  function ScanOwner(f: ScanFile): HandlerName {
    match f
    case SecretScanLog => SecretScan
    case VulnerabilityLog => DependencyVulnerability
    case AuthRiskLog => AuthChangeRisk
    case InputRiskLog => InputValidationRisk
  }

  function RepairOwner(f: RepairFile): HandlerName {
    match f
    case DependencyRiskLog => DependencyRisk
    case LicenseLog => LicenseCheck
    case LockfileLog => LockfileValidation
    case BuildOutput => Build
    case CiParsedLog => CIFailureLogParser
    case CiClassificationLog => FailureClassification
    case CiConfigLog => CIConfigValidation
  }

  /** Operations a slot may perform: proper ones, on its own files. */
  predicate Owned(ops: seq<Op>, slot: HandlerName) {
    ops == [] || (Proper(ops[0]) && Owner(ops[0].name) == slot && Owned(ops[1..], slot))
  }

  ghost predicate Foreign(names: seq<Name>, slot: HandlerName) {
    forall i | 0 <= i < |names| :: Owner(names[i]) != slot
  }

  lemma {:induction false} OwnedIsProper(ops: seq<Op>, slot: HandlerName)
    requires Owned(ops, slot)
    ensures AllProper(ops)
  {
    if ops != [] { OwnedIsProper(ops[1..], slot); }
  }

  lemma {:induction false} OwnedAppend(a: seq<Op>, b: seq<Op>, slot: HandlerName)
    requires Owned(a, slot) && Owned(b, slot)
    ensures Owned(a + b, slot)
  {
    if a == [] {
      assert a + b == b;
    } else {
      OwnedAppend(a[1..], b, slot);
      assert (a + b)[0] == a[0] && (a + b)[1..] == a[1..] + b;
    }
  }

  lemma {:induction false} FreshAppend(names: seq<Name>, a: seq<Op>, b: seq<Op>)
    requires Fresh(names, a) && Fresh(NamesAfter(names, a), b)
    ensures Fresh(names, a + b) && NamesAfter(names, a + b) == NamesAfter(NamesAfter(names, a), b)
    decreases |a|
  {
    if a == [] {
      assert a + b == b;
    } else {
      FreshAppend(names + Ledgered(a[0]), a[1..], b);
      assert (a + b)[0] == a[0] && (a + b)[1..] == a[1..] + b;
    }
  }

  /** After a slot's operations, the ledgered files are the earlier ones and some of its own. */
  lemma {:induction false} NamesStayOwned(names: seq<Name>, ops: seq<Op>, slot: HandlerName, other: HandlerName)
    requires Owned(ops, slot) && slot != other && Foreign(names, other)
    ensures Foreign(NamesAfter(names, ops), other)
    decreases |ops|
  {
    if ops != [] { NamesStayOwned(names + Ledgered(ops[0]), ops[1..], slot, other); }
  }

  // ------------------------------------------------------------------ per handler

  /** What is shown of every handler's operations. */
  ghost predicate Tidy(ops: seq<Op>, slot: HandlerName, names: seq<Name>) {
    Owned(ops, slot) && Fresh(names, ops)
  }

  lemma NoOps(slot: HandlerName, names: seq<Name>)
    ensures Tidy([], slot, names)
  {
  }

  lemma NotForeign(names: seq<Name>, slot: HandlerName, n: Name)
    requires Foreign(names, slot) && Owner(n) == slot
    ensures n !in names
  {
  }

  lemma Prepend(op: Op, rest: seq<Op>, slot: HandlerName, names: seq<Name>)
    requires Proper(op) && Owner(op.name) == slot && op.name !in names
    requires Tidy(rest, slot, names + Ledgered(op))
    ensures Tidy([op] + rest, slot, names)
  {
    assert ([op] + rest)[1..] == rest;
  }

  lemma OneIsTidy(op: Op, slot: HandlerName, names: seq<Name>)
    requires Proper(op) && Owner(op.name) == slot && op.name !in names
    ensures Tidy([op], slot, names)
  {
    NoOps(slot, names + Ledgered(op));
    Prepend(op, [], slot, names);
    assert [op] + [] == [op];
  }

  lemma TwoAreTidy(a: Op, b: Op, slot: HandlerName, names: seq<Name>)
    requires Proper(a) && Owner(a.name) == slot && Proper(b) && Owner(b.name) == slot
    requires a.name != b.name && a.name !in names && b.name !in names
    ensures Tidy([a, b], slot, names)
  {
    OneIsTidy(b, slot, names + Ledgered(a));
    Prepend(a, [b], slot, names);
    assert [a] + [b] == [a, b];
  }

  lemma ThreeAreTidy(a: Op, b: Op, c: Op, slot: HandlerName, names: seq<Name>)
    requires Proper(a) && Owner(a.name) == slot && Proper(b) && Owner(b.name) == slot
    requires Proper(c) && Owner(c.name) == slot
    requires a.name != b.name && a.name != c.name && b.name != c.name
    requires a.name !in names && b.name !in names && c.name !in names
    ensures Tidy([a, b, c], slot, names)
  {
    TwoAreTidy(b, c, slot, names + Ledgered(a));
    Prepend(a, [b, c], slot, names);
    assert [a] + [b, c] == [a, b, c];
  }

  lemma AuxTidy(h: HandlerName, file: AuxFile, w: World, c: Ctx, names: seq<Name>)
    requires AuxFileOf(h) == Some(file) && Foreign(names, Slot(h))
    ensures Tidy(AuxCheck(h, file, w, c).ops, Slot(h), names)
  {
    AuxOwner(h);
    if w.aux(h).AuxRecord? {
      NotForeign(names, Slot(h), file.name);
      OneIsTidy(AuxCheck(h, file, w, c).ops[0], Slot(h), names);
    }
  }

  ghost predicate GoodAuxFile(h: HandlerName) {
    AuxFileOf(h).Some? ==>
      var f := AuxFileOf(h).value;
      Owner(f.name) == h && Slot(h) == h && !f.name.CheckpointFile? && !f.name.Agent? && f.artifactType != LLM_INVOCATION
  }

  lemma AnalysisAux(h: HandlerName)
    requires h.RepoInventory? || h.CommandDiscovery? || h.CIInventory? || h.DependencyInventory?
             || h.AIReadinessScoring? || h.StrategicProgrammingAssessment? || h.BacklogFindingGenerator? || h.BacklogUpdate?
    ensures GoodAuxFile(h)
  {
  }

  lemma AuxOwner(h: HandlerName)
    ensures GoodAuxFile(h)
  {
    if h.RepoInventory? || h.CommandDiscovery? || h.CIInventory? || h.DependencyInventory?
       || h.AIReadinessScoring? || h.StrategicProgrammingAssessment? || h.BacklogFindingGenerator? || h.BacklogUpdate? {
      AnalysisAux(h);
    } else if h.DocumentationGap? || h.LinkCheck? || h.SecretScan? || h.DependencyVulnerability?
              || h.AuthChangeRisk? || h.InputValidationRisk? {
    } else if h.DependencyRisk? || h.LicenseCheck? || h.LockfileValidation? || h.Build? {
    } else if h.CIFailureLogParser? || h.FailureClassification? || h.CIConfigValidation? {
    }
  }

  lemma ToolTidy(file: AgentFile, output: Option<string>, names: seq<Name>)
    requires file != AgentSummary && file != RawOutput && file != StructuredOutput && Agent(file) !in names
    ensures Tidy(ToolOp(file, output), AgentInvocation, names)
    ensures forall n: Name :: n in NamesAfter(names, ToolOp(file, output)) ==> n in names || n == Agent(file)
  {
    if output.Some? {
      var op := ToolOp(file, output)[0];
      assert [op][1..] == [];
      assert NamesAfter(names, [op]) == NamesAfter(names + [op.name], []);
    }
  }

  lemma TidyAppend(a: seq<Op>, b: seq<Op>, slot: HandlerName, names: seq<Name>)
    requires Tidy(a, slot, names) && Tidy(b, slot, NamesAfter(names, a))
    ensures Tidy(a + b, slot, names)
    ensures NamesAfter(names, a + b) == NamesAfter(NamesAfter(names, a), b)
  {
    OwnedAppend(a, b, slot);
    FreshAppend(names, a, b);
  }

  /** Names an analyst may have ledgered before its model call. */
  ghost predicate BeforeCall(names: seq<Name>, extra: seq<Name>) {
    forall n | n in extra :: n in names || (n.Agent? && n != SUMMARY_FILE && n != RAW_FILE)
  }

  lemma ToolsTidy(w: World, names: seq<Name>)
    requires w.analyst.Analyst? && Foreign(names, AgentInvocation)
    ensures Tidy(ToolOps(w), AgentInvocation, names) && BeforeCall(names, NamesAfter(names, ToolOps(w)))
  {
    hide Tidy, ToolOp, NamesAfter;
    var t := w.analyst.tools;
    var a, b, c, d := ToolOp(ToolRepoTree, t.0), ToolOp(ToolCommands, t.1), ToolOp(ToolCi, t.2), ToolOp(ToolDependencies, t.3);
    forall f: AgentFile | f != StructuredOutput ensures Agent(f) !in names {
      NotForeign(names, AgentInvocation, Agent(f));
    }
    ToolTidy(ToolRepoTree, t.0, names);
    var n1 := NamesAfter(names, a);
    ToolTidy(ToolCommands, t.1, n1);
    TidyAppend(a, b, AgentInvocation, names);
    var n2 := NamesAfter(names, a + b);
    ToolTidy(ToolCi, t.2, n2);
    TidyAppend(a + b, c, AgentInvocation, names);
    var n3 := NamesAfter(names, a + b + c);
    ToolTidy(ToolDependencies, t.3, n3);
    TidyAppend(a + b + c, d, AgentInvocation, names);
  }

  lemma CallTidy(names: seq<Name>, extra: seq<Name>, call: seq<Op>, hold: seq<Op>)
    requires Foreign(names, AgentInvocation) && BeforeCall(names, extra)
    requires |call| == 3 && |hold| == 2
    requires call[0].name == LlmFile(Prompt, 1) && call[1].name == LlmFile(Reply, 1) && call[2].name == LlmFile(Invocation, 1)
    requires call[0].entry.None? && call[1].entry.None? && hold[0].entry.None? && hold[1].entry.None?
    requires Proper(call[0]) && Proper(call[1]) && Proper(call[2]) && Proper(hold[0]) && Proper(hold[1])
    requires hold[0].name == RAW_FILE && hold[1].name == SUMMARY_FILE
    ensures Tidy(call + hold, AgentInvocation, extra)
  {
    var ops := call + hold;
    forall n: Name | Owner(n) == AgentInvocation && (n.LlmFile? || n == RAW_FILE || n == SUMMARY_FILE) ensures n !in extra {
    }
    FiveOps(ops, AgentInvocation, extra);
  }

  lemma FiveOps(ops: seq<Op>, slot: HandlerName, names: seq<Name>)
    requires |ops| == 5
    requires forall i | 0 <= i < 5 :: Proper(ops[i]) && Owner(ops[i].name) == slot && ops[i].name !in names
    requires ops[0].entry.None? && ops[1].entry.None? && ops[3].entry.None?
    requires ops[2].name != ops[3].name && ops[2].name != ops[4].name
    ensures Tidy(ops, slot, names)
  {
    var o1, o2, o3, o4 := ops[1..], ops[2..], ops[3..], ops[4..];
    assert o1[1..] == o2 && o2[1..] == o3 && o3[1..] == o4 && o4[1..] == [];
    assert Owned(o4, slot) && Owned(o3, slot) && Owned(o2, slot) && Owned(o1, slot);
    var more := names + Ledgered(ops[2]);
    assert names + [] == names && more + [] == more;
    assert Fresh(more, o4);
    assert Fresh(more, o3);
    assert Fresh(names, o2);
    assert Fresh(names, o1);
  }

  lemma AnalystTidy(w: World, c: Ctx, names: seq<Name>)
    requires Foreign(names, AgentInvocation)
    ensures Tidy(AnalystStage(w, c).ops, AgentInvocation, names)
  {
    if w.analyst.Analyst? {
      ToolsTidy(w, names);
      if w.analyst.reply.Some? {
        var r := w.analyst.reply.value;
        var call := Invoke(1, r.model, r.prompt, r.text, r.record);
        var hold := [Hold(RAW_FILE, r.text, "analyst"), Hold(SUMMARY_FILE, w.text(SUMMARY_FILE), "analyst")];
        CallTidy(names, NamesAfter(names, ToolOps(w)), call, hold);
        TidyAppend(ToolOps(w), call + hold, AgentInvocation, names);
      }
    }
  }

  lemma AgentTidy(c: Ctx, names: seq<Name>)
    requires Foreign(names, AgentInvocation)
    ensures Tidy(AgentStage(c).ops, AgentInvocation, names)
  {
    var ops := AgentStage(c).ops;
    if ops != [] {
      NotForeign(names, AgentInvocation, SUMMARY_FILE);
      NotForeign(names, AgentInvocation, RAW_FILE);
      TwoAreTidy(ops[0], ops[1], AgentInvocation, names);
    }
  }

  lemma DiffTidy(w: World, c: Ctx, names: seq<Name>)
    requires Foreign(names, DiffCapture)
    ensures Tidy(DiffStage(w, c).ops, DiffCapture, names)
  {
    hide Blank, PathOf, Tidy, Foreign;
    var ops := DiffStage(w, c).ops;
    if ops != [] {
      NotForeign(names, DiffCapture, ops[0].name);
      NotForeign(names, DiffCapture, ops[1].name);
      NotForeign(names, DiffCapture, ops[2].name);
      ThreeAreTidy(ops[0], ops[1], ops[2], DiffCapture, names);
    } else {
      NoOps(DiffCapture, names);
    }
  }

  lemma OwnsPr()
    ensures Owner(Verdict(PrBody)) == PRGate && Owner(Verdict(PrGateReport)) == PRGate
  {
  }

  lemma PrTidy(w: World, c: Ctx, names: seq<Name>)
    requires Foreign(names, PRGate)
    ensures Tidy(PrStage(w, c).ops, PRGate, names)
  {
    hide PrReasons, PathOf, Tidy, Foreign, Owner;
    OwnsPr();
    var ops := PrStage(w, c).ops;
    if ops != [] {
      NotForeign(names, PRGate, ops[0].name);
      NotForeign(names, PRGate, ops[1].name);
      TwoAreTidy(ops[0], ops[1], PRGate, names);
    } else {
      NoOps(PRGate, names);
    }
  }

  ghost predicate SingleOp(ops: seq<Op>, slot: HandlerName) {
    ops == [] || (|ops| == 1 && Proper(ops[0]) && Owner(ops[0].name) == slot)
  }

  lemma SingleTidy(ops: seq<Op>, slot: HandlerName, names: seq<Name>)
    requires SingleOp(ops, slot) && Foreign(names, slot)
    ensures Tidy(ops, slot, names)
  {
    if ops != [] {
      NotForeign(names, slot, ops[0].name);
      OneIsTidy(ops[0], slot, names);
      assert ops == [ops[0]];
    }
  }

  lemma TestOps(w: World, c: Ctx)
    ensures SingleOp(TestStage(w, c).ops, TestRunner)
  {
    hide Gather, OutcomesOf, AllZero, PathOf;
  }

  lemma ReproductionOps(h: HandlerName, file: Name, w: World, c: Ctx)
    requires Owner(file) == h && file.Change?
    ensures SingleOp(ReproductionStage(h, file, w, c).ops, h)
  {
    hide Gather, Reproduces, PathOf;
  }

  lemma PlainStages(w: World, c: Ctx)
    ensures SingleOp(ParseStage(w, c).ops, StructuredOutputParser)
    ensures DesignCheck(c).ops == [] && QuarantineCheck(c).ops == [] && ScopeDiffCheck(w, c).ops == []
  {
    hide AllReasons, AnyQuarantined, ScopeReasons;
  }

  lemma StagesTidy(h: HandlerName, w: World, c: Ctx, names: seq<Name>)
    requires FamilyOf(h) == StageFamily && Foreign(names, Slot(h))
    ensures Tidy(StageEffect(h, w, c).ops, Slot(h), names)
  {
    hide AnalystStage, ParseStage, DesignCheck, AgentStage, QuarantineCheck, DiffStage, TestStage, ScopeDiffCheck,
         ReproductionStage, Tidy, SingleOp, Foreign;
    match h
    case AnalysisAgentInvocation => AnalystTidy(w, c, names);
    case AgentInvocation => AgentTidy(c, names);
    case DiffCapture => DiffTidy(w, c, names);
    case _ => SingleStageTidy(h, w, c, names);
  }

  lemma SingleStageTidy(h: HandlerName, w: World, c: Ctx, names: seq<Name>)
    requires FamilyOf(h) == StageFamily && Foreign(names, h) && Slot(h) == h
    requires !h.AgentInvocation? && !h.DiffCapture?
    ensures Tidy(StageEffect(h, w, c).ops, h, names)
  {
    hide AnalystStage, ParseStage, DesignCheck, AgentStage, QuarantineCheck, DiffStage, TestStage, ScopeDiffCheck,
         ReproductionStage, Tidy, SingleOp, Foreign;
    PlainStages(w, c);
    NoOps(h, names);
    if h.TestRunner? {
      TestOps(w, c);
      SingleTidy(TestStage(w, c).ops, h, names);
    } else if h.FailureReproduction? {
      ReproductionOps(h, Change(FailureReproductionLog), w, c);
      SingleTidy(ReproductionStage(h, Change(FailureReproductionLog), w, c).ops, h, names);
    } else if h.Reproduction? {
      ReproductionOps(h, Change(CiReproductionLog), w, c);
      SingleTidy(ReproductionStage(h, Change(CiReproductionLog), w, c).ops, h, names);
    } else if h.StructuredOutputParser? {
      SingleTidy(ParseStage(w, c).ops, h, names);
    }
  }

  lemma VerificationOps(h: HandlerName, w: World, work: Work, gates: seq<GateResult>)
    ensures SingleOp(Verification(h, w, work, gates).ops, ImplementationVerifier)
  {
  }

  lemma AnalysisOps(w: World, c: Ctx)
    ensures SingleOp(AnalysisVerdict(w, c).ops, ImplementationVerifier)
  {
    var work := c.work.(verifierRunId := Or(c.work.verifierRunId, ANALYSIS_VERIFIER));
    VerificationOps(AnalysisVerifier, w, work, [SelfGate(work, false), EvidenceGateOf(c, [ANALYSIS_REPORT])]);
  }

  lemma ChangeOps(w: World, c: Ctx)
    ensures SingleOp(ChangeVerdict(w, c).ops, ImplementationVerifier)
  {
    var work := c.work.(verifierRunId := Or(c.work.verifierRunId, IMPL_VERIFIER));
    VerificationOps(ImplementationVerifier, w, work, ChangeGates(w, c, work));
  }

  lemma DocumentOps(w: World, c: Ctx)
    ensures SingleOp(DocumentVerdict(w, c).ops, ImplementationVerifier)
  {
    var work := c.work.(verifierRunId := Or(c.work.verifierRunId, DOC_VERIFIER));
    VerificationOps(DocumentationVerifier, w, work,
                    [SelfGate(work, !c.work.summaryQuarantined), EvidenceGateOf(c, [DIFF]), ScopeGateOf(w, c)]);
  }

  lemma SecurityOps(w: World, c: Ctx)
    ensures SingleOp(SecurityVerdict(w, c).ops, ImplementationVerifier)
  {
    var work := c.work.(verifierRunId := Or(c.work.verifierRunId, SECURITY_VERIFIER));
    VerificationOps(SecurityVerifier, w, work, [SelfGate(work, false), EvidenceGateOf(c, [DIFF]), ScopeGateOf(w, c)]);
  }

  lemma VerifiersTidy(h: HandlerName, w: World, c: Ctx, names: seq<Name>)
    requires FamilyOf(h) == VerdictFamily && Foreign(names, ImplementationVerifier)
    ensures Slot(h) == ImplementationVerifier && Tidy(VerdictEffect(h, w, c).ops, ImplementationVerifier, names)
  {
    hide AnalysisVerdict, ChangeVerdict, DocumentVerdict, SecurityVerdict, SingleOp, Tidy, Foreign;
    match h {
      case AnalysisVerifier => AnalysisOps(w, c);
      case ImplementationVerifier => ChangeOps(w, c);
      case DocumentationVerifier => DocumentOps(w, c);
      case SecurityVerifier => SecurityOps(w, c);
    }
    SingleTidy(VerdictEffect(h, w, c).ops, ImplementationVerifier, names);
  }

  lemma EvaluationOps(w: World, c: Ctx)
    ensures SingleOp(EvaluationStage(w, c).ops, Evaluator)
  {
    hide PathOf;
  }

  lemma MemoryOps(w: World, c: Ctx)
    ensures SingleOp(MemoryStage(w, c).ops, MemoryUpdate)
  {
    hide PathOf;
  }

  lemma NoteOps(w: World, c: Ctx)
    ensures SingleOp(NoTestsNote(w, c).ops, SecurityReviewTestsNotApplicable)
  {
    hide PathOf;
  }

  lemma ClosingTidy(h: HandlerName, w: World, c: Ctx, names: seq<Name>)
    requires FamilyOf(h) == ClosingFamily && Foreign(names, Slot(h))
    ensures Slot(h) == h && Tidy(ClosingEffect(h, w, c).ops, h, names)
  {
    hide EvaluationStage, MemoryStage, PrStage, NoTestsNote, SingleOp, Tidy, Foreign;
    if h.PRGate? {
      PrTidy(w, c, names);
    } else {
      EvaluationOps(w, c);
      MemoryOps(w, c);
      NoteOps(w, c);
      SingleTidy(ClosingEffect(h, w, c).ops, h, names);
    }
  }

  lemma ControlOps(w: World, c: Ctx)
    ensures ManifestCheck(c).ops == [] && ScrumCheck(c).ops == [] && ScopeCheck(c).ops == []
    ensures EvidenceCheck(c).ops == [] && StopCheck(c).ops == [] && ComplianceCheck(c).ops == []
    ensures SingleOp(DodLockCheck(w, c).ops, DefinitionOfDoneLock)
  {
    hide FromGates, EvidenceGateOf;
  }

  lemma ControlTidy(h: HandlerName, w: World, c: Ctx, names: seq<Name>)
    requires FamilyOf(h) == ControlFamily && Foreign(names, Slot(h))
    ensures Slot(h) == h && Tidy(ControlEffect(h, w, c).ops, h, names)
  {
    hide ManifestCheck, ScrumCheck, DodLockCheck, ScopeCheck, EvidenceCheck, StopCheck, ComplianceCheck,
         Tidy, SingleOp, Foreign;
    ControlOps(w, c);
    if h.DefinitionOfDoneLock? {
      SingleTidy(DodLockCheck(w, c).ops, h, names);
    } else {
      NoOps(h, names);
    }
  }

  /** Whatever the world answers, a handler performs only proper operations on files of its own
      slot, and never writes one of them again after ledgering it. */
  lemma EffectsAreTidy(h: HandlerName, w: World, c: Ctx, names: seq<Name>)
    requires Foreign(names, Slot(h))
    ensures Tidy(EffectOf(h, w, c).ops, Slot(h), names)
  {
    hide ControlEffect, AuxCheck, StageEffect, VerdictEffect, ClosingEffect, Tidy, Foreign;
    match FamilyOf(h)
    case ControlFamily => ControlTidy(h, w, c, names);
    case AuxFamily => AuxTidy(h, AuxFileOf(h).value, w, c, names);
    case StageFamily => StagesTidy(h, w, c, names);
    case VerdictFamily => VerifiersTidy(h, w, c, names);
    case ClosingFamily => ClosingTidy(h, w, c, names);
  }
}
