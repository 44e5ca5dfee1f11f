/** The thesis of the control plane: what the PASS of a registered chain is worth. */
module Thesis {
  import opened Core
  import opened Gates
  import opened EvidenceWriter
  import opened Names
  import opened Evidence
  import opened Context
  import opened Executor
  import opened ExecutorLaws
  import opened Registry
  import opened Handlers
  import opened ResultLaws
  import opened ChainRuns

  /** The handlers of the launch obey the laws of the registered ones in a world. */
  ghost predicate LawfulIn(l: Launch, w: World) {
    forall h: HandlerName, c: Ctx :: Lawful(h, w, c, l.effects(h, c))
  }

  /** What the handler at a position can be. */
  ghost predicate Place(chain: seq<HandlerName>, v: nat, i: nat)
    requires i < |chain|
  {
    && (IsVerifier(chain[i]) <==> i == v)
    && (chain[i] == StopOrLoop <==> i == |chain| - 1)
    && (i > v ==> Late(chain[i]))
    && (Advisory(chain[i]) ==> i > v)
  }

  /** The shape all registered chains have: one verifier, only late handlers after it, everything
      that reads its decision among them, and StopOrLoop at the end. */
  ghost predicate WellShaped(chain: seq<HandlerName>, v: nat) {
    v + 1 < |chain| && forall i: nat | i < |chain| :: Place(chain, v, i)
  }

  /** A run of such a chain, its verifier at position v, with lawful handlers in a world. */
  ghost predicate RunsChain(l: Launch, v: nat, w: World) {
    Unworked(l.start) && LawfulIn(l, w) && WellShaped(Chain(l), v)
  }

  ghost predicate LateAfter(chain: seq<HandlerName>, v: nat) {
    forall i | v < i < |chain| :: Late(chain[i])
  }

  /** Only late handlers follow a verifier. */
  lemma LateFollow(id: ChainId)
    ensures LateAfter(ChainOf(id), VerifierAt(id))
  {
    hide Late;
    LateNames();
    match id
    case AiReadinessAuditChain => LateInAudit();
    case ImplementationChain =>
    case BugFixChain =>
    case SecurityReviewChain => LateInReviews();
    case DependencyUpdateChain =>
    case DocumentationUpdateChain => LateInReviews();
    case CiFailureRepairChain =>
  }

  lemma LateNames()
    ensures Late(StopOrLoop) && Late(Evaluator) && Late(MemoryUpdate) && Late(PRGate)
    ensures Late(HandlerName.EvidenceGate) && Late(BacklogUpdate)
  {
  }

  lemma LateInAudit()
    ensures LateAfter(ChainOf(AiReadinessAuditChain), VerifierAt(AiReadinessAuditChain))
  {
    hide Late;
    LateNames();
  }

  lemma LateInReviews()
    ensures LateAfter(ChainOf(SecurityReviewChain), VerifierAt(SecurityReviewChain))
    ensures LateAfter(ChainOf(DocumentationUpdateChain), VerifierAt(DocumentationUpdateChain))
  {
    hide Late;
    LateNames();
  }

  lemma StopIsNoVerifier()
    ensures !IsVerifier(StopOrLoop)
  {
  }

  /** All seven chains have the shape. */
  lemma RegisteredChainsAreShaped(id: ChainId)
    ensures WellShaped(ChainOf(id), VerifierAt(id))
  {
    hide ChainOf, VerifierAt, Late, IsVerifier, Advisory;
    ChainShapes(id);
    LateFollow(id);
    StopIsNoVerifier();
  }

  // ------------------------------------------------------------------- one step

  /** The executor blames a handler for a change it has no authority to leave behind. */
  predicate Blamed(h: HandlerName, after: Ctx) {
    !CanModifyRepo(TypeOf(h)) && Mutated(after)
  }

  function EnforcedResult(h: HandlerName, after: Ctx, r: HandlerResult): HandlerResult {
    if Blamed(h, after) then ViolationResult(r, TypeOf(h)) else r
  }

  /** What one handler makes of a run, checkpoints aside. */
  ghost predicate After(before: Run, after: Run, h: HandlerName, e: Effect, r: HandlerResult) {
    && after.ctx.work == e.work
    && after.ctx.request == RequestAfter(before.ctx.request, e)
    && after.ctx.repoSnapshot == before.ctx.repoSnapshot
    && after.ctx.verifierDecision == Decided(TypeOf(h), r, before.ctx.verifierDecision)
    && after.prStatus == r.prStatus.GetOr(before.prStatus)
    && after.stopped == Failing(r) && after.halted == Cutting(r) && !before.halted
    && after.status == StatusOf(r, before.status)
    && after.ctx.ev.writer == Closed(PerformAll(before.ctx.ev, e.ops), e.finalStatus).writer
  }

  lemma SameTree(l: Launch, before: Run, after: Run, i: nat, h: HandlerName)
    requires Stepped(l, before, after, i, h)
    ensures ResultIn(l, before, h) == EnforcedResult(h, after.ctx, EffectAt(l, before, h).result)
  {
    hide CanModifyRepo, PerformAll, Closed, TypeOf, Perform, CheckpointOp;
    var d := Applied(before.ctx, EffectAt(l, before, h), l.trees(h));
    assert Mutated(d) == Mutated(after.ctx);
  }

  lemma SteppedIsAfter(l: Launch, before: Run, after: Run, i: nat, h: HandlerName, r: HandlerResult)
    requires Stepped(l, before, after, i, h) && !before.halted && r == ResultIn(l, before, h)
    ensures After(before, after, h, EffectAt(l, before, h), r)
  {
    var e := EffectAt(l, before, h);
    var data := StepEvidence(l, before, after, i, h);
    hide PerformAll, Closed, TypeOf, Perform, CheckpointOp, CanDecidePass, ResultIn, EffectAt, RequestAfter;
    CheckpointIsStored(i, h, data);
    StoredOnly(Closed(PerformAll(before.ctx.ev, e.ops), e.finalStatus), CheckpointOp(i, h, data));
  }

  /** What one handler of a run does: its effect is lawful, its result is enforced. */
  lemma StepOf(l: Launch, v: nat, w: World, t: seq<Run>, i: nat)
    returns (h: HandlerName, e: Effect, r: HandlerResult)
    requires RunsChain(l, v, w) && Traced(l, t) && i + 1 < |t|
    ensures i < |Chain(l)| && h == Chain(l)[i] && Place(Chain(l), v, i)
    ensures e == EffectAt(l, t[i], h) && Lawful(h, w, t[i].ctx, e)
    ensures r == EnforcedResult(h, t[i + 1].ctx, e.result)
    ensures After(t[i], t[i + 1], h, e, r) && t[i + 1].ctx.repo == l.trees(h)
  {
    hide Lawful, Stepped, Unworked, Traced, After, EnforcedResult, Place;
    TraceStep(l, t, i);
    h := Chain(l)[i];
    e := EffectAt(l, t[i], h);
    r := ResultIn(l, t[i], h);
    SameTree(l, t[i], t[i + 1], i, h);
    SteppedIsAfter(l, t[i], t[i + 1], i, h, r);
    assert Lawful(h, w, t[i].ctx, l.effects(h, t[i].ctx));
  }

  // ------------------------------------------------------------- what every step keeps

  lemma OnlyVerifiersDecide(h: HandlerName, r: HandlerResult, d: Decision)
    ensures Decided(TypeOf(h), r, d) == if IsVerifier(h) then DecisionOf(r.status).GetOr(d) else d
  {
  }

  /** The same request and work, up to the evaluator's score. */
  ghost predicate SameWork(a: Ctx, b: Ctx) {
    b.request == a.request && b.work == a.work.(evalScore := b.work.evalScore)
  }

  /** How a run looks after n handlers: pending up to its verifier, which decides and whose work stands
      from then on; its ledger open until the end; its snapshot the first one. */
  ghost predicate Along(l: Launch, v: nat, t: seq<Run>, n: nat)
    requires n < |t|
  {
    && (n <= v ==> t[n].ctx.verifierDecision == Pending)
    && (v < n ==> t[n].ctx.verifierDecision == t[v + 1].ctx.verifierDecision && SameWork(t[v + 1].ctx, t[n].ctx))
    && (n < |Chain(l)| ==> t[n].ctx.ev.writer.ledger.finalStatus == Pending)
    && t[n].ctx.repoSnapshot == Snapshot0(l.start.repo)
  }

  lemma ClosedStatus(before: Evidence, ops: seq<Op>, status: Option<Decision>)
    ensures Closed(PerformAll(before, ops), status).writer.ledger.finalStatus
            == status.GetOr(before.writer.ledger.finalStatus)
  {
    hide PerformAll;
    RunOnlyAppends(before, ops);
  }

  /** What a step changes of that: a verifier decides, and the last handler closes the ledger. */
  lemma StepKeeps(l: Launch, v: nat, w: World, t: seq<Run>, i: nat)
    requires RunsChain(l, v, w) && Traced(l, t) && i + 1 < |t|
    ensures i != v ==> t[i + 1].ctx.verifierDecision == t[i].ctx.verifierDecision
    ensures v < i ==> SameWork(t[i].ctx, t[i + 1].ctx)
    ensures i < |Chain(l)| && t[i + 1].ctx.repo == l.trees(Chain(l)[i]) && t[i + 1].ctx.repoSnapshot == t[i].ctx.repoSnapshot
    ensures t[i + 1].ctx.ev.writer.ledger.finalStatus ==
            if i + 1 == |Chain(l)| then (if t[i].ctx.verifierDecision == Pending then Blocked else t[i].ctx.verifierDecision)
            else t[i].ctx.ev.writer.ledger.finalStatus
  {
    hide RunsChain, Traced, TypeOf, Decided, EnforcedResult, PerformAll, Closed, IsVerifier, Late, Advisory, RealGrowth, Judges,
         PresentsPr, Remembers, Records;
    var h, e, r := StepOf(l, v, w, t, i);
    OnlyVerifiersDecide(h, r, t[i].ctx.verifierDecision);
    ClosedStatus(t[i].ctx.ev, e.ops, e.finalStatus);
  }

  lemma TraceStarts(l: Launch, t: seq<Run>)
    requires Unworked(l.start) && Traced(l, t)
    ensures t[0] == Start(l.start) && t[0].ctx.verifierDecision == Pending && !t[0].stopped
    ensures t[0].ctx.ev.writer.ledger.finalStatus == Pending && t[0].prStatus == NotRequired
    ensures t[0].ctx.work == EmptyWork(l.start.work.manifest) && t[0].ctx.repoSnapshot == Snapshot0(l.start.repo)
  {
    hide TracedAt;
  }

  lemma {:induction false} AllAlong(l: Launch, v: nat, w: World, t: seq<Run>, n: nat)
    requires RunsChain(l, v, w) && Traced(l, t) && n < |t|
    ensures Along(l, v, t, n)
  {
    hide LawfulIn, WellShaped, Unworked, Traced;
    if n == 0 {
      TraceStarts(l, t);
    } else {
      AllAlong(l, v, w, t, n - 1);
      StepKeeps(l, v, w, t, n - 1);
    }
  }

  /** The verifier of a chain decides, and the run goes on exactly when it passes. */
  lemma VerifierDecides(l: Launch, v: nat, w: World, t: seq<Run>)
    requires RunsChain(l, v, w) && Traced(l, t) && v + 1 < |t|
    ensures var after := t[v + 1];
            && after.ctx.verifierDecision != Pending
            && after.halted == after.stopped == (after.ctx.verifierDecision != Pass)
            && (after.stopped ==> after.status != RunPass)
  {
    hide RunsChain, Traced, TypeOf, Decided, Blamed, PerformAll, Closed, Late, Advisory, RealGrowth, Judges, Records, KeepsWork;
    var h, e, r := StepOf(l, v, w, t, v);
    OnlyVerifiersDecide(h, r, t[v].ctx.verifierDecision);
  }

  /** Whoever is reached after the verifier finds its PASS: the evaluator, the memory update, the
      pull request gate and the terminal handler never see another decision. */
  lemma ReadersSeePass(l: Launch, v: nat, w: World, t: seq<Run>, i: nat)
    requires RunsChain(l, v, w) && Traced(l, t) && v < i && i + 1 < |t|
    ensures t[i].ctx.verifierDecision == Pass
  {
    hide RunsChain, Traced, SameWork, Stepped;
    VerifierDecides(l, v, w, t);
    AllAlong(l, v, w, t, i);
    TraceStep(l, t, v + 1);
  }

  // -------------------------------------------------------------------- the verdict

  /** The last handler of the chain stops the run, unless the executor blames it for a changed tree; any
      other stops it by failing only. */
  lemma StopsOrGoesOn(l: Launch, v: nat, w: World, t: seq<Run>, i: nat)
    requires RunsChain(l, v, w) && Traced(l, t) && i + 1 < |t|
    ensures var after := t[i + 1];
            if i + 1 < |Chain(l)| then after.halted == after.stopped && (after.stopped ==> VerdictOf(after) != RunPass)
            else after.halted && after.stopped == Mutated(after.ctx) && (after.stopped ==> VerdictOf(after) == RunBlocked)
  {
    hide RunsChain, Traced, Decided, PerformAll, Closed, IsVerifier, Late, Advisory, RealGrowth, Judges, PresentsPr, Remembers,
         Records, KeepsWork, Mutated, RequestAfter;
    var h, e, r := StepOf(l, v, w, t, i);
  }

  /** A run passes exactly when it processed its whole chain and left the tree as it found it. */
  lemma PassIsWhole(l: Launch, v: nat, w: World, t: seq<Run>)
    requires RunsChain(l, v, w) && Traced(l, t)
    ensures VerdictOf(t[|t| - 1]) == RunPass <==> |t| == |Chain(l)| + 1 && !Mutated(t[|t| - 1].ctx)
  {
    hide LawfulIn, WellShaped, Unworked, TracedAt, Mutated;
    var n := |t| - 1;
    ShapeEnds(Chain(l), v);
    if n == 0 {
      TraceStarts(l, t);
    } else {
      StopsOrGoesOn(l, v, w, t, n - 1);
      if n == |Chain(l)| {
        ReadersSeePass(l, v, w, t, n - 1);
        StepKeeps(l, v, w, t, n - 1);
      }
    }
  }

  /** The verifier is not last, and StopOrLoop is. */
  lemma ShapeEnds(chain: seq<HandlerName>, v: nat)
    requires WellShaped(chain, v)
    ensures v + 1 < |chain| && chain[|chain| - 1] == StopOrLoop && IsVerifier(chain[v])
  {
    hide IsVerifier, Late, Advisory;
    assert Place(chain, v, |chain| - 1) && Place(chain, v, v);
  }

  // -------------------------------------------------------------------- the ledger's end

  /** A ledger is finalized only by a run that reaches the end of its chain, and then as PASS;
      every other run leaves it pending. */
  lemma LedgerCloses(l: Launch, v: nat, w: World, t: seq<Run>)
    requires RunsChain(l, v, w) && Traced(l, t)
    ensures t[|t| - 1].ctx.ev.writer.ledger.finalStatus == if |t| == |Chain(l)| + 1 then Pass else Pending
  {
    hide LawfulIn, WellShaped, Unworked, TracedAt, SameWork;
    var n := |t| - 1;
    if n == |Chain(l)| {
      ShapeEnds(Chain(l), v);
      ReadersSeePass(l, v, w, t, n - 1);
      StepKeeps(l, v, w, t, n - 1);
    } else {
      AllAlong(l, v, w, t, n);
    }
  }

  /** The tree is the one a run started from, or gone. */
  predicate Unchanged(tree: Option<Snapshot>, repo: Option<Snapshot>) {
    tree.Some? ==> tree.value == Snapshot0(repo)
  }

  /** The ledger of a run that passes says PASS, and no other run is blamed by its ledger: where a ledger
      says PASS, the run passes exactly when the tree that its last handler leaves is unchanged, and is
      blocked otherwise. */
  lemma LedgerAgreesWithVerdict(l: Launch, v: nat, w: World, t: seq<Run>)
    requires RunsChain(l, v, w) && Traced(l, t)
    ensures var end := t[|t| - 1];
            && (end.ctx.ev.writer.ledger.finalStatus != Pass ==> VerdictOf(end) != RunPass)
            && (end.ctx.ev.writer.ledger.finalStatus == Pass ==>
                  VerdictOf(end) == if Unchanged(l.trees(StopOrLoop), l.start.repo) then RunPass else RunBlocked)
  {
    hide LawfulIn, WellShaped, Unworked, TracedAt, VerdictOf, SameWork;
    PassIsWhole(l, v, w, t);
    LedgerCloses(l, v, w, t);
    var n := |t| - 1;
    if n == |Chain(l)| {
      ShapeEnds(Chain(l), v);
      StepKeeps(l, v, w, t, n - 1);
      AllAlong(l, v, w, t, n);
      StopsOrGoesOn(l, v, w, t, n - 1);
    }
  }

  // --------------------------------------------------------- what was verified, kept

  /** Nothing after the verifier disturbs the work it looked at. */
  lemma WorkKept(l: Launch, v: nat, w: World, t: seq<Run>, n: nat)
    requires RunsChain(l, v, w) && Traced(l, t) && v < n < |t|
    ensures SameWork(t[v + 1].ctx, t[n].ctx)
  {
    hide RunsChain, Traced, SameWork;
    AllAlong(l, v, w, t, n);
  }

  lemma SupportsLater(a: Evidence, b: Evidence, names: seq<Name>, required: seq<ArtifactType>)
    requires Supports(a.writer.ledger, a.runId, a.taskId, required)
    requires Extends(a, b) && Grown(b, names)
    ensures Supports(b.writer.ledger, b.runId, b.taskId, required)
  {
    hide AllSound, AllPresent, DistinctIds, Built, Placed, Mirrored, OneAttempt;
    GrownIsSound(b, names);
    PresentGrows(a.writer.ledger.entries, b.writer.ledger.entries, required);
  }

  /** What the PASS of a run is worth at a moment of it. */
  ghost predicate Earned(h: HandlerName, m: Matcher, c: Ctx) {
    && LedgerSupports(c, h)
    && Vouched(h, m, c.request, c.work)
  }

  lemma VouchedIsKept(h: HandlerName, m: Matcher, a: Ctx, b: Ctx)
    requires Vouched(h, m, a.request, a.work) && SameWork(a, b)
    ensures Vouched(h, m, b.request, b.work)
  {
    hide AllInScope, TestsPass, RulesOf;
  }

  /** Where the verifier passed, it had looked at a ledger that supports a PASS and vouched for
      the work. */
  lemma VerifierEarned(l: Launch, v: nat, w: World, t: seq<Run>)
    requires RunsChain(l, v, w) && Traced(l, t) && v + 1 < |t| && t[v + 1].ctx.verifierDecision == Pass
    ensures v < |Chain(l)| && LedgerSupports(t[v].ctx, Chain(l)[v])
    ensures Vouched(Chain(l)[v], w.matcher, t[v + 1].ctx.request, t[v + 1].ctx.work)
    ensures t[v + 1].ctx.request == t[v].ctx.request
  {
    hide RunsChain, Traced, TypeOf, Decided, Late, Advisory, Vouched, LedgerSupports, PerformAll, Closed, Blamed, RealGrowth, Records,
         KeepsWork, SameWork;
    var h, e, r := StepOf(l, v, w, t, v);
    OnlyVerifiersDecide(h, r, t[v].ctx.verifierDecision);
    AllAlong(l, v, w, t, v);
  }

  lemma EarnedIsKept(h: HandlerName, m: Matcher, a: Ctx, b: Ctx, c: Ctx, names: seq<Name>)
    requires LedgerSupports(a, h) && Vouched(h, m, b.request, b.work) && b.request == a.request
    requires SameWork(b, c) && Extends(a.ev, c.ev) && Sound(c.ev, names)
    ensures Earned(h, m, c) && Agreement(c.ev)
  {
    hide Supports, Extends, Grown, Agreement, RequiredBy, Vouched;
    SupportsLater(a.ev, c.ev, names, RequiredBy(h, a.request));
    VouchedIsKept(h, m, b, c);
  }

  /** The thesis. When a run of a registered chain passes, then at its end the ledger is linked,
      hashed, free of agent narrative and of repeated ids, and holds the types its verifier asks
      for; what the verifier vouched for still holds; every entry's hash is that of the bytes
      stored at its path; and the repository is as the run found it or gone. */
  lemma PassIsEarned(l: Launch, v: nat, w: World, t: seq<Run>)
    requires RunsChain(l, v, w) && Careful(l) && Traced(l, t) && VerdictOf(t[|t| - 1]) == RunPass
    ensures var c := t[|t| - 1].ctx;
            && v < |Chain(l)|
            && Earned(Chain(l)[v], w.matcher, c)
            && Agreement(c.ev)
            && !Mutated(c)
  {
    hide LawfulIn, WellShaped, Unworked, TracedAt, Careful, Sound, Extends, LedgerSupports, Vouched, SameWork, Agreement, Earned, Mutated,
         VerdictOf;
    var n := |t| - 1;
    PassIsWhole(l, v, w, t);
    ShapeEnds(Chain(l), v);
    ReadersSeePass(l, v, w, t, n - 1);
    AllAlong(l, v, w, t, n - 1);
    VerifierEarned(l, v, w, t);
    WorkKept(l, v, w, t, n);
    var names := EvidenceStaysSound(l, t, n);
    LedgerOnlyGrows(l, t, v, n);
    EarnedIsKept(Chain(l)[v], w.matcher, t[v].ctx, t[v + 1].ctx, t[n].ctx, names);
  }
}
