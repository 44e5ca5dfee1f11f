/** The order of the evidence in chains that reproduce a failure before they fix it, and the
    whole of what a passing run of a registered chain guarantees. */
module EvidenceOrder {
  import opened Core
  import opened Text
  import opened Gates
  import opened EvidenceWriter
  import opened ArtifactStore
  import opened Names
  import opened Evidence
  import opened Context
  import opened Executor
  import opened ExecutorLaws
  import opened Registry
  import opened Handlers
  import opened ResultLaws
  import opened ChainRuns
  import opened Thesis
  import opened RunCoherence

  /** Entry p of a ledger is this record. */
  ghost predicate Recorded(entries: seq<LedgerEntry>, p: nat, t: ArtifactType, path: string, result: LedgerResult) {
    && p < |entries|
    && entries[p].artifactType == t && entries[p].artifactPath == path && entries[p].result == result
  }

  lemma PerformRecords(ev: Evidence, op: Op)
    requires op.entry.Some?
    ensures Recorded(Perform(ev, op).writer.ledger.entries, |ev.writer.ledger.entries|, op.artifactType,
                     PathOf(ev, op.name), op.entry.value.result)
  {
  }

  lemma PerformAllRecords(ev: Evidence, ops: seq<Op>, status: Option<Decision>)
    requires ops != [] && ops[0].entry.Some?
    ensures Recorded(Closed(PerformAll(ev, ops), status).writer.ledger.entries, |ev.writer.ledger.entries|,
                     ops[0].artifactType, PathOf(ev, ops[0].name), ops[0].entry.value.result)
  {
    hide Perform, PathOf;
    PerformRecords(ev, ops[0]);
    RunOnlyAppends(Perform(ev, ops[0]), ops[1..]);
  }

  lemma RecordedNext(l: Launch, v: nat, w: World, t: seq<Run>, i: nat, name: Name, kind: ArtifactType, result: LedgerResult)
    requires RunsChain(l, v, w) && Traced(l, t) && i + 1 < |t| && i < |Chain(l)|
    requires Ledgers(EffectAt(l, t[i], Chain(l)[i]), name, kind, result)
    ensures Recorded(t[i + 1].ctx.ev.writer.ledger.entries, |t[i].ctx.ev.writer.ledger.entries|, kind,
                     PathOf(t[i].ctx.ev, name), result)
    ensures |t[i].ctx.ev.writer.ledger.entries| < |t[i + 1].ctx.ev.writer.ledger.entries|
  {
    hide RunsChain, Traced, TypeOf, Decided, Blamed, PerformAll, Closed, EnforcedResult, PathOf, Lawful, Place;
    var h, e, r := StepOf(l, v, w, t, i);
    PerformAllRecords(t[i].ctx.ev, e.ops, e.finalStatus);
  }

  lemma RecordKept(a: seq<LedgerEntry>, b: seq<LedgerEntry>, p: nat, kind: ArtifactType, path: string, result: LedgerResult)
    requires a <= b && Recorded(a, p, kind, path, result)
    ensures Recorded(b, p, kind, path, result)
  {
  }

  lemma EntriesGrow(a: Evidence, b: Evidence)
    requires Extends(a, b)
    ensures a.writer.ledger.entries <= b.writer.ledger.entries
    ensures |a.writer.ledger.entries| <= |b.writer.ledger.entries|
  {
  }

  lemma SamePaths(a: Evidence, b: Evidence, name: Name)
    requires Extends(a, b)
    ensures PathOf(a, name) == PathOf(b, name)
  {
  }

  /** A handler whose first operation ledgers a file puts that record right after the entries it
      found, and there it stays. */
  lemma RecordStays(l: Launch, v: nat, w: World, t: seq<Run>, i: nat, n: nat, name: Name, kind: ArtifactType,
                    result: LedgerResult)
    requires RunsChain(l, v, w) && Traced(l, t) && i < n < |t| && i < |Chain(l)|
    requires Ledgers(EffectAt(l, t[i], Chain(l)[i]), name, kind, result)
    ensures Recorded(t[n].ctx.ev.writer.ledger.entries, |t[i].ctx.ev.writer.ledger.entries|, kind,
                     PathOf(t[n].ctx.ev, name), result)
    ensures |t[i].ctx.ev.writer.ledger.entries| < |t[n].ctx.ev.writer.ledger.entries|
  {
    hide *;
    RecordedNext(l, v, w, t, i, name, kind, result);
    LedgerOnlyGrows(l, t, i + 1, n);
    LedgerOnlyGrows(l, t, i, n);
    var before, next, last := t[i].ctx.ev, t[i + 1].ctx.ev, t[n].ctx.ev;
    SamePaths(before, last, name);
    EntriesGrow(next, last);
    RecordKept(next.writer.ledger.entries, last.writer.ledger.entries, |before.writer.ledger.entries|, kind,
               PathOf(before, name), result);
  }

  /** Where the records of a reproduce-then-fix chain ended up. */
  datatype Trail = Trail(reproduction: nat, diff: nat, tests: nat)

  ghost predicate Reproduced(c: Ctx, h: HandlerName, p: nat) {
    Recorded(c.ev.writer.ledger.entries, p, TEST, PathOf(c.ev, ReproductionFile(h)), EntryFail)
  }

  ghost predicate Changed(c: Ctx, p: nat) {
    Recorded(c.ev.writer.ledger.entries, p, DIFF, PathOf(c.ev, Change(DiffPatch)), EntryInfo)
  }

  ghost predicate Tested(c: Ctx, p: nat, items: seq<LogItem>) {
    Recorded(c.ev.writer.ledger.entries, p, TEST, PathOf(c.ev, Change(TestOutput)),
             if SomeKeyMissing(items) then EntryFail else EntryPass)
  }

  lemma ReproductionStep(l: Launch, v: nat, w: World, t: seq<Run>, i: nat, n: nat)
    requires RunsChain(l, v, w) && Traced(l, t) && |t| == |Chain(l)| + 1 && i < n < |t| && i < |Chain(l)|
    requires Chain(l)[i] == FailureReproduction || Chain(l)[i] == Reproduction
    ensures Reproduced(t[n].ctx, Chain(l)[i], |t[i].ctx.ev.writer.ledger.entries|)
    ensures |t[i].ctx.ev.writer.ledger.entries| < |t[n].ctx.ev.writer.ledger.entries|
  {
    hide RunsChain, Traced, Ledgers, Recorded, PathOf, Blamed, Failing, Coherent, RealGrowth, Judges, KeepsWork;
    PassingStep(l, v, w, t, i);
    RecordStays(l, v, w, t, i, n, ReproductionFile(Chain(l)[i]), TEST, EntryFail);
  }

  lemma DiffStep(l: Launch, v: nat, w: World, t: seq<Run>, j: nat, n: nat)
    requires RunsChain(l, v, w) && Traced(l, t) && |t| == |Chain(l)| + 1 && j < n < |t| && j < |Chain(l)|
    requires Chain(l)[j] == DiffCapture
    ensures Changed(t[n].ctx, |t[j].ctx.ev.writer.ledger.entries|)
    ensures |t[j].ctx.ev.writer.ledger.entries| < |t[n].ctx.ev.writer.ledger.entries|
  {
    hide RunsChain, Traced, Ledgers, Recorded, PathOf, Blamed, Failing, Coherent, RealGrowth, Judges, KeepsWork;
    PassingStep(l, v, w, t, j);
    RecordStays(l, v, w, t, j, n, Change(DiffPatch), DIFF, EntryInfo);
  }

  /** Outcomes that were all accepted come from logs without a failing exit code. */
  lemma AcceptedLogs(before: seq<TestOutcome>, after: seq<TestOutcome>, items: seq<LogItem>, command: string, path: string)
    requires AllAccepted(after) && before + OutcomesOf(items, command, path) <= after && items != [] && path != ""
    ensures AllZeroOrMissing(items) && (AllZero(items) <==> !SomeKeyMissing(items))
  {
    var r := OutcomesOf(items, command, path);
    forall i | 0 <= i < |r| ensures Accepted(r[i]) {
      assert after[|before| + i] == r[i];
    }
    forall i | 0 <= i < |items| ensures items[i].exitCode == NoKey || items[i].exitCode == Code(0) {
      assert r[i] == OutcomeOf(items[i], command, path);
    }
  }

  lemma EarnedTests(m: Matcher, c: Ctx)
    requires Earned(ImplementationVerifier, m, c)
    ensures AllAccepted(c.work.testOutcomes)
  {
  }

  lemma PathIsNamed(l: Launch, t: seq<Run>, n: nat, name: Name)
    requires Careful(l) && Traced(l, t) && n < |t|
    ensures PathOf(t[n].ctx.ev, name) != ""
  {
    hide Traced, Built, LinkedToRun, Mirrored, OneAttempt, Agreement, Careful;
    var names := EvidenceStaysSound(l, t, n);
  }

  /** The record of a test stage, as the logs have it. */
  ghost predicate Logged(c: Ctx, p: nat, items: seq<LogItem>) {
    Recorded(c.ev.writer.ledger.entries, p, TEST, PathOf(c.ev, Change(TestOutput)),
             if AllZero(items) then EntryPass else EntryFail)
  }

  lemma TestsLogged(l: Launch, v: nat, w: World, t: seq<Run>, k: nat) returns (items: seq<LogItem>, command: string)
    requires RunsChain(l, v, w) && Traced(l, t) && |t| == |Chain(l)| + 1
    requires k < |Chain(l)| && Chain(l)[k] == TestRunner && !t[k].ctx.request.meta.testsNotApplicable
    ensures items != [] && Gather(w, TestRunner, t[k].ctx.request.meta.tests) == Logs(items, command)
    ensures t[k + 1].ctx.work.testOutcomes ==
            t[k].ctx.work.testOutcomes + OutcomesOf(items, command, PathOf(t[k].ctx.ev, Change(TestOutput)))
    ensures Logged(t[|Chain(l)|].ctx, |t[k].ctx.ev.writer.ledger.entries|, items)
  {
    hide RunsChain, Traced, Ledgers, Recorded, PathOf, Blamed, Gather, OutcomesOf, AllZero, Decided, TypeOf, PerformAll, Closed,
         Coherent, EnforcedResult, Failing, RealGrowth, Judges, KeepsWork, Place;
    PassingStep(l, v, w, t, k);
    var h, e, r := StepOf(l, v, w, t, k);
    var g := Gather(w, TestRunner, t[k].ctx.request.meta.tests);
    items, command := g.items, g.command;
    RecordStays(l, v, w, t, k, |Chain(l)|, Change(TestOutput), TEST, if AllZero(items) then EntryPass else EntryFail);
  }

  lemma AllWereAccepted(l: Launch, v: nat, w: World, t: seq<Run>, k: nat)
    requires RunsChain(l, v, w) && Careful(l) && Traced(l, t) && VerdictOf(t[|t| - 1]) == RunPass
    requires v < |Chain(l)| && Chain(l)[v] == ImplementationVerifier && k < |t|
    ensures AllAccepted(t[|t| - 1].ctx.work.testOutcomes)
    ensures t[k].ctx.work.testOutcomes <= t[|t| - 1].ctx.work.testOutcomes
  {
    hide RunsChain, Careful, Traced, VerdictOf, Earned, Agreement, Mutated, Real, AllAccepted;
    TraceIsNonEmpty(l, t);
    PassIsEarned(l, v, w, t);
    EarnedTests(w.matcher, t[|t| - 1].ctx);
    OutcomesAlong(l, v, w, t, k, |t| - 1);
  }

  lemma TestStep(l: Launch, v: nat, w: World, t: seq<Run>, k: nat) returns (items: seq<LogItem>, command: string)
    requires RunsChain(l, v, w) && Careful(l) && Traced(l, t) && |t| == |Chain(l)| + 1 && VerdictOf(t[|t| - 1]) == RunPass
    requires k < |Chain(l)| && Chain(l)[k] == TestRunner && !t[k].ctx.request.meta.testsNotApplicable
    requires v < |Chain(l)| && Chain(l)[v] == ImplementationVerifier
    ensures Gather(w, TestRunner, t[k].ctx.request.meta.tests) == Logs(items, command) && AllZeroOrMissing(items)
    ensures Tested(t[|t| - 1].ctx, |t[k].ctx.ev.writer.ledger.entries|, items)
  {
    hide RunsChain, Careful, Traced, Recorded, PathOf, VerdictOf, Gather, OutcomesOf, AllZero, SomeKeyMissing,
         AllZeroOrMissing, AllAccepted;
    items, command := TestsLogged(l, v, w, t, k);
    AllWereAccepted(l, v, w, t, k + 1);
    PathIsNamed(l, t, k, Change(TestOutput));
    AcceptedLogs(t[k].ctx.work.testOutcomes, t[|t| - 1].ctx.work.testOutcomes, items, command,
                 PathOf(t[k].ctx.ev, Change(TestOutput)));
  }

  /** A passing run of a chain that reproduces at i, captures the diff at j and tests at k holds,
      in this order, a failing reproduction, the diff, and, where tests apply, the later test
      record: which is a PASS exactly when no log item lacked its exit code. */
  lemma FixIsProven(l: Launch, v: nat, w: World, t: seq<Run>, i: nat, j: nat, k: nat)
    returns (trail: Trail, items: seq<LogItem>, command: string)
    requires RunsChain(l, v, w) && Careful(l) && Traced(l, t) && VerdictOf(t[|t| - 1]) == RunPass
    requires v < |Chain(l)| && Chain(l)[v] == ImplementationVerifier
    requires i < j < k < |Chain(l)| && k < |t|
    requires Chain(l)[i] == FailureReproduction || Chain(l)[i] == Reproduction
    requires Chain(l)[j] == DiffCapture && Chain(l)[k] == TestRunner
    ensures var end := t[|t| - 1].ctx;
            && trail.reproduction < trail.diff < trail.tests
            && Reproduced(end, Chain(l)[i], trail.reproduction)
            && Changed(end, trail.diff)
            && (!t[k].ctx.request.meta.testsNotApplicable ==>
                  && Gather(w, TestRunner, t[k].ctx.request.meta.tests) == Logs(items, command)
                  && AllZeroOrMissing(items)
                  && Tested(end, trail.tests, items))
  {
    hide *;
    TraceIsNonEmpty(l, t);
    PassIsWhole(l, v, w, t);
    var n := |t| - 1;
    trail := Trail(|t[i].ctx.ev.writer.ledger.entries|, |t[j].ctx.ev.writer.ledger.entries|, |t[k].ctx.ev.writer.ledger.entries|);
    ReproductionStep(l, v, w, t, i, j);
    ReproductionStep(l, v, w, t, i, n);
    DiffStep(l, v, w, t, j, k);
    DiffStep(l, v, w, t, j, n);
    items, command := [], "";
    if !t[k].ctx.request.meta.testsNotApplicable {
      items, command := TestStep(l, v, w, t, k);
    }
  }

  ghost predicate Reproducing(chain: seq<HandlerName>) {
    && |chain| > 9
    && (chain[4] == FailureReproduction || chain[4] == Reproduction)
    && chain[8] == DiffCapture && chain[9] == TestRunner
  }

  lemma BugFixReproduces()
    ensures Reproducing(BugFixHandlers())
  {
  }

  lemma RepairReproduces()
    ensures Reproducing(CiFailureRepairHandlers())
  {
  }

  /** The bug-fix and repair chains are such chains. */
  lemma ReproducingChains(id: ChainId)
    requires id == BugFixChain || id == CiFailureRepairChain
    ensures Reproducing(ChainOf(id))
    ensures VerifierAt(id) < |ChainOf(id)| && ChainOf(id)[VerifierAt(id)] == ImplementationVerifier
  {
    hide Reproducing, VerifierAt, BugFixHandlers, CiFailureRepairHandlers, OnlyAdvisoryAfter;
    BugFixReproduces();
    RepairReproduces();
    CertifyingChains(id);
  }

  // ----------------------------------------------------- runs of the registered chains

  lemma AppliedKeeps(c: Ctx, e: Effect, repo: Option<Snapshot>)
    ensures Applied(c, e, repo).verifierDecision == c.verifierDecision && Applied(c, e, repo).repoSnapshot == c.repoSnapshot
  {
    hide Closed, PerformAll, RequestAfter;
  }

  lemma RegisteredIsHonest(registry: HandlerRegistry, effects: Effects, trees: Trees)
    requires Registered(registry, effects, trees) && registry(WorkspacePolicy).None?
    ensures Honest(registry) && KeepsBaseline(registry)
  {
    hide Applied, TypeOf;
    forall n: HandlerName, c: Ctx | registry(n).Some?
      ensures registry(n).value.handle(c).0.verifierDecision == c.verifierDecision
      ensures registry(n).value.handle(c).0.repoSnapshot == c.repoSnapshot
    {
      AppliedKeeps(c, effects(n, c), trees(n));
    }
  }

  lemma PseudoHandlerIsAbsent(w: World)
    ensures DefaultRegistry(w)(WorkspacePolicy).None?
  {
    hide HandlerOf;
  }

  /** The registered handlers leave the decision and the initial snapshot to the executor, so what
      holds for such handlers in general holds of them. */
  lemma DefaultIsHonest(w: World)
    ensures Honest(DefaultRegistry(w)) && KeepsBaseline(DefaultRegistry(w))
    ensures Deferring(DefaultRegistry(w)) && Harmless(DefaultRegistry(w))
  {
    hide *;
    DefaultIsRegistered(w);
    PseudoHandlerIsAbsent(w);
    RegisteredIsHonest(DefaultRegistry(w), EffectsIn(w), w.repoAfter);
    HonestDefers(DefaultRegistry(w));
  }

  lemma WorldOfLaunch(id: ChainId, w: World, text: (Decision, HandlerResult) -> string, q: Request, store: Store,
                      naming: Naming, repo: Option<Snapshot>, manifest: Option<ManifestView>)
    ensures var l := NewLaunch(id, w, text, q, store, naming, repo, manifest);
            l.effects == EffectsIn(w) && l.trees == w.repoAfter && Chain(l) == ChainOf(id)
            && l.start.repo == repo && l.start.request == q && l.start.work.manifest == manifest
  {
    hide EffectsIn, DefaultRegistry, CheckpointSaver, ChainOf, StartEvidence;
  }

  lemma WorldIsLawful(l: Launch, w: World)
    requires l.effects == EffectsIn(w)
    ensures LawfulIn(l, w)
  {
    hide EffectOf, Lawful;
    forall h: HandlerName, c: Ctx ensures Lawful(h, w, c, l.effects(h, c)) {
      EffectsAreLawful(h, w, c);
    }
  }

  /** Whatever the chain, the request, the store and the world: the executor's run of a registered
      chain is a traced run of a well-shaped chain, so everything said about those holds of it. */
  lemma RegisteredRuns(id: ChainId, w: World, text: (Decision, HandlerResult) -> string, q: Request, store: Store,
                       naming: Naming, repo: Option<Snapshot>, manifest: Option<ManifestView>)
    returns (l: Launch, t: seq<Run>)
    requires WellFormed(store.root)
    ensures l == NewLaunch(id, w, text, q, store, naming, repo, manifest)
    ensures RunsChain(l, VerifierAt(id), w) && Careful(l) && Traced(l, t) && t[|t| - 1] == End(l)
    ensures Chain(l) == ChainOf(id) && l.effects == EffectsIn(w) && l.trees == w.repoAfter
    ensures l.start.repo == repo && l.start.request == q && l.start.work.manifest == manifest
  {
    hide NewLaunch, EffectsIn, LawfulIn, Launchable, Careful, Unworked, WellShaped, ChainOf, VerifierAt, WellFormed, Stepped;
    l := NewLaunch(id, w, text, q, store, naming, repo, manifest);
    RegisteredChainsLaunch(id, w, text, q, store, naming, repo, manifest);
    WorldOfLaunch(id, w, text, q, store, naming, repo, manifest);
    WorldIsLawful(l, w);
    IsCareful(l);
    RegisteredChainsAreShaped(id);
    RunsAreTraced(l);
    t := TraceOf(l);
  }

  /** What the parts of a finished run say about each other, and about the repository, the ledger
      and the verifier at position v of a chain of this length. */
  ghost predicate Consistent(end: Run, v: nat, chain: seq<HandlerName>, m: Matcher)
    requires v < |chain|
  {
    && (VerdictOf(end) == RunPass <==> |end.results| == |chain| && !Mutated(end.ctx))
    && (VerdictOf(end) == RunPass ==> Earned(chain[v], m, end.ctx))
    && (end.prStatus == Gated || end.prStatus == NotRequired)
    && (end.prStatus == Gated ==> end.ctx.verifierDecision == Pass)
    && (VerdictOf(end) == RunPass ==> (end.prStatus == Gated <==> PRGate in chain))
    && end.ctx.ev.writer.ledger.finalStatus == (if |end.results| == |chain| then Pass else Pending)
    && Agreement(end.ctx.ev)
  }

  lemma RunsAreConsistent(l: Launch, v: nat, w: World, t: seq<Run>)
    requires RunsChain(l, v, w) && Careful(l) && Traced(l, t)
    ensures v < |Chain(l)| && Consistent(t[|t| - 1], v, Chain(l), w.matcher)
  {
    hide RunsChain, Traced, VerdictOf, Mutated, Agreement, Earned, Careful, WellShaped;
    TraceIsNonEmpty(l, t);
    RunStarts(l, v, w);
    ShapeEnds(Chain(l), v);
    ResultCount(l, t);
    PassIsWhole(l, v, w, t);
    PrCoherence(l, v, w, t);
    LedgerCloses(l, v, w, t);
    SoundEnd(l, t);
    if VerdictOf(t[|t| - 1]) == RunPass { PassIsEarned(l, v, w, t); }
  }

  /** The result of a registered run: it passes exactly when every handler of its chain ran and the
      tree is as it was; it then has what its verifier vouches for; its pull request is gated only
      after a PASS, and always with one where the chain has the gate; its ledger is finalized as
      PASS or not at all; and it never asks for a merge or a deployment. */
  lemma RegisteredResult(id: ChainId, w: World, text: (Decision, HandlerResult) -> string, q: Request, store: Store,
                         naming: Naming, repo: Option<Snapshot>, manifest: Option<ManifestView>)
    requires WellFormed(store.root)
    ensures var l := NewLaunch(id, w, text, q, store, naming, repo, manifest);
            var r := ResultOf(End(l), Some(id));
            && VerifierAt(id) < |ChainOf(id)|
            && Consistent(End(l), VerifierAt(id), ChainOf(id), w.matcher)
            && r.finalStatus == VerdictOf(End(l)) && r.handlerResults == End(l).results
            && r.prStatus == End(l).prStatus && r.verifierDecision == End(l).ctx.verifierDecision
            && !r.autoMerge && !r.autoDeploy
  {
    hide NewLaunch, RunsChain, Careful, EffectsIn, Traced, ChainOf, VerifierAt, WellFormed, VerdictOf, Consistent, End;
    var l, t := RegisteredRuns(id, w, text, q, store, naming, repo, manifest);
    RunsAreConsistent(l, VerifierAt(id), w, t);
  }

  lemma SoundEnd(l: Launch, t: seq<Run>)
    requires Careful(l) && Traced(l, t)
    ensures |t| > 0 && Agreement(t[|t| - 1].ctx.ev)
  {
    hide Careful, Traced, Grown, Agreement;
    TraceIsNonEmpty(l, t);
    var names := EvidenceStaysSound(l, t, |t| - 1);
  }

  lemma ResultCount(l: Launch, t: seq<Run>)
    requires Traced(l, t)
    ensures |t[|t| - 1].results| == |t| - 1
  {
    if |t| > 1 {
      TraceStep(l, t, |t| - 2);
    }
  }
}
