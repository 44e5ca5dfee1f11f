/** What the parts of a run's outcome say about each other: the pull request status, the memory,
    the test outcomes, and the change that a PASS certifies. */
module RunCoherence {
  import opened Core
  import opened Gates
  import opened Names
  import opened Evidence
  import opened Context
  import opened Executor
  import opened Registry
  import opened Handlers
  import opened ResultLaws
  import opened ChainRuns
  import opened Thesis

  // ------------------------------------------------------------- the pull request

  /** The pull request gate ran at position i and was not blamed for a changed tree. */
  ghost predicate GateOpened(l: Launch, t: seq<Run>, i: nat) {
    i < |Chain(l)| && i + 1 < |t| && Chain(l)[i] == PRGate && !Blamed(PRGate, t[i + 1].ctx)
  }

  lemma PrStep(l: Launch, v: nat, w: World, t: seq<Run>, i: nat)
    requires RunsChain(l, v, w) && Traced(l, t) && i + 1 < |t|
    ensures t[i + 1].prStatus == if GateOpened(l, t, i) then Gated else t[i].prStatus
    ensures GateOpened(l, t, i) ==> v < i
  {
    hide RunsChain, Traced, TypeOf, Decided, Blamed, PerformAll, Closed, IsVerifier, Late, RealGrowth, Judges, Records, KeepsWork;
    var h, e, r := StepOf(l, v, w, t, i);
    if h == PRGate { ReadersSeePass(l, v, w, t, i); }
  }

  ghost predicate OpenedBefore(l: Launch, t: seq<Run>, n: nat) {
    exists i: nat :: i < n && GateOpened(l, t, i)
  }

  /** The status of a run's pull request is GATED when its gate has run, and NOT_REQUIRED until
      then; it is never NOT_READY. */
  lemma {:induction false} PrStatusAlong(l: Launch, v: nat, w: World, t: seq<Run>, n: nat)
    requires RunsChain(l, v, w) && Traced(l, t) && n < |t|
    ensures t[n].prStatus == if OpenedBefore(l, t, n) then Gated else NotRequired
  {
    hide RunsChain, Traced, GateOpened;
    if n == 0 {
      RunStarts(l, v, w);
      TraceStarts(l, t);
    } else {
      PrStatusAlong(l, v, w, t, n - 1);
      PrStep(l, v, w, t, n - 1);
      if GateOpened(l, t, n - 1) {
        assert OpenedBefore(l, t, n);
      } else if OpenedBefore(l, t, n) {
        var i: nat :| i < n && GateOpened(l, t, i);
        assert i < n - 1;
      }
    }
  }

  lemma RunStarts(l: Launch, v: nat, w: World)
    requires RunsChain(l, v, w)
    ensures Unworked(l.start) && WellShaped(Chain(l), v)
  {
    hide Unworked, LawfulIn, WellShaped;
  }

  /** A handler of a passing run was not blamed, its effect is lawful and its result does not fail. */
  lemma PassingStep(l: Launch, v: nat, w: World, t: seq<Run>, i: nat)
    requires RunsChain(l, v, w) && Traced(l, t) && i < |Chain(l)| && Chain(l)[i] != StopOrLoop && |t| == |Chain(l)| + 1
    ensures i + 1 < |Chain(l)| && !Blamed(Chain(l)[i], t[i + 1].ctx)
    ensures var e := EffectAt(l, t[i], Chain(l)[i]); Lawful(Chain(l)[i], w, t[i].ctx, e) && !Failing(e.result)
  {
    hide RunsChain, Traced, TypeOf, Decided, Blamed, PerformAll, Closed, IsVerifier, Late, Lawful;
    var h, e, r := StepOf(l, v, w, t, i);
    TraceStep(l, t, i + 1);
  }

  /** GATED means the verifier passed; and a run that passes has its pull request gated exactly
      when its chain has the gate. */
  lemma PrCoherence(l: Launch, v: nat, w: World, t: seq<Run>)
    requires RunsChain(l, v, w) && Traced(l, t)
    ensures var end := t[|t| - 1];
            && (end.prStatus == Gated || end.prStatus == NotRequired)
            && (end.prStatus == Gated ==> end.ctx.verifierDecision == Pass)
            && (VerdictOf(end) == RunPass ==> (end.prStatus == Gated <==> PRGate in Chain(l)))
  {
    hide RunsChain, Traced, Blamed, Mutated, VerdictOf, SameWork, Lawful;
    TraceIsNonEmpty(l, t);
    var n := |t| - 1;
    PrStatusAlong(l, v, w, t, n);
    if OpenedBefore(l, t, n) {
      var i: nat :| i < n && GateOpened(l, t, i);
      PrStep(l, v, w, t, i);
      ReadersSeePass(l, v, w, t, i);
      AllAlong(l, v, w, t, i);
      AllAlong(l, v, w, t, n);
    }
    PassIsWhole(l, v, w, t);
    if VerdictOf(t[n]) == RunPass && PRGate in Chain(l) {
      var i: nat :| i < |Chain(l)| && Chain(l)[i] == PRGate;
      PassingStep(l, v, w, t, i);
      assert GateOpened(l, t, i);
    }
  }

  /** A memory update that is reached records; it never writes its skip reason. */
  lemma MemoryRecords(l: Launch, v: nat, w: World, t: seq<Run>, i: nat)
    requires RunsChain(l, v, w) && Traced(l, t) && i + 1 < |t| && i < |Chain(l)| && Chain(l)[i] == MemoryUpdate
    ensures var ops := EffectAt(l, t[i], MemoryUpdate).ops;
            |ops| == 1 && ops[0].name == Verdict(MemoryRecord)
  {
    hide RunsChain, Traced, After, EnforcedResult, IsVerifier, Late, RealGrowth, Records, KeepsWork, Judges, PresentsPr, Finalizes, Coherent;
    var h, e, r := StepOf(l, v, w, t, i);
    ReadersSeePass(l, v, w, t, i);
  }

  // ----------------------------------------------------------------- test outcomes

  lemma OutcomesStep(l: Launch, v: nat, w: World, t: seq<Run>, i: nat)
    requires RunsChain(l, v, w) && Traced(l, t) && i + 1 < |t|
    ensures RealGrowth(t[i].ctx.work.testOutcomes, t[i + 1].ctx.work.testOutcomes)
  {
    hide RunsChain, Traced, TypeOf, Decided, PerformAll, Closed, EnforcedResult, RealGrowth, Coherent, Place, Judges, Records, KeepsWork;
    var h, e, r := StepOf(l, v, w, t, i);
  }

  lemma GrowthTransitive(a: seq<TestOutcome>, b: seq<TestOutcome>, c: seq<TestOutcome>)
    requires RealGrowth(a, b) && RealGrowth(b, c)
    ensures RealGrowth(a, c)
  {
    hide Real;
  }

  lemma GrowthReflexive(a: seq<TestOutcome>)
    ensures RealGrowth(a, a)
  {
  }

  lemma {:induction false} OutcomesAlong(l: Launch, v: nat, w: World, t: seq<Run>, m: nat, n: nat)
    requires RunsChain(l, v, w) && Traced(l, t) && m <= n < |t|
    ensures RealGrowth(t[m].ctx.work.testOutcomes, t[n].ctx.work.testOutcomes)
  {
    hide *;
    if m == n {
      GrowthReflexive(t[n].ctx.work.testOutcomes);
    } else {
      OutcomesAlong(l, v, w, t, m, n - 1);
      OutcomesStep(l, v, w, t, n - 1);
      GrowthTransitive(t[m].ctx.work.testOutcomes, t[n - 1].ctx.work.testOutcomes, t[n].ctx.work.testOutcomes);
    }
  }

  lemma OutcomesAreReal(l: Launch, v: nat, w: World, t: seq<Run>, n: nat)
    requires RunsChain(l, v, w) && Traced(l, t) && n < |t|
    ensures Real(t[n].ctx.work.testOutcomes)
  {
    hide RunsChain, Traced;
    RunStarts(l, v, w);
    TraceStarts(l, t);
    OutcomesAlong(l, v, w, t, 0, n);
  }

  /** Commands that ran, and that all exited with code 0. */
  ghost predicate AllSucceeded(outcomes: seq<TestOutcome>) {
    forall i | 0 <= i < |outcomes| :: outcomes[i].ran && outcomes[i].exitCode == Some(0)
  }

  lemma RealAndAccepted(outcomes: seq<TestOutcome>)
    requires Real(outcomes) && AllAccepted(outcomes)
    ensures AllSucceeded(outcomes)
  {
  }

  /** The thesis for changes, spelled out. A run whose verifier is the implementation verifier
      passes only with a linked ledger of distinct, hashed, unquarantined entries with a DIFF among
      them; unless tests are declared not applicable with a TEST among them too, and a non-empty
      set of outcomes that all ran and exited with 0; with every changed file in scope, the agent
      summary quarantined, and a verifier other than the coding agent. */
  lemma ChangeIsEarned(l: Launch, v: nat, w: World, t: seq<Run>)
    requires RunsChain(l, v, w) && Careful(l) && Traced(l, t) && v < |Chain(l)| && Chain(l)[v] == ImplementationVerifier
    requires VerdictOf(t[|t| - 1]) == RunPass
    ensures var c := t[|t| - 1].ctx;
            var ledger := c.ev.writer.ledger;
            && Linked(ledger, c.ev.runId, c.ev.taskId) && AllSound(ledger.entries) && DistinctIds(ledger.entries)
            && Agreement(c.ev)
            && Present(ledger.entries, DIFF)
            && (!c.request.meta.testsNotApplicable ==>
                  && Present(ledger.entries, TEST)
                  && c.work.testOutcomes != [] && AllSucceeded(c.work.testOutcomes))
            && AllInScope(w.matcher, RulesOf(c.request), c.work.changedFiles)
            && c.work.summaryQuarantined
            && c.work.codingRunId != c.work.verifierRunId && c.work.verifierRunId != ""
            && !Mutated(c)
  {
    hide RunsChain, Careful, Traced, VerdictOf, Agreement, Mutated;
    TraceIsNonEmpty(l, t);
    PassIsEarned(l, v, w, t);
    OutcomesAreReal(l, v, w, t, |t| - 1);
    EarnedChange(w.matcher, t[|t| - 1].ctx);
  }

  lemma EarnedChange(m: Matcher, c: Ctx)
    requires Earned(ImplementationVerifier, m, c) && Real(c.work.testOutcomes)
    ensures var ledger := c.ev.writer.ledger;
            && Linked(ledger, c.ev.runId, c.ev.taskId) && AllSound(ledger.entries) && DistinctIds(ledger.entries)
            && Present(ledger.entries, DIFF)
            && (!c.request.meta.testsNotApplicable ==>
                  && Present(ledger.entries, TEST)
                  && c.work.testOutcomes != [] && AllSucceeded(c.work.testOutcomes))
            && AllInScope(m, RulesOf(c.request), c.work.changedFiles)
            && c.work.summaryQuarantined
            && c.work.codingRunId != c.work.verifierRunId && c.work.verifierRunId != ""
  {
    hide AllSound, DistinctIds, AllInScope, RulesOf, Present, Real, AllSucceeded, AllAccepted;
    RealAndAccepted(c.work.testOutcomes);
    var required := RequiredByTests(c.request);
    assert Present(c.ev.writer.ledger.entries, required[0]);
    if !c.request.meta.testsNotApplicable {
      assert Present(c.ev.writer.ledger.entries, required[1]);
    }
  }
}
