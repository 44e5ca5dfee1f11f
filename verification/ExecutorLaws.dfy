/** What the executor guarantees for arbitrary handlers. */
module ExecutorLaws {
  import opened Core
  import opened Context
  import opened Executor
  import Registry

  // ------------------------------------------------------------- shape of a run

  /** What position i contributes, given the run before it. */
  function ResultAt(s: Setup, before: Run, name: HandlerName): HandlerResult {
    match s.registry(name)
    case None => MissingResult(name)
    case Some(h) => Outcome(h, name, before.ctx).1
  }

  function StatusOf(r: HandlerResult, otherwise: FinalStatus): FinalStatus {
    if r.decision == DecideFail then RunFail
    else if r.decision == DecideBlocked then RunBlocked
    else otherwise
  }

  /** All that the shape of a run depends on: a step adds one result, and the run halts when that
      result cuts and is stopped when it fails. */
  ghost predicate Shaped(body: Body, length: nat) {
    forall run: Run, i: nat | i < length :: AddsOne(run, body(run, i))
  }

  ghost predicate AddsOne(before: Run, after: Run) {
    && |after.results| == |before.results| + 1
    && after.results[..|before.results|] == before.results
    && after.halted == Cutting(after.results[|before.results|])
    && after.stopped == Failing(after.results[|before.results|])
    && after.status == StatusOf(after.results[|before.results|], before.status)
  }

  lemma SettleAddsOne(before: Run, save: Saver, t: HandlerType, i: nat, name: HandlerName, c: Ctx, r: HandlerResult)
    ensures AddsOne(before, Settle(before, save, t, i, name, c, r))
    ensures Settle(before, save, t, i, name, c, r).results[|before.results|] == r
  {
  }

  lemma StepAddsOne(before: Run, s: Setup, i: nat, name: HandlerName)
    ensures AddsOne(before, Step(before, s, i, name))
    ensures Step(before, s, i, name).results[|before.results|] == ResultAt(s, before, name)
  {
    if s.registry(name).Some? {
      var h := s.registry(name).value;
      var (c, r) := Outcome(h, name, before.ctx);
      SettleAddsOne(before, s.save, h.handlerType, i, name, c, r);
    }
  }

  lemma BodyIsShaped(s: Setup)
    ensures Shaped(BodyOf(s), |s.chain|)
  {
    forall run: Run, i: nat | i < |s.chain| ensures AddsOne(run, BodyOf(s)(run, i)) {
      StepAddsOne(run, s, i, s.chain[i]);
    }
  }

  /** The loop as the executor enters it. */
  predicate Entered(start: Run) {
    start.results == [] && !start.halted && !start.stopped
  }

  /** No position before n halted the loop. */
  predicate Runs(body: Body, start: Run, n: nat) {
    !Loop(body, start, n).halted
  }

  lemma {:induction false} RunsEarlier(body: Body, start: Run, m: nat, n: nat)
    requires m <= n && Runs(body, start, n)
    ensures Runs(body, start, m)
  {
    if Loop(body, start, m).halted { HaltedStays(body, start, m, n); }
  }

  lemma {:induction false} ResultsCount(body: Body, start: Run, length: nat, n: nat)
    requires Shaped(body, length) && Entered(start) && n <= length
    ensures Runs(body, start, n) ==> |Loop(body, start, n).results| == n
    ensures |Loop(body, start, n).results| <= n
    ensures n > 0 && Runs(body, start, n - 1) ==> |Loop(body, start, n).results| == n
  {
    if n > 0 {
      ResultsCount(body, start, length, n - 1);
      if Runs(body, start, n - 1) {
        assert AddsOne(Loop(body, start, n - 1), body(Loop(body, start, n - 1), n - 1));
      }
    }
  }

  /** A loop is the steps that produced its results; only the last of them can have halted it. */
  lemma {:induction false} LoopStopsAt(body: Body, start: Run, length: nat, n: nat)
    requires Shaped(body, length) && Entered(start) && n <= length
    ensures var k := |Loop(body, start, n).results|;
            && k <= n
            && Loop(body, start, k) == Loop(body, start, n)
            && (k > 0 ==> Runs(body, start, k - 1))
            && (k < n ==> k > 0 && Loop(body, start, n).halted)
  {
    hide Shaped, AddsOne;
    ResultsCount(body, start, length, n);
    if n > 0 {
      if Runs(body, start, n - 1) {
        assert |Loop(body, start, n).results| == n;
      } else {
        LoopStopsAt(body, start, length, n - 1);
      }
    }
  }

  /** How many positions of the chain a run processed. */
  function Length(s: Setup, c: Ctx): nat {
    |Whole(s, c).results|
  }

  /** Position i was processed. */
  predicate Reached(s: Setup, c: Ctx, i: nat) {
    i < Length(s, c) && i < |s.chain|
  }

  lemma Unfolding(s: Setup, c: Ctx)
    ensures Length(s, c) <= |s.chain| && Whole(s, c) == Steps(s, c, Length(s, c))
    ensures Length(s, c) < |s.chain| ==> Length(s, c) > 0 && Whole(s, c).halted
  {
    BodyIsShaped(s);
    LoopStopsAt(BodyOf(s), Start(c), |s.chain|, |s.chain|);
  }

  /** The step taken at a processed position. */
  lemma StepAt(s: Setup, c: Ctx, i: nat)
    requires i < Length(s, c)
    ensures Reached(s, c, i) && !Steps(s, c, i).halted
    ensures Steps(s, c, i + 1) == Step(Steps(s, c, i), s, i, s.chain[i])
    ensures |Steps(s, c, i).results| == i
  {
    hide Step, Shaped, AddsOne;
    BodyIsShaped(s);
    LoopStopsAt(BodyOf(s), Start(c), |s.chain|, |s.chain|);
    RunsEarlier(BodyOf(s), Start(c), i, Length(s, c) - 1);
    ResultsCount(BodyOf(s), Start(c), |s.chain|, i);
    LoopUnfolds(s, c, i);
  }

  lemma ResultOfStep(s: Setup, c: Ctx, i: nat)
    requires i < Length(s, c)
    ensures Reached(s, c, i) && |Steps(s, c, i).results| == i
    ensures AddsOne(Steps(s, c, i), Steps(s, c, i + 1))
    ensures Steps(s, c, i + 1).results[i] == ResultAt(s, Steps(s, c, i), s.chain[i])
  {
    StepAt(s, c, i);
    StepAddsOne(Steps(s, c, i), s, i, s.chain[i]);
  }

  ghost predicate IsOutcome(s: Setup, c: Ctx, i: nat, r: HandlerResult) {
    i < |s.chain| && r == ResultAt(s, Steps(s, c, i), s.chain[i])
  }

  lemma {:induction false} ResultsSoFar(s: Setup, c: Ctx, n: nat)
    requires n <= Length(s, c)
    ensures |Steps(s, c, n).results| == n
    ensures forall i: nat | i < n :: IsOutcome(s, c, i, Steps(s, c, n).results[i])
    ensures forall i: nat | i + 1 < n :: !Cutting(Steps(s, c, n).results[i])
  {
    if n > 0 {
      ResultsSoFar(s, c, n - 1);
      ResultOfStep(s, c, n - 1);
      var before, after := Steps(s, c, n - 1), Steps(s, c, n);
      forall i: nat | i < n ensures IsOutcome(s, c, i, after.results[i]) {
        if i < n - 1 { assert after.results[i] == before.results[i]; }
      }
      if n > 1 { NotCutYet(s, c, n - 1); }
      forall i: nat | i + 1 < n ensures !Cutting(after.results[i]) {
        assert after.results[i] == before.results[i];
      }
    }
  }

  lemma NotCutYet(s: Setup, c: Ctx, n: nat)
    requires 0 < n < Length(s, c)
    ensures |Steps(s, c, n).results| == n && !Cutting(Steps(s, c, n).results[n - 1])
  {
    StepAt(s, c, n);
    ResultOfStep(s, c, n - 1);
  }

  /** The results of a run are the outcomes of a prefix of the registered sequence, in order; the
      prefix ends at the first missing handler or failing, blocking or stopping decision. */
  lemma ResultsArePrefixOutcomes(s: Setup, c: Ctx)
    ensures var k, results := Length(s, c), Whole(s, c).results;
            && k <= |s.chain|
            && (forall i: nat | i < k :: IsOutcome(s, c, i, results[i]))
            && (forall i: nat | i + 1 < k :: !Cutting(results[i]))
            && (k < |s.chain| ==> k > 0 && Cutting(results[k - 1]))
  {
    var k := Length(s, c);
    Unfolding(s, c);
    ResultsSoFar(s, c, k);
    if k > 0 { ResultOfStep(s, c, k - 1); }
  }

  // ------------------------------------------------------------------ the verdict

  /** A handler that leaves the verifier decision to the executor. */
  ghost predicate LeavesDecision(h: Handler) {
    forall c: Ctx :: h.handle(c).0.verifierDecision == c.verifierDecision
  }

  ghost predicate Honest(registry: HandlerRegistry) {
    forall n: HandlerName :: registry(n).Some? ==> LeavesDecision(registry(n).value)
  }

  predicate Decides(s: Setup, name: HandlerName, r: HandlerResult) {
    && s.registry(name).Some?
    && CanDecidePass(s.registry(name).value.handlerType)
    && DecisionOf(r.status).Some?
  }

  /** The decision of the last verifier that decided, read off the results alone; where none did, the
      one the run started with. */
  function LastDecision(s: Setup, results: seq<HandlerResult>, start: Decision): Decision
    requires |results| <= |s.chain|
  {
    if results == [] then start
    else
      var i := |results| - 1;
      if Decides(s, s.chain[i], results[i]) then DecisionOf(results[i].status).value
      else LastDecision(s, results[..i], start)
  }

  /** What a decision comes to at the end of a run. */
  function ReadsAs(d: Decision): FinalStatus {
    match d
    case Pass => RunPass
    case Fail => RunFail
    case Blocked => RunBlocked
    case Pending => RunBlocked
  }

  /** The verdict, read off the results alone. */
  function DeclaredVerdict(s: Setup, results: seq<HandlerResult>, start: Decision): FinalStatus
    requires |results| <= |s.chain|
  {
    if results != [] && Failing(results[|results| - 1]) then StatusOf(results[|results| - 1], RunBlocked)
    else ReadsAs(LastDecision(s, results, start))
  }

  /** What the handler itself wrote into the decision makes no difference after its step. */
  ghost predicate DefersAt(h: Handler, name: HandlerName, c: Ctx) {
    var (d, r) := Outcome(h, name, c);
    Decided(h.handlerType, r, d.verifierDecision) == Decided(h.handlerType, r, c.verifierDecision)
  }

  /** It makes none to a verdict: the result ends the run anyway, or both decisions read the same. */
  ghost predicate HarmlessAt(h: Handler, name: HandlerName, c: Ctx) {
    var (d, r) := Outcome(h, name, c);
    || Failing(r)
    || ReadsAs(Decided(h.handlerType, r, d.verifierDecision)) == ReadsAs(Decided(h.handlerType, r, c.verifierDecision))
  }

  ghost predicate Deferring(registry: HandlerRegistry) {
    forall n: HandlerName, c: Ctx :: registry(n).Some? ==> DefersAt(registry(n).value, n, c)
  }

  ghost predicate Harmless(registry: HandlerRegistry) {
    forall n: HandlerName, c: Ctx :: registry(n).Some? ==> HarmlessAt(registry(n).value, n, c)
  }

  lemma HonestDefers(registry: HandlerRegistry)
    requires Honest(registry)
    ensures Deferring(registry) && Harmless(registry)
  {
    hide Decided, ReadsAs, Failing, Enforce;
    forall n: HandlerName, c: Ctx | registry(n).Some?
      ensures DefersAt(registry(n).value, n, c) && HarmlessAt(registry(n).value, n, c)
    {
      assert LeavesDecision(registry(n).value);
    }
  }

  lemma StepDecides(s: Setup, before: Run, i: nat, name: HandlerName)
    requires SavesOnly(s.save) && Deferring(s.registry)
    ensures var r := ResultAt(s, before, name);
            Step(before, s, i, name).ctx.verifierDecision ==
            if Decides(s, name, r) then DecisionOf(r.status).value else before.ctx.verifierDecision
  {
    hide Outcome;
    if s.registry(name).Some? { assert DefersAt(s.registry(name).value, name, before.ctx); }
  }

  lemma {:induction false} DecisionFollowsResults(s: Setup, c: Ctx, n: nat)
    requires Deferring(s.registry) && SavesOnly(s.save)
    requires n <= Length(s, c) <= |s.chain| && |Steps(s, c, n).results| <= |s.chain|
    ensures Steps(s, c, n).ctx.verifierDecision == LastDecision(s, Steps(s, c, n).results, c.verifierDecision)
  {
    hide Step, Deferring, SavesOnly, Decides;
    if n > 0 {
      ResultOfStep(s, c, n - 1);
      DecisionFollowsResults(s, c, n - 1);
      StepAt(s, c, n - 1);
      StepDecides(s, Steps(s, c, n - 1), n - 1, s.chain[n - 1]);
      assert Steps(s, c, n).results[..n - 1] == Steps(s, c, n - 1).results;
    }
  }

  lemma StepReads(s: Setup, before: Run, i: nat, name: HandlerName, declared: Decision)
    requires SavesOnly(s.save) && Harmless(s.registry)
    requires ReadsAs(before.ctx.verifierDecision) == ReadsAs(declared)
    ensures var r := ResultAt(s, before, name);
            Failing(r) || ReadsAs(Step(before, s, i, name).ctx.verifierDecision)
                          == ReadsAs(if Decides(s, name, r) then DecisionOf(r.status).value else declared)
  {
    hide Outcome, ReadsAs;
    if s.registry(name).Some? { assert HarmlessAt(s.registry(name).value, name, before.ctx); }
  }

  /** As long as no result has failed, the decision reads as the one the results declare. */
  lemma {:induction false} DecisionReadsAsResults(s: Setup, c: Ctx, n: nat)
    requires Harmless(s.registry) && SavesOnly(s.save)
    requires n <= Length(s, c) <= |s.chain| && |Steps(s, c, n).results| == n
    requires n > 0 ==> !Failing(Steps(s, c, n).results[n - 1])
    ensures ReadsAs(Steps(s, c, n).ctx.verifierDecision) == ReadsAs(LastDecision(s, Steps(s, c, n).results, c.verifierDecision))
  {
    hide Step, Harmless, SavesOnly, Decides, ReadsAs, Failing;
    if n > 0 {
      ResultOfStep(s, c, n - 1);
      if n > 1 { NotFailedYet(s, c, n - 1); }
      DecisionReadsAsResults(s, c, n - 1);
      StepAt(s, c, n - 1);
      StepReads(s, Steps(s, c, n - 1), n - 1, s.chain[n - 1],
                LastDecision(s, Steps(s, c, n - 1).results, c.verifierDecision));
      assert Steps(s, c, n).results[..n - 1] == Steps(s, c, n - 1).results;
    }
  }

  lemma NotFailedYet(s: Setup, c: Ctx, n: nat)
    requires 0 < n < Length(s, c)
    ensures |Steps(s, c, n).results| == n && !Failing(Steps(s, c, n).results[n - 1])
  {
    NotCutYet(s, c, n);
  }

  lemma StoppedMeansFailing(s: Setup, c: Ctx)
    ensures var run := Whole(s, c);
            && (run.stopped <==> run.results != [] && Failing(run.results[|run.results| - 1]))
            && (run.stopped ==> run.status == StatusOf(run.results[|run.results| - 1], RunBlocked))
  {
    var k := Length(s, c);
    Unfolding(s, c);
    if k > 0 { ResultOfStep(s, c, k - 1); }
  }

  ghost predicate DecisionDeclared(s: Setup, c: Ctx) {
    Length(s, c) <= |s.chain| && Whole(s, c).ctx.verifierDecision == LastDecision(s, Whole(s, c).results, c.verifierDecision)
  }

  ghost predicate VerdictDeclared(s: Setup, c: Ctx) {
    Length(s, c) <= |s.chain| && VerdictOf(Whole(s, c)) == DeclaredVerdict(s, Whole(s, c).results, c.verifierDecision)
  }

  lemma WholeDecision(s: Setup, c: Ctx)
    requires Deferring(s.registry) && SavesOnly(s.save)
    ensures DecisionDeclared(s, c)
  {
    hide Deferring, SavesOnly, LastDecision;
    Unfolding(s, c);
    DecisionFollowsResults(s, c, Length(s, c));
  }

  lemma WholeVerdict(s: Setup, c: Ctx)
    requires Harmless(s.registry) && SavesOnly(s.save)
    ensures VerdictDeclared(s, c)
  {
    hide Harmless, SavesOnly, LastDecision, Failing;
    Unfolding(s, c);
    StoppedMeansFailing(s, c);
    if !Whole(s, c).stopped { DecisionReadsAsResults(s, c, Length(s, c)); }
  }

  lemma StepOfOne(registry: HandlerRegistry, save: Saver, name: HandlerName, c: Ctx)
    ensures Whole(Setup(registry, save, [name]), c) == Step(Start(c), Setup(registry, save, [name]), 0, name)
  {
    hide Step;
    var s := Setup(registry, save, [name]);
    assert Steps(s, c, 0) == Start(c);
    LoopUnfolds(s, c, 0);
  }

  lemma FirstStep(registry: HandlerRegistry, save: Saver, name: HandlerName, c: Ctx)
    requires registry(name).Some? && SavesOnly(save)
    ensures var h := registry(name).value;
            var (d, r) := Outcome(h, name, c);
            var after := Step(Start(c), Setup(registry, save, [name]), 0, name);
            && after.results == [r] && after.stopped == Failing(r)
            && after.ctx.verifierDecision == Decided(h.handlerType, r, d.verifierDecision)
  {
    hide Outcome, Decided;
    var r := Outcome(registry(name).value, name, c).1;
    assert [] + [r] == [r];
  }

  lemma LastOfOne(registry: HandlerRegistry, save: Saver, name: HandlerName, r: HandlerResult, start: Decision)
    requires registry(name).Some?
    ensures LastDecision(Setup(registry, save, [name]), [r], start) == Decided(registry(name).value.handlerType, r, start)
  {
    assert [r][..0] == [];
    assert LastDecision(Setup(registry, save, [name]), [], start) == start;
  }

  /** A chain of one handler is decided by its one step. */
  lemma SingleStep(registry: HandlerRegistry, save: Saver, name: HandlerName, c: Ctx)
    requires registry(name).Some? && SavesOnly(save)
    ensures var s, h := Setup(registry, save, [name]), registry(name).value;
            var (d, r) := Outcome(h, name, c);
            && Whole(s, c).results == [r] && Whole(s, c).stopped == Failing(r)
            && Whole(s, c).ctx.verifierDecision == Decided(h.handlerType, r, d.verifierDecision)
            && LastDecision(s, [r], c.verifierDecision) == Decided(h.handlerType, r, c.verifierDecision)
  {
    hide Outcome, Decided, LastDecision, Whole, Step, SavesOnly, Failing;
    StepOfOne(registry, save, name, c);
    FirstStep(registry, save, name, c);
    LastOfOne(registry, save, name, Outcome(registry(name).value, name, c).1, c.verifierDecision);
  }

  /** Over every chain and every context, a run's decision is that of the last verifier that decided,
      exactly when no registered handler writes a decision that outlives its own step. */
  lemma DecisionIsExact(registry: HandlerRegistry, save: Saver)
    requires SavesOnly(save)
    ensures (forall chain: seq<HandlerName>, c: Ctx :: DecisionDeclared(Setup(registry, save, chain), c)) <==> Deferring(registry)
  {
    hide Outcome, Decided, SavesOnly, LastDecision, Whole;
    if Deferring(registry) {
      forall chain: seq<HandlerName>, c: Ctx ensures DecisionDeclared(Setup(registry, save, chain), c) {
        WholeDecision(Setup(registry, save, chain), c);
      }
    }
    if forall chain: seq<HandlerName>, c: Ctx :: DecisionDeclared(Setup(registry, save, chain), c) {
      forall n: HandlerName, c: Ctx | registry(n).Some? ensures DefersAt(registry(n).value, n, c) {
        SingleStep(registry, save, n, c);
        assert DecisionDeclared(Setup(registry, save, [n]), c);
      }
    }
  }

  /** Over every chain and every context the verdict is a function of the results, exactly when what a
      registered handler writes into the decision never changes how it reads, unless its result ends
      the run. */
  lemma VerdictIsExactlyDeclared(registry: HandlerRegistry, save: Saver)
    requires SavesOnly(save)
    ensures (forall chain: seq<HandlerName>, c: Ctx :: VerdictDeclared(Setup(registry, save, chain), c)) <==> Harmless(registry)
  {
    hide Outcome, Decided, SavesOnly, LastDecision, Whole, ReadsAs, Failing;
    if Harmless(registry) {
      forall chain: seq<HandlerName>, c: Ctx ensures VerdictDeclared(Setup(registry, save, chain), c) {
        WholeVerdict(Setup(registry, save, chain), c);
      }
    }
    if forall chain: seq<HandlerName>, c: Ctx :: VerdictDeclared(Setup(registry, save, chain), c) {
      forall n: HandlerName, c: Ctx | registry(n).Some? ensures HarmlessAt(registry(n).value, n, c) {
        SingleStep(registry, save, n, c);
        VerdictReads(Whole(Setup(registry, save, [n]), c));
        assert VerdictDeclared(Setup(registry, save, [n]), c);
      }
    }
  }

  lemma VerdictReads(run: Run)
    ensures !run.stopped ==> VerdictOf(run) == ReadsAs(run.ctx.verifierDecision)
  {
  }

  /** For such handlers a run passes exactly when it was not cut by a failure and the last verifier
      that decided passed. */
  lemma VerdictIsDeclared(s: Setup, c: Ctx)
    requires Harmless(s.registry) && SavesOnly(s.save)
    ensures Length(s, c) <= |s.chain|
    ensures VerdictOf(Whole(s, c)) == RunPass <==>
            !Whole(s, c).stopped && LastDecision(s, Whole(s, c).results, c.verifierDecision) == Pass
  {
    hide Harmless, SavesOnly, LastDecision;
    WholeVerdict(s, c);
    StoppedMeansFailing(s, c);
  }

  // ------------------------------------------------- handlers that decide themselves

  /** A non-verifier that writes the decision into the context. */
  function Usurper(): Handler {
    Handler(PureCheck, _ => true,
            (c: Ctx) => (c.(verifierDecision := Pass),
                  HandlerResult(StaticCheck, PureCheck, StatusPass, Continue, [], [], [], None)))
  }

  function Usurpers(): HandlerRegistry {
    _ => Some(Usurper())
  }

  /** Where a run of such handlers stands after some of them. */
  ghost predicate Usurped(run: Run, c: Ctx, n: nat) {
    && !run.halted && !run.stopped && run.ctx.repo == c.repo && run.ctx.repoSnapshot == c.repoSnapshot
    && run.ctx.verifierDecision == (if n == 0 then c.verifierDecision else Pass)
  }

  lemma UsurperSteps(before: Run, save: Saver, chain: seq<HandlerName>, c: Ctx, i: nat, name: HandlerName)
    requires SavesOnly(save) && !Mutated(c) && Usurped(before, c, i)
    ensures Usurped(Step(before, Setup(Usurpers(), save, chain), i, name), c, i + 1)
  {
  }

  lemma {:induction false} UsurpersGoOn(save: Saver, chain: seq<HandlerName>, c: Ctx, n: nat)
    requires SavesOnly(save) && !Mutated(c) && n <= |chain|
    ensures Usurped(Steps(Setup(Usurpers(), save, chain), c, n), c, n)
  {
    hide Step, SavesOnly, Mutated;
    var s := Setup(Usurpers(), save, chain);
    if n == 0 {
      assert Steps(s, c, 0) == Start(c);
    } else {
      UsurpersGoOn(save, chain, c, n - 1);
      LoopUnfolds(s, c, n - 1);
      UsurperSteps(Steps(s, c, n - 1), save, chain, c, n - 1, chain[n - 1]);
    }
  }

  lemma NoneDecides(save: Saver, chain: seq<HandlerName>, results: seq<HandlerResult>)
    requires |results| <= |chain|
    ensures LastDecision(Setup(Usurpers(), save, chain), results, Pending) == Pending
    decreases |results|
  {
    if results != [] { NoneDecides(save, chain, results[..|results| - 1]); }
  }

  /** The executor does not defend the decision against such handlers: every registered chain then
      ends in PASS, although no result of it decides anything. */
  lemma UsurpersPass(id: ChainId, c: Ctx, save: Saver)
    requires SavesOnly(save) && !Mutated(c) && c.verifierDecision == Pending
    ensures var s := Setup(Usurpers(), save, Registry.ChainOf(id));
            && VerdictOf(Whole(s, c)) == RunPass
            && Length(s, c) <= |s.chain| && LastDecision(s, Whole(s, c).results, Pending) == Pending
            && !Harmless(s.registry)
  {
    var s := Setup(Usurpers(), save, Registry.ChainOf(id));
    ChainIsLong(id);
    hide Registry.ChainOf, Mutated, SavesOnly, LastDecision, Harmless, Usurpers;
    UsurpersGoOn(save, s.chain, c, |s.chain|);
    Unfolding(s, c);
    NoneDecides(save, s.chain, Whole(s, c).results);
    if Harmless(s.registry) { VerdictIsDeclared(s, c); }
  }

  lemma ChainIsLong(id: ChainId)
    ensures Registry.ChainOf(id) != []
  {
  }

  // ------------------------------------------------------------ repository preservation

  /** A handler that leaves the run's initial snapshot alone. */
  ghost predicate LeavesSnapshot(h: Handler) {
    forall c: Ctx :: h.handle(c).0.repoSnapshot == c.repoSnapshot
  }

  ghost predicate KeepsBaseline(registry: HandlerRegistry) {
    forall n: HandlerName :: registry(n).Some? ==> LeavesSnapshot(registry(n).value)
  }

  /** A handler was really run at position i. */
  predicate Executed(s: Setup, before: Run, name: HandlerName) {
    s.registry(name).Some? && s.registry(name).value.canHandle(before.ctx.request)
  }

  predicate WriteType(s: Setup, name: HandlerName) {
    s.registry(name).Some? && CanModifyRepo(s.registry(name).value.handlerType)
  }

  lemma StepKeepsBaseline(s: Setup, before: Run, i: nat, name: HandlerName)
    requires KeepsBaseline(s.registry) && SavesOnly(s.save)
    ensures Step(before, s, i, name).ctx.repoSnapshot == before.ctx.repoSnapshot
  {
    if s.registry(name).Some? { assert LeavesSnapshot(s.registry(name).value); }
  }

  lemma MutationBlocks(s: Setup, before: Run, i: nat, name: HandlerName)
    requires SavesOnly(s.save) && Executed(s, before, name) && !WriteType(s, name)
    requires Mutated(Step(before, s, i, name).ctx)
    ensures ResultAt(s, before, name).decision == DecideBlocked
  {
  }

  lemma {:induction false} BaselineKept(s: Setup, c: Ctx, n: nat)
    requires KeepsBaseline(s.registry) && SavesOnly(s.save) && n <= Length(s, c)
    ensures Steps(s, c, n).ctx.repoSnapshot == c.repoSnapshot
  {
    hide Step, LeavesSnapshot, KeepsBaseline, SavesOnly;
    if n > 0 {
      BaselineKept(s, c, n - 1);
      StepAt(s, c, n - 1);
      StepKeepsBaseline(s, Steps(s, c, n - 1), n - 1, s.chain[n - 1]);
    } else {
      assert Steps(s, c, 0) == Start(c);
    }
  }

  /** Whoever changed the repository, the next non-write handler that runs while the change is
      there is blocked, and with it the run. So a run that is not blocked saw the initial tree
      after every non-write handler it executed. */
  lemma ChangesAreCaught(s: Setup, c: Ctx, i: nat)
    requires KeepsBaseline(s.registry) && SavesOnly(s.save) && Reached(s, c, i)
    requires Executed(s, Steps(s, c, i), s.chain[i]) && !WriteType(s, s.chain[i])
    ensures var after := Steps(s, c, i + 1).ctx;
            after.repo.Some? && after.repo.value != c.repoSnapshot ==>
              VerdictOf(Whole(s, c)) == RunBlocked && Length(s, c) == i + 1
  {
    hide Step, Shaped, Executed, ResultAt;
    BaselineKept(s, c, i + 1);
    if Mutated(Steps(s, c, i + 1).ctx) {
      StepAt(s, c, i);
      MutationBlocks(s, Steps(s, c, i), i, s.chain[i]);
      ResultOfStep(s, c, i);
      HaltedStays(BodyOf(s), Start(c), i + 1, |s.chain|);
    }
  }

  /** None of the positions after i and before n was executed. */
  ghost predicate IdleAfter(s: Setup, c: Ctx, i: nat, n: nat) {
    forall j: nat | i < j < n && j < |s.chain| :: !Executed(s, Steps(s, c, j), s.chain[j])
  }

  /** Nothing that was not executed changes the tree. */
  lemma {:induction false} IdleTail(s: Setup, c: Ctx, i: nat, n: nat)
    requires SavesOnly(s.save) && i < n <= Length(s, c) && IdleAfter(s, c, i, n)
    ensures Steps(s, c, n).ctx.repo == Steps(s, c, i + 1).ctx.repo
  {
    if i + 1 < n {
      IdleTail(s, c, i, n - 1);
      StepAt(s, c, n - 1);
    }
  }

  /** If the last handler a run executed was of a non-write type, a run that is not blocked leaves
      the repository exactly as it found it, unless its path is gone. */
  lemma RepositoryPreserved(s: Setup, c: Ctx, i: nat)
    requires KeepsBaseline(s.registry) && SavesOnly(s.save) && Reached(s, c, i)
    requires Executed(s, Steps(s, c, i), s.chain[i]) && !WriteType(s, s.chain[i])
    requires IdleAfter(s, c, i, Length(s, c))
    requires VerdictOf(Whole(s, c)) != RunBlocked
    ensures Whole(s, c).ctx.repo.Some? ==> Whole(s, c).ctx.repo.value == c.repoSnapshot
  {
    ChangesAreCaught(s, c, i);
    IdleTail(s, c, i, Length(s, c));
    Unfolding(s, c);
  }

  /** Write authority is therefore worth nothing in front of a non-write handler: a change that a
      write-type handler leaves behind, and the following handler keeps, always blocks the run. */
  lemma WritersAreCaughtNext(s: Setup, c: Ctx, i: nat)
    requires KeepsBaseline(s.registry) && SavesOnly(s.save) && Reached(s, c, i + 1)
    requires WriteType(s, s.chain[i]) && !WriteType(s, s.chain[i + 1])
    requires Executed(s, Steps(s, c, i + 1), s.chain[i + 1])
    requires Steps(s, c, i + 2).ctx.repo == Steps(s, c, i + 1).ctx.repo
    requires Mutated(Steps(s, c, i + 1).ctx)
    ensures VerdictOf(Whole(s, c)) == RunBlocked && Length(s, c) == i + 2
  {
    BaselineKept(s, c, i + 1);
    ChangesAreCaught(s, c, i + 1);
  }
}
