/**
 The chain executor: it runs registered handlers in order, catches repository changes, lets only
 verifiers decide, and computes the verdict. Handlers are arbitrary functions on the context.
 */
module Executor {
  import opened Core
  import opened Names
  import opened Evidence
  import opened Context

  datatype Handler = Handler(
    handlerType: HandlerType, canHandle: Request -> bool, handle: Ctx -> (Ctx, HandlerResult))

  type HandlerRegistry = HandlerName -> Option<Handler>

  /** Writing the checkpoint of a step. */
  type Saver = (Ctx, nat, HandlerName, HandlerResult) -> Ctx

  /** Saving a checkpoint touches the stored evidence files and nothing else of the context. */
  ghost predicate SavesOnly(save: Saver) {
    forall c: Ctx, i: nat, n: HandlerName, r: HandlerResult ::
      save(c, i, n, r) == c.(ev := save(c, i, n, r).ev)
  }

  /** What a run is configured with. */
  datatype Setup = Setup(registry: HandlerRegistry, save: Saver, chain: seq<HandlerName>)

  // -------------------------------------------------------------------- authority

  datatype Authority = Authority(
    modifyRepo: bool, decidePass: bool, createPr: bool, merge: bool, deploy: bool)

  function AuthorityOf(t: HandlerType): Authority {
    match t
    case PureCheck => Authority(false, false, false, false, false)
    case ReadOnlyCommand => Authority(false, false, false, false, false)
    case WriteCommand => Authority(true, false, false, false, false)
    case AgentCall => Authority(true, false, false, false, false)
    case Verifier => Authority(false, true, false, false, false)
    case PrAction => Authority(false, false, true, false, false)
    case EvaluatorType => Authority(false, false, false, false, false)
  }

  predicate CanModifyRepo(t: HandlerType) { AuthorityOf(t).modifyRepo }

  predicate CanDecidePass(t: HandlerType) { AuthorityOf(t).decidePass }

  // --------------------------------------------------------------------- one step

  function MissingResult(name: HandlerName): HandlerResult {
    HandlerResult(name, PureCheck, StatusBlocked, DecideBlocked, [], [], [Reason(NotImplemented, NOTHING)], None)
  }

  function SkippedResult(name: HandlerName, t: HandlerType): HandlerResult {
    HandlerResult(name, t, StatusSkipped, SkipNotApplicable, [], [], [Reason(NotApplicable, NOTHING)], None)
  }

  function ViolationResult(r: HandlerResult, t: HandlerType): HandlerResult {
    HandlerResult(r.handlerName, t, StatusBlocked, DecideBlocked, [], [], [Reason(AuthorityViolation, NOTHING)], None)
  }

  /** The repository on disk differs from the snapshot the run started with. */
  predicate Mutated(c: Ctx) {
    c.repo.Some? && c.repo.value != c.repoSnapshot
  }

  /** The result the executor accepts: a changed tree overrides what a handler without write authority
      reports. */
  function Enforce(t: HandlerType, c: Ctx, r: HandlerResult): HandlerResult {
    if CanModifyRepo(t) || c.repo.None? then r
    else if c.repo.value != c.repoSnapshot then ViolationResult(r, t)
    else r
  }

  /** What a registered handler does to the context, and its result after enforcement. */
  function Outcome(h: Handler, name: HandlerName, c: Ctx): (Ctx, HandlerResult) {
    if !h.canHandle(c.request) then (c, SkippedResult(name, h.handlerType))
    else
      var (d, r) := h.handle(c);
      (d, Enforce(h.handlerType, d, r))
  }

  function DecisionOf(s: HandlerStatus): Option<Decision> {
    match s
    case StatusPass => Some(Pass)
    case StatusFail => Some(Fail)
    case StatusBlocked => Some(Blocked)
    case StatusSkipped => None
  }

  /** Only a verifier's status becomes the run's verifier decision. */
  function Decided(t: HandlerType, r: HandlerResult, current: Decision): Decision {
    if CanDecidePass(t) then DecisionOf(r.status).GetOr(current) else current
  }

  /** The checkpoint the executor writes: a stored file that is never ledgered. */
  function CheckpointOp(index: nat, name: HandlerName, data: string): Op {
    Op(CheckpointFile(index, name), data, CHECKPOINT, "executor", None, false)
  }

  function CheckpointSaver(text: (Decision, HandlerResult) -> string): (save: Saver)
    ensures SavesOnly(save)
  {
    (c: Ctx, i: nat, n: HandlerName, r: HandlerResult) =>
      c.(ev := Perform(c.ev, CheckpointOp(i, n, text(c.verifierDecision, r))))
  }

  /** The loop variables; `halted` records that the loop was left early. */
  datatype Run = Run(
    ctx: Ctx, results: seq<HandlerResult>, prStatus: PrStatus, status: FinalStatus,
    stopped: bool, halted: bool)

  function Start(c: Ctx): Run {
    Run(c, [], NotRequired, RunPass, false, false)
  }

  predicate Failing(r: HandlerResult) {
    r.decision == DecideFail || r.decision == DecideBlocked
  }

  predicate Cutting(r: HandlerResult) {
    Failing(r) || r.decision == Stop
  }

  /** What follows once a handler of type t has left the context c and the result r. */
  function Settle(run: Run, save: Saver, t: HandlerType, index: nat, name: HandlerName, c: Ctx, r: HandlerResult): Run {
    var d := c.(verifierDecision := Decided(t, r, c.verifierDecision));
    Run(save(d, index, name, r), run.results + [r], r.prStatus.GetOr(run.prStatus),
        if r.decision == DecideFail then RunFail else if r.decision == DecideBlocked then RunBlocked else run.status,
        Failing(r), Cutting(r))
  }

  function Step(run: Run, s: Setup, index: nat, name: HandlerName): Run {
    match s.registry(name)
    case None =>
      var r := MissingResult(name);
      Run(s.save(run.ctx, index, name, r), run.results + [r], run.prStatus, RunBlocked, true, true)
    case Some(h) =>
      var (c, r) := Outcome(h, name, run.ctx);
      Settle(run, s.save, h.handlerType, index, name, c, r)
  }

  /** The loop body as a value: where it takes a run at a position of the chain. */
  type Body = (Run, nat) -> Run

  function BodyOf(s: Setup): Body {
    (run: Run, i: nat) => if i < |s.chain| then Step(run, s, i, s.chain[i]) else run
  }

  /** The loop after n positions; once halted it stays as it is. */
  function Loop(body: Body, start: Run, n: nat): Run {
    if n == 0 then start
    else
      var before := Loop(body, start, n - 1);
      if before.halted then before else body(before, n - 1)
  }

  /** The run after the first n positions of the chain. */
  function Steps(s: Setup, c: Ctx, n: nat): Run {
    Loop(BodyOf(s), Start(c), n)
  }

  function VerdictOf(run: Run): FinalStatus {
    if run.stopped then run.status
    else match run.ctx.verifierDecision
      case Pass => RunPass
      case Fail => RunFail
      case Blocked => RunBlocked
      case Pending => RunBlocked
  }

  function ResultOf(run: Run, chainId: Option<ChainId>): ChainExecutionResult {
    var q := run.ctx.request;
    ChainExecutionResult(
      run.ctx.ev.runId, run.ctx.ev.taskId, q.taskType, chainId, q.mode, run.results, VerdictOf(run),
      run.ctx.verifierDecision, run.ctx.work.evalScore, run.prStatus, run.ctx.work.selfCertificationUsed,
      false, false, run.ctx.ev.artifacts)
  }

  /** A whole run of a chain. */
  function Whole(s: Setup, c: Ctx): Run {
    Steps(s, c, |s.chain|)
  }

  lemma {:induction false} HaltedStays(body: Body, start: Run, n: nat, m: nat)
    requires n <= m && Loop(body, start, n).halted
    ensures Loop(body, start, m) == Loop(body, start, n)
  {
    if n < m { HaltedStays(body, start, n, m - 1); }
  }

  lemma LoopUnfolds(s: Setup, c: Ctx, i: nat)
    requires i < |s.chain| && !Steps(s, c, i).halted
    ensures Steps(s, c, i + 1) == Step(Steps(s, c, i), s, i, s.chain[i])
  {
  }

  lemma WholeOnceHalted(s: Setup, c: Ctx, n: nat)
    requires n <= |s.chain| && Steps(s, c, n).halted
    ensures Whole(s, c) == Steps(s, c, n)
  {
    HaltedStays(BodyOf(s), Start(c), n, |s.chain|);
  }

  /** The executor's loop. */
  class ChainExecutor {
    const registry: HandlerRegistry
    const save: Saver

    constructor (registry: HandlerRegistry, save: Saver)
      ensures this.registry == registry && this.save == save
    {
      this.registry, this.save := registry, save;
    }

    /** The second half of the loop body: record the result, decide, checkpoint, leave or go on. */
    method Conclude(run: Run, t: HandlerType, index: nat, name: HandlerName, c: Ctx, result: HandlerResult)
      returns (after: Run)
      ensures after == Settle(run, save, t, index, name, c, result)
    {
      var results := run.results + [result];
      var context := c.(verifierDecision := Decided(t, result, c.verifierDecision));
      var prStatus := result.prStatus.GetOr(run.prStatus);
      context := save(context, index, name, result);
      if result.decision == DecideFail {
        return Run(context, results, prStatus, RunFail, true, true);
      }
      if result.decision == DecideBlocked {
        return Run(context, results, prStatus, RunBlocked, true, true);
      }
      after := Run(context, results, prStatus, run.status, false, result.decision == Stop);
    }

    /** The body of the loop: handle one position, or block on a missing handler. */
    method Advance(run: Run, index: nat, name: HandlerName, ghost s: Setup) returns (after: Run)
      requires s.registry == registry && s.save == save
      ensures after == Step(run, s, index, name)
    {
      var entry := registry(name);
      if entry.None? {
        var missing := MissingResult(name);
        var context := save(run.ctx, index, name, missing);
        return Run(context, run.results + [missing], run.prStatus, RunBlocked, true, true);
      }
      var handled := Outcome(entry.value, name, run.ctx);
      after := Conclude(run, entry.value.handlerType, index, name, handled.0, handled.1);
    }

    method Execute(request: Request, chainId: ChainId, chain: seq<HandlerName>, ev: Evidence,
                   repo: Option<Snapshot>, manifest: Option<ManifestView>)
      returns (r: ChainExecutionResult, final: Ctx)
      ensures var run := Whole(Setup(registry, save, chain), NewCtx(request, ev, repo, manifest));
              r == ResultOf(run, Some(chainId)) && final == run.ctx
    {
      var c0 := NewCtx(request, ev, repo, manifest);
      ghost var s := Setup(registry, save, chain);
      var run := Start(c0);
      var index := 0;
      while index < |chain|
        invariant index <= |chain| && run == Steps(s, c0, index)
        invariant !run.halted
      {
        LoopUnfolds(s, c0, index);
        run := Advance(run, index, chain[index], s);
        index := index + 1;
        if run.halted {
          WholeOnceHalted(s, c0, index);
          break;
        }
      }
      r, final := ResultOf(run, Some(chainId)), run.ctx;
    }
  }
}
