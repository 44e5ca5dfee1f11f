/**
 The run lifecycle: the endpoints of the control API as transitions of the stored records and of
 the disk that the runs' evidence lives on. One call is handled at a time.
 */
module Lifecycle {
  import opened Core
  import opened Text
  import opened Gates
  import opened Context
  import opened Registry
  import opened Handlers
  import opened Records
  import opened Runtime
  import opened RunStore

  /** A resolved workspace: the commit it is at, and its tree. The workspace policy resolves to paths that
      exist, and refuses all others. */
  datatype Workspace = Workspace(commit: Option<string>, tree: Snapshot)

  /** How the service is set up; `runner` is its runtime. */
  datatype Site = Site(production: bool, root: string, runner: Runner)

  datatype Call =
    | CreateRun(manifest: Manifest, freshId: string)
    | PlanChain(runId: string, request: Request)
    | ExecuteRun(runId: string, request: Request, path: string, world: World, resolve: string -> Option<Workspace>)
    | VerifyRun(runId: string, report: VerifierReport, ledger: Ledger)
    | OpenPr(runId: string, url: string, skipReason: string)

  datatype Answer =
    | NotFound
    | Unprocessable(reasons: seq<Reason>)
    | Refused
    | Created(runId: string)
    | Planned(plan: Plan)
    | Executed(result: ChainExecutionResult)
    | Verified(effective: Decision, selfCertification: seq<Reason>, evidence: seq<Reason>)
    | PrOpened(url: string)

  datatype System = System(memory: Memory, disk: map<string, string>)

  // ------------------------------------------------------------------------ create, plan

  /** The manifest gate. */
  function ManifestReasons(m: Manifest): seq<Reason> {
    When(m.autoMerge, MergeRequested, NOTHING) + When(m.autoDeploy, DeployRequested, NOTHING) + m.faults
  }

  function PlanOf(id: string, q: Request): Plan {
    Plan(id, q.taskType, Resolve(q.taskType), q.envelopeReasons)
  }

  // ----------------------------------------------------------------------------- execute

  /** The request under the identity of the registered run, or why it has another. */
  function Bound(r: RunRecord, id: string, q: Request): Result<Request, seq<Reason>> {
    var task := r.manifest.taskId;
    if q.runId != "" && q.runId != id then Err([Reason(IdentityMismatch, Named(q.runId))])
    else if r.manifest.runId != "" && r.manifest.runId != id then Err([Reason(IdentityMismatch, Named(r.manifest.runId))])
    else if task != "" && q.taskId != "" && q.taskId != task then Err([Reason(IdentityMismatch, Named(q.taskId))])
    else if q.envelopeReasons != [] then Err(q.envelopeReasons)
    else Ok(q.(runId := id, taskId := Or(q.taskId, task)))
  }

  function SourcePath(site: Site, path: string): Result<string, seq<Reason>> {
    if site.production && path != "" then Err([Reason(PathForbidden, NOTHING)])
    else Ok(if site.production then site.root else Or(path, site.root))
  }

  /** The result where the workspace was refused. */
  function BlockedResult(id: string, q: Request): ChainExecutionResult {
    ChainExecutionResult(
      Or(q.runId, id), q.taskId, q.taskType, None, q.mode,
      [HandlerResult(WorkspacePolicy, PureCheck, StatusBlocked, DecideBlocked, [], [], [Reason(WorkspaceRefused, NOTHING)], None)],
      RunBlocked, Blocked, None, PrBlocked, false, false, false, [])
  }

  function NextAttempt(r: RunRecord): string {
    AttemptId(r.runId, |r.attempts| + 1)
  }

  /** The record once an attempt has run. */
  function WithAttempt(r: RunRecord, ws: Workspace, result: ChainExecutionResult): RunRecord {
    var id := NextAttempt(r);
    r.(attempts := r.attempts + [RunAttempt(id, |r.attempts| + 1, ws.commit, Some("workspace-" + id), Some(result.finalStatus))],
       artifacts := r.artifacts + result.evidenceArtifacts)
  }

  function WithResult(r: RunRecord, result: ChainExecutionResult): RunRecord {
    r.(chainExecutionResult := Some(result), state := ExecuteChain)
  }

  // ------------------------------------------------------------------------ verify, open

  function CertificationOf(report: VerifierReport, ledger: Ledger): Certification {
    Certification(report.codingRunId, report.verifierRunId, "", "", report.decision, ledger.selfCertificationUsed, false)
  }

  function EffectiveDecision(report: VerifierReport, gatesPass: bool): Decision {
    if report.decision == Pass && !gatesPass then Fail else report.decision
  }

  function VerdictGates(id: string, report: VerifierReport, ledger: Ledger): (seq<Reason>, seq<Reason>) {
    (SelfCertificationReasons(CertificationOf(report, ledger)), EvidenceReasons(ledger, id, report.taskId, []))
  }

  function WithReport(r: RunRecord, report: VerifierReport, effective: Decision): RunRecord {
    r.(verifierReport := Some(report.(decision := effective)), state := VerifyState)
  }

  function StoredDecision(r: RunRecord): Decision {
    if r.verifierReport.Some? then r.verifierReport.value.decision else Pending
  }

  // ------------------------------------------------------------------------- the endpoints

  function Stored(sys: System, r: RunRecord): System {
    sys.(memory := Remembered(sys.memory, r))
  }

  function HandleCreate(sys: System, m: Manifest, freshId: string): (System, Answer) {
    if ManifestReasons(m) != [] then (sys, Unprocessable(ManifestReasons(m)))
    else
      var id := Or(m.runId, freshId);
      (Stored(sys, NewRecord(id, m)), Created(id))
  }

  function HandlePlan(sys: System, id: string, q: Request): (System, Answer) {
    match Recall(sys.memory, id)
    case None => (sys, NotFound)
    case Some(r) => (Stored(sys, r.(chainResult := Some(PlanOf(id, q)))), Planned(PlanOf(id, q)))
  }

  function Attempted(site: Site, sys: System, r: RunRecord, q: Request, w: World, workspace: Option<Workspace>): (System, Answer) {
    match workspace
    case None =>
      var result := BlockedResult(r.runId, q);
      (Stored(sys, WithResult(r, result)), Executed(result))
    case Some(ws) =>
      var out := site.runner(sys.disk, q, NextAttempt(r), w, Some(ws.tree));
      (Stored(System(sys.memory, out.disk), WithResult(WithAttempt(r, ws, out.result), out.result)), Executed(out.result))
  }

  function HandleExecute(site: Site, sys: System, id: string, q: Request, path: string, w: World,
                         resolve: string -> Option<Workspace>): (System, Answer)
  {
    match Recall(sys.memory, id)
    case None => (sys, NotFound)
    case Some(r) =>
      match Bound(r, id, q)
      case Err(reasons) => (sys, Unprocessable(reasons))
      case Ok(bound) =>
        match SourcePath(site, path)
        case Err(reasons) => (sys, Unprocessable(reasons))
        case Ok(source) => Attempted(site, sys, r, bound, w, resolve(source))
  }

  function HandleVerify(sys: System, id: string, report: VerifierReport, ledger: Ledger): (System, Answer) {
    match Recall(sys.memory, id)
    case None => (sys, NotFound)
    case Some(r) =>
      var (self, evidence) := VerdictGates(id, report, ledger);
      var effective := EffectiveDecision(report, self == [] && evidence == []);
      (Stored(sys, WithReport(r, report, effective)), Verified(effective, self, evidence))
  }

  function HandlePr(sys: System, id: string, url: string, skipReason: string): (System, Answer) {
    match Recall(sys.memory, id)
    case None => (sys, NotFound)
    case Some(r) =>
      if StoredDecision(r) != Pass then (sys, Refused)
      else
        var reasons := PrReasons(Pass, url, skipReason, r.manifest.autoMerge, r.manifest.autoDeploy);
        if reasons != [] then (sys, Unprocessable(reasons))
        else (Stored(sys, r.(state := PrGateState)), PrOpened(url))
  }

  function Respond(site: Site, sys: System, call: Call): (System, Answer) {
    match call
    case CreateRun(m, freshId) => HandleCreate(sys, m, freshId)
    case PlanChain(id, q) => HandlePlan(sys, id, q)
    case ExecuteRun(id, q, path, w, resolve) => HandleExecute(site, sys, id, q, path, w, resolve)
    case VerifyRun(id, report, ledger) => HandleVerify(sys, id, report, ledger)
    case OpenPr(id, url, skipReason) => HandlePr(sys, id, url, skipReason)
  }

  /** The run that a call is about. */
  function RunOf(call: Call): string {
    match call
    case CreateRun(m, freshId) => Or(m.runId, freshId)
    case PlanChain(id, _) => id
    case ExecuteRun(id, _, _, _, _) => id
    case VerifyRun(id, _, _) => id
    case OpenPr(id, _, _) => id
  }

  /** The endpoints save once where they do what they are asked, and nothing where they refuse. */
  predicate Granted(a: Answer) { !a.NotFound? && !a.Unprocessable? && !a.Refused? }

  /** What was saved where this is how it went: the run as it is stored afterwards. */
  function SavedIn(x: (System, Answer), id: string): Option<RunRecord> {
    if Granted(x.1) then Recall(x.0.memory, id) else None
  }

  function SavedBy(site: Site, sys: System, call: Call): Option<RunRecord> {
    SavedIn(Respond(site, sys, call), RunOf(call))
  }

  function After(site: Site, sys: System, calls: seq<Call>): System {
    if calls == [] then sys
    else Respond(site, After(site, sys, calls[..|calls| - 1]), calls[|calls| - 1]).0
  }

  function Initial(disk: map<string, string>): System {
    System(Memory([], map[]), disk)
  }

  // ------------------------------------------------------------------------------- object

  /** The control API over its in-memory store. */
  class ControlApi {
    const site: Site
    const repository: InMemoryRunRepository
    const runtime: RuntimeExecutor
    var disk: map<string, string>

    ghost function View(): System
      reads this, repository
    {
      System(repository.View(), disk)
    }

    constructor (site: Site, runtime: RuntimeExecutor, disk: map<string, string>)
      ensures fresh(repository) && View() == Initial(disk) && this.site == site && this.runtime == runtime
    {
      this.site, this.runtime, this.disk := site, runtime, disk;
      this.repository := new InMemoryRunRepository();
    }

    method Create(m: Manifest, freshId: string) returns (a: Answer)
      modifies repository
      ensures (View(), a) == Respond(site, old(View()), CreateRun(m, freshId))
    {
      var reasons := ManifestReasons(m);
      if reasons != [] { return Unprocessable(reasons); }
      var id := Or(m.runId, freshId);
      repository.Save(NewRecord(id, m));
      a := Created(id);
    }

    method Plan(id: string, q: Request) returns (a: Answer)
      modifies repository
      ensures (View(), a) == Respond(site, old(View()), PlanChain(id, q))
    {
      var found := repository.Get(id);
      if found.None? { return NotFound; }
      var plan := PlanOf(id, q);
      repository.Save(found.value.(chainResult := Some(plan)));
      a := Planned(plan);
    }

    method Execute(id: string, q: Request, path: string, w: World, resolve: string -> Option<Workspace>) returns (a: Answer)
      requires runtime.Valid() && runtime.runner == site.runner
      modifies this`disk, repository
      ensures (View(), a) == HandleExecute(site, old(View()), id, q, path, w, resolve)
    {
      hide WithResult, WithAttempt, BlockedResult, Bound, SourcePath, RunnerOf, Remembered, Recall, NextAttempt;
      var found := repository.Get(id);
      if found.None? { return NotFound; }
      var bound := Bound(found.value, id, q);
      if bound.Err? { return Unprocessable(bound.error); }
      var source := SourcePath(site, path);
      if source.Err? { return Unprocessable(source.error); }
      var workspace := resolve(source.value);
      if workspace.None? {
        var result := BlockedResult(found.value.runId, bound.value);
        repository.Save(WithResult(found.value, result));
        return Executed(result);
      }
      var result;
      result, disk := runtime.Execute(disk, bound.value, NextAttempt(found.value), w, Some(workspace.value.tree));
      repository.Save(WithResult(WithAttempt(found.value, workspace.value, result), result));
      a := Executed(result);
    }

    method Verify(id: string, report: VerifierReport, ledger: Ledger) returns (a: Answer)
      modifies repository
      ensures (View(), a) == HandleVerify(old(View()), id, report, ledger)
    {
      hide SelfCertificationReasons, EvidenceReasons, Supports;
      var found := repository.Get(id);
      if found.None? { return NotFound; }
      var self := Gates.SelfCertificationGate(CertificationOf(report, ledger));
      var evidence := Gates.EvidenceGate(ledger, id, report.taskId, []);
      var effective := report.decision;
      if report.decision == Pass && !(self.reasons == [] && evidence.reasons == []) {
        effective := Fail;
      }
      repository.Save(WithReport(found.value, report, effective));
      a := Verified(effective, self.reasons, evidence.reasons);
    }

    method Open(id: string, url: string, skipReason: string) returns (a: Answer)
      modifies repository
      ensures (View(), a) == HandlePr(old(View()), id, url, skipReason)
    {
      var found := repository.Get(id);
      if found.None? { return NotFound; }
      var r := found.value;
      if StoredDecision(r) != Pass { return Refused; }
      var reasons := PrReasons(Pass, url, skipReason, r.manifest.autoMerge, r.manifest.autoDeploy);
      if reasons != [] { return Unprocessable(reasons); }
      repository.Save(r.(state := PrGateState));
      a := PrOpened(url);
    }
  }
}
