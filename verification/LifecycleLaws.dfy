/** What holds of the stored runs after every sequence of API calls. */
module LifecycleLaws {
  import opened Core
  import opened Text
  import opened Gates
  import opened ArtifactStore
  import opened Context
  import opened Handlers
  import opened Footprint
  import opened Runtime
  import opened Records
  import opened RunStore
  import opened RunStoreLaws
  import opened Lifecycle

  // ------------------------------------------------------------------- the record invariant

  ghost predicate Harmless(r: ChainExecutionResult) {
    !r.autoMerge && !r.autoDeploy
  }

  /** A stored run: its manifest was admissible and is its own, a pull request is open only on a
      PASS, its attempts are numbered 1, 2, ... with the ids minted from them, every artifact names
      one of them, and nothing asks for a merge or a deployment. */
  ghost predicate Orderly(id: string, r: RunRecord) {
    && r.runId == id
    && ManifestReasons(r.manifest) == []
    && (r.manifest.runId == "" || r.manifest.runId == id)
    && (r.state == PrGateState ==> StoredDecision(r) == Pass)
    && Minted(r)
    && (r.chainExecutionResult.Some? ==> Harmless(r.chainExecutionResult.value))
  }

  ghost predicate AllOrderly(m: Memory) {
    forall id | id in m.runs :: Orderly(id, m.runs[id])
  }

  lemma NewIsOrderly(m: Manifest, freshId: string)
    requires ManifestReasons(m) == []
    ensures Orderly(Or(m.runId, freshId), NewRecord(Or(m.runId, freshId), m))
  {
    hide ManifestReasons;
  }

  /** Admissible manifests never ask for a merge or a deployment. */
  lemma AdmissibleIsHarmless(m: Manifest)
    ensures ManifestReasons(m) == [] <==> !m.autoMerge && !m.autoDeploy && m.faults == []
  {
  }

  lemma PlanKeeps(id: string, r: RunRecord, plan: Plan)
    requires Orderly(id, r)
    ensures Orderly(id, r.(chainResult := Some(plan)))
  {
    hide ManifestReasons, AttemptId;
    SameAttemptsMinted(r, r.(chainResult := Some(plan)));
  }

  lemma SameAttemptsMinted(r: RunRecord, s: RunRecord)
    requires Minted(r) && s.runId == r.runId && s.attempts == r.attempts && s.artifacts == r.artifacts
    ensures Minted(s)
  {
    hide AttemptId;
    forall i | 0 <= i < |s.artifacts| ensures NamesAttempt(s, s.artifacts[i].attemptId) {
      assert NamesAttempt(r, r.artifacts[i].attemptId);
    }
  }

  lemma ReportKeeps(id: string, r: RunRecord, report: VerifierReport, effective: Decision)
    requires Orderly(id, r)
    ensures Orderly(id, WithReport(r, report, effective))
  {
    hide ManifestReasons, Minted;
    SameAttemptsMinted(r, WithReport(r, report, effective));
  }

  lemma OpenKeeps(id: string, r: RunRecord)
    requires Orderly(id, r) && StoredDecision(r) == Pass
    ensures Orderly(id, r.(state := PrGateState))
  {
    hide ManifestReasons, Minted;
    SameAttemptsMinted(r, r.(state := PrGateState));
  }

  lemma ResultKeeps(id: string, r: RunRecord, result: ChainExecutionResult)
    requires Orderly(id, r) && Harmless(result)
    ensures Orderly(id, WithResult(r, result))
  {
    hide ManifestReasons, Minted;
    SameAttemptsMinted(r, WithResult(r, result));
  }

  /** Artifacts that name the attempt about to be stored. */
  ghost predicate NamesNext(r: RunRecord, artifacts: seq<Artifact>) {
    forall i | 0 <= i < |artifacts| :: artifacts[i].attemptId == Some(NextAttempt(r))
  }

  lemma AttemptIsMinted(r: RunRecord, ws: Workspace, result: ChainExecutionResult)
    requires Minted(r) && NamesNext(r, result.evidenceArtifacts)
    ensures Minted(WithAttempt(r, ws, result))
  {
    hide AttemptId, NamesAttempt;
    var s := WithAttempt(r, ws, result);
    forall i | 0 <= i < |s.artifacts| ensures NamesAttempt(s, s.artifacts[i].attemptId) {
      if i < |r.artifacts| {
        assert NamesAttempt(r, r.artifacts[i].attemptId);
        StillNamed(r, ws, result, r.artifacts[i].attemptId);
      } else {
        assert s.artifacts[i] == result.evidenceArtifacts[i - |r.artifacts|];
        NextIsNamed(r, ws, result);
      }
    }
  }

  lemma StillNamed(r: RunRecord, ws: Workspace, result: ChainExecutionResult, attemptId: Option<string>)
    requires NamesAttempt(r, attemptId)
    ensures NamesAttempt(WithAttempt(r, ws, result), attemptId)
  {
    hide AttemptId;
    var i :| 0 <= i < |r.attempts| && r.attempts[i].attemptId == attemptId.value;
    assert WithAttempt(r, ws, result).attempts[i] == r.attempts[i];
  }

  lemma NextIsNamed(r: RunRecord, ws: Workspace, result: ChainExecutionResult)
    ensures NamesAttempt(WithAttempt(r, ws, result), Some(NextAttempt(r)))
  {
    hide AttemptId;
    assert WithAttempt(r, ws, result).attempts[|r.attempts|].attemptId == NextAttempt(r);
  }

  lemma AttemptKeeps(id: string, r: RunRecord, ws: Workspace, result: ChainExecutionResult)
    requires Orderly(id, r) && Harmless(result) && NamesNext(r, result.evidenceArtifacts)
    ensures Orderly(id, WithResult(WithAttempt(r, ws, result), result))
  {
    hide ManifestReasons, Minted, NamesNext, NextAttempt;
    AttemptIsMinted(r, ws, result);
    ResultKeeps(id, WithAttempt(r, ws, result), result);
  }

  lemma RunnerNames(site: Site, root: Path, digest: string -> string, disk: map<string, string>, r: RunRecord, q: Request,
                    w: World, tree: Option<Snapshot>)
    requires ContainsAttempts(site.runner, root, digest)
    ensures var out := site.runner(disk, q, NextAttempt(r), w, tree);
            && Harmless(out.result) && NamesNext(r, out.result.evidenceArtifacts)
            && Contained(RunDir(root, q.runId, Some(NextAttempt(r))), digest, NextAttempt(r), disk, out)
  {
    hide NextAttempt, RunDir, LeftAlone, Stands, InDir;
    var out := site.runner(disk, q, NextAttempt(r), w, tree);
    assert Contained(RunDir(root, q.runId, Some(NextAttempt(r))), digest, NextAttempt(r), disk, out);
    var artifacts := out.result.evidenceArtifacts;
    forall i | 0 <= i < |artifacts| ensures artifacts[i].attemptId == Some(NextAttempt(r)) {
      assert Placed(RunDir(root, q.runId, Some(NextAttempt(r))), digest, NextAttempt(r), out.disk, artifacts[i]);
    }
  }

  /** From one system to the next by saving this, if anything: an orderly record. */
  ghost predicate Saves(before: System, after: System, saved: Option<RunRecord>) {
    match saved
    case None => after == before
    case Some(r) => after.memory == Remembered(before.memory, r) && Orderly(r.runId, r)
  }

  lemma StoredIsSaved(sys: System, disk: map<string, string>, r: RunRecord, answer: Answer)
    requires Granted(answer)
    ensures SavedIn((Stored(System(sys.memory, disk), r), answer), r.runId) == Some(r)
  {
  }

  lemma SavesStored(sys: System, disk: map<string, string>, r: RunRecord, answer: Answer)
    requires Granted(answer) && Orderly(r.runId, r)
    ensures var x := (Stored(System(sys.memory, disk), r), answer); Saves(sys, x.0, SavedIn(x, r.runId))
  {
    hide Orderly, Remembered, SavedIn;
    StoredIsSaved(sys, disk, r, answer);
  }

  lemma AttemptSaves(site: Site, root: Path, digest: string -> string, sys: System, r: RunRecord, q: Request, w: World,
                     workspace: Option<Workspace>)
    requires ContainsAttempts(site.runner, root, digest) && Orderly(r.runId, r)
    ensures var x := Attempted(site, sys, r, q, w, workspace); Saves(sys, x.0, SavedIn(x, r.runId))
  {
    hide Orderly, Stored, SavedIn, Saves, ContainsAttempts, NextAttempt, Contained, NamesNext, BlockedResult, WithResult, WithAttempt;
    if workspace.None? {
      var result := BlockedResult(r.runId, q);
      BlockedIsHarmless(r.runId, q);
      ResultKeeps(r.runId, r, result);
      KeepsRunId(r, workspace, result);
      SavesStored(sys, sys.disk, WithResult(r, result), Executed(result));
    } else {
      RunnerNames(site, root, digest, sys.disk, r, q, w, Some(workspace.value.tree));
      var out := site.runner(sys.disk, q, NextAttempt(r), w, Some(workspace.value.tree));
      AttemptKeeps(r.runId, r, workspace.value, out.result);
      KeepsRunId(r, workspace, out.result);
      SavesStored(sys, out.disk, WithResult(WithAttempt(r, workspace.value, out.result), out.result), Executed(out.result));
    }
  }

  lemma BlockedIsHarmless(id: string, q: Request)
    ensures Harmless(BlockedResult(id, q))
  {
  }

  lemma KeepsRunId(r: RunRecord, ws: Option<Workspace>, result: ChainExecutionResult)
    ensures WithResult(r, result).runId == r.runId
    ensures ws.Some? ==> WithResult(WithAttempt(r, ws.value, result), result).runId == r.runId
  {
    hide NextAttempt;
  }

  lemma RecalledIsOrderly(m: Memory, id: string)
    requires AllOrderly(m) && Recall(m, id).Some?
    ensures Orderly(id, Recall(m, id).value) && Recall(m, id).value.runId == id
  {
    hide ManifestReasons, Minted;
  }

  lemma ExecuteSaves(site: Site, root: Path, digest: string -> string, sys: System, id: string, q: Request, path: string,
                     w: World, resolve: string -> Option<Workspace>)
    requires ContainsAttempts(site.runner, root, digest) && AllOrderly(sys.memory)
    ensures var x := HandleExecute(site, sys, id, q, path, w, resolve); Saves(sys, x.0, SavedIn(x, id))
  {
    hide AllOrderly, Orderly, ContainsAttempts, Attempted, Bound, SourcePath, Recall, Remembered;
    var found := Recall(sys.memory, id);
    if found.Some? && Bound(found.value, id, q).Ok? && SourcePath(site, path).Ok? {
      RecalledIsOrderly(sys.memory, id);
      AttemptSaves(site, root, digest, sys, found.value, Bound(found.value, id, q).value, w,
                   resolve(SourcePath(site, path).value));
    }
  }

  lemma CreateSaves(sys: System, m: Manifest, freshId: string)
    ensures var x := HandleCreate(sys, m, freshId); Saves(sys, x.0, SavedIn(x, Or(m.runId, freshId)))
  {
    hide Orderly, Remembered, Recall, ManifestReasons;
    if ManifestReasons(m) == [] {
      var id := Or(m.runId, freshId);
      NewIsOrderly(m, freshId);
      SavesStored(sys, sys.disk, NewRecord(id, m), Created(id));
    }
  }

  lemma PlanSaves(sys: System, id: string, q: Request)
    requires AllOrderly(sys.memory)
    ensures var x := HandlePlan(sys, id, q); Saves(sys, x.0, SavedIn(x, id))
  {
    hide AllOrderly, Orderly, Recall, Remembered, PlanOf;
    var found := Recall(sys.memory, id);
    if found.Some? {
      RecalledIsOrderly(sys.memory, id);
      PlanKeeps(id, found.value, PlanOf(id, q));
      SavesStored(sys, sys.disk, found.value.(chainResult := Some(PlanOf(id, q))), Planned(PlanOf(id, q)));
    }
  }

  lemma VerifySaves(sys: System, id: string, report: VerifierReport, ledger: Ledger)
    requires AllOrderly(sys.memory)
    ensures var x := HandleVerify(sys, id, report, ledger); Saves(sys, x.0, SavedIn(x, id))
  {
    hide AllOrderly, Orderly, Recall, Remembered, VerdictGates, EffectiveDecision;
    var found := Recall(sys.memory, id);
    if found.Some? {
      RecalledIsOrderly(sys.memory, id);
      var (self, evidence) := VerdictGates(id, report, ledger);
      var effective := EffectiveDecision(report, self == [] && evidence == []);
      ReportKeeps(id, found.value, report, effective);
      SavesStored(sys, sys.disk, WithReport(found.value, report, effective), Verified(effective, self, evidence));
    }
  }

  lemma OpenSaves(sys: System, id: string, url: string, skipReason: string)
    requires AllOrderly(sys.memory)
    ensures var x := HandlePr(sys, id, url, skipReason); Saves(sys, x.0, SavedIn(x, id))
  {
    hide AllOrderly, Orderly, Recall, Remembered, PrReasons, StoredDecision;
    var found := Recall(sys.memory, id);
    if found.Some? && StoredDecision(found.value) == Pass {
      RecalledIsOrderly(sys.memory, id);
      var r := found.value;
      if PrReasons(Pass, url, skipReason, r.manifest.autoMerge, r.manifest.autoDeploy) == [] {
        OpenKeeps(id, r);
        SavesStored(sys, sys.disk, r.(state := PrGateState), PrOpened(url));
      }
    }
  }

  /** Every call saves at most one record, and only an orderly one. */
  lemma CallSaves(site: Site, root: Path, digest: string -> string, sys: System, call: Call)
    requires ContainsAttempts(site.runner, root, digest) && AllOrderly(sys.memory)
    ensures Saves(sys, Respond(site, sys, call).0, SavedBy(site, sys, call))
  {
    hide AllOrderly, Saves, SavedIn, ContainsAttempts, HandleCreate, HandlePlan, HandleExecute, HandleVerify, HandlePr;
    match call
    case CreateRun(m, freshId) => CreateSaves(sys, m, freshId);
    case PlanChain(id, q) => PlanSaves(sys, id, q);
    case ExecuteRun(id, q, path, w, resolve) => ExecuteSaves(site, root, digest, sys, id, q, path, w, resolve);
    case VerifyRun(id, report, ledger) => VerifySaves(sys, id, report, ledger);
    case OpenPr(id, url, skipReason) => OpenSaves(sys, id, url, skipReason);
  }

  lemma SavingKeeps(before: System, after: System, saved: Option<RunRecord>)
    requires AllOrderly(before.memory) && Saves(before, after, saved)
    ensures AllOrderly(after.memory)
  {
    hide Orderly;
  }

  // ------------------------------------------------------------------------ the saves of calls

  /** The saves that a sequence of calls makes, each at the time that the clock reads during its call. */
  function SavesOf(site: Site, disk: map<string, string>, clock: nat -> int, calls: seq<Call>): seq<Put> {
    if calls == [] then []
    else
      var before := calls[..|calls| - 1];
      var puts := SavesOf(site, disk, clock, before);
      match SavedBy(site, After(site, Initial(disk), before), calls[|calls| - 1])
      case None => puts
      case Some(r) => puts + [Put(r, clock(|before|))]
  }

  /** Later calls only add saves. */
  lemma {:induction false} SavesGrow(site: Site, disk: map<string, string>, clock: nat -> int, calls: seq<Call>, k: nat)
    requires k <= |calls|
    ensures SavesOf(site, disk, clock, calls[..k]) <= SavesOf(site, disk, clock, calls)
    decreases |calls|
  {
    hide SavedBy, After;
    if k < |calls| {
      var before := calls[..|calls| - 1];
      SavesGrow(site, disk, clock, before, k);
      assert before[..k] == calls[..k];
    } else {
      assert calls[..k] == calls;
    }
  }

  /** On a clock that is later at every call, the saves are in the order of their times. */
  lemma {:induction false} SavesTick(site: Site, disk: map<string, string>, clock: nat -> int, calls: seq<Call>)
    requires forall i: nat, j: nat | i < j :: clock(i) < clock(j)
    ensures Ticking(SavesOf(site, disk, clock, calls))
    ensures forall i | 0 <= i < |SavesOf(site, disk, clock, calls)| :: SavesOf(site, disk, clock, calls)[i].at < clock(|calls|)
    decreases |calls|
  {
    hide SavedBy, After;
    if calls != [] { SavesTick(site, disk, clock, calls[..|calls| - 1]); }
  }

  lemma PutsAfter(before: System, after: System, saved: Option<RunRecord>, puts: seq<Put>, now: int)
    requires Saves(before, after, saved) && AllPutsMinted(puts) && MemoryAfter(puts) == before.memory
    ensures var more := match saved case None => puts case Some(r) => puts + [Put(r, now)];
            AllPutsMinted(more) && MemoryAfter(more) == after.memory
  {
    hide Orderly, Minted, Remembered;
    if saved.Some? {
      OrderlyIsMinted(saved.value);
      var more := puts + [Put(saved.value, now)];
      assert more[..|more| - 1] == puts;
    }
  }

  /** The lifecycle invariant, over every sequence of calls and every clock; and what the calls save are
      minted records, which leave the memory that the calls leave. */
  lemma {:induction false} HistoriesAreOrderly(site: Site, root: Path, digest: string -> string, disk: map<string, string>,
                                               clock: nat -> int, calls: seq<Call>)
    requires ContainsAttempts(site.runner, root, digest)
    ensures AllOrderly(After(site, Initial(disk), calls).memory)
    ensures AllPutsMinted(SavesOf(site, disk, clock, calls))
    ensures MemoryAfter(SavesOf(site, disk, clock, calls)) == After(site, Initial(disk), calls).memory
    decreases |calls|
  {
    hide Respond, SavedBy, Saves, ContainsAttempts, AllOrderly, AllPutsMinted;
    if calls == [] {
      NothingSaved(disk);
    } else {
      var before, call := calls[..|calls| - 1], calls[|calls| - 1];
      HistoriesAreOrderly(site, root, digest, disk, clock, before);
      var sys := After(site, Initial(disk), before);
      CallSaves(site, root, digest, sys, call);
      SavingKeeps(sys, Respond(site, sys, call).0, SavedBy(site, sys, call));
      PutsAfter(sys, Respond(site, sys, call).0, SavedBy(site, sys, call), SavesOf(site, disk, clock, before), clock(|before|));
    }
  }

  lemma NothingSaved(disk: map<string, string>)
    ensures AllPutsMinted([]) && AllOrderly(Initial(disk).memory)
  {
  }

  lemma OrderlyAfter(site: Site, root: Path, digest: string -> string, disk: map<string, string>, calls: seq<Call>)
    requires ContainsAttempts(site.runner, root, digest)
    ensures AllOrderly(After(site, Initial(disk), calls).memory)
  {
    hide *;
    HistoriesAreOrderly(site, root, digest, disk, n => 0, calls);
  }

  lemma OrderlyIsMinted(r: RunRecord)
    requires Orderly(r.runId, r)
    ensures Minted(r)
  {
    hide Minted, ManifestReasons;
  }

  /** Over the durable store: at every point of every sequence of calls, what was saved so far violates no
      constraint of the tables, and reading any run from them gives the record of the memory, stripped. */
  lemma TablesFollow(site: Site, root: Path, digest: string -> string, disk: map<string, string>, clock: nat -> int,
                     calls: seq<Call>, k: nat, id: string)
    requires ContainsAttempts(site.runner, root, digest) && k <= |calls|
    ensures SavesOf(site, disk, clock, calls[..k]) <= SavesOf(site, disk, clock, calls)
    ensures DatabaseAfter(SavesOf(site, disk, clock, calls[..k])).Some?
    ensures Fetched(DatabaseAfter(SavesOf(site, disk, clock, calls[..k])).value, id) ==
            match Recall(After(site, Initial(disk), calls[..k]).memory, id)
            case None => None
            case Some(r) => Some(Stripped(r))
  {
    hide *;
    SavesGrow(site, disk, clock, calls, k);
    HistoriesAreOrderly(site, root, digest, disk, clock, calls[..k]);
    StoresAnswerAlike(SavesOf(site, disk, clock, calls[..k]), id);
  }

  // -------------------------------------------------------------------- what calls answer

  /** An execution is bound exactly when the request names this run or none, does not name another
      task than the manifest, and its envelope is admissible: for a stored run the manifest's own
      identity never stands in the way. */
  lemma BindingIsExact(id: string, r: RunRecord, q: Request)
    requires Orderly(id, r)
    ensures Bound(r, id, q).Ok? <==>
            && (q.runId == "" || q.runId == id)
            && (r.manifest.taskId == "" || q.taskId == "" || q.taskId == r.manifest.taskId)
            && q.envelopeReasons == []
    ensures Bound(r, id, q).Ok? ==> Bound(r, id, q).value.runId == id
  {
    hide Minted, ManifestReasons;
  }

  ghost predicate IndependentIds(report: VerifierReport) {
    report.codingRunId == "" || report.verifierRunId == "" || report.codingRunId != report.verifierRunId
  }

  lemma VerdictGatesExact(id: string, report: VerifierReport, ledger: Ledger)
    ensures VerdictGates(id, report, ledger) == ([], []) <==>
            Supports(ledger, id, report.taskId, []) && IndependentIds(report)
  {
    hide EvidenceReasons, SelfCertificationReasons, CertificationOf, AllSound, DistinctIds, AllPresent, IndependentIds;
    IndependenceExact(report, ledger);
    EvidenceGateExact(ledger, id, report.taskId, []);
  }

  lemma IndependenceExact(report: VerifierReport, ledger: Ledger)
    ensures SelfCertificationReasons(CertificationOf(report, ledger)) == [] <==>
            IndependentIds(report) && !ledger.selfCertificationUsed
  {
  }

  /** A reported PASS is stored as PASS exactly when the ledger that came with it is linked to the
      run, sound and without repeated ids, and the run ids differ; otherwise as FAIL. Any other
      decision is stored as reported. */
  lemma VerdictIsExact(sys: System, id: string, report: VerifierReport, ledger: Ledger)
    requires id in sys.memory.runs && sys.memory.runs[id].runId == id
    ensures var (after, answer) := HandleVerify(sys, id, report, ledger);
            && id in after.memory.runs
            && StoredDecision(after.memory.runs[id]) ==
               (if report.decision != Pass then report.decision
                else if Supports(ledger, id, report.taskId, []) && IndependentIds(report) then Pass else Fail)
  {
    hide VerdictGates, Supports, IndependentIds;
    VerdictGatesExact(id, report, ledger);
  }

  /** A pull request opens exactly on a stored PASS with a link or a reason to skip it. */
  lemma OpeningIsExact(sys: System, id: string, url: string, skipReason: string)
    requires AllOrderly(sys.memory)
    ensures HandlePr(sys, id, url, skipReason).1.PrOpened? <==>
            && id in sys.memory.runs && StoredDecision(sys.memory.runs[id]) == Pass
            && (url != "" || skipReason != "")
  {
    hide Minted;
    if id in sys.memory.runs {
      assert Orderly(id, sys.memory.runs[id]);
      AdmissibleIsHarmless(sys.memory.runs[id].manifest);
    }
  }

  // --------------------------------------------------------------- where a PASS comes from

  /** This call recorded a PASS for the run, and its gates passed then. */
  ghost predicate RecordsPass(call: Call, id: string) {
    && call.VerifyRun? && call.runId == id && call.report.decision == Pass
    && Supports(call.ledger, id, call.report.taskId, []) && IndependentIds(call.report)
  }

  predicate Verifies(call: Call, id: string) {
    call.VerifyRun? && call.runId == id
  }

  ghost predicate HasPass(m: Memory, id: string) {
    id in m.runs && StoredDecision(m.runs[id]) == Pass
  }

  ghost predicate SameReport(a: Memory, b: Memory, id: string) {
    id in a.runs && id in b.runs && a.runs[id].verifierReport == b.runs[id].verifierReport
  }

  lemma VerifyRecords(sys: System, id: string, report: VerifierReport, ledger: Ledger)
    requires AllOrderly(sys.memory)
    requires HasPass(HandleVerify(sys, id, report, ledger).0.memory, id)
    ensures RecordsPass(VerifyRun(id, report, ledger), id)
    ensures HandleVerify(sys, id, report, ledger).0.memory.runs[id].verifierReport == Some(report)
  {
    hide Supports, Minted, ManifestReasons, VerdictGates, IndependentIds;
    VerdictGatesExact(id, report, ledger);
    if id in sys.memory.runs {
      assert Orderly(id, sys.memory.runs[id]);
      VerdictIsExact(sys, id, report, ledger);
    }
  }

  lemma ExecuteKeepsReport(site: Site, sys: System, id: string, q: Request, path: string, w: World,
                           resolve: string -> Option<Workspace>, other: string)
    requires AllOrderly(sys.memory)
    requires HasPass(HandleExecute(site, sys, id, q, path, w, resolve).0.memory, other)
    ensures SameReport(sys.memory, HandleExecute(site, sys, id, q, path, w, resolve).0.memory, other)
  {
    hide Minted, ManifestReasons, Bound, SourcePath, BlockedResult, NextAttempt;
    if id in sys.memory.runs { assert Orderly(id, sys.memory.runs[id]); }
  }

  lemma OthersKeepReport(site: Site, sys: System, call: Call, id: string)
    requires AllOrderly(sys.memory) && !call.ExecuteRun? && !Verifies(call, id)
    requires HasPass(Respond(site, sys, call).0.memory, id)
    ensures SameReport(sys.memory, Respond(site, sys, call).0.memory, id)
  {
    hide Minted, ManifestReasons, VerdictGates, PrReasons, PlanOf, EffectiveDecision;
    if call.PlanChain? || call.VerifyRun? || call.OpenPr? {
      if call.runId in sys.memory.runs { assert Orderly(call.runId, sys.memory.runs[call.runId]); }
    }
  }

  lemma OnlyVerifyingReports(site: Site, sys: System, call: Call, id: string)
    requires AllOrderly(sys.memory) && !Verifies(call, id) && HasPass(Respond(site, sys, call).0.memory, id)
    ensures SameReport(sys.memory, Respond(site, sys, call).0.memory, id)
  {
    hide AllOrderly, HasPass, SameReport, HandleExecute;
    if call.ExecuteRun? {
      ExecuteKeepsReport(site, sys, call.runId, call.request, call.path, call.world, call.resolve, id);
    } else {
      OthersKeepReport(site, sys, call, id);
    }
  }

  lemma PassCarries(a: Memory, b: Memory, id: string)
    requires HasPass(b, id) && SameReport(a, b, id)
    ensures HasPass(a, id)
  {
  }

  /** Wherever a PASS is stored, the last verification of that run recorded it, and the
      self-certification and evidence gates passed when it did. */
  lemma {:induction false} PassWasRecorded(site: Site, root: Path, digest: string -> string, disk: map<string, string>,
                                           calls: seq<Call>, id: string) returns (k: nat)
    requires ContainsAttempts(site.runner, root, digest)
    requires HasPass(After(site, Initial(disk), calls).memory, id)
    ensures k < |calls| && RecordsPass(calls[k], id)
    ensures forall j | k < j < |calls| :: !Verifies(calls[j], id)
    decreases |calls|
  {
    hide Respond, ContainsAttempts, HasPass, SameReport, AllOrderly, RecordsPass;
    if calls == [] {
      NothingStored(disk, id);
    } else {
      var before, call := calls[..|calls| - 1], calls[|calls| - 1];
      var sys := After(site, Initial(disk), before);
      OrderlyAfter(site, root, digest, disk, before);
      if Verifies(call, id) {
        VerifyCallRecords(site, sys, call, id);
        k := |calls| - 1;
      } else {
        OnlyVerifyingReports(site, sys, call, id);
        PassCarries(sys.memory, Respond(site, sys, call).0.memory, id);
        k := PassWasRecorded(site, root, digest, disk, before, id);
      }
    }
  }

  lemma VerifyCallRecords(site: Site, sys: System, call: Call, id: string)
    requires AllOrderly(sys.memory) && Verifies(call, id) && HasPass(Respond(site, sys, call).0.memory, id)
    ensures RecordsPass(call, id)
  {
    hide AllOrderly, RecordsPass, HasPass;
    VerifyRecords(sys, id, call.report, call.ledger);
  }

  lemma NothingStored(disk: map<string, string>, id: string)
    ensures !HasPass(Initial(disk).memory, id)
  {
  }

  /** The stored PASS need not rest on any evidence: a linked ledger without entries is enough, and a
      run that was never executed can have its pull request opened. */
  lemma EmptyLedgerOpensPr(site: Site, disk: map<string, string>, m: Manifest, id: string, report: VerifierReport)
    requires ManifestReasons(m) == [] && m.runId == id != ""
    requires report.decision == Pass && report.taskId != "" && IndependentIds(report)
    ensures var empty := Ledger(report.taskId, id, [], Pending, false);
            var calls := [CreateRun(m, ""), VerifyRun(id, report, empty), OpenPr(id, "", "no remote")];
            var runs := After(site, Initial(disk), calls).memory.runs;
            id in runs && runs[id].state == PrGateState && runs[id].attempts == []
  {
    hide VerdictGates, IndependentIds, ManifestReasons;
    var empty := Ledger(report.taskId, id, [], Pending, false);
    var calls := [CreateRun(m, ""), VerifyRun(id, report, empty), OpenPr(id, "", "no remote")];
    assert calls[..2] == [CreateRun(m, ""), VerifyRun(id, report, empty)] && calls[..2][..1] == [CreateRun(m, "")];
    assert calls[..2][..1][..0] == [];
    var s1 := Respond(site, Initial(disk), calls[0]).0;
    var s2 := Respond(site, s1, calls[1]).0;
    VerdictIsExact(s1, id, report, empty);
    AdmissibleIsHarmless(m);
    assert After(site, Initial(disk), calls[..2][..1]) == s1;
    assert After(site, Initial(disk), calls[..2]) == s2;
    assert s2.memory.runs[id].manifest == m && s2.memory.runs[id].attempts == [];
    assert After(site, Initial(disk), calls) == Respond(site, s2, calls[2]).0;
  }

}
