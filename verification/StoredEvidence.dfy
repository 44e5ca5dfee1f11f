/** The stored evidence of all runs, on one disk, over every sequence of API calls; and the API over
    a store that drops what snapshots drop. */
module StoredEvidence {
  import opened Core
  import opened Text
  import opened Gates
  import opened ArtifactStore
  import opened Context
  import opened Handlers
  import opened Footprint
  import opened Runtime
  import opened Records
  import opened RunStore
  import opened Lifecycle
  import opened LifecycleLaws

  // ------------------------------------------------------------------- files of other attempts

  function DirOf(root: Path, id: string, attemptId: string): Path {
    RunDir(root, id, Some(attemptId))
  }

  /** Attempts of runs in different places keep their files in directories of their own. */
  lemma DirsApart(root: Path, r1: string, n1: nat, r2: string, n2: nat, path: string)
    requires WellFormed(root) && (SamePlace(root, r1, r2) ==> r1 == r2) && !(r1 == r2 && n1 == n2)
    requires InDir(DirOf(root, r1, AttemptId(r1, n1)), path)
    ensures !InDir(DirOf(root, r2, AttemptId(r2, n2)), path)
  {
    hide AttemptId, RunDir, Join, Render, WellFormed, SamePlace;
    var f1: string :| FileName(f1) && path == Render(Join(DirOf(root, r1, AttemptId(r1, n1)), f1));
    forall f2: string | FileName(f2) ensures path != Render(Join(DirOf(root, r2, AttemptId(r2, n2)), f2)) {
      FilesApart(root, r1, n1, f1, r2, n2, f2);
    }
  }

  lemma FilesApart(root: Path, r1: string, n1: nat, f1: string, r2: string, n2: nat, f2: string)
    requires WellFormed(root) && (SamePlace(root, r1, r2) ==> r1 == r2) && !(r1 == r2 && n1 == n2)
    requires FileName(f1) && FileName(f2)
    ensures Render(Join(DirOf(root, r1, AttemptId(r1, n1)), f1)) != Render(Join(DirOf(root, r2, AttemptId(r2, n2)), f2))
  {
    hide AttemptId, RunDir, Join, Render, WellFormed, SamePlace, FileName;
    AttemptFilesCoincide(root, r1, n1, f1, r2, n2, f2);
  }

  /** A stored artifact stands in the directory of its attempt. */
  ghost predicate Filed(root: Path, digest: string -> string, disk: map<string, string>, id: string, a: Artifact) {
    a.attemptId.Some? && Stands(disk, digest, a) && InDir(DirOf(root, id, a.attemptId.value), a.path)
  }

  ghost predicate AllFiled(root: Path, digest: string -> string, disk: map<string, string>, id: string, artifacts: seq<Artifact>) {
    forall i | 0 <= i < |artifacts| :: Filed(root, digest, disk, id, artifacts[i])
  }

  /** Every artifact of every stored run still is what it was recorded to be: its file is there, and
      the bytes in it have its hash. */
  ghost predicate Intact(root: Path, digest: string -> string, sys: System) {
    forall id | id in sys.memory.runs :: AllFiled(root, digest, sys.disk, id, sys.memory.runs[id].artifacts)
  }

  /** No two of these run ids name the same place. */
  ghost predicate NoTwins(root: Path, ids: iset<string>) {
    forall a, b | a in ids && b in ids :: SamePlace(root, a, b) ==> a == b
  }

  /** Only runs with these ids have artifacts. */
  ghost predicate IdsWithin(m: Memory, ids: iset<string>) {
    forall id | id in m.runs :: m.runs[id].artifacts != [] ==> id in ids
  }

  /** The call executes no other run. */
  ghost predicate Within(ids: iset<string>, call: Call) {
    call.ExecuteRun? ==> call.runId in ids
  }

  lemma FiledElsewhere(root: Path, digest: string -> string, dir: Path, before: map<string, string>, after: map<string, string>,
                       id: string, a: Artifact)
    requires Filed(root, digest, before, id, a) && LeftAlone(dir, before, after) && !InDir(dir, a.path)
    ensures Filed(root, digest, after, id, a)
  {
    hide InDir, RunDir;
    assert SameBytes(before, after, a.path);
  }

  /** An artifact of a minted record names one of its attempts. */
  lemma AttemptOfArtifact(r: RunRecord, i: nat) returns (n: nat)
    requires Minted(r) && i < |r.artifacts|
    ensures 1 <= n <= |r.attempts| && r.artifacts[i].attemptId == Some(AttemptId(r.runId, n))
  {
    hide AttemptId;
    assert NamesAttempt(r, r.artifacts[i].attemptId);
    var k :| 0 <= k < |r.attempts| && r.attempts[k].attemptId == r.artifacts[i].attemptId.value;
    n := k + 1;
  }

  /** Running the next attempt of one run leaves the stored artifacts of every run filed. */
  lemma OthersStayFiled(root: Path, digest: string -> string, before: map<string, string>, after: map<string, string>,
                        running: RunRecord, r: RunRecord, i: nat)
    requires WellFormed(root) && (SamePlace(root, r.runId, running.runId) ==> r.runId == running.runId) && Minted(r) && i < |r.artifacts|
    requires r.runId == running.runId ==> r == running
    requires LeftAlone(DirOf(root, running.runId, NextAttempt(running)), before, after)
    requires Filed(root, digest, before, r.runId, r.artifacts[i])
    ensures Filed(root, digest, after, r.runId, r.artifacts[i])
  {
    hide AttemptId, WellFormed, SamePlace, Minted, InDir, RunDir, Stands, LeftAlone;
    var n := AttemptOfArtifact(r, i);
    DirsApart(root, r.runId, n, running.runId, |running.attempts| + 1, r.artifacts[i].path);
    FiledElsewhere(root, digest, DirOf(root, running.runId, NextAttempt(running)), before, after, r.runId, r.artifacts[i]);
  }

  lemma AllStayFiled(root: Path, digest: string -> string, before: map<string, string>, after: map<string, string>,
                     running: RunRecord, r: RunRecord)
    requires WellFormed(root) && (SamePlace(root, r.runId, running.runId) ==> r.runId == running.runId) && Minted(r)
    requires r.runId == running.runId ==> r == running
    requires LeftAlone(DirOf(root, running.runId, NextAttempt(running)), before, after)
    requires AllFiled(root, digest, before, r.runId, r.artifacts)
    ensures AllFiled(root, digest, after, r.runId, r.artifacts)
  {
    hide NextAttempt, DirOf, WellFormed, SamePlace, Minted, LeftAlone, Filed;
    forall i | 0 <= i < |r.artifacts| ensures Filed(root, digest, after, r.runId, r.artifacts[i]) {
      OthersStayFiled(root, digest, before, after, running, r, i);
    }
  }

  lemma NewAreFiled(root: Path, digest: string -> string, disk: map<string, string>, id: string, attemptId: string, artifacts: seq<Artifact>)
    requires AllPlaced(DirOf(root, id, attemptId), digest, attemptId, disk, artifacts)
    ensures AllFiled(root, digest, disk, id, artifacts)
  {
    hide InDir, RunDir, Stands;
    forall i | 0 <= i < |artifacts| ensures Filed(root, digest, disk, id, artifacts[i]) {
      assert Placed(DirOf(root, id, attemptId), digest, attemptId, disk, artifacts[i]);
    }
  }

  lemma BothFiled(root: Path, digest: string -> string, disk: map<string, string>, id: string, a: seq<Artifact>, b: seq<Artifact>)
    requires AllFiled(root, digest, disk, id, a) && AllFiled(root, digest, disk, id, b)
    ensures AllFiled(root, digest, disk, id, a + b)
  {
    hide Filed;
  }

  // ------------------------------------------------------------------------------ one call

  lemma AttemptStaysIntact(site: Site, root: Path, digest: string -> string, ids: iset<string>, sys: System, r: RunRecord, q: Request, w: World,
                           workspace: Option<Workspace>)
    requires WellFormed(root) && ContainsAttempts(site.runner, root, digest)
    requires AllOrderly(sys.memory) && IdsWithin(sys.memory, ids) && NoTwins(root, ids) && Intact(root, digest, sys)
    requires Recall(sys.memory, q.runId) == Some(r) && q.runId in ids
    ensures Intact(root, digest, Attempted(site, sys, r, q, w, workspace).0)
    ensures IdsWithin(Attempted(site, sys, r, q, w, workspace).0.memory, ids)
  {
    hide ContainsAttempts, NextAttempt, WellFormed, Orderly, Slashless, AllFiled, BlockedResult, Contained, NamesNext, Harmless,
         LeftAlone, AllPlaced, DirOf;
    RecalledIsOrderly(sys.memory, q.runId);
    if workspace.Some? {
      var out := site.runner(sys.disk, q, NextAttempt(r), w, Some(workspace.value.tree));
      RunnerNames(site, root, digest, sys.disk, r, q, w, Some(workspace.value.tree));
      ContainedParts(root, digest, q.runId, NextAttempt(r), sys.disk, out);
      forall id | id in sys.memory.runs ensures AllFiled(root, digest, out.disk, id, sys.memory.runs[id].artifacts) {
        RecalledIsOrderly(sys.memory, id);
        RecordsStayFiled(root, digest, ids, sys, out.disk, r, id);
      }
      NewAreFiled(root, digest, out.disk, q.runId, NextAttempt(r), out.result.evidenceArtifacts);
      BothFiled(root, digest, out.disk, q.runId, r.artifacts, out.result.evidenceArtifacts);
    }
  }

  lemma ContainedParts(root: Path, digest: string -> string, id: string, attemptId: string, disk: map<string, string>, out: Outcome)
    requires Contained(RunDir(root, id, Some(attemptId)), digest, attemptId, disk, out)
    ensures LeftAlone(DirOf(root, id, attemptId), disk, out.disk)
    ensures AllPlaced(DirOf(root, id, attemptId), digest, attemptId, out.disk, out.result.evidenceArtifacts)
  {
    hide LeftAlone, AllPlaced, RunDir;
  }

  lemma RecordsStayFiled(root: Path, digest: string -> string, ids: iset<string>, sys: System, after: map<string, string>, running: RunRecord, id: string)
    requires WellFormed(root) && AllOrderly(sys.memory) && IdsWithin(sys.memory, ids) && NoTwins(root, ids) && Intact(root, digest, sys)
    requires Recall(sys.memory, running.runId) == Some(running) && running.runId in ids && id in sys.memory.runs
    requires LeftAlone(DirOf(root, running.runId, NextAttempt(running)), sys.disk, after)
    ensures AllFiled(root, digest, after, id, sys.memory.runs[id].artifacts)
  {
    hide NextAttempt, DirOf, WellFormed, Slashless, LeftAlone, AllFiled, Orderly;
    RecalledIsOrderly(sys.memory, id);
    var r := sys.memory.runs[id];
    assert Orderly(id, r);
    OrderlyIsMinted(r);
    if r.artifacts == [] {
      NothingFiled(root, digest, after, id);
    } else {
      AllStayFiled(root, digest, sys.disk, after, running, r);
    }
  }

  lemma NothingFiled(root: Path, digest: string -> string, disk: map<string, string>, id: string)
    ensures AllFiled(root, digest, disk, id, [])
  {
  }

  lemma OtherCallsStayIntact(site: Site, root: Path, digest: string -> string, ids: iset<string>, sys: System, call: Call)
    requires IdsWithin(sys.memory, ids) && Intact(root, digest, sys) && AllOrderly(sys.memory) && !call.ExecuteRun?
    ensures Intact(root, digest, Respond(site, sys, call).0) && IdsWithin(Respond(site, sys, call).0.memory, ids)
  {
    hide Slashless, Filed, ManifestReasons, VerdictGates, PrReasons, PlanOf, EffectiveDecision, Minted;
    if call.PlanChain? || call.VerifyRun? || call.OpenPr? {
      if call.runId in sys.memory.runs { assert Orderly(call.runId, sys.memory.runs[call.runId]); }
    }
  }

  lemma ExecuteStaysIntact(site: Site, root: Path, digest: string -> string, ids: iset<string>, sys: System, id: string, q: Request, path: string,
                           w: World, resolve: string -> Option<Workspace>)
    requires WellFormed(root) && ContainsAttempts(site.runner, root, digest) && id in ids
    requires AllOrderly(sys.memory) && IdsWithin(sys.memory, ids) && NoTwins(root, ids) && Intact(root, digest, sys)
    ensures Intact(root, digest, HandleExecute(site, sys, id, q, path, w, resolve).0)
    ensures IdsWithin(HandleExecute(site, sys, id, q, path, w, resolve).0.memory, ids)
  {
    hide AllOrderly, Orderly, ContainsAttempts, Attempted, Bound, SourcePath, Recall, WellFormed, Intact, IdsWithin, NoTwins;
    var found := Recall(sys.memory, id);
    if found.Some? && Bound(found.value, id, q).Ok? && SourcePath(site, path).Ok? {
      RecalledIsOrderly(sys.memory, id);
      BindingIsExact(id, found.value, q);
      AttemptStaysIntact(site, root, digest, ids, sys, found.value, Bound(found.value, id, q).value, w,
                         resolve(SourcePath(site, path).value));
    }
  }

  lemma CallStaysIntact(site: Site, root: Path, digest: string -> string, ids: iset<string>, sys: System, call: Call)
    requires WellFormed(root) && ContainsAttempts(site.runner, root, digest) && Within(ids, call)
    requires AllOrderly(sys.memory) && IdsWithin(sys.memory, ids) && NoTwins(root, ids) && Intact(root, digest, sys)
    ensures Intact(root, digest, Respond(site, sys, call).0) && IdsWithin(Respond(site, sys, call).0.memory, ids)
  {
    hide AllOrderly, ContainsAttempts, WellFormed, Intact, IdsWithin, NoTwins, HandleExecute;
    if call.ExecuteRun? {
      ExecuteStaysIntact(site, root, digest, ids, sys, call.runId, call.request, call.path, call.world, call.resolve);
    } else {
      OtherCallsStayIntact(site, root, digest, ids, sys, call);
    }
  }

  ghost predicate AllWithin(ids: iset<string>, calls: seq<Call>) {
    forall i | 0 <= i < |calls| :: Within(ids, calls[i])
  }

  /** Over every sequence of calls that executes runs of which no two have ids that name the same place,
      every artifact of every stored run keeps its file with the bytes it was hashed from: no attempt
      ever writes over the evidence of another that is still on record. */
  lemma {:induction false} EvidenceStaysOnDisk(site: Site, root: Path, digest: string -> string, ids: iset<string>,
                                               disk: map<string, string>, calls: seq<Call>)
    requires WellFormed(root) && ContainsAttempts(site.runner, root, digest) && NoTwins(root, ids) && AllWithin(ids, calls)
    ensures Intact(root, digest, After(site, Initial(disk), calls)) && IdsWithin(After(site, Initial(disk), calls).memory, ids)
    decreases |calls|
  {
    hide Respond, ContainsAttempts, WellFormed, AllOrderly, Intact, IdsWithin, NoTwins, Within;
    if calls == [] {
      InitiallyIntact(root, digest, ids, disk);
    } else {
      var before, call := calls[..|calls| - 1], calls[|calls| - 1];
      EvidenceStaysOnDisk(site, root, digest, ids, disk, before);
      OrderlyAfter(site, root, digest, disk, before);
      CallStaysIntact(site, root, digest, ids, After(site, Initial(disk), before), call);
    }
  }

  lemma InitiallyIntact(root: Path, digest: string -> string, ids: iset<string>, disk: map<string, string>)
    ensures Intact(root, digest, Initial(disk)) && IdsWithin(Initial(disk).memory, ids)
  {
  }

  // ---------------------------------------------------------------- over a stripping store

  /** The memory as the durable store would hand it out. */
  function StrippedMemory(m: Memory): Memory {
    Memory(m.order, map id | id in m.runs :: Stripped(m.runs[id]))
  }

  function StrippedSystem(sys: System): System {
    sys.(memory := StrippedMemory(sys.memory))
  }

  lemma RecallStripped(m: Memory, id: string)
    ensures Recall(StrippedMemory(m), id) == match Recall(m, id)
                                            case None => None
                                            case Some(r) => Some(Stripped(r))
  {
  }

  /** Records that a store cannot tell apart. */
  ghost predicate Alike(r: RunRecord, s: RunRecord) {
    Stripped(r) == Stripped(s)
  }

  lemma StoreStripped(m: Memory, r: RunRecord, s: RunRecord)
    requires Alike(r, s) && r.runId == s.runId
    ensures StrippedMemory(Remembered(StrippedMemory(m), s)) == StrippedMemory(Remembered(m, r))
  {
    hide Stripped;
    var a, b := StrippedMemory(Remembered(StrippedMemory(m), s)), StrippedMemory(Remembered(m, r));
    forall id: string | id in a.runs ensures id in b.runs && a.runs[id] == b.runs[id] {
      if id != r.runId && id in m.runs { StrippedTwice(m.runs[id]); }
    }
    assert a.runs.Keys == b.runs.Keys;
  }

  lemma StrippedTwice(r: RunRecord)
    ensures Stripped(Stripped(r)) == Stripped(r) && Stripped(r).runId == r.runId
  {
  }

  /** The same answers, the same disk, and memories that read alike. */
  ghost predicate Matches(a: (System, Answer), b: (System, Answer)) {
    a.1 == b.1 && a.0.disk == b.0.disk && StrippedMemory(a.0.memory) == StrippedMemory(b.0.memory)
  }

  lemma StoredMatches(sys: System, disk: map<string, string>, r: RunRecord, s: RunRecord, answer: Answer)
    requires Alike(r, s) && r.runId == s.runId
    ensures Matches((Stored(System(StrippedMemory(sys.memory), disk), s), answer), (Stored(System(sys.memory, disk), r), answer))
  {
    hide Alike, StrippedMemory, Remembered;
    StoreStripped(sys.memory, r, s);
  }

  lemma UnchangedMatches(sys: System, answer: Answer)
    ensures Matches((StrippedSystem(sys), answer), (sys, answer))
  {
    hide Stripped;
    forall id: string | id in sys.memory.runs ensures Stripped(Stripped(sys.memory.runs[id])) == Stripped(sys.memory.runs[id]) {
      StrippedTwice(sys.memory.runs[id]);
    }
    assert StrippedMemory(StrippedMemory(sys.memory)).runs == StrippedMemory(sys.memory).runs;
  }

  lemma CreateMatches(sys: System, m: Manifest, freshId: string)
    ensures Matches(HandleCreate(StrippedSystem(sys), m, freshId), HandleCreate(sys, m, freshId))
  {
    hide Matches, StrippedMemory, ManifestReasons;
    UnchangedMatches(sys, Unprocessable(ManifestReasons(m)));
    var r := NewRecord(Or(m.runId, freshId), m);
    StoredMatches(sys, sys.disk, r, r, Created(Or(m.runId, freshId)));
  }

  lemma PlanMatches(sys: System, id: string, q: Request)
    ensures Matches(HandlePlan(StrippedSystem(sys), id, q), HandlePlan(sys, id, q))
  {
    hide Matches, StrippedMemory, Recall, PlanOf, Alike, Stripped;
    RecallStripped(sys.memory, id);
    UnchangedMatches(sys, NotFound);
    var found := Recall(sys.memory, id);
    if found.Some? {
      var r, plan := found.value, PlanOf(id, q);
      PlanAlike(r, plan);
      StoredMatches(sys, sys.disk, r.(chainResult := Some(plan)), Stripped(r).(chainResult := Some(plan)), Planned(plan));
    }
  }

  lemma PlanAlike(r: RunRecord, plan: Plan)
    ensures Alike(r.(chainResult := Some(plan)), Stripped(r).(chainResult := Some(plan)))
    ensures Stripped(r).runId == r.runId
  {
  }

  lemma VerifyMatches(sys: System, id: string, report: VerifierReport, ledger: Ledger)
    ensures Matches(HandleVerify(StrippedSystem(sys), id, report, ledger), HandleVerify(sys, id, report, ledger))
  {
    hide Matches, StrippedMemory, Recall, VerdictGates, EffectiveDecision, Alike, Stripped, WithReport;
    RecallStripped(sys.memory, id);
    UnchangedMatches(sys, NotFound);
    var found := Recall(sys.memory, id);
    if found.Some? {
      var r := found.value;
      var (self, evidence) := VerdictGates(id, report, ledger);
      var effective := EffectiveDecision(report, self == [] && evidence == []);
      ReportAlike(r, report, effective);
      StoredMatches(sys, sys.disk, WithReport(r, report, effective), WithReport(Stripped(r), report, effective),
                    Verified(effective, self, evidence));
    }
  }

  lemma ReportAlike(r: RunRecord, report: VerifierReport, effective: Decision)
    ensures Alike(WithReport(r, report, effective), WithReport(Stripped(r), report, effective))
    ensures WithReport(Stripped(r), report, effective).runId == WithReport(r, report, effective).runId
  {
  }

  lemma OpenMatches(sys: System, id: string, url: string, skipReason: string)
    ensures Matches(HandlePr(StrippedSystem(sys), id, url, skipReason), HandlePr(sys, id, url, skipReason))
  {
    hide Matches, StrippedMemory, Recall, PrReasons, Alike, Stripped, StoredDecision;
    RecallStripped(sys.memory, id);
    UnchangedMatches(sys, NotFound);
    UnchangedMatches(sys, Refused);
    var found := Recall(sys.memory, id);
    if found.Some? {
      var r := found.value;
      OpenAlike(r);
      UnchangedMatches(sys, Unprocessable(PrReasons(Pass, url, skipReason, r.manifest.autoMerge, r.manifest.autoDeploy)));
      StoredMatches(sys, sys.disk, r.(state := PrGateState), Stripped(r).(state := PrGateState), PrOpened(url));
    }
  }

  lemma OpenAlike(r: RunRecord)
    ensures Alike(r.(state := PrGateState), Stripped(r).(state := PrGateState))
    ensures StoredDecision(Stripped(r)) == StoredDecision(r) && Stripped(r).manifest == r.manifest && Stripped(r).runId == r.runId
  {
  }

  lemma ResultAlike(r: RunRecord, result: ChainExecutionResult, ws: Workspace)
    ensures Alike(WithResult(r, result), WithResult(Stripped(r), result))
    ensures WithResult(Stripped(r), result).runId == WithResult(r, result).runId
    ensures Alike(WithResult(WithAttempt(r, ws, result), result), WithResult(WithAttempt(Stripped(r), ws, result), result))
    ensures WithResult(WithAttempt(Stripped(r), ws, result), result).runId == WithResult(WithAttempt(r, ws, result), result).runId
    ensures NextAttempt(Stripped(r)) == NextAttempt(r) && Stripped(r).runId == r.runId
  {
    hide AttemptId;
  }

  lemma AttemptMatches(site: Site, sys: System, r: RunRecord, q: Request, w: World, workspace: Option<Workspace>)
    ensures Matches(Attempted(site, StrippedSystem(sys), Stripped(r), q, w, workspace), Attempted(site, sys, r, q, w, workspace))
  {
    hide Matches, StrippedMemory, Alike, Stripped, WithResult, WithAttempt, BlockedResult, NextAttempt;
    match workspace
    case None =>
      var result := BlockedResult(r.runId, q);
      ResultAlike(r, result, Workspace(None, map[]));
      StoredMatches(sys, sys.disk, WithResult(r, result), WithResult(Stripped(r), result), Executed(result));
    case Some(ws) =>
      var out := site.runner(sys.disk, q, NextAttempt(r), w, Some(ws.tree));
      ResultAlike(r, out.result, ws);
      StoredMatches(sys, out.disk, WithResult(WithAttempt(r, ws, out.result), out.result),
                    WithResult(WithAttempt(Stripped(r), ws, out.result), out.result), Executed(out.result));
  }

  lemma ExecuteMatches(site: Site, sys: System, id: string, q: Request, path: string, w: World, resolve: string -> Option<Workspace>)
    ensures Matches(HandleExecute(site, StrippedSystem(sys), id, q, path, w, resolve), HandleExecute(site, sys, id, q, path, w, resolve))
  {
    hide Matches, StrippedMemory, Recall, Stripped, Attempted, SourcePath;
    RecallStripped(sys.memory, id);
    UnchangedMatches(sys, NotFound);
    var found := Recall(sys.memory, id);
    if found.Some? {
      OpenAlike(found.value);
      var bound, source := Bound(found.value, id, q), SourcePath(site, path);
      assert Bound(Stripped(found.value), id, q) == bound;
      if bound.Err? {
        UnchangedMatches(sys, Unprocessable(bound.error));
      } else if source.Err? {
        UnchangedMatches(sys, Unprocessable(source.error));
      } else {
        AttemptMatches(site, sys, found.value, bound.value, w, resolve(source.value));
      }
    }
  }

  /** One call over records that lost what snapshots drop: it answers the same, leaves the same disk, and
      saves a record that reads the same. */
  lemma CallsMatch(site: Site, sys: System, call: Call)
    ensures Matches(Respond(site, StrippedSystem(sys), call), Respond(site, sys, call))
  {
    hide Matches, StrippedSystem, HandleCreate, HandlePlan, HandleExecute, HandleVerify, HandlePr;
    match call
    case CreateRun(m, freshId) => CreateMatches(sys, m, freshId);
    case PlanChain(id, q) => PlanMatches(sys, id, q);
    case ExecuteRun(id, q, path, w, resolve) => ExecuteMatches(site, sys, id, q, path, w, resolve);
    case VerifyRun(id, report, ledger) => VerifyMatches(sys, id, report, ledger);
    case OpenPr(id, url, skipReason) => OpenMatches(sys, id, url, skipReason);
  }

  // ------------------------------------------------------------------- over the durable store

  /** The system over the durable store: whatever is saved is read back as the snapshot has it. */
  function DurableAfter(site: Site, sys: System, calls: seq<Call>): System {
    if calls == [] then StrippedSystem(sys)
    else StrippedSystem(Respond(site, DurableAfter(site, sys, calls[..|calls| - 1]), calls[|calls| - 1]).0)
  }

  /** What a sequence of calls is answered. */
  function AnswersTo(site: Site, sys: System, calls: seq<Call>): seq<Answer> {
    if calls == [] then []
    else AnswersTo(site, sys, calls[..|calls| - 1])
         + [Respond(site, After(site, sys, calls[..|calls| - 1]), calls[|calls| - 1]).1]
  }

  function DurableAnswers(site: Site, sys: System, calls: seq<Call>): seq<Answer> {
    if calls == [] then []
    else DurableAnswers(site, sys, calls[..|calls| - 1])
         + [Respond(site, DurableAfter(site, sys, calls[..|calls| - 1]), calls[|calls| - 1]).1]
  }

  lemma MatchingSystems(a: (System, Answer), b: (System, Answer))
    requires Matches(a, b)
    ensures StrippedSystem(a.0) == StrippedSystem(b.0) && a.1 == b.1
  {
    hide StrippedMemory;
  }

  /** No caller of the API can tell the two stores apart: over every sequence of calls the durable store
      gives the same answers and leaves the same disk as the memory, and holds the memory's records as
      snapshots have them. */
  lemma {:induction false} StoresAreInterchangeable(site: Site, sys: System, calls: seq<Call>)
    ensures DurableAnswers(site, sys, calls) == AnswersTo(site, sys, calls)
    ensures DurableAfter(site, sys, calls) == StrippedSystem(After(site, sys, calls))
    decreases |calls|
  {
    hide Respond, Matches, StrippedSystem;
    if calls != [] {
      var before, call := calls[..|calls| - 1], calls[|calls| - 1];
      StoresAreInterchangeable(site, sys, before);
      var here := After(site, sys, before);
      CallsMatch(site, here, call);
      MatchingSystems(Respond(site, StrippedSystem(here), call), Respond(site, here, call));
    }
  }
}
