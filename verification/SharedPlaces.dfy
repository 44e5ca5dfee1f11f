/** Runs that share a place on disk: the evidence of stored runs survives every sequence of calls exactly
    when no two of the run ids in use name the same place. */
module SharedPlaces {
  import opened Core
  import opened Text
  import opened ArtifactStore
  import opened Names
  import opened Evidence
  import opened Context
  import opened Executor
  import opened Registry
  import opened Handlers
  import opened ChainRuns
  import opened PassingRuns
  import opened Footprint
  import opened Runtime
  import opened Records
  import opened RunStore
  import opened Lifecycle
  import opened StoredEvidence

  /** A request for a change, as it comes in: it names no run. */
  function Incoming(): Request {
    SampleRequest(ImplementationChain).(runId := "")
  }

  /** The same request bound to a run. */
  function BoundTo(id: string): Request {
    SampleRequest(ImplementationChain).(runId := id)
  }

  const TREE: Snapshot := map["file" := "hash"]

  /** A world in which the verifier reports this, on a tree that stays as it is. The other files say the same
      in all such worlds. */
  function Saying(report: string): World {
    SampleWorld((n: Name) => if n == Verdict(VerifierReportFile) then report else "", TREE, Some(TREE))
  }

  function PlainManifest(id: string): Manifest {
    Manifest(id, "", false, false, [])
  }

  function Creation(id: string): Call {
    CreateRun(PlainManifest(id), "")
  }

  function Execution(id: string, report: string): Call {
    ExecuteRun(id, Incoming(), "", Saying(report), (path: string) => Some(Workspace(None, TREE)))
  }

  /** Create two runs, then execute each of them once. */
  function TwoExecutions(a: string, b: string, x: string, y: string): seq<Call> {
    [Creation(a), Creation(b), Execution(a, x), Execution(b, y)]
  }

  // ------------------------------------------------------------------------------ one execution

  function ReportFile(c: Configuration, id: string): string {
    AttemptFile(c.artifacts, id, 1, c.naming(Verdict(VerifierReportFile)))
  }

  /** What the first attempt of a run comes to, on a disk, in such a world. */
  function FirstOutcome(c: Configuration, disk: map<string, string>, id: string, report: string): Outcome {
    RunnerOf(c)(disk, BoundTo(id), AttemptId(id, 1), Saying(report), Some(TREE))
  }

  lemma BoundFits(id: string, report: string)
    requires id != ""
    ensures Complete(BoundTo(id)) && Kind(Saying(report), BoundTo(id)) && Suits(ImplementationChain, BoundTo(id))
    ensures Undisturbed(Saying(report).repoAfter, Some(TREE)) && Resolve(BoundTo(id).taskType) == ImplementationChain
    ensures Saying(report).text(Verdict(VerifierReportFile)) == report
  {
    RequestFits(ImplementationChain);
    SamplesFit(ImplementationChain, Saying(report).text, Some(TREE), Some(TREE));
  }

  lemma ReportPath(c: Configuration, disk: map<string, string>, id: string, w: World)
    ensures var l := LaunchOf(c, disk, BoundTo(id), AttemptId(id, 1), w, Some(TREE));
            PathOf(l.start.ev, Verdict(VerifierReportFile)) == ReportFile(c, id) && l.start.ev.store.digest == c.digest
  {
    hide EffectsIn, DefaultRegistry, CheckpointSaver, ChainOf, Resolve, AttemptId, Join, Render;
  }

  lemma LaunchIsNew(c: Configuration, disk: map<string, string>, q: Request, attemptId: string, w: World)
    requires Resolve(q.taskType) == ImplementationChain
    ensures LaunchOf(c, disk, q, attemptId, w, Some(TREE))
            == NewLaunch(ImplementationChain, w, c.checkpoint, q, Store(c.artifacts, Some(attemptId), c.digest, disk), c.naming, Some(TREE), None)
  {
    hide NewLaunch, Resolve;
  }

  lemma OutcomeIsEnd(c: Configuration, disk: map<string, string>, id: string, report: string)
    ensures var l := LaunchOf(c, disk, BoundTo(id), AttemptId(id, 1), Saying(report), Some(TREE));
            FirstOutcome(c, disk, id, report).result.evidenceArtifacts == End(l).ctx.ev.artifacts
  {
    hide LaunchOf, End, VerdictOf, Resolve, AttemptId, BoundTo, Saying;
  }

  /** Its artifacts include the verifier's report, with the hash of what it says. */
  lemma FirstOutcomeReports(c: Configuration, disk: map<string, string>, id: string, report: string)
    requires WellFormed(c.artifacts) && id != ""
    ensures HasArtifact(FirstOutcome(c, disk, id, report).result.evidenceArtifacts, ReportFile(c, id), c.digest(report))
  {
    hide FirstOutcome, HasArtifact, Clear, LaunchOf, NewLaunch, End, WellFormed, ReportFile, BoundTo, Saying, Complete, Kind, Suits,
         Undisturbed, Resolve, AttemptId, PathOf, VerdictOf;
    var q, w, attemptId := BoundTo(id), Saying(report), AttemptId(id, 1);
    BoundFits(id, report);
    LaunchIsNew(c, disk, q, attemptId, w);
    var l, t := ClearRegistered(ImplementationChain, w, c.checkpoint, q, Store(c.artifacts, Some(attemptId), c.digest, disk), c.naming, Some(TREE));
    ReportIsRecorded(l, ImplementationChain, w, t);
    ReportPath(c, disk, id, w);
    OutcomeIsEnd(c, disk, id, report);
  }

  lemma FirstOutcomeStands(c: Configuration, disk: map<string, string>, id: string, report: string, i: nat)
    requires WellFormed(c.artifacts) && i < |FirstOutcome(c, disk, id, report).result.evidenceArtifacts|
    ensures Stands(FirstOutcome(c, disk, id, report).disk, c.digest, FirstOutcome(c, disk, id, report).result.evidenceArtifacts[i])
  {
    hide RunnerOf, RunDir, InDir, Stands, LeftAlone, AttemptId, BoundTo, Saying, WellFormed;
    RuntimeContainsAttempts(c);
    var out := FirstOutcome(c, disk, id, report);
    assert Contained(RunDir(c.artifacts, BoundTo(id).runId, Some(AttemptId(id, 1))), c.digest, AttemptId(id, 1), disk, out);
    assert Runtime.Placed(RunDir(c.artifacts, BoundTo(id).runId, Some(AttemptId(id, 1))), c.digest, AttemptId(id, 1), out.disk,
                  out.result.evidenceArtifacts[i]);
  }

  // -------------------------------------------------------------------------------- four calls

  function CreatedRecord(id: string): RunRecord {
    NewRecord(id, PlainManifest(id))
  }

  function ExecutedRecord(id: string, out: Outcome): RunRecord {
    WithResult(WithAttempt(CreatedRecord(id), Workspace(None, TREE), out.result), out.result)
  }

  lemma Creates(site: Site, sys: System, id: string)
    requires id != ""
    ensures Respond(site, sys, Creation(id)).0 == Stored(sys, CreatedRecord(id))
  {
    hide Remembered;
  }

  lemma ExecutesBound(site: Site, sys: System, id: string, q: Request, w: World, resolve: string -> Option<Workspace>,
                      r: RunRecord, bound: Request)
    requires Recall(sys.memory, id) == Some(r) && Bound(r, id, q) == Ok(bound)
    ensures HandleExecute(site, sys, id, q, "", w, resolve)
            == Attempted(site, sys, r, bound, w, resolve(if site.production then site.root else Or("", site.root)))
  {
    hide Recall, Bound, Attempted;
  }

  lemma Executes(site: Site, c: Configuration, sys: System, id: string, report: string)
    requires id != "" && site.runner == RunnerOf(c) && Recall(sys.memory, id) == Some(CreatedRecord(id))
    ensures var out := FirstOutcome(c, sys.disk, id, report);
            Respond(site, sys, Execution(id, report)).0 == Stored(System(sys.memory, out.disk), ExecutedRecord(id, out))
  {
    hide Stored, RunnerOf, AttemptId, Saying, WithResult, WithAttempt, Incoming, BoundTo, Recall, NextAttempt, CreatedRecord, Bound,
         HandleExecute;
    IncomingBinds(id);
    var resolve := (path: string) => Some(Workspace(None, TREE));
    ExecutesBound(site, sys, id, Incoming(), Saying(report), resolve, CreatedRecord(id), BoundTo(id));
  }

  lemma IncomingBinds(id: string)
    requires id != ""
    ensures Bound(CreatedRecord(id), id, Incoming()) == Ok(BoundTo(id))
    ensures NextAttempt(CreatedRecord(id)) == AttemptId(id, 1)
  {
    hide AttemptId;
    RequestFits(ImplementationChain);
  }

  lemma OneMore(site: Site, sys: System, calls: seq<Call>, call: Call)
    ensures After(site, sys, calls + [call]) == Respond(site, After(site, sys, calls), call).0
  {
    hide Respond;
    assert (calls + [call])[..|calls|] == calls;
  }

  lemma NothingCalled(site: Site, sys: System)
    ensures After(site, sys, []) == sys
  {
  }

  lemma FourSteps(site: Site, sys: System, c1: Call, c2: Call, c3: Call, c4: Call)
    ensures var s1 := Respond(site, sys, c1).0;
            var s2 := Respond(site, s1, c2).0;
            var s3 := Respond(site, s2, c3).0;
            After(site, sys, [c1, c2, c3, c4]) == Respond(site, s3, c4).0
  {
    hide Respond, After;
    NothingCalled(site, sys);
    OneMore(site, sys, [], c1);
    assert [] + [c1] == [c1];
    OneMore(site, sys, [c1], c2);
    assert [c1] + [c2] == [c1, c2];
    OneMore(site, sys, [c1, c2], c3);
    assert [c1, c2] + [c3] == [c1, c2, c3];
    OneMore(site, sys, [c1, c2, c3], c4);
    assert [c1, c2, c3] + [c4] == [c1, c2, c3, c4];
  }

  lemma Recalled(sys: System, r: RunRecord, id: string)
    ensures Recall(Stored(sys, r).memory, id) == if id == r.runId then Some(r) else Recall(sys.memory, id)
    ensures Stored(sys, r).disk == sys.disk
  {
  }

  lemma ExecutedArtifacts(id: string, out: Outcome)
    ensures ExecutedRecord(id, out).artifacts == out.result.evidenceArtifacts && ExecutedRecord(id, out).runId == id
  {
    hide NextAttempt;
    assert [] + out.result.evidenceArtifacts == out.result.evidenceArtifacts;
  }

  /** After those calls the first run's record lists what its execution recorded, and the disk is what
      the second execution left. */
  lemma AfterTwoExecutions(site: Site, c: Configuration, disk: map<string, string>, a: string, b: string, x: string, y: string)
    returns (first: Outcome, second: Outcome)
    requires site.runner == RunnerOf(c) && a != "" && b != "" && a != b
    ensures first == FirstOutcome(c, disk, a, x) && second == FirstOutcome(c, first.disk, b, y)
    ensures var end := After(site, Initial(disk), TwoExecutions(a, b, x, y));
            && end.disk == second.disk && a in end.memory.runs
            && end.memory.runs[a].artifacts == first.result.evidenceArtifacts
  {
    hide FirstOutcome, Respond, ExecutedRecord, CreatedRecord, Execution, Creation, Recall, Stored, After, RunnerOf;
    CreatedIds(a);
    CreatedIds(b);
    var s0 := Initial(disk);
    FourSteps(site, s0, Creation(a), Creation(b), Execution(a, x), Execution(b, y));
    Creates(site, s0, a);
    var s1 := Stored(s0, CreatedRecord(a));
    Creates(site, s1, b);
    var s2 := Stored(s1, CreatedRecord(b));
    Recalled(s0, CreatedRecord(a), a);
    Recalled(s1, CreatedRecord(b), a);
    Recalled(s1, CreatedRecord(b), b);
    first := FirstOutcome(c, s2.disk, a, x);
    Recalled(s0, CreatedRecord(a), b);
    Executes(site, c, s2, a, x);
    var s3 := Stored(System(s2.memory, first.disk), ExecutedRecord(a, first));
    ExecutedArtifacts(a, first);
    Recalled(System(s2.memory, first.disk), ExecutedRecord(a, first), b);
    Recalled(System(s2.memory, first.disk), ExecutedRecord(a, first), a);
    second := FirstOutcome(c, s3.disk, b, y);
    Executes(site, c, s3, b, y);
    ExecutedArtifacts(b, second);
    Recalled(System(s3.memory, second.disk), ExecutedRecord(b, second), a);
    RecallIsMember(Stored(System(s3.memory, second.disk), ExecutedRecord(b, second)).memory, a);
  }

  lemma CreatedIds(id: string)
    ensures CreatedRecord(id).runId == id
  {
  }

  lemma RecallIsMember(m: Memory, id: string)
    ensures Recall(m, id).Some? <==> id in m.runs
    ensures Recall(m, id).Some? ==> m.runs[id] == Recall(m, id).value
  {
  }

  // ------------------------------------------------------------------------- the exact condition

  lemma SameReportFile(c: Configuration, a: string, b: string)
    requires SamePlace(c.artifacts, a, b)
    ensures ReportFile(c, a) == ReportFile(c, b)
  {
    hide SamePlace, AttemptDir, Join, Render;
    AttemptDirsCoincide(c.artifacts, a, 1, b, 1);
  }

  lemma NotFiled(root: Path, digest: string -> string, disk: map<string, string>, id: string, artifacts: seq<Artifact>,
                 path: string, hash: string)
    requires HasArtifact(artifacts, path, hash) && path in disk && digest(disk[path]) != hash
    ensures !AllFiled(root, digest, disk, id, artifacts)
  {
    hide InDir, DirOf;
    var i :| 0 <= i < |artifacts| && artifacts[i].path == path && artifacts[i].hash == hash;
    assert !Filed(root, digest, disk, id, artifacts[i]);
  }

  /** Two runs in one place: once both have been executed, the first no longer has its verifier's report.
      A report holds its run's id and the time, so x and y, what the two runs report, are not the same. */
  lemma TwinsOverwrite(site: Site, c: Configuration, disk: map<string, string>, a: string, b: string, x: string, y: string)
    requires site.runner == RunnerOf(c) && WellFormed(c.artifacts) && a != "" && b != "" && a != b
    requires SamePlace(c.artifacts, a, b) && c.digest(x) != c.digest(y)
    ensures !Intact(c.artifacts, c.digest, After(site, Initial(disk), TwoExecutions(a, b, x, y)))
  {
    hide FirstOutcome, ReportFile, TwoExecutions, AllFiled, Stands, HasArtifact, After, SamePlace, WellFormed, RunnerOf;
    var first, second := AfterTwoExecutions(site, c, disk, a, b, x, y);
    FirstOutcomeReports(c, disk, a, x);
    FirstOutcomeReports(c, first.disk, b, y);
    SameReportFile(c, a, b);
    var i := IndexOf(second.result.evidenceArtifacts, ReportFile(c, b), c.digest(y));
    FirstOutcomeStands(c, first.disk, b, y, i);
    StandsAt(second.disk, c.digest, second.result.evidenceArtifacts[i]);
    NotFiled(c.artifacts, c.digest, second.disk, a, first.result.evidenceArtifacts, ReportFile(c, a), c.digest(x));
  }

  lemma IndexOf(artifacts: seq<Artifact>, path: string, hash: string) returns (i: nat)
    requires HasArtifact(artifacts, path, hash)
    ensures i < |artifacts| && artifacts[i].path == path && artifacts[i].hash == hash
  {
    i :| 0 <= i < |artifacts| && artifacts[i].path == path && artifacts[i].hash == hash;
  }

  lemma StandsAt(files: map<string, string>, digest: string -> string, a: Artifact)
    requires Stands(files, digest, a)
    ensures a.path in files && digest(files[a.path]) == a.hash
  {
  }

  /** For the ids of the runs that are executed, which are never empty: the evidence of all stored runs
      survives every sequence of calls exactly when no two of them name the same place. All that is asked
      of the hash is that it tells some two reports apart. */
  lemma SurvivalIsExact(site: Site, c: Configuration, ids: iset<string>, disk: map<string, string>, x: string, y: string)
    requires site.runner == RunnerOf(c) && WellFormed(c.artifacts) && "" !in ids && c.digest(x) != c.digest(y)
    ensures (forall calls: seq<Call> | AllWithin(ids, calls) :: Intact(c.artifacts, c.digest, After(site, Initial(disk), calls)))
            <==> NoTwins(c.artifacts, ids)
  {
    hide After, Intact, AllWithin, RunnerOf, WellFormed, SamePlace, TwoExecutions;
    if NoTwins(c.artifacts, ids) {
      RuntimeContainsAttempts(c);
      forall calls: seq<Call> | AllWithin(ids, calls) ensures Intact(c.artifacts, c.digest, After(site, Initial(disk), calls)) {
        EvidenceStaysOnDisk(site, c.artifacts, c.digest, ids, disk, calls);
      }
    } else {
      var a, b :| a in ids && b in ids && SamePlace(c.artifacts, a, b) && a != b;
      TwinsAreWithin(ids, a, b, x, y);
      TwinsOverwrite(site, c, disk, a, b, x, y);
    }
  }

  lemma CreationIsWithin(ids: iset<string>, id: string)
    ensures Within(ids, Creation(id))
  {
  }

  lemma ExecutionIsWithin(ids: iset<string>, id: string, report: string)
    requires id in ids
    ensures Within(ids, Execution(id, report))
  {
    hide Incoming, Saying;
  }

  lemma TwinsAreWithin(ids: iset<string>, a: string, b: string, x: string, y: string)
    requires a in ids && b in ids
    ensures AllWithin(ids, TwoExecutions(a, b, x, y))
  {
    hide Within, Creation, Execution;
    CreationIsWithin(ids, a);
    CreationIsWithin(ids, b);
    ExecutionIsWithin(ids, a, x);
    ExecutionIsWithin(ids, b, y);
  }

  /** The ids "a" and "./a" are such a pair, and so are "b" and "a/../b". */
  lemma SlashedTwinsOverwrite(site: Site, c: Configuration, disk: map<string, string>, x: string, y: string)
    requires site.runner == RunnerOf(c) && WellFormed(c.artifacts) && c.digest(x) != c.digest(y)
    ensures !Intact(c.artifacts, c.digest, After(site, Initial(disk), TwoExecutions("a", "./a", x, y)))
    ensures !Intact(c.artifacts, c.digest, After(site, Initial(disk), TwoExecutions("b", "a/../b", x, y)))
  {
    DottedPair(c.artifacts);
    ParentPair(c.artifacts);
    hide After, Intact, RunnerOf, WellFormed, TwoExecutions, SamePlace;
    assert |"a"| == 1 && |"./a"| == 3 && |"b"| == 1 && |"a/../b"| == 6;
    TwinsOverwrite(site, c, disk, "a", "./a", x, y);
    TwinsOverwrite(site, c, disk, "b", "a/../b", x, y);
  }

  lemma DottedPair(root: Path)
    ensures SamePlace(root, "a", "./a")
  {
    hide SamePlace, SameSpelling;
    assert Slashless("a") && "./a" == "." + "/" + "a";
    DotSpelling("a", "./a");
    SameSpellingSamePlace(root, "a", "./a");
  }

  lemma ParentPair(root: Path)
    ensures SamePlace(root, "b", "a/../b")
  {
    hide SamePlace;
    assert Slashless("a") && Slashless("b") && "a/../b" == "a" + "/" + ".." + "/" + "b";
    ParentNamesSamePlace(root, "a", "b", "a/../b");
  }

  /** A route carries a run id as one segment. Over every sequence of calls that executes runs through such
      routes, whatever the ids that runs are created under, every artifact keeps its bytes. */
  lemma ServedEvidenceSurvives(site: Site, c: Configuration, disk: map<string, string>, calls: seq<Call>)
    requires site.runner == RunnerOf(c) && WellFormed(c.artifacts)
    requires forall i | 0 <= i < |calls| && calls[i].ExecuteRun? :: Slashless(calls[i].runId)
    ensures Intact(c.artifacts, c.digest, After(site, Initial(disk), calls))
  {
    hide After, Intact, RunnerOf, WellFormed, SamePlace, Slashless;
    var ids := iset id: string | Slashless(id);
    forall a, b | a in ids && b in ids && SamePlace(c.artifacts, a, b) ensures a == b {
      PlainRunsAreApart(c.artifacts, a, b);
    }
    RuntimeContainsAttempts(c);
    EvidenceStaysOnDisk(site, c.artifacts, c.digest, ids, disk, calls);
  }
}
