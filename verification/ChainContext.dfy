/**
 The chain context as the object the handlers change, and the handlers that change it. Each method
 does what the effect of its handler says; the effects are what the laws are about.
 */
module ChainContext {
  import opened Core
  import opened Gates
  import opened EvidenceWriter
  import opened ArtifactStore
  import opened Names
  import opened Evidence
  import opened Context
  import opened Handlers

  lemma NoOp(ev: Evidence)
    ensures PerformAll(ev, []) == ev
  {
  }

  lemma WriteAtPath(s: Store, runId: string, taskId: string, name: string, path: string, data: string, t: ArtifactType, author: string)
    ensures WriteAt(s, runId, taskId, name, path, data, t, author).1.path == path
    ensures WriteAt(s, runId, taskId, name, path, data, t, author).1.hash == s.digest(data)
  {
  }

  lemma DiffIsThreeOps(ev: Evidence, diff: string, status: string, check: string)
    ensures PerformAll(ev, DiffOps(diff, status, check))
            == Perform(Perform(Perform(ev, Record(Change(DiffPatch), diff, DIFF, EntryInfo, "git diff", "diff")),
                               Record(Change(GitStatusLog), status, COMMAND_OUTPUT, EntryInfo, "git status --short", "diff")),
                       Record(Change(DiffCheckLog), check, COMMAND_OUTPUT, EntryInfo, "git diff --check", "diff"))
  {
    hide Perform, PerformAll, Record;
    ThreeOps(ev, Record(Change(DiffPatch), diff, DIFF, EntryInfo, "git diff", "diff"),
             Record(Change(GitStatusLog), status, COMMAND_OUTPUT, EntryInfo, "git status --short", "diff"),
             Record(Change(DiffCheckLog), check, COMMAND_OUTPUT, EntryInfo, "git diff --check", "diff"));
  }

  lemma NoCommands(w: World, h: HandlerName, commands: seq<string>)
    ensures LogsOf(w, h, commands[..0]) == [] && !AnyRejected(w, h, 0)
  {
  }

  /** What one more command adds to the log. */
  lemma CommandStep(w: World, h: HandlerName, commands: seq<string>, k: nat)
    requires k < |commands|
    ensures LogsOf(w, h, commands[..k + 1]) ==
            LogsOf(w, h, commands[..k]) + if w.run(h, k) == Rejected then [] else LogOf(w, h, k, commands[k])
    ensures AnyRejected(w, h, k + 1) == (AnyRejected(w, h, k) || w.run(h, k) == Rejected)
  {
    assert commands[..k + 1][..k] == commands[..k];
  }

  lemma LogOfFinished(w: World, h: HandlerName, k: nat, command: string)
    requires w.run(h, k).Finished?
    ensures var code := w.run(h, k).exitCode;
            LogOf(w, h, k, command) == [LogItem(Some(command), if code.Some? then Code(code.value) else NullCode)]
  {
  }

  /** What a handler leaves behind when it keeps the tree as it is. */
  ghost predicate Did(before: Ctx, e: Effect, after: Ctx, r: HandlerResult) {
    after == Applied(before, e, before.repo) && r == e.result
  }

  /** An effect that neither finalizes the ledger nor declares anything is its writes and its work. */
  lemma Wrote(c: Ctx, e: Effect, ev: Evidence)
    requires e.finalStatus.None? && !e.declaresNoTests && PerformAll(c.ev, e.ops) == ev
    ensures Applied(c, e, c.repo) == Ctx(c.request, ev, c.repo, c.repoSnapshot, c.verifierDecision, e.work)
  {
    hide PerformAll;
  }

  function BodyOp(w: World): Op {
    Record(Verdict(PrBody), w.text(Verdict(PrBody)), PR, EntryInfo, "", "pr")
  }

  function GateReportOp(w: World): Op {
    Record(Verdict(PrGateReport), w.text(Verdict(PrGateReport)), PR, EntryInfo, "", "pr")
  }

  function Presented(c: Ctx): HandlerResult {
    var gate := GateResult(PrGateName, PrReasons(Pass, "", PR_SKIP, false, false));
    Done(PRGate, Continue, [PathOf(c.ev, Verdict(PrBody))], [gate]).(prStatus := Some(Gated))
  }

  lemma PrAfterPass(w: World, c: Ctx)
    requires c.verifierDecision == Pass
    ensures PrStage(w, c) == Effect([BodyOp(w), GateReportOp(w)], c.work, None, false, Presented(c))
  {
    hide PathOf, PrReasons;
  }

  class ChainContext {
    var request: Request
    var ev: Evidence
    var repo: Option<Snapshot>
    const repoSnapshot: Snapshot
    var verifierDecision: Decision
    var work: Work

    ghost function View(): Ctx
      reads this
    {
      Ctx(request, ev, repo, repoSnapshot, verifierDecision, work)
    }

    constructor (request: Request, ev: Evidence, repo: Option<Snapshot>, manifest: Option<ManifestView>)
      ensures View() == NewCtx(request, ev, repo, manifest)
    {
      this.request, this.ev, this.repo := request, ev, repo;
      repoSnapshot := Snapshot0(repo);
      verifierDecision := Pending;
      work := EmptyWork(manifest);
    }

    /** Write the file, ledger it under its hash, and remember the artifact. */
    method RecordArtifact(name: Name, data: string, t: ArtifactType, result: LedgerResult, command: string, author: string)
      returns (a: Artifact)
      modifies this`ev
      ensures ev == Perform(old(ev), Record(name, data, t, result, command, author))
      ensures a.path == PathOf(old(ev), name) && a.hash == old(ev).store.digest(data)
    {
      hide WriteAt, Append;
      var at := ev.layout(name);
      WriteAtPath(ev.store, ev.runId, ev.taskId, at.name, at.path, data, t, author);
      var written := WriteAt(ev.store, ev.runId, ev.taskId, at.name, at.path, data, t, author);
      a := written.1;
      var draft := Draft(a.artifactType, a.path, a.hash, command, result, a.recordedBy);
      ev := Evidence(ev.runId, ev.taskId, ev.layout, written.0, Append(ev.writer, draft), ev.artifacts + [a]);
    }

    /** Write agent output as context only: neither ledgered nor remembered. */
    method WriteQuarantined(name: Name, data: string, author: string)
      modifies this`ev
      ensures ev == Perform(old(ev), Hold(name, data, author))
    {
      hide WriteAt;
      var at := ev.layout(name);
      var written := WriteAt(ev.store, ev.runId, ev.taskId, at.name, at.path, data, COMMAND_OUTPUT, author);
      ev := Evidence(ev.runId, ev.taskId, ev.layout, written.0, ev.writer, ev.artifacts);
    }

    // ---------------------------------------------------------------------- control

    method LockDefinitionOfDone(w: World) returns (r: HandlerResult)
      modifies this`ev, this`work
      ensures Did(old(View()), DodLockCheck(w, old(View())), View(), r)
    {
      hide Perform, PerformAll, PathOf, Applied;
      ghost var c := View();
      NoOp(ev);
      Wrote(c, DodLockCheck(w, c), PerformAll(ev, DodLockCheck(w, c).ops));
      var version := request.dodVersion;
      if version == "" || (work.lockedDod.Some? && work.lockedDod.value != version) {
        return Failed(DefinitionOfDoneLock, [Reason(CheckFailed, NOTHING)], false, []);
      }
      OneOp(ev, Record(Verdict(DodLock), w.text(Verdict(DodLock)), SCRUM_MAPPING, EntryInfo, "", "dod"));
      work := work.(lockedDod := Some(version));
      var a := RecordArtifact(Verdict(DodLock), w.text(Verdict(DodLock)), SCRUM_MAPPING, EntryInfo, "", "dod");
      r := Done(DefinitionOfDoneLock, Continue, [], []);
    }

    method GateEvidence() returns (r: HandlerResult)
      ensures r == EvidenceCheck(View()).result
    {
      hide EvidenceReasons, Supports;
      var gate := Gates.EvidenceGate(ev.writer.ledger, ev.runId, ev.taskId, RequiredByMode(request));
      r := FromGates(HandlerName.EvidenceGate, [gate]);
    }

    method StopOrLoopNow() returns (r: HandlerResult)
      modifies this`ev
      ensures Did(old(View()), StopCheck(old(View())), View(), r)
    {
      hide Perform, Finalize;
      NoOp(ev);
      var final := verifierDecision;
      if final == Pending { final := Blocked; }
      ev := ev.(writer := Finalize(ev.writer, final));
      r := Done(StopOrLoop, Stop, [], []);
    }

    // --------------------------------------------------------------- implementation

    method InvokeAgent() returns (r: HandlerResult)
      modifies this`ev, this`work
      ensures Did(old(View()), AgentStage(old(View())), View(), r)
    {
      hide Perform, PerformAll;
      NoOp(ev);
      if request.meta.candidate.None? {
        if request.meta.codingAgentRunId != "" {
          work := work.(codingRunId := request.meta.codingAgentRunId);
          return Skipped(AgentInvocation);
        }
        return Failed(AgentInvocation, [Reason(EvidenceMissing, NOTHING)], true, []);
      }
      var candidate := request.meta.candidate.value;
      TwoOps(ev, Hold(SUMMARY_FILE, candidate.summary, "agent"), Hold(RAW_FILE, candidate.rawOutput, "agent"));
      WriteQuarantined(SUMMARY_FILE, candidate.summary, "agent");
      WriteQuarantined(RAW_FILE, candidate.rawOutput, "agent");
      work := work.(candidate := Some(candidate), codingRunId := Or(candidate.agentRunId, work.codingRunId));
      r := Done(AgentInvocation, Continue, [], []).(details := IGNORED_CLAIM);
    }

    /** No agent narrative may have leaked into the ledger. */
    method CheckQuarantine() returns (r: HandlerResult)
      modifies this`work
      ensures Did(old(View()), QuarantineCheck(old(View())), View(), r)
    {
      hide Quarantined;
      NoOp(ev);
      var entries := ev.writer.ledger.entries;
      for i := 0 to |entries|
        invariant forall j | 0 <= j < i :: !Quarantined(entries[j].artifactPath)
      {
        if Quarantined(entries[i].artifactPath) {
          return Failed(AgentOutputQuarantine, [Reason(SummaryAsProof, NOTHING)], false, []);
        }
      }
      work := work.(summaryQuarantined := true);
      r := Done(AgentOutputQuarantine, Continue, [], []);
    }

    /** Record a captured diff, its status and its check. */
    method RecordDiff(diff: string, status: string, check: string) returns (path: string)
      modifies this`ev
      ensures ev == PerformAll(old(ev), DiffOps(diff, status, check))
      ensures path == PathOf(old(ev), Change(DiffPatch))
    {
      hide *;
      DiffIsThreeOps(ev, diff, status, check);
      var a := RecordArtifact(Change(DiffPatch), diff, DIFF, EntryInfo, "git diff", "diff");
      var b := RecordArtifact(Change(GitStatusLog), status, COMMAND_OUTPUT, EntryInfo, "git status --short", "diff");
      var c := RecordArtifact(Change(DiffCheckLog), check, COMMAND_OUTPUT, EntryInfo, "git diff --check", "diff");
      path := a.path;
    }

    method CaptureDiff(w: World) returns (r: HandlerResult)
      modifies this`ev, this`work
      ensures Did(old(View()), DiffStage(w, old(View())), View(), r)
    {
      hide Perform, PerformAll, DiffOps, Blank;
      NoOp(ev);
      if work.candidate.Some? && work.candidate.value.diff != "" {
        var d := work.candidate.value;
        var path := RecordDiff(d.diff, d.gitStatus, d.diffCheck);
        work := work.(changedFiles := d.changedFiles);
        return Done(DiffCapture, Continue, [path], []);
      }
      if repo.None? || w.git.NotARepository? {
        return Failed(DiffCapture, [Reason(EvidenceMissing, NOTHING)], true, []);
      }
      if Blank(w.git.diff) {
        return Failed(DiffCapture, [Reason(EvidenceMissing, NOTHING)], true, []);
      }
      var path := RecordDiff(w.git.diff, w.git.status, w.git.check);
      work := work.(changedFiles := w.git.changed);
      if !w.git.checkOk {
        return Failed(DiffCapture, [Reason(CheckFailed, NOTHING)], false, []);
      }
      r := Done(DiffCapture, Continue, [path], []);
    }

    /** Run the commands in order and log those that were not rejected. */
    static method RunCommands(w: World, h: HandlerName, commands: seq<string>) returns (logs: seq<LogItem>, rejected: bool)
      ensures logs == LogsOf(w, h, commands) && rejected == AnyRejected(w, h, |commands|)
    {
      hide AnyRejected, LogsOf, LogOf;
      logs, rejected := [], false;
      NoCommands(w, h, commands);
      for k := 0 to |commands|
        invariant logs == LogsOf(w, h, commands[..k]) && rejected == AnyRejected(w, h, k)
      {
        CommandStep(w, h, commands, k);
        var res := w.run(h, k);
        if res == Rejected {
          rejected := true;
          continue;
        }
        LogOfFinished(w, h, k, commands[k]);
        logs := logs + [LogItem(Some(commands[k]), if res.exitCode.Some? then Code(res.exitCode.value) else NullCode)];
      }
      assert commands[..|commands|] == commands;
    }

    /** Supplied outcomes, or a run of the supplied commands. */
    static method Collect(w: World, h: HandlerName, plan: RunPlan) returns (g: Gathered)
      ensures g == Gather(w, h, plan)
    {
      hide LogsOf;
      if plan.outcomes != [] { return Logs(plan.outcomes, CaptionOf(h, plan)); }
      if plan.commands == [] { return NoEvidence; }
      var logs, rejected := RunCommands(w, h, plan.commands);
      g := if rejected then RejectedCommands else Logs(logs, w.joined(plan.commands));
    }

    /** The loop behind the entry's result. */
    static method EveryZero(logs: seq<LogItem>) returns (ok: bool)
      ensures ok == AllZero(logs)
    {
      for i := 0 to |logs|
        invariant forall j | 0 <= j < i :: logs[j].exitCode == Code(0)
      {
        if logs[i].exitCode != Code(0) { return false; }
      }
      ok := true;
    }

    /** One outcome for each log item, in order; a missing exit code reads as 0. */
    method AppendOutcomes(logs: seq<LogItem>, command: string, path: string)
      modifies this`work
      ensures work == old(work).(testOutcomes := old(work).testOutcomes + OutcomesOf(logs, command, path))
    {
      for i := 0 to |logs|
        invariant work == old(work).(testOutcomes := old(work).testOutcomes + OutcomesOf(logs[..i], command, path))
      {
        assert logs[..i + 1][..i] == logs[..i];
        work := work.(testOutcomes := work.testOutcomes + [OutcomeOf(logs[i], command, path)]);
      }
      assert logs[..|logs|] == logs;
    }

    method RunTests(w: World) returns (r: HandlerResult)
      modifies this`ev, this`work
      ensures Did(old(View()), TestStage(w, old(View())), View(), r)
    {
      hide Perform, PerformAll, Gather, AllZero, OutcomesOf;
      NoOp(ev);
      if request.meta.testsNotApplicable { return Skipped(TestRunner); }
      var g := Collect(w, TestRunner, request.meta.tests);
      if g.NoEvidence? { return Failed(TestRunner, [Reason(EvidenceMissing, NOTHING)], true, []); }
      if g.RejectedCommands? { return Failed(TestRunner, [Reason(CommandRejected, NOTHING)], true, []); }
      var zero := EveryZero(g.items);
      var result := if zero then EntryPass else EntryFail;
      OneOp(ev, Record(Change(TestOutput), w.text(Change(TestOutput)), TEST, result, g.command, "tests"));
      var a := RecordArtifact(Change(TestOutput), w.text(Change(TestOutput)), TEST, result, g.command, "tests");
      AppendOutcomes(g.items, g.command, a.path);
      r := Done(TestRunner, Continue, [a.path], []);
    }

    /** The loop that looks for a failing item. */
    static method SomeFailed(logs: seq<LogItem>) returns (ok: bool)
      ensures ok == Reproduces(logs)
    {
      for i := 0 to |logs|
        invariant forall j | 0 <= j < i :: !(logs[j].exitCode.Code? && logs[j].exitCode.value != 0)
      {
        if logs[i].exitCode.Code? && logs[i].exitCode.value != 0 { return true; }
      }
      ok := false;
    }

    /** The run has to fail: a fix without a failing baseline proves nothing. */
    method RunReproduction(h: HandlerName, file: Name, w: World) returns (r: HandlerResult)
      modifies this`ev, this`work
      ensures Did(old(View()), ReproductionStage(h, file, w, old(View())), View(), r)
    {
      hide Perform, PerformAll, Gather, Reproduces, PathOf, Applied;
      ghost var c := View();
      NoOp(ev);
      Wrote(c, ReproductionStage(h, file, w, c), PerformAll(ev, ReproductionStage(h, file, w, c).ops));
      if request.meta.reproduction.None? { return Failed(h, [Reason(EvidenceMissing, NOTHING)], true, []); }
      var g := Collect(w, h, request.meta.reproduction.value);
      if g.NoEvidence? { return Failed(h, [Reason(EvidenceMissing, NOTHING)], true, []); }
      if g.RejectedCommands? { return Failed(h, [Reason(CommandRejected, NOTHING)], true, []); }
      var reproduced := SomeFailed(g.items);
      var result := if reproduced then EntryFail else EntryPass;
      OneOp(ev, Record(file, w.text(file), TEST, result, g.command, "repro"));
      var a := RecordArtifact(file, w.text(file), TEST, result, g.command, "repro");
      if !reproduced { return Failed(h, [Reason(NotReproduced, NOTHING)], false, []); }
      work := work.(reproduced := true);
      r := Done(h, Continue, [a.path], []).(details := REPRODUCED);
    }

    method CheckScope(w: World) returns (r: HandlerResult)
      ensures r == ScopeDiffCheck(w, View()).result
    {
      hide ScopeReasons, AllInScope;
      var gate := Gates.ScopeGate(w.matcher, RulesOf(request), work.changedFiles);
      r := FromGates(ScopeDiff, [gate]);
    }

    // ----------------------------------------------------------------- verification

    /** The five gates of a change, aggregated, and the report as an artifact. */
    method VerifyChange(w: World) returns (r: HandlerResult)
      modifies this`ev, this`work
      ensures Did(old(View()), ChangeVerdict(w, old(View())), View(), r)
    {
      hide Perform, PerformAll, EvidenceReasons, Supports, TestReasons, TestsPass, ScopeReasons, AllInScope,
           SelfCertificationReasons, FromGates;
      ghost var c := View();
      work := work.(verifierRunId := Or(work.verifierRunId, IMPL_VERIFIER));
      var applicable := !request.meta.testsNotApplicable;
      var self := Gates.SelfCertificationGate(
        Certification(work.codingRunId, work.verifierRunId, "", "", Pending, !work.summaryQuarantined, false));
      var tests := Gates.TestGate(work.testOutcomes, Implementation, applicable);
      var evidence := Gates.EvidenceGate(ev.writer.ledger, ev.runId, ev.taskId, RequiredByTests(request));
      var design := GateResult(StrategicGateName, work.strategic.GetOr(NO_DESIGN));
      var scope := Gates.ScopeGate(w.matcher, RulesOf(request), work.changedFiles);
      assert [self, tests, evidence, design, scope] == ChangeGates(w, c, work);
      r := FromGates(ImplementationVerifier, [self, tests, evidence, design, scope]);
      var result := if r.status == StatusPass then EntryPass else EntryFail;
      OneOp(ev, ReportOp(w, r));
      var a := RecordArtifact(Verdict(VerifierReportFile), w.text(Verdict(VerifierReportFile)), VERIFIER_REPORT, result, "", "verifier");
    }

    // ---------------------------------------------------------- evaluation, memory, PR

    method Evaluate(w: World) returns (r: HandlerResult)
      modifies this`ev, this`work
      ensures Did(old(View()), EvaluationStage(w, old(View())), View(), r)
    {
      hide Perform, PerformAll;
      work := work.(evalScore := Some(w.score(ev.writer.ledger.entries)));
      OneOp(ev, Record(Verdict(EvaluationReport), w.text(Verdict(EvaluationReport)), ANALYSIS_REPORT, EntryInfo, "", "evaluator"));
      var a := RecordArtifact(Verdict(EvaluationReport), w.text(Verdict(EvaluationReport)), ANALYSIS_REPORT, EntryInfo, "", "evaluator");
      r := Done(Evaluator, Continue, [a.path], []);
    }

    method UpdateMemory(w: World) returns (r: HandlerResult)
      modifies this`ev
      ensures Did(old(View()), MemoryStage(w, old(View())), View(), r)
    {
      hide Perform, PerformAll;
      var file := Verdict(MemorySkipReason);
      if verifierDecision == Pass { file := Verdict(MemoryRecord); }
      OneOp(ev, Record(file, w.text(file), ANALYSIS_REPORT, EntryInfo, "", "memory"));
      var a := RecordArtifact(file, w.text(file), ANALYSIS_REPORT, EntryInfo, "", "memory");
      r := Done(MemoryUpdate, Continue, [a.path], []);
    }

    /** The pull request body and the report of its gate, after a PASS. */
    method PresentPr(w: World) returns (r: HandlerResult)
      requires verifierDecision == Pass
      modifies this`ev
      ensures Did(old(View()), PrStage(w, old(View())), View(), r)
    {
      hide Perform, PerformAll, PrReasons, PathOf, Applied, Done, PrStage;
      ghost var c := View();
      PrAfterPass(w, c);
      Wrote(c, PrStage(w, c), PerformAll(ev, PrStage(w, c).ops));
      TwoOps(ev, BodyOp(w), GateReportOp(w));
      var path := RecordPr(Verdict(PrBody), w, BodyOp(w));
      var gate := GateResult(PrGateName, PrReasons(verifierDecision, "", PR_SKIP, false, false));
      var other := RecordPr(Verdict(PrGateReport), w, GateReportOp(w));
      r := Done(PRGate, Continue, [path], [gate]).(prStatus := Some(Gated));
    }

    method RecordPr(name: Name, w: World, ghost op: Op) returns (path: string)
      requires op == Record(name, w.text(name), PR, EntryInfo, "", "pr")
      modifies this`ev
      ensures ev == Perform(old(ev), op) && path == PathOf(old(ev), name)
    {
      hide Perform, PathOf;
      var a := RecordArtifact(name, w.text(name), PR, EntryInfo, "", "pr");
      path := a.path;
    }

    method GatePr(w: World) returns (r: HandlerResult)
      modifies this`ev
      ensures Did(old(View()), PrStage(w, old(View())), View(), r)
    {
      hide Perform, PerformAll, PrReasons, PathOf;
      if verifierDecision == Pass {
        r := PresentPr(w);
      } else {
        NoOp(ev);
        var gate := GateResult(PrGateName, PrReasons(verifierDecision, "", "", false, false));
        r := Done(PRGate, Continue, [], [gate]).(prStatus := Some(NotReady));
      }
    }
  }
}
