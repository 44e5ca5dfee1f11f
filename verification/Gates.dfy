/** The hard gates: each collects failure reasons, and passes when there are none. */
module Gates {
  import opened Core
  import opened Text

  // ------------------------------------------------------------- evidence ledger

  datatype LedgerEntry = LedgerEntry(
    entryId: string, artifactType: ArtifactType, artifactPath: string,
    command: string, result: LedgerResult, hash: string, recordedBy: string)

  datatype Ledger = Ledger(
    taskId: string, runId: string, entries: seq<LedgerEntry>,
    finalStatus: Decision, selfCertificationUsed: bool)

  const AGENT_SUMMARY := "agent_summary.md"
  const RAW_OUTPUT := "raw_agent_output.log"

  /** Files that agents tell their own story in: a ledger that lists one is refused. */
  predicate Quarantined(path: string) {
    var base := Basename(path);
    base == AGENT_SUMMARY || base == RAW_OUTPUT
  }

  function Label(e: LedgerEntry): Subject {
    var named := Or(e.entryId, e.artifactPath);
    if named != "" then Named(named) else Typed(e.artifactType)
  }

  function IdOf(e: LedgerEntry): set<string> {
    if e.entryId != "" then {e.entryId} else {}
  }

  /** The non-empty entry ids of a ledger. */
  function IdsOf(entries: seq<LedgerEntry>): set<string> {
    if entries == [] then {} else IdsOf(entries[..|entries| - 1]) + IdOf(entries[|entries| - 1])
  }

  function TypesOf(entries: seq<LedgerEntry>): set<ArtifactType> {
    if entries == [] then {}
    else TypesOf(entries[..|entries| - 1]) + {entries[|entries| - 1].artifactType}
  }

  /** What an entry contributes, given the ids that occurred before it. */
  function EntryReasons(e: LedgerEntry, seen: set<string>): seq<Reason> {
    When(Quarantined(e.artifactPath), SummaryAsProof, Label(e))
    + When(e.hash == "", HashMissing, Label(e))
    + When(e.command != "" && e.artifactPath == "", CommandWithoutOutput, Label(e))
    + When(e.entryId != "" && e.entryId in seen, MutatedInPlace, Label(e))
  }

  function EntriesReasons(entries: seq<LedgerEntry>): seq<Reason> {
    if entries == [] then []
    else
      var init := entries[..|entries| - 1];
      EntriesReasons(init) + EntryReasons(entries[|entries| - 1], IdsOf(init))
  }

  function MissingReasons(required: seq<ArtifactType>, present: set<ArtifactType>): seq<Reason> {
    if required == [] then []
    else
      MissingReasons(required[..|required| - 1], present)
      + When(required[|required| - 1] !in present, RequiredMissing, Typed(required[|required| - 1]))
  }

  function EvidenceReasons(ledger: Ledger, runId: string, taskId: string, required: seq<ArtifactType>)
    : seq<Reason>
  {
    When(ledger.runId == "" || ledger.runId != runId, NotLinkedToRun, NOTHING)
    + When(ledger.taskId == "" || ledger.taskId != taskId, NotLinkedToTask, NOTHING)
    + When(ledger.selfCertificationUsed, SelfCertified, NOTHING)
    + EntriesReasons(ledger.entries)
    + MissingReasons(required, TypesOf(ledger.entries))
  }

  /** The ledger is linked to this run and task and is not self-certified. */
  predicate Linked(ledger: Ledger, runId: string, taskId: string) {
    && ledger.runId == runId != ""
    && ledger.taskId == taskId != ""
    && !ledger.selfCertificationUsed
  }

  predicate SoundEntry(e: LedgerEntry) {
    && !Quarantined(e.artifactPath)
    && e.hash != ""
    && (e.command != "" ==> e.artifactPath != "")
  }

  ghost predicate DistinctIds(entries: seq<LedgerEntry>) {
    forall i, j | 0 <= i < j < |entries| && entries[j].entryId != "" ::
      entries[i].entryId != entries[j].entryId
  }

  ghost predicate Present(entries: seq<LedgerEntry>, t: ArtifactType) {
    exists e :: e in entries && e.artifactType == t
  }

  /** What it takes for a ledger to support a PASS, said without the loop. */
  ghost predicate Supports(ledger: Ledger, runId: string, taskId: string, required: seq<ArtifactType>) {
    && Linked(ledger, runId, taskId)
    && AllSound(ledger.entries)
    && DistinctIds(ledger.entries)
    && AllPresent(ledger.entries, required)
  }

  lemma EntryClean(e: LedgerEntry, seen: set<string>)
    ensures EntryReasons(e, seen) == [] <==> SoundEntry(e) && (e.entryId == "" || e.entryId !in seen)
  {
  }

  lemma {:induction false} IdsOccur(entries: seq<LedgerEntry>, id: string)
    ensures id in IdsOf(entries) <==> id != "" && exists i :: 0 <= i < |entries| && entries[i].entryId == id
  {
    if entries != [] {
      var n := |entries| - 1;
      IdsOccur(entries[..n], id);
      if id in IdsOf(entries[..n]) {
        var i :| 0 <= i < n && entries[..n][i].entryId == id;
        assert entries[i].entryId == id;
      }
      if id != "" && exists i :: 0 <= i < |entries| && entries[i].entryId == id {
        var i :| 0 <= i < |entries| && entries[i].entryId == id;
        assert i < n ==> entries[..n][i].entryId == id;
      }
    }
  }

  lemma {:induction false} TypesOccur(entries: seq<LedgerEntry>, t: ArtifactType)
    ensures t in TypesOf(entries) <==> Present(entries, t)
  {
    if entries != [] {
      var n := |entries| - 1;
      TypesOccur(entries[..n], t);
      assert entries == entries[..n] + [entries[n]];
    }
  }

  /** Distinctness grows by one entry when its id did not occur before. */
  lemma DistinctGrows(init: seq<LedgerEntry>, last: LedgerEntry)
    ensures DistinctIds(init + [last]) <==>
            DistinctIds(init) && (last.entryId == "" || last.entryId !in IdsOf(init))
  {
    var all, n := init + [last], |init|;
    IdsOccur(init, last.entryId);
    if DistinctIds(all) {
      forall i, j | 0 <= i < j < n && init[j].entryId != "" ensures init[i].entryId != init[j].entryId {
        assert all[i].entryId != all[j].entryId;
      }
    }
    if last.entryId in IdsOf(init) {
      var i :| 0 <= i < n && init[i].entryId == last.entryId;
      assert all[i].entryId == all[n].entryId;
    }
  }

  ghost predicate AllSound(entries: seq<LedgerEntry>) {
    forall i | 0 <= i < |entries| :: SoundEntry(entries[i])
  }

  lemma NoEntries()
    ensures AllSound([]) && DistinctIds([])
  {
  }

  lemma {:induction false} EntriesClean(entries: seq<LedgerEntry>)
    ensures EntriesReasons(entries) == [] <==> AllSound(entries) && DistinctIds(entries)
  {
    hide SoundEntry, AllSound, DistinctIds, EntryReasons, IdsOf;
    if entries == [] {
      assert AllSound(entries) && DistinctIds(entries) by { NoEntries(); }
    } else {
      var n := |entries| - 1;
      var init, last := entries[..n], entries[n];
      EntriesClean(init);
      EntryClean(last, IdsOf(init));
      DistinctGrows(init, last);
      assert entries == init + [last];
      AllSoundGrows(init, last);
    }
  }

  lemma AllSoundGrows(init: seq<LedgerEntry>, last: LedgerEntry)
    ensures AllSound(init + [last]) <==> AllSound(init) && SoundEntry(last)
  {
    hide SoundEntry;
    var all := init + [last];
    if AllSound(all) {
      assert SoundEntry(all[|init|]);
      forall i | 0 <= i < |init| ensures SoundEntry(init[i]) { assert SoundEntry(all[i]) && all[i] == init[i]; }
    }
  }

  ghost predicate AllPresent(entries: seq<LedgerEntry>, required: seq<ArtifactType>) {
    forall i | 0 <= i < |required| :: Present(entries, required[i])
  }

  lemma {:induction false} NothingMissing(required: seq<ArtifactType>, entries: seq<LedgerEntry>)
    ensures MissingReasons(required, TypesOf(entries)) == [] <==> AllPresent(entries, required)
  {
    if required != [] {
      var n := |required| - 1;
      NothingMissing(required[..n], entries);
      TypesOccur(entries, required[n]);
      if AllPresent(entries, required) {
        assert forall i | 0 <= i < n :: Present(entries, required[i]);
      }
    }
  }

  /** The gate's accumulated reasons are empty exactly when the ledger supports a PASS. */
  lemma EvidenceGateExact(ledger: Ledger, runId: string, taskId: string, required: seq<ArtifactType>)
    ensures EvidenceReasons(ledger, runId, taskId, required) == [] <==>
            Supports(ledger, runId, taskId, required)
  {
    EntriesClean(ledger.entries);
    NothingMissing(required, ledger.entries);
  }

  lemma ScanStep(entries: seq<LedgerEntry>, i: nat)
    requires i < |entries|
    ensures EntriesReasons(entries[..i + 1])
            == EntriesReasons(entries[..i]) + EntryReasons(entries[i], IdsOf(entries[..i]))
    ensures IdsOf(entries[..i + 1]) == IdsOf(entries[..i]) + IdOf(entries[i])
    ensures TypesOf(entries[..i + 1]) == TypesOf(entries[..i]) + {entries[i].artifactType}
  {
    var upto := entries[..i + 1];
    assert upto[..|upto| - 1] == entries[..i] && upto[|upto| - 1] == entries[i];
  }

  /** The loop over the entries, with its two growing sets. */
  method ScanEntries(entries: seq<LedgerEntry>) returns (reasons: seq<Reason>, present: set<ArtifactType>)
    ensures reasons == EntriesReasons(entries) && present == TypesOf(entries)
  {
    var seen: set<string> := {};
    reasons, present := [], {};
    for i := 0 to |entries|
      invariant seen == IdsOf(entries[..i]) && present == TypesOf(entries[..i])
      invariant reasons == EntriesReasons(entries[..i])
    {
      var e := entries[i];
      ScanStep(entries, i);
      reasons := reasons + EntryReasons(e, seen);
      present := present + {e.artifactType};
      seen := seen + IdOf(e);
    }
    assert entries[..|entries|] == entries;
  }

  method ScanRequired(required: seq<ArtifactType>, present: set<ArtifactType>) returns (reasons: seq<Reason>)
    ensures reasons == MissingReasons(required, present)
  {
    reasons := [];
    for i := 0 to |required|
      invariant reasons == MissingReasons(required[..i], present)
    {
      assert required[..i + 1][..i] == required[..i];
      if required[i] !in present {
        reasons := reasons + [Reason(RequiredMissing, Typed(required[i]))];
      }
    }
    assert required[..|required|] == required;
  }

  method EvidenceGate(ledger: Ledger, runId: string, taskId: string, required: seq<ArtifactType>)
    returns (r: GateResult)
    ensures r == GateResult(EvidenceGateName, EvidenceReasons(ledger, runId, taskId, required))
    ensures r.Passed() <==> Supports(ledger, runId, taskId, required)
  {
    var reasons := When(ledger.runId == "" || ledger.runId != runId, NotLinkedToRun, NOTHING);
    reasons := reasons + When(ledger.taskId == "" || ledger.taskId != taskId, NotLinkedToTask, NOTHING);
    reasons := reasons + When(ledger.selfCertificationUsed, SelfCertified, NOTHING);
    var scanned, present := ScanEntries(ledger.entries);
    var missing := ScanRequired(required, present);
    r := GateResult(EvidenceGateName, reasons + scanned + missing);
    EvidenceGateExact(ledger, runId, taskId, required);
  }

  // ------------------------------------------------------------------ test gate

  datatype TestOutcome = TestOutcome(
    command: string, ran: bool, exitCode: Option<int>, outputPath: string,
    truncated: bool, skipped: bool, skipApproved: bool)

  function OutcomeReasons(o: TestOutcome): seq<Reason> {
    var about := OutcomeSubject(o);
    if o.skipped && !o.skipApproved then [Reason(SkippedUnapproved, about)]
    else if o.skipped then []
    else if !o.ran then [Reason(ClaimedWithoutRunning, about)]
    else RunReasons(o, about)
  }

  /** What a command that ran contributes. */
  function RunReasons(o: TestOutcome, about: Subject): seq<Reason> {
    When(o.exitCode == None, ExitCodeMissing, about)
    + When(o.outputPath == "", NoOutput, about)
    + When(o.truncated, Truncated, about)
    + When(o.exitCode.Some? && o.exitCode.value != 0, CommandFailed, about)
  }

  function OutcomeSubject(o: TestOutcome): Subject {
    Named(Or(o.command, Or(o.outputPath, "<command>")))
  }

  function OutcomesReasons(outcomes: seq<TestOutcome>): seq<Reason> {
    if outcomes == [] then []
    else OutcomesReasons(outcomes[..|outcomes| - 1]) + OutcomeReasons(outcomes[|outcomes| - 1])
  }

  predicate AnyRan(outcomes: seq<TestOutcome>) {
    exists i | 0 <= i < |outcomes| :: outcomes[i].ran
  }

  function TestReasons(outcomes: seq<TestOutcome>, runType: RunType, applicable: bool): seq<Reason> {
    When(applicable && runType == Implementation && !AnyRan(outcomes), NoTestsRan, NOTHING)
    + OutcomesReasons(outcomes)
  }

  /** An outcome that supports PASS: an approved skip, or a captured run that exited 0. */
  predicate Accepted(o: TestOutcome) {
    if o.skipped then o.skipApproved
    else o.ran && o.exitCode == Some(0) && o.outputPath != "" && !o.truncated
  }

  predicate AllAccepted(outcomes: seq<TestOutcome>) {
    forall i | 0 <= i < |outcomes| :: Accepted(outcomes[i])
  }

  predicate TestsPass(outcomes: seq<TestOutcome>, runType: RunType, applicable: bool) {
    && (applicable && runType == Implementation ==> AnyRan(outcomes))
    && AllAccepted(outcomes)
  }

  lemma OutcomeClean(o: TestOutcome)
    ensures OutcomeReasons(o) == [] <==> Accepted(o)
  {
  }

  lemma AcceptedGrows(init: seq<TestOutcome>, last: TestOutcome)
    ensures AllAccepted(init + [last]) <==> AllAccepted(init) && Accepted(last)
  {
    var all := init + [last];
    assert all[|init|] == last;
    assert forall i | 0 <= i < |init| :: all[i] == init[i];
  }

  lemma {:induction false} OutcomesClean(outcomes: seq<TestOutcome>)
    ensures OutcomesReasons(outcomes) == [] <==> AllAccepted(outcomes)
  {
    if outcomes != [] {
      var init, last := outcomes[..|outcomes| - 1], outcomes[|outcomes| - 1];
      OutcomesClean(init);
      OutcomeClean(last);
      AcceptedGrows(init, last);
      assert outcomes == init + [last];
    }
  }

  lemma OutcomeStep(outcomes: seq<TestOutcome>, i: nat)
    requires i < |outcomes|
    ensures OutcomesReasons(outcomes[..i + 1]) == OutcomesReasons(outcomes[..i]) + OutcomeReasons(outcomes[i])
  {
    assert outcomes[..i + 1][..i] == outcomes[..i];
  }

  method ScanOutcomes(outcomes: seq<TestOutcome>) returns (reasons: seq<Reason>)
    ensures reasons == OutcomesReasons(outcomes)
  {
    reasons := [];
    for i := 0 to |outcomes|
      invariant reasons == OutcomesReasons(outcomes[..i])
    {
      OutcomeStep(outcomes, i);
      var o := outcomes[i];
      var about := OutcomeSubject(o);
      if o.skipped && !o.skipApproved {
        reasons := reasons + [Reason(SkippedUnapproved, about)];
        continue;
      }
      if o.skipped { continue; }
      if !o.ran {
        reasons := reasons + [Reason(ClaimedWithoutRunning, about)];
        continue;
      }
      reasons := reasons + RunReasons(o, about);
    }
    assert outcomes[..|outcomes|] == outcomes;
  }

  method TestGate(outcomes: seq<TestOutcome>, runType: RunType, applicable: bool) returns (r: GateResult)
    ensures r == GateResult(TestGateName, TestReasons(outcomes, runType, applicable))
    ensures r.Passed() <==> TestsPass(outcomes, runType, applicable)
  {
    var reasons := When(applicable && runType == Implementation && !AnyRan(outcomes), NoTestsRan, NOTHING);
    var scanned := ScanOutcomes(outcomes);
    OutcomesClean(outcomes);
    r := GateResult(TestGateName, reasons + scanned);
  }

  // ----------------------------------------------------------------- scope gate

  /** The glob matcher of the standard library, kept abstract. */
  type Matcher = (string, string) -> bool

  predicate MatchesAny(m: Matcher, path: string, patterns: seq<string>) {
    exists i | 0 <= i < |patterns| :: m(ForwardSlashes(path), ForwardSlashes(patterns[i]))
  }

  datatype ScopeRules = ScopeRules(
    inScope: seq<string>, outOfScope: seq<string>, approved: seq<string>,
    protectedFiles: seq<string>, harnessFiles: seq<string>, frameworkChange: bool)

  function PathReasons(m: Matcher, rules: ScopeRules, path: string): seq<Reason> {
    var approved := MatchesAny(m, path, rules.approved);
    if MatchesAny(m, path, rules.harnessFiles) && !rules.frameworkChange then [Reason(HarnessFile, Named(path))]
    else if MatchesAny(m, path, rules.protectedFiles) && !approved then [Reason(ProtectedFile, Named(path))]
    else if MatchesAny(m, path, rules.outOfScope) && !approved then [Reason(OutOfScopeFile, Named(path))]
    else When(!MatchesAny(m, path, rules.inScope) && !approved, OutsideScope, Named(path))
  }

  function ScopeReasons(m: Matcher, rules: ScopeRules, changed: seq<string>): seq<Reason> {
    if changed == [] then []
    else ScopeReasons(m, rules, changed[..|changed| - 1]) + PathReasons(m, rules, changed[|changed| - 1])
  }

  /** A path a diff may touch. */
  predicate InScope(m: Matcher, rules: ScopeRules, path: string) {
    && (MatchesAny(m, path, rules.harnessFiles) ==> rules.frameworkChange)
    && (|| MatchesAny(m, path, rules.approved)
        || (&& MatchesAny(m, path, rules.inScope)
            && !MatchesAny(m, path, rules.outOfScope)
            && !MatchesAny(m, path, rules.protectedFiles)))
  }

  predicate AllInScope(m: Matcher, rules: ScopeRules, changed: seq<string>) {
    forall i | 0 <= i < |changed| :: InScope(m, rules, changed[i])
  }

  lemma PathClean(m: Matcher, rules: ScopeRules, path: string)
    ensures PathReasons(m, rules, path) == [] <==> InScope(m, rules, path)
  {
  }

  lemma InScopeGrows(m: Matcher, rules: ScopeRules, init: seq<string>, last: string)
    ensures AllInScope(m, rules, init + [last]) <==> AllInScope(m, rules, init) && InScope(m, rules, last)
  {
    var all := init + [last];
    assert all[|init|] == last;
    assert forall i | 0 <= i < |init| :: all[i] == init[i];
  }

  lemma {:induction false} ScopeClean(m: Matcher, rules: ScopeRules, changed: seq<string>)
    ensures ScopeReasons(m, rules, changed) == [] <==> AllInScope(m, rules, changed)
  {
    if changed != [] {
      var init, last := changed[..|changed| - 1], changed[|changed| - 1];
      ScopeClean(m, rules, init);
      PathClean(m, rules, last);
      InScopeGrows(m, rules, init, last);
      assert changed == init + [last];
    }
  }

  method ScopeGate(m: Matcher, rules: ScopeRules, changed: seq<string>) returns (r: GateResult)
    ensures r == GateResult(ScopeGateName, ScopeReasons(m, rules, changed))
    ensures r.Passed() <==> AllInScope(m, rules, changed)
  {
    var reasons: seq<Reason> := [];
    for i := 0 to |changed|
      invariant reasons == ScopeReasons(m, rules, changed[..i])
    {
      assert changed[..i + 1][..i] == changed[..i];
      var path := changed[i];
      var approved := MatchesAny(m, path, rules.approved);
      if MatchesAny(m, path, rules.harnessFiles) && !rules.frameworkChange {
        reasons := reasons + [Reason(HarnessFile, Named(path))];
        continue;
      }
      if MatchesAny(m, path, rules.protectedFiles) && !approved {
        reasons := reasons + [Reason(ProtectedFile, Named(path))];
        continue;
      }
      if MatchesAny(m, path, rules.outOfScope) && !approved {
        reasons := reasons + [Reason(OutOfScopeFile, Named(path))];
        continue;
      }
      if !MatchesAny(m, path, rules.inScope) && !approved {
        reasons := reasons + [Reason(OutsideScope, Named(path))];
      }
    }
    assert changed[..|changed|] == changed;
    ScopeClean(m, rules, changed);
    r := GateResult(ScopeGateName, reasons);
  }

  // --------------------------------------------------- self-certification and PR

  datatype Certification = Certification(
    codingRunId: string, verifierRunId: string, codingId: string, verifierId: string,
    decision: Decision, summaryUsed: bool, executorMarkedDone: bool)

  function SelfCertificationReasons(c: Certification): seq<Reason> {
    When(c.codingRunId != "" && c.verifierRunId != "" && c.codingRunId == c.verifierRunId, SameRunId, NOTHING)
    + When(c.codingId != "" && c.verifierId != "" && c.codingId == c.verifierId, SameAgent, NOTHING)
    + When(c.summaryUsed, SummaryUsed, NOTHING)
    + When(c.executorMarkedDone && c.decision != Pass, DoneWithoutVerifier, NOTHING)
  }

  /** Not known to be the same identity. */
  predicate Apart(a: string, b: string) { a == "" || b == "" || a != b }

  method SelfCertificationGate(c: Certification) returns (r: GateResult)
    ensures r == GateResult(SelfCertificationGateName, SelfCertificationReasons(c))
    ensures r.Passed() <==>
      && Apart(c.codingRunId, c.verifierRunId) && Apart(c.codingId, c.verifierId)
      && !c.summaryUsed && (c.executorMarkedDone ==> c.decision == Pass)
  {
    var reasons: seq<Reason> := [];
    if c.codingRunId != "" && c.verifierRunId != "" && c.codingRunId == c.verifierRunId {
      reasons := reasons + [Reason(SameRunId, NOTHING)];
    }
    if c.codingId != "" && c.verifierId != "" && c.codingId == c.verifierId {
      reasons := reasons + [Reason(SameAgent, NOTHING)];
    }
    if c.summaryUsed {
      reasons := reasons + [Reason(SummaryUsed, NOTHING)];
    }
    if c.executorMarkedDone && c.decision != Pass {
      reasons := reasons + [Reason(DoneWithoutVerifier, NOTHING)];
    }
    r := GateResult(SelfCertificationGateName, reasons);
  }

  function PrReasons(decision: Decision, url: string, skipReason: string, autoMerge: bool, autoDeploy: bool)
    : seq<Reason>
  {
    When(autoMerge, MergeRequested, NOTHING)
    + When(autoDeploy, DeployRequested, NOTHING)
    + When(decision == Pass && url == "" && skipReason == "", PrMissing, NOTHING)
  }
}
