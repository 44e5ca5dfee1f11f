/**
 Run records as JSON snapshots. Member names are an enumeration, and a string that holds one of the
 values of an enumeration is a `Word`; everything else is JSON as it is.
 */
module Serialization {
  import opened Core
  import opened Records

  datatype Field =
    | FRunId | FState | FTenantId | FManifest | FVerifierReport | FChainResult | FChainExecutionResult
    | FLlmInvocations | FAttempts | FArtifacts
    | FTaskId | FAutoMerge | FAutoDeploy | FFaults
    | FVerifierId | FVerifierRunId | FCodingRunId | FDecision | FFailureReasons
    | FAttemptId | FAttemptNumber | FBaseCommit | FWorkspaceId | FFinalStatus
    | FArtifactId | FArtifactType | FPath | FHash | FRecordedBy
    | FTaskType | FChainId | FMode | FHandlerResults | FVerifierDecision | FEvalScore | FPrStatus | FSelfCertification
    | FHandlerName | FHandlerType | FStatus | FArtifactsCreated | FGateResults | FMetadata
    | FEvidenceRefs | FNextHandler | FCorrections | FKey(name: string)
    | FGateName | FReasons | FEnvelopeGate

  datatype Word =
    | OfState(runState: RunState) | OfVerdict(verdict: Decision) | OfFinal(final: FinalStatus)
    | OfArtifactType(artifactType: ArtifactType) | OfTask(task: TaskType) | OfChain(chain: Option<ChainId>)
    | OfMode(mode: RunType) | OfPr(pr: PrStatus) | OfHandler(handler: HandlerName) | OfType(handlerType: HandlerType)
    | OfStatus(status: HandlerStatus) | OfDecision(decision: HandlerDecision) | OfGate(gate: GateName)
    | OfReason(reason: Reason)

  datatype Json =
    | Null | Boolean(truth: bool) | Integer(number: int) | Decimal(value: real) | Text(text: string) | Name(word: Word)
    | Items(items: seq<Json>) | Object(members: Members)

  type Members = map<Field, Json>

  // ---------------------------------------------------------------------- primitives

  function Optional(o: Option<string>): Json {
    match o
    case None => Null
    case Some(s) => Text(s)
  }

  function At(m: Members, k: Field): Json {
    if k in m then m[k] else Null
  }

  function AsText(j: Json): Option<string> { if j.Text? then Some(j.text) else None }

  function AsOptional(j: Json): Option<Option<string>> {
    if j.Null? then Some(None) else if j.Text? then Some(Some(j.text)) else None
  }

  function AsBool(j: Json): Option<bool> { if j.Boolean? then Some(j.truth) else None }

  function AsVerdict(j: Json): Option<Decision> { if j.Name? && j.word.OfVerdict? then Some(j.word.verdict) else None }

  function AsReason(j: Json): Option<Reason> { if j.Name? && j.word.OfReason? then Some(j.word.reason) else None }

  function Each<T>(ts: seq<T>, encode: T -> Json): (r: seq<Json>)
    ensures |r| == |ts|
  {
    if ts == [] then [] else Each(ts[..|ts| - 1], encode) + [encode(ts[|ts| - 1])]
  }

  function DecodeEach<T>(js: seq<Json>, decode: Json -> Option<T>): Option<seq<T>> {
    if js == [] then Some([])
    else
      match (DecodeEach(js[..|js| - 1], decode), decode(js[|js| - 1]))
      case (Some(init), Some(last)) => Some(init + [last])
      case _ => None
  }

  /** A list member: absent and null lists are empty. */
  function AsList<T>(j: Json, decode: Json -> Option<T>): Option<seq<T>> {
    if j.Null? then Some([]) else if j.Items? then DecodeEach(j.items, decode) else None
  }

  function List<T>(ts: seq<T>, encode: T -> Json): Json {
    Items(Each(ts, encode))
  }

  /** What holds of one element holds of the list. */
  lemma {:induction false} ListRoundTrip<T(!new)>(ts: seq<T>, encode: T -> Json, decode: Json -> Option<T>)
    requires forall t: T :: decode(encode(t)) == Some(t)
    ensures AsList(List(ts, encode), decode) == Some(ts)
    decreases |ts|
  {
    if ts != [] {
      var init, last := ts[..|ts| - 1], ts[|ts| - 1];
      ListRoundTrip(init, encode, decode);
      var js := Each(ts, encode);
      assert js[..|js| - 1] == Each(init, encode) && js[|js| - 1] == encode(last);
      assert ts == init + [last];
    }
  }

  /** A JSON object with these members, all the required ones among them and no others. */
  predicate Shaped(j: Json, required: set<Field>, allowed: set<Field>) {
    j.Object? && required <= j.members.Keys <= allowed
  }

  function EncodeText(s: string): Json { Text(s) }

  function EncodeReason(r: Reason): Json { Name(OfReason(r)) }

  // ------------------------------------------------------------------------ manifests

  const MANIFEST := {FRunId, FTaskId, FAutoMerge, FAutoDeploy, FFaults}

  function EncodeManifest(m: Manifest): Json {
    Object(map[FRunId := Text(m.runId), FTaskId := Text(m.taskId), FAutoMerge := Boolean(m.autoMerge),
               FAutoDeploy := Boolean(m.autoDeploy), FFaults := List(m.faults, EncodeReason)])
  }

  function DecodeManifest(j: Json): Option<Manifest> {
    if !Shaped(j, {}, MANIFEST) then None
    else
      var m := j.members;
      var faults := AsList(At(m, FFaults), AsReason);
      var runId := if FRunId in m then AsText(m[FRunId]) else Some("");
      var taskId := if FTaskId in m then AsText(m[FTaskId]) else Some("");
      var merge := if FAutoMerge in m then AsBool(m[FAutoMerge]) else Some(false);
      var deploy := if FAutoDeploy in m then AsBool(m[FAutoDeploy]) else Some(false);
      if faults.Some? && runId.Some? && taskId.Some? && merge.Some? && deploy.Some?
      then Some(Manifest(runId.value, taskId.value, merge.value, deploy.value, faults.value))
      else None
  }

  lemma ManifestRoundTrip(m: Manifest)
    ensures DecodeManifest(EncodeManifest(m)) == Some(m)
  {
    hide List, AsList;
    ListRoundTrip(m.faults, EncodeReason, AsReason);
  }

  // ------------------------------------------------------------------ verifier reports

  const REPORT := {FTaskId, FRunId, FVerifierId, FVerifierRunId, FCodingRunId, FDecision, FFailureReasons}

  function EncodeReport(r: VerifierReport): Json {
    Object(map[FTaskId := Text(r.taskId), FRunId := Text(r.runId), FVerifierId := Text(r.verifierId),
               FVerifierRunId := Text(r.verifierRunId), FCodingRunId := Text(r.codingRunId),
               FDecision := Name(OfVerdict(r.decision)), FFailureReasons := List(r.failureReasons, EncodeText)])
  }

  function DecodeReport(j: Json): Option<VerifierReport> {
    if !Shaped(j, {FTaskId, FRunId, FVerifierId, FVerifierRunId, FCodingRunId}, REPORT) then None
    else
      var m := j.members;
      var task, run, verifier := AsText(At(m, FTaskId)), AsText(At(m, FRunId)), AsText(At(m, FVerifierId));
      var verifierRun, coding := AsText(At(m, FVerifierRunId)), AsText(At(m, FCodingRunId));
      var decision := if FDecision in m then AsVerdict(m[FDecision]) else Some(Pending);
      var reasons := AsList(At(m, FFailureReasons), AsText);
      if task.Some? && run.Some? && verifier.Some? && verifierRun.Some? && coding.Some? && decision.Some? && reasons.Some?
      then Some(VerifierReport(task.value, run.value, verifier.value, verifierRun.value, coding.value, decision.value,
                               reasons.value))
      else None
  }

  lemma ReportRoundTrip(r: VerifierReport)
    ensures DecodeReport(EncodeReport(r)) == Some(r)
  {
    hide List, AsList;
    ListRoundTrip(r.failureReasons, EncodeText, AsText);
  }

  // ------------------------------------------------------------------ attempts, artifacts

  const ATTEMPT := {FAttemptId, FAttemptNumber, FBaseCommit, FWorkspaceId, FFinalStatus}

  function EncodeFinal(s: Option<FinalStatus>): Json {
    match s
    case None => Null
    case Some(f) => Name(OfFinal(f))
  }

  function AsFinal(j: Json): Option<Option<FinalStatus>> {
    if j.Null? then Some(None)
    else if j.Name? && j.word.OfFinal? then Some(Some(j.word.final)) else None
  }

  function EncodeAttempt(a: RunAttempt): Json {
    Object(map[FAttemptId := Text(a.attemptId), FAttemptNumber := Integer(a.number),
               FBaseCommit := Optional(a.baseCommit), FWorkspaceId := Optional(a.workspaceId),
               FFinalStatus := EncodeFinal(a.finalStatus)])
  }

  function DecodeAttempt(j: Json): Option<RunAttempt> {
    if !Shaped(j, {FAttemptId, FAttemptNumber}, ATTEMPT) then None
    else
      var m := j.members;
      var id, number := AsText(At(m, FAttemptId)), At(m, FAttemptNumber);
      var commit, workspace, final := AsOptional(At(m, FBaseCommit)), AsOptional(At(m, FWorkspaceId)), AsFinal(At(m, FFinalStatus));
      if id.Some? && number.Integer? && commit.Some? && workspace.Some? && final.Some?
      then Some(RunAttempt(id.value, number.number, commit.value, workspace.value, final.value))
      else None
  }

  lemma AttemptRoundTrip(a: RunAttempt)
    ensures DecodeAttempt(EncodeAttempt(a)) == Some(a)
  {
  }

  const ARTIFACT := {FArtifactId, FRunId, FTaskId, FArtifactType, FPath, FHash, FAttemptId, FRecordedBy}

  function EncodeArtifact(a: Artifact): Json {
    Object(map[FArtifactId := Text(a.name), FRunId := Text(a.runId), FTaskId := Text(a.taskId),
               FArtifactType := Name(OfArtifactType(a.artifactType)), FPath := Text(a.path), FHash := Text(a.hash),
               FAttemptId := Optional(a.attemptId), FRecordedBy := Text(a.recordedBy)])
  }

  function DecodeArtifact(j: Json): Option<Artifact> {
    if !Shaped(j, {FArtifactId, FRunId, FTaskId, FArtifactType, FPath, FHash}, ARTIFACT) then None
    else
      var m := j.members;
      var id, run, task := AsText(At(m, FArtifactId)), AsText(At(m, FRunId)), AsText(At(m, FTaskId));
      var kind, path, hash := At(m, FArtifactType), AsText(At(m, FPath)), AsText(At(m, FHash));
      var attempt := AsOptional(At(m, FAttemptId));
      var author := if FRecordedBy in m then AsText(m[FRecordedBy]) else Some("");
      if && id.Some? && run.Some? && task.Some? && kind.Name? && kind.word.OfArtifactType?
         && path.Some? && hash.Some? && attempt.Some? && author.Some?
      then Some(Artifact(id.value, run.value, task.value, kind.word.artifactType, path.value, hash.value, attempt.value,
                         author.value))
      else None
  }

  lemma ArtifactRoundTrip(a: Artifact)
    ensures DecodeArtifact(EncodeArtifact(a)) == Some(a)
  {
  }

  // ------------------------------------------------------------------------ chain results

  const GATE := {FGateName, FStatus, FReasons}

  function EncodeGate(g: GateResult): Json {
    Object(map[FGateName := Name(OfGate(g.gate)), FStatus := Name(OfVerdict(if g.Passed() then Pass else Fail)),
               FReasons := List(g.reasons, EncodeReason)])
  }

  function DecodeGate(j: Json): Option<GateResult> {
    if !Shaped(j, {FGateName, FStatus}, GATE) then None
    else
      var m := j.members;
      var gate, reasons := At(m, FGateName), AsList(At(m, FReasons), AsReason);
      if gate.Name? && gate.word.OfGate? && reasons.Some? then Some(GateResult(gate.word.gate, reasons.value)) else None
  }

  lemma GateRoundTrip(g: GateResult)
    ensures DecodeGate(EncodeGate(g)) == Some(g)
  {
    hide List, AsList;
    ListRoundTrip(g.reasons, EncodeReason, AsReason);
  }

  const HANDLER := {FHandlerName, FHandlerType, FStatus, FDecision, FArtifactsCreated, FGateResults, FFailureReasons, FMetadata,
                    FEvidenceRefs, FNextHandler, FCorrections}

  function NotesOf(metadata: map<string, string>): Members {
    map k | k in metadata :: FKey(k) := Text(metadata[k])
  }

  function PrOf(p: Option<PrStatus>): Members {
    match p
    case None => map[]
    case Some(s) => map[FPrStatus := Name(OfPr(s))]
  }

  /** The metadata of a result, the pull request status among it. */
  function EncodeMetadata(p: Option<PrStatus>, metadata: map<string, string>): Json {
    Object(NotesOf(metadata) + PrOf(p))
  }

  function MembersOf(j: Json): Option<Members> {
    if j.Null? then Some(map[]) else if j.Object? then Some(j.members) else None
  }

  function AsPr(m: Members): Option<Option<PrStatus>> {
    if FPrStatus !in m then Some(None)
    else if m[FPrStatus].Name? && m[FPrStatus].word.OfPr? then Some(Some(m[FPrStatus].word.pr))
    else None
  }

  function AsNotes(m: Members): map<string, string> {
    map f | f in m && f.FKey? && m[f].Text? :: f.name := m[f].text
  }

  lemma MetadataMember(p: Option<PrStatus>, metadata: map<string, string>, k: string)
    ensures var m := NotesOf(metadata) + PrOf(p);
            && (FKey(k) in m <==> k in metadata)
            && (k in metadata ==> m[FKey(k)] == Text(metadata[k]))
  {
  }

  lemma NotesRoundTrip(p: Option<PrStatus>, metadata: map<string, string>)
    ensures AsNotes(NotesOf(metadata) + PrOf(p)) == metadata
  {
    hide NotesOf, PrOf;
    var m := NotesOf(metadata) + PrOf(p);
    var notes := AsNotes(m);
    forall k: string ensures (k in notes <==> k in metadata) && (k in metadata ==> notes[k] == metadata[k]) {
      MetadataMember(p, metadata, k);
      if k in notes {
        var f :| f in m && f.FKey? && m[f].Text? && f.name == k;
        assert f == FKey(k);
      }
      if k in metadata { assert FKey(k) in m && FKey(k).name == k; }
    }
  }

  lemma PrRoundTrip(p: Option<PrStatus>, metadata: map<string, string>)
    ensures AsPr(NotesOf(metadata) + PrOf(p)) == Some(p)
  {
    assert FPrStatus !in NotesOf(metadata);
  }

  lemma MetadataRoundTrip(p: Option<PrStatus>, metadata: map<string, string>)
    ensures MembersOf(EncodeMetadata(p, metadata)).Some?
    ensures AsPr(MembersOf(EncodeMetadata(p, metadata)).value) == Some(p)
    ensures AsNotes(MembersOf(EncodeMetadata(p, metadata)).value) == metadata
  {
    hide NotesOf, PrOf, AsPr, AsNotes;
    NotesRoundTrip(p, metadata);
    PrRoundTrip(p, metadata);
  }

  function EncodeHandler(r: HandlerResult): Json {
    Object(map[FHandlerName := Name(OfHandler(r.handlerName)), FHandlerType := Name(OfType(r.handlerType)),
               FStatus := Name(OfStatus(r.status)), FDecision := Name(OfDecision(r.decision)),
               FArtifactsCreated := List(r.artifactsCreated, EncodeText), FGateResults := List(r.gateResults, EncodeGate),
               FFailureReasons := List(r.failureReasons, EncodeReason),
               FMetadata := EncodeMetadata(r.prStatus, r.details.metadata),
               FEvidenceRefs := List(r.details.evidenceRefs, EncodeText), FNextHandler := Text(r.details.nextHandler),
               FCorrections := List(r.details.corrections, EncodeText)])
  }

  function TextOr(m: Members, k: Field): Option<string> {
    if k in m then AsText(m[k]) else Some("")
  }

  function DecodeDetails(m: Members, metadata: Members): Option<Details> {
    var refs, next, corrections := AsList(At(m, FEvidenceRefs), AsText), TextOr(m, FNextHandler), AsList(At(m, FCorrections), AsText);
    if refs.Some? && next.Some? && corrections.Some?
    then Some(Details(refs.value, next.value, corrections.value, AsNotes(metadata)))
    else None
  }

  function DecodeHandler(j: Json): Option<HandlerResult> {
    if !Shaped(j, {FHandlerName, FHandlerType, FStatus, FDecision}, HANDLER) || MembersOf(At(j.members, FMetadata)).None? then None
    else
      var m, metadata := j.members, MembersOf(At(j.members, FMetadata)).value;
      var name, kind, status, decision := At(m, FHandlerName), At(m, FHandlerType), At(m, FStatus), At(m, FDecision);
      var artifacts, gates := AsList(At(m, FArtifactsCreated), AsText), AsList(At(m, FGateResults), DecodeGate);
      var reasons, pr, details := AsList(At(m, FFailureReasons), AsReason), AsPr(metadata), DecodeDetails(m, metadata);
      if && name.Name? && name.word.OfHandler? && kind.Name? && kind.word.OfType?
         && status.Name? && status.word.OfStatus? && decision.Name? && decision.word.OfDecision?
         && artifacts.Some? && gates.Some? && reasons.Some? && pr.Some? && details.Some?
      then Some(HandlerResult(name.word.handler, kind.word.handlerType, status.word.status, decision.word.decision,
                              artifacts.value, gates.value, reasons.value, pr.value, details.value))
      else None
  }

  lemma DetailsRoundTrip(r: HandlerResult)
    ensures var m := EncodeHandler(r).members;
            && MembersOf(At(m, FMetadata)).Some? && AsPr(MembersOf(At(m, FMetadata)).value) == Some(r.prStatus)
            && DecodeDetails(m, MembersOf(At(m, FMetadata)).value) == Some(r.details)
  {
    hide List, AsList, EncodeGate, EncodeMetadata, MembersOf, AsPr, AsNotes;
    MetadataRoundTrip(r.prStatus, r.details.metadata);
    ListRoundTrip(r.details.evidenceRefs, EncodeText, AsText);
    ListRoundTrip(r.details.corrections, EncodeText, AsText);
  }

  lemma HandlerRoundTrip(r: HandlerResult)
    ensures DecodeHandler(EncodeHandler(r)) == Some(r)
  {
    hide List, AsList, EncodeGate, DecodeGate, EncodeMetadata, MembersOf, AsPr, DecodeDetails;
    DetailsRoundTrip(r);
    ListRoundTrip(r.artifactsCreated, EncodeText, AsText);
    forall g: GateResult ensures DecodeGate(EncodeGate(g)) == Some(g) { GateRoundTrip(g); }
    ListRoundTrip(r.gateResults, EncodeGate, DecodeGate);
    ListRoundTrip(r.failureReasons, EncodeReason, AsReason);
  }

  const RESULT := {FRunId, FTaskId, FTaskType, FChainId, FMode, FHandlerResults, FFinalStatus, FVerifierDecision, FEvalScore,
                   FPrStatus, FSelfCertification, FAutoMerge, FAutoDeploy}

  function EncodeScore(s: Option<real>): Json {
    match s
    case None => Null
    case Some(v) => Decimal(v)
  }

  function AsScore(j: Json): Option<Option<real>> {
    if j.Null? then Some(None) else if j.Decimal? then Some(Some(j.value)) else None
  }

  /** The dump leaves the evidence artifacts out. */
  function EncodeResult(r: ChainExecutionResult): Json {
    Object(map[FRunId := Text(r.runId), FTaskId := Text(r.taskId), FTaskType := Name(OfTask(r.taskType)),
               FChainId := Name(OfChain(r.chainId)), FMode := Name(OfMode(r.mode)),
               FHandlerResults := List(r.handlerResults, EncodeHandler), FFinalStatus := Name(OfFinal(r.finalStatus)),
               FVerifierDecision := Name(OfVerdict(r.verifierDecision)), FEvalScore := EncodeScore(r.evalScore),
               FPrStatus := Name(OfPr(r.prStatus)), FSelfCertification := Boolean(r.selfCertificationUsed),
               FAutoMerge := Boolean(r.autoMerge), FAutoDeploy := Boolean(r.autoDeploy)])
  }

  function BoolOr(m: Members, k: Field): Option<bool> {
    if k in m then AsBool(m[k]) else Some(false)
  }

  function VerdictOr(m: Members): Option<Decision> {
    if FVerifierDecision in m then AsVerdict(m[FVerifierDecision]) else Some(Pending)
  }

  function FinalOr(m: Members): Option<FinalStatus> {
    if FFinalStatus !in m then Some(RunBlocked)
    else if m[FFinalStatus].Name? && m[FFinalStatus].word.OfFinal? then Some(m[FFinalStatus].word.final) else None
  }

  function PrOr(m: Members): Option<PrStatus> {
    if FPrStatus !in m then Some(NotRequired)
    else if m[FPrStatus].Name? && m[FPrStatus].word.OfPr? then Some(m[FPrStatus].word.pr) else None
  }

  function DecodeResult(j: Json): Option<ChainExecutionResult> {
    if !Shaped(j, {FRunId, FTaskId, FTaskType, FChainId, FMode}, RESULT) then None
    else
      var m := j.members;
      var run, task := AsText(At(m, FRunId)), AsText(At(m, FTaskId));
      var kind, chain, mode := At(m, FTaskType), At(m, FChainId), At(m, FMode);
      var handlers := AsList(At(m, FHandlerResults), DecodeHandler);
      var final, verdict, score, pr := FinalOr(m), VerdictOr(m), AsScore(At(m, FEvalScore)), PrOr(m);
      var certified, merge, deploy := BoolOr(m, FSelfCertification), BoolOr(m, FAutoMerge), BoolOr(m, FAutoDeploy);
      if && run.Some? && task.Some? && kind.Name? && kind.word.OfTask? && chain.Name? && chain.word.OfChain?
         && mode.Name? && mode.word.OfMode? && handlers.Some? && final.Some? && verdict.Some? && score.Some? && pr.Some?
         && certified.Some? && merge.Some? && deploy.Some?
      then Some(ChainExecutionResult(run.value, task.value, kind.word.task, chain.word.chain, mode.word.mode, handlers.value,
                                     final.value, verdict.value, score.value, pr.value, certified.value, merge.value,
                                     deploy.value, []))
      else None
  }

  lemma ResultIsShaped(r: ChainExecutionResult)
    ensures Shaped(EncodeResult(r), {FRunId, FTaskId, FTaskType, FChainId, FMode}, RESULT)
  {
    hide List, EncodeScore;
  }

  lemma ResultDefaults(r: ChainExecutionResult)
    ensures var m := EncodeResult(r).members;
            && FinalOr(m) == Some(r.finalStatus) && VerdictOr(m) == Some(r.verifierDecision) && PrOr(m) == Some(r.prStatus)
            && AsScore(At(m, FEvalScore)) == Some(r.evalScore)
  {
    hide List;
  }

  lemma ResultFlags(r: ChainExecutionResult)
    ensures var m := EncodeResult(r).members;
            && BoolOr(m, FSelfCertification) == Some(r.selfCertificationUsed)
            && BoolOr(m, FAutoMerge) == Some(r.autoMerge) && BoolOr(m, FAutoDeploy) == Some(r.autoDeploy)
  {
    hide List, EncodeScore;
  }

  lemma ResultRoundTrip(r: ChainExecutionResult)
    ensures DecodeResult(EncodeResult(r)) == Some(StrippedResult(r))
  {
    hide List, AsList, EncodeHandler, DecodeHandler, Shaped, FinalOr, VerdictOr, PrOr, AsScore, BoolOr, EncodeScore;
    ResultIsShaped(r);
    ResultDefaults(r);
    ResultFlags(r);
    forall h: HandlerResult ensures DecodeHandler(EncodeHandler(h)) == Some(h) { HandlerRoundTrip(h); }
    ListRoundTrip(r.handlerResults, EncodeHandler, DecodeHandler);
  }

  // ------------------------------------------------------------------------------ plans

  const PLAN := {FRunId, FTaskType, FChainId, FEnvelopeGate}

  function EncodePlan(p: Plan): Json {
    Object(map[FRunId := Text(p.runId), FTaskType := Name(OfTask(p.taskType)), FChainId := Name(OfChain(Some(p.chainId))),
               FEnvelopeGate := List(p.envelopeReasons, EncodeReason)])
  }

  /** A stored plan is read back as the dictionary it is. */
  function DecodePlan(j: Json): Option<Plan> {
    if !Shaped(j, PLAN, PLAN) then None
    else
      var m := j.members;
      var run, task, chain := AsText(At(m, FRunId)), At(m, FTaskType), At(m, FChainId);
      var reasons := AsList(At(m, FEnvelopeGate), AsReason);
      if && run.Some? && task.Name? && task.word.OfTask? && chain.Name? && chain.word.OfChain? && chain.word.chain.Some?
         && reasons.Some?
      then Some(Plan(run.value, task.word.task, chain.word.chain.value, reasons.value))
      else None
  }

  lemma PlanRoundTrip(p: Plan)
    ensures DecodePlan(EncodePlan(p)) == Some(p)
  {
    hide List, AsList;
    ListRoundTrip(p.envelopeReasons, EncodeReason, AsReason);
  }

  // ---------------------------------------------------------------------------- records

  /** An optional part: null when there is none. */
  function Part<T>(o: Option<T>, encode: T -> Json): Json {
    match o
    case None => Null
    case Some(t) => encode(t)
  }

  function AsPart<T>(j: Json, decode: Json -> Option<T>): Option<Option<T>> {
    if j.Null? then Some(None)
    else
      match decode(j)
      case None => None
      case Some(t) => Some(Some(t))
  }

  function Encode(r: RunRecord): Json {
    Object(map[FRunId := Text(r.runId), FState := Name(OfState(r.state)), FTenantId := Optional(r.tenantId),
               FManifest := EncodeManifest(r.manifest), FVerifierReport := Part(r.verifierReport, EncodeReport),
               FChainResult := Part(r.chainResult, EncodePlan),
               FChainExecutionResult := Part(r.chainExecutionResult, EncodeResult),
               FLlmInvocations := List(r.llmInvocations, EncodeText), FAttempts := List(r.attempts, EncodeAttempt),
               FArtifacts := List(r.artifacts, EncodeArtifact)])
  }

  function StateOr(m: Members): Option<RunState> {
    if FState !in m then Some(Intake)
    else if m[FState].Name? && m[FState].word.OfState? then Some(m[FState].word.runState) else None
  }

  /** Only the run id and the manifest are demanded; members that are no field are ignored. */
  function Decode(j: Json): Option<RunRecord> {
    if !j.Object? || FRunId !in j.members || FManifest !in j.members then None
    else
      var m := j.members;
      var run, manifest, state := AsText(m[FRunId]), DecodeManifest(m[FManifest]), StateOr(m);
      var report, plan := AsPart(At(m, FVerifierReport), DecodeReport), AsPart(At(m, FChainResult), DecodePlan);
      var result, tenant := AsPart(At(m, FChainExecutionResult), DecodeResult), AsOptional(At(m, FTenantId));
      var calls, attempts := AsList(At(m, FLlmInvocations), AsText), AsList(At(m, FAttempts), DecodeAttempt);
      var artifacts := AsList(At(m, FArtifacts), DecodeArtifact);
      if && run.Some? && manifest.Some? && state.Some? && report.Some? && plan.Some? && result.Some? && tenant.Some?
         && calls.Some? && attempts.Some? && artifacts.Some?
      then Some(RunRecord(run.value, manifest.value, state.value, report.value, plan.value, result.value, calls.value,
                          tenant.value, attempts.value, artifacts.value))
      else None
  }

  lemma PartsRoundTrip(r: RunRecord)
    ensures DecodeManifest(EncodeManifest(r.manifest)) == Some(r.manifest)
    ensures AsPart(Part(r.verifierReport, EncodeReport), DecodeReport) == Some(r.verifierReport)
    ensures AsPart(Part(r.chainResult, EncodePlan), DecodePlan) == Some(r.chainResult)
    ensures AsPart(Part(r.chainExecutionResult, EncodeResult), DecodeResult) == Some(Stripped(r).chainExecutionResult)
  {
    hide DecodeManifest, DecodeReport, DecodePlan, DecodeResult;
    ManifestRoundTrip(r.manifest);
    if r.verifierReport.Some? { ReportRoundTrip(r.verifierReport.value); }
    if r.chainResult.Some? { PlanRoundTrip(r.chainResult.value); }
    if r.chainExecutionResult.Some? { ResultRoundTrip(r.chainExecutionResult.value); }
  }

  lemma ListsRoundTrip(r: RunRecord)
    ensures AsList(List(r.llmInvocations, EncodeText), AsText) == Some(r.llmInvocations)
    ensures AsList(List(r.attempts, EncodeAttempt), DecodeAttempt) == Some(r.attempts)
    ensures AsList(List(r.artifacts, EncodeArtifact), DecodeArtifact) == Some(r.artifacts)
  {
    hide List, AsList, EncodeAttempt, DecodeAttempt, EncodeArtifact, DecodeArtifact;
    ListRoundTrip(r.llmInvocations, EncodeText, AsText);
    forall a: RunAttempt ensures DecodeAttempt(EncodeAttempt(a)) == Some(a) { AttemptRoundTrip(a); }
    ListRoundTrip(r.attempts, EncodeAttempt, DecodeAttempt);
    forall a: Artifact ensures DecodeArtifact(EncodeArtifact(a)) == Some(a) { ArtifactRoundTrip(a); }
    ListRoundTrip(r.artifacts, EncodeArtifact, DecodeArtifact);
  }

  /** Reading back what was written gives the record without the evidence artifacts of its chain
      result; the record's own artifacts survive. */
  lemma RoundTrip(r: RunRecord)
    ensures Decode(Encode(r)) == Some(Stripped(r))
    ensures Stripped(r).artifacts == r.artifacts
  {
    hide List, AsList, Part, AsPart, EncodeManifest, DecodeManifest, AsText;
    PartsRoundTrip(r);
    ListsRoundTrip(r);
    TextRoundTrip(r.runId);
  }

  lemma TextRoundTrip(s: string)
    ensures AsText(Text(s)) == Some(s)
  {
  }

  lemma StrippingIsIdempotent(r: RunRecord)
    ensures Stripped(Stripped(r)) == Stripped(r)
    ensures Encode(Stripped(r)) == Encode(r)
  {
    hide List, EncodeManifest, EncodeReport, EncodePlan, Optional;
  }

  /** So a record survives exactly when its chain result carries no evidence artifacts, and every
      record survives a second round trip. */
  lemma RoundTripIsExact(r: RunRecord)
    ensures Decode(Encode(r)) == Some(r) <==>
            (r.chainExecutionResult.Some? ==> r.chainExecutionResult.value.evidenceArtifacts == [])
    ensures Decode(Encode(Stripped(r))) == Some(Stripped(r))
  {
    hide Encode, Decode;
    RoundTrip(r);
    RoundTrip(Stripped(r));
    StrippingIsIdempotent(r);
  }

  /** A snapshot with nothing but a run id and a manifest reads as a new record. */
  lemma MinimalSnapshot(runId: string, m: Manifest)
    ensures Decode(Object(map[FRunId := Text(runId), FManifest := EncodeManifest(m)])) == Some(NewRecord(runId, m))
  {
    hide EncodeManifest, DecodeManifest;
    ManifestRoundTrip(m);
  }
}
