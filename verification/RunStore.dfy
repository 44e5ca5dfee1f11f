/**
 The two run stores: a map in memory, and tables that keep a snapshot of each run, its attempts, and
 the projection of its results into audit rows. A save either commits as a whole or, where a
 constraint would be violated, changes nothing.
 */
module RunStore {
  import opened Core
  import opened Records
  import opened Serialization

  // ------------------------------------------------------------------------ in memory

  /** A dictionary: its entries, and the order in which its keys were first inserted. */
  datatype Memory = Memory(order: seq<string>, runs: map<string, RunRecord>)

  function Remembered(m: Memory, r: RunRecord): Memory {
    Memory(if r.runId in m.runs then m.order else m.order + [r.runId], m.runs[r.runId := r])
  }

  function Recall(m: Memory, id: string): Option<RunRecord> {
    if id in m.runs then Some(m.runs[id]) else None
  }

  // --------------------------------------------------------------------------- tables

  datatype RunRow = RunRow(
    tenantId: Option<string>, state: RunState, finalStatus: Option<Decision>, verifierDecision: Option<Decision>,
    manifest: Json, snapshot: Json, createdAt: int)

  datatype AttemptRow = AttemptRow(
    runId: string, number: int, baseCommit: Option<string>, workspaceId: Option<string>, finalStatus: Option<FinalStatus>)

  /** A row of a table that a save rewrites: the run it belongs to, and the rest. */
  datatype Row<T> = Row(runId: string, body: T)

  datatype HandlerBody = HandlerBody(
    position: nat, handlerName: HandlerName, handlerType: HandlerType, status: HandlerStatus,
    decision: HandlerDecision, failureReasons: seq<Reason>, metadata: Json)

  datatype GateBody = GateBody(handlerName: HandlerName, gate: GateName, passed: bool, reasons: seq<Reason>)

  datatype VerdictBody = VerdictBody(
    taskId: string, verifierRunId: Option<string>, codingRunId: Option<string>, decision: Decision,
    failureReasons: seq<string>)

  datatype EvidenceBody = EvidenceBody(
    attemptId: Option<string>, tenantId: Option<string>, artifactType: ArtifactType, sha256: string, objectUri: string)

  datatype Database = Database(
    runs: map<string, RunRow>, attempts: map<string, AttemptRow>, handlers: seq<Row<HandlerBody>>,
    gates: seq<Row<GateBody>>, verdicts: seq<Row<VerdictBody>>, evidence: seq<Row<EvidenceBody>>)

  /** The rows left when those of one run are deleted. */
  function Without<T>(rows: seq<Row<T>>, id: string): seq<Row<T>> {
    if rows == [] then []
    else
      var last := rows[|rows| - 1];
      Without(rows[..|rows| - 1], id) + if last.runId == id then [] else [last]
  }

  /** The rows of one run, in the order they were inserted. */
  function BodiesOf<T>(rows: seq<Row<T>>, id: string): seq<T> {
    if rows == [] then []
    else
      var last := rows[|rows| - 1];
      BodiesOf(rows[..|rows| - 1], id) + if last.runId == id then [last.body] else []
  }

  function RowsFor<T>(id: string, bodies: seq<T>): (rows: seq<Row<T>>)
    ensures |rows| == |bodies| && forall i | 0 <= i < |bodies| :: rows[i] == Row(id, bodies[i])
  {
    seq(|bodies|, i requires 0 <= i < |bodies| => Row(id, bodies[i]))
  }

  // ----------------------------------------------------------------------- projection

  function ResultsOf(r: RunRecord): seq<HandlerResult> {
    if r.chainExecutionResult.Some? then r.chainExecutionResult.value.handlerResults else []
  }

  function HandlerBodyOf(i: nat, h: HandlerResult): HandlerBody {
    HandlerBody(i, h.handlerName, h.handlerType, h.status, h.decision, h.failureReasons,
                EncodeMetadata(h.prStatus, h.details.metadata))
  }

  function HandlerBodies(hs: seq<HandlerResult>): (b: seq<HandlerBody>)
    ensures |b| == |hs| && forall i | 0 <= i < |hs| :: b[i] == HandlerBodyOf(i, hs[i])
  {
    seq(|hs|, i requires 0 <= i < |hs| => HandlerBodyOf(i, hs[i]))
  }

  function GateBodyOf(h: HandlerName, g: GateResult): GateBody {
    GateBody(h, g.gate, g.Passed(), g.reasons)
  }

  function GatesOfHandler(h: HandlerName, gs: seq<GateResult>): seq<GateBody> {
    if gs == [] then [] else GatesOfHandler(h, gs[..|gs| - 1]) + [GateBodyOf(h, gs[|gs| - 1])]
  }

  function GateBodies(hs: seq<HandlerResult>): seq<GateBody> {
    if hs == [] then []
    else GateBodies(hs[..|hs| - 1]) + GatesOfHandler(hs[|hs| - 1].handlerName, hs[|hs| - 1].gateResults)
  }

  function VerdictBodies(r: RunRecord): seq<VerdictBody> {
    if r.verifierReport.Some? then
      var v := r.verifierReport.value;
      [VerdictBody(v.taskId, Some(v.verifierRunId), Some(v.codingRunId), v.decision, v.failureReasons)]
    else if r.chainExecutionResult.Some? then
      var c := r.chainExecutionResult.value;
      [VerdictBody(c.taskId, None, None, c.verifierDecision, [])]
    else []
  }

  function EvidenceBodyOf(tenantId: Option<string>, a: Artifact): EvidenceBody {
    EvidenceBody(a.attemptId, tenantId, a.artifactType, a.hash, a.path)
  }

  function EvidenceBodies(tenantId: Option<string>, artifacts: seq<Artifact>): (b: seq<EvidenceBody>)
    ensures |b| == |artifacts| && forall i | 0 <= i < |artifacts| :: b[i] == EvidenceBodyOf(tenantId, artifacts[i])
  {
    seq(|artifacts|, i requires 0 <= i < |artifacts| => EvidenceBodyOf(tenantId, artifacts[i]))
  }

  /** The status columns come from one source: the report if there is one, else the chain result. */
  function FinalColumn(r: RunRecord): Option<Decision> {
    if r.verifierReport.Some? then Some(r.verifierReport.value.decision)
    else if r.chainExecutionResult.Some? then Some(AsDecision(r.chainExecutionResult.value.finalStatus))
    else None
  }

  function VerdictColumn(r: RunRecord): Option<Decision> {
    if r.verifierReport.Some? then Some(r.verifierReport.value.decision)
    else if r.chainExecutionResult.Some? then Some(r.chainExecutionResult.value.verifierDecision)
    else None
  }

  function AsDecision(s: FinalStatus): Decision {
    match s
    case RunPass => Pass
    case RunFail => Fail
    case RunBlocked => Blocked
  }

  // ----------------------------------------------------------------------------- saving

  function RowOf(r: RunRecord, createdAt: int): RunRow {
    RunRow(r.tenantId, r.state, FinalColumn(r), VerdictColumn(r), EncodeManifest(r.manifest), Encode(r), createdAt)
  }

  function CreatedAt(db: Database, id: string, now: int): int {
    if id in db.runs then db.runs[id].createdAt else now
  }

  function AttemptRowOf(runId: string, a: RunAttempt): AttemptRow {
    AttemptRow(runId, a.number, a.baseCommit, a.workspaceId, a.finalStatus)
  }

  /** The row an upsert on the attempt id writes: an existing row keeps its run. */
  function UpsertRow(attempts: map<string, AttemptRow>, runId: string, a: RunAttempt): AttemptRow {
    AttemptRowOf(if a.attemptId in attempts then attempts[a.attemptId].runId else runId, a)
  }

  /** Another row has the number of this one within the same run. */
  predicate Clashes(attempts: map<string, AttemptRow>, id: string, row: AttemptRow) {
    exists other | other in attempts ::
      other != id && attempts[other].runId == row.runId && attempts[other].number == row.number
  }

  function Upsert(attempts: map<string, AttemptRow>, runId: string, a: RunAttempt): Option<map<string, AttemptRow>> {
    var row := UpsertRow(attempts, runId, a);
    if Clashes(attempts, a.attemptId, row) then None else Some(attempts[a.attemptId := row])
  }

  function UpsertAll(attempts: map<string, AttemptRow>, runId: string, added: seq<RunAttempt>)
    : Option<map<string, AttemptRow>>
  {
    if added == [] then Some(attempts)
    else
      match UpsertAll(attempts, runId, added[..|added| - 1])
      case None => None
      case Some(sofar) => Upsert(sofar, runId, added[|added| - 1])
  }

  /** The foreign key from evidence rows to attempts. */
  predicate Referenced(attempts: map<string, AttemptRow>, a: Artifact) {
    a.attemptId.Some? ==> a.attemptId.value in attempts
  }

  predicate AllReferenced(attempts: map<string, AttemptRow>, artifacts: seq<Artifact>) {
    forall i | 0 <= i < |artifacts| :: Referenced(attempts, artifacts[i])
  }

  /** A save at a time: the committed tables, or nothing when a constraint was violated. */
  function Saved(db: Database, r: RunRecord, now: int): Option<Database> {
    match UpsertAll(db.attempts, r.runId, r.attempts)
    case None => None
    case Some(attempts) =>
      if !AllReferenced(attempts, r.artifacts) then None
      else Some(Database(
        db.runs[r.runId := RowOf(r, CreatedAt(db, r.runId, now))],
        attempts,
        Without(db.handlers, r.runId) + RowsFor(r.runId, HandlerBodies(ResultsOf(r))),
        Without(db.gates, r.runId) + RowsFor(r.runId, GateBodies(ResultsOf(r))),
        Without(db.verdicts, r.runId) + RowsFor(r.runId, VerdictBodies(r)),
        Without(db.evidence, r.runId) + RowsFor(r.runId, EvidenceBodies(r.tenantId, r.artifacts))))
  }

  function Fetched(db: Database, id: string): Option<RunRecord> {
    if id in db.runs then Decode(db.runs[id].snapshot) else None
  }

  /** The rows in an order of their creation times, ties in any order. */
  ghost predicate Listing(db: Database, ids: seq<string>) {
    && Distinct(ids)
    && (forall id :: id in ids <==> id in db.runs)
    && forall i, j | 0 <= i < j < |ids| :: db.runs[ids[i]].createdAt <= db.runs[ids[j]].createdAt
  }

  ghost predicate Distinct(ids: seq<string>) {
    forall i, j | 0 <= i < j < |ids| :: ids[i] != ids[j]
  }

  const EMPTY := Database(map[], map[], [], [], [], [])

  // ---------------------------------------------------------------------------- objects

  class InMemoryRunRepository {
    var order: seq<string>
    var runs: map<string, RunRecord>

    ghost function View(): Memory
      reads this
    {
      Memory(order, runs)
    }

    constructor ()
      ensures View() == Memory([], map[])
    {
      order, runs := [], map[];
    }

    method Save(r: RunRecord)
      modifies this
      ensures View() == Remembered(old(View()), r)
    {
      if r.runId !in runs {
        order := order + [r.runId];
      }
      runs := runs[r.runId := r];
    }

    method Get(id: string) returns (r: Option<RunRecord>)
      ensures r == Recall(View(), id)
    {
      r := if id in runs then Some(runs[id]) else None;
    }

    method List() returns (rs: seq<RunRecord>)
      requires forall id | id in order :: id in runs
      ensures |rs| == |order| && forall i | 0 <= i < |order| :: rs[i] == runs[order[i]]
    {
      rs := [];
      for i := 0 to |order|
        invariant |rs| == i && forall j | 0 <= j < i :: rs[j] == runs[order[j]]
      {
        rs := rs + [runs[order[i]]];
      }
    }
  }

  class PostgresRunRepository {
    var runs: map<string, RunRow>
    var attempts: map<string, AttemptRow>
    var handlers: seq<Row<HandlerBody>>
    var gates: seq<Row<GateBody>>
    var verdicts: seq<Row<VerdictBody>>
    var evidence: seq<Row<EvidenceBody>>

    ghost function View(): Database
      reads this
    {
      Database(runs, attempts, handlers, gates, verdicts, evidence)
    }

    constructor ()
      ensures View() == EMPTY
    {
      runs, attempts, handlers, gates, verdicts, evidence := map[], map[], [], [], [], [];
    }

    /** The attempt rows, upserted one by one. */
    method UpsertAttempts(r: RunRecord) returns (ok: bool, after: map<string, AttemptRow>)
      ensures UpsertAll(attempts, r.runId, r.attempts) == if ok then Some(after) else None
    {
      after := attempts;
      for i := 0 to |r.attempts|
        invariant UpsertAll(attempts, r.runId, r.attempts[..i]) == Some(after)
      {
        var a := r.attempts[i];
        UpsertStep(attempts, r.runId, r.attempts, i);
        var row := UpsertRow(after, r.runId, a);
        if Clashes(after, a.attemptId, row) {
          UpsertStops(attempts, r.runId, r.attempts, i + 1);
          return false, after;
        }
        after := after[a.attemptId := row];
      }
      assert r.attempts[..|r.attempts|] == r.attempts;
      ok := true;
    }

    /** One row for each artifact, unless one names an attempt that has no row. */
    method ProjectEvidence(r: RunRecord, known: map<string, AttemptRow>, before: seq<Row<EvidenceBody>>)
      returns (ok: bool, rows: seq<Row<EvidenceBody>>)
      ensures ok <==> AllReferenced(known, r.artifacts)
      ensures ok ==> rows == before + RowsFor(r.runId, EvidenceBodies(r.tenantId, r.artifacts))
    {
      rows := before;
      for i := 0 to |r.artifacts|
        invariant AllReferenced(known, r.artifacts[..i])
        invariant rows == before + RowsFor(r.runId, EvidenceBodies(r.tenantId, r.artifacts[..i]))
      {
        var a := r.artifacts[i];
        if !Referenced(known, a) { return false, before; }
        rows := rows + [Row(r.runId, EvidenceBodyOf(r.tenantId, a))];
        assert EvidenceBodies(r.tenantId, r.artifacts[..i + 1])
               == EvidenceBodies(r.tenantId, r.artifacts[..i]) + [EvidenceBodyOf(r.tenantId, a)];
        RowsGrow(r.runId, EvidenceBodies(r.tenantId, r.artifacts[..i]), EvidenceBodyOf(r.tenantId, a));
        ReferencedGrows(known, r.artifacts, i);
      }
      assert r.artifacts[..|r.artifacts|] == r.artifacts;
      ok := true;
    }

    /** One row for each handler result, and one for each of its gates. */
    method ProjectResults(r: RunRecord, before: seq<Row<HandlerBody>>, gatesBefore: seq<Row<GateBody>>)
      returns (rows: seq<Row<HandlerBody>>, gateRows: seq<Row<GateBody>>)
      ensures rows == before + RowsFor(r.runId, HandlerBodies(ResultsOf(r)))
      ensures gateRows == gatesBefore + RowsFor(r.runId, GateBodies(ResultsOf(r)))
    {
      hide RowsFor, HandlerBodies, GateBodies, GatesOfHandler;
      var hs := ResultsOf(r);
      rows, gateRows := before, gatesBefore;
      NothingToProject(r.runId);
      assert hs[..0] == [];
      for i := 0 to |hs|
        invariant rows == before + RowsFor(r.runId, HandlerBodies(hs[..i]))
        invariant gateRows == gatesBefore + RowsFor(r.runId, GateBodies(hs[..i]))
      {
        ProjectStep(r.runId, hs, i);
        rows := rows + [Row(r.runId, HandlerBodyOf(i, hs[i]))];
        var more := ProjectGates(r.runId, hs[i]);
        gateRows := gateRows + more;
      }
      assert hs[..|hs|] == hs;
    }

    method ProjectGates(runId: string, h: HandlerResult) returns (rows: seq<Row<GateBody>>)
      ensures rows == RowsFor(runId, GatesOfHandler(h.handlerName, h.gateResults))
    {
      var gs := h.gateResults;
      rows := [];
      for k := 0 to |gs|
        invariant rows == RowsFor(runId, GatesOfHandler(h.handlerName, gs[..k]))
      {
        assert gs[..k + 1][..k] == gs[..k];
        RowsGrow(runId, GatesOfHandler(h.handlerName, gs[..k]), GateBodyOf(h.handlerName, gs[k]));
        rows := rows + [Row(runId, GateBodyOf(h.handlerName, gs[k]))];
      }
      assert gs[..|gs|] == gs;
    }

    /** The whole transaction: it commits at its end or not at all. */
    method Save(r: RunRecord, now: int) returns (ok: bool)
      modifies this
      ensures ok <==> Saved(old(View()), r, now).Some?
      ensures View() == if ok then Saved(old(View()), r, now).value else old(View())
    {
      var created := if r.runId in runs then runs[r.runId].createdAt else now;
      var row := RowOf(r, created);
      var attemptsOk, newAttempts := UpsertAttempts(r);
      if !attemptsOk { return false; }
      var evidenceOk, newEvidence := ProjectEvidence(r, newAttempts, Without(evidence, r.runId));
      if !evidenceOk { return false; }
      var newHandlers, newGates := ProjectResults(r, Without(handlers, r.runId), Without(gates, r.runId));
      var newVerdicts := Without(verdicts, r.runId) + RowsFor(r.runId, VerdictBodies(r));
      runs, attempts := runs[r.runId := row], newAttempts;
      handlers, gates, verdicts, evidence := newHandlers, newGates, newVerdicts, newEvidence;
      ok := true;
    }

    method Get(id: string) returns (r: Option<RunRecord>)
      ensures r == Fetched(View(), id)
    {
      if id !in runs { return None; }
      r := Decode(runs[id].snapshot);
    }
  }

  // -------------------------------------------------------------------- steps of the loops

  lemma UpsertStep(attempts: map<string, AttemptRow>, runId: string, added: seq<RunAttempt>, i: nat)
    requires i < |added|
    ensures UpsertAll(attempts, runId, added[..i + 1]) ==
            match UpsertAll(attempts, runId, added[..i])
            case None => None
            case Some(sofar) => Upsert(sofar, runId, added[i])
  {
    assert added[..i + 1][..i] == added[..i];
  }

  /** Once an upsert has failed the transaction has. */
  lemma {:induction false} UpsertStops(attempts: map<string, AttemptRow>, runId: string, added: seq<RunAttempt>, i: nat)
    requires i <= |added| && UpsertAll(attempts, runId, added[..i]).None?
    ensures UpsertAll(attempts, runId, added).None?
    decreases |added| - i
  {
    if i < |added| {
      UpsertStep(attempts, runId, added, i);
      UpsertStops(attempts, runId, added, i + 1);
    } else {
      assert added[..i] == added;
    }
  }

  lemma RowsGrow<T>(id: string, bodies: seq<T>, b: T)
    ensures RowsFor(id, bodies + [b]) == RowsFor(id, bodies) + [Row(id, b)]
  {
  }

  lemma RowsAppend<T>(id: string, a: seq<T>, b: seq<T>)
    ensures RowsFor(id, a + b) == RowsFor(id, a) + RowsFor(id, b)
  {
  }

  lemma NothingToProject(id: string)
    ensures RowsFor(id, HandlerBodies([])) == [] && RowsFor(id, GateBodies([])) == []
  {
  }

  /** What one more handler result adds to the projected rows. */
  lemma ProjectStep(id: string, hs: seq<HandlerResult>, i: nat)
    requires i < |hs|
    ensures RowsFor(id, HandlerBodies(hs[..i + 1]))
            == RowsFor(id, HandlerBodies(hs[..i])) + [Row(id, HandlerBodyOf(i, hs[i]))]
    ensures RowsFor(id, GateBodies(hs[..i + 1]))
            == RowsFor(id, GateBodies(hs[..i])) + RowsFor(id, GatesOfHandler(hs[i].handlerName, hs[i].gateResults))
  {
    hide RowsFor, GatesOfHandler;
    assert HandlerBodies(hs[..i + 1]) == HandlerBodies(hs[..i]) + [HandlerBodyOf(i, hs[i])];
    RowsGrow(id, HandlerBodies(hs[..i]), HandlerBodyOf(i, hs[i]));
    assert hs[..i + 1][..i] == hs[..i];
    RowsAppend(id, GateBodies(hs[..i]), GatesOfHandler(hs[i].handlerName, hs[i].gateResults));
  }

  lemma ReferencedGrows(known: map<string, AttemptRow>, artifacts: seq<Artifact>, i: nat)
    requires i < |artifacts| && AllReferenced(known, artifacts[..i]) && Referenced(known, artifacts[i])
    ensures AllReferenced(known, artifacts[..i + 1])
  {
    var upto := artifacts[..i + 1];
    forall j | 0 <= j < |upto| ensures Referenced(known, upto[j]) {
      if j < i { assert upto[j] == artifacts[..i][j]; }
    }
  }
}
