/** The durable store agrees with the simple one: same records, same order, and audit rows that are
    exactly the projection of each run's last saved record. */
module RunStoreLaws {
  import opened Core
  import opened Text
  import opened Records
  import opened Serialization
  import opened RunStore

  // --------------------------------------------------------------------------- row tables

  lemma {:induction false} BodiesWithout<T>(rows: seq<Row<T>>, id: string, other: string)
    ensures BodiesOf(Without(rows, id), other) == if other == id then [] else BodiesOf(rows, other)
  {
    if rows != [] {
      var init, last := rows[..|rows| - 1], rows[|rows| - 1];
      BodiesWithout(init, id, other);
      var rest := if last.runId == id then [] else [last];
      BodiesAppend(Without(init, id), rest, other);
      if last.runId != id { assert [last][..0] == []; }
    }
  }

  lemma {:induction false} BodiesAppend<T>(a: seq<Row<T>>, b: seq<Row<T>>, id: string)
    ensures BodiesOf(a + b, id) == BodiesOf(a, id) + BodiesOf(b, id)
    decreases |b|
  {
    if b == [] {
      assert a + b == a;
    } else {
      var init, last := b[..|b| - 1], b[|b| - 1];
      assert (a + b)[..|a + b| - 1] == a + init && (a + b)[|a + b| - 1] == last;
      BodiesAppend(a, init, id);
    }
  }

  lemma {:induction false} BodiesOfRows<T>(id: string, bodies: seq<T>, other: string)
    ensures BodiesOf(RowsFor(id, bodies), other) == if other == id then bodies else []
    decreases |bodies|
  {
    if bodies != [] {
      var init, last := bodies[..|bodies| - 1], bodies[|bodies| - 1];
      assert RowsFor(id, bodies)[..|bodies| - 1] == RowsFor(id, init);
      BodiesOfRows(id, init, other);
      assert bodies == init + [last];
    }
  }

  /** Delete and reinsert: the run has exactly the new rows, and every other run the rows it had. */
  lemma Rewritten<T>(rows: seq<Row<T>>, id: string, bodies: seq<T>, other: string)
    ensures BodiesOf(Without(rows, id) + RowsFor(id, bodies), other) == if other == id then bodies else BodiesOf(rows, other)
  {
    BodiesAppend(Without(rows, id), RowsFor(id, bodies), other);
    BodiesWithout(rows, id, other);
    BodiesOfRows(id, bodies, other);
  }

  lemma {:induction false} WithoutTwice<T>(rows: seq<Row<T>>, id: string)
    ensures Without(Without(rows, id), id) == Without(rows, id)
  {
    if rows != [] {
      var init, last := rows[..|rows| - 1], rows[|rows| - 1];
      WithoutTwice(init, id);
      if last.runId != id {
        var w := Without(init, id) + [last];
        assert w[..|w| - 1] == Without(init, id) && w[|w| - 1] == last;
      } else {
        assert Without(rows, id) == Without(init, id);
      }
    }
  }

  lemma {:induction false} WithoutAppend<T>(a: seq<Row<T>>, id: string, bodies: seq<T>)
    ensures Without(a + RowsFor(id, bodies), id) == Without(a, id)
    decreases |bodies|
  {
    if bodies == [] {
      assert a + RowsFor(id, bodies) == a;
    } else {
      var init, last := bodies[..|bodies| - 1], bodies[|bodies| - 1];
      var all := a + RowsFor(id, bodies);
      assert all[..|all| - 1] == a + RowsFor(id, init) && all[|all| - 1] == Row(id, last);
      WithoutAppend(a, id, init);
    }
  }

  /** Rewriting twice is rewriting once. */
  lemma RewriteTwice<T>(rows: seq<Row<T>>, id: string, bodies: seq<T>)
    ensures Without(Without(rows, id) + RowsFor(id, bodies), id) + RowsFor(id, bodies) == Without(rows, id) + RowsFor(id, bodies)
  {
    WithoutAppend(Without(rows, id), id, bodies);
    WithoutTwice(rows, id);
  }

  // ------------------------------------------------------------------------------ attempts

  /** Every attempt row carries the id the allocator makes for its run and number. */
  ghost predicate MintedRows(attempts: map<string, AttemptRow>) {
    forall id | id in attempts :: MintedRow(id, attempts[id])
  }

  ghost predicate MintedRow(id: string, row: AttemptRow) {
    row.number >= 0 && id == AttemptId(row.runId, row.number)
  }

  ghost predicate MintedAttempt(runId: string, a: RunAttempt) {
    a.number >= 0 && a.attemptId == AttemptId(runId, a.number)
  }

  ghost predicate AllMinted(runId: string, attempts: seq<RunAttempt>) {
    forall i | 0 <= i < |attempts| :: MintedAttempt(runId, attempts[i])
  }

  /** The upsert of a minted attempt cannot violate uniqueness, and cannot touch another run's row:
      attempt ids are injective in the run id and the number, whatever the run ids look like. */
  lemma UpsertSucceeds(attempts: map<string, AttemptRow>, runId: string, a: RunAttempt)
    requires MintedRows(attempts) && MintedAttempt(runId, a)
    ensures Upsert(attempts, runId, a) == Some(attempts[a.attemptId := AttemptRowOf(runId, a)])
    ensures MintedRows(attempts[a.attemptId := AttemptRowOf(runId, a)])
  {
    hide AttemptId;
    if a.attemptId in attempts {
      var row := attempts[a.attemptId];
      assert MintedRow(a.attemptId, row);
      AttemptIdInjective(row.runId, row.number, runId, a.number);
    }
    var row := AttemptRowOf(runId, a);
    forall other | other in attempts && attempts[other].runId == runId && attempts[other].number == a.number
      ensures other == a.attemptId
    {
      assert MintedRow(other, attempts[other]);
    }
  }

  predicate Among(id: string, added: seq<RunAttempt>) {
    exists i | 0 <= i < |added| :: added[i].attemptId == id
  }

  /** The last of some attempts with this id. */
  function LastAttempt(added: seq<RunAttempt>, id: string): (last: Option<RunAttempt>)
    ensures last.Some? ==> last.value.attemptId == id && last.value in added
    ensures last.Some? <==> Among(id, added)
  {
    if added == [] then None
    else
      var n := |added| - 1;
      if added[n].attemptId == id then Some(added[n])
      else
        assert Among(id, added) ==> Among(id, added[..n]) by {
          if Among(id, added) {
            var i :| 0 <= i < |added| && added[i].attemptId == id;
            assert added[..n][i].attemptId == id;
          }
        }
        LastAttempt(added[..n], id)
  }

  function RowUnder(attempts: map<string, AttemptRow>, id: string): Option<AttemptRow> {
    if id in attempts then Some(attempts[id]) else None
  }

  /** The row under an attempt id once a run's attempts were upserted. */
  function RowAfter(before: Option<AttemptRow>, runId: string, added: seq<RunAttempt>, id: string): Option<AttemptRow> {
    match LastAttempt(added, id)
    case Some(a) => Some(AttemptRowOf(runId, a))
    case None => before
  }

  /** The rows a sequence of attempts leaves: its own as they are, and all others untouched. */
  ghost predicate Upserted(before: map<string, AttemptRow>, after: map<string, AttemptRow>, runId: string, added: seq<RunAttempt>) {
    && MintedRows(after)
    && forall id: string :: RowUnder(after, id) == RowAfter(RowUnder(before, id), runId, added, id)
  }

  lemma {:induction false} UpsertsSucceed(attempts: map<string, AttemptRow>, runId: string, added: seq<RunAttempt>)
    requires MintedRows(attempts) && AllMinted(runId, added)
    ensures UpsertAll(attempts, runId, added).Some?
    ensures Upserted(attempts, UpsertAll(attempts, runId, added).value, runId, added)
    decreases |added|
  {
    hide Upsert, MintedRow, MintedAttempt, AttemptRowOf, Among;
    if added != [] {
      var init, last := added[..|added| - 1], added[|added| - 1];
      UpsertsSucceed(attempts, runId, init);
      var sofar := UpsertAll(attempts, runId, init).value;
      assert MintedAttempt(runId, last);
      UpsertSucceeds(sofar, runId, last);
      var after := UpsertAll(attempts, runId, added).value;
      forall id: string ensures RowUnder(after, id) == RowAfter(RowUnder(attempts, id), runId, added, id) {
        assert RowUnder(sofar, id) == RowAfter(RowUnder(attempts, id), runId, init, id);
      }
    }
  }

  lemma {:induction false} LastOfDistinct(added: seq<RunAttempt>, k: nat)
    requires k < |added| && (forall i, j | 0 <= i < j < |added| :: added[i].attemptId != added[j].attemptId)
    ensures LastAttempt(added, added[k].attemptId) == Some(added[k])
    decreases |added|
  {
    hide Among;
    if k < |added| - 1 { LastOfDistinct(added[..|added| - 1], k); }
  }

  /** Attempts with distinct ids are stored as they are. */
  lemma UpsertsStore(attempts: map<string, AttemptRow>, runId: string, added: seq<RunAttempt>, k: nat)
    requires MintedRows(attempts) && AllMinted(runId, added) && k < |added|
    requires forall i, j | 0 <= i < j < |added| :: added[i].attemptId != added[j].attemptId
    ensures UpsertAll(attempts, runId, added).Some?
    ensures RowUnder(UpsertAll(attempts, runId, added).value, added[k].attemptId) == Some(AttemptRowOf(runId, added[k]))
  {
    hide UpsertAll, MintedRows, AttemptRowOf, LastAttempt, AllMinted;
    UpsertsSucceed(attempts, runId, added);
    LastOfDistinct(added, k);
    var after, id := UpsertAll(attempts, runId, added).value, added[k].attemptId;
    assert RowUnder(after, id) == RowAfter(RowUnder(attempts, id), runId, added, id);
  }

  lemma MintedIsMinted(r: RunRecord)
    requires MintedAttempts(r)
    ensures AllMinted(r.runId, r.attempts)
    ensures forall i, j | 0 <= i < j < |r.attempts| :: r.attempts[i].attemptId != r.attempts[j].attemptId
  {
    hide AttemptId;
    forall i, j | 0 <= i < j < |r.attempts| ensures r.attempts[i].attemptId != r.attempts[j].attemptId {
      if AttemptId(r.runId, i + 1) == AttemptId(r.runId, j + 1) { AttemptIdInjective(r.runId, i + 1, r.runId, j + 1); }
    }
  }

  // -------------------------------------------------------------------------------- one save

  /** Saving a record as the API makes them never violates a constraint. */
  lemma MintedSavesSucceed(db: Database, r: RunRecord, now: int)
    requires MintedRows(db.attempts) && Minted(r)
    ensures Saved(db, r, now).Some?
    ensures MintedRows(Saved(db, r, now).value.attempts)
    ensures Upserted(db.attempts, Saved(db, r, now).value.attempts, r.runId, r.attempts)
  {
    hide AttemptId, MintedRows, MintedAttempts, UpsertAll, RowOf, Without, RowsFor, HandlerBodies, GateBodies, VerdictBodies,
         EvidenceBodies, AllMinted;
    MintedIsMinted(r);
    UpsertsSucceed(db.attempts, r.runId, r.attempts);
    var attempts := UpsertAll(db.attempts, r.runId, r.attempts).value;
    forall i | 0 <= i < |r.artifacts| ensures Referenced(attempts, r.artifacts[i]) {
      assert NamesAttempt(r, r.artifacts[i].attemptId);
      var id := r.artifacts[i].attemptId.value;
      assert Among(id, r.attempts);
      assert RowUnder(attempts, id) == RowAfter(RowUnder(db.attempts, id), r.runId, r.attempts, id);
    }
  }

  /** Run r of the tables holds exactly what this record projects to. */
  ghost predicate Projects(db: Database, id: string, r: RunRecord) {
    && BodiesOf(db.handlers, id) == HandlerBodies(ResultsOf(r))
    && BodiesOf(db.gates, id) == GateBodies(ResultsOf(r))
    && BodiesOf(db.verdicts, id) == VerdictBodies(r)
    && BodiesOf(db.evidence, id) == EvidenceBodies(r.tenantId, r.artifacts)
  }

  ghost predicate SameRows(a: Database, b: Database, id: string) {
    && BodiesOf(b.handlers, id) == BodiesOf(a.handlers, id)
    && BodiesOf(b.gates, id) == BodiesOf(a.gates, id)
    && BodiesOf(b.verdicts, id) == BodiesOf(a.verdicts, id)
    && BodiesOf(b.evidence, id) == BodiesOf(a.evidence, id)
  }

  /** A save leaves its run's audit rows exactly the projection of the record, and the rows and
      snapshots of all other runs as they were. */
  lemma SaveProjects(db: Database, r: RunRecord, now: int, other: string)
    requires Saved(db, r, now).Some?
    ensures var db' := Saved(db, r, now).value;
            && Projects(db', r.runId, r)
            && (other != r.runId ==> SameRows(db, db', other))
            && r.runId in db'.runs && db'.runs[r.runId].snapshot == Encode(r)
            && (other != r.runId ==> (other in db'.runs <==> other in db.runs))
            && (other != r.runId && other in db.runs ==> db'.runs[other] == db.runs[other])
  {
    hide Without, RowsFor, BodiesOf, HandlerBodies, GateBodies, VerdictBodies, EvidenceBodies, UpsertAll, AllReferenced, Encode,
         EncodeManifest, FinalColumn, VerdictColumn, ResultsOf;
    RewrittenBoth(db.handlers, r.runId, HandlerBodies(ResultsOf(r)), other);
    RewrittenBoth(db.gates, r.runId, GateBodies(ResultsOf(r)), other);
    RewrittenBoth(db.verdicts, r.runId, VerdictBodies(r), other);
    RewrittenBoth(db.evidence, r.runId, EvidenceBodies(r.tenantId, r.artifacts), other);
  }

  lemma RewrittenBoth<T>(rows: seq<Row<T>>, id: string, bodies: seq<T>, other: string)
    ensures var after := Without(rows, id) + RowsFor(id, bodies);
            && BodiesOf(after, id) == bodies
            && (other != id ==> BodiesOf(after, other) == BodiesOf(rows, other))
  {
    hide Without, RowsFor, BodiesOf;
    Rewritten(rows, id, bodies, id);
    Rewritten(rows, id, bodies, other);
  }

  lemma {:induction false} UpsertsAreIdempotent(attempts: map<string, AttemptRow>, runId: string, added: seq<RunAttempt>)
    requires MintedRows(attempts) && AllMinted(runId, added)
    requires forall i, j | 0 <= i < j < |added| :: added[i].attemptId != added[j].attemptId
    requires forall i | 0 <= i < |added| ::
               added[i].attemptId in attempts && attempts[added[i].attemptId] == AttemptRowOf(runId, added[i])
    ensures UpsertAll(attempts, runId, added) == Some(attempts)
    decreases |added|
  {
    hide Upsert, MintedRow, MintedAttempt, MintedRows, AttemptRowOf;
    if added != [] {
      var init, last := added[..|added| - 1], added[|added| - 1];
      assert MintedAttempt(runId, last);
      UpsertsAreIdempotent(attempts, runId, init);
      UpsertSucceeds(attempts, runId, last);
      assert attempts[last.attemptId := AttemptRowOf(runId, last)] == attempts;
    }
  }

  lemma SameAttempts(db: Database, r: RunRecord, now: int)
    requires MintedRows(db.attempts) && Minted(r) && Saved(db, r, now).Some?
    ensures var after := Saved(db, r, now).value.attempts;
            UpsertAll(after, r.runId, r.attempts) == Some(after)
  {
    hide AttemptId, MintedRows, MintedAttempts, UpsertAll, RowOf, Without, RowsFor, HandlerBodies, GateBodies, VerdictBodies,
         EvidenceBodies, AllMinted, ArtifactsPlaced, AllReferenced;
    MintedIsMinted(r);
    MintedSavesSucceed(db, r, now);
    var after := Saved(db, r, now).value.attempts;
    forall k | 0 <= k < |r.attempts|
      ensures r.attempts[k].attemptId in after && after[r.attempts[k].attemptId] == AttemptRowOf(r.runId, r.attempts[k])
    {
      UpsertsStore(db.attempts, r.runId, r.attempts, k);
    }
    UpsertsAreIdempotent(after, r.runId, r.attempts);
  }

  /** Saving twice is saving once. */
  lemma SaveIsIdempotent(db: Database, r: RunRecord, now: int, later: int)
    requires MintedRows(db.attempts) && Minted(r)
    ensures Saved(db, r, now).Some?
    ensures Saved(Saved(db, r, now).value, r, later) == Saved(db, r, now)
  {
    hide AttemptId, MintedRows, Minted, UpsertAll, Encode, EncodeManifest, FinalColumn, VerdictColumn, Without, RowsFor, HandlerBodies, GateBodies, VerdictBodies,
         EvidenceBodies, AllReferenced;
    MintedSavesSucceed(db, r, now);
    SameAttempts(db, r, now);
    RewriteTwice(db.handlers, r.runId, HandlerBodies(ResultsOf(r)));
    RewriteTwice(db.gates, r.runId, GateBodies(ResultsOf(r)));
    RewriteTwice(db.verdicts, r.runId, VerdictBodies(r));
    RewriteTwice(db.evidence, r.runId, EvidenceBodies(r.tenantId, r.artifacts));
    var once := Saved(db, r, now).value;
    var twice := Saved(once, r, later).value;
    assert twice.attempts == once.attempts;
    assert twice.handlers == once.handlers;
    assert twice.gates == once.gates;
    assert twice.verdicts == once.verdicts && twice.evidence == once.evidence;
    assert CreatedAt(once, r.runId, later) == CreatedAt(db, r.runId, now);
    assert twice.runs == once.runs;
  }

  // ---------------------------------------------------------------------- histories of saves

  datatype Put = Put(record: RunRecord, at: int)

  function MemoryAfter(puts: seq<Put>): Memory {
    if puts == [] then Memory([], map[]) else Remembered(MemoryAfter(puts[..|puts| - 1]), puts[|puts| - 1].record)
  }

  function DatabaseAfter(puts: seq<Put>): Option<Database> {
    if puts == [] then Some(EMPTY)
    else
      match DatabaseAfter(puts[..|puts| - 1])
      case None => None
      case Some(db) => Saved(db, puts[|puts| - 1].record, puts[|puts| - 1].at)
  }

  ghost predicate AllPutsMinted(puts: seq<Put>) {
    forall i | 0 <= i < |puts| :: Minted(puts[i].record)
  }

  /** Saves at increasing times. */
  ghost predicate Ticking(puts: seq<Put>) {
    forall i, j | 0 <= i < j < |puts| :: puts[i].at < puts[j].at
  }

  /** The attempts of a record have their rows, as they are. */
  ghost predicate AttemptsHeld(attempts: map<string, AttemptRow>, r: RunRecord) {
    forall k | 0 <= k < |r.attempts| ::
      RowUnder(attempts, r.attempts[k].attemptId) == Some(AttemptRowOf(r.runId, r.attempts[k]))
  }

  lemma SavedAttemptsHeld(db: Database, r: RunRecord, now: int)
    requires MintedRows(db.attempts) && Minted(r)
    ensures Saved(db, r, now).Some? && AttemptsHeld(Saved(db, r, now).value.attempts, r)
  {
    hide AttemptId, MintedRows, MintedAttempts, UpsertAll, RowOf, Without, RowsFor, HandlerBodies, GateBodies, VerdictBodies,
         EvidenceBodies, AllMinted, ArtifactsPlaced, AllReferenced, AttemptRowOf, RowUnder, Upserted;
    MintedIsMinted(r);
    MintedSavesSucceed(db, r, now);
    forall k | 0 <= k < |r.attempts|
      ensures RowUnder(Saved(db, r, now).value.attempts, r.attempts[k].attemptId) == Some(AttemptRowOf(r.runId, r.attempts[k]))
    {
      UpsertsStore(db.attempts, r.runId, r.attempts, k);
    }
  }

  /** Attempt ids of different runs differ. */
  lemma OthersAttempt(r: RunRecord, other: RunRecord, k: nat)
    requires MintedAttempts(r) && MintedAttempts(other) && r.runId != other.runId && k < |r.attempts|
    ensures !Among(r.attempts[k].attemptId, other.attempts)
  {
    hide AttemptId;
    forall j | 0 <= j < |other.attempts| ensures other.attempts[j].attemptId != r.attempts[k].attemptId {
      if AttemptId(other.runId, j + 1) == AttemptId(r.runId, k + 1) {
        AttemptIdInjective(other.runId, j + 1, r.runId, k + 1);
      }
    }
  }

  lemma OtherAttemptsHeld(db: Database, r: RunRecord, now: int, held: RunRecord)
    requires MintedRows(db.attempts) && Minted(r) && MintedAttempts(held) && held.runId != r.runId
    requires AttemptsHeld(db.attempts, held)
    ensures Saved(db, r, now).Some? && AttemptsHeld(Saved(db, r, now).value.attempts, held)
  {
    hide AttemptId, MintedRows, MintedAttempts, Saved, ArtifactsPlaced, AttemptRowOf, RowUnder, Among;
    MintedSavesSucceed(db, r, now);
    var after := Saved(db, r, now).value.attempts;
    forall k | 0 <= k < |held.attempts|
      ensures RowUnder(after, held.attempts[k].attemptId) == Some(AttemptRowOf(held.runId, held.attempts[k]))
    {
      var id := held.attempts[k].attemptId;
      OthersAttempt(held, r, k);
      assert RowUnder(after, id) == RowAfter(RowUnder(db.attempts, id), r.runId, r.attempts, id);
    }
  }

  /** The tables hold what the memory holds: each run's snapshot reads as its record, stripped, its
      attempts have their rows, and its audit rows are the projection of that record. */
  ghost predicate Agrees(m: Memory, db: Database, id: string) {
    && (id in db.runs <==> id in m.runs)
    && (id in m.runs ==> db.runs[id].snapshot == Encode(m.runs[id]) && Projects(db, id, m.runs[id]))
    && (id in m.runs ==> m.runs[id].runId == id && MintedAttempts(m.runs[id]) && AttemptsHeld(db.attempts, m.runs[id]))
    && (id !in m.runs ==> BodiesOf(db.handlers, id) == [] && BodiesOf(db.evidence, id) == [])
  }

  ghost predicate Refines(m: Memory, db: Database) {
    (forall id: string :: Agrees(m, db, id)) && MintedRows(db.attempts)
  }

  lemma StepRefines(m: Memory, db: Database, r: RunRecord, now: int, id: string)
    requires Agrees(m, db, id) && MintedRows(db.attempts) && Minted(r)
    ensures Saved(db, r, now).Some?
    ensures Agrees(Remembered(m, r), Saved(db, r, now).value, id)
  {
    hide Saved, Encode, MintedAttempts, ArtifactsPlaced, MintedRows, HandlerBodies, GateBodies, VerdictBodies, EvidenceBodies,
         BodiesOf, Upserted, AttemptsHeld;
    MintedSavesSucceed(db, r, now);
    SaveProjects(db, r, now, id);
    if id == r.runId {
      SavedAttemptsHeld(db, r, now);
    } else if id in m.runs {
      OtherAttemptsHeld(db, r, now, m.runs[id]);
    }
  }

  lemma StepKeepsMinted(db: Database, r: RunRecord, now: int)
    requires MintedRows(db.attempts) && Minted(r)
    ensures Saved(db, r, now).Some? && MintedRows(Saved(db, r, now).value.attempts)
  {
    hide Saved, Minted, MintedRows, Upserted;
    MintedSavesSucceed(db, r, now);
  }

  lemma EmptyRefines()
    ensures Refines(Memory([], map[]), EMPTY)
  {
  }

  /** Over any history of saves of minted records no constraint is ever violated, and the tables
      hold what the memory holds. */
  lemma {:induction false} HistoriesRefine(puts: seq<Put>)
    requires AllPutsMinted(puts)
    ensures DatabaseAfter(puts).Some? && Refines(MemoryAfter(puts), DatabaseAfter(puts).value)
  {
    hide Saved, Minted, MintedRows, Agrees;
    if puts == [] {
      EmptyRefines();
    } else {
      var init, last := puts[..|puts| - 1], puts[|puts| - 1];
      HistoriesRefine(init);
      var m, db := MemoryAfter(init), DatabaseAfter(init).value;
      StepKeepsMinted(db, last.record, last.at);
      forall id: string ensures Agrees(Remembered(m, last.record), Saved(db, last.record, last.at).value, id) {
        StepRefines(m, db, last.record, last.at, id);
      }
    }
  }

  /** Reading: after any history the two stores answer alike, up to the evidence artifacts that the
      snapshot drops from the chain result. */
  lemma StoresAnswerAlike(puts: seq<Put>, id: string)
    requires AllPutsMinted(puts)
    ensures DatabaseAfter(puts).Some?
    ensures var m, db := MemoryAfter(puts), DatabaseAfter(puts).value;
            Fetched(db, id) == match Recall(m, id)
                               case None => None
                               case Some(r) => Some(Stripped(r))
  {
    hide Encode, Decode, Saved, Minted, Projects, BodiesOf, MintedRows;
    HistoriesRefine(puts);
    var m, db := MemoryAfter(puts), DatabaseAfter(puts).value;
    assert Agrees(m, db, id);
    if id in m.runs { RoundTrip(m.runs[id]); }
  }
}
