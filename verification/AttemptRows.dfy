/** The attempt table over whole histories of saves. A save never deletes an attempt row, so the table
    outlives the attempt lists of the records. */
module AttemptRows {
  import opened Core
  import opened Text
  import opened Records
  import opened Serialization
  import opened RunStore
  import opened RunStoreLaws

  /** The attempt that was saved last under an id, as the row it makes. */
  function LastRow(puts: seq<Put>, id: string): Option<AttemptRow> {
    if puts == [] then None
    else
      var last := puts[|puts| - 1].record;
      RowAfter(LastRow(puts[..|puts| - 1], id), last.runId, last.attempts, id)
  }

  /** After any history of saves every attempt row is what was last saved under its id, whichever
      records still list that attempt. */
  lemma {:induction false} TableIsLastRows(puts: seq<Put>, id: string)
    requires AllPutsMinted(puts)
    ensures DatabaseAfter(puts).Some? && MintedRows(DatabaseAfter(puts).value.attempts)
    ensures RowUnder(DatabaseAfter(puts).value.attempts, id) == LastRow(puts, id)
  {
    hide Saved, Minted, MintedRows, Agrees, RowAfter, RowUnder;
    HistoriesRefine(puts);
    if puts == [] {
      assert RowUnder(map[], id) == None by { EmptyTable(id); }
    } else {
      var init, last := puts[..|puts| - 1], puts[|puts| - 1];
      TableIsLastRows(init, id);
      MintedSavesSucceed(DatabaseAfter(init).value, last.record, last.at);
    }
  }

  lemma EmptyTable(id: string)
    ensures RowUnder(map[], id) == None
  {
  }

  /** Some save of the history stored an attempt with this id. */
  ghost predicate EverSaved(puts: seq<Put>, id: string) {
    exists i | 0 <= i < |puts| :: Among(id, puts[i].record.attempts)
  }

  lemma EverGrows(init: seq<Put>, last: Put, id: string)
    ensures EverSaved(init + [last], id) <==> EverSaved(init, id) || Among(id, last.record.attempts)
  {
    hide Among;
    var all := init + [last];
    assert all[|init|] == last;
    if EverSaved(init, id) {
      var i :| 0 <= i < |init| && Among(id, init[i].record.attempts);
      assert Among(id, all[i].record.attempts);
    }
  }

  lemma {:induction false} LastRowIfSaved(puts: seq<Put>, id: string)
    ensures LastRow(puts, id).Some? <==> EverSaved(puts, id)
  {
    hide Among, EverSaved, LastAttempt;
    if puts == [] {
      assert !EverSaved([], id) by { NeverSaved(id); }
    } else {
      var init, last := puts[..|puts| - 1], puts[|puts| - 1];
      assert puts == init + [last];
      LastRowIfSaved(init, id);
      EverGrows(init, last, id);
    }
  }

  lemma NeverSaved(id: string)
    ensures !EverSaved([], id)
  {
  }

  /** An attempt id has a row exactly when an attempt with it was ever saved. */
  lemma AttemptsAccumulate(puts: seq<Put>, id: string)
    requires AllPutsMinted(puts)
    ensures DatabaseAfter(puts).Some?
    ensures id in DatabaseAfter(puts).value.attempts <==> EverSaved(puts, id)
  {
    hide MintedRows, EverSaved, LastRow, DatabaseAfter, AllPutsMinted;
    TableIsLastRows(puts, id);
    LastRowIfSaved(puts, id);
  }

  // ------------------------------------------------------------------------- rows of a run

  /** The rows of a run are those of the attempts its record lists, and no others. */
  ghost predicate RowsAreThoseOf(attempts: map<string, AttemptRow>, r: RunRecord) {
    && AttemptsHeld(attempts, r)
    && forall id | id in attempts && attempts[id].runId == r.runId :: Among(id, r.attempts)
  }

  /** No save of the run listed more attempts than this. */
  ghost predicate NeverLonger(puts: seq<Put>, runId: string, count: nat) {
    forall i | 0 <= i < |puts| :: puts[i].record.runId == runId ==> |puts[i].record.attempts| <= count
  }

  lemma NumberOfMinted(id: string, row: AttemptRow, runId: string, n: nat)
    requires MintedRow(id, row) && id == AttemptId(runId, n)
    ensures row.runId == runId && row.number == n
  {
    hide AttemptId;
    AttemptIdInjective(row.runId, row.number, runId, n);
  }

  /** A row of a run comes from a save of that run that listed its number. */
  lemma RowOfListed(puts: seq<Put>, r: RunRecord, id: string, attempts: map<string, AttemptRow>)
    requires AllPutsMinted(puts) && MintedRows(attempts) && MintedAttempts(r)
    requires id in attempts && attempts[id].runId == r.runId && EverSaved(puts, id) && NeverLonger(puts, r.runId, |r.attempts|)
    ensures Among(id, r.attempts)
  {
    hide AttemptId, ArtifactsPlaced;
    var i :| 0 <= i < |puts| && Among(id, puts[i].record.attempts);
    var j :| 0 <= j < |puts[i].record.attempts| && puts[i].record.attempts[j].attemptId == id;
    assert Minted(puts[i].record);
    assert MintedRow(id, attempts[id]);
    NumberOfMinted(id, attempts[id], puts[i].record.runId, j + 1);
    assert r.attempts[j].attemptId == id;
  }

  /** An attempt beyond those the record lists has a row of the run all the same. */
  lemma RowBeyond(puts: seq<Put>, i: nat, r: RunRecord, attempts: map<string, AttemptRow>) returns (id: string)
    requires AllPutsMinted(puts) && MintedRows(attempts) && MintedAttempts(r)
    requires i < |puts| && puts[i].record.runId == r.runId && |puts[i].record.attempts| > |r.attempts|
    requires forall id: string :: EverSaved(puts, id) ==> id in attempts
    ensures id in attempts && attempts[id].runId == r.runId && !Among(id, r.attempts)
  {
    hide AttemptId, ArtifactsPlaced;
    var n := |r.attempts| + 1;
    assert Minted(puts[i].record);
    id := puts[i].record.attempts[n - 1].attemptId;
    assert Among(id, puts[i].record.attempts);
    assert EverSaved(puts, id);
    assert MintedRow(id, attempts[id]);
    NumberOfMinted(id, attempts[id], r.runId, n);
    forall k | 0 <= k < |r.attempts| ensures r.attempts[k].attemptId != id {
      if r.attempts[k].attemptId == id { AttemptIdInjective(r.runId, k + 1, r.runId, n); }
    }
  }

  /** After any history the record's attempts all have their rows, and the run has no other rows
      exactly when no save of the run ever listed more attempts than the last one does: attempt lists
      that only grow are mirrored, and lists that shrank are not. */
  lemma RowsMirrorTheRecord(puts: seq<Put>, id: string)
    requires AllPutsMinted(puts) && id in MemoryAfter(puts).runs
    ensures DatabaseAfter(puts).Some?
    ensures var r, attempts := MemoryAfter(puts).runs[id], DatabaseAfter(puts).value.attempts;
            && r.runId == id && AttemptsHeld(attempts, r)
            && (RowsAreThoseOf(attempts, r) <==> NeverLonger(puts, id, |r.attempts|))
  {
    hide MintedRows, EverSaved, DatabaseAfter, AllPutsMinted, AttemptsHeld, Among, Projects, BodiesOf, Encode, MemoryAfter, NeverLonger,
         MintedAttempts;
    HistoriesRefine(puts);
    var m, db := MemoryAfter(puts), DatabaseAfter(puts).value;
    var r, attempts := m.runs[id], db.attempts;
    assert Agrees(m, db, id);
    forall a: string ensures a in attempts <==> EverSaved(puts, a) { AttemptsAccumulate(puts, a); }
    if NeverLonger(puts, id, |r.attempts|) {
      forall a | a in attempts && attempts[a].runId == r.runId ensures Among(a, r.attempts) {
        RowOfListed(puts, r, a, attempts);
      }
    } else {
      var i := LongerSave(puts, id, |r.attempts|);
      var a := RowBeyond(puts, i, r, attempts);
    }
  }

  lemma LongerSave(puts: seq<Put>, runId: string, count: nat) returns (i: nat)
    requires !NeverLonger(puts, runId, count)
    ensures i < |puts| && puts[i].record.runId == runId && |puts[i].record.attempts| > count
  {
    i :| i < |puts| && puts[i].record.runId == runId && |puts[i].record.attempts| > count;
  }

  /** Creating a run anew under the id of an old one empties its list, and its rows stay. */
  lemma RecreatedRunKeepsRows(r: RunRecord, m: Manifest, first: int, second: int)
    requires Minted(r) && r.attempts != []
    ensures var puts := [Put(r, first), Put(NewRecord(r.runId, m), second)];
            && AllPutsMinted(puts) && r.runId in MemoryAfter(puts).runs && DatabaseAfter(puts).Some?
            && !RowsAreThoseOf(DatabaseAfter(puts).value.attempts, MemoryAfter(puts).runs[r.runId])
  {
    hide Minted, DatabaseAfter, RowsAreThoseOf, AttemptsHeld;
    var puts := [Put(r, first), Put(NewRecord(r.runId, m), second)];
    NewIsMinted(r.runId, m);
    assert puts[..1] == [Put(r, first)] && [Put(r, first)][..0] == [];
    assert MemoryAfter(puts).runs[r.runId] == NewRecord(r.runId, m);
    assert puts[0].record.runId == r.runId && |puts[0].record.attempts| > 0;
    RowsMirrorTheRecord(puts, r.runId);
  }

  lemma NewIsMinted(id: string, m: Manifest)
    ensures Minted(NewRecord(id, m))
  {
  }
}
