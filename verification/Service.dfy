/** The service as it runs: the control API over the runtime, on a memory and on the durable tables. */
module Service {
  import opened Core
  import opened Text
  import opened Gates
  import opened Context
  import opened Handlers
  import opened Runtime
  import opened Records
  import opened Serialization
  import opened RunStore
  import opened RunStoreLaws
  import opened RunOrder
  import opened Lifecycle
  import opened LifecycleLaws
  import opened StoredEvidence

  // ------------------------------------------------------------------------ over the tables

  /** The service on its tables. */
  datatype Durable = Durable(db: Database, disk: map<string, string>)

  /** What an endpoint has read when it looks up a run. */
  function Read(found: Option<RunRecord>, id: string): Memory {
    match found
    case None => Memory([], map[])
    case Some(r) => Memory([id], map[id := r])
  }

  /** One call at a time of the clock: the endpoint reads its run from the tables and saves to them. There is
      no outcome where the tables refuse the save. */
  function Serve(site: Site, t: Durable, call: Call, now: int): Option<(Durable, Answer)> {
    var sys := System(Read(Fetched(t.db, RunOf(call)), RunOf(call)), t.disk);
    var (after, answer) := Respond(site, sys, call);
    match SavedBy(site, sys, call)
    case None => Some((Durable(t.db, after.disk), answer))
    case Some(r) =>
      match Saved(t.db, r, now)
      case None => None
      case Some(db) => Some((Durable(db, after.disk), answer))
  }

  /** The service after a sequence of calls on new tables, and what it answered. */
  function Served(site: Site, disk: map<string, string>, clock: nat -> int, calls: seq<Call>): Option<(Durable, seq<Answer>)> {
    if calls == [] then Some((Durable(EMPTY, disk), []))
    else
      match Served(site, disk, clock, calls[..|calls| - 1])
      case None => None
      case Some((t, answers)) =>
        match Serve(site, t, calls[|calls| - 1], clock(|calls| - 1))
        case None => None
        case Some((next, answer)) => Some((next, answers + [answer]))
  }

  // -------------------------------------------------------------------- one run is all it reads

  /** The same answer, the same disk, and the same record saved. */
  ghost predicate SameEffect(a: (System, Answer), b: (System, Answer), id: string) {
    a.1 == b.1 && a.0.disk == b.0.disk && SavedIn(a, id) == SavedIn(b, id)
  }

  lemma StoredSame(s: System, t: System, disk: map<string, string>, r: RunRecord, answer: Answer, id: string)
    requires r.runId == id
    ensures SameEffect((Stored(System(s.memory, disk), r), answer), (Stored(System(t.memory, disk), r), answer), id)
  {
  }

  lemma AttemptSame(site: Site, s: System, t: System, r: RunRecord, q: Request, w: World, workspace: Option<Workspace>)
    requires s.disk == t.disk
    ensures SameEffect(Attempted(site, s, r, q, w, workspace), Attempted(site, t, r, q, w, workspace), r.runId)
  {
    hide SameEffect, Stored, WithResult, WithAttempt, BlockedResult, NextAttempt;
    match workspace
    case None =>
      KeepsRunId(r, workspace, BlockedResult(r.runId, q));
      StoredSame(s, t, s.disk, WithResult(r, BlockedResult(r.runId, q)), Executed(BlockedResult(r.runId, q)), r.runId);
    case Some(ws) =>
      var out := site.runner(s.disk, q, NextAttempt(r), w, Some(ws.tree));
      KeepsRunId(r, workspace, out.result);
      StoredSame(s, t, out.disk, WithResult(WithAttempt(r, ws, out.result), out.result), Executed(out.result), r.runId);
  }

  /** Two systems that hold the same under the id of a call, and the same disk. */
  ghost predicate SameSight(s: System, t: System, id: string) {
    s.disk == t.disk && Recall(s.memory, id) == Recall(t.memory, id)
    && (Recall(s.memory, id).Some? ==> Recall(s.memory, id).value.runId == id)
  }

  /** A call reads the run that it is about, and no other. */
  lemma CallsReadOneRun(site: Site, s: System, t: System, call: Call)
    requires SameSight(s, t, RunOf(call))
    ensures SameEffect(Respond(site, s, call), Respond(site, t, call), RunOf(call))
  {
    hide Attempted, Bound, SourcePath, Remembered, ManifestReasons, PlanOf, PrReasons, VerdictGates, EffectiveDecision, SameEffect,
         StoredDecision, SavedIn, Stored, Recall;
    var found := Recall(s.memory, RunOf(call));
    Untouched(s, t, RunOf(call));
    match call {
      case CreateRun(m, freshId) =>
        if ManifestReasons(m) == [] {
          StoredSame(s, t, s.disk, NewRecord(Or(m.runId, freshId), m), Created(Or(m.runId, freshId)), Or(m.runId, freshId));
        }
      case PlanChain(id, q) =>
        if found.Some? {
          StoredSame(s, t, s.disk, found.value.(chainResult := Some(PlanOf(id, q))), Planned(PlanOf(id, q)), id);
        }
      case ExecuteRun(id, q, path, w, resolve) =>
        if found.Some? && Bound(found.value, id, q).Ok? && SourcePath(site, path).Ok? {
          AttemptSame(site, s, t, found.value, Bound(found.value, id, q).value, w, resolve(SourcePath(site, path).value));
        }
      case VerifyRun(id, report, ledger) =>
        if found.Some? {
          var (self, evidence) := VerdictGates(id, report, ledger);
          var effective := EffectiveDecision(report, self == [] && evidence == []);
          StoredSame(s, t, s.disk, WithReport(found.value, report, effective), Verified(effective, self, evidence), id);
        }
      case OpenPr(id, url, skipReason) =>
        if found.Some? {
          StoredSame(s, t, s.disk, found.value.(state := PrGateState), PrOpened(url), id);
        }
    }
  }

  /** Refusals leave both as they are. */
  lemma Untouched(s: System, t: System, id: string)
    requires SameSight(s, t, id)
    ensures forall answer: Answer | !Granted(answer) :: SameEffect((s, answer), (t, answer), id)
  {
  }

  // --------------------------------------------------------------- what the tables cannot see

  /** Saving leaves the same tables with and without what the snapshot drops. */
  lemma SavedStripped(db: Database, r: RunRecord, now: int)
    ensures Saved(db, Stripped(r), now) == Saved(db, r, now)
  {
    hide Encode, EncodeManifest, UpsertAll, AllReferenced, Without, RowsFor, HandlerBodies, GateBodies, EvidenceBodies;
    StrippingIsIdempotent(r);
  }

  lemma SavedAlike(db: Database, a: RunRecord, b: RunRecord, now: int)
    requires Stripped(a) == Stripped(b)
    ensures Saved(db, a, now) == Saved(db, b, now)
  {
    hide *;
    SavedStripped(db, a, now);
    SavedStripped(db, b, now);
  }

  // -------------------------------------------------------------------------- one call

  /** The tables hold what the memory holds. */
  ghost predicate Mirrors(t: Durable, sys: System) {
    t.disk == sys.disk && forall id: string :: Fetched(t.db, id) == Recall(StrippedSystem(sys).memory, id)
  }

  lemma SameSightOfTables(t: Durable, sys: System, id: string)
    requires Mirrors(t, sys) && AllOrderly(sys.memory)
    ensures SameSight(System(Read(Fetched(t.db, id), id), t.disk), StrippedSystem(sys), id)
  {
    hide Fetched, Orderly, Stripped;
    RecallStripped(sys.memory, id);
    if id in sys.memory.runs {
      assert Orderly(id, sys.memory.runs[id]);
      RecalledIsOrderly(sys.memory, id);
      StrippedTwice(sys.memory.runs[id]);
    }
  }

  lemma SavedMatches(a: (System, Answer), b: (System, Answer), id: string)
    requires Matches(a, b)
    ensures SavedIn(a, id).Some? <==> SavedIn(b, id).Some?
    ensures SavedIn(a, id).Some? ==> Stripped(SavedIn(a, id).value) == Stripped(SavedIn(b, id).value)
  {
    hide Stripped, StrippedMemory;
    RecallStripped(a.0.memory, id);
    RecallStripped(b.0.memory, id);
  }

  /** On the tables a call answers as on the memory, leaves the same disk, and saves what it saves there. */
  lemma ServeFollows(site: Site, t: Durable, sys: System, call: Call, now: int)
    requires Mirrors(t, sys) && AllOrderly(sys.memory)
    ensures var (after, answer) := Respond(site, sys, call);
            Serve(site, t, call, now) ==
            match SavedBy(site, sys, call)
            case None => Some((Durable(t.db, after.disk), answer))
            case Some(r) =>
              match Saved(t.db, r, now)
              case None => None
              case Some(db) => Some((Durable(db, after.disk), answer))
  {
    hide Respond, Mirrors, StrippedSystem, SavedIn, Saved, Stripped, Read, StrippedMemory, SameSight, RunOf;
    var id := RunOf(call);
    var read := System(Read(Fetched(t.db, id), id), t.disk);
    SameSightOfTables(t, sys, id);
    CallsReadOneRun(site, read, StrippedSystem(sys), call);
    CallsMatch(site, sys, call);
    SavedMatches(Respond(site, StrippedSystem(sys), call), Respond(site, sys, call), id);
    if SavedBy(site, sys, call).Some? {
      SavedAlike(t.db, SavedBy(site, read, call).value, SavedBy(site, sys, call).value, now);
    }
  }

  // ------------------------------------------------------------------------- every sequence

  lemma DatabaseNext(puts: seq<Put>, r: RunRecord, now: int)
    ensures DatabaseAfter(puts + [Put(r, now)]) == match DatabaseAfter(puts)
                                                   case None => None
                                                   case Some(db) => Saved(db, r, now)
  {
    hide Saved;
    assert (puts + [Put(r, now)])[..|puts|] == puts;
  }

  lemma SavesNext(site: Site, disk: map<string, string>, clock: nat -> int, before: seq<Call>, call: Call)
    ensures DatabaseAfter(SavesOf(site, disk, clock, before + [call])) ==
            match DatabaseAfter(SavesOf(site, disk, clock, before))
            case None => None
            case Some(db) =>
              match SavedBy(site, After(site, Initial(disk), before), call)
              case None => Some(db)
              case Some(r) => Saved(db, r, clock(|before|))
  {
    hide After, SavedBy, DatabaseAfter, Saved;
    assert (before + [call])[..|before|] == before;
    var saved := SavedBy(site, After(site, Initial(disk), before), call);
    if saved.Some? { DatabaseNext(SavesOf(site, disk, clock, before), saved.value, clock(|before|)); }
  }

  lemma ServedNext(site: Site, disk: map<string, string>, clock: nat -> int, before: seq<Call>, call: Call)
    ensures Served(site, disk, clock, before + [call]) ==
            match Served(site, disk, clock, before)
            case None => None
            case Some((t, answers)) =>
              match Serve(site, t, call, clock(|before|))
              case None => None
              case Some((next, answer)) => Some((next, answers + [answer]))
  {
    hide Serve;
    assert (before + [call])[..|before|] == before;
  }

  lemma AnswersNext(site: Site, sys: System, before: seq<Call>, call: Call)
    ensures AnswersTo(site, sys, before + [call]) == AnswersTo(site, sys, before) + [Respond(site, After(site, sys, before), call).1]
    ensures After(site, sys, before + [call]) == Respond(site, After(site, sys, before), call).0
  {
    hide Respond;
    assert (before + [call])[..|before|] == before;
  }

  /** The tables after what the calls have saved hold what the memory holds. */
  lemma TablesMirror(site: Site, root: Path, digest: string -> string, disk: map<string, string>, clock: nat -> int, calls: seq<Call>)
    requires ContainsAttempts(site.runner, root, digest)
    ensures DatabaseAfter(SavesOf(site, disk, clock, calls)).Some?
    ensures Mirrors(Durable(DatabaseAfter(SavesOf(site, disk, clock, calls)).value, After(site, Initial(disk), calls).disk),
                    After(site, Initial(disk), calls))
  {
    hide ContainsAttempts, SavesOf, After, Fetched, DatabaseAfter, Recall, StrippedMemory;
    assert calls[..|calls|] == calls;
    TablesFollow(site, root, digest, disk, clock, calls, |calls|, "");
    var sys := After(site, Initial(disk), calls);
    var db := DatabaseAfter(SavesOf(site, disk, clock, calls)).value;
    forall id: string ensures Fetched(db, id) == Recall(StrippedSystem(sys).memory, id) {
      TablesFollow(site, root, digest, disk, clock, calls, |calls|, id);
      RecallStripped(sys.memory, id);
    }
  }

  /** The service on its tables, over every sequence of calls and every clock: the tables never refuse, they
      are what the saves of the memory's history make of them, and answers and disk are those of the memory. */
  lemma {:induction false} TablesServe(site: Site, root: Path, digest: string -> string, disk: map<string, string>,
                                       clock: nat -> int, calls: seq<Call>)
    requires ContainsAttempts(site.runner, root, digest)
    ensures DatabaseAfter(SavesOf(site, disk, clock, calls)).Some?
    ensures Served(site, disk, clock, calls)
            == Some((Durable(DatabaseAfter(SavesOf(site, disk, clock, calls)).value, After(site, Initial(disk), calls).disk),
                     AnswersTo(site, Initial(disk), calls)))
    decreases |calls|
  {
    hide *;
    TablesMirror(site, root, digest, disk, clock, calls);
    if calls == [] {
      NothingServed(site, disk, clock);
    } else {
      var before, call := calls[..|calls| - 1], calls[|calls| - 1];
      assert before + [call] == calls;
      TablesServe(site, root, digest, disk, clock, before);
      TablesMirror(site, root, digest, disk, clock, before);
      OrderlyAfter(site, root, digest, disk, before);
      var sys, db := After(site, Initial(disk), before), DatabaseAfter(SavesOf(site, disk, clock, before)).value;
      ServeFollows(site, Durable(db, sys.disk), sys, call, clock(|before|));
      SavesNext(site, disk, clock, before, call);
      ServedNext(site, disk, clock, before, call);
      AnswersNext(site, Initial(disk), before, call);
    }
  }

  lemma NothingServed(site: Site, disk: map<string, string>, clock: nat -> int)
    ensures SavesOf(site, disk, clock, []) == [] && DatabaseAfter([]) == Some(EMPTY)
    ensures Served(site, disk, clock, []) == Some((Durable(EMPTY, disk), []))
    ensures After(site, Initial(disk), []).disk == disk && AnswersTo(site, Initial(disk), []) == []
  {
  }

  /** Over every sequence of calls, and on every clock, the stored runs are orderly and the service on its
      tables gives the answers and leaves the disk of the service on the memory. Its tables list in the
      memory's order, and in no other, exactly when the runs were first saved at strictly increasing times,
      which any clock that moves on sees to. */
  lemma ServiceHistories(site: Site, c: Configuration, disk: map<string, string>, clock: nat -> int, calls: seq<Call>)
    requires site.runner == RunnerOf(c) && WellFormed(c.artifacts)
    ensures AllOrderly(After(site, Initial(disk), calls).memory) && Served(site, disk, clock, calls).Some?
    ensures var (t, answers) := Served(site, disk, clock, calls).value;
            && answers == AnswersTo(site, Initial(disk), calls) && t.disk == After(site, Initial(disk), calls).disk
            && (forall id: string ::
                  Fetched(t.db, id) == Recall(StrippedSystem(After(site, Initial(disk), calls)).memory, id))
            && ((forall ids: seq<string> :: Listing(t.db, ids) <==> ids == After(site, Initial(disk), calls).memory.order)
                <==> FirstsRise(SavesOf(site, disk, clock, calls)))
    ensures (forall i: nat, j: nat | i < j :: clock(i) < clock(j)) ==> FirstsRise(SavesOf(site, disk, clock, calls))
  {
    hide *;
    RuntimeContainsAttempts(c);
    var puts := SavesOf(site, disk, clock, calls);
    HistoriesAreOrderly(site, c.artifacts, c.digest, disk, clock, calls);
    TablesServe(site, c.artifacts, c.digest, disk, clock, calls);
    TablesMirror(site, c.artifacts, c.digest, disk, clock, calls);
    MirrorFetches(Durable(DatabaseAfter(puts).value, After(site, Initial(disk), calls).disk), After(site, Initial(disk), calls));
    ListsAgree(puts);
    if forall i: nat, j: nat | i < j :: clock(i) < clock(j) {
      SavesTick(site, disk, clock, calls);
      TickingRises(puts);
    }
  }

  lemma MirrorFetches(t: Durable, sys: System)
    requires Mirrors(t, sys)
    ensures forall id: string :: Fetched(t.db, id) == Recall(StrippedSystem(sys).memory, id)
  {
  }

  /** A stored PASS was recorded by the last verification of its run, both gates passing. */
  lemma ServicePassWasRecorded(site: Site, c: Configuration, disk: map<string, string>, calls: seq<Call>, id: string)
    returns (k: nat)
    requires site.runner == RunnerOf(c) && WellFormed(c.artifacts) && HasPass(After(site, Initial(disk), calls).memory, id)
    ensures k < |calls| && RecordsPass(calls[k], id)
    ensures forall j | k < j < |calls| :: !Verifies(calls[j], id)
  {
    hide *;
    RuntimeContainsAttempts(c);
    k := PassWasRecorded(site, c.artifacts, c.digest, disk, calls, id);
  }
}
