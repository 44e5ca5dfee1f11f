/**
 The evidence of a run and the only ways it grows: recording an artifact, holding agent output
 in quarantine, and recording a model invocation.
 */
module Evidence {
  import opened Core
  import opened Text
  import opened Gates
  import opened EvidenceWriter
  import opened ArtifactStore
  import opened Names

  /** Where a run keeps a file: its name and its path. */
  datatype Location = Location(name: string, path: string)

  /** Files other than checkpoints have paths of their own, and only the two agent narratives
      have quarantined ones. */
  ghost predicate GoodLayout(f: Name -> Location) {
    && (forall n: Name :: f(n).path != "")
    && (forall n: Name {:trigger Quarantined(f(n).path)} ::
          n != SUMMARY_FILE && n != RAW_FILE ==> !Quarantined(f(n).path))
    && (forall m: Name, n: Name {:trigger f(m), f(n)} ::
          f(m).path == f(n).path && !m.CheckpointFile? ==> m == n)
  }

  function LayoutOf(s: Store, runId: string, naming: Naming): Name -> Location {
    n => Location(naming(n), FileOf(s, runId, naming(n)))
  }

  /** Whatever the root, the run id and the attempt, a store lays the files out well. */
  lemma StoreLaysOutWell(s: Store, runId: string, naming: Naming)
    requires WellFormed(s.root)
    ensures GoodLayout(LayoutOf(s, runId, naming))
  {
    var f := LayoutOf(s, runId, naming);
    forall n: Name ensures f(n).path != "" && Basename(f(n).path) == naming(n) {
      FileBasename(s, runId, naming(n));
    }
    forall n: Name | n != SUMMARY_FILE && n != RAW_FILE ensures !Quarantined(f(n).path) {
      assert naming(n) != naming(SUMMARY_FILE) && naming(n) != naming(RAW_FILE);
    }
  }

  type Layout = Name -> Location

  /** The evidence side of a context. */
  datatype Evidence = Evidence(
    runId: string, taskId: string, layout: Layout, store: Store, writer: Writer, artifacts: seq<Artifact>)

  // ---------------------------------------------------------------- growing evidence

  /** How an entry is ledgered. */
  datatype Entry = Entry(result: LedgerResult, command: string)

  /** One write of a run: `entry` says whether and how the file is ledgered, `joins` whether it
      becomes one of the context's artifacts. */
  datatype Op = Op(
    name: Name, data: string, artifactType: ArtifactType, author: string, entry: Option<Entry>, joins: bool)

  /** Recording: write, append to the ledger, remember the artifact. */
  function Record(name: Name, data: string, t: ArtifactType, result: LedgerResult, command: string, author: string): Op {
    Op(name, data, t, author, Some(Entry(result, command)), true)
  }

  /** Quarantine: write, and keep it out of the ledger. */
  function Hold(name: Name, data: string, author: string): Op {
    Op(name, data, COMMAND_OUTPUT, author, None, false)
  }

  const ROUTER := "model_router"

  /** The invocation recorder: request and response are stored only, the structured record is
      ledgered, and none of them joins the context's artifacts. */
  function Invoke(number: nat, model: string, prompt: string, reply: string, record: string): seq<Op> {
    [Op(LlmFile(Prompt, number), prompt, LLM_INVOCATION, ROUTER, None, false),
     Op(LlmFile(Reply, number), reply, LLM_INVOCATION, ROUTER, None, false),
     Op(LlmFile(Invocation, number), record, LLM_INVOCATION, ROUTER, Some(Entry(EntryInfo, "llm:" + model)), false)]
  }

  function DraftOf(a: Artifact, e: Entry): Draft {
    Draft(a.artifactType, a.path, a.hash, e.command, e.result, a.recordedBy)
  }

  function Put(c: Evidence, op: Op): (Store, Artifact) {
    var at := c.layout(op.name);
    WriteAt(c.store, c.runId, c.taskId, at.name, at.path, op.data, op.artifactType, op.author)
  }

  function Perform(c: Evidence, op: Op): Evidence {
    var (store, a) := Put(c, op);
    Evidence(c.runId, c.taskId, c.layout, store,
             if op.entry.Some? then Append(c.writer, DraftOf(a, op.entry.value)) else c.writer,
             if op.joins then c.artifacts + [a] else c.artifacts)
  }

  function PerformAll(c: Evidence, ops: seq<Op>): Evidence
    decreases |ops|
  {
    if ops == [] then c else PerformAll(Perform(c, ops[0]), ops[1..])
  }

  lemma OneOp(ev: Evidence, a: Op)
    ensures PerformAll(ev, [a]) == Perform(ev, a)
  {
    hide Perform;
    assert [a][1..] == [];
    assert PerformAll(Perform(ev, a), []) == Perform(ev, a);
  }

  lemma TwoOps(ev: Evidence, a: Op, b: Op)
    ensures PerformAll(ev, [a, b]) == Perform(Perform(ev, a), b)
  {
    hide Perform;
    assert [a, b][1..] == [b] && [b][1..] == [];
    assert PerformAll(ev, [a, b]) == PerformAll(Perform(ev, a), [b]);
  }

  lemma ThreeOps(ev: Evidence, a: Op, b: Op, c: Op)
    ensures PerformAll(ev, [a, b, c]) == Perform(Perform(Perform(ev, a), b), c)
  {
    hide Perform;
    assert [a, b, c][1..] == [b, c];
    assert PerformAll(ev, [a, b, c]) == PerformAll(Perform(ev, a), [b, c]);
    TwoOps(Perform(ev, a), b, c);
  }

  function Ledgered(op: Op): seq<Name> {
    if op.entry.Some? then [op.name] else []
  }

  /** The ledgered files, in order, once the operations have run. */
  function NamesAfter(names: seq<Name>, ops: seq<Op>): seq<Name>
    decreases |ops|
  {
    if ops == [] then names else NamesAfter(names + Ledgered(ops[0]), ops[1..])
  }

  /** Nothing but evidence may be ledgered, neither agent narrative nor checkpoints, and the
      artifacts are what is ledgered other than model invocations. */
  predicate Proper(op: Op) {
    && (op.entry.Some? ==> op.name != SUMMARY_FILE && op.name != RAW_FILE && !op.name.CheckpointFile?)
    && (op.joins <==> op.entry.Some? && op.artifactType != LLM_INVOCATION)
  }

  predicate AllProper(ops: seq<Op>) {
    ops == [] || (Proper(ops[0]) && AllProper(ops[1..]))
  }

  /** No operation writes a file that is already ledgered. */
  predicate Fresh(names: seq<Name>, ops: seq<Op>)
    decreases |ops|
  {
    ops == [] || (ops[0].name !in names && Fresh(names + Ledgered(ops[0]), ops[1..]))
  }

  // ---------------------------------------------------------------------- invariants

  function PathOf(c: Evidence, n: Name): string {
    c.layout(n).path
  }

  /** What the ledger and the artifact list have in common. */
  datatype Face = Face(artifactType: ArtifactType, path: string, hash: string, recordedBy: string)

  /** The ledger entries other than model invocations, in order. */
  function Faces(entries: seq<LedgerEntry>): seq<Face> {
    if entries == [] then []
    else
      var e := entries[|entries| - 1];
      Faces(entries[..|entries| - 1])
      + if e.artifactType == LLM_INVOCATION then []
        else [Face(e.artifactType, e.artifactPath, e.hash, e.recordedBy)]
  }

  function ArtifactFaces(artifacts: seq<Artifact>): seq<Face> {
    if artifacts == [] then []
    else
      var a := artifacts[|artifacts| - 1];
      ArtifactFaces(artifacts[..|artifacts| - 1]) + [Face(a.artifactType, a.path, a.hash, a.recordedBy)]
  }

  ghost predicate OneAttempt(c: Evidence) {
    forall i | 0 <= i < |c.artifacts| :: c.artifacts[i].attemptId == c.store.attemptId
  }

  /** Entry i stands for the evidence file `names[i]`. */
  ghost predicate Placed(c: Evidence, names: seq<Name>) {
    && GoodLayout(c.layout)
    && |names| == |c.writer.ledger.entries|
    && forall i | 0 <= i < |names| ::
         && names[i] != SUMMARY_FILE && names[i] != RAW_FILE && !names[i].CheckpointFile?
         && c.writer.ledger.entries[i].artifactPath == PathOf(c, names[i])
  }

  ghost predicate Mirrored(c: Evidence) {
    ArtifactFaces(c.artifacts) == Faces(c.writer.ledger.entries)
  }

  ghost predicate LinkedToRun(c: Evidence) {
    && c.writer.ledger.runId == c.runId
    && c.writer.ledger.taskId == c.taskId
    && !c.writer.ledger.selfCertificationUsed
  }

  /** The ledger of a run: built by its writer, linked to the run, never self-certified; entry i
      stands for the evidence file `names[i]`; and the artifact list mirrors it. */
  ghost predicate Grown(c: Evidence, names: seq<Name>) {
    Built(c.writer) && LinkedToRun(c) && Placed(c, names) && Mirrored(c) && OneAttempt(c)
  }

  /** Every ledger entry's hash is the hash of the bytes stored at its path now. */
  ghost predicate Agreement(c: Evidence) {
    forall i | 0 <= i < |c.writer.ledger.entries| :: Agrees(c.store, c.writer.ledger.entries[i])
  }

  ghost predicate Agrees(s: Store, e: LedgerEntry) {
    e.artifactPath in s.files && e.hash == s.digest(s.files[e.artifactPath])
  }

  /** The parts of a context that growing evidence leaves alone. */
  ghost predicate SameButEvidence(c: Evidence, d: Evidence) {
    && d.runId == c.runId && d.taskId == c.taskId && d.layout == c.layout
    && d.store.root == c.store.root && d.store.attemptId == c.store.attemptId && d.store.digest == c.store.digest
    && d.writer.ids == c.writer.ids
    && SameButEntries(c.writer.ledger, d.writer.ledger)
  }

  ghost predicate SameButEntries(c: Ledger, d: Ledger) {
    && d.runId == c.runId && d.taskId == c.taskId
    && d.finalStatus == c.finalStatus && d.selfCertificationUsed == c.selfCertificationUsed
    && c.entries <= d.entries
  }

  /** A grown ledger satisfies every clause of the evidence gate but presence and linkage. */
  lemma GrownIsSound(c: Evidence, names: seq<Name>)
    requires Grown(c, names)
    ensures AllSound(c.writer.ledger.entries) && DistinctIds(c.writer.ledger.entries)
  {
    var es := c.writer.ledger.entries;
    BuiltHasDistinctIds(c.writer);
    forall i | 0 <= i < |es| ensures SoundEntry(es[i]) {
      assert !Quarantined(PathOf(c, names[i]));
    }
  }

  lemma FacesGrow(entries: seq<LedgerEntry>, e: LedgerEntry)
    ensures Faces(entries + [e]) ==
            Faces(entries) + if e.artifactType == LLM_INVOCATION then []
                             else [Face(e.artifactType, e.artifactPath, e.hash, e.recordedBy)]
  {
    assert (entries + [e])[..|entries|] == entries;
  }

  lemma ArtifactFacesGrow(artifacts: seq<Artifact>, a: Artifact)
    ensures ArtifactFaces(artifacts + [a]) ==
            ArtifactFaces(artifacts) + [Face(a.artifactType, a.path, a.hash, a.recordedBy)]
  {
    assert (artifacts + [a])[..|artifacts|] == artifacts;
  }

  lemma PerformChangesEvidenceOnly(c: Evidence, op: Op)
    ensures SameButEvidence(c, Perform(c, op))
  {
  }

  lemma PerformKeepsMirror(c: Evidence, op: Op)
    requires Mirrored(c) && Proper(op)
    ensures Mirrored(Perform(c, op))
  {
    var a := Put(c, op).1;
    if op.entry.Some? {
      FacesGrow(c.writer.ledger.entries, EntryOf(DraftOf(a, op.entry.value), c.writer.ids(c.writer.counter + 1)));
    }
    ArtifactFacesGrow(c.artifacts, a);
  }

  lemma PerformKeepsAttempt(c: Evidence, op: Op)
    requires OneAttempt(c)
    ensures OneAttempt(Perform(c, op))
  {
  }

  /** One operation keeps the ledger grown, appends what it ledgers and nothing else. */
  lemma PerformGrows(c: Evidence, names: seq<Name>, op: Op)
    requires Grown(c, names) && Proper(op)
    ensures Grown(Perform(c, op), names + Ledgered(op))
  {
    PerformChangesEvidenceOnly(c, op);
    PerformKeepsMirror(c, op);
    PerformKeepsAttempt(c, op);
  }

  /** Writing a file that is not ledgered leaves every ledgered file as it was. */
  lemma PutElsewhere(c: Evidence, names: seq<Name>, op: Op)
    requires Placed(c, names) && Agreement(c) && op.name !in names
    ensures forall i | 0 <= i < |names| :: Agrees(Put(c, op).0, c.writer.ledger.entries[i])
  {
    forall i | 0 <= i < |names| ensures Agrees(Put(c, op).0, c.writer.ledger.entries[i]) {
      assert PathOf(c, names[i]) != PathOf(c, op.name);
    }
  }

  lemma PutAgrees(c: Evidence, op: Op, id: string, e: Entry)
    ensures Agrees(Put(c, op).0, EntryOf(DraftOf(Put(c, op).1, e), id))
  {
  }

  /** What performing an operation makes of the ledger's entries. */
  lemma PerformEntries(c: Evidence, op: Op)
    ensures Perform(c, op).store == Put(c, op).0
    ensures var before, after := c.writer.ledger.entries, Perform(c, op).writer.ledger.entries;
            after == before || (op.entry.Some? && after == before + [EntryOf(DraftOf(Put(c, op).1, op.entry.value), c.writer.ids(c.writer.counter + 1))])
  {
    hide Put;
  }

  lemma PerformKeepsAgreement(c: Evidence, names: seq<Name>, op: Op)
    requires Placed(c, names) && Agreement(c) && op.name !in names
    ensures Agreement(Perform(c, op))
  {
    hide GoodLayout, Put, PathOf, Agrees, Perform, DraftOf, EntryOf;
    PutElsewhere(c, names, op);
    PerformEntries(c, op);
    var after := Perform(c, op).writer.ledger.entries;
    forall i | 0 <= i < |after| ensures Agrees(Put(c, op).0, after[i]) {
      if i >= |names| { PutAgrees(c, op, c.writer.ids(c.writer.counter + 1), op.entry.value); }
    }
  }

  /** Over any proper sequence of operations the ledger stays grown: the ids count up, and each
      entry stands for the file its operation named. */
  lemma {:induction false} RunGrows(c: Evidence, names: seq<Name>, ops: seq<Op>)
    requires Grown(c, names) && AllProper(ops)
    ensures Grown(PerformAll(c, ops), NamesAfter(names, ops))
    decreases |ops|
  {
    if ops != [] {
      PerformGrows(c, names, ops[0]);
      RunGrows(Perform(c, ops[0]), names + Ledgered(ops[0]), ops[1..]);
    }
  }

  /** Earlier ledgers are prefixes of later ones, and nothing but files, entries and artifacts
      ever changes. */
  lemma {:induction false} RunOnlyAppends(c: Evidence, ops: seq<Op>)
    ensures SameButEvidence(c, PerformAll(c, ops))
    decreases |ops|
  {
    if ops != [] {
      PerformChangesEvidenceOnly(c, ops[0]);
      RunOnlyAppends(Perform(c, ops[0]), ops[1..]);
    }
  }

  /** If no operation writes a file that is already ledgered, ledger and store agree at the end,
      and so, the prefix of a fresh sequence being fresh, at every point on the way. */
  lemma {:induction false} RunKeepsAgreement(c: Evidence, names: seq<Name>, ops: seq<Op>)
    requires Grown(c, names) && AllProper(ops) && Agreement(c) && Fresh(names, ops)
    ensures Agreement(PerformAll(c, ops))
    decreases |ops|
  {
    if ops != [] {
      PerformGrows(c, names, ops[0]);
      PerformKeepsAgreement(c, names, ops[0]);
      RunKeepsAgreement(Perform(c, ops[0]), names + Ledgered(ops[0]), ops[1..]);
    }
  }
}
