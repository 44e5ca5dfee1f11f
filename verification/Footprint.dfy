/** Which stored files a run touches, and how its artifacts stand at its end. */
module Footprint {
  import opened Core
  import opened Gates
  import opened EvidenceWriter
  import opened Names
  import opened Evidence
  import opened Executor
  import opened Handlers
  import opened ChainRuns

  /** No file of a run is kept at this path. */
  ghost predicate Outside(layout: Layout, path: string) {
    forall n: Name :: layout(n).path != path
  }

  ghost predicate SameBytes(a: map<string, string>, b: map<string, string>, path: string) {
    if path in a then path in b && b[path] == a[path] else path !in b
  }

  lemma PerformOutside(ev: Evidence, op: Op, path: string)
    requires Outside(ev.layout, path)
    ensures SameBytes(ev.store.files, Perform(ev, op).store.files, path) && Perform(ev, op).layout == ev.layout
  {
    hide Append;
  }

  lemma {:induction false} PerformAllOutside(ev: Evidence, ops: seq<Op>, path: string)
    requires Outside(ev.layout, path)
    ensures SameBytes(ev.store.files, PerformAll(ev, ops).store.files, path) && PerformAll(ev, ops).layout == ev.layout
    decreases |ops|
  {
    hide Perform, Outside;
    if ops != [] {
      PerformOutside(ev, ops[0], path);
      PerformAllOutside(Perform(ev, ops[0]), ops[1..], path);
    }
  }

  lemma StepOutside(l: Launch, before: Run, after: Run, i: nat, name: HandlerName, path: string)
    requires Stepped(l, before, after, i, name) && Outside(before.ctx.ev.layout, path)
    ensures SameBytes(before.ctx.ev.store.files, after.ctx.ev.store.files, path) && after.ctx.ev.layout == before.ctx.ev.layout
  {
    var data := StepEvidence(l, before, after, i, name);
    hide Stepped, Outside, PerformAll, Perform, EffectAt, Finalize;
    var e := EffectAt(l, before, name);
    PerformAllOutside(before.ctx.ev, e.ops, path);
    PerformOutside(Closed(PerformAll(before.ctx.ev, e.ops), e.finalStatus), CheckpointOp(i, name, data), path);
  }

  lemma SameBytesFollow(a: map<string, string>, b: map<string, string>, c: map<string, string>, path: string)
    ensures SameBytes(a, a, path)
    ensures SameBytes(a, b, path) && SameBytes(b, c, path) ==> SameBytes(a, c, path)
  {
  }

  /** A run leaves every file that is not one of its own as it was. */
  lemma {:induction false} RunOutside(l: Launch, t: seq<Run>, n: nat, path: string)
    requires Traced(l, t) && n < |t| && Outside(t[0].ctx.ev.layout, path)
    ensures SameBytes(t[0].ctx.ev.store.files, t[n].ctx.ev.store.files, path) && t[n].ctx.ev.layout == t[0].ctx.ev.layout
  {
    hide *;
    if n == 0 {
      SameBytesFollow(t[0].ctx.ev.store.files, t[0].ctx.ev.store.files, t[0].ctx.ev.store.files, path);
    } else {
      RunOutside(l, t, n - 1, path);
      TraceStep(l, t, n - 1);
      StepOutside(l, t[n - 1], t[n], n - 1, Chain(l)[n - 1], path);
      SameBytesFollow(t[0].ctx.ev.store.files, t[n - 1].ctx.ev.store.files, t[n].ctx.ev.store.files, path);
    }
  }

  // ---------------------------------------------------------------------- artifacts

  function FaceOf(a: Artifact): Face {
    Face(a.artifactType, a.path, a.hash, a.recordedBy)
  }

  lemma {:induction false} FaceIsListed(artifacts: seq<Artifact>, i: nat)
    requires i < |artifacts|
    ensures FaceOf(artifacts[i]) in ArtifactFaces(artifacts)
  {
    if i < |artifacts| - 1 { FaceIsListed(artifacts[..|artifacts| - 1], i); }
  }

  lemma {:induction false} FaceIsLedgered(entries: seq<LedgerEntry>, f: Face) returns (i: nat)
    requires f in Faces(entries)
    ensures i < |entries| && entries[i].artifactPath == f.path && entries[i].hash == f.hash
  {
    var last := entries[|entries| - 1];
    if f in Faces(entries[..|entries| - 1]) {
      i := FaceIsLedgered(entries[..|entries| - 1], f);
    } else {
      i := |entries| - 1;
    }
  }

  /** An artifact stands: its file is in the store, and its hash is that of the bytes there. */
  ghost predicate Stands(files: map<string, string>, digest: string -> string, a: Artifact) {
    a.path in files && a.hash == digest(files[a.path])
  }

  ghost predicate OwnFile(layout: Layout, path: string) {
    exists n: Name :: layout(n).path == path
  }

  /** Each artifact of a sound context stands, under the path of one of the run's own files, and
      carries the attempt of the store. */
  lemma ArtifactStands(ev: Evidence, names: seq<Name>, i: nat)
    requires Sound(ev, names) && i < |ev.artifacts|
    ensures Stands(ev.store.files, ev.store.digest, ev.artifacts[i])
    ensures OwnFile(ev.layout, ev.artifacts[i].path)
    ensures ev.artifacts[i].attemptId == ev.store.attemptId
  {
    hide Built, LinkedToRun, GoodLayout, Faces, ArtifactFaces;
    FaceIsListed(ev.artifacts, i);
    var k := FaceIsLedgered(ev.writer.ledger.entries, FaceOf(ev.artifacts[i]));
    assert Agrees(ev.store, ev.writer.ledger.entries[k]);
    assert ev.writer.ledger.entries[k].artifactPath == PathOf(ev, names[k]);
  }

  /** At the end of a run each of its artifacts stands and carries its attempt. */
  lemma RunArtifactsStand(l: Launch, t: seq<Run>, i: nat)
    requires Careful(l) && Traced(l, t)
    requires |t| > 0 && i < |t[|t| - 1].ctx.ev.artifacts|
    ensures var ev := t[|t| - 1].ctx.ev;
            && Stands(ev.store.files, l.start.ev.store.digest, ev.artifacts[i])
            && OwnFile(l.start.ev.layout, ev.artifacts[i].path)
            && ev.artifacts[i].attemptId == l.start.ev.store.attemptId
  {
    hide Traced, Careful, Sound, Stands, OwnFile;
    var n := |t| - 1;
    var names := EvidenceStaysSound(l, t, n);
    LedgerOnlyGrows(l, t, 0, n);
    StartOfTrace(l, t);
    ArtifactStands(t[n].ctx.ev, names, i);
  }

  /** From one evidence to another nothing but files of the first one's layout has changed, and the artifacts
      stand under such files and carry its attempt. */
  ghost predicate StaysIn(a: Evidence, b: Evidence) {
    && (forall path: string | Outside(a.layout, path) :: SameBytes(a.store.files, b.store.files, path))
    && forall i | 0 <= i < |b.artifacts| ::
         && Stands(b.store.files, a.store.digest, b.artifacts[i]) && OwnFile(a.layout, b.artifacts[i].path)
         && b.artifacts[i].attemptId == a.store.attemptId
  }

  lemma RunStaysIn(l: Launch, t: seq<Run>)
    requires Careful(l) && Traced(l, t)
    ensures |t| > 0 && StaysIn(l.start.ev, t[|t| - 1].ctx.ev)
  {
    hide Careful, Traced, Stands, OwnFile, Outside, SameBytes;
    StartOfTrace(l, t);
    var n := |t| - 1;
    forall path: string | Outside(l.start.ev.layout, path)
      ensures SameBytes(l.start.ev.store.files, t[n].ctx.ev.store.files, path)
    {
      RunOutside(l, t, n, path);
    }
    forall i: nat | i < |t[n].ctx.ev.artifacts|
      ensures Stands(t[n].ctx.ev.store.files, l.start.ev.store.digest, t[n].ctx.ev.artifacts[i])
              && OwnFile(l.start.ev.layout, t[n].ctx.ev.artifacts[i].path)
              && t[n].ctx.ev.artifacts[i].attemptId == l.start.ev.store.attemptId
    {
      RunArtifactsStand(l, t, i);
    }
  }

  lemma StartOfTrace(l: Launch, t: seq<Run>)
    requires Traced(l, t)
    ensures |t| > 0 && t[0].ctx.ev == l.start.ev
  {
    hide Stepped;
  }
}
