/** The local artifact store: hashed files under root/run[/attempt]/name. */
module ArtifactStore {
  import opened Core
  import opened Text

  /** SHA-256, of which only one thing is used: a digest is never empty. */
  type Digest = f: string -> string | NeverEmpty(f) witness (s: string) => "0"

  ghost predicate NeverEmpty(f: string -> string) {
    forall s: string :: f(s) != ""
  }

  /** A store and the files below its root. `files` maps a rendered path to the bytes there. */
  datatype Store = Store(root: Path, attemptId: Option<string>, digest: Digest, files: map<string, string>)

  predicate Scoped(attemptId: Option<string>) { attemptId.Some? && attemptId.value != "" }

  /** The directory of a run's attempt, as it is put together. */
  function WrittenDir(root: Path, runId: string, attemptId: Option<string>): Path {
    var base := Join(root, runId);
    if Scoped(attemptId) then Join(base, attemptId.value) else base
  }

  /** The directory that this is: the file system resolves parents. */
  function RunDir(root: Path, runId: string, attemptId: Option<string>): Path {
    Settled(WrittenDir(root, runId, attemptId))
  }

  function FileOf(s: Store, runId: string, name: string): string {
    Render(Join(RunDir(s.root, runId, s.attemptId), name))
  }

  /** Overwrite or create the file at a path, and return its metadata record. */
  function WriteAt(s: Store, runId: string, taskId: string, name: string, path: string, data: string,
                   artifactType: ArtifactType, recordedBy: string): (Store, Artifact)
  {
    (s.(files := s.files[path := data]),
     Artifact(name, runId, taskId, artifactType, path, s.digest(data), s.attemptId, recordedBy))
  }

  function Write(s: Store, runId: string, taskId: string, name: string, data: string,
                 artifactType: ArtifactType, recordedBy: string): (Store, Artifact)
  {
    WriteAt(s, runId, taskId, name, FileOf(s, runId, name), data, artifactType, recordedBy)
  }

  /** A file name as every handler uses them: one plain segment. */
  predicate FileName(name: string) { Plain(name) && Kept(name) }

  lemma JoinFileName(dir: Path, name: string)
    requires FileName(name)
    ensures Join(dir, name) == Path(dir.absolute, dir.parts + [name])
  {
    PartsOfSegment(name);
  }

  lemma FileBasename(s: Store, runId: string, name: string)
    requires WellFormed(s.root) && FileName(name)
    ensures Basename(FileOf(s, runId, name)) == name
    ensures FileOf(s, runId, name) != ""
  {
    var dir := RunDir(s.root, runId, s.attemptId);
    JoinFileName(dir, name);
    RenderedBasename(dir, name);
  }

  /** Where two files coincide, their directories and their names do. */
  lemma SameFile(d1: Path, n1: string, d2: Path, n2: string)
    requires WellFormed(d1) && WellFormed(d2) && FileName(n1) && FileName(n2)
    requires Render(Join(d1, n1)) == Render(Join(d2, n2))
    ensures d1 == d2 && n1 == n2
  {
    JoinFileName(d1, n1);
    JoinFileName(d2, n2);
    ParseRendered(Join(d1, n1));
    ParseRendered(Join(d2, n2));
    assert (d1.parts + [n1])[..|d1.parts|] == d1.parts;
    assert (d2.parts + [n2])[..|d2.parts|] == d2.parts;
  }

  // ------------------------------------------------------------ attempt isolation

  lemma AttemptParts(runId: string, n: nat)
    ensures Parts(AttemptId(runId, n)) == Lead(runId) + [AttemptId(LastSegment(runId), n)]
    ensures Parts(runId) == Lead(runId) + Keep(LastSegment(runId))
    ensures Anchored(AttemptId(runId, n)) == Anchored(runId)
  {
    var digits := Decimal(n);
    var suffix := "-a" + digits;
    assert Slashless(digits) by { assert AllDigits(digits); }
    assert runId + "-a" + digits == runId + suffix;
    assert LastSegment(runId) + "-a" + digits == LastSegment(runId) + suffix;
    PartsOfSuffixed(runId, suffix);
  }

  function AttemptDir(root: Path, runId: string, n: nat): Path {
    RunDir(root, runId, Some(AttemptId(runId, n)))
  }

  lemma NestedDir(root: Path, runId: string, attempt: string, lead: seq<string>, keep: seq<string>, last: string)
    requires attempt != "" && Anchored(attempt) == Anchored(runId)
    requires Parts(runId) == lead + keep && Parts(attempt) == lead + [last]
    ensures WrittenDir(root, runId, Some(attempt)) ==
            if Anchored(runId) then Path(true, lead + [last])
            else Path(root.absolute, (root.parts + (lead + keep + lead)) + [last])
  {
    hide Parts, Anchored;
    assert root.parts + (lead + keep) + (lead + [last]) == (root.parts + (lead + keep + lead)) + [last];
  }

  /** What comes before the last part of an attempt's directory, as it is put together. */
  function WrittenBase(root: Path, runId: string): Path {
    if Anchored(runId) then Path(true, Lead(runId))
    else Path(root.absolute, root.parts + (Lead(runId) + Keep(LastSegment(runId)) + Lead(runId)))
  }

  /** What comes before it on disk. */
  function AttemptBase(root: Path, runId: string): Path {
    Settled(WrittenBase(root, runId))
  }

  lemma WrittenDirParts(root: Path, runId: string, n: nat)
    ensures WrittenDir(root, runId, Some(AttemptId(runId, n)))
            == Path(WrittenBase(root, runId).absolute,
                    WrittenBase(root, runId).parts + [AttemptId(LastSegment(runId), n)])
  {
    AttemptParts(runId, n);
    NestedDir(root, runId, AttemptId(runId, n), Lead(runId), Keep(LastSegment(runId)),
              AttemptId(LastSegment(runId), n));
  }

  lemma AttemptIsNoParent(id: string, n: nat)
    ensures AttemptId(id, n) != ".."
  {
    var digits := Decimal(n);
    assert AllDigits(digits) && |digits| > 0;
    assert AttemptId(id, n)[|AttemptId(id, n)| - 1] == digits[|digits| - 1];
  }

  /** The directory of an attempt, spelled out. */
  lemma AttemptDirParts(root: Path, runId: string, n: nat)
    ensures AttemptDir(root, runId, n)
            == Path(AttemptBase(root, runId).absolute,
                    AttemptBase(root, runId).parts + [AttemptId(LastSegment(runId), n)])
  {
    hide AttemptId, WrittenBase, WrittenDir, Resolved;
    WrittenDirParts(root, runId, n);
    AttemptIsNoParent(LastSegment(runId), n);
    ResolvedNext(WrittenBase(root, runId).absolute, WrittenBase(root, runId).parts, AttemptId(LastSegment(runId), n));
  }

  /** Attempts of one run have a directory each, whatever the run id looks like. */
  lemma AttemptsOfOneRunAreApart(root: Path, runId: string, m: nat, n: nat)
    ensures AttemptDir(root, runId, m) == AttemptDir(root, runId, n) <==> m == n
  {
    AttemptDirParts(root, runId, m);
    AttemptDirParts(root, runId, n);
    if AttemptDir(root, runId, m) == AttemptDir(root, runId, n) {
      LastPart(AttemptBase(root, runId).parts, AttemptId(LastSegment(runId), m),
               AttemptBase(root, runId).parts, AttemptId(LastSegment(runId), n));
      AttemptIdInjective(LastSegment(runId), m, LastSegment(runId), n);
    }
  }

  /** Two run ids that differ at most in redundant slashes and "." segments. */
  predicate SameSpelling(r1: string, r2: string) {
    LastSegment(r1) == LastSegment(r2) && Lead(r1) == Lead(r2)
  }

  lemma SplitMiddle(root: seq<string>, lead1: seq<string>, lead2: seq<string>, keep: seq<string>)
    requires root + (lead1 + keep + lead1) == root + (lead2 + keep + lead2)
    ensures lead1 == lead2
  {
    var a, b := root + (lead1 + keep + lead1), root + (lead2 + keep + lead2);
    assert |lead1| == |lead2|;
    assert a[|root|..|root| + |lead1|] == lead1;
    assert b[|root|..|root| + |lead2|] == lead2;
  }

  lemma LastPart(init1: seq<string>, x: string, init2: seq<string>, y: string)
    requires init1 + [x] == init2 + [y]
    ensures init1 == init2 && x == y
  {
    var a, b := init1 + [x], init2 + [y];
    assert a[|a| - 1] == x && b[|b| - 1] == y;
    assert a[..|a| - 1] == init1 && b[..|b| - 1] == init2;
  }

  /** Two run ids whose attempts are kept in the same place under a root. */
  predicate SamePlace(root: Path, r1: string, r2: string) {
    LastSegment(r1) == LastSegment(r2) && AttemptBase(root, r1) == AttemptBase(root, r2)
  }

  /** Across runs: attempts of any two runs, whatever their ids, share a directory exactly when the
      numbers agree and the ids name the same place. */
  lemma AttemptDirsCoincide(root: Path, r1: string, n1: nat, r2: string, n2: nat)
    ensures AttemptDir(root, r1, n1) == AttemptDir(root, r2, n2) <==> n1 == n2 && SamePlace(root, r1, r2)
  {
    hide AttemptId, LastSegment, AttemptBase, AttemptDir;
    AttemptDirParts(root, r1, n1);
    AttemptDirParts(root, r2, n2);
    if AttemptDir(root, r1, n1) == AttemptDir(root, r2, n2) {
      var l1, l2 := LastSegment(r1), LastSegment(r2);
      LastPart(AttemptBase(root, r1).parts, AttemptId(l1, n1), AttemptBase(root, r2).parts, AttemptId(l2, n2));
      AttemptIdInjective(l1, n1, l2, n2);
    }
  }

  /** No segment of the run id is a parent. */
  predicate NamesNoParent(runId: string) {
    Parentless(Lead(runId)) && LastSegment(runId) != ".."
  }

  /** For two relative ids without parents in them, and for two such absolute ones, the same place is the
      same spelling: the ids differ at most in redundant slashes and "." segments. */
  lemma SamePlaceIsSpelling(root: Path, r1: string, r2: string)
    requires Anchored(r1) == Anchored(r2) && NamesNoParent(r1) && NamesNoParent(r2)
    ensures SamePlace(root, r1, r2) <==> SameSpelling(r1, r2)
  {
    BaseOfParentless(root, r1);
    BaseOfParentless(root, r2);
    hide LastSegment, Lead, Anchored, Keep, Resolved, WrittenBase, AttemptBase;
    if SamePlace(root, r1, r2) && !Anchored(r1) {
      SplitMiddle(Resolved(root.absolute, root.parts), Lead(r1), Lead(r2), Keep(LastSegment(r1)));
    }
  }

  lemma BaseOfParentless(root: Path, runId: string)
    requires NamesNoParent(runId)
    ensures AttemptBase(root, runId) ==
            if Anchored(runId) then Path(true, Lead(runId))
            else Path(root.absolute, Resolved(root.absolute, root.parts) + (Lead(runId) + Keep(LastSegment(runId)) + Lead(runId)))
  {
    hide LastSegment, Lead, Anchored, Resolved;
    var below := Lead(runId) + Keep(LastSegment(runId)) + Lead(runId);
    if Anchored(runId) {
      ResolvedParentless(true, [], Lead(runId));
      assert [] + Lead(runId) == Lead(runId);
      NothingResolved(true);
    } else {
      ResolvedParentless(root.absolute, root.parts, below);
    }
  }

  lemma NothingResolved(absolute: bool)
    ensures Resolved(absolute, []) == []
  {
  }

  lemma ResolvedDetour(absolute: bool, root: seq<string>, x: string, keep: seq<string>)
    requires x != ".."
    ensures Resolved(absolute, root + ([x, ".."] + keep + [x, ".."])) == Resolved(absolute, root + keep)
  {
    hide Resolved;
    var once := (root + [x, ".."]) + keep;
    ResolvedPair(absolute, root, x);
    ResolvedPrefix(absolute, root + [x, ".."], root, keep);
    ResolvedPair(absolute, once, x);
    assert root + ([x, ".."] + keep + [x, ".."]) == once + [x, ".."];
  }

  /** An id below a segment that its parent takes back names the place that it names alone. */
  lemma ParentNamesSamePlace(root: Path, x: string, runId: string, detour: string)
    requires Slashless(x) && Kept(x) && x != ".." && Slashless(runId) && detour == x + "/" + ".." + "/" + runId
    ensures SamePlace(root, runId, detour)
  {
    DetourParts(x, runId, detour);
    hide Lead, LastSegment, Keep, Resolved, Anchored, Slashless, Kept;
    ResolvedDetour(root.absolute, root.parts, x, Keep(runId));
    assert [] + Keep(runId) + [] == Keep(runId);
  }

  lemma DetourParts(x: string, runId: string, detour: string)
    requires Slashless(x) && Kept(x) && Slashless(runId) && detour == x + "/" + ".." + "/" + runId
    ensures LastSegment(detour) == runId && Lead(detour) == [x, ".."] && !Anchored(detour)
    ensures Lead(runId) == [] && LastSegment(runId) == runId && !Anchored(runId)
  {
    var dir := x + "/" + "..";
    PartsOfSegment(x);
    PartsOfLast(dir, x, "..");
    PartsOfLast(detour, dir, runId);
    PartsOfSegment(runId);
    assert detour[0] == x[0];
    assert Keep(x) + Keep("..") == [x, ".."];
  }

  lemma DotSpelling(runId: string, dotted: string)
    requires Slashless(runId) && dotted == "." + "/" + runId
    ensures SameSpelling(runId, dotted) && !Anchored(runId) && !Anchored(dotted)
  {
    PartsOfSegment(runId);
    PartsOfLast(dotted, ".", runId);
    DotHasNoParts();
    assert dotted[0] == '.';
  }

  /** Ids of one spelling always name the same place. */
  lemma SameSpellingSamePlace(root: Path, r1: string, r2: string)
    requires SameSpelling(r1, r2) && Anchored(r1) == Anchored(r2)
    ensures SamePlace(root, r1, r2)
  {
  }

  lemma DotHasNoParts()
    ensures Parts(".") == []
  {
    PartsOfSegment(".");
  }

  /** So every plain run id has another run id, itself with "./" in front, whose attempts write
      to the same files. */
  lemma DottedRunCollides(root: Path, runId: string, dotted: string, n: nat)
    requires Slashless(runId) && dotted == "." + "/" + runId
    ensures runId != dotted && AttemptDir(root, runId, n) == AttemptDir(root, dotted, n)
  {
    assert |runId| < |dotted|;
    DotSpelling(runId, dotted);
    SameSpellingSamePlace(root, runId, dotted);
    AttemptDirsCoincide(root, runId, n, dotted, n);
  }

  function AttemptFile(root: Path, runId: string, n: nat, name: string): string {
    Render(Join(AttemptDir(root, runId, n), name))
  }

  /** Files of two attempts coincide exactly when their names, their numbers and the places of their
      runs do. */
  lemma AttemptFilesCoincide(root: Path, r1: string, n1: nat, f1: string, r2: string, n2: nat, f2: string)
    requires WellFormed(root) && FileName(f1) && FileName(f2)
    ensures AttemptFile(root, r1, n1, f1) == AttemptFile(root, r2, n2, f2) <==> SamePlace(root, r1, r2) && n1 == n2 && f1 == f2
  {
    hide AttemptDir, SamePlace, FileName, Render, Join, WellFormed;
    AttemptDirsCoincide(root, r1, n1, r2, n2);
    AttemptDirIsWellFormed(root, r1, n1);
    AttemptDirIsWellFormed(root, r2, n2);
    if AttemptFile(root, r1, n1, f1) == AttemptFile(root, r2, n2, f2) {
      SameFile(AttemptDir(root, r1, n1), f1, AttemptDir(root, r2, n2), f2);
    }
  }

  lemma AttemptDirIsWellFormed(root: Path, runId: string, n: nat)
    requires WellFormed(root)
    ensures WellFormed(AttemptDir(root, runId, n))
  {
    hide AttemptId, WellFormed;
  }

  /** Run ids without a slash name places of their own, parents and dots among them included. */
  lemma PlainRunsAreApart(root: Path, r1: string, r2: string)
    requires Slashless(r1) && Slashless(r2)
    ensures SamePlace(root, r1, r2) <==> r1 == r2
  {
    PartsOfSegment(r1);
    PartsOfSegment(r2);
  }

  lemma AttemptFilesApart(root: Path, runId: string, m: nat, f: string, n: nat, g: string)
    requires WellFormed(root) && m != n && FileName(f) && FileName(g)
    ensures AttemptFile(root, runId, m, f) != AttemptFile(root, runId, n, g)
  {
    AttemptsOfOneRunAreApart(root, runId, m, n);
    if AttemptFile(root, runId, m, f) == AttemptFile(root, runId, n, g) {
      SameFile(AttemptDir(root, runId, m), f, AttemptDir(root, runId, n), g);
    }
  }

  /** What one attempt of a run writes leaves every file of its other attempts as it was. */
  lemma OtherAttemptsUntouched(s: Store, runId: string, taskId: string, m: nat, n: nat, name: string,
                               data: string, t: ArtifactType, author: string, file: string)
    requires WellFormed(s.root) && m != n && FileName(name) && FileName(file)
    requires s.attemptId == Some(AttemptId(runId, m))
    requires AttemptFile(s.root, runId, n, file) in s.files
    ensures var s' := Write(s, runId, taskId, name, data, t, author).0;
            var other := AttemptFile(s.root, runId, n, file);
            other in s'.files && s'.files[other] == s.files[other]
  {
    AttemptFilesApart(s.root, runId, m, name, n, file);
    assert FileOf(s, runId, name) == AttemptFile(s.root, runId, m, name);
  }

  /** The store object: only the files below the root change. */
  class LocalArtifactStore {
    const root: Path
    const attemptId: Option<string>
    const digest: Digest
    var files: map<string, string>

    ghost function View(): Store
      reads this
    {
      Store(root, attemptId, digest, files)
    }

    constructor (root: Path, attemptId: Option<string>, digest: Digest, files: map<string, string>)
      ensures View() == Store(root, attemptId, digest, files)
    {
      this.root, this.attemptId, this.digest, this.files := root, attemptId, digest, files;
    }

    method Put(runId: string, taskId: string, name: string, data: string,
               artifactType: ArtifactType, recordedBy: string) returns (a: Artifact)
      modifies this
      ensures (View(), a) == Write(old(View()), runId, taskId, name, data, artifactType, recordedBy)
    {
      var base := Join(root, runId);
      var dir := Settled(if Scoped(attemptId) then Join(base, attemptId.value) else base);
      var path := Render(Join(dir, name));
      files := files[path := data];
      a := Artifact(name, runId, taskId, artifactType, path, digest(data), attemptId, recordedBy);
    }
  }
}
