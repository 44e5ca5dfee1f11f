/** The writer of evidence ledgers: it numbers entries, appends them, and closes the ledger. */
module EvidenceWriter {
  import opened Core
  import opened Text
  import opened Gates

  /** An id for every counter value, all different. The proofs need no more than this. */
  ghost predicate GoodNumbering(f: nat -> string) {
    && (forall n: nat :: f(n) != "")
    && (forall m: nat, n: nat {:trigger f(m), f(n)} :: f(m) == f(n) ==> m == n)
  }

  /** The ids writers use: E0001, E0002, ... E9999, E10000, ... */
  function EntryIds(): (f: nat -> string)
    ensures GoodNumbering(f)
    ensures forall n: nat :: f(n) == EntryId(n)
  {
    var f := (n: nat) => EntryId(n);
    assert GoodNumbering(f) by {
      forall m: nat, n: nat | f(m) == f(n) ensures m == n { EntryIdInjective(m, n); }
    }
    f
  }

  type Numbering = nat -> string

  /** A writer's state: the ledger, the number of entries it has issued, and its ids. */
  datatype Writer = Writer(ledger: Ledger, counter: nat, ids: Numbering)

  /** What a caller hands to `append`: an entry without its id. */
  datatype Draft = Draft(
    artifactType: ArtifactType, artifactPath: string, hash: string,
    command: string, result: LedgerResult, recordedBy: string)

  datatype AppendError = HashRequired

  function NewWriter(taskId: string, runId: string): Writer {
    Writer(Ledger(taskId, runId, [], Pending, false), 0, EntryIds())
  }

  function EntryOf(d: Draft, id: string): LedgerEntry {
    LedgerEntry(id, d.artifactType, d.artifactPath, d.command, d.result, d.hash, d.recordedBy)
  }

  /** An unhashed entry is refused and leaves the ledger as it was. */
  function Append(w: Writer, d: Draft): Writer {
    if d.hash == "" then w
    else
      var entry := EntryOf(d, w.ids(w.counter + 1));
      w.(ledger := w.ledger.(entries := w.ledger.entries + [entry]), counter := w.counter + 1)
  }

  function AppendAll(w: Writer, drafts: seq<Draft>): Writer {
    if drafts == [] then w
    else Append(AppendAll(w, drafts[..|drafts| - 1]), drafts[|drafts| - 1])
  }

  function Finalize(w: Writer, status: Decision): Writer {
    w.(ledger := w.ledger.(finalStatus := status))
  }

  /** The shape every writer keeps: the i-th entry carries the i-th id, and every entry a hash. */
  ghost predicate Built(w: Writer) {
    && GoodNumbering(w.ids)
    && w.counter == |w.ledger.entries|
    && forall i | 0 <= i < w.counter ::
         w.ledger.entries[i].entryId == w.ids(i + 1) && w.ledger.entries[i].hash != ""
  }

  /** Over any run of appends: ids count up without gaps, earlier ledgers are prefixes of later
      ones, nothing but the entries changes, and exactly the hashed drafts are recorded. */
  lemma {:induction false} LedgerGrows(w: Writer, drafts: seq<Draft>)
    requires Built(w)
    ensures var w' := AppendAll(w, drafts);
            && Built(w')
            && w.ledger.entries <= w'.ledger.entries
            && w'.ids == w.ids
            && w'.ledger == w.ledger.(entries := w'.ledger.entries)
            && |w'.ledger.entries| <= |w.ledger.entries| + |drafts|
            && ((forall i | 0 <= i < |drafts| :: drafts[i].hash != "") ==>
                  |w'.ledger.entries| == |w.ledger.entries| + |drafts|)
  {
    if drafts != [] {
      var init := drafts[..|drafts| - 1];
      LedgerGrows(w, init);
    }
  }

  lemma BuiltHasDistinctIds(w: Writer)
    requires Built(w)
    ensures DistinctIds(w.ledger.entries)
  {
    var es := w.ledger.entries;
    forall i, j | 0 <= i < j < |es| && es[j].entryId != "" ensures es[i].entryId != es[j].entryId {
      assert w.ids(i + 1) != w.ids(j + 1);
    }
  }

  predicate SoundDraft(d: Draft) {
    d.hash != "" ==> !Quarantined(d.artifactPath) && (d.command != "" ==> d.artifactPath != "")
  }

  ghost predicate SoundDrafts(drafts: seq<Draft>) {
    forall i | 0 <= i < |drafts| :: SoundDraft(drafts[i])
  }

  lemma PresentGrows(entries: seq<LedgerEntry>, more: seq<LedgerEntry>, required: seq<ArtifactType>)
    requires entries <= more && AllPresent(entries, required)
    ensures AllPresent(more, required)
  {
    forall i | 0 <= i < |required| ensures Present(more, required[i]) {
      assert Present(entries, required[i]);
      var e :| e in entries && e.artifactType == required[i];
      assert e in more;
    }
  }

  lemma AppendIsSound(w: Writer, d: Draft)
    ensures AllSound(Append(w, d).ledger.entries) <==> AllSound(w.ledger.entries) && SoundDraft(d)
  {
    hide AllSound, Quarantined;
    if d.hash != "" { AllSoundGrows(w.ledger.entries, EntryOf(d, w.ids(w.counter + 1))); }
  }

  lemma NoDrafts()
    ensures SoundDrafts([])
  {
  }

  lemma {:induction false} AllSoundAfter(w: Writer, drafts: seq<Draft>)
    requires AllSound(w.ledger.entries)
    ensures AllSound(AppendAll(w, drafts).ledger.entries) <==> SoundDrafts(drafts)
  {
    hide AllSound, SoundEntry, SoundDraft, SoundDrafts, Append;
    if drafts == [] {
      NoDrafts();
    } else {
      var init, last := drafts[..|drafts| - 1], drafts[|drafts| - 1];
      AllSoundAfter(w, init);
      var v := AppendAll(w, init);
      assert drafts == init + [last];
      AppendIsSound(v, last);
      SoundDraftsGrow(init, last);
    }
  }

  lemma SoundDraftsGrow(init: seq<Draft>, last: Draft)
    ensures SoundDrafts(init + [last]) <==> SoundDrafts(init) && SoundDraft(last)
  {
    var all := init + [last];
    assert all[|init|] == last;
    assert forall i | 0 <= i < |init| :: all[i] == init[i];
  }

  /** Once a written ledger supports a PASS it goes on supporting it exactly as long as nothing
      unsound is appended: no later entry can clash with an earlier id or unlink the ledger. */
  lemma SupportSurvives(w: Writer, drafts: seq<Draft>, runId: string, taskId: string, required: seq<ArtifactType>)
    requires Built(w) && Supports(w.ledger, runId, taskId, required)
    ensures Supports(AppendAll(w, drafts).ledger, runId, taskId, required) <==> SoundDrafts(drafts)
  {
    LedgerGrows(w, drafts);
    BuiltHasDistinctIds(AppendAll(w, drafts));
    AllSoundAfter(w, drafts);
    PresentGrows(w.ledger.entries, AppendAll(w, drafts).ledger.entries, required);
  }

  /** The writer object. */
  class EvidenceLedgerWriter {
    var ledger: Ledger
    var counter: nat
    const ids: Numbering

    ghost function View(): Writer
      reads this
    {
      Writer(ledger, counter, ids)
    }

    constructor (taskId: string, runId: string)
      ensures View() == NewWriter(taskId, runId) && Built(View())
    {
      ledger := Ledger(taskId, runId, [], Pending, false);
      counter := 0;
      ids := EntryIds();
    }

    /** Append a hashed entry and return it, or refuse an unhashed one. */
    method Record(d: Draft) returns (r: Result<LedgerEntry, AppendError>)
      modifies this
      ensures View() == Append(old(View()), d)
      ensures old(Built(View())) ==> Built(View())
      ensures r == if d.hash == "" then Err(HashRequired) else Ok(EntryOf(d, ids(old(counter) + 1)))
    {
      if d.hash == "" {
        return Err(HashRequired);
      }
      counter := counter + 1;
      var entry := EntryOf(d, ids(counter));
      ledger := ledger.(entries := ledger.entries + [entry]);
      r := Ok(entry);
    }

    method Close(status: Decision)
      modifies this
      ensures View() == Finalize(old(View()), status)
    {
      ledger := ledger.(finalStatus := status);
    }
  }
}
