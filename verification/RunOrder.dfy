/** In which order the stores list their runs: the memory by first insertion, the tables by the time at
    which a row was created. */
module RunOrder {
  import opened Records
  import opened Serialization
  import opened RunStore
  import opened RunStoreLaws

  ghost function Created(db: Database, id: string): int {
    if id in db.runs then db.runs[id].createdAt else 0
  }

  lemma SaveCreates(db: Database, r: RunRecord, now: int, id: string)
    requires Saved(db, r, now).Some?
    ensures var db' := Saved(db, r, now).value;
            && (id in db'.runs <==> id == r.runId || id in db.runs)
            && (id in db.runs ==> Created(db', id) == Created(db, id))
            && (id == r.runId && id !in db.runs ==> Created(db', id) == now)
  {
    hide Encode, EncodeManifest, FinalColumn, VerdictColumn, UpsertAll, AllReferenced, Without, RowsFor;
  }

  // ----------------------------------------------------------------- listings and their order

  ghost predicate Increasing(ids: seq<string>, f: string -> int) {
    forall i, j | 0 <= i < j < |ids| :: f(ids[i]) < f(ids[j])
  }

  ghost predicate SameMembers(a: seq<string>, b: seq<string>) {
    (forall i | 0 <= i < |a| :: a[i] in b) && (forall i | 0 <= i < |b| :: b[i] in a)
  }

  lemma InitIncreases(ids: seq<string>, f: string -> int)
    requires ids != [] && Increasing(ids, f)
    ensures Increasing(ids[..|ids| - 1], f)
  {
  }

  lemma LastOfBoth(a: seq<string>, b: seq<string>, f: string -> int)
    requires Increasing(a, f) && Increasing(b, f) && SameMembers(a, b) && a != [] && b != []
    ensures a[|a| - 1] == b[|b| - 1]
  {
    var x, y := a[|a| - 1], b[|b| - 1];
    assert x in a && y in b;
    SameLast(a, b, f, x, y);
  }

  lemma InitMembersAgree(a: seq<string>, b: seq<string>, f: string -> int)
    requires Increasing(a, f) && Increasing(b, f) && SameMembers(a, b) && a != [] && b != []
    ensures SameMembers(a[..|a| - 1], b[..|b| - 1])
  {
    LastOfBoth(a, b, f);
    hide Increasing;
    var a', b' := a[..|a| - 1], b[..|b| - 1];
    forall i | 0 <= i < |a'| ensures a'[i] in b' {
      InitMembers(a, f, a'[i]);
      InitMembers(b, f, a'[i]);
    }
    forall i | 0 <= i < |b'| ensures b'[i] in a' {
      InitMembers(a, f, b'[i]);
      InitMembers(b, f, b'[i]);
    }
  }

  lemma BothEmpty(a: seq<string>, b: seq<string>)
    requires SameMembers(a, b)
    ensures a == [] <==> b == []
  {
    if a != [] { assert a[0] in a; }
    if b != [] { assert b[0] in b; }
  }

  /** A set of ids with different times can be ordered in one way only. */
  lemma {:induction false} OneOrder(a: seq<string>, b: seq<string>, f: string -> int)
    requires Increasing(a, f) && Increasing(b, f) && SameMembers(a, b)
    ensures a == b
    decreases |a|
  {
    hide Increasing, SameMembers;
    BothEmpty(a, b);
    if a != [] {
      var a', b' := a[..|a| - 1], b[..|b| - 1];
      LastOfBoth(a, b, f);
      InitIncreases(a, f);
      InitIncreases(b, f);
      InitMembersAgree(a, b, f);
      OneOrder(a', b', f);
      assert a == a' + [a[|a| - 1]] && b == b' + [b[|b| - 1]];
    }
  }

  lemma SameLast(a: seq<string>, b: seq<string>, f: string -> int, x: string, y: string)
    requires a != [] && b != [] && x == a[|a| - 1] && y == b[|b| - 1] && x in b && f(x) == f(y)
    requires Increasing(b, f)
    ensures x == y
  {
    var i :| 0 <= i < |b| && b[i] == x;
    if i < |b| - 1 { assert f(b[i]) < f(b[|b| - 1]); }
  }

  lemma InitMembers(a: seq<string>, f: string -> int, id: string)
    requires a != [] && Increasing(a, f)
    ensures id in a[..|a| - 1] <==> id in a && id != a[|a| - 1]
  {
    var n := |a| - 1;
    if id in a[..n] {
      var i :| 0 <= i < n && a[i] == id;
      assert f(a[i]) < f(a[n]);
    }
    if id in a && id != a[n] {
      var i :| 0 <= i < |a| && a[i] == id;
      assert a[..n][i] == id;
    }
  }

  /** Two runs created at the same time can be listed either way round. */
  lemma TiesAreUnordered(db: Database, ids: seq<string>, i: nat)
    requires Listing(db, ids) && i + 1 < |ids| && db.runs[ids[i]].createdAt == db.runs[ids[i + 1]].createdAt
    ensures var swapped := ids[i := ids[i + 1]][i + 1 := ids[i]];
            swapped != ids && Listing(db, swapped)
  {
    var swapped := ids[i := ids[i + 1]][i + 1 := ids[i]];
    forall id: string ensures id in swapped <==> id in ids {
      SwapMembers(ids, i, id);
    }
    forall j, k | 0 <= j < k < |ids| ensures db.runs[ids[j]].createdAt <= db.runs[ids[k]].createdAt && ids[j] != ids[k] {
    }
  }

  lemma SwapMembers(ids: seq<string>, i: nat, id: string)
    requires i + 1 < |ids|
    ensures id in ids[i := ids[i + 1]][i + 1 := ids[i]] <==> id in ids
  {
    var swapped := ids[i := ids[i + 1]][i + 1 := ids[i]];
    if id in ids {
      var k :| 0 <= k < |ids| && ids[k] == id;
      assert swapped[if k == i then i + 1 else if k == i + 1 then i else k] == id;
    }
    if id in swapped {
      var k :| 0 <= k < |swapped| && swapped[k] == id;
      assert ids[if k == i then i + 1 else if k == i + 1 then i else k] == id;
    }
  }

  /** The creation times of a list of rows strictly increase along it. */
  ghost predicate Rising(db: Database, ids: seq<string>) {
    forall i, j | 0 <= i < j < |ids| :: Created(db, ids[i]) < Created(db, ids[j])
  }

  ghost predicate OnlyListing(db: Database, ids: seq<string>) {
    forall other: seq<string> :: Listing(db, other) ==> other == ids
  }

  /** Any listing of rows that can be listed at strictly increasing times rises too. */
  lemma ListingsRise(db: Database, ids: seq<string>, other: seq<string>)
    requires Listing(db, ids) && Rising(db, ids) && Listing(db, other)
    ensures Rising(db, other)
  {
    forall i, j | 0 <= i < j < |other| ensures Created(db, other[i]) < Created(db, other[j]) {
      assert other[i] in other && other[j] in other;
      assert other[i] in ids && other[j] in ids;
      var p :| 0 <= p < |ids| && ids[p] == other[i];
      var q :| 0 <= q < |ids| && ids[q] == other[j];
      assert p != q;
    }
  }

  lemma ListedLater(db: Database, ids: seq<string>, i: nat, j: nat)
    requires Listing(db, ids) && i <= j < |ids|
    ensures Created(db, ids[i]) <= Created(db, ids[j])
  {
    assert ids[i] in ids && ids[j] in ids;
  }

  /** Where times do not strictly increase along a listing, two neighbours tie. */
  lemma TieOf(db: Database, ids: seq<string>) returns (i: nat)
    requires Listing(db, ids) && !Rising(db, ids)
    ensures i + 1 < |ids| && Created(db, ids[i]) == Created(db, ids[i + 1])
  {
    hide Created;
    var p: nat, q: nat :| p < q < |ids| && Created(db, ids[p]) >= Created(db, ids[q]);
    ListedLater(db, ids, p, p + 1);
    ListedLater(db, ids, p + 1, q);
    i := p;
  }

  /** The rows can be listed in one way only exactly when no two of them were created at one time. */
  lemma ListingIsUnique(db: Database, ids: seq<string>)
    requires Listing(db, ids)
    ensures OnlyListing(db, ids) <==> Rising(db, ids)
  {
    if Rising(db, ids) {
      forall other: seq<string> | Listing(db, other) ensures other == ids {
        ListingsRise(db, ids, other);
        OneOrder(other, ids, (id: string) => Created(db, id));
      }
    } else {
      var i := TieOf(db, ids);
      assert ids[i] in ids && ids[i + 1] in ids;
      TiesAreUnordered(db, ids, i);
    }
  }

  // ------------------------------------------------------------------------- over histories

  /** When a run of the history was first saved. */
  function FirstAt(puts: seq<Put>, id: string): int {
    if puts == [] then 0
    else
      var init, last := puts[..|puts| - 1], puts[|puts| - 1];
      if id in MemoryAfter(init).runs then FirstAt(init, id) else last.at
  }

  /** A row's creation time is that of the run's first save, whatever is saved later and whenever. */
  lemma {:induction false} CreatedAtFirst(puts: seq<Put>, id: string)
    requires AllPutsMinted(puts)
    ensures DatabaseAfter(puts).Some? && (id in DatabaseAfter(puts).value.runs <==> id in MemoryAfter(puts).runs)
    ensures id in MemoryAfter(puts).runs ==> Created(DatabaseAfter(puts).value, id) == FirstAt(puts, id)
  {
    hide Saved, Minted, Created, Projects, BodiesOf, Encode, AttemptsHeld, MintedAttempts, MintedRows;
    HistoriesRefine(puts);
    assert Agrees(MemoryAfter(puts), DatabaseAfter(puts).value, id);
    if puts != [] {
      var init, last := puts[..|puts| - 1], puts[|puts| - 1];
      CreatedAtFirst(init, id);
      SaveCreates(DatabaseAfter(init).value, last.record, last.at, id);
    }
  }

  lemma {:induction false} OrderIsRuns(puts: seq<Put>)
    ensures Distinct(MemoryAfter(puts).order)
    ensures forall id: string :: id in MemoryAfter(puts).order <==> id in MemoryAfter(puts).runs
  {
    if puts != [] {
      OrderIsRuns(puts[..|puts| - 1]);
      var order := MemoryAfter(puts[..|puts| - 1]).order;
      forall i | 0 <= i < |order| ensures order[i] in MemoryAfter(puts[..|puts| - 1]).runs { assert order[i] in order; }
    }
  }

  /** The runs in order of first insertion were first saved at strictly increasing times. Nothing is
      asked of the times of later saves. */
  ghost predicate FirstsRise(puts: seq<Put>) {
    var order := MemoryAfter(puts).order;
    forall i, j | 0 <= i < j < |order| :: FirstAt(puts, order[i]) < FirstAt(puts, order[j])
  }

  ghost predicate FirstsNeverFall(puts: seq<Put>) {
    var order := MemoryAfter(puts).order;
    forall i, j | 0 <= i < j < |order| :: FirstAt(puts, order[i]) <= FirstAt(puts, order[j])
  }

  lemma TimesAreFirsts(puts: seq<Put>)
    requires AllPutsMinted(puts)
    ensures DatabaseAfter(puts).Some?
    ensures var m, db := MemoryAfter(puts), DatabaseAfter(puts).value;
            && (Rising(db, m.order) <==> FirstsRise(puts))
            && (Listing(db, m.order) <==> FirstsNeverFall(puts))
  {
    hide DatabaseAfter, MemoryAfter, AllPutsMinted, FirstAt;
    HistoriesRefine(puts);
    OrderIsRuns(puts);
    var m, db := MemoryAfter(puts), DatabaseAfter(puts).value;
    forall id: string
      ensures id in db.runs <==> id in m.runs
      ensures id in m.runs ==> Created(db, id) == FirstAt(puts, id)
    {
      CreatedAtFirst(puts, id);
    }
    forall i | 0 <= i < |m.order| ensures Created(db, m.order[i]) == FirstAt(puts, m.order[i]) && m.order[i] in db.runs {
      assert m.order[i] in m.order;
    }
  }

  /** The tables list a history's runs in the order in which the memory first saw them, and can list them
      in no other, exactly when the runs were first saved at strictly increasing times. */
  lemma ListsAgree(puts: seq<Put>)
    requires AllPutsMinted(puts)
    ensures DatabaseAfter(puts).Some?
    ensures (forall ids: seq<string> :: Listing(DatabaseAfter(puts).value, ids) <==> ids == MemoryAfter(puts).order)
            <==> FirstsRise(puts)
  {
    hide DatabaseAfter, MemoryAfter, AllPutsMinted, FirstAt, FirstsRise, Rising, Listing;
    TimesAreFirsts(puts);
    if FirstsRise(puts) { RisingNeverFalls(puts); }
    var order, db := MemoryAfter(puts).order, DatabaseAfter(puts).value;
    if Listing(db, order) { ListingIsUnique(db, order); }
    if forall ids: seq<string> :: Listing(db, ids) <==> ids == order { assert Listing(db, order) && OnlyListing(db, order); }
    if FirstsRise(puts) { assert OnlyListing(db, order); }
  }

  lemma RisingNeverFalls(puts: seq<Put>)
    requires FirstsRise(puts)
    ensures FirstsNeverFall(puts)
  {
    hide FirstAt, MemoryAfter;
  }

  // ------------------------------------------------------- clocks that do and do not suffice

  lemma {:induction false} FirstsAreEarlier(puts: seq<Put>, i: nat)
    requires Ticking(puts) && puts != [] && i < |MemoryAfter(puts).order|
    ensures FirstAt(puts, MemoryAfter(puts).order[i]) <= puts[|puts| - 1].at
  {
    var init, last := puts[..|puts| - 1], puts[|puts| - 1];
    var order := MemoryAfter(init).order;
    OrderIsRuns(init);
    if i < |order| {
      assert order[i] in order;
      if init != [] { FirstsAreEarlier(init, i); }
    }
  }

  /** Saves at ever later times are enough. */
  lemma {:induction false} TickingRises(puts: seq<Put>)
    requires Ticking(puts)
    ensures FirstsRise(puts)
  {
    if puts != [] {
      var init, last := puts[..|puts| - 1], puts[|puts| - 1];
      TickingRises(init);
      OrderIsRuns(init);
      var before, order := MemoryAfter(init).order, MemoryAfter(puts).order;
      forall i, j | 0 <= i < j < |order| ensures FirstAt(puts, order[i]) < FirstAt(puts, order[j]) {
        assert before[i] in before;
        if j < |before| {
          assert before[j] in before;
        } else if init != [] {
          FirstsAreEarlier(init, i);
        }
      }
    }
  }

  /** Two runs created one after the other, on a clock that stood still or stepped back. */
  function TwoRuns(first: string, second: string, m: Manifest, at: int, later: int): seq<Put> {
    [Put(NewRecord(first, m), at), Put(NewRecord(second, m), later)]
  }

  lemma TwoRunsAfter(first: string, second: string, m: Manifest, at: int, later: int)
    requires first != second
    ensures var puts := TwoRuns(first, second, m, at, later);
            && AllPutsMinted(puts) && MemoryAfter(puts).order == [first, second]
            && MemoryAfter(puts).runs.Keys == {first, second}
            && FirstAt(puts, first) == at && FirstAt(puts, second) == later
  {
    var puts := TwoRuns(first, second, m, at, later);
    var one := [Put(NewRecord(first, m), at)];
    assert puts[..1] == one && one[..0] == [];
    assert MemoryAfter(one) == Memory([first], map[first := NewRecord(first, m)]) by {
      assert MemoryAfter([]) == Memory([], map[]);
    }
  }

  /** The tables then list the second run before the first, as the only way if the clock stepped back,
      and either way round if it stood still; the memory lists the first one first. */
  lemma TwoRunsMisordered(first: string, second: string, m: Manifest, at: int, later: int)
    requires first != second && later <= at
    ensures var puts := TwoRuns(first, second, m, at, later);
            && DatabaseAfter(puts).Some? && MemoryAfter(puts).order == [first, second]
            && Listing(DatabaseAfter(puts).value, [second, first])
            && (Listing(DatabaseAfter(puts).value, [first, second]) <==> later == at)
  {
    hide DatabaseAfter, AllPutsMinted, Minted, FirstAt, TwoRuns;
    var puts := TwoRuns(first, second, m, at, later);
    TwoRunsAfter(first, second, m, at, later);
    CreatedAtFirst(puts, first);
    CreatedAtFirst(puts, second);
    forall id: string ensures id in DatabaseAfter(puts).value.runs <==> id == first || id == second {
      CreatedAtFirst(puts, id);
      assert id in MemoryAfter(puts).runs <==> id in MemoryAfter(puts).runs.Keys;
    }
  }
}
