/** Runs of the registered chains with the registered handlers, and the evidence they leave. */
module ChainRuns {
  import opened Core
  import opened Text
  import opened EvidenceWriter
  import opened ArtifactStore
  import opened Names
  import opened Evidence
  import opened Context
  import opened Executor
  import opened ExecutorLaws
  import opened Registry
  import opened Handlers
  import opened HandlerLaws

  /** What each handler does to a context, and how it leaves the repository. */
  type Effects = (HandlerName, Ctx) -> Effect

  type Trees = HandlerName -> Option<Snapshot>

  /** A run about to start: how it is set up, what its handlers do, and the context they start
      from. */
  datatype Launch = Launch(setup: Setup, effects: Effects, trees: Trees, start: Ctx)

  function Chain(l: Launch): seq<HandlerName> {
    l.setup.chain
  }

  /** The run after n handlers. */
  function At(l: Launch, n: nat): Run {
    Steps(l.setup, l.start, n)
  }

  function End(l: Launch): Run {
    Whole(l.setup, l.start)
  }

  /** How many handlers were processed. */
  function Span(l: Launch): nat {
    Length(l.setup, l.start)
  }

  /** A registry whose handlers have these effects. */
  ghost predicate Registered(registry: HandlerRegistry, effects: Effects, trees: Trees) {
    forall n: HandlerName | n != WorkspacePolicy ::
      && registry(n).Some?
      && registry(n).value.handlerType == TypeOf(n)
      && (forall q: Request :: registry(n).value.canHandle(q))
      && (forall c: Ctx :: registry(n).value.handle(c) == (Applied(c, effects(n, c), trees(n)), effects(n, c).result))
  }

  /** Effects that only touch files of their own slot, and none of them again. */
  ghost predicate TidyEffects(effects: Effects) {
    forall h: HandlerName, c: Ctx, names: seq<Name> {:trigger Tidy(effects(h, c).ops, Slot(h), names)} ::
      Foreign(names, Slot(h)) ==> Tidy(effects(h, c).ops, Slot(h), names)
  }

  /** Saving writes one checkpoint file. */
  ghost predicate Checkpoints(save: Saver) {
    forall c: Ctx, i: nat, n: HandlerName, r: HandlerResult :: SavedAs(c, i, n, save(c, i, n, r))
  }

  ghost predicate SavedAs(c: Ctx, i: nat, n: HandlerName, d: Ctx) {
    exists data: string :: d == c.(ev := Perform(c.ev, CheckpointOp(i, n, data)))
  }

  /** A context in which no handler has worked. */
  ghost predicate Unworked(c: Ctx) {
    && c.work == EmptyWork(c.work.manifest)
    && c.verifierDecision == Pending
    && c.repoSnapshot == Snapshot0(c.repo)
    && c.ev.runId == c.request.runId && c.ev.taskId == c.request.taskId
    && c.ev.writer.ledger.finalStatus == Pending
  }

  /** A context no handler has touched, its evidence included. */
  ghost predicate Untouched(c: Ctx) {
    Sound(c.ev, []) && Unworked(c)
  }

  /** The invariant of a run's evidence. */
  ghost predicate Sound(ev: Evidence, names: seq<Name>) {
    Grown(ev, names) && Agreement(ev)
  }

  ghost predicate Launchable(l: Launch) {
    && Registered(l.setup.registry, l.effects, l.trees)
    && TidyEffects(l.effects)
    && Checkpoints(l.setup.save)
    && DistinctSlots(Chain(l))
    && (forall i | 0 <= i < |Chain(l)| :: Chain(l)[i] != WorkspacePolicy)
    && Untouched(l.start)
  }

  // ------------------------------------------------------------------- one handler

  /** The effect of a handler and its result after enforcement. */
  function EffectAt(l: Launch, before: Run, name: HandlerName): Effect {
    l.effects(name, before.ctx)
  }

  function ResultIn(l: Launch, before: Run, name: HandlerName): HandlerResult {
    Enforce(TypeOf(name), Applied(before.ctx, EffectAt(l, before, name), l.trees(name)),
            EffectAt(l, before, name).result)
  }

  /** What a step does, spelled out. */
  ghost predicate Stepped(l: Launch, before: Run, after: Run, i: nat, name: HandlerName) {
    var e, r := EffectAt(l, before, name), ResultIn(l, before, name);
    && (exists data: string ::
          after.ctx.ev == Perform(Closed(PerformAll(before.ctx.ev, e.ops), e.finalStatus), CheckpointOp(i, name, data)))
    && after.ctx.work == e.work
    && after.ctx.request == RequestAfter(before.ctx.request, e)
    && after.ctx.repo == l.trees(name)
    && after.ctx.repoSnapshot == before.ctx.repoSnapshot
    && after.ctx.verifierDecision == Decided(TypeOf(name), r, before.ctx.verifierDecision)
    && after.prStatus == r.prStatus.GetOr(before.prStatus)
    && after.results == before.results + [r]
    && after.stopped == Failing(r) && after.halted == Cutting(r)
    && after.status == StatusOf(r, before.status)
  }

  lemma OneStep(l: Launch, before: Run, i: nat, name: HandlerName)
    requires name != WorkspacePolicy && Registered(l.setup.registry, l.effects, l.trees) && Checkpoints(l.setup.save)
    ensures Stepped(l, before, Step(before, l.setup, i, name), i, name)
  {
    hide PerformAll, Perform, Closed, CheckpointOp, TypeOf, CanModifyRepo, CanDecidePass, RequestAfter;
    var h := l.setup.registry(name).value;
    var e, r := EffectAt(l, before, name), ResultIn(l, before, name);
    var d := Applied(before.ctx, e, l.trees(name));
    assert h.canHandle(before.ctx.request) && h.handle(before.ctx) == (d, e.result);
    assert Outcome(h, name, before.ctx) == (d, r);
    var decided := d.(verifierDecision := Decided(TypeOf(name), r, d.verifierDecision));
    assert SavedAs(decided, i, name, l.setup.save(decided, i, name, r));
  }

  lemma StepOfRun(l: Launch, i: nat)
    requires Launchable(l) && i < Span(l)
    ensures i < |Chain(l)| && Chain(l)[i] != WorkspacePolicy
    ensures Stepped(l, At(l, i), At(l, i + 1), i, Chain(l)[i])
    ensures |At(l, i).results| == i && !At(l, i).halted
  {
    StepAt(l.setup, l.start, i);
    OneStep(l, At(l, i), i, Chain(l)[i]);
  }

  /** A run as the sequence of its states, one handler after the other: no result but the last
      cuts it, and it is shorter than its chain only when the last one does. */
  ghost predicate Traced(l: Launch, t: seq<Run>) {
    && 0 < |t| <= |Chain(l)| + 1
    && t[0] == Start(l.start)
    && (forall i: nat | i < |t| - 1 :: TracedAt(l, t, i))
    && (|t| <= |Chain(l)| ==> t[|t| - 1].halted)
  }

  ghost predicate TracedAt(l: Launch, t: seq<Run>, i: nat) {
    && i + 1 < |t| && i < |Chain(l)|
    && Stepped(l, t[i], t[i + 1], i, Chain(l)[i])
    && |t[i].results| == i && !t[i].halted
  }

  function TraceOf(l: Launch): (t: seq<Run>)
    ensures |t| == Span(l) + 1
    ensures forall i | 0 <= i <= Span(l) :: t[i] == At(l, i)
  {
    seq(Span(l) + 1, i requires 0 <= i => At(l, i))
  }

  /** Every run of the executor is such a sequence, and ends where the run ends. */
  lemma RunsAreTraced(l: Launch)
    requires Launchable(l)
    ensures Traced(l, TraceOf(l))
    ensures TraceOf(l)[Span(l)] == End(l)
  {
    Unfolding(l.setup, l.start);
    var t := TraceOf(l);
    assert t[0] == At(l, 0) == Start(l.start);
    forall i: nat | i < |t| - 1 ensures TracedAt(l, t, i) {
      StepOfRun(l, i);
    }
  }

  // ------------------------------------------------------------------ the evidence

  lemma ClosingKeeps(ev: Evidence, names: seq<Name>, status: Option<Decision>)
    requires Grown(ev, names)
    ensures Grown(Closed(ev, status), names)
    ensures Agreement(ev) ==> Agreement(Closed(ev, status))
    ensures Closed(ev, status).writer.ledger.entries == ev.writer.ledger.entries
  {
    if status.Some? {
      FinalizingKeeps(ev, names, status.value);
    }
    hide Grown, Agreement;
  }

  lemma FinalizingKeeps(ev: Evidence, names: seq<Name>, status: Decision)
    requires Grown(ev, names) && Built(Finalize(ev.writer, status))
    requires Finalize(ev.writer, status).ledger.entries == ev.writer.ledger.entries
    ensures var after := ev.(writer := Finalize(ev.writer, status));
            Grown(after, names) && (Agreement(ev) ==> Agreement(after))
  {
    hide Built, GoodLayout, Agrees, Faces, ArtifactFaces;
  }

  lemma CheckpointIsStored(i: nat, name: HandlerName, data: string)
    ensures var op := CheckpointOp(i, name, data);
            Proper(op) && Ledgered(op) == [] && op.name.CheckpointFile? && op.entry.None? && !op.joins
  {
  }

  lemma StoredOnly(ev: Evidence, op: Op)
    requires op.entry.None? && !op.joins
    ensures Perform(ev, op).writer == ev.writer && Perform(ev, op).artifacts == ev.artifacts
  {
    hide Put;
  }

  lemma CheckpointKeeps(ev: Evidence, names: seq<Name>, i: nat, name: HandlerName, data: string)
    requires Grown(ev, names)
    ensures Grown(Perform(ev, CheckpointOp(i, name, data)), names)
    ensures Agreement(ev) ==> Agreement(Perform(ev, CheckpointOp(i, name, data)))
    ensures Perform(ev, CheckpointOp(i, name, data)).writer == ev.writer
    ensures Perform(ev, CheckpointOp(i, name, data)).artifacts == ev.artifacts
  {
    assert Placed(ev, names);
    hide *;
    var op := CheckpointOp(i, name, data);
    CheckpointIsStored(i, name, data);
    PerformGrows(ev, names, op);
    assert names + [] == names;
    StoredOnly(ev, op);
    if Agreement(ev) { PerformKeepsAgreement(ev, names, op); }
  }

  /** No file of the handlers from position n on has been ledgered yet. */
  ghost predicate Ahead(l: Launch, names: seq<Name>, n: nat) {
    forall j | n <= j < |Chain(l)| :: Foreign(names, Slot(Chain(l)[j]))
  }

  lemma EffectKeepsSound(l: Launch, before: Run, name: HandlerName, names: seq<Name>)
    requires TidyEffects(l.effects) && Sound(before.ctx.ev, names) && Foreign(names, Slot(name))
    ensures Sound(PerformAll(before.ctx.ev, EffectAt(l, before, name).ops),
                  NamesAfter(names, EffectAt(l, before, name).ops))
  {
    var ops := EffectAt(l, before, name).ops;
    assert Tidy(l.effects(name, before.ctx).ops, Slot(name), names);
    OwnedIsProper(ops, Slot(name));
    RunGrows(before.ctx.ev, names, ops);
    RunKeepsAgreement(before.ctx.ev, names, ops);
  }

  lemma SoundStep(l: Launch, before: Run, after: Run, i: nat, name: HandlerName, names: seq<Name>)
    requires Stepped(l, before, after, i, name) && TidyEffects(l.effects)
    requires Sound(before.ctx.ev, names) && Foreign(names, Slot(name))
    ensures Sound(after.ctx.ev, NamesAfter(names, EffectAt(l, before, name).ops))
  {
    var e := EffectAt(l, before, name);
    var names' := NamesAfter(names, e.ops);
    EffectKeepsSound(l, before, name, names);
    var ev := PerformAll(before.ctx.ev, e.ops);
    ClosingKeeps(ev, names', e.finalStatus);
    var data :| after.ctx.ev == Perform(Closed(ev, e.finalStatus), CheckpointOp(i, name, data));
    CheckpointKeeps(Closed(ev, e.finalStatus), names', i, name, data);
  }

  lemma AheadStep(l: Launch, names: seq<Name>, ops: seq<Op>, i: nat)
    requires DistinctSlots(Chain(l)) && i < |Chain(l)| && Ahead(l, names, i) && Owned(ops, Slot(Chain(l)[i]))
    ensures Ahead(l, NamesAfter(names, ops), i + 1)
  {
    var chain := Chain(l);
    forall j | i + 1 <= j < |chain| ensures Foreign(NamesAfter(names, ops), Slot(chain[j])) {
      NamesStayOwned(names, ops, Slot(chain[i]), Slot(chain[j]));
    }
  }

  /** What the evidence of a run rests on. */
  ghost predicate Careful(l: Launch) {
    TidyEffects(l.effects) && DistinctSlots(Chain(l)) && Sound(l.start.ev, [])
  }

  lemma IsCareful(l: Launch)
    requires Launchable(l)
    ensures Careful(l) && Unworked(l.start)
  {
    hide Registered, Checkpoints, TidyEffects, DistinctSlots, Sound, Unworked;
  }

  lemma TraceIsNonEmpty(l: Launch, t: seq<Run>)
    requires Traced(l, t)
    ensures |t| > 0
  {
    hide Stepped;
  }

  lemma TraceStep(l: Launch, t: seq<Run>, i: nat)
    requires Traced(l, t) && i + 1 < |t|
    ensures i < |Chain(l)| && Stepped(l, t[i], t[i + 1], i, Chain(l)[i])
    ensures |t[i].results| == i && !t[i].halted
  {
    assert TracedAt(l, t, i);
  }

  lemma SoundAlong(l: Launch, before: Run, after: Run, i: nat, names: seq<Name>) returns (later: seq<Name>)
    requires Careful(l) && i < |Chain(l)| && Stepped(l, before, after, i, Chain(l)[i])
    requires Sound(before.ctx.ev, names) && Ahead(l, names, i)
    ensures Sound(after.ctx.ev, later) && Ahead(l, later, i + 1)
  {
    var name := Chain(l)[i];
    var ops := EffectAt(l, before, name).ops;
    SoundStep(l, before, after, i, name, names);
    assert Tidy(l.effects(name, before.ctx).ops, Slot(name), names);
    AheadStep(l, names, ops, i);
    later := NamesAfter(names, ops);
  }

  lemma SoundStart(l: Launch, t: seq<Run>)
    requires Careful(l) && Traced(l, t)
    ensures |t| > 0 && Sound(t[0].ctx.ev, []) && Ahead(l, [], 0)
  {
  }

  /** At every point of a run of distinct slots with tidy effects, the ledger is grown by its
      writer and linked to the run, the artifact list mirrors it, and every entry's hash is the
      hash of the bytes stored at its path. */
  lemma {:induction false} EvidenceStaysSound(l: Launch, t: seq<Run>, n: nat) returns (names: seq<Name>)
    requires Careful(l) && Traced(l, t) && n < |t|
    ensures Sound(t[n].ctx.ev, names) && Ahead(l, names, n)
  {
    hide *;
    if n == 0 {
      SoundStart(l, t);
      names := [];
    } else {
      var before := EvidenceStaysSound(l, t, n - 1);
      TraceStep(l, t, n - 1);
      names := SoundAlong(l, t[n - 1], t[n], n - 1, before);
    }
  }

  /** The evidence side of a run only ever grows, and stays that of the same run and attempt. */
  ghost predicate Extends(before: Evidence, after: Evidence) {
    && before.writer.ledger.entries <= after.writer.ledger.entries
    && after.runId == before.runId && after.taskId == before.taskId && after.layout == before.layout
    && after.store.attemptId == before.store.attemptId && after.store.digest == before.store.digest
  }

  lemma ExtendsReflexive(ev: Evidence)
    ensures Extends(ev, ev)
  {
  }

  lemma ExtendsTransitive(a: Evidence, b: Evidence, c: Evidence)
    requires Extends(a, b) && Extends(b, c)
    ensures Extends(a, c)
  {
  }

  lemma EffectExtends(ev: Evidence, ops: seq<Op>, status: Option<Decision>)
    ensures Extends(ev, Closed(PerformAll(ev, ops), status))
  {
    RunOnlyAppends(ev, ops);
  }

  lemma CheckpointExtends(ev: Evidence, i: nat, name: HandlerName, data: string)
    ensures Extends(ev, Perform(ev, CheckpointOp(i, name, data)))
  {
    PerformChangesEvidenceOnly(ev, CheckpointOp(i, name, data));
  }

  /** A step leaves its evidence as some checkpoint on top of its effect. */
  lemma StepEvidence(l: Launch, before: Run, after: Run, i: nat, name: HandlerName) returns (data: string)
    requires Stepped(l, before, after, i, name)
    ensures var e := EffectAt(l, before, name);
            after.ctx.ev == Perform(Closed(PerformAll(before.ctx.ev, e.ops), e.finalStatus), CheckpointOp(i, name, data))
  {
    var e := EffectAt(l, before, name);
    data :| after.ctx.ev == Perform(Closed(PerformAll(before.ctx.ev, e.ops), e.finalStatus), CheckpointOp(i, name, data));
  }

  lemma StepAppends(l: Launch, before: Run, after: Run, i: nat, name: HandlerName)
    requires Stepped(l, before, after, i, name)
    ensures Extends(before.ctx.ev, after.ctx.ev)
  {
    var e := EffectAt(l, before, name);
    var data := StepEvidence(l, before, after, i, name);
    EvidenceChain(before.ctx.ev, e.ops, e.finalStatus, i, name, data);
  }

  lemma EvidenceChain(ev: Evidence, ops: seq<Op>, status: Option<Decision>, i: nat, name: HandlerName, data: string)
    ensures Extends(ev, Perform(Closed(PerformAll(ev, ops), status), CheckpointOp(i, name, data)))
  {
    var closed := Closed(PerformAll(ev, ops), status);
    EffectExtends(ev, ops, status);
    CheckpointExtends(closed, i, name, data);
    ExtendsTransitive(ev, closed, Perform(closed, CheckpointOp(i, name, data)));
  }

  /** Earlier ledgers are prefixes of later ones. */
  lemma {:induction false} LedgerOnlyGrows(l: Launch, t: seq<Run>, m: nat, n: nat)
    requires Traced(l, t) && m <= n < |t|
    ensures Extends(t[m].ctx.ev, t[n].ctx.ev)
  {
    hide *;
    if m == n {
      ExtendsReflexive(t[n].ctx.ev);
    } else {
      LedgerOnlyGrows(l, t, m, n - 1);
      TraceStep(l, t, n - 1);
      StepAppends(l, t[n - 1], t[n], n - 1, Chain(l)[n - 1]);
      ExtendsTransitive(t[m].ctx.ev, t[n - 1].ctx.ev, t[n].ctx.ev);
    }
  }

  // ------------------------------------------------------ launching a registered chain

  function StartEvidence(q: Request, store: Store, naming: Naming): Evidence {
    Evidence(q.runId, q.taskId, LayoutOf(store, q.runId, naming), store, NewWriter(q.taskId, q.runId), [])
  }

  /** Launching a registered chain the way the executor does. */
  function NewLaunch(id: ChainId, w: World, text: (Decision, HandlerResult) -> string, q: Request, store: Store,
                     naming: Naming, repo: Option<Snapshot>, manifest: Option<ManifestView>): Launch
  {
    Launch(Setup(DefaultRegistry(w), CheckpointSaver(text), ChainOf(id)), EffectsIn(w), w.repoAfter,
           NewCtx(q, StartEvidence(q, store, naming), repo, manifest))
  }

  function EffectsIn(w: World): Effects {
    (h: HandlerName, c: Ctx) => EffectOf(h, w, c)
  }

  lemma DefaultIsRegistered(w: World)
    ensures Registered(DefaultRegistry(w), EffectsIn(w), w.repoAfter)
  {
    hide EffectOf, Applied, TypeOf;
  }

  lemma EffectsInAreTidy(w: World)
    ensures TidyEffects(EffectsIn(w))
  {
    hide EffectOf, Tidy, Foreign, Slot;
    var effects := EffectsIn(w);
    forall h: HandlerName, c: Ctx, names: seq<Name> | Foreign(names, Slot(h))
      ensures Tidy(effects(h, c).ops, Slot(h), names)
    {
      EffectsAreTidy(h, w, c, names);
    }
  }

  lemma SaverCheckpoints(text: (Decision, HandlerResult) -> string)
    ensures Checkpoints(CheckpointSaver(text))
  {
    hide Perform, CheckpointOp;
    var save := CheckpointSaver(text);
    forall c: Ctx, i: nat, n: HandlerName, r: HandlerResult ensures SavedAs(c, i, n, save(c, i, n, r)) {
      var data := text(c.verifierDecision, r);
      assert save(c, i, n, r) == c.(ev := Perform(c.ev, CheckpointOp(i, n, data)));
    }
  }

  lemma NewWriterIsBuilt(taskId: string, runId: string)
    ensures Built(NewWriter(taskId, runId))
  {
  }

  lemma FreshEvidence(q: Request, store: Store, naming: Naming)
    requires WellFormed(store.root)
    ensures Sound(StartEvidence(q, store, naming), [])
  {
    hide Built, GoodLayout, LayoutOf, EntryIds, WellFormed;
    StoreLaysOutWell(store, q.runId, naming);
    NewWriterIsBuilt(q.taskId, q.runId);
  }

  lemma StartsUntouched(q: Request, store: Store, naming: Naming, repo: Option<Snapshot>, manifest: Option<ManifestView>)
    requires WellFormed(store.root)
    ensures Untouched(NewCtx(q, StartEvidence(q, store, naming), repo, manifest))
  {
    hide StartEvidence, Sound, WellFormed;
    FreshEvidence(q, store, naming);
    StartsPending(q, store, naming);
  }

  /** Every registered chain can be launched on any request, store, naming and world. */
  lemma RegisteredChainsLaunch(id: ChainId, w: World, text: (Decision, HandlerResult) -> string, q: Request,
                               store: Store, naming: Naming, repo: Option<Snapshot>, manifest: Option<ManifestView>)
    requires WellFormed(store.root)
    ensures Launchable(NewLaunch(id, w, text, q, store, naming, repo, manifest))
  {
    hide DefaultRegistry, CheckpointSaver, ChainOf, EffectsIn, Untouched, Registered, TidyEffects, Checkpoints,
         DistinctSlots, WellFormed, NewCtx, OneVerifier, StopsLast, ReadersAfter, VerifierAt;
    DefaultIsRegistered(w);
    EffectsInAreTidy(w);
    SaverCheckpoints(text);
    SlotsAreDistinct(id);
    ChainShapes(id);
    StartsUntouched(q, store, naming, repo, manifest);
  }

  lemma StartsPending(q: Request, store: Store, naming: Naming)
    ensures var ev := StartEvidence(q, store, naming);
            ev.writer.ledger.finalStatus == Pending && ev.runId == q.runId && ev.taskId == q.taskId
  {
  }
}
