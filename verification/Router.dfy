/**
 The model router: it picks the model declared for a role, asks its limiter and its adapter, and
 on throttling or failure goes on with the declared fallback model, and so on along the path of
 fallbacks. What a clock and an adapter would answer at the k-th model visited is the k-th moment
 of an environment.
 */
module Router {
  import opened Core
  import opened RateLimiting
  import opened Names
  import opened Evidence

  datatype ModelRole = CodingAgentRole | VerifierRole | EvaluatorRole | AnalystRole | RouterRole

  datatype ModelSpec = ModelSpec(
    modelId: string, provider: string, role: ModelRole, modelRunId: string, permissions: seq<string>,
    promptHash: string, parallelToolCalls: bool, requestsPerMin: int, tokensPerMin: int, fallbackId: string)

  datatype Reply = Raised | Replied(text: string, tokensIn: nat, tokensOut: nat)

  datatype Moment = Moment(now: real, reply: Reply)

  type Environment = nat -> Moment

  datatype RouteStatus = RouteOk | FallbackUsed | Throttled | PermissionDenied | NoModelForRole

  datatype Refusal = NotRefused | LimitReached | NoAdapter | CallFailed | Unbound | NotPermitted

  datatype InvocationRecord = InvocationRecord(
    number: nat, modelId: string, role: ModelRole, runId: string, taskId: string,
    request: Location, requestHash: string, response: Location, responseHash: string,
    tokensIn: nat, tokensOut: nat, status: RouteStatus)

  datatype RouterResult = RouterResult(
    status: RouteStatus, record: Option<InvocationRecord>, reason: Refusal, modelIdUsed: string)

  /** A visit to a model: was there a token, and was its adapter called? */
  datatype Visit = Visit(modelId: string, now: real, admitted: bool, called: bool)

  /** `text` is how a record is written down. */
  datatype Config = Config(
    specs: seq<ModelSpec>, byId: map<string, ModelSpec>, adapters: set<string>, text: InvocationRecord -> string)

  /** What the router changes; `visits` is the history of the calls to its limiters and adapters. */
  datatype RouterState = RouterState(limiters: map<string, Bucket>, ev: Evidence, count: nat, visits: seq<Visit>)

  /** The models by their ids; of models with the same id the last one counts. */
  function ById(specs: seq<ModelSpec>): map<string, ModelSpec> {
    if specs == [] then map[]
    else ById(specs[..|specs| - 1])[specs[|specs| - 1].modelId := specs[|specs| - 1]]
  }

  /** The first model declared for a role. */
  function Select(specs: seq<ModelSpec>, role: ModelRole): Option<ModelSpec> {
    if specs == [] then None
    else if specs[0].role == role then Some(specs[0])
    else Select(specs[1..], role)
  }

  /** Limiters that are not supplied, or supplied as an empty dictionary, come from the specs. */
  function Limiters(byId: map<string, ModelSpec>, supplied: map<string, Bucket>, start: string -> real): map<string, Bucket> {
    if supplied != map[] then supplied
    else map id | id in byId :: NewBucket(Rate(byId[id]), start(id))
  }

  function Rate(s: ModelSpec): nat {
    if s.requestsPerMin < 1 then 1 else s.requestsPerMin
  }

  // ----------------------------------------------------------------- the fallback path

  function NextOf(byId: map<string, ModelSpec>, s: ModelSpec): Option<ModelSpec> {
    if s.fallbackId != "" && s.fallbackId in byId then Some(byId[s.fallbackId]) else None
  }

  /** The path of fallbacks from a model ends after at most n of them. */
  predicate EndsWithin(byId: map<string, ModelSpec>, s: ModelSpec, n: nat)
    decreases n
  {
    match NextOf(byId, s)
    case None => true
    case Some(fallback) => n > 0 && EndsWithin(byId, fallback, n - 1)
  }

  function Path(byId: map<string, ModelSpec>, s: ModelSpec, n: nat): (p: seq<ModelSpec>)
    requires EndsWithin(byId, s, n)
    ensures 0 < |p| <= n + 1 && p[0] == s
    decreases n
  {
    match NextOf(byId, s)
    case None => [s]
    case Some(fallback) => [s] + Path(byId, fallback, n - 1)
  }

  // ------------------------------------------------------------------------ recording

  function RecordFor(ev: Evidence, n: nat, s: ModelSpec, prompt: string, reply: Reply, status: RouteStatus): InvocationRecord
    requires reply.Replied?
  {
    var digest := ev.store.digest;
    InvocationRecord(n, s.modelId, s.role, ev.runId, ev.taskId,
                     ev.layout(LlmFile(Prompt, n)), digest(prompt), ev.layout(LlmFile(Reply, n)), digest(reply.text),
                     reply.tokensIn, reply.tokensOut, status)
  }

  function Recorded(cfg: Config, st: RouterState, s: ModelSpec, prompt: string, reply: Reply, status: RouteStatus)
    : (RouterState, InvocationRecord)
    requires reply.Replied?
  {
    var record := RecordFor(st.ev, st.count + 1, s, prompt, reply, status);
    var ops := Invoke(st.count + 1, s.modelId, prompt, reply.text, cfg.text(record));
    (st.(ev := PerformAll(st.ev, ops), count := st.count + 1), record)
  }

  // -------------------------------------------------------------------------- routing

  predicate Admits(limiters: map<string, Bucket>, s: ModelSpec, now: real) {
    s.modelId in limiters ==> AllowAt(limiters[s.modelId], now).1
  }

  function Drawn(limiters: map<string, Bucket>, s: ModelSpec, now: real): map<string, Bucket> {
    if s.modelId in limiters then limiters[s.modelId := AllowAt(limiters[s.modelId], now).0] else limiters
  }

  /** The limiter admits the call, the provider has an adapter, and the adapter answers. */
  predicate Works(cfg: Config, st: RouterState, s: ModelSpec, m: Moment) {
    Admits(st.limiters, s, m.now) && s.provider in cfg.adapters && m.reply.Replied?
  }

  /** The state after a model was asked, whether it answered or not. */
  function Asked(cfg: Config, st: RouterState, s: ModelSpec, m: Moment): RouterState {
    var admitted := Admits(st.limiters, s, m.now);
    st.(limiters := Drawn(st.limiters, s, m.now),
        visits := st.visits + [Visit(s.modelId, m.now, admitted, admitted && s.provider in cfg.adapters)])
  }

  function WhyNot(cfg: Config, st: RouterState, s: ModelSpec, m: Moment): Refusal {
    if !Admits(st.limiters, s, m.now) then LimitReached
    else if s.provider !in cfg.adapters then NoAdapter
    else CallFailed
  }

  /** Asking one model, at the k-th moment. */
  function InvokeModel(cfg: Config, st: RouterState, s: ModelSpec, prompt: string, env: Environment, k: nat,
                       status: RouteStatus, n: nat): (RouterState, RouterResult)
    requires EndsWithin(cfg.byId, s, n)
    decreases n, 1
  {
    var asked := Asked(cfg, st, s, env(k));
    if Works(cfg, st, s, env(k)) then
      var (after, record) := Recorded(cfg, asked, s, prompt, env(k).reply, status);
      (after, RouterResult(status, Some(record), NotRefused, s.modelId))
    else FallBack(cfg, asked, s, prompt, env, k + 1, WhyNot(cfg, st, s, env(k)), n)
  }

  /** Going on with the fallback of a model, or giving up. */
  function FallBack(cfg: Config, st: RouterState, s: ModelSpec, prompt: string, env: Environment, k: nat,
                    reason: Refusal, n: nat): (RouterState, RouterResult)
    requires EndsWithin(cfg.byId, s, n)
    decreases n, 0
  {
    match NextOf(cfg.byId, s)
    case None => (st, RouterResult(Throttled, None, reason, s.modelId))
    case Some(fallback) =>
      var (after, r) := InvokeModel(cfg, st, fallback, prompt, env, k, FallbackUsed, n - 1);
      (after, if r.record.Some? then r.(status := FallbackUsed) else r)
  }

  /** The entry point: permission is asked of the selected model only. */
  function InvokeRole(cfg: Config, st: RouterState, role: ModelRole, prompt: string, permission: string,
                      env: Environment): (RouterState, RouterResult)
    requires Terminating(cfg)
  {
    match Select(cfg.specs, role)
    case None => (st, RouterResult(NoModelForRole, None, Unbound, ""))
    case Some(s) =>
      if permission != "" && permission !in s.permissions then (st, RouterResult(PermissionDenied, None, NotPermitted, ""))
      else
        SelectedIsDeclared(cfg.specs, role);
        InvokeModel(cfg, st, s, prompt, env, 0, RouteOk, |cfg.byId|)
  }

  /** Every declared model's path of fallbacks ends, checked within as many steps as there are ids. */
  predicate Terminating(cfg: Config) {
    forall i | 0 <= i < |cfg.specs| :: EndsWithin(cfg.byId, cfg.specs[i], |cfg.byId|)
  }

  lemma {:induction false} SelectedIsDeclared(specs: seq<ModelSpec>, role: ModelRole)
    ensures Select(specs, role).Some? ==>
              Select(specs, role).value in specs && Select(specs, role).value.role == role
    ensures Select(specs, role).None? ==> forall i | 0 <= i < |specs| :: specs[i].role != role
  {
    if specs != [] && specs[0].role != role {
      SelectedIsDeclared(specs[1..], role);
      forall i | 0 <= i < |specs| && Select(specs, role).None? ensures specs[i].role != role {
        if i > 0 { assert specs[i] == specs[1..][i - 1]; }
      }
    }
  }

  // ----------------------------------------------------------------------- termination

  /** The router's recursion with a bound on its depth: nothing when the bound is hit. */
  function Try(cfg: Config, st: RouterState, s: ModelSpec, prompt: string, env: Environment, k: nat,
               status: RouteStatus, fuel: nat): Option<(RouterState, RouterResult)>
    decreases fuel
  {
    var asked := Asked(cfg, st, s, env(k));
    if Works(cfg, st, s, env(k)) then
      var (after, record) := Recorded(cfg, asked, s, prompt, env(k).reply, status);
      Some((after, RouterResult(status, Some(record), NotRefused, s.modelId)))
    else
      match NextOf(cfg.byId, s)
      case None => Some((asked, RouterResult(Throttled, None, WhyNot(cfg, st, s, env(k)), s.modelId)))
      case Some(fallback) =>
        if fuel == 0 then None
        else
          match Try(cfg, asked, fallback, prompt, env, k + 1, FallbackUsed, fuel - 1)
          case None => None
          case Some(r) => Some((r.0, if r.1.record.Some? then r.1.(status := FallbackUsed) else r.1))
  }

  lemma {:induction false} TryFinishes(cfg: Config, st: RouterState, s: ModelSpec, prompt: string, env: Environment,
                                       k: nat, status: RouteStatus, n: nat)
    requires EndsWithin(cfg.byId, s, n)
    ensures Try(cfg, st, s, prompt, env, k, status, n) == Some(InvokeModel(cfg, st, s, prompt, env, k, status, n))
    decreases n
  {
    hide Asked, Works, Recorded, WhyNot;
    var next := NextOf(cfg.byId, s);
    if next.Some? {
      TryFinishes(cfg, Asked(cfg, st, s, env(k)), next.value, prompt, env, k + 1, FallbackUsed, n - 1);
    }
  }

  /** An environment in which every adapter call fails. */
  function Outage(): Environment {
    (k: nat) => Moment(0.0, Raised)
  }

  lemma {:induction false} OutageWalksThePath(cfg: Config, st: RouterState, s: ModelSpec, prompt: string, k: nat,
                                              status: RouteStatus, fuel: nat)
    requires Try(cfg, st, s, prompt, Outage(), k, status, fuel).Some?
    ensures EndsWithin(cfg.byId, s, fuel)
    decreases fuel
  {
    hide Asked, Recorded, WhyNot, Admits;
    var next := NextOf(cfg.byId, s);
    if next.Some? {
      OutageWalksThePath(cfg, Asked(cfg, st, s, Outage()(k)), next.value, prompt, k + 1, FallbackUsed, fuel - 1);
    }
  }

  lemma {:induction false} PathStable(byId: map<string, ModelSpec>, s: ModelSpec, m: nat, n: nat)
    requires EndsWithin(byId, s, m) && EndsWithin(byId, s, n)
    ensures Path(byId, s, m) == Path(byId, s, n)
    decreases m
  {
    var next := NextOf(byId, s);
    if next.Some? { PathStable(byId, next.value, m - 1, n - 1); }
  }

  lemma {:induction false} SuffixOfPath(byId: map<string, ModelSpec>, s: ModelSpec, n: nat, i: nat)
    requires EndsWithin(byId, s, n) && i < |Path(byId, s, n)|
    ensures i <= n && EndsWithin(byId, Path(byId, s, n)[i], n - i)
    ensures Path(byId, Path(byId, s, n)[i], n - i) == Path(byId, s, n)[i..]
    ensures i + 1 < |Path(byId, s, n)| ==> NextOf(byId, Path(byId, s, n)[i]) == Some(Path(byId, s, n)[i + 1])
    decreases n
  {
    var next := NextOf(byId, s);
    if i > 0 {
      SuffixOfPath(byId, next.value, n - 1, i - 1);
    } else {
      assert Path(byId, s, n)[0..] == Path(byId, s, n);
    }
  }

  /** A path that ends visits no model twice. */
  lemma PathsHaveNoRepeats(byId: map<string, ModelSpec>, s: ModelSpec, n: nat, i: nat, j: nat)
    requires EndsWithin(byId, s, n) && i < j < |Path(byId, s, n)|
    ensures Path(byId, s, n)[i] != Path(byId, s, n)[j]
  {
    hide Path, EndsWithin;
    var p := Path(byId, s, n);
    SuffixOfPath(byId, s, n, i);
    SuffixOfPath(byId, s, n, j);
    if p[i] == p[j] {
      PathStable(byId, p[i], n - i, n - j);
    }
  }

  function KeysFrom(p: seq<ModelSpec>, i: nat): (keys: set<string>)
    requires i < |p|
    decreases |p| - i
  {
    if i == |p| - 1 then {} else {p[i].fallbackId} + KeysFrom(p, i + 1)
  }

  lemma {:induction false} KeysAreLater(p: seq<ModelSpec>, i: nat, key: string) returns (j: nat)
    requires i < |p| && key in KeysFrom(p, i)
    ensures i <= j < |p| - 1 && p[j].fallbackId == key
    decreases |p| - i
  {
    if p[i].fallbackId == key { j := i; } else { j := KeysAreLater(p, i + 1, key); }
  }

  lemma {:induction false} KeysCount(byId: map<string, ModelSpec>, s: ModelSpec, n: nat, i: nat)
    requires EndsWithin(byId, s, n) && i < |Path(byId, s, n)|
    ensures KeysFrom(Path(byId, s, n), i) <= byId.Keys
    ensures |KeysFrom(Path(byId, s, n), i)| == |Path(byId, s, n)| - 1 - i
    decreases |Path(byId, s, n)| - i
  {
    hide Path, EndsWithin;
    var p := Path(byId, s, n);
    SuffixOfPath(byId, s, n, i);
    if i < |p| - 1 {
      KeysCount(byId, s, n, i + 1);
      if p[i].fallbackId in KeysFrom(p, i + 1) {
        var j := KeysAreLater(p, i + 1, p[i].fallbackId);
        SuffixOfPath(byId, s, n, j);
        PathsHaveNoRepeats(byId, s, n, i + 1, j + 1);
      }
    }
  }

  lemma SubsetCount(a: set<string>, b: set<string>)
    requires a <= b
    ensures |a| <= |b|
  {
    assert b == a + (b - a);
  }

  lemma {:induction false} EndsAtItsLength(byId: map<string, ModelSpec>, s: ModelSpec, n: nat)
    requires EndsWithin(byId, s, n)
    ensures EndsWithin(byId, s, |Path(byId, s, n)| - 1)
    decreases n
  {
    var next := NextOf(byId, s);
    if next.Some? { EndsAtItsLength(byId, next.value, n - 1); }
  }

  lemma {:induction false} EndsLater(byId: map<string, ModelSpec>, s: ModelSpec, m: nat, n: nat)
    requires EndsWithin(byId, s, m) && m <= n
    ensures EndsWithin(byId, s, n)
    decreases m
  {
    var next := NextOf(byId, s);
    if next.Some? { EndsLater(byId, next.value, m - 1, n - 1); }
  }

  /** A path that ends at all ends within as many steps as there are declared ids. */
  lemma EndsSoon(byId: map<string, ModelSpec>, s: ModelSpec, n: nat)
    requires EndsWithin(byId, s, n)
    ensures EndsWithin(byId, s, |byId|)
  {
    hide Path, EndsWithin, KeysFrom;
    KeysCount(byId, s, n, 0);
    SubsetCount(KeysFrom(Path(byId, s, n), 0), byId.Keys);
    EndsAtItsLength(byId, s, n);
    EndsLater(byId, s, |Path(byId, s, n)| - 1, |byId|);
  }

  ghost predicate AlwaysReturns(cfg: Config, s: ModelSpec) {
    forall st: RouterState, prompt: string, env: Environment, k: nat, status: RouteStatus ::
      Returns(cfg, st, s, prompt, env, k, status)
  }

  ghost predicate Returns(cfg: Config, st: RouterState, s: ModelSpec, prompt: string, env: Environment, k: nat, status: RouteStatus) {
    exists fuel: nat :: Try(cfg, st, s, prompt, env, k, status, fuel).Some?
  }

  /** Routing a model returns in every state and environment exactly when its path of fallbacks ends
      within as many steps as there are declared ids, which a caller can check beforehand. */
  lemma TerminationIsExact(cfg: Config, s: ModelSpec, st: RouterState)
    ensures AlwaysReturns(cfg, s) <==> EndsWithin(cfg.byId, s, |cfg.byId|)
  {
    hide Try, EndsWithin;
    if EndsWithin(cfg.byId, s, |cfg.byId|) {
      forall st: RouterState, prompt: string, env: Environment, k: nat, status: RouteStatus
        ensures Returns(cfg, st, s, prompt, env, k, status)
      {
        TryFinishes(cfg, st, s, prompt, env, k, status, |cfg.byId|);
      }
    }
    if AlwaysReturns(cfg, s) {
      assert Returns(cfg, st, s, "", Outage(), 0, RouteOk);
      var fuel: nat :| Try(cfg, st, s, "", Outage(), 0, RouteOk, fuel).Some?;
      OutageWalksThePath(cfg, st, s, "", 0, RouteOk, fuel);
      EndsSoon(cfg.byId, s, fuel);
    }
  }

  // ------------------------------------------------------------- the model policy gate

  predicate Declared(models: seq<ModelSpec>, id: string) {
    exists i | 0 <= i < |models| :: models[i].modelId == id
  }

  predicate HasRole(models: seq<ModelSpec>, role: ModelRole) {
    exists i | 0 <= i < |models| :: models[i].role == role
  }

  predicate ModelAdmissible(models: seq<ModelSpec>, allowed: seq<string>, m: ModelSpec) {
    && m.modelId != "" && m.provider != "" && m.modelRunId != ""
    && m.modelId in allowed
    && (m.requestsPerMin > 0 || m.tokensPerMin > 0)
    && m.permissions != [] && m.promptHash != "" && !m.parallelToolCalls
    && (m.fallbackId != "" ==> Declared(models, m.fallbackId) && m.fallbackId in allowed)
  }

  /** The model policy gate passes. */
  ghost predicate PolicyPasses(models: seq<ModelSpec>, allowed: seq<string>, runType: RunType) {
    models != [] ==>
      && (forall i | 0 <= i < |models| :: ModelAdmissible(models, allowed, models[i]))
      && (runType == Implementation ==> HasRole(models, CodingAgentRole))
      && HasRole(models, VerifierRole)
      && (forall i, j | 0 <= i < |models| && 0 <= j < |models| ::
            models[i].role == CodingAgentRole && models[j].role == VerifierRole ==> models[i].modelRunId != models[j].modelRunId)
  }

  function Coder(): ModelSpec {
    ModelSpec("a", "p", CodingAgentRole, "run-a", ["code"], "h", false, 60, 0, "b")
  }

  function Checker(): ModelSpec {
    ModelSpec("b", "p", VerifierRole, "run-b", ["verify"], "h", false, 60, 0, "a")
  }

  lemma PairById()
    ensures var byId := ById([Coder(), Checker()]);
            NextOf(byId, Coder()) == Some(Checker()) && NextOf(byId, Checker()) == Some(Coder())
  {
    var specs := [Coder(), Checker()];
    assert specs[..1] == [Coder()] && specs[..1][..0] == [];
  }

  lemma {:induction false} PairNeverEnds(byId: map<string, ModelSpec>, s: ModelSpec, n: nat)
    requires NextOf(byId, Coder()) == Some(Checker()) && NextOf(byId, Checker()) == Some(Coder())
    requires s == Coder() || s == Checker()
    ensures !EndsWithin(byId, s, n)
    decreases n
  {
    if n > 0 { PairNeverEnds(byId, NextOf(byId, s).value, n - 1); }
  }

  /** The gate does not see cycles: it passes two models that are each other's fallback, and on
      them the router does not return from an outage. */
  lemma PolicyAdmitsCycles(cfg: Config, st: RouterState)
    requires cfg.specs == [Coder(), Checker()] && cfg.byId == ById(cfg.specs)
    ensures PolicyPasses(cfg.specs, ["a", "b"], Implementation)
    ensures !AlwaysReturns(cfg, Coder())
  {
    PairById();
    PairNeverEnds(cfg.byId, Coder(), |cfg.byId|);
    TerminationIsExact(cfg, Coder(), st);
    assert cfg.specs[0] == Coder() && cfg.specs[1] == Checker();
  }
}
