/** What the router guarantees: the first workable model of the fallback path answers, one token is
    taken from each model asked, and no model is called faster than its limiter allows. */
module RouterLaws {
  import opened Core
  import opened RateLimiting
  import opened EvidenceWriter
  import opened Names
  import opened Evidence
  import opened ChainRuns
  import opened Router

  // --------------------------------------------------------------- the first workable model

  /** The state once the first i models of a path have been asked, at moments k, k + 1, ... */
  function AskedFirst(cfg: Config, st: RouterState, p: seq<ModelSpec>, env: Environment, k: nat, i: nat): RouterState
    requires i <= |p|
  {
    if i == 0 then st
    else Asked(cfg, AskedFirst(cfg, st, p, env, k, i - 1), p[i - 1], env(k + i - 1))
  }

  /** Model i of the path works, all models before it having been asked. */
  predicate WorksAt(cfg: Config, st: RouterState, p: seq<ModelSpec>, env: Environment, k: nat, i: nat)
    requires i < |p|
  {
    Works(cfg, AskedFirst(cfg, st, p, env, k, i), p[i], env(k + i))
  }

  /** The position of the first workable model, or the length of the path. */
  ghost predicate FirstWorkable(cfg: Config, st: RouterState, p: seq<ModelSpec>, env: Environment, k: nat, i: nat) {
    && i <= |p|
    && (forall j: nat | j < i :: !WorksAt(cfg, st, p, env, k, j))
    && (i < |p| ==> WorksAt(cfg, st, p, env, k, i))
  }

  lemma {:induction false} AskedShift(cfg: Config, st: RouterState, p: seq<ModelSpec>, env: Environment, k: nat, i: nat)
    requires i < |p|
    ensures AskedFirst(cfg, st, p, env, k, i + 1)
            == AskedFirst(cfg, Asked(cfg, st, p[0], env(k)), p[1..], env, k + 1, i)
  {
    hide Asked;
    if i > 0 {
      AskedShift(cfg, st, p, env, k, i - 1);
      assert k + i == k + 1 + (i - 1);
    } else {
      assert AskedFirst(cfg, st, p, env, k, 0) == st;
    }
  }

  lemma WorksShift(cfg: Config, st: RouterState, p: seq<ModelSpec>, env: Environment, k: nat, i: nat)
    requires i + 1 < |p|
    ensures WorksAt(cfg, st, p, env, k, i + 1)
            <==> WorksAt(cfg, Asked(cfg, st, p[0], env(k)), p[1..], env, k + 1, i)
  {
    hide Asked, Works, AskedFirst;
    AskedShift(cfg, st, p, env, k, i);
    assert k + (i + 1) == k + 1 + i;
  }

  lemma FirstShift(cfg: Config, st: RouterState, p: seq<ModelSpec>, env: Environment, k: nat, i: nat)
    requires |p| > 1 && !Works(cfg, st, p[0], env(k))
    requires FirstWorkable(cfg, Asked(cfg, st, p[0], env(k)), p[1..], env, k + 1, i)
    ensures FirstWorkable(cfg, st, p, env, k, i + 1)
  {
    hide Asked, Works, WorksAt;
    var st', rest := Asked(cfg, st, p[0], env(k)), p[1..];
    forall j: nat | j < i + 1 ensures !WorksAt(cfg, st, p, env, k, j) {
      if j == 0 { WorksAtStart(cfg, st, p, env, k); } else { WorksShift(cfg, st, p, env, k, j - 1); }
    }
    if i < |rest| { WorksShift(cfg, st, p, env, k, i); }
  }

  lemma WorksAtStart(cfg: Config, st: RouterState, p: seq<ModelSpec>, env: Environment, k: nat)
    requires |p| > 0
    ensures WorksAt(cfg, st, p, env, k, 0) <==> Works(cfg, st, p[0], env(k))
  {
    hide Works;
  }

  /** What a call returns once the first workable position is known. */
  ghost predicate Routed(cfg: Config, st: RouterState, p: seq<ModelSpec>, prompt: string, env: Environment, k: nat,
                         status: RouteStatus, i: nat, out: (RouterState, RouterResult))
    requires i <= |p| && |p| > 0
  {
    if i < |p| then
      && env(k + i).reply.Replied?
      && var used := if i == 0 then status else FallbackUsed;
         var (after, record) := Recorded(cfg, AskedFirst(cfg, st, p, env, k, i + 1), p[i], prompt, env(k + i).reply, used);
         out == (after, RouterResult(used, Some(record), NotRefused, p[i].modelId))
    else
      && out.0 == AskedFirst(cfg, st, p, env, k, |p|)
      && out.1.status == Throttled && out.1.record == None && out.1.modelIdUsed == p[|p| - 1].modelId
  }

  lemma RoutedShift(cfg: Config, st: RouterState, p: seq<ModelSpec>, prompt: string, env: Environment, k: nat,
                    status: RouteStatus, i: nat, out: (RouterState, RouterResult))
    requires |p| > 1 && i < |p|
    requires Routed(cfg, Asked(cfg, st, p[0], env(k)), p[1..], prompt, env, k + 1, FallbackUsed, i, out)
    ensures Routed(cfg, st, p, prompt, env, k, status, i + 1, out)
    ensures out.1.record.Some? ==> out.1.(status := FallbackUsed) == out.1
  {
    hide Asked, Recorded, AskedFirst;
    var rest := p[1..];
    assert k + (i + 1) == k + 1 + i;
    if i < |rest| {
      AskedShift(cfg, st, p, env, k, i + 1);
    } else {
      AskedShift(cfg, st, p, env, k, i);
      assert rest[|rest| - 1] == p[|p| - 1];
    }
  }

  /** On a path of fallbacks that ends, the first model that has a token, an adapter and a successful
      call answers; every model up to it was asked, exactly once, and none after it. The status is
      the given one for the first model of the path and FALLBACK_USED for a later one; when none
      works it is THROTTLED, naming the last model of the path. */
  lemma {:induction false} FirstWorkableAnswers(cfg: Config, st: RouterState, s: ModelSpec, prompt: string, env: Environment,
                                                k: nat, status: RouteStatus, n: nat) returns (i: nat)
    requires EndsWithin(cfg.byId, s, n)
    ensures var p := Path(cfg.byId, s, n);
            && FirstWorkable(cfg, st, p, env, k, i)
            && Routed(cfg, st, p, prompt, env, k, status, i, InvokeModel(cfg, st, s, prompt, env, k, status, n))
    decreases n
  {
    hide Asked, Works, WorksAt, Recorded, FirstWorkable, Routed, AskedFirst;
    var p := Path(cfg.byId, s, n);
    var next := NextOf(cfg.byId, s);
    if Works(cfg, st, s, env(k)) {
      AnswersAtOnce(cfg, st, p, prompt, env, k, status, n);
      i := 0;
    } else if next.None? {
      RefusedAtOnce(cfg, st, s, prompt, env, k, status, n);
      i := 1;
    } else {
      var later := FirstWorkableAnswers(cfg, Asked(cfg, st, s, env(k)), next.value, prompt, env, k + 1, FallbackUsed, n - 1);
      var rest := Path(cfg.byId, next.value, n - 1);
      assert p == [s] + rest && p[1..] == rest;
      var out := InvokeModel(cfg, Asked(cfg, st, s, env(k)), next.value, prompt, env, k + 1, FallbackUsed, n - 1);
      FirstWorkableIsInside(cfg, Asked(cfg, st, s, env(k)), rest, env, k + 1, later);
      FirstShift(cfg, st, p, env, k, later);
      RoutedShift(cfg, st, p, prompt, env, k, status, later, out);
      i := later + 1;
    }
  }

  lemma FirstWorkableIsInside(cfg: Config, st: RouterState, p: seq<ModelSpec>, env: Environment, k: nat, i: nat)
    requires FirstWorkable(cfg, st, p, env, k, i)
    ensures i <= |p|
  {
  }

  lemma AnswersAtOnce(cfg: Config, st: RouterState, p: seq<ModelSpec>, prompt: string, env: Environment, k: nat,
                      status: RouteStatus, n: nat)
    requires |p| > 0 && EndsWithin(cfg.byId, p[0], n) && Works(cfg, st, p[0], env(k))
    ensures FirstWorkable(cfg, st, p, env, k, 0)
    ensures Routed(cfg, st, p, prompt, env, k, status, 0, InvokeModel(cfg, st, p[0], prompt, env, k, status, n))
  {
    hide Asked, Recorded, Admits;
    WorksAtStart(cfg, st, p, env, k);
    assert AskedFirst(cfg, st, p, env, k, 0) == st;
  }

  lemma RefusedAtOnce(cfg: Config, st: RouterState, s: ModelSpec, prompt: string, env: Environment, k: nat,
                      status: RouteStatus, n: nat)
    requires EndsWithin(cfg.byId, s, n) && !Works(cfg, st, s, env(k)) && NextOf(cfg.byId, s).None?
    ensures FirstWorkable(cfg, st, [s], env, k, 1)
    ensures Routed(cfg, st, [s], prompt, env, k, status, 1, InvokeModel(cfg, st, s, prompt, env, k, status, n))
  {
    hide Asked, Recorded, Works, WhyNot;
    WorksAtStart(cfg, st, [s], env, k);
    assert AskedFirst(cfg, st, [s], env, k, 0) == st;
  }

  // ------------------------------------------------------------------------- tokens

  ghost predicate DistinctModels(p: seq<ModelSpec>) {
    forall i, j | 0 <= i < j < |p| :: p[i].modelId != p[j].modelId
  }

  /** Asking draws on each asked model's limiter once, at its moment, and on no other limiter. */
  lemma {:induction false} OneDrawEach(cfg: Config, st: RouterState, p: seq<ModelSpec>, env: Environment, k: nat, i: nat, id: string)
    requires i <= |p| && DistinctModels(p)
    ensures AskedFirst(cfg, st, p, env, k, i).limiters.Keys == st.limiters.Keys
    ensures id in st.limiters && (forall j | 0 <= j < i :: p[j].modelId != id) ==>
              AskedFirst(cfg, st, p, env, k, i).limiters[id] == st.limiters[id]
    ensures forall j: nat | j < i && p[j].modelId == id && id in st.limiters ::
              AskedFirst(cfg, st, p, env, k, i).limiters[id] == AllowAt(st.limiters[id], env(k + j).now).0
  {
    hide AllowAt;
    if i > 0 {
      OneDrawEach(cfg, st, p, env, k, i - 1, id);
    }
  }

  /** Of models with different ids, the path of fallbacks from a declared one never comes back to an
      id. */
  lemma DeclaredPathsAreDistinct(byId: map<string, ModelSpec>, s: ModelSpec, n: nat)
    requires EndsWithin(byId, s, n) && s.modelId in byId && byId[s.modelId] == s
    requires forall id | id in byId :: byId[id].modelId == id
    ensures DistinctModels(Path(byId, s, n))
  {
    hide Path, EndsWithin;
    var p := Path(byId, s, n);
    forall i: nat, j: nat | i < j < |p| ensures p[i].modelId != p[j].modelId {
      PathIsDeclared(byId, s, n, i);
      PathIsDeclared(byId, s, n, j);
      PathsHaveNoRepeats(byId, s, n, i, j);
    }
  }

  lemma PathIsDeclared(byId: map<string, ModelSpec>, s: ModelSpec, n: nat, i: nat)
    requires EndsWithin(byId, s, n) && s.modelId in byId && byId[s.modelId] == s
    requires forall id | id in byId :: byId[id].modelId == id
    requires i < |Path(byId, s, n)|
    ensures var m := Path(byId, s, n)[i]; m.modelId in byId && byId[m.modelId] == m
  {
    hide Path, EndsWithin;
    if i > 0 { SuffixOfPath(byId, s, n, i - 1); } else { StartOfPath(byId, s, n); }
  }

  lemma StartOfPath(byId: map<string, ModelSpec>, s: ModelSpec, n: nat)
    requires EndsWithin(byId, s, n)
    ensures Path(byId, s, n)[0] == s
  {
  }

  lemma {:induction false} ByIdIsKeyed(specs: seq<ModelSpec>)
    ensures forall id | id in ById(specs) :: ById(specs)[id].modelId == id
  {
    if specs != [] { ByIdIsKeyed(specs[..|specs| - 1]); }
  }

  /** With distinct ids, every declared model is the one its id stands for; in general the last of
      the models with an id is. */
  lemma {:induction false} ByIdFindsLast(specs: seq<ModelSpec>, i: nat)
    requires i < |specs| && (forall j | i < j < |specs| :: specs[j].modelId != specs[i].modelId)
    ensures specs[i].modelId in ById(specs) && ById(specs)[specs[i].modelId] == specs[i]
  {
    var n := |specs| - 1;
    if i < n {
      assert specs[..n][i] == specs[i];
      forall j | i < j < n ensures specs[..n][j].modelId != specs[i].modelId {}
      ByIdFindsLast(specs[..n], i);
      assert specs[n].modelId != specs[i].modelId;
    }
  }

  /** Permission and selection: a role without a model and a missing permission are refused before
      anything is asked of a limiter; the permission is that of the selected model, whichever model
      answers in the end. */
  lemma RefusedBeforeAsking(cfg: Config, st: RouterState, role: ModelRole, prompt: string, permission: string, env: Environment)
    requires Terminating(cfg)
    ensures var (after, r) := InvokeRole(cfg, st, role, prompt, permission, env);
            && (r.status == NoModelForRole <==> forall i | 0 <= i < |cfg.specs| :: cfg.specs[i].role != role)
            && (r.status == PermissionDenied <==>
                  && Select(cfg.specs, role).Some?
                  && permission != "" && permission !in Select(cfg.specs, role).value.permissions)
            && (r.status == NoModelForRole || r.status == PermissionDenied ==> after == st && r.record == None)
  {
    hide EndsWithin, InvokeModel;
    SelectedIsDeclared(cfg.specs, role);
    var s := Select(cfg.specs, role);
    if s.Some? {
      assert EndsWithin(cfg.byId, s.value, |cfg.byId|);
      StatusOfCall(cfg, st, s.value, prompt, env);
    }
  }

  lemma StatusOfCall(cfg: Config, st: RouterState, s: ModelSpec, prompt: string, env: Environment)
    requires EndsWithin(cfg.byId, s, |cfg.byId|)
    ensures var r := InvokeModel(cfg, st, s, prompt, env, 0, RouteOk, |cfg.byId|).1;
            r.status == RouteOk || r.status == FallbackUsed || r.status == Throttled
  {
    hide EndsWithin, InvokeModel, FirstWorkable, Recorded, AskedFirst;
    var i := FirstWorkableAnswers(cfg, st, s, prompt, env, 0, RouteOk, |cfg.byId|);
    FirstWorkableIsInside(cfg, st, Path(cfg.byId, s, |cfg.byId|), env, 0, i);
  }

  // ------------------------------------------------------------ histories of router calls

  datatype Call = Call(role: ModelRole, prompt: string, permission: string, env: Environment)

  function AfterCalls(cfg: Config, st: RouterState, calls: seq<Call>): RouterState
    requires Terminating(cfg)
    decreases |calls|
  {
    if calls == [] then st
    else
      var c := calls[|calls| - 1];
      InvokeRole(cfg, AfterCalls(cfg, st, calls[..|calls| - 1]), c.role, c.prompt, c.permission, c.env).0
  }

  /** The readings a model's limiter was given. */
  function Clock(visits: seq<Visit>, id: string): seq<real> {
    if visits == [] then []
    else
      var v := visits[|visits| - 1];
      Clock(visits[..|visits| - 1], id) + if v.modelId == id then [v.now] else []
  }

  /** Whether its adapter was called at each of them. */
  function Calls(visits: seq<Visit>, id: string): (c: seq<bool>)
    ensures |c| == |Clock(visits, id)|
  {
    if visits == [] then []
    else
      var v := visits[|visits| - 1];
      Calls(visits[..|visits| - 1], id) + if v.modelId == id then [v.called] else []
  }

  /** A model's limiter has the state its readings leave, and the adapter was called only when the
      limiter answered yes. */
  ghost predicate Paced(st: RouterState, id: string, rpm: nat, start: real) {
    var clock := Clock(st.visits, id);
    && id in st.limiters
    && st.limiters[id] == After(rpm, start, clock)
    && forall k: nat | k < |clock| && Calls(st.visits, id)[k] :: Answers(rpm, start, clock)[k]
  }

  lemma VisitsGrow(visits: seq<Visit>, v: Visit, id: string)
    ensures Clock(visits + [v], id) == Clock(visits, id) + if v.modelId == id then [v.now] else []
    ensures Calls(visits + [v], id) == Calls(visits, id) + if v.modelId == id then [v.called] else []
  {
    assert (visits + [v])[..|visits|] == visits;
  }

  lemma AskingKeepsPace(cfg: Config, st: RouterState, s: ModelSpec, m: Moment, id: string, rpm: nat, start: real)
    requires Paced(st, id, rpm, start)
    ensures Paced(Asked(cfg, st, s, m), id, rpm, start)
  {
    hide After, Answers, AllowAt, Clock, Calls;
    var admitted := Admits(st.limiters, s, m.now);
    var v := Visit(s.modelId, m.now, admitted, admitted && s.provider in cfg.adapters);
    VisitsGrow(st.visits, v, id);
    if s.modelId == id {
      var clock, calls := Clock(st.visits, id), Calls(st.visits, id);
      HistoryGrows(rpm, start, clock, m.now);
      var later := clock + [m.now];
      forall k: nat | k < |later| && (calls + [v.called])[k] ensures Answers(rpm, start, later)[k] {
        if k < |clock| { assert calls[k]; }
      }
    } else {
      assert Clock(st.visits, id) + [] == Clock(st.visits, id);
      assert Calls(st.visits, id) + [] == Calls(st.visits, id);
    }
  }

  lemma RecordingKeepsPace(cfg: Config, st: RouterState, s: ModelSpec, prompt: string, reply: Reply, status: RouteStatus,
                           id: string, rpm: nat, start: real)
    requires Paced(st, id, rpm, start) && reply.Replied?
    ensures Paced(Recorded(cfg, st, s, prompt, reply, status).0, id, rpm, start)
  {
    hide After, Answers, Clock, Calls, PerformAll, Invoke;
  }

  lemma {:induction false} RoutingKeepsPace(cfg: Config, st: RouterState, s: ModelSpec, prompt: string, env: Environment, k: nat,
                                            status: RouteStatus, n: nat, id: string, rpm: nat, start: real)
    requires EndsWithin(cfg.byId, s, n) && Paced(st, id, rpm, start)
    ensures Paced(InvokeModel(cfg, st, s, prompt, env, k, status, n).0, id, rpm, start)
    decreases n
  {
    hide Paced, Asked, Works, Recorded;
    AskingKeepsPace(cfg, st, s, env(k), id, rpm, start);
    if Works(cfg, st, s, env(k)) {
      WorkingReplies(cfg, st, s, env(k));
      RecordingKeepsPace(cfg, Asked(cfg, st, s, env(k)), s, prompt, env(k).reply, status, id, rpm, start);
    } else {
      var next := NextOf(cfg.byId, s);
      if next.Some? {
        RoutingKeepsPace(cfg, Asked(cfg, st, s, env(k)), next.value, prompt, env, k + 1, FallbackUsed, n - 1, id, rpm, start);
      }
    }
  }

  lemma WorkingReplies(cfg: Config, st: RouterState, s: ModelSpec, m: Moment)
    requires Works(cfg, st, s, m)
    ensures m.reply.Replied?
  {
  }

  lemma {:induction false} CallsKeepPace(cfg: Config, st: RouterState, calls: seq<Call>, id: string, rpm: nat, start: real)
    requires Terminating(cfg) && Paced(st, id, rpm, start)
    ensures Paced(AfterCalls(cfg, st, calls), id, rpm, start)
    decreases |calls|
  {
    hide Paced, InvokeModel, EndsWithin;
    if calls != [] {
      var c := calls[|calls| - 1];
      var before := AfterCalls(cfg, st, calls[..|calls| - 1]);
      CallsKeepPace(cfg, st, calls[..|calls| - 1], id, rpm, start);
      SelectedIsDeclared(cfg.specs, c.role);
      var s := Select(cfg.specs, c.role);
      if s.Some? {
        assert EndsWithin(cfg.byId, s.value, |cfg.byId|);
        RoutingKeepsPace(cfg, before, s.value, c.prompt, c.env, 0, RouteOk, |cfg.byId|, id, rpm, start);
      }
    }
  }

  lemma {:induction false} FewerAdmitted(a: seq<bool>, b: seq<bool>, lo: nat, hi: nat)
    requires lo <= hi <= |a| == |b| && forall k: nat | k < |a| && a[k] :: b[k]
    ensures Admitted(a, lo, hi) <= Admitted(b, lo, hi)
  {
    if lo < hi { FewerAdmitted(a, b, lo, hi - 1); }
  }

  /** A router as it is built, its limiters made from the declared rates. */
  ghost predicate AsBuilt(cfg: Config, st: RouterState, start: string -> real) {
    st.limiters == Limiters(cfg.byId, map[], start) && st.visits == []
  }

  lemma FreshIsPaced(cfg: Config, st: RouterState, start: string -> real, id: string)
    requires AsBuilt(cfg, st, start) && id in cfg.byId
    ensures Paced(st, id, Rate(cfg.byId[id]), start(id))
  {
  }

  /** The rates compose: over any history of router calls, for any roles and in any environment, the
      adapter of a declared model is called within any window of its visits no more often than its
      declared rate, at least one per minute, and the time of the window allow. */
  lemma CallRateBound(cfg: Config, st: RouterState, start: string -> real, calls: seq<Call>, id: string, lo: nat, hi: nat)
    requires Terminating(cfg) && AsBuilt(cfg, st, start) && id in cfg.byId
    requires lo <= hi < |Clock(AfterCalls(cfg, st, calls).visits, id)|
    ensures var visits := AfterCalls(cfg, st, calls).visits;
            var rpm := Rate(cfg.byId[id]);
            Admitted(Calls(visits, id), lo, hi + 1) as real <= rpm as real + Refilled(rpm, Elapsed(Clock(visits, id), lo, hi))
  {
    hide AfterCalls, Terminating, AsBuilt, Refilled, Elapsed, After, Admitted;
    var rpm := Rate(cfg.byId[id]);
    FreshIsPaced(cfg, st, start, id);
    CallsKeepPace(cfg, st, calls, id, rpm, start(id));
    var visits := AfterCalls(cfg, st, calls).visits;
    var clock := Clock(visits, id);
    WindowBound(rpm, start(id), clock, lo, hi);
    FewerAdmitted(Calls(visits, id), Answers(rpm, start(id), clock), lo, hi + 1);
  }

  // ---------------------------------------------------------------- the recorded evidence

  /** The invocation files ledgered so far carry numbers up to the recorder's counter. */
  ghost predicate Numbered(names: seq<Name>, count: nat) {
    forall i | 0 <= i < |names| && names[i].LlmFile? :: names[i].number <= count
  }

  lemma InvokeIsProper(number: nat, model: string, prompt: string, reply: string, record: string)
    ensures AllProper(Invoke(number, model, prompt, reply, record))
  {
    var ops := Invoke(number, model, prompt, reply, record);
    var second, third := ops[1..], ops[1..][1..];
    assert second == [ops[1], ops[2]] && third == [ops[2]] && third[1..] == [];
    assert AllProper(third);
    assert AllProper(second);
  }

  lemma InvokeIsFresh(names: seq<Name>, number: nat, model: string, prompt: string, reply: string, record: string)
    requires number > 0 && Numbered(names, number - 1)
    ensures Fresh(names, Invoke(number, model, prompt, reply, record))
    ensures NamesAfter(names, Invoke(number, model, prompt, reply, record)) == names + [LlmFile(Invocation, number)]
  {
    var ops := Invoke(number, model, prompt, reply, record);
    var second, third := ops[1..], ops[1..][1..];
    assert second == [ops[1], ops[2]] && third == [ops[2]] && third[1..] == [];
    assert names + [] == names;
    forall part: LlmPart ensures LlmFile(part, number) !in names {}
    assert Fresh(names, third) && NamesAfter(names, third) == names + [LlmFile(Invocation, number)];
    assert Fresh(names, second) && NamesAfter(names, second) == NamesAfter(names, third);
  }

  /** A recorded call adds exactly one ledger entry, that of the structured record, and no artifact. */
  ghost predicate RecordedOnce(before: Evidence, after: Evidence, r: InvocationRecord, text: string) {
    && after.artifacts == before.artifacts
    && |after.writer.ledger.entries| == |before.writer.ledger.entries| + 1
    && before.writer.ledger.entries <= after.writer.ledger.entries
    && var e := after.writer.ledger.entries[|before.writer.ledger.entries|];
       && e.artifactType == LLM_INVOCATION && e.result == EntryInfo
       && e.artifactPath == PathOf(before, LlmFile(Invocation, r.number)) && e.hash == before.store.digest(text)
  }

  lemma LastWrite(ev: Evidence, op: Op)
    requires op.entry.Some? && !op.joins
    ensures var e := EntryOf(DraftOf(Put(ev, op).1, op.entry.value), ev.writer.ids(ev.writer.counter + 1));
            && Perform(ev, op).writer.ledger.entries == ev.writer.ledger.entries + [e]
            && Perform(ev, op).artifacts == ev.artifacts
            && e.artifactPath == PathOf(ev, op.name) && e.hash == ev.store.digest(op.data)
            && e.artifactType == op.artifactType && e.result == op.entry.value.result
  {
  }

  lemma StoredWrite(ev: Evidence, op: Op)
    requires op.entry.None? && !op.joins
    ensures Perform(ev, op).writer == ev.writer && Perform(ev, op).artifacts == ev.artifacts
    ensures Perform(ev, op).layout == ev.layout && Perform(ev, op).store.digest == ev.store.digest
  {
  }

  /** The three writes of an invocation: two files that are only stored, and the record. */
  ghost predicate Triple(ops: seq<Op>, n: nat, prompt: string, reply: string, text: string) {
    && |ops| == 3
    && ops[0].name == LlmFile(Prompt, n) && ops[0].data == prompt && ops[0].entry.None? && !ops[0].joins
    && ops[1].name == LlmFile(Reply, n) && ops[1].data == reply && ops[1].entry.None? && !ops[1].joins
    && ops[2].name == LlmFile(Invocation, n) && ops[2].data == text && !ops[2].joins
    && ops[2].entry.Some? && ops[2].entry.value.result == EntryInfo && ops[2].artifactType == LLM_INVOCATION
  }

  lemma InvokeIsTriple(n: nat, model: string, prompt: string, reply: string, text: string)
    ensures Triple(Invoke(n, model, prompt, reply, text), n, prompt, reply, text)
  {
  }

  function Written(ev: Evidence, ops: seq<Op>): Evidence
    requires |ops| == 3
  {
    Perform(Perform(Perform(ev, ops[0]), ops[1]), ops[2])
  }

  lemma RecordedInThree(cfg: Config, st: RouterState, s: ModelSpec, prompt: string, reply: Reply, status: RouteStatus)
    requires reply.Replied?
    ensures var record := RecordFor(st.ev, st.count + 1, s, prompt, reply, status);
            var ops := Invoke(st.count + 1, s.modelId, prompt, reply.text, cfg.text(record));
            && Triple(ops, st.count + 1, prompt, reply.text, cfg.text(record))
            && Recorded(cfg, st, s, prompt, reply, status) == (st.(ev := Written(st.ev, ops), count := st.count + 1), record)
  {
    hide Perform, PerformAll, RecordFor, Invoke;
    var record := RecordFor(st.ev, st.count + 1, s, prompt, reply, status);
    var ops := Invoke(st.count + 1, s.modelId, prompt, reply.text, cfg.text(record));
    InvokeIsTriple(st.count + 1, s.modelId, prompt, reply.text, cfg.text(record));
    assert ops == [ops[0], ops[1], ops[2]];
    ThreeOps(st.ev, ops[0], ops[1], ops[2]);
  }

  lemma WrittenIsOnce(ev: Evidence, ops: seq<Op>, n: nat, prompt: string, reply: string, text: string, r: InvocationRecord)
    requires Triple(ops, n, prompt, reply, text) && r.number == n
    ensures RecordedOnce(ev, Written(ev, ops), r, text)
  {
    hide Perform, DraftOf, EntryOf, Put;
    StoredWrite(ev, ops[0]);
    StoredWrite(Perform(ev, ops[0]), ops[1]);
    LastWrite(Perform(Perform(ev, ops[0]), ops[1]), ops[2]);
  }

  lemma RecordingIsOnce(cfg: Config, st: RouterState, s: ModelSpec, prompt: string, reply: Reply, status: RouteStatus)
    requires reply.Replied?
    ensures var (after, record) := Recorded(cfg, st, s, prompt, reply, status);
            RecordedOnce(st.ev, after.ev, record, cfg.text(record)) && after.count == st.count + 1 == record.number
  {
    hide Written, Recorded, Triple, RecordedOnce, Invoke;
    var record := RecordFor(st.ev, st.count + 1, s, prompt, reply, status);
    var ops := Invoke(st.count + 1, s.modelId, prompt, reply.text, cfg.text(record));
    RecordedInThree(cfg, st, s, prompt, reply, status);
    WrittenIsOnce(st.ev, ops, st.count + 1, prompt, reply.text, cfg.text(record), record);
  }

  ghost predicate Holds(ev: Evidence, path: string, data: string) {
    path in ev.store.files && ev.store.files[path] == data
  }

  lemma FileWritten(ev: Evidence, op: Op)
    ensures Holds(Perform(ev, op), PathOf(ev, op.name), op.data) && Perform(ev, op).layout == ev.layout
  {
  }

  lemma FileKept(ev: Evidence, op: Op, path: string, data: string)
    requires Holds(ev, path, data) && path != PathOf(ev, op.name)
    ensures Holds(Perform(ev, op), path, data)
  {
  }

  lemma WrittenFiles(ev: Evidence, ops: seq<Op>, n: nat, prompt: string, reply: string, text: string)
    requires Triple(ops, n, prompt, reply, text) && GoodLayout(ev.layout)
    ensures Holds(Written(ev, ops), PathOf(ev, LlmFile(Prompt, n)), prompt)
    ensures Holds(Written(ev, ops), PathOf(ev, LlmFile(Reply, n)), reply)
  {
    hide Perform, GoodLayout, Holds;
    PartsApart(ev.layout, n);
    var first := Perform(ev, ops[0]);
    var second := Perform(first, ops[1]);
    FileWritten(ev, ops[0]);
    FileWritten(first, ops[1]);
    FileKept(first, ops[1], PathOf(ev, LlmFile(Prompt, n)), prompt);
    FileKept(second, ops[2], PathOf(ev, LlmFile(Prompt, n)), prompt);
    FileKept(second, ops[2], PathOf(ev, LlmFile(Reply, n)), reply);
  }

  /** The request and the reply are stored, under the paths and with the hashes the record gives. */
  lemma RequestAndReplyAreStored(cfg: Config, st: RouterState, s: ModelSpec, prompt: string, reply: Reply, status: RouteStatus)
    requires reply.Replied? && GoodLayout(st.ev.layout)
    ensures var (after, r) := Recorded(cfg, st, s, prompt, reply, status);
            && Holds(after.ev, r.request.path, prompt) && r.requestHash == st.ev.store.digest(prompt)
            && Holds(after.ev, r.response.path, reply.text) && r.responseHash == st.ev.store.digest(reply.text)
  {
    hide Written, Recorded, Triple, GoodLayout, Invoke, Holds;
    var record := RecordFor(st.ev, st.count + 1, s, prompt, reply, status);
    var ops := Invoke(st.count + 1, s.modelId, prompt, reply.text, cfg.text(record));
    RecordedInThree(cfg, st, s, prompt, reply, status);
    WrittenFiles(st.ev, ops, st.count + 1, prompt, reply.text, cfg.text(record));
  }

  lemma PartsApart(f: Layout, n: nat)
    requires GoodLayout(f)
    ensures f(LlmFile(Prompt, n)).path != f(LlmFile(Reply, n)).path
    ensures f(LlmFile(Prompt, n)).path != f(LlmFile(Invocation, n)).path
    ensures f(LlmFile(Reply, n)).path != f(LlmFile(Invocation, n)).path
  {
  }

  lemma RecordingKeepsEvidence(cfg: Config, st: RouterState, s: ModelSpec, prompt: string, reply: Reply,
                               status: RouteStatus, names: seq<Name>)
    requires reply.Replied? && Sound(st.ev, names) && Numbered(names, st.count)
    ensures var after := Recorded(cfg, st, s, prompt, reply, status).0;
            var names' := names + [LlmFile(Invocation, st.count + 1)];
            Sound(after.ev, names') && Numbered(names', after.count)
  {
    hide Grown, Agreement, PerformAll, Invoke, NamesAfter, AllProper, Fresh;
    var (after, record) := Recorded(cfg, st, s, prompt, reply, status);
    var ops := Invoke(st.count + 1, s.modelId, prompt, reply.text, cfg.text(record));
    InvokeIsProper(st.count + 1, s.modelId, prompt, reply.text, cfg.text(record));
    InvokeIsFresh(names, st.count + 1, s.modelId, prompt, reply.text, cfg.text(record));
    RunGrows(st.ev, names, ops);
    RunKeepsAgreement(st.ev, names, ops);
  }

  ghost predicate Evident(st: RouterState, names: seq<Name>) {
    Sound(st.ev, names) && Numbered(names, st.count)
  }

  lemma {:induction false} RoutingKeepsEvidence(cfg: Config, st: RouterState, s: ModelSpec, prompt: string, env: Environment,
                                                k: nat, status: RouteStatus, n: nat, names: seq<Name>)
    returns (later: seq<Name>)
    requires EndsWithin(cfg.byId, s, n) && Evident(st, names)
    ensures Evident(InvokeModel(cfg, st, s, prompt, env, k, status, n).0, later)
    decreases n
  {
    hide Sound, Numbered, Asked, Works, Recorded;
    AskingIsSilent(cfg, st, s, env(k));
    var asked := Asked(cfg, st, s, env(k));
    if Works(cfg, st, s, env(k)) {
      WorkingReplies(cfg, st, s, env(k));
      RecordingKeepsEvidence(cfg, asked, s, prompt, env(k).reply, status, names);
      later := names + [LlmFile(Invocation, asked.count + 1)];
    } else {
      var next := NextOf(cfg.byId, s);
      if next.Some? {
        later := RoutingKeepsEvidence(cfg, asked, next.value, prompt, env, k + 1, FallbackUsed, n - 1, names);
      } else {
        later := names;
      }
    }
  }

  lemma AskingIsSilent(cfg: Config, st: RouterState, s: ModelSpec, m: Moment)
    ensures Asked(cfg, st, s, m).ev == st.ev && Asked(cfg, st, s, m).count == st.count
  {
  }

  /** Over any history of router calls the ledger stays grown by its writer, and every entry's hash
      is that of the bytes stored at its path: the counter never names a ledgered file again. */
  lemma {:induction false} CallsKeepEvidence(cfg: Config, st: RouterState, calls: seq<Call>, names: seq<Name>)
    returns (later: seq<Name>)
    requires Terminating(cfg) && Evident(st, names)
    ensures Evident(AfterCalls(cfg, st, calls), later)
    decreases |calls|
  {
    hide Evident, InvokeModel, EndsWithin;
    later := names;
    if calls != [] {
      var c := calls[|calls| - 1];
      var before := AfterCalls(cfg, st, calls[..|calls| - 1]);
      later := CallsKeepEvidence(cfg, st, calls[..|calls| - 1], names);
      SelectedIsDeclared(cfg.specs, c.role);
      var s := Select(cfg.specs, c.role);
      if s.Some? {
        assert EndsWithin(cfg.byId, s.value, |cfg.byId|);
        if c.permission == "" || c.permission in s.value.permissions {
          later := RoutingKeepsEvidence(cfg, before, s.value, c.prompt, c.env, 0, RouteOk, |cfg.byId|, later);
        }
      }
    }
  }

  // --------------------------------------------------------------------------- objects

  /** The recorder: it numbers the invocations, stores three files and ledgers one. */
  class LLMInvocationRecorder {
    const text: InvocationRecord -> string
    var ev: Evidence
    var counter: nat

    constructor (ev: Evidence, text: InvocationRecord -> string)
      ensures this.ev == ev && this.text == text && counter == 0
    {
      this.ev, this.text, counter := ev, text, 0;
    }

    method Record(ghost cfg: Config, ghost st: RouterState, spec: ModelSpec, prompt: string, reply: Reply, status: RouteStatus)
      returns (record: InvocationRecord)
      requires reply.Replied? && st.ev == ev && st.count == counter && cfg.text == text
      modifies this
      ensures (st.(ev := ev, count := counter), record) == Recorded(cfg, st, spec, prompt, reply, status)
    {
      hide Perform, Recorded, Invoke, RecordFor;
      RecordedInThree(cfg, st, spec, prompt, reply, status);
      counter := counter + 1;
      record := RecordFor(ev, counter, spec, prompt, reply, status);
      var writes := Invoke(counter, spec.modelId, prompt, reply.text, text(record));
      ev := Perform(ev, writes[0]);
      ev := Perform(ev, writes[1]);
      ev := Perform(ev, writes[2]);
    }
  }

  /** The router object. `n` bounds the rest of the fallback path. */
  class ModelRouter {
    const cfg: Config
    const recorder: LLMInvocationRecorder
    var limiters: map<string, Bucket>
    ghost var visits: seq<Visit>

    ghost function View(): RouterState
      reads this, recorder
    {
      RouterState(limiters, recorder.ev, recorder.counter, visits)
    }

    ghost predicate Valid()
      reads this
    {
      recorder.text == cfg.text && cfg.byId == ById(cfg.specs)
    }

    constructor (specs: seq<ModelSpec>, adapters: set<string>, recorder: LLMInvocationRecorder,
                 supplied: map<string, Bucket>, start: string -> real)
      ensures Valid() && cfg == Config(specs, ById(specs), adapters, recorder.text) && this.recorder == recorder
      ensures View() == RouterState(Limiters(ById(specs), supplied, start), recorder.ev, recorder.counter, [])
    {
      this.cfg := Config(specs, ById(specs), adapters, recorder.text);
      this.recorder := recorder;
      limiters := Limiters(ById(specs), supplied, start);
      visits := [];
    }

    /** Ask the limiter, if there is one. */
    method Admit(s: ModelSpec, now: real) returns (admitted: bool)
      modifies this`limiters
      ensures admitted == Admits(old(limiters), s, now) && limiters == Router.Drawn(old(limiters), s, now)
    {
      admitted := true;
      if s.modelId in limiters {
        var taken := AllowAt(limiters[s.modelId], now);
        limiters := limiters[s.modelId := taken.0];
        admitted := taken.1;
      }
    }

    method InvokeOn(s: ModelSpec, prompt: string, env: Environment, k: nat, status: RouteStatus, ghost n: nat)
      returns (r: RouterResult)
      requires Valid() && EndsWithin(cfg.byId, s, n)
      modifies this, recorder
      ensures Valid() && (View(), r) == InvokeModel(cfg, old(View()), s, prompt, env, k, status, n)
      decreases n, 1
    {
      hide AllowAt, Recorded, EndsWithin;
      ghost var st := View();
      var admitted := Admit(s, env(k).now);
      var called := admitted && s.provider in cfg.adapters;
      visits := visits + [Visit(s.modelId, env(k).now, admitted, called)];
      assert View() == Asked(cfg, st, s, env(k));
      if !admitted {
        r := FallBackFrom(s, prompt, env, k + 1, LimitReached, n);
      } else if s.provider !in cfg.adapters {
        r := FallBackFrom(s, prompt, env, k + 1, NoAdapter, n);
      } else if env(k).reply.Raised? {
        r := FallBackFrom(s, prompt, env, k + 1, CallFailed, n);
      } else {
        var record := recorder.Record(cfg, View(), s, prompt, env(k).reply, status);
        r := RouterResult(status, Some(record), NotRefused, s.modelId);
      }
    }

    method FallBackFrom(s: ModelSpec, prompt: string, env: Environment, k: nat, reason: Refusal, ghost n: nat)
      returns (r: RouterResult)
      requires Valid() && EndsWithin(cfg.byId, s, n)
      modifies this, recorder
      ensures Valid() && (View(), r) == FallBack(cfg, old(View()), s, prompt, env, k, reason, n)
      decreases n, 0
    {
      var next := NextOf(cfg.byId, s);
      if next.None? {
        return RouterResult(Throttled, None, reason, s.modelId);
      }
      r := InvokeOn(next.value, prompt, env, k, FallbackUsed, n - 1);
      if r.record.Some? {
        r := r.(status := FallbackUsed);
      }
    }

    method Invoke(role: ModelRole, prompt: string, permission: string, env: Environment) returns (r: RouterResult)
      requires Valid() && Terminating(cfg)
      modifies this, recorder
      ensures Valid() && (View(), r) == InvokeRole(cfg, old(View()), role, prompt, permission, env)
    {
      hide EndsWithin, InvokeModel;
      var spec := Select(cfg.specs, role);
      if spec.None? {
        return RouterResult(NoModelForRole, None, Unbound, "");
      }
      if permission != "" && permission !in spec.value.permissions {
        return RouterResult(PermissionDenied, None, NotPermitted, "");
      }
      SelectedIsDeclared(cfg.specs, role);
      assert EndsWithin(cfg.byId, spec.value, |cfg.byId|);
      r := InvokeOn(spec.value, prompt, env, 0, RouteOk, |cfg.byId|);
    }
  }
}
