/**
 The ordering of the two state machines and the guard on leaving a state: no state is left unless the
 artifacts it demands are present, matched by basename.
 */
module StateMachine {
  import opened Core
  import opened Text

  datatype State =
    | INTAKE | REFINE | PLAN | DESIGN_GATE | AGENT_INVOKE | DIFF_CAPTURE | TESTING | VERIFY | EVALUATE
    | MEMORY_UPDATE | PR_GATE | AGENT_INVOKE_READONLY | EVIDENCE_CAPTURE | VERIFY_ANALYSIS | BACKLOG_UPDATE
    | STOP_OR_LOOP

  /** The demanded artifacts. */
  datatype Doc =
    | TaskContract | RunManifest | ScrumMappingDoc | AcceptanceCriteria | ComplexityRisk
    | TaskPlan | CommandPlan | ScopePlan | RollbackPlan | DodLockDoc
    | DesignOptions | SelectedDesign | StrategicContract
    | AgentInvocationDoc | AgentSummaryDoc | RawAgentOutput | FileChangeRecord
    | DiffDoc | GitStatusDoc | DiffCheckDoc | TestOutputDoc | VerifierReportDoc | EvidenceLedgerDoc
    | EvaluationDoc | MemoryRecordDoc | MemorySkipDoc | PrGateDoc | FinalCheckpoint
    | RepoTreeDoc | CommandDiscoveryDoc | ReadinessDoc | BacklogDoc

  function Title(d: Doc): string {
    match d
    case TaskContract => "task_contract.json"
    case RunManifest => "run_manifest.json"
    case ScrumMappingDoc => "scrum_mapping.json"
    case AcceptanceCriteria => "acceptance_criteria.json"
    case ComplexityRisk => "complexity_risk.json"
    case TaskPlan => "task_plan.json"
    case CommandPlan => "command_plan.json"
    case ScopePlan => "scope_plan.json"
    case RollbackPlan => "rollback_plan.json"
    case DodLockDoc => "definition_of_done_lock.json"
    case DesignOptions => "design_options.json"
    case SelectedDesign => "selected_design.json"
    case StrategicContract => "strategic_programming_contract.json"
    case AgentInvocationDoc => "agent_invocation.md"
    case AgentSummaryDoc => "agent_summary.md"
    case RawAgentOutput => "raw_agent_output.log"
    case FileChangeRecord => "file_change_record.json"
    case DiffDoc => "diff.patch"
    case GitStatusDoc => "git_status.log"
    case DiffCheckDoc => "diff_check.log"
    case TestOutputDoc => "test_output.log"
    case VerifierReportDoc => "verifier_report.json"
    case EvidenceLedgerDoc => "evidence_ledger.json"
    case EvaluationDoc => "evaluation_report.json"
    case MemoryRecordDoc => "memory_update_record.json"
    case MemorySkipDoc => "memory_update_skip_reason.json"
    case PrGateDoc => "pr_gate_report.json"
    case FinalCheckpoint => "final_checkpoint.json"
    case RepoTreeDoc => "repo_tree.log"
    case CommandDiscoveryDoc => "command_discovery.log"
    case ReadinessDoc => "codebase_ai_readiness_report.json"
    case BacklogDoc => "ai_safety_gap_backlog.json"
  }

  function Order(t: RunType): seq<State> {
    match t
    case Implementation =>
      [INTAKE, REFINE, PLAN, DESIGN_GATE, AGENT_INVOKE, DIFF_CAPTURE, TESTING, VERIFY, EVALUATE, MEMORY_UPDATE, PR_GATE,
       STOP_OR_LOOP]
    case ReadOnlyAnalysis =>
      [INTAKE, REFINE, PLAN, DESIGN_GATE, AGENT_INVOKE_READONLY, EVIDENCE_CAPTURE, VERIFY_ANALYSIS, EVALUATE, BACKLOG_UPDATE,
       STOP_OR_LOOP]
  }

  /** The artifacts required to leave a state, the alternatives of MEMORY_UPDATE aside. */
  function Required(t: RunType, s: State): seq<Doc> {
    match s
    case INTAKE => [TaskContract, RunManifest]
    case REFINE => [ScrumMappingDoc, AcceptanceCriteria, ComplexityRisk]
    case PLAN => [TaskPlan, CommandPlan, ScopePlan, RollbackPlan, DodLockDoc]
    case DESIGN_GATE => [DesignOptions, SelectedDesign, StrategicContract]
    case AGENT_INVOKE => [AgentInvocationDoc, AgentSummaryDoc, RawAgentOutput, FileChangeRecord]
    case DIFF_CAPTURE => [DiffDoc, GitStatusDoc, DiffCheckDoc]
    case TESTING => [TestOutputDoc]
    case VERIFY => [VerifierReportDoc, EvidenceLedgerDoc]
    case EVALUATE => [EvaluationDoc]
    case MEMORY_UPDATE => [MemoryRecordDoc]
    case PR_GATE => [PrGateDoc, FinalCheckpoint]
    case AGENT_INVOKE_READONLY => [RepoTreeDoc, CommandDiscoveryDoc]
    case EVIDENCE_CAPTURE => [ReadinessDoc, EvidenceLedgerDoc]
    case VERIFY_ANALYSIS => [VerifierReportDoc]
    case BACKLOG_UPDATE => [BacklogDoc, FinalCheckpoint]
    case STOP_OR_LOOP => []
  }

  /** Sets of artifacts of which any one is enough. */
  function Alternatives(s: State): seq<seq<Doc>> {
    if s == MEMORY_UPDATE then [[MemoryRecordDoc], [MemorySkipDoc]] else []
  }

  datatype Unknown = Unknown(state: State)

  function IndexOf(order: seq<State>, s: State): (i: nat)
    ensures i <= |order|
  {
    if order == [] then 0 else if order[0] == s then 0 else 1 + IndexOf(order[1..], s)
  }

  /** `next_state`: the next in order, none at the end, an error for a state of the other machine. */
  function NextState(t: RunType, s: State): Result<Option<State>, Unknown> {
    var order := Order(t);
    var i := IndexOf(order, s);
    if i == |order| then Err(Unknown(s))
    else if i + 1 == |order| then Ok(None)
    else Ok(Some(order[i + 1]))
  }

  // -------------------------------------------------------------------------- the guard

  datatype GuardReason = UnknownState(state: State) | MissingDoc(doc: Doc) | MissingChoice(options: seq<seq<Doc>>)

  function Basenames(paths: seq<string>): set<string> {
    set i | 0 <= i < |paths| :: Basename(paths[i])
  }

  predicate HasAll(names: set<string>, docs: seq<Doc>) {
    forall i | 0 <= i < |docs| :: Title(docs[i]) in names
  }

  predicate HasChoice(names: set<string>, options: seq<seq<Doc>>) {
    exists i | 0 <= i < |options| :: HasAll(names, options[i])
  }

  function Missing(names: set<string>, docs: seq<Doc>): seq<GuardReason> {
    if docs == [] then []
    else Missing(names, docs[..|docs| - 1])
         + if Title(docs[|docs| - 1]) in names then [] else [MissingDoc(docs[|docs| - 1])]
  }

  /** `transition_guard`: the reasons for not leaving a state. */
  function Guard(t: RunType, s: State, present: seq<string>): seq<GuardReason> {
    var names := Basenames(present);
    if s !in Order(t) then [UnknownState(s)]
    else if Alternatives(s) != [] then
      if HasChoice(names, Alternatives(s)) then [] else [MissingChoice(Alternatives(s))]
    else Missing(names, Required(t, s))
  }

  /** What a state demands of the artifacts present when it is left. */
  predicate Satisfied(t: RunType, s: State, names: set<string>) {
    if s == MEMORY_UPDATE then Title(MemoryRecordDoc) in names || Title(MemorySkipDoc) in names
    else HasAll(names, Required(t, s))
  }

  lemma {:induction false} NothingMissing(names: set<string>, docs: seq<Doc>)
    ensures Missing(names, docs) == [] <==> HasAll(names, docs)
  {
    hide Title;
    if docs != [] {
      var init := docs[..|docs| - 1];
      NothingMissing(names, init);
      if HasAll(names, docs) { assert forall i | 0 <= i < |init| :: Title(init[i]) == Title(docs[i]); }
      if HasAll(names, init) && Title(docs[|docs| - 1]) in names {
        forall i | 0 <= i < |docs| ensures Title(docs[i]) in names { if i < |init| { assert Title(init[i]) in names; } }
      }
    }
  }

  lemma ChoiceOfMemory(names: set<string>)
    ensures HasChoice(names, Alternatives(MEMORY_UPDATE)) <==> Title(MemoryRecordDoc) in names || Title(MemorySkipDoc) in names
  {
    hide Title;
    var options := Alternatives(MEMORY_UPDATE);
    assert HasAll(names, options[0]) <==> Title(MemoryRecordDoc) in names by { assert options[0][0] == MemoryRecordDoc; }
    assert HasAll(names, options[1]) <==> Title(MemorySkipDoc) in names by { assert options[1][0] == MemorySkipDoc; }
  }

  /** The guard passes exactly when the state is one of the machine and the artifacts it demands are
      there, either alternative serving for MEMORY_UPDATE. */
  lemma GuardIsExact(t: RunType, s: State, present: seq<string>)
    ensures Guard(t, s, present) == [] <==> s in Order(t) && Satisfied(t, s, Basenames(present))
  {
    hide Title, Basenames, Order, HasAll, HasChoice, Required;
    ChoiceOfMemory(Basenames(present));
    NothingMissing(Basenames(present), Required(t, s));
  }

  /** More artifacts never close a guard. */
  lemma GuardIsMonotone(t: RunType, s: State, few: seq<string>, many: seq<string>)
    requires Basenames(few) <= Basenames(many) && Guard(t, s, few) == []
    ensures Guard(t, s, many) == []
  {
    hide Title, Basenames, Order, Required, Guard;
    GuardIsExact(t, s, few);
    GuardIsExact(t, s, many);
  }

  /** Paths that name the same files: entry by entry the same basename. */
  ghost predicate SameNames(a: seq<string>, b: seq<string>) {
    |a| == |b| && forall i | 0 <= i < |a| :: Basename(a[i]) == Basename(b[i])
  }

  /** The guard sees basenames only. */
  lemma GuardIsBlind(t: RunType, s: State, a: seq<string>, b: seq<string>)
    requires SameNames(a, b)
    ensures Guard(t, s, a) == Guard(t, s, b)
  {
    hide Title, Basename;
    assert Basenames(a) == Basenames(b);
  }

  /** So it is blind to where a file is and to the style of the slashes. */
  lemma DirectoriesDoNotMatter(dir: string, name: string)
    requires Plain(name) && (dir == "" || dir[|dir| - 1] in {'/', '\\'})
    ensures SameNames([dir + name], [name])
  {
    hide Basename;
    BasenameOfFile(dir, name);
    BasenameOfFile("", name);
    assert "" + name == name;
  }

  // ------------------------------------------------------------------------ the guarded walk

  lemma OrderIndex(t: RunType, i: nat)
    requires i < |Order(t)|
    ensures IndexOf(Order(t), Order(t)[i]) == i
  {
    match t
    case Implementation => IndexFound(Order(t), i);
    case ReadOnlyAnalysis => IndexFound(Order(t), i);
  }

  lemma {:induction false} IndexFound(order: seq<State>, i: nat)
    requires i < |order| && forall j, k | 0 <= j < k < |order| :: order[j] != order[k]
    ensures IndexOf(order, order[i]) == i
  {
    if i > 0 {
      IndexFound(order[1..], i - 1);
      assert order[0] != order[i];
    }
  }

  /** Successors follow the order; only the terminal state has none. */
  lemma NextFollowsOrder(t: RunType, i: nat)
    requires i < |Order(t)|
    ensures NextState(t, Order(t)[i]) == Ok(if i + 1 < |Order(t)| then Some(Order(t)[i + 1]) else None)
    ensures Order(t)[i] == STOP_OR_LOOP <==> i == |Order(t)| - 1
  {
    hide Order, IndexOf;
    LastIsStop(t);
    OrderIndex(t, i);
    OrderIndex(t, |Order(t)| - 1);
  }

  lemma LastIsStop(t: RunType)
    ensures |Order(t)| > 0 && Order(t)[|Order(t)| - 1] == STOP_OR_LOOP
  {
  }

  /** What is present at each moment; artifacts may only be added. */
  type Arrivals = nat -> seq<string>

  ghost predicate Growing(present: Arrivals) {
    forall m: nat, n: nat {:trigger present(m), present(n)} :: m <= n ==> Basenames(present(m)) <= Basenames(present(n))
  }

  /** One try: leave the state if the guard lets us and there is a next one. */
  function Tried(t: RunType, s: State, present: seq<string>): State {
    if Guard(t, s, present) != [] then s
    else
      match NextState(t, s)
      case Ok(Some(next)) => next
      case _ => s
  }

  function Walk(t: RunType, present: Arrivals, n: nat): State {
    if n == 0 then Order(t)[0] else Tried(t, Walk(t, present, n - 1), present(n - 1))
  }

  /** The number of transitions made in the first n tries. */
  function Moves(t: RunType, present: Arrivals, n: nat): nat {
    if n == 0 then 0
    else Moves(t, present, n - 1) + if Walk(t, present, n) != Walk(t, present, n - 1) then 1 else 0
  }

  lemma TriedFollowsOrder(t: RunType, i: nat, present: seq<string>)
    requires i < |Order(t)|
    ensures Tried(t, Order(t)[i], present) ==
            if Guard(t, Order(t)[i], present) == [] && i + 1 < |Order(t)| then Order(t)[i + 1] else Order(t)[i]
  {
    hide Guard;
    NextFollowsOrder(t, i);
  }

  lemma Distinct(t: RunType, i: nat)
    requires i + 1 < |Order(t)|
    ensures Order(t)[i] != Order(t)[i + 1]
  {
    OrderIndex(t, i);
    OrderIndex(t, i + 1);
  }

  /** After any number of tries the walk is in the state its transitions lead to in order. */
  lemma {:induction false} WalkFollowsOrder(t: RunType, present: Arrivals, n: nat)
    ensures Moves(t, present, n) < |Order(t)| && Walk(t, present, n) == Order(t)[Moves(t, present, n)]
  {
    hide Guard, Tried, Order;
    if n > 0 {
      WalkFollowsOrder(t, present, n - 1);
      var i := Moves(t, present, n - 1);
      TriedFollowsOrder(t, i, present(n - 1));
      if i + 1 < |Order(t)| { Distinct(t, i); }
    } else {
      NonEmpty(t);
    }
  }

  lemma NonEmpty(t: RunType)
    ensures |Order(t)| > 0
  {
  }

  lemma SatisfiedGrows(t: RunType, s: State, few: set<string>, many: set<string>)
    requires few <= many && Satisfied(t, s, few)
    ensures Satisfied(t, s, many)
  {
    hide Title;
  }

  /** Wherever the walk is, everything that the states it has left demanded is present. */
  lemma {:induction false} WalkHoldsEvidence(t: RunType, present: Arrivals, n: nat, q: nat)
    requires Growing(present) && q < Moves(t, present, n)
    ensures q < |Order(t)| && Satisfied(t, Order(t)[q], Basenames(present(n)))
  {
    hide Guard, Tried, Order, Basenames, Satisfied;
    WalkFollowsOrder(t, present, n);
    if n > 0 {
      WalkFollowsOrder(t, present, n - 1);
      var i := Moves(t, present, n - 1);
      TriedFollowsOrder(t, i, present(n - 1));
      if q < i {
        WalkHoldsEvidence(t, present, n - 1, q);
      } else {
        GuardIsExact(t, Order(t)[i], present(n - 1));
      }
      SatisfiedGrows(t, Order(t)[q], Basenames(present(n - 1)), Basenames(present(n)));
    }
  }

  /** The walk is at its end exactly when it has made one transition less than there are states; it
      then holds the evidence of every state before the end. */
  lemma WalkEnds(t: RunType, present: Arrivals, n: nat)
    requires Growing(present)
    ensures Walk(t, present, n) == STOP_OR_LOOP <==> Moves(t, present, n) == |Order(t)| - 1
    ensures Walk(t, present, n) == STOP_OR_LOOP ==>
              forall q: nat | q < |Order(t)| - 1 :: Satisfied(t, Order(t)[q], Basenames(present(n)))
  {
    hide Order, Satisfied, Basenames, Walk, Growing;
    WalkFollowsOrder(t, present, n);
    NextFollowsOrder(t, Moves(t, present, n));
    if Walk(t, present, n) == STOP_OR_LOOP {
      forall q: nat | q < |Order(t)| - 1 ensures Satisfied(t, Order(t)[q], Basenames(present(n))) {
        WalkHoldsEvidence(t, present, n, q);
      }
    }
  }

  ghost predicate Supplied(t: RunType, present: Arrivals) {
    forall q: nat | q < |Order(t)| - 1 :: Satisfied(t, Order(t)[q], Basenames(present(q)))
  }

  /** When each state's artifacts are there in time, the walk makes a transition at every try and is at
      its end after exactly one try less than there are states, not before. */
  lemma {:induction false} SuppliedWalkIsDirect(t: RunType, present: Arrivals, n: nat)
    requires Supplied(t, present) && n < |Order(t)|
    ensures Moves(t, present, n) == n && Walk(t, present, n) == Order(t)[n]
    ensures Walk(t, present, n) == STOP_OR_LOOP <==> n == |Order(t)| - 1
  {
    hide Guard, Tried, Order, Basenames, Satisfied;
    NextFollowsOrder(t, n);
    if n > 0 {
      SuppliedWalkIsDirect(t, present, n - 1);
      assert Satisfied(t, Order(t)[n - 1], Basenames(present(n - 1)));
      GuardIsExact(t, Order(t)[n - 1], present(n - 1));
      TriedFollowsOrder(t, n - 1, present(n - 1));
      Distinct(t, n - 1);
    }
  }
}
