# Proofs about the control plane

A Dafny model of a control plane that lets agents change a repository only under evidence. A *run* is
created from a manifest, its *chain* of registered *handlers* is executed as numbered *attempts*, every
artifact is hashed and entered in an append-only *evidence ledger*, an independent *verifier* decides,
and only then may a pull request be opened; nothing is ever merged or deployed. The claim of the system
is that a PASS is worth something: that there was a diff, that the tests ran and passed, that the change
stayed in scope, and that whoever wrote it did not certify it. The project states that claim for whole
runs and for whole histories of API calls, and proves it together with the machinery it rests on.

`dafny verify dfyconfig.toml` checks everything.

## What is modelled

**Evidence.** `Text` builds the identities (decimals, entry ids, attempt ids, basenames, paths) and shows
them injective. `Gates` holds the ledger and the gates over it. `EvidenceWriter` and `ArtifactStore` are
the writer and the file store; `Names` are the files the handlers write, and `Evidence` the only three
ways in which the evidence of a run grows: recording an artifact, quarantining agent narrative,
recording a model invocation.

**Chain execution.** `Context` and `Executor` run a chain over *arbitrary* handlers, which may change the
context and the tree as they like; `ExecutorLaws` says what holds regardless. `Registry` has the seven
chains and `Handlers` the registered handlers as functions on the context; these are what the executor runs.
`ChainContext` has the handlers of control.py, implementation.py, verification.py, evaluation.py and pr.py
that matter most once more, as methods that update a context in place, each proved equal to its function.
What a handler learns from git, from commands, from a scanner or from a model comes from a `World`, over
which every theorem quantifies. `HandlerLaws` and `ResultLaws` say what each handler keeps
and what its result stands for, and `ResultLaws.Lawful` collects these laws; `ChainRuns`, `Thesis`,
`RunCoherence`, `EvidenceOrder` and `Footprint` are about whole runs of any handlers that obey them, which
the registered ones do (`ResultLaws.EffectsAreLawful`, `EvidenceOrder.RegisteredRuns`). The central results are `Thesis.PassIsEarned` and
`RunCoherence.ChangeIsEarned`; they need that nothing after the verifier disturbs what it looked at, that
a ledger which supports a PASS goes on supporting it, and that no ledgered file is written twice.
`PassingRuns` shows that there are such runs, for every chain.

**Models.** `RateLimiting` is the token bucket, characterised exactly over every call history and clock.
`Router` and `RouterLaws` are the mutually recursive routing over limiters, adapters and the invocation
recorder: when it returns at all, which model answers, and how often a model can be called.

**Runs.** `Records`, `Serialization`, `RunStore` and `RunStoreLaws` are the run records, their snapshots,
and the two stores: a map, and tables with foreign keys and uniqueness constraints that must agree with
the map; `AttemptRows` and `RunOrder` say what becomes of attempt rows and of the order of runs over whole
histories. `Runtime`, `Lifecycle`, `LifecycleLaws` and `StoredEvidence` are the API endpoints as transitions
of the stored records and of the disk, with the invariants that hold over every sequence of calls;
`SharedPlaces` says exactly when evidence survives them, and `Service` runs the same endpoints on the tables,
where they answer alike, and puts the parts together.
`StateMachine` is the ordering of states and the guard on leaving one.

Where the source changes an object step by step, there is a class whose methods are proved equal to a
function of the old state, and the laws are about that function.

## Where the code is less than its documentation promises

The model follows the code. These are the places where a promise fails, with the condition under which it
holds.

- Write authority (`backend/app/handlers/authority.py:24-36`) does not let a write-type handler change the
  repository: the snapshot that changes are measured against is taken once, so the next non-write handler
  is blocked for the change (`ExecutorLaws.WritersAreCaughtNext`), and in a registered chain a PASS means
  an unchanged tree, or one whose path is gone.
- Only a verifier may decide, says `docs/chain_of_responsibility.md:30`. The executor enforces it for results
  but not for the field: handlers that write the decision themselves pass every registered chain
  (`ExecutorLaws.UsurpersPass`). Decisions are those of the verifiers, over every chain and context, exactly
  when no registered handler writes one that outlives its own step (`ExecutorLaws.DecisionIsExact`), and
  verdicts are a function of the results exactly when such writes never change how the decision reads
  (`ExecutorLaws.VerdictIsExactlyDeclared`). The registered handlers write none (`EvidenceOrder.DefaultIsHonest`).
- The ledger of a run can say PASS and its verdict BLOCKED: the last handler closes the ledger and is then
  blamed for a changed tree. For each chain and each tree that the last handler may leave, the two agree on
  all requests and worlds exactly when that tree is unchanged or gone (`PassingRuns.AgreementIsExact`).
- A captured outcome without an `exit_code` key is recorded as a failed test and accepted by the test gate
  (`backend/app/handlers/implementation.py:204-212`); ledger and gate agree on a log exactly when it is not
  the case that a key is missing and every code that is there is zero (`ResultLaws.LedgerAgreesWithGate`).
- The model policy gate lets fallback cycles pass, on which routing does not return from an outage
  (`Router.PolicyAdmitsCycles`); routing returns in every state and environment exactly when the fallback
  path ends (`Router.TerminationIsExact`).
- `POST /runs/{id}/verify` takes the ledger it is given. A linked ledger without entries satisfies its gates,
  so a run that was never executed can reach PR_GATE (`LifecycleLaws.EmptyLedgerOpensPr`).
- Attempts of different runs do not always have different directories: the ids `a` and `./a` share them, and so
  do `b` and `a/../b`, and then one run writes over the evidence of the other
  (`SharedPlaces.SlashedTwinsOverwrite`). The evidence of all stored runs survives every sequence of calls exactly
  when no two of the ids that are executed name the same place (`SharedPlaces.SurvivalIsExact`); what that means
  for any two ids, relative or absolute, is `ArtifactStore.AttemptDirsCoincide`. A run can be created under any id,
  since creation takes it from the manifest, but the route for executing carries it as one path segment, so an id
  with a slash is executed only by calling the endpoint's function directly. Over the routes all evidence survives
  (`SharedPlaces.ServedEvidenceSurvives`).
- The tables list runs by creation time, the memory in the order of insertion. The two agree, with no other
  listing possible, exactly when the runs were first saved at strictly increasing times
  (`RunOrder.ListsAgree`); on a clock that stands still or steps back they do not
  (`RunOrder.TwoRunsMisordered`).
- A save never deletes attempt rows. A run's rows are those its record lists exactly when no earlier save of it
  listed more (`AttemptRows.RowsMirrorTheRecord`), which creating the run anew breaks
  (`AttemptRows.RecreatedRunKeepsRows`).

## Model

| member | source | states |
|---|---|---|
| RateLimiting.AdmissionCharacterised | backend/app/llm/rate_limit.py:20-29 | Over every call history and clock, call k is admitted iff for every earlier start i (and i = k) the admissions of i..k-1 plus one fit capacity plus refill over the elapsed time |
| RateLimiting.WindowBound | backend/app/llm/rate_limit.py:20-29 | Every window of calls admits at most the capacity plus what the time of the window refills |
| RateLimiting.MostPermissive | backend/app/llm/rate_limit.py:20-29 | No schedule that keeps all window bounds has admitted more at any point of any history |
| RateLimiting.TokensInRangeIff | backend/app/llm/rate_limit.py:13-18 | Tokens stay between 0 and the capacity over all histories iff the declared rate is not negative |
| RateLimiting.WaitingIsEnough | backend/app/llm/rate_limit.py:20-29 | With a positive rate, waiting 60/rate seconds guarantees admission whatever came before |
| RateLimiting.RateLimiter.constructor | backend/app/llm/rate_limit.py:13-18 | The limiter starts full, at the reading of its clock |
| RateLimiting.RateLimiter.Take | backend/app/llm/rate_limit.py:20-29 | The object's update is the bucket step: refill for the elapsed time, capped, then one token or a refusal |
| RateLimiting.RateLimiter.Allow | backend/app/llm/rate_limit.py:20-29 | The object's answers are those of its whole history |
| Router.TerminationIsExact | backend/app/llm/base.py:77-98 | Routing a model returns in every state and environment iff its fallback path ends within as many steps as there are declared ids |
| Router.EndsSoon | backend/app/llm/base.py:91-94 | A fallback path that ends at all ends within that many steps |
| Router.PathsHaveNoRepeats | backend/app/llm/base.py:91-98 | A path that ends visits no model twice |
| Router.PolicyAdmitsCycles | backend/app/gates/model_policy_gate.py:34-60 | The model policy gate passes two models that are each other's fallback, on which routing does not return from an outage |
| RouterLaws.FirstWorkableAnswers | backend/app/llm/base.py:77-98 | The first model on the path with a token, an adapter and a successful call answers; each model up to it is asked once and none after it; status OK only for the first, FALLBACK_USED for a later one, THROTTLED naming the last model when none works |
| RouterLaws.OneDrawEach | backend/app/llm/base.py:77-80 | Asking draws once on the limiter of each asked model, at its moment, and on no other |
| RouterLaws.DeclaredPathsAreDistinct | backend/app/llm/base.py:53-59 | With every model standing for its own id, a fallback path never comes back to an id |
| RouterLaws.ByIdFindsLast | backend/app/llm/base.py:54 | Of models with the same id, the last declared one is found by it |
| RouterLaws.RefusedBeforeAsking | backend/app/llm/base.py:64-75 | NO_MODEL_FOR_ROLE iff no model has the role, PERMISSION_DENIED iff the selected model lacks the permission; both change nothing, and no other model's permissions are consulted |
| RouterLaws.CallRateBound | backend/app/llm/base.py:56-80 | Over any history of router calls a declared model's adapter is called in any window of its visits at most its declared rate (at least 1 per minute) plus the refill of the window |
| RouterLaws.CallsKeepEvidence | backend/app/llm/recorder.py:41-90 | Over any history of router calls the ledger stays grown by its writer and every entry's hash is that of the bytes stored at its path |
| RouterLaws.RecordingIsOnce | backend/app/llm/recorder.py:49-90 | A recorded call appends exactly one ledger entry, that of the structured record, and no artifact, and advances the counter by one |
| RouterLaws.RequestAndReplyAreStored | backend/app/llm/recorder.py:54-66 | Request and reply are stored under the paths and with the hashes the record gives, and outlive the third write |
| RouterLaws.LLMInvocationRecorder.Record | backend/app/llm/recorder.py:41-90 | The recorder object does what the recording function says |
| RouterLaws.ModelRouter.constructor | backend/app/llm/base.py:45-59 | Limiters that are missing or an empty dictionary are made from the declared rates, at least 1 per minute |
| RouterLaws.ModelRouter.Admit | backend/app/llm/base.py:78-80 | One draw on the model's limiter if it has one; admission otherwise |
| RouterLaws.ModelRouter.InvokeOn | backend/app/llm/base.py:77-89 | The mutually recursive object methods refine the routing functions, with the rest of the path as termination measure |
| RouterLaws.ModelRouter.FallBackFrom | backend/app/llm/base.py:91-98 | As above, for the fallback step and its status override |
| RouterLaws.ModelRouter.Invoke | backend/app/llm/base.py:64-75 | As above, for the entry point |
| Gates.EvidenceGateExact | backend/app/gates/evidence_gate.py:33-75 | The gate has no reasons iff the ledger is linked, not self-certified, all entries hashed and unquarantined, no command lacks a path, non-empty ids are pairwise distinct, and required types are present |
| Gates.EvidenceGate | backend/app/gates/evidence_gate.py:25-75 | The loops with their growing sets compute exactly those reasons |
| Gates.ScanEntries | backend/app/gates/evidence_gate.py:44-69 | The entry loop computes the entry reasons and the present types |
| Gates.EntriesClean | backend/app/gates/evidence_gate.py:44-69 | The loop finds nothing iff every entry is sound and no id repeats an earlier one |
| Gates.OutcomesClean | backend/app/gates/test_gate.py:47-74 | The outcome loop finds nothing iff every outcome is an approved skip or a captured run that exited 0 |
| Gates.TestGate | backend/app/gates/test_gate.py:32-76 | The gate passes iff all outcomes are accepted and, where tests apply to an implementation run, one of them ran |
| Gates.ScopeClean | backend/app/gates/scope_gate.py:36-60 | The path loop finds nothing iff every changed path is in scope under the order of its rules |
| Gates.ScopeGate | backend/app/gates/scope_gate.py:20-60 | The loop with its continues computes those reasons |
| Gates.SelfCertificationGate | backend/app/gates/no_self_certification_gate.py:14-43 | The gate passes iff neither the run ids nor the agent ids are known to be the same, no summary is used as evidence, and nothing is marked done without a PASS |
| EvidenceWriter.LedgerGrows | backend/app/storage/evidence_writer.py:32-61 | Over any sequence of appends ids count up without gaps, earlier ledgers are prefixes of later ones, and exactly the hashed drafts are recorded |
| EvidenceWriter.BuiltHasDistinctIds | backend/app/storage/evidence_writer.py:47-48 | A written ledger never repeats an id |
| EvidenceWriter.SupportSurvives | backend/app/storage/evidence_writer.py:32-61 | A written ledger that supports a PASS goes on supporting it after appends iff nothing unsound was appended |
| EvidenceWriter.EvidenceLedgerWriter.Record | backend/app/storage/evidence_writer.py:32-61 | The object appends a hashed entry under the next id, and refuses an unhashed one |
| EvidenceWriter.EvidenceLedgerWriter.Close | backend/app/storage/evidence_writer.py:80-82 | Finalizing sets the ledger's status and nothing else |
| Text.EntryIdInjective | backend/app/storage/evidence_writer.py:48 | The ids E0001, E0002, ... are injective for all numbers, past 9999 too |
| Text.AttemptIdInjective | backend/app/runtime/workspace_allocator.py:64-65 | run id + "-a" + number determines both, for arbitrary run ids, those ending in "-a<digits>" included |
| Text.ParseRendered | backend/app/storage/artifact_store.py:37-39 | Reading a rendered path back gives the path, so different paths render differently |
| Text.BasenameOfFile | backend/app/gates/evidence_gate.py:21-22 | The basename of a file is its name under any directory and either slash style |
| ArtifactStore.AttemptsOfOneRunAreApart | backend/app/storage/artifact_store.py:37-39 | Two attempts of a run share a directory iff they are the same attempt |
| ArtifactStore.AttemptDirsCoincide | backend/app/storage/artifact_store.py:37-39 | Attempts of any two run ids, absolute ones and ones with parent segments included, share a directory iff the numbers agree and the ids name the same place under the root |
| ArtifactStore.SamePlaceIsSpelling | backend/app/storage/artifact_store.py:37-39 | For two relative ids without parent segments, and for two such absolute ones, the same place means the same spelling up to redundant slashes and "." segments |
| ArtifactStore.ParentNamesSamePlace | backend/app/storage/artifact_store.py:37-39 | An id below a segment that its parent takes back, such as a/../b, names the place that it names alone |
| ArtifactStore.AttemptFilesCoincide | backend/app/storage/artifact_store.py:37-39 | Files of two attempts coincide iff their names, their numbers and the places of their runs do |
| ArtifactStore.DottedRunCollides | backend/app/storage/artifact_store.py:37-39 | Every plain run id has a twin, itself after "./", whose attempts write to the same files |
| ArtifactStore.PlainRunsAreApart | backend/app/storage/artifact_store.py:37-39 | Run ids without a slash name places of their own |
| ArtifactStore.OtherAttemptsUntouched | backend/app/storage/artifact_store.py:41-69 | Writing under one attempt leaves the files of every other attempt of the run as they were |
| ArtifactStore.LocalArtifactStore.Put | backend/app/storage/artifact_store.py:41-69 | The object writes the bytes at the run's path and returns their hash |
| Names.SourceNamesAreGood | backend/app/chains/chain_executor.py:186-204 | The file names of all handlers, checkpoints and invocations are plain, pairwise different where it matters, and only the two narratives are quarantined |
| Evidence.RunGrows | backend/app/chains/context.py:88-122 | Any sequence of the context's writes keeps the ledger grown by its writer, linked to the run, and mirrored by the artifact list, other than model invocations |
| Evidence.RunKeepsAgreement | backend/app/chains/context.py:88-109 | If no write names a file that is already ledgered, every entry's hash stays that of the bytes at its path |
| Evidence.RunOnlyAppends | backend/app/chains/context.py:88-122 | The writes of a run change files, entries and artifacts only, and entries only at the end |
| Evidence.StoreLaysOutWell | backend/app/storage/artifact_store.py:37-39 | Whatever root, run id and attempt, a store keeps different files at different paths and quarantined names at the narratives only |
| ChainContext.ChainContext.constructor | backend/app/chains/chain_executor.py:66-79 | The context starts with the snapshot of the tree, which is never taken again |
| ChainContext.ChainContext.RecordArtifact | backend/app/chains/context.py:88-109 | Write, ledger under the hash of the written bytes, remember the artifact |
| ChainContext.ChainContext.WriteQuarantined | backend/app/chains/context.py:111-122 | Stored, but neither ledgered nor remembered |
| ChainContext.ChainContext.LockDefinitionOfDone | backend/app/handlers/control.py:64-78 | The method does what the handler's effect says |
| ChainContext.ChainContext.GateEvidence | backend/app/handlers/control.py:97-109 | As above; the required types follow the request's own mode |
| ChainContext.ChainContext.StopOrLoopNow | backend/app/handlers/control.py:116-121 | As above; a pending decision finalizes as BLOCKED |
| ChainContext.ChainContext.InvokeAgent | backend/app/handlers/implementation.py:52-84 | As above, on the manual candidate, the out-of-band run and the blocked path |
| ChainContext.ChainContext.CheckQuarantine | backend/app/handlers/implementation.py:91-98 | The loop fails iff some ledger entry has a quarantined basename |
| ChainContext.ChainContext.CaptureDiff | backend/app/handlers/implementation.py:105-145 | As above, on the supplied and the captured diff |
| ChainContext.ChainContext.RunTests | backend/app/handlers/implementation.py:152-216 | The command loop, the recorded entry and the appended outcomes are those of the effect, the missing exit code reading as 0 in one and as a failure in the other |
| ChainContext.ChainContext.RunReproduction | backend/app/handlers/implementation.py:242-361 | As above, for the inverted run; supplied outcomes may carry a command of their own |
| ChainContext.ChainContext.CheckScope | backend/app/handlers/implementation.py:233-239 | As above |
| ChainContext.ChainContext.VerifyChange | backend/app/handlers/verification.py:67-105 | The five gates, the run id and the report are those of the effect |
| ChainContext.ChainContext.Evaluate | backend/app/handlers/evaluation.py:22-42 | As above |
| ChainContext.ChainContext.UpdateMemory | backend/app/handlers/evaluation.py:49-69 | As above |
| ChainContext.ChainContext.GatePr | backend/app/handlers/pr.py:34-76 | As above |
| Handlers.GatesAggregate | backend/app/handlers/base.py:90-97 | The aggregated reasons are empty iff every gate passed |
| HandlerLaws.EffectsAreTidy | backend/app/handlers/base.py:119-140 | Whatever the world answers, a handler only performs proper writes on files of its own slot and never writes one again after ledgering it |
| ResultLaws.HandlersCohere | backend/app/handlers/base.py:43-97 | Only StopOrLoop stops and finalizes, only PRGate speaks of a pull request, and a verifier passes or fails but never blocks or skips |
| ResultLaws.VerifierIsExact | backend/app/handlers/verification.py:67-105 | A verifier's status is PASS iff the ledger supports the types it asks for and everything it vouches for holds; it sets nothing but its run id |
| ResultLaws.LateKeepsWork | backend/app/handlers/evaluation.py:22-69 | What may follow a verifier in a chain leaves the verified work alone, up to the score |
| ResultLaws.ReproductionFails | backend/app/handlers/implementation.py:332-361 | A reproduction that lets the run go on has recorded a failing test |
| ResultLaws.DiffIsRecorded | backend/app/handlers/implementation.py:105-145 | A diff stage that lets the run go on has recorded a diff |
| ResultLaws.TestsAreRecorded | backend/app/handlers/implementation.py:199-216 | The appended outcomes are those of the non-empty logs, and the recorded entry passes iff every exit code is there and zero |
| ResultLaws.EffectsAreLawful | backend/app/handlers/base.py:43-97 | The effect of every registered handler, in every world and context, obeys all laws that the theorems about whole runs assume of handlers |
| ResultLaws.GateAcceptsLogs | backend/app/handlers/implementation.py:208-215 | The test gate accepts the outcomes of a log iff every exit code is zero or missing |
| ResultLaws.LedgerAgreesWithGate | backend/app/handlers/implementation.py:199-215 | Recorded entry and test gate agree on a log iff it is not the case that some exit code is missing and all others are zero |
| ResultLaws.MissingKeyDisagrees | backend/app/handlers/implementation.py:204-212 | One outcome without the key: recorded as FAIL, accepted by the gate |
| Executor.ChainExecutor.Execute | backend/app/chains/chain_executor.py:45-147 | The loop over the handlers computes the run, its results, verdict and final context |
| Executor.ChainExecutor.Advance | backend/app/chains/chain_executor.py:85-117 | One loop body is one step of the run, the missing handler included |
| Executor.ChainExecutor.Conclude | backend/app/chains/chain_executor.py:114-131 | The second half of the body: result, decision, checkpoint, and whether the loop goes on |
| ExecutorLaws.ResultsArePrefixOutcomes | backend/app/chains/chain_executor.py:85-131 | For arbitrary handlers the results are the outcomes of a prefix of the chain, cut at the first missing handler or FAIL, BLOCKED or STOP decision |
| ExecutorLaws.VerdictIsDeclared | backend/app/chains/chain_executor.py:174-184 | For handlers whose own writes to the decision are harmless, a run passes iff it was not cut by a failure and the last verifier that decided passed |
| ExecutorLaws.DecisionIsExact | backend/app/chains/chain_executor.py:117-119 | Over every chain and context the decision is that of the last verifier that decided, iff no registered handler writes a decision that outlives its own step |
| ExecutorLaws.VerdictIsExactlyDeclared | backend/app/chains/chain_executor.py:117-131 | Over every chain and context the verdict is a function of the results, iff what a registered handler writes into the decision never changes how it reads, unless its result ends the run |
| ExecutorLaws.UsurpersPass | backend/app/chains/chain_executor.py:118-122 | Handlers that write the decision themselves pass every registered chain, although no result of theirs decides: the executor does not defend the field |
| ExecutorLaws.ChangesAreCaught | backend/app/chains/chain_executor.py:150-166 | Whoever changed the tree, the next executed non-write handler blocks the run while the change is there |
| ExecutorLaws.RepositoryPreserved | backend/app/chains/chain_executor.py:150-166 | If the last executed handler is of a non-write type, a run that is not blocked leaves the tree as it found it, unless its path is gone |
| ExecutorLaws.WritersAreCaughtNext | backend/app/handlers/authority.py:24-36 | Write authority is worth nothing in front of a non-write handler |
| EvidenceOrder.DefaultIsHonest | backend/app/handlers/base.py:119-140 | The registered handlers satisfy what those laws assume: they leave the decision and the initial snapshot alone, and so defer and are harmless |
| Registry.SlotsAreDistinct | backend/app/chains/registry.py:29-194 | No registered chain has two handlers that write the same files |
| Registry.ChainShapes | backend/app/chains/registry.py:29-194 | Every chain has one verifier, everything that reads its decision after it, and StopOrLoop only at the end |
| Registry.CertifyingChains | backend/app/chains/registry.py:57-194 | In the four chains that change code the verifier is the implementation verifier and only advisory handlers follow |
| Thesis.RegisteredChainsAreShaped | backend/app/chains/registry.py:29-194 | All seven chains have the shape the whole-run theorems need |
| ChainRuns.RegisteredChainsLaunch | backend/app/chains/chain_executor.py:60-79 | Every registered chain can be launched on any request, store, naming, world and tree |
| ChainRuns.EvidenceStaysSound | backend/app/chains/context.py:88-122 | At every point of a run the ledger is grown and linked, the artifacts mirror it, and every entry's hash is that of the bytes now at its path, checkpoints and model files included |
| ChainRuns.LedgerOnlyGrows | backend/app/storage/evidence_writer.py:47-61 | Earlier ledgers of a run are prefixes of later ones |
| Thesis.VerifierDecides | backend/app/chains/chain_executor.py:118-131 | The verifier of a chain decides, and the run goes on iff it passes |
| Thesis.ReadersSeePass | backend/app/chains/registry.py:29-194 | Whatever is reached after the verifier finds its PASS: no evaluator, memory update or PR gate ever sees another decision |
| Thesis.PassIsWhole | backend/app/chains/chain_executor.py:174-184 | A run passes iff it processed its whole chain and the tree is as it found it, or gone |
| Thesis.LedgerCloses | backend/app/handlers/control.py:116-121 | A ledger is finalized as PASS at the end of the chain or stays pending; never as anything else |
| Thesis.LedgerAgreesWithVerdict | backend/app/handlers/control.py:116-121 | A ledger that does not say PASS is that of a run that does not pass; one that does is that of a run that passes iff the tree its last handler leaves is unchanged or gone, and is blocked otherwise |
| Thesis.WorkKept | backend/app/handlers/verification.py:67-105 | Nothing after the verifier disturbs the request and the work it looked at |
| Thesis.PassIsEarned | backend/app/handlers/verification.py:38-105 | PASS in any registered chain implies, at the end of the run: the ledger supports the types the verifier asks for, what the verifier vouched for holds, ledger and store agree, and the tree is unchanged or gone |
| PassingRuns.ChainsArePrepared | backend/app/chains/registry.py:29-194 | In every registered chain each handler finds that the handlers it relies on have run |
| PassingRuns.HandlerGoesOn | backend/app/handlers/base.py:42-97 | With a complete request and a world that finds nothing against it, each handler lets the run go on and leaves the work as its successors need it |
| PassingRuns.ClearRunsFinish | backend/app/chains/chain_executor.py:85-131 | With nothing in its way a run reaches the end of its chain and closes its ledger as PASS; it passes iff the tree its last handler leaves is unchanged or gone |
| PassingRuns.EveryChainCanPass | backend/app/chains/chain_executor.py:45-147 | Each of the seven chains has a run that passes, on any tree that is there, in any store and naming outside that tree |
| PassingRuns.AgreementIsExact | backend/app/chains/chain_executor.py:150-184 | For each chain and each tree that its last handler may leave: ledger and verdict agree on all requests and worlds iff that tree is unchanged or gone |
| PassingRuns.ClearFixIsProven | backend/app/handlers/implementation.py:242-361 | A bug-fix run with nothing in its way holds the failing reproduction, the diff and the later test entry, in this order |
| PassingRuns.ReportIsRecorded | backend/app/handlers/verification.py:63-105 | Among the artifacts at the end of a run of any chain with nothing in its way is its verifier's report, with the hash of its bytes |
| RunCoherence.ChangeIsEarned | backend/app/handlers/verification.py:67-105 | The thesis for changes spelled out: linked, sound, distinct entries with a DIFF; unless not applicable a TEST and a non-empty set of outcomes that all ran and exited 0; all changes in scope; coder other than verifier |
| RunCoherence.PrStatusAlong | backend/app/chains/chain_executor.py:168-172 | The status is GATED once the gate has run and NOT_REQUIRED until then, never NOT_READY |
| RunCoherence.PrCoherence | backend/app/handlers/pr.py:34-76 | GATED implies a verifier PASS; a passing run is GATED iff its chain has the gate |
| RunCoherence.MemoryRecords | backend/app/handlers/evaluation.py:49-69 | A memory update that is reached records and never writes its skip reason |
| RunCoherence.OutcomesAreReal | backend/app/handlers/implementation.py:207-215 | Every outcome of a run is of a command that ran |
| EvidenceOrder.TestStep | backend/app/handlers/implementation.py:199-216 | In a passing run with tests, the test entry is PASS iff no log item lacked its exit code |
| EvidenceOrder.FixIsProven | backend/app/handlers/implementation.py:242-361 | A passing reproduce-then-fix run holds, in this order, a failing reproduction, the diff, and where tests apply the later test entry, PASS iff no exit code was missing |
| EvidenceOrder.ReproducingChains | backend/app/chains/registry.py:81-194 | The bug-fix and CI repair chains are such chains |
| EvidenceOrder.RegisteredRuns | backend/app/chains/chain_executor.py:45-147 | The executor's run of a registered chain is a traced run of a well-shaped chain of lawful handlers on sound evidence, which is what the theorems about whole runs assume, for every request, store and world |
| EvidenceOrder.RegisteredResult | backend/app/chains/chain_executor.py:132-147 | What the parts of the returned result say about each other, and that it never asks for a merge or a deployment |
| Footprint.RunOutside | backend/app/storage/artifact_store.py:41-69 | A run leaves every file that is not one of its own as it was |
| Footprint.RunArtifactsStand | backend/app/chains/context.py:88-109 | At the end of a run each artifact's file is stored with the bytes of its hash and carries the attempt of the store |
| Runtime.RuntimeContainsAttempts | backend/app/runtime/runtime_executor.py:82-100 | Every attempt stays in the directory of its run and id, whatever the request, the world and the disk |
| Runtime.RuntimeExecutor.Execute | backend/app/runtime/runtime_executor.py:82-100 | The runtime object runs the registered chain on the attempt's own store |
| Serialization.RoundTrip | backend/app/storage/run_serialization.py:20-65 | Decoding an encoded record gives the record without its chain result's evidence artifacts, and with its own artifacts |
| Serialization.RoundTripIsExact | backend/app/storage/run_serialization.py:20-65 | A record survives iff its chain result carries no evidence artifacts, and every record survives a second round trip |
| Serialization.ResultRoundTrip | backend/app/schemas/chain.py:162-184 | The dump of a chain result drops the evidence artifacts and nothing else |
| Serialization.HandlerRoundTrip | backend/app/schemas/chain.py:144-159 | Handler results round-trip: gates, reasons, corrections, references, next handler and metadata included |
| Serialization.MinimalSnapshot | backend/app/storage/run_serialization.py:44-65 | A snapshot of a run id and a manifest reads as a new record |
| RunStore.InMemoryRunRepository.Save | backend/app/storage/run_repository.py:58-64 | The object keeps the record under its id, and the order of first insertion |
| RunStore.InMemoryRunRepository.Get | backend/app/storage/run_repository.py:66-67 | The object hands out the record under the id |
| RunStore.InMemoryRunRepository.List | backend/app/storage/run_repository.py:69-70 | The records in the order of first insertion |
| RunStore.PostgresRunRepository.Save | backend/app/storage/postgres_run_repository.py:64-115 | The transaction over all tables commits as a whole or, where a constraint would be violated, changes nothing |
| RunStore.PostgresRunRepository.UpsertAttempts | backend/app/storage/postgres_run_repository.py:122-143 | The attempt loop is the fold of upserts on the attempt id, an existing row keeping its run |
| RunStore.PostgresRunRepository.ProjectEvidence | backend/app/storage/postgres_run_repository.py:149-166 | One row for each artifact, unless one names an attempt without a row |
| RunStore.PostgresRunRepository.ProjectResults | backend/app/storage/postgres_run_repository.py:168-205 | One row for each handler result in order, its metadata included, and one for each gate of each |
| RunStore.PostgresRunRepository.Get | backend/app/storage/postgres_run_repository.py:235-242 | Reading decodes the snapshot |
| RunStoreLaws.UpsertSucceeds | backend/app/storage/sql/0001_init.sql:33-42 | The upsert of a minted attempt violates no uniqueness and never captures another run's row |
| RunStoreLaws.MintedSavesSucceed | backend/app/storage/postgres_run_repository.py:122-166 | Saving a record with minted attempts violates no constraint; each of its attempts has its row as it is, and all other rows are untouched |
| RunStoreLaws.SaveProjects | backend/app/storage/postgres_run_repository.py:106-231 | After a save the run's audit rows are exactly its projection, and all other runs' rows and snapshots are as they were |
| RunStoreLaws.SaveIsIdempotent | backend/app/storage/postgres_run_repository.py:64-115 | Saving twice is saving once, creation time and attempt rows included |
| RunStoreLaws.HistoriesRefine | backend/app/storage/postgres_run_repository.py:61-115 | Over any history of saves the tables hold, run by run, the encoded record, the rows of its attempts as they are, and exactly its projection |
| RunStoreLaws.StoresAnswerAlike | backend/app/storage/postgres_run_repository.py:235-242 | After any history both stores give the same record for every id, up to the dropped evidence artifacts |
| RunOrder.ListingIsUnique | backend/app/storage/postgres_run_repository.py:244-249 | The rows can be listed in one way only iff their creation times strictly increase along the listing |
| RunOrder.CreatedAtFirst | backend/app/storage/postgres_run_repository.py:76-106 | A row's creation time is that of the run's first save, whatever is saved later and whenever |
| RunOrder.ListsAgree | backend/app/storage/postgres_run_repository.py:244-249 | Over any history the listings are the memory's order and no other iff the runs were first saved at strictly increasing times; later saves and the clock's other steps do not matter |
| RunOrder.TickingRises | backend/app/storage/postgres_run_repository.py:244-249 | Saves at ever later times are enough |
| RunOrder.TwoRunsMisordered | backend/app/storage/postgres_run_repository.py:244-249 | Two runs created on a clock that stood still or stepped back: the tables list the second first, the first first only if the clock stood still, and the memory the first first |
| RunOrder.TiesAreUnordered | backend/app/storage/postgres_run_repository.py:244-249 | Two neighbours created at the same time may be listed either way round |
| AttemptRows.TableIsLastRows | backend/app/storage/postgres_run_repository.py:122-143 | Over any history every attempt row - run, number, commit, workspace, status - is what was last saved under its id |
| AttemptRows.AttemptsAccumulate | backend/app/storage/postgres_run_repository.py:122-143 | An attempt id has a row iff an attempt with it was ever saved |
| AttemptRows.RowsMirrorTheRecord | backend/app/storage/postgres_run_repository.py:122-143 | Each attempt of a remembered record has its row as it is, and the run has no other rows iff no save of it ever listed more attempts than the last one |
| AttemptRows.RecreatedRunKeepsRows | backend/app/api/routes_runs.py:42-55 | Creating a run anew under an old id empties its list of attempts, and the rows of the old ones stay |
| Lifecycle.ControlApi.Create | backend/app/api/routes_runs.py:42-55 | The endpoint is the transition: refuse an inadmissible manifest, else store a new record under its id |
| Lifecycle.ControlApi.Plan | backend/app/api/routes_chains.py:82-120 | As above, for planning |
| Lifecycle.ControlApi.Execute | backend/app/api/routes_chains.py:124-235 | As above, for executing: identity, envelope, path, allocation, run, and the record that is saved |
| Lifecycle.ControlApi.Verify | backend/app/api/routes_runs.py:91-132 | As above, for verifying |
| Lifecycle.ControlApi.Open | backend/app/api/routes_runs.py:141-175 | As above, for opening a pull request |
| LifecycleLaws.AttemptIsMinted | backend/app/runtime/workspace_allocator.py:62-70 | Storing the next attempt keeps attempts numbered 1..n with minted ids, and every artifact naming one of them |
| LifecycleLaws.HistoriesAreOrderly | backend/app/api/routes_chains.py:124-235 | Over every sequence of calls: PR_GATE only on a stored PASS, no merge or deployment, attempts 1..n, every artifact names a stored attempt, the manifest is the run's own; and what the calls save are minted records that leave this memory |
| LifecycleLaws.TablesFollow | backend/app/storage/postgres_run_repository.py:61-115 | At every point of every sequence of calls the saves made so far violate no table constraint, and the tables they leave read as the memory, stripped |
| LifecycleLaws.BindingIsExact | backend/app/api/routes_chains.py:137-185 | An execution is bound iff the request names this run or none, no other task than the manifest, and its envelope is admissible: the manifest's own identity never stands in the way |
| LifecycleLaws.VerdictIsExact | backend/app/api/routes_runs.py:105-124 | A reported PASS is stored as PASS iff the ledger is linked, sound and without repeated ids and the run ids differ; otherwise as FAIL |
| LifecycleLaws.OpeningIsExact | backend/app/api/routes_runs.py:148-166 | A pull request opens iff a PASS is stored and a link or a skip reason is given |
| LifecycleLaws.PassWasRecorded | backend/app/api/routes_runs.py:91-132 | Wherever a PASS is stored, the last verification of the run recorded it with both gates passing |
| LifecycleLaws.EmptyLedgerOpensPr | backend/app/api/routes_runs.py:105-124 | A linked ledger without entries is enough: a run that was never executed can reach PR_GATE |
| StoredEvidence.EvidenceStaysOnDisk | backend/app/api/routes_chains.py:206-222 | Over every sequence of calls that executes runs in different places only, every artifact of every stored run keeps the bytes it was hashed from |
| SharedPlaces.TwinsOverwrite | backend/app/api/routes_chains.py:206-222 | Two runs in one place, both created and then both executed, with different verifier reports: the first no longer has the report it recorded |
| SharedPlaces.SurvivalIsExact | backend/app/api/routes_chains.py:206-222 | For the ids of the runs that are executed: the evidence of all stored runs survives every sequence of calls iff no two of them name the same place |
| SharedPlaces.SlashedTwinsOverwrite | backend/app/api/routes_chains.py:206-222 | The ids a and ./a are such a pair, and so are b and a/../b |
| SharedPlaces.ServedEvidenceSurvives | backend/app/api/routes_chains.py:124-222 | Over every sequence of calls that names the runs it executes by one path segment, as the route does, every artifact keeps its bytes, whatever ids runs were created under |
| StoredEvidence.StoresAreInterchangeable | backend/app/storage/run_repository.py:25-45 | Over every sequence of calls the durable store gives the same answers and leaves the same disk as the memory, and holds its records as snapshots have them |
| Service.CallsReadOneRun | backend/app/api/routes_chains.py:124-235 | What a call answers, saves and leaves on disk depends on the stored run it names, and on no other |
| Service.SavedStripped | backend/app/storage/postgres_run_repository.py:61-115 | Saving a record leaves the same tables with and without the artifacts that its snapshot drops |
| Service.TablesServe | backend/app/api/store.py:55-69 | The API on its tables, over every sequence of calls and every clock: no save is refused, the answers and the disk are those of the API on its memory, and the tables are what the saves of that history make |
| Service.ServiceHistories | backend/app/storage/postgres_run_repository.py:61-115 | The service over its runtime, on its tables, for every sequence of calls and every clock: it answers as on the memory, its tables read as the memory, stripped, and they list in the memory's order and no other iff the first saves of the runs happened at strictly increasing times, as they do on a clock that moves on at every call |
| Service.ServicePassWasRecorded | backend/app/api/routes_runs.py:91-132 | The same for a stored PASS: the run's last verification recorded it with both gates passing |
| StateMachine.NextFollowsOrder | backend/app/state_machine.py:101-109 | Successors follow the order, and only the terminal state has none |
| StateMachine.GuardIsExact | backend/app/state_machine.py:117-150 | The guard passes iff the state belongs to the machine and its artifacts are present, either alternative serving for MEMORY_UPDATE |
| StateMachine.GuardIsMonotone | backend/app/state_machine.py:117-150 | More artifacts never close a guard |
| StateMachine.GuardIsBlind | backend/app/state_machine.py:134 | The guard sees basenames only |
| StateMachine.DirectoriesDoNotMatter | backend/app/state_machine.py:134 | So neither directories nor the slash style matter |
| StateMachine.WalkHoldsEvidence | backend/app/state_machine.py:101-150 | Wherever a guarded walk is, everything the states it has left demanded is present |
| StateMachine.WalkEnds | backend/app/state_machine.py:101-150 | The walk is at STOP_OR_LOOP iff it made one transition less than there are states, and then holds the evidence of all of them |
| StateMachine.SuppliedWalkIsDirect | backend/app/state_machine.py:101-150 | With each state's artifacts there in time the walk ends after exactly that many tries |

## Left out

- EvidenceOrder.FixIsProven: speaks of the reproduction and the fix that a run records; that the two tests exercise the same defect is nothing the code looks at.
- ArtifactStore.AttemptDirsCoincide: parents are resolved as text, so symbolic links and case-insensitive file systems are not; a relative root is not completed by the working directory; and clashes of a directory with a file raise in the file system and not here.
- StoredEvidence.EvidenceStaysOnDisk: the same holds of its places.
- Text.ParseRendered: a path with exactly two leading slashes is kept as such by the standard library and has one here, which names the same file; recorded paths are written with their parents resolved.
- PassingRuns.EveryChainCanPass: the tree and the artifact store are independent of each other, which is what the runtime's settings see to; with a store inside the workspace the files that a run writes would enter the tree and block it.
- SharedPlaces.SurvivalIsExact: the empty run id is left aside, since a manifest without a run id gets a minted one.
- RunStoreLaws.StoresAnswerAlike: attempts are those the allocator mints, which is what every API history saves (`LifecycleLaws.HistoriesAreOrderly`).
- RateLimiting.AdmissionCharacterised: reals instead of floating point.
- Concurrency: nothing in the code orders concurrent requests, and the model handles one at a time.
- HTTP, request validation, dependency injection, SQL text and connections; a transaction is one step that commits or changes nothing.
- Subprocesses, git, the file walk of the repository snapshot, and the JSON and YAML readers: what they answer is part of the world, and the tree is a map from paths to hashes.
- SHA-256 and glob matching are arbitrary functions, of which only a non-empty digest is assumed.
- Wording: gates give kinds of reasons with their subjects, not sentences.
- Values of the pull request status outside its enumeration, which would raise; metadata values are JSON text, and the texts of the corrections that a few failing handlers suggest are not reproduced.
- Timestamps, artifact ids (made of run and name) and the updated_at and index columns.
- Scanners and the dependency, license, link, CI log and readiness heuristics: arbitrary read-only checks that may skip, block, or ledger one record of their own.
- The inner rules of the manifest, scrum and strategic design gates: what they find is an arbitrary list of reasons supplied with the request or the manifest.
- The PR creation handler and other handlers that no chain names.
- The workspace policy: it resolves a path or refuses it. Tool registry, tool policy, model catalog and retry budget.
- Provider adapters: a call replies or fails. Per-model settings that routing does not read, such as temperature and retries, and limiter objects shared between two model ids.
- The evaluator's formula and rounding: an arbitrary score of the ledger's entries.
- In the in-memory store a caller holds the stored object itself; here every endpoint saves before the record is read again, as the repository's port demands.
- Fields that are carried along and read by nothing modelled here: the rest of the manifest and of the verifier report, and the constant fields of a plan.
- Column types of the tables, and the deletion of runs, which the code never does.
- ExecutorLaws.DecisionIsExact: speaks of every chain, since a single handler is judged by the chain of that one handler; the chains a request can reach are the seven registered ones.
- The remaining handlers as methods: analysis, documentation and security handlers, and the simple control checks, are modelled by their effects only.
- Snapshots: JSON members are an enumeration and the values of enumerations are words, so the text of JSON is not modelled.
