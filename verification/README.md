# A verified model of the agent control plane

The Python service under `backend/api/app` plans work for an agent, executes it step by step with
tools, and keeps the result. This project models six parts of it (the sixth belongs to the
TypeScript sandbox) and proves what they keep over whole runs.

| part | modules |
|---|---|
| execution machine, its evidence and its resume point | `Events`, `Evidence`, `Machine`, `MachineLoop`, `MachineMoves`, `MachineInvariants`, `MachineRuns`, `MachineRouting`, `MachineTightness`, `ReactService`, `ResumePoint` |
| tool runtime | `ToolSpec`, `ToolRuntime`, `ToolMoves`, `ToolRuns`, `ToolAudit`, `ToolPolicy`, `ToolResults` |
| idempotency keys, and the machine and the runtime together | `UuidTexts`, `Freshness`, `FreshCalls` |
| step loop, call budget and dependency batches | `ToolBatches`, `CallOrder`, `StepBudget`, `StepTurns`, `StepReplies`, `StepLoop` |
| task state and checkpoints | `TaskState`, `ControlPlane`, `CheckpointLaws`, `ControlOutcomes` |
| background task runner | `TaskRunner`, `TaskRunnerLaws`, `TaskOutcomes` |
| retrieval and indexing | `Retrieval`, `RetrievalLaws`, `QueryContext`, `Indexing`, `IndexingLaws`, `IndexingOutcomes`, `IndexingService` |
| sandbox paths | `Paths`, `SandboxFiles` |

`Basics` and `Text` hold counting and decimal lemmas. Check the project with
`dafny verify dfyconfig.toml`.

## How it is built

A class has the state and the loops of the service it models. Each of its methods is proved equal
to a function of the old state and of the answers of the collaborators, and where it is called from
outside also states what that means for the caller. The laws are lemmas about those functions, for every start state, every sequence of operations and
every answer. Beside the laws over runs, `MachineRouting`, `ToolPolicy`, `ToolResults`, `StepReplies`,
`ControlOutcomes`, `TaskOutcomes` and `IndexingOutcomes` say what each operation decides and leaves in
terms of its arguments alone, without the functions that compute it.

The outside world is a parameter everywhere. The machine gets a sequence of answers (what the tools
came to, the critic's verdict, the verdicts of gate, scope audit and coverage review, a replacement plan, or an
answer that stands for an exception). The tool runtime gets the outcome of the n-th handler call, a clock that
may jump, and whether storing an output breaks off. The step loop gets the order in which the event
loop lets the calls of a batch go on. The task runner gets any interleaving of atomic steps, with
crashes, restarts, faults and stops anywhere. Indexing gets which of its steps raise. Hashes are
taken to be injective and redaction, splitting and argument checking are arbitrary functions.

Two parts use a small set of *moves* between the code and the laws. `MachineMoves.StepIsMove` shows
that each step of the machine is one legal move, and `ToolMoves.PlainIsMove` that one execution of a
tool is a look into the cache and one legal move. An invariant is then checked once per move.

## What the model says about the code

Most of the promises hold as one would read them. Those that need a condition are stated with the
exact condition:

- The resume index is the first step the failed run has not passed if and only if the surplus of
  completions (of earlier revisions, and repeated by chain retries) equals the number of steps the run
  had skipped (`ResumePoint.ResumesAfterFailure`). A run from the top that failed in a step of its own
  resumes there; a resumed run that fails again falls back by what it had skipped
  (`SecondResumeFallsBack`).
- A run that failed in the acceptance chain is resumed past its last step. The comment at
  `backend/api/app/domain/agent_runtime/entities.py:106-108` expects the gate chain to run again, but
  such a run has no observation and no evidence, so it raises at once whatever the collaborators answer
  (`MachineRuns.ResumedAtSummaryNeverMoves`, `ResumePoint.ChainFailureCannotBeResumed`), and the attempt
  after it starts over from step 0 (`ThirdAttemptStartsOver`).
- Chain retries are bounded by the allowance times one more than the number of distinct gate commands.
  With one command that is twice the allowance, and a run that uses it all exists for every allowance
  (`MachineTightness.AllowanceCanBeSpent`).
- Calls that are checked together before any of them is recorded overrun a limit by less than the
  number of them that the limit counts, and by exactly one less when they are all checked first
  (`StepBudget.CheckedTogetherAllRun`). Over a whole step, on the limit of all calls and on that of each
  tool, the overrun is less than the largest group that ran together (`StepLoop.StepAgentLoop.RunLoop`).
- The id of a tool reply is the one the assistant message announced if and only if the model supplied it:
  the two fallback texts never agree (`StepTurns.IdsMatchExactly`).
- With persistent records, whatever ended first under a key is the answer for that key from then on: a
  denial or a failure is given back even to a call that is approved later
  (`ToolRuns.RecordedEndIsFinal`).
- An interrupted call leaves its record running, and the same call is answered from that record, as still
  running and with no output, from then on (`ToolRuns.UnfinishedIsFinal`).
- Keys are fresh over all runs that share a store if no two steps of a plan have the same id text; two
  steps with the same id share their keys (`Freshness.SameIdsShareKeys`). Other step ids could make
  texts collide (`SeparatorsCollide`), but none of them parses as a UUID.
- A fresh key does not keep a call from being answered from the past: the result cache does so if and only
  if the policy allows the call, the cache is on, the tool is eligible and a live entry for the same request
  is present (`FreshCalls.FreshKeyIsAnsweredExactly`, `OtherKeySameAnswer`).
- The digest stored with a new task never matches its stored state, since it is taken before the task has
  its id (`CheckpointLaws.DigestAfterCreate`). After an update it matches if and only if the facts were
  given in stored form (`DigestAfterUpdate`).
- Restore inverts a checkpoint, but for the status, if and only if the checkpoint held an environment or
  the task holds none at the time (`RestoreInvertsCheckpoint`).
- A message that is redelivered is executed again unless the status of its task is aborted at the lookup,
  so a completed task runs again when the process dies before the acknowledgement
  (`TaskRunnerLaws.RunsAgainUnlessAborted`, `CompletedButNotAcknowledged`).
- A user's stop holds for ever if and only if no coroutine of the task is past its lookup and may still
  write a status; one that lands between the lookup and the mark is overwritten, and the task is
  executed (`StopSurvivesExactly`, `StopIsOverwritten`).
- An acknowledgement is decided only under an excuse that holds at that moment. One whose coroutine was
  cancelled may land later, while the redelivered message is being executed
  (`AcknowledgementsAreDecided`, `AcknowledgedWhileRunning`).
- A reingest leaves a document that says ready without an index if and only if the very first step after
  the old index was dropped raises (`IndexingLaws.ReingestSound`). A vector store outside the transaction
  is left as it was by a document that fails if and only if processing broke off before the vectors or the
  write that raised had written none; otherwise it keeps exactly those written (`OutsideStoreKeepsOrphans`).
- The sandbox refuses names that begin with two dots although they lie inside
  (`SandboxFiles.DottedNamesAreRefused`).

## Model

| member | source | states |
|---|---|---|
| Evidence.EvidenceExact | backend/api/app/application/agent_summary_service.py:191-228 | a tool call is evidence iff an accept reflection with its own run, plan, revision, step and attempt is anywhere in the log |
| Evidence.EvidenceGrows | backend/api/app/application/agent_summary_service.py:191-228 | appending events never takes evidence away |
| Evidence.MatchesOrdered | backend/api/app/application/agent_summary_service.py:205-217 | evidence lists each call once, in log order |
| Evidence.EvidenceRaisesExactly | backend/api/app/application/agent_summary_service.py:191-228 | building it raises iff some tool call or accept reflection lacks its run, plan, step or attempt |
| Evidence.AcceptedAttempts | backend/api/app/application/agent_summary_service.py:191-203 | the loop collects exactly the keys of accept reflections, and raises iff one of them is malformed |
| Evidence.AcceptedToolEvents | backend/api/app/application/agent_summary_service.py:205-217 | the loop keeps exactly the evidence, and raises in the same cases |
| MachineLoop.ExecutionMachine.Stream | backend/api/app/application/agent_execution_machine.py:111-140 | a run of the loop ends as the run function says; what was written to the sink and streamed is the log of the snapshot, in order, plus at most loose events of the node that raised |
| MachineLoop.ExecutionMachine.Dispatch | backend/api/app/application/agent_execution_machine.py:150-165 | one node per phase; every event of the new snapshot was emitted, once and in order |
| MachineLoop.ExecutionMachine.ExecuteNode | backend/api/app/application/agent_execution_machine.py:167-201 | runs the step and records the status of its last tool call, success if there is none; blocked iff that call needs approval; the log grows by exactly what was emitted |
| MachineLoop.ExecutionMachine.ReflectNode | backend/api/app/application/agent_execution_machine.py:203-223 | a verdict to accept anything but a success raises; any other is routed and logged as it was emitted |
| MachineLoop.ExecutionMachine.ApplyReflection | backend/api/app/application/agent_execution_machine.py:909-934 | completion, failure and error events follow the routed phase, and are emitted as logged |
| MachineLoop.ExecutionMachine.ReplanNode | backend/api/app/application/agent_execution_machine.py:225-257 | the next revision restarts at step 0 under the same run id, and raises without a replanner |
| MachineLoop.ExecutionMachine.SummarizeNode | backend/api/app/application/agent_execution_machine.py:259-420 | evidence, the acceptance chain, the message and task_done; a raise keeps the log as it was |
| MachineLoop.ExecutionMachine.RunChain | backend/api/app/application/agent_execution_machine.py:289-390 | gate, scope, coverage in this order, stopping at the first that fails; what was emitted is what was logged |
| MachineLoop.ExecutionMachine.GateCycle | backend/api/app/application/agent_execution_machine.py:422-499 | skips, passes or stops as the gate verdict and the allowance say |
| MachineLoop.ExecutionMachine.ScopeCycle | backend/api/app/application/agent_execution_machine.py:536-622 | skips, passes or stops as the audit and the merged allowance say |
| MachineLoop.ExecutionMachine.CoverageCycle | backend/api/app/application/agent_execution_machine.py:670-770 | an inadequate review stops the run only if coverage is enforced |
| MachineMoves.StepIsMove | backend/api/app/application/agent_execution_machine.py:150-165 | every step of the machine that does not raise is one legal move |
| MachineMoves.ChainPasses | backend/api/app/application/agent_execution_machine.py:289-390 | a chain that lets the run through has logged exactly the passing event of each declared stage, and the sum iff two stages ran |
| MachineMoves.ChainHalts | backend/api/app/application/agent_execution_machine.py:455-770 | a chain that stops logs the stages that passed, one failure and one reflection, and grants a retry only within the allowance |
| MachineRouting.ExecutionExactly | backend/api/app/application/agent_execution_machine.py:167-201 | a step logs its start and one event per tool call, in order, with its name and status; it blocks iff the last call needs approval, is reflected on iff that call ended, and raises otherwise |
| MachineRouting.ObservationIsLastCall | backend/api/app/application/react_step_executor.py:189-193 | at every point of every run the observation is the status of the last tool call logged after the last start of a step, or success if there is none; blocked iff it asks for approval, reflecting only if it ended |
| MachineRouting.ReflectionExactly | backend/api/app/application/agent_execution_machine.py:203-223 | what each verdict of the critic leads to: next attempt, next revision, next step or the summary, or failure; accepting anything but a success raises |
| MachineRouting.ReplanExactly | backend/api/app/application/agent_execution_machine.py:225-257 | with a replanner the next revision starts at its first step, first attempt, under the same run; without one it raises |
| MachineRouting.StartExactly | backend/api/app/domain/agent_runtime/entities.py:103-120 | a run starts at the given step, at its first for a negative one, and at the summary of its last step past the end |
| MachineRouting.GateFailsExactly | backend/api/app/application/agent_execution_machine.py:451-511 | a declared gate that fails is retried iff the plan allows it and failures of this very command are below the allowance, and fails the run otherwise |
| MachineRouting.ScopeFailsExactly | backend/api/app/application/agent_execution_machine.py:536-647 | a declared audit that fails after the gate is retried iff its own part of the plan allows it and failures of all stages are below the allowance |
| MachineRouting.CoverageFailsExactly | backend/api/app/application/agent_execution_machine.py:670-770 | an inadequate review that is enforced is retried iff the plan allows it and failures of all stages are below the allowance |
| MachineRouting.SummaryExactly | backend/api/app/application/agent_execution_machine.py:259-420 | where all declared stages pass, the run completes iff a tool call of an accepted attempt exists and the answer is not blank, and raises otherwise; what it logs is stated event by event |
| MachineRuns.LogIsAppendOnly | backend/api/app/application/agent_execution_machine.py:131-140 | the log of any earlier point of a run is a prefix of its log now |
| MachineRuns.EndsInOneTerminalGroup | backend/api/app/application/agent_execution_machine.py:167-420 | a finished run ends in exactly one terminal group of the kind of its phase; a run under way holds no terminal event |
| MachineRuns.DoneIsEarned | backend/api/app/application/agent_execution_machine.py:259-420 | a completed run ends with the acceptance of its last step, then every declared stage passing for the current plan, the sum iff two stages ran, the message and task_done, with no tool call in between |
| MachineRuns.DoneAcceptedEveryStep | backend/api/app/application/agent_execution_machine.py:203-223 | in a completed run every step the final revision was to execute has an accept reflection in that revision |
| MachineRuns.DoneHasEvidence | backend/api/app/application/agent_execution_machine.py:392-416 | a completed run holds a tool call whose own attempt was accepted |
| MachineRuns.ResumedAtSummaryNeverMoves | backend/api/app/domain/agent_runtime/entities.py:103-120 | a run started past its last step takes no step without raising |
| MachineRuns.ChainRetriesBounded | backend/api/app/application/agent_execution_machine.py:455-511 | over every run, chain retries are at most the allowance times one more than the distinct gate commands |
| MachineRuns.ChainRetriesWithOneCommand | backend/api/app/application/agent_execution_machine.py:578-647 | with one command in all plans, at most twice the allowance |
| MachineRuns.ChainRetriesWithoutGate | backend/api/app/application/agent_execution_machine.py:722-770 | without a gate, scope and coverage share one allowance |
| MachineRuns.OnlyDeclaredCommands | backend/api/app/application/agent_execution_machine.py:422-453 | the gate only runs commands of the plans the run was given |
| MachineRuns.CompletionsConserved | backend/api/app/application/agent_execution_machine.py:909-934 | completions of the current revision are the steps passed since its start, plus its chain retries, plus one once the last step is accepted |
| MachineRuns.ExecutionsMoveForward | backend/api/app/domain/agent_runtime/router.py:43-83 | revision, step and attempt of successive executions strictly increase |
| MachineRuns.SameRun | backend/api/app/application/agent_execution_machine.py:225-257 | the run id never changes and the revision never goes back |
| MachineTightness.AllowanceCanBeSpent | backend/api/app/application/agent_execution_machine.py:455-511 | for every allowance there is a run with one command that is granted twice the allowance |
| ReactService.AgentService.ResumeContext | backend/api/app/application/react_agent_service.py:116-144 | the search from the end finds the run of the last named task error and counts its completions |
| ReactService.AgentService.StreamLatestPlan | backend/api/app/application/react_agent_service.py:53-114 | refuses a missing or empty plan unchanged; otherwise the store grows by what the run emitted, and by one task error iff it raised, which carries the revision of the snapshot in which it raised |
| ReactService.RevisionFollows | backend/api/app/application/react_agent_service.py:82-89 | at every point of every run the revision taken over from the events is the revision the machine is in |
| ReactService.CrashRevision | backend/api/app/application/react_agent_service.py:198-214 | so also for the events of the node that raised |
| ReactService.StatusFollowsPhase | backend/api/app/application/react_agent_service.py:152-173 | folding the run's events over the status gives running, idle or failed exactly as the phase says |
| ResumePoint.IndexCountsTheRun | backend/api/app/application/react_agent_service.py:116-144 | in any store the index counts the completions of the run that failed last and nothing else |
| ResumePoint.RunCompletions | backend/api/app/application/agent_execution_machine.py:909-934 | a run's completions are its first unaccepted step, less the steps skipped, plus the surplus |
| ResumePoint.ResumesAfterFailure | backend/api/app/application/react_agent_service.py:116-144 | the resume index is the first unaccepted step iff surplus equals skipped steps |
| ResumePoint.ResumesAtFailedStep | backend/api/app/application/react_agent_service.py:116-144 | from the top, the failed step is resumed iff no earlier revision completed a step, no chain retry was granted and the failure was the step's own |
| ResumePoint.SecondResumeFallsBack | backend/api/app/application/react_agent_service.py:116-144 | a resumed run that fails in a step of its own resumes earlier by the steps it had skipped |
| ResumePoint.ChainFailureCannotBeResumed | backend/api/app/application/agent_execution_machine.py:259-300 | after a failure in the chain the resumed run raises, whatever is answered |
| ResumePoint.ResumesAfterCrash | backend/api/app/application/react_agent_service.py:175-195 | the same exact condition for a run that raised |
| ResumePoint.ThirdAttemptStartsOver | backend/api/app/application/react_agent_service.py:116-144 | the resume after a resume past the last step starts at 0 |
| Freshness.AttemptTextInjective | backend/api/app/application/react_step_executor.py:262-278 | the text of an attempt determines session, run, plan, revision, step and attempt, for sessions and runs without a colon and step ids without a colon after a digit |
| Freshness.SeparatorsCollide | backend/api/app/application/react_step_executor.py:262-278 | with a colon after a digit in a step id two attempts would share a text; that id does not parse as a UUID |
| Freshness.CallKeyInjective | backend/api/app/application/agent_loop.py:395-404 | under an injective hash the key determines the session, the attempt and the slot of the call |
| Freshness.SameKeySameCall | backend/api/app/application/agent_loop.py:395-404 | two executions of one run with the same key are one execution and one call |
| Freshness.KeysAreFresh | backend/api/app/application/react_step_executor.py:262-278 | over all steps, retries, chain retries, replans, turns and offsets of a run, every call has its own key |
| Freshness.SameIdsShareKeys | backend/api/app/application/react_step_executor.py:262-278 | two steps of one plan with the same id are two executions whose calls have the same keys |
| Freshness.StepIdsAreSeparable | backend/api/app/domain/agent_runtime/entities.py:34-42 | every step id that parses as a UUID is free of a colon after a digit |
| UuidTexts.UuidHasNoPair | backend/api/app/domain/agent_runtime/entities.py:34-42 | removing prefixes, braces and dashes, as parsing does, never removes a colon that follows a digit |
| FreshCalls.FreshKeyIsNotReused | backend/api/app/application/tool_runtime.py:388-427 | a call under a key no earlier call used, and its fallback, are neither given back a call under the key nor refused as a reuse |
| FreshCalls.FreshKeyIsAnsweredExactly | backend/api/app/application/tool_runtime.py:110-128 | such a call is answered from the past iff the policy allows it, the cache is on, the tool is eligible and a live entry for its request is present; otherwise it starts an invocation under its own key |
| FreshCalls.FreshFallbackIsAnsweredExactly | backend/api/app/application/tool_runtime.py:173-208 | the same condition for its fallback, in the state the first tool left |
| FreshCalls.OtherKeySameAnswer | backend/api/app/application/tool_runtime.py:115-124 | after a success of an eligible tool, a second call with the same arguments under another key gets the first one's output and id |
| FreshCalls.RunCallsAreNotReused | backend/api/app/application/tool_runtime.py:388-427 | in a store shared with any other runs and with calls without keys, every call of an agent run has a fresh key |
| ToolRuntime.ToolRuntime.GetCached | backend/api/app/domain/agent_core/tool_cache.py:87-101 | a value is found iff a live entry for the request is present, and it is then the youngest; entries of other requests stay and none is made up |
| ToolRuntime.ToolRuntime.PutCached | backend/api/app/domain/agent_core/tool_cache.py:103-115 | the value is the youngest entry and keys stay distinct; another entry is lost only if it is the oldest of a full cache |
| ToolRuntime.ToolRuntime.FindIdempotent | backend/api/app/application/tool_runtime.py:388-436 | nothing is found iff no success is remembered and no record held under the key; what is found was asked with the same request, any other is refused |
| ToolRuntime.ToolRuntime.RecordStart | backend/api/app/application/tool_runtime.py:438-462 | one more record and one start, or nothing iff the store holds the key of this tool; no key ever gets a second record |
| ToolRuntime.ToolRuntime.RecordFinish | backend/api/app/application/tool_runtime.py:464-478 | the end goes into the record begun last, which keeps its tool, key and request; all others stay |
| ToolRuntime.ToolRuntime.InvokeTool | backend/api/app/application/tool_runtime_support.py:129-154 | one handler call, whose result, timeout or error becomes the outcome |
| ToolRuntime.ToolRuntime.InvokeWithResilience | backend/api/app/application/tool_runtime.py:210-252 | the retry loop calls the handler as often as the retry function says, one act per call |
| ToolRuntime.ToolRuntime.RunFresh | backend/api/app/application/tool_runtime.py:126-190 | a call that found nothing under its key makes exactly one legal move under its own tool and key, and is answered by that move; handlers run only if the policy permits the call, and what is refused ends as the policy says |
| ToolRuntime.ToolRuntime.ExecuteOne | backend/api/app/application/tool_runtime.py:97-208 | one execution with at most one level of fallback has exactly the effect of the pipeline function; every handler it runs is the tool or its declared fallback, and permitted to the caller |
| ToolRuntime.ToolRuntime.Execute | backend/api/app/application/tool_runtime.py:85-95 | the entry point allows the fallback; every handler it runs is permitted to the caller |
| ToolMoves.RetriesAreExact | backend/api/app/application/tool_runtime.py:210-252 | n calls come with retries numbered 1 to n-1, each answering the transient failure before it; more than one call needs an idempotent tool, and retrying stops only at the allowance or at a lasting outcome |
| ToolMoves.TimeoutsAreRetryable | backend/api/app/domain/agent_core/tool_resilience.py:45-72 | a timeout always counts as transient |
| ToolMoves.PlainIsMove | backend/api/app/application/tool_runtime.py:97-190 | one execution without fallback is a look into the cache and one legal move under its own tool and key |
| ToolRuns.AgreesAlways | backend/api/app/application/tool_runtime.py:379-427 | memory and records always agree on output, status, request and artifact, with one record per key |
| ToolRuns.RestartAnswersTheSame | backend/api/app/application/tool_runtime.py:388-427 | after a restart a remembered call is answered from its record as it was from memory |
| ToolRuns.AtMostOnceByKey | backend/api/app/application/tool_runtime.py:92-113 | after a success under a key nothing is started or called again under it, over any calls and restarts |
| ToolRuns.SameCallIsDeduplicated | backend/api/app/application/tool_runtime.py:308-325 | the same call gets the same output back as deduplicated, a different one is refused; the state does not change |
| ToolRuns.RecordedEndIsFinal | backend/api/app/application/tool_runtime.py:388-427 | with records this holds after any end, denials and failures included |
| ToolRuns.UnfinishedIsFinal | backend/api/app/application/tool_runtime.py:388-427 | after a call that was interrupted before its finish record, the same call is answered as still running, over any later calls and restarts |
| ToolAudit.InvocationsAreBracketed | backend/api/app/application/tool_runtime.py:126-190 | the acts of an invocation are one start, its handler calls and one finish, the finish missing iff storing broke off; handlers run only after an executable start, once unless the tool is idempotent |
| ToolAudit.CallsPerKeyAreBounded | backend/api/app/infrastructure/database/models/control_plane.py:121-123 | with records, over all runs a key is started at most once and its handler called at most 1 + max_retries times |
| ToolAudit.FallbackAddsOneInvocation | backend/api/app/application/tool_runtime.py:173-208 | a fallback adds at most one invocation, of the declared other tool and the same key, and only after a failure or timeout |
| ToolAudit.GoodCacheAlways | backend/api/app/domain/agent_core/tool_cache.py:87-115 | the cache stays within its size, has one entry per key and holds only successes of eligible tools |
| ToolAudit.CacheHitsAreSound | backend/api/app/application/tool_runtime.py:115-124 | a hit repeats a success of the same tool, version and arguments, was allowed, and leaves no trace |
| ToolPolicy.OnlyPermittedCallsRun | backend/api/app/application/tool_runtime_support.py:82-109 | a handler runs, or a cached result is given out, only if the module is on, no permission is missing, and the risk is within the allowance or approved |
| ToolPolicy.EveryCallWasPermitted | backend/api/app/application/tool_runtime.py:292-306 | over any calls and restarts every handler call that was ever made was permitted to its caller, for the tool it named or its fallback |
| ToolPolicy.NewInvocationsEndRight | backend/api/app/application/tool_runtime_support.py:82-109 | an execution that starts an invocation ends denied iff the module is off or a permission is missing, waiting for approval iff neither and the risk is above the allowance without approval, and runs otherwise |
| ToolResults.RetryableExactly | backend/api/app/domain/agent_core/tool_resilience.py:30-49 | a text counts as transient iff it holds one of eleven words, in any letter case |
| ToolResults.DelayGrows | backend/api/app/domain/agent_core/tool_resilience.py:75-78 | the first wait is the base and each further one the factor times as long |
| ToolResults.TriesExactly | backend/api/app/application/tool_runtime.py:210-252 | an invocation calls its handler once and once more for each transient failure while retries are on, the tool is idempotent and the allowance lasts; each retry carries its number, its wait and the failure it answers |
| ToolResults.NewInvocationsReturn | backend/api/app/application/tool_runtime.py:126-190 | a new invocation that returns hands out what its last handler call left, redacted, cut with a note iff it is too long and can be kept apart, with its request and retries; a refused one the reason and nothing else |
| ToolResults.CachedExactly | backend/api/app/application/tool_runtime.py:115-124 | after any calls and restarts, a call that repeats no key is answered from the cache iff its tool is cacheable, idempotent and of low risk, the call is permitted and a live entry for its request is there |
| ToolResults.RestartEmptiesTheCache | backend/api/app/domain/agent_core/tool_cache.py:87-101 | right after a restart no call is answered from the cache |
| ToolResults.FallbackExactly | backend/api/app/application/tool_runtime.py:173-208 | the other tool is called iff this very call failed or timed out and the tool names another one; its result is handed out under a heading that names both, unless it is refused as an application error |
| ToolBatches.PlanParallelBatches | backend/api/app/domain/agent_core/tool_deps.py:72-114 | batches partition the calls in input order, put what a call needs before it and delay none longer than it must; none are returned iff some calls wait for one another |
| ToolBatches.LevelsAreUnique | backend/api/app/domain/agent_core/tool_deps.py:72-114 | there is only one such plan |
| ToolBatches.PlannedIsNotStuck | backend/api/app/domain/agent_core/tool_deps.py:104-111 | a call that has a batch is in no set of calls that wait for one another |
| StepBudget.ToolBudget.CheckCall | backend/api/app/domain/agent_core/tool_budget.py:109-134 | a call is admitted iff charging it overruns neither the limit of all calls nor that of its tool and tokens are left; a check charges nothing |
| StepBudget.ToolBudget.RecordCall | backend/api/app/domain/agent_core/tool_budget.py:136-141 | charges the call, its tool and its tokens |
| StepBudget.BatchWithinBudget | backend/api/app/application/agent_loop.py:382-416 | for every interleaving, in total and for each tool: the charge is the number of recorded calls, and calls recorded or running exceed the limit by less than the batch's calls it counts |
| StepBudget.WidthIsLargest | backend/api/app/application/agent_loop.py:325-344 | the width of some groups is attained by one of them and exceeded by none |
| StepBudget.SizeInTotal | backend/api/app/application/agent_loop.py:325-344 | on the limit of all calls a group counts with its length |
| StepBudget.CheckedTogetherAllRun | backend/api/app/application/agent_loop.py:326-336 | the overrun is reached: with one call left a batch of n runs n calls |
| StepBudget.TasksKeepNames | backend/api/app/application/agent_loop.py:326-342 | an interleaving never mixes up calls or outputs, and what is done stays done |
| StepBudget.TokensExactly | backend/api/app/domain/agent_core/tool_budget.py:28-33 | nothing for an empty output, else half its length, rounded up |
| StepBudget.BatchTokens | backend/api/app/application/agent_loop.py:382-416 | for every interleaving the tokens charged are what the recorded calls cost |
| StepLoop.StepAgentLoop.RunLoop | backend/api/app/application/agent_loop.py:291-380 | the messages tell the turns one after the other, every call with one reply that carries its own output or its refusal; the calls of every turn ran once each and after what they need; on the limit of all calls and of each tool the charge is the number of calls not refused, and overruns the limit by less than the largest group that ran together; executed calls respect the step's allowance; the loop ends for the reason given |
| StepTurns.WidthOfTurnsIs | backend/api/app/application/agent_loop.py:325-344 | that largest group is one that ran in one of the turns |
| StepTurns.SequentialWidth | backend/api/app/application/agent_loop.py:326-342 | without parallel batches every group is a single call, so no limit is overrun |
| StepLoop.StepAgentLoop.RunTurn | backend/api/app/application/agent_loop.py:318-378 | a turn runs its calls in order of need and feeds each outcome back to its own request, under its own id |
| StepLoop.StepAgentLoop.RunCalls | backend/api/app/application/agent_loop.py:325-345 | every call runs exactly once, in a later group than all it needs, or one by one in request order when the needs form a cycle; outcomes come back in request order whatever the batches and the schedule |
| StepLoop.StepAgentLoop.RunBatches | backend/api/app/application/agent_loop.py:325-344 | batch after batch every offset is filled exactly once, and the groups run are those of the batches |
| StepLoop.StepAgentLoop.RunBatch | backend/api/app/application/agent_loop.py:326-344 | a batch runs as one group if it may and call by call otherwise, fills its own offsets and no other, and overruns the budget by less than its width |
| CallOrder.PlanRunsInOrder | backend/api/app/application/agent_loop.py:326-344 | a plan, run as groups or call by call, runs every call once and after all it needs |
| CallOrder.OneByOneRunsInOrder | backend/api/app/application/agent_loop.py:437-444 | the fallback for a cycle runs every call once, in request order, with or without parallel batches |
| StepLoop.StepAgentLoop.Gather | backend/api/app/application/agent_loop.py:382-416 | calls that run together end as some interleaving of their checks and records |
| StepLoop.StepAgentLoop.PlanBatches | backend/api/app/application/agent_loop.py:418-449 | one call per batch in request order iff the tags of the tools form a cycle, and otherwise the plan that delays no call longer than its needs |
| StepLoop.StepAgentLoop.Absorb | backend/api/app/application/agent_loop.py:347-378 | assistant message, one reply per call in request order with that call's own outcome, nudges, and a note iff a call was refused by the budget |
| StepTurns.IdsMatchExactly | backend/api/app/application/agent_loop.py:98-117 | reply id and announced id agree iff the model supplied one |
| StepTurns.NudgedAtMultiples | backend/api/app/application/agent_loop.py:527-537 | the repeat counter is the length of the current run of equal calls modulo the limit, so nudges come exactly at its multiples |
| StepReplies.TurnIsTold | backend/api/app/application/agent_loop.py:347-378 | the messages of a turn: the announcement, one reply per call at ascending places with its tool, id and own output or literal refusal, a nudge exactly at each multiple of the repeat limit, and a note iff some call was refused |
| StepReplies.RunIsTold | backend/api/app/application/agent_loop.py:291-380 | for any turns the loop may have run its messages tell each turn, one after the other |
| StepReplies.CallsAreListed | backend/api/app/application/agent_loop.py:347-360 | the result lists every call of every turn in order, under its turn and id, with its tool and outcome |
| StepReplies.MadeUpIdsDiffer | backend/api/app/application/agent_loop.py:382-416 | ids made up for two calls of a run are the same only for the same call |
| StepReplies.NeedsComeFirst | backend/api/app/domain/agent_core/tool_deps.py:72-114 | a call that needs a tag another call of its turn gives runs in a later group than that one, unless calls wait for one another |
| TaskState.Validate | backend/api/app/application/checkpoint_service.py:37-97 | the loops collect the problems of the validation function in order |
| TaskState.ValidExactly | backend/api/app/application/checkpoint_service.py:37-97 | valid iff the event range is in order, every fact has evidence and the parent's constraints are kept |
| TaskState.StoredIsNormal | backend/api/app/infrastructure/repositories/control_plane_repository.py:193-218 | storing facts is idempotent |
| TaskState.MergedExactly | backend/api/app/application/control_plane_service.py:59-61 | field by field, an absent field keeps its value and a given one replaces it; one state only satisfies this |
| ControlPlane.ControlPlaneService.CreateTask | backend/api/app/application/control_plane_service.py:34-40 | a new task with version 1, or an error and no change |
| ControlPlane.ControlPlaneService.UpdateTask | backend/api/app/application/control_plane_service.py:51-76 | compare-and-set on the version, the error cases, and the whole new state |
| ControlPlane.ControlPlaneService.CreateCheckpoint | backend/api/app/application/control_plane_service.py:78-118 | a checkpoint of the validated snapshot, or an error and no change |
| ControlPlane.ControlPlaneService.RestoreCheckpoint | backend/api/app/application/control_plane_service.py:124-179 | a restore is one update with the checkpoint's fields, or an error and no change |
| ControlPlane.GoodAlways | backend/api/app/application/control_plane_service.py:87-118 | after any operations tasks are in stored form, parents are older checkpoints of the same task and digests match their snapshots |
| CheckpointLaws.NoLostUpdate | backend/api/app/infrastructure/repositories/control_plane_repository.py:47-74 | an expected version is good for one update, whatever happens later |
| CheckpointLaws.VersionCountsUpdates | backend/api/app/application/control_plane_service.py:51-76 | the version is one more than the successful updates and restores of the task |
| CheckpointLaws.DigestAfterUpdate | backend/api/app/application/control_plane_service.py:51-76 | the stored digest matches the stored state iff the facts were given in stored form |
| CheckpointLaws.DigestAfterCreate | backend/api/app/application/control_plane_service.py:34-40 | the digest of a new task never matches |
| CheckpointLaws.RestoreSucceedsExactly | backend/api/app/application/control_plane_service.py:124-179 | in every reachable store, iff the checkpoint is one of the task and the version is current |
| CheckpointLaws.RestoreResult | backend/api/app/application/control_plane_service.py:124-179 | the restored state is the checkpoint's in every field but the status and a missing environment; digest exact, version up by one, nothing else changed |
| CheckpointLaws.RestoreInvertsCheckpoint | backend/api/app/application/control_plane_service.py:124-179 | taken, then anything, then restored: as it was but for the status, iff it held an environment or the task holds none now |
| CheckpointLaws.ConstraintsAreInherited | backend/api/app/application/checkpoint_service.py:68-82 | at any distance an ancestor is an older checkpoint of the same task whose constraints the descendant keeps, and both digests match |
| CheckpointLaws.ChainsAreAcyclic | backend/api/app/application/control_plane_service.py:87-118 | no checkpoint is its own ancestor |
| ControlOutcomes.FactsExactly | backend/api/app/infrastructure/repositories/control_plane_repository.py:193-218 | facts are stored in order with what was given, and by default a numbered id of three digits at least, the active status and, for requirements, their source as evidence |
| ControlOutcomes.CreateExactly | backend/api/app/application/control_plane_service.py:34-40 | refused iff two facts share an id; otherwise the next id, version 1, every field as given, and nothing else changes |
| ControlOutcomes.UpdateExactly | backend/api/app/application/control_plane_service.py:51-76 | in every reachable store: unknown, another version, a shared id, in this order; otherwise exactly the given fields of this task are replaced and its version goes up by one |
| ControlOutcomes.CheckpointExactly | backend/api/app/application/control_plane_service.py:78-118 | refused iff the task or the parent is unknown, the parent is of another task, or the state has an empty range, unsupported facts or lost constraints; otherwise it holds the task as it is with what was given |
| ControlOutcomes.RestoreExactly | backend/api/app/application/control_plane_service.py:124-179 | in every reachable store it fails only for a foreign checkpoint or another version, and leaves the task running iff it is to be resumed and paused otherwise |
| TaskRunner.AgentTaskRunner.StartMessage | backend/api/app/application/agent_task_runner.py:110-116 | a fetched message starts exactly one coroutine, under its own key and waiting for a slot; an active key's coroutine is left alone and nothing else changes |
| TaskRunner.AgentTaskRunner.CancelTask | backend/api/app/application/agent_task_runner.py:67-75 | true iff the task is active, and then its coroutine alone is cancelled |
| TaskRunner.AgentTaskRunner.StopAll | backend/api/app/application/agent_task_runner.py:50-65 | the loop stops, then every coroutine is cancelled once; what is left must look its task up before it may acknowledge, and nothing was acknowledged on the way |
| TaskRunnerLaws.AcknowledgingIsExcused | backend/api/app/application/agent_task_runner.py:118-167 | in every reachable state, whoever acknowledges a message does so while it is malformed, about no task, or about a task whose status settles now |
| TaskRunnerLaws.AcknowledgementsAreDecided | backend/api/app/application/agent_task_runner.py:118-133 | every acknowledgement of any run was decided under such an excuse, at a point of the run where a coroutine was about to write it |
| TaskRunnerLaws.AcknowledgedUnderItsExcuse | backend/api/app/application/agent_task_runner.py:118-133 | when it is written the excuse still holds, unless it was detached from its coroutine |
| TaskRunnerLaws.AcknowledgedWhileRunning | backend/api/app/application/agent_task_runner.py:130-133 | a detached one may land while the redelivered message is executed |
| TaskRunnerLaws.ShutdownAcknowledgesOnlyAborted | backend/api/app/application/agent_task_runner.py:50-65 | after a shutdown, whatever follows but a new start, a message is acknowledged only if it was being acknowledged before or its cancelled coroutine found the task aborted |
| TaskRunnerLaws.OneCoroutinePerTask | backend/api/app/application/agent_task_runner.py:110-116 | two live coroutines never work on the same task |
| TaskRunnerLaws.HandlersAreBounded | backend/api/app/application/agent_task_runner.py:118-133 | at most max_concurrency coroutines are past the semaphore |
| TaskRunnerLaws.DeliveredExactly | backend/api/app/infrastructure/tasks/local_queue.py:89-134 | a message is delivered iff the loop runs, it is unacknowledged, and it is reserved while unreserved or reclaimed with an old reservation |
| TaskRunnerLaws.ReleasedOnlyByRestart | backend/api/app/infrastructure/tasks/local_queue.py:70-82 | only a new start gives reservations up, and only when nobody works any more |
| TaskRunnerLaws.ReservedStaysUndelivered | backend/api/app/domain/tasks/queue.py:13-16 | without a new start and without reclaiming it a reserved message is never delivered again |
| TaskRunnerLaws.WorkIsReserved | backend/api/app/application/agent_task_runner.py:87-116 | what is delivered or worked on is reserved; reclaiming it leaves its coroutine alone |
| TaskRunnerLaws.TakenUpByRestart | backend/api/app/application/agent_task_runner.py:77-101 | in every reachable state an unacknowledged message is released by the next start, delivered and looked up |
| TaskRunnerLaws.TakenUpByReclaim | backend/api/app/application/agent_task_runner.py:87-95 | without a restart it is taken up once its reservation is old, if nobody works on its task and a slot is free |
| TaskRunnerLaws.UnsettledWorkCanBeTakenUp | backend/api/app/application/agent_task_runner.py:77-133 | as long as a task never settled its message is unacknowledged, so the next start takes it up |
| TaskRunnerLaws.RunsAgainUnlessAborted | backend/api/app/application/agent_task_runner.py:135-167 | a message taken up again is executed iff the status of its task is not aborted at the lookup |
| TaskRunnerLaws.CompletedButNotAcknowledged | backend/api/app/application/agent_task_runner.py:118-167 | from every state where a task can run, a crash can leave it completed with its message unacknowledged |
| TaskRunnerLaws.StopSurvivesExactly | backend/api/app/application/agent_task_runner.py:144-167 | in every reachable state a stop holds through every further run iff no coroutine of the task is past its lookup and may still write a status |
| TaskRunnerLaws.StopAndCancelSurvives | backend/api/app/application/agent_task_runner.py:67-75 | stopping a task and cancelling its coroutine holds for ever iff the coroutine was not writing a status or its write does not go through |
| TaskRunnerLaws.StopIsOverwritten | backend/api/app/application/agent_task_runner.py:138-148 | a stop between the lookup and the mark is lost: the task is running and executed |
| TaskOutcomes.StatusChangesExactly | backend/api/app/application/agent_task_runner.py:135-167 | in every reachable state the status of a task changes only to stopped, by its user and while it is open, or to what its own coroutine is writing where it waits |
| TaskOutcomes.ErroredFails | backend/api/app/application/agent_task_runner.py:157-159 | an execution that raised: the task is failed, and its message acknowledged only after that |
| TaskOutcomes.BlockedWaits | backend/api/app/application/agent_task_runner.py:180-187 | one that is blocked: the task waits, and its message is acknowledged only after that |
| TaskOutcomes.DoneCompletes | backend/api/app/application/agent_task_runner.py:161-164 | one that ran through is looked up again |
| TaskOutcomes.RecheckedCompletes | backend/api/app/application/agent_task_runner.py:163-167 | completed unless it is aborted by then, and then left as it is; acknowledged only after that |
| TaskOutcomes.LookupDecides | backend/api/app/application/agent_task_runner.py:144-148 | a task that is missing or aborted is acknowledged, any other is marked running |
| TaskOutcomes.UnsupportedFails | backend/api/app/application/agent_task_runner.py:169-177 | marked running, a supported message is executed and any other is failed without executing |
| TaskOutcomes.RaiseFails | backend/api/app/application/agent_task_runner.py:149-159 | a raise while executing or marking the wait fails the task; elsewhere it ends the coroutine with nothing written or acknowledged |
| TaskOutcomes.SlotDecides | backend/api/app/application/agent_task_runner.py:118-142 | a malformed message is acknowledged as soon as a slot is free, any other is looked up |
| TaskOutcomes.CancelDecides | backend/api/app/application/agent_task_runner.py:123-133 | a coroutine that waits for a slot goes, one that acknowledges is shielded, any other looks its task up |
| TaskOutcomes.CancelledAcknowledgesExactly | backend/api/app/application/agent_task_runner.py:124-133 | a cancelled coroutine acknowledges iff it finds its task aborted |
| TaskOutcomes.EnqueueExactly | backend/api/app/infrastructure/tasks/local_queue.py:145-178 | a new task is queued and its message names it; nothing else changes |
| Retrieval.ShortenFits | backend/api/app/application/memory_retrieval_service.py:313-325 | a shortened text fits, and is the text or a beginning of full length less at most one character |
| Retrieval.MemoryRetrieval.Retrieve | backend/api/app/application/memory_retrieval_service.py:94-161 | hits then linked memories as the packing function says; exactly the items returned are recorded as used, in order |
| Retrieval.MemoryRetrieval.PackHits | backend/api/app/application/memory_retrieval_service.py:94-111 | the packing loop with its early exit gives the packing function's context |
| Retrieval.MemoryRetrieval.PackLinks | backend/api/app/application/memory_retrieval_service.py:135-152 | the inner loop gives the neighbours the packing function adds, and records each |
| Retrieval.MemoryRetrieval.ExpandHits | backend/api/app/application/memory_retrieval_service.py:118-152 | the outer loop over the direct hits, stopping when the links are used up |
| RetrievalLaws.HitsFit | backend/api/app/application/memory_retrieval_service.py:94-111 | hits fit both budgets, are distinct, in rank order and cut from their memories |
| RetrievalLaws.NothingIsPassedOver | backend/api/app/application/memory_retrieval_service.py:94-111 | while the context is not full every ranked memory with a text is in it |
| RetrievalLaws.HitsAreFilled | backend/api/app/application/memory_retrieval_service.py:94-111 | a hit is its memory shortened to the room the better ones leave and no further, marked truncated iff it is |
| RetrievalLaws.ExpandExtends | backend/api/app/application/memory_retrieval_service.py:118-152 | expansion keeps the hits, stays within both budgets and adds only memories linked to a hit |
| RetrievalLaws.LinksAreNeighbours | backend/api/app/application/memory_retrieval_service.py:118-152 | every linked item is made of a neighbour of its parent, shortened to the room left and no further; they come in the order of the hits and, for each, of its neighbours |
| RetrievalLaws.NoNeighbourIsPassedOver | backend/api/app/application/memory_retrieval_service.py:135-152 | a neighbour with a text is left out only if it is known already, or if links or characters were used up when its turn came, and then nothing follows |
| RetrievalLaws.RetrievedIsBounded | backend/api/app/application/memory_retrieval_service.py:94-161 | characters used are the sum of the items and within the total, ids distinct, at most limit plus link items, hits first |
| QueryContext.BuildContext | backend/api/app/application/rag_service.py:552-568 | the loop cites what the citing function cites |
| QueryContext.CitedIsABeginning | backend/api/app/application/rag_service.py:552-568 | passages are the first of the ranking, numbered from 1, whole or cut to the room left, within the budget |
| QueryContext.StopsExactly | backend/api/app/application/rag_service.py:552-568 | the context ends at the first text that comes after the last passage asked for, finds no room, or is longer than the room where at most 12 characters are left; each passage before it is its text as far as there was room |
| QueryContext.CutOnce | backend/api/app/application/rag_service.py:558-565 | at most one passage is cut, and what follows it has at most one character |
| IndexingService.RagService.IngestDocument | backend/api/app/application/rag_service.py:207-257 | rejected iff the text is empty, too long or a duplicate, raised if adding it fails, and otherwise what processing comes to; what returns is a complete document, and the store stays sound in any case |
| IndexingService.RagService.ProcessDocument | backend/api/app/application/rag_service.py:296-374 | ready iff there are pieces and none of its five steps fails, raised iff the first mark fails or the mark of a failure does, failed otherwise; ready with the whole index, failed or raised with none; other documents are untouched |
| IndexingService.RagService.BuildIndex | backend/api/app/application/rag_service.py:307-363 | built iff there are pieces and none of the four steps fails; built, the document is ready and complete; not built, nothing is committed |
| IndexingService.RagService.WriteIndex | backend/api/app/application/rag_service.py:330-363 | written iff neither of its steps fails; then the whole index, numbered from 0 with one vector each, is committed with the ready mark and the chunk count, and otherwise nothing is |
| IndexingService.RagService.MarkFailed | backend/api/app/application/rag_service.py:364-374 | uncommitted work is gone and the document is failed with no chunks, or nothing changes |
| IndexingService.RagService.ReingestDocument | backend/api/app/application/rag_service.py:376-387 | rejected iff unknown, raised if dropping the old index fails, and otherwise what processing comes to; what returns is a complete document, and the store stays sound in any case |
| IndexingService.RagService.DeleteDocument | backend/api/app/application/rag_service.py:401-412 | rejected iff unknown, deleted iff known and neither drop step fails; a deleted document is gone with its chunks and vectors and no other is touched; a raise changes nothing of what is stored |
| IndexingLaws.ProcessOutcome | backend/api/app/application/rag_service.py:296-374 | ready with the whole index, failed with none, or raised with none; other documents are untouched |
| IndexingLaws.IngestSound | backend/api/app/application/rag_service.py:207-257 | an ingest that returns leaves a complete document, and any ingest keeps the store sound |
| IndexingLaws.ReingestSound | backend/api/app/application/rag_service.py:376-387 | a reingest that returns leaves a complete document; one that raises empties a ready one iff the step after giving up the index raised |
| IndexingLaws.DeleteSound | backend/api/app/application/rag_service.py:401-412 | a deleted document leaves nothing behind; a delete that raises changes nothing |
| IndexingOutcomes.ProcessExactly | backend/api/app/application/rag_service.py:296-374 | ready iff there are pieces and no step fails; raised iff the first mark fails, or a later step breaks off and the mark of the failure fails; failed otherwise |
| IndexingOutcomes.IngestExactly | backend/api/app/application/rag_service.py:207-257 | rejected iff empty, too long or a duplicate; raised if adding fails; otherwise as processing decides |
| IndexingOutcomes.ReingestExactly | backend/api/app/application/rag_service.py:376-387 | rejected iff unknown; raised iff a drop step fails or processing raises; otherwise as processing decides |
| IndexingOutcomes.DeleteExactly | backend/api/app/application/rag_service.py:401-412 | rejected iff unknown, deleted iff known and neither drop step fails, raised otherwise |
| IndexingOutcomes.OutsideAfterDelete | backend/api/app/application/rag_service.py:401-412 | with an outside store a delete whose first step gets through takes exactly the vectors of the document away for good, even if it then raises |
| IndexingOutcomes.IngestsWhatItCan | backend/api/app/application/rag_service.py:207-257 | where no step fails, a new text that splits into something becomes ready with all its chunks, one vector each and the chunk count |
| IndexingLaws.NoHalfBuiltIndex | backend/api/app/application/rag_service.py:296-412 | with a transactional store, after any operations and faults, ready documents have chunks 0 to n-1 with one vector each or were emptied, all others have none, and no part is orphaned |
| IndexingLaws.OutsideStoreKeepsOrphans | backend/api/app/application/rag_service.py:330-374 | a document that fails leaves exactly the vectors written; it leaves the outside store as it was iff processing broke off before the vectors or the failing write wrote none |
| IndexingLaws.OutsideIsBelow | backend/api/app/application/rag_service.py:314-352 | in every reachable store new vectors take over no id that an outside vector has |
| Paths.SplitJoin | backend/sandbox-ts/src/files.ts:40-44 | splitting undoes joining |
| Paths.ResolveOne | backend/sandbox-ts/src/files.ts:17-17 | a text of one part leads nowhere, up or down from where it starts |
| Paths.ResolveStep | backend/sandbox-ts/src/files.ts:17-17 | each further part of a text leads on from where the text before it led: nowhere for an empty part or a dot, up for two dots but not above the top, down for a name |
| Paths.RelativeBelow | backend/sandbox-ts/src/files.ts:159-163 | the way to a path below is its remaining segments |
| Paths.RelativeAbove | backend/sandbox-ts/src/files.ts:159-163 | any other way begins with two dots |
| SandboxFiles.InsideExactly | backend/sandbox-ts/src/files.ts:159-163 | the inside check lets through exactly the paths below the root whose text neither begins with two dots nor looks absolute |
| SandboxFiles.DottedNamesAreRefused | backend/sandbox-ts/src/files.ts:159-163 | a name beginning with two dots lies inside and is refused |
| SandboxFiles.RootInside | backend/sandbox-ts/src/files.ts:9-22 | every root lies within the mount |
| SandboxFiles.RootExactly | backend/sandbox-ts/src/files.ts:9-22 | the mount for full access or an empty name; otherwise the mount followed by the names of the trimmed workspace, refused iff it leaves the mount or its names, printed, look as if they went up or were absolute |
| SandboxFiles.TrimExactly | backend/sandbox-ts/src/files.ts:13-13 | trimming takes the white space at both ends and nothing else |
| SandboxFiles.LeadingSlashesExactly | backend/sandbox-ts/src/files.ts:13-13 | all slashes at the beginning go and nothing else |
| SandboxFiles.TrailingSlashesExactly | backend/sandbox-ts/src/files.ts:13-13 | all slashes at the end go and nothing else |
| SandboxFiles.AcceptedIsContained | backend/sandbox-ts/src/files.ts:24-38 | every accepted path lies below its root, which lies below the mount, in proper segments |
| SandboxFiles.AcceptedExactly | backend/sandbox-ts/src/files.ts:24-38 | which texts are accepted, exactly, and that the target is the root followed by their names |
| SandboxFiles.RefusedExactly | backend/sandbox-ts/src/files.ts:24-38 | why a text is refused: as absolute, for a ".." part, for its workspace, for its names, in this order; the root may be named but not deleted |
| SandboxFiles.RootIsNeverDeleted | backend/sandbox-ts/src/files.ts:131-136 | what is deleted lies strictly below the root |
| SandboxFiles.RoundTripExactly | backend/sandbox-ts/src/files.ts:40-44 | a path below the root, printed and resolved, comes back iff its text has no edge whitespace, is not absolute, has no ".." part and does not begin with two dots |
| SandboxFiles.AcceptedRoundTrip | backend/sandbox-ts/src/files.ts:24-44 | for an accepted target it comes back iff its text has no edge whitespace |
| SandboxFiles.RootComesBack | backend/sandbox-ts/src/files.ts:40-44 | the root itself always comes back |

## Left out

- MachineLoop.ExecutionMachine.Stream: the answers of the collaborators are given as a sequence; an executor that raises in the middle of a step, after part of its events, is modelled as raising after any loose events of its own step; texts inside events are not modelled.
- ReactService.AgentService.StreamLatestPlan: the status is committed after the run's events rather than between them; the trimmed step history that a resumed run gets as context, and the identity checks on malformed events, are not modelled.
- ToolRuntime.ToolRuntime.Execute: the request hash is injective, redaction is an arbitrary function, sizes are in characters, cache hit counters and a cache lifetime of zero or less are absent; refusals and notes are reduced to what they say, without permission names and artifact ids; calls that overlap without a unit of work are not modelled, only serialized ones.
- StepLoop.StepAgentLoop.RunLoop: the outputs of its calls are any function of turn and offset, not tied to one tool runtime; the fallback from one strategy to the other and to rules, a repeat limit below 1, exceptions that are not application errors and the wording of summaries are absent.
- ToolBatches.PlanParallelBatches: the path that is reported for a cycle is not computed.
- ControlPlane.ControlPlaneService.UpdateTask: the order of facts with equal time stamps, defaults of absent fields, artifacts, environment snapshots and the validator's warnings are absent; an absent fact field is an empty text.
- TaskRunner.AgentTaskRunner.StartMessage: the queue is the single-process one, and a reservation may grow old at any time; the Redis queue and the wait for capacity are absent.
- Retrieval.MemoryRetrieval.Retrieve: scoring, ranking and the recorded trace are absent; the ranking and the graph are arbitrary.
- IndexingService.RagService.IngestDocument: splitting and embeddings are arbitrary functions; statistics, titles, images and the deletion of a whole knowledge base are absent.
- SandboxFiles.AcceptedIsContained: symbolic links, the effects on files, Windows paths and a mount that is not normalized are absent.
- White space in plan texts is the ASCII white space only; Python strips more.
- Prompts, model calls, parsing of model output, streaming of text, vector search and fusion of rankings.
- HTTP routes, authentication, settings, migrations, sessions, skills, the write gate, the front end and the terminal interface: thin layers without a property that spans operations.
