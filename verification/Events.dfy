/** Session events, the identity they carry, and the plan they talk about. */
module Events {
  import opened Basics

  datatype Status =
    | Pending | Running | Succeeded | Failed | TimedOut | Denied | ApprovalRequired | Deduplicated

  predicate IsSuccess(s: Status) { s == Succeeded || s == Deduplicated }

  predicate IsFinalFailure(s: Status) { s == Failed || s == TimedOut || s == Denied }

  datatype Action = Accept | Retry | Replan | Fail

  /** Identity of one attempt at one step: the five fields of the source's AttemptKey. */
  datatype StepKey = StepKey(runId: string, planId: string, revision: nat, stepId: string, attempt: nat)

  datatype Stage = GateStage | ScopeStage | CoverageStage

  datatype Event =
    | PlanCreated(runId: string, planId: string, revision: nat)
    | StepStarted(key: StepKey, index: nat)
    | ToolCalled(key: StepKey, index: nat, tool: string, status: Status)
    | StepReflected(key: StepKey, index: nat, status: Status, action: Action)
    | StepCompleted(key: StepKey, index: nat)
    | StepFailed(key: StepKey, index: nat)
    | StepBlocked(key: StepKey, index: nat)
    | TaskError(runId: string, revision: nat)
    | GateStarted(revision: nat, command: string)
    | GateFinished(revision: nat, command: string, passed: bool)
    | ScopeFinished(revision: nat, inScope: bool)
    | CoverageFinished(revision: nat, adequate: bool, enforced: bool)
    | ChainFinished(revision: nat, ran: set<Stage>)
    | MessageCreated
    | TaskDone(runId: string, revision: nat)

  type Log = seq<Event>

  /** The revision in an event's payload; a message has none. */
  function RevisionOf(e: Event): Option<nat> {
    match e
    case MessageCreated => None
    case StepStarted(key, _) => Some(key.revision)
    case ToolCalled(key, _, _, _) => Some(key.revision)
    case StepReflected(key, _, _, _) => Some(key.revision)
    case StepCompleted(key, _) => Some(key.revision)
    case StepFailed(key, _) => Some(key.revision)
    case StepBlocked(key, _) => Some(key.revision)
    case _ => Some(e.revision)
  }

  /** An event of a revision, or of none. */
  predicate IsOf(e: Event, revision: nat) { RevisionOf(e).None? || RevisionOf(e) == Some(revision) }

  /** A step carries the id text of the payload and the id text the machine prints
      after parsing it as a UUID; the two differ when the payload is not canonical. */
  datatype PlanStep = PlanStep(rawId: string, id: string)

  /** `command` is the stripped command, empty when the plan declares none. */
  datatype Acceptance = Acceptance(command: string, allowRetry: bool, enforceCoverage: bool)

  /** `allowed` holds the non-empty globs only. */
  datatype ScopeDecl = ScopeDecl(allowed: seq<string>, allowRetry: bool)

  datatype Plan = Plan(
    id: string,
    revision: nat,
    steps: seq<PlanStep>,
    acceptance: Option<Acceptance>,
    scope: Option<ScopeDecl>)

  predicate IsSpace(c: char) { c == ' ' || c == '\t' || c == '\n' || c == '\r' }

  predicate Blank(s: string) { forall i :: 0 <= i < |s| ==> IsSpace(s[i]) }

  /** The command the acceptance gate runs, if the plan declares one. */
  function GateCommand(plan: Plan): Option<string> {
    if plan.acceptance.Some? && plan.acceptance.value.command != ""
    then Some(plan.acceptance.value.command) else None
  }

  predicate HasScopePolicy(plan: Plan) { plan.scope.Some? && plan.scope.value.allowed != [] }

  predicate GateAllowsRetry(plan: Plan) { plan.acceptance.Some? ==> plan.acceptance.value.allowRetry }

  predicate ScopeAllowsRetry(plan: Plan) { plan.scope.Some? ==> plan.scope.value.allowRetry }

  predicate EnforcesCoverage(plan: Plan) { plan.acceptance.Some? && plan.acceptance.value.enforceCoverage }
}
