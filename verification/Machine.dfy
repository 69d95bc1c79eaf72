/** The agent execution machine as a transition function: what one node does to a
    snapshot, given the answers of the collaborators it calls. */
module Machine {
  import opened Basics
  import opened Events
  import Evidence

  datatype Phase =
    | Executing | Reflecting | Replanning | Summarizing | Completed | Failed | Blocked

  predicate Terminal(p: Phase) { p.Completed? || p.Failed? || p.Blocked? }

  /** Which optional collaborators are injected, and the retry allowance. */
  datatype Config = Config(gate: bool, scope: bool, coverage: bool, replanner: bool, maxRetries: nat)

  datatype State = State(
    runId: string,
    revision: nat,
    phase: Phase,
    index: nat,
    attempt: nat,
    observation: Option<Status>)

  datatype Snapshot = Snapshot(state: State, plan: Plan, events: Log)

  datatype ToolRun = ToolRun(tool: string, status: Status)

  datatype Verdict = Verdict(gatePassed: bool, inScope: bool, adequate: bool)

  /** What the collaborators of one node answer; an answer that does not fit the
      current phase stands for a collaborator that raises. */
  datatype Answer =
    | Executed(tools: seq<ToolRun>)
    | Judged(action: Action)
    | Replaced(plan: Plan)
    | Reviewed(verdict: Verdict, answer: string)
    | Crashed

  datatype Outcome = Reached(snap: Snapshot) | Raised

  // ---------------------------------------------------------------- run state

  function FromPlan(runId: string, plan: Plan, revision: nat, start: int): State {
    var n := |plan.steps|;
    var index: nat := if start < 0 then 0 else start;
    if n != 0 && index >= n
    then State(runId, revision, Summarizing, n - 1, 1, None)
    else State(runId, revision, Executing, index, 1, None)
  }

  function Initial(runId: string, plan: Plan, start: int): Snapshot {
    Snapshot(FromPlan(runId, plan, plan.revision, start), plan, [])
  }

  function AfterExecution(st: State, status: Status): Option<State> {
    if IsSuccess(status) || IsFinalFailure(status)
    then Some(st.(phase := Reflecting, observation := Some(status)))
    else if status == ApprovalRequired
    then Some(st.(phase := Blocked, observation := Some(status)))
    else None
  }

  function AfterReflection(st: State, action: Action, stepCount: nat): State {
    match action
    case Retry => st.(phase := Executing, attempt := st.attempt + 1)
    case Replan => st.(phase := Replanning)
    case Accept =>
      if st.index + 1 == stepCount then st.(phase := Summarizing)
      else st.(phase := Executing, index := st.index + 1, attempt := 1)
    case Fail => st.(phase := Phase.Failed)
  }

  // ---------------------------------------------------------------- event identity

  /** Identity written by the step executor: the id text of the plan payload. */
  function RequestKey(s: Snapshot): StepKey
    requires s.state.index < |s.plan.steps|
  {
    StepKey(s.state.runId, s.plan.id, s.state.revision, s.plan.steps[s.state.index].rawId, s.state.attempt)
  }

  /** Identity written by the machine: the id text of the parsed plan. */
  function StateKey(s: Snapshot): StepKey
    requires s.state.index < |s.plan.steps|
  {
    StepKey(s.state.runId, s.plan.id, s.state.revision, s.plan.steps[s.state.index].id, s.state.attempt)
  }

  function Extend(s: Snapshot, more: Log): Snapshot {
    s.(events := s.events + more)
  }

  // ---------------------------------------------------------------- executing

  function ToolEvents(key: StepKey, index: nat, tools: seq<ToolRun>): Log {
    seq(|tools|, i requires 0 <= i < |tools| => ToolCalled(key, index, tools[i].tool, tools[i].status))
  }

  function LastStatus(tools: seq<ToolRun>): Status {
    if tools == [] then Succeeded else tools[|tools| - 1].status
  }

  function ExecutionEvents(s: Snapshot, tools: seq<ToolRun>): Log
    requires s.state.index < |s.plan.steps|
  {
    [StepStarted(RequestKey(s), s.state.index)] + ToolEvents(RequestKey(s), s.state.index, tools)
  }

  function ExecuteNode(s: Snapshot, tools: seq<ToolRun>): Outcome {
    if s.state.index >= |s.plan.steps| then Raised
    else
      match AfterExecution(s.state, LastStatus(tools))
      case None => Raised
      case Some(next) =>
        var blocked := if next.phase.Blocked? then [StepBlocked(StateKey(s), s.state.index)] else [];
        Reached(Snapshot(next, s.plan, s.events + ExecutionEvents(s, tools) + blocked))
  }

  // ---------------------------------------------------------------- reflecting

  function Reflected(s: Snapshot, action: Action): Event
    requires s.state.index < |s.plan.steps| && s.state.observation.Some?
  {
    StepReflected(StateKey(s), s.state.index, s.state.observation.value, action)
  }

  function ReflectionEvents(s: Snapshot, next: State, action: Action): Log
    requires s.state.index < |s.plan.steps|
  {
    if action == Accept then [StepCompleted(StateKey(s), s.state.index)]
    else if next.phase.Failed? then
      [StepFailed(StateKey(s), s.state.index), TaskError(s.state.runId, s.state.revision)]
    else []
  }

  /** Applies a reflection to a reflecting snapshot; shared by the critic and by the chain. */
  function Reflect(s: Snapshot, action: Action): Outcome {
    if s.state.observation.None? || s.state.index >= |s.plan.steps| then Raised
    else
      var next := AfterReflection(s.state, action, |s.plan.steps|);
      Reached(Snapshot(next, s.plan, s.events + [Reflected(s, action)] + ReflectionEvents(s, next, action)))
  }

  function ReflectNode(s: Snapshot, action: Action): Outcome {
    if action == Accept && (s.state.observation.None? || !IsSuccess(s.state.observation.value)) then Raised
    else Reflect(s, action)
  }

  // ---------------------------------------------------------------- replanning

  function ReplanNode(cfg: Config, s: Snapshot, replacement: Plan): Outcome {
    if !cfg.replanner then Raised
    else
      var revision := s.state.revision + 1;
      var plan := replacement.(revision := revision);
      Reached(Snapshot(FromPlan(s.state.runId, plan, revision, 0), plan,
                       s.events + [PlanCreated(s.state.runId, plan.id, revision)]))
  }

  // ---------------------------------------------------------------- acceptance chain

  predicate IsGateFailure(e: Event) { e.GateFinished? && !e.passed }

  /** Failures that consume the shared allowance: a coverage failure only when enforced. */
  predicate IsAuditFailure(e: Event) {
    || IsGateFailure(e)
    || (e.ScopeFinished? && !e.inScope)
    || (e.CoverageFinished? && e.enforced && !e.adequate)
  }

  function GateFailureOf(command: string): Event -> bool {
    (e: Event) => IsGateFailure(e) && e.command == command
  }

  function CountGateFailures(log: Log, command: string): nat { Count(log, GateFailureOf(command)) }

  function CountAuditFailures(log: Log): nat { Count(log, IsAuditFailure) }

  /** A failed stage: the reflection the chain makes up, handed to the router. */
  function ChainFailed(s: Snapshot, stageEvents: Log, canRetry: bool): Outcome {
    Reflect(Extend(s, stageEvents).(state := s.state.(phase := Reflecting)),
            if canRetry then Retry else Fail)
  }

  datatype StageResult = Skip | Pass(events: Log) | Stop(outcome: Outcome)

  function RunGate(cfg: Config, s: Snapshot, v: Verdict): StageResult {
    if !cfg.gate || GateCommand(s.plan).None? then Skip
    else
      var command := GateCommand(s.plan).value;
      var events := [GateStarted(s.state.revision, command),
                     GateFinished(s.state.revision, command, v.gatePassed)];
      if v.gatePassed then Pass(events)
      else Stop(ChainFailed(s, events,
                            GateAllowsRetry(s.plan) && CountGateFailures(s.events, command) < cfg.maxRetries))
  }

  function RunScope(cfg: Config, s: Snapshot, v: Verdict): StageResult {
    if !cfg.scope || !HasScopePolicy(s.plan) then Skip
    else
      var events := [ScopeFinished(s.state.revision, v.inScope)];
      if v.inScope then Pass(events)
      else Stop(ChainFailed(s, events,
                            ScopeAllowsRetry(s.plan) && CountAuditFailures(s.events) < cfg.maxRetries))
  }

  function RunCoverage(cfg: Config, s: Snapshot, v: Verdict): StageResult {
    if !cfg.coverage then Skip
    else
      var events := [CoverageFinished(s.state.revision, v.adequate, EnforcesCoverage(s.plan))];
      if EnforcesCoverage(s.plan) && !v.adequate
      then Stop(ChainFailed(s, events,
                            GateAllowsRetry(s.plan) && CountAuditFailures(s.events) < cfg.maxRetries))
      else Pass(events)
  }

  function Ran(r: StageResult, stage: Stage): set<Stage> { if r.Pass? then {stage} else {} }

  function PassEvents(r: StageResult): Log { if r.Pass? then r.events else [] }

  /** The snapshot the next stage sees. */
  function After(s: Snapshot, r: StageResult): Snapshot { if r.Pass? then Extend(s, r.events) else s }

  /** One summing-up event when at least two stages ran. */
  function CloseChain(s: Snapshot, ran: set<Stage>): Snapshot {
    if |ran| < 2 then s else Extend(s, [ChainFinished(s.state.revision, ran)])
  }

  /** The summary itself: it needs evidence and a non-blank answer. */
  function Summarize(s: Snapshot, answer: string): Outcome {
    var evidence := Evidence.EvidenceOf(s.events);
    if evidence.Err? || evidence.value == [] || Blank(answer) then Raised
    else Reached(Snapshot(s.state.(phase := Completed), s.plan,
                          s.events + [MessageCreated, TaskDone(s.state.runId, s.state.revision)]))
  }

  datatype ChainResult = Through(snap: Snapshot) | Halted(outcome: Outcome)

  /** Coverage review, then the event that sums the chain up. */
  function CoverageOnwards(cfg: Config, s: Snapshot, v: Verdict, ran: set<Stage>): ChainResult {
    match RunCoverage(cfg, s, v)
    case Stop(o) => Halted(o)
    case r => Through(CloseChain(After(s, r), ran + Ran(r, CoverageStage)))
  }

  function ScopeOnwards(cfg: Config, s: Snapshot, v: Verdict, ran: set<Stage>): ChainResult {
    match RunScope(cfg, s, v)
    case Stop(o) => Halted(o)
    case r => CoverageOnwards(cfg, After(s, r), v, ran + Ran(r, ScopeStage))
  }

  /** Gate, then scope audit, then coverage review; the first failure halts the chain. */
  function RunChain(cfg: Config, s: Snapshot, v: Verdict): ChainResult {
    match RunGate(cfg, s, v)
    case Stop(o) => Halted(o)
    case r => ScopeOnwards(cfg, After(s, r), v, Ran(r, GateStage))
  }

  function SummarizeNode(cfg: Config, s: Snapshot, v: Verdict, answer: string): Outcome {
    match RunChain(cfg, s, v)
    case Halted(o) => o
    case Through(t) => Summarize(t, answer)
  }

  // ---------------------------------------------------------------- one step, whole runs

  function Step(cfg: Config, s: Snapshot, a: Answer): Outcome {
    match s.state.phase
    case Executing => if a.Executed? then ExecuteNode(s, a.tools) else Raised
    case Reflecting => if a.Judged? then ReflectNode(s, a.action) else Raised
    case Replanning => if a.Replaced? then ReplanNode(cfg, s, a.plan) else Raised
    case Summarizing => if a.Reviewed? then SummarizeNode(cfg, s, a.verdict, a.answer) else Raised
    case _ => Raised
  }

  /** The snapshot a run has reached after consuming `answers`; a terminal phase consumes none. */
  function Run(cfg: Config, s0: Snapshot, answers: seq<Answer>): Outcome {
    if answers == [] then Reached(s0)
    else
      match Run(cfg, s0, answers[..|answers| - 1])
      case Raised => Raised
      case Reached(s) =>
        if Terminal(s.state.phase) then Reached(s) else Step(cfg, s, answers[|answers| - 1])
  }
}
