/** Where each node of the machine routes a run and what it logs, in terms of the answers alone; and
    what the observation of a run is at any time. */
module MachineRouting {
  import opened Basics
  import opened Events
  import opened Machine
  import opened MachineMoves
  import opened MachineInvariants
  import opened MachineRuns
  import Evidence

  // ---------------------------------------------------------------- executing

  /** The status a step that made these tool calls is routed on: that of its last call. */
  predicate Observed(tools: seq<ToolRun>, status: Status) {
    if tools == [] then status == Succeeded else status == tools[|tools| - 1].status
  }

  /** The log of one execution: its start, then one event for each tool call, in order. */
  predicate LogsExecution(before: Log, after: Log, key: StepKey, index: nat, tools: seq<ToolRun>) {
    && |after| >= |before| + 1 + |tools| && after[..|before|] == before
    && after[|before|] == StepStarted(key, index)
    && forall i :: 0 <= i < |tools| ==>
         after[|before| + 1 + i] == ToolCalled(key, index, tools[i].tool, tools[i].status)
  }

  predicate IsFinal(status: Status) {
    status == Succeeded || status == Deduplicated || status == Status.Failed || status == TimedOut || status == Denied
  }

  /** The identity of the attempt a snapshot is at, with the step's text as the plan gives it. */
  function RawKey(s: Snapshot): StepKey
    requires s.state.index < |s.plan.steps|
  {
    StepKey(s.state.runId, s.plan.id, s.state.revision, s.plan.steps[s.state.index].rawId, s.state.attempt)
  }

  /** The same with the step's id as it is printed. */
  function PrintedKey(s: Snapshot): StepKey
    requires s.state.index < |s.plan.steps|
  {
    StepKey(s.state.runId, s.plan.id, s.state.revision, s.plan.steps[s.state.index].id, s.state.attempt)
  }

  lemma ExecutionLogs(s: Snapshot, tools: seq<ToolRun>, closing: Log)
    requires s.state.index < |s.plan.steps|
    ensures var after := s.events + ExecutionEvents(s, tools) + closing;
            && LogsExecution(s.events, after, RawKey(s), s.state.index, tools)
            && after[|s.events| + 1 + |tools|..] == closing
  {
    var after := s.events + ExecutionEvents(s, tools) + closing;
    var calls := ToolEvents(RequestKey(s), s.state.index, tools);
    forall i | 0 <= i < |tools|
      ensures after[|s.events| + 1 + i] == ToolCalled(RawKey(s), s.state.index, tools[i].tool, tools[i].status)
    {
      assert ExecutionEvents(s, tools)[1 + i] == calls[i];
    }
  }

  lemma ObservedIsLast(tools: seq<ToolRun>, status: Status)
    requires Observed(tools, status)
    ensures LastStatus(tools) == status
  {
  }

  /** A step that runs is blocked iff its last call needs approval, goes on to be reflected on iff that
      call ended, and raises otherwise; it logs its start and its calls. */
  lemma ExecutionExactly(cfg: Config, s: Snapshot, tools: seq<ToolRun>, status: Status)
    requires s.state.phase.Executing? && s.state.index < |s.plan.steps| && Observed(tools, status)
    ensures Step(cfg, s, Executed(tools)).Reached? <==> status == ApprovalRequired || IsFinal(status)
    ensures Step(cfg, s, Executed(tools)).Reached? ==>
              var t := Step(cfg, s, Executed(tools)).snap;
              && LogsExecution(s.events, t.events, RawKey(s), s.state.index, tools)
              && t.plan == s.plan
              && t.state == s.state.(phase := if status == ApprovalRequired then Blocked else Reflecting,
                                     observation := Some(status))
              && t.events[|s.events| + 1 + |tools|..] ==
                 if status == ApprovalRequired then [StepBlocked(PrintedKey(s), s.state.index)] else []
  {
    ObservedIsLast(tools, status);
    ExecutionLogs(s, tools, if status == ApprovalRequired then [StepBlocked(PrintedKey(s), s.state.index)] else []);
  }

  // ---------------------------------------------------------------- reflecting and replanning

  /** What each verdict of the critic leads to. */
  lemma ReflectionExactly(cfg: Config, s: Snapshot, action: Action)
    requires s.state.phase.Reflecting? && s.state.index < |s.plan.steps| && s.state.observation.Some?
    ensures var o, k, i := Step(cfg, s, Judged(action)), PrintedKey(s), s.state.index;
            var seen := s.state.observation.value;
            var reflected := s.events + [StepReflected(k, i, seen, action)];
            match action
            case Accept =>
              && (o.Reached? <==> seen == Succeeded || seen == Deduplicated)
              && (o.Reached? ==>
                    && o.snap.events == reflected + [StepCompleted(k, i)] && o.snap.plan == s.plan
                    && o.snap.state ==
                       if i + 1 == |s.plan.steps| then s.state.(phase := Summarizing)
                       else s.state.(phase := Executing, index := i + 1, attempt := 1))
            case Retry =>
              o == Reached(Snapshot(s.state.(phase := Executing, attempt := s.state.attempt + 1), s.plan, reflected))
            case Replan => o == Reached(Snapshot(s.state.(phase := Replanning), s.plan, reflected))
            case Fail =>
              o == Reached(Snapshot(s.state.(phase := Phase.Failed), s.plan,
                                    reflected + [StepFailed(k, i), TaskError(s.state.runId, s.state.revision)]))
  {
    var reflected := s.events + [StepReflected(PrintedKey(s), s.state.index, s.state.observation.value, action)];
    assert reflected + [] == reflected;
  }

  /** A replan needs a replanner; it starts the next revision at its first step. */
  lemma ReplanExactly(cfg: Config, s: Snapshot, plan: Plan)
    requires s.state.phase.Replanning?
    ensures var o, r := Step(cfg, s, Replaced(plan)), s.state.revision + 1;
            && (o.Reached? <==> cfg.replanner)
            && (o.Reached? ==>
                  o.snap == Snapshot(State(s.state.runId, r, Executing, 0, 1, None), plan.(revision := r),
                                     s.events + [PlanCreated(s.state.runId, plan.id, r)]))
  {
  }

  /** A run starts at the given step, at its first one for a negative one, and at the summary past the
      last one. */
  lemma StartExactly(runId: string, plan: Plan, start: int)
    ensures var n, s := |plan.steps|, Initial(runId, plan, start);
            && s.events == [] && s.plan == plan
            && s.state ==
               if n > 0 && start >= n then State(runId, plan.revision, Summarizing, n - 1, 1, None)
               else State(runId, plan.revision, Executing, if start < 0 then 0 else start, 1, None)
  {
  }

  // ---------------------------------------------------------------- the acceptance chain

  predicate DeclaresGate(cfg: Config, plan: Plan) {
    cfg.gate && plan.acceptance.Some? && plan.acceptance.value.command != ""
  }

  predicate DeclaresScope(cfg: Config, plan: Plan) {
    cfg.scope && plan.scope.Some? && plan.scope.value.allowed != []
  }

  predicate Enforces(plan: Plan) { plan.acceptance.Some? && plan.acceptance.value.enforceCoverage }

  /** A failure of the gate with this command. */
  function FailureOf(command: string): Event -> bool {
    (e: Event) => e.GateFinished? && !e.passed && e.command == command
  }

  /** A failure of any stage; of coverage only where it is enforced. */
  function AnyFailure(): Event -> bool {
    (e: Event) => match e
                  case GateFinished(_, _, passed) => !passed
                  case ScopeFinished(_, inScope) => !inScope
                  case CoverageFinished(_, adequate, enforced) => enforced && !adequate
                  case _ => false
  }

  lemma SameCounts(log: Log, command: string)
    ensures Count(log, FailureOf(command)) == CountGateFailures(log, command)
    ensures Count(log, AnyFailure()) == CountAuditFailures(log)
  {
    CountAlike(log, FailureOf(command), GateFailureOf(command));
    CountAlike(log, AnyFailure(), IsAuditFailure);
  }

  lemma CountAlike(log: Log, p: Event -> bool, q: Event -> bool)
    requires forall e :: p(e) == q(e)
    ensures Count(log, p) == Count(log, q)
  {
    CountWeaker(log, p, q);
    CountWeaker(log, q, p);
  }

  /** What the gate has logged when it passed, if it is declared. */
  function GatePassed(cfg: Config, plan: Plan, revision: nat): Log {
    if DeclaresGate(cfg, plan)
    then [GateStarted(revision, plan.acceptance.value.command),
          GateFinished(revision, plan.acceptance.value.command, true)]
    else []
  }

  function ScopePassed(cfg: Config, plan: Plan, revision: nat): Log {
    if DeclaresScope(cfg, plan) then [ScopeFinished(revision, true)] else []
  }

  /** A stage failed after `log`: a retry of the last step if it is granted, the end of the run if not. */
  predicate FailsWith(s: Snapshot, o: Outcome, log: Log, granted: bool)
    requires s.state.index < |s.plan.steps| && s.state.observation.Some?
  {
    var k, i, seen := PrintedKey(s), s.state.index, s.state.observation.value;
    if granted then
      o == Reached(Snapshot(s.state.(phase := Executing, attempt := s.state.attempt + 1), s.plan,
                            s.events + log + [StepReflected(k, i, seen, Retry)]))
    else
      o == Reached(Snapshot(s.state.(phase := Phase.Failed), s.plan,
                            s.events + log + [StepReflected(k, i, seen, Fail)] +
                            [StepFailed(k, i), TaskError(s.state.runId, s.state.revision)]))
  }

  lemma ChainFailedExactly(s: Snapshot, log: Log, granted: bool)
    requires s.state.phase.Summarizing? && s.state.index < |s.plan.steps| && s.state.observation.Some?
    ensures FailsWith(s, ChainFailed(s, log, granted), log, granted)
  {
    var action := if granted then Retry else Action.Fail;
    var reflected := StepReflected(PrintedKey(s), s.state.index, s.state.observation.value, action);
    assert s.events + log + [reflected] + [] == s.events + log + [reflected];
  }

  /** A declared gate that fails: a retry is granted iff the plan allows it and failures of this very
      command are below the allowance. */
  lemma GateFailsExactly(cfg: Config, s: Snapshot, v: Verdict, answer: string)
    requires s.state.phase.Summarizing? && s.state.index < |s.plan.steps| && s.state.observation.Some?
    requires DeclaresGate(cfg, s.plan) && !v.gatePassed
    ensures var command, r := s.plan.acceptance.value.command, s.state.revision;
            FailsWith(s, Step(cfg, s, Reviewed(v, answer)),
                      [GateStarted(r, command), GateFinished(r, command, false)],
                      s.plan.acceptance.value.allowRetry && Count(s.events, FailureOf(command)) < cfg.maxRetries)
  {
    var command, r := s.plan.acceptance.value.command, s.state.revision;
    SameCounts(s.events, command);
    ChainFailedExactly(s, [GateStarted(r, command), GateFinished(r, command, false)],
                       s.plan.acceptance.value.allowRetry && Count(s.events, FailureOf(command)) < cfg.maxRetries);
  }

  lemma FailsLater(s: Snapshot, o: Outcome, before: Log, log: Log, granted: bool)
    requires s.state.index < |s.plan.steps| && s.state.observation.Some?
    requires FailsWith(Extend(s, before), o, log, granted)
    ensures FailsWith(s, o, before + log, granted)
  {
    assert s.events + before + log == s.events + (before + log);
  }

  lemma GatePassedAddsNone(cfg: Config, s: Snapshot)
    ensures Count(s.events + GatePassed(cfg, s.plan, s.state.revision), AnyFailure()) == Count(s.events, AnyFailure())
  {
    CountQuiet(s.events, GatePassed(cfg, s.plan, s.state.revision), AnyFailure());
  }

  lemma ReachesScope(cfg: Config, s: Snapshot, v: Verdict)
    requires DeclaresGate(cfg, s.plan) ==> v.gatePassed
    ensures exists ran :: RunChain(cfg, s, v) ==
                          ScopeOnwards(cfg, Extend(s, GatePassed(cfg, s.plan, s.state.revision)), v, ran)
  {
    assert s.events + [] == s.events;
    assert After(s, RunGate(cfg, s, v)) == Extend(s, GatePassed(cfg, s.plan, s.state.revision));
    var ran := Ran(RunGate(cfg, s, v), GateStage);
    assert RunChain(cfg, s, v) == ScopeOnwards(cfg, Extend(s, GatePassed(cfg, s.plan, s.state.revision)), v, ran);
  }

  /** A declared scope audit that fails after the gate: granted iff the plan allows it and failures of
      all stages are below the allowance. */
  lemma ScopeFailsExactly(cfg: Config, s: Snapshot, v: Verdict, answer: string)
    requires s.state.phase.Summarizing? && s.state.index < |s.plan.steps| && s.state.observation.Some?
    requires (DeclaresGate(cfg, s.plan) ==> v.gatePassed) && DeclaresScope(cfg, s.plan) && !v.inScope
    ensures FailsWith(s, Step(cfg, s, Reviewed(v, answer)),
                      GatePassed(cfg, s.plan, s.state.revision) + [ScopeFinished(s.state.revision, false)],
                      s.plan.scope.value.allowRetry && Count(s.events, AnyFailure()) < cfg.maxRetries)
  {
    var before, log := GatePassed(cfg, s.plan, s.state.revision), [ScopeFinished(s.state.revision, false)];
    var granted := s.plan.scope.value.allowRetry && Count(s.events, AnyFailure()) < cfg.maxRetries;
    var s1 := Extend(s, before);
    GatePassedAddsNone(cfg, s);
    SameCounts(s1.events, "");
    ReachesScope(cfg, s, v);
    ChainFailedExactly(s1, log, granted);
    assert Step(cfg, s, Reviewed(v, answer)) == ChainFailed(s1, log, granted);
    FailsLater(s, ChainFailed(s1, log, granted), before, log, granted);
  }

  lemma ScopePassedAddsNone(cfg: Config, s: Snapshot)
    ensures var before := GatePassed(cfg, s.plan, s.state.revision) + ScopePassed(cfg, s.plan, s.state.revision);
            Count(s.events + before, AnyFailure()) == Count(s.events, AnyFailure())
  {
    CountQuiet(s.events, GatePassed(cfg, s.plan, s.state.revision) + ScopePassed(cfg, s.plan, s.state.revision),
               AnyFailure());
  }

  lemma ReachesCoverage(cfg: Config, s: Snapshot, v: Verdict)
    requires (DeclaresGate(cfg, s.plan) ==> v.gatePassed) && (DeclaresScope(cfg, s.plan) ==> v.inScope)
    ensures var before := GatePassed(cfg, s.plan, s.state.revision) + ScopePassed(cfg, s.plan, s.state.revision);
            exists ran :: RunChain(cfg, s, v) == CoverageOnwards(cfg, Extend(s, before), v, ran)
  {
    var g, c := GatePassed(cfg, s.plan, s.state.revision), ScopePassed(cfg, s.plan, s.state.revision);
    var s1, s2 := Extend(s, g), Extend(s, g + c);
    assert s.events + [] == s.events && s1.events + [] == s1.events && s.events + (g + c) == s.events + g + c;
    assert After(s, RunGate(cfg, s, v)) == s1;
    assert After(s1, RunScope(cfg, s1, v)) == s2;
    var ran := Ran(RunGate(cfg, s, v), GateStage) + Ran(RunScope(cfg, s1, v), ScopeStage);
    assert RunChain(cfg, s, v) == CoverageOnwards(cfg, s2, v, ran);
  }

  /** An enforced coverage review that fails after the others. */
  lemma CoverageFailsExactly(cfg: Config, s: Snapshot, v: Verdict, answer: string)
    requires s.state.phase.Summarizing? && s.state.index < |s.plan.steps| && s.state.observation.Some?
    requires (DeclaresGate(cfg, s.plan) ==> v.gatePassed) && (DeclaresScope(cfg, s.plan) ==> v.inScope)
    requires cfg.coverage && Enforces(s.plan) && !v.adequate
    ensures FailsWith(s, Step(cfg, s, Reviewed(v, answer)),
                      GatePassed(cfg, s.plan, s.state.revision) + ScopePassed(cfg, s.plan, s.state.revision) +
                        [CoverageFinished(s.state.revision, false, true)],
                      s.plan.acceptance.value.allowRetry && Count(s.events, AnyFailure()) < cfg.maxRetries)
  {
    var before := GatePassed(cfg, s.plan, s.state.revision) + ScopePassed(cfg, s.plan, s.state.revision);
    var log := [CoverageFinished(s.state.revision, false, true)];
    var granted := s.plan.acceptance.value.allowRetry && Count(s.events, AnyFailure()) < cfg.maxRetries;
    var s2 := Extend(s, before);
    ScopePassedAddsNone(cfg, s);
    SameCounts(s2.events, "");
    ReachesCoverage(cfg, s, v);
    ChainFailedExactly(s2, log, granted);
    assert Step(cfg, s, Reviewed(v, answer)) == ChainFailed(s2, log, granted);
    FailsLater(s, ChainFailed(s2, log, granted), before, log, granted);
  }

  /** Every declared stage passes. */
  predicate AllPass(cfg: Config, plan: Plan, v: Verdict) {
    && (DeclaresGate(cfg, plan) ==> v.gatePassed)
    && (DeclaresScope(cfg, plan) ==> v.inScope)
    && (cfg.coverage && Enforces(plan) ==> v.adequate)
  }

  /** What the stages of a passing chain log, and the event that sums them up if at least two ran. */
  function Passed(cfg: Config, plan: Plan, revision: nat, adequate: bool): Log {
    var n := (if DeclaresGate(cfg, plan) then 1 else 0) + (if DeclaresScope(cfg, plan) then 1 else 0) +
             (if cfg.coverage then 1 else 0);
    GatePassed(cfg, plan, revision) + ScopePassed(cfg, plan, revision) +
    (if cfg.coverage then [CoverageFinished(revision, adequate, Enforces(plan))] else []) +
    (if n < 2 then []
     else [ChainFinished(revision, (if DeclaresGate(cfg, plan) then {GateStage} else {}) +
                                   (if DeclaresScope(cfg, plan) then {ScopeStage} else {}) +
                                   (if cfg.coverage then {CoverageStage} else {}))])
  }

  lemma PassedIsChain(cfg: Config, plan: Plan, revision: nat, adequate: bool)
    ensures Passed(cfg, plan, revision, adequate) == PassedChain(cfg, plan, revision, adequate)
  {
  }

  lemma PassesThrough(cfg: Config, s: Snapshot, v: Verdict)
    requires AllPass(cfg, s.plan, v)
    ensures RunChain(cfg, s, v).Through?
  {
  }

  /** Where all stages pass the run completes exactly if some accepted attempt called a tool and the
      answer is not blank; it raises otherwise. */
  lemma SummaryExactly(cfg: Config, s: Snapshot, v: Verdict, answer: string)
    requires s.state.phase.Summarizing? && AllPass(cfg, s.plan, v)
    ensures var o := Step(cfg, s, Reviewed(v, answer));
            var log := s.events + Passed(cfg, s.plan, s.state.revision, v.adequate);
            && (o.Reached? <==>
                  && Evidence.EvidenceOf(log).Ok? && Evidence.EvidenceOf(log).value != []
                  && exists i :: 0 <= i < |answer| && answer[i] !in [' ', '\t', '\n', '\r'])
            && (o.Reached? ==>
                  o == Reached(Snapshot(s.state.(phase := Completed), s.plan,
                                        log + [MessageCreated, TaskDone(s.state.runId, s.state.revision)])))
  {
    PassedIsChain(cfg, s.plan, s.state.revision, v.adequate);
    PassesThrough(cfg, s, v);
    ChainPasses(cfg, s, v);
  }

  // ---------------------------------------------------------------- the observation of a run

  /** Position `k` is the last start of a step. */
  predicate LastStart(log: Log, k: nat) {
    k < |log| && log[k].StepStarted? && forall j :: k < j < |log| ==> !log[j].StepStarted?
  }

  /** Position `j` is the last tool call. */
  predicate LastCall(log: Log, j: nat) {
    j < |log| && log[j].ToolCalled? && forall i :: j < i < |log| ==> !log[i].ToolCalled?
  }

  /** The last tool call after the last start has this status, or there is none and it is a success. */
  predicate ObservedAt(log: Log, k: nat, status: Status) {
    && LastStart(log, k)
    && (if exists j :: k < j < |log| && log[j].ToolCalled?
        then exists j :: k < j < |log| && LastCall(log, j) && log[j].status == status
        else status == Succeeded)
  }

  /** What the snapshot remembers of the last execution is in its log, and its phase is the one that
      this leads to. */
  ghost predicate Remembers(s: Snapshot) {
    && (s.state.observation.Some? ==>
          exists k :: 0 <= k < |s.events| && ObservedAt(s.events, k, s.state.observation.value))
    && (s.state.phase.Blocked? ==> s.state.observation == Some(ApprovalRequired))
    && (s.state.phase.Reflecting? ==> s.state.observation.Some? && IsFinal(s.state.observation.value))
  }

  predicate NoExecution(e: Event) { !e.StepStarted? && !e.ToolCalled? }

  lemma QuietKeepsObserved(log: Log, more: Log, k: nat, status: Status)
    requires ObservedAt(log, k, status) && All(more, NoExecution)
    ensures ObservedAt(log + more, k, status)
  {
    var next := log + more;
    assert forall j :: |log| <= j < |next| ==> next[j] == more[j - |log|];
    assert forall j :: 0 <= j < |log| ==> next[j] == log[j];
    if j :| k < j < |log| && log[j].ToolCalled? {
      var i :| k < i < |log| && LastCall(log, i) && log[i].status == status;
      assert next[j].ToolCalled? && LastCall(next, i);
    }
  }

  lemma ExecutionIsObserved(before: Log, after: Log, key: StepKey, index: nat, tools: seq<ToolRun>, status: Status)
    requires LogsExecution(before, after, key, index, tools) && Observed(tools, status)
    requires All(after[|before| + 1 + |tools|..], NoExecution)
    ensures ObservedAt(after, |before|, status)
  {
    var n := |before| + 1 + |tools|;
    assert forall j :: n <= j < |after| ==> after[j] == after[n..][j - n];
    forall j | |before| < j < n
      ensures after[j] == ToolCalled(key, index, tools[j - |before| - 1].tool, tools[j - |before| - 1].status)
    {
      assert after[|before| + 1 + (j - |before| - 1)] == after[j];
    }
    if tools != [] {
      assert LastCall(after, n - 1);
    }
  }

  lemma ClosingIsQuiet(s: Snapshot, phase: Phase)
    requires phase.Blocked? || phase.Failed? ==> s.state.index < |s.plan.steps|
    ensures All(Closing(s, phase), NoExecution)
  {
  }

  lemma ExecuteApplies(cfg: Config, s: Snapshot, tools: seq<ToolRun>)
    requires Legal(cfg, s, DoExecute(tools))
    ensures var t := Apply(cfg, s, DoExecute(tools));
            && t.state == AfterExecution(s.state, LastStatus(tools)).value
            && t.events == s.events + ExecutionEvents(s, tools) + Closing(s, t.state.phase)
  {
    var t := Apply(cfg, s, DoExecute(tools));
    ConcatAssoc(s.events, ExecutionEvents(s, tools), Closing(s, t.state.phase));
  }

  lemma ExecutingIsObserved(cfg: Config, s: Snapshot, tools: seq<ToolRun>, status: Status)
    requires Legal(cfg, s, DoExecute(tools)) && Observed(tools, status)
    ensures ObservedAt(Apply(cfg, s, DoExecute(tools)).events, |s.events|, status)
  {
    ExecuteApplies(cfg, s, tools);
    var t := Apply(cfg, s, DoExecute(tools));
    ExecutionLogs(s, tools, Closing(s, t.state.phase));
    ClosingIsQuiet(s, t.state.phase);
    ExecutionIsObserved(s.events, t.events, RawKey(s), s.state.index, tools, status);
  }

  lemma ExecutingIsRouted(cfg: Config, s: Snapshot, tools: seq<ToolRun>, status: Status)
    requires Legal(cfg, s, DoExecute(tools)) && Observed(tools, status)
    ensures var t := Apply(cfg, s, DoExecute(tools)).state;
            && t.observation == Some(status)
            && (t.phase.Blocked? ==> status == ApprovalRequired) && (t.phase.Reflecting? ==> IsFinal(status))
  {
    ObservedIsLast(tools, status);
  }

  lemma OthersExecuteNothing(cfg: Config, s: Snapshot, m: Move)
    requires Legal(cfg, s, m) && !m.DoExecute?
    ensures All(Body(cfg, s, m) + Closing(s, NextState(cfg, s, m).phase), NoExecution)
  {
    AllBody(cfg, s, m, NoExecution);
    ClosingIsQuiet(s, NextState(cfg, s, m).phase);
    AllConcat(Body(cfg, s, m), Closing(s, NextState(cfg, s, m).phase), NoExecution);
  }

  lemma OthersKeepObserved(cfg: Config, s: Snapshot, m: Move, k: nat)
    requires Legal(cfg, s, m) && !m.DoExecute? && s.state.observation.Some?
    requires ObservedAt(s.events, k, s.state.observation.value)
    ensures ObservedAt(Apply(cfg, s, m).events, k, s.state.observation.value)
  {
    OthersExecuteNothing(cfg, s, m);
    QuietKeepsObserved(s.events, Body(cfg, s, m) + Closing(s, NextState(cfg, s, m).phase), k,
                       s.state.observation.value);
  }

  lemma SameObservation(cfg: Config, s: Snapshot, m: Move)
    requires Legal(cfg, s, m) && !m.DoExecute?
    ensures Apply(cfg, s, m).state.observation == if m.DoReplan? then None else s.state.observation
    ensures !Apply(cfg, s, m).state.phase.Blocked? && !Apply(cfg, s, m).state.phase.Reflecting?
  {
  }

  lemma KeepsRemembers(cfg: Config, s: Snapshot, m: Move)
    requires Remembers(s) && Legal(cfg, s, m)
    ensures Remembers(Apply(cfg, s, m))
  {
    if m.DoExecute? {
      var status := if m.tools == [] then Succeeded else m.tools[|m.tools| - 1].status;
      ExecutingIsObserved(cfg, s, m.tools, status);
      ExecutingIsRouted(cfg, s, m.tools, status);
    } else {
      SameObservation(cfg, s, m);
      if !m.DoReplan? && s.state.observation.Some? {
        var k :| 0 <= k < |s.events| && ObservedAt(s.events, k, s.state.observation.value);
        OthersKeepObserved(cfg, s, m, k);
      }
    }
  }

  /** In every run: whatever a step is reflected on, or blocked by, is the status of the last tool call
      after the last start of a step in the log, or a success if it made none. The run is blocked iff
      that call needs approval, and reflects iff it ended. */
  lemma ObservationIsLastCall(cfg: Config, runId: string, plan: Plan, start: int, answers: seq<Answer>)
    requires Run(cfg, Initial(runId, plan, start), answers).Reached?
    ensures var s := Run(cfg, Initial(runId, plan, start), answers).snap;
            && (s.state.observation.Some? ==>
                  exists k :: 0 <= k < |s.events| && ObservedAt(s.events, k, s.state.observation.value))
            && (s.state.phase.Reflecting? || s.state.phase.Blocked? ==>
                  && s.state.observation.Some?
                  && (s.state.phase.Blocked? <==> s.state.observation.value == ApprovalRequired)
                  && (s.state.phase.Reflecting? <==> IsFinal(s.state.observation.value)))
  {
    forall s: Snapshot, m: Move | Remembers(s) && Legal(cfg, s, m) ensures Remembers(Apply(cfg, s, m)) {
      KeepsRemembers(cfg, s, m);
    }
    Always(cfg, Initial(runId, plan, start), answers, (s: Snapshot) => Remembers(s));
  }
}
