/** A closed form of what one step of the machine can do to a run: five kinds of
    move, each a new state plus the events it appends. */
module MachineMoves {
  import opened Basics
  import opened Events
  import opened Machine
  import Evidence

  datatype Move =
    | DoExecute(tools: seq<ToolRun>)
    | DoReflect(action: Action)
    | DoReplan(plan: Plan)
    | DoHalt(pre: Log, failure: Event, canRetry: bool)
    | DoFinish(adequate: bool)

  function GateLog(cfg: Config, plan: Plan, revision: nat): Log {
    if cfg.gate && GateCommand(plan).Some?
    then [GateStarted(revision, GateCommand(plan).value), GateFinished(revision, GateCommand(plan).value, true)]
    else []
  }

  function ScopeLog(cfg: Config, plan: Plan, revision: nat): Log {
    if cfg.scope && HasScopePolicy(plan) then [ScopeFinished(revision, true)] else []
  }

  function CoverageLog(cfg: Config, plan: Plan, revision: nat, adequate: bool): Log {
    if cfg.coverage then [CoverageFinished(revision, adequate, EnforcesCoverage(plan))] else []
  }

  function GateRan(cfg: Config, plan: Plan): set<Stage> {
    if cfg.gate && GateCommand(plan).Some? then {GateStage} else {}
  }

  function ScopeRan(cfg: Config, plan: Plan): set<Stage> {
    if cfg.scope && HasScopePolicy(plan) then {ScopeStage} else {}
  }

  function CoverageRan(cfg: Config): set<Stage> { if cfg.coverage then {CoverageStage} else {} }

  /** The stages this configuration and plan declare. */
  function StagesRun(cfg: Config, plan: Plan): set<Stage> {
    GateRan(cfg, plan) + ScopeRan(cfg, plan) + CoverageRan(cfg)
  }

  function SumLog(cfg: Config, plan: Plan, revision: nat): Log {
    if |StagesRun(cfg, plan)| >= 2 then [ChainFinished(revision, StagesRun(cfg, plan))] else []
  }

  /** What a chain that lets the run through writes: the passing event of each declared
      stage in order, and the sum when at least two of them ran. */
  function PassedChain(cfg: Config, plan: Plan, revision: nat, adequate: bool): Log {
    GateLog(cfg, plan, revision) + ScopeLog(cfg, plan, revision) +
    CoverageLog(cfg, plan, revision, adequate) + SumLog(cfg, plan, revision)
  }

  /** Events of stages that ran before the failing one. */
  predicate Neutral(log: Log) {
    forall e :: e in log ==>
      e.GateStarted? || (e.GateFinished? && e.passed) || (e.ScopeFinished? && e.inScope)
  }

  predicate Legal(cfg: Config, s: Snapshot, m: Move) {
    match m
    case DoExecute(tools) =>
      s.state.phase.Executing? && s.state.index < |s.plan.steps| && AfterExecution(s.state, LastStatus(tools)).Some?
    case DoReflect(action) =>
      s.state.phase.Reflecting? && s.state.index < |s.plan.steps| && s.state.observation.Some? &&
      (action == Accept ==> IsSuccess(s.state.observation.value))
    case DoReplan(_) => s.state.phase.Replanning? && cfg.replanner
    case DoHalt(pre, failure, canRetry) =>
      && s.state.phase.Summarizing? && s.state.index < |s.plan.steps| && s.state.observation.Some?
      && Neutral(pre) && IsAuditFailure(failure)
      && (forall e :: e in pre ==> IsOf(e, s.state.revision)) && IsOf(failure, s.state.revision)
      && (failure.GateFinished? ==>
            && cfg.gate && GateCommand(s.plan) == Some(failure.command)
            && (canRetry <==> GateAllowsRetry(s.plan) && CountGateFailures(s.events, failure.command) < cfg.maxRetries))
      && (failure.ScopeFinished? ==>
            (canRetry <==> ScopeAllowsRetry(s.plan) && CountAuditFailures(s.events) < cfg.maxRetries))
      && (failure.CoverageFinished? ==>
            (canRetry <==> GateAllowsRetry(s.plan) && CountAuditFailures(s.events) < cfg.maxRetries))
      && (forall e :: e in pre && e.GateFinished? ==> cfg.gate && GateCommand(s.plan) == Some(e.command))
    case DoFinish(adequate) =>
      && s.state.phase.Summarizing?
      && (cfg.coverage && EnforcesCoverage(s.plan) ==> adequate)
      && var log := s.events + PassedChain(cfg, s.plan, s.state.revision, adequate);
         Evidence.EvidenceOf(log).Ok? && Evidence.EvidenceOf(log).value != []
  }

  function NextState(cfg: Config, s: Snapshot, m: Move): State
    requires Legal(cfg, s, m)
  {
    match m
    case DoExecute(tools) => AfterExecution(s.state, LastStatus(tools)).value
    case DoReflect(action) => AfterReflection(s.state, action, |s.plan.steps|)
    case DoReplan(plan) => FromPlan(s.state.runId, plan, s.state.revision + 1, 0)
    case DoHalt(_, _, canRetry) =>
      AfterReflection(s.state, if canRetry then Retry else Action.Fail, |s.plan.steps|)
    case DoFinish(_) => s.state.(phase := Completed)
  }

  function NextPlan(s: Snapshot, m: Move): Plan {
    if m.DoReplan? then m.plan.(revision := s.state.revision + 1) else s.plan
  }

  /** What the move records before it closes the run, if it does. */
  function Body(cfg: Config, s: Snapshot, m: Move): Log
    requires Legal(cfg, s, m)
  {
    match m
    case DoExecute(tools) => ExecutionEvents(s, tools)
    case DoReflect(action) =>
      if action == Accept then [Reflected(s, action), StepCompleted(StateKey(s), s.state.index)]
      else [Reflected(s, action)]
    case DoReplan(plan) => [PlanCreated(s.state.runId, plan.id, s.state.revision + 1)]
    case DoHalt(pre, failure, canRetry) =>
      pre + [failure] + [Reflected(s, if canRetry then Retry else Action.Fail)]
    case DoFinish(adequate) => PassedChain(cfg, s.plan, s.state.revision, adequate) + [MessageCreated]
  }

  /** The terminal group of the phase the move leads to. */
  function Closing(s: Snapshot, next: Phase): Log
    requires next.Blocked? || next.Failed? ==> s.state.index < |s.plan.steps|
  {
    match next
    case Completed => [TaskDone(s.state.runId, s.state.revision)]
    case Failed => [StepFailed(StateKey(s), s.state.index), TaskError(s.state.runId, s.state.revision)]
    case Blocked => [StepBlocked(StateKey(s), s.state.index)]
    case _ => []
  }

  function Apply(cfg: Config, s: Snapshot, m: Move): Snapshot
    requires Legal(cfg, s, m)
  {
    Snapshot(NextState(cfg, s, m), NextPlan(s, m),
             s.events + (Body(cfg, s, m) + Closing(s, NextState(cfg, s, m).phase)))
  }

  /** A failed stage appends the stage's events, the reflection and what closes the run. */
  lemma ReflectClosed(s: Snapshot, stage: Log, canRetry: bool)
    requires s.state.phase.Summarizing?
    ensures ChainFailed(s, stage, canRetry).Reached? ==>
              && s.state.index < |s.plan.steps| && s.state.observation.Some?
              && var action := if canRetry then Retry else Action.Fail;
                 var next := AfterReflection(s.state, action, |s.plan.steps|);
                 ChainFailed(s, stage, canRetry).snap ==
                 Snapshot(next, s.plan, s.events + (stage + [Reflected(s, action)] + Closing(s, next.phase)))
  {
    if ChainFailed(s, stage, canRetry).Reached? {
      var action := if canRetry then Retry else Action.Fail;
      var rest := Closing(s, AfterReflection(s.state, action, |s.plan.steps|).phase);
      assert s.events + stage + [Reflected(s, action)] + rest
          == s.events + (stage + [Reflected(s, action)] + rest);
    }
  }

  lemma NeutralIsNoFailure(log: Log, pre: Log)
    requires Neutral(pre)
    ensures CountAuditFailures(log + pre) == CountAuditFailures(log)
  {
    assert forall e :: e in pre ==> !IsAuditFailure(e);
    CountQuiet(log, pre, IsAuditFailure);
  }

  /** A halted chain is a halting move: passing stages, one failure, one reflection. */
  lemma ChainHalts(cfg: Config, s: Snapshot, v: Verdict) returns (m: Move)
    requires s.state.phase.Summarizing?
    requires RunChain(cfg, s, v).Halted? && RunChain(cfg, s, v).outcome.Reached?
    ensures m.DoHalt? && Legal(cfg, s, m) && RunChain(cfg, s, v).outcome.snap == Apply(cfg, s, m)
  {
    var g := RunGate(cfg, s, v);
    if g.Stop? {
      var c := GateCommand(s.plan).value;
      var canRetry := GateAllowsRetry(s.plan) && CountGateFailures(s.events, c) < cfg.maxRetries;
      m := DoHalt([GateStarted(s.state.revision, c)], GateFinished(s.state.revision, c, false), canRetry);
      ReflectClosed(s, [GateStarted(s.state.revision, c), m.failure], canRetry);
      assert m.pre + [m.failure] == [GateStarted(s.state.revision, c), m.failure];
    } else {
      GatePasses(cfg, s, v);
      m := LaterStageHalts(cfg, s, v);
    }
  }

  lemma LaterStageHalts(cfg: Config, s: Snapshot, v: Verdict) returns (m: Move)
    requires s.state.phase.Summarizing?
    requires var s1 := Extend(s, GateLog(cfg, s.plan, s.state.revision));
             exists ran: set<Stage> :: ScopeOnwards(cfg, s1, v, ran).Halted? &&
                 ScopeOnwards(cfg, s1, v, ran).outcome.Reached?
    ensures var s1 := Extend(s, GateLog(cfg, s.plan, s.state.revision));
            m.DoHalt? && Legal(cfg, s, m) &&
            forall ran: set<Stage> :: ScopeOnwards(cfg, s1, v, ran) == Halted(Reached(Apply(cfg, s, m)))
  {
    var g' := GateLog(cfg, s.plan, s.state.revision);
    var s1 := Extend(s, g');
    if RunScope(cfg, s1, v).Stop? {
      m := HaltAfter(cfg, s, g', ScopeFinished(s.state.revision, v.inScope), ScopeAllowsRetry(s.plan));
    } else {
      ScopePasses(cfg, s1, v);
      var r' := ScopeLog(cfg, s.plan, s.state.revision);
      ExtendTwice(s, g', r');
      m := HaltAfter(cfg, s, g' + r', CoverageFinished(s.state.revision, v.adequate, EnforcesCoverage(s.plan)),
                     GateAllowsRetry(s.plan));
    }
  }

  lemma HaltAfter(cfg: Config, s: Snapshot, pre: Log, failure: Event, allows: bool) returns (m: Move)
    requires s.state.phase.Summarizing?
    requires Neutral(pre) && IsAuditFailure(failure)
    requires (forall e :: e in pre ==> IsOf(e, s.state.revision)) && IsOf(failure, s.state.revision)
    requires forall e :: e in pre && e.GateFinished? ==> cfg.gate && GateCommand(s.plan) == Some(e.command)
    requires || (failure.ScopeFinished? && allows == ScopeAllowsRetry(s.plan))
             || (failure.CoverageFinished? && allows == GateAllowsRetry(s.plan))
    ensures m.DoHalt? && m.pre == pre && m.failure == failure
    ensures var s' := Extend(s, pre);
            var o := ChainFailed(s', [failure], allows && CountAuditFailures(s'.events) < cfg.maxRetries);
            o.Reached? ==> Legal(cfg, s, m) && o.snap == Apply(cfg, s, m)
  {
    var s' := Extend(s, pre);
    NeutralIsNoFailure(s.events, pre);
    var canRetry := allows && CountAuditFailures(s'.events) < cfg.maxRetries;
    m := DoHalt(pre, failure, canRetry);
    ReflectClosed(s', [failure], canRetry);
    if ChainFailed(s', [failure], canRetry).Reached? {
      var action := if canRetry then Retry else Action.Fail;
      var tail := [failure] + [Reflected(s, action)] + Closing(s, NextState(cfg, s, m).phase);
      assert Body(cfg, s, m) + Closing(s, NextState(cfg, s, m).phase) == pre + tail;
      ConcatAssoc(s.events, pre, tail);
    }
  }

  lemma ExtendTwice(s: Snapshot, a: Log, b: Log)
    ensures Extend(Extend(s, a), b) == Extend(s, a + b)
  {
    ConcatAssoc(s.events, a, b);
  }

  lemma GatePasses(cfg: Config, s: Snapshot, v: Verdict)
    requires !RunGate(cfg, s, v).Stop?
    ensures After(s, RunGate(cfg, s, v)) == Extend(s, GateLog(cfg, s.plan, s.state.revision))
    ensures PassEvents(RunGate(cfg, s, v)) == GateLog(cfg, s.plan, s.state.revision)
  {
  }

  lemma ScopePasses(cfg: Config, s: Snapshot, v: Verdict)
    requires !RunScope(cfg, s, v).Stop?
    ensures After(s, RunScope(cfg, s, v)) == Extend(s, ScopeLog(cfg, s.plan, s.state.revision))
    ensures PassEvents(RunScope(cfg, s, v)) == ScopeLog(cfg, s.plan, s.state.revision)
  {
  }

  lemma CoveragePasses(cfg: Config, s: Snapshot, v: Verdict)
    requires !RunCoverage(cfg, s, v).Stop?
    ensures After(s, RunCoverage(cfg, s, v)) == Extend(s, CoverageLog(cfg, s.plan, s.state.revision, v.adequate))
    ensures cfg.coverage && EnforcesCoverage(s.plan) ==> v.adequate
  {
  }

  lemma CoverageThrough(cfg: Config, s: Snapshot, v: Verdict, ran: set<Stage>)
    requires CoverageOnwards(cfg, s, v, ran).Through?
    ensures CoverageOnwards(cfg, s, v, ran).snap ==
            CloseChain(Extend(s, CoverageLog(cfg, s.plan, s.state.revision, v.adequate)), ran + CoverageRan(cfg))
    ensures cfg.coverage && EnforcesCoverage(s.plan) ==> v.adequate
  {
    CoveragePasses(cfg, s, v);
  }

  lemma ScopeThrough(cfg: Config, s: Snapshot, v: Verdict, ran: set<Stage>)
    requires ScopeOnwards(cfg, s, v, ran).Through?
    ensures ScopeOnwards(cfg, s, v, ran).snap ==
            CloseChain(Extend(s, ScopeLog(cfg, s.plan, s.state.revision) +
                                 CoverageLog(cfg, s.plan, s.state.revision, v.adequate)),
                       ran + ScopeRan(cfg, s.plan) + CoverageRan(cfg))
    ensures cfg.coverage && EnforcesCoverage(s.plan) ==> v.adequate
  {
    ScopePasses(cfg, s, v);
    var s' := Extend(s, ScopeLog(cfg, s.plan, s.state.revision));
    CoverageThrough(cfg, s', v, ran + Ran(RunScope(cfg, s, v), ScopeStage));
    ExtendTwice(s, ScopeLog(cfg, s.plan, s.state.revision), CoverageLog(cfg, s.plan, s.state.revision, v.adequate));
    assert Ran(RunScope(cfg, s, v), ScopeStage) == ScopeRan(cfg, s.plan);
  }

  /** A chain that lets the run through has written exactly the passing log. */
  lemma ChainPasses(cfg: Config, s: Snapshot, v: Verdict)
    requires RunChain(cfg, s, v).Through?
    ensures RunChain(cfg, s, v).snap == Extend(s, PassedChain(cfg, s.plan, s.state.revision, v.adequate))
    ensures cfg.coverage && EnforcesCoverage(s.plan) ==> v.adequate
  {
    GatePasses(cfg, s, v);
    var g' := GateLog(cfg, s.plan, s.state.revision);
    var r' := ScopeLog(cfg, s.plan, s.state.revision);
    var c' := CoverageLog(cfg, s.plan, s.state.revision, v.adequate);
    assert Ran(RunGate(cfg, s, v), GateStage) == GateRan(cfg, s.plan);
    ScopeThrough(cfg, Extend(s, g'), v, GateRan(cfg, s.plan));
    ExtendTwice(s, g', r' + c');
    ConcatAssoc(g', r', c');
    CloseExtended(cfg, s, g' + r' + c');
  }

  lemma CloseExtended(cfg: Config, s: Snapshot, log: Log)
    ensures CloseChain(Extend(s, log), StagesRun(cfg, s.plan)) ==
            Extend(s, log + SumLog(cfg, s.plan, s.state.revision))
  {
    ExtendTwice(s, log, SumLog(cfg, s.plan, s.state.revision));
    assert s.events + log + [] == s.events + log;
  }

  /** Every step of the machine is one legal move. */
  lemma StepIsMove(cfg: Config, s: Snapshot, a: Answer) returns (m: Move)
    requires Step(cfg, s, a).Reached?
    ensures Legal(cfg, s, m) && Step(cfg, s, a).snap == Apply(cfg, s, m)
    ensures m.DoReplan? ==> a == Replaced(m.plan)
  {
    match s.state.phase
    case Executing =>
      m := DoExecute(a.tools);
      assert s.events + ExecutionEvents(s, a.tools) + [] == s.events + ExecutionEvents(s, a.tools);
      ConcatAssoc(s.events, ExecutionEvents(s, a.tools), [StepBlocked(StateKey(s), s.state.index)]);
      assert ExecutionEvents(s, a.tools) + [] == ExecutionEvents(s, a.tools);
    case Reflecting =>
      m := DoReflect(a.action);
      ConcatAssoc(s.events, [Reflected(s, a.action)],
                  ReflectionEvents(s, AfterReflection(s.state, a.action, |s.plan.steps|), a.action));
      assert [Reflected(s, a.action)] + ReflectionEvents(s, NextState(cfg, s, m), a.action)
          == Body(cfg, s, m) + Closing(s, NextState(cfg, s, m).phase);
    case Replanning =>
      m := DoReplan(a.plan);
    case Summarizing =>
      m := SummaryIsMove(cfg, s, a.verdict, a.answer);
  }

  lemma SummaryIsMove(cfg: Config, s: Snapshot, v: Verdict, answer: string) returns (m: Move)
    requires s.state.phase.Summarizing? && SummarizeNode(cfg, s, v, answer).Reached?
    ensures Legal(cfg, s, m) && SummarizeNode(cfg, s, v, answer).snap == Apply(cfg, s, m)
  {
    if RunChain(cfg, s, v).Halted? {
      m := ChainHalts(cfg, s, v);
    } else {
      ChainPasses(cfg, s, v);
      m := DoFinish(v.adequate);
      ConcatAssoc(s.events, PassedChain(cfg, s.plan, s.state.revision, v.adequate),
                  [MessageCreated, TaskDone(s.state.runId, s.state.revision)]);
      assert Body(cfg, s, m) + Closing(s, Completed)
          == PassedChain(cfg, s.plan, s.state.revision, v.adequate) +
             [MessageCreated, TaskDone(s.state.runId, s.state.revision)];
    }
  }
}
