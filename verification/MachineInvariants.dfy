/** What every reachable snapshot of a run satisfies, and why each move keeps it. */
module MachineInvariants {
  import opened Basics
  import opened Events
  import opened Machine
  import opened MachineMoves
  import Evidence

  // ---------------------------------------------------------------- what a move writes

  predicate All(log: Log, p: Event -> bool) { forall i :: 0 <= i < |log| ==> p(log[i]) }

  lemma AllConcat(a: Log, b: Log, p: Event -> bool)
    requires All(a, p) && All(b, p)
    ensures All(a + b, p)
  {
  }

  /** Whatever holds of stage events holds of the stages that ran before a failing one. */
  lemma AllNeutral(pre: Log, p: Event -> bool)
    requires Neutral(pre) && forall e :: IsStageEvent(e) ==> p(e)
    ensures All(pre, p)
  {
    assert forall i :: 0 <= i < |pre| ==> pre[i] in pre;
  }

  lemma AllHaltBody(pre: Log, failure: Event, reflected: Event, p: Event -> bool)
    requires Neutral(pre) && IsStageEvent(failure) && p(reflected)
    requires forall e :: IsStageEvent(e) ==> p(e)
    ensures All(pre + [failure] + [reflected], p)
  {
    AllNeutral(pre, p);
    AllConcat(pre, [failure], p);
    AllConcat(pre + [failure], [reflected], p);
  }

  lemma AllFinishBody(cfg: Config, s: Snapshot, adequate: bool, p: Event -> bool)
    requires p(MessageCreated) && forall e :: IsStageEvent(e) ==> p(e)
    ensures All(PassedChain(cfg, s.plan, s.state.revision, adequate) + [MessageCreated], p)
  {
    PassedChainEvents(cfg, s, adequate);
    AllConcat(PassedChain(cfg, s.plan, s.state.revision, adequate), [MessageCreated], p);
  }

  /** A property of stage events and of what one step writes holds of the whole body. */
  lemma AllBody(cfg: Config, s: Snapshot, m: Move, p: Event -> bool)
    requires Legal(cfg, s, m)
    requires forall e :: IsStageEvent(e) || (m.DoExecute? && IsExecutionEvent(e)) || e.PlanCreated? ||
                           (m.DoFinish? && e.MessageCreated?)
               ==> p(e)
    requires m.DoReflect? || m.DoHalt? ==>
               p(Reflected(s, if m.DoReflect? then m.action else if m.canRetry then Retry else Action.Fail))
    requires m == DoReflect(Accept) ==> p(StepCompleted(StateKey(s), s.state.index))
    ensures All(Body(cfg, s, m), p)
  {
    match m
    case DoHalt(pre, failure, canRetry) =>
      AllHaltBody(pre, failure, Reflected(s, if canRetry then Retry else Action.Fail), p);
    case DoFinish(adequate) =>
      AllFinishBody(cfg, s, adequate, p);
    case DoExecute(tools) =>
      AllConcat([StepStarted(RequestKey(s), s.state.index)], ToolEvents(RequestKey(s), s.state.index, tools), p);
    case _ =>
  }

  /** An event written for the step the snapshot is at. */
  predicate IsLocal(cfg: Config, s: Snapshot, e: Event) {
    && (e.StepReflected? || e.StepCompleted? || e.StepFailed? || e.StepBlocked? ==>
          s.state.index < |s.plan.steps| && e.key == StateKey(s) && e.index == s.state.index)
    && (e.StepStarted? || e.ToolCalled? ==>
          s.state.phase.Executing? &&
          s.state.index < |s.plan.steps| && e.key == RequestKey(s) && e.index == s.state.index)
    && (e.GateFinished? ==> cfg.gate && GateCommand(s.plan) == Some(e.command))
  }

  predicate AllLocal(cfg: Config, s: Snapshot, log: Log) {
    forall i :: 0 <= i < |log| ==> IsLocal(cfg, s, log[i])
  }

  predicate IsStageEvent(e: Event) {
    e.GateStarted? || e.GateFinished? || e.ScopeFinished? || e.CoverageFinished? || e.ChainFinished?
  }

  /** Stage events of the snapshot's own plan. */
  predicate AllStage(cfg: Config, s: Snapshot, log: Log) {
    forall i :: 0 <= i < |log| ==> IsStageEvent(log[i]) && IsLocal(cfg, s, log[i])
  }

  lemma StageConcat(cfg: Config, s: Snapshot, a: Log, b: Log)
    requires AllStage(cfg, s, a) && AllStage(cfg, s, b)
    ensures AllStage(cfg, s, a + b)
  {
  }

  lemma GateIsStage(cfg: Config, s: Snapshot)
    ensures AllStage(cfg, s, GateLog(cfg, s.plan, s.state.revision))
  {
  }

  lemma ReviewIsStage(cfg: Config, s: Snapshot, adequate: bool)
    ensures AllStage(cfg, s, ScopeLog(cfg, s.plan, s.state.revision))
    ensures AllStage(cfg, s, CoverageLog(cfg, s.plan, s.state.revision, adequate))
  {
  }

  lemma SumIsStage(cfg: Config, s: Snapshot)
    ensures AllStage(cfg, s, SumLog(cfg, s.plan, s.state.revision))
  {
  }

  lemma PassedChainEvents(cfg: Config, s: Snapshot, adequate: bool)
    ensures AllStage(cfg, s, PassedChain(cfg, s.plan, s.state.revision, adequate))
  {
    var g, r := GateLog(cfg, s.plan, s.state.revision), ScopeLog(cfg, s.plan, s.state.revision);
    var c, u := CoverageLog(cfg, s.plan, s.state.revision, adequate), SumLog(cfg, s.plan, s.state.revision);
    GateIsStage(cfg, s);
    ReviewIsStage(cfg, s, adequate);
    SumIsStage(cfg, s);
    StageConcat(cfg, s, g, r);
    StageConcat(cfg, s, g + r, c);
    StageConcat(cfg, s, g + r + c, u);
  }

  lemma LocalConcat(cfg: Config, s: Snapshot, a: Log, b: Log)
    requires AllLocal(cfg, s, a) && AllLocal(cfg, s, b)
    ensures AllLocal(cfg, s, a + b)
  {
  }

  lemma ExecutionIsLocal(cfg: Config, s: Snapshot, tools: seq<ToolRun>)
    requires s.state.phase.Executing? && s.state.index < |s.plan.steps|
    ensures AllLocal(cfg, s, ExecutionEvents(s, tools))
  {
  }

  lemma HaltIsLocal(cfg: Config, s: Snapshot, m: Move)
    requires Legal(cfg, s, m) && m.DoHalt?
    ensures AllLocal(cfg, s, Body(cfg, s, m))
  {
    assert AllLocal(cfg, s, m.pre) by {
      forall i | 0 <= i < |m.pre| ensures IsLocal(cfg, s, m.pre[i]) { assert m.pre[i] in m.pre; }
    }
    LocalConcat(cfg, s, m.pre, [m.failure]);
    LocalConcat(cfg, s, m.pre + [m.failure], [Reflected(s, if m.canRetry then Retry else Action.Fail)]);
  }

  lemma FinishIsLocal(cfg: Config, s: Snapshot, adequate: bool)
    ensures AllLocal(cfg, s, PassedChain(cfg, s.plan, s.state.revision, adequate) + [MessageCreated])
  {
    PassedChainEvents(cfg, s, adequate);
    StageIsLocal(cfg, s, PassedChain(cfg, s.plan, s.state.revision, adequate));
    LocalConcat(cfg, s, PassedChain(cfg, s.plan, s.state.revision, adequate), [MessageCreated]);
  }

  lemma StageIsLocal(cfg: Config, s: Snapshot, log: Log)
    requires AllStage(cfg, s, log)
    ensures AllLocal(cfg, s, log)
  {
  }

  lemma BodyIsLocal(cfg: Config, s: Snapshot, m: Move)
    requires Legal(cfg, s, m)
    ensures AllLocal(cfg, s, Body(cfg, s, m))
  {
    match m
    case DoExecute(tools) =>
      ExecutionIsLocal(cfg, s, tools);
    case DoHalt(pre, failure, _) =>
      HaltIsLocal(cfg, s, m);
    case DoFinish(adequate) =>
      FinishIsLocal(cfg, s, adequate);
    case _ =>
  }

  /** The new log, in three parts. */
  lemma ApplyLog(cfg: Config, s: Snapshot, m: Move)
    requires Legal(cfg, s, m)
    ensures Apply(cfg, s, m).events ==
            s.events + Body(cfg, s, m) + Closing(s, NextState(cfg, s, m).phase)
  {
    ConcatAssoc(s.events, Body(cfg, s, m), Closing(s, NextState(cfg, s, m).phase));
  }

  // ---------------------------------------------------------------- shape of a snapshot

  predicate IsExecutionEvent(e: Event) { e.StepStarted? || e.ToolCalled? }

  /** The log ends with the accepted reflection and completion of the last step. */
  predicate EndsAccepted(s: Snapshot) {
    && |s.events| >= 2 && s.state.index < |s.plan.steps| && s.state.observation.Some?
    && IsSuccess(s.state.observation.value)
    && s.events[|s.events| - 2] == StepReflected(StateKey(s), s.state.index, s.state.observation.value, Accept)
    && s.events[|s.events| - 1] == StepCompleted(StateKey(s), s.state.index)
  }

  predicate Shape(s: Snapshot) {
    && (!s.state.phase.Executing? ==> s.state.index < |s.plan.steps|)
    && (s.state.phase.Reflecting? ==> s.events != [] && IsExecutionEvent(s.events[|s.events| - 1]))
    && (s.state.phase.Summarizing? ==>
          s.state.index + 1 == |s.plan.steps| &&
          ((s.events == [] && s.state.observation.None?) || EndsAccepted(s)))
  }

  lemma KeepsShape(cfg: Config, s: Snapshot, m: Move)
    requires Shape(s) && Legal(cfg, s, m)
    ensures Shape(Apply(cfg, s, m))
  {
    var t := Apply(cfg, s, m);
    ApplyLog(cfg, s, m);
    if m.DoExecute? && t.state.phase.Reflecting? {
      assert t.events[|t.events| - 1] == ExecutionEvents(s, m.tools)[|m.tools|];
    } else if m == DoReflect(Accept) && t.state.phase.Summarizing? {
      assert t.events == s.events + [Reflected(s, Accept), StepCompleted(StateKey(s), s.state.index)];
    }
  }

  // ---------------------------------------------------------------- terminal groups

  predicate IsTerminalEvent(e: Event) { e.StepFailed? || e.TaskError? || e.StepBlocked? || e.TaskDone? }

  predicate NoTerminal(log: Log) { forall i :: 0 <= i < |log| ==> !IsTerminalEvent(log[i]) }

  /** Exactly one terminal group, at the very end, and of the kind the phase says. */
  predicate ClosedOnce(s: Snapshot) {
    (s.state.phase.Blocked? || s.state.phase.Failed? ==> s.state.index < |s.plan.steps|) &&
    var group := Closing(s, s.state.phase);
    && |group| <= |s.events|
    && s.events[|s.events| - |group|..] == group
    && NoTerminal(s.events[..|s.events| - |group|])
  }

  lemma BodyIsOpen(cfg: Config, s: Snapshot, m: Move)
    requires Legal(cfg, s, m)
    ensures NoTerminal(Body(cfg, s, m))
  {
    AllBody(cfg, s, m, (e: Event) => !IsTerminalEvent(e));
  }

  lemma ClosedBy(log: Log, body: Log, group: Log, t: Snapshot)
    requires NoTerminal(log) && NoTerminal(body) && t.events == log + body + group
    requires t.state.phase.Blocked? || t.state.phase.Failed? ==> t.state.index < |t.plan.steps|
    requires group == Closing(t, t.state.phase)
    ensures ClosedOnce(t)
  {
    assert t.events[..|t.events| - |group|] == log + body;
  }

  lemma KeepsClosedOnce(cfg: Config, s: Snapshot, m: Move)
    requires ClosedOnce(s) && Legal(cfg, s, m)
    ensures ClosedOnce(Apply(cfg, s, m))
  {
    ApplyLog(cfg, s, m);
    BodyIsOpen(cfg, s, m);
    assert s.events[..|s.events| - 0] == s.events;
    ClosedBy(s.events, Body(cfg, s, m), Closing(s, NextState(cfg, s, m).phase), Apply(cfg, s, m));
  }

  // ---------------------------------------------------------------- retry allowance

  predicate IsAuditRetry(a: Event, b: Event) {
    IsAuditFailure(a) && !a.GateFinished? && b.StepReflected? && b.action == Retry
  }

  predicate IsGateRetry(a: Event, b: Event) { IsGateFailure(a) && b.StepReflected? && b.action == Retry }

  predicate IsChainRetry(a: Event, b: Event) { IsAuditFailure(a) && b.StepReflected? && b.action == Retry }

  function GateRetryOf(command: string): (Event, Event) -> bool {
    (a: Event, b: Event) => IsGateRetry(a, b) && a.command == command
  }

  /** Granted retries never exceed the failures that were counted, nor the allowance. */
  ghost predicate WithinAllowance(cfg: Config, log: Log) {
    && CountPairs(log, IsAuditRetry) <= Min(cfg.maxRetries, CountAuditFailures(log))
    && forall c: string :: CountPairs(log, GateRetryOf(c)) <= Min(cfg.maxRetries, CountGateFailures(log, c))
  }

  /** Events that cannot be the reflection of a retry. */
  predicate NoRetry(log: Log) { forall i :: 0 <= i < |log| ==> !(log[i].StepReflected? && log[i].action == Retry) }

  lemma QuietTail(a: Log, b: Log, p: (Event, Event) -> bool)
    requires NoRetry(b)
    requires forall x, y :: p(x, y) ==> IsChainRetry(x, y)
    ensures CountPairs(a + b, p) == CountPairs(a, p)
  {
    CountPairsQuiet(a, b, p);
  }

  lemma BodyHasNoRetry(cfg: Config, s: Snapshot, m: Move)
    requires Legal(cfg, s, m) && (m.DoHalt? ==> !m.canRetry) && !m.DoReflect?
    ensures NoRetry(Body(cfg, s, m))
  {
    AllBody(cfg, s, m, (e: Event) => !(e.StepReflected? && e.action == Retry));
  }

  /** A critic's reflection answers an execution event, never a chain failure. */
  lemma CriticIsQuiet(cfg: Config, s: Snapshot, m: Move, p: (Event, Event) -> bool)
    requires Shape(s) && Legal(cfg, s, m) && m.DoReflect?
    requires forall a, b :: p(a, b) ==> IsChainRetry(a, b)
    ensures CountPairs(s.events + Body(cfg, s, m), p) == CountPairs(s.events, p)
  {
    var reflected := Reflected(s, m.action);
    var rest := if m.action == Accept then [StepCompleted(StateKey(s), s.state.index)] else [];
    CountPairsPush(s.events, reflected, p);
    QuietTail(s.events + [reflected], rest, p);
    assert Body(cfg, s, m) == [reflected] + rest;
    ConcatAssoc(s.events, [reflected], rest);
  }

  /** No move but a granted chain retry adds a retry that answers a chain failure. */
  lemma QuietMove(cfg: Config, s: Snapshot, m: Move, p: (Event, Event) -> bool)
    requires Shape(s) && Legal(cfg, s, m) && (m.DoHalt? ==> !m.canRetry)
    requires forall a, b :: p(a, b) ==> IsChainRetry(a, b)
    ensures CountPairs(Apply(cfg, s, m).events, p) == CountPairs(s.events, p)
  {
    ApplyLog(cfg, s, m);
    QuietTail(s.events + Body(cfg, s, m), Closing(s, NextState(cfg, s, m).phase), p);
    if m.DoReflect? {
      CriticIsQuiet(cfg, s, m, p);
    } else {
      BodyHasNoRetry(cfg, s, m);
      QuietTail(s.events, Body(cfg, s, m), p);
    }
  }

  /** A granted chain retry adds exactly one pair: the failure and its reflection. */
  lemma HaltPairs(cfg: Config, s: Snapshot, m: Move, p: (Event, Event) -> bool)
    requires Legal(cfg, s, m) && m.DoHalt? && m.canRetry
    requires forall a, b :: p(a, b) ==> IsChainRetry(a, b)
    ensures CountPairs(Apply(cfg, s, m).events, p) ==
            CountPairs(s.events, p) + (if p(m.failure, Reflected(s, Retry)) then 1 else 0)
  {
    var up := m.pre + [m.failure];
    assert NoRetry(up) by { assert forall i :: 0 <= i < |m.pre| ==> m.pre[i] in m.pre; }
    QuietTail(s.events, up, p);
    CountPairsPush(s.events + up, Reflected(s, Retry), p);
    assert Apply(cfg, s, m).events == s.events + (up + [Reflected(s, Retry)]);
    ConcatAssoc(s.events, up, [Reflected(s, Retry)]);
  }

  lemma CountOneFailure(log: Log, pre: Log, failure: Event, reflected: Event, p: Event -> bool)
    requires Neutral(pre) && reflected.StepReflected?
    requires forall e :: p(e) ==> IsAuditFailure(e)
    ensures Count(log + (pre + [failure] + [reflected]), p) == Count(log, p) + (if p(failure) then 1 else 0)
  {
    CountQuiet(log, pre, p);
    CountPush(log + pre, failure, p);
    CountPush(log + pre + [failure], reflected, p);
    assert log + (pre + [failure] + [reflected]) == log + pre + [failure] + [reflected];
  }

  /** A halting move adds exactly one failure to any count of failures. */
  lemma HaltFailures(cfg: Config, s: Snapshot, m: Move, p: Event -> bool)
    requires Legal(cfg, s, m) && m.DoHalt?
    requires forall e :: p(e) ==> IsAuditFailure(e)
    ensures Count(Apply(cfg, s, m).events, p) == Count(s.events, p) + (if p(m.failure) then 1 else 0)
  {
    ApplyLog(cfg, s, m);
    CountOneFailure(s.events, m.pre, m.failure, Reflected(s, if m.canRetry then Retry else Action.Fail), p);
    CountQuiet(s.events + Body(cfg, s, m), Closing(s, NextState(cfg, s, m).phase), p);
  }

  lemma GrowingCount(cfg: Config, s: Snapshot, m: Move, p: Event -> bool)
    requires Legal(cfg, s, m)
    ensures Count(s.events, p) <= Count(Apply(cfg, s, m).events, p)
  {
    CountAppend(s.events, Body(cfg, s, m) + Closing(s, NextState(cfg, s, m).phase), p);
  }

  lemma KeepsAllowance(cfg: Config, s: Snapshot, m: Move)
    requires Shape(s) && WithinAllowance(cfg, s.events) && Legal(cfg, s, m)
    ensures WithinAllowance(cfg, Apply(cfg, s, m).events)
  {
    var t := Apply(cfg, s, m);
    GrowingCount(cfg, s, m, IsAuditFailure);
    if m.DoHalt? && m.canRetry {
      HaltPairs(cfg, s, m, IsAuditRetry);
      HaltFailures(cfg, s, m, IsAuditFailure);
    } else {
      QuietMove(cfg, s, m, IsAuditRetry);
    }
    forall c: string
      ensures CountPairs(t.events, GateRetryOf(c)) <= Min(cfg.maxRetries, CountGateFailures(t.events, c))
    {
      GrowingCount(cfg, s, m, GateFailureOf(c));
      if m.DoHalt? && m.canRetry {
        HaltPairs(cfg, s, m, GateRetryOf(c));
        HaltFailures(cfg, s, m, GateFailureOf(c));
      } else {
        QuietMove(cfg, s, m, GateRetryOf(c));
      }
      assert CountPairs(s.events, GateRetryOf(c)) <= Min(cfg.maxRetries, CountGateFailures(s.events, c));
    }
  }

  // ---------------------------------------------------------------- gate events

  /** Every gate event in the log carries a command of some set. */
  predicate GateCommandsIn(log: Log, commands: set<string>) {
    forall i :: 0 <= i < |log| && log[i].GateFinished? ==> log[i].command in commands
  }

  // ---------------------------------------------------------------- conservation of completions

  function CompletedIn(revision: nat): Event -> bool {
    (e: Event) => e.StepCompleted? && e.key.revision == revision
  }

  function ChainRetryIn(revision: nat): (Event, Event) -> bool {
    (a: Event, b: Event) => IsChainRetry(a, b) && b.key.revision == revision
  }

  /** The first step this revision was asked to run; a run may start late, a replan may not. */
  function Base(s0: Snapshot, s: Snapshot): nat {
    if s.state.revision != s0.state.revision then 0
    else if s0.state.phase.Summarizing? then s0.state.index + 1
    else s0.state.index
  }

  predicate FailedInChain(log: Log) { |log| >= 4 && IsAuditFailure(log[|log| - 4]) }

  /** The last step stands accepted: the run is in, or ended in, the summary phase. */
  predicate PastLastStep(s: Snapshot) {
    s.state.phase.Summarizing? || s.state.phase.Completed? ||
    (s.state.phase.Failed? && FailedInChain(s.events))
  }

  predicate IsVerdict(e: Event) { e.StepCompleted? || e.StepReflected? }

  predicate NothingLater(s: Snapshot) {
    forall i :: 0 <= i < |s.events| && IsVerdict(s.events[i]) ==> s.events[i].key.revision <= s.state.revision
  }

  predicate Conserved(s0: Snapshot, s: Snapshot) {
    Count(s.events, CompletedIn(s.state.revision)) as int ==
    s.state.index - Base(s0, s) + CountPairs(s.events, ChainRetryIn(s.state.revision)) +
    (if PastLastStep(s) then 1 else 0)
  }

  lemma KeepsNothingLater(cfg: Config, s: Snapshot, m: Move)
    requires NothingLater(s) && Legal(cfg, s, m)
    ensures NothingLater(Apply(cfg, s, m))
  {
    BodyIsLocal(cfg, s, m);
    GrowsBy(s, Apply(cfg, s, m), Body(cfg, s, m) + Closing(s, NextState(cfg, s, m).phase));
  }

  lemma GrowsBy(s: Snapshot, t: Snapshot, d: Log)
    requires NothingLater(s) && t.events == s.events + d && s.state.revision <= t.state.revision
    requires forall i :: 0 <= i < |d| && IsVerdict(d[i]) ==> d[i].key.revision == s.state.revision
    ensures NothingLater(t)
  {
  }

  lemma FreshRevision(log: Log, revision: nat)
    requires forall i :: 0 <= i < |log| && IsVerdict(log[i]) ==> log[i].key.revision < revision
    ensures Count(log, CompletedIn(revision)) == 0 && CountPairs(log, ChainRetryIn(revision)) == 0
  {
    CountNone(log, CompletedIn(revision));
    CountPairsQuiet([], log, ChainRetryIn(revision));
    assert [] + log == log;
  }

  /** Only an accepting reflection adds a completion. */
  lemma QuietCompletions(cfg: Config, s: Snapshot, m: Move, revision: nat)
    requires Legal(cfg, s, m) && m != DoReflect(Accept)
    ensures Count(Apply(cfg, s, m).events, CompletedIn(revision)) == Count(s.events, CompletedIn(revision))
  {
    ApplyLog(cfg, s, m);
    var b := Body(cfg, s, m);
    AllBody(cfg, s, m, (e: Event) => !e.StepCompleted?);
    CountQuiet(s.events, b, CompletedIn(revision));
    CountQuiet(s.events + b, Closing(s, NextState(cfg, s, m).phase), CompletedIn(revision));
  }

  lemma AcceptCompletes(cfg: Config, s: Snapshot)
    requires Legal(cfg, s, DoReflect(Accept))
    ensures Count(Apply(cfg, s, DoReflect(Accept)).events, CompletedIn(s.state.revision)) ==
            Count(s.events, CompletedIn(s.state.revision)) + 1
  {
    var b := Body(cfg, s, DoReflect(Accept));
    CountPush(s.events, b[0], CompletedIn(s.state.revision));
    CountPush(s.events + [b[0]], b[1], CompletedIn(s.state.revision));
    assert Apply(cfg, s, DoReflect(Accept)).events == s.events + [b[0]] + [b[1]];
  }

  /** How a failed run failed is readable four events before its end. */
  lemma FailureKind(cfg: Config, s: Snapshot, m: Move)
    requires Shape(s) && Legal(cfg, s, m) && Apply(cfg, s, m).state.phase.Failed?
    ensures FailedInChain(Apply(cfg, s, m).events) <==> m.DoHalt?
  {
    var t := Apply(cfg, s, m);
    ApplyLog(cfg, s, m);
    var reflected := Reflected(s, Action.Fail);
    if m.DoHalt? {
      assert Body(cfg, s, m) == m.pre + [m.failure] + [reflected];
      assert t.events[|t.events| - 4] == m.failure;
    } else {
      assert Body(cfg, s, m) == [reflected];
      assert t.events[|t.events| - 4] == s.events[|s.events| - 1];
    }
  }

  /** A new revision starts its own account. */
  lemma ReplanConserved(cfg: Config, s0: Snapshot, s: Snapshot, m: Move)
    requires NothingLater(s) && Legal(cfg, s, m) && m.DoReplan?
    requires s.state.revision >= s0.state.revision
    ensures Conserved(s0, Apply(cfg, s, m))
  {
    FreshRevision(Apply(cfg, s, m).events, s.state.revision + 1);
  }

  lemma AcceptConserved(cfg: Config, s0: Snapshot, s: Snapshot, m: Move)
    requires Shape(s) && Conserved(s0, s) && Legal(cfg, s, m) && m == DoReflect(Accept)
    ensures Conserved(s0, Apply(cfg, s, m))
  {
    AcceptCompletes(cfg, s);
    QuietMove(cfg, s, m, ChainRetryIn(s.state.revision));
  }

  lemma HaltConserved(cfg: Config, s0: Snapshot, s: Snapshot, m: Move)
    requires Shape(s) && Conserved(s0, s) && Legal(cfg, s, m) && m.DoHalt?
    ensures Conserved(s0, Apply(cfg, s, m))
  {
    QuietCompletions(cfg, s, m, s.state.revision);
    if m.canRetry {
      HaltPairs(cfg, s, m, ChainRetryIn(s.state.revision));
    } else {
      QuietMove(cfg, s, m, ChainRetryIn(s.state.revision));
      FailureKind(cfg, s, m);
    }
  }

  /** A move that neither passes a step nor changes a count leaves the account alone. */
  lemma SameAccount(s0: Snapshot, s: Snapshot, t: Snapshot)
    requires Conserved(s0, s) && t.state.revision == s.state.revision && t.state.index == s.state.index
    requires PastLastStep(t) == PastLastStep(s)
    requires Count(t.events, CompletedIn(s.state.revision)) == Count(s.events, CompletedIn(s.state.revision))
    requires CountPairs(t.events, ChainRetryIn(s.state.revision)) ==
             CountPairs(s.events, ChainRetryIn(s.state.revision))
    ensures Conserved(s0, t)
  {
  }

  lemma SameSide(cfg: Config, s: Snapshot, m: Move)
    requires Shape(s) && Legal(cfg, s, m)
    requires m.DoExecute? || m.DoFinish? || (m.DoReflect? && m.action != Accept)
    ensures PastLastStep(Apply(cfg, s, m)) == PastLastStep(s)
  {
    if Apply(cfg, s, m).state.phase.Failed? {
      FailureKind(cfg, s, m);
    }
  }

  lemma OtherConserved(cfg: Config, s0: Snapshot, s: Snapshot, m: Move)
    requires Shape(s) && Conserved(s0, s) && Legal(cfg, s, m)
    requires m.DoExecute? || m.DoFinish? || (m.DoReflect? && m.action != Accept)
    ensures Conserved(s0, Apply(cfg, s, m))
  {
    QuietMove(cfg, s, m, ChainRetryIn(s.state.revision));
    QuietCompletions(cfg, s, m, s.state.revision);
    SameSide(cfg, s, m);
    SameAccount(s0, s, Apply(cfg, s, m));
  }

  lemma KeepsConserved(cfg: Config, s0: Snapshot, s: Snapshot, m: Move)
    requires Shape(s) && NothingLater(s) && Conserved(s0, s) && Legal(cfg, s, m)
    requires s.state.revision >= s0.state.revision
    ensures Conserved(s0, Apply(cfg, s, m))
  {
    if m.DoReplan? {
      ReplanConserved(cfg, s0, s, m);
    } else if m == DoReflect(Accept) {
      AcceptConserved(cfg, s0, s, m);
    } else if m.DoHalt? {
      HaltConserved(cfg, s0, s, m);
    } else {
      OtherConserved(cfg, s0, s, m);
    }
  }

  // ---------------------------------------------------------------- every step accepted

  ghost predicate AcceptedAt(s: Snapshot, i: int, j: nat) {
    && 0 < i < |s.events| && j < |s.plan.steps|
    && s.events[i].StepCompleted? && s.events[i].index == j
    && s.events[i].key.revision == s.state.revision && s.events[i].key.stepId == s.plan.steps[j].id
    && s.events[i - 1].StepReflected? && s.events[i - 1].key == s.events[i].key
    && s.events[i - 1].action == Accept && IsSuccess(s.events[i - 1].status)
  }

  ghost predicate StepAccepted(s: Snapshot, j: nat) { exists i :: AcceptedAt(s, i, j) }

  function AcceptedBound(s: Snapshot): nat {
    s.state.index + (if s.state.phase.Summarizing? || s.state.phase.Completed? then 1 else 0)
  }

  ghost predicate AllAccepted(s0: Snapshot, s: Snapshot) {
    forall j: nat :: Base(s0, s) <= j < AcceptedBound(s) ==> StepAccepted(s, j)
  }

  lemma StillAccepted(cfg: Config, s: Snapshot, m: Move, j: nat)
    requires Legal(cfg, s, m) && !m.DoReplan? && StepAccepted(s, j)
    ensures StepAccepted(Apply(cfg, s, m), j)
  {
    var i :| AcceptedAt(s, i, j);
    ApplyLog(cfg, s, m);
    assert AcceptedAt(Apply(cfg, s, m), i, j);
  }

  lemma KeepsAllAccepted(cfg: Config, s0: Snapshot, s: Snapshot, m: Move)
    requires Shape(s) && AllAccepted(s0, s) && Legal(cfg, s, m)
    requires s.state.revision >= s0.state.revision
    ensures AllAccepted(s0, Apply(cfg, s, m))
  {
    var t := Apply(cfg, s, m);
    if !m.DoReplan? {
      forall j: nat | Base(s0, t) <= j < AcceptedBound(t)
        ensures StepAccepted(t, j)
      {
        if m == DoReflect(Accept) && j == s.state.index {
          assert t.events == s.events + [Reflected(s, Accept), StepCompleted(StateKey(s), j)];
          assert AcceptedAt(t, |t.events| - 1, j);
        } else {
          StillAccepted(cfg, s, m, j);
        }
      }
    }
  }

  // ---------------------------------------------------------------- the log of a finished run

  /** `pre`, then the acceptance of the last step, then the passing chain, then the summary. */
  predicate EarnedAfter(cfg: Config, s: Snapshot, pre: Log, status: Status, adequate: bool) {
    && s.state.index + 1 == |s.plan.steps| && IsSuccess(status)
    && (cfg.coverage && EnforcesCoverage(s.plan) ==> adequate)
    && s.events == pre
       + [StepReflected(StateKey(s), s.state.index, status, Accept), StepCompleted(StateKey(s), s.state.index)]
       + PassedChain(cfg, s.plan, s.state.revision, adequate)
       + [MessageCreated, TaskDone(s.state.runId, s.state.revision)]
  }

  ghost predicate Earned(cfg: Config, s: Snapshot) {
    s.state.phase.Completed? ==> exists pre, status, adequate :: EarnedAfter(cfg, s, pre, status, adequate)
  }

  lemma KeepsEarned(cfg: Config, s: Snapshot, m: Move)
    requires Shape(s) && Legal(cfg, s, m)
    ensures Earned(cfg, Apply(cfg, s, m))
  {
    if m.DoFinish? {
      if s.events == [] {
        NothingToSummarize(cfg, s, m);
        assert false;
      }
      FinishEarned(cfg, s, m.adequate);
    }
  }

  /** A run that starts in the summary has no tool call, hence no evidence: it cannot finish. */
  lemma NothingToSummarize(cfg: Config, s: Snapshot, m: Move)
    requires s.events == [] && m.DoFinish?
    ensures !Legal(cfg, s, m)
  {
    var chain := PassedChain(cfg, s.plan, s.state.revision, m.adequate);
    PassedChainEvents(cfg, s, m.adequate);
    assert s.events + chain == chain;
    NoEvidence(chain);
  }

  lemma Reassociate(log: Log, pre: Log, two: Log, chain: Log, message: Event, done: Event)
    requires log == pre + two
    ensures log + (chain + [message] + [done]) == pre + two + chain + [message, done]
  {
    ConcatAssoc(log, chain, [message, done]);
    assert chain + [message] + [done] == chain + [message, done];
  }

  lemma FinishEarned(cfg: Config, s: Snapshot, adequate: bool)
    requires EndsAccepted(s) && s.state.index + 1 == |s.plan.steps| && Legal(cfg, s, DoFinish(adequate))
    ensures EarnedAfter(cfg, Apply(cfg, s, DoFinish(adequate)), s.events[..|s.events| - 2],
                        s.state.observation.value, adequate)
  {
    var n := |s.events|;
    assert s.events == s.events[..n - 2] + [s.events[n - 2], s.events[n - 1]];
    Reassociate(s.events, s.events[..n - 2], [s.events[n - 2], s.events[n - 1]],
                PassedChain(cfg, s.plan, s.state.revision, adequate),
                MessageCreated, TaskDone(s.state.runId, s.state.revision));
  }

  lemma NoEvidence(log: Log)
    requires forall i :: 0 <= i < |log| ==> !log[i].ToolCalled?
    ensures Evidence.EvidenceOf(log).Ok? ==> Evidence.EvidenceOf(log).value == []
  {
    if Evidence.EvidenceOf(log).Ok? && Evidence.EvidenceOf(log).value != [] {
      Evidence.EvidenceExact(log, Evidence.EvidenceOf(log).value[0]);
    }
  }

  // ---------------------------------------------------------------- fresh attempts

  /** (revision, step, attempt) of an execution, compared lexicographically. */
  datatype Position = Position(revision: nat, index: nat, attempt: nat)

  predicate Before(p: Position, q: Position) {
    || p.revision < q.revision
    || (p.revision == q.revision && p.index < q.index)
    || (p.revision == q.revision && p.index == q.index && p.attempt < q.attempt)
  }

  function PositionOf(e: Event): Position
    requires e.StepStarted?
  {
    Position(e.key.revision, e.index, e.key.attempt)
  }

  function Here(s: Snapshot): Position { Position(s.state.revision, s.state.index, s.state.attempt) }

  /** Executions only move forward; an executing state has not been executed yet. */
  predicate Forward(s: Snapshot) {
    && (forall i, j :: 0 <= i < j < |s.events| && s.events[i].StepStarted? && s.events[j].StepStarted? ==>
          Before(PositionOf(s.events[i]), PositionOf(s.events[j])))
    && (forall i :: 0 <= i < |s.events| && s.events[i].StepStarted? ==>
          Before(PositionOf(s.events[i]), Here(s)) ||
          (!s.state.phase.Executing? && PositionOf(s.events[i]) == Here(s)))
  }

  predicate NotStart(e: Event) { !e.StepStarted? }

  predicate NoStart(log: Log) { forall i :: 0 <= i < |log| ==> !log[i].StepStarted? }

  lemma ForwardQuiet(s: Snapshot, t: Snapshot, more: Log)
    requires Forward(s) && NoStart(more) && t.events == s.events + more
    requires Before(Here(s), Here(t)) || (Here(s) == Here(t) && (s.state.phase.Executing? ==> t.state.phase.Executing?))
    requires s.state.phase.Executing? || !t.state.phase.Executing? || Before(Here(s), Here(t))
    ensures Forward(t)
  {
  }

  lemma ForwardStart(s: Snapshot)
    requires Forward(s) && s.state.phase.Executing? && s.state.index < |s.plan.steps|
    ensures Forward(s.(events := s.events + [StepStarted(RequestKey(s), s.state.index)],
                       state := s.state.(phase := Reflecting)))
  {
  }

  lemma ExecutionMovesForward(cfg: Config, s: Snapshot, m: Move)
    requires Forward(s) && Legal(cfg, s, m) && m.DoExecute?
    ensures Forward(Apply(cfg, s, m))
  {
    var t := Apply(cfg, s, m);
    var start := [StepStarted(RequestKey(s), s.state.index)];
    var rest := ToolEvents(RequestKey(s), s.state.index, m.tools) + Closing(s, t.state.phase);
    ForwardStart(s);
    var started := s.(events := s.events + start, state := s.state.(phase := Reflecting));
    assert Body(cfg, s, m) + Closing(s, t.state.phase) == start + rest;
    ConcatAssoc(s.events, start, rest);
    ForwardQuiet(started, t, rest);
  }

  lemma OtherMovesForward(cfg: Config, s: Snapshot, m: Move)
    requires Legal(cfg, s, m) && !m.DoExecute?
    ensures var t := Apply(cfg, s, m);
            Before(Here(s), Here(t)) || (Here(s) == Here(t) && !s.state.phase.Executing? && !t.state.phase.Executing?)
  {
  }

  lemma OtherStartsNothing(cfg: Config, s: Snapshot, m: Move)
    requires Legal(cfg, s, m) && !m.DoExecute?
    ensures NoStart(Body(cfg, s, m) + Closing(s, NextState(cfg, s, m).phase))
  {
    AllBody(cfg, s, m, NotStart);
    AllConcat(Body(cfg, s, m), Closing(s, NextState(cfg, s, m).phase), NotStart);
  }

  lemma KeepsForward(cfg: Config, s: Snapshot, m: Move)
    requires Forward(s) && Legal(cfg, s, m)
    ensures Forward(Apply(cfg, s, m))
  {
    if m.DoExecute? {
      ExecutionMovesForward(cfg, s, m);
    } else {
      OtherStartsNothing(cfg, s, m);
      OtherMovesForward(cfg, s, m);
      ForwardQuiet(s, Apply(cfg, s, m), Body(cfg, s, m) + Closing(s, NextState(cfg, s, m).phase));
    }
  }
}
