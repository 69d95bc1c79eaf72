/** The machine as it runs: nodes that write events to a sink, stream them out and
    grow the snapshot's own log, and the loop that drives them. */
module MachineLoop {
  import opened Basics
  import opened Events
  import opened M = Machine
  import Evidence

  /** Events a node may have written before a collaborator raised: none settles or passes a step. */
  predicate Loose(e: Event) {
    || e.StepStarted? || e.ToolCalled? || e.GateStarted? || e.GateFinished?
    || e.ScopeFinished? || e.CoverageFinished? || e.ChainFinished?
  }

  predicate AllLoose(log: Log, revision: nat) {
    forall i :: 0 <= i < |log| ==> Loose(log[i]) && IsOf(log[i], revision)
  }

  class ExecutionMachine {
    const cfg: Config
    /** Events written to the session store. */
    var sink: Log
    /** Events yielded to the caller of `Stream`. */
    var streamed: Log

    constructor (cfg: Config)
      ensures this.cfg == cfg && sink == [] && streamed == []
    {
      this.cfg := cfg;
      sink, streamed := [], [];
    }

    /** The store and the stream grew by the same events. */
    twostate predicate Emitted(more: Log)
      reads this
    {
      sink == old(sink) + more && streamed == old(streamed) + more
    }

    method Emit(e: Event)
      modifies `sink, `streamed
      ensures sink == old(sink) + [e] && streamed == old(streamed) + [e]
    {
      sink := sink + [e];
      streamed := streamed + [e];
    }

    method ExecuteNode(s: Snapshot, tools: seq<ToolRun>) returns (o: Outcome, ghost more: Log)
      modifies `sink, `streamed
      ensures o == M.ExecuteNode(s, tools)
      ensures o.Reached? ==>
                && o.snap.state.observation == Some(if tools == [] then Succeeded else tools[|tools| - 1].status)
                && (o.snap.state.phase == Blocked <==> o.snap.state.observation == Some(ApprovalRequired))
      ensures Emitted(more) && (o.Reached? ==> o.snap.events == s.events + more)
      ensures o.Raised? ==> AllLoose(more, s.state.revision)
    {
      if s.state.index >= |s.plan.steps| {
        return Raised, [];
      }
      // The executor writes its events as the step proceeds; the node streams them afterwards.
      var key := RequestKey(s);
      sink := sink + [StepStarted(key, s.state.index)];
      var toolEvents: Log := [];
      for i := 0 to |tools|
        invariant toolEvents == ToolEvents(key, s.state.index, tools)[..i]
        invariant sink == old(sink) + [StepStarted(key, s.state.index)] + toolEvents
        invariant streamed == old(streamed)
      {
        var called := ToolCalled(key, s.state.index, tools[i].tool, tools[i].status);
        sink := sink + [called];
        toolEvents := toolEvents + [called];
      }
      var outcomeEvents := [StepStarted(key, s.state.index)] + toolEvents;
      for i := 0 to |outcomeEvents|
        invariant streamed == old(streamed) + outcomeEvents[..i]
        invariant sink == old(sink) + outcomeEvents
      {
        streamed := streamed + [outcomeEvents[i]];
      }
      assert outcomeEvents == ExecutionEvents(s, tools);
      var next := AfterExecution(s.state, LastStatus(tools));
      if next.None? {
        return Raised, outcomeEvents;
      }
      var events := s.events + outcomeEvents;
      more := outcomeEvents;
      if next.value.phase.Blocked? {
        var blocked := StepBlocked(StateKey(s), s.state.index);
        Emit(blocked);
        events := events + [blocked];
        more := more + [blocked];
      }
      o := Reached(Snapshot(next.value, s.plan, events));
    }

    /** Router, reflected event and the events that close a step. */
    method ApplyReflection(s: Snapshot, action: Action) returns (o: Outcome, ghost more: Log)
      modifies `sink, `streamed
      ensures o == Reflect(s, action)
      ensures Emitted(more) && (o.Reached? ==> o.snap.events == s.events + more) && (o.Raised? ==> more == [])
    {
      if s.state.observation.None? || s.state.index >= |s.plan.steps| {
        return Raised, [];
      }
      var reflected := Reflected(s, action);
      sink := sink + [reflected];
      var next := AfterReflection(s.state, action, |s.plan.steps|);
      var terminal: Log := [];
      if action == Accept {
        var completed := StepCompleted(StateKey(s), s.state.index);
        sink := sink + [completed];
        terminal := [completed];
      } else if next.phase.Failed? {
        var failed := StepFailed(StateKey(s), s.state.index);
        sink := sink + [failed];
        var error := TaskError(s.state.runId, s.state.revision);
        sink := sink + [error];
        terminal := [failed, error];
      }
      streamed := streamed + [reflected];
      var events := s.events + [reflected];
      more := [reflected] + terminal;
      for i := 0 to |terminal|
        invariant events == s.events + [reflected] + terminal[..i]
        invariant streamed == old(streamed) + [reflected] + terminal[..i]
        invariant sink == old(sink) + [reflected] + terminal
      {
        events := events + [terminal[i]];
        streamed := streamed + [terminal[i]];
      }
      o := Reached(Snapshot(next, s.plan, events));
    }

    method ReflectNode(s: Snapshot, action: Action) returns (o: Outcome, ghost more: Log)
      modifies `sink, `streamed
      ensures o == M.ReflectNode(s, action)
      ensures Emitted(more) && (o.Reached? ==> o.snap.events == s.events + more)
      ensures o.Raised? ==> AllLoose(more, s.state.revision)
    {
      // The critic refuses to accept anything but a success.
      if action == Accept && (s.state.observation.None? || !IsSuccess(s.state.observation.value)) {
        return Raised, [];
      }
      o, more := ApplyReflection(s, action);
    }

    method ReplanNode(s: Snapshot, replacement: Plan) returns (o: Outcome, ghost more: Log)
      modifies `sink, `streamed
      ensures o == M.ReplanNode(cfg, s, replacement)
      ensures Emitted(more) && (o.Reached? ==> o.snap.events == s.events + more)
      ensures o.Raised? ==> AllLoose(more, s.state.revision)
    {
      if !cfg.replanner {
        return Raised, [];
      }
      var revision := s.state.revision + 1;
      var plan := replacement.(revision := revision);
      var created := PlanCreated(s.state.runId, plan.id, revision);
      Emit(created);
      more := [created];
      o := Reached(Snapshot(FromPlan(s.state.runId, plan, revision, 0), plan, s.events + [created]));
    }

    /** A stage failed: its events are already out, the reflection follows. */
    method FailedTransition(s: Snapshot, stageEvents: Log, canRetry: bool) returns (o: Outcome, ghost more: Log)
      modifies `sink, `streamed
      ensures o == ChainFailed(s, stageEvents, canRetry)
      ensures Emitted(more) && (o.Reached? ==> o.snap.events == s.events + stageEvents + more)
      ensures o.Raised? ==> more == []
    {
      var reflecting := Extend(s, stageEvents).(state := s.state.(phase := Reflecting));
      o, more := ApplyReflection(reflecting, if canRetry then Retry else Action.Fail);
    }

    method GateCycle(s: Snapshot, v: Verdict) returns (r: StageResult, ghost more: Log)
      modifies `sink, `streamed
      ensures r == RunGate(cfg, s, v)
      ensures Emitted(more) && (!r.Stop? ==> more == PassEvents(r))
      ensures r.Stop? && r.outcome.Reached? ==> r.outcome.snap.events == s.events + more
      ensures !r.Stop? || r.outcome.Raised? ==> AllLoose(more, s.state.revision)
    {
      if !cfg.gate || GateCommand(s.plan).None? {
        return Skip, [];
      }
      var command := GateCommand(s.plan).value;
      var started := GateStarted(s.state.revision, command);
      Emit(started);
      var finished := GateFinished(s.state.revision, command, v.gatePassed);
      Emit(finished);
      if v.gatePassed {
        return Pass([started, finished]), [started, finished];
      }
      var failures := CountGateFailures(s.events, command);
      var o, reflection :=
        FailedTransition(s, [started, finished], GateAllowsRetry(s.plan) && failures < cfg.maxRetries);
      return Stop(o), [started, finished] + reflection;
    }

    method ScopeCycle(s: Snapshot, v: Verdict) returns (r: StageResult, ghost more: Log)
      modifies `sink, `streamed
      ensures r == RunScope(cfg, s, v)
      ensures Emitted(more) && (!r.Stop? ==> more == PassEvents(r))
      ensures r.Stop? && r.outcome.Reached? ==> r.outcome.snap.events == s.events + more
      ensures !r.Stop? || r.outcome.Raised? ==> AllLoose(more, s.state.revision)
    {
      if !cfg.scope || !HasScopePolicy(s.plan) {
        return Skip, [];
      }
      var finished := ScopeFinished(s.state.revision, v.inScope);
      Emit(finished);
      if v.inScope {
        return Pass([finished]), [finished];
      }
      var failures := CountAuditFailures(s.events);
      var o, reflection := FailedTransition(s, [finished], ScopeAllowsRetry(s.plan) && failures < cfg.maxRetries);
      return Stop(o), [finished] + reflection;
    }

    method CoverageCycle(s: Snapshot, v: Verdict) returns (r: StageResult, ghost more: Log)
      modifies `sink, `streamed
      ensures r == RunCoverage(cfg, s, v)
      ensures Emitted(more) && (!r.Stop? ==> more == PassEvents(r))
      ensures r.Stop? && r.outcome.Reached? ==> r.outcome.snap.events == s.events + more
      ensures !r.Stop? || r.outcome.Raised? ==> AllLoose(more, s.state.revision)
    {
      if !cfg.coverage {
        return Skip, [];
      }
      var finished := CoverageFinished(s.state.revision, v.adequate, EnforcesCoverage(s.plan));
      Emit(finished);
      if EnforcesCoverage(s.plan) && !v.adequate {
        var failures := CountAuditFailures(s.events);
        var o, reflection := FailedTransition(s, [finished], GateAllowsRetry(s.plan) && failures < cfg.maxRetries);
        return Stop(o), [finished] + reflection;
      }
      return Pass([finished]), [finished];
    }

    /** The chain before the summary; each stage that passes adds its events to the snapshot. */
    method RunChain(s: Snapshot, v: Verdict) returns (r: ChainResult, ghost more: Log)
      modifies `sink, `streamed
      ensures r == M.RunChain(cfg, s, v)
      ensures Emitted(more) && (r.Through? ==> r.snap.events == s.events + more)
      ensures r.Halted? && r.outcome.Reached? ==> r.outcome.snap.events == s.events + more
      ensures r.Through? || r.outcome.Raised? ==> AllLoose(more, s.state.revision)
    {
      var stage, m1 := GateCycle(s, v);
      if stage.Stop? {
        return Halted(stage.outcome), m1;
      }
      ghost var m2: Log;
      r, m2 := ScopeOnwards(After(s, stage), v, Ran(stage, GateStage));
      more := m1 + m2;
      ConcatAssoc(old(sink), m1, m2);
      ConcatAssoc(old(streamed), m1, m2);
      ConcatAssoc(s.events, m1, m2);
    }

    method ScopeOnwards(s: Snapshot, v: Verdict, ran: set<Stage>) returns (r: ChainResult, ghost more: Log)
      modifies `sink, `streamed
      ensures r == M.ScopeOnwards(cfg, s, v, ran)
      ensures Emitted(more) && (r.Through? ==> r.snap.events == s.events + more)
      ensures r.Halted? && r.outcome.Reached? ==> r.outcome.snap.events == s.events + more
      ensures r.Through? || r.outcome.Raised? ==> AllLoose(more, s.state.revision)
    {
      var stage, m1 := ScopeCycle(s, v);
      if stage.Stop? {
        return Halted(stage.outcome), m1;
      }
      ghost var m2: Log;
      r, m2 := CoverageOnwards(After(s, stage), v, ran + Ran(stage, ScopeStage));
      more := m1 + m2;
      ConcatAssoc(old(sink), m1, m2);
      ConcatAssoc(old(streamed), m1, m2);
      ConcatAssoc(s.events, m1, m2);
    }

    method CoverageOnwards(s: Snapshot, v: Verdict, ran: set<Stage>) returns (r: ChainResult, ghost more: Log)
      modifies `sink, `streamed
      ensures r == M.CoverageOnwards(cfg, s, v, ran)
      ensures Emitted(more) && (r.Through? ==> r.snap.events == s.events + more)
      ensures r.Halted? && r.outcome.Reached? ==> r.outcome.snap.events == s.events + more
      ensures r.Through? || r.outcome.Raised? ==> AllLoose(more, s.state.revision)
    {
      var stage, m1 := CoverageCycle(s, v);
      if stage.Stop? {
        return Halted(stage.outcome), m1;
      }
      var snapshot, executed := After(s, stage), ran + Ran(stage, CoverageStage);
      more := m1;
      if |executed| >= 2 {
        var chain := ChainFinished(snapshot.state.revision, executed);
        Emit(chain);
        snapshot := Extend(snapshot, [chain]);
        more := more + [chain];
      }
      r := Through(snapshot);
    }

    method SummarizeNode(s: Snapshot, v: Verdict, answer: string) returns (o: Outcome, ghost more: Log)
      modifies `sink, `streamed
      ensures o == M.SummarizeNode(cfg, s, v, answer)
      ensures Emitted(more) && (o.Reached? ==> o.snap.events == s.events + more)
      ensures o.Raised? ==> AllLoose(more, s.state.revision)
    {
      var chain, m1 := RunChain(s, v);
      if chain.Halted? {
        return chain.outcome, m1;
      }
      var snapshot := chain.snap;
      var evidence := Evidence.AcceptedToolEvents(snapshot.events);
      if evidence.Err? || evidence.value == [] || Blank(answer) {
        return Raised, m1;
      }
      // The summary service persists the message, the machine then persists the done event.
      sink := sink + [MessageCreated];
      var done := TaskDone(snapshot.state.runId, snapshot.state.revision);
      sink := sink + [done];
      streamed := streamed + [MessageCreated];
      streamed := streamed + [done];
      more := m1 + [MessageCreated, done];
      o := Reached(Snapshot(snapshot.state.(phase := Completed), snapshot.plan,
                            snapshot.events + [MessageCreated, done]));
    }

    method Dispatch(s: Snapshot, a: Answer) returns (o: Outcome, ghost more: Log)
      modifies `sink, `streamed
      ensures o == Step(cfg, s, a)
      ensures Emitted(more) && (o.Reached? ==> o.snap.events == s.events + more)
      ensures o.Raised? ==> AllLoose(more, s.state.revision)
    {
      o, more := Raised, [];
      match s.state.phase
      case Executing => if a.Executed? { o, more := ExecuteNode(s, a.tools); }
      case Reflecting => if a.Judged? { o, more := ReflectNode(s, a.action); }
      case Replanning => if a.Replaced? { o, more := ReplanNode(s, a.plan); }
      case Summarizing => if a.Reviewed? { o, more := SummarizeNode(s, a.verdict, a.answer); }
      case _ =>
    }

    /** One turn of the driving loop. */
    method Turn(ghost s0: Snapshot, answers: seq<Answer>, i: nat, s: Snapshot)
      returns (o: Outcome, ghost more: Log)
      requires i < |answers|
      requires Run(cfg, s0, answers[..i]) == Reached(s) && !Terminal(s.state.phase)
      modifies `sink, `streamed
      ensures o == Run(cfg, s0, answers[..i + 1])
      ensures Emitted(more) && (o.Reached? ==> o.snap.events == s.events + more)
      ensures o.Raised? ==> AllLoose(more, s.state.revision)
    {
      o, more := Dispatch(s, answers[i]);
      RunStep(cfg, s0, answers, i, s);
    }

    /** Drives the nodes until a terminal phase, an exception, or the end of the given answers.
        When a collaborator raises, what was emitted is the log of the last snapshot reached
        and the loose events of the node that raised. */
    method Stream(runId: string, plan: Plan, start: int, answers: seq<Answer>)
      returns (o: Outcome, ghost last: Snapshot, ghost loose: Log)
      modifies `sink, `streamed
      ensures o == Run(cfg, Initial(runId, plan, start), answers)
      ensures o.Reached? ==> last == o.snap && loose == []
      ensures o.Raised? ==> LastReached(cfg, Initial(runId, plan, start), answers, last)
      ensures AllLoose(loose, last.state.revision) && Emitted(last.events + loose)
    {
      var snapshot := Initial(runId, plan, start);
      ghost var s0 := snapshot;
      var i := 0;
      while i < |answers| && !Terminal(snapshot.state.phase)
        invariant i <= |answers|
        invariant Run(cfg, s0, answers[..i]) == Reached(snapshot)
        invariant Emitted(snapshot.events)
      {
        ghost var log := snapshot.events;
        var transition, more := Turn(s0, answers, i, snapshot);
        ConcatAssoc(old(sink), log, more);
        ConcatAssoc(old(streamed), log, more);
        i := i + 1;
        if transition.Raised? {
          RaisedStays(cfg, s0, answers, i);
          return Raised, snapshot, more;
        }
        snapshot := transition.snap;
      }
      TerminalStays(cfg, s0, answers, i);
      o, last, loose := Reached(snapshot), snapshot, [];
      assert snapshot.events + [] == snapshot.events;
    }
  }

  /** `last` is the snapshot in which some answer made a node raise. */
  predicate LastReached(cfg: Config, s0: Snapshot, answers: seq<Answer>, last: Snapshot) {
    exists k :: 0 <= k < |answers| && Run(cfg, s0, answers[..k]) == Reached(last) &&
                Run(cfg, s0, answers[..k + 1]).Raised?
  }

  /** One more answer is one more step. */
  lemma RunStep(cfg: Config, s0: Snapshot, answers: seq<Answer>, i: nat, s: Snapshot)
    requires i < |answers|
    requires Run(cfg, s0, answers[..i]) == Reached(s) && !Terminal(s.state.phase)
    ensures Run(cfg, s0, answers[..i + 1]) == Step(cfg, s, answers[i])
  {
    assert answers[..i + 1][..i] == answers[..i];
  }

  /** A raised run stays raised. */
  lemma {:induction false} RaisedStays(cfg: Config, s0: Snapshot, answers: seq<Answer>, i: nat)
    requires i <= |answers|
    requires Run(cfg, s0, answers[..i]).Raised?
    ensures Run(cfg, s0, answers).Raised?
  {
    if i == |answers| {
      assert answers[..i] == answers;
    } else {
      var front := answers[..|answers| - 1];
      assert front[..i] == answers[..i];
      RaisedStays(cfg, s0, front, i);
    }
  }

  /** A terminal run ignores every further answer. */
  lemma {:induction false} TerminalStays(cfg: Config, s0: Snapshot, answers: seq<Answer>, i: nat)
    requires i <= |answers|
    requires Run(cfg, s0, answers[..i]).Reached?
    requires i == |answers| || Terminal(Run(cfg, s0, answers[..i]).snap.state.phase)
    ensures Run(cfg, s0, answers) == Run(cfg, s0, answers[..i])
  {
    if i == |answers| {
      assert answers[..i] == answers;
    } else {
      var front := answers[..|answers| - 1];
      assert front[..i] == answers[..i];
      TerminalStays(cfg, s0, front, i);
    }
  }
}
