/** Theorems about whole runs of the agent execution machine, for every plan, every
    configuration and every sequence of collaborator answers. */
module MachineRuns {
  import opened Basics
  import opened Events
  import opened Machine
  import opened MachineMoves
  import opened MachineInvariants
  import Evidence

  // ---------------------------------------------------------------- one induction for all

  /** The induction principle of runs: what holds initially and is kept by every legal move
      holds of every reached snapshot. Replacement plans may be restricted by `good`. */
  lemma {:induction false} AlwaysGiven(cfg: Config, s0: Snapshot, answers: seq<Answer>,
                                       good: Plan -> bool, inv: Snapshot -> bool)
    requires inv(s0)
    requires forall i :: 0 <= i < |answers| && answers[i].Replaced? ==> good(answers[i].plan)
    requires forall s, m :: inv(s) && Legal(cfg, s, m) && (m.DoReplan? ==> good(m.plan)) ==> inv(Apply(cfg, s, m))
    requires Run(cfg, s0, answers).Reached?
    ensures inv(Run(cfg, s0, answers).snap)
  {
    if answers != [] {
      AlwaysGiven(cfg, s0, answers[..|answers| - 1], good, inv);
      var s := Run(cfg, s0, answers[..|answers| - 1]).snap;
      if !Terminal(s.state.phase) {
        var m := StepIsMove(cfg, s, answers[|answers| - 1]);
      }
    }
  }

  lemma Always(cfg: Config, s0: Snapshot, answers: seq<Answer>, inv: Snapshot -> bool)
    requires inv(s0)
    requires forall s, m :: inv(s) && Legal(cfg, s, m) ==> inv(Apply(cfg, s, m))
    requires Run(cfg, s0, answers).Reached?
    ensures inv(Run(cfg, s0, answers).snap)
  {
    AlwaysGiven(cfg, s0, answers, _ => true, inv);
  }

  // ---------------------------------------------------------------- the event log

  /** A run's log only grows. */
  lemma {:induction false} LogIsAppendOnly(cfg: Config, s0: Snapshot, answers: seq<Answer>, n: nat)
    requires n <= |answers| && Run(cfg, s0, answers).Reached?
    ensures Run(cfg, s0, answers[..n]).Reached?
    ensures Run(cfg, s0, answers[..n]).snap.events <= Run(cfg, s0, answers).snap.events
  {
    if n == |answers| {
      assert answers[..n] == answers;
    } else {
      var front := answers[..|answers| - 1];
      assert front[..n] == answers[..n];
      LogIsAppendOnly(cfg, s0, front, n);
      var s := Run(cfg, s0, front).snap;
      if !Terminal(s.state.phase) {
        var m := StepIsMove(cfg, s, answers[|answers| - 1]);
      }
    }
  }

  lemma ClosedOnceAlways(cfg: Config, runId: string, plan: Plan, start: int, answers: seq<Answer>)
    requires Run(cfg, Initial(runId, plan, start), answers).Reached?
    ensures ClosedOnce(Run(cfg, Initial(runId, plan, start), answers).snap)
  {
    forall s: Snapshot, m: Move | ClosedOnce(s) && Legal(cfg, s, m) ensures ClosedOnce(Apply(cfg, s, m)) {
      KeepsClosedOnce(cfg, s, m);
    }
    Always(cfg, Initial(runId, plan, start), answers, (s: Snapshot) => ClosedOnce(s));
  }

  /** The run id never changes and the revision never goes back. */
  lemma SameRun(cfg: Config, runId: string, plan: Plan, start: int, answers: seq<Answer>)
    requires Run(cfg, Initial(runId, plan, start), answers).Reached?
    ensures Run(cfg, Initial(runId, plan, start), answers).snap.state.runId == runId
    ensures Run(cfg, Initial(runId, plan, start), answers).snap.state.revision >= plan.revision
  {
    Always(cfg, Initial(runId, plan, start), answers,
           (s: Snapshot) => s.state.runId == runId && s.state.revision >= plan.revision);
  }

  /** A finished run ends in exactly one terminal group, of the kind its phase names,
      and an unfinished one holds no terminal event at all. */
  lemma EndsInOneTerminalGroup(cfg: Config, runId: string, plan: Plan, start: int, answers: seq<Answer>)
    requires Run(cfg, Initial(runId, plan, start), answers).Reached?
    ensures var s := Run(cfg, Initial(runId, plan, start), answers).snap;
            exists body ::
              && NoTerminal(body)
              && match s.state.phase
                 case Completed => s.events == body + [TaskDone(runId, s.state.revision)]
                 case Failed =>
                   s.state.index < |s.plan.steps| &&
                   s.events == body + [StepFailed(StateKey(s), s.state.index), TaskError(runId, s.state.revision)]
                 case Blocked =>
                   s.state.index < |s.plan.steps| && s.events == body + [StepBlocked(StateKey(s), s.state.index)]
                 case _ => s.events == body
  {
    ClosedOnceAlways(cfg, runId, plan, start, answers);
    var s := Run(cfg, Initial(runId, plan, start), answers).snap;
    SameRun(cfg, runId, plan, start, answers);
    var group := Closing(s, s.state.phase);
    var body := s.events[..|s.events| - |group|];
    assert s.events == body + group;
    assert NoTerminal(body);
  }

  // ---------------------------------------------------------------- "done" is earned

  /** A completed run ends with: the acceptance of the last step on a success, the passing
      event of every declared stage in order, the sum iff two stages ran, the message and
      task_done. No tool call can hide between the acceptance and the end. */
  lemma DoneIsEarned(cfg: Config, runId: string, plan: Plan, start: int, answers: seq<Answer>)
    requires Run(cfg, Initial(runId, plan, start), answers).Reached?
    requires Run(cfg, Initial(runId, plan, start), answers).snap.state.phase.Completed?
    ensures var s := Run(cfg, Initial(runId, plan, start), answers).snap;
            exists pre, status, adequate :: EarnedAfter(cfg, s, pre, status, adequate)
  {
    forall s: Snapshot, m: Move | Shape(s) && Earned(cfg, s) && Legal(cfg, s, m)
      ensures Shape(Apply(cfg, s, m)) && Earned(cfg, Apply(cfg, s, m))
    {
      KeepsShape(cfg, s, m);
      KeepsEarned(cfg, s, m);
    }
    Always(cfg, Initial(runId, plan, start), answers, (s: Snapshot) => Shape(s) && Earned(cfg, s));
  }

  /** In a completed run every step of the final plan, from the first one this revision was
      asked to run, has an accepting reflection on a success followed by its completion. */
  lemma DoneAcceptedEveryStep(cfg: Config, runId: string, plan: Plan, start: int, answers: seq<Answer>, j: nat)
    requires Run(cfg, Initial(runId, plan, start), answers).Reached?
    requires Run(cfg, Initial(runId, plan, start), answers).snap.state.phase.Completed?
    requires var s := Run(cfg, Initial(runId, plan, start), answers).snap;
             Base(Initial(runId, plan, start), s) <= j < |s.plan.steps|
    ensures StepAccepted(Run(cfg, Initial(runId, plan, start), answers).snap, j)
  {
    var s0 := Initial(runId, plan, start);
    var inv := (s: Snapshot) => s.state.revision >= plan.revision && Shape(s) && AllAccepted(s0, s);
    forall s: Snapshot, m: Move | inv(s) && Legal(cfg, s, m) ensures inv(Apply(cfg, s, m)) {
      KeepsShape(cfg, s, m);
      KeepsAllAccepted(cfg, s0, s, m);
    }
    Always(cfg, s0, answers, inv);
    DoneIsEarned(cfg, runId, plan, start, answers);
  }

  /** A run completes only with evidence: some tool call whose own attempt was accepted. */
  lemma {:induction false} DoneHasEvidence(cfg: Config, runId: string, plan: Plan, start: int, answers: seq<Answer>)
    requires Run(cfg, Initial(runId, plan, start), answers).Reached?
    requires Run(cfg, Initial(runId, plan, start), answers).snap.state.phase.Completed?
    ensures var log := Run(cfg, Initial(runId, plan, start), answers).snap.events;
            exists i :: Evidence.InEvidence(log, i)
  {
    var s0 := Initial(runId, plan, start);
    var front := answers[..|answers| - 1];
    var s := Run(cfg, s0, front).snap;
    if Terminal(s.state.phase) {
      DoneHasEvidence(cfg, runId, plan, start, front);
    } else {
      var m := StepIsMove(cfg, s, answers[|answers| - 1]);
      FinishHasEvidence(cfg, s, m);
    }
  }

  lemma FinishHasEvidence(cfg: Config, s: Snapshot, m: Move)
    requires Legal(cfg, s, m) && m.DoFinish?
    ensures exists i :: Evidence.InEvidence(Apply(cfg, s, m).events, i)
  {
    var chain := PassedChain(cfg, s.plan, s.state.revision, m.adequate);
    var log := s.events + chain;
    var i := Evidence.EvidenceOf(log).value[0];
    Evidence.EvidenceExact(log, i);
    var tail := [MessageCreated, TaskDone(s.state.runId, s.state.revision)];
    assert Apply(cfg, s, m).events == log + tail by {
      assert Body(cfg, s, m) + Closing(s, Completed) == chain + tail;
      ConcatAssoc(s.events, chain, tail);
    }
    InEvidenceGrows(log, tail, i);
  }

  lemma InEvidenceGrows(log: Log, more: Log, i: int)
    requires Evidence.InEvidence(log, i)
    ensures Evidence.InEvidence(log + more, i)
  {
    var j :| 0 <= j < |log| && Evidence.IsAccept(log[j]) && log[j].key == log[i].key;
    assert (log + more)[j] == log[j] && (log + more)[i] == log[i];
  }

  /** A run resumed past its last step has no event of its own to summarize and no observation
      to reflect on: it never moves at all, so it can neither complete nor fail. */
  lemma {:induction false} ResumedAtSummaryNeverMoves(
      cfg: Config, runId: string, plan: Plan, start: int, answers: seq<Answer>)
    requires plan.steps != [] && start >= |plan.steps|
    requires Run(cfg, Initial(runId, plan, start), answers).Reached?
    ensures Run(cfg, Initial(runId, plan, start), answers).snap == Initial(runId, plan, start)
    ensures answers == []
  {
    if answers != [] {
      var s0 := Initial(runId, plan, start);
      ResumedAtSummaryNeverMoves(cfg, runId, plan, start, answers[..|answers| - 1]);
      var m := StepIsMove(cfg, s0, answers[|answers| - 1]);
      if m.DoFinish? {
        NothingToSummarize(cfg, s0, m);
      }
      assert false;
    }
  }

  // ---------------------------------------------------------------- chain retries are bounded

  function GateRetryIn(commands: set<string>): (Event, Event) -> bool {
    (a: Event, b: Event) => IsGateRetry(a, b) && a.command in commands
  }

  lemma {:induction false} GateRetriesBounded(cfg: Config, log: Log, commands: set<string>)
    requires WithinAllowance(cfg, log)
    ensures CountPairs(log, GateRetryIn(commands)) <= cfg.maxRetries * |commands|
    decreases |commands|
  {
    if commands == {} {
      NoPairs(log, GateRetryIn(commands));
    } else {
      var c :| c in commands;
      var rest := commands - {c};
      GateRetriesBounded(cfg, log, rest);
      CountPairsSum(log, GateRetryIn(commands), GateRetryIn(rest), GateRetryOf(c));
      assert CountPairs(log, GateRetryOf(c)) <= Min(cfg.maxRetries, CountGateFailures(log, c));
      assert |commands| == |rest| + 1;
      assert cfg.maxRetries * |commands| == cfg.maxRetries * |rest| + cfg.maxRetries;
    }
  }

  lemma NoPairs(log: Log, p: (Event, Event) -> bool)
    requires forall x, y :: !p(x, y)
    ensures CountPairs(log, p) == 0
  {
    CountPairsQuiet([], log, p);
    assert [] + log == log;
  }

  lemma AllowanceAlways(cfg: Config, runId: string, plan: Plan, start: int, answers: seq<Answer>)
    requires Run(cfg, Initial(runId, plan, start), answers).Reached?
    ensures WithinAllowance(cfg, Run(cfg, Initial(runId, plan, start), answers).snap.events)
  {
    forall s: Snapshot, m: Move | Shape(s) && WithinAllowance(cfg, s.events) && Legal(cfg, s, m)
      ensures Shape(Apply(cfg, s, m)) && WithinAllowance(cfg, Apply(cfg, s, m).events)
    {
      KeepsShape(cfg, s, m);
      KeepsAllowance(cfg, s, m);
    }
    Always(cfg, Initial(runId, plan, start), answers, (s: Snapshot) => Shape(s) && WithinAllowance(cfg, s.events));
  }

  /** Over any run the chain grants at most `maxRetries` retries for each gate command it ran,
      plus `maxRetries` for scope and enforced coverage together: 2 * maxRetries with one
      command, maxRetries when no gate ran. */
  lemma ChainRetriesBounded(cfg: Config, runId: string, plan: Plan, start: int, answers: seq<Answer>,
                            commands: set<string>)
    requires Run(cfg, Initial(runId, plan, start), answers).Reached?
    requires GateCommandsIn(Run(cfg, Initial(runId, plan, start), answers).snap.events, commands)
    ensures CountPairs(Run(cfg, Initial(runId, plan, start), answers).snap.events, IsChainRetry)
            <= cfg.maxRetries * (|commands| + 1)
  {
    AllowanceAlways(cfg, runId, plan, start, answers);
    var log := Run(cfg, Initial(runId, plan, start), answers).snap.events;
    GateRetriesBounded(cfg, log, commands);
    CountPairsSum(log, IsChainRetry, GateRetryIn(commands), IsAuditRetry);
    assert cfg.maxRetries * (|commands| + 1) == cfg.maxRetries * |commands| + cfg.maxRetries;
  }

  /** The commands the gate can run for a plan: none without a gate or a command. */
  function CommandsOf(cfg: Config, plan: Plan): set<string> {
    if cfg.gate && GateCommand(plan).Some? then {GateCommand(plan).value} else {}
  }

  lemma KeepsCommands(cfg: Config, s: Snapshot, m: Move, commands: set<string>)
    requires GateCommandsIn(s.events, commands) && CommandsOf(cfg, s.plan) <= commands && Legal(cfg, s, m)
    ensures GateCommandsIn(Apply(cfg, s, m).events, commands)
  {
    BodyIsLocal(cfg, s, m);
    CommandsConcat(s.events, Body(cfg, s, m), Closing(s, NextState(cfg, s, m).phase), commands);
    ApplyLog(cfg, s, m);
  }

  lemma CommandsConcat(a: Log, b: Log, c: Log, commands: set<string>)
    requires GateCommandsIn(a, commands) && GateCommandsIn(b, commands) && GateCommandsIn(c, commands)
    ensures GateCommandsIn(a + b + c, commands)
  {
  }

  /** The gate only ever runs commands of the plans the run was given. */
  lemma OnlyDeclaredCommands(cfg: Config, runId: string, plan: Plan, start: int, answers: seq<Answer>,
                             commands: set<string>)
    requires CommandsOf(cfg, plan) <= commands
    requires forall i :: 0 <= i < |answers| && answers[i].Replaced? ==> CommandsOf(cfg, answers[i].plan) <= commands
    requires Run(cfg, Initial(runId, plan, start), answers).Reached?
    ensures GateCommandsIn(Run(cfg, Initial(runId, plan, start), answers).snap.events, commands)
  {
    var good := (p: Plan) => CommandsOf(cfg, p) <= commands;
    var inv := (s: Snapshot) => GateCommandsIn(s.events, commands) && CommandsOf(cfg, s.plan) <= commands;
    forall s: Snapshot, m: Move | inv(s) && Legal(cfg, s, m) && (m.DoReplan? ==> good(m.plan))
      ensures inv(Apply(cfg, s, m))
    {
      KeepsCommands(cfg, s, m, commands);
    }
    AlwaysGiven(cfg, Initial(runId, plan, start), answers, good, inv);
  }

  /** With one command in all its plans a run is granted at most 2 * maxRetries chain retries. */
  lemma ChainRetriesWithOneCommand(cfg: Config, runId: string, plan: Plan, start: int, answers: seq<Answer>,
                                   command: string)
    requires CommandsOf(cfg, plan) <= {command}
    requires forall i :: 0 <= i < |answers| && answers[i].Replaced? ==> CommandsOf(cfg, answers[i].plan) <= {command}
    requires Run(cfg, Initial(runId, plan, start), answers).Reached?
    ensures CountPairs(Run(cfg, Initial(runId, plan, start), answers).snap.events, IsChainRetry) <= 2 * cfg.maxRetries
  {
    var one := {command};
    OnlyDeclaredCommands(cfg, runId, plan, start, answers, one);
    ChainRetriesBounded(cfg, runId, plan, start, answers, one);
    Twice(cfg.maxRetries, |one|);
  }

  lemma Twice(n: nat, k: nat)
    requires k == 1
    ensures n * (k + 1) == 2 * n
  {
  }

  /** Without an injected gate the whole chain shares one allowance. */
  lemma ChainRetriesWithoutGate(cfg: Config, runId: string, plan: Plan, start: int, answers: seq<Answer>)
    requires !cfg.gate
    requires Run(cfg, Initial(runId, plan, start), answers).Reached?
    ensures CountPairs(Run(cfg, Initial(runId, plan, start), answers).snap.events, IsChainRetry) <= cfg.maxRetries
  {
    var none: set<string> := {};
    OnlyDeclaredCommands(cfg, runId, plan, start, answers, none);
    ChainRetriesBounded(cfg, runId, plan, start, answers, none);
    assert cfg.maxRetries * (|none| + 1) == cfg.maxRetries;
  }

  // ---------------------------------------------------------------- completions are conserved

  predicate Accounted(s0: Snapshot, s: Snapshot) {
    s.state.revision >= s0.state.revision && Shape(s) && NothingLater(s) && Conserved(s0, s)
  }

  lemma KeepsAccounted(cfg: Config, s0: Snapshot, s: Snapshot, m: Move)
    requires Accounted(s0, s) && Legal(cfg, s, m)
    ensures Accounted(s0, Apply(cfg, s, m))
  {
    assert Apply(cfg, s, m).state.revision >= s0.state.revision;
    assert Shape(Apply(cfg, s, m)) by { KeepsShape(cfg, s, m); }
    assert NothingLater(Apply(cfg, s, m)) by { KeepsNothingLater(cfg, s, m); }
    assert Conserved(s0, Apply(cfg, s, m)) by { KeepsConserved(cfg, s0, s, m); }
  }

  /** In the current revision, completions = steps passed + chain retries (+ 1 past the last step). */
  lemma CompletionsConserved(cfg: Config, runId: string, plan: Plan, start: int, answers: seq<Answer>)
    requires Run(cfg, Initial(runId, plan, start), answers).Reached?
    ensures var s0 := Initial(runId, plan, start);
            var s := Run(cfg, s0, answers).snap;
            Count(s.events, CompletedIn(s.state.revision)) as int ==
            s.state.index - Base(s0, s) + CountPairs(s.events, ChainRetryIn(s.state.revision)) +
            (if PastLastStep(s) then 1 else 0)
  {
    var s0 := Initial(runId, plan, start);
    forall s: Snapshot, m: Move | Accounted(s0, s) && Legal(cfg, s, m) ensures Accounted(s0, Apply(cfg, s, m)) {
      KeepsAccounted(cfg, s0, s, m);
    }
    Always(cfg, s0, answers, (s: Snapshot) => Accounted(s0, s));
  }

  /** Executions only move forward: (revision, step, attempt) strictly increases along the log. */
  lemma ExecutionsMoveForward(cfg: Config, runId: string, plan: Plan, start: int, answers: seq<Answer>)
    requires Run(cfg, Initial(runId, plan, start), answers).Reached?
    ensures Forward(Run(cfg, Initial(runId, plan, start), answers).snap)
  {
    forall s: Snapshot, m: Move | Forward(s) && Legal(cfg, s, m) ensures Forward(Apply(cfg, s, m)) {
      KeepsForward(cfg, s, m);
    }
    Always(cfg, Initial(runId, plan, start), answers, (s: Snapshot) => Forward(s));
  }
}
