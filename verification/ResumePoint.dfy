/** When a resumed run starts where the failed run stopped: an exact condition, and what
    happens to the runs that do not meet it. */
module ResumePoint {
  import opened Basics
  import opened Events
  import opened Machine
  import opened MachineMoves
  import opened MachineInvariants
  import opened MachineRuns
  import opened MachineLoop
  import opened ReactService

  // ---------------------------------------------------------------- what the index counts

  function CompletedBefore(revision: nat): Event -> bool {
    (e: Event) => e.StepCompleted? && e.key.revision < revision
  }

  /** The events around a run's own: `after` names no later failed run. */
  predicate Surrounds(before: Log, after: Log, runId: string) {
    runId != "" && NoCompletionOf(before, runId) && NoCompletionOf(after, runId) && NoFailedRun(after)
  }

  lemma {:induction false} LastFailedRunIs(log: Log, e: Event, after: Log)
    requires NamesFailedRun(e) && NoFailedRun(after)
    ensures LastFailedRun(log + [e] + after) == Some(e.runId)
  {
    if after == [] {
      assert log + [e] + after == log + [e];
    } else {
      var all := log + [e] + after;
      LastFailedRunIs(log, e, after[..|after| - 1]);
      assert all[..|all| - 1] == log + [e] + after[..|after| - 1];
    }
  }

  /** The index counts the completions of the run that failed last and nothing else. */
  lemma IndexCountsTheRun(before: Log, log: Log, e: Event, after: Log)
    requires NamesFailedRun(e) && Surrounds(before, after, e.runId)
    ensures ResumeIndex(before + log + [e] + after) == Count(log, CompletionOf(e.runId))
  {
    var p := CompletionOf(e.runId);
    LastFailedRunIs(before + log, e, after);
    CountAppend(before + log + [e], after, p);
    CountPush(before + log, e, p);
    CountAppend(before, log, p);
    CountNone(before, p);
    CountNone(after, p);
  }

  lemma {:induction false} CountSplit(log: Log, p: Event -> bool, q: Event -> bool, r: Event -> bool)
    requires forall i :: 0 <= i < |log| ==> (p(log[i]) <==> q(log[i]) || r(log[i])) && !(q(log[i]) && r(log[i]))
    ensures Count(log, p) == Count(log, q) + Count(log, r)
  {
    if log != [] {
      CountSplit(log[..|log| - 1], p, q, r);
    }
  }

  // ---------------------------------------------------------------- completions of a run

  predicate OwnCompletion(runId: string, e: Event) { e.StepCompleted? ==> e.key.runId == runId }

  predicate Own(runId: string, s: Snapshot) {
    s.state.runId == runId && All(s.events, e => OwnCompletion(runId, e))
  }

  lemma KeepsOwn(cfg: Config, s: Snapshot, m: Move, runId: string)
    requires Own(runId, s) && Legal(cfg, s, m)
    ensures Own(runId, Apply(cfg, s, m))
  {
    var p := e => OwnCompletion(runId, e);
    var body, closing := Body(cfg, s, m), Closing(s, NextState(cfg, s, m).phase);
    AllBody(cfg, s, m, p);
    AllConcat(body, closing, p);
    AllConcat(s.events, body + closing, p);
  }

  lemma OwnAlways(cfg: Config, runId: string, plan: Plan, start: int, answers: seq<Answer>)
    requires Run(cfg, Initial(runId, plan, start), answers).Reached?
    ensures Own(runId, Run(cfg, Initial(runId, plan, start), answers).snap)
  {
    forall s: Snapshot, m: Move | Own(runId, s) && Legal(cfg, s, m) ensures Own(runId, Apply(cfg, s, m)) {
      KeepsOwn(cfg, s, m, runId);
    }
    Always(cfg, Initial(runId, plan, start), answers, (s: Snapshot) => Own(runId, s));
  }

  lemma NothingLaterAlways(cfg: Config, runId: string, plan: Plan, start: int, answers: seq<Answer>)
    requires Run(cfg, Initial(runId, plan, start), answers).Reached?
    ensures NothingLater(Run(cfg, Initial(runId, plan, start), answers).snap)
  {
    forall s: Snapshot, m: Move | NothingLater(s) && Legal(cfg, s, m) ensures NothingLater(Apply(cfg, s, m)) {
      KeepsNothingLater(cfg, s, m);
    }
    Always(cfg, Initial(runId, plan, start), answers, (s: Snapshot) => NothingLater(s));
  }

  /** The first step the run has not passed. */
  function FirstUnaccepted(s: Snapshot): nat { s.state.index + (if PastLastStep(s) then 1 else 0) }

  /** What the index counts too much: completions of earlier revisions and repeated completions
      that a chain retry caused. */
  function Surplus(s: Snapshot): nat {
    Count(s.events, CompletedBefore(s.state.revision)) + CountPairs(s.events, ChainRetryIn(s.state.revision))
  }

  /** A run's own completions: the steps it passed, minus those it skipped, plus the surplus. */
  lemma RunCompletions(cfg: Config, runId: string, plan: Plan, start: int, answers: seq<Answer>)
    requires Run(cfg, Initial(runId, plan, start), answers).Reached?
    ensures var s0 := Initial(runId, plan, start);
            var s := Run(cfg, s0, answers).snap;
            Count(s.events, CompletionOf(runId)) as int == FirstUnaccepted(s) - Base(s0, s) + Surplus(s)
  {
    var s := Run(cfg, Initial(runId, plan, start), answers).snap;
    OwnAlways(cfg, runId, plan, start, answers);
    NothingLaterAlways(cfg, runId, plan, start, answers);
    CompletionsConserved(cfg, runId, plan, start, answers);
    CountSplit(s.events, CompletionOf(runId), CompletedBefore(s.state.revision), CompletedIn(s.state.revision));
  }

  // ---------------------------------------------------------------- a failed run

  /** After a failed run the index is the first step the run has not passed if and only if the
      surplus makes up exactly for the steps the run had skipped when it started. */
  lemma ResumesAfterFailure(cfg: Config, runId: string, plan: Plan, start: int, answers: seq<Answer>,
                            before: Log, after: Log)
    requires Run(cfg, Initial(runId, plan, start), answers).Reached? && Surrounds(before, after, runId)
    requires Run(cfg, Initial(runId, plan, start), answers).snap.state.phase.Failed?
    ensures var s0 := Initial(runId, plan, start);
            var s := Run(cfg, s0, answers).snap;
            && ResumeIndex(before + s.events + after) as int == FirstUnaccepted(s) - Base(s0, s) + Surplus(s)
            && (ResumeIndex(before + s.events + after) == FirstUnaccepted(s) <==> Surplus(s) == Base(s0, s))
  {
    var s := Run(cfg, Initial(runId, plan, start), answers).snap;
    ClosedOnceAlways(cfg, runId, plan, start, answers);
    SameRun(cfg, runId, plan, start, answers);
    LastOfClosed(s);
    var k := |s.events| - 1;
    var e := s.events[k];
    assert s.events == s.events[..k] + [e];
    ConcatAssoc(before, s.events[..k], [e]);
    IndexCountsTheRun(before, s.events[..k], e, after);
    CountPush(s.events[..k], e, CompletionOf(runId));
    RunCompletions(cfg, runId, plan, start, answers);
  }

  /** The step that failed is resumed, for a run from the top, exactly when no earlier revision
      had completed a step, no chain retry was granted, and the failure was the step's own. */
  lemma ResumesAtFailedStep(cfg: Config, runId: string, plan: Plan, answers: seq<Answer>, before: Log, after: Log)
    requires plan.steps != []
    requires Run(cfg, Initial(runId, plan, 0), answers).Reached? && Surrounds(before, after, runId)
    requires Run(cfg, Initial(runId, plan, 0), answers).snap.state.phase.Failed?
    ensures var s := Run(cfg, Initial(runId, plan, 0), answers).snap;
            ResumeIndex(before + s.events + after) == s.state.index <==>
              && Count(s.events, CompletedBefore(s.state.revision)) == 0
              && CountPairs(s.events, ChainRetryIn(s.state.revision)) == 0
              && !FailedInChain(s.events)
  {
    ResumesAfterFailure(cfg, runId, plan, 0, answers, before, after);
  }

  /** A resumed run that fails again in a step of its own makes the next resume fall back: the
      steps it had skipped are subtracted, so accepted steps are executed once more. */
  lemma SecondResumeFallsBack(cfg: Config, runId: string, plan: Plan, start: nat, answers: seq<Answer>,
                              before: Log, after: Log)
    requires 0 < start < |plan.steps|
    requires Run(cfg, Initial(runId, plan, start), answers).Reached? && Surrounds(before, after, runId)
    requires var s := Run(cfg, Initial(runId, plan, start), answers).snap;
             && s.state.phase.Failed? && s.state.revision == plan.revision && !FailedInChain(s.events)
             && CountPairs(s.events, ChainRetryIn(s.state.revision)) == 0
    ensures var s := Run(cfg, Initial(runId, plan, start), answers).snap;
            ResumeIndex(before + s.events + after) == s.state.index - start < s.state.index
  {
    var s := Run(cfg, Initial(runId, plan, start), answers).snap;
    ResumesAfterFailure(cfg, runId, plan, start, answers, before, after);
    RevisionsStart(cfg, runId, plan, start, answers);
    CountNone(s.events, CompletedBefore(s.state.revision));
  }

  predicate NothingEarlier(revision: nat, s: Snapshot) {
    s.state.revision >= revision && All(s.events, (e: Event) => e.StepCompleted? ==> e.key.revision >= revision)
  }

  /** No completion is older than the revision the run started with. */
  lemma RevisionsStart(cfg: Config, runId: string, plan: Plan, start: int, answers: seq<Answer>)
    requires Run(cfg, Initial(runId, plan, start), answers).Reached?
    ensures NothingEarlier(plan.revision, Run(cfg, Initial(runId, plan, start), answers).snap)
  {
    forall s: Snapshot, m: Move | NothingEarlier(plan.revision, s) && Legal(cfg, s, m)
      ensures NothingEarlier(plan.revision, Apply(cfg, s, m))
    {
      var p := (e: Event) => e.StepCompleted? ==> e.key.revision >= plan.revision;
      AllBody(cfg, s, m, p);
      AllConcat(s.events, Body(cfg, s, m) + Closing(s, NextState(cfg, s, m).phase), p);
    }
    Always(cfg, Initial(runId, plan, start), answers, (s: Snapshot) => NothingEarlier(plan.revision, s));
  }

  // ---------------------------------------------------------------- the summary and the chain

  predicate PastMeansLast(s: Snapshot) { PastLastStep(s) ==> s.state.index + 1 == |s.plan.steps| }

  lemma PastMeansLastAlways(cfg: Config, runId: string, plan: Plan, start: int, answers: seq<Answer>)
    requires Run(cfg, Initial(runId, plan, start), answers).Reached?
    ensures PastMeansLast(Run(cfg, Initial(runId, plan, start), answers).snap)
  {
    forall s: Snapshot, m: Move | Shape(s) && PastMeansLast(s) && Legal(cfg, s, m)
      ensures Shape(Apply(cfg, s, m)) && PastMeansLast(Apply(cfg, s, m))
    {
      KeepsShape(cfg, s, m);
      if Apply(cfg, s, m).state.phase.Failed? {
        FailureKind(cfg, s, m);
      }
    }
    Always(cfg, Initial(runId, plan, start), answers, (s: Snapshot) => Shape(s) && PastMeansLast(s));
  }

  /** A run from the top that fails in the acceptance chain is resumed past its last step, and a
      run resumed there never moves: whatever the collaborators answer, it raises at once. */
  lemma ChainFailureCannotBeResumed(cfg: Config, runId: string, plan: Plan, answers: seq<Answer>, before: Log,
                                    after: Log,
                                    cfg2: Config, runId2: string, answers2: seq<Answer>)
    requires plan.steps != [] && answers2 != []
    requires Run(cfg, Initial(runId, plan, 0), answers).Reached? && Surrounds(before, after, runId)
    requires var s := Run(cfg, Initial(runId, plan, 0), answers).snap;
             s.state.phase.Failed? && FailedInChain(s.events)
    ensures var s := Run(cfg, Initial(runId, plan, 0), answers).snap;
            var start := ResumeIndex(before + s.events + after);
            start >= |s.plan.steps| && Run(cfg2, Initial(runId2, s.plan, start), answers2).Raised?
  {
    var s := Run(cfg, Initial(runId, plan, 0), answers).snap;
    ResumesAfterFailure(cfg, runId, plan, 0, answers, before, after);
    PastMeansLastAlways(cfg, runId, plan, 0, answers);
    var start := ResumeIndex(before + s.events + after);
    if Run(cfg2, Initial(runId2, s.plan, start), answers2).Reached? {
      ResumedAtSummaryNeverMoves(cfg2, runId2, s.plan, start, answers2);
      assert false;
    }
  }

  // ---------------------------------------------------------------- a run that raised

  /** What the store holds after a run that raised: its last log, loose events, a task error. */
  function CrashLog(last: Snapshot, loose: Log, runId: string, revision: nat): Log {
    last.events + loose + [TaskError(runId, revision)]
  }

  /** The same exact condition for a run that raised in some snapshot `last`. */
  lemma ResumesAfterCrash(cfg: Config, runId: string, plan: Plan, start: int, answers: seq<Answer>,
                          last: Snapshot, loose: Log, revision: nat, before: Log, after: Log)
    requires LastReached(cfg, Initial(runId, plan, start), answers, last) && AllLoose(loose, last.state.revision)
    requires Surrounds(before, after, runId)
    ensures var s0 := Initial(runId, plan, start);
            var index := ResumeIndex(before + CrashLog(last, loose, runId, revision) + after);
            && index as int == FirstUnaccepted(last) - Base(s0, last) + Surplus(last)
            && (index == FirstUnaccepted(last) <==> Surplus(last) == Base(s0, last))
  {
    var s0 := Initial(runId, plan, start);
    var k :| 0 <= k < |answers| && Run(cfg, s0, answers[..k]) == Reached(last) &&
        Run(cfg, s0, answers[..k + 1]).Raised?;
    RunCompletions(cfg, runId, plan, start, answers[..k]);
    var e := TaskError(runId, revision);
    ConcatAssoc(before, last.events + loose, [e]);
    IndexCountsTheRun(before, last.events + loose, e, after);
    CountAppend(last.events, loose, CompletionOf(runId));
    CountNone(loose, CompletionOf(runId));
  }

  lemma ResumedPastTheEndLogsNothing(cfg: Config, runId: string, plan: Plan, start: int, answers: seq<Answer>,
                                     last: Snapshot)
    requires plan.steps != [] && start >= |plan.steps|
    requires LastReached(cfg, Initial(runId, plan, start), answers, last)
    ensures last.events == []
  {
    var s0 := Initial(runId, plan, start);
    var k :| 0 <= k < |answers| && Run(cfg, s0, answers[..k]) == Reached(last) &&
        Run(cfg, s0, answers[..k + 1]).Raised?;
    ResumedAtSummaryNeverMoves(cfg, runId, plan, start, answers[..k]);
  }

  lemma LooseCompletesNothing(loose: Log, revision: nat, runId: string)
    requires AllLoose(loose, revision)
    ensures Count(loose, CompletionOf(runId)) == 0
  {
    CountNone(loose, CompletionOf(runId));
  }

  /** A run resumed past its last step raises having passed nothing, so the resume after it
      starts again from the first step. */
  lemma ThirdAttemptStartsOver(cfg: Config, runId: string, plan: Plan, start: int, answers: seq<Answer>,
                               last: Snapshot, loose: Log, revision: nat, before: Log, after: Log)
    requires plan.steps != [] && start >= |plan.steps|
    requires LastReached(cfg, Initial(runId, plan, start), answers, last) && AllLoose(loose, last.state.revision)
    requires Surrounds(before, after, runId)
    ensures ResumeIndex(before + CrashLog(last, loose, runId, revision) + after) == 0
  {
    var e := TaskError(runId, revision);
    ResumedPastTheEndLogsNothing(cfg, runId, plan, start, answers, last);
    LooseCompletesNothing(loose, last.state.revision, runId);
    IndexCountsTheRun(before, loose, e, after);
    ConcatAssoc(before, loose, [e]);
    assert CrashLog(last, loose, runId, revision) == loose + [e];
  }
}
