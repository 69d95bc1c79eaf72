/** The service around the machine: where a resumed run starts, what the session's status
    becomes, and when the two agree with what the run had achieved. */
module ReactService {
  import opened Basics
  import opened Events
  import opened Machine
  import opened MachineMoves
  import opened MachineInvariants
  import opened MachineRuns
  import opened MachineLoop

  // ---------------------------------------------------------------- the resume point

  predicate NamesFailedRun(e: Event) { e.TaskError? && e.runId != "" }

  predicate NoFailedRun(log: Log) { forall i :: 0 <= i < |log| ==> !NamesFailedRun(log[i]) }

  function CompletionOf(runId: string): Event -> bool {
    (e: Event) => e.StepCompleted? && e.key.runId == runId
  }

  predicate NoCompletionOf(log: Log, runId: string) {
    forall i :: 0 <= i < |log| ==> !CompletionOf(runId)(log[i])
  }

  /** The run named by the last task error that names one. */
  function LastFailedRun(log: Log): Option<string> {
    if log == [] then None
    else if NamesFailedRun(log[|log| - 1]) then Some(log[|log| - 1].runId)
    else LastFailedRun(log[..|log| - 1])
  }

  /** Where a resumed run starts: the number of completions of the last failed run. */
  function ResumeIndex(log: Log): nat {
    match LastFailedRun(log)
    case None => 0
    case Some(runId) => Count(log, CompletionOf(runId))
  }

  // ---------------------------------------------------------------- the session status

  datatype SessionStatus = SessionIdle | SessionRunning | SessionFailed

  function NextStatus(status: SessionStatus, e: Event): SessionStatus {
    if e.TaskDone? || e.StepBlocked? || e.MessageCreated? then SessionIdle
    else if e.StepFailed? || e.TaskError? || (e.StepReflected? && e.action == Action.Fail) then SessionFailed
    else status
  }

  function StatusAfter(status: SessionStatus, log: Log): SessionStatus {
    if log == [] then status else NextStatus(StatusAfter(status, log[..|log| - 1]), log[|log| - 1])
  }

  /** The revision the service takes over from an event that carries an identity. */
  function NextRevision(revision: nat, e: Event): nat {
    if RevisionOf(e).Some? then RevisionOf(e).value else revision
  }

  function RevisionAfter(revision: nat, log: Log): nat {
    if log == [] then revision else NextRevision(RevisionAfter(revision, log[..|log| - 1]), log[|log| - 1])
  }

  // ---------------------------------------------------------------- the service

  datatype Served = NoPlan | NoSteps | Served(outcome: Outcome)

  class AgentService {
    /** Its sink is the session's event store. */
    const machine: ExecutionMachine
    var status: SessionStatus

    constructor (machine: ExecutionMachine)
      ensures this.machine == machine && status == SessionIdle
    {
      this.machine := machine;
      status := SessionIdle;
    }

    /** Finds the last failed run from the end of the store and counts its completions. */
    method ResumeContext() returns (start: nat)
      ensures start == ResumeIndex(machine.sink)
    {
      var events := machine.sink;
      var runId: Option<string> := None;
      var i := |events|;
      assert events[..i] == events;
      while i > 0 && runId.None?
        invariant 0 <= i <= |events|
        invariant runId.None? ==> LastFailedRun(events) == LastFailedRun(events[..i])
        invariant runId.Some? ==> LastFailedRun(events) == runId
      {
        i := i - 1;
        assert events[..i + 1][..i] == events[..i];
        if events[i].TaskError? && events[i].runId != "" {
          runId := Some(events[i].runId);
        }
      }
      if runId.None? {
        return 0;
      }
      start := 0;
      for n := 0 to |events|
        invariant start == Count(events[..n], CompletionOf(runId.value))
      {
        assert events[..n + 1][..n] == events[..n];
        if events[n].StepCompleted? && events[n].key.runId == runId.value {
          start := start + 1;
        }
      }
      assert events[..|events|] == events;
    }

    method CommitEvent(e: Event)
      modifies `status
      ensures status == NextStatus(old(status), e)
    {
      if e.TaskDone? || e.StepBlocked? || e.MessageCreated? {
        status := SessionIdle;
      } else if e.StepFailed? || e.TaskError? || (e.StepReflected? && e.action == Action.Fail) {
        status := SessionFailed;
      }
    }

    /** Commits what the run streamed, event by event, and takes over its revision. */
    method CommitEvents(items: Log, first: nat) returns (revision: nat)
      modifies `status
      ensures status == StatusAfter(old(status), items) && revision == RevisionAfter(first, items)
    {
      revision := first;
      for i := 0 to |items|
        invariant status == StatusAfter(old(status), items[..i]) && revision == RevisionAfter(first, items[..i])
      {
        assert items[..i + 1][..i] == items[..i];
        revision := NextRevision(revision, items[i]);
        CommitEvent(items[i]);
      }
      assert items[..|items|] == items;
    }

    method PersistError(runId: string, revision: nat)
      modifies `status, machine`sink, machine`streamed
      ensures machine.sink == old(machine.sink) + [TaskError(runId, revision)] && status == SessionFailed
    {
      var error := TaskError(runId, revision);
      machine.sink := machine.sink + [error];
      status := SessionFailed;
      machine.streamed := machine.streamed + [error];
    }

    /** Runs the latest plan, from the resume point if asked to. */
    method StreamLatestPlan(latest: Option<Plan>, resume: bool, runId: string, answers: seq<Answer>)
      returns (r: Served, ghost last: Snapshot, ghost loose: Log)
      modifies `status, machine`sink, machine`streamed
      ensures r.NoPlan? <==> latest.None?
      ensures r.NoSteps? <==> latest.Some? && latest.value.steps == []
      ensures !r.Served? ==> status == old(status) && machine.sink == old(machine.sink)
      ensures r.Served? ==>
                var s0 := Initial(runId, latest.value, if resume then ResumeIndex(old(machine.sink)) else 0);
                && r.outcome == Run(machine.cfg, s0, answers)
                && (r.outcome.Reached? ==>
                      && machine.sink == old(machine.sink) + r.outcome.snap.events
                      && status == StatusAfter(SessionRunning, r.outcome.snap.events))
                && (r.outcome.Raised? ==>
                      && LastReached(machine.cfg, s0, answers, last) && AllLoose(loose, last.state.revision)
                      && machine.sink == old(machine.sink) + (last.events + loose) +
                           [TaskError(runId, last.state.revision)]
                      && status == SessionFailed)
    {
      last, loose := Initial(runId, Plan("", 0, [], None, None), 0), [];
      if latest.None? {
        return NoPlan, last, loose;
      }
      var plan := latest.value;
      if plan.steps == [] {
        return NoSteps, last, loose;
      }
      var start := 0;
      if resume {
        start := ResumeContext();
      }
      status := SessionRunning;
      var from := |machine.streamed|;
      var outcome: Outcome;
      outcome, last, loose := machine.Stream(runId, plan, start, answers);
      var items := machine.streamed[from..];
      assert items == last.events + loose;
      var revision := CommitEvents(items, plan.revision);
      if outcome.Raised? {
        CrashRevision(machine.cfg, runId, plan, start, answers, last, loose);
        PersistError(runId, revision);
      } else {
        assert last.events + [] == last.events;
      }
      r := Served(outcome);
    }
  }

  // ---------------------------------------------------------------- the revision of a crash

  predicate AllOf(log: Log, revision: nat) { forall i :: 0 <= i < |log| ==> IsOf(log[i], revision) }

  lemma {:induction false} RevisionStays(revision: nat, log: Log, more: Log, current: nat)
    requires RevisionAfter(revision, log) == current && AllOf(more, current)
    ensures RevisionAfter(revision, log + more) == current
  {
    if more == [] {
      assert log + more == log;
    } else {
      var front := more[..|more| - 1];
      RevisionStays(revision, log, front, current);
      assert (log + more)[..|log + more| - 1] == log + front;
    }
  }

  lemma AllOfConcat(a: Log, b: Log, revision: nat)
    requires AllOf(a, revision) && AllOf(b, revision)
    ensures AllOf(a + b, revision)
  {
  }

  lemma HaltIsOf(cfg: Config, s: Snapshot, m: Move)
    requires Legal(cfg, s, m) && m.DoHalt?
    ensures AllOf(Body(cfg, s, m), s.state.revision)
  {
    assert AllOf(m.pre, s.state.revision) by {
      forall i | 0 <= i < |m.pre| ensures IsOf(m.pre[i], s.state.revision) { assert m.pre[i] in m.pre; }
    }
    AllOfConcat(m.pre, [m.failure], s.state.revision);
    AllOfConcat(m.pre + [m.failure], [Reflected(s, if m.canRetry then Retry else Action.Fail)], s.state.revision);
  }

  lemma GateIsOf(cfg: Config, plan: Plan, revision: nat)
    ensures AllOf(GateLog(cfg, plan, revision), revision)
  {
  }

  lemma ReviewIsOf(cfg: Config, plan: Plan, revision: nat, adequate: bool)
    ensures AllOf(ScopeLog(cfg, plan, revision), revision)
    ensures AllOf(CoverageLog(cfg, plan, revision, adequate), revision)
  {
  }

  lemma SumIsOf(cfg: Config, plan: Plan, revision: nat)
    ensures AllOf(SumLog(cfg, plan, revision), revision)
  {
  }

  lemma ChainIsOf(cfg: Config, plan: Plan, revision: nat, adequate: bool)
    ensures AllOf(PassedChain(cfg, plan, revision, adequate), revision)
  {
    var g, r := GateLog(cfg, plan, revision), ScopeLog(cfg, plan, revision);
    var c, u := CoverageLog(cfg, plan, revision, adequate), SumLog(cfg, plan, revision);
    GateIsOf(cfg, plan, revision);
    ReviewIsOf(cfg, plan, revision, adequate);
    SumIsOf(cfg, plan, revision);
    AllOfConcat(g, r, revision);
    AllOfConcat(g + r, c, revision);
    AllOfConcat(g + r + c, u, revision);
  }

  lemma BodyIsOf(cfg: Config, s: Snapshot, m: Move)
    requires Legal(cfg, s, m) && !m.DoReplan?
    ensures AllOf(Body(cfg, s, m), s.state.revision)
  {
    match m
    case DoHalt(_, _, _) => HaltIsOf(cfg, s, m);
    case DoFinish(adequate) =>
      ChainIsOf(cfg, s.plan, s.state.revision, adequate);
      AllOfConcat(PassedChain(cfg, s.plan, s.state.revision, adequate), [MessageCreated], s.state.revision);
    case _ =>
  }

  /** What a move other than replanning logs is of the revision the run is in. */
  lemma MoveIsOf(cfg: Config, s: Snapshot, m: Move)
    requires Legal(cfg, s, m) && !m.DoReplan?
    ensures AllOf(Body(cfg, s, m) + Closing(s, NextState(cfg, s, m).phase), s.state.revision)
    ensures NextState(cfg, s, m).revision == s.state.revision
  {
    BodyIsOf(cfg, s, m);
    AllOfConcat(Body(cfg, s, m), Closing(s, NextState(cfg, s, m).phase), s.state.revision);
  }

  predicate InRevision(plan: Plan, s: Snapshot) { RevisionAfter(plan.revision, s.events) == s.state.revision }

  lemma KeepsRevision(cfg: Config, plan: Plan, s: Snapshot, m: Move)
    requires InRevision(plan, s) && Legal(cfg, s, m)
    ensures InRevision(plan, Apply(cfg, s, m))
  {
    var next := Apply(cfg, s, m);
    if m.DoReplan? {
      assert next.events == s.events + [PlanCreated(s.state.runId, m.plan.id, s.state.revision + 1)];
    } else {
      MoveIsOf(cfg, s, m);
      var more := Body(cfg, s, m) + Closing(s, NextState(cfg, s, m).phase);
      RevisionStays(plan.revision, s.events, more, s.state.revision);
    }
  }

  /** At every point of every run the revision the service took over last is the machine's own. */
  lemma RevisionFollows(cfg: Config, runId: string, plan: Plan, start: int, answers: seq<Answer>)
    requires Run(cfg, Initial(runId, plan, start), answers).Reached?
    ensures InRevision(plan, Run(cfg, Initial(runId, plan, start), answers).snap)
  {
    forall s: Snapshot, m: Move | InRevision(plan, s) && Legal(cfg, s, m) ensures InRevision(plan, Apply(cfg, s, m)) {
      KeepsRevision(cfg, plan, s, m);
    }
    Always(cfg, Initial(runId, plan, start), answers, (s: Snapshot) => InRevision(plan, s));
  }

  /** A crash is reported in the revision of the snapshot in which a node raised. */
  lemma CrashRevision(cfg: Config, runId: string, plan: Plan, start: int, answers: seq<Answer>, last: Snapshot,
                      loose: Log)
    requires LastReached(cfg, Initial(runId, plan, start), answers, last) && AllLoose(loose, last.state.revision)
    ensures RevisionAfter(plan.revision, last.events + loose) == last.state.revision
  {
    var s0 := Initial(runId, plan, start);
    var k :| 0 <= k < |answers| && Run(cfg, s0, answers[..k]) == Reached(last) &&
        Run(cfg, s0, answers[..k + 1]).Raised?;
    RevisionFollows(cfg, runId, plan, start, answers[..k]);
    RevisionStays(plan.revision, last.events, loose, last.state.revision);
  }

  // ---------------------------------------------------------------- status of a finished run

  predicate Unsettling(e: Event) { NextStatus(SessionRunning, e) == SessionRunning }

  predicate Open(s: Snapshot) { !Terminal(s.state.phase) ==> All(s.events, Unsettling) }

  lemma KeepsOpen(cfg: Config, s: Snapshot, m: Move)
    requires Open(s) && Legal(cfg, s, m)
    ensures Open(Apply(cfg, s, m))
  {
    if !Terminal(NextState(cfg, s, m).phase) {
      AllBody(cfg, s, m, Unsettling);
      AllConcat(s.events, Body(cfg, s, m) + Closing(s, NextState(cfg, s, m).phase), Unsettling);
    }
  }

  lemma {:induction false} OpenStatus(log: Log)
    requires All(log, Unsettling)
    ensures StatusAfter(SessionRunning, log) == SessionRunning
  {
    if log != [] {
      OpenStatus(log[..|log| - 1]);
    }
  }

  lemma OpenAlways(cfg: Config, runId: string, plan: Plan, start: int, answers: seq<Answer>)
    requires Run(cfg, Initial(runId, plan, start), answers).Reached?
    ensures Open(Run(cfg, Initial(runId, plan, start), answers).snap)
  {
    forall s: Snapshot, m: Move | Open(s) && Legal(cfg, s, m) ensures Open(Apply(cfg, s, m)) { KeepsOpen(cfg, s, m); }
    Always(cfg, Initial(runId, plan, start), answers, (s: Snapshot) => Open(s));
  }

  /** An event that settles the status does so whatever came before. */
  lemma LastSettles(log: Log, e: Event, status: SessionStatus)
    requires log != [] && log[|log| - 1] == e
    requires forall before :: NextStatus(before, e) == status
    ensures StatusAfter(SessionRunning, log) == status
  {
  }

  /** What the last event of a finished run is. */
  lemma LastOfClosed(s: Snapshot)
    requires ClosedOnce(s) && Terminal(s.state.phase)
    ensures s.events != []
    ensures var e := s.events[|s.events| - 1];
            && (s.state.phase.Completed? ==> e.TaskDone?)
            && (s.state.phase.Failed? ==> e == TaskError(s.state.runId, s.state.revision))
            && (s.state.phase.Blocked? ==> e.StepBlocked?)
  {
    var group := Closing(s, s.state.phase);
    var k := |s.events| - |group|;
    assert s.events[k..][|group| - 1] == s.events[|s.events| - 1];
  }

  lemma ClosedStatus(s: Snapshot)
    requires ClosedOnce(s) && Terminal(s.state.phase)
    ensures StatusAfter(SessionRunning, s.events) == if s.state.phase.Failed? then SessionFailed else SessionIdle
  {
    LastOfClosed(s);
    LastSettles(s.events, s.events[|s.events| - 1], if s.state.phase.Failed? then SessionFailed else SessionIdle);
  }

  /** The session ends idle exactly after a completed or blocked run, failed exactly after a
      failed one, and stays running as long as the run does. */
  lemma StatusFollowsPhase(cfg: Config, runId: string, plan: Plan, start: int, answers: seq<Answer>)
    requires Run(cfg, Initial(runId, plan, start), answers).Reached?
    ensures var s := Run(cfg, Initial(runId, plan, start), answers).snap;
            StatusAfter(SessionRunning, s.events) ==
            if s.state.phase.Completed? || s.state.phase.Blocked? then SessionIdle
            else if s.state.phase.Failed? then SessionFailed
            else SessionRunning
  {
    OpenAlways(cfg, runId, plan, start, answers);
    ClosedOnceAlways(cfg, runId, plan, start, answers);
    var s := Run(cfg, Initial(runId, plan, start), answers).snap;
    if Terminal(s.state.phase) {
      ClosedStatus(s);
    } else {
      OpenStatus(s.events);
    }
  }
}
