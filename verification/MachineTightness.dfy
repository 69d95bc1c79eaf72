/** The bound on chain retries is reached: for every allowance a run exists that is granted
    the scope allowance in full and then the gate allowance in full. */
module MachineTightness {
  import opened Basics
  import opened Events
  import opened Machine
  import opened MachineMoves
  import opened MachineInvariants
  import opened MachineRuns

  function Injected(max: nat): Config { Config(true, true, false, false, max) }

  /** One step, a gate command and a scope policy, both allowing retries. */
  function OneStep(): Plan {
    Plan("p", 1, [PlanStep("s", "s")], Some(Acceptance("c", true, false)), Some(ScopeDecl(["g"], true)))
  }

  const SCOPE_FAILS := Verdict(true, false, true)
  const GATE_FAILS := Verdict(false, true, true)

  function Work(): seq<Answer> { [Executed([ToolRun("t", Succeeded)]), Judged(Accept)] }

  /** Execute the step, accept it, then have the chain fail on `v`. */
  function Cycle(v: Verdict): seq<Answer> { Work() + [Reviewed(v, "a")] }

  /** `scopes` failing audits followed by `gates` failing gates. */
  function Script(scopes: nat, gates: nat): seq<Answer> {
    if gates > 0 then Script(scopes, gates - 1) + Cycle(GATE_FAILS)
    else if scopes > 0 then Script(scopes - 1, 0) + Cycle(SCOPE_FAILS)
    else []
  }

  /** The counts of gate failures, of failures, and of retries granted so far. */
  predicate Counted(s: Snapshot, gates: nat, failures: nat, retries: nat) {
    && s.state.index == 0 && s.plan == OneStep() && Shape(s)
    && CountGateFailures(s.events, "c") == gates && CountAuditFailures(s.events) == failures
    && CountPairs(s.events, IsChainRetry) == retries
  }

  /** Before a cycle. */
  predicate Ready(s: Snapshot, gates: nat, failures: nat, retries: nat) {
    s.state.phase.Executing? && Counted(s, gates, failures, retries)
  }

  lemma {:induction false} RunConcat(cfg: Config, s: Snapshot, a: seq<Answer>, b: seq<Answer>)
    requires Run(cfg, s, a).Reached?
    ensures Run(cfg, s, a + b) == Run(cfg, Run(cfg, s, a).snap, b)
  {
    if b == [] {
      assert a + b == a;
    } else {
      var m := |b| - 1;
      RunConcat(cfg, s, a, b[..m]);
      assert (a + b)[..|a + b| - 1] == a + b[..m];
    }
  }

  lemma RunOne(cfg: Config, s: Snapshot, a: Answer)
    requires !Terminal(s.state.phase)
    ensures Run(cfg, s, [a]) == Step(cfg, s, a)
  {
    assert [a][..0] == [];
  }

  predicate NoFailure(e: Event) { !IsAuditFailure(e) }

  lemma WritesNoFailure(cfg: Config, s: Snapshot, m: Move)
    requires Legal(cfg, s, m) && !m.DoHalt? && !m.DoFinish?
    ensures All(Body(cfg, s, m), NoFailure)
  {
    match m
    case DoExecute(tools) =>
      AllConcat([StepStarted(RequestKey(s), s.state.index)], ToolEvents(RequestKey(s), s.state.index, tools),
          NoFailure);
    case _ =>
  }

  /** One move that is neither a halt nor the end changes none of the counts. */
  lemma CountsKept(cfg: Config, s: Snapshot, m: Move)
    requires Shape(s) && Legal(cfg, s, m) && !m.DoHalt? && !m.DoFinish?
    ensures var t := Apply(cfg, s, m);
            && Shape(t) && CountPairs(t.events, IsChainRetry) == CountPairs(s.events, IsChainRetry)
            && CountAuditFailures(t.events) == CountAuditFailures(s.events)
            && CountGateFailures(t.events, "c") == CountGateFailures(s.events, "c")
  {
    var body, end := Body(cfg, s, m), Closing(s, NextState(cfg, s, m).phase);
    assert Shape(Apply(cfg, s, m)) by { KeepsShape(cfg, s, m); }
    QuietMove(cfg, s, m, IsChainRetry);
    WritesNoFailure(cfg, s, m);
    AllConcat(body, end, NoFailure);
    NoneCounted(s.events, body + end);
  }

  lemma NoneCounted(log: Log, more: Log)
    requires All(more, NoFailure)
    ensures CountAuditFailures(log + more) == CountAuditFailures(log)
    ensures CountGateFailures(log + more, "c") == CountGateFailures(log, "c")
  {
    CountQuiet(log, more, IsAuditFailure);
    CountQuiet(log, more, GateFailureOf("c"));
  }

  lemma OneMove(cfg: Config, s: Snapshot, a: Answer, gates: nat, failures: nat, retries: nat)
    requires Counted(s, gates, failures, retries) && Step(cfg, s, a).Reached?
    requires s.state.phase.Executing? || s.state.phase.Reflecting?
    requires Step(cfg, s, a).snap.state.index == 0 && Step(cfg, s, a).snap.plan == OneStep()
    ensures Counted(Step(cfg, s, a).snap, gates, failures, retries)
  {
    var m := StepIsMove(cfg, s, a);
    CountsKept(cfg, s, m);
  }

  /** The step runs, is accepted and the run stands before its summary. */
  lemma WorkDone(max: nat, s: Snapshot, gates: nat, failures: nat, retries: nat)
    requires Ready(s, gates, failures, retries)
    ensures Run(Injected(max), s, Work()).Reached?
    ensures var t := Run(Injected(max), s, Work()).snap;
            t.state.phase.Summarizing? && t.state.observation.Some? && Counted(t, gates, failures, retries)
  {
    var cfg := Injected(max);
    var a, b := Executed([ToolRun("t", Succeeded)]), Judged(Accept);
    OneMove(cfg, s, a, gates, failures, retries);
    var u := Step(cfg, s, a).snap;
    OneMove(cfg, u, b, gates, failures, retries);
    RunOne(cfg, s, a);
    RunConcat(cfg, s, [a], [b]);
    RunOne(cfg, u, b);
    assert Work() == [a] + [b];
  }

  /** A granted halt adds one failure and one retry, and a gate failure if the gate failed. */
  lemma HaltCounted(cfg: Config, t: Snapshot, m: Move, gates: nat, failures: nat, retries: nat)
    requires Counted(t, gates, failures, retries) && Legal(cfg, t, m) && m.DoHalt? && m.canRetry
    requires m.failure.GateFinished? ==> m.failure.command == "c"
    ensures Ready(Apply(cfg, t, m), gates + (if m.failure.GateFinished? then 1 else 0), failures + 1, retries + 1)
  {
    KeepsShape(cfg, t, m);
    HaltPairs(cfg, t, m, IsChainRetry);
    HaltFailures(cfg, t, m, IsAuditFailure);
    HaltFailures(cfg, t, m, GateFailureOf("c"));
  }

  /** A failing audit is granted a retry while failures are below the allowance. */
  lemma ScopeRetried(max: nat, t: Snapshot, failures: nat, retries: nat)
    requires t.state.phase.Summarizing? && t.state.observation.Some? && failures < max
    requires Counted(t, 0, failures, retries)
    ensures Step(Injected(max), t, Reviewed(SCOPE_FAILS, "a")).Reached?
    ensures Ready(Step(Injected(max), t, Reviewed(SCOPE_FAILS, "a")).snap, 0, failures + 1, retries + 1)
  {
    var cfg := Injected(max);
    var pre := GateLog(cfg, t.plan, t.state.revision);
    var failure := ScopeFinished(t.state.revision, false);
    GatePasses(cfg, t, SCOPE_FAILS);
    var m := HaltAfter(cfg, t, pre, failure, true);
    NeutralIsNoFailure(t.events, pre);
    assert Step(cfg, t, Reviewed(SCOPE_FAILS, "a")) == Reached(Apply(cfg, t, m));
    HaltCounted(cfg, t, m, 0, failures, retries);
  }

  /** A failing gate is granted a retry while failures of its command are below the allowance. */
  lemma GateRetried(max: nat, t: Snapshot, gates: nat, failures: nat, retries: nat)
    requires t.state.phase.Summarizing? && t.state.observation.Some? && gates < max
    requires Counted(t, gates, failures, retries)
    ensures Step(Injected(max), t, Reviewed(GATE_FAILS, "a")).Reached?
    ensures Ready(Step(Injected(max), t, Reviewed(GATE_FAILS, "a")).snap, gates + 1, failures + 1, retries + 1)
  {
    var cfg := Injected(max);
    var m := DoHalt([GateStarted(t.state.revision, "c")], GateFinished(t.state.revision, "c", false), true);
    ReflectClosed(t, [GateStarted(t.state.revision, "c"), m.failure], true);
    assert m.pre + [m.failure] == [GateStarted(t.state.revision, "c"), m.failure];
    assert Step(cfg, t, Reviewed(GATE_FAILS, "a")) == Reached(Apply(cfg, t, m));
    HaltCounted(cfg, t, m, gates, failures, retries);
  }

  lemma {:induction false} ScriptRuns(max: nat, scopes: nat, gates: nat)
    requires scopes <= max && gates <= max
    ensures Run(Injected(max), Initial("r", OneStep(), 0), Script(scopes, gates)).Reached?
    ensures Ready(Run(Injected(max), Initial("r", OneStep(), 0), Script(scopes, gates)).snap,
                  gates, scopes + gates, scopes + gates)
    decreases scopes + gates
  {
    var cfg, s0 := Injected(max), Initial("r", OneStep(), 0);
    if scopes + gates > 0 {
      var i, j := if gates > 0 then scopes else scopes - 1, if gates > 0 then gates - 1 else 0;
      var v := if gates > 0 then GATE_FAILS else SCOPE_FAILS;
      ScriptRuns(max, i, j);
      var s := Run(cfg, s0, Script(i, j)).snap;
      WorkDone(max, s, j, i + j, i + j);
      var t := Run(cfg, s, Work()).snap;
      if gates > 0 {
        GateRetried(max, t, j, i + j, i + j);
      } else {
        ScopeRetried(max, t, i, i);
      }
      RunConcat(cfg, s0, Script(i, j), Cycle(v));
      RunConcat(cfg, s, Work(), [Reviewed(v, "a")]);
      RunOne(cfg, t, Reviewed(v, "a"));
    }
  }

  /** The bound 2 * maxRetries for one gate command is met, for every allowance. */
  lemma AllowanceCanBeSpent(max: nat)
    ensures var o := Run(Injected(max), Initial("r", OneStep(), 0), Script(max, max));
            o.Reached? && CommandsOf(Injected(max), OneStep()) == {"c"} &&
            CountPairs(o.snap.events, IsChainRetry) == 2 * max
  {
    ScriptRuns(max, max, max);
  }
}
