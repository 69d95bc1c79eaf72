/** Idempotency keys: how the executor and the step loop build them, and why no key is
    ever used twice by a run. */
module Freshness {
  import opened Basics
  import opened Text
  import U = UuidTexts
  import opened Events
  import opened Machine
  import opened MachineMoves
  import opened MachineInvariants
  import opened MachineRuns
  import opened MachineLoop

  /** The text the executor hashes for one attempt at one step. */
  function AttemptText(session: string, key: StepKey): string {
    session + ":" + key.runId + ":" + key.planId + [':'] + Decimal(key.revision)
    + [':'] + key.stepId + [':'] + Decimal(key.attempt)
  }

  /** One tool call inside a step: its turn and its position in the turn. */
  datatype Slot = Slot(turn: nat, offset: nat)

  /** The key of one tool call: the attempt's digest, the turn and the offset. */
  function CallKey(hash: string -> string, session: string, key: StepKey, slot: Slot): string {
    hash(AttemptText(session, key)) + [':'] + Decimal(slot.turn) + [':'] + Decimal(slot.offset)
  }

  ghost predicate Injective(hash: string -> string) {
    forall a, b :: hash(a) == hash(b) ==> a == b
  }

  /** Every separator inside the id follows a non-digit. */
  predicate Separable(id: string) {
    forall p :: 0 < p < |id| && id[p] == ':' ==> !IsDigit(id[p - 1])
  }

  /** The machine parses every step id as a UUID before it runs the plan. */
  lemma StepIdsAreSeparable(id: string)
    requires U.MayBeUuid(id)
    ensures Separable(id)
  {
    U.UuidHasNoPair(id);
    forall p | 0 < p < |id| && id[p] == ':' ensures !IsDigit(id[p - 1]) {
      assert !U.PairAt(id, p);
    }
  }

  /** A revision and a step id joined by a separator are read back from the right. */
  lemma SplitRevision(a: string, r: nat, s: string, b: string, q: nat, t: string)
    requires Separable(s) && Separable(t)
    requires a + [':'] + Decimal(r) + [':'] + s == b + [':'] + Decimal(q) + [':'] + t
    ensures a == b && r == q && s == t
  {
    if |s| == |t| {
      var u := a + [':'] + Decimal(r) + [':'] + s;
      assert u[|u| - |s|..] == s && u[|u| - |s|..] == t;
      assert u[..|u| - |s| - 1] == a + [':'] + Decimal(r) && u[..|u| - |s| - 1] == b + [':'] + Decimal(q);
      SplitDecimal(a, r, b, q, ':');
    } else if |s| > |t| {
      LateSeparator(a, r, s, b, q, t);
    } else {
      LateSeparator(b, q, t, a, r, s);
    }
  }

  /** If the right-hand id is shorter, the longer one holds a separator after a digit. */
  lemma LateSeparator(a: string, r: nat, s: string, b: string, q: nat, t: string)
    requires |s| > |t|
    requires a + [':'] + Decimal(r) + [':'] + s == b + [':'] + Decimal(q) + [':'] + t
    ensures !Separable(s)
  {
    var u := a + [':'] + Decimal(r) + [':'] + s;
    var d := b + [':'] + Decimal(q);
    DecimalIsDigits(q);
    var p := |s| - |t| - 1;
    assert u[|d|] == ':' && u[|d| - 1] == Decimal(q)[|Decimal(q)| - 1];
    assert Decimal(q)[|Decimal(q)| - 1] in Decimal(q);
    assert |u| == |d| + 1 + |t| && u[|u| - |s| - 1] == ':';
    assert p > 0 && s[p] == u[|d|] && s[p - 1] == u[|d| - 1];
  }

  predicate NoColon(s: string) { ':' !in s }

  /** The text determines everything it is made from: sessions and runs are printed UUIDs, without a
      colon, and step ids parse as UUIDs. The plan id may be any text. */
  lemma AttemptTextInjective(session: string, k: StepKey, other: string, l: StepKey)
    requires NoColon(session) && NoColon(other) && NoColon(k.runId) && NoColon(l.runId)
    requires Separable(k.stepId) && Separable(l.stepId)
    requires AttemptText(session, k) == AttemptText(other, l)
    ensures session == other && k == l
  {
    var hk := session + ":" + k.runId + ":" + k.planId;
    var hl := other + ":" + l.runId + ":" + l.planId;
    SplitDecimal(hk + [':'] + Decimal(k.revision) + [':'] + k.stepId, k.attempt,
                 hl + [':'] + Decimal(l.revision) + [':'] + l.stepId, l.attempt, ':');
    SplitRevision(hk, k.revision, k.stepId, hl, l.revision, l.stepId);
    var rk, rl := k.runId + [':'] + k.planId, l.runId + [':'] + l.planId;
    assert hk == session + [':'] + rk && hl == other + [':'] + rl;
    SplitFirst(session, rk, other, rl, ':');
    SplitFirst(k.runId, k.planId, l.runId, l.planId, ':');
  }

  /** With a separator after a digit in a step id two different attempts would share a text; no such
      id parses as a UUID. */
  lemma SeparatorsCollide(session: string, runId: string)
    ensures var k := StepKey(runId, "p", 1, "2:s", 1);
            var l := StepKey(runId, "p:1", 2, "s", 1);
            k != l && AttemptText(session, k) == AttemptText(session, l) && !U.MayBeUuid(k.stepId)
  {
    var h := session + ":" + runId + ":";
    var k := StepKey(runId, "p", 1, "2:s", 1);
    var l := StepKey(runId, "p:1", 2, "s", 1);
    assert Decimal(1) == "1" && Decimal(2) == "2";
    assert AttemptText(session, k) == h + "p:1:2:s:1";
    assert AttemptText(session, l) == h + "p:1:2:s:1";
    assert U.PairAt("2:s", 1);
    if U.MayBeUuid("2:s") {
      U.UuidHasNoPair("2:s");
    }
  }

  lemma CallKeyInjective(hash: string -> string, session: string, k: StepKey, a: Slot, other: string, l: StepKey,
                         b: Slot)
    requires Injective(hash) && NoColon(session) && NoColon(other) && NoColon(k.runId) && NoColon(l.runId)
    requires Separable(k.stepId) && Separable(l.stepId)
    requires CallKey(hash, session, k, a) == CallKey(hash, other, l, b)
    ensures a == b && session == other && k == l
  {
    var hk, hl := hash(AttemptText(session, k)), hash(AttemptText(other, l));
    SplitDecimal(hk + [':'] + Decimal(a.turn), a.offset, hl + [':'] + Decimal(b.turn), b.offset, ':');
    SplitDecimal(hk, a.turn, hl, b.turn, ':');
    AttemptTextInjective(session, k, other, l);
  }

  // ---------------------------------------------------------------- step ids along a run

  /** Step ids that parse, and of which no two are the same text. */
  predicate GoodPlan(plan: Plan) {
    && (forall i, j :: 0 <= i < j < |plan.steps| ==> plan.steps[i].rawId != plan.steps[j].rawId)
    && (forall i :: 0 <= i < |plan.steps| ==> U.MayBeUuid(plan.steps[i].rawId))
  }

  predicate NamedBy(s: Snapshot, e: Event) {
    e.StepStarted? ==>
      && U.MayBeUuid(e.key.stepId) && e.key.runId == s.state.runId && e.key.revision <= s.state.revision
      && (e.key.revision == s.state.revision ==>
            e.index < |s.plan.steps| && e.key.stepId == s.plan.steps[e.index].rawId)
  }

  predicate SameName(a: Event, b: Event) {
    a.StepStarted? && b.StepStarted? && a.key.revision == b.key.revision && a.key.stepId == b.key.stepId
    ==> a.index == b.index
  }

  /** Within a revision a step id names one step. */
  predicate Named(s: Snapshot) {
    && GoodPlan(s.plan)
    && (forall i :: 0 <= i < |s.events| ==> NamedBy(s, s.events[i]))
    && (forall i, j :: 0 <= i < |s.events| && 0 <= j < |s.events| ==> SameName(s.events[i], s.events[j]))
  }

  lemma NamedGrows(s: Snapshot, t: Snapshot, more: Log)
    requires Named(s) && t.events == s.events + more && t.plan == s.plan && t.state.revision == s.state.revision
    requires t.state.runId == s.state.runId
    requires forall i :: 0 <= i < |more| ==> NamedBy(s, more[i])
    requires forall i :: 0 <= i < |more| && more[i].StepStarted? ==> more[i].key.revision == s.state.revision
    ensures Named(t)
  {
  }

  lemma KeepsNamed(cfg: Config, s: Snapshot, m: Move)
    requires Named(s) && Legal(cfg, s, m) && (m.DoReplan? ==> GoodPlan(m.plan))
    ensures Named(Apply(cfg, s, m))
  {
    if !m.DoReplan? {
      BodyIsLocal(cfg, s, m);
      NamedGrows(s, Apply(cfg, s, m), Body(cfg, s, m) + Closing(s, NextState(cfg, s, m).phase));
    }
  }

  lemma NamedAlways(cfg: Config, runId: string, plan: Plan, start: int, answers: seq<Answer>)
    requires GoodPlan(plan)
    requires forall i :: 0 <= i < |answers| && answers[i].Replaced? ==> GoodPlan(answers[i].plan)
    requires Run(cfg, Initial(runId, plan, start), answers).Reached?
    ensures Named(Run(cfg, Initial(runId, plan, start), answers).snap)
  {
    forall s: Snapshot, m: Move | Named(s) && Legal(cfg, s, m) && (m.DoReplan? ==> GoodPlan(m.plan))
      ensures Named(Apply(cfg, s, m))
    {
      KeepsNamed(cfg, s, m);
    }
    AlwaysGiven(cfg, Initial(runId, plan, start), answers, p => GoodPlan(p), (s: Snapshot) => Named(s));
  }

  /** Every execution in a run's log is the run's own, with a step id that parses. */
  lemma OwnKeys(cfg: Config, runId: string, plan: Plan, start: int, answers: seq<Answer>, i: nat)
    requires GoodPlan(plan)
    requires forall n :: 0 <= n < |answers| && answers[n].Replaced? ==> GoodPlan(answers[n].plan)
    requires Run(cfg, Initial(runId, plan, start), answers).Reached?
    requires var log := Run(cfg, Initial(runId, plan, start), answers).snap.events; i < |log| && log[i].StepStarted?
    ensures var log := Run(cfg, Initial(runId, plan, start), answers).snap.events;
            log[i].key.runId == runId && Separable(log[i].key.stepId)
  {
    var s := Run(cfg, Initial(runId, plan, start), answers).snap;
    NamedAlways(cfg, runId, plan, start, answers);
    SameRun(cfg, runId, plan, start, answers);
    assert NamedBy(s, s.events[i]);
    StepIdsAreSeparable(s.events[i].key.stepId);
  }

  /** Two tool calls of one run with the same key are the same call. */
  lemma SameKeySameCall(cfg: Config, runId: string, plan: Plan, start: int, answers: seq<Answer>,
                        hash: string -> string, session: string, i: nat, a: Slot, j: nat, b: Slot)
    requires Injective(hash) && GoodPlan(plan) && NoColon(session) && NoColon(runId)
    requires forall n :: 0 <= n < |answers| && answers[n].Replaced? ==> GoodPlan(answers[n].plan)
    requires Run(cfg, Initial(runId, plan, start), answers).Reached?
    requires var log := Run(cfg, Initial(runId, plan, start), answers).snap.events;
             i < |log| && j < |log| && log[i].StepStarted? && log[j].StepStarted? &&
             CallKey(hash, session, log[i].key, a) == CallKey(hash, session, log[j].key, b)
    ensures i == j && a == b
  {
    var s := Run(cfg, Initial(runId, plan, start), answers).snap;
    NamedAlways(cfg, runId, plan, start, answers);
    ExecutionsMoveForward(cfg, runId, plan, start, answers);
    OwnKeys(cfg, runId, plan, start, answers, i);
    OwnKeys(cfg, runId, plan, start, answers, j);
    CallKeyInjective(hash, session, s.events[i].key, a, session, s.events[j].key, b);
    assert SameName(s.events[i], s.events[j]);
    assert PositionOf(s.events[i]) == PositionOf(s.events[j]);
  }

  /** Over a whole run (all steps, attempts, chain retries, replans, turns and offsets)
      different tool calls have different idempotency keys. */
  lemma KeysAreFresh(cfg: Config, runId: string, plan: Plan, start: int, answers: seq<Answer>,
                     hash: string -> string, session: string)
    requires Injective(hash) && GoodPlan(plan) && NoColon(session) && NoColon(runId)
    requires forall n :: 0 <= n < |answers| && answers[n].Replaced? ==> GoodPlan(answers[n].plan)
    requires Run(cfg, Initial(runId, plan, start), answers).Reached?
    ensures var log := Run(cfg, Initial(runId, plan, start), answers).snap.events;
            forall i, a, j, b ::
              && 0 <= i < |log| && 0 <= j < |log| && log[i].StepStarted? && log[j].StepStarted?
              && CallKey(hash, session, log[i].key, a) == CallKey(hash, session, log[j].key, b)
              ==> i == j && a == b
  {
    var log := Run(cfg, Initial(runId, plan, start), answers).snap.events;
    forall i, a, j, b |
      && 0 <= i < |log| && 0 <= j < |log| && log[i].StepStarted? && log[j].StepStarted?
      && CallKey(hash, session, log[i].key, a) == CallKey(hash, session, log[j].key, b)
      ensures i == j && a == b
    {
      SameKeySameCall(cfg, runId, plan, start, answers, hash, session, i, a, j, b);
    }
  }

  /** A plan with two steps of the same id, and the answers with which both are executed. */
  function TwoAlike(id: string): Plan { Plan("p", 0, [PlanStep(id, id), PlanStep(id, id)], None, None) }

  function BothRun(): seq<Answer> {
    [Executed([ToolRun("t", Succeeded)]), Judged(Accept), Executed([ToolRun("t", Succeeded)])]
  }

  /** The run of the first `n` of these answers. */
  function Along(cfg: Config, runId: string, id: string, n: nat): Outcome
    requires n <= 3
  {
    Run(cfg, Initial(runId, TwoAlike(id), 0), BothRun()[..n])
  }

  lemma FirstRuns(cfg: Config, runId: string, id: string)
    ensures var r := Along(cfg, runId, id, 2);
            && r.Reached? && r.snap.state == State(runId, 0, Executing, 1, 1, Some(Succeeded)) &&
                 r.snap.plan == TwoAlike(id)
            && r.snap.events != [] && r.snap.events[0] == StepStarted(StepKey(runId, "p", 0, id, 1), 0)
  {
    var s0 := Initial(runId, TwoAlike(id), 0);
    assert BothRun()[..0] == [];
    RunStep(cfg, s0, BothRun(), 0, s0);
    var s1 := Along(cfg, runId, id, 1).snap;
    assert s1.events[0] == StepStarted(StepKey(runId, "p", 0, id, 1), 0);
    RunStep(cfg, s0, BothRun(), 1, s1);
  }

  /** Without distinct ids keys are not fresh: the two steps are different executions, and their calls
      have the same keys. */
  lemma SameIdsShareKeys(cfg: Config, runId: string, id: string, hash: string -> string, session: string, slot: Slot)
    ensures var r := Run(cfg, Initial(runId, TwoAlike(id), 0), BothRun());
            && r.Reached?
            && exists i, j :: 0 <= i < j < |r.snap.events| && r.snap.events[i].StepStarted? &&
                 r.snap.events[j].StepStarted? &&
                 CallKey(hash, session, r.snap.events[i].key, slot) ==
                     CallKey(hash, session, r.snap.events[j].key, slot)
  {
    FirstRuns(cfg, runId, id);
    var s2 := Along(cfg, runId, id, 2).snap;
    RunStep(cfg, Initial(runId, TwoAlike(id), 0), BothRun(), 2, s2);
    assert BothRun()[..3] == BothRun();
    var events := Run(cfg, Initial(runId, TwoAlike(id), 0), BothRun()).snap.events;
    assert events[0].StepStarted? && events[|s2.events|] == StepStarted(StepKey(runId, "p", 0, id, 1), 1);
  }
}
