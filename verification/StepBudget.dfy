/** The budget of one step, and a batch of calls that share it concurrently: every
    interleaving of check, run and record. */
module StepBudget {
  import opened Basics

  type Positive = n: nat | n > 0 witness 1

  datatype Budget = Budget(
    maxCalls: Positive, maxPerTool: Positive, maxTokens: Positive,
    used: nat, byTool: map<string, nat>, tokens: nat)

  datatype Reason = StepCallLimit | ToolCallLimit | TokenLimit

  function UsedFor(b: Budget, tool: string): nat { if tool in b.byTool then b.byTool[tool] else 0 }

  /** The limit that refuses the next call, if one does. */
  function Refusal(b: Budget, tool: string): Option<Reason> {
    if b.used >= b.maxCalls then Some(StepCallLimit)
    else if UsedFor(b, tool) >= b.maxPerTool then Some(ToolCallLimit)
    else if b.tokens >= b.maxTokens then Some(TokenLimit)
    else None
  }

  function Tokens(output: string): nat { (|output| + 1) / 2 }

  function Charged(b: Budget, tool: string, output: string): Budget {
    b.(used := b.used + 1, byTool := b.byTool[tool := UsedFor(b, tool) + 1], tokens := b.tokens + Tokens(output))
  }

  /** Nothing for an empty output, and otherwise one for two characters, rounded up. */
  lemma TokensExactly(output: string)
    ensures output == "" <==> Tokens(output) == 0
    ensures |output| <= 2 * Tokens(output) <= |output| + 1
  {
  }

  /** What a limit counts: all calls, or those of one tool. */
  datatype Meter = Total | PerTool(tool: string)

  predicate On(m: Meter, tool: string) { m.Total? || m.tool == tool }

  function UsedOn(b: Budget, m: Meter): nat {
    match m
    case Total => b.used
    case PerTool(tool) => UsedFor(b, tool)
  }

  function LimitOn(b: Budget, m: Meter): Positive {
    match m
    case Total => b.maxCalls
    case PerTool(_) => b.maxPerTool
  }

  /** Nothing refuses a call exactly when charging it stays within the limits that count it. */
  lemma AdmittedExactly(b: Budget, tool: string)
    ensures Refusal(b, tool).None? <==>
              b.tokens < b.maxTokens && forall m :: On(m, tool) ==> UsedOn(Charged(b, tool, ""), m) <= LimitOn(b, m)
  {
    if Refusal(b, tool).Some? && b.tokens < b.maxTokens {
      var m := if b.used >= b.maxCalls then Total else PerTool(tool);
      assert On(m, tool) && UsedOn(Charged(b, tool, ""), m) > LimitOn(b, m);
    }
  }

  class ToolBudget {
    const maxCalls: Positive
    const maxPerTool: Positive
    const maxTokens: Positive
    var used: nat
    var byTool: map<string, nat>
    var tokens: nat

    constructor (maxCalls: Positive, maxPerTool: Positive, maxTokens: Positive)
      ensures State() == Budget(maxCalls, maxPerTool, maxTokens, 0, map[], 0)
    {
      this.maxCalls, this.maxPerTool, this.maxTokens := maxCalls, maxPerTool, maxTokens;
      used, byTool, tokens := 0, map[], 0;
    }

    function State(): Budget
      reads this
    {
      Budget(maxCalls, maxPerTool, maxTokens, used, byTool, tokens)
    }

    /** A call is admitted exactly when charging it overruns neither the limit of all calls nor that of
        its tool, and tokens are left. The first limit without room is named; a check charges nothing. */
    method CheckCall(tool: string) returns (refused: Option<Reason>)
      ensures refused.None? <==> used < maxCalls && UsedFor(State(), tool) < maxPerTool && tokens < maxTokens
      ensures refused.None? <==>
                tokens < maxTokens &&
                forall m :: On(m, tool) ==> UsedOn(Charged(State(), tool, ""), m) <= LimitOn(State(), m)
      ensures refused == Some(StepCallLimit) <==> used >= maxCalls
      ensures refused == Some(ToolCallLimit) <==> used < maxCalls && UsedFor(State(), tool) >= maxPerTool
      ensures refused == Refusal(State(), tool)
    {
      AdmittedExactly(State(), tool);
      if used >= maxCalls {
        return Some(StepCallLimit);
      }
      if tool in byTool && byTool[tool] >= maxPerTool {
        return Some(ToolCallLimit);
      }
      if tokens >= maxTokens {
        return Some(TokenLimit);
      }
      return None;
    }

    method RecordCall(tool: string, output: string)
      modifies this
      ensures State() == Charged(old(State()), tool, output)
    {
      used := used + 1;
      byTool := byTool[tool := (if tool in byTool then byTool[tool] else 0) + 1];
      tokens := tokens + (if output == "" then 0 else Max(1, (|output| + 1) / 2));
    }
  }

  // ---------------------------------------------------------------- one batch, interleaved

  /** A call of a batch: not yet checked, admitted and running, recorded, or refused. */
  datatype Progress = Unchecked | Running | Recorded | Refused(reason: Reason)

  datatype Task = Task(tool: string, output: string, progress: Progress)

  datatype Batch = Batch(budget: Budget, tasks: seq<Task>)

  predicate IsRecorded(t: Task) { t.progress.Recorded? }

  function NamedOn(m: Meter): Task -> bool { (t: Task) => On(m, t.tool) }

  function RunningOn(m: Meter): Task -> bool { (t: Task) => On(m, t.tool) && t.progress.Running? }

  function RecordedOn(m: Meter): Task -> bool { (t: Task) => On(m, t.tool) && t.progress.Recorded? }

  predicate IsDone(t: Task) { t.progress.Recorded? || t.progress.Refused? }

  /** The event loop lets call `i` go on: to its check, or from its result to its record. */
  function Resume(b: Batch, i: nat): Batch {
    if i >= |b.tasks| then b
    else
      var t := b.tasks[i];
      match t.progress
      case Unchecked =>
        var refusal := Refusal(b.budget, t.tool);
        b.(tasks := b.tasks[i := t.(progress := if refusal.Some? then Refused(refusal.value) else Running)])
      case Running =>
        Batch(Charged(b.budget, t.tool, t.output), b.tasks[i := t.(progress := Recorded)])
      case _ => b
  }

  function Interleave(b: Batch, schedule: seq<nat>): Batch {
    if schedule == [] then b
    else Resume(Interleave(b, schedule[..|schedule| - 1]), schedule[|schedule| - 1])
  }

  function Calls(tools: seq<string>, outputs: seq<string>): seq<Task>
    requires |tools| == |outputs|
  {
    seq(|tools|, i requires 0 <= i < |tools| => Task(tools[i], outputs[i], Unchecked))
  }

  // ---------------------------------------------------------------- what every interleaving keeps

  /** Accounting of a batch that started with budget `b0`, on one meter: what was charged was recorded,
      and what is charged or running overruns the limit by less than the batch's calls on the meter. */
  predicate Accounted(b0: Budget, b: Batch, m: Meter) {
    && LimitOn(b.budget, m) == LimitOn(b0, m)
    && UsedOn(b.budget, m) == UsedOn(b0, m) + Count(b.tasks, RecordedOn(m))
    && UsedOn(b.budget, m) + Count(b.tasks, RunningOn(m))
       <= Max(UsedOn(b0, m), LimitOn(b0, m) - 1 + Count(b.tasks, NamedOn(m)))
  }

  /** Going on charges exactly what it records. */
  lemma ResumeCharges(b: Batch, i: nat, m: Meter)
    ensures LimitOn(Resume(b, i).budget, m) == LimitOn(b.budget, m)
    ensures UsedOn(Resume(b, i).budget, m) - UsedOn(b.budget, m) ==
            Count(Resume(b, i).tasks, RecordedOn(m)) - Count(b.tasks, RecordedOn(m))
  {
    if i < |b.tasks| {
      CountUpdate(b.tasks, i, Resume(b, i).tasks[i], RecordedOn(m));
      assert b.tasks[i := b.tasks[i]] == b.tasks;
    }
  }

  lemma ResumeNames(b: Batch, i: nat, m: Meter)
    ensures Count(Resume(b, i).tasks, NamedOn(m)) == Count(b.tasks, NamedOn(m))
    ensures Count(Resume(b, i).tasks, RunningOn(m)) <= Count(b.tasks, NamedOn(m))
  {
    if i < |b.tasks| {
      CountUpdate(b.tasks, i, Resume(b, i).tasks[i], NamedOn(m));
      assert b.tasks[i := b.tasks[i]] == b.tasks;
    }
    CountWeaker(Resume(b, i).tasks, RunningOn(m), NamedOn(m));
  }

  /** What is charged or running on a meter grows only by a call that the limit still admits. */
  lemma ResumeRuns(b: Batch, i: nat, m: Meter)
    ensures || UsedOn(Resume(b, i).budget, m) + Count(Resume(b, i).tasks, RunningOn(m))
               <= UsedOn(b.budget, m) + Count(b.tasks, RunningOn(m))
            || (UsedOn(b.budget, m) < LimitOn(b.budget, m) && UsedOn(Resume(b, i).budget, m) == UsedOn(b.budget, m))
  {
    if i < |b.tasks| {
      CountUpdate(b.tasks, i, Resume(b, i).tasks[i], RunningOn(m));
      assert b.tasks[i := b.tasks[i]] == b.tasks;
    }
  }

  lemma ResumeAccounted(b0: Budget, b: Batch, i: nat, m: Meter)
    requires Accounted(b0, b, m)
    ensures Accounted(b0, Resume(b, i), m) && Count(Resume(b, i).tasks, NamedOn(m)) == Count(b.tasks, NamedOn(m))
  {
    ResumeCharges(b, i, m);
    ResumeNames(b, i, m);
    ResumeRuns(b, i, m);
  }

  lemma FreshCounts(tools: seq<string>, outputs: seq<string>, p: Task -> bool)
    requires |tools| == |outputs| && forall t :: p(t) ==> !t.progress.Unchecked?
    ensures Count(Calls(tools, outputs), p) == 0
  {
    CountNone(Calls(tools, outputs), p);
  }

  /** Whatever the event loop does, on every meter: each admitted call is charged once and only once,
      and overlapping checks overrun the limit by less than the calls of the batch that it counts. */
  lemma {:induction false} BatchWithinBudget(b0: Budget, tools: seq<string>, outputs: seq<string>, schedule: seq<nat>,
                                             m: Meter)
    requires |tools| == |outputs|
    ensures var b := Interleave(Batch(b0, Calls(tools, outputs)), schedule);
            Accounted(b0, b, m) && Count(b.tasks, NamedOn(m)) == Count(Calls(tools, outputs), NamedOn(m))
  {
    if schedule == [] {
      FreshCounts(tools, outputs, RecordedOn(m));
      FreshCounts(tools, outputs, RunningOn(m));
    } else {
      var front := schedule[..|schedule| - 1];
      BatchWithinBudget(b0, tools, outputs, front, m);
      ResumeAccounted(b0, Interleave(Batch(b0, Calls(tools, outputs)), front), schedule[|schedule| - 1], m);
    }
  }

  /** Tools and outputs never change, and what is done stays done. */
  lemma {:induction false} TasksKeepNames(b: Batch, schedule: seq<nat>, i: nat)
    requires i < |b.tasks|
    ensures |Interleave(b, schedule).tasks| == |b.tasks|
    ensures Interleave(b, schedule).tasks[i].tool == b.tasks[i].tool &&
             Interleave(b, schedule).tasks[i].output == b.tasks[i].output
    ensures IsDone(b.tasks[i]) ==> Interleave(b, schedule).tasks[i] == b.tasks[i]
  {
    if schedule != [] {
      TasksKeepNames(b, schedule[..|schedule| - 1], i);
    }
  }

  /** What the recorded calls cost: for each the length of its output, halved and rounded up. */
  function Cost(tasks: seq<Task>): nat {
    if tasks == [] then 0
    else
      var t := tasks[|tasks| - 1];
      Cost(tasks[..|tasks| - 1]) + (if t.progress.Recorded? then (|t.output| + 1) / 2 else 0)
  }

  lemma {:induction false} CostUpdate(tasks: seq<Task>, i: nat, p: Progress)
    requires i < |tasks| && !tasks[i].progress.Recorded?
    ensures Cost(tasks[i := tasks[i].(progress := p)]) ==
            Cost(tasks) + (if p.Recorded? then (|tasks[i].output| + 1) / 2 else 0)
  {
    var n := |tasks| - 1;
    var next := tasks[i := tasks[i].(progress := p)];
    if i < n {
      CostUpdate(tasks[..n], i, p);
      assert next[..n] == tasks[..n][i := tasks[i].(progress := p)];
    } else {
      assert next[..n] == tasks[..n];
    }
  }

  lemma {:induction false} FreshCostNothing(tasks: seq<Task>)
    requires forall i :: 0 <= i < |tasks| ==> tasks[i].progress.Unchecked?
    ensures Cost(tasks) == 0
  {
    if tasks != [] {
      FreshCostNothing(tasks[..|tasks| - 1]);
    }
  }

  /** Whatever the event loop does, the tokens charged are what the recorded calls cost. */
  lemma {:induction false} BatchTokens(b0: Budget, tools: seq<string>, outputs: seq<string>, schedule: seq<nat>)
    requires |tools| == |outputs|
    ensures var b := Interleave(Batch(b0, Calls(tools, outputs)), schedule);
            b.budget.tokens == b0.tokens + Cost(b.tasks) && b.budget.maxTokens == b0.maxTokens
  {
    if schedule == [] {
      FreshCostNothing(Calls(tools, outputs));
    } else {
      BatchTokens(b0, tools, outputs, schedule[..|schedule| - 1]);
      var b := Interleave(Batch(b0, Calls(tools, outputs)), schedule[..|schedule| - 1]);
      var i := schedule[|schedule| - 1];
      if i < |b.tasks| && (b.tasks[i].progress.Unchecked? || b.tasks[i].progress.Running?) {
        CostUpdate(b.tasks, i, Resume(b, i).tasks[i].progress);
      }
    }
  }

  // ---------------------------------------------------------------- groups that run together

  predicate NamedAt(names: seq<string>, m: Meter, i: nat) { i < |names| && On(m, names[i]) }

  /** How many calls of a group a meter counts. */
  function SizeOn(names: seq<string>, group: seq<nat>, m: Meter): nat {
    Count(group, (i: nat) => NamedAt(names, m, i))
  }

  /** The largest such number among some groups, and at least 1. */
  function WidthOn(names: seq<string>, groups: seq<seq<nat>>, m: Meter): (w: nat)
    ensures w >= 1
  {
    if groups == [] then 1
    else Max(WidthOn(names, groups[..|groups| - 1], m), SizeOn(names, groups[|groups| - 1], m))
  }

  predicate Attains(names: seq<string>, groups: seq<seq<nat>>, m: Meter, w: nat) {
    exists g :: 0 <= g < |groups| && SizeOn(names, groups[g], m) == w
  }

  /** No group is wider, and one is that wide unless the width is 1. */
  lemma {:induction false} WidthIsLargest(names: seq<string>, groups: seq<seq<nat>>, m: Meter)
    ensures forall g :: 0 <= g < |groups| ==> SizeOn(names, groups[g], m) <= WidthOn(names, groups, m)
    ensures WidthOn(names, groups, m) == 1 || Attains(names, groups, m, WidthOn(names, groups, m))
  {
    if groups != [] {
      var front, w := groups[..|groups| - 1], WidthOn(names, groups, m);
      WidthIsLargest(names, front, m);
      if w != 1 && w != SizeOn(names, groups[|groups| - 1], m) {
        var g :| 0 <= g < |front| && SizeOn(names, front[g], m) == w;
        assert groups[g] == front[g];
      }
    }
  }

  lemma {:induction false} WidthOfBoth(names: seq<string>, a: seq<seq<nat>>, b: seq<seq<nat>>, m: Meter)
    ensures WidthOn(names, a + b, m) == Max(WidthOn(names, a, m), WidthOn(names, b, m))
  {
    if b == [] {
      assert a + b == a;
    } else {
      WidthOfBoth(names, a, b[..|b| - 1], m);
      assert (a + b)[..|a + b| - 1] == a + b[..|b| - 1];
    }
  }

  /** Calls that run one by one have width 1 on every meter. */
  lemma {:induction false} WidthOfSingles(names: seq<string>, groups: seq<seq<nat>>, m: Meter)
    requires forall g :: 0 <= g < |groups| ==> |groups[g]| <= 1
    ensures WidthOn(names, groups, m) == 1
  {
    if groups != [] {
      WidthOfSingles(names, groups[..|groups| - 1], m);
      CountBound(groups[|groups| - 1], (i: nat) => NamedAt(names, m, i));
    }
  }

  /** All calls of a group count in total. */
  lemma {:induction false} SizeInTotal(names: seq<string>, group: seq<nat>)
    requires forall k :: 0 <= k < |group| ==> group[k] < |names|
    ensures SizeOn(names, group, Total) == |group|
  {
    if group != [] {
      SizeInTotal(names, group[..|group| - 1]);
    }
  }

  /** A group's size is the number of its tasks on the meter. */
  lemma {:induction false} SizeIsNamed(names: seq<string>, group: seq<nat>, tools: seq<string>, outputs: seq<string>,
                                       m: Meter)
    requires |tools| == |outputs| == |group|
    requires forall k :: 0 <= k < |group| ==> group[k] < |names| && tools[k] == names[group[k]]
    ensures Count(Calls(tools, outputs), NamedOn(m)) == SizeOn(names, group, m)
  {
    if group != [] {
      var n := |group| - 1;
      SizeIsNamed(names, group[..n], tools[..n], outputs[..n], m);
      assert Calls(tools, outputs)[..n] == Calls(tools[..n], outputs[..n]);
    }
  }

  // ---------------------------------------------------------------- the bound is reached

  function InOrder(n: nat): seq<nat> { seq(n, i => i) }

  lemma {:induction false} AllChecked(b0: Budget, tools: seq<string>, outputs: seq<string>, k: nat)
    requires |tools| == |outputs| && k <= |tools|
    requires forall i :: 0 <= i < |tools| ==> Refusal(b0, tools[i]).None?
    ensures var b := Interleave(Batch(b0, Calls(tools, outputs)), InOrder(k));
            && b.budget == b0 && |b.tasks| == |tools|
            && (forall i :: 0 <= i < |tools| ==>
                 b.tasks[i] == Task(tools[i], outputs[i], if i < k then Running else Unchecked))
  {
    if k > 0 {
      AllChecked(b0, tools, outputs, k - 1);
      assert InOrder(k)[..k - 1] == InOrder(k - 1);
    }
  }

  lemma {:induction false} AllRecorded(b0: Budget, tools: seq<string>, outputs: seq<string>, k: nat)
    requires |tools| == |outputs| && k <= |tools|
    requires forall i :: 0 <= i < |tools| ==> Refusal(b0, tools[i]).None?
    ensures var b := Interleave(Batch(b0, Calls(tools, outputs)), InOrder(|tools|) + InOrder(k));
            && b.budget.used == b0.used + k && |b.tasks| == |tools|
            && (forall i :: 0 <= i < |tools| ==>
                 b.tasks[i] == Task(tools[i], outputs[i], if i < k then Recorded else Running))
  {
    var n := |tools|;
    if k == 0 {
      AllChecked(b0, tools, outputs, n);
      assert InOrder(n) + InOrder(0) == InOrder(n);
    } else {
      AllRecorded(b0, tools, outputs, k - 1);
      assert (InOrder(n) + InOrder(k))[..n + k - 1] == InOrder(n) + InOrder(k - 1);
    }
  }

  /** Calls that are all admitted alone are all admitted when they are checked together: with one
      call left in the budget a batch of n still runs n calls, for every n and every limit. */
  lemma CheckedTogetherAllRun(b0: Budget, tools: seq<string>, outputs: seq<string>)
    requires |tools| == |outputs| && b0.used == b0.maxCalls - 1
    requires forall i :: 0 <= i < |tools| ==> Refusal(b0, tools[i]).None?
    ensures var b := Interleave(Batch(b0, Calls(tools, outputs)), InOrder(|tools|) + InOrder(|tools|));
            b.budget.used == b0.maxCalls - 1 + |tools| && forall i :: 0 <= i < |b.tasks| ==> IsRecorded(b.tasks[i])
  {
    AllRecorded(b0, tools, outputs, |tools|);
  }
}
