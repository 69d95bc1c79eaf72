/** The loop of one step: model turns, batches of tool calls that share a budget, and the
    messages fed back to the model. */
module StepLoop {
  import opened Basics
  import opened Text
  import opened StepBudget
  import opened StepTurns
  import opened StepReplies
  import B = ToolBatches
  import O = CallOrder

  class StepAgentLoop {
    const settings: Settings
    const world: World
    const budget: ToolBudget
    var messages: seq<Message>
    /** The calls that were run together, group after group. */
    var ran: seq<seq<nat>>

    constructor (settings: Settings, world: World, budget: ToolBudget, initial: seq<Message>)
      ensures this.settings == settings && this.world == world && this.budget == budget && messages == initial &&
               ran == []
    {
      this.settings, this.world, this.budget, this.messages, this.ran := settings, world, budget, initial, [];
    }

    /** One resumption of a call: its check, or its record once the runtime has answered. */
    method ResumeCall(tasks: seq<Task>, i: nat) returns (next: seq<Task>)
      modifies budget
      ensures Batch(budget.State(), next) == Resume(Batch(old(budget.State()), tasks), i)
    {
      if i >= |tasks| {
        return tasks;
      }
      var t := tasks[i];
      match t.progress
      case Unchecked =>
        var refusal := budget.CheckCall(t.tool);
        return tasks[i := t.(progress := if refusal.Some? then Refused(refusal.value) else Running)];
      case Running =>
        budget.RecordCall(t.tool, t.output);
        return tasks[i := t.(progress := Recorded)];
      case _ =>
        return tasks;
    }

    /** Finishes the calls of a batch that the schedule left unfinished. */
    method Drain(ghost start: Batch, tasks: seq<Task>, ghost played: seq<nat>)
      returns (done: seq<Task>, ghost all: seq<nat>)
      requires Batch(budget.State(), tasks) == Interleave(start, played)
      modifies budget
      ensures Batch(budget.State(), done) == Interleave(start, all)
      ensures |done| == |tasks| && forall i :: 0 <= i < |done| ==> IsDone(done[i])
    {
      done, all := tasks, played;
      for i := 0 to |tasks|
        invariant Batch(budget.State(), done) == Interleave(start, all)
        invariant |done| == |tasks| && forall k :: 0 <= k < i ==> IsDone(done[k])
      {
        done := ResumeCall(done, i);
        InterleaveOneMore(start, all, i);
        done := ResumeCall(done, i);
        InterleaveOneMore(start, all + [i], i);
        all := all + [i] + [i];
      }
    }

    /** Runs the calls of one batch together: the event loop follows `schedule`, and whatever is
        then unfinished is finished in order. Any interleaving is the effect of some schedule. */
    method Gather(tools: seq<string>, outputs: seq<string>, schedule: seq<nat>)
      returns (tasks: seq<Task>, ghost played: seq<nat>)
      requires |tools| == |outputs|
      modifies budget
      ensures Batch(budget.State(), tasks) == Interleave(Batch(old(budget.State()), Calls(tools, outputs)), played)
      ensures |tasks| == |tools|
      ensures forall i :: 0 <= i < |tasks| ==>
               IsDone(tasks[i]) && tasks[i].tool == tools[i] && tasks[i].output == outputs[i]
    {
      ghost var start := Batch(budget.State(), Calls(tools, outputs));
      tasks, played := Calls(tools, outputs), [];
      for n := 0 to |schedule|
        invariant Batch(budget.State(), tasks) == Interleave(start, played)
      {
        tasks := ResumeCall(tasks, schedule[n]);
        InterleaveOneMore(start, played, schedule[n]);
        played := played + [schedule[n]];
      }
      tasks, played := Drain(start, tasks, played);
      SameTasks(start, played);
    }

    /** Puts the outcomes of a batch at their offsets. */
    method Place(slots: seq<Option<CallOutcome>>, batch: seq<nat>, tasks: seq<Task>)
      returns (next: seq<Option<CallOutcome>>)
      requires |tasks| == |batch| && forall k :: 0 <= k < |batch| ==>
               IsDone(tasks[k]) && batch[k] < |slots| && slots[batch[k]].None?
      requires forall k, l :: 0 <= k < l < |batch| ==> batch[k] != batch[l]
      ensures Placed(slots, next, batch, tasks) && PlacedCounts(slots, next, tasks)
    {
      next := slots;
      for k := 0 to |batch|
        invariant Placed(slots, next, batch[..k], tasks[..k]) && PlacedCounts(slots, next, tasks[..k])
      {
        assert batch[k] !in batch[..k];
        PlaceOne(slots, next, batch[..k], tasks[..k], batch[k], tasks[k]);
        TakePush(tasks, k);
        TakePush(batch, k);
        next := next[batch[k] := Some(OutcomeOf(tasks[k]))];
      }
      TakeAll(tasks);
      TakeAll(batch);
    }

    /** Runs some calls together and puts their outcomes at their offsets. */
    method RunTogether(turn: nat, calls: seq<Request>, batch: seq<nat>, schedule: seq<nat>,
                       slots: seq<Option<CallOutcome>>)
      returns (next: seq<Option<CallOutcome>>)
      requires |slots| == |calls| && forall k :: 0 <= k < |batch| ==> batch[k] < |slots| && slots[batch[k]].None?
      requires forall k, l :: 0 <= k < l < |batch| ==> batch[k] != batch[l]
      modifies `ran, budget
      ensures ran == old(ran) + [batch]
      ensures Filled(world, turn, calls, slots, next, batch)
      ensures Spends(old(budget.State()), budget.State(), slots, next, Names(calls), [batch])
    {
      ran := ran + [batch];
      var tools := seq(|batch|, k requires 0 <= k < |batch| => calls[batch[k]].tool);
      var outputs := seq(|batch|, k requires 0 <= k < |batch| => world.output(turn, batch[k]));
      var tasks, played := Gather(tools, outputs, schedule);
      next := Place(slots, batch, tasks);
      GroupSpends(old(budget.State()), budget.State(), Names(calls), batch, tools, outputs, played, tasks, slots, next);
    }

    /** The calls of a batch one after the other. */
    method RunOneByOne(turn: nat, calls: seq<Request>, batch: seq<nat>, slots: seq<Option<CallOutcome>>)
      returns (next: seq<Option<CallOutcome>>)
      requires |slots| == |calls| && forall k :: 0 <= k < |batch| ==> batch[k] < |slots| && slots[batch[k]].None?
      requires forall k, l :: 0 <= k < l < |batch| ==> batch[k] != batch[l]
      modifies `ran, budget
      ensures ran == old(ran) + O.OneByOne(batch)
      ensures Filled(world, turn, calls, slots, next, batch)
      ensures Spends(old(budget.State()), budget.State(), slots, next, Names(calls), O.OneByOne(batch))
    {
      next := slots;
      SpendsNothing(budget.State(), slots, Names(calls));
      for k := 0 to |batch|
        invariant O.RanSingles(old(ran), ran, batch, k)
        invariant Filled(world, turn, calls, slots, next, batch[..k])
        invariant Spends(old(budget.State()), budget.State(), slots, next, Names(calls), O.OneByOne(batch[..k]))
      {
        assert batch[k] !in batch[..k];
        ghost var mid, before, spent := next, ran, budget.State();
        next := RunTogether(turn, calls, [batch[k]], [], next);
        FilledMore(world, turn, calls, slots, mid, next, batch[..k], batch[k]);
        TakePush(batch, k);
        O.OneByOnePush(batch, k);
        SpendsMore(old(budget.State()), spent, budget.State(), slots, mid, next, Names(calls), O.OneByOne(batch[..k]),
            [[batch[k]]]);
        O.RanOneSingle(old(ran), before, batch, k);
      }
      TakeAll(batch);
      O.RanAllSingles(old(ran), ran, batch);
    }

    /** A batch runs together when it may, and one call after the other otherwise. */
    method RunBatch(turn: nat, number: nat, calls: seq<Request>, batch: seq<nat>, slots: seq<Option<CallOutcome>>)
      returns (next: seq<Option<CallOutcome>>)
      requires |slots| == |calls| && forall k :: 0 <= k < |batch| ==> batch[k] < |slots| && slots[batch[k]].None?
      requires forall k, l :: 0 <= k < l < |batch| ==> batch[k] != batch[l]
      modifies `ran, budget
      ensures ran == old(ran) + O.Groups(settings.parallel, batch)
      ensures Filled(world, turn, calls, slots, next, batch)
      ensures Spends(old(budget.State()), budget.State(), slots, next, Names(calls), O.Groups(settings.parallel, batch))
    {
      if |batch| > 1 && settings.parallel {
        next := RunTogether(turn, calls, batch, world.schedule(turn, number), slots);
      } else {
        next := RunOneByOne(turn, calls, batch, slots);
      }
    }

    /** Batches by dependency; one call after the other when the dependencies form a cycle. */
    method PlanBatches(calls: seq<Request>) returns (batches: seq<seq<nat>>, ghost level: seq<int>)
      ensures B.Batched(|calls|, batches, level)
      ensures if O.HasCycle(Tagged(world, calls)) then batches == O.OneByOne(seq(|calls|, i => i))
              else B.Planned(Tagged(world, calls), batches, level)
    {
      var planned;
      planned, level := B.PlanParallelBatches(Tagged(world, calls));
      if planned.Some? {
        return planned.value, level;
      }
      batches := seq(|calls|, i requires 0 <= i < |calls| => [i]);
      level := seq(|calls|, i requires 0 <= i < |calls| => i as int);
      OneByOneIsBatched(|calls|, batches, level);
    }

    /** The next batch fills the slots of its calls. */
    method RunNext(turn: nat, calls: seq<Request>, number: nat, batch: seq<nat>, ghost level: seq<int>,
                   slots: seq<Option<CallOutcome>>)
      returns (next: seq<Option<CallOutcome>>)
      requires |calls| == |level| && batch == B.AtLevel(level, number, |level|)
      requires Answered(world, turn, calls, level, slots, number)
      modifies `ran, budget
      ensures ran == old(ran) + O.Groups(settings.parallel, batch)
      ensures Answered(world, turn, calls, level, next, number + 1)
      ensures Spends(old(budget.State()), budget.State(), slots, next, Names(calls), O.Groups(settings.parallel, batch))
    {
      BatchFits(level, number, |calls|);
      next := RunBatch(turn, number, calls, batch, slots);
      AnsweredMore(world, turn, calls, level, slots, next, batch, number);
    }

    /** The batches in order. */
    method RunBatches(turn: nat, calls: seq<Request>, batches: seq<seq<nat>>, ghost level: seq<int>)
      returns (slots: seq<Option<CallOutcome>>)
      requires B.Batched(|calls|, batches, level)
      modifies `ran, budget
      ensures ran == old(ran) + O.AllGroups(settings.parallel, batches)
      ensures |slots| == |calls| && Answered(world, turn, calls, level, slots, |batches|)
      ensures Spends(old(budget.State()), budget.State(), NoOutcomes(|calls|), slots, Names(calls),
                     O.AllGroups(settings.parallel, batches))
    {
      slots := NoOutcomes(|calls|);
      SpendsNothing(budget.State(), slots, Names(calls));
      for b := 0 to |batches|
        invariant O.RanUpTo(old(ran), ran, settings.parallel, batches, b)
        invariant Answered(world, turn, calls, level, slots, b)
        invariant Spends(old(budget.State()), budget.State(), NoOutcomes(|calls|), slots, Names(calls),
                         O.AllGroups(settings.parallel, batches[..b]))
      {
        ghost var mid, before, spent := slots, ran, budget.State();
        slots := RunNext(turn, calls, b, batches[b], level, slots);
        SpendsMore(old(budget.State()), spent, budget.State(), NoOutcomes(|calls|), mid, slots, Names(calls),
                   O.AllGroups(settings.parallel, batches[..b]), O.Groups(settings.parallel, batches[b]));
        O.AllGroupsPush(settings.parallel, batches, b);
        O.RanOneMore(old(ran), before, settings.parallel, batches, b);
      }
      TakeAll(batches);
      O.RanAll(old(ran), ran, settings.parallel, batches);
    }

    /** All calls of a turn, batch after batch; the outcomes come back in request order. */
    method RunCalls(turn: nat, calls: seq<Request>, content: string) returns (f: Finished)
      modifies `ran, budget
      ensures f.turn == turn && f.calls == calls && f.content == content && |f.outcomes| == |calls|
      ensures forall i :: 0 <= i < |calls| ==> FaithfulOutcome(world, turn, calls, i, f.outcomes[i])
      ensures ran == old(ran) + f.groups && RanRight(world, settings, calls, f.groups)
      ensures TurnSpends(old(budget.State()), budget.State(), f)
    {
      var from := |ran|;
      var batches, level := PlanBatches(calls);
      var slots := RunBatches(turn, calls, batches, level);
      assert forall i :: 0 <= i < |calls| ==> FaithfulSlot(world, turn, calls, i, slots[i]);
      var outcomes := seq(|calls|, i requires 0 <= i < |calls| => slots[i].value);
      f := Finished(turn, calls, content, outcomes, ran[from..]);
      assert f.groups == O.AllGroups(settings.parallel, batches);
      PlanRunsRight(world, settings, calls, batches, level);
      OutcomesSpend(old(budget.State()), budget.State(), f, slots);
    }

    /** Feeds one outcome back; a run of repetitions that reaches the limit draws a nudge. */
    method AbsorbOne(strategy: Strategy, f: Finished, i: nat, calls: seq<StepCall>, exceeded: bool,
                     ghost before: seq<Key>,
                     repeatKey: Option<Key>, repeatCount: nat)
      returns (made: seq<StepCall>, any: bool, nextKey: Option<Key>, nextCount: nat)
      requires Whole(f) && i < |f.calls|
      requires calls == TurnCalls(f)[..i] && (exceeded <==> AnyExceeded(f.outcomes[..i]))
      requires Tracks(before + TurnKeys(f.calls)[..i], repeatKey, repeatCount, settings.repeatLimit)
      modifies `messages
      ensures messages == old(messages) +
                ReplyAndNudge(strategy, settings.repeatLimit, before + TurnKeys(f.calls), |before|, f, i)
      ensures made == TurnCalls(f)[..i + 1] && (any <==> AnyExceeded(f.outcomes[..i + 1]))
      ensures Tracks(before + TurnKeys(f.calls)[..i + 1], nextKey, nextCount, settings.repeatLimit)
    {
      TakePush(TurnCalls(f), i);
      ExceededPush(f.outcomes, i);
      made := calls + [TurnCall(f, i)];
      messages := messages + [ReplyTo(strategy, f, i)];
      nextKey := Some(KeyOf(f.calls[i]));
      nextCount := if repeatKey == nextKey then repeatCount + 1 else 1;
      TrackNext(before, f.calls, i, repeatKey, repeatCount, settings.repeatLimit);
      if nextCount >= settings.repeatLimit {
        messages := messages + [RepeatNudge];
        nextCount := 0;
      }
      any := exceeded || f.outcomes[i].Exceeded?;
    }

    /** Feeds the outcomes of a turn back one after the other, in request order. */
    method AbsorbAll(strategy: Strategy, f: Finished, ghost before: seq<Key>, repeatKey: Option<Key>, repeatCount: nat)
      returns (calls: seq<StepCall>, exceeded: bool, nextKey: Option<Key>, nextCount: nat)
      requires Whole(f) && Tracks(before, repeatKey, repeatCount, settings.repeatLimit)
      modifies `messages
      ensures messages == old(messages) +
                Replies(strategy, settings.repeatLimit, before + TurnKeys(f.calls), |before|, f, |f.calls|)
      ensures calls == TurnCalls(f) && (exceeded <==> AnyExceeded(f.outcomes))
      ensures Tracks(before + TurnKeys(f.calls), nextKey, nextCount, settings.repeatLimit)
    {
      ghost var keys := before + TurnKeys(f.calls);
      ghost var start := messages;
      calls, exceeded, nextKey, nextCount := [], false, repeatKey, repeatCount;
      assert before + TurnKeys(f.calls)[..0] == before;
      for i := 0 to |f.calls|
        invariant messages == start + Replies(strategy, settings.repeatLimit, keys, |before|, f, i)
        invariant calls == TurnCalls(f)[..i] && (exceeded <==> AnyExceeded(f.outcomes[..i]))
        invariant Tracks(before + TurnKeys(f.calls)[..i], nextKey, nextCount, settings.repeatLimit)
      {
        ConcatAssoc(start, Replies(strategy, settings.repeatLimit, keys, |before|, f, i),
                    ReplyAndNudge(strategy, settings.repeatLimit, keys, |before|, f, i));
        calls, exceeded, nextKey, nextCount := AbsorbOne(strategy, f, i, calls, exceeded, before, nextKey, nextCount);
      }
      TakeAll(TurnKeys(f.calls));
      TakeAll(f.outcomes);
      TakeAll(TurnCalls(f));
    }

    /** The assistant message of a turn, the outcomes, and a note when the budget refused a call. */
    method Absorb(strategy: Strategy, f: Finished, ghost before: seq<Key>, repeatKey: Option<Key>, repeatCount: nat)
      returns (calls: seq<StepCall>, nextKey: Option<Key>, nextCount: nat)
      requires Whole(f) && Tracks(before, repeatKey, repeatCount, settings.repeatLimit)
      modifies `messages
      ensures messages == old(messages) + TurnMessages(strategy, settings.repeatLimit, before, f)
      ensures Faithful(world, settings, f, f.turn) ==>
                Told(world, strategy, settings.repeatLimit, before, f, messages[|old(messages)|..])
      ensures calls == TurnCalls(f)
      ensures Tracks(before + TurnKeys(f.calls), nextKey, nextCount, settings.repeatLimit)
    {
      var exceeded;
      messages := messages + [AssistantMessage(strategy, f.calls, f.content)];
      calls, exceeded, nextKey, nextCount := AbsorbAll(strategy, f, before, repeatKey, repeatCount);
      if exceeded {
        messages := messages + [BudgetNote];
      }
      Regroup(old(messages), AssistantMessage(strategy, f.calls, f.content),
              Replies(strategy, settings.repeatLimit, before + TurnKeys(f.calls), |before|, f, |f.calls|),
              if exceeded then [BudgetNote] else []);
      if Faithful(world, settings, f, f.turn) {
        ghost var pos := TurnIsTold(world, settings, strategy, settings.repeatLimit, before, f);
      }
    }

    /** One turn with calls: run them, then feed them back. */
    method RunTurn(strategy: Strategy, turn: nat, calls: seq<Request>, content: string, ghost before: seq<Key>,
                   repeatKey: Option<Key>, repeatCount: nat)
      returns (f: Finished, made: seq<StepCall>, nextKey: Option<Key>, nextCount: nat)
      requires world.turns(turn) == Reply(calls, content) && calls != []
      requires Tracks(before, repeatKey, repeatCount, settings.repeatLimit)
      modifies `messages, `ran, budget
      ensures Faithful(world, settings, f, turn) && f.calls == calls
      ensures messages == old(messages) + TurnMessages(strategy, settings.repeatLimit, before, f)
      ensures Told(world, strategy, settings.repeatLimit, before, f, messages[|old(messages)|..])
      ensures made == TurnCalls(f)
      ensures Tracks(before + TurnKeys(calls), nextKey, nextCount, settings.repeatLimit)
      ensures ran == old(ran) + f.groups && TurnSpends(old(budget.State()), budget.State(), f)
    {
      f := RunCalls(turn, calls, content);
      made, nextKey, nextCount := Absorb(strategy, f, before, repeatKey, repeatCount);
    }

    /** One more turn of the loop: where it stands, what it said, what it ran and what it spent. */
    method Advance(strategy: Strategy, turn: nat, calls: seq<Request>, content: string, ghost turns: seq<Finished>,
                   executed: seq<StepCall>, ghost more: seq<Message>, repeatKey: Option<Key>, repeatCount: nat,
                   ghost was: Budget)
      returns (made: seq<StepCall>, nextKey: Option<Key>, nextCount: nat, ghost ended: seq<Finished>,
          ghost added: seq<Message>)
      requires Stands(world, settings, strategy, turns, executed, more, repeatKey, repeatCount)
      requires AllWhole(turns) && Spent(was, budget.State(), turns)
      requires turn == |turns| + 1 <= settings.maxIterations && world.turns(turn) == Reply(calls, content)
      requires calls != [] && |executed| + |calls| <= settings.maxToolCalls
      modifies `messages, `ran, budget
      ensures messages == old(messages) + added && |ended| == turn
      ensures Stands(world, settings, strategy, ended, executed + made, more + added, nextKey, nextCount)
      ensures AllWhole(ended) && Spent(was, budget.State(), ended)
      ensures |ended| == |turns| + 1 && ended[..|turns|] == turns && ran == old(ran) + ended[|turns|].groups
    {
      ghost var mid := budget.State();
      var f;
      f, made, nextKey, nextCount := RunTurn(strategy, turn, calls, content, KeysOf(turns), repeatKey, repeatCount);
      StandsOneMore(world, settings, strategy, turns, executed, more, repeatKey, repeatCount, f, nextKey, nextCount);
      SpentMore(was, mid, budget.State(), turns, f);
      added := TurnMessages(strategy, settings.repeatLimit, KeysOf(turns), f);
      ended := turns + [f];
    }

    /** Turns until the model stops asking for tools, the step's allowance of calls would be
        exceeded, or the turns run out. */
    method RunLoop(strategy: Strategy) returns (end: End, ghost turns: seq<Finished>)
      modifies `messages, `ran, budget
      ensures AllFaithful(world, settings, turns) && |turns| <= settings.maxIterations
      ensures Fed(world, settings, strategy, turns, old(messages), messages)
      ensures ran == old(ran) + GroupsOf(turns)
      ensures |CallsOf(turns)| <= settings.maxToolCalls
      ensures Spent(old(budget.State()), budget.State(), turns)
      ensures EndsRight(world, settings, turns, end)
    {
      var executed: seq<StepCall>, total := [], 0;
      var repeatKey: Option<Key>, repeatCount := None, 0;
      ghost var more: seq<Message> := [];
      turns := [];
      var turn := 1;
      while turn <= settings.maxIterations
        invariant turn == |turns| + 1 && total == |executed|
        invariant Stands(world, settings, strategy, turns, executed, more, repeatKey, repeatCount)
        invariant messages == old(messages) + more && Fed(world, settings, strategy, turns, old(messages), messages)
        invariant Ran(old(ran), ran, turns)
        invariant AllWhole(turns) && Spent(old(budget.State()), budget.State(), turns)
      {
        var outcome := world.turns(turn);
        if outcome.TurnFailed? {
          return if turn == 1 then NoAnswer else Failed, turns;
        }
        if outcome.calls == [] || total + |outcome.calls| > settings.maxToolCalls {
          return Ended(executed), turns;
        }
        ghost var added, ended;
        ghost var said, before := more, ran;
        var made;
        made, repeatKey, repeatCount, ended, added :=
          Advance(strategy, turn, outcome.calls, outcome.content, turns, executed, more, repeatKey, repeatCount,
                  old(budget.State()));
        ConcatAssoc(old(messages), said, added);
        RanMore(old(ran), before, ran, turns, ended);
        more := more + added;
        executed, total := executed + made, total + |made|;
        turns := ended;
        RunIsFed(world, settings, strategy, turns, old(messages), more);
        turn := turn + 1;
      }
      end := Ended(executed);
    }
  }
}
