/** The turns of one step as values: what the model asked for, what came of it, the messages that tell
    it so, and what the calls are charged. */
module StepTurns {
  import opened Basics
  import opened Text
  import opened StepBudget
  import B = ToolBatches
  import O = CallOrder

  datatype Request = Request(id: Option<string>, tool: string, arguments: string)

  datatype Turn = TurnFailed | Reply(calls: seq<Request>, content: string)

  datatype Strategy = Native | Json

  datatype Message =
    | Assistant(ids: seq<string>, content: string)
    | ToolReply(callId: string, tool: string, output: string)
    | SystemReply(tool: string, output: string)
    | RepeatNudge
    | BudgetNote
    | Prompt(text: string)

  datatype CallOutcome = Done(tool: string, output: string) | Exceeded(tool: string, reason: Reason)

  datatype StepCall = StepCall(turn: nat, callId: string, tool: string, outcome: CallOutcome)

  datatype Settings = Settings(maxIterations: nat, maxToolCalls: nat, repeatLimit: Positive, parallel: bool)

  /** The outside world of one step: the model's turns, the outputs of the calls, the order in
      which the event loop lets the calls of a batch go on, and the tags of the tools. */
  datatype World = World(
    turns: nat -> Turn,
    output: (nat, nat) -> string,
    schedule: (nat, nat) -> seq<nat>,
    tags: string -> (set<string>, set<string>))

  // ---------------------------------------------------------------- ids and texts

  function AssistantId(r: Request, index: nat): string {
    if r.id.Some? then r.id.value else "call_" + Decimal(index)
  }

  function CallId(r: Request, turn: nat, offset: nat): string {
    if r.id.Some? then r.id.value else "call_" + Decimal(turn) + "_" + Decimal(offset)
  }

  function OutputText(o: CallOutcome): string {
    match o
    case Done(_, output) => output
    case Exceeded(_, reason) =>
      match reason
      case StepCallLimit => "budget_exceeded: step_call_limit"
      case ToolCallLimit => "budget_exceeded: tool_call_limit"
      case TokenLimit => "budget_exceeded: token_estimate_limit"
  }

  /** The id of a tool reply is the id the assistant message announced exactly when the model
      gave one: the two made-up ids never agree. */
  lemma IdsMatchExactly(r: Request, turn: nat, offset: nat)
    ensures AssistantId(r, offset) == CallId(r, turn, offset) <==> r.id.Some?
  {
    if r.id.None? {
      DecimalIsDigits(offset);
      var a, b := AssistantId(r, offset), CallId(r, turn, offset);
      assert a[5..] == Decimal(offset);
      assert b[5..] == Decimal(turn) + "_" + Decimal(offset);
      assert b[5..][|Decimal(turn)|] == '_';
      assert '_' in b[5..];
    }
  }

  // ---------------------------------------------------------------- what a finished turn leaves

  /** A turn that ran: what the model asked for, what came of each call, and which calls ran together. */
  datatype Finished = Finished(
    turn: nat,
    calls: seq<Request>,
    content: string,
    outcomes: seq<CallOutcome>,
    groups: seq<seq<nat>>)

  predicate Whole(f: Finished) { |f.outcomes| == |f.calls| }

  predicate AllWhole(turns: seq<Finished>) { forall i :: 0 <= i < |turns| ==> Whole(turns[i]) }

  function TurnCall(f: Finished, i: nat): StepCall
    requires Whole(f) && i < |f.calls|
  {
    StepCall(f.turn, CallId(f.calls[i], f.turn, i), f.calls[i].tool, f.outcomes[i])
  }

  /** The calls of a turn, in request order, one for each request. */
  function TurnCalls(f: Finished): seq<StepCall>
    requires Whole(f)
  {
    seq(|f.calls|, i requires 0 <= i < |f.calls| => TurnCall(f, i))
  }

  function CallsOf(turns: seq<Finished>): seq<StepCall>
    requires AllWhole(turns)
  {
    if turns == [] then [] else CallsOf(turns[..|turns| - 1]) + TurnCalls(turns[|turns| - 1])
  }

  /** What two calls must share to count as a repetition. */
  type Key = (string, string)

  function KeyOf(r: Request): Key { (r.tool, r.arguments) }

  function TurnKeys(calls: seq<Request>): seq<Key> {
    seq(|calls|, i requires 0 <= i < |calls| => KeyOf(calls[i]))
  }

  function KeysOf(turns: seq<Finished>): seq<Key> {
    if turns == [] then [] else KeysOf(turns[..|turns| - 1]) + TurnKeys(turns[|turns| - 1].calls)
  }

  /** Length of the run of equal keys that ends at position `k`. */
  function RunLength(keys: seq<Key>, k: nat): (n: nat)
    requires k < |keys|
    ensures 1 <= n <= k + 1
  {
    if k == 0 || keys[k - 1] != keys[k] then 1 else 1 + RunLength(keys, k - 1)
  }

  /** The repeat counter after position `k`: it starts again at a new key, and at the limit. */
  function Streak(keys: seq<Key>, k: nat, limit: Positive): (n: nat)
    requires k < |keys|
    ensures n < limit
  {
    var n := if k == 0 || keys[k - 1] != keys[k] then 1 else 1 + Streak(keys, k - 1, limit);
    if n >= limit then 0 else n
  }

  function ReplyTo(strategy: Strategy, f: Finished, i: nat): Message
    requires Whole(f) && i < |f.calls|
  {
    match strategy
    case Native => ToolReply(CallId(f.calls[i], f.turn, i), f.calls[i].tool, OutputText(f.outcomes[i]))
    case Json => SystemReply(f.calls[i].tool, OutputText(f.outcomes[i]))
  }

  function AssistantMessage(strategy: Strategy, calls: seq<Request>, content: string): Message {
    match strategy
    case Native => Assistant(seq(|calls|, i requires 0 <= i < |calls| => AssistantId(calls[i], i)), content)
    case Json => Assistant([], content)
  }

  /** The reply to one call, and a nudge when the repeat counter has just reached the limit. */
  function ReplyAndNudge(strategy: Strategy, limit: Positive, keys: seq<Key>, from: nat, f: Finished,
                         i: nat): seq<Message>
    requires Whole(f) && i < |f.calls| && from + i < |keys|
  {
    [ReplyTo(strategy, f, i)] + (if Streak(keys, from + i, limit) == 0 then [RepeatNudge] else [])
  }

  /** The replies to the first `n` calls, in request order. `keys` are the keys of all calls up
      to this turn's end, `from` of them before this turn. */
  function Replies(strategy: Strategy, limit: Positive, keys: seq<Key>, from: nat, f: Finished, n: nat): seq<Message>
    requires Whole(f) && n <= |f.calls| && from + n <= |keys|
  {
    if n == 0 then []
    else Replies(strategy, limit, keys, from, f, n - 1) + ReplyAndNudge(strategy, limit, keys, from, f, n - 1)
  }

  predicate AnyExceeded(outcomes: seq<CallOutcome>) { exists i :: 0 <= i < |outcomes| && outcomes[i].Exceeded? }

  function TurnMessages(strategy: Strategy, limit: Positive, before: seq<Key>, f: Finished): seq<Message>
    requires Whole(f)
  {
    [AssistantMessage(strategy, f.calls, f.content)] +
    Replies(strategy, limit, before + TurnKeys(f.calls), |before|, f, |f.calls|) +
    (if AnyExceeded(f.outcomes) then [BudgetNote] else [])
  }

  function MessagesOf(strategy: Strategy, limit: Positive, turns: seq<Finished>): seq<Message>
    requires AllWhole(turns)
  {
    if turns == [] then []
    else
      var front := turns[..|turns| - 1];
      MessagesOf(strategy, limit, front) + TurnMessages(strategy, limit, KeysOf(front), turns[|turns| - 1])
  }

  function Names(calls: seq<Request>): (names: seq<string>)
    ensures |names| == |calls|
  {
    seq(|calls|, i requires 0 <= i < |calls| => calls[i].tool)
  }

  /** What a call came to is its own output, or a refusal by the budget. */
  predicate FaithfulOutcome(world: World, turn: nat, calls: seq<Request>, i: nat, o: CallOutcome)
    requires i < |calls|
  {
    o.tool == calls[i].tool && (o.Done? ==> o.output == world.output(turn, i))
  }

  /** Every call ran once, after what it needs, and alone unless calls may run together. */
  ghost predicate RanRight(world: World, settings: Settings, calls: seq<Request>, groups: seq<seq<nat>>) {
    && (exists at :: O.RunInOrder(Tagged(world, calls), groups, at))
    && (!settings.parallel ==> O.AllSingles(groups))
  }

  ghost predicate Faithful(world: World, settings: Settings, f: Finished, turn: nat) {
    && f.turn == turn && Whole(f) && world.turns(turn) == Reply(f.calls, f.content) && f.calls != []
    && (forall i :: 0 <= i < |f.calls| ==> FaithfulOutcome(world, turn, f.calls, i, f.outcomes[i]))
    && RanRight(world, settings, f.calls, f.groups)
  }

  // ---------------------------------------------------------------- what is charged

  function Charges(m: Meter): CallOutcome -> bool { (o: CallOutcome) => o.Done? && On(m, o.tool) }

  function ChargedSlot(m: Meter): Option<CallOutcome> -> bool {
    (o: Option<CallOutcome>) => o.Some? && o.value.Done? && On(m, o.value.tool)
  }

  function ChargedCall(m: Meter): StepCall -> bool {
    (c: StepCall) => c.outcome.Done? && On(m, c.outcome.tool)
  }

  /** On one meter: the charge goes from `before` to `after`, and overruns the limit by less than the
      widest of the groups that ran. */
  predicate SpendsOn(was: Budget, now: Budget, before: nat, after: nat, width: nat, m: Meter) {
    && LimitOn(now, m) == LimitOn(was, m)
    && UsedOn(now, m) - UsedOn(was, m) == after - before
    && UsedOn(now, m) <= Max(UsedOn(was, m), LimitOn(was, m) - 1 + width)
  }

  /** On every meter, for calls whose outcomes fill some slots. */
  ghost predicate Spends(was: Budget, now: Budget, slots: seq<Option<CallOutcome>>, next: seq<Option<CallOutcome>>,
                         names: seq<string>, groups: seq<seq<nat>>)
  {
    forall m :: SpendsOn(was, now, Count(slots, ChargedSlot(m)), Count(next, ChargedSlot(m)),
        WidthOn(names, groups, m), m)
  }

  lemma SpendsMore(a: Budget, b: Budget, c: Budget, s0: seq<Option<CallOutcome>>, s1: seq<Option<CallOutcome>>,
                   s2: seq<Option<CallOutcome>>, names: seq<string>, g: seq<seq<nat>>, h: seq<seq<nat>>)
    requires Spends(a, b, s0, s1, names, g) && Spends(b, c, s1, s2, names, h)
    ensures Spends(a, c, s0, s2, names, g + h)
  {
    forall m
      ensures SpendsOn(a, c, Count(s0, ChargedSlot(m)), Count(s2, ChargedSlot(m)), WidthOn(names, g + h, m), m)
    {
      assert SpendsOn(a, b, Count(s0, ChargedSlot(m)), Count(s1, ChargedSlot(m)), WidthOn(names, g, m), m);
      assert SpendsOn(b, c, Count(s1, ChargedSlot(m)), Count(s2, ChargedSlot(m)), WidthOn(names, h, m), m);
      WidthOfBoth(names, g, h, m);
    }
  }

  lemma SpendsNothing(b: Budget, slots: seq<Option<CallOutcome>>, names: seq<string>)
    ensures Spends(b, b, slots, slots, names, [])
  {
  }

  /** On every meter, for all calls of a turn. */
  ghost predicate TurnSpends(was: Budget, now: Budget, f: Finished) {
    forall m :: SpendsOn(was, now, 0, Count(f.outcomes, Charges(m)), WidthOn(Names(f.calls), f.groups, m), m)
  }

  /** The widest group of all turns. */
  function WidthOfTurns(turns: seq<Finished>, m: Meter): (w: nat)
    ensures w >= 1
  {
    if turns == [] then 1
    else
      var f := turns[|turns| - 1];
      Max(WidthOfTurns(turns[..|turns| - 1], m), WidthOn(Names(f.calls), f.groups, m))
  }

  /** Each call that was not refused was charged once, in total and to its tool; on each of these
      meters the limit is overrun by less than the size of the largest group that ran together. */
  ghost predicate Spent(was: Budget, now: Budget, turns: seq<Finished>)
    requires AllWhole(turns)
  {
    forall m :: SpendsOn(was, now, 0, Count(CallsOf(turns), ChargedCall(m)), WidthOfTurns(turns, m), m)
  }

  /** The width of a run of the loop is that of a group that ran in one of its turns, or 1. */
  lemma {:induction false} WidthOfTurnsIs(turns: seq<Finished>, m: Meter)
    ensures forall t :: 0 <= t < |turns| ==>
             WidthOn(Names(turns[t].calls), turns[t].groups, m) <= WidthOfTurns(turns, m)
    ensures WidthOfTurns(turns, m) == 1 ||
            exists t :: 0 <= t < |turns| &&
                        Attains(Names(turns[t].calls), turns[t].groups, m, WidthOfTurns(turns, m))
  {
    if turns != [] {
      var n := |turns| - 1;
      WidthOfTurnsIs(turns[..n], m);
      WidthIsLargest(Names(turns[n].calls), turns[n].groups, m);
      if WidthOfTurns(turns, m) != WidthOn(Names(turns[n].calls), turns[n].groups, m) && WidthOfTurns(turns, m) != 1 {
        var t :| 0 <= t < n && Attains(Names(turns[..n][t].calls), turns[..n][t].groups, m, WidthOfTurns(turns, m));
        assert turns[t] == turns[..n][t];
      }
    }
  }

  /** Where calls may not run together the width is 1: no limit is overrun at all. */
  lemma {:induction false} SequentialWidth(world: World, settings: Settings, turns: seq<Finished>, m: Meter)
    requires AllFaithful(world, settings, turns) && !settings.parallel
    ensures WidthOfTurns(turns, m) == 1
  {
    if turns != [] {
      var n := |turns| - 1;
      assert Faithful(world, settings, turns[n], n + 1);
      assert forall t :: 0 <= t < n ==> turns[..n][t] == turns[t];
      SequentialWidth(world, settings, turns[..n], m);
      WidthOfSingles(Names(turns[n].calls), turns[n].groups, m);
    }
  }

  function OutcomeOf(t: Task): CallOutcome
    requires IsDone(t)
  {
    match t.progress
    case Recorded => Done(t.tool, t.output)
    case Refused(reason) => Exceeded(t.tool, reason)
  }

  /** What the dependency plan is made from: the tags of the tools that are called. */
  function Tagged(world: World, calls: seq<Request>): (tagged: seq<B.Call>)
    ensures |tagged| == |calls|
  {
    seq(|calls|, i requires 0 <= i < |calls| =>
      B.Call(calls[i].tool, world.tags(calls[i].tool).0, world.tags(calls[i].tool).1))
  }

  // ---------------------------------------------------------------- the end of a run

  datatype End = NoAnswer | Failed | Ended(calls: seq<StepCall>)

  /** The groups of all turns, in the order in which they ran. */
  function GroupsOf(turns: seq<Finished>): seq<seq<nat>> {
    if turns == [] then [] else GroupsOf(turns[..|turns| - 1]) + turns[|turns| - 1].groups
  }

  predicate Ran(before: seq<seq<nat>>, ran: seq<seq<nat>>, turns: seq<Finished>) { ran == before + GroupsOf(turns) }

  lemma RanMore(before: seq<seq<nat>>, mid: seq<seq<nat>>, ran: seq<seq<nat>>, turns: seq<Finished>,
                ended: seq<Finished>)
    requires Ran(before, mid, turns) && |ended| == |turns| + 1 && ended[..|turns|] == turns
    requires ran == mid + ended[|turns|].groups
    ensures Ran(before, ran, ended)
  {
  }

  lemma SpentMore(was: Budget, mid: Budget, now: Budget, turns: seq<Finished>, f: Finished)
    requires AllWhole(turns) && Whole(f) && Spent(was, mid, turns) && TurnSpends(mid, now, f)
    ensures AllWhole(turns + [f]) && Spent(was, now, turns + [f])
  {
    assert (turns + [f])[..|turns|] == turns;
    forall m
      ensures SpendsOn(was, now, 0, Count(CallsOf(turns + [f]), ChargedCall(m)), WidthOfTurns(turns + [f], m), m)
    {
      assert SpendsOn(was, mid, 0, Count(CallsOf(turns), ChargedCall(m)), WidthOfTurns(turns, m), m);
      assert SpendsOn(mid, now, 0, Count(f.outcomes, Charges(m)), WidthOn(Names(f.calls), f.groups, m), m);
      CountAppend(CallsOf(turns), TurnCalls(f), ChargedCall(m));
      SameCharges(TurnCalls(f), f.outcomes, m);
    }
  }

  /** Where the loop stands after some turns. */
  ghost predicate Stands(world: World, settings: Settings, strategy: Strategy, turns: seq<Finished>,
                         executed: seq<StepCall>,
                   more: seq<Message>, key: Option<Key>, count: nat)
  {
    && AllFaithful(world, settings, turns) && |turns| <= settings.maxIterations
    && executed == CallsOf(turns) && |executed| <= settings.maxToolCalls
    && more == MessagesOf(strategy, settings.repeatLimit, turns)
    && Tracks(KeysOf(turns), key, count, settings.repeatLimit)
  }

  lemma StandsOneMore(world: World, settings: Settings, strategy: Strategy, turns: seq<Finished>,
                      executed: seq<StepCall>,
                      more: seq<Message>, key: Option<Key>, count: nat, f: Finished, nextKey: Option<Key>,
                          nextCount: nat)
    requires Stands(world, settings, strategy, turns, executed, more, key, count)
    requires Faithful(world, settings, f, |turns| + 1) && |turns| < settings.maxIterations
    requires |executed| + |f.calls| <= settings.maxToolCalls
    requires Tracks(KeysOf(turns) + TurnKeys(f.calls), nextKey, nextCount, settings.repeatLimit)
    ensures Stands(world, settings, strategy, turns + [f], executed + TurnCalls(f),
                   more + TurnMessages(strategy, settings.repeatLimit, KeysOf(turns), f), nextKey, nextCount)
  {
    assert AllFaithful(world, settings, turns + [f]) by { FaithfulPush(world, settings, turns, f); }
    assert AllWhole(turns);
    OneMoreTurn(strategy, settings.repeatLimit, turns, f);
  }

  lemma FaithfulPush(world: World, settings: Settings, turns: seq<Finished>, f: Finished)
    requires AllFaithful(world, settings, turns) && Faithful(world, settings, f, |turns| + 1)
    ensures AllFaithful(world, settings, turns + [f])
  {
    forall i | 0 <= i < |turns + [f]|
      ensures Faithful(world, settings, (turns + [f])[i], i + 1) && Whole((turns + [f])[i])
    {
      assert i < |turns| ==> (turns + [f])[i] == turns[i];
    }
  }

  /** Why the loop ended: a failed turn, a turn without calls or with too many, or no turn left. */
  predicate EndsRight(world: World, settings: Settings, turns: seq<Finished>, end: End)
    requires AllWhole(turns)
  {
    if |turns| >= settings.maxIterations then end == Ended(CallsOf(turns))
    else
      match world.turns(|turns| + 1)
      case TurnFailed => end == if turns == [] then NoAnswer else Failed
      case Reply(calls, _) =>
        end == Ended(CallsOf(turns)) && (calls == [] || |CallsOf(turns)| + |calls| > settings.maxToolCalls)
  }

  ghost predicate AllFaithful(world: World, settings: Settings, turns: seq<Finished>) {
    forall i :: 0 <= i < |turns| ==> Faithful(world, settings, turns[i], i + 1) && Whole(turns[i])
  }

  lemma {:induction false} SameCharges(calls: seq<StepCall>, outcomes: seq<CallOutcome>, m: Meter)
    requires |calls| == |outcomes| && forall i :: 0 <= i < |calls| ==> calls[i].outcome == outcomes[i]
    ensures Count(calls, ChargedCall(m)) == Count(outcomes, Charges(m))
  {
    if calls != [] {
      SameCharges(calls[..|calls| - 1], outcomes[..|outcomes| - 1], m);
    }
  }

  lemma OneMoreTurn(strategy: Strategy, limit: Positive, turns: seq<Finished>, f: Finished)
    requires AllWhole(turns) && Whole(f)
    ensures AllWhole(turns + [f]) && CallsOf(turns + [f]) == CallsOf(turns) + TurnCalls(f)
    ensures KeysOf(turns + [f]) == KeysOf(turns) + TurnKeys(f.calls)
    ensures MessagesOf(strategy, limit, turns + [f]) ==
            MessagesOf(strategy, limit, turns) + TurnMessages(strategy, limit, KeysOf(turns), f)
  {
    assert (turns + [f])[..|turns|] == turns;
  }

  lemma Regroup(old': seq<Message>, a: Message, b: seq<Message>, c: seq<Message>)
    ensures old' + [a] + b + c == old' + ([a] + b + c)
  {
  }

  lemma ExceededPush(outcomes: seq<CallOutcome>, i: nat)
    requires i < |outcomes|
    ensures AnyExceeded(outcomes[..i + 1]) <==> AnyExceeded(outcomes[..i]) || outcomes[i].Exceeded?
  {
    if AnyExceeded(outcomes[..i]) {
      var k :| 0 <= k < i && outcomes[..i][k].Exceeded?;
      assert outcomes[..i + 1][k].Exceeded?;
    }
    if outcomes[i].Exceeded? {
      assert outcomes[..i + 1][i].Exceeded?;
    }
  }

  /** One more call moves the counters of the loop on. */
  lemma TrackNext(before: seq<Key>, calls: seq<Request>, i: nat, key: Option<Key>, count: nat, limit: Positive)
    requires i < |calls| && Tracks(before + TurnKeys(calls)[..i], key, count, limit)
    ensures var x := KeyOf(calls[i]);
            var c := if key == Some(x) then count + 1 else 1;
            && (c >= limit <==> Streak(before + TurnKeys(calls), |before| + i, limit) == 0)
            && Tracks(before + TurnKeys(calls)[..i + 1], Some(x), if c >= limit then 0 else c, limit)
  {
    var all, n := before + TurnKeys(calls), |before| + i;
    var keys := before + TurnKeys(calls)[..i];
    TakePush(TurnKeys(calls), i);
    assert all[..n] == keys && all[..n + 1] == before + TurnKeys(calls)[..i + 1];
    StreakPrefix(all, n + 1, n, limit);
    if n > 0 {
      StreakPrefix(all, n, n - 1, limit);
    }
  }

  function NoOutcomes(n: nat): seq<Option<CallOutcome>> { seq(n, _ => None) }

  /** The calls of the batches done so far have their outcomes, the others have none. */
  predicate Answered(world: World, turn: nat, calls: seq<Request>, level: seq<int>, slots: seq<Option<CallOutcome>>,
                     b: nat) {
    && |slots| == |level| == |calls|
    && (forall i :: 0 <= i < |slots| ==>
          if level[i] < b then FaithfulSlot(world, turn, calls, i, slots[i]) else slots[i].None?)
  }

  lemma AnsweredMore(world: World, turn: nat, calls: seq<Request>, level: seq<int>, slots: seq<Option<CallOutcome>>,
                     next: seq<Option<CallOutcome>>, batch: seq<nat>, b: nat)
    requires Answered(world, turn, calls, level, slots, b) && Filled(world, turn, calls, slots, next, batch)
    requires batch == B.AtLevel(level, b, |level|)
    ensures Answered(world, turn, calls, level, next, b + 1)
  {
    forall i | 0 <= i < |next|
      ensures if level[i] < b + 1 then FaithfulSlot(world, turn, calls, i, next[i]) else next[i].None?
    {
      assert i in batch <==> level[i] == b;
    }
  }

  /** A batch of a level lists different offsets, all of that level. */
  lemma BatchFits(level: seq<int>, b: nat, n: nat)
    requires |level| == n
    ensures var batch := B.AtLevel(level, b, n);
            && |batch| <= n
            && (forall k :: 0 <= k < |batch| ==> batch[k] < n && level[batch[k]] == b)
            && (forall k, l :: 0 <= k < l < |batch| ==> batch[k] != batch[l])
  {
    var batch := B.AtLevel(level, b, n);
    forall k | 0 <= k < |batch| ensures batch[k] < n && level[batch[k]] == b {
      assert batch[k] in batch;
    }
    LevelLength(level, b, n);
  }

  lemma {:induction false} LevelLength(level: seq<int>, b: int, n: nat)
    requires n <= |level|
    ensures |B.AtLevel(level, b, n)| <= n
  {
    if n > 0 {
      LevelLength(level, b, n - 1);
    }
  }

  lemma {:induction false} OneLevelEach(level: seq<int>, b: nat, n: nat)
    requires n <= |level| && b < |level| && forall i :: 0 <= i < |level| ==> level[i] == i
    ensures B.AtLevel(level, b, n) == if b < n then [b] else []
  {
    if n > 0 {
      OneLevelEach(level, b, n - 1);
    }
  }

  lemma OneByOneIsBatched(n: nat, batches: seq<seq<nat>>, level: seq<int>)
    requires |batches| == |level| == n && forall i :: 0 <= i < n ==> batches[i] == [i] && level[i] == i
    ensures B.Batched(n, batches, level)
  {
    forall b | 0 <= b < n ensures batches[b] == B.AtLevel(level, b, n) {
      OneLevelEach(level, b, n);
    }
  }

  lemma {:induction false} ChargesAgree(slots: seq<Option<CallOutcome>>, outcomes: seq<CallOutcome>, m: Meter)
    requires |slots| == |outcomes| && forall i :: 0 <= i < |slots| ==> slots[i] == Some(outcomes[i])
    ensures Count(slots, ChargedSlot(m)) == Count(outcomes, Charges(m))
  {
    if slots != [] {
      ChargesAgree(slots[..|slots| - 1], outcomes[..|outcomes| - 1], m);
    }
  }

  lemma OutcomesSpend(was: Budget, now: Budget, f: Finished, slots: seq<Option<CallOutcome>>)
    requires Spends(was, now, NoOutcomes(|f.calls|), slots, Names(f.calls), f.groups)
    requires |slots| == |f.outcomes| && forall i :: 0 <= i < |slots| ==> slots[i] == Some(f.outcomes[i])
    ensures TurnSpends(was, now, f)
  {
    var none := NoOutcomes(|f.calls|);
    forall m
      ensures SpendsOn(was, now, 0, Count(f.outcomes, Charges(m)), WidthOn(Names(f.calls), f.groups, m), m)
    {
      assert SpendsOn(was, now, Count(none, ChargedSlot(m)), Count(slots, ChargedSlot(m)),
                      WidthOn(Names(f.calls), f.groups, m), m);
      CountNone(none, ChargedSlot(m));
      ChargesAgree(slots, f.outcomes, m);
    }
  }

  /** The batches of a plan, and those of the fallback, run their calls in order. */
  lemma PlanRunsRight(world: World, settings: Settings, calls: seq<Request>, batches: seq<seq<nat>>, level: seq<int>)
    requires B.Batched(|calls|, batches, level)
    requires if O.HasCycle(Tagged(world, calls)) then batches == O.OneByOne(seq(|calls|, i => i))
             else B.Planned(Tagged(world, calls), batches, level)
    ensures RanRight(world, settings, calls, O.AllGroups(settings.parallel, batches))
  {
    if O.HasCycle(Tagged(world, calls)) {
      var at := O.OneByOneRunsInOrder(settings.parallel, Tagged(world, calls));
    } else {
      var at := O.PlanRunsInOrder(settings.parallel, Tagged(world, calls), level, batches);
    }
    if !settings.parallel {
      O.SequentialGroups(batches);
    }
  }

  // ---------------------------------------------------------------- repetitions

  /** The loop's two counters against the calls so far. */
  predicate Tracks(keys: seq<Key>, key: Option<Key>, count: nat, limit: Positive) {
    if keys == [] then key.None?
    else key == Some(keys[|keys| - 1]) && count == Streak(keys, |keys| - 1, limit)
  }

  lemma {:induction false} StreakPrefix(keys: seq<Key>, n: nat, k: nat, limit: Positive)
    requires k < n <= |keys|
    ensures Streak(keys[..n], k, limit) == Streak(keys, k, limit)
  {
    if k > 0 && keys[k - 1] == keys[k] {
      StreakPrefix(keys, n, k - 1, limit);
    }
  }

  lemma TimesAtLeast(a: int, m: Positive)
    requires a >= 1
    ensures a * m >= m
  {
  }

  lemma Distributes(a: int, b: int, m: int)
    ensures (a - b) * m == a * m - b * m
  {
  }

  /** Quotient and remainder are unique. */
  lemma Remainder(n: int, q: int, r: int, m: Positive)
    requires n == q * m + r && 0 <= r < m
    ensures n % m == r
  {
    var p, s := n / m, n % m;
    assert n == p * m + s;
    if q > p {
      Distributes(q, p, m);
      TimesAtLeast(q - p, m);
    } else if p > q {
      Distributes(p, q, m);
      TimesAtLeast(p - q, m);
    }
  }

  lemma NextRemainder(n: nat, m: Positive)
    ensures (n + 1) % m == if n % m + 1 == m then 0 else n % m + 1
  {
    var q, r := n / m, n % m;
    assert n == q * m + r;
    if r + 1 == m {
      assert n + 1 == (q + 1) * m + 0;
      Remainder(n + 1, q + 1, 0, m);
    } else {
      Remainder(n + 1, q, r + 1, m);
    }
  }

  /** A nudge follows a call exactly when the run of equal calls ending with it has a length that
      is a multiple of the limit. */
  lemma {:induction false} NudgedAtMultiples(keys: seq<Key>, k: nat, limit: Positive)
    requires k < |keys|
    ensures Streak(keys, k, limit) == RunLength(keys, k) % limit
  {
    if k > 0 && keys[k - 1] == keys[k] {
      NudgedAtMultiples(keys, k - 1, limit);
      NextRemainder(RunLength(keys, k - 1), limit);
    } else {
      NextRemainder(0, limit);
    }
  }

  /** The outcomes of the tasks stand at their offsets, and nothing else has changed. */
  predicate Placed(slots: seq<Option<CallOutcome>>, next: seq<Option<CallOutcome>>, batch: seq<nat>, tasks: seq<Task>) {
    && |next| == |slots| && |tasks| == |batch|
    && (forall k :: 0 <= k < |batch| ==>
         batch[k] < |slots| && IsDone(tasks[k]) && next[batch[k]] == Some(OutcomeOf(tasks[k])))
    && (forall i :: 0 <= i < |slots| && i !in batch ==> next[i] == slots[i])
  }

  /** What is charged in the slots is what was recorded, on every meter. */
  ghost predicate PlacedCounts(slots: seq<Option<CallOutcome>>, next: seq<Option<CallOutcome>>, tasks: seq<Task>) {
    forall m :: Count(next, ChargedSlot(m)) == Count(slots, ChargedSlot(m)) + Count(tasks, RecordedOn(m))
  }

  lemma PlaceOne(slots: seq<Option<CallOutcome>>, next: seq<Option<CallOutcome>>, batch: seq<nat>, tasks: seq<Task>,
                 i: nat, t: Task)
    requires Placed(slots, next, batch, tasks) && i < |slots| && i !in batch && slots[i].None? && IsDone(t)
    requires PlacedCounts(slots, next, tasks)
    ensures Placed(slots, next[i := Some(OutcomeOf(t))], batch + [i], tasks + [t])
    ensures PlacedCounts(slots, next[i := Some(OutcomeOf(t))], tasks + [t])
  {
    forall m
      ensures Count(next[i := Some(OutcomeOf(t))], ChargedSlot(m)) ==
              Count(slots, ChargedSlot(m)) + Count(tasks + [t], RecordedOn(m))
    {
      CountUpdate(next, i, Some(OutcomeOf(t)), ChargedSlot(m));
      CountPush(tasks, t, RecordedOn(m));
    }
  }

  /** What a group of calls that ran together spends. */
  lemma GroupSpends(was: Budget, now: Budget, names: seq<string>, batch: seq<nat>, tools: seq<string>,
                    outputs: seq<string>,
                    played: seq<nat>, tasks: seq<Task>, slots: seq<Option<CallOutcome>>, next: seq<Option<CallOutcome>>)
    requires |tools| == |outputs| == |batch|
    requires forall k :: 0 <= k < |batch| ==> batch[k] < |names| && tools[k] == names[batch[k]]
    requires Batch(now, tasks) == Interleave(Batch(was, Calls(tools, outputs)), played)
    requires PlacedCounts(slots, next, tasks) && forall i :: 0 <= i < |tasks| ==> IsDone(tasks[i])
    ensures Spends(was, now, slots, next, names, [batch])
  {
    forall m
      ensures SpendsOn(was, now, Count(slots, ChargedSlot(m)), Count(next, ChargedSlot(m)),
               WidthOn(names, [batch], m), m)
    {
      BatchWithinBudget(was, tools, outputs, played, m);
      SizeIsNamed(names, batch, tools, outputs, m);
      assert WidthOn(names, [batch], m) == Max(WidthOn(names, [], m), SizeOn(names, batch, m));
    }
  }

  /** The slots of the batch hold faithful outcomes; the others are as before. */
  predicate Filled(world: World, turn: nat, calls: seq<Request>, slots: seq<Option<CallOutcome>>,
                   next: seq<Option<CallOutcome>>, batch: seq<nat>)
  {
    && |next| == |slots| == |calls|
    && (forall i :: 0 <= i < |slots| ==>
          if i in batch then FaithfulSlot(world, turn, calls, i, next[i]) else next[i] == slots[i])
  }

  predicate FaithfulSlot(world: World, turn: nat, calls: seq<Request>, i: nat, o: Option<CallOutcome>)
    requires i < |calls|
  {
    o.Some? && FaithfulOutcome(world, turn, calls, i, o.value)
  }

  lemma FilledMore(world: World, turn: nat, calls: seq<Request>, slots: seq<Option<CallOutcome>>,
                   mid: seq<Option<CallOutcome>>,
                   next: seq<Option<CallOutcome>>, batch: seq<nat>, i: nat)
    requires Filled(world, turn, calls, slots, mid, batch) && Filled(world, turn, calls, mid, next, [i])
    ensures Filled(world, turn, calls, slots, next, batch + [i])
  {
  }

  lemma InterleaveOneMore(b: Batch, schedule: seq<nat>, i: nat)
    ensures Interleave(b, schedule + [i]) == Resume(Interleave(b, schedule), i)
  {
    assert (schedule + [i])[..|schedule|] == schedule;
  }

  lemma SameTasks(b: Batch, schedule: seq<nat>)
    ensures |Interleave(b, schedule).tasks| == |b.tasks|
    ensures forall i :: 0 <= i < |b.tasks| ==>
              Interleave(b, schedule).tasks[i].tool == b.tasks[i].tool &&
              Interleave(b, schedule).tasks[i].output == b.tasks[i].output
  {
    if b.tasks == [] {
      NoTasks(b, schedule);
    }
    forall i | 0 <= i < |b.tasks|
      ensures |Interleave(b, schedule).tasks| == |b.tasks|
      ensures Interleave(b, schedule).tasks[i].tool == b.tasks[i].tool
      ensures Interleave(b, schedule).tasks[i].output == b.tasks[i].output
    {
      TasksKeepNames(b, schedule, i);
    }
  }

  lemma {:induction false} NoTasks(b: Batch, schedule: seq<nat>)
    requires b.tasks == []
    ensures Interleave(b, schedule).tasks == []
  {
    if schedule != [] {
      NoTasks(b, schedule[..|schedule| - 1]);
    }
  }
}
