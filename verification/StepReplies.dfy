/** What the model is told: for every turn one reply to every call, to that call and with its own
    outcome, in the order of the calls. */
module StepReplies {
  import opened Basics
  import opened Text
  import opened StepBudget
  import opened StepTurns
  import B = ToolBatches
  import O = CallOrder

  // ---------------------------------------------------------------- one reply

  predicate IsReply(m: Message) { m.ToolReply? || m.SystemReply? }

  /** The text a call's outcome is fed back with: its own output, or the reason why it was refused. */
  predicate Says(world: World, f: Finished, i: nat, text: string)
    requires Whole(f) && i < |f.calls|
  {
    match f.outcomes[i]
    case Done(_, _) => text == world.output(f.turn, i)
    case Exceeded(_, StepCallLimit) => text == "budget_exceeded: step_call_limit"
    case Exceeded(_, ToolCallLimit) => text == "budget_exceeded: tool_call_limit"
    case Exceeded(_, TokenLimit) => text == "budget_exceeded: token_estimate_limit"
  }

  /** The id of a call: the one the model gave, or one made up from its turn and its place. */
  predicate HasId(r: Request, turn: nat, i: nat, id: string) {
    id == if r.id.Some? then r.id.value else "call_" + Decimal(turn) + "_" + Decimal(i)
  }

  /** The message replies to request `i` of the turn. */
  predicate RepliesTo(world: World, strategy: Strategy, f: Finished, i: nat, m: Message)
    requires Whole(f) && i < |f.calls|
  {
    match strategy
    case Native =>
      m.ToolReply? && m.tool == f.calls[i].tool && HasId(f.calls[i], f.turn, i, m.callId) && Says(world, f, i, m.output)
    case Json => m.SystemReply? && m.tool == f.calls[i].tool && Says(world, f, i, m.output)
  }

  lemma ReplyIsRight(world: World, settings: Settings, strategy: Strategy, f: Finished, i: nat)
    requires Faithful(world, settings, f, f.turn) && i < |f.calls|
    ensures RepliesTo(world, strategy, f, i, ReplyTo(strategy, f, i))
  {
    assert FaithfulOutcome(world, f.turn, f.calls, i, f.outcomes[i]);
  }

  // ---------------------------------------------------------------- the replies of a turn

  /** The replies to the first calls stand at `pos`, in order. */
  predicate RepliesAt(world: World, strategy: Strategy, f: Finished, ms: seq<Message>, pos: seq<nat>)
    requires Whole(f) && |pos| <= |f.calls|
  {
    && (forall i, j :: 0 <= i < j < |pos| ==> pos[i] < pos[j])
    && (forall i :: 0 <= i < |pos| ==> pos[i] < |ms| && RepliesTo(world, strategy, f, i, ms[pos[i]]))
  }

  /** What does not reply is a nudge. */
  predicate OnlyReplies(ms: seq<Message>, pos: seq<nat>) {
    forall p :: 0 <= p < |ms| ==> ms[p] == RepeatNudge || p in pos
  }

  predicate NudgedAfter(ms: seq<Message>, p: nat) { p + 1 < |ms| && ms[p + 1] == RepeatNudge }

  /** A nudge follows a reply exactly if its call ends a run of equal calls of a length that is a multiple
      of the limit. */
  predicate NudgesAt(limit: Positive, keys: seq<Key>, from: nat, ms: seq<Message>, pos: seq<nat>)
    requires from + |pos| <= |keys|
  {
    forall i :: 0 <= i < |pos| ==> (NudgedAfter(ms, pos[i]) <==> RunLength(keys, from + i) % limit == 0)
  }

  /** How many of these calls end such a run. */
  function Nudges(keys: seq<Key>, from: nat, n: nat, limit: Positive): nat
    requires from + n <= |keys|
  {
    if n == 0 then 0
    else Nudges(keys, from, n - 1, limit) + (if RunLength(keys, from + n - 1) % limit == 0 then 1 else 0)
  }

  /** Exactly one reply to each of the first `n` calls, in order, with the nudges they draw. */
  predicate Answers(world: World, strategy: Strategy, limit: Positive, keys: seq<Key>, from: nat, f: Finished, n: nat,
                    ms: seq<Message>, pos: seq<nat>)
    requires Whole(f) && n <= |f.calls| && from + n <= |keys|
  {
    && |pos| == n && |ms| == n + Nudges(keys, from, n, limit)
    && RepliesAt(world, strategy, f, ms, pos) && OnlyReplies(ms, pos) && NudgesAt(limit, keys, from, ms, pos)
  }

  lemma RepliesAtMore(world: World, strategy: Strategy, f: Finished, ms: seq<Message>, pos: seq<nat>,
                      more: seq<Message>)
    requires Whole(f) && |pos| < |f.calls| && RepliesAt(world, strategy, f, ms, pos)
    requires more != [] && RepliesTo(world, strategy, f, |pos|, more[0])
    ensures RepliesAt(world, strategy, f, ms + more, pos + [|ms|])
  {
    var all, at := ms + more, pos + [|ms|];
    forall i | 0 <= i < |at| ensures at[i] < |all| && RepliesTo(world, strategy, f, i, all[at[i]]) {
      if i < |pos| {
        assert all[at[i]] == ms[pos[i]];
      }
    }
  }

  lemma OnlyRepliesMore(ms: seq<Message>, pos: seq<nat>, more: seq<Message>)
    requires OnlyReplies(ms, pos) && more != [] && (|more| == 1 || more == [more[0], RepeatNudge])
    ensures OnlyReplies(ms + more, pos + [|ms|])
  {
    var all, at := ms + more, pos + [|ms|];
    forall p | 0 <= p < |all| ensures all[p] == RepeatNudge || p in at {
      if p < |ms| {
        assert all[p] == ms[p] && (p in pos ==> p in at);
      } else if p == |ms| {
        assert at[|pos|] == p;
      }
    }
  }

  lemma NudgesAtMore(limit: Positive, keys: seq<Key>, from: nat, ms: seq<Message>, pos: seq<nat>, more: seq<Message>)
    requires from + |pos| < |keys| && NudgesAt(limit, keys, from, ms, pos)
    requires more != [] && more[0] != RepeatNudge && forall i :: 0 <= i < |pos| ==> pos[i] < |ms|
    requires NudgedAfter(more, 0) <==> RunLength(keys, from + |pos|) % limit == 0
    ensures NudgesAt(limit, keys, from, ms + more, pos + [|ms|])
  {
    var all, at := ms + more, pos + [|ms|];
    assert NudgedAfter(all, |ms|) <==> NudgedAfter(more, 0);
    forall i | 0 <= i < |at| ensures NudgedAfter(all, at[i]) <==> RunLength(keys, from + i) % limit == 0 {
      if i < |pos| {
        assert NudgedAfter(all, pos[i]) <==> NudgedAfter(ms, pos[i]);
      }
    }
  }

  lemma AnswersMore(world: World, strategy: Strategy, limit: Positive, keys: seq<Key>, from: nat, f: Finished, n: nat,
                    ms: seq<Message>, pos: seq<nat>, more: seq<Message>)
    requires Whole(f) && n < |f.calls| && from + n < |keys|
    requires Answers(world, strategy, limit, keys, from, f, n, ms, pos)
    requires more != [] && RepliesTo(world, strategy, f, n, more[0])
    requires more == [more[0]] + if RunLength(keys, from + n) % limit == 0 then [RepeatNudge] else []
    ensures Answers(world, strategy, limit, keys, from, f, n + 1, ms + more, pos + [|ms|])
  {
    RepliesAtMore(world, strategy, f, ms, pos, more);
    OnlyRepliesMore(ms, pos, more);
    NudgesAtMore(limit, keys, from, ms, pos, more);
  }

  lemma {:induction false} RepliesAnswer(world: World, settings: Settings, strategy: Strategy, limit: Positive,
                                         keys: seq<Key>, from: nat, f: Finished, n: nat) returns (pos: seq<nat>)
    requires Faithful(world, settings, f, f.turn) && n <= |f.calls| && from + n <= |keys|
    ensures Answers(world, strategy, limit, keys, from, f, n, Replies(strategy, limit, keys, from, f, n), pos)
  {
    if n == 0 {
      pos := [];
    } else {
      var front := Replies(strategy, limit, keys, from, f, n - 1);
      var before := RepliesAnswer(world, settings, strategy, limit, keys, from, f, n - 1);
      ReplyIsRight(world, settings, strategy, f, n - 1);
      NudgedAtMultiples(keys, from + n - 1, limit);
      AnswersMore(world, strategy, limit, keys, from, f, n - 1, front, before,
                  ReplyAndNudge(strategy, limit, keys, from, f, n - 1));
      pos := before + [|front|];
    }
  }

  // ---------------------------------------------------------------- the messages of a turn

  /** The assistant's message of a turn announces its calls in order, if calls are announced at all. */
  predicate Announces(strategy: Strategy, f: Finished, m: Message) {
    m.Assistant? && m.content == f.content &&
    match strategy
    case Native =>
      |m.ids| == |f.calls| &&
      forall i :: 0 <= i < |f.calls| ==>
        m.ids[i] == if f.calls[i].id.Some? then f.calls[i].id.value else "call_" + Decimal(i)
    case Json => m.ids == []
  }

  predicate SomeRefused(f: Finished) { exists i :: 0 <= i < |f.outcomes| && f.outcomes[i].Exceeded? }

  /** A turn's messages: the announcement, exactly one reply to each call, in order and after it, the
      nudges, and a note at the end iff the budget refused a call. */
  predicate TellsTurn(world: World, strategy: Strategy, limit: Positive, before: seq<Key>, f: Finished,
                      ms: seq<Message>, pos: seq<nat>)
    requires Whole(f)
  {
    var keys := before + TurnKeys(f.calls);
    var n := 1 + |f.calls| + Nudges(keys, |before|, |f.calls|, limit);
    && (forall i :: 0 <= i < |f.calls| ==> keys[|before| + i] == (f.calls[i].tool, f.calls[i].arguments))
    && |ms| == n + (if SomeRefused(f) then 1 else 0) && Announces(strategy, f, ms[0])
    && Answers(world, strategy, limit, keys, |before|, f, |f.calls|, ms[1..n], pos)
    && (SomeRefused(f) ==> ms[n] == BudgetNote)
  }

  lemma TurnIsTold(world: World, settings: Settings, strategy: Strategy, limit: Positive, before: seq<Key>, f: Finished)
    returns (pos: seq<nat>)
    requires Faithful(world, settings, f, f.turn)
    ensures TellsTurn(world, strategy, limit, before, f, TurnMessages(strategy, limit, before, f), pos)
  {
    var keys := before + TurnKeys(f.calls);
    pos := RepliesAnswer(world, settings, strategy, limit, keys, |before|, f, |f.calls|);
    var replies := Replies(strategy, limit, keys, |before|, f, |f.calls|);
    assert TurnMessages(strategy, limit, before, f)[1..1 + |replies|] == replies;
  }

  // ---------------------------------------------------------------- the order of the calls

  /** A call that needs a tag another call of the turn gives runs in a later group than that one, unless
      calls of the turn wait for one another. */
  lemma NeedsComeFirst(world: World, settings: Settings, f: Finished, i: nat, j: nat, tag: string)
    requires Faithful(world, settings, f, f.turn) && !O.HasCycle(Tagged(world, f.calls))
    requires i < |f.calls| && j < |f.calls| && i != j
    requires tag in world.tags(f.calls[i].tool).1 && tag in world.tags(f.calls[j].tool).0
    ensures exists p, q :: 0 <= p < q < |f.groups| && j in f.groups[p] && i in f.groups[q]
  {
    var calls := Tagged(world, f.calls);
    var at :| O.RunInOrder(calls, f.groups, at);
    assert B.DependsOn(calls, i, j);
    assert j in f.groups[at[j]] && i in f.groups[at[i]];
  }

  // ---------------------------------------------------------------- the messages of a run of the loop

  ghost predicate Told(world: World, strategy: Strategy, limit: Positive, before: seq<Key>, f: Finished,
                       ms: seq<Message>)
    requires Whole(f)
  {
    exists pos :: TellsTurn(world, strategy, limit, before, f, ms, pos)
  }

  /** The messages of the turns, one turn after the other. */
  ghost predicate TellsAll(world: World, strategy: Strategy, limit: Positive, turns: seq<Finished>, ms: seq<Message>)
    requires AllWhole(turns)
  {
    if turns == [] then ms == []
    else
      var n := |turns| - 1;
      exists k :: 0 <= k < |ms| && TellsAll(world, strategy, limit, turns[..n], ms[..k]) &&
                  Told(world, strategy, limit, KeysOf(turns[..n]), turns[n], ms[k..])
  }

  lemma TellsLast(world: World, strategy: Strategy, limit: Positive, turns: seq<Finished>, ms: seq<Message>,
                  more: seq<Message>)
    requires AllWhole(turns) && turns != []
    requires TellsAll(world, strategy, limit, turns[..|turns| - 1], ms)
    requires Told(world, strategy, limit, KeysOf(turns[..|turns| - 1]), turns[|turns| - 1], more) && more != []
    ensures TellsAll(world, strategy, limit, turns, ms + more)
  {
    assert (ms + more)[..|ms|] == ms && (ms + more)[|ms|..] == more;
  }

  /** For any turns the loop may have run: its messages tell each turn, one after the other. */
  lemma {:induction false} RunIsTold(world: World, settings: Settings, strategy: Strategy, turns: seq<Finished>)
    requires AllFaithful(world, settings, turns)
    ensures TellsAll(world, strategy, settings.repeatLimit, turns, MessagesOf(strategy, settings.repeatLimit, turns))
  {
    if turns != [] {
      var n := |turns| - 1;
      var front := turns[..n];
      assert AllFaithful(world, settings, front) by { assert forall t :: 0 <= t < n ==> front[t] == turns[t]; }
      RunIsTold(world, settings, strategy, front);
      assert Faithful(world, settings, turns[n], n + 1);
      var pos := TurnIsTold(world, settings, strategy, settings.repeatLimit, KeysOf(front), turns[n]);
      TellsLast(world, strategy, settings.repeatLimit, turns, MessagesOf(strategy, settings.repeatLimit, front),
                TurnMessages(strategy, settings.repeatLimit, KeysOf(front), turns[n]));
    }
  }

  /** What was said since `before` tells the turns. */
  ghost predicate Fed(world: World, settings: Settings, strategy: Strategy, turns: seq<Finished>,
                      before: seq<Message>, now: seq<Message>)
    requires AllWhole(turns)
  {
    before <= now && TellsAll(world, strategy, settings.repeatLimit, turns, now[|before|..])
  }

  lemma RunIsFed(world: World, settings: Settings, strategy: Strategy, turns: seq<Finished>, before: seq<Message>,
                 more: seq<Message>)
    requires AllFaithful(world, settings, turns) && more == MessagesOf(strategy, settings.repeatLimit, turns)
    ensures Fed(world, settings, strategy, turns, before, before + more)
  {
    RunIsTold(world, settings, strategy, turns);
    assert (before + more)[|before|..] == more;
  }

  // ---------------------------------------------------------------- the calls of a run of the loop

  predicate Lists(c: StepCall, f: Finished, i: nat)
    requires Whole(f) && i < |f.calls|
  {
    && c.turn == f.turn && HasId(f.calls[i], f.turn, i, c.callId)
    && c.tool == f.calls[i].tool && c.outcome == f.outcomes[i]
  }

  lemma LastTurnIsListed(turns: seq<Finished>, i: nat)
    requires AllWhole(turns) && turns != [] && i < |turns[|turns| - 1].calls|
    ensures var k, n := |CallsOf(turns[..|turns| - 1])| + i, |turns| - 1;
            k < |CallsOf(turns)| && Lists(CallsOf(turns)[k], turns[n], i)
  {
    var n := |turns| - 1;
    assert CallsOf(turns)[|CallsOf(turns[..n])| + i] == TurnCalls(turns[n])[i];
  }

  /** The result lists every call of every turn in order, under its id, with its tool and outcome. */
  lemma {:induction false} CallsAreListed(turns: seq<Finished>, t: nat, i: nat)
    requires AllWhole(turns) && t < |turns| && i < |turns[t].calls|
    ensures AllWhole(turns[..t])
    ensures var k := |CallsOf(turns[..t])| + i; k < |CallsOf(turns)| && Lists(CallsOf(turns)[k], turns[t], i)
  {
    var n := |turns| - 1;
    if t < n {
      CallsAreListed(turns[..n], t, i);
      assert turns[..n][..t] == turns[..t] && CallsOf(turns[..n]) <= CallsOf(turns);
    } else {
      LastTurnIsListed(turns, i);
    }
  }

  /** Ids that are made up for calls of a run differ: they name the turn and the place in it. */
  lemma MadeUpIdsDiffer(r: Request, turn: nat, i: nat, s: Request, other: nat, j: nat, id: string)
    requires r.id.None? && s.id.None? && HasId(r, turn, i, id) && HasId(s, other, j, id)
    ensures turn == other && i == j
  {
    assert id == ("call_" + Decimal(turn)) + ['_'] + Decimal(i);
    assert id == ("call_" + Decimal(other)) + ['_'] + Decimal(j);
    SplitDecimal("call_" + Decimal(turn), i, "call_" + Decimal(other), j, '_');
    assert ("call_" + Decimal(turn))[5..] == Decimal(turn);
    assert ("call_" + Decimal(other))[5..] == Decimal(other);
    DecimalInjective(turn, other);
  }
}
