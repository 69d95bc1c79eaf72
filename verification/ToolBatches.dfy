/** Planning one turn's tool calls into batches by the capability tags they give and need. */
module ToolBatches {
  import opened Basics

  datatype Call = Call(name: string, gives: set<string>, needs: set<string>)

  predicate Shares(a: set<string>, b: set<string>) { exists tag :: tag in a && tag in b }

  /** Call `i` needs a tag that another call of the same turn gives. */
  predicate DependsOn(calls: seq<Call>, i: int, j: int) {
    0 <= i < |calls| && 0 <= j < |calls| && i != j && Shares(calls[i].needs, calls[j].gives)
  }

  function UpTo(n: nat): (s: set<nat>)
    ensures forall i :: i in s <==> 0 <= i < n
  {
    if n == 0 then {} else UpTo(n - 1) + {n - 1}
  }

  function Dependencies(calls: seq<Call>, i: nat): set<nat>
    requires i < |calls|
  {
    set j: nat | j < |calls| && DependsOn(calls, i, j)
  }

  predicate NeedsOneOf(calls: seq<Call>, i: nat, others: set<nat>) {
    exists j :: j in others && DependsOn(calls, i, j)
  }

  /** Calls that wait for one another for ever: each needs another one of them. */
  predicate Stuck(calls: seq<Call>, stuck: set<nat>) {
    stuck != {} && forall i {:trigger NeedsOneOf(calls, i, stuck)} :: i in stuck ==> NeedsOneOf(calls, i, stuck)
  }

  /** Positions below `n` whose level is `b`, in input order. */
  function AtLevel(level: seq<int>, b: int, n: nat): (r: seq<nat>)
    requires n <= |level|
    ensures forall i :: i in r <==> 0 <= i < n && level[i] == b
    ensures forall k :: 0 <= k < |r| ==> r[k] < n
    ensures forall k, l :: 0 <= k < l < |r| ==> r[k] < r[l]
  {
    if n == 0 then []
    else
      var front := AtLevel(level, b, n - 1);
      if level[n - 1] == b then front + [n - 1] else front
  }

  /** Every call is in exactly one batch, the one of its level, in input order. */
  predicate Batched(n: nat, batches: seq<seq<nat>>, level: seq<int>) {
    && |level| == n && (forall i :: 0 <= i < n ==> 0 <= level[i] < |batches|)
    && (forall b :: 0 <= b < |batches| ==> batches[b] == AtLevel(level, b, n) && batches[b] != [])
  }

  /** What a call needs comes in an earlier batch. */
  ghost predicate Respects(calls: seq<Call>, level: seq<int>)
    requires |level| == |calls|
  {
    forall i, j :: DependsOn(calls, i, j) && level[i] >= 0 ==> 0 <= level[j] < level[i]
  }

  /** No call waits longer than it must: it needs one of the batch just before its own. */
  ghost predicate Earliest(calls: seq<Call>, level: seq<int>)
    requires |level| == |calls|
  {
    forall i {:trigger NeedsLevel(calls, level, i, level[i] - 1)} ::
      0 <= i < |level| && level[i] > 0 ==> NeedsLevel(calls, level, i, level[i] - 1)
  }

  predicate NeedsLevel(calls: seq<Call>, level: seq<int>, i: int, b: int)
    requires |level| == |calls|
  {
    exists j :: 0 <= j < |level| && DependsOn(calls, i, j) && level[j] == b
  }

  ghost predicate Planned(calls: seq<Call>, batches: seq<seq<nat>>, level: seq<int>) {
    Batched(|calls|, batches, level) && Respects(calls, level) && Earliest(calls, level)
  }

  /** A plan that respects dependencies leaves no stuck calls. */
  lemma {:induction false} PlannedIsNotStuck(calls: seq<Call>, level: seq<int>, stuck: set<nat>, i: nat)
    requires |level| == |calls| && Respects(calls, level) && Stuck(calls, stuck)
    requires i in stuck && i < |level| && level[i] >= 0
    ensures false
    decreases level[i]
  {
    assert NeedsOneOf(calls, i, stuck);
    var j :| j in stuck && DependsOn(calls, i, j);
    PlannedIsNotStuck(calls, level, stuck, j);
  }

  /** The levels are determined by the dependencies: the length of the longest chain below. */
  lemma {:induction false} LevelsAreUnique(calls: seq<Call>, a: seq<int>, b: seq<int>, i: nat)
    requires |a| == |b| == |calls| && Respects(calls, a) && Respects(calls, b) && Earliest(calls, a) &&
             Earliest(calls, b)
    requires forall k :: 0 <= k < |a| ==> a[k] >= 0 && b[k] >= 0
    requires i < |a|
    ensures a[i] == b[i]
    decreases a[i] + b[i]
  {
    if a[i] > 0 {
      assert NeedsLevel(calls, a, i, a[i] - 1);
      var j :| 0 <= j < |a| && DependsOn(calls, i, j) && a[j] == a[i] - 1;
      LevelsAreUnique(calls, a, b, j);
    }
    if b[i] > 0 {
      assert NeedsLevel(calls, b, i, b[i] - 1);
      var j :| 0 <= j < |b| && DependsOn(calls, i, j) && b[j] == b[i] - 1;
      LevelsAreUnique(calls, a, b, j);
    }
  }

  /** The batches so far hold the calls of their level; -1 marks a call not planned yet. */
  predicate Levelled(batches: seq<seq<nat>>, level: seq<int>) {
    && (forall i :: 0 <= i < |level| ==> -1 <= level[i] < |batches|)
    && (forall b :: 0 <= b < |batches| ==> batches[b] == AtLevel(level, b, |level|) && batches[b] != [])
  }

  /** Why a call that is not planned yet was not taken in the last round. */
  predicate Waits(calls: seq<Call>, level: seq<int>, i: nat, b: nat)
    requires |level| == |calls|
  {
    b > 0 ==> NeedsLevel(calls, level, i, -1) || NeedsLevel(calls, level, i, b - 1)
  }

  predicate AllWait(calls: seq<Call>, level: seq<int>, b: nat)
    requires |level| == |calls|
  {
    forall i :: 0 <= i < |level| && level[i] == -1 ==> Waits(calls, level, i, b)
  }

  ghost predicate Round(calls: seq<Call>, batches: seq<seq<nat>>, level: seq<int>) {
    |level| == |calls| && Levelled(batches, level) && Respects(calls, level) && Earliest(calls, level) &&
    AllWait(calls, level, |batches|)
  }

  lemma {:induction false} SameLevel(level: seq<int>, next: seq<int>, c: int, n: nat)
    requires n <= |level| == |next|
    requires forall i :: 0 <= i < n ==> (next[i] == c <==> level[i] == c)
    ensures AtLevel(next, c, n) == AtLevel(level, c, n)
  {
    if n > 0 {
      SameLevel(level, next, c, n - 1);
    }
  }

  /** Every call that needs no unplanned call goes to the new batch. */
  ghost predicate Advances(calls: seq<Call>, level: seq<int>, next: seq<int>, b: int)
    requires |level| == |calls|
  {
    |next| == |level| && forall i {:trigger next[i]} :: 0 <= i < |level| ==>
      next[i] == if level[i] == -1 && !NeedsLevel(calls, level, i, -1) then b else level[i]
  }

  lemma NextRespects(calls: seq<Call>, batches: seq<seq<nat>>, level: seq<int>, next: seq<int>)
    requires Round(calls, batches, level) && Advances(calls, level, next, |batches|)
    ensures Respects(calls, next)
  {
    forall i, j | DependsOn(calls, i, j) && next[i] >= 0 ensures 0 <= next[j] < next[i] {
      assert level[j] == -1 ==> NeedsLevel(calls, level, i, -1);
    }
  }

  lemma StillNeeds(calls: seq<Call>, level: seq<int>, next: seq<int>, i: nat, b: int, c: int)
    requires |level| == |calls| && Advances(calls, level, next, b)
    requires c >= 0 && i < |level| && NeedsLevel(calls, level, i, c)
    ensures NeedsLevel(calls, next, i, c)
  {
    var j :| 0 <= j < |level| && DependsOn(calls, i, j) && level[j] == c;
    assert next[j] == c;
  }

  lemma NextEarliest(calls: seq<Call>, level: seq<int>, next: seq<int>, b: nat)
    requires |level| == |calls| && Advances(calls, level, next, b)
    requires Earliest(calls, level) && AllWait(calls, level, b)
    ensures Earliest(calls, next)
  {
    forall i | 0 <= i < |next| && next[i] > 0 ensures NeedsLevel(calls, next, i, next[i] - 1) {
      if level[i] == -1 {
        assert Waits(calls, level, i, b);
      } else {
        assert NeedsLevel(calls, level, i, level[i] - 1);
      }
      StillNeeds(calls, level, next, i, b, next[i] - 1);
    }
  }

  lemma NextWaits(calls: seq<Call>, level: seq<int>, next: seq<int>, b: nat)
    requires |level| == |calls| && Advances(calls, level, next, b)
    ensures AllWait(calls, next, b + 1)
  {
    forall i | 0 <= i < |next| && next[i] == -1 ensures Waits(calls, next, i, b + 1) {
      assert NeedsLevel(calls, level, i, -1);
      var j :| 0 <= j < |level| && DependsOn(calls, i, j) && level[j] == -1;
      assert next[j] == -1 || next[j] == b;
    }
  }

  lemma NextLevelled(batches: seq<seq<nat>>, level: seq<int>, next: seq<int>)
    requires Levelled(batches, level) && |next| == |level|
    requires forall i :: 0 <= i < |level| ==> next[i] == level[i] || (level[i] == -1 && next[i] == |batches|)
    requires AtLevel(next, |batches|, |next|) != []
    ensures Levelled(batches + [AtLevel(next, |batches|, |next|)], next)
  {
    forall c | 0 <= c < |batches| ensures AtLevel(next, c, |next|) == batches[c] {
      SameLevel(level, next, c, |level|);
    }
  }

  lemma NextRound(calls: seq<Call>, batches: seq<seq<nat>>, level: seq<int>, next: seq<int>)
    requires Round(calls, batches, level) && Advances(calls, level, next, |batches|)
    requires AtLevel(next, |batches|, |next|) != []
    ensures Round(calls, batches + [AtLevel(next, |batches|, |next|)], next)
  {
    NextLevelled(batches, level, next);
    NextRespects(calls, batches, level, next);
    NextEarliest(calls, level, next, |batches|);
    NextWaits(calls, level, next, |batches|);
  }

  /** A call is ready when it needs none of the calls that are not planned yet. */
  lemma ReadyMeans(calls: seq<Call>, level: seq<int>, satisfied: set<nat>, i: nat)
    requires |level| == |calls| && i < |calls|
    requires forall k :: 0 <= k < |level| ==> level[k] >= -1
    requires forall k :: k in satisfied <==> 0 <= k < |calls| && level[k] >= 0
    ensures Dependencies(calls, i) <= satisfied <==> !NeedsLevel(calls, level, i, -1)
  {
    if NeedsLevel(calls, level, i, -1) {
      var j :| 0 <= j < |level| && DependsOn(calls, i, j) && level[j] == -1;
      assert j in Dependencies(calls, i);
    }
  }

  ghost predicate Splits(level: seq<int>, remaining: set<nat>, satisfied: set<nat>) {
    && (forall i :: i in remaining <==> 0 <= i < |level| && level[i] == -1)
    && (forall i :: i in satisfied <==> 0 <= i < |level| && level[i] >= 0)
  }

  /** When no call is ready, the calls that remain are stuck. */
  lemma NobodyReady(calls: seq<Call>, level: seq<int>, next: seq<int>, b: nat, remaining: set<nat>, satisfied: set<nat>)
    requires |level| == |calls| && remaining != {} && Splits(level, remaining, satisfied)
    requires Advances(calls, level, next, b) && AtLevel(next, b, |next|) == []
    ensures Stuck(calls, remaining)
  {
    forall i | i in remaining ensures NeedsOneOf(calls, i, remaining) {
      assert i !in AtLevel(next, b, |next|) && next[i] != b;
      var j :| 0 <= j < |level| && DependsOn(calls, i, j) && level[j] == -1;
      assert j in remaining;
    }
  }

  lemma Progress(calls: seq<Call>, level: seq<int>, next: seq<int>, b: nat, remaining: set<nat>, satisfied: set<nat>)
    requires |level| == |calls| && Splits(level, remaining, satisfied) && Advances(calls, level, next, b)
    requires forall i :: 0 <= i < |level| ==> -1 <= level[i] < b
    ensures var ready := set i | i in AtLevel(next, b, |next|);
            Splits(next, remaining - ready, satisfied + ready) && ready <= remaining
  {
  }

  lemma CompleteIsNotStuck(calls: seq<Call>, level: seq<int>)
    requires |level| == |calls| && Respects(calls, level) && forall i :: 0 <= i < |level| ==> level[i] >= 0
    ensures forall stuck :: !Stuck(calls, stuck)
  {
    forall stuck ensures !Stuck(calls, stuck) {
      if Stuck(calls, stuck) {
        var i :| i in stuck;
        assert NeedsOneOf(calls, i, stuck);
        PlannedIsNotStuck(calls, level, stuck, i);
      }
    }
  }

  /** One round: the calls whose needs are all satisfied, in input order. */
  method Ready(calls: seq<Call>, remaining: set<nat>, satisfied: set<nat>, ghost level: seq<int>, ghost b: nat)
    returns (ready: seq<nat>, ghost next: seq<int>)
    requires |level| == |calls| && (forall i :: 0 <= i < |level| ==> -1 <= level[i] < b) &&
             Splits(level, remaining, satisfied)
    ensures Advances(calls, level, next, b) && ready == AtLevel(next, b, |next|)
  {
    next := seq(|calls|, i requires 0 <= i < |calls| =>
      if level[i] == -1 && !NeedsLevel(calls, level, i, -1) then b else level[i]);
    ready := [];
    for i := 0 to |calls|
      invariant ready == AtLevel(next, b, i)
    {
      ReadyMeans(calls, level, satisfied, i);
      if i in remaining && Dependencies(calls, i) <= satisfied {
        ready := ready + [i];
      }
    }
  }

  /** The batches, or nothing when the dependencies form a cycle. */
  method PlanParallelBatches(calls: seq<Call>) returns (r: Option<seq<seq<nat>>>, ghost level: seq<int>)
    ensures r.Some? ==> Planned(calls, r.value, level)
    ensures r.None? <==> exists stuck :: Stuck(calls, stuck)
  {
    var remaining, satisfied: set<nat> := UpTo(|calls|), {};
    var batches: seq<seq<nat>> := [];
    level := seq(|calls|, _ => -1);
    while remaining != {}
      invariant Round(calls, batches, level) && Splits(level, remaining, satisfied)
      decreases remaining
    {
      var ready, next := Ready(calls, remaining, satisfied, level, |batches|);
      if ready == [] {
        NobodyReady(calls, level, next, |batches|, remaining, satisfied);
        return None, level;
      }
      NextRound(calls, batches, level, next);
      Progress(calls, level, next, |batches|, remaining, satisfied);
      assert ready[0] in ready;
      batches, level := batches + [ready], next;
      satisfied, remaining := satisfied + (set i | i in ready), remaining - set i | i in ready;
    }
    NothingLeft(level, remaining, satisfied);
    CompleteIsNotStuck(calls, level);
    return Some(batches), level;
  }

  lemma NothingLeft(level: seq<int>, remaining: set<nat>, satisfied: set<nat>)
    requires Splits(level, remaining, satisfied) && remaining == {} && forall i :: 0 <= i < |level| ==> -1 <= level[i]
    ensures forall i :: 0 <= i < |level| ==> level[i] >= 0
  {
    assert forall i :: 0 <= i < |level| && level[i] == -1 ==> i in remaining;
  }
}
