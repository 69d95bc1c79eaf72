/** In which groups, one after the other, the batches of a turn are run, and that no call runs
    before the calls it needs. */
module CallOrder {
  import opened ToolBatches

  function OneByOne(batch: seq<nat>): seq<seq<nat>> {
    seq(|batch|, k requires 0 <= k < |batch| => [batch[k]])
  }

  /** The calls of a batch run together when they may, and one after the other otherwise. */
  function Groups(parallel: bool, batch: seq<nat>): seq<seq<nat>> {
    if parallel && |batch| > 1 then [batch] else OneByOne(batch)
  }

  function AllGroups(parallel: bool, batches: seq<seq<nat>>): seq<seq<nat>> {
    if batches == [] then []
    else AllGroups(parallel, batches[..|batches| - 1]) + Groups(parallel, batches[|batches| - 1])
  }

  /** In input order, and no call twice. */
  predicate Ordered(batch: seq<nat>) { forall l, m :: 0 <= l < m < |batch| ==> batch[l] < batch[m] }

  /** Every call is in exactly one group, that of its place; groups list their calls in input order. */
  predicate RunsAt(groups: seq<seq<nat>>, at: seq<nat>) {
    && (forall i :: 0 <= i < |at| ==> at[i] < |groups| && i in groups[at[i]])
    && (forall g, k :: 0 <= g < |groups| && 0 <= k < |groups[g]| ==> groups[g][k] < |at| && at[groups[g][k]] == g)
    && (forall g :: 0 <= g < |groups| ==> Ordered(groups[g]))
  }

  /** A call runs in a later group than all it needs. */
  ghost predicate NeedsRunFirst(calls: seq<Call>, at: seq<nat>)
    requires |at| == |calls|
  {
    forall i, j :: DependsOn(calls, i, j) ==> at[j] < at[i]
  }

  ghost predicate HasCycle(calls: seq<Call>) { exists stuck :: Stuck(calls, stuck) }

  /** What a turn has run: each call once, after what it needs; in request order, one by one, when
      what the calls need goes round in a circle. */
  ghost predicate RunInOrder(calls: seq<Call>, groups: seq<seq<nat>>, at: seq<nat>) {
    && |at| == |calls| && RunsAt(groups, at)
    && (HasCycle(calls) ==> groups == OneByOne(seq(|calls|, i => i)))
    && (!HasCycle(calls) ==> NeedsRunFirst(calls, at))
  }

  // ---------------------------------------------------------------- the batches of a plan

  function IndexOf(batch: seq<nat>, i: nat): (k: nat)
    requires i in batch
    ensures k < |batch| && batch[k] == i
  {
    if batch[|batch| - 1] == i then |batch| - 1 else IndexOf(batch[..|batch| - 1], i)
  }

  /** All calls of a group have it as their place, and stand in input order. */
  predicate GroupAt(group: seq<nat>, level: seq<int>, b: int, at: seq<nat>, g: nat)
    requires |at| == |level|
  {
    && Ordered(group)
    && (forall k :: 0 <= k < |group| ==> group[k] < |at| && level[group[k]] < b && at[group[k]] == g)
  }

  /** The places after the first `b` batches. */
  predicate Placed(groups: seq<seq<nat>>, level: seq<int>, b: int, at: seq<nat>) {
    && |at| == |level|
    && (forall i :: 0 <= i < |at| && level[i] < b ==> at[i] < |groups| && i in groups[at[i]])
    && (forall g :: 0 <= g < |groups| ==> GroupAt(groups[g], level, b, at, g))
  }

  /** Calls of an earlier batch are placed before those of a later one. */
  predicate Ascends(level: seq<int>, b: int, at: seq<nat>)
    requires |at| == |level|
  {
    forall i, j :: 0 <= i < |at| && 0 <= j < |at| && level[i] < level[j] < b ==> at[i] < at[j]
  }

  /** The group of a call among those of its batch. */
  function Spot(parallel: bool, batch: seq<nat>, i: nat): nat
    requires i in batch
  {
    if parallel && |batch| > 1 then 0 else IndexOf(batch, i)
  }

  function NextPlaces(parallel: bool, base: nat, level: seq<int>, b: int, at: seq<nat>): (next: seq<nat>)
    requires |at| == |level|
  {
    var batch := AtLevel(level, b, |level|);
    seq(|at|, i requires 0 <= i < |at| => if level[i] != b then at[i] else base + Spot(parallel, batch, i))
  }

  lemma SpotFits(parallel: bool, batch: seq<nat>, i: nat)
    requires i in batch
    ensures Spot(parallel, batch, i) < |Groups(parallel, batch)| &&
             i in Groups(parallel, batch)[Spot(parallel, batch, i)]
  {
  }

  lemma SpotOf(parallel: bool, batch: seq<nat>, g: nat, k: nat)
    requires Ordered(batch) && g < |Groups(parallel, batch)| && k < |Groups(parallel, batch)[g]|
    ensures var i := Groups(parallel, batch)[g][k]; i in batch && Spot(parallel, batch, i) == g
    ensures Ordered(Groups(parallel, batch)[g])
  {
    var i := Groups(parallel, batch)[g][k];
    assert i == if parallel && |batch| > 1 then batch[k] else batch[g];
  }

  lemma CallPlaced(parallel: bool, groups: seq<seq<nat>>, level: seq<int>, b: int, at: seq<nat>, i: nat)
    requires Placed(groups, level, b, at) && i < |level| && level[i] < b + 1
    ensures var all := groups + Groups(parallel, AtLevel(level, b, |level|));
            var place := NextPlaces(parallel, |groups|, level, b, at)[i];
            place < |all| && i in all[place]
  {
    if level[i] == b {
      SpotFits(parallel, AtLevel(level, b, |level|), i);
    }
  }

  lemma GroupPlaced(parallel: bool, groups: seq<seq<nat>>, level: seq<int>, b: int, at: seq<nat>, g: nat)
    requires Placed(groups, level, b, at) && g < |groups + Groups(parallel, AtLevel(level, b, |level|))|
    ensures var group := (groups + Groups(parallel, AtLevel(level, b, |level|)))[g];
            var next := NextPlaces(parallel, |groups|, level, b, at);
            GroupAt(group, level, b + 1, next, g)
  {
    var batch := AtLevel(level, b, |level|);
    var group := (groups + Groups(parallel, batch))[g];
    if g < |groups| {
      assert GroupAt(groups[g], level, b, at, g);
    } else {
      forall k | 0 <= k < |group| ensures group[k] in batch && Spot(parallel, batch, group[k]) == g - |groups| {
        SpotOf(parallel, batch, g - |groups|, k);
      }
    }
  }

  lemma PlaceBatch(parallel: bool, groups: seq<seq<nat>>, level: seq<int>, b: int, at: seq<nat>)
    requires Placed(groups, level, b, at) && Ascends(level, b, at)
    ensures var next := NextPlaces(parallel, |groups|, level, b, at);
            Placed(groups + Groups(parallel, AtLevel(level, b, |level|)), level, b + 1, next) &&
                Ascends(level, b + 1, next)
  {
    var all := groups + Groups(parallel, AtLevel(level, b, |level|));
    var next := NextPlaces(parallel, |groups|, level, b, at);
    forall i | 0 <= i < |next| && level[i] < b + 1 ensures next[i] < |all| && i in all[next[i]] {
      CallPlaced(parallel, groups, level, b, at, i);
    }
    forall g | 0 <= g < |all| ensures GroupAt(all[g], level, b + 1, next, g) {
      GroupPlaced(parallel, groups, level, b, at, g);
    }
  }

  lemma PlaceLast(parallel: bool, level: seq<int>, batches: seq<seq<nat>>, before: seq<nat>)
    requires batches != [] && batches[|batches| - 1] == AtLevel(level, |batches| - 1, |level|)
    requires var front := batches[..|batches| - 1];
             Placed(AllGroups(parallel, front), level, |front|, before) && Ascends(level, |front|, before)
    ensures var ran := AllGroups(parallel, batches[..|batches| - 1]);
            var at := NextPlaces(parallel, |ran|, level, |batches| - 1, before);
            Placed(AllGroups(parallel, batches), level, |batches|, at) && Ascends(level, |batches|, at)
  {
    PlaceBatch(parallel, AllGroups(parallel, batches[..|batches| - 1]), level, |batches| - 1, before);
  }

  lemma {:induction false} PlaceAll(parallel: bool, level: seq<int>, batches: seq<seq<nat>>) returns (at: seq<nat>)
    requires forall i :: 0 <= i < |level| ==> level[i] >= 0
    requires forall b :: 0 <= b < |batches| ==> batches[b] == AtLevel(level, b, |level|)
    ensures Placed(AllGroups(parallel, batches), level, |batches|, at) && Ascends(level, |batches|, at)
  {
    if batches == [] {
      at := seq(|level|, _ => 0);
    } else {
      var front := batches[..|batches| - 1];
      var before := PlaceAll(parallel, level, front);
      PlaceLast(parallel, level, batches, before);
      at := NextPlaces(parallel, |AllGroups(parallel, front)|, level, |front|, before);
    }
  }

  /** A plan that respects what the calls need runs them in order. */
  lemma PlanRunsInOrder(parallel: bool, calls: seq<Call>, level: seq<int>, batches: seq<seq<nat>>)
    returns (at: seq<nat>)
    requires Planned(calls, batches, level) && !HasCycle(calls)
    ensures RunInOrder(calls, AllGroups(parallel, batches), at)
  {
    at := PlaceAll(parallel, level, batches);
    forall i, j | DependsOn(calls, i, j) ensures at[j] < at[i] {
      assert 0 <= level[j] < level[i];
    }
  }

  lemma {:induction false} SinglesStay(parallel: bool, batches: seq<seq<nat>>)
    requires forall b :: 0 <= b < |batches| ==> |batches[b]| == 1
    ensures AllGroups(parallel, batches) == batches
  {
    if batches != [] {
      var front, last := batches[..|batches| - 1], batches[|batches| - 1];
      SinglesStay(parallel, front);
      assert last == [last[0]];
      assert Groups(parallel, last) == [last];
      assert front + [last] == batches;
    }
  }

  /** So do calls that are run one by one in request order when there is no plan. */
  lemma OneByOneRunsInOrder(parallel: bool, calls: seq<Call>) returns (at: seq<nat>)
    requires HasCycle(calls)
    ensures RunInOrder(calls, AllGroups(parallel, OneByOne(seq(|calls|, i => i))), at)
  {
    SinglesStay(parallel, OneByOne(seq(|calls|, i => i)));
    at := seq(|calls|, i => i);
  }

  lemma AllGroupsPush(parallel: bool, batches: seq<seq<nat>>, b: nat)
    requires b < |batches|
    ensures AllGroups(parallel, batches[..b + 1]) == AllGroups(parallel, batches[..b]) + Groups(parallel, batches[b])
  {
    assert batches[..b + 1][..b] == batches[..b];
  }

  /** The groups run since `before`, after the first `b` batches. */
  predicate RanUpTo(before: seq<seq<nat>>, ran: seq<seq<nat>>, parallel: bool, batches: seq<seq<nat>>, b: int) {
    0 <= b <= |batches| && ran == before + AllGroups(parallel, batches[..b])
  }

  lemma RanOneMore(before: seq<seq<nat>>, ran: seq<seq<nat>>, parallel: bool, batches: seq<seq<nat>>, b: nat)
    requires b < |batches| && RanUpTo(before, ran, parallel, batches, b)
    ensures RanUpTo(before, ran + Groups(parallel, batches[b]), parallel, batches, b + 1)
  {
    AllGroupsPush(parallel, batches, b);
  }

  lemma RanAll(before: seq<seq<nat>>, ran: seq<seq<nat>>, parallel: bool, batches: seq<seq<nat>>)
    requires RanUpTo(before, ran, parallel, batches, |batches|)
    ensures ran == before + AllGroups(parallel, batches)
  {
    assert batches[..|batches|] == batches;
  }

  /** The same within a batch, after its first `k` calls. */
  predicate RanSingles(before: seq<seq<nat>>, ran: seq<seq<nat>>, batch: seq<nat>, k: int) {
    0 <= k <= |batch| && ran == before + OneByOne(batch)[..k]
  }

  lemma RanOneSingle(before: seq<seq<nat>>, ran: seq<seq<nat>>, batch: seq<nat>, k: nat)
    requires k < |batch| && RanSingles(before, ran, batch, k)
    ensures RanSingles(before, ran + [[batch[k]]], batch, k + 1)
  {
    assert OneByOne(batch)[..k + 1] == OneByOne(batch)[..k] + [[batch[k]]];
  }

  lemma RanAllSingles(before: seq<seq<nat>>, ran: seq<seq<nat>>, batch: seq<nat>)
    requires RanSingles(before, ran, batch, |batch|)
    ensures ran == before + OneByOne(batch)
  {
    assert OneByOne(batch)[..|batch|] == OneByOne(batch);
  }

  lemma OneByOnePush(batch: seq<nat>, k: nat)
    requires k < |batch|
    ensures OneByOne(batch[..k + 1]) == OneByOne(batch[..k]) + [[batch[k]]]
  {
  }

  predicate AllSingles(groups: seq<seq<nat>>) { forall g :: 0 <= g < |groups| ==> |groups[g]| <= 1 }

  /** Where calls may not run together every group is a single call. */
  lemma {:induction false} SequentialGroups(batches: seq<seq<nat>>)
    ensures AllSingles(AllGroups(false, batches))
  {
    if batches != [] {
      SequentialGroups(batches[..|batches| - 1]);
    }
  }
}
