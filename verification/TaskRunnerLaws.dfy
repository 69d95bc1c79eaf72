/** Safety of the runner over every interleaving of its steps, with crashes, restarts, faults
    and cancellations anywhere. */
module TaskRunnerLaws {
  import opened Basics
  import opened TaskRunner

  // ---------------------------------------------------------------- what every step keeps

  /** The message may be acknowledged now: it is malformed, about no task, or about a task whose
      status is settled (waiting, finished, failed or stopped). */
  predicate Excused(r: Runner, m: nat) {
    m in r.messages &&
    (Malformed(r.messages[m]) || r.messages[m].taskId.value !in r.tasks || Settles(r.tasks[r.messages[m].taskId.value]))
  }

  /** Coroutines are filed under their own task and hold a reservation; past the slot their message is
      well formed, unless it is being acknowledged: then it is excused at this moment. */
  predicate Filed(r: Runner, k: Key)
    requires k in r.active
  {
    var c := r.active[k];
    && c.message in r.messages && KeyOf(c.message, r.messages[c.message]) == k && c.message in r.reserved
    && (c.at.Acknowledging? ==> Excused(r, c.message))
    && (!c.at.ForSlot? && !c.at.Acknowledging? ==> !Malformed(r.messages[c.message]))
  }

  ghost predicate Safe(r: Runner) {
    && (forall k :: k in r.active ==> Filed(r, k))
    && r.fetched <= r.reserved && r.stale <= r.reserved && (!r.looping ==> r.fetched == {})
    && (forall m :: m in r.reserved || m in r.acked || m in r.inflight ==> m in r.messages)
  }

  /** Tasks and messages stay, a message about no task stays about no task, and no status but that of
      `task` changes. */
  predicate Keeps(r: Runner, next: Runner, task: nat) {
    && (forall m :: m in r.messages ==> m in next.messages && next.messages[m] == r.messages[m])
    && (forall t :: t in r.tasks ==> t in next.tasks && (t == task || next.tasks[t] == r.tasks[t]))
    && (forall m :: m in r.messages && r.messages[m].taskId.Some? && r.messages[m].taskId.value !in r.tasks
          ==> r.messages[m].taskId.value !in next.tasks)
    && r.reserved <= next.reserved
  }

  /** Another coroutine of a kept state is filed as it was: it works on another task. */
  lemma StaysFiled(r: Runner, next: Runner, task: nat, k: Key)
    requires k in r.active && Filed(r, k) && Keeps(r, next, task) && k != TaskKey(task)
    requires k in next.active && next.active[k] == r.active[k]
    ensures Filed(next, k)
  {
  }

  /** What a step of one coroutine changes: itself, the status of its own task, and at most the
      acknowledgement of its own message. */
  ghost predicate StepOf(r: Runner, next: Runner, key: Key)
    requires key in r.active
  {
    && Keeps(r, next, TaskOf(r, key)) && next.reserved == r.reserved && next.stale == r.stale
    && next.fetched == r.fetched && next.looping == r.looping && next.messages == r.messages
    && (forall k :: k in next.active && k != key ==> k in r.active && next.active[k] == r.active[k])
    && (key in next.active ==> next.active[key].message == r.active[key].message)
    && (forall m :: m in next.acked || m in next.inflight ==>
          m in r.acked || m in r.inflight || (m == r.active[key].message && r.active[key].at.Acknowledging?))
  }

  lemma WriteKeeps(r: Runner, task: nat, status: Status)
    ensures Keeps(r, SetStatus(r, task, status), task)
  {
  }

  /** The status a coroutine writes is that of its own task, and nothing else is written with it. */
  lemma AppliedKeeps(r: Runner, key: Key, applied: bool)
    requires key in r.active
    ensures var next := Applied(r, key, applied); Keeps(r, next, TaskOf(r, key)) && next == r.(tasks := next.tasks)
  {
    var task := TaskOf(r, key);
    WriteKeeps(r, task, Running);
    WriteKeeps(r, task, Waiting);
    WriteKeeps(r, task, Failed);
    WriteKeeps(r, task, Completed);
  }

  lemma ProceedLeaves(r: Runner, key: Key, result: Execution, k: Key)
    requires key in r.active && k != key && k in Proceed(r, key, result).active
    ensures k in r.active && Proceed(r, key, result).active[k] == r.active[k]
  {
  }

  lemma ProceedKeepsMessage(r: Runner, key: Key, result: Execution)
    requires key in r.active && key in Proceed(r, key, result).active
    ensures Proceed(r, key, result).active[key].message == r.active[key].message
  {
  }

  lemma ProceedWrites(r: Runner, key: Key, result: Execution)
    requires key in r.active
    ensures var next := Proceed(r, key, result);
            && next == Applied(r, key, true).(active := next.active, acked := next.acked)
            && next.acked == (if r.active[key].at.Acknowledging? then r.acked + {r.active[key].message} else r.acked)
  {
  }

  lemma ProceedIsStep(r: Runner, key: Key, result: Execution)
    requires key in r.active
    ensures StepOf(r, Proceed(r, key, result), key)
  {
    var next := Proceed(r, key, result);
    forall k | k in next.active && k != key ensures k in r.active && next.active[k] == r.active[k] {
      ProceedLeaves(r, key, result, k);
    }
    if key in next.active {
      ProceedKeepsMessage(r, key, result);
    }
    ProceedWrites(r, key, result);
    AppliedKeeps(r, key, true);
  }

  lemma CancelMoves(r: Runner, key: Key, applied: bool)
    requires key in r.active
    ensures var next := Cancelling(r, key, applied);
            && (forall k :: k in next.active && k != key ==> k in r.active && next.active[k] == r.active[k])
            && (key in next.active ==> next.active[key].message == r.active[key].message)
  {
  }

  lemma CancelWrites(r: Runner, key: Key, applied: bool)
    requires key in r.active
    ensures var next := Cancelling(r, key, applied);
            && next == Applied(r, key, applied).(active := next.active, inflight := next.inflight)
            && next.inflight ==
                 (if r.active[key].at.Acknowledging? then r.inflight + {r.active[key].message} else r.inflight)
  {
  }

  lemma CancelIsStep(r: Runner, key: Key, applied: bool)
    requires key in r.active
    ensures StepOf(r, Cancelling(r, key, applied), key)
  {
    CancelMoves(r, key, applied);
    CancelWrites(r, key, applied);
    AppliedKeeps(r, key, applied);
  }

  lemma FaultIsStep(r: Runner, key: Key)
    requires key in r.active
    ensures StepOf(r, Raising(r, key), key)
  {
  }

  /** The step of one coroutine that is active. */
  predicate IsCoroutineStep(r: Runner, s: Step) { (s.Resume? || s.Cancel? || s.Fault?) && s.key in r.active }

  lemma CoroutineIsStep(r: Runner, s: Step)
    requires IsCoroutineStep(r, s)
    ensures StepOf(r, Do(r, s), s.key)
  {
    match s
    case Resume(key, result) => ProceedIsStep(r, key, result);
    case Cancel(key, applied) => CancelIsStep(r, key, applied);
    case Fault(key) => FaultIsStep(r, key);
  }

  /** Where a coroutine starts to acknowledge, its message is excused. */
  lemma ProceedFiled(r: Runner, key: Key, result: Execution)
    requires key in r.active && Filed(r, key) && key in Proceed(r, key, result).active
    ensures Filed(Proceed(r, key, result), key)
  {
  }

  lemma CancelFiled(r: Runner, key: Key, applied: bool)
    requires key in r.active && Filed(r, key) && key in Cancelling(r, key, applied).active
    ensures Filed(Cancelling(r, key, applied), key)
  {
  }

  lemma FaultFiled(r: Runner, key: Key)
    requires key in r.active && Filed(r, key) && key in Raising(r, key).active
    ensures Filed(Raising(r, key), key)
  {
  }

  /** A coroutine that writes no status of its own task leaves the others of any task alone; one that
      writes its task's status is the only one of that task. */
  lemma StepKeepsSafe(r: Runner, next: Runner, key: Key)
    requires Safe(r) && key in r.active && StepOf(r, next, key)
    requires key in next.active ==> Filed(next, key)
    requires r.active[key].at.ForSlot? || r.active[key].at.Acknowledging? ==> next.tasks == r.tasks
    ensures Safe(next)
  {
    assert Filed(r, key);
    forall k | k in next.active ensures Filed(next, k) {
      if k != key {
        assert Filed(r, k);
        if next.tasks != r.tasks {
          StaysFiled(r, next, TaskOf(r, key), k);
        }
      }
    }
  }

  /** Steps that are not of a coroutine. */
  lemma OutsideSafe(r: Runner, s: Step)
    requires Safe(r) && !s.Resume? && !s.Cancel? && !s.Fault?
    ensures Safe(Do(r, s))
  {
    var next := Do(r, s);
    forall k | k in next.active ensures Filed(next, k) {
      if k in r.active {
        assert Filed(r, k);
      }
    }
  }

  lemma CoroutineFiled(r: Runner, s: Step)
    requires IsCoroutineStep(r, s) && Filed(r, s.key) && s.key in Do(r, s).active
    ensures Filed(Do(r, s), s.key)
  {
    match s
    case Resume(key, result) => ProceedFiled(r, key, result);
    case Cancel(key, applied) => CancelFiled(r, key, applied);
    case Fault(key) => FaultFiled(r, key);
  }

  /** Where a coroutine waits for its slot or acknowledges it writes no status. */
  lemma WritesNothing(r: Runner, s: Step)
    requires IsCoroutineStep(r, s) && (r.active[s.key].at.ForSlot? || r.active[s.key].at.Acknowledging?)
    ensures Do(r, s).tasks == r.tasks
  {
  }

  lemma DoSafe(r: Runner, s: Step)
    requires Safe(r)
    ensures Safe(Do(r, s))
  {
    if IsCoroutineStep(r, s) {
      assert Filed(r, s.key);
      CoroutineIsStep(r, s);
      if s.key in Do(r, s).active {
        CoroutineFiled(r, s);
      }
      if r.active[s.key].at.ForSlot? || r.active[s.key].at.Acknowledging? {
        WritesNothing(r, s);
      }
      StepKeepsSafe(r, Do(r, s), s.key);
    } else if !s.Resume? && !s.Cancel? && !s.Fault? {
      OutsideSafe(r, s);
    }
  }

  lemma {:induction false} SafeFrom(r: Runner, steps: seq<Step>)
    requires Safe(r)
    ensures Safe(DoFrom(r, steps))
  {
    if steps != [] {
      SafeFrom(r, steps[..|steps| - 1]);
      DoSafe(DoFrom(r, steps[..|steps| - 1]), steps[|steps| - 1]);
    }
  }

  lemma SafeAlways(max: nat, steps: seq<Step>)
    ensures Safe(DoAll(max, steps))
  {
    SafeFrom(Idle(max), steps);
  }

  // ---------------------------------------------------------------- acknowledgements

  lemma DoEach(r: Runner, a: seq<Step>, b: seq<Step>)
    ensures DoFrom(r, a + b) == DoFrom(DoFrom(r, a), b)
    decreases |b|
  {
    if b == [] {
      assert a + b == a;
    } else {
      DoEach(r, a, b[..|b| - 1]);
      assert (a + b)[..|a + b| - 1] == a + b[..|b| - 1];
    }
  }

  /** In every reachable state, whoever is acknowledging a message does so while it is excused. */
  lemma AcknowledgingIsExcused(max: nat, steps: seq<Step>, k: Key)
    requires k in DoAll(max, steps).active && DoAll(max, steps).active[k].at.Acknowledging?
    ensures Excused(DoAll(max, steps), DoAll(max, steps).active[k].message)
  {
    SafeAlways(max, steps);
    assert Filed(DoAll(max, steps), k);
  }

  /** After the first `i` steps the acknowledgement of the message is decided: a coroutine is about
      to write it, and at that moment the message is excused. */
  predicate DecidedAt(max: nat, steps: seq<Step>, i: nat, m: nat) {
    i <= |steps| && AckedBy(DoAll(max, steps[..i]), m) && Excused(DoAll(max, steps[..i]), m)
  }

  lemma StillDecided(max: nat, steps: seq<Step>, n: nat, i: nat, m: nat)
    requires n <= |steps| && DecidedAt(max, steps[..n], i, m)
    ensures DecidedAt(max, steps, i, m)
  {
    assert steps[..n][..i] == steps[..i];
  }

  lemma DecidedBefore(max: nat, steps: seq<Step>, m: nat)
    requires steps != [] && AckedBy(DoAll(max, steps[..|steps| - 1]), m)
    ensures DecidedAt(max, steps, |steps| - 1, m)
  {
    var r := DoAll(max, steps[..|steps| - 1]);
    SafeAlways(max, steps[..|steps| - 1]);
    AckedByIsExcused(r, m);
  }

  /** A step acknowledges, or detaches the acknowledgement of, a message only if a coroutine was
      acknowledging it or it was detached before. */
  lemma NewlyAcked(r: Runner, s: Step, m: nat)
    requires m in Do(r, s).acked || m in Do(r, s).inflight
    ensures m in r.acked || m in r.inflight || AckedBy(r, m)
  {
    if IsCoroutineStep(r, s) {
      CoroutineIsStep(r, s);
    }
  }

  /** Every acknowledgement was decided under an excuse that held when it was decided: for any run,
      and also for those that are still under way without their coroutine. */
  lemma {:induction false} AcknowledgementsAreDecided(max: nat, steps: seq<Step>, m: nat)
    requires m in DoAll(max, steps).acked || m in DoAll(max, steps).inflight
    ensures exists i :: DecidedAt(max, steps, i, m)
  {
    var n := |steps| - 1;
    var r := DoAll(max, steps[..n]);
    NewlyAcked(r, steps[n], m);
    if AckedBy(r, m) {
      DecidedBefore(max, steps, m);
    } else {
      AcknowledgementsAreDecided(max, steps[..n], m);
      var i :| DecidedAt(max, steps[..n], i, m);
      StillDecided(max, steps, n, i, m);
    }
  }

  lemma OnlyLands(r: Runner, s: Step, m: nat)
    requires m in Do(r, s).acked && m !in r.acked && !AckedBy(r, m)
    ensures s == AckLands(m)
  {
    match s
    case Resume(key, result) => if key in r.active { ProceedWrites(r, key, result); }
    case Cancel(key, applied) => if key in r.active { CancelWrites(r, key, applied); }
    case _ =>
  }

  lemma AckedByIsExcused(r: Runner, m: nat)
    requires Safe(r) && AckedBy(r, m)
    ensures Excused(r, m)
  {
    var k :| k in r.active && r.active[k].at.Acknowledging? && r.active[k].message == m;
    assert Filed(r, k);
  }

  /** The excuse still holds when the coroutine itself writes the acknowledgement; only one that was
      detached from its coroutine may land later. */
  lemma AcknowledgedUnderItsExcuse(max: nat, steps: seq<Step>, s: Step, m: nat)
    requires m in DoAll(max, steps + [s]).acked && m !in DoAll(max, steps).acked
    ensures Excused(DoAll(max, steps), m) || (s == AckLands(m) && m in DoAll(max, steps).inflight)
  {
    var r := DoAll(max, steps);
    DoMore(Idle(max), steps, s);
    SafeAlways(max, steps);
    NewlyAcked(r, s, m);
    if AckedBy(r, m) {
      AckedByIsExcused(r, m);
    } else {
      OnlyLands(r, s, m);
    }
  }

  // ---------------------------------------------------------------- concurrency

  /** Coroutines of different keys never work on the same task: each task has at most one. */
  lemma OneCoroutinePerTask(max: nat, steps: seq<Step>, k: Key, l: Key)
    requires var r := DoAll(max, steps);
             && k in r.active && l in r.active
             && r.active[k].message in r.messages && r.active[l].message in r.messages
             && r.messages[r.active[k].message].taskId.Some?
             && r.messages[r.active[k].message].taskId == r.messages[r.active[l].message].taskId
    ensures k == l
  {
    SafeAlways(max, steps);
    var r := DoAll(max, steps);
    assert Filed(r, k) && Filed(r, l);
  }

  lemma SubsetSize<T>(a: set<T>, b: set<T>)
    requires a <= b
    ensures |a| <= |b|
  {
    assert b == a + (b - a);
  }

  lemma HoldersBy(r: Runner, next: Runner, max: nat)
    requires forall k :: k in next.active && !next.active[k].at.ForSlot? ==> k in r.active && !r.active[k].at.ForSlot?
    requires |Holders(r)| <= max
    ensures |Holders(next)| <= max
  {
    assert Holders(next) <= Holders(r);
    SubsetSize(Holders(next), Holders(r));
  }

  lemma ResumeHolders(r: Runner, key: Key, result: Execution)
    requires key in r.active && |Holders(r)| <= r.max
    ensures |Holders(Proceed(r, key, result))| <= r.max
  {
    var next := Proceed(r, key, result);
    ProceedIsStep(r, key, result);
    if r.active[key].at.ForSlot? {
      if |Holders(r)| < r.max {
        assert Holders(next) == Holders(r) + {key};
      } else {
        assert Holders(next) == Holders(r);
      }
    } else {
      HoldersBy(r, next, r.max);
    }
  }

  lemma OtherHolders(r: Runner, s: Step)
    requires |Holders(r)| <= r.max && (s.Resume? ==> s.key !in r.active)
    ensures |Holders(Do(r, s))| <= r.max
  {
    if s.Cancel? && s.key in r.active {
      CancelIsStep(r, s.key, s.applied);
    }
    HoldersBy(r, Do(r, s), r.max);
  }

  lemma SameMax(r: Runner, s: Step)
    ensures Do(r, s).max == r.max
  {
  }

  /** At most `max` coroutines are past the slot at once. */
  lemma {:induction false} HandlersAreBounded(max: nat, steps: seq<Step>)
    ensures DoAll(max, steps).max == max && |Holders(DoAll(max, steps))| <= max
  {
    if steps == [] {
      assert Holders(Idle(max)) == {};
    } else {
      var r, s := DoAll(max, steps[..|steps| - 1]), steps[|steps| - 1];
      HandlersAreBounded(max, steps[..|steps| - 1]);
      SameMax(r, s);
      if s.Resume? && s.key in r.active {
        ResumeHolders(r, s.key, s.result);
      } else {
        OtherHolders(r, s);
      }
    }
  }


  // ---------------------------------------------------------------- shutdown

  /** After a shutdown: nothing comes in, and whoever is acknowledging works for an aborted task. */
  ghost predicate Draining(r: Runner) {
    && Safe(r) && !r.looping
    && forall k :: k in r.active ==> r.active[k].at.LookingUpCancelled? || r.active[k].at.Acknowledging?
  }

  /** A coroutine that was cancelled finds the message's task aborted. */
  predicate FoundAborted(r: Runner, m: nat) {
    && m in r.messages && r.messages[m].taskId.Some? && r.messages[m].taskId.value in r.tasks
    && Aborted(r.tasks[r.messages[m].taskId.value])
    && exists k :: k in r.active && r.active[k].at.LookingUpCancelled? && r.active[k].message == m
  }

  /** One step of a runner that is draining. */
  lemma DrainsOn(r: Runner, s: Step)
    requires Draining(r) && !s.Restart?
    ensures Draining(Do(r, s))
  {
    DoSafe(r, s);
    if IsCoroutineStep(r, s) {
      CoroutineIsStep(r, s);
    }
  }

  /** Who starts to acknowledge then had looked its task up and found it aborted. */
  lemma StartsToAcknowledge(r: Runner, s: Step, m: nat)
    requires Draining(r) && !s.Restart? && AckedBy(Do(r, s), m) && !AckedBy(r, m)
    ensures FoundAborted(r, m)
  {
    var next := Do(r, s);
    var k :| k in next.active && next.active[k].at.Acknowledging? && next.active[k].message == m;
    if IsCoroutineStep(r, s) {
      assert Filed(r, s.key);
      CoroutineIsStep(r, s);
    }
  }

  /** The acknowledgement was under way before the steps, or the message's task was found aborted in
      between by the coroutine that was cancelled. */
  ghost predicate Warranted(r: Runner, steps: seq<Step>, m: nat) {
    || m in r.acked || m in r.inflight || AckedBy(r, m)
    || exists i :: 0 <= i < |steps| && FoundAborted(DoFrom(r, steps[..i]), m)
  }

  lemma WarrantedMore(r: Runner, steps: seq<Step>, m: nat)
    requires steps != []
    requires Warranted(r, steps[..|steps| - 1], m) || FoundAborted(DoFrom(r, steps[..|steps| - 1]), m)
    ensures Warranted(r, steps, m)
  {
    var front := steps[..|steps| - 1];
    if i :| 0 <= i < |front| && FoundAborted(DoFrom(r, front[..i]), m) {
      assert steps[..i] == front[..i];
    }
  }

  lemma {:induction false} DrainedAcks(r: Runner, steps: seq<Step>, m: nat)
    requires Draining(r) && forall i :: 0 <= i < |steps| ==> !steps[i].Restart?
    ensures Draining(DoFrom(r, steps))
    ensures var next := DoFrom(r, steps);
            m in next.acked || m in next.inflight || AckedBy(next, m) ==> Warranted(r, steps, m)
  {
    if steps != [] {
      var front, s := steps[..|steps| - 1], steps[|steps| - 1];
      DrainedAcks(r, front, m);
      var mid, next := DoFrom(r, front), DoFrom(r, steps);
      DrainsOn(mid, s);
      if m in next.acked || m in next.inflight {
        NewlyAcked(mid, s, m);
        WarrantedMore(r, steps, m);
      } else if AckedBy(next, m) {
        if !AckedBy(mid, m) {
          StartsToAcknowledge(mid, s, m);
        }
        WarrantedMore(r, steps, m);
      }
    }
  }

  /** The coroutines that the first `n` steps of a shutdown have not cancelled. */
  function Uncancelled(r: Runner, steps: seq<Step>, n: nat): set<Key>
    requires n <= |steps| && forall i :: 0 < i < n ==> steps[i].Cancel?
  {
    set k | k in r.active && forall i :: 0 < i < n ==> steps[i].key != k
  }

  lemma UncancelledNext(r: Runner, steps: seq<Step>, applied: Key -> bool, n: nat)
    requires IsShutdown(r, steps, applied) && 1 < n <= |steps|
    ensures Uncancelled(r, steps, n) == Uncancelled(r, steps, n - 1) - {steps[n - 1].key}
    ensures steps[n - 1] == Cancel(steps[n - 1].key, steps[n - 1].applied)
  {
  }

  lemma StopsOneMore(was: Runner, r: Runner, keys: set<Key>, s: Step)
    requires Stopping(was, r, keys) && s.Cancel? && (forall k :: k in r.active ==> k in keys || k != s.key)
    ensures Stopping(was, Do(r, s), keys - {s.key})
  {
    if s.key in keys {
      StopOneMore(was, r, keys, s.key, s.applied);
    }
  }

  /** The coroutine that a step cancels is one of those not cancelled, or none. */
  lemma NotYetCancelled(was: Runner, r: Runner, steps: seq<Step>, applied: Key -> bool, n: nat)
    requires IsShutdown(was, steps, applied) && 1 < n <= |steps| && Stopping(was, r, Uncancelled(was, steps, n - 1))
    ensures forall k :: k in r.active ==> k in Uncancelled(was, steps, n - 1) || k != steps[n - 1].key
  {
  }

  lemma {:induction false} ShutdownStops(r: Runner, steps: seq<Step>, applied: Key -> bool, n: nat)
    requires IsShutdown(r, steps, applied) && 0 < n <= |steps|
    ensures Stopping(r, DoFrom(r, steps[..n]), Uncancelled(r, steps, n))
  {
    var front := steps[..n - 1];
    DoMore(r, front, steps[n - 1]);
    assert steps[..n] == front + [steps[n - 1]];
    if n == 1 {
      assert DoFrom(r, front) == r;
      assert Uncancelled(r, steps, n) == r.active.Keys;
    } else {
      ShutdownStops(r, steps, applied, n - 1);
      UncancelledNext(r, steps, applied, n);
      NotYetCancelled(r, DoFrom(r, front), steps, applied, n);
      StopsOneMore(r, DoFrom(r, front), Uncancelled(r, steps, n - 1), steps[n - 1]);
    }
  }

  lemma ShutdownDrains(r: Runner, steps: seq<Step>, applied: Key -> bool)
    requires Safe(r) && IsShutdown(r, steps, applied)
    ensures Draining(DoFrom(r, steps)) && Stopping(r, DoFrom(r, steps), {})
  {
    SafeFrom(r, steps);
    ShutdownStops(r, steps, applied, |steps|);
    assert steps[..|steps|] == steps;
    assert Uncancelled(r, steps, |steps|) == {};
  }

  /** A shutdown in any reachable state, and then anything but a new start: a message that is
      acknowledged was being acknowledged when the shutdown began, or the coroutine that was
      cancelled found its task aborted. Unfinished work is never acknowledged by a shutdown. */
  lemma ShutdownAcknowledgesOnlyAborted(max: nat, steps: seq<Step>, stop: seq<Step>, applied: Key -> bool,
                                        more: seq<Step>, m: nat)
    requires IsShutdown(DoAll(max, steps), stop, applied)
    requires forall i :: 0 <= i < |more| ==> !more[i].Restart?
    requires m in DoFrom(DoFrom(DoAll(max, steps), stop), more).acked && m !in DoAll(max, steps).acked
    ensures var r := DoAll(max, steps);
            || m in r.inflight || AckedBy(r, m)
            || exists i :: 0 <= i < |more| && FoundAborted(DoFrom(DoFrom(r, stop), more[..i]), m)
  {
    var r := DoAll(max, steps);
    SafeAlways(max, steps);
    ShutdownDrains(r, stop, applied);
    DrainedAcks(DoFrom(r, stop), more, m);
  }

  // ---------------------------------------------------------------- delivery

  /** A message is delivered only by reserving it, if nobody has, or by reclaiming it, if its
      reservation is old; either way it is unacknowledged and the loop runs. */
  lemma DeliveredExactly(r: Runner, s: Step, m: nat)
    requires m !in r.fetched
    ensures m in Do(r, s).fetched <==>
              && r.looping && m !in r.acked
              && ((s == Fetch(m) && m in r.messages && m !in r.reserved) || (s == Reclaim(m) && m in r.stale))
  {
    if IsCoroutineStep(r, s) {
      CoroutineIsStep(r, s);
    }
  }

  /** A reservation is given up only by a new start, which needs that nobody works any more. */
  lemma ReleasedOnlyByRestart(r: Runner, s: Step, m: nat)
    requires m in r.reserved && m !in Do(r, s).reserved
    ensures s == Restart && !r.looping && r.active == map[] && m !in r.acked
  {
    if IsCoroutineStep(r, s) {
      CoroutineIsStep(r, s);
    }
  }

  /** Over any run, what is worked on or was delivered is reserved, so that reserving never delivers
      it a second time; reclaiming it may, and then its coroutine is left alone. */
  lemma WorkIsReserved(max: nat, steps: seq<Step>, m: nat)
    requires var r := DoAll(max, steps);
             m in r.fetched || exists k :: k in r.active && r.active[k].message == m
    ensures var r := DoAll(max, steps);
            m in r.reserved && Do(r, Fetch(m)) == r
    ensures var r := DoAll(max, steps);
            forall k :: k in r.active && r.active[k].message == m ==> Do(Do(r, Reclaim(m)), Start(m)).active == r.active
  {
    SafeAlways(max, steps);
    var r := DoAll(max, steps);
    forall k | k in r.active && r.active[k].message == m
      ensures m in r.reserved && Do(Do(r, Reclaim(m)), Start(m)).active == r.active
    {
      assert Filed(r, k);
    }
  }

  /** Without a new start and without reclaiming it, a reserved message is never delivered again. */
  lemma {:induction false} ReservedStaysUndelivered(r: Runner, steps: seq<Step>, m: nat)
    requires m in r.reserved && m !in r.fetched
    requires forall i :: 0 <= i < |steps| ==> !steps[i].Restart? && steps[i] != Reclaim(m)
    ensures m in DoFrom(r, steps).reserved && m !in DoFrom(r, steps).fetched
  {
    if steps != [] {
      var front, s := steps[..|steps| - 1], steps[|steps| - 1];
      ReservedStaysUndelivered(r, front, m);
      DeliveredExactly(DoFrom(r, front), s, m);
      if m !in Do(DoFrom(r, front), s).reserved {
        ReleasedOnlyByRestart(DoFrom(r, front), s, m);
      }
    }
  }

  // ---------------------------------------------------------------- unfinished work

  lemma DoOne(r: Runner, a: Step)
    ensures DoFrom(r, [a]) == Do(r, a)
  {
    assert DoFrom(r, [a]) == Do(DoFrom(r, []), a);
  }

  lemma DoThree(r: Runner, a: Step, b: Step, c: Step)
    ensures DoFrom(r, [a, b, c]) == Do(Do(Do(r, a), b), c)
  {
    DoOne(r, a);
    DoMore(r, [a], b);
    DoMore(r, [a] + [b], c);
    assert [a, b, c] == [a] + [b] + [c];
  }

  lemma DoFive(r: Runner, a: Step, b: Step, c: Step, d: Step, e: Step)
    ensures DoFrom(r, [a, b, c, d, e]) == Do(Do(Do(Do(Do(r, a), b), c), d), e)
  {
    DoThree(r, a, b, c);
    DoMore(r, [a, b, c], d);
    DoMore(r, [a, b, c] + [d], e);
    assert [a, b, c, d, e] == [a, b, c] + [d] + [e];
  }

  /** A coroutine of the message waits at this place. */
  predicate IsAt(r: Runner, m: nat, task: nat, at: Place) {
    && m in r.messages && r.messages[m].taskId == Some(task) && !Malformed(r.messages[m])
    && TaskKey(task) in r.active && r.active[TaskKey(task)] == Coroutine(m, at)
  }

  /** The message is well formed, about this task and not acknowledged. */
  predicate Pending(r: Runner, m: nat, task: nat) {
    && m in r.messages && r.messages[m].taskId == Some(task) && !Malformed(r.messages[m]) && m !in r.acked
  }

  /** What a delivery that leads to a lookup changes. */
  predicate TookUp(r: Runner, next: Runner, m: nat, task: nat) {
    && IsAt(next, m, task, LookingUp) && next.tasks == r.tasks && next.messages == r.messages && next.acked == r.acked
    && next.looping && next.max == r.max
  }

  lemma TakesSlot(r: Runner, m: nat, task: nat)
    requires r.looping && Pending(r, m, task) && m in r.fetched && TaskKey(task) !in r.active && |Holders(r)| < r.max
    ensures TookUp(r, Do(Do(r, Start(m)), Resume(TaskKey(task), Done)), m, task)
  {
    var started := Do(r, Start(m));
    assert started.active == r.active[TaskKey(task) := Coroutine(m, ForSlot)];
    assert Holders(started) == Holders(r);
  }

  /** The process dies, starts again, reserves and starts the message. */
  function ByRestart(m: nat, task: nat): seq<Step> {
    [Crash, Restart, Fetch(m), Start(m), Resume(TaskKey(task), Done)]
  }

  /** The reservation grows old and is reclaimed; an unreserved message is reserved. */
  function Redeliver(r: Runner, m: nat): seq<Step> {
    if m in r.reserved then [Age(m), Reclaim(m)] else [Fetch(m)]
  }

  function ByReclaim(r: Runner, m: nat, task: nat): seq<Step> {
    Redeliver(r, m) + [Start(m), Resume(TaskKey(task), Done)]
  }

  /** Whatever happened, and wherever the process stopped: a message that is not acknowledged is
      released by the next start, delivered and looked up. */
  lemma TakenUpByRestart(max: nat, steps: seq<Step>, m: nat, task: nat)
    requires max > 0 && Pending(DoAll(max, steps), m, task)
    ensures TookUp(DoAll(max, steps), DoAll(max, steps + ByRestart(m, task)), m, task)
  {
    var r := DoAll(max, steps);
    HandlersAreBounded(max, steps);
    var fetched := Do(Do(Do(r, Crash), Restart), Fetch(m));
    assert Holders(fetched) == {};
    TakesSlot(fetched, m, task);
    DoFive(r, Crash, Restart, Fetch(m), Start(m), Resume(TaskKey(task), Done));
    DoEach(Idle(max), steps, ByRestart(m, task));
  }

  /** Without a restart the same message is taken up once its reservation is old, if nobody works on
      its task and a slot is free. */
  lemma TakenUpByReclaim(max: nat, steps: seq<Step>, m: nat, task: nat)
    requires var r := DoAll(max, steps);
             Pending(r, m, task) && r.looping && TaskKey(task) !in r.active && |Holders(r)| < max
    ensures TookUp(DoAll(max, steps), DoAll(max, steps + ByReclaim(DoAll(max, steps), m, task)), m, task)
  {
    var r := DoAll(max, steps);
    HandlersAreBounded(max, steps);
    var mid := DoFrom(r, Redeliver(r, m));
    if m in r.reserved {
      DoOne(r, Age(m));
      DoMore(r, [Age(m)], Reclaim(m));
      assert [Age(m)] + [Reclaim(m)] == Redeliver(r, m);
    } else {
      DoOne(r, Fetch(m));
    }
    assert Holders(mid) == Holders(r);
    TakesSlot(mid, m, task);
    DoOne(mid, Start(m));
    DoMore(mid, [Start(m)], Resume(TaskKey(task), Done));
    assert [Start(m), Resume(TaskKey(task), Done)] == [Start(m)] + [Resume(TaskKey(task), Done)];
    DoEach(r, Redeliver(r, m), [Start(m), Resume(TaskKey(task), Done)]);
    DoEach(Idle(max), steps, ByReclaim(r, m, task));
  }

  /** Messages stay as they are, and one about no task stays about none. */
  lemma DoPersists(r: Runner, s: Step, m: nat)
    requires m in r.messages
    ensures m in Do(r, s).messages && Do(r, s).messages[m] == r.messages[m]
    ensures r.messages[m].taskId.Some? && r.messages[m].taskId.value !in r.tasks
            ==> r.messages[m].taskId.value !in Do(r, s).tasks
  {
    if IsCoroutineStep(r, s) {
      CoroutineIsStep(r, s);
    }
  }

  lemma {:induction false} Persists(max: nat, steps: seq<Step>, n: nat, m: nat)
    requires n <= |steps| && m in DoAll(max, steps[..n]).messages
    ensures var r, next := DoAll(max, steps[..n]), DoAll(max, steps);
            && m in next.messages && next.messages[m] == r.messages[m]
            && (r.messages[m].taskId.Some? && r.messages[m].taskId.value !in r.tasks
                ==> r.messages[m].taskId.value !in next.tasks)
  {
    if n == |steps| {
      assert steps[..n] == steps;
    } else {
      var front := steps[..|steps| - 1];
      assert front[..n] == steps[..n];
      Persists(max, front, n, m);
      DoPersists(DoAll(max, front), steps[|steps| - 1], m);
    }
  }

  /** At no time was the status of the task settled. */
  ghost predicate NeverSettled(max: nat, steps: seq<Step>, task: nat) {
    forall i :: 0 <= i <= |steps| && task in DoAll(max, steps[..i]).tasks
      ==> !Settles(DoAll(max, steps[..i]).tasks[task])
  }

  lemma NotDecided(max: nat, steps: seq<Step>, m: nat, task: nat, i: nat)
    requires var r := DoAll(max, steps);
             m in r.messages && r.messages[m].taskId == Some(task) && !Malformed(r.messages[m]) && task in r.tasks
    requires NeverSettled(max, steps, task)
    ensures !DecidedAt(max, steps, i, m)
  {
    if i <= |steps| && m in DoAll(max, steps[..i]).messages {
      Persists(max, steps, i, m);
    }
  }

  /** Unfinished work is never lost: as long as a task never settled its message is not acknowledged,
      so that the next start takes it up. */
  lemma UnsettledWorkCanBeTakenUp(max: nat, steps: seq<Step>, m: nat, task: nat)
    requires max > 0
    requires var r := DoAll(max, steps);
             m in r.messages && r.messages[m].taskId == Some(task) && !Malformed(r.messages[m]) && task in r.tasks
    requires NeverSettled(max, steps, task)
    ensures Pending(DoAll(max, steps), m, task)
    ensures TookUp(DoAll(max, steps), DoAll(max, steps + ByRestart(m, task)), m, task)
  {
    forall i: nat ensures !DecidedAt(max, steps, i, m) {
      NotDecided(max, steps, m, task, i);
    }
    if m in DoAll(max, steps).acked {
      AcknowledgementsAreDecided(max, steps, m);
    }
    TakenUpByRestart(max, steps, m, task);
  }

  // ---------------------------------------------------------------- what is not promised

  /** As above, with a message whose type the runner supports and whose task exists. */
  predicate Ready(r: Runner, m: nat, task: nat, at: Place) {
    IsAt(r, m, task, at) && r.messages[m].supported && task in r.tasks
  }

  /** The lookup and the mark that the task runs; only a task whose status is aborted is passed over. */
  lemma LookedUp(r: Runner, m: nat, task: nat)
    requires Ready(r, m, task, LookingUp)
    ensures var go := Resume(TaskKey(task), Done);
            var next := Do(Do(r, go), go);
            && next.max == r.max && next.looping == r.looping
            && if Aborted(r.tasks[task]) then m in next.acked && next.tasks == r.tasks
               else Ready(next, m, task, Executing) && next.tasks == r.tasks[task := Running] && next.acked == r.acked
  {
    var next := Do(r, Resume(TaskKey(task), Done));
    assert next.active[TaskKey(task)] == Coroutine(m, if Aborted(r.tasks[task]) then Acknowledging else MarkingRunning);
  }

  /** A message that is taken up before it was acknowledged is executed again exactly when the status
      of its task is not aborted at the lookup: having failed, waited or completed does not prevent it. */
  lemma RunsAgainUnlessAborted(max: nat, steps: seq<Step>, m: nat, task: nat)
    requires max > 0 && Pending(DoAll(max, steps), m, task)
    requires DoAll(max, steps).messages[m].supported && task in DoAll(max, steps).tasks
    ensures var r := DoAll(max, steps);
            var go := Resume(TaskKey(task), Done);
            var next := Do(Do(DoAll(max, steps + ByRestart(m, task)), go), go);
            if Aborted(r.tasks[task]) then m in next.acked && next.tasks == r.tasks
            else Ready(next, m, task, Executing) && next.tasks == r.tasks[task := Running] && next.acked == r.acked
  {
    TakenUpByRestart(max, steps, m, task);
    LookedUp(DoAll(max, steps + ByRestart(m, task)), m, task);
  }

  lemma Completes(r: Runner, m: nat, task: nat)
    requires Ready(r, m, task, Executing) && !Aborted(r.tasks[task])
    ensures var go := Resume(TaskKey(task), Done);
            var next := Do(Do(Do(r, go), go), go);
            Ready(next, m, task, Acknowledging) && next.tasks == r.tasks[task := Completed] && next.acked == r.acked
  {
    var go := Resume(TaskKey(task), Done);
    assert Ready(Do(r, go), m, task, Rechecking) && Do(r, go).tasks == r.tasks;
    assert Ready(Do(Do(r, go), go), m, task, MarkingSucceeded);
  }

  lemma RunsThrough(r: Runner, m: nat, task: nat)
    requires Ready(r, m, task, LookingUp) && !Aborted(r.tasks[task])
    ensures var go := Resume(TaskKey(task), Done);
            var next := DoFrom(r, [go, go, go, go, go]);
            Ready(next, m, task, Acknowledging) && next.tasks[task] == Completed && next.acked == r.acked
  {
    var go := Resume(TaskKey(task), Done);
    LookedUp(r, m, task);
    Completes(Do(Do(r, go), go), m, task);
    DoFive(r, go, go, go, go, go);
  }

  function Through(m: nat, task: nat): seq<Step> {
    var go := Resume(TaskKey(task), Done);
    ByRestart(m, task) + [go, go, go, go, go] + [Crash]
  }

  /** And there may be such messages of completed tasks: whenever a task can run, the process may
      die after the task was marked completed and before its message is acknowledged. */
  lemma CompletedButNotAcknowledged(max: nat, steps: seq<Step>, m: nat, task: nat)
    requires max > 0 && Pending(DoAll(max, steps), m, task)
    requires var r := DoAll(max, steps); r.messages[m].supported && task in r.tasks && !Aborted(r.tasks[task])
    ensures var r := DoAll(max, steps + Through(m, task));
            Pending(r, m, task) && task in r.tasks && r.tasks[task] == Completed && r.active == map[]
  {
    var go := Resume(TaskKey(task), Done);
    TakenUpByRestart(max, steps, m, task);
    RunsThrough(DoAll(max, steps + ByRestart(m, task)), m, task);
    DoEach(Idle(max), steps + ByRestart(m, task), [go, go, go, go, go]);
    DoMore(Idle(max), steps + ByRestart(m, task) + [go, go, go, go, go], Crash);
    assert steps + Through(m, task) == steps + ByRestart(m, task) + [go, go, go, go, go] + [Crash];
  }

  /** Cancelled while it acknowledges, redelivered, running again, and only then acknowledged. */
  function Outrun(m: nat, task: nat): seq<Step> {
    var go := Resume(TaskKey(task), Done);
    [Cancel(TaskKey(task), false), Age(m), Reclaim(m), Start(m), go] + [go, go, AckLands(m)]
  }

  /** The coroutine is cancelled and leaves its acknowledgement behind; the message is reclaimed. */
  lemma Detached(r: Runner, m: nat, task: nat)
    requires Safe(r) && Pending(r, m, task) && Ready(r, m, task, Acknowledging) && r.looping && |Holders(r)| <= r.max
    ensures var mid := Do(Do(Do(r, Cancel(TaskKey(task), false)), Age(m)), Reclaim(m));
            && mid.active == r.active - {TaskKey(task)} && m in mid.inflight && m in mid.fetched && mid.looping
            && mid.tasks == r.tasks && mid.messages == r.messages && mid.acked == r.acked && mid.max == r.max
  {
    assert Filed(r, TaskKey(task));
  }

  lemma DetachedAndTakenUp(r: Runner, m: nat, task: nat)
    requires Safe(r) && Pending(r, m, task) && Ready(r, m, task, Acknowledging) && r.looping && |Holders(r)| <= r.max
    ensures var go := Resume(TaskKey(task), Done);
            var up := DoFrom(r, [Cancel(TaskKey(task), false), Age(m), Reclaim(m), Start(m), go]);
            Ready(up, m, task, LookingUp) && m in up.inflight && up.tasks == r.tasks
  {
    var go := Resume(TaskKey(task), Done);
    var mid := Do(Do(Do(r, Cancel(TaskKey(task), false)), Age(m)), Reclaim(m));
    Detached(r, m, task);
    assert Holders(mid) == Holders(r) - {TaskKey(task)};
    assert TaskKey(task) in Holders(r);
    TakesSlot(mid, m, task);
    DoFive(r, Cancel(TaskKey(task), false), Age(m), Reclaim(m), Start(m), go);
  }

  lemma RunsAndLands(r: Runner, m: nat, task: nat)
    requires Ready(r, m, task, LookingUp) && m in r.inflight && !Aborted(r.tasks[task])
    ensures var go := Resume(TaskKey(task), Done);
            var next := DoFrom(r, [go, go, AckLands(m)]);
            m in next.acked && Ready(next, m, task, Executing) && next.tasks[task] == Running
  {
    var go := Resume(TaskKey(task), Done);
    LookedUp(r, m, task);
    assert m in Do(r, go).inflight && m in Do(Do(r, go), go).inflight;
    DoThree(r, go, go, AckLands(m));
  }

  /** A detached acknowledgement may land when its excuse has gone: wherever a coroutine acknowledges
      for a task that is not aborted, the message may be redelivered first, and is then acknowledged
      while its task runs. */
  lemma AcknowledgedWhileRunning(max: nat, steps: seq<Step>, m: nat, task: nat)
    requires var r := DoAll(max, steps);
             Pending(r, m, task) && Ready(r, m, task, Acknowledging) && r.looping && !Aborted(r.tasks[task])
    ensures var r := DoAll(max, steps + Outrun(m, task));
            m in r.acked && Ready(r, m, task, Executing) && r.tasks[task] == Running
  {
    var go := Resume(TaskKey(task), Done);
    var r := DoAll(max, steps);
    var first := [Cancel(TaskKey(task), false), Age(m), Reclaim(m), Start(m), go];
    SafeAlways(max, steps);
    HandlersAreBounded(max, steps);
    DetachedAndTakenUp(r, m, task);
    RunsAndLands(DoFrom(r, first), m, task);
    DoEach(r, first, [go, go, AckLands(m)]);
    DoEach(Idle(max), steps, Outrun(m, task));
  }

  // ---------------------------------------------------------------- when a stop survives

  /** A coroutine of the task is past its lookup and may still write a status without another look. */
  predicate MayWrite(r: Runner, task: nat) {
    TaskKey(task) in r.active &&
    (match r.active[TaskKey(task)].at
     case MarkingRunning => true
     case Executing => true
     case MarkingWaiting => true
     case MarkingFailed => true
     case MarkingSucceeded => true
     case _ => false)
  }

  predicate Stopped(r: Runner, task: nat) { task in r.tasks && Aborted(r.tasks[task]) }

  /** A coroutine of another key leaves the status of the task alone. */
  lemma OthersKeepStatus(r: Runner, s: Step, task: nat)
    requires Safe(r) && IsCoroutineStep(r, s) && s.key != TaskKey(task) && task in r.tasks
    ensures task in Do(r, s).tasks && Do(r, s).tasks[task] == r.tasks[task]
  {
    assert Filed(r, s.key);
    CoroutineIsStep(r, s);
    if r.active[s.key].at.ForSlot? || r.active[s.key].at.Acknowledging? {
      WritesNothing(r, s);
    }
  }

  /** The task's own coroutine, where it does not write, leaves a stop alone and does not come to write. */
  lemma OwnKeepsStop(r: Runner, s: Step, task: nat)
    requires IsCoroutineStep(r, s) && s.key == TaskKey(task) && TaskOf(r, s.key) == task
    requires Stopped(r, task) && !MayWrite(r, task)
    ensures Stopped(Do(r, s), task) && !MayWrite(Do(r, s), task)
  {
  }

  /** Nobody writes over a stop unless he may write already, and nobody comes to that point. */
  lemma StopHolds(r: Runner, s: Step, task: nat)
    requires Safe(r) && Stopped(r, task) && !MayWrite(r, task)
    ensures Stopped(Do(r, s), task) && !MayWrite(Do(r, s), task)
  {
    if IsCoroutineStep(r, s) {
      assert Filed(r, s.key);
      if s.key == TaskKey(task) {
        OwnKeepsStop(r, s, task);
      } else {
        OthersKeepStatus(r, s, task);
        CoroutineIsStep(r, s);
      }
    }
  }

  lemma {:induction false} StopHoldsOn(r: Runner, steps: seq<Step>, task: nat)
    requires Safe(r) && Stopped(r, task) && !MayWrite(r, task)
    ensures Stopped(DoFrom(r, steps), task) && !MayWrite(DoFrom(r, steps), task)
  {
    if steps != [] {
      var front := steps[..|steps| - 1];
      StopHoldsOn(r, front, task);
      SafeFrom(r, front);
      StopHolds(DoFrom(r, front), steps[|steps| - 1], task);
    }
  }

  /** How a coroutine that may write overwrites the stop. */
  function Overwriting(r: Runner, task: nat): seq<Step> {
    var go := Resume(TaskKey(task), Errored);
    if TaskKey(task) in r.active && r.active[TaskKey(task)].at.Executing? then [go, go] else [go]
  }

  lemma Overwrites(r: Runner, task: nat)
    requires Safe(r) && Stopped(r, task) && MayWrite(r, task)
    ensures !Stopped(DoFrom(r, Overwriting(r, task)), task)
  {
    var key := TaskKey(task);
    var go := Resume(key, Errored);
    assert Filed(r, key);
    assert TaskOf(r, key) == task;
    DoOne(r, go);
    if r.active[key].at.Executing? {
      DoMore(r, [go], go);
      assert [go] + [go] == [go, go];
      assert Do(r, go).active[key] == Coroutine(r.active[key].message, MarkingFailed);
    }
  }

  /** In every reachable state: the stop of a task holds through every further run if and only if no
      coroutine of the task is past its lookup and about to write, or may come to write, a status. */
  lemma StopSurvivesExactly(max: nat, steps: seq<Step>, task: nat)
    requires Stopped(DoAll(max, steps), task)
    ensures (forall more :: Stopped(DoAll(max, steps + more), task)) <==> !MayWrite(DoAll(max, steps), task)
  {
    var r := DoAll(max, steps);
    SafeAlways(max, steps);
    if MayWrite(r, task) {
      Overwrites(r, task);
      DoEach(Idle(max), steps, Overwriting(r, task));
    } else {
      forall more ensures Stopped(DoAll(max, steps + more), task) {
        StopHoldsOn(r, more, task);
        DoEach(Idle(max), steps, more);
      }
    }
  }

  lemma StoppedAndCancelled(r: Runner, task: nat, applied: bool)
    requires Safe(r) && task in r.tasks && !Terminal(r.tasks[task])
    ensures var next := Do(Do(r, UserStop(task)), Cancel(TaskKey(task), applied));
            && !MayWrite(next, task)
            && (Stopped(next, task) <==>
                  !applied || !MayWrite(r, task) || r.active[TaskKey(task)].at.Executing?)
  {
    if TaskKey(task) in r.active {
      assert Filed(r, TaskKey(task));
      var stopped := Do(r, UserStop(task));
      assert TaskOf(stopped, TaskKey(task)) == TaskOf(r, TaskKey(task));
      assert MayWrite(r, task) ==> TaskOf(r, TaskKey(task)) == task;
    }
  }

  /** Stopping a task and cancelling its coroutine: the stop holds for ever if and only if the
      coroutine was not writing a status, or its write does not go through. */
  lemma StopAndCancelSurvives(max: nat, steps: seq<Step>, task: nat, applied: bool)
    requires var r := DoAll(max, steps); task in r.tasks && !Terminal(r.tasks[task])
    ensures var r := DoAll(max, steps);
            (forall more :: Stopped(DoAll(max, steps + [UserStop(task), Cancel(TaskKey(task), applied)] + more),
                task)) <==>
              !applied || !MayWrite(r, task) || r.active[TaskKey(task)].at.Executing?
  {
    var r := DoAll(max, steps);
    var stop := [UserStop(task), Cancel(TaskKey(task), applied)];
    SafeAlways(max, steps);
    StoppedAndCancelled(r, task, applied);
    DoOne(r, UserStop(task));
    DoMore(r, [UserStop(task)], Cancel(TaskKey(task), applied));
    assert [UserStop(task)] + [Cancel(TaskKey(task), applied)] == stop;
    DoEach(Idle(max), steps, stop);
    if Stopped(DoAll(max, steps + stop), task) {
      StopSurvivesExactly(max, steps + stop, task);
    } else {
      assert steps + stop + [] == steps + stop;
    }
  }

  /** A stop that lands between the lookup and the mark that the task runs is lost: the task is
      marked running and executed. */
  lemma StopIsOverwritten(max: nat, steps: seq<Step>, m: nat, task: nat)
    requires Ready(DoAll(max, steps), m, task, MarkingRunning) && !Terminal(DoAll(max, steps).tasks[task])
    ensures Stopped(DoAll(max, steps + [UserStop(task)]), task)
    ensures var r := DoAll(max, steps + [UserStop(task), Resume(TaskKey(task), Done)]);
            Ready(r, m, task, Executing) && r.tasks[task] == Running
  {
    DoMore(Idle(max), steps, UserStop(task));
    DoMore(Idle(max), steps + [UserStop(task)], Resume(TaskKey(task), Done));
    assert steps + [UserStop(task)] + [Resume(TaskKey(task), Done)] ==
           steps + [UserStop(task), Resume(TaskKey(task), Done)];
  }
}
