/** What becomes of a task: which statuses a step writes, and how each way of executing a message ends,
    from every reachable state. */
module TaskOutcomes {
  import opened Basics
  import opened TaskRunner
  import opened TaskRunnerLaws

  // ---------------------------------------------------------------- every status write

  /** What a coroutine that waits here is writing, if it is writing a status. */
  predicate Writes(at: Place, status: Status) {
    || (at.MarkingRunning? && status == Running)
    || (at.MarkingWaiting? && status == Waiting)
    || (at.MarkingFailed? && status == Failed)
    || (at.MarkingSucceeded? && status == Completed)
  }

  predicate IsWriting(at: Place) {
    at.MarkingRunning? || at.MarkingWaiting? || at.MarkingFailed? || at.MarkingSucceeded?
  }

  /** The step lets the task's own coroutine write. */
  predicate LetsWrite(r: Runner, s: Step, task: nat) {
    && TaskKey(task) in r.active && IsWriting(r.active[TaskKey(task)].at)
    && ((s.Resume? && s.key == TaskKey(task)) || (s.Cancel? && s.key == TaskKey(task) && s.applied))
  }

  lemma OwnWrite(r: Runner, s: Step, task: nat)
    requires task in r.tasks && LetsWrite(r, s, task) && TaskOf(r, TaskKey(task)) == task
    ensures task in Do(r, s).tasks && Writes(r.active[TaskKey(task)].at, Do(r, s).tasks[task])
  {
  }

  lemma OwnKeeps(r: Runner, s: Step, task: nat)
    requires IsCoroutineStep(r, s) && s.key == TaskKey(task) && !LetsWrite(r, s, task)
    ensures Do(r, s).tasks == r.tasks
  {
  }

  lemma OutsideKeeps(r: Runner, s: Step, task: nat)
    requires !IsCoroutineStep(r, s) && task in r.tasks
    ensures task in Do(r, s).tasks
    ensures Do(r, s).tasks[task] ==
            if s == UserStop(task) && r.tasks[task] in {Queued, Running, Waiting} then Stopped else r.tasks[task]
  {
  }

  /** In every reachable state: the status of a task changes only to stopped, by its user and while the
      task is queued, running or waiting, or to what its own coroutine is writing. */
  lemma StatusChangesExactly(max: nat, steps: seq<Step>, s: Step, task: nat)
    requires task in DoAll(max, steps).tasks
    ensures var r, next := DoAll(max, steps), DoAll(max, steps + [s]);
            && task in next.tasks
            && if LetsWrite(r, s, task) then Writes(r.active[TaskKey(task)].at, next.tasks[task])
               else if s == UserStop(task) && r.tasks[task] in {Queued, Running, Waiting}
               then next.tasks[task] == Stopped
               else next.tasks[task] == r.tasks[task]
  {
    var r := DoAll(max, steps);
    DoMore(Idle(max), steps, s);
    SafeAlways(max, steps);
    if IsCoroutineStep(r, s) {
      assert Filed(r, s.key);
      if s.key != TaskKey(task) {
        OthersKeepStatus(r, s, task);
      } else if LetsWrite(r, s, task) {
        OwnWrite(r, s, task);
      } else {
        OwnKeeps(r, s, task);
      }
    } else {
      OutsideKeeps(r, s, task);
    }
  }

  // ---------------------------------------------------------------- how an execution ends

  /** A step of the coroutine that changes nothing but where it waits. */
  predicate OnlyMoves(r: Runner, next: Runner, m: nat, task: nat, at: Place) {
    IsAt(next, m, task, at) && next.tasks == r.tasks && next.acked == r.acked && next.messages == r.messages
  }

  /** The task has this status, and its message is about to be acknowledged. */
  predicate MarkedAs(r: Runner, next: Runner, m: nat, task: nat, status: Status) {
    && IsAt(next, m, task, Acknowledging) && next.tasks == r.tasks[task := status] && next.acked == r.acked
    && next.messages == r.messages
  }

  lemma Marks(r: Runner, m: nat, task: nat, at: Place, status: Status, result: Execution)
    requires IsAt(r, m, task, at) && task in r.tasks && Writes(at, status) && !at.MarkingRunning?
    ensures MarkedAs(r, Do(r, Resume(TaskKey(task), result)), m, task, status)
  {
  }

  /** Acknowledging is the last thing a coroutine does. */
  lemma ThenAcknowledged(r: Runner, m: nat, task: nat, result: Execution)
    requires IsAt(r, m, task, Acknowledging)
    ensures var next := Do(r, Resume(TaskKey(task), result));
            TaskKey(task) !in next.active && next.acked == r.acked + {m} && next.tasks == r.tasks
  {
  }

  /** An execution that raised: the task is failed, and then its message is acknowledged. */
  lemma ErroredFails(r: Runner, m: nat, task: nat)
    requires Ready(r, m, task, Executing)
    ensures var key := TaskKey(task);
            var failing := Do(r, Resume(key, Errored));
            var failed := Do(failing, Resume(key, Done));
            var gone := Do(failed, Resume(key, Done));
            && OnlyMoves(r, failing, m, task, MarkingFailed) && MarkedAs(r, failed, m, task, Failed)
            && key !in gone.active && gone.acked == r.acked + {m} && gone.tasks == r.tasks[task := Failed]
  {
    var failing := Do(r, Resume(TaskKey(task), Errored));
    Marks(failing, m, task, MarkingFailed, Failed, Done);
    ThenAcknowledged(Do(failing, Resume(TaskKey(task), Done)), m, task, Done);
  }

  /** One that is blocked: the task waits. */
  lemma BlockedWaits(r: Runner, m: nat, task: nat)
    requires Ready(r, m, task, Executing)
    ensures var key := TaskKey(task);
            var marking := Do(r, Resume(key, Blocked));
            var waiting := Do(marking, Resume(key, Done));
            var gone := Do(waiting, Resume(key, Done));
            && OnlyMoves(r, marking, m, task, MarkingWaiting) && MarkedAs(r, waiting, m, task, Waiting)
            && key !in gone.active && gone.acked == r.acked + {m} && gone.tasks == r.tasks[task := Waiting]
  {
    var marking := Do(r, Resume(TaskKey(task), Blocked));
    Marks(marking, m, task, MarkingWaiting, Waiting, Done);
    ThenAcknowledged(Do(marking, Resume(TaskKey(task), Done)), m, task, Done);
  }

  /** One that ran through, looked up again: completed, unless the task is aborted by then, and then it
      is acknowledged as it is. */
  lemma DoneCompletes(r: Runner, m: nat, task: nat)
    requires Ready(r, m, task, Executing)
    ensures OnlyMoves(r, Do(r, Resume(TaskKey(task), Done)), m, task, Rechecking)
  {
  }

  lemma RecheckedCompletes(r: Runner, m: nat, task: nat)
    requires Ready(r, m, task, Rechecking)
    ensures var key := TaskKey(task);
            var next := Do(r, Resume(key, Done));
            if r.tasks[task] in {Stopped, Cancelled} then OnlyMoves(r, next, m, task, Acknowledging)
            else
              var completed := Do(next, Resume(key, Done));
              var gone := Do(completed, Resume(key, Done));
              && OnlyMoves(r, next, m, task, MarkingSucceeded) && MarkedAs(r, completed, m, task, Completed)
              && key !in gone.active && gone.acked == r.acked + {m} && gone.tasks == r.tasks[task := Completed]
  {
    if r.tasks[task] !in {Stopped, Cancelled} {
      var next := Do(r, Resume(TaskKey(task), Done));
      Marks(next, m, task, MarkingSucceeded, Completed, Done);
      ThenAcknowledged(Do(next, Resume(TaskKey(task), Done)), m, task, Done);
    }
  }

  /** The lookup: a task that is missing or aborted is acknowledged, any other is marked running, and is
      executed if the runner supports the message and failed without executing if it does not. */
  lemma LookupDecides(r: Runner, m: nat, task: nat)
    requires IsAt(r, m, task, LookingUp)
    ensures var next := Do(r, Resume(TaskKey(task), Done));
            OnlyMoves(r, next, m, task,
                      if task !in r.tasks || r.tasks[task] in {Stopped, Cancelled} then Acknowledging
                      else MarkingRunning)
  {
  }

  lemma UnsupportedFails(r: Runner, m: nat, task: nat)
    requires IsAt(r, m, task, MarkingRunning) && task in r.tasks
    ensures var key := TaskKey(task);
            var next := Do(r, Resume(key, Done));
            var last := Do(next, Resume(key, Done));
            && next.tasks == r.tasks[task := Running] && next.acked == r.acked
            && (if r.messages[m].supported then IsAt(next, m, task, Executing)
                else
                  && IsAt(next, m, task, MarkingFailed) && IsAt(last, m, task, Acknowledging)
                  && last.tasks == r.tasks[task := Failed] && last.acked == r.acked)
  {
    if !r.messages[m].supported {
      var next := Do(r, Resume(TaskKey(task), Done));
      Marks(next, m, task, MarkingFailed, Failed, Done);
    }
  }

  /** A raise while executing, or while marking that the task waits, fails the task; anywhere else past
      the slot it ends the coroutine, with nothing written and nothing acknowledged. */
  lemma RaiseFails(r: Runner, m: nat, task: nat, at: Place)
    requires IsAt(r, m, task, at) && task in r.tasks && !at.ForSlot?
    ensures var next := Do(r, Fault(TaskKey(task)));
            && next.tasks == r.tasks && next.acked == r.acked && next.inflight == r.inflight
            && (if at.Executing? || at.MarkingWaiting?
                then
                  OnlyMoves(r, next, m, task, MarkingFailed) &&
                  MarkedAs(r, Do(next, Resume(TaskKey(task), Done)), m, task, Failed)
                else TaskKey(task) !in next.active)
  {
    if at.Executing? || at.MarkingWaiting? {
      Marks(Do(r, Fault(TaskKey(task))), m, task, MarkingFailed, Failed, Done);
    }
  }

  /** A new task is queued, and its message names it, has a session and is supported as given. */
  lemma EnqueueExactly(r: Runner, task: nat, message: nat, supported: bool)
    requires task !in r.tasks && message !in r.messages
    requires forall m :: m in r.messages ==> r.messages[m].taskId != Some(task)
    ensures var next := Do(r, Enqueue(task, message, supported));
            && next == r.(tasks := next.tasks, messages := next.messages)
            && next.tasks == r.tasks[task := Queued]
            && next.messages == r.messages[message := Message(Some(task), true, supported)]
  {
  }

  /** A malformed message is acknowledged as soon as a slot is free; any other is looked up. */
  lemma SlotDecides(r: Runner, key: Key)
    requires key in r.active && r.active[key].at.ForSlot? && |Holders(r)| < r.max && Filed(r, key)
    ensures var m := r.active[key].message;
            var next := Do(r, Resume(key, Done));
            && key in next.active && next.tasks == r.tasks && next.acked == r.acked
            && next.active[key] ==
               Coroutine(m, if r.messages[m].taskId.None? || !r.messages[m].hasSession then Acknowledging
                            else LookingUp)
  {
  }

  /** A coroutine that was cancelled acknowledges exactly if it finds its task aborted. */
  lemma CancelledAcknowledgesExactly(r: Runner, m: nat, task: nat)
    requires IsAt(r, m, task, LookingUpCancelled)
    ensures var next := Do(r, Resume(TaskKey(task), Done));
            if task in r.tasks && r.tasks[task] in {Stopped, Cancelled} then OnlyMoves(r, next, m, task, Acknowledging)
            else TaskKey(task) !in next.active && next.tasks == r.tasks && next.acked == r.acked
  {
  }

  /** Cancelling: a waiting coroutine goes, one that acknowledges lets go of it, any other looks up. */
  lemma CancelDecides(r: Runner, m: nat, task: nat, at: Place, applied: bool)
    requires IsAt(r, m, task, at)
    ensures var next := Do(r, Cancel(TaskKey(task), applied));
            && next.acked == r.acked
            && next.inflight == (if at.Acknowledging? then r.inflight + {m} else r.inflight)
            && (if at.ForSlot? || at.Acknowledging? || at.LookingUpCancelled? then TaskKey(task) !in next.active
                else IsAt(next, m, task, LookingUpCancelled))
  {
  }
}
