/** The background runner as interleaved atomic steps between awaits: fetching, starting,
    handling, acknowledging and cancelling, with crashes and user stops at any moment. */
module TaskRunner {
  import opened Basics

  datatype Status = Queued | Running | Waiting | Completed | Failed | Stopped | Succeeded | Cancelled

  predicate Terminal(s: Status) { s.Completed? || s.Succeeded? || s.Failed? || s.Stopped? || s.Cancelled? }

  predicate Aborted(s: Status) { s.Stopped? || s.Cancelled? }

  /** Nothing more is to be done for the task unless the user asks. */
  predicate Settles(s: Status) { Terminal(s) || s.Waiting? }

  datatype Message = Message(taskId: Option<nat>, hasSession: bool, supported: bool)

  predicate Malformed(m: Message) { m.taskId.None? || !m.hasSession }

  /** What the active coroutines are filed under. */
  datatype Key = TaskKey(id: nat) | MessageKey(id: nat)

  function KeyOf(id: nat, m: Message): Key { if m.taskId.Some? then TaskKey(m.taskId.value) else MessageKey(id) }

  /** Where a coroutine waits. */
  datatype Place =
    | ForSlot | LookingUp | MarkingRunning | Executing | MarkingWaiting | MarkingFailed | Rechecking | MarkingSucceeded
    | LookingUpCancelled | Acknowledging

  datatype Coroutine = Coroutine(message: nat, at: Place)

  datatype Execution = Done | Blocked | Errored

  /** The queue keeps the tasks, the messages, which of them are acknowledged and reserved, and which
      reservations are old enough to be reclaimed. The process has the polling loop, what the queue
      handed to it and is not started, the coroutines, and shielded acknowledgements whose coroutine
      is gone. */
  datatype Runner = Runner(
    max: nat,
    tasks: map<nat, Status>,
    messages: map<nat, Message>,
    acked: set<nat>,
    reserved: set<nat>,
    stale: set<nat>,
    looping: bool,
    fetched: set<nat>,
    active: map<Key, Coroutine>,
    inflight: set<nat>)

  datatype Step =
    | Enqueue(task: nat, message: nat, supported: bool)
    | Inject(message: nat, content: Message)
    | UserStop(task: nat)
    | Age(message: nat)
    | Fetch(message: nat)
    | Reclaim(message: nat)
    | Start(message: nat)
    | Resume(key: Key, result: Execution)
    | Fault(key: Key)
    | Cancel(key: Key, applied: bool)
    | AckLands(message: nat)
    | Stop
    | Crash
    | Restart

  function SetStatus(r: Runner, task: nat, s: Status): Runner {
    if task !in r.tasks then r else r.(tasks := r.tasks[task := s])
  }

  function Leave(r: Runner, key: Key): Runner { r.(active := r.active - {key}) }

  function Go(r: Runner, key: Key, at: Place): Runner
    requires key in r.active
  {
    r.(active := r.active[key := r.active[key].(at := at)])
  }

  function Holders(r: Runner): set<Key> { set k | k in r.active && !r.active[k].at.ForSlot? }

  function TaskOf(r: Runner, key: Key): nat
    requires key in r.active
  {
    var id := r.active[key].message;
    if id in r.messages && r.messages[id].taskId.Some? then r.messages[id].taskId.value else 0
  }

  predicate AbortedOrMissing(r: Runner, task: nat) { task !in r.tasks || Aborted(r.tasks[task]) }

  /** The status a coroutine writes where it waits, if the write goes through. */
  function Applied(r: Runner, key: Key, applied: bool): (next: Runner)
    requires key in r.active
    ensures next == r.(tasks := next.tasks)
  {
    if !applied then r
    else
      match r.active[key].at
      case MarkingRunning => SetStatus(r, TaskOf(r, key), Running)
      case MarkingWaiting => SetStatus(r, TaskOf(r, key), Waiting)
      case MarkingFailed => SetStatus(r, TaskOf(r, key), Failed)
      case MarkingSucceeded => SetStatus(r, TaskOf(r, key), Completed)
      case _ => r
  }

  /** Where a coroutine waits next when it runs on; nowhere when it ends. */
  function NextPlace(r: Runner, key: Key, result: Execution): Option<Place>
    requires key in r.active
  {
    var id := r.active[key].message;
    var task := TaskOf(r, key);
    match r.active[key].at
    case ForSlot =>
      if |Holders(r)| >= r.max then Some(ForSlot)
      else if id !in r.messages || Malformed(r.messages[id]) then Some(Acknowledging)
      else Some(LookingUp)
    case LookingUp => Some(if AbortedOrMissing(r, task) then Acknowledging else MarkingRunning)
    case MarkingRunning => Some(if id in r.messages && r.messages[id].supported then Executing else MarkingFailed)
    case Executing =>
      Some(match result case Done => Rechecking case Blocked => MarkingWaiting case Errored => MarkingFailed)
    case MarkingWaiting => Some(Acknowledging)
    case MarkingFailed => Some(Acknowledging)
    case Rechecking => Some(if task in r.tasks && Aborted(r.tasks[task]) then Acknowledging else MarkingSucceeded)
    case MarkingSucceeded => Some(Acknowledging)
    case LookingUpCancelled => if task in r.tasks && Aborted(r.tasks[task]) then Some(Acknowledging) else None
    case Acknowledging => None
  }

  /** A coroutine runs on to its next await: what it was writing is written. */
  function Proceed(r: Runner, key: Key, result: Execution): Runner
    requires key in r.active
  {
    var written := Applied(r, key, true);
    match NextPlace(r, key, result)
    case Some(place) => Go(written, key, place)
    case None =>
      var id := r.active[key].message;
      Leave(if r.active[key].at.Acknowledging? then written.(acked := r.acked + {id}) else written, key)
  }

  /** Cancellation: looked up before acknowledging; an acknowledgement that is under way is
      shielded and goes on alone. */
  function Cancelling(r: Runner, key: Key, applied: bool): Runner
    requires key in r.active
  {
    match r.active[key].at
    case ForSlot => Leave(r, key)
    case LookingUpCancelled => Leave(r, key)
    case Acknowledging => Leave(r.(inflight := r.inflight + {r.active[key].message}), key)
    case _ => Go(Applied(r, key, applied), key, LookingUpCancelled)
  }

  /** A queue operation raised: nothing was written. */
  function Raising(r: Runner, key: Key): Runner
    requires key in r.active
  {
    match r.active[key].at
    case ForSlot => r
    case Executing => Go(r, key, MarkingFailed)
    case MarkingWaiting => Go(r, key, MarkingFailed)
    case _ => Leave(r, key)
  }

  function Do(r: Runner, s: Step): Runner {
    match s
    case Enqueue(task, message, supported) =>
      if task in r.tasks || message in r.messages || Mentioned(r, task) then r
      else r.(tasks := r.tasks[task := Queued], messages := r.messages[message := Message(Some(task), true, supported)])
    case Inject(message, content) =>
      if message in r.messages then r else r.(messages := r.messages[message := content])
    case UserStop(task) =>
      if task in r.tasks && !Terminal(r.tasks[task]) then SetStatus(r, task, Stopped) else r
    case Age(message) =>
      if message in r.reserved then r.(stale := r.stale + {message}) else r
    case Fetch(message) =>
      if r.looping && message in r.messages && message !in r.acked && message !in r.reserved
      then r.(reserved := r.reserved + {message}, fetched := r.fetched + {message}) else r
    case Reclaim(message) =>
      if r.looping && message in r.stale && message !in r.acked
      then r.(stale := r.stale - {message}, fetched := r.fetched + {message}) else r
    case Start(message) =>
      if message !in r.fetched then r
      else
        var r' := r.(fetched := r.fetched - {message});
        if message !in r.messages || KeyOf(message, r.messages[message]) in r.active then r'
        else r'.(active := r.active[KeyOf(message, r.messages[message]) := Coroutine(message, ForSlot)])
    case Resume(key, result) => if key in r.active then Proceed(r, key, result) else r
    case Fault(key) => if key in r.active then Raising(r, key) else r
    case Cancel(key, applied) => if key in r.active then Cancelling(r, key, applied) else r
    case AckLands(message) =>
      if message in r.inflight then r.(acked := r.acked + {message}, inflight := r.inflight - {message}) else r
    case Stop => r.(looping := false, fetched := {})
    case Crash => r.(looping := false, fetched := {}, active := map[], inflight := {})
    case Restart =>
      if r.looping || r.active != map[] then r
      else r.(looping := true, reserved := r.reserved * r.acked, stale := r.stale * r.acked)
  }

  /** Some message names the task. */
  predicate Mentioned(r: Runner, task: nat) { exists m :: m in r.messages && r.messages[m].taskId == Some(task) }

  function Idle(max: nat): Runner { Runner(max, map[], map[], {}, {}, {}, false, {}, map[], {}) }

  function DoFrom(r: Runner, steps: seq<Step>): Runner {
    if steps == [] then r else Do(DoFrom(r, steps[..|steps| - 1]), steps[|steps| - 1])
  }

  function DoAll(max: nat, steps: seq<Step>): Runner { DoFrom(Idle(max), steps) }

  lemma DoMore(r: Runner, steps: seq<Step>, s: Step)
    ensures DoFrom(r, steps + [s]) == Do(DoFrom(r, steps), s)
  {
    assert (steps + [s])[..|steps|] == steps;
  }

  // ---------------------------------------------------------------- the runner's own state

  /** What shutdown does: the loop stops first, then every coroutine is cancelled, in some order. */
  predicate IsShutdown(r: Runner, steps: seq<Step>, applied: Key -> bool) { Cancels(r, steps, {}, applied) }

  /** Shutdown with all but the cancellations of `keys` done. */
  predicate Cancels(r: Runner, steps: seq<Step>, keys: set<Key>, applied: Key -> bool) {
    && steps != [] && steps[0] == Stop
    && (forall i :: 0 < i < |steps| ==>
          steps[i].Cancel? && steps[i].applied == applied(steps[i].key) && steps[i].key !in keys)
    && (forall i, j :: 0 < i < j < |steps| ==> steps[i].key != steps[j].key)
    && (forall k :: k in r.active && k !in keys ==> exists i :: 0 < i < |steps| && steps[i] == Cancel(k, applied(k)))
  }

  /** The part of the runner that lives in the process: each method is one atomic step. */
  class AgentTaskRunner {
    var r: Runner

    constructor (max: nat)
      ensures r == Idle(max)
    {
      r := Idle(max);
    }

    /** A fetched message starts one coroutine, filed under its key and waiting for a slot; if its key
        is active already, that coroutine is left alone. Nothing else changes. */
    method StartMessage(message: nat)
      modifies this
      ensures r == old(r).(fetched := old(r).fetched - {message}, active := r.active)
      ensures forall k :: k in old(r).active ==> k in r.active && r.active[k] == old(r).active[k]
      ensures forall k :: k in r.active && k !in old(r).active ==>
                && message in old(r).fetched && message in r.messages
                && k == KeyOf(message, r.messages[message]) && r.active[k] == Coroutine(message, ForSlot)
      ensures message in old(r).fetched && message in r.messages ==> KeyOf(message, r.messages[message]) in r.active
      ensures r == Do(old(r), Start(message))
    {
      if message !in r.fetched {
        return;
      }
      r := r.(fetched := r.fetched - {message});
      if message !in r.messages {
        return;
      }
      var key := KeyOf(message, r.messages[message]);
      if key in r.active {
        return;
      }
      r := r.(active := r.active[key := Coroutine(message, ForSlot)]);
    }

    /** Cooperative cancellation of the coroutine that owns a task. */
    method CancelTask(key: Key, applied: bool) returns (cancelled: bool)
      modifies this
      ensures cancelled == (key in old(r).active) && r == Do(old(r), Cancel(key, applied))
    {
      if key !in r.active {
        return false;
      }
      r := Cancelling(r, key, applied);
      return true;
    }

    /** Shutdown: the loop stops first, then every coroutine is cancelled. Nothing is acknowledged on
        the way, and what is left of the coroutines looks its task up before it may acknowledge.
        Without a loop there is nothing to stop. */
    method StopAll(applied: Key -> bool) returns (ghost steps: seq<Step>)
      modifies this
      ensures !old(r).looping ==> steps == [] && r == old(r)
      ensures old(r).looping ==>
                && IsShutdown(old(r), steps, applied) && r == DoFrom(old(r), steps)
                && !r.looping && r.fetched == {} && r.acked == old(r).acked
                && (forall k :: k in r.active ==> k in old(r).active && r.active[k].at.LookingUpCancelled?)
                && (forall m :: m in r.inflight ==> m in old(r).inflight || AckedBy(old(r), m))
    {
      if !r.looping {
        return [];
      }
      r := r.(looping := false, fetched := {});
      steps := [Stop];
      assert DoFrom(old(r), [Stop]) == Do(DoFrom(old(r), []), Stop);
      var keys := r.active.Keys;
      while keys != {}
        invariant Stopping(old(r), r, keys)
        invariant r == DoFrom(old(r), steps) && Cancels(old(r), steps, keys, applied)
        decreases keys
      {
        var key :| key in keys;
        StopOneMore(old(r), r, keys, key, applied(key));
        CancelOneMore(old(r), steps, keys, applied, key);
        var cancelled := CancelTask(key, applied(key));
        steps := steps + [Cancel(key, applied(key))];
        keys := keys - {key};
      }
    }
  }

  lemma CancelOneMore(r: Runner, steps: seq<Step>, keys: set<Key>, applied: Key -> bool, key: Key)
    requires Cancels(r, steps, keys, applied) && key in keys
    ensures Cancels(r, steps + [Cancel(key, applied(key))], keys - {key}, applied)
    ensures DoFrom(r, steps + [Cancel(key, applied(key))]) == Do(DoFrom(r, steps), Cancel(key, applied(key)))
  {
    var more := steps + [Cancel(key, applied(key))];
    DoMore(r, steps, Cancel(key, applied(key)));
    forall k | k in r.active && k !in keys - {key}
      ensures exists i :: 0 < i < |more| && more[i] == Cancel(k, applied(k))
    {
      if k == key {
        assert more[|steps|] == Cancel(k, applied(k));
      } else {
        var i :| 0 < i < |steps| && steps[i] == Cancel(k, applied(k));
        assert more[i] == Cancel(k, applied(k));
      }
    }
  }

  /** Some coroutine is acknowledging the message. */
  predicate AckedBy(r: Runner, m: nat) {
    exists k :: k in r.active && r.active[k].at.Acknowledging? && r.active[k].message == m
  }

  /** Shutdown with the coroutines of `keys` still to be cancelled. */
  ghost predicate Stopping(was: Runner, r: Runner, keys: set<Key>) {
    && !r.looping && r.fetched == {} && r.acked == was.acked
    && (forall k :: k in keys ==> k in r.active && k in was.active && r.active[k] == was.active[k])
    && (forall k :: k in r.active ==> k in was.active && (k in keys || r.active[k].at.LookingUpCancelled?))
    && (forall m :: m in r.inflight ==> m in was.inflight || AckedBy(was, m))
  }

  lemma CancelledPlace(r: Runner, key: Key, applied: bool)
    requires key in r.active
    ensures var next := Cancelling(r, key, applied);
            && next.active - {key} == r.active - {key}
            && (key in next.active ==> next.active[key].at.LookingUpCancelled?)
  {
    var next := Cancelling(r, key, applied);
    assert forall k :: k != key ==> (k in next.active <==> k in r.active);
  }

  lemma CancelledRest(r: Runner, key: Key, applied: bool)
    requires key in r.active
    ensures var next := Cancelling(r, key, applied);
            && next.acked == r.acked && next.fetched == r.fetched && next.looping == r.looping
            && next.inflight ==
                 (if r.active[key].at.Acknowledging? then r.inflight + {r.active[key].message} else r.inflight)
  {
  }

  lemma StopOneMore(was: Runner, r: Runner, keys: set<Key>, key: Key, applied: bool)
    requires Stopping(was, r, keys) && key in keys
    ensures Stopping(was, Do(r, Cancel(key, applied)), keys - {key})
  {
    var next := Cancelling(r, key, applied);
    CancelledPlace(r, key, applied);
    CancelledRest(r, key, applied);
    forall k | k != key
      ensures (k in next.active <==> k in r.active) && (k in r.active ==> next.active[k] == r.active[k])
    {
      assert k in next.active - {key} <==> k in r.active - {key};
      if k in r.active {
        assert (next.active - {key})[k] == (r.active - {key})[k];
      }
    }
  }
}
