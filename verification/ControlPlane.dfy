/** Versioned task state, checkpoints and restore. */
module ControlPlane {
  import opened Basics
  import opened TaskState

  datatype Checkpoint = Checkpoint(
    taskId: nat, parent: Option<nat>, kind: string, from: int, to: int, snapshot: Snapshot, hash: Digest,
        report: Validation)

  /** Ids are handed out in order. */
  datatype Store = Store(tasks: map<nat, Task>, checkpoints: map<nat, Checkpoint>, nextTask: nat, nextCheckpoint: nat)

  datatype Error =
    | TaskNotFound | VersionConflict(current: nat) | DuplicateFact | CheckpointNotFound | ParentNotFound
    | Invalid(problems: seq<Problem>) | IntegrityFailed | NotRestorable

  function EmptyStore(): Store { Store(map[], map[], 0, 0) }

  // ---------------------------------------------------------------- operations

  /** The digest is computed before the store has given the task its id. */
  function Create(st: Store, given: Snapshot): Result<Store, Error> {
    var state := Stored(given.(taskId := Some(st.nextTask)));
    if !Storable(given) then Err(DuplicateFact)
    else
      Ok(st.(tasks := st.tasks[st.nextTask := Task(state, 1, DigestOf(given.(taskId := None)))],
             nextTask := st.nextTask + 1))
  }

  /** Compare-and-set on the version; the digest is that of the merged state as it was given. */
  function Update(st: Store, id: nat, expected: int, p: Patch): Result<Store, Error> {
    if id !in st.tasks then Err(TaskNotFound)
    else
      var t := st.tasks[id];
      if t.version != expected then Err(VersionConflict(t.version))
      else if (p.requirements.Some? || p.decisions.Some?) && !Storable(Merged(t.state, p)) then Err(DuplicateFact)
      else
        var merged := Merged(t.state, p);
        var state := if p.requirements.Some? || p.decisions.Some? then Stored(merged) else merged;
        Ok(st.(tasks := st.tasks[id := Task(state, t.version + 1, DigestOf(merged))]))
  }

  function MakeCheckpoint(st: Store, id: nat, kind: string, parent: Option<nat>, from: int, to: int)
    : Result<Store, Error>
  {
    if id !in st.tasks then Err(TaskNotFound)
    else if parent.Some? && (parent.value !in st.checkpoints || st.checkpoints[parent.value].taskId != id)
    then Err(ParentNotFound)
    else
      var snapshot := st.tasks[id].state;
      var v := Validated(snapshot, from, to,
                         if parent.Some? then Some(st.checkpoints[parent.value].snapshot) else None);
      if !Valid(v) then Err(Invalid(v.problems))
      else
        Ok(st.(checkpoints := st.checkpoints[st.nextCheckpoint :=
                 Checkpoint(id, parent, kind, from, to, snapshot, DigestOf(snapshot), v)],
               nextCheckpoint := st.nextCheckpoint + 1))
  }

  function StatusFor(resume: bool): string { if resume then "running" else "paused" }

  /** Every restorable field of the snapshot; an absent environment is dropped by the update. */
  function RestorePatch(s: Snapshot, resume: bool): Patch {
    Patch(Some(s.goal), Some(s.criteria), Some(s.requirements), Some(s.decisions), Some(s.progress), Some(s.failures),
          Some(s.questions), Some(s.actions), Some(s.mustPreserve), s.environment, Some(s.artifacts),
          Some(StatusFor(resume)), Some(s.eventSeq))
  }

  function Restore(st: Store, id: nat, checkpoint: nat, expected: int, resume: bool): Result<Store, Error> {
    if checkpoint !in st.checkpoints || st.checkpoints[checkpoint].taskId != id then Err(CheckpointNotFound)
    else
      var c := st.checkpoints[checkpoint];
      if DigestOf(c.snapshot) != c.hash then Err(IntegrityFailed)
      else if !Valid(c.report) then Err(NotRestorable)
      else Update(st, id, expected, RestorePatch(c.snapshot, resume))
  }

  // ---------------------------------------------------------------- the service

  class ControlPlaneService {
    var tasks: map<nat, Task>
    var checkpoints: map<nat, Checkpoint>
    var nextTask: nat
    var nextCheckpoint: nat

    constructor ()
      ensures State() == EmptyStore()
    {
      tasks, checkpoints, nextTask, nextCheckpoint := map[], map[], 0, 0;
    }

    function State(): Store
      reads this
    {
      Store(tasks, checkpoints, nextTask, nextCheckpoint)
    }

    method CreateTask(given: Snapshot) returns (r: Result<nat, Error>)
      modifies this
      ensures match Create(old(State()), given)
              case Err(e) => r == Err(e) && State() == old(State())
              case Ok(st) => r == Ok(old(nextTask)) && State() == st
    {
      var hash := DigestOf(given.(taskId := None));
      if !DistinctIds(StoredRequirements(given.requirements)) || !DistinctIds(StoredDecisions(given.decisions)) {
        return Err(DuplicateFact);
      }
      var id := nextTask;
      tasks := tasks[id := Task(Stored(given.(taskId := Some(id))), 1, hash)];
      nextTask := nextTask + 1;
      return Ok(id);
    }

    method UpdateTask(id: nat, expected: int, p: Patch) returns (r: Result<Task, Error>)
      modifies `tasks
      ensures match Update(old(State()), id, expected, p)
              case Err(e) => r == Err(e) && State() == old(State())
              case Ok(st) => State() == st && id in tasks && r == Ok(tasks[id])
    {
      if id !in tasks {
        return Err(TaskNotFound);
      }
      var current := tasks[id];
      var merged := Merged(current.state, p);
      var hash := DigestOf(merged);
      if current.version != expected {
        return Err(VersionConflict(current.version));
      }
      var state := merged;
      if p.requirements.Some? || p.decisions.Some? {
        if !Storable(merged) {
          return Err(DuplicateFact);
        }
        state := Stored(merged);
      }
      var updated := Task(state, current.version + 1, hash);
      tasks := tasks[id := updated];
      return Ok(updated);
    }

    method CreateCheckpoint(id: nat, kind: string, parent: Option<nat>, from: int, to: int)
      returns (r: Result<nat, Error>)
      modifies `checkpoints, `nextCheckpoint
      ensures match MakeCheckpoint(old(State()), id, kind, parent, from, to)
              case Err(e) => r == Err(e) && State() == old(State())
              case Ok(st) => r == Ok(old(nextCheckpoint)) && State() == st
    {
      if id !in tasks {
        return Err(TaskNotFound);
      }
      var snapshot := tasks[id].state;
      var parentSnapshot: Option<Snapshot> := None;
      if parent.Some? {
        if parent.value !in checkpoints || checkpoints[parent.value].taskId != id {
          return Err(ParentNotFound);
        }
        parentSnapshot := Some(checkpoints[parent.value].snapshot);
      }
      var validation := Validate(snapshot, from, to, parentSnapshot);
      if !Valid(validation) {
        return Err(Invalid(validation.problems));
      }
      var c := nextCheckpoint;
      checkpoints := checkpoints[c := Checkpoint(id, parent, kind, from, to, snapshot, DigestOf(snapshot), validation)];
      nextCheckpoint := nextCheckpoint + 1;
      return Ok(c);
    }

    method RestoreCheckpoint(id: nat, checkpoint: nat, expected: int, resume: bool) returns (r: Result<Task, Error>)
      modifies `tasks
      ensures match Restore(old(State()), id, checkpoint, expected, resume)
              case Err(e) => r == Err(e) && State() == old(State())
              case Ok(st) => State() == st && id in tasks && r == Ok(tasks[id])
    {
      if checkpoint !in checkpoints || checkpoints[checkpoint].taskId != id {
        return Err(CheckpointNotFound);
      }
      var c := checkpoints[checkpoint];
      if DigestOf(c.snapshot) != c.hash {
        return Err(IntegrityFailed);
      }
      if !Valid(c.report) {
        return Err(NotRestorable);
      }
      r := UpdateTask(id, expected, RestorePatch(c.snapshot, resume));
    }
  }

  // ---------------------------------------------------------------- every reachable store

  datatype Op =
    | CreateOp(given: Snapshot)
    | UpdateOp(id: nat, expected: int, patch: Patch)
    | CheckpointOp(id: nat, kind: string, parent: Option<nat>, from: int, to: int)
    | RestoreOp(id: nat, checkpoint: nat, expected: int, resume: bool)

  function Try(st: Store, op: Op): Result<Store, Error> {
    match op
    case CreateOp(given) => Create(st, given)
    case UpdateOp(id, expected, patch) => Update(st, id, expected, patch)
    case CheckpointOp(id, kind, parent, from, to) => MakeCheckpoint(st, id, kind, parent, from, to)
    case RestoreOp(id, checkpoint, expected, resume) => Restore(st, id, checkpoint, expected, resume)
  }

  /** A refused operation leaves the store as it was. */
  function Do(st: Store, op: Op): Store {
    match Try(st, op)
    case Ok(next) => next
    case Err(_) => st
  }

  function DoAll(st: Store, ops: seq<Op>): Store {
    if ops == [] then st else Do(DoAll(st, ops[..|ops| - 1]), ops[|ops| - 1])
  }

  /** Tasks hold their own id and facts in stored form; checkpoints are intact, valid, and of a
      known task; a parent is an older checkpoint of the same task whose constraints are kept. */
  predicate GoodTask(id: nat, t: Task) {
    t.state.taskId == Some(id) && Normal(t.state) && Storable(t.state) && t.version >= 1
  }

  predicate GoodCheckpoint(st: Store, id: nat, c: Checkpoint) {
    && c.taskId in st.tasks && c.snapshot.taskId == Some(c.taskId) && Normal(c.snapshot) && Storable(c.snapshot)
    && c.hash == DigestOf(c.snapshot) && Valid(c.report)
    && (c.parent.Some? ==>
          && c.parent.value < id && c.parent.value in st.checkpoints
          && st.checkpoints[c.parent.value].taskId == c.taskId
          && Preserved(st.checkpoints[c.parent.value].snapshot) <= Preserved(c.snapshot))
  }

  predicate Good(st: Store) {
    && (forall id :: id in st.tasks ==> id < st.nextTask && GoodTask(id, st.tasks[id]))
    && (forall id :: id in st.checkpoints ==> id < st.nextCheckpoint && GoodCheckpoint(st, id, st.checkpoints[id]))
  }

  lemma MergedNormal(s: Snapshot, p: Patch)
    requires Normal(s) && p.requirements.None? && p.decisions.None?
    ensures Normal(Merged(s, p))
  {
  }

  lemma StoredStorable(s: Snapshot)
    requires Storable(s)
    ensures Storable(Stored(s))
  {
    StoredIsNormal(s);
    assert StoredRequirements(Stored(s).requirements) == StoredRequirements(s.requirements);
    assert StoredDecisions(Stored(s).decisions) == StoredDecisions(s.decisions);
  }

  lemma UpdateKeepsGood(st: Store, id: nat, expected: int, p: Patch)
    requires Good(st) && Update(st, id, expected, p).Ok?
    ensures Good(Update(st, id, expected, p).value)
  {
    var t := st.tasks[id];
    var merged := Merged(t.state, p);
    if p.requirements.Some? || p.decisions.Some? {
      StoredIsNormal(merged);
      StoredStorable(merged);
    } else {
      MergedNormal(t.state, p);
    }
    var next := Update(st, id, expected, p).value;
    assert GoodTask(id, next.tasks[id]);
    forall c | c in next.checkpoints ensures GoodCheckpoint(next, c, next.checkpoints[c]) {
      assert GoodCheckpoint(st, c, st.checkpoints[c]);
    }
  }

  lemma CreateKeepsGood(st: Store, given: Snapshot)
    requires Good(st) && Create(st, given).Ok?
    ensures Good(Create(st, given).value)
  {
    var next := Create(st, given).value;
    StoredIsNormal(given.(taskId := Some(st.nextTask)));
    StoredStorable(given.(taskId := Some(st.nextTask)));
    assert GoodTask(st.nextTask, next.tasks[st.nextTask]);
    forall c | c in next.checkpoints ensures GoodCheckpoint(next, c, next.checkpoints[c]) {
      assert GoodCheckpoint(st, c, st.checkpoints[c]);
    }
  }

  lemma CheckpointKeepsGood(st: Store, id: nat, kind: string, parent: Option<nat>, from: int, to: int)
    requires Good(st) && MakeCheckpoint(st, id, kind, parent, from, to).Ok?
    ensures Good(MakeCheckpoint(st, id, kind, parent, from, to).value)
  {
    var next := MakeCheckpoint(st, id, kind, parent, from, to).value;
    ValidExactly(st.tasks[id].state, from, to,
                 if parent.Some? then Some(st.checkpoints[parent.value].snapshot) else None);
    assert GoodTask(id, st.tasks[id]);
    forall c | c in next.checkpoints ensures c < next.nextCheckpoint && GoodCheckpoint(next, c, next.checkpoints[c]) {
      if c != st.nextCheckpoint {
        assert GoodCheckpoint(st, c, st.checkpoints[c]);
      }
    }
  }

  lemma {:induction false} GoodAlways(st: Store, ops: seq<Op>)
    requires Good(st)
    ensures Good(DoAll(st, ops))
  {
    if ops != [] {
      var front, op := DoAll(st, ops[..|ops| - 1]), ops[|ops| - 1];
      GoodAlways(st, ops[..|ops| - 1]);
      if Try(front, op).Ok? {
        match op
        case CreateOp(given) => CreateKeepsGood(front, given);
        case UpdateOp(id, expected, patch) => UpdateKeepsGood(front, id, expected, patch);
        case CheckpointOp(id, kind, parent, from, to) => CheckpointKeepsGood(front, id, kind, parent, from, to);
        case RestoreOp(id, checkpoint, expected, resume) =>
          UpdateKeepsGood(front, id, expected, RestorePatch(front.checkpoints[checkpoint].snapshot, resume));
      }
    }
  }
}
