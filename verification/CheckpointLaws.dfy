/** What holds of every reachable store: restore inverts checkpoint, versions admit no lost
    update, digests are exact or known to be stale, and constraints are inherited for ever. */
module CheckpointLaws {
  import opened Basics
  import opened TaskState
  import opened ControlPlane

  // ---------------------------------------------------------------- what never changes

  /** Tasks stay, keep their id, and their versions never go back; checkpoints never change. */
  predicate Later(st: Store, next: Store) {
    && (forall id :: id in st.tasks ==> id in next.tasks && st.tasks[id].version <= next.tasks[id].version)
    && (forall c :: c in st.checkpoints ==> c in next.checkpoints && next.checkpoints[c] == st.checkpoints[c])
  }

  lemma UpdateIsLater(st: Store, id: nat, expected: int, p: Patch)
    requires Update(st, id, expected, p).Ok?
    ensures Later(st, Update(st, id, expected, p).value)
  {
  }

  lemma DoIsLater(st: Store, op: Op)
    requires Good(st)
    ensures Later(st, Do(st, op))
  {
    if Try(st, op).Ok? {
      match op
      case UpdateOp(id, expected, patch) => UpdateIsLater(st, id, expected, patch);
      case RestoreOp(id, checkpoint, expected, resume) =>
        UpdateIsLater(st, id, expected, RestorePatch(st.checkpoints[checkpoint].snapshot, resume));
      case _ =>
    }
  }

  lemma {:induction false} DoAllIsLater(st: Store, ops: seq<Op>)
    requires Good(st)
    ensures Good(DoAll(st, ops)) && Later(st, DoAll(st, ops))
  {
    GoodAlways(st, ops);
    if ops != [] {
      var front := ops[..|ops| - 1];
      DoAllIsLater(st, front);
      DoIsLater(DoAll(st, front), ops[|ops| - 1]);
    }
  }

  // ---------------------------------------------------------------- versions

  /** An expected version is good for one update: whatever happens after it succeeded, a second
      update or restore that expects the same version is refused. */
  lemma NoLostUpdate(ops: seq<Op>, id: nat, expected: int, p: Patch, later: seq<Op>, q: Patch)
    requires Update(DoAll(EmptyStore(), ops), id, expected, p).Ok?
    ensures var st := DoAll(Update(DoAll(EmptyStore(), ops), id, expected, p).value, later);
            id in st.tasks && Update(st, id, expected, q) == Err(VersionConflict(st.tasks[id].version)) &&
            expected < st.tasks[id].version
  {
    GoodAlways(EmptyStore(), ops);
    var st1 := Update(DoAll(EmptyStore(), ops), id, expected, p).value;
    UpdateKeepsGood(DoAll(EmptyStore(), ops), id, expected, p);
    DoAllIsLater(st1, later);
  }

  /** Whether an operation, if it succeeds, is an update of this task. */
  predicate Updates(st: Store, op: Op, id: nat) {
    Try(st, op).Ok? && ((op.UpdateOp? && op.id == id) || (op.RestoreOp? && op.id == id))
  }

  function UpdatesOf(ops: seq<Op>, id: nat): nat {
    if ops == [] then 0
    else
      UpdatesOf(ops[..|ops| - 1], id) +
      (if Updates(DoAll(EmptyStore(), ops[..|ops| - 1]), ops[|ops| - 1], id) then 1 else 0)
  }

  /** The version is one more than the number of successful updates and restores of the task. */
  lemma {:induction false} VersionCountsUpdates(ops: seq<Op>, id: nat)
    ensures var st := DoAll(EmptyStore(), ops);
            if id in st.tasks then st.tasks[id].version == 1 + UpdatesOf(ops, id) else UpdatesOf(ops, id) == 0
  {
    if ops != [] {
      var front := ops[..|ops| - 1];
      VersionCountsUpdates(front, id);
      GoodAlways(EmptyStore(), front);
      OneVersion(DoAll(EmptyStore(), front), ops[|ops| - 1], id);
    }
  }

  lemma OneVersion(st: Store, op: Op, id: nat)
    requires Good(st)
    ensures id in st.tasks ==>
              id in Do(st, op).tasks &&
              Do(st, op).tasks[id].version == st.tasks[id].version + (if Updates(st, op, id) then 1 else 0)
    ensures id !in st.tasks ==> !Updates(st, op, id) && (id in Do(st, op).tasks ==> Do(st, op).tasks[id].version == 1)
  {
  }

  // ---------------------------------------------------------------- digests

  predicate Fresh(t: Task) { t.hash == DigestOf(t.state) }

  /** After an update the stored digest is that of the stored state exactly when the facts were
      given in the form in which they are stored. */
  lemma DigestAfterUpdate(st: Store, id: nat, expected: int, p: Patch)
    requires Good(st) && Update(st, id, expected, p).Ok?
    ensures Fresh(Update(st, id, expected, p).value.tasks[id]) <==> Normal(Merged(st.tasks[id].state, p))
  {
    if p.requirements.None? && p.decisions.None? {
      MergedNormal(st.tasks[id].state, p);
    }
  }

  /** The digest of a new task never is: it was taken before the task had its id. */
  lemma DigestAfterCreate(st: Store, given: Snapshot)
    requires Create(st, given).Ok?
    ensures !Fresh(Create(st, given).value.tasks[st.nextTask])
  {
  }

  // ---------------------------------------------------------------- restore inverts checkpoint

  /** Restoring succeeds exactly when the checkpoint is one of the task and the version is current. */
  lemma RestoreSucceedsExactly(ops: seq<Op>, id: nat, checkpoint: nat, expected: int, resume: bool)
    ensures var st := DoAll(EmptyStore(), ops);
            Restore(st, id, checkpoint, expected, resume).Ok? <==>
              && checkpoint in st.checkpoints && st.checkpoints[checkpoint].taskId == id
              && id in st.tasks && st.tasks[id].version == expected
  {
    var st := DoAll(EmptyStore(), ops);
    GoodAlways(EmptyStore(), ops);
    if checkpoint in st.checkpoints && st.checkpoints[checkpoint].taskId == id {
      assert GoodCheckpoint(st, checkpoint, st.checkpoints[checkpoint]);
      assert GoodTask(id, st.tasks[id]);
      var c := st.checkpoints[checkpoint].snapshot;
      assert Storable(Merged(st.tasks[id].state, RestorePatch(c, resume)));
    }
  }

  /** What a restore makes of a task, from the checkpoint's snapshot and the task before it. */
  lemma RestoreResult(st: Store, id: nat, checkpoint: nat, expected: int, resume: bool)
    requires Good(st) && Restore(st, id, checkpoint, expected, resume).Ok?
    ensures var next := Restore(st, id, checkpoint, expected, resume).value;
            var c, before, after := st.checkpoints[checkpoint].snapshot, st.tasks[id], next.tasks[id];
            && after.state == c.(status := StatusFor(resume),
                                 environment := if c.environment.Some? then c.environment else before.state.environment)
            && after.version == before.version + 1 && Fresh(after)
            && next == st.(tasks := st.tasks[id := after])
  {
    var c := st.checkpoints[checkpoint].snapshot;
    assert GoodCheckpoint(st, checkpoint, st.checkpoints[checkpoint]);
    assert GoodTask(id, st.tasks[id]);
    var merged := Merged(st.tasks[id].state, RestorePatch(c, resume));
    assert merged.requirements == c.requirements && merged.decisions == c.decisions;
    assert Stored(merged) == merged;
  }

  /** A checkpoint is taken, anything happens, the task is restored: it is again as it was when the
      checkpoint was taken, in every field but the status, exactly if the checkpoint held an
      environment or the task holds none now. The version goes up and the digest is exact. */
  lemma RestoreInvertsCheckpoint(ops: seq<Op>, id: nat, kind: string, parent: Option<nat>, from: int, to: int,
                                 later: seq<Op>, resume: bool)
    requires MakeCheckpoint(DoAll(EmptyStore(), ops), id, kind, parent, from, to).Ok?
    ensures var st0 := DoAll(EmptyStore(), ops);
            var st := DoAll(MakeCheckpoint(st0, id, kind, parent, from, to).value, later);
            && id in st.tasks
            && var restored := Restore(st, id, st0.nextCheckpoint, st.tasks[id].version, resume);
            && restored.Ok?
            && var was, after := st0.tasks[id].state, restored.value.tasks[id];
            && (after.state == was.(status := StatusFor(resume)) <==>
                  was.environment.Some? || st.tasks[id].state.environment.None?)
            && after.state == was.(status := StatusFor(resume), environment := after.state.environment)
            && after.version == st.tasks[id].version + 1 && Fresh(after)
  {
    var st0 := DoAll(EmptyStore(), ops);
    GoodAlways(EmptyStore(), ops);
    CheckpointKeepsGood(st0, id, kind, parent, from, to);
    var st1 := MakeCheckpoint(st0, id, kind, parent, from, to).value;
    DoAllIsLater(st1, later);
    var st := DoAll(st1, later);
    var c := st0.nextCheckpoint;
    assert st1.checkpoints[c].snapshot == st0.tasks[id].state;
    assert GoodCheckpoint(st, c, st.checkpoints[c]) && GoodTask(id, st.tasks[id]);
    assert Storable(Merged(st.tasks[id].state, RestorePatch(st.checkpoints[c].snapshot, resume)));
    RestoreResult(st, id, c, st.tasks[id].version, resume);
  }

  // ---------------------------------------------------------------- chains of checkpoints

  /** The checkpoint `n` parents up. */
  function Ancestor(st: Store, c: nat, n: nat): Option<nat>
    decreases n
  {
    if c !in st.checkpoints then None
    else if n == 0 then Some(c)
    else if st.checkpoints[c].parent.None? then None
    else Ancestor(st, st.checkpoints[c].parent.value, n - 1)
  }

  /** At any distance: an ancestor is an older checkpoint of the same task, all its constraints
      are among the descendant's, and both digests match their snapshots. */
  lemma {:induction false} ConstraintsAreInherited(ops: seq<Op>, c: nat, n: nat)
    requires Ancestor(DoAll(EmptyStore(), ops), c, n).Some?
    ensures var st := DoAll(EmptyStore(), ops);
            var a := Ancestor(st, c, n).value;
            && a in st.checkpoints && c in st.checkpoints && a + n <= c
            && st.checkpoints[a].taskId == st.checkpoints[c].taskId
            && Preserved(st.checkpoints[a].snapshot) <= Preserved(st.checkpoints[c].snapshot)
            && st.checkpoints[a].hash == DigestOf(st.checkpoints[a].snapshot)
            && st.checkpoints[c].hash == DigestOf(st.checkpoints[c].snapshot)
    decreases n
  {
    var st := DoAll(EmptyStore(), ops);
    GoodAlways(EmptyStore(), ops);
    assert GoodCheckpoint(st, c, st.checkpoints[c]);
    if n > 0 {
      ConstraintsAreInherited(ops, st.checkpoints[c].parent.value, n - 1);
    }
  }

  /** No checkpoint is its own ancestor. */
  lemma ChainsAreAcyclic(ops: seq<Op>, c: nat, n: nat)
    requires n > 0
    ensures Ancestor(DoAll(EmptyStore(), ops), c, n) != Some(c)
  {
    if Ancestor(DoAll(EmptyStore(), ops), c, n).Some? {
      ConstraintsAreInherited(ops, c, n);
    }
  }
}
