/** What each operation on tasks and checkpoints answers and leaves, told from its arguments: which of them
    are refused and why, what a new state holds in each field, and how facts are stored. */
module ControlOutcomes {
  import opened Basics
  import opened Text
  import opened TaskState
  import opened ControlPlane

  // ---------------------------------------------------------------- facts

  /** A prefix and a number of three digits at least. */
  predicate Numbered(id: string, prefix: string, n: nat) {
    && |id| >= |prefix| + 3 && prefix <= id
    && var (digits, text) := (id[|prefix|..], Decimal(n));
       && |text| <= |digits| && digits[|digits| - |text|..] == text
       && (forall i :: 0 <= i < |digits| - |text| ==> digits[i] == '0')
       && (|digits| > 3 ==> digits == text)
  }

  /** How the n-th requirement given is stored. */
  predicate IsRequirement(given: Fact, n: nat, f: Fact) {
    && f.text == given.text && f.source == given.source
    && (if given.id != "" then f.id == given.id else Numbered(f.id, "REQ-", n))
    && f.status == (if given.status != "" then given.status else "active")
    && f.evidence == (if given.evidence != [] then given.evidence
                      else if given.source != "" then ["event:" + given.source] else [])
  }

  /** A decision is stored without its source. */
  predicate IsDecision(given: Fact, n: nat, f: Fact) {
    && f.text == given.text && f.source == "" && f.evidence == given.evidence
    && (if given.id != "" then f.id == given.id else Numbered(f.id, "DEC-", n))
    && f.status == (if given.status != "" then given.status else "active")
  }

  predicate AreRequirements(given: seq<Fact>, fs: seq<Fact>) {
    |fs| == |given| && forall i :: 0 <= i < |fs| ==> IsRequirement(given[i], i + 1, fs[i])
  }

  predicate AreDecisions(given: seq<Fact>, fs: seq<Fact>) {
    |fs| == |given| && forall i :: 0 <= i < |fs| ==> IsDecision(given[i], i + 1, fs[i])
  }

  predicate Repeats(fs: seq<Fact>) { exists i, j :: 0 <= i < j < |fs| && fs[i].id == fs[j].id }

  lemma DigitsOf(n: nat)
    ensures |Decimal(n)| >= 1 && (n < 10 ==> |Decimal(n)| == 1) && (10 <= n < 100 ==> |Decimal(n)| == 2)
    ensures n >= 100 ==> |Decimal(n)| >= 3
  {
    if n >= 10 {
      DigitsOf(n / 10);
    }
  }

  lemma PaddedIsNumbered(prefix: string, n: nat)
    ensures Numbered(prefix + Padded(n), prefix, n)
  {
    DigitsOf(n);
    assert (prefix + Padded(n))[|prefix|..] == Padded(n);
  }

  /** Facts are stored in order, with what was given and the defaults for what was not. */
  lemma FactsExactly(given: seq<Fact>)
    ensures AreRequirements(given, StoredRequirements(given)) && AreDecisions(given, StoredDecisions(given))
  {
    forall i | 0 <= i < |given|
      ensures IsRequirement(given[i], i + 1, StoredRequirements(given)[i])
      ensures IsDecision(given[i], i + 1, StoredDecisions(given)[i])
    {
      PaddedIsNumbered("REQ-", i + 1);
      PaddedIsNumbered("DEC-", i + 1);
    }
  }

  // ---------------------------------------------------------------- creating and updating

  /** Two facts of the state would be stored under one id. */
  predicate Clashes(s: Snapshot) {
    Repeats(StoredRequirements(s.requirements)) || Repeats(StoredDecisions(s.decisions))
  }

  /** Everything but the facts and the id is as given. */
  predicate SamePlain(a: Snapshot, b: Snapshot) {
    && a.goal == b.goal && a.criteria == b.criteria && a.progress == b.progress && a.failures == b.failures
    && a.questions == b.questions && a.actions == b.actions && a.mustPreserve == b.mustPreserve
    && a.environment == b.environment && a.artifacts == b.artifacts && a.status == b.status
    && a.eventSeq == b.eventSeq
  }

  /** A new task is refused iff two of its facts share an id; otherwise it gets the next id and version 1,
      holds what was given, and nothing else changes. */
  lemma CreateExactly(st: Store, given: Snapshot)
    ensures var r := Create(st, given);
            && (r == Err(DuplicateFact) <==> Clashes(given)) && (r.Ok? <==> !Clashes(given))
            && (r.Ok? ==>
                  && st.nextTask in r.value.tasks
                  && var t := r.value.tasks[st.nextTask];
                  && r.value == st.(tasks := st.tasks[st.nextTask := t], nextTask := st.nextTask + 1)
                  && t.version == 1 && t.state.taskId == Some(st.nextTask) && SamePlain(t.state, given)
                  && AreRequirements(given.requirements, t.state.requirements)
                  && AreDecisions(given.decisions, t.state.decisions))
  {
    FactsExactly(given.requirements);
    FactsExactly(given.decisions);
  }

  /** The patch with its facts as they are stored in the state `a`. */
  function InForm(p: Patch, a: Snapshot): Patch {
    p.(requirements := if p.requirements.Some? then Some(a.requirements) else None,
       decisions := if p.decisions.Some? then Some(a.decisions) else None)
  }

  /** The state an update leaves: fields that were given replace the old ones, facts in stored form. */
  predicate Updated(s: Snapshot, p: Patch, a: Snapshot) {
    && PutOver(s, InForm(p, a), a)
    && (p.requirements.Some? ==> AreRequirements(p.requirements.value, a.requirements))
    && (p.decisions.Some? ==> AreDecisions(p.decisions.value, a.decisions))
  }

  /** In every reachable store: an update fails iff the task is unknown, its version is another one, or
      given facts would share an id, in this order. Otherwise exactly the given fields of this task are
      replaced and its version goes up by one. */
  lemma UpdateExactly(ops: seq<Op>, id: nat, expected: int, p: Patch)
    ensures var st := DoAll(EmptyStore(), ops);
            var r := Update(st, id, expected, p);
            if id !in st.tasks then r == Err(TaskNotFound)
            else
              var t := st.tasks[id];
              if t.version != expected then r == Err(VersionConflict(t.version))
              else if (p.requirements.Some? || p.decisions.Some?) && Clashes(Merged(t.state, p))
              then r == Err(DuplicateFact)
              else
                && r.Ok? && id in r.value.tasks
                && var after := r.value.tasks[id];
                && r.value == st.(tasks := st.tasks[id := after]) && after.version == t.version + 1
                && Updated(t.state, p, after.state)
  {
    var st := DoAll(EmptyStore(), ops);
    GoodAlways(EmptyStore(), ops);
    if id in st.tasks {
      assert GoodTask(id, st.tasks[id]);
      var m := Merged(st.tasks[id].state, p);
      FactsExactly(m.requirements);
      FactsExactly(m.decisions);
      MergedExactly(st.tasks[id].state, p, m);
    }
  }

  // ---------------------------------------------------------------- checkpoints

  /** No constraint of the parent that has a text is missing. */
  predicate KeepsConstraints(parent: Snapshot, s: Snapshot) {
    forall v :: v in parent.mustPreserve && v != "" ==> v in s.mustPreserve
  }

  predicate Supported(fs: seq<Fact>) { forall i :: 0 <= i < |fs| ==> fs[i].evidence != [] || fs[i].source != "" }

  lemma PreservedExactly(parent: Snapshot, s: Snapshot)
    ensures Preserved(parent) <= Preserved(s) <==> KeepsConstraints(parent, s)
  {
    if Preserved(parent) <= Preserved(s) {
      forall v | v in parent.mustPreserve && v != "" ensures v in s.mustPreserve {
        assert v in Preserved(parent);
      }
    }
  }

  /** A checkpoint is refused iff its task or its parent is unknown, the parent is of another task, or what
      it would hold is invalid; otherwise it holds the state of the task as it is, and nothing else changes. */
  lemma CheckpointExactly(st: Store, id: nat, kind: string, parent: Option<nat>, from: int, to: int)
    ensures var r := MakeCheckpoint(st, id, kind, parent, from, to);
            if id !in st.tasks then r == Err(TaskNotFound)
            else if parent.Some? && (parent.value !in st.checkpoints || st.checkpoints[parent.value].taskId != id)
            then r == Err(ParentNotFound)
            else
              var s := st.tasks[id].state;
              if 0 <= from <= to && Supported(s.requirements) && Supported(s.decisions) &&
                 (parent.Some? ==> KeepsConstraints(st.checkpoints[parent.value].snapshot, s))
              then
                && r.Ok? && st.nextCheckpoint in r.value.checkpoints
                && var c := r.value.checkpoints[st.nextCheckpoint];
                && r.value == st.(checkpoints := st.checkpoints[st.nextCheckpoint := c],
                                  nextCheckpoint := st.nextCheckpoint + 1)
                && c.taskId == id && c.parent == parent && c.kind == kind && c.from == from && c.to == to
                && c.snapshot == s && c.hash == DigestOf(s)
              else r.Err? && r.error.Invalid?
  {
    if id in st.tasks && (parent.Some? ==> parent.value in st.checkpoints) {
      var s := st.tasks[id].state;
      ValidExactly(s, from, to, if parent.Some? then Some(st.checkpoints[parent.value].snapshot) else None);
      if parent.Some? {
        PreservedExactly(st.checkpoints[parent.value].snapshot, s);
      }
    }
  }

  /** In every reachable store: a restore fails only because the checkpoint is not one of the task or the
      version is not current, and leaves the task running if it is to be resumed and paused if not. */
  lemma RestoreExactly(ops: seq<Op>, id: nat, checkpoint: nat, expected: int, resume: bool)
    ensures var st := DoAll(EmptyStore(), ops);
            var r := Restore(st, id, checkpoint, expected, resume);
            if checkpoint !in st.checkpoints || st.checkpoints[checkpoint].taskId != id
            then r == Err(CheckpointNotFound)
            else
              && id in st.tasks
              && if st.tasks[id].version != expected then r == Err(VersionConflict(st.tasks[id].version))
                 else
                   && r.Ok? && id in r.value.tasks
                   && var c, a := st.checkpoints[checkpoint].snapshot, r.value.tasks[id].state;
                   && a.status == (if resume then "running" else "paused")
                   && a.environment == (if c.environment.Some? then c.environment else st.tasks[id].state.environment)
                   && a == c.(status := a.status, environment := a.environment)
  {
    var st := DoAll(EmptyStore(), ops);
    GoodAlways(EmptyStore(), ops);
    if checkpoint in st.checkpoints && st.checkpoints[checkpoint].taskId == id {
      assert GoodCheckpoint(st, checkpoint, st.checkpoints[checkpoint]);
      assert GoodTask(id, st.tasks[id]);
      var c := st.checkpoints[checkpoint].snapshot;
      var merged := Merged(st.tasks[id].state, RestorePatch(c, resume));
      assert StoredRequirements(merged.requirements) == StoredRequirements(c.requirements);
      assert StoredDecisions(merged.decisions) == StoredDecisions(c.decisions);
    }
  }
}
