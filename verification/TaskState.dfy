/** Task state, snapshots and the checkpoint validator. */
module TaskState {
  import opened Basics
  import opened Text

  /** A requirement or decision; an empty text stands for an absent field. */
  datatype Fact = Fact(id: string, text: string, status: string, source: string, evidence: seq<string>)

  /** The materialized state that is hashed, stored in checkpoints and restored. */
  datatype Snapshot = Snapshot(
    taskId: Option<nat>,
    goal: string,
    criteria: seq<string>,
    requirements: seq<Fact>,
    decisions: seq<Fact>,
    progress: string,
    failures: seq<string>,
    questions: seq<string>,
    actions: seq<string>,
    mustPreserve: seq<string>,
    environment: Option<string>,
    artifacts: seq<string>,
    status: string,
    eventSeq: int)

  /** The digest of a snapshot; the hash is taken to be injective. */
  datatype Digest = DigestOf(snapshot: Snapshot)

  /** A stored task: its snapshot fields, its version and the digest stored with it. */
  datatype Task = Task(state: Snapshot, version: nat, hash: Digest)

  /** An update; an absent field is left as it is. */
  datatype Patch = Patch(
    goal: Option<string>,
    criteria: Option<seq<string>>,
    requirements: Option<seq<Fact>>,
    decisions: Option<seq<Fact>>,
    progress: Option<string>,
    failures: Option<seq<string>>,
    questions: Option<seq<string>>,
    actions: Option<seq<string>>,
    mustPreserve: Option<seq<string>>,
    environment: Option<string>,
    artifacts: Option<seq<string>>,
    status: Option<string>,
    eventSeq: Option<int>)

  function Or<T>(given: Option<T>, current: T): T { if given.Some? then given.value else current }

  /** The current state with the given fields put over it. */
  function Merged(s: Snapshot, p: Patch): Snapshot {
    Snapshot(
      s.taskId, Or(p.goal, s.goal), Or(p.criteria, s.criteria), Or(p.requirements, s.requirements),
      Or(p.decisions, s.decisions), Or(p.progress, s.progress), Or(p.failures, s.failures),
          Or(p.questions, s.questions),
      Or(p.actions, s.actions), Or(p.mustPreserve, s.mustPreserve),
      if p.environment.Some? then p.environment else s.environment,
      Or(p.artifacts, s.artifacts), Or(p.status, s.status), Or(p.eventSeq, s.eventSeq))
  }

  /** An absent field keeps its value, a given one replaces it. */
  predicate Put<T(==)>(given: Option<T>, was: T, now: T) {
    (given.None? ==> now == was) && (given.Some? ==> now == given.value)
  }

  /** Field by field; only the environment cannot be taken away again, and the task's id never changes. */
  predicate PutOver(s: Snapshot, p: Patch, m: Snapshot) {
    && m.taskId == s.taskId && Put(p.goal, s.goal, m.goal) && Put(p.criteria, s.criteria, m.criteria)
    && Put(p.requirements, s.requirements, m.requirements) && Put(p.decisions, s.decisions, m.decisions)
    && Put(p.progress, s.progress, m.progress) && Put(p.failures, s.failures, m.failures)
    && Put(p.questions, s.questions, m.questions) && Put(p.actions, s.actions, m.actions)
    && Put(p.mustPreserve, s.mustPreserve, m.mustPreserve) && Put(p.artifacts, s.artifacts, m.artifacts)
    && Put(p.status, s.status, m.status) && Put(p.eventSeq, s.eventSeq, m.eventSeq)
    && (p.environment.None? ==> m.environment == s.environment)
    && (p.environment.Some? ==> m.environment == p.environment)
  }

  /** There is one state that an update can leave, and it is the merged one. */
  lemma MergedExactly(s: Snapshot, p: Patch, m: Snapshot)
    ensures PutOver(s, p, m) <==> m == Merged(s, p)
  {
  }

  // ---------------------------------------------------------------- facts as they are stored

  /** Three digits at least, as in a zero-padded number. */
  function Padded(n: nat): string {
    if n < 10 then "00" + Decimal(n) else if n < 100 then "0" + Decimal(n) else Decimal(n)
  }

  function StoredRequirement(f: Fact, number: nat): Fact {
    Fact(if f.id != "" then f.id else "REQ-" + Padded(number), f.text,
         if f.status != "" then f.status else "active", f.source,
         if f.evidence != [] then f.evidence else if f.source != "" then ["event:" + f.source] else [])
  }

  /** Decisions do not keep their source event. */
  function StoredDecision(f: Fact, number: nat): Fact {
    Fact(if f.id != "" then f.id else "DEC-" + Padded(number), f.text,
         if f.status != "" then f.status else "active", "", f.evidence)
  }

  function StoredRequirements(fs: seq<Fact>): seq<Fact> {
    seq(|fs|, i requires 0 <= i < |fs| => StoredRequirement(fs[i], i + 1))
  }

  function StoredDecisions(fs: seq<Fact>): seq<Fact> {
    seq(|fs|, i requires 0 <= i < |fs| => StoredDecision(fs[i], i + 1))
  }

  /** Two facts of one task may not share a key. */
  predicate DistinctIds(fs: seq<Fact>) { forall i, j :: 0 <= i < j < |fs| ==> fs[i].id != fs[j].id }

  /** The state as the store holds it. */
  function Stored(s: Snapshot): Snapshot {
    s.(requirements := StoredRequirements(s.requirements), decisions := StoredDecisions(s.decisions))
  }

  predicate Normal(s: Snapshot) { Stored(s) == s }

  predicate Storable(s: Snapshot) {
    DistinctIds(StoredRequirements(s.requirements)) && DistinctIds(StoredDecisions(s.decisions))
  }

  /** Storing what is stored changes nothing. */
  lemma StoredIsNormal(s: Snapshot)
    ensures Normal(Stored(s))
  {
    assert StoredRequirements(StoredRequirements(s.requirements)) == StoredRequirements(s.requirements);
    assert StoredDecisions(StoredDecisions(s.decisions)) == StoredDecisions(s.decisions);
  }

  // ---------------------------------------------------------------- the validator

  datatype Problem = BadRange | NoEvidence(field: string, index: nat) | Dropped(lost: set<string>)

  predicate HasEvidence(f: Fact) { f.evidence != [] || f.source != "" }

  /** Problems of the first `n` facts of a field. */
  function FactProblems(field: string, fs: seq<Fact>, n: nat): seq<Problem>
    requires n <= |fs|
  {
    if n == 0 then []
    else if HasEvidence(fs[n - 1]) then FactProblems(field, fs, n - 1)
    else FactProblems(field, fs, n - 1) + [NoEvidence(field, n - 1)]
  }

  function Preserved(s: Snapshot): set<string> { set v | v in s.mustPreserve && v != "" }

  function Problems(s: Snapshot, from: int, to: int, parent: Option<Snapshot>): seq<Problem> {
    (if from < 0 || to < from then [BadRange] else []) +
    FactProblems("requirements", s.requirements, |s.requirements|) +
    FactProblems("decisions", s.decisions, |s.decisions|) +
    (if parent.Some? && Preserved(parent.value) - Preserved(s) != {}
        then [Dropped(Preserved(parent.value) - Preserved(s))] else [])
  }

  datatype Validation = Validation(problems: seq<Problem>, inherited: set<string>)

  predicate Valid(v: Validation) { v.problems == [] }

  function Validated(s: Snapshot, from: int, to: int, parent: Option<Snapshot>): Validation {
    Validation(Problems(s, from, to, parent), if parent.Some? then Preserved(parent.value) * Preserved(s) else {})
  }

  lemma {:induction false} NoFactProblems(field: string, fs: seq<Fact>, n: nat)
    requires n <= |fs|
    ensures FactProblems(field, fs, n) == [] <==> forall i :: 0 <= i < n ==> HasEvidence(fs[i])
  {
    if n > 0 {
      NoFactProblems(field, fs, n - 1);
    }
  }

  /** A checkpoint is valid exactly when its event range is a range, every requirement and decision
      has evidence or a source, and no constraint of the parent is lost. */
  lemma ValidExactly(s: Snapshot, from: int, to: int, parent: Option<Snapshot>)
    ensures Valid(Validated(s, from, to, parent)) <==>
              && 0 <= from <= to
              && (forall i :: 0 <= i < |s.requirements| ==> HasEvidence(s.requirements[i]))
              && (forall i :: 0 <= i < |s.decisions| ==> HasEvidence(s.decisions[i]))
              && (parent.Some? ==> Preserved(parent.value) <= Preserved(s))
  {
    NoFactProblems("requirements", s.requirements, |s.requirements|);
    NoFactProblems("decisions", s.decisions, |s.decisions|);
    if parent.Some? {
      var lost := Preserved(parent.value) - Preserved(s);
      assert forall v :: v in Preserved(parent.value) && v !in Preserved(s) ==> v in lost;
    }
  }

  /** The validator's loops, which collect problems in order. */
  method Validate(s: Snapshot, from: int, to: int, parent: Option<Snapshot>) returns (v: Validation)
    ensures v == Validated(s, from, to, parent)
  {
    var problems: seq<Problem> := [];
    if from < 0 || to < from {
      problems := problems + [BadRange];
    }
    ghost var range := problems;
    for i := 0 to |s.requirements|
      invariant problems == range + FactProblems("requirements", s.requirements, i)
    {
      if s.requirements[i].evidence == [] && s.requirements[i].source == "" {
        problems := problems + [NoEvidence("requirements", i)];
      }
    }
    ghost var first := problems;
    for i := 0 to |s.decisions|
      invariant problems == first + FactProblems("decisions", s.decisions, i)
    {
      if s.decisions[i].evidence == [] && s.decisions[i].source == "" {
        problems := problems + [NoEvidence("decisions", i)];
      }
    }
    var current := set x | x in s.mustPreserve && x != "";
    var inherited: set<string> := {};
    if parent.Some? {
      var previous := set x | x in parent.value.mustPreserve && x != "";
      inherited := previous * current;
      var lost := previous - current;
      if lost != {} {
        problems := problems + [Dropped(lost)];
      }
    }
    v := Validation(problems, inherited);
  }
}
