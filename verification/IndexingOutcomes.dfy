/** Which outcome an indexing operation has, from its text and from the steps that fail: an operation
    fails only where one of its steps does. */
module IndexingOutcomes {
  import opened Basics
  import opened Indexing
  import opened IndexingLaws

  /** None of the steps of building fails, and there is something to build. `t` is the step at which
      processing starts: marking, then splitting, embedding, writing the vectors and committing. */
  predicate Builds(w: World, t: nat, pieces: seq<string>) {
    pieces != [] && !w.fails(t + 1) && !w.fails(t + 2) && !w.fails(t + 3) && !w.fails(t + 4)
  }

  /** The step that marks a document failed: the one after the step that broke off. */
  function MarkingStep(w: World, t: nat, pieces: seq<string>): nat {
    if pieces == [] || w.fails(t + 1) || w.fails(t + 2) then t + 3 else if w.fails(t + 3) then t + 4 else t + 5
  }

  /** Ready iff nothing fails; raised iff the first mark fails, or building breaks off and the second
      mark fails too; failed otherwise. */
  predicate OutcomeIs(w: World, t: nat, pieces: seq<string>, o: Outcome) {
    && (o == Returned(Ready) <==> !w.fails(t) && Builds(w, t, pieces))
    && (o == Raised <==> w.fails(t) || (!Builds(w, t, pieces) && w.fails(MarkingStep(w, t, pieces))))
    && (o == Returned(Failed) <==> !w.fails(t) && !Builds(w, t, pieces) && !w.fails(MarkingStep(w, t, pieces)))
  }

  lemma WriteExactly(w: World, st: Store, id: nat, pieces: seq<string>)
    ensures Write(w, st, id, pieces).0 <==> !w.fails(st.tick) && !w.fails(st.tick + 1)
    ensures Write(w, st, id, pieces).1.tick == if w.fails(st.tick) then st.tick + 1 else st.tick + 2
  {
  }

  lemma BuildExactly(w: World, st: Store, id: nat)
    requires id in st.working.documents && st.tick > 0
    ensures var t, pieces := st.tick - 1, w.split(st.working.documents[id].content);
            && (Build(w, st, id).0 <==> Builds(w, t, pieces))
            && (!Build(w, st, id).0 ==> Build(w, st, id).1.tick == MarkingStep(w, t, pieces))
  {
    var t, pieces := st.tick - 1, w.split(st.working.documents[id].content);
    WriteExactly(w, st.(tick := st.tick + 2), id, pieces);
  }

  /** What processing a known document comes to. */
  lemma ProcessExactly(w: World, st: Store, id: nat)
    requires id in st.working.documents
    ensures OutcomeIs(w, st.tick, w.split(st.working.documents[id].content), Process(w, st, id).0)
  {
    var marked := Commit(SetStatus(Ticked(st), id, Processing, None));
    assert marked.working.documents[id].content == st.working.documents[id].content;
    BuildExactly(w, marked, id);
  }

  /** Ingesting: rejected for the text alone; raised if adding the document fails; else as processing it. */
  lemma IngestExactly(w: World, st: Store, base: nat, content: string)
    ensures var o := Ingest(w, st, base, content).0;
            if content == "" || |content| > w.maxChars ||
               exists d :: d in st.working.documents && st.working.documents[d].base == base &&
                           st.working.documents[d].content == content
            then o == Rejected
            else if w.fails(st.tick) then o == Raised
            else OutcomeIs(w, st.tick + 1, w.split(content), o)
  {
    if !(content == "" || |content| > w.maxChars || Duplicate(st.working, base, content)) && !w.fails(st.tick) {
      ProcessExactly(w, Added(st, base, content), st.nextId);
    }
  }

  /** Dropping an index takes two steps. */
  lemma DropExactly(w: World, st: Store, id: nat)
    ensures DropIndexOf(w, st, id).0 <==> !w.fails(st.tick) && !w.fails(st.tick + 1)
    ensures DropIndexOf(w, st, id).0 ==>
              DropIndexOf(w, st, id).1.tick == st.tick + 2 &&
              DropIndexOf(w, st, id).1.working.documents == st.working.documents
  {
  }

  /** Reingesting: rejected iff unknown; raised if giving up the old index fails; else as processing. */
  lemma ReingestExactly(w: World, st: Store, id: nat)
    ensures var o := Reingest(w, st, id).0;
            if id !in st.working.documents then o == Rejected
            else if w.fails(st.tick) || w.fails(st.tick + 1) then o == Raised
            else OutcomeIs(w, st.tick + 2, w.split(st.working.documents[id].content), o)
  {
    DropExactly(w, st, id);
    if DropIndexOf(w, st, id).0 && id in st.working.documents {
      ProcessExactly(w, Commit(DropIndexOf(w, st, id).1), id);
    }
  }

  /** Deleting: rejected iff unknown, deleted iff known and neither drop fails, raised otherwise. */
  lemma DeleteExactly(w: World, st: Store, id: nat)
    ensures var o := Delete(w, st, id).0;
            && (o == Rejected <==> id !in st.working.documents)
            && (o == Deleted <==> id in st.working.documents && !w.fails(st.tick) && !w.fails(st.tick + 1))
            && (o == Raised <==> id in st.working.documents && (w.fails(st.tick) || w.fails(st.tick + 1)))
  {
    DropExactly(w, st, id);
  }

  /** Every vector but those of a document, and no other. */
  ghost predicate WithoutVectorsOf(was: map<nat, nat>, now: map<nat, nat>, id: nat) {
    && (forall c :: c in now <==> c in was && was[c] != id)
    && (forall c :: c in now ==> now[c] == was[c])
  }

  /** What a delete does to an outside store: nothing if its first step fails, and otherwise the vectors
      of the document are gone for good, even where the delete then raises. */
  lemma OutsideAfterDelete(w: World, st: Store, id: nat)
    requires id in st.working.documents
    ensures var next := Delete(w, st, id).1;
            if w.transactional || w.fails(st.tick) then next.outside == st.outside
            else WithoutVectorsOf(st.outside, next.outside, id)
  {
  }

  /** Where no step fails, a new text that splits into something becomes ready, with all its chunks, one
      vector each, and the chunk count: in every sound transactional store. */
  lemma IngestsWhatItCan(w: World, st: Store, base: nat, content: string)
    requires w.transactional && Sound(w, st) && forall k :: st.tick <= k <= st.tick + 5 ==> !w.fails(k)
    requires content != "" && |content| <= w.maxChars && !Duplicate(st.working, base, content) && w.split(content) != []
    ensures var (o, next) := Ingest(w, st, base, content);
            && o == Returned(Ready) && Sound(w, next) && st.nextId in next.committed.documents
            && next.committed.documents[st.nextId] == Document(base, content, Ready, |w.split(content)|)
            && Indexed(next.committed, st.nextId, w.split(content))
  {
    IngestExactly(w, st, base, content);
    IngestSound(w, st, base, content);
    KeepsBase(w, Added(st, base, content), st.nextId);
  }

  lemma KeepsBase(w: World, st: Store, id: nat)
    requires w.transactional && Waiting(st, id)
    ensures var next := Process(w, st, id).1;
            id in next.committed.documents && next.committed.documents[id].base == st.committed.documents[id].base
  {
  }
}
