/** The document service as it runs: the open transaction, what is committed and the vectors of an
    outside store are fields that its operations update step by step. */
module IndexingService {
  import opened Basics
  import opened Indexing
  import opened IndexingLaws
  import opened IndexingOutcomes

  class RagService {
    const w: World
    var committed: Db
    var working: Db
    var outside: map<nat, nat>
    var nextId: nat
    var tick: nat

    constructor (w: World)
      ensures this.w == w && State() == Store(Db(map[], map[], map[]), Db(map[], map[], map[]), map[], 0, 0)
    {
      this.w := w;
      committed, working, outside := Db(map[], map[], map[]), Db(map[], map[], map[]), map[];
      nextId, tick := 0, 0;
    }

    function State(): Store
      reads this
    {
      Store(committed, working, outside, nextId, tick)
    }

    /** One step that may raise. */
    method Raises() returns (raised: bool)
      modifies `tick
      ensures tick == old(tick) + 1 && raised == w.fails(old(tick))
    {
      raised := w.fails(tick);
      tick := tick + 1;
    }

    method Mark(id: nat, s: Status, count: Option<nat>)
      modifies `working
      ensures State() == SetStatus(old(State()), id, s, count)
    {
      if id in working.documents {
        var d := working.documents[id];
        working := working.(documents := working.documents[id :=
          d.(status := s, chunkCount := if count.Some? then count.value else d.chunkCount)]);
      }
    }

    method Upsert(vs: map<nat, nat>)
      modifies `working, `outside
      ensures State() == AddVectors(w, old(State()), vs)
    {
      if w.transactional {
        working := working.(vectors := working.vectors + vs);
      } else {
        outside := outside + vs;
      }
    }

    method DropIndex(id: nat)
      modifies `working, `outside
      ensures State() == DropVectors(w, old(State()), id)
    {
      if w.transactional {
        working := working.(vectors := Keep(working.vectors, id));
      } else {
        outside := Keep(outside, id);
      }
    }

    /** With a transactional store: the whole index is written and committed with the ready mark, or
        nothing is committed. */
    method WriteIndex(id: nat, pieces: seq<string>) returns (built: bool)
      modifies this
      ensures (built, State()) == Write(w, old(State()), id, pieces)
      ensures WritePromise(w, old(State()), id, pieces, built, State())
    {
      ghost var st := State();
      var from, t := nextId, tick;
      working := working.(chunks := working.chunks + NewChunks(id, from, pieces));
      nextId := nextId + |pieces|;
      built := false;
      var raised := Raises();
      if raised {
        Upsert(NewVectors(id, from, Min(w.partial(t), |pieces|)));
      } else {
        Upsert(NewVectors(id, from, |pieces|));
        raised := Raises();
        if !raised {
          Mark(id, Ready, Some(|pieces|));
          committed := working;
          built := true;
        }
      }
      WriteKeepsPromise(w, st, id, pieces);
    }

    /** The same for the pieces of the document's own text: built, it is complete and says ready. */
    method BuildIndex(id: nat) returns (built: bool)
      modifies this
      ensures (built, State()) == Build(w, old(State()), id)
      ensures BuildPromise(w, old(State()), id, built, State())
    {
      ghost var st := State();
      built := false;
      if id in working.documents {
        var pieces := w.split(working.documents[id].content);
        var t := tick;
        tick := tick + 2;
        if pieces != [] && !w.fails(t) && !w.fails(t + 1) {
          built := WriteIndex(id, pieces);
        }
      }
      BuildKeepsPromise(w, st, id);
    }

    /** Whatever was not committed is gone; the document is marked as failed with no chunks, unless the
        mark itself raises, and then nothing changes. */
    method MarkFailed(id: nat) returns (o: Outcome)
      modifies this
      ensures (o, State()) == GiveUp(w, old(State()), id)
      ensures working == committed && committed.chunks == old(committed).chunks &&
               committed.vectors == old(committed).vectors
      ensures o.Raised? ==> committed == old(committed)
      ensures o.Returned? && id in old(committed).documents ==>
                committed.documents ==
                old(committed).documents[id := old(committed).documents[id].(status := Failed, chunkCount := 0)]
    {
      working := committed;
      var raised := Raises();
      if raised {
        return Raised;
      }
      Mark(id, Failed, Some(0));
      committed := working;
      return Returned(Failed);
    }

    /** A document without an index ends ready with the whole index, failed with none, or, if marking
        it raises, with none and as it was or being processed. Other documents are untouched. */
    method ProcessDocument(id: nat) returns (o: Outcome)
      modifies this
      ensures (o, State()) == Process(w, old(State()), id)
      ensures ProcessPromise(w, old(State()), id, o, State())
    {
      ghost var st := State();
      var raised := Raises();
      if raised {
        working := committed;
        o := Raised;
      } else {
        Mark(id, Processing, None);
        committed := working;
        var built := BuildIndex(id);
        if built {
          o := Returned(Ready);
        } else {
          o := MarkFailed(id);
        }
      }
      ProcessKeepsPromise(w, st, id);
    }

    /** Rejected exactly when the text is empty, too long or in the knowledge base already, and then
        nothing changes. What returns is a complete document; the store stays sound in any case. */
    method IngestDocument(base: nat, content: string) returns (o: Outcome)
      modifies this
      ensures (o, State()) == Ingest(w, old(State()), base, content)
      ensures IngestPromise(w, old(State()), base, content, o, State())
    {
      ghost var st := State();
      if content == "" || |content| > w.maxChars || Duplicate(working, base, content) {
        o := Rejected;
      } else {
        var raised := Raises();
        if raised {
          working := committed;
          o := Raised;
        } else {
          var id := nextId;
          nextId := nextId + 1;
          working := working.(documents := working.documents[id := Document(base, content, Pending, 0)]);
          committed := working;
          assert State() == Added(st, base, content);
          o := ProcessDocument(id);
        }
      }
      assert (o, State()) == Ingest(w, st, base, content);
      IngestKeepsPromise(w, st, base, content);
    }

    /** Rejected exactly when the document is unknown. What returns is a complete document; the store
        stays sound in any case. */
    method ReingestDocument(id: nat) returns (o: Outcome)
      modifies this
      ensures (o, State()) == Reingest(w, old(State()), id)
      ensures ReingestPromise(w, old(State()), id, o, State())
    {
      ghost var st := State();
      if id !in working.documents {
        o := Rejected;
      } else {
        var dropped := DropAll(id);
        if dropped {
          committed := working;
          o := ProcessDocument(id);
        } else {
          o := Raised;
        }
      }
      ReingestKeepsPromise(w, st, id);
    }

    /** Removes the vectors and then the chunks of a document; a raise rolls both back. */
    method DropAll(id: nat) returns (dropped: bool)
      modifies this
      ensures (dropped, State()) == DropIndexOf(w, old(State()), id)
    {
      var raised := Raises();
      if raised {
        working := committed;
        return false;
      }
      DropIndex(id);
      raised := Raises();
      if raised {
        working := committed;
        return false;
      }
      working := working.(chunks := KeepChunks(working.chunks, id));
      return true;
    }

    /** Rejected exactly when the document is unknown. Deleted, it is gone with its chunks and vectors
        and nothing else is; a delete that raises changes nothing of what is stored. */
    method DeleteDocument(id: nat) returns (o: Outcome)
      modifies this
      ensures (o, State()) == Delete(w, old(State()), id)
      ensures DeletePromise(w, old(State()), id, o, State())
    {
      ghost var st := State();
      if id !in working.documents {
        o := Rejected;
      } else {
        var dropped := DropAll(id);
        if dropped {
          working := working.(documents := working.documents - {id});
          committed := working;
          o := Deleted;
        } else {
          o := Raised;
        }
      }
      DeleteKeepsPromise(w, st, id);
    }
  }

  // ---------------------------------------------------------------- what the operations promise

  ghost predicate WritePromise(w: World, st: Store, id: nat, pieces: seq<string>, built: bool, next: Store) {
    && (built <==> !w.fails(st.tick) && !w.fails(st.tick + 1))
    && (w.transactional && !built ==> next.committed == st.committed)
    && (w.transactional && built && Waiting(st, id) ==>
          && Touches(st, next, id) && id in next.committed.documents
          && next.committed.documents[id] == st.committed.documents[id].(status := Ready, chunkCount := |pieces|)
          && Indexed(next.committed, id, pieces))
  }

  lemma WriteKeepsPromise(w: World, st: Store, id: nat, pieces: seq<string>)
    ensures var (built, next) := Write(w, st, id, pieces); WritePromise(w, st, id, pieces, built, next)
  {
    WriteExactly(w, st, id, pieces);
    if w.transactional {
      if !Write(w, st, id, pieces).0 {
        WriteBreaksOff(w, st, id, pieces);
      } else if Waiting(st, id) {
        WriteBuilds(w, st, id, pieces);
      }
    }
  }

  ghost predicate BuildPromise(w: World, st: Store, id: nat, built: bool, next: Store) {
    && (id in st.working.documents && st.tick > 0 ==>
          (built <==> Builds(w, st.tick - 1, w.split(st.working.documents[id].content))))
    && (w.transactional && !built ==> next.committed == st.committed)
    && (w.transactional && built && Waiting(st, id) ==>
          && Touches(st, next, id) && id in next.committed.documents
          && next.committed.documents[id].status.Ready? && Complete(w, next.committed, id))
  }

  lemma BuildKeepsPromise(w: World, st: Store, id: nat)
    ensures var (built, next) := Build(w, st, id); BuildPromise(w, st, id, built, next)
  {
    if id in st.working.documents && st.tick > 0 {
      BuildExactly(w, st, id);
    }
    if w.transactional {
      if !Build(w, st, id).0 {
        BuildBreaksOff(w, st, id);
      } else if Waiting(st, id) {
        var ready := st.(tick := st.tick + 2);
        WriteBuilds(w, ready, id, w.split(st.working.documents[id].content));
        assert Touches(st, Build(w, st, id).1, id);
      }
    }
  }

  ghost predicate ProcessPromise(w: World, st: Store, id: nat, o: Outcome, next: Store) {
    && (id in st.working.documents ==> OutcomeIs(w, st.tick, w.split(st.working.documents[id].content), o))
    && (w.transactional && Waiting(st, id) ==>
          && Touches(st, next, id) && id in next.committed.documents
          && (o.Returned? ==> next.committed.documents[id].status == o.status && Complete(w, next.committed, id))
          && (o.Raised? ==> Clear(next.committed, id)))
  }

  lemma ProcessKeepsPromise(w: World, st: Store, id: nat)
    ensures var (o, next) := Process(w, st, id); ProcessPromise(w, st, id, o, next)
  {
    if id in st.working.documents {
      ProcessExactly(w, st, id);
    }
    if w.transactional && Waiting(st, id) {
      ProcessOutcome(w, st, id);
    }
  }

  ghost predicate IngestPromise(w: World, st: Store, base: nat, content: string, o: Outcome, next: Store) {
    && (o.Rejected? <==> content == "" || |content| > w.maxChars || Duplicate(st.working, base, content))
    && (o.Rejected? ==> next == st)
    && (!o.Rejected? ==> if w.fails(st.tick) then o == Raised else OutcomeIs(w, st.tick + 1, w.split(content), o))
    && (w.transactional && Sound(w, st) ==>
          && Sound(w, next)
          && (o.Returned? ==>
                && st.nextId in next.committed.documents && next.committed.documents[st.nextId].content == content
                && next.committed.documents[st.nextId].status == o.status && Complete(w, next.committed, st.nextId)))
  }

  lemma ProcessIsNoRejection(w: World, st: Store, id: nat)
    ensures Process(w, st, id).0.Returned? || Process(w, st, id).0.Raised?
  {
  }

  lemma IngestKeepsPromise(w: World, st: Store, base: nat, content: string)
    ensures var (o, next) := Ingest(w, st, base, content); IngestPromise(w, st, base, content, o, next)
  {
    IngestExactly(w, st, base, content);
    ProcessIsNoRejection(w, Added(st, base, content), st.nextId);
    if w.transactional && Sound(w, st) {
      IngestSound(w, st, base, content);
    }
  }

  ghost predicate ReingestPromise(w: World, st: Store, id: nat, o: Outcome, next: Store) {
    && (o.Rejected? <==> id !in st.working.documents) && (o.Rejected? ==> next == st)
    && (id in st.working.documents ==>
          if w.fails(st.tick) || w.fails(st.tick + 1) then o == Raised
          else OutcomeIs(w, st.tick + 2, w.split(st.working.documents[id].content), o))
    && (w.transactional && Sound(w, st) ==>
          && Sound(w, next)
          && (o.Returned? ==>
                && id in next.committed.documents && next.committed.documents[id].status == o.status
                && Complete(w, next.committed, id)))
  }

  lemma ReingestKeepsPromise(w: World, st: Store, id: nat)
    ensures var (o, next) := Reingest(w, st, id); ReingestPromise(w, st, id, o, next)
  {
    ReingestExactly(w, st, id);
    if id in st.working.documents {
      ProcessIsNoRejection(w, Commit(DropIndexOf(w, st, id).1), id);
      if w.transactional && Sound(w, st) {
        ReingestSound(w, st, id);
      }
    }
  }

  ghost predicate DeletePromise(w: World, st: Store, id: nat, o: Outcome, next: Store) {
    && (o.Rejected? <==> id !in st.working.documents) && (o.Rejected? ==> next == st)
    && (o.Deleted? <==> id in st.working.documents && !w.fails(st.tick) && !w.fails(st.tick + 1))
    && (w.transactional && Sound(w, st) ==>
          && Sound(w, next)
          && (o.Deleted? ==>
                && Clear(next.committed, id) && next.committed.documents == st.committed.documents - {id}
                && forall d :: d != id ==> SameDocument(st.committed, next.committed, d))
          && (o.Raised? ==> next.committed == st.committed))
  }

  lemma DeleteKeepsPromise(w: World, st: Store, id: nat)
    ensures var (o, next) := Delete(w, st, id); DeletePromise(w, st, id, o, next)
  {
    DeleteExactly(w, st, id);
    if id in st.working.documents && w.transactional && Sound(w, st) {
      DeleteSound(w, st, id);
    }
  }
}
