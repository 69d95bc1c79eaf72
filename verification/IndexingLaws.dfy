/** No half-built index: what holds of the committed database after every sequence of ingests,
    reingests and deletes, with faults at arbitrary steps; and what a store outside the
    transaction adds to the risk. */
module IndexingLaws {
  import opened Basics
  import opened Indexing

  /** Neither chunks nor vectors. */
  predicate Clear(db: Db, id: nat) {
    && (forall c :: c in db.chunks ==> db.chunks[c].document != id)
    && (forall c :: c in db.vectors ==> db.vectors[c] != id)
  }

  /** A chunk of the document with its vector. */
  predicate HasPart(db: Db, id: nat, c: nat) {
    c in db.chunks && db.chunks[c].document == id && c in db.vectors && db.vectors[c] == id
  }

  /** Exactly the pieces, numbered 0 to n - 1, under consecutive ids, with one vector each. */
  predicate IndexAt(db: Db, id: nat, from: nat, pieces: seq<string>) {
    && (forall c :: c in db.chunks && db.chunks[c].document == id ==>
          from <= c < from + |pieces| && db.chunks[c] == Chunk(id, c - from, pieces[c - from]))
    && (forall c :: c in db.vectors && db.vectors[c] == id ==> from <= c < from + |pieces|)
    && (forall c :: from <= c < from + |pieces| ==> HasPart(db, id, c))
  }

  ghost predicate Indexed(db: Db, id: nat, pieces: seq<string>) { exists from: nat :: IndexAt(db, id, from, pieces) }

  /** A ready document has its whole index; any other has none, and a failed one says so. */
  ghost predicate Complete(w: World, db: Db, id: nat)
    requires id in db.documents
  {
    var d := db.documents[id];
    if d.status.Ready? then
      var pieces := w.split(d.content);
      pieces != [] && d.chunkCount == |pieces| && Indexed(db, id, pieces)
    else Clear(db, id) && (d.status.Failed? ==> d.chunkCount == 0)
  }

  /** A document that says ready but has lost its index. */
  predicate Emptied(db: Db, id: nat)
    requires id in db.documents
  {
    db.documents[id].status.Ready? && Clear(db, id)
  }

  /** Between operations: nothing uncommitted, ids below the next one, every document complete or
      emptied. */
  ghost predicate Sound(w: World, st: Store) {
    && st.working == st.committed
    && (forall d :: d in st.committed.documents ==> d < st.nextId)
    && (forall c :: c in st.committed.chunks ==>
         c < st.nextId && st.committed.chunks[c].document in st.committed.documents)
    && (forall c :: c in st.committed.vectors ==> c < st.nextId && st.committed.vectors[c] in st.committed.documents)
    && (forall d :: d in st.committed.documents ==> Complete(w, st.committed, d) || Emptied(st.committed, d))
  }

  // ---------------------------------------------------------------- other documents

  /** Nothing of the document has changed. */
  predicate SameDocument(a: Db, b: Db, id: nat) {
    && (id in a.documents <==> id in b.documents) && (id in a.documents ==> a.documents[id] == b.documents[id])
    && (forall c :: c in a.chunks && a.chunks[c].document == id ==> c in b.chunks && b.chunks[c] == a.chunks[c])
    && (forall c :: c in b.chunks && b.chunks[c].document == id ==> c in a.chunks && a.chunks[c] == b.chunks[c])
    && (forall c :: c in a.vectors && a.vectors[c] == id ==> c in b.vectors && b.vectors[c] == id)
    && (forall c :: c in b.vectors && b.vectors[c] == id ==> c in a.vectors && a.vectors[c] == id)
  }

  lemma SameIndex(a: Db, b: Db, id: nat, pieces: seq<string>)
    requires SameDocument(a, b, id)
    ensures Indexed(a, id, pieces) ==> Indexed(b, id, pieces)
  {
    if Indexed(a, id, pieces) {
      var from: nat :| IndexAt(a, id, from, pieces);
      forall c: nat | from <= c < from + |pieces| ensures HasPart(b, id, c) {
        assert HasPart(a, id, c);
      }
      assert IndexAt(b, id, from, pieces);
    }
  }

  lemma SameFate(w: World, a: Db, b: Db, id: nat)
    requires SameDocument(a, b, id) && id in a.documents
    ensures Complete(w, a, id) ==> Complete(w, b, id)
    ensures Emptied(a, id) ==> Emptied(b, id)
  {
    SameIndex(a, b, id, w.split(a.documents[id].content));
  }

  /** Other documents are untouched, and this one's parts stay below the next id. */
  ghost predicate Touches(st: Store, next: Store, id: nat) {
    && next.working == next.committed && st.nextId <= next.nextId
    && (forall d :: d != id ==> SameDocument(st.committed, next.committed, d))
    && (forall c :: c in next.committed.chunks && next.committed.chunks[c].document == id ==>
         c < next.nextId && id in next.committed.documents)
    && (forall c :: c in next.committed.vectors && next.committed.vectors[c] == id ==>
         c < next.nextId && id in next.committed.documents)
  }

  lemma TouchesKeepsSound(w: World, st: Store, next: Store, id: nat)
    requires Sound(w, st) && Touches(st, next, id)
    requires id in next.committed.documents ==>
               id < next.nextId && (Complete(w, next.committed, id) || Emptied(next.committed, id))
    ensures Sound(w, next)
  {
    var a, b := st.committed, next.committed;
    forall d | d in b.documents ensures d < next.nextId && (Complete(w, b, d) || Emptied(b, d)) {
      if d != id {
        assert SameDocument(a, b, d);
        SameFate(w, a, b, d);
      }
    }
    forall c | c in b.chunks ensures c < next.nextId && b.chunks[c].document in b.documents {
      if b.chunks[c].document != id {
        assert SameDocument(a, b, b.chunks[c].document);
      }
    }
    forall c | c in b.vectors ensures c < next.nextId && b.vectors[c] in b.documents {
      if b.vectors[c] != id {
        assert SameDocument(a, b, b.vectors[c]);
      }
    }
  }

  // ---------------------------------------------------------------- building one index

  /** A document about to be processed: known, with no index. */
  predicate Waiting(st: Store, id: nat) {
    && st.working == st.committed && id in st.committed.documents && id < st.nextId && Clear(st.committed, id)
    && (forall c :: c in st.committed.chunks ==> c < st.nextId)
    && (forall c :: c in st.committed.vectors ==> c < st.nextId)
  }

  /** What is added for the new pieces: their index, and nothing to other documents. */
  predicate Adds(db: Db, next: Db, id: nat, from: nat, pieces: seq<string>) {
    && next.chunks == db.chunks + NewChunks(id, from, pieces) &&
         next.vectors == db.vectors + NewVectors(id, from, |pieces|)
    && (forall c :: c in db.chunks ==> c < from) && (forall c :: c in db.vectors ==> c < from)
  }

  lemma NewParts(db: Db, next: Db, id: nat, from: nat, pieces: seq<string>, c: nat)
    requires Adds(db, next, id, from, pieces) && from <= c < from + |pieces|
    ensures HasPart(next, id, c)
  {
    assert c in NewChunks(id, from, pieces) && c in NewVectors(id, from, |pieces|);
  }

  lemma NewPartsOnly(db: Db, next: Db, id: nat, from: nat, pieces: seq<string>)
    requires Clear(db, id) && Adds(db, next, id, from, pieces)
    ensures forall c :: c in next.chunks && next.chunks[c].document == id ==>
              from <= c < from + |pieces| && next.chunks[c] == Chunk(id, c - from, pieces[c - from])
    ensures forall c :: c in next.vectors && next.vectors[c] == id ==> from <= c < from + |pieces|
  {
  }

  lemma NewIndex(db: Db, next: Db, id: nat, from: nat, pieces: seq<string>)
    requires Clear(db, id) && Adds(db, next, id, from, pieces)
    ensures IndexAt(next, id, from, pieces)
  {
    NewPartsOnly(db, next, id, from, pieces);
    forall c: nat | from <= c < from + |pieces| ensures HasPart(next, id, c) {
      NewParts(db, next, id, from, pieces, c);
    }
  }

  lemma OthersKeptByNew(db: Db, next: Db, id: nat, from: nat, pieces: seq<string>, d: nat)
    requires Adds(db, next, id, from, pieces) && d != id
    requires (d in db.documents <==> d in next.documents) &&
             (d in db.documents ==> db.documents[d] == next.documents[d])
    ensures SameDocument(db, next, d)
  {
  }

  lemma WriteBuilds(w: World, st: Store, id: nat, pieces: seq<string>)
    requires w.transactional && Waiting(st, id) && Write(w, st, id, pieces).0
    ensures var next := Write(w, st, id, pieces).1;
            && Touches(st, next, id) && id in next.committed.documents
            && next.committed.documents[id] == st.committed.documents[id].(status := Ready, chunkCount := |pieces|)
            && Indexed(next.committed, id, pieces)
  {
    var next := Write(w, st, id, pieces).1;
    NewIndex(st.committed, next.committed, id, st.nextId, pieces);
    forall d | d != id ensures SameDocument(st.committed, next.committed, d) {
      OthersKeptByNew(st.committed, next.committed, id, st.nextId, pieces, d);
    }
  }

  lemma WriteBreaksOff(w: World, st: Store, id: nat, pieces: seq<string>)
    requires w.transactional && !Write(w, st, id, pieces).0
    ensures var next := Write(w, st, id, pieces).1;
            next.committed == st.committed && next.nextId >= st.nextId
  {
  }

  lemma MarkTouches(st: Store, id: nat, s: Status, count: Option<nat>)
    requires Waiting(st, id)
    ensures var next := Commit(SetStatus(Ticked(st), id, s, count));
            && Touches(st, next, id) && Waiting(next, id)
            && next.committed.documents[id] ==
               st.committed.documents[id].(
                 status := s,
                 chunkCount := if count.Some? then count.value else st.committed.documents[id].chunkCount)
  {
  }

  lemma TouchesTrans(a: Store, b: Store, c: Store, id: nat)
    requires Touches(a, b, id) && Touches(b, c, id)
    ensures Touches(a, c, id)
  {
    forall d | d != id ensures SameDocument(a.committed, c.committed, d) {
      assert SameDocument(a.committed, b.committed, d) && SameDocument(b.committed, c.committed, d);
    }
  }

  /** Processing returns ready with the whole index or failed with none; if it raises, the document
      has no index and is as it was, or says that it is being processed. */
  lemma ProcessOutcome(w: World, st: Store, id: nat)
    requires w.transactional && Waiting(st, id)
    ensures var (o, next) := Process(w, st, id);
            && Touches(st, next, id) && id in next.committed.documents && id < next.nextId
            && next.committed.documents[id].content == st.committed.documents[id].content
            && match o
               case Returned(s) => next.committed.documents[id].status == s && Complete(w, next.committed, id)
               case Raised =>
                 Clear(next.committed, id) &&
                 next.committed.documents[id].status ==
                     (if w.fails(st.tick) then st.committed.documents[id].status else Processing)
               case _ => false
  {
    var next := Process(w, st, id).1;
    if w.fails(st.tick) {
      assert next.committed == st.committed;
    } else {
      var marked := Commit(SetStatus(Ticked(st), id, Processing, None));
      MarkTouches(st, id, Processing, None);
      var pieces := w.split(marked.working.documents[id].content);
      var (built, after) := Build(w, marked, id);
      if built {
        WriteBuilds(w, marked.(tick := marked.tick + 2), id, pieces);
        assert Touches(marked, next, id);
        TouchesTrans(st, marked, next, id);
      } else {
        BuildBreaksOff(w, marked, id);
        var back := Rollback(after);
        assert Waiting(back, id);
        if !w.fails(back.tick) {
          MarkTouches(back, id, Failed, Some(0));
        }
        assert Touches(marked, next, id);
        TouchesTrans(st, marked, next, id);
      }
    }
  }

  lemma BuildBreaksOff(w: World, st: Store, id: nat)
    requires w.transactional && !Build(w, st, id).0
    ensures Build(w, st, id).1.committed == st.committed && Build(w, st, id).1.nextId >= st.nextId
  {
    if id in st.working.documents {
      var pieces := w.split(st.working.documents[id].content);
      if !(pieces == [] || w.fails(st.tick) || w.fails(st.tick + 1)) {
        WriteBreaksOff(w, st.(tick := st.tick + 2), id, pieces);
      }
    }
  }

  // ---------------------------------------------------------------- operations

  /** A raise before anything was committed. */
  lemma Closed(w: World, st: Store, next: Store)
    requires Sound(w, st) && next.committed == st.committed && next.working == next.committed &&
             next.nextId == st.nextId
    ensures Sound(w, next)
  {
    forall d | d in next.committed.documents ensures Complete(w, next.committed, d) || Emptied(next.committed, d) {
      assert Complete(w, st.committed, d) || Emptied(st.committed, d);
    }
  }

  /** The document and its index are gone, or only its index; the others are as before. */
  function Cleared(st: Store, id: nat): Store {
    DropChunks(st.(working := st.working.(vectors := Keep(st.working.vectors, id))), id)
  }

  lemma ClearedTouches(w: World, st: Store, id: nat, ticks: nat)
    requires Sound(w, st) && id in st.committed.documents
    ensures var next := Commit(Cleared(st.(tick := ticks), id));
            Touches(st, next, id) && Waiting(next, id) && next.committed.documents == st.committed.documents
  {
    var next := Commit(Cleared(st.(tick := ticks), id));
    forall d | d != id ensures SameDocument(st.committed, next.committed, d) {
    }
  }

  /** A document without chunks is complete only if it does not say ready. */
  lemma IndexIsNotClear(db: Db, id: nat, pieces: seq<string>)
    requires pieces != [] && Indexed(db, id, pieces)
    ensures !Clear(db, id)
  {
    var from: nat :| IndexAt(db, id, from, pieces);
    assert HasPart(db, id, from);
  }

  lemma ReadyNeedsIndex(w: World, db: Db, id: nat)
    requires id in db.documents && db.documents[id].status.Ready? && Complete(w, db, id)
    ensures !Clear(db, id)
  {
    IndexIsNotClear(db, id, w.split(db.documents[id].content));
  }

  /** A new document under the next id. */
  function Added(st: Store, base: nat, content: string): Store {
    var document := Document(base, content, Pending, 0);
    Commit(st.(working := st.working.(documents := st.working.documents[st.nextId := document]),
               nextId := st.nextId + 1, tick := st.tick + 1))
  }

  lemma AddedWaits(w: World, st: Store, base: nat, content: string)
    requires Sound(w, st)
    ensures Touches(st, Added(st, base, content), st.nextId) && Waiting(Added(st, base, content), st.nextId)
    ensures Added(st, base, content).committed.documents[st.nextId].content == content
  {
    forall c | c in st.committed.chunks ensures st.committed.chunks[c].document != st.nextId {
      assert st.committed.chunks[c].document in st.committed.documents;
    }
    forall c | c in st.committed.vectors ensures st.committed.vectors[c] != st.nextId {
      assert st.committed.vectors[c] in st.committed.documents;
    }
  }

  lemma IngestSound(w: World, st: Store, base: nat, content: string)
    requires w.transactional && Sound(w, st)
    ensures var (o, next) := Ingest(w, st, base, content);
            && Sound(w, next)
            && (o.Returned? ==>
                  && (o.status.Ready? || o.status.Failed?)
                  && st.nextId in next.committed.documents && next.committed.documents[st.nextId].status == o.status
                  && next.committed.documents[st.nextId].content == content && Complete(w, next.committed, st.nextId))
  {
    var (o, next) := Ingest(w, st, base, content);
    if content == "" || |content| > w.maxChars || Duplicate(st.working, base, content) {
      assert next == st;
    } else if w.fails(st.tick) {
      Closed(w, st, next);
    } else {
      var added := Added(st, base, content);
      AddedWaits(w, st, base, content);
      assert Ingest(w, st, base, content) == Process(w, added, st.nextId);
      ProcessOutcome(w, added, st.nextId);
      TouchesTrans(st, added, next, st.nextId);
      ProcessStatus(w, added, st.nextId);
      TouchesKeepsSound(w, st, next, st.nextId);
    }
  }

  /** What processing returns is a final status; a raise leaves no ready mark where there was none. */
  lemma ProcessStatus(w: World, st: Store, id: nat)
    requires w.transactional && Waiting(st, id)
    ensures var (o, next) := Process(w, st, id);
            && (o.Returned? ==> o.status.Ready? || o.status.Failed?)
            && id in next.committed.documents
            && (o.Raised? && st.committed.documents[id].status.Pending? ==> Complete(w, next.committed, id))
            && (o.Raised? && (!w.fails(st.tick) || !st.committed.documents[id].status.Ready?) ==>
                  !next.committed.documents[id].status.Ready?)
  {
    ProcessOutcome(w, st, id);
  }

  /** The old index is given up and committed as such; then the document is processed anew. */
  lemma ReingestRuns(w: World, st: Store, id: nat)
    requires w.transactional && Sound(w, st) && id in st.committed.documents && !w.fails(st.tick) &&
             !w.fails(st.tick + 1)
    ensures var cleared := Commit(Cleared(st.(tick := st.tick + 2), id));
            && Reingest(w, st, id) == Process(w, cleared, id)
            && Touches(st, cleared, id) && Waiting(cleared, id) && cleared.committed.documents == st.committed.documents
            && cleared.tick == st.tick + 2
  {
    ClearedTouches(w, st, id, st.tick + 2);
  }

  /** The old index was given up and committed as such. */
  predicate GivenUp(w: World, st: Store) { !w.fails(st.tick) && !w.fails(st.tick + 1) }

  lemma ReingestClosed(w: World, st: Store, id: nat)
    requires w.transactional && Sound(w, st) && id in st.committed.documents && !GivenUp(w, st)
    ensures var (o, next) := Reingest(w, st, id);
            o.Raised? && Sound(w, next) && next.committed == st.committed
  {
    Closed(w, st, Reingest(w, st, id).1);
  }

  lemma ReingestReruns(w: World, st: Store, id: nat)
    requires w.transactional && Sound(w, st) && id in st.committed.documents && GivenUp(w, st)
    ensures var (o, next) := Reingest(w, st, id);
            && Sound(w, next) && id in next.committed.documents
            && (o.Returned? ==>
                  (o.status.Ready? || o.status.Failed?) && next.committed.documents[id].status == o.status &&
                  Complete(w, next.committed, id))
            && (Emptied(next.committed, id) <==> st.committed.documents[id].status.Ready? && w.fails(st.tick + 2))
  {
    var next := Reingest(w, st, id).1;
    var cleared := Commit(Cleared(st.(tick := st.tick + 2), id));
    ReingestRuns(w, st, id);
    ProcessOutcome(w, cleared, id);
    ProcessStatus(w, cleared, id);
    TouchesTrans(st, cleared, next, id);
    ReprocessedFate(w, st, cleared, id);
    TouchesKeepsSound(w, st, next, id);
  }

  /** A reingest that returns leaves a complete document. One that raises leaves a complete document
      as it was, being processed with no index, or emptied: emptied exactly when it said ready, its
      old index was given up, and the very next step, marking it, failed. */
  lemma ReingestSound(w: World, st: Store, id: nat)
    requires w.transactional && Sound(w, st) && id in st.committed.documents
    ensures var (o, next) := Reingest(w, st, id);
            && Sound(w, next) && id in next.committed.documents
            && (o.Returned? ==>
                  (o.status.Ready? || o.status.Failed?) && next.committed.documents[id].status == o.status &&
                  Complete(w, next.committed, id))
            && (Complete(w, st.committed, id) ==>
                  (Emptied(next.committed, id) <==>
                     st.committed.documents[id].status.Ready? && GivenUp(w, st) && w.fails(st.tick + 2)))
  {
    if GivenUp(w, st) {
      ReingestReruns(w, st, id);
    } else {
      ReingestClosed(w, st, id);
      if Complete(w, st.committed, id) && st.committed.documents[id].status.Ready? {
        ReadyNeedsIndex(w, st.committed, id);
      }
    }
  }

  lemma ReprocessedFate(w: World, st: Store, cleared: Store, id: nat)
    requires w.transactional && Waiting(cleared, id) && id in st.committed.documents
    requires cleared.committed.documents == st.committed.documents
    requires Complete(w, st.committed, id) || Emptied(st.committed, id)
    ensures var (o, next) := Process(w, cleared, id);
            && id in next.committed.documents
            && (Complete(w, next.committed, id) || Emptied(next.committed, id))
            && (Emptied(next.committed, id) <==> st.committed.documents[id].status.Ready? && w.fails(cleared.tick))
  {
    ProcessOutcome(w, cleared, id);
    ProcessStatus(w, cleared, id);
    var (o, next) := Process(w, cleared, id);
    if o.Returned? && o.status.Ready? {
      ReadyNeedsIndex(w, next.committed, id);
    }
  }

  lemma DeleteSound(w: World, st: Store, id: nat)
    requires w.transactional && Sound(w, st) && id in st.committed.documents
    ensures var (o, next) := Delete(w, st, id);
            && Sound(w, next)
            && (o.Deleted? ==>
                  && Clear(next.committed, id) && next.committed.documents == st.committed.documents - {id}
                  && forall d :: d != id ==> SameDocument(st.committed, next.committed, d))
            && (o.Raised? ==> next.committed == st.committed)
  {
    var (o, next) := Delete(w, st, id);
    if w.fails(st.tick) || w.fails(st.tick + 1) {
      Closed(w, st, next);
    } else {
      var cleared := Commit(Cleared(st.(tick := st.tick + 2), id));
      ClearedTouches(w, st, id, st.tick + 2);
      assert Touches(cleared, next, id);
      TouchesTrans(st, cleared, next, id);
      TouchesKeepsSound(w, st, next, id);
    }
  }

  datatype Op = IngestOp(base: nat, content: string) | ReingestOp(id: nat) | DeleteOp(id: nat)

  function Do(w: World, st: Store, op: Op): Store {
    match op
    case IngestOp(base, content) => Ingest(w, st, base, content).1
    case ReingestOp(id) => Reingest(w, st, id).1
    case DeleteOp(id) => Delete(w, st, id).1
  }

  function DoAll(w: World, ops: seq<Op>): Store {
    if ops == [] then Store(Db(map[], map[], map[]), Db(map[], map[], map[]), map[], 0, 0)
    else Do(w, DoAll(w, ops[..|ops| - 1]), ops[|ops| - 1])
  }

  /** With a transactional store, after any operations and whatever failed on the way, every ready
      document has exactly its chunks 0 to n - 1 with one vector each or was emptied by a reingest
      that raised; every other document has no chunk and no vector; and no part is orphaned. */
  lemma {:induction false} NoHalfBuiltIndex(w: World, ops: seq<Op>)
    requires w.transactional
    ensures Sound(w, DoAll(w, ops))
  {
    if ops != [] {
      var st, op := DoAll(w, ops[..|ops| - 1]), ops[|ops| - 1];
      NoHalfBuiltIndex(w, ops[..|ops| - 1]);
      match op
      case IngestOp(base, content) => IngestSound(w, st, base, content);
      case ReingestOp(id) => if id in st.committed.documents { ReingestSound(w, st, id); }
      case DeleteOp(id) => if id in st.committed.documents { DeleteSound(w, st, id); }
    }
  }

  // ---------------------------------------------------------------- a store outside the transaction

  /** Chunk ids of the outside vectors have been given out: what is added takes none of them over. */
  predicate OutsideBelow(st: Store) { forall c :: c in st.outside ==> c < st.nextId }

  /** How many vectors processing has written when it breaks off: none before the write, those of a
      write that raises, all of them after it. `t` is the step at which processing starts. */
  function Written(w: World, t: nat, pieces: seq<string>): nat {
    if pieces == [] || w.fails(t + 1) || w.fails(t + 2) then 0
    else if w.fails(t + 3) then Min(w.partial(t + 3), |pieces|)
    else |pieces|
  }

  lemma OutsideAfterWrite(w: World, st: Store, id: nat, pieces: seq<string>)
    requires !w.transactional
    ensures Write(w, st, id, pieces).1.outside ==
            st.outside +
              NewVectors(id, st.nextId, if w.fails(st.tick) then Min(w.partial(st.tick), |pieces|) else |pieces|)
    ensures !Write(w, st, id, pieces).0 ==> Write(w, st, id, pieces).1.committed == st.committed
  {
  }

  lemma OutsideAfterBuild(w: World, st: Store, id: nat)
    requires !w.transactional && id in st.working.documents && st.tick > 0
    ensures var pieces := w.split(st.working.documents[id].content);
            Build(w, st, id).1.outside == st.outside + NewVectors(id, st.nextId, Written(w, st.tick - 1, pieces))
    ensures !Build(w, st, id).0 ==> Build(w, st, id).1.committed == st.committed
  {
    var pieces := w.split(st.working.documents[id].content);
    if !(pieces == [] || w.fails(st.tick) || w.fails(st.tick + 1)) {
      OutsideAfterWrite(w, st.(tick := st.tick + 2), id, pieces);
    } else {
      assert st.outside + NewVectors(id, st.nextId, 0) == st.outside;
    }
  }

  /** What processing leaves in the outside store, and in the database when it fails. */
  lemma OutsideAfterProcess(w: World, st: Store, id: nat)
    requires !w.transactional && Waiting(st, id) && Process(w, st, id).0 == Returned(Failed)
    ensures var next := Process(w, st, id).1;
            && Clear(next.committed, id)
            && next.outside ==
               st.outside + NewVectors(id, st.nextId, Written(w, st.tick, w.split(st.committed.documents[id].content)))
  {
    var marked := Commit(SetStatus(Ticked(st), id, Processing, None));
    assert marked.working.documents[id].content == st.committed.documents[id].content;
    OutsideAfterBuild(w, marked, id);
  }

  lemma NewVectorsAddNothing(outside: map<nat, nat>, id: nat, from: nat, n: nat)
    requires forall c :: c in outside ==> c < from
    ensures outside + NewVectors(id, from, n) == outside <==> n == 0
  {
    if n > 0 {
      assert from in NewVectors(id, from, n) && from !in outside;
      assert from in outside + NewVectors(id, from, n);
    } else {
      assert outside + NewVectors(id, from, 0) == outside;
    }
  }

  /** Processing broke off before the vectors, or the write that raised had written none. */
  predicate NothingWritten(w: World, t: nat, pieces: seq<string>) {
    pieces == [] || w.fails(t + 1) || w.fails(t + 2) || (w.fails(t + 3) && w.partial(t + 3) == 0)
  }

  lemma WrittenIsNothing(w: World, t: nat, pieces: seq<string>)
    ensures Written(w, t, pieces) == 0 <==> NothingWritten(w, t, pieces)
  {
  }

  /** When vectors live outside the transaction a rollback cannot take them back. A document that
      returns failed has no chunk and leaves exactly the vectors that were written; it leaves the
      outside store as it was if and only if processing broke off before the vectors, or the write
      that raised had written none. */
  lemma OutsideStoreKeepsOrphans(w: World, st: Store, id: nat)
    requires !w.transactional && Waiting(st, id) && OutsideBelow(st) && Process(w, st, id).0 == Returned(Failed)
    ensures Clear(Process(w, st, id).1.committed, id)
    ensures Process(w, st, id).1.outside ==
            st.outside + NewVectors(id, st.nextId, Written(w, st.tick, w.split(st.committed.documents[id].content)))
    ensures Process(w, st, id).1.outside == st.outside <==>
              NothingWritten(w, st.tick, w.split(st.committed.documents[id].content))
  {
    var pieces := w.split(st.committed.documents[id].content);
    OutsideAfterProcess(w, st, id);
    WrittenIsNothing(w, st.tick, pieces);
    NewVectorsAddNothing(st.outside, id, st.nextId, Written(w, st.tick, pieces));
  }

  lemma ProcessKeepsBelow(w: World, st: Store, id: nat)
    requires OutsideBelow(st)
    ensures OutsideBelow(Process(w, st, id).1) && Process(w, st, id).1.nextId >= st.nextId
  {
    var marked := Commit(SetStatus(Ticked(st), id, Processing, None));
    if !w.transactional && id in marked.working.documents {
      OutsideAfterBuild(w, marked, id);
    }
  }

  /** In every reachable store the ids of outside vectors have been given out. */
  lemma {:induction false} OutsideIsBelow(w: World, ops: seq<Op>)
    ensures OutsideBelow(DoAll(w, ops))
  {
    if ops != [] {
      var st, op := DoAll(w, ops[..|ops| - 1]), ops[|ops| - 1];
      OutsideIsBelow(w, ops[..|ops| - 1]);
      DoKeepsBelow(w, st, op);
    }
  }

  lemma DoKeepsBelow(w: World, st: Store, op: Op)
    requires OutsideBelow(st)
    ensures OutsideBelow(Do(w, st, op))
  {
    match op
    case IngestOp(base, content) => ProcessKeepsBelow(w, Added(st, base, content), st.nextId);
    case ReingestOp(id) => ProcessKeepsBelow(w, Commit(DropIndexOf(w, st, id).1), id);
    case DeleteOp(_) =>
  }
}
