/** Document ingestion with explicit commits and rollbacks, over a database whose session may
    or may not hold the vectors too, and with a fault possible at every step. */
module Indexing {
  import opened Basics

  datatype Status = Pending | Processing | Ready | Failed

  datatype Document = Document(base: nat, content: string, status: Status, chunkCount: nat)

  datatype Chunk = Chunk(document: nat, seqNo: nat, content: string)

  /** `vectors` maps a chunk id to the document its vector belongs to. */
  datatype Db = Db(documents: map<nat, Document>, chunks: map<nat, Chunk>, vectors: map<nat, nat>)

  /** `outside` holds the vectors of a store that takes no part in transactions. */
  datatype Store = Store(committed: Db, working: Db, outside: map<nat, nat>, nextId: nat, tick: nat)

  /** Whether step n raises, how a text is split, and how many vectors a failing write wrote. */
  datatype World = World(transactional: bool, fails: nat -> bool, split: string -> seq<string>, partial: nat -> nat,
      maxChars: nat)

  datatype Outcome = Rejected | Returned(status: Status) | Deleted | Raised

  // ---------------------------------------------------------------- session steps

  function Ticked(st: Store): Store { st.(tick := st.tick + 1) }

  function Commit(st: Store): Store { st.(committed := st.working) }

  function Rollback(st: Store): Store { st.(working := st.committed) }

  function SetStatus(st: Store, id: nat, s: Status, count: Option<nat>): Store {
    if id !in st.working.documents then st
    else
      var d := st.working.documents[id];
      var marked := d.(status := s, chunkCount := if count.Some? then count.value else d.chunkCount);
      st.(working := st.working.(documents := st.working.documents[id := marked]))
  }

  function AddVectors(w: World, st: Store, vs: map<nat, nat>): Store {
    if w.transactional then st.(working := st.working.(vectors := st.working.vectors + vs))
    else st.(outside := st.outside + vs)
  }

  function Keep(vs: map<nat, nat>, id: nat): map<nat, nat> { map c | c in vs && vs[c] != id :: vs[c] }

  function DropVectors(w: World, st: Store, id: nat): Store {
    if w.transactional then st.(working := st.working.(vectors := Keep(st.working.vectors, id)))
    else st.(outside := Keep(st.outside, id))
  }

  function KeepChunks(cs: map<nat, Chunk>, id: nat): map<nat, Chunk> {
    map c | c in cs && cs[c].document != id :: cs[c]
  }

  function DropChunks(st: Store, id: nat): Store {
    st.(working := st.working.(chunks := KeepChunks(st.working.chunks, id)))
  }

  /** Chunks of the pieces, numbered from 0, under consecutive ids. */
  function NewChunks(id: nat, from: nat, pieces: seq<string>): (m: map<nat, Chunk>)
    ensures forall c :: c in m <==> from <= c < from + |pieces|
    ensures forall c :: c in m ==> m[c] == Chunk(id, c - from, pieces[c - from])
  {
    if pieces == [] then map[]
    else
      var n := |pieces| - 1;
      NewChunks(id, from, pieces[..n])[from + n := Chunk(id, n, pieces[n])]
  }

  /** The vectors of the first `n` pieces. */
  function NewVectors(id: nat, from: nat, n: nat): (m: map<nat, nat>)
    ensures forall c :: c in m <==> from <= c < from + n
    ensures forall c :: c in m ==> m[c] == id
  {
    if n == 0 then map[] else NewVectors(id, from, n - 1)[from + n - 1 := id]
  }

  // ---------------------------------------------------------------- the pipeline

  /** Chunks, vectors, the ready mark and the commit; whether it got through. */
  function Write(w: World, st: Store, id: nat, pieces: seq<string>): (bool, Store) {
    var chunked := st.(working := st.working.(chunks := st.working.chunks + NewChunks(id, st.nextId, pieces)),
                       nextId := st.nextId + |pieces|, tick := st.tick + 1);
    if w.fails(st.tick) then
      (false, AddVectors(w, chunked, NewVectors(id, st.nextId, Min(w.partial(st.tick), |pieces|))))
    else
      var indexed := Ticked(AddVectors(w, chunked, NewVectors(id, st.nextId, |pieces|)));
      if w.fails(chunked.tick) then (false, indexed)
      else (true, Commit(SetStatus(indexed, id, Ready, Some(|pieces|))))
  }

  /** Splitting, embedding and writing the index. */
  function Build(w: World, st: Store, id: nat): (bool, Store) {
    if id !in st.working.documents then (false, st)
    else
      var pieces := w.split(st.working.documents[id].content);
      if pieces == [] || w.fails(st.tick) || w.fails(st.tick + 1) then (false, st.(tick := st.tick + 2))
      else Write(w, st.(tick := st.tick + 2), id, pieces)
  }

  /** Rolls back and marks the document failed. */
  function GiveUp(w: World, st: Store, id: nat): (Outcome, Store) {
    if w.fails(st.tick) then (Raised, Ticked(Rollback(st)))
    else (Returned(Failed), Commit(SetStatus(Ticked(Rollback(st)), id, Failed, Some(0))))
  }

  /** Marks the document, builds its index, and gives up if anything raised. */
  function Process(w: World, st: Store, id: nat): (Outcome, Store) {
    if w.fails(st.tick) then (Raised, Rollback(Ticked(st)))
    else
      var marked := Commit(SetStatus(Ticked(st), id, Processing, None));
      var (built, next) := Build(w, marked, id);
      if built then (Returned(Ready), next) else GiveUp(w, next, id)
  }

  predicate Duplicate(db: Db, base: nat, content: string) {
    exists d :: d in db.documents && db.documents[d].base == base && db.documents[d].content == content
  }

  function Ingest(w: World, st: Store, base: nat, content: string): (Outcome, Store) {
    if content == "" || |content| > w.maxChars || Duplicate(st.working, base, content) then (Rejected, st)
    else if w.fails(st.tick) then (Raised, Rollback(Ticked(st)))
    else
      var id := st.nextId;
      var document := Document(base, content, Pending, 0);
      var added := st.(working := st.working.(documents := st.working.documents[id := document]),
                       nextId := id + 1, tick := st.tick + 1);
      Process(w, Commit(added), id)
  }

  /** The vectors and then the chunks of a document are removed; a raise rolls both back. */
  function DropIndexOf(w: World, st: Store, id: nat): (bool, Store) {
    if w.fails(st.tick) then (false, Rollback(Ticked(st)))
    else
      var dropped := DropVectors(w, Ticked(st), id);
      if w.fails(dropped.tick) then (false, Rollback(Ticked(dropped)))
      else (true, DropChunks(Ticked(dropped), id))
  }

  /** The old index goes first, with a commit of its own. */
  function Reingest(w: World, st: Store, id: nat): (Outcome, Store) {
    if id !in st.working.documents then (Rejected, st)
    else
      var (dropped, next) := DropIndexOf(w, st, id);
      if dropped then Process(w, Commit(next), id) else (Raised, next)
  }

  function Delete(w: World, st: Store, id: nat): (Outcome, Store) {
    if id !in st.working.documents then (Rejected, st)
    else
      var (dropped, next) := DropIndexOf(w, st, id);
      if dropped
      then (Deleted, Commit(next.(working := next.working.(documents := next.working.documents - {id}))))
      else (Raised, next)
  }
}
