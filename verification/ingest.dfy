/** Ingestion as a state machine: uploads, jobs, the handler's two transactions, and the other
    writers of documents (knowledge_desk/ingest.py:34-225, knowledge_desk/tenancy.py:330-359).

    The chunker is a parameter, `pieces`. Any number of handlers may run at once, even for the
    same job. */
module Ingest {
  import opened Text
  import opened Store
  import opened Reconcile
  import opened Chunking

  type Run = nat

  datatype Phase =
    | HasRead(doc: Doc)                      // between the first transaction and the embedder
    | Embedded(doc: Doc, rows: seq<Chunk>)   // has the rows for the second transaction
    | Done
    | Raised

  /** `touched` is history: whether the document's row changed since it was read. */
  datatype Handling = Handling(key: Key, phase: Phase, touched: bool)

  /** `jobs` says of each key ever enqueued whether its job is finished. `owed` are keys a
      committed sync has yet to enqueue, `failing` those of dead jobs whose document has yet to
      be marked. */
  datatype State = State(db: Db, jobs: map<Key, bool>, owed: set<Key>, failing: set<Key>, handlers: map<Run, Handling>)

  datatype Step =
    | Sync(org: nat, source: string, items: seq<Item>)
    | Enqueue(key: Key)
    | Begin(run: Run, key: Key)
    | Embed(run: Run, vectors: seq<nat>)
    | Write(run: Run)
    | Error(run: Run)  // anything raises, marking a finished job included
    | Succeed(run: Run)
    | Fail(run: Run, dead: bool)
    | Die(run: Run)
    | MarkDocumentFailed(key: Key)
    | UpdateAcl(id: DocId, acl: Acl)
    | DeleteDocument(id: DocId)

  type Chunker = string -> seq<string>

  predicate Enabled(pieces: Chunker, s: State, a: Step) {
    match a
    case Sync(_, _, _) => true
    case Enqueue(key) => key in s.owed
    case Begin(run, key) => run !in s.handlers && key in s.jobs && !s.jobs[key]
    case Embed(run, vectors) =>
      run in s.handlers && s.handlers[run].phase.HasRead?
      && (pieces(s.handlers[run].phase.doc.content) == [] ==> vectors == [])
    case Write(run) => run in s.handlers && s.handlers[run].phase.Embedded?
    case Error(run) => run in s.handlers && s.handlers[run].phase != Raised
    case Succeed(run) => run in s.handlers && s.handlers[run].phase == Done
    case Fail(run, _) => run in s.handlers && s.handlers[run].phase == Raised
    case Die(run) => run in s.handlers
    case MarkDocumentFailed(key) => key in s.failing
    case UpdateAcl(id, _) => id in s.db.docs
    case DeleteDocument(id) => id in s.db.docs
  }

  // ---- what the steps write ----------------------------------------------------------

  /** The chunk rows for a document as read; none at all unless every piece has a vector. */
  function ChunkRows(pieces: Chunker, d: Doc, vectors: seq<nat>): Option<seq<Chunk>> {
    var texts := pieces(d.content);
    if |texts| != |vectors| then None
    else Some(seq(|texts|, i requires 0 <= i < |texts| => Chunk(d.at.org, texts[i], vectors[i], d.acl)))
  }

  function Replaced(chunks: map<ChunkKey, Chunk>, id: DocId, rows: seq<Chunk>): map<ChunkKey, Chunk> {
    (map c | c in chunks && c.doc != id :: chunks[c]) + (map n | 0 <= n < |rows| :: ChunkKey(id, n) := rows[n])
  }

  function WithDoc(db: Db, id: DocId, d: Doc): Db {
    db.(docs := db.docs[id := d])
  }

  /** The second transaction, on a row that is there. */
  function Written(db: Db, id: DocId, rows: seq<Chunk>): Db
    requires id in db.docs
  {
    WithDoc(db, id, db.docs[id].(status := Ingested)).(chunks := Replaced(db.chunks, id, rows))
  }

  function AclUpdated(db: Db, id: DocId, acl: Acl): Db
    requires id in db.docs
  {
    WithDoc(db, id, db.docs[id].(acl := acl)).(
      chunks := map c | c in db.chunks :: if c.doc == id then db.chunks[c].(acl := acl) else db.chunks[c])
  }

  function Removed(db: Db, id: DocId): Db
    requires id in db.docs
  {
    db.(docs := db.docs - {id}, byPlace := db.byPlace - {db.docs[id].at},
        chunks := map c | c in db.chunks && c.doc != id :: db.chunks[c])
  }

  function Read(db: Db, id: DocId): Phase {
    if id !in db.docs || db.docs[id].status == Deleted then Done else HasRead(db.docs[id])
  }

  function Row(db: Db, id: DocId): Option<Doc> {
    if id in db.docs then Some(db.docs[id]) else None
  }

  function OwedBy(db: Db, org: nat, source: string, items: seq<Item>): set<Key> {
    set key | key in SyncUpTo(db, org, source, items, |items|).owed
  }

  /** The tables after a step. */
  function TablesAfter(pieces: Chunker, s: State, a: Step): Db
    requires Enabled(pieces, s, a)
  {
    match a
    case Sync(org, source, items) => Reconciled(s.db, org, source, items)
    case Write(run) =>
      var id := s.handlers[run].key.doc;
      if id in s.db.docs then Written(s.db, id, s.handlers[run].phase.rows) else s.db
    case MarkDocumentFailed(key) =>
      if key.doc in s.db.docs then WithDoc(s.db, key.doc, s.db.docs[key.doc].(status := Failed)) else s.db
    case UpdateAcl(id, acl) => AclUpdated(s.db, id, acl)
    case DeleteDocument(id) => Removed(s.db, id)
    case _ => s.db
  }

  /** Where a handler is after its own step. */
  function PhaseAfter(pieces: Chunker, s: State, a: Step, run: Run): Phase
    requires Enabled(pieces, s, a) && run in s.handlers
  {
    var phase := s.handlers[run].phase;
    match a
    case Embed(r, vectors) =>
      if r != run then phase
      else
        var rows := ChunkRows(pieces, phase.doc, vectors);
        if rows.Some? then Embedded(phase.doc, rows.value) else Raised
    case Write(r) =>
      if r != run then phase
      else if s.handlers[run].key.doc in s.db.docs || phase.rows == [] then Done
      else Raised  // chunk rows without their document break the foreign key
    case Error(r) => if r != run then phase else Raised
    case _ => phase
  }

  function Leaves(a: Step): set<Run> {
    match a
    case Succeed(run) => {run}
    case Fail(run, _) => {run}
    case Die(run) => {run}
    case _ => {}
  }

  function HandlersAfter(pieces: Chunker, s: State, a: Step): map<Run, Handling>
    requires Enabled(pieces, s, a)
  {
    var db := TablesAfter(pieces, s, a);
    var staying := map run | run in s.handlers && run !in Leaves(a) ::
      Handling(s.handlers[run].key, PhaseAfter(pieces, s, a, run),
               s.handlers[run].touched || Row(db, s.handlers[run].key.doc) != Row(s.db, s.handlers[run].key.doc));
    if a.Begin? then staying[a.run := Handling(a.key, Read(s.db, a.key.doc), false)] else staying
  }

  function JobsAfter(pieces: Chunker, s: State, a: Step): map<Key, bool>
    requires Enabled(pieces, s, a)
  {
    match a
    case Enqueue(key) => if key in s.jobs then s.jobs else s.jobs[key := false]
    case Succeed(run) => s.jobs[s.handlers[run].key := true]
    case Fail(run, dead) => if dead then s.jobs[s.handlers[run].key := true] else s.jobs
    case _ => s.jobs
  }

  function After(pieces: Chunker, s: State, a: Step): State
    requires Enabled(pieces, s, a)
  {
    State(TablesAfter(pieces, s, a), JobsAfter(pieces, s, a),
          match a {
            case Sync(org, source, items) => s.owed + OwedBy(s.db, org, source, items)
            case Enqueue(key) => s.owed - {key}
            case _ => s.owed
          },
          match a {
            case Fail(run, dead) => if dead then s.failing + {s.handlers[run].key} else s.failing
            case MarkDocumentFailed(key) => s.failing - {key}
            case _ => s.failing
          },
          HandlersAfter(pieces, s, a))
  }

  function Start(): State {
    State(Db(map[], map[], 0, map[]), map[], {}, {}, map[])
  }

  // ---- index agreement ---------------------------------------------------------------

  /** The chunks of `id` are exactly the pieces of its text, numbered from 0, each with the
      document's org and ACL. */
  ghost predicate Indexed(pieces: Chunker, db: Db, id: DocId)
    requires id in db.docs
  {
    var d, texts := db.docs[id], pieces(db.docs[id].content);
    && (forall c: ChunkKey :: c.doc == id ==> (c in db.chunks <==> c.ordinal < |texts|))
    && (forall n {:trigger texts[n]} :: 0 <= n < |texts| ==> HasChunk(db, ChunkKey(id, n), d, texts[n]))
  }

  predicate HasChunk(db: Db, c: ChunkKey, d: Doc, text: string) {
    c in db.chunks && db.chunks[c].org == d.at.org && db.chunks[c].text == text && db.chunks[c].acl == d.acl
  }

  predicate NoChunks(db: Db, id: DocId) {
    forall c :: c in db.chunks ==> c.doc != id
  }

  /** An ingested document is indexed, and a deleted one has no chunks. */
  ghost predicate Agrees(pieces: Chunker, db: Db, id: DocId) {
    id in db.docs ==>
      && (db.docs[id].status == Ingested ==> Indexed(pieces, db, id))
      && (db.docs[id].status == Deleted ==> NoChunks(db, id))
  }

  ghost predicate IndexAgrees(pieces: Chunker, db: Db) {
    Valid(db) && forall id :: id in db.docs ==> Agrees(pieces, db, id)
  }

  /** What a handler holds is what it read, and the row still reads so unless it was touched. */
  ghost predicate HandlerOk(pieces: Chunker, db: Db, h: Handling) {
    && (h.phase.HasRead? || h.phase.Embedded? ==>
          h.phase.doc.status != Deleted && (!h.touched ==> Row(db, h.key.doc) == Some(h.phase.doc)))
    && (h.phase.Embedded? ==> RowsAreOf(pieces, h.phase.doc, h.phase.rows))
  }

  ghost predicate RowsAreOf(pieces: Chunker, d: Doc, rows: seq<Chunk>) {
    var texts := pieces(d.content);
    && |rows| == |texts|
    && forall n :: 0 <= n < |rows| ==> rows[n].org == d.at.org && rows[n].text == texts[n] && rows[n].acl == d.acl
  }

  ghost predicate Inv(pieces: Chunker, s: State) {
    IndexAgrees(pieces, s.db) && forall run :: run in s.handlers ==> HandlerOk(pieces, s.db, s.handlers[run])
  }

  /** Nobody else wrote the document between this handler's two transactions. */
  predicate NobodyBetween(s: State, a: Step) {
    a.Write? && a.run in s.handlers ==> !s.handlers[a.run].touched
  }

  // ---- the second transaction --------------------------------------------------------

  predicate SameChunk(before: map<ChunkKey, Chunk>, after: map<ChunkKey, Chunk>, c: ChunkKey) {
    (c in after <==> c in before) && (c in before ==> after[c] == before[c])
  }

  lemma WrittenChunks(db: Db, id: DocId, rows: seq<Chunk>)
    requires id in db.docs
    ensures var chunks := Written(db, id, rows).chunks;
            && (forall c: ChunkKey :: c.doc == id ==> (c in chunks <==> c.ordinal < |rows|))
            && (forall n: nat {:trigger rows[n]} :: n < |rows| ==>
                  ChunkKey(id, n) in chunks && chunks[ChunkKey(id, n)] == rows[n])
            && (forall c: ChunkKey :: c.doc != id ==> SameChunk(db.chunks, chunks, c))
  {
    var inserted := map n | 0 <= n < |rows| :: ChunkKey(id, n) := rows[n];
    forall c: ChunkKey | c.doc == id && c.ordinal < |rows| ensures c in inserted {
      assert c == ChunkKey(id, c.ordinal);
    }
  }

  /** The chunks just written are numbered as the text's pieces only if they are as many. */
  lemma SameLength(pieces: Chunker, db: Db, id: DocId, rows: seq<Chunk>)
    requires id in db.docs && Agrees(pieces, Written(db, id, rows), id)
    ensures |pieces(db.docs[id].content)| == |rows|
  {
    WrittenChunks(db, id, rows);
    var chunks, texts := Written(db, id, rows).chunks, pieces(db.docs[id].content);
    assert ChunkKey(id, |texts|) !in chunks;
    assert ChunkKey(id, |rows|) !in chunks;
  }

  /** The text still chunks as the text that was read did, and the ACL is still the one that was
      read or there is nothing to put it on. */
  predicate Fits(pieces: Chunker, now: Doc, read: Doc) {
    pieces(now.content) == pieces(read.content) && (now.acl == read.acl || pieces(read.content) == [])
  }

  /** The second transaction leaves the document indexed exactly when what was read still fits.
      The write does not check. */
  lemma WriteAgreesIff(pieces: Chunker, db: Db, id: DocId, read: Doc, rows: seq<Chunk>)
    requires id in db.docs && RowsAreOf(pieces, read, rows) && read.at == db.docs[id].at
    ensures Agrees(pieces, Written(db, id, rows), id)
            <==> Fits(pieces, db.docs[id], read)
  {
    WrittenChunks(db, id, rows);
    var now := pieces(db.docs[id].content);
    if Agrees(pieces, Written(db, id, rows), id) {
      SameLength(pieces, db, id, rows);
      forall n | 0 <= n < |now| ensures now[n] == rows[n].text && db.docs[id].acl == rows[n].acl {
        assert HasChunk(Written(db, id, rows), ChunkKey(id, n), Written(db, id, rows).docs[id], now[n]);
      }
      assert now == pieces(read.content);
      assert now != [] ==> db.docs[id].acl == rows[0].acl;
    }
  }

  // ---- every writer keeps the index --------------------------------------------------

  /** `db'` treats `id` as `db` does. */
  ghost predicate SameDoc(db: Db, db': Db, id: DocId) {
    && Row(db', id) == Row(db, id)
    && forall c: ChunkKey :: c.doc == id ==> SameChunk(db.chunks, db'.chunks, c)
  }

  lemma SameDocAgrees(pieces: Chunker, db: Db, db': Db, id: DocId)
    requires Agrees(pieces, db, id) && SameDoc(db, db', id)
    ensures Agrees(pieces, db', id)
  {
    if id in db.docs && db.docs[id].status == Ingested {
      var d, texts := db.docs[id], pieces(db.docs[id].content);
      forall n | 0 <= n < |texts| ensures HasChunk(db', ChunkKey(id, n), d, texts[n]) {
        assert HasChunk(db, ChunkKey(id, n), d, texts[n]) && SameChunk(db.chunks, db'.chunks, ChunkKey(id, n));
      }
      forall c: ChunkKey | c.doc == id ensures c in db'.chunks <==> c.ordinal < |texts| {
        assert SameChunk(db.chunks, db'.chunks, c);
      }
    } else {
      forall c: ChunkKey | c in db'.chunks && c.doc == id ensures c in db.chunks {
        assert SameChunk(db.chunks, db'.chunks, c);
      }
    }
  }

  /** What a sync makes of a row: it is pending, or it was dropped, or it is as it was. */
  lemma SyncedRow(db: Db, org: nat, source: string, items: seq<Item>, id: DocId)
    requires Valid(db) && id in Reconciled(db, org, source, items).docs
    ensures var after, dropped := Reconciled(db, org, source, items), Dropped(db, org, source, items);
            || (after.docs[id].status == Pending && after.docs[id].hash == Digest(after.docs[id].content))
            || (id in dropped && after.docs[id].status == Deleted)
            || (id in db.docs && id !in dropped && after.docs[id] == db.docs[id])
    ensures id in Dropped(db, org, source, items) ==>
              Reconciled(db, org, source, items).docs[id] == Tombstone(db.docs[id])
  {
    var s, after := Reconcile.DbAfter(db, org, source, items, |items|), Reconciled(db, org, source, items);
    SyncExtends(db, org, source, items, |items|);
    var w := s.docs[id].at;
    assert after.docs[id].at == w;
    RowReconciled(db, org, source, items, w);
    SamePlace(db, s, w);
    DroppedIff(db, org, source, items, w);
  }

  lemma SyncedChunks(db: Db, org: nat, source: string, items: seq<Item>)
    requires Valid(db)
    ensures var after := Reconciled(db, org, source, items);
            && Valid(after)
            && (forall c: ChunkKey :: c.doc !in Dropped(db, org, source, items) ==>
                  SameChunk(db.chunks, after.chunks, c))
            && (forall c: ChunkKey :: c.doc in Dropped(db, org, source, items) ==> c !in after.chunks)
  {
    SyncExtends(db, org, source, items, |items|);
    DropLookup(Reconcile.DbAfter(db, org, source, items, |items|), Dropped(db, org, source, items));
  }

  lemma SyncKeepsIndex(pieces: Chunker, db: Db, org: nat, source: string, items: seq<Item>)
    requires IndexAgrees(pieces, db)
    ensures IndexAgrees(pieces, Reconciled(db, org, source, items))
  {
    var after := Reconciled(db, org, source, items);
    SyncedChunks(db, org, source, items);
    forall id | id in after.docs ensures Agrees(pieces, after, id) {
      SyncedRow(db, org, source, items, id);
      if id in db.docs && id !in Dropped(db, org, source, items) && after.docs[id] == db.docs[id] {
        SameDocAgrees(pieces, db, after, id);
      }
    }
  }

  lemma WriteKeepsIndexIff(pieces: Chunker, db: Db, id: DocId, read: Doc, rows: seq<Chunk>)
    requires IndexAgrees(pieces, db) && id in db.docs && RowsAreOf(pieces, read, rows) && read.at == db.docs[id].at
    ensures IndexAgrees(pieces, Written(db, id, rows)) <==> Fits(pieces, db.docs[id], read)
  {
    var db' := Written(db, id, rows);
    WrittenChunks(db, id, rows);
    WrittenValid(db, id, rows);
    WriteAgreesIff(pieces, db, id, read, rows);
    forall x | x in db'.docs && x != id ensures Agrees(pieces, db', x) {
      SameDocAgrees(pieces, db, db', x);
    }
  }

  /** The ACL is changed on the document and on its copies in one transaction. */
  lemma AclKeepsIndex(pieces: Chunker, db: Db, id: DocId, acl: Acl)
    requires IndexAgrees(pieces, db) && id in db.docs
    ensures IndexAgrees(pieces, AclUpdated(db, id, acl))
  {
    var db' := AclUpdated(db, id, acl);
    forall x | x in db'.docs ensures Agrees(pieces, db', x) {
      assert Agrees(pieces, db, x);
      if x != id {
        SameDocAgrees(pieces, db, db', x);
      } else if db.docs[id].status == Ingested {
        var texts := pieces(db.docs[id].content);
        forall n | 0 <= n < |texts| ensures HasChunk(db', ChunkKey(id, n), db'.docs[id], texts[n]) {
          assert HasChunk(db, ChunkKey(id, n), db.docs[id], texts[n]);
        }
      }
    }
  }

  lemma RemoveKeepsIndex(pieces: Chunker, db: Db, id: DocId)
    requires IndexAgrees(pieces, db) && id in db.docs
    ensures IndexAgrees(pieces, Removed(db, id))
  {
    var db' := Removed(db, id);
    forall x | x in db'.docs ensures Agrees(pieces, db', x) {
      SameDocAgrees(pieces, db, db', x);
    }
  }

  lemma FailedKeepsIndex(pieces: Chunker, db: Db, id: DocId)
    requires IndexAgrees(pieces, db) && id in db.docs
    ensures IndexAgrees(pieces, WithDoc(db, id, db.docs[id].(status := Failed)))
  {
    var db' := WithDoc(db, id, db.docs[id].(status := Failed));
    forall x | x in db'.docs && x != id ensures Agrees(pieces, db', x) {
      SameDocAgrees(pieces, db, db', x);
    }
  }

  // ---- steps and runs ----------------------------------------------------------------

  lemma OthersKeepIndex(pieces: Chunker, s: State, a: Step)
    requires IndexAgrees(pieces, s.db) && Enabled(pieces, s, a) && !a.Write?
    ensures IndexAgrees(pieces, TablesAfter(pieces, s, a))
  {
    match a
    case Sync(org, source, items) => SyncKeepsIndex(pieces, s.db, org, source, items);
    case MarkDocumentFailed(key) =>
      if key.doc in s.db.docs {
        FailedKeepsIndex(pieces, s.db, key.doc);
      }
    case UpdateAcl(id, acl) => AclKeepsIndex(pieces, s.db, id, acl);
    case DeleteDocument(id) => RemoveKeepsIndex(pieces, s.db, id);
    case _ =>
  }

  lemma TablesKeepIndex(pieces: Chunker, s: State, a: Step)
    requires Inv(pieces, s) && Enabled(pieces, s, a) && NobodyBetween(s, a)
    ensures IndexAgrees(pieces, TablesAfter(pieces, s, a))
  {
    if a.Write? {
      var h := s.handlers[a.run];
      assert HandlerOk(pieces, s.db, h);
      if h.key.doc in s.db.docs {
        WriteKeepsIndexIff(pieces, s.db, h.key.doc, h.phase.doc, h.phase.rows);
      }
    } else {
      OthersKeepIndex(pieces, s, a);
    }
  }

  lemma HandlersStayOk(pieces: Chunker, s: State, a: Step, run: Run)
    requires Inv(pieces, s) && Enabled(pieces, s, a) && run in HandlersAfter(pieces, s, a)
    ensures HandlerOk(pieces, TablesAfter(pieces, s, a), HandlersAfter(pieces, s, a)[run])
  {
    if !a.Begin? || run != a.run {
      assert HandlerOk(pieces, s.db, s.handlers[run]);
    }
  }

  lemma StepKeeps(pieces: Chunker, s: State, a: Step)
    requires Inv(pieces, s) && Enabled(pieces, s, a) && NobodyBetween(s, a)
    ensures Inv(pieces, After(pieces, s, a))
  {
    TablesKeepIndex(pieces, s, a);
    forall run | run in HandlersAfter(pieces, s, a)
      ensures HandlerOk(pieces, TablesAfter(pieces, s, a), HandlersAfter(pieces, s, a)[run])
    {
      HandlersStayOk(pieces, s, a, run);
    }
  }

  predicate Takes(pieces: Chunker, s: State, a: Step, s': State) {
    Enabled(pieces, s, a) && s' == After(pieces, s, a)
  }

  ghost predicate IsRun(pieces: Chunker, run: seq<State>, steps: seq<Step>) {
    && |run| == |steps| + 1 && run[0] == Start()
    && forall i :: 0 <= i < |steps| ==> Takes(pieces, run[i], steps[i], run[i + 1])
  }

  /** No document is written between the two transactions of a handler that gets to write it. */
  ghost predicate NeverDisturbed(run: seq<State>, steps: seq<Step>)
    requires |run| == |steps| + 1
  {
    forall i :: 0 <= i < |steps| ==> NobodyBetween(run[i], steps[i])
  }

  lemma {:induction false} RunKeeps(pieces: Chunker, run: seq<State>, steps: seq<Step>, i: nat)
    requires IsRun(pieces, run, steps) && NeverDisturbed(run, steps) && i < |run|
    ensures Inv(pieces, run[i])
  {
    if i > 0 {
      RunKeeps(pieces, run, steps, i - 1);
      assert Takes(pieces, run[i - 1], steps[i - 1], run[i - 1 + 1]);
      StepKeeps(pieces, run[i - 1], steps[i - 1]);
    }
  }

  /** In every state of such a run the index agrees with the documents. */
  lemma IndexAgreement(pieces: Chunker, run: seq<State>, steps: seq<Step>, i: nat)
    requires IsRun(pieces, run, steps) && NeverDisturbed(run, steps) && i < |run|
    ensures IndexAgrees(pieces, run[i].db)
  {
    RunKeeps(pieces, run, steps, i);
  }

  /** A handler whose batch came back with the wrong number of vectors never writes: whatever else
      goes on, it raises, and its next write is that of a run begun anew. */
  lemma MiscountNeverWrites(pieces: Chunker, run: seq<State>, steps: seq<Step>, i: nat, k: nat, r: Run,
                            vectors: seq<nat>)
    requires IsRun(pieces, run, steps) && i < k < |steps| && steps[i] == Embed(r, vectors)
    requires r in run[i].handlers && run[i].handlers[r].phase.HasRead?
    requires |vectors| != |pieces(run[i].handlers[r].phase.doc.content)|
    requires forall m :: i < m < k && steps[m].Begin? ==> steps[m].run != r
    ensures steps[k] != Write(r)
  {
    MiscountRaises(pieces, run, steps, i, k, r, vectors);
    assert Takes(pieces, run[k], steps[k], run[k + 1]);
  }

  lemma {:induction false} MiscountRaises(pieces: Chunker, run: seq<State>, steps: seq<Step>, i: nat, k: nat, r: Run,
                                          vectors: seq<nat>)
    requires IsRun(pieces, run, steps) && i < k < |steps| && steps[i] == Embed(r, vectors)
    requires r in run[i].handlers && run[i].handlers[r].phase.HasRead?
    requires |vectors| != |pieces(run[i].handlers[r].phase.doc.content)|
    requires forall m :: i < m < k && steps[m].Begin? ==> steps[m].run != r
    ensures r in run[k].handlers ==> run[k].handlers[r].phase == Raised
  {
    assert Takes(pieces, run[k - 1], steps[k - 1], run[k - 1 + 1]);
    if i < k - 1 {
      MiscountRaises(pieces, run, steps, i, k - 1, r, vectors);
    }
  }

  /** The shipped chunker is one such `pieces`. */
  lemma IndexAgreementOfChunker(run: seq<State>, steps: seq<Step>, i: nat, id: DocId)
    requires IsRun(DocumentChunks, run, steps) && NeverDisturbed(run, steps) && i < |run|
    requires id in run[i].db.docs && run[i].db.docs[id].status == Ingested
    ensures var d, chunks := run[i].db.docs[id], run[i].db.chunks;
            var texts := DocumentChunks(d.content);
            && (forall c: ChunkKey :: c.doc == id ==> (c in chunks <==> c.ordinal < |texts|))
            && forall n {:trigger texts[n]} :: 0 <= n < |texts| ==> HasChunk(run[i].db, ChunkKey(id, n), d, texts[n])
  {
    IndexAgreement(DocumentChunks, run, steps, i);
    assert Agrees(DocumentChunks, run[i].db, id);
  }

  /** One way to lose it: whatever else is true, an ACL change between the two transactions of
      a handler with something to write leaves an ingested document whose chunks still carry
      the old ACL. */
  lemma AclChangeBetween(pieces: Chunker, s: State, run: Run, acl: Acl)
    requires Inv(pieces, s) && Enabled(pieces, s, Write(run)) && !s.handlers[run].touched
    requires s.handlers[run].phase.rows != [] && acl != s.handlers[run].phase.doc.acl
    ensures var id := s.handlers[run].key.doc;
            && Enabled(pieces, s, UpdateAcl(id, acl))
            && var s1 := After(pieces, s, UpdateAcl(id, acl));
               Enabled(pieces, s1, Write(run)) && id in After(pieces, s1, Write(run)).db.docs
               && After(pieces, s1, Write(run)).db.docs[id].status == Ingested
               && !Agrees(pieces, After(pieces, s1, Write(run)).db, id)
  {
    var h := s.handlers[run];
    assert HandlerOk(pieces, s.db, h);
    var s1 := After(pieces, s, UpdateAcl(h.key.doc, acl));
    assert s1.handlers[run].phase == h.phase;
    WriteAgreesIff(pieces, s1.db, h.key.doc, h.phase.doc, h.phase.rows);
  }

  // ---- hashes ------------------------------------------------------------------------

  /** Every row that is not a tombstone carries the hash of its own text. */
  ghost predicate HashesKept(db: Db) {
    forall id :: id in db.docs && db.docs[id].status != Deleted ==> db.docs[id].hash == Digest(db.docs[id].content)
  }

  /** A dead job's document is not marked failed after it has been deleted. The code does not
      look. */
  predicate SparesTombstones(s: State, a: Step) {
    a.MarkDocumentFailed? && a.key.doc in s.db.docs ==> s.db.docs[a.key.doc].status != Deleted
  }

  lemma StepKeepsHashes(pieces: Chunker, s: State, a: Step)
    requires Inv(pieces, s) && HashesKept(s.db)
    requires Enabled(pieces, s, a) && NobodyBetween(s, a) && SparesTombstones(s, a)
    ensures HashesKept(TablesAfter(pieces, s, a))
  {
    match a
    case Sync(org, source, items) =>
      var docs := Reconciled(s.db, org, source, items).docs;
      forall id | id in docs && docs[id].status != Deleted ensures docs[id].hash == Digest(docs[id].content) {
        SyncedRow(s.db, org, source, items, id);
      }
    case Write(run) => assert HandlerOk(pieces, s.db, s.handlers[run]);
    case _ =>
  }

  lemma {:induction false} RunKeepsHashes(pieces: Chunker, run: seq<State>, steps: seq<Step>, i: nat)
    requires IsRun(pieces, run, steps) && NeverDisturbed(run, steps) && i < |run|
    requires forall k :: 0 <= k < |steps| ==> SparesTombstones(run[k], steps[k])
    ensures HashesKept(run[i].db)
  {
    if i > 0 {
      RunKeeps(pieces, run, steps, i - 1);
      RunKeepsHashes(pieces, run, steps, i - 1);
      assert Takes(pieces, run[i - 1], steps[i - 1], run[i - 1 + 1]);
      StepKeepsHashes(pieces, run[i - 1], steps[i - 1]);
    }
  }

  /** So in such runs every sync with distinct paths leaves exactly the uploaded texts live. */
  lemma SyncIsExact(pieces: Chunker, run: seq<State>, steps: seq<Step>, i: nat, path: string)
    requires IsRun(pieces, run, steps) && NeverDisturbed(run, steps) && i < |steps|
    requires forall k :: 0 <= k < |steps| ==> SparesTombstones(run[k], steps[k])
    requires steps[i].Sync? && DistinctPaths(steps[i].items)
    ensures LiveContent(run[i + 1].db, Where(steps[i].org, steps[i].source, path))
            == ItemContent(steps[i].items, path, |steps[i].items|)
  {
    RunKeeps(pieces, run, steps, i);
    RunKeepsHashes(pieces, run, steps, i);
    assert Takes(pieces, run[i], steps[i], run[i + 1]);
    ReconcileLive(run[i].db, steps[i].org, steps[i].source, steps[i].items, path);
  }

  /** And the one marking that does not look costs just that. Mark a tombstone failed, let a
      leftover job of the document ingest the empty text, and uploading the old bytes again is
      taken for no change: the document stays empty. */
  lemma RevivedTombstone(pieces: Chunker, db: Db, id: DocId, text: string)
    requires Valid(db) && id in db.docs && db.docs[id].status == Deleted && db.docs[id].content == ""
    requires db.docs[id].hash == Digest(text) && text != ""
    ensures var w := db.docs[id].at;
            var db2 := Written(WithDoc(db, id, db.docs[id].(status := Failed)), id, []);
            var upload := [Item(w.path, text, None)];
            && SyncUpTo(db2, w.org, w.source, upload, 1).owed == []
            && LiveContent(Reconciled(db2, w.org, w.source, upload), w) == Some("")
  {
    var w := db.docs[id].at;
    var db1 := WithDoc(db, id, db.docs[id].(status := Failed));
    var db2 := Written(db1, id, []);
    var upload := [Item(w.path, text, None)];
    WrittenChunks(db1, id, []);
    assert forall c: ChunkKey :: c in db2.chunks ==> SameChunk(db1.chunks, db2.chunks, c);
    assert Valid(db2);
    assert Unchanged(Lookup(db2, w), upload[0]);
    RowReconciled(db2, w.org, w.source, upload, w);
    assert HasPath(upload, w.path);
    NotWritten(Lookup(db2, w), w.path, upload, 1);
    assert SyncUpTo(db2, w.org, w.source, upload, 0).owed == [];
  }

  // ---- the handler, undisturbed ------------------------------------------------------

  /** `rows`: one chunk per piece, and an error if the vectors run out or are left over. */
  method BuildRows(d: Doc, texts: seq<string>, vectors: seq<nat>) returns (rows: Option<seq<Chunk>>)
    ensures rows.None? <==> |texts| != |vectors|
    ensures rows.Some? ==>
              |rows.value| == |texts|
              && forall i :: 0 <= i < |texts| ==> rows.value[i] == Chunk(d.at.org, texts[i], vectors[i], d.acl)
  {
    var built: seq<Chunk> := [];
    var i := 0;
    while i < |texts| && i < |vectors|
      invariant i <= |texts| && i <= |vectors| && |built| == i
      invariant forall k :: 0 <= k < i ==> built[k] == Chunk(d.at.org, texts[k], vectors[k], d.acl)
    {
      built := built + [Chunk(d.at.org, texts[i], vectors[i], d.acl)];
      i := i + 1;
    }
    rows := if |texts| == |vectors| then Some(built) else None;
  }

  /** `process_ingest_document` when nothing comes between its transactions. It raises exactly
      if the embedder does or hands back the wrong number of vectors, and then has written
      nothing. */
  method ProcessIngestDocument(d: Database, pieces: Chunker, id: DocId, embed: seq<string> -> Option<seq<nat>>)
    returns (raised: bool)
    requires d.Sound()
    modifies d
    ensures d.Sound()
    ensures var texts := if id in old(d.db).docs then pieces(old(d.db).docs[id].content) else [];
            var vectors := if texts == [] then Some([]) else embed(texts);
            if Read(old(d.db), id) == Done then !raised && d.db == old(d.db)
            else if vectors.None? || |vectors.value| != |texts| then raised && d.db == old(d.db)
            else !raised && d.db == Written(old(d.db), id, ChunkRows(pieces, old(d.db).docs[id], vectors.value).value)
  {
    if id !in d.db.docs || d.db.docs[id].status == Deleted {
      return false;
    }
    var doc := d.db.docs[id];
    var texts := pieces(doc.content);
    var vectors := if texts == [] then Some([]) else embed(texts);
    if vectors.None? {
      return true;
    }
    var rows := BuildRows(doc, texts, vectors.value);
    if rows.None? {
      return true;
    }
    assert rows.value == ChunkRows(pieces, doc, vectors.value).value;
    ReplaceChunks(d, id, rows.value);
    return false;
  }

  /** The second transaction: delete, insert row by row, mark ingested. */
  method ReplaceChunks(d: Database, id: DocId, rows: seq<Chunk>)
    requires d.Sound() && id in d.db.docs
    modifies d
    ensures d.Sound() && d.db == Written(old(d.db), id, rows)
  {
    ghost var before := d.db;
    d.db := d.db.(chunks := map c | c in d.db.chunks && c.doc != id :: d.db.chunks[c]);
    for i := 0 to |rows|
      invariant d.db == before.(chunks := Replaced(before.chunks, id, rows[..i]))
    {
      InsertOne(before.chunks, id, rows, i);
      d.db := d.db.(chunks := d.db.chunks[ChunkKey(id, i) := rows[i]]);
    }
    assert rows[..|rows|] == rows;
    d.db := WithDoc(d.db, id, d.db.docs[id].(status := Ingested));
    WrittenValid(before, id, rows);
  }

  lemma InsertOne(chunks: map<ChunkKey, Chunk>, id: DocId, rows: seq<Chunk>, i: nat)
    requires i < |rows|
    ensures Replaced(chunks, id, rows[..i])[ChunkKey(id, i) := rows[i]] == Replaced(chunks, id, rows[..i + 1])
  {
  }

  lemma WrittenValid(db: Db, id: DocId, rows: seq<Chunk>)
    requires Valid(db) && id in db.docs
    ensures Valid(Written(db, id, rows))
  {
    WrittenChunks(db, id, rows);
    forall c: ChunkKey | c in Written(db, id, rows).chunks ensures c.doc in db.docs {
      assert c.doc != id ==> SameChunk(db.chunks, Written(db, id, rows).chunks, c);
    }
  }
}
