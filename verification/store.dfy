/** Documents, their chunks, and the reconcile that an upload performs
    (knowledge_desk/ingest.py:34-142, knowledge_desk/tenancy.py:233-268). Tables are maps, and
    the unique index on org, source and path is a map of its own. */
module Store {
  import opened Text
  import opened Sums

  type DocId = nat

  datatype Where = Where(org: nat, source: string, path: string)

  /** A content hash, taken to be injective. */
  datatype Digest = Digest(of: string)

  type Acl = seq<string>

  datatype DocStatus = Pending | Ingested | Failed | Deleted

  datatype Doc = Doc(at: Where, content: string, hash: Digest, acl: Acl, status: DocStatus, revision: nat)

  datatype ChunkKey = ChunkKey(doc: DocId, ordinal: nat)

  datatype Chunk = Chunk(org: nat, text: string, embedding: nat, acl: Acl)

  datatype Db = Db(docs: map<DocId, Doc>, byPlace: map<Where, DocId>, nextId: DocId, chunks: map<ChunkKey, Chunk>)

  /** `ingest:{document_id}:{content_hash}:{revision}` */
  datatype Key = Key(doc: DocId, hash: Digest, revision: nat)

  datatype Item = Item(path: string, content: string, acl: Option<Acl>)

  const DEFAULT_ACL: Acl := ["public-to-org"]

  /** The index and the table agree, and chunks have parents. */
  ghost predicate Valid(db: Db) {
    && (forall id :: id in db.docs ==>
          id < db.nextId && db.docs[id].at in db.byPlace && db.byPlace[db.docs[id].at] == id)
    && (forall w :: w in db.byPlace ==> db.byPlace[w] in db.docs && db.docs[db.byPlace[w]].at == w)
    && (forall c :: c in db.chunks ==> c.doc in db.docs)
  }

  /** The row at a place. */
  function Lookup(db: Db, w: Where): Option<Doc> {
    if w in db.byPlace && db.byPlace[w] in db.docs then Some(db.docs[db.byPlace[w]]) else None
  }

  // ---- one uploaded item -------------------------------------------------------------

  /** An absent ACL takes the default; an empty one stays empty. */
  function AclOf(item: Item): Acl {
    if item.acl.None? then DEFAULT_ACL else item.acl.value
  }

  predicate Unchanged(prior: Option<Doc>, item: Item) {
    prior.Some? && prior.value.hash == Digest(item.content) && prior.value.status == Ingested
  }

  /** `insert ... on conflict do update` */
  function Upserted(prior: Option<Doc>, w: Where, item: Item): Doc {
    Doc(w, item.content, Digest(item.content), AclOf(item), Pending, if prior.Some? then prior.value.revision else 0)
  }

  function Upsert(db: Db, w: Where, item: Item): Db {
    var doc := Upserted(Lookup(db, w), w, item);
    if Lookup(db, w).Some? then db.(docs := db.docs[db.byPlace[w] := doc])
    else db.(docs := db.docs[db.nextId := doc], byPlace := db.byPlace[w := db.nextId], nextId := db.nextId + 1)
  }

  function KeyAt(db: Db, w: Where): Key
    requires Lookup(db, w).Some?
  {
    var d := Lookup(db, w).value;
    Key(db.byPlace[w], d.hash, d.revision)
  }

  lemma UpsertValid(db: Db, w: Where, item: Item)
    requires Valid(db)
    ensures Valid(Upsert(db, w, item))
  {
  }

  lemma UpsertLookup(db: Db, w: Where, item: Item)
    requires Valid(db)
    ensures Valid(Upsert(db, w, item))
    ensures Upsert(db, w, item).chunks == db.chunks
    ensures Lookup(Upsert(db, w, item), w) == Some(Upserted(Lookup(db, w), w, item))
    ensures forall v :: v != w ==> Lookup(Upsert(db, w, item), v) == Lookup(db, v)
    ensures forall v :: v in db.byPlace ==>
              v in Upsert(db, w, item).byPlace && Upsert(db, w, item).byPlace[v] == db.byPlace[v]
    ensures forall id :: id in db.docs ==>
              id in Upsert(db, w, item).docs && Upsert(db, w, item).docs[id].at == db.docs[id].at
  {
    UpsertValid(db, w, item);
  }

  // ---- the upload loop ---------------------------------------------------------------

  datatype Synced = Synced(db: Db, enqueued: nat, kept: nat, owed: seq<Key>)

  /** The loop body for one item. `before` is the table as it was when the sync began. */
  function SyncItem(before: Db, s: Synced, w: Where, item: Item): Synced {
    if Unchanged(Lookup(before, w), item) then s.(kept := s.kept + 1)
    else
      var db := Upsert(s.db, w, item);
      Synced(db, s.enqueued + 1, s.kept, s.owed + (if Lookup(db, w).Some? then [KeyAt(db, w)] else []))
  }

  /** After the first `k` items. */
  function SyncUpTo(before: Db, org: nat, source: string, items: seq<Item>, k: nat): Synced
    requires k <= |items|
  {
    if k == 0 then Synced(before, 0, 0, [])
    else SyncItem(before, SyncUpTo(before, org, source, items, k - 1), Where(org, source, items[k - 1].path),
                  items[k - 1])
  }

  lemma NextItem(before: Db, org: nat, source: string, items: seq<Item>, i: nat)
    requires i < |items|
    ensures SyncUpTo(before, org, source, items, i + 1)
            == SyncItem(before, SyncUpTo(before, org, source, items, i), Where(org, source, items[i].path), items[i])
  {
  }

  lemma ChangedItem(before: Db, s: Synced, w: Where, item: Item)
    requires Valid(s.db) && !Unchanged(Lookup(before, w), item)
    ensures Lookup(Upsert(s.db, w, item), w).Some?
    ensures SyncItem(before, s, w, item)
            == Synced(Upsert(s.db, w, item), s.enqueued + 1, s.kept, s.owed + [KeyAt(Upsert(s.db, w, item), w)])
  {
  }

  // ---- the deletion loop -------------------------------------------------------------

  /** The rows the sync found live whose paths the upload no longer has. */
  function Dropped(before: Db, org: nat, source: string, items: seq<Item>): set<DocId> {
    set id | id in before.docs && before.docs[id].at.org == org && before.docs[id].at.source == source
             && before.docs[id].status != Deleted && !HasPath(items, before.docs[id].at.path)
  }

  predicate HasPath(items: seq<Item>, path: string) {
    exists i :: 0 <= i < |items| && items[i].path == path
  }

  function Tombstone(d: Doc): Doc {
    d.(status := Deleted, content := "", revision := d.revision + 1)
  }

  function Drop(db: Db, ids: set<DocId>): Db {
    db.(docs := map id | id in db.docs :: if id in ids then Tombstone(db.docs[id]) else db.docs[id],
        chunks := map c | c in db.chunks && c.doc !in ids :: db.chunks[c])
  }

  lemma DropLookup(db: Db, ids: set<DocId>)
    requires Valid(db)
    ensures Valid(Drop(db, ids))
    ensures forall w :: Lookup(Drop(db, ids), w) ==
                        if Lookup(db, w).Some? && db.byPlace[w] in ids then Some(Tombstone(Lookup(db, w).value))
                        else Lookup(db, w)
  {
  }

  lemma DropOneMore(db: Db, ids: set<DocId>, id: DocId)
    requires id !in ids && id in db.docs
    ensures Drop(Drop(db, ids), {id}) == Drop(db, ids + {id})
  {
  }

  // ---- the whole sync ----------------------------------------------------------------

  datatype Counts = Counts(enqueued: nat, kept: nat, deleted: nat)

  datatype Caps = Caps(docs: nat, bytes: nat)

  datatype SyncResult = Ok(counts: Counts) | OverStorageCap | OverDocumentCap

  /** The weight of an org's live rows. */
  function DocWeight(d: Doc, org: nat, weight: string -> nat): nat {
    if d.at.org == org && d.status != Deleted then weight(d.content) else 0
  }

  function LiveWeight(db: Db, org: nat, weight: string -> nat): nat -> nat {
    (id: nat) => if id in db.docs then DocWeight(db.docs[id], org, weight) else 0
  }

  function LiveTotal(db: Db, org: nat, weight: string -> nat): nat {
    SumTo(LiveWeight(db, org, weight), db.nextId)
  }

  const ONE: string -> nat := (s: string) => 1

  function IncomingTotal(items: seq<Item>, k: nat, weight: string -> nat): nat
    requires k <= |items|
  {
    if k == 0 then 0 else IncomingTotal(items, k - 1, weight) + weight(items[k - 1].content)
  }

  /** The precheck of `sync_source`; `octets` is the size of a text in UTF-8. */
  function CheckCaps(db: Db, org: nat, items: seq<Item>, caps: Caps, octets: string -> nat): Option<SyncResult> {
    if LiveTotal(db, org, octets) + IncomingTotal(items, |items|, octets) > caps.bytes then Some(OverStorageCap)
    else if LiveTotal(db, org, ONE) + |items| > caps.docs then Some(OverDocumentCap)
    else None
  }

  class Database {
    var db: Db

    ghost predicate Sound()
      reads this
    {
      Valid(db)
    }

    constructor ()
      ensures db == Db(map[], map[], 0, map[]) && Sound()
    {
      db := Db(map[], map[], 0, map[]);
    }

    /** `sync_documents` up to its commit, with the precheck of `sync_source` if `caps` are
        given. The keys in `owed` are enqueued afterwards. */
    method SyncDocuments(org: nat, source: string, items: seq<Item>, caps: Option<Caps>, octets: string -> nat)
      returns (r: SyncResult, owed: seq<Key>)
      requires Sound()
      modifies this
      ensures Sound()
      ensures var refusal := if caps.Some? then CheckCaps(old(db), org, items, caps.value, octets) else None;
              && (refusal.Some? ==> r == refusal.value && owed == [] && db == old(db))
              && (refusal.None? ==>
                    && r.Ok? && owed == SyncUpTo(old(db), org, source, items, |items|).owed
                    && db == Drop(SyncUpTo(old(db), org, source, items, |items|).db,
                                  Dropped(old(db), org, source, items))
                    && r.counts.enqueued == SyncUpTo(old(db), org, source, items, |items|).enqueued
                    && r.counts.kept == SyncUpTo(old(db), org, source, items, |items|).kept
                    && r.counts.deleted == |Dropped(old(db), org, source, items)|)
    {
      if caps.Some? {
        var refusal := CheckCaps(db, org, items, caps.value, octets);
        if refusal.Some? {
          return refusal.value, [];
        }
      }
      var before := db;
      var enqueued, kept;
      enqueued, kept, owed := UpsertItems(org, source, items);
      var deleted := DropRows(Dropped(before, org, source, items));
      r := Ok(Counts(enqueued, kept, deleted));
    }

    method UpsertItems(org: nat, source: string, items: seq<Item>) returns (enqueued: nat, kept: nat, owed: seq<Key>)
      requires Sound()
      modifies this
      ensures Sound() && old(db).docs.Keys <= db.docs.Keys
      ensures db == SyncUpTo(old(db), org, source, items, |items|).db
      ensures enqueued == SyncUpTo(old(db), org, source, items, |items|).enqueued
      ensures kept == SyncUpTo(old(db), org, source, items, |items|).kept
      ensures owed == SyncUpTo(old(db), org, source, items, |items|).owed
    {
      var before := db;
      enqueued, kept, owed := 0, 0, [];
      for i := 0 to |items|
        invariant Sound() && before.docs.Keys <= db.docs.Keys
        invariant Synced(db, enqueued, kept, owed) == SyncUpTo(before, org, source, items, i)
      {
        var w := Where(org, source, items[i].path);
        NextItem(before, org, source, items, i);
        if Unchanged(Lookup(before, w), items[i]) {
          kept := kept + 1;
        } else {
          UpsertLookup(db, w, items[i]);
          ChangedItem(before, Synced(db, enqueued, kept, owed), w, items[i]);
          db := Upsert(db, w, items[i]);
          enqueued := enqueued + 1;
          owed := owed + [KeyAt(db, w)];
        }
      }
    }

    method DropRows(ids: set<DocId>) returns (deleted: nat)
      requires Sound() && ids <= db.docs.Keys
      modifies this
      ensures Sound() && db == Drop(old(db), ids) && deleted == |ids|
    {
      var todo := ids;
      ghost var start, done := db, {};
      deleted := 0;
      DropNone(db);
      while todo != {}
        invariant todo <= start.docs.Keys && todo !! done && todo + done == ids
        invariant db == Drop(start, done) && deleted + |todo| == |ids|
        decreases |todo|
      {
        var id :| id in todo;
        DropOneMore(start, done, id);
        db := Drop(db, {id});
        deleted := deleted + 1;
        todo, done := todo - {id}, done + {id};
      }
      assert done == ids;
      DropLookup(start, ids);
    }
  }

  lemma DropNone(db: Db)
    ensures Drop(db, {}) == db
  {
  }
}
