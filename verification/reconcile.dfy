/** What a sync leaves behind (knowledge_desk/ingest.py:34-142, knowledge_desk/tenancy.py:233-268). */
module Reconcile {
  import opened Text
  import opened Sums
  import opened Store

  /** The tables after `sync_documents`. */
  function Reconciled(before: Db, org: nat, source: string, items: seq<Item>): Db {
    Drop(SyncUpTo(before, org, source, items, |items|).db, Dropped(before, org, source, items))
  }

  /** Every ingested row carries the hash of the text it holds. */
  ghost predicate HashesOk(db: Db) {
    forall id :: id in db.docs && db.docs[id].status == Ingested ==> db.docs[id].hash == Digest(db.docs[id].content)
  }

  predicate DistinctPaths(items: seq<Item>) {
    forall i, j :: 0 <= i < j < |items| ==> items[i].path != items[j].path
  }

  // ---- the upload loop, seen place by place ------------------------------------------

  predicate InSource(w: Where, org: nat, source: string) {
    w.org == org && w.source == source
  }

  /** The last of the first `k` items that was written at `w`. */
  function LastWritten(prior: Option<Doc>, path: string, items: seq<Item>, k: nat): Option<Item>
    requires k <= |items|
  {
    if k == 0 then None
    else if items[k - 1].path == path && !Unchanged(prior, items[k - 1]) then Some(items[k - 1])
    else LastWritten(prior, path, items, k - 1)
  }

  /** The row at a place of the source after the first `k` items. */
  function RowAfter(before: Db, w: Where, items: seq<Item>, k: nat): Option<Doc>
    requires k <= |items|
  {
    var last := LastWritten(Lookup(before, w), w.path, items, k);
    if last.Some? then Some(Upserted(Lookup(before, w), w, last.value)) else Lookup(before, w)
  }

  /** Rows are only added, ids and places stay, chunks are left alone. */
  ghost predicate Extends(before: Db, db: Db) {
    && Valid(db) && db.chunks == before.chunks
    && (forall id :: id in before.docs ==> id in db.docs && db.docs[id].at == before.docs[id].at)
  }

  function DbAfter(before: Db, org: nat, source: string, items: seq<Item>, k: nat): Db
    requires k <= |items|
  {
    SyncUpTo(before, org, source, items, k).db
  }

  lemma DbStep(before: Db, org: nat, source: string, items: seq<Item>, k: nat)
    requires 0 < k <= |items|
    ensures var w, prev := Where(org, source, items[k - 1].path), DbAfter(before, org, source, items, k - 1);
            DbAfter(before, org, source, items, k)
            == if Unchanged(Lookup(before, w), items[k - 1]) then prev else Upsert(prev, w, items[k - 1])
  {
  }

  lemma {:induction false} SyncExtends(before: Db, org: nat, source: string, items: seq<Item>, k: nat)
    requires Valid(before) && k <= |items|
    ensures Extends(before, DbAfter(before, org, source, items, k))
  {
    if k > 0 {
      SyncExtends(before, org, source, items, k - 1);
      DbStep(before, org, source, items, k);
      UpsertLookup(DbAfter(before, org, source, items, k - 1), Where(org, source, items[k - 1].path), items[k - 1]);
    }
  }

  lemma {:induction false} RowsAfter(before: Db, org: nat, source: string, items: seq<Item>, k: nat, w: Where)
    requires Valid(before) && k <= |items|
    ensures Lookup(DbAfter(before, org, source, items, k), w)
            == if InSource(w, org, source) then RowAfter(before, w, items, k) else Lookup(before, w)
  {
    if k > 0 {
      RowsAfter(before, org, source, items, k - 1, w);
      SyncExtends(before, org, source, items, k - 1);
      DbStep(before, org, source, items, k);
      UpsertLookup(DbAfter(before, org, source, items, k - 1), Where(org, source, items[k - 1].path), items[k - 1]);
      RowStep(before, w, items, k);
    }
  }

  lemma RowStep(before: Db, w: Where, items: seq<Item>, k: nat)
    requires 0 < k <= |items|
    ensures var prior := Lookup(before, w);
            RowAfter(before, w, items, k)
            == if items[k - 1].path == w.path && !Unchanged(prior, items[k - 1])
               then Some(Upserted(RowAfter(before, w, items, k - 1), w, items[k - 1]))
               else RowAfter(before, w, items, k - 1)
  {
  }

  /** `SyncUpTo`, one item at a time. */
  function SyncedAfter(before: Db, org: nat, source: string, items: seq<Item>, k: nat): Synced
    requires k <= |items|
  {
    SyncUpTo(before, org, source, items, k)
  }

  lemma SyncedStep(before: Db, org: nat, source: string, items: seq<Item>, k: nat)
    requires 0 < k <= |items|
    ensures SyncedAfter(before, org, source, items, k)
            == SyncItem(before, SyncedAfter(before, org, source, items, k - 1), Where(org, source, items[k - 1].path),
                        items[k - 1])
  {
  }

  predicate CountsOf(s: Synced, k: nat) {
    s.enqueued + s.kept == k && |s.owed| == s.enqueued
  }

  lemma ItemCounts(before: Db, s: Synced, w: Where, item: Item, k: nat)
    requires Valid(s.db) && CountsOf(s, k)
    ensures CountsOf(SyncItem(before, s, w, item), k + 1)
  {
    UpsertLookup(s.db, w, item);
  }

  /** Every item is either kept or enqueued, under one key each. */
  lemma {:induction false} CountsAddUp(before: Db, org: nat, source: string, items: seq<Item>, k: nat)
    requires Valid(before) && k <= |items|
    ensures CountsOf(SyncedAfter(before, org, source, items, k), k)
  {
    if k > 0 {
      CountsAddUp(before, org, source, items, k - 1);
      SyncExtends(before, org, source, items, k - 1);
      SyncedStep(before, org, source, items, k);
      ItemCounts(before, SyncedAfter(before, org, source, items, k - 1), Where(org, source, items[k - 1].path),
                 items[k - 1], k - 1);
    }
  }

  lemma {:induction false} NotWritten(prior: Option<Doc>, path: string, items: seq<Item>, k: nat)
    requires k <= |items|
    ensures LastWritten(prior, path, items, k).None?
            <==> forall i :: 0 <= i < k && items[i].path == path ==> Unchanged(prior, items[i])
  {
    if k > 0 {
      NotWritten(prior, path, items, k - 1);
    }
  }

  lemma {:induction false} LastIsAnItem(prior: Option<Doc>, path: string, items: seq<Item>, k: nat) returns (i: nat)
    requires k <= |items| && LastWritten(prior, path, items, k).Some?
    ensures i < k && items[i].path == path && !Unchanged(prior, items[i])
    ensures LastWritten(prior, path, items, k) == Some(items[i])
  {
    if items[k - 1].path == path && !Unchanged(prior, items[k - 1]) {
      i := k - 1;
    } else {
      i := LastIsAnItem(prior, path, items, k - 1);
    }
  }

  // ---- the reconcile -----------------------------------------------------------------

  /** The text that is live at a place. */
  function LiveContent(db: Db, w: Where): Option<string> {
    var d := Lookup(db, w);
    if d.Some? && d.value.status != Deleted then Some(d.value.content) else None
  }

  /** Which rows a sync drops: those live in its source whose path the upload does not have. */
  lemma DroppedIff(before: Db, org: nat, source: string, items: seq<Item>, w: Where)
    requires Valid(before)
    ensures (Lookup(before, w).Some? && before.byPlace[w] in Dropped(before, org, source, items))
            <==> InSource(w, org, source) && LiveContent(before, w).Some? && !HasPath(items, w.path)
  {
  }

  /** The row at any place once the sync is done. */
  lemma RowReconciled(before: Db, org: nat, source: string, items: seq<Item>, w: Where)
    requires Valid(before)
    ensures Valid(Reconciled(before, org, source, items))
    ensures var row := Lookup(Reconciled(before, org, source, items), w);
            if !InSource(w, org, source) then row == Lookup(before, w)
            else if HasPath(items, w.path) then row == RowAfter(before, w, items, |items|)
            else if LiveContent(before, w).Some? then row == Some(Tombstone(Lookup(before, w).value))
            else row == Lookup(before, w)
  {
    var s := SyncUpTo(before, org, source, items, |items|).db;
    SyncExtends(before, org, source, items, |items|);
    RowsAfter(before, org, source, items, |items|, w);
    DropLookup(s, Dropped(before, org, source, items));
    DroppedIff(before, org, source, items, w);
    NotWritten(Lookup(before, w), w.path, items, |items|);
    SamePlace(before, s, w);
  }

  /** A row keeps its id. */
  lemma SamePlace(before: Db, db: Db, w: Where)
    requires Valid(before) && Extends(before, db)
    ensures Lookup(before, w).Some? ==> Lookup(db, w).Some? && db.byPlace[w] == before.byPlace[w]
    ensures Lookup(before, w).None? && Lookup(db, w).Some? ==> db.byPlace[w] !in before.docs
  {
    if Lookup(before, w).Some? {
      var id := before.byPlace[w];
      assert db.docs[id].at == w;
    }
  }

  function ItemContent(items: seq<Item>, path: string, k: nat): Option<string>
    requires k <= |items|
  {
    if k == 0 then None
    else if items[k - 1].path == path then Some(items[k - 1].content)
    else ItemContent(items, path, k - 1)
  }

  lemma {:induction false} ItemContentIs(items: seq<Item>, path: string, k: nat)
    requires k <= |items|
    ensures ItemContent(items, path, k).Some? <==> exists i :: 0 <= i < k && items[i].path == path
    ensures DistinctPaths(items) ==>
              forall i :: 0 <= i < k && items[i].path == path ==> ItemContent(items, path, k) == Some(items[i].content)
  {
    if k > 0 {
      ItemContentIs(items, path, k - 1);
    }
  }

  /** With distinct paths, after the sync the live texts of the source are exactly the uploaded
      ones, path by path. */
  lemma ReconcileLive(before: Db, org: nat, source: string, items: seq<Item>, path: string)
    requires Valid(before) && HashesOk(before) && DistinctPaths(items)
    ensures LiveContent(Reconciled(before, org, source, items), Where(org, source, path))
            == ItemContent(items, path, |items|)
  {
    var w := Where(org, source, path);
    RowReconciled(before, org, source, items, w);
    ItemContentIs(items, path, |items|);
    assert HasPath(items, path) <==> exists i :: 0 <= i < |items| && items[i].path == path;
    var prior := Lookup(before, w);
    if HasPath(items, path) {
      NotWritten(prior, path, items, |items|);
      if LastWritten(prior, path, items, |items|).Some? {
        var i := LastIsAnItem(prior, path, items, |items|);
      } else {
        var i :| 0 <= i < |items| && items[i].path == path;
        assert Unchanged(prior, items[i]);
      }
    }
  }

  /** Without the assumption on hashes, an uploaded text is live afterwards exactly if the row
      was rewritten or already held it. */
  lemma UploadIsLiveIff(before: Db, org: nat, source: string, items: seq<Item>, i: nat)
    requires Valid(before) && DistinctPaths(items) && i < |items|
    ensures var w := Where(org, source, items[i].path);
            LiveContent(Reconciled(before, org, source, items), w) == Some(items[i].content)
            <==> (Unchanged(Lookup(before, w), items[i]) ==> Lookup(before, w).value.content == items[i].content)
  {
    var w := Where(org, source, items[i].path);
    RowReconciled(before, org, source, items, w);
    assert HasPath(items, w.path);
    LastWrittenIs(Lookup(before, w), w.path, items, |items|, i);
    NotWritten(Lookup(before, w), w.path, items, i);
  }

  /** When the upload names a path more than once, the last of its items decides exactly if it
      differs from what was ingested before, or if all of them agree with that. */
  lemma LastUploadWinsIff(before: Db, org: nat, source: string, items: seq<Item>, last: nat)
    requires Valid(before) && HashesOk(before) && last < |items|
    requires forall i :: last < i < |items| ==> items[i].path != items[last].path
    ensures var w := Where(org, source, items[last].path);
            LiveContent(Reconciled(before, org, source, items), w) == Some(items[last].content)
            <==> !Unchanged(Lookup(before, w), items[last])
                 || forall i :: 0 <= i < last && items[i].path == items[last].path ==>
                      Unchanged(Lookup(before, w), items[i])
  {
    var w := Where(org, source, items[last].path);
    var prior := Lookup(before, w);
    RowReconciled(before, org, source, items, w);
    assert HasPath(items, w.path);
    LastWrittenIs(prior, w.path, items, |items|, last);
    NotWritten(prior, w.path, items, last);
    if Unchanged(prior, items[last]) && LastWritten(prior, w.path, items, last).Some? {
      var i := LastIsAnItem(prior, w.path, items, last);
      assert prior.value == before.docs[before.byPlace[w]];
    }
  }

  lemma {:induction false} LastWrittenIs(prior: Option<Doc>, path: string, items: seq<Item>, k: nat, last: nat)
    requires last < k <= |items| && items[last].path == path
    requires forall i :: last < i < k ==> items[i].path != path
    ensures LastWritten(prior, path, items, k)
            == if Unchanged(prior, items[last]) then LastWritten(prior, path, items, last) else Some(items[last])
  {
    if k > last + 1 {
      LastWrittenIs(prior, path, items, k - 1, last);
    }
  }

  predicate SameChunks(before: Db, after: Db, id: DocId) {
    && (forall c :: c in before.chunks && c.doc == id ==> c in after.chunks && after.chunks[c] == before.chunks[c])
    && (forall c :: c in after.chunks && c.doc == id ==> c in before.chunks)
  }

  /** Other sources and other orgs keep every row and every chunk. */
  lemma OthersUntouched(before: Db, org: nat, source: string, items: seq<Item>, w: Where)
    requires Valid(before) && !InSource(w, org, source)
    ensures var after := Reconciled(before, org, source, items);
            && Lookup(after, w) == Lookup(before, w)
            && (Lookup(before, w).Some? ==>
                  after.byPlace[w] == before.byPlace[w] && SameChunks(before, after, before.byPlace[w]))
  {
    RowReconciled(before, org, source, items, w);
    SyncExtends(before, org, source, items, |items|);
    SamePlace(before, SyncUpTo(before, org, source, items, |items|).db, w);
    DroppedIff(before, org, source, items, w);
  }

  // ---- doing it again ----------------------------------------------------------------

  /** Every pending document has been ingested since. */
  function Settled(db: Db): Db {
    db.(docs := map id | id in db.docs ::
          if db.docs[id].status == Pending then db.docs[id].(status := Ingested) else db.docs[id])
  }

  lemma SettledLookup(db: Db, w: Where)
    ensures Lookup(Settled(db), w) ==
            if Lookup(db, w).Some? && Lookup(db, w).value.status == Pending
            then Some(Lookup(db, w).value.(status := Ingested))
            else Lookup(db, w)
  {
  }

  lemma UploadedIsUnchanged(before: Db, org: nat, source: string, items: seq<Item>, i: nat)
    requires Valid(before) && DistinctPaths(items) && i < |items|
    ensures Unchanged(Lookup(Settled(Reconciled(before, org, source, items)), Where(org, source, items[i].path)),
                      items[i])
  {
    var w := Where(org, source, items[i].path);
    RowReconciled(before, org, source, items, w);
    SettledLookup(Reconciled(before, org, source, items), w);
    assert HasPath(items, w.path);
    LastWrittenIs(Lookup(before, w), w.path, items, |items|, i);
    NotWritten(Lookup(before, w), w.path, items, i);
  }

  lemma {:induction false} NothingToUpload(db: Db, org: nat, source: string, items: seq<Item>, k: nat)
    requires k <= |items|
    requires forall i :: 0 <= i < |items| ==> Unchanged(Lookup(db, Where(org, source, items[i].path)), items[i])
    ensures SyncUpTo(db, org, source, items, k) == Synced(db, 0, k, [])
  {
    if k > 0 {
      NothingToUpload(db, org, source, items, k - 1);
    }
  }

  lemma NothingToDrop(before: Db, org: nat, source: string, items: seq<Item>)
    requires Valid(before)
    ensures Dropped(Settled(Reconciled(before, org, source, items)), org, source, items) == {}
  {
    var after := Reconciled(before, org, source, items);
    forall id | id in after.docs && InSource(after.docs[id].at, org, source) && !HasPath(items, after.docs[id].at.path)
      ensures after.docs[id].status == Deleted
    {
      RowReconciled(before, org, source, items, after.docs[id].at);
      assert Lookup(after, after.docs[id].at) == Some(after.docs[id]);
    }
  }

  /** Repeating an upload once everything is ingested changes nothing and enqueues nothing. */
  lemma RepeatIsNothing(before: Db, org: nat, source: string, items: seq<Item>)
    requires Valid(before) && DistinctPaths(items)
    ensures var settled := Settled(Reconciled(before, org, source, items));
            && SyncUpTo(settled, org, source, items, |items|) == Synced(settled, 0, |items|, [])
            && Dropped(settled, org, source, items) == {}
            && Reconciled(settled, org, source, items) == settled
  {
    var settled := Settled(Reconciled(before, org, source, items));
    forall i | 0 <= i < |items| ensures Unchanged(Lookup(settled, Where(org, source, items[i].path)), items[i]) {
      UploadedIsUnchanged(before, org, source, items, i);
    }
    NothingToUpload(settled, org, source, items, |items|);
    NothingToDrop(before, org, source, items);
    DropNone(settled);
  }

  // ---- the caps ----------------------------------------------------------------------

  /** One row changed, or one row more. */
  lemma ChangedWeight(db: Db, db': Db, org: nat, weight: string -> nat, id: DocId, d: Doc)
    requires id in db.docs && id < db.nextId && db' == db.(docs := db.docs[id := d]) && d.at.org == org
    ensures LiveTotal(db', org, weight) <= LiveTotal(db, org, weight) + weight(d.content)
  {
    var f, g := LiveWeight(db, org, weight), LiveWeight(db', org, weight);
    SumChange(f, g, db.nextId, id);
    assert g(id) <= weight(d.content);
  }

  lemma AddedWeight(db: Db, db': Db, org: nat, weight: string -> nat, d: Doc)
    requires db'.docs == db.docs[db.nextId := d] && db'.nextId == db.nextId + 1 && d.at.org == org
    ensures LiveTotal(db', org, weight) <= LiveTotal(db, org, weight) + weight(d.content)
  {
    var f, g := LiveWeight(db, org, weight), LiveWeight(db', org, weight);
    SumChange(f, g, db.nextId, db.nextId);
    assert g(db.nextId) <= weight(d.content);
  }

  lemma UpsertWeight(db: Db, w: Where, item: Item, weight: string -> nat)
    requires Valid(db)
    ensures LiveTotal(Upsert(db, w, item), w.org, weight) <= LiveTotal(db, w.org, weight) + weight(item.content)
  {
    var d := Upserted(Lookup(db, w), w, item);
    if Lookup(db, w).Some? {
      ChangedWeight(db, Upsert(db, w, item), w.org, weight, db.byPlace[w], d);
    } else {
      AddedWeight(db, Upsert(db, w, item), w.org, weight, d);
    }
  }

  /** The live rows of `db` weigh at most what those of `before` and the first `k` items do. */
  predicate Within(before: Db, db: Db, org: nat, items: seq<Item>, k: nat, weight: string -> nat)
    requires k <= |items|
  {
    LiveTotal(db, org, weight) <= LiveTotal(before, org, weight) + IncomingTotal(items, k, weight)
  }

  /** `next` is `prev` with item `k - 1` written, or `prev` itself. */
  lemma WithinStep(before: Db, prev: Db, next: Db, w: Where, items: seq<Item>, k: nat, weight: string -> nat)
    requires Valid(prev) && 0 < k <= |items| && Within(before, prev, w.org, items, k - 1, weight)
    requires next == prev || next == Upsert(prev, w, items[k - 1])
    ensures Within(before, next, w.org, items, k, weight)
  {
    UpsertWeight(prev, w, items[k - 1], weight);
  }

  predicate WithinAt(before: Db, org: nat, source: string, items: seq<Item>, k: nat, weight: string -> nat)
    requires k <= |items|
  {
    Within(before, DbAfter(before, org, source, items, k), org, items, k, weight)
  }

  lemma WithinAtStep(before: Db, org: nat, source: string, items: seq<Item>, k: nat, weight: string -> nat)
    requires Valid(before) && 0 < k <= |items| && WithinAt(before, org, source, items, k - 1, weight)
    ensures WithinAt(before, org, source, items, k, weight)
  {
    SyncExtends(before, org, source, items, k - 1);
    DbStep(before, org, source, items, k);
    WithinStep(before, DbAfter(before, org, source, items, k - 1), DbAfter(before, org, source, items, k),
               Where(org, source, items[k - 1].path), items, k, weight);
  }

  lemma {:induction false} SyncWeight(before: Db, org: nat, source: string, items: seq<Item>, k: nat,
                                      weight: string -> nat)
    requires Valid(before) && k <= |items|
    ensures WithinAt(before, org, source, items, k, weight)
  {
    if k > 0 {
      SyncWeight(before, org, source, items, k - 1, weight);
      WithinAtStep(before, org, source, items, k, weight);
    }
  }

  lemma DropWeight(db: Db, ids: set<DocId>, org: nat, weight: string -> nat)
    ensures LiveTotal(Drop(db, ids), org, weight) <= LiveTotal(db, org, weight)
  {
    SumMonotone(LiveWeight(db, org, weight), LiveWeight(Drop(db, ids), org, weight), db.nextId);
  }

  lemma {:induction false} IncomingCount(items: seq<Item>, k: nat)
    requires k <= |items|
    ensures IncomingTotal(items, k, ONE) == k
  {
    if k > 0 {
      IncomingCount(items, k - 1);
    }
  }

  /** A sync that passes the precheck leaves the org within both caps. */
  lemma CapsHold(before: Db, org: nat, source: string, items: seq<Item>, caps: Caps, octets: string -> nat)
    requires Valid(before) && CheckCaps(before, org, items, caps, octets).None?
    ensures LiveTotal(Reconciled(before, org, source, items), org, octets) <= caps.bytes
    ensures LiveTotal(Reconciled(before, org, source, items), org, ONE) <= caps.docs
  {
    var s := SyncUpTo(before, org, source, items, |items|).db;
    SyncWeight(before, org, source, items, |items|, octets);
    assert WithinAt(before, org, source, items, |items|, octets);
    DropWeight(s, Dropped(before, org, source, items), org, octets);
    SyncWeight(before, org, source, items, |items|, ONE);
    assert WithinAt(before, org, source, items, |items|, ONE);
    DropWeight(s, Dropped(before, org, source, items), org, ONE);
    IncomingCount(items, |items|);
  }
}
