/** Idempotency keys: why an upload after a deletion is never taken for work already done, and
    when an upload is (knowledge_desk/ingest.py:107-140, knowledge_desk/jobs.py:37-50,
    migrations/0014_document_revision.sql). */
module Keys {
  import opened Text
  import opened Store
  import opened Reconcile
  import opened Ingest

  /** `key` belongs to no later revision of its document than the current one, and to an
      earlier one while the document is deleted. */
  predicate KeyOk(db: Db, key: Key) {
    && key.doc < db.nextId
    && (key.doc in db.docs ==>
          key.revision <= db.docs[key.doc].revision
          && (db.docs[key.doc].status == Deleted ==> key.revision < db.docs[key.doc].revision))
  }

  ghost predicate KeysOk(s: State) {
    && (forall key :: key in s.jobs ==> KeyOk(s.db, key))
    && (forall key :: key in s.owed ==> KeyOk(s.db, key))
    && (forall key :: key in s.failing ==> KeyOk(s.db, key))
    && (forall run :: run in s.handlers ==> KeyOk(s.db, s.handlers[run].key))
  }

  // ---- what a sync owes --------------------------------------------------------------

  /** The rows below `before` that the loop did not write are pending only if they were, and
      every pending row it wrote has its key among the owed. */
  ghost predicate OwesPending(before: Db, s: Synced) {
    forall id :: id in s.db.docs && s.db.docs[id].status == Pending ==>
      (id in before.docs && s.db.docs[id] == before.docs[id])
      || Key(id, s.db.docs[id].hash, s.db.docs[id].revision) in s.owed
  }

  /** An owed key names a row of the upload, at its current revision. */
  predicate OwedOk(db: Db, org: nat, source: string, items: seq<Item>, key: Key) {
    && key.doc in db.docs && key.revision == db.docs[key.doc].revision && db.docs[key.doc].status == Pending
    && InSource(db.docs[key.doc].at, org, source) && HasPath(items, db.docs[key.doc].at.path)
  }

  /** A row keeps its revision while items are being written. */
  ghost predicate RevisionsStay(before: Db, db: Db) {
    && before.nextId <= db.nextId
    && forall id :: id in before.docs ==>
         && id in db.docs && db.docs[id].revision == before.docs[id].revision
         && (db.docs[id].status == before.docs[id].status || db.docs[id].status == Pending)
  }

  lemma UpsertRevisions(before: Db, s: Synced, w: Where, item: Item)
    requires Valid(s.db) && RevisionsStay(before, s.db)
    ensures RevisionsStay(before, SyncItem(before, s, w, item).db)
  {
  }

  lemma UpsertOwes(before: Db, s: Synced, w: Where, item: Item)
    requires Valid(s.db) && OwesPending(before, s)
    ensures OwesPending(before, SyncItem(before, s, w, item))
  {
    if !Unchanged(Lookup(before, w), item) {
      UpsertLookup(s.db, w, item);
      var s' := SyncItem(before, s, w, item);
      var at := s'.db.byPlace[w];
      assert s'.owed == s.owed + [KeyAt(s'.db, w)];
      forall id | id in s'.db.docs && s'.db.docs[id].status == Pending
        ensures (id in before.docs && s'.db.docs[id] == before.docs[id])
                || Key(id, s'.db.docs[id].hash, s'.db.docs[id].revision) in s'.owed
      {
        if id != at {
          assert s'.db.docs[id] == s.db.docs[id];
        } else {
          assert KeyAt(s'.db, w) in s'.owed;
        }
      }
    }
  }

  ghost predicate Owes(before: Db, s: Synced) {
    Extends(before, s.db) && OwesPending(before, s) && RevisionsStay(before, s.db)
  }

  lemma OwesStep(before: Db, s: Synced, s': Synced, w: Where, item: Item)
    requires Owes(before, s) && s' == SyncItem(before, s, w, item)
    ensures Owes(before, s')
  {
    UpsertOwes(before, s, w, item);
    UpsertRevisions(before, s, w, item);
    UpsertLookup(s.db, w, item);
  }

  ghost predicate OwesAt(before: Db, org: nat, source: string, items: seq<Item>, k: nat)
    requires k <= |items|
  {
    Owes(before, SyncedAfter(before, org, source, items, k))
  }

  lemma OwesAtStep(before: Db, org: nat, source: string, items: seq<Item>, k: nat)
    requires 0 < k <= |items| && OwesAt(before, org, source, items, k - 1)
    ensures OwesAt(before, org, source, items, k)
  {
    SyncedStep(before, org, source, items, k);
    OwesStep(before, SyncedAfter(before, org, source, items, k - 1), SyncedAfter(before, org, source, items, k),
             Where(org, source, items[k - 1].path), items[k - 1]);
  }

  lemma {:induction false} SyncOwes(before: Db, org: nat, source: string, items: seq<Item>, k: nat)
    requires Valid(before) && k <= |items|
    ensures OwesAt(before, org, source, items, k)
  {
    if k > 0 {
      SyncOwes(before, org, source, items, k - 1);
      OwesAtStep(before, org, source, items, k);
    }
  }

  ghost predicate AllOwedOk(db: Db, org: nat, source: string, items: seq<Item>, owed: seq<Key>) {
    forall key :: key in owed ==> OwedOk(db, org, source, items, key)
  }

  lemma UpsertOwesRight(before: Db, org: nat, source: string, items: seq<Item>, s: Synced, i: nat)
    requires Valid(s.db) && i < |items| && AllOwedOk(s.db, org, source, items, s.owed)
    ensures var s' := SyncItem(before, s, Where(org, source, items[i].path), items[i]);
            AllOwedOk(s'.db, org, source, items, s'.owed)
  {
    var w := Where(org, source, items[i].path);
    if !Unchanged(Lookup(before, w), items[i]) {
      UpsertLookup(s.db, w, items[i]);
      var s' := SyncItem(before, s, w, items[i]);
      assert HasPath(items, w.path);
      assert s'.owed == s.owed + [KeyAt(s'.db, w)];
      forall key | key in s'.owed ensures OwedOk(s'.db, org, source, items, key) {
        if key in s.owed {
          assert OwedOk(s.db, org, source, items, key);
        } else {
          assert key == KeyAt(s'.db, w);
        }
      }
    }
  }

  ghost predicate OwesRight(db: Db, org: nat, source: string, items: seq<Item>, s: Synced) {
    Valid(s.db) && AllOwedOk(s.db, org, source, items, s.owed)
  }

  lemma OwesRightStep(before: Db, org: nat, source: string, items: seq<Item>, s: Synced, s': Synced, i: nat)
    requires i < |items| && OwesRight(before, org, source, items, s)
    requires s' == SyncItem(before, s, Where(org, source, items[i].path), items[i])
    ensures OwesRight(before, org, source, items, s')
  {
    UpsertOwesRight(before, org, source, items, s, i);
    UpsertLookup(s.db, Where(org, source, items[i].path), items[i]);
  }

  ghost predicate OwesRightAt(before: Db, org: nat, source: string, items: seq<Item>, k: nat)
    requires k <= |items|
  {
    OwesRight(before, org, source, items, SyncedAfter(before, org, source, items, k))
  }

  lemma OwesRightAtStep(before: Db, org: nat, source: string, items: seq<Item>, k: nat)
    requires 0 < k <= |items| && OwesRightAt(before, org, source, items, k - 1)
    ensures OwesRightAt(before, org, source, items, k)
  {
    SyncedStep(before, org, source, items, k);
    OwesRightStep(before, org, source, items, SyncedAfter(before, org, source, items, k - 1),
                  SyncedAfter(before, org, source, items, k), k - 1);
  }

  lemma {:induction false} SyncOwesRight(before: Db, org: nat, source: string, items: seq<Item>, k: nat)
    requires Valid(before) && k <= |items|
    ensures OwesRightAt(before, org, source, items, k)
  {
    if k > 0 {
      SyncOwesRight(before, org, source, items, k - 1);
      OwesRightAtStep(before, org, source, items, k);
    }
  }

  // ---- freshness ---------------------------------------------------------------------

  /** What a step may do to rows: revisions only grow, a row becomes deleted only together with
      a new revision, ids are not reused. */
  ghost predicate RowsMoveOn(db: Db, db': Db) {
    && db.nextId <= db'.nextId
    && (forall id :: id in db'.docs && id !in db.docs ==> id >= db.nextId)
    && forall id :: id in db.docs && id in db'.docs ==>
         && db.docs[id].revision <= db'.docs[id].revision
         && (db'.docs[id].status == Deleted ==>
               db.docs[id].revision < db'.docs[id].revision || db.docs[id].status == Deleted)
  }

  lemma KeyStaysOk(db: Db, db': Db, key: Key)
    requires KeyOk(db, key) && RowsMoveOn(db, db')
    ensures KeyOk(db', key)
  {
  }

  lemma SyncMovesOn(db: Db, org: nat, source: string, items: seq<Item>)
    requires Valid(db)
    ensures RowsMoveOn(db, Reconciled(db, org, source, items))
  {
    var s := Reconcile.DbAfter(db, org, source, items, |items|);
    SyncExtends(db, org, source, items, |items|);
    SyncOwes(db, org, source, items, |items|);
    SyncAddsNew(db, org, source, items, |items|);
  }

  ghost predicate OnlyNew(db: Db, db': Db) {
    db.nextId <= db'.nextId && forall id :: id in db'.docs && id !in db.docs ==> id >= db.nextId
  }

  lemma UpsertAddsNew(db: Db, prev: Db, w: Where, item: Item)
    requires OnlyNew(db, prev)
    ensures OnlyNew(db, Upsert(prev, w, item))
  {
  }

  lemma {:induction false} SyncAddsNew(db: Db, org: nat, source: string, items: seq<Item>, k: nat)
    requires k <= |items|
    ensures OnlyNew(db, Reconcile.DbAfter(db, org, source, items, k))
  {
    if k > 0 {
      SyncAddsNew(db, org, source, items, k - 1);
      DbStep(db, org, source, items, k);
      UpsertAddsNew(db, Reconcile.DbAfter(db, org, source, items, k - 1), Where(org, source, items[k - 1].path),
                    items[k - 1]);
    }
  }

  lemma TablesMoveOn(pieces: Chunker, s: State, a: Step)
    requires Valid(s.db) && Enabled(pieces, s, a)
    ensures RowsMoveOn(s.db, TablesAfter(pieces, s, a))
  {
    match a
    case Sync(org, source, items) => SyncMovesOn(s.db, org, source, items);
    case _ =>
  }

  lemma NewlyOwedOk(db: Db, org: nat, source: string, items: seq<Item>, key: Key)
    requires Valid(db) && key in OwedBy(db, org, source, items)
    ensures KeyOk(Reconciled(db, org, source, items), key)
    ensures var after := Reconciled(db, org, source, items);
            key.doc in after.docs && after.docs[key.doc].status == Pending
  {
    var s := Reconcile.DbAfter(db, org, source, items, |items|);
    SyncExtends(db, org, source, items, |items|);
    SyncOwesRight(db, org, source, items, |items|);
    assert OwesRightAt(db, org, source, items, |items|);
    assert OwedOk(s, org, source, items, key);
    assert key.doc in db.docs ==> db.docs[key.doc].at == s.docs[key.doc].at;
    assert key.doc !in Dropped(db, org, source, items);
    DropLookup(s, Dropped(db, org, source, items));
  }

  lemma StepKeepsKeys(pieces: Chunker, s: State, a: Step)
    requires Valid(s.db) && KeysOk(s) && Enabled(pieces, s, a)
    ensures KeysOk(After(pieces, s, a))
  {
    var s' := After(pieces, s, a);
    TablesMoveOn(pieces, s, a);
    forall key | key in s'.jobs ensures KeyOk(s'.db, key) {
      KeyStaysOk(s.db, s'.db, key);
    }
    forall key | key in s'.failing ensures KeyOk(s'.db, key) {
      KeyStaysOk(s.db, s'.db, key);
    }
    forall run | run in s'.handlers ensures KeyOk(s'.db, s'.handlers[run].key) {
      KeyStaysOk(s.db, s'.db, s'.handlers[run].key);
    }
    forall key | key in s'.owed ensures KeyOk(s'.db, key) {
      if key in s.owed {
        KeyStaysOk(s.db, s'.db, key);
      } else {
        NewlyOwedOk(s.db, a.org, a.source, a.items, key);
      }
    }
  }

  lemma StepStaysValid(pieces: Chunker, s: State, a: Step)
    requires Valid(s.db) && Enabled(pieces, s, a)
    ensures Valid(TablesAfter(pieces, s, a))
  {
    match a
    case Sync(org, source, items) => SyncedChunks(s.db, org, source, items);
    case Write(run) =>
      if s.handlers[run].key.doc in s.db.docs {
        WrittenValid(s.db, s.handlers[run].key.doc, s.handlers[run].phase.rows);
      }
    case _ =>
  }

  /** In every run, disturbed or not, no key ever enqueued is ahead of its document. */
  lemma {:induction false} RunKeepsKeys(pieces: Chunker, run: seq<State>, steps: seq<Step>, i: nat)
    requires IsRun(pieces, run, steps) && i < |run|
    ensures Valid(run[i].db) && KeysOk(run[i])
  {
    if i > 0 {
      RunKeepsKeys(pieces, run, steps, i - 1);
      assert Takes(pieces, run[i - 1], steps[i - 1], run[i - 1 + 1]);
      StepKeepsKeys(pieces, run[i - 1], steps[i - 1]);
      StepStaysValid(pieces, run[i - 1], steps[i - 1]);
    }
  }

  /** The key an upload of `item` to an existing row comes under. */
  function UploadKey(db: Db, w: Where, item: Item): Key
    requires Lookup(db, w).Some?
  {
    Key(db.byPlace[w], Digest(item.content), Lookup(db, w).value.revision)
  }

  /** The first upload after a deletion always makes a new job: its key was never enqueued,
      whatever the bytes. */
  lemma UploadAfterDropIsNew(pieces: Chunker, run: seq<State>, steps: seq<Step>, i: nat, w: Where, item: Item)
    requires IsRun(pieces, run, steps) && i < |run|
    requires Lookup(run[i].db, w).Some? && Lookup(run[i].db, w).value.status == Deleted && item.path == w.path
    ensures var key := UploadKey(run[i].db, w, item);
            && key !in run[i].jobs && key !in run[i].owed
            && OwedBy(run[i].db, w.org, w.source, [item]) == {key}
  {
    var db := run[i].db;
    RunKeepsKeys(pieces, run, steps, i);
    var key := UploadKey(db, w, item);
    assert !KeyOk(db, key);
    OneUpload(db, w, item);
  }

  /** What a single item that is not unchanged is owed. */
  lemma OneUpload(db: Db, w: Where, item: Item)
    requires Valid(db) && Lookup(db, w).Some? && item.path == w.path && !Unchanged(Lookup(db, w), item)
    ensures OwedBy(db, w.org, w.source, [item]) == {UploadKey(db, w, item)}
    ensures Lookup(Reconciled(db, w.org, w.source, [item]), w) == Some(Upserted(Lookup(db, w), w, item))
    ensures Reconciled(db, w.org, w.source, [item]).byPlace[w] == db.byPlace[w]
  {
    var items := [item];
    UpsertLookup(db, w, item);
    assert Where(w.org, w.source, items[0].path) == w;
    assert SyncUpTo(db, w.org, w.source, items, 0) == Synced(db, 0, 0, []);
    assert SyncUpTo(db, w.org, w.source, items, 1).owed == [UploadKey(db, w, item)];
    RowReconciled(db, w.org, w.source, items, w);
    assert HasPath(items, w.path);
    assert RowAfter(db, w, items, 1) == Some(Upserted(Lookup(db, w), w, item));
    SyncExtends(db, w.org, w.source, items, 1);
    SamePlace(db, Reconcile.DbAfter(db, w.org, w.source, items, 1), w);
  }

  // ---- every pending document has a job ----------------------------------------------

  /** The job of `key` has done all it will do: it is finished, or a handler run is through
      with it and about to mark it. */
  ghost predicate Spent(s: State, key: Key) {
    || (key in s.jobs && s.jobs[key])
    || exists run :: run in s.handlers && s.handlers[run].key == key && s.handlers[run].phase == Done
  }

  function CurrentKey(db: Db, id: DocId): Key
    requires id in db.docs
  {
    Key(id, db.docs[id].hash, db.docs[id].revision)
  }

  predicate FailurePending(s: State, id: DocId) {
    exists key :: key in s.failing && key.doc == id
  }

  ghost predicate HasWork(s: State, id: DocId)
    requires id in s.db.docs
  {
    var key := CurrentKey(s.db, id);
    FailurePending(s, id) || (!Spent(s, key) && (key in s.owed || key in s.jobs))
  }

  ghost predicate PendingHasWork(s: State) {
    forall id :: id in s.db.docs && s.db.docs[id].status == Pending ==> HasWork(s, id)
  }

  /** No upload within one revision returns to bytes whose job is over. */
  ghost predicate NoReturn(s: State, a: Step) {
    a.Sync? ==> forall key :: key in OwedBy(s.db, a.org, a.source, a.items) ==> !Spent(s, key)
  }

  lemma SpentAfter(pieces: Chunker, s: State, a: Step, key: Key)
    requires Enabled(pieces, s, a) && Spent(After(pieces, s, a), key)
    ensures || Spent(s, key)
            || (a.Begin? && a.key == key && Read(s.db, key.doc) == Done)
            || (a.Write? && s.handlers[a.run].key == key)
            || (a.Fail? && a.dead && s.handlers[a.run].key == key)
  {
  }

  lemma RowPending(pieces: Chunker, s: State, a: Step, id: DocId)
    requires Valid(s.db) && Enabled(pieces, s, a)
    requires id in TablesAfter(pieces, s, a).docs && TablesAfter(pieces, s, a).docs[id].status == Pending
    ensures || (id in s.db.docs && s.db.docs[id].status == Pending
                && CurrentKey(TablesAfter(pieces, s, a), id) == CurrentKey(s.db, id))
            || (a.Sync? && CurrentKey(TablesAfter(pieces, s, a), id) in OwedBy(s.db, a.org, a.source, a.items))
  {
    if a.Sync? {
      SyncOwes(s.db, a.org, a.source, a.items, |a.items|);
      var synced := SyncedAfter(s.db, a.org, a.source, a.items, |a.items|);
      assert TablesAfter(pieces, s, a).docs[id] == synced.db.docs[id];
    }
  }

  /** A failure still to be recorded stays so until it is. */
  lemma FailureStays(pieces: Chunker, s: State, a: Step, id: DocId)
    requires Enabled(pieces, s, a) && FailurePending(s, id)
    requires id in TablesAfter(pieces, s, a).docs && TablesAfter(pieces, s, a).docs[id].status == Pending
    ensures FailurePending(After(pieces, s, a), id)
  {
    var key :| key in s.failing && key.doc == id;
    assert key in After(pieces, s, a).failing;
  }

  /** Work in hand stays in hand, or ends in a failure still to be recorded. */
  lemma WorkStays(pieces: Chunker, s: State, a: Step, id: DocId)
    requires Enabled(pieces, s, a) && id in s.db.docs && s.db.docs[id].status == Pending
    requires id in TablesAfter(pieces, s, a).docs && TablesAfter(pieces, s, a).docs[id].status == Pending
    requires CurrentKey(TablesAfter(pieces, s, a), id) == CurrentKey(s.db, id)
    requires HasWork(s, id) && !FailurePending(s, id)
    ensures HasWork(After(pieces, s, a), id)
  {
    var s', key := After(pieces, s, a), CurrentKey(s.db, id);
    assert key in s'.owed || key in s'.jobs;
    if Spent(s', key) {
      SpentAfter(pieces, s, a, key);
      assert a.Fail? && key in s'.failing && key.doc == id;
    }
  }

  lemma StepKeepsWork(pieces: Chunker, s: State, a: Step)
    requires Valid(s.db) && PendingHasWork(s) && Enabled(pieces, s, a) && NoReturn(s, a)
    ensures PendingHasWork(After(pieces, s, a))
  {
    var s' := After(pieces, s, a);
    forall id | id in s'.db.docs && s'.db.docs[id].status == Pending ensures HasWork(s', id) {
      RowPending(pieces, s, a, id);
      if id in s.db.docs && s.db.docs[id].status == Pending && CurrentKey(s'.db, id) == CurrentKey(s.db, id) {
        if FailurePending(s, id) {
          FailureStays(pieces, s, a, id);
        } else {
          WorkStays(pieces, s, a, id);
        }
      } else {
        assert !Spent(s, CurrentKey(s'.db, id));
      }
    }
  }

  lemma {:induction false} RunKeepsWork(pieces: Chunker, run: seq<State>, steps: seq<Step>, i: nat)
    requires IsRun(pieces, run, steps) && i < |run|
    requires forall k :: 0 <= k < |steps| ==> NoReturn(run[k], steps[k])
    ensures PendingHasWork(run[i])
  {
    if i > 0 {
      RunKeepsWork(pieces, run, steps, i - 1);
      RunKeepsKeys(pieces, run, steps, i - 1);
      assert Takes(pieces, run[i - 1], steps[i - 1], run[i - 1 + 1]);
      StepKeepsWork(pieces, run[i - 1], steps[i - 1]);
    }
  }

  /** In runs without such returns, once the enqueue loops are through and dead jobs have had
      their documents marked, every pending document has an unfinished job for exactly its
      current text and revision. */
  lemma PendingHasJob(pieces: Chunker, run: seq<State>, steps: seq<Step>, i: nat, id: DocId)
    requires IsRun(pieces, run, steps) && i < |run|
    requires forall k :: 0 <= k < |steps| ==> NoReturn(run[k], steps[k])
    requires run[i].owed == {} && run[i].failing == {}
    requires id in run[i].db.docs && run[i].db.docs[id].status == Pending
    ensures var key := CurrentKey(run[i].db, id); key in run[i].jobs && !run[i].jobs[key]
  {
    RunKeepsWork(pieces, run, steps, i);
  }

  /** An upload to an existing row ends, its key enqueued, with an unfinished job exactly if
      the job of that key is not finished already. The code does not look, and answers that it
      has enqueued the item either way. */
  lemma UploadHasJobIff(pieces: Chunker, s: State, w: Where, item: Item)
    requires Valid(s.db) && Lookup(s.db, w).Some? && item.path == w.path && !Unchanged(Lookup(s.db, w), item)
    ensures var key, sync := UploadKey(s.db, w, item), Sync(w.org, w.source, [item]);
            var s1 := After(pieces, s, sync);
            && key in s1.owed && key.doc in s1.db.docs
            && s1.db.docs[key.doc].status == Pending && CurrentKey(s1.db, key.doc) == key
            && var s2 := After(pieces, s1, Enqueue(key));
               key in s2.jobs && (!s2.jobs[key] <==> !(key in s.jobs && s.jobs[key]))
  {
    OneUpload(s.db, w, item);
  }

  /** Nothing of this document is queued, running, or about to be. */
  ghost predicate NothingOpen(s: State, id: DocId) {
    && (forall key :: key in s.jobs && key.doc == id ==> s.jobs[key])
    && (forall key :: key in s.owed + s.failing ==> key.doc != id)
    && (forall run :: run in s.handlers ==> s.handlers[run].key.doc != id)
  }

  /** Two families of uploads are lost that way: a text that goes from A to B and, once B is
      ingested, back to A; and a failed document uploaded again as it was. The document is left
      pending, and nothing that could ingest it is open or can be begun. */
  lemma ReturnIsStuck(pieces: Chunker, s: State, w: Where, item: Item, run: Run, key': Key)
    requires Valid(s.db) && Lookup(s.db, w).Some? && item.path == w.path && !Unchanged(Lookup(s.db, w), item)
    requires UploadKey(s.db, w, item) in s.jobs && NothingOpen(s, s.db.byPlace[w])
    ensures var id, s1 := s.db.byPlace[w], After(pieces, s, Sync(w.org, w.source, [item]));
            && UploadKey(s.db, w, item) in s1.owed
            && var s2 := After(pieces, s1, Enqueue(UploadKey(s.db, w, item)));
               && id in s2.db.docs && s2.db.docs[id].status == Pending && NothingOpen(s2, id)
               && (key'.doc == id ==> !Enabled(pieces, s2, Begin(run, key')))
  {
    OneUpload(s.db, w, item);
  }
}
