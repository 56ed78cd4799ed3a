/** The storage caps over whole runs of ingestion (knowledge_desk/tenancy.py:233-268,
    knowledge_desk/ingest.py:175-188, 219-225). */
module Quota {
  import opened Text
  import opened Sums
  import opened Store
  import opened Reconcile
  import opened Ingest
  import opened Keys

  /** Every sync of the org passes the check of the caps. */
  predicate Admitted(s: State, a: Step, org: nat, caps: Caps, octets: string -> nat) {
    a.Sync? && a.org == org ==> CheckCaps(s.db, org, a.items, caps, octets).None?
  }

  /** The document whose status a step sets without looking at it. */
  function MarkedDoc(pieces: Chunker, s: State, a: Step): Option<DocId>
    requires Enabled(pieces, s, a)
  {
    match a
    case Write(run) => Some(s.handlers[run].key.doc)
    case MarkDocumentFailed(key) => Some(key.doc)
    case _ => None
  }

  /** The step makes a deleted document of the org live again. */
  predicate Revives(pieces: Chunker, s: State, a: Step, org: nat)
    requires Enabled(pieces, s, a)
  {
    var id := MarkedDoc(pieces, s, a);
    && id.Some? && id.value in s.db.docs
    && s.db.docs[id.value].status == Deleted && s.db.docs[id.value].at.org == org
  }

  /** A deleted row keeps no text. */
  ghost predicate TombstonesEmpty(db: Db) {
    forall id :: id in db.docs && db.docs[id].status == Deleted ==> db.docs[id].content == ""
  }

  // ---- what each step weighs ---------------------------------------------------------

  /** One row changed. */
  lemma RowWeight(db: Db, db': Db, org: nat, weight: string -> nat, id: DocId, d: Doc)
    requires id in db.docs && id < db.nextId && db'.docs == db.docs[id := d] && db'.nextId == db.nextId
    ensures LiveTotal(db', org, weight) + DocWeight(db.docs[id], org, weight)
            == LiveTotal(db, org, weight) + DocWeight(d, org, weight)
  {
    SumChange(LiveWeight(db, org, weight), LiveWeight(db', org, weight), db.nextId, id);
  }

  /** Setting a status, other than to deleted, adds the row exactly if it was deleted. */
  lemma StatusWeight(db: Db, db': Db, org: nat, weight: string -> nat, id: DocId, status: DocStatus)
    requires Valid(db) && id in db.docs && status != Deleted
    requires db'.docs == db.docs[id := db.docs[id].(status := status)] && db'.nextId == db.nextId
    ensures LiveTotal(db', org, weight)
            == LiveTotal(db, org, weight)
               + (if db.docs[id].status == Deleted && db.docs[id].at.org == org then weight(db.docs[id].content) else 0)
  {
    RowWeight(db, db', org, weight, id, db.docs[id].(status := status));
  }

  lemma RemovedWeight(db: Db, org: nat, weight: string -> nat, id: DocId)
    requires id in db.docs
    ensures LiveTotal(Removed(db, id), org, weight) <= LiveTotal(db, org, weight)
  {
    SumMonotone(LiveWeight(db, org, weight), LiveWeight(Removed(db, id), org, weight), db.nextId);
  }

  lemma AclWeight(db: Db, org: nat, weight: string -> nat, id: DocId, acl: Acl)
    requires Valid(db) && id in db.docs
    ensures LiveTotal(AclUpdated(db, id, acl), org, weight) == LiveTotal(db, org, weight)
  {
    RowWeight(db, AclUpdated(db, id, acl), org, weight, id, db.docs[id].(acl := acl));
  }

  lemma UpsertElsewhere(db: Db, w: Where, item: Item, org: nat, weight: string -> nat)
    requires Valid(db) && w.org != org
    ensures LiveTotal(Upsert(db, w, item), org, weight) == LiveTotal(db, org, weight)
  {
    var f, g := LiveWeight(db, org, weight), LiveWeight(Upsert(db, w, item), org, weight);
    if Lookup(db, w).Some? {
      SumChange(f, g, db.nextId, db.byPlace[w]);
    } else {
      SumChange(f, g, db.nextId, db.nextId);
      assert g(db.nextId) == 0;
    }
  }

  /** An uploaded item leaves a measure of the tables alone. */
  predicate KeptBy(total: Db -> nat, db: Db, w: Where, item: Item) {
    total(Upsert(db, w, item)) == total(db)
  }

  ghost predicate KeptByAll(total: Db -> nat, org': nat) {
    forall db: Db, w: Where, item: Item :: Valid(db) && w.org == org' ==> KeptBy(total, db, w, item)
  }

  /** The tables while an upload is written, item by item. */
  function Stages(before: Db, org: nat, source: string, items: seq<Item>): nat -> Db {
    (k: nat) => if k <= |items| then Reconcile.DbAfter(before, org, source, items, k) else before
  }

  /** One table is another with one item of the org written, or the same. */
  ghost predicate WritesOne(prev: Db, next: Db, org: nat) {
    next == prev || exists w: Where, item: Item :: w.org == org && next == Upsert(prev, w, item)
  }

  ghost predicate StageStep(at: nat -> Db, org: nat, k: nat) {
    Valid(at(k)) && WritesOne(at(k), at(k + 1), org)
  }

  lemma UploadStaysValid(before: Db, org: nat, source: string, items: seq<Item>, k: nat)
    requires Valid(before) && k <= |items|
    ensures Valid(Reconcile.DbAfter(before, org, source, items, k))
  {
    SyncExtends(before, org, source, items, k);
  }

  lemma OneWritten(prev: Db, next: Db, w: Where, item: Item)
    requires next == prev || next == Upsert(prev, w, item)
    ensures WritesOne(prev, next, w.org)
  {
  }

  lemma UploadWritesOne(before: Db, org: nat, source: string, items: seq<Item>, k: nat)
    requires 0 < k <= |items|
    ensures WritesOne(Reconcile.DbAfter(before, org, source, items, k - 1),
                      Reconcile.DbAfter(before, org, source, items, k), org)
  {
    DbStep(before, org, source, items, k);
    OneWritten(Reconcile.DbAfter(before, org, source, items, k - 1), Reconcile.DbAfter(before, org, source, items, k),
               Where(org, source, items[k - 1].path), items[k - 1]);
  }

  lemma StageAt(before: Db, org: nat, source: string, items: seq<Item>, k: nat)
    requires k <= |items|
    ensures Stages(before, org, source, items)(k) == Reconcile.DbAfter(before, org, source, items, k)
  {
  }

  lemma StepsFrom(at: nat -> Db, org: nat, k: nat, prev: Db, next: Db)
    requires at(k) == prev && at(k + 1) == next && Valid(prev) && WritesOne(prev, next, org)
    ensures StageStep(at, org, k)
  {
  }

  lemma StagesStep(before: Db, org: nat, source: string, items: seq<Item>, k: nat)
    requires Valid(before) && k < |items|
    ensures StageStep(Stages(before, org, source, items), org, k)
  {
    UploadStaysValid(before, org, source, items, k);
    UploadWritesOne(before, org, source, items, k + 1);
    StageAt(before, org, source, items, k);
    StageAt(before, org, source, items, k + 1);
    StepsFrom(Stages(before, org, source, items), org, k, Reconcile.DbAfter(before, org, source, items, k),
              Reconcile.DbAfter(before, org, source, items, k + 1));
  }

  lemma {:induction false} StagesKeep(total: Db -> nat, at: nat -> Db, org: nat, n: nat)
    requires KeptByAll(total, org) && forall k: nat :: k < n ==> StageStep(at, org, k)
    ensures total(at(n)) == total(at(0))
  {
    if n > 0 {
      StagesKeep(total, at, org, n - 1);
      assert StageStep(at, org, n - 1);
      if at(n) != at(n - 1) {
        var w: Where, item: Item :| w.org == org && at(n) == Upsert(at(n - 1), w, item);
        assert KeptBy(total, at(n - 1), w, item);
      }
    }
  }

  function TotalOf(org: nat, weight: string -> nat): Db -> nat {
    (db: Db) => LiveTotal(db, org, weight)
  }

  lemma UploadElsewhere(before: Db, org': nat, source: string, items: seq<Item>, org: nat, weight: string -> nat)
    requires Valid(before) && org' != org
    ensures TotalOf(org, weight)(Reconcile.DbAfter(before, org', source, items, |items|))
            == TotalOf(org, weight)(before)
  {
    forall db: Db, w: Where, item: Item | Valid(db) && w.org == org'
      ensures KeptBy(TotalOf(org, weight), db, w, item)
    {
      UpsertElsewhere(db, w, item, org, weight);
    }
    forall k: nat | k < |items| ensures StageStep(Stages(before, org', source, items), org', k) {
      StagesStep(before, org', source, items, k);
    }
    StagesKeep(TotalOf(org, weight), Stages(before, org', source, items), org', |items|);
  }

  /** Another org's sync makes this one no heavier. */
  lemma SyncElsewhere(before: Db, org': nat, source: string, items: seq<Item>, org: nat, weight: string -> nat)
    requires Valid(before) && org' != org
    ensures LiveTotal(Reconciled(before, org', source, items), org, weight) <= LiveTotal(before, org, weight)
  {
    UploadElsewhere(before, org', source, items, org, weight);
    DropWeight(Reconcile.DbAfter(before, org', source, items, |items|), Dropped(before, org', source, items), org,
               weight);
  }

  // ---- steps -------------------------------------------------------------------------

  /** A mark that does not look adds exactly the text of a deleted document it hits. */
  lemma MarkWeight(pieces: Chunker, s: State, a: Step, org: nat, weight: string -> nat)
    requires Valid(s.db) && Enabled(pieces, s, a) && (a.MarkDocumentFailed? || a.Write?)
    ensures LiveTotal(TablesAfter(pieces, s, a), org, weight)
            == LiveTotal(s.db, org, weight)
               + (if Revives(pieces, s, a, org) then weight(s.db.docs[MarkedDoc(pieces, s, a).value].content) else 0)
  {
    var id := MarkedDoc(pieces, s, a).value;
    if id in s.db.docs {
      StatusWeight(s.db, TablesAfter(pieces, s, a), org, weight, id, if a.Write? then Ingested else Failed);
    }
  }

  /** A step that is neither this org's upload nor a revival makes the org no heavier. */
  lemma OtherStepWeight(pieces: Chunker, s: State, a: Step, org: nat, weight: string -> nat)
    requires Valid(s.db) && Enabled(pieces, s, a) && !(a.Sync? && a.org == org) && !Revives(pieces, s, a, org)
    ensures LiveTotal(TablesAfter(pieces, s, a), org, weight) <= LiveTotal(s.db, org, weight)
  {
    match a
    case Sync(org', source, items) => SyncElsewhere(s.db, org', source, items, org, weight);
    case Write(_) => MarkWeight(pieces, s, a, org, weight);
    case MarkDocumentFailed(_) => MarkWeight(pieces, s, a, org, weight);
    case UpdateAcl(id, acl) => AclWeight(s.db, org, weight, id, acl);
    case DeleteDocument(id) => RemovedWeight(s.db, org, weight, id);
    case _ =>
  }

  /** Live documents and bytes are within the caps. */
  predicate WithinCaps(db: Db, org: nat, caps: Caps, octets: string -> nat) {
    LiveTotal(db, org, octets) <= caps.bytes && LiveTotal(db, org, ONE) <= caps.docs
  }

  lemma StepKeepsCaps(pieces: Chunker, s: State, a: Step, org: nat, caps: Caps, octets: string -> nat)
    requires Valid(s.db) && Enabled(pieces, s, a) && WithinCaps(s.db, org, caps, octets)
    requires Admitted(s, a, org, caps, octets) && !Revives(pieces, s, a, org)
    ensures WithinCaps(TablesAfter(pieces, s, a), org, caps, octets)
  {
    if a.Sync? && a.org == org {
      CapsHold(s.db, org, a.source, a.items, caps, octets);
    } else {
      OtherStepWeight(pieces, s, a, org, octets);
      OtherStepWeight(pieces, s, a, org, ONE);
    }
  }

  /** In every state of a run in which each of the org's syncs passes the check and no step
      revives one of its deleted documents, the org is within both caps. */
  lemma {:induction false} CapsHoldInRuns(pieces: Chunker, run: seq<State>, steps: seq<Step>, i: nat,
                                          org: nat, caps: Caps, octets: string -> nat)
    requires IsRun(pieces, run, steps) && i < |run|
    requires forall k :: 0 <= k < i ==> Admitted(run[k], steps[k], org, caps, octets)
    requires forall k :: 0 <= k < i && Enabled(pieces, run[k], steps[k]) ==> !Revives(pieces, run[k], steps[k], org)
    ensures WithinCaps(run[i].db, org, caps, octets)
  {
    if i > 0 {
      CapsHoldInRuns(pieces, run, steps, i - 1, org, caps, octets);
      RunKeepsKeys(pieces, run, steps, i - 1);
      assert Takes(pieces, run[i - 1], steps[i - 1], run[i - 1 + 1]);
      StepKeepsCaps(pieces, run[i - 1], steps[i - 1], org, caps, octets);
    }
  }

  // ---- what a revival costs ----------------------------------------------------------

  lemma {:induction false} UploadKeepsEmpty(before: Db, org: nat, source: string, items: seq<Item>, k: nat)
    requires k <= |items| && TombstonesEmpty(before)
    ensures TombstonesEmpty(Reconcile.DbAfter(before, org, source, items, k))
  {
    if k > 0 {
      UploadKeepsEmpty(before, org, source, items, k - 1);
      DbStep(before, org, source, items, k);
    }
  }

  lemma {:induction false} TombstonesStayEmpty(pieces: Chunker, run: seq<State>, steps: seq<Step>, i: nat)
    requires IsRun(pieces, run, steps) && i < |run|
    ensures TombstonesEmpty(run[i].db)
  {
    if i > 0 {
      TombstonesStayEmpty(pieces, run, steps, i - 1);
      assert Takes(pieces, run[i - 1], steps[i - 1], run[i - 1 + 1]);
      if steps[i - 1].Sync? {
        var a := steps[i - 1];
        UploadKeepsEmpty(run[i - 1].db, a.org, a.source, a.items, |a.items|);
      }
    }
  }

  /** Marking a document failed, or ingested by a handler that was overtaken, takes an org
      within its caps over them exactly if the document was deleted and the org is at its
      document cap. The mark checks neither. */
  lemma MarkKeepsCapsIff(pieces: Chunker, run: seq<State>, steps: seq<Step>, i: nat, org: nat, caps: Caps,
                         octets: string -> nat)
    requires IsRun(pieces, run, steps) && i < |steps| && (steps[i].MarkDocumentFailed? || steps[i].Write?)
    requires WithinCaps(run[i].db, org, caps, octets) && octets("") == 0
    ensures Enabled(pieces, run[i], steps[i])
    ensures WithinCaps(run[i + 1].db, org, caps, octets)
            <==> !Revives(pieces, run[i], steps[i], org) || LiveTotal(run[i].db, org, ONE) < caps.docs
  {
    RunKeepsKeys(pieces, run, steps, i);
    TombstonesStayEmpty(pieces, run, steps, i);
    assert Takes(pieces, run[i], steps[i], run[i + 1]);
    MarkWeight(pieces, run[i], steps[i], org, octets);
    MarkWeight(pieces, run[i], steps[i], org, ONE);
  }
}
