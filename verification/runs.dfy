/** Runs from the empty system that reach what the code does not guard against: an ACL changed
    between a handler's transactions, an upload whose job is over, a deleted document that comes
    back empty (knowledge_desk/ingest.py:75-83, 107-188, 211-225). */
module Runs {
  import opened Text
  import opened Store
  import opened Reconcile
  import opened Ingest
  import opened Keys

  /** Tables with one document and no chunks. */
  function OneDoc(d: Doc): Db {
    Db(map[0 := d], map[d.at := 0], 1, map[])
  }

  function Upload(w: Where, content: string): Step {
    Sync(w.org, w.source, [Item(w.path, content, None)])
  }

  // ---- syncs of that one document ----------------------------------------------------

  lemma OneItem(db: Db, w: Where, content: string)
    ensures var items := [Item(w.path, content, None)];
            && SyncUpTo(db, w.org, w.source, items, 1) == SyncItem(db, Synced(db, 0, 0, []), w, items[0])
            && HasPath(items, w.path) && forall path :: HasPath(items, path) ==> path == w.path
  {
    var items := [Item(w.path, content, None)];
    assert SyncUpTo(db, w.org, w.source, items, 0) == Synced(db, 0, 0, []);
    assert items[0].path == w.path;
    assert Where(w.org, w.source, items[0].path) == w;
  }

  lemma FirstUpload(w: Where, content: string)
    ensures var d, items := Doc(w, content, Digest(content), DEFAULT_ACL, Pending, 0), [Item(w.path, content, None)];
            && Reconciled(Start().db, w.org, w.source, items) == OneDoc(d)
            && OwedBy(Start().db, w.org, w.source, items) == {Key(0, Digest(content), 0)}
  {
    OneItem(Start().db, w, content);
    DropNone(Upsert(Start().db, w, Item(w.path, content, None)));
    assert Dropped(Start().db, w.org, w.source, [Item(w.path, content, None)]) == {};
  }

  lemma NotDropped(d: Doc, content: string)
    ensures Dropped(OneDoc(d), d.at.org, d.at.source, [Item(d.at.path, content, None)]) == {}
  {
    OneItem(OneDoc(d), d.at, content);
  }

  lemma NextUpload(d: Doc, content: string)
    requires !Unchanged(Some(d), Item(d.at.path, content, None))
    ensures var items, d' := [Item(d.at.path, content, None)], Upserted(Some(d), d.at, Item(d.at.path, content, None));
            && Reconciled(OneDoc(d), d.at.org, d.at.source, items) == OneDoc(d')
            && OwedBy(OneDoc(d), d.at.org, d.at.source, items) == {Key(0, Digest(content), d.revision)}
  {
    OneItem(OneDoc(d), d.at, content);
    NotDropped(d, content);
    assert Lookup(OneDoc(d), d.at) == Some(d);
    DropNone(Upsert(OneDoc(d), d.at, Item(d.at.path, content, None)));
  }

  lemma SameUpload(d: Doc, content: string)
    requires Unchanged(Some(d), Item(d.at.path, content, None))
    ensures var items := [Item(d.at.path, content, None)];
            && Reconciled(OneDoc(d), d.at.org, d.at.source, items) == OneDoc(d)
            && OwedBy(OneDoc(d), d.at.org, d.at.source, items) == {}
  {
    OneItem(OneDoc(d), d.at, content);
    NotDropped(d, content);
    assert Lookup(OneDoc(d), d.at) == Some(d);
    DropNone(OneDoc(d));
  }

  lemma EmptyUpload(d: Doc)
    requires d.status != Deleted
    ensures Reconciled(OneDoc(d), d.at.org, d.at.source, []) == OneDoc(Tombstone(d))
    ensures OwedBy(OneDoc(d), d.at.org, d.at.source, []) == {}
  {
    assert Dropped(OneDoc(d), d.at.org, d.at.source, []) == {0};
    assert SyncUpTo(OneDoc(d), d.at.org, d.at.source, [], 0) == Synced(OneDoc(d), 0, 0, []);
  }

  // ---- building runs -----------------------------------------------------------------

  lemma Extend(pieces: Chunker, run: seq<State>, steps: seq<Step>, s: State, a: Step)
    returns (run': seq<State>, steps': seq<Step>, s': State)
    requires IsRun(pieces, run, steps) && run[|steps|] == s && Enabled(pieces, s, a)
    ensures s' == After(pieces, s, a) && run' == run + [s'] && steps' == steps + [a]
    ensures IsRun(pieces, run', steps') && run'[|steps'|] == s'
  {
    s' := After(pieces, s, a);
    run', steps' := run + [s'], steps + [a];
    assert Takes(pieces, s, a, s');
    forall i | 0 <= i < |steps'| ensures Takes(pieces, run'[i], steps'[i], run'[i + 1]) {
      if i < |steps| {
        assert Takes(pieces, run[i], steps[i], run[i + 1]);
      }
    }
  }

  /** A document is uploaded, its job enqueued, and taken up. */
  lemma Begun(pieces: Chunker, w: Where, first: string) returns (run: seq<State>, steps: seq<Step>, s: State)
    ensures IsRun(pieces, run, steps) && |steps| == 3 && run[3] == s
    ensures steps == [Upload(w, first), Enqueue(Key(0, Digest(first), 0)), Begin(0, Key(0, Digest(first), 0))]
    ensures var d, key := Doc(w, first, Digest(first), DEFAULT_ACL, Pending, 0), Key(0, Digest(first), 0);
            s == State(OneDoc(d), map[key := false], {}, {}, map[0 := Handling(key, HasRead(d), false)])
  {
    var d, key := Doc(w, first, Digest(first), DEFAULT_ACL, Pending, 0), Key(0, Digest(first), 0);
    run, steps, s := [Start()], [], Start();
    FirstUpload(w, first);
    run, steps, s := Extend(pieces, run, steps, s, Upload(w, first));
    assert s == State(OneDoc(d), map[], {key}, {}, map[]);
    run, steps, s := Extend(pieces, run, steps, s, Enqueue(key));
    assert s == State(OneDoc(d), map[key := false], {}, {}, map[]);
    run, steps, s := Extend(pieces, run, steps, s, Begin(0, key));
  }

  // ---- an ACL changed in between -----------------------------------------------------

  function Zeros(n: nat): seq<nat> { seq(n, i => 0) }

  /** The rows for `d` when every vector is the same. */
  function SomeRows(pieces: Chunker, d: Doc): seq<Chunk> {
    ChunkRows(pieces, d, Zeros(|pieces(d.content)|)).value
  }

  lemma Embeds(pieces: Chunker, s: State, key: Key, d: Doc)
    requires s.handlers == map[0 := Handling(key, HasRead(d), false)]
    ensures var a := Embed(0, Zeros(|pieces(d.content)|));
            && Enabled(pieces, s, a)
            && After(pieces, s, a) == s.(handlers := map[0 := Handling(key, Embedded(d, SomeRows(pieces, d)), false)])
  {
  }

  /** Its text is embedded. */
  lemma BegunAndEmbedded(pieces: Chunker, w: Where, text: string)
    returns (run: seq<State>, steps: seq<Step>, s: State)
    ensures IsRun(pieces, run, steps) && |steps| == 4 && run[4] == s && NeverDisturbed(run, steps)
    ensures var d, key := Doc(w, text, Digest(text), DEFAULT_ACL, Pending, 0), Key(0, Digest(text), 0);
            s == State(OneDoc(d), map[key := false], {}, {},
                       map[0 := Handling(key, Embedded(d, SomeRows(pieces, d)), false)])
  {
    run, steps, s := Begun(pieces, w, text);
    Embeds(pieces, s, s.handlers[0].key, s.handlers[0].phase.doc);
    run, steps, s := Extend(pieces, run, steps, s, Embed(0, Zeros(|pieces(text)|)));
  }

  /** A document is uploaded and embedded, its ACL is changed, and the handler writes: it is
      ingested, and its chunks still carry the old ACL. */
  lemma AclRun(pieces: Chunker, w: Where, text: string, acl: Acl) returns (run: seq<State>, steps: seq<Step>)
    requires pieces(text) != [] && acl != DEFAULT_ACL
    ensures IsRun(pieces, run, steps) && |steps| == 6 && steps[4] == UpdateAcl(0, acl) && steps[5] == Write(0)
    ensures 0 in run[6].db.docs && run[6].db.docs[0].status == Ingested && !Agrees(pieces, run[6].db, 0)
  {
    var s;
    run, steps, s := BegunAndEmbedded(pieces, w, text);
    RunKeeps(pieces, run, steps, 4);
    AclChangeBetween(pieces, s, 0, acl);
    run, steps, s := Extend(pieces, run, steps, s, UpdateAcl(0, acl));
    run, steps, s := Extend(pieces, run, steps, s, Write(0));
  }

  // ---- uploads that are lost ---------------------------------------------------------

  /** The upload's key is enqueued, taken up, and its text embedded. */
  lemma JobEmbeds(pieces: Chunker, run: seq<State>, steps: seq<Step>, s: State, key: Key)
    returns (run': seq<State>, steps': seq<Step>, s': State)
    requires IsRun(pieces, run, steps) && run[|steps|] == s && Waiting(s, key)
    ensures IsRun(pieces, run', steps') && run'[|steps'|] == s' && |steps'| == |steps| + 3
    ensures steps <= steps' && run <= run'
    ensures var d := s.db.docs[key.doc];
            s' == State(s.db, s.jobs[key := false], {}, {},
                        map[0 := Handling(key, Embedded(d, SomeRows(pieces, d)), false)])
  {
    var d := s.db.docs[key.doc];
    run', steps', s' := Extend(pieces, run, steps, s, Enqueue(key));
    assert s' == State(s.db, s.jobs[key := false], {}, {}, map[]);
    run', steps', s' := Extend(pieces, run', steps', s', Begin(0, key));
    assert s' == State(s.db, s.jobs[key := false], {}, {}, map[0 := Handling(key, HasRead(d), false)]);
    Embeds(pieces, s', key, d);
    run', steps', s' := Extend(pieces, run', steps', s', Embed(0, Zeros(|pieces(d.content)|)));
  }

  lemma Writes(pieces: Chunker, s: State, key: Key, d: Doc, rows: seq<Chunk>)
    requires s.handlers == map[0 := Handling(key, Embedded(d, rows), false)] && key.doc in s.db.docs
    ensures Enabled(pieces, s, Write(0))
    ensures var s' := After(pieces, s, Write(0));
            && s' == s.(db := Written(s.db, key.doc, rows), handlers := s'.handlers)
            && s'.handlers.Keys == {0} && s'.handlers[0].phase == Done && s'.handlers[0].key == key
  {
  }

  lemma Succeeds(pieces: Chunker, s: State, key: Key)
    requires s.handlers.Keys == {0} && s.handlers[0].phase == Done && s.handlers[0].key == key
    ensures Enabled(pieces, s, Succeed(0))
    ensures After(pieces, s, Succeed(0)) == s.(jobs := s.jobs[key := true], handlers := map[])
  {
  }

  /** From an upload's owed key to an ingested document with its job finished. */
  lemma JobRuns(pieces: Chunker, run: seq<State>, steps: seq<Step>, s: State, key: Key)
    returns (run': seq<State>, steps': seq<Step>, s': State)
    requires IsRun(pieces, run, steps) && run[|steps|] == s && Waiting(s, key)
    ensures IsRun(pieces, run', steps') && run'[|steps'|] == s' && |steps'| == |steps| + 5
    ensures steps <= steps' && run <= run'
    ensures var d := s.db.docs[key.doc];
            s' == State(Written(s.db, key.doc, SomeRows(pieces, d)), s.jobs[key := true], {}, {}, map[])
  {
    var d := s.db.docs[key.doc];
    run', steps', s' := JobEmbeds(pieces, run, steps, s, key);
    Writes(pieces, s', key, d, SomeRows(pieces, d));
    run', steps', s' := Extend(pieces, run', steps', s', Write(0));
    Succeeds(pieces, s', key);
    run', steps', s' := Extend(pieces, run', steps', s', Succeed(0));
    assert s'.jobs == s.jobs[key := true];
  }

  /** One upload has just been made, and nothing else is going on. */
  predicate Waiting(s: State, key: Key) {
    && s.owed == {key} && s.failing == {} && s.handlers == map[] && key !in s.jobs
    && key.doc in s.db.docs && s.db.docs[key.doc].status == Pending
  }

  lemma FirstIngested(pieces: Chunker, w: Where, first: string)
    returns (run: seq<State>, steps: seq<Step>, s: State)
    ensures IsRun(pieces, run, steps) && |steps| == 6 && run[6] == s && steps[0] == Upload(w, first)
    ensures var d := Doc(w, first, Digest(first), DEFAULT_ACL, Ingested, 0);
            && s.db.docs == map[0 := d] && s.db.byPlace == map[w := 0]
            && s == State(s.db, map[Key(0, Digest(first), 0) := true], {}, {}, map[])
  {
    s := Start();
    run, steps := [s], [];
    FirstUpload(w, first);
    run, steps, s := Extend(pieces, run, steps, s, Upload(w, first));
    assert s == State(OneDoc(Doc(w, first, Digest(first), DEFAULT_ACL, Pending, 0)), map[],
                      {Key(0, Digest(first), 0)}, {}, map[]);
    run, steps, s := JobRuns(pieces, run, steps, s, Key(0, Digest(first), 0));
  }

  lemma SecondIngested(pieces: Chunker, w: Where, first: string, second: string)
    returns (run: seq<State>, steps: seq<Step>, s: State)
    requires first != second
    ensures IsRun(pieces, run, steps) && |steps| == 12 && run[12] == s
    ensures steps[0] == Upload(w, first) && steps[6] == Upload(w, second)
    ensures 0 in run[6].db.docs && run[6].db.docs[0].status == Ingested && run[6].db.docs[0].content == first
    ensures 0 in s.db.docs && s.db.docs[0] == Doc(w, second, Digest(second), DEFAULT_ACL, Ingested, 0)
    ensures w in s.db.byPlace && s.db.byPlace[w] == 0
    ensures s == State(s.db, map[Key(0, Digest(first), 0) := true, Key(0, Digest(second), 0) := true], {}, {}, map[])
  {
    run, steps, s := FirstIngested(pieces, w, first);
    RunKeepsKeys(pieces, run, steps, 6);
    OneUpload(s.db, w, Item(w.path, second, None));
    run, steps, s := Extend(pieces, run, steps, s, Upload(w, second));
    assert s == State(s.db, map[Key(0, Digest(first), 0) := true], {Key(0, Digest(second), 0)}, {}, map[]);
    run, steps, s := JobRuns(pieces, run, steps, s, Key(0, Digest(second), 0));
  }

  /** A text goes from one to another and back, each ingested before the next is uploaded. The last
      upload is reported as enqueued; its document stays pending with nothing open. */
  lemma ReturnRun(pieces: Chunker, w: Where, first: string, second: string)
    returns (run: seq<State>, steps: seq<Step>)
    requires first != second
    ensures IsRun(pieces, run, steps) && |steps| == 14
    ensures steps[0] == Upload(w, first) && steps[6] == Upload(w, second) && steps[12] == Upload(w, first)
    ensures 0 in run[6].db.docs && run[6].db.docs[0].status == Ingested && run[6].db.docs[0].content == first
    ensures 0 in run[12].db.docs && run[12].db.docs[0].status == Ingested && run[12].db.docs[0].content == second
    ensures LeftPending(run[14], first)
  {
    var s;
    run, steps, s := SecondIngested(pieces, w, first, second);
    run, steps := UploadedAgain(pieces, run, steps, s, w, first);
  }

  /** The document is pending and nothing of it is open. */
  ghost predicate LeftPending(s: State, text: string) {
    && 0 in s.db.docs && s.db.docs[0].status == Pending && s.db.docs[0].content == text
    && NothingOpen(s, 0) && s.owed == {} && s.failing == {}
  }

  lemma UploadedAgain(pieces: Chunker, run: seq<State>, steps: seq<Step>, s: State, w: Where, text: string)
    returns (run': seq<State>, steps': seq<Step>)
    requires IsRun(pieces, run, steps) && run[|steps|] == s
    requires Lookup(s.db, w).Some? && s.db.byPlace[w] == 0 && !Unchanged(Lookup(s.db, w), Item(w.path, text, None))
    requires s.owed == {} && s.failing == {} && s.handlers == map[]
    requires UploadKey(s.db, w, Item(w.path, text, None)) in s.jobs && NothingOpen(s, 0)
    ensures IsRun(pieces, run', steps') && |steps'| == |steps| + 2 && run <= run' && steps <= steps'
    ensures steps'[|steps|] == Upload(w, text) && LeftPending(run'[|steps| + 2], text)
  {
    var item := Item(w.path, text, None);
    RunKeepsKeys(pieces, run, steps, |steps|);
    ReturnIsStuck(pieces, s, w, item, 0, UploadKey(s.db, w, item));
    OneUpload(s.db, w, item);
    var s';
    run', steps', s' := Extend(pieces, run, steps, s, Upload(w, text));
    run', steps', s' := Extend(pieces, run', steps', s', Enqueue(UploadKey(s.db, w, item)));
  }

  /** A document whose job died is uploaded again as it was: it stays pending too. */
  lemma RetryRun(pieces: Chunker, w: Where, text: string) returns (run: seq<State>, steps: seq<Step>)
    ensures IsRun(pieces, run, steps) && |steps| == 8
    ensures steps[0] == Upload(w, text) && steps[6] == Upload(w, text)
    ensures 0 in run[6].db.docs && run[6].db.docs[0].status == Failed && LeftPending(run[8], text)
  {
    var key := Key(0, Digest(text), 0);
    var d := Doc(w, text, Digest(text), DEFAULT_ACL, Pending, 0);
    var s;
    run, steps, s := TakenUp(pieces, w, text);
    run, steps, s := Extend(pieces, run, steps, s, Fail(0, true));
    assert s == State(OneDoc(d), map[key := true], {}, {key}, map[]);
    run, steps, s := Extend(pieces, run, steps, s, MarkDocumentFailed(key));
    assert s.db.docs == map[0 := d.(status := Failed)] && s.db.byPlace == map[w := 0];
    run, steps := UploadedAgain(pieces, run, steps, s, w, text);
  }

  // ---- a deleted document that comes back empty --------------------------------------

  /** A document is uploaded and taken up, and its handler raises. */
  lemma TakenUp(pieces: Chunker, w: Where, first: string) returns (run: seq<State>, steps: seq<Step>, s: State)
    ensures IsRun(pieces, run, steps) && |steps| == 4 && run[4] == s && steps[0] == Upload(w, first)
    ensures var d, key := Doc(w, first, Digest(first), DEFAULT_ACL, Pending, 0), Key(0, Digest(first), 0);
            s == State(OneDoc(d), map[key := false], {}, {}, map[0 := Handling(key, Raised, false)])
  {
    run, steps, s := Begun(pieces, w, first);
    run, steps, s := Extend(pieces, run, steps, s, Error(0));
  }

  /** Meanwhile it is changed and its second job queued. */
  lemma ChangedMeanwhile(pieces: Chunker, w: Where, first: string, text: string)
    returns (run: seq<State>, steps: seq<Step>, s: State)
    requires text != first
    ensures IsRun(pieces, run, steps) && |steps| == 6 && run[6] == s
    ensures var key, next := Key(0, Digest(first), 0), Key(0, Digest(text), 0);
            s == State(OneDoc(Doc(w, text, Digest(text), DEFAULT_ACL, Pending, 0)),
                       map[key := false, next := false], {}, {}, map[0 := Handling(key, Raised, true)])
  {
    var key, next := Key(0, Digest(first), 0), Key(0, Digest(text), 0);
    var d' := Doc(w, text, Digest(text), DEFAULT_ACL, Pending, 0);
    run, steps, s := TakenUp(pieces, w, first);
    NextUpload(Doc(w, first, Digest(first), DEFAULT_ACL, Pending, 0), text);
    run, steps, s := Extend(pieces, run, steps, s, Upload(w, text));
    assert s == State(OneDoc(d'), map[key := false], {next}, {}, map[0 := Handling(key, Raised, true)]);
    run, steps, s := Extend(pieces, run, steps, s, Enqueue(next));
  }

  /** Then it is dropped. */
  lemma DroppedMeanwhile(pieces: Chunker, w: Where, first: string, text: string)
    returns (run: seq<State>, steps: seq<Step>, s: State)
    requires text != first
    ensures IsRun(pieces, run, steps) && |steps| == 7 && run[7] == s
    ensures var key, next := Key(0, Digest(first), 0), Key(0, Digest(text), 0);
            s == State(OneDoc(Doc(w, "", Digest(text), DEFAULT_ACL, Deleted, 1)),
                       map[key := false, next := false], {}, {},
                       map[0 := Handling(key, Raised, true)])
  {
    run, steps, s := ChangedMeanwhile(pieces, w, first, text);
    EmptyUpload(Doc(w, text, Digest(text), DEFAULT_ACL, Pending, 0));
    run, steps, s := Extend(pieces, run, steps, s, Sync(w.org, w.source, []));
  }

  /** The first job dies and its document, a tombstone by now, is marked failed. */
  lemma MarkedTombstone(pieces: Chunker, w: Where, first: string, text: string)
    returns (run: seq<State>, steps: seq<Step>, s: State)
    requires text != first
    ensures IsRun(pieces, run, steps) && |steps| == 9 && run[9] == s
    ensures run[7].db == OneDoc(Doc(w, "", Digest(text), DEFAULT_ACL, Deleted, 1))
    ensures s == State(OneDoc(Doc(w, "", Digest(text), DEFAULT_ACL, Failed, 1)),
                       map[Key(0, Digest(first), 0) := true, Key(0, Digest(text), 0) := false], {}, {}, map[])
  {
    var key, next := Key(0, Digest(first), 0), Key(0, Digest(text), 0);
    var d := Doc(w, "", Digest(text), DEFAULT_ACL, Deleted, 1);
    run, steps, s := DroppedMeanwhile(pieces, w, first, text);
    run, steps, s := Extend(pieces, run, steps, s, Fail(0, true));
    assert s == State(OneDoc(d), map[key := true, next := false], {}, {key}, map[]);
    run, steps, s := Extend(pieces, run, steps, s, MarkDocumentFailed(key));
    assert OneDoc(d).docs[0 := d.(status := Failed)] == map[0 := d.(status := Failed)];
  }

  /** The second job is begun, finds the empty text, and has nothing to embed. */
  lemma LeftoverReads(pieces: Chunker, w: Where, first: string, text: string)
    returns (run: seq<State>, steps: seq<Step>, s: State)
    requires text != first && pieces("") == []
    ensures IsRun(pieces, run, steps) && |steps| == 11 && run[11] == s
    ensures run[7].db == OneDoc(Doc(w, "", Digest(text), DEFAULT_ACL, Deleted, 1))
    ensures var next, d := Key(0, Digest(text), 0), Doc(w, "", Digest(text), DEFAULT_ACL, Failed, 1);
            s == State(OneDoc(d), map[Key(0, Digest(first), 0) := true, next := false], {}, {},
                       map[1 := Handling(next, Embedded(d, []), false)])
  {
    var next := Key(0, Digest(text), 0);
    var d := Doc(w, "", Digest(text), DEFAULT_ACL, Failed, 1);
    run, steps, s := MarkedTombstone(pieces, w, first, text);
    run, steps, s := Extend(pieces, run, steps, s, Begin(1, next));
    assert s.handlers == map[1 := Handling(next, HasRead(d), false)];
    NoRows(pieces, d);
    run, steps, s := Extend(pieces, run, steps, s, Embed(1, []));
    assert s.handlers == map[1 := Handling(next, Embedded(d, []), false)];
  }

  /** It ingests the empty text. */
  lemma LeftoverIngests(pieces: Chunker, w: Where, first: string, text: string)
    returns (run: seq<State>, steps: seq<Step>, s: State)
    requires text != first && pieces("") == []
    ensures IsRun(pieces, run, steps) && |steps| == 12 && run[12] == s
    ensures run[7].db == OneDoc(Doc(w, "", Digest(text), DEFAULT_ACL, Deleted, 1))
    ensures s.db == OneDoc(Doc(w, "", Digest(text), DEFAULT_ACL, Ingested, 1)) && s.owed == {} && s.failing == {}
  {
    run, steps, s := LeftoverReads(pieces, w, first, text);
    NothingWritten(Doc(w, "", Digest(text), DEFAULT_ACL, Failed, 1));
    run, steps, s := Extend(pieces, run, steps, s, Write(1));
  }

  lemma NoRows(pieces: Chunker, d: Doc)
    requires pieces(d.content) == []
    ensures ChunkRows(pieces, d, []) == Some([])
  {
    assert ChunkRows(pieces, d, []).value == [];
  }

  /** Uploading the real text again is then taken for no change: the last upload holds a text,
      the document is ingested, and its text is empty. */
  lemma TombstoneRun(pieces: Chunker, w: Where, first: string, text: string) returns (run: seq<State>, steps: seq<Step>)
    requires text != first && text != "" && pieces("") == []
    ensures IsRun(pieces, run, steps) && |steps| == 13 && steps[12] == Upload(w, text)
    ensures LiveContent(run[7].db, w) == None
    ensures run[13].db.docs == map[0 := Doc(w, "", Digest(text), DEFAULT_ACL, Ingested, 1)]
    ensures LiveContent(run[13].db, w) == Some("") && run[13].owed == {} && run[13].failing == {}
  {
    var s;
    run, steps, s := LeftoverIngests(pieces, w, first, text);
    SameUpload(Doc(w, "", Digest(text), DEFAULT_ACL, Ingested, 1), text);
    run, steps, s := Extend(pieces, run, steps, s, Upload(w, text));
  }

  lemma NothingWritten(d: Doc)
    ensures Written(OneDoc(d), 0, []) == OneDoc(d.(status := Ingested))
  {
    WrittenChunks(OneDoc(d), 0, []);
    assert Written(OneDoc(d), 0, []).chunks == map[];
    assert Written(OneDoc(d), 0, []).docs == map[0 := d.(status := Ingested)];
  }
}
