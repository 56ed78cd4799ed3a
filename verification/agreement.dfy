/** When the index agrees with the documents throughout a run, disturbed or not
    (knowledge_desk/ingest.py:145-188). */
module Agreement {
  import opened Text
  import opened Store
  import opened Reconcile
  import opened Ingest
  import opened Keys

  /** What is true of a handler whatever happened to its document: the rows it is to write are
      those of what it read, and what it read is from where the document still is. */
  ghost predicate HeldOk(pieces: Chunker, db: Db, h: Handling) {
    && (h.phase.HasRead? || h.phase.Embedded? ==>
          h.key.doc in db.docs ==> db.docs[h.key.doc].at == h.phase.doc.at)
    && (h.phase.Embedded? ==> RowsAreOf(pieces, h.phase.doc, h.phase.rows))
  }

  ghost predicate AllHeldOk(pieces: Chunker, s: State) {
    forall run :: run in s.handlers ==> HeldOk(pieces, s.db, s.handlers[run])
  }

  /** No row moves to another place. */
  ghost predicate RowsInPlace(db: Db, db': Db) {
    forall id :: id in db.docs && id in db'.docs ==> db'.docs[id].at == db.docs[id].at
  }

  lemma TablesInPlace(pieces: Chunker, s: State, a: Step)
    requires Valid(s.db) && Enabled(pieces, s, a)
    ensures RowsInPlace(s.db, TablesAfter(pieces, s, a))
  {
    match a
    case Sync(org, source, items) => SyncExtends(s.db, org, source, items, |items|);
    case _ =>
  }

  lemma HeldStaysOk(pieces: Chunker, s: State, a: Step, run: Run)
    requires Valid(s.db) && KeysOk(s) && AllHeldOk(pieces, s) && Enabled(pieces, s, a)
    requires run in HandlersAfter(pieces, s, a)
    ensures HeldOk(pieces, TablesAfter(pieces, s, a), HandlersAfter(pieces, s, a)[run])
  {
    TablesMoveOn(pieces, s, a);
    TablesInPlace(pieces, s, a);
    if !a.Begin? || run != a.run {
      assert HeldOk(pieces, s.db, s.handlers[run]) && KeyOk(s.db, s.handlers[run].key);
    }
  }

  lemma {:induction false} RunHeldOk(pieces: Chunker, run: seq<State>, steps: seq<Step>, i: nat)
    requires IsRun(pieces, run, steps) && i < |run|
    ensures AllHeldOk(pieces, run[i])
  {
    if i > 0 {
      RunHeldOk(pieces, run, steps, i - 1);
      RunKeepsKeys(pieces, run, steps, i - 1);
      assert Takes(pieces, run[i - 1], steps[i - 1], run[i - 1 + 1]);
      forall h | h in run[i].handlers ensures HeldOk(pieces, run[i].db, run[i].handlers[h]) {
        HeldStaysOk(pieces, run[i - 1], steps[i - 1], h);
      }
    }
  }

  /** If the step is a handler's second transaction on a document that is still there, what the
      handler read still fits it. */
  predicate WriteFits(pieces: Chunker, s: State, a: Step) {
    a.Write? && Enabled(pieces, s, a) && s.handlers[a.run].key.doc in s.db.docs ==>
      Fits(pieces, s.db.docs[s.handlers[a.run].key.doc], s.handlers[a.run].phase.doc)
  }

  /** The one step that loses agreement. */
  lemma StepAgreesIff(pieces: Chunker, s: State, a: Step)
    requires IndexAgrees(pieces, s.db) && AllHeldOk(pieces, s) && Enabled(pieces, s, a)
    ensures IndexAgrees(pieces, After(pieces, s, a).db) <==> WriteFits(pieces, s, a)
  {
    if a.Write? {
      var h := s.handlers[a.run];
      assert HeldOk(pieces, s.db, h);
      if h.key.doc in s.db.docs {
        WriteKeepsIndexIff(pieces, s.db, h.key.doc, h.phase.doc, h.phase.rows);
      }
    } else {
      OthersKeepIndex(pieces, s, a);
    }
  }

  lemma {:induction false} AgreesSoFar(pieces: Chunker, run: seq<State>, steps: seq<Step>, i: nat)
    requires IsRun(pieces, run, steps) && i < |run| && forall k :: 0 <= k < i ==> WriteFits(pieces, run[k], steps[k])
    ensures IndexAgrees(pieces, run[i].db)
  {
    if i > 0 {
      AgreesSoFar(pieces, run, steps, i - 1);
      RunHeldOk(pieces, run, steps, i - 1);
      assert Takes(pieces, run[i - 1], steps[i - 1], run[i - 1 + 1]);
      StepAgreesIff(pieces, run[i - 1], steps[i - 1]);
    }
  }

  /** Whatever happens between transactions: the index agrees with the documents in every state of a
      run if and only if, at every second transaction, what was read in the first still fits. */
  lemma AlwaysAgreesIff(pieces: Chunker, run: seq<State>, steps: seq<Step>)
    requires IsRun(pieces, run, steps)
    ensures (forall i :: 0 <= i < |run| ==> IndexAgrees(pieces, run[i].db))
            <==> (forall k :: 0 <= k < |steps| ==> WriteFits(pieces, run[k], steps[k]))
  {
    if forall i :: 0 <= i < |run| ==> IndexAgrees(pieces, run[i].db) {
      forall k | 0 <= k < |steps| ensures WriteFits(pieces, run[k], steps[k]) {
        RunHeldOk(pieces, run, steps, k);
        assert Takes(pieces, run[k], steps[k], run[k + 1]) && IndexAgrees(pieces, run[k + 1].db);
        StepAgreesIff(pieces, run[k], steps[k]);
      }
    }
    if forall k :: 0 <= k < |steps| ==> WriteFits(pieces, run[k], steps[k]) {
      forall i | 0 <= i < |run| ensures IndexAgrees(pieces, run[i].db) {
        AgreesSoFar(pieces, run, steps, i);
      }
    }
  }
}
