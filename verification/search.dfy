/** Access-scoped search (knowledge_desk/tenancy.py:395-409, 433-454). Distances are real
    numbers, and rows at the same distance may come in any order. */
module Search {
  import opened Text
  import opened Store
  import opened Ingest

  // ---- principals --------------------------------------------------------------------

  datatype Groups = Groups(orgOf: map<string, nat>, members: set<(string, string)>)

  const PUBLIC := "public-to-org"

  /** The caller's access set. */
  function Principals(g: Groups, org: nat, user: string): set<string> {
    {PUBLIC, "user:" + user}
    + set group | group in g.orgOf && g.orgOf[group] == org && (group, user) in g.members :: "group:" + group
  }

  /** `acl ?| principals` */
  predicate Meets(acl: Acl, principals: set<string>) {
    exists i :: 0 <= i < |acl| && acl[i] in principals
  }

  lemma PrefixInjective(prefix: string, a: string, b: string)
    requires prefix + a == prefix + b
    ensures a == b
  {
    assert a == (prefix + a)[|prefix|..] && b == (prefix + b)[|prefix|..];
  }

  /** The three kinds of principal cannot be mistaken for one another: an entry for a group
      admits exactly its members, in the group's own org; one for a user exactly that user. */
  lemma PrincipalsIff(g: Groups, org: nat, user: string, name: string)
    ensures PUBLIC in Principals(g, org, user)
    ensures "user:" + name in Principals(g, org, user) <==> name == user
    ensures "group:" + name in Principals(g, org, user) <==>
              name in g.orgOf && g.orgOf[name] == org && (name, user) in g.members
  {
    assert ("user:" + name)[0] == 'u' && ("user:" + name)[1] == 's' && ("group:" + name)[0] == 'g';
    assert PUBLIC[1] == 'u' && PUBLIC[0] == 'p' && ("user:" + user)[0] == 'u';
    if "user:" + name in Principals(g, org, user) {
      assert forall group: string :: ("group:" + group)[0] == 'g';
      PrefixInjective("user:", name, user);
    }
    if "group:" + name in Principals(g, org, user) {
      var group :| group in g.orgOf && g.orgOf[group] == org && (group, user) in g.members
                   && "group:" + group == "group:" + name;
      PrefixInjective("group:", group, name);
    }
  }

  // ---- candidates --------------------------------------------------------------------

  /** The rows the query ranks: it reads the ACL on the chunk, not on the document. */
  function Candidates(db: Db, org: nat, principals: set<string>): set<ChunkKey> {
    set c | c in db.chunks && db.chunks[c].org == org && Meets(db.chunks[c].acl, principals)
            && c.doc in db.docs && db.docs[c.doc].status == Ingested
  }

  /** What a caller may see, said of documents: those ingested, in the caller's org, with an
      ACL that meets the caller's principals. */
  predicate Visible(db: Db, org: nat, principals: set<string>, id: DocId) {
    id in db.docs && db.docs[id].status == Ingested && db.docs[id].at.org == org && Meets(db.docs[id].acl, principals)
  }

  /** Given index agreement, filtering on the copies ranks exactly the pieces of the visible
      documents. */
  lemma CandidatesIff(pieces: Chunker, db: Db, org: nat, principals: set<string>, c: ChunkKey)
    requires IndexAgrees(pieces, db)
    ensures c in Candidates(db, org, principals) <==>
              Visible(db, org, principals, c.doc) && c.ordinal < |pieces(db.docs[c.doc].content)|
    ensures c in Candidates(db, org, principals) ==> db.chunks[c].text == pieces(db.docs[c.doc].content)[c.ordinal]
  {
    if c.doc in db.docs && db.docs[c.doc].status == Ingested {
      assert Agrees(pieces, db, c.doc);
      var texts := pieces(db.docs[c.doc].content);
      if c.ordinal < |texts| {
        assert HasChunk(db, ChunkKey(c.doc, c.ordinal), db.docs[c.doc], texts[c.ordinal]);
        assert c == ChunkKey(c.doc, c.ordinal);
      }
    }
  }

  // ---- the answer --------------------------------------------------------------------

  predicate Distinct(r: seq<ChunkKey>) {
    forall i, j :: 0 <= i < j < |r| ==> r[i] != r[j]
  }

  predicate Sorted(r: seq<ChunkKey>, distance: ChunkKey -> real) {
    forall i, j :: 0 <= i < j < |r| ==> distance(r[i]) <= distance(r[j])
  }

  /** `r` is what `order by distance limit k` may return of `candidates`. */
  predicate IsAnswer(candidates: set<ChunkKey>, distance: ChunkKey -> real, k: nat, r: seq<ChunkKey>) {
    && Distinct(r) && Sorted(r, distance)
    && (forall i :: 0 <= i < |r| ==> r[i] in candidates)
    && |r| == (if k < |candidates| then k else |candidates|)
    && (forall i, c :: 0 <= i < |r| && c in candidates && c !in r ==> distance(r[i]) <= distance(c))
  }

  /** The distance of a row to the query. */
  function DistanceOf(db: Db, metric: nat -> real): ChunkKey -> real {
    (c: ChunkKey) => if c in db.chunks then metric(db.chunks[c].embedding) else 0.0
  }

  datatype Hit = Hit(doc: DocId, ordinal: nat, text: string, path: string, distance: real)

  function HitAt(db: Db, metric: nat -> real, c: ChunkKey): Hit {
    if c in db.chunks && c.doc in db.docs
    then Hit(c.doc, c.ordinal, db.chunks[c].text, db.docs[c.doc].at.path, metric(db.chunks[c].embedding))
    else Hit(c.doc, c.ordinal, "", "", 0.0)
  }

  /** Some nearest row of a non-empty set. */
  lemma {:induction false} NearestExists(rows: set<ChunkKey>, distance: ChunkKey -> real) returns (best: ChunkKey)
    requires rows != {}
    ensures best in rows && forall c :: c in rows ==> distance(best) <= distance(c)
    decreases |rows|
  {
    var x :| x in rows;
    if rows == {x} {
      best := x;
    } else {
      assert rows == rows - {x} + {x};
      var y := NearestExists(rows - {x}, distance);
      best := if distance(x) <= distance(y) then x else y;
    }
  }

  /** `r` are the rows ranked so far, `left` the others, none of them nearer. */
  ghost predicate Ranked(all: set<ChunkKey>, left: set<ChunkKey>, distance: ChunkKey -> real, r: seq<ChunkKey>) {
    && left <= all && |r| + |left| == |all|
    && (forall c :: c in all <==> c in left || c in r)
    && (forall c :: c in left ==> c !in r)
    && Distinct(r) && Sorted(r, distance)
    && (forall i, c :: 0 <= i < |r| && c in left ==> distance(r[i]) <= distance(c))
  }

  lemma RankNext(all: set<ChunkKey>, left: set<ChunkKey>, distance: ChunkKey -> real, r: seq<ChunkKey>, c: ChunkKey)
    requires Ranked(all, left, distance, r) && c in left && forall d :: d in left ==> distance(c) <= distance(d)
    ensures Ranked(all, left - {c}, distance, r + [c])
  {
  }

  /** The query: the rows it ranks first, and what it returns of them. */
  method Search(db: Db, g: Groups, org: nat, user: string, metric: nat -> real, k: nat)
    returns (hits: seq<Hit>, r: seq<ChunkKey>)
    ensures IsAnswer(Candidates(db, org, Principals(g, org, user)), DistanceOf(db, metric), k, r)
    ensures |hits| == |r| && forall i :: 0 <= i < |r| ==> hits[i] == HitAt(db, metric, r[i])
  {
    var all := Candidates(db, org, Principals(g, org, user));
    var distance := DistanceOf(db, metric);
    var left := all;
    r := [];
    while |r| < k && left != {}
      invariant Ranked(all, left, distance, r) && |r| <= k
      decreases |left|
    {
      ghost var best := NearestExists(left, distance);
      var c :| c in left && forall d :: d in left ==> distance(c) <= distance(d);
      RankNext(all, left, distance, r, c);
      r := r + [c];
      left := left - {c};
    }
    RankedIsAnswer(all, left, distance, k, r);
    hits := seq(|r|, i requires 0 <= i < |r| => HitAt(db, metric, r[i]));
  }

  lemma RankedIsAnswer(all: set<ChunkKey>, left: set<ChunkKey>, distance: ChunkKey -> real, k: nat, r: seq<ChunkKey>)
    requires Ranked(all, left, distance, r) && |r| <= k && (|r| < k ==> left == {})
    ensures IsAnswer(all, distance, k, r)
  {
  }

  // ---- what an answer determines -----------------------------------------------------

  function Elements(r: seq<ChunkKey>, n: nat): set<ChunkKey>
    requires n <= |r|
  {
    set i | 0 <= i < n :: r[i]
  }

  lemma ElementsStep(r: seq<ChunkKey>, n: nat)
    requires Distinct(r) && 0 < n <= |r|
    ensures Elements(r, n) == Elements(r, n - 1) + {r[n - 1]} && r[n - 1] !in Elements(r, n - 1)
  {
  }

  lemma {:induction false} DistinctCount(r: seq<ChunkKey>, n: nat)
    requires Distinct(r) && n <= |r|
    ensures |Elements(r, n)| == n
  {
    if n > 0 {
      DistinctCount(r, n - 1);
      ElementsStep(r, n);
    }
  }

  /** A larger set has a member outside a smaller one. */
  lemma Outsider(a: set<ChunkKey>, b: set<ChunkKey>) returns (c: ChunkKey)
    requires |a| > |b|
    ensures c in a && c !in b
  {
    if a <= b {
      SubsetSize(a, b);
    }
    c :| c in a && c !in b;
  }

  /** Row `i` of an answer is no farther than any candidate not ranked before it. */
  lemma NoFarther(candidates: set<ChunkKey>, distance: ChunkKey -> real, k: nat, q: seq<ChunkKey>, i: nat, c: ChunkKey)
    requires IsAnswer(candidates, distance, k, q) && i < |q| && c in candidates && c !in Elements(q, i)
    ensures distance(q[i]) <= distance(c)
  {
    if c in q {
      var j :| 0 <= j < |q| && q[j] == c;
      assert i <= j;
    }
  }

  lemma NotNearer(candidates: set<ChunkKey>, distance: ChunkKey -> real, k: nat, r: seq<ChunkKey>, q: seq<ChunkKey>,
                  i: nat)
    requires IsAnswer(candidates, distance, k, r) && IsAnswer(candidates, distance, k, q) && i < |r|
    ensures distance(r[i]) >= distance(q[i])
  {
    DistinctCount(r, i + 1);
    DistinctCount(q, i);
    var c := Outsider(Elements(r, i + 1), Elements(q, i));
    var x :| 0 <= x <= i && r[x] == c;
    assert distance(r[x]) <= distance(r[i]);
    NoFarther(candidates, distance, k, q, i, c);
  }

  /** Any two answers of one query agree on every distance, and where no two candidates are at
      the same distance they are the same answer. */
  lemma AnswersAgree(candidates: set<ChunkKey>, distance: ChunkKey -> real, k: nat, r: seq<ChunkKey>, q: seq<ChunkKey>)
    requires IsAnswer(candidates, distance, k, r) && IsAnswer(candidates, distance, k, q)
    ensures |r| == |q| && forall i :: 0 <= i < |r| ==> distance(r[i]) == distance(q[i])
    ensures (forall c, d :: c in candidates && d in candidates && distance(c) == distance(d) ==> c == d) ==> r == q
  {
    forall i | 0 <= i < |r| ensures distance(r[i]) == distance(q[i]) {
      NotNearer(candidates, distance, k, r, q, i);
      NotNearer(candidates, distance, k, q, r, i);
    }
  }

  /** Given index agreement, an answer holds the k nearest of exactly the pieces of the visible
      documents, or all of them if there are fewer. */
  lemma SearchRefines(pieces: Chunker, db: Db, org: nat, principals: set<string>, metric: nat -> real, k: nat,
                      r: seq<ChunkKey>)
    requires IndexAgrees(pieces, db) && IsAnswer(Candidates(db, org, principals), DistanceOf(db, metric), k, r)
    ensures forall i :: 0 <= i < |r| ==>
              && Visible(db, org, principals, r[i].doc) && r[i].ordinal < |pieces(db.docs[r[i].doc].content)|
              && HitAt(db, metric, r[i]).text == pieces(db.docs[r[i].doc].content)[r[i].ordinal]
              && HitAt(db, metric, r[i]).path == db.docs[r[i].doc].at.path
    ensures forall id, n: nat {:trigger ChunkKey(id, n)} ::
              Visible(db, org, principals, id) && n < |pieces(db.docs[id].content)| && ChunkKey(id, n) !in r ==>
                && |r| == k
                && forall i :: 0 <= i < |r| ==>
                     DistanceOf(db, metric)(r[i]) <= DistanceOf(db, metric)(ChunkKey(id, n))
  {
    var all := Candidates(db, org, principals);
    forall i | 0 <= i < |r|
      ensures Visible(db, org, principals, r[i].doc) && r[i].ordinal < |pieces(db.docs[r[i].doc].content)|
      ensures db.chunks[r[i]].text == pieces(db.docs[r[i].doc].content)[r[i].ordinal]
    {
      CandidatesIff(pieces, db, org, principals, r[i]);
    }
    forall id, n: nat {:trigger ChunkKey(id, n)} |
        Visible(db, org, principals, id) && n < |pieces(db.docs[id].content)| && ChunkKey(id, n) !in r
      ensures |r| == k && ChunkKey(id, n) in all
    {
      CandidatesIff(pieces, db, org, principals, ChunkKey(id, n));
      LeftOut(all, r, ChunkKey(id, n));
    }
  }

  /** A row left out means the limit was reached. */
  lemma LeftOut(all: set<ChunkKey>, r: seq<ChunkKey>, c: ChunkKey)
    requires Distinct(r) && (forall i :: 0 <= i < |r| ==> r[i] in all) && c in all && c !in r
    ensures |r| < |all|
  {
    DistinctCount(r, |r|);
    SubsetSize(Elements(r, |r|) + {c}, all);
  }

  /** A document the caller may not see, before or after, may change in any way, chunks and
      all, or come or go: the same answers, row for row. */
  lemma HiddenChangesDoNotShow(pieces: Chunker, db: Db, db': Db, id: DocId, org: nat, principals: set<string>,
                               metric: nat -> real, k: nat, r: seq<ChunkKey>)
    requires IndexAgrees(pieces, db) && IndexAgrees(pieces, db')
    requires !Visible(db, org, principals, id) && !Visible(db', org, principals, id)
    requires forall other :: other != id ==> SameDoc(db, db', other)
    ensures IsAnswer(Candidates(db, org, principals), DistanceOf(db, metric), k, r)
            <==> IsAnswer(Candidates(db', org, principals), DistanceOf(db', metric), k, r)
    ensures IsAnswer(Candidates(db, org, principals), DistanceOf(db, metric), k, r) ==>
              forall i :: 0 <= i < |r| ==> HitAt(db, metric, r[i]) == HitAt(db', metric, r[i])
  {
    var all, all' := Candidates(db, org, principals), Candidates(db', org, principals);
    forall c: ChunkKey
      ensures c in all <==> c in all'
      ensures c in all ==> SameChunk(db.chunks, db'.chunks, c) && c.doc != id && SameDoc(db, db', c.doc)
    {
      CandidatesIff(pieces, db, org, principals, c);
      CandidatesIff(pieces, db', org, principals, c);
      if c.doc != id {
        assert SameDoc(db, db', c.doc) && SameChunk(db.chunks, db'.chunks, c);
      }
    }
    assert all == all';
    SameDistances(all, DistanceOf(db, metric), DistanceOf(db', metric), k, r);
  }

  lemma SameDistances(all: set<ChunkKey>, f: ChunkKey -> real, g: ChunkKey -> real, k: nat, r: seq<ChunkKey>)
    requires forall c :: c in all ==> f(c) == g(c)
    ensures IsAnswer(all, f, k, r) <==> IsAnswer(all, g, k, r)
  {
  }
}
