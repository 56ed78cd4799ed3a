/** The durable job queue (knowledge_desk/jobs.py). A table is a map from row id to row, and
    each call is one transaction, so a claim that skips locked rows is one step. */
module Jobs {
  import opened Text

  type Id = nat

  datatype Status = Queued | Running | Succeeded | Dead

  datatype Job = Job(
    org: nat, kind: string, payload: nat, key: string,
    status: Status, attempts: nat, maxAttempts: nat,
    runAfter: real, createdAt: real, updatedAt: real, lastError: Option<string>)

  type Rows = map<Id, Job>

  predicate Finished(j: Job) { j.status == Succeeded || j.status == Dead }

  /** The `where` clause of the claim. */
  predicate Due(j: Job, now: real, stale: real) {
    || (j.status == Queued && j.runAfter <= now)
    || (j.status == Running && j.updatedAt < now - stale)
  }

  predicate OldestDue(rows: Rows, id: Id, now: real, stale: real) {
    && id in rows && Due(rows[id], now, stale)
    && forall other :: other in rows && Due(rows[other], now, stale) ==> rows[id].createdAt <= rows[other].createdAt
  }

  predicate Claimable(rows: Rows, now: real, stale: real) {
    exists id :: id in rows && Due(rows[id], now, stale)
  }

  /** What `seconds_until_due` takes the minimum of. */
  function DueAt(j: Job, stale: real): real {
    if j.status == Running then j.updatedAt + stale else j.runAfter
  }

  predicate Earliest(rows: Rows, id: Id, stale: real) {
    && id in rows && !Finished(rows[id])
    && forall other :: other in rows && !Finished(rows[other]) ==> DueAt(rows[id], stale) <= DueAt(rows[other], stale)
  }

  predicate AllFinished(rows: Rows) {
    forall id :: id in rows ==> Finished(rows[id])
  }

  predicate KeyTaken(rows: Rows, key: string) {
    exists id :: id in rows && rows[id].key == key
  }

  // ---- the row updates ---------------------------------------------------------------

  function NewJob(org: nat, kind: string, payload: nat, key: string, maxAttempts: nat, now: real): Job {
    Job(org, kind, payload, key, Queued, 0, maxAttempts, now, now, now, None)
  }

  function Claimed(j: Job, now: real): Job {
    j.(status := Running, attempts := j.attempts + 1, updatedAt := now)
  }

  function SucceededJob(j: Job, now: real): Job {
    j.(status := Succeeded, lastError := None, updatedAt := now)
  }

  function Pow2(n: nat): nat {
    if n == 0 then 1 else 2 * Pow2(n - 1)
  }

  function BackoffSeconds(attempts: nat): (r: nat)
    ensures 1 <= r <= 300
    ensures r == 300 <==> attempts >= 9
    ensures attempts <= 8 ==> r == Pow2(attempts)
  {
    Pow2Grows(attempts);
    if Pow2(attempts) < 300 then Pow2(attempts) else 300
  }

  lemma {:induction false} Pow2Grows(n: nat)
    ensures Pow2(n) >= 1
    ensures n <= 8 ==> Pow2(n) <= 256
    ensures n >= 9 ==> Pow2(n) >= 512
  {
    if 0 < n {
      Pow2Grows(n - 1);
      if n <= 8 {
        assert Pow2(0) == 1 && Pow2(1) == 2 && Pow2(2) == 4 && Pow2(3) == 8 && Pow2(4) == 16;
        assert Pow2(5) == 32 && Pow2(6) == 64 && Pow2(7) == 128 && Pow2(8) == 256;
      } else if n == 9 {
        assert Pow2(5) == 32 && Pow2(8) == 8 * Pow2(5);
      }
    }
  }

  function FailedJob(j: Job, error: string, now: real, backoff: Option<nat>): Job {
    if j.attempts >= j.maxAttempts then j.(status := Dead, lastError := Some(error), updatedAt := now)
    else
      var delay := if backoff.Some? then backoff.value else BackoffSeconds(j.attempts);
      j.(status := Queued, lastError := Some(error), runAfter := now + delay as real, updatedAt := now)
  }

  // ---- the smallest of a finite set --------------------------------------------------

  /** A non-empty finite set has a member whose measure is least. */
  lemma {:induction false} LeastExists(ids: set<Id>, f: Id -> real) returns (least: Id)
    requires ids != {}
    ensures least in ids && forall x :: x in ids ==> f(least) <= f(x)
    decreases |ids|
  {
    var x :| x in ids;
    if ids == {x} {
      least := x;
    } else {
      assert x !in ids - {x} && ids == ids - {x} + {x};
      var y := LeastExists(ids - {x}, f);
      least := if f(x) <= f(y) then x else y;
    }
  }

  lemma OldestDueExists(rows: Rows, now: real, stale: real)
    requires Claimable(rows, now, stale)
    ensures exists id :: id in rows && OldestDue(rows, id, now, stale)
  {
    var due := set id | id in rows && Due(rows[id], now, stale);
    var some :| some in rows && Due(rows[some], now, stale);
    assert some in due;
    var created := (id: Id) => if id in rows then rows[id].createdAt else 0.0;
    var least := LeastExists(due, created);
    forall other | other in rows && Due(rows[other], now, stale)
      ensures rows[least].createdAt <= rows[other].createdAt
    {
      assert other in due && created(least) <= created(other);
    }
    assert OldestDue(rows, least, now, stale);
  }

  lemma EarliestExists(rows: Rows, stale: real)
    requires !AllFinished(rows)
    ensures exists id :: id in rows && Earliest(rows, id, stale)
  {
    var open := set id | id in rows && !Finished(rows[id]);
    var some :| some in rows && !Finished(rows[some]);
    assert some in open;
    var at := (id: Id) => if id in rows then DueAt(rows[id], stale) else 0.0;
    var least := LeastExists(open, at);
    forall other | other in rows && !Finished(rows[other])
      ensures DueAt(rows[least], stale) <= DueAt(rows[other], stale)
    {
      assert other in open && at(least) <= at(other);
    }
    assert Earliest(rows, least, stale);
  }

  // ---- the queue ---------------------------------------------------------------------

  datatype Claim = Claim(id: Id, job: Job)

  class JobQueue {
    var rows: Rows
    var nextId: Id
    const stale: real
    const defaultMax: nat

    /** Row ids are below the next one, and no two rows share an idempotency key. */
    ghost predicate Valid()
      reads this
    {
      && (forall id :: id in rows ==> id < nextId)
      && (forall a, b :: a in rows && b in rows && rows[a].key == rows[b].key ==> a == b)
    }

    constructor (stale: real, defaultMax: nat)
      ensures Valid() && rows == map[] && this.stale == stale && this.defaultMax == defaultMax
    {
      rows, nextId, this.stale, this.defaultMax := map[], 0, stale, defaultMax;
    }

    method Enqueue(org: nat, kind: string, payload: nat, key: string, maxAttempts: Option<nat>, now: real)
      returns (created: bool)
      requires Valid()
      modifies this
      ensures Valid()
      ensures created <==> !KeyTaken(old(rows), key)
      ensures !created ==> rows == old(rows) && nextId == old(nextId)
      ensures created ==>
                && nextId == old(nextId) + 1
                && rows == old(rows)[
                     old(nextId) := NewJob(org, kind, payload, key, Attempts(maxAttempts, defaultMax), now)]
      ensures KeyTaken(rows, key)
    {
      created := forall id :: id in rows ==> rows[id].key != key;
      if created {
        rows := rows[nextId := NewJob(org, kind, payload, key, Attempts(maxAttempts, defaultMax), now)];
        assert rows[nextId].key == key;
        nextId := nextId + 1;
      }
    }

    method ClaimOne(now: real) returns (r: Option<Claim>)
      requires Valid()
      modifies this`rows
      ensures Valid() && nextId == old(nextId)
      ensures r.None? <==> !Claimable(old(rows), now, stale)
      ensures r.None? ==> rows == old(rows)
      ensures r.Some? ==>
                && OldestDue(old(rows), r.value.id, now, stale)
                && r.value.job == Claimed(old(rows)[r.value.id], now)
                && rows == old(rows)[r.value.id := r.value.job]
    {
      if exists id :: id in rows && Due(rows[id], now, stale) {
        OldestDueExists(rows, now, stale);
        var id :| id in rows && OldestDue(rows, id, now, stale);
        rows := rows[id := Claimed(rows[id], now)];
        return Some(Claim(id, rows[id]));
      }
      return None;
    }

    method SecondsUntilDue(now: real) returns (wait: Option<real>)
      ensures wait.None? <==> AllFinished(rows)
      ensures wait.Some? ==> wait.value >= 0.0 && IsWait(rows, now, stale, wait.value)
    {
      if forall id :: id in rows ==> Finished(rows[id]) {
        return None;
      }
      EarliestExists(rows, stale);
      var id :| id in rows && Earliest(rows, id, stale);
      var left := DueAt(rows[id], stale) - now;
      return Some(if left < 0.0 then 0.0 else left);
    }

    method MarkSucceeded(id: Id, now: real)
      requires Valid()
      modifies this`rows
      ensures Valid() && nextId == old(nextId)
      ensures rows == if id in old(rows) then old(rows)[id := SucceededJob(old(rows)[id], now)] else old(rows)
    {
      if id in rows {
        rows := rows[id := SucceededJob(rows[id], now)];
      }
    }

    method MarkFailed(id: Id, error: string, backoff: Option<nat>, now: real) returns (outcome: Status)
      requires Valid()
      modifies this`rows
      ensures Valid() && nextId == old(nextId)
      ensures id !in old(rows) ==> outcome == Dead && rows == old(rows)
      ensures id in old(rows) ==>
                && outcome == FailedJob(old(rows)[id], error, now, backoff).status
                && rows == old(rows)[id := FailedJob(old(rows)[id], error, now, backoff)]
    {
      if id !in rows {
        return Dead;
      }
      rows := rows[id := FailedJob(rows[id], error, now, backoff)];
      return rows[id].status;
    }
  }

  /** `max_attempts or settings.job_max_attempts`: zero counts as not given. */
  function Attempts(maxAttempts: Option<nat>, fallback: nat): nat {
    if maxAttempts.Some? && maxAttempts.value != 0 then maxAttempts.value else fallback
  }

  /** `wait` is the time from `now` to the earliest due time, or zero when that has passed. */
  ghost predicate IsWait(rows: Rows, now: real, stale: real, wait: real) {
    exists id :: id in rows && Earliest(rows, id, stale)
                 && wait == if DueAt(rows[id], stale) < now then 0.0 else DueAt(rows[id], stale) - now
  }

  // ---- what the reported wait is worth -----------------------------------------------

  /** A job whose claim is exactly at the edge of going stale counts as due for
      `seconds_until_due` and not yet for the claim. */
  predicate AtTheEdge(j: Job, now: real, stale: real) {
    j.status == Running && j.updatedAt + stale == now
  }

  /** No wait is reported exactly when nothing would ever become claimable by itself. */
  lemma NoWaitIff(rows: Rows, stale: real)
    ensures AllFinished(rows) <==> forall t: real :: !Claimable(rows, t, stale)
  {
    if !AllFinished(rows) {
      var id :| id in rows && !Finished(rows[id]);
      var t := DueAt(rows[id], stale) + 1.0;
      assert Due(rows[id], t, stale);
      assert Claimable(rows, t, stale);
    }
  }

  /** If nothing changes meanwhile, no claim succeeds before the reported wait is over, every
      claim after it does, and one at its very end does unless all that is due by then is a
      lease at its edge. */
  lemma WaitIsExact(rows: Rows, now: real, stale: real, wait: real, t: real)
    requires IsWait(rows, now, stale, wait) && wait >= 0.0 && t >= now
    ensures t < now + wait ==> !Claimable(rows, t, stale)
    ensures t > now + wait ==> Claimable(rows, t, stale)
    ensures t == now + wait ==>
              (Claimable(rows, t, stale)
               <==> exists id :: id in rows && !Finished(rows[id])
                                 && DueAt(rows[id], stale) <= t && !AtTheEdge(rows[id], t, stale))
  {
    var id :| id in rows && Earliest(rows, id, stale)
              && wait == if DueAt(rows[id], stale) < now then 0.0 else DueAt(rows[id], stale) - now;
    if t > now + wait {
      assert Due(rows[id], t, stale);
    }
    if t == now + wait && Claimable(rows, t, stale) {
      var c :| c in rows && Due(rows[c], t, stale);
      assert !AtTheEdge(rows[c], t, stale);
    }
    if e :| e in rows && DueAt(rows[e], stale) <= t && !Finished(rows[e]) && !AtTheEdge(rows[e], t, stale) {
      assert Due(rows[e], t, stale);
    }
  }

  /** So the documented "zero if a job is due now" holds exactly when some due job is not such
      an edge case: this queue reports zero and hands nothing out. */
  lemma ZeroWaitAtTheEdge(stale: real)
    requires stale > 0.0
    ensures var rows: Rows := map[0 := Claimed(NewJob(0, "", 0, "", 3, 0.0), 0.0)];
            IsWait(rows, stale, stale, 0.0) && !Claimable(rows, stale, stale)
  {
    var rows: Rows := map[0 := Claimed(NewJob(0, "", 0, "", 3, 0.0), 0.0)];
    assert Earliest(rows, 0, stale);
  }
}
