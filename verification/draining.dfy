/** Running the queue down: `run_pending` and `drain` when nothing else touches the queue
    (knowledge_desk/ingest.py:194-216, knowledge_desk/worker.py:40-68). */
module Draining {
  import opened Text
  import opened Jobs
  import opened Sums

  // ---- how much work is left ---------------------------------------------------------

  /** The most handler runs a queued job can still have. */
  function RunsLeft(j: Job): nat {
    if j.status != Queued then 0
    else if j.attempts < j.maxAttempts then j.maxAttempts - j.attempts
    else 1
  }

  function RunsLeftIn(rows: Rows): nat -> nat {
    (id: nat) => if id in rows then RunsLeft(rows[id]) else 0
  }

  function TotalRunsLeft(rows: Rows, n: nat): nat {
    SumTo(RunsLeftIn(rows), n)
  }

  predicate NoneRunning(rows: Rows) {
    forall id :: id in rows ==> rows[id].status != Running
  }

  /** Nothing is added, dropped or reopened. */
  predicate Continues(before: Rows, after: Rows) {
    && before.Keys == after.Keys
    && forall id :: id in before && Finished(before[id]) ==> after[id] == before[id]
  }

  lemma TotalChange(rows: Rows, id: Id, j: Job, n: nat)
    requires id in rows && id < n
    ensures TotalRunsLeft(rows[id := j], n) + RunsLeft(rows[id]) == TotalRunsLeft(rows, n) + RunsLeft(j)
  {
    SumChange(RunsLeftIn(rows), RunsLeftIn(rows[id := j]), n, id);
  }

  /** A claim and its mark use up at least one run of that job. */
  lemma RunUsesOne(j: Job, ok: bool, error: string, claimedAt: real, markedAt: real)
    requires j.status == Queued
    ensures var after := if ok then SucceededJob(Claimed(j, claimedAt), markedAt)
                         else FailedJob(Claimed(j, claimedAt), error, markedAt, None);
            RunsLeft(after) + 1 <= RunsLeft(j) && after.status != Running
  {
  }

  /** From `before` to `rows`, with `runs` handler runs on the way. */
  ghost predicate Ran(before: Rows, rows: Rows, n: nat, runs: nat) {
    NoneRunning(rows) && Continues(before, rows) && TotalRunsLeft(rows, n) + runs <= TotalRunsLeft(before, n)
  }

  lemma OneMoreRun(before: Rows, rows: Rows, n: nat, runs: nat, id: Id, ok: bool, claimedAt: real, markedAt: real,
                   stale: real)
    requires Ran(before, rows, n, runs) && id in rows && id < n && Due(rows[id], claimedAt, stale)
    ensures var after := if ok then SucceededJob(Claimed(rows[id], claimedAt), markedAt)
                         else FailedJob(Claimed(rows[id], claimedAt), "error", markedAt, None);
            Ran(before, rows[id := after], n, runs + 1)
  {
    RunUsesOne(rows[id], ok, "error", claimedAt, markedAt);
    MarkedRun(before, rows, n, runs, id, if ok then SucceededJob(Claimed(rows[id], claimedAt), markedAt)
                                         else FailedJob(Claimed(rows[id], claimedAt), "error", markedAt, None));
  }

  lemma MarkedRun(before: Rows, rows: Rows, n: nat, runs: nat, id: Id, after: Job)
    requires Ran(before, rows, n, runs) && id in rows && id < n && !Finished(rows[id])
    requires after.status != Running && RunsLeft(after) + 1 <= RunsLeft(rows[id])
    ensures Ran(before, rows[id := after], n, runs + 1)
  {
    TotalChange(rows, id, after, n);
  }

  lemma SetTwice<K, V>(m: map<K, V>, k: K, v: V, w: V)
    ensures m[k := v][k := w] == m[k := w]
  {
  }

  lemma DueStaysDue(rows: Rows, now: real, later: real, stale: real)
    requires Claimable(rows, now, stale) && now <= later
    ensures Claimable(rows, later, stale)
  {
    var id :| id in rows && Due(rows[id], now, stale);
    assert Due(rows[id], later, stale);
  }

  // ---- the loops ---------------------------------------------------------------------

  /** What one drain sees of the outside: how each handler run turns out, and how long each
      call takes. */
  datatype Outside = Outside(handled: (Id, nat) -> bool, takes: nat -> real)

  ghost predicate TimeMovesOn(o: Outside) {
    forall call: nat :: o.takes(call) >= 0.0
  }

  datatype Counts = Counts(processed: nat, succeeded: nat, requeued: nat, dead: nat)

  function Counted(counts: Counts, outcome: Status): (r: Counts)
    ensures r.processed == counts.processed + 1
    ensures r.succeeded + r.requeued + r.dead == counts.succeeded + counts.requeued + counts.dead + 1
  {
    var c := counts.(processed := counts.processed + 1);
    match outcome
    case Succeeded => c.(succeeded := c.succeeded + 1)
    case Dead => c.(dead := c.dead + 1)
    case _ => c.(requeued := c.requeued + 1)
  }

  const KNOWN_KIND := "ingest_document"

  method RunPending(q: JobQueue, o: Outside, maxJobs: nat, start: real, firstCall: nat)
    returns (counts: Counts, now: real, call: nat)
    requires q.Valid() && NoneRunning(q.rows) && TimeMovesOn(o)
    modifies q`rows
    ensures q.Valid() && q.nextId == old(q.nextId) && now >= start
    ensures Ran(old(q.rows), q.rows, q.nextId, counts.processed)
    ensures counts.processed == counts.succeeded + counts.requeued + counts.dead <= maxJobs
    ensures Claimable(old(q.rows), start, q.stale) && maxJobs > 0 ==> counts.processed > 0
    ensures counts.processed < maxJobs ==> !Claimable(q.rows, now, q.stale)
  {
    counts, now, call := Counts(0, 0, 0, 0), start, firstCall;
    while counts.processed < maxJobs
      invariant q.Valid() && q.nextId == old(q.nextId) && now >= start
      invariant Ran(old(q.rows), q.rows, q.nextId, counts.processed)
      invariant counts.processed == counts.succeeded + counts.requeued + counts.dead <= maxJobs
      invariant counts.processed == 0 ==> q.rows == old(q.rows)
    {
      if Claimable(q.rows, start, q.stale) {
        DueStaysDue(q.rows, start, now, q.stale);
      }
      ghost var rows := q.rows;
      var outcome;
      outcome, now, call := RunNext(q, o, now, call);
      if outcome.None? {
        break;
      }
      ghost var runs := counts.processed;
      counts := Counted(counts, outcome.value);
      RanOnceMore(old(q.rows), rows, q.rows, q.nextId, runs, counts.processed);
    }
  }

  lemma RanOnceMore(before: Rows, rows: Rows, after: Rows, n: nat, runs: nat, total: nat)
    requires Ran(before, rows, n, runs) && Ran(rows, after, n, 1) && total == runs + 1
    ensures Ran(before, after, n, total)
  {
  }

  /** The body of the loop: claim a job, run the handler, mark the job. */
  method RunNext(q: JobQueue, o: Outside, start: real, firstCall: nat)
    returns (outcome: Option<Status>, now: real, call: nat)
    requires q.Valid() && NoneRunning(q.rows) && TimeMovesOn(o)
    modifies q`rows
    ensures q.Valid() && q.nextId == old(q.nextId) && now >= start
    ensures outcome.None? <==> !Claimable(old(q.rows), start, q.stale)
    ensures outcome.None? ==> q.rows == old(q.rows) && now == start
    ensures outcome.Some? ==> Ran(old(q.rows), q.rows, q.nextId, 1)
  {
    now, call := start, firstCall;
    var claim := q.ClaimOne(now);
    if claim.None? {
      return None, now, call;
    }
    var id, job := claim.value.id, claim.value.job;
    now, call := now + o.takes(call), call + 1;
    var ok := job.kind == KNOWN_KIND && o.handled(id, job.attempts);
    var status;
    if ok {
      q.MarkSucceeded(id, now);
      status := Succeeded;
    } else {
      status := q.MarkFailed(id, "error", None, now);
    }
    RanNone(old(q.rows), q.nextId);
    OneMoreRun(old(q.rows), old(q.rows), q.nextId, 0, id, ok, start, now, q.stale);
    SetTwice(old(q.rows), id, job, q.rows[id]);
    outcome := Some(status);
  }

  lemma RanNone(rows: Rows, n: nat)
    requires NoneRunning(rows)
    ensures Ran(rows, rows, n, 0)
  {
  }

  const MAX_JOBS: nat := 1000

  /** `wakes` are the rounds whose wait a kick cuts short. The drain always comes to an end,
      having run handlers at most as often as the queued jobs had attempts left, and unless it
      was asked for one pass only it leaves no job queued or running. */
  method Drain(q: JobQueue, o: Outside, once: bool, start: real, wakes: set<nat>) returns (runs: nat)
    requires q.Valid() && NoneRunning(q.rows) && TimeMovesOn(o)
    modifies q`rows
    ensures q.Valid() && q.nextId == old(q.nextId) && Ran(old(q.rows), q.rows, q.nextId, runs)
    ensures !once ==> AllFinished(q.rows)
  {
    runs := 0;
    var now, call, left, turn := start, 0, wakes, 0;
    ghost var due := false;
    while true
      invariant q.Valid() && q.nextId == old(q.nextId) && Ran(old(q.rows), q.rows, q.nextId, runs)
      invariant due ==> Claimable(q.rows, now, q.stale)
      decreases TotalRunsLeft(q.rows, q.nextId), |left|, if due then 0 else 1
    {
      var counts;
      counts, now, call := RunPending(q, o, MAX_JOBS, now, call);
      runs := runs + counts.processed;
      if once {
        return;
      }
      var wait := q.SecondsUntilDue(now);
      if wait.None? {
        return;
      }
      due := turn !in left;
      if turn in left {
        left := left - {turn};
      } else {
        WaitedOut(q.rows, now, q.stale, wait.value);
        now := now + wait.value;
      }
      turn := turn + 1;
    }
  }

  /** With no job running there is no lease to be at its edge, so waiting out the reported
      time makes a job claimable. */
  lemma WaitedOut(rows: Rows, now: real, stale: real, wait: real)
    requires NoneRunning(rows) && IsWait(rows, now, stale, wait) && wait >= 0.0
    ensures Claimable(rows, now + wait, stale)
  {
    var id :| id in rows && Earliest(rows, id, stale)
              && wait == if DueAt(rows[id], stale) < now then 0.0 else DueAt(rows[id], stale) - now;
    assert Due(rows[id], now + wait, stale);
  }

  /** While every queued job has attempts to spare, the bound is the sum of what each has
      left, and it is zero exactly when nothing is queued. */
  lemma NothingLeftIff(rows: Rows, n: nat)
    requires forall id :: id in rows ==> id < n
    ensures TotalRunsLeft(rows, n) == 0 <==> forall id :: id in rows ==> rows[id].status != Queued
  {
    if TotalRunsLeft(rows, n) == 0 {
      SumIsZero(RunsLeftIn(rows), n);
      forall id | id in rows ensures rows[id].status != Queued {
        assert RunsLeftIn(rows)(id) == 0;
      }
    } else {
      PositiveTerm(RunsLeftIn(rows), n);
    }
  }
}
