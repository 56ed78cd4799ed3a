/** The queue as a lease protocol: many workers, time, and workers that die
    (knowledge_desk/jobs.py:53-139, knowledge_desk/config.py:49-52). */
module Lease {
  import opened Text
  import opened Jobs

  type Worker = nat

  /** What a live worker has in hand: the job it claimed, and when. */
  datatype Hold = Hold(job: Id, since: real)

  /** `claims` and `deaths` count, per job, the claims ever made and the workers that died
      holding it. They are history; the code keeps neither. */
  datatype World = World(
    now: real, rows: Rows, nextId: Id, holds: map<Worker, Hold>,
    claims: map<Id, nat>, deaths: map<Id, nat>)

  datatype Config = Config(stale: real, defaultMax: nat)

  datatype Step =
    | Tick(passed: real)
    | Enqueue(org: nat, kind: string, payload: nat, key: string, maxAttempts: Option<nat>)
    | ClaimOne(worker: Worker, id: Id)
    | MarkSucceeded(worker: Worker)
    | MarkFailed(worker: Worker, error: string, backoff: Option<nat>)
    | Die(worker: Worker)
    | DropOrg(org: nat)

  predicate Enabled(c: Config, w: World, s: Step) {
    match s
    case Tick(passed) => passed >= 0.0
    case Enqueue(_, _, _, key, _) => !KeyTaken(w.rows, key)
    case ClaimOne(worker, id) => worker !in w.holds && OldestDue(w.rows, id, w.now, c.stale)
    case MarkSucceeded(worker) => worker in w.holds
    case MarkFailed(worker, _, _) => worker in w.holds
    case Die(worker) => worker in w.holds
    case DropOrg(_) => true
  }

  function Marked(w: World, worker: Worker, f: Job -> Job): World
    requires worker in w.holds
  {
    var id := w.holds[worker].job;
    w.(rows := if id in w.rows then w.rows[id := f(w.rows[id])] else w.rows, holds := w.holds - {worker})
  }

  /** The effect of a step. Neither mark looks at who holds the job or at its status. */
  function After(c: Config, w: World, s: Step): World
    requires Enabled(c, w, s)
  {
    match s
    case Tick(passed) => w.(now := w.now + passed)
    case Enqueue(org, kind, payload, key, maxAttempts) =>
      w.(rows := w.rows[w.nextId := NewJob(org, kind, payload, key, Attempts(maxAttempts, c.defaultMax), w.now)],
         nextId := w.nextId + 1, claims := w.claims[w.nextId := 0], deaths := w.deaths[w.nextId := 0])
    case ClaimOne(worker, id) =>
      w.(rows := w.rows[id := Claimed(w.rows[id], w.now)],
         holds := w.holds[worker := Hold(id, w.now)],
         claims := if id in w.claims then w.claims[id := w.claims[id] + 1] else w.claims)
    case MarkSucceeded(worker) => Marked(w, worker, j => SucceededJob(j, w.now))
    case MarkFailed(worker, error, backoff) => Marked(w, worker, j => FailedJob(j, error, w.now, backoff))
    case Die(worker) =>
      var id := w.holds[worker].job;
      w.(holds := w.holds - {worker}, deaths := if id in w.deaths then w.deaths[id := w.deaths[id] + 1] else w.deaths)
    case DropOrg(org) => w.(rows := map id | id in w.rows && w.rows[id].org != org :: w.rows[id])
  }

  function Start(now: real): World {
    World(now, map[], 0, map[], map[], map[])
  }

  /** `run[i + 1]` is `run[i]` after `steps[i]`. */
  ghost predicate IsRun(c: Config, run: seq<World>, steps: seq<Step>) {
    && |run| == |steps| + 1 && run[0] == Start(run[0].now)
    && forall i :: 0 <= i < |steps| ==> Takes(c, run[i], steps[i], run[i + 1])
  }

  predicate Takes(c: Config, w: World, s: Step, w': World) {
    Enabled(c, w, s) && w' == After(c, w, s)
  }

  // ---- one holder --------------------------------------------------------------------

  predicate Held(w: World, id: Id) {
    exists worker :: worker in w.holds && w.holds[worker].job == id
  }

  predicate OneHolder(w: World) {
    forall a, b :: a in w.holds && b in w.holds && w.holds[a].job == w.holds[b].job ==> a == b
  }

  /** The step hands out a job whose live holder has outstayed the stale window. */
  predicate ClaimsOverdue(c: Config, w: World, s: Step) {
    && s.ClaimOne?
    && exists worker :: worker in w.holds && w.holds[worker].job == s.id && w.now > w.holds[worker].since + c.stale
  }

  /** What a live worker can rely on about the job in its hands. */
  predicate HoldOk(w: World, h: Hold) {
    h.job < w.nextId && (h.job in w.rows ==> w.rows[h.job].status == Running && w.rows[h.job].updatedAt == h.since)
  }

  predicate IdsOk(w: World) {
    forall id :: id in w.rows ==> id < w.nextId
  }

  /** What every step keeps that gives no job a second holder. */
  ghost predicate HoldsOk(w: World) {
    && OneHolder(w) && IdsOk(w)
    && (forall worker :: worker in w.holds ==> HoldOk(w, w.holds[worker]))
  }

  /** A claim of a job in someone's hands is a claim of an overdue one. */
  lemma HeldClaimIsOverdue(c: Config, w: World, worker: Worker, id: Id)
    requires HoldsOk(w) && Enabled(c, w, ClaimOne(worker, id)) && Held(w, id)
    ensures ClaimsOverdue(c, w, ClaimOne(worker, id))
  {
    var h :| h in w.holds && w.holds[h].job == id;
    assert HoldOk(w, w.holds[h]);
  }

  /** The one step that gives a job a second holder. */
  lemma DoubleHoldIff(c: Config, w: World, s: Step)
    requires HoldsOk(w) && Enabled(c, w, s)
    ensures !OneHolder(After(c, w, s)) <==> ClaimsOverdue(c, w, s)
    ensures OneHolder(After(c, w, s)) ==> HoldsOk(After(c, w, s))
  {
    var w' := After(c, w, s);
    if s.ClaimOne? {
      if Held(w, s.id) {
        HeldClaimIsOverdue(c, w, s.worker, s.id);
        var h :| h in w.holds && w.holds[h].job == s.id;
        assert w'.holds[h].job == w'.holds[s.worker].job && h != s.worker;
      } else {
        assert OneHolder(w');
      }
    } else {
      assert w'.holds.Keys <= w.holds.Keys;
      assert OneHolder(w');
    }
    if OneHolder(w') {
      HoldsStay(c, w, s);
    }
  }

  lemma HoldsStay(c: Config, w: World, s: Step)
    requires HoldsOk(w) && Enabled(c, w, s) && OneHolder(After(c, w, s))
    ensures HoldsOk(After(c, w, s))
  {
    var w' := After(c, w, s);
    forall worker | worker in w'.holds ensures HoldOk(w', w'.holds[worker]) {
      if !(s.ClaimOne? && worker == s.worker) {
        assert HoldOk(w, w.holds[worker]);
        if s.ClaimOne? {
          assert w'.holds[worker].job != w'.holds[s.worker].job;
        }
      }
    }
  }

  lemma {:induction false} HoldsInRun(c: Config, run: seq<World>, steps: seq<Step>, i: nat)
    requires IsRun(c, run, steps) && i < |run|
    requires (forall k :: 0 <= k <= i ==> OneHolder(run[k])) || NeverOverdue(c, run, steps, i)
    ensures HoldsOk(run[i])
  {
    if i > 0 {
      HoldsInRun(c, run, steps, i - 1);
      assert Takes(c, run[i - 1], steps[i - 1], run[i - 1 + 1]);
      DoubleHoldIff(c, run[i - 1], steps[i - 1]);
    }
  }

  /** None of the first `n` steps claims a job from an overdue worker. */
  ghost predicate NeverOverdue(c: Config, run: seq<World>, steps: seq<Step>, n: nat)
    requires n <= |steps| && n <= |run|
  {
    forall k :: 0 <= k < n ==> !ClaimsOverdue(c, run[k], steps[k])
  }

  /** Whatever the workers do, a job first gets a second live holder in the step, and only in
      the step, that claims it from one who has outstayed the stale window. */
  lemma FirstDoubleHold(c: Config, run: seq<World>, steps: seq<Step>, i: nat)
    requires IsRun(c, run, steps) && i < |steps| && forall k :: 0 <= k <= i ==> OneHolder(run[k])
    ensures !OneHolder(run[i + 1]) <==> ClaimsOverdue(c, run[i], steps[i])
  {
    HoldsInRun(c, run, steps, i);
    assert Takes(c, run[i], steps[i], run[i + 1]);
    DoubleHoldIff(c, run[i], steps[i]);
  }

  /** So no job ever has two live holders if and only if no claim takes one from an overdue
      worker. */
  lemma OneHolderIff(c: Config, run: seq<World>, steps: seq<Step>)
    requires IsRun(c, run, steps)
    ensures (forall i :: 0 <= i < |run| ==> OneHolder(run[i])) <==> NeverOverdue(c, run, steps, |steps|)
  {
    if forall i :: 0 <= i < |run| ==> OneHolder(run[i]) {
      forall k | 0 <= k < |steps| ensures !ClaimsOverdue(c, run[k], steps[k]) {
        FirstDoubleHold(c, run, steps, k);
      }
    }
    if NeverOverdue(c, run, steps, |steps|) {
      forall i | 0 <= i < |run| ensures OneHolder(run[i]) {
        HoldsInRun(c, run, steps, i);
      }
    }
  }

  // ---- workers in time ---------------------------------------------------------------

  /** The assumption the configuration states: no live worker is still at a job when its lease
      goes stale. Only the passing of time can break it. */
  predicate InTime(c: Config, w: World, s: Step) {
    s.Tick? ==> forall worker :: worker in w.holds ==> w.now + s.passed <= w.holds[worker].since + c.stale
  }

  /** Every live worker marks its job within the stale window of its claim. */
  ghost predicate AllInTime(c: Config, run: seq<World>, steps: seq<Step>, n: nat)
    requires n <= |steps| && n <= |run|
  {
    forall i :: 0 <= i < n ==> InTime(c, run[i], steps[i])
  }

  predicate NoneLate(c: Config, w: World) {
    forall worker :: worker in w.holds ==> w.now <= w.holds[worker].since + c.stale
  }

  lemma {:induction false} NoneLateInRun(c: Config, run: seq<World>, steps: seq<Step>, i: nat)
    requires c.stale >= 0.0 && IsRun(c, run, steps) && i < |run| && AllInTime(c, run, steps, i)
    ensures NoneLate(c, run[i])
  {
    if i > 0 {
      NoneLateInRun(c, run, steps, i - 1);
      assert Takes(c, run[i - 1], steps[i - 1], run[i - 1 + 1]);
      assert InTime(c, run[i - 1], steps[i - 1]);
    }
  }

  /** Workers in time are enough, and more than enough: a late worker does no harm until its job
      is claimed from it. */
  lemma InTimeIsNeverOverdue(c: Config, run: seq<World>, steps: seq<Step>, n: nat)
    requires c.stale >= 0.0 && IsRun(c, run, steps) && n <= |steps| && AllInTime(c, run, steps, n)
    ensures NeverOverdue(c, run, steps, n)
  {
    forall k | 0 <= k < n ensures !ClaimsOverdue(c, run[k], steps[k]) {
      NoneLateInRun(c, run, steps, k);
    }
  }

  // ---- the invariant -----------------------------------------------------------------

  /** Attempts count claims, and claims beyond the maximum are paid for by deaths. */
  predicate JobOk(w: World, id: Id)
    requires id in w.rows
  {
    var j := w.rows[id];
    && id in w.claims && id in w.deaths
    && w.claims[id] == j.attempts && j.attempts <= j.maxAttempts + w.deaths[id]
    && (j.status == Queued ==> j.attempts < j.maxAttempts)
    && (j.status == Running && !Held(w, id) ==> j.attempts < j.maxAttempts + w.deaths[id])
  }

  ghost predicate Inv(w: World) {
    HoldsOk(w) && (forall id :: id in w.rows ==> JobOk(w, id))
  }

  lemma ClaimKeeps(c: Config, w: World, worker: Worker, id: Id)
    requires Inv(w) && Enabled(c, w, ClaimOne(worker, id)) && !ClaimsOverdue(c, w, ClaimOne(worker, id))
    ensures var w' := After(c, w, ClaimOne(worker, id)); forall x :: x in w'.rows ==> JobOk(w', x)
  {
    if Held(w, id) {
      HeldClaimIsOverdue(c, w, worker, id);
    }
    var w' := After(c, w, ClaimOne(worker, id));
    assert JobOk(w, id);
    assert w'.holds[worker].job == id;
    forall x | x in w'.rows ensures JobOk(w', x) {
      assert JobOk(w, x);
      if x != id && Held(w, x) {
        var h :| h in w.holds && w.holds[h].job == x;
        assert w'.holds[h].job == x;
      }
    }
  }

  lemma MarkKeeps(w: World, worker: Worker, f: Job -> Job)
    requires Inv(w) && worker in w.holds
    requires forall j: Job :: MarkOk(j, f(j))
    ensures var w' := Marked(w, worker, f); forall x :: x in w'.rows ==> JobOk(w', x)
  {
    var w' := Marked(w, worker, f);
    var id := w.holds[worker].job;
    forall x | x in w'.rows ensures JobOk(w', x) {
      assert JobOk(w, x);
      if x == id {
        assert MarkOk(w.rows[id], f(w.rows[id]));
      } else if Held(w, x) {
        var h :| h in w.holds && w.holds[h].job == x;
        assert w'.holds[h].job == x;
      }
    }
  }

  /** Either mark takes the job out of `running`, and back to the queue only with attempts
      to spare. */
  predicate MarkOk(j: Job, j': Job) {
    && j'.status != Running && j'.attempts == j.attempts && j'.maxAttempts == j.maxAttempts
    && (j'.status == Queued ==> j'.attempts < j'.maxAttempts)
  }

  lemma DieKeeps(c: Config, w: World, worker: Worker)
    requires Inv(w) && worker in w.holds
    ensures var w' := After(c, w, Die(worker)); forall x :: x in w'.rows ==> JobOk(w', x)
  {
    var w' := After(c, w, Die(worker));
    forall x | x in w'.rows ensures JobOk(w', x) {
      assert JobOk(w, x);
      if x != w.holds[worker].job && Held(w, x) {
        var h :| h in w.holds && w.holds[h].job == x;
        assert w'.holds[h].job == x;
      }
    }
  }

  lemma OtherKeeps(c: Config, w: World, s: Step)
    requires c.defaultMax > 0 && Inv(w) && (s.Enqueue? || s.Tick? || s.DropOrg?) && Enabled(c, w, s)
    ensures var w' := After(c, w, s); forall x :: x in w'.rows ==> JobOk(w', x)
  {
    var w' := After(c, w, s);
    forall x | x in w'.rows ensures JobOk(w', x) {
      if x in w.rows {
        assert JobOk(w, x);
      }
    }
  }

  /** Every step that claims nothing from an overdue worker keeps the invariant. */
  lemma StepKeeps(c: Config, w: World, s: Step)
    requires c.defaultMax > 0 && Inv(w) && Enabled(c, w, s) && !ClaimsOverdue(c, w, s)
    ensures Inv(After(c, w, s))
  {
    DoubleHoldIff(c, w, s);
    match s
    case ClaimOne(worker, id) => ClaimKeeps(c, w, worker, id);
    case MarkSucceeded(worker) => MarkKeeps(w, worker, j => SucceededJob(j, w.now));
    case MarkFailed(worker, error, backoff) => MarkKeeps(w, worker, j => FailedJob(j, error, w.now, backoff));
    case Die(worker) => DieKeeps(c, w, worker);
    case _ => OtherKeeps(c, w, s);
  }

  lemma {:induction false} RunKeeps(c: Config, run: seq<World>, steps: seq<Step>, i: nat)
    requires c.defaultMax > 0 && IsRun(c, run, steps) && i < |run| && NeverOverdue(c, run, steps, i)
    ensures Inv(run[i])
  {
    if i > 0 {
      RunKeeps(c, run, steps, i - 1);
      assert Takes(c, run[i - 1], steps[i - 1], run[i - 1 + 1]);
      StepKeeps(c, run[i - 1], steps[i - 1]);
    }
  }

  /** Until a claim takes a job from an overdue worker, at most one live worker holds any job, a
      queued job has attempts to spare, and a job has been claimed at most as often as its maximum
      and the workers that died holding it together. */
  lemma LeaseSafety(c: Config, run: seq<World>, steps: seq<Step>, i: nat, id: Id)
    requires c.defaultMax > 0 && IsRun(c, run, steps) && i < |run| && NeverOverdue(c, run, steps, i)
    ensures OneHolder(run[i])
    ensures id in run[i].rows ==>
              && id in run[i].claims && id in run[i].deaths
              && run[i].claims[id] <= run[i].rows[id].maxAttempts + run[i].deaths[id]
              && (run[i].rows[id].status == Queued ==> run[i].rows[id].attempts < run[i].rows[id].maxAttempts)
  {
    RunKeeps(c, run, steps, i);
    assert id in run[i].rows ==> JobOk(run[i], id);
  }

  /** Until then every mark lands on a job that is running since the marking worker's claim, unless
      its org is gone. */
  lemma MarksLandOnRunning(c: Config, run: seq<World>, steps: seq<Step>, i: nat)
    requires IsRun(c, run, steps) && i < |steps| && NeverOverdue(c, run, steps, i)
    requires steps[i].MarkSucceeded? || steps[i].MarkFailed?
    ensures var w, worker := run[i], steps[i].worker;
            && worker in w.holds
            && (w.holds[worker].job in w.rows ==>
                  var j := w.rows[w.holds[worker].job];
                  j.status == Running && j.updatedAt == w.holds[worker].since)
  {
    HoldsInRun(c, run, steps, i);
    assert Takes(c, run[i], steps[i], run[i + 1]);
    assert HoldOk(run[i], run[i].holds[steps[i].worker]);
  }

  // ---- finished jobs -----------------------------------------------------------------

  lemma {:induction false} IdsInRun(c: Config, run: seq<World>, steps: seq<Step>, i: nat)
    requires IsRun(c, run, steps) && i < |run|
    ensures IdsOk(run[i])
  {
    if i > 0 {
      IdsInRun(c, run, steps, i - 1);
      assert Takes(c, run[i - 1], steps[i - 1], run[i - 1 + 1]);
    }
  }

  lemma {:induction false} IdsNotReused(c: Config, run: seq<World>, steps: seq<Step>, i: nat, k: nat, id: Id)
    requires IsRun(c, run, steps) && i <= k < |run| && id < run[i].nextId && id !in run[i].rows
    ensures id < run[k].nextId && id !in run[k].rows
    decreases k - i
  {
    if i < k {
      assert Takes(c, run[i], steps[i], run[i + 1]);
      var w, s := run[i], steps[i];
      IdsNotReused(c, run, steps, i + 1, k, id);
    }
  }

  /** A row that is here at `i` and at `k` was here all the time. */
  lemma StaysBetween(c: Config, run: seq<World>, steps: seq<Step>, i: nat, k: nat, id: Id)
    requires IsRun(c, run, steps) && i < k < |run| && id in run[i].rows && id in run[k].rows
    ensures id in run[i + 1].rows
  {
    if id !in run[i + 1].rows {
      IdsInRun(c, run, steps, i);
      assert Takes(c, run[i], steps[i], run[i + 1]);
      IdsNotReused(c, run, steps, i + 1, k, id);
    }
  }

  /** A mark of `id` that contradicts how the job ended: success of a dead one, failure of one that
      succeeded or that died with attempts to spare. */
  predicate Contradicts(w: World, s: Step, id: Id)
    requires id in w.rows
  {
    && (s.MarkSucceeded? || s.MarkFailed?) && s.worker in w.holds && w.holds[s.worker].job == id
    && var j := w.rows[id];
       if s.MarkSucceeded? then j.status == Dead
       else j.status == Succeeded || (j.status == Dead && j.attempts < j.maxAttempts)
  }

  /** In any world whatever: a step changes the status of a finished job exactly if it is such a
      mark. */
  lemma FinishedChangesIff(c: Config, w: World, s: Step, id: Id)
    requires IdsOk(w) && Enabled(c, w, s) && id in w.rows && Finished(w.rows[id]) && id in After(c, w, s).rows
    ensures After(c, w, s).rows[id].status != w.rows[id].status <==> Contradicts(w, s, id)
  {
  }

  ghost predicate NothingContradicts(run: seq<World>, steps: seq<Step>) {
    forall k, id :: 0 <= k < |steps| && k < |run| && id in run[k].rows ==> !Contradicts(run[k], steps[k], id)
  }

  /** However a job ended, so it stays. */
  ghost predicate EndingsLast(run: seq<World>) {
    forall i, k, id :: 0 <= i <= k < |run| && id in run[i].rows && id in run[k].rows && Finished(run[i].rows[id])
                       ==> run[k].rows[id].status == run[i].rows[id].status
  }

  lemma {:induction false} EndingLasts(c: Config, run: seq<World>, steps: seq<Step>, i: nat, k: nat, id: Id)
    requires IsRun(c, run, steps) && NothingContradicts(run, steps) && i <= k < |run|
    requires id in run[i].rows && Finished(run[i].rows[id]) && id in run[k].rows
    ensures run[k].rows[id].status == run[i].rows[id].status
    decreases k - i
  {
    if i < k {
      StaysBetween(c, run, steps, i, k, id);
      IdsInRun(c, run, steps, i);
      assert Takes(c, run[i], steps[i], run[i + 1]);
      FinishedChangesIff(c, run[i], steps[i], id);
      EndingLasts(c, run, steps, i + 1, k, id);
    }
  }

  /** In every run, whatever the workers do: no finished job ever changes its status if and only if
      no mark contradicts how a job ended. */
  lemma EndingsLastIff(c: Config, run: seq<World>, steps: seq<Step>)
    requires IsRun(c, run, steps)
    ensures EndingsLast(run) <==> NothingContradicts(run, steps)
  {
    if EndingsLast(run) {
      forall k, id | 0 <= k < |steps| && id in run[k].rows ensures !Contradicts(run[k], steps[k], id) {
        IdsInRun(c, run, steps, k);
        assert Takes(c, run[k], steps[k], run[k + 1]);
        assert Finished(run[k].rows[id]) && id in run[k + 1].rows
               ==> run[k + 1].rows[id].status == run[k].rows[id].status;
        if Contradicts(run[k], steps[k], id) {
          FinishedChangesIff(c, run[k], steps[k], id);
        }
      }
    }
    if NothingContradicts(run, steps) {
      forall i, k, id | 0 <= i <= k < |run| && id in run[i].rows && id in run[k].rows && Finished(run[i].rows[id])
        ensures run[k].rows[id].status == run[i].rows[id].status
      {
        EndingLasts(c, run, steps, i, k, id);
      }
    }
  }

  lemma FinishedStaysOneStep(c: Config, w: World, s: Step, id: Id)
    requires HoldsOk(w) && Enabled(c, w, s) && id in w.rows && Finished(w.rows[id])
    ensures var w' := After(c, w, s); id in w'.rows ==> w'.rows[id] == w.rows[id]
  {
    if s.MarkSucceeded? || s.MarkFailed? {
      assert HoldOk(w, w.holds[s.worker]);
    }
  }

  /** `succeeded` and `dead` are final until a claim takes a job from an overdue worker: such a row
      is not changed at all. */
  lemma {:induction false} FinishedIsFinal(c: Config, run: seq<World>, steps: seq<Step>, i: nat, k: nat, id: Id)
    requires IsRun(c, run, steps) && i <= k < |run| && NeverOverdue(c, run, steps, k)
    requires id in run[i].rows && Finished(run[i].rows[id]) && id in run[k].rows
    ensures run[k].rows[id] == run[i].rows[id]
    decreases k - i
  {
    if i < k {
      HoldsInRun(c, run, steps, i);
      assert Takes(c, run[i], steps[i], run[i + 1]);
      FinishedStaysOneStep(c, run[i], steps[i], id);
      StaysBetween(c, run, steps, i, k, id);
      FinishedIsFinal(c, run, steps, i + 1, k, id);
    }
  }

  /** Behind every mark that contradicts an ending there is an earlier claim from an overdue
      worker. */
  lemma ContradictionHasOverdueClaim(c: Config, run: seq<World>, steps: seq<Step>, i: nat, id: Id) returns (k: nat)
    requires IsRun(c, run, steps) && i < |steps| && id in run[i].rows && Contradicts(run[i], steps[i], id)
    ensures k < i && ClaimsOverdue(c, run[k], steps[k])
  {
    if NeverOverdue(c, run, steps, i) {
      MarksLandOnRunning(c, run, steps, i);
    }
    k :| 0 <= k < i && ClaimsOverdue(c, run[k], steps[k]);
  }

  // ---- orphans -----------------------------------------------------------------------

  /** A worker dies at step `k` with `id`, which it had claimed at `since`. */
  predicate DiesWith(run: seq<World>, steps: seq<Step>, k: nat, id: Id, since: real) {
    && k < |steps| && k < |run| && steps[k].Die? && steps[k].worker in run[k].holds
    && run[k].holds[steps[k].worker] == Hold(id, since)
  }

  predicate Orphan(w: World, id: Id) {
    id in w.rows && w.rows[id].status == Running && !Held(w, id)
  }

  /** A job becomes an orphan exactly in the step in which its worker dies. */
  lemma OrphanedIff(c: Config, w: World, s: Step, id: Id)
    requires HoldsOk(w) && Enabled(c, w, s)
    ensures Orphan(After(c, w, s), id) && !Orphan(w, id)
            <==> s.Die? && id in w.rows && w.holds[s.worker] == Hold(id, w.rows[id].updatedAt)
    ensures Orphan(After(c, w, s), id) ==> id in w.rows && w.rows[id] == After(c, w, s).rows[id]
  {
    var w' := After(c, w, s);
    if s.Die? {
      assert HoldOk(w, w.holds[s.worker]);
    }
    if s.ClaimOne? {
      assert w'.holds[s.worker].job == s.id;
    }
    if Orphan(w', id) {
      assert forall worker :: worker in w'.holds ==> w'.holds[worker].job != id;
      if Held(w, id) {
        var h :| h in w.holds && w.holds[h].job == id;
        assert HoldOk(w, w.holds[h]);
        assert h !in w'.holds;
      }
    }
  }

  /** Every running job in nobody's hands was left by a worker that died with it, and nothing has
      happened to it since. */
  lemma {:induction false} OrphanHasADeath(c: Config, run: seq<World>, steps: seq<Step>, i: nat, id: Id)
    returns (k: nat)
    requires IsRun(c, run, steps) && i < |run| && NeverOverdue(c, run, steps, i) && Orphan(run[i], id)
    ensures k < i && DiesWith(run, steps, k, id, run[i].rows[id].updatedAt)
    ensures forall m :: k < m <= i ==> Orphan(run[m], id) && run[m].rows[id] == run[i].rows[id]
  {
    HoldsInRun(c, run, steps, i - 1);
    assert Takes(c, run[i - 1], steps[i - 1], run[i - 1 + 1]);
    OrphanedIff(c, run[i - 1], steps[i - 1], id);
    if Orphan(run[i - 1], id) {
      k := OrphanHasADeath(c, run, steps, i - 1, id);
    } else {
      k := i - 1;
    }
  }

  /** So the job of a dead worker is handed out again: it is due exactly from the end of the
      window of the claim that worker made. */
  lemma OrphanIsDueIff(c: Config, run: seq<World>, steps: seq<Step>, i: nat, id: Id) returns (k: nat, since: real)
    requires IsRun(c, run, steps) && i < |run| && NeverOverdue(c, run, steps, i) && Orphan(run[i], id)
    ensures k < i && DiesWith(run, steps, k, id, since)
    ensures Due(run[i].rows[id], run[i].now, c.stale) <==> run[i].now > since + c.stale
  {
    since := run[i].rows[id].updatedAt;
    k := OrphanHasADeath(c, run, steps, i, id);
  }

  // ---- what a late worker can do -----------------------------------------------------

  function LateSteps(): seq<Step> {
    [Enqueue(0, "ingest_document", 0, "k", None), ClaimOne(1, 0), Tick(601.0), ClaimOne(2, 0),
     MarkSucceeded(2), MarkFailed(1, "late", None)]
  }

  /** A worker one second late, whose job is claimed from it, shares it with another, and its
      mark puts a succeeded job back in the queue. */
  lemma LateMarkRevives() returns (run: seq<World>)
    ensures |run| == 7 && IsRun(Config(600.0, 3), run, LateSteps())
    ensures !OneHolder(run[4])
    ensures 0 in run[5].rows && run[5].rows[0].status == Succeeded
    ensures 0 in run[6].rows && run[6].rows[0].status == Queued
  {
    var c := Config(600.0, 3);
    var w0, w1, w2 := FirstClaim(c);
    var w3, w4 := SecondClaim(c, w2);
    var w5, w6 := BothMark(c, w4);
    run := [w0, w1, w2, w3, w4, w5, w6];
    JoinRun(c, run, LateSteps());
  }

  lemma FirstClaim(c: Config) returns (w0: World, w1: World, w2: World)
    requires c == Config(600.0, 3)
    ensures w0 == Start(0.0) && Takes(c, w0, LateSteps()[0], w1) && Takes(c, w1, LateSteps()[1], w2)
    ensures w2.now == 0.0 && w2.holds == map[1 := Hold(0, 0.0)]
    ensures w2.rows == map[0 := Claimed(NewJob(0, "ingest_document", 0, "k", 3, 0.0), 0.0)]
  {
    w0 := Start(0.0);
    w1 := After(c, w0, LateSteps()[0]);
    assert OldestDue(w1.rows, 0, w1.now, c.stale);
    w2 := After(c, w1, LateSteps()[1]);
  }

  lemma SecondClaim(c: Config, w2: World) returns (w3: World, w4: World)
    requires c == Config(600.0, 3)
    requires w2.now == 0.0 && w2.holds == map[1 := Hold(0, 0.0)]
    requires w2.rows == map[0 := Claimed(NewJob(0, "ingest_document", 0, "k", 3, 0.0), 0.0)]
    ensures Takes(c, w2, LateSteps()[2], w3) && Takes(c, w3, LateSteps()[3], w4)
    ensures w4.holds == map[1 := Hold(0, 0.0), 2 := Hold(0, 601.0)] && !OneHolder(w4)
    ensures 0 in w4.rows && w4.rows[0].attempts == 2 && w4.rows[0].maxAttempts == 3
  {
    w3 := After(c, w2, LateSteps()[2]);
    assert OldestDue(w3.rows, 0, w3.now, c.stale);
    w4 := After(c, w3, LateSteps()[3]);
    assert w4.holds[1].job == w4.holds[2].job;
  }

  lemma BothMark(c: Config, w4: World) returns (w5: World, w6: World)
    requires w4.holds == map[1 := Hold(0, 0.0), 2 := Hold(0, 601.0)]
    requires 0 in w4.rows && w4.rows[0].attempts == 2 && w4.rows[0].maxAttempts == 3
    ensures Takes(c, w4, LateSteps()[4], w5) && Takes(c, w5, LateSteps()[5], w6)
    ensures 0 in w5.rows && w5.rows[0].status == Succeeded && 0 in w6.rows && w6.rows[0].status == Queued
  {
    w5 := After(c, w4, MarkSucceeded(2));
    w6 := After(c, w5, MarkFailed(1, "late", None));
  }

  lemma JoinRun(c: Config, run: seq<World>, steps: seq<Step>)
    requires |run| == 7 && |steps| == 6 && run[0] == Start(run[0].now)
    requires Takes(c, run[0], steps[0], run[1]) && Takes(c, run[1], steps[1], run[2])
    requires Takes(c, run[2], steps[2], run[3]) && Takes(c, run[3], steps[3], run[4])
    requires Takes(c, run[4], steps[4], run[5]) && Takes(c, run[5], steps[5], run[6])
    ensures IsRun(c, run, steps)
  {
    forall i | 0 <= i < |steps| ensures Takes(c, run[i], steps[i], run[i + 1]) {
      assert i == 0 || i == 1 || i == 2 || i == 3 || i == 4 || i == 5;
    }
  }
}
