/** The kick and drain protocol (knowledge_desk/worker.py:35-91): any number of kickers, and
    drain threads, interleaved step by step over a lock, an event and a thread handle.

    Jobs are named by number. `unfinished` are those queued or running; whoever runs them may
    finish them at any moment, and no finished job is ever taken up again. Each transaction and
    each access to the lock, the event or the handle is one step. */
module Kick {
  import opened Text
  import opened Chains

  type Job = nat
  type Thread = nat

  /** Where a drain thread is. `seen` is what its look at the queue found unfinished. */
  datatype Pc =
    | Top                     // started, or woken: about to clear the event
    | InRun                   // in run_pending
    | AtCheck                 // wants the lock
    | Locked                  // has the lock, has not looked yet
    | Decided(seen: set<Job>) // has the lock and has looked
    | Waiting(seen: set<Job>) // waits for the event, for as long as the look told it to
    | Raised                  // an exception is on its way to `_run`
    | Clearing                // `_run` has the lock and is about to clear the handle
    | Gone

  /** A kick does everything under the lock, so one at a time is inside. */
  datatype Phase = Entered | EventSet | Checked

  datatype Lock = Free | ByDrain(thread: Thread) | ByKick(phase: Phase)

  /** `committed` are all jobs ever committed, and `promised` those committed before some
      completed kick. */
  datatype State = State(
    lock: Lock, wake: bool, handle: Option<Thread>, pcs: map<Thread, Pc>,
    committed: set<Job>, unfinished: set<Job>, promised: set<Job>)

  datatype Step =
    | Commit(job: Job)
    | Finish(job: Job)
    | KickEnter | KickSet | KickCheck(next: Thread) | KickLeave
    | Clear(t: Thread) | Ran(t: Thread) | Acquire(t: Thread) | Look(t: Thread) | Act(t: Thread)
    | WakeUp(t: Thread)
    | Raise(t: Thread) | Handle(t: Thread) | Forget(t: Thread)

  predicate At(s: State, t: Thread, pc: Pc) {
    t in s.pcs && s.pcs[t] == pc
  }

  predicate Enabled(s: State, a: Step) {
    match a
    case Commit(job) => job !in s.committed
    case Finish(job) => job in s.unfinished
    case KickEnter => s.lock == Free
    case KickSet => s.lock == ByKick(Entered)
    case KickCheck(next) => s.lock == ByKick(EventSet) && next !in s.pcs
    case KickLeave => s.lock == ByKick(Checked)
    case Clear(t) => At(s, t, Top)
    case Ran(t) => At(s, t, InRun)
    case Acquire(t) => At(s, t, AtCheck) && s.lock == Free
    case Look(t) => At(s, t, Locked)
    case Act(t) => t in s.pcs && s.pcs[t].Decided?
    case WakeUp(t) => t in s.pcs && s.pcs[t].Waiting?
    case Raise(t) => t in s.pcs && s.pcs[t] in {Top, InRun, Locked}
    case Handle(t) => At(s, t, Raised) && s.lock == Free
    case Forget(t) => At(s, t, Clearing)
  }

  function Move(s: State, t: Thread, pc: Pc): State {
    s.(pcs := s.pcs[t := pc])
  }

  function After(s: State, a: Step): State
    requires Enabled(s, a)
  {
    match a
    case Commit(job) => s.(committed := s.committed + {job}, unfinished := s.unfinished + {job})
    case Finish(job) => s.(unfinished := s.unfinished - {job})
    case KickEnter => s.(lock := ByKick(Entered))
    case KickSet => s.(lock := ByKick(EventSet), wake := true)
    case KickCheck(next) =>
      if s.handle.None? then Move(s, next, Top).(handle := Some(next), lock := ByKick(Checked))
      else s.(lock := ByKick(Checked))
    case KickLeave => s.(lock := Free, promised := s.committed)
    case Clear(t) => Move(s, t, InRun).(wake := false)
    case Ran(t) => Move(s, t, AtCheck)
    case Acquire(t) => Move(s, t, Locked).(lock := ByDrain(t))
    case Look(t) => Move(s, t, Decided(s.unfinished))
    case Act(t) =>
      if s.pcs[t].seen == {} then
        Move(s, t, Gone).(lock := Free, handle := if s.handle == Some(t) then None else s.handle)
      else Move(s, t, Waiting(s.pcs[t].seen)).(lock := Free)
    case WakeUp(t) => Move(s, t, Top)
    case Raise(t) => Move(s, t, Raised).(lock := if s.lock == ByDrain(t) then Free else s.lock)
    case Handle(t) => Move(s, t, Clearing).(lock := ByDrain(t))
    case Forget(t) => Move(s, t, Gone).(handle := None, lock := Free)
  }

  predicate IsCrash(a: Step) { a.Raise? || a.Handle? || a.Forget? }

  function Start(): State {
    State(Free, false, None, map[], {}, {}, {})
  }

  // ---- the invariant -----------------------------------------------------------------

  /** The handle names the one thread that has not left yet. */
  predicate HandleOk(s: State) {
    && (s.handle.Some? ==> s.handle.value in s.pcs)
    && forall t :: t in s.pcs ==> (s.pcs[t] != Gone <==> s.handle == Some(t))
  }

  predicate LockOk(s: State) {
    && (s.lock.ByDrain? ==> s.lock.thread in s.pcs)
    && (forall t :: t in s.pcs ==> (HasLock(s.pcs[t]) <==> s.lock == ByDrain(t)))
  }

  predicate HasLock(pc: Pc) { pc == Locked || pc.Decided? || pc == Clearing }

  /** And no drain ever waits on an empty queue, which would be waiting for good. */
  predicate JobsOk(s: State) {
    && s.unfinished <= s.committed && s.promised <= s.committed
    && forall t :: t in s.pcs && s.pcs[t].Waiting? ==> s.pcs[t].seen != {}
  }

  /** Between setting the event and leaving, a kick has a drain that will not sleep on. */
  predicate KickOk(s: State) {
    && (s.lock == ByKick(Checked) ==> s.handle.Some?)
    && (s.lock.ByKick? && s.lock.phase != Entered ==>
          s.handle.Some? && s.handle.value in s.pcs && s.pcs[s.handle.value].Waiting? ==> s.wake)
  }

  /** A drain is registered and no exception is taking it down. */
  predicate Healthy(s: State) {
    s.handle.Some? && s.handle.value in s.pcs && s.pcs[s.handle.value] !in {Raised, Clearing, Gone}
  }

  /** The registered drain will not leave `job` behind: it is yet to look at the queue before it
      waits, or what it saw had this job in it, so that its wait is finite, or the event is set
      and the wait over. */
  predicate Covered(s: State, job: Job) {
    && s.handle.Some? && s.handle.value in s.pcs
    && match s.pcs[s.handle.value]
       case Top => true
       case InRun => true
       case AtCheck => true
       case Locked => true
       case Decided(seen) => job in seen
       case Waiting(seen) => s.wake || job in seen
       case _ => false
  }

  ghost predicate CoverOk(s: State) {
    Healthy(s) ==> forall job :: job in s.promised && job in s.unfinished ==> Covered(s, job)
  }

  ghost predicate Inv(s: State) {
    HandleOk(s) && LockOk(s) && JobsOk(s) && KickOk(s) && CoverOk(s)
  }

  lemma InvAtStart()
    ensures Inv(Start())
  {
  }

  /** Every step, crashes included, keeps the invariant. */
  lemma StepKeeps(s: State, a: Step)
    requires Inv(s) && Enabled(s, a)
    ensures Inv(After(s, a))
  {
    if a.Commit? || a.Finish? {
      JobStepKeeps(s, a);
    } else if a.KickEnter? || a.KickSet? || a.KickCheck? || a.KickLeave? {
      KickStepKeeps(s, a);
    } else {
      DrainStepKeeps(s, a);
    }
  }

  lemma JobStepKeeps(s: State, a: Step)
    requires Inv(s) && Enabled(s, a) && (a.Commit? || a.Finish?)
    ensures Inv(After(s, a))
  {
    var s' := After(s, a);
    forall job | Healthy(s') && job in s'.promised && job in s'.unfinished ensures Covered(s', job) {
      assert Covered(s, job);
    }
  }

  lemma KickStepKeeps(s: State, a: Step)
    requires Inv(s) && Enabled(s, a) && (a.KickEnter? || a.KickSet? || a.KickCheck? || a.KickLeave?)
    ensures Inv(After(s, a))
  {
    var s' := After(s, a);
    forall job | Healthy(s') && job in s'.promised && job in s'.unfinished ensures Covered(s', job) {
      if !a.KickLeave? && s.handle.Some? {
        assert Covered(s, job);
      }
    }
  }

  lemma DrainStepKeeps(s: State, a: Step)
    requires Inv(s) && Enabled(s, a)
    requires !(a.Commit? || a.Finish? || a.KickEnter? || a.KickSet? || a.KickCheck? || a.KickLeave?)
    ensures Inv(After(s, a))
  {
    var s' := After(s, a);
    assert s.pcs[a.t] != Gone;
    forall job | Healthy(s') && job in s'.promised && job in s'.unfinished ensures Covered(s', job) {
      assert Covered(s, job);
    }
  }

  // ---- whole runs --------------------------------------------------------------------

  predicate Takes(s: State, a: Step, s': State) {
    Enabled(s, a) && s' == After(s, a)
  }

  ghost predicate IsRun(run: seq<State>, steps: seq<Step>) {
    Chain(Takes, run, steps) && run[0] == Start()
  }

  predicate NoCrashBefore(steps: seq<Step>, i: nat) {
    forall k :: 0 <= k < i && k < |steps| ==> !IsCrash(steps[k])
  }

  lemma RunKeeps(run: seq<State>, steps: seq<Step>, i: nat)
    requires IsRun(run, steps) && i < |run|
    ensures Inv(run[i])
  {
    InvAtStart();
    forall s, a, s' | Inv(s) && Takes(s, a, s') ensures Inv(s') {
      StepKeeps(s, a);
    }
    ChainKeeps(Takes, s => Inv(s), run, steps, i);
  }

  /** At most one drain is ever looping, and it is the one the handle names. This does not need
      the drains to be well. */
  lemma OneDrain(run: seq<State>, steps: seq<Step>, i: nat, t: Thread, u: Thread)
    requires IsRun(run, steps) && i < |run|
    requires t in run[i].pcs && u in run[i].pcs && run[i].pcs[t] != Gone && run[i].pcs[u] != Gone
    ensures t == u && run[i].handle == Some(t)
  {
    RunKeeps(run, steps, i);
  }

  /** What a completed kick has promised stays promised. */
  lemma {:induction false} PromiseStays(run: seq<State>, steps: seq<Step>, m: nat, i: nat, job: Job)
    requires IsRun(run, steps) && m < i < |run| && steps[m].KickLeave? && job in run[m].committed
    ensures job in run[i].promised
    decreases i
  {
    assert Takes(run[i - 1], steps[i - 1], run[i - 1 + 1]);
    if i - 1 == m {
    } else {
      PromiseStays(run, steps, m, i - 1, job);
      RunKeeps(run, steps, i - 1);
    }
  }

  /** No drain has raised, and promised work that is not finished has a drain. */
  ghost predicate Served(s: State) {
    && (forall t :: t in s.pcs ==> s.pcs[t] !in {Raised, Clearing})
    && (s.promised * s.unfinished != {} ==> s.handle.Some?)
  }

  lemma StepServes(s: State, a: Step)
    requires Inv(s) && Served(s) && Enabled(s, a) && !IsCrash(a)
    ensures Served(After(s, a))
  {
    var s' := After(s, a);
    if a.Act? {
      assert forall job :: job in s.promised && job in s.unfinished ==> Covered(s, job);
    }
    assert s'.promised * s'.unfinished <= s.promised * s.unfinished || a.KickLeave? || a.Commit?;
  }

  lemma {:induction false} RunServes(run: seq<State>, steps: seq<Step>, i: nat)
    requires IsRun(run, steps) && i < |run| && NoCrashBefore(steps, i)
    ensures Served(run[i])
  {
    if i > 0 {
      RunServes(run, steps, i - 1);
      RunKeeps(run, steps, i - 1);
      assert Takes(run[i - 1], steps[i - 1], run[i - 1 + 1]);
      StepServes(run[i - 1], steps[i - 1]);
    }
  }

  /** No wakeup is lost: as long as no drain has raised, a job committed before some kick
      completed and not finished yet has a drain that will not leave it behind, whatever the
      interleaving. */
  lemma NoLostWakeup(run: seq<State>, steps: seq<Step>, m: nat, i: nat, job: Job)
    requires IsRun(run, steps) && m < i < |run| && NoCrashBefore(steps, i)
    requires steps[m].KickLeave? && job in run[m].committed && job in run[i].unfinished
    ensures Covered(run[i], job)
  {
    PromiseStays(run, steps, m, i, job);
    RunKeeps(run, steps, i);
    RunServes(run, steps, i);
    assert job in run[i].promised * run[i].unfinished;
  }

  /** When drains may raise, the same holds of every state whose registered drain is well, and
      of no other. */
  lemma CoveredIffHealthy(run: seq<State>, steps: seq<Step>, m: nat, i: nat, job: Job)
    requires IsRun(run, steps) && m < i < |run|
    requires steps[m].KickLeave? && job in run[m].committed && job in run[i].unfinished
    ensures Covered(run[i], job) <==> Healthy(run[i])
  {
    PromiseStays(run, steps, m, i, job);
    RunKeeps(run, steps, i);
  }

  /** A kick that completes leaves a healthy drain behind exactly when the drain it found
      registered, if any, had not raised. */
  lemma KickIsGoodIff(run: seq<State>, steps: seq<Step>, i: nat)
    requires IsRun(run, steps) && i < |steps| && steps[i].KickLeave?
    ensures run[i].handle.Some? && run[i].handle.value in run[i].pcs
    ensures Healthy(run[i + 1]) <==> run[i].pcs[run[i].handle.value] !in {Raised, Clearing}
  {
    RunKeeps(run, steps, i);
    assert Takes(run[i], steps[i], run[i + 1]);
  }

  // ---- progress ----------------------------------------------------------------------

  /** How many steps of its own a drain takes until it next enters run_pending. */
  function StepsToRun(pc: Pc): nat {
    match pc
    case Top => 1
    case InRun => 6
    case AtCheck => 5
    case Locked => 4
    case Decided(_) => 3
    case Waiting(_) => 2
    case _ => 0
  }

  predicate IsStepOf(a: Step, t: Thread) {
    match a
    case Clear(u) => t == u
    case Ran(u) => t == u
    case Acquire(u) => t == u
    case Look(u) => t == u
    case Act(u) => t == u
    case WakeUp(u) => t == u
    case _ => false
  }

  /** While a promised job is unfinished and nothing raises, every step of the registered drain
      brings it one closer to running jobs again, and no step of anyone else sets it back. */
  lemma StepsAdvance(s: State, a: Step, job: Job)
    requires Inv(s) && Enabled(s, a) && !IsCrash(a) && Healthy(s)
    requires job in s.promised && job in s.unfinished
    ensures var s', t := After(s, a), s.handle.value;
            && s'.handle == s.handle && t in s'.pcs
            && (if a == Clear(t) then s'.pcs[t] == InRun
                else if IsStepOf(a, t) then StepsToRun(s'.pcs[t]) + 1 == StepsToRun(s.pcs[t])
                else s'.pcs[t] == s.pcs[t])
  {
    assert Covered(s, job);
  }

  /** And someone can always move: the drain itself, or the kick that keeps it from the lock. */
  lemma NeverStuck(s: State)
    requires Inv(s) && Healthy(s)
    ensures exists a :: Enabled(s, a) && !IsCrash(a)
                        && (IsStepOf(a, s.handle.value) || a.KickSet? || a.KickCheck? || a.KickLeave?)
  {
    var t := s.handle.value;
    match s.pcs[t]
    case Top => assert Enabled(s, Clear(t)) && IsStepOf(Clear(t), t);
    case InRun => assert Enabled(s, Ran(t)) && IsStepOf(Ran(t), t);
    case AtCheck => CheckNotStuck(s, t);
    case Locked => assert Enabled(s, Look(t)) && IsStepOf(Look(t), t);
    case Decided(_) => assert Enabled(s, Act(t)) && IsStepOf(Act(t), t);
    case Waiting(_) => assert Enabled(s, WakeUp(t)) && IsStepOf(WakeUp(t), t);
  }

  lemma LockHolder(s: State)
    requires Inv(s)
    ensures s.lock.ByDrain? ==>
              s.handle == Some(s.lock.thread) && s.lock.thread in s.pcs && HasLock(s.pcs[s.lock.thread])
  {
    assert s.lock.ByDrain? ==> s.pcs[s.lock.thread] != Gone;
  }

  lemma CheckNotStuck(s: State, t: Thread)
    requires Inv(s) && s.handle == Some(t) && At(s, t, AtCheck)
    ensures exists a :: Enabled(s, a) && !IsCrash(a) && (IsStepOf(a, t) || a.KickSet? || a.KickCheck? || a.KickLeave?)
  {
    LockHolder(s);
    match s.lock
    case Free => assert Enabled(s, Acquire(t)) && IsStepOf(Acquire(t), t);
    case ByKick(Entered) => assert Enabled(s, KickSet);
    case ByKick(EventSet) =>
      var next := Unused(s.pcs.Keys);
      assert Enabled(s, KickCheck(next));
    case ByKick(Checked) => assert Enabled(s, KickLeave);
    case ByDrain(u) =>
  }

  lemma {:induction false} Unused(used: set<nat>) returns (n: nat)
    ensures n !in used && forall x :: x in used ==> x < n
    decreases |used|
  {
    if used == {} {
      n := 0;
    } else {
      var x :| x in used;
      assert used == used - {x} + {x};
      n := Unused(used - {x});
      n := if x < n then n else x + 1;
    }
  }

  // ---- the crash window --------------------------------------------------------------

  /** One more step at the end of a run. */
  lemma Extend(run: seq<State>, steps: seq<Step>, s: State, a: Step)
    returns (run': seq<State>, steps': seq<Step>, s': State)
    requires IsRun(run, steps) && run[|steps|] == s && Enabled(s, a)
    ensures s' == After(s, a) && run' == run + [s'] && steps' == steps + [a]
    ensures IsRun(run', steps') && run'[|steps'|] == s'
  {
    s' := After(s, a);
    run', steps' := run + [s'], steps + [a];
    ChainExtends(Takes, run, steps, a, s');
  }

  /** A drain is started by a kick, takes up work and raises. */
  lemma RaisedRun() returns (run: seq<State>, steps: seq<Step>, s: State)
    ensures IsRun(run, steps) && |steps| == 6 && run[6] == s
    ensures s == State(Free, false, Some(0), map[0 := Raised], {}, {}, {})
  {
    run, steps, s := [Start()], [], Start();
    run, steps, s := Extend(run, steps, s, KickEnter);
    run, steps, s := Extend(run, steps, s, KickSet);
    run, steps, s := Extend(run, steps, s, KickCheck(0));
    run, steps, s := Extend(run, steps, s, KickLeave);
    run, steps, s := Extend(run, steps, s, Clear(0));
    run, steps, s := Extend(run, steps, s, Raise(0));
  }

  /** Before the handle is cleared a job is committed and kicked. */
  lemma KickedMeanwhile() returns (run: seq<State>, steps: seq<Step>, s: State)
    ensures IsRun(run, steps) && |steps| == 11 && run[11] == s && steps[10] == KickLeave && 7 in run[10].committed
    ensures s == State(Free, true, Some(0), map[0 := Raised], {7}, {7}, {7})
  {
    run, steps, s := RaisedRun();
    run, steps, s := Extend(run, steps, s, Commit(7));
    run, steps, s := Extend(run, steps, s, KickEnter);
    run, steps, s := Extend(run, steps, s, KickSet);
    run, steps, s := Extend(run, steps, s, KickCheck(1));
    assert s == State(ByKick(Checked), true, Some(0), map[0 := Raised], {7}, {7}, {});
    run, steps, s := Extend(run, steps, s, KickLeave);
  }

  /** A job committed and kicked between the exception and the clearing of the handle is lost:
      the kick completes, the job is unfinished, and no drain is registered. */
  lemma LostKick() returns (run: seq<State>, steps: seq<Step>)
    ensures IsRun(run, steps) && |steps| == 13
    ensures steps[10] == KickLeave && 7 in run[10].committed
    ensures run[13].handle == None && 7 in run[13].unfinished && !Covered(run[13], 7)
  {
    var s;
    run, steps, s := KickedMeanwhile();
    run, steps, s := Extend(run, steps, s, Handle(0));
    run, steps, s := Extend(run, steps, s, Forget(0));
  }

  /** No drain is registered, and all there ever were have left. */
  predicate NobodyDrains(s: State) {
    s.handle.None? && forall t :: t in s.pcs ==> s.pcs[t] == Gone
  }

  lemma {:induction false} NobodyComes(run: seq<State>, steps: seq<Step>, i: nat, k: nat)
    requires IsRun(run, steps) && i <= k < |run| && run[i].handle.None?
    requires forall m :: i <= m < k ==> !steps[m].KickCheck?
    ensures NobodyDrains(run[k])
  {
    RunKeeps(run, steps, k);
    if i < k {
      NobodyComes(run, steps, i, k - 1);
      assert Takes(run[k - 1], steps[k - 1], run[k - 1 + 1]);
      RunKeeps(run, steps, k - 1);
    }
  }

  /** What is left behind then waits for the next kick: nobody drains the queue, however the run
      goes on, exactly as long as no kick gets to check the handle. */
  lemma StrandedIff(run: seq<State>, steps: seq<Step>, i: nat, k: nat)
    requires IsRun(run, steps) && i <= k < |run| && run[i].handle.None?
    ensures (forall m :: i <= m <= k ==> NobodyDrains(run[m])) <==> (forall m :: i <= m < k ==> !steps[m].KickCheck?)
  {
    if forall m :: i <= m < k ==> !steps[m].KickCheck? {
      forall m | i <= m <= k ensures NobodyDrains(run[m]) {
        NobodyComes(run, steps, i, m);
      }
    }
    if forall m :: i <= m <= k ==> NobodyDrains(run[m]) {
      forall m | i <= m < k ensures !steps[m].KickCheck? {
        assert Takes(run[m], steps[m], run[m + 1]) && NobodyDrains(run[m]) && NobodyDrains(run[m + 1]);
      }
    }
  }
}
