/** Runs of a state machine, whatever its states and steps. */
module Chains {

  /** Every step leads from one state to the next. */
  ghost predicate Chain<S, A>(takes: (S, A, S) -> bool, run: seq<S>, steps: seq<A>) {
    && |run| == |steps| + 1
    && forall i {:trigger steps[i]} :: 0 <= i < |steps| ==> takes(run[i], steps[i], run[i + 1])
  }

  /** One step more. */
  lemma ChainExtends<S, A>(takes: (S, A, S) -> bool, run: seq<S>, steps: seq<A>, a: A, next: S)
    requires Chain(takes, run, steps) && takes(run[|steps|], a, next)
    ensures Chain(takes, run + [next], steps + [a])
  {
    var run', steps' := run + [next], steps + [a];
    forall i | 0 <= i < |steps'| ensures takes(run'[i], steps'[i], run'[i + 1]) {
      if i < |steps| {
        assert takes(run[i], steps[i], run[i + 1]);
      }
    }
  }

  /** What the first state has and every step keeps, every state has. */
  lemma {:induction false} ChainKeeps<S(!new), A(!new)>(takes: (S, A, S) -> bool, inv: S -> bool, run: seq<S>,
                                                        steps: seq<A>, i: nat)
    requires Chain(takes, run, steps) && i < |run| && inv(run[0])
    requires forall s, a, s' :: inv(s) && takes(s, a, s') ==> inv(s')
    ensures inv(run[i])
  {
    if i > 0 {
      ChainKeeps(takes, inv, run, steps, i - 1);
      assert takes(run[i - 1], steps[i - 1], run[i - 1 + 1]);
    }
  }
}
