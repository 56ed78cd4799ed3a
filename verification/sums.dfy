/** Sums over the rows of a table, by row number: of whole numbers, and of amounts. */
module Sums {

  // ---- whole numbers -----------------------------------------------------------------

  function SumTo(f: nat -> nat, n: nat): nat {
    if n == 0 then 0 else SumTo(f, n - 1) + f(n - 1)
  }

  lemma {:induction false} SumChange(f: nat -> nat, g: nat -> nat, n: nat, i: nat)
    requires forall k: nat :: k < n && k != i ==> g(k) == f(k)
    ensures SumTo(g, n) + (if i < n then f(i) else 0) == SumTo(f, n) + (if i < n then g(i) else 0)
  {
    if n > 0 {
      SumChange(f, g, n - 1, i);
    }
  }

  lemma {:induction false} SumIsZero(f: nat -> nat, n: nat)
    requires SumTo(f, n) == 0
    ensures forall k: nat :: k < n ==> f(k) == 0
  {
    if n > 0 {
      SumIsZero(f, n - 1);
    }
  }

  lemma {:induction false} PositiveTerm(f: nat -> nat, n: nat)
    requires SumTo(f, n) > 0
    ensures exists k: nat :: k < n && f(k) > 0
  {
    if f(n - 1) == 0 {
      PositiveTerm(f, n - 1);
    }
  }

  lemma {:induction false} SumMonotone(f: nat -> nat, g: nat -> nat, n: nat)
    requires forall k: nat :: k < n ==> g(k) <= f(k)
    ensures SumTo(g, n) <= SumTo(f, n)
  {
    if n > 0 {
      SumMonotone(f, g, n - 1);
    }
  }

  // ---- amounts -----------------------------------------------------------------------

  function Sum(f: nat -> real, n: nat): real {
    if n == 0 then 0.0 else Sum(f, n - 1) + f(n - 1)
  }

  lemma {:induction false} SumOneChanged(f: nat -> real, g: nat -> real, n: nat, i: nat)
    requires forall k: nat :: k < n && k != i ==> g(k) == f(k)
    ensures Sum(g, n) - Sum(f, n) == if i < n then g(i) - f(i) else 0.0
  {
    if n > 0 {
      SumOneChanged(f, g, n - 1, i);
    }
  }

  lemma SumExtends(f: nat -> real, g: nat -> real, n: nat)
    requires forall k: nat :: k < n ==> g(k) == f(k)
    ensures Sum(g, n + 1) == Sum(f, n) + g(n)
  {
    SumOneChanged(f, g, n, n);
  }

  lemma {:induction false} SumAdds(f: nat -> real, g: nat -> real, h: nat -> real, n: nat)
    requires forall k: nat :: k < n ==> h(k) == f(k) + g(k)
    ensures Sum(h, n) == Sum(f, n) + Sum(g, n)
  {
    if n > 0 {
      SumAdds(f, g, h, n - 1);
    }
  }

  lemma {:induction false} SumAtMost(f: nat -> real, g: nat -> real, n: nat)
    requires forall k: nat :: k < n ==> g(k) <= f(k)
    ensures Sum(g, n) <= Sum(f, n)
  {
    if n > 0 {
      SumAtMost(f, g, n - 1);
    }
  }

  lemma {:induction false} SumIsZeroIff(f: nat -> real, n: nat)
    requires forall k: nat :: k < n ==> f(k) >= 0.0
    ensures Sum(f, n) >= 0.0
    ensures Sum(f, n) == 0.0 <==> forall k: nat :: k < n ==> f(k) == 0.0
  {
    if n > 0 {
      SumIsZeroIff(f, n - 1);
    }
  }
}
