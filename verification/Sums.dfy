/** Sums over task numbers. */
module Sums {

  function Sum(n: nat, g: nat -> int): int {
    if n == 0 then 0 else Sum(n - 1, g) + g(n - 1)
  }

  lemma {:induction false} SumSame(n: nat, g: nat -> int, g': nat -> int)
    requires forall i: nat | i < n :: g(i) == g'(i)
    ensures Sum(n, g) == Sum(n, g')
  {
    if n > 0 {
      SumSame(n - 1, g, g');
    }
  }

  lemma {:induction false} SumChange(n: nat, g: nat -> int, g': nat -> int, p: nat)
    requires p < n
    requires forall i: nat | i < n && i != p :: g(i) == g'(i)
    ensures Sum(n, g') == Sum(n, g) + g'(p) - g(p)
  {
    if p < n - 1 {
      SumChange(n - 1, g, g', p);
    } else {
      SumSame(n - 1, g, g');
    }
  }

  lemma {:induction false} SumAtLeast(n: nat, g: nat -> int, p: nat)
    requires p < n
    requires forall i: nat | i < n :: g(i) >= 0
    ensures Sum(n, g) >= g(p)
  {
    SumNonNegative(n - 1, g);
    if p < n - 1 {
      SumAtLeast(n - 1, g, p);
    }
  }

  lemma {:induction false} SumNonNegative(n: nat, g: nat -> int)
    requires forall i: nat | i < n :: g(i) >= 0
    ensures Sum(n, g) >= 0
  {
    if n > 0 {
      SumNonNegative(n - 1, g);
    }
  }

  /** A positive sum of non-negative terms has a positive term. */
  lemma {:induction false} SumHasTerm(n: nat, g: nat -> int) returns (p: nat)
    requires forall i: nat | i < n :: g(i) >= 0
    requires Sum(n, g) > 0
    ensures p < n && g(p) > 0
  {
    if g(n - 1) > 0 {
      p := n - 1;
    } else {
      p := SumHasTerm(n - 1, g);
    }
  }

  lemma {:induction false} SumZero(n: nat, g: nat -> int)
    requires forall i: nat | i < n :: g(i) == 0
    ensures Sum(n, g) == 0
  {
    if n > 0 {
      SumZero(n - 1, g);
    }
  }
}
