/**
 * Finite sums of reals over an index range, with the algebra the matrix
 * arithmetic needs: congruence, scaling, addition and exchange of the order
 * of a double sum.
 */
module RealSums {

  /** f(0) + f(1) + ... + f(n - 1). */
  function SumF(n: nat, f: nat -> real): real
  {
    if n == 0 then 0.0 else SumF(n - 1, f) + f(n - 1)
  }

  lemma {:induction false} SumFCongruence(n: nat, f: nat -> real, g: nat -> real)
    requires forall i: nat :: i < n ==> f(i) == g(i)
    ensures SumF(n, f) == SumF(n, g)
  {
    if n > 0 {
      SumFCongruence(n - 1, f, g);
    }
  }

  lemma {:induction false} SumFScale(n: nat, f: nat -> real, c: real, g: nat -> real)
    requires forall i: nat :: i < n ==> g(i) == c * f(i)
    ensures SumF(n, g) == c * SumF(n, f)
  {
    if n > 0 {
      SumFScale(n - 1, f, c, g);
    }
  }

  lemma {:induction false} SumFAdd(n: nat, f: nat -> real, g: nat -> real, h: nat -> real)
    requires forall i: nat :: i < n ==> h(i) == f(i) + g(i)
    ensures SumF(n, h) == SumF(n, f) + SumF(n, g)
  {
    if n > 0 {
      SumFAdd(n - 1, f, g, h);
    }
  }

  lemma {:induction false} SumFZero(n: nat, f: nat -> real)
    requires forall i: nat :: i < n ==> f(i) == 0.0
    ensures SumF(n, f) == 0.0
  {
    if n > 0 {
      SumFZero(n - 1, f);
    }
  }

  /** Row `i` of a table given by its cell function. */
  function Row(f: (nat, nat) -> real, i: nat): nat -> real
  {
    (j: nat) => f(i, j)
  }

  /** Column `j` of a table given by its cell function. */
  function Col(f: (nat, nat) -> real, j: nat): nat -> real
  {
    (i: nat) => f(i, j)
  }

  /** The totals of the rows of a table with `m` columns. */
  function RowTotals(f: (nat, nat) -> real, m: nat): nat -> real
  {
    (i: nat) => SumF(m, Row(f, i))
  }

  /** The totals of the columns of a table with `n` rows. */
  function ColTotals(f: (nat, nat) -> real, n: nat): nat -> real
  {
    (j: nat) => SumF(n, Col(f, j))
  }

  /** Summing a table by rows or by columns gives the same total. */
  lemma {:induction false} SumFSwap(n: nat, m: nat, f: (nat, nat) -> real)
    ensures SumF(n, RowTotals(f, m)) == SumF(m, ColTotals(f, n))
  {
    if n > 0 {
      SumFSwap(n - 1, m, f);
      SumFAdd(m, ColTotals(f, n - 1), Row(f, n - 1), ColTotals(f, n));
    } else {
      SumFZero(m, ColTotals(f, 0));
    }
  }

  /**
   * A table whose row `f` spreads `a(f)` over the columns with weights that
   * sum to 1 has the same total as `a`.
   */
  lemma {:induction false} SumFRedistribute(n: nat, m: nat, g: (nat, nat) -> real, a: nat -> real, w: nat -> (nat -> real))
    requires forall f: nat :: f < m ==> SumF(n, w(f)) == 1.0
    requires forall t: nat, f: nat :: t < n && f < m ==> g(t, f) == a(f) * w(f)(t)
    ensures SumF(n, RowTotals(g, m)) == SumF(m, a)
  {
    SumFSwap(n, m, g);
    forall f: nat | f < m
      ensures ColTotals(g, n)(f) == a(f)
    {
      SumFScale(n, w(f), a(f), Col(g, f));
    }
    SumFCongruence(m, ColTotals(g, n), a);
  }
}
