/** Finite sums of integers. */
module Sums {
  import opened Basics

  /** The sum of f over the numbers below n. */
  ghost function SumTo(n: nat, f: nat -> int): int {
    if n == 0 then 0 else SumTo(n - 1, f) + f(n - 1)
  }

  lemma {:induction false} SumSame(n: nat, f: nat -> int, g: nat -> int)
    requires forall i: nat | i < n :: f(i) == g(i)
    ensures SumTo(n, f) == SumTo(n, g)
  {
    if n > 0 {
      SumSame(n - 1, f, g);
    }
  }

  lemma {:induction false} SumOfSums(n: nat, f: nat -> int, g: nat -> int, h: nat -> int)
    requires forall i: nat | i < n :: h(i) == f(i) + g(i)
    ensures SumTo(n, h) == SumTo(n, f) + SumTo(n, g)
  {
    if n > 0 {
      SumOfSums(n - 1, f, g, h);
    }
  }

  lemma {:induction false} SumConstant(n: nat, f: nat -> int, x: int)
    requires forall i: nat | i < n :: f(i) == x
    ensures SumTo(n, f) == n * x
  {
    if n > 0 {
      SumConstant(n - 1, f, x);
      assert (n - 1) * x + x == n * x;
    }
  }

  /** The order of summation does not matter. */
  lemma {:induction false} SumSwap(n: nat, m: nat, f: (nat, nat) -> int, rows: nat -> int, columns: nat -> int)
    requires forall i: nat | i < n :: rows(i) == SumTo(m, (j: nat) => f(i, j))
    requires forall j: nat | j < m :: columns(j) == SumTo(n, (i: nat) => f(i, j))
    ensures SumTo(n, rows) == SumTo(m, columns)
  {
    if n == 0 {
      SumConstant(m, columns, 0);
    } else {
      var fewer := (j: nat) => SumTo(n - 1, (i: nat) => f(i, j));
      var last := (j: nat) => f(n - 1, j);
      SumSwap(n - 1, m, f, rows, fewer);
      forall j: nat | j < m
        ensures columns(j) == fewer(j) + last(j)
      {
        SumSame(n, (i: nat) => f(i, j), (i: nat) => f(i, j));
      }
      SumOfSums(m, fewer, last, columns);
      assert rows(n - 1) == SumTo(m, (j: nat) => f(n - 1, j));
      SumSame(m, last, (j: nat) => f(n - 1, j));
    }
  }

  /** Summing over groups of equal terms. */
  lemma {:induction false} SumGroups(n: nat, groups: nat, size: nat, f: nat -> int, g: nat -> int)
    requires size >= 1 && n == groups * size
    requires forall i: nat | i < n :: g(i) == f(i / size)
    ensures SumTo(n, g) == size * SumTo(groups, f)
  {
    if groups > 0 {
      var before := (groups - 1) * size;
      assert n == before + size;
      SumGroups(before, groups - 1, size, f, g);
      SumGroup(groups - 1, size, before, size, f, g);
      assert size * (SumTo(groups - 1, f) + f(groups - 1)) == size * SumTo(groups - 1, f) + size * f(groups - 1);
    }
  }

  lemma {:induction false} SumGroup(group: nat, size: nat, before: nat, n: nat, f: nat -> int, g: nat -> int)
    requires size >= 1 && before == group * size && n <= size
    requires forall i: nat | i < before + n :: g(i) == f(i / size)
    ensures SumTo(before + n, g) == SumTo(before, g) + n * f(group)
  {
    if n > 0 {
      SumGroup(group, size, before, n - 1, f, g);
      DivMod(group, size, n - 1);
      assert (n - 1) * f(group) + f(group) == n * f(group);
    }
  }
}
