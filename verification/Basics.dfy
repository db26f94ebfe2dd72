/** Vocabulary shared by the models. */
module Basics {

  datatype Option<+T> = None | Some(value: T)

  datatype Result<+T> = Success(value: T) | Failure(message: string)

  function MaxReal(a: real, b: real): real {
    if a >= b then a else b
  }

  function MinNat(a: nat, b: nat): nat {
    if a <= b then a else b
  }

  // ------------------------------------------------------------- arithmetic

  lemma {:induction false} IsLarge(d: int, n: nat)
    ensures d == 0 || d * n >= n || d * n <= -(n as int)
  {
  }

  /** Quotient and remainder are unique. */
  lemma {:induction false} DivMod(q: int, n: nat, d: nat)
    requires d < n
    ensures (q * n + d) / n == q && (q * n + d) % n == d
  {
    var x := q * n + d;
    assert (q - x / n) * n == x % n - d;
    IsLarge(q - x / n, n);
  }

  lemma {:induction false} SameMultiple(a: int, b: int, n: nat)
    requires n >= 1
    ensures a * n == b * n <==> a == b
  {
    IsLarge(a - b, n);
    assert a * n - b * n == (a - b) * n;
  }

  lemma {:induction false} Distribute(a: int, b: int, n: int)
    ensures (a + b) * n == a * n + b * n
  {
  }

  // -------------------------------------------------------------- sequences

  lemma {:induction false} Regroup<T>(a: seq<T>, b: seq<T>, c: seq<T>)
    ensures a + (b + c) == (a + b) + c
  {
  }

  /** The sum of a weight over the elements of a sequence. */
  function Sum<T>(xs: seq<T>, f: T -> real): real {
    if xs == [] then 0.0 else f(xs[0]) + Sum(xs[1..], f)
  }

  lemma {:induction false} SumAppend<T>(xs: seq<T>, ys: seq<T>, f: T -> real)
    ensures Sum(xs + ys, f) == Sum(xs, f) + Sum(ys, f)
  {
    if xs == [] {
      assert xs + ys == ys;
    } else {
      assert (xs + ys)[1..] == xs[1..] + ys;
      SumAppend(xs[1..], ys, f);
    }
  }

  /** A sum does not depend on the order of its terms. */
  lemma {:induction false} SumPermutation<T>(xs: seq<T>, ys: seq<T>, f: T -> real)
    requires multiset(xs) == multiset(ys)
    ensures Sum(xs, f) == Sum(ys, f)
  {
    if xs == [] {
      assert |ys| == |multiset(ys)| == 0;
    } else {
      assert xs[0] in multiset(ys);
      var j :| 0 <= j < |ys| && ys[j] == xs[0];
      var rest := ys[..j] + ys[j + 1..];
      assert xs == [xs[0]] + xs[1..];
      assert ys == ys[..j] + ([ys[j]] + ys[j + 1..]);
      assert multiset(xs) == multiset{xs[0]} + multiset(xs[1..]);
      assert multiset(ys) == multiset(ys[..j]) + (multiset{ys[j]} + multiset(ys[j + 1..]));
      assert multiset(rest) == multiset(ys[..j]) + multiset(ys[j + 1..]);
      assert multiset(rest) == multiset(ys) - multiset{ys[j]};
      SumPermutation(xs[1..], rest, f);
      SumAppend(ys[..j], [ys[j]] + ys[j + 1..], f);
      SumAppend(ys[..j], ys[j + 1..], f);
    }
  }

  ghost predicate Descending<T>(xs: seq<T>, key: T -> int) {
    forall i, j | 0 <= i < j < |xs| :: key(xs[i]) >= key(xs[j])
  }

  /** A library sort: some reordering with the keys in falling order. */
  method SortDescending<T>(xs: seq<T>, key: T -> int) returns (order: seq<T>)
    ensures multiset(order) == multiset(xs) && Descending(order, key)
  {
    order := [];
    for i := 0 to |xs|
      invariant multiset(order) == multiset(xs[..i]) && Descending(order, key)
    {
      assert xs[..i + 1] == xs[..i] + [xs[i]];
      InsertKeepsElements(xs[i], order, key);
      order := Insert(xs[i], order, key);
    }
    assert xs[..|xs|] == xs;
  }

  function Insert<T>(x: T, xs: seq<T>, key: T -> int): (r: seq<T>)
    requires Descending(xs, key)
    ensures Descending(r, key) && forall y | y in r :: y == x || y in xs
  {
    if xs == [] then [x]
    else if key(x) >= key(xs[0]) then [x] + xs
    else
      var rest := Insert(x, xs[1..], key);
      assert forall y | y in rest :: key(xs[0]) >= key(y);
      assert forall i | 0 <= i < |rest| :: rest[i] in rest;
      [xs[0]] + rest
  }

  lemma {:induction false} InsertKeepsElements<T>(x: T, xs: seq<T>, key: T -> int)
    requires Descending(xs, key)
    ensures multiset(Insert(x, xs, key)) == multiset(xs) + multiset{x}
  {
    if xs != [] && key(x) < key(xs[0]) {
      InsertKeepsElements(x, xs[1..], key);
      assert xs == [xs[0]] + xs[1..];
    }
  }
}
