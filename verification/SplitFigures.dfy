/** What the expert splitters' costs are in the hardware's own figures (src/module/route.cpp,
    src/hardware/hardware_config.h). */
module SplitFigures {
  import opened Basics
  import opened Sums
  import opened GreedySplit
  import opened ExpertSplit
  import opened GroupSplit

  /** n tokens keep the high processor no busier than the memory does. */
  ghost predicate HighIsMemoryBound(c: Config, n: nat) {
    n as real * (c.bandwidth * 0.75) <= c.peakFlops
  }

  ghost predicate LowIsMemoryBound(c: Config, n: nat) {
    n as real * 0.75 <= c.logicOpB
  }

  lemma {:induction false} QuotientAgainst(x: real, a: real, b: real)
    requires a > 0.0 && b > 0.0
    ensures x / (a / b) * a == x * b
    ensures x / (a / b) <= 1.0 <==> x * b <= a
  {
    var q := x / (a / b);
    assert q * (a / b) == x;
    assert q * (a / b) * b == q * a;
    if q <= 1.0 {
      ScaleUp(a, 1.0, q);
    } else {
      assert (q - 1.0) * a > 0.0;
    }
  }

  /** An expert's time on the high processor: one read of its weights up to the balance point, and beyond it such that
      time times peak operations is tokens times three quarters of the bandwidth. */
  lemma {:induction false} HighTimeInFigures(c: Config, n: nat)
    requires c.Valid()
    ensures HighIsMemoryBound(c, n) ==> HighTime(c.GetRates(), n) == 1.0
    ensures !HighIsMemoryBound(c, n) ==>
      HighTime(c.GetRates(), n) * c.peakFlops == n as real * (c.bandwidth * 0.75)
  {
    QuotientAgainst(n as real, c.peakFlops, c.bandwidth * 0.75);
  }

  lemma {:induction false} ShareOf(x: real, a: real)
    requires a > 0.0
    ensures x / a * 0.75 * a == x * 0.75
    ensures x / a * 0.75 <= 1.0 <==> x * 0.75 <= a
  {
    var q := x / a * 0.75;
    assert x / a * a == x;
    assert q * a == x * 0.75;
    if q <= 1.0 {
      ScaleUp(a, 1.0, q);
    } else {
      assert (q - 1.0) * a > 0.0;
    }
  }

  lemma {:induction false} DivideBack(x: real, d: real)
    requires d > 0.0
    ensures x / d * d == x
  {
  }

  /** An expert's time on the low processor, whose memory is logicX times as fast. */
  lemma {:induction false} LowTimeInFigures(c: Config, n: nat)
    requires c.Valid()
    ensures LowIsMemoryBound(c, n) ==> LowTime(c.GetRates(), n) * c.logicX as real == 1.0
    ensures !LowIsMemoryBound(c, n) ==>
      LowTime(c.GetRates(), n) * c.logicX as real * c.logicOpB == n as real * 0.75
  {
    ShareOf(n as real, c.logicOpB);
    DivideBack(MaxReal(1.0, n as real / c.logicOpB * 0.75), c.logicX as real);
  }

  /** A small expert takes the high processor logicX times as long as the low one. */
  lemma {:induction false} SmallExpertCosts(c: Config, n: nat)
    requires c.Valid() && HighIsMemoryBound(c, n) && LowIsMemoryBound(c, n)
    ensures HighTime(c.GetRates(), n) == 1.0 && LowTime(c.GetRates(), n) == 1.0 / c.logicX as real
    ensures HighTime(c.GetRates(), n) == c.logicX as real * LowTime(c.GetRates(), n)
  {
    HighTimeInFigures(c, n);
    LowTimeInFigures(c, n);
  }

  // --------------------------------------------------------- equal experts

  ghost predicate AllCost(cs: seq<Cost>, high: real, low: real) {
    forall i | 0 <= i < |cs| :: cs[i] == Cost(high, low)
  }

  lemma {:induction false} EqualPrefixes(cs: seq<Cost>, low: real, k: nat)
    requires AllCost(cs, 1.0, low) && k <= |cs|
    ensures PrefixHigh(cs, k) == k as real
  {
    if k > 0 {
      EqualPrefixes(cs, low, k - 1);
    }
  }

  lemma {:induction false} EqualSuffixes(cs: seq<Cost>, x: int, k: nat)
    requires x >= 1 && AllCost(cs, 1.0, 1.0 / x as real) && k <= |cs|
    ensures SuffixLow(cs, k) * x as real == (|cs| - k) as real
    decreases |cs| - k
  {
    if k < |cs| {
      EqualSuffixes(cs, x, k + 1);
      DivideBack(1.0, x as real);
    }
  }

  /** With j of m small experts on the high processor, one more there would still finish before the rest on the low
      processor, whose memory is x times as fast. */
  ghost predicate Worth(x: int, m: nat, j: nat) {
    (j + 1) * x < m - j
  }

  /** Moving one more of equal small experts helps exactly as long as the low processor takes longer. */
  lemma {:induction false} EqualStep(cs: seq<Cost>, x: int, j: nat)
    requires x >= 1 && AllCost(cs, 1.0, 1.0 / x as real) && j < |cs|
    ensures PrefixMakespan(cs, j + 1) < PrefixMakespan(cs, j) <==> Worth(x, |cs|, j)
  {
    var l, l' := SuffixLow(cs, j), SuffixLow(cs, j + 1);
    EqualPrefixes(cs, 1.0 / x as real, j);
    EqualPrefixes(cs, 1.0 / x as real, j + 1);
    EqualSuffixes(cs, x, j);
    EqualSuffixes(cs, x, j + 1);
    assert l' < l;
    Compare(l, x, j + 1, |cs| - j);
  }

  lemma {:induction false} Compare(l: real, x: int, k: nat, m: nat)
    requires x >= 1 && l * x as real == m as real
    ensures k as real < l <==> k * x < m
  {
    assert (l - k as real) * x as real == (m - k * x) as real;
    if k as real < l {
      assert (l - k as real) * x as real > 0.0;
    } else {
      ScaleUp(x as real, 0.0, l - k as real);
    }
  }

  lemma {:induction false} SmallCosts(c: Config, order: seq<Expert>)
    requires c.Valid() && forall e | e in order :: HighIsMemoryBound(c, e.tokens) && LowIsMemoryBound(c, e.tokens)
    ensures AllCost(ExpertCosts(c.GetRates(), order), 1.0, 1.0 / c.logicX as real)
  {
    forall i | 0 <= i < |order|
      ensures ExpertCosts(c.GetRates(), order)[i] == Cost(1.0, 1.0 / c.logicX as real)
    {
      assert order[i] in order;
      SmallExpertCosts(c, order[i].tokens);
    }
  }

  /** How many of m small experts the greedy loop moves to the high processor: as many as are worth it. */
  lemma {:induction false} SmallExpertsSplit(c: Config, order: seq<Expert>, k: nat)
    requires c.Valid() && StopsAt(ExpertCosts(c.GetRates(), order), k)
    requires forall e | e in order :: HighIsMemoryBound(c, e.tokens) && LowIsMemoryBound(c, e.tokens)
    ensures k == |order| || !Worth(c.logicX, |order|, k)
    ensures forall j: nat | j < k :: Worth(c.logicX, |order|, j)
  {
    var cs := ExpertCosts(c.GetRates(), order);
    SmallCosts(c, order);
    if k < |order| {
      EqualStep(cs, c.logicX, k);
    }
    forall j: nat | j < k
      ensures Worth(c.logicX, |order|, j)
    {
      EqualStep(cs, c.logicX, j);
    }
  }

  // ------------------------------------------------------------- quarters

  lemma {:induction false} TokensOfAppend(g: Group, h: Group)
    ensures GroupTokens(g + h) == GroupTokens(g) + GroupTokens(h)
  {
    if g == [] {
      assert g + h == h;
    } else {
      assert (g + h)[1..] == g[1..] + h;
      TokensOfAppend(g[1..], h);
    }
  }

  lemma {:induction false} TokensOfRange(list: seq<nat>, i: nat, j: nat, tokens: nat -> int)
    requires i <= j <= |list| && forall k: nat | k < |list| :: tokens(k) == list[k]
    ensures GroupTokens(Experts(list)[i..j]) == SumTo(j, tokens) - SumTo(i, tokens)
    decreases j
  {
    var es := Experts(list);
    if i < j {
      assert es[i..j] == es[i..j - 1] + [es[j - 1]];
      TokensOfAppend(es[i..j - 1], [es[j - 1]]);
      assert [es[j - 1]][1..] == [];
      TokensOfRange(list, i, j - 1, tokens);
    }
  }
}
