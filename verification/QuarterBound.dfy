/** How far the split by quarters can be from other splits (src/module/route.cpp). */
module QuarterBound {
  import opened Basics
  import opened GreedySplit
  import opened ExpertSplit
  import opened GroupSplit

  // ------------------------------------------------------- whole quarters

  lemma {:induction false} PrefixesOfExperts(r: Rates, es: seq<Expert>, k: nat)
    requires r.Valid() && k <= |es|
    ensures PrefixHigh(ExpertCosts(r, es), k) == Sum(es[..k], HighTimes(r))
    ensures SuffixLow(ExpertCosts(r, es), k) == Sum(es, LowTimes(r)) - Sum(es[..k], LowTimes(r))
  {
    PrefixSums(r, es, k);
    PrefixSums(r, es, |es|);
    assert es[..|es|] == es;
  }

  lemma {:induction false} PrefixSums(r: Rates, es: seq<Expert>, k: nat)
    requires r.Valid() && k <= |es|
    ensures PrefixHigh(ExpertCosts(r, es), k) == Sum(es[..k], HighTimes(r))
    ensures SuffixLow(ExpertCosts(r, es), 0) - SuffixLow(ExpertCosts(r, es), k) == Sum(es[..k], LowTimes(r))
  {
    if k > 0 {
      PrefixSums(r, es, k - 1);
      assert es[..k] == es[..k - 1] + [es[k - 1]];
      SumAppend(es[..k - 1], [es[k - 1]], HighTimes(r));
      SumAppend(es[..k - 1], [es[k - 1]], LowTimes(r));
    }
  }

  lemma {:induction false} HighOfMembers(high: Expert -> real, low: Expert -> real, gs: seq<Group>, k: nat)
    requires k <= |gs|
    ensures PrefixHigh(GroupCosts(high, low, gs), k) == Sum(Members(gs[..k]), high)
  {
    if k > 0 {
      HighOfMembers(high, low, gs, k - 1);
      MembersNext(gs, k);
      NextHigh(high, low, gs, k);
      SumAppend(Members(gs[..k - 1]), gs[k - 1], high);
    } else {
      assert gs[..0] == [];
    }
  }

  lemma {:induction false} NextHigh(high: Expert -> real, low: Expert -> real, gs: seq<Group>, k: nat)
    requires 0 < k <= |gs|
    ensures PrefixHigh(GroupCosts(high, low, gs), k) ==
      PrefixHigh(GroupCosts(high, low, gs), k - 1) + Sum(gs[k - 1], high)
  {
  }

  lemma {:induction false} MembersNext(gs: seq<Group>, k: nat)
    requires 0 < k <= |gs|
    ensures Members(gs[..k]) == Members(gs[..k - 1]) + gs[k - 1]
  {
    assert gs[..k][..k - 1] == gs[..k - 1];
  }

  /** The makespan of the experts of the first k quarters is that of the prefix of quarters. */
  lemma {:induction false} MakespanOfQuarters(r: Rates, list: seq<nat>, order: seq<Group>, k: nat)
    requires r.Valid() && multiset(Members(order)) == multiset(Experts(list)) && k <= |order|
    ensures Makespan(r, list, Chosen(Ids(Members(order[..k]))))
            == PrefixMakespan(GroupCosts(HighTimes(r), LowTimes(r), order), k)
  {
    var head, all := Members(order[..k]), Members(order);
    assert order == order[..k] + order[k..] && order[..|order|] == order;
    MembersAppend(order[..k], order[k..]);
    assert all[..|head|] == head;
    MakespanOfPrefix(r, list, all, |head|);
    PrefixesOfExperts(r, all, |head|);
    HighOfMembers(HighTimes(r), LowTimes(r), order, k);
    LowOfMembers(HighTimes(r), LowTimes(r), order, k);
    LowOfMembers(HighTimes(r), LowTimes(r), order, |order|);
  }

  /** With the high balance point below the low one, the split by quarters is within twice the time of every
      assignment, even of single experts. */
  lemma {:induction false} CheapLowQuarters(r: Rates, list: seq<nat>, order: seq<Group>, k: nat, onHigh: set<nat>)
    requires r.Valid() && r.highOpB < r.logicOpB / 0.75
    requires multiset(Members(order)) == multiset(Experts(list)) && k <= |order|
    requires var cs := GroupCosts(HighTimes(r), LowTimes(r), order); PrefixMakespan(cs, k) <= PrefixMakespan(cs, 0)
    ensures Makespan(r, list, Chosen(Ids(Members(order[..k])))) <= 2.0 * Makespan(r, list, onHigh)
  {
    var es := Experts(list);
    MakespanOfQuarters(r, list, order, k);
    MakespanOfQuarters(r, list, order, 0);
    assert order[..0] == [] && Members(order[..0]) == [];
    MakespanOfPrefix(r, list, es, 0);
    LowPaysForAll(r, list, onHigh);
  }

  lemma {:induction false} LowPaysForAll(r: Rates, list: seq<nat>, onHigh: set<nat>)
    requires r.Valid() && r.highOpB < r.logicOpB / 0.75
    ensures PrefixMakespan(ExpertCosts(r, Experts(list)), 0) <= 2.0 * Makespan(r, list, onHigh)
  {
    var es := Experts(list);
    var cs, a := ExpertCosts(r, es), Marks(es, onHigh);
    CostsArePositive(r, es);
    forall i | 0 <= i < |cs|
      ensures cs[i].low <= cs[i].high
    {
      LowIsCheaper(r, es[i].tokens);
    }
    AssignedPaysLow(cs, a, |cs|);
    AssignedNonNegative(cs, a, |cs|);
    MakespanOfOrder(r, list, es, onHigh);
  }

  // --------------------------------------------------------- general bound

  /** What a quarter of n experts costs if its tokens are spread evenly. */
  function EvenCost(r: Rates, n: nat, tokens: nat): Cost
    requires r.Valid()
  {
    Cost(MaxReal(n as real, tokens as real / r.highOpB),
         MaxReal(n as real, tokens as real / r.logicOpB * 0.75) / r.logicX)
  }

  function EvenCosts(r: Rates, n: nat, gs: seq<Group>): (cs: seq<Cost>)
    requires r.Valid()
    ensures |cs| == |gs| && forall i | 0 <= i < |gs| :: cs[i] == EvenCost(r, n, GroupTokens(gs[i]))
  {
    seq(|gs|, i requires 0 <= i < |gs| => EvenCost(r, n, GroupTokens(gs[i])))
  }

  /** y lies between x and twice x. */
  ghost predicate UpToTwice(x: real, y: real) {
    x <= y <= 2.0 * x
  }

  ghost predicate CostUpToTwice(c: Cost, d: Cost) {
    UpToTwice(c.high, d.high) && UpToTwice(c.low, d.low)
  }

  ghost predicate AddsUp(w: nat -> real, m: nat, n: nat) {
    w(m + n) == w(m) + w(n) && w(m) >= 0.0
  }

  /** A load that tokens add up to. */
  ghost predicate Additive(w: nat -> real) {
    forall m: nat, n: nat :: AddsUp(w, m, n)
  }

  /** The sum, over experts, of the larger of one and the load, against the experts' number and their load together. */
  lemma {:induction false} SumOfLarger(g: Group, f: Expert -> real, w: nat -> real)
    requires Additive(w) && forall e: Expert :: f(e) == MaxReal(1.0, w(e.tokens))
    ensures Sum(g, f) >= |g| as real && Sum(g, f) >= w(GroupTokens(g)) >= 0.0
    ensures Sum(g, f) <= |g| as real + w(GroupTokens(g))
  {
    if g == [] {
      assert AddsUp(w, 0, 0);
    } else {
      SumOfLarger(g[1..], f, w);
      assert AddsUp(w, g[0].tokens, GroupTokens(g[1..]));
    }
  }

  lemma {:induction false} SharesAddUp(x: real, y: real, d: real)
    requires d > 0.0
    ensures (x + y) / d == x / d + y / d && (x >= 0.0 ==> x / d >= 0.0)
  {
    AsProduct(x, d);
    AsProduct(y, d);
    AsProduct(x + y, d);
    assert (x + y) * (1.0 / d) == x * (1.0 / d) + y * (1.0 / d);
    if x >= 0.0 {
      assert x * (1.0 / d) >= 0.0;
    }
  }

  function HighLoad(r: Rates): nat -> real
    requires r.Valid()
  {
    (n: nat) => n as real / r.highOpB
  }

  function LowLoad(r: Rates): nat -> real
    requires r.Valid()
  {
    (n: nat) => n as real / r.logicOpB * 0.75
  }

  lemma {:induction false} LoadsAreAdditive(r: Rates)
    requires r.Valid()
    ensures Additive(HighLoad(r)) && Additive(LowLoad(r))
  {
    forall m: nat, n: nat
      ensures AddsUp(HighLoad(r), m, n) && AddsUp(LowLoad(r), m, n)
    {
      LoadsAddUp(r, m, n);
    }
  }

  lemma {:induction false} LoadsAddUp(r: Rates, m: nat, n: nat)
    requires r.Valid()
    ensures AddsUp(HighLoad(r), m, n) && AddsUp(LowLoad(r), m, n)
  {
    SharesAddUp(m as real, n as real, r.highOpB);
    SharesAddUp(m as real, n as real, r.logicOpB);
  }

  lemma {:induction false} SumScaled(g: Group, f: Expert -> real, h: Expert -> real, x: real)
    requires x > 0.0 && forall e: Expert :: h(e) == f(e) / x
    ensures Sum(g, h) == Sum(g, f) / x
  {
    if g != [] {
      SumScaled(g[1..], f, h, x);
      assert f(g[0]) / x + Sum(g[1..], f) / x == (f(g[0]) + Sum(g[1..], f)) / x;
    }
  }

  lemma {:induction false} LargerUpToTwice(a: real, b: real, sum: real)
    requires a >= 0.0 && b >= 0.0 && sum >= a && sum >= b && sum <= a + b
    ensures UpToTwice(MaxReal(a, b), sum)
  {
  }

  lemma {:induction false} QuotientUpToTwice(x: real, y: real, d: real)
    requires d > 0.0 && UpToTwice(x, y)
    ensures UpToTwice(x / d, y / d)
  {
    AsProduct(x, d);
    AsProduct(y, d);
    ScaleUp(1.0 / d, y, x);
    ScaleUp(1.0 / d, 2.0 * x, y);
    assert 1.0 / d * (2.0 * x) == 2.0 * (1.0 / d * x);
  }

  /** However the tokens of a quarter are spread, it costs at least as much as if they were spread evenly, and at most
      twice as much. */
  lemma {:induction false} EvenIsClose(r: Rates, n: nat, g: Group)
    requires r.Valid() && |g| == n
    ensures CostUpToTwice(EvenCost(r, n, GroupTokens(g)), Cost(Sum(g, HighTimes(r)), Sum(g, LowTimes(r))))
  {
    var high, low := HighLoad(r), LowLoad(r);
    var top := (e: Expert) => MaxReal(1.0, low(e.tokens));
    LoadsAreAdditive(r);
    SumOfLarger(g, HighTimes(r), high);
    SumOfLarger(g, top, low);
    SumScaled(g, top, LowTimes(r), r.logicX);
    LargerUpToTwice(n as real, high(GroupTokens(g)), Sum(g, HighTimes(r)));
    LargerUpToTwice(n as real, low(GroupTokens(g)), Sum(g, top));
    QuotientUpToTwice(MaxReal(n as real, low(GroupTokens(g))), Sum(g, top), r.logicX);
  }

  lemma {:induction false} LargerProducts(n: real, xa: real, xb: real, ya: real, yb: real)
    requires n >= 0.0 && 0.0 <= xa <= xb && 0.0 <= ya <= yb && xa <= ya && xb <= yb
    requires ya * xb == yb * xa
    ensures MaxReal(n, ya) * MaxReal(n, xb) <= MaxReal(n, yb) * MaxReal(n, xa)
  {
    if ya <= n {
      BothLarger(n, MaxReal(n, xb), MaxReal(n, xa), MaxReal(n, yb));
    } else if xb <= n {
      BothLarger(ya, n, yb, MaxReal(n, xa));
    } else {
      ScaleUp(yb, MaxReal(n, xa), xa);
    }
  }

  lemma {:induction false} BothLarger(a: real, b: real, c: real, d: real)
    requires 0.0 <= a <= c && 0.0 <= b <= d
    ensures a * b <= c * d
  {
    ScaleUp(a, d, b);
    ScaleUp(d, c, a);
  }

  lemma {:induction false} EvenRatioFalls(r: Rates, n: nat, x: nat, y: nat)
    requires r.Valid() && r.highOpB >= r.logicOpB / 0.75 && x <= y
    ensures SuitsHigh(EvenCost(r, n, y), EvenCost(r, n, x))
  {
    var a, b := x as real, y as real;
    LoadRatios(r.highOpB, r.logicOpB, a, b);
    LargerRatios(n as real, a / r.highOpB, a / r.logicOpB * 0.75, b / r.highOpB, b / r.logicOpB * 0.75, r.logicX);
  }

  lemma {:induction false} LargerRatios(n: real, xa: real, xb: real, ya: real, yb: real, d: real)
    requires n >= 0.0 && 0.0 <= xa <= xb && 0.0 <= ya <= yb && xa <= ya && xb <= yb && d > 0.0
    requires ya * xb == yb * xa
    ensures SuitsHigh(Cost(MaxReal(n, ya), MaxReal(n, yb) / d), Cost(MaxReal(n, xa), MaxReal(n, xb) / d))
  {
    LargerProducts(n, xa, xb, ya, yb);
    MaxProductsOver(MaxReal(n, ya), MaxReal(n, xb), MaxReal(n, yb), MaxReal(n, xa), d);
  }

  lemma {:induction false} EvenIsPositive(r: Rates, n: nat, tokens: nat)
    requires r.Valid() && n >= 1
    ensures EvenCost(r, n, tokens).high > 0.0 && EvenCost(r, n, tokens).low > 0.0
  {
    PositiveQuotient(MaxReal(n as real, LowLoad(r)(tokens)), r.logicX);
  }

  lemma {:induction false} PositiveQuotient(x: real, d: real)
    requires x > 0.0 && d > 0.0
    ensures x / d > 0.0
  {
    assert x / d * d == x;
  }

  lemma {:induction false} EvenCostsArePositive(r: Rates, n: nat, order: seq<Group>)
    requires r.Valid() && n >= 1
    ensures Positive(EvenCosts(r, n, order))
  {
    forall i | 0 <= i < |order|
      ensures EvenCosts(r, n, order)[i].high > 0.0 && EvenCosts(r, n, order)[i].low > 0.0
    {
      EvenIsPositive(r, n, GroupTokens(order[i]));
    }
  }

  lemma {:induction false} EvenCostsAreSorted(r: Rates, n: nat, order: seq<Group>)
    requires r.Valid() && r.highOpB >= r.logicOpB / 0.75 && Descending(order, GroupLoad())
    ensures RatioSorted(EvenCosts(r, n, order))
  {
    forall i: nat, j: nat | i <= j < |order|
      ensures Suits(EvenCosts(r, n, order), i, j)
    {
      EvenCostSuits(r, n, order, i, j);
    }
  }

  lemma {:induction false} EvenCostSuits(r: Rates, n: nat, order: seq<Group>, i: nat, j: nat)
    requires r.Valid() && r.highOpB >= r.logicOpB / 0.75 && Descending(order, GroupLoad()) && i <= j < |order|
    ensures Suits(EvenCosts(r, n, order), i, j)
  {
    assert GroupLoad()(order[i]) >= GroupLoad()(order[j]);
    EvenRatioFalls(r, n, GroupTokens(order[j]), GroupTokens(order[i]));
    assert EvenCosts(r, n, order)[i] == EvenCost(r, n, GroupTokens(order[i]));
    assert EvenCosts(r, n, order)[j] == EvenCost(r, n, GroupTokens(order[j]));
  }

  // ------------------------------------------------------- comparing lists

  ghost predicate ListUpToTwice(cs: seq<Cost>, ds: seq<Cost>) {
    |cs| == |ds| && forall i | 0 <= i < |cs| :: CostUpToTwice(cs[i], ds[i])
  }

  lemma {:induction false} PrefixUpToTwice(cs: seq<Cost>, ds: seq<Cost>, k: nat)
    requires ListUpToTwice(cs, ds) && k <= |cs|
    ensures UpToTwice(PrefixHigh(cs, k), PrefixHigh(ds, k))
  {
    if k > 0 {
      PrefixUpToTwice(cs, ds, k - 1);
      assert CostUpToTwice(cs[k - 1], ds[k - 1]);
    }
  }

  lemma {:induction false} SuffixUpToTwice(cs: seq<Cost>, ds: seq<Cost>, k: nat)
    requires ListUpToTwice(cs, ds) && k <= |cs|
    ensures UpToTwice(SuffixLow(cs, k), SuffixLow(ds, k))
    decreases |cs| - k
  {
    if k < |cs| {
      SuffixUpToTwice(cs, ds, k + 1);
      assert CostUpToTwice(cs[k], ds[k]);
    }
  }

  lemma {:induction false} AssignedIsMore(cs: seq<Cost>, ds: seq<Cost>, a: seq<bool>, k: nat)
    requires ListUpToTwice(cs, ds) && |a| == |cs| && k <= |cs|
    ensures AssignedHigh(cs, a, k) <= AssignedHigh(ds, a, k) && AssignedLow(cs, a, k) <= AssignedLow(ds, a, k)
  {
    if k > 0 {
      AssignedIsMore(cs, ds, a, k - 1);
      assert CostUpToTwice(cs[k - 1], ds[k - 1]);
    }
  }

  /** The greedy loop stops somewhere on every list. */
  lemma {:induction false} GreedyStops(cs: seq<Cost>, i: nat) returns (k: nat)
    requires i <= |cs| && forall j | 0 <= j < i :: PrefixMakespan(cs, j + 1) < PrefixMakespan(cs, j)
    ensures StopsAt(cs, k)
    decreases |cs| - i
  {
    if i == |cs| || PrefixMakespan(cs, i) <= PrefixMakespan(cs, i + 1) {
      k := i;
    } else {
      k := GreedyStops(cs, i + 1);
    }
  }

  /** The best prefix of a list finishes within four times every assignment, if the list lies up to a factor of two
      above one whose cost ratios rise. */
  lemma {:induction false} BestPrefixIsFourApproximation(cs: seq<Cost>, ds: seq<Cost>, k: nat, a: seq<bool>)
    requires Positive(cs) && RatioSorted(cs) && ListUpToTwice(cs, ds) && |a| == |ds| && k <= |ds|
    requires forall j: nat | j <= |ds| :: PrefixMakespan(ds, k) <= PrefixMakespan(ds, j)
    ensures PrefixMakespan(ds, k) <= 4.0 * AssignedMakespan(ds, a)
  {
    var j := GreedyStops(cs, 0);
    GreedyIsTwoApproximation(cs, j, a);
    PrefixUpToTwice(cs, ds, j);
    SuffixUpToTwice(cs, ds, j);
    AssignedIsMore(cs, ds, a, |cs|);
    assert PrefixMakespan(ds, k) <= PrefixMakespan(ds, j);
  }

  /** The split by quarters finishes within twice the time of every assignment of single experts if the high balance
      point is below the low one, and within four times that of every assignment of whole quarters otherwise. */
  lemma {:induction false} QuarterSplitIsClose(r: Rates, list: seq<nat>, groups: seq<Group>, order: seq<Group>, k: nat,
                                               highList: seq<nat>)
    requires r.Valid() && |list| >= 4 && BestPrefix(r, list, groups, order, k, highList)
    ensures r.highOpB < r.logicOpB / 0.75 ==> WithinTwice(r, list, highList)
    ensures var cs := GroupCosts(HighTimes(r), LowTimes(r), order);
      && Makespan(r, list, Chosen(highList)) == PrefixMakespan(cs, k)
      && (r.highOpB >= r.logicOpB / 0.75 ==>
            forall a: seq<bool> | |a| == |cs| :: PrefixMakespan(cs, k) <= 4.0 * AssignedMakespan(cs, a))
  {
    var n := |list| / 4;
    ReorderedGroups(HighTimes(r), LowTimes(r), Experts(list), groups, order);
    MakespanOfQuarters(r, list, order, k);
    if r.highOpB < r.logicOpB / 0.75 {
      forall onHigh: set<nat> {
        CheapLowQuarters(r, list, order, k, onHigh);
      }
    } else {
      var cs, ds := EvenCosts(r, n, order), GroupCosts(HighTimes(r), LowTimes(r), order);
      EvenCostsArePositive(r, n, order);
      EvenCostsAreSorted(r, n, order);
      forall i | 0 <= i < |cs|
        ensures CostUpToTwice(cs[i], ds[i])
      {
        assert order[i] in order;
        EvenIsClose(r, n, order[i]);
      }
      forall a: seq<bool> | |a| == |ds|
        ensures PrefixMakespan(ds, k) <= 4.0 * AssignedMakespan(ds, a)
      {
        BestPrefixIsFourApproximation(cs, ds, k, a);
      }
    }
  }
}
