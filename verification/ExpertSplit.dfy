/** The split of a device's experts between its two processors, one expert at a time
    (src/module/route.cpp). */
module ExpertSplit {
  import opened Basics
  import opened GreedySplit

  /** The hardware figures the splitter reads; the low processor's bandwidth factor is a whole number. */
  datatype Config = Config(peakFlops: real, bandwidth: real, logicOpB: real, logicX: int) {
    ghost predicate Valid() {
      peakFlops > 0.0 && bandwidth > 0.0 && logicOpB > 0.0 && logicX >= 1
    }

    /** The balance point of the high processor next to the low processor's figures. */
    function GetRates(): (r: Rates)
      requires Valid()
      ensures r.Valid()
    {
      Rates(peakFlops / (bandwidth * 0.75), logicOpB, logicX as real)
    }
  }

  datatype Rates = Rates(highOpB: real, logicOpB: real, logicX: real) {
    ghost predicate Valid() {
      highOpB > 0.0 && logicOpB > 0.0 && logicX >= 1.0
    }
  }

  function HighTime(c: Rates, tokens: nat): real
    requires c.Valid()
  {
    MaxReal(1.0, tokens as real / c.highOpB)
  }

  function LowTime(c: Rates, tokens: nat): real
    requires c.Valid()
  {
    MaxReal(1.0, tokens as real / c.logicOpB * 0.75) / c.logicX
  }

  datatype Expert = Expert(id: nat, tokens: nat)

  function Experts(list: seq<nat>): (es: seq<Expert>)
    ensures |es| == |list|
    ensures forall i | 0 <= i < |list| :: es[i] == Expert(i, list[i])
  {
    seq(|list|, i requires 0 <= i < |list| => Expert(i, list[i]))
  }

  function Ids(es: seq<Expert>): (ids: seq<nat>)
    ensures |ids| == |es|
    ensures forall i | 0 <= i < |es| :: ids[i] == es[i].id
  {
    seq(|es|, i requires 0 <= i < |es| => es[i].id)
  }

  function Load(): Expert -> int {
    (e: Expert) => e.tokens
  }

  function ExpertCosts(c: Rates, es: seq<Expert>): (cs: seq<Cost>)
    requires c.Valid()
    ensures |cs| == |es|
    ensures forall i | 0 <= i < |es| :: cs[i] == Cost(HighTime(c, es[i].tokens), LowTime(c, es[i].tokens))
  {
    seq(|es|, i requires 0 <= i < |es| => Cost(HighTime(c, es[i].tokens), LowTime(c, es[i].tokens)))
  }

  ghost function HighPart(c: Rates, onHigh: set<nat>): Expert -> real
    requires c.Valid()
  {
    (e: Expert) => if e.id in onHigh then HighTime(c, e.tokens) else 0.0
  }

  ghost function LowPart(c: Rates, onHigh: set<nat>): Expert -> real
    requires c.Valid()
  {
    (e: Expert) => if e.id in onHigh then 0.0 else LowTime(c, e.tokens)
  }

  /** Completion time of a device whose high processor runs exactly the experts in onHigh. */
  ghost function Makespan(c: Rates, list: seq<nat>, onHigh: set<nat>): real
    requires c.Valid()
  {
    MaxReal(Sum(Experts(list), HighPart(c, onHigh)), Sum(Experts(list), LowPart(c, onHigh)))
  }

  lemma {:induction false} CostsArePositive(c: Rates, es: seq<Expert>)
    requires c.Valid()
    ensures Positive(ExpertCosts(c, es))
  {
    forall n: nat
      ensures LowTime(c, n) > 0.0
    {
      var top := MaxReal(1.0, n as real / c.logicOpB * 0.75);
      assert top >= 1.0 && LowTime(c, n) * c.logicX == top;
    }
  }

  /** With the high processor's balance point at or above the low one's, the high/low cost ratio
      does not rise with the number of tokens. */
  lemma {:induction false} RatioFallsWithTokens(c: Rates, m: nat, n: nat)
    requires c.Valid() && c.highOpB >= c.logicOpB / 0.75
    requires m <= n
    ensures HighTime(c, n) * LowTime(c, m) <= LowTime(c, n) * HighTime(c, m)
  {
    var x, y := m as real, n as real;
    LoadRatios(c.highOpB, c.logicOpB, x, y);
    MaxProducts(x / c.highOpB, x / c.logicOpB * 0.75, y / c.highOpB, y / c.logicOpB * 0.75);
    MaxProductsOver(MaxReal(1.0, y / c.highOpB), MaxReal(1.0, x / c.logicOpB * 0.75),
                    MaxReal(1.0, y / c.logicOpB * 0.75), MaxReal(1.0, x / c.highOpB), c.logicX);
  }

  lemma {:induction false} LoadRatios(high: real, low: real, x: real, y: real)
    requires low > 0.0 && high >= low / 0.75 && 0.0 <= x <= y
    ensures 0.0 <= x / high <= x / low * 0.75 <= y / low * 0.75
    ensures 0.0 <= x / high <= y / high <= y / low * 0.75
    ensures (y / high) * (x / low * 0.75) == (y / low * 0.75) * (x / high)
  {
    var a, b := 1.0 / high, 1.0 / low * 0.75;
    assert 0.0 < a <= b;
    AsProduct(x, high);
    AsProduct(y, high);
    AsProduct(x, low);
    AsProduct(y, low);
    LoadProducts(a, b, x, y);
  }

  lemma {:induction false} LoadProducts(a: real, b: real, x: real, y: real)
    requires 0.0 < a <= b && 0.0 <= x <= y
    ensures 0.0 <= x * a <= x * b <= y * b && x * a <= y * a <= y * b
  {
  }

  lemma {:induction false} AsProduct(x: real, d: real)
    requires d > 0.0
    ensures x / d == x * (1.0 / d)
  {
  }

  lemma {:induction false} MaxProducts(xa: real, xb: real, ya: real, yb: real)
    requires 0.0 <= xa <= xb && 0.0 <= ya <= yb && xa <= ya && xb <= yb
    requires ya * xb == yb * xa
    ensures MaxReal(1.0, ya) * MaxReal(1.0, xb) <= MaxReal(1.0, yb) * MaxReal(1.0, xa)
  {
    if ya > 1.0 && xb > 1.0 {
      ScaleUp(yb, MaxReal(1.0, xa), xa);
    }
  }

  lemma {:induction false} MaxProductsOver(p: real, q: real, r: real, s: real, d: real)
    requires d > 0.0 && p * q <= r * s
    ensures p * (q / d) <= (r / d) * s
  {
    assert p * (q / d) == (p * q) / d;
    assert (r / d) * s == (r * s) / d;
  }

  ghost predicate DistinctIds(es: seq<Expert>) {
    forall i, j | 0 <= i < j < |es| :: es[i].id != es[j].id
  }

  /** The marks an assignment of ids puts on a sorted list. */
  ghost function Marks(es: seq<Expert>, onHigh: set<nat>): (a: seq<bool>)
    ensures |a| == |es|
    ensures forall i | 0 <= i < |es| :: a[i] == (es[i].id in onHigh)
  {
    seq(|es|, i requires 0 <= i < |es| => es[i].id in onHigh)
  }

  lemma {:induction false} AssignedIsSum(c: Rates, es: seq<Expert>, onHigh: set<nat>, k: nat)
    requires c.Valid() && k <= |es|
    ensures var cs, a := ExpertCosts(c, es), Marks(es, onHigh);
      && AssignedHigh(cs, a, k) == Sum(es[..k], HighPart(c, onHigh))
      && AssignedLow(cs, a, k) == Sum(es[..k], LowPart(c, onHigh))
  {
    if k > 0 {
      AssignedIsSum(c, es, onHigh, k - 1);
      assert es[..k] == es[..k - 1] + [es[k - 1]];
      SumAppend(es[..k - 1], [es[k - 1]], HighPart(c, onHigh));
      SumAppend(es[..k - 1], [es[k - 1]], LowPart(c, onHigh));
    }
  }

  /** The makespan of an assignment may be read off any reordering of the experts. */
  lemma {:induction false} MakespanOfOrder(c: Rates, list: seq<nat>, order: seq<Expert>, onHigh: set<nat>)
    requires c.Valid() && multiset(order) == multiset(Experts(list))
    ensures Makespan(c, list, onHigh) == AssignedMakespan(ExpertCosts(c, order), Marks(order, onHigh))
  {
    AssignedIsSum(c, order, onHigh, |order|);
    assert order[..|order|] == order;
    SumPermutation(order, Experts(list), HighPart(c, onHigh));
    SumPermutation(order, Experts(list), LowPart(c, onHigh));
  }

  lemma {:induction false} PrefixIsAssignment(cs: seq<Cost>, a: seq<bool>, k: nat, j: nat)
    requires |a| == |cs| && k <= |cs| && j <= |cs|
    requires forall i | 0 <= i < |cs| :: a[i] <==> i < k
    ensures AssignedHigh(cs, a, j) == PrefixHigh(cs, MinNat(j, k))
    ensures AssignedLow(cs, a, j) == if j <= k then 0.0 else SuffixLow(cs, k) - SuffixLow(cs, j)
  {
    if j > 0 {
      PrefixIsAssignment(cs, a, k, j - 1);
    }
  }

  lemma {:induction false} OrderHasDistinctIds(list: seq<nat>, order: seq<Expert>)
    requires multiset(order) == multiset(Experts(list))
    ensures DistinctIds(order) && forall e | e in order :: e.id < |list|
  {
    var es := Experts(list);
    forall e | e in order
      ensures e.id < |list| && e == es[e.id]
    {
      assert e in multiset(order);
    }
    forall i, j | 0 <= i < j < |order|
      ensures order[i].id != order[j].id
    {
      var e := order[i];
      assert es == es[..e.id] + [e] + es[e.id + 1..];
      assert multiset(es)[e] == 1;
      assert order == order[..i] + [e] + order[i + 1..];
      assert multiset(order)[e] == 1 + multiset(order[..i])[e] + multiset(order[i + 1..])[e];
      assert order[i + 1..][j - i - 1] == order[j];
    }
  }

  /** The makespan of the experts at the head of a sorted list is that list's prefix makespan. */
  lemma {:induction false} MakespanOfPrefix(c: Rates, list: seq<nat>, order: seq<Expert>, k: nat)
    requires c.Valid() && multiset(order) == multiset(Experts(list)) && k <= |order|
    ensures var onHigh := set id | id in Ids(order[..k]);
      Makespan(c, list, onHigh) == PrefixMakespan(ExpertCosts(c, order), k)
  {
    var onHigh := set id | id in Ids(order[..k]);
    var a := Marks(order, onHigh);
    OrderHasDistinctIds(list, order);
    forall i | 0 <= i < |order|
      ensures a[i] <==> i < k
    {
      if i < k {
        assert Ids(order[..k])[i] == order[i].id;
      } else {
        assert forall j | 0 <= j < k :: Ids(order[..k])[j] == order[j].id;
      }
    }
    MakespanOfOrder(c, list, order, onHigh);
    PrefixIsAssignment(ExpertCosts(c, order), a, k, |order|);
  }

  /** The experts chosen by the first k entries of a sorted list. */
  ghost function Chosen(ids: seq<nat>): set<nat> {
    set id | id in ids
  }

  /** Falling loads are rising cost ratios. */
  lemma {:induction false} SortedByRatio(r: Rates, order: seq<Expert>)
    requires r.Valid() && r.highOpB >= r.logicOpB / 0.75 && Descending(order, Load())
    ensures RatioSorted(ExpertCosts(r, order))
  {
    var cs := ExpertCosts(r, order);
    forall i: nat, j: nat | i <= j < |cs|
      ensures Suits(cs, i, j)
    {
      assert Load()(order[i]) >= Load()(order[j]);
      RatioFallsWithTokens(r, order[j].tokens, order[i].tokens);
    }
  }

  /** With the high processor's balance point below the low one's, no expert is faster on the high processor. */
  lemma {:induction false} LowIsCheaper(r: Rates, n: nat)
    requires r.Valid() && r.highOpB < r.logicOpB / 0.75
    ensures LowTime(r, n) <= HighTime(r, n)
  {
    SmallerLoad(r.highOpB, r.logicOpB, n as real);
    DivideByMore(MaxReal(1.0, n as real / r.logicOpB * 0.75), r.logicX);
  }

  lemma {:induction false} SmallerLoad(high: real, low: real, x: real)
    requires 0.0 < high < low / 0.75 && x >= 0.0
    ensures x / low * 0.75 <= x / high
  {
    var a, b := 1.0 / high, 1.0 / low;
    AsProduct(x, high);
    AsProduct(x, low);
    SmallerShare(high, low);
    ScaleUp(x, a, b * 0.75);
    Reassociate(x, b, 0.75);
  }

  lemma {:induction false} Reassociate(x: real, y: real, z: real)
    ensures x * y * z == x * (y * z)
  {
  }

  lemma {:induction false} SmallerShare(high: real, low: real)
    requires 0.0 < high < low / 0.75
    ensures 1.0 / low * 0.75 <= 1.0 / high
  {
  }

  lemma {:induction false} DivideByMore(x: real, d: real)
    requires x >= 0.0 && d >= 1.0
    ensures x / d <= x
  {
    ScaleUp(x, 1.0, 1.0 / d);
    AsProduct(x, d);
  }

  /** Whatever order the sort leaves equal loads in, the greedy split is a 2-approximation. */
  lemma {:induction false} SplitIsTwoApproximation(r: Rates, list: seq<nat>, order: seq<Expert>, k: nat,
                                                   onHigh: set<nat>)
    requires r.Valid() && multiset(order) == multiset(Experts(list)) && Descending(order, Load())
    requires StopsAt(ExpertCosts(r, order), k)
    ensures Makespan(r, list, Chosen(Ids(order[..k]))) <= 2.0 * Makespan(r, list, onHigh)
  {
    var cs := ExpertCosts(r, order);
    CostsArePositive(r, order);
    if r.highOpB >= r.logicOpB / 0.75 {
      SortedByRatio(r, order);
      GreedyIsTwoApproximation(cs, k, Marks(order, onHigh));
    } else {
      forall i | 0 <= i < |cs|
        ensures cs[i].low <= cs[i].high
      {
        LowIsCheaper(r, order[i].tokens);
      }
      CheapLowIsTwoApproximation(cs, k, Marks(order, onHigh));
    }
    MakespanOfOrder(r, list, order, onHigh);
    MakespanOfPrefix(r, list, order, k);
  }

  /** The chosen experts finish within twice the time of every assignment. */
  ghost predicate WithinTwice(r: Rates, list: seq<nat>, highList: seq<nat>)
    requires r.Valid()
  {
    forall onHigh: set<nat> :: Makespan(r, list, Chosen(highList)) <= 2.0 * Makespan(r, list, onHigh)
  }

  /** The chosen experts are the head of a sorted order, and no other head finishes earlier. */
  ghost predicate BestHead(r: Rates, list: seq<nat>, order: seq<Expert>, highList: seq<nat>)
    requires r.Valid()
  {
    && multiset(order) == multiset(Experts(list)) && Descending(order, Load())
    && |highList| <= |order| && highList == Ids(order[..|highList|])
    && forall k: nat | k <= |order| ::
         Makespan(r, list, Chosen(highList)) <= Makespan(r, list, Chosen(Ids(order[..k])))
  }

  /** The chosen experts are distinct and exist. */
  ghost predicate DistinctExperts(list: seq<nat>, highList: seq<nat>) {
    && (forall i, j | 0 <= i < j < |highList| :: highList[i] != highList[j])
    && (forall id | id in highList :: id < |list|)
  }

  /** No expert left to the low processor has more tokens than a chosen one. */
  ghost predicate LargestLoads(list: seq<nat>, highList: seq<nat>) {
    forall i, j | i in highList && j !in highList && 0 <= i < |list| && 0 <= j < |list| :: list[i] >= list[j]
  }

  /** The per-expert splitter. `order` is the sorted list it works on. */
  method GetIdxHighOptimal(list: seq<nat>, c: Config) returns (highList: seq<nat>, ghost order: seq<Expert>)
    requires c.Valid()
    ensures BestHead(c.GetRates(), list, order, highList)
    ensures StopsAt(ExpertCosts(c.GetRates(), order), |highList|)
    ensures WithinTwice(c.GetRates(), list, highList)
    ensures DistinctExperts(list, highList) && LargestLoads(list, highList)
  {
    var r := c.GetRates();
    var sorted := SortDescending(Experts(list), Load());
    order := sorted;
    ghost var cs := ExpertCosts(r, order);
    assert |order| == |multiset(order)| == |list|;
    var highTime := 0.0;
    var lowTime := TotalLowTime(list, r, order);
    highList := [];
    var max := MaxReal(highTime, lowTime);
    for i := 0 to |sorted|
      invariant |cs| == |sorted| && order == sorted
      invariant i == |highList| && highList == Ids(order[..i])
      invariant highTime == PrefixHigh(cs, i) && lowTime == SuffixLow(cs, i)
      invariant max == PrefixMakespan(cs, i)
      invariant forall j | 0 <= j < i :: PrefixMakespan(cs, j + 1) < PrefixMakespan(cs, j)
    {
      var tokens := sorted[i].tokens;
      highTime := highTime + HighTime(r, tokens);
      lowTime := lowTime - LowTime(r, tokens);
      var temp := MaxReal(highTime, lowTime);
      if max > temp {
        highList := highList + [sorted[i].id];
        max := temp;
      } else {
        break;
      }
    }
    SplitMakespan(r, list, order, |highList|);
    HeadHasLargestLoads(list, order, |highList|);
  }

  /** What the position of the greedy stop means for the makespan of the chosen experts. */
  lemma {:induction false} SplitMakespan(r: Rates, list: seq<nat>, order: seq<Expert>, k: nat)
    requires r.Valid() && multiset(order) == multiset(Experts(list)) && Descending(order, Load())
    requires StopsAt(ExpertCosts(r, order), k)
    ensures WithinTwice(r, list, Ids(order[..k])) && BestHead(r, list, order, Ids(order[..k]))
  {
    forall onHigh: set<nat> {
      SplitIsTwoApproximation(r, list, order, k, onHigh);
    }
    CostsArePositive(r, order);
    forall j: nat | j <= |order|
      ensures Makespan(r, list, Chosen(Ids(order[..k]))) <= Makespan(r, list, Chosen(Ids(order[..j])))
    {
      GreedyStopIsPrefixOptimal(ExpertCosts(r, order), k, j);
      MakespanOfPrefix(r, list, order, k);
      MakespanOfPrefix(r, list, order, j);
    }
  }

  /** The chosen experts are distinct, exist, and carry the largest loads. */
  lemma {:induction false} HeadHasLargestLoads(list: seq<nat>, order: seq<Expert>, k: nat)
    requires multiset(order) == multiset(Experts(list)) && Descending(order, Load()) && k <= |order|
    ensures DistinctExperts(list, Ids(order[..k])) && LargestLoads(list, Ids(order[..k]))
  {
    var highList := Ids(order[..k]);
    OrderHasDistinctIds(list, order);
    assert forall i | 0 <= i < k :: highList[i] == order[i].id;
    forall i, j | i in highList && j !in highList && 0 <= j < |list|
      ensures list[i] >= list[j]
    {
      var p :| 0 <= p < k && highList[p] == i;
      assert Experts(list)[j] in multiset(order);
      var q :| 0 <= q < |order| && order[q] == Experts(list)[j];
      assert order[p] in multiset(Experts(list));
    }
  }

  /** The loop that adds up the low processor's time for every expert. */
  method TotalLowTime(list: seq<nat>, r: Rates, ghost order: seq<Expert>) returns (lowTime: real)
    requires r.Valid() && multiset(order) == multiset(Experts(list))
    ensures lowTime == SuffixLow(ExpertCosts(r, order), 0)
  {
    lowTime := 0.0;
    ghost var es, part := Experts(list), LowPart(r, {});
    for i := 0 to |list|
      invariant lowTime == Sum(es[..i], part)
    {
      lowTime := lowTime + LowTime(r, list[i]);
      assert es[..i + 1] == es[..i] + [es[i]];
      SumAppend(es[..i], [es[i]], part);
    }
    assert es[..|es|] == es && order[..|order|] == order;
    SumPermutation(order, es, part);
    AssignedIsSum(r, order, {}, |order|);
    PrefixIsAssignment(ExpertCosts(r, order), Marks(order, {}), 0, |order|);
  }
}
