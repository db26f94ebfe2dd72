/** Greedy splitting of a list of items between two processors: the cost model behind the
    loops of src/module/route.cpp and the theorems about where those loops stop. */
module GreedySplit {
  import opened Basics

  // ---------------------------------------------------------------- costs

  /** What one item costs on the high-throughput and on the low-throughput processor. */
  datatype Cost = Cost(high: real, low: real)

  ghost predicate Positive(cs: seq<Cost>) {
    forall i | 0 <= i < |cs| :: cs[i].high > 0.0 && cs[i].low > 0.0
  }

  /** Time of the high processor when it takes the first k items. */
  function PrefixHigh(cs: seq<Cost>, k: nat): real
    requires k <= |cs|
  {
    if k == 0 then 0.0 else PrefixHigh(cs, k - 1) + cs[k - 1].high
  }

  /** Time of the low processor when it takes all items but the first k. */
  function SuffixLow(cs: seq<Cost>, k: nat): real
    requires k <= |cs|
    decreases |cs| - k
  {
    if k == |cs| then 0.0 else cs[k].low + SuffixLow(cs, k + 1)
  }

  function PrefixMakespan(cs: seq<Cost>, k: nat): real
    requires k <= |cs|
  {
    MaxReal(PrefixHigh(cs, k), SuffixLow(cs, k))
  }

  /** Where the greedy loops stop: the next item would not lower the makespan. */
  ghost predicate StopsAt(cs: seq<Cost>, k: nat) {
    && k <= |cs|
    && (k == |cs| || PrefixMakespan(cs, k) <= PrefixMakespan(cs, k + 1))
    && forall i | 0 <= i < k :: PrefixMakespan(cs, i + 1) < PrefixMakespan(cs, i)
  }

  lemma {:induction false} PrefixesAreMonotone(cs: seq<Cost>, i: nat, j: nat)
    requires Positive(cs) && i < j <= |cs|
    ensures PrefixHigh(cs, i) < PrefixHigh(cs, j)
    ensures SuffixLow(cs, j) < SuffixLow(cs, i)
    decreases j
  {
    if i < j - 1 {
      PrefixesAreMonotone(cs, i, j - 1);
    }
  }

  lemma {:induction false} DescentIsMonotone(cs: seq<Cost>, i: nat, k: nat)
    requires StopsAt(cs, k) && i <= k
    ensures PrefixMakespan(cs, k) <= PrefixMakespan(cs, i)
    decreases k - i
  {
    if i < k {
      assert PrefixMakespan(cs, i + 1) < PrefixMakespan(cs, i);
      DescentIsMonotone(cs, i + 1, k);
    }
  }

  /** Stopping at the first step that does not help is optimal among all prefixes. */
  lemma {:induction false} GreedyStopIsPrefixOptimal(cs: seq<Cost>, k: nat, j: nat)
    requires Positive(cs) && StopsAt(cs, k) && j <= |cs|
    ensures PrefixMakespan(cs, k) <= PrefixMakespan(cs, j)
  {
    if j <= k {
      DescentIsMonotone(cs, j, k);
    } else {
      PrefixesAreMonotone(cs, k, k + 1);
      if j > k + 1 {
        PrefixesAreMonotone(cs, k + 1, j);
      }
    }
  }

  // ------------------------------------------------- approximation bound

  function AssignedHigh(cs: seq<Cost>, a: seq<bool>, k: nat): real
    requires |a| == |cs| && k <= |cs|
  {
    if k == 0 then 0.0 else AssignedHigh(cs, a, k - 1) + if a[k - 1] then cs[k - 1].high else 0.0
  }

  function AssignedLow(cs: seq<Cost>, a: seq<bool>, k: nat): real
    requires |a| == |cs| && k <= |cs|
  {
    if k == 0 then 0.0 else AssignedLow(cs, a, k - 1) + if a[k - 1] then 0.0 else cs[k - 1].low
  }

  /** Completion time when exactly the items marked in a go to the high processor. */
  function AssignedMakespan(cs: seq<Cost>, a: seq<bool>): real
    requires |a| == |cs|
  {
    MaxReal(AssignedHigh(cs, a, |cs|), AssignedLow(cs, a, |cs|))
  }

  /** An item that costs c is at least as well suited to the high processor as one that costs d. */
  ghost predicate SuitsHigh(c: Cost, d: Cost) {
    c.high * d.low <= c.low * d.high
  }

  ghost predicate Suits(cs: seq<Cost>, i: nat, j: nat)
    requires i < |cs| && j < |cs|
  {
    SuitsHigh(cs[i], cs[j])
  }

  /** The high/low cost ratio never falls along the list. */
  ghost predicate RatioSorted(cs: seq<Cost>) {
    forall i: nat, j: nat | i <= j < |cs| :: Suits(cs, i, j)
  }

  /** The first item at which the high processor is no longer the faster one. */
  lemma {:induction false} Crossing(cs: seq<Cost>, k: nat) returns (s: nat)
    requires k <= |cs|
    requires PrefixHigh(cs, k) < SuffixLow(cs, k)
    requires PrefixHigh(cs, |cs|) >= SuffixLow(cs, |cs|)
    ensures s < |cs|
    ensures PrefixHigh(cs, s) < SuffixLow(cs, s)
    ensures PrefixHigh(cs, s + 1) >= SuffixLow(cs, s + 1)
    decreases |cs| - k
  {
    if PrefixHigh(cs, k + 1) >= SuffixLow(cs, k + 1) {
      s := k;
    } else {
      s := Crossing(cs, k + 1);
    }
  }

  /** What the first k items weigh when split at the crossing item s: high time is weighed by
      that item's low cost and low time by its high cost. */
  ghost function SplitWeight(cs: seq<Cost>, s: nat, k: nat): real
    requires s < |cs| && k <= |cs|
  {
    if k == 0 then 0.0
    else SplitWeight(cs, s, k - 1) + if k - 1 <= s then cs[s].low * cs[k - 1].high else cs[s].high * cs[k - 1].low
  }

  /** w weighs hs units of high time and ls units of low time by the costs of item c. */
  ghost predicate Weighs(c: Cost, w: real, hs: real, ls: real) {
    w == c.low * hs + c.high * ls
  }

  lemma {:induction false} SplitWeightSplits(cs: seq<Cost>, s: nat, k: nat)
    requires s < |cs| && k <= |cs|
    ensures Weighs(cs[s], SplitWeight(cs, s, k), PrefixHigh(cs, MinNat(k, s + 1)),
                   if k <= s + 1 then 0.0 else SuffixLow(cs, s + 1) - SuffixLow(cs, k))
  {
    if k > 0 {
      SplitWeightSplits(cs, s, k - 1);
      if k - 1 <= s {
        ScaleSum(cs[s].low, PrefixHigh(cs, k - 1), cs[k - 1].high);
      } else {
        ScaleSum(cs[s].high, SuffixLow(cs, s + 1) - SuffixLow(cs, k - 1), cs[k - 1].low);
      }
    }
  }

  /** The same weighing of an arbitrary assignment. */
  ghost function AssignedWeight(cs: seq<Cost>, a: seq<bool>, s: nat, k: nat): real
    requires |a| == |cs| && s < |cs| && k <= |cs|
  {
    if k == 0 then 0.0
    else AssignedWeight(cs, a, s, k - 1) + if a[k - 1] then cs[s].low * cs[k - 1].high else cs[s].high * cs[k - 1].low
  }

  lemma {:induction false} AssignedWeightSplits(cs: seq<Cost>, a: seq<bool>, s: nat, k: nat)
    requires |a| == |cs| && s < |cs| && k <= |cs|
    ensures Weighs(cs[s], AssignedWeight(cs, a, s, k), AssignedHigh(cs, a, k), AssignedLow(cs, a, k))
  {
    if k > 0 {
      AssignedWeightSplits(cs, a, s, k - 1);
      if a[k - 1] {
        ScaleSum(cs[s].low, AssignedHigh(cs, a, k - 1), cs[k - 1].high);
      } else {
        ScaleSum(cs[s].high, AssignedLow(cs, a, k - 1), cs[k - 1].low);
      }
    }
  }

  /** Weighted exchange, item by item: no assignment weighs less than the split at the crossing item. */
  lemma {:induction false} WeightedExchange(cs: seq<Cost>, a: seq<bool>, s: nat, k: nat)
    requires Positive(cs) && RatioSorted(cs) && |a| == |cs|
    requires s < |cs| && k <= |cs|
    ensures AssignedWeight(cs, a, s, k) >= SplitWeight(cs, s, k)
  {
    if k > 0 {
      WeightedExchange(cs, a, s, k - 1);
      assert if k - 1 <= s then Suits(cs, k - 1, s) else Suits(cs, s, k - 1);
    }
  }

  lemma {:induction false} ScaleSum(c: real, x: real, y: real)
    ensures c * (x + y) == c * x + c * y
  {
  }

  lemma {:induction false} AssignedAtLeast(cs: seq<Cost>, a: seq<bool>, s: nat, k: nat)
    requires Positive(cs) && |a| == |cs| && s < k <= |cs|
    ensures AssignedHigh(cs, a, k) >= (if a[s] then cs[s].high else 0.0)
    ensures AssignedLow(cs, a, k) >= (if a[s] then 0.0 else cs[s].low)
    decreases k
  {
    if s < k - 1 {
      AssignedAtLeast(cs, a, s, k - 1);
    } else {
      AssignedNonNegative(cs, a, k - 1);
    }
  }

  lemma {:induction false} AssignedNonNegative(cs: seq<Cost>, a: seq<bool>, k: nat)
    requires Positive(cs) && |a| == |cs| && k <= |cs|
    ensures AssignedHigh(cs, a, k) >= 0.0 && AssignedLow(cs, a, k) >= 0.0
  {
    if k > 0 {
      AssignedNonNegative(cs, a, k - 1);
    }
  }

  lemma {:induction false} CancelMean(l: real, h: real, x: real, y: real)
    requires l > 0.0 && h > 0.0
    requires l * x + h * x >= l * y + h * y
    ensures x >= y
  {
    PositiveFactor(l + h, x - y);
  }

  lemma {:induction false} PositiveFactor(c: real, x: real)
    requires c > 0.0 && c * x >= 0.0
    ensures x >= 0.0
  {
  }

  lemma {:induction false} ScaleUp(c: real, x: real, y: real)
    requires c >= 0.0 && x >= y
    ensures c * x >= c * y
  {
  }

  /** If a weighted mean is at least that of x and y, it is at least the smaller of the two. */
  lemma {:induction false} WeightedMeanBound(l: real, h: real, t: real, x: real, y: real)
    requires l > 0.0 && h > 0.0
    requires l * t + h * t >= l * x + h * y
    ensures t >= x || t >= y
    ensures x >= y ==> t >= y
    ensures y >= x ==> t >= x
  {
    if x >= y {
      ScaleUp(l, x, y);
      CancelMean(l, h, t, y);
    } else {
      ScaleUp(h, y, x);
      CancelMean(l, h, t, x);
    }
  }

  /** Along a ratio-sorted list the greedy split finishes within twice the time of every assignment. */
  lemma {:induction false} GreedyIsTwoApproximation(cs: seq<Cost>, k: nat, a: seq<bool>)
    requires Positive(cs) && RatioSorted(cs) && StopsAt(cs, k) && |a| == |cs|
    ensures PrefixMakespan(cs, k) <= 2.0 * AssignedMakespan(cs, a)
  {
    if cs != [] {
      PrefixesAreMonotone(cs, 0, |cs|);
      var s := Crossing(cs, 0);
      CrossingBounds(cs, a, s);
      AssignedAtLeast(cs, a, s, |cs|);
      AssignedNonNegative(cs, a, |cs|);
      GreedyStopIsPrefixOptimal(cs, k, s);
      GreedyStopIsPrefixOptimal(cs, k, s + 1);
    }
  }

  lemma {:induction false} AssignedPaysLow(cs: seq<Cost>, a: seq<bool>, k: nat)
    requires |a| == |cs| && k <= |cs| && forall i | 0 <= i < |cs| :: cs[i].low <= cs[i].high
    ensures AssignedHigh(cs, a, k) + AssignedLow(cs, a, k) >= SuffixLow(cs, 0) - SuffixLow(cs, k)
  {
    if k > 0 {
      AssignedPaysLow(cs, a, k - 1);
    }
  }

  /** When no item is faster on the high processor, leaving all to the low one is within twice the time of every
      assignment, and the greedy split is no worse. */
  lemma {:induction false} CheapLowIsTwoApproximation(cs: seq<Cost>, k: nat, a: seq<bool>)
    requires Positive(cs) && StopsAt(cs, k) && |a| == |cs|
    requires forall i | 0 <= i < |cs| :: cs[i].low <= cs[i].high
    ensures PrefixMakespan(cs, k) <= 2.0 * AssignedMakespan(cs, a)
  {
    GreedyStopIsPrefixOptimal(cs, k, 0);
    AssignedPaysLow(cs, a, |cs|);
    AssignedNonNegative(cs, a, |cs|);
  }

  /** Every assignment needs the time of both sides that surround the crossing item. */
  lemma {:induction false} CrossingBounds(cs: seq<Cost>, a: seq<bool>, s: nat)
    requires Positive(cs) && RatioSorted(cs) && |a| == |cs| && s < |cs|
    requires PrefixHigh(cs, s) < SuffixLow(cs, s)
    requires PrefixHigh(cs, s + 1) >= SuffixLow(cs, s + 1)
    ensures AssignedMakespan(cs, a) >= PrefixHigh(cs, s)
    ensures AssignedMakespan(cs, a) >= SuffixLow(cs, s + 1)
  {
    WeightedExchange(cs, a, s, |cs|);
    AssignedWeightSplits(cs, a, s, |cs|);
    SplitWeightSplits(cs, s, |cs|);
    CrossingArithmetic(cs[s], AssignedMakespan(cs, a), AssignedHigh(cs, a, |cs|), AssignedLow(cs, a, |cs|),
                       PrefixHigh(cs, s), PrefixHigh(cs, s + 1), SuffixLow(cs, s), SuffixLow(cs, s + 1),
                       AssignedWeight(cs, a, s, |cs|), SplitWeight(cs, s, |cs|));
  }

  lemma {:induction false} CrossingArithmetic(item: Cost, t: real, hs: real, ls: real,
                           p0: real, p1: real, q0: real, q1: real, w: real, x: real)
    requires item.low > 0.0 && item.high > 0.0 && t >= hs && t >= ls
    requires Weighs(item, w, hs, ls) && w >= x && Weighs(item, x, p1, q1)
    requires p1 == p0 + item.high && q0 == q1 + item.low
    requires p0 < q0 && p1 >= q1
    ensures t >= p0 && t >= q1
  {
    var l, h := item.low, item.high;
    ScaleUp(l, t, hs);
    ScaleUp(h, t, ls);
    WeightedMeanBound(l, h, t, p1, q1);
    ScaleSum(l, p0, h);
    ScaleSum(h, q1, l);
    WeightedMeanBound(l, h, t, p0, q0);
  }
}
