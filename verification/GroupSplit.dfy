/** The split of a device's experts between its two processors, a quarter of them at a time
    (src/module/route.cpp). */
module GroupSplit {
  import opened Basics
  import opened GreedySplit
  import opened ExpertSplit

  /** A quarter of the experts, moved between the processors as one item. */
  type Group = seq<Expert>

  function GroupTokens(g: Group): nat {
    if g == [] then 0 else g[0].tokens + GroupTokens(g[1..])
  }

  function GroupLoad(): Group -> int {
    (g: Group) => GroupTokens(g)
  }

  function HighTimes(r: Rates): Expert -> real
    requires r.Valid()
  {
    (e: Expert) => HighTime(r, e.tokens)
  }

  function LowTimes(r: Rates): Expert -> real
    requires r.Valid()
  {
    (e: Expert) => LowTime(r, e.tokens)
  }

  /** The costs of whole groups, for given times of single experts on the two processors. */
  function GroupCosts(high: Expert -> real, low: Expert -> real, gs: seq<Group>): (cs: seq<Cost>)
    ensures |cs| == |gs|
    ensures forall i | 0 <= i < |gs| :: cs[i] == Cost(Sum(gs[i], high), Sum(gs[i], low))
  {
    seq(|gs|, i requires 0 <= i < |gs| => Cost(Sum(gs[i], high), Sum(gs[i], low)))
  }

  /** All experts of a list of groups, group by group. */
  function Members(gs: seq<Group>): seq<Expert> {
    if gs == [] then [] else Members(gs[..|gs| - 1]) + gs[|gs| - 1]
  }

  lemma {:induction false} LowOfMembers(high: Expert -> real, low: Expert -> real, gs: seq<Group>, k: nat)
    requires k <= |gs|
    ensures SuffixLow(GroupCosts(high, low, gs), 0)
            == Sum(Members(gs[..k]), low) + SuffixLow(GroupCosts(high, low, gs), k)
  {
    if k > 0 {
      LowOfMembers(high, low, gs, k - 1);
      assert gs[..k][..k - 1] == gs[..k - 1];
      SumAppend(Members(gs[..k - 1]), gs[k - 1], low);
    }
  }

  lemma {:induction false} SumIsPositive(es: seq<Expert>, f: Expert -> real)
    requires es != [] && forall e: Expert :: f(e) > 0.0
    ensures Sum(es, f) > 0.0
  {
    if |es| > 1 {
      SumIsPositive(es[1..], f);
    }
  }

  /** Regrouping keeps the experts: the members of any reordering are a reordering of the members. */
  lemma {:induction false} MembersPermute(gs: seq<Group>, hs: seq<Group>)
    requires multiset(gs) == multiset(hs)
    ensures multiset(Members(gs)) == multiset(Members(hs))
  {
    if gs == [] {
      assert |hs| == |multiset(hs)| == 0;
    } else {
      var g, init := gs[|gs| - 1], gs[..|gs| - 1];
      assert gs == init + [g];
      assert g in multiset(hs);
      var j :| 0 <= j < |hs| && hs[j] == g;
      var left, right := hs[..j], hs[j + 1..];
      assert hs == left + [g] + right;
      assert multiset(left + right) == multiset(hs) - multiset{g};
      MembersPermute(init, left + right);
      MembersOfSwap(left, g, right);
    }
  }

  lemma {:induction false} MembersOfSwap(left: seq<Group>, g: Group, right: seq<Group>)
    ensures multiset(Members(left + [g] + right)) == multiset(Members(left + right)) + multiset(g)
  {
    MembersAppend(left, right);
    MembersAppend(left + [g], right);
    assert (left + [g])[..|left|] == left;
  }

  lemma {:induction false} MembersAppend(gs: seq<Group>, hs: seq<Group>)
    ensures Members(gs + hs) == Members(gs) + Members(hs)
  {
    if hs == [] {
      assert gs + hs == gs;
    } else {
      assert (gs + hs)[..|gs + hs| - 1] == gs + hs[..|hs| - 1];
      MembersAppend(gs, hs[..|hs| - 1]);
    }
  }

  /** The list cut into runs of `size` neighbours; there is only one way to do so. */
  ghost predicate IsCut(gs: seq<Group>, es: seq<Expert>, size: nat) {
    Members(gs) == es && forall g | g in gs :: |g| == size
  }

  lemma {:induction false} CutIsUnique(gs: seq<Group>, hs: seq<Group>, es: seq<Expert>, size: nat)
    requires size > 0 && IsCut(gs, es, size) && IsCut(hs, es, size)
    ensures gs == hs
    decreases |gs|
  {
    if gs != [] && hs != [] {
      var g, h := gs[|gs| - 1], hs[|hs| - 1];
      var rest := es[..|es| - size];
      assert es == Members(gs[..|gs| - 1]) + g == Members(hs[..|hs| - 1]) + h;
      assert Members(gs[..|gs| - 1]) == rest == Members(hs[..|hs| - 1]);
      assert g == es[|es| - size..] == h;
      CutIsUnique(gs[..|gs| - 1], hs[..|hs| - 1], rest, size);
      assert gs == gs[..|gs| - 1] + [g] && hs == hs[..|hs| - 1] + [h];
    }
  }

  /** n experts can be cut into runs of `size` with none left over. */
  ghost predicate CutsEvenly(n: nat, size: nat)
    requires size > 0
  {
    n == 0 || (n >= size && CutsEvenly(n - size, size))
  }

  lemma {:induction false} FourRuns(size: nat)
    requires size > 0
    ensures CutsEvenly(4 * size, size)
  {
    assert CutsEvenly(0, size);
    assert CutsEvenly(size, size);
    assert CutsEvenly(2 * size, size);
    assert CutsEvenly(3 * size, size);
  }

  /** Whole groups chosen by the group splitter: the prefix of the sorted group list at which the loop stops, and no
      other prefix has a smaller makespan. */
  ghost predicate BestPrefix(r: Rates, list: seq<nat>, groups: seq<Group>, order: seq<Group>,
                             k: nat, highList: seq<nat>)
    requires r.Valid()
  {
    var cs := GroupCosts(HighTimes(r), LowTimes(r), order);
    && IsCut(groups, Experts(list), |list| / 4)
    && multiset(order) == multiset(groups)
    && Descending(order, GroupLoad())
    && StopsAt(cs, k)
    && highList == Ids(Members(order[..k]))
    && (forall j: nat | j <= |order| :: PrefixMakespan(cs, k) <= PrefixMakespan(cs, j))
  }

  /** The four-group splitter: short lists go to the per-expert one, and a longer list
      must divide into four. */
  method GetIdxHigh(list: seq<nat>, c: Config)
    returns (result: Result<seq<nat>>, ghost groups: seq<Group>, ghost order: seq<Group>, ghost k: nat,
             ghost singles: seq<Expert>)
    requires c.Valid()
    ensures result.Failure? <==> |list| > 4 && |list| % 4 != 0
    ensures |list| > 4 && result.Success? ==> BestPrefix(c.GetRates(), list, groups, order, k, result.value)
    ensures |list| <= 4 ==>
      && BestHead(c.GetRates(), list, singles, result.value) && WithinTwice(c.GetRates(), list, result.value)
      && LargestLoads(list, result.value)
    ensures result.Success? ==> DistinctExperts(list, result.value)
  {
    groups, order, k, singles := [], [], 0, [];
    if |list| <= 4 {
      var highList;
      highList, singles := GetIdxHighOptimal(list, c);
      return Success(highList), [], [], 0, singles;
    }
    if |list| % 4 != 0 {
      return Failure("Expert group size is not mached"), [], [], 0, [];
    }
    var high, low := HighTimes(c.GetRates()), LowTimes(c.GetRates());
    TimesArePositive(c.GetRates());
    var size := |list| / 4;
    FourRuns(size);
    var cut, lowTime := CutIntoGroups(Experts(list), size, low);
    var sorted := SortDescending(cut, GroupLoad());
    groups, order := cut, sorted;
    ReorderedGroups(high, low, Experts(list), groups, order);
    var highList;
    highList, k := SplitGroups(high, low, sorted, lowTime);
    GroupSplitIsPrefixOptimal(high, low, order, k);
    GroupSplitIds(list, order, k);
    result := Success(highList);
  }

  lemma {:induction false} TimesArePositive(r: Rates)
    requires r.Valid()
    ensures forall e: Expert :: HighTimes(r)(e) > 0.0 && LowTimes(r)(e) > 0.0
  {
    forall e: Expert
      ensures HighTime(r, e.tokens) > 0.0 && LowTime(r, e.tokens) > 0.0
    {
      CostsArePositive(r, [e]);
      assert ExpertCosts(r, [e])[0] == Cost(HighTime(r, e.tokens), LowTime(r, e.tokens));
    }
  }

  /** Sorting the groups keeps their experts, and so the low processor's total. */
  lemma {:induction false} ReorderedGroups(high: Expert -> real, low: Expert -> real, es: seq<Expert>, gs: seq<Group>,
                                           order: seq<Group>)
    requires Members(gs) == es && multiset(order) == multiset(gs)
    ensures multiset(Members(order)) == multiset(es)
    ensures SuffixLow(GroupCosts(high, low, order), 0) == Sum(es, low)
    ensures forall g | g in order :: g in gs
  {
    MembersPermute(order, gs);
    LowOfMembers(high, low, order, |order|);
    assert order[..|order|] == order;
    SumPermutation(Members(order), es, low);
    assert forall g | g in order :: g in multiset(gs);
  }

  lemma {:induction false} GroupSplitIsPrefixOptimal(high: Expert -> real, low: Expert -> real, order: seq<Group>,
                                                     k: nat)
    requires forall e: Expert :: high(e) > 0.0 && low(e) > 0.0
    requires forall g | g in order :: |g| > 0
    requires StopsAt(GroupCosts(high, low, order), k)
    ensures var cs := GroupCosts(high, low, order);
      forall j: nat | j <= |order| :: PrefixMakespan(cs, k) <= PrefixMakespan(cs, j)
  {
    var cs := GroupCosts(high, low, order);
    forall i | 0 <= i < |cs|
      ensures cs[i].high > 0.0 && cs[i].low > 0.0
    {
      SumIsPositive(order[i], high);
      SumIsPositive(order[i], low);
    }
    forall j: nat | j <= |order|
      ensures PrefixMakespan(cs, k) <= PrefixMakespan(cs, j)
    {
      GreedyStopIsPrefixOptimal(cs, k, j);
    }
  }

  lemma {:induction false} GroupSplitIds(list: seq<nat>, order: seq<Group>, k: nat)
    requires multiset(Members(order)) == multiset(Experts(list)) && k <= |order|
    ensures DistinctExperts(list, Ids(Members(order[..k])))
  {
    OrderHasDistinctIds(list, Members(order));
    assert order == order[..k] + order[k..];
    MembersAppend(order[..k], order[k..]);
    var head := Members(order[..k]);
    assert forall i | 0 <= i < |head| :: head[i] == Members(order)[i];
  }

  /** The greedy loop over the sorted groups, k of which it moves to the high processor. */
  method SplitGroups(high: Expert -> real, low: Expert -> real, sorted: seq<Group>, totalLow: real)
    returns (highList: seq<nat>, ghost k: nat)
    requires totalLow == SuffixLow(GroupCosts(high, low, sorted), 0)
    ensures StopsAt(GroupCosts(high, low, sorted), k) && highList == Ids(Members(sorted[..k]))
  {
    var highTime, lowTime := 0.0, totalLow;
    ghost var cs := GroupCosts(high, low, sorted);
    highList, k := [], 0;
    var max := MaxReal(highTime, lowTime);
    for i := 0 to |sorted|
      invariant k == i && highList == Ids(Members(sorted[..i]))
      invariant highTime == PrefixHigh(cs, i) && lowTime == SuffixLow(cs, i)
      invariant max == PrefixMakespan(cs, i)
      invariant forall j | 0 <= j < i :: PrefixMakespan(cs, j + 1) < PrefixMakespan(cs, j)
    {
      var group := sorted[i];
      for n := 0 to |group|
        invariant highTime == PrefixHigh(cs, i) + Sum(group[..n], high)
        invariant lowTime == SuffixLow(cs, i) - Sum(group[..n], low)
      {
        highTime := highTime + high(group[n]);
        lowTime := lowTime - low(group[n]);
        assert group[..n + 1] == group[..n] + [group[n]];
        SumAppend(group[..n], [group[n]], high);
        SumAppend(group[..n], [group[n]], low);
      }
      assert group[..|group|] == group;
      var temp := MaxReal(highTime, lowTime);
      if max > temp {
        assert sorted[..i + 1][..i] == sorted[..i];
        highList := highList + Ids(group);
        max, k := temp, k + 1;
      } else {
        break;
      }
    }
  }

  /** Cuts the list into runs of neighbours and adds up the low processor's time. */
  method CutIntoGroups(es: seq<Expert>, size: nat, low: Expert -> real) returns (groups: seq<Group>, lowTime: real)
    requires size > 0 && CutsEvenly(|es|, size)
    ensures IsCut(groups, es, size)
    ensures lowTime == Sum(es, low)
  {
    groups, lowTime := [], 0.0;
    var i := 0;
    while i < |es|
      invariant i <= |es| && CutsEvenly(|es| - i, size)
      invariant IsCut(groups, es[..i], size) && lowTime == Sum(es[..i], low)
    {
      var group;
      group, lowTime := CutGroup(es, i, size, low, lowTime);
      CutAdvance(groups, es, i, size, low);
      groups := groups + [group];
      i := i + size;
    }
    assert es[..i] == es;
  }

  lemma {:induction false} CutAdvance(before: seq<Group>, es: seq<Expert>, i: nat, size: nat, low: Expert -> real)
    requires i + size <= |es| && IsCut(before, es[..i], size)
    ensures IsCut(before + [es[i..i + size]], es[..i + size], size)
    ensures Sum(es[..i + size], low) == Sum(es[..i], low) + Sum(es[i..i + size], low)
  {
    assert (before + [es[i..i + size]])[..|before|] == before;
    assert es[..i + size] == es[..i] + es[i..i + size];
    SumAppend(es[..i], es[i..i + size], low);
  }

  method CutGroup(es: seq<Expert>, i: nat, size: nat, low: Expert -> real, before: real)
    returns (group: Group, lowTime: real)
    requires i + size <= |es|
    ensures group == es[i..i + size]
    ensures lowTime == before + Sum(group, low)
  {
    group, lowTime := [], before;
    for id := 0 to size
      invariant group == es[i..i + id]
      invariant lowTime == before + Sum(group, low)
    {
      SumAppend(group, [es[i + id]], low);
      group := group + [es[i + id]];
      lowTime := lowTime + low(es[i + id]);
    }
  }
}
