/** Counting the tokens routed to each expert, and sharing the counts between the batches
    (src/scheduler/sequence.cpp, src/module/route.cpp). */
module ExpertTokens {
  import opened Basics
  import opened Sums

  /** The tokens one sequence processes: the experts chosen for each of them. */
  type Routes = seq<seq<nat>>

  /** Every token of every sequence goes to topK of the given number of experts. */
  ghost predicate Routed(work: seq<Routes>, experts: nat, topK: nat) {
    forall i | 0 <= i < |work| :: RoutedTokens(work[i], experts, topK)
  }

  ghost predicate RoutedTokens(routes: Routes, experts: nat, topK: nat) {
    forall t | 0 <= t < |routes| :: |routes[t]| == topK && forall k | 0 <= k < topK :: routes[t][k] < experts
  }

  /** How often an expert is named. */
  function Times(ids: seq<nat>, e: nat): nat {
    if ids == [] then 0 else Times(ids[..|ids| - 1], e) + if ids[|ids| - 1] == e then 1 else 0
  }

  function TimesInTokens(routes: Routes, e: nat): nat {
    if routes == [] then 0 else TimesInTokens(routes[..|routes| - 1], e) + Times(routes[|routes| - 1], e)
  }

  function TimesInBatch(work: seq<Routes>, e: nat): nat {
    if work == [] then 0 else TimesInBatch(work[..|work| - 1], e) + TimesInTokens(work[|work| - 1], e)
  }

  /** The tokens a batch processes. */
  function TokensOf(work: seq<Routes>): nat {
    if work == [] then 0 else TokensOf(work[..|work| - 1]) + |work[|work| - 1]|
  }

  function AllTimes(works: seq<seq<Routes>>, e: nat): nat {
    if works == [] then 0 else AllTimes(works[..|works| - 1], e) + TimesInBatch(works[|works| - 1], e)
  }

  function AllTokensOf(works: seq<seq<Routes>>): nat {
    if works == [] then 0 else AllTokensOf(works[..|works| - 1]) + TokensOf(works[|works| - 1])
  }

  // -------------------------------------------------------------- counting

  /** All experts named for a batch, token by token. */
  ghost function NamedFor(routes: Routes): multiset<nat> {
    if routes == [] then multiset{} else NamedFor(routes[..|routes| - 1]) + multiset(routes[|routes| - 1])
  }

  ghost function NamedIn(work: seq<Routes>): multiset<nat> {
    if work == [] then multiset{} else NamedIn(work[..|work| - 1]) + NamedFor(work[|work| - 1])
  }

  lemma {:induction false} TimesIsMultiplicity(ids: seq<nat>, e: nat)
    ensures Times(ids, e) == multiset(ids)[e]
  {
    if ids != [] {
      TimesIsMultiplicity(ids[..|ids| - 1], e);
      assert ids == ids[..|ids| - 1] + [ids[|ids| - 1]];
    }
  }

  lemma {:induction false} TimesInTokensIsMultiplicity(routes: Routes, e: nat)
    ensures TimesInTokens(routes, e) == NamedFor(routes)[e]
  {
    if routes != [] {
      TimesInTokensIsMultiplicity(routes[..|routes| - 1], e);
      TimesIsMultiplicity(routes[|routes| - 1], e);
    }
  }

  /** A batch's table holds how often each expert is named for its tokens. */
  lemma {:induction false} CountIsMultiplicity(work: seq<Routes>, e: nat)
    ensures TimesInBatch(work, e) == NamedIn(work)[e]
  {
    if work != [] {
      CountIsMultiplicity(work[..|work| - 1], e);
      TimesInTokensIsMultiplicity(work[|work| - 1], e);
    }
  }

  /** A list of experts is counted completely. */
  lemma {:induction false} TimesSum(ids: seq<nat>, experts: nat)
    requires forall k | 0 <= k < |ids| :: ids[k] < experts
    ensures SumTo(experts, (e: nat) => Times(ids, e)) == |ids|
  {
    if ids == [] {
      SumConstant(experts, (e: nat) => Times(ids, e), 0);
    } else {
      var rest, last := ids[..|ids| - 1], ids[|ids| - 1];
      TimesSum(rest, experts);
      OneExpert(experts, last);
      SumOfSums(experts, (e: nat) => Times(rest, e), (e: nat) => if last == e then 1 else 0, (e: nat) => Times(ids, e));
    }
  }

  lemma {:induction false} OneExpert(n: nat, x: nat)
    ensures SumTo(n, (e: nat) => if x == e then 1 else 0) == if x < n then 1 else 0
  {
    var f := (e: nat) => if x == e then 1 else 0;
    if n > 0 {
      OneExpert(n - 1, x);
      SumSame(n - 1, f, (e: nat) => if x == e then 1 else 0);
      SumSame(n, f, (e: nat) => if x == e then 1 else 0);
    }
  }

  lemma {:induction false} TokensSum(routes: Routes, experts: nat, topK: nat)
    requires RoutedTokens(routes, experts, topK)
    ensures SumTo(experts, (e: nat) => TimesInTokens(routes, e)) == |routes| * topK
  {
    if routes == [] {
      SumConstant(experts, (e: nat) => TimesInTokens(routes, e), 0);
    } else {
      var rest, last := routes[..|routes| - 1], routes[|routes| - 1];
      TokensSum(rest, experts, topK);
      TimesSum(last, experts);
      SumOfSums(experts, (e: nat) => TimesInTokens(rest, e), (e: nat) => Times(last, e),
                (e: nat) => TimesInTokens(routes, e));
      assert (|routes| - 1) * topK + topK == |routes| * topK;
    }
  }

  lemma {:induction false} BatchSum(work: seq<Routes>, experts: nat, topK: nat)
    requires Routed(work, experts, topK)
    ensures SumTo(experts, (e: nat) => TimesInBatch(work, e)) == TokensOf(work) * topK
  {
    if work == [] {
      SumConstant(experts, (e: nat) => TimesInBatch(work, e), 0);
    } else {
      var rest, last := work[..|work| - 1], work[|work| - 1];
      BatchSum(rest, experts, topK);
      TokensSum(last, experts, topK);
      SumOfSums(experts, (e: nat) => TimesInBatch(rest, e), (e: nat) => TimesInTokens(last, e),
                (e: nat) => TimesInBatch(work, e));
      Distribute(TokensOf(rest), |last|, topK);
    }
  }

  /** Every processed token is counted topK times over all experts and batches. */
  lemma {:induction false} AllSum(works: seq<seq<Routes>>, experts: nat, topK: nat)
    requires forall i | 0 <= i < |works| :: Routed(works[i], experts, topK)
    ensures SumTo(experts, (e: nat) => AllTimes(works, e)) == AllTokensOf(works) * topK
  {
    if works == [] {
      SumConstant(experts, (e: nat) => AllTimes(works, e), 0);
    } else {
      var rest, last := works[..|works| - 1], works[|works| - 1];
      AllSum(rest, experts, topK);
      BatchSum(last, experts, topK);
      SumOfSums(experts, (e: nat) => AllTimes(rest, e), (e: nat) => TimesInBatch(last, e),
                (e: nat) => AllTimes(works, e));
      Distribute(AllTokensOf(rest), TokensOf(last), topK);
    }
  }

  // ----------------------------------------------------------------- objects

  class Batch {
    var localNumTokenInExpert: seq<nat>
    var numTokenInExpert: seq<nat>

    constructor (experts: nat)
      ensures localNumTokenInExpert == numTokenInExpert == seq(experts, e => 0)
    {
      localNumTokenInExpert := seq(experts, e => 0);
      numTokenInExpert := seq(experts, e => 0);
    }

    /** Counts the experts of all tokens; sequences without tokens add nothing. */
    method UpdateExpert(experts: nat, topK: nat, work: seq<Routes>)
      requires Routed(work, experts, topK)
      modifies `numTokenInExpert
      ensures |numTokenInExpert| == experts
      ensures forall e | 0 <= e < experts :: numTokenInExpert[e] == TimesInBatch(work, e)
    {
      numTokenInExpert := seq(experts, e => 0);
      for i := 0 to |work|
        invariant |numTokenInExpert| == experts
        invariant forall e | 0 <= e < experts :: numTokenInExpert[e] == TimesInBatch(work[..i], e)
      {
        assert work[..i + 1][..i] == work[..i];
        if |work[i]| == 0 {
          continue;
        }
        for t := 0 to |work[i]|
          invariant |numTokenInExpert| == experts
          invariant forall e | 0 <= e < experts ::
            numTokenInExpert[e] == TimesInBatch(work[..i], e) + TimesInTokens(work[i][..t], e)
        {
          assert work[i][..t + 1][..t] == work[i][..t];
          CountToken(experts, topK, work[i][t]);
        }
        assert work[i][..|work[i]|] == work[i];
      }
      assert work[..|work|] == work;
    }

    /** The experts of one token. */
    method CountToken(experts: nat, topK: nat, route: seq<nat>)
      requires |numTokenInExpert| == experts && |route| == topK && forall k | 0 <= k < topK :: route[k] < experts
      modifies `numTokenInExpert
      ensures |numTokenInExpert| == experts
      ensures forall e | 0 <= e < experts :: numTokenInExpert[e] == old(numTokenInExpert[e]) + Times(route, e)
    {
      for k := 0 to topK
        invariant |numTokenInExpert| == experts
        invariant forall e | 0 <= e < experts :: numTokenInExpert[e] == old(numTokenInExpert[e]) + Times(route[..k], e)
      {
        assert route[..k + 1][..k] == route[..k];
        var id := route[k];
        numTokenInExpert := numTokenInExpert[id := numTokenInExpert[id] + 1];
      }
      assert route[..topK] == route;
    }
  }

  ghost predicate Distinct(batches: seq<Batch>) {
    forall i, j | 0 <= i < j < |batches| :: batches[i] != batches[j]
  }

  /** A table of counts that names every expert as often as the given work does. */
  ghost predicate Counts(table: seq<nat>, experts: nat, work: seq<Routes>) {
    |table| == experts && forall e | 0 <= e < experts :: table[e] == TimesInBatch(work, e)
  }

  ghost predicate CountsAll(table: seq<nat>, experts: nat, works: seq<seq<Routes>>) {
    |table| == experts && forall e | 0 <= e < experts :: table[e] == AllTimes(works, e)
  }

  /** First loop: every batch counts its own tokens. */
  method UpdateAll(batches: seq<Batch>, experts: nat, topK: nat, works: seq<seq<Routes>>)
    requires Distinct(batches) && |works| == |batches| && forall i | 0 <= i < |works| :: Routed(works[i], experts, topK)
    modifies batches
    ensures forall i | 0 <= i < |batches| :: Counts(batches[i].numTokenInExpert, experts, works[i])
    ensures forall i | 0 <= i < |batches| :: batches[i].localNumTokenInExpert == old(batches[i].localNumTokenInExpert)
  {
    for i := 0 to |batches|
      invariant forall j | 0 <= j < i :: Counts(batches[j].numTokenInExpert, experts, works[j])
      invariant forall j | 0 <= j < |batches| ::
        batches[j].localNumTokenInExpert == old(batches[j].localNumTokenInExpert)
    {
      batches[i].UpdateExpert(experts, topK, works[i]);
    }
  }

  /** Second loop: every batch keeps a copy of its own counts, and they are added up. */
  method SumUp(batches: seq<Batch>, experts: nat, ghost works: seq<seq<Routes>>) returns (temp: seq<nat>)
    requires Distinct(batches) && |works| == |batches|
    requires forall i | 0 <= i < |batches| ::
      Counts(batches[i].numTokenInExpert, experts, works[i]) && |batches[i].localNumTokenInExpert| == experts
    modifies batches
    ensures CountsAll(temp, experts, works)
    ensures forall i | 0 <= i < |batches| ::
      Counts(batches[i].localNumTokenInExpert, experts, works[i]) && |batches[i].numTokenInExpert| == experts
  {
    temp := seq(experts, e => 0);
    for i := 0 to |batches|
      invariant CountsAll(temp, experts, works[..i])
      invariant forall j | 0 <= j < i :: Counts(batches[j].localNumTokenInExpert, experts, works[j])
      invariant forall j | i <= j < |batches| :: |batches[j].localNumTokenInExpert| == experts
      invariant forall j | 0 <= j < |batches| :: Counts(batches[j].numTokenInExpert, experts, works[j])
    {
      assert works[..i + 1][..i] == works[..i];
      temp := AddBatch(batches[i], experts, works[i], temp, works[..i]);
    }
    assert works[..|works|] == works;
  }

  method AddBatch(batch: Batch, experts: nat, ghost work: seq<Routes>, temp: seq<nat>, ghost before: seq<seq<Routes>>)
    returns (sum: seq<nat>)
    requires Counts(batch.numTokenInExpert, experts, work) && |batch.localNumTokenInExpert| == experts
    requires CountsAll(temp, experts, before)
    modifies batch`localNumTokenInExpert
    ensures Counts(batch.localNumTokenInExpert, experts, work)
    ensures |sum| == experts && forall e | 0 <= e < experts :: sum[e] == AllTimes(before, e) + TimesInBatch(work, e)
  {
    sum := temp;
    for j := 0 to experts
      invariant |batch.localNumTokenInExpert| == experts == |sum|
      invariant forall e | 0 <= e < j :: batch.localNumTokenInExpert[e] == TimesInBatch(work, e)
      invariant forall e | 0 <= e < j :: sum[e] == AllTimes(before, e) + TimesInBatch(work, e)
      invariant forall e | j <= e < experts :: sum[e] == temp[e]
    {
      batch.localNumTokenInExpert := batch.localNumTokenInExpert[j := batch.numTokenInExpert[j]];
      sum := sum[j := sum[j] + batch.numTokenInExpert[j]];
    }
  }

  /** The counts of one batch are replaced by the sums, and added up once more. */
  method Spread(batch: Batch, experts: nat, temp: seq<nat>, testToken: nat) returns (sum: nat)
    requires |temp| == experts == |batch.numTokenInExpert|
    modifies batch`numTokenInExpert
    ensures batch.numTokenInExpert == temp
    ensures sum == testToken + SumTo(experts, (e: nat) => if e < |temp| then temp[e] else 0)
  {
    sum := testToken;
    for j := 0 to experts
      invariant |batch.numTokenInExpert| == experts
      invariant forall e | 0 <= e < j :: batch.numTokenInExpert[e] == temp[e]
      invariant sum == testToken + SumTo(j, (e: nat) => if e < |temp| then temp[e] else 0)
    {
      batch.numTokenInExpert := batch.numTokenInExpert[j := temp[j]];
      sum := sum + temp[j];
    }
  }

  /** Third loop: every batch gets the sums. */
  method SpreadAll(batches: seq<Batch>, experts: nat, temp: seq<nat>, ghost total: nat) returns (testToken: nat)
    requires Distinct(batches) && |temp| == experts
    requires forall i | 0 <= i < |batches| :: |batches[i].numTokenInExpert| == experts
    requires SumTo(experts, (e: nat) => if e < |temp| then temp[e] else 0) == total
    modifies batches
    ensures testToken == total * |batches|
    ensures forall i | 0 <= i < |batches| :: batches[i].numTokenInExpert == temp
    ensures forall i | 0 <= i < |batches| :: batches[i].localNumTokenInExpert == old(batches[i].localNumTokenInExpert)
  {
    testToken := 0;
    for i := 0 to |batches|
      invariant testToken == total * i
      invariant forall j | 0 <= j < i :: batches[j].numTokenInExpert == temp
      invariant forall j | i <= j < |batches| :: |batches[j].numTokenInExpert| == experts
      invariant forall j | 0 <= j < |batches| ::
        batches[j].localNumTokenInExpert == old(batches[j].localNumTokenInExpert)
    {
      testToken := Spread(batches[i], experts, temp, testToken);
      Distribute(i, 1, total);
    }
  }

  /** All batches end with the counts of all tokens and a copy of their own, and the check at the end holds:
      every processed token has been counted topK times in each batch. */
  method AggregateExpert(batches: seq<Batch>, experts: nat, topK: nat, works: seq<seq<Routes>>) returns (testToken: nat)
    requires Distinct(batches) && |works| == |batches| && forall i | 0 <= i < |works| :: Routed(works[i], experts, topK)
    requires forall i | 0 <= i < |batches| :: |batches[i].localNumTokenInExpert| == experts
    modifies batches
    ensures testToken == AllTokensOf(works) * topK * |batches|
    ensures forall i | 0 <= i < |batches| ::
      && Counts(batches[i].localNumTokenInExpert, experts, works[i])
      && CountsAll(batches[i].numTokenInExpert, experts, works)
  {
    UpdateAll(batches, experts, topK, works);
    var temp := SumUp(batches, experts, works);
    TableSum(temp, works, experts, topK);
    testToken := SpreadAll(batches, experts, temp, AllTokensOf(works) * topK);
  }

  lemma {:induction false} TableSum(temp: seq<nat>, works: seq<seq<Routes>>, experts: nat, topK: nat)
    requires CountsAll(temp, experts, works) && forall i | 0 <= i < |works| :: Routed(works[i], experts, topK)
    ensures SumTo(experts, (e: nat) => if e < |temp| then temp[e] else 0) == AllTokensOf(works) * topK
  {
    AllSum(works, experts, topK);
    SumSame(experts, (e: nat) => if e < |temp| then temp[e] else 0, (e: nat) => AllTimes(works, e));
  }

  /** The local copies add up to the counts that every batch holds. */
  lemma {:induction false} LocalsSumUp(locals: seq<seq<nat>>, table: seq<nat>, works: seq<seq<Routes>>, experts: nat,
                                       e: nat)
    requires |locals| == |works| && e < experts && forall i | 0 <= i < |works| :: Counts(locals[i], experts, works[i])
    requires CountsAll(table, experts, works)
    ensures SumTo(|locals|, (i: nat) => if i < |locals| && e < |locals[i]| then locals[i][e] else 0) == table[e]
  {
    var f := (i: nat) => if i < |locals| && e < |locals[i]| then locals[i][e] else 0;
    LocalsUpTo(locals, works, experts, e, f, |works|);
    assert works[..|works|] == works;
  }

  lemma {:induction false} LocalsUpTo(locals: seq<seq<nat>>, works: seq<seq<Routes>>, experts: nat, e: nat,
                                      f: nat -> int, n: nat)
    requires n <= |works| == |locals| && e < experts
    requires forall i | 0 <= i < |works| :: Counts(locals[i], experts, works[i])
    requires forall i: nat | i < |locals| :: f(i) == if e < |locals[i]| then locals[i][e] else 0
    ensures SumTo(n, f) == AllTimes(works[..n], e)
  {
    if n > 0 {
      LocalsUpTo(locals, works, experts, e, f, n - 1);
      assert works[..n][..n - 1] == works[..n - 1];
    }
  }
}
