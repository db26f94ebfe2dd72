/** When a round has no tokens to process, and that it then never has any (src/scheduler/scheduler.cpp,
    src/hardware/cluster.cpp). */
module Stalls {
  import opened Basics
  import opened Batching
  import opened Progress
  import opened Conservation

  /** Nothing runs, or something prefills and every batch that does has more such sequences than tokens to share. */
  ghost predicate Stalled(p: Params, st: State) {
    || (forall k | 0 <= k < |st.batches| :: st.batches[k] == [])
    || (HasPrefill(st.batches) && forall k | 0 <= k < |st.batches| ::
          CountPrefilling(st.batches[k]) == 0 || CountPrefilling(st.batches[k]) > p.maxProcess)
  }

  lemma {:induction false} AllZero(bs: seq<Batch>)
    requires forall k, i | 0 <= k < |bs| && 0 <= i < |bs[k]| :: bs[k][i].process == 0
    ensures AllTokens(bs) == 0
  {
    if bs != [] {
      BatchZero(bs[0]);
      AllZero(bs[1..]);
    }
  }

  lemma {:induction false} BatchZero(b: Batch)
    requires forall i | 0 <= i < |b| :: b[i].process == 0
    ensures Tokens(b) == 0
  {
    if b != [] {
      BatchZero(b[1..]);
    }
  }

  /** Integer division shares nothing exactly if there are more takers than tokens. */
  lemma {:induction false} ShareIsZero(p: Params, b: Batch)
    requires CountPrefilling(b) > 0
    ensures Share(p, b) == 0 <==> CountPrefilling(b) > p.maxProcess
  {
    var n := CountPrefilling(b);
    assert p.maxProcess == (p.maxProcess / n) * n + p.maxProcess % n;
    if n <= p.maxProcess && p.maxProcess / n == 0 {
      assert false;
    }
  }

  lemma {:induction false} StalledAssignsNothing(p: Params, st: State, k: nat, i: nat)
    requires Consistent(p, st) && Stalled(p, st) && k < |st.batches| && i < |st.batches[k]|
    ensures SetMetadata(p, st).batches[k][i].process == 0
  {
    var b := st.batches[k];
    assert b[i] in b;
    if Prefilling(b[i]) {
      CountIsSome(b, i);
      ShareIsZero(p, b);
    }
  }

  /** For every configuration a round has no tokens exactly if it is stalled. */
  lemma {:induction false} NoTokensExactlyWhenStalled(p: Params, st: State)
    requires Consistent(p, st)
    ensures TokensIn(p, st) == 0 <==> Stalled(p, st)
  {
    var bs: seq<Batch> := SetMetadata(p, st).batches;
    if Stalled(p, st) {
      forall k: nat, i: nat | k < |bs| && i < |bs[k]|
        ensures bs[k][i].process == 0
      {
        StalledAssignsNothing(p, st, k, i);
      }
      AllZero(bs);
    } else {
      SomethingIsAssigned(p, st);
    }
  }

  lemma {:induction false} SomethingIsAssigned(p: Params, st: State)
    requires Consistent(p, st) && !Stalled(p, st)
    ensures TokensIn(p, st) > 0
  {
    var bs: seq<Batch> := SetMetadata(p, st).batches;
    if HasPrefill(st.batches) {
      var k :| 0 <= k < |bs| && 0 < CountPrefilling(st.batches[k]) <= p.maxProcess;
      var b := st.batches[k];
      var i := FindPrefilling(b);
      assert b[i] in b;
      ShareIsZero(p, b);
      SomeTokensAtAll(bs, k, i);
    } else {
      var k :| 0 <= k < |bs| && st.batches[k] != [];
      var b := st.batches[k];
      assert b[0] in b;
      SomeTokensAtAll(bs, k, 0);
    }
  }

  /** Warm-up rounds always take place, timed ones unless the scheduler is stalled. */
  lemma {:induction false} SkippedExactlyWhenStalled(p: Params, st: State, mode: Mode)
    requires Consistent(p, st)
    ensures Skipped(p, st, mode) <==> mode.Timed? && Stalled(p, st)
  {
    NoTokensExactlyWhenStalled(p, st);
  }

  /** A stalled scheduler stays stalled: timed rounds skip, process nothing, report nothing and admit nobody. */
  lemma {:induction false} StalledForever(p: Params, st: State, inputs: seq<Input>)
    requires Consistent(p, st) && Stalled(p, st) && forall j | 0 <= j < |inputs| :: inputs[j].mode.Timed?
    ensures Run(p, st, inputs) == st
    ensures forall j | 0 <= j < |inputs| :: Reports(p, st, inputs)[j] == []
    decreases |inputs|
  {
    if inputs != [] {
      NoTokensExactlyWhenStalled(p, st);
      SkippedIsSame(p, st);
      StalledForever(p, st, inputs[1..]);
    }
  }
}
