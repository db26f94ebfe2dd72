/** What every scheduling round keeps: between rounds nothing is half processed, work is either all
    prefill or all decode, and no token is lost (src/scheduler/scheduler.cpp, src/scheduler/sequence.cpp). */
module Progress {
  import opened Basics
  import opened Batching
  import opened Admission

  /** A sequence between two rounds. */
  ghost predicate Ready(s: Request, now: real) {
    s.process == 0 && s.current < s.total && 1 <= s.input <= s.total && s.genStart <= now
  }

  ghost predicate AllReady(b: seq<Request>, now: real) {
    forall s | s in b :: Ready(s, now)
  }

  ghost predicate Consistent(p: Params, st: State) {
    && p.Valid() && |st.batches| == p.dp && Bounded(st.batches, p.Cap()) && st.now >= 0.0
    && (forall k | 0 <= k < |st.batches| :: AllReady(st.batches[k], st.now))
    && AllReady(st.queue, st.now)
  }

  /** New sequences have not been scheduled before; time does not run backwards. */
  ghost predicate Fits(i: Input) {
    TimeOf(i.mode) >= 0.0 && AllReady(i.arrivals, 0.0)
  }

  ghost predicate AllFit(inputs: seq<Input>) {
    forall j | 0 <= j < |inputs| :: Fits(inputs[j])
  }

  /** A synthetic sequence is ready, unless decode mode leaves it nothing to generate. */
  lemma {:induction false} PushedIsReady(w: Workload, id: nat)
    requires w.reuse.Some? ==> 0.0 <= w.reuse.value < 1.0
    ensures var r := PushDummySeq(w, id);
      r.Success? && r.value.Some? ==>
        && r.value.value.id == id
        && (Ready(r.value.value, 0.0) <==> !(w.decodeMode && !w.prefillMode && ClampedOutput(w) == 1))
        && (Prefilling(r.value.value) <==> !w.decodeMode || w.prefillMode)
  {
    if w.reuse.Some? && w.inputLen > 0 {
      LessThanWhole(w.inputLen, w.reuse.value);
    }
  }

  lemma {:induction false} LessThanWhole(n: int, rate: real)
    requires n > 0 && 0.0 <= rate < 1.0
    ensures 0 <= Truncate(n as real * rate) < n
  {
    assert 0.0 <= n as real * rate < n as real;
  }

  // -------------------------------------------------------------- metadata

  lemma {:induction false} CountIsSome(b: Batch, i: nat)
    requires i < |b| && Prefilling(b[i])
    ensures CountPrefilling(b) >= 1
  {
    if i > 0 {
      CountIsSome(b[1..], i - 1);
    }
  }

  lemma {:induction false} CountIsAtMost(b: Batch)
    ensures CountPrefilling(b) <= |b|
  {
    if b != [] {
      CountIsAtMost(b[1..]);
    }
  }

  lemma {:induction false} ShareIsFair(p: Params, b: Batch)
    ensures Share(p, b) * CountPrefilling(b) <= p.maxProcess
    ensures p.Serves() && |b| <= p.Cap() && CountPrefilling(b) > 0 ==> Share(p, b) >= 1
  {
    CountIsAtMost(b);
  }

  lemma {:induction false} TokensWithinShare(b: Batch, share: nat, now: real, r: Batch)
    requires |r| == |b| && forall i | 0 <= i < |b| :: r[i] == Assign(b[i], true, share, now) && b[i].process == 0
    ensures Tokens(r) <= share * CountPrefilling(b)
  {
    if b != [] {
      TokensWithinShare(b[1..], share, now, r[1..]);
      assert share * (1 + CountPrefilling(b[1..])) == share + share * CountPrefilling(b[1..]);
    }
  }

  /** The tokens assigned to one sequence never lead beyond its input, or its total, and work is all of one kind. */
  ghost predicate WorksOn(s: Request, prefill: bool) {
    && (if Prefilling(s) then s.current + s.process <= s.input else s.current + s.process <= s.total)
    && (if prefill then (if Prefilling(s) then s.process >= 1 else s.process == 0)
        else !Prefilling(s) && s.process == 1)
  }

  /** After the assignment all work is prefill or all work is decode, every sequence of the chosen kind
      moves on, and no batch prefills more than it may. */
  lemma {:induction false} WorkIsUniform(p: Params, st: State)
    requires Consistent(p, st) && p.Serves()
    ensures var bs, prefill := SetMetadata(p, st).batches, HasPrefill(st.batches);
      && |bs| == |st.batches|
      && (forall k, i | 0 <= k < |bs| && 0 <= i < |bs[k]| :: WorksOn(bs[k][i], prefill))
      && (prefill ==> forall k | 0 <= k < |bs| :: Tokens(bs[k]) <= p.maxProcess)
  {
    var bs, prefill := SetMetadata(p, st).batches, HasPrefill(st.batches);
    forall k, i | 0 <= k < |bs| && 0 <= i < |bs[k]|
      ensures WorksOn(bs[k][i], prefill)
    {
      AssignWorks(p, st, k, i);
    }
    if prefill {
      forall k | 0 <= k < |bs|
        ensures Tokens(bs[k]) <= p.maxProcess
      {
        var b := st.batches[k];
        assert forall i | 0 <= i < |b| :: b[i] in b;
        TokensWithinShare(b, Share(p, b), st.now, bs[k]);
        ShareIsFair(p, b);
      }
    }
  }

  lemma {:induction false} AssignWorks(p: Params, st: State, k: nat, i: nat)
    requires Consistent(p, st) && p.Serves() && k < |st.batches| && i < |st.batches[k]|
    ensures WorksOn(Assign(st.batches[k][i], HasPrefill(st.batches), Share(p, st.batches[k]), st.now),
                    HasPrefill(st.batches))
  {
    var b := st.batches[k];
    assert b[i] in b;
    ShareIsFair(p, b);
    if Prefilling(b[i]) {
      CountIsSome(b, i);
    }
  }

  // ---------------------------------------------------------------- update

  /** A sequence after its update. */
  ghost predicate Settled(s: Request, now: real) {
    s.process == 0 && s.current <= s.total && 1 <= s.input <= s.total && s.genStart <= now
  }

  lemma {:induction false} UpdateSettles(s: Request, prefill: bool, share: nat, now: real, time: real)
    requires Ready(s, now)
    ensures Settled(Update(Assign(s, prefill, share, now), time), now)
  {
  }

  lemma {:induction false} RemainingIsReady(b: Batch, now: real)
    requires forall i | 0 <= i < |b| :: Settled(b[i], now)
    ensures AllReady(Remaining(b), now) && |Remaining(b)| <= |b|
  {
    if b != [] {
      RemainingIsReady(b[1..], now);
    }
  }

  lemma {:induction false} BatchStaysReady(p: Params, st: State, k: nat, time: real)
    requires Consistent(p, st) && k < |st.batches|
    ensures var b := UpdateScheduler(SetMetadata(p, st), time).batches[k];
      AllReady(b, st.now) && |b| <= |st.batches[k]|
  {
    var b := UpdateBatch(SetMetadata(p, st).batches[k], time);
    forall i | 0 <= i < |b|
      ensures Settled(b[i], st.now)
    {
      assert st.batches[k][i] in st.batches[k];
      UpdateSettles(st.batches[k][i], HasPrefill(st.batches), Share(p, st.batches[k]), st.now, time);
    }
    RemainingIsReady(b, st.now);
  }

  lemma {:induction false} ProcessedIsConsistent(p: Params, st: State, mode: Mode)
    requires Consistent(p, st) && TimeOf(mode) >= 0.0
    ensures Consistent(p, Processed(p, st, mode))
    ensures Processed(p, st, mode).queue == st.queue && st.now <= Processed(p, st, mode).now
  {
    forall k | 0 <= k < |st.batches|
      ensures var b := UpdateScheduler(SetMetadata(p, st), TimeOf(mode)).batches[k];
        AllReady(b, st.now) && |b| <= |st.batches[k]|
    {
      BatchStaysReady(p, st, k, TimeOf(mode));
    }
    if mode.Timed? {
      var ready := SetMetadata(p, st);
      StampingKeepsReady(UpdateScheduler(ready, mode.time), Reported(ready, mode.time), st.now + mode.time);
    }
  }

  lemma {:induction false} StampingKeepsReady(st: State, listed: seq<Request>, now: real)
    requires st.now <= now && forall k | 0 <= k < |st.batches| :: AllReady(st.batches[k], st.now)
    ensures var bs := AddLatency(st, listed, now).batches;
      |bs| == |st.batches| && forall k | 0 <= k < |bs| :: |bs[k]| == |st.batches[k]| && AllReady(bs[k], now)
  {
    var bs := AddLatency(st, listed, now).batches;
    forall k | 0 <= k < |bs|
      ensures |bs[k]| == |st.batches[k]| && AllReady(bs[k], now)
    {
      var b := st.batches[k];
      assert forall i | 0 <= i < |b| :: b[i] in b && bs[k][i] == StampOne(b[i], listed, now);
    }
  }

  // ------------------------------------------------------------- admission

  lemma {:induction false} FlatIsReady(bs: seq<Batch>, now: real)
    ensures AllReady(Flat(bs), now) <==> forall k | 0 <= k < |bs| :: AllReady(bs[k], now)
  {
    if bs != [] {
      FlatIsReady(bs[1..], now);
      assert forall k | 1 <= k < |bs| :: bs[k] == bs[1..][k - 1];
    }
  }

  lemma {:induction false} MovingKeepsReady(st: State, st': State, n: nat)
    requires Moved(st, st', n) && AllReady(st.queue, st.now)
    requires forall k | 0 <= k < |st.batches| :: AllReady(st.batches[k], st.now)
    ensures AllReady(st'.queue, st.now) && forall k | 0 <= k < |st'.batches| :: AllReady(st'.batches[k], st.now)
  {
    FlatIsReady(st.batches, st.now);
    forall s | s in Flat(st'.batches)
      ensures Ready(s, st.now)
    {
      assert s in multiset(Flat(st'.batches));
    }
    FlatIsReady(st'.batches, st.now);
  }

  /** Every round leaves a consistent state. */
  lemma {:induction false} RoundIsConsistent(p: Params, st: State, i: Input)
    requires Consistent(p, st) && Fits(i)
    ensures Consistent(p, Round(p, st, i))
  {
    if Skipped(p, st, i.mode) {
      SkippedIsSame(p, st);
    } else {
      ProcessedIsConsistent(p, st, i.mode);
      var done := Processed(p, st, i.mode);
      var st1 := done.(queue := done.queue + i.arrivals);
      FillAdmitsPrefix(p, st1);
      MovingKeepsReady(st1, FillRunningQueue(p, st1), Admissible(p, st1));
    }
  }

  lemma {:induction false} NoTokens(b: Batch)
    requires Tokens(b) == 0
    ensures forall i | 0 <= i < |b| :: b[i].process == 0
  {
    if b != [] {
      NoTokens(b[1..]);
    }
  }

  lemma {:induction false} NoTokensAtAll(bs: seq<Batch>)
    requires AllTokens(bs) == 0
    ensures forall k, i | 0 <= k < |bs| && 0 <= i < |bs[k]| :: bs[k][i].process == 0
  {
    if bs != [] {
      NoTokens(bs[0]);
      NoTokensAtAll(bs[1..]);
      assert forall k | 1 <= k < |bs| :: bs[k] == bs[1..][k - 1];
    }
  }

  /** A round that assigns no token changes nothing. */
  lemma {:induction false} SkippedIsSame(p: Params, st: State)
    requires Consistent(p, st) && AllTokens(SetMetadata(p, st).batches) == 0
    ensures SetMetadata(p, st) == st
  {
    var bs := SetMetadata(p, st).batches;
    NoTokensAtAll(bs);
    forall k | 0 <= k < |bs|
      ensures bs[k] == st.batches[k]
    {
      forall i | 0 <= i < |bs[k]|
        ensures bs[k][i] == st.batches[k][i]
      {
        assert st.batches[k][i] in st.batches[k] && bs[k][i].process == 0;
      }
    }
  }

  /** Every reachable state is consistent. */
  lemma {:induction false} RunIsConsistent(p: Params, st: State, inputs: seq<Input>)
    requires Consistent(p, st) && AllFit(inputs)
    ensures Consistent(p, Run(p, st, inputs))
    decreases |inputs|
  {
    if inputs != [] {
      RoundIsConsistent(p, st, inputs[0]);
      RunIsConsistent(p, Round(p, st, inputs[0]), inputs[1..]);
    }
  }
}
