/** Over whole runs tokens are conserved, batches stay full, and the queue grows by exactly the
    remainder of the batch size (src/scheduler/scheduler.cpp). */
module Conservation {
  import opened Basics
  import opened Batching
  import opened Admission
  import opened Progress

  // ---------------------------------------------------------------- tokens

  function Length(s: Request): real {
    s.current as real
  }

  /** The tokens read or generated so far by the sequences that are running or waiting. */
  ghost function Held(st: State): real {
    Sum(Flat(st.batches), Length) + Sum(st.queue, Length)
  }

  /** The reported sequences that are done. */
  function Finished(listed: seq<Request>): seq<Request> {
    if listed == [] then [] else (if Done(listed[0]) then [listed[0]] else []) + Finished(listed[1..])
  }

  lemma {:induction false} FinishedAppend(xs: seq<Request>, ys: seq<Request>)
    ensures Finished(xs + ys) == Finished(xs) + Finished(ys)
  {
    if xs == [] {
      assert xs + ys == ys;
    } else {
      FinishedAppend(xs[1..], ys);
      FinishedStep(xs, ys);
      Regroup(if Done(xs[0]) then [xs[0]] else [], Finished(xs[1..]), Finished(ys));
    }
  }

  lemma {:induction false} FinishedStep(xs: seq<Request>, ys: seq<Request>)
    requires xs != []
    ensures Finished(xs + ys) == (if Done(xs[0]) then [xs[0]] else []) + Finished(xs[1..] + ys)
  {
    assert (xs + ys)[0] == xs[0] && (xs + ys)[1..] == xs[1..] + ys;
  }

  /** The lengths of two lists of sequences agree. */
  ghost predicate SameLengths(b: seq<Request>, r: seq<Request>) {
    |r| == |b| && forall i | 0 <= i < |b| :: r[i].current == b[i].current
  }

  lemma {:induction false} SameLengthsSum(b: seq<Request>, r: seq<Request>)
    requires SameLengths(b, r)
    ensures Sum(r, Length) == Sum(b, Length)
  {
    if b != [] {
      SameLengthsSum(b[1..], r[1..]);
    }
  }

  lemma {:induction false} UpdateAddsTokens(b: Batch, time: real)
    ensures Sum(UpdateBatch(b, time), Length) == Sum(b, Length) + Tokens(b) as real
  {
    if b != [] {
      assert UpdateBatch(b, time)[1..] == UpdateBatch(b[1..], time);
      UpdateAddsTokens(b[1..], time);
    }
  }

  lemma {:induction false} RemainingAndFinished(b: Batch)
    ensures Sum(Remaining(b), Length) + Sum(Finished(Listed(b)), Length) == Sum(b, Length)
  {
    if b != [] {
      RemainingAndFinished(b[1..]);
      var stays := if Done(b[0]) then [] else [Recorded(b[0])];
      var listed := if Done(b[0]) || Starts(b[0]) then [Recorded(b[0])] else [];
      SumAppend(stays, Remaining(b[1..]), Length);
      FinishedAppend(listed, Listed(b[1..]));
      SumAppend(Finished(listed), Finished(Listed(b[1..])), Length);
    }
  }

  lemma {:induction false} BatchesConserve(bs: seq<Batch>, rs: seq<Batch>, time: real)
    requires |rs| == |bs| && forall k | 0 <= k < |bs| :: SameLengths(bs[k], rs[k])
    ensures var us := UpdateBatches(rs, time);
      Sum(Flat(RemainingAll(us)), Length) + Sum(Finished(ListedAll(us)), Length)
      == Sum(Flat(bs), Length) + AllTokens(rs) as real
  {
    if bs != [] {
      var us := UpdateBatches(rs, time);
      BatchesConserve(bs[1..], rs[1..], time);
      assert us[1..] == UpdateBatches(rs[1..], time);
      assert RemainingAll(us)[1..] == RemainingAll(us[1..]);
      SameLengthsSum(bs[0], rs[0]);
      UpdateAddsTokens(rs[0], time);
      RemainingAndFinished(us[0]);
      SumAppend(bs[0], Flat(bs[1..]), Length);
      SumAppend(Remaining(us[0]), Flat(RemainingAll(us[1..])), Length);
      FinishedAppend(Listed(us[0]), ListedAll(us[1..]));
      SumAppend(Finished(Listed(us[0])), Finished(ListedAll(us[1..])), Length);
    }
  }

  lemma {:induction false} SameLengthsFlat(bs: seq<Batch>, rs: seq<Batch>)
    requires |rs| == |bs| && forall k | 0 <= k < |bs| :: SameLengths(bs[k], rs[k])
    ensures Sum(Flat(rs), Length) == Sum(Flat(bs), Length)
  {
    if bs != [] {
      SameLengthsFlat(bs[1..], rs[1..]);
      SameLengthsSum(bs[0], rs[0]);
      SumAppend(bs[0], Flat(bs[1..]), Length);
      SumAppend(rs[0], Flat(rs[1..]), Length);
    }
  }

  lemma {:induction false} MovingKeepsHeld(st: State, st': State, n: nat)
    requires Moved(st, st', n)
    ensures Held(st') == Held(st)
  {
    SumPermutation(Flat(st'.batches), Flat(st.batches) + st.queue[..n], Length);
    SumAppend(Flat(st.batches), st.queue[..n], Length);
    SumAppend(st.queue[..n], st.queue[n..], Length);
    assert st.queue == st.queue[..n] + st.queue[n..];
  }

  lemma {:induction false} AssigningKeepsLengths(p: Params, st: State)
    ensures var rs := SetMetadata(p, st).batches;
      |rs| == |st.batches| && forall k | 0 <= k < |st.batches| :: SameLengths(st.batches[k], rs[k])
  {
  }

  lemma {:induction false} StampingKeepsLengths(st: State, listed: seq<Request>, now: real)
    ensures Sum(Flat(AddLatency(st, listed, now).batches), Length) == Sum(Flat(st.batches), Length)
  {
    SameLengthsFlat(st.batches, AddLatency(st, listed, now).batches);
  }

  lemma {:induction false} UpdatingConserves(p: Params, st: State, time: real)
    ensures var ready := SetMetadata(p, st);
      Sum(Flat(UpdateScheduler(ready, time).batches), Length) + Sum(Finished(Reported(ready, time)), Length)
      == Sum(Flat(st.batches), Length) + AllTokens(ready.batches) as real
  {
    AssigningKeepsLengths(p, st);
    BatchesConserve(st.batches, SetMetadata(p, st).batches, time);
  }

  lemma {:induction false} StampingKeepsHeld(st: State, listed: seq<Request>, now: real)
    ensures Held(AddLatency(st, listed, now)) == Held(st)
  {
    StampingKeepsLengths(st, listed, now);
  }

  lemma {:induction false} ProcessingConserves(p: Params, st: State, mode: Mode)
    ensures Held(Processed(p, st, mode)) + Sum(Finished(Reported(SetMetadata(p, st), TimeOf(mode))), Length)
            == Held(st) + AllTokens(SetMetadata(p, st).batches) as real
  {
    UpdatingConserves(p, st, TimeOf(mode));
    ProcessedHolds(p, st, mode);
  }

  lemma {:induction false} ProcessedHolds(p: Params, st: State, mode: Mode)
    ensures Held(Processed(p, st, mode)) ==
      Sum(Flat(UpdateScheduler(SetMetadata(p, st), TimeOf(mode)).batches), Length) + Sum(st.queue, Length)
  {
    match mode {
      case WarmUp =>
      case Timed(time) =>
        var ready := SetMetadata(p, st);
        StampingKeepsHeld(UpdateScheduler(ready, time), Reported(ready, time), st.now + time);
    }
  }

  lemma {:induction false} FillingKeepsHeld(p: Params, st: State, arrivals: seq<Request>)
    requires Consistent(p, st)
    ensures Held(FillRunningQueue(p, st.(queue := st.queue + arrivals))) == Held(st) + Sum(arrivals, Length)
  {
    var st1 := st.(queue := st.queue + arrivals);
    SumAppend(st.queue, arrivals, Length);
    FillAdmitsPrefix(p, st1);
    MovingKeepsHeld(st1, FillRunningQueue(p, st1), Admissible(p, st1));
  }

  /** The tokens processed in one round. */
  function TokensIn(p: Params, st: State): nat {
    AllTokens(SetMetadata(p, st).batches)
  }

  /** One round: what is held afterwards and what has left account for what was held, what came in, and
      the tokens processed. */
  lemma {:induction false} RoundConserves(p: Params, st: State, i: Input)
    requires Consistent(p, st) && Fits(i)
    ensures Held(Round(p, st, i)) + Sum(Finished(ReportedIn(p, st, i.mode)), Length) ==
      Held(st) + TokensIn(p, st) as real + if Skipped(p, st, i.mode) then 0.0 else Sum(i.arrivals, Length)
  {
    if Skipped(p, st, i.mode) {
      SkippedIsSame(p, st);
    } else {
      ProcessingConserves(p, st, i.mode);
      ProcessedIsConsistent(p, st, i.mode);
      FillingKeepsHeld(p, Processed(p, st, i.mode), i.arrivals);
    }
  }

  function RunTokens(p: Params, st: State, inputs: seq<Input>): nat
    requires p.dp >= 1
    decreases |inputs|
  {
    if inputs == [] then 0 else TokensIn(p, st) + RunTokens(p, Round(p, st, inputs[0]), inputs[1..])
  }

  /** The total lengths of the sequences that finished. */
  function FinishedLength(log: seq<seq<Request>>): real {
    if log == [] then 0.0 else Sum(Finished(log[0]), Length) + FinishedLength(log[1..])
  }

  /** The lengths sequences had already when they were pushed, as far as their rounds took place. */
  function ArrivedLength(p: Params, st: State, inputs: seq<Input>): real
    requires p.dp >= 1
    decreases |inputs|
  {
    if inputs == [] then 0.0
    else (if Skipped(p, st, inputs[0].mode) then 0.0 else Sum(inputs[0].arrivals, Length))
         + ArrivedLength(p, Round(p, st, inputs[0]), inputs[1..])
  }

  /** Over any run the tokens processed are exactly the total growth of the sequences. */
  lemma {:induction false} RunConserves(p: Params, st: State, inputs: seq<Input>)
    requires Consistent(p, st) && AllFit(inputs)
    ensures RunTokens(p, st, inputs) as real ==
      Held(Run(p, st, inputs)) + FinishedLength(Reports(p, st, inputs)) - Held(st) - ArrivedLength(p, st, inputs)
    decreases |inputs|
  {
    if inputs != [] {
      RoundConserves(p, st, inputs[0]);
      RoundIsConsistent(p, st, inputs[0]);
      RunConserves(p, Round(p, st, inputs[0]), inputs[1..]);
    }
  }

  // --------------------------------------------------------------- batches

  lemma {:induction false} SomeTokens(b: Batch, i: nat)
    requires i < |b|
    ensures Tokens(b) >= b[i].process
  {
    if i > 0 {
      SomeTokens(b[1..], i - 1);
    }
  }

  lemma {:induction false} SomeTokensAtAll(bs: seq<Batch>, k: nat, i: nat)
    requires k < |bs| && i < |bs[k]|
    ensures AllTokens(bs) >= bs[k][i].process
  {
    if k > 0 {
      SomeTokensAtAll(bs[1..], k - 1, i);
    } else {
      SomeTokens(bs[0], i);
    }
  }

  lemma {:induction false} FindPrefilling(b: Batch) returns (i: nat)
    requires CountPrefilling(b) > 0
    ensures i < |b| && Prefilling(b[i])
  {
    i := 0;
    if !Prefilling(b[0]) {
      i := FindPrefilling(b[1..]);
      i := i + 1;
    }
  }

  /** As long as a sequence is running, every round has work. */
  lemma {:induction false} RunningMeansWork(p: Params, st: State, k: nat)
    requires p.Serves()
    requires Consistent(p, st) && k < |st.batches| && st.batches[k] != []
    ensures TokensIn(p, st) > 0
  {
    var bs := SetMetadata(p, st).batches;
    WorkIsUniform(p, st);
    if HasPrefill(st.batches) {
      var j :| 0 <= j < |st.batches| && CountPrefilling(st.batches[j]) > 0;
      var i := FindPrefilling(st.batches[j]);
      assert WorksOn(bs[j][i], true);
      SomeTokensAtAll(bs, j, i);
    } else {
      assert WorksOn(bs[k][0], false);
      SomeTokensAtAll(bs, k, 0);
    }
  }

  /** A round pushes as many sequences as the batches are short of the total batch size. */
  ghost predicate Asks(p: Params, st: State, i: Input) {
    Skipped(p, st, i.mode) || |i.arrivals| == p.totalBatch - BatchSize(Processed(p, st, i.mode).batches)
  }

  ghost predicate Demanded(p: Params, st: State, inputs: seq<Input>)
    requires p.dp >= 1
    decreases |inputs|
  {
    inputs != [] ==>
      && Asks(p, st, inputs[0])
      && Demanded(p, Round(p, st, inputs[0]), inputs[1..])
  }

  lemma {:induction false} FullBatchesStayFull(p: Params, st: State, i: Input)
    requires p.Serves()
    requires Consistent(p, st) && Full(st.batches, p.Cap()) && Fits(i)
    requires Asks(p, st, i)
    ensures !Skipped(p, st, i.mode)
    ensures Full(Round(p, st, i).batches, p.Cap())
    ensures |Round(p, st, i).queue| == |st.queue| + p.totalBatch % p.dp
  {
    RunningMeansWork(p, st, 0);
    ProcessedIsConsistent(p, st, i.mode);
    var done := Processed(p, st, i.mode);
    var st1 := done.(queue := done.queue + i.arrivals);
    FillAdmitsPrefix(p, st1);
    FreeIsMissing(p, st1.batches);
  }

  /** While every round asks for what is missing, the batches are full after every fill, and each fill leaves
      exactly the remainder of the batch size more in the queue. */
  lemma {:induction false} BatchesStayFull(p: Params, st: State, inputs: seq<Input>, r: nat)
    requires p.Serves()
    requires Consistent(p, st) && r == p.totalBatch % p.dp && Full(st.batches, p.Cap())
    requires AllFit(inputs) && Demanded(p, st, inputs)
    ensures Full(Run(p, st, inputs).batches, p.Cap())
    ensures |Run(p, st, inputs).queue| == |st.queue| + |inputs| * r
    decreases |inputs|
  {
    if inputs != [] {
      FullBatchesStayFull(p, st, inputs[0]);
      RoundIsConsistent(p, st, inputs[0]);
      BatchesStayFull(p, Round(p, st, inputs[0]), inputs[1..], r);
      Distribute(|inputs| - 1, 1, r);
    }
  }

  /** The first fill, from empty batches. */
  ghost function FirstFill(p: Params, arrivals: seq<Request>, rotate: nat): State
    requires p.dp >= 1
  {
    FillRunningQueue(p, State(seq(p.dp, k => []), arrivals, rotate, 0.0))
  }

  lemma {:induction false} EmptyHasNothing(bs: seq<Batch>)
    requires forall k | 0 <= k < |bs| :: bs[k] == []
    ensures BatchSize(bs) == 0
  {
    if bs != [] {
      EmptyHasNothing(bs[1..]);
    }
  }

  lemma {:induction false} FirstFillIsConsistent(p: Params, arrivals: seq<Request>, rotate: nat)
    requires p.Valid() && AllReady(arrivals, 0.0)
    ensures Consistent(p, FirstFill(p, arrivals, rotate))
  {
    var st := State(seq(p.dp, k => []), arrivals, rotate, 0.0);
    EmptyHasNothing(st.batches);
    FillAdmitsPrefix(p, st);
    MovingKeepsReady(st, FirstFill(p, arrivals, rotate), Admissible(p, st));
  }

  lemma {:induction false} FirstFillIsFull(p: Params, arrivals: seq<Request>, rotate: nat)
    requires p.Valid() && |arrivals| == p.totalBatch && AllReady(arrivals, 0.0)
    ensures var st := FirstFill(p, arrivals, rotate);
      Consistent(p, st) && Full(st.batches, p.Cap()) && |st.queue| == p.totalBatch % p.dp
  {
    var st := State(seq(p.dp, k => []), arrivals, rotate, 0.0);
    EmptyHasNothing(st.batches);
    FillAdmitsPrefix(p, st);
    FreeIsMissing(p, st.batches);
    FirstFillIsConsistent(p, arrivals, rotate);
  }

  /** After the first fill and any number of rounds, every batch holds exactly its share, and the queue is
      the number of fills times the remainder. */
  lemma {:induction false} QueueAfterFills(p: Params, arrivals: seq<Request>, rotate: nat, inputs: seq<Input>)
    requires p.Serves()
    requires p.Valid() && |arrivals| == p.totalBatch && AllReady(arrivals, 0.0)
    requires AllFit(inputs) && Demanded(p, FirstFill(p, arrivals, rotate), inputs)
    ensures var st := Run(p, FirstFill(p, arrivals, rotate), inputs);
      Full(st.batches, p.Cap()) && |st.queue| == (|inputs| + 1) * (p.totalBatch % p.dp)
  {
    FirstFillIsFull(p, arrivals, rotate);
    BatchesStayFull(p, FirstFill(p, arrivals, rotate), inputs, p.totalBatch % p.dp);
    Distribute(|inputs|, 1, p.totalBatch % p.dp);
  }

  lemma {:induction false} RunAppend(p: Params, st: State, inputs: seq<Input>, i: Input)
    requires p.dp >= 1
    ensures Run(p, st, inputs + [i]) == Round(p, Run(p, st, inputs), i)
    decreases |inputs|
  {
    if inputs == [] {
      assert [] + [i] == [i] && [i][1..] == [];
    } else {
      assert (inputs + [i])[0] == inputs[0] && (inputs + [i])[1..] == inputs[1..] + [i];
      RunAppend(p, Round(p, st, inputs[0]), inputs[1..], i);
    }
  }

  lemma {:induction false} DemandedAppend(p: Params, st: State, inputs: seq<Input>, i: Input)
    requires p.dp >= 1 && Demanded(p, st, inputs)
    requires Asks(p, Run(p, st, inputs), i)
    ensures Demanded(p, st, inputs + [i])
    decreases |inputs|
  {
    if inputs == [] {
      assert [] + [i] == [i] && [i][1..] == [];
    } else {
      assert (inputs + [i])[0] == inputs[0] && (inputs + [i])[1..] == inputs[1..] + [i];
      DemandedAppend(p, Round(p, st, inputs[0]), inputs[1..], i);
    }
  }
}
