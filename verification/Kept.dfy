/** Properties of single sequences that every round keeps, and what they mean for the reports
    (src/scheduler/scheduler.cpp, src/scheduler/sequence.cpp). */
module Kept {
  import opened Basics
  import opened Batching
  import opened Admission
  import opened Progress

  ghost predicate All(xs: seq<Request>, f: Request -> bool) {
    forall s | s in xs :: f(s)
  }

  ghost predicate AllState(st: State, f: Request -> bool) {
    All(Flat(st.batches), f) && All(st.queue, f)
  }

  /** A sequence after the round that assigned it its tokens. */
  function Next(s: Request, prefill: bool, share: nat, now: real, time: real): Request {
    Recorded(Update(Assign(s, prefill, share, now), time))
  }

  /** A round in which a ready sequence takes part does not destroy the property. */
  ghost predicate Closed(f: Request -> bool) {
    && (forall s, prefill, share, now, time | f(s) && Ready(s, now) && time >= 0.0 ::
         f(Next(s, prefill, share, now, time)))
    && forall s: Request, now: real | f(s) :: f(s.(genStart := now))
  }

  /** A sequence that is reported has the second property if it had the first before. */
  ghost predicate Yields(f: Request -> bool, g: Request -> bool) {
    forall s, prefill, share, now, time | f(s) && Ready(s, now) && time >= 0.0 ::
      (Done(Update(Assign(s, prefill, share, now), time)) || Starts(Update(Assign(s, prefill, share, now), time))
       ==> g(Next(s, prefill, share, now, time)))
  }

  lemma {:induction false} FlatAll(bs: seq<Batch>, f: Request -> bool)
    ensures All(Flat(bs), f) <==> forall k | 0 <= k < |bs| :: All(bs[k], f)
  {
    if bs != [] {
      FlatAll(bs[1..], f);
      assert forall k | 1 <= k < |bs| :: bs[k] == bs[1..][k - 1];
    }
  }

  /** What stays of a batch, and what is reported. */
  lemma {:induction false} SettledAll(b: Batch, f: Request -> bool, g: Request -> bool)
    requires forall i | 0 <= i < |b| && !Done(b[i]) :: f(Recorded(b[i]))
    requires forall i | 0 <= i < |b| && (Done(b[i]) || Starts(b[i])) :: g(Recorded(b[i]))
    ensures All(Remaining(b), f) && All(Listed(b), g)
  {
    if b != [] {
      SettledAll(b[1..], f, g);
    }
  }

  lemma {:induction false} BatchKeeps(p: Params, st: State, k: nat, time: real, f: Request -> bool, g: Request -> bool)
    requires Consistent(p, st) && k < |st.batches| && time >= 0.0 && Closed(f) && Yields(f, g) && All(st.batches[k], f)
    ensures var u := UpdateBatches(SetMetadata(p, st).batches, time)[k];
      All(Remaining(u), f) && All(Listed(u), g)
  {
    var b, u := st.batches[k], UpdateBatches(SetMetadata(p, st).batches, time)[k];
    forall i | 0 <= i < |u|
      ensures f(Recorded(u[i])) && (Done(u[i]) || Starts(u[i]) ==> g(Recorded(u[i])))
    {
      assert b[i] in b;
      assert Recorded(u[i]) == Next(b[i], HasPrefill(st.batches), Share(p, b), st.now, time);
    }
    SettledAll(u, f, g);
  }

  lemma {:induction false} ListedAllHas(us: seq<Batch>, g: Request -> bool)
    requires forall k | 0 <= k < |us| :: All(Listed(us[k]), g)
    ensures All(ListedAll(us), g)
  {
    if us != [] {
      ListedAllHas(us[1..], g);
    }
  }

  lemma {:induction false} UpdateKeeps(p: Params, st: State, time: real, f: Request -> bool, g: Request -> bool)
    requires Consistent(p, st) && time >= 0.0 && Closed(f) && Yields(f, g) && AllState(st, f)
    ensures AllState(UpdateScheduler(SetMetadata(p, st), time), f) && All(Reported(SetMetadata(p, st), time), g)
  {
    var us := UpdateBatches(SetMetadata(p, st).batches, time);
    FlatAll(st.batches, f);
    forall k | 0 <= k < |us|
      ensures All(RemainingAll(us)[k], f) && All(Listed(us[k]), g)
    {
      BatchKeeps(p, st, k, time, f, g);
    }
    FlatAll(RemainingAll(us), f);
    ListedAllHas(us, g);
  }

  lemma {:induction false} StampKeeps(st: State, listed: seq<Request>, now: real, f: Request -> bool)
    requires Closed(f) && AllState(st, f)
    ensures AllState(AddLatency(st, listed, now), f)
  {
    var bs := AddLatency(st, listed, now).batches;
    FlatAll(st.batches, f);
    forall k | 0 <= k < |bs|
      ensures All(bs[k], f)
    {
      StampBatchKeeps(st.batches[k], bs[k], listed, now, f);
    }
    FlatAll(bs, f);
  }

  lemma {:induction false} StampBatchKeeps(b: Batch, r: Batch, listed: seq<Request>, now: real, f: Request -> bool)
    requires Closed(f) && All(b, f) && |r| == |b| && forall i | 0 <= i < |b| :: r[i] == StampOne(b[i], listed, now)
    ensures All(r, f)
  {
    forall s | s in r
      ensures f(s)
    {
      var i :| 0 <= i < |r| && r[i] == s;
      assert b[i] in b;
    }
  }

  lemma {:induction false} MoveKeeps(st: State, st': State, n: nat, f: Request -> bool)
    requires Moved(st, st', n) && AllState(st, f)
    ensures AllState(st', f)
  {
    forall s | s in Flat(st'.batches)
      ensures f(s)
    {
      assert s in multiset(Flat(st'.batches));
    }
  }

  lemma {:induction false} ProcessedKeeps(p: Params, st: State, mode: Mode, f: Request -> bool, g: Request -> bool)
    requires Consistent(p, st) && TimeOf(mode) >= 0.0 && Closed(f) && Yields(f, g) && AllState(st, f)
    ensures AllState(Processed(p, st, mode), f) && All(Reported(SetMetadata(p, st), TimeOf(mode)), g)
  {
    UpdateKeeps(p, st, TimeOf(mode), f, g);
    StampedKeeps(p, st, mode, f);
  }

  lemma {:induction false} StampedKeeps(p: Params, st: State, mode: Mode, f: Request -> bool)
    requires Closed(f) && AllState(UpdateScheduler(SetMetadata(p, st), TimeOf(mode)), f)
    ensures AllState(Processed(p, st, mode), f)
  {
    if mode.Timed? {
      var ready := SetMetadata(p, st);
      StampKeeps(UpdateScheduler(ready, mode.time), Reported(ready, mode.time), st.now + mode.time, f);
    }
  }

  lemma {:induction false} FillKeeps(p: Params, st: State, f: Request -> bool)
    requires |st.batches| == p.dp && p.Valid() && Bounded(st.batches, p.Cap()) && AllState(st, f)
    ensures AllState(FillRunningQueue(p, st), f)
  {
    FillAdmitsPrefix(p, st);
    MoveKeeps(st, FillRunningQueue(p, st), Admissible(p, st), f);
  }

  /** One round keeps the property, and what it reports has the other. */
  lemma {:induction false} RoundKeeps(p: Params, st: State, i: Input, f: Request -> bool, g: Request -> bool)
    requires Consistent(p, st) && Fits(i) && Closed(f) && Yields(f, g) && AllState(st, f) && All(i.arrivals, f)
    ensures AllState(Round(p, st, i), f) && All(ReportedIn(p, st, i.mode), g)
  {
    if Skipped(p, st, i.mode) {
      SkippedIsSame(p, st);
    } else {
      ProcessedKeeps(p, st, i.mode, f, g);
      ProcessedIsConsistent(p, st, i.mode);
      var done := Processed(p, st, i.mode);
      FillKeeps(p, done.(queue := done.queue + i.arrivals), f);
    }
  }

  lemma {:induction false} RunKeeps(p: Params, st: State, inputs: seq<Input>, f: Request -> bool, g: Request -> bool)
    requires Consistent(p, st) && AllFit(inputs) && Closed(f) && Yields(f, g) && AllState(st, f)
    requires forall j | 0 <= j < |inputs| :: All(inputs[j].arrivals, f)
    ensures AllState(Run(p, st, inputs), f)
    ensures forall j | 0 <= j < |inputs| :: All(Reports(p, st, inputs)[j], g)
    decreases |inputs|
  {
    if inputs != [] {
      RoundKeeps(p, st, inputs[0], f, g);
      RoundIsConsistent(p, st, inputs[0]);
      RunKeeps(p, Round(p, st, inputs[0]), inputs[1..], f, g);
    }
  }

  // ----------------------------------------------------------- completeness

  /** A reported sequence has come to its total, or has just read its input and has more to generate. */
  ghost predicate ReportsMilestone(s: Request) {
    s.current == s.total || (s.current == s.input < s.total && s.record)
  }

  /** Over any run, nothing is reported before it has read its input, and whatever is reported at another place than
      right there is complete. */
  lemma {:induction false} ReportsAreMilestones(p: Params, st: State, inputs: seq<Input>)
    requires Consistent(p, st) && AllFit(inputs)
    ensures forall j | 0 <= j < |inputs| :: All(Reports(p, st, inputs)[j], s => ReportsMilestone(s))
  {
    var f, g := (s: Request) => true, (s: Request) => ReportsMilestone(s);
    forall s, prefill, share, now, time | f(s) && Ready(s, now) && time >= 0.0
      ensures var u := Update(Assign(s, prefill, share, now), time);
        Done(u) || Starts(u) ==> g(Next(s, prefill, share, now, time))
    {
      UpdateSettles(s, prefill, share, now, time);
    }
    RunKeeps(p, st, inputs, f, g);
  }

  // -------------------------------------------------------------- latencies

  /** The first-token clock runs with the end clock until the input is read, and stands from then on. */
  ghost predicate ClocksAgree(s: Request) {
    && (s.sumStage <==> Prefilling(s))
    && (s.sumStage ==> s.firstTokenTime == s.endTokenTime)
    && s.firstTokenTime <= s.endTokenTime
    && (!s.record ==> Prefilling(s) || Done(s))
    && (s.record ==> !Prefilling(s))
  }

  /** A reported sequence: at its first token both latencies are the same. */
  ghost predicate ReportsLatency(s: Request) {
    && s.firstTokenTime <= s.endTokenTime
    && (!Done(s) ==> s.current == s.input && s.firstTokenTime == s.endTokenTime)
    && (Done(s) && s.input == s.total ==> s.firstTokenTime == s.endTokenTime)
  }

  lemma {:induction false} ClocksStayAgreed(s: Request, prefill: bool, share: nat, now: real, time: real)
    requires ClocksAgree(s) && Ready(s, now) && time >= 0.0
    ensures ClocksAgree(Next(s, prefill, share, now, time))
    ensures var u := Update(Assign(s, prefill, share, now), time);
      Done(u) || Starts(u) ==> ReportsLatency(Next(s, prefill, share, now, time))
  {
  }

  /** Over any run without decode mode, the time to the first token never exceeds the time to the end; the two
      are equal in a sequence's first-token report. */
  lemma {:induction false} LatenciesAreOrdered(p: Params, st: State, inputs: seq<Input>)
    requires Consistent(p, st) && AllFit(inputs) && AllState(st, s => ClocksAgree(s))
    requires forall j | 0 <= j < |inputs| :: All(inputs[j].arrivals, s => ClocksAgree(s))
    ensures AllState(Run(p, st, inputs), s => ClocksAgree(s))
    ensures forall j | 0 <= j < |inputs| :: All(Reports(p, st, inputs)[j], s => ReportsLatency(s))
  {
    var f, g := (s: Request) => ClocksAgree(s), (s: Request) => ReportsLatency(s);
    forall s, prefill, share, now, time | f(s) && Ready(s, now) && time >= 0.0
      ensures f(Next(s, prefill, share, now, time))
      ensures var u := Update(Assign(s, prefill, share, now), time);
        Done(u) || Starts(u) ==> g(Next(s, prefill, share, now, time))
    {
      ClocksStayAgreed(s, prefill, share, now, time);
    }
    RunKeeps(p, st, inputs, f, g);
  }
}
