/** Although prefill goes first and new sequences keep coming, every running sequence finishes within a
    bounded number of rounds (src/scheduler/scheduler.cpp). */
module NoStarvation {
  import opened Basics
  import opened Batching
  import opened Admission
  import opened Progress
  import opened Conservation
  import opened Kept
  import opened Lifecycle

  function PrefillLeft(s: Request): nat {
    if s.current < s.input then s.input - s.current else 0
  }

  /** The tokens still to be generated after the first. */
  function DecodeLeft(s: Request): int {
    s.total - if s.current < s.input then s.input else s.current
  }

  function BatchBacklog(b: Batch): nat {
    if b == [] then 0 else PrefillLeft(b[0]) + BatchBacklog(b[1..])
  }

  /** The input tokens still to be read by the running sequences. */
  function Backlog(bs: seq<Batch>): nat {
    if bs == [] then 0 else BatchBacklog(bs[0]) + Backlog(bs[1..])
  }

  /** Something is generated after the first token, and the input is at most m. */
  ghost predicate Long(s: Request, m: nat) {
    s.input < s.total && s.input <= m
  }

  ghost predicate AllLong(b: seq<Request>, m: nat) {
    forall s | s in b :: Long(s, m)
  }

  ghost predicate LongState(st: State, m: nat) {
    AllLong(Flat(st.batches), m) && AllLong(st.queue, m)
  }

  /** Lengths do not change, so long sequences stay long. */
  lemma {:induction false} RoundIsLong(p: Params, st: State, i: Input, m: nat)
    requires Consistent(p, st) && Fits(i) && LongState(st, m) && AllLong(i.arrivals, m)
    ensures LongState(Round(p, st, i), m)
  {
    var long, any := (s: Request) => Long(s, m), (s: Request) => true;
    RoundKeeps(p, st, i, long, any);
  }

  // --------------------------------------------------------------- backlog

  lemma {:induction false} BatchBacklogIsBounded(b: Batch, m: nat)
    requires AllLong(b, m)
    ensures BatchBacklog(b) <= |b| * m
  {
    if b != [] {
      assert b[0] in b && b == [b[0]] + b[1..];
      BatchBacklogIsBounded(b[1..], m);
      Distribute(|b| - 1, 1, m);
    }
  }

  lemma {:induction false} BacklogIsBounded(bs: seq<Batch>, m: nat)
    requires AllLong(Flat(bs), m)
    ensures Backlog(bs) <= BatchSize(bs) * m
  {
    if bs != [] {
      BacklogIsBounded(bs[1..], m);
      BatchBacklogIsBounded(bs[0], m);
      Distribute(|bs[0]|, BatchSize(bs[1..]), m);
    }
  }

  lemma {:induction false} NoBacklogInBatch(b: Batch)
    requires CountPrefilling(b) == 0
    ensures BatchBacklog(b) == 0
  {
    if b != [] {
      NoBacklogInBatch(b[1..]);
    }
  }

  lemma {:induction false} NoBacklog(bs: seq<Batch>)
    requires !HasPrefill(bs)
    ensures Backlog(bs) == 0
  {
    if bs != [] {
      assert !HasPrefill(bs[1..]) by {
        assert forall k | 0 <= k < |bs| - 1 :: bs[1..][k] == bs[k + 1];
      }
      assert CountPrefilling(bs[0]) == 0;
      NoBacklogInBatch(bs[0]);
      NoBacklog(bs[1..]);
    }
  }

  /** Every sequence of one batch against the same sequence a round later. */
  ghost predicate Moves(b: Batch, r: Batch) {
    |r| == |b| && forall i | 0 <= i < |b| :: PrefillLeft(r[i]) <= PrefillLeft(b[i])
  }

  lemma {:induction false} BatchBacklogFalls(b: Batch, r: Batch)
    requires Moves(b, r)
    ensures BatchBacklog(r) <= BatchBacklog(b)
    ensures (exists i | 0 <= i < |b| :: PrefillLeft(r[i]) < PrefillLeft(b[i])) ==> BatchBacklog(r) < BatchBacklog(b)
  {
    if b != [] {
      BatchBacklogFalls(b[1..], r[1..]);
      if i :| 0 < i < |b| && PrefillLeft(r[i]) < PrefillLeft(b[i]) {
        assert PrefillLeft(r[1..][i - 1]) < PrefillLeft(b[1..][i - 1]);
      }
    }
  }

  lemma {:induction false} BacklogFalls(bs: seq<Batch>, rs: seq<Batch>, k: nat)
    requires |rs| == |bs| && k < |bs| && forall j | 0 <= j < |bs| :: Moves(bs[j], rs[j])
    requires Moves(bs[k], rs[k]) && exists i | 0 <= i < |bs[k]| :: PrefillLeft(rs[k][i]) < PrefillLeft(bs[k][i])
    ensures Backlog(rs) < Backlog(bs)
  {
    BatchBacklogFalls(bs[0], rs[0]);
    if k > 0 {
      BacklogFalls(bs[1..], rs[1..], k - 1);
    } else {
      BacklogDoesNotRise(bs[1..], rs[1..]);
    }
  }

  lemma {:induction false} BacklogDoesNotRise(bs: seq<Batch>, rs: seq<Batch>)
    requires |rs| == |bs| && forall j | 0 <= j < |bs| :: Moves(bs[j], rs[j])
    ensures Backlog(rs) <= Backlog(bs)
  {
    if bs != [] {
      BatchBacklogFalls(bs[0], rs[0]);
      BacklogDoesNotRise(bs[1..], rs[1..]);
    }
  }

  // --------------------------------------------------------- prefill rounds

  lemma {:induction false} NoneDone(b: Batch)
    requires forall i | 0 <= i < |b| :: !Done(b[i])
    ensures |Remaining(b)| == |b| && forall i | 0 <= i < |b| :: Remaining(b)[i] == Recorded(b[i])
  {
    if b != [] {
      NoneDone(b[1..]);
    }
  }

  /** No sequence has more input left, and those that had some have less. */
  ghost predicate Nearer(b: Batch, r: Batch) {
    Moves(b, r) && forall i | 0 <= i < |b| && Prefilling(b[i]) :: PrefillLeft(r[i]) < PrefillLeft(b[i])
  }

  lemma {:induction false} PrefillUpdate(p: Params, st: State, time: real, m: nat, k: nat)
    requires p.Serves()
    requires Consistent(p, st) && LongState(st, m) && HasPrefill(st.batches) && k < |st.batches|
    ensures var u := UpdateBatches(SetMetadata(p, st).batches, time)[k];
      Nearer(st.batches[k], u) && forall i | 0 <= i < |u| :: !Done(u[i])
  {
    var b, u := st.batches[k], UpdateBatches(SetMetadata(p, st).batches, time)[k];
    WorkIsUniform(p, st);
    FlatAll(st.batches, s => Long(s, m));
    forall i | 0 <= i < |b|
      ensures !Done(u[i]) && PrefillLeft(u[i]) <= PrefillLeft(b[i])
      ensures Prefilling(b[i]) ==> PrefillLeft(u[i]) < PrefillLeft(b[i])
    {
      assert b[i] in b;
      var r := SetMetadata(p, st).batches[k][i];
      assert WorksOn(r, true);
      PrefillStep(b[i], r, time, st.now, m);
    }
  }

  /** Recording and stamping leave the sequences' lengths as they are. */
  lemma {:induction false} ProcessedLengths(p: Params, st: State, mode: Mode, k: nat)
    requires k < |st.batches|
    requires forall i | 0 <= i < |st.batches[k]| ::
      !Done(UpdateBatches(SetMetadata(p, st).batches, TimeOf(mode))[k][i])
    ensures var u, r := UpdateBatches(SetMetadata(p, st).batches, TimeOf(mode))[k], Processed(p, st, mode).batches[k];
      |r| == |u| && forall i | 0 <= i < |u| :: PrefillLeft(r[i]) == PrefillLeft(u[i])
  {
    NoneDone(UpdateBatches(SetMetadata(p, st).batches, TimeOf(mode))[k]);
  }

  /** In a prefill round no sequence finishes, and the batches keep their sequences in place. */
  lemma {:induction false} PrefillKeepsAll(p: Params, st: State, mode: Mode, m: nat, k: nat)
    requires p.Serves()
    requires Consistent(p, st) && LongState(st, m) && HasPrefill(st.batches) && k < |st.batches|
    ensures Nearer(st.batches[k], Processed(p, st, mode).batches[k])
  {
    PrefillUpdate(p, st, TimeOf(mode), m, k);
    ProcessedLengths(p, st, mode, k);
  }

  lemma {:induction false} PrefillStep(s: Request, r: Request, time: real, now: real, m: nat)
    requires Ready(s, now) && Long(s, m) && r == s.(process := r.process) && WorksOn(r, true)
    ensures var u := Update(r, time);
      !Done(u) && PrefillLeft(u) <= PrefillLeft(s) && (Prefilling(s) ==> PrefillLeft(u) < PrefillLeft(s))
  {
  }

  /** Full batches admit nobody. */
  lemma {:induction false} FullAdmitsNone(p: Params, st: State)
    requires p.Valid() && |st.batches| == p.dp && Full(st.batches, p.Cap())
    ensures FillRunningQueue(p, st).batches == st.batches
  {
    FillAdmitsPrefix(p, st);
    FreeIsRest(st.batches, p.Cap());
    FreeIsZero(st.batches, p.Cap());
    var bs := FillRunningQueue(p, st).batches;
    forall k | 0 <= k < |bs|
      ensures bs[k] == st.batches[k]
    {
      assert st.batches[k] <= bs[k];
    }
  }

  /** A prefill round reduces the backlog. */
  lemma {:induction false} PrefillRoundHelps(p: Params, st: State, i: Input, m: nat)
    requires p.Serves()
    requires Consistent(p, st) && Fits(i) && LongState(st, m) && HasPrefill(st.batches)
    requires Full(st.batches, p.Cap()) && !Skipped(p, st, i.mode)
    ensures Backlog(Round(p, st, i).batches) < Backlog(st.batches)
  {
    var done := Processed(p, st, i.mode);
    forall k | 0 <= k < |st.batches|
      ensures Moves(st.batches[k], done.batches[k])
    {
      PrefillKeepsAll(p, st, i.mode, m, k);
    }
    assert |done.batches| == |st.batches|;
    FullAdmitsNone(p, done.(queue := done.queue + i.arrivals));
    var k :| 0 <= k < |st.batches| && CountPrefilling(st.batches[k]) > 0;
    var j := FindPrefilling(st.batches[k]);
    PrefillKeepsAll(p, st, i.mode, m, k);
    BacklogFalls(st.batches, done.batches, k);
  }

  // ------------------------------------------------------------ the target

  /** Sequence s is the only one with its id, and it is running. */
  ghost predicate Running(st: State, x: nat, s: Request) {
    Of(Flat(st.batches), x) == [s] && Of(st.queue, x) == []
  }

  lemma {:induction false} InFlat(bs: seq<Batch>, s: Request) returns (k: nat, i: nat)
    requires s in Flat(bs)
    ensures k < |bs| && i < |bs[k]| && bs[k][i] == s
  {
    if s in bs[0] {
      k := 0;
      i :| 0 <= i < |bs[0]| && bs[0][i] == s;
    } else {
      k, i := InFlat(bs[1..], s);
      k := k + 1;
    }
  }

  /** A finished sequence with the id is among the reports. */
  ghost predicate ReportsDone(listed: seq<Request>, x: nat) {
    exists t | t in listed :: t.id == x && Done(t)
  }

  /** After the update the target is reported as done and gone, or no further from its end; in a decode round it is
      nearer. */
  lemma {:induction false} TargetSteps(p: Params, st: State, mode: Mode, x: nat, s: Request)
    requires p.Serves()
    requires Consistent(p, st) && Running(st, x, s) && s.input < s.total
    ensures var left := Of(Flat(Processed(p, st, mode).batches), x);
      if left == [] then ReportsDone(Reported(SetMetadata(p, st), TimeOf(mode)), x)
      else |left| == 1 && DecodeLeft(left[0]) <= DecodeLeft(s) - if HasPrefill(st.batches) then 0 else 1
  {
    var time, prefill := TimeOf(mode), HasPrefill(st.batches);
    var r := UpdatedOf(p, st, time, x);
    ProcessedOf(p, st, mode, x);
    UpdatedWorks(p, st, x, r);
    TargetIsReady(p, st, x, s);
    StepNears(s, r[0], time, prefill);
    OneUpdates(r, time);
    if Done(Update(r[0], time)) {
      ListedIsReported(Reported(SetMetadata(p, st), time), x, Recorded(Update(r[0], time)));
    }
  }

  lemma {:induction false} StepNears(s: Request, r: Request, time: real, prefill: bool)
    requires Stepped(s, r) && WorksOn(r, prefill) && s.input < s.total && s.process == 0
    ensures DecodeLeft(Recorded(Update(r, time))) <= DecodeLeft(s) - if prefill then 0 else 1
  {
  }

  lemma {:induction false} TargetIsReady(p: Params, st: State, x: nat, s: Request)
    requires Consistent(p, st) && Running(st, x, s)
    ensures Ready(s, st.now)
  {
    OfIsIn(Flat(st.batches), x);
    assert s in Of(Flat(st.batches), x);
    PresentIsReady(p, st, x);
    assert Everywhere(st, x)[0] == s;
  }

  lemma {:induction false} ListedIsReported(listed: seq<Request>, x: nat, t: Request)
    requires Of(listed, x) == [t] && Done(t)
    ensures ReportsDone(listed, x)
  {
    OfIsIn(listed, x);
    assert t in Of(listed, x);
  }

  lemma {:induction false} UpdatedWorks(p: Params, st: State, x: nat, r: seq<Request>)
    requires p.Serves()
    requires Consistent(p, st) && r == Of(Flat(SetMetadata(p, st).batches), x)
    ensures forall j | 0 <= j < |r| :: WorksOn(r[j], HasPrefill(st.batches))
  {
    WorkIsUniform(p, st);
    OfIsIn(Flat(SetMetadata(p, st).batches), x);
    forall j | 0 <= j < |r|
      ensures WorksOn(r[j], HasPrefill(st.batches))
    {
      assert r[j] in r;
      var k, i := InFlat(SetMetadata(p, st).batches, r[j]);
    }
  }

  lemma {:induction false} TargetRound(p: Params, st: State, i: Input, x: nat, s: Request)
    requires p.Serves()
    requires Consistent(p, st) && Fits(i) && !Skipped(p, st, i.mode)
    requires Running(st, x, s) && s.input < s.total && Of(i.arrivals, x) == []
    ensures var left := Of(Flat(Round(p, st, i).batches), x);
      && Of(Round(p, st, i).queue, x) == []
      && if left == [] then ReportsDone(ReportedIn(p, st, i.mode), x)
         else |left| == 1 && DecodeLeft(left[0]) <= DecodeLeft(s) - if HasPrefill(st.batches) then 0 else 1
  {
    var done := Processed(p, st, i.mode);
    ProcessedIsConsistent(p, st, i.mode);
    TargetSteps(p, st, i.mode, x, s);
    OfAppend(done.queue, i.arrivals, x);
    FillingOthers(p, done.(queue := done.queue + i.arrivals), x);
  }

  /** Admitting other sequences leaves the target where it is. */
  lemma {:induction false} FillingOthers(p: Params, st: State, x: nat)
    requires |st.batches| == p.dp && p.Valid() && Bounded(st.batches, p.Cap())
    requires Of(st.queue, x) == [] && |Of(Flat(st.batches), x)| <= 1
    ensures var st' := FillRunningQueue(p, st);
      Of(st'.queue, x) == [] && Of(Flat(st'.batches), x) == Of(Flat(st.batches), x)
  {
    FillAdmitsPrefix(p, st);
    MovingOthers(st, FillRunningQueue(p, st), Admissible(p, st), x);
  }

  lemma {:induction false} MovingOthers(st: State, st': State, n: nat, x: nat)
    requires Moved(st, st', n) && Of(st.queue, x) == [] && |Of(Flat(st.batches), x)| <= 1
    ensures Of(st'.queue, x) == [] && Of(Flat(st'.batches), x) == Of(Flat(st.batches), x)
  {
    MovingKeepsOf(st, st', n, x);
    OfSuffix(st.queue, n, x);
    SameFew(Everywhere(st', x), Everywhere(st, x));
    OnlyLeft(Of(Flat(st.batches), x), Of(st.queue, x));
    OnlyLeft(Of(Flat(st'.batches), x), Of(st'.queue, x));
  }

  lemma {:induction false} OfSuffix(queue: seq<Request>, n: nat, x: nat)
    requires n <= |queue| && Of(queue, x) == []
    ensures Of(queue[n..], x) == []
  {
    OfAppend(queue[..n], queue[n..], x);
    assert queue == queue[..n] + queue[n..];
  }

  lemma {:induction false} OnlyLeft<T>(a: seq<T>, b: seq<T>)
    requires b == []
    ensures a + b == a
  {
  }

  /** The number of rounds a running sequence may still need, when one token costs up to the given number of rounds. */
  function Rank(bs: seq<Batch>, s: Request, cost: nat): int {
    Backlog(bs) + DecodeLeft(s) * cost
  }

  /** The rounds one token may cost: one, and one for every input token the batches can hold. */
  function Cost(p: Params, m: nat): nat
    requires p.dp >= 1
  {
    1 + p.dp * p.Cap() * m
  }

  lemma {:induction false} FewerLeft(d: int, d': int, cost: nat)
    requires d' <= d
    ensures d' * cost <= d * cost
    ensures d' < d ==> d' * cost + cost <= d * cost
    decreases d - d'
  {
    if d' < d {
      FewerLeft(d - 1, d', cost);
    }
  }

  lemma {:induction false} FullBacklog(p: Params, st: State, m: nat)
    requires Consistent(p, st) && Full(st.batches, p.Cap()) && LongState(st, m)
    ensures Backlog(st.batches) < Cost(p, m)
  {
    FreeIsRest(st.batches, p.Cap());
    FreeIsZero(st.batches, p.Cap());
    BacklogIsBounded(st.batches, m);
  }

  /** Every round brings the target nearer to its end. */
  lemma {:induction false} RankFalls(p: Params, st: State, i: Input, s: Request, t: Request, m: nat)
    requires p.Serves()
    requires Consistent(p, st) && Fits(i) && LongState(st, m) && AllLong(i.arrivals, m) && Full(st.batches, p.Cap())
    requires Asks(p, st, i)
    requires DecodeLeft(t) <= DecodeLeft(s) - if HasPrefill(st.batches) then 0 else 1
    ensures Rank(Round(p, st, i).batches, t, Cost(p, m)) < Rank(st.batches, s, Cost(p, m))
  {
    var st' := Round(p, st, i);
    FullBatchesStayFull(p, st, i);
    FewerLeft(DecodeLeft(s), DecodeLeft(t), Cost(p, m));
    if HasPrefill(st.batches) {
      PrefillRoundHelps(p, st, i, m);
    } else {
      NoBacklog(st.batches);
      RoundIsLong(p, st, i, m);
      RoundIsConsistent(p, st, i);
      FullBacklog(p, st', m);
    }
  }

  /** The pushed sequences are new and long, and fill the batches. */
  ghost predicate Busy(p: Params, st: State, inputs: seq<Input>, x: nat, m: nat)
    requires p.dp >= 1
  {
    && AllFit(inputs) && Demanded(p, st, inputs)
    && forall j | 0 <= j < |inputs| :: AllLong(inputs[j].arrivals, m) && Of(inputs[j].arrivals, x) == []
  }

  /** Some round of a run reports the sequence with the id as done. */
  ghost predicate EverDone(log: seq<seq<Request>>, x: nat) {
    exists j | 0 <= j < |log| :: ReportsDone(log[j], x)
  }

  lemma {:induction false} EverDoneStep(here: seq<Request>, later: seq<seq<Request>>, x: nat)
    requires ReportsDone(here, x) || EverDone(later, x)
    ensures EverDone([here] + later, x)
  {
    var log := [here] + later;
    if ReportsDone(here, x) {
      assert log[0] == here;
    } else {
      var j :| 0 <= j < |later| && ReportsDone(later[j], x);
      assert log[j + 1] == later[j];
    }
  }

  /** No starvation: a running sequence is reported as done, and gone, after at most the backlog, plus one round and
      a full backlog for each token it has still to generate. */
  lemma {:induction false} NoStarvation(p: Params, st: State, inputs: seq<Input>, x: nat, s: Request, m: nat)
    requires p.Serves()
    requires Consistent(p, st) && LongState(st, m) && Full(st.batches, p.Cap()) && Running(st, x, s)
    requires Busy(p, st, inputs, x, m) && |inputs| >= Rank(st.batches, s, Cost(p, m))
    ensures EverDone(Reports(p, st, inputs), x) && Everywhere(Run(p, st, inputs), x) == []
    decreases |inputs|
  {
    TargetIsLong(p, st, x, s, m);
    FewerLeft(DecodeLeft(s), 0, Cost(p, m));
    var i, st1 := inputs[0], Round(p, st, inputs[0]);
    FullBatchesStayFull(p, st, i);
    TargetRound(p, st, i, x, s);
    RoundIsConsistent(p, st, i);
    RoundIsLong(p, st, i, m);
    var left := Of(Flat(st1.batches), x);
    if left == [] {
      NotMentioned(p, st1, inputs[1..], x, 0);
    } else {
      assert left == [left[0]];
      RankFalls(p, st, i, s, left[0], m);
      NoStarvation(p, st1, inputs[1..], x, left[0], m);
    }
    EverDoneStep(ReportedIn(p, st, i.mode), Reports(p, st1, inputs[1..]), x);
  }

  lemma {:induction false} TargetIsLong(p: Params, st: State, x: nat, s: Request, m: nat)
    requires Consistent(p, st) && LongState(st, m) && Running(st, x, s)
    ensures Ready(s, st.now) && s.input < s.total && DecodeLeft(s) >= 1
  {
    TargetIsReady(p, st, x, s);
    OfIsIn(Flat(st.batches), x);
    assert s in Of(Flat(st.batches), x);
  }
}
