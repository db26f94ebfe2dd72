/** What the clocks of a sequence hold: the end clock adds up the rounds spent in a batch, the first-token clock those
    of them in which input was still being read (src/scheduler/sequence.cpp, src/scheduler/scheduler.cpp). */
module Latencies {
  import opened Batching
  import opened Admission
  import opened Progress
  import opened Lifecycle

  /** The sequence with id x is in a batch. */
  ghost predicate Runs(st: State, x: nat) {
    Of(Flat(st.batches), x) != []
  }

  /** It is in a batch and has input left to read. */
  ghost predicate Reads(st: State, x: nat) {
    Runs(st, x) && Prefilling(Of(Flat(st.batches), x)[0])
  }

  /** Time spent in a batch, the part of it spent reading input, and the number of rounds of that part. */
  datatype Spent = Spent(all: real, reading: real, rounds: nat)

  /** What a run spends on sequence x: the rounds that take place while it is in a batch. */
  ghost function SpentOn(p: Params, st: State, inputs: seq<Input>, x: nat): Spent
    requires p.dp >= 1
    decreases |inputs|
  {
    if inputs == [] then Spent(0.0, 0.0, 0)
    else
      var mode, later := inputs[0].mode, SpentOn(p, Round(p, st, inputs[0]), inputs[1..], x);
      if Skipped(p, st, mode) || !Runs(st, x) then later
      else if Reads(st, x) then
        Spent(later.all + TimeOf(mode), later.reading + TimeOf(mode), later.rounds + 1)
      else later.(all := later.all + TimeOf(mode))
  }

  /** The clocks of t are those of s, advanced by what was spent. */
  ghost predicate Advanced(s: Request, t: Request, spent: Spent) {
    && t.endTokenTime == s.endTokenTime + spent.all
    && t.firstTokenTime == s.firstTokenTime + spent.reading
    && t.numSumIter == s.numSumIter + spent.rounds
  }

  // -------------------------------------------------------------- one round

  /** Two views of a sequence that differ at most in whether it is recorded and when its decoding may start. */
  ghost predicate SameSequence(s: Request, t: Request) {
    t == s.(record := t.record, genStart := t.genStart)
  }

  /** A sequence in a batch, before and after an update with the given time. */
  ghost predicate Ticks(s: Request, u: Request, time: real) {
    && u.input == s.input && u.endTokenTime == s.endTokenTime + time
    && (if s.sumStage then u.firstTokenTime == s.firstTokenTime + time && u.numSumIter == s.numSumIter + 1
        else u.firstTokenTime == s.firstTokenTime && u.numSumIter == s.numSumIter)
    && (u.sumStage <==> s.sumStage && u.current != s.input)
    && s.current <= u.current && (Prefilling(s) ==> u.current <= s.input)
  }

  /** What one round makes of a sequence in a batch, in its state and in its report. */
  lemma {:induction false} BatchTicks(p: Params, st: State, mode: Mode, x: nat, s: Request) returns (u: Request)
    requires Of(Flat(st.batches), x) == [s] && s.process == 0
    ensures Ticks(s, u, TimeOf(mode))
    ensures forall t | t in Of(Flat(Processed(p, st, mode).batches), x) :: SameSequence(u, t)
    ensures forall t | t in Of(Reported(SetMetadata(p, st), TimeOf(mode)), x) :: SameSequence(u, t)
    ensures |Of(Flat(Processed(p, st, mode).batches), x)| <= 1
  {
    var time := TimeOf(mode);
    var r := UpdatedOf(p, st, time, x);
    ProcessedOf(p, st, mode, x);
    OneUpdates(r, time);
    u := Update(r[0], time);
  }

  lemma {:induction false} MemberOf(b: seq<Request>, t: Request)
    requires t in b
    ensures t in Of(b, t.id)
  {
    if t != b[0] {
      MemberOf(b[1..], t);
    }
  }

  /** The sequence after a round, if it is still there; and what the round reports of it. */
  ghost predicate GoesOn(p: Params, st: State, i: Input, x: nat, u: Request)
    requires p.dp >= 1
  {
    && |Everywhere(Round(p, st, i), x)| <= 1
    && (forall t | t in Everywhere(Round(p, st, i), x) :: SameSequence(u, t))
    && (forall t | t in ReportedIn(p, st, i.mode) && t.id == x :: SameSequence(u, t))
  }

  lemma {:induction false} RunningGoesOn(p: Params, st: State, i: Input, x: nat, s: Request) returns (u: Request)
    requires Consistent(p, st) && Fits(i) && Everywhere(st, x) == [s] && Of(i.arrivals, x) == []
    requires !Skipped(p, st, i.mode) && Runs(st, x)
    ensures Ticks(s, u, TimeOf(i.mode)) && GoesOn(p, st, i, x, u)
  {
    var done := Processed(p, st, i.mode);
    PresentIsReady(p, st, x);
    assert Everywhere(st, x)[0] == s;
    assert Of(Flat(st.batches), x) == [s] && Of(st.queue, x) == [];
    u := BatchTicks(p, st, i.mode, x, s);
    ProcessedIsConsistent(p, st, i.mode);
    RoundFills(p, st, i, x);
    assert Everywhere(done, x) + [] == Everywhere(done, x) == Of(Flat(done.batches), x);
    SameFew(Everywhere(Round(p, st, i), x), Everywhere(done, x));
    forall t | t in ReportedIn(p, st, i.mode) && t.id == x
      ensures SameSequence(u, t)
    {
      MemberOf(ReportedIn(p, st, i.mode), t);
    }
  }

  lemma {:induction false} NobodyReported(p: Params, st: State, mode: Mode, x: nat)
    requires MentionsIn(Reported(SetMetadata(p, st), TimeOf(mode)), x, 0) == []
    ensures forall t | t in Reported(SetMetadata(p, st), TimeOf(mode)) :: t.id != x
  {
    var listed := Reported(SetMetadata(p, st), TimeOf(mode));
    assert |Of(listed, x)| == |MentionsIn(listed, x, 0)| == 0;
    forall t | t in listed
      ensures t.id != x
    {
      MemberOf(listed, t);
    }
  }

  lemma {:induction false} WaitingGoesOn(p: Params, st: State, i: Input, x: nat, s: Request)
    requires Consistent(p, st) && Fits(i) && Everywhere(st, x) == [s] && Of(i.arrivals, x) == []
    requires !Skipped(p, st, i.mode) && !Runs(st, x)
    ensures Everywhere(Round(p, st, i), x) == [s]
    ensures forall t | t in ReportedIn(p, st, i.mode) :: t.id != x
  {
    var done := Processed(p, st, i.mode);
    AbsentStaysAbsent(p, st, i.mode, x, 0);
    ProcessedIsConsistent(p, st, i.mode);
    assert Everywhere(done, x) == Of(st.queue, x) == [s];
    RoundFills(p, st, i, x);
    assert [s] + [] == [s];
    SameFew(Everywhere(Round(p, st, i), x), [s]);
    NobodyReported(p, st, i.mode, x);
  }

  /** A sequence that waits, and any sequence in a skipped round, stays as it is and is not reported. */
  lemma {:induction false} IdleGoesOn(p: Params, st: State, i: Input, x: nat, s: Request)
    requires Consistent(p, st) && Fits(i) && Everywhere(st, x) == [s] && Of(i.arrivals, x) == []
    requires Skipped(p, st, i.mode) || !Runs(st, x)
    ensures Everywhere(Round(p, st, i), x) == [s] && GoesOn(p, st, i, x, s)
  {
    if Skipped(p, st, i.mode) {
      SkippedIsSame(p, st);
    } else {
      WaitingGoesOn(p, st, i, x, s);
    }
  }

  /** What one round spends. */
  ghost function SpentNow(p: Params, st: State, mode: Mode, x: nat): Spent {
    if Skipped(p, st, mode) || !Runs(st, x) then Spent(0.0, 0.0, 0)
    else if Reads(st, x) then Spent(TimeOf(mode), TimeOf(mode), 1)
    else Spent(TimeOf(mode), 0.0, 0)
  }

  /** The first-token clock is running exactly while the sequence has input left to read. */
  ghost predicate InStep(s: Request) {
    s.sumStage <==> Prefilling(s)
  }

  lemma {:induction false} RoundSpends(p: Params, st: State, i: Input, x: nat, s: Request) returns (u: Request)
    requires Consistent(p, st) && Fits(i) && Everywhere(st, x) == [s] && Of(i.arrivals, x) == [] && InStep(s)
    ensures GoesOn(p, st, i, x, u) && InStep(u) && Advanced(s, u, SpentNow(p, st, i.mode, x))
  {
    if Skipped(p, st, i.mode) || !Runs(st, x) {
      u := s;
      IdleGoesOn(p, st, i, x, s);
    } else {
      u := RunningGoesOn(p, st, i, x, s);
      assert Of(Flat(st.batches), x)[0] == Everywhere(st, x)[0] == s;
    }
  }

  // ------------------------------------------------------------------- runs

  lemma {:induction false} SpentAdds(p: Params, st: State, inputs: seq<Input>, x: nat, s: Request, u: Request,
                                     t: Request)
    requires p.dp >= 1 && inputs != [] && Advanced(s, u, SpentNow(p, st, inputs[0].mode, x))
    requires Advanced(u, t, SpentOn(p, Round(p, st, inputs[0]), inputs[1..], x))
    ensures Advanced(s, t, SpentOn(p, st, inputs, x))
  {
  }

  ghost predicate NoneArrives(inputs: seq<Input>, x: nat) {
    forall j | 0 <= j < |inputs| :: Of(inputs[j].arrivals, x) == []
  }

  /** After a run a sequence that is still there carries what was spent on it. */
  ghost predicate LeftWith(p: Params, st: State, inputs: seq<Input>, x: nat, s: Request)
    requires p.dp >= 1
  {
    forall t | t in Everywhere(Run(p, st, inputs), x) :: Advanced(s, t, SpentOn(p, st, inputs, x))
  }

  lemma {:induction false} LeftLater(p: Params, st: State, inputs: seq<Input>, x: nat, s: Request, u: Request,
                                     s1: Request)
    requires p.dp >= 1 && inputs != [] && SameSequence(u, s1)
    requires Advanced(s, u, SpentNow(p, st, inputs[0].mode, x))
    requires LeftWith(p, Round(p, st, inputs[0]), inputs[1..], x, s1)
    ensures LeftWith(p, st, inputs, x, s)
  {
    var st1, rest := Round(p, st, inputs[0]), inputs[1..];
    forall t | t in Everywhere(Run(p, st, inputs), x)
      ensures Advanced(s, t, SpentOn(p, st, inputs, x))
    {
      assert t in Everywhere(Run(p, st1, rest), x);
      SpentAdds(p, st, inputs, x, s, u, t);
    }
  }

  /** The clocks of a sequence that outlives a run are those it had, plus what the run spent on it. */
  lemma {:induction false} ClocksAreSums(p: Params, st: State, inputs: seq<Input>, x: nat, s: Request)
    requires Consistent(p, st) && AllFit(inputs) && NoneArrives(inputs, x)
    requires Everywhere(st, x) == [s] && InStep(s)
    ensures LeftWith(p, st, inputs, x, s)
    decreases |inputs|
  {
    if inputs != [] {
      var st1, rest := Round(p, st, inputs[0]), inputs[1..];
      var u := RoundSpends(p, st, inputs[0], x, s);
      RoundIsConsistent(p, st, inputs[0]);
      if Everywhere(st1, x) == [] {
        NotMentioned(p, st1, rest, x, 0);
      } else {
        var s1 := StillOne(p, st, inputs[0], x, u);
        ClocksAreSums(p, st1, rest, x, s1);
        LeftLater(p, st, inputs, x, s, u, s1);
      }
    }
  }

  lemma {:induction false} ReportsLater(p: Params, st: State, inputs: seq<Input>, j: nat)
    requires p.dp >= 1 && 0 < j < |inputs|
    ensures Reports(p, st, inputs)[j] == Reports(p, Round(p, st, inputs[0]), inputs[1..])[j - 1]
    ensures inputs[..j + 1][0] == inputs[0] && inputs[..j + 1][1..] == inputs[1..][..j]
  {
  }

  lemma {:induction false} GoneIsNotReported(p: Params, st: State, inputs: seq<Input>, x: nat, j: nat)
    requires Consistent(p, st) && AllFit(inputs) && NoneArrives(inputs, x) && Everywhere(st, x) == [] && j < |inputs|
    ensures forall t | t in Reports(p, st, inputs)[j] :: t.id != x
    decreases j
  {
    RoundStaysAbsent(p, st, inputs[0], x, 0);
    if j > 0 {
      RoundIsConsistent(p, st, inputs[0]);
      GoneIsNotReported(p, Round(p, st, inputs[0]), inputs[1..], x, j - 1);
    } else if !Skipped(p, st, inputs[0].mode) {
      NobodyReported(p, st, inputs[0].mode, x);
    }
  }

  lemma {:induction false} GoneLater(p: Params, st: State, inputs: seq<Input>, x: nat, j: nat)
    requires Consistent(p, st) && AllFit(inputs) && NoneArrives(inputs, x) && 0 < j < |inputs|
    requires Everywhere(Round(p, st, inputs[0]), x) == []
    ensures forall t | t in Reports(p, st, inputs)[j] :: t.id != x
  {
    RoundIsConsistent(p, st, inputs[0]);
    ReportsLater(p, st, inputs, j);
    GoneIsNotReported(p, Round(p, st, inputs[0]), inputs[1..], x, j - 1);
  }

  /** A sequence that is still there after a round is the only one with its id. */
  lemma {:induction false} StillOne(p: Params, st: State, i: Input, x: nat, u: Request) returns (s1: Request)
    requires p.dp >= 1 && GoesOn(p, st, i, x, u) && Everywhere(Round(p, st, i), x) != []
    ensures Everywhere(Round(p, st, i), x) == [s1] && SameSequence(u, s1)
  {
    s1 := Everywhere(Round(p, st, i), x)[0];
    assert s1 in Everywhere(Round(p, st, i), x);
  }

  /** What round j reports about a sequence carries what was spent on it up to then. */
  ghost predicate Carried(p: Params, st: State, inputs: seq<Input>, x: nat, s: Request, j: nat)
    requires p.dp >= 1 && j < |inputs|
  {
    forall t | t in Reports(p, st, inputs)[j] && t.id == x :: Advanced(s, t, SpentOn(p, st, inputs[..j + 1], x))
  }

  lemma {:induction false} CarriedNow(p: Params, st: State, inputs: seq<Input>, x: nat, s: Request, u: Request)
    requires p.dp >= 1 && inputs != [] && GoesOn(p, st, inputs[0], x, u)
    requires Advanced(s, u, SpentNow(p, st, inputs[0].mode, x))
    ensures Carried(p, st, inputs, x, s, 0)
  {
    var i := inputs[0];
    assert inputs[..1] == [i] && [i][1..] == [];
    assert SpentOn(p, Round(p, st, i), [], x) == Spent(0.0, 0.0, 0);
    forall t | t in Reports(p, st, inputs)[0] && t.id == x
      ensures Advanced(s, t, SpentOn(p, st, [i], x))
    {
      SpentAdds(p, st, [i], x, s, u, t);
    }
  }

  lemma {:induction false} CarriedOn(p: Params, st: State, inputs: seq<Input>, x: nat, s: Request, u: Request,
                                     s1: Request, j: nat)
    requires p.dp >= 1 && 0 < j < |inputs| && SameSequence(u, s1)
    requires Advanced(s, u, SpentNow(p, st, inputs[0].mode, x))
    requires Carried(p, Round(p, st, inputs[0]), inputs[1..], x, s1, j - 1)
    ensures Carried(p, st, inputs, x, s, j)
  {
    var upTo := inputs[..j + 1];
    ReportsLater(p, st, inputs, j);
    forall t | t in Reports(p, st, inputs)[j] && t.id == x
      ensures Advanced(s, t, SpentOn(p, st, upTo, x))
    {
      assert Advanced(s1, t, SpentOn(p, Round(p, st, inputs[0]), inputs[1..][..j], x));
      SpentAdds(p, st, upTo, x, s, u, t);
    }
  }

  /** Whatever a run reports about a sequence carries, as end-token time, the time of all rounds it was in a batch up
      to then; as first-token time, that of the rounds in which it still read input; and their number. */
  lemma {:induction false} ReportsCarrySums(p: Params, st: State, inputs: seq<Input>, x: nat, s: Request, j: nat)
    requires Consistent(p, st) && AllFit(inputs) && NoneArrives(inputs, x) && j < |inputs|
    requires Everywhere(st, x) == [s] && InStep(s)
    ensures Carried(p, st, inputs, x, s, j)
    decreases j
  {
    var st1, rest := Round(p, st, inputs[0]), inputs[1..];
    var u := RoundSpends(p, st, inputs[0], x, s);
    RoundIsConsistent(p, st, inputs[0]);
    if j == 0 {
      CarriedNow(p, st, inputs, x, s, u);
    } else if Everywhere(st1, x) == [] {
      GoneLater(p, st, inputs, x, j);
    } else {
      var s1 := StillOne(p, st, inputs[0], x, u);
      ReportsCarrySums(p, st1, rest, x, s1, j - 1);
      CarriedOn(p, st, inputs, x, s, u, s1, j);
    }
  }

  // ------------------------------------------------- when decoding may start

  /** The time of the rounds that take place in a run. */
  ghost function TimePassed(p: Params, st: State, inputs: seq<Input>): real
    requires p.dp >= 1
    decreases |inputs|
  {
    if inputs == [] then 0.0
    else
      (if Skipped(p, st, inputs[0].mode) then 0.0 else TimeOf(inputs[0].mode))
      + TimePassed(p, Round(p, st, inputs[0]), inputs[1..])
  }

  lemma {:induction false} RoundTakesTime(p: Params, st: State, i: Input)
    requires Consistent(p, st) && Fits(i)
    ensures Round(p, st, i).now == st.now + if Skipped(p, st, i.mode) then 0.0 else TimeOf(i.mode)
  {
    if !Skipped(p, st, i.mode) {
      var done := Processed(p, st, i.mode);
      ProcessedIsConsistent(p, st, i.mode);
      FillAdmitsPrefix(p, done.(queue := done.queue + i.arrivals));
    }
  }

  /** The scheduler's clock shows the time of the rounds that took place. */
  lemma {:induction false} ClockShowsTime(p: Params, st: State, inputs: seq<Input>)
    requires Consistent(p, st) && AllFit(inputs)
    ensures Run(p, st, inputs).now == st.now + TimePassed(p, st, inputs)
    decreases |inputs|
  {
    if inputs != [] {
      RoundTakesTime(p, st, inputs[0]);
      RoundIsConsistent(p, st, inputs[0]);
      ClockShowsTime(p, Round(p, st, inputs[0]), inputs[1..]);
    }
  }

  /** Decoding may start now for a sequence that was just reported, and as before for any other. */
  ghost predicate StartsNow(a: Request, b: Request, reported: bool, now: real) {
    b == a.(genStart := if reported then now else a.genStart)
  }

  lemma {:induction false} OfStarts(a: seq<Request>, b: seq<Request>, listed: seq<Request>, now: real, x: nat)
    requires |b| == |a| && forall i | 0 <= i < |a| :: b[i] == StampOne(a[i], listed, now)
    ensures |Of(b, x)| == |Of(a, x)|
    ensures forall i | 0 <= i < |Of(a, x)| :: StartsNow(Of(a, x)[i], Of(b, x)[i], Of(listed, x) != [], now)
  {
    if a != [] {
      OfStarts(a[1..], b[1..], listed, now, x);
      NamedInList(listed, a[0]);
    }
  }

  lemma {:induction false} NamedInList(listed: seq<Request>, s: Request)
    ensures (exists i | 0 <= i < |listed| :: listed[i].id == s.id) <==> Of(listed, s.id) != []
  {
    if i :| 0 <= i < |listed| && listed[i].id == s.id {
      MemberOf(listed, listed[i]);
    } else if Of(listed, s.id) != [] {
      OfIsIn(listed, s.id);
      assert Of(listed, s.id)[0] in Of(listed, s.id);
    }
  }

  lemma {:induction false} FlatStarts(bs: seq<Batch>, cs: seq<Batch>, listed: seq<Request>, now: real)
    requires |cs| == |bs|
    requires forall k | 0 <= k < |bs| ::
      |cs[k]| == |bs[k]| && forall i | 0 <= i < |bs[k]| :: cs[k][i] == StampOne(bs[k][i], listed, now)
    ensures |Flat(cs)| == |Flat(bs)|
    ensures forall i | 0 <= i < |Flat(bs)| :: Flat(cs)[i] == StampOne(Flat(bs)[i], listed, now)
  {
    if bs != [] {
      FlatStarts(bs[1..], cs[1..], listed, now);
    }
  }

  /** After a timed round a sequence that the round reported, and that goes on, may be decoded from the end of the round
      on; for all others, and in warm-up rounds for all, that time stays as it was. */
  lemma {:induction false} ReportedStartNow(p: Params, st: State, mode: Mode, x: nat)
    ensures var a := Of(Flat(UpdateScheduler(SetMetadata(p, st), TimeOf(mode)).batches), x);
      var b := Of(Flat(Processed(p, st, mode).batches), x);
      var reported := Of(Reported(SetMetadata(p, st), TimeOf(mode)), x) != [];
      && |b| == |a|
      && forall i | 0 <= i < |a| :: StartsNow(a[i], b[i], mode.Timed? && reported, st.now + TimeOf(mode))
  {
    var bs, cs := UpdateScheduler(SetMetadata(p, st), TimeOf(mode)).batches, Processed(p, st, mode).batches;
    var listed := Reported(SetMetadata(p, st), TimeOf(mode));
    if mode.Timed? {
      FlatStarts(bs, cs, listed, st.now + TimeOf(mode));
      OfStarts(Flat(bs), Flat(cs), listed, st.now + TimeOf(mode), x);
    }
  }
}
