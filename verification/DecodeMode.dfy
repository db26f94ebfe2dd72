/** Decode mode: sequences are pushed as if their input were read, and nothing ever prefills. Their first token is never
    reported, and their first-token clock never stops (src/scheduler/scheduler.cpp, src/scheduler/sequence.cpp). */
module DecodeMode {
  import opened Batching
  import opened Admission
  import opened Progress
  import opened Kept
  import opened Lifecycle
  import opened Latencies
  import opened Assigned

  /** A sequence that was pushed in decode mode and is not done. */
  ghost predicate Decodes(s: Request) {
    s.sumStage && !s.record && s.current >= s.input
  }

  /** No sequence has input left to read. */
  ghost predicate NothingToRead(st: State) {
    AllState(st, s => !Prefilling(s))
  }

  ghost predicate NothingToReadIn(inputs: seq<Input>) {
    forall j | 0 <= j < |inputs| :: All(inputs[j].arrivals, s => !Prefilling(s))
  }

  lemma {:induction false} StillNothingToRead(p: Params, st: State, i: Input)
    requires Consistent(p, st) && Fits(i) && NothingToRead(st) && All(i.arrivals, s => !Prefilling(s))
    ensures NothingToRead(Round(p, st, i))
  {
    var f, g := (s: Request) => !Prefilling(s), (s: Request) => true;
    RoundKeeps(p, st, i, f, g);
  }

  /** Every running sequence generates one token in every round. */
  lemma {:induction false} AllGenerate(p: Params, st: State)
    requires Consistent(p, st) && NothingToRead(st)
    ensures forall s | s in Flat(SetMetadata(p, st).batches) :: s.process == 1
  {
    var bs: seq<Batch> := SetMetadata(p, st).batches;
    var f, g := (s: Request) => !Prefilling(s), (s: Request) => s.process == 1;
    FlatAll(st.batches, f);
    forall k | 0 <= k < |bs|
      ensures All(bs[k], g)
    {
      forall s: Request | s in bs[k]
        ensures s.process == 1
      {
        var i :| 0 <= i < |bs[k]| && bs[k][i] == s;
        assert !PrefillRound(st) by {
          assert forall j, l | 0 <= j < |st.batches| && 0 <= l < |st.batches[j]| :: st.batches[j][l] in st.batches[j];
        }
        DecodeIsSingle(p, st, k, i);
      }
    }
    FlatAll(bs, g);
  }

  /** One round of a running sequence: it goes on in decode mode, unreported, or it is done, reported and gone. */
  ghost predicate DecodesOn(u: Request, left: seq<Request>, listed: seq<Request>) {
    if Done(u) then left == [] && |listed| == 1 && SameSequence(u, listed[0])
    else |left| == 1 && SameSequence(u, left[0]) && left[0].record == u.record && listed == []
  }

  lemma {:induction false} RunningDecodes(p: Params, st: State, mode: Mode, x: nat, s: Request) returns (u: Request)
    requires Consistent(p, st) && NothingToRead(st) && Of(Flat(st.batches), x) == [s] && Decodes(s) && s.process == 0
    ensures Ticks(s, u, TimeOf(mode)) && Decodes(u)
    ensures DecodesOn(u, Of(Flat(Processed(p, st, mode).batches), x), Of(Reported(SetMetadata(p, st), TimeOf(mode)), x))
  {
    var time := TimeOf(mode);
    AllGenerate(p, st);
    var r := UpdatedOf(p, st, time, x);
    OfIsIn(Flat(SetMetadata(p, st).batches), x);
    assert r[0] in r;
    ProcessedOf(p, st, mode, x);
    OneUpdates(r, time);
    u := Update(r[0], time);
  }

  /** The first-token clock has run along with the end clock. */
  ghost predicate RunsAlong(s: Request, t: Request) {
    t.firstTokenTime - s.firstTokenTime == t.endTokenTime - s.endTokenTime
  }

  /** What is left of a sequence, and what is reported of it. */
  ghost predicate DecodeStep(s: Request, u: Request, left: seq<Request>, listed: seq<Request>) {
    && Decodes(u) && RunsAlong(s, u) && |left| <= 1
    && if left == [] then |listed| == 1 && Done(listed[0]) && SameSequence(u, listed[0])
       else SameSequence(u, left[0]) && Decodes(left[0]) && listed == []
  }

  /** The sequence after a round, and the reports of the round that name it. */
  ghost predicate DecodeRound(p: Params, st: State, i: Input, x: nat, s: Request, u: Request)
    requires p.dp >= 1
  {
    DecodeStep(s, u, Everywhere(Round(p, st, i), x), Of(ReportedIn(p, st, i.mode), x))
  }

  lemma {:induction false} OneStep(s: Request, u: Request, time: real, left: seq<Request>, listed: seq<Request>)
    requires Decodes(s) && Ticks(s, u, time) && Decodes(u) && DecodesOn(u, left, listed)
    ensures DecodeStep(s, u, left, listed)
  {
  }

  /** After a round a sequence that was running is where its batch has left it. */
  lemma {:induction false} RunningIsLeft(p: Params, st: State, i: Input, x: nat, s: Request)
    requires Consistent(p, st) && Fits(i) && Everywhere(st, x) == [s] && Of(i.arrivals, x) == []
    requires !Skipped(p, st, i.mode) && Runs(st, x)
    ensures Of(Flat(st.batches), x) == [s] && s.process == 0
    ensures Everywhere(Round(p, st, i), x) == Of(Flat(Processed(p, st, i.mode).batches), x)
  {
    var done := Processed(p, st, i.mode);
    PresentIsReady(p, st, x);
    assert Everywhere(st, x)[0] == s;
    assert Of(Flat(st.batches), x) == [s] && Of(st.queue, x) == [];
    ProcessedIsConsistent(p, st, i.mode);
    ProcessedHasNoMore(p, st, i.mode, x);
    RoundFills(p, st, i, x);
    assert Everywhere(done, x) + [] == Everywhere(done, x) == Of(Flat(done.batches), x);
    SameFew(Everywhere(Round(p, st, i), x), Everywhere(done, x));
  }

  lemma {:induction false} RunningRound(p: Params, st: State, i: Input, x: nat, s: Request) returns (u: Request)
    requires Consistent(p, st) && Fits(i) && NothingToRead(st) && Everywhere(st, x) == [s]
    requires Of(i.arrivals, x) == [] && Decodes(s) && !Skipped(p, st, i.mode) && Runs(st, x)
    ensures DecodeRound(p, st, i, x, s, u)
  {
    RunningIsLeft(p, st, i, x, s);
    u := RunningDecodes(p, st, i.mode, x, s);
    OneStep(s, u, TimeOf(i.mode), Of(Flat(Processed(p, st, i.mode).batches), x),
            Of(Reported(SetMetadata(p, st), TimeOf(i.mode)), x));
  }

  lemma {:induction false} OneRound(p: Params, st: State, i: Input, x: nat, s: Request) returns (u: Request)
    requires Consistent(p, st) && Fits(i) && NothingToRead(st) && Everywhere(st, x) == [s]
    requires Of(i.arrivals, x) == [] && Decodes(s)
    ensures DecodeRound(p, st, i, x, s, u)
  {
    if Skipped(p, st, i.mode) || !Runs(st, x) {
      u := s;
      IdleGoesOn(p, st, i, x, s);
      NotListed(p, st, i.mode, x);
    } else {
      u := RunningRound(p, st, i, x, s);
    }
  }

  lemma {:induction false} NotListed(p: Params, st: State, mode: Mode, x: nat)
    requires Skipped(p, st, mode) || !Runs(st, x)
    ensures Of(ReportedIn(p, st, mode), x) == []
  {
    if !Skipped(p, st, mode) {
      AbsentStaysAbsent(p, st, mode, x, 0);
      var listed := ReportedIn(p, st, mode);
      assert |Of(listed, x)| == |MentionsIn(listed, x, 0)|;
    }
  }

  /** A sequence that is still there after a round goes on in decode mode. */
  lemma {:induction false} StillDecodes(p: Params, st: State, i: Input, x: nat, s: Request, u: Request)
    returns (s1: Request)
    requires p.dp >= 1 && DecodeRound(p, st, i, x, s, u) && Everywhere(Round(p, st, i), x) != []
    ensures Everywhere(Round(p, st, i), x) == [s1] && Decodes(s1) && RunsAlong(s, s1)
  {
    s1 := Everywhere(Round(p, st, i), x)[0];
    assert Everywhere(Round(p, st, i), x) == [s1];
  }

  // ------------------------------------------------------------------- runs

  /** What a run reports about a sequence: nothing while it is there; once it is gone, that it is done. */
  ghost predicate ToldAtEnd(p: Params, st: State, inputs: seq<Input>, x: nat, round: nat)
    requires p.dp >= 1
  {
    var left, ms := Everywhere(Run(p, st, inputs), x), Mentions(Reports(p, st, inputs), x, round);
    |left| <= 1 && if left == [] then |ms| == 1 && ms[0].done else ms == []
  }

  lemma {:induction false} ToldNow(p: Params, st: State, inputs: seq<Input>, x: nat, s: Request, u: Request, round: nat)
    requires p.dp >= 1 && inputs != [] && AllFit(inputs) && NoneArrives(inputs, x)
    requires Consistent(p, Round(p, st, inputs[0]))
    requires DecodeRound(p, st, inputs[0], x, s, u) && Everywhere(Round(p, st, inputs[0]), x) == []
    ensures ToldAtEnd(p, st, inputs, x, round)
  {
    MentionsSplit(p, st, inputs, x, round);
    NotMentioned(p, Round(p, st, inputs[0]), inputs[1..], x, round + 1);
  }

  lemma {:induction false} ToldLater(p: Params, st: State, inputs: seq<Input>, x: nat, s: Request, u: Request,
                                     round: nat)
    requires p.dp >= 1 && inputs != [] && DecodeRound(p, st, inputs[0], x, s, u)
    requires Everywhere(Round(p, st, inputs[0]), x) != []
    requires ToldAtEnd(p, Round(p, st, inputs[0]), inputs[1..], x, round + 1)
    ensures ToldAtEnd(p, st, inputs, x, round)
  {
    MentionsSplit(p, st, inputs, x, round);
    assert MentionsIn(ReportedIn(p, st, inputs[0].mode), x, round) == [];
  }

  /** Over any run in decode mode a sequence is reported exactly once, when it is done and gone. */
  lemma {:induction false} ReportedOnlyWhenDone(p: Params, st: State, inputs: seq<Input>, x: nat, s: Request,
                                                round: nat)
    requires Consistent(p, st) && AllFit(inputs) && NoneArrives(inputs, x) && Everywhere(st, x) == [s] && Decodes(s)
    requires NothingToRead(st) && NothingToReadIn(inputs)
    ensures ToldAtEnd(p, st, inputs, x, round)
    decreases |inputs|
  {
    if inputs != [] {
      var st1 := Round(p, st, inputs[0]);
      var u := OneRound(p, st, inputs[0], x, s);
      RoundIsConsistent(p, st, inputs[0]);
      StillNothingToRead(p, st, inputs[0]);
      if Everywhere(st1, x) == [] {
        ToldNow(p, st, inputs, x, s, u, round);
      } else {
        var s1 := StillDecodes(p, st, inputs[0], x, s, u);
        ReportedOnlyWhenDone(p, st1, inputs[1..], x, s1, round + 1);
        ToldLater(p, st, inputs, x, s, u, round);
      }
    }
  }

  ghost predicate ReportedAlong(p: Params, st: State, inputs: seq<Input>, x: nat, s: Request, j: nat)
    requires p.dp >= 1 && j < |inputs|
  {
    forall t | t in Of(Reports(p, st, inputs)[j], x) :: RunsAlong(s, t)
  }

  lemma {:induction false} AlongNow(p: Params, st: State, inputs: seq<Input>, x: nat, s: Request, u: Request)
    requires p.dp >= 1 && inputs != [] && DecodeRound(p, st, inputs[0], x, s, u)
    ensures ReportedAlong(p, st, inputs, x, s, 0)
  {
    assert Reports(p, st, inputs)[0] == ReportedIn(p, st, inputs[0].mode);
  }

  lemma {:induction false} AlongLater(p: Params, st: State, inputs: seq<Input>, x: nat, s: Request, s1: Request, j: nat)
    requires p.dp >= 1 && 0 < j < |inputs| && RunsAlong(s, s1)
    requires ReportedAlong(p, Round(p, st, inputs[0]), inputs[1..], x, s1, j - 1)
    ensures ReportedAlong(p, st, inputs, x, s, j)
  {
    ReportsLater(p, st, inputs, j);
  }

  lemma {:induction false} AlongGone(p: Params, st: State, inputs: seq<Input>, x: nat, s: Request, j: nat)
    requires Consistent(p, st) && AllFit(inputs) && NoneArrives(inputs, x) && 0 < j < |inputs|
    requires Everywhere(Round(p, st, inputs[0]), x) == []
    ensures ReportedAlong(p, st, inputs, x, s, j)
  {
    GoneLater(p, st, inputs, x, j);
    OfIsIn(Reports(p, st, inputs)[j], x);
  }

  /** In that report its time to the first token has grown by as much as its time to the end. */
  lemma {:induction false} FirstTokenClockNeverStops(p: Params, st: State, inputs: seq<Input>, x: nat, s: Request,
                                                     j: nat)
    requires Consistent(p, st) && AllFit(inputs) && NoneArrives(inputs, x) && Everywhere(st, x) == [s] && Decodes(s)
    requires NothingToRead(st) && NothingToReadIn(inputs) && j < |inputs|
    ensures ReportedAlong(p, st, inputs, x, s, j)
    decreases j
  {
    var u := OneRound(p, st, inputs[0], x, s);
    if j == 0 {
      AlongNow(p, st, inputs, x, s, u);
    } else if Everywhere(Round(p, st, inputs[0]), x) == [] {
      AlongGone(p, st, inputs, x, s, j);
    } else {
      var s1 := StillDecodes(p, st, inputs[0], x, s, u);
      RoundIsConsistent(p, st, inputs[0]);
      StillNothingToRead(p, st, inputs[0]);
      FirstTokenClockNeverStops(p, Round(p, st, inputs[0]), inputs[1..], x, s1, j - 1);
      AlongLater(p, st, inputs, x, s, s1, j);
    }
  }
}
