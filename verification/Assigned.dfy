/** What a round hands out and where new sequences go, without the scheduler's own formulas: lengths of pushed
    sequences, shares of a prefill round, and the rotation of admissions (src/scheduler/scheduler.cpp). */
module Assigned {
  import opened Basics
  import opened Batching
  import opened Admission
  import opened Progress

  // ---------------------------------------------------------------- pushes

  /** What a push of one sequence yields: it fails on lengths that do not fit together, yields nothing when nothing is
      to be generated, and otherwise a sequence that has not been scheduled yet. */
  lemma {:induction false} PushOutcome(w: Workload, id: nat)
    requires w.reuse.Some? ==> w.reuse.value >= 0.0
    ensures var r := PushDummySeq(w, id);
      && (r.Failure? <==> w.inputLen >= w.maxSeqLen || (w.outputLen != 0 && w.inputLen <= 0) || w.outputLen < 0)
      && (r.Success? ==> (r.value == None <==> w.outputLen == 0))
      && (r.Success? && r.value.Some? ==>
          var s := r.value.value;
          && s.id == id && s.process == 0 && !s.record && s.sumStage && s.numSumIter == 0
          && s.genStart == s.firstTokenTime == s.endTokenTime == 0.0)
  {
    if w.reuse.Some? && w.inputLen > 0 {
      WholePart(w.inputLen as real * w.reuse.value);
    }
  }

  lemma {:induction false} WholePart(x: real)
    requires x >= 0.0
    ensures 0 <= Truncate(x) && Truncate(x) as real <= x < Truncate(x) as real + 1.0
  {
  }

  /** The lengths of a pushed sequence. It generates as much as asked for, or as fits; the last output token is not
      read again. A prefill push generates nothing beyond its input, a decode push has read it, and any other has the
      reused part of its input, rounded down. */
  lemma {:induction false} PushedLengths(w: Workload, id: nat)
    requires w.reuse.Some? ==> w.reuse.value >= 0.0
    requires PushDummySeq(w, id).Success? && PushDummySeq(w, id).value.Some?
    ensures var s, cached := PushDummySeq(w, id).value.value,
        w.inputLen as real * (match w.reuse case None => 0.0 case Some(rate) => rate);
      && s.input == w.inputLen
      && (w.prefillMode ==> s.output == s.total == w.inputLen)
      && (!w.prefillMode ==>
          && s.total + 1 == s.input + s.output
          && s.output <= w.outputLen && s.input + s.output <= w.maxSeqLen
          && (s.output == w.outputLen || s.input + s.output == w.maxSeqLen))
      && (w.decodeMode && !w.prefillMode ==> s.current == s.input)
      && (w.prefillMode || !w.decodeMode ==> s.current as real <= cached < s.current as real + 1.0)
  {
    if w.reuse.Some? {
      WholePart(w.inputLen as real * w.reuse.value);
    }
  }

  // ---------------------------------------------------------------- shares

  /** Some running sequence has input left to read. */
  ghost predicate PrefillRound(st: State) {
    exists k, i | 0 <= k < |st.batches| && 0 <= i < |st.batches[k]| :: Prefilling(st.batches[k][i])
  }

  /** Where in a batch the sequences are that have input left to read. */
  ghost function Readers(b: Batch): set<nat> {
    set i: nat | i < |b| && Prefilling(b[i])
  }

  lemma {:induction false} CountIsZero(b: Batch)
    ensures CountPrefilling(b) == 0 <==> forall i | 0 <= i < |b| :: !Prefilling(b[i])
  {
    if b != [] {
      CountIsZero(b[1..]);
      assert forall i | 1 <= i < |b| :: b[i] == b[1..][i - 1];
    }
  }

  lemma {:induction false} CountAppend(a: Batch, s: Request)
    ensures CountPrefilling(a + [s]) == CountPrefilling(a) + if Prefilling(s) then 1 else 0
  {
    if a == [] {
      assert (a + [s])[1..] == [];
    } else {
      assert (a + [s])[1..] == a[1..] + [s];
      CountAppend(a[1..], s);
    }
  }

  lemma {:induction false} ReadersOfAppend(a: Batch, s: Request)
    ensures |Readers(a + [s])| == |Readers(a)| + if Prefilling(s) then 1 else 0
  {
    assert forall i: nat | i < |a| :: (a + [s])[i] == a[i];
    if Prefilling(s) {
      assert Readers(a + [s]) == Readers(a) + {|a|};
    } else {
      assert Readers(a + [s]) == Readers(a);
    }
  }

  lemma {:induction false} CountIsSize(b: Batch)
    ensures CountPrefilling(b) == |Readers(b)|
  {
    if b == [] {
      assert Readers(b) == {};
    } else {
      var init, n := b[..|b| - 1], |b| - 1;
      assert b == init + [b[n]];
      CountIsSize(init);
      CountAppend(init, b[n]);
      ReadersOfAppend(init, b[n]);
    }
  }

  lemma {:induction false} PrefillRoundIsSeen(st: State)
    ensures HasPrefill(st.batches) <==> PrefillRound(st)
  {
    forall k | 0 <= k < |st.batches|
      ensures CountPrefilling(st.batches[k]) == 0 <==>
        forall i | 0 <= i < |st.batches[k]| :: !Prefilling(st.batches[k][i])
    {
      CountIsZero(st.batches[k]);
    }
  }

  /** Every sequence that reads gets the same number of tokens, or all the input it has left if that is less; the
      others get none. */
  ghost predicate Shared(b: Batch, r: Batch, share: nat) {
    && |r| == |b|
    && forall i | 0 <= i < |b| ::
      && r[i] == b[i].(process := r[i].process)
      && if Prefilling(b[i]) then
           && r[i].process <= share && b[i].current + r[i].process <= b[i].input
           && (r[i].process == share || b[i].current + r[i].process == b[i].input)
         else r[i].process == 0
  }

  /** Chunked prefill: while any sequence has input left to read, each batch splits the limit of tokens evenly among
      those that read; one token more for each would exceed it. */
  lemma {:induction false} PrefillIsShared(p: Params, st: State, k: nat) returns (share: nat)
    requires Consistent(p, st) && PrefillRound(st) && k < |st.batches|
    ensures Shared(st.batches[k], SetMetadata(p, st).batches[k], share)
    ensures var n := |Readers(st.batches[k])|; n > 0 ==> n * share <= p.maxProcess < n * (share + 1)
  {
    var b := st.batches[k];
    var n := CountPrefilling(b);
    PrefillRoundIsSeen(st);
    CountIsSize(b);
    assert forall i | 0 <= i < |b| :: b[i] in b;
    share := Share(p, b);
    if n > 0 {
      EvenSplit(p.maxProcess, n);
    }
  }

  lemma {:induction false} EvenSplit(m: nat, n: nat)
    requires n > 0
    ensures n * (m / n) <= m < n * (m / n + 1)
  {
  }

  /** Otherwise every running sequence generates one token. */
  lemma {:induction false} DecodeIsSingle(p: Params, st: State, k: nat, i: nat)
    requires Consistent(p, st) && !PrefillRound(st) && k < |st.batches| && i < |st.batches[k]|
    ensures |SetMetadata(p, st).batches[k]| == |st.batches[k]|
    ensures SetMetadata(p, st).batches[k][i] == st.batches[k][i].(process := 1)
  {
    PrefillRoundIsSeen(st);
    assert !Prefilling(st.batches[k][i]);
    assert st.batches[k][i] in st.batches[k];
  }

  // -------------------------------------------------------------- rotation

  /** The head of the queue goes into the batch that the counter shows at turn t; all it showed before, from rotate on,
      were full. */
  ghost predicate TakesTurn(bs: seq<Batch>, rotate: nat, t: nat, cap: nat) {
    && bs != [] && rotate <= t && |bs[t % |bs|]| < cap
    && forall i: nat | rotate <= i < t :: |bs[i % |bs|]| >= cap
  }

  /** The sequences of the queue go into the batches by turns, each from the turn after the last one on. */
  ghost predicate ByTurns(bs: seq<Batch>, rotate: nat, queue: seq<Request>, turns: seq<nat>, cap: nat, bs': seq<Batch>)
    requires |turns| <= |queue|
    decreases |turns|
  {
    if turns == [] then bs' == bs
    else
      && TakesTurn(bs, rotate, turns[0], cap)
      && var k := turns[0] % |bs|;
         ByTurns(bs[k := bs[k] + [queue[0]]], turns[0] + 1, queue[1..], turns[1..], cap, bs')
  }

  /** Two values of the counter show the same batch, now and from here on. */
  ghost predicate SameTurn(a: nat, b: nat, n: nat) {
    n > 0 && a % n == b % n
  }

  lemma {:induction false} FullCircle(a: nat, b: nat, n: nat)
    requires n > 0 && SameTurn(a, b, n)
    ensures SameTurn(a + n, b, n)
  {
    DivMod(a / n + 1, n, a % n);
  }

  /** The turn after the last one taken. */
  function NextTurn(rotate: nat, turns: seq<nat>): nat {
    if turns == [] then rotate else turns[|turns| - 1] + 1
  }

  /** One search of the batches. */
  lemma {:induction false} PlaceByTurn(bs: seq<Batch>, rotate: nat, s: Request, cap: nat)
    requires Bounded(bs, cap) && bs != []
    ensures var (bs', rotate', placed) := Place(bs, rotate, s, cap, |bs|);
      if Free(bs, cap) > 0 then
        && placed && rotate' > rotate && TakesTurn(bs, rotate, rotate' - 1, cap)
        && Took(bs, bs', (rotate' - 1) % |bs|, s)
        && Bounded(bs', cap) && Free(bs', cap) == Free(bs, cap) - 1
      else !placed && bs' == bs && rotate' == rotate + |bs|
  {
    var (bs', rotate', placed) := Place(bs, rotate, s, cap, |bs|);
    PlaceTakesFirst(bs, rotate, s, cap, |bs|);
    var k := AttemptSucceeds(bs, rotate, s, cap);
    FreeIsZero(bs, cap);
    if placed {
      TakingFills(bs, bs', (rotate' - 1) % |bs|, s, cap);
    }
  }

  /** Attempts on full batches turn the counter full circle. */
  lemma {:induction false} FullTurns(st: State, cap: nat, attempts: nat)
    requires attempts <= |st.queue| && Bounded(st.batches, cap) && st.batches != [] && Free(st.batches, cap) == 0
    ensures Admit(st, cap, attempts).batches == st.batches
    ensures SameTurn(Admit(st, cap, attempts).rotate, st.rotate, |st.batches|)
    decreases attempts
  {
    if attempts > 0 {
      var n := |st.batches|;
      PlaceByTurn(st.batches, st.rotate, st.queue[0], cap);
      FullTurns(st.(rotate := st.rotate + n), cap, attempts - 1);
      FullCircle(st.rotate, st.rotate, n);
    }
  }

  /** The head of the queue goes first, in its turn. */
  lemma {:induction false} AdmitFirst(st: State, cap: nat, attempts: nat) returns (st1: State, t: nat)
    requires 0 < attempts <= |st.queue| && Bounded(st.batches, cap) && Free(st.batches, cap) > 0
    ensures TakesTurn(st.batches, st.rotate, t, cap) && Took(st.batches, st1.batches, t % |st.batches|, st.queue[0])
    ensures st1.rotate == t + 1 && st1.queue == st.queue[1..]
    ensures Bounded(st1.batches, cap) && Free(st1.batches, cap) == Free(st.batches, cap) - 1
    ensures Admit(st, cap, attempts) == Admit(st1, cap, attempts - 1)
  {
    var (bs, rotate, placed) := Place(st.batches, st.rotate, st.queue[0], cap, |st.batches|);
    PlaceByTurn(st.batches, st.rotate, st.queue[0], cap);
    st1, t := st.(batches := bs, rotate := rotate, queue := st.queue[1..]), rotate - 1;
  }

  /** The sequences admitted by turns, and the counter after the last turn. */
  ghost predicate AdmitsByTurns(st: State, turns: seq<nat>, cap: nat, st': State) {
    && |turns| <= |st.queue| && ByTurns(st.batches, st.rotate, st.queue, turns, cap, st'.batches)
    && SameTurn(st'.rotate, NextTurn(st.rotate, turns), |st.batches|)
  }

  lemma {:induction false} FirstTurn(st: State, st1: State, t: nat, rest: seq<nat>, cap: nat, st': State)
    requires st.queue != [] && st1.queue == st.queue[1..] && st1.rotate == t + 1
    requires TakesTurn(st.batches, st.rotate, t, cap) && Took(st.batches, st1.batches, t % |st.batches|, st.queue[0])
    requires AdmitsByTurns(st1, rest, cap, st')
    ensures AdmitsByTurns(st, [t] + rest, cap, st')
  {
    assert ([t] + rest)[1..] == rest;
  }

  lemma {:induction false} AdmitByTurns(st: State, cap: nat, attempts: nat) returns (turns: seq<nat>)
    requires attempts <= |st.queue| && Bounded(st.batches, cap) && st.batches != []
    ensures |turns| == MinNat(attempts, FreePlaces(st.batches, cap))
    ensures AdmitsByTurns(st, turns, cap, Admit(st, cap, attempts))
    decreases attempts
  {
    FreeIsZero(st.batches, cap);
    if Free(st.batches, cap) == 0 {
      FullTurns(st, cap, attempts);
      turns := [];
    } else if attempts > 0 {
      var st1, t := AdmitFirst(st, cap, attempts);
      var rest := AdmitByTurns(st1, cap, attempts - 1);
      FirstTurn(st, st1, t, rest, cap, Admit(st1, cap, attempts - 1));
      turns := [t] + rest;
    } else {
      turns := [];
    }
  }

  /** Every fill goes on from the batch after the one that took the last sequence: the admitted sequences go into the
      batches by turns, starting from the counter, and leave the counter after the last turn. */
  lemma {:induction false} FillGoesByTurns(p: Params, st: State) returns (turns: seq<nat>)
    requires p.Valid() && |st.batches| == p.dp && Bounded(st.batches, p.Cap())
    ensures |turns| == Admissible(p, st)
    ensures AdmitsByTurns(st, turns, p.Cap(), FillRunningQueue(p, st))
  {
    var empty := p.totalBatch - BatchSize(st.batches);
    FreeIsMissing(p, st.batches);
    FreeIsZero(st.batches, p.Cap());
    turns := [];
    if empty > 0 {
      turns := AdmitByTurns(st, p.Cap(), MinNat(empty, |st.queue|));
    }
  }

  /** A round hands on the counter to the fill at its end. */
  lemma {:induction false} RoundGoesByTurns(p: Params, st: State, i: Input) returns (turns: seq<nat>)
    requires Consistent(p, st) && Fits(i)
    ensures var st' := Round(p, st, i);
      if Skipped(p, st, i.mode) then st'.rotate == st.rotate && turns == []
      else
        var done := Processed(p, st, i.mode);
        AdmitsByTurns(done.(rotate := st.rotate, queue := st.queue + i.arrivals), turns, p.Cap(), st')
  {
    turns := [];
    if !Skipped(p, st, i.mode) {
      var done := Processed(p, st, i.mode);
      ProcessedIsConsistent(p, st, i.mode);
      turns := FillGoesByTurns(p, done.(queue := done.queue + i.arrivals));
    }
  }

  // ------------------------------------------------------ room everywhere

  /** While every batch has room for what is to come, sequences go one to each batch in turn. */
  lemma {:induction false} SpreadsEvenly(bs: seq<Batch>, rotate: nat, queue: seq<Request>, turns: seq<nat>, cap: nat,
                                         bs': seq<Batch>, j: nat)
    requires |turns| <= |queue| && ByTurns(bs, rotate, queue, turns, cap, bs') && j < |turns|
    requires forall k | 0 <= k < |bs| :: |bs[k]| + |turns| <= cap
    ensures turns[j] == rotate + j
    decreases |turns|
  {
    var k := turns[0] % |bs|;
    assert |bs[rotate % |bs|]| < cap;
    if j > 0 {
      SpreadsEvenly(bs[k := bs[k] + [queue[0]]], turns[0] + 1, queue[1..], turns[1..], cap, bs', j - 1);
    }
  }
}
