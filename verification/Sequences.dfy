/** The objects the scheduler works on, updated in place (src/scheduler/sequence.cpp). */
module Sequences {
  import opened Basics
  import B = Batching

  class Sequence {
    const id: nat
    const inputLen: nat
    var outputLen: nat
    var totalLen: nat
    var currentLen: nat
    var numProcessToken: nat
    var record: bool
    var sumStage: bool
    var numSumIter: nat
    var genStartTime: real
    var firstTokenTime: real
    var endTokenTime: real
    ghost var home: int

    constructor (request: B.Request, ghost home: int)
      ensures View() == request && this.home == home
    {
      id, inputLen, outputLen, totalLen := request.id, request.input, request.output, request.total;
      currentLen, numProcessToken := request.current, request.process;
      record, sumStage, numSumIter := request.record, request.sumStage, request.numSumIter;
      genStartTime, firstTokenTime, endTokenTime := request.genStart, request.firstTokenTime, request.endTokenTime;
      this.home := home;
    }

    function View(): B.Request
      reads this
    {
      B.Request(id, inputLen, outputLen, totalLen, currentLen, numProcessToken, record, sumStage, numSumIter,
                genStartTime, firstTokenTime, endTokenTime)
    }

    method Update(time: real)
      modifies this
      ensures View() == B.Update(old(View()), time) && home == old(home)
    {
      endTokenTime := endTokenTime + time;
      if sumStage {
        firstTokenTime := firstTokenTime + time;
        numSumIter := numSumIter + 1;
      }
      currentLen := currentLen + numProcessToken;
      numProcessToken := 0;
      if sumStage && currentLen == inputLen {
        sumStage := false;
      }
    }
  }

  /** The objects show the given values, and all are at home in the same place. */
  ghost predicate Shows(xs: seq<Sequence>, v: seq<B.Request>, home: int)
    reads xs
  {
    |xs| == |v| && forall i | 0 <= i < |xs| :: xs[i].View() == v[i] && xs[i].home == home
  }

  ghost predicate DistinctIds(v: seq<B.Request>) {
    forall i, j | 0 <= i < j < |v| :: v[i].id != v[j].id
  }

  /** The sequences other than those with the given id. */
  ghost function Without(xs: seq<Sequence>, x: nat): seq<Sequence> {
    if xs == [] then [] else (if xs[0].id == x then [] else [xs[0]]) + Without(xs[1..], x)
  }

  ghost function Selected(v: seq<B.Request>, prefill: bool): seq<B.Request> {
    if v == [] then [] else (if B.Prefilling(v[0]) == prefill then [v[0]] else []) + Selected(v[1..], prefill)
  }

  lemma {:induction false} WithoutAppend(xs: seq<Sequence>, ys: seq<Sequence>, x: nat)
    ensures Without(xs + ys, x) == Without(xs, x) + Without(ys, x)
  {
    if xs == [] {
      assert xs + ys == ys;
    } else {
      assert (xs + ys)[0] == xs[0] && (xs + ys)[1..] == xs[1..] + ys;
      WithoutAppend(xs[1..], ys, x);
      Regroup(if xs[0].id == x then [] else [xs[0]], Without(xs[1..], x), Without(ys, x));
    }
  }

  lemma {:induction false} WithoutOthers(xs: seq<Sequence>, x: nat)
    requires forall i | 0 <= i < |xs| :: xs[i].id != x
    ensures Without(xs, x) == xs
  {
    if xs != [] {
      WithoutOthers(xs[1..], x);
    }
  }

  lemma {:induction false} SelectedAppend(v: seq<B.Request>, r: B.Request, prefill: bool)
    ensures Selected(v + [r], prefill) == Selected(v, prefill) + if B.Prefilling(r) == prefill then [r] else []
  {
    if v == [] {
      assert [] + [r] == [r];
    } else {
      assert (v + [r])[0] == v[0] && (v + [r])[1..] == v[1..] + [r];
      SelectedAppend(v[1..], r, prefill);
      Regroup(if B.Prefilling(v[0]) == prefill then [v[0]] else [], Selected(v[1..], prefill),
              if B.Prefilling(r) == prefill then [r] else []);
    }
  }

  lemma {:induction false} TokensAppend(v: seq<B.Request>, r: B.Request)
    ensures B.Tokens(v + [r]) == B.Tokens(v) + r.process
  {
    if v == [] {
      assert [] + [r] == [r];
    } else {
      assert (v + [r])[0] == v[0] && (v + [r])[1..] == v[1..] + [r];
      TokensAppend(v[1..], r);
    }
  }

  lemma {:induction false} SelectedIsIn(v: seq<B.Request>, prefill: bool)
    ensures forall r | r in Selected(v, prefill) :: r in v
  {
    if v != [] {
      SelectedIsIn(v[1..], prefill);
    }
  }

  lemma {:induction false} SelectedIsDistinct(v: seq<B.Request>, prefill: bool)
    requires DistinctIds(v)
    ensures DistinctIds(Selected(v, prefill))
  {
    if v != [] {
      SelectedIsDistinct(v[1..], prefill);
      var rest := Selected(v[1..], prefill);
      forall j | 0 <= j < |rest|
        ensures rest[j].id != v[0].id
      {
        SelectedIsIn(v[1..], prefill);
        assert rest[j] in v[1..];
      }
    }
  }

  lemma {:induction false} SelectedCounts(v: seq<B.Request>)
    ensures |Selected(v, true)| == B.CountPrefilling(v)
  {
    if v != [] {
      SelectedCounts(v[1..]);
    }
  }

  class BatchedSequence {
    var sequence: seq<Sequence>

    constructor ()
      ensures sequence == []
    {
      sequence := [];
    }

    method Add(s: Sequence)
      modifies this
      ensures sequence == old(sequence) + [s]
    {
      sequence := sequence + [s];
    }

    method GetSum(ghost v: seq<B.Request>, ghost home: int) returns (sum: seq<Sequence>)
      requires Shows(sequence, v, home)
      ensures Shows(sum, Selected(v, true), home) && forall s | s in sum :: s in sequence
      ensures forall s | s in sequence :: s in sum <==> s.currentLen < s.inputLen
    {
      sum := [];
      for i := 0 to |sequence|
        invariant Shows(sum, Selected(v[..i], true), home)
        invariant forall s | s in sum :: s in sequence && s.currentLen < s.inputLen
        invariant forall j | 0 <= j < i && sequence[j].currentLen < sequence[j].inputLen :: sequence[j] in sum
      {
        assert v[..i + 1] == v[..i] + [v[i]];
        SelectedAppend(v[..i], v[i], true);
        if sequence[i].currentLen < sequence[i].inputLen {
          sum := sum + [sequence[i]];
        }
      }
      assert v[..|v|] == v;
    }

    method GetGen(ghost v: seq<B.Request>, ghost home: int) returns (gen: seq<Sequence>)
      requires Shows(sequence, v, home)
      ensures Shows(gen, Selected(v, false), home) && forall s | s in gen :: s in sequence
      ensures forall s | s in sequence :: s in gen <==> s.currentLen >= s.inputLen
    {
      gen := [];
      for i := 0 to |sequence|
        invariant Shows(gen, Selected(v[..i], false), home)
        invariant forall s | s in gen :: s in sequence && s.currentLen >= s.inputLen
        invariant forall j | 0 <= j < i && sequence[j].currentLen >= sequence[j].inputLen :: sequence[j] in gen
      {
        assert v[..i + 1] == v[..i] + [v[i]];
        SelectedAppend(v[..i], v[i], false);
        if sequence[i].currentLen >= sequence[i].inputLen {
          gen := gen + [sequence[i]];
        }
      }
      assert v[..|v|] == v;
    }

    method Update(time: real, ghost v: seq<B.Request>, ghost home: int)
      requires Shows(sequence, v, home) && DistinctIds(v)
      modifies sequence
      ensures Shows(sequence, B.UpdateBatch(v, time), home)
    {
      for i := 0 to |sequence|
        invariant forall j | 0 <= j < i :: sequence[j].View() == B.Update(v[j], time) && sequence[j].home == home
        invariant forall j | i <= j < |sequence| :: sequence[j].View() == v[j] && sequence[j].home == home
      {
        sequence[i].Update(time);
      }
    }

    method Pop(s: Sequence)
      modifies this
      ensures sequence == Without(old(sequence), s.id)
    {
      var rest := [];
      for i := 0 to |sequence|
        invariant sequence == old(sequence) && rest == Without(sequence[..i], s.id)
      {
        assert sequence[..i + 1] == sequence[..i] + [sequence[i]];
        WithoutAppend(sequence[..i], [sequence[i]], s.id);
        if sequence[i].id != s.id {
          rest := rest + [sequence[i]];
        }
      }
      assert sequence[..|sequence|] == sequence;
      sequence := rest;
    }

    method GetProcessToken(ghost v: seq<B.Request>, ghost home: int) returns (token: nat)
      requires Shows(sequence, v, home)
      ensures token == B.Tokens(v)
    {
      token := 0;
      for i := 0 to |sequence|
        invariant token == B.Tokens(v[..i])
      {
        assert v[..i + 1] == v[..i] + [v[i]];
        TokensAppend(v[..i], v[i]);
        token := token + sequence[i].numProcessToken;
      }
      assert v[..|v|] == v;
    }
  }
}
