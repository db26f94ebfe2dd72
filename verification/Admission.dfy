/** Admission from the queue into the batches is first-come-first-served, work-conserving, and loses
    nothing (src/scheduler/scheduler.cpp). */
module Admission {
  import opened Basics
  import opened Batching

  /** All sequences of the batches, batch by batch. */
  ghost function Flat(bs: seq<Batch>): seq<Request> {
    if bs == [] then [] else bs[0] + Flat(bs[1..])
  }

  /** The free places of the batches. */
  function Free(bs: seq<Batch>, cap: nat): int {
    if bs == [] then 0 else cap - |bs[0]| + Free(bs[1..], cap)
  }

  ghost predicate Bounded(bs: seq<Batch>, cap: nat) {
    forall k | 0 <= k < |bs| :: |bs[k]| <= cap
  }

  ghost predicate Full(bs: seq<Batch>, cap: nat) {
    forall k | 0 <= k < |bs| :: |bs[k]| == cap
  }

  lemma {:induction false} FreeIsRest(bs: seq<Batch>, cap: nat)
    ensures BatchSize(bs) + Free(bs, cap) == |bs| * cap
  {
    if bs != [] {
      FreeIsRest(bs[1..], cap);
    }
  }

  lemma {:induction false} FreeIsZero(bs: seq<Batch>, cap: nat)
    requires Bounded(bs, cap)
    ensures Free(bs, cap) >= 0
    ensures Free(bs, cap) == 0 <==> Full(bs, cap)
  {
    if bs != [] {
      FreeIsZero(bs[1..], cap);
      assert Full(bs, cap) ==> Full(bs[1..], cap);
      assert bs == [bs[0]] + bs[1..];
    }
  }

  function FreePlaces(bs: seq<Batch>, cap: nat): nat {
    var n := Free(bs, cap);
    if n >= 0 then n else 0
  }

  // ------------------------------------------------------------- one place

  /** Any n rounds of the counter visit every batch. */
  lemma {:induction false} VisitsAll(rotate: nat, n: nat, j: nat) returns (i: nat)
    requires j < n
    ensures rotate <= i < rotate + n && i % n == j
  {
    var q, m := rotate / n, rotate % n;
    if j >= m {
      i := rotate + (j - m);
      assert i == q * n + j;
      DivMod(q, n, j);
    } else {
      i := rotate + (j + n - m);
      assert i == (q + 1) * n + j;
      DivMod(q + 1, n, j);
    }
  }

  /** Batch k took the sequence, all others are as before. */
  ghost predicate Took(bs: seq<Batch>, bs': seq<Batch>, k: nat, s: Request) {
    k < |bs| && bs' == bs[k := bs[k] + [s]]
  }

  /** The search takes the first batch with room, counting on from the rotation counter. */
  lemma {:induction false} PlaceTakesFirst(bs: seq<Batch>, rotate: nat, s: Request, cap: nat, tries: nat)
    requires bs != []
    ensures var (bs', rotate', placed) := Place(bs, rotate, s, cap, tries);
      && rotate <= rotate' <= rotate + tries
      && (placed ==> rotate < rotate' && |bs[(rotate' - 1) % |bs|]| < cap && Took(bs, bs', (rotate' - 1) % |bs|, s))
      && (!placed ==> rotate' == rotate + tries && bs' == bs)
      && forall i | rotate <= i < (if placed then rotate' - 1 else rotate') :: |bs[i % |bs|]| >= cap
    decreases tries
  {
    if tries > 0 && |bs[rotate % |bs|]| >= cap {
      PlaceTakesFirst(bs, rotate + 1, s, cap, tries - 1);
    }
  }

  /** One attempt succeeds exactly if some batch has room. */
  lemma {:induction false} AttemptSucceeds(bs: seq<Batch>, rotate: nat, s: Request, cap: nat) returns (k: nat)
    requires Bounded(bs, cap) && bs != []
    ensures var (bs', rotate', placed) := Place(bs, rotate, s, cap, |bs|);
      if Free(bs, cap) > 0 then placed && k < |bs| && |bs[k]| < cap && Took(bs, bs', k, s)
      else !placed && bs' == bs
  {
    var (bs', rotate', placed) := Place(bs, rotate, s, cap, |bs|);
    PlaceTakesFirst(bs, rotate, s, cap, |bs|);
    FreeIsZero(bs, cap);
    k := 0;
    if placed {
      k := (rotate' - 1) % |bs|;
    } else {
      forall j | 0 <= j < |bs|
        ensures |bs[j]| == cap
      {
        var i := VisitsAll(rotate, |bs|, j);
        assert |bs[i % |bs|]| >= cap;
      }
      assert Full(bs, cap);
    }
  }

  lemma {:induction false} TakingFills(bs: seq<Batch>, bs': seq<Batch>, k: nat, s: Request, cap: nat)
    requires Took(bs, bs', k, s)
    ensures BatchSize(bs') == BatchSize(bs) + 1 && Free(bs', cap) == Free(bs, cap) - 1
    ensures multiset(Flat(bs')) == multiset(Flat(bs)) + multiset{s}
  {
    if k == 0 {
      assert bs'[1..] == bs[1..];
    } else {
      assert Took(bs[1..], bs'[1..], k - 1, s);
      TakingFills(bs[1..], bs'[1..], k - 1, s, cap);
    }
  }

  // ------------------------------------------------------------ all places

  /** The batches grew at their ends only. */
  ghost predicate Extends(bs: seq<Batch>, bs': seq<Batch>) {
    |bs| == |bs'| && forall k | 0 <= k < |bs| :: bs[k] <= bs'[k]
  }

  /** The first n sequences of the queue moved into the batches; nothing else changed. */
  ghost predicate Moved(st: State, st': State, n: nat) {
    && n <= |st.queue| && st'.queue == st.queue[n..]
    && BatchSize(st'.batches) == BatchSize(st.batches) + n
    && Extends(st.batches, st'.batches)
    && multiset(Flat(st'.batches)) == multiset(Flat(st.batches)) + multiset(st.queue[..n])
    && st'.now == st.now
  }

  /** As many sequences were admitted, in order, as attempts and free places allowed. */
  ghost predicate Admitted(st: State, st': State, cap: nat, attempts: nat) {
    var n := MinNat(attempts, FreePlaces(st.batches, cap));
    Moved(st, st', n) && Bounded(st'.batches, cap) && Free(st'.batches, cap) == Free(st.batches, cap) - n
  }

  /** The head of the queue moved into a batch with room, or there was none. */
  ghost predicate Attempted(st: State, st1: State, cap: nat) {
    && st1.now == st.now && Bounded(st1.batches, cap)
    && if Free(st.batches, cap) > 0 then
        && st.queue != [] && st1.queue == st.queue[1..]
        && Extends(st.batches, st1.batches)
        && BatchSize(st1.batches) == BatchSize(st.batches) + 1 && Free(st1.batches, cap) == Free(st.batches, cap) - 1
        && multiset(Flat(st1.batches)) == multiset(Flat(st.batches)) + multiset{st.queue[0]}
      else st1.queue == st.queue && st1.batches == st.batches
  }

  lemma {:induction false} AdmitMoves(st: State, cap: nat, attempts: nat)
    requires attempts <= |st.queue| && Bounded(st.batches, cap) && st.batches != []
    ensures Admitted(st, Admit(st, cap, attempts), cap, attempts)
    decreases attempts
  {
    if attempts == 0 {
      AdmittedNone(st, cap);
    } else {
      var st1 := AdmitOne(st, cap, attempts);
      AdmitMoves(st1, cap, attempts - 1);
      AdmittedMore(st, st1, Admit(st1, cap, attempts - 1), cap, attempts);
    }
  }

  lemma {:induction false} AdmittedNone(st: State, cap: nat)
    requires Bounded(st.batches, cap)
    ensures Admitted(st, st, cap, 0)
  {
    assert st.queue[0..] == st.queue;
  }

  lemma {:induction false} AdmittedMore(st: State, st1: State, st2: State, cap: nat, attempts: nat)
    requires 0 < attempts <= |st.queue| && Bounded(st.batches, cap)
    requires Attempted(st, st1, cap) && Admitted(st1, st2, cap, attempts - 1)
    ensures Admitted(st, st2, cap, attempts)
  {
    FreeIsZero(st.batches, cap);
    if Free(st.batches, cap) > 0 {
      MovedOneMore(st, st1, st2, MinNat(attempts, FreePlaces(st.batches, cap)));
    }
  }

  lemma {:induction false} AdmitOne(st: State, cap: nat, attempts: nat) returns (st1: State)
    requires 0 < attempts <= |st.queue| && Bounded(st.batches, cap) && st.batches != []
    ensures attempts - 1 <= |st1.queue| && st1.batches != [] && Attempted(st, st1, cap)
    ensures Admit(st, cap, attempts) == Admit(st1, cap, attempts - 1)
  {
    var s := st.queue[0];
    var (bs, rotate, placed) := Place(st.batches, st.rotate, s, cap, |st.batches|);
    var k := AttemptSucceeds(st.batches, st.rotate, s, cap);
    st1 := st.(batches := bs, rotate := rotate, queue := if placed then st.queue[1..] else st.queue);
    if placed {
      TakingFills(st.batches, bs, k, s, cap);
    }
  }

  lemma {:induction false} MovedOneMore(st: State, st1: State, st2: State, n: nat)
    requires n > 0 && st.queue != [] && st1.queue == st.queue[1..] && st1.now == st.now
    requires Extends(st.batches, st1.batches) && BatchSize(st1.batches) == BatchSize(st.batches) + 1
    requires multiset(Flat(st1.batches)) == multiset(Flat(st.batches)) + multiset{st.queue[0]}
    requires Moved(st1, st2, n - 1)
    ensures Moved(st, st2, n)
  {
    assert st.queue[1..][n - 1..] == st.queue[n..];
    assert st.queue[..n] == [st.queue[0]] + st.queue[1..][..n - 1];
    forall j | 0 <= j < |st.batches|
      ensures st.batches[j] <= st2.batches[j]
    {
      assert st.batches[j] <= st1.batches[j] <= st2.batches[j];
    }
  }

  /** How many sequences fit: those waiting, up to the free places of all batches. */
  function Admissible(p: Params, st: State): nat
    requires p.dp >= 1
  {
    MinNat(FreePlaces(st.batches, p.Cap()), |st.queue|)
  }

  /** The longest possible prefix of the queue moved into the free places: they are all taken, or the queue is
      empty. */
  ghost predicate Filled(st: State, st': State, cap: nat, free: int) {
    && 0 <= free
    && Moved(st, st', MinNat(free, |st.queue|))
    && Bounded(st'.batches, cap)
    && (Full(st'.batches, cap) <==> |st.queue| >= free)
    && (Full(st'.batches, cap) || st'.queue == [])
  }

  /** Filling admits the longest possible prefix of the queue: the batches end up full or the queue empty. */
  lemma {:induction false} FillAdmitsPrefix(p: Params, st: State)
    requires p.Valid() && |st.batches| == p.dp && Bounded(st.batches, p.Cap())
    ensures Filled(st, FillRunningQueue(p, st), p.Cap(), Free(st.batches, p.Cap()))
    ensures Moved(st, FillRunningQueue(p, st), Admissible(p, st))
  {
    FreeIsMissing(p, st.batches);
    FillWithin(st, p.Cap(), p.totalBatch - BatchSize(st.batches), Free(st.batches, p.Cap()));
  }

  lemma {:induction false} FillWithin(st: State, cap: nat, empty: int, free: int)
    requires Bounded(st.batches, cap) && st.batches != [] && free == Free(st.batches, cap) <= empty
    ensures Filled(st, if empty <= 0 then st else Admit(st, cap, MinNat(empty, |st.queue|)), cap, free)
  {
    FreeIsZero(st.batches, cap);
    if empty > 0 {
      AdmitMoves(st, cap, MinNat(empty, |st.queue|));
      FreeIsZero(Admit(st, cap, MinNat(empty, |st.queue|)).batches, cap);
    } else {
      AdmittedNone(st, cap);
    }
  }

  /** The free places are what the total batch size misses, but for its remainder. */
  lemma {:induction false} FreeIsMissing(p: Params, bs: seq<Batch>)
    requires p.dp >= 1 && |bs| == p.dp
    ensures Free(bs, p.Cap()) + p.totalBatch % p.dp == p.totalBatch - BatchSize(bs) && p.totalBatch % p.dp >= 0
  {
    FreeIsRest(bs, p.Cap());
    SlotsFit(p);
  }

  /** The batches together hold at most the total batch size, and fall short by its remainder. */
  lemma {:induction false} SlotsFit(p: Params)
    requires p.dp >= 1
    ensures p.dp * p.Cap() <= p.totalBatch && p.totalBatch - p.dp * p.Cap() == p.totalBatch % p.dp
  {
  }
}
