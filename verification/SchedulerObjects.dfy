/** The scheduler object: queues and sequences updated in place, round by round
    (src/scheduler/scheduler.cpp). Every method is tied to the corresponding step of Batching. */
module SchedulerObjects {
  import opened Basics
  import opened Sequences
  import B = Batching
  import Admission
  import Lifecycle
  import Progress
  import Conservation

  /** Sequences at home in different places are different objects. */
  lemma {:induction false} Apart(xs: seq<Sequence>, v: seq<B.Request>, home: int, ys: seq<Sequence>,
                                 w: seq<B.Request>, there: int)
    requires Shows(xs, v, home) && Shows(ys, w, there) && home != there
    ensures forall j | 0 <= j < |xs| :: xs[j] !in ys
  {
  }

  lemma {:induction false} ShowsMore(xs: seq<Sequence>, v: seq<B.Request>, home: int, s: Sequence, r: B.Request)
    requires |xs| == |v| + 1 && xs[|v|] == s && s.View() == r && s.home == home
    requires forall i | 0 <= i < |v| :: xs[i].View() == v[i] && xs[i].home == home
    ensures Shows(xs, v + [r], home)
  {
  }

  class Scheduler {
    const params: B.Params
    var running: seq<BatchedSequence>
    var queue: seq<Sequence>
    var rotate: nat
    var totalTime: real
    /** All sequences in the batches and the queue. */
    ghost var objects: set<Sequence>
    /** The number the next sequence gets. */
    var countId: nat

    /** The batches show the given values. */
    ghost predicate Batches(views: seq<B.Batch>)
      reads `running, `objects, running, objects
    {
      && |running| == |views|
      && (forall k, l | 0 <= k < l < |running| :: running[k] != running[l])
      && (forall k, s | 0 <= k < |running| && s in running[k].sequence :: s in objects)
      && forall k | 0 <= k < |running| :: Shows(running[k].sequence, views[k], k)
    }

    /** The batches and the queue show the given values. */
    ghost predicate Holds(views: seq<B.Batch>, waiting: seq<B.Request>)
      reads `running, `queue, `objects, running, objects
    {
      Batches(views) && (forall s | s in queue :: s in objects) && Shows(queue, waiting, -1)
    }

    ghost predicate Represents(st: B.State)
      reads `running, `queue, `objects, `rotate, `totalTime, running, objects
    {
      Holds(st.batches, st.queue) && rotate == st.rotate && totalTime == st.now
    }

    /** Every sequence has its own number, below the next one. */
    ghost predicate Identified()
      reads `objects, `countId
    {
      && (forall s | s in objects :: s.id < countId)
      && forall s, t | s in objects && t in objects && s.id == t.id :: s == t
    }

    /** A scheduler with one empty batch per data-parallel group. */
    constructor (params: B.Params)
      ensures this.params == params && fresh(running) && objects == {} && countId == 0
      ensures Represents(Empty()) && Identified()
    {
      this.params := params;
      running, queue, rotate, totalTime, objects, countId := [], [], 0, 0.0, {}, 0;
      new;
      for k := 0 to params.dp
        invariant this.params == params && |running| == k && queue == [] && rotate == 0 && totalTime == 0.0
        invariant objects == {} && countId == 0 && fresh(running)
        invariant forall i | 0 <= i < k :: running[i].sequence == []
        invariant forall i, j | 0 <= i < j < k :: running[i] != running[j]
      {
        var batch := new BatchedSequence();
        running := running + [batch];
      }
    }

    ghost function Empty(): B.State {
      B.State(seq(params.dp, k => []), [], 0, 0.0)
    }

    /** Whether some batch still reads input. */
    method HasSumSeq(ghost st: B.State) returns (found: bool)
      requires Represents(st)
      ensures found == B.HasPrefill(st.batches)
    {
      for k := 0 to |running|
        invariant forall l | 0 <= l < k :: B.CountPrefilling(st.batches[l]) == 0
      {
        var sum := running[k].GetSum(st.batches[k], k);
        SelectedCounts(st.batches[k]);
        if |sum| != 0 {
          return true;
        }
      }
      return false;
    }

    /** One token for every generating sequence, unless some batch still reads. */
    method AssignGen(gen: seq<Sequence>, prefill: bool, share: nat)
      requires forall i, j | 0 <= i < j < |gen| :: gen[i] != gen[j]
      requires forall s | s in gen :: s.currentLen >= s.inputLen
      modifies gen
      ensures forall s | s in gen :: s.View() == B.Assign(old(s.View()), prefill, share, totalTime)
      ensures forall s | s in gen :: s.home == old(s.home)
    {
      for i := 0 to |gen|
        invariant forall j | 0 <= j < i ::
          gen[j].View() == B.Assign(old(gen[j].View()), prefill, share, totalTime) && gen[j].home == old(gen[j].home)
        invariant forall j | i <= j < |gen| :: gen[j].View() == old(gen[j].View()) && gen[j].home == old(gen[j].home)
      {
        if !prefill {
          if gen[i].genStartTime == 0.0 {
            gen[i].numProcessToken := 1;
          } else if gen[i].genStartTime <= totalTime {
            gen[i].numProcessToken := 1;
          }
        }
      }
    }

    /** An equal share for every reading sequence, if reading has its turn. */
    method AssignSum(sum: seq<Sequence>, prefill: bool, share: nat)
      requires forall i, j | 0 <= i < j < |sum| :: sum[i] != sum[j]
      requires forall s | s in sum :: s.currentLen < s.inputLen
      modifies sum
      ensures forall s | s in sum :: s.View() == B.Assign(old(s.View()), prefill, share, totalTime)
      ensures forall s | s in sum :: s.home == old(s.home)
    {
      for i := 0 to |sum|
        invariant forall j | 0 <= j < i ::
          sum[j].View() == B.Assign(old(sum[j].View()), prefill, share, totalTime) && sum[j].home == old(sum[j].home)
        invariant forall j | i <= j < |sum| :: sum[j].View() == old(sum[j].View()) && sum[j].home == old(sum[j].home)
      {
        if prefill {
          sum[i].numProcessToken := MinNat(share, sum[i].inputLen - sum[i].currentLen);
        }
      }
    }

    /** The tokens of one batch. */
    method AssignBatch(batch: BatchedSequence, prefill: bool, ghost v: B.Batch, ghost home: int)
      requires Shows(batch.sequence, v, home) && DistinctIds(v)
      modifies batch.sequence
      ensures Shows(batch.sequence, B.AssignBatch(v, prefill, B.Share(params, v), totalTime), home)
    {
      var gen := batch.GetGen(v, home);
      var sum := batch.GetSum(v, home);
      SelectedIsDistinct(v, true);
      SelectedIsDistinct(v, false);
      SelectedCounts(v);
      var share := if |sum| == 0 then 0 else params.maxProcess / |sum|;
      AssignGen(gen, prefill, share);
      AssignSum(sum, prefill, share);
      forall i | 0 <= i < |batch.sequence|
        ensures batch.sequence[i].View() == B.Assign(v[i], prefill, share, totalTime) && batch.sequence[i].home == home
      {
        var s := batch.sequence[i];
        assert s in gen || s in sum;
      }
    }

    method AssignAt(k: nat, prefill: bool, ghost views: seq<B.Batch>)
      requires Batches(views) && k < |running| && DistinctIds(views[k])
      modifies running[k].sequence
      ensures Batches(views[k := B.AssignBatch(views[k], prefill, B.Share(params, views[k]), totalTime)])
    {
      forall l | 0 <= l < |running| && l != k
        ensures forall j | 0 <= j < |running[l].sequence| :: running[l].sequence[j] !in running[k].sequence
      {
        Apart(running[l].sequence, views[l], l, running[k].sequence, views[k], k);
      }
      AssignBatch(running[k], prefill, views[k], k);
    }

    /** The assignment to one batch leaves the queue as it is. */
    method AssignNext(k: nat, prefill: bool, ghost views: seq<B.Batch>, ghost waiting: seq<B.Request>)
      requires Batches(views) && k < |running| && DistinctIds(views[k]) && Shows(queue, waiting, -1)
      modifies running[k].sequence
      ensures Batches(views[k := B.AssignBatch(views[k], prefill, B.Share(params, views[k]), totalTime)])
      ensures Shows(queue, waiting, -1)
    {
      Apart(queue, waiting, -1, running[k].sequence, views[k], k);
      AssignAt(k, prefill, views);
    }

    method SetMetadata(ghost st: B.State)
      requires Represents(st) && forall k | 0 <= k < |st.batches| :: DistinctIds(st.batches[k])
      modifies objects
      ensures Represents(B.SetMetadata(params, st))
    {
      var prefill := HasSumSeq(st);
      ghost var target := B.SetMetadata(params, st).batches;
      MixEnds(target, st.batches);
      for k := 0 to |running|
        invariant Batches(Mix(target, st.batches, k)) && Shows(queue, st.queue, -1)
      {
        MixNext(target, st.batches, k);
        AssignNext(k, prefill, Mix(target, st.batches, k), st.queue);
      }
    }

    /** The first k batches have been changed. */
    ghost function Mix(changed: seq<B.Batch>, before: seq<B.Batch>, k: nat): seq<B.Batch>
      requires k <= |changed| == |before|
    {
      changed[..k] + before[k..]
    }

    lemma {:induction false} MixNext(changed: seq<B.Batch>, before: seq<B.Batch>, k: nat)
      requires k < |changed| == |before|
      ensures var bs := Mix(changed, before, k);
        && |bs| == |before| && bs[k] == before[k]
        && bs[k := changed[k]] == Mix(changed, before, k + 1)
    {
    }

    lemma {:induction false} MixEnds(changed: seq<B.Batch>, before: seq<B.Batch>)
      requires |changed| == |before|
      ensures Mix(changed, before, 0) == before && Mix(changed, before, |before|) == changed
    {
    }

    /** Removes and reports the sequences that are done; reports those that have just read their input. */
    method SettleBatch(batch: BatchedSequence, ghost u: B.Batch, ghost home: int) returns (tokens: seq<Sequence>)
      requires Shows(batch.sequence, u, home) && DistinctIds(u)
      modifies batch, batch.sequence
      ensures Shows(batch.sequence, B.Remaining(u), home)
      ensures Shows(tokens, B.Listed(u), home)
      ensures forall s | s in batch.sequence :: s in old(batch.sequence)
      ensures forall s | s in tokens :: s in old(batch.sequence)
    {
      var all := batch.sequence;
      tokens := [];
      ghost var kept: seq<Sequence> := [];
      StartSettling(batch, all, u, home);
      for i := 0 to |all|
        invariant Settling(batch, all, u, home, i, kept, tokens)
      {
        var s := all[i];
        if s.currentLen == s.totalLen {
          Drop(batch, s, all, u, home, i, kept, tokens);
          tokens := tokens + [s];
        } else {
          if s.currentLen == s.inputLen && !s.record {
            Record(batch, s, all, u, home, i, kept, tokens);
            tokens := tokens + [s];
          } else {
            Keep(batch, all, u, home, i, kept, tokens);
          }
          kept := kept + [s];
        }
      }
      EndSettling(batch, all, u, home, kept, tokens);
    }

    /** The update of one batch. */
    method UpdateAt(k: nat, time: real, ghost views: seq<B.Batch>) returns (tokens: seq<Sequence>)
      requires Batches(views) && k < |running| && DistinctIds(views[k])
      modifies running[k], running[k].sequence
      ensures Batches(views[k := B.Remaining(B.UpdateBatch(views[k], time))])
      ensures Shows(tokens, B.Listed(B.UpdateBatch(views[k], time)), k)
      ensures forall s | s in tokens :: s in old(running[k].sequence)
    {
      forall l | 0 <= l < |running| && l != k
        ensures forall j | 0 <= j < |running[l].sequence| :: running[l].sequence[j] !in running[k].sequence
      {
        Apart(running[l].sequence, views[l], l, running[k].sequence, views[k], k);
      }
      running[k].Update(time, views[k], k);
      tokens := SettleBatch(running[k], B.UpdateBatch(views[k], time), k);
    }

    /** Reported sequences of the batches before k show the given values. */
    ghost predicate Told(tokens: seq<Sequence>, v: seq<B.Request>, k: nat)
      reads tokens
    {
      |tokens| == |v| && forall i | 0 <= i < |tokens| :: tokens[i].View() == v[i] && 0 <= tokens[i].home < k
    }

    /** The update of one batch leaves the queue and the earlier reports as they are. */
    method UpdateNext(k: nat, time: real, tokens: seq<Sequence>, ghost views: seq<B.Batch>,
                      ghost waiting: seq<B.Request>,
                      ghost told: seq<B.Request>) returns (all: seq<Sequence>)
      requires Batches(views) && k < |running| && DistinctIds(views[k])
      requires Shows(queue, waiting, -1) && Told(tokens, told, k) && forall s | s in tokens :: s in objects
      modifies running[k], running[k].sequence
      ensures Batches(views[k := B.Remaining(B.UpdateBatch(views[k], time))]) && Shows(queue, waiting, -1)
      ensures Told(all, told + B.Listed(B.UpdateBatch(views[k], time)), k + 1)
      ensures forall s | s in all :: s in objects
    {
      Apart(queue, waiting, -1, running[k].sequence, views[k], k);
      TokensApart(tokens, told, k, running[k].sequence, views[k]);
      var more := UpdateAt(k, time, views);
      all := tokens + more;
    }

    method UpdateScheduler(time: real, ghost st: B.State) returns (tokens: seq<Sequence>)
      requires Represents(st) && forall k | 0 <= k < |st.batches| :: DistinctIds(st.batches[k])
      modifies objects, running
      ensures Represents(B.UpdateScheduler(st, time))
      ensures Told(tokens, B.Reported(st, time), |running|)
      ensures forall s | s in tokens :: s in objects
    {
      tokens := [];
      ghost var us := B.UpdateBatches(st.batches, time);
      ghost var target := B.RemainingAll(us);
      MixEnds(target, st.batches);
      for k := 0 to |running|
        invariant Batches(Mix(target, st.batches, k)) && Shows(queue, st.queue, -1)
        invariant Told(tokens, B.ListedAll(us[..k]), k) && forall s | s in tokens :: s in objects
      {
        MixNext(target, st.batches, k);
        NextListed(us, k);
        tokens := UpdateNext(k, time, tokens, Mix(target, st.batches, k), st.queue, B.ListedAll(us[..k]));
      }
      assert us[..|us|] == us;
    }

    // ----------------------------------------------------------- admission

    method GetBatchSize(ghost st: B.State) returns (size: nat)
      requires Represents(st)
      ensures size == B.BatchSize(st.batches)
    {
      size := 0;
      for k := 0 to |running|
        invariant size == B.BatchSize(st.batches[..k])
      {
        NextSize(st.batches, k);
        size := size + |running[k].sequence|;
      }
      assert st.batches[..|st.batches|] == st.batches;
    }

    /** Tries the batches in turn until one has room. */
    method FindRoom(ghost st: B.State) returns (placed: bool, k: nat)
      requires Represents(st) && params.dp >= 1 && st.queue != []
      modifies `rotate
      ensures var r := B.Place(st.batches, st.rotate, st.queue[0], params.Cap(), |st.batches|);
        && placed == r.2 && rotate == r.1
        && (placed ==> k < |running| && r.0 == st.batches[k := st.batches[k] + [st.queue[0]]])
        && (!placed ==> r.0 == st.batches)
    {
      ghost var r := B.Place(st.batches, st.rotate, st.queue[0], params.Cap(), |st.batches|);
      for i := 0 to |running|
        invariant r == B.Place(st.batches, rotate, st.queue[0], params.Cap(), |st.batches| - i)
      {
        PlaceStep(st.batches, rotate, st.queue[0], params.Cap(), |st.batches| - i);
        k := rotate % |running|;
        rotate := rotate + 1;
        if |running[k].sequence| < params.Cap() {
          return true, k;
        }
      }
      return false, 0;
    }

    /** One attempt: the head of the queue moves to the first batch with room, if there is one. */
    method AdmitHead(ghost st: B.State, ghost next: B.State)
      requires Represents(st) && params.dp >= 1 && Attempts(st, next)
      modifies `queue, `rotate, running, objects
      ensures Represents(next)
    {
      assert queue[0] in queue;
      var placed, k := FindRoom(st);
      if placed {
        MoveHead(k, st.batches, st.queue);
      }
    }

    lemma {:induction false} PlaceStep(bs: seq<B.Batch>, rotate: nat, s: B.Request, cap: nat, tries: nat)
      requires tries > 0 && bs != []
      ensures var k := rotate % |bs|;
        B.Place(bs, rotate, s, cap, tries) ==
          if |bs[k]| < cap then (bs[k := bs[k] + [s]], rotate + 1, true) else B.Place(bs, rotate + 1, s, cap, tries - 1)
    {
    }

    /** The head of the queue joins batch k. */
    method MoveHead(k: nat, ghost views: seq<B.Batch>, ghost waiting: seq<B.Request>)
      requires Holds(views, waiting) && k < |running| && queue != [] && DistinctIds(waiting)
      modifies `queue, running[k], queue[0]
      ensures Holds(views[k := views[k] + [waiting[0]]], waiting[1..])
    {
      var s := queue[0];
      ghost var views' := views[k := views[k] + [waiting[0]]];
      assert forall j | 0 < j < |queue| :: queue[j].View().id != s.View().id;
      forall l | 0 <= l < |running|
        ensures forall j | 0 <= j < |running[l].sequence| :: running[l].sequence[j] !in [s]
      {
        Apart(running[l].sequence, views[l], l, [s], [waiting[0]], -1);
      }
      queue := queue[1..];
      s.home := k;
      running[k].Add(s);
      ShowsMore(running[k].sequence, views[k], k, s, waiting[0]);
      assert forall l | 0 <= l < |running| && l != k :: Shows(running[l].sequence, views'[l], l);
    }

    /** Admits sequences from the queue, as many as are missing, as far as there is room. */
    method FillRunningQueue(ghost st: B.State)
      requires Represents(st) && params.dp >= 1 && DistinctIds(st.queue)
      modifies `queue, `rotate, running, objects
      ensures Represents(B.FillRunningQueue(params, st))
    {
      var size := GetBatchSize(st);
      var empty := params.totalBatch - size;
      if empty > 0 {
        AdmitHeads(MinNat(empty, |queue|), st);
      }
    }

    method AdmitHeads(attempts: nat, ghost st: B.State)
      requires Represents(st) && params.dp >= 1 && DistinctIds(st.queue) && attempts <= |st.queue|
      modifies `queue, `rotate, running, objects
      ensures Represents(B.Admit(st, params.Cap(), attempts))
    {
      ghost var states := AdmitStates(st, params.Cap(), attempts);
      for i := 0 to attempts
        invariant Represents(states[i])
      {
        assert Attempts(states[i], states[i + 1]);
        AdmitHead(states[i], states[i + 1]);
      }
    }

    /** One attempt leads from one state to the next. */
    ghost predicate Attempts(st: B.State, next: B.State)
      requires params.dp >= 1
    {
      st.queue != [] && DistinctIds(st.queue) && next == AfterAttempt(st)
    }

    lemma {:induction false} AdmitStates(st: B.State, cap: nat, attempts: nat) returns (states: seq<B.State>)
      requires params.dp >= 1 && cap == params.Cap() && attempts <= |st.queue| && DistinctIds(st.queue)
      ensures |states| == attempts + 1 && states[0] == st && states[attempts] == B.Admit(st, cap, attempts)
      ensures forall i | 0 <= i < attempts :: Attempts(states[i], states[i + 1])
      decreases attempts
    {
      if attempts == 0 {
        states := [st];
      } else {
        AdmitStep(st, cap, attempts);
        var rest := AdmitStates(AfterAttempt(st), cap, attempts - 1);
        states := [st] + rest;
        forall i | 0 <= i < attempts
          ensures Attempts(states[i], states[i + 1])
        {
          assert i > 0 ==> Attempts(rest[i - 1], rest[i]);
        }
      }
    }

    ghost function AfterAttempt(st: B.State): B.State
      requires params.dp >= 1 && st.queue != []
    {
      var r := B.Place(st.batches, st.rotate, st.queue[0], params.Cap(), |st.batches|);
      st.(batches := r.0, rotate := r.1, queue := if r.2 then st.queue[1..] else st.queue)
    }

    lemma {:induction false} AdmitStep(st: B.State, cap: nat, attempts: nat)
      requires params.dp >= 1 && cap == params.Cap() && 0 < attempts <= |st.queue|
      ensures attempts - 1 <= |AfterAttempt(st).queue|
      ensures B.Admit(st, cap, attempts) == B.Admit(AfterAttempt(st), cap, attempts - 1)
    {
    }

    // -------------------------------------------------------------- arrivals

    /** Pushes one new sequence, if there is anything to generate. */
    method PushDummySeq(w: B.Workload, ghost st: B.State) returns (ghost pushed: seq<B.Request>)
      requires Represents(st) && Identified() && forall x: nat :: B.PushDummySeq(w, x).Success?
      modifies this
      ensures running == old(running) && fresh(objects - old(objects)) && Identified()
      ensures pushed == Lifecycle.Pushed(w, old(countId), 1) && countId == old(countId) + |pushed|
      ensures Represents(st.(queue := st.queue + pushed))
    {
      pushed := [];
      var r := B.PushDummySeq(w, countId);
      match r.value {
        case None =>
          assert st.queue + [] == st.queue;
        case Some(request) =>
          var s := new Sequence(request, -1);
          objects := objects + {s};
          queue := queue + [s];
          countId := countId + 1;
          pushed := [request];
          ShowsMore(queue, st.queue, -1, s, request);
      }
    }

    /** Pushes new sequences, numbered from the counter on. */
    method PushSeq(num: nat, w: B.Workload, ghost st: B.State)
      requires Represents(st) && Identified() && forall x: nat :: B.PushDummySeq(w, x).Success?
      modifies this
      ensures running == old(running) && fresh(objects - old(objects)) && Identified()
      ensures var all := Lifecycle.Pushed(w, old(countId), num);
        Represents(st.(queue := st.queue + all)) && countId == old(countId) + |all|
    {
      ghost var id := countId;
      assert st.queue + [] == st.queue;
      for i := 0 to num
        invariant running == old(running) && fresh(objects - old(objects)) && Identified()
        invariant Queued(st, Lifecycle.Pushed(w, id, i)) && countId == id + |Lifecycle.Pushed(w, id, i)|
      {
        PushNext(w, st, id, i);
      }
    }

    /** The object is in state st but for the given sequences behind the queue. */
    ghost predicate Queued(st: B.State, all: seq<B.Request>)
      reads `running, `queue, `objects, `rotate, `totalTime, running, objects
    {
      Represents(st.(queue := st.queue + all))
    }

    method PushNext(w: B.Workload, ghost st: B.State, ghost id: nat, ghost i: nat)
      requires Identified() && forall x: nat :: B.PushDummySeq(w, x).Success?
      requires Queued(st, Lifecycle.Pushed(w, id, i)) && countId == id + |Lifecycle.Pushed(w, id, i)|
      modifies this
      ensures running == old(running) && fresh(objects - old(objects)) && Identified()
      ensures Queued(st, Lifecycle.Pushed(w, id, i + 1)) && countId == id + |Lifecycle.Pushed(w, id, i + 1)|
    {
      NextPush(w, id, i, st.queue);
      ghost var pushed := PushDummySeq(w, st.(queue := st.queue + Lifecycle.Pushed(w, id, i)));
    }

    lemma {:induction false} NextPush(w: B.Workload, id: nat, n: nat, waiting: seq<B.Request>)
      requires forall x: nat :: B.PushDummySeq(w, x).Success?
      ensures var before := Lifecycle.Pushed(w, id, n);
        var one := Lifecycle.Pushed(w, id + |before|, 1);
        && waiting + Lifecycle.Pushed(w, id, n + 1) == (waiting + before) + one
        && |Lifecycle.Pushed(w, id, n + 1)| == |before| + |one|
      decreases n
    {
      LastPush(w, id, n);
      Regroup(waiting, Lifecycle.Pushed(w, id, n), Lifecycle.Pushed(w, id + |Lifecycle.Pushed(w, id, n)|, 1));
    }

    lemma {:induction false} LastPush(w: B.Workload, id: nat, n: nat)
      requires forall x: nat :: B.PushDummySeq(w, x).Success?
      ensures var before := Lifecycle.Pushed(w, id, n);
        Lifecycle.Pushed(w, id, n + 1) == before + Lifecycle.Pushed(w, id + |before|, 1)
      decreases n
    {
      if n > 0 {
        match B.PushDummySeq(w, id).value {
          case None =>
            LastPush(w, id, n - 1);
          case Some(s) =>
            LastPush(w, id + 1, n - 1);
            Regroup([s], Lifecycle.Pushed(w, id + 1, n - 1),
                    Lifecycle.Pushed(w, id + 1 + |Lifecycle.Pushed(w, id + 1, n - 1)|, 1));
        }
      }
    }

    /** Asks for as many sequences as the batches are short of. */
    method FillSequenceQueue(w: B.Workload, ghost st: B.State) returns (ghost arrivals: seq<B.Request>)
      requires Represents(st) && Identified() && forall x: nat :: B.PushDummySeq(w, x).Success?
      modifies this
      ensures running == old(running) && fresh(objects - old(objects)) && Identified()
      ensures arrivals == Arrivals(w, old(countId), st)
      ensures Represents(st.(queue := st.queue + arrivals)) && countId == old(countId) + |arrivals|
    {
      var size := GetBatchSize(st);
      var missing := params.totalBatch - size;
      arrivals := Lifecycle.Pushed(w, countId, if missing > 0 then missing else 0);
      PushSeq(if missing > 0 then missing else 0, w, st);
    }

    // ---------------------------------------------------------------- rounds

    /** Decoding of the reported sequences may start at the given time. */
    method StampTokens(tokens: seq<Sequence>, time: real)
      requires forall s | s in tokens :: s in objects
      modifies objects
      ensures forall s | s in objects ::
        (s.home == old(s.home) && s.View() == if s in tokens then old(s.View()).(genStart := time) else old(s.View()))
    {
      for i := 0 to |tokens|
        invariant forall s | s in objects ::
          (s.home == old(s.home) &&
            s.View() == if s in tokens[..i] then old(s.View()).(genStart := time) else old(s.View()))
      {
        assert tokens[..i + 1] == tokens[..i] + [tokens[i]];
        tokens[i].genStartTime := time;
      }
      assert tokens[..|tokens|] == tokens;
    }

    method AddLatency(tokens: seq<Sequence>, time: real, ghost st: B.State, ghost listed: seq<B.Request>)
      requires Represents(st) && Identified() && st.now == time
      requires Told(tokens, listed, |running|) && forall s | s in tokens :: s in objects
      requires NoneNamed(st.queue, listed)
      modifies objects
      ensures Represents(B.AddLatency(st, listed, time))
    {
      ghost var target := B.AddLatency(st, listed, time);
      forall s | s in objects
        ensures s in tokens <==> Names(listed, s.id)
      {
        TokenIsNamed(tokens, listed, s);
      }
      StampTokens(tokens, time);
    }

    ghost predicate Names(listed: seq<B.Request>, x: nat) {
      exists i | 0 <= i < |listed| :: listed[i].id == x
    }

    ghost predicate NoneNamed(queue: seq<B.Request>, listed: seq<B.Request>) {
      forall s | s in queue :: !Names(listed, s.id)
    }

    lemma {:induction false} TokenIsNamed(tokens: seq<Sequence>, listed: seq<B.Request>, s: Sequence)
      requires Told(tokens, listed, |running|) && Identified() && s in objects && forall t | t in tokens :: t in objects
      ensures s in tokens <==> Names(listed, s.id)
    {
      assert forall i | 0 <= i < |tokens| :: tokens[i].id == listed[i].id;
      if i :| 0 <= i < |listed| && listed[i].id == s.id {
        assert tokens[i] in objects;
      }
    }

    method GetNumProcessToken(ghost st: B.State) returns (token: nat)
      requires Represents(st)
      ensures token == B.AllTokens(st.batches)
    {
      token := 0;
      for k := 0 to |running|
        invariant token == B.AllTokens(st.batches[..k])
      {
        NextTokens(st.batches, k);
        var here := running[k].GetProcessToken(st.batches[k], k);
        token := token + here;
      }
      assert st.batches[..|st.batches|] == st.batches;
    }

    /** The state of the scheduler between two rounds. */
    ghost predicate Resting(st: B.State)
      reads this, running, objects
    {
      Represents(st) && Identified() && Progress.Consistent(params, st) && Lifecycle.UniqueIds(st, countId)
    }

    /** What a batch of requests brings, numbered from n on. */
    ghost function Arrivals(w: B.Workload, n: nat, st: B.State): seq<B.Request>
      requires forall x: nat :: B.PushDummySeq(w, x).Success?
    {
      var missing := params.totalBatch - B.BatchSize(st.batches);
      Lifecycle.Pushed(w, n, if missing > 0 then missing else 0)
    }

    /** Requests for what is missing, then admission. */
    method Refill(w: B.Workload, ghost st: B.State, ghost arrivals: seq<B.Request>)
      requires Represents(st) && Identified() && params.dp >= 1 && Usable(w)
      requires arrivals == Arrivals(w, countId, st) && DistinctIds(st.queue + arrivals)
      modifies this, running, objects
      ensures running == old(running) && fresh(objects - old(objects))
      ensures Represents(B.FillRunningQueue(params, st.(queue := st.queue + arrivals)))
      ensures Identified() && countId == old(countId) + |arrivals|
    {
      var all := FillSequenceQueue(w, st);
      FillRunningQueue(st.(queue := st.queue + arrivals));
    }

    /** The second half of a round. */
    method Fill(w: B.Workload, ghost st: B.State, ghost mode: B.Mode, ghost before: B.State) returns (ghost i: B.Input)
      requires Represents(st) && Identified() && Usable(w)
      requires Progress.Consistent(params, before) && Lifecycle.UniqueIds(before, countId)
      requires B.TimeOf(mode) >= 0.0 && st == B.Processed(params, before, mode) && !B.Skipped(params, before, mode)
      modifies this, running, objects
      ensures running == old(running) && fresh(objects - old(objects))
      ensures i.mode == mode && Progress.Fits(i) && Resting(B.Round(params, before, i))
      ensures B.ClampedOutput(w) != 0 ==> Conservation.Asks(params, before, i)
    {
      i := B.Input(mode, Arrivals(w, countId, st));
      PushedIsNumbered(w, countId, st, i.arrivals);
      AsksForMissing(w, countId, before, i);
      FilledIsSound(before, i, countId);
      Refill(w, st, i.arrivals);
    }

    lemma {:induction false} PushedIsNumbered(w: B.Workload, n: nat, st: B.State, arrivals: seq<B.Request>)
      requires Usable(w) && arrivals == Arrivals(w, n, st)
      ensures Progress.AllReady(arrivals, 0.0)
      ensures forall x: nat :: |Lifecycle.Of(arrivals, x)| <= if n <= x < n + |arrivals| then 1 else 0
    {
      var missing := params.totalBatch - B.BatchSize(st.batches);
      PushedAreReady(w, n, if missing > 0 then missing else 0);
      forall x: nat
        ensures |Lifecycle.Of(arrivals, x)| <= if n <= x < n + |arrivals| then 1 else 0
      {
        Lifecycle.PushedAreNew(w, n, if missing > 0 then missing else 0, x);
      }
    }

    lemma {:induction false} FilledIsSound(before: B.State, i: B.Input, n: nat)
      requires !B.Skipped(params, before, i.mode)
      requires Progress.Consistent(params, before) && Lifecycle.UniqueIds(before, n) && Progress.Fits(i)
      requires forall x: nat :: |Lifecycle.Of(i.arrivals, x)| <= if n <= x < n + |i.arrivals| then 1 else 0
      ensures var st := B.Processed(params, before, i.mode);
        && DistinctIds(st.queue + i.arrivals)
        && B.Round(params, before, i) == B.FillRunningQueue(params, st.(queue := st.queue + i.arrivals))
      ensures Progress.Consistent(params, B.Round(params, before, i))
      ensures Lifecycle.UniqueIds(B.Round(params, before, i), n + |i.arrivals|)
    {
      var st := B.Processed(params, before, i.mode);
      Lifecycle.ProcessedIsUnique(params, before, i.mode, n);
      Lifecycle.PushKeepsUnique(st, i.arrivals, n, n + |i.arrivals|);
      Lifecycle.UniqueInQueue(st.(queue := st.queue + i.arrivals), n + |i.arrivals|);
      Lifecycle.RoundKeepsUnique(params, before, i, n, n + |i.arrivals|);
      Progress.RoundIsConsistent(params, before, i);
    }

    /** The first requests and the first admission. */
    method FirstFill(w: B.Workload, ghost arrivals: seq<B.Request>)
      requires Represents(Empty()) && Identified() && params.Valid() && Usable(w) && countId == 0
      requires arrivals == Lifecycle.Pushed(w, 0, params.totalBatch)
      modifies this, running, objects
      ensures running == old(running) && fresh(objects - old(objects))
      ensures Resting(Conservation.FirstFill(params, arrivals, 0))
    {
      FirstArrivals(w);
      PushedIsNumbered(w, 0, Empty(), arrivals);
      FirstIsSound(arrivals);
      Refill(w, Empty(), arrivals);
    }

    lemma {:induction false} FirstArrivals(w: B.Workload)
      requires forall x: nat :: B.PushDummySeq(w, x).Success?
      ensures Arrivals(w, 0, Empty()) == Lifecycle.Pushed(w, 0, params.totalBatch)
      ensures Empty().queue == []
    {
      Conservation.EmptyHasNothing(Empty().batches);
    }

    lemma {:induction false} FirstIsSound(arrivals: seq<B.Request>)
      requires params.Valid() && Progress.AllReady(arrivals, 0.0)
      requires forall x: nat :: |Lifecycle.Of(arrivals, x)| <= if x < |arrivals| then 1 else 0
      ensures DistinctIds([] + arrivals)
      ensures B.FillRunningQueue(params, Empty().(queue := [] + arrivals)) ==
              Conservation.FirstFill(params, arrivals, 0)
      ensures var st := Conservation.FirstFill(params, arrivals, 0);
        Progress.Consistent(params, st) && Lifecycle.UniqueIds(st, |arrivals|)
    {
      assert [] + arrivals == arrivals;
      var st := Empty().(queue := arrivals);
      forall x: nat
        ensures |Lifecycle.Everywhere(st, x)| <= if x < |arrivals| then 1 else 0
        ensures |Lifecycle.Everywhere(B.FillRunningQueue(params, st), x)| <= if x < |arrivals| then 1 else 0
      {
        NobodyRuns(st.batches, x);
        Lifecycle.FillingKeepsOf(params, st, x);
        Lifecycle.SameSize(Lifecycle.Everywhere(B.FillRunningQueue(params, st), x), Lifecycle.Everywhere(st, x));
      }
      Lifecycle.UniqueInQueue(st, |arrivals|);
      Conservation.FirstFillIsConsistent(params, arrivals, 0);
    }

    lemma {:induction false} NobodyRuns(bs: seq<B.Batch>, x: nat)
      requires forall k | 0 <= k < |bs| :: bs[k] == []
      ensures Lifecycle.Of(Admission.Flat(bs), x) == []
    {
      if bs != [] {
        NobodyRuns(bs[1..], x);
        assert Admission.Flat(bs) == Admission.Flat(bs[1..]);
      }
    }

    lemma {:induction false} BatchesAreDistinct(st: B.State, n: nat)
      requires Lifecycle.UniqueIds(st, n)
      ensures forall k | 0 <= k < |st.batches| :: DistinctIds(st.batches[k])
      ensures forall k | 0 <= k < |st.batches| :: DistinctIds(B.SetMetadata(params, st).batches[k])
    {
      forall k | 0 <= k < |st.batches|
        ensures DistinctIds(st.batches[k]) && DistinctIds(B.SetMetadata(params, st).batches[k])
      {
        Lifecycle.UniqueInBatch(st, n, k);
      }
    }

    /** One round of the warm-up. */
    method WarmUpRound(w: B.Workload, ghost st: B.State) returns (ghost i: B.Input)
      requires Resting(st) && Usable(w)
      modifies this, running, objects
      ensures running == old(running) && fresh(objects - old(objects))
      ensures i.mode == B.WarmUp && Progress.Fits(i) && Resting(B.Round(params, st, i))
      ensures B.ClampedOutput(w) != 0 ==> Conservation.Asks(params, st, i)
    {
      BatchesAreDistinct(st, countId);
      SetMetadata(st);
      var tokens := UpdateScheduler(0.0, B.SetMetadata(params, st));
      i := Fill(w, B.Processed(params, st, B.WarmUp), B.WarmUp, st);
    }

    lemma {:induction false} WaitingIsNotNamed(st: B.State, time: real, n: nat)
      requires Lifecycle.UniqueIds(st, n)
      ensures NoneNamed(st.queue, B.Reported(B.SetMetadata(params, st), time))
    {
      var listed := B.Reported(B.SetMetadata(params, st), time);
      forall j, i | 0 <= j < |st.queue| && 0 <= i < |listed|
        ensures listed[i].id != st.queue[j].id
      {
        Lifecycle.WaitingIsNotReported(params, st, time, n, j, i);
      }
    }

    lemma {:induction false} AsksForMissing(w: B.Workload, n: nat, st: B.State, i: B.Input)
      requires Progress.Consistent(params, st) && B.TimeOf(i.mode) >= 0.0
      requires forall x: nat :: B.PushDummySeq(w, x).Success?
      requires i.arrivals == Arrivals(w, n, B.Processed(params, st, i.mode))
      ensures B.ClampedOutput(w) != 0 ==> Conservation.Asks(params, st, i)
    {
      var bs := B.Processed(params, st, i.mode).batches;
      Progress.ProcessedIsConsistent(params, st, i.mode);
      Admission.FreeIsRest(bs, params.Cap());
      Admission.FreeIsZero(bs, params.Cap());
      Admission.SlotsFit(params);
      Lifecycle.PushedCount(w, n, params.totalBatch - B.BatchSize(bs));
    }

    /** The clock moves on, and the batches are updated. */
    method Advance(time: real, ghost st: B.State) returns (tokens: seq<Sequence>)
      requires Represents(B.SetMetadata(params, st)) && Lifecycle.UniqueIds(st, countId)
      modifies `totalTime, running, objects
      ensures Represents(B.UpdateScheduler(B.SetMetadata(params, st), time).(now := st.now + time))
      ensures Told(tokens, B.Reported(B.SetMetadata(params, st), time), |running|)
      ensures forall s | s in tokens :: s in objects
    {
      BatchesAreDistinct(st, countId);
      totalTime := totalTime + time;
      tokens := UpdateScheduler(time, B.SetMetadata(params, st).(now := st.now + time));
    }

    lemma {:induction false} TimedState(time: real, st: B.State)
      ensures B.AddLatency(B.UpdateScheduler(B.SetMetadata(params, st), time).(now := st.now + time),
                           B.Reported(B.SetMetadata(params, st), time), st.now + time)
              == B.Processed(params, st, B.Timed(time))
    {
    }

    /** The clock moves on, the batches are updated, and the reported sequences are stamped. */
    method Report(time: real, ghost st: B.State)
      requires Represents(B.SetMetadata(params, st)) && Identified() && Lifecycle.UniqueIds(st, countId)
      modifies `totalTime, running, objects
      ensures Represents(B.Processed(params, st, B.Timed(time)))
    {
      var tokens := Advance(time, st);
      StampReported(tokens, time, st);
    }

    method StampReported(tokens: seq<Sequence>, time: real, ghost st: B.State)
      requires Identified() && Lifecycle.UniqueIds(st, countId)
      requires Represents(B.UpdateScheduler(B.SetMetadata(params, st), time).(now := st.now + time))
      requires Told(tokens, B.Reported(B.SetMetadata(params, st), time), |running|)
      requires forall s | s in tokens :: s in objects
      modifies objects
      ensures Represents(B.Processed(params, st, B.Timed(time)))
    {
      ghost var updated := B.UpdateScheduler(B.SetMetadata(params, st), time).(now := st.now + time);
      ghost var listed := B.Reported(B.SetMetadata(params, st), time);
      WaitingIsNotNamed(st, time, countId);
      TimedState(time, st);
      AddLatency(tokens, totalTime, updated, listed);
      SameState(B.AddLatency(updated, listed, totalTime), B.Processed(params, st, B.Timed(time)));
    }

    lemma {:induction false} SameState(st: B.State, st': B.State)
      requires st == st' && Represents(st)
      ensures Represents(st')
    {
    }

    /** One timed round; it ends early when no token is to be processed. */
    method MixedRound(time: real, w: B.Workload, ghost st: B.State) returns (ghost i: B.Input)
      requires Resting(st) && Usable(w) && time >= 0.0
      modifies this, running, objects
      ensures running == old(running) && fresh(objects - old(objects))
      ensures i.mode == B.Timed(time) && Progress.Fits(i) && Resting(B.Round(params, st, i))
      ensures B.ClampedOutput(w) != 0 ==> Conservation.Asks(params, st, i)
    {
      BatchesAreDistinct(st, countId);
      SetMetadata(st);
      var token := GetNumProcessToken(B.SetMetadata(params, st));
      if token == 0 {
        i := B.Input(B.Timed(time), []);
        Progress.SkippedIsSame(params, st);
      } else {
        i := TimedRound(time, w, st);
      }
    }

    method TimedRound(time: real, w: B.Workload, ghost st: B.State) returns (ghost i: B.Input)
      requires Represents(B.SetMetadata(params, st)) && Identified() && Lifecycle.UniqueIds(st, countId)
      requires Progress.Consistent(params, st) && Usable(w) && time >= 0.0 && !B.Skipped(params, st, B.Timed(time))
      modifies this, running, objects
      ensures running == old(running) && fresh(objects - old(objects))
      ensures i.mode == B.Timed(time) && Progress.Fits(i) && Resting(B.Round(params, st, i))
      ensures B.ClampedOutput(w) != 0 ==> Conservation.Asks(params, st, i)
    {
      Report(time, st);
      i := Fill(w, B.Processed(params, st, B.Timed(time)), B.Timed(time), st);
    }

    /** The object has gone through the states of a run that asks for what is missing. */
    ghost predicate Ran(st: B.State, inputs: seq<B.Input>, w: B.Workload)
      reads this, running, objects
    {
      && params.dp >= 1 && Progress.AllFit(inputs) && Resting(B.Run(params, st, inputs))
      && (B.ClampedOutput(w) != 0 ==> Conservation.Demanded(params, st, inputs))
    }

    lemma {:induction false} RanOn(st: B.State, inputs: seq<B.Input>, i: B.Input, w: B.Workload)
      requires params.dp >= 1 && Progress.AllFit(inputs) && Progress.Fits(i)
      requires B.ClampedOutput(w) != 0 ==>
        Conservation.Demanded(params, st, inputs) && Conservation.Asks(params, B.Run(params, st, inputs), i)
      requires Resting(B.Round(params, B.Run(params, st, inputs), i))
      ensures Ran(st, inputs + [i], w)
    {
      Conservation.RunAppend(params, st, inputs, i);
      if B.ClampedOutput(w) != 0 {
        Conservation.DemandedAppend(params, st, inputs, i);
      }
    }

    ghost predicate Untimed(inputs: seq<B.Input>) {
      forall j | 0 <= j < |inputs| :: inputs[j].mode == B.WarmUp
    }

    lemma {:induction false} UntimedOn(inputs: seq<B.Input>, i: B.Input)
      requires Untimed(inputs) && i.mode == B.WarmUp
      ensures Untimed(inputs + [i])
    {
    }

    /** The warm-up. */
    method HittingQueue(iter: nat, w: B.Workload, ghost st: B.State) returns (ghost inputs: seq<B.Input>)
      requires Resting(st) && Usable(w)
      modifies this, running, objects
      ensures |inputs| == iter && Ran(st, inputs, w) && Untimed(inputs)
    {
      inputs := [];
      for n := 0 to iter
        invariant |inputs| == n && Ran(st, inputs, w) && Untimed(inputs)
        invariant running == old(running) && fresh(objects - old(objects))
      {
        inputs := NextWarmUp(w, st, inputs);
      }
    }

    method NextWarmUp(w: B.Workload, ghost st: B.State, ghost before: seq<B.Input>) returns (ghost inputs: seq<B.Input>)
      requires Ran(st, before, w) && Usable(w) && Untimed(before)
      modifies this, running, objects
      ensures |inputs| == |before| + 1 && Ran(st, inputs, w) && Untimed(inputs)
      ensures running == old(running) && fresh(objects - old(objects))
    {
      ghost var i := WarmUpRound(w, B.Run(params, st, before));
      RanOn(st, before, i, w);
      UntimedOn(before, i);
      inputs := before + [i];
    }

    /** The first n rounds took the given times. */
    ghost predicate Clocked(inputs: seq<B.Input>, times: seq<real>, n: nat) {
      |inputs| == n <= |times| && forall j | 0 <= j < n :: inputs[j].mode == B.Timed(times[j])
    }

    lemma {:induction false} ClockedOn(inputs: seq<B.Input>, times: seq<real>, n: nat, i: B.Input)
      requires Clocked(inputs, times, n) && n < |times| && i.mode == B.Timed(times[n])
      ensures Clocked(inputs + [i], times, n + 1)
    {
    }

    /** The timed rounds, with the time each of them takes. */
    method RunIterationMixed(times: seq<real>, w: B.Workload, ghost st: B.State) returns (ghost inputs: seq<B.Input>)
      requires Resting(st) && Usable(w) && forall j | 0 <= j < |times| :: times[j] >= 0.0
      modifies this, running, objects
      ensures |inputs| == |times| && Ran(st, inputs, w)
      ensures Clocked(inputs, times, |times|)
    {
      inputs := [];
      for n := 0 to |times|
        invariant |inputs| == n && Ran(st, inputs, w)
        invariant Clocked(inputs, times, n)
        invariant running == old(running) && fresh(objects - old(objects))
      {
        inputs := NextRound(times, n, w, st, inputs);
      }
    }

    method NextRound(times: seq<real>, n: nat, w: B.Workload, ghost st: B.State, ghost before: seq<B.Input>)
      returns (ghost inputs: seq<B.Input>)
      requires n < |times| && times[n] >= 0.0 && Clocked(before, times, n)
      requires Ran(st, before, w) && Usable(w)
      modifies this, running, objects
      ensures Ran(st, inputs, w) && Clocked(inputs, times, n + 1)
      ensures running == old(running) && fresh(objects - old(objects))
    {
      ghost var i := MixedRound(times[n], w, B.Run(params, st, before));
      RanOn(st, before, i, w);
      ClockedOn(before, times, n, i);
      inputs := before + [i];
    }

    lemma {:induction false} TokensApart(tokens: seq<Sequence>, v: seq<B.Request>, k: nat, xs: seq<Sequence>,
                                         w: seq<B.Request>)
      requires Told(tokens, v, k) && Shows(xs, w, k)
      ensures forall j | 0 <= j < |tokens| :: tokens[j] !in xs
    {
    }

    method Drop(batch: BatchedSequence, s: Sequence, ghost all: seq<Sequence>, ghost u: B.Batch, ghost home: int,
                ghost i: nat, ghost kept: seq<Sequence>, ghost tokens: seq<Sequence>)
      requires i < |all| && s == all[i] && Settling(batch, all, u, home, i, kept, tokens) && B.Done(u[i])
      modifies batch
      ensures Settling(batch, all, u, home, i + 1, kept, tokens + [s])
    {
      NextSettled(u, i);
      PopOne(all, i, kept);
      batch.Pop(s);
    }

    method Record(batch: BatchedSequence, s: Sequence, ghost all: seq<Sequence>, ghost u: B.Batch, ghost home: int,
                  ghost i: nat, ghost kept: seq<Sequence>, ghost tokens: seq<Sequence>)
      requires i < |all| && s == all[i] && Settling(batch, all, u, home, i, kept, tokens) && B.Starts(u[i])
      modifies s
      ensures Settling(batch, all, u, home, i + 1, kept + [s], tokens + [s])
    {
      NextSettled(u, i);
      s.record := true;
      Regrouped(all, i, kept);
    }
  }

  /** The first i sequences of a batch are settled: kept or not, reported or not. */
  ghost predicate Settling(batch: BatchedSequence, all: seq<Sequence>, u: B.Batch, home: int, i: nat,
                           kept: seq<Sequence>, tokens: seq<Sequence>)
    reads batch, all, kept, tokens
  {
    && |all| == |u| && i <= |all| && Unalike(all)
    && (forall s | s in kept :: s in all) && (forall s | s in tokens :: s in all)
    && Clear(kept, all, i) && Clear(tokens, all, i)
    && batch.sequence == kept + all[i..]
    && Shows(kept, B.Remaining(u[..i]), home) && Shows(tokens, B.Listed(u[..i]), home)
    && forall j | i <= j < |all| :: all[j].View() == u[j] && all[j].home == home
  }

  /** None of xs is among the later ones. */
  ghost predicate Clear(xs: seq<Sequence>, all: seq<Sequence>, i: nat) {
    forall a, j | 0 <= a < |xs| && i <= j < |all| :: xs[a].id != all[j].id
  }

  lemma {:induction false} StartSettling(batch: BatchedSequence, all: seq<Sequence>, u: B.Batch, home: int)
    requires batch.sequence == all && Shows(all, u, home) && DistinctIds(u)
    ensures Settling(batch, all, u, home, 0, [], [])
  {
    assert forall i | 0 <= i < |all| :: all[i].id == u[i].id;
  }

  lemma {:induction false} Keep(batch: BatchedSequence, all: seq<Sequence>, u: B.Batch, home: int, i: nat,
             kept: seq<Sequence>, tokens: seq<Sequence>)
    requires i < |all| && Settling(batch, all, u, home, i, kept, tokens) && !B.Done(u[i]) && !B.Starts(u[i])
    ensures Settling(batch, all, u, home, i + 1, kept + [all[i]], tokens)
  {
    NextSettled(u, i);
    Regrouped(all, i, kept);
  }

  lemma {:induction false} EndSettling(batch: BatchedSequence, all: seq<Sequence>, u: B.Batch, home: int,
                                       kept: seq<Sequence>, tokens: seq<Sequence>)
    requires Settling(batch, all, u, home, |all|, kept, tokens)
    ensures Shows(batch.sequence, B.Remaining(u), home) && Shows(tokens, B.Listed(u), home)
    ensures (forall s | s in batch.sequence :: s in all) && forall s | s in tokens :: s in all
  {
    assert u[..|u|] == u && batch.sequence == kept;
  }

  lemma {:induction false} Regrouped(all: seq<Sequence>, i: nat, kept: seq<Sequence>)
    requires i < |all|
    ensures kept + all[i..] == (kept + [all[i]]) + all[i + 1..]
  {
  }

  /** All ids differ. */
  ghost predicate Unalike(xs: seq<Sequence>) {
    forall i, j | 0 <= i < j < |xs| :: xs[i].id != xs[j].id
  }

  lemma {:induction false} PopOne(all: seq<Sequence>, i: nat, kept: seq<Sequence>)
    requires Unalike(all) && i < |all| && Clear(kept, all, i)
    ensures Without(kept + all[i..], all[i].id) == kept + all[i + 1..]
  {
    var x, rest := all[i].id, all[i..];
    WithoutAppend(kept, rest, x);
    WithoutOthers(kept, x);
    assert rest[1..] == all[i + 1..];
    WithoutFirst(rest);
  }

  lemma {:induction false} WithoutFirst(xs: seq<Sequence>)
    requires xs != [] && Unalike(xs)
    ensures Without(xs, xs[0].id) == xs[1..]
  {
    WithoutOthers(xs[1..], xs[0].id);
  }

  lemma {:induction false} NextSize(bs: seq<B.Batch>, k: nat)
    requires k < |bs|
    ensures B.BatchSize(bs[..k + 1]) == B.BatchSize(bs[..k]) + |bs[k]|
  {
    if k == 0 {
      assert bs[..1] == [bs[0]];
    } else {
      NextSize(bs[1..], k - 1);
      assert bs[..k + 1][1..] == bs[1..][..k] && bs[..k][1..] == bs[1..][..k - 1];
    }
  }

  /** The configured lengths always yield sequences that are ready to be scheduled. */
  ghost predicate Usable(w: B.Workload) {
    forall x: nat :: (B.PushDummySeq(w, x).Success? &&
      (B.PushDummySeq(w, x).value.Some? ==> Progress.Ready(B.PushDummySeq(w, x).value.value, 0.0)))
  }

  lemma {:induction false} PushedAreReady(w: B.Workload, id: nat, n: nat)
    requires Usable(w)
    ensures Progress.AllReady(Lifecycle.Pushed(w, id, n), 0.0)
    decreases n
  {
    if n > 0 {
      match B.PushDummySeq(w, id).value {
        case None => PushedAreReady(w, id, n - 1);
        case Some(s) => PushedAreReady(w, id + 1, n - 1);
      }
    }
  }

  lemma {:induction false} NextTokens(bs: seq<B.Batch>, k: nat)
    requires k < |bs|
    ensures B.AllTokens(bs[..k + 1]) == B.AllTokens(bs[..k]) + B.Tokens(bs[k])
  {
    if k == 0 {
      assert bs[..1] == [bs[0]];
    } else {
      NextTokens(bs[1..], k - 1);
      assert bs[..k + 1][1..] == bs[1..][..k] && bs[..k][1..] == bs[1..][..k - 1];
    }
  }

  lemma {:induction false} NextListed(us: seq<B.Batch>, k: nat)
    requires k < |us|
    ensures B.ListedAll(us[..k + 1]) == B.ListedAll(us[..k]) + B.Listed(us[k])
  {
    if k == 0 {
      assert us[..1] == [us[0]];
      assert B.ListedAll([us[0]]) == B.Listed(us[0]) + B.ListedAll([]);
    } else {
      NextListed(us[1..], k - 1);
      assert us[..k + 1][1..] == us[1..][..k] && us[..k][1..] == us[1..][..k - 1];
      Regroup(B.Listed(us[0]), B.ListedAll(us[1..][..k - 1]), B.Listed(us[k]));
    }
  }

  lemma {:induction false} NextSettled(u: B.Batch, i: nat)
    requires i < |u|
    ensures B.Remaining(u[..i + 1]) == B.Remaining(u[..i]) + if B.Done(u[i]) then [] else [B.Recorded(u[i])]
    ensures B.Listed(u[..i + 1]) == B.Listed(u[..i]) + if B.Done(u[i]) || B.Starts(u[i]) then [B.Recorded(u[i])] else []
  {
    assert u[..i + 1] == u[..i] + [u[i]];
    Lifecycle.RemainingAppend(u[..i], [u[i]]);
    Lifecycle.ListedAppend(u[..i], [u[i]]);
  }
}
