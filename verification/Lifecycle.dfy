/** The life of one sequence: it is in exactly one place until it is done, and it is reported exactly
    once for its first token and once when it is done (src/scheduler/scheduler.cpp). */
module Lifecycle {
  import opened Basics
  import opened Batching
  import opened Admission
  import opened Progress

  /** The sequences with the given id. */
  function Of(b: seq<Request>, x: nat): seq<Request> {
    if b == [] then [] else (if b[0].id == x then [b[0]] else []) + Of(b[1..], x)
  }

  lemma {:induction false} OfAppend(a: seq<Request>, b: seq<Request>, x: nat)
    ensures Of(a + b, x) == Of(a, x) + Of(b, x)
  {
    if a == [] {
      assert a + b == b;
    } else {
      assert (a + b)[0] == a[0] && (a + b)[1..] == a[1..] + b;
      OfAppend(a[1..], b, x);
    }
  }

  /** Where a sequence is: among the running ones, then in the queue. */
  ghost function Everywhere(st: State, x: nat): seq<Request> {
    Of(Flat(st.batches), x) + Of(st.queue, x)
  }

  // ------------------------------------------------- batches as one list

  lemma {:induction false} UpdateAppend(a: Batch, b: Batch, time: real)
    ensures UpdateBatch(a + b, time) == UpdateBatch(a, time) + UpdateBatch(b, time)
  {
  }

  lemma {:induction false} RemainingAppend(a: Batch, b: Batch)
    ensures Remaining(a + b) == Remaining(a) + Remaining(b)
  {
    if a == [] {
      assert a + b == b;
    } else {
      assert (a + b)[0] == a[0] && (a + b)[1..] == a[1..] + b;
      RemainingAppend(a[1..], b);
      Regroup(if Done(a[0]) then [] else [Recorded(a[0])], Remaining(a[1..]), Remaining(b));
    }
  }

  lemma {:induction false} ListedAppend(a: Batch, b: Batch)
    ensures Listed(a + b) == Listed(a) + Listed(b)
  {
    if a == [] {
      assert a + b == b;
    } else {
      assert (a + b)[0] == a[0] && (a + b)[1..] == a[1..] + b;
      ListedAppend(a[1..], b);
      Regroup(if Done(a[0]) || Starts(a[0]) then [Recorded(a[0])] else [], Listed(a[1..]), Listed(b));
    }
  }

  lemma {:induction false} FlatUpdates(bs: seq<Batch>, time: real)
    ensures Flat(UpdateBatches(bs, time)) == UpdateBatch(Flat(bs), time)
  {
    if bs != [] {
      FlatUpdates(bs[1..], time);
      assert UpdateBatches(bs, time)[1..] == UpdateBatches(bs[1..], time);
      UpdateAppend(bs[0], Flat(bs[1..]), time);
    }
  }

  lemma {:induction false} FlatRemains(bs: seq<Batch>)
    ensures Flat(RemainingAll(bs)) == Remaining(Flat(bs))
    ensures ListedAll(bs) == Listed(Flat(bs))
  {
    if bs != [] {
      FlatRemains(bs[1..]);
      assert RemainingAll(bs)[1..] == RemainingAll(bs[1..]);
      RemainingAppend(bs[0], Flat(bs[1..]));
      ListedAppend(bs[0], Flat(bs[1..]));
    }
  }

  // ------------------------------------------ selecting commutes with work

  lemma {:induction false} OfUpdate(b: Batch, x: nat, time: real)
    ensures Of(UpdateBatch(b, time), x) == UpdateBatch(Of(b, x), time)
  {
    if b != [] {
      OfUpdate(b[1..], x, time);
      assert UpdateBatch(b, time)[1..] == UpdateBatch(b[1..], time);
      UpdateAppend(if b[0].id == x then [b[0]] else [], Of(b[1..], x), time);
    }
  }

  lemma {:induction false} OfRemaining(b: Batch, x: nat)
    ensures Of(Remaining(b), x) == Remaining(Of(b, x))
    ensures Of(Listed(b), x) == Listed(Of(b, x))
  {
    if b != [] {
      OfRemaining(b[1..], x);
      OfAppend(if Done(b[0]) then [] else [Recorded(b[0])], Remaining(b[1..]), x);
      OfAppend(if Done(b[0]) || Starts(b[0]) then [Recorded(b[0])] else [], Listed(b[1..]), x);
      RemainingAppend(if b[0].id == x then [b[0]] else [], Of(b[1..], x));
      ListedAppend(if b[0].id == x then [b[0]] else [], Of(b[1..], x));
    }
  }

  lemma {:induction false} OfAssign(b: Batch, r: Batch, x: nat, prefill: bool, share: nat, now: real)
    requires |r| == |b| && forall i | 0 <= i < |b| :: r[i] == Assign(b[i], prefill, share, now)
    ensures Of(r, x) == AssignBatch(Of(b, x), prefill, share, now)
  {
    if b != [] {
      OfAssign(b[1..], r[1..], x, prefill, share, now);
    }
  }

  /** The tokens given to a sequence: a piece of its remaining input, or one token. */
  ghost predicate Stepped(s: Request, s': Request) {
    s' == s.(process := s'.process) &&
    if Prefilling(s) then s.process == 0 ==> s.current + s'.process <= s.input
    else s.process == 0 ==> s'.process <= 1
  }

  lemma {:induction false} OfAssigned(bs: seq<Batch>, rs: seq<Batch>, x: nat, prefill: bool, shares: seq<nat>,
                                      now: real)
    requires |rs| == |bs| == |shares|
    requires forall k | 0 <= k < |bs| :: rs[k] == AssignBatch(bs[k], prefill, shares[k], now)
    ensures var a, r := Of(Flat(bs), x), Of(Flat(rs), x);
      |r| == |a| && forall i | 0 <= i < |a| :: Stepped(a[i], r[i])
  {
    if bs != [] {
      OfAssigned(bs[1..], rs[1..], x, prefill, shares[1..], now);
      OfAssign(bs[0], rs[0], x, prefill, shares[0], now);
      OfAppend(bs[0], Flat(bs[1..]), x);
      OfAppend(rs[0], Flat(rs[1..]), x);
    }
  }

  // ----------------------------------------------------------- one round

  /** Two views of a sequence that differ at most in when decoding may start. */
  ghost predicate Alike(s: Request, t: Request) {
    t == s.(genStart := t.genStart)
  }

  lemma {:induction false} OfAlike(a: seq<Request>, b: seq<Request>, x: nat)
    requires |b| == |a| && forall i | 0 <= i < |a| :: Alike(a[i], b[i])
    ensures |Of(b, x)| == |Of(a, x)| && forall i | 0 <= i < |Of(a, x)| :: Alike(Of(a, x)[i], Of(b, x)[i])
  {
    if a != [] {
      OfAlike(a[1..], b[1..], x);
    }
  }

  lemma {:induction false} FlatAlike(bs: seq<Batch>, cs: seq<Batch>)
    requires |bs| == |cs|
    requires forall k | 0 <= k < |bs| :: |bs[k]| == |cs[k]| && forall i | 0 <= i < |bs[k]| :: Alike(bs[k][i], cs[k][i])
    ensures |Flat(cs)| == |Flat(bs)| && forall i | 0 <= i < |Flat(bs)| :: Alike(Flat(bs)[i], Flat(cs)[i])
  {
    if bs != [] {
      FlatAlike(bs[1..], cs[1..]);
    }
  }

  lemma {:induction false} OfPermutation(xs: seq<Request>, ys: seq<Request>, x: nat)
    requires multiset(xs) == multiset(ys)
    ensures multiset(Of(xs, x)) == multiset(Of(ys, x))
  {
    if xs == [] {
      assert |ys| == |multiset(ys)| == 0;
    } else {
      assert xs[0] in multiset(ys);
      var j :| 0 <= j < |ys| && ys[j] == xs[0];
      assert ys == ys[..j] + ([ys[j]] + ys[j + 1..]);
      OfAppend(ys[..j], [ys[j]] + ys[j + 1..], x);
      OfAppend(ys[..j], ys[j + 1..], x);
      var rest := ys[..j] + ys[j + 1..];
      RestIsPermuted(xs, ys, j);
      OfPermutation(xs[1..], rest, x);
      assert ([ys[j]] + ys[j + 1..])[1..] == ys[j + 1..];
    }
  }

  lemma {:induction false} RestIsPermuted(xs: seq<Request>, ys: seq<Request>, j: nat)
    requires multiset(xs) == multiset(ys) && xs != [] && j < |ys| && ys[j] == xs[0]
    ensures multiset(xs[1..]) == multiset(ys[..j] + ys[j + 1..])
  {
    assert xs == [xs[0]] + xs[1..];
    assert ys == ys[..j] + ([ys[j]] + ys[j + 1..]);
    assert multiset(xs[1..]) == multiset(xs) - multiset{xs[0]};
    assert multiset(ys[..j] + ys[j + 1..]) == multiset(ys) - multiset{ys[j]};
  }

  /** Admission does not change the sequences with a given id. */
  lemma {:induction false} MovingKeepsOf(st: State, st': State, n: nat, x: nat)
    requires Moved(st, st', n)
    ensures multiset(Everywhere(st', x)) == multiset(Everywhere(st, x))
  {
    OfPermutation(Flat(st'.batches), Flat(st.batches) + st.queue[..n], x);
    OfAppend(Flat(st.batches), st.queue[..n], x);
    OfAppend(st.queue[..n], st.queue[n..], x);
    assert st.queue == st.queue[..n] + st.queue[n..];
  }

  // ---------------------------------------------------------------- events

  /** A sequence is named in the report of a round, as done or for its first token. */
  datatype Mention = Mention(round: nat, done: bool)

  function MentionsIn(listed: seq<Request>, x: nat, round: nat): seq<Mention> {
    var named := Of(listed, x);
    seq(|named|, i requires 0 <= i < |named| => Mention(round, Done(named[i])))
  }

  function Mentions(log: seq<seq<Request>>, x: nat, round: nat): seq<Mention> {
    if log == [] then [] else MentionsIn(log[0], x, round) + Mentions(log[1..], x, round + 1)
  }

  /** Tracked from its push on: it is recorded as started exactly when its input is read. */
  ghost predicate Tracked(s: Request, now: real) {
    Ready(s, now) && (s.record <==> !Prefilling(s))
  }

  /** What one round does to a sequence, with what it reports about it. */
  ghost predicate Outlives(s: Request, left: seq<Request>, ms: seq<Mention>, round: nat) {
    if left == [] then
      ms == [Mention(round, true)] && (s.record || s.input == s.total)
    else
      && |left| == 1 && left[0].input == s.input && left[0].total == s.total
      && (left[0].record <==> !Prefilling(left[0]))
      && if left[0].record == s.record then ms == [] else left[0].record && ms == [Mention(round, false)]
  }

  /** The sequences with a given id right after the batches are updated, and those reported. */
  lemma {:induction false} UpdatedOf(p: Params, st: State, time: real, x: nat) returns (r: seq<Request>)
    ensures var a := Of(Flat(st.batches), x);
      && r == Of(Flat(SetMetadata(p, st).batches), x)
      && |r| == |a| && (forall i | 0 <= i < |a| :: Stepped(a[i], r[i]))
      && Of(Flat(UpdateScheduler(SetMetadata(p, st), time).batches), x) == Remaining(UpdateBatch(r, time))
      && Of(Reported(SetMetadata(p, st), time), x) == Listed(UpdateBatch(r, time))
  {
    var rs := SetMetadata(p, st).batches;
    var shares := seq(|rs|, k requires 0 <= k < |rs| => Share(p, st.batches[k]));
    r := Of(Flat(rs), x);
    OfAssigned(st.batches, rs, x, HasPrefill(st.batches), shares, st.now);
    var us := UpdateBatches(rs, time);
    FlatUpdates(rs, time);
    FlatRemains(us);
    OfUpdate(Flat(rs), x, time);
    OfRemaining(Flat(us), x);
  }

  lemma {:induction false} StampedOf(st: State, listed: seq<Request>, now: real, x: nat)
    ensures var a, b := Of(Flat(st.batches), x), Of(Flat(AddLatency(st, listed, now).batches), x);
      |b| == |a| && forall i | 0 <= i < |a| :: Alike(a[i], b[i])
  {
    var bs := AddLatency(st, listed, now).batches;
    FlatAlike(st.batches, bs);
    OfAlike(Flat(st.batches), Flat(bs), x);
  }

  lemma {:induction false} ProcessedOf(p: Params, st: State, mode: Mode, x: nat)
    ensures var a := Of(Flat(UpdateScheduler(SetMetadata(p, st), TimeOf(mode)).batches), x);
      var b := Of(Flat(Processed(p, st, mode).batches), x);
      |b| == |a| && forall i | 0 <= i < |a| :: Alike(a[i], b[i])
  {
    match mode {
      case WarmUp =>
      case Timed(time) =>
        var ready := SetMetadata(p, st);
        StampedOf(UpdateScheduler(ready, time), Reported(ready, time), st.now + time, x);
    }
  }

  /** A running sequence goes on, is recorded and reported, or is done, reported and gone. */
  lemma {:induction false} RunningOutlives(p: Params, st: State, mode: Mode, x: nat, s: Request, round: nat)
    requires Of(Flat(st.batches), x) == [s] && Tracked(s, st.now)
    ensures Outlives(s, Of(Flat(Processed(p, st, mode).batches), x),
                     MentionsIn(Reported(SetMetadata(p, st), TimeOf(mode)), x, round), round)
  {
    var time := TimeOf(mode);
    var r := UpdatedOf(p, st, time, x);
    ProcessedOf(p, st, mode, x);
    var u := Update(r[0], time);
    OneUpdates(r, time);
  }

  lemma {:induction false} OneUpdates(r: Batch, time: real)
    requires |r| == 1
    ensures var u := Update(r[0], time);
      && UpdateBatch(r, time) == [u]
      && Remaining([u]) == (if Done(u) then [] else [Recorded(u)])
      && Listed([u]) == if Done(u) || Starts(u) then [Recorded(u)] else []
  {
    assert UpdateBatch(r, time) == [Update(r[0], time)];
  }

  lemma {:induction false} AbsentStaysAbsent(p: Params, st: State, mode: Mode, x: nat, round: nat)
    requires Of(Flat(st.batches), x) == []
    ensures Of(Flat(Processed(p, st, mode).batches), x) == []
    ensures MentionsIn(Reported(SetMetadata(p, st), TimeOf(mode)), x, round) == []
  {
    var r := UpdatedOf(p, st, TimeOf(mode), x);
    ProcessedOf(p, st, mode, x);
    assert UpdateBatch(r, TimeOf(mode)) == [];
  }

  lemma {:induction false} PushedOf(st: State, arrivals: seq<Request>, x: nat)
    ensures Everywhere(st.(queue := st.queue + arrivals), x) == Everywhere(st, x) + Of(arrivals, x)
  {
    OfAppend(st.queue, arrivals, x);
  }

  lemma {:induction false} FillingKeepsOf(p: Params, st: State, x: nat)
    requires |st.batches| == p.dp && p.Valid() && Bounded(st.batches, p.Cap())
    ensures multiset(Everywhere(FillRunningQueue(p, st), x)) == multiset(Everywhere(st, x))
  {
    FillAdmitsPrefix(p, st);
    MovingKeepsOf(st, FillRunningQueue(p, st), Admissible(p, st), x);
  }

  /** Filling neither adds nor loses a sequence. */
  lemma {:induction false} RoundFills(p: Params, st: State, i: Input, x: nat)
    requires Consistent(p, st) && Fits(i) && !Skipped(p, st, i.mode)
    ensures multiset(Everywhere(Round(p, st, i), x)) ==
            multiset(Everywhere(Processed(p, st, i.mode), x) + Of(i.arrivals, x))
  {
    var done := Processed(p, st, i.mode);
    ProcessedIsConsistent(p, st, i.mode);
    PushedOf(done, i.arrivals, x);
    FillingKeepsOf(p, done.(queue := done.queue + i.arrivals), x);
  }

  lemma {:induction false} SameFew<T>(xs: seq<T>, ys: seq<T>)
    requires multiset(xs) == multiset(ys) && |ys| <= 1
    ensures xs == ys
  {
    assert |xs| == |multiset(xs)| == |multiset(ys)| == |ys|;
    if |ys| == 1 {
      assert ys == [ys[0]];
      assert xs[0] in multiset(xs);
    }
  }

  /** A waiting sequence goes on unchanged; a running one as its batch does. */
  lemma {:induction false} ProcessedOutlives(p: Params, st: State, mode: Mode, x: nat, s: Request, round: nat)
    requires Consistent(p, st) && TimeOf(mode) >= 0.0
    requires Everywhere(st, x) == [s] && Tracked(s, st.now)
    ensures Outlives(s, Everywhere(Processed(p, st, mode), x),
                     MentionsIn(Reported(SetMetadata(p, st), TimeOf(mode)), x, round), round)
  {
    ProcessedIsConsistent(p, st, mode);
    if Of(Flat(st.batches), x) == [] {
      AbsentStaysAbsent(p, st, mode, x, round);
    } else {
      assert Of(Flat(st.batches), x) == [s] && Of(st.queue, x) == [];
      RunningOutlives(p, st, mode, x, s, round);
      var left := Of(Flat(Processed(p, st, mode).batches), x);
      assert Everywhere(Processed(p, st, mode), x) == left;
    }
  }

  /** One round in the life of a sequence, wherever it is. */
  lemma {:induction false} RoundOutlives(p: Params, st: State, i: Input, x: nat, s: Request, round: nat)
    requires Consistent(p, st) && Fits(i) && Of(i.arrivals, x) == []
    requires Everywhere(st, x) == [s] && Tracked(s, st.now)
    ensures Outlives(s, Everywhere(Round(p, st, i), x), MentionsIn(ReportedIn(p, st, i.mode), x, round), round)
  {
    if Skipped(p, st, i.mode) {
      SkippedIsSame(p, st);
    } else {
      ProcessedOutlives(p, st, i.mode, x, s, round);
      RoundFills(p, st, i, x);
      var left := Everywhere(Processed(p, st, i.mode), x);
      assert left + [] == left;
      SameFew(Everywhere(Round(p, st, i), x), left);
    }
  }

  /** What a run reports about a sequence: once for its first token, if it was not recorded and has more to
      generate, and later once when it is done, if it is no longer there. */
  ghost predicate Story(s: Request, over: bool, ms: seq<Mention>) {
    if over && !s.record && s.input < s.total then
      |ms| == 2 && !ms[0].done && ms[1].done && ms[0].round < ms[1].round
    else if over then
      |ms| == 1 && ms[0].done
    else
      ms == [] || (!s.record && |ms| == 1 && !ms[0].done)
  }

  lemma {:induction false} NotMentioned(p: Params, st: State, inputs: seq<Input>, x: nat, round: nat)
    requires Consistent(p, st) && AllFit(inputs) && Everywhere(st, x) == []
    requires forall j | 0 <= j < |inputs| :: Of(inputs[j].arrivals, x) == []
    ensures Everywhere(Run(p, st, inputs), x) == [] && Mentions(Reports(p, st, inputs), x, round) == []
    decreases |inputs|
  {
    if inputs != [] {
      RoundStaysAbsent(p, st, inputs[0], x, round);
      RoundIsConsistent(p, st, inputs[0]);
      NotMentioned(p, Round(p, st, inputs[0]), inputs[1..], x, round + 1);
    }
  }

  lemma {:induction false} RoundStaysAbsent(p: Params, st: State, i: Input, x: nat, round: nat)
    requires Consistent(p, st) && Fits(i) && Everywhere(st, x) == [] && Of(i.arrivals, x) == []
    ensures Everywhere(Round(p, st, i), x) == [] && MentionsIn(ReportedIn(p, st, i.mode), x, round) == []
  {
    if Skipped(p, st, i.mode) {
      SkippedIsSame(p, st);
    } else {
      AbsentStaysAbsent(p, st, i.mode, x, round);
      ProcessedIsConsistent(p, st, i.mode);
      RoundFills(p, st, i, x);
      SameFew(Everywhere(Round(p, st, i), x), []);
    }
  }

  /** A sequence pushed in a round is in the queue or in a batch after it. */
  lemma {:induction false} PushedIsThere(p: Params, st: State, i: Input, x: nat, s: Request)
    requires Consistent(p, st) && Fits(i) && !Skipped(p, st, i.mode)
    requires Everywhere(st, x) == [] && Of(i.arrivals, x) == [s]
    ensures Everywhere(Round(p, st, i), x) == [s]
  {
    AbsentStaysAbsent(p, st, i.mode, x, 0);
    ProcessedIsConsistent(p, st, i.mode);
    RoundFills(p, st, i, x);
    assert Everywhere(Processed(p, st, i.mode), x) + [s] == [s];
    SameFew(Everywhere(Round(p, st, i), x), [s]);
  }

  /** Mentions of later rounds carry later round numbers. */
  lemma {:induction false} MentionsAreLater(log: seq<seq<Request>>, x: nat, round: nat)
    ensures forall i | 0 <= i < |Mentions(log, x, round)| :: round <= Mentions(log, x, round)[i].round
  {
    if log != [] {
      MentionsAreLater(log[1..], x, round + 1);
    }
  }

  /** After a run there is at most one sequence with the id, and the run has reported it as its story says. */
  ghost predicate ToldOnce(p: Params, st: State, inputs: seq<Input>, x: nat, s: Request, round: nat)
    requires p.dp >= 1
  {
    var left := Everywhere(Run(p, st, inputs), x);
    |left| <= 1 && Story(s, left == [], Mentions(Reports(p, st, inputs), x, round))
  }

  /** Over any run a sequence is in exactly one place until it is done, and it is reported exactly once for its
      first token and once, strictly later, when it is done. */
  lemma {:induction false} ReportedExactlyOnce(p: Params, st: State, inputs: seq<Input>, x: nat, s: Request, round: nat)
    requires Consistent(p, st) && AllFit(inputs) && Everywhere(st, x) == [s] && Tracked(s, st.now)
    requires forall j | 0 <= j < |inputs| :: Of(inputs[j].arrivals, x) == []
    ensures ToldOnce(p, st, inputs, x, s, round)
    decreases |inputs|
  {
    if inputs != [] {
      var i, st1 := inputs[0], Round(p, st, inputs[0]);
      RoundOutlives(p, st, i, x, s, round);
      RoundIsConsistent(p, st, i);
      if Everywhere(st1, x) == [] {
        StoryEnds(p, st, inputs, x, s, round);
      } else {
        var s1 := StillThere(p, st1, x, s, MentionsIn(ReportedIn(p, st, i.mode), x, round), round);
        ReportedExactlyOnce(p, st1, inputs[1..], x, s1, round + 1);
        StoryGoesOn(p, st, inputs, x, s, s1, round);
      }
    }
  }

  lemma {:induction false} StoryEnds(p: Params, st: State, inputs: seq<Input>, x: nat, s: Request, round: nat)
    requires p.dp >= 1 && inputs != [] && AllFit(inputs) && Consistent(p, Round(p, st, inputs[0]))
    requires forall j | 0 <= j < |inputs| :: Of(inputs[j].arrivals, x) == []
    requires Everywhere(Round(p, st, inputs[0]), x) == []
    requires Outlives(s, [], MentionsIn(ReportedIn(p, st, inputs[0].mode), x, round), round)
    ensures ToldOnce(p, st, inputs, x, s, round)
  {
    MentionsSplit(p, st, inputs, x, round);
    NotMentioned(p, Round(p, st, inputs[0]), inputs[1..], x, round + 1);
  }

  lemma {:induction false} StoryGoesOn(p: Params, st: State, inputs: seq<Input>, x: nat, s: Request, s1: Request,
                                       round: nat)
    requires p.dp >= 1 && inputs != [] && (s.record ==> s1.record) && (s1.record ==> s1.input < s1.total)
    requires Outlives(s, [s1], MentionsIn(ReportedIn(p, st, inputs[0].mode), x, round), round)
    requires ToldOnce(p, Round(p, st, inputs[0]), inputs[1..], x, s1, round + 1)
    ensures ToldOnce(p, st, inputs, x, s, round)
  {
    var st1, rest := Round(p, st, inputs[0]), inputs[1..];
    MentionsSplit(p, st, inputs, x, round);
    MentionsAreLater(Reports(p, st1, rest), x, round + 1);
    StoryContinues(s, s1, Everywhere(Run(p, st1, rest), x) == [], round,
                   MentionsIn(ReportedIn(p, st, inputs[0].mode), x, round),
                   Mentions(Reports(p, st1, rest), x, round + 1));
  }

  lemma {:induction false} MentionsSplit(p: Params, st: State, inputs: seq<Input>, x: nat, round: nat)
    requires p.dp >= 1 && inputs != []
    ensures Run(p, st, inputs) == Run(p, Round(p, st, inputs[0]), inputs[1..])
    ensures Mentions(Reports(p, st, inputs), x, round) ==
      MentionsIn(ReportedIn(p, st, inputs[0].mode), x, round)
      + Mentions(Reports(p, Round(p, st, inputs[0]), inputs[1..]), x, round + 1)
  {
    assert Reports(p, st, inputs)[1..] == Reports(p, Round(p, st, inputs[0]), inputs[1..]);
  }

  /** A sequence that outlives a round is the only one with its id, and is ready to go on. */
  lemma {:induction false} StillThere(p: Params, st1: State, x: nat, s: Request, here: seq<Mention>, round: nat)
    returns (s1: Request)
    requires Consistent(p, st1) && Everywhere(st1, x) != [] && Outlives(s, Everywhere(st1, x), here, round)
    ensures Everywhere(st1, x) == [s1] && Ready(s1, st1.now) && Outlives(s, [s1], here, round)
  {
    s1 := Everywhere(st1, x)[0];
    assert Everywhere(st1, x) == [s1];
    PresentIsReady(p, st1, x);
  }

  lemma {:induction false} StoryContinues(s: Request, s1: Request, over: bool, round: nat, here: seq<Mention>,
                                          later: seq<Mention>)
    requires Outlives(s, [s1], here, round) && Story(s1, over, later)
    requires forall i | 0 <= i < |later| :: round + 1 <= later[i].round
    requires s1.record ==> s1.input < s1.total
    requires s.record ==> s1.record
    ensures Story(s, over, here + later)
  {
  }

  lemma {:induction false} OfIsIn(b: seq<Request>, x: nat)
    ensures forall s | s in Of(b, x) :: s in b && s.id == x
  {
    if b != [] {
      OfIsIn(b[1..], x);
    }
  }

  lemma {:induction false} PresentIsReady(p: Params, st: State, x: nat)
    requires Consistent(p, st)
    ensures forall i | 0 <= i < |Everywhere(st, x)| :: Ready(Everywhere(st, x)[i], st.now)
  {
    OfIsIn(Flat(st.batches), x);
    OfIsIn(st.queue, x);
    FlatIsReady(st.batches, st.now);
    forall i | 0 <= i < |Everywhere(st, x)|
      ensures Ready(Everywhere(st, x)[i], st.now)
    {
      var s := Everywhere(st, x)[i];
      assert s in Everywhere(st, x);
    }
  }

  // ------------------------------------------------------------------- ids

  /** No two sequences share an id, and the ids from n on are not used yet. */
  ghost predicate UniqueIds(st: State, n: nat) {
    forall x: nat :: |Everywhere(st, x)| <= if x < n then 1 else 0
  }

  /** The sequences one push creates, numbered from the given id on. */
  function Pushed(w: Workload, id: nat, n: nat): (r: seq<Request>)
    requires forall x: nat :: PushDummySeq(w, x).Success?
    decreases n
  {
    if n == 0 then []
    else
      match PushDummySeq(w, id).value
      case None => Pushed(w, id, n - 1)
      case Some(s) => [s] + Pushed(w, id + 1, n - 1)
  }

  /** A push with the same lengths yields a sequence every time, or never. */
  lemma {:induction false} PushedCount(w: Workload, id: nat, n: nat)
    requires forall x: nat :: PushDummySeq(w, x).Success?
    ensures |Pushed(w, id, n)| == if ClampedOutput(w) == 0 then 0 else n
    decreases n
  {
    if n > 0 {
      PushedCount(w, if ClampedOutput(w) == 0 then id else id + 1, n - 1);
    }
  }

  lemma {:induction false} PushedAreNew(w: Workload, id: nat, n: nat, x: nat)
    requires forall y: nat :: PushDummySeq(w, y).Success?
    ensures |Of(Pushed(w, id, n), x)| == if id <= x < id + |Pushed(w, id, n)| then 1 else 0
    decreases n
  {
    if n > 0 {
      match PushDummySeq(w, id).value {
        case None => PushedAreNew(w, id, n - 1, x);
        case Some(s) =>
          PushedAreNew(w, id + 1, n - 1, x);
          assert s.id == id;
      }
    }
  }

  lemma {:induction false} ProcessedHasNoMore(p: Params, st: State, mode: Mode, x: nat)
    ensures |Everywhere(Processed(p, st, mode), x)| <= |Everywhere(st, x)|
  {
    var r := UpdatedOf(p, st, TimeOf(mode), x);
    ProcessedOf(p, st, mode, x);
    RemainingIsFewer(UpdateBatch(r, TimeOf(mode)));
  }

  lemma {:induction false} RemainingIsFewer(b: Batch)
    ensures |Remaining(b)| <= |b|
  {
    if b != [] {
      RemainingIsFewer(b[1..]);
    }
  }

  /** Ids stay unique when the new sequences are numbered on. */
  lemma {:induction false} RoundKeepsUnique(p: Params, st: State, i: Input, n: nat, n': nat)
    requires Consistent(p, st) && Fits(i) && UniqueIds(st, n) && n <= n'
    requires forall x: nat :: |Of(i.arrivals, x)| <= if n <= x < n' then 1 else 0
    ensures UniqueIds(Round(p, st, i), n')
  {
    forall x: nat
      ensures |Everywhere(Round(p, st, i), x)| <= if x < n' then 1 else 0
    {
      if Skipped(p, st, i.mode) {
        SkippedIsSame(p, st);
      } else {
        ProcessedHasNoMore(p, st, i.mode, x);
        RoundFills(p, st, i, x);
        SameSize(Everywhere(Round(p, st, i), x), Everywhere(Processed(p, st, i.mode), x) + Of(i.arrivals, x));
      }
    }
  }

  lemma {:induction false} SameSize<T>(xs: seq<T>, ys: seq<T>)
    requires multiset(xs) == multiset(ys)
    ensures |xs| == |ys|
  {
    assert |xs| == |multiset(xs)| && |ys| == |multiset(ys)|;
  }

  lemma {:induction false} OfHas(b: seq<Request>, i: nat, j: nat)
    requires i < j < |b| && b[i].id == b[j].id
    ensures |Of(b, b[i].id)| >= 2
  {
    if i > 0 {
      OfHas(b[1..], i - 1, j - 1);
    } else {
      OfHasOne(b[1..], j - 1);
    }
  }

  lemma {:induction false} OfHasOne(b: seq<Request>, j: nat)
    requires j < |b|
    ensures |Of(b, b[j].id)| >= 1
  {
    if j > 0 {
      OfHasOne(b[1..], j - 1);
    }
  }

  lemma {:induction false} BatchHasFewer(bs: seq<Batch>, k: nat, x: nat)
    requires k < |bs|
    ensures |Of(bs[k], x)| <= |Of(Flat(bs), x)|
  {
    OfAppend(bs[0], Flat(bs[1..]), x);
    if k > 0 {
      BatchHasFewer(bs[1..], k - 1, x);
    }
  }

  /** Within a batch all ids differ. */
  lemma {:induction false} UniqueInBatch(st: State, n: nat, k: nat)
    requires UniqueIds(st, n) && k < |st.batches|
    ensures forall i, j | 0 <= i < j < |st.batches[k]| :: st.batches[k][i].id != st.batches[k][j].id
  {
    var b := st.batches[k];
    forall i, j | 0 <= i < j < |b|
      ensures b[i].id != b[j].id
    {
      BatchHasFewer(st.batches, k, b[i].id);
      assert |Everywhere(st, b[i].id)| <= 1;
      if b[i].id == b[j].id {
        OfHas(b, i, j);
      }
    }
  }

  /** Pushing newly numbered sequences keeps ids unique. */
  lemma {:induction false} PushKeepsUnique(st: State, arrivals: seq<Request>, n: nat, n': nat)
    requires UniqueIds(st, n) && n <= n'
    requires forall x: nat :: |Of(arrivals, x)| <= if n <= x < n' then 1 else 0
    ensures UniqueIds(st.(queue := st.queue + arrivals), n')
  {
    forall x: nat
      ensures |Everywhere(st.(queue := st.queue + arrivals), x)| <= if x < n' then 1 else 0
    {
      PushedOf(st, arrivals, x);
    }
  }

  lemma {:induction false} ProcessedIsUnique(p: Params, st: State, mode: Mode, n: nat)
    requires UniqueIds(st, n)
    ensures UniqueIds(Processed(p, st, mode), n)
  {
    forall x: nat
      ensures |Everywhere(Processed(p, st, mode), x)| <= if x < n then 1 else 0
    {
      ProcessedHasNoMore(p, st, mode, x);
    }
  }

  lemma {:induction false} UniqueInQueue(st: State, n: nat)
    requires UniqueIds(st, n)
    ensures forall i, j | 0 <= i < j < |st.queue| :: st.queue[i].id != st.queue[j].id
  {
    var b := st.queue;
    forall i, j | 0 <= i < j < |b|
      ensures b[i].id != b[j].id
    {
      assert |Everywhere(st, b[i].id)| <= 1;
      if b[i].id == b[j].id {
        OfHas(b, i, j);
      }
    }
  }

  /** No waiting sequence is reported. */
  lemma {:induction false} WaitingIsNotReported(p: Params, st: State, time: real, n: nat, j: nat, i: nat)
    requires UniqueIds(st, n) && j < |st.queue| && i < |Reported(SetMetadata(p, st), time)|
    ensures Reported(SetMetadata(p, st), time)[i].id != st.queue[j].id
  {
    var x := st.queue[j].id;
    OfHasOne(st.queue, j);
    assert |Everywhere(st, x)| <= 1;
    AbsentStaysAbsent(p, st, Timed(time), x, 0);
    assert |MentionsIn(Reported(SetMetadata(p, st), time), x, 0)| == 0;
    if Reported(SetMetadata(p, st), time)[i].id == x {
      OfHasOne(Reported(SetMetadata(p, st), time), i);
    }
  }
}
