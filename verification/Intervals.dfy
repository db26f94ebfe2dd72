/** The intervals that a run writes into its stamps: where each starts and ends on the reference's clock, how long it
    lasts, and how the intervals of a device lie within and beside each other (src/module/timeboard.cpp). */
module Intervals {
  import opened ModuleGraph
  import opened LockStep
  import opened Trees
  import opened StampBoard
  import opened Timeline

  // --------------------------------------------------------------- waiting

  /** How long device d waits at node p for the others of its group. */
  ghost function WaitAt(plan: Plan, d: nat, p: nat): real
    requires p < |plan.nodes|
  {
    if plan.IsSync(p) then Barrier(plan, plan.group(d, p), p) - At(plan, d, p).time else 0.0
  }

  /** How long it waits at the n nodes from p on. */
  ghost function Waits(plan: Plan, d: nat, p: nat, n: nat): real
    requires p + n <= |plan.nodes|
    decreases n
  {
    if n == 0 then 0.0 else WaitAt(plan, d, p) + Waits(plan, d, p + 1, n - 1)
  }

  lemma {:induction false} WaitsSplit(plan: Plan, d: nat, p: nat, k: nat, n: nat)
    requires p + k + n <= |plan.nodes|
    ensures Waits(plan, d, p, k + n) == Waits(plan, d, p, k) + Waits(plan, d, p + k, n)
    decreases k
  {
    if k > 0 {
      WaitsSplit(plan, d, p + 1, k - 1, n);
    }
  }

  lemma {:induction false} WaitsOne(plan: Plan, d: nat, p: nat)
    requires p < |plan.nodes|
    ensures Waits(plan, d, p, 1) == WaitAt(plan, d, p)
  {
    assert Waits(plan, d, p + 1, 0) == 0.0;
  }

  /** Nobody waits for less than no time, and only at barriers. */
  lemma {:induction false} WaitsOnlyAtBarriers(plan: Plan, d: nat, p: nat, n: nat)
    requires plan.Agrees() && d < plan.devices && p + n <= |plan.nodes|
    ensures Waits(plan, d, p, n) >= 0.0
    ensures NoBarrier(plan, p, n) ==> Waits(plan, d, p, n) == 0.0
    decreases n
  {
    if n > 0 {
      if plan.IsSync(p) {
        assert plan.GroupsAgree(d, p);
        BarrierIsLatest(plan, plan.group(d, p), p, d);
      }
      WaitsOnlyAtBarriers(plan, d, p + 1, n - 1);
    }
  }

  /** Over n nodes from position p a device's clock advances by x and the time it waits. */
  ghost predicate Lasts(plan: Plan, d: nat, p: nat, n: nat, x: real)
    requires p + n <= |plan.nodes|
  {
    At(plan, d, p + n).time == At(plan, d, p).time + x + Waits(plan, d, p, n)
  }

  lemma {:induction false} LastsBoth(plan: Plan, d: nat, p: nat, k: nat, n: nat, x: real, y: real)
    requires p + k + n <= |plan.nodes|
    requires Lasts(plan, d, p, k, x) && Lasts(plan, d, p + k, n, y)
    ensures Lasts(plan, d, p, k + n, x + y)
  {
    WaitsSplit(plan, d, p, k, n);
  }

  lemma {:induction false} LastsOne(plan: Plan, d: nat, p: nat)
    requires p < |plan.nodes|
    ensures Lasts(plan, d, p, 1, plan.Takes(d, p))
  {
    WaitsOne(plan, d, p);
  }

  /** A call lasts exactly as long as the work inside it and the time spent waiting at barriers inside it. */
  lemma {:induction false} TimeOfModule(plan: Plan, d: nat, m: Module, p: nat)
    requires Stands(plan, m, p)
    ensures Lasts(plan, d, p, |Graph(m)|, DurationOf(plan, d, m, p))
    decreases m, 0
  {
    var n, q := |GraphOf(m.calls)|, p + |Graph(m)| - 1;
    LastsOne(plan, d, p);
    TimeOfModules(plan, d, m.calls, p + 1);
    LastsOne(plan, d, q);
    var push, all := plan.Takes(d, p), DurationOfAll(plan, d, m.calls, p + 1);
    LastsBoth(plan, d, p, 1, n, push, all);
    LastsBoth(plan, d, p, 1 + n, 1, push + all, plan.Takes(d, q));
  }

  lemma {:induction false} TimeOfModules(plan: Plan, d: nat, ms: seq<Module>, p: nat)
    requires StandAll(plan, ms, p)
    ensures Lasts(plan, d, p, |GraphOf(ms)|, DurationOfAll(plan, d, ms, p))
    decreases ms, 1
  {
    if ms != [] {
      var k := |Graph(ms[0])|;
      TimeOfModule(plan, d, ms[0], p);
      TimeOfModules(plan, d, ms[1..], p + k);
      LastsBoth(plan, d, p, k, |GraphOf(ms[1..])|, DurationOf(plan, d, ms[0], p),
                DurationOfAll(plan, d, ms[1..], p + k));
    }
  }

  // ------------------------------------------------------ what stamps record

  /** The stamp of a call of m at p on device d: the module's name, the reference's clock at its push and after its
      pop, and the work done in between; and below it the stamps of the calls inside, in order. */
  ghost predicate Records(plan: Plan, d: nat, m: Module, p: nat, t: Tree<Stamp>)
    requires p + |Graph(m)| <= |plan.nodes|
    decreases m, 0
  {
    var s, q := t.value, p + |Graph(m)|;
    && s.name == plan.name(d, p)
    && s.start == At(plan, d, p).time && s.end == At(plan, d, q).time
    && s.end - s.start == DurationOf(plan, d, m, p) + Waits(plan, d, p, q - p)
    && s.energy == AmountOf(plan, d, m, p, Energy) && s.flops == AmountOf(plan, d, m, p, Flops)
    && RecordsAll(plan, d, m.calls, p + 1, t.children)
  }

  ghost predicate RecordsAll(plan: Plan, d: nat, ms: seq<Module>, p: nat, ts: seq<Tree<Stamp>>)
    requires p + |GraphOf(ms)| <= |plan.nodes|
    decreases ms, 1
  {
    if ms == [] then ts == []
    else
      && ts != []
      && Records(plan, d, ms[0], p, ts[0])
      && RecordsAll(plan, d, ms[1..], p + |Graph(ms[0])|, ts[1..])
  }

  lemma {:induction false} StampRecords(plan: Plan, d: nat, m: Module, p: nat, level: int)
    requires Stands(plan, m, p)
    ensures Records(plan, d, m, p, StampTree(Timed(plan, d, m, p), level))
    decreases m, 0
  {
    TimeOfModule(plan, d, m, p);
    StampAmount(plan, d, m, p, level, Energy);
    StampAmount(plan, d, m, p, level, Flops);
    StampsRecord(plan, d, m.calls, p + 1, level + 1);
  }

  lemma {:induction false} StampsRecord(plan: Plan, d: nat, ms: seq<Module>, p: nat, level: int)
    requires StandAll(plan, ms, p)
    ensures RecordsAll(plan, d, ms, p, StampForest(TimedCalls(plan, d, ms, p), level))
    decreases ms, 1
  {
    if ms != [] {
      var rest := TimedCalls(plan, d, ms[1..], p + |Graph(ms[0])|);
      StampRecords(plan, d, ms[0], p, level);
      StampsRecord(plan, d, ms[1..], p + |Graph(ms[0])|, level);
      assert TimedCalls(plan, d, ms, p)[1..] == rest;
      var ts := StampForest(TimedCalls(plan, d, ms, p), level);
      assert ts[1..] == StampForest(rest, level);
    }
  }

  // ------------------------------------------------------- nested intervals

  /** The intervals of neighbouring stamps lie between two times, one after another, each with those of the stamps
      below it inside. */
  ghost predicate Spans(ts: seq<Tree<Stamp>>, from: real, to: real) {
    if ts == [] then from <= to
    else
      var s := ts[0].value;
      && from <= s.start <= s.end
      && Spans(ts[0].children, s.start, s.end) && Spans(ts[1..], s.end, to)
  }

  lemma {:induction false} ClockAdvances(plan: Plan, d: nat, p: nat)
    requires plan.Agrees() && plan.NoTimeBack() && d < plan.devices && p < |plan.nodes|
    ensures At(plan, d, p).time <= At(plan, d, p + 1).time
  {
    LastsOne(plan, d, p);
    WaitsOnlyAtBarriers(plan, d, p, 1);
  }

  lemma {:induction false} ClockIsNotNegative(plan: Plan, d: nat, p: nat)
    requires plan.Agrees() && plan.NoTimeBack() && d < plan.devices && p <= |plan.nodes|
    ensures At(plan, d, p).time >= 0.0
  {
    if p > 0 {
      ClockIsNotNegative(plan, d, p - 1);
      ClockAdvances(plan, d, p - 1);
    }
  }

  /** A barrier ends when the last member of the group arrives. */
  lemma {:induction false} BarrierIsLastArrival(plan: Plan, g: seq<nat>, p: nat)
    requires plan.Agrees() && plan.NoTimeBack() && p <= |plan.nodes| && g != [] && Below(g, plan.devices)
    ensures forall m | m in g :: At(plan, m, p).time <= Barrier(plan, g, p)
    ensures exists m :: m in g && At(plan, m, p).time == Barrier(plan, g, p)
  {
    forall m | m in g
      ensures At(plan, m, p).time <= Barrier(plan, g, p)
    {
      BarrierIsLatest(plan, g, p, m);
    }
    var init, last := g[..|g| - 1], g[|g| - 1];
    ClockIsNotNegative(plan, last, p);
    if init != [] {
      BarrierIsLastArrival(plan, init, p);
      var m :| m in init && At(plan, m, p).time == Barrier(plan, init, p);
      assert m in g;
    }
    assert last in g;
  }

  /** A sync node is passed, by each of its members, its own traffic after the last of them has arrived. */
  lemma {:induction false} SyncNodeMeets(plan: Plan, d: nat, p: nat)
    requires plan.Agrees() && plan.NoTimeBack() && d < plan.devices
    requires p < |plan.nodes| && plan.nodes[p].Push? && plan.nodes[p].kind.Sync?
    ensures var met := At(plan, d, p + 1).time - plan.work(d, p).duration;
      && (forall m | m in plan.group(d, p) :: At(plan, m, p).time <= met)
      && exists m :: m in plan.group(d, p) && At(plan, m, p).time == met
  {
    assert plan.GroupsAgree(d, p);
    BarrierIsLastArrival(plan, plan.group(d, p), p);
  }

  lemma {:induction false} EarlierStart(ts: seq<Tree<Stamp>>, from: real, later: real, to: real)
    requires Spans(ts, later, to) && from <= later
    ensures Spans(ts, from, to)
  {
  }

  lemma {:induction false} LaterEnd(ts: seq<Tree<Stamp>>, from: real, to: real, later: real)
    requires Spans(ts, from, to) && to <= later
    ensures Spans(ts, from, later)
    decreases ts
  {
    if ts != [] {
      LaterEnd(ts[1..], ts[0].value.end, to, later);
    }
  }

  lemma {:induction false} CallsSpan(plan: Plan, d: nat, ms: seq<Module>, p: nat, ts: seq<Tree<Stamp>>)
    requires plan.Agrees() && plan.NoTimeBack() && d < plan.devices && StandAll(plan, ms, p)
    requires RecordsAll(plan, d, ms, p, ts)
    ensures At(plan, d, p).time <= At(plan, d, p + |GraphOf(ms)|).time
    ensures Spans(ts, At(plan, d, p).time, At(plan, d, p + |GraphOf(ms)|).time)
    decreases ms
  {
    if ms != [] {
      var m, k := ms[0], |Graph(ms[0])|;
      var s, kids := ts[0].value, ts[0].children;
      CallsSpan(plan, d, m.calls, p + 1, kids);
      ClockAdvances(plan, d, p);
      ClockAdvances(plan, d, p + k - 1);
      EarlierStart(kids, s.start, At(plan, d, p + 1).time, At(plan, d, p + k - 1).time);
      LaterEnd(kids, s.start, At(plan, d, p + k - 1).time, s.end);
      CallsSpan(plan, d, ms[1..], p + k, ts[1..]);
    }
  }

  // ------------------------------------------------------------ end to end

  lemma {:induction false} CallsFillTheRun(plan: Plan, ms: seq<Module>, d: nat, ts: seq<Tree<Stamp>>)
    requires plan.Valid() && plan.nodes == GraphOf(ms) && d < plan.devices && StandAll(plan, ms, 0)
    requires ts == StampForest(TimedCalls(plan, d, ms, 0), 0)
    ensures RecordsAll(plan, d, ms, 0, ts) && Spans(ts, 0.0, At(plan, d, |plan.nodes|).time)
  {
    StampsRecord(plan, d, ms, 0, 0);
    CallsSpan(plan, d, ms, 0, ts);
  }

  /** After a run, whatever the order of polling, the stamps on a device's board record the module calls with their
      clocks and their work, and their intervals are nested within its running time as the calls are. */
  lemma {:induction false} RunRecordsIntervals(plan: Plan, ms: seq<Module>, schedule: seq<nat>, d: nat)
    requires plan.Valid() && plan.nodes == GraphOf(ms) && d < plan.devices
    requires Below(schedule, plan.devices) && Finished(plan, RunSchedule(plan, Start(plan), schedule))
    ensures var dev := RunSchedule(plan, Start(plan), schedule)[d];
      var b := Replay(FRESH, dev.log);
      && b.cells != []
      && RecordsAll(plan, d, ms, 0, TreeAt(b.cells, 0).children)
      && Spans(TreeAt(b.cells, 0).children, 0.0, dev.status.time)
  {
    var s := RunSchedule(plan, Start(plan), schedule);
    var b := Replay(FRESH, s[d].log);
    RunRecordsTimeline(plan, ms, schedule, d);
    PolledRefinesLockStep(plan, schedule);
    assert s[d].status.time == At(plan, d, |plan.nodes|).time;
    CallsFillTheRun(plan, ms, d, TreeAt(b.cells, 0).children);
  }
}
