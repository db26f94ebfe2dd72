/** The timeline of a run: a device whose graph is the push/pop list of a tree of modules records a
    tree of the same shape, with the lock-step clocks, and every stamp accounts for exactly the
    energy of the module calls below it. */
module Timeline {
  import opened ModuleGraph
  import opened LockStep
  import opened Trees
  import opened StampBoard
  import opened StampQuery

  /** A module call while the graph is built (src/module/module.cpp): a push, the calls its
      forward makes, a pop. */
  datatype Module = Module(kind: Kind, calls: seq<Module>)

  function Graph(m: Module): (nodes: seq<Node>)
    ensures |nodes| >= 2
    decreases m, 0
  {
    [Push(m.kind)] + GraphOf(m.calls) + [Pop]
  }

  function GraphOf(ms: seq<Module>): seq<Node>
    decreases ms, 1
  {
    if ms == [] then [] else Graph(ms[0]) + GraphOf(ms[1..])
  }

  /** The nodes of m stand in the plan from position p on. */
  ghost predicate Holds(plan: Plan, nodes: seq<Node>, p: nat) {
    p + |nodes| <= |plan.nodes| && forall q: nat | p <= q < p + |nodes| :: plan.nodes[q] == nodes[q - p]
  }

  /** The call of m at position p on device d, with the reference's readings. */
  ghost function Timed(plan: Plan, d: nat, m: Module, p: nat): Call
    requires p + |Graph(m)| <= |plan.nodes|
    decreases m, 0
  {
    Call(plan.name(d, p), At(plan, d, p), At(plan, d, p + |Graph(m)|), TimedCalls(plan, d, m.calls, p + 1))
  }

  ghost function TimedCalls(plan: Plan, d: nat, ms: seq<Module>, p: nat): seq<Call>
    requires p + |GraphOf(ms)| <= |plan.nodes|
    decreases ms, 1
  {
    if ms == [] then []
    else [Timed(plan, d, ms[0], p)] + TimedCalls(plan, d, ms[1..], p + |Graph(ms[0])|)
  }

  lemma {:induction false} HoldsParts(plan: Plan, m: Module, p: nat)
    requires Holds(plan, Graph(m), p)
    ensures plan.nodes[p] == Push(m.kind) && plan.nodes[p + |Graph(m)| - 1] == Pop
    ensures Holds(plan, GraphOf(m.calls), p + 1)
  {
    var nodes := Graph(m);
    assert forall q: nat | p + 1 <= q < p + 1 + |GraphOf(m.calls)| :: plan.nodes[q] == nodes[q - p];
  }

  lemma {:induction false} HoldsHead(plan: Plan, ms: seq<Module>, p: nat)
    requires Holds(plan, GraphOf(ms), p) && ms != []
    ensures Holds(plan, Graph(ms[0]), p) && Holds(plan, GraphOf(ms[1..]), p + |Graph(ms[0])|)
  {
    HoldsConcat(plan, Graph(ms[0]), GraphOf(ms[1..]), p);
  }

  lemma {:induction false} HoldsConcat(plan: Plan, x: seq<Node>, y: seq<Node>, p: nat)
    requires Holds(plan, x + y, p)
    ensures Holds(plan, x, p) && Holds(plan, y, p + |x|)
  {
  }

  /** The nodes of a module, one by one, from position p on. */
  ghost predicate Stands(plan: Plan, m: Module, p: nat)
    decreases m, 0
  {
    && p + |Graph(m)| <= |plan.nodes|
    && plan.nodes[p] == Push(m.kind) && plan.nodes[p + |Graph(m)| - 1] == Pop
    && StandAll(plan, m.calls, p + 1)
  }

  ghost predicate StandAll(plan: Plan, ms: seq<Module>, p: nat)
    decreases ms, 1
  {
    && p + |GraphOf(ms)| <= |plan.nodes|
    && (ms != [] ==> Stands(plan, ms[0], p) && StandAll(plan, ms[1..], p + |Graph(ms[0])|))
  }

  lemma {:induction false} HoldingStands(plan: Plan, ms: seq<Module>, p: nat)
    requires Holds(plan, GraphOf(ms), p)
    ensures StandAll(plan, ms, p)
    decreases ms
  {
    if ms != [] {
      HoldsHead(plan, ms, p);
      HoldsParts(plan, ms[0], p);
      HoldingStands(plan, ms[0].calls, p + 1);
      HoldingStands(plan, ms[1..], p + |Graph(ms[0])|);
    }
  }

  // ---------------------------------------------------------- recorded log

  /** Over n nodes from position p the device makes the timeboard calls w. */
  ghost predicate Makes(plan: Plan, d: nat, p: nat, n: nat, w: seq<Event>)
    requires p + n <= |plan.nodes|
  {
    LogAt(plan, d, p + n) == LogAt(plan, d, p) + w
  }

  lemma {:induction false} MakesBoth(plan: Plan, d: nat, p: nat, k: nat, n: nat,
                                     v: seq<Event>, w: seq<Event>, all: seq<Event>)
    requires k <= n && p + n <= |plan.nodes| && all == v + w
    requires Makes(plan, d, p, k, v) && Makes(plan, d, p + k, n - k, w)
    ensures Makes(plan, d, p, n, all)
  {
    assert (LogAt(plan, d, p) + v) + w == LogAt(plan, d, p) + (v + w);
  }

  lemma {:induction false} MakesOne(plan: Plan, d: nat, p: nat, e: Event)
    requires p < |plan.nodes| && e == EventAt(plan, d, p)
    ensures Makes(plan, d, p, 1, [e])
  {
  }

  /** The timeboard calls of a device while it passes the nodes of m. */
  lemma {:induction false} LogOfModule(plan: Plan, d: nat, m: Module, p: nat)
    requires Stands(plan, m, p)
    ensures Makes(plan, d, p, |Graph(m)|, Word(Timed(plan, d, m, p)))
    decreases m, 0
  {
    LogOfModules(plan, d, m.calls, p + 1);
    LogOfCall(plan, d, p, |GraphOf(m.calls)|, Timed(plan, d, m, p));
  }

  lemma {:induction false} LogOfCall(plan: Plan, d: nat, p: nat, n: nat, c: Call)
    requires p + n + 2 <= |plan.nodes| && Makes(plan, d, p + 1, n, Words(c.calls))
    requires EventAt(plan, d, p) == OpenEvent(c) && EventAt(plan, d, p + 1 + n) == CloseEvent(c)
    ensures Makes(plan, d, p, n + 2, Word(c))
  {
    var head := [OpenEvent(c)] + Words(c.calls);
    MakesOne(plan, d, p, OpenEvent(c));
    MakesOne(plan, d, p + 1 + n, CloseEvent(c));
    MakesBoth(plan, d, p, 1, 1 + n, [OpenEvent(c)], Words(c.calls), head);
    MakesBoth(plan, d, p, 1 + n, n + 2, head, [CloseEvent(c)], Word(c));
  }

  lemma {:induction false} LogOfModules(plan: Plan, d: nat, ms: seq<Module>, p: nat)
    requires StandAll(plan, ms, p)
    ensures Makes(plan, d, p, |GraphOf(ms)|, Words(TimedCalls(plan, d, ms, p)))
    decreases ms, 1
  {
    if ms == [] {
      assert LogAt(plan, d, p) + [] == LogAt(plan, d, p);
    } else {
      var k := |Graph(ms[0])|;
      LogOfModule(plan, d, ms[0], p);
      LogOfModules(plan, d, ms[1..], p + k);
      WordsOfHead(plan, d, ms, p);
      MakesBoth(plan, d, p, k, |GraphOf(ms)|, Word(Timed(plan, d, ms[0], p)),
                Words(TimedCalls(plan, d, ms[1..], p + k)), Words(TimedCalls(plan, d, ms, p)));
    }
  }

  lemma {:induction false} WordsOfHead(plan: Plan, d: nat, ms: seq<Module>, p: nat)
    requires ms != [] && p + |Graph(ms[0])| + |GraphOf(ms[1..])| == p + |GraphOf(ms)| <= |plan.nodes|
    ensures Words(TimedCalls(plan, d, ms, p)) ==
            Word(Timed(plan, d, ms[0], p)) + Words(TimedCalls(plan, d, ms[1..], p + |Graph(ms[0])|))
  {
    var c, rest := Timed(plan, d, ms[0], p), TimedCalls(plan, d, ms[1..], p + |Graph(ms[0])|);
    assert ([c] + rest)[1..] == rest;
  }

  // ------------------------------------------------------------ accounting

  /** What a call adds to a counter: its own pop, and the calls inside it. */
  ghost function AmountOf(plan: Plan, d: nat, m: Module, p: nat, c: Counter): real
    decreases m, 0
  {
    plan.work(d, p + |Graph(m)| - 1).Amount(c) + AmountOfAll(plan, d, m.calls, p + 1, c)
  }

  ghost function AmountOfAll(plan: Plan, d: nat, ms: seq<Module>, p: nat, c: Counter): real
    decreases ms, 1
  {
    if ms == [] then 0.0
    else AmountOf(plan, d, ms[0], p, c) + AmountOfAll(plan, d, ms[1..], p + |Graph(ms[0])|, c)
  }

  /** Counters telescope: a device's energy and its operations grow over a module call by exactly what that call
      adds, whatever barriers lie inside it. */
  lemma {:induction false} CounterTelescopes(plan: Plan, d: nat, m: Module, p: nat, c: Counter)
    requires Stands(plan, m, p)
    ensures At(plan, d, p + |Graph(m)|).Amount(c) == At(plan, d, p).Amount(c) + AmountOf(plan, d, m, p, c)
    decreases m, 0
  {
    var q := p + |Graph(m)| - 1;
    CounterTelescopesAll(plan, d, m.calls, p + 1, c);
    assert At(plan, d, p + 1).Amount(c) == At(plan, d, p).Amount(c);
    assert At(plan, d, q + 1).Amount(c) == At(plan, d, q).Amount(c) + plan.work(d, q).Amount(c);
  }

  lemma {:induction false} CounterTelescopesAll(plan: Plan, d: nat, ms: seq<Module>, p: nat, c: Counter)
    requires StandAll(plan, ms, p)
    ensures At(plan, d, p + |GraphOf(ms)|).Amount(c) == At(plan, d, p).Amount(c) + AmountOfAll(plan, d, ms, p, c)
    decreases ms, 1
  {
    if ms != [] {
      CounterTelescopes(plan, d, ms[0], p, c);
      CounterTelescopesAll(plan, d, ms[1..], p + |Graph(ms[0])|, c);
    }
  }

  /** What a stamp holds of a counter is its own pop's plus that of the stamps below it. */
  lemma {:induction false} StampAmount(plan: Plan, d: nat, m: Module, p: nat, level: int, c: Counter)
    requires Stands(plan, m, p)
    ensures var t := StampTree(Timed(plan, d, m, p), level);
      && t.value.Amount(c) == AmountOf(plan, d, m, p, c)
      && t.value.Amount(c) == plan.work(d, p + |Graph(m)| - 1).Amount(c) + AmountSum(t.children, c)
  {
    CounterTelescopes(plan, d, m, p, c);
    StampAmounts(plan, d, m.calls, p + 1, level + 1, c);
  }

  lemma {:induction false} StampAmounts(plan: Plan, d: nat, ms: seq<Module>, p: nat, level: int, c: Counter)
    requires StandAll(plan, ms, p)
    ensures AmountSum(StampForest(TimedCalls(plan, d, ms, p), level), c) == AmountOfAll(plan, d, ms, p, c)
    decreases ms
  {
    if ms != [] {
      CounterTelescopes(plan, d, ms[0], p, c);
      StampAmounts(plan, d, ms[1..], p + |Graph(ms[0])|, level, c);
      var cs := TimedCalls(plan, d, ms, p);
      assert cs[1..] == TimedCalls(plan, d, ms[1..], p + |Graph(ms[0])|);
    }
  }

  /** When no pop takes energy back, every stamp holds at least the energy of those below it. */
  lemma {:induction false} StampsAreAccounted(plan: Plan, d: nat, ms: seq<Module>, p: nat, level: int)
    requires StandAll(plan, ms, p)
    requires forall q: nat :: plan.work(d, q).energy >= 0.0
    ensures AmountOfAll(plan, d, ms, p, Energy) >= 0.0
    ensures forall t | t in StampForest(TimedCalls(plan, d, ms, p), level) :: Accounted(t)
    decreases ms
  {
    if ms != [] {
      var m, k := ms[0], |Graph(ms[0])|;
      StampsAreAccounted(plan, d, m.calls, p + 1, level + 1);
      StampAmount(plan, d, m, p, level, Energy);
      StampsAreAccounted(plan, d, ms[1..], p + k, level);
      assert TimedCalls(plan, d, ms, p)[1..] == TimedCalls(plan, d, ms[1..], p + k);
    }
  }

  /** The durations of the pops inside a call, and of the traffic of its sync nodes. */
  ghost function DurationOf(plan: Plan, d: nat, m: Module, p: nat): real
    decreases m, 0
  {
    (if plan.IsSync(p) then plan.work(d, p).duration else 0.0)
    + DurationOfAll(plan, d, m.calls, p + 1) + plan.work(d, p + |Graph(m)| - 1).duration
  }

  ghost function DurationOfAll(plan: Plan, d: nat, ms: seq<Module>, p: nat): real
    decreases ms, 1
  {
    if ms == [] then 0.0
    else DurationOf(plan, d, ms[0], p) + DurationOfAll(plan, d, ms[1..], p + |Graph(ms[0])|)
  }

  ghost predicate NoBarrier(plan: Plan, p: nat, n: nat) {
    forall q: nat | p <= q < p + n :: !plan.IsSync(q)
  }

  // ------------------------------------------------------------ end to end

  /** After a run, whatever the order in which the devices were polled, replaying a device's
      timeboard calls leaves the board at its top stamp with one tree per module call: the names and
      nesting of the modules, and the clocks and counters of the lock-step reference. */
  lemma {:induction false} RunRecordsTimeline(plan: Plan, ms: seq<Module>, schedule: seq<nat>, d: nat)
    requires plan.Valid() && plan.nodes == GraphOf(ms) && d < plan.devices
    requires Below(schedule, plan.devices) && Finished(plan, RunSchedule(plan, Start(plan), schedule))
    ensures StandAll(plan, ms, 0)
    ensures var b := Replay(FRESH, RunSchedule(plan, Start(plan), schedule)[d].log);
      && b.current == 0 && b.cells != []
      && TreeAt(b.cells, 0) == Node(TOP, StampForest(TimedCalls(plan, d, ms, 0), 0))
  {
    PolledRefinesLockStep(plan, schedule);
    TimelineOfLog(plan, ms, d);
  }

  lemma {:induction false} TimelineOfLog(plan: Plan, ms: seq<Module>, d: nat)
    requires plan.nodes == GraphOf(ms)
    ensures StandAll(plan, ms, 0)
    ensures var b := Replay(FRESH, LogAt(plan, d, |plan.nodes|));
      && b.current == 0 && b.cells != []
      && TreeAt(b.cells, 0) == Node(TOP, StampForest(TimedCalls(plan, d, ms, 0), 0))
  {
    HoldingStands(plan, ms, 0);
    LogOfModules(plan, d, ms, 0);
    var cs := TimedCalls(plan, d, ms, 0);
    assert LogAt(plan, d, 0) + Words(cs) == Words(cs);
    ReplayFresh(cs);
  }

  /** The found stamps' energies add up to no more than the reference's energy; the top stamp itself is never closed
      and holds none. */
  lemma {:induction false} BreakdownIsBounded(plan: Plan, ms: seq<Module>, d: nat, sub: string)
    requires StandAll(plan, ms, 0) && plan.nodes == GraphOf(ms)
    requires forall q: nat :: plan.work(d, q).energy >= 0.0
    ensures var t := Node(TOP, StampForest(TimedCalls(plan, d, ms, 0), 0));
      0.0 <= FoundEnergy(t, Find(t, sub)) <= At(plan, d, |plan.nodes|).energy
  {
    var t := Node(TOP, StampForest(TimedCalls(plan, d, ms, 0), 0));
    StampsAreAccounted(plan, d, ms, 0, 0);
    StampAmounts(plan, d, ms, 0, 0, Energy);
    TotalOfCalls(plan, d, ms, 0, Energy);
    if Contains(TOP.name, sub) {
      assert FoundEnergy(t, [[]]) == TOP.energy + FoundEnergy(t, []);
    } else {
      FoundEnergyFrom(t, 0, sub);
      assert t.children[0..] == t.children;
    }
  }

  lemma {:induction false} TotalOfCalls(plan: Plan, d: nat, ms: seq<Module>, p: nat, c: Counter)
    requires p == 0 && StandAll(plan, ms, p)
    ensures AmountOfAll(plan, d, ms, p, c) == At(plan, d, |GraphOf(ms)|).Amount(c)
  {
    CounterTelescopesAll(plan, d, ms, p, c);
  }

  /** End to end: after a run, whatever the order of polling and whatever name is searched for, the energies of the
      found stamps add up to no more than the energy the device used. */
  lemma {:induction false} RunBreakdownIsBounded(plan: Plan, ms: seq<Module>, schedule: seq<nat>, d: nat, sub: string)
    requires plan.Valid() && plan.nodes == GraphOf(ms) && d < plan.devices
    requires Below(schedule, plan.devices) && Finished(plan, RunSchedule(plan, Start(plan), schedule))
    requires forall q: nat :: plan.work(d, q).energy >= 0.0
    ensures var dev := RunSchedule(plan, Start(plan), schedule)[d];
      var b := Replay(FRESH, dev.log);
      && b.cells != []
      && 0.0 <= FoundEnergy(TreeAt(b.cells, 0), Find(TreeAt(b.cells, 0), sub)) <= dev.status.energy
  {
    RunRecordsTimeline(plan, ms, schedule, d);
    PolledRefinesLockStep(plan, schedule);
    BreakdownIsBounded(plan, ms, d, sub);
  }
}
