/** Sync nodes that wait for a tensor made before an earlier barrier, as the all-reduces of an expert layer do: where
    they are harmless, and where clocks and flags come out wrong (src/module/expert.cpp,
    src/module/module_graph.cpp). */
module OlderTensors {
  import opened Basics
  import opened ModuleGraph
  import opened Polling
  import opened LockStep

  // ------------------------------------------------------- the expert layer

  /** What a Sync module and a synchronizing module after it leave in the list: the module sets a tensor of its own and
      waits for it, and then the other one waits for tensor t. */
  ghost predicate SyncThen(plan: Plan, p: nat, u: nat, t: nat) {
    && 6 <= p < |plan.nodes| && u != t
    && plan.nodes[p - 6] == Push(Container)
    && (exists x: nat :: plan.nodes[p - 5] == Push(Leaf(x, {u}))) && plan.nodes[p - 4] == Pop
    && (exists o: set<nat> :: plan.nodes[p - 3] == Push(Sync(u, o))) && plan.nodes[p - 2] == Pop
    && plan.nodes[p - 1] == Pop
    && (exists o: set<nat> :: plan.nodes[p] == Push(Sync(t, o)))
  }

  /** An all-reduce right after a Sync module meets the condition of the refinement, however old its tensor is, if it
      joins devices that the Sync module joins, and the Sync module itself takes no time. */
  lemma {:induction false} AllReduceFollowsSync(plan: Plan, p: nat, u: nat, t: nat)
    requires SyncThen(plan, p, u, t) && u != plan.source && forall q: nat | q < p - 5 :: !plan.Produces(q, u)
    requires forall d: nat, m | d < plan.devices && m in plan.group(d, p) :: m in plan.group(d, p - 3)
    requires forall d: nat, q: nat | d < plan.devices && p - 3 <= q < p :: plan.work(d, q).duration == 0.0
    ensures plan.IsSync(p - 3) && plan.Fresh(p - 3) && plan.IsSync(p) && plan.Follows(p, p - 3) && plan.Timely(p)
  {
    var r: nat := p - 3;
    assert plan.Input(r) == u && plan.Input(p) == t;
    forall q: nat, x: nat | q < x < r && plan.IsSync(x)
      ensures !plan.Produces(q, u)
    {
      assert x != p - 4 && x != p - 5;
    }
    assert plan.LastSync(r, p);
  }

  // -------------------------------------------------- two barriers, one tensor

  /** Two devices meet twice on the same tensor, and work a and b in between. */
  function TwoBarriers(a: real, b: real): Plan {
    Plan([Push(Leaf(0, {1})), Pop, Push(Sync(1, {2})), Pop, Push(Leaf(2, {3})), Pop, Push(Sync(1, {4})), Pop], 2, 0,
         (d, p) => "", (d, p) => [0, 1],
         (d, p) => Work(if p != 5 then 0.0 else if d == 0 then a else b, 0.0, 0.0))
  }

  lemma {:induction false} TwoBarriersAreFed(a: real, b: real)
    requires a >= 0.0 && b >= 0.0
    ensures TwoBarriers(a, b).Fed() && TwoBarriers(a, b).NoTimeBack()
    ensures forall p: nat :: TwoBarriers(a, b).IsSync(p) <==> p == 2 || p == 6
    ensures forall p: nat | 1 <= p <= 8 :: 1 in TwoBarriers(a, b).ReadyAt(p)
  {
    var plan := TwoBarriers(a, b);
    assert plan.Produces(0, 1) && plan.Produces(2, 2);
    forall p: nat | 1 <= p <= 8
      ensures 1 in plan.ReadyAt(p)
    {
      ProducerMakesReady(plan, 0, p, 1);
    }
    ProducerMakesReady(plan, 2, 4, 2);
    assert 0 in plan.ReadyAt(0);
    forall p: nat | p < |plan.nodes|
      ensures plan.Feeds(p)
    {
      assert p == 0 || p == 1 || p == 2 || p == 3 || p == 4 || p == 5 || p == 6 || p == 7;
    }
  }

  /** The second barrier waits for an older tensor, and does not follow the first right away on another one. */
  lemma {:induction false} SecondBarrierIsNotTimely(a: real, b: real)
    requires a >= 0.0 && b >= 0.0
    ensures TwoBarriers(a, b).IsSync(6) && !TwoBarriers(a, b).Timely(6)
  {
    var plan := TwoBarriers(a, b);
    TwoBarriersAreFed(a, b);
    assert plan.Produces(0, plan.Input(6)) && plan.IsSync(2) && plan.Input(2) == plan.Input(6);
    assert !plan.Fresh(6);
    assert forall r: nat | plan.LastSync(r, 6) :: r == 2;
  }

  // ---------------------------------------------------------- step by step

  /** A device's place, clock and flags. */
  ghost predicate Shows(dev: Dev, pc: nat, time: real, synced: set<nat>) {
    && dev.pc == pc && dev.status.time == time && dev.synced == synced
    && dev.status.low <= time && dev.status.high <= time
    && forall q | q in dev.stamped :: q < pc || (q == pc && pc % 2 == 0)
  }

  ghost predicate Both(plan: Plan, s: State, p0: nat, t0: real, f0: set<nat>, p1: nat, t1: real, f1: set<nat>) {
    |s| == 2 && plan.devices == 2 && Tracks(plan, s) && Shows(s[0], p0, t0, f0) && Shows(s[1], p1, t1, f1)
  }

  /** One node of the device's poll. */
  ghost function Step(plan: Plan, s: State, d: nat): State
    requires d < |s| && s[d].pc < |plan.nodes| && CheckReady(plan, Stamp(plan, s, d), d)
  {
    Advance(plan, Stamp(plan, s, d), d)
  }

  /** The two devices' plan. */
  ghost predicate Meets(plan: Plan, a: real, b: real) {
    a >= 0.0 && b >= 0.0 && plan == TwoBarriers(a, b)
  }

  /** A node that waits for nobody adds its work. */
  lemma {:induction false} PlainStep(plan: Plan, a: real, b: real, s: State, d: nat, t: real, f: set<nat>)
    requires Meets(plan, a, b) && |s| == 2 && d < 2 && Tracks(plan, s) && s[d].pc in {0, 1, 3, 4, 5, 7}
    requires Shows(s[d], s[d].pc, t, f)
    ensures CheckReady(plan, Stamp(plan, s, d), d)
    ensures Shows(Step(plan, s, d)[d], s[d].pc + 1, t + plan.Takes(d, s[d].pc), f)
    ensures Step(plan, s, d) == s[d := Step(plan, s, d)[d]] && Tracks(plan, Step(plan, s, d))
    ensures RunDevice(plan, s, d) == RunDevice(plan, Step(plan, s, d), d)
  {
    var p := s[d].pc;
    TwoBarriersAreFed(a, b);
    StampMovesNobody(plan, s, d);
    assert plan.Feeds(p) && !plan.IsSync(p);
    AdvanceMovesOne(plan, Stamp(plan, s, d), d);
  }

  /** From the start to the first barrier, between the barriers, and from the second to the end. */
  lemma {:induction false} Walk(plan: Plan, a: real, b: real, s: State, d: nat, t: real, f: set<nat>)
    returns (s': State)
    requires Meets(plan, a, b) && |s| == 2 && d < 2 && Tracks(plan, s)
    requires s[d].pc in {0, 3, 7} && Shows(s[d], s[d].pc, t, f)
    ensures |s'| == 2 && Tracks(plan, s') && s' == s[d := s'[d]] && RunDevice(plan, s, d) == RunDevice(plan, s', d)
    ensures Shows(s'[d], if s[d].pc == 0 then 2 else if s[d].pc == 3 then 6 else 8,
                  if s[d].pc == 3 then t + (if d == 0 then a else b) else t, f)
  {
    PlainStep(plan, a, b, s, d, t, f);
    s' := Step(plan, s, d);
    if s[d].pc == 0 {
      PlainStep(plan, a, b, s', d, t, f);
      s' := Step(plan, s', d);
    } else if s[d].pc == 3 {
      s' := LastTwo(plan, a, b, s', d, t, f);
    }
  }

  lemma {:induction false} LastTwo(plan: Plan, a: real, b: real, s: State, d: nat, t: real, f: set<nat>)
    returns (s': State)
    requires Meets(plan, a, b) && |s| == 2 && d < 2 && Tracks(plan, s) && s[d].pc == 4 && Shows(s[d], 4, t, f)
    ensures |s'| == 2 && Tracks(plan, s') && s' == s[d := s'[d]] && RunDevice(plan, s, d) == RunDevice(plan, s', d)
    ensures Shows(s'[d], 6, t + (if d == 0 then a else b), f)
  {
    PlainStep(plan, a, b, s, d, t, f);
    s' := Step(plan, s, d);
    PlainStep(plan, a, b, s', d, t, f);
    s' := Step(plan, s', d);
  }

  /** At a barrier whose tensor both devices have made, the device passes; the flag decides what else happens. */
  lemma {:induction false} BarrierStep(plan: Plan, a: real, b: real, s: State, d: nat, t: real, f: set<nat>,
                                       x: real, g: set<nat>)
    requires Meets(plan, a, b) && t >= 0.0 && x >= 0.0
    requires |s| == 2 && d < 2 && Tracks(plan, s) && s[d].pc in {2, 6} && s[1 - d].pc > 0
    requires Shows(s[d], s[d].pc, t, f) && Shows(s[1 - d], s[1 - d].pc, x, g)
    ensures CheckReady(plan, Stamp(plan, s, d), d)
    ensures var s' := Step(plan, s, d);
      && |s'| == 2 && Tracks(plan, s') && RunDevice(plan, s, d) == RunDevice(plan, s', d)
      && Shows(s'[d], s[d].pc + 1, if 1 in f then t else MaxReal(t, x), f - {1})
      && Shows(s'[1 - d], s[1 - d].pc, if 1 in f then x else MaxReal(t, x), if 1 in f then g else g + {1})
  {
    var s1 := Stamp(plan, s, d);
    StampedAtBarrier(plan, a, b, s, d, t, f);
    AdvanceAtSync(plan, s1, d);
    AdvanceMovesOne(plan, s1, d);
    MeetsAtBarrier(s1, d, s1[d].pc, t, f, s1[1 - d].pc, x, g);
  }

  lemma {:induction false} StampedAtBarrier(plan: Plan, a: real, b: real, s: State, d: nat, t: real, f: set<nat>)
    requires Meets(plan, a, b)
    requires |s| == 2 && d < 2 && Tracks(plan, s) && s[d].pc in {2, 6} && s[1 - d].pc > 0
    requires Shows(s[d], s[d].pc, t, f)
    ensures var s1 := Stamp(plan, s, d);
      && CheckReady(plan, s1, d) && Shows(s1[d], s[d].pc, t, f) && s1[1 - d] == s[1 - d] && Tracks(plan, s1)
      && plan.IsSync(s[d].pc) && plan.group(d, s[d].pc) == [0, 1] && plan.Input(s[d].pc) == 1
      && plan.work(d, s[d].pc).duration == 0.0
  {
    TwoBarriersAreFed(a, b);
    StampMovesNobody(plan, s, d);
    assert AllReady(Stamp(plan, s, d), [0, 1], 1);
  }

  lemma {:induction false} MeetsAtBarrier(s: State, d: nat, p: nat, t: real, f: set<nat>, q: nat, x: real, g: set<nat>)
    requires |s| == 2 && d < 2 && t >= 0.0 && x >= 0.0 && Shows(s[d], p, t, f) && Shows(s[1 - d], q, x, g)
    ensures var s' := SyncDevices(s, d, [0, 1], 1);
      && Shows(s'[d], p, if 1 in f then t else MaxReal(t, x), f - {1})
      && Shows(s'[1 - d], q, if 1 in f then x else MaxReal(t, x), if 1 in f then g else g + {1})
  {
    LatestOfTwo(s);
  }

  lemma {:induction false} LatestOfTwo(s: State)
    requires |s| == 2 && s[0].status.time >= 0.0
    ensures LatestTime(s, [0, 1]) == MaxReal(s[0].status.time, s[1].status.time)
  {
    assert [0, 1][..1] == [0] && [0][..0] == [];
    assert LatestTime(s, [0]) == MaxReal(0.0, s[0].status.time);
  }

  lemma {:induction false} Blocked(plan: Plan, a: real, b: real, s: State, f: set<nat>)
    requires Meets(plan, a, b)
    requires Both(plan, s, 2, 0.0, f, 0, 0.0, {})
    ensures Both(plan, RunDevice(plan, s, 0), 2, 0.0, f, 0, 0.0, {})
  {
    TwoBarriersAreFed(a, b);
    StampMovesNobody(plan, s, 0);
    assert 1 !in Stamp(plan, s, 0)[1].ready;
    assert !AllReady(Stamp(plan, s, 0), [0, 1], 1) by {
      assert [0, 1][1] == 1;
    }
  }

  lemma {:induction false} FirstPoll(plan: Plan, a: real, b: real)
    requires Meets(plan, a, b)
    ensures Both(plan, RunDevice(plan, Start(plan), 0), 2, 0.0, {}, 0, 0.0, {})
  {
    var s := Walk(plan, a, b, Start(plan), 0, 0.0, {});
    Blocked(plan, a, b, s, {});
  }

  lemma {:induction false} ThreePolls(plan: Plan, s: State, x: nat, y: nat, z: nat)
    requires x < |s| && y < |s| && z < |s|
    ensures RunSchedule(plan, s, [x, y, z]) == RunDevice(plan, RunDevice(plan, RunDevice(plan, s, x), y), z)
  {
    assert [x, y, z][..2] == [x, y] && [x, y][..1] == [x] && [x][..0] == [];
    assert RunSchedule(plan, s, [x]) == RunDevice(plan, s, x);
    assert RunSchedule(plan, s, [x, y]) == RunDevice(plan, RunDevice(plan, s, x), y);
  }

  /** Device 0 stops at the first barrier, device 1 runs through both, and device 0 goes on to the end. */
  lemma {:induction false} TwoBarriersRun(plan: Plan, a: real, b: real)
    requires Meets(plan, a, b)
    ensures var s := RunSchedule(plan, Start(plan), [0, 1, 0]);
      Both(plan, s, 8, a + b, {}, 8, a + b, {1})
  {
    FirstPoll(plan, a, b);
    var s := SecondPoll(plan, a, b, RunDevice(plan, Start(plan), 0));
    ThirdPoll(plan, a, b, s);
    ThreePolls(plan, Start(plan), 0, 1, 0);
  }

  /** Past a barrier and on to the next one, or to the end. */
  lemma {:induction false} Leg(plan: Plan, a: real, b: real, s: State, d: nat, t: real, f: set<nat>,
                               q: nat, x: real, g: set<nat>)
    returns (s': State)
    requires Meets(plan, a, b) && t >= 0.0 && x >= 0.0
    requires |s| == 2 && d < 2 && Tracks(plan, s) && s[d].pc in {2, 6} && q > 0
    requires Shows(s[d], s[d].pc, t, f) && Shows(s[1 - d], q, x, g)
    ensures |s'| == 2 && Tracks(plan, s')
    ensures RunDevice(plan, s, d) == RunDevice(plan, s', d)
    ensures var time := if 1 in f then t else MaxReal(t, x);
      && Shows(s'[d], if s[d].pc == 2 then 6 else 8,
               if s[d].pc == 2 then time + (if d == 0 then a else b) else time, f - {1})
      && Shows(s'[1 - d], q, if 1 in f then x else time, if 1 in f then g else g + {1})
  {
    BarrierStep(plan, a, b, s, d, t, f, x, g);
    s' := Walk(plan, a, b, Step(plan, s, d), d, if 1 in f then t else MaxReal(t, x), f - {1});
  }

  lemma {:induction false} ToSecondBarrier(plan: Plan, a: real, b: real, s: State) returns (s': State)
    requires Meets(plan, a, b) && Both(plan, s, 2, 0.0, {}, 0, 0.0, {})
    ensures Both(plan, s', 2, 0.0, {1}, 6, b, {}) && RunDevice(plan, s, 1) == RunDevice(plan, s', 1)
  {
    s' := Walk(plan, a, b, s, 1, 0.0, {});
    s' := Leg(plan, a, b, s', 1, 0.0, {}, 2, 0.0, {});
    assert s'[0].synced == {1} && s'[1].synced == {};
  }

  lemma {:induction false} SecondPoll(plan: Plan, a: real, b: real, s: State) returns (s': State)
    requires Meets(plan, a, b) && Both(plan, s, 2, 0.0, {}, 0, 0.0, {})
    ensures s' == RunDevice(plan, s, 1) && Both(plan, s', 2, b, {1}, 8, b, {})
  {
    s' := ToSecondBarrier(plan, a, b, s);
    s' := Leg(plan, a, b, s', 1, b, {}, 2, 0.0, {1});
    assert s'[0].synced == {1} && s'[1].synced == {};
  }

  lemma {:induction false} ThirdPoll(plan: Plan, a: real, b: real, s: State)
    requires Meets(plan, a, b) && Both(plan, s, 2, b, {1}, 8, b, {})
    ensures Both(plan, RunDevice(plan, s, 0), 8, a + b, {}, 8, a + b, {1})
  {
    var s' := Leg(plan, a, b, s, 0, b, {1}, 8, b, {});
    assert s'[0].synced == {} && s'[1].synced == {};
    s' := Leg(plan, a, b, s', 0, b + a, {}, 8, b, {});
    assert s'[0].synced == {} && s'[1].synced == {1};
  }

  /** The reference: the later of the two devices decides. */
  lemma {:induction false} TwoBarriersAt(a: real, b: real, d: nat)
    requires a >= 0.0 && b >= 0.0 && d < 2
    ensures At(TwoBarriers(a, b), d, 8).time == MaxReal(a, b)
  {
    var plan := TwoBarriers(a, b);
    TwoBarriersAreFed(a, b);
    forall m: nat | m < 2
      ensures At(plan, m, 6).time == if m == 0 then a else b
    {
      assert At(plan, m, 2).time == At(plan, m, 1).time == At(plan, m, 0).time == 0.0;
      BarrierOfTwo(plan, 2);
      assert At(plan, 0, 2).time == At(plan, 1, 2).time == 0.0 by {
        assert At(plan, 0, 1).time == At(plan, 0, 0).time && At(plan, 1, 1).time == At(plan, 1, 0).time;
      }
      assert At(plan, m, 3).time == 0.0;
      assert At(plan, m, 5).time == At(plan, m, 4).time == At(plan, m, 3).time;
    }
    BarrierOfTwo(plan, 6);
    assert At(plan, d, 7).time == MaxReal(a, b);
  }

  lemma {:induction false} BarrierOfTwo(plan: Plan, p: nat)
    requires p <= |plan.nodes| && At(plan, 0, p).time >= 0.0
    ensures Barrier(plan, [0, 1], p) == MaxReal(At(plan, 0, p).time, At(plan, 1, p).time)
  {
    assert [0, 1][..1] == [0] && [0][..0] == [];
    assert Barrier(plan, [0], p) == MaxReal(0.0, At(plan, 0, p).time);
  }

  /** Outside the condition the refinement fails: after the second of two barriers on one tensor, the work in between
      has been added up over the devices instead of taking the maximum, so the clocks are right exactly if one of
      the devices has none, and a flag stays up for the next run. */
  lemma {:induction false} ReusedTensorBreaksBarrier(a: real, b: real) returns (s: State)
    requires a >= 0.0 && b >= 0.0
    ensures TwoBarriers(a, b).Fed() && TwoBarriers(a, b).NoTimeBack()
    ensures s == RunSchedule(TwoBarriers(a, b), Start(TwoBarriers(a, b)), [0, 1, 0])
    ensures |s| == 2 && Finished(TwoBarriers(a, b), s) && s[1].synced == {1}
    ensures s[0].status.time == s[1].status.time == a + b
    ensures At(TwoBarriers(a, b), 0, 8).time == At(TwoBarriers(a, b), 1, 8).time == MaxReal(a, b)
    ensures s[0].status.time == At(TwoBarriers(a, b), 0, 8).time <==> a == 0.0 || b == 0.0
  {
    s := RunSchedule(TwoBarriers(a, b), Start(TwoBarriers(a, b)), [0, 1, 0]);
    TwoBarriersAreFed(a, b);
    TwoBarriersRun(TwoBarriers(a, b), a, b);
    TwoBarriersAt(a, b, 0);
    TwoBarriersAt(a, b, 1);
  }

  /** A restart clears everything but the flags. */
  lemma {:induction false} RestartKeepsFlags(plan: Plan, s: State, d: nat)
    requires d < |s|
    ensures var dev := RestartAll(plan, s)[d];
      && dev.synced == s[d].synced
      && dev.pc == 0 && dev.ready == {plan.source} && dev.stamped == {} && dev.log == []
      && dev.status.time == dev.status.energy == dev.status.flops == 0.0
  {
  }

  /** What a flag that was left up does: the next time its device runs a sync node on that tensor, it passes without
      waiting for anyone's clock, takes the flag down, and moves no other clock. */
  lemma {:induction false} RaisedFlagSkipsBarrier(plan: Plan, s: State, d: nat)
    requires d < |s| && plan.IsSync(s[d].pc) && CheckReady(plan, s, d) && plan.Input(s[d].pc) in s[d].synced
    ensures var s' := Advance(plan, s, d);
      && s'[d].status.time == s[d].status.time + plan.work(d, s[d].pc).duration
      && s'[d].synced == s[d].synced - {plan.Input(s[d].pc)}
      && forall m: nat | m < |s| && m != d :: s'[m] == s[m]
  {
  }

  /** Without the flag the node is a barrier: every member's clock is raised to the latest, and the others' flags go
      up. */
  lemma {:induction false} LoweredFlagMakesBarrier(plan: Plan, s: State, d: nat, latest: real)
    requires d < |s| && plan.IsSync(s[d].pc) && CheckReady(plan, s, d) && plan.Input(s[d].pc) !in s[d].synced
    requires d in plan.group(d, s[d].pc) && latest == LatestTime(s, plan.group(d, s[d].pc))
    ensures var s', t := Advance(plan, s, d), plan.Input(s[d].pc);
      && s'[d].status.time == latest + plan.work(d, s[d].pc).duration && s'[d].synced == s[d].synced
      && forall m: nat | m < |s| && m != d ::
           if m in plan.group(d, s[d].pc) then s'[m].status.time == latest && s'[m].synced == s[m].synced + {t}
           else s'[m] == s[m]
  {
    var g, t := plan.group(d, s[d].pc), plan.Input(s[d].pc);
    var s1 := RaiseClocks(s, g, t, latest);
    assert SyncDevices(s, d, g, t) == s1[d := s1[d].(synced := s1[d].synced - {t})];
    assert s1[d].synced - {t} == s[d].synced;
  }
}
