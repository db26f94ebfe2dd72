/** The devices of a cluster and the loop that polls them (src/hardware/cluster.cpp,
    src/module/module_graph.cpp). */
module Cluster {
  import opened Basics
  import opened ModuleGraph
  import opened Feeding
  import opened LockStep
  import opened Polling

  class Device {
    var currentModule: nat
    var status: Status
    var ready: set<nat>
    var synced: set<nat>
    var stamped: set<nat>
    var log: seq<Event>

    constructor ()
      ensures synced == {}
    {
      currentModule, status, ready, synced, stamped, log := 0, ZERO, {}, {}, {}, [];
    }

    function View(): Dev
      reads this
    {
      Dev(currentModule, status, ready, synced, stamped, log)
    }

    /** restart_graph, reset_status and reset_timeboard; the sync flags are left as they are. */
    method Restart(plan: Plan)
      modifies this
      ensures View() == Restarted(plan, old(synced))
    {
      currentModule, stamped := 0, {};
      ready := {plan.source};
      status := ZERO;
      log := [];
    }

    /** Stamps the current node unless that was done at an earlier attempt to run it. */
    method StampCurrent(plan: Plan, rank: nat)
      requires currentModule < |plan.nodes|
      modifies this
      ensures View() == SetStamp(plan, rank, old(View()))
    {
      if currentModule !in stamped {
        match plan.nodes[currentModule] {
        case Push(_) =>
          var time := MaxReal(status.time, MaxReal(status.low, status.high));
          status := status.(time := time, low := time, high := time);
          log := log + [Opened(plan.name(rank, currentModule), status.time, status.energy, status.flops)];
        case Pop =>
          var work := plan.work(rank, currentModule);
          status := status.(time := status.time + work.duration,
                            energy := status.energy + work.energy, flops := status.flops + work.flops);
          log := log + [Closed(status.time, status.energy, status.flops)];
        }
        stamped := stamped + {currentModule};
      }
    }
  }

  class Cluster {
    const devices: seq<Device>

    /** The plan is one for these devices; the work of its nodes may be another in every run. */
    ghost predicate Fits(plan: Plan) {
      && plan.Agrees()
      && |devices| == plan.devices
      && Distinct()
    }

    ghost predicate Distinct() {
      forall i, j | 0 <= i < j < |devices| :: devices[i] != devices[j]
    }

    /** No device has a tensor flagged as synchronized. */
    ghost predicate FlagsAreDown()
      reads devices
    {
      forall k | 0 <= k < |devices| :: devices[k].synced == {}
    }

    /** The state of all devices. */
    function Snapshot(): (s: State)
      reads devices
      ensures |s| == |devices| && forall i | 0 <= i < |devices| :: s[i] == devices[i].View()
    {
      seq(|devices|, i requires 0 <= i < |devices| reads devices => devices[i].View())
    }

    constructor (n: nat)
      ensures |devices| == n && Distinct() && fresh(devices) && FlagsAreDown()
    {
      var ds: seq<Device> := [];
      for i := 0 to n
        invariant |ds| == i && fresh(ds)
        invariant forall k | 0 <= k < i :: ds[k].synced == {}
        invariant forall j, k | 0 <= j < k < i :: ds[j] != ds[k]
      {
        var d := new Device();
        ds := ds + [d];
      }
      devices := ds;
    }

    /** The latest clock among the given devices. */
    method LatestClock(ranks: seq<nat>) returns (time: real)
      requires Below(ranks, |devices|)
      ensures time == LatestTime(Snapshot(), ranks)
    {
      time := 0.0;
      for i := 0 to |ranks|
        invariant time == LatestTime(Snapshot(), ranks[..i])
      {
        assert ranks[..i + 1][..i] == ranks[..i];
        time := MaxReal(time, devices[ranks[i]].status.time);
      }
      assert ranks[..|ranks|] == ranks;
    }

    /** Sets every member's clock to the given time and flags its copy of the tensor. */
    method SetClocks(ranks: seq<nat>, input: nat, time: real)
      requires Distinct() && Below(ranks, |devices|)
      modifies devices
      ensures Snapshot() == RaiseClocks(old(Snapshot()), ranks, input, time)
    {
      ghost var before := Snapshot();
      for i := 0 to |ranks|
        invariant forall k: nat | k < |devices| :: devices[k].View() == RaiseClocks(before, ranks[..i], input, time)[k]
      {
        assert ranks[..i + 1] == ranks[..i] + [ranks[i]];
        var device := devices[ranks[i]];
        device.synced := device.synced + {input};
        device.status := device.status.(time := time);
      }
      assert ranks[..|ranks|] == ranks;
    }

    /** Synchronizes the members' clocks unless another member has done so already. */
    method SyncDevices(rank: nat, ranks: seq<nat>, input: nat)
      requires Distinct() && rank < |devices| && Below(ranks, |devices|)
      modifies devices
      ensures Snapshot() == ModuleGraph.SyncDevices(old(Snapshot()), rank, ranks, input)
    {
      if input !in devices[rank].synced {
        var time := LatestClock(ranks);
        SetClocks(ranks, input, time);
      }
      ghost var s1 := Snapshot();
      devices[rank].synced := devices[rank].synced - {input};
      assert Snapshot() == s1[rank := s1[rank].(synced := s1[rank].synced - {input})];
    }

    /** Whether the given tensor is ready on all the given devices. */
    method CheckListReady(ranks: seq<nat>, input: nat) returns (ready: bool)
      requires Below(ranks, |devices|)
      ensures ready == AllReady(Snapshot(), ranks, input)
    {
      for i := 0 to |ranks|
        invariant forall k | 0 <= k < i :: input in devices[ranks[k]].ready
      {
        if input !in devices[ranks[i]].ready {
          return false;
        }
      }
      return true;
    }

    /** Runs the current node of a device; false if it is blocked. */
    method RunNode(plan: Plan, rank: nat) returns (ran: bool)
      requires Fits(plan) && rank < |devices| && devices[rank].currentModule < |plan.nodes|
      modifies devices
      ensures ran == CheckReady(plan, old(Snapshot()), rank)
      ensures Snapshot() == if ran then Advance(plan, old(Snapshot()), rank) else old(Snapshot())
    {
      var device := devices[rank];
      var p := device.currentModule;
      ghost var s := Snapshot();
      ran := true;
      if plan.nodes[p].Push? {
        match plan.nodes[p].kind {
          case Container =>
          case Leaf(input, _) =>
            ran := input in device.ready;
          case LeafVec(inputs, _) =>
            ran := inputs != 0;
          case Sync(input, _) =>
            assert plan.GroupsAgree(rank, p);
            ran := CheckListReady(plan.group(rank, p), input);
            if ran {
              SyncDevices(rank, plan.group(rank, p), input);
            }
        }
      }
      if ran {
        Forward(plan, rank, s);
      }
    }

    /** Runs a node's module: its outputs become ready, and a sync node's own traffic takes time. */
    method Forward(plan: Plan, rank: nat, ghost s: State)
      requires Fits(plan) && rank < |devices| == |s| && devices[rank].currentModule == s[rank].pc < |plan.nodes|
      requires CheckReady(plan, s, rank)
      requires Snapshot() == if plan.IsSync(s[rank].pc)
        then ModuleGraph.SyncDevices(s, rank, plan.group(rank, s[rank].pc), plan.nodes[s[rank].pc].kind.input) else s
      modifies devices
      ensures Snapshot() == Advance(plan, s, rank)
    {
      var device := devices[rank];
      var p := device.currentModule;
      ghost var s1 := Snapshot();
      if plan.IsSync(p) {
        device.status := device.status.(time := device.status.time + plan.work(rank, p).duration);
      }
      device.ready := device.ready + plan.Outputs(p);
      device.currentModule := p + 1;
      assert Snapshot() == s1[rank := device.View()];
      assert device.View() == Advance(plan, s, rank)[rank];
    }

    /** One poll of a device: it runs until a node does not find its input or its list ends. */
    method RunDevice(plan: Plan, rank: nat)
      requires Fits(plan) && rank < |devices|
      modifies devices
      ensures Snapshot() == ModuleGraph.RunDevice(plan, old(Snapshot()), rank)
    {
      while devices[rank].currentModule < |plan.nodes|
        invariant ModuleGraph.RunDevice(plan, Snapshot(), rank) == ModuleGraph.RunDevice(plan, old(Snapshot()), rank)
        decreases |plan.nodes| - devices[rank].currentModule
      {
        ghost var s := Snapshot();
        devices[rank].StampCurrent(plan, rank);
        assert Snapshot() == Stamp(plan, s, rank);
        var ran := RunNode(plan, rank);
        if !ran {
          return;
        }
      }
    }

    method RemainingModules(plan: Plan) returns (remain: bool)
      requires Fits(plan) && Tracks(plan, Snapshot())
      ensures remain == !Finished(plan, Snapshot())
    {
      for i := 0 to |devices|
        invariant forall k | 0 <= k < i :: devices[k].currentModule == |plan.nodes|
      {
        if devices[i].currentModule != |plan.nodes| {
          return true;
        }
      }
      return false;
    }

    method RestartAll(plan: Plan)
      requires Fits(plan)
      modifies devices
      ensures Snapshot() == LockStep.RestartAll(plan, old(Snapshot()))
    {
      ghost var s := Snapshot();
      for i := 0 to |devices|
        invariant forall k | 0 <= k < i :: devices[k].View() == Restarted(plan, s[k].synced)
        invariant forall k | i <= k < |devices| :: devices[k].synced == s[k].synced
      {
        devices[i].Restart(plan);
      }
    }

    method Begin(plan: Plan) returns (remain: bool)
      requires Fits(plan)
      modifies devices
      ensures Snapshot() == LockStep.RestartAll(plan, old(Snapshot())) && Tracks(plan, Snapshot())
      ensures remain == !Finished(plan, Snapshot())
    {
      RestartAll(plan);
      remain := RemainingModules(plan);
    }

    /** One pass of the polling loop: every device in turn. */
    method PollAll(plan: Plan) returns (ghost pass: seq<nat>)
      requires Fits(plan)
      modifies devices
      ensures Below(pass, |devices|) && forall d: nat | d < |devices| :: d in pass
      ensures Snapshot() == RunSchedule(plan, old(Snapshot()), pass)
    {
      pass := [];
      for rank := 0 to |devices|
        invariant Below(pass, |devices|) && forall k: nat | k < rank :: k in pass
        invariant Snapshot() == RunSchedule(plan, old(Snapshot()), pass)
      {
        RunDevice(plan, rank);
        assert (pass + [rank])[..|pass|] == pass;
        pass := pass + [rank];
      }
    }

    /** A pass that moves at least one device, and keeps the clocks right if they were. */
    method Pass(plan: Plan) returns (remain: bool)
      requires Fits(plan) && plan.Fed() && Tracks(plan, Snapshot()) && !Finished(plan, Snapshot())
      modifies devices
      ensures Tracks(plan, Snapshot()) && remain == !Finished(plan, Snapshot())
      ensures old(Position(Snapshot(), |devices|)) < Position(Snapshot(), |devices|) <= |devices| * |plan.nodes|
      ensures plan.Valid() && old(AtRest(plan, Snapshot())) ==> AtRest(plan, Snapshot())
    {
      ghost var s := Snapshot();
      ghost var pass := PollAll(plan);
      ScheduleTracks(plan, s, pass);
      PassMakesProgress(plan, s, pass);
      PositionIsBounded(plan, Snapshot(), |devices|);
      if plan.Valid() && AtRest(plan, s) {
        ScheduleKeepsInv(plan, s, pass);
      }
      remain := RemainingModules(plan);
    }

    /** Restarts all devices and polls them in turn until every list is consumed, which always ends if every node's
        input is made before it. If the flags of earlier runs are down and the sync nodes wait for fresh tensors, or
        follow one that does, every device matches the reference and the flags are down again. */
    method Run(plan: Plan)
      requires Fits(plan) && EveryInputIsMade(plan)
      modifies devices
      ensures Finished(plan, Snapshot())
      ensures plan.Valid() && old(FlagsAreDown()) ==> EndsInLockStep(plan, Snapshot()) && FlagsAreDown()
    {
      FedWhenMade(plan);
      ghost var right := plan.Valid() && FlagsAreDown();
      ghost var s := Snapshot();
      var remain := Begin(plan);
      if right {
        FreshStart(plan, s);
      }
      while remain
        invariant Tracks(plan, Snapshot()) && remain == !Finished(plan, Snapshot())
        invariant right ==> AtRest(plan, Snapshot())
        decreases |devices| * |plan.nodes| - Position(Snapshot(), |devices|)
      {
        remain := Pass(plan);
      }
      if right {
        RestingAtEnd(plan, Snapshot());
      }
    }

    /** Runs one after another on the same devices, each with work of its own: every run ends in its own
        reference's clocks, counters and events, whatever the runs before it did. */
    method RunAll(plans: seq<Plan>) returns (ghost ends: seq<State>)
      requires FlagsAreDown() && forall i | 0 <= i < |plans| :: Fits(plans[i]) && plans[i].Valid()
      modifies devices
      ensures |ends| == |plans| && FlagsAreDown() && (plans != [] ==> Snapshot() == ends[|ends| - 1])
      ensures forall i | 0 <= i < |plans| :: EndsInLockStep(plans[i], ends[i])
    {
      ends := [];
      for i := 0 to |plans|
        invariant |ends| == i && FlagsAreDown() && (i > 0 ==> Snapshot() == ends[i - 1])
        invariant forall j | 0 <= j < i :: EndsInLockStep(plans[j], ends[j])
      {
        FedWhenMade(plans[i]);
        Run(plans[i]);
        ends := ends + [Snapshot()];
      }
    }
  }
}
