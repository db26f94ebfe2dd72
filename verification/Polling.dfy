/** Polling always ends: as long as every node is fed by earlier ones, a pass over the devices moves one of them
    (src/hardware/cluster.cpp, src/module/module_graph.cpp). */
module Polling {
  import opened ModuleGraph

  /** Every device has made ready what the nodes before it produce. */
  ghost predicate Tracks(plan: Plan, s: State) {
    && |s| == plan.devices
    && forall m: nat | m < |s| :: s[m].pc <= |plan.nodes| && s[m].ready == plan.ReadyAt(s[m].pc)
  }

  /** Where the devices of s' are, compared with s: only d may have moved. */
  ghost predicate OnlyMoves(s: State, s': State, d: nat, from: nat, to: nat) {
    && |s'| == |s| && d < |s| && s[d].pc == from && s'[d].pc == to
    && forall m: nat | m < |s| && m != d :: s'[m].pc == s[m].pc && s'[m].ready == s[m].ready
  }

  lemma {:induction false} StampMovesNobody(plan: Plan, s: State, d: nat)
    requires d < |s| && s[d].pc < |plan.nodes|
    ensures var s1 := Stamp(plan, s, d);
      OnlyMoves(s, s1, d, s[d].pc, s[d].pc) && s1[d].ready == s[d].ready && s1[d].synced == s[d].synced
  {
  }

  lemma {:induction false} AdvanceMovesOne(plan: Plan, s: State, d: nat)
    requires d < |s| && s[d].pc < |plan.nodes| && CheckReady(plan, s, d)
    ensures var s1 := Advance(plan, s, d);
      OnlyMoves(s, s1, d, s[d].pc, s[d].pc + 1) && s1[d].ready == s[d].ready + plan.Outputs(s[d].pc)
  {
    var p := s[d].pc;
    var s1 := if plan.IsSync(p) then SyncDevices(s, d, plan.group(d, p), plan.Input(p)) else s;
    assert forall m: nat | m < |s| :: s1[m].pc == s[m].pc && s1[m].ready == s[m].ready;
  }

  /** One poll moves its device forward only, and nobody else. */
  lemma {:induction false} PollTracks(plan: Plan, s: State, d: nat)
    requires d < |s| && Tracks(plan, s)
    ensures Tracks(plan, RunDevice(plan, s, d))
    ensures OnlyMoves(s, RunDevice(plan, s, d), d, s[d].pc, RunDevice(plan, s, d)[d].pc)
    ensures s[d].pc <= RunDevice(plan, s, d)[d].pc
    ensures s[d].pc < |plan.nodes| && CheckReady(plan, Stamp(plan, s, d), d) ==> s[d].pc < RunDevice(plan, s, d)[d].pc
    decreases if s[d].pc < |plan.nodes| then |plan.nodes| - s[d].pc else 0
  {
    if s[d].pc < |plan.nodes| {
      var s1 := Stamp(plan, s, d);
      StampMovesNobody(plan, s, d);
      if CheckReady(plan, s1, d) {
        AdvanceMovesOne(plan, s1, d);
        PollTracks(plan, Advance(plan, s1, d), d);
      }
    }
  }

  /** Positions only grow while devices are polled. */
  lemma {:induction false} ScheduleTracks(plan: Plan, s: State, schedule: seq<nat>)
    requires Tracks(plan, s) && Below(schedule, |s|)
    ensures Tracks(plan, RunSchedule(plan, s, schedule))
    ensures forall m: nat | m < |s| :: s[m].pc <= RunSchedule(plan, s, schedule)[m].pc
  {
    if schedule != [] {
      var init, d := schedule[..|schedule| - 1], schedule[|schedule| - 1];
      ScheduleTracks(plan, s, init);
      PollTracks(plan, RunSchedule(plan, s, init), d);
    }
  }

  // -------------------------------------------------------------- progress

  lemma {:induction false} ReadyGrows(plan: Plan, p: nat, q: nat)
    requires p <= q <= |plan.nodes|
    ensures plan.ReadyAt(p) <= plan.ReadyAt(q)
    decreases q - p
  {
    if p < q {
      ReadyGrows(plan, p, q - 1);
    }
  }

  /** Nothing blocks a device that nobody is behind. */
  lemma {:induction false} LeastIsReady(plan: Plan, s: State, d: nat)
    requires plan.Fed() && Tracks(plan, s) && d < |s| && s[d].pc < |plan.nodes|
    requires forall m: nat | m < |s| :: s[d].pc <= s[m].pc
    ensures CheckReady(plan, Stamp(plan, s, d), d)
  {
    var p, s1 := s[d].pc, Stamp(plan, s, d);
    StampMovesNobody(plan, s, d);
    assert plan.Feeds(p);
    if plan.IsSync(p) {
      var g := plan.group(d, p);
      assert plan.GroupsAgree(d, p);
      forall i | 0 <= i < |g|
        ensures plan.Input(p) in s1[g[i]].ready
      {
        ReadyGrows(plan, p, s[g[i]].pc);
      }
    }
  }

  /** A poll of an unfinished device that nobody is behind always moves it. */
  lemma {:induction false} LeastDeviceMoves(plan: Plan, s: State, d: nat)
    requires plan.Fed() && Tracks(plan, s) && d < |s| && s[d].pc < |plan.nodes|
    requires forall m: nat | m < |s| :: s[d].pc <= s[m].pc
    ensures RunDevice(plan, s, d)[d].pc > s[d].pc
  {
    LeastIsReady(plan, s, d);
    PollTracks(plan, s, d);
  }

  lemma {:induction false} ScheduleAppend(plan: Plan, s: State, a: seq<nat>, b: seq<nat>)
    requires Below(a, |s|) && Below(b, |s|)
    ensures RunSchedule(plan, s, a + b) == RunSchedule(plan, RunSchedule(plan, s, a), b)
  {
    if b == [] {
      assert a + b == a;
    } else {
      assert (a + b)[..|a + b| - 1] == a + b[..|b| - 1];
      ScheduleAppend(plan, s, a, b[..|b| - 1]);
    }
  }

  /** The number of nodes the first k devices have passed. */
  function Position(s: State, k: nat): nat
    requires k <= |s|
  {
    if k == 0 then 0 else Position(s, k - 1) + s[k - 1].pc
  }

  lemma {:induction false} PositionGrows(s: State, s': State, k: nat, d: nat)
    requires k <= |s| == |s'|
    requires forall m: nat | m < |s| :: s[m].pc <= s'[m].pc
    ensures Position(s', k) >= Position(s, k)
    ensures d < k && s[d].pc < s'[d].pc ==> Position(s', k) > Position(s, k)
  {
    if k > 0 {
      PositionGrows(s, s', k - 1, d);
    }
  }

  lemma {:induction false} PositionIsBounded(plan: Plan, s: State, k: nat)
    requires k <= |s| && forall m: nat | m < |s| :: s[m].pc <= |plan.nodes|
    ensures Position(s, k) <= k * |plan.nodes|
    ensures Position(s, k) == k * |plan.nodes| ==> forall m: nat | m < k :: s[m].pc == |plan.nodes|
  {
    if k > 0 {
      PositionIsBounded(plan, s, k - 1);
      assert (k - 1) * |plan.nodes| + |plan.nodes| == k * |plan.nodes|;
    }
  }

  lemma {:induction false} LeastDevice(s: State, k: nat) returns (d: nat)
    requires 0 < k <= |s|
    ensures d < k && forall m: nat | m < k :: s[d].pc <= s[m].pc
  {
    if k == 1 {
      d := 0;
    } else {
      d := LeastDevice(s, k - 1);
      if s[k - 1].pc < s[d].pc {
        d := k - 1;
      }
    }
  }

  /** Deadlock freedom: a pass over the devices, in any order, moves at least one of them. */
  lemma {:induction false} PassMakesProgress(plan: Plan, s: State, pass: seq<nat>)
    requires plan.Fed() && Tracks(plan, s) && !Finished(plan, s)
    requires Below(pass, |s|) && forall d: nat | d < |s| :: d in pass
    ensures Position(RunSchedule(plan, s, pass), |s|) > Position(s, |s|)
  {
    var d := LeastDevice(s, |s|);
    assert exists m: nat :: m < |s| && s[m].pc != |plan.nodes|;
    assert d in pass;
    var i :| 0 <= i < |pass| && pass[i] == d;
    PolledOnTheWay(plan, s, pass, i);
    PositionGrows(s, RunSchedule(plan, s, pass), |s|, d);
  }

  /** The device that nobody is behind moves when its turn comes, if not before. */
  lemma {:induction false} PolledOnTheWay(plan: Plan, s: State, pass: seq<nat>, i: nat)
    requires plan.Fed() && Tracks(plan, s) && Below(pass, |s|) && i < |pass|
    requires s[pass[i]].pc < |plan.nodes| && forall m: nat | m < |s| :: s[pass[i]].pc <= s[m].pc
    ensures RunSchedule(plan, s, pass)[pass[i]].pc > s[pass[i]].pc
    ensures forall m: nat | m < |s| :: s[m].pc <= RunSchedule(plan, s, pass)[m].pc
  {
    var d, before, upTo, after := pass[i], pass[..i], pass[..i + 1], pass[i + 1..];
    var s1, s2 := RunSchedule(plan, s, before), RunSchedule(plan, s, upTo);
    ScheduleTracks(plan, s, before);
    ScheduleTracks(plan, s, upTo);
    PassSplits(pass, i);
    assert s2 == RunDevice(plan, s1, d);
    if s1[d].pc == s[d].pc {
      LeastDeviceMoves(plan, s1, d);
    } else {
      PollTracks(plan, s1, d);
    }
    ScheduleAppend(plan, s, upTo, after);
    ScheduleTracks(plan, s2, after);
  }

  lemma {:induction false} PassSplits(pass: seq<nat>, i: nat)
    requires i < |pass|
    ensures pass[..i + 1][..i] == pass[..i] && pass == pass[..i + 1] + pass[i + 1..]
  {
  }

  function Concat(passes: seq<seq<nat>>): seq<nat> {
    if passes == [] then [] else passes[0] + Concat(passes[1..])
  }

  lemma {:induction false} ConcatBelow(passes: seq<seq<nat>>, n: nat)
    requires forall i | 0 <= i < |passes| :: Below(passes[i], n)
    ensures Below(Concat(passes), n)
  {
    if passes != [] {
      ConcatBelow(passes[1..], n);
    }
  }

  /** Termination: enough passes, each polling every device in some order, finish every device. */
  lemma {:induction false} FairPassesFinish(plan: Plan, s: State, passes: seq<seq<nat>>)
    requires plan.Fed() && Tracks(plan, s)
    requires forall i | 0 <= i < |passes| :: Below(passes[i], |s|) && forall d: nat | d < |s| :: d in passes[i]
    requires Position(s, |s|) + |passes| >= |s| * |plan.nodes|
    ensures Below(Concat(passes), |s|) && Finished(plan, RunSchedule(plan, s, Concat(passes)))
    decreases |passes|
  {
    ConcatBelow(passes, |s|);
    PositionIsBounded(plan, s, |s|);
    if Finished(plan, s) {
      ScheduleTracks(plan, s, Concat(passes));
    } else if passes != [] {
      ScheduleTracks(plan, s, passes[0]);
      PassMakesProgress(plan, s, passes[0]);
      ConcatBelow(passes[1..], |s|);
      ScheduleAppend(plan, s, passes[0], Concat(passes[1..]));
      FairPassesFinish(plan, RunSchedule(plan, s, passes[0]), passes[1..]);
    }
  }
}
