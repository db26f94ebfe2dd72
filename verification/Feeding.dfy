/** When a node can run, read off the list alone: which nodes make a tensor ready, where a poll stops, and which lists
    are run to their end (src/module/module_graph.cpp, src/module/module.cpp, src/hardware/cluster.cpp). */
module Feeding {
  import opened ModuleGraph
  import opened Polling

  /** Node p is a module that produces tensor t, whatever kind of input it takes. */
  ghost predicate Makes(plan: Plan, p: nat, t: nat) {
    p < |plan.nodes| && plan.nodes[p].Push? &&
    match plan.nodes[p].kind
    case Container => false
    case Leaf(_, outputs) => t in outputs
    case LeafVec(_, outputs) => t in outputs
    case Sync(_, outputs) => t in outputs
  }

  /** Tensor t is there before node p: it is the model's input or an earlier node produces it. */
  ghost predicate Made(plan: Plan, p: nat, t: nat) {
    t == plan.source || exists q: nat | q < p :: Makes(plan, q, t)
  }

  /** Once a node is passed, all that it produces is ready, and nothing else ever is. */
  lemma {:induction false} ReadyIsMade(plan: Plan, p: nat, t: nat)
    requires p <= |plan.nodes|
    ensures t in plan.ReadyAt(p) <==> Made(plan, p, t)
  {
    if p > 0 {
      ReadyIsMade(plan, p - 1, t);
      assert t in plan.Outputs(p - 1) <==> Makes(plan, p - 1, t);
    }
  }

  /** Device d, having come to node p while the others stand still, finds what p waits for. */
  ghost predicate CanRun(plan: Plan, s: State, d: nat, p: nat) {
    p < |plan.nodes| && (plan.nodes[p].Push? ==>
      match plan.nodes[p].kind
      case Container => true
      case Leaf(t, _) => Made(plan, p, t)
      case LeafVec(count, _) => count > 0
      case Sync(t, _) =>
        forall m | m in plan.group(d, p) :: m < |s| && Made(plan, if m == d then p else s[m].pc, t))
  }

  lemma {:induction false} SyncCanRun(plan: Plan, s: State, s1: State, d: nat, t: nat)
    requires Tracks(plan, s) && Tracks(plan, s1) && d < |s| && s[d].pc < |plan.nodes|
    requires forall m: nat | m < |s| :: s1[m].pc == s[m].pc
    ensures AllReady(s1, plan.group(d, s[d].pc), t) <==>
      forall m | m in plan.group(d, s[d].pc) :: m < |s| && Made(plan, s[m].pc, t)
  {
    var g := plan.group(d, s[d].pc);
    forall m | m in g && m < |s|
      ensures t in s1[m].ready <==> Made(plan, s[m].pc, t)
    {
      ReadyIsMade(plan, s[m].pc, t);
    }
    if AllReady(s1, g, t) {
      forall m | m in g
        ensures m < |s| && Made(plan, s[m].pc, t)
      {
        var i :| 0 <= i < |g| && g[i] == m;
        assert t in s1[g[i]].ready;
      }
    } else if Below(g, |s|) {
      var i :| 0 <= i < |g| && t !in s1[g[i]].ready;
      assert g[i] in g;
    } else {
      var i :| 0 <= i < |g| && g[i] >= |s|;
      assert g[i] in g;
    }
  }

  lemma {:induction false} ReadyWhenItCanRun(plan: Plan, s: State, d: nat)
    requires Tracks(plan, s) && d < |s| && s[d].pc < |plan.nodes|
    ensures CheckReady(plan, Stamp(plan, s, d), d) <==> CanRun(plan, s, d, s[d].pc)
  {
    var p, s1 := s[d].pc, Stamp(plan, s, d);
    StampMovesNobody(plan, s, d);
    match plan.nodes[p] {
    case Pop =>
    case Push(Container) =>
    case Push(Leaf(t, _)) => ReadyIsMade(plan, p, t);
    case Push(LeafVec(_, _)) =>
    case Push(Sync(t, _)) =>
      SyncCanRun(plan, s, s1, d, t);
    }
  }

  lemma {:induction false} OthersDecide(plan: Plan, s: State, s': State, d: nat, p: nat)
    requires |s'| == |s| && forall m: nat | m < |s| && m != d :: s'[m].pc == s[m].pc
    ensures CanRun(plan, s', d, p) <==> CanRun(plan, s, d, p)
  {
  }

  /** From where device d is, all nodes before `stop` can run, and the one there cannot, or the list ends. */
  ghost predicate Reaches(plan: Plan, s: State, d: nat, stop: nat)
    requires d < |s|
  {
    && s[d].pc <= stop <= |plan.nodes| && !CanRun(plan, s, d, stop)
    && forall p: nat | s[d].pc <= p < stop :: CanRun(plan, s, d, p)
  }

  /** A poll goes on exactly as long as nodes find their inputs. */
  lemma {:induction false} PollStopsWhereInputIsMissing(plan: Plan, s: State, d: nat)
    requires Tracks(plan, s) && d < |s|
    ensures Reaches(plan, s, d, RunDevice(plan, s, d)[d].pc)
    decreases if s[d].pc < |plan.nodes| then |plan.nodes| - s[d].pc else 0
  {
    PollTracks(plan, s, d);
    if s[d].pc < |plan.nodes| {
      var s1 := Stamp(plan, s, d);
      StampMovesNobody(plan, s, d);
      ReadyWhenItCanRun(plan, s, d);
      if CheckReady(plan, s1, d) {
        var s2 := Advance(plan, s1, d);
        AdvanceMovesOne(plan, s1, d);
        PollStopsWhereInputIsMissing(plan, s2, d);
        forall p: nat
          ensures CanRun(plan, s2, d, p) <==> CanRun(plan, s, d, p)
        {
          OthersDecide(plan, s, s2, d, p);
        }
      }
    }
  }

  // ------------------------------------------- which lists come to their end

  /** Node p's input is the model's input or the product of an earlier node; a list of inputs is not empty. */
  ghost predicate HasInput(plan: Plan, p: nat)
    requires p < |plan.nodes|
  {
    plan.nodes[p].Push? ==>
      match plan.nodes[p].kind
      case Container => true
      case Leaf(t, _) => Made(plan, p, t)
      case LeafVec(count, _) => count > 0
      case Sync(t, _) => Made(plan, p, t)
  }

  ghost predicate EveryInputIsMade(plan: Plan) {
    forall p: nat | p < |plan.nodes| :: HasInput(plan, p)
  }

  lemma {:induction false} FeedsWhenMade(plan: Plan, p: nat)
    requires p < |plan.nodes|
    ensures plan.Feeds(p) <==> HasInput(plan, p)
  {
    match plan.nodes[p] {
    case Pop =>
    case Push(Container) =>
    case Push(Leaf(t, _)) => ReadyIsMade(plan, p, t);
    case Push(LeafVec(_, _)) =>
    case Push(Sync(t, _)) => ReadyIsMade(plan, p, t);
    }
  }

  /** The lists that count as fed are those in which every node's input is made before it. */
  lemma {:induction false} FedWhenMade(plan: Plan)
    ensures plan.Fed() <==> plan.Agrees() && EveryInputIsMade(plan)
  {
    forall p: nat | p < |plan.nodes|
      ensures plan.Feeds(p) <==> HasInput(plan, p)
    {
      FeedsWhenMade(plan, p);
    }
  }

  /** Nobody ever gets past a node whose input no earlier node makes. */
  lemma {:induction false} NobodyPasses(plan: Plan, s: State, schedule: seq<nat>, p: nat)
    requires plan.Agrees() && Tracks(plan, s) && Below(schedule, |s|)
    requires p < |plan.nodes| && !HasInput(plan, p) && forall m: nat | m < |s| :: s[m].pc <= p
    ensures forall m: nat | m < |s| :: RunSchedule(plan, s, schedule)[m].pc <= p
  {
    if schedule != [] {
      var init, d := schedule[..|schedule| - 1], schedule[|schedule| - 1];
      var s1 := RunSchedule(plan, s, init);
      NobodyPasses(plan, s, init, p);
      ScheduleTracks(plan, s, init);
      PollTracks(plan, s1, d);
      PollStopsWhereInputIsMissing(plan, s1, d);
      assert plan.IsSync(p) ==> plan.GroupsAgree(d, p);
      assert !CanRun(plan, s1, d, p);
    }
  }

  /** Each pass polls every device, in some order. */
  ghost predicate Fair(passes: seq<seq<nat>>, n: nat) {
    forall i | 0 <= i < |passes| :: Below(passes[i], n) && forall d: nat | d < n :: d in passes[i]
  }

  /** Liveness, both ways: polling all devices often enough brings every one to the end of its list exactly when
      every node's input is the model's input or produced by an earlier node, and no list of inputs is empty. */
  lemma {:induction false} FinishesExactlyWhenFed(plan: Plan, s: State, passes: seq<seq<nat>>)
    requires plan.Agrees() && plan.devices > 0 && Tracks(plan, s) && forall m: nat | m < |s| :: s[m].pc == 0
    requires Fair(passes, |s|) && |passes| >= |s| * |plan.nodes|
    ensures Below(Concat(passes), |s|)
    ensures Finished(plan, RunSchedule(plan, s, Concat(passes))) <==> EveryInputIsMade(plan)
  {
    FedWhenMade(plan);
    ConcatBelow(passes, |s|);
    if plan.Fed() {
      FairPassesFinish(plan, s, passes);
    } else {
      var p: nat :| p < |plan.nodes| && !HasInput(plan, p);
      NobodyPasses(plan, s, Concat(passes), p);
      assert RunSchedule(plan, s, Concat(passes))[0].pc <= p;
    }
  }
}
