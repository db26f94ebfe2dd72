/** One run of the module graphs of all devices, step by step (src/module/module_graph.cpp). Every
    device holds the same list of graph nodes; its own module names, durations and energies are inputs. */
module ModuleGraph {
  import opened Basics

  /** What a push node does when it is reached. */
  datatype Kind =
    | Container                                       // a module that only groups others
    | Leaf(input: nat, outputs: set<nat>)             // runs once its input tensor is ready
    | LeafVec(inputs: nat, outputs: set<nat>)         // takes a list of tensors, of the given length
    | Sync(input: nat, outputs: set<nat>)             // waits for the same tensor on every member device

  predicate Below(ids: seq<nat>, n: nat) {
    forall i | 0 <= i < |ids| :: ids[i] < n
  }

  datatype Node = Push(kind: Kind) | Pop

  /** Time and counters one node adds to its device. */
  datatype Work = Work(duration: real, energy: real, flops: real) {
    function Amount(c: Counter): real {
      match c case Energy => energy case Flops => flops
    }
  }

  /** The counters that a device accumulates. */
  datatype Counter = Energy | Flops

  /** The nodes of every device, and for a device and a position the module's name, the devices it waits for
      if it synchronizes, and its work. */
  datatype Plan = Plan(nodes: seq<Node>, devices: nat, source: nat, name: (nat, nat) -> string,
                       group: (nat, nat) -> seq<nat>, work: (nat, nat) -> Work)
  {
    predicate IsSync(p: nat) {
      p < |nodes| && nodes[p].Push? && nodes[p].kind.Sync?
    }

    /** The tensors that node p makes ready. */
    function Outputs(p: nat): set<nat>
      requires p < |nodes|
    {
      if nodes[p].Pop? || nodes[p].kind.Container? then {} else nodes[p].kind.outputs
    }

    ghost predicate Produces(p: nat, t: nat) {
      p < |nodes| && t in Outputs(p)
    }

    /** Tensors ready on a device that has passed the nodes before p. */
    function ReadyAt(p: nat): set<nat>
      requires p <= |nodes|
    {
      if p == 0 then {source} else ReadyAt(p - 1) + Outputs(p - 1)
    }

    /** The devices that wait for each other at p agree on who they are. */
    ghost predicate GroupsAgree(d: nat, p: nat) {
      && d in group(d, p)
      && Below(group(d, p), devices)
      && forall m | m in group(d, p) :: group(m, p) == group(d, p)
    }

    /** The tensor a sync node waits for. */
    function Input(p: nat): nat
      requires IsSync(p)
    {
      nodes[p].kind.input
    }

    /** A node finds its input once its device and the devices it waits for have come as far. */
    ghost predicate Feeds(p: nat)
      requires p < |nodes|
    {
      nodes[p].Push? ==>
        match nodes[p].kind
        case Container => true
        case Leaf(t, _) => t in ReadyAt(p)
        case LeafVec(k, _) => k > 0
        case Sync(t, _) => t in ReadyAt(p)
    }

    ghost predicate Agrees() {
      forall d: nat, p: nat | d < devices && IsSync(p) :: GroupsAgree(d, p)
    }

    /** Position-aligned programs whose nodes are fed by earlier nodes. */
    ghost predicate Fed() {
      Agrees() && forall p: nat | p < |nodes| :: Feeds(p)
    }

    /** A sync node's input is first produced at or after the sync node before it. */
    ghost predicate Fresh(p: nat)
      requires IsSync(p)
    {
      && Input(p) != source
      && forall q: nat, r: nat | q < r < p && IsSync(r) :: !Produces(q, Input(p))
    }

    /** The time node p takes on a device: what its pop adds, or a sync node's own traffic. */
    function Takes(d: nat, p: nat): real {
      if p < |nodes| && (nodes[p].Pop? || IsSync(p)) then work(d, p).duration else 0.0
    }

    /** r is the last sync node before p. */
    ghost predicate LastSync(r: nat, p: nat) {
      r < p && IsSync(r) && forall q: nat | r < q < p :: !IsSync(q)
    }

    /** Sync node p waits for an older tensor right after a sync node on another, fresh one: its groups lie inside
        those of r, and no device takes any time from r up to p. */
    ghost predicate Follows(p: nat, r: nat)
      requires IsSync(p)
    {
      && LastSync(r, p) && Fresh(r) && Input(r) != Input(p)
      && (forall d: nat, m | d < devices && m in group(d, p) :: m in group(d, r))
      && forall d: nat, q: nat | d < devices && r <= q < p :: Takes(d, q) == 0.0
    }

    ghost predicate Timely(p: nat)
      requires IsSync(p)
    {
      Fresh(p) || exists r: nat :: Follows(p, r)
    }

    ghost predicate NoTimeBack() {
      forall d: nat, p: nat :: work(d, p).duration >= 0.0
    }

    /** Programs that are fed, and whose sync nodes wait for fresh tensors or follow one that does. */
    ghost predicate Valid() {
      Fed() && NoTimeBack() && forall p: nat | IsSync(p) :: Timely(p)
    }
  }

  // ---------------------------------------------------------- device state

  /** The clocks and counters of a device. */
  datatype Status = Status(time: real, low: real, high: real, energy: real, flops: real)

  const ZERO := Status(0.0, 0.0, 0.0, 0.0, 0.0)

  /** A call to the device's timeboard, with the clock and counters it passed. */
  datatype Event =
    | Opened(name: string, time: real, energy: real, flops: real)
    | Closed(time: real, energy: real, flops: real)

  /** A device: its place in the list, its tensors' flags, and the timeboard calls it has made. */
  datatype Dev = Dev(pc: nat, status: Status, ready: set<nat>, synced: set<nat>, stamped: set<nat>, log: seq<Event>)

  type State = seq<Dev>

  /** The clock update on reaching a push node that does not run in a parallel lane. */
  function PushStatus(st: Status): Status {
    var t := MaxReal(st.time, MaxReal(st.low, st.high));
    st.(time := t, low := t, high := t)
  }

  function PopStatus(st: Status, w: Work): Status {
    st.(time := st.time + w.duration, energy := st.energy + w.energy, flops := st.flops + w.flops)
  }

  /** Stamps the node a device stands at, once. */
  function SetStamp(plan: Plan, d: nat, dev: Dev): Dev
    requires dev.pc < |plan.nodes|
  {
    if dev.pc in dev.stamped then dev
    else
      match plan.nodes[dev.pc]
      case Push(_) =>
        var st := PushStatus(dev.status);
        dev.(status := st, stamped := dev.stamped + {dev.pc},
             log := dev.log + [Opened(plan.name(d, dev.pc), st.time, st.energy, st.flops)])
      case Pop =>
        var st := PopStatus(dev.status, plan.work(d, dev.pc));
        dev.(status := st, stamped := dev.stamped + {dev.pc},
             log := dev.log + [Closed(st.time, st.energy, st.flops)])
  }

  /** The latest clock among the members of a group. */
  function LatestTime(s: State, g: seq<nat>): real
    requires Below(g, |s|)
  {
    if g == [] then 0.0 else MaxReal(LatestTime(s, g[..|g| - 1]), s[g[|g| - 1]].status.time)
  }

  /** Raises every member's clock and flags its copy of the tensor. */
  function RaiseClocks(s: State, g: seq<nat>, t: nat, time: real): (s': State)
    ensures |s'| == |s|
  {
    seq(|s|, m requires 0 <= m < |s| =>
      if m in g then s[m].(synced := s[m].synced + {t}, status := s[m].status.(time := time)) else s[m])
  }

  /** The first member to arrive synchronizes everybody; the others find their flag set. */
  function SyncDevices(s: State, d: nat, g: seq<nat>, t: nat): (s': State)
    requires d < |s| && Below(g, |s|)
    ensures |s'| == |s|
  {
    var s1 := if t in s[d].synced then s else RaiseClocks(s, g, t, LatestTime(s, g));
    s1[d := s1[d].(synced := s1[d].synced - {t})]
  }

  predicate AllReady(s: State, g: seq<nat>, t: nat) {
    Below(g, |s|) && forall i | 0 <= i < |g| :: t in s[g[i]].ready
  }

  /** Whether the node device d stands at may run. */
  predicate CheckReady(plan: Plan, s: State, d: nat)
    requires d < |s| && s[d].pc < |plan.nodes|
  {
    plan.nodes[s[d].pc].Push? ==>
      match plan.nodes[s[d].pc].kind
      case Container => true
      case Leaf(t, _) => t in s[d].ready
      case LeafVec(k, _) => k != 0
      case Sync(t, _) => AllReady(s, plan.group(d, s[d].pc), t)
  }

  /** Runs the node device d stands at and moves on. */
  function Advance(plan: Plan, s: State, d: nat): (s': State)
    requires d < |s| && s[d].pc < |plan.nodes| && CheckReady(plan, s, d)
    ensures |s'| == |s|
  {
    var p := s[d].pc;
    var s1 := if plan.IsSync(p) then SyncDevices(s, d, plan.group(d, p), plan.nodes[p].kind.input) else s;
    var comm := if plan.IsSync(p) then plan.work(d, p).duration else 0.0;
    var dev := s1[d];
    s1[d := dev.(pc := p + 1, ready := dev.ready + plan.Outputs(p),
                 status := dev.status.(time := dev.status.time + comm))]
  }

  function Stamp(plan: Plan, s: State, d: nat): State
    requires d < |s| && s[d].pc < |plan.nodes|
  {
    s[d := SetStamp(plan, d, s[d])]
  }

  /** One poll: the device runs until a node blocks it or its list ends. */
  function RunDevice(plan: Plan, s: State, d: nat): (s': State)
    requires d < |s|
    ensures |s'| == |s|
    decreases if s[d].pc < |plan.nodes| then |plan.nodes| - s[d].pc else 0
  {
    if s[d].pc >= |plan.nodes| then s
    else
      var s1 := Stamp(plan, s, d);
      if CheckReady(plan, s1, d) then RunDevice(plan, Advance(plan, s1, d), d) else s1
  }

  /** Devices polled one after another, in any order. */
  function RunSchedule(plan: Plan, s: State, schedule: seq<nat>): (s': State)
    requires Below(schedule, |s|)
    ensures |s'| == |s|
  {
    if schedule == [] then s
    else RunDevice(plan, RunSchedule(plan, s, schedule[..|schedule| - 1]), schedule[|schedule| - 1])
  }

  function Restarted(plan: Plan, synced: set<nat>): Dev {
    Dev(0, ZERO, {plan.source}, synced, {}, [])
  }

  ghost predicate Finished(plan: Plan, s: State) {
    forall d | 0 <= d < |s| :: s[d].pc == |plan.nodes|
  }

  // -------------------------------------------------------- lock-step model

  /** Clock and counters of a device, without low and high lanes. */
  datatype Reading = Reading(time: real, energy: real, flops: real) {
    function Amount(c: Counter): real {
      match c case Energy => energy case Flops => flops
    }
  }

  /** The reference: all devices go through the list together. Node by node a device does its own
      work, and at a sync node takes the latest clock of its group. */
  ghost function At(plan: Plan, d: nat, p: nat): Reading
    requires p <= |plan.nodes|
    decreases p, 0
  {
    if p == 0 then Reading(0.0, 0.0, 0.0)
    else
      var r, w := At(plan, d, p - 1), plan.work(d, p - 1);
      if plan.nodes[p - 1].Pop? then Reading(r.time + w.duration, r.energy + w.energy, r.flops + w.flops)
      else if plan.IsSync(p - 1) then r.(time := Barrier(plan, plan.group(d, p - 1), p - 1) + w.duration)
      else r
  }

  /** The latest clock of a group on arrival at p. */
  ghost function Barrier(plan: Plan, g: seq<nat>, p: nat): real
    requires p <= |plan.nodes|
    decreases p, 1, |g|
  {
    if g == [] then 0.0 else MaxReal(Barrier(plan, g[..|g| - 1], p), At(plan, g[|g| - 1], p).time)
  }

  ghost function EventAt(plan: Plan, d: nat, p: nat): Event
    requires p < |plan.nodes|
  {
    match plan.nodes[p]
    case Push(_) => var r := At(plan, d, p); Opened(plan.name(d, p), r.time, r.energy, r.flops)
    case Pop => var r := At(plan, d, p + 1); Closed(r.time, r.energy, r.flops)
  }

  /** The timeboard calls of a device that has stamped the nodes before p. */
  ghost function LogAt(plan: Plan, d: nat, p: nat): seq<Event>
    requires p <= |plan.nodes|
  {
    if p == 0 then [] else LogAt(plan, d, p - 1) + [EventAt(plan, d, p - 1)]
  }
}
