/** Polled execution refines lock-step execution: whatever the order in which devices are polled,
    their clocks, counters and timeboard calls are those of the lock-step reference. */
module LockStep {
  import opened Basics
  import opened ModuleGraph
  import opened Polling

  // ------------------------------------------------------------- invariant

  /** Some device of d's group at sync node q has passed q. */
  ghost predicate Passed(plan: Plan, s: State, d: nat, q: nat) {
    exists m | m in plan.group(d, q) && m < |s| :: s[m].pc > q
  }

  /** Some member of d's group has already passed the sync node d stands at. */
  ghost predicate Released(plan: Plan, s: State, d: nat)
    requires d < |s|
  {
    plan.IsSync(s[d].pc) && Passed(plan, s, d, s[d].pc)
  }

  /** Device d has still to take down the flag of sync node q. */
  ghost predicate Owes(plan: Plan, s: State, d: nat, q: nat)
    requires d < |s|
  {
    plan.IsSync(q) && s[d].pc <= q && Passed(plan, s, d, q)
  }

  /** The flags that are up on device d are those it has still to take down. */
  ghost predicate Flagged(plan: Plan, s: State, d: nat)
    requires d < |s|
  {
    forall t: nat :: t in s[d].synced <==> exists q: nat :: Owes(plan, s, d, q) && plan.Input(q) == t
  }

  /** What a device's own fields say, given its position. */
  ghost predicate Local(plan: Plan, d: nat, dev: Dev) {
    && dev.pc <= |plan.nodes|
    && dev.ready == plan.ReadyAt(dev.pc)
    && (forall p | p in dev.stamped :: p <= dev.pc)
    && (dev.pc in dev.stamped ==> dev.pc < |plan.nodes| && plan.nodes[dev.pc].Push?)
    && dev.log == LogAt(plan, d, dev.pc) + (if dev.pc in dev.stamped then [EventAt(plan, d, dev.pc)] else [])
    && dev.status.energy == At(plan, d, dev.pc).energy
    && dev.status.flops == At(plan, d, dev.pc).flops
    && dev.status.low <= dev.status.time && dev.status.high <= dev.status.time
  }

  /** A device's clock: that of the reference on arrival, or its group's latest once released. */
  ghost predicate Clocked(plan: Plan, s: State, d: nat)
    requires d < |s| && s[d].pc <= |plan.nodes|
  {
    var dev := s[d];
    if Released(plan, s, d) then
      && dev.status.time == Barrier(plan, plan.group(d, dev.pc), dev.pc)
      && (dev.pc in dev.stamped || dev.status.time == At(plan, d, dev.pc).time)
    else
      dev.status.time == At(plan, d, dev.pc).time
  }

  /** A device passes a sync node on a fresh tensor only after every member has arrived there. */
  ghost predicate Ordered(plan: Plan, s: State, d: nat, p: nat)
    requires d < |s| && plan.IsSync(p)
  {
    s[d].pc > p && plan.Fresh(p) ==> forall m | m in plan.group(d, p) && m < |s| :: s[m].pc >= p
  }

  /** Where a device can be while another one runs. */
  ghost predicate Resting(plan: Plan, dev: Dev) {
    dev.pc == 0 || dev.pc == |plan.nodes| || (plan.IsSync(dev.pc) && dev.pc in dev.stamped)
  }

  ghost predicate Right(plan: Plan, s: State, d: nat)
    requires d < |s|
  {
    Local(plan, d, s[d]) && Clocked(plan, s, d) && Flagged(plan, s, d)
  }

  /** The invariant while device d runs. */
  ghost predicate Inv(plan: Plan, s: State, d: nat) {
    && |s| == plan.devices
    && (forall m: nat | m < |s| :: Right(plan, s, m))
    && (forall m: nat, p: nat | m < |s| && plan.IsSync(p) :: Ordered(plan, s, m, p))
    && (forall m: nat | m < |s| && m != d :: Resting(plan, s[m]))
  }

  /** The invariant between polls. */
  ghost predicate AtRest(plan: Plan, s: State) {
    Inv(plan, s, |s|)
  }

  lemma {:induction false} InvTracks(plan: Plan, s: State, d: nat)
    requires Inv(plan, s, d)
    ensures Tracks(plan, s)
  {
    forall m: nat | m < |s|
      ensures s[m].pc <= |plan.nodes| && s[m].ready == plan.ReadyAt(s[m].pc)
    {
      assert Right(plan, s, m);
    }
  }

  // --------------------------------------------------------- the reference

  lemma {:induction false} BarrierIsNotNegative(plan: Plan, g: seq<nat>, p: nat)
    requires p <= |plan.nodes|
    ensures Barrier(plan, g, p) >= 0.0
  {
    if g != [] {
      BarrierIsNotNegative(plan, g[..|g| - 1], p);
    }
  }

  lemma {:induction false} BarrierIsLatest(plan: Plan, g: seq<nat>, p: nat, m: nat)
    requires p <= |plan.nodes| && m in g
    ensures Barrier(plan, g, p) >= At(plan, m, p).time
  {
    if m in g[..|g| - 1] {
      BarrierIsLatest(plan, g[..|g| - 1], p, m);
    }
  }

  lemma {:induction false} BarrierOfEqual(plan: Plan, g: seq<nat>, p: nat, time: real)
    requires p <= |plan.nodes| && g != [] && time >= 0.0 && forall m | m in g :: At(plan, m, p).time == time
    ensures Barrier(plan, g, p) == time
  {
    if |g| > 1 {
      assert forall m | m in g[..|g| - 1] :: m in g;
      BarrierOfEqual(plan, g[..|g| - 1], p, time);
    } else {
      assert g[..0] == [] && g[0] in g;
    }
  }

  /** From a sync node up to one that follows it, the clocks of its group stand at its latest clock. */
  lemma {:induction false} ClocksStand(plan: Plan, d: nat, p: nat, r: nat, m: nat, q: nat)
    requires plan.Valid() && d < plan.devices && plan.IsSync(p) && plan.Follows(p, r)
    requires m in plan.group(d, r) && r < q <= p
    ensures At(plan, m, q).time == Barrier(plan, plan.group(d, r), r)
    decreases q
  {
    assert plan.GroupsAgree(d, r);
    assert plan.Takes(m, q - 1) == 0.0;
    if r < q - 1 {
      assert !plan.IsSync(q - 1);
      ClocksStand(plan, d, p, r, m, q - 1);
    }
  }

  /** A sync node that follows another one takes its group's clocks as they are. */
  lemma {:induction false} FollowerBarrier(plan: Plan, d: nat, p: nat, r: nat)
    requires plan.Valid() && d < plan.devices && plan.IsSync(p) && plan.Follows(p, r)
    ensures Barrier(plan, plan.group(d, p), p) == Barrier(plan, plan.group(d, r), r) == At(plan, d, p).time
    ensures forall m | m in plan.group(d, p) :: At(plan, m, p).time == At(plan, d, p).time
  {
    assert plan.GroupsAgree(d, p);
    forall m | m in plan.group(d, p)
      ensures At(plan, m, p).time == Barrier(plan, plan.group(d, r), r)
    {
      ClocksStand(plan, d, p, r, m, p);
    }
    BarrierIsNotNegative(plan, plan.group(d, r), r);
    BarrierOfEqual(plan, plan.group(d, p), p, Barrier(plan, plan.group(d, r), r));
  }

  // --------------------------------------------------------- who waits where

  /** A flag is up only at the sync node a device stands at, or at the one that follows the next. */
  lemma {:induction false} OwedIsNear(plan: Plan, s: State, d: nat, m: nat, q: nat) returns (r: nat)
    requires plan.Valid() && m < |s| && Inv(plan, s, d) && Owes(plan, s, m, q)
    ensures plan.Fresh(q) ==> r == q && s[m].pc == q
    ensures !plan.Fresh(q) ==> plan.Follows(q, r) && r <= s[m].pc <= q && Passed(plan, s, m, r)
  {
    assert plan.GroupsAgree(m, q) && plan.Timely(q);
    var x :| x in plan.group(m, q) && x < |s| && s[x].pc > q;
    r := q;
    if !plan.Fresh(q) {
      r :| plan.Follows(q, r);
      assert plan.GroupsAgree(m, r);
      assert m in plan.group(x, q);
    }
    assert Ordered(plan, s, x, r);
    assert m in plan.group(x, r);
  }

  /** No flag is up on a device at a sync node that nobody has passed. */
  lemma {:induction false} NothingIsOwed(plan: Plan, s: State, d: nat, m: nat, q: nat)
    requires plan.Valid() && m < |s| && Inv(plan, s, d) && plan.IsSync(s[m].pc) && !Released(plan, s, m)
    ensures !Owes(plan, s, m, q)
  {
    if Owes(plan, s, m, q) {
      var r := OwedIsNear(plan, s, d, m, q);
    }
  }

  /** Another flag on a device at a sync node is that of another tensor. */
  lemma {:induction false} OtherFlag(plan: Plan, s: State, d: nat, m: nat, q: nat)
    requires plan.Valid() && m < |s| && Inv(plan, s, d) && plan.IsSync(s[m].pc)
    requires Owes(plan, s, m, q) && q != s[m].pc
    ensures plan.Input(q) != plan.Input(s[m].pc)
  {
    var r := OwedIsNear(plan, s, d, m, q);
    assert plan.LastSync(r, q);
  }

  lemma {:induction false} NoFlags(plan: Plan, s: State, d: nat, m: nat)
    requires plan.Valid() && m < |s| && Inv(plan, s, d) && plan.IsSync(s[m].pc) && !Released(plan, s, m)
    ensures s[m].synced == {}
  {
    assert Right(plan, s, m);
    forall t | t in s[m].synced
      ensures false
    {
      var q: nat :| Owes(plan, s, m, q) && plan.Input(q) == t;
      NothingIsOwed(plan, s, d, m, q);
    }
  }

  // ----------------------------------------------------- one device's step

  /** Who has passed a node changes only for the node that the moving device passes. */
  lemma {:induction false} PassedSame(plan: Plan, s: State, s': State, d: nat, from: nat, to: nat, m: nat, q: nat)
    requires OnlyMoves(s, s', d, from, to) && (to == from || (to == from + 1 && q != from))
    ensures Passed(plan, s, m, q) == Passed(plan, s', m, q)
  {
    assert forall x: nat | x < |s| :: s[x].pc > q <==> s'[x].pc > q;
  }

  /** Moving one device past a node that no group waits at leaves the others alone. */
  lemma {:induction false} OtherUnmoved(plan: Plan, s: State, d: nat, dev: Dev, m: nat)
    requires d < |s| && m < |s| && m != d && Right(plan, s, m)
    requires dev.pc == s[d].pc || (dev.pc == s[d].pc + 1 && !plan.IsSync(s[d].pc))
    ensures Right(plan, s[d := dev], m)
  {
    var s' := s[d := dev];
    forall q: nat | plan.IsSync(q)
      ensures Owes(plan, s, m, q) == Owes(plan, s', m, q)
    {
      PassedSame(plan, s, s', d, s[d].pc, dev.pc, m, q);
    }
    FlagsKept(plan, s, s', m);
  }

  lemma {:induction false} FlagsKept(plan: Plan, s: State, s': State, m: nat)
    requires m < |s| == |s'| && Flagged(plan, s, m) && s'[m].synced == s[m].synced
    requires forall q: nat | plan.IsSync(q) :: Owes(plan, s, m, q) == Owes(plan, s', m, q)
    ensures Flagged(plan, s', m)
  {
    assert forall q: nat :: Owes(plan, s, m, q) == Owes(plan, s', m, q);
  }

  lemma {:induction false} OthersUnmoved(plan: Plan, s: State, d: nat, dev: Dev)
    requires d < |s| && Inv(plan, s, d)
    requires dev.pc == s[d].pc || (dev.pc == s[d].pc + 1 && !plan.IsSync(s[d].pc))
    ensures var s' := s[d := dev];
      && (forall m: nat | m < |s| && m != d :: Right(plan, s', m) && Resting(plan, s'[m]))
      && (forall m: nat, p: nat | m < |s| && plan.IsSync(p) :: Ordered(plan, s', m, p))
  {
    var s' := s[d := dev];
    forall m: nat, p: nat | m < |s| && plan.IsSync(p)
      ensures Ordered(plan, s', m, p)
    {
      assert Ordered(plan, s, m, p);
    }
    forall m: nat | m < |s| && m != d
      ensures Right(plan, s', m)
    {
      assert Right(plan, s, m);
      OtherUnmoved(plan, s, d, dev, m);
    }
  }

  /** A device that arrives with the reference's clock has the right clock, even if it is released already. */
  lemma {:induction false} Arrives(plan: Plan, s: State, s': State, d: nat)
    requires plan.Valid() && Inv(plan, s, d) && d < |s| && OnlyMoves(s, s', d, s[d].pc, s[d].pc + 1)
    requires s'[d].pc <= |plan.nodes| && s'[d].status.time == At(plan, d, s'[d].pc).time
    ensures Clocked(plan, s', d)
  {
    var p := s'[d].pc;
    if Released(plan, s', d) {
      assert plan.GroupsAgree(d, p) && plan.Timely(p);
      var x :| x in plan.group(d, p) && x < |s| && s'[x].pc > p;
      assert Ordered(plan, s, x, p);
      assert d in plan.group(x, p);
      var r: nat :| plan.Follows(p, r);
      FollowerBarrier(plan, d, p, r);
    }
  }

  /** Stamping a push node changes nothing but the log: outside the parallel lanes the clock stands. */
  lemma {:induction false} StampKeeps(plan: Plan, s: State, d: nat)
    requires d < |s| && Inv(plan, s, d)
    requires s[d].pc < |plan.nodes| && plan.nodes[s[d].pc].Push?
    ensures Inv(plan, Stamp(plan, s, d), d)
    ensures var dev, dev' := s[d], Stamp(plan, s, d)[d];
      && dev'.pc == dev.pc && dev.pc in dev'.stamped
      && dev'.ready == dev.ready && dev'.synced == dev.synced && dev'.status.time == dev.status.time
    ensures Released(plan, Stamp(plan, s, d), d) == Released(plan, s, d)
  {
    var s1 := Stamp(plan, s, d);
    assert Right(plan, s, d);
    StampMovesNobody(plan, s, d);
    OthersUnmoved(plan, s, d, s1[d]);
    forall q: nat | plan.IsSync(q)
      ensures Owes(plan, s, d, q) == Owes(plan, s1, d, q)
      ensures Passed(plan, s, d, q) == Passed(plan, s1, d, q)
    {
      PassedSame(plan, s, s1, d, s[d].pc, s[d].pc, d, q);
    }
    FlagsKept(plan, s, s1, d);
    StampedLocal(plan, d, s[d]);
  }

  /** Reaching a push node brings the device's clock and those of its two lanes to the latest of the three. */
  lemma {:induction false} PushJoinsLanes(plan: Plan, d: nat, dev: Dev)
    requires dev.pc < |plan.nodes| && plan.nodes[dev.pc].Push? && dev.pc !in dev.stamped
    ensures var was, st := dev.status, SetStamp(plan, d, dev).status;
      && st.time == st.low == st.high && st.time >= was.time && st.time >= was.low && st.time >= was.high
      && (st.time == was.time || st.time == was.low || st.time == was.high)
      && st.energy == was.energy && st.flops == was.flops
  {
  }

  lemma {:induction false} StampedLocal(plan: Plan, d: nat, dev: Dev)
    requires Local(plan, d, dev) && dev.pc < |plan.nodes| && plan.nodes[dev.pc].Push?
    requires dev.pc in dev.stamped || dev.status.time == At(plan, d, dev.pc).time
    ensures Local(plan, d, SetStamp(plan, d, dev)) && SetStamp(plan, d, dev).status.time == dev.status.time
  {
  }

  /** A node that waits for nobody runs when it is reached. */
  lemma {:induction false} LocalStep(plan: Plan, s: State, d: nat)
    requires plan.Valid() && d < |s| && Inv(plan, s, d)
    requires s[d].pc < |plan.nodes| && !plan.IsSync(s[d].pc)
    ensures CheckReady(plan, Stamp(plan, s, d), d)
    ensures Inv(plan, Advance(plan, Stamp(plan, s, d), d), d)
  {
    var p, s1 := s[d].pc, Stamp(plan, s, d);
    assert Right(plan, s, d) && plan.Feeds(p);
    StampMovesNobody(plan, s, d);
    var s2 := Advance(plan, s1, d);
    assert s2 == s[d := s2[d]];
    PassesLocally(plan, d, s[d], s2[d]);
    Arrives(plan, s, s2, d);
    OthersUnmoved(plan, s, d, s2[d]);
    forall q: nat | plan.IsSync(q)
      ensures Owes(plan, s, d, q) == Owes(plan, s2, d, q)
    {
      PassedSame(plan, s, s2, d, p, p + 1, d, q);
    }
    FlagsKept(plan, s, s2, d);
  }

  lemma {:induction false} PassesLocally(plan: Plan, d: nat, dev: Dev, dev': Dev)
    requires plan.Valid() && Local(plan, d, dev) && dev.pc < |plan.nodes| && !plan.IsSync(dev.pc)
    requires dev.status.time == At(plan, d, dev.pc).time
    requires var stamped := SetStamp(plan, d, dev);
      dev' == stamped.(pc := dev.pc + 1, ready := stamped.ready + plan.Outputs(dev.pc),
                       status := stamped.status.(time := stamped.status.time + 0.0))
    ensures Local(plan, d, dev') && dev'.status.time == At(plan, d, dev.pc + 1).time && dev'.synced == dev.synced
  {
    assert LogAt(plan, d, dev.pc + 1) == LogAt(plan, d, dev.pc) + [EventAt(plan, d, dev.pc)];
    assert plan.work(d, dev.pc).duration >= 0.0;
  }

  // ------------------------------------------------------------ sync nodes

  lemma {:induction false} ReadyHasProducer(plan: Plan, p: nat, t: nat)
    requires p <= |plan.nodes| && t in plan.ReadyAt(p) && t != plan.source
    ensures exists q: nat | q < p :: plan.Produces(q, t)
  {
    if t in plan.ReadyAt(p - 1) {
      ReadyHasProducer(plan, p - 1, t);
    } else {
      assert plan.Produces(p - 1, t);
    }
  }

  lemma {:induction false} ProducerMakesReady(plan: Plan, q: nat, p: nat, t: nat)
    requires q < p <= |plan.nodes| && plan.Produces(q, t)
    ensures t in plan.ReadyAt(p)
  {
    ReadyGrows(plan, q + 1, p);
  }

  lemma {:induction false} SourceIsReady(plan: Plan, p: nat)
    requires p <= |plan.nodes|
    ensures plan.source in plan.ReadyAt(p)
  {
    ReadyGrows(plan, 0, p);
  }

  /** An older tensor is ready as soon as the sync node before is reached. */
  lemma {:induction false} OlderIsReady(plan: Plan, p: nat, r: nat)
    requires plan.IsSync(p) && plan.LastSync(r, p) && !plan.Fresh(p)
    ensures plan.Input(p) in plan.ReadyAt(r)
  {
    if plan.Input(p) == plan.source {
      SourceIsReady(plan, r);
    } else {
      var q: nat, x: nat :| q < x < p && plan.IsSync(x) && plan.Produces(q, plan.Input(p));
      assert x <= r;
      ProducerMakesReady(plan, q, r, plan.Input(p));
    }
  }

  lemma {:induction false} FreshIsNotFirst(plan: Plan, p: nat)
    requires plan.Fed() && plan.IsSync(p) && plan.Fresh(p)
    ensures p > 0
  {
    assert plan.Feeds(p);
  }

  /** When an unreleased device finds a sync node's fresh tensor ready on a member, that member stands there. */
  lemma {:induction false} MemberHasArrived(plan: Plan, s: State, d: nat, m: nat)
    requires plan.Valid() && d < |s| && Inv(plan, s, d) && plan.IsSync(s[d].pc) && plan.Fresh(s[d].pc)
    requires !Released(plan, s, d) && m in plan.group(d, s[d].pc) && m < |s|
    requires plan.Input(s[d].pc) in s[m].ready
    ensures s[m].pc == s[d].pc
  {
    var p := s[d].pc;
    if m != d {
      assert Right(plan, s, m) && Resting(plan, s[m]);
      ReadyHasProducer(plan, s[m].pc, plan.Input(p));
      var q: nat :| q < s[m].pc && plan.Produces(q, plan.Input(p));
      assert s[m].pc <= p;
    }
  }

  /** Where a sync node follows another one, the members are there or at that one, released. */
  lemma {:induction false} MemberIsNear(plan: Plan, s: State, d: nat, m: nat, r: nat)
    requires plan.Valid() && d < |s| && Inv(plan, s, d) && plan.IsSync(s[d].pc) && plan.Follows(s[d].pc, r)
    requires !Released(plan, s, d) && m in plan.group(d, s[d].pc) && m < |s|
    ensures s[m].pc == s[d].pc || (s[m].pc == r && Released(plan, s, m))
  {
    var p := s[d].pc;
    assert plan.GroupsAgree(d, p) && plan.GroupsAgree(d, r) && Ordered(plan, s, d, r);
    assert m in plan.group(d, r);
    assert r <= s[m].pc <= p;
    if m != d {
      assert Resting(plan, s[m]);
      assert s[m].pc == r || s[m].pc == p;
    }
  }

  /** The members of a group when one of them finds all tensors ready first: whoever is not there yet has been
      released right before, and every clock is that of the reference on arrival. */
  ghost predicate Gathered(plan: Plan, s: State, d: nat, m: nat)
    requires d < |s| && plan.IsSync(s[d].pc)
  {
    var p := s[d].pc;
    && m < |s| && p <= |plan.nodes| && s[m].status.time == At(plan, m, p).time
    && if plan.Fresh(p) || s[m].pc == p then s[m].pc == p && !Released(plan, s, m)
       else Released(plan, s, m) && exists r: nat :: plan.Follows(p, r) && s[m].pc == r
  }

  lemma {:induction false} MembersHaveGathered(plan: Plan, s: State, d: nat)
    requires plan.Valid() && d < |s| && Inv(plan, s, d)
    requires plan.IsSync(s[d].pc) && !Released(plan, s, d)
    requires AllReady(s, plan.group(d, s[d].pc), plan.Input(s[d].pc))
    ensures forall m | m in plan.group(d, s[d].pc) :: Gathered(plan, s, d, m)
  {
    var p := s[d].pc;
    var g := plan.group(d, p);
    assert plan.GroupsAgree(d, p) && plan.Timely(p);
    forall m | m in g
      ensures Gathered(plan, s, d, m)
    {
      var i :| 0 <= i < |g| && g[i] == m;
      assert Right(plan, s, m) && Right(plan, s, d);
      if plan.Fresh(p) {
        MemberHasArrived(plan, s, d, m);
      } else {
        var r: nat :| plan.Follows(p, r);
        MemberIsNear(plan, s, d, m, r);
        FollowerBarrier(plan, d, p, r);
        assert plan.GroupsAgree(d, r);
      }
    }
  }

  lemma {:induction false} LatestIsBarrier(plan: Plan, s: State, g: seq<nat>, p: nat)
    requires p <= |plan.nodes| && Below(g, |s|)
    requires forall i | 0 <= i < |g| :: s[g[i]].status.time == At(plan, g[i], p).time
    ensures LatestTime(s, g) == Barrier(plan, g, p)
  {
    if g != [] {
      LatestIsBarrier(plan, s, g[..|g| - 1], p);
    }
  }

  /** What the first member to find all tensors ready does to itself and to its group. */
  lemma {:induction false} FirstSync(plan: Plan, s: State, d: nat)
    requires plan.Valid() && d < |s| && Inv(plan, s, d)
    requires plan.IsSync(s[d].pc) && !Released(plan, s, d) && CheckReady(plan, s, d)
    ensures var p, s' := s[d].pc, Advance(plan, s, d);
      var g, t := plan.group(d, p), plan.Input(p);
      && s'[d] == s[d].(pc := p + 1, ready := s[d].ready + plan.Outputs(p), synced := {},
                        status := s[d].status.(time := Barrier(plan, g, p) + plan.work(d, p).duration))
      && forall m: nat | m < |s| && m != d ::
           s'[m] == if m in g then Raised(s[m], t, Barrier(plan, g, p)) else s[m]
  {
    var p := s[d].pc;
    var g := plan.group(d, p);
    MembersHaveGathered(plan, s, d);
    assert plan.GroupsAgree(d, p);
    assert forall i | 0 <= i < |g| :: g[i] in g;
    LatestIsBarrier(plan, s, g, p);
    NoFlags(plan, s, d, d);
    RaisedClocks(s, d, g, plan.Input(p), Barrier(plan, g, p));
    AdvanceAtSync(plan, s, d);
  }

  /** A device whose clock another member has raised. */
  function Raised(dev: Dev, t: nat, time: real): Dev {
    dev.(synced := dev.synced + {t}, status := dev.status.(time := time))
  }

  lemma {:induction false} AdvanceAtSync(plan: Plan, s: State, d: nat)
    requires d < |s| && plan.IsSync(s[d].pc) && CheckReady(plan, s, d)
    ensures var p := s[d].pc;
      var s1 := SyncDevices(s, d, plan.group(d, p), plan.nodes[p].kind.input);
      Advance(plan, s, d) == s1[d := s1[d].(pc := p + 1, ready := s1[d].ready + plan.Outputs(p),
        status := s1[d].status.(time := s1[d].status.time + plan.work(d, p).duration))]
  {
  }

  lemma {:induction false} RaisedClocks(s: State, d: nat, g: seq<nat>, t: nat, time: real)
    requires d < |s| && d in g && Below(g, |s|) && LatestTime(s, g) == time && s[d].synced == {}
    ensures SyncDevices(s, d, g, t)[d] == s[d].(synced := {}, status := s[d].status.(time := time))
    ensures forall m: nat | m < |s| && m != d ::
      SyncDevices(s, d, g, t)[m] == if m in g then Raised(s[m], t, time) else s[m]
  {
  }

  /** After one member has passed, exactly those of its group that have not are newly released from that node. */
  lemma {:induction false} SyncReleases(plan: Plan, s: State, s': State, d: nat, m: nat, q: nat)
    requires plan.Agrees() && |s| == plan.devices && d < |s| && OnlyMoves(s, s', d, s[d].pc, s[d].pc + 1) && m < |s|
    requires plan.IsSync(s[d].pc) && plan.IsSync(q)
    ensures Passed(plan, s', m, q) <==> Passed(plan, s, m, q) || (q == s[d].pc && m in plan.group(d, q))
  {
    var p := s[d].pc;
    assert plan.GroupsAgree(d, p) && plan.GroupsAgree(m, q);
    if q == p {
      assert forall x: nat | x < |s| && x != d :: s'[x].pc > q <==> s[x].pc > q;
      assert s'[d].pc > q;
    } else {
      PassedSame(plan, s, s', d, p, p + 1, m, q);
    }
  }

  /** Passing a sync node keeps the order of arrival. */
  lemma {:induction false} SyncKeepsOrder(plan: Plan, s: State, s': State, d: nat)
    requires d < |s| && Inv(plan, s, d) && plan.IsSync(s[d].pc) && OnlyMoves(s, s', d, s[d].pc, s[d].pc + 1)
    requires plan.Fresh(s[d].pc) ==> forall m | m in plan.group(d, s[d].pc) && m < |s| :: s[m].pc >= s[d].pc
    ensures forall m: nat, q: nat | m < |s| && plan.IsSync(q) :: Ordered(plan, s', m, q)
  {
    forall m: nat, q: nat | m < |s| && plan.IsSync(q)
      ensures Ordered(plan, s', m, q)
    {
      assert Ordered(plan, s, m, q);
    }
  }

  /** A clock may be raised, and a stamped push node passed, without touching the rest of a device. */
  lemma {:induction false} LocalAfter(plan: Plan, d: nat, dev: Dev, passed: bool, synced: set<nat>, time: real)
    requires Local(plan, d, dev) && time >= dev.status.time
    requires passed ==> plan.IsSync(dev.pc) && dev.pc in dev.stamped
    ensures var raised := dev.(synced := synced, status := dev.status.(time := time));
      Local(plan, d, if passed then raised.(pc := dev.pc + 1, ready := dev.ready + plan.Outputs(dev.pc)) else raised)
  {
    if passed {
      assert LogAt(plan, d, dev.pc + 1) == LogAt(plan, d, dev.pc) + [EventAt(plan, d, dev.pc)];
    }
  }

  /** A device that passes a sync node with its group's latest clock is right where it arrives. */
  lemma {:induction false} SyncArrival(plan: Plan, s: State, s': State, d: nat)
    requires plan.Valid() && d < |s| && Inv(plan, s, d) && OnlyMoves(s, s', d, s[d].pc, s[d].pc + 1)
    requires plan.IsSync(s[d].pc) && s[d].pc in s[d].stamped
    requires var p := s[d].pc; var latest := Barrier(plan, plan.group(d, p), p);
      && s[d].status.time <= latest
      && s'[d] == s[d].(pc := p + 1, ready := s[d].ready + plan.Outputs(p), synced := s'[d].synced,
                        status := s[d].status.(time := latest + plan.work(d, p).duration))
      && s'[d].synced == s[d].synced - {plan.Input(p)}
    ensures Right(plan, s', d)
  {
    var p := s[d].pc;
    assert Right(plan, s, d);
    assert plan.work(d, p).duration >= 0.0;
    LocalAfter(plan, d, s[d], true, s'[d].synced, s'[d].status.time);
    Arrives(plan, s, s', d);
    FlagTakenDown(plan, s, s', d);
  }

  lemma {:induction false} FlagTakenDown(plan: Plan, s: State, s': State, d: nat)
    requires plan.Valid() && d < |s| && Inv(plan, s, d) && OnlyMoves(s, s', d, s[d].pc, s[d].pc + 1)
    requires plan.IsSync(s[d].pc) && s'[d].synced == s[d].synced - {plan.Input(s[d].pc)}
    ensures Flagged(plan, s', d)
  {
    var p := s[d].pc;
    assert Right(plan, s, d);
    forall t: nat
      ensures t in s'[d].synced <==> exists q: nat :: Owes(plan, s', d, q) && plan.Input(q) == t
    {
      if t in s'[d].synced {
        var q: nat :| Owes(plan, s, d, q) && plan.Input(q) == t;
        PassedSame(plan, s, s', d, p, p + 1, d, q);
        assert Owes(plan, s', d, q);
      } else if q: nat :| Owes(plan, s', d, q) && plan.Input(q) == t {
        PassedSame(plan, s, s', d, p, p + 1, d, q);
        assert Owes(plan, s, d, q);
        OtherFlag(plan, s, d, d, q);
      }
    }
  }

  /** The first member to pass releases the others and moves on. */
  lemma {:induction false} FirstSyncStep(plan: Plan, s: State, d: nat)
    requires plan.Valid() && d < |s| && Inv(plan, s, d)
    requires plan.IsSync(s[d].pc) && !Released(plan, s, d) && CheckReady(plan, s, d)
    requires s[d].pc in s[d].stamped
    ensures Inv(plan, Advance(plan, s, d), d)
  {
    var s' := Advance(plan, s, d);
    AdvanceMovesOne(plan, s, d);
    MembersHaveGathered(plan, s, d);
    SyncKeepsOrder(plan, s, s', d);
    FirstSyncSelf(plan, s, d);
    forall m: nat | m < |s| && m != d
      ensures Right(plan, s', m) && Resting(plan, s'[m])
    {
      FirstSyncOther(plan, s, d, m);
    }
  }

  lemma {:induction false} FirstSyncSelf(plan: Plan, s: State, d: nat)
    requires plan.Valid() && d < |s| && Inv(plan, s, d)
    requires plan.IsSync(s[d].pc) && !Released(plan, s, d) && CheckReady(plan, s, d)
    requires s[d].pc in s[d].stamped
    ensures Right(plan, Advance(plan, s, d), d)
  {
    assert Right(plan, s, d) && plan.GroupsAgree(d, s[d].pc);
    AdvanceMovesOne(plan, s, d);
    FirstSync(plan, s, d);
    NoFlags(plan, s, d, d);
    BarrierIsLatest(plan, plan.group(d, s[d].pc), s[d].pc, d);
    SyncArrival(plan, s, Advance(plan, s, d), d);
  }

  lemma {:induction false} FirstSyncOther(plan: Plan, s: State, d: nat, m: nat)
    requires plan.Valid() && d < |s| && m < |s| && m != d && Inv(plan, s, d)
    requires plan.IsSync(s[d].pc) && !Released(plan, s, d) && CheckReady(plan, s, d)
    ensures var s' := Advance(plan, s, d); Right(plan, s', m) && Resting(plan, s'[m])
  {
    var p, s' := s[d].pc, Advance(plan, s, d);
    assert Right(plan, s, m) && Resting(plan, s[m]);
    AdvanceMovesOne(plan, s, d);
    FirstSync(plan, s, d);
    if m in plan.group(d, p) {
      MembersHaveGathered(plan, s, d);
      assert Gathered(plan, s, d, m);
      MemberIsRaised(plan, s, s', d, m);
    } else {
      OutsiderKeeps(plan, s, s', d, m);
    }
  }

  lemma {:induction false} OutsiderKeeps(plan: Plan, s: State, s': State, d: nat, m: nat)
    requires plan.Valid() && d < |s| == plan.devices && OnlyMoves(s, s', d, s[d].pc, s[d].pc + 1)
    requires m < |s| && m != d
    requires plan.IsSync(s[d].pc) && Right(plan, s, m) && s'[m] == s[m]
    requires m !in plan.group(d, s[d].pc) || Passed(plan, s, m, s[d].pc)
    ensures Right(plan, s', m)
  {
    forall q: nat | plan.IsSync(q)
      ensures Owes(plan, s, m, q) == Owes(plan, s', m, q) && Passed(plan, s, m, q) == Passed(plan, s', m, q)
    {
      SyncReleases(plan, s, s', d, m, q);
    }
    FlagsKept(plan, s, s', m);
  }

  /** A raised member is right: it has its group's latest clock, and one more flag to take down. */
  lemma {:induction false} MemberIsRaised(plan: Plan, s: State, s': State, d: nat, m: nat)
    requires plan.Valid() && d < |s| && Inv(plan, s, d) && OnlyMoves(s, s', d, s[d].pc, s[d].pc + 1)
    requires m < |s| && m != d
    requires plan.IsSync(s[d].pc) && m in plan.group(d, s[d].pc) && Gathered(plan, s, d, m)
    requires s'[m] == Raised(s[m], plan.Input(s[d].pc), Barrier(plan, plan.group(d, s[d].pc), s[d].pc))
    ensures Right(plan, s', m)
  {
    var p := s[d].pc;
    var g := plan.group(d, p);
    assert Right(plan, s, m) && Resting(plan, s[m]) && plan.GroupsAgree(d, p) && plan.Timely(p);
    BarrierIsLatest(plan, g, p, m);
    LocalAfter(plan, m, s[m], false, s'[m].synced, s'[m].status.time);
    RaisedClock(plan, s, s', d, m);
    forall q: nat | plan.IsSync(q)
      ensures Owes(plan, s', m, q) <==> Owes(plan, s, m, q) || q == p
    {
      SyncReleases(plan, s, s', d, m, q);
    }
    FlagPutUp(plan, s, s', m, p);
  }

  lemma {:induction false} FlagPutUp(plan: Plan, s: State, s': State, m: nat, p: nat)
    requires m < |s| == |s'| && Flagged(plan, s, m) && plan.IsSync(p)
    requires s'[m].synced == s[m].synced + {plan.Input(p)}
    requires forall q: nat | plan.IsSync(q) :: Owes(plan, s', m, q) <==> Owes(plan, s, m, q) || q == p
    ensures Flagged(plan, s', m)
  {
    assert Owes(plan, s', m, p);
    assert forall q: nat :: Owes(plan, s', m, q) <==> Owes(plan, s, m, q) || q == p;
  }

  lemma {:induction false} RaisedClock(plan: Plan, s: State, s': State, d: nat, m: nat)
    requires plan.Valid() && d < |s| && Inv(plan, s, d) && OnlyMoves(s, s', d, s[d].pc, s[d].pc + 1)
    requires m < |s| && m != d
    requires plan.IsSync(s[d].pc) && m in plan.group(d, s[d].pc) && Gathered(plan, s, d, m)
    requires s'[m] == Raised(s[m], plan.Input(s[d].pc), Barrier(plan, plan.group(d, s[d].pc), s[d].pc))
    ensures Clocked(plan, s', m)
  {
    var p := s[d].pc;
    assert Right(plan, s, m) && Resting(plan, s[m]) && plan.GroupsAgree(d, p) && plan.Timely(p);
    SyncReleases(plan, s, s', d, m, s[m].pc);
    if plan.Fresh(p) {
      FreshIsNotFirst(plan, p);
    } else {
      var r: nat :| plan.Follows(p, r) && (s[m].pc == p || s[m].pc == r);
      FollowerBarrier(plan, d, p, r);
      FollowerBarrier(plan, m, p, r);
    }
  }

  /** What a device released by a partner does: it takes its flag down, goes on from the group's latest clock, and
      touches nobody else. */
  lemma {:induction false} ReleasedSync(plan: Plan, s: State, d: nat)
    requires plan.Valid() && d < |s| && Inv(plan, s, d)
    requires plan.IsSync(s[d].pc) && Released(plan, s, d)
    ensures CheckReady(plan, s, d)
    ensures var p := s[d].pc;
      Advance(plan, s, d) == s[d := s[d].(pc := p + 1, ready := s[d].ready + plan.Outputs(p),
        synced := s[d].synced - {plan.Input(p)},
        status := s[d].status.(time := Barrier(plan, plan.group(d, p), p) + plan.work(d, p).duration))]
  {
    var p := s[d].pc;
    var t := plan.Input(p);
    assert Right(plan, s, d) && Owes(plan, s, d, p);
    ReleasedIsReady(plan, s, d);
    AdvanceAtSync(plan, s, d);
    assert SyncDevices(s, d, plan.group(d, p), t) == s[d := s[d].(synced := s[d].synced - {t})];
  }

  lemma {:induction false} ReleasedIsReady(plan: Plan, s: State, d: nat)
    requires plan.Valid() && d < |s| && Inv(plan, s, d)
    requires plan.IsSync(s[d].pc) && Released(plan, s, d)
    ensures CheckReady(plan, s, d)
    ensures plan.Fresh(s[d].pc) ==> forall m | m in plan.group(d, s[d].pc) && m < |s| :: s[m].pc >= s[d].pc
  {
    var p := s[d].pc;
    var g := plan.group(d, p);
    assert plan.GroupsAgree(d, p) && plan.Timely(p) && plan.Feeds(p);
    var r := p;
    if !plan.Fresh(p) {
      r :| plan.Follows(p, r);
    }
    var first :| first in g && first < |s| && s[first].pc > p;
    assert plan.GroupsAgree(first, p) && Ordered(plan, s, first, r);
    if !plan.Fresh(p) {
      OlderIsReady(plan, p, r);
    }
    forall i | 0 <= i < |g|
      ensures plan.Input(p) in s[g[i]].ready && s[g[i]].pc >= r
    {
      assert g[i] in g && g[i] in plan.group(first, r);
      assert Right(plan, s, g[i]);
      ReadyGrows(plan, r, s[g[i]].pc);
    }
    assert forall m | m in g && m < |s| :: exists i :: 0 <= i < |g| && g[i] == m;
  }

  /** A device released by a partner takes its flag down and moves on. */
  lemma {:induction false} ReleasedStep(plan: Plan, s: State, d: nat)
    requires plan.Valid() && d < |s| && Inv(plan, s, d)
    requires plan.IsSync(s[d].pc) && Released(plan, s, d) && s[d].pc in s[d].stamped
    ensures CheckReady(plan, s, d)
    ensures Inv(plan, Advance(plan, s, d), d)
  {
    var p := s[d].pc;
    ReleasedSync(plan, s, d);
    ReleasedIsReady(plan, s, d);
    var s' := Advance(plan, s, d);
    assert Right(plan, s, d) && plan.GroupsAgree(d, p);
    SyncKeepsOrder(plan, s, s', d);
    SyncArrival(plan, s, s', d);
    forall m: nat | m < |s| && m != d
      ensures Right(plan, s', m) && Resting(plan, s'[m])
    {
      assert Right(plan, s, m) && Resting(plan, s[m]);
      OutsiderKeeps(plan, s, s', d, m);
    }
  }

  // ----------------------------------------------------------------- polls

  /** One poll keeps the invariant and leaves the device where it must wait. */
  lemma {:induction false} PollKeepsInv(plan: Plan, s: State, d: nat)
    requires plan.Valid() && d < |s| && Inv(plan, s, d)
    ensures AtRest(plan, RunDevice(plan, s, d))
    ensures RunDevice(plan, s, d)[d].pc >= s[d].pc
    ensures forall m: nat | m < |s| && m != d :: RunDevice(plan, s, d)[m].pc == s[m].pc
    decreases if s[d].pc < |plan.nodes| then |plan.nodes| - s[d].pc else 0
  {
    assert Right(plan, s, d);
    if s[d].pc < |plan.nodes| {
      var s1 := Stamp(plan, s, d);
      if !plan.IsSync(s[d].pc) {
        LocalStep(plan, s, d);
        PollKeepsInv(plan, Advance(plan, s1, d), d);
      } else {
        StampKeeps(plan, s, d);
        if CheckReady(plan, s1, d) {
          if Released(plan, s1, d) {
            ReleasedStep(plan, s1, d);
          } else {
            FirstSyncStep(plan, s1, d);
            FirstSync(plan, s1, d);
          }
          PollKeepsInv(plan, Advance(plan, s1, d), d);
        }
      }
    }
  }

  /** Positions only grow while devices are polled. */
  lemma {:induction false} ScheduleKeepsInv(plan: Plan, s: State, schedule: seq<nat>)
    requires plan.Valid() && AtRest(plan, s) && Below(schedule, |s|)
    ensures AtRest(plan, RunSchedule(plan, s, schedule))
    ensures forall m: nat | m < |s| :: s[m].pc <= RunSchedule(plan, s, schedule)[m].pc <= |plan.nodes|
  {
    if schedule == [] {
      InvTracks(plan, s, |s|);
    } else {
      var init, d := schedule[..|schedule| - 1], schedule[|schedule| - 1];
      ScheduleKeepsInv(plan, s, init);
      var s1 := RunSchedule(plan, s, init);
      PollKeepsInv(plan, s1, d);
      InvTracks(plan, RunDevice(plan, s1, d), |s|);
    }
  }

  /** All devices just restarted, with no tensor flagged. */
  function Start(plan: Plan): State {
    seq(plan.devices, _ => Restarted(plan, {}))
  }

  lemma {:induction false} StartIsAtRest(plan: Plan)
    requires plan.Valid()
    ensures AtRest(plan, Start(plan))
  {
  }

  /** Device d has the reference's clock, counters and timeboard calls, and its flags are all down. */
  ghost predicate MatchesLockStep(plan: Plan, d: nat, dev: Dev) {
    var r := At(plan, d, |plan.nodes|);
    && dev.status.time == r.time && dev.status.energy == r.energy && dev.status.flops == r.flops
    && dev.log == LogAt(plan, d, |plan.nodes|)
    && dev.synced == {}
  }

  lemma {:induction false} RestingAtEnd(plan: Plan, s: State)
    requires AtRest(plan, s) && Finished(plan, s)
    ensures forall d: nat | d < |s| :: MatchesLockStep(plan, d, s[d])
  {
    forall d: nat | d < |s|
      ensures MatchesLockStep(plan, d, s[d])
    {
      assert Right(plan, s, d);
      assert forall q: nat :: !Owes(plan, s, d, q);
    }
  }

  /** Polled execution refines lock-step execution: in whatever order the devices are polled,
      once all have finished each of them matches the reference. */
  lemma {:induction false} PolledRefinesLockStep(plan: Plan, schedule: seq<nat>)
    requires plan.Valid() && Below(schedule, plan.devices)
    requires Finished(plan, RunSchedule(plan, Start(plan), schedule))
    ensures forall d: nat | d < plan.devices :: MatchesLockStep(plan, d, RunSchedule(plan, Start(plan), schedule)[d])
  {
    StartIsAtRest(plan);
    ScheduleKeepsInv(plan, Start(plan), schedule);
    RestingAtEnd(plan, RunSchedule(plan, Start(plan), schedule));
  }

  // --------------------------------------------------------- repeated runs

  /** A run that is over, with every device as in the reference. */
  ghost predicate EndsInLockStep(plan: Plan, s: State) {
    |s| == plan.devices && Finished(plan, s) && forall d: nat | d < |s| :: MatchesLockStep(plan, d, s[d])
  }

  /** A run: its list of nodes with their work, and the order in which it polls. */
  datatype Job = Job(plan: Plan, schedule: seq<nat>)

  /** All devices restarted; the flags are left as they are. */
  function RestartAll(plan: Plan, s: State): (s': State)
    ensures |s'| == |s|
  {
    seq(|s|, d requires 0 <= d < |s| => Restarted(plan, s[d].synced))
  }

  /** A job that the devices can run. */
  ghost predicate Runnable(job: Job, n: nat) {
    job.plan.Valid() && job.plan.devices == n && Below(job.schedule, n)
  }

  /** The state after running the first n jobs one after another from s. */
  ghost function RunJobs(s: State, jobs: seq<Job>, n: nat): (s': State)
    requires n <= |jobs| && forall i | 0 <= i < |jobs| :: Runnable(jobs[i], |s|)
    ensures |s'| == |s|
  {
    if n == 0 then s
    else RunSchedule(jobs[n - 1].plan, RestartAll(jobs[n - 1].plan, RunJobs(s, jobs, n - 1)), jobs[n - 1].schedule)
  }

  ghost predicate FlagsDown(s: State) {
    forall d | 0 <= d < |s| :: s[d].synced == {}
  }

  lemma {:induction false} FreshStart(plan: Plan, s: State)
    requires plan.Valid() && plan.devices == |s| && FlagsDown(s)
    ensures RestartAll(plan, s) == Start(plan) && AtRest(plan, RestartAll(plan, s))
  {
    StartIsAtRest(plan);
    assert RestartAll(plan, s) == Start(plan);
  }

  lemma {:induction false} RunEndsInLockStep(plan: Plan, s: State, schedule: seq<nat>)
    requires plan.Valid() && plan.devices == |s| && FlagsDown(s) && Below(schedule, |s|)
    requires Finished(plan, RunSchedule(plan, RestartAll(plan, s), schedule))
    ensures EndsInLockStep(plan, RunSchedule(plan, RestartAll(plan, s), schedule))
    ensures FlagsDown(RunSchedule(plan, RestartAll(plan, s), schedule))
  {
    FreshStart(plan, s);
    PolledRefinesLockStep(plan, schedule);
  }

  /** Repeated runs refine lock-step execution too: starting with all flags down, the n-th of any runs that are all
      polled to their ends finishes with the clocks, counters and events of its own reference, whatever ran before. */
  lemma {:induction false} RepeatedRunsRefineLockStep(s: State, jobs: seq<Job>, n: nat)
    requires n <= |jobs| && FlagsDown(s) && forall i | 0 <= i < |jobs| :: Runnable(jobs[i], |s|)
    requires forall i: nat | 1 <= i <= n :: Finished(jobs[i - 1].plan, RunJobs(s, jobs, i))
    ensures n > 0 ==> EndsInLockStep(jobs[n - 1].plan, RunJobs(s, jobs, n))
    ensures FlagsDown(RunJobs(s, jobs, n))
  {
    if n > 0 {
      RepeatedRunsRefineLockStep(s, jobs, n - 1);
      assert Finished(jobs[n - 1].plan, RunJobs(s, jobs, n));
      RunEndsInLockStep(jobs[n - 1].plan, RunJobs(s, jobs, n - 1), jobs[n - 1].schedule);
    }
  }
}
