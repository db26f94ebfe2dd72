/** What the enqueued commands are, read back from the coordinates the DRAM simulator is given
    (src/dram/pimkernel/Read.cpp, src/dram/pimkernel/GEMV.cpp, src/dram/mmap_controller.cpp). */
module Commands {
  import opened AddressMap
  import opened CommandCount
  import opened Allocation

  /** The coordinate behind a command: the channel number put together again and taken apart by cubes. */
  ghost function CoordOf(c: Config, r: seq<nat>): Coord
    requires c.numChannel >= 1 && |r| == 7
  {
    var channel := 2 * r[0] + r[1];
    Coord(channel / c.numChannel, channel % c.numChannel, r[2], r[3], r[4], r[5], r[6])
  }

  lemma {:induction false} CommandGivesBack(c: Config, v: Coord)
    requires c.Valid() && v.channel < c.numChannel
    ensures CoordOf(c, RamulatorVec(c, v)) == v && RamulatorVec(c, v)[1] < 2
  {
    DigitsOfHorner(v.cube, c.numChannel, v.channel);
  }

  /** Command r accesses the given bundle, at a coordinate that exists. */
  ghost predicate Accesses(c: Config, bundle: nat, r: seq<nat>)
    requires c.Valid()
  {
    |r| == 7 && r[1] < 2 && InRange(c, CoordOf(c, r)) && BundleAt(c, CoordOf(c, r)) == bundle
  }

  /** Coordinate v stands for the given bundle on the logic die, where the number of ranks cuts the highest digit. */
  ghost predicate LogicPlace(c: Config, bundle: nat, v: Coord, rank: nat)
    requires c.Valid()
  {
    rank % c.numRank == v.rank && LogicBundleAt(c, c.numLogicCube, v.(rank := rank)) == bundle
  }

  ghost predicate AccessesLogic(c: Config, bundle: nat, r: seq<nat>)
    requires c.Valid()
  {
    |r| == 7 && r[1] < 2 && exists rank: nat :: LogicPlace(c, bundle, CoordOf(c, r), rank)
  }

  /** Command r accesses the i-th bundle of the tensor, by the map its processor uses. */
  ghost predicate AccessesBy(c: Config, o: MemoryObject, i: nat, processor: Processor, r: seq<nat>)
    requires c.Valid()
  {
    var bundle := o.address / c.granul + i;
    if processor == LOGIC then AccessesLogic(c, bundle, r) else Accesses(c, bundle, r)
  }

  lemma {:induction false} LogicChannelExists(c: Config, bundle: nat)
    requires c.Valid()
    ensures LogicVecOf(c, bundle).channel < c.numChannel
  {
    HornerOfDigits(Rest(bundle, c.numLogicCube), c.numChannel);
  }

  lemma {:induction false} LogicIsAccessed(c: Config, bundle: nat)
    requires c.Valid()
    ensures AccessesLogic(c, bundle, RamulatorVec(c, LogicVecOf(c, bundle)))
  {
    var v, digits := LogicVecOf(c, bundle), LogicDigits(c, bundle);
    BundleOfLogicDigits(c, bundle);
    LogicChannelExists(c, bundle);
    CommandGivesBack(c, v);
    assert v.(rank := digits.rank) == digits;
    assert LogicPlace(c, bundle, v, digits.rank);
  }

  lemma {:induction false} IsAccessed(c: Config, bundle: nat)
    requires c.Valid() && bundle < Capacity(c)
    ensures Accesses(c, bundle, RamulatorVec(c, VecOf(c, bundle)))
  {
    var v := VecOf(c, bundle);
    MapIsBijection(c, bundle, v);
    CommandGivesBack(c, v);
  }

  lemma {:induction false} BundleIsAccessed(c: Config, o: MemoryObject, i: nat, processor: Processor)
    requires c.Valid() && (processor == LOGIC || BundleNumber(c, o, i) < Capacity(c))
    ensures AccessesBy(c, o, i, processor, BundleVec(c, o, i, processor))
  {
    BundleOffset(o.address, i, c.granul);
    if processor == LOGIC {
      LogicIsAccessed(c, BundleNumber(c, o, i));
    } else {
      IsAccessed(c, BundleNumber(c, o, i));
    }
  }

  /** The bundles picked are some of the first n, in rising order; their commands are the given ones, and exactly those
      whose command passes the filter are picked. */
  ghost predicate Picks(c: Config, o: MemoryObject, n: nat, processor: Processor, f: seq<nat> -> bool, picked: seq<nat>,
                        commands: seq<seq<nat>>)
    requires c.Valid()
  {
    && |picked| == |commands|
    && (forall k | 0 <= k < |picked| :: picked[k] < n && commands[k] == BundleVec(c, o, picked[k], processor))
    && (forall k, l | 0 <= k < l < |picked| :: picked[k] < picked[l])
    && (forall i: nat | i < n :: i in picked <==> f(BundleVec(c, o, i, processor)))
  }

  lemma {:induction false} FilterPicks(c: Config, o: MemoryObject, n: nat, processor: Processor, f: seq<nat> -> bool)
    returns (picked: seq<nat>)
    requires c.Valid()
    ensures Picks(c, o, n, processor, f, picked, Filtered(c, o, n, processor, f))
  {
    picked := [];
    if n > 0 {
      picked := FilterPicks(c, o, n - 1, processor, f);
      PicksMore(c, o, n, processor, f, picked, Filtered(c, o, n - 1, processor, f));
      if f(BundleVec(c, o, n - 1, processor)) {
        picked := picked + [n - 1];
      }
    }
  }

  lemma {:induction false} PicksMore(c: Config, o: MemoryObject, n: nat, processor: Processor, f: seq<nat> -> bool,
                                     picked: seq<nat>, commands: seq<seq<nat>>)
    requires c.Valid() && n > 0 && Picks(c, o, n - 1, processor, f, picked, commands)
    ensures if f(BundleVec(c, o, n - 1, processor))
      then Picks(c, o, n, processor, f, picked + [n - 1], commands + [BundleVec(c, o, n - 1, processor)])
      else Picks(c, o, n, processor, f, picked, commands)
  {
    var last := BundleVec(c, o, n - 1, processor);
    forall i: nat | i in picked
      ensures i < n - 1
    {
      var k :| 0 <= k < |picked| && picked[k] == i;
    }
    if f(last) {
      assert forall i: nat :: i in picked + [n - 1] <==> i in picked || i == n - 1;
    }
  }

  /** The kernels' commands, one after another: which bundles of the tensor they access, in rising order; each access
      is at a coordinate that exists, and gives back its bundle. */
  lemma {:induction false} CommandsAccessBundles(c: Config, o: MemoryObject, processor: Processor, f: seq<nat> -> bool)
    returns (picked: seq<nat>)
    requires c.Valid() && (processor == LOGIC || Fits(c, o))
    ensures var commands := Filtered(c, o, o.numBundle, processor, f);
      && Picks(c, o, o.numBundle, processor, f, picked, commands)
      && forall k | 0 <= k < |picked| :: AccessesBy(c, o, picked[k], processor, commands[k])
  {
    picked := FilterPicks(c, o, o.numBundle, processor, f);
    forall k | 0 <= k < |picked|
      ensures AccessesBy(c, o, picked[k], processor, Filtered(c, o, o.numBundle, processor, f)[k])
    {
      BundleIsAccessed(c, o, picked[k], processor);
    }
  }

  /** The read kernel picks the bundles of cube 0 on its first two channels. */
  lemma {:induction false} ReadFilter(c: Config, v: Coord)
    requires c.Valid() && c.numChannel >= 2
    ensures OnFirstChannels(RamulatorVec(c, v)) <==> v.cube == 0 && v.channel < 2
  {
    FirstChannels(c, v);
  }

  /** A matrix-vector kernel in memory picks the bundles of one bank group: all banks, every second one, or the first,
      as the bandwidth asks. On the logic die it picks every second bank of the first bank group in all ranks. */
  lemma {:induction false} GemvFilter(c: Config, v: Coord, bandwidth: nat)
    requires c.Valid()
    ensures Supported(PIM, bandwidth) ==> (Works(PIM, bandwidth, RamulatorVec(c, v)) <==>
      && v.cube == v.channel == v.rank == v.bankgroup == 0
      && (match bandwidth case 16 => v.bank == 0 case 8 => v.bank % 2 == 0 case _ => true))
    ensures Works(LOGIC, bandwidth, RamulatorVec(c, v)) <==>
      v.cube == v.channel == v.bankgroup == 0 && v.bank % 2 == 0
  {
    FirstChannels(c, v);
  }
}
