/** The commands a tensor causes on the observed channels: the loops over its bundles, and the closed form
    (src/dram/pimkernel/Read.cpp, src/dram/pimkernel/GEMV.cpp, src/hardware/device.cpp). */
module CommandCount {
  import opened Basics
  import opened AddressMap

  // ---------------------------------------------------------------- counts

  /** How many of the first n numbers satisfy a predicate. */
  ghost function Count(n: nat, p: nat -> bool): nat {
    if n == 0 then 0 else Count(n - 1, p) + if p(n - 1) then 1 else 0
  }

  /** A division rounded up, as the code writes it. */
  function Share(n: nat, parts: nat): (k: nat)
    requires parts >= 1
  {
    if n % parts == 0 then n / parts else n / parts + 1
  }

  lemma {:induction false} NextDigit(n: nat, parts: nat)
    requires parts >= 1
    ensures if Digit(n, parts) + 1 == parts then Digit(n + 1, parts) == 0 && Rest(n + 1, parts) == Rest(n, parts) + 1
            else Digit(n + 1, parts) == Digit(n, parts) + 1 && Rest(n + 1, parts) == Rest(n, parts)
  {
    HornerOfDigits(n, parts);
    var q, d := Rest(n, parts), Digit(n, parts);
    if d + 1 == parts {
      assert Horner(q + 1, parts, 0) == n + 1;
      DigitsOfHorner(q + 1, parts, 0);
    } else {
      assert Horner(q, parts, d + 1) == n + 1;
      DigitsOfHorner(q, parts, d + 1);
    }
  }

  /** The next number adds to the share exactly if it is a multiple. */
  lemma {:induction false} NextShare(n: nat, parts: nat)
    requires parts >= 1
    ensures Share(n + 1, parts) == Share(n, parts) + if Digit(n, parts) == 0 then 1 else 0
    ensures Digit(n, parts) == 0 ==> Share(n, parts) == Rest(n, parts)
  {
    NextDigit(n, parts);
  }

  /** Counting multiples that satisfy a predicate of their quotient is counting quotients. */
  lemma {:induction false} CountMultiples(n: nat, parts: nat, p: nat -> bool, q: nat -> bool)
    requires parts >= 1 && forall b: nat :: q(b) <==> Digit(b, parts) == 0 && p(Rest(b, parts))
    ensures Count(n, q) == Count(Share(n, parts), p)
  {
    if n > 0 {
      CountMultiples(n - 1, parts, p, q);
      NextShare(n - 1, parts);
    } else {
      assert Share(0, parts) == 0;
    }
  }

  lemma {:induction false} CountSame(n: nat, p: nat -> bool, q: nat -> bool)
    requires forall b: nat | b < n :: p(b) <==> q(b)
    ensures Count(n, p) == Count(n, q)
  {
    if n > 0 {
      CountSame(n - 1, p, q);
    }
  }

  lemma {:induction false} CountAll(n: nat, p: nat -> bool)
    requires forall b: nat :: p(b)
    ensures Count(n, p) == n
  {
    if n > 0 {
      CountAll(n - 1, p);
    }
  }

  // -------------------------------------------------------------- addresses

  /** A coordinate as the DRAM simulator wants it: the two halves of the channel number, then the rest. */
  function RamulatorVec(c: Config, v: Coord): (r: seq<nat>)
    ensures |r| == 7
  {
    var channel := c.numChannel * v.cube + v.channel;
    [channel / 2, channel % 2, v.rank, v.bankgroup, v.bank, v.row, v.col]
  }

  lemma {:induction false} FirstChannels(c: Config, v: Coord)
    requires c.numChannel >= 1
    ensures var r := RamulatorVec(c, v);
      && (r[0] == 0 && r[1] == 0 <==> v.cube == 0 && v.channel == 0)
      && (c.numChannel >= 2 ==> (r[0] == 0 <==> v.cube == 0 && v.channel < 2))
  {
    CubeOffset(c.numChannel, v.cube);
  }

  lemma {:induction false} CubeOffset(channels: nat, cube: nat)
    ensures if cube == 0 then channels * cube == 0 else channels * cube >= channels
  {
  }

  /** A tensor in memory. */
  datatype MemoryObject = MemoryObject(address: nat, size: nat, numBundle: nat)

  datatype Processor = GPU | PIM | LOGIC

  /** Whether all bundles of a tensor have a coordinate. */
  ghost predicate Fits(c: Config, o: MemoryObject)
    requires c.Valid()
  {
    forall i: nat | i < o.numBundle :: (o.address + i * c.granul) / c.granul < Capacity(c)
  }

  /** The coordinate of the i-th bundle of a tensor. */
  function BundleVec(c: Config, o: MemoryObject, i: nat, processor: Processor): seq<nat>
    requires c.Valid()
  {
    var bundle := (o.address + i * c.granul) / c.granul;
    RamulatorVec(c, if processor == LOGIC then LogicVecOf(c, bundle) else VecOf(c, bundle))
  }

  /** The coordinates of the first n bundles that pass a filter. */
  ghost function Filtered(c: Config, o: MemoryObject, n: nat, processor: Processor, f: seq<nat> -> bool): seq<seq<nat>>
    requires c.Valid()
  {
    if n == 0 then []
    else
      Filtered(c, o, n - 1, processor, f) +
      if f(BundleVec(c, o, n - 1, processor)) then [BundleVec(c, o, n - 1, processor)] else []
  }

  method GetAddrVec(c: Config, o: MemoryObject, i: nat, processor: Processor) returns (r: Result<seq<nat>>)
    requires c.Valid()
    ensures r.Success? <==> processor == LOGIC || (o.address + i * c.granul) / c.granul < Capacity(c)
    ensures r.Success? ==> r.value == BundleVec(c, o, i, processor)
  {
    var target := o.address + i * c.granul;
    if processor == LOGIC {
      var v := AddrToVecLogic(c, target);
      return Success(RamulatorVec(c, v));
    }
    var v := AddrToVec(c, target);
    if v.Failure? {
      return Failure(v.message);
    }
    MapIsBijection(c, target / c.granul, v.value);
    return Success(RamulatorVec(c, v.value));
  }

  // ----------------------------------------------------------------- kernels

  predicate OnFirstChannels(v: seq<nat>) {
    |v| > 0 && v[0] == 0
  }

  /** The read kernel: a command for every bundle on the first pair of channels. */
  method ReadKernel(c: Config, o: MemoryObject, processor: Processor) returns (r: Result<seq<seq<nat>>>)
    requires c.Valid()
    ensures r.Success? <==> processor == LOGIC || Fits(c, o)
    ensures r.Success? ==> r.value == Filtered(c, o, o.numBundle, processor, OnFirstChannels)
  {
    var commands := [];
    for i := 0 to o.numBundle
      invariant commands == Filtered(c, o, i, processor, OnFirstChannels)
      invariant processor == LOGIC || forall j: nat | j < i :: (o.address + j * c.granul) / c.granul < Capacity(c)
    {
      var v := GetAddrVec(c, o, i, processor);
      if v.Failure? {
        return Failure(v.message);
      }
      if v.value[0] == 0 {
        commands := commands + [v.value];
      }
    }
    return Success(commands);
  }

  predicate Supported(processor: Processor, bandwidth: nat) {
    match processor
    case PIM => bandwidth == 16 || bandwidth == 8 || bandwidth == 4
    case LOGIC => bandwidth == 4
    case GPU => true
  }

  /** Which bundles a matrix-vector kernel works on. */
  predicate Works(processor: Processor, bandwidth: nat, v: seq<nat>) {
    |v| == 7 &&
    match processor
    case PIM =>
      && v[0] == 0 && v[1] == 0 && v[2] == 0 && v[3] == 0
      && (bandwidth == 16 ==> v[4] == 0) && (bandwidth == 8 ==> v[4] % 2 == 0)
    case LOGIC => v[0] == 0 && v[1] == 0 && v[4] % 2 == 0 && v[3] == 0
    case GPU => false
  }

  /** The matrix-vector kernel. */
  method Gemv(c: Config, o: MemoryObject, processor: Processor, bandwidth: nat) returns (r: Result<seq<seq<nat>>>)
    requires c.Valid()
    ensures r.Success? <==> Supported(processor, bandwidth) && (processor == PIM ==> Fits(c, o))
    ensures r.Success? ==> r.value == Filtered(c, o, o.numBundle, processor, v => Works(processor, bandwidth, v))
  {
    if !Supported(processor, bandwidth) {
      return Failure("Not supported bandwidth_x configuration");
    }
    ghost var f := (v: seq<nat>) => Works(processor, bandwidth, v);
    var commands := [];
    if processor == GPU {
      NothingPasses(c, o, o.numBundle, processor, f);
      return Success(commands);
    }
    for i := 0 to o.numBundle
      invariant commands == Filtered(c, o, i, processor, f)
      invariant processor == LOGIC || forall j: nat | j < i :: (o.address + j * c.granul) / c.granul < Capacity(c)
    {
      var v := GetAddrVec(c, o, i, processor);
      if v.Failure? {
        return Failure(v.message);
      }
      if Works(processor, bandwidth, v.value) {
        commands := commands + [v.value];
      }
    }
    return Success(commands);
  }

  lemma {:induction false} NothingPasses(c: Config, o: MemoryObject, n: nat, processor: Processor, f: seq<nat> -> bool)
    requires c.Valid() && forall v :: !f(v)
    ensures Filtered(c, o, n, processor, f) == []
  {
    if n > 0 {
      NothingPasses(c, o, n - 1, processor, f);
    }
  }

  // -------------------------------------------------------- counting commands

  /** At base address 0 the commands are counted by the numbers of the bundles. */
  lemma {:induction false} FilteredCount(c: Config, o: MemoryObject, n: nat, processor: Processor, f: seq<nat> -> bool,
                                         p: nat -> bool)
    requires c.Valid() && o.address == 0
    requires forall b: nat :: p(b) <==> f(RamulatorVec(c, if processor == LOGIC then LogicVecOf(c, b) else VecOf(c, b)))
    ensures |Filtered(c, o, n, processor, f)| == Count(n, p)
  {
    if n > 0 {
      FilteredCount(c, o, n - 1, processor, f, p);
      DigitsOfHorner(n - 1, c.granul, 0);
    }
  }

  /** The number of read commands of a tensor at base address 0: those of cube 0 on its first two channels. */
  lemma {:induction false} ReadCount(c: Config, o: MemoryObject)
    requires c.Valid() && c.numChannel >= 2 && o.address == 0
    ensures |Filtered(c, o, o.numBundle, GPU, OnFirstChannels)|
            == Count(Share(o.numBundle, c.numCube), (k: nat) => Digit(k, c.numChannel) < 2)
  {
    var p := (k: nat) => Digit(k, c.numChannel) < 2;
    var q := (b: nat) => Digit(b, c.numCube) == 0 && p(Rest(b, c.numCube));
    forall b: nat
      ensures q(b) <==> OnFirstChannels(RamulatorVec(c, VecOf(c, b)))
    {
      FirstChannels(c, VecOf(c, b));
    }
    FilteredCount(c, o, o.numBundle, GPU, OnFirstChannels, q);
    CountMultiples(o.numBundle, c.numCube, p, q);
  }

  /** The closed form for the reads on the first two channels. */
  function IdealReads(c: Config, size: nat): nat
    requires c.Valid()
  {
    var total := size / c.granul;
    var cube0 := Share(total, c.numCube);
    Share(cube0, c.numChannel) + SecondShare(cube0, c.numChannel)
  }

  /** The closed form for the second channel. */
  function SecondShare(n: nat, channels: nat): nat
    requires channels >= 1
  {
    if n % channels == 1 then n / channels else n / channels + 1
  }

  lemma {:induction false} FirstTwo(n: nat, channels: nat)
    requires channels >= 2
    ensures Count(n, (k: nat) => Digit(k, channels) < 2) + (if Digit(n, channels) == 0 then 1 else 0) ==
      Share(n, channels) + SecondShare(n, channels)
  {
    if n > 0 {
      FirstTwo(n - 1, channels);
      NextShare(n - 1, channels);
      NextDigit(n - 1, channels);
    }
  }

  /** The closed form is the number of commands of the loop, except that it is one more when the share of cube 0
      is a multiple of the number of channels. */
  lemma {:induction false} IdealIsReadCount(c: Config, o: MemoryObject)
    requires c.Valid() && c.numChannel >= 2 && o.address == 0 && o.numBundle == o.size / c.granul
    ensures IdealReads(c, o.size) == |Filtered(c, o, o.numBundle, GPU, OnFirstChannels)| +
      if Share(o.numBundle, c.numCube) % c.numChannel == 0 then 1 else 0
  {
    ReadCount(c, o);
    FirstTwo(Share(o.numBundle, c.numCube), c.numChannel);
  }

  /** Counters of the DRAM interface. */
  datatype ExecStatus = ExecStatus(actCount: nat, readCount: nat, writeCount: nat, memoryDuration: real)

  const CLEARED := ExecStatus(0, 0, 0, 0.0)

  datatype RequestType = Read | Write | Other

  class DramInterface {
    var execStatus: ExecStatus

    constructor ()
      ensures execStatus == CLEARED
    {
      execStatus := CLEARED;
    }

    /** The counts of a tensor without simulation; an empty tensor leaves the previous counts in place. */
    method RunIdeal(c: Config, request: RequestType, size: nat)
      requires c.Valid()
      modifies this
      ensures size == 0 ==> execStatus == old(execStatus)
      ensures size > 0 ==>
        var k := IdealReads(c, size);
        execStatus == CLEARED.(actCount := if k < c.numCol then 1 else k / c.numCol,
                               readCount := if request == Read then k else 0,
                               writeCount := if request == Write then k else 0)
    {
      if size == 0 {
        return;
      }
      var total := size / c.granul;
      var cube0 := Share(total, c.numCube);
      var pch0 := Share(cube0, c.numChannel);
      var pch1 := SecondShare(cube0, c.numChannel);
      execStatus := CLEARED;
      execStatus := execStatus.(actCount := if pch0 + pch1 < c.numCol then 1 else (pch0 + pch1) / c.numCol);
      if request == Read {
        execStatus := execStatus.(readCount := pch0 + pch1);
      } else if request == Write {
        execStatus := execStatus.(writeCount := pch0 + pch1);
      }
    }
  }

  // ------------------------------------------------------------ GEMV counts

  /** The bundles on the first channel, rank and bank group. */
  function FirstGroup(c: Config, n: nat): nat
    requires c.Valid()
  {
    Share(Share(Share(Share(n, c.numCube), c.numChannel), c.numRank), c.numBankgroup)
  }

  ghost predicate BankWorks(c: Config, bandwidth: nat, b: nat)
    requires c.Valid()
  {
    (bandwidth == 16 ==> Digit(b, c.numBank) == 0) && (bandwidth == 8 ==> Digit(b, c.numBank) % 2 == 0)
  }

  lemma {:induction false} PimCount(c: Config, o: MemoryObject, bandwidth: nat)
    requires c.Valid() && o.address == 0
    ensures |Filtered(c, o, o.numBundle, PIM, v => Works(PIM, bandwidth, v))|
            == Count(FirstGroup(c, o.numBundle), (b: nat) => BankWorks(c, bandwidth, b))
  {
    var n := o.numBundle;
    var p4 := (b: nat) => BankWorks(c, bandwidth, b);
    var p3 := (b: nat) => Digit(b, c.numBankgroup) == 0 && p4(Rest(b, c.numBankgroup));
    var p2 := (b: nat) => Digit(b, c.numRank) == 0 && p3(Rest(b, c.numRank));
    var p1 := (b: nat) => Digit(b, c.numChannel) == 0 && p2(Rest(b, c.numChannel));
    var p0 := (b: nat) => Digit(b, c.numCube) == 0 && p1(Rest(b, c.numCube));
    var f := (v: seq<nat>) => Works(PIM, bandwidth, v);
    forall b: nat
      ensures p0(b) <==> f(RamulatorVec(c, VecOf(c, b)))
    {
      FirstChannels(c, VecOf(c, b));
    }
    FilteredCount(c, o, n, PIM, f, p0);
    CountMultiples(n, c.numCube, p1, p0);
    CountMultiples(Share(n, c.numCube), c.numChannel, p2, p1);
    CountMultiples(Share(Share(n, c.numCube), c.numChannel), c.numRank, p3, p2);
    CountMultiples(Share(Share(Share(n, c.numCube), c.numChannel), c.numRank), c.numBankgroup, p4, p3);
  }

  lemma {:induction false} HalfOfHalf(n: nat)
    ensures Share(Share(n, 2), 2) == Share(n, 4)
  {
  }

  /** Widening the bandwidth halves the commands, rounded up: with four banks, a kernel of bandwidth 8 has half
      the commands of one of bandwidth 4, and one of bandwidth 16 half of those. */
  lemma {:induction false} GemvCountsHalve(c: Config, o: MemoryObject, n4: nat, n8: nat, n16: nat)
    requires c.Valid() && c.numBank == 4 && o.address == 0
    requires n4 == |Filtered(c, o, o.numBundle, PIM, v => Works(PIM, 4, v))|
    requires n8 == |Filtered(c, o, o.numBundle, PIM, v => Works(PIM, 8, v))|
    requires n16 == |Filtered(c, o, o.numBundle, PIM, v => Works(PIM, 16, v))|
    ensures n4 == FirstGroup(c, o.numBundle) && n8 == Share(n4, 2) && n16 == Share(n8, 2)
  {
    var m := FirstGroup(c, o.numBundle);
    PimCount(c, o, 4);
    PimCount(c, o, 8);
    PimCount(c, o, 16);
    CountAll(m, (b: nat) => BankWorks(c, 4, b));
    EvenBanks(c, m);
    FirstBanks(c, m);
    HalfOfHalf(m);
  }

  lemma {:induction false} EvenBanks(c: Config, m: nat)
    requires c.Valid() && c.numBank == 4
    ensures Count(m, (b: nat) => BankWorks(c, 8, b)) == Share(m, 2)
  {
    var any, q := (b: nat) => true, (b: nat) => BankWorks(c, 8, b);
    CountAll(Share(m, 2), any);
    forall b: nat
      ensures q(b) <==> Digit(b, 2) == 0 && any(Rest(b, 2))
    {
      EvenDigit(b);
    }
    CountMultiples(m, 2, any, q);
  }

  lemma {:induction false} EvenDigit(b: nat)
    ensures Digit(b, 4) % 2 == Digit(b, 2)
  {
  }

  lemma {:induction false} FirstBanks(c: Config, m: nat)
    requires c.Valid() && c.numBank == 4
    ensures Count(m, (b: nat) => BankWorks(c, 16, b)) == Share(m, 4)
  {
    var any := (b: nat) => true;
    CountAll(Share(m, 4), any);
    CountMultiples(m, 4, any, (b: nat) => BankWorks(c, 16, b));
  }

  /** On the logic die the commands are those of the first channel, bank group and lower banks. */
  lemma {:induction false} LogicCount(c: Config, o: MemoryObject)
    requires c.Valid() && o.address == 0
    ensures |Filtered(c, o, o.numBundle, LOGIC, v => Works(LOGIC, 4, v))| ==
            Share(Share(Share(Share(o.numBundle, c.numLogicCube), c.numChannel), c.numBankgroup), 2)
  {
    var n := o.numBundle;
    var any := (b: nat) => true;
    var p3 := (b: nat) => Digit(b, 2) == 0 && any(Rest(b, 2));
    var p2 := (b: nat) => Digit(b, c.numBankgroup) == 0 && p3(Rest(b, c.numBankgroup));
    var p1 := (b: nat) => Digit(b, c.numChannel) == 0 && p2(Rest(b, c.numChannel));
    var p0 := (b: nat) => Digit(b, c.numLogicCube) == 0 && p1(Rest(b, c.numLogicCube));
    var f := (v: seq<nat>) => Works(LOGIC, 4, v);
    forall b: nat
      ensures p0(b) <==> f(RamulatorVec(c, LogicVecOf(c, b)))
    {
      FirstChannels(c, LogicVecOf(c, b));
    }
    FilteredCount(c, o, n, LOGIC, f, p0);
    CountMultiples(n, c.numLogicCube, p1, p0);
    CountMultiples(Share(n, c.numLogicCube), c.numChannel, p2, p1);
    CountMultiples(Share(Share(n, c.numLogicCube), c.numChannel), c.numBankgroup, p3, p2);
    CountMultiples(Share(Share(Share(n, c.numLogicCube), c.numChannel), c.numBankgroup), 2, any, p3);
    CountAll(Share(Share(Share(Share(n, c.numLogicCube), c.numChannel), c.numBankgroup), 2), any);
  }
}
