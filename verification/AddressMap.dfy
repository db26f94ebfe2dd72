/** The maps between addresses and DRAM coordinates (src/dram/mmap_controller.cpp). */
module AddressMap {
  import opened Basics

  datatype Config = Config(numCube: nat, numLogicCube: nat, numChannel: nat, numRank: nat, numBankgroup: nat,
                           numBank: nat, numRow: nat, numCol: nat, granul: nat) {
    ghost predicate Valid() {
      && numCube >= 1 && numLogicCube >= 1 && numChannel >= 1 && numRank >= 1 && numBankgroup >= 1
      && numBank >= 1 && numRow >= 1 && numCol >= 1 && granul >= 1
    }
  }

  datatype Coord = Coord(cube: nat, channel: nat, rank: nat, bankgroup: nat, bank: nat, row: nat, col: nat)

  ghost predicate InRange(c: Config, v: Coord) {
    && v.cube < c.numCube && v.channel < c.numChannel && v.rank < c.numRank && v.bankgroup < c.numBankgroup
    && v.bank < c.numBank && v.row < c.numRow && v.col < c.numCol
  }

  // ------------------------------------------------------------ mixed radix

  /** The number with a given last digit and the given digits before it. */
  function Horner(q: nat, n: nat, d: nat): nat {
    q * n + d
  }

  function Rest(x: nat, n: nat): (r: nat)
    requires n >= 1
  {
    x / n
  }

  function Digit(x: nat, n: nat): (d: nat)
    requires n >= 1
  {
    x % n
  }

  lemma {:induction false} HornerOfDigits(x: nat, n: nat)
    requires n >= 1
    ensures Horner(Rest(x, n), n, Digit(x, n)) == x && Digit(x, n) < n
  {
  }

  lemma {:induction false} DigitsOfHorner(q: nat, n: nat, d: nat)
    requires d < n
    ensures Rest(Horner(q, n, d), n) == q && Digit(Horner(q, n, d), n) == d
  {
    DivMod(q, n, d);
  }

  lemma {:induction false} HornerIsSmaller(q: nat, bound: nat, n: nat, d: nat)
    requires d < n
    ensures q < bound <==> Horner(q, n, d) < bound * n
  {
    var k: int := bound - q;
    assert bound * n - q * n == k * n;
    if k >= 1 {
      assert k * n >= n;
    } else {
      assert k * n <= 0;
    }
  }

  // ------------------------------------------------------- all-channel map

  /** The bundle at a coordinate, counting cubes first and rows last. */
  function BundleAt(c: Config, v: Coord): nat {
    Horner(Horner(Horner(Horner(Horner(Horner(v.row, c.numCol, v.col), c.numBank, v.bank), c.numBankgroup, v.bankgroup),
           c.numRank, v.rank), c.numChannel, v.channel), c.numCube, v.cube)
  }

  function Capacity(c: Config): nat {
    c.numRow * c.numCol * c.numBank * c.numBankgroup * c.numRank * c.numChannel * c.numCube
  }

  /** The coordinate of a bundle; its row may be out of range. */
  function VecOf(c: Config, bundle: nat): Coord
    requires c.Valid()
  {
    var a1 := Rest(bundle, c.numCube);
    var a2 := Rest(a1, c.numChannel);
    var a3 := Rest(a2, c.numRank);
    var a4 := Rest(a3, c.numBankgroup);
    var a5 := Rest(a4, c.numBank);
    Coord(Digit(bundle, c.numCube), Digit(a1, c.numChannel), Digit(a2, c.numRank), Digit(a3, c.numBankgroup),
          Digit(a4, c.numBank),
          Rest(a5, c.numCol), Digit(a5, c.numCol))
  }

  lemma {:induction false} BundleOfVec(c: Config, bundle: nat)
    requires c.Valid()
    ensures BundleAt(c, VecOf(c, bundle)) == bundle
    ensures InRange(c, VecOf(c, bundle).(row := 0))
  {
    var a1 := Rest(bundle, c.numCube);
    var a2 := Rest(a1, c.numChannel);
    var a3 := Rest(a2, c.numRank);
    var a4 := Rest(a3, c.numBankgroup);
    var a5 := Rest(a4, c.numBank);
    HornerOfDigits(bundle, c.numCube);
    HornerOfDigits(a1, c.numChannel);
    HornerOfDigits(a2, c.numRank);
    HornerOfDigits(a3, c.numBankgroup);
    HornerOfDigits(a4, c.numBank);
    HornerOfDigits(a5, c.numCol);
  }

  lemma {:induction false} VecOfBundle(c: Config, v: Coord)
    requires c.Valid() && InRange(c, v.(row := 0))
    ensures VecOf(c, BundleAt(c, v)) == v
  {
    var a5 := Horner(v.row, c.numCol, v.col);
    var a4 := Horner(a5, c.numBank, v.bank);
    var a3 := Horner(a4, c.numBankgroup, v.bankgroup);
    var a2 := Horner(a3, c.numRank, v.rank);
    var a1 := Horner(a2, c.numChannel, v.channel);
    DigitsOfHorner(a1, c.numCube, v.cube);
    DigitsOfHorner(a2, c.numChannel, v.channel);
    DigitsOfHorner(a3, c.numRank, v.rank);
    DigitsOfHorner(a4, c.numBankgroup, v.bankgroup);
    DigitsOfHorner(a5, c.numBank, v.bank);
    DigitsOfHorner(v.row, c.numCol, v.col);
  }

  lemma {:induction false} RowIsInRange(c: Config, v: Coord)
    requires c.Valid() && InRange(c, v.(row := 0))
    ensures v.row < c.numRow <==> BundleAt(c, v) < Capacity(c)
  {
    var a5 := Horner(v.row, c.numCol, v.col);
    var a4 := Horner(a5, c.numBank, v.bank);
    var a3 := Horner(a4, c.numBankgroup, v.bankgroup);
    var a2 := Horner(a3, c.numRank, v.rank);
    var a1 := Horner(a2, c.numChannel, v.channel);
    var p5 := c.numRow * c.numCol;
    var p4 := p5 * c.numBank;
    var p3 := p4 * c.numBankgroup;
    var p2 := p3 * c.numRank;
    var p1 := p2 * c.numChannel;
    HornerIsSmaller(v.row, c.numRow, c.numCol, v.col);
    HornerIsSmaller(a5, p5, c.numBank, v.bank);
    HornerIsSmaller(a4, p4, c.numBankgroup, v.bankgroup);
    HornerIsSmaller(a3, p3, c.numRank, v.rank);
    HornerIsSmaller(a2, p2, c.numChannel, v.channel);
    HornerIsSmaller(a1, p1, c.numCube, v.cube);
  }

  /** The map is a bijection: every bundle that fits has one coordinate in range, and every coordinate in range
      is that of exactly one bundle that fits. */
  lemma {:induction false} MapIsBijection(c: Config, bundle: nat, v: Coord)
    requires c.Valid()
    ensures bundle < Capacity(c) <==> InRange(c, VecOf(c, bundle))
    ensures bundle < Capacity(c) && v == VecOf(c, bundle) <==> InRange(c, v) && bundle == BundleAt(c, v)
  {
    BundleOfVec(c, bundle);
    RowIsInRange(c, VecOf(c, bundle));
    if InRange(c, v) {
      VecOfBundle(c, v);
      RowIsInRange(c, v);
    }
  }

  /** Digit by digit, with the address cut down in place. */
  method AddrToVec(c: Config, addr: int) returns (r: Result<Coord>)
    requires c.Valid()
    ensures r.Success? <==> 0 <= addr && addr / c.granul < Capacity(c)
    ensures r.Success? ==> InRange(c, r.value) && BundleAt(c, r.value) == addr / c.granul
  {
    if addr < 0 {
      return Failure("Address is not valid");
    }
    var address: nat := addr;
    address := address / c.granul;
    ghost var bundle := address;
    var cube := address % c.numCube;
    address := address / c.numCube;
    var channel := address % c.numChannel;
    address := address / c.numChannel;
    var rank := address % c.numRank;
    address := address / c.numRank;
    var bankgroup := address % c.numBankgroup;
    address := address / c.numBankgroup;
    var bank := address % c.numBank;
    address := address / c.numBank;
    var col := address % c.numCol;
    address := address / c.numCol;
    var row := address;
    MapIsBijection(c, bundle, VecOf(c, bundle));
    if row >= c.numRow {
      return Failure("Unvalid memory hasing");
    }
    return Success(Coord(cube, channel, rank, bankgroup, bank, row, col));
  }

  // -------------------------------------------------------------- logic map

  /** The bundle index a coordinate stands for when cubes are counted with the given radix. */
  function LogicBundleAt(c: Config, cubes: nat, v: Coord): nat {
    Horner(Horner(Horner(Horner(Horner(Horner(Horner(v.rank, 2, v.bank / 2), c.numRow, v.row), c.numCol, v.col),
           2, v.bank % 2), c.numBankgroup, v.bankgroup), c.numChannel, v.channel), cubes, v.cube)
  }

  /** The digits of a bundle index, the highest without its remainder by the number of ranks. */
  function LogicDigits(c: Config, bundle: nat): Coord
    requires c.Valid()
  {
    var a1 := Rest(bundle, c.numLogicCube);
    var a2 := Rest(a1, c.numChannel);
    var a3 := Rest(a2, c.numBankgroup);
    var a4 := Rest(a3, 2);
    var a5 := Rest(a4, c.numCol);
    var a6 := Rest(a5, c.numRow);
    Coord(Digit(bundle, c.numLogicCube), Digit(a1, c.numChannel), Rest(a6, 2), Digit(a2, c.numBankgroup),
          Digit(a6, 2) * 2 + Digit(a3, 2),
          Digit(a5, c.numRow), Digit(a4, c.numCol))
  }

  function LogicVecOf(c: Config, bundle: nat): Coord
    requires c.Valid()
  {
    var v := LogicDigits(c, bundle);
    v.(rank := v.rank % c.numRank)
  }

  lemma {:induction false} BundleOfLogicDigits(c: Config, bundle: nat)
    requires c.Valid()
    ensures LogicBundleAt(c, c.numLogicCube, LogicDigits(c, bundle)) == bundle
    ensures LogicDigits(c, bundle).bank < 4
  {
    var a1 := Rest(bundle, c.numLogicCube);
    var a2 := Rest(a1, c.numChannel);
    var a3 := Rest(a2, c.numBankgroup);
    var a4 := Rest(a3, 2);
    var a5 := Rest(a4, c.numCol);
    var a6 := Rest(a5, c.numRow);
    HornerOfDigits(bundle, c.numLogicCube);
    HornerOfDigits(a1, c.numChannel);
    HornerOfDigits(a2, c.numBankgroup);
    HornerOfDigits(a3, 2);
    HornerOfDigits(a4, c.numCol);
    HornerOfDigits(a5, c.numRow);
    HornerOfDigits(a6, 2);
    BankHalves(Digit(a6, 2), Digit(a3, 2));
  }

  lemma {:induction false} BankHalves(upper: nat, under: nat)
    requires upper < 2 && under < 2
    ensures (upper * 2 + under) / 2 == upper && (upper * 2 + under) % 2 == under
    ensures upper * 2 + under < 4
  {
  }

  lemma {:induction false} LogicDigitsAreInRange(c: Config, bundle: nat)
    requires c.Valid()
    ensures InRange(c.(numCube := c.numLogicCube, numBank := 4), LogicDigits(c, bundle).(rank := 0))
  {
    BundleOfLogicDigits(c, bundle);
  }

  method AddrToVecLogic(c: Config, addr: nat) returns (v: Coord)
    requires c.Valid()
    ensures v == LogicVecOf(c, Rest(addr, c.granul))
  {
    var address := addr / c.granul;
    var cube := address % c.numLogicCube;
    address := address / c.numLogicCube;
    var channel := address % c.numChannel;
    address := address / c.numChannel;
    var bankgroup := address % c.numBankgroup;
    address := address / c.numBankgroup;
    var bankUnder := address % 2;
    address := address / 2;
    var col := address % c.numCol;
    address := address / c.numCol;
    var row := address % c.numRow;
    address := address / c.numRow;
    var bankUpper := address % 2;
    address := address / 2;
    var rank := address % c.numRank;
    v := Coord(cube, channel, rank, bankgroup, bankUpper * 2 + bankUnder, row, col);
  }

  method VecToAddrLogic(c: Config, v: Coord) returns (address: nat)
    ensures address == LogicBundleAt(c, c.numCube, v) * c.granul
  {
    var bankUpper, bankUnder := v.bank / 2, v.bank % 2;
    address := 0;
    address := address + v.rank;
    address := address * 2;
    address := address + bankUpper;
    address := address * c.numRow;
    address := address + v.row;
    address := address * c.numCol;
    address := address + v.col;
    address := address * 2;
    address := address + bankUnder;
    address := address * c.numBankgroup;
    address := address + v.bankgroup;
    address := address * c.numChannel;
    address := address + v.channel;
    address := address * c.numCube;
    address := address + v.cube;
    address := address * c.granul;
  }

  lemma {:induction false} OtherRadix(q: nat, n: nat, m: nat, d: nat)
    ensures Horner(q, n, d) == Horner(q, m, d) <==> q == 0 || n == m
  {
    assert q * n - q * m == q * (n - m);
  }

  /** Going to a coordinate and back gives the same bundle exactly if the two directions agree on the number of
      cubes, or the bundle is the first of its cube; as long as the rank needs no remainder. */
  lemma {:induction false} LogicBundleRoundTrip(c: Config, bundle: nat)
    requires c.Valid() && LogicDigits(c, bundle).rank < c.numRank
    ensures LogicBundleAt(c, c.numCube, LogicVecOf(c, bundle)) == bundle <==>
            c.numLogicCube == c.numCube || Rest(bundle, c.numLogicCube) == 0
  {
    var v := LogicDigits(c, bundle);
    BundleOfLogicDigits(c, bundle);
    RankIsKept(c, v);
    var q := Horner(Horner(Horner(Horner(Horner(Horner(v.rank, 2, v.bank / 2), c.numRow, v.row), c.numCol, v.col),
                    2, v.bank % 2), c.numBankgroup, v.bankgroup), c.numChannel, v.channel);
    OtherRadix(q, c.numCube, c.numLogicCube, v.cube);
    HornerOfDigits(bundle, c.numLogicCube);
    DigitsOfHorner(q, c.numLogicCube, v.cube);
  }

  /** The digits of a made-up index are the coordinate it was made from, whatever its rank. */
  lemma {:induction false} LogicDigitsOfBundle(c: Config, v: Coord)
    requires c.Valid() && c.numLogicCube == c.numCube && InRange(c.(numBank := 4), v.(rank := 0))
    ensures LogicDigits(c, LogicBundleAt(c, c.numCube, v)) == v
  {
    var a6 := Horner(v.rank, 2, v.bank / 2);
    var a5 := Horner(a6, c.numRow, v.row);
    var a4 := Horner(a5, c.numCol, v.col);
    var a3 := Horner(a4, 2, v.bank % 2);
    var a2 := Horner(a3, c.numBankgroup, v.bankgroup);
    var a1 := Horner(a2, c.numChannel, v.channel);
    DigitsOfHorner(a1, c.numCube, v.cube);
    DigitsOfHorner(a2, c.numChannel, v.channel);
    DigitsOfHorner(a3, c.numBankgroup, v.bankgroup);
    DigitsOfHorner(a4, 2, v.bank % 2);
    DigitsOfHorner(a5, c.numCol, v.col);
    DigitsOfHorner(a6, c.numRow, v.row);
    DigitsOfHorner(v.rank, 2, v.bank / 2);
  }

  /** Going to an address and back gives the same coordinate exactly if its bank is one of the first four. */
  lemma {:induction false} LogicVecRoundTrip(c: Config, v: Coord)
    requires c.Valid() && c.numLogicCube == c.numCube && InRange(c, v)
    ensures LogicVecOf(c, LogicBundleAt(c, c.numCube, v)) == v <==> v.bank < 4
  {
    BundleOfLogicDigits(c, LogicBundleAt(c, c.numCube, v));
    if v.bank < 4 {
      LogicDigitsOfBundle(c, v);
      RankIsKept(c, v);
    }
  }

  lemma {:induction false} RankIsKept(c: Config, v: Coord)
    requires v.rank < c.numRank
    ensures v.(rank := v.rank % c.numRank) == v
  {
  }

  /** The bundles the logic map can tell apart. */
  function LogicCapacity(c: Config): nat {
    c.numRank * 2 * c.numRow * c.numCol * 2 * c.numBankgroup * c.numChannel * c.numLogicCube
  }

  lemma {:induction false} LogicRankIsInRange(c: Config, bundle: nat)
    requires c.Valid()
    ensures LogicDigits(c, bundle).rank < c.numRank <==> bundle < LogicCapacity(c)
  {
    var a1 := Rest(bundle, c.numLogicCube);
    var a2 := Rest(a1, c.numChannel);
    var a3 := Rest(a2, c.numBankgroup);
    var p3 := c.numRank * 2 * c.numRow * c.numCol * 2;
    var p2 := p3 * c.numBankgroup;
    var p1 := p2 * c.numChannel;
    UpperRankIsInRange(c, a3);
    RestIsSmaller(a2, p3, c.numBankgroup);
    RestIsSmaller(a1, p2, c.numChannel);
    RestIsSmaller(bundle, p1, c.numLogicCube);
  }

  lemma {:induction false} UpperRankIsInRange(c: Config, a3: nat)
    requires c.Valid()
    ensures Rest(Rest(Rest(Rest(a3, 2), c.numCol), c.numRow), 2) < c.numRank <==>
      a3 < c.numRank * 2 * c.numRow * c.numCol * 2
  {
    var a4 := Rest(a3, 2);
    var a5 := Rest(a4, c.numCol);
    var a6 := Rest(a5, c.numRow);
    var p6 := c.numRank * 2;
    var p5 := p6 * c.numRow;
    RestIsSmaller(a6, c.numRank, 2);
    RestIsSmaller(a5, p6, c.numRow);
    RestIsSmaller(a4, p5, c.numCol);
    RestIsSmaller(a3, p5 * c.numCol, 2);
  }

  lemma {:induction false} RestIsSmaller(x: nat, bound: nat, n: nat)
    requires n >= 1
    ensures Rest(x, n) < bound <==> x < bound * n
  {
    HornerOfDigits(x, n);
    HornerIsSmaller(Rest(x, n), bound, n, Digit(x, n));
  }

  /** For an address that fits, going to a coordinate and back gives the address rounded down to its granule
      exactly if the two directions agree on the number of cubes or the address lies in the first bundle of its
      cube. */
  lemma {:induction false} LogicRoundTrip(c: Config, addr: nat)
    requires c.Valid() && Rest(addr, c.granul) < LogicCapacity(c)
    ensures LogicBundleAt(c, c.numCube, LogicVecOf(c, Rest(addr, c.granul))) * c.granul
            == addr - Digit(addr, c.granul) <==>
            c.numLogicCube == c.numCube || Rest(Rest(addr, c.granul), c.numLogicCube) == 0
  {
    var bundle := Rest(addr, c.granul);
    LogicRankIsInRange(c, bundle);
    LogicBundleRoundTrip(c, bundle);
    SameMultiple(LogicBundleAt(c, c.numCube, LogicVecOf(c, bundle)), bundle, c.granul);
    HornerOfDigits(addr, c.granul);
  }

  /** With equal cube counts, going to a coordinate and back gives the address rounded down to its granule exactly
      if the address fits; past that point the rank wraps around unnoticed. */
  lemma {:induction false} LogicRoundTripFits(c: Config, addr: nat)
    requires c.Valid() && c.numLogicCube == c.numCube
    ensures LogicBundleAt(c, c.numCube, LogicVecOf(c, Rest(addr, c.granul))) * c.granul
            == addr - Digit(addr, c.granul) <==>
            Rest(addr, c.granul) < LogicCapacity(c)
  {
    var bundle := Rest(addr, c.granul);
    var v := LogicVecOf(c, bundle);
    LogicRankIsInRange(c, bundle);
    LogicDigitsAreInRange(c, bundle);
    LogicDigitsOfBundle(c, v);
    if LogicDigits(c, bundle).rank < c.numRank {
      LogicBundleRoundTrip(c, bundle);
    }
    SameMultiple(LogicBundleAt(c, c.numCube, v), bundle, c.granul);
    HornerOfDigits(addr, c.granul);
  }

  /** With fewer logic cubes than cubes the two directions disagree: the 80 GB configuration with four logic cubes
      instead of five, and the first address past the first bundle of every logic cube. */
  lemma {:induction false} LogicMapsDisagree()
    ensures var c := Config(5, 4, 32, 2, 4, 4, 16384, 32, 32);
      && c.Valid() && Rest(128, c.granul) < LogicCapacity(c)
      && LogicBundleAt(c, c.numCube, LogicVecOf(c, Rest(128, c.granul))) * c.granul != 128 - Digit(128, c.granul)
  {
    LogicRoundTrip(Config(5, 4, 32, 2, 4, 4, 16384, 32, 32), 128);
  }
}
