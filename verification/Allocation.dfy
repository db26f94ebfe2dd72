/** Placing tensors in memory: a bump allocator for weights, a shared base for activations and caches
    (src/dram/mmap_controller.cpp). */
module Allocation {
  import opened Basics
  import opened AddressMap
  import opened CommandCount

  /** A request for memory: the tag and the size of a tensor. */
  datatype Tensor = Tensor(tag: string, size: nat)

  /** Weights are those tensors that are neither activations nor caches. */
  predicate IsWeight(t: Tensor) {
    t.tag != "act" && t.tag != "cache"
  }

  function CursorAfter(cursor: nat, t: Tensor): nat {
    if IsWeight(t) then cursor + t.size else cursor
  }

  function Placed(c: Config, cursor: nat, t: Tensor): MemoryObject
    requires c.granul >= 1
  {
    MemoryObject(if IsWeight(t) then cursor else 0, t.size, t.size / c.granul)
  }

  /** Where a sequence of tensors is placed. */
  function Placements(c: Config, cursor: nat, ts: seq<Tensor>): (os: seq<MemoryObject>)
    requires c.granul >= 1
    ensures |os| == |ts|
    decreases |ts|
  {
    if ts == [] then [] else [Placed(c, cursor, ts[0])] + Placements(c, CursorAfter(cursor, ts[0]), ts[1..])
  }

  class MMapController {
    const config: Config
    var startAddrNormal: nat

    constructor (config: Config)
      ensures this.config == config && startAddrNormal == 0
    {
      this.config := config;
      startAddrNormal := 0;
    }

    method SetNormal(t: Tensor) returns (o: MemoryObject)
      requires config.granul >= 1
      modifies this
      ensures o == Placed(config, old(startAddrNormal), t)
      ensures startAddrNormal == CursorAfter(old(startAddrNormal), t)
    {
      var start := startAddrNormal;
      if t.tag != "act" && t.tag != "cache" {
        startAddrNormal := startAddrNormal + t.size;
      } else {
        start := 0;
      }
      o := MemoryObject(start, t.size, t.size / config.granul);
    }

    method SetAll(ts: seq<Tensor>) returns (os: seq<MemoryObject>)
      requires config.granul >= 1
      modifies this
      ensures os == Placements(config, old(startAddrNormal), ts)
    {
      os := [];
      for i := 0 to |ts|
        invariant Placements(config, old(startAddrNormal), ts) == os + Placements(config, startAddrNormal, ts[i..])
      {
        var o := SetNormal(ts[i]);
        assert ts[i..][1..] == ts[i + 1..];
        os := os + [o];
      }
    }
  }

  /** The bytes of all weights in a list. */
  function WeightBytes(ts: seq<Tensor>): nat {
    if ts == [] then 0
    else (if ts[0].tag == "act" || ts[0].tag == "cache" then 0 else ts[0].size) + WeightBytes(ts[1..])
  }

  /** A weight begins where all earlier weights end, any other tensor at the base; a tensor has as many bundles as lie
      in it whole. */
  lemma {:induction false} PlacedBehindWeights(c: Config, cursor: nat, ts: seq<Tensor>, j: nat)
    requires c.granul >= 1 && j < |ts|
    ensures var o, t := Placements(c, cursor, ts)[j], ts[j];
      && o.address == (if t.tag == "act" || t.tag == "cache" then 0 else cursor + WeightBytes(ts[..j]))
      && o.size == t.size && o.numBundle * c.granul <= t.size < o.numBundle * c.granul + c.granul
    decreases |ts|
  {
    HornerOfDigits(ts[j].size, c.granul);
    if j > 0 {
      PlacedBehindWeights(c, CursorAfter(cursor, ts[0]), ts[1..], j - 1);
      assert ts[..j][1..] == ts[1..][..j - 1];
    }
  }

  /** Weights are placed at or after the cursor. */
  lemma {:induction false} PlacedAfterCursor(c: Config, cursor: nat, ts: seq<Tensor>, j: nat)
    requires c.granul >= 1 && j < |ts| && IsWeight(ts[j])
    ensures Placements(c, cursor, ts)[j].address >= cursor
    decreases |ts|
  {
    if j > 0 {
      PlacedAfterCursor(c, CursorAfter(cursor, ts[0]), ts[1..], j - 1);
    }
  }

  /** A weight ends where or before a later one begins. */
  lemma {:induction false} WeightsAreApart(c: Config, cursor: nat, ts: seq<Tensor>, i: nat, j: nat)
    requires c.granul >= 1 && i < j < |ts| && IsWeight(ts[i]) && IsWeight(ts[j])
    ensures var os := Placements(c, cursor, ts);
      os[i].address + ts[i].size <= os[j].address && os[i].numBundle == ts[i].size / c.granul
    decreases |ts|
  {
    if i > 0 {
      WeightsAreApart(c, CursorAfter(cursor, ts[0]), ts[1..], i - 1, j - 1);
    } else {
      PlacedAfterCursor(c, CursorAfter(cursor, ts[0]), ts[1..], j - 1);
    }
  }

  /** The number of the bundle a tensor's k-th bundle occupies. */
  function BundleNumber(c: Config, o: MemoryObject, k: nat): nat
    requires c.granul >= 1
  {
    (o.address + k * c.granul) / c.granul
  }

  lemma {:induction false} BundleOffset(a: nat, k: nat, g: nat)
    requires g >= 1
    ensures (a + k * g) / g == a / g + k
  {
    HornerOfDigits(a, g);
    var q, d := Rest(a, g), Digit(a, g);
    assert Horner(q + k, g, d) == a + k * g;
    DigitsOfHorner(q + k, g, d);
  }

  /** Rounding down two sizes and adding them never exceeds rounding down their sum. */
  lemma {:induction false} RoundingLoses(a: nat, size: nat, b: nat, g: nat)
    requires g >= 1 && a + size <= b
    ensures a / g + size / g <= b / g
  {
    HornerOfDigits(a, g);
    HornerOfDigits(size, g);
    HornerOfDigits(b, g);
    var qa, qs, qb := Rest(a, g), Rest(size, g), Rest(b, g);
    assert (qb - qa - qs) * g == qb * g - qa * g - qs * g;
    Positive(qb - qa - qs, g);
  }

  lemma {:induction false} Positive(d: int, g: nat)
    requires d * g > -(g as int)
    ensures d >= 0
  {
    if d <= -1 {
      IsLarge(d, g);
    }
  }

  /** Whatever the sizes, and whatever else is placed in between: bundles of two different weights that fit in
      memory never have the same coordinate. */
  lemma {:induction false} WeightsNeverCollide(c: Config, ts: seq<Tensor>, i: nat, j: nat, k: nat, l: nat)
    requires c.Valid() && i < j < |ts| && IsWeight(ts[i]) && IsWeight(ts[j])
    requires var os := Placements(c, 0, ts); k < os[i].numBundle && l < os[j].numBundle
    ensures var os := Placements(c, 0, ts);
      && BundleNumber(c, os[i], k) < BundleNumber(c, os[j], l)
      && VecOf(c, BundleNumber(c, os[i], k)) != VecOf(c, BundleNumber(c, os[j], l))
  {
    var os := Placements(c, 0, ts);
    WeightsAreApart(c, 0, ts, i, j);
    BundleOffset(os[i].address, k, c.granul);
    BundleOffset(os[j].address, l, c.granul);
    RoundingLoses(os[i].address, ts[i].size, os[j].address, c.granul);
    BundleOfVec(c, BundleNumber(c, os[i], k));
    BundleOfVec(c, BundleNumber(c, os[j], l));
  }

  /** Activations and caches share one base: any two that are not empty collide. */
  lemma {:induction false} ActivationsCollide(c: Config, ts: seq<Tensor>, i: nat, j: nat)
    requires c.Valid() && i < j < |ts| && !IsWeight(ts[i]) && !IsWeight(ts[j])
    requires ts[i].size >= c.granul && ts[j].size >= c.granul
    ensures var os := Placements(c, 0, ts);
      0 < os[i].numBundle && 0 < os[j].numBundle && BundleNumber(c, os[i], 0) == BundleNumber(c, os[j], 0)
  {
    PlacedAtBase(c, 0, ts, i);
    PlacedAtBase(c, 0, ts, j);
    HornerOfDigits(ts[i].size, c.granul);
    HornerOfDigits(ts[j].size, c.granul);
  }

  lemma {:induction false} PlacedAtBase(c: Config, cursor: nat, ts: seq<Tensor>, j: nat)
    requires c.granul >= 1 && j < |ts| && !IsWeight(ts[j])
    ensures Placements(c, cursor, ts)[j] == MemoryObject(0, ts[j].size, ts[j].size / c.granul)
    decreases |ts|
  {
    if j > 0 {
      PlacedAtBase(c, CursorAfter(cursor, ts[0]), ts[1..], j - 1);
    }
  }
}
