/** The result of a near-bank matrix product in the unit's own figures: what is moved, how long filling and processing
    take, and how the two overlap (src/dram/nearbank/nearbank_pim.cpp). */
module NearbankFigures {
  import opened Basics
  import opened NearbankPipeline

  lemma {:induction false} QuotientTimes(x: real, w: real, t: real)
    requires w > 0.0
    ensures x / w * t * w == x * t
  {
    var q := x / w;
    assert q * w == x;
    assert q * t * w == q * w * t;
  }

  /** The larger of two times. */
  ghost predicate IsLarger(t: real, a: real, b: real) {
    t >= a && t >= b && (t == a || t == b)
  }

  /** A bank with one row buffer to fill takes the longer of filling and processing. With several, all fills follow one
      another, and processing follows the first: it takes the longer of these. */
  ghost predicate Overlaps(several: bool, fills: nat, fill: real, pe: real, t: real) {
    if several then IsLarger(t, fills as real * fill, fill + pe) else IsLarger(t, fill, pe)
  }

  /** What is filled first: one row buffer, or all there is. */
  function FirstFill(c: Config, bytes: real): real {
    if bytes > c.rowbufferSize then c.rowbufferSize else bytes
  }

  lemma {:induction false} ClosedFormOverlaps(c: Config, bytes: real, pe: real)
    requires c.Valid()
    ensures Overlaps(bytes > c.rowbufferSize, Fills(c, bytes), FillTime(c, FirstFill(c, bytes)), pe,
                     Pipelined(c, bytes, pe))
  {
    if bytes > c.rowbufferSize {
      var fill := FillTime(c, c.rowbufferSize);
      FillsBracket(c, bytes);
      OneMore(Fills(c, bytes), fill);
    }
  }

  lemma {:induction false} OneMore(n: nat, x: real)
    requires n >= 1
    ensures n as real * x == x + (n - 1) as real * x
  {
    assert n as real == 1.0 + (n - 1) as real;
  }

  /** The least number of row buffers, at least one, that holds the bytes. */
  ghost predicate FewestFills(c: Config, bytes: real, fills: nat) {
    && fills >= 1 && bytes <= fills as real * c.rowbufferSize
    && (fills > 1 ==> (fills - 1) as real * c.rowbufferSize < bytes)
  }

  lemma {:induction false} FillsAreFewest(c: Config, bytes: real)
    requires c.Valid() && bytes >= 0.0
    ensures FewestFills(c, bytes, Fills(c, bytes))
  {
    if bytes > c.rowbufferSize {
      FillsBracket(c, bytes);
      assert (Fills(c, bytes) - 1) as real == Fills(c, bytes) as real - 1.0;
    } else {
      OneFill(c, bytes);
    }
  }

  /** Amounts and counts: both operands and the result are moved once, evenly over the banks. */
  lemma {:induction false} AmountsOfProduct(c: Config, m: nat, k: nat, n: nat, elementSize: nat)
    requires c.Valid()
    ensures var r := ComputeGemvLatency(c, m, k, n, elementSize);
      && r.totalBytes == ((m * k + k * n + m * n) * elementSize) as real
      && r.bytesPerBank * c.numBanks as real == r.totalBytes && r.bytesPerBank >= 0.0
      && FewestFills(c, r.bytesPerBank, r.numRowbufferFills)
      && r.reductionOps == if c.asymmetricQuant then (m * k + n * k) as real else 0.0
  {
    ProductAmounts(c, m, k, n, elementSize);
    FillsAreFewest(c, BankBytes(c, m, k, n, elementSize));
  }

  /** The time it takes to fill the given bytes at the bandwidth, in nanoseconds. */
  ghost predicate FillsIn(c: Config, time: real, bytes: real) {
    time * c.bandwidth == bytes * 1000000000.0
  }

  /** The time it takes to process the given bytes at the width of the unit, cycle by cycle. */
  ghost predicate ProcessesIn(c: Config, time: real, bytes: real) {
    time * c.peWidth == bytes * c.peCycle
  }

  lemma {:induction false} TimeOfFill(c: Config, bytes: real)
    requires c.Valid()
    ensures FillsIn(c, FillTime(c, bytes), bytes)
  {
    QuotientTimes(bytes, c.bandwidth, 1000000000.0);
  }

  lemma {:induction false} TimeOfWork(c: Config, on: bool, bytes: real)
    requires c.Valid()
    ensures ProcessesIn(c, if on then PeTime(c, bytes) else 0.0, if on then bytes else 0.0)
  {
    QuotientTimes(bytes, c.peWidth, c.peCycle);
  }

  /** The overlaps of a result: the base time is that of filling with processing the bytes, the latency that of filling
      with processing the extras too. */
  ghost predicate TimesOf(c: Config, r: GemvResult, fill: real, pe: real, reduction: real, dequant: real) {
    var several := r.bytesPerBank > c.rowbufferSize;
    && Overlaps(several, r.numRowbufferFills, fill, pe, r.baseGemvTime)
    && Overlaps(several, r.numRowbufferFills, fill, pe + reduction + dequant, r.latency)
    && r.reductionTime == reduction && r.peComputeTime == pe + dequant
  }

  lemma {:induction false} TimesOfBank(c: Config, bytes: real, reductionBytes: real, dequantBytes: real)
    requires c.Valid()
    ensures TimesOf(c, BankLatency(c, bytes, reductionBytes, dequantBytes), FillTime(c, FirstFill(c, bytes)),
                    PeTime(c, bytes), if c.asymmetricQuant then PeTime(c, reductionBytes) else 0.0,
                    if c.pimDequant then PeTime(c, dequantBytes) else 0.0)
  {
    var pe := PeTime(c, bytes);
    var reduction := if c.asymmetricQuant then PeTime(c, reductionBytes) else 0.0;
    var dequant := if c.pimDequant then PeTime(c, dequantBytes) else 0.0;
    ClosedFormOverlaps(c, bytes, pe);
    ClosedFormOverlaps(c, bytes, pe + reduction + dequant);
  }

  /** The bytes a bank sums up for the reduction. */
  lemma {:induction false} TimeOfReduction(c: Config, m: nat, k: nat, n: nat, elementSize: nat)
    requires c.Valid()
    ensures ProcessesIn(c, if c.asymmetricQuant then PeTime(c, ReductionBytes(c, m, k, n, elementSize)) else 0.0,
      if c.asymmetricQuant then PerBank(c, (m * k + n * k) as real) * elementSize as real else 0.0)
  {
    TimeOfWork(c, c.asymmetricQuant, PerBank(c, (m * k + n * k) as real) * elementSize as real);
  }

  /** How the times of a product come about. `fill` is the time to fill the first row buffer, `pe` the time to process
      the bank's bytes, `reduction` and `dequant` the times of the two extras: for a bank, the elements of both operands
      in bytes, and two operations for each element of the second one. */
  lemma {:induction false} TimesOfProduct(c: Config, m: nat, k: nat, n: nat, elementSize: nat)
    returns (fill: real, pe: real, reduction: real, dequant: real)
    requires c.Valid()
    ensures var r := ComputeGemvLatency(c, m, k, n, elementSize);
      && TimesOf(c, r, fill, pe, reduction, dequant)
      && FillsIn(c, fill, FirstFill(c, r.bytesPerBank)) && ProcessesIn(c, pe, r.bytesPerBank)
    ensures ProcessesIn(c, reduction,
      if c.asymmetricQuant then PerBank(c, (m * k + n * k) as real) * elementSize as real else 0.0)
    ensures ProcessesIn(c, dequant, if c.pimDequant then PerBank(c, (2 * (k * n)) as real) else 0.0)
  {
    var bytes, extra, ops := BankBytes(c, m, k, n, elementSize), ReductionBytes(c, m, k, n, elementSize),
      DequantOps(c, k, n);
    fill, pe := FillTime(c, FirstFill(c, bytes)), PeTime(c, bytes);
    reduction := if c.asymmetricQuant then PeTime(c, extra) else 0.0;
    dequant := if c.pimDequant then PeTime(c, ops) else 0.0;
    TimesOfBank(c, bytes, extra, ops);
    TimeOfFill(c, FirstFill(c, bytes));
    TimeOfWork(c, true, bytes);
    TimeOfReduction(c, m, k, n, elementSize);
    TimeOfWork(c, c.pimDequant, ops);
  }

  /** The time for all fills without overlap. */
  lemma {:induction false} RowbufferTime(c: Config, m: nat, k: nat, n: nat, elementSize: nat)
    requires c.Valid()
    ensures var r := ComputeGemvLatency(c, m, k, n, elementSize);
      r.rowbufferTime * c.bandwidth == r.numRowbufferFills as real * (c.rowbufferSize * 1000000000.0)
  {
    var r := ComputeGemvLatency(c, m, k, n, elementSize);
    TimeOfFill(c, c.rowbufferSize);
    var fill := FillTime(c, c.rowbufferSize);
    assert r.numRowbufferFills as real * fill * c.bandwidth == r.numRowbufferFills as real * (fill * c.bandwidth);
  }
}
