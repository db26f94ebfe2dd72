/** The latency of a matrix-vector product in a near-bank unit, against the pipeline it stands for
    (src/dram/nearbank/nearbank_pim.cpp). */
module NearbankPipeline {
  import opened Basics

  datatype Config = Config(numBanks: nat, rowbufferSize: real, bandwidth: real, peWidth: real, peCycle: real,
                           asymmetricQuant: bool, pimDequant: bool) {
    ghost predicate Valid() {
      numBanks >= 1 && rowbufferSize > 0.0 && bandwidth > 0.0 && peWidth > 0.0 && peCycle >= 0.0
    }
  }

  datatype GemvResult = GemvResult(latency: real, rowbufferTime: real, peComputeTime: real, baseGemvTime: real,
                                   reductionTime: real, totalBytes: real, bytesPerBank: real, reductionOps: real,
                                   numRowbufferFills: nat)

  /** The time to fill part of a row buffer, in nanoseconds. */
  function FillTime(c: Config, bytes: real): real
    requires c.Valid()
  {
    bytes / c.bandwidth * 1000000000.0
  }

  function PeTime(c: Config, bytes: real): real
    requires c.Valid()
  {
    bytes / c.peWidth * c.peCycle
  }

  /** Row buffer fills: rounded up, at least one. */
  function Fills(c: Config, bytes: real): nat
    requires c.Valid()
  {
    var n := -((-(bytes / c.rowbufferSize)).Floor);
    if n < 1 then 1 else n
  }

  /** The closed form: the first fill, then fills and computation overlap. */
  function Pipelined(c: Config, bytes: real, pe: real): real
    requires c.Valid()
  {
    if bytes <= c.rowbufferSize then MaxReal(FillTime(c, bytes), pe)
    else
      var fill := FillTime(c, c.rowbufferSize);
      fill + MaxReal((Fills(c, bytes) - 1) as real * fill, pe)
  }

  /** The latency of one bank, which moves the given bytes, with those of the reduction and the dequantisation
      if they are switched on. */
  function BankLatency(c: Config, bytes: real, reductionBytes: real, dequantBytes: real): GemvResult
    requires c.Valid()
  {
    var fills := Fills(c, bytes);
    var pe := PeTime(c, bytes);
    var base := Pipelined(c, bytes, pe);
    var reduction := if c.asymmetricQuant then PeTime(c, reductionBytes) else 0.0;
    var reduced := if c.asymmetricQuant then Pipelined(c, bytes, pe + reduction) else base;
    var dequant := if c.pimDequant then PeTime(c, dequantBytes) else 0.0;
    var latency := if c.pimDequant then Pipelined(c, bytes, pe + reduction + dequant) else reduced;
    GemvResult(latency, fills as real * FillTime(c, c.rowbufferSize), pe + dequant, base, reduction, 0.0, bytes, 0.0,
               fills)
  }

  /** Both operands are read and the result is written. */
  function TotalBytes(m: nat, k: nat, n: nat, elementSize: nat): nat {
    (m * k + k * n + m * n) * elementSize
  }

  /** The sums over the rows of both operands. */
  function ReductionOps(m: nat, k: nat, n: nat): nat {
    m * k + n * k
  }

  function PerBank(c: Config, amount: real): real
    requires c.Valid()
  {
    amount / c.numBanks as real
  }

  function BankBytes(c: Config, m: nat, k: nat, n: nat, elementSize: nat): real
    requires c.Valid()
  {
    PerBank(c, TotalBytes(m, k, n, elementSize) as real)
  }

  function ReductionBytes(c: Config, m: nat, k: nat, n: nat, elementSize: nat): real
    requires c.Valid()
  {
    PerBank(c, ReductionOps(m, k, n) as real) * elementSize as real
  }

  /** A multiplication and an addition for each element. */
  function DequantOps(c: Config, k: nat, n: nat): real
    requires c.Valid()
  {
    PerBank(c, (2 * (k * n)) as real)
  }

  /** The product of an m by k and a k by n matrix, spread evenly over the banks. */
  function ComputeGemvLatency(c: Config, m: nat, k: nat, n: nat, elementSize: nat): GemvResult
    requires c.Valid()
  {
    BankLatency(c, BankBytes(c, m, k, n, elementSize), ReductionBytes(c, m, k, n, elementSize), DequantOps(c, k, n))
    .(totalBytes := TotalBytes(m, k, n, elementSize) as real,
      reductionOps := if c.asymmetricQuant then ReductionOps(m, k, n) as real else 0.0)
  }

  // ---------------------------------------------------------- the pipeline

  /** The bytes in the i-th row buffer, counting from 1. */
  function Chunk(c: Config, bytes: real, i: nat): real {
    var left := bytes - (i as real - 1.0) * c.rowbufferSize;
    if left < c.rowbufferSize then left else c.rowbufferSize
  }

  /** The processing times of the row buffers. */
  function Work(c: Config, bytes: real): (w: seq<real>)
    requires c.Valid()
    ensures |w| == Fills(c, bytes)
  {
    seq(Fills(c, bytes), i requires 0 <= i < Fills(c, bytes) => PeTime(c, Chunk(c, bytes, i + 1)))
  }

  function Times(n: nat, x: real): real {
    if n == 0 then 0.0 else Times(n - 1, x) + x
  }

  /** When the last row buffer has been processed: it must be full, and the one before it done. */
  function Finished(fill: real, work: seq<real>): real {
    if work == [] then 0.0
    else MaxReal(Finished(fill, work[..|work| - 1]), Times(|work|, fill)) + work[|work| - 1]
  }

  // ------------------------------------------------------------- arithmetic

  lemma {:induction false} ScaleKeepsOrder(a: real, b: real, x: real)
    requires a <= b && x >= 0.0
    ensures a * x <= b * x
  {
    assert (b - a) * x >= 0.0;
  }

  lemma {:induction false} FillsBracket(c: Config, bytes: real)
    requires c.Valid() && bytes > c.rowbufferSize
    ensures var n := Fills(c, bytes);
      n >= 2 && (n as real - 1.0) * c.rowbufferSize < bytes <= n as real * c.rowbufferSize
  {
    var x := bytes / c.rowbufferSize;
    assert x * c.rowbufferSize == bytes;
    MoreThanOne(bytes, c.rowbufferSize);
    var n := Fills(c, bytes);
    assert n as real - 1.0 < x <= n as real;
    ScaleKeepsOrder(x, n as real, c.rowbufferSize);
    ScaleStrictly(n as real - 1.0, x, c.rowbufferSize);
  }

  lemma {:induction false} MoreThanOne(a: real, b: real)
    requires a > b > 0.0
    ensures a / b > 1.0
  {
    if a / b <= 1.0 {
      ScaleKeepsOrder(a / b, 1.0, b);
    }
  }

  lemma {:induction false} ScaleStrictly(a: real, b: real, x: real)
    requires a < b && x > 0.0
    ensures a * x < b * x
  {
    assert (b - a) * x > 0.0;
  }

  /** Processing time grows in proportion to the bytes. */
  lemma {:induction false} PeIsLinear(c: Config, a: real, b: real, k: real)
    requires c.Valid()
    ensures PeTime(c, a + b) == PeTime(c, a) + PeTime(c, b)
    ensures PeTime(c, k * a) == k * PeTime(c, a)
  {
    var r := c.peCycle / c.peWidth;
    Reorder(a, c.peWidth, c.peCycle, r);
    Reorder(b, c.peWidth, c.peCycle, r);
    Reorder(a + b, c.peWidth, c.peCycle, r);
    Reorder(k * a, c.peWidth, c.peCycle, r);
    assert (a + b) * r == a * r + b * r;
    assert (k * a) * r == k * (a * r);
  }

  lemma {:induction false} Reorder(x: real, w: real, t: real, r: real)
    requires w > 0.0 && r == t / w
    ensures x / w * t == x * r
  {
    var q := x / w;
    assert q * w == x && r * w == t;
    assert (q * w) * r == q * (r * w);
  }

  lemma {:induction false} PeIsMonotone(c: Config, a: real, b: real)
    requires c.Valid() && a <= b
    ensures PeTime(c, a) <= PeTime(c, b)
    ensures a >= 0.0 ==> PeTime(c, a) >= 0.0
  {
    PeIsLinear(c, a, b - a, 1.0);
    NotNegative(b - a, c.peWidth, c.peCycle);
    if a >= 0.0 {
      NotNegative(a, c.peWidth, c.peCycle);
    }
  }

  lemma {:induction false} NotNegative(x: real, w: real, t: real)
    requires x >= 0.0 && w > 0.0 && t >= 0.0
    ensures x / w * t >= 0.0
  {
    var q := x / w;
    assert q * w == x;
    if q < 0.0 {
      ScaleStrictly(q, 0.0, w);
    } else {
      ScaleKeepsOrder(0.0, q, t);
    }
  }

  // ------------------------------------------------------------ main results

  lemma {:induction false} TimesIsProduct(n: nat, x: real)
    ensures Times(n, x) == n as real * x
  {
    if n > 0 {
      TimesIsProduct(n - 1, x);
      assert (n - 1) as real * x == n as real * x - x;
    }
  }

  lemma {:induction false} TimesKeepsOrder(n: nat, x: real, y: real)
    requires x <= y
    ensures Times(n, x) <= Times(n, y)
  {
    if n > 0 {
      TimesKeepsOrder(n - 1, x, y);
    }
  }

  lemma {:induction false} TimesIsNotNegative(n: nat, x: real)
    requires x >= 0.0
    ensures Times(n, x) >= 0.0
  {
    if n > 0 {
      TimesIsNotNegative(n - 1, x);
    }
  }

  ghost predicate AllEqual(work: seq<real>, pe: real) {
    forall i | 0 <= i < |work| :: work[i] == pe
  }

  /** Full buffers: filling or processing dominates from the first to the last. */
  lemma {:induction false} FullBuffers(fill: real, pe: real, work: seq<real>)
    requires work != [] && fill >= 0.0 && pe >= 0.0 && AllEqual(work, pe)
    ensures Finished(fill, work) == MaxReal(fill + Times(|work|, pe), Times(|work|, fill) + pe)
  {
    var n := |work|;
    assert Times(1, fill) == Times(0, fill) + fill && Times(1, pe) == Times(0, pe) + pe;
    if n > 1 {
      FullBuffers(fill, pe, work[..n - 1]);
      if pe > fill {
        TimesKeepsOrder(n - 2, fill, pe);
      }
    }
  }

  /** The exact finish when all buffers but the last are full. */
  lemma {:induction false} FinishOfWork(fill: real, pe: real, work: seq<real>)
    requires |work| >= 2 && fill >= 0.0 && 0.0 <= work[|work| - 1] <= pe && AllEqual(work[..|work| - 1], pe)
    ensures Finished(fill, work) ==
      MaxReal(fill + (Times(|work| - 1, pe) + work[|work| - 1]), Times(|work|, fill) + work[|work| - 1])
  {
    var n := |work|;
    FullBuffers(fill, pe, work[..n - 1]);
    if pe > fill {
      TimesKeepsOrder(n - 2, fill, pe);
    }
  }

  /** What is left for the last buffer. */
  lemma {:induction false} LastChunk(c: Config, bytes: real)
    requires c.Valid() && bytes > c.rowbufferSize
    ensures var n, last := Fills(c, bytes), Chunk(c, bytes, Fills(c, bytes));
      n >= 2 && last == bytes - (n - 1) as real * c.rowbufferSize && 0.0 <= last <= c.rowbufferSize
  {
    var n := Fills(c, bytes);
    FillsBracket(c, bytes);
    assert (n - 1) as real == n as real - 1.0;
    assert n as real * c.rowbufferSize == (n as real - 1.0) * c.rowbufferSize + c.rowbufferSize;
  }

  lemma {:induction false} EarlierChunk(c: Config, bytes: real, i: nat)
    requires c.Valid() && bytes > c.rowbufferSize && 1 <= i < Fills(c, bytes)
    ensures Chunk(c, bytes, i) == c.rowbufferSize
  {
    var n := Fills(c, bytes);
    FillsBracket(c, bytes);
    ScaleKeepsOrder(i as real, n as real - 1.0, c.rowbufferSize);
    assert i as real * c.rowbufferSize < bytes;
    OneLess(i as real, c.rowbufferSize);
  }

  lemma {:induction false} OneLess(i: real, x: real)
    ensures (i - 1.0) * x == i * x - x
  {
  }

  /** The processing time of the parts adds up to that of the whole. */
  lemma {:induction false} WorkOfParts(c: Config, bytes: real)
    requires c.Valid() && bytes > c.rowbufferSize
    ensures var n, work, pe := Fills(c, bytes), Work(c, bytes), PeTime(c, c.rowbufferSize);
      && n >= 2 && AllEqual(work[..n - 1], pe) && 0.0 <= work[n - 1] <= pe
      && PeTime(c, bytes) == Times(n - 1, pe) + work[n - 1]
  {
    var n, last := Fills(c, bytes), Chunk(c, bytes, Fills(c, bytes));
    LastChunk(c, bytes);
    var head := Work(c, bytes)[..n - 1];
    forall i | 0 <= i < |head|
      ensures head[i] == PeTime(c, c.rowbufferSize)
    {
      EarlierChunk(c, bytes, i + 1);
    }
    PeIsMonotone(c, last, c.rowbufferSize);
    SumOfPe(c, bytes, n, last);
  }

  lemma {:induction false} SumOfPe(c: Config, bytes: real, n: nat, last: real)
    requires c.Valid() && n >= 1 && last == bytes - (n - 1) as real * c.rowbufferSize
    ensures PeTime(c, bytes) == Times(n - 1, PeTime(c, c.rowbufferSize)) + PeTime(c, last)
  {
    var full := (n - 1) as real * c.rowbufferSize;
    PeIsLinear(c, c.rowbufferSize, 0.0, (n - 1) as real);
    PeIsLinear(c, full, last, 1.0);
    assert full + last == bytes;
    TimesIsProduct(n - 1, PeTime(c, c.rowbufferSize));
  }

  /** The closed form in terms of the parts. */
  lemma {:induction false} PipelinedParts(c: Config, bytes: real, pe: real)
    requires c.Valid() && bytes > c.rowbufferSize
    ensures var fill := FillTime(c, c.rowbufferSize);
      fill >= 0.0 && Pipelined(c, bytes, pe) == fill + MaxReal(Times(Fills(c, bytes) - 1, fill), pe)
  {
    NotNegative(c.rowbufferSize, c.bandwidth, 1000000000.0);
    TimesIsProduct(Fills(c, bytes) - 1, FillTime(c, c.rowbufferSize));
  }

  /** With several row buffers the closed form is never above the exact pipeline, and below it by at most the
      processing of one row buffer. */
  lemma {:induction false} ClosedFormIsClose(c: Config, bytes: real)
    requires c.Valid() && bytes > c.rowbufferSize
    ensures var closed := Pipelined(c, bytes, PeTime(c, bytes));
      var exact := Finished(FillTime(c, c.rowbufferSize), Work(c, bytes));
      closed <= exact <= closed + PeTime(c, c.rowbufferSize)
  {
    WorkOfParts(c, bytes);
    PipelinedParts(c, bytes, PeTime(c, bytes));
    ClosedIsClose(FillTime(c, c.rowbufferSize), PeTime(c, c.rowbufferSize), Work(c, bytes));
  }

  lemma {:induction false} ClosedIsClose(fill: real, pe: real, work: seq<real>)
    requires |work| >= 2 && fill >= 0.0 && 0.0 <= work[|work| - 1] <= pe && AllEqual(work[..|work| - 1], pe)
    ensures var closed := fill + MaxReal(Times(|work| - 1, fill), Times(|work| - 1, pe) + work[|work| - 1]);
      closed <= Finished(fill, work) <= closed + pe
  {
    FinishOfWork(fill, pe, work);
  }

  /** With one row buffer the closed form is at most the exact time, which is at most twice the closed form. */
  lemma {:induction false} SingleBufferIsClose(c: Config, bytes: real)
    requires c.Valid() && 0.0 <= bytes <= c.rowbufferSize
    ensures var closed, exact := Pipelined(c, bytes, PeTime(c, bytes)), FillTime(c, bytes) + PeTime(c, bytes);
      closed <= exact <= 2.0 * closed
  {
    NotNegative(bytes, c.bandwidth, 1000000000.0);
    NotNegative(bytes, c.peWidth, c.peCycle);
  }

  lemma {:induction false} MoreWorkCostsAtMostItself(c: Config, bytes: real, pe: real, extra: real)
    requires c.Valid() && extra >= 0.0
    ensures Pipelined(c, bytes, pe) <= Pipelined(c, bytes, pe + extra) <= Pipelined(c, bytes, pe) + extra
  {
  }

  /** Turning on the reduction or the dequantisation raises the latency, by at most the processing time it adds. */
  lemma {:induction false} TogglesCostAtMostTheirWork(c: Config, bytes: real, reductionBytes: real, dequantBytes: real)
    requires c.Valid() && reductionBytes >= 0.0 && dequantBytes >= 0.0
    ensures var plain := BankLatency(c.(asymmetricQuant := false, pimDequant := false), bytes, reductionBytes,
                                     dequantBytes);
      var full := BankLatency(c, bytes, reductionBytes, dequantBytes);
      && plain.latency <= full.latency
      && full.latency <= plain.latency + full.reductionTime + (full.peComputeTime - plain.peComputeTime)
      && full.baseGemvTime == plain.latency
      && (full.reductionTime > 0.0 ==> c.asymmetricQuant) && (full.peComputeTime > plain.peComputeTime ==> c.pimDequant)
  {
    var off := c.(asymmetricQuant := false, pimDequant := false);
    var pe := PeTime(c, bytes);
    var reduction := if c.asymmetricQuant then PeTime(c, reductionBytes) else 0.0;
    var dequant := if c.pimDequant then PeTime(c, dequantBytes) else 0.0;
    PeIsMonotone(c, 0.0, reductionBytes);
    PeIsMonotone(c, 0.0, dequantBytes);
    SwitchesDoNotMatter(c, off, bytes, pe);
    MoreWorkCostsAtMostItself(c, bytes, pe, reduction);
    MoreWorkCostsAtMostItself(c, bytes, pe + reduction, dequant);
  }

  lemma {:induction false} SwitchesDoNotMatter(c: Config, d: Config, bytes: real, pe: real)
    requires c.Valid() && d == c.(asymmetricQuant := d.asymmetricQuant, pimDequant := d.pimDequant)
    ensures Pipelined(c, bytes, pe) == Pipelined(d, bytes, pe) && PeTime(c, bytes) == PeTime(d, bytes)
  {
  }

  // ------------------------------------------------------ the matrix product

  lemma {:induction false} ProductAmounts(c: Config, m: nat, k: nat, n: nat, elementSize: nat)
    requires c.Valid()
    ensures BankBytes(c, m, k, n, elementSize) >= 0.0
    ensures ReductionBytes(c, m, k, n, elementSize) >= 0.0 && DequantOps(c, k, n) >= 0.0
    ensures BankBytes(c, m, k, n, elementSize) * c.numBanks as real == TotalBytes(m, k, n, elementSize) as real
  {
    PerBankIsNotNegative(c, TotalBytes(m, k, n, elementSize) as real);
    PerBankIsNotNegative(c, ReductionOps(m, k, n) as real);
    PerBankIsNotNegative(c, (2 * (k * n)) as real);
    ScaleKeepsOrder(0.0, PerBank(c, ReductionOps(m, k, n) as real), elementSize as real);
  }

  lemma {:induction false} PerBankIsNotNegative(c: Config, amount: real)
    requires c.Valid() && amount >= 0.0
    ensures PerBank(c, amount) >= 0.0 && PerBank(c, amount) * c.numBanks as real == amount
  {
    NotNegative(amount, c.numBanks as real, 1.0);
  }

  /** When the pipeline is done with the given bytes, exactly: one row buffer after the other if there are several,
      and filling, then processing, if there is one. */
  function ExactTime(c: Config, bytes: real): real
    requires c.Valid()
  {
    if bytes > c.rowbufferSize then Finished(FillTime(c, c.rowbufferSize), Work(c, bytes))
    else FillTime(c, bytes) + PeTime(c, bytes)
  }

  /** Without reduction and dequantisation the latency of a product is never above the exact pipeline's. With several
      row buffers a bank it is below it by at most the processing of one; with one, by at most a factor of two. */
  lemma {:induction false} LatencyIsClose(c: Config, m: nat, k: nat, n: nat, elementSize: nat)
    requires c.Valid() && !c.asymmetricQuant && !c.pimDequant
    ensures var r := ComputeGemvLatency(c, m, k, n, elementSize);
      var exact := ExactTime(c, r.bytesPerBank);
      && r.bytesPerBank * c.numBanks as real == r.totalBytes
      && r.latency <= exact
      && exact <= if r.numRowbufferFills >= 2 then r.latency + PeTime(c, c.rowbufferSize) else 2.0 * r.latency
  {
    var bytes := BankBytes(c, m, k, n, elementSize);
    ProductAmounts(c, m, k, n, elementSize);
    if bytes > c.rowbufferSize {
      ClosedFormIsClose(c, bytes);
      FillsBracket(c, bytes);
    } else {
      SingleBufferIsClose(c, bytes);
      OneFill(c, bytes);
    }
  }

  lemma {:induction false} OneFill(c: Config, bytes: real)
    requires c.Valid() && 0.0 <= bytes <= c.rowbufferSize
    ensures Fills(c, bytes) == 1
  {
    var x := bytes / c.rowbufferSize;
    assert x * c.rowbufferSize == bytes;
    if x > 1.0 {
      ScaleStrictly(1.0, x, c.rowbufferSize);
    }
    NotNegative(bytes, c.rowbufferSize, 1.0);
  }

  /** Switching the reduction or the dequantisation on raises the latency of a product, by at most the processing
      time that is added; the base time stays the latency without both. */
  lemma {:induction false} SwitchesCostAtMostTheirWork(c: Config, m: nat, k: nat, n: nat, elementSize: nat)
    requires c.Valid()
    ensures var plain := ComputeGemvLatency(c.(asymmetricQuant := false, pimDequant := false), m, k, n, elementSize);
      var full := ComputeGemvLatency(c, m, k, n, elementSize);
      && plain.latency <= full.latency
      && full.latency <= plain.latency + full.reductionTime + (full.peComputeTime - plain.peComputeTime)
      && full.baseGemvTime == plain.latency
      && (full.reductionTime > 0.0 ==> c.asymmetricQuant)
      && (full.peComputeTime > plain.peComputeTime ==> c.pimDequant)
  {
    var off := c.(asymmetricQuant := false, pimDequant := false);
    var bytes := BankBytes(c, m, k, n, elementSize);
    ProductAmounts(c, m, k, n, elementSize);
    assert BankBytes(off, m, k, n, elementSize) == bytes;
    assert ReductionBytes(off, m, k, n, elementSize) == ReductionBytes(c, m, k, n, elementSize);
    assert DequantOps(off, k, n) == DequantOps(c, k, n);
    TogglesCostAtMostTheirWork(c, bytes, ReductionBytes(c, m, k, n, elementSize), DequantOps(c, k, n));
  }
}
