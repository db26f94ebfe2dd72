/** The tokens that devices exchange for expert parallelism: every token is sent once by each of the devices
    that share it, and received once (src/module/communication.cpp). */
module MoEScatter {
  import opened Basics
  import opened Sums

  /** devices: all devices; perNode: devices of a node; sharing: devices that hold the same tokens;
      split: devices that share an expert. */
  datatype Config = Config(devices: nat, perNode: nat, sharing: nat, split: nat, experts: nat) {
    ghost predicate Valid() {
      perNode >= 1 && sharing >= 1 && split >= 1 && devices >= 1 && devices % sharing == 0
    }

    /** The first expert of a device, and how many it has. */
    function Offset(d: nat): nat
      requires devices >= 1 && split >= 1
    {
      experts / devices * (d / split) * split
    }

    function Experts(): nat
      requires devices >= 1
    {
      experts / devices * split
    }
  }

  /** One row of expert counts for each group of devices that share tokens. */
  ghost predicate Fits(c: Config, table: seq<seq<nat>>)
    requires c.Valid()
  {
    && |table| == c.devices / c.sharing
    && forall g, d: nat | 0 <= g < |table| && d < c.devices :: c.Offset(d) + c.Experts() <= |table[g]|
  }

  /** The tokens for n experts from a given one on. */
  function Range(row: seq<nat>, from: nat, n: nat): nat
    requires from + n <= |row|
  {
    if n == 0 then 0 else Range(row, from, n - 1) + row[from + n - 1]
  }

  /** The tokens of a group for the experts of a device; none outside the table. */
  ghost function Tokens(c: Config, table: seq<seq<nat>>, g: nat, d: nat): nat
    requires c.Valid()
  {
    if g < |table| && c.Offset(d) + c.Experts() <= |table[g]| then Range(table[g], c.Offset(d), c.Experts()) else 0
  }

  /** What a device sends: to every device outside its group. */
  ghost function Sent(c: Config, table: seq<seq<nat>>, src: nat): int
    requires c.Valid()
  {
    SumTo(c.devices, (d: nat) => Between(c, table, src / c.sharing, d))
  }

  /** What a device receives: from every other group. */
  ghost function Received(c: Config, table: seq<seq<nat>>, dst: nat): int
    requires c.Valid()
  {
    SumTo(c.devices / c.sharing, (g: nat) => Between(c, table, g, dst))
  }

  /** The part of it that stays in the node: nodes of targets are counted as having eight devices. */
  ghost function SentWithin(c: Config, table: seq<seq<nat>>, src: nat): int
    requires c.Valid()
  {
    SumTo(c.devices, (d: nat) => if d / 8 == src / c.perNode then Between(c, table, src / c.sharing, d) else 0)
  }

  /** The part of what it receives that comes from a group whose first device is in its node. */
  ghost function ReceivedWithin(c: Config, table: seq<seq<nat>>, dst: nat): int
    requires c.Valid()
  {
    SumTo(c.devices / c.sharing, (g: nat) => Nearby(c, table, g, dst))
  }

  /** The tokens of a group for a device in its node, as the receiver counts them. */
  ghost function Nearby(c: Config, table: seq<seq<nat>>, g: nat, d: nat): int
    requires c.Valid()
  {
    if d / c.perNode == g * c.sharing / c.perNode then Between(c, table, g, d) else 0
  }

  /** The tokens of a group for a device, unless the device belongs to the group. */
  ghost function Between(c: Config, table: seq<seq<nat>>, g: nat, d: nat): int
    requires c.Valid()
  {
    if d / c.sharing == g then 0 else Tokens(c, table, g, d)
  }

  // ------------------------------------------------------------------ loops

  /** The tokens for the experts of one device. */
  method CountRange(c: Config, row: seq<nat>, d: nat) returns (tokens: nat)
    requires c.Valid() && c.Offset(d) + c.Experts() <= |row|
    ensures tokens == Range(row, c.Offset(d), c.Experts())
  {
    tokens := 0;
    var offset, n := c.Offset(d), c.Experts();
    var e := offset;
    while e < offset + n
      invariant offset <= e <= offset + n
      invariant tokens == Range(row, offset, e - offset)
    {
      tokens := tokens + row[e];
      e := e + 1;
    }
  }

  /** The send loop of one device; the sum is taken apart by node, with eight devices to a node for the target. */
  method Send(c: Config, table: seq<seq<nat>>, src: nat) returns (intra: nat, inter: nat)
    requires c.Valid() && Fits(c, table) && src < c.devices
    ensures intra + inter == Sent(c, table, src) && intra == SentWithin(c, table, src)
  {
    intra, inter := 0, 0;
    var srcNode := src / c.perNode;
    var group := src / c.sharing;
    InGroup(c, src);
    var first := group * c.sharing;
    for dst := 0 to c.devices
      invariant intra + inter == SumTo(dst, (d: nat) => Between(c, table, group, d))
      invariant intra == SumTo(dst, (d: nat) => if d / 8 == srcNode then Between(c, table, group, d) else 0)
    {
      GroupMembers(c, group, dst);
      if !(first <= dst < first + c.sharing) {
        var tokens := CountRange(c, table[group], dst);
        if dst / 8 == srcNode {
          intra := intra + tokens;
        } else {
          inter := inter + tokens;
        }
      }
    }
  }

  /** The receive loop of one device; the sum is taken apart by node. */
  method Receive(c: Config, table: seq<seq<nat>>, dst: nat) returns (intra: nat, inter: nat)
    requires c.Valid() && Fits(c, table) && dst < c.devices
    ensures intra + inter == Received(c, table, dst) && intra == ReceivedWithin(c, table, dst)
  {
    intra, inter := 0, 0;
    var dstNode := dst / c.perNode;
    var group := dst / c.sharing;
    for g := 0 to c.devices / c.sharing
      invariant intra + inter == SumTo(g, (h: nat) => Between(c, table, h, dst))
      invariant intra == SumTo(g, (h: nat) => Nearby(c, table, h, dst))
    {
      if g != group {
        var srcNode := g * c.sharing / c.perNode;
        var tokens := CountRange(c, table[g], dst);
        if dstNode == srcNode {
          intra := intra + tokens;
        } else {
          inter := inter + tokens;
        }
      }
    }
  }

  /** The devices of a group are consecutive. */
  lemma {:induction false} GroupMembers(c: Config, group: nat, d: nat)
    requires c.sharing >= 1
    ensures group * c.sharing <= d < group * c.sharing + c.sharing <==> d / c.sharing == group
  {
    if group * c.sharing <= d < group * c.sharing + c.sharing {
      DivMod(group, c.sharing, d - group * c.sharing);
    }
    assert d / c.sharing * c.sharing + d % c.sharing == d;
  }

  lemma {:induction false} InGroup(c: Config, d: nat)
    requires c.Valid() && d < c.devices
    ensures d / c.sharing < c.devices / c.sharing
  {
    var q, n := d / c.sharing, c.devices / c.sharing;
    Whole(c);
    assert q * c.sharing + d % c.sharing == d;
    Smaller(q, n, c.sharing);
  }

  lemma {:induction false} Smaller(q: nat, n: nat, x: nat)
    requires q * x < n * x
    ensures q < n
  {
    if q >= n {
      Times(q, n, x);
    }
  }

  lemma {:induction false} Times(q: nat, n: nat, x: nat)
    requires q >= n
    ensures q * x >= n * x
  {
    assert q * x == n * x + (q - n) * x;
  }

  /** The devices fall into whole groups. */
  lemma {:induction false} Whole(c: Config)
    requires c.Valid()
    ensures c.devices / c.sharing * c.sharing == c.devices
  {
    assert c.devices == c.devices / c.sharing * c.sharing + c.devices % c.sharing;
  }

  // ---------------------------------------------------------- conservation

  /** If what a device sends depends on its group only, all devices together send what is received, as many times as
      devices share a group. */
  lemma {:induction false} GroupsBalance(devices: nat, sharing: nat, groups: nat, f: (nat, nat) -> int,
                                         sent: nat -> int, received: nat -> int)
    requires sharing >= 1 && devices == groups * sharing
    requires forall src: nat | src < devices :: sent(src) == SumTo(devices, (d: nat) => f(src / sharing, d))
    requires forall dst: nat | dst < devices :: received(dst) == SumTo(groups, (g: nat) => f(g, dst))
    ensures SumTo(devices, sent) == sharing * SumTo(devices, received)
  {
    var byGroup := (g: nat) => SumTo(devices, (d: nat) => f(g, d));
    SumGroups(devices, groups, sharing, byGroup, sent);
    SumSwap(groups, devices, f, byGroup, received);
  }

  /** Over all devices, what is sent is what is to be received as many times as devices share their tokens. */
  lemma {:induction false} SentIsReceivedManyTimes(c: Config, table: seq<seq<nat>>)
    requires c.Valid()
    ensures SumTo(c.devices, (src: nat) => Sent(c, table, src))
         == c.sharing * SumTo(c.devices, (dst: nat) => Received(c, table, dst))
  {
    var f := (g: nat, d: nat) => Between(c, table, g, d);
    var groups := c.devices / c.sharing;
    Whole(c);
    forall src: nat | src < c.devices
      ensures Sent(c, table, src) == SumTo(c.devices, (d: nat) => f(src / c.sharing, d))
    {
      SumSame(c.devices, (d: nat) => Between(c, table, src / c.sharing, d), (d: nat) => f(src / c.sharing, d));
    }
    forall dst: nat | dst < c.devices
      ensures Received(c, table, dst) == SumTo(groups, (g: nat) => f(g, dst))
    {
      SumSame(groups, (g: nat) => Between(c, table, g, dst), (g: nat) => f(g, dst));
    }
    GroupsBalance(c.devices, c.sharing, groups, f, (src: nat) => Sent(c, table, src),
                  (dst: nat) => Received(c, table, dst));
  }

  lemma {:induction false} SentNearby(c: Config, table: seq<seq<nat>>, src: nat, g: nat)
    requires c.Valid() && c.perNode == 8 && src / 8 == g * c.sharing / 8 && g == src / c.sharing
    ensures SentWithin(c, table, src) == SumTo(c.devices, (d: nat) => Nearby(c, table, g, d))
  {
    SumSame(c.devices, (d: nat) => if d / 8 == src / c.perNode then Between(c, table, g, d) else 0,
            (d: nat) => Nearby(c, table, g, d));
  }

  /** Where nodes have eight devices and no group spans two of them, the same holds within the nodes. */
  lemma {:induction false} WithinIsReceivedManyTimes(c: Config, table: seq<seq<nat>>)
    requires c.Valid() && c.perNode == 8 && 8 % c.sharing == 0
    ensures SumTo(c.devices, (src: nat) => SentWithin(c, table, src))
         == c.sharing * SumTo(c.devices, (dst: nat) => ReceivedWithin(c, table, dst))
  {
    var f: (nat, nat) -> int := (g: nat, d: nat) => Nearby(c, table, g, d);
    var sent, received := (src: nat) => SentWithin(c, table, src), (dst: nat) => ReceivedWithin(c, table, dst);
    Whole(c);
    forall src: nat | src < c.devices
      ensures sent(src) == SumTo(c.devices, (d: nat) => f(src / c.sharing, d))
    {
      EightInGroups(c.sharing, src);
      SentNearby(c, table, src, src / c.sharing);
      SumSame(c.devices, (d: nat) => Nearby(c, table, src / c.sharing, d), (d: nat) => f(src / c.sharing, d));
    }
    forall dst: nat | dst < c.devices
      ensures received(dst) == SumTo(c.devices / c.sharing, (g: nat) => f(g, dst))
    {
      SumSame(c.devices / c.sharing, (g: nat) => Nearby(c, table, g, dst), (g: nat) => f(g, dst));
    }
    GroupsBalance(c.devices, c.sharing, c.devices / c.sharing, f, sent, received);
  }

  lemma {:induction false} EightInGroups(size: nat, d: nat)
    requires size >= 1 && 8 % size == 0
    ensures d / 8 == d / size * size / 8
  {
    assert size * (8 / size) == 8;
    FirstOfGroup(d, size, 8 / size, 8, d / size);
  }

  lemma {:induction false} BelowProduct(j: nat, k: nat, r: nat, size: nat)
    requires j < k && r < size
    ensures j * size + r < size * k
  {
    Times(k, j + 1, size);
    Distribute(j, 1, size);
  }

  lemma {:induction false} Expand(n: nat, k: nat, j: nat, size: nat)
    ensures (n * k + j) * size == n * (size * k) + j * size
  {
    Distribute(n * k, j, size);
    assert n * k * size == n * (size * k);
  }

  lemma {:induction false} WithinBlock(size: nat, k: nat, n: nat, j: nat, r: nat, q: nat, d: nat, block: nat)
    requires j < k && r < size && block == size * k && q == n * k + j && d == q * size + r
    ensures block > 0 && d / block == n
  {
    BelowProduct(j, k, r, size);
    Expand(n, k, j, size);
    DivMod(n, block, j * size + r);
  }

  lemma {:induction false} Parts(x: nat, n: nat)
    requires n >= 1
    ensures x == x / n * n + x % n && x % n < n
  {
  }

  /** Where nodes hold whole groups, a device is in the node of its group's first device. */
  lemma {:induction false} FirstOfGroup(d: nat, size: nat, k: nat, node: nat, q: nat)
    requires size >= 1 && k >= 1 && node == size * k && q == d / size
    ensures node > 0 && d / node == q * size / node
  {
    Parts(d, size);
    Parts(q, k);
    WithinBlock(size, k, q / k, q % k, d % size, q, d, node);
    WithinBlock(size, k, q / k, q % k, 0, q, q * size, node);
  }

  // --------------------------------------------------------------- coverage

  lemma {:induction false} RangeSplits(row: seq<nat>, from: nat, k: nat, n: nat)
    requires from + k + n <= |row|
    ensures Range(row, from, k + n) == Range(row, from, k) + Range(row, from + k, n)
  {
    if n > 0 {
      RangeSplits(row, from, k, n - 1);
    }
  }

  /** Consecutive runs of the same width add up. */
  lemma {:induction false} RunsAddUp(row: seq<nat>, width: nat, runs: nat, f: nat -> int)
    requires runs * width <= |row|
    requires forall j: nat | j < runs :: j * width + width <= |row| && f(j) == Range(row, j * width, width)
    ensures SumTo(runs, f) == Range(row, 0, runs * width)
  {
    if runs > 0 {
      var before := (runs - 1) * width;
      assert runs * width == before + width;
      RunsAddUp(row, width, runs - 1, f);
      RangeSplits(row, 0, before, width);
    }
  }

  /** The first expert of the j-th set of devices that share experts. */
  lemma {:induction false} OffsetOfRun(c: Config, d: nat)
    requires c.Valid()
    ensures c.Offset(d) == d / c.split * c.Experts()
  {
    var x, y, z := c.experts / c.devices, d / c.split, c.split;
    assert x * y * z == y * (x * z);
  }

  /** The tokens of a row for the j-th of the runs of the given width that fit into it. */
  function RunOf(row: seq<nat>, width: nat, j: nat): nat {
    if j * width + width <= |row| then Range(row, j * width, width) else 0
  }

  lemma {:induction false} RunsFit(row: seq<nat>, width: nat, runs: nat)
    requires runs * width <= |row|
    ensures SumTo(runs, (j: nat) => RunOf(row, width, j)) == Range(row, 0, runs * width)
  {
    forall j: nat | j < runs
      ensures j * width + width <= |row|
    {
      Times(runs, j + 1, width);
      Distribute(j, 1, width);
    }
    RunsAddUp(row, width, runs, (j: nat) => RunOf(row, width, j));
  }

  lemma {:induction false} TokensOfRun(c: Config, table: seq<seq<nat>>, g: nat, d: nat)
    requires c.Valid() && g < |table|
    ensures Tokens(c, table, g, d) == RunOf(table[g], c.Experts(), d / c.split)
  {
    OffsetOfRun(c, d);
  }

  lemma {:induction false} CountedByRuns(c: Config, table: seq<seq<nat>>, g: nat, runs: nat)
    requires c.Valid() && c.devices == runs * c.split && g < |table|
    ensures SumTo(c.devices, (d: nat) => Tokens(c, table, g, d)) ==
      c.split * SumTo(runs, (j: nat) => RunOf(table[g], c.Experts(), j))
  {
    var byRun: nat -> int, byDevice: nat -> int :=
      (j: nat) => RunOf(table[g], c.Experts(), j), (d: nat) => Tokens(c, table, g, d);
    forall d: nat | d < c.devices
      ensures byDevice(d) == byRun(d / c.split)
    {
      TokensOfRun(c, table, g, d);
    }
    SumGroups(c.devices, runs, c.split, byRun, byDevice);
    SumSame(runs, byRun, (j: nat) => RunOf(table[g], c.Experts(), j));
    SumSame(c.devices, byDevice, (d: nat) => Tokens(c, table, g, d));
  }

  lemma {:induction false} RunsOfShare(c: Config)
    requires c.Valid() && c.devices % c.split == 0
    ensures c.devices == c.devices / c.split * c.split
    ensures c.devices / c.split * c.Experts() == c.experts / c.devices * c.devices <= c.experts
  {
    var share, runs := c.experts / c.devices, c.devices / c.split;
    assert runs * (share * c.split) == share * (runs * c.split);
  }

  /** Every expert is counted once for each device that shares it; those beyond a whole share for every device are not
      counted at all. */
  lemma {:induction false} EveryExpertIsCounted(c: Config, table: seq<seq<nat>>, g: nat)
    requires c.Valid() && c.devices % c.split == 0 && g < |table| && |table[g]| == c.experts
    ensures c.experts / c.devices * c.devices <= c.experts
    ensures SumTo(c.devices, (d: nat) => Tokens(c, table, g, d)) ==
      c.split * Range(table[g], 0, c.experts / c.devices * c.devices)
  {
    RunsOfShare(c);
    CountedByRuns(c, table, g, c.devices / c.split);
    RunsFit(table[g], c.Experts(), c.devices / c.split);
  }

  /** The tokens of a group for its own devices. */
  ghost function KeptBack(c: Config, table: seq<seq<nat>>, g: nat, d: nat): int
    requires c.Valid()
  {
    if d / c.sharing == g then Tokens(c, table, g, d) else 0
  }

  lemma {:induction false} PartsOfDevices(c: Config, table: seq<seq<nat>>, g: nat)
    requires c.Valid()
    ensures SumTo(c.devices, (d: nat) => Between(c, table, g, d))
          + SumTo(c.devices, (d: nat) => KeptBack(c, table, g, d))
         == SumTo(c.devices, (d: nat) => Tokens(c, table, g, d))
  {
    SumOfSums(c.devices, (d: nat) => Between(c, table, g, d), (d: nat) => KeptBack(c, table, g, d),
              (d: nat) => Tokens(c, table, g, d));
  }

  /** What a device sends and what its group has for its own devices are all tokens of the group, once for each device
      that shares an expert. */
  lemma {:induction false} SentAndKeptBack(c: Config, table: seq<seq<nat>>, src: nat, g: nat)
    requires c.Valid() && c.devices % c.split == 0 && c.experts % c.devices == 0
    requires g == src / c.sharing < |table| && |table[g]| == c.experts
    ensures Sent(c, table, src) + SumTo(c.devices, (d: nat) => KeptBack(c, table, g, d)) ==
      c.split * Range(table[g], 0, c.experts)
  {
    EveryExpertIsCounted(c, table, g);
    assert c.experts / c.devices * c.devices == c.experts;
    PartsOfDevices(c, table, g);
  }

  lemma {:induction false} PartsOfGroups(c: Config, table: seq<seq<nat>>, dst: nat, groups: nat, own: nat)
    requires c.Valid() && own == dst / c.sharing && own < groups
    ensures SumTo(groups, (g: nat) => Between(c, table, g, dst)) + KeptBack(c, table, own, dst) ==
      SumTo(groups, (g: nat) => Tokens(c, table, g, dst))
  {
    var kept: nat -> int := (g: nat) => KeptBack(c, table, g, dst);
    SumOfSums(groups, (g: nat) => Between(c, table, g, dst), kept, (g: nat) => Tokens(c, table, g, dst));
    OneTerm(groups, own, KeptBack(c, table, own, dst), kept);
  }

  /** What a device receives and what its own group has for it are the tokens of all groups for its experts. */
  lemma {:induction false} ReceivedAndKeptBack(c: Config, table: seq<seq<nat>>, dst: nat)
    requires c.Valid() && dst < c.devices
    ensures Received(c, table, dst) + KeptBack(c, table, dst / c.sharing, dst) ==
      SumTo(c.devices / c.sharing, (g: nat) => Tokens(c, table, g, dst))
  {
    InGroup(c, dst);
    PartsOfGroups(c, table, dst, c.devices / c.sharing, dst / c.sharing);
  }

  lemma {:induction false} OneTerm(n: nat, k: nat, x: int, f: nat -> int)
    requires forall i: nat | i < n :: f(i) == if i == k then x else 0
    ensures SumTo(n, f) == if k < n then x else 0
  {
    if n > 0 {
      OneTerm(n - 1, k, x, f);
    }
  }

  /** What a device is charged for: one that sends nothing returns before it counts what it receives. */
  ghost function Charged(c: Config, table: seq<seq<nat>>, d: nat): int
    requires c.Valid()
  {
    if Sent(c, table, d) == 0 then 0 else Received(c, table, d)
  }

  lemma {:induction false} ReceivedIsNotNegative(c: Config, table: seq<seq<nat>>, d: nat)
    requires c.Valid()
    ensures Received(c, table, d) >= 0
  {
    SumIsNotNegative(c.devices / c.sharing, (g: nat) => Between(c, table, g, d));
  }

  lemma {:induction false} SumIsNotNegative(n: nat, f: nat -> int)
    requires forall i: nat | i < n :: f(i) >= 0
    ensures SumTo(n, f) >= 0
  {
    if n > 0 {
      SumIsNotNegative(n - 1, f);
    }
  }

  lemma {:induction false} SumsOrdered(n: nat, f: nat -> int, g: nat -> int)
    requires forall i: nat | i < n :: f(i) <= g(i)
    ensures SumTo(n, f) <= SumTo(n, g)
    ensures SumTo(n, f) == SumTo(n, g) <==> forall i: nat | i < n :: f(i) == g(i)
  {
    if n > 0 {
      SumsOrdered(n - 1, f, g);
    }
  }

  /** The totals charged for balance exactly if no device receives without sending. */
  lemma {:induction false} ChargedBalances(c: Config, table: seq<seq<nat>>)
    requires c.Valid()
    ensures SumTo(c.devices, (src: nat) => Sent(c, table, src)) ==
            c.sharing * SumTo(c.devices, (d: nat) => Charged(c, table, d)) <==>
            forall d: nat | d < c.devices && Sent(c, table, d) == 0 :: Received(c, table, d) == 0
  {
    SentIsReceivedManyTimes(c, table);
    ChargedAtMostReceived(c, table);
    ScaledBalance(c.sharing, SumTo(c.devices, (src: nat) => Sent(c, table, src)),
                  SumTo(c.devices, (dst: nat) => Received(c, table, dst)),
                  SumTo(c.devices, (d: nat) => Charged(c, table, d)));
  }

  lemma {:induction false} ScaledBalance(n: nat, sent: int, received: int, charged: int)
    requires n >= 1 && sent == n * received
    ensures sent == n * charged <==> charged == received
  {
    SameMultiple(received, charged, n);
  }

  lemma {:induction false} ChargedAtMostReceived(c: Config, table: seq<seq<nat>>)
    requires c.Valid()
    ensures SumTo(c.devices, (d: nat) => Charged(c, table, d)) ==
            SumTo(c.devices, (dst: nat) => Received(c, table, dst)) <==>
            forall d: nat | d < c.devices && Sent(c, table, d) == 0 :: Received(c, table, d) == 0
  {
    var charged, received := (d: nat) => Charged(c, table, d), (dst: nat) => Received(c, table, dst);
    forall d: nat | d < c.devices
      ensures charged(d) <= received(d)
      ensures charged(d) == received(d) <==> (Sent(c, table, d) == 0 ==> Received(c, table, d) == 0)
    {
      ReceivedIsNotNegative(c, table, d);
    }
    SumsOrdered(c.devices, charged, received);
  }

  /** The totals can differ: of two groups of one device each, only the first has tokens, one for each device's
      expert. The second device sends nothing, so its one token is never counted as received. */
  lemma {:induction false} SilentDeviceIsNotCharged()
    ensures var c, table := Config(2, 8, 1, 1, 2), [[1, 1], [0, 0]];
      && c.Valid() && Fits(c, table)
      && SumTo(c.devices, (src: nat) => Sent(c, table, src)) !=
         c.sharing * SumTo(c.devices, (d: nat) => Charged(c, table, d))
  {
    var c, table := Config(2, 8, 1, 1, 2), [[1, 1], [0, 0]];
    assert c.Offset(0) == 0 && c.Offset(1) == 1 && c.Experts() == 1;
    assert Range(table[0], 1, 1) == Range(table[0], 1, 0) + 1 && Range(table[1], 0, 1) == Range(table[1], 0, 0) + 0;
    assert Between(c, table, 0, 1) == 1 && Between(c, table, 1, 0) == 0;
    SumOfTwo((d: nat) => Between(c, table, 1 / c.sharing, d));
    SumOfTwo((g: nat) => Between(c, table, g, 1));
    assert Sent(c, table, 1) == 0 && Received(c, table, 1) == 1;
    ChargedBalances(c, table);
  }

  /** With nodes of one device each, all other devices are far; but the sender counts the first eight as the first
      node's, so tokens sent within a node are never received within one. */
  lemma {:induction false} SmallNodesDisagree()
    ensures var c, table := Config(2, 1, 1, 1, 2), [[1, 1], [1, 1]];
      && c.Valid() && Fits(c, table)
      && SumTo(c.devices, (src: nat) => SentWithin(c, table, src)) == 1
      && SumTo(c.devices, (dst: nat) => ReceivedWithin(c, table, dst)) == 0
  {
    var c, table := Config(2, 1, 1, 1, 2), [[1, 1], [1, 1]];
    assert c.Offset(0) == 0 && c.Offset(1) == 1 && c.Experts() == 1;
    assert Range(table[0], 1, 1) == Range(table[0], 1, 0) + 1 && Range(table[1], 0, 1) == Range(table[1], 0, 0) + 1;
    assert Between(c, table, 0, 1) == 1 && Between(c, table, 1, 0) == 1;
    forall d: nat | d < 2
      ensures SentWithin(c, table, d) == (if d == 0 then 1 else 0) && ReceivedWithin(c, table, d) == 0
    {
      SumOfTwo((e: nat) => if e / 8 == d / c.perNode then Between(c, table, d / c.sharing, e) else 0);
      SumOfTwo((g: nat) => Nearby(c, table, g, d));
    }
    SumOfTwo((src: nat) => SentWithin(c, table, src));
    SumOfTwo((dst: nat) => ReceivedWithin(c, table, dst));
  }

  lemma {:induction false} SumOfTwo(f: nat -> int)
    ensures SumTo(2, f) == f(0) + f(1)
  {
    assert SumTo(1, f) == SumTo(0, f) + f(0);
  }

  /** The module on one device. */
  method Forward(c: Config, table: seq<seq<nat>>, d: nat) returns (sent: nat, received: nat)
    requires c.Valid() && Fits(c, table) && d < c.devices
    ensures sent == Sent(c, table, d) && received == Charged(c, table, d)
  {
    var intra, inter := Send(c, table, d);
    sent, received := intra + inter, 0;
    if intra == 0 && inter == 0 {
      return;
    }
    intra, inter := Receive(c, table, d);
    received := intra + inter;
  }

  /** The module on all devices. */
  method Scatter(c: Config, table: seq<seq<nat>>) returns (sent: nat, received: nat)
    requires c.Valid() && Fits(c, table)
    ensures sent == SumTo(c.devices, (src: nat) => Sent(c, table, src))
    ensures sent == c.sharing * received <==>
            forall d: nat | d < c.devices && Sent(c, table, d) == 0 :: Received(c, table, d) == 0
  {
    sent, received := 0, 0;
    for d := 0 to c.devices
      invariant sent == SumTo(d, (src: nat) => Sent(c, table, src))
      invariant received == SumTo(d, (dst: nat) => Charged(c, table, dst))
    {
      var s, r := Forward(c, table, d);
      sent, received := sent + s, received + r;
    }
    ChargedBalances(c, table);
  }
}
