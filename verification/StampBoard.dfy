/** The tree of time stamps a device records while it runs its module graph
    (src/module/timeboard.h, src/module/timeboard.cpp). */
module StampBoard {
  import opened ModuleGraph
  import opened Trees

  /** A stamp. Until it is closed, time, energy and flops are the readings at its opening; closing
      it sets start and end and replaces the counters by their differences. */
  datatype Stamp = Stamp(name: string, level: int, time: real, start: real, end: real, energy: real, flops: real) {
    function Amount(c: Counter): real {
      match c case Energy => energy case Flops => flops
    }
  }

  function Open(name: string, level: int, r: Reading): Stamp {
    Stamp(name, level, r.time, 0.0, 0.0, r.energy, r.flops)
  }

  function SetStatus(s: Stamp, r: Reading): Stamp {
    s.(start := s.time, end := r.time, energy := r.energy - s.energy, flops := r.flops - s.flops)
  }

  const TOP := Stamp("", -1, 0.0, 0.0, 0.0, 0.0, 0.0)

  /** The stamps of a board in order of creation, the top stamp first; every stamp's parent; and the
      stamp to which the next one is added. -1 is the missing parent of the top stamp. */
  datatype Board = Board(cells: seq<Cell<Stamp>>, parents: seq<int>, current: int) {
    ghost predicate Valid() {
      && Linked(cells) && |parents| == |cells| && -1 <= current < |cells|
      && forall i | 0 <= i < |cells| :: -1 <= parents[i] < i
    }
  }

  const FRESH := Board([Cell(TOP, [])], [-1], 0)

  function PushStamp(b: Board, name: string, r: Reading): Board
    requires 0 <= b.current < |b.cells|
  {
    var cell := b.cells[b.current];
    var grown := b.cells[b.current := cell.(kids := cell.kids + [|b.cells|])];
    Board(grown + [Cell(Open(name, cell.value.level + 1, r), [])], b.parents + [b.current], |b.cells|)
  }

  function PopStamp(b: Board, r: Reading): Board
    requires 0 <= b.current < |b.cells| && b.current < |b.parents|
  {
    var cell := b.cells[b.current];
    Board(b.cells[b.current := cell.(value := SetStatus(cell.value, r))], b.parents, b.parents[b.current])
  }

  // ---------------------------------------------------------------- replay

  /** One call of a module: the readings at its push and at its pop, and the calls in between. */
  datatype Call = Call(name: string, atPush: Reading, atPop: Reading, calls: seq<Call>)

  function OpenEvent(c: Call): Event {
    Opened(c.name, c.atPush.time, c.atPush.energy, c.atPush.flops)
  }

  function CloseEvent(c: Call): Event {
    Closed(c.atPop.time, c.atPop.energy, c.atPop.flops)
  }

  /** The timeboard calls a module call makes. */
  function Word(c: Call): seq<Event>
    decreases c, 0
  {
    [OpenEvent(c)] + Words(c.calls) + [CloseEvent(c)]
  }

  function Words(cs: seq<Call>): seq<Event>
    decreases cs, 1
  {
    if cs == [] then [] else Word(cs[0]) + Words(cs[1..])
  }

  /** The stamps a module call should leave. */
  function StampTree(c: Call, level: int): Tree<Stamp>
    decreases c, 0
  {
    Node(SetStatus(Open(c.name, level, c.atPush), c.atPop), StampForest(c.calls, level + 1))
  }

  function StampForest(cs: seq<Call>, level: int): seq<Tree<Stamp>>
    decreases cs, 1
  {
    if cs == [] then [] else [StampTree(cs[0], level)] + StampForest(cs[1..], level)
  }

  /** What neighbouring stamps hold of a counter. */
  function AmountSum(ts: seq<Tree<Stamp>>, c: Counter): real {
    if ts == [] then 0.0 else ts[0].value.Amount(c) + AmountSum(ts[1..], c)
  }

  /** One call of the timeboard. Closing the top stamp leaves no stamp, after which every call fails. */
  function Record(b: Board, e: Event): (b': Board)
    requires b.Valid()
    ensures b'.Valid()
  {
    if b.current < 0 then b
    else
      match e
      case Opened(name, time, energy, flops) => PushStamp(b, name, Reading(time, energy, flops))
      case Closed(time, energy, flops) => PopStamp(b, Reading(time, energy, flops))
  }

  function Replay(b: Board, log: seq<Event>): (b': Board)
    requires b.Valid()
    ensures b'.Valid()
    decreases |log|
  {
    if log == [] then b else Replay(Record(b, log[0]), log[1..])
  }

  lemma {:induction false} ReplayAppend(b: Board, x: seq<Event>, y: seq<Event>)
    requires b.Valid()
    ensures Replay(b, x + y) == Replay(Replay(b, x), y)
    decreases |x|
  {
    if x == [] {
      assert x + y == y;
    } else {
      assert (x + y)[1..] == x[1..] + y;
      ReplayAppend(Record(b, x[0]), x[1..], y);
    }
  }

  /** Board b' is b with complete subtrees at the given roots added below the current stamp. */
  ghost predicate Grew(b: Board, b': Board, roots: seq<nat>)
    requires b.Valid() && b.current >= 0
  {
    var n, cell := |b.cells|, b.cells[b.current];
    && b'.Valid() && n <= |b'.cells|
    && b'.current == b.current
    && b'.cells[..n] == b.cells[b.current := cell.(kids := cell.kids + roots)]
    && b'.parents[..n] == b.parents
    && Confined(b'.cells, n, |b'.cells|)
    && forall j | 0 <= j < |roots| :: n <= roots[j] < |b'.cells|
  }

  lemma {:induction false} ReplaySplits(b: Board, c: Call)
    requires b.Valid()
    ensures Replay(b, Word(c)) == Record(Replay(Record(b, OpenEvent(c)), Words(c.calls)), CloseEvent(c))
  {
    var b1 := Record(b, OpenEvent(c));
    ReplayAppend(b1, Words(c.calls), [CloseEvent(c)]);
    assert Word(c)[1..] == Words(c.calls) + [CloseEvent(c)];
  }

  /** Replaying the push/pop list of a call adds exactly its stamps, and returns to the stamp it started from. */
  lemma {:induction false} ReplayCall(b: Board, c: Call)
    requires b.Valid() && b.current >= 0
    ensures var b' := Replay(b, Word(c));
      && |b.cells| < |b'.cells| && Grew(b, b', [|b.cells|])
      && TreeAt(b'.cells, |b.cells|) == StampTree(c, b.cells[b.current].value.level + 1)
    decreases c, 0
  {
    var n := |b.cells|;
    var b1 := Record(b, OpenEvent(c));
    var b2, roots := ReplayCalls(b1, c.calls);
    var b3 := Record(b2, CloseEvent(c));
    ReplaySplits(b, c);
    CloseGrows(b, b1, b2, b3, c, roots);
    ForestAtFrame(b2.cells, b3.cells, n + 1, n, roots);
    assert b3.cells[n].kids == roots;
  }

  lemma {:induction false} CloseGrows(b: Board, b1: Board, b2: Board, b3: Board, c: Call, roots: seq<nat>)
    requires b.Valid() && b.current >= 0
    requires b1 == Record(b, OpenEvent(c)) && Grew(b1, b2, roots) && b3 == Record(b2, CloseEvent(c))
    ensures Grew(b, b3, [|b.cells|])
    ensures b3.cells[|b.cells|] ==
      Cell(SetStatus(Open(c.name, b.cells[b.current].value.level + 1, c.atPush), c.atPop), roots)
    ensures |b2.cells| == |b3.cells| && b2.cells[|b.cells| + 1..] == b3.cells[|b.cells| + 1..]
    ensures Confined(b2.cells, |b.cells| + 1, |b2.cells|)
  {
    var n := |b.cells|;
    assert b2.cells[n] == b2.cells[..n + 1][n] && b2.parents[n] == b2.parents[..n + 1][n];
    assert b2.cells[..n] == b2.cells[..n + 1][..n] == b1.cells[..n];
    assert b2.parents[..n] == b2.parents[..n + 1][..n];
  }

  lemma {:induction false} ReplayCalls(b: Board, cs: seq<Call>) returns (b': Board, roots: seq<nat>)
    requires b.Valid() && b.current >= 0
    ensures b' == Replay(b, Words(cs)) && Grew(b, b', roots)
    ensures ForestAt(b'.cells, b.current, roots) == StampForest(cs, b.cells[b.current].value.level + 1)
    decreases cs, 1
  {
    if cs == [] {
      b', roots := b, [];
      assert b.cells[b.current].kids + [] == b.cells[b.current].kids;
    } else {
      var n, level := |b.cells|, b.cells[b.current].value.level + 1;
      ReplayCall(b, cs[0]);
      var b1 := Replay(b, Word(cs[0]));
      assert b1.cells[b.current] == b1.cells[..n][b.current];
      var rest;
      b', rest := ReplayCalls(b1, cs[1..]);
      roots := [n] + rest;
      ReplaySplitsAll(b, cs);
      GrewTwice(b, b1, b', [n], rest);
      OlderRootStays(b, b1, b', n, rest);
      HeadOfForest(b'.cells, b.current, n, rest, cs, level);
    }
  }

  lemma {:induction false} ReplaySplitsAll(b: Board, cs: seq<Call>)
    requires b.Valid() && cs != []
    ensures Replay(b, Words(cs)) == Replay(Replay(b, Word(cs[0])), Words(cs[1..]))
  {
    ReplayAppend(b, Word(cs[0]), Words(cs[1..]));
  }

  lemma {:induction false} HeadOfForest(cells: seq<Cell<Stamp>>, i: nat, n: nat, rest: seq<nat>, cs: seq<Call>,
                                        level: int)
    requires Linked(cells) && i < |cells| && i < n < |cells| && forall j | 0 <= j < |rest| :: i < rest[j] < |cells|
    requires cs != [] && TreeAt(cells, n) == StampTree(cs[0], level)
    requires ForestAt(cells, i, rest) == StampForest(cs[1..], level)
    ensures ForestAt(cells, i, [n] + rest) == StampForest(cs, level)
  {
    assert ([n] + rest)[1..] == rest;
  }

  lemma {:induction false} OlderRootStays(b: Board, b1: Board, b2: Board, n: nat, rest: seq<nat>)
    requires b.Valid() && b.current >= 0 && n == |b.cells| < |b1.cells|
    requires Grew(b, b1, [n]) && Grew(b1, b2, rest)
    ensures n < |b2.cells| && TreeAt(b1.cells, n) == TreeAt(b2.cells, n)
  {
    GrewTwice(b, b1, b2, [n], rest);
    TreeAtFrame(b1.cells, b2.cells, n, |b1.cells|, n);
  }

  lemma {:induction false} GrewTwice(b: Board, b1: Board, b2: Board, r1: seq<nat>, r2: seq<nat>)
    requires b.Valid() && b.current >= 0 && Grew(b, b1, r1) && Grew(b1, b2, r2)
    ensures Grew(b, b2, r1 + r2)
    ensures b2.cells[|b.cells|..|b1.cells|] == b1.cells[|b.cells|..|b1.cells|]
  {
    var n, m := |b.cells|, |b1.cells|;
    var kids := b.cells[b.current].kids;
    assert (kids + r1) + r2 == kids + (r1 + r2);
    assert b2.cells[..n] == b2.cells[..m][..n];
    assert b2.cells[n..m] == b2.cells[..m][n..];
    assert b2.parents[..n] == b2.parents[..m][..n];
    assert b1.cells[b.current] == b1.cells[..n][b.current];
    assert forall i: nat | n <= i < m :: b2.cells[i] == b2.cells[..m][i] == b1.cells[i];
  }

  /** Replayed on a fresh board, the list of any calls leaves the cursor at the top stamp, with the calls' stamps
      below. */
  lemma {:induction false} ReplayFresh(cs: seq<Call>)
    ensures var b := Replay(FRESH, Words(cs));
      b.current == 0 && b.cells != [] && TreeAt(b.cells, 0) == Node(TOP, StampForest(cs, 0))
  {
    var b, roots := ReplayCalls(FRESH, cs);
    assert b.cells[..1] == [Cell(TOP, roots)] by {
      assert [] + roots == roots;
    }
    assert b.cells[0] == b.cells[..1][0];
  }
}
