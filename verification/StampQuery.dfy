/** Searching a stamp tree by name (src/module/timeboard.cpp): the search returns exactly the topmost
    matching stamps, so a breakdown never counts energy twice. */
module StampQuery {
  import opened Basics
  import opened Trees
  import opened ModuleGraph
  import opened StampBoard

  /** Whether sub occurs in s. */
  predicate Contains(s: string, sub: string) {
    exists i | 0 <= i <= |s| - |sub| :: OccursAt(s, sub, i)
  }

  predicate OccursAt(s: string, sub: string, i: nat)
    requires i + |sub| <= |s|
  {
    s[i..i + |sub|] == sub
  }

  lemma {:induction false} ContainsIsSubstring(s: string, sub: string)
    ensures Contains(s, sub) <==> exists before: string, after: string :: s == before + sub + after
  {
    if i :| 0 <= i <= |s| - |sub| && OccursAt(s, sub, i) {
      assert s == s[..i] + sub + s[i + |sub|..];
    }
    if before: string, after: string :| s == before + sub + after {
      assert OccursAt(s, sub, |before|);
    }
  }

  type Path = seq<nat>

  function Subtree<T>(t: Tree<T>, path: Path): Option<Tree<T>>
    decreases |path|
  {
    if path == [] then Some(t)
    else if path[0] < |t.children| then Subtree(t.children[path[0]], path[1..])
    else None
  }

  function Prefixed(k: nat, ps: seq<Path>): (r: seq<Path>)
    ensures |r| == |ps| && forall i | 0 <= i < |ps| :: r[i] == [k] + ps[i]
  {
    seq(|ps|, i requires 0 <= i < |ps| => [k] + ps[i])
  }

  /** The search: a matching stamp hides everything below it. */
  function Find(t: Tree<Stamp>, sub: string): seq<Path>
    decreases t, 0
  {
    if Contains(t.value.name, sub) then [[]] else FindFrom(t.children, 0, sub)
  }

  /** The search in the trees from the k-th on. */
  function FindFrom(ts: seq<Tree<Stamp>>, k: nat, sub: string): seq<Path>
    requires k <= |ts|
    decreases ts, 1, |ts| - k
  {
    if k == |ts| then [] else Prefixed(k, Find(ts[k], sub)) + FindFrom(ts, k + 1, sub)
  }

  predicate Matches(t: Tree<Stamp>, sub: string, path: Path) {
    var s := Subtree(t, path);
    s.Some? && Contains(s.value.value.name, sub)
  }

  /** A matching stamp with no matching stamp above it. */
  ghost predicate Topmost(t: Tree<Stamp>, sub: string, path: Path) {
    Matches(t, sub, path) && forall n | 0 <= n < |path| :: !Matches(t, sub, path[..n])
  }

  lemma {:induction false} TopmostBelow(t: Tree<Stamp>, sub: string, path: Path)
    requires !Contains(t.value.name, sub)
    ensures Topmost(t, sub, path) <==>
      path != [] && path[0] < |t.children| && Topmost(t.children[path[0]], sub, path[1..])
  {
    if path != [] && path[0] < |t.children| {
      var child := t.children[path[0]];
      forall n | 0 <= n < |path| - 1
        ensures Matches(t, sub, path[..n + 1]) == Matches(child, sub, path[1..][..n])
      {
        assert path[..n + 1][1..] == path[1..][..n];
      }
      if Topmost(child, sub, path[1..]) {
        forall n | 0 <= n < |path|
          ensures !Matches(t, sub, path[..n])
        {
          if n > 0 {
            assert !Matches(child, sub, path[1..][..n - 1]);
          }
        }
      }
      if Topmost(t, sub, path) {
        forall n | 0 <= n < |path| - 1
          ensures !Matches(child, sub, path[1..][..n])
        {
          assert !Matches(t, sub, path[..n + 1]);
        }
      }
    }
  }

  /** The search finds a path exactly if it leads to a topmost match. */
  lemma {:induction false} FindsTopmost(t: Tree<Stamp>, sub: string, path: Path)
    ensures path in Find(t, sub) <==> Topmost(t, sub, path)
    decreases t, 0
  {
    if Contains(t.value.name, sub) {
      if path != [] {
        assert path[..0] == [] && Matches(t, sub, []);
      }
    } else {
      TopmostBelow(t, sub, path);
      FindsTopmostFrom(t.children, 0, sub, path);
    }
  }

  lemma {:induction false} FindsTopmostFrom(ts: seq<Tree<Stamp>>, k: nat, sub: string, path: Path)
    requires k <= |ts|
    ensures path in FindFrom(ts, k, sub) <==>
      path != [] && k <= path[0] < |ts| && Topmost(ts[path[0]], sub, path[1..])
    decreases ts, 1, |ts| - k
  {
    if k < |ts| {
      FindsTopmostFrom(ts, k + 1, sub, path);
      InPrefixed(k, Find(ts[k], sub), path);
      if path != [] {
        FindsTopmost(ts[k], sub, path[1..]);
      }
    }
  }

  lemma {:induction false} InPrefixed(k: nat, ps: seq<Path>, path: Path)
    ensures path in Prefixed(k, ps) <==> path != [] && path[0] == k && path[1..] in ps
  {
    if path != [] && path[0] == k && path[1..] in ps {
      var i :| 0 <= i < |ps| && ps[i] == path[1..];
      assert Prefixed(k, ps)[i] == path;
    }
    assert forall i | 0 <= i < |ps| :: Prefixed(k, ps)[i][1..] == ps[i];
  }

  ghost predicate Distinct(ps: seq<Path>) {
    forall i, j | 0 <= i < j < |ps| :: ps[i] != ps[j]
  }

  lemma {:induction false} FindsOnce(t: Tree<Stamp>, sub: string)
    ensures Distinct(Find(t, sub))
    decreases t, 0
  {
    if !Contains(t.value.name, sub) {
      FindsOnceFrom(t.children, 0, sub);
    }
  }

  lemma {:induction false} FindsOnceFrom(ts: seq<Tree<Stamp>>, k: nat, sub: string)
    requires k <= |ts|
    ensures Distinct(FindFrom(ts, k, sub))
    decreases ts, 1, |ts| - k
  {
    if k < |ts| {
      var here, later := Find(ts[k], sub), FindFrom(ts, k + 1, sub);
      FindsOnce(ts[k], sub);
      FindsOnceFrom(ts, k + 1, sub);
      forall i, j | 0 <= i < |here| && 0 <= j < |later|
        ensures Prefixed(k, here)[i] != later[j]
      {
        FindsTopmostFrom(ts, k + 1, sub, later[j]);
      }
      assert forall i | 0 <= i < |here| :: Prefixed(k, here)[i][1..] == here[i];
    }
  }

  /** The found stamps form an antichain that covers every match. */
  lemma {:induction false} FindIsAntichainCover(t: Tree<Stamp>, sub: string)
    ensures Distinct(Find(t, sub))
    ensures forall p, q | p in Find(t, sub) && q in Find(t, sub) && p <= q :: p == q
    ensures forall q | Matches(t, sub, q) :: exists p :: p in Find(t, sub) && p <= q
  {
    FindsOnce(t, sub);
    forall p, q | p in Find(t, sub) && q in Find(t, sub) && p <= q
      ensures p == q
    {
      FindsTopmost(t, sub, p);
      FindsTopmost(t, sub, q);
      assert q[..|p|] == p;
    }
    forall q | Matches(t, sub, q)
      ensures exists p :: p in Find(t, sub) && p <= q
    {
      var p := FirstMatch(t, sub, q, 0);
      FindsTopmost(t, sub, p);
    }
  }

  lemma {:induction false} FirstMatch(t: Tree<Stamp>, sub: string, q: Path, n: nat) returns (p: Path)
    requires n <= |q| && Matches(t, sub, q)
    requires forall m | 0 <= m < n :: !Matches(t, sub, q[..m])
    ensures p <= q && Topmost(t, sub, p)
    decreases |q| - n
  {
    assert q[..|q|] == q;
    if Matches(t, sub, q[..n]) {
      p := q[..n];
      assert forall m | 0 <= m < n :: p[..m] == q[..m];
    } else {
      p := FirstMatch(t, sub, q, n + 1);
    }
  }

  // ---------------------------------------------------------------- energy

  /** Every stamp holds at least the energy of the stamps below it, and none is negative. */
  ghost predicate Accounted(t: Tree<Stamp>) {
    && t.value.energy >= 0.0
    && t.value.energy >= AmountSum(t.children, Energy)
    && forall i | 0 <= i < |t.children| :: Accounted(t.children[i])
  }

  /** The energy a breakdown adds up. */
  function FoundEnergy(t: Tree<Stamp>, ps: seq<Path>): real {
    if ps == [] then 0.0
    else
      var s := Subtree(t, ps[0]);
      (if s.Some? then s.value.value.energy else 0.0) + FoundEnergy(t, ps[1..])
  }

  lemma {:induction false} FoundEnergyAppend(t: Tree<Stamp>, ps: seq<Path>, qs: seq<Path>)
    ensures FoundEnergy(t, ps + qs) == FoundEnergy(t, ps) + FoundEnergy(t, qs)
  {
    if ps == [] {
      assert ps + qs == qs;
    } else {
      assert (ps + qs)[1..] == ps[1..] + qs;
      FoundEnergyAppend(t, ps[1..], qs);
    }
  }

  lemma {:induction false} FoundEnergyPrefixed(t: Tree<Stamp>, k: nat, ps: seq<Path>)
    requires k < |t.children|
    ensures FoundEnergy(t, Prefixed(k, ps)) == FoundEnergy(t.children[k], ps)
  {
    if ps != [] {
      assert Prefixed(k, ps)[1..] == Prefixed(k, ps[1..]);
      assert ([k] + ps[0])[1..] == ps[0];
      FoundEnergyPrefixed(t, k, ps[1..]);
    }
  }

  /** A breakdown never adds up to more than the whole. */
  lemma {:induction false} FoundEnergyIsBounded(t: Tree<Stamp>, sub: string)
    requires Accounted(t)
    ensures 0.0 <= FoundEnergy(t, Find(t, sub)) <= t.value.energy
    decreases t, 0
  {
    if Contains(t.value.name, sub) {
      assert FoundEnergy(t, [[]]) == t.value.energy + FoundEnergy(t, []);
    } else {
      FoundEnergyFrom(t, 0, sub);
    }
  }

  lemma {:induction false} FoundEnergyFrom(t: Tree<Stamp>, k: nat, sub: string)
    requires k <= |t.children| && forall i | 0 <= i < |t.children| :: Accounted(t.children[i])
    ensures 0.0 <= FoundEnergy(t, FindFrom(t.children, k, sub)) <= AmountSum(t.children[k..], Energy)
    decreases t.children, 1, |t.children| - k
  {
    if k < |t.children| {
      var here := Find(t.children[k], sub);
      FoundEnergyAppend(t, Prefixed(k, here), FindFrom(t.children, k + 1, sub));
      FoundEnergyPrefixed(t, k, here);
      FoundEnergyIsBounded(t.children[k], sub);
      FoundEnergyFrom(t, k + 1, sub);
      assert t.children[k..][1..] == t.children[k + 1..];
    }
  }

  /** The energy of the stamps that match and have no matching stamp above them. */
  function TopmostEnergy(t: Tree<Stamp>, sub: string): real
    decreases t, 0
  {
    if Contains(t.value.name, sub) then t.value.energy else TopmostEnergyOf(t.children, sub)
  }

  function TopmostEnergyOf(ts: seq<Tree<Stamp>>, sub: string): real
    decreases ts, 1
  {
    if ts == [] then 0.0 else TopmostEnergy(ts[0], sub) + TopmostEnergyOf(ts[1..], sub)
  }

  /** A breakdown adds up the energy of the topmost matching stamps, each once. */
  lemma {:induction false} FoundEnergyIsTopmost(t: Tree<Stamp>, sub: string)
    ensures FoundEnergy(t, Find(t, sub)) == TopmostEnergy(t, sub)
    decreases t, 0
  {
    if Contains(t.value.name, sub) {
      assert FoundEnergy(t, [[]]) == t.value.energy + FoundEnergy(t, []);
    } else {
      FoundEnergyIsTopmostFrom(t, 0, sub);
      assert t.children[0..] == t.children;
    }
  }

  lemma {:induction false} FoundEnergyIsTopmostFrom(t: Tree<Stamp>, k: nat, sub: string)
    requires k <= |t.children|
    ensures FoundEnergy(t, FindFrom(t.children, k, sub)) == TopmostEnergyOf(t.children[k..], sub)
    decreases t.children, 1, |t.children| - k
  {
    if k < |t.children| {
      var here := Find(t.children[k], sub);
      FoundEnergyAppend(t, Prefixed(k, here), FindFrom(t.children, k + 1, sub));
      FoundEnergyPrefixed(t, k, here);
      FoundEnergyIsTopmost(t.children[k], sub);
      FoundEnergyIsTopmostFrom(t, k + 1, sub);
      assert t.children[k..][1..] == t.children[k + 1..];
    }
  }

  // ------------------------------------------------------- linked storage

  /** The search on linked stamps: the places of what it finds. */
  ghost function FindPlaces(cells: seq<Cell<Stamp>>, i: nat, sub: string): seq<nat>
    requires Linked(cells) && i < |cells|
    decreases |cells| - i, 1
  {
    if Contains(cells[i].value.name, sub) then [i] else FindAmong(cells, i, cells[i].kids, sub)
  }

  ghost function FindAmong(cells: seq<Cell<Stamp>>, i: nat, ks: seq<nat>, sub: string): seq<nat>
    requires Linked(cells) && i < |cells| && forall j | 0 <= j < |ks| :: i < ks[j] < |cells|
    decreases |cells| - i, 0, |ks|
  {
    if ks == [] then [] else FindPlaces(cells, ks[0], sub) + FindAmong(cells, i, ks[1..], sub)
  }

  lemma {:induction false} FindStep(cells: seq<Cell<Stamp>>, i: nat, ks: seq<nat>, sub: string, before: seq<nat>)
    requires Linked(cells) && i < |cells| && forall j | 0 <= j < |ks| :: i < ks[j] < |cells|
    requires ks != []
    ensures before + FindAmong(cells, i, ks, sub) ==
      (before + FindPlaces(cells, ks[0], sub)) + FindAmong(cells, i, ks[1..], sub)
  {
  }

  /** A place and a path lead to the same subtree. */
  ghost predicate SameTree(cells: seq<Cell<Stamp>>, t: Tree<Stamp>, place: nat, path: Path)
    requires Linked(cells)
  {
    place < |cells| && Subtree(t, path) == Some(TreeAt(cells, place))
  }

  /** The linked search finds the places of the topmost matching stamps, in order. */
  lemma {:induction false} FindPlacesIsFind(cells: seq<Cell<Stamp>>, i: nat, sub: string)
    requires Linked(cells) && i < |cells|
    ensures var t, ps := TreeAt(cells, i), FindPlaces(cells, i, sub);
      |ps| == |Find(t, sub)| && forall j | 0 <= j < |ps| :: SameTree(cells, t, ps[j], Find(t, sub)[j])
    decreases |cells| - i, 1
  {
    if !Contains(cells[i].value.name, sub) {
      FindAmongIsFind(cells, i, cells[i].kids, 0, sub);
    }
  }

  lemma {:induction false} FindAmongIsFind(cells: seq<Cell<Stamp>>, i: nat, ks: seq<nat>, k: nat, sub: string)
    requires Linked(cells) && i < |cells| && ks == cells[i].kids && k <= |ks|
    ensures var t, ps := TreeAt(cells, i), FindAmong(cells, i, ks[k..], sub);
      var qs := FindFrom(t.children, k, sub);
      |ps| == |qs| && forall j | 0 <= j < |ps| :: SameTree(cells, t, ps[j], qs[j])
    decreases |cells| - i, 0, |ks| - k
  {
    if k < |ks| {
      var t := TreeAt(cells, i);
      FindPlacesIsFind(cells, ks[k], sub);
      FindAmongIsFind(cells, i, ks, k + 1, sub);
      assert ks[k..][1..] == ks[k + 1..];
      var here := Find(t.children[k], sub);
      assert forall j | 0 <= j < |here| :: Prefixed(k, here)[j][1..] == here[j];
    }
  }

  // -------------------------------------------------------------- printing

  /** The printed lines of a stamp: the top stamp itself is not printed. */
  function PrintStamp(t: Tree<Stamp>): seq<Line>
    decreases t, 0
  {
    (if t.value.level == -1 then []
     else [Line(if t.value.level < 0 then 0 else t.value.level, t.value.name)]) + PrintStamps(t.children)
  }

  function PrintStamps(ts: seq<Tree<Stamp>>): seq<Line>
    decreases ts, 1
  {
    if ts == [] then [] else PrintStamp(ts[0]) + PrintStamps(ts[1..])
  }

  /** Printing on linked stamps. */
  ghost function PrintPlace(cells: seq<Cell<Stamp>>, i: nat): seq<Line>
    requires Linked(cells) && i < |cells|
    decreases |cells| - i, 1
  {
    var s := cells[i].value;
    (if s.level == -1 then [] else [Line(if s.level < 0 then 0 else s.level, s.name)])
    + PrintAmong(cells, i, cells[i].kids)
  }

  ghost function PrintAmong(cells: seq<Cell<Stamp>>, i: nat, ks: seq<nat>): seq<Line>
    requires Linked(cells) && i < |cells| && forall j | 0 <= j < |ks| :: i < ks[j] < |cells|
    decreases |cells| - i, 0, |ks|
  {
    if ks == [] then [] else PrintPlace(cells, ks[0]) + PrintAmong(cells, i, ks[1..])
  }

  lemma {:induction false} PrintStep(cells: seq<Cell<Stamp>>, i: nat, ks: seq<nat>, before: seq<Line>)
    requires Linked(cells) && i < |cells| && forall j | 0 <= j < |ks| :: i < ks[j] < |cells|
    requires ks != []
    ensures before + PrintAmong(cells, i, ks) ==
      (before + PrintPlace(cells, ks[0])) + PrintAmong(cells, i, ks[1..])
  {
  }

  lemma {:induction false} PrintPlaceIsPrint(cells: seq<Cell<Stamp>>, i: nat)
    requires Linked(cells) && i < |cells|
    ensures PrintPlace(cells, i) == PrintStamp(TreeAt(cells, i))
    decreases |cells| - i, 1
  {
    PrintAmongIsPrint(cells, i, cells[i].kids);
  }

  lemma {:induction false} PrintAmongIsPrint(cells: seq<Cell<Stamp>>, i: nat, ks: seq<nat>)
    requires Linked(cells) && i < |cells| && forall j | 0 <= j < |ks| :: i < ks[j] < |cells|
    ensures PrintAmong(cells, i, ks) == PrintStamps(ForestAt(cells, i, ks))
    decreases |cells| - i, 0, |ks|
  {
    if ks != [] {
      PrintPlaceIsPrint(cells, ks[0]);
      PrintAmongIsPrint(cells, i, ks[1..]);
    }
  }

  /** The names of a module call and of the calls inside it. */
  function NameTree(c: Call): Tree<string>
    decreases c, 0
  {
    Node(c.name, NameForest(c.calls))
  }

  function NameForest(cs: seq<Call>): seq<Tree<string>>
    decreases cs, 1
  {
    if cs == [] then [] else [NameTree(cs[0])] + NameForest(cs[1..])
  }

  /** Recorded stamps print as the calls they record, indented by nesting depth. */
  lemma {:induction false} PrintsCall(c: Call, level: nat)
    ensures PrintStamp(StampTree(c, level)) == PrintTree(NameTree(c), level)
    decreases c, 0
  {
    PrintsCalls(c.calls, level + 1);
  }

  lemma {:induction false} PrintsCalls(cs: seq<Call>, level: nat)
    ensures PrintStamps(StampForest(cs, level)) == PrintForest(NameForest(cs), level)
    decreases cs, 1
  {
    if cs != [] {
      PrintsCall(cs[0], level);
      PrintsCalls(cs[1..], level);
    }
  }
}
