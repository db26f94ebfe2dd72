/** Ordered trees, and their storage as cells that refer to later cells. */
module Trees {

  datatype Tree<T> = Node(value: T, children: seq<Tree<T>>)

  /** One object of a linked tree: its value and the places of its children. */
  datatype Cell<T> = Cell(value: T, kids: seq<nat>)

  /** Children of the cells from lo to hi lie after their parents and before hi. */
  ghost predicate Confined<T>(cells: seq<Cell<T>>, lo: nat, hi: nat) {
    lo <= hi <= |cells| && forall i: nat, j | lo <= i < hi && 0 <= j < |cells[i].kids| :: i < cells[i].kids[j] < hi
  }

  ghost predicate Linked<T>(cells: seq<Cell<T>>) {
    Confined(cells, 0, |cells|)
  }

  /** The tree below cell i. */
  ghost function TreeAt<T>(cells: seq<Cell<T>>, i: nat): Tree<T>
    requires Linked(cells) && i < |cells|
    decreases |cells| - i, 1
  {
    Node(cells[i].value, ForestAt(cells, i, cells[i].kids))
  }

  /** The trees below the given cells, all of them after cell i. */
  ghost function ForestAt<T>(cells: seq<Cell<T>>, i: nat, ks: seq<nat>): (ts: seq<Tree<T>>)
    requires Linked(cells) && i < |cells| && forall j | 0 <= j < |ks| :: i < ks[j] < |cells|
    ensures |ts| == |ks|
    ensures forall j | 0 <= j < |ks| :: ts[j] == TreeAt(cells, ks[j])
    decreases |cells| - i, 0, |ks|
  {
    if ks == [] then [] else [TreeAt(cells, ks[0])] + ForestAt(cells, i, ks[1..])
  }

  /** A tree depends only on the cells it is confined to. */
  lemma {:induction false} TreeAtFrame<T>(a: seq<Cell<T>>, b: seq<Cell<T>>, lo: nat, hi: nat, i: nat)
    requires Linked(a) && Linked(b) && Confined(a, lo, hi) && lo <= i < hi <= |b|
    requires a[lo..hi] == b[lo..hi]
    ensures TreeAt(a, i) == TreeAt(b, i)
    decreases hi - i
  {
    assert forall j: nat | lo <= j < hi :: a[j] == a[lo..hi][j - lo] == b[j];
    var ks := a[i].kids;
    forall j | 0 <= j < |ks|
      ensures TreeAt(a, ks[j]) == TreeAt(b, ks[j])
    {
      TreeAtFrame(a, b, lo, hi, ks[j]);
    }
    assert ForestAt(a, i, ks) == ForestAt(b, i, ks);
  }

  lemma {:induction false} ForestAtFrame<T>(a: seq<Cell<T>>, b: seq<Cell<T>>, lo: nat, i: nat, ks: seq<nat>)
    requires Linked(a) && Linked(b) && Confined(a, lo, |a|) && |a| == |b| && i < lo
    requires a[lo..] == b[lo..]
    requires forall j | 0 <= j < |ks| :: lo <= ks[j] < |a|
    ensures ForestAt(a, i, ks) == ForestAt(b, i, ks)
  {
    forall j | 0 <= j < |ks|
      ensures TreeAt(a, ks[j]) == TreeAt(b, ks[j])
    {
      TreeAtFrame(a, b, lo, |a|, ks[j]);
    }
  }

  // -------------------------------------------------------------- printing

  /** A printed line: how far it is indented, and its text. */
  datatype Line = Line(depth: nat, text: string)

  /** The lines of a tree, parents before children, indented by level. */
  function PrintTree(t: Tree<string>, level: nat): (lines: seq<Line>)
    ensures lines != [] && lines[0] == Line(level, t.value)
    decreases t, 0
  {
    [Line(level, t.value)] + PrintForest(t.children, level + 1)
  }

  function PrintForest(ts: seq<Tree<string>>, level: nat): (lines: seq<Line>)
    ensures ts != [] ==> lines != [] && lines[0].depth == level
    decreases ts, 1
  {
    if ts == [] then [] else PrintTree(ts[0], level) + PrintForest(ts[1..], level)
  }

  /** Every later line is indented more than the first, and at most one step more than the line before it. */
  ghost predicate Nested(lines: seq<Line>) {
    lines != [] && forall i | 0 < i < |lines| :: lines[0].depth < lines[i].depth <= lines[i - 1].depth + 1
  }

  ghost predicate NestedForest(lines: seq<Line>, level: nat) {
    && (lines != [] ==> lines[0].depth == level)
    && forall i | 0 < i < |lines| :: level <= lines[i].depth <= lines[i - 1].depth + 1
  }

  lemma {:induction false} PrintTreeIsNested(t: Tree<string>, level: nat)
    ensures Nested(PrintTree(t, level))
    decreases t, 0
  {
    PrintForestIsNested(t.children, level + 1);
  }

  lemma {:induction false} PrintForestIsNested(ts: seq<Tree<string>>, level: nat)
    ensures NestedForest(PrintForest(ts, level), level)
    decreases ts, 1
  {
    if ts != [] {
      PrintTreeIsNested(ts[0], level);
      PrintForestIsNested(ts[1..], level);
    }
  }
}
