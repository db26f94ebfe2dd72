/** Rebuilding a stamp tree from its printed lines (tools/view_result.py, tools/parse_layer.py). */
module TreeParser {
  import opened Basics
  import opened Trees

  // ------------------------------------------------------ parents of lines

  /** The last line at or before k that is indented less than line j; -1 if there is none. */
  function ParentFrom(lines: seq<Line>, j: nat, k: int): (p: int)
    requires j < |lines| && -1 <= k < j
    ensures -1 <= p <= k
    ensures p >= 0 ==> lines[p].depth < lines[j].depth
  {
    if k < 0 then -1 else if lines[k].depth < lines[j].depth then k else ParentFrom(lines, j, k - 1)
  }

  function Parent(lines: seq<Line>, j: nat): (p: int)
    requires j < |lines|
    ensures -1 <= p < j
  {
    ParentFrom(lines, j, j - 1)
  }

  /** Every line between a line and its parent is indented at least as much as the line. */
  lemma {:induction false} ParentIsNearest(lines: seq<Line>, j: nat, k: int, i: nat)
    requires i <= k < j < |lines| && ParentFrom(lines, j, k) < i
    ensures lines[i].depth >= lines[j].depth
  {
    if i < k {
      ParentIsNearest(lines, j, k - 1, i);
    }
  }

  /** The first n lines whose parent is line i. */
  function ChildrenUpTo(lines: seq<Line>, i: nat, n: nat): (ks: seq<nat>)
    requires n <= |lines|
  {
    if n == 0 then []
    else ChildrenUpTo(lines, i, n - 1) + if Parent(lines, n - 1) == i then [n - 1] else []
  }

  lemma {:induction false} ChildrenAreLater(lines: seq<Line>, i: nat, n: nat)
    requires n <= |lines|
    ensures forall k | k in ChildrenUpTo(lines, i, n) :: i < k < n
  {
    if n > 0 {
      ChildrenAreLater(lines, i, n - 1);
    }
  }

  /** Line j preceded by its ancestors: the parser's stack once it has read line j. */
  function Ancestry(lines: seq<Line>, j: int): (ks: seq<nat>)
    requires -1 <= j < |lines|
    ensures j >= 0 ==> ks != [] && ks[|ks| - 1] == j
    ensures j < 0 ==> ks == []
    decreases j + 1
  {
    if j < 0 then [] else Ancestry(lines, Parent(lines, j)) + [j]
  }

  lemma {:induction false} ParentSkips(lines: seq<Line>, j: nat, k: int, k': int)
    requires j < |lines| && -1 <= k' <= k < j
    requires forall i | k' < i <= k :: lines[i].depth >= lines[j].depth
    ensures ParentFrom(lines, j, k) == ParentFrom(lines, j, k')
    decreases k - k'
  {
    if k' < k {
      ParentSkips(lines, j, k - 1, k');
    }
  }

  function Cells(lines: seq<Line>): (cells: seq<Cell<string>>)
    ensures |cells| == |lines|
    ensures forall i: nat | i < |lines| :: cells[i] == Cell(lines[i].text, ChildrenUpTo(lines, i, |lines|))
  {
    seq(|lines|, i requires 0 <= i < |lines| => Cell(lines[i].text, ChildrenUpTo(lines, i, |lines|)))
  }

  lemma {:induction false} CellsAreLinked(lines: seq<Line>)
    ensures Linked(Cells(lines))
  {
    var cells := Cells(lines);
    forall i: nat, j | i < |cells| && 0 <= j < |cells[i].kids|
      ensures i < cells[i].kids[j] < |cells|
    {
      ChildrenAreLater(lines, i, |lines|);
      assert cells[i].kids[j] in ChildrenUpTo(lines, i, |lines|);
    }
  }

  /** The tree of the first line: every line hangs below the nearest earlier line indented less. */
  ghost function Built(lines: seq<Line>): Tree<string>
    requires lines != []
  {
    CellsAreLinked(lines);
    TreeAt(Cells(lines), 0)
  }

  // -------------------------------------------------------- print and parse

  /** The given lines stand at position i, and the next line, if any, is indented no more than level. */
  ghost predicate StandAt(lines: seq<Line>, i: nat, xs: seq<Line>, level: nat) {
    && i + |xs| <= |lines|
    && (forall j: nat | i <= j < i + |xs| :: lines[j] == xs[j - i])
    && (i + |xs| < |lines| ==> lines[i + |xs|].depth <= level)
  }

  lemma {:induction false} StandApart(lines: seq<Line>, i: nat, xs: seq<Line>, ys: seq<Line>, level: nat)
    requires StandAt(lines, i, xs + ys, level) && (ys != [] ==> ys[0].depth <= level)
    ensures StandAt(lines, i, xs, level) && StandAt(lines, i + |xs|, ys, level)
  {
    assert forall j: nat | i <= j < i + |xs| :: lines[j] == (xs + ys)[j - i];
    assert forall j: nat | i + |xs| <= j < i + |xs| + |ys| :: lines[j] == (xs + ys)[j - i];
    assert ys != [] ==> lines[i + |xs|] == (xs + ys)[|xs|];
  }

  lemma {:induction false} StandSplit(lines: seq<Line>, c: nat, ts: seq<Tree<string>>, level: nat)
    requires ts != [] && StandAt(lines, c, PrintForest(ts, level), level)
    ensures StandAt(lines, c, PrintTree(ts[0], level), level)
    ensures StandAt(lines, c + |PrintTree(ts[0], level)|, PrintForest(ts[1..], level), level)
    ensures |PrintForest(ts, level)| == |PrintTree(ts[0], level)| + |PrintForest(ts[1..], level)|
  {
    StandApart(lines, c, PrintTree(ts[0], level), PrintForest(ts[1..], level), level);
  }

  /** Where the trees of a printed forest start. */
  function Starts(ts: seq<Tree<string>>, level: nat, i: nat): (ks: seq<nat>)
    ensures |ks| == |ts|
  {
    if ts == [] then [] else [i] + Starts(ts[1..], level, i + |PrintTree(ts[0], level)|)
  }

  lemma {:induction false} StartsInside(ts: seq<Tree<string>>, level: nat, i: nat)
    ensures forall j | 0 <= j < |ts| :: i <= Starts(ts, level, i)[j] < i + |PrintForest(ts, level)|
  {
    if ts != [] {
      StartsInside(ts[1..], level, i + |PrintTree(ts[0], level)|);
    }
  }

  /** Below a printed line, the next printed forest one level deeper consists of its children. */
  lemma {:induction false} StartsAreChildren(lines: seq<Line>, i: nat, c: nat, ts: seq<Tree<string>>, level: nat,
                                             n: nat)
    requires i < c && StandAt(lines, c, PrintForest(ts, level), level) && lines[i].depth < level
    requires forall j | i < j < c :: lines[j].depth >= level
    requires n == c + |PrintForest(ts, level)|
    ensures ChildrenUpTo(lines, i, n) == ChildrenUpTo(lines, i, c) + Starts(ts, level, c)
    decreases |ts|
  {
    StartsJoin(ChildrenUpTo(lines, i, c), ts, level, c);
    if ts != [] {
      FirstChildPrinted(lines, i, c, ts, level);
      StartsAreChildren(lines, i, c + |PrintTree(ts[0], level)|, ts[1..], level, n);
    }
  }

  lemma {:induction false} FirstChildPrinted(lines: seq<Line>, i: nat, c: nat, ts: seq<Tree<string>>, level: nat)
    requires ts != []
    requires i < c && StandAt(lines, c, PrintForest(ts, level), level) && lines[i].depth < level
    requires forall j | i < j < c :: lines[j].depth >= level
    ensures var next := c + |PrintTree(ts[0], level)|;
      && StandAt(lines, next, PrintForest(ts[1..], level), level)
      && c + |PrintForest(ts, level)| == next + |PrintForest(ts[1..], level)|
      && ChildrenUpTo(lines, i, next) == ChildrenUpTo(lines, i, c) + [c]
      && forall j | i < j < next :: lines[j].depth >= level
  {
    StandSplit(lines, c, ts, level);
    PrintTreeIsNested(ts[0], level);
    FirstChild(lines, i, c, PrintTree(ts[0], level), level);
  }

  lemma {:induction false} StartsJoin(before: seq<nat>, ts: seq<Tree<string>>, level: nat, c: nat)
    ensures before + Starts(ts, level, c) ==
      if ts == [] then before else (before + [c]) + Starts(ts[1..], level, c + |PrintTree(ts[0], level)|)
  {
  }

  /** The first line of a printed tree is a child of line i, the others are not. */
  lemma {:induction false} FirstChild(lines: seq<Line>, i: nat, c: nat, head: seq<Line>, level: nat)
    requires i < c && StandAt(lines, c, head, level) && Nested(head) && head[0].depth == level
    requires lines[i].depth < level && forall j | i < j < c :: lines[j].depth >= level
    ensures ChildrenUpTo(lines, i, c + |head|) == ChildrenUpTo(lines, i, c) + [c]
    ensures forall j | i < j < c + |head| :: lines[j].depth >= level
  {
    assert lines[c] == head[0];
    ParentSkips(lines, c, c - 1, i);
    assert forall j: nat | c < j < c + |head| :: lines[j] == head[j - c];
    NestedIsBelow(head);
    NoChildrenInside(lines, i, c, c + |head|);
  }

  lemma {:induction false} NestedIsBelow(head: seq<Line>)
    requires Nested(head)
    ensures forall j | 0 < j < |head| :: head[j].depth > head[0].depth
  {
  }

  /** Lines below a later, deeper line are not children of line i. */
  lemma {:induction false} NoChildrenInside(lines: seq<Line>, i: nat, c: nat, n: nat)
    requires i < c < n <= |lines|
    requires forall j | c < j < n :: lines[j].depth > lines[c].depth
    ensures ChildrenUpTo(lines, i, n) == ChildrenUpTo(lines, i, c + 1)
    decreases n
  {
    if c + 1 < n {
      NoChildrenInside(lines, i, c, n - 1);
      if Parent(lines, n - 1) < c {
        ParentIsNearest(lines, n - 1, n - 2, c);
      }
    }
  }

  /** Nothing after a line indented no more than line i is a child of line i. */
  lemma {:induction false} NoChildrenAfter(lines: seq<Line>, i: nat, c: nat, n: nat)
    requires i < c <= n <= |lines|
    requires c < n ==> lines[c].depth <= lines[i].depth
    ensures ChildrenUpTo(lines, i, n) == ChildrenUpTo(lines, i, c)
    decreases n
  {
    if c < n {
      NoChildrenAfter(lines, i, c, n - 1);
      if Parent(lines, n - 1) == i {
        if c < n - 1 {
          ParentIsNearest(lines, n - 1, n - 2, c);
        }
      }
    }
  }

  lemma {:induction false} NoChildrenBefore(lines: seq<Line>, i: nat, n: nat)
    requires n <= i + 1 <= |lines|
    ensures ChildrenUpTo(lines, i, n) == []
  {
    if n > 0 {
      NoChildrenBefore(lines, i, n - 1);
      assert Parent(lines, n - 1) < i;
    }
  }

  lemma {:induction false} ChildrenOfPrinted(lines: seq<Line>, i: nat, x: Line, ts: seq<Tree<string>>)
    requires StandAt(lines, i, [x] + PrintForest(ts, x.depth + 1), x.depth)
    ensures ChildrenUpTo(lines, i, |lines|) == Starts(ts, x.depth + 1, i + 1)
  {
    var forest := PrintForest(ts, x.depth + 1);
    StandBelow(lines, i, x, forest);
    StartsAreChildren(lines, i, i + 1, ts, x.depth + 1, i + 1 + |forest|);
    NoOtherChildren(lines, i, i + 1 + |forest|, Starts(ts, x.depth + 1, i + 1));
  }

  lemma {:induction false} NoOtherChildren(lines: seq<Line>, i: nat, n: nat, ks: seq<nat>)
    requires i < n <= |lines| && (n < |lines| ==> lines[n].depth <= lines[i].depth)
    requires ChildrenUpTo(lines, i, n) == ChildrenUpTo(lines, i, i + 1) + ks
    ensures ChildrenUpTo(lines, i, |lines|) == ks
  {
    NoChildrenBefore(lines, i, i + 1);
    NoChildrenAfter(lines, i, n, |lines|);
  }

  lemma {:induction false} StandBelow(lines: seq<Line>, i: nat, x: Line, xs: seq<Line>)
    requires StandAt(lines, i, [x] + xs, x.depth)
    ensures lines[i] == x && StandAt(lines, i + 1, xs, x.depth + 1)
    ensures i + 1 + |xs| < |lines| ==> lines[i + 1 + |xs|].depth <= x.depth
  {
    assert |[x] + xs| == 1 + |xs|;
    assert forall j: nat | i <= j < i + 1 + |xs| :: lines[j] == ([x] + xs)[j - i];
  }

  /** Every tree of a printed forest stands where it starts. */
  lemma {:induction false} StandsEach(lines: seq<Line>, c: nat, ts: seq<Tree<string>>, level: nat, k: nat)
    requires k < |ts| && StandAt(lines, c, PrintForest(ts, level), level)
    ensures StandAt(lines, Starts(ts, level, c)[k], PrintTree(ts[k], level), level)
    decreases k
  {
    StandSplit(lines, c, ts, level);
    if k > 0 {
      StandsEach(lines, c + |PrintTree(ts[0], level)|, ts[1..], level, k - 1);
    }
  }

  /** The children of a printed line are the lines where its tree's children are printed. */
  lemma {:induction false} PrintedKids(lines: seq<Line>, i: nat, t: Tree<string>, level: nat)
    requires StandAt(lines, i, PrintTree(t, level), level)
    ensures i < |lines| && lines[i].text == t.value
    ensures var ks := Cells(lines)[i].kids;
      && |ks| == |t.children|
      && forall k | 0 <= k < |ks| :: StandAt(lines, ks[k], PrintTree(t.children[k], level + 1), level + 1)
  {
    var x := Line(level, t.value);
    StandBelow(lines, i, x, PrintForest(t.children, level + 1));
    ChildrenOfPrinted(lines, i, x, t.children);
    forall k | 0 <= k < |t.children|
      ensures StandAt(lines, Starts(t.children, level + 1, i + 1)[k], PrintTree(t.children[k], level + 1), level + 1)
    {
      StandsEach(lines, i + 1, t.children, level + 1, k);
    }
  }

  /** Parsing finds a printed tree again, wherever it stands. */
  lemma {:induction false} FindsPrintedTree(lines: seq<Line>, cells: seq<Cell<string>>, i: nat, t: Tree<string>,
                                            level: nat)
    requires cells == Cells(lines) && Linked(cells)
    requires StandAt(lines, i, PrintTree(t, level), level)
    ensures i < |cells| && TreeAt(cells, i) == t
    decreases t
  {
    PrintedKids(lines, i, t, level);
    var ks := cells[i].kids;
    forall k | 0 <= k < |ks|
      ensures TreeAt(cells, ks[k]) == t.children[k]
    {
      FindsPrintedTree(lines, cells, ks[k], t.children[k], level + 1);
    }
    assert ForestAt(cells, i, ks) == t.children;
  }

  /** Print, then parse: the first tree of a printed forest comes back exactly. */
  lemma {:induction false} ParseInvertsPrint(ts: seq<Tree<string>>, level: nat)
    requires ts != []
    ensures Built(PrintForest(ts, level)) == ts[0]
  {
    var lines := PrintForest(ts, level);
    assert StandAt(lines, 0, lines, level);
    StandApart(lines, 0, PrintTree(ts[0], level), PrintForest(ts[1..], level), level);
    CellsAreLinked(lines);
    FindsPrintedTree(lines, Cells(lines), 0, ts[0], level);
  }

  // -------------------------------------------------------- parse and print

  /** The first line at or after i that is indented no more than level. */
  function NextAtMost(lines: seq<Line>, level: nat, i: nat): (n: nat)
    requires i <= |lines|
    ensures i <= n <= |lines|
    ensures forall j | i <= j < n :: lines[j].depth > level
    ensures n < |lines| ==> lines[n].depth <= level
    decreases |lines| - i
  {
    if i == |lines| || lines[i].depth <= level then i else NextAtMost(lines, level, i + 1)
  }

  /** Properly nested lines are the lines of some forest. */
  lemma {:induction false} NestedIsPrinted(lines: seq<Line>, level: nat) returns (ts: seq<Tree<string>>)
    requires NestedForest(lines, level)
    ensures PrintForest(ts, level) == lines
    decreases |lines|
  {
    if lines == [] {
      ts := [];
    } else {
      var n := NextAtMost(lines, level, 1);
      NestedSplit(lines, level, n);
      var inner := NestedIsPrinted(lines[1..n], level + 1);
      var rest := NestedIsPrinted(lines[n..], level);
      var t := Node(lines[0].text, inner);
      ts := [t] + rest;
      PrintJoin(t, rest, level);
      assert lines == [lines[0]] + lines[1..n] + lines[n..];
    }
  }

  lemma {:induction false} NestedSplit(lines: seq<Line>, level: nat, n: nat)
    requires lines != [] && NestedForest(lines, level) && n == NextAtMost(lines, level, 1)
    ensures NestedForest(lines[1..n], level + 1) && NestedForest(lines[n..], level)
  {
  }

  lemma {:induction false} PrintJoin(t: Tree<string>, ts: seq<Tree<string>>, level: nat)
    ensures PrintForest([t] + ts, level) ==
            [Line(level, t.value)] + PrintForest(t.children, level + 1) + PrintForest(ts, level)
  {
    assert ([t] + ts)[1..] == ts;
  }

  /** Parse, then print: the lines come back exactly when they are properly nested below the first. */
  lemma {:induction false} PrintInvertsParse(lines: seq<Line>)
    requires lines != []
    ensures PrintTree(Built(lines), lines[0].depth) == lines <==> Nested(lines)
  {
    var level := lines[0].depth;
    PrintTreeIsNested(Built(lines), level);
    if Nested(lines) {
      var inner := NestedIsPrinted(lines[1..], level + 1);
      var t := Node(lines[0].text, inner);
      assert PrintTree(t, level) == [lines[0]] + lines[1..] == lines;
      CellsAreLinked(lines);
      FindsPrintedTree(lines, Cells(lines), 0, t, level);
    }
  }
}
