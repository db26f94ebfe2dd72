/** Cutting one decoder layer out of a printed report (tools/parse_layer.py). */
module LayerSlice {
  import opened Basics
  import opened Trees
  import opened TreeParser
  import TreeBuilder

  /** The indentation of the last decoder line among the first i lines. */
  function Latest(lines: seq<Line>, decoder: string -> bool, i: nat): Option<nat>
    requires i <= |lines|
  {
    if i == 0 then None
    else if decoder(lines[i - 1].text) then Some(lines[i - 1].depth)
    else Latest(lines, decoder, i - 1)
  }

  /** A line that ends the layer: no decoder line, and indented no more than the last decoder line. */
  predicate Breaks(lines: seq<Line>, decoder: string -> bool, i: nat)
    requires i < |lines|
  {
    var level := Latest(lines, decoder, i);
    !decoder(lines[i].text) && level.Some? && lines[i].depth <= level.value
  }

  function FirstDecoder(lines: seq<Line>, decoder: string -> bool, i: nat): (f: nat)
    requires i <= |lines|
    ensures i <= f <= |lines| && (f < |lines| ==> decoder(lines[f].text))
    ensures forall j | i <= j < f :: !decoder(lines[j].text)
    decreases |lines| - i
  {
    if i == |lines| || decoder(lines[i].text) then i else FirstDecoder(lines, decoder, i + 1)
  }

  function LayerEnd(lines: seq<Line>, decoder: string -> bool, i: nat): (e: nat)
    requires i <= |lines|
    ensures i <= e <= |lines| && (e < |lines| ==> Breaks(lines, decoder, e))
    ensures forall j | i <= j < e :: !Breaks(lines, decoder, j)
    decreases |lines| - i
  {
    if i == |lines| || Breaks(lines, decoder, i) then i else LayerEnd(lines, decoder, i + 1)
  }

  lemma {:induction false} NoneLatest(lines: seq<Line>, decoder: string -> bool, i: nat)
    requires i <= |lines|
    ensures Latest(lines, decoder, i).None? <==> forall j | 0 <= j < i :: !decoder(lines[j].text)
  {
    if i > 0 {
      NoneLatest(lines, decoder, i - 1);
    }
  }

  lemma {:induction false} LayerIsNotEmpty(lines: seq<Line>, decoder: string -> bool)
    ensures FirstDecoder(lines, decoder, 0) <= LayerEnd(lines, decoder, 0)
    ensures FirstDecoder(lines, decoder, 0) < |lines| ==> FirstDecoder(lines, decoder, 0) < LayerEnd(lines, decoder, 0)
  {
    var e := LayerEnd(lines, decoder, 0);
    if e < |lines| {
      NoneLatest(lines, decoder, e);
    }
  }

  /** The lines from the first decoder line up to the line that ends its layer. */
  function Layer(lines: seq<Line>, decoder: string -> bool): seq<Line> {
    LayerIsNotEmpty(lines, decoder);
    lines[FirstDecoder(lines, decoder, 0)..LayerEnd(lines, decoder, 0)]
  }

  /** Where the loop stands after n lines: inside the layer from the first decoder on, unless the layer has ended. */
  lemma {:induction false} LayerStep(lines: seq<Line>, decoder: string -> bool, n: nat)
    requires n < |lines| && n <= LayerEnd(lines, decoder, 0)
    ensures if Breaks(lines, decoder, n) then LayerEnd(lines, decoder, 0) == n else n < LayerEnd(lines, decoder, 0)
    ensures FirstDecoder(lines, decoder, 0) < n <==> Latest(lines, decoder, n).Some?
    ensures Latest(lines, decoder, n).None? && decoder(lines[n].text) ==> FirstDecoder(lines, decoder, 0) == n
    ensures Latest(lines, decoder, n).None? && !decoder(lines[n].text) ==> FirstDecoder(lines, decoder, 0) > n
  {
    NoneLatest(lines, decoder, n);
  }

  ghost function Piece(lines: seq<Line>, f: nat, n: nat): seq<Line>
    requires n <= |lines|
  {
    if f < n then lines[f..n] else []
  }

  lemma {:induction false} PieceGrows(lines: seq<Line>, f: nat, n: nat)
    requires n < |lines|
    ensures Piece(lines, f, n + 1) == if f <= n then Piece(lines, f, n) + [lines[n]] else Piece(lines, f, n)
  {
  }

  /** The loop over the report. */
  method CollectLayer(raw: seq<Option<Line>>, decoder: string -> bool) returns (ops: seq<Line>)
    ensures ops == Layer(TreeBuilder.Kept(raw, |raw|), decoder)
  {
    ghost var lines := TreeBuilder.Kept(raw, |raw|);
    ghost var f, e, n := FirstDecoder(lines, decoder, 0), LayerEnd(lines, decoder, 0), 0;
    LayerIsNotEmpty(lines, decoder);
    ops := [];
    var inLayer, layerIndent := false, 0;
    for r := 0 to |raw|
      invariant n == |TreeBuilder.Kept(raw, r)| <= e
      invariant Latest(lines, decoder, n) == if inLayer then Some(layerIndent) else None
      invariant inLayer == (f < n) && ops == Piece(lines, f, n)
    {
      TreeBuilder.KeptNext(raw, r);
      if raw[r].Some? {
        var line := raw[r].value;
        LayerStep(lines, decoder, n);
        PieceGrows(lines, f, n);
        if decoder(line.text) {
          inLayer := true;
          layerIndent := line.depth;
          ops := ops + [line];
        } else if inLayer && line.depth > layerIndent {
          ops := ops + [line];
        } else if inLayer && line.depth <= layerIndent {
          assert n == e;
          return;
        }
        n := n + 1;
      }
    }
    assert n == e;
  }

  // ------------------------------------------------------ counting the lines

  function Size(t: Tree<string>): nat
    decreases t, 0
  {
    1 + Sizes(t.children)
  }

  function Sizes(ts: seq<Tree<string>>): nat
    decreases ts, 1
  {
    if ts == [] then 0 else Size(ts[0]) + Sizes(ts[1..])
  }

  lemma {:induction false} SizesAppend(ts: seq<Tree<string>>, t: Tree<string>)
    ensures Sizes(ts + [t]) == Sizes(ts) + Size(t)
  {
    if ts == [] {
      assert ts + [t] == [t];
    } else {
      assert (ts + [t])[1..] == ts[1..] + [t];
      SizesAppend(ts[1..], t);
    }
  }

  /** The trees of the given lines, in order. */
  ghost function TreesAt(lines: seq<Line>, ks: seq<nat>): (ts: seq<Tree<string>>)
    requires Linked(Cells(lines)) && forall j | 0 <= j < |ks| :: ks[j] < |lines|
    ensures |ts| == |ks| && forall j | 0 <= j < |ks| :: ts[j] == TreeAt(Cells(lines), ks[j])
  {
    seq(|ks|, j requires 0 <= j < |ks| => TreeAt(Cells(lines), ks[j]))
  }

  /** The line after the subtree of line i. */
  function SpanEnd(lines: seq<Line>, i: nat): nat
    requires i < |lines|
  {
    NextAtMost(lines, lines[i].depth, i + 1)
  }

  /** A child of line i starts at c, unless all of them are over. */
  ghost predicate ChildStarts(lines: seq<Line>, i: nat, c: nat)
    requires i < |lines|
  {
    i < c <= SpanEnd(lines, i) && (c < SpanEnd(lines, i) ==> Parent(lines, c) == i)
  }

  lemma {:induction false} FirstChildStarts(lines: seq<Line>, i: nat)
    requires i < |lines|
    ensures ChildStarts(lines, i, i + 1)
  {
  }

  /** The subtree of a child ends where the next child starts. */
  lemma {:induction false} NextChildStarts(lines: seq<Line>, i: nat, c: nat)
    requires i < |lines| && ChildStarts(lines, i, c) && c < SpanEnd(lines, i)
    ensures c < SpanEnd(lines, c) <= SpanEnd(lines, i) && ChildStarts(lines, i, SpanEnd(lines, c))
    ensures ChildrenUpTo(lines, i, SpanEnd(lines, c)) == ChildrenUpTo(lines, i, c) + [c]
  {
    var n, x := SpanEnd(lines, i), SpanEnd(lines, c);
    assert x <= n;
    NoChildrenInside(lines, i, c, x);
    if x < n {
      forall j | i < j < x
        ensures lines[j].depth >= lines[x].depth
      {
        if j < c {
          ParentIsNearest(lines, c, c - 1, j);
        }
      }
      ParentSkips(lines, x, x - 1, i);
    }
  }

  /** The subtrees of the children of line i that start before c. */
  ghost function ChildTrees(lines: seq<Line>, i: nat, c: nat): seq<Tree<string>>
    requires Linked(Cells(lines)) && c <= |lines|
  {
    ChildrenAreLater(lines, i, c);
    var ks := ChildrenUpTo(lines, i, c);
    assert forall j | 0 <= j < |ks| :: ks[j] in ks;
    TreesAt(lines, ks)
  }

  lemma {:induction false} ChildTreesGrow(lines: seq<Line>, i: nat, c: nat, x: nat)
    requires Linked(Cells(lines)) && c < x <= |lines|
    requires ChildrenUpTo(lines, i, x) == ChildrenUpTo(lines, i, c) + [c]
    ensures Sizes(ChildTrees(lines, i, x)) == Sizes(ChildTrees(lines, i, c)) + Size(TreeAt(Cells(lines), c))
  {
    assert ChildTrees(lines, i, x) == ChildTrees(lines, i, c) + [TreeAt(Cells(lines), c)];
    SizesAppend(ChildTrees(lines, i, c), TreeAt(Cells(lines), c));
  }

  /** The nodes of the children of line i that start before c. */
  ghost function Counted(lines: seq<Line>, i: nat, c: nat): nat
    requires Linked(Cells(lines)) && c <= |lines|
  {
    Sizes(ChildTrees(lines, i, c))
  }

  /** The later subtrees have one node for each line of their spans. */
  ghost predicate MeasuredFrom(lines: seq<Line>, i: nat)
    requires Linked(Cells(lines))
  {
    forall k: nat | i <= k < |lines| :: Size(TreeAt(Cells(lines), k)) == SpanEnd(lines, k) - k
  }

  /** A subtree has one node for each line of its span. */
  lemma {:induction false} CountTrees(lines: seq<Line>, i: nat)
    requires Linked(Cells(lines)) && i <= |lines|
    ensures MeasuredFrom(lines, i)
    decreases |lines| - i
  {
    if i < |lines| {
      CountTrees(lines, i + 1);
      CountTree(lines, i);
    }
  }

  lemma {:induction false} CountTree(lines: seq<Line>, i: nat)
    requires Linked(Cells(lines)) && i < |lines| && MeasuredFrom(lines, i + 1)
    ensures Size(TreeAt(Cells(lines), i)) == SpanEnd(lines, i) - i
  {
    var n := SpanEnd(lines, i);
    NoChildrenBefore(lines, i, i + 1);
    NoChildrenAfter(lines, i, n, |lines|);
    FirstChildStarts(lines, i);
    CountChildren(lines, i, i + 1, n);
    assert ChildTrees(lines, i, n) == ForestAt(Cells(lines), i, Cells(lines)[i].kids);
  }

  lemma {:induction false} CountChildren(lines: seq<Line>, i: nat, c: nat, n: nat)
    requires Linked(Cells(lines)) && i < |lines| && MeasuredFrom(lines, i + 1)
    requires n == SpanEnd(lines, i) && ChildStarts(lines, i, c)
    ensures Counted(lines, i, n) == Counted(lines, i, c) + n - c
    decreases n - c
  {
    if c < n {
      var x := CountChild(lines, i, c);
      CountChildren(lines, i, x, n);
    }
  }

  lemma {:induction false} CountChild(lines: seq<Line>, i: nat, c: nat) returns (x: nat)
    requires Linked(Cells(lines)) && i < |lines| && MeasuredFrom(lines, i + 1)
    requires ChildStarts(lines, i, c) && c < SpanEnd(lines, i)
    ensures c < x && ChildStarts(lines, i, x)
    ensures Counted(lines, i, x) == Counted(lines, i, c) + x - c
  {
    x := SpanEnd(lines, c);
    NextChildStarts(lines, i, c);
    ChildTreesGrow(lines, i, c, x);
  }

  // ------------------------------------------------------ cutting out a piece

  /** The piece of the lines that starts at f. */
  ghost predicate IsPiece(lines: seq<Line>, f: nat, ops: seq<Line>) {
    && 0 < |ops| && f + |ops| <= |lines|
    && forall j: nat | j < |ops| :: ops[j] == lines[f + j]
  }

  /** Lines of a piece that lie below its first line have their parents in the piece. */
  lemma {:induction false} ParentInPiece(lines: seq<Line>, f: nat, ops: seq<Line>, j: nat, k: nat)
    requires IsPiece(lines, f, ops) && k < j < |ops| && ops[0].depth < ops[j].depth
    ensures ParentFrom(lines, f + j, f + k) == f + ParentFrom(ops, j, k)
  {
    if k > 0 {
      ParentInPiece(lines, f, ops, j, k - 1);
    }
  }

  ghost predicate Shifted(xs: seq<nat>, f: nat, ys: seq<nat>) {
    |xs| == |ys| && forall j | 0 <= j < |xs| :: xs[j] == f + ys[j]
  }

  lemma {:induction false} ChildrenInPiece(lines: seq<Line>, f: nat, ops: seq<Line>, i: nat, m: nat)
    requires IsPiece(lines, f, ops) && i < |ops| && m <= SpanEnd(ops, 0)
    ensures Shifted(ChildrenUpTo(lines, f + i, f + m), f, ChildrenUpTo(ops, i, m))
  {
    if m == 0 {
      NoChildrenBefore(lines, f + i, f);
    } else {
      ChildrenInPiece(lines, f, ops, i, m - 1);
      SameParent(lines, f, ops, i, m - 1);
      LastChildShifted(lines, f, ops, i, m);
    }
  }

  lemma {:induction false} LastChildShifted(lines: seq<Line>, f: nat, ops: seq<Line>, i: nat, m: nat)
    requires 0 < m <= |ops| && f + m <= |lines|
    requires Shifted(ChildrenUpTo(lines, f + i, f + m - 1), f, ChildrenUpTo(ops, i, m - 1))
    requires Parent(lines, f + m - 1) == f + i <==> Parent(ops, m - 1) == i
    ensures Shifted(ChildrenUpTo(lines, f + i, f + m), f, ChildrenUpTo(ops, i, m))
  {
    ShiftedMore(ChildrenUpTo(lines, f + i, f + m - 1), f, ChildrenUpTo(ops, i, m - 1), m - 1);
  }

  lemma {:induction false} ShiftedMore(xs: seq<nat>, f: nat, ys: seq<nat>, y: nat)
    requires Shifted(xs, f, ys)
    ensures Shifted(xs + [f + y], f, ys + [y]) && Shifted(xs + [], f, ys + [])
  {
  }

  lemma {:induction false} SameParent(lines: seq<Line>, f: nat, ops: seq<Line>, i: nat, j: nat)
    requires IsPiece(lines, f, ops) && i < |ops| && j < SpanEnd(ops, 0)
    ensures Parent(lines, f + j) == f + i <==> Parent(ops, j) == i
  {
    if j > 0 {
      ParentInPiece(lines, f, ops, j, j - 1);
    }
  }

  lemma {:induction false} KidsInSpan(ops: seq<Line>, i: nat, j: nat)
    requires i < |ops| && i < SpanEnd(ops, 0) && j < |Cells(ops)[i].kids|
    ensures i < Cells(ops)[i].kids[j] < SpanEnd(ops, 0)
  {
    var m := SpanEnd(ops, 0);
    NoChildrenAfter(ops, i, m, |ops|);
    ChildrenAreLater(ops, i, m);
    assert Cells(ops)[i].kids[j] in ChildrenUpTo(ops, i, m);
  }

  /** The piece covers the span of its first line. */
  ghost predicate Covers(lines: seq<Line>, f: nat, ops: seq<Line>) {
    IsPiece(lines, f, ops) && f + SpanEnd(ops, 0) == SpanEnd(lines, f)
  }

  lemma {:induction false} KidsInPiece(lines: seq<Line>, f: nat, ops: seq<Line>, i: nat)
    requires Covers(lines, f, ops) && i < SpanEnd(ops, 0)
    ensures Shifted(Cells(lines)[f + i].kids, f, Cells(ops)[i].kids)
  {
    var m := SpanEnd(ops, 0);
    NoChildrenAfter(lines, f + i, f + m, |lines|);
    NoChildrenAfter(ops, i, m, |ops|);
    ChildrenInPiece(lines, f, ops, i, m);
  }

  /** A piece that covers the span of its first line has the same subtrees there. */
  lemma {:induction false} TreeInPiece(lines: seq<Line>, f: nat, ops: seq<Line>, i: nat)
    requires Covers(lines, f, ops) && i < SpanEnd(ops, 0)
    requires Linked(Cells(lines)) && Linked(Cells(ops))
    ensures TreeAt(Cells(lines), f + i) == TreeAt(Cells(ops), i)
    decreases |ops| - i
  {
    var a, b := Cells(lines), Cells(ops);
    KidsInPiece(lines, f, ops, i);
    forall j | 0 <= j < |b[i].kids|
      ensures TreeAt(a, a[f + i].kids[j]) == TreeAt(b, b[i].kids[j])
    {
      KidsInSpan(ops, i, j);
      TreeInPiece(lines, f, ops, b[i].kids[j]);
    }
    SameSubtrees(a, f + i, b, i);
  }

  lemma {:induction false} SameSubtrees(a: seq<Cell<string>>, i: nat, b: seq<Cell<string>>, j: nat)
    requires Linked(a) && Linked(b) && i < |a| && j < |b|
    requires a[i].value == b[j].value && |a[i].kids| == |b[j].kids|
    requires forall k | 0 <= k < |a[i].kids| :: TreeAt(a, a[i].kids[k]) == TreeAt(b, b[j].kids[k])
    ensures TreeAt(a, i) == TreeAt(b, j)
  {
    assert ForestAt(a, i, a[i].kids) == ForestAt(b, j, b[j].kids);
  }

  /** A piece either covers the span of its first line, or gives a tree with fewer nodes. */
  lemma {:induction false} PieceGivesSubtree(lines: seq<Line>, f: nat, ops: seq<Line>)
    requires IsPiece(lines, f, ops) && Linked(Cells(lines)) && Linked(Cells(ops))
    ensures TreeAt(Cells(ops), 0) == TreeAt(Cells(lines), f) <==> SpanEnd(lines, f) <= f + |ops|
  {
    PieceEnds(lines, f, ops);
    if SpanEnd(lines, f) <= f + |ops| {
      TreeInPiece(lines, f, ops, 0);
    } else {
      CountTrees(lines, 0);
      CountTrees(ops, 0);
    }
  }

  lemma {:induction false} PieceEnds(lines: seq<Line>, f: nat, ops: seq<Line>)
    requires IsPiece(lines, f, ops)
    ensures if SpanEnd(lines, f) <= f + |ops| then Covers(lines, f, ops) else SpanEnd(ops, 0) == |ops|
  {
    var n, m := SpanEnd(lines, f), SpanEnd(ops, 0);
    assert m < |ops| ==> ops[m] == lines[f + m];
    assert f < n < f + |ops| ==> ops[n - f] == lines[n];
  }

  /** The tree built from the cut is exactly the subtree of the first decoder in the whole report,
      if and only if no line inside that subtree ends the layer. */
  lemma {:induction false} LayerIsSubtree(lines: seq<Line>, decoder: string -> bool)
    requires FirstDecoder(lines, decoder, 0) < |lines|
    ensures Linked(Cells(lines)) && Layer(lines, decoder) != []
    ensures var f := FirstDecoder(lines, decoder, 0);
      Built(Layer(lines, decoder)) == TreeAt(Cells(lines), f) <==>
      forall i | f < i < SpanEnd(lines, f) :: !Breaks(lines, decoder, i)
  {
    CellsAreLinked(lines);
    LayerIsNotEmpty(lines, decoder);
    var f, e := FirstDecoder(lines, decoder, 0), LayerEnd(lines, decoder, 0);
    CellsAreLinked(lines[f..e]);
    PieceGivesSubtree(lines, f, lines[f..e]);
    if e < SpanEnd(lines, f) {
      assert Breaks(lines, decoder, e);
    }
  }

  /** The cut can miss part of the subtree: a decoder that holds another decoder and a module after it. */
  lemma {:induction false} NestedDecoderIsCutShort(decoder: string -> bool)
    requires decoder("decoder_0") && decoder("decoder_1") && !decoder("attention")
    ensures var lines := [Line(0, "decoder_0"), Line(1, "decoder_1"), Line(1, "attention")];
      && Linked(Cells(lines)) && FirstDecoder(lines, decoder, 0) == 0 && Layer(lines, decoder) != []
      && Built(Layer(lines, decoder)) != TreeAt(Cells(lines), 0)
  {
    var lines := [Line(0, "decoder_0"), Line(1, "decoder_1"), Line(1, "attention")];
    assert SpanEnd(lines, 0) == 3;
    assert Breaks(lines, decoder, 2);
    LayerIsSubtree(lines, decoder);
  }

  /** Decoders that contain no other decoder are cut out exactly. */
  lemma {:induction false} FlatLayerIsSubtree(lines: seq<Line>, decoder: string -> bool)
    requires FirstDecoder(lines, decoder, 0) < |lines|
    requires var f := FirstDecoder(lines, decoder, 0);
      forall i | f < i < SpanEnd(lines, f) :: !decoder(lines[i].text)
    ensures Linked(Cells(lines)) && Layer(lines, decoder) != []
    ensures Built(Layer(lines, decoder)) == TreeAt(Cells(lines), FirstDecoder(lines, decoder, 0))
  {
    var f := FirstDecoder(lines, decoder, 0);
    forall i | f < i < SpanEnd(lines, f)
      ensures !Breaks(lines, decoder, i)
    {
      LatestStays(lines, decoder, f, i);
    }
    LayerIsSubtree(lines, decoder);
  }

  lemma {:induction false} LatestStays(lines: seq<Line>, decoder: string -> bool, f: nat, i: nat)
    requires f < i <= |lines| && decoder(lines[f].text) && forall j | f < j < i :: !decoder(lines[j].text)
    ensures Latest(lines, decoder, i) == Some(lines[f].depth)
  {
    if f + 1 < i {
      LatestStays(lines, decoder, f, i - 1);
    }
  }
}
