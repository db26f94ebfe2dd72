/** The loops that rebuild the tree: a stack of open nodes, and child lists that grow in place
    (tools/view_result.py, tools/parse_layer.py). */
module TreeBuilder {
  import opened Basics
  import opened Trees
  import opened TreeParser

  class Node {
    const line: Line
    ghost const place: nat
    var children: seq<Node>

    constructor (line: Line, ghost place: nat)
      ensures this.line == line && this.place == place && children == []
    {
      this.line := line;
      this.place := place;
      children := [];
    }
  }

  /** The nodes at the given places. */
  ghost predicate Picked(nodes: seq<Node>, ks: seq<nat>, xs: seq<Node>) {
    |xs| == |ks| && forall j | 0 <= j < |xs| :: ks[j] < |nodes| && xs[j] == nodes[ks[j]]
  }

  /** One node for each of the first lines. */
  ghost predicate Lined(lines: seq<Line>, nodes: seq<Node>) {
    |nodes| <= |lines| && forall i | 0 <= i < |nodes| :: nodes[i].line == lines[i] && nodes[i].place == i
  }

  /** Every node is linked to the nodes at the given places. */
  ghost predicate Linking(nodes: seq<Node>, kids: seq<seq<nat>>)
    reads nodes
  {
    |kids| == |nodes| && forall i | 0 <= i < |nodes| :: Picked(nodes, kids[i], nodes[i].children)
  }

  /** The children of the first n lines among the first n lines. */
  ghost function Kids(lines: seq<Line>, n: nat): (kids: seq<seq<nat>>)
    requires n <= |lines|
    ensures |kids| == n
  {
    if n == 0 then []
    else
      var kids, p := Kids(lines, n - 1), Parent(lines, n - 1);
      (if p < 0 then kids else kids[p := kids[p] + [n - 1]]) + [[]]
  }

  lemma {:induction false} KidsAreChildren(lines: seq<Line>, n: nat, i: nat)
    requires i < n <= |lines|
    ensures Kids(lines, n)[i] == ChildrenUpTo(lines, i, n)
  {
    if i == n - 1 {
      NoChildrenBefore(lines, i, n);
    } else {
      KidsAreChildren(lines, n - 1, i);
    }
  }

  /** The nodes form the tree of the lines: one node a line, linked to exactly the nodes of its child lines. */
  ghost predicate HoldsTree(lines: seq<Line>, nodes: seq<Node>)
    reads nodes
  {
    && |nodes| == |lines|
    && forall i: nat | i < |nodes| ::
        && nodes[i].line == lines[i]
        && Picked(nodes, Cells(lines)[i].kids, nodes[i].children)
  }

  lemma {:induction false} LinkedIsHeld(lines: seq<Line>, nodes: seq<Node>)
    requires |nodes| == |lines| && Lined(lines, nodes) && Linking(nodes, Kids(lines, |lines|))
    ensures HoldsTree(lines, nodes)
  {
    forall i: nat | i < |nodes|
      ensures Picked(nodes, Cells(lines)[i].kids, nodes[i].children)
    {
      KidsAreChildren(lines, |lines|, i);
    }
  }

  /** The lines that could be read, among the first n. */
  function Kept(raw: seq<Option<Line>>, n: nat): seq<Line>
    requires n <= |raw|
  {
    if n == 0 then []
    else Kept(raw, n - 1) + match raw[n - 1] case None => [] case Some(line) => [line]
  }

  lemma {:induction false} KeptGrows(raw: seq<Option<Line>>, n: nat, m: nat)
    requires n <= m <= |raw|
    ensures Kept(raw, n) <= Kept(raw, m)
  {
    if n < m {
      KeptGrows(raw, n, m - 1);
    }
  }

  /** The inner loop: closes the open nodes that are indented at least as much as the next line. */
  method CloseUpTo(stack: seq<Node>, line: Line, ghost lines: seq<Line>, ghost nodes: seq<Node>)
    returns (rest: seq<Node>)
    requires Lined(lines, nodes) && |nodes| < |lines| && lines[|nodes|] == line
    requires Picked(nodes, Ancestry(lines, |nodes| - 1), stack)
    ensures Picked(nodes, Ancestry(lines, Parent(lines, |nodes|)), rest)
  {
    rest := stack;
    ghost var j, k := |nodes|, |nodes| - 1;
    TopNode(lines, nodes, k, rest);
    while rest != [] && rest[|rest| - 1].line.depth >= line.depth
      invariant -1 <= k < j && Picked(nodes, Ancestry(lines, k), rest)
      invariant if rest == [] then k == -1 else k >= 0 && rest[|rest| - 1] == nodes[k]
      invariant ParentFrom(lines, j, k) == Parent(lines, j)
      decreases |rest|
    {
      SkipToParent(lines, j, k);
      k := Parent(lines, k);
      rest := rest[..|rest| - 1];
      TopNode(lines, nodes, k, rest);
    }
  }

  /** The last open node is the one of the last line. */
  lemma {:induction false} TopNode(lines: seq<Line>, nodes: seq<Node>, k: int, stack: seq<Node>)
    requires -1 <= k < |nodes| <= |lines| && Picked(nodes, Ancestry(lines, k), stack)
    ensures if stack == [] then k == -1 else k >= 0 && stack[|stack| - 1] == nodes[k]
  {
  }

  lemma {:induction false} SkipToParent(lines: seq<Line>, j: nat, k: nat)
    requires k < j < |lines| && lines[k].depth >= lines[j].depth
    ensures ParentFrom(lines, j, k) == ParentFrom(lines, j, Parent(lines, k))
  {
    forall i | Parent(lines, k) < i <= k
      ensures lines[i].depth >= lines[j].depth
    {
      if i < k {
        ParentIsNearest(lines, k, k - 1, i);
      }
    }
    ParentSkips(lines, j, k, Parent(lines, k));
  }

  lemma {:induction false} StackGrows(lines: seq<Line>, nodes: seq<Node>, node: Node, stack: seq<Node>)
    requires |nodes| < |lines| && Picked(nodes, Ancestry(lines, Parent(lines, |nodes|)), stack)
    ensures Picked(nodes + [node], Ancestry(lines, |nodes|), stack + [node])
  {
  }

  /** The new node becomes the last child of the top of the stack, if there is one. */
  method AddChild(stack: seq<Node>, node: Node, ghost nodes: seq<Node>, ghost kids: seq<seq<nat>>, ghost p: int)
    requires Linking(nodes, kids) && -1 <= p < |nodes| && forall i | 0 <= i < |nodes| :: nodes[i].place == i
    requires if stack == [] then p == -1 else p >= 0 && stack[|stack| - 1] == nodes[p]
    requires node.children == [] && node !in nodes
    modifies nodes
    ensures Linking(nodes + [node], (if p < 0 then kids else kids[p := kids[p] + [|nodes|]]) + [[]])
  {
    if stack != [] {
      var parent := stack[|stack| - 1];
      parent.children := parent.children + [node];
    }
  }

  /** The state between two rounds of the outer loop. */
  ghost predicate Building(lines: seq<Line>, nodes: seq<Node>, stack: seq<Node>)
    reads nodes
  {
    Lined(lines, nodes) && Linking(nodes, Kids(lines, |nodes|)) && Picked(nodes, Ancestry(lines, |nodes| - 1), stack)
  }

  /** One round of the outer loop. */
  method Attach(stack: seq<Node>, line: Line, ghost lines: seq<Line>, ghost nodes: seq<Node>)
    returns (node: Node, rest: seq<Node>)
    requires Building(lines, nodes, stack) && |nodes| < |lines| && line == lines[|nodes|]
    modifies nodes
    ensures fresh(node) && Building(lines, nodes + [node], rest)
    ensures nodes == [] ==> |rest| == 1
  {
    ghost var p, kids := Parent(lines, |nodes|), Kids(lines, |nodes|);
    rest := CloseUpTo(stack, line, lines, nodes);
    TopNode(lines, nodes, p, rest);
    node := new Node(line, |nodes|);
    AddChild(rest, node, nodes, kids, p);
    KeepsBuilding(lines, nodes, node, rest, kids);
    rest := rest + [node];
  }

  lemma {:induction false} KeepsBuilding(lines: seq<Line>, nodes: seq<Node>, node: Node, stack: seq<Node>,
                                         kids: seq<seq<nat>>)
    requires Lined(lines, nodes) && |nodes| < |lines| && node.line == lines[|nodes|] && node.place == |nodes|
    requires kids == Kids(lines, |nodes|)
    requires var p := Parent(lines, |nodes|);
      Linking(nodes + [node], (if p < 0 then kids else kids[p := kids[p] + [|nodes|]]) + [[]])
    requires Picked(nodes, Ancestry(lines, Parent(lines, |nodes|)), stack)
    ensures Building(lines, nodes + [node], stack + [node])
  {
    StackGrows(lines, nodes, node, stack);
    KidsGrow(lines, |nodes|);
  }

  lemma {:induction false} KidsGrow(lines: seq<Line>, n: nat)
    requires n < |lines|
    ensures var kids, p := Kids(lines, n), Parent(lines, n);
      Kids(lines, n + 1) == (if p < 0 then kids else kids[p := kids[p] + [n]]) + [[]]
  {
  }

  lemma {:induction false} KeptNext(raw: seq<Option<Line>>, r: nat)
    requires r < |raw|
    ensures raw[r].None? ==> |Kept(raw, r + 1)| == |Kept(raw, r)|
    ensures raw[r].Some? ==> |Kept(raw, r + 1)| == |Kept(raw, r)| + 1
    ensures raw[r].Some? ==> |Kept(raw, r)| < |Kept(raw, |raw|)| && Kept(raw, |raw|)[|Kept(raw, r)|] == raw[r].value
  {
    KeptGrows(raw, r + 1, |raw|);
  }

  /** The first node created so far, if any. */
  ghost predicate IsRoot(root: Node?, nodes: seq<Node>) {
    if nodes == [] then root == null else root == nodes[0]
  }

  method ReadLine(raw: seq<Option<Line>>, r: nat, root: Node?, stack: seq<Node>,
                  ghost lines: seq<Line>, ghost nodes: seq<Node>)
    returns (root': Node?, rest: seq<Node>, ghost added: seq<Node>)
    requires r < |raw| && lines == Kept(raw, |raw|) && |nodes| == |Kept(raw, r)|
    requires Building(lines, nodes, stack) && IsRoot(root, nodes)
    modifies nodes
    ensures Building(lines, nodes + added, rest) && IsRoot(root', nodes + added)
    ensures fresh(added) && |nodes + added| == |Kept(raw, r + 1)|
  {
    root', rest, added := root, stack, [];
    assert nodes + [] == nodes;
    KeptNext(raw, r);
    if raw[r].Some? {
      var node;
      node, rest := Attach(stack, raw[r].value, lines, nodes);
      if |rest| == 1 && root == null {
        root' := node;
      }
      added := [node];
    }
  }

  /** build_tree of the viewer: unreadable lines are skipped; further outermost lines are read but not kept. */
  method BuildTree(raw: seq<Option<Line>>) returns (root: Node?, ghost nodes: seq<Node>)
    ensures HoldsTree(Kept(raw, |raw|), nodes) && IsRoot(root, nodes)
    ensures fresh(nodes)
  {
    ghost var lines := Kept(raw, |raw|);
    root, nodes := null, [];
    var stack := [];
    for r := 0 to |raw|
      invariant |nodes| == |Kept(raw, r)| && Building(lines, nodes, stack) && IsRoot(root, nodes)
      invariant fresh(nodes)
    {
      ghost var added;
      root, stack, added := ReadLine(raw, r, root, stack, lines, nodes);
      nodes := nodes + added;
    }
    LinkedIsHeld(lines, nodes);
  }

  lemma {:induction false} FirstNode(lines: seq<Line>, node: Node)
    requires lines != [] && node.line == lines[0] && node.place == 0 && node.children == []
    ensures Building(lines, [node], [node])
  {
  }

  /** build_tree of the layer tool: the first line is the root. */
  method BuildLayer(ops: seq<Line>) returns (root: Node, ghost nodes: seq<Node>)
    requires ops != []
    ensures fresh(nodes) && HoldsTree(ops, nodes) && root == nodes[0]
  {
    root := new Node(ops[0], 0);
    nodes := [root];
    FirstNode(ops, root);
    var stack := [root];
    for r := 1 to |ops|
      invariant |nodes| == r && fresh(nodes) && root == nodes[0] && Building(ops, nodes, stack)
    {
      var node;
      node, stack := Attach(stack, ops[r], ops, nodes);
      nodes := nodes + [node];
    }
    LinkedIsHeld(ops, nodes);
  }
}
