/** From recorded module calls to the rebuilt tree: the report of a time board, parsed back. */
module Report {
  import opened Basics
  import opened Trees
  import opened StampBoard
  import opened StampQuery
  import opened TreeParser

  /** Whatever calls a device records, the viewer rebuilds the call tree of the first of them
      from the printed report of the board. */
  lemma {:induction false} ViewerRebuildsCalls(cs: seq<Call>)
    requires cs != []
    ensures var b := Replay(FRESH, Words(cs));
      && b.current == 0 && b.cells != []
      && PrintPlace(b.cells, 0) == PrintForest(NameForest(cs), 0)
      && PrintPlace(b.cells, 0) != []
      && Built(PrintPlace(b.cells, 0)) == NameTree(cs[0])
  {
    var b := Replay(FRESH, Words(cs));
    ReplayFresh(cs);
    PrintPlaceIsPrint(b.cells, 0);
    PrintsCalls(cs, 0);
    var ts := NameForest(cs);
    assert PrintPlace(b.cells, 0) == PrintForest(ts, 0) by {
      assert TreeAt(b.cells, 0) == Node(TOP, StampForest(cs, 0));
      assert [] + PrintStamps(StampForest(cs, 0)) == PrintStamps(StampForest(cs, 0));
    }
    ParseInvertsPrint(ts, 0);
  }
}
