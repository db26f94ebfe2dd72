/** The time board as objects: stamps that refer to their parent and to the stamps below them
    (src/module/timeboard.h, src/module/timeboard.cpp). */
module TimeBoards {
  import opened ModuleGraph
  import opened Trees
  import opened StampBoard
  import opened StampQuery

  class TimeStamp {
    const name: string
    const level: int
    const parent: TimeStamp?
    ghost const place: nat
    var status: Stamp
    var leafs: seq<TimeStamp>

    constructor (name: string, level: int, parent: TimeStamp?, r: Reading, ghost place: nat)
      ensures this.name == name && this.level == level && this.parent == parent && this.place == place
      ensures status == Open(name, level, r) && leafs == []
    {
      this.name, this.level, this.parent, this.place := name, level, parent, place;
      status, leafs := Open(name, level, r), [];
    }

    ghost function View(): Cell<Stamp>
      reads this
    {
      Cell(status, Places(leafs))
    }

    ghost function ParentPlace(): int {
      if parent == null then -1 else parent.place
    }

    /** Closes the stamp: sets its start and end, and turns its counters into differences. */
    method SetStatus(r: Reading)
      modifies this`status
      ensures status == StampBoard.SetStatus(old(status), r)
    {
      status := status.(start := status.time, end := r.time,
                        energy := r.energy - status.energy, flops := r.flops - status.flops);
    }

    /** Adds a new stamp below this one. */
    method PushStamp(name: string, r: Reading, ghost place: nat) returns (stamp: TimeStamp)
      modifies this`leafs
      ensures fresh(stamp) && stamp.name == name && stamp.level == level + 1
      ensures stamp.parent == this && stamp.place == place
      ensures stamp.View() == Cell(Open(name, level + 1, r), [])
      ensures leafs == old(leafs) + [stamp]
      ensures View() == Cell(status, old(Places(leafs)) + [place])
    {
      stamp := new TimeStamp(name, level + 1, this, r, place);
      leafs := leafs + [stamp];
      assert Places(leafs) == old(Places(leafs)) + [place];
    }

    /** Closes this stamp; its parent is the one to go on from. */
    method PopStamp(r: Reading) returns (next: TimeStamp?)
      modifies this`status
      ensures next == parent && View() == Cell(StampBoard.SetStatus(old(status), r), Places(leafs))
    {
      SetStatus(r);
      next := parent;
    }
  }

  ghost function Places(ss: seq<TimeStamp>): (ps: seq<nat>)
    ensures |ps| == |ss| && forall i | 0 <= i < |ss| :: ps[i] == ss[i].place
  {
    seq(|ss|, i requires 0 <= i < |ss| => ss[i].place)
  }

  class TimeBoard {
    const top: TimeStamp
    var current: TimeStamp?
    ghost var stamps: seq<TimeStamp>
    ghost var view: Board

    ghost predicate Owns(s: TimeStamp)
      reads this
    {
      s.place < |stamps| && stamps[s.place] == s
    }

    /** The i-th stamp refers to stamps of this board, and is the i-th cell of the board's view. */
    ghost predicate Consistent(i: nat)
      requires i < |stamps| == |view.cells| == |view.parents|
      reads this, stamps
    {
      var s := stamps[i];
      && s.place == i && s.status.level == s.level && s.status.name == s.name
      && view.cells[i] == s.View() && view.parents[i] == s.ParentPlace()
      && (s.parent == null <==> i == 0)
      && (s.parent != null ==> Owns(s.parent) && s.parent.place < i)
      && forall j | 0 <= j < |s.leafs| :: Owns(s.leafs[j]) && i < s.leafs[j].place
    }

    ghost predicate Valid()
      reads this, stamps
    {
      && 0 < |stamps| == |view.cells| == |view.parents| && stamps[0] == top
      && (forall i: nat | i < |stamps| :: Consistent(i))
      && (if current == null then view.current == -1 else Owns(current) && view.current == current.place)
    }

    constructor ()
      ensures Valid() && view == FRESH && fresh(stamps)
    {
      top := new TimeStamp("", -1, null, Reading(0.0, 0.0, 0.0), 0);
      current := top;
      stamps, view := [top], FRESH;
    }

    /** Opens a stamp below the current one. */
    method PushTimestamp(name: string, r: Reading)
      requires Valid() && current != null
      modifies this, current
      ensures Valid() && view == PushStamp(old(view), name, r)
      ensures stamps[..|stamps| - 1] == old(stamps) && fresh(stamps[|stamps| - 1])
    {
      assert Consistent(current.place);
      var stamp := current.PushStamp(name, r, |stamps|);
      stamps, view := stamps + [stamp], StampBoard.PushStamp(view, name, r);
      current := stamp;
      forall i: nat | i < |stamps| - 1
        ensures Consistent(i)
      {
        assert old(Consistent(i));
      }
    }

    /** Closes the current stamp and returns to its parent. */
    method PopTimestamp(r: Reading)
      requires Valid() && current != null
      modifies this, current
      ensures Valid() && view == PopStamp(old(view), r)
      ensures stamps == old(stamps)
    {
      assert Consistent(current.place);
      view := StampBoard.PopStamp(view, r);
      current := current.PopStamp(r);
      forall i: nat | i < |stamps|
        ensures Consistent(i)
      {
        assert old(Consistent(i));
      }
    }

    /** Drops all stamps but the top one. */
    method Reset()
      requires Valid()
      modifies this, top
      ensures Valid() && stamps == [top]
      ensures view == Board([Cell(old(top.status), [])], [-1], 0)
    {
      assert Consistent(0);
      top.leafs := [];
      current := top;
      stamps, view := [top], Board([Cell(top.status, [])], [-1], 0);
    }

    /** Appends to `found` the stamps that the search finds below a stamp. */
    method FindStamp(stamp: TimeStamp, sub: string, found: seq<TimeStamp>) returns (r: seq<TimeStamp>)
      requires Valid() && view.Valid() && Owns(stamp) && forall i | 0 <= i < |found| :: Owns(found[i])
      ensures forall i | 0 <= i < |r| :: Owns(r[i])
      ensures Places(r) == Places(found) + FindPlaces(view.cells, stamp.place, sub)
      decreases |stamps| - stamp.place
    {
      assert Consistent(stamp.place);
      if Contains(stamp.name, sub) {
        r := found + [stamp];
      } else {
        r := found;
        for i := 0 to |stamp.leafs|
          invariant forall k | 0 <= k < |r| :: Owns(r[k])
          invariant Places(r) + FindAmong(view.cells, stamp.place, Places(stamp.leafs)[i..], sub)
            == Places(found) + FindPlaces(view.cells, stamp.place, sub)
        {
          ghost var rest := Places(stamp.leafs)[i..];
          assert rest[0] == stamp.leafs[i].place && rest[1..] == Places(stamp.leafs)[i + 1..];
          FindStep(view.cells, stamp.place, rest, sub, Places(r));
          r := FindStamp(stamp.leafs[i], sub, r);
        }
      }
    }

    /** Appends to `lines` the printed lines of a stamp and of the stamps below it. */
    method Print(stamp: TimeStamp, lines: seq<Line>) returns (r: seq<Line>)
      requires Valid() && view.Valid() && Owns(stamp)
      ensures r == lines + PrintPlace(view.cells, stamp.place)
      decreases |stamps| - stamp.place
    {
      assert Consistent(stamp.place);
      r := lines;
      if stamp.level != -1 {
        r := r + [Line(if stamp.level < 0 then 0 else stamp.level, stamp.name)];
      }
      for i := 0 to |stamp.leafs|
        invariant r + PrintAmong(view.cells, stamp.place, Places(stamp.leafs)[i..])
          == lines + PrintPlace(view.cells, stamp.place)
      {
        ghost var rest := Places(stamp.leafs)[i..];
        assert rest[0] == stamp.leafs[i].place && rest[1..] == Places(stamp.leafs)[i + 1..];
        PrintStep(view.cells, stamp.place, rest, r);
        r := Print(stamp.leafs[i], r);
      }
    }
  }
}
