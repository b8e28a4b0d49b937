/**
 The `near` buffer of internal/cells/cells.go: a streaming selection of the nearest distinct
 cells. Every cell may turn up many times, each time with the distance of another of its sites.
 */
module NearestCells {
  import opened Basics

  datatype Slot = Slot(cell: nat, dist: real)

  const SLOTS := 6

  /** Ascending distances. */
  ghost predicate Sorted(s: seq<Slot>) { forall i, k | 0 <= i < k < |s| :: s[i].dist <= s[k].dist }

  ghost predicate DistinctCells(s: seq<Slot>) { forall i, k | 0 <= i < k < |s| :: s[i].cell != s[k].cell }

  ghost predicate Holds(s: seq<Slot>, cell: nat) { exists i :: 0 <= i < |s| && s[i].cell == cell }

  /** x is the least distance its cell has reached. */
  ghost predicate Least(x: Slot, seen: set<Slot>) {
    x in seen && forall y <- seen :: y.cell == x.cell ==> x.dist <= y.dist
  }

  /**
   What the buffer promises about everything added so far: distinct cells in ascending order, each
   with the least distance of its cell, and no cell that is missing comes nearer than the last slot.
   */
  ghost predicate Summary(s: seq<Slot>, seen: set<Slot>) {
    && |s| <= SLOTS && Sorted(s) && DistinctCells(s)
    && (forall i | 0 <= i < |s| :: Least(s[i], seen))
    && (forall y <- seen :: Holds(s, y.cell) || (|s| == SLOTS && y.dist >= s[SLOTS - 1].dist))
  }

  // ------------------------------------------------------------- specification

  function Swap(s: seq<Slot>, i: nat): seq<Slot>
    requires 0 < i < |s|
  {
    s[i := s[i - 1]][i - 1 := s[i]]
  }

  /** up: carry slot i forward past every farther one. */
  function Raised(s: seq<Slot>, i: nat): (t: seq<Slot>)
    requires i < |s|
    ensures |t| == |s|
    decreases i
  {
    if i > 0 && s[i].dist < s[i - 1].dist then Raised(Swap(s, i), i - 1) else s
  }

  /** The slot of a cell, or |s|. */
  function Find(s: seq<Slot>, cell: nat): (i: nat)
    ensures i <= |s| && (i < |s| ==> s[i].cell == cell)
    ensures forall k | 0 <= k < i :: s[k].cell != cell
  {
    if s == [] || s[0].cell == cell then 0
    else
      var k := Find(s[1..], cell);
      assert forall j | 0 < j <= k :: s[j].cell == s[1..][j - 1].cell;
      k + 1
  }

  function Put(s: seq<Slot>, x: Slot): seq<Slot> {
    var i := Find(s, x.cell);
    if i < |s| then (if x.dist < s[i].dist then Raised(s[i := x], i) else s)
    else if |s| < SLOTS then Raised(s + [x], |s|)
    else if x.dist < s[|s| - 1].dist then Raised(s[|s| - 1 := x], |s| - 1)
    else s
  }

  function PutAll(s: seq<Slot>, stream: seq<Slot>): seq<Slot> {
    if stream == [] then s else Put(PutAll(s, stream[..|stream| - 1]), stream[|stream| - 1])
  }

  // -------------------------------------------------------------------- proofs

  /** Everything but slot i is in order and slot i is no farther than what follows. */
  ghost predicate NearlySorted(s: seq<Slot>, i: nat) {
    && i < |s|
    && (forall a, b | 0 <= a < b < |s| && a != i && b != i :: s[a].dist <= s[b].dist)
    && (forall b | i < b < |s| :: s[i].dist <= s[b].dist)
  }

  lemma {:induction false} UpSorts(s: seq<Slot>, i: nat)
    requires NearlySorted(s, i) && DistinctCells(s)
    ensures Sorted(Raised(s, i)) && DistinctCells(Raised(s, i))
    decreases i
  {
    if i > 0 && s[i].dist < s[i - 1].dist {
      UpSorts(Swap(s, i), i - 1);
    } else if i > 0 {
      forall a | 0 <= a < i ensures s[a].dist <= s[i].dist {
        assert s[a].dist <= s[i - 1].dist;
      }
    }
  }

  /** Summary without the order: this survives any rearrangement of the slots. */
  ghost predicate Selected(s: seq<Slot>, seen: set<Slot>) {
    && |s| <= SLOTS
    && (forall k | 0 <= k < |s| :: Least(s[k], seen))
    && (forall y <- seen :: Holds(s, y.cell) || (|s| == SLOTS && forall k | 0 <= k < |s| :: s[k].dist <= y.dist))
  }

  lemma SwapSelected(s: seq<Slot>, i: nat, seen: set<Slot>)
    requires 0 < i < |s| && Selected(s, seen)
    ensures Selected(Swap(s, i), seen)
  {
    var t := Swap(s, i);
    forall y <- seen ensures Holds(t, y.cell) || (|t| == SLOTS && forall k | 0 <= k < |t| :: t[k].dist <= y.dist) {
      if Holds(s, y.cell) {
        var k :| 0 <= k < |s| && s[k].cell == y.cell;
        assert t[if k == i then i - 1 else if k == i - 1 then i else k].cell == y.cell;
      }
    }
  }

  lemma {:induction false} UpSelected(s: seq<Slot>, i: nat, seen: set<Slot>)
    requires i < |s| && Selected(s, seen)
    ensures Selected(Raised(s, i), seen)
    decreases i
  {
    if i > 0 && s[i].dist < s[i - 1].dist {
      SwapSelected(s, i, seen);
      UpSelected(Swap(s, i), i - 1, seen);
    }
  }

  lemma UpSummary(s: seq<Slot>, i: nat, seen: set<Slot>)
    requires NearlySorted(s, i) && DistinctCells(s) && Selected(s, seen)
    ensures Summary(Raised(s, i), seen)
  {
    UpSorts(s, i);
    UpSelected(s, i, seen);
  }

  lemma ImprovedLeast(s: seq<Slot>, seen: set<Slot>, x: Slot, i: nat, k: nat)
    requires Summary(s, seen) && i < |s| && k < |s| && s[i].cell == x.cell && x.dist < s[i].dist
    ensures Least(s[i := x][k], seen + {x})
  {
    assert Least(s[k], seen);
    assert k != i ==> s[k].cell != s[i].cell;
  }

  lemma ImprovedCovers(s: seq<Slot>, seen: set<Slot>, x: Slot, i: nat, y: Slot)
    requires Summary(s, seen) && i < |s| && s[i].cell == x.cell && x.dist < s[i].dist && y in seen + {x}
    ensures var t := s[i := x]; Holds(t, y.cell) || (|t| == SLOTS && forall k | 0 <= k < |t| :: t[k].dist <= y.dist)
  {
    var t := s[i := x];
    if y == x {
      assert t[i].cell == y.cell;
    } else if Holds(s, y.cell) {
      var k :| 0 <= k < |s| && s[k].cell == y.cell;
      assert t[k].cell == y.cell;
    } else {
      assert forall k | 0 <= k < |s| :: s[k].dist <= s[SLOTS - 1].dist;
    }
  }

  lemma Improved(s: seq<Slot>, seen: set<Slot>, x: Slot, i: nat)
    requires Summary(s, seen) && i < |s| && s[i].cell == x.cell && x.dist < s[i].dist
    ensures NearlySorted(s[i := x], i) && DistinctCells(s[i := x]) && Selected(s[i := x], seen + {x})
  {
    var t := s[i := x];
    forall k | 0 <= k < |t| ensures Least(t[k], seen + {x}) {
      ImprovedLeast(s, seen, x, i, k);
    }
    forall y <- seen + {x}
      ensures Holds(t, y.cell) || (|t| == SLOTS && forall k | 0 <= k < |t| :: t[k].dist <= y.dist)
    {
      ImprovedCovers(s, seen, x, i, y);
    }
    assert Selected(t, seen + {x});
  }

  lemma Appended(s: seq<Slot>, seen: set<Slot>, x: Slot)
    requires Summary(s, seen) && |s| < SLOTS && !Holds(s, x.cell)
    ensures NearlySorted(s + [x], |s|) && DistinctCells(s + [x]) && Selected(s + [x], seen + {x})
  {
    var t := s + [x];
    forall y <- seen + {x} ensures Holds(t, y.cell) {
      if y != x {
        var k :| 0 <= k < |s| && s[k].cell == y.cell;
        assert t[k].cell == y.cell;
      } else {
        assert t[|s|].cell == y.cell;
      }
    }
    assert forall i | 0 <= i < |s| :: Least(s[i], seen + {x}) && t[i] == s[i];
  }

  /** The cell of the last slot makes way; it may come back later only with a nearer site. */
  lemma Replaced(s: seq<Slot>, seen: set<Slot>, x: Slot)
    requires Summary(s, seen) && |s| == SLOTS && !Holds(s, x.cell) && x.dist < s[SLOTS - 1].dist
    ensures NearlySorted(s[SLOTS - 1 := x], SLOTS - 1) && DistinctCells(s[SLOTS - 1 := x])
    ensures Selected(s[SLOTS - 1 := x], seen + {x})
  {
    var t := s[SLOTS - 1 := x];
    forall y <- seen + {x}
      ensures Holds(t, y.cell) || (|t| == SLOTS && forall k | 0 <= k < |t| :: t[k].dist <= y.dist)
    {
      if y == x {
        assert t[SLOTS - 1].cell == y.cell;
      } else if Holds(s, y.cell) && y.cell != s[SLOTS - 1].cell {
        var k :| 0 <= k < |s| && s[k].cell == y.cell;
        assert t[k].cell == y.cell;
      } else {
        assert y.dist >= s[SLOTS - 1].dist by { assert Least(s[SLOTS - 1], seen); }
        assert forall k | 0 <= k < SLOTS :: t[k].dist <= s[SLOTS - 1].dist;
      }
    }
    assert forall i | 0 <= i < |s| - 1 :: Least(s[i], seen + {x});
  }

  lemma Dropped(s: seq<Slot>, seen: set<Slot>, x: Slot)
    requires Summary(s, seen)
    requires (exists i :: 0 <= i < |s| && s[i].cell == x.cell && s[i].dist <= x.dist)
          || (!Holds(s, x.cell) && |s| == SLOTS && x.dist >= s[SLOTS - 1].dist)
    ensures Summary(s, seen + {x})
  {
    assert forall i | 0 <= i < |s| :: Least(s[i], seen);
  }

  /** One addition keeps the promise, also for a cell that was evicted before. */
  lemma PutSummary(s: seq<Slot>, seen: set<Slot>, x: Slot)
    requires Summary(s, seen)
    ensures Summary(Put(s, x), seen + {x})
  {
    var i := Find(s, x.cell);
    if i < |s| {
      if x.dist < s[i].dist {
        Improved(s, seen, x, i);
        UpSummary(s[i := x], i, seen + {x});
      } else {
        Dropped(s, seen, x);
      }
    } else if |s| < SLOTS {
      Appended(s, seen, x);
      UpSummary(s + [x], |s|, seen + {x});
    } else if x.dist < s[|s| - 1].dist {
      Replaced(s, seen, x);
      UpSummary(s[|s| - 1 := x], |s| - 1, seen + {x});
    } else {
      Dropped(s, seen, x);
    }
  }

  ghost function Cells(seen: set<Slot>): set<nat> { set x <- seen :: x.cell }

  ghost function CellsOf(s: seq<Slot>): (c: set<nat>)
    ensures forall i | 0 <= i < |s| :: s[i].cell in c
    ensures forall x <- c :: Holds(s, x)
  {
    if s == [] then {} else
      assert forall x :: Holds(s[..|s| - 1], x) ==> Holds(s, x);
      CellsOf(s[..|s| - 1]) + {s[|s| - 1].cell}
  }

  lemma {:induction false} CellCount(s: seq<Slot>)
    requires DistinctCells(s)
    ensures |CellsOf(s)| == |s|
  {
    if s != [] {
      CellCount(s[..|s| - 1]);
      assert s[|s| - 1].cell !in CellsOf(s[..|s| - 1]);
    }
  }

  /** Main result: after any stream the buffer holds the six nearest cells (all, if there are
      fewer), each with its least distance, and every other cell is at least as far as the last. */
  lemma {:induction false} NearestOfStream(stream: seq<Slot>)
    ensures var s, seen := PutAll([], stream), (set x <- stream);
      && Summary(s, seen)
      && |s| == if |Cells(seen)| < SLOTS then |Cells(seen)| else SLOTS
  {
    var s, seen := PutAll([], stream), (set x <- stream);
    StreamSummary(stream);
    CellCount(s);
    assert CellsOf(s) <= Cells(seen) by {
      forall c <- CellsOf(s) ensures c in Cells(seen) {
        var i :| 0 <= i < |s| && s[i].cell == c;
        assert Least(s[i], seen);
      }
    }
    SubsetSize(CellsOf(s), Cells(seen));
    if |s| < SLOTS {
      assert CellsOf(s) == Cells(seen);
    }
  }

  lemma {:induction false} StreamSummary(stream: seq<Slot>)
    ensures Summary(PutAll([], stream), (set x <- stream))
  {
    if stream != [] {
      var init, x := stream[..|stream| - 1], stream[|stream| - 1];
      StreamSummary(init);
      PutSummary(PutAll([], init), (set y <- init), x);
      assert (set y <- stream) == (set y <- init) + {x};
    }
  }

  // ------------------------------------------------------------ the buffer itself

  class Near {
    const cell: array<nat>
    const dist: array<real>
    var n: nat

    ghost predicate Valid()
      reads this
    {
      cell.Length == SLOTS && dist.Length == SLOTS && n <= SLOTS
    }

    ghost function Slots(): (s: seq<Slot>)
      requires Valid()
      reads this, cell, dist
      ensures |s| == n
    {
      seq(n, i requires 0 <= i < SLOTS && Valid() reads this, cell, dist => Slot(cell[i], dist[i]))
    }

    constructor ()
      ensures Valid() && n == 0 && Slots() == [] && fresh(cell) && fresh(dist)
    {
      cell := new nat[SLOTS](_ => 0);
      dist := new real[SLOTS](_ => 0.0);
      n := 0;
    }

    method Up(start: nat)
      requires Valid() && start < n
      modifies cell, dist
      ensures Slots() == Raised(old(Slots()), start)
    {
      var i := start;
      while i > 0 && dist[i] < dist[i - 1]
        invariant 0 <= i <= start && Raised(Slots(), i) == Raised(old(Slots()), start)
      {
        ghost var before := Slots();
        dist[i], dist[i - 1] := dist[i - 1], dist[i];
        cell[i], cell[i - 1] := cell[i - 1], cell[i];
        assert Slots() == Swap(before, i);
        i := i - 1;
      }
    }

    method Add(c: nat, d: real)
      requires Valid()
      modifies this`n, cell, dist
      ensures Valid() && Slots() == Put(old(Slots()), Slot(c, d))
    {
      ghost var start := Slots();
      for i := 0 to n
        invariant Slots() == start && n == |start|
        invariant forall k | 0 <= k < i :: cell[k] != c
      {
        if cell[i] == c {
          assert Find(start, c) == i by { assert start[i].cell == c; assert forall k | 0 <= k < i :: start[k].cell != c; }
          if d < dist[i] {
            dist[i] := d;
            assert Slots() == start[i := Slot(c, d)];
            Up(i);
          }
          return;
        }
      }
      assert Find(start, c) == n by { assert forall k | 0 <= k < n :: start[k].cell != c; }
      if n < SLOTS {
        cell[n], dist[n] := c, d;
        n := n + 1;
        assert Slots() == start + [Slot(c, d)];
        Up(n - 1);
      } else if d < dist[SLOTS - 1] {
        cell[SLOTS - 1], dist[SLOTS - 1] := c, d;
        assert Slots() == start[SLOTS - 1 := Slot(c, d)];
        Up(SLOTS - 1);
      }
    }

    /** Add, in terms of what the buffer promises. */
    method Record(c: nat, d: real, ghost seen: set<Slot>)
      requires Valid() && Summary(Slots(), seen)
      modifies this`n, cell, dist
      ensures Valid() && Summary(Slots(), seen + {Slot(c, d)})
    {
      PutSummary(Slots(), seen, Slot(c, d));
      Add(c, d);
    }
  }
}
