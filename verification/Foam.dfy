/**
 The curved-cell partition of internal/cells/cells.go: sites in a uniform grid of buckets, and a
 point lookup that walks expanding square rings of buckets and stops early.

 Coordinates are exact reals. The Euclidean length is any function `hyp` that is at least as large
 as both components.
 */
module Foam {
  import opened Basics
  import opened NearestCells

  datatype Site = Site(x: real, y: real, w: real)

  datatype Grid = Grid(minX: real, minY: real, cell: real, cols: nat, rows: nat)

  datatype Foam = Foam(
    sites: seq<Site>, group: seq<nat>, node: real, round: real,
    grid: Grid, buckets: seq<seq<nat>>, maxW: real, hyp: (real, real) -> real)

  /** `gap` is the unrounded part of the wall distance, None when only one cell is in range. */
  datatype Hit = Hit(cell: nat, next: Option<nat>, gap: Option<real>)

  function Max(a: real, b: real): real { if a >= b then a else b }

  function Abs(a: real): real { if a >= 0.0 then a else -a }

  ghost predicate Norm(hyp: (real, real) -> real) {
    forall a, b :: hyp(a, b) >= Abs(a) && hyp(a, b) >= Abs(b)
  }

  // ------------------------------------------------------------ grid arithmetic

  /** Conversion to int drops the fraction, toward zero. */
  function Trunc(x: real): int { if x >= 0.0 then x.Floor else -(-x).Floor }

  /** col and row: the index along one axis, pinned to the grid. */
  function Pin(q: real, count: nat): (i: nat)
    requires count >= 1
    ensures i < count
  {
    var t := Trunc(q);
    if t < 0 then 0 else if t > count - 1 then count - 1 else t
  }

  predicate Grounded(g: Grid) { g.cell > 0.0 && g.cols >= 1 && g.rows >= 1 }

  function Col(g: Grid, x: real): (c: nat)
    requires Grounded(g)
    ensures c < g.cols
  {
    Pin((x - g.minX) / g.cell, g.cols)
  }

  function Row(g: Grid, y: real): (r: nat)
    requires Grounded(g)
    ensures r < g.rows
  {
    Pin((y - g.minY) / g.cell, g.rows)
  }

  /** k bucket sizes, defined by repeated addition to keep products out of the geometry. */
  function Span(k: int, cell: real): real
    decreases if k < 0 then -k else k
  {
    if k == 0 then 0.0 else if k > 0 then Span(k - 1, cell) + cell else Span(k + 1, cell) - cell
  }

  lemma {:induction false} SpanIs(k: int, cell: real)
    ensures Span(k, cell) == k as real * cell
    decreases if k < 0 then -k else k
  {
    if k > 0 {
      SpanIs(k - 1, cell);
    } else if k < 0 {
      SpanIs(k + 1, cell);
    }
  }

  lemma {:induction false} SpanMonotone(a: int, b: int, cell: real)
    requires a <= b && cell > 0.0
    ensures Span(a, cell) <= Span(b, cell)
    decreases b - a
  {
    if a < b { SpanMonotone(a, b - 1, cell); }
  }

  /** A quotient between integers puts the dividend between their spans. */
  lemma SpanQuotient(q: real, k: int, cell: real)
    requires cell > 0.0
    ensures q < k as real ==> q * cell < Span(k, cell)
    ensures q >= k as real ==> q * cell >= Span(k, cell)
  {
    SpanIs(k, cell);
    if q < k as real {
      assert (k as real - q) * cell > 0.0;
    } else {
      assert (q - k as real) * cell >= 0.0;
    }
  }

  /** A bucket by its coordinates. */
  datatype Spot = Spot(col: nat, row: nat)

  function Place(g: Grid, x: real, y: real): (p: Spot)
    requires Grounded(g)
    ensures p.col < g.cols && p.row < g.rows
  {
    Spot(Col(g, x), Row(g, y))
  }

  function Places(g: Grid, sites: seq<Site>): (p: seq<Spot>)
    requires Grounded(g)
    ensures |p| == |sites|
    ensures forall i | 0 <= i < |p| :: p[i].col < g.cols && p[i].row < g.rows
  {
    seq(|sites|, i requires 0 <= i < |sites| => Place(g, sites[i].x, sites[i].y))
  }

  /** The grid covers the point without pinning. */
  predicate Covered(g: Grid, x: real, y: real)
    requires Grounded(g)
  {
    g.minX <= x < g.minX + Span(g.cols, g.cell) && g.minY <= y < g.minY + Span(g.rows, g.cell)
  }

  /** The first n sites that lie in bucket p, in order. */
  ghost function Members(places: seq<Spot>, p: Spot, n: nat): (m: seq<nat>)
    requires n <= |places|
    ensures forall i: nat :: i in m <==> i < n && places[i] == p
  {
    if n == 0 then [] else Members(places, p, n - 1) + (if places[n - 1] == p then [n - 1] else [])
  }

  /** The flat bucket array holds the first n sites, each in its own bucket only. */
  ghost predicate Filled(places: seq<Spot>, n: nat, buckets: seq<seq<nat>>, cols: nat, rows: nat)
    requires n <= |places|
  {
    && |buckets| == cols * rows
    && forall p: Spot | p.col < cols && p.row < rows ::
         0 <= p.row * cols + p.col < |buckets| && buckets[p.row * cols + p.col] == Members(places, p, n)
  }

  /** Site i lies in bucket places[i], the buckets list exactly these sites, and no weight is
      larger than maxW. */
  ghost predicate Laid(f: Foam, places: seq<Spot>) {
    && |places| == |f.sites| == |f.group| && Grounded(f.grid) && Norm(f.hyp)
    && Filled(places, |places|, f.buckets, f.grid.cols, f.grid.rows)
    && (forall i | 0 <= i < |places| :: places[i].col < f.grid.cols && places[i].row < f.grid.rows)
    && (forall i | 0 <= i < |places| :: Placed(f, places[i], i))
  }

  ghost predicate Placed(f: Foam, p: Spot, i: nat)
    requires i < |f.sites| && Grounded(f.grid)
  {
    var s := f.sites[i];
    s.w <= f.maxW && Covered(f.grid, s.x, s.y) && Fits(f.grid, s.x, s.y, p)
  }

  ghost predicate Valid(f: Foam) {
    |f.sites| > 0 && |f.group| == |f.sites| && f.node > 0.0 && f.round >= 0.0 && exists places :: Laid(f, places)
  }

  // ------------------------------------------------------------------- building

  /** New and build. `root` is the computed square root of the area per site. */
  method New(sites: seq<Site>, group: seq<nat>, aspect: real, node: real, round: real, root: real, hyp: (real, real) -> real)
    returns (f: Foam)
    requires |sites| > 0 && |group| == |sites| && Norm(hyp)
    ensures Valid(f) && f.sites == sites && f.group == group && f.hyp == hyp
    ensures f.node == Max(node, 0.000000001) && f.round == Max(round, 0.0)
    ensures f.grid.cell == Max(root, 0.000001)
    ensures f.maxW == 0.0 || exists i :: 0 <= i < |sites| && f.maxW == sites[i].w
    ensures forall x, y | 0.0 <= x <= aspect && 0.0 <= y <= 1.0 :: Covered(f.grid, x, y)
  {
    hide Filled;
    var minX, minY, maxX, maxY, maxW := 0.0, 0.0, aspect, 1.0, 0.0;
    for i := 0 to |sites|
      invariant minX <= 0.0 && minY <= 0.0 && maxX >= aspect && maxY >= 1.0 && maxW >= 0.0
      invariant maxW == 0.0 || exists k :: 0 <= k < i && maxW == sites[k].w
      invariant forall k | 0 <= k < i ::
        minX <= sites[k].x <= maxX && minY <= sites[k].y <= maxY && sites[k].w <= maxW
    {
      minX, minY := Min(minX, sites[i].x), Min(minY, sites[i].y);
      maxX, maxY := Max(maxX, sites[i].x), Max(maxY, sites[i].y);
      maxW := Max(maxW, sites[i].w);
    }
    var w, h := Max(maxX - minX, 0.000001), Max(maxY - minY, 0.000001);
    var cell := Max(root, 0.000001);
    var cols, rows := Count(w, cell), Count(h, cell);
    var grid := Grid(minX, minY, cell, cols, rows);
    forall x, y | minX <= x <= maxX && minY <= y <= maxY ensures Covered(grid, x, y) {
      CountCovers(w, cell);
      CountCovers(h, cell);
    }
    var buckets := Fill(grid, sites);
    f := Foam(sites, group, Max(node, 0.000000001), Max(round, 0.0), grid, buckets, maxW, hyp);
    forall i | 0 <= i < |sites| ensures Fits(grid, sites[i].x, sites[i].y, Places(grid, sites)[i]) {
      PlaceFits(grid, sites[i].x, sites[i].y);
    }
    assert Laid(f, Places(grid, sites));
  }

  function Count(w: real, cell: real): nat
    requires w > 0.0 && cell > 0.0
  {
    var t := Trunc(w / cell) + 1;
    if t < 1 then 1 else t
  }

  lemma CountCovers(w: real, cell: real)
    requires w > 0.0 && cell > 0.0
    ensures w < Span(Count(w, cell), cell)
  {
    var q := w / cell;
    assert q * cell == w;
    assert q > 0.0;
    SpanQuotient(q, Count(w, cell), cell);
  }

  method Fill(g: Grid, sites: seq<Site>) returns (buckets: seq<seq<nat>>)
    requires Grounded(g)
    ensures Filled(Places(g, sites), |sites|, buckets, g.cols, g.rows)
  {
    hide Filled, Members;
    ghost var places := Places(g, sites);
    buckets := seq(g.cols * g.rows, _ => []);
    EmptyFilled(places, buckets, g.cols, g.rows);
    for i := 0 to |sites|
      invariant Filled(places, i, buckets, g.cols, g.rows)
    {
      var p := Place(g, sites[i].x, sites[i].y);
      FilledOne(places, i, buckets, g.cols, g.rows);
      var b := p.row * g.cols + p.col;
      buckets := buckets[b := buckets[b] + [i]];
    }
  }

  lemma EmptyFilled(places: seq<Spot>, buckets: seq<seq<nat>>, cols: nat, rows: nat)
    requires |buckets| == cols * rows && forall b | 0 <= b < |buckets| :: buckets[b] == []
    ensures Filled(places, 0, buckets, cols, rows)
  {
    forall p: Spot | p.col < cols && p.row < rows ensures 0 <= p.row * cols + p.col < |buckets| {
      IndexRange(p.col, p.row, cols, rows);
    }
  }

  lemma FilledOne(places: seq<Spot>, i: nat, buckets: seq<seq<nat>>, cols: nat, rows: nat)
    requires i < |places| && Filled(places, i, buckets, cols, rows)
    requires places[i].col < cols && places[i].row < rows
    ensures var b := places[i].row * cols + places[i].col;
      0 <= b < |buckets| && Filled(places, i + 1, buckets[b := buckets[b] + [i]], cols, rows)
  {
    var b := places[i].row * cols + places[i].col;
    IndexRange(places[i].col, places[i].row, cols, rows);
    var after := buckets[b := buckets[b] + [i]];
    forall p: Spot | p.col < cols && p.row < rows
      ensures 0 <= p.row * cols + p.col < |after| && after[p.row * cols + p.col] == Members(places, p, i + 1)
    {
      IndexRange(p.col, p.row, cols, rows);
      if p.row * cols + p.col == b { IndexInjective(p.col, p.row, places[i].col, places[i].row, cols); }
    }
  }

  // ------------------------------------------------------------ brute-force view

  /** The weighted distance of every site. */
  ghost function Distances(f: Foam, u: real, v: real): (d: seq<real>)
    ensures |d| == |f.sites|
    ensures forall i | 0 <= i < |d| :: d[i] == (f.hyp)(f.sites[i].x - u, f.sites[i].y - v) - f.sites[i].w
  {
    seq(|f.sites|, i requires 0 <= i < |f.sites| => (f.hyp)(f.sites[i].x - u, f.sites[i].y - v) - f.sites[i].w)
  }

  /** Some site of the cell is at weighted distance d. */
  ghost predicate Attained(group: seq<nat>, dist: seq<real>, cell: nat, d: real)
    requires |group| == |dist|
  {
    exists i :: 0 <= i < |group| && group[i] == cell && dist[i] == d
  }

  /** What is known about site j: its cell is kept at least as near, or six nearer cells are, or
      the early exit skipped it, more than `range` behind the second cell. */
  ghost predicate Settled(group: seq<nat>, dist: seq<real>, range: real, s: seq<Slot>, j: nat)
    requires j < |group| == |dist|
  {
    || (exists k :: 0 <= k < |s| && s[k].cell == group[j] && s[k].dist <= dist[j])
    || (|s| == SLOTS && s[SLOTS - 1].dist <= dist[j])
    || (|s| >= 2 && s[1].dist + range < dist[j])
  }

  ghost predicate Faithful(group: seq<nat>, dist: seq<real>, range: real, s: seq<Slot>)
    requires |group| == |dist|
  {
    && Sorted(s) && DistinctCells(s)
    && (forall k | 0 <= k < |s| :: Attained(group, dist, s[k].cell, s[k].dist))
    && (forall j | 0 <= j < |group| :: Settled(group, dist, range, s, j))
  }

  /** Slot 0 attains the least weighted distance over all sites. */
  lemma FirstIsNearest(group: seq<nat>, dist: seq<real>, range: real, s: seq<Slot>, j: nat)
    requires |group| == |dist| && range >= 0.0 && Faithful(group, dist, range, s) && j < |group|
    ensures |s| >= 1 && s[0].dist <= dist[j]
  {
    assert Settled(group, dist, range, s, j);
  }

  /** Slot 1 attains the least weighted distance over the sites of all other cells. */
  lemma SecondIsNext(group: seq<nat>, dist: seq<real>, range: real, s: seq<Slot>, j: nat)
    requires |group| == |dist| && range >= 0.0 && Faithful(group, dist, range, s) && j < |group|
    requires |s| >= 1 && group[j] != s[0].cell
    ensures |s| >= 2 && s[1].dist <= dist[j]
  {
    assert Settled(group, dist, range, s, j);
  }

  /** A slot within range of the second cell carries the exact distance of its cell. */
  lemma SlotIsExact(group: seq<nat>, dist: seq<real>, range: real, s: seq<Slot>, k: nat, j: nat)
    requires |group| == |dist| && range >= 0.0 && Faithful(group, dist, range, s)
    requires k < |s| && j < |group| && group[j] == s[k].cell
    requires k < 2 || s[k].dist <= s[1].dist + range
    ensures s[k].dist <= dist[j]
  {
    assert Settled(group, dist, range, s, j);
    if i :| 0 <= i < |s| && s[i].cell == group[j] && s[i].dist <= dist[j] {
      assert i == k;
    }
  }

  // ------------------------------------------------------------ rings of buckets

  function Diff(a: int, b: int): nat { if a >= b then a - b else b - a }

  /** Chebyshev distance in buckets. */
  function Chebyshev(p: Spot, q: Spot): (r: nat)
    ensures r >= Diff(p.col, q.col) && r >= Diff(p.row, q.row)
    ensures r == Diff(p.col, q.col) || r == Diff(p.row, q.row)
  {
    var dc, dr := Diff(p.col, q.col), Diff(p.row, q.row);
    if dc >= dr then dc else dr
  }

  /** Index k along one axis: x lies in strip k, or beyond the edge strip it is pinned to. */
  predicate Pinned(x: real, min: real, cell: real, count: nat, k: nat) {
    && k < count
    && (k > 0 ==> min + Span(k, cell) <= x)
    && (k < count - 1 ==> x < min + Span(k + 1, cell))
  }

  lemma PinPinned(x: real, min: real, cell: real, count: nat)
    requires cell > 0.0 && count >= 1
    ensures Pinned(x, min, cell, count, Pin((x - min) / cell, count))
  {
    var q := (x - min) / cell;
    var k := Pin(q, count);
    SpanQuotient(q, k, cell);
    SpanQuotient(q, k + 1, cell);
  }

  /** Along one axis: r strips apart means at least r - 1 bucket sizes apart, wherever u lies. */
  lemma AxisApart(x: real, u: real, min: real, cell: real, count: nat, c: nat, k: nat)
    requires cell > 0.0 && min <= x < min + Span(count, cell)
    requires Pinned(x, min, cell, count, c) && Pinned(u, min, cell, count, k)
    ensures Apart(x, u, cell, c, k)
  {
    if c > k {
      SpanDifference(c, k + 1, cell);
    } else if c < k {
      SpanDifference(k, c + 1, cell);
    }
  }

  lemma SpanDifference(a: int, b: int, cell: real)
    ensures Span(a - b, cell) == Span(a, cell) - Span(b, cell)
  {
    SpanIs(a, cell);
    SpanIs(b, cell);
    SpanIs(a - b, cell);
    assert (a - b) as real * cell == a as real * cell - b as real * cell;
  }

  /** The strips are no nearer than their indices say. */
  predicate Apart(x: real, u: real, cell: real, c: nat, k: nat) { Span(Diff(c, k) - 1, cell) <= Abs(x - u) }

  /** The point lies in bucket p, or is pinned to it. */
  predicate Fits(g: Grid, x: real, y: real, p: Spot) {
    Pinned(x, g.minX, g.cell, g.cols, p.col) && Pinned(y, g.minY, g.cell, g.rows, p.row)
  }

  lemma PlaceFits(g: Grid, x: real, y: real)
    requires Grounded(g)
    ensures Fits(g, x, y, Place(g, x, y))
  {
    PinPinned(x, g.minX, g.cell, g.cols);
    PinPinned(y, g.minY, g.cell, g.rows);
  }

  lemma FitsApart(g: Grid, x: real, y: real, u: real, v: real, p: Spot, q: Spot)
    requires Grounded(g) && Covered(g, x, y) && Fits(g, x, y, p) && Fits(g, u, v, q)
    ensures Apart(x, u, g.cell, p.col, q.col) && Apart(y, v, g.cell, p.row, q.row)
  {
    AxisApart(x, u, g.minX, g.cell, g.cols, p.col, q.col);
    AxisApart(y, v, g.minY, g.cell, g.rows, p.row, q.row);
  }

  lemma WiderApart(x: real, y: real, u: real, v: real, cell: real, p: Spot, q: Spot)
    requires Apart(x, u, cell, p.col, q.col) && Apart(y, v, cell, p.row, q.row)
    ensures Span(Chebyshev(p, q) - 1, cell) <= Max(Abs(x - u), Abs(y - v))
  {
  }

  lemma NormFloor(hyp: (real, real) -> real, a: real, b: real)
    requires Norm(hyp)
    ensures hyp(a, b) >= Max(Abs(a), Abs(b))
  {
  }

  /** No site is nearer, by weighted distance, than its offset less the largest weight. */
  lemma SiteFloor(f: Foam, u: real, v: real, i: nat, reach: real)
    requires |f.sites| > i && f.sites[i].w <= f.maxW && Norm(f.hyp)
    requires reach <= Max(Abs(f.sites[i].x - u), Abs(f.sites[i].y - v))
    ensures reach - f.maxW <= Distances(f, u, v)[i]
  {
    NormFloor(f.hyp, f.sites[i].x - u, f.sites[i].y - v);
  }

  ghost function Entries(group: seq<nat>, dist: seq<real>, done: set<nat>): set<Slot>
    requires |group| == |dist| && forall i <- done :: i < |group|
  {
    set i <- done :: Slot(group[i], dist[i])
  }

  /** The sites of rings 0 to r - 1 around q. */
  ghost function Inside(places: seq<Spot>, q: Spot, r: nat): set<nat> {
    set i: nat | i < |places| && Chebyshev(places[i], q) < r
  }

  /** Stopping is right once all sites of the remaining rings are out of range. */
  lemma EarlyExit(group: seq<nat>, dist: seq<real>, range: real, done: set<nat>, s: seq<Slot>)
    requires |group| == |dist| && (forall i <- done :: i < |group|) && Summary(s, Entries(group, dist, done))
    requires forall j: nat | j < |group| && j !in done :: |s| >= 2 && s[1].dist + range < dist[j]
    ensures Faithful(group, dist, range, s)
  {
    var seen := Entries(group, dist, done);
    forall k | 0 <= k < |s| ensures Attained(group, dist, s[k].cell, s[k].dist) {
      assert Least(s[k], seen);
    }
    forall j: nat | j < |group| ensures Settled(group, dist, range, s, j) {
      if j in done {
        assert Slot(group[j], dist[j]) in seen;
        if Holds(s, group[j]) {
          var k :| 0 <= k < |s| && s[k].cell == group[j];
          assert Least(s[k], seen);
        }
      }
    }
  }

  /** The exit test of At for ring r. */
  ghost predicate Beyond(f: Foam, r: nat, d: real) { Span(r - 1, f.grid.cell) - f.maxW > d }

  /** A site in ring r or farther out is at least (r - 1) bucket sizes away. */
  lemma RingFloor(x: real, y: real, u: real, v: real, cell: real, p: Spot, q: Spot, r: nat)
    requires Apart(x, u, cell, p.col, q.col) && Apart(y, v, cell, p.row, q.row)
    requires cell > 0.0 && Chebyshev(p, q) >= r
    ensures Span(r - 1, cell) <= Max(Abs(x - u), Abs(y - v))
  {
    WiderApart(x, y, u, v, cell, p, q);
    SpanMonotone(r - 1, Chebyshev(p, q) - 1, cell);
  }

  lemma SiteBeyond(f: Foam, u: real, v: real, r: nat, d: real, j: nat)
    requires j < |f.sites| && f.sites[j].w <= f.maxW && Norm(f.hyp) && Beyond(f, r, d)
    requires Span(r - 1, f.grid.cell) <= Max(Abs(f.sites[j].x - u), Abs(f.sites[j].y - v))
    ensures d < Distances(f, u, v)[j]
  {
    SiteFloor(f, u, v, j, Span(r - 1, f.grid.cell));
  }

  lemma SiteApart(g: Grid, x: real, y: real, u: real, v: real, p: Spot, q: Spot, r: nat)
    requires Grounded(g) && Covered(g, x, y) && Fits(g, x, y, p) && Fits(g, u, v, q) && Chebyshev(p, q) >= r
    ensures Span(r - 1, g.cell) <= Max(Abs(x - u), Abs(y - v))
  {
    FitsApart(g, x, y, u, v, p, q);
    RingFloor(x, y, u, v, g.cell, p, q, r);
  }

  /** The floor of ring r passing d puts every site of the rings from r on beyond d. */
  lemma Outside(f: Foam, places: seq<Spot>, u: real, v: real, q: Spot, r: nat, d: real, j: nat)
    requires Grounded(f.grid) && Norm(f.hyp) && Fits(f.grid, u, v, q) && Beyond(f, r, d)
    requires j < |f.sites| == |places| && Placed(f, places[j], j) && j !in Inside(places, q, r)
    ensures d < Distances(f, u, v)[j]
  {
    SiteApart(f.grid, f.sites[j].x, f.sites[j].y, u, v, places[j], q, r);
    SiteBeyond(f, u, v, r, d, j);
  }

  // ----------------------------------------------------------------- the lookup

  ghost function Elements(m: seq<nat>): (e: set<nat>)
    ensures forall i: nat :: i in e <==> i in m
  {
    set i | i in m
  }

  ghost predicate Gathered(group: seq<nat>, dist: seq<real>, done: set<nat>, s: seq<Slot>)
    requires |group| == |dist|
  {
    (forall i <- done :: i < |group|) && Summary(s, Entries(group, dist, done))
  }

  lemma EntriesGrow(group: seq<nat>, dist: seq<real>, done: set<nat>, i: nat)
    requires |group| == |dist| && (forall k <- done :: k < |group|) && i < |group|
    ensures Entries(group, dist, done + {i}) == Entries(group, dist, done) + {Slot(group[i], dist[i])}
  {
  }

  lemma ElementsGrow(members: seq<nat>, k: nat)
    requires k < |members|
    ensures Elements(members[..k + 1]) == Elements(members[..k]) + {members[k]}
  {
    assert members[..k + 1] == members[..k] + [members[k]];
  }

  method VisitOne(cell: nat, d: real, nb: Near, ghost group: seq<nat>, ghost dist: seq<real>, ghost i: nat, ghost done: set<nat>)
    requires i < |group| == |dist| && cell == group[i] && d == dist[i]
    requires nb.Valid() && Gathered(group, dist, done, nb.Slots())
    modifies nb`n, nb.cell, nb.dist
    ensures nb.Valid() && Gathered(group, dist, done + {i}, nb.Slots())
  {
    EntriesGrow(group, dist, done, i);
    nb.Record(cell, d, Entries(group, dist, done));
  }

  /** The sites of one bucket. */
  method Visit(f: Foam, u: real, v: real, members: seq<nat>, nb: Near, ghost done: set<nat>)
    requires |f.group| == |f.sites| && forall k | 0 <= k < |members| :: members[k] < |f.sites|
    requires nb.Valid() && Gathered(f.group, Distances(f, u, v), done, nb.Slots())
    modifies nb`n, nb.cell, nb.dist
    ensures nb.Valid() && Gathered(f.group, Distances(f, u, v), done + Elements(members), nb.Slots())
  {
    assert done + Elements(members[..0]) == done;
    for k := 0 to |members|
      invariant nb.Valid() && Gathered(f.group, Distances(f, u, v), done + Elements(members[..k]), nb.Slots())
    {
      var i := members[k];
      VisitOne(f.group[i], (f.hyp)(f.sites[i].x - u, f.sites[i].y - v) - f.sites[i].w, nb,
        f.group, Distances(f, u, v), i, done + Elements(members[..k]));
      ElementsGrow(members, k);
      assert done + Elements(members[..k + 1]) == done + Elements(members[..k]) + {i};
    }
    assert members[..|members|] == members;
  }

  /** The sites of ring r in buckets before (row, col), reading row by row. */
  ghost function Passed(places: seq<Spot>, q: Spot, r: nat, row: int, col: int): set<nat> {
    set i: nat | i < |places| && Chebyshev(places[i], q) == r
      && (places[i].row < row || (places[i].row == row && places[i].col < col))
  }

  /** Everything known once the rings inside r and part of ring r are done. */
  ghost function Done(places: seq<Spot>, q: Spot, r: nat, row: int, col: int): set<nat> {
    Inside(places, q, r) + Passed(places, q, r, row, col)
  }

  /** Moving on by one step passes exactly the bucket just visited. */
  lemma RingStep(places: seq<Spot>, q: Spot, r: nat, row: int, col: int, step: nat)
    requires Strides(q, r, row, col, step)
    ensures Done(places, q, r, row, col + step) ==
      Done(places, q, r, row, col) + In(places, row, col)
  {
    var bucket := In(places, row, col);
    forall i: nat | i < |places|
      ensures i in Passed(places, q, r, row, col + step) <==> i in Passed(places, q, r, row, col) + bucket
    {
    }
    assert Passed(places, q, r, row, col + step) == Passed(places, q, r, row, col) + bucket;
  }

  lemma BucketAt(f: Foam, places: seq<Spot>, p: Spot)
    requires Laid(f, places) && p.col < f.grid.cols && p.row < f.grid.rows
    ensures 0 <= p.row * f.grid.cols + p.col < |f.buckets|
    ensures var b := f.buckets[p.row * f.grid.cols + p.col];
      Elements(b) == In(places, p.row, p.col) && forall k | 0 <= k < |b| :: b[k] < |places|
  {
    var b := f.buckets[p.row * f.grid.cols + p.col];
    assert b == Members(places, p, |places|);
    forall k | 0 <= k < |b| ensures b[k] < |places| { assert b[k] in b; }
  }

  method VisitAt(f: Foam, p: Spot, u: real, v: real, nb: Near, ghost places: seq<Spot>, ghost done: set<nat>)
    requires Laid(f, places) && nb.Valid() && p.col < f.grid.cols && p.row < f.grid.rows
    requires Gathered(f.group, Distances(f, u, v), done, nb.Slots())
    modifies nb`n, nb.cell, nb.dist
    ensures nb.Valid() && Gathered(f.group, Distances(f, u, v), done + In(places, p.row, p.col), nb.Slots())
  {
    BucketAt(f, places, p);
    Visit(f, u, v, f.buckets[p.row * f.grid.cols + p.col], nb, done);
  }

  /** The step of the walk along ring r from column col of a row. */
  ghost predicate Strides(q: Spot, r: nat, row: int, col: int, step: int) {
    && q.col - r <= col <= q.col + r && Diff(row, q.row) <= r
    && if r > 0 && Diff(row, q.row) < r then step == 2 * r && (col == q.col - r || col == q.col + r) else step == 1
  }

  method RingCell(f: Foam, q: Spot, r: nat, row: nat, col: int, ghost step: nat, u: real, v: real, nb: Near, ghost places: seq<Spot>)
    requires Laid(f, places) && nb.Valid() && row < f.grid.rows && Strides(q, r, row, col, step)
    requires Gathered(f.group, Distances(f, u, v), Done(places, q, r, row, col), nb.Slots())
    modifies nb`n, nb.cell, nb.dist
    ensures nb.Valid()
    ensures Gathered(f.group, Distances(f, u, v), Done(places, q, r, row, col + step), nb.Slots())
  {
    if 0 <= col < f.grid.cols {
      VisitAt(f, Spot(col, row), u, v, nb, places, Done(places, q, r, row, col));
    } else {
      NoBucket(places, row, col, f.grid.cols);
    }
    RingStep(places, q, r, row, col, step);
  }

  /** One row of a ring: all its buckets on the edge rows, only the two edge columns between. */
  method RingRow(f: Foam, q: Spot, r: nat, row: nat, u: real, v: real, nb: Near, ghost places: seq<Spot>)
    requires Laid(f, places) && nb.Valid() && row < f.grid.rows && Diff(row, q.row) <= r
    requires Gathered(f.group, Distances(f, u, v), Done(places, q, r, row, q.col - r), nb.Slots())
    modifies nb`n, nb.cell, nb.dist
    ensures nb.Valid()
    ensures Gathered(f.group, Distances(f, u, v), Done(places, q, r, row + 1, q.col - r), nb.Slots())
  {
    var step := 1;
    if r > 0 && row != q.row - r && row != q.row + r { step := 2 * r; }
    var col := q.col - r;
    ghost var done := Done(places, q, r, row, col);
    while col <= q.col + r
      invariant nb.Valid() && q.col - r <= col <= q.col + r + step
      invariant step == 1 || col == q.col - r || col == q.col + r || col == q.col + r + step
      invariant done == Done(places, q, r, row, col)
      invariant Gathered(f.group, Distances(f, u, v), done, nb.Slots())
      decreases q.col + r + step - col
    {
      RingCell(f, q, r, row, col, step, u, v, nb, places);
      done := Done(places, q, r, row, col + step);
      col := col + step;
    }
    RowDone(places, q, r, row, col);
  }

  ghost function In(places: seq<Spot>, row: int, col: int): set<nat> {
    set i: nat | i < |places| && places[i].row == row && places[i].col == col
  }

  lemma NoBucket(places: seq<Spot>, row: int, col: int, cols: nat)
    requires !(0 <= col < cols) && forall i | 0 <= i < |places| :: places[i].col < cols
    ensures In(places, row, col) == {}
  {
  }

  lemma RowDone(places: seq<Spot>, q: Spot, r: nat, row: int, col: int)
    requires col > q.col + r
    ensures Done(places, q, r, row, col) == Done(places, q, r, row + 1, q.col - r)
  {
    assert Passed(places, q, r, row, col) == Passed(places, q, r, row + 1, q.col - r);
  }

  lemma RowMissing(places: seq<Spot>, q: Spot, r: nat, row: int, rows: nat)
    requires !(0 <= row < rows) && forall i | 0 <= i < |places| :: places[i].row < rows
    ensures Done(places, q, r, row, q.col - r) == Done(places, q, r, row + 1, q.col - r)
  {
    assert Passed(places, q, r, row, q.col - r) == Passed(places, q, r, row + 1, q.col - r);
  }

  lemma RingBounds(places: seq<Spot>, q: Spot, r: nat)
    ensures Inside(places, q, r) == Done(places, q, r, q.row - r, q.col - r)
    ensures Inside(places, q, r + 1) == Done(places, q, r, q.row + r + 1, q.col - r)
  {
    assert Passed(places, q, r, q.row - r, q.col - r) == {};
  }

  /** ring: every bucket at Chebyshev distance r, and thereby exactly the sites of ring r. */
  method Ring(f: Foam, q: Spot, r: nat, u: real, v: real, nb: Near, ghost places: seq<Spot>)
    requires Laid(f, places) && nb.Valid()
    requires Gathered(f.group, Distances(f, u, v), Inside(places, q, r), nb.Slots())
    modifies nb`n, nb.cell, nb.dist
    ensures nb.Valid() && Gathered(f.group, Distances(f, u, v), Inside(places, q, r + 1), nb.Slots())
  {
    hide Gathered, Done, Inside, Filled, Placed;
    RingBounds(places, q, r);
    for row := q.row - r to q.row + r + 1
      invariant nb.Valid() && Gathered(f.group, Distances(f, u, v), Done(places, q, r, row, q.col - r), nb.Slots())
    {
      if row < 0 || row >= f.grid.rows {
        RowMissing(places, q, r, row, f.grid.rows);
      } else {
        RingRow(f, q, r, row, u, v, nb, places);
      }
    }
  }

  /** How far behind the second cell a cell may lie and still matter. */
  function Range(f: Foam): real { 6.0 * Max(f.node, f.round) }

  /** The exit test: the floor of ring r is more than Range beyond the second cell. */
  method Passes(f: Foam, r: nat, nb: Near) returns (stop: bool)
    requires nb.Valid()
    ensures stop == (nb.n >= 2 && Beyond(f, r, nb.Slots()[1].dist + Range(f)))
  {
    stop := nb.n >= 2 && (r - 1) as real * f.grid.cell - f.maxW > nb.dist[1] + 6.0 * Max(f.node, f.round);
    SpanIs(r - 1, f.grid.cell);
  }

  /** The ring walk of At from bucket q. `apart` is what the geometry guarantees for ring r. */
  method Walk(f: Foam, q: Spot, u: real, v: real, nb: Near, ghost places: seq<Spot>)
    requires Laid(f, places) && nb.Valid() && nb.n == 0 && q.col < f.grid.cols && q.row < f.grid.rows
    requires forall r: nat, d: real, j: nat | Beyond(f, r, d) && j < |f.sites| && j !in Inside(places, q, r) ::
      d < Distances(f, u, v)[j]
    modifies nb`n, nb.cell, nb.dist
    ensures nb.Valid() && Faithful(f.group, Distances(f, u, v), Range(f), nb.Slots())
  {
    ghost var dist := Distances(f, u, v);
    var maxR := if f.grid.cols >= f.grid.rows then f.grid.cols else f.grid.rows;
    assert Inside(places, q, 0) == {};
    for r := 0 to maxR + 1
      invariant nb.Valid() && Gathered(f.group, dist, Inside(places, q, r), nb.Slots())
    {
      var stop := Passes(f, r, nb);
      if stop {
        EarlyExit(f.group, dist, Range(f), Inside(places, q, r), nb.Slots());
        return;
      }
      Ring(f, q, r, u, v, nb, places);
    }
    EarlyExit(f.group, dist, Range(f), Inside(places, q, maxR + 1), nb.Slots());
  }

  /** The ring walk of At. */
  method Search(f: Foam, u: real, v: real) returns (nb: Near)
    requires Valid(f)
    ensures fresh(nb) && nb.Valid() && fresh(nb.cell) && fresh(nb.dist)
    ensures Faithful(f.group, Distances(f, u, v), 6.0 * (if f.node >= f.round then f.node else f.round), nb.Slots())
  {
    hide Faithful, Beyond, Inside, Filled, Placed;
    nb := new Near();
    ghost var places :| Laid(f, places);
    var q := Place(f.grid, u, v);
    PlaceFits(f.grid, u, v);
    forall r: nat, d: real, j: nat | Beyond(f, r, d) && j < |f.sites| && j !in Inside(places, q, r)
      ensures d < Distances(f, u, v)[j]
    {
      Outside(f, places, u, v, q, r, d, j);
    }
    Walk(f, q, u, v, nb, places);
  }

  ghost predicate NearestIs(group: seq<nat>, dist: seq<real>, cell: nat, d: real)
    requires |group| == |dist|
  {
    Attained(group, dist, cell, d) && forall j | 0 <= j < |group| :: d <= dist[j]
  }

  ghost predicate NextIs(group: seq<nat>, dist: seq<real>, first: nat, cell: nat, d: real)
    requires |group| == |dist|
  {
    cell != first && Attained(group, dist, cell, d)
    && forall j | 0 <= j < |group| && group[j] != first :: d <= dist[j]
  }

  /** What a search over all sites would answer. */
  ghost predicate BruteForce(group: seq<nat>, dist: seq<real>, h: Hit)
    requires |group| == |dist|
  {
    exists d0 :: NearestIs(group, dist, h.cell, d0) &&
      if forall j | 0 <= j < |group| :: group[j] == h.cell then h.next == None && h.gap == None
      else h.next.Some? && h.gap.Some? && NextIs(group, dist, h.cell, h.next.value, d0 + 2.0 * h.gap.value)
  }

  lemma FaithfulIsBruteForce(group: seq<nat>, dist: seq<real>, range: real, s: seq<Slot>, h: Hit)
    requires |group| == |dist| > 0 && range >= 0.0 && Faithful(group, dist, range, s)
    requires |s| >= 1 ==> h.cell == s[0].cell
    requires if |s| < 2 then h.next == None && h.gap == None
             else h.next == Some(s[1].cell) && h.gap == Some((s[1].dist - s[0].dist) / 2.0)
    ensures |s| >= 1 && BruteForce(group, dist, h)
  {
    FirstIsNearest(group, dist, range, s, 0);
    forall j | 0 <= j < |group| ensures s[0].dist <= dist[j] { FirstIsNearest(group, dist, range, s, j); }
    assert NearestIs(group, dist, h.cell, s[0].dist);
    forall j | 0 <= j < |group| && group[j] != s[0].cell ensures |s| >= 2 && s[1].dist <= dist[j] {
      SecondIsNext(group, dist, range, s, j);
    }
    if |s| >= 2 {
      assert Attained(group, dist, s[1].cell, s[1].dist);
      assert NextIs(group, dist, h.cell, s[1].cell, s[0].dist + 2.0 * h.gap.value);
    }
  }

  /** Main result: the lookup agrees with a search over all sites. */
  method At(f: Foam, u: real, v: real) returns (h: Hit)
    requires Valid(f)
    ensures BruteForce(f.group, Distances(f, u, v), h)
  {
    var nb := Search(f, u, v);
    ghost var s := nb.Slots();
    FirstIsNearest(f.group, Distances(f, u, v), Range(f), s, 0);
    if nb.n < 2 {
      h := Hit(nb.cell[0], None, None);
    } else {
      h := Hit(nb.cell[0], Some(nb.cell[1]), Some((nb.dist[1] - nb.dist[0]) / 2.0));
    }
    FaithfulIsBruteForce(f.group, Distances(f, u, v), Range(f), s, h);
  }
}
