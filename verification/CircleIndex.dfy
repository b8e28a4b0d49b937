/**
 The uniform grid over circles (internal/geom/geom.go) against the plain list of circles, and the
 circle packing that relies on it (internal/sketch/circles/pack.go). Coordinates are exact reals.
 */
module CircleIndex {
  import opened Basics

  datatype Circle = Circle(x: real, y: real, r: real)

  datatype Frame = Frame(originX: real, originY: real, cell: real, cols: nat, rows: nat)

  predicate Sound(f: Frame) { f.cell > 0.0 && f.cols >= 1 && f.rows >= 1 }

  // ------------------------------------------------------------------ one axis

  /** col and row: the strip of a coordinate, clamped to the grid. */
  function Strip(x: real, origin: real, cell: real, count: nat): (k: nat)
    requires cell > 0.0 && count >= 1
    ensures k < count
  {
    Clamp(((x - origin) / cell).Floor, count)
  }

  function Clamp(t: int, count: nat): (k: nat)
    requires count >= 1
    ensures k < count
  {
    if t < 0 then 0 else if t > count - 1 then count - 1 else t
  }

  lemma ClampMonotone(s: int, t: int, count: nat)
    requires count >= 1 && s <= t
    ensures Clamp(s, count) <= Clamp(t, count)
    ensures t <= s + 1 ==> Clamp(t, count) <= Clamp(s, count) + 1
  {
  }

  lemma StripMonotone(x: real, y: real, origin: real, cell: real, count: nat)
    requires cell > 0.0 && count >= 1 && x <= y
    ensures Strip(x, origin, cell, count) <= Strip(y, origin, cell, count)
    ensures y <= x + cell ==> Strip(y, origin, cell, count) <= Strip(x, origin, cell, count) + 1
  {
    var p, q := (x - origin) / cell, (y - origin) / cell;
    QuotientSteps(x - origin, y - origin, cell);
    ClampMonotone(p.Floor, q.Floor, count);
  }

  lemma QuotientSteps(a: real, b: real, cell: real)
    requires cell > 0.0 && a <= b
    ensures a / cell <= b / cell
    ensures b <= a + cell ==> b / cell <= a / cell + 1.0
  {
    assert b / cell == a / cell + (b - a) / cell;
    assert (b - a) / cell >= 0.0;
    assert cell / cell == (b - a) / cell + (cell - (b - a)) / cell;
    if b <= a + cell { assert (cell - (b - a)) / cell >= 0.0; }
  }

  /** A collider at offset d along one axis is listed in one of the strips looked at. */
  lemma StripsMeet(ox: real, r: real, cx: real, spread: real, origin: real, cell: real, count: nat)
    requires cell > 0.0 && count >= 1 && r >= 0.0 && spread >= -cell
    requires if r + spread >= 0.0 then -(r + spread) <= ox - cx <= r + spread else r + spread <= ox - cx <= -(r + spread)
    ensures Strip(ox - r, origin, cell, count) <= Strip(cx + (spread + cell), origin, cell, count) + 1
    ensures Strip(cx - (spread + cell), origin, cell, count) <= Strip(ox + r, origin, cell, count) + 1
  {
    if ox - r <= cx + (spread + cell) {
      StripMonotone(ox - r, cx + (spread + cell), origin, cell, count);
    } else {
      StripMonotone(cx + (spread + cell), ox - r, origin, cell, count);
    }
    if cx - (spread + cell) <= ox + r {
      StripMonotone(cx - (spread + cell), ox + r, origin, cell, count);
    } else {
      StripMonotone(ox + r, cx - (spread + cell), origin, cell, count);
    }
  }

  // ----------------------------------------------------------- cells and circles

  function Col(f: Frame, x: real): (k: nat)
    requires Sound(f)
    ensures k < f.cols
  {
    Strip(x, f.originX, f.cell, f.cols)
  }

  function Row(f: Frame, y: real): (k: nat)
    requires Sound(f)
    ensures k < f.rows
  {
    Strip(y, f.originY, f.cell, f.rows)
  }

  /** The block of cells between two corners. */
  datatype Block = Block(x0: nat, x1: nat, y0: nat, y1: nat)

  predicate In(b: Block, col: nat, row: nat) { b.x0 <= col <= b.x1 && b.y0 <= row <= b.y1 }

  /** The cells that list a circle: those its bounding box touches. */
  function BoxOf(f: Frame, c: Circle): (b: Block)
    requires Sound(f)
    ensures b.x1 < f.cols && b.y1 < f.rows
  {
    Block(Col(f, c.x - c.r), Col(f, c.x + c.r), Row(f, c.y - c.r), Row(f, c.y + c.r))
  }

  /** The cells FitsWithGap looks at; a block may be empty when the reach is negative. */
  function Looked(f: Frame, c: Circle, gap: real): (b: Block)
    requires Sound(f)
    ensures b.x1 < f.cols && b.y1 < f.rows
  {
    var reach := c.r + gap + f.cell;
    Block(Down(Col(f, c.x - reach)), Up(Col(f, c.x + reach), f.cols), Down(Row(f, c.y - reach)), Up(Row(f, c.y + reach), f.rows))
  }

  function Down(k: nat): nat { if k == 0 then 0 else k - 1 }

  function Up(k: nat, count: nat): (u: nat)
    requires k < count
    ensures u < count
  {
    if k + 1 < count then k + 1 else count - 1
  }

  /** The distance test, on squares. */
  predicate Collides(o: Circle, c: Circle, gap: real) {
    var dx, dy, least := o.x - c.x, o.y - c.y, o.r + c.r + gap;
    dx * dx + dy * dy < least * least
  }

  predicate Contains(c: Circle, x: real, y: real) {
    (x - c.x) * (x - c.x) + (y - c.y) * (y - c.y) <= c.r * c.r
  }

  lemma Positive(a: real, b: real)
    requires a > 0.0 && b > 0.0
    ensures a * b > 0.0
  {
  }

  lemma SquareMonotone(a: real, b: real)
    requires 0.0 <= a
    ensures a <= b ==> a * a <= b * b
    ensures a < b ==> a * a < b * b
  {
    assert b * b - a * a == (b - a) * (b + a);
    if a < b { Positive(b - a, b + a); }
  }

  lemma SquareOrder(a: real, b: real)
    ensures a * a < b * b && b >= 0.0 ==> -b < a < b
    ensures a * a <= b * b && b >= 0.0 ==> -b <= a <= b
    ensures a * a < b * b && b < 0.0 ==> b < a < -b
  {
    var m, n := if a < 0.0 then -a else a, if b < 0.0 then -b else b;
    assert m * m == a * a && n * n == b * b;
    SquareMonotone(n, m);
  }

  lemma SquareNonNegative(a: real)
    ensures a * a >= 0.0
  {
  }

  predicate Meet(a: Block, b: Block) { a.x0 <= b.x1 && b.x0 <= a.x1 && a.y0 <= b.y1 && b.y0 <= a.y1 }

  lemma OffsetsBelow(o: Circle, c: Circle, gap: real)
    requires Collides(o, c, gap)
    ensures var d := o.r + (c.r + gap);
      && (if d >= 0.0 then -d < o.x - c.x < d else d < o.x - c.x < -d)
      && (if d >= 0.0 then -d < o.y - c.y < d else d < o.y - c.y < -d)
  {
    var dx, dy, least := o.x - c.x, o.y - c.y, o.r + c.r + gap;
    SquareNonNegative(dx);
    SquareNonNegative(dy);
    SquareOrder(dx, least);
    SquareOrder(dy, least);
  }

  lemma AxisMeets(ox: real, r: real, cx: real, spread: real, origin: real, cell: real, count: nat)
    requires cell > 0.0 && count >= 1 && r >= 0.0 && spread >= -cell
    requires if r + spread >= 0.0 then -(r + spread) <= ox - cx <= r + spread else r + spread <= ox - cx <= -(r + spread)
    ensures Strip(ox - r, origin, cell, count) <= Up(Strip(cx + (spread + cell), origin, cell, count), count)
    ensures Down(Strip(cx - (spread + cell), origin, cell, count)) <= Strip(ox + r, origin, cell, count)
  {
    StripsMeet(ox, r, cx, spread, origin, cell, count);
  }

  // ----------------------------------- exactly when every collider is looked at

  function Ceil(x: real): int { -(-x).Floor }

  /** The last strip with a point left of x. */
  function StripBelow(x: real, origin: real, cell: real, count: nat): (k: nat)
    requires cell > 0.0 && count >= 1
    ensures k < count
  {
    Clamp(Ceil((x - origin) / cell) - 1, count)
  }

  /** A reach of -m, m > cell, looks at every strip strictly within m of cx. */
  predicate AxisSees(cx: real, m: real, origin: real, cell: real, count: nat)
    requires cell > 0.0 && count >= 1
  {
    && Down(Strip(cx + (m - cell), origin, cell, count)) <= Strip(cx - m, origin, cell, count)
    && StripBelow(cx + m, origin, cell, count) <= Up(Strip(cx - (m - cell), origin, cell, count), count)
  }

  /** No circle that collides can hide from the cells looked at. */
  predicate Sees(f: Frame, c: Circle, gap: real)
    requires Sound(f)
  {
    c.r + gap >= -f.cell
    || (AxisSees(c.x, -(c.r + gap), f.originX, f.cell, f.cols) && AxisSees(c.y, -(c.r + gap), f.originY, f.cell, f.rows))
  }

  lemma StripLeftOf(x: real, y: real, origin: real, cell: real, count: nat)
    requires cell > 0.0 && count >= 1 && x < y
    ensures Strip(x, origin, cell, count) <= StripBelow(y, origin, cell, count)
  {
    var p, q := (x - origin) / cell, (y - origin) / cell;
    QuotientStrict(x - origin, y - origin, cell);
    ClampMonotone(p.Floor, Ceil(q) - 1, count);
  }

  lemma QuotientStrict(a: real, b: real, cell: real)
    requires cell > 0.0 && a < b
    ensures a / cell < b / cell
  {
    assert b / cell == a / cell + (b - a) / cell;
    assert (b - a) / cell * cell == b - a;
  }

  lemma AxisSeen(ox: real, r: real, cx: real, m: real, origin: real, cell: real, count: nat)
    requires cell > 0.0 && count >= 1 && r >= 0.0 && m > 0.0 && AxisSees(cx, m, origin, cell, count)
    requires if r >= m then m - r < ox - cx < r - m else r - m < ox - cx < m - r
    ensures Strip(ox - r, origin, cell, count) <= Up(Strip(cx - (m - cell), origin, cell, count), count)
    ensures Down(Strip(cx + (m - cell), origin, cell, count)) <= Strip(ox + r, origin, cell, count)
  {
    StripLeftOf(ox - r, cx + m, origin, cell, count);
    StripMonotone(cx - m, ox + r, origin, cell, count);
  }

  /** Every collider is listed in a cell that is looked at, circles outside the bounds included. */
  lemma ColliderIsSeen(f: Frame, o: Circle, c: Circle, gap: real)
    requires Sound(f) && o.r >= 0.0 && Sees(f, c, gap) && Collides(o, c, gap)
    ensures Meet(BoxOf(f, o), Looked(f, c, gap))
  {
    hide Collides, Up, Down, Strip, AxisSees;
    OffsetsBelow(o, c, gap);
    var spread := c.r + gap;
    if spread >= -f.cell {
      AxisMeets(o.x, o.r, c.x, spread, f.originX, f.cell, f.cols);
      AxisMeets(o.y, o.r, c.y, spread, f.originY, f.cell, f.rows);
    } else {
      AxisSeen(o.x, o.r, c.x, -spread, f.originX, f.cell, f.cols);
      AxisSeen(o.y, o.r, c.y, -spread, f.originY, f.cell, f.rows);
      assert c.x - (spread + f.cell) == c.x + (-spread - f.cell) && c.x + (spread + f.cell) == c.x - (-spread - f.cell);
      assert c.y - (spread + f.cell) == c.y + (-spread - f.cell) && c.y + (spread + f.cell) == c.y - (-spread - f.cell);
    }
  }

  /** On an axis that fails the test a point within m of cx lies in a strip that is not looked at. */
  lemma AxisHides(cx: real, m: real, origin: real, cell: real, count: nat) returns (x: real)
    requires cell > 0.0 && count >= 1 && m > cell && !AxisSees(cx, m, origin, cell, count)
    ensures cx - m < x < cx + m
    ensures !(Down(Strip(cx + (m - cell), origin, cell, count)) <= Strip(x, origin, cell, count)
              <= Up(Strip(cx - (m - cell), origin, cell, count), count))
  {
    hide Up, Down, Strip, StripBelow;
    if Down(Strip(cx + (m - cell), origin, cell, count)) > Strip(cx - m, origin, cell, count) {
      x := FirstStrip(cx - m, cx + m, origin, cell, count);
    } else {
      x := LastStrip(cx - m, cx + m, origin, cell, count);
    }
  }

  lemma FirstStrip(a: real, b: real, origin: real, cell: real, count: nat) returns (x: real)
    requires cell > 0.0 && count >= 1 && b - a > 2.0 * cell
    ensures a < x < b && Strip(x, origin, cell, count) == Strip(a, origin, cell, count)
  {
    hide Clamp;
    var p := (a - origin) / cell;
    var t := (p + p.Floor as real + 1.0) / 2.0;
    Between(a, b, origin, cell);
    x := PointAt(t, a, b, origin, cell, count);
  }

  lemma LastStrip(a: real, b: real, origin: real, cell: real, count: nat) returns (x: real)
    requires cell > 0.0 && count >= 1 && b - a > 2.0 * cell
    ensures a < x < b && Strip(x, origin, cell, count) == StripBelow(b, origin, cell, count)
  {
    hide Clamp;
    var q := (b - origin) / cell;
    var t := (q + Ceil(q) as real - 1.0) / 2.0;
    Between(a, b, origin, cell);
    x := PointAt(t, a, b, origin, cell, count);
  }

  lemma PointAt(t: real, a: real, b: real, origin: real, cell: real, count: nat) returns (x: real)
    requires cell > 0.0 && count >= 1 && (a - origin) / cell < t < (b - origin) / cell
    ensures a < x < b && Strip(x, origin, cell, count) == Clamp(t.Floor, count)
  {
    x := origin + t * cell;
    StripOf(t, origin, cell, count);
    BackAndForth(a - origin, cell);
    BackAndForth(b - origin, cell);
    ScaledStrictly((a - origin) / cell, t, cell);
    ScaledStrictly(t, (b - origin) / cell, cell);
  }

  /** Points strictly between, in the first and in the last strip of an open interval. */
  lemma Between(a: real, b: real, origin: real, cell: real)
    requires cell > 0.0 && b - a > 2.0 * cell
    ensures var p, q := (a - origin) / cell, (b - origin) / cell;
      && (var t := (p + p.Floor as real + 1.0) / 2.0; p < t < q && t.Floor == p.Floor)
      && (var t := (q + Ceil(q) as real - 1.0) / 2.0; p < t < q && t.Floor == Ceil(q) - 1)
  {
    QuotientAdds(a - origin, b - a, cell);
    assert b - origin == (a - origin) + (b - a);
    Halves((a - origin) / cell, (b - origin) / cell);
  }

  lemma Halves(p: real, q: real)
    requires q > p + 2.0
    ensures var t := (p + p.Floor as real + 1.0) / 2.0; p < t < q && t.Floor == p.Floor
    ensures var t := (q + Ceil(q) as real - 1.0) / 2.0; p < t < q && t.Floor == Ceil(q) - 1
  {
  }

  lemma StripOf(t: real, origin: real, cell: real, count: nat)
    requires cell > 0.0 && count >= 1
    ensures Strip(origin + t * cell, origin, cell, count) == Clamp(t.Floor, count)
  {
    assert origin + t * cell - origin == t * cell;
    assert t * cell / cell == t;
  }

  lemma BackAndForth(a: real, cell: real)
    requires cell > 0.0
    ensures a / cell * cell == a
  {
  }

  lemma QuotientAdds(a: real, b: real, cell: real)
    requires cell > 0.0 && b > 2.0 * cell
    ensures (a + b) / cell > a / cell + 2.0
  {
    QuotientStrict(2.0 * cell, b, cell);
    assert (a + b) / cell == a / cell + b / cell;
    assert 2.0 * cell / cell == 2.0;
  }

  lemma ScaledStrictly(s: real, t: real, cell: real)
    requires cell > 0.0 && s < t
    ensures s * cell < t * cell
  {
    Positive(t - s, cell);
    assert (t - s) * cell == t * cell - s * cell;
  }

  lemma OffsetsWithin(c: Circle, x: real, y: real)
    requires c.r >= 0.0 && Contains(c, x, y)
    ensures -c.r <= x - c.x <= c.r && -c.r <= y - c.y <= c.r
  {
    SquareNonNegative(x - c.x);
    SquareNonNegative(y - c.y);
    SquareOrder(x - c.x, c.r);
    SquareOrder(y - c.y, c.r);
  }

  /** A circle containing a point is listed in the point's own cell, whatever the cell size. */
  lemma ContainerIsListed(f: Frame, c: Circle, x: real, y: real)
    requires Sound(f) && c.r >= 0.0 && Contains(c, x, y)
    ensures In(BoxOf(f, c), Col(f, x), Row(f, y))
  {
    OffsetsWithin(c, x, y);
    AxisContains(c.x, c.r, x, f.originX, f.cell, f.cols);
    AxisContains(c.y, c.r, y, f.originY, f.cell, f.rows);
  }

  lemma AxisContains(cx: real, r: real, x: real, origin: real, cell: real, count: nat)
    requires cell > 0.0 && count >= 1 && -r <= x - cx <= r
    ensures Strip(cx - r, origin, cell, count) <= Strip(x, origin, cell, count) <= Strip(cx + r, origin, cell, count)
  {
    StripMonotone(cx - r, x, origin, cell, count);
    StripMonotone(x, cx + r, origin, cell, count);
  }

  /** Boxes of circles with non-negative radius are not empty. */
  lemma BoxProper(f: Frame, c: Circle)
    requires Sound(f) && c.r >= 0.0
    ensures BoxOf(f, c).x0 <= BoxOf(f, c).x1 && BoxOf(f, c).y0 <= BoxOf(f, c).y1
  {
    StripMonotone(c.x - c.r, c.x + c.r, f.originX, f.cell, f.cols);
    StripMonotone(c.y - c.r, c.y + c.r, f.originY, f.cell, f.rows);
  }

  // ------------------------------------------------------------------ the index

  /** What the plain list would answer. */
  ghost predicate FitsAll(circles: seq<Circle>, c: Circle, gap: real) {
    forall i | 0 <= i < |circles| :: !Collides(circles[i], c, gap)
  }

  /** What the cells looked at answer. */
  ghost predicate IndexFits(f: Frame, circles: seq<Circle>, c: Circle, gap: real)
    requires Sound(f)
  {
    forall i, col: nat, row: nat | 0 <= i < |circles| && In(Looked(f, c, gap), col, row) && In(BoxOf(f, circles[i]), col, row) ::
      !Collides(circles[i], c, gap)
  }

  ghost predicate FirstContaining(circles: seq<Circle>, x: real, y: real, k: int) {
    && -1 <= k < |circles|
    && (k >= 0 ==> Contains(circles[k], x, y))
    && forall i | 0 <= i < (if k < 0 then |circles| else k) :: !Contains(circles[i], x, y)
  }

  ghost predicate Radii(circles: seq<Circle>) { forall i | 0 <= i < |circles| :: circles[i].r >= 0.0 }

  /** The cell of (col, row) lists exactly the circles whose box touches it. */
  ghost predicate CellLists(boxes: seq<Block>, cell: seq<nat>, col: nat, row: nat) {
    forall i: nat :: i in cell <==> i < |boxes| && In(boxes[i], col, row)
  }

  ghost predicate Lists(boxes: seq<Block>, cells: seq<seq<nat>>, cols: nat, rows: nat) {
    && |cells| == cols * rows
    && forall col: nat, row: nat | col < cols && row < rows :: CellAt(boxes, cells, cols, col, row)
  }

  ghost predicate CellAt(boxes: seq<Block>, cells: seq<seq<nat>>, cols: nat, col: nat, row: nat) {
    0 <= row * cols + col < |cells| && CellLists(boxes, cells[row * cols + col], col, row)
  }

  ghost function Boxes(f: Frame, circles: seq<Circle>): (b: seq<Block>)
    requires Sound(f)
    ensures |b| == |circles| && forall i | 0 <= i < |b| :: b[i] == BoxOf(f, circles[i])
  {
    seq(|circles|, i requires 0 <= i < |circles| => BoxOf(f, circles[i]))
  }

  /** While circle n is being listed, the cells before (x, y) of its box have it. */
  ghost predicate Partly(boxes: seq<Block>, box: Block, cells: seq<seq<nat>>, cols: nat, rows: nat, x: nat, y: nat) {
    && |cells| == cols * rows
    && forall col: nat, row: nat | col < cols && row < rows ::
         CellAt(if In(box, col, row) && (row < y || (row == y && col < x)) then boxes + [box] else boxes, cells, cols, col, row)
  }

  lemma ListOne(boxes: seq<Block>, box: Block, cells: seq<seq<nat>>, cols: nat, rows: nat, x: nat, y: nat)
    requires Partly(boxes, box, cells, cols, rows, x, y) && In(box, x, y) && x < cols && y < rows
    ensures 0 <= y * cols + x < |cells|
    ensures Partly(boxes, box, cells[y * cols + x := cells[y * cols + x] + [|boxes|]], cols, rows, x + 1, y)
  {
    var k := y * cols + x;
    IndexRange(x, y, cols, rows);
    var after := cells[k := cells[k] + [|boxes|]];
    assert CellAt(boxes, cells, cols, x, y);
    forall col: nat, row: nat | col < cols && row < rows
      ensures CellAt(if In(box, col, row) && (row < y || (row == y && col < x + 1)) then boxes + [box] else boxes, after, cols, col, row)
    {
      IndexRange(col, row, cols, rows);
      assert CellAt(if In(box, col, row) && (row < y || (row == y && col < x)) then boxes + [box] else boxes, cells, cols, col, row);
      if row * cols + col == k {
        IndexInjective(col, row, x, y, cols);
      } else {
        assert !(row == y && col == x);
      }
    }
  }

  class Index {
    const frame: Frame
    const cells: array<seq<nat>>
    var circles: seq<Circle>

    ghost predicate Valid()
      reads this, cells
    {
      Sound(frame) && Lists(Boxes(frame, circles), cells[..], frame.cols, frame.rows)
    }

    /** NewIndexIn. */
    constructor (minX: real, minY: real, maxX: real, maxY: real, cell: real)
      ensures Valid() && circles == [] && fresh(cells)
      ensures frame.originX == minX && frame.originY == minY && frame.cell == if cell <= 0.0 then 0.02 else cell
      ensures forall x, y | minX <= x <= maxX && minY <= y <= maxY :: Covered(frame, x, y)
    {
      var size := if cell <= 0.0 then 0.02 else cell;
      var cols, rows := Strips(maxX - minX, size), Strips(maxY - minY, size);
      frame := Frame(minX, minY, size, cols, rows);
      cells := new seq<nat>[cols * rows](_ => []);
      circles := [];
      new;
      forall col: nat, row: nat | col < cols && row < rows ensures CellAt([], cells[..], cols, col, row) {
        IndexRange(col, row, cols, rows);
      }
      forall x, y | minX <= x <= maxX && minY <= y <= maxY ensures Covered(frame, x, y) {
        StripsCover(x - minX, maxX - minX, size);
        StripsCover(y - minY, maxY - minY, size);
      }
    }

    /** Insert: the circle joins every cell its bounding box touches. */
    method Insert(c: Circle) returns (i: nat)
      requires Valid()
      modifies this`circles, cells
      ensures Valid() && i == |old(circles)| && circles == old(circles) + [c]
    {
      i := |circles|;
      ghost var boxes, box := Boxes(frame, circles), BoxOf(frame, c);
      circles := circles + [c];
      var b := BoxOf(frame, c);
      assert Partly(boxes, box, cells[..], frame.cols, frame.rows, b.x0, b.y0);
      var y := b.y0;
      while y <= b.y1
        invariant b.y0 <= y && circles == old(circles) + [c]
        invariant Partly(boxes, box, cells[..], frame.cols, frame.rows, b.x0, y)
        decreases b.y1 + 1 - y
      {
        var x := b.x0;
        while x <= b.x1
          invariant b.x0 <= x && circles == old(circles) + [c]
          invariant Partly(boxes, box, cells[..], frame.cols, frame.rows, x, y)
          decreases b.x1 + 1 - x
        {
          ListOne(boxes, box, cells[..], frame.cols, frame.rows, x, y);
          cells[y * frame.cols + x] := cells[y * frame.cols + x] + [i];
          x := x + 1;
        }
        RowListed(boxes, box, cells[..], frame.cols, frame.rows, x, y);
        y := y + 1;
      }
      BoxListed(boxes, box, cells[..], frame.cols, frame.rows, y);
      assert Boxes(frame, circles) == boxes + [box];
    }

    /** The circles of one cell against c. */
    method Clash(col: nat, row: nat, c: Circle, gap: real) returns (clash: bool)
      requires Valid() && col < frame.cols && row < frame.rows
      ensures clash == exists i | 0 <= i < |circles| :: In(BoxOf(frame, circles[i]), col, row) && Collides(circles[i], c, gap)
    {
      assert CellAt(Boxes(frame, circles), cells[..], frame.cols, col, row);
      IndexRange(col, row, frame.cols, frame.rows);
      var list := cells[row * frame.cols + col];
      for k := 0 to |list|
        invariant forall n | 0 <= n < k :: list[n] < |circles| && !Collides(circles[list[n]], c, gap)
      {
        var i := list[k];
        assert i in list;
        if Collides(circles[i], c, gap) {
          assert In(BoxOf(frame, circles[i]), col, row);
          return true;
        }
      }
      forall i | 0 <= i < |circles| && In(BoxOf(frame, circles[i]), col, row) ensures !Collides(circles[i], c, gap) {
        assert i in list;
      }
      clash := false;
    }

    /** FitsWithGap agrees with the plain list, circles outside the bounds included, unless the
        reach is so far below zero that the cells looked at miss a collider. */
    method FitsWithGap(c: Circle, gap: real) returns (fits: bool)
      requires Valid()
      ensures fits == IndexFits(frame, circles, c, gap)
      ensures FitsAll(circles, c, gap) ==> fits
      ensures Radii(circles) && Sees(frame, c, gap) ==> fits == FitsAll(circles, c, gap)
    {
      hide Sees, Collides, Looked, BoxOf;
      var b := Looked(frame, c, gap);
      var y := b.y0;
      while y <= b.y1
        invariant b.y0 <= y
        invariant ClearBefore(frame, circles, c, gap, b, b.x0, y)
        decreases b.y1 + 1 - y
      {
        var x := b.x0;
        while x <= b.x1
          invariant b.x0 <= x && ClearBefore(frame, circles, c, gap, b, x, y)
          decreases b.x1 + 1 - x
        {
          var clash := Clash(x, y, c, gap);
          if clash {
            assert In(b, x, y);
            return false;
          }
          x := x + 1;
        }
        y := y + 1;
      }
      if Radii(circles) && Sees(frame, c, gap) { NoneMissed(frame, circles, c, gap); }
      fits := true;
    }

    /** At: among the circles of the point's cell, the earliest inserted one that contains it. */
    method At(x: real, y: real) returns (best: int)
      requires Valid()
      ensures !Covered(frame, x, y) ==> best == -1
      ensures Covered(frame, x, y) && Radii(circles) ==> FirstContaining(circles, x, y, best)
    {
      if x < frame.originX || y < frame.originY { return -1; }
      var cx, cy := ((x - frame.originX) / frame.cell).Floor, ((y - frame.originY) / frame.cell).Floor;
      if cx >= frame.cols || cy >= frame.rows { return -1; }
      OwnCell(frame, x, y);
      assert CellAt(Boxes(frame, circles), cells[..], frame.cols, cx, cy);
      IndexRange(cx, cy, frame.cols, frame.rows);
      var list := cells[cy * frame.cols + cx];
      best := -1;
      for k := 0 to |list|
        invariant -1 <= best < |circles| && (best >= 0 ==> Contains(circles[best], x, y))
        invariant forall n | 0 <= n < k :: list[n] < |circles| && (Contains(circles[list[n]], x, y) ==> 0 <= best <= list[n])
      {
        var i := list[k];
        assert i in list;
        if Contains(circles[i], x, y) && (best < 0 || i < best) { best := i; }
      }
      if Radii(circles) {
        forall i | 0 <= i < |circles| && Contains(circles[i], x, y) ensures 0 <= best <= i {
          ContainerIsListed(frame, circles[i], x, y);
          assert i in list;
        }
      }
    }
  }

  lemma OwnCell(f: Frame, x: real, y: real)
    requires Sound(f) && Covered(f, x, y)
    ensures ((x - f.originX) / f.cell).Floor == Col(f, x) && ((y - f.originY) / f.cell).Floor == Row(f, y)
  {
    assert (x - f.originX) / f.cell >= 0.0 && (y - f.originY) / f.cell >= 0.0;
  }

  /** No listed circle collides in the cells of the block before (x, y). */
  ghost predicate ClearBefore(f: Frame, circles: seq<Circle>, c: Circle, gap: real, b: Block, x: nat, y: nat)
    requires Sound(f)
  {
    forall i, col: nat, row: nat | 0 <= i < |circles| && In(b, col, row) && (row < y || (row == y && col < x)) ::
      In(BoxOf(f, circles[i]), col, row) ==> !Collides(circles[i], c, gap)
  }

  lemma NoneMissed(f: Frame, circles: seq<Circle>, c: Circle, gap: real)
    requires Sound(f) && Radii(circles) && Sees(f, c, gap) && IndexFits(f, circles, c, gap)
    ensures FitsAll(circles, c, gap)
  {
    var b := Looked(f, c, gap);
    forall i | 0 <= i < |circles| ensures !Collides(circles[i], c, gap) {
      if Collides(circles[i], c, gap) {
        var box := BoxOf(f, circles[i]);
        ColliderIsSeen(f, circles[i], c, gap);
        BoxProper(f, circles[i]);
        LookedProper(f, c, gap);
        assert In(box, Larger(box.x0, b.x0), Larger(box.y0, b.y0)) && In(b, Larger(box.x0, b.x0), Larger(box.y0, b.y0));
      }
    }
  }

  function Larger(a: nat, b: nat): nat { if a >= b then a else b }

  lemma LookedProper(f: Frame, c: Circle, gap: real)
    requires Sound(f) && Sees(f, c, gap)
    ensures var b := Looked(f, c, gap); b.x0 <= b.x1 && b.y0 <= b.y1
  {
    var reach := c.r + gap + f.cell;
    if reach >= 0.0 {
      StripMonotone(c.x - reach, c.x + reach, f.originX, f.cell, f.cols);
      StripMonotone(c.y - reach, c.y + reach, f.originY, f.cell, f.rows);
    } else {
      var m := -(c.r + gap);
      StripLeftOf(c.x - m, c.x + m, f.originX, f.cell, f.cols);
      StripLeftOf(c.y - m, c.y + m, f.originY, f.cell, f.rows);
      assert c.x - reach == c.x + (m - f.cell) && c.x + reach == c.x - (m - f.cell);
      assert c.y - reach == c.y + (m - f.cell) && c.y + reach == c.y - (m - f.cell);
    }
  }

  lemma RowListed(boxes: seq<Block>, box: Block, cells: seq<seq<nat>>, cols: nat, rows: nat, x: nat, y: nat)
    requires Partly(boxes, box, cells, cols, rows, x, y) && x > box.x1
    ensures Partly(boxes, box, cells, cols, rows, box.x0, y + 1)
  {
    forall col: nat, row: nat | col < cols && row < rows
      ensures CellAt(if In(box, col, row) && (row < y + 1 || (row == y + 1 && col < box.x0)) then boxes + [box] else boxes, cells, cols, col, row)
    {
      assert CellAt(if In(box, col, row) && (row < y || (row == y && col < x)) then boxes + [box] else boxes, cells, cols, col, row);
    }
  }

  lemma BoxListed(boxes: seq<Block>, box: Block, cells: seq<seq<nat>>, cols: nat, rows: nat, y: nat)
    requires Partly(boxes, box, cells, cols, rows, box.x0, y) && y > box.y1
    ensures Lists(boxes + [box], cells, cols, rows)
  {
    forall col: nat, row: nat | col < cols && row < rows ensures CellAt(boxes + [box], cells, cols, col, row) {
      assert CellAt(if In(box, col, row) && (row < y || (row == y && col < box.x0)) then boxes + [box] else boxes, cells, cols, col, row);
    }
  }

  /** The point has a cell of its own, without clamping. */
  ghost predicate Covered(f: Frame, x: real, y: real)
    requires Sound(f)
  {
    && x >= f.originX && y >= f.originY
    && ((x - f.originX) / f.cell).Floor < f.cols && ((y - f.originY) / f.cell).Floor < f.rows
  }

  function Strips(extent: real, cell: real): (n: nat)
    requires cell > 0.0
    ensures n >= 1
  {
    var n := Ceil(extent / cell) + 1;
    if n < 1 then 1 else n
  }

  lemma StripsCover(offset: real, extent: real, cell: real)
    requires cell > 0.0 && 0.0 <= offset <= extent
    ensures (offset / cell).Floor < Strips(extent, cell)
  {
    QuotientSteps(offset, extent, cell);
  }

  /** A circle of no size that collides and is listed in no cell looked at. */
  lemma HiddenCollider(f: Frame, c: Circle, gap: real) returns (o: Circle)
    requires Sound(f) && !Sees(f, c, gap)
    ensures o.r == 0.0 && Collides(o, c, gap) && !Meet(BoxOf(f, o), Looked(f, c, gap))
  {
    hide Up, Down, AxisSees, Strip;
    var m, reach := -(c.r + gap), c.r + gap + f.cell;
    assert c.x - reach == c.x + (m - f.cell) && c.x + reach == c.x - (m - f.cell);
    assert c.y - reach == c.y + (m - f.cell) && c.y + reach == c.y - (m - f.cell);
    if !AxisSees(c.x, m, f.originX, f.cell, f.cols) {
      var x := AxisHides(c.x, m, f.originX, f.cell, f.cols);
      o := Circle(x, c.y, 0.0);
      OffsetCollides(c, gap, x - c.x, 0.0);
      assert x - 0.0 == x == x + 0.0;
    } else {
      var y := AxisHides(c.y, m, f.originY, f.cell, f.rows);
      o := Circle(c.x, y, 0.0);
      OffsetCollides(c, gap, 0.0, y - c.y);
      assert y - 0.0 == y == y + 0.0;
    }
  }

  lemma OffsetCollides(c: Circle, gap: real, dx: real, dy: real)
    requires c.r + gap < 0.0 && (dx == 0.0 || dy == 0.0) && c.r + gap < dx + dy < -(c.r + gap)
    ensures Collides(Circle(c.x + dx, c.y + dy, 0.0), c, gap)
  {
    var d, m := dx + dy, -(c.r + gap);
    SquareMonotone(if d < 0.0 then -d else d, m);
    assert d * d == dx * dx + dy * dy;
    assert (0.0 + c.r + gap) * (0.0 + c.r + gap) == m * m;
  }

  lemma ApartShareNothing(a: Block, b: Block)
    requires !Meet(a, b)
    ensures forall col: nat, row: nat :: !(In(a, col, row) && In(b, col, row))
  {
  }

  /** Main result: the index answers as the plain list does for every set of circles if and only if
      Sees holds, a condition on the grid, the circle and the gap alone. */
  lemma SeesExact(f: Frame, c: Circle, gap: real)
    requires Sound(f)
    ensures Sees(f, c, gap) <==> forall circles | Radii(circles) :: IndexFits(f, circles, c, gap) == FitsAll(circles, c, gap)
  {
    hide Sees, Looked, BoxOf, Collides;
    if Sees(f, c, gap) {
      forall circles | Radii(circles) ensures IndexFits(f, circles, c, gap) == FitsAll(circles, c, gap) {
        if IndexFits(f, circles, c, gap) { NoneMissed(f, circles, c, gap); }
      }
    } else {
      var o := HiddenCollider(f, c, gap);
      var circles := [o];
      assert Radii(circles);
      ApartShareNothing(BoxOf(f, o), Looked(f, c, gap));
      assert IndexFits(f, circles, c, gap);
      assert !FitsAll(circles, c, gap) by { assert Collides(circles[0], c, gap); }
    }
  }

  /** On a grid of at most two columns and rows every gap is answered as by the plain list. */
  lemma SmallGridSees(f: Frame, c: Circle, gap: real)
    requires Sound(f) && f.cols <= 2 && f.rows <= 2
    ensures Sees(f, c, gap)
  {
  }

  // ------------------------------------------------------------------- packing

  datatype Packing = Packing(minR: real, maxR: real, gap: real, attempts: nat, tries: nat)

  /** The cell size of the index that packing builds. */
  function CellOf(p: Packing): (cell: real)
    ensures cell > 0.0
  {
    if p.maxR >= 0.02 then p.maxR else 0.02
  }

  /** The radius range; the source does not ask which end is larger. */
  function Least(p: Packing): real { Min(p.minR, p.maxR) }

  function Most(p: Packing): real { if p.minR <= p.maxR then p.maxR else p.minR }

  /** Where the index answers for every proposed circle as the plain list does. */
  predicate Packable(p: Packing) { Least(p) >= 0.0 && Least(p) + p.gap >= -CellOf(p) }

  /** Edge to edge at least gap apart. */
  predicate Separated(a: Circle, b: Circle, gap: real) {
    var dx, dy, least := a.x - b.x, a.y - b.y, a.r + b.r + gap;
    dx * dx + dy * dy >= least * least
  }

  /** At least gap away from both edges, wherever the span leaves room for that. */
  predicate Inset(x: real, r: real, gap: real, span: real) {
    2.0 * (r + gap) <= span ==> r + gap <= x <= span - (r + gap)
  }

  ghost predicate Packed(circles: seq<Circle>, p: Packing, aspect: real) {
    && (forall i, k | 0 <= i < k < |circles| :: Separated(circles[i], circles[k], p.gap))
    && (forall i | 0 <= i < |circles| :: Placed(circles[i], p, aspect))
  }

  ghost predicate Placed(c: Circle, p: Packing, aspect: real) {
    Least(p) <= c.r <= Most(p) && Inset(c.x, c.r, p.gap, aspect) && Inset(c.y, c.r, p.gap, 1.0)
  }

  predicate Unit(t: real) { 0.0 <= t < 1.0 }

  /** x lies between 0 and d. */
  predicate Partway(x: real, d: real) { if d >= 0.0 then 0.0 <= x <= d else d <= x <= 0.0 }

  lemma NonNegative(a: real, b: real)
    requires a >= 0.0 && b >= 0.0
    ensures a * b >= 0.0
  {
  }

  lemma UnitScale(t: real, d: real)
    requires 0.0 <= t <= 1.0
    ensures Partway(t * d, d)
  {
    var e := if d >= 0.0 then d else -d;
    NonNegative(t, e);
    NonNegative(1.0 - t, e);
    assert (1.0 - t) * e == e - t * e;
    assert d < 0.0 ==> t * d == -(t * e);
  }

  /** A share of a span. */
  function Portion(t: real, d: real): (x: real)
    requires 0.0 <= t <= 1.0
    ensures Partway(x, d)
  {
    UnitScale(t, d);
    t * d
  }

  /** The share of the attempts that are left. */
  function Shrink(attempt: nat, attempts: nat): (t: real)
    requires attempt < attempts
    ensures 0.0 <= t <= 1.0
  {
    var share := attempt as real / attempts as real;
    assert share * attempts as real == attempt as real;
    1.0 - share
  }

  /** The room beside minR shrinks with the square of the attempts left. */
  function Cap(p: Packing, attempt: nat): (d: real)
    requires attempt < p.attempts
    ensures Partway(d, p.maxR - p.minR)
  {
    var shrink := Shrink(attempt, p.attempts);
    Portion(Portion(shrink, shrink), p.maxR - p.minR)
  }

  /** The radius of an attempt. */
  function Radius(p: Packing, attempt: nat, draw: real): (r: real)
    requires attempt < p.attempts && Unit(draw)
    ensures Least(p) <= r <= Most(p)
  {
    p.minR + Portion(draw, Cap(p, attempt))
  }

  /** A coordinate of a try: anywhere inside the margins. */
  function Coordinate(margin: real, draw: real, span: real): (x: real)
    requires Unit(draw)
    ensures 2.0 * margin <= span ==> margin <= x <= span - margin
  {
    margin + Portion(draw, span - 2.0 * margin)
  }

  lemma FittingPacks(circles: seq<Circle>, p: Packing, aspect: real, c: Circle)
    requires Packed(circles, p, aspect) && Placed(c, p, aspect) && FitsAll(circles, c, p.gap)
    ensures Packed(circles + [c], p, aspect)
  {
    var t := circles + [c];
    forall i, k | 0 <= i < k < |t| ensures Separated(t[i], t[k], p.gap) {
      if k == |circles| { assert !Collides(circles[i], c, p.gap); }
    }
  }

  datatype Draws = Draws(radii: nat -> real, xs: (nat, nat) -> real, ys: (nat, nat) -> real)

  ghost predicate Uniform(d: Draws) {
    (forall a :: Unit((d.radii)(a))) && forall a, t :: Unit((d.xs)(a, t)) && Unit((d.ys)(a, t))
  }

  /** The circle proposed by try t of attempt a. */
  function Proposed(p: Packing, aspect: real, d: Draws, a: nat, t: nat, r: real): (c: Circle)
    requires Unit((d.xs)(a, t)) && Unit((d.ys)(a, t))
    ensures c.r == r && Inset(c.x, r, p.gap, aspect) && Inset(c.y, r, p.gap, 1.0)
  {
    Circle(Coordinate(r + p.gap, (d.xs)(a, t), aspect), Coordinate(r + p.gap, (d.ys)(a, t), 1.0), r)
  }

  /** One attempt: the first try that fits among all circles so far is added. */
  ghost function Tried(circles: seq<Circle>, p: Packing, aspect: real, d: Draws, a: nat, r: real, t: nat): seq<Circle>
    requires Uniform(d)
    decreases p.tries - t
  {
    if t >= p.tries then circles
    else
      var c := Proposed(p, aspect, d, a, t, r);
      if FitsAll(circles, c, p.gap) then circles + [c] else Tried(circles, p, aspect, d, a, r, t + 1)
  }

  /** The packing after n attempts, defined on the plain list. */
  ghost function Grown(p: Packing, aspect: real, d: Draws, n: nat): seq<Circle>
    requires Uniform(d) && n <= p.attempts
  {
    if n == 0 then [] else Tried(Grown(p, aspect, d, n - 1), p, aspect, d, n - 1, Radius(p, n - 1, (d.radii)(n - 1)), 0)
  }

  lemma {:induction false} TriedPacks(circles: seq<Circle>, p: Packing, aspect: real, d: Draws, a: nat, r: real, t: nat)
    requires Uniform(d) && Packed(circles, p, aspect) && Least(p) <= r <= Most(p)
    ensures Packed(Tried(circles, p, aspect, d, a, r, t), p, aspect)
    decreases p.tries - t
  {
    if t < p.tries {
      var c := Proposed(p, aspect, d, a, t, r);
      if FitsAll(circles, c, p.gap) {
        FittingPacks(circles, p, aspect, c);
      } else {
        TriedPacks(circles, p, aspect, d, a, r, t + 1);
      }
    }
  }

  /** Main result: the packing is pairwise separated by gap, inset from the canvas edge and within
      the radius range. */
  lemma {:induction false} GrownPacks(p: Packing, aspect: real, d: Draws, n: nat)
    requires Uniform(d) && n <= p.attempts
    ensures Packed(Grown(p, aspect, d, n), p, aspect)
  {
    if n > 0 {
      GrownPacks(p, aspect, d, n - 1);
      TriedPacks(Grown(p, aspect, d, n - 1), p, aspect, d, n - 1, Radius(p, n - 1, (d.radii)(n - 1)), 0);
    }
  }

  // ------------------------------------------------------ what packing achieves

  /** Try t of attempt a fits among the circles. */
  ghost predicate FitsAt(circles: seq<Circle>, p: Packing, aspect: real, d: Draws, a: nat, t: nat)
    requires Uniform(d) && a < p.attempts
  {
    forall i | 0 <= i < |circles| :: !Collides(circles[i], Try(p, aspect, d, a, t), p.gap)
  }

  /** The circle that try t of attempt a proposes. */
  ghost function Try(p: Packing, aspect: real, d: Draws, a: nat, t: nat): Circle
    requires Uniform(d) && a < p.attempts
  {
    Proposed(p, aspect, d, a, t, Radius(p, a, (d.radii)(a)))
  }

  lemma {:induction false} TriedAdds(circles: seq<Circle>, p: Packing, aspect: real, d: Draws, a: nat, from: nat)
    requires Uniform(d) && a < p.attempts
    ensures var after := Tried(circles, p, aspect, d, a, Radius(p, a, (d.radii)(a)), from);
      || (after == circles && forall t: nat | from <= t < p.tries :: !FitsAt(circles, p, aspect, d, a, t))
      || exists t: nat :: FirstFit(circles, p, aspect, d, a, from, t) && after == circles + [Try(p, aspect, d, a, t)]
    decreases p.tries - from
  {
    hide Radius, Proposed, Collides;
    var r := Radius(p, a, (d.radii)(a));
    if from < p.tries {
      var c := Proposed(p, aspect, d, a, from, r);
      if FitsAll(circles, c, p.gap) {
        assert FirstFit(circles, p, aspect, d, a, from, from);
      } else {
        TriedAdds(circles, p, aspect, d, a, from + 1);
        forall t: nat | FirstFit(circles, p, aspect, d, a, from + 1, t) ensures FirstFit(circles, p, aspect, d, a, from, t) {}
      }
    }
  }

  ghost predicate FirstFit(circles: seq<Circle>, p: Packing, aspect: real, d: Draws, a: nat, from: nat, t: nat)
    requires Uniform(d) && a < p.attempts
  {
    && from <= t < p.tries && FitsAt(circles, p, aspect, d, a, t)
    && forall e: nat | from <= e < t :: !FitsAt(circles, p, aspect, d, a, e)
  }

  /** Main result: every attempt adds its first fitting try behind the circles so far, and nothing
      only when each of its tries collides with one of them. */
  lemma AttemptAdds(p: Packing, aspect: real, d: Draws, a: nat)
    requires Uniform(d) && a < p.attempts
    ensures var before, after := Grown(p, aspect, d, a), Grown(p, aspect, d, a + 1);
      || (after == before && forall t: nat | t < p.tries :: !FitsAt(before, p, aspect, d, a, t))
      || exists t: nat :: FirstFit(before, p, aspect, d, a, 0, t) && after == before + [Try(p, aspect, d, a, t)]
  {
    hide Radius, Tried, FirstFit, FitsAt;
    TriedAdds(Grown(p, aspect, d, a), p, aspect, d, a, 0);
  }

  /** The radii of the attempts: the first may take the whole range, and the room shrinks with the
      square of the attempts that are left. */
  lemma RadiusSchedule(p: Packing, a: nat, draw: real)
    requires a < p.attempts && Unit(draw)
    ensures var n, left := p.attempts as real, (p.attempts - a) as real;
      (Radius(p, a, draw) - p.minR) * n * n == draw * (p.maxR - p.minR) * left * left
  {
    var n, left, span := p.attempts as real, (p.attempts - a) as real, p.maxR - p.minR;
    var shrink := Shrink(a, p.attempts);
    assert shrink * n == left by {
      var share := a as real / n;
      assert share * n == a as real;
      assert (1.0 - share) * n == n - share * n;
    }
    calc {
      (Radius(p, a, draw) - p.minR) * n * n;
      draw * (shrink * shrink * span) * n * n;
      { Rearranged(draw, shrink, span, n); }
      draw * span * (shrink * n) * (shrink * n);
      draw * span * left * left;
    }
  }

  lemma Rearranged(a: real, b: real, c: real, n: real)
    ensures a * (b * b * c) * n * n == a * c * (b * n) * (b * n)
  {
  }

  /** Every coordinate inside the margins can be drawn, by exactly one draw. */
  lemma CoordinateReached(margin: real, span: real, x: real) returns (draw: real)
    requires margin <= x < span - margin
    ensures Unit(draw) && Coordinate(margin, draw, span) == x
    ensures forall u: real | Unit(u) && Coordinate(margin, u, span) == x :: u == draw
  {
    var room := span - 2.0 * margin;
    draw := (x - margin) / room;
    assert draw * room == x - margin;
    assert Unit(draw) by {
      if draw < 0.0 { NegativeScale(draw, room); }
      if draw >= 1.0 { ScaledUp(draw, room); }
    }
    forall u: real | Unit(u) && Coordinate(margin, u, span) == x ensures u == draw {
      assert (draw - u) * room == draw * room - u * room == 0.0;
      if draw > u { NegativeScale(u - draw, room); }
      if draw < u { NegativeScale(draw - u, room); }
    }
  }

  /** Every place inside the margins is proposed by exactly one pair of draws. */
  lemma PlacesReached(p: Packing, aspect: real, d: Draws, a: nat, t: nat, r: real, x: real, y: real) returns (u: real, v: real)
    requires Uniform(d) && r + p.gap <= x < aspect - (r + p.gap) && r + p.gap <= y < 1.0 - (r + p.gap)
    ensures Unit(u) && Unit(v)
    ensures Proposed(p, aspect, d, a, t, r) == Circle(x, y, r) <==> (d.xs)(a, t) == u && (d.ys)(a, t) == v
  {
    u := CoordinateReached(r + p.gap, aspect, x);
    v := CoordinateReached(r + p.gap, 1.0, y);
  }

  lemma ScaledUp(a: real, b: real)
    requires a >= 1.0 && b > 0.0
    ensures a * b >= b
  {
    NonNegative(a - 1.0, b);
    assert (a - 1.0) * b == a * b - b;
  }

  lemma NegativeScale(a: real, b: real)
    requires a < 0.0 && b > 0.0
    ensures a * b < 0.0
  {
  }

  /** pack: with the grid index in place of the plain list the same circles are packed. The draws
      of the radii are already raised to the power 1.5. */
  method Pack(p: Packing, aspect: real, d: Draws) returns (index: Index)
    requires Uniform(d)
    ensures fresh(index) && index.Valid()
    ensures Packable(p) ==> index.circles == Grown(p, aspect, d, p.attempts) && Packed(index.circles, p, aspect)
  {
    index := new Index(0.0, 0.0, aspect, 1.0, CellOf(p));
    for a := 0 to p.attempts
      invariant fresh(index) && fresh(index.cells) && index.Valid() && index.frame.cell == CellOf(p)
      invariant Packable(p) ==> index.circles == Grown(p, aspect, d, a)
    {
      GrownPacks(p, aspect, d, a);
      TryPlaces(p, aspect, d, a, index);
    }
    GrownPacks(p, aspect, d, p.attempts);
  }

  /** The tries of one attempt. */
  method TryPlaces(p: Packing, aspect: real, d: Draws, a: nat, index: Index)
    requires Uniform(d) && a < p.attempts && index.Valid() && index.frame.cell == CellOf(p)
    modifies index`circles, index.cells
    ensures index.Valid()
    ensures Packable(p) && Packed(old(index.circles), p, aspect) ==>
      index.circles == Tried(old(index.circles), p, aspect, d, a, Radius(p, a, (d.radii)(a)), 0)
  {
    var r := Radius(p, a, (d.radii)(a));
    for t := 0 to p.tries
      invariant index.Valid() && index.circles == old(index.circles)
      invariant Packable(p) && Packed(index.circles, p, aspect) ==>
        Tried(index.circles, p, aspect, d, a, r, t) == Tried(index.circles, p, aspect, d, a, r, 0)
    {
      var c := Proposed(p, aspect, d, a, t, r);
      var fits := index.FitsWithGap(c, p.gap);
      if Packable(p) && Packed(index.circles, p, aspect) {
        assert Radii(index.circles) && Sees(index.frame, c, p.gap);
      }
      if fits {
        var i := index.Insert(c);
        return;
      }
    }
  }
}
