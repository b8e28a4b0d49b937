/**
 The flame histogram (internal/flame/histogram.go): eight workers add to shared 64-bit bins with
 single-cell atomic additions. Positions, weights and colours are exact reals.
 */
module Histogram {
  import opened Basics

  const WORD: nat := 0x1_0000_0000_0000_0000
  const SCALE: nat := 0x100_0000
  const WORKERS: nat := 8

  datatype Channel = A | R | G | B

  datatype Cell = Cell(channel: Channel, bin: nat)

  /** One atomic addition. */
  datatype Add = Add(cell: Cell, amount: nat)

  type Hist = map<Cell, nat>

  // --------------------------------------------------------------- interleavings

  /** AddUint64 wraps around. Adds aim at existing cells. */
  function Bump(h: Hist, a: Add): (t: Hist)
    ensures t.Keys == h.Keys
  {
    if a.cell in h then h[a.cell := (h[a.cell] + a.amount) % WORD] else h
  }

  /** Worker programs that are still running, each a list of additions to make. */
  type Programs = seq<seq<Add>>

  predicate Enabled(ps: Programs, w: nat) { w < |ps| && ps[w] != [] }

  /** A schedule names the worker of each step. */
  predicate Schedule(ps: Programs, order: seq<nat>)
    decreases |order|
  {
    if order == [] then forall w | 0 <= w < |ps| :: ps[w] == []
    else Enabled(ps, order[0]) && Schedule(ps[order[0] := ps[order[0]][1..]], order[1..])
  }

  function Run(h: Hist, ps: Programs, order: seq<nat>): Hist
    requires Schedule(ps, order)
    decreases |order|
  {
    if order == [] then h else Run(Bump(h, ps[order[0]][0]), ps[order[0] := ps[order[0]][1..]], order[1..])
  }

  function AmountTo(a: Add, c: Cell): nat { if a.cell == c then a.amount else 0 }

  /** All that one program adds to a cell. */
  function Sum(p: seq<Add>, c: Cell): nat { if p == [] then 0 else AmountTo(p[0], c) + Sum(p[1..], c) }

  function Total(ps: Programs, c: Cell): nat { if ps == [] then 0 else Sum(ps[0], c) + Total(ps[1..], c) }

  /** Taking one addition out of a program lowers its totals by that addition. */
  lemma {:induction false} TotalStep(ps: Programs, w: nat, c: Cell)
    requires Enabled(ps, w)
    ensures Total(ps, c) == AmountTo(ps[w][0], c) + Total(ps[w := ps[w][1..]], c)
  {
    var t := ps[w := ps[w][1..]];
    if w > 0 {
      TotalStep(ps[1..], w - 1, c);
      assert t[1..] == ps[1..][w - 1 := ps[1..][w - 1][1..]];
    } else {
      assert t[1..] == ps[1..];
    }
  }

  lemma {:induction false} TotalDone(ps: Programs, c: Cell)
    requires forall w | 0 <= w < |ps| :: ps[w] == []
    ensures Total(ps, c) == 0
  {
    if ps != [] { TotalDone(ps[1..], c); }
  }

  /** A run leaves in each cell what was there plus all that is aimed at it, modulo the word. */
  lemma {:induction false} RunTotals(h: Hist, ps: Programs, order: seq<nat>, c: Cell)
    requires Schedule(ps, order) && c in h && h[c] < WORD
    ensures c in Run(h, ps, order) && Run(h, ps, order)[c] == (h[c] + Total(ps, c)) % WORD
    ensures Run(h, ps, order).Keys == h.Keys
    decreases |order|
  {
    if order == [] {
      TotalDone(ps, c);
    } else {
      var w := order[0];
      var rest := ps[w := ps[w][1..]];
      TotalStep(ps, w, c);
      RunTotals(Bump(h, ps[w][0]), rest, order[1..], c);
      Wraps(h[c], AmountTo(ps[w][0], c), Total(rest, c));
    }
  }

  lemma Wraps(a: nat, b: nat, c: nat)
    ensures ((a + b) % WORD + c) % WORD == (a + (b + c)) % WORD
    ensures a < WORD ==> a % WORD == a
  {
  }

  /** Main result: every interleaving of the workers' additions gives the same histogram. */
  lemma OrderDoesNotMatter(h: Hist, ps: Programs, order: seq<nat>, other: seq<nat>)
    requires Schedule(ps, order) && Schedule(ps, other) && forall c <- h :: h[c] < WORD
    ensures Run(h, ps, order) == Run(h, ps, other)
  {
    var one, two := Run(h, ps, order), Run(h, ps, other);
    RunKeys(h, ps, order);
    RunKeys(h, ps, other);
    forall c <- h ensures one[c] == two[c] {
      RunTotals(h, ps, order, c);
      RunTotals(h, ps, other, c);
    }
  }

  lemma {:induction false} RunKeys(h: Hist, ps: Programs, order: seq<nat>)
    requires Schedule(ps, order)
    ensures Run(h, ps, order).Keys == h.Keys
    decreases |order|
  {
    if order != [] { RunKeys(Bump(h, ps[order[0]][0]), ps[order[0] := ps[order[0]][1..]], order[1..]); }
  }

  // ----------------------------------------------------------------------- shares

  function SumOf(s: seq<nat>): nat { if s == [] then 0 else s[0] + SumOf(s[1..]) }

  lemma {:induction false} SumOfSnoc(s: seq<nat>, n: nat)
    ensures SumOf(s + [n]) == SumOf(s) + n
  {
    if s == [] {
      assert s + [n] == [n];
    } else {
      SumOfSnoc(s[1..], n);
      assert (s + [n])[1..] == s[1..] + [n];
    }
  }

  /** The share of a worker: the first ones take the remainder. */
  function ShareOf(samples: nat, worker: nat): nat { samples / WORKERS + (if worker < samples % WORKERS then 1 else 0) }

  /** The workers' shares add up to the samples and differ by at most one. */
  method Shares(samples: nat) returns (shares: seq<nat>)
    ensures |shares| == WORKERS && forall i | 0 <= i < WORKERS :: shares[i] == ShareOf(samples, i)
    ensures |shares| == WORKERS && SumOf(shares) == samples
    ensures forall i, k | 0 <= i < k < |shares| :: shares[k] <= shares[i] <= shares[k] + 1
  {
    var base, rem := samples / WORKERS, samples % WORKERS;
    shares := [];
    for worker := 0 to WORKERS
      invariant |shares| == worker
      invariant forall i | 0 <= i < worker :: shares[i] == ShareOf(samples, i)
      invariant SumOf(shares) == worker * base + (if worker < rem then worker else rem)
    {
      var n := base;
      if worker < rem { n := n + 1; }
      SumOfSnoc(shares, n);
      assert (worker + 1) * base == worker * base + base;
      shares := shares + [n];
    }
  }

  // ------------------------------------------------------------------------ splat

  datatype Size = Size(w: nat, h: nat)

  datatype Colour = Colour(r: real, g: real, b: real)

  predicate UnitColour(c: Colour) { 0.0 <= c.r <= 1.0 && 0.0 <= c.g <= 1.0 && 0.0 <= c.b <= 1.0 }

  /** Rounding half up to an unsigned word. */
  function Rounded(x: real): (n: nat)
    requires x >= 0.0
    ensures x - 0.5 < n as real <= x + 0.5
  {
    (x + 0.5).Floor
  }

  function Weighted(w: real): (n: nat)
    requires w >= 0.0
  {
    Rounded(w * SCALE as real)
  }

  function Inside(s: Size, x: int, y: int): bool { 0 <= x < s.w && 0 <= y < s.h }

  function Share(c: real, aw: nat): (n: nat)
    requires 0.0 <= c <= 1.0
    ensures n <= aw
  {
    ShareBelow(c, aw);
    Rounded(c * aw as real)
  }

  lemma ShareBelow(c: real, aw: nat)
    requires 0.0 <= c <= 1.0
    ensures 0.0 <= c * aw as real <= aw as real
  {
    assert (1.0 - c) * aw as real >= 0.0;
    assert (1.0 - c) * aw as real == aw as real - c * aw as real;
  }

  /** add: nothing for no weight, outside the canvas, or when the weight rounds to nothing. */
  function Added(s: Size, x: int, y: int, w: real, c: Colour): seq<Add>
    requires UnitColour(c)
  {
    if w <= 0.0 || !Inside(s, x, y) then []
    else
      WeightNonNegative(w);
      var aw := Weighted(w);
      if aw == 0 then []
      else
        BinNonNegative(s, x, y);
        var i := y * s.w + x;
        Four(i, aw, Share(c.r, aw), Share(c.g, aw), Share(c.b, aw))
  }

  /** The additions to one bin, weight first. */
  function Four(i: nat, a: nat, r: nat, g: nat, b: nat): seq<Add> {
    [Add(Cell(A, i), a)] + ([Add(Cell(R, i), r)] + ([Add(Cell(G, i), g)] + [Add(Cell(B, i), b)]))
  }

  lemma WeightNonNegative(w: real)
    requires w >= 0.0
    ensures w * SCALE as real >= 0.0
  {
  }

  lemma BinNonNegative(s: Size, x: int, y: int)
    requires Inside(s, x, y)
    ensures y * s.w + x >= 0
  {
  }

  /** The four weights of a splat: they share out the whole weight. */
  datatype Corners = Corners(nw: real, ne: real, sw: real, se: real)

  function Split(fx: real, fy: real, weight: real): Corners {
    Corners((1.0 - fx) * (1.0 - fy) * weight, fx * (1.0 - fy) * weight, (1.0 - fx) * fy * weight, fx * fy * weight)
  }

  lemma SplitSums(fx: real, fy: real, weight: real)
    ensures var k := Split(fx, fy, weight); k.nw + k.ne + k.sw + k.se == weight
  {
    assert (1.0 - fx) * (1.0 - fy) * weight + fx * (1.0 - fy) * weight == (1.0 - fy) * weight;
    assert (1.0 - fx) * fy * weight + fx * fy * weight == fy * weight;
  }

  lemma Product(a: real, b: real)
    requires a >= 0.0 && b >= 0.0
    ensures a * b >= 0.0
  {
  }

  lemma SplitNonNegative(fx: real, fy: real, weight: real)
    requires 0.0 <= fx < 1.0 && 0.0 <= fy < 1.0 && weight >= 0.0
    ensures var k := Split(fx, fy, weight); k.nw >= 0.0 && k.ne >= 0.0 && k.sw >= 0.0 && k.se >= 0.0
  {
    Product(1.0 - fx, 1.0 - fy);
    Product((1.0 - fx) * (1.0 - fy), weight);
    Product(fx, 1.0 - fy);
    Product(fx * (1.0 - fy), weight);
    Product(1.0 - fx, fy);
    Product((1.0 - fx) * fy, weight);
    Product(fx, fy);
    Product(fx * fy, weight);
  }

  /** splat: bilinear over the four nearest bins. */
  function Splat(s: Size, x: real, y: real, c: Colour, weight: real): seq<Add>
    requires UnitColour(c)
  {
    if weight <= 0.0 then []
    else
      var ix, iy := x.Floor, y.Floor;
      var k := Split(x - ix as real, y - iy as real, weight);
      Added(s, ix, iy, k.nw, c) + Added(s, ix + 1, iy, k.ne, c) + Added(s, ix, iy + 1, k.sw, c) + Added(s, ix + 1, iy + 1, k.se, c)
  }

  /** Everything added to one channel. */
  function Channelled(p: seq<Add>, channel: Channel): nat {
    if p == [] then 0 else (if p[0].cell.channel == channel then p[0].amount else 0) + Channelled(p[1..], channel)
  }

  lemma {:induction false} ChannelledConcat(p: seq<Add>, q: seq<Add>, channel: Channel)
    ensures Channelled(p + q, channel) == Channelled(p, channel) + Channelled(q, channel)
  {
    if p == [] {
      assert p + q == q;
    } else {
      ChannelledConcat(p[1..], q, channel);
      assert (p + q)[1..] == p[1..] + q;
    }
  }

  /** One addition inside the canvas is off by at most half a unit. */
  lemma AddedClose(s: Size, x: int, y: int, w: real, c: Colour)
    requires UnitColour(c) && Inside(s, x, y) && w >= 0.0
    ensures w * SCALE as real - 0.5 <= Channelled(Added(s, x, y, w, c), A) as real <= w * SCALE as real + 0.5
  {
    hide Share, Channelled, Four;
    WeightNonNegative(w);
    NoneChannelled();
    var aw := Weighted(w);
    if w > 0.0 && aw > 0 {
      BinNonNegative(s, x, y);
      FourChannelled(y * s.w + x, aw, Share(c.r, aw), Share(c.g, aw), Share(c.b, aw));
    }
  }

  lemma NoneChannelled()
    ensures Channelled([], A) == 0
  {
  }

  lemma FourChannelled(i: nat, a: nat, r: nat, g: nat, b: nat)
    ensures Channelled(Four(i, a, r, g, b), A) == a
  {
    var p := [Add(Cell(R, i), r)] + ([Add(Cell(G, i), g)] + [Add(Cell(B, i), b)]);
    ChannelledConcat([Add(Cell(A, i), a)], p, A);
    ChannelledConcat([Add(Cell(R, i), r)], [Add(Cell(G, i), g)] + [Add(Cell(B, i), b)], A);
    ChannelledConcat([Add(Cell(G, i), g)], [Add(Cell(B, i), b)], A);
  }

  /** Main result: a splat whose four bins lie on the canvas adds its weight, scaled, to within two
      units of channel A. */
  lemma SplatConserves(s: Size, x: real, y: real, c: Colour, weight: real)
    requires UnitColour(c) && weight > 0.0 && Inside(s, x.Floor, y.Floor) && Inside(s, x.Floor + 1, y.Floor + 1)
    ensures weight * SCALE as real - 2.0 <= Channelled(Splat(s, x, y, c, weight), A) as real <= weight * SCALE as real + 2.0
  {
    hide Added, Split, Channelled;
    var ix, iy := x.Floor, y.Floor;
    var fx, fy := x - ix as real, y - iy as real;
    var k := Split(fx, fy, weight);
    SplitNonNegative(fx, fy, weight);
    SplitSums(fx, fy, weight);
    var p, q, r, t := Added(s, ix, iy, k.nw, c), Added(s, ix + 1, iy, k.ne, c), Added(s, ix, iy + 1, k.sw, c), Added(s, ix + 1, iy + 1, k.se, c);
    AddedClose(s, ix, iy, k.nw, c);
    AddedClose(s, ix + 1, iy, k.ne, c);
    AddedClose(s, ix, iy + 1, k.sw, c);
    AddedClose(s, ix + 1, iy + 1, k.se, c);
    ChannelledConcat(p, q, A);
    ChannelledConcat(p + q, r, A);
    ChannelledConcat(p + q + r, t, A);
    Distributes(k.nw, k.ne, k.sw, k.se, SCALE as real);
  }

  lemma Distributes(a: real, b: real, c: real, d: real, scale: real)
    ensures (a + b + c + d) * scale == a * scale + b * scale + c * scale + d * scale
  {
  }

  // ---------------------------------------------------------------- colour bounds

  /** In every bin colour amounts stay below the weight amount. */
  ghost predicate Tinted(p: seq<Add>) {
    forall bin: nat, ch: Channel :: Sum(p, Cell(ch, bin)) <= Sum(p, Cell(A, bin))
  }

  lemma {:induction false} SumConcat(p: seq<Add>, q: seq<Add>, c: Cell)
    ensures Sum(p + q, c) == Sum(p, c) + Sum(q, c)
  {
    if p == [] {
      assert p + q == q;
    } else {
      SumConcat(p[1..], q, c);
      assert (p + q)[1..] == p[1..] + q;
    }
  }

  lemma TintedConcat(p: seq<Add>, q: seq<Add>)
    requires Tinted(p) && Tinted(q)
    ensures Tinted(p + q)
  {
    forall bin: nat, ch: Channel ensures Sum(p + q, Cell(ch, bin)) <= Sum(p + q, Cell(A, bin)) {
      SumConcat(p, q, Cell(ch, bin));
      SumConcat(p, q, Cell(A, bin));
    }
  }

  /** The sum of four additions to one bin. */
  lemma SumFour(i: nat, a: nat, r: nat, g: nat, b: nat, c: Cell)
    ensures Sum(Four(i, a, r, g, b), c)
      == if c.bin != i then 0 else match c.channel case A => a case R => r case G => g case B => b
  {
    SumConcat([Add(Cell(A, i), a)], [Add(Cell(R, i), r)] + ([Add(Cell(G, i), g)] + [Add(Cell(B, i), b)]), c);
    SumConcat([Add(Cell(R, i), r)], [Add(Cell(G, i), g)] + [Add(Cell(B, i), b)], c);
    SumConcat([Add(Cell(G, i), g)], [Add(Cell(B, i), b)], c);
  }

  lemma AddedTinted(s: Size, x: int, y: int, w: real, c: Colour)
    requires UnitColour(c)
    ensures Tinted(Added(s, x, y, w, c))
  {
    var p := Added(s, x, y, w, c);
    if p != [] {
      WeightNonNegative(w);
      BinNonNegative(s, x, y);
      var aw, i := Weighted(w), y * s.w + x;
      forall bin: nat, ch: Channel ensures Sum(p, Cell(ch, bin)) <= Sum(p, Cell(A, bin)) {
        SumFour(i, aw, Share(c.r, aw), Share(c.g, aw), Share(c.b, aw), Cell(ch, bin));
        SumFour(i, aw, Share(c.r, aw), Share(c.g, aw), Share(c.b, aw), Cell(A, bin));
      }
    }
  }

  lemma SplatTinted(s: Size, x: real, y: real, c: Colour, weight: real)
    requires UnitColour(c)
    ensures Tinted(Splat(s, x, y, c, weight))
  {
    hide Added, Tinted, Split;
    if weight > 0.0 {
      var ix, iy := x.Floor, y.Floor;
      var k := Split(x - ix as real, y - iy as real, weight);
      AddedTinted(s, ix, iy, k.nw, c);
      AddedTinted(s, ix + 1, iy, k.ne, c);
      AddedTinted(s, ix, iy + 1, k.sw, c);
      AddedTinted(s, ix + 1, iy + 1, k.se, c);
      TintedConcat(Added(s, ix, iy, k.nw, c), Added(s, ix + 1, iy, k.ne, c));
      TintedConcat(Added(s, ix, iy, k.nw, c) + Added(s, ix + 1, iy, k.ne, c), Added(s, ix, iy + 1, k.sw, c));
      TintedConcat(Added(s, ix, iy, k.nw, c) + Added(s, ix + 1, iy, k.ne, c) + Added(s, ix, iy + 1, k.sw, c), Added(s, ix + 1, iy + 1, k.se, c));
    } else {
      EmptyTinted();
    }
  }

  lemma EmptyTinted()
    ensures Tinted([])
  {
  }

  /** A plotted point; the opacity it is weighted with is at most one. */
  datatype Shot = Shot(x: real, y: real, colour: Colour, weight: real)

  predicate Plottable(shots: seq<Shot>) {
    forall k | 0 <= k < |shots| :: UnitColour(shots[k].colour) && shots[k].weight <= 1.0
  }

  /** A worker's program is the additions of its plotted points, one after the other. */
  function Program(s: Size, shots: seq<Shot>): seq<Add>
    requires Plottable(shots)
  {
    if shots == [] then []
    else Splat(s, shots[0].x, shots[0].y, shots[0].colour, shots[0].weight) + Program(s, shots[1..])
  }

  /** The programs of all workers. */
  function Plotted(s: Size, orbits: seq<seq<Shot>>): Programs
    requires forall w | 0 <= w < |orbits| :: Plottable(orbits[w])
  {
    if orbits == [] then [] else [Program(s, orbits[0])] + Plotted(s, orbits[1..])
  }

  function Points(orbits: seq<seq<Shot>>): nat { if orbits == [] then 0 else |orbits[0]| + Points(orbits[1..]) }

  lemma {:induction false} ProgramTinted(s: Size, shots: seq<Shot>)
    requires Plottable(shots)
    ensures Tinted(Program(s, shots))
  {
    hide Splat, Tinted;
    if shots == [] {
      EmptyTinted();
    } else {
      ProgramTinted(s, shots[1..]);
      SplatTinted(s, shots[0].x, shots[0].y, shots[0].colour, shots[0].weight);
      TintedConcat(Splat(s, shots[0].x, shots[0].y, shots[0].colour, shots[0].weight), Program(s, shots[1..]));
    }
  }

  /** A corner adds to no bin but its own, and there at most one unit of weight. */
  lemma AddedWeighs(s: Size, x: int, y: int, w: real, c: Colour, bin: nat)
    requires UnitColour(c) && w <= 1.0
    ensures Sum(Added(s, x, y, w, c), Cell(A, bin)) <= (if Inside(s, x, y) && y * s.w + x == bin then SCALE else 0)
  {
    hide Share;
    if Added(s, x, y, w, c) != [] {
      WeightNonNegative(w);
      BinNonNegative(s, x, y);
      var aw := Weighted(w);
      assert (1.0 - w) * SCALE as real >= 0.0;
      assert aw <= SCALE;
      SumFour(y * s.w + x, aw, Share(c.r, aw), Share(c.g, aw), Share(c.b, aw), Cell(A, bin));
    }
  }

  /** The four bins of a splat are different bins. */
  lemma OneCorner(s: Size, x: int, y: int, i: int, j: int, bin: nat)
    requires Inside(s, x, y) && Inside(s, i, j) && y * s.w + x == bin == j * s.w + i
    ensures x == i && y == j
  {
    IndexInjective(x, y, i, j, s.w);
  }

  lemma SplitBelowOne(fx: real, fy: real, weight: real)
    requires 0.0 <= fx < 1.0 && 0.0 <= fy < 1.0 && 0.0 <= weight <= 1.0
    ensures var k := Split(fx, fy, weight); k.nw <= 1.0 && k.ne <= 1.0 && k.sw <= 1.0 && k.se <= 1.0
  {
    hide Split;
    SplitNonNegative(fx, fy, weight);
    SplitSums(fx, fy, weight);
  }

  /** A splat adds at most one unit of weight to any bin. */
  lemma SplatWeighs(s: Size, x: real, y: real, c: Colour, weight: real, bin: nat)
    requires UnitColour(c) && weight <= 1.0
    ensures Sum(Splat(s, x, y, c, weight), Cell(A, bin)) <= SCALE
  {
    hide Added, Split;
    if weight > 0.0 {
      var ix, iy := x.Floor, y.Floor;
      var k := Split(x - ix as real, y - iy as real, weight);
      SplitBelowOne(x - ix as real, y - iy as real, weight);
      var p, q, r, t := Added(s, ix, iy, k.nw, c), Added(s, ix + 1, iy, k.ne, c), Added(s, ix, iy + 1, k.sw, c), Added(s, ix + 1, iy + 1, k.se, c);
      CornersWeigh(s, ix, iy, k, c, bin);
      ConcatSums(p, q, r, t, Cell(A, bin));
    }
  }

  lemma CornersWeigh(s: Size, x: int, y: int, k: Corners, c: Colour, bin: nat)
    requires UnitColour(c) && k.nw <= 1.0 && k.ne <= 1.0 && k.sw <= 1.0 && k.se <= 1.0
    ensures Sum(Added(s, x, y, k.nw, c), Cell(A, bin)) + Sum(Added(s, x + 1, y, k.ne, c), Cell(A, bin))
          + Sum(Added(s, x, y + 1, k.sw, c), Cell(A, bin)) + Sum(Added(s, x + 1, y + 1, k.se, c), Cell(A, bin)) <= SCALE
  {
    hide Added;
    AddedWeighs(s, x, y, k.nw, c, bin);
    AddedWeighs(s, x + 1, y, k.ne, c, bin);
    AddedWeighs(s, x, y + 1, k.sw, c, bin);
    AddedWeighs(s, x + 1, y + 1, k.se, c, bin);
    forall i, j, m, n | Inside(s, i, j) && Inside(s, m, n) && j * s.w + i == bin == n * s.w + m
      ensures i == m && j == n
    {
      OneCorner(s, i, j, m, n, bin);
    }
  }

  // --------------------------------------------------------- where a splat goes

  /** How much of a point at t falls to the grid line k: all of it there, none one unit away. */
  function Tent(t: real, k: int): (h: real)
    ensures 0.0 <= h <= 1.0
  {
    var d := if t >= k as real then t - k as real else k as real - t;
    if d < 1.0 then 1.0 - d else 0.0
  }

  lemma TentFromFloor(t: real, k: int)
    ensures Tent(t, k)
      == if k == t.Floor then 1.0 - (t - t.Floor as real) else if k == t.Floor + 1 then t - t.Floor as real else 0.0
  {
  }

  /** A corner brings its own bin its weight, rounded, and other bins nothing. */
  lemma AddedGoes(s: Size, x: int, y: int, w: real, c: Colour, i: nat, j: nat)
    requires UnitColour(c) && w >= 0.0 && Inside(s, i, j)
    ensures Sum(Added(s, x, y, w, c), Cell(A, j * s.w + i)) == if x == i && y == j then Weighted(w) else 0
  {
    hide Share;
    var bin := j * s.w + i;
    WeightNonNegative(w);
    if Added(s, x, y, w, c) != [] {
      BinNonNegative(s, x, y);
      var aw := Weighted(w);
      SumFour(y * s.w + x, aw, Share(c.r, aw), Share(c.g, aw), Share(c.b, aw), Cell(A, bin));
      if y * s.w + x == bin { OneCorner(s, x, y, i, j, bin); }
    }
  }

  /** The part of a weight at (x, y) that falls to bin (i, j). */
  function Due(x: real, y: real, i: int, j: int, weight: real): (w: real)
    requires weight >= 0.0
    ensures w >= 0.0
  {
    Product(Tent(x, i), Tent(y, j));
    Product(Tent(x, i) * Tent(y, j), weight);
    Tent(x, i) * Tent(y, j) * weight
  }

  lemma CornersDue(x: real, y: real, i: int, j: int, weight: real)
    requires weight >= 0.0
    ensures var ix, iy := x.Floor, y.Floor; var k := Split(x - ix as real, y - iy as real, weight);
      Due(x, y, i, j, weight) == if i == ix && j == iy then k.nw else if i == ix + 1 && j == iy then k.ne
        else if i == ix && j == iy + 1 then k.sw else if i == ix + 1 && j == iy + 1 then k.se else 0.0
  {
    hide Tent;
    TentFromFloor(x, i);
    TentFromFloor(y, j);
    var h, v := Tent(x, i), Tent(y, j);
    if h == 0.0 || v == 0.0 { assert h * v == 0.0; }
  }

  /** Main result: every bin of the canvas is given the point's weight in proportion to how near the
      point is to it along both axes, rounded; this fixes which corner gets which part. */
  lemma SplatIsBilinear(s: Size, x: real, y: real, c: Colour, weight: real, i: nat, j: nat)
    requires UnitColour(c) && weight >= 0.0 && Inside(s, i, j)
    ensures Sum(Splat(s, x, y, c, weight), Cell(A, j * s.w + i)) == Weighted(Due(x, y, i, j, weight))
  {
    hide Added, Due, Split, Weighted, Sum;
    var cell := Cell(A, j * s.w + i);
    NoWeight();
    if weight > 0.0 {
      var ix, iy := x.Floor, y.Floor;
      var k := Split(x - ix as real, y - iy as real, weight);
      SplitNonNegative(x - ix as real, y - iy as real, weight);
      CornersDue(x, y, i, j, weight);
      var p, q, r, t := Added(s, ix, iy, k.nw, c), Added(s, ix + 1, iy, k.ne, c), Added(s, ix, iy + 1, k.sw, c), Added(s, ix + 1, iy + 1, k.se, c);
      AddedGoes(s, ix, iy, k.nw, c, i, j);
      AddedGoes(s, ix + 1, iy, k.ne, c, i, j);
      AddedGoes(s, ix, iy + 1, k.sw, c, i, j);
      AddedGoes(s, ix + 1, iy + 1, k.se, c, i, j);
      ConcatSums(p, q, r, t, cell);
    } else {
      NothingDue(x, y, i, j);
    }
  }

  lemma NothingDue(x: real, y: real, i: int, j: int)
    ensures Due(x, y, i, j, 0.0) == 0.0
  {
  }

  lemma NoWeight()
    ensures Weighted(0.0) == 0
    ensures forall c :: Sum([], c) == 0
  {
  }

  function PartOf(c: Colour, ch: Channel): (v: real)
    requires UnitColour(c)
    ensures 0.0 <= v <= 1.0
  {
    match ch case A => 1.0 case R => c.r case G => c.g case B => c.b
  }

  /** n is a colour's share of an amount, to within half a unit. */
  predicate Near(n: nat, part: real, amount: nat) { part * amount as real - 0.5 < n as real <= part * amount as real + 0.5 }

  lemma ShareNear(part: real, amount: nat)
    requires 0.0 <= part <= 1.0
    ensures Near(Share(part, amount), part, amount)
    ensures part == 1.0 ==> Share(part, amount) == amount
  {
  }

  lemma AddedColours(s: Size, x: int, y: int, w: real, c: Colour, bin: nat, ch: Channel)
    requires UnitColour(c)
    ensures Near(Sum(Added(s, x, y, w, c), Cell(ch, bin)), PartOf(c, ch), Sum(Added(s, x, y, w, c), Cell(A, bin)))
    ensures Sum(Added(s, x, y, w, c), Cell(A, bin)) > 0 ==> Inside(s, x, y) && y * s.w + x == bin
    ensures Sum(Added(s, x, y, w, c), Cell(A, bin)) == 0 ==> Sum(Added(s, x, y, w, c), Cell(ch, bin)) == 0
  {
    hide Share, Near, Weighted;
    NoneNear(PartOf(c, ch));
    if Added(s, x, y, w, c) != [] {
      WeightNonNegative(w);
      BinNonNegative(s, x, y);
      var aw := Weighted(w);
      ShareNear(1.0, aw);
      ShareNear(c.r, aw);
      ShareNear(c.g, aw);
      ShareNear(c.b, aw);
      SumFour(y * s.w + x, aw, Share(c.r, aw), Share(c.g, aw), Share(c.b, aw), Cell(ch, bin));
      SumFour(y * s.w + x, aw, Share(c.r, aw), Share(c.g, aw), Share(c.b, aw), Cell(A, bin));
    }
  }

  /** Main result: in every bin each channel is given its own part of the weight given there. */
  lemma SplatColours(s: Size, x: real, y: real, c: Colour, weight: real, bin: nat, ch: Channel)
    requires UnitColour(c)
    ensures Near(Sum(Splat(s, x, y, c, weight), Cell(ch, bin)), PartOf(c, ch), Sum(Splat(s, x, y, c, weight), Cell(A, bin)))
  {
    hide Added, Split, Near, PartOf, Sum;
    NoneNear(PartOf(c, ch));
    if weight > 0.0 {
      var ix, iy := x.Floor, y.Floor;
      var k := Split(x - ix as real, y - iy as real, weight);
      var p, q, r, t := Added(s, ix, iy, k.nw, c), Added(s, ix + 1, iy, k.ne, c), Added(s, ix, iy + 1, k.sw, c), Added(s, ix + 1, iy + 1, k.se, c);
      AddedColours(s, ix, iy, k.nw, c, bin, ch);
      AddedColours(s, ix + 1, iy, k.ne, c, bin, ch);
      AddedColours(s, ix, iy + 1, k.sw, c, bin, ch);
      AddedColours(s, ix + 1, iy + 1, k.se, c, bin, ch);
      ConcatSums(p, q, r, t, Cell(ch, bin));
      ConcatSums(p, q, r, t, Cell(A, bin));
      forall i, j, m, n | Inside(s, i, j) && Inside(s, m, n) && j * s.w + i == bin == n * s.w + m
        ensures i == m && j == n
      {
        OneCorner(s, i, j, m, n, bin);
      }
    }
  }

  lemma ConcatSums(p: seq<Add>, q: seq<Add>, r: seq<Add>, t: seq<Add>, c: Cell)
    ensures Sum(p + q + r + t, c) == Sum(p, c) + Sum(q, c) + Sum(r, c) + Sum(t, c)
  {
    SumConcat(p, q, c);
    SumConcat(p + q, r, c);
    SumConcat(p + q + r, t, c);
  }

  lemma NoneNear(part: real)
    ensures Near(0, part, 0)
    ensures forall c :: Sum([], c) == 0
  {
  }

  /** A program adds at most one unit per point to the weight of a bin. */
  lemma {:induction false} ProgramWeighs(s: Size, shots: seq<Shot>, bin: nat)
    requires Plottable(shots)
    ensures Sum(Program(s, shots), Cell(A, bin)) <= |shots| * SCALE
  {
    hide Splat;
    if shots != [] {
      ProgramWeighs(s, shots[1..], bin);
      SplatWeighs(s, shots[0].x, shots[0].y, shots[0].colour, shots[0].weight, bin);
      SumConcat(Splat(s, shots[0].x, shots[0].y, shots[0].colour, shots[0].weight), Program(s, shots[1..]), Cell(A, bin));
    }
  }

  lemma {:induction false} PlottedTotals(s: Size, orbits: seq<seq<Shot>>, bin: nat, ch: Channel)
    requires forall w | 0 <= w < |orbits| :: Plottable(orbits[w])
    ensures Total(Plotted(s, orbits), Cell(ch, bin)) <= Total(Plotted(s, orbits), Cell(A, bin)) <= Points(orbits) * SCALE
  {
    hide Program;
    if orbits != [] {
      PlottedTotals(s, orbits[1..], bin, ch);
      ProgramTinted(s, orbits[0]);
      ProgramWeighs(s, orbits[0], bin);
      assert Plotted(s, orbits)[1..] == Plotted(s, orbits[1..]);
    }
  }

  /** The points that fill a 64-bit word when all aim at one bin. */
  const FULL := WORD / SCALE

  /** Main result: in the finished histogram of fewer than 2^40 points, however the workers are
      interleaved, no colour channel exceeds the weight channel, and the weight has not wrapped. */
  lemma ColourBelowWeight(h: Hist, s: Size, orbits: seq<seq<Shot>>, order: seq<nat>, bin: nat, ch: Channel)
    requires (forall w | 0 <= w < |orbits| :: Plottable(orbits[w])) && Points(orbits) < FULL
    requires Schedule(Plotted(s, orbits), order) && Cell(ch, bin) in h && Cell(A, bin) in h
    requires h[Cell(ch, bin)] == 0 && h[Cell(A, bin)] == 0
    ensures var t := Run(h, Plotted(s, orbits), order);
      && Cell(ch, bin) in t && Cell(A, bin) in t
      && t[Cell(ch, bin)] <= t[Cell(A, bin)] == Total(Plotted(s, orbits), Cell(A, bin)) <= Points(orbits) * SCALE
  {
    hide Plotted, Schedule, Run;
    var ps := Plotted(s, orbits);
    RunTotals(h, ps, order, Cell(ch, bin));
    RunTotals(h, ps, order, Cell(A, bin));
    PlottedTotals(s, orbits, bin, ch);
    Wraps(Total(ps, Cell(ch, bin)), 0, 0);
    Wraps(Total(ps, Cell(A, bin)), 0, 0);
  }

  // -------------------------------------------------------------- one point too many

  /** A grey point in the middle of the first bin. */
  const GREY := Shot(0.0, 0.0, Colour(0.5, 0.5, 0.5), 1.0)

  lemma GreySplat(s: Size)
    requires s.w >= 1 && s.h >= 1
    ensures Splat(s, 0.0, 0.0, GREY.colour, 1.0) == Four(0, SCALE, SCALE / 2, SCALE / 2, SCALE / 2)
  {
    assert Split(0.0, 0.0, 1.0) == Corners(1.0, 0.0, 0.0, 0.0);
  }

  lemma {:induction false} GreyProgram(s: Size, n: nat)
    requires s.w >= 1 && s.h >= 1
    ensures Plottable(seq(n, _ => GREY))
    ensures Sum(Program(s, seq(n, _ => GREY)), Cell(A, 0)) == n * SCALE
    ensures Sum(Program(s, seq(n, _ => GREY)), Cell(R, 0)) == n * (SCALE / 2)
  {
    hide Splat;
    if n > 0 {
      GreyProgram(s, n - 1);
      var shots := seq(n, _ => GREY);
      assert shots[1..] == seq(n - 1, _ => GREY);
      var p := Splat(s, 0.0, 0.0, GREY.colour, 1.0);
      GreySplat(s);
      SumFour(0, SCALE, SCALE / 2, SCALE / 2, SCALE / 2, Cell(A, 0));
      SumFour(0, SCALE, SCALE / 2, SCALE / 2, SCALE / 2, Cell(R, 0));
      SumConcat(p, Program(s, shots[1..]), Cell(A, 0));
      SumConcat(p, Program(s, shots[1..]), Cell(R, 0));
    }
  }

  /** Every worker program can be run to its end. */
  lemma {:induction false} CanFinish(ps: Programs) returns (order: seq<nat>)
    ensures Schedule(ps, order)
    decreases Left(ps)
  {
    if w: nat :| Enabled(ps, w) {
      StepsLeft(ps, w);
      var rest := CanFinish(ps[w := ps[w][1..]]);
      order := [w] + rest;
      assert order[1..] == rest;
    } else {
      forall w | 0 <= w < |ps| ensures ps[w] == [] { assert !Enabled(ps, w); }
      order := [];
    }
  }

  /** The additions that are still to be made. */
  ghost function Left(ps: Programs): nat { if ps == [] then 0 else |ps[0]| + Left(ps[1..]) }

  lemma {:induction false} StepsLeft(ps: Programs, w: nat)
    requires Enabled(ps, w)
    ensures Left(ps[w := ps[w][1..]]) == Left(ps) - 1
  {
    var t := ps[w := ps[w][1..]];
    if w > 0 {
      StepsLeft(ps[1..], w - 1);
      assert t[1..] == ps[1..][w - 1 := ps[1..][w - 1][1..]];
    } else {
      assert t[1..] == ps[1..];
    }
  }

  /** What orbit plots for a number of samples: each worker at most its share, since the points it
      finds bad are skipped. */
  ghost predicate Plots(orbits: seq<seq<Shot>>, samples: nat) {
    |orbits| == WORKERS && forall w | 0 <= w < WORKERS :: Plottable(orbits[w]) && |orbits[w]| <= ShareOf(samples, w)
  }

  /** A histogram that is still empty in a bin. */
  ghost predicate Blank(h: Hist, bin: nat) { forall ch: Channel :: Cell(ch, bin) in h && h[Cell(ch, bin)] == 0 }

  /** However many of the samples are plotted, where, and in whatever interleaving: no bin ends with
      more colour than weight. */
  ghost predicate ColourBounded(s: Size, samples: nat) {
    forall h: Hist, orbits: seq<seq<Shot>>, order: seq<nat>, bin: nat, ch: Channel |
      Plots(orbits, samples) && Schedule(Plotted(s, orbits), order) && Blank(h, bin) && Cell(ch, bin) in Run(h, Plotted(s, orbits), order)
      && Cell(A, bin) in Run(h, Plotted(s, orbits), order) ::
      Run(h, Plotted(s, orbits), order)[Cell(ch, bin)] <= Run(h, Plotted(s, orbits), order)[Cell(A, bin)]
  }

  lemma {:induction false} PointsWithin(orbits: seq<seq<Shot>>, samples: nat, worker: nat)
    requires worker + |orbits| == WORKERS && forall w | 0 <= w < |orbits| :: |orbits[w]| <= ShareOf(samples, worker + w)
    ensures Points(orbits) <= |orbits| * (samples / WORKERS) + (if worker < samples % WORKERS then samples % WORKERS - worker else 0)
    decreases |orbits|
  {
    if orbits != [] {
      PointsWithin(orbits[1..], samples, worker + 1);
      assert |orbits| * (samples / WORKERS) == (|orbits| - 1) * (samples / WORKERS) + samples / WORKERS;
    }
  }

  lemma PlotsPoints(orbits: seq<seq<Shot>>, samples: nat)
    requires Plots(orbits, samples)
    ensures Points(orbits) <= samples
  {
    PointsWithin(orbits, samples, 0);
  }

  /** Grey points for all workers alike. */
  function GreyOrbits(each: nat, workers: nat): (orbits: seq<seq<Shot>>)
    ensures |orbits| == workers && forall w | 0 <= w < workers :: orbits[w] == seq(each, _ => GREY)
  {
    seq(workers, _ => seq(each, _ => GREY))
  }

  lemma {:induction false} GreyTotals(s: Size, each: nat, workers: nat)
    requires s.w >= 1 && s.h >= 1
    ensures forall w | 0 <= w < workers :: Plottable(GreyOrbits(each, workers)[w])
    ensures Total(Plotted(s, GreyOrbits(each, workers)), Cell(A, 0)) == workers * (each * SCALE)
    ensures Total(Plotted(s, GreyOrbits(each, workers)), Cell(R, 0)) == workers * (each * (SCALE / 2))
    decreases workers
  {
    hide Program, Sum;
    GreyProgram(s, each);
    if workers > 0 {
      GreyTotals(s, each, workers - 1);
      var orbits := GreyOrbits(each, workers);
      assert orbits[1..] == GreyOrbits(each, workers - 1);
      assert Plotted(s, orbits)[1..] == Plotted(s, orbits[1..]);
    }
  }

  /** With 2^40 grey points the weight of the bin wraps around to nothing and the colour does not. */
  lemma FullWordWraps(h: Hist, s: Size, order: seq<nat>)
    requires s.w >= 1 && s.h >= 1 && Blank(h, 0)
    requires (forall w | 0 <= w < WORKERS :: Plottable(GreyOrbits(FULL / WORKERS, WORKERS)[w]))
      && Schedule(Plotted(s, GreyOrbits(FULL / WORKERS, WORKERS)), order)
    ensures var t := Run(h, Plotted(s, GreyOrbits(FULL / WORKERS, WORKERS)), order);
      Cell(R, 0) in t && Cell(A, 0) in t && t[Cell(A, 0)] == 0 && t[Cell(R, 0)] == WORD / 2
  {
    hide Plotted, Schedule, Run, GreyOrbits;
    var ps := Plotted(s, GreyOrbits(FULL / WORKERS, WORKERS));
    GreyTotals(s, FULL / WORKERS, WORKERS);
    RunTotals(h, ps, order, Cell(R, 0));
    RunTotals(h, ps, order, Cell(A, 0));
  }

  /** Main result: colour stays below weight for all runs of a number of samples if and only if the
      number is less than 2^40. */
  lemma ColourExact(s: Size, samples: nat)
    requires s.w >= 1 && s.h >= 1
    ensures ColourBounded(s, samples) <==> samples < FULL
  {
    hide Plotted, Schedule, Run, Points, Plottable, Blank, GreyOrbits;
    if samples < FULL {
      forall h: Hist, orbits: seq<seq<Shot>>, order: seq<nat>, bin: nat, ch: Channel |
        Plots(orbits, samples) && Schedule(Plotted(s, orbits), order) && Blank(h, bin) && Cell(ch, bin) in Run(h, Plotted(s, orbits), order)
        && Cell(A, bin) in Run(h, Plotted(s, orbits), order)
        ensures Run(h, Plotted(s, orbits), order)[Cell(ch, bin)] <= Run(h, Plotted(s, orbits), order)[Cell(A, bin)]
      {
        PlotsPoints(orbits, samples);
        BlankAt(h, bin, ch);
        BlankAt(h, bin, A);
        ColourBelowWeight(h, s, orbits, order, bin, ch);
      }
    } else {
      var orbits := GreyOrbits(FULL / WORKERS, WORKERS);
      GreyTotals(s, FULL / WORKERS, WORKERS);
      ShareAtLeast(samples);
      var order := CanFinish(Plotted(s, orbits));
      var h := Zeroes();
      FullWordWraps(h, s, order);
      assert Plots(orbits, samples);
      assert !ColourBounded(s, samples);
    }
  }

  lemma BlankAt(h: Hist, bin: nat, ch: Channel)
    requires Blank(h, bin)
    ensures Cell(ch, bin) in h && h[Cell(ch, bin)] == 0
  {
  }

  lemma ShareAtLeast(samples: nat)
    requires samples >= FULL
    ensures forall w: nat :: ShareOf(samples, w) >= FULL / WORKERS
  {
  }

  /** The first bin of a new histogram. */
  lemma Zeroes() returns (h: Hist)
    ensures Blank(h, 0)
  {
    h := map[Cell(A, 0) := 0, Cell(R, 0) := 0, Cell(G, 0) := 0, Cell(B, 0) := 0];
    forall ch: Channel ensures Cell(ch, 0) in h && h[Cell(ch, 0)] == 0 {
      match ch
      case A =>
      case R =>
      case G =>
      case B =>
    }
  }

  // ------------------------------------------------------------- the shared arrays

  /** One channel after a list of additions. */
  function Bumped(bins: seq<nat>, p: seq<Add>, channel: Channel): (t: seq<nat>)
    ensures |t| == |bins|
    decreases |p|
  {
    if p == [] then bins
    else
      var i := p[0].cell.bin;
      Bumped(if p[0].cell.channel == channel && i < |bins| then bins[i := (bins[i] + p[0].amount) % WORD] else bins, p[1..], channel)
  }

  lemma {:induction false} BumpedConcat(bins: seq<nat>, p: seq<Add>, q: seq<Add>, channel: Channel)
    ensures Bumped(bins, p + q, channel) == Bumped(Bumped(bins, p, channel), q, channel)
    decreases |p|
  {
    if p == [] {
      assert p + q == q;
    } else {
      var i := p[0].cell.bin;
      var next := if p[0].cell.channel == channel && i < |bins| then bins[i := (bins[i] + p[0].amount) % WORD] else bins;
      BumpedConcat(next, p[1..], q, channel);
      assert (p + q)[1..] == p[1..] + q;
    }
  }

  lemma FourBumped(bins: seq<nat>, i: nat, a: nat, r: nat, g: nat, b: nat, channel: Channel)
    requires i < |bins|
    ensures Bumped(bins, Four(i, a, r, g, b), channel)
      == bins[i := (bins[i] + (match channel case A => a case R => r case G => g case B => b)) % WORD]
  {
    var first, second, third := [Add(Cell(A, i), a)], [Add(Cell(R, i), r)], [Add(Cell(G, i), g)];
    var last := [Add(Cell(B, i), b)];
    BumpedConcat(bins, first, second + (third + last), channel);
    BumpedConcat(Bumped(bins, first, channel), second, third + last, channel);
    BumpedConcat(Bumped(Bumped(bins, first, channel), second, channel), third, last, channel);
  }

  /** The arrays hold, per cell, what was there plus all that was aimed at it, modulo the word. */
  lemma {:induction false} BumpedTotals(bins: seq<nat>, p: seq<Add>, channel: Channel, i: nat)
    requires i < |bins| && bins[i] < WORD
    ensures Bumped(bins, p, channel)[i] == (bins[i] + Sum(p, Cell(channel, i))) % WORD
    decreases |p|
  {
    if p != [] {
      var k := p[0].cell.bin;
      var next := if p[0].cell.channel == channel && k < |bins| then bins[k := (bins[k] + p[0].amount) % WORD] else bins;
      BumpedTotals(next, p[1..], channel, i);
      Wraps(bins[i], AmountTo(p[0], Cell(channel, i)), Sum(p[1..], Cell(channel, i)));
    }
  }

  class Bins {
    const size: Size
    const a: array<nat>
    const r: array<nat>
    const g: array<nat>
    const b: array<nat>

    predicate Valid() {
      && a.Length == r.Length == g.Length == b.Length == size.w * size.h
      && a != r && a != g && a != b && r != g && r != b && g != b
    }

    constructor (w: int, h: int)
      ensures Valid() && fresh(a) && fresh(r) && fresh(g) && fresh(b)
      ensures size == Size(if w < 1 then 1 else w, if h < 1 then 1 else h)
      ensures forall k | 0 <= k < a.Length :: a[k] == r[k] == g[k] == b[k] == 0
    {
      var s := Size(if w < 1 then 1 else w, if h < 1 then 1 else h);
      size := s;
      a := new nat[s.w * s.h](_ => 0);
      r := new nat[s.w * s.h](_ => 0);
      g := new nat[s.w * s.h](_ => 0);
      b := new nat[s.w * s.h](_ => 0);
    }

    /** add, with the four atomic additions one after the other. */
    method AddOne(x: int, y: int, w: real, c: Colour)
      requires Valid() && UnitColour(c)
      modifies a, r, g, b
      ensures a[..] == Bumped(old(a[..]), Added(size, x, y, w, c), A)
      ensures r[..] == Bumped(old(r[..]), Added(size, x, y, w, c), R)
      ensures g[..] == Bumped(old(g[..]), Added(size, x, y, w, c), G)
      ensures b[..] == Bumped(old(b[..]), Added(size, x, y, w, c), B)
    {
      hide Share, Four;
      if w <= 0.0 || !Inside(size, x, y) { return; }
      WeightNonNegative(w);
      var aw := Weighted(w);
      if aw == 0 { return; }
      BinNonNegative(size, x, y);
      BinInside(size, x, y);
      var i := y * size.w + x;
      ghost var sr, sg, sb := Share(c.r, aw), Share(c.g, aw), Share(c.b, aw);
      FourBumped(a[..], i, aw, sr, sg, sb, A);
      FourBumped(r[..], i, aw, sr, sg, sb, R);
      FourBumped(g[..], i, aw, sr, sg, sb, G);
      FourBumped(b[..], i, aw, sr, sg, sb, B);
      BumpAt(a, i, aw);
      BumpAt(r, i, Share(c.r, aw));
      BumpAt(g, i, Share(c.g, aw));
      BumpAt(b, i, Share(c.b, aw));
    }

    /** splat: the four corners. */
    method SplatAt(x: real, y: real, c: Colour, weight: real)
      requires Valid() && UnitColour(c)
      modifies a, r, g, b
      ensures a[..] == Bumped(old(a[..]), Splat(size, x, y, c, weight), A)
      ensures r[..] == Bumped(old(r[..]), Splat(size, x, y, c, weight), R)
      ensures g[..] == Bumped(old(g[..]), Splat(size, x, y, c, weight), G)
      ensures b[..] == Bumped(old(b[..]), Splat(size, x, y, c, weight), B)
    {
      hide Added, Split, Bumped;
      BumpedNone(a[..], A);
      BumpedNone(r[..], R);
      BumpedNone(g[..], G);
      BumpedNone(b[..], B);
      if weight <= 0.0 { return; }
      var ix, iy := x.Floor, y.Floor;
      var k := Split(x - ix as real, y - iy as real, weight);
      ghost var p, q := Added(size, ix, iy, k.nw, c), Added(size, ix + 1, iy, k.ne, c);
      ghost var u, v := Added(size, ix, iy + 1, k.sw, c), Added(size, ix + 1, iy + 1, k.se, c);
      FourLists(a[..], p, q, u, v, A);
      FourLists(r[..], p, q, u, v, R);
      FourLists(g[..], p, q, u, v, G);
      FourLists(b[..], p, q, u, v, B);
      AddOne(ix, iy, k.nw, c);
      AddOne(ix + 1, iy, k.ne, c);
      AddOne(ix, iy + 1, k.sw, c);
      AddOne(ix + 1, iy + 1, k.se, c);
    }
  }

  /** One atomic addition. */
  method BumpAt(bins: array<nat>, i: nat, amount: nat)
    requires i < bins.Length
    modifies bins
    ensures bins[..] == old(bins[..])[i := (old(bins[i]) + amount) % WORD]
  {
    bins[i] := (bins[i] + amount) % WORD;
  }

  lemma BinInside(s: Size, x: int, y: int)
    requires Inside(s, x, y)
    ensures y * s.w + x < s.w * s.h
  {
    assert y * s.w <= (s.h - 1) * s.w;
    assert (s.h - 1) * s.w == s.w * s.h - s.w;
  }

  lemma BumpedNone(bins: seq<nat>, channel: Channel)
    ensures Bumped(bins, [], channel) == bins
  {
  }

  lemma FourLists(bins: seq<nat>, p: seq<Add>, q: seq<Add>, u: seq<Add>, v: seq<Add>, channel: Channel)
    ensures Bumped(bins, p + q + u + v, channel)
      == Bumped(Bumped(Bumped(Bumped(bins, p, channel), q, channel), u, channel), v, channel)
  {
    BumpedConcat(bins, p + q + u, v, channel);
    BumpedConcat(bins, p + q, u, channel);
    BumpedConcat(bins, p, q, channel);
  }
}
