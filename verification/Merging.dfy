/**
 Merging sites into lobes (nearest and Merge of internal/cells/cells.go). A partition is specified
 by labels: labels[i] is the representative of the class of site i.
 */
module Merging {
  import opened Basics

  type Labels = seq<nat>

  const REACH := 4

  // ----------------------------------------------------------- nearest neighbours

  /** j is closer than k, by distance and then by index. */
  predicate Closer(dist: seq<real>, j: nat, k: nat)
    requires j < |dist| && k < |dist|
  {
    dist[j] < dist[k] || (dist[j] == dist[k] && j < k)
  }

  predicate Below(s: seq<nat>, n: nat) { forall k | 0 <= k < |s| :: s[k] < n }

  /** list with j inserted behind everything that is not farther. */
  function Inserted(dist: seq<real>, list: seq<nat>, j: nat): (r: seq<nat>)
    requires j < |dist| && Below(list, |dist|)
    ensures |r| == |list| + 1 && Below(r, |dist|)
    ensures forall x :: x in r <==> x == j || x in list
    ensures forall k | 0 <= k < |r| :: r[k] == j || r[k] in list
  {
    if list == [] then [j]
    else
      var n := |list| - 1;
      assert list == list[..n] + [list[n]];
      assert Below(list[..n], |dist|);
      if dist[j] < dist[list[n]] then Inserted(dist, list[..n], j) + [list[n]] else list + [j]
  }

  function Truncated(list: seq<nat>, reach: nat): seq<nat> { if |list| <= reach then list else list[..reach] }

  /** The selection among the first n sites. */
  function Select(dist: seq<real>, i: nat, reach: nat, n: nat): (r: seq<nat>)
    requires n <= |dist|
    ensures |r| <= reach && Below(r, n) && i !in r
  {
    if n == 0 then []
    else
      var r := Select(dist, i, reach, n - 1);
      if n - 1 == i then r else Truncated(Inserted(dist, r, n - 1), reach)
  }

  ghost predicate Ascends(dist: seq<real>, r: seq<nat>) {
    Below(r, |dist|) && forall a, b | 0 <= a < b < |r| :: Closer(dist, r[a], r[b])
  }

  /** What a search over all other sites would select: the closest ones, closest first. */
  ghost predicate Closest(dist: seq<real>, i: nat, reach: nat, n: nat, r: seq<nat>)
    requires n <= |dist|
  {
    && |r| <= reach && Below(r, n) && i !in r && Ascends(dist, r)
    && (forall j: nat | j < n && j != i && j !in r :: |r| == reach && forall a | 0 <= a < |r| :: Closer(dist, r[a], j))
  }

  lemma AppendAscends(dist: seq<real>, head: seq<nat>, x: nat)
    requires Ascends(dist, head) && x < |dist| && forall a | 0 <= a < |head| :: Closer(dist, head[a], x)
    ensures Ascends(dist, head + [x])
  {
  }

  lemma {:induction false} InsertedAscends(dist: seq<real>, list: seq<nat>, j: nat)
    requires j < |dist| && Below(list, j) && Ascends(dist, list)
    ensures Ascends(dist, Inserted(dist, list, j))
  {
    if list != [] {
      var n := |list| - 1;
      if dist[j] < dist[list[n]] {
        var head := Inserted(dist, list[..n], j);
        InsertedAscends(dist, list[..n], j);
        forall a | 0 <= a < |head| ensures Closer(dist, head[a], list[n]) {
          if head[a] != j {
            var b :| 0 <= b < n && list[..n][b] == head[a];
            assert Closer(dist, list[b], list[n]);
          }
        }
        AppendAscends(dist, head, list[n]);
      } else {
        forall a | 0 <= a < |list| ensures Closer(dist, list[a], j) {
          assert a < n ==> Closer(dist, list[a], list[n]);
        }
        AppendAscends(dist, list, j);
      }
    }
  }

  /** Main result: the selection agrees with brute force. */
  lemma {:induction false} SelectIsClosest(dist: seq<real>, i: nat, reach: nat, n: nat)
    requires n <= |dist|
    ensures Closest(dist, i, reach, n, Select(dist, i, reach, n))
  {
    if n > 0 {
      SelectIsClosest(dist, i, reach, n - 1);
      SelectStep(dist, i, reach, n, Select(dist, i, reach, n - 1));
    }
  }

  lemma SelectStep(dist: seq<real>, i: nat, reach: nat, n: nat, r: seq<nat>)
    requires 0 < n <= |dist| && Closest(dist, i, reach, n - 1, r)
    ensures Closest(dist, i, reach, n, if n - 1 == i then r else Truncated(Inserted(dist, r, n - 1), reach))
  {
    if n - 1 != i {
      InsertedAscends(dist, r, n - 1);
      TruncatedClosest(dist, i, reach, n, r, Inserted(dist, r, n - 1));
    }
  }

  lemma TruncatedClosest(dist: seq<real>, i: nat, reach: nat, n: nat, r: seq<nat>, full: seq<nat>)
    requires 0 < n <= |dist| && Closest(dist, i, reach, n - 1, r) && n - 1 != i
    requires |full| == |r| + 1 && forall x :: x in full <==> x == n - 1 || x in r
    requires Ascends(dist, full)
    ensures Closest(dist, i, reach, n, Truncated(full, reach))
  {
    var t := Truncated(full, reach);
    forall k | 0 <= k < |t| ensures t[k] < n && t[k] != i && t[k] == full[k] {
      assert full[k] in full;
      assert full[k] != n - 1 ==> exists b :: 0 <= b < |r| && r[b] == full[k];
    }
    forall j: nat | j < n && j != i && j !in t ensures |t| == reach && forall a | 0 <= a < |t| :: Closer(dist, t[a], j) {
      if j in full {
        var b :| 0 <= b < |full| && full[b] == j;
        assert forall c | 0 <= c < |t| :: t[c] == full[c] && t[c] != j;
      } else {
        assert j < n - 1 && j !in r && |r| == reach;
        Behind(dist, r, full, n - 1, j);
      }
    }
  }

  /** j is farther than all of r, and so than everything but possibly the last of full. */
  lemma Behind(dist: seq<real>, r: seq<nat>, full: seq<nat>, newest: nat, j: nat)
    requires newest < |dist| && j < newest && |full| == |r| + 1 && Below(full, |dist|) && Below(r, |dist|)
    requires forall x :: x in full <==> x == newest || x in r
    requires forall a | 0 <= a < |r| :: Closer(dist, r[a], j)
    requires forall a, b | 0 <= a < b < |full| :: Closer(dist, full[a], full[b])
    ensures forall a | 0 <= a < |full| - 1 :: Closer(dist, full[a], j)
  {
    var last := full[|full| - 1];
    forall a | 0 <= a < |full| - 1 ensures Closer(dist, full[a], j) {
      assert full[a] in full && last in full && Closer(dist, full[a], last);
      if full[a] == newest {
        var b :| 0 <= b < |r| && r[b] == last;
      } else {
        var b :| 0 <= b < |r| && r[b] == full[a];
      }
    }
  }

  datatype Point = Point(x: real, y: real)

  /** The distances of all sites from site i. */
  ghost function From(sites: seq<Point>, hyp: (real, real) -> real, i: nat): (d: seq<real>)
    requires i < |sites|
    ensures |d| == |sites|
    ensures forall j | 0 <= j < |d| :: d[j] == hyp(sites[i].x - sites[j].x, sites[i].y - sites[j].y)
  {
    seq(|sites|, j requires 0 <= j < |sites| => hyp(sites[i].x - sites[j].x, sites[i].y - sites[j].y))
  }

  /** nearest: two parallel slices, the new entry carried forward past every farther one. */
  method Nearest(sites: seq<Point>, hyp: (real, real) -> real, i: nat, reach: nat) returns (idx: seq<nat>)
    requires i < |sites| && reach >= 1
    ensures idx == Select(From(sites, hyp, i), i, reach, |sites|)
    ensures Closest(From(sites, hyp, i), i, reach, |sites|, idx)
  {
    hide Inserted, Truncated, Closest, From;
    ghost var all := From(sites, hyp, i);
    idx := [];
    var dist: seq<real> := [];
    for j := 0 to |sites|
      invariant idx == Select(all, i, reach, j) && Parallel(all, idx, dist)
    {
      if j == i { continue; }
      var d := hyp(sites[i].x - sites[j].x, sites[i].y - sites[j].y);
      idx, dist := Consider(idx, dist, j, d, reach, all);
    }
    SelectIsClosest(all, i, reach, |sites|);
  }

  method Consider(idx0: seq<nat>, dist0: seq<real>, j: nat, d: real, reach: nat, ghost all: seq<real>)
    returns (idx: seq<nat>, dist: seq<real>)
    requires Parallel(all, idx0, dist0) && j < |all| && d == all[j] && |idx0| <= reach && reach >= 1
    ensures idx == Truncated(Inserted(all, idx0, j), reach) && Parallel(all, idx, dist)
  {
    idx, dist := idx0, dist0;
    if |idx| == reach && d >= dist[|dist| - 1] { return; }
    ghost var base := idx;
    if |idx| < reach {
      idx, dist := idx + [j], dist + [d];
    } else {
      base := idx[..|idx| - 1];
      InsertedCut(all, idx, j, reach);
      idx, dist := idx[|idx| - 1 := j], dist[|dist| - 1 := d];
    }
    idx, dist := Carry(idx, dist, all, base, j);
  }

  ghost predicate Parallel(all: seq<real>, idx: seq<nat>, dist: seq<real>) {
    |idx| == |dist| && forall k | 0 <= k < |idx| :: idx[k] < |all| && dist[k] == all[idx[k]]
  }

  lemma InsertedCut(all: seq<real>, idx: seq<nat>, j: nat, reach: nat)
    requires j < |all| && |idx| == reach && reach >= 1 && Below(idx, |all|)
    requires all[j] < all[idx[reach - 1]]
    ensures Truncated(Inserted(all, idx, j), reach) == Inserted(all, idx[..reach - 1], j)
  {
  }

  method Carry(idx0: seq<nat>, dist0: seq<real>, ghost all: seq<real>, ghost base: seq<nat>, ghost j: nat)
    returns (idx: seq<nat>, dist: seq<real>)
    requires idx0 == base + [j] && Parallel(all, idx0, dist0) && j < |all| && Below(base, |all|)
    ensures idx == Inserted(all, base, j) && Parallel(all, idx, dist)
  {
    idx, dist := idx0, dist0;
    var k := |idx| - 1;
    assert idx[..k] == base && idx[k + 1..] == [];
    while k > 0 && dist[k] < dist[k - 1]
      invariant 0 <= k < |idx| && idx[k] == j && Parallel(all, idx, dist)
      invariant Around(all, idx, k, j) == Inserted(all, base, j)
    {
      CarryStep(all, idx, k, j);
      dist := dist[k := dist[k - 1]][k - 1 := dist[k]];
      idx := idx[k := idx[k - 1]][k - 1 := idx[k]];
      k := k - 1;
    }
    CarryEnds(all, idx, k, j);
  }

  /** The list that results from carrying on with j at position k. */
  ghost function Around(all: seq<real>, idx: seq<nat>, k: nat, j: nat): seq<nat>
    requires k < |idx| && j < |all| && Below(idx, |all|)
  {
    Inserted(all, idx[..k], j) + idx[k + 1..]
  }

  lemma CarryStep(all: seq<real>, idx: seq<nat>, k: nat, j: nat)
    requires 0 < k < |idx| && j < |all| && Below(idx, |all|) && idx[k] == j && all[j] < all[idx[k - 1]]
    ensures Around(all, idx[k := idx[k - 1]][k - 1 := idx[k]], k - 1, j) == Around(all, idx, k, j)
  {
    var next := idx[k := idx[k - 1]][k - 1 := idx[k]];
    assert idx[..k][..k - 1] == next[..k - 1];
    assert next[k..] == [idx[k - 1]] + idx[k + 1..];
    assert Inserted(all, idx[..k], j) == Inserted(all, next[..k - 1], j) + [idx[k - 1]];
  }

  lemma CarryEnds(all: seq<real>, idx: seq<nat>, k: nat, j: nat)
    requires k < |idx| && j < |all| && Below(idx, |all|) && idx[k] == j && (k == 0 || all[j] >= all[idx[k - 1]])
    ensures Around(all, idx, k, j) == idx
  {
    assert Inserted(all, idx[..k], j) == idx[..k] + [j];
    assert idx == idx[..k] + [j] + idx[k + 1..];
  }

  // -------------------------------------------------------- partitions by labels

  ghost function Class(labels: Labels, r: nat): set<nat> { set i: nat | i < |labels| && labels[i] == r }

  /** Every label is the label of its own site. */
  ghost predicate Rooted(labels: Labels) {
    forall i: nat | i < |labels| :: Represented(labels, i)
  }

  ghost predicate Represented(labels: Labels, i: nat)
    requires i < |labels|
  {
    labels[i] < |labels| && labels[labels[i]] == labels[i]
  }

  function Singles(n: nat): (r: Labels)
    ensures |r| == n && forall i | 0 <= i < n :: r[i] == i
  {
    seq(n, i => i)
  }

  function Joined(labels: Labels, gone: nat, into: nat): (r: Labels)
    ensures |r| == |labels|
    ensures forall i | 0 <= i < |r| :: r[i] == if labels[i] == gone then into else labels[i]
  {
    seq(|labels|, i requires 0 <= i < |labels| => if labels[i] == gone then into else labels[i])
  }

  /** Whether the class of j is another one and fits together with class r. */
  ghost predicate Fits(labels: Labels, r: nat, j: nat, maxSites: int)
    requires j < |labels|
  {
    labels[j] != r && |Class(labels, r)| + |Class(labels, labels[j])| <= maxSites
  }

  ghost function FirstFit(labels: Labels, r: nat, near: seq<nat>, maxSites: int): (k: nat)
    requires Below(near, |labels|)
    ensures k <= |near|
    ensures k < |near| ==> Fits(labels, r, near[k], maxSites)
    ensures forall n | 0 <= n < k :: !Fits(labels, r, near[n], maxSites)
  {
    if near == [] || Fits(labels, r, near[0], maxSites) then 0
    else
      var k := FirstFit(labels, r, near[1..], maxSites);
      assert forall n | 0 < n <= k :: n < |near| ==> near[n] == near[1..][n - 1];
      k + 1
  }

  /** The class to join, if any. */
  ghost function Partner(labels: Labels, r: nat, near: seq<nat>, maxSites: int): (p: Option<nat>)
    requires Below(near, |labels|)
    ensures p.Some? ==> p.value != r && |Class(labels, r)| + |Class(labels, p.value)| <= maxSites
    ensures p.Some? ==> exists j <- near :: labels[j] == p.value
  {
    var k := FirstFit(labels, r, near, maxSites);
    if k == |near| then None else Some(labels[near[k]])
  }

  /** The round of site i: maybe join the class of the first fitting neighbour. */
  ghost function Round(labels: Labels, i: nat, near: seq<nat>, draw: real, share: real, maxSites: int): (r: Labels)
    requires i < |labels| && Below(near, |labels|)
    ensures |r| == |labels|
  {
    if draw >= share || |Class(labels, labels[i])| >= maxSites then labels
    else
      var p := Partner(labels, labels[i], near, maxSites);
      if p.None? then labels else Joined(labels, p.value, labels[i])
  }

  ghost function Share(share: real, maxSites: int): real { if maxSites < 2 then 0.0 else share }

  ghost predicate Neighbours(near: seq<seq<nat>>) {
    forall i | 0 <= i < |near| :: Below(near[i], |near|) && i !in near[i]
  }

  /** The labels after the rounds of the first n sites. */
  ghost function Rounds(near: seq<seq<nat>>, draws: seq<real>, share: real, maxSites: int, n: nat): (r: Labels)
    requires n <= |near| == |draws| && Neighbours(near)
    ensures |r| == |near|
  {
    if n == 0 then Singles(|near|)
    else
      Round(Rounds(near, draws, share, maxSites, n - 1), n - 1, near[n - 1], draws[n - 1], Share(share, maxSites), maxSites)
  }

  // ------------------------------------------------------- what a merge promises

  lemma JoinedRooted(labels: Labels, gone: nat, into: nat)
    requires Rooted(labels) && into < |labels| && labels[into] == into && gone != into
    ensures Rooted(Joined(labels, gone, into))
  {
    forall i: nat | i < |labels| ensures Represented(Joined(labels, gone, into), i) {
      assert Represented(labels, i);
    }
  }

  lemma {:induction false} RoundsRooted(near: seq<seq<nat>>, draws: seq<real>, share: real, maxSites: int, n: nat)
    requires n <= |near| == |draws| && Neighbours(near)
    ensures Rooted(Rounds(near, draws, share, maxSites, n))
  {
    if n > 0 {
      RoundsRooted(near, draws, share, maxSites, n - 1);
      var labels := Rounds(near, draws, share, maxSites, n - 1);
      var p := Partner(labels, labels[n - 1], near[n - 1], maxSites);
      assert Represented(labels, n - 1);
      if p.Some? { JoinedRooted(labels, p.value, labels[n - 1]); }
    }
  }

  lemma JoinedClass(labels: Labels, gone: nat, into: nat)
    requires gone != into
    ensures Class(Joined(labels, gone, into), into) == Class(labels, into) + Class(labels, gone)
    ensures Class(labels, into) !! Class(labels, gone)
    ensures forall r | r != gone && r != into :: Class(Joined(labels, gone, into), r) == Class(labels, r)
    ensures Class(Joined(labels, gone, into), gone) == {}
  {
    var t := Joined(labels, gone, into);
    forall r | r != gone && r != into ensures Class(t, r) == Class(labels, r) {
      forall i: nat | i < |labels| ensures i in Class(t, r) <==> i in Class(labels, r) {}
    }
    forall i: nat | i < |labels| ensures i in Class(t, into) <==> i in Class(labels, into) + Class(labels, gone) {}
  }

  ghost predicate Capped(labels: Labels, maxSites: int) {
    forall r: nat :: |Class(labels, r)| <= if maxSites < 1 then 1 else maxSites
  }

  lemma RoundCapped(labels: Labels, i: nat, near: seq<nat>, draw: real, share: real, maxSites: int)
    requires i < |labels| && Below(near, |labels|) && Capped(labels, maxSites)
    ensures Capped(Round(labels, i, near, draw, share, maxSites), maxSites)
  {
    var t := Round(labels, i, near, draw, share, maxSites);
    if t != labels {
      JoinedClass(labels, Partner(labels, labels[i], near, maxSites).value, labels[i]);
    }
  }

  /** Main result: no cell takes more than max(maxSites, 1) sites. */
  lemma {:induction false} RoundsCapped(near: seq<seq<nat>>, draws: seq<real>, share: real, maxSites: int, n: nat)
    requires n <= |near| == |draws| && Neighbours(near)
    ensures Capped(Rounds(near, draws, share, maxSites, n), maxSites)
  {
    if n > 0 {
      RoundsCapped(near, draws, share, maxSites, n - 1);
      RoundCapped(Rounds(near, draws, share, maxSites, n - 1), n - 1, near[n - 1], draws[n - 1], Share(share, maxSites), maxSites);
    } else {
      var labels := Singles(|near|);
      forall r: nat ensures |Class(labels, r)| <= 1 {
        assert Class(labels, r) <= {r};
        SubsetSize(Class(labels, r), {r});
      }
    }
  }

  /** x and y are neighbours: one of them is among the nearest sites of the other. */
  ghost predicate Linked(near: seq<seq<nat>>, x: nat, y: nat) {
    (x < |near| && y in near[x]) || (y < |near| && x in near[y])
  }

  /** A walk inside one class, from neighbour to neighbour. */
  ghost predicate Walk(near: seq<seq<nat>>, labels: Labels, w: seq<nat>) {
    && w != [] && Below(w, |labels|)
    && (forall k | 0 <= k < |w| :: labels[w[k]] == labels[w[0]])
    && (forall k | 0 <= k < |w| - 1 :: Linked(near, w[k], w[k + 1]))
  }

  ghost predicate Connects(near: seq<seq<nat>>, labels: Labels, x: nat, y: nat) {
    exists w :: Walk(near, labels, w) && w[0] == x && w[|w| - 1] == y
  }

  /** Any two sites of a class are connected inside it: no cell is in two pieces. */
  ghost predicate InOnePiece(near: seq<seq<nat>>, labels: Labels) {
    forall x: nat, y: nat | x < |labels| && y < |labels| && labels[x] == labels[y] :: Connects(near, labels, x, y)
  }

  lemma Rejoin(near: seq<seq<nat>>, labels: Labels, gone: nat, into: nat, x: nat, y: nat)
    requires Connects(near, labels, x, y)
    ensures Connects(near, Joined(labels, gone, into), x, y)
  {
    var w :| Walk(near, labels, w) && w[0] == x && w[|w| - 1] == y;
    assert Walk(near, Joined(labels, gone, into), w);
  }

  lemma Bridge(near: seq<seq<nat>>, labels: Labels, x: nat, i: nat, j: nat, y: nat)
    requires Connects(near, labels, x, i) && Linked(near, i, j) && Connects(near, labels, j, y)
    requires i < |labels| && j < |labels| && labels[i] == labels[j]
    ensures Connects(near, labels, x, y)
  {
    var v :| Walk(near, labels, v) && v[0] == x && v[|v| - 1] == i;
    var w :| Walk(near, labels, w) && w[0] == j && w[|w| - 1] == y;
    var t := v + w;
    assert Below(t, |labels|);
    forall k | 0 <= k < |t| ensures labels[t[k]] == labels[t[0]] {
      assert labels[i] == labels[v[0]];
    }
    forall k | 0 <= k < |t| - 1 ensures Linked(near, t[k], t[k + 1]) {
      if k == |v| - 1 {
        assert t[k] == i && t[k + 1] == j;
      } else if k >= |v| {
        assert t[k] == w[k - |v|] && t[k + 1] == w[k + 1 - |v|];
      }
    }
    assert Walk(near, labels, t);
  }

  lemma JoinConnects(near: seq<seq<nat>>, labels: Labels, i: nat, j: nat, x: nat, y: nat)
    requires i < |labels| && j < |labels| && Linked(near, i, j) && labels[i] != labels[j] && InOnePiece(near, labels)
    requires x < |labels| && y < |labels|
    requires var t := Joined(labels, labels[j], labels[i]); t[x] == t[y]
    ensures Connects(near, Joined(labels, labels[j], labels[i]), x, y)
  {
    var t := Joined(labels, labels[j], labels[i]);
    if labels[x] == labels[y] {
      Rejoin(near, labels, labels[j], labels[i], x, y);
    } else if labels[x] == labels[i] {
      Rejoin(near, labels, labels[j], labels[i], x, i);
      Rejoin(near, labels, labels[j], labels[i], j, y);
      Bridge(near, t, x, i, j, y);
    } else {
      Rejoin(near, labels, labels[j], labels[i], x, j);
      Rejoin(near, labels, labels[j], labels[i], i, y);
      Bridge(near, t, x, j, i, y);
    }
  }

  lemma RoundInOnePiece(near: seq<seq<nat>>, labels: Labels, i: nat, draw: real, share: real, maxSites: int)
    requires i < |labels| == |near| && Below(near[i], |labels|) && InOnePiece(near, labels)
    ensures InOnePiece(near, Round(labels, i, near[i], draw, share, maxSites))
  {
    var after := Round(labels, i, near[i], draw, share, maxSites);
    if after != labels {
      var j :| j in near[i] && labels[j] == Partner(labels, labels[i], near[i], maxSites).value;
      assert Linked(near, i, j);
      forall x: nat, y: nat | x < |after| && y < |after| && after[x] == after[y] ensures Connects(near, after, x, y) {
        JoinConnects(near, labels, i, j, x, y);
      }
    }
  }

  /** Main result: sites share a cell only through chains of neighbouring sites of that cell. */
  lemma {:induction false} RoundsInOnePiece(near: seq<seq<nat>>, draws: seq<real>, share: real, maxSites: int, n: nat)
    requires n <= |near| == |draws| && Neighbours(near)
    ensures InOnePiece(near, Rounds(near, draws, share, maxSites, n))
  {
    var after := Rounds(near, draws, share, maxSites, n);
    if n == 0 {
      forall x: nat, y: nat | x < |after| && y < |after| && after[x] == after[y] ensures Connects(near, after, x, y) {
        assert Walk(near, after, [x]);
      }
    } else {
      RoundsInOnePiece(near, draws, share, maxSites, n - 1);
      RoundInOnePiece(near, Rounds(near, draws, share, maxSites, n - 1), n - 1, draws[n - 1], Share(share, maxSites), maxSites);
    }
  }

  // ---------------------------------------------------------------- one site's turn

  /** Site j is in another class than site i, and the two classes together keep to the limit. */
  ghost predicate MayJoin(labels: Labels, i: nat, j: nat, maxSites: int)
    requires i < |labels| && j < |labels|
  {
    labels[j] != labels[i] && |Class(labels, labels[i])| + |Class(labels, labels[j])| <= maxSites
  }

  /** near[k] is the nearest site that site i may join. */
  ghost predicate NearestMate(labels: Labels, i: nat, near: seq<nat>, maxSites: int, k: nat)
    requires i < |labels| && Below(near, |labels|)
  {
    k < |near| && MayJoin(labels, i, near[k], maxSites) && forall n | 0 <= n < k :: !MayJoin(labels, i, near[n], maxSites)
  }

  /** Main result: a site whose draw is below the share unites its class with that of its nearest
      mate, and all other pairs of sites stay as they were. */
  lemma RoundUnites(labels: Labels, i: nat, near: seq<nat>, draw: real, share: real, maxSites: int, k: nat, x: nat, y: nat)
    requires i < |labels| && Below(near, |labels|) && draw < share && NearestMate(labels, i, near, maxSites, k)
    requires x < |labels| && y < |labels|
    ensures var after := Round(labels, i, near, draw, share, maxSites);
      after[x] == after[y] <==>
        labels[x] == labels[y] || (labels[x] in {labels[i], labels[near[k]]} && labels[y] in {labels[i], labels[near[k]]})
  {
    hide Class;
    ClassHolds(labels, near[k]);
    FirstIsMate(labels, i, near, maxSites);
    assert FirstFit(labels, labels[i], near, maxSites) == k;
  }

  lemma FirstIsMate(labels: Labels, i: nat, near: seq<nat>, maxSites: int)
    requires i < |labels| && Below(near, |labels|)
    ensures var f := FirstFit(labels, labels[i], near, maxSites); f < |near| ==> NearestMate(labels, i, near, maxSites, f)
    ensures forall k: nat :: NearestMate(labels, i, near, maxSites, k) ==> k == FirstFit(labels, labels[i], near, maxSites)
  {
    hide Class;
    forall n | 0 <= n < |near| ensures Fits(labels, labels[i], near[n], maxSites) == MayJoin(labels, i, near[n], maxSites) {}
  }

  /** Otherwise nothing changes. */
  lemma RoundRests(labels: Labels, i: nat, near: seq<nat>, draw: real, share: real, maxSites: int)
    requires i < |labels| && Below(near, |labels|)
    requires draw >= share || forall k: nat :: !NearestMate(labels, i, near, maxSites, k)
    ensures Round(labels, i, near, draw, share, maxSites) == labels
  {
    hide Class;
    FirstIsMate(labels, i, near, maxSites);
  }

  // --------------------------------------------------------------- who reaches out

  /** Sites that shared a class still do. */
  ghost predicate Coarser(labels: Labels, after: Labels) {
    |after| == |labels| && forall x: nat, y: nat | x < |labels| && y < |labels| && labels[x] == labels[y] :: after[x] == after[y]
  }

  lemma CoarserChain(a: Labels, b: Labels, c: Labels)
    requires Coarser(a, b) && Coarser(b, c)
    ensures Coarser(a, c)
  {
  }

  lemma RoundCoarser(labels: Labels, i: nat, near: seq<nat>, draw: real, share: real, maxSites: int)
    requires i < |labels| && Below(near, |labels|)
    ensures Coarser(labels, Round(labels, i, near, draw, share, maxSites))
  {
    hide Partner;
  }

  lemma {:induction false} RoundsCoarser(near: seq<seq<nat>>, draws: seq<real>, share: real, maxSites: int, m: nat, n: nat)
    requires m <= n <= |near| == |draws| && Neighbours(near)
    ensures Coarser(Rounds(near, draws, share, maxSites, m), Rounds(near, draws, share, maxSites, n))
    decreases n
  {
    hide Round;
    if m < n {
      RoundsCoarser(near, draws, share, maxSites, m, n - 1);
      var before := Rounds(near, draws, share, maxSites, n - 1);
      RoundCoarser(before, n - 1, near[n - 1], draws[n - 1], Share(share, maxSites), maxSites);
      CoarserChain(Rounds(near, draws, share, maxSites, m), before, Rounds(near, draws, share, maxSites, n));
    }
  }

  lemma ClassesGrow(labels: Labels, after: Labels, x: nat)
    requires Coarser(labels, after) && x < |labels|
    ensures |Class(labels, labels[x])| <= |Class(after, after[x])|
  {
    SubsetSize(Class(labels, labels[x]), Class(after, after[x]));
  }

  lemma ClassHolds(labels: Labels, x: nat)
    requires x < |labels|
    ensures |Class(labels, labels[x])| >= 1
  {
    assert x in Class(labels, labels[x]);
  }

  /** Some site of x's class drew below the share, among the first n. */
  ghost predicate Reached(labels: Labels, draws: seq<real>, least: real, n: nat, x: nat)
    requires x < |labels| == |draws|
  {
    exists z: nat :: z < |labels| && z < n && labels[z] == labels[x] && draws[z] < least
  }

  ghost predicate AllReached(labels: Labels, draws: seq<real>, least: real, n: nat)
    requires |labels| == |draws|
  {
    forall x: nat, y: nat | x < |labels| && y < |labels| && x != y && labels[x] == labels[y] :: Reached(labels, draws, least, n, x)
  }

  lemma RoundReached(labels: Labels, i: nat, near: seq<nat>, draws: seq<real>, least: real, maxSites: int)
    requires i < |labels| == |draws| && Below(near, |labels|) && AllReached(labels, draws, least, i)
    ensures AllReached(Round(labels, i, near, draws[i], least, maxSites), draws, least, i + 1)
  {
    hide Partner;
    var t := Round(labels, i, near, draws[i], least, maxSites);
    forall x: nat, y: nat | x < |t| && y < |t| && x != y && t[x] == t[y] ensures Reached(t, draws, least, i + 1, x) {
      if labels[x] == labels[y] {
        assert Reached(labels, draws, least, i, x);
        var z: nat :| z < |labels| && z < i && labels[z] == labels[x] && draws[z] < least;
        assert t[z] == t[x];
      } else {
        assert t[i] == t[x] && draws[i] < least;
      }
    }
  }

  lemma {:induction false} RoundsReached(near: seq<seq<nat>>, draws: seq<real>, share: real, maxSites: int, n: nat)
    requires n <= |near| == |draws| && Neighbours(near)
    ensures AllReached(Rounds(near, draws, share, maxSites, n), draws, Share(share, maxSites), n)
  {
    hide Round, Reached;
    if n > 0 {
      RoundsReached(near, draws, share, maxSites, n - 1);
      RoundReached(Rounds(near, draws, share, maxSites, n - 1), n - 1, near[n - 1], draws, Share(share, maxSites), maxSites);
    }
  }

  /** Main result: two sites share a cell only if some site of that cell drew below the share. */
  lemma JoinedByDraw(near: seq<seq<nat>>, draws: seq<real>, share: real, maxSites: int, x: nat, y: nat)
    requires |near| == |draws| && Neighbours(near) && x < |near| && y < |near| && x != y
    requires var labels := Rounds(near, draws, share, maxSites, |near|); labels[x] == labels[y]
    ensures var labels := Rounds(near, draws, share, maxSites, |near|);
      exists z: nat :: z < |near| && labels[z] == labels[x] && draws[z] < Share(share, maxSites)
  {
    hide Rounds;
    RoundsReached(near, draws, share, maxSites, |near|);
    assert Reached(Rounds(near, draws, share, maxSites, |near|), draws, Share(share, maxSites), |near|, x);
  }

  /** j is in i's cell, or the two cells do not fit together. */
  ghost predicate TakenOrFull(labels: Labels, i: nat, j: nat, maxSites: int)
    requires i < |labels| && j < |labels|
  {
    labels[j] == labels[i] || |Class(labels, labels[i])| + |Class(labels, labels[j])| > maxSites
  }

  /** A site that reaches out joins a neighbour's cell, or finds none that fits. */
  ghost predicate Served(labels: Labels, i: nat, near: seq<nat>, maxSites: int)
    requires i < |labels| && Below(near, |labels|)
  {
    (exists j <- near :: labels[j] == labels[i]) || forall j <- near :: TakenOrFull(labels, i, j, maxSites)
  }

  lemma RoundServes(labels: Labels, i: nat, near: seq<nat>, draw: real, share: real, maxSites: int)
    requires i < |labels| && Below(near, |labels|) && draw < share
    ensures Served(Round(labels, i, near, draw, share, maxSites), i, near, maxSites)
  {
    var t := Round(labels, i, near, draw, share, maxSites);
    if |Class(labels, labels[i])| >= maxSites {
      forall j <- near ensures TakenOrFull(t, i, j, maxSites) { ClassHolds(labels, j); }
    } else {
      var k := FirstFit(labels, labels[i], near, maxSites);
      if k < |near| {
        assert near[k] in near && t[near[k]] == t[i];
      } else {
        forall j <- near ensures TakenOrFull(t, i, j, maxSites) {
          var n :| 0 <= n < |near| && near[n] == j;
          assert !Fits(labels, labels[i], near[n], maxSites);
        }
      }
    }
  }

  lemma StaysServed(labels: Labels, after: Labels, i: nat, near: seq<nat>, maxSites: int)
    requires i < |labels| && Below(near, |labels|) && Coarser(labels, after) && Served(labels, i, near, maxSites)
    ensures Served(after, i, near, maxSites)
  {
    if j :| j in near && labels[j] == labels[i] {
      assert after[j] == after[i];
    } else {
      forall j <- near ensures TakenOrFull(after, i, j, maxSites) {
        assert TakenOrFull(labels, i, j, maxSites);
        ClassesGrow(labels, after, i);
        ClassesGrow(labels, after, j);
      }
    }
  }

  /** Main result: every site that drew below the share ends in a cell with one of its nearest sites,
      or fits together with none of them. */
  lemma DrawnJoins(near: seq<seq<nat>>, draws: seq<real>, share: real, maxSites: int, i: nat)
    requires |near| == |draws| && Neighbours(near) && i < |near| && draws[i] < Share(share, maxSites)
    ensures Below(near[i], |near|) && Served(Rounds(near, draws, share, maxSites, |near|), i, near[i], maxSites)
  {
    hide Round, Served, Coarser;
    var before := Rounds(near, draws, share, maxSites, i);
    RoundServes(before, i, near[i], draws[i], Share(share, maxSites), maxSites);
    RoundsNext(near, draws, share, maxSites, i, before);
    RoundsCoarser(near, draws, share, maxSites, i + 1, |near|);
    StaysServed(Rounds(near, draws, share, maxSites, i + 1), Rounds(near, draws, share, maxSites, |near|), i, near[i], maxSites);
  }

  // --------------------------------------------------------------- dense numbers

  ghost function Values(group: seq<nat>): (v: set<nat>)
    ensures forall x: nat :: x in v <==> x in group
  {
    set x | x in group
  }

  /** Numbers 0, 1, 2, … in the order in which the classes first appear. */
  ghost predicate Numbered(group: seq<nat>, labels: Labels) {
    && |group| == |labels|
    && (forall i, k | 0 <= i < |group| && 0 <= k < |group| :: group[i] == group[k] <==> labels[i] == labels[k])
    && Dense(group)
  }

  /** Every number was used before or is the next one. */
  ghost predicate Dense(group: seq<nat>) {
    forall i | 0 <= i < |group| :: group[i] in Values(group[..i]) || group[i] == |Values(group[..i])|
  }

  // -------------------------------------------------------------- the forest

  /**
   The parent array represents the labels: parents stay in the class, roots are the labels, and
   depth falls toward the root, so every path ends there.
   */
  ghost predicate Forest(parent: seq<nat>, labels: Labels, depth: seq<nat>) {
    && |parent| == |labels| == |depth|
    && forall i: nat | i < |parent| :: Node(parent, labels, depth, i)
  }

  ghost predicate Node(parent: seq<nat>, labels: Labels, depth: seq<nat>, i: nat)
    requires i < |parent| == |labels| == |depth|
  {
    && parent[i] < |parent| && labels[i] < |parent| && labels[parent[i]] == labels[i]
    && (parent[i] == i <==> labels[i] == i) && (parent[i] != i ==> depth[parent[i]] < depth[i])
  }

  /** Halving one step of a path keeps the forest and its meaning. */
  lemma Halved(parent: seq<nat>, labels: Labels, depth: seq<nat>, r: nat)
    requires Forest(parent, labels, depth) && r < |parent| && parent[r] != r
    ensures Node(parent, labels, depth, r)
    ensures parent[parent[r]] < |parent| && Forest(parent[r := parent[parent[r]]], labels, depth)
    ensures labels[parent[parent[r]]] == labels[r] && depth[parent[parent[r]]] < depth[r]
  {
    assert Node(parent, labels, depth, r) && Node(parent, labels, depth, parent[r]);
    var next := parent[r := parent[parent[r]]];
    forall i: nat | i < |next| ensures Node(next, labels, depth, i) {
      assert Node(parent, labels, depth, i);
    }
  }

  /** find: path halving changes the forest, never what it represents. */
  method Find(parent: array<nat>, start: nat, ghost labels: Labels, ghost depth: seq<nat>) returns (r: nat)
    requires Forest(parent[..], labels, depth) && start < parent.Length
    modifies parent
    ensures Forest(parent[..], labels, depth) && r == labels[start]
    ensures r < parent.Length && labels[r] == r
  {
    r := start;
    while parent[r] != r
      invariant r < parent.Length && Forest(parent[..], labels, depth) && labels[r] == labels[start]
      decreases depth[r]
    {
      ghost var p := parent[..];
      Halved(p, labels, depth, r);
      parent[r] := parent[parent[r]];
      assert parent[..] == p[r := p[p[r]]];
      r := parent[r];
    }
    assert Node(parent[..], labels, depth, r);
  }

  ghost function Deepened(depth: seq<nat>, labels: Labels, gone: nat, into: nat): (d: seq<nat>)
    requires |depth| == |labels| && into < |depth|
    ensures |d| == |depth|
    ensures forall i | 0 <= i < |d| :: d[i] == if labels[i] == gone then depth[i] + depth[into] + 1 else depth[i]
  {
    seq(|depth|, i requires 0 <= i < |depth| => if labels[i] == gone then depth[i] + depth[into] + 1 else depth[i])
  }

  lemma JoinForest(parent: seq<nat>, labels: Labels, depth: seq<nat>, gone: nat, into: nat)
    requires Forest(parent, labels, depth) && gone < |parent| && into < |parent| && gone != into
    requires labels[gone] == gone && labels[into] == into
    ensures Forest(parent[gone := into], Joined(labels, gone, into), Deepened(depth, labels, gone, into))
  {
    var p, l, d := parent[gone := into], Joined(labels, gone, into), Deepened(depth, labels, gone, into);
    forall i: nat | i < |p| ensures Node(p, l, d, i) {
      assert Node(parent, labels, depth, i);
    }
  }

  ghost predicate Sized(size: seq<nat>, labels: Labels) {
    |size| == |labels| && forall r | 0 <= r < |labels| && labels[r] == r :: size[r] == |Class(labels, r)|
  }

  lemma JoinSized(size: seq<nat>, labels: Labels, gone: nat, into: nat)
    requires Sized(size, labels) && Rooted(labels) && gone < |labels| && into < |labels| && gone != into
    requires labels[gone] == gone && labels[into] == into
    ensures Sized(size[into := size[into] + size[gone]], Joined(labels, gone, into))
  {
    JoinedClass(labels, gone, into);
  }

  lemma FitsBySize(size: seq<nat>, labels: Labels, ri: nat, j: nat, maxSites: int)
    requires Sized(size, labels) && Rooted(labels) && j < |labels| && ri < |labels| && labels[ri] == ri
    ensures labels[j] < |labels| && labels[labels[j]] == labels[j]
    ensures Fits(labels, ri, j, maxSites) <==> labels[j] != ri && size[ri] + size[labels[j]] <= maxSites
  {
    assert Represented(labels, j);
  }

  lemma FirstFitIs(labels: Labels, r: nat, near: seq<nat>, maxSites: int, k: nat)
    requires Below(near, |labels|) && k <= |near| && NoneFit(labels, r, near[..k], maxSites)
    requires k < |near| ==> Fits(labels, r, near[k], maxSites)
    ensures FirstFit(labels, r, near, maxSites) == k
  {
    assert forall n | 0 <= n < k :: near[..k][n] == near[n];
  }

  ghost predicate NoneFit(labels: Labels, r: nat, near: seq<nat>, maxSites: int)
    requires Below(near, |labels|)
  {
    forall n | 0 <= n < |near| :: !Fits(labels, r, near[n], maxSites)
  }

  /** Whether neighbour j is of another class that has room. */
  method Test(parent: array<nat>, size: array<nat>, j: nat, ri: nat, maxSites: int, ghost labels: Labels, ghost depth: seq<nat>)
    returns (rj: nat, fits: bool)
    requires Forest(parent[..], labels, depth) && Sized(size[..], labels) && Rooted(labels) && parent != size
    requires j < |labels| && ri < |labels| && labels[ri] == ri
    modifies parent
    ensures rj < |labels| && labels[rj] == rj
    ensures Forest(parent[..], labels, depth) && rj == labels[j] && fits == Fits(labels, ri, j, maxSites)
  {
    FitsBySize(size[..], labels, ri, j, maxSites);
    ghost var z := size[..];
    rj := Find(parent, j, labels, depth);
    assert size[..] == z;
    fits := rj != ri && size[ri] + size[rj] <= maxSites;
  }

  /** The first neighbour whose class fits, as its root. */
  method Choose(parent: array<nat>, size: array<nat>, near: seq<nat>, ri: nat, maxSites: int,
      ghost labels: Labels, ghost depth: seq<nat>) returns (best: Option<nat>)
    requires Forest(parent[..], labels, depth) && Sized(size[..], labels) && Rooted(labels) && parent != size
    requires ri < |labels| && labels[ri] == ri && Below(near, |labels|)
    modifies parent
    ensures Forest(parent[..], labels, depth)
    ensures best == Partner(labels, ri, near, maxSites)
    ensures best.Some? ==> best.value < |labels| && labels[best.value] == best.value
  {
    ghost var z := size[..];
    for k := 0 to |near|
      invariant Forest(parent[..], labels, depth) && size[..] == z
      invariant NoneFit(labels, ri, near[..k], maxSites)
    {
      var rj, fits := Test(parent, size, near[k], ri, maxSites, labels, depth);
      if fits {
        FirstFitIs(labels, ri, near, maxSites, k);
        return Some(rj);
      }
      assert size[..] == z;
      assert near[..k + 1] == near[..k] + [near[k]];
    }
    assert near[..|near|] == near;
    FirstFitIs(labels, ri, near, maxSites, |near|);
    best := None;
  }

  /** The neighbour lists Merge works with. */
  ghost predicate NearestLists(near: seq<seq<nat>>, sites: seq<Point>, hyp: (real, real) -> real) {
    |near| == |sites| && forall i | 0 <= i < |near| :: near[i] == Select(From(sites, hyp, i), i, REACH, |sites|)
  }

  ghost function AllNearest(sites: seq<Point>, hyp: (real, real) -> real): (near: seq<seq<nat>>)
    ensures NearestLists(near, sites, hyp) && Neighbours(near)
  {
    seq(|sites|, i requires 0 <= i < |sites| => Select(From(sites, hyp, i), i, REACH, |sites|))
  }

  /** One round of the union loop, under the random draw of site i. */
  method UniteOne(parent: array<nat>, size: array<nat>, sites: seq<Point>, hyp: (real, real) -> real, i: nat,
      draw: real, share: real, maxSites: int, ghost labels: Labels, ghost depth: seq<nat>, ghost near: seq<seq<nat>>)
    returns (ghost after: Labels, ghost deeper: seq<nat>)
    requires i < parent.Length == size.Length == |sites| && parent != size
    requires Forest(parent[..], labels, depth) && Sized(size[..], labels) && Rooted(labels)
    modifies parent, size
    requires NearestLists(near, sites, hyp) && Below(near[i], |labels|)
    ensures after == Round(labels, i, near[i], draw, share, maxSites)
    ensures Forest(parent[..], after, deeper) && Sized(size[..], after) && Rooted(after)
  {
    after, deeper := labels, depth;
    if draw >= share { return; }
    ghost var z := size[..];
    var ri := Find(parent, i, labels, depth);
    assert size[..] == z && z[ri] == size[ri];
    if size[ri] >= maxSites { return; }
    var list := Nearest(sites, hyp, i, REACH);
    var best := Choose(parent, size, list, ri, maxSites, labels, depth);
    assert size[..] == z;
    if best.None? { return; }
    after, deeper := Union(parent, size, best.value, ri, labels, depth);
  }

  /** parent[best] = ri; size[ri] += size[best]. */
  method Union(parent: array<nat>, size: array<nat>, best: nat, ri: nat, ghost labels: Labels, ghost depth: seq<nat>)
    returns (ghost after: Labels, ghost deeper: seq<nat>)
    requires Forest(parent[..], labels, depth) && Sized(size[..], labels) && Rooted(labels) && parent != size
    requires best < parent.Length && ri < parent.Length && best != ri && labels[best] == best && labels[ri] == ri
    modifies parent, size
    ensures after == Joined(labels, best, ri)
    ensures Forest(parent[..], after, deeper) && Sized(size[..], after) && Rooted(after)
  {
    JoinedRooted(labels, best, ri);
    JoinForest(parent[..], labels, depth, best, ri);
    JoinSized(size[..], labels, best, ri);
    deeper := Deepened(depth, labels, best, ri);
    after := Joined(labels, best, ri);
    ghost var p, z := parent[..], size[..];
    parent[best] := ri;
    assert parent[..] == p[best := ri] && size[..] == z;
    var total := size[ri] + size[best];
    size[ri] := total;
    assert parent[..] == p[best := ri] && size[..] == z[ri := total];
  }

  lemma RoundsNext(near: seq<seq<nat>>, draws: seq<real>, share: real, maxSites: int, i: nat, labels: Labels)
    requires i < |near| == |draws| && Neighbours(near) && labels == Rounds(near, draws, share, maxSites, i)
    ensures Round(labels, i, near[i], draws[i], Share(share, maxSites), maxSites) == Rounds(near, draws, share, maxSites, i + 1)
  {
  }

  /** The union loop of Merge. */
  method Unite(parent: array<nat>, size: array<nat>, sites: seq<Point>, hyp: (real, real) -> real,
      draws: seq<real>, share: real, maxSites: int, ghost near: seq<seq<nat>>, ghost flat: seq<nat>)
    returns (ghost labels: Labels, ghost depth: seq<nat>)
    requires parent.Length == size.Length == |sites| == |draws| && parent != size
    requires NearestLists(near, sites, hyp) && Neighbours(near)
    requires Forest(parent[..], Singles(|sites|), flat) && Sized(size[..], Singles(|sites|))
    modifies parent, size
    ensures labels == Rounds(near, draws, share, maxSites, |sites|)
    ensures Forest(parent[..], labels, depth)
  {
    hide Forest, Sized, Rooted, Round;
    labels, depth := Singles(|sites|), flat;
    RoundsRooted(near, draws, share, maxSites, 0);
    var least := if maxSites < 2 then 0.0 else share;
    for i := 0 to |sites|
      invariant labels == Rounds(near, draws, share, maxSites, i)
      invariant Forest(parent[..], labels, depth) && Sized(size[..], labels) && Rooted(labels)
    {
      RoundsNext(near, draws, share, maxSites, i, labels);
      labels, depth := UniteOne(parent, size, sites, hyp, i, draws[i], least, maxSites, labels, depth, near);
    }
  }

  ghost predicate Injective(id: map<nat, nat>) { forall x <- id, y <- id :: id[x] == id[y] ==> x == y }

  ghost predicate Numbers(id: map<nat, nat>, labels: Labels, group: seq<nat>) {
    |group| <= |labels| && forall k | 0 <= k < |group| :: labels[k] in id && id[labels[k]] == group[k]
  }

  ghost predicate Used(id: map<nat, nat>, group: seq<nat>) {
    |id| == |Values(group)| && forall x <- id :: id[x] in Values(group) && id[x] < |id|
  }

  /** The map from roots to numbers after the first |group| sites. */
  ghost predicate Index(id: map<nat, nat>, labels: Labels, group: seq<nat>) {
    Numbers(id, labels, group) && Used(id, group) && Injective(id)
  }

  lemma ValuesGrow(group: seq<nat>, g: nat)
    ensures Values(group + [g]) == Values(group) + {g}
  {
  }

  lemma KnownRoot(id: map<nat, nat>, labels: Labels, group: seq<nat>)
    requires Index(id, labels, group) && |group| < |labels| && labels[|group|] in id
    ensures Index(id, labels, group + [id[labels[|group|]]])
  {
    ValuesGrow(group, id[labels[|group|]]);
    assert Values(group + [id[labels[|group|]]]) == Values(group);
  }

  lemma NewNumber(id: map<nat, nat>, labels: Labels, group: seq<nat>)
    requires Index(id, labels, group)
    ensures |id| !in Values(group)
  {
    forall k | 0 <= k < |group| ensures group[k] != |id| {
      assert labels[k] in id;
    }
  }

  lemma NewUsed(id: map<nat, nat>, group: seq<nat>, r: nat)
    requires Used(id, group) && r !in id && |id| !in Values(group)
    ensures Used(id[r := |id|], group + [|id|])
  {
    ValuesGrow(group, |id|);
    assert id[r := |id|].Keys == id.Keys + {r};
  }

  lemma NewInjective(id: map<nat, nat>, group: seq<nat>, r: nat)
    requires Injective(id) && Used(id, group) && r !in id
    ensures Injective(id[r := |id|])
  {
  }

  lemma NewRoot(id: map<nat, nat>, labels: Labels, group: seq<nat>)
    requires Index(id, labels, group) && |group| < |labels| && labels[|group|] !in id
    ensures Index(id[labels[|group|] := |id|], labels, group + [|id|])
  {
    NewNumber(id, labels, group);
    NewUsed(id, group, labels[|group|]);
    NewInjective(id, group, labels[|group|]);
  }

  lemma IndexNumbers(id: map<nat, nat>, labels: Labels, group: seq<nat>)
    requires Index(id, labels, group) && |group| == |labels|
    ensures forall i, k | 0 <= i < |group| && 0 <= k < |group| :: group[i] == group[k] <==> labels[i] == labels[k]
  {
    forall i, k | 0 <= i < |group| && 0 <= k < |group| ensures group[i] == group[k] <==> labels[i] == labels[k] {
      assert id[labels[i]] == group[i] && id[labels[k]] == group[k];
    }
  }

  lemma DenseGrows(group: seq<nat>, g: nat)
    requires Dense(group) && (g in Values(group) || g == |Values(group)|)
    ensures Dense(group + [g])
  {
    var t := group + [g];
    forall k | 0 <= k < |t| ensures t[k] in Values(t[..k]) || t[k] == |Values(t[..k])| {
      assert t[..k] == group[..k];
      if k == |group| { assert t[..k] == group; }
    }
  }

  /** Numbering the roots as they first appear. */
  method Compact(parent: array<nat>, ghost labels: Labels, ghost depth: seq<nat>) returns (group: seq<nat>)
    requires Forest(parent[..], labels, depth)
    modifies parent
    ensures Numbered(group, labels)
  {
    group := [];
    var id: map<nat, nat> := map[];
    for i := 0 to parent.Length
      invariant Forest(parent[..], labels, depth) && |group| == i && Index(id, labels, group)
      invariant Dense(group)
    {
      var r := Find(parent, i, labels, depth);
      if r in id {
        KnownRoot(id, labels, group);
      } else {
        NewRoot(id, labels, group);
        id := id[r := |id|];
      }
      DenseGrows(group, id[r]);
      group := group + [id[r]];
    }
    IndexNumbers(id, labels, group);
  }

  /** Merge: the numbered classes of the union rounds. */
  method Merge(sites: seq<Point>, hyp: (real, real) -> real, draws: seq<real>, share: real, maxSites: int) returns (group: seq<nat>)
    requires |draws| == |sites|
    ensures Numbered(group, Rounds(AllNearest(sites, hyp), draws, share, maxSites, |sites|))
  {
    var parent, size := new nat[|sites|](i => i), new nat[|sites|](_ => 1);
    SinglesForest(|sites|);
    assert parent[..] == Singles(|sites|) && size[..] == seq(|sites|, _ => 1);
    ghost var labels, depth := Unite(parent, size, sites, hyp, draws, share, maxSites,
      AllNearest(sites, hyp), seq(|sites|, _ => 0));
    group := Compact(parent, labels, depth);
  }

  /** What Merge's result means: cells are capped and in one piece, over the nearest lists. */
  lemma LobesAreSound(sites: seq<Point>, hyp: (real, real) -> real, draws: seq<real>, share: real, maxSites: int,
      group: seq<nat>, i: nat, k: nat)
    requires |draws| == |sites| && i < |sites| && k < |sites|
    requires Numbered(group, Rounds(AllNearest(sites, hyp), draws, share, maxSites, |sites|))
    ensures |Class(group, group[i])| <= if maxSites < 1 then 1 else maxSites
    ensures group[i] == group[k] ==>
      Connects(AllNearest(sites, hyp), Rounds(AllNearest(sites, hyp), draws, share, maxSites, |sites|), i, k)
    ensures Closest(From(sites, hyp, i), i, REACH, |sites|, AllNearest(sites, hyp)[i])
  {
    var near := AllNearest(sites, hyp);
    var labels := Rounds(near, draws, share, maxSites, |sites|);
    RoundsCapped(near, draws, share, maxSites, |sites|);
    RoundsInOnePiece(near, draws, share, maxSites, |sites|);
    SelectIsClosest(From(sites, hyp, i), i, REACH, |sites|);
    SameClass(group, labels, i);
  }

  lemma SameClass(group: seq<nat>, labels: Labels, i: nat)
    requires Numbered(group, labels) && i < |group|
    ensures Class(group, group[i]) == Class(labels, labels[i])
  {
    forall k: nat | k < |group| ensures k in Class(group, group[i]) <==> k in Class(labels, labels[i]) {}
  }

  lemma SinglesForest(n: nat)
    ensures Forest(Singles(n), Singles(n), seq(n, _ => 0)) && Sized(seq(n, _ => 1), Singles(n))
  {
    forall r | 0 <= r < n ensures |Class(Singles(n), r)| == 1 {
      assert Class(Singles(n), r) == {r};
    }
  }

  /** And whom the draws bring together: cells of several sites have one that drew below the share, and
      such a site is with a nearest site or fits together with none. */
  lemma LobesFollowDraws(sites: seq<Point>, hyp: (real, real) -> real, draws: seq<real>, share: real, maxSites: int,
      group: seq<nat>, i: nat, k: nat)
    requires |draws| == |sites| && i < |sites| && k < |sites|
    requires Numbered(group, Rounds(AllNearest(sites, hyp), draws, share, maxSites, |sites|))
    ensures i != k && group[i] == group[k] ==> maxSites >= 2 && exists z: nat :: z < |sites| && group[z] == group[i] && draws[z] < share
    ensures maxSites >= 2 && draws[i] < share ==> Served(group, i, AllNearest(sites, hyp)[i], maxSites)
  {
    hide Rounds, Served;
    var near := AllNearest(sites, hyp);
    var labels := Rounds(near, draws, share, maxSites, |sites|);
    if i != k && group[i] == group[k] {
      JoinedByDraw(near, draws, share, maxSites, i, k);
      var z: nat :| z < |near| && labels[z] == labels[i] && draws[z] < Share(share, maxSites);
      assert group[z] == group[i];
      RoundsCapped(near, draws, share, maxSites, |sites|);
      TwoInClass(labels, i, k);
    }
    if draws[i] < Share(share, maxSites) {
      DrawnJoins(near, draws, share, maxSites, i);
      SameServed(group, labels, i, near[i], maxSites);
    }
  }

  lemma TwoInClass(labels: Labels, i: nat, k: nat)
    requires i < |labels| && k < |labels| && i != k && labels[i] == labels[k]
    ensures |Class(labels, labels[i])| >= 2
  {
    SubsetSize({i, k}, Class(labels, labels[i]));
  }

  lemma SameServed(group: seq<nat>, labels: Labels, i: nat, near: seq<nat>, maxSites: int)
    requires Numbered(group, labels) && i < |labels| && Below(near, |labels|) && Served(labels, i, near, maxSites)
    ensures Served(group, i, near, maxSites)
  {
    SameClass(group, labels, i);
    if j :| j in near && labels[j] == labels[i] {
      assert group[j] == group[i];
    } else {
      forall j <- near ensures TakenOrFull(group, i, j, maxSites) {
        assert TakenOrFull(labels, i, j, maxSites);
        SameClass(group, labels, j);
      }
    }
  }
}
