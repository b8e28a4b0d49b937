/** The candidate planner (Public in internal/explore/explore.go). */
module Planner {
  import opened Basics
  import opened Traits

  /** Seeds are 64-bit words and wrap around. */
  const WORD: nat := 0x1_0000_0000_0000_0000
  const ATTEMPTS: nat := 128
  const WANTED: nat := 4

  datatype Mode = Explore | Neighbor | Lifted

  datatype Candidate = Candidate(seed: nat, traits: Set, mode: Mode, parent: Option<nat>)

  /** The generator a seed stands for. */
  type Generators = nat -> Rng

  ghost predicate Fair(rng: Generators) { forall n :: Uniform(rng(n)) }

  function SeedAt(seed: nat, attempt: nat): nat { (seed + attempt) % WORD }

  // ------------------------------------------------------------------------ seeds

  /** The seeds of all attempts. */
  function Tries(seed: nat): (t: seq<nat>)
    ensures |t| == ATTEMPTS && forall k | 0 <= k < |t| :: t[k] == SeedAt(seed, k)
  {
    seq(ATTEMPTS, k => if k < 0 then 0 else SeedAt(seed, k))
  }

  /** 128 consecutive words are different, wrapped or not. */
  lemma TriesDistinct(seed: nat)
    ensures Words(Tries(seed))
  {
    var t := Tries(seed);
    forall i, k | 0 <= i < k < |t| ensures t[i] != t[k] {
      SeedsDiffer(seed, i, k);
    }
  }

  lemma SeedsDiffer(seed: nat, a: nat, b: nat)
    requires a < b < WORD
    ensures SeedAt(seed, a) != SeedAt(seed, b)
  {
    var p, q := (seed + a) / WORD, (seed + b) / WORD;
    assert seed + a == p * WORD + SeedAt(seed, a);
    assert seed + b == q * WORD + SeedAt(seed, b);
    assert p <= q <= p + 1;
  }

  ghost predicate DistinctSeeds(r: seq<nat>) { forall i, k | 0 <= i < k < |r| :: r[i] != r[k] }

  ghost predicate Words(t: seq<nat>) { DistinctSeeds(t) && forall i | 0 <= i < |t| :: t[i] < WORD }

  /** The first `wanted` tries from `from` on that were not seen. */
  function Picked(tries: seq<nat>, seen: set<nat>, from: nat, wanted: nat): (r: seq<nat>)
    requires from <= |tries|
    ensures |r| <= wanted
    decreases |tries| - from
  {
    if from == |tries| || wanted == 0 then []
    else if tries[from] in seen then Picked(tries, seen, from + 1, wanted)
    else [tries[from]] + Picked(tries, seen + {tries[from]}, from + 1, wanted - 1)
  }

  /** Everything picked is new and one of the tries. */
  lemma {:induction false} PickedNew(tries: seq<nat>, seen: set<nat>, from: nat, wanted: nat)
    requires from <= |tries|
    ensures forall n <- Picked(tries, seen, from, wanted) :: n !in seen && n in tries
    decreases |tries| - from
  {
    if from < |tries| && wanted > 0 {
      if tries[from] in seen {
        PickedNew(tries, seen, from + 1, wanted);
      } else {
        PickedNew(tries, seen + {tries[from]}, from + 1, wanted - 1);
      }
    }
  }

  lemma {:induction false} PickedDistinct(tries: seq<nat>, seen: set<nat>, from: nat, wanted: nat)
    requires from <= |tries|
    ensures DistinctSeeds(Picked(tries, seen, from, wanted))
    decreases |tries| - from
  {
    if from < |tries| && wanted > 0 {
      if tries[from] in seen {
        PickedDistinct(tries, seen, from + 1, wanted);
      } else {
        var r := Picked(tries, seen + {tries[from]}, from + 1, wanted - 1);
        PickedDistinct(tries, seen + {tries[from]}, from + 1, wanted - 1);
        PickedNew(tries, seen + {tries[from]}, from + 1, wanted - 1);
        forall k | 0 <= k < |r| ensures r[k] != tries[from] { assert r[k] in r; }
      }
    }
  }

  function Least(a: nat, b: nat): nat { if a < b then a else b }

  /** How many of the tries from `from` on are new. */
  ghost function Left(tries: seq<nat>, seen: set<nat>, from: nat): nat
    requires from <= |tries|
    decreases |tries| - from
  {
    if from == |tries| then 0 else (if tries[from] in seen then 0 else 1) + Left(tries, seen, from + 1)
  }

  lemma {:induction false} LeftAgrees(tries: seq<nat>, seen: set<nat>, other: set<nat>, from: nat)
    requires from <= |tries| && forall k | from <= k < |tries| :: tries[k] in seen <==> tries[k] in other
    ensures Left(tries, seen, from) == Left(tries, other, from)
    decreases |tries| - from
  {
    if from < |tries| { LeftAgrees(tries, seen, other, from + 1); }
  }

  /** As many as wanted, or as many as are left. */
  lemma {:induction false} PickedCount(tries: seq<nat>, seen: set<nat>, from: nat, wanted: nat)
    requires from <= |tries| && DistinctSeeds(tries)
    ensures |Picked(tries, seen, from, wanted)| == Least(Left(tries, seen, from), wanted)
    decreases |tries| - from
  {
    if from < |tries| && wanted > 0 {
      if tries[from] in seen {
        PickedCount(tries, seen, from + 1, wanted);
      } else {
        PickedCount(tries, seen + {tries[from]}, from + 1, wanted - 1);
        LeftAgrees(tries, seen, seen + {tries[from]}, from + 1);
      }
    }
  }

  /** Every seen word spoils at most one of the tries. */
  lemma {:induction false} LeftAtLeast(tries: seq<nat>, seen: set<nat>, from: nat)
    requires from <= |tries| && DistinctSeeds(tries)
    ensures Left(tries, seen, from) >= |tries| - from - |seen|
    decreases |tries| - from
  {
    if from < |tries| {
      if tries[from] in seen {
        LeftAtLeast(tries, seen - {tries[from]}, from + 1);
        LeftAgrees(tries, seen, seen - {tries[from]}, from + 1);
      } else {
        LeftAtLeast(tries, seen, from + 1);
      }
    }
  }

  function SetOf(recent: seq<nat>): (r: set<nat>)
    ensures forall n :: n in r <==> n in recent
  {
    set n <- recent
  }

  function Plan(seed: nat, recent: seq<nat>): (r: seq<nat>)
    ensures |r| <= WANTED
  {
    Picked(Tries(seed), SetOf(recent), 0, WANTED)
  }

  lemma {:induction false} SetOfSize(recent: seq<nat>)
    ensures |SetOf(recent)| <= |recent|
  {
    if recent != [] {
      var init, last := recent[..|recent| - 1], recent[|recent| - 1];
      SetOfSize(init);
      assert SetOf(recent) == SetOf(init) + {last};
    }
  }

  /** Main result: with at most 124 recent seeds there are always exactly four new distinct ones. */
  lemma ExactlyFour(seed: nat, recent: seq<nat>)
    requires |recent| <= ATTEMPTS - WANTED
    ensures var r := Plan(seed, recent);
      |r| == WANTED && DistinctSeeds(r) && forall n <- r :: n !in recent && n < WORD
  {
    var tries, seen := Tries(seed), SetOf(recent);
    TriesDistinct(seed);
    PickedNew(tries, seen, 0, WANTED);
    PickedDistinct(tries, seen, 0, WANTED);
    PickedCount(tries, seen, 0, WANTED);
    forall n <- Plan(seed, recent) ensures n !in recent && n < WORD { assert n in tries; }
    LeftAtLeast(tries, seen, 0);
    SetOfSize(recent);
  }

  /** And 124 is exact: when the first 125 words to be tried are recent, only three are left. */
  lemma FourNeeds124(seed: nat)
    ensures var recent := Tries(seed)[..125]; |Plan(seed, recent)| == 3
  {
    var tries := Tries(seed);
    var recent := tries[..125];
    TriesDistinct(seed);
    forall k | 0 <= k < |tries| ensures tries[k] in SetOf(recent) <==> k < 125 {
      if k < 125 { assert recent[k] == tries[k]; }
    }
    LeftBehind(tries, SetOf(recent), 0, 125);
    PickedCount(tries, SetOf(recent), 0, WANTED);
  }

  lemma {:induction false} LeftBehind(tries: seq<nat>, seen: set<nat>, from: nat, n: nat)
    requires from <= |tries| && n <= |tries| && forall k | 0 <= k < |tries| :: tries[k] in seen <==> k < n
    ensures Left(tries, seen, from) == |tries| - (if from < n then n else from)
    decreases |tries| - from
  {
    if from < |tries| { LeftBehind(tries, seen, from + 1, n); }
  }

  // ------------------------------------------------------------------- candidates

  ghost predicate GoodParent(s: Schema, t: Set) { Valid(s, t) && |t| == |s| }

  ghost predicate Accepted(s: Schema, pins: Set, parents: seq<Candidate>, round: int, recent: seq<nat>) {
    && |parents| <= 4 && |recent| <= 128 && round >= 0 && Valid(s, pins)
    && forall i | 0 <= i < |parents| :: GoodParent(s, parents[i].traits)
  }

  /** Weight of an option in its dimension. */
  function WeightOf(s: Schema, name: string, v: string): real {
    if s == [] then 0.0 else if s[0].name == name then FirstWeight(s[0].values, v) else WeightOf(s[1..], name, v)
  }

  /** Whether a parent's value is taken over: drawable, or pinned anyway. */
  predicate Inherits(s: Schema, pins: Set, name: string, v: string) {
    WeightOf(s, name, v) > 0.0 || (name in pins && pins[name] == v)
  }

  function Inherited(s: Schema, base: Set, pins: Set, parent: Set): Set {
    base + Taken(s, pins, parent, {})
  }

  /** The parent's values taken over, but for the names still to be looked at. */
  function Taken(s: Schema, pins: Set, parent: Set, rest: set<string>): (t: Set)
    ensures forall k :: k in t <==> k in parent && k !in rest && Inherits(s, pins, k, parent[k])
    ensures forall k <- t :: t[k] == parent[k]
  {
    map k | k in parent && k !in rest && Inherits(s, pins, k, parent[k]) :: parent[k]
  }

  function TraitsOf(parents: seq<Candidate>): (r: seq<Set>)
    ensures |r| == |parents|
  {
    seq(|parents|, i requires 0 <= i < |parents| => parents[i].traits)
  }

  /** Which parent guides candidate i of a round. */
  function Guide(round: nat, i: nat, parents: nat): (g: nat)
    requires parents > 0
    ensures g < parents
  {
    (round % parents * 2 + i) % parents
  }

  /** Candidate i, from seed n: two guided by parents, one boosted, the rest unguided; pins win. */
  ghost function Proposal(s: Schema, pins: Set, parents: seq<Candidate>, round: nat, i: nat, n: nat, rng: Generators): Candidate
    requires Wellformed(s) && Fair(rng)
  {
    if parents != [] && i < 2 then
      var p := parents[Guide(round, i, |parents|)];
      Candidate(n, Overlaid(Inherited(s, Derived(s, rng(n)), pins, p.traits), pins), Neighbor, Some(p.seed))
    else if parents != [] && i == 2 then
      BoostKeepsSpace(s, TraitsOf(parents), 3.0);
      Candidate(n, Overlaid(Derived(BoostedSchema(s, TraitsOf(parents), 3.0), rng(n)), pins), Lifted, None)
    else
      Candidate(n, Overlaid(Derived(s, rng(n)), pins), Explore, None)
  }

  /** Every candidate is complete, uses known options only, obeys the pins, and may be a parent. */
  ghost predicate Legal(s: Schema, pins: Set, c: Candidate) {
    && Valid(s, c.traits) && c.traits.Keys == Names(s) && GoodParent(s, c.traits)
    && forall k <- pins :: k in c.traits && c.traits[k] == pins[k]
  }

  lemma {:induction false} NamesCount(s: Schema)
    requires DistinctNames(s)
    ensures |Names(s)| == |s|
  {
    if s != [] {
      var n := |s| - 1;
      PrefixGood(s, n);
      NamesCount(s[..n]);
      NamesPrefix(s);
      assert s[n].name !in Names(s[..n]) by {
        forall i | 0 <= i < n ensures s[..n][i].name != s[n].name { assert s[..n][i] == s[i]; }
      }
    } else {
      assert Names(s) == {};
    }
  }

  lemma NamesPrefix(s: Schema)
    requires s != []
    ensures Names(s) == Names(s[..|s| - 1]) + {s[|s| - 1].name}
  {
    var init := s[..|s| - 1];
    forall x <- Names(s) ensures x in Names(init) + {s[|s| - 1].name} {
      var i :| 0 <= i < |s| && s[i].name == x;
      if i < |s| - 1 { assert init[i].name == x; }
    }
    forall x <- Names(init) ensures x in Names(s) {
      var i :| 0 <= i < |init| && init[i].name == x;
      assert s[i].name == x;
    }
  }

  lemma LegalOverlay(s: Schema, pins: Set, base: Set, c: Candidate)
    requires Wellformed(s) && Valid(s, pins) && Valid(s, base) && base.Keys == Names(s) && c.traits == Overlaid(base, pins)
    ensures Legal(s, pins, c)
  {
    OverlayValid(s, base, pins);
    NamesCount(s);
    assert |c.traits| == |c.traits.Keys|;
  }

  lemma ParentInherited(s: Schema, base: Set, pins: Set, parent: Set)
    requires Wellformed(s) && Valid(s, base) && base.Keys == Names(s) && Valid(s, parent)
    ensures Valid(s, Inherited(s, base, pins, parent)) && Inherited(s, base, pins, parent).Keys == Names(s)
  {
    OverlayValid(s, base, Taken(s, pins, parent, {}));
  }

  lemma ProposalLegal(s: Schema, pins: Set, parents: seq<Candidate>, round: nat, recent: seq<nat>, i: nat, n: nat, rng: Generators)
    requires Wellformed(s) && Fair(rng) && Accepted(s, pins, parents, round, recent)
    ensures Legal(s, pins, Proposal(s, pins, parents, round, i, n, rng))
  {
    var c := Proposal(s, pins, parents, round, i, n, rng);
    DerivedValid(s, rng(n));
    if parents != [] && i < 2 {
      var p := parents[Guide(round, i, |parents|)];
      ParentInherited(s, Derived(s, rng(n)), pins, p.traits);
      LegalOverlay(s, pins, Inherited(s, Derived(s, rng(n)), pins, p.traits), c);
    } else if parents != [] && i == 2 {
      var b := BoostedSchema(s, TraitsOf(parents), 3.0);
      BoostKeepsSpace(s, TraitsOf(parents), 3.0);
      DerivedValid(b, rng(n));
      SameValid(s, b, Derived(b, rng(n)));
      SameNames(s, b);
      SameNames(b, s);
      LegalOverlay(s, pins, Derived(b, rng(n)), c);
    } else {
      LegalOverlay(s, pins, Derived(s, rng(n)), c);
    }
  }

  /** The weight of an option is that of the first value of its name in the dimension of that name. */
  lemma {:induction false} WeightIs(s: Schema, i: nat, k: nat, v: string)
    requires i < |s| && DistinctNames(s) && FirstNamed(s[i].values, k, v)
    ensures WeightOf(s, s[i].name, v) == s[i].values[k].weight
  {
    if i > 0 {
      assert s[0].name != s[i].name;
      forall a, b | 0 <= a < b < |s[1..]| ensures s[1..][a].name != s[1..][b].name {
        assert s[1..][a] == s[a + 1] && s[1..][b] == s[b + 1];
      }
      WeightIs(s[1..], i - 1, k, v);
    } else {
      FirstWeightIs(s[0].values, k, v);
    }
  }

  /** A parent has a value for every dimension. */
  lemma ParentComplete(s: Schema, t: Set)
    requires Wellformed(s) && GoodParent(s, t)
    ensures t.Keys == Names(s)
  {
    NamesCount(s);
    forall k <- t ensures k in Names(s) { assert Offers(s, k, t[k]); }
    assert |t.Keys| == |t|;
    SameSize(t.Keys, Names(s));
  }

  lemma SameSize(a: set<string>, b: set<string>)
    requires a <= b && |a| == |b|
    ensures a == b
  {
    assert b == a + (b - a);
    assert |b - a| == 0;
  }

  /** The value of one dimension of a candidate, by what decides it. */
  ghost predicate Resolved(c: Candidate, k: string, v: string) { k in c.traits && c.traits[k] == v }

  /** What a schema draws for its dimension d from seed n. */
  ghost function Own(s: Schema, d: nat, n: nat, rng: Generators): string
    requires d < |s| && Drawable(s[d]) && Fair(rng)
  {
    s[d].values[Choice(s[d], rng(n)(d))].name
  }

  lemma DrawnOwn(s: Schema, d: nat, n: nat, rng: Generators)
    requires AllDrawable(s) && DistinctNames(s) && Fair(rng) && d < |s|
    ensures s[d].name in Derived(s, rng(n)) && Derived(s, rng(n))[s[d].name] == Own(s, d, n, rng)
  {
    DerivedAt(s, rng(n), d);
  }

  /** Main result: candidates 0 and 1 name their parent and have its value in every unpinned
      dimension where it can be drawn; where it cannot, the seed's own draw stands. */
  lemma ParentsAreFollowed(s: Schema, pins: Set, parents: seq<Candidate>, round: nat, i: nat, n: nat, rng: Generators, d: nat)
    requires Wellformed(s) && Fair(rng) && Accepted(s, pins, parents, round, [])
    requires d < |s| && s[d].name !in pins && parents != [] && i < 2
    ensures var c, p, k := Proposal(s, pins, parents, round, i, n, rng), parents[Guide(round, i, |parents|)], s[d].name;
      && c.seed == n && c.mode == Neighbor && c.parent == Some(p.seed) && k in p.traits
      && Resolved(c, k, if WeightOf(s, k, p.traits[k]) > 0.0 then p.traits[k] else Own(s, d, n, rng))
  {
    hide Derived, GoodParent, WeightOf, Guide, BoostedSchema, Own;
    var p := parents[Guide(round, i, |parents|)];
    assert GoodParent(s, p.traits);
    ParentComplete(s, p.traits);
    DrawnOwn(s, d, n, rng);
  }

  /** Candidate 2 draws from the schema boosted by the parents. */
  lemma LiftedDraws(s: Schema, pins: Set, parents: seq<Candidate>, round: nat, n: nat, rng: Generators, d: nat)
    requires Wellformed(s) && Fair(rng) && d < |s| && s[d].name !in pins && parents != []
    ensures var c, b := Proposal(s, pins, parents, round, 2, n, rng), BoostedSchema(s, TraitsOf(parents), 3.0);
      && c.seed == n && c.mode == Lifted && c.parent == None
      && Drawable(b[d]) && Resolved(c, s[d].name, Own(b, d, n, rng))
  {
    hide Derived, BoostedSchema, Own, Drawable;
    BoostKeepsSpace(s, TraitsOf(parents), 3.0);
    var b := BoostedSchema(s, TraitsOf(parents), 3.0);
    assert AllDrawable(b) && b[d].name == s[d].name;
    DrawnOwn(b, d, n, rng);
  }

  /** All other candidates draw from the schema itself. */
  lemma ExplorersDraw(s: Schema, pins: Set, parents: seq<Candidate>, round: nat, i: nat, n: nat, rng: Generators, d: nat)
    requires Wellformed(s) && Fair(rng) && d < |s| && s[d].name !in pins && (parents == [] || i > 2)
    ensures var c := Proposal(s, pins, parents, round, i, n, rng);
      c.seed == n && c.mode == Explore && c.parent == None && Resolved(c, s[d].name, Own(s, d, n, rng))
  {
    hide Derived, BoostedSchema, Own;
    DrawnOwn(s, d, n, rng);
  }

  /** Over any |parents| consecutive rounds every parent guides some candidate. */
  lemma EveryParentGuides(round: nat, parents: nat, j: nat)
    requires 1 <= parents <= 4 && j < parents
    ensures exists r: nat, i: nat :: round <= r < round + parents && i < 2 && Guide(r, i, parents) == j
  {
    var k := if parents == 4 then j / 2 else if parents == 3 then 2 * j % 3 else 0;
    var i := if parents == 4 || parents == 2 then j % 2 else 0;
    var r := RoundWith(round, parents, k);
    assert Guide(r, i, parents) == j;
  }

  /** The next round that is k modulo the number of parents. */
  function RoundWith(round: nat, parents: nat, k: nat): (r: nat)
    requires 1 <= parents <= 4 && k < parents
    ensures round <= r < round + parents && r % parents == k
  {
    if round % parents <= k then round + (k - round % parents) else round + (k + parents - round % parents)
  }

  // ----------------------------------------------------------------------- method

  datatype Outcome = Proposed(candidates: seq<Candidate>) | Rejected

  method ValidSet(s: Schema, t: Set) returns (ok: bool)
    ensures ok == Valid(s, t)
  {
    var rest := t.Keys;
    while rest != {}
      invariant rest <= t.Keys && forall k <- t.Keys - rest :: Offers(s, k, t[k])
    {
      var k :| k in rest;
      if !Offers(s, k, t[k]) { return false; }
      rest := rest - {k};
    }
    ok := true;
  }

  method ValidParents(s: Schema, parents: seq<Candidate>) returns (ok: bool)
    ensures ok == forall i | 0 <= i < |parents| :: GoodParent(s, parents[i].traits)
  {
    for i := 0 to |parents|
      invariant forall k | 0 <= k < i :: GoodParent(s, parents[k].traits)
    {
      var valid := ValidSet(s, parents[i].traits);
      if !valid || |parents[i].traits| != |s| { return false; }
    }
    ok := true;
  }

  /** The overlay loops write into the candidate's own fresh map. */
  method Guided(s: Schema, base: Set, pins: Set, parent: Set) returns (t: Set)
    ensures t == Inherited(s, base, pins, parent)
  {
    t := base;
    var rest := parent.Keys;
    while rest != {}
      invariant rest <= parent.Keys
      invariant t == base + Taken(s, pins, parent, rest)
    {
      var k :| k in rest;
      ghost var before := Taken(s, pins, parent, rest);
      if Inherits(s, pins, k, parent[k]) {
        t := t[k := parent[k]];
        assert Taken(s, pins, parent, rest - {k}) == before[k := parent[k]];
      } else {
        assert Taken(s, pins, parent, rest - {k}) == before;
      }
      rest := rest - {k};
    }
  }

  method Propose(s: Schema, boosted: Schema, pins: Set, parents: seq<Candidate>, round: nat, i: nat, n: nat, rng: Generators)
    returns (c: Candidate)
    requires Wellformed(s) && Fair(rng) && boosted == BoostedSchema(s, TraitsOf(parents), 3.0)
    requires forall k | 0 <= k < |parents| :: GoodParent(s, parents[k].traits)
    requires |parents| <= 4 && Valid(s, pins)
    ensures Sanctioned(s, pins, parents, round, rng, i, c) && c.seed == n
  {
    hide Legal, Inherited, BoostedSchema, Derived;
    ProposalLegal(s, pins, parents, round, [], i, n, rng);
    var t := Derive(s, rng(n));
    if |parents| > 0 && i < 2 {
      var p := parents[Guide(round, i, |parents|)];
      t := Guided(s, t, pins, p.traits);
      c := Candidate(n, t + pins, Neighbor, Some(p.seed));
    } else if |parents| > 0 && i == 2 {
      BoostKeepsSpace(s, TraitsOf(parents), 3.0);
      t := Derive(boosted, rng(n));
      c := Candidate(n, t + pins, Lifted, None);
    } else {
      c := Candidate(n, t + pins, Explore, None);
    }
  }

  ghost predicate AllProposed(s: Schema, pins: Set, parents: seq<Candidate>, round: int, rng: Generators, out: seq<Candidate>)
    requires Wellformed(s) && Fair(rng)
  {
    round >= 0 && forall i: nat | i < |out| :: Sanctioned(s, pins, parents, round, rng, i, out[i])
  }

  ghost predicate Sanctioned(s: Schema, pins: Set, parents: seq<Candidate>, round: nat, rng: Generators, i: nat, c: Candidate)
    requires Wellformed(s) && Fair(rng)
  {
    Legal(s, pins, c) && c == Proposal(s, pins, parents, round, i, c.seed, rng)
  }

  lemma OneMore(s: Schema, pins: Set, parents: seq<Candidate>, round: nat, rng: Generators, out: seq<Candidate>, c: Candidate)
    requires Wellformed(s) && Fair(rng) && AllProposed(s, pins, parents, round, rng, out)
    requires Sanctioned(s, pins, parents, round, rng, |out|, c)
    ensures AllProposed(s, pins, parents, round, rng, out + [c])
  {
    var t := out + [c];
    forall i: nat | i < |t| ensures Sanctioned(s, pins, parents, round, rng, i, t[i]) {
      if i < |out| { assert t[i] == out[i]; }
    }
  }

  lemma SeedsGrow(out: seq<Candidate>, c: Candidate)
    ensures SeedsOf(out + [c]) == SeedsOf(out) + [c.seed]
  {
  }

  /** Public: distinct new seeds, pins obeyed, every candidate legal. */
  method Public(s: Schema, pins: Set, parents: seq<Candidate>, seed: nat, round: int, recent: seq<nat>, rng: Generators)
    returns (r: Outcome)
    requires Wellformed(s) && Fair(rng)
    ensures r.Proposed? <==> Accepted(s, pins, parents, round, recent)
    ensures r.Proposed? ==> SeedsOf(r.candidates) == Plan(seed, recent)
    ensures r.Proposed? ==> AllProposed(s, pins, parents, round, rng, r.candidates)
  {
    if |parents| > 4 || |recent| > 128 || round < 0 { return Rejected; }
    var pinsValid := ValidSet(s, pins);
    if !pinsValid { return Rejected; }
    var parentsValid := ValidParents(s, parents);
    if !parentsValid { return Rejected; }
    var out := Attempts(s, pins, parents, seed, round, recent, rng);
    r := Proposed(out);
  }

  /** The attempt loop of Public. */
  method Attempts(s: Schema, pins: Set, parents: seq<Candidate>, seed: nat, round: nat, recent: seq<nat>, rng: Generators)
    returns (out: seq<Candidate>)
    requires Wellformed(s) && Fair(rng) && Accepted(s, pins, parents, round, recent)
    ensures SeedsOf(out) == Plan(seed, recent) && AllProposed(s, pins, parents, round, rng, out)
  {
    var boosted := Boost(s, TraitsOf(parents), 3.0);
    ghost var tries := Tries(seed);
    var seen := SetOf(recent);
    out := [];
    var attempt := 0;
    ghost var done: seq<nat> := [];
    Gathers(done, tries, seen, 0);
    while attempt < ATTEMPTS && |out| < WANTED
      invariant attempt <= ATTEMPTS && done == SeedsOf(out)
      invariant Gathered(done, tries, seen, attempt) == Plan(seed, recent)
      invariant AllProposed(s, pins, parents, round, rng, out)
    {
      var n := SeedAt(seed, attempt);
      GatherStep(done, tries, seen, attempt, n);
      if n !in seen {
        out := Append(s, boosted, pins, parents, round, n, rng, out);
        seen, done := seen + {n}, done + [n];
      }
      attempt := attempt + 1;
    }
  }

  method Append(s: Schema, boosted: Schema, pins: Set, parents: seq<Candidate>, round: nat, n: nat, rng: Generators, out: seq<Candidate>)
    returns (next: seq<Candidate>)
    requires Wellformed(s) && Fair(rng) && boosted == BoostedSchema(s, TraitsOf(parents), 3.0)
    requires Accepted(s, pins, parents, round, []) && AllProposed(s, pins, parents, round, rng, out)
    ensures SeedsOf(next) == SeedsOf(out) + [n] && AllProposed(s, pins, parents, round, rng, next)
  {
    var c := Propose(s, boosted, pins, parents, round, |out|, n, rng);
    OneMore(s, pins, parents, round, rng, out, c);
    SeedsGrow(out, c);
    next := out + [c];
  }

  lemma GatherStep(done: seq<nat>, tries: seq<nat>, seen: set<nat>, from: nat, n: nat)
    requires from < |tries| && |done| < WANTED && n == tries[from]
    ensures Gathered(done, tries, seen, from)
         == if n in seen then Gathered(done, tries, seen, from + 1) else Gathered(done + [n], tries, seen + {n}, from + 1)
  {
  }

  /** The plan as the loop builds it, from what it has gathered so far. */
  ghost function Gathered(done: seq<nat>, tries: seq<nat>, seen: set<nat>, from: nat): seq<nat>
    requires from <= |tries|
    decreases |tries| - from
  {
    if from == |tries| || |done| >= WANTED then done
    else if tries[from] in seen then Gathered(done, tries, seen, from + 1)
    else Gathered(done + [tries[from]], tries, seen + {tries[from]}, from + 1)
  }

  lemma {:induction false} Gathers(done: seq<nat>, tries: seq<nat>, seen: set<nat>, from: nat)
    requires from <= |tries| && |done| <= WANTED
    ensures Gathered(done, tries, seen, from) == done + Picked(tries, seen, from, WANTED - |done|)
    decreases |tries| - from
  {
    if from < |tries| && |done| < WANTED {
      var n := tries[from];
      if n in seen {
        Gathers(done, tries, seen, from + 1);
      } else {
        Gathers(done + [n], tries, seen + {n}, from + 1);
        assert done + [n] + Picked(tries, seen + {n}, from + 1, WANTED - |done| - 1)
            == done + ([n] + Picked(tries, seen + {n}, from + 1, WANTED - |done| - 1));
      }
    }
  }

  function SeedsOf(out: seq<Candidate>): (r: seq<nat>)
    ensures |r| == |out| && forall i | 0 <= i < |r| :: r[i] == out[i].seed
  {
    seq(|out|, i requires 0 <= i < |out| => out[i].seed)
  }
}
