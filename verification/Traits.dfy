/**
 Weighted discrete dimensions (internal/trait/trait.go and options.go). A random generator is the
 sequence of its uniform draws in [0, 1); weights are exact reals.
 */
module Traits {
  datatype Value = Value(name: string, weight: real)

  datatype Dim = Dim(name: string, key: string, values: seq<Value>)

  type Schema = seq<Dim>

  type Set = map<string, string>

  /** The k-th uniform draw of a generator. */
  type Rng = nat -> real

  ghost predicate Uniform(rng: Rng) { forall k :: 0.0 <= rng(k) < 1.0 }

  predicate HasValue(d: Dim, v: string) { exists k :: 0 <= k < |d.values| && d.values[k].name == v }

  function Positive(w: real): (p: real)
    ensures p >= 0.0
  {
    if w > 0.0 then w else 0.0
  }

  /** The sum of the drawable weights among the first n values. */
  function Cumulated(values: seq<Value>, n: nat): (w: real)
    requires n <= |values|
    ensures w >= 0.0
  {
    if n == 0 then 0.0 else Cumulated(values, n - 1) + Positive(values[n - 1].weight)
  }

  function TotalWeight(d: Dim): real { Cumulated(d.values, |d.values|) }

  lemma {:induction false} CumulatedGrows(values: seq<Value>, m: nat, n: nat)
    requires m <= n <= |values|
    ensures Cumulated(values, m) <= Cumulated(values, n)
    decreases n
  {
    if m < n { CumulatedGrows(values, m, n - 1); }
  }

  /** Value k owns this half-open interval of [0, total), as long as its weight. */
  predicate Owns(values: seq<Value>, k: nat, bisect: real)
    requires k < |values|
  {
    Cumulated(values, k) <= bisect < Cumulated(values, k + 1)
  }

  /** The intervals of different values do not overlap. */
  lemma OwnersDiffer(values: seq<Value>, j: nat, k: nat, bisect: real)
    requires j < |values| && k < |values| && Owns(values, j, bisect) && Owns(values, k, bisect)
    ensures j == k
  {
    if j < k {
      CumulatedGrows(values, j + 1, k);
    } else if k < j {
      CumulatedGrows(values, k + 1, j);
    }
  }

  /** The position a draw falls on; |values| when nothing is drawable. */
  function Drawn(values: seq<Value>, bisect: real, from: nat): (k: nat)
    requires from <= |values| && Cumulated(values, from) <= bisect
    ensures from <= k <= |values|
    ensures k < |values| ==> Owns(values, k, bisect) && values[k].weight > 0.0
    ensures k == |values| ==> Cumulated(values, |values|) <= bisect
    decreases |values| - from
  {
    if from == |values| then from
    else if Cumulated(values, from + 1) > bisect then from
    else Drawn(values, bisect, from + 1)
  }

  predicate Drawable(d: Dim) { TotalWeight(d) > 0.0 }

  lemma ScaledBelow(t: real, total: real)
    requires 0.0 <= t < 1.0 && total > 0.0
    ensures 0.0 <= t * total < total
  {
    assert (1.0 - t) * total > 0.0;
    assert (1.0 - t) * total == total - t * total;
  }

  /** Where a uniform draw falls on [0, total). */
  function Bisect(t: real, total: real): (b: real)
    requires 0.0 <= t < 1.0 && total > 0.0
    ensures 0.0 <= b < total
  {
    ScaledBelow(t, total);
    t * total
  }

  function DrawIndex(values: seq<Value>, bisect: real): (k: nat)
    requires 0.0 <= bisect < Cumulated(values, |values|)
    ensures k < |values| && values[k].weight > 0.0 && Owns(values, k, bisect)
  {
    Drawn(values, bisect, 0)
  }

  function Choice(d: Dim, t: real): (k: nat)
    requires Drawable(d) && 0.0 <= t < 1.0
    ensures k < |d.values| && d.values[k].weight > 0.0
  {
    DrawIndex(d.values, Bisect(t, TotalWeight(d)))
  }

  /** Value k is drawn exactly when the draw falls into its interval, so in proportion to its weight. */
  lemma DrawnByWeight(values: seq<Value>, bisect: real, k: nat)
    requires 0.0 <= bisect < Cumulated(values, |values|) && k < |values|
    ensures DrawIndex(values, bisect) == k <==> Cumulated(values, k) <= bisect < Cumulated(values, k) + Positive(values[k].weight)
  {
    if Owns(values, k, bisect) {
      OwnersDiffer(values, k, DrawIndex(values, bisect), bisect);
    }
  }

  /** draw: the fallback behind the loop is out of reach in exact arithmetic. */
  method Draw(d: Dim, t: real) returns (name: string)
    requires Drawable(d) && 0.0 <= t < 1.0
    ensures name == d.values[Choice(d, t)].name
  {
    var total := 0.0;
    for i := 0 to |d.values|
      invariant total == Cumulated(d.values, i)
    {
      if d.values[i].weight > 0.0 { total := total + d.values[i].weight; }
    }
    var k := Locate(d.values, Bisect(t, total));
    name := d.values[k].name;
  }

  method Locate(values: seq<Value>, bisect: real) returns (k: nat)
    requires 0.0 <= bisect < Cumulated(values, |values|)
    ensures k == DrawIndex(values, bisect)
  {
    var cum := 0.0;
    k := 0;
    while true
      invariant k <= |values| && cum == Cumulated(values, k) && cum <= bisect
      decreases |values| - k
    {
      assert k < |values|;
      if values[k].weight > 0.0 {
        cum := cum + values[k].weight;
        if cum > bisect {
          OwnersDiffer(values, k, DrawIndex(values, bisect), bisect);
          return;
        }
      }
      k := k + 1;
    }
  }

  // --------------------------------------------------------------------- schemas

  ghost predicate DistinctNames(s: Schema) { forall i, k | 0 <= i < k < |s| :: s[i].name != s[k].name }

  ghost predicate DistinctKeys(s: Schema) { forall i, k | 0 <= i < k < |s| :: s[i].key != s[k].key }

  ghost predicate DistinctValues(d: Dim) {
    forall i, k | 0 <= i < k < |d.values| :: d.values[i].name != d.values[k].name
  }

  predicate GoodDim(d: Dim) {
    d.name != "" && d.key != "" && d.values != [] && Drawable(d) && forall k | 0 <= k < |d.values| :: d.values[k].name != ""
  }

  /** What Validate accepts. */
  ghost predicate Wellformed(s: Schema) {
    DistinctNames(s) && DistinctKeys(s) && forall i | 0 <= i < |s| :: GoodDim(s[i]) && DistinctValues(s[i])
  }

  /** The values seen so far are named and distinct. */
  method ValidateValues(d: Dim) returns (ok: bool)
    ensures ok == (DistinctValues(d) && forall k | 0 <= k < |d.values| :: d.values[k].name != "")
  {
    var seen: set<string> := {};
    for i := 0 to |d.values|
      invariant forall x :: x in seen <==> exists k :: 0 <= k < i && d.values[k].name == x
      invariant forall k | 0 <= k < i :: d.values[k].name != ""
      invariant forall j, k | 0 <= j < k < i :: d.values[j].name != d.values[k].name
    {
      var v := d.values[i];
      if v.name == "" { return false; }
      if v.name in seen {
        var k :| 0 <= k < i && d.values[k].name == v.name;
        return false;
      }
      seen := seen + {v.name};
    }
    ok := true;
  }

  method Validate(s: Schema) returns (ok: bool)
    ensures ok == Wellformed(s)
  {
    var names: set<string>, keys: set<string> := {}, {};
    for i := 0 to |s|
      invariant forall x :: x in names <==> exists k :: 0 <= k < i && s[k].name == x
      invariant forall x :: x in keys <==> exists k :: 0 <= k < i && s[k].key == x
      invariant Wellformed(s[..i])
    {
      var d := s[i];
      if d.name in names {
        var k :| 0 <= k < i && s[k].name == d.name;
        return false;
      }
      if d.key in keys {
        var k :| 0 <= k < i && s[k].key == d.key;
        return false;
      }
      if d.name == "" || d.key == "" || |d.values| == 0 || TotalWeight(d) <= 0.0 { return false; }
      names, keys := names + {d.name}, keys + {d.key};
      var fine := ValidateValues(d);
      if !fine { return false; }
      assert s[..i + 1] == s[..i] + [d];
    }
    assert s[..|s|] == s;
    ok := true;
  }

  ghost function Names(s: Schema): (n: set<string>)
    ensures forall i | 0 <= i < |s| :: s[i].name in n
    ensures forall x <- n :: exists i :: 0 <= i < |s| && s[i].name == x
  {
    set i | 0 <= i < |s| :: s[i].name
  }

  ghost predicate AllDrawable(s: Schema) { forall i | 0 <= i < |s| :: Drawable(s[i]) }

  /** Derive: one draw per dimension, in schema order. */
  ghost function Derived(s: Schema, rng: Rng): (r: Set)
    requires AllDrawable(s) && Uniform(rng)
    ensures r.Keys == Names(s)
  {
    if s == [] then map[]
    else
      var n := |s| - 1;
      assert forall i | 0 <= i < n :: s[..n][i] == s[i];
      assert Names(s) == Names(s[..n]) + {s[n].name};
      Derived(s[..n], rng)[s[n].name := s[n].values[Choice(s[n], rng(n))].name]
  }

  method Derive(s: Schema, rng: Rng) returns (r: Set)
    requires AllDrawable(s) && Uniform(rng)
    ensures r == Derived(s, rng)
  {
    r := map[];
    for i := 0 to |s|
      invariant r == Derived(s[..i], rng)
    {
      assert s[..i + 1][..i] == s[..i];
      var v := Draw(s[i], rng(i));
      r := r[s[i].name := v];
    }
    assert s[..|s|] == s;
  }

  /** Every dimension draws at its own position. */
  lemma {:induction false} DerivedAt(s: Schema, rng: Rng, i: nat)
    requires AllDrawable(s) && Uniform(rng) && DistinctNames(s) && i < |s|
    ensures Derived(s, rng)[s[i].name] == s[i].values[Choice(s[i], rng(i))].name
  {
    var n := |s| - 1;
    if i < n {
      PrefixGood(s, n);
      DerivedAt(s[..n], rng, i);
      assert s[..n][i] == s[i] && s[i].name != s[n].name;
    }
  }

  lemma PrefixGood(s: Schema, n: nat)
    requires n <= |s|
    ensures AllDrawable(s) ==> AllDrawable(s[..n])
    ensures DistinctNames(s) ==> DistinctNames(s[..n])
  {
  }

  /** Main result: appending dimensions never changes what a seed draws for the others. */
  lemma AppendingKeepsDraws(s: Schema, more: Schema, rng: Rng, i: nat)
    requires AllDrawable(s + more) && AllDrawable(s) && Uniform(rng) && DistinctNames(s + more) && i < |s|
    ensures s[i].name in Derived(s + more, rng) && Derived(s + more, rng)[s[i].name] == Derived(s, rng)[s[i].name]
  {
    assert (s + more)[i] == s[i];
    assert DistinctNames(s) by {
      forall j, k | 0 <= j < k < |s| ensures s[j].name != s[k].name {
        assert (s + more)[j] == s[j] && (s + more)[k] == s[k];
      }
    }
    DerivedAt(s + more, rng, i);
    DerivedAt(s, rng, i);
  }

  /** A set of this schema: options of known dimensions only. */
  ghost predicate Valid(s: Schema, t: Set) { forall k <- t :: Offers(s, k, t[k]) }

  /** v is an option of the dimension called name. */
  predicate Offers(s: Schema, name: string, v: string) {
    exists i :: 0 <= i < |s| && s[i].name == name && HasValue(s[i], v)
  }

  lemma DerivedValid(s: Schema, rng: Rng)
    requires AllDrawable(s) && Uniform(rng) && DistinctNames(s)
    ensures Valid(s, Derived(s, rng)) && Derived(s, rng).Keys == Names(s)
  {
    forall k <- Derived(s, rng) ensures Offers(s, k, Derived(s, rng)[k]) {
      var i :| 0 <= i < |s| && s[i].name == k;
      DerivedAt(s, rng, i);
      assert HasValue(s[i], Derived(s, rng)[k]);
    }
  }

  // -------------------------------------------------------------------- overrides

  function Overlaid(base: Set, over: Set): Set { base + over }

  /** SetOverrides: all of the choices, or none. */
  method SetOverrides(s: Schema, over: Set, choices: Set) returns (ok: bool, next: Set)
    ensures ok == Valid(s, choices) && next == if ok then choices else over
  {
    var rest := choices.Keys;
    next := map[];
    while rest != {}
      invariant rest <= choices.Keys && next == map k | k in choices && k !in rest :: choices[k]
      invariant forall k <- choices.Keys - rest :: Offers(s, k, choices[k])
    {
      var k :| k in rest;
      if !Offers(s, k, choices[k]) { return false, over; }
      next := next[k := choices[k]];
      rest := rest - {k};
    }
    return true, next;
  }

  /** Resolve: pinning one dimension leaves the others exactly as that seed draws them. */
  lemma PinningKeepsOthers(s: Schema, rng: Rng, over: Set, name: string)
    requires AllDrawable(s) && Uniform(rng) && DistinctNames(s) && name in Names(s)
    ensures Overlaid(Derived(s, rng), over)[name] == if name in over then over[name] else Derived(s, rng)[name]
    ensures Valid(s, over) ==> Valid(s, Overlaid(Derived(s, rng), over)) && Overlaid(Derived(s, rng), over).Keys == Names(s)
  {
    var base := Derived(s, rng);
    if Valid(s, over) {
      DerivedValid(s, rng);
      OverlayValid(s, base, over);
    }
  }

  lemma OverlayValid(s: Schema, base: Set, over: Set)
    requires Valid(s, base) && Valid(s, over)
    ensures Valid(s, Overlaid(base, over))
    ensures base.Keys == Names(s) ==> Overlaid(base, over).Keys == Names(s)
  {
    forall k <- over ensures k in Names(s) {
      assert Offers(s, k, over[k]);
    }
    assert Overlaid(base, over).Keys == base.Keys + over.Keys;
  }

  // ------------------------------------------------------------------------ boost

  /** How many of the liked sets resolved the dimension to this value. */
  function Count(liked: seq<Set>, dim: string, value: string): (n: nat)
    ensures n <= |liked|
  {
    if liked == [] then 0
    else Count(liked[..|liked| - 1], dim, value)
         + (if dim in liked[|liked| - 1] && liked[|liked| - 1][dim] == value then 1 else 0)
  }

  /** Weight: that of the first value with the name. */
  function FirstWeight(values: seq<Value>, name: string): real {
    if values == [] then 0.0 else if values[0].name == name then values[0].weight else FirstWeight(values[1..], name)
  }

  /** The weight of a value after boosting; values that are never drawn stay so. */
  function Boosted(d: Dim, v: Value, liked: seq<Set>, strength: real): (w: real) {
    if strength > 0.0 && v.weight > 0.0 && v.name != "" && FirstWeight(d.values, v.name) > 0.0
    then v.weight + strength * Count(liked, d.name, v.name) as real else v.weight
  }

  function BoostedDim(d: Dim, liked: seq<Set>, strength: real): (b: Dim)
    ensures b.name == d.name && b.key == d.key && |b.values| == |d.values|
    ensures forall k | 0 <= k < |d.values| :: b.values[k] == Value(d.values[k].name, Boosted(d, d.values[k], liked, strength))
  {
    d.(values := seq(|d.values|, k requires 0 <= k < |d.values| =>
         Value(d.values[k].name, Boosted(d, d.values[k], liked, strength))))
  }

  function BoostedSchema(s: Schema, liked: seq<Set>, strength: real): (b: Schema)
    ensures |b| == |s|
    ensures forall i | 0 <= i < |s| :: b[i] == BoostedDim(s[i], liked, strength)
  {
    seq(|s|, i requires 0 <= i < |s| => BoostedDim(s[i], liked, strength))
  }

  /** Boosting never lowers a weight and never makes an undrawable value drawable. */
  lemma BoostRaises(d: Dim, v: Value, liked: seq<Set>, strength: real)
    ensures Boosted(d, v, liked, strength) >= v.weight
    ensures Boosted(d, v, liked, strength) > 0.0 <==> v.weight > 0.0
  {
    if strength > 0.0 {
      assert strength * Count(liked, d.name, v.name) as real >= 0.0;
    }
  }

  /** The liked sets that resolved the dimension to this value. */
  ghost function Fans(liked: seq<Set>, dim: string, value: string): set<int> {
    set i | 0 <= i < |liked| && dim in liked[i] && liked[i][dim] == value
  }

  lemma {:induction false} CountIsFans(liked: seq<Set>, dim: string, value: string)
    ensures Count(liked, dim, value) == |Fans(liked, dim, value)|
  {
    if liked == [] {
      assert Fans(liked, dim, value) == {};
    } else {
      var n := |liked| - 1;
      var init := liked[..n];
      CountIsFans(init, dim, value);
      var fan := if dim in liked[n] && liked[n][dim] == value then {n} else {};
      assert Fans(liked, dim, value) == Fans(init, dim, value) + fan;
    }
  }

  /** k is the place of the first value of that name. */
  ghost predicate FirstNamed(values: seq<Value>, k: nat, name: string) {
    k < |values| && values[k].name == name && forall j | 0 <= j < k :: values[j].name != name
  }

  lemma {:induction false} FirstWeightIs(values: seq<Value>, k: nat, name: string)
    requires FirstNamed(values, k, name)
    ensures FirstWeight(values, name) == values[k].weight
  {
    if k > 0 {
      assert values[0].name != name;
      forall j | 0 <= j < k - 1 ensures values[1..][j].name != name { assert values[1..][j] == values[j + 1]; }
      FirstWeightIs(values[1..], k - 1, name);
    }
  }

  /** Main result: a drawable value rises by the strength for each liked set that has it, whatever
      the other sets hold; all other values keep their weight. */
  lemma BoostExact(d: Dim, k: nat, first: nat, liked: seq<Set>, strength: real)
    requires k < |d.values| && strength > 0.0 && FirstNamed(d.values, first, d.values[k].name)
    ensures var v, w := d.values[k], BoostedDim(d, liked, strength).values[k];
      var fans := |Fans(liked, d.name, v.name)|;
      var raised := v.weight > 0.0 && d.values[first].weight > 0.0 && v.name != "";
      w.name == v.name && w.weight == if raised then v.weight + strength * fans as real else v.weight
  {
    CountIsFans(liked, d.name, d.values[k].name);
    FirstWeightIs(d.values, first, d.values[k].name);
  }

  lemma {:induction false} BoostedCumulated(d: Dim, liked: seq<Set>, strength: real, n: nat)
    requires n <= |d.values|
    ensures Cumulated(BoostedDim(d, liked, strength).values, n) >= Cumulated(d.values, n)
  {
    if n > 0 {
      BoostedCumulated(d, liked, strength, n - 1);
      BoostRaises(d, d.values[n - 1], liked, strength);
    }
  }

  /** Two schemas with the same dimensions and options, whatever the weights. */
  ghost predicate SameSpace(s: Schema, b: Schema) {
    |s| == |b| && forall i | 0 <= i < |s| :: s[i].name == b[i].name && SameOptions(s[i], b[i])
  }

  ghost predicate SameOptions(d: Dim, b: Dim) {
    |d.values| == |b.values| && forall k | 0 <= k < |d.values| :: d.values[k].name == b.values[k].name
  }

  lemma OfferedBySame(s: Schema, b: Schema, name: string, v: string)
    requires SameSpace(s, b) && Offers(s, name, v)
    ensures Offers(b, name, v)
  {
    var i :| 0 <= i < |s| && s[i].name == name && HasValue(s[i], v);
    var k :| 0 <= k < |s[i].values| && s[i].values[k].name == v;
    assert b[i].values[k].name == v;
    assert HasValue(b[i], v);
  }

  lemma SameNames(s: Schema, b: Schema)
    requires SameSpace(s, b)
    ensures Names(s) <= Names(b)
  {
    forall x <- Names(s) ensures x in Names(b) {
      var i :| 0 <= i < |s| && s[i].name == x;
      assert b[i].name == x;
    }
  }

  /** A boosted schema draws from the same options of the same dimensions. */
  lemma BoostKeepsSpace(s: Schema, liked: seq<Set>, strength: real)
    requires Wellformed(s)
    ensures var b := BoostedSchema(s, liked, strength);
      AllDrawable(b) && DistinctNames(b) && SameSpace(s, b) && SameSpace(b, s)
  {
    var b := BoostedSchema(s, liked, strength);
    forall i | 0 <= i < |b| ensures Drawable(b[i]) {
      BoostedCumulated(s[i], liked, strength, |s[i].values|);
    }
  }

  lemma SameValid(s: Schema, b: Schema, t: Set)
    requires SameSpace(b, s) && Valid(b, t)
    ensures Valid(s, t)
  {
    forall k <- t ensures Offers(s, k, t[k]) { OfferedBySame(b, s, k, t[k]); }
  }

  /** Boost: raise the counted values dimension by dimension on a deep copy. */
  method Boost(s: Schema, liked: seq<Set>, strength: real) returns (out: Schema)
    ensures out == BoostedSchema(s, liked, strength)
  {
    out := s;
    if strength <= 0.0 || |liked| == 0 {
      UnboostedSame(s, liked, strength);
      return;
    }
    for i := 0 to |s|
      invariant |out| == |s| && forall k | 0 <= k < |s| :: out[k] == if k < i then BoostedDim(s[k], liked, strength) else s[k]
    {
      var values := s[i].values;
      for j := 0 to |values|
        invariant |values| == |s[i].values|
        invariant forall k | 0 <= k < j :: values[k] == Value(s[i].values[k].name, Boosted(s[i], s[i].values[k], liked, strength))
        invariant forall k | j <= k < |values| :: values[k] == s[i].values[k]
      {
        if values[j].weight <= 0.0 { continue; }
        var n := 0;
        if values[j].name != "" && FirstWeight(s[i].values, values[j].name) > 0.0 { n := Counted(liked, s[i].name, values[j].name); }
        if n > 0 { values := values[j := Value(values[j].name, values[j].weight + strength * n as real)]; }
      }
      assert values == BoostedDim(s[i], liked, strength).values;
      out := out[i := s[i].(values := values)];
    }
  }

  lemma UnboostedSame(s: Schema, liked: seq<Set>, strength: real)
    requires strength <= 0.0 || |liked| == 0
    ensures BoostedSchema(s, liked, strength) == s
  {
    forall i | 0 <= i < |s| ensures BoostedDim(s[i], liked, strength) == s[i] {
      assert BoostedDim(s[i], liked, strength).values == s[i].values;
    }
  }

  method Counted(liked: seq<Set>, dim: string, value: string) returns (n: nat)
    ensures n == Count(liked, dim, value)
  {
    n := 0;
    for i := 0 to |liked|
      invariant n == Count(liked[..i], dim, value)
    {
      assert liked[..i + 1][..i] == liked[..i];
      if dim in liked[i] && liked[i][dim] == value { n := n + 1; }
    }
    assert liked[..|liked|] == liked;
  }
}
