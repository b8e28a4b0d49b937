/**
 Token buckets: the in-process limiter (internal/web/web.go) and its SQL twin
 (internal/persistence/read.go, Allow). Time is in seconds, amounts are exact reals.
 */
module RateLimit {
  import opened Basics

  type Key = nat

  datatype Rate = Rate(perMinute: real, burst: real)

  datatype Bucket = Bucket(tokens: real, at: real)

  type Keys = map<Key, Bucket>

  /** One access; times are those the limiter reads. */
  datatype Call = Call(key: Key, now: real)

  const CAPACITY: nat := 10000
  const STALE := 300.0

  predicate Sound(r: Rate) { r.perMinute >= 0.0 && r.burst >= 0.0 }

  /** A bucket is full again by the time it is stale. */
  predicate Recovers(r: Rate) { r.burst <= 5.0 * r.perMinute }

  /** Tokens gained in a span of time. */
  function Gain(r: Rate, seconds: real): real { seconds * r.perMinute / 60.0 }

  function Refilled(b: Bucket, r: Rate, now: real): real { Min(r.burst, b.tokens + Gain(r, now - b.at)) }

  /** The delete loop: buckets untouched for more than five minutes go. */
  function Swept(keys: Keys, now: real): (s: Keys)
    ensures forall k :: k in s <==> k in keys && now - keys[k].at <= STALE
    ensures forall k <- s :: s[k] == keys[k]
  {
    map k | k in keys && now - keys[k].at <= STALE :: keys[k]
  }

  /** Where the bucket of an access comes from. */
  function Base(keys: Keys, k: Key, now: real): Keys {
    if k in keys || |keys| < CAPACITY then keys else Swept(keys, now)
  }

  /** Refill the bucket of k and take a token if there is one. */
  function Taken(base: Keys, r: Rate, k: Key, now: real): (Keys, bool) {
    var b := if k in base then base[k] else Bucket(r.burst, now);
    var tokens := Refilled(b, r, now);
    (base[k := Bucket(if tokens >= 1.0 then tokens - 1.0 else tokens, now)], tokens >= 1.0)
  }

  /** allow. */
  function Admission(keys: Keys, r: Rate, k: Key, now: real): (Keys, bool) {
    var base := Base(keys, k, now);
    if k !in base && |base| >= CAPACITY then (base, false) else Taken(base, r, k, now)
  }

  // ------------------------------------------------------------------------- gain

  lemma GainAdds(r: Rate, a: real, b: real)
    ensures Gain(r, a) + Gain(r, b) == Gain(r, a + b)
  {
  }

  lemma GainMonotone(r: Rate, a: real, b: real)
    requires Sound(r) && a <= b
    ensures Gain(r, a) <= Gain(r, b)
  {
    GainAdds(r, a, b - a);
    assert (b - a) * r.perMinute >= 0.0;
  }

  lemma GainZero(r: Rate)
    ensures Gain(r, 0.0) == 0.0
  {
  }

  lemma GainOfStale(r: Rate)
    ensures Gain(r, STALE) == 5.0 * r.perMinute
  {
  }

  /** Five minutes refill a whole bucket when the burst is at most five minutes' worth. */
  lemma GainStale(r: Rate, seconds: real)
    requires Sound(r) && Recovers(r) && seconds > STALE
    ensures Gain(r, seconds) >= r.burst
  {
    GainMonotone(r, STALE, seconds);
  }

  // ------------------------------------------------------------- virtual tokens

  /** What k would find at this time; an unknown key finds a full bucket. */
  function Virtual(keys: Keys, r: Rate, k: Key, now: real): real {
    if k in keys then Refilled(keys[k], r, now) else r.burst
  }

  ghost predicate Orderly(keys: Keys, now: real) { forall k <- keys :: keys[k].tokens >= 0.0 && keys[k].at <= now }

  lemma VirtualBounds(keys: Keys, r: Rate, k: Key, now: real)
    requires Sound(r) && Orderly(keys, now)
    ensures 0.0 <= Virtual(keys, r, k, now) <= r.burst
  {
    hide Gain;
    GainZero(r);
    if k in keys { GainMonotone(r, 0.0, now - keys[k].at); }
  }

  /** Waiting adds at most what the span gains. */
  lemma VirtualWaits(keys: Keys, r: Rate, k: Key, now: real, later: real)
    requires Sound(r) && now <= later
    ensures Virtual(keys, r, k, later) <= Virtual(keys, r, k, now) + Gain(r, later - now)
  {
    hide Gain;
    GainZero(r);
    GainMonotone(r, 0.0, later - now);
    if k in keys { GainAdds(r, now - keys[k].at, later - now); }
  }

  /** Dropping stale buckets is invisible. */
  lemma SweepInvisible(keys: Keys, r: Rate, k: Key, now: real)
    requires Sound(r) && Recovers(r) && Orderly(keys, now)
    ensures Virtual(Swept(keys, now), r, k, now) == Virtual(keys, r, k, now)
  {
    hide Gain;
    if k in keys && k !in Swept(keys, now) { GainStale(r, now - keys[k].at); }
  }

  lemma TakenMoves(base: Keys, r: Rate, key: Key, now: real, mine: Rate, k: Key)
    requires Sound(r) && Sound(mine) && Orderly(base, now) && (k == key ==> mine == r)
    ensures var (after, allowed) := Taken(base, r, key, now);
      && Orderly(after, now)
      && Virtual(after, mine, k, now) == Virtual(base, mine, k, now) - (if k == key && allowed then 1.0 else 0.0)
  {
    hide Gain;
    VirtualBounds(base, r, key, now);
    GainZero(r);
    GainZero(mine);
    VirtualBounds(base, mine, k, now);
  }

  /** An access costs its own key a token if it is allowed, and no other key anything. */
  lemma AllowMoves(keys: Keys, r: Rate, key: Key, now: real, mine: Rate, k: Key)
    requires Sound(r) && Sound(mine) && Recovers(mine) && Orderly(keys, now) && (k == key ==> mine == r)
    ensures var (after, allowed) := Admission(keys, r, key, now);
      && Orderly(after, now)
      && Virtual(after, mine, k, now) == Virtual(keys, mine, k, now) - (if k == key && allowed then 1.0 else 0.0)
  {
    hide Gain, Taken, Virtual, Swept;
    SweepInvisible(keys, mine, k, now);
    TakenMoves(Base(keys, key, now), r, key, now, mine, k);
  }

  /** Whether a waiting bucket holds a token again: it must have room for one, and the seconds
      waited times the minute's tokens must make up what is missing. */
  predicate TokenBack(b: Bucket, r: Rate, now: real) {
    r.burst >= 1.0 && (now - b.at) * r.perMinute >= 60.0 * (1.0 - b.tokens)
  }

  lemma RefilledExactly(b: Bucket, r: Rate, now: real)
    ensures Refilled(b, r, now) >= 1.0 <==> TokenBack(b, r, now)
  {
    var gained := (now - b.at) * r.perMinute;
    assert Gain(r, now - b.at) == gained / 60.0;
  }

  /** Main result: the exact answer of the limiter. A known key is admitted when its token is back, an
      unknown one when a burst holds a token and the map has room or a bucket that is stale. */
  lemma AdmittedExactly(keys: Keys, r: Rate, key: Key, now: real)
    requires |keys| <= CAPACITY
    ensures var allowed := Admission(keys, r, key, now).1;
      if key in keys then allowed <==> TokenBack(keys[key], r, now)
      else allowed <==> r.burst >= 1.0 && (|keys| < CAPACITY || exists x <- keys :: now - keys[x].at > STALE)
  {
    hide Gain;
    if key in keys {
      RefilledExactly(keys[key], r, now);
    } else {
      GainZero(r);
      SweptRoom(keys, now);
    }
  }

  /** Sweeping makes room exactly when something is stale. */
  lemma SweptRoom(keys: Keys, now: real)
    ensures |Swept(keys, now)| <= |keys|
    ensures |Swept(keys, now)| < |keys| <==> exists x <- keys :: now - keys[x].at > STALE
  {
    SweptSize(keys, now);
    assert |keys| == |keys.Keys| && |Swept(keys, now)| == |Swept(keys, now).Keys|;
    if x :| x in keys && now - keys[x].at > STALE {
      SubsetSize(Swept(keys, now).Keys, keys.Keys - {x});
    } else {
      assert Swept(keys, now) == keys;
    }
  }

  lemma AllowOrderly(keys: Keys, r: Rate, key: Key, now: real)
    requires Sound(r) && Orderly(keys, now)
    ensures Orderly(Admission(keys, r, key, now).0, now)
  {
    hide Taken, Virtual;
    TakenMoves(Base(keys, key, now), r, key, now, r, key);
  }

  /** At most 10000 keys are ever held. */
  lemma AllowCapacity(keys: Keys, r: Rate, key: Key, now: real)
    requires |keys| <= CAPACITY
    ensures |Admission(keys, r, key, now).0| <= CAPACITY
  {
    hide Taken, Swept;
    SweptSize(keys, now);
    TakenSize(Base(keys, key, now), r, key, now);
  }

  lemma SweptSize(keys: Keys, now: real)
    ensures |Swept(keys, now)| <= |keys|
  {
    SubsetSize(Swept(keys, now).Keys, keys.Keys);
    assert |keys| == |keys.Keys| && |Swept(keys, now)| == |Swept(keys, now).Keys|;
  }

  lemma TakenSize(base: Keys, r: Rate, k: Key, now: real)
    ensures |Taken(base, r, k, now).0| == |base| + (if k in base then 0 else 1)
  {
    hide Refilled;
    var after := Taken(base, r, k, now).0;
    assert after.Keys == base.Keys + {k};
    assert |after| == |after.Keys| && |base| == |base.Keys|;
  }

  // -------------------------------------------------------------------------- runs

  type Rates = Key -> Rate

  function After(rates: Rates, calls: seq<Call>, n: nat): Keys
    requires n <= |calls|
  {
    if n == 0 then map[] else Admission(After(rates, calls, n - 1), rates(calls[n - 1].key), calls[n - 1].key, calls[n - 1].now).0
  }

  predicate Allowed(rates: Rates, calls: seq<Call>, n: nat)
    requires n < |calls|
  {
    Admission(After(rates, calls, n), rates(calls[n].key), calls[n].key, calls[n].now).1
  }

  /** Allowed accesses of k among calls i to j - 1. */
  ghost function Granted(rates: Rates, calls: seq<Call>, k: Key, i: nat, j: nat): nat
    requires i <= j <= |calls|
    decreases j - i
  {
    if i == j then 0 else Granted(rates, calls, k, i, j - 1) + (if calls[j - 1].key == k && Allowed(rates, calls, j - 1) then 1 else 0)
  }

  ghost predicate InOrder(calls: seq<Call>) { forall i, k | 0 <= i < k < |calls| :: calls[i].now <= calls[k].now }

  ghost predicate AllSound(rates: Rates) { forall k :: Sound(rates(k)) }

  lemma {:induction false} RunOrderly(rates: Rates, calls: seq<Call>, n: nat, now: real)
    requires AllSound(rates) && InOrder(calls) && n <= |calls| && (n > 0 ==> calls[n - 1].now <= now)
    ensures Orderly(After(rates, calls, n), now)
  {
    hide Admission;
    if n > 0 {
      RunOrderly(rates, calls, n - 1, calls[n - 1].now);
      AllowOrderly(After(rates, calls, n - 1), rates(calls[n - 1].key), calls[n - 1].key, calls[n - 1].now);
    }
  }

  lemma {:induction false} RunCapacity(rates: Rates, calls: seq<Call>, n: nat)
    requires n <= |calls|
    ensures |After(rates, calls, n)| <= CAPACITY
  {
    hide Admission;
    if n > 0 {
      RunCapacity(rates, calls, n - 1);
      AllowCapacity(After(rates, calls, n - 1), rates(calls[n - 1].key), calls[n - 1].key, calls[n - 1].now);
    }
  }

  /** Grants are paid for by the tokens at the start and the gain since. */
  lemma {:induction false} Paid(rates: Rates, calls: seq<Call>, k: Key, i: nat, j: nat)
    requires AllSound(rates) && Recovers(rates(k)) && InOrder(calls) && i < j <= |calls|
    ensures var last := calls[j - 1].now;
      Virtual(After(rates, calls, j), rates(k), k, last) + Granted(rates, calls, k, i, j) as real
      <= Virtual(After(rates, calls, i), rates(k), k, calls[i].now) + Gain(rates(k), last - calls[i].now)
    decreases j - i
  {
    hide Gain, Admission, Virtual;
    var c := calls[j - 1];
    var before := After(rates, calls, j - 1);
    RunOrderly(rates, calls, j - 1, c.now);
    AllowMoves(before, rates(c.key), c.key, c.now, rates(k), k);
    if j - 1 == i {
      GainZero(rates(k));
      assert Granted(rates, calls, k, i, i) == 0;
    } else {
      Paid(rates, calls, k, i, j - 1);
      VirtualWaits(before, rates(k), k, calls[j - 2].now, c.now);
      GainAdds(rates(k), calls[j - 2].now - calls[i].now, c.now - calls[j - 2].now);
    }
  }

  /** Main result: in any window the accesses granted to a key are at most its burst plus what the
      elapsed time gains, evictions included, whatever the other keys do. */
  lemma WindowBound(rates: Rates, calls: seq<Call>, k: Key, i: nat, j: nat)
    requires AllSound(rates) && Recovers(rates(k)) && InOrder(calls) && i < j <= |calls|
    ensures Granted(rates, calls, k, i, j) as real <= rates(k).burst + Gain(rates(k), calls[j - 1].now - calls[i].now)
  {
    hide Gain, Admission, Virtual;
    Paid(rates, calls, k, i, j);
    RunOrderly(rates, calls, i, calls[i].now);
    RunOrderly(rates, calls, j, calls[j - 1].now);
    VirtualBounds(After(rates, calls, i), rates(k), k, calls[i].now);
    VirtualBounds(After(rates, calls, j), rates(k), k, calls[j - 1].now);
  }

  class Limiter {
    var keys: Keys

    constructor ()
      ensures keys == map[]
    {
      keys := map[];
    }

    /** The loop that deletes stale keys. */
    method Sweep(now: real)
      modifies this
      ensures keys == Swept(old(keys), now)
    {
      var rest := keys.Keys;
      while rest != {}
        invariant rest <= old(keys).Keys
        invariant keys == map k | k in old(keys) && (k in rest || now - old(keys)[k].at <= STALE) :: old(keys)[k]
      {
        var k :| k in rest;
        if now - keys[k].at > STALE { keys := keys - {k}; }
        rest := rest - {k};
      }
    }

    method Allow(k: Key, r: Rate, now: real) returns (allowed: bool)
      modifies this
      ensures (keys, allowed) == Admission(old(keys), r, k, now)
    {
      hide Refilled, Swept;
      var b: Bucket;
      if k in keys {
        b := keys[k];
      } else {
        if |keys| >= CAPACITY {
          Sweep(now);
          if |keys| >= CAPACITY { return false; }
        }
        b := Bucket(r.burst, now);
      }
      var tokens := Refilled(b, r, now);
      allowed := tokens >= 1.0;
      if allowed { tokens := tokens - 1.0; }
      keys := keys[k := Bucket(tokens, now)];
    }
  }

  // ----------------------------------------- exactly when eviction keeps the bound

  /** No stale bucket, however empty, would be noticed missing. */
  ghost predicate EvictionHidden(r: Rate) {
    forall b: Bucket, now: real | b.tokens >= 0.0 && now - b.at > STALE :: Refilled(b, r, now) == r.burst
  }

  /** A little more than a span that does not refill the bucket, and still does not. */
  function Beyond(r: Rate, span: real): real
    requires Sound(r)
  {
    span + 30.0 * (r.burst - Gain(r, span)) / (r.perMinute + 1.0)
  }

  lemma BeyondEmpty(r: Rate, span: real)
    requires Sound(r) && Gain(r, span) < r.burst
    ensures Beyond(r, span) > span && Gain(r, Beyond(r, span)) < r.burst
  {
    var extra := Beyond(r, span) - span;
    Extra(r.burst - Gain(r, span), r.perMinute);
    GainAdds(r, span, extra);
  }

  lemma Extra(gap: real, perMinute: real)
    requires gap > 0.0 && perMinute >= 0.0
    ensures var extra := 30.0 * gap / (perMinute + 1.0); extra > 0.0 && extra * perMinute / 60.0 < gap
  {
    var extra := 30.0 * gap / (perMinute + 1.0);
    assert extra * (perMinute + 1.0) == 30.0 * gap;
  }

  /** Eviction never gives tokens away if and only if the burst is at most five minutes' gain. */
  lemma EvictionExact(r: Rate)
    requires Sound(r)
    ensures EvictionHidden(r) <==> Recovers(r)
  {
    hide Gain;
    if Recovers(r) {
      forall b: Bucket, now: real | b.tokens >= 0.0 && now - b.at > STALE ensures Refilled(b, r, now) == r.burst {
        GainStale(r, now - b.at);
      }
    } else {
      hide Beyond;
      GainOfStale(r);
      BeyondEmpty(r, STALE);
      var b := Bucket(0.0, 0.0);
      assert Refilled(b, r, Beyond(r, STALE)) < r.burst;
    }
  }

  // ------------------------------------------ exactly when the window bound holds

  /** No run in clock order grants a key too much in any window. */
  ghost predicate WindowsBounded(rates: Rates, k: Key) {
    forall calls: seq<Call>, i: nat, j: nat | InOrder(calls) && i < j <= |calls| ::
      Granted(rates, calls, k, i, j) as real <= rates(k).burst + Gain(rates(k), calls[j - 1].now - calls[i].now)
  }

  lemma {:induction false} GrantedSplits(rates: Rates, calls: seq<Call>, k: Key, i: nat, m: nat, j: nat)
    requires i <= m <= j <= |calls|
    ensures Granted(rates, calls, k, i, j) == Granted(rates, calls, k, i, m) + Granted(rates, calls, k, m, j)
    decreases j
  {
    hide Allowed;
    if m < j { GrantedSplits(rates, calls, k, i, m, j - 1); }
  }

  /** One token of a key that is new to a map with room, or was taken from at the same time. */
  lemma OneAllowed(rest: Keys, keys: Keys, r: Rate, k: Key, t: real, left: real)
    requires k !in rest && |rest| < CAPACITY && 1.0 <= left <= r.burst
    requires keys == if left == r.burst then rest else rest[k := Bucket(left, t)]
    ensures Admission(keys, r, k, t) == (rest[k := Bucket(left - 1.0, t)], true)
  {
    hide Gain, Swept;
    GainZero(r);
    assert t - t == 0.0;
    assert Refilled(Bucket(left, t), r, t) == left;
    assert Admission(keys, r, k, t).0 == rest[k := Bucket(left - 1.0, t)];
  }

  /** A new key in a map with room spends its burst at once. */
  lemma {:induction false} Spent(rates: Rates, calls: seq<Call>, k: Key, n: nat, q: nat, t: real, rest: Keys)
    requires q as real <= rates(k).burst && n + q <= |calls| && After(rates, calls, n) == rest && k !in rest && |rest| < CAPACITY
    requires forall m | n <= m < n + q :: calls[m] == Call(k, t)
    ensures After(rates, calls, n + q) == if q == 0 then rest else rest[k := Bucket(rates(k).burst - q as real, t)]
    ensures Granted(rates, calls, k, n, n + q) == q
    decreases q
  {
    hide Admission;
    if q > 0 {
      Spent(rates, calls, k, n, q - 1, t, rest);
      assert calls[n + q - 1] == Call(k, t);
      OneAllowed(rest, After(rates, calls, n + q - 1), rates(k), k, t, rates(k).burst - (q - 1) as real);
    }
  }

  /** The first n keys after k, all touched at time 0. */
  ghost predicate Crowd(keys: Keys, k: Key, n: nat) {
    |keys| == n && forall x <- keys :: k < x <= k + n && keys[x].at == 0.0
  }

  lemma CrowdGrows(keys: Keys, r: Rate, k: Key, n: nat)
    requires Crowd(keys, k, n) && n < CAPACITY
    ensures Crowd(Admission(keys, r, k + n + 1, 0.0).0, k, n + 1)
  {
    hide Gain, Refilled, Swept;
    TakenSize(keys, r, k + n + 1, 0.0);
  }

  lemma {:induction false} Crowded(rates: Rates, calls: seq<Call>, k: Key, n: nat)
    requires n < CAPACITY && n <= |calls| && forall m | 0 <= m < n :: calls[m] == Call(k + m + 1, 0.0)
    ensures Crowd(After(rates, calls, n), k, n) && Granted(rates, calls, k, 0, n) == 0
  {
    hide Admission;
    if n > 0 {
      Crowded(rates, calls, k, n - 1);
      assert calls[n - 1] == Call(k + n, 0.0);
      CrowdGrows(After(rates, calls, n - 1), rates(k + n), k, n - 1);
    }
  }

  /** A key beyond capacity finds only stale buckets and has them all deleted. */
  lemma AllSwept(keys: Keys, r: Rate, x: Key, t: real)
    requires |keys| >= CAPACITY && x !in keys && t > STALE && forall y <- keys :: keys[y].at == 0.0
    ensures var after := Admission(keys, r, x, t).0; after.Keys == {x} && |after| == 1
  {
    hide Gain, Refilled;
    assert Swept(keys, t) == map[];
    TakenSize(map[], r, x, t);
  }

  /** A crowd fills the map, k spends its burst, and when all are barely stale another key has them
      deleted and k spends its burst again. */
  ghost function TwiceSpent(k: Key, r: Rate, q: nat): seq<Call>
    requires Sound(r)
  {
    var t := Beyond(r, STALE);
    seq(CAPACITY - 1, m requires 0 <= m < CAPACITY - 1 => Call(k + m + 1, 0.0)) + seq(q, _ => Call(k, 0.0))
    + [Call(k + CAPACITY, t)] + seq(q, _ => Call(k, t))
  }

  lemma TwiceSpentGrants(rates: Rates, k: Key, q: nat)
    requires Sound(rates(k)) && q > 0 && q as real == rates(k).burst && !Recovers(rates(k))
    ensures var calls := TwiceSpent(k, rates(k), q);
      var n := |calls|;
      && InOrder(calls) && n == CAPACITY + 2 * q
      && rates(k).burst + Gain(rates(k), calls[n - 1].now - calls[0].now) < Granted(rates, calls, k, 0, n) as real
  {
    hide Gain, Beyond, After, Granted, Allowed;
    var r := rates(k);
    var t, calls, c := Beyond(r, STALE), TwiceSpent(k, r, q), CAPACITY - 1;
    GainOfStale(r);
    BeyondEmpty(r, STALE);
    Crowded(rates, calls, k, c);
    Spent(rates, calls, k, c, q, 0.0, After(rates, calls, c));
    Cleared(rates, calls, k, c + q, t);
    Spent(rates, calls, k, c + q + 1, q, t, After(rates, calls, c + q + 1));
    GrantedSplits(rates, calls, k, 0, c, c + q);
    GrantedSplits(rates, calls, k, 0, c + q, c + q + 1);
    GrantedSplits(rates, calls, k, 0, c + q + 1, |calls|);
    assert t - 0.0 == t;
  }

  /** The access in between: it clears the map and grants k nothing. */
  lemma Cleared(rates: Rates, calls: seq<Call>, k: Key, n: nat, t: real)
    requires n < |calls| && calls[n] == Call(k + CAPACITY, t) && t > STALE
    requires var keys := After(rates, calls, n);
      |keys| >= CAPACITY && k + CAPACITY !in keys && forall y <- keys :: keys[y].at == 0.0
    ensures k !in After(rates, calls, n + 1) && |After(rates, calls, n + 1)| < CAPACITY
    ensures Granted(rates, calls, k, n, n + 1) == 0
  {
    hide Admission;
    AllSwept(After(rates, calls, n), rates(k + CAPACITY), k + CAPACITY, t);
    assert Granted(rates, calls, k, n, n) == 0;
  }

  /** Main result: for whole bursts the bound holds in all windows of all ordered runs if and only if
      the burst is at most five minutes' gain. */
  lemma WindowExact(rates: Rates, k: Key, q: nat)
    requires AllSound(rates) && q > 0 && q as real == rates(k).burst
    ensures WindowsBounded(rates, k) <==> Recovers(rates(k))
  {
    hide Gain, Granted, InOrder, Recovers;
    if Recovers(rates(k)) {
      forall calls: seq<Call>, i: nat, j: nat | InOrder(calls) && i < j <= |calls|
        ensures Granted(rates, calls, k, i, j) as real <= rates(k).burst + Gain(rates(k), calls[j - 1].now - calls[i].now)
      {
        WindowBound(rates, calls, k, i, j);
      }
    } else {
      TwiceSpentGrants(rates, k, q);
      var calls := TwiceSpent(k, rates(k), q);
      assert !WindowsBounded(rates, k);
    }
  }

  // ------------------------------------------------------------------ the SQL twin

  /** DB.Allow: the table is counted first, even for a known key; a denial for lack of room rolls
      its deletion back. `now` is the transaction's clock and may step back between commits. */
  function Shared(keys: Keys, r: Rate, k: Key, now: real): (Keys, bool) {
    var base := if |keys| >= CAPACITY then Swept(keys, now) else keys;
    if |base| >= CAPACITY then (keys, false) else Taken(base, r, k, now)
  }

  /** Main result: the exact answer of the transaction. A full table without a stale row denies every
      key and is left as it was; else a row decides by its token, unless it is stale in a full table,
      and a key without a row, or whose row goes, starts with a burst. */
  lemma SharedExactly(rows: Keys, r: Rate, key: Key, now: real)
    requires |rows| <= CAPACITY
    ensures var (after, allowed) := Shared(rows, r, key, now);
      var full := |rows| >= CAPACITY;
      if full && forall x <- rows :: now - rows[x].at <= STALE then !allowed && after == rows
      else if key in rows && (!full || now - rows[key].at <= STALE) then allowed <==> TokenBack(rows[key], r, now)
      else allowed <==> r.burst >= 1.0
  {
    hide Gain;
    GainZero(r);
    SweptRoom(rows, now);
    if key in rows { RefilledExactly(rows[key], r, now); }
  }

  /** One committed transaction: an access, or the maintainer's deletion of stale rows. */
  datatype Commit = Access(key: Key, now: real) | Cleanup(now: real)

  function Next(rates: Rates, rows: Keys, c: Commit): Keys {
    match c
    case Access(k, now) => Shared(rows, rates(k), k, now).0
    case Cleanup(now) => Swept(rows, now)
  }

  /** The commit grants an access of k. */
  predicate Mine(rates: Rates, rows: Keys, c: Commit, k: Key) { c.Access? && c.key == k && Shared(rows, rates(k), k, c.now).1 }

  function Committed(rates: Rates, commits: seq<Commit>, n: nat): Keys
    requires n <= |commits|
  {
    if n == 0 then map[] else Next(rates, Committed(rates, commits, n - 1), commits[n - 1])
  }

  predicate Grants(rates: Rates, commits: seq<Commit>, k: Key, n: nat)
    requires n < |commits|
  {
    Mine(rates, Committed(rates, commits, n), commits[n], k)
  }

  ghost function GrantedIn(rates: Rates, commits: seq<Commit>, k: Key, i: nat, j: nat): nat
    requires i <= j <= |commits|
    decreases j - i
  {
    if i == j then 0 else GrantedIn(rates, commits, k, i, j - 1) + (if Grants(rates, commits, k, j - 1) then 1 else 0)
  }

  /** Commit n deletes the row of k, on the way or for good. */
  ghost predicate Evicts(rates: Rates, commits: seq<Commit>, k: Key, n: nat)
    requires n < |commits|
  {
    var before := Committed(rates, commits, n);
    k in before && k !in Kept(before, commits[n])
  }

  /** The rows a commit leaves before it writes its own. */
  function Kept(keys: Keys, c: Commit): Keys {
    match c
    case Access(_, now) => if |keys| >= CAPACITY && |Swept(keys, now)| < CAPACITY then Swept(keys, now) else keys
    case Cleanup(now) => Swept(keys, now)
  }

  /** One access with the row in place: it gains by the clock difference, which may be negative,
      and a grant leaves it non-negative. */
  lemma RowMoves(keys: Keys, r: Rate, key: Key, now: real, k: Key)
    requires k in keys && k in Kept(keys, Access(key, now))
    ensures var (after, allowed) := Shared(keys, r, key, now);
      k in after && (Rests(keys[k], after[k], k == key && allowed) || (k == key && Moves(keys[k], after[k], r, now, allowed)))
  {
    hide Gain;
  }

  ghost predicate Rests(b: Bucket, c: Bucket, allowed: bool) { c == b && !allowed }

  ghost predicate Moves(b: Bucket, c: Bucket, r: Rate, now: real, allowed: bool) {
    && c.at == now && c.tokens + (if allowed then 1.0 else 0.0) <= b.tokens + Gain(r, now - b.at)
    && (allowed ==> c.tokens >= 0.0)
  }

  /** Commit i is an access of k that touched its row. */
  ghost predicate Touches(rates: Rates, commits: seq<Commit>, k: Key, i: nat)
    requires i < |commits|
  {
    commits[i].Access? && commits[i].key == k && k in Committed(rates, commits, i + 1)
    && Committed(rates, commits, i + 1)[k].at == commits[i].now
    && Committed(rates, commits, i + 1)[k].tokens <= rates(k).burst - (if Grants(rates, commits, k, i) then 1.0 else 0.0)
  }

  lemma GrantTouches(rates: Rates, commits: seq<Commit>, k: Key, i: nat)
    requires i < |commits| && Grants(rates, commits, k, i)
    ensures Touches(rates, commits, k, i)
  {
    hide Gain;
  }

  /** While the row is in place, tokens and grants since commit i are covered by burst and clock. */
  lemma {:induction false} RowPaid(rates: Rates, commits: seq<Commit>, k: Key, i: nat, j: nat)
    requires i < j <= |commits| && Touches(rates, commits, k, i)
    requires forall n: nat | i < n < j :: !Evicts(rates, commits, k, n)
    ensures var m := Committed(rates, commits, j);
      k in m && m[k].tokens + GrantedIn(rates, commits, k, i, j) as real <= rates(k).burst + Gain(rates(k), m[k].at - commits[i].now)
    ensures Grants(rates, commits, k, j - 1) ==> var m := Committed(rates, commits, j); m[k].tokens >= 0.0 && m[k].at == commits[j - 1].now
    decreases j - i
  {
    hide Gain, Shared, Swept;
    var before, c := Committed(rates, commits, j - 1), commits[j - 1];
    if j - 1 == i {
      GainZero(rates(k));
      assert GrantedIn(rates, commits, k, i, i) == 0;
      if Grants(rates, commits, k, i) { FirstGrant(before, rates(k), k, c.now); }
    } else {
      RowPaid(rates, commits, k, i, j - 1);
      assert !Evicts(rates, commits, k, j - 1);
      if c.Access? {
        RowMoves(before, rates(c.key), c.key, c.now, k);
        GainAdds(rates(k), before[k].at - commits[i].now, c.now - before[k].at);
      }
    }
  }

  lemma FirstGrant(keys: Keys, r: Rate, k: Key, now: real)
    requires Shared(keys, r, k, now).1
    ensures var m := Shared(keys, r, k, now).0; k in m && m[k].tokens >= 0.0 && m[k].at == now
  {
    hide Gain;
  }

  /** Main result: in commit order, although now() may step back, the grants between two granted
      accesses of a key are at most burst plus the gain of the clock difference, as long as no
      commit between them deletes its row. */
  lemma CommitOrderBound(rates: Rates, commits: seq<Commit>, k: Key, i: nat, j: nat)
    requires i < j <= |commits| && Grants(rates, commits, k, i) && Grants(rates, commits, k, j - 1)
    requires forall n: nat | i < n < j :: !Evicts(rates, commits, k, n)
    ensures GrantedIn(rates, commits, k, i, j) as real <= rates(k).burst + Gain(rates(k), commits[j - 1].now - commits[i].now)
  {
    hide Gain, Grants, Committed, Touches, Evicts, GrantedIn;
    GrantTouches(rates, commits, k, i);
    RowPaid(rates, commits, k, i, j);
  }

  // --------------------------------------- deletion under a clock that steps back

  /** No commit runs on a clock more than d seconds behind that of an earlier commit. */
  ghost predicate Skewed(commits: seq<Commit>, d: real) {
    forall i, n | 0 <= i < n < |commits| :: commits[n].now >= commits[i].now - d
  }

  /** The bucket refills within the span of staleness less twice the skew. */
  predicate Outlasts(r: Rate, d: real) { r.burst <= Gain(r, STALE - 2.0 * d) }

  /** The row after n commits accounts for the grants since commit i, the last of them at g. */
  ghost predicate RowCovers(rates: Rates, commits: seq<Commit>, k: Key, i: nat, g: nat, n: nat, d: real)
    requires i <= g < n <= |commits| && k in Committed(rates, commits, n)
  {
    var row := Committed(rates, commits, n)[k];
    && row.at >= commits[g].now - d
    && row.tokens + GrantedIn(rates, commits, k, i, n) as real <= rates(k).burst + Gain(rates(k), row.at - commits[i].now)
  }

  /** Whatever clock runs from commit n on, it has gained all grants since commit i. */
  ghost predicate ClockCovers(rates: Rates, commits: seq<Commit>, k: Key, i: nat, n: nat, granted: nat)
    requires i < n <= |commits|
  {
    forall m | n <= m < |commits| :: granted as real <= Gain(rates(k), commits[m].now - commits[i].now)
  }

  /** What holds after n commits when commit i granted: the grants up to the last one, at g, are
      paid for, and so are those to come. */
  ghost predicate Covered(rates: Rates, commits: seq<Commit>, k: Key, i: nat, g: nat, n: nat, d: real)
    requires i <= g < n <= |commits|
  {
    && GrantedIn(rates, commits, k, i, n) as real <= rates(k).burst + Gain(rates(k), commits[g].now - commits[i].now)
    && (k in Committed(rates, commits, n) ==> RowCovers(rates, commits, k, i, g, n, d))
    && (k !in Committed(rates, commits, n) ==> ClockCovers(rates, commits, k, i, n, GrantedIn(rates, commits, k, i, n)))
  }

  /** A stale row: every clock from here on has gained a whole burst since the last grant. */
  lemma StaleCovers(rates: Rates, commits: seq<Commit>, k: Key, i: nat, g: nat, n: nat, d: real, at: real, granted: nat)
    requires i <= g < n < |commits| && d >= 0.0 && Skewed(commits, d) && Sound(rates(k)) && Outlasts(rates(k), d)
    requires granted as real <= rates(k).burst + Gain(rates(k), commits[g].now - commits[i].now)
    requires at >= commits[g].now - d && commits[n].now - at > STALE
    ensures ClockCovers(rates, commits, k, i, n, granted)
  {
    hide Gain;
    var r, t := rates(k), commits[g].now - commits[i].now;
    forall m | n <= m < |commits| ensures granted as real <= Gain(r, commits[m].now - commits[i].now) {
      assert commits[m].now >= commits[n].now - d;
      GainAdds(r, STALE - 2.0 * d, t);
      GainMonotone(r, STALE - 2.0 * d + t, commits[m].now - commits[i].now);
    }
  }

  ghost predicate Fresh(b: Bucket, r: Rate, now: real, allowed: bool) {
    && b.at == now && b.tokens + (if allowed then 1.0 else 0.0) <= r.burst && (allowed ==> b.tokens >= 0.0)
  }

  /** How one commit treats the row of k: it stays as it is, it is accessed, or it goes. */
  lemma RowSteps(keys: Keys, rates: Rates, c: Commit, k: Key, after: Keys)
    requires after == Next(rates, keys, c)
    ensures k in keys && k in Kept(keys, c) ==>
      && k in after
      && (Rests(keys[k], after[k], Mine(rates, keys, c, k))
          || (c.Access? && c.key == k && Moves(keys[k], after[k], rates(k), c.now, Mine(rates, keys, c, k))))
    ensures k in keys && k !in Kept(keys, c) ==> c.now - keys[k].at > STALE
    ensures k !in keys || k !in Kept(keys, c) ==>
      if k in after then Fresh(after[k], rates(k), c.now, Mine(rates, keys, c, k)) else !Mine(rates, keys, c, k)
  {
    hide Gain;
    if c.Access? && k in keys && k in Kept(keys, c) { RowMoves(keys, rates(c.key), c.key, c.now, k); }
  }

  lemma FirstCovered(rates: Rates, commits: seq<Commit>, k: Key, i: nat, d: real)
    requires i < |commits| && d >= 0.0 && Grants(rates, commits, k, i)
    ensures Covered(rates, commits, k, i, i, i + 1, d)
  {
    hide Gain, Shared, ClockCovers;
    GainZero(rates(k));
    assert GrantedIn(rates, commits, k, i, i) == 0;
    FirstGrant(Committed(rates, commits, i), rates(k), k, commits[i].now);
    GrantTouches(rates, commits, k, i);
  }

  lemma SkewAt(commits: seq<Commit>, i: nat, n: nat, d: real)
    requires i < n < |commits| && Skewed(commits, d)
    ensures commits[n].now >= commits[i].now - d
  {
  }

  lemma ClockRunsOn(rates: Rates, commits: seq<Commit>, k: Key, i: nat, n: nat, granted: nat)
    requires i < n < |commits| && ClockCovers(rates, commits, k, i, n, granted)
    ensures granted as real <= Gain(rates(k), commits[n].now - commits[i].now)
    ensures ClockCovers(rates, commits, k, i, n + 1, granted)
  {
  }

  /** Commit n finds the row of k and leaves it. */
  lemma KeptStep(rates: Rates, commits: seq<Commit>, k: Key, i: nat, g: nat, n: nat, d: real)
    requires i <= g < n < |commits| && d >= 0.0 && Skewed(commits, d) && Covered(rates, commits, k, i, g, n, d)
    requires k in Committed(rates, commits, n) && k in Kept(Committed(rates, commits, n), commits[n])
    ensures Covered(rates, commits, k, i, if Grants(rates, commits, k, n) then n else g, n + 1, d)
  {
    hide Gain, Next, Kept, ClockCovers, Mine;
    var before, after, c := Committed(rates, commits, n), Committed(rates, commits, n + 1), commits[n];
    RowSteps(before, rates, c, k, after);
    assert c.now >= commits[g].now - d;
    GainAdds(rates(k), before[k].at - commits[i].now, c.now - before[k].at);
  }

  /** Commit n finds no row of k, or deletes it. */
  lemma GoneStep(rates: Rates, commits: seq<Commit>, k: Key, i: nat, g: nat, n: nat, d: real)
    requires i <= g < n < |commits| && d >= 0.0 && Skewed(commits, d) && Sound(rates(k)) && Outlasts(rates(k), d)
    requires Covered(rates, commits, k, i, g, n, d)
    requires !(k in Committed(rates, commits, n) && k in Kept(Committed(rates, commits, n), commits[n]))
    ensures Covered(rates, commits, k, i, if Grants(rates, commits, k, n) then n else g, n + 1, d)
  {
    hide Gain, Next, Kept, Outlasts, Mine, Sound, Skewed, ClockCovers;
    var before, after, c := Committed(rates, commits, n), Committed(rates, commits, n + 1), commits[n];
    RowSteps(before, rates, c, k, after);
    SkewAt(commits, g, n, d);
    var granted := GrantedIn(rates, commits, k, i, n);
    if k in before { StaleCovers(rates, commits, k, i, g, n, d, before[k].at, granted); }
    ClockRunsOn(rates, commits, k, i, n, granted);
    assert GrantedIn(rates, commits, k, i, n + 1) == granted + (if Grants(rates, commits, k, n) then 1 else 0);
  }

  /** The grants since the granting commit i stay covered, whatever is deleted. */
  lemma {:induction false} StaysCovered(rates: Rates, commits: seq<Commit>, k: Key, i: nat, n: nat, d: real) returns (g: nat)
    requires i < n <= |commits| && d >= 0.0 && Skewed(commits, d) && Sound(rates(k)) && Outlasts(rates(k), d)
    requires Grants(rates, commits, k, i)
    ensures i <= g < n && Covered(rates, commits, k, i, g, n, d) && (Grants(rates, commits, k, n - 1) ==> g == n - 1)
    decreases n
  {
    hide Gain, Committed, Grants, Kept, Covered, Skewed, Outlasts;
    if n - 1 == i {
      g := i;
      FirstCovered(rates, commits, k, i, d);
    } else {
      var last := StaysCovered(rates, commits, k, i, n - 1, d);
      g := if Grants(rates, commits, k, n - 1) then n - 1 else last;
      var rows := Committed(rates, commits, n - 1);
      if k in rows && k in Kept(rows, commits[n - 1]) {
        KeptStep(rates, commits, k, i, last, n - 1, d);
      } else {
        GoneStep(rates, commits, k, i, last, n - 1, d);
      }
    }
  }

  /** Main result: although now() steps back by up to d and rows are deleted on the way, the grants
      from one granted access to another are at most burst plus the gain of the clock difference. */
  lemma SkewBound(rates: Rates, commits: seq<Commit>, k: Key, i: nat, j: nat, d: real)
    requires d >= 0.0 && Skewed(commits, d) && Sound(rates(k)) && Outlasts(rates(k), d)
    requires i < j <= |commits| && Grants(rates, commits, k, i) && Grants(rates, commits, k, j - 1)
    ensures GrantedIn(rates, commits, k, i, j) as real <= rates(k).burst + Gain(rates(k), commits[j - 1].now - commits[i].now)
  {
    hide Gain, Shared, ClockCovers, RowCovers, Grants, Committed;
    var g := StaysCovered(rates, commits, k, i, j, d);
  }

  lemma {:induction false} GrantedJoins(rates: Rates, commits: seq<Commit>, k: Key, i: nat, m: nat, j: nat)
    requires i <= m <= j <= |commits|
    ensures GrantedIn(rates, commits, k, i, j) == GrantedIn(rates, commits, k, i, m) + GrantedIn(rates, commits, k, m, j)
    decreases j
  {
    hide Grants;
    if m < j { GrantedJoins(rates, commits, k, i, m, j - 1); }
  }

  /** The window from i to j loses nothing when it is cut to its first and last grants. */
  lemma {:induction false} Trimmed(rates: Rates, commits: seq<Commit>, k: Key, i: nat, j: nat) returns (f: nat, l: nat)
    requires i <= j <= |commits| && GrantedIn(rates, commits, k, i, j) > 0
    ensures i <= f <= l < j && Grants(rates, commits, k, f) && Grants(rates, commits, k, l)
    ensures GrantedIn(rates, commits, k, f, l + 1) == GrantedIn(rates, commits, k, i, j)
    decreases j - i
  {
    hide Grants;
    if !Grants(rates, commits, k, j - 1) {
      f, l := Trimmed(rates, commits, k, i, j - 1);
    } else if GrantedIn(rates, commits, k, i, j - 1) == 0 {
      f, l := j - 1, j - 1;
      assert GrantedIn(rates, commits, k, j - 1, j - 1) == 0;
    } else {
      f, l := Trimmed(rates, commits, k, i, j - 1);
      GrantedJoins(rates, commits, k, i, f, l + 1);
      GrantedJoins(rates, commits, k, i, l + 1, j - 1);
      GrantedJoins(rates, commits, k, f, l + 1, j - 1);
      l := j - 1;
    }
  }

  /** Main result: the same for any window of commits, whose ends may each be off by the skew. */
  lemma SkewWindowBound(rates: Rates, commits: seq<Commit>, k: Key, i: nat, j: nat, d: real)
    requires d >= 0.0 && Skewed(commits, d) && Sound(rates(k)) && Outlasts(rates(k), d) && i < j <= |commits|
    ensures GrantedIn(rates, commits, k, i, j) as real
         <= rates(k).burst + Gain(rates(k), commits[j - 1].now - commits[i].now + 2.0 * d)
  {
    hide Gain, Grants, Outlasts;
    var span := commits[j - 1].now - commits[i].now + 2.0 * d;
    assert i < j - 1 ==> commits[j - 1].now >= commits[i].now - d;
    if GrantedIn(rates, commits, k, i, j) == 0 {
      GainZero(rates(k));
      GainMonotone(rates(k), 0.0, span);
    } else {
      var f, l := Trimmed(rates, commits, k, i, j);
      assert (i < f ==> commits[f].now >= commits[i].now - d) && (l < j - 1 ==> commits[j - 1].now >= commits[l].now - d);
      SkewBound(rates, commits, k, f, l + 1, d);
      GainMonotone(rates(k), commits[l].now - commits[f].now, span);
    }
  }

  ghost predicate ClockInOrder(commits: seq<Commit>) { forall i, n | 0 <= i < n < |commits| :: commits[i].now <= commits[n].now }

  /** With a clock that never steps back, the window bound of the in-process limiter holds for the
      shared table as well, deletions by accesses and by the maintainer included. */
  lemma SharedWindowBound(rates: Rates, commits: seq<Commit>, k: Key, i: nat, j: nat)
    requires Sound(rates(k)) && Recovers(rates(k)) && ClockInOrder(commits) && i < j <= |commits|
    ensures GrantedIn(rates, commits, k, i, j) as real <= rates(k).burst + Gain(rates(k), commits[j - 1].now - commits[i].now)
  {
    hide Gain, Grants;
    GainOfStale(rates(k));
    assert STALE - 2.0 * 0.0 == STALE;
    SkewWindowBound(rates, commits, k, i, j, 0.0);
  }

  // --------------------------------------------------- when the skew is too large

  /** No run whose clock steps back by at most d grants too much between two granted accesses. */
  ghost predicate Bounded(rates: Rates, k: Key, d: real) {
    forall commits: seq<Commit>, i: nat, j: nat |
      Skewed(commits, d) && i < j <= |commits| && Grants(rates, commits, k, i) && Grants(rates, commits, k, j - 1) ::
      GrantedIn(rates, commits, k, i, j) as real <= rates(k).burst + Gain(rates(k), commits[j - 1].now - commits[i].now)
  }

  lemma OneTaken(rows: Keys, r: Rate, k: Key, t: real, left: real)
    requires rows == (if left == r.burst then map[] else map[k := Bucket(left, t)]) && 1.0 <= left <= r.burst
    ensures Shared(rows, r, k, t) == (map[k := Bucket(left - 1.0, t)], true)
  {
    hide Gain;
    GainZero(r);
    assert t - t == 0.0;
    assert |rows| <= 1 && Refilled(Bucket(left, t), r, t) == left;
    assert Shared(rows, r, k, t).0 == map[k := Bucket(left - 1.0, t)];
  }

  lemma LastGrants(rates: Rates, commits: seq<Commit>, k: Key, n: nat)
    requires n < |commits| && commits[n].Access? && commits[n].key == k
    requires Shared(Committed(rates, commits, n), rates(k), k, commits[n].now).1
    ensures Grants(rates, commits, k, n)
  {
  }

  /** From an empty table, a key is granted its burst and has nothing left. */
  lemma {:induction false} Drained(rates: Rates, commits: seq<Commit>, k: Key, n: nat, q: nat, t: real)
    requires Sound(rates(k)) && q as real <= rates(k).burst && n + q <= |commits| && Committed(rates, commits, n) == map[]
    requires forall m | n <= m < n + q :: commits[m] == Access(k, t)
    ensures q > 0 ==> Committed(rates, commits, n + q) == map[k := Bucket(rates(k).burst - q as real, t)]
    ensures GrantedIn(rates, commits, k, n, n + q) == q
    ensures q > 0 ==> Grants(rates, commits, k, n) && Grants(rates, commits, k, n + q - 1)
    decreases q
  {
    if q > 0 {
      hide Shared, Grants;
      Drained(rates, commits, k, n, q - 1, t);
      assert commits[n + q - 1] == Access(k, t);
      OneTaken(Committed(rates, commits, n + q - 1), rates(k), k, t, rates(k).burst - (q - 1) as real);
      LastGrants(rates, commits, k, n + q - 1);
    }
  }

  /** All tokens go at time 0, a denied access steps the row back by d, it is deleted when barely
      stale, and all tokens go again on a clock that steps back by d once more. */
  ghost function TwiceDrained(k: Key, r: Rate, d: real, q: nat): seq<Commit>
    requires Sound(r)
  {
    var t := Beyond(r, STALE - 2.0 * d);
    seq(q, _ => Access(k, 0.0)) + [Access(k, -d), Cleanup(t + d)] + seq(q, _ => Access(k, t))
  }

  lemma NoRowsYet(rates: Rates, commits: seq<Commit>)
    ensures Committed(rates, commits, 0) == map[]
  {
  }

  lemma TwiceGranted(rates: Rates, k: Key, d: real, q: nat)
    requires Sound(rates(k)) && 0.0 <= d <= 150.0 && q > 0 && q as real == rates(k).burst && !Outlasts(rates(k), d)
    ensures var commits := TwiceDrained(k, rates(k), d, q);
      && Skewed(commits, d) && |commits| == 2 * q + 2
      && Grants(rates, commits, k, 0) && Grants(rates, commits, k, 2 * q + 1)
      && GrantedIn(rates, commits, k, 0, 2 * q + 2) == 2 * q
      && rates(k).burst + Gain(rates(k), commits[2 * q + 1].now - commits[0].now) < (2 * q) as real
  {
    hide Gain, Beyond, Committed, Grants, GrantedIn;
    var r := rates(k);
    var t, commits := Beyond(r, STALE - 2.0 * d), TwiceDrained(k, r, d, q);
    BeyondEmpty(r, STALE - 2.0 * d);
    NoRowsYet(rates, commits);
    Drained(rates, commits, k, 0, q, 0.0);
    SteppedBack(rates, commits, k, d, q, t);
    Drained(rates, commits, k, q + 2, q, t);
    GrantedJoins(rates, commits, k, 0, q + 2, 2 * q + 2);
    assert t - 0.0 == t;
  }

  lemma BackInTime(r: Rate, k: Key, d: real)
    requires Sound(r) && d >= 0.0
    ensures Shared(map[k := Bucket(0.0, 0.0)], r, k, -d) == (map[k := Bucket(Gain(r, -d), -d)], false)
  {
    hide Gain;
    GainZero(r);
    GainMonotone(r, -d, 0.0);
    assert -d - 0.0 == -d && 0.0 + Gain(r, -d) == Gain(r, -d);
    var rows := map[k := Bucket(0.0, 0.0)];
    assert |rows| <= 1;
    assert Shared(rows, r, k, -d).0 == map[k := Bucket(Gain(r, -d), -d)];
  }

  /** The two commits in the middle: a denial that dates the row back, and its deletion. */
  lemma SteppedBack(rates: Rates, commits: seq<Commit>, k: Key, d: real, q: nat, t: real)
    requires Sound(rates(k)) && d >= 0.0 && t > STALE - 2.0 * d && q + 2 <= |commits|
    requires Committed(rates, commits, q) == map[k := Bucket(0.0, 0.0)]
    requires commits[q] == Access(k, -d) && commits[q + 1] == Cleanup(t + d)
    ensures Committed(rates, commits, q + 2) == map[]
    ensures GrantedIn(rates, commits, k, 0, q + 2) == GrantedIn(rates, commits, k, 0, q)
  {
    hide Gain, Shared;
    BackInTime(rates(k), k, d);
    assert t + d - -d > STALE;
    assert Committed(rates, commits, q + 1) == map[k := Bucket(Gain(rates(k), -d), -d)];
    assert GrantedIn(rates, commits, k, 0, q + 1) == GrantedIn(rates, commits, k, 0, q);
    assert !Grants(rates, commits, k, q + 1);
  }

  /** Main result: for whole bursts the bound holds on every run of skew at most d if and only if
      the bucket refills within 300 - 2d seconds. */
  lemma SkewExact(rates: Rates, k: Key, d: real, q: nat)
    requires Sound(rates(k)) && d >= 0.0 && q > 0 && q as real == rates(k).burst
    ensures Bounded(rates, k, d) <==> Outlasts(rates(k), d)
  {
    hide Gain, Grants, Skewed;
    if Outlasts(rates(k), d) {
      forall commits: seq<Commit>, i: nat, j: nat |
        Skewed(commits, d) && i < j <= |commits| && Grants(rates, commits, k, i) && Grants(rates, commits, k, j - 1)
        ensures GrantedIn(rates, commits, k, i, j) as real <= rates(k).burst + Gain(rates(k), commits[j - 1].now - commits[i].now)
      {
        SkewBound(rates, commits, k, i, j, d);
      }
    } else {
      var e := if d <= 150.0 then d else 150.0;
      if d > 150.0 { GainZero(rates(k)); }
      TwiceGranted(rates, k, e, q);
      var commits := TwiceDrained(k, rates(k), e, q);
      SkewGrows(commits, e, d);
      assert !Bounded(rates, k, d);
    }
  }

  lemma SkewGrows(commits: seq<Commit>, e: real, d: real)
    requires Skewed(commits, e) && e <= d
    ensures Skewed(commits, d)
  {
  }

  /** The rates of the shipped profiles (internal/limits/policy.go:41-49), per minute and burst. */
  const SHIPPED := [
    Rate(1200.0, 120.0), Rate(3000.0, 300.0), Rate(60.0, 12.0), Rate(120.0, 24.0), Rate(30.0, 6.0),
    Rate(60000.0, 4000.0), Rate(12000.0, 400.0), Rate(600.0, 30.0)
  ]

  /** They all withstand a clock that steps back by up to 144 seconds, and not by more. */
  lemma ShippedOutlast(d: real)
    requires d >= 0.0
    ensures (forall r <- SHIPPED :: Outlasts(r, d)) <==> d <= 144.0
  {
    assert Rate(60.0, 12.0) in SHIPPED by { assert SHIPPED[2] == Rate(60.0, 12.0); }
  }

  lemma {:induction false} SharedCapacity(rates: Rates, commits: seq<Commit>, n: nat)
    requires n <= |commits|
    ensures |Committed(rates, commits, n)| <= CAPACITY
  {
    hide Taken, Swept;
    if n > 0 {
      SharedCapacity(rates, commits, n - 1);
      var before, c := Committed(rates, commits, n - 1), commits[n - 1];
      SweptSize(before, c.now);
      if c.Access? {
        TakenSize(if |before| >= CAPACITY then Swept(before, c.now) else before, rates(c.key), c.key, c.now);
      }
    }
  }

  lemma FullStays(r: Rate, now: real)
    ensures Refilled(Bucket(r.burst, now), r, now) == r.burst
  {
    hide Gain;
    GainZero(r);
    assert now - now == 0.0;
  }

  /** The table of rate buckets; each method is one transaction. */
  class Table {
    var rows: Keys

    constructor ()
      ensures rows == map[]
    {
      rows := map[];
    }

    method Allow(k: Key, r: Rate, now: real) returns (allowed: bool)
      modifies this
      ensures (rows, allowed) == Shared(old(rows), r, k, now)
    {
      hide Gain, Swept;
      var saved := rows;
      if |rows| >= CAPACITY {
        rows := Swept(rows, now);
        if |rows| >= CAPACITY {
          rows := saved;
          return false;
        }
      }
      var b := if k in rows then rows[k] else Bucket(r.burst, now);
      FullStays(r, now);
      var tokens := if k in rows then Refilled(b, r, now) else r.burst;
      ghost var base := rows;
      rows := rows[k := Bucket(tokens, now)];
      allowed := tokens >= 1.0;
      if allowed {
        rows := rows[k := Bucket(tokens - 1.0, now)];
        assert rows == base[k := Bucket(tokens - 1.0, now)];
      }
    }

    method Cleanup(now: real)
      modifies this
      ensures rows == Swept(old(rows), now)
    {
      rows := Swept(rows, now);
    }
  }
}
