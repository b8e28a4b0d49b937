/** Whole runs of the manager: the invariant everywhere, and bounded overtaking in the queue. */
module RenderQueueRuns {
  import opened Basics
  import opened RenderQueue
  import opened RenderQueueSafety

  ghost predicate Initial(c: Config, s: State) {
    && s.jobs == map[] && s.queue == [] && s.worker == Waiting && !s.wake
    && CacheInv(c, s.cache) && s.cache.leases == map[]
  }

  ghost predicate IsRun(c: Config, states: seq<State>, times: seq<Time>, events: seq<Event>) {
    && |states| == |events| + 1 && |times| == |events|
    && Initial(c, states[0])
    && forall i | 0 <= i < |events| :: Step(c, states[i], times[i], events[i], states[i + 1])
  }

  lemma InitialInv(c: Config, s: State)
    requires Initial(c, s)
    ensures Inv(c, s)
  {
    assert QueuedIds(s.jobs) == {};
    assert forall owner: Owner :: OwnedIds(s.jobs, owner) == {};
  }

  lemma {:induction false} InvChain(c: Config, states: seq<State>, i: nat)
    requires i < |states| && Inv(c, states[0])
    requires forall n | 0 <= n < |states| - 1 :: Inv(c, states[n]) ==> Inv(c, states[n + 1])
    ensures Inv(c, states[i])
  {
    if i > 0 { InvChain(c, states, i - 1); }
  }

  /** Main result: every reachable manager state satisfies the invariant. */
  lemma Reachable(c: Config, states: seq<State>, times: seq<Time>, events: seq<Event>, i: nat)
    requires IsRun(c, states, times, events) && i < |states|
    ensures Inv(c, states[i])
  {
    InitialInv(c, states[0]);
    forall n | 0 <= n < |states| - 1 && Inv(c, states[n]) ensures Inv(c, states[n + 1]) {
      StepKeeps(c, states[n], times[n], events[n], states[n + 1]);
    }
    InvChain(c, states, i);
  }

  /** What the invariant says about capacity, spelled out for every reachable state. */
  lemma WithinLimits(c: Config, states: seq<State>, times: seq<Time>, events: seq<Event>, i: nat, owner: Owner, x: Id, y: Id)
    requires IsRun(c, states, times, events) && i < |states|
    ensures var s := states[i];
      && |QueuedIds(s.jobs)| <= c.queue
      && |OwnedIds(s.jobs, owner)| <= 4
      && (x in s.jobs ==> |s.jobs[x].subscribers| <= 24)
      && (x in s.jobs && y in s.jobs && s.jobs[x].state.Running? && s.jobs[y].state.Running? ==> x == y)
      && s.cache.bytes == Total(Sizes(s.cache.artifacts)) <= c.cacheBytes && |s.cache.artifacts| <= c.cacheCount
      && s.cache.open == |s.cache.leases| <= 64
      && (x in s.cache.artifacts ==> s.cache.artifacts[x].refs == |LeasesOf(s.cache.leases, x)| <= 32 && x in s.cache.files)
      && (forall l <- s.cache.leases :: s.cache.leases[l] in s.cache.artifacts)
      && (x in s.jobs && Active(s.jobs[x]) ==> x !in s.cache.artifacts)
  {
    Reachable(c, states, times, events, i);
  }

  /** No lost work: a queued job is in the queue exactly once, and while the worker waits with a
      job queued the wake channel holds its token. */
  lemma NoLostWork(c: Config, states: seq<State>, times: seq<Time>, events: seq<Event>, i: nat, id: Id)
    requires IsRun(c, states, times, events) && i < |states| && QueuedId(states[i].jobs, id)
    ensures multiset(states[i].queue)[id] == 1
    ensures states[i].worker.Waiting? ==> states[i].wake
  {
    Reachable(c, states, times, events, i);
    DistinctCount(states[i].queue, id);
    assert id in QueuedIds(states[i].jobs);
  }

  lemma {:induction false} DistinctCount(q: seq<Id>, id: Id)
    requires Distinct(q)
    ensures multiset(q)[id] == if id in q then 1 else 0
  {
    if q != [] {
      assert q == [q[0]] + q[1..];
      DistinctCount(q[1..], id);
    }
  }

  // ---------------------------------------------------------- order in the queue

  ghost predicate Before(q: seq<Id>, x: Id, y: Id) {
    exists i, k | 0 <= i < k < |q| :: q[i] == x && q[k] == y
  }

  /** The queued jobs in front of id. */
  ghost function Ahead(jobs: map<Id, Job>, queue: seq<Id>, id: Id): set<Id> {
    set x <- queue | QueuedId(jobs, x) && Before(queue, x, id)
  }

  /** The job object `serial` is waiting under id. */
  ghost predicate Waits(s: State, id: Id, serial: nat) {
    QueuedId(s.jobs, id) && s.jobs[id].serial == serial
  }

  /** Twice the queued jobs ahead, plus one while the job's own owner was served last. */
  ghost function Potential(s: State, id: Id): nat {
    2 * |Ahead(s.jobs, s.queue, id)| + (if id in s.jobs && s.last == Some(s.jobs[id].owner) then 1 else 0)
  }

  lemma {:induction false} FilteredOrder(q: seq<Id>, jobs: map<Id, Job>, x: Id, y: Id)
    requires Before(Filtered(q, jobs), x, y)
    ensures Before(q, x, y)
  {
    var f := Filtered(q, jobs);
    var i, k :| 0 <= i < k < |f| && f[i] == x && f[k] == y;
    if QueuedId(jobs, q[0]) {
      if i == 0 {
        FilteredMembers(q[1..], jobs);
        assert f[k] == Filtered(q[1..], jobs)[k - 1];
        assert y in q[1..];
        var n :| 0 <= n < |q[1..]| && q[1..][n] == y;
        assert q[0] == x && q[n + 1] == y;
      } else {
        assert Filtered(q[1..], jobs)[i - 1] == x && Filtered(q[1..], jobs)[k - 1] == y;
        FilteredOrder(q[1..], jobs, x, y);
        BeforeTail(q, x, y);
      }
    } else {
      FilteredOrder(q[1..], jobs, x, y);
      BeforeTail(q, x, y);
    }
  }

  lemma BeforeTail(q: seq<Id>, x: Id, y: Id)
    requires q != [] && Before(q[1..], x, y)
    ensures Before(q, x, y)
  {
    var i, k :| 0 <= i < k < |q[1..]| && q[1..][i] == x && q[1..][k] == y;
    assert q[i + 1] == x && q[k + 1] == y;
  }

  /** Appending behind y changes nothing in front of it. */
  lemma BeforePrefix(q: seq<Id>, long: seq<Id>, x: Id, y: Id)
    requires q <= long && Distinct(long) && y in q && Before(long, x, y)
    ensures Before(q, x, y)
  {
    var i, k :| 0 <= i < k < |long| && long[i] == x && long[k] == y;
    var n :| 0 <= n < |q| && q[n] == y;
    assert long[n] == y && n == k;
    assert q[i] == x && q[k] == y;
  }

  lemma BeforeRemoved(q: seq<Id>, i: nat, x: Id, y: Id)
    requires i < |q| && Before(q[..i] + q[i + 1..], x, y)
    ensures Before(q, x, y)
  {
    var r := q[..i] + q[i + 1..];
    var a, b :| 0 <= a < b < |r| && r[a] == x && r[b] == y;
    var a', b' := if a < i then a else a + 1, if b < i then b else b + 1;
    assert q[a'] == x && q[b'] == y && a' < b';
  }

  // ------------------------------------------------------- what one step changes

  lemma AheadShrinks(s: State, t: State, id: Id)
    requires forall x: Id :: QueuedId(t.jobs, x) && Before(t.queue, x, id) ==> QueuedId(s.jobs, x) && Before(s.queue, x, id)
    ensures Ahead(t.jobs, t.queue, id) <= Ahead(s.jobs, s.queue, id)
    ensures |Ahead(t.jobs, t.queue, id)| <= |Ahead(s.jobs, s.queue, id)|
  {
    forall x <- Ahead(t.jobs, t.queue, id) ensures x in Ahead(s.jobs, s.queue, id) {
      var i, k :| 0 <= i < k < |s.queue| && s.queue[i] == x && s.queue[k] == id;
    }
    SubsetSize(Ahead(t.jobs, t.queue, id), Ahead(s.jobs, s.queue, id));
  }

  /** Owners and queued sets of jobs that keep their object. */
  ghost predicate Keeps(jobs: map<Id, Job>, jobs2: map<Id, Job>) {
    forall id <- jobs2 :: (id in jobs && jobs2[id].serial == jobs[id].serial && jobs2[id].owner == jobs[id].owner
      && (jobs2[id].state == jobs[id].state || !jobs2[id].state.Queued?))
  }

  /** Steps that neither reorder nor extend the queue. */
  lemma QuietPotential(s: State, t: State, id: Id, serial: nat)
    requires Waits(s, id, serial) && Waits(t, id, serial) && Keeps(s.jobs, t.jobs)
    requires t.queue == s.queue && t.last == s.last
    ensures Potential(t, id) <= Potential(s, id)
  {
    AheadShrinks(s, t, id);
  }

  lemma AdmitPotential(c: Config, s: State, now: Time, owner: Owner, ids: seq<Id>, ok: bool, t: State, id: Id, serial: nat)
    requires Inv(c, s) && Admitted(c, s, now, owner, ids, ok, t)
    requires Waits(s, id, serial) && Waits(t, id, serial)
    ensures Potential(t, id) <= Potential(s, id)
  {
    var m :| Pruned(s, now, m) && AdmittedFrom(c, m.(queue := Filtered(m.queue, m.jobs)), now, owner, ids, ok, t);
    var f := m.(queue := Filtered(m.queue, m.jobs));
    FilteredMembers(m.queue, m.jobs);
    FilterPotential(s, now, f, id, serial);
    if ok {
      var made := f.cache.artifacts.Keys;
      RegisteredFromStart(BookOf(f), made, now, owner, ids);
      RegisterPotential(f, made, owner, ids, RegisterAll(BookOf(f), made, now, owner, ids), t, id, serial);
    }
  }

  lemma FilterPotential(s: State, now: Time, f: State, id: Id, serial: nat)
    requires Waits(s, id, serial) && f.jobs == FreshJobs(s.jobs, now) && f.queue == Filtered(s.queue, f.jobs)
    requires f.last == s.last
    ensures Waits(f, id, serial) && Potential(f, id) <= Potential(s, id)
  {
    forall x: Id | QueuedId(f.jobs, x) && Before(f.queue, x, id) ensures QueuedId(s.jobs, x) && Before(s.queue, x, id) {
      FilteredOrder(s.queue, f.jobs, x, id);
    }
    AheadShrinks(s, f, id);
  }

  lemma RegisterPotential(f: State, made: set<Id>, owner: Owner, ids: seq<Id>, b: Book, t: State, id: Id, serial: nat)
    requires Registered(BookOf(f), made, owner, (set x <- ids), b)
    requires t.jobs == b.jobs && t.queue == b.queue && t.last == f.last
    requires Waits(f, id, serial) && id in f.queue && forall q <- f.queue :: QueuedId(f.jobs, q)
    ensures Waits(t, id, serial) && Potential(t, id) <= Potential(f, id)
  {
    assert t.jobs[id].owner == f.jobs[id].owner && t.jobs[id].serial == serial && QueuedId(t.jobs, id) by {
      assert Joinable(f.jobs, made, id);
    }
    forall x: Id | QueuedId(t.jobs, x) && Before(t.queue, x, id) ensures QueuedId(f.jobs, x) && Before(f.queue, x, id) {
      BeforePrefix(f.queue, t.queue, x, id);
      assert x in f.queue;
    }
    AheadShrinks(f, t, id);
  }

  // ----------------------------------------------------------------- the dequeue

  lemma StartAhead(s: State, seen: seq<Id>, now: Time, i: nat, id: Id)
    requires i < |s.queue| && QueuedId(s.jobs, s.queue[i])
    ensures var t := Start(s, Aged(s.jobs, seen, now), i);
      Ahead(t.jobs, t.queue, id) <= Ahead(s.jobs, s.queue, id) - {s.queue[i]}
  {
    var t := Start(s, Aged(s.jobs, seen, now), i);
    forall x: Id | QueuedId(t.jobs, x) && Before(t.queue, x, id) ensures QueuedId(s.jobs, x) && Before(s.queue, x, id) {
      BeforeRemoved(s.queue, i, x, id);
    }
    AheadShrinks(s, t, id);
  }

  /** Serving position i lowers the potential of a job behind it. */
  lemma ServedAhead(s: State, seen: seq<Id>, now: Time, i: nat, k: nat, serial: nat)
    requires i < k < |s.queue| && QueuedId(s.jobs, s.queue[i])
    requires var t := Start(s, Aged(s.jobs, seen, now), i); Waits(s, s.queue[k], serial) && Waits(t, s.queue[k], serial)
    ensures Potential(Start(s, Aged(s.jobs, seen, now), i), s.queue[k]) < Potential(s, s.queue[k])
  {
    var t, id := Start(s, Aged(s.jobs, seen, now), i), s.queue[k];
    StartAhead(s, seen, now, i, id);
    assert Before(s.queue, s.queue[i], id);
    assert s.queue[i] in Ahead(s.jobs, s.queue, id);
    SubsetSize(Ahead(t.jobs, t.queue, id), Ahead(s.jobs, s.queue, id) - {s.queue[i]});
  }

  /** Being overtaken uses up the turn in which one's own owner was served last. */
  lemma Overtaken(s: State, now: Time, i: nat, k: nat, serial: nat)
    requires FirstOther(s, now, i) && k < i
    requires var t := Start(s, Aged(s.jobs, s.queue[..i + 1], now), i);
      Waits(s, s.queue[k], serial) && Waits(t, s.queue[k], serial)
    ensures s.last == Some(s.jobs[s.queue[k]].owner)
    ensures Potential(Start(s, Aged(s.jobs, s.queue[..i + 1], now), i), s.queue[k]) < Potential(s, s.queue[k])
  {
    var t, id := Start(s, Aged(s.jobs, s.queue[..i + 1], now), i), s.queue[k];
    assert s.queue[..i + 1][k] == id;
    assert !Other(s.jobs, s.last, now, id);
    StartAhead(s, s.queue[..i + 1], now, i, id);
    SubsetSize(Ahead(t.jobs, t.queue, id), Ahead(s.jobs, s.queue, id));
  }

  lemma OtherPotential(s: State, now: Time, t: State, id: Id, serial: nat)
    requires Listed(s.jobs, s.queue) && ServesOther(s, now, t) && Waits(s, id, serial) && Waits(t, id, serial)
    ensures Potential(t, id) < Potential(s, id)
  {
    var k :| 0 <= k < |s.queue| && s.queue[k] == id;
    var i: nat :| FirstOther(s, now, i) && t == Start(s, Aged(s.jobs, s.queue[..i + 1], now), i);
    if i < k {
      ServedAhead(s, s.queue[..i + 1], now, i, k, serial);
    } else {
      assert i != k;
      Overtaken(s, now, i, k, serial);
    }
  }

  lemma SamePotential(s: State, now: Time, t: State, id: Id, serial: nat)
    requires Listed(s.jobs, s.queue) && ServesSame(s, now, t) && Waits(s, id, serial) && Waits(t, id, serial)
    ensures Potential(t, id) < Potential(s, id)
  {
    var k :| 0 <= k < |s.queue| && s.queue[k] == id;
    var i: nat :| FirstLive(s, now, i) && t == Start(s, Aged(s.jobs, s.queue, now), i);
    assert Live(s.jobs, now, id);
    assert i < k;
    ServedAhead(s, s.queue, now, i, k, serial);
  }

  /** Draining leaves nobody waiting: what is still queued has expired. */
  lemma DrainedExpires(s: State, now: Time, t: State, id: Id)
    requires Listed(s.jobs, s.queue) && Drains(s, now, t) && QueuedId(s.jobs, id)
    ensures !QueuedId(t.jobs, id)
  {
    var k :| 0 <= k < |s.queue| && s.queue[k] == id;
    assert !Live(s.jobs, now, s.queue[k]);
  }

  lemma DequeuePotential(s: State, now: Time, t: State, id: Id, serial: nat)
    requires Listed(s.jobs, s.queue) && Dequeued(s, now, t) && Waits(s, id, serial) && Waits(t, id, serial)
    ensures Potential(t, id) < Potential(s, id)
  {
    if ServesOther(s, now, t) {
      OtherPotential(s, now, t, id, serial);
    } else if ServesSame(s, now, t) {
      SamePotential(s, now, t, id, serial);
    } else {
      DrainedExpires(s, now, t, id);
    }
  }

  lemma StepPotential(c: Config, s: State, now: Time, e: Event, t: State, id: Id, serial: nat)
    requires Inv(c, s) && Step(c, s, now, e, t) && Waits(s, id, serial) && Waits(t, id, serial)
    ensures Potential(t, id) <= Potential(s, id)
    ensures e.DequeueE? ==> Potential(t, id) < Potential(s, id)
  {
    match e
    case AdmitE(owner, ids) =>
      var ok :| Admitted(c, s, now, owner, ids, ok, t);
      AdmitPotential(c, s, now, owner, ids, ok, t, id, serial);
    case DequeueE => DequeuePotential(s, now, t, id, serial);
    case _ =>
      QuietKeeps(c, s, now, e, t);
      QuietPotential(s, t, id, serial);
  }

  lemma FinishQuiet(c: Config, s: State, now: Time, failed: bool, late: bool, ended: bool, size: nat, digest: nat, t: State)
    requires Finished(c, s, now, failed, late, ended, size, digest, t)
    ensures Keeps(s.jobs, t.jobs) && t.queue == s.queue && t.last == s.last
  {
    hide Published;
  }

  lemma QuietKeeps(c: Config, s: State, now: Time, e: Event, t: State)
    requires Step(c, s, now, e, t) && !e.AdmitE? && !e.DequeueE?
    ensures Keeps(s.jobs, t.jobs) && t.queue == s.queue && t.last == s.last
  {
    if e.FinishE? {
      FinishQuiet(c, s, now, e.failed, e.late, e.ended, e.size, e.digest, t);
    } else {
      hide Finished;
    }
  }

  ghost function Dequeues(events: seq<Event>, a: nat, b: nat): nat
    requires a <= b <= |events|
    decreases b - a
  {
    if a == b then 0 else Dequeues(events, a, b - 1) + (if events[b - 1].DequeueE? then 1 else 0)
  }

  lemma {:induction false} DequeueChain(states: seq<State>, events: seq<Event>, a: nat, b: nat, id: Id)
    requires |states| == |events| + 1 && a <= b < |states|
    requires forall n | a <= n < b :: Potential(states[n + 1], id) + (if events[n].DequeueE? then 1 else 0) <= Potential(states[n], id)
    ensures Dequeues(events, a, b) + Potential(states[b], id) <= Potential(states[a], id)
    decreases b - a
  {
    if a < b { DequeueChain(states, events, a, b - 1, id); }
  }

  /** Main result: with p queued jobs ahead a waiting job sees at most 2p + 1 dequeues while it
      waits, so it is started, cancelled or expired within 2(p + 1) of them, under any arrivals. */
  lemma BoundedBypass(
    c: Config, states: seq<State>, times: seq<Time>, events: seq<Event>, a: nat, b: nat, id: Id, serial: nat)
    requires IsRun(c, states, times, events) && a <= b < |states|
    requires forall k | a <= k <= b :: Waits(states[k], id, serial)
    ensures Dequeues(events, a, b) <= 2 * |Ahead(states[a].jobs, states[a].queue, id)| + 1
  {
    forall n | a <= n < b
      ensures Potential(states[n + 1], id) + (if events[n].DequeueE? then 1 else 0) <= Potential(states[n], id)
    {
      Reachable(c, states, times, events, n);
      StepPotential(c, states[n], times[n], events[n], states[n + 1], id, serial);
    }
    DequeueChain(states, events, a, b, id);
  }

  /** A waiting job leaves that state only by starting while it is young enough, by expiring when it is
      not, or by the cancellation of its only subscriber. */
  lemma LeavesBy(c: Config, s: State, now: Time, e: Event, t: State, id: Id, serial: nat)
    requires Inv(c, s) && Step(c, s, now, e, t) && Waits(s, id, serial) && !Waits(t, id, serial)
    ensures id in t.jobs && t.jobs[id].serial == serial && t.jobs[id].state in {Running, Cancelled, Expired}
    ensures t.jobs[id].state == Running ==> e.DequeueE? && t.worker == Rendering(id, serial) && now - s.jobs[id].created <= QueueAge
    ensures t.jobs[id].state == Expired ==> e.DequeueE? && now - s.jobs[id].created > QueueAge
    ensures t.jobs[id].state == Cancelled ==> e.CancelE? && e.id == id && s.jobs[id].subscribers <= {e.owner}
  {
    match e
    case AdmitE(owner, ids) =>
      var ok :| Admitted(c, s, now, owner, ids, ok, t);
      AdmitStays(c, s, now, owner, ids, ok, t, id, serial);
    case DequeueE => DequeueLeaves(s, now, t, id, serial);
    case FinishE(failed, late, ended, size, digest) => FinishStays(c, s, now, failed, late, ended, size, digest, t, id, serial);
    case _ =>
  }

  lemma DequeueLeaves(s: State, now: Time, t: State, id: Id, serial: nat)
    requires Dequeued(s, now, t) && Waits(s, id, serial) && !Waits(t, id, serial)
    ensures id in t.jobs && t.jobs[id].serial == serial && t.jobs[id].state in {Running, Expired}
    ensures t.jobs[id].state == Running ==> t.worker == Rendering(id, serial) && now - s.jobs[id].created <= QueueAge
    ensures t.jobs[id].state == Expired ==> now - s.jobs[id].created > QueueAge
  {
  }

  lemma FinishStays(c: Config, s: State, now: Time, failed: bool, late: bool, ended: bool, size: nat, digest: nat, t: State, id: Id, serial: nat)
    requires Finished(c, s, now, failed, late, ended, size, digest, t) && Waits(s, id, serial)
    ensures Waits(t, id, serial)
  {
  }

  lemma AdmitStays(c: Config, s: State, now: Time, owner: Owner, ids: seq<Id>, ok: bool, t: State, id: Id, serial: nat)
    requires Inv(c, s) && Admitted(c, s, now, owner, ids, ok, t) && Waits(s, id, serial)
    ensures Waits(t, id, serial)
  {
    var m :| Pruned(s, now, m) && AdmittedFrom(c, m.(queue := Filtered(m.queue, m.jobs)), now, owner, ids, ok, t);
    var f := m.(queue := Filtered(m.queue, m.jobs));
    FilteredMembers(m.queue, m.jobs);
    FilterPotential(s, now, f, id, serial);
    if ok {
      var made := f.cache.artifacts.Keys;
      RegisteredFromStart(BookOf(f), made, now, owner, ids);
      RegisterPotential(f, made, owner, ids, RegisterAll(BookOf(f), made, now, owner, ids), t, id, serial);
    }
  }
}
