/** Shared work in the render manager: who may end a job, what admission gives to a subscriber, and
    how long jobs, entries and images are kept. */
module RenderSharing {
  import opened Basics
  import opened RenderQueue
  import opened RenderQueueSafety
  import opened RenderQueueRuns

  // -------------------------------------------------------------------- cancellation

  /** The event is the cancellation of id by its only subscriber. */
  predicate EndsFor(s: State, e: Event, id: Id) {
    id in s.jobs && e.CancelE? && e.id == id && s.jobs[id].subscribers <= {e.owner}
  }

  /** The same job object is still behind id. */
  predicate SameJob(s: State, t: State, id: Id) { id in s.jobs && id in t.jobs && t.jobs[id].serial == s.jobs[id].serial }

  /** Main result: shared work is stopped only by its last subscriber. */
  lemma CancelledByLast(c: Config, s: State, now: Time, e: Event, t: State, id: Id)
    requires Inv(c, s) && Step(c, s, now, e, t) && ActiveId(s.jobs, id) && SameJob(s, t, id) && t.jobs[id].state.Cancelled?
    ensures EndsFor(s, e, id)
  {
    hide Inv, CacheShrinks, Admitted, Finished, Dequeued, CanOpen;
    match e
    case AdmitE(owner, ids) => AdmitKeepsActive(c, s, now, owner, ids, t, id);
    case DequeueE => DequeueFates(s, now, t, id);
    case FinishE(failed, late, ended, size, digest) => FinishFates(c, s, now, failed, late, ended, size, digest, t, id);
    case _ =>
  }

  /** One of several subscribers cancels: only its own subscription goes. */
  lemma SharedCancelKeeps(c: Config, s: State, now: Time, owner: Owner, id: Id, t: State)
    requires Step(c, s, now, CancelE(owner, id), t) && id in s.jobs && s.jobs[id].subscribers - {owner} != {}
    ensures t == s.(jobs := s.jobs[id := s.jobs[id].(subscribers := s.jobs[id].subscribers - {owner})])
  {
  }

  /** The last subscriber cancels: work under way is stopped. */
  lemma LastCancelStops(c: Config, s: State, now: Time, owner: Owner, id: Id, t: State)
    requires Step(c, s, now, CancelE(owner, id), t) && ActiveId(s.jobs, id) && s.jobs[id].subscribers <= {owner}
    ensures t == s.(jobs := s.jobs[id := s.jobs[id].(subscribers := {}, state := Cancelled)])
  {
    assert s.jobs[id].subscribers - {owner} == {};
  }

  // --------------------------------------------------------- what admission keeps

  /** An active job stays the same object in the same state, with its subscribers and maybe one more. */
  predicate StaysShared(s: State, t: State, id: Id, owner: Owner, joined: bool) {
    && SameJob(s, t, id) && t.jobs[id].state == s.jobs[id].state && t.jobs[id].owner == s.jobs[id].owner
    && t.jobs[id].subscribers == (if joined then s.jobs[id].subscribers + {owner} else s.jobs[id].subscribers)
  }

  lemma AdmitKeepsActive(c: Config, s: State, now: Time, owner: Owner, ids: seq<Id>, t: State, id: Id)
    requires Inv(c, s) && Step(c, s, now, AdmitE(owner, ids), t) && ActiveId(s.jobs, id)
    ensures exists joined: bool :: StaysShared(s, t, id, owner, joined)
  {
    hide Busy, Inv, CacheShrinks;
    var ok :| Admitted(c, s, now, owner, ids, ok, t);
    var m :| Pruned(s, now, m) && AdmittedFrom(c, m.(queue := Filtered(m.queue, m.jobs)), now, owner, ids, ok, t);
    var f := m.(queue := Filtered(m.queue, m.jobs));
    assert f.jobs[id] == s.jobs[id];
    if ok {
      FilterListed(c, s, now, m, f);
      RegisteredFromStart(BookOf(f), f.cache.artifacts.Keys, now, owner, ids);
      assert Joinable(f.jobs, f.cache.artifacts.Keys, id);
      assert StaysShared(s, t, id, owner, id in ids);
    } else {
      assert StaysShared(s, t, id, owner, false);
    }
  }

  lemma FilterListed(c: Config, s: State, now: Time, m: State, f: State)
    requires Inv(c, s) && Pruned(s, now, m) && f == m.(queue := Filtered(m.queue, m.jobs))
    ensures Distinct(f.queue) && forall q <- f.queue :: QueuedId(f.jobs, q)
  {
    FilteredMembers(m.queue, m.jobs);
  }

  // ---------------------------------------------------------------------- the worker

  /** A dequeue starts a job that is not too old, or lets it expire when it is. */
  lemma DequeueFates(s: State, now: Time, t: State, id: Id)
    requires Dequeued(s, now, t) && ActiveId(s.jobs, id)
    ensures SameJob(s, t, id) && t.jobs[id].subscribers == s.jobs[id].subscribers
    ensures t.jobs[id].state == s.jobs[id].state
      || (t.jobs[id].state.Running? && now - s.jobs[id].created <= QueueAge)
      || (t.jobs[id].state.Expired? && s.jobs[id].state.Queued? && now - s.jobs[id].created > QueueAge)
  {
  }

  /** The end of a render settles its own job as ready or failed, and no other. */
  lemma FinishFates(c: Config, s: State, now: Time, failed: bool, late: bool, ended: bool, size: nat, digest: nat, t: State, id: Id)
    requires Finished(c, s, now, failed, late, ended, size, digest, t) && ActiveId(s.jobs, id)
    ensures SameJob(s, t, id) && t.jobs[id].subscribers == s.jobs[id].subscribers
    ensures t.jobs[id].state == s.jobs[id].state
      || (s.worker == Rendering(id, s.jobs[id].serial) && s.jobs[id].state.Running? && (t.jobs[id].state.Ready? || t.jobs[id].state.Failed?))
  {
    hide Published;
  }

  /** Why an active job is not what it was. */
  predicate Explained(s: State, now: Time, e: Event, t: State, id: Id)
    requires id in s.jobs && id in t.jobs
  {
    match t.jobs[id].state
    case Queued => false
    case Running => e.DequeueE? && now - s.jobs[id].created <= QueueAge && t.worker == Rendering(id, s.jobs[id].serial)
    case Expired => e.DequeueE? && s.jobs[id].state.Queued? && now - s.jobs[id].created > QueueAge
    case Cancelled => EndsFor(s, e, id)
    case Ready => e.FinishE? && s.worker == Rendering(id, s.jobs[id].serial)
    case Failed => e.FinishE? && s.worker == Rendering(id, s.jobs[id].serial)
  }

  /** Main result: an active job is kept by every step, and changes state only for its reason: young
      enough to start, too old to wait, cancelled by its last subscriber, or settled by its worker. */
  lemma ActiveFates(c: Config, s: State, now: Time, e: Event, t: State, id: Id)
    requires Inv(c, s) && Step(c, s, now, e, t) && ActiveId(s.jobs, id)
    ensures SameJob(s, t, id) && (t.jobs[id].state == s.jobs[id].state || Explained(s, now, e, t, id))
  {
    hide Inv, CacheShrinks, Admitted, Finished, Dequeued, CanOpen;
    match e
    case AdmitE(owner, ids) => AdmitKeepsActive(c, s, now, owner, ids, t, id);
    case DequeueE =>
      DequeueFates(s, now, t, id);
      DequeueStarts(s, now, t, id);
    case FinishE(failed, late, ended, size, digest) => FinishFates(c, s, now, failed, late, ended, size, digest, t, id);
    case _ =>
  }

  lemma DequeueStarts(s: State, now: Time, t: State, id: Id)
    requires Dequeued(s, now, t) && ActiveId(s.jobs, id)
    ensures id in t.jobs && t.jobs[id].state.Running? && s.jobs[id].state.Queued? ==> t.worker == Rendering(id, s.jobs[id].serial)
  {
  }

  /** A subscription to work under way ends only by the subscriber's own cancellation. */
  lemma SubscriptionKept(c: Config, s: State, now: Time, e: Event, t: State, id: Id, owner: Owner)
    requires Inv(c, s) && Step(c, s, now, e, t) && ActiveId(s.jobs, id) && owner in s.jobs[id].subscribers
    ensures id in t.jobs && (owner in t.jobs[id].subscribers || e == CancelE(owner, id))
  {
    hide Inv, CacheShrinks, Admitted, Finished, Dequeued, CanOpen;
    match e
    case AdmitE(o, ids) => AdmitKeepsActive(c, s, now, o, ids, t, id);
    case DequeueE => DequeueFates(s, now, t, id);
    case FinishE(failed, late, ended, size, digest) => FinishFates(c, s, now, failed, late, ended, size, digest, t, id);
    case _ =>
  }

  /** A dequeue leaves the worker idle only when every queued job is too old. */
  lemma IdleOnlyWithoutWork(c: Config, s: State, now: Time, t: State, id: Id)
    requires Inv(c, s) && Dequeued(s, now, t) && QueuedId(s.jobs, id) && now - s.jobs[id].created <= QueueAge
    ensures t.worker.Rendering?
  {
    hide CacheInv, WorkerInv, LoadInv, Unmade;
    var k :| 0 <= k < |s.queue| && s.queue[k] == id;
    assert Live(s.jobs, now, s.queue[k]);
  }

  /** Position k of the queue holds a job that is waiting and young enough. */
  predicate Waits(s: State, now: Time, k: nat)
    requires k < |s.queue|
  {
    QueuedId(s.jobs, s.queue[k]) && now - s.jobs[s.queue[k]].created <= QueueAge
  }

  /** Position k holds such a job of an owner other than the last one served. */
  predicate WaitsElse(s: State, now: Time, k: nat)
    requires k < |s.queue|
  {
    Waits(s, now, k) && Some(s.jobs[s.queue[k]].owner) != s.last
  }

  /** The job at position i is started and takes its turn: it is the first of another owner, or else
      the first of all, and jobs behind another owner's turn are not looked at. */
  ghost predicate TakesTurn(s: State, now: Time, t: State, i: nat) {
    && i < |s.queue| && Waits(s, now, i)
    && t.worker == Rendering(s.queue[i], s.jobs[s.queue[i]].serial) && t.last == Some(s.jobs[s.queue[i]].owner)
    && t.queue == s.queue[..i] + s.queue[i + 1..]
    && (forall k: nat | k < i :: !WaitsElse(s, now, k))
    && (WaitsElse(s, now, i) ==> forall k: nat | i < k < |s.queue| && s.queue[k] in s.jobs :: Untouched(s, t, s.queue[k]))
    && (!WaitsElse(s, now, i) ==> forall k: nat | k < |s.queue| :: !WaitsElse(s, now, k) && (k < i ==> !Waits(s, now, k)))
  }

  predicate Untouched(s: State, t: State, id: Id)
    requires id in s.jobs
  {
    id in t.jobs && t.jobs[id] == s.jobs[id]
  }

  lemma OtherTurn(s: State, now: Time, t: State, i: nat)
    requires Distinct(s.queue) && FirstOther(s, now, i) && t == Start(s, Aged(s.jobs, s.queue[..i + 1], now), i)
    ensures TakesTurn(s, now, t, i)
  {
    hide Distinct;
    forall k: nat | k <= i ensures WaitsElse(s, now, k) == Other(s.jobs, s.last, now, s.queue[k]) {}
    forall k: nat | i < k < |s.queue| && s.queue[k] in s.jobs ensures Untouched(s, t, s.queue[k]) {
      NotSeen(s.queue, i, k);
    }
  }

  lemma NotSeen(q: seq<Id>, i: nat, k: nat)
    requires Distinct(q) && i < k < |q|
    ensures q[k] !in q[..i + 1] && q[k] != q[i]
  {
  }

  lemma SameTurn(s: State, now: Time, t: State, i: nat)
    requires NoneOf(s.queue, (id: Id) => Other(s.jobs, s.last, now, id)) && FirstLive(s, now, i)
    requires t == Start(s, Aged(s.jobs, s.queue, now), i)
    ensures TakesTurn(s, now, t, i)
  {
    forall k: nat | k < |s.queue| ensures !WaitsElse(s, now, k) { assert !Other(s.jobs, s.last, now, s.queue[k]); }
    forall k: nat | k < i ensures !Waits(s, now, k) { assert !Live(s.jobs, now, s.queue[k]); }
  }

  /** Main result: no owner is served twice in a row while a job of another owner waits. */
  lemma OwnersTakeTurns(c: Config, s: State, now: Time, t: State)
    requires Inv(c, s) && Dequeued(s, now, t) && t.worker.Rendering?
    ensures exists i: nat :: TakesTurn(s, now, t, i)
  {
    hide CacheInv, WorkerInv, LoadInv, Unmade, Distinct, TakesTurn, NoneOf;
    if ServesOther(s, now, t) {
      var i: nat :| FirstOther(s, now, i) && t == Start(s, Aged(s.jobs, s.queue[..i + 1], now), i);
      OtherTurn(s, now, t, i);
    } else if ServesSame(s, now, t) {
      var i: nat :| FirstLive(s, now, i) && t == Start(s, Aged(s.jobs, s.queue, now), i);
      SameTurn(s, now, t, i);
    }
  }

  // ------------------------------------------------------- every active job is wanted

  ghost predicate Wanted(s: State) { forall id <- s.jobs :: Active(s.jobs[id]) ==> s.jobs[id].subscribers != {} }

  lemma AdmitWanted(c: Config, s: State, now: Time, owner: Owner, ids: seq<Id>, t: State)
    requires Inv(c, s) && Wanted(s) && Step(c, s, now, AdmitE(owner, ids), t)
    ensures Wanted(t)
  {
    hide Busy, Inv, CacheShrinks;
    var ok :| Admitted(c, s, now, owner, ids, ok, t);
    var m :| Pruned(s, now, m) && AdmittedFrom(c, m.(queue := Filtered(m.queue, m.jobs)), now, owner, ids, ok, t);
    var f := m.(queue := Filtered(m.queue, m.jobs));
    if ok {
      FilterListed(c, s, now, m, f);
      RegisteredFromStart(BookOf(f), f.cache.artifacts.Keys, now, owner, ids);
    }
  }

  lemma FinishWanted(c: Config, s: State, now: Time, failed: bool, late: bool, ended: bool, size: nat, digest: nat, t: State)
    requires Wanted(s) && Finished(c, s, now, failed, late, ended, size, digest, t)
    ensures Wanted(t)
  {
    hide Published;
  }

  lemma DequeueWanted(s: State, now: Time, t: State)
    requires Wanted(s) && Dequeued(s, now, t)
    ensures Wanted(t)
  {
    hide Dequeued;
    forall id <- t.jobs | Active(t.jobs[id]) ensures t.jobs[id].subscribers != {} {
      DequeueOff(s, now, t, id);
      DequeueFates(s, now, t, id);
    }
  }

  lemma StepWanted(c: Config, s: State, now: Time, e: Event, t: State)
    requires Inv(c, s) && Wanted(s) && Step(c, s, now, e, t)
    ensures Wanted(t)
  {
    hide Inv, CacheShrinks, Admitted, Finished, Dequeued, CanOpen;
    match e
    case AdmitE(owner, ids) => AdmitWanted(c, s, now, owner, ids, t);
    case DequeueE => DequeueWanted(s, now, t);
    case FinishE(failed, late, ended, size, digest) => FinishWanted(c, s, now, failed, late, ended, size, digest, t);
    case _ =>
  }

  /** Main result: in every reachable state somebody is subscribed to every queued or running job. */
  lemma {:induction false} ActiveIsWanted(c: Config, states: seq<State>, times: seq<Time>, events: seq<Event>, i: nat)
    requires IsRun(c, states, times, events) && i < |states|
    ensures Wanted(states[i])
  {
    hide Step, Inv;
    if i > 0 {
      ActiveIsWanted(c, states, times, events, i - 1);
      Reachable(c, states, times, events, i - 1);
      StepWanted(c, states[i - 1], times[i - 1], events[i - 1], states[i]);
    }
  }

  // ------------------------------------------------------------------------ admission

  /** After a granted batch each identity has its owner among the subscribers and is queued, running,
      or ready with its image; work under way was joined, and new work starts its age now. */
  ghost predicate Served(f: State, t: State, now: Time, owner: Owner, id: Id) {
    && id in t.jobs && owner in t.jobs[id].subscribers
    && (Active(t.jobs[id]) || (t.jobs[id].state.Ready? && id in t.cache.artifacts))
    && (ActiveId(f.jobs, id) ==> StaysShared(f, t, id, owner, true))
    && (t.jobs[id].state.Queued? && !ActiveId(f.jobs, id) ==> t.jobs[id].created == now && t.jobs[id].owner == owner && id in t.queue)
  }

  /** Entries made by registration carry the time of registration. */
  lemma {:induction false} RegisteredNow(f: Book, made: set<Id>, now: Time, owner: Owner, t: Book, ids: seq<Id>)
    requires forall id <- t.jobs ::
      t.jobs[id].created == now || (id in f.jobs && t.jobs[id].created == f.jobs[id].created && t.jobs[id].serial == f.jobs[id].serial)
    ensures var b := RegisterAll(t, made, now, owner, ids);
      forall id <- b.jobs ::
        b.jobs[id].created == now || (id in f.jobs && b.jobs[id].created == f.jobs[id].created && b.jobs[id].serial == f.jobs[id].serial)
    decreases |ids|
  {
    if ids != [] { RegisteredNow(f, made, now, owner, Register(t, made, now, owner, ids[0]), ids[1..]); }
  }

  lemma AdmittedServes(c: Config, s: State, now: Time, owner: Owner, ids: seq<Id>, t: State, id: Id)
    requires Inv(c, s) && Admitted(c, s, now, owner, ids, true, t) && id in ids
    ensures Served(s, t, now, owner, id)
  {
    hide Busy, CacheShrinks, CacheInv, LoadInv, Listed;
    var m :| Pruned(s, now, m) && AdmittedFrom(c, m.(queue := Filtered(m.queue, m.jobs)), now, owner, ids, true, t);
    var f := m.(queue := Filtered(m.queue, m.jobs));
    FilterListed(c, s, now, m, f);
    RegisteredFromStart(BookOf(f), f.cache.artifacts.Keys, now, owner, ids);
    RegisteredNow(BookOf(f), f.cache.artifacts.Keys, now, owner, BookOf(f), ids);
  }

  // ------------------------------------------------------------- refusal of a batch

  /** Some limit would be broken if the batch were registered. */
  ghost predicate Overloads(c: Config, f: State, now: Time, owner: Owner, ids: seq<Id>) {
    var b := RegisterAll(BookOf(f), f.cache.artifacts.Keys, now, owner, ids);
    || (exists id <- b.jobs :: |b.jobs[id].subscribers| > MaxSubscribers)
    || |QueuedIds(b.jobs)| > c.queue || |OwnedIds(b.jobs, owner)| > OwnerJobs || |f.jobs| + |ids| > MaxJobs
  }

  lemma RegisteredSets(f: Book, made: set<Id>, owner: Owner, ids: seq<Id>, b: Book)
    requires JobsRegistered(f, made, owner, (set id <- ids), b) && Unmade(f.jobs, made)
    ensures QueuedIds(b.jobs) == QueuedIds(f.jobs) + FreshIds(f.jobs, made, ids)
    ensures OwnedIds(b.jobs, owner) == OwnedIds(f.jobs, owner) + FreshIds(f.jobs, made, ids) + AddedIds(f.jobs, owner, ids)
  {
    RegisterCounts(f, made, owner, ids, b);
    forall id <- FreshIds(f.jobs, made, ids) ensures id in QueuedIds(b.jobs) && id in OwnedIds(b.jobs, owner) {}
    forall id <- QueuedIds(f.jobs) ensures id in QueuedIds(b.jobs) {}
    forall id <- OwnedIds(f.jobs, owner) + AddedIds(f.jobs, owner, ids) ensures id in OwnedIds(b.jobs, owner) {}
  }

  lemma DisjointSize<T>(a: set<T>, b: set<T>)
    requires a !! b
    ensures |a + b| == |a| + |b|
  {
  }

  lemma RegisteredSizes(f: Book, made: set<Id>, owner: Owner, ids: seq<Id>, b: Book)
    requires JobsRegistered(f, made, owner, (set id <- ids), b) && Unmade(f.jobs, made)
    ensures |QueuedIds(b.jobs)| == |QueuedIds(f.jobs)| + |FreshIds(f.jobs, made, ids)|
    ensures |OwnedIds(b.jobs, owner)| == |OwnedIds(f.jobs, owner)| + |FreshIds(f.jobs, made, ids)| + |AddedIds(f.jobs, owner, ids)|
  {
    hide JobsRegistered, Unmade;
    var news, added := FreshIds(f.jobs, made, ids), AddedIds(f.jobs, owner, ids);
    RegisteredSets(f, made, owner, ids, b);
    assert QueuedIds(f.jobs) !! news && OwnedIds(f.jobs, owner) !! news && (OwnedIds(f.jobs, owner) + news) !! added;
    DisjointSize(QueuedIds(f.jobs), news);
    DisjointSize(OwnedIds(f.jobs, owner), news);
    DisjointSize(OwnedIds(f.jobs, owner) + news, added);
  }

  lemma CrowdedExactly(f: Book, made: set<Id>, owner: Owner, ids: seq<Id>, b: Book)
    requires JobsRegistered(f, made, owner, (set id <- ids), b) && forall id <- f.jobs :: |f.jobs[id].subscribers| <= MaxSubscribers
    ensures (exists id <- ids :: Crowded(f.jobs, made, owner, id)) <==> exists id <- b.jobs :: |b.jobs[id].subscribers| > MaxSubscribers
  {
    if id :| id in ids && Crowded(f.jobs, made, owner, id) {
      assert |b.jobs[id].subscribers| > MaxSubscribers;
    } else {
      forall id <- b.jobs ensures |b.jobs[id].subscribers| <= MaxSubscribers {
        if id in ids && Joinable(f.jobs, made, id) {
          assert !Crowded(f.jobs, made, owner, id);
          if owner in f.jobs[id].subscribers { assert b.jobs[id].subscribers == f.jobs[id].subscribers; }
        }
      }
    }
  }

  /** Main result: a batch is turned away exactly when the manager is off or registering it would break
      a limit; nothing of it is registered then. */
  lemma TurnedAwayExactly(c: Config, f: State, now: Time, owner: Owner, ids: seq<Id>, ok: bool, t: State)
    requires Inv(c, f) && (forall q <- f.queue :: QueuedId(f.jobs, q)) && AdmittedFrom(c, f, now, owner, ids, ok, t)
    ensures ok <==> f.enabled && !f.closed && !Overloads(c, f, now, owner, ids)
    ensures !ok ==> t == f
  {
    hide CacheInv, WorkerInv, QueueRegistered, JobsRegistered, Crowded, FreshIds, AddedIds, QueuedIds, OwnedIds;
    var made := f.cache.artifacts.Keys;
    var b := RegisterAll(BookOf(f), made, now, owner, ids);
    RegisteredFromStart(BookOf(f), made, now, owner, ids);
    RegisteredSizes(BookOf(f), made, owner, ids, b);
    CrowdedExactly(BookOf(f), made, owner, ids, b);
  }

  // --------------------------------------------------------------- what is kept, and how long

  /** An entry goes, or is replaced by a new job, only when it is finished: after half an hour, or
      because its owner or another asks for the image again. */
  lemma EntryGoes(c: Config, s: State, now: Time, e: Event, t: State, id: Id)
    requires Inv(c, s) && Step(c, s, now, e, t) && id in s.jobs && !SameJob(s, t, id)
    ensures !Active(s.jobs[id]) && (now - s.jobs[id].created > JobMinutes || (e.AdmitE? && id in e.ids))
  {
    hide Inv, CacheShrinks, Finished, Dequeued, CanOpen;
    if Active(s.jobs[id]) { ActiveFates(c, s, now, e, t, id); }
    match e
    case AdmitE(owner, ids) => AdmitEntries(c, s, now, owner, ids, t, id);
    case DequeueE => DequeueEntries(s, now, t, id);
    case FinishE(failed, late, ended, size, digest) => FinishEntries(c, s, now, failed, late, ended, size, digest, t, id);
    case _ =>
  }

  lemma AdmitEntries(c: Config, s: State, now: Time, owner: Owner, ids: seq<Id>, t: State, id: Id)
    requires Inv(c, s) && Step(c, s, now, AdmitE(owner, ids), t) && id in s.jobs && !SameJob(s, t, id)
    ensures now - s.jobs[id].created > JobMinutes || id in ids
  {
    hide Busy, Inv, CacheShrinks;
    var ok :| Admitted(c, s, now, owner, ids, ok, t);
    var m :| Pruned(s, now, m) && AdmittedFrom(c, m.(queue := Filtered(m.queue, m.jobs)), now, owner, ids, ok, t);
    var f := m.(queue := Filtered(m.queue, m.jobs));
    if ok {
      FilterListed(c, s, now, m, f);
      RegisteredFromStart(BookOf(f), f.cache.artifacts.Keys, now, owner, ids);
    }
  }

  lemma DequeueEntries(s: State, now: Time, t: State, id: Id)
    requires Dequeued(s, now, t) && id in s.jobs
    ensures SameJob(s, t, id)
  {
  }

  lemma FinishEntries(c: Config, s: State, now: Time, failed: bool, late: bool, ended: bool, size: nat, digest: nat, t: State, id: Id)
    requires Finished(c, s, now, failed, late, ended, size, digest, t) && id in s.jobs
    ensures SameJob(s, t, id) || now - s.jobs[id].created > JobMinutes
  {
    hide Published;
  }

  /** A finished job keeps its outcome for as long as its entry is there. */
  lemma OutcomeStays(c: Config, s: State, now: Time, e: Event, t: State, id: Id)
    requires Inv(c, s) && Step(c, s, now, e, t) && SameJob(s, t, id) && !Active(s.jobs[id])
    ensures t.jobs[id].state == s.jobs[id].state
  {
    hide Inv, CacheShrinks, Admitted, Finished, Dequeued, CanOpen;
    match e
    case AdmitE(owner, ids) => AdmitOutcome(c, s, now, owner, ids, t, id);
    case DequeueE => DequeueOutcome(s, now, t, id);
    case FinishE(failed, late, ended, size, digest) => FinishOutcome(c, s, now, failed, late, ended, size, digest, t, id);
    case _ =>
  }

  lemma AdmitOutcome(c: Config, s: State, now: Time, owner: Owner, ids: seq<Id>, t: State, id: Id)
    requires Inv(c, s) && Step(c, s, now, AdmitE(owner, ids), t) && SameJob(s, t, id) && !Active(s.jobs[id])
    ensures t.jobs[id].state == s.jobs[id].state
  {
    hide Busy, Inv, CacheShrinks;
    SerialBelow(c, s, id);
    var ok :| Admitted(c, s, now, owner, ids, ok, t);
    var m :| Pruned(s, now, m) && AdmittedFrom(c, m.(queue := Filtered(m.queue, m.jobs)), now, owner, ids, ok, t);
    var f := m.(queue := Filtered(m.queue, m.jobs));
    if ok {
      FilterListed(c, s, now, m, f);
      RegisteredFromStart(BookOf(f), f.cache.artifacts.Keys, now, owner, ids);
    }
  }

  lemma SerialBelow(c: Config, s: State, id: Id)
    requires Inv(c, s) && id in s.jobs
    ensures s.jobs[id].serial < s.nextSerial
  {
  }

  lemma DequeueOutcome(s: State, now: Time, t: State, id: Id)
    requires Dequeued(s, now, t) && id in s.jobs && !Active(s.jobs[id])
    ensures id in t.jobs && t.jobs[id].state == s.jobs[id].state
  {
  }

  lemma FinishOutcome(c: Config, s: State, now: Time, failed: bool, late: bool, ended: bool, size: nat, digest: nat, t: State, id: Id)
    requires Finished(c, s, now, failed, late, ended, size, digest, t) && SameJob(s, t, id) && !Active(s.jobs[id])
    ensures t.jobs[id].state == s.jobs[id].state
  {
    hide Published;
  }

  /** A published image is in the index as it was rendered, new and unleased, and in its file; every
      other image of the index was there before. */
  lemma PublishedImage(c: Config, s: Cache, now: Time, id: Id, size: nat, digest: nat, t: Cache)
    requires Published(c, s, now, id, size, digest, true, t)
    ensures id in t.artifacts && t.artifacts[id] == Artifact(size, now, digest, 0) && id in t.files && t.files[id] == size
    ensures forall k <- t.artifacts :: k != id ==> k in s.artifacts && t.artifacts[k] == s.artifacts[k]
  {
    var m: Cache :| CacheShrinks(s, m) && t == Stored(m, now, id, size, digest);
  }

  /** A lease is opened only on an image that is there with its file and no older than allowed, and
      it is opened whenever the counts stay within their limits. */
  lemma OpenedExactly(c: Config, s: State, now: Time, id: Id)
    ensures (exists t :: Step(c, s, now, OpenE(id), t))
      <==> id in s.cache.artifacts && now - s.cache.artifacts[id].created <= c.maxAge && id in s.cache.files
           && Open(s.cache, id).artifacts[id].refs <= 32 && Open(s.cache, id).open <= 64
  {
    if CanOpen(c, s.cache, now, id) { assert Step(c, s, now, OpenE(id), s.(cache := Open(s.cache, id))); }
  }

  // -------------------------------------------------------------------- switched off

  /** Admission is switched off, or the manager shuts down. */
  predicate Off(s: State) { !s.enabled || s.closed }

  predicate SwitchesOn(e: Event) { e.EnableE? && e.on }

  /** No job becomes active, and the switch stays where it was put. */
  lemma OffStep(c: Config, s: State, now: Time, e: Event, t: State, id: Id)
    requires Inv(c, s) && Step(c, s, now, e, t)
    ensures s.closed ==> t.closed
    ensures e.ShutdownE? ==> t.closed
    ensures e.EnableE? ==> t.enabled == e.on
    ensures !s.enabled && !SwitchesOn(e) ==> !t.enabled
    ensures Off(s) && ActiveId(t.jobs, id) ==> ActiveId(s.jobs, id) && SameJob(s, t, id)
  {
    hide Inv, CacheShrinks, Admitted, Finished, Dequeued, CanOpen;
    match e
    case AdmitE(owner, ids) => AdmitOff(c, s, now, owner, ids, t, id);
    case MaintainE => assert t.jobs == FreshJobs(s.jobs, now);
    case DequeueE => DequeueOff(s, now, t, id);
    case FinishE(failed, late, ended, size, digest) => FinishOff(c, s, now, failed, late, ended, size, digest, t, id);
    case _ =>
  }

  lemma AdmitOff(c: Config, s: State, now: Time, owner: Owner, ids: seq<Id>, t: State, id: Id)
    requires Step(c, s, now, AdmitE(owner, ids), t)
    ensures t.enabled == s.enabled && t.closed == s.closed
    ensures Off(s) && ActiveId(t.jobs, id) ==> ActiveId(s.jobs, id) && SameJob(s, t, id)
  {
    hide Busy, CacheShrinks, RegisterAll;
    var ok :| Admitted(c, s, now, owner, ids, ok, t);
    var m :| Pruned(s, now, m) && AdmittedFrom(c, m.(queue := Filtered(m.queue, m.jobs)), now, owner, ids, ok, t);
  }

  lemma DequeueOff(s: State, now: Time, t: State, id: Id)
    requires Dequeued(s, now, t)
    ensures t.enabled == s.enabled && t.closed == s.closed
    ensures ActiveId(t.jobs, id) ==> ActiveId(s.jobs, id) && SameJob(s, t, id)
  {
  }

  lemma FinishOff(c: Config, s: State, now: Time, failed: bool, late: bool, ended: bool, size: nat, digest: nat, t: State, id: Id)
    requires Finished(c, s, now, failed, late, ended, size, digest, t)
    ensures t.enabled == s.enabled && (s.closed ==> t.closed)
    ensures ActiveId(t.jobs, id) ==> ActiveId(s.jobs, id) && SameJob(s, t, id)
  {
    hide Published;
  }

  /** Main result: from a shutdown on, and from the moment admission is switched off until it is
      switched on again, no job becomes active, so the work under way only gets less. */
  lemma {:induction false} OffDrains(c: Config, states: seq<State>, times: seq<Time>, events: seq<Event>, i: nat, j: nat, id: Id)
    requires IsRun(c, states, times, events) && i < j < |states|
    requires events[i].ShutdownE? || (events[i] == EnableE(false) && forall n | i < n < j :: !SwitchesOn(events[n]))
    ensures if events[i].ShutdownE? then states[j].closed else !states[j].enabled
    ensures ActiveId(states[j].jobs, id) ==> ActiveId(states[i].jobs, id) && SameJob(states[i], states[j], id)
    decreases j
  {
    hide Step, Inv;
    var n := j - 1;
    Reachable(c, states, times, events, n);
    OffStep(c, states[n], times[n], events[n], states[j], id);
    if i < n { OffDrains(c, states, times, events, i, n, id); } else { OffAtOnce(c, states[i], times[i], events[i], states[j]); }
  }

  lemma OffAtOnce(c: Config, s: State, now: Time, e: Event, t: State)
    requires Step(c, s, now, e, t) && (e.ShutdownE? || e.EnableE?)
    ensures t.jobs == s.jobs
  {
  }

  /** The worker wakes only by the token in its channel, and takes it out. */
  lemma TokenTaken(c: Config, s: State, now: Time, e: Event, t: State)
    requires Step(c, s, now, e, t) && s.worker.Waiting? && !t.worker.Waiting? && !s.closed
    ensures e.WakeE? && s.wake && !t.wake && t.worker.Draining?
  {
    hide CacheShrinks, Busy, RegisterAll, CanOpen;
  }
}
