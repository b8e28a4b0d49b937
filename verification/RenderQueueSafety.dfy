/** The manager invariant holds in every reachable state. */
module RenderQueueSafety {
  import opened Basics
  import opened RenderQueue

  // --------------------------------------------------------------- pruning

  lemma ShrinkKeepsCache(c: Config, s: Cache, t: Cache)
    requires CacheInv(c, s) && CacheShrinks(s, t)
    ensures CacheInv(c, t) && t.artifacts.Keys <= s.artifacts.Keys
  {
    TotalMonotone(Sizes(t.artifacts), Sizes(s.artifacts));
    SubsetSize(t.artifacts.Keys, s.artifacts.Keys);
    assert |t.artifacts| == |t.artifacts.Keys| && |s.artifacts| == |s.artifacts.Keys|;
    forall l <- t.leases ensures t.leases[l] in t.artifacts {
      assert l in LeasesOf(s.leases, s.leases[l]);
    }
  }

  /** jobs2 keeps every active job of jobs and has nothing that was not there. */
  ghost predicate Weaker(jobs: map<Id, Job>, jobs2: map<Id, Job>) {
    forall id <- jobs2 :: (id in jobs && jobs2[id].serial == jobs[id].serial
      && jobs2[id].subscribers <= jobs[id].subscribers
      && (jobs2[id].state == jobs[id].state || !Active(jobs2[id])))
  }

  lemma WeakerLoad(c: Config, jobs: map<Id, Job>, jobs2: map<Id, Job>)
    requires LoadInv(c, jobs) && Weaker(jobs, jobs2)
    ensures LoadInv(c, jobs2) && QueuedIds(jobs2) <= QueuedIds(jobs)
  {
    SubsetSize(QueuedIds(jobs2), QueuedIds(jobs));
    forall owner: Owner ensures |OwnedIds(jobs2, owner)| <= OwnerJobs {
      SubsetSize(OwnedIds(jobs2, owner), OwnedIds(jobs, owner));
    }
    forall id <- jobs2 ensures |jobs2[id].subscribers| <= MaxSubscribers {
      SubsetSize(jobs2[id].subscribers, jobs[id].subscribers);
    }
  }

  /** Jobs that only end, and a cache that only shrinks, keep the invariant. */
  lemma WeakerKeeps(c: Config, s: State, t: State)
    requires Inv(c, s) && Weaker(s.jobs, t.jobs) && t.queue == s.queue && t.nextSerial == s.nextSerial
    requires t.worker == s.worker && t.wake == s.wake
    requires CacheInv(c, t.cache) && t.cache.artifacts.Keys <= s.cache.artifacts.Keys
    ensures Inv(c, t)
  {
    WeakerLoad(c, s.jobs, t.jobs);
  }

  lemma PruneKeeps(c: Config, s: State, now: Time, t: State)
    requires Inv(c, s) && Pruned(s, now, t)
    ensures Inv(c, t)
  {
    ShrinkKeepsCache(c, s.cache, t.cache);
    WeakerKeeps(c, s, t);
  }

  // -------------------------------------------------------------- admission

  lemma {:induction false} FilteredMembers(queue: seq<Id>, jobs: map<Id, Job>)
    ensures forall id :: id in Filtered(queue, jobs) <==> id in queue && QueuedId(jobs, id)
    ensures Distinct(queue) ==> Distinct(Filtered(queue, jobs))
  {
    if queue != [] {
      FilteredMembers(queue[1..], jobs);
      if Distinct(queue) {
        assert Distinct(queue[1..]);
        assert queue[0] !in queue[1..];
      }
    }
  }

  /** What registering the identities `done` for one owner leaves behind. */
  ghost predicate JobsRegistered(f: Book, made: set<Id>, owner: Owner, done: set<Id>, t: Book) {
    && t.nextSerial >= f.nextSerial
    && t.jobs.Keys == f.jobs.Keys + done
    && (forall id <- f.jobs :: id !in done ==> t.jobs[id] == f.jobs[id])
    && (forall id <- done :: if Joinable(f.jobs, made, id)
          then t.jobs[id] == f.jobs[id].(subscribers := f.jobs[id].subscribers + {owner})
          else t.jobs[id].subscribers == {owner} && t.jobs[id].owner == owner
               && t.jobs[id].state == (if id in made then Ready else Queued)
               && f.nextSerial <= t.jobs[id].serial < t.nextSerial)
  }

  ghost predicate QueueRegistered(f: Book, made: set<Id>, done: set<Id>, t: Book) {
    && Distinct(t.queue) && f.queue <= t.queue
    && (forall id :: id in t.queue <==> id in f.queue || (id in done && !Joinable(f.jobs, made, id) && id !in made))
  }

  ghost predicate Registered(f: Book, made: set<Id>, owner: Owner, done: set<Id>, t: Book) {
    JobsRegistered(f, made, owner, done, t) && QueueRegistered(f, made, done, t)
  }

  lemma RegisteredNothing(f: Book, made: set<Id>, owner: Owner)
    requires Distinct(f.queue)
    ensures Registered(f, made, owner, {}, f)
  {
  }

  lemma RegisterExtends(f: Book, made: set<Id>, now: Time, owner: Owner, done: set<Id>, t: Book, id: Id)
    requires Registered(f, made, owner, done, t)
    requires forall q <- f.queue :: QueuedId(f.jobs, q)
    ensures Registered(f, made, owner, done + {id}, Register(t, made, now, owner, id))
  {
    var u := Register(t, made, now, owner, id);
    if id !in done {
      assert id in t.jobs <==> id in f.jobs;
      assert Joinable(t.jobs, made, id) == Joinable(f.jobs, made, id);
      assert id in t.queue ==> id in f.queue;
    } else {
      assert Joinable(t.jobs, made, id);
    }
    assert JobsRegistered(f, made, owner, done + {id}, u);
    assert QueueRegistered(f, made, done + {id}, u);
  }

  lemma {:induction false} RegisterAllEffect(
    f: Book, made: set<Id>, now: Time, owner: Owner, done: set<Id>, t: Book, ids: seq<Id>)
    requires Registered(f, made, owner, done, t)
    requires forall q <- f.queue :: QueuedId(f.jobs, q)
    ensures Registered(f, made, owner, done + (set id <- ids), RegisterAll(t, made, now, owner, ids))
    decreases |ids|
  {
    if ids == [] {
      assert done + (set id <- ids) == done;
    } else {
      RegisterExtends(f, made, now, owner, done, t, ids[0]);
      RegisterAllEffect(f, made, now, owner, done + {ids[0]}, Register(t, made, now, owner, ids[0]), ids[1..]);
      assert done + {ids[0]} + (set id <- ids[1..]) == done + (set id <- ids);
    }
  }

  lemma RegisterLists(f: Book, made: set<Id>, owner: Owner, done: set<Id>, t: Book)
    requires Listed(f.jobs, f.queue) && Registered(f, made, owner, done, t)
    ensures Listed(t.jobs, t.queue)
  {
    forall id <- t.jobs | t.jobs[id].state.Queued? ensures id in t.queue {
      if id in done && !Joinable(f.jobs, made, id) { assert id !in made; }
    }
  }

  lemma RegisterWorker(f: Book, made: set<Id>, owner: Owner, done: set<Id>, t: Book, worker: Worker, wake: bool)
    requires WorkerInv(f.jobs, f.nextSerial, worker, wake) && JobsRegistered(f, made, owner, done, t)
    requires Unmade(f.jobs, made)
    ensures WorkerInv(t.jobs, t.nextSerial, worker, true) && Unmade(t.jobs, made)
  {
  }

  lemma RegisterCounts(f: Book, made: set<Id>, owner: Owner, ids: seq<Id>, t: Book)
    requires JobsRegistered(f, made, owner, (set id <- ids), t)
    ensures QueuedIds(t.jobs) <= QueuedIds(f.jobs) + FreshIds(f.jobs, made, ids)
    ensures OwnedIds(t.jobs, owner) <= OwnedIds(f.jobs, owner) + FreshIds(f.jobs, made, ids) + AddedIds(f.jobs, owner, ids)
    ensures forall o: Owner :: o != owner ==> OwnedIds(t.jobs, o) <= OwnedIds(f.jobs, o)
  {
  }

  /** The checks before the second loop are exactly what keeps the load within bounds. */
  lemma RegisterLoad(c: Config, f: Book, made: set<Id>, owner: Owner, ids: seq<Id>, t: Book)
    requires LoadInv(c, f.jobs) && !Busy(c, f.jobs, made, owner, ids)
    requires JobsRegistered(f, made, owner, (set id <- ids), t)
    ensures LoadInv(c, t.jobs)
  {
    var news, added := FreshIds(f.jobs, made, ids), AddedIds(f.jobs, owner, ids);
    RegisterCounts(f, made, owner, ids, t);
    SubsetSize(QueuedIds(t.jobs), QueuedIds(f.jobs) + news);
    forall o: Owner ensures |OwnedIds(t.jobs, o)| <= OwnerJobs {
      if o == owner {
        SubsetSize(OwnedIds(t.jobs, o), OwnedIds(f.jobs, o) + news + added);
      } else {
        SubsetSize(OwnedIds(t.jobs, o), OwnedIds(f.jobs, o));
      }
    }
    RegisterSubscribers(c, f, made, owner, ids, t);
  }

  lemma RegisterSubscribers(c: Config, f: Book, made: set<Id>, owner: Owner, ids: seq<Id>, t: Book)
    requires forall id <- f.jobs :: |f.jobs[id].subscribers| <= MaxSubscribers
    requires forall id <- ids :: !Crowded(f.jobs, made, owner, id)
    requires JobsRegistered(f, made, owner, (set id <- ids), t)
    ensures forall id <- t.jobs :: |t.jobs[id].subscribers| <= MaxSubscribers
  {
    forall id <- t.jobs ensures |t.jobs[id].subscribers| <= MaxSubscribers {
      if id in ids && Joinable(f.jobs, made, id) {
        assert !Crowded(f.jobs, made, owner, id);
        if owner in f.jobs[id].subscribers {
          assert t.jobs[id].subscribers == f.jobs[id].subscribers;
        }
      }
    }
  }

  lemma RegisteredFromStart(f: Book, made: set<Id>, now: Time, owner: Owner, ids: seq<Id>)
    requires Distinct(f.queue) && forall q <- f.queue :: QueuedId(f.jobs, q)
    ensures Registered(f, made, owner, (set id <- ids), RegisterAll(f, made, now, owner, ids))
  {
    RegisteredNothing(f, made, owner);
    RegisterAllEffect(f, made, now, owner, {}, f, ids);
    assert {} + (set id <- ids) == (set id <- ids);
  }

  lemma AdmittedFromKeeps(c: Config, f: State, now: Time, owner: Owner, ids: seq<Id>, ok: bool, t: State)
    requires Inv(c, f) && AdmittedFrom(c, f, now, owner, ids, ok, t)
    requires forall q <- f.queue :: QueuedId(f.jobs, q)
    ensures Inv(c, t)
  {
    if ok {
      RegisteredFromStart(BookOf(f), f.cache.artifacts.Keys, now, owner, ids);
      BookKeeps(c, f, owner, ids, RegisterAll(BookOf(f), f.cache.artifacts.Keys, now, owner, ids), t);
    }
  }

  lemma BookKeeps(c: Config, f: State, owner: Owner, ids: seq<Id>, b: Book, t: State)
    requires Inv(c, f) && !Busy(c, f.jobs, f.cache.artifacts.Keys, owner, ids)
    requires Registered(BookOf(f), f.cache.artifacts.Keys, owner, (set id <- ids), b)
    requires t == f.(jobs := b.jobs, queue := b.queue, nextSerial := b.nextSerial, wake := true)
    ensures Inv(c, t)
  {
    var made, done := f.cache.artifacts.Keys, set id <- ids;
    assert Listed(t.jobs, t.queue) by { RegisterLists(BookOf(f), made, owner, done, b); }
    assert WorkerInv(t.jobs, t.nextSerial, t.worker, t.wake) && Unmade(t.jobs, made) by {
      RegisterWorker(BookOf(f), made, owner, done, b, f.worker, f.wake);
    }
    assert LoadInv(c, t.jobs) by { RegisterLoad(c, BookOf(f), made, owner, ids, b); }
  }

  lemma AdmitKeeps(c: Config, s: State, now: Time, owner: Owner, ids: seq<Id>, ok: bool, t: State)
    requires Inv(c, s) && Admitted(c, s, now, owner, ids, ok, t)
    ensures Inv(c, t)
  {
    var m :| Pruned(s, now, m) && AdmittedFrom(c, m.(queue := Filtered(m.queue, m.jobs)), now, owner, ids, ok, t);
    PruneKeeps(c, s, now, m);
    FilteredMembers(m.queue, m.jobs);
    AdmittedFromKeeps(c, m.(queue := Filtered(m.queue, m.jobs)), now, owner, ids, ok, t);
  }

  // ------------------------------------------------------------------- leases

  /** The lease bookkeeping of a cache: references count live leases. */
  ghost predicate Leased(artifacts: map<Id, Artifact>, leases: map<nat, Id>) {
    && (forall id <- artifacts :: artifacts[id].refs == |LeasesOf(leases, id)|)
    && (forall l <- leases :: leases[l] in artifacts)
  }

  lemma LeasesGrow(leases: map<nat, Id>, lease: nat, id: Id, x: Id)
    requires lease !in leases
    ensures LeasesOf(leases[lease := id], x) == LeasesOf(leases, x) + (if x == id then {lease} else {})
  {
  }

  lemma OpenLeases(s: Cache, id: Id)
    requires Leased(s.artifacts, s.leases) && id in s.artifacts && s.nextLease !in s.leases
    ensures Leased(Open(s, id).artifacts, Open(s, id).leases)
    ensures |Open(s, id).leases| == |s.leases| + 1
  {
    var t := Open(s, id);
    forall x <- t.artifacts ensures t.artifacts[x].refs == |LeasesOf(t.leases, x)| {
      LeasesGrow(s.leases, s.nextLease, id, x);
    }
  }

  /** Another count of leases changes neither the sizes nor the number of images. */
  lemma RefsOnly(artifacts: map<Id, Artifact>, id: Id, refs: int)
    requires id in artifacts
    ensures var t := artifacts[id := artifacts[id].(refs := refs)];
      Sizes(t) == Sizes(artifacts) && t.Keys == artifacts.Keys && |t| == |artifacts|
  {
    var t := artifacts[id := artifacts[id].(refs := refs)];
    assert Sizes(t) == Sizes(artifacts);
    assert t.Keys == artifacts.Keys && |t| == |t.Keys| && |artifacts| == |artifacts.Keys|;
  }

  lemma OpenKeeps(c: Config, s: Cache, now: Time, id: Id)
    requires CacheInv(c, s) && CanOpen(c, s, now, id)
    ensures CacheInv(c, Open(s, id)) && Open(s, id).artifacts.Keys == s.artifacts.Keys
  {
    hide Sizes, LeasesOf;
    RefsOnly(s.artifacts, id, s.artifacts[id].refs + 1);
    OpenLeases(s, id);
  }

  lemma CloseLeases(s: Cache, lease: nat)
    requires Leased(s.artifacts, s.leases) && lease in s.leases
    ensures Leased(Close(s, lease).artifacts, Close(s, lease).leases)
    ensures |Close(s, lease).leases| == |s.leases| - 1
  {
    var t, id := Close(s, lease), s.leases[lease];
    assert t.leases.Keys == s.leases.Keys - {lease} && |t.leases| == |t.leases.Keys| && |s.leases| == |s.leases.Keys|;
    forall x <- t.artifacts ensures t.artifacts[x].refs == |LeasesOf(t.leases, x)| {
      LeasesShrink(s.leases, lease, x);
    }
  }

  lemma LeasesShrink(leases: map<nat, Id>, lease: nat, x: Id)
    requires lease in leases
    ensures |LeasesOf(leases - {lease}, x)| == |LeasesOf(leases, x)| - (if leases[lease] == x then 1 else 0)
  {
    assert LeasesOf(leases - {lease}, x) == LeasesOf(leases, x) - (if leases[lease] == x then {lease} else {});
  }

  lemma CloseKeeps(c: Config, s: Cache, lease: nat)
    requires CacheInv(c, s)
    ensures CacheInv(c, Close(s, lease)) && Close(s, lease).artifacts.Keys == s.artifacts.Keys
  {
    hide Sizes, LeasesOf;
    if lease in s.leases {
      var id := s.leases[lease];
      RefsOnly(s.artifacts, id, s.artifacts[id].refs - 1);
      CloseLeases(s, lease);
    }
  }

  // --------------------------------------------------------------- the worker

  lemma AgedWeaker(jobs: map<Id, Job>, seen: seq<Id>, now: Time)
    ensures Weaker(jobs, Aged(jobs, seen, now)) && Aged(jobs, seen, now).Keys == jobs.Keys
  {
  }

  /** The started job had no image, and nothing else runs. */
  lemma StartWorker(s: State, jobs: map<Id, Job>, i: nat)
    requires WorkerInv(s.jobs, s.nextSerial, s.worker, s.wake) && Unmade(s.jobs, s.cache.artifacts.Keys)
    requires s.worker.Draining? && i < |s.queue| && QueuedId(jobs, s.queue[i]) && Weaker(s.jobs, jobs)
    ensures var t := Start(s, jobs, i); WorkerInv(t.jobs, t.nextSerial, t.worker, t.wake) && Unmade(t.jobs, t.cache.artifacts.Keys)
  {
  }

  lemma StartKeeps(c: Config, s: State, seen: seq<Id>, now: Time, i: nat)
    requires Inv(c, s) && s.worker.Draining? && i < |s.queue| && Live(s.jobs, now, s.queue[i])
    ensures Inv(c, Start(s, Aged(s.jobs, seen, now), i))
  {
    hide CacheInv, Weaker, WorkerInv, LoadInv, Listed, Unmade;
    var jobs := Aged(s.jobs, seen, now);
    AgedWeaker(s.jobs, seen, now);
    WeakerLoad(c, s.jobs, jobs);
    StartLoad(c, jobs, s.queue[i]);
    StartLists(s, jobs, i);
    StartWorker(s, jobs, i);
  }

  lemma StartLoad(c: Config, jobs: map<Id, Job>, id: Id)
    requires LoadInv(c, jobs) && QueuedId(jobs, id)
    ensures LoadInv(c, jobs[id := jobs[id].(state := Running)])
  {
    var jobs2 := jobs[id := jobs[id].(state := Running)];
    SubsetSize(QueuedIds(jobs2), QueuedIds(jobs));
    forall o: Owner ensures |OwnedIds(jobs2, o)| <= OwnerJobs {
      assert OwnedIds(jobs2, o) == OwnedIds(jobs, o);
    }
  }

  lemma StartLists(s: State, jobs: map<Id, Job>, i: nat)
    requires Listed(s.jobs, s.queue) && i < |s.queue| && s.queue[i] in jobs && Weaker(s.jobs, jobs)
    ensures Listed(Start(s, jobs, i).jobs, Start(s, jobs, i).queue)
  {
    var t := Start(s, jobs, i);
    forall x <- t.jobs | t.jobs[x].state.Queued? ensures x in t.queue {
      var k :| 0 <= k < |s.queue| && s.queue[k] == x;
      if k < i { assert t.queue[k] == x; } else { assert t.queue[k - 1] == x; }
    }
  }

  lemma DrainKeeps(c: Config, s: State, now: Time)
    requires Inv(c, s) && s.worker.Draining?
    requires NoneOf(s.queue, (id: Id) => Live(s.jobs, now, id))
    ensures Inv(c, s.(jobs := Aged(s.jobs, s.queue, now), queue := [], worker := Waiting))
  {
    var jobs := Aged(s.jobs, s.queue, now);
    AgedWeaker(s.jobs, s.queue, now);
    WeakerLoad(c, s.jobs, jobs);
    forall id <- jobs ensures !jobs[id].state.Queued? {
      if s.jobs[id].state.Queued? {
        var k :| 0 <= k < |s.queue| && s.queue[k] == id;
        assert !Live(s.jobs, now, s.queue[k]);
      }
    }
  }

  lemma ServeKeeps(c: Config, s: State, now: Time, t: State)
    requires Inv(c, s) && s.worker.Draining? && (ServesOther(s, now, t) || ServesSame(s, now, t))
    ensures Inv(c, t)
  {
    if ServesOther(s, now, t) {
      var i: nat :| FirstOther(s, now, i)
        && t == Start(s, Aged(s.jobs, s.queue[..i + 1], now), i);
      StartKeeps(c, s, s.queue[..i + 1], now, i);
    } else {
      var i: nat :| FirstLive(s, now, i) && t == Start(s, Aged(s.jobs, s.queue, now), i);
      StartKeeps(c, s, s.queue, now, i);
    }
  }

  lemma DequeueKeeps(c: Config, s: State, now: Time, t: State)
    requires Inv(c, s) && s.worker.Draining? && Dequeued(s, now, t)
    ensures Inv(c, t)
  {
    if Drains(s, now, t) {
      DrainKeeps(c, s, now);
    } else {
      ServeKeeps(c, s, now, t);
    }
  }

  /** Bytes are only ever published for an identity that has none. */
  lemma StoreKeepsCache(c: Config, m: Cache, now: Time, id: Id, size: nat, digest: nat)
    requires CacheInv(c, m) && id !in m.artifacts
    requires Stored(m, now, id, size, digest).bytes <= c.cacheBytes
    requires |Stored(m, now, id, size, digest).artifacts| <= c.cacheCount
    ensures CacheInv(c, Stored(m, now, id, size, digest))
  {
    StoredBytes(m, now, id, size, digest);
    assert LeasesOf(m.leases, id) == {};
  }

  lemma StoredBytes(m: Cache, now: Time, id: Id, size: nat, digest: nat)
    requires id !in m.artifacts && m.bytes == Total(Sizes(m.artifacts))
    ensures Stored(m, now, id, size, digest).bytes == Total(Sizes(Stored(m, now, id, size, digest).artifacts))
  {
    assert Sizes(Stored(m, now, id, size, digest).artifacts) == Sizes(m.artifacts)[id := size];
    TotalInsert(Sizes(m.artifacts), id, size);
  }

  /** After the worker let go of its job no job is running. */
  lemma ReleaseKeeps(c: Config, s: State, t: State, id: Id)
    requires Inv(c, s) && s.worker.Rendering? && s.worker.id == id
    requires Weaker(s.jobs, t.jobs) && t.queue == s.queue && t.nextSerial == s.nextSerial && t.wake == s.wake
    requires t.worker.Draining? || t.worker.Stopped?
    requires id in t.jobs ==> !StillRunning(t, id, s.worker.serial)
    requires CacheInv(c, t.cache) && t.cache.artifacts.Keys <= s.cache.artifacts.Keys + {id}
    requires ActiveId(t.jobs, id) ==> id !in t.cache.artifacts
    ensures Inv(c, t)
  {
    WeakerLoad(c, s.jobs, t.jobs);
    assert Listed(t.jobs, t.queue);
    ReleaseWorker(s, t, id);
  }

  lemma ReleaseWorker(s: State, t: State, id: Id)
    requires WorkerInv(s.jobs, s.nextSerial, s.worker, s.wake) && s.worker.Rendering? && s.worker.id == id
    requires Weaker(s.jobs, t.jobs) && t.nextSerial == s.nextSerial
    requires t.worker.Draining? || t.worker.Stopped?
    requires id in t.jobs ==> !StillRunning(t, id, s.worker.serial)
    ensures WorkerInv(t.jobs, t.nextSerial, t.worker, t.wake)
  {
  }

  lemma SettledWeaker(jobs: map<Id, Job>, now: Time, id: Id, state: JobState)
    requires ActiveId(jobs, id) && !state.Queued? && !state.Running?
    ensures Weaker(jobs, Settle(jobs, id, state)) && Weaker(jobs, Settle(FreshJobs(jobs, now), id, state))
    ensures !ActiveId(Settle(jobs, id, state), id) && !ActiveId(Settle(FreshJobs(jobs, now), id, state), id)
  {
  }

  lemma FinishKeeps(c: Config, s: State, now: Time, failed: bool, late: bool, ended: bool, size: nat, digest: nat, t: State)
    requires Inv(c, s) && Finished(c, s, now, failed, late, ended, size, digest, t)
    ensures Inv(c, t)
  {
    hide Published, CacheInv, LoadInv, Listed;
    var id := s.worker.id;
    if !StillRunning(s, id, s.worker.serial) {
      ReleaseKeeps(c, s, t, id);
    } else if failed || late || s.closed {
      SettledWeaker(s.jobs, now, id, if failed || s.closed || ended then Failed else Ready);
      ReleaseKeeps(c, s, t, id);
    } else {
      var ok: bool :| Published(c, s.cache, now, id, size, digest, ok, t.cache)
        && t == s.(jobs := Settle(FreshJobs(s.jobs, now), id, if ok && !ended then Ready else Failed), cache := t.cache,
                   worker := if ended then Stopped else Draining, closed := ended);
      SettledWeaker(s.jobs, now, id, if ok && !ended then Ready else Failed);
      PublishKeeps(c, s.cache, now, id, size, digest, ok, t.cache);
      ReleaseKeeps(c, s, t, id);
    }
  }

  /** Main result: exactly when a job still running is settled as ready although no image of it is
      there: its deadline passed between the reading of the error and the worker's own cancellation,
      and nothing failed or shut down. */
  lemma ReadyWithoutImage(
    c: Config, s: State, now: Time, failed: bool, late: bool, ended: bool, size: nat, digest: nat, t: State)
    requires Inv(c, s) && Finished(c, s, now, failed, late, ended, size, digest, t)
    requires StillRunning(s, s.worker.id, s.worker.serial)
    ensures s.worker.id in t.jobs
    ensures t.jobs[s.worker.id].state == Ready && s.worker.id !in t.cache.artifacts
      <==> late && !failed && !s.closed && !ended
  {
    var id := s.worker.id;
    assert id !in s.cache.artifacts;
    if !failed && !late && !s.closed {
      var ok: bool :| Published(c, s.cache, now, id, size, digest, ok, t.cache)
        && t == s.(jobs := Settle(FreshJobs(s.jobs, now), id, if ok && !ended then Ready else Failed), cache := t.cache,
                   worker := if ended then Stopped else Draining, closed := ended);
      if ok { assert id in t.cache.artifacts; }
    }
  }

  lemma PublishKeeps(c: Config, s: Cache, now: Time, id: Id, size: nat, digest: nat, ok: bool, t: Cache)
    requires CacheInv(c, s) && id !in s.artifacts && Published(c, s, now, id, size, digest, ok, t)
    ensures CacheInv(c, t) && t.artifacts.Keys <= s.artifacts.Keys + {id}
  {
    var m: Cache :| CacheShrinks(s, m)
      && if ok then t == Stored(m, now, id, size, digest) && t.bytes <= c.cacheBytes && |t.artifacts| <= c.cacheCount
         else t == m;
    ShrinkKeepsCache(c, s, m);
    if ok { StoreKeepsCache(c, m, now, id, size, digest); }
  }

  /** Main result: one step of any kind keeps the whole invariant. */
  lemma StepKeeps(c: Config, s: State, now: Time, e: Event, t: State)
    requires Inv(c, s) && Step(c, s, now, e, t)
    ensures Inv(c, t)
  {
    hide Admitted, Dequeued, Finished, Pruned, CanOpen, Open, Close, CacheInv, LoadInv;
    match e
    case AdmitE(owner, ids) =>
      var ok :| Admitted(c, s, now, owner, ids, ok, t);
      AdmitKeeps(c, s, now, owner, ids, ok, t);
    case CancelE(owner, id) => WeakerKeeps(c, s, t);
    case OpenE(id) => OpenKeeps(c, s.cache, now, id);
    case CloseE(lease) => CloseKeeps(c, s.cache, lease);
    case MaintainE => PruneKeeps(c, s, now, t);
    case DequeueE => DequeueKeeps(c, s, now, t);
    case FinishE(failed, late, ended, size, digest) => FinishKeeps(c, s, now, failed, late, ended, size, digest, t);
    case _ =>
  }
}
