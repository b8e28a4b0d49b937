/** The render manager as it runs: each method is one section under the manager's mutex. */
module RenderManager {
  import opened Basics
  import opened RenderQueue

  lemma ShrinkSelf(s: Cache)
    ensures CacheShrinks(s, s)
  {
  }

  lemma ShrinkChain(a: Cache, b: Cache, c: Cache)
    requires CacheShrinks(a, b) && CacheShrinks(b, c)
    ensures CacheShrinks(a, c)
  {
  }

  lemma RemovedShrinks(s: Cache, id: Id)
    requires id in s.artifacts && s.artifacts[id].refs == 0
    ensures CacheShrinks(s, s.(artifacts := s.artifacts - {id}, bytes := s.bytes - s.artifacts[id].size, files := s.files - {id}))
  {
    assert Sizes(s.artifacts - {id}) == Sizes(s.artifacts) - {id};
    TotalSplit(Sizes(s.artifacts), id);
  }

  lemma RoomIsEnough(c: Config, s: Cache, room: Cache, now: Time, id: Id, size: nat, digest: nat)
    requires CacheShrinks(s, room) && id !in s.artifacts && c.cacheCount >= 1
    requires room.bytes + size <= c.cacheBytes && (|room.artifacts| < c.cacheCount || room.artifacts == map[])
    ensures Published(c, s, now, id, size, digest, true, Stored(room, now, id, size, digest))
  {
    var t := Stored(room, now, id, size, digest);
    assert t.artifacts.Keys == room.artifacts.Keys + {id};
    assert |t.artifacts| == |t.artifacts.Keys| && |room.artifacts| == |room.artifacts.Keys|;
  }

  predicate OverAge(c: Config, a: Artifact, now: Time) { a.refs == 0 && now - a.created > c.maxAge }

  /** Why nothing could be evicted: everything is leased, or the oldest file cannot be deleted. */
  ghost predicate Immovable(artifacts: map<Id, Artifact>, stuck: set<Id>) {
    || (forall id <- artifacts :: artifacts[id].refs != 0)
    || (exists id <- artifacts :: id in stuck && artifacts[id].refs == 0
          && forall x <- artifacts :: artifacts[x].refs == 0 ==> artifacts[id].created <= artifacts[x].created)
  }

  predicate Fits(c: Config, s: Cache, size: nat) { s.bytes + size <= c.cacheBytes && |s.artifacts| < c.cacheCount }

  /** Unleased artifacts that left were at least as old as every unleased one that stayed. */
  ghost predicate OldestFirst(before: map<Id, Artifact>, after: map<Id, Artifact>) {
    forall x <- before, y <- after :: x !in after && y in before && before[y].refs == 0 ==> before[x].created <= before[y].created
  }

  /** A finished image on disk at start-up. */
  datatype Found = Found(size: nat, created: Time, digest: nat)

  const MaxImage := 16 * 1024 * 1024

  function Entry(f: Found): Artifact { Artifact(f.size, f.created, f.digest, 0) }

  datatype Shelf = Shelf(artifacts: map<Id, Artifact>, bytes: int)

  /** A file too large, too old, or beyond the capacity is deleted at start-up. */
  predicate Declines(c: Config, s: Shelf, f: Found, now: Time) {
    f.size > MaxImage || now - f.created > c.maxAge || |s.artifacts| >= c.cacheCount || s.bytes + f.size > c.cacheBytes
  }

  /** The index after the first n names of the directory. */
  ghost function Shelved(c: Config, names: seq<Id>, found: map<Id, Found>, now: Time, n: nat): Shelf
    requires n <= |names| && forall id <- names :: id in found
  {
    if n == 0 then Shelf(map[], 0)
    else
      var s, f := Shelved(c, names, found, now, n - 1), found[names[n - 1]];
      if Declines(c, s, f, now) then s else Shelf(s.artifacts[names[n - 1] := Entry(f)], s.bytes + f.size)
  }

  ghost predicate Indexed(c: Config, artifacts: map<Id, Artifact>, bytes: int) {
    bytes == Total(Sizes(artifacts)) && bytes <= c.cacheBytes && |artifacts| <= c.cacheCount
  }

  lemma IndexOne(c: Config, artifacts: map<Id, Artifact>, bytes: int, id: Id, file: Found)
    requires Indexed(c, artifacts, bytes) && id !in artifacts
    requires |artifacts| < c.cacheCount && bytes + file.size <= c.cacheBytes
    ensures Indexed(c, artifacts[id := Entry(file)], bytes + file.size)
  {
    SizeInserted(artifacts, id, Entry(file));
  }

  lemma SizeInserted(artifacts: map<Id, Artifact>, id: Id, a: Artifact)
    requires id !in artifacts
    ensures Total(Sizes(artifacts[id := a])) == Total(Sizes(artifacts)) + a.size
    ensures |artifacts[id := a]| == |artifacts| + 1
  {
    var m, n := Sizes(artifacts), Sizes(artifacts[id := a]);
    assert n == m[id := a.size];
    TotalInsert(m, id, a.size);
    assert artifacts[id := a].Keys == artifacts.Keys + {id};
  }

  /** No other owner's live entry among the first n, and index is the first live one, if any. */
  ghost predicate Scanned(jobs: map<Id, Job>, last: Option<Owner>, now: Time, queue: seq<Id>, n: nat, index: int)
    requires n <= |queue|
  {
    && index < n
    && (forall k: nat | k < n :: !Other(jobs, last, now, queue[k]))
    && (index >= 0 ==> Live(jobs, now, queue[index]))
    && (forall k: nat | k < (if index < 0 then n else index) :: !Live(jobs, now, queue[k]))
  }

  class Manager {
    const cfg: Config
    var jobs: map<Id, Job>
    var queue: seq<Id>
    var last: Option<Owner>
    var nextSerial: nat
    var artifacts: map<Id, Artifact>
    var bytes: int
    var files: map<Id, nat>
    var leases: map<nat, Id>
    var nextLease: nat
    var open: int
    var worker: Worker
    var wake: bool
    var enabled: bool
    var closed: bool

    function CacheNow(): Cache
      reads this
    {
      Cache(artifacts, bytes, files, leases, nextLease, open)
    }

    function Now(): State
      reads this
    {
      State(jobs, queue, last, nextSerial, CacheNow(), worker, wake, enabled, closed)
    }

    // ------------------------------------------------------------- the cache

    /** remove: `stuck` are the files the file system refuses to delete. */
    method Remove(id: Id, stuck: set<Id>) returns (ok: bool)
      requires id in artifacts && artifacts[id].refs == 0
      modifies this`artifacts, this`bytes, this`files
      ensures ok == (id !in stuck) && CacheShrinks(old(CacheNow()), CacheNow())
      ensures artifacts == if ok then old(artifacts) - {id} else old(artifacts)
      ensures bytes <= old(bytes) && (!ok ==> CacheNow() == old(CacheNow()))
    {
      if id in stuck {
        ShrinkSelf(CacheNow());
        return false;
      }
      RemovedShrinks(CacheNow(), id);
      files := files - {id};
      bytes := bytes - artifacts[id].size;
      artifacts := artifacts - {id};
      ok := true;
    }

    /** evictOldest: the unleased artifact with the least creation time. */
    method EvictOldest(stuck: set<Id>) returns (ok: bool)
      modifies this`artifacts, this`bytes, this`files
      ensures CacheShrinks(old(CacheNow()), CacheNow()) && OldestFirst(old(artifacts), artifacts)
      ensures ok ==> |artifacts| < |old(artifacts)|
      ensures !ok ==> CacheNow() == old(CacheNow()) && Immovable(artifacts, stuck)
    {
      var key: Option<Id> := None;
      var rest := artifacts.Keys;
      while rest != {}
        invariant rest <= artifacts.Keys
        invariant key.Some? ==> key.value in artifacts && artifacts[key.value].refs == 0
        invariant key.Some? ==>
          forall x <- artifacts.Keys - rest :: artifacts[x].refs == 0 ==> artifacts[key.value].created <= artifacts[x].created
        invariant key.None? ==> forall x <- artifacts.Keys - rest :: artifacts[x].refs != 0
      {
        var id :| id in rest;
        if artifacts[id].refs == 0 && (key.None? || artifacts[id].created < artifacts[key.value].created) {
          key := Some(id);
        }
        rest := rest - {id};
      }
      if key.None? {
        ShrinkSelf(CacheNow());
        return false;
      }
      ok := Remove(key.value, stuck);
      assert ok ==> |artifacts.Keys| < |old(artifacts).Keys| by {
        if ok {
          assert artifacts.Keys == old(artifacts).Keys - {key.value};
        }
      }
    }

    /** prune: stale artifacts, finished jobs, then capacity. */
    method Prune(now: Time, stuck: set<Id>)
      modifies this`artifacts, this`bytes, this`files, this`jobs
      ensures Pruned(old(Now()), now, Now())
      ensures forall id <- artifacts :: OverAge(cfg, artifacts[id], now) ==> id in stuck
      ensures bytes > cfg.cacheBytes || |artifacts| > cfg.cacheCount ==> Immovable(artifacts, stuck)
      ensures old(bytes) <= cfg.cacheBytes && |old(artifacts)| <= cfg.cacheCount ==>
        forall id <- old(artifacts) :: id !in artifacts ==> OverAge(cfg, old(artifacts)[id], now)
    {
      ghost var start := CacheNow();
      DropStale(now, stuck);
      ghost var swept := CacheNow();
      jobs := FreshJobs(jobs, now);
      Trim(stuck);
      ShrinkChain(start, swept, CacheNow());
    }

    /** The first loop of prune: only stale unleased artifacts go, all but the stuck ones. */
    method DropStale(now: Time, stuck: set<Id>)
      modifies this`artifacts, this`bytes, this`files
      ensures CacheShrinks(old(CacheNow()), CacheNow()) && bytes <= old(bytes) && |artifacts| <= |old(artifacts)|
      ensures forall id <- artifacts :: OverAge(cfg, artifacts[id], now) ==> id in stuck
      ensures forall id <- old(artifacts) :: id !in artifacts ==> OverAge(cfg, old(artifacts)[id], now)
    {
      ghost var start := CacheNow();
      ShrinkSelf(start);
      var rest := artifacts.Keys;
      while rest != {}
        invariant rest <= artifacts.Keys && CacheShrinks(start, CacheNow())
        invariant bytes <= start.bytes && |artifacts| <= |start.artifacts|
        invariant forall id <- artifacts.Keys - rest :: OverAge(cfg, artifacts[id], now) ==> id in stuck
        invariant forall id <- start.artifacts :: id !in artifacts ==> OverAge(cfg, start.artifacts[id], now)
      {
        var id :| id in rest;
        if artifacts[id].refs == 0 && now - artifacts[id].created > cfg.maxAge {
          ghost var before := CacheNow();
          var gone := Remove(id, stuck);
          ShrinkChain(start, before, CacheNow());
        }
        rest := rest - {id};
      }
    }

    /** The last loop of prune: down to the capacity, or as far as eviction goes. */
    method Trim(stuck: set<Id>)
      modifies this`artifacts, this`bytes, this`files
      ensures CacheShrinks(old(CacheNow()), CacheNow())
      ensures bytes > cfg.cacheBytes || |artifacts| > cfg.cacheCount ==> Immovable(artifacts, stuck)
      ensures old(bytes) <= cfg.cacheBytes && |old(artifacts)| <= cfg.cacheCount ==> CacheNow() == old(CacheNow())
    {
      ghost var start := CacheNow();
      ShrinkSelf(start);
      var more := true;
      while more && (bytes > cfg.cacheBytes || |artifacts| > cfg.cacheCount)
        invariant CacheShrinks(start, CacheNow()) && (!more ==> Immovable(artifacts, stuck))
        invariant start.bytes <= cfg.cacheBytes && |start.artifacts| <= cfg.cacheCount ==> CacheNow() == start
        decreases more, |artifacts|
      {
        ghost var before := CacheNow();
        more := EvictOldest(stuck);
        ShrinkChain(start, before, CacheNow());
      }
    }

    /** The eviction loop of publish: oldest first, until the new image fits. */
    method MakeRoom(size: nat, stuck: set<Id>) returns (ok: bool)
      modifies this`artifacts, this`bytes, this`files
      ensures CacheShrinks(old(CacheNow()), CacheNow()) && OldestFirst(old(artifacts), artifacts)
      ensures ok ==> bytes + size <= cfg.cacheBytes && (|artifacts| < cfg.cacheCount || artifacts == map[])
      ensures !ok ==> !Fits(cfg, CacheNow(), size) && (artifacts == map[] || Immovable(artifacts, stuck))
      ensures Fits(cfg, old(CacheNow()), size) ==> CacheNow() == old(CacheNow())
    {
      ghost var start := CacheNow();
      ShrinkSelf(start);
      while (bytes + size > cfg.cacheBytes || |artifacts| >= cfg.cacheCount) && |artifacts| > 0
        invariant CacheShrinks(start, CacheNow()) && OldestFirst(start.artifacts, artifacts)
        invariant Fits(cfg, start, size) ==> CacheNow() == start
        decreases |artifacts|
      {
        ghost var before := CacheNow();
        ok := EvictOldest(stuck);
        ShrinkChain(start, before, CacheNow());
        if !ok { return; }
      }
      ok := bytes + size <= cfg.cacheBytes;
    }

    /** The last lines of publish: name the file and account for it. */
    method Put(now: Time, id: Id, size: nat, digest: nat)
      modifies this`artifacts, this`bytes, this`files
      ensures CacheNow() == Stored(old(CacheNow()), now, id, size, digest)
    {
      files := files[id := size];
      if id in artifacts { bytes := bytes - artifacts[id].size; }
      artifacts := artifacts[id := Artifact(size, now, digest, 0)];
      bytes := bytes + size;
    }

    /** publish after its pruning; `disk` tells whether the file system takes the file. */
    method Store(now: Time, id: Id, size: nat, digest: nat, space: bool, disk: bool, stuck: set<Id>) returns (ok: bool)
      requires cfg.cacheCount >= 1
      modifies this`artifacts, this`bytes, this`files
      ensures id !in old(artifacts) ==> Published(cfg, old(CacheNow()), now, id, size, digest, ok, CacheNow())
      ensures ok ==> id in artifacts && artifacts[id] == Artifact(size, now, digest, 0)
      ensures !ok ==> Refused(CacheNow(), size, space, disk, stuck)
    {
      ghost var start := CacheNow();
      ShrinkSelf(start);
      if !space { return false; }
      ok := MakeRoom(size, stuck);
      if !ok || !disk { return false; }
      ghost var room := CacheNow();
      Put(now, id, size, digest);
      if id !in start.artifacts {
        RoomIsEnough(cfg, start, room, now, id, size, digest);
      }
    }

    // ------------------------------------------------------------- admission

    /** The in-place filter of the queue. */
    method FilterQueue()
      modifies this`queue
      ensures queue == Filtered(old(queue), jobs)
    {
      var filtered := [];
      for i := 0 to |queue|
        invariant filtered + Filtered(queue[i..], jobs) == Filtered(queue, jobs)
      {
        assert queue[i..][0] == queue[i] && queue[i..][1..] == queue[i + 1..];
        if QueuedId(jobs, queue[i]) { filtered := filtered + [queue[i]]; }
      }
      queue := filtered;
    }

    /** The first loop over the batch: what would be new and what would be joined. */
    method Survey(owner: Owner, ids: seq<Id>) returns (busy: bool, fresh_: set<Id>, added: set<Id>)
      ensures busy == exists id <- ids :: Crowded(jobs, artifacts.Keys, owner, id)
      ensures !busy ==> fresh_ == FreshIds(jobs, artifacts.Keys, ids) && added == AddedIds(jobs, owner, ids)
    {
      fresh_, added := {}, {};
      for i := 0 to |ids|
        invariant fresh_ == FreshIds(jobs, artifacts.Keys, ids[..i]) && added == AddedIds(jobs, owner, ids[..i])
        invariant forall id <- ids[..i] :: !Crowded(jobs, artifacts.Keys, owner, id)
      {
        var id := ids[i];
        assert ids[..i + 1] == ids[..i] + [id];
        if id in jobs && jobs[id].state.Ready? {
          if id in artifacts && |jobs[id].subscribers| >= MaxSubscribers && owner !in jobs[id].subscribers {
            assert id in ids && Crowded(jobs, artifacts.Keys, owner, id);
            return true, fresh_, added;
          }
        }
        if ActiveId(jobs, id) {
          if owner !in jobs[id].subscribers { added := added + {id}; }
          if |jobs[id].subscribers| >= MaxSubscribers && owner !in jobs[id].subscribers {
            assert id in ids && Crowded(jobs, artifacts.Keys, owner, id);
            return true, fresh_, added;
          }
        } else if id !in artifacts {
          fresh_ := fresh_ + {id};
        }
      }
      assert ids[..|ids|] == ids;
      busy := false;
    }

    method CountJobs(owner: Owner) returns (queued: nat, owned: nat)
      ensures queued == |QueuedIds(jobs)| && owned == |OwnedIds(jobs, owner)|
    {
      ghost var queuedIds, ownedIds := {}, {};
      queued, owned := 0, 0;
      var rest := jobs.Keys;
      while rest != {}
        invariant rest <= jobs.Keys
        invariant queuedIds == QueuedIds(jobs) - rest && ownedIds == OwnedIds(jobs, owner) - rest
        invariant queued == |queuedIds| && owned == |ownedIds|
      {
        var id :| id in rest;
        rest := rest - {id};
        if Active(jobs[id]) {
          if jobs[id].state.Queued? {
            queued := queued + 1;
            queuedIds := queuedIds + {id};
          }
          if owner in jobs[id].subscribers {
            owned := owned + 1;
            ownedIds := ownedIds + {id};
          }
        }
      }
    }

    /** One round of the second loop. Its own busy check can never fire. */
    method RegisterOne(now: Time, owner: Owner, id: Id)
      requires !Crowded(jobs, artifacts.Keys, owner, id)
      modifies this`jobs, this`queue, this`nextSerial
      ensures Book(jobs, queue, nextSerial) == Register(old(Book(jobs, queue, nextSerial)), artifacts.Keys, now, owner, id)
    {
      if id in jobs && (Active(jobs[id]) || jobs[id].state.Ready?) {
        if !jobs[id].state.Ready? || id in artifacts {
          if |jobs[id].subscribers| >= MaxSubscribers && owner !in jobs[id].subscribers {
            assert false;
          }
          jobs := jobs[id := jobs[id].(subscribers := jobs[id].subscribers + {owner})];
          return;
        }
      }
      var state := if id in artifacts then Ready else Queued;
      jobs := jobs[id := Job(nextSerial, state, {owner}, owner, now)];
      nextSerial := nextSerial + 1;
      if state == Queued { queue := queue + [id]; }
    }

    method RegisterBatch(now: Time, owner: Owner, ids: seq<Id>)
      requires forall id <- ids :: !Crowded(jobs, artifacts.Keys, owner, id)
      modifies this`jobs, this`queue, this`nextSerial
      ensures Book(jobs, queue, nextSerial) == RegisterAll(old(Book(jobs, queue, nextSerial)), artifacts.Keys, now, owner, ids)
    {
      for i := 0 to |ids|
        invariant RegisterAll(Book(jobs, queue, nextSerial), artifacts.Keys, now, owner, ids[i..])
               == RegisterAll(old(Book(jobs, queue, nextSerial)), artifacts.Keys, now, owner, ids)
        invariant forall id <- ids :: !Crowded(jobs, artifacts.Keys, owner, id)
      {
        assert ids[i..][0] == ids[i] && ids[i..][1..] == ids[i + 1..];
        ghost var before := jobs;
        RegisterOne(now, owner, ids[i]);
        forall id <- ids ensures !Crowded(jobs, artifacts.Keys, owner, id) {
          if id != ids[i] {
            assert (id in jobs) == (id in before);
            assert id in jobs ==> jobs[id] == before[id];
            assert !Crowded(before, artifacts.Keys, owner, id);
          }
        }
      }
    }

    /** Admit after pruning: the whole batch or nothing. */
    method Reserve(now: Time, owner: Owner, ids: seq<Id>) returns (ok: bool)
      modifies this`jobs, this`queue, this`nextSerial, this`wake
      ensures AdmittedFrom(cfg, old(Now()), now, owner, ids, ok, Now())
    {
      if !enabled || closed { return false; }
      var queued, owned := CountJobs(owner);
      var busy, fresh_, added := Survey(owner, ids);
      if busy || queued + |fresh_| > cfg.queue || owned + |fresh_| + |added| > OwnerJobs || |jobs| + |ids| > MaxJobs {
        return false;
      }
      RegisterBatch(now, owner, ids);
      wake := true;
      ok := true;
    }

    /** Admit, from the lock on. */
    method Admit(now: Time, owner: Owner, ids: seq<Id>, stuck: set<Id>) returns (ok: bool)
      modifies this
      ensures ok ==> 1 <= |ids| <= 4
      ensures if 1 <= |ids| <= 4 then Admitted(cfg, old(Now()), now, owner, ids, ok, Now()) else Now() == old(Now())
    {
      if |ids| < 1 || |ids| > 4 { return false; }
      Prune(now, stuck);
      ghost var pruned := Now();
      FilterQueue();
      assert Now() == pruned.(queue := Filtered(pruned.queue, pruned.jobs));
      ok := Reserve(now, owner, ids);
    }

    // ----------------------------------------------- cancel, open and close

    method CancelFor(owner: Owner, id: Id)
      modifies this`jobs
      ensures jobs == Cancel(old(jobs), owner, id)
    {
      if id !in jobs { return; }
      jobs := jobs[id := jobs[id].(subscribers := jobs[id].subscribers - {owner})];
      if |jobs[id].subscribers| == 0 && Active(jobs[id]) {
        jobs := jobs[id := jobs[id].(state := Cancelled)];
      }
    }

    method OpenLease(now: Time, id: Id) returns (lease: Option<nat>)
      modifies this`artifacts, this`open, this`leases, this`nextLease
      ensures lease.Some? == CanOpen(cfg, old(CacheNow()), now, id)
      ensures CacheNow() == if lease.Some? then Open(old(CacheNow()), id) else old(CacheNow())
      ensures lease.Some? ==> lease.value == old(nextLease)
    {
      if id !in artifacts || now - artifacts[id].created > cfg.maxAge { return None; }
      if id !in files { return None; }
      var a := artifacts[id];
      if a.refs >= MaxRefs || open >= MaxOpen { return None; }
      artifacts := artifacts[id := a.(refs := a.refs + 1)];
      open := open + 1;
      leases := leases[nextLease := id];
      lease := Some(nextLease);
      nextLease := nextLease + 1;
    }

    method CloseLease(lease: nat)
      modifies this`artifacts, this`open, this`leases
      ensures CacheNow() == Close(old(CacheNow()), lease)
    {
      if lease !in leases { return; }
      var id := leases[lease];
      var v := if id in artifacts then artifacts[id] else Artifact(0, 0, 0, 0);
      open := open - 1;
      artifacts := artifacts[id := v.(refs := v.refs - 1)];
      leases := leases - {lease};
    }

    // ------------------------------------------------------------ the worker

    /** The scan of the dequeue section: the position to serve and the stale entries met. */
    method Scan(now: Time) returns (index: int, seen: nat)
      modifies this`jobs
      ensures seen <= |queue| && jobs == Aged(old(jobs), queue[..seen], now)
      ensures -1 <= index < |queue|
      ensures index >= 0 ==> queue[index] in jobs
      ensures index >= 0 ==>
        || (FirstOther(old(Now()), now, index) && seen == index + 1)
        || (NoneOther(old(Now()), now) && FirstLive(old(Now()), now, index) && seen == |queue|)
      ensures index < 0 ==> NoneOf(queue, (id: Id) => Live(old(jobs), now, id)) && seen == |queue|
    {
      hide Aged;
      index := -1;
      seen := 0;
      ghost var start := jobs;
      AgedNone(start, now);
      while seen < |queue|
        invariant seen <= |queue| && -1 <= index < seen
        invariant jobs == Aged(start, queue[..seen], now)
        invariant Scanned(start, last, now, queue, seen, index)
      {
        var id := queue[seen];
        assert queue[..seen + 1] == queue[..seen] + [id];
        AgedOne(start, queue[..seen], id, now);
        seen := seen + 1;
        if QueuedId(jobs, id) {
          if now - jobs[id].created > QueueAge {
            jobs := jobs[id := jobs[id].(state := Expired)];
          } else if index < 0 || Some(jobs[id].owner) != last {
            index := seen - 1;
            if Some(jobs[id].owner) != last { return; }
          }
        }
      }
      assert queue[..|queue|] == queue;
    }

    ghost predicate NoneOther(s: State, now: Time) {
      NoneOf(s.queue, (id: Id) => Other(s.jobs, s.last, now, id))
    }

    method Dequeue(now: Time)
      requires worker.Draining?
      modifies this`jobs, this`queue, this`last, this`worker
      ensures Dequeued(old(Now()), now, Now())
    {
      hide Aged, Live;
      ghost var start := Now();
      var index, seen := Scan(now);
      assert queue[..|queue|] == queue;
      if index < 0 {
        queue := [];
        worker := Waiting;
        assert Drains(start, now, Now());
        return;
      }
      ghost var aged := jobs;
      var id := queue[index];
      queue := queue[..index] + queue[index + 1..];
      last := Some(jobs[id].owner);
      jobs := jobs[id := jobs[id].(state := Running)];
      worker := Rendering(id, jobs[id].serial);
      assert Now() == Start(start, aged, index);
    }

    /** publish: prune, then store. */
    method Publish(now: Time, id: Id, size: nat, digest: nat, space: bool, disk: bool, stuck: set<Id>) returns (ok: bool)
      requires cfg.cacheCount >= 1 && id !in artifacts
      modifies this`artifacts, this`bytes, this`files, this`jobs
      ensures jobs == FreshJobs(old(jobs), now)
      ensures Published(cfg, old(CacheNow()), now, id, size, digest, ok, CacheNow())
      ensures ok ==> id in artifacts && artifacts[id] == Artifact(size, now, digest, 0)
      ensures !ok ==> id !in artifacts && Refused(CacheNow(), size, space, disk, stuck)
    {
      ghost var start := CacheNow();
      Prune(now, stuck);
      ghost var pruned := CacheNow();
      ok := Store(now, id, size, digest, space, disk, stuck);
      PublishedAfterPrune(cfg, start, pruned, now, id, size, digest, ok, CacheNow());
    }

    /** Why an image was not stored: no space, no file, or nothing left to evict for it. */
    ghost predicate Refused(s: Cache, size: nat, space: bool, disk: bool, stuck: set<Id>) {
      !space || !disk || (!Fits(cfg, s, size) && (s.artifacts == map[] || Immovable(s.artifacts, stuck)))
    }

    /** The section after rendering. Shutdown may come after its first test: a stored image is kept,
        but its job has failed. A deadline that passed too late to be an error leaves the job ready
        without an image. */
    method Finish(now: Time, failed: bool, late: bool, ended: bool, size: nat, digest: nat, space: bool, disk: bool, stuck: set<Id>)
      requires worker.Rendering? && cfg.cacheCount >= 1
      requires worker.id in jobs && jobs[worker.id].state.Running? ==> worker.id !in artifacts
      modifies this
      ensures Finished(cfg, old(Now()), now, failed, late, ended, size, digest, Now())
      ensures StillRunning(old(Now()), old(worker.id), old(worker.serial)) ==>
        && old(worker.id) in jobs
        && (jobs[old(worker.id)].state == Ready <==> !failed && !closed && (late || old(worker.id) in artifacts))
        && (failed || late || old(closed) ==> artifacts == old(artifacts))
        && (!failed && !late && !old(closed) ==> old(worker.id) in artifacts || Refused(CacheNow(), size, space, disk, stuck))
    {
      hide Refused, Published, FreshJobs;
      var id, serial := worker.id, worker.serial;
      var running := StillRunning(Now(), id, serial);
      var bad := failed;
      if running && !failed && !late && !closed {
        StaysFresh(jobs, now, id);
        var stored := Publish(now, id, size, digest, space, disk, stuck);
        bad := !stored;
      }
      if ended { closed := true; }
      if running { jobs := jobs[id := jobs[id].(state := if bad || closed then Failed else Ready)]; }
      worker := if closed then Stopped else Draining;
    }

    // ------------------------------------------------------------- start-up

    /** One directory entry: keep and index it, or delete the file. */
    method Index(id: Id, file: Found, now: Time) returns (kept: bool)
      requires id !in artifacts && id in files
      requires Indexed(cfg, artifacts, bytes)
      modifies this`artifacts, this`bytes, this`files
      ensures Indexed(cfg, artifacts, bytes)
      ensures kept == !Declines(cfg, Shelf(old(artifacts), old(bytes)), file, now)
      ensures artifacts == if kept then old(artifacts)[id := Entry(file)] else old(artifacts)
      ensures bytes == old(bytes) + (if kept then file.size else 0)
      ensures files == if kept then old(files) else old(files) - {id}
    {
      if file.size > MaxImage || now - file.created > cfg.maxAge || |artifacts| >= cfg.cacheCount || bytes + file.size > cfg.cacheBytes {
        files := files - {id};
        return false;
      }
      IndexOne(cfg, artifacts, bytes, id, file);
      artifacts := artifacts[id := Entry(file)];
      bytes := bytes + file.size;
      kept := true;
    }

    /** reconcile: index the files found on disk, in name order, within the capacity. */
    method Reconcile(names: seq<Id>, found: map<Id, Found>, now: Time)
      requires Distinct(names) && forall id <- names :: id in found && id in files
      requires artifacts == map[] && bytes == 0 && leases == map[] && open == 0
      modifies this`artifacts, this`bytes, this`files
      ensures CacheInv(cfg, CacheNow())
      ensures Shelf(artifacts, bytes) == Shelved(cfg, names, found, now, |names|)
      ensures forall id <- artifacts :: id in found && artifacts[id] == Entry(found[id])
      ensures forall id <- names :: id in files <==> id in artifacts
    {
      WalkDirectory(names, found, now);
      hide Shelved, Indexed;
      NoLeases(cfg, CacheNow());
    }

    method WalkDirectory(names: seq<Id>, found: map<Id, Found>, now: Time)
      requires Distinct(names) && forall id <- names :: id in found && id in files
      requires artifacts == map[] && bytes == 0
      modifies this`artifacts, this`bytes, this`files
      ensures Indexed(cfg, artifacts, bytes) && Swept(names, |names|, found, artifacts, files)
      ensures Shelf(artifacts, bytes) == Shelved(cfg, names, found, now, |names|)
    {
      NoneSwept(cfg, names, found, files);
      hide Declines, Distinct, Swept, Indexed;
      for i := 0 to |names|
        invariant Indexed(cfg, artifacts, bytes)
        invariant Swept(names, i, found, artifacts, files) && Shelf(artifacts, bytes) == Shelved(cfg, names, found, now, i)
      {
        NextName(names, i, found, artifacts, files);
        ghost var before, filesBefore := artifacts, files;
        var kept := Index(names[i], found[names[i]], now);
        SweepOne(names, i, found, before, filesBefore, artifacts, files, kept);
      }
    }
  }

  /** State of the directory walk after the first n names. */
  ghost predicate Swept(names: seq<Id>, n: nat, found: map<Id, Found>, artifacts: map<Id, Artifact>, files: map<Id, nat>)
    requires n <= |names|
  {
    && (forall id <- artifacts :: id in names && id in found && artifacts[id] == Entry(found[id]))
    && (forall k: nat | k < n :: names[k] in files <==> names[k] in artifacts)
    && (forall k: nat | n <= k < |names| :: names[k] in files && names[k] !in artifacts)
  }

  lemma NoneSwept(c: Config, names: seq<Id>, found: map<Id, Found>, files: map<Id, nat>)
    requires Distinct(names) && forall id <- names :: id in found && id in files
    ensures Swept(names, 0, found, map[], files) && Indexed(c, map[], 0)
  {
  }

  lemma NextName(names: seq<Id>, n: nat, found: map<Id, Found>, artifacts: map<Id, Artifact>, files: map<Id, nat>)
    requires n < |names| && Swept(names, n, found, artifacts, files)
    ensures names[n] in files && names[n] !in artifacts
  {
  }

  lemma SweepOne(names: seq<Id>, n: nat, found: map<Id, Found>, a: map<Id, Artifact>, f: map<Id, nat>,
      b: map<Id, Artifact>, g: map<Id, nat>, kept: bool)
    requires n < |names| && Distinct(names) && names[n] in found && Swept(names, n, found, a, f)
    requires b == if kept then a[names[n] := Entry(found[names[n]])] else a
    requires g == if kept then f else f - {names[n]}
    ensures Swept(names, n + 1, found, b, g)
  {
  }

  lemma NoLeases(c: Config, s: Cache)
    requires Indexed(c, s.artifacts, s.bytes) && s.leases == map[] && s.open == 0
    requires forall id <- s.artifacts :: id in s.files && s.artifacts[id].refs == 0
    ensures CacheInv(c, s)
  {
    assert forall id <- s.artifacts :: LeasesOf(s.leases, id) == {};
  }

  lemma AgedNone(jobs: map<Id, Job>, now: Time)
    ensures Aged(jobs, [], now) == jobs
    ensures forall seen: seq<Id> :: Aged(jobs, seen, now).Keys == jobs.Keys
  {
  }

  lemma StaysFresh(jobs: map<Id, Job>, now: Time, id: Id)
    requires id in jobs && Active(jobs[id])
    ensures id in FreshJobs(jobs, now) && FreshJobs(jobs, now)[id] == jobs[id]
  {
  }

  lemma AgedOne(jobs: map<Id, Job>, seen: seq<Id>, id: Id, now: Time)
    ensures var aged := Aged(jobs, seen, now);
      Aged(jobs, seen + [id], now) ==
        if QueuedId(aged, id) && Stale(aged[id], now) then aged[id := aged[id].(state := Expired)] else aged
    ensures QueuedId(Aged(jobs, seen, now), id) && !Stale(Aged(jobs, seen, now)[id], now) <==> Live(jobs, now, id)
    ensures id in jobs ==> Aged(jobs, seen, now)[id].owner == jobs[id].owner
  {
  }

  lemma PublishedAfterPrune(c: Config, s: Cache, m: Cache, now: Time, id: Id, size: nat, digest: nat, ok: bool, t: Cache)
    requires CacheShrinks(s, m) && Published(c, m, now, id, size, digest, ok, t)
    ensures Published(c, s, now, id, size, digest, ok, t)
    ensures !ok && id !in s.artifacts ==> id !in t.artifacts
  {
    var r: Cache :| CacheShrinks(m, r)
      && if ok then t == Stored(r, now, id, size, digest) && t.bytes <= c.cacheBytes && |t.artifacts| <= c.cacheCount
         else t == r;
    ShrinkChain(s, m, r);
  }
}
