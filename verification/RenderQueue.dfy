/**
 The in-process render manager (internal/renderjob/manager.go) as a transition system: what each
 section under its mutex does to jobs, queue, cache, leases, worker and the one-slot wake channel.
 */
module RenderQueue {
  import opened Basics

  type Id = nat
  type Owner = nat
  type Time = int

  datatype JobState = Queued | Running | Ready | Failed | Cancelled | Expired

  /** `serial` stands for the identity of the job object behind the map entry. */
  datatype Job = Job(serial: nat, state: JobState, subscribers: set<Owner>, owner: Owner, created: Time)
  datatype Artifact = Artifact(size: nat, created: Time, digest: nat, refs: int)

  /** The single worker goroutine between its locked sections. */
  datatype Worker = Waiting | Draining | Rendering(id: Id, serial: nat) | Stopped

  datatype Config = Config(queue: nat, cacheBytes: nat, cacheCount: nat, maxAge: nat)

  /** Finished images: the index, its byte count, the files it names and the open leases. */
  datatype Cache = Cache(
    artifacts: map<Id, Artifact>, bytes: int, files: map<Id, nat>,
    leases: map<nat, Id>, nextLease: nat, open: int)

  datatype State = State(
    jobs: map<Id, Job>, queue: seq<Id>, last: Option<Owner>, nextSerial: nat,
    cache: Cache, worker: Worker, wake: bool, enabled: bool, closed: bool)

  const JobMinutes: Time := 1800
  const QueueAge: Time := 60
  const MaxSubscribers := 24
  const OwnerJobs := 4
  const MaxJobs := 5000
  const MaxRefs := 32
  const MaxOpen := 64

  predicate Active(j: Job) { j.state.Queued? || j.state.Running? }

  predicate ActiveId(jobs: map<Id, Job>, id: Id) { id in jobs && Active(jobs[id]) }

  predicate QueuedId(jobs: map<Id, Job>, id: Id) { id in jobs && jobs[id].state.Queued? }

  function QueuedIds(jobs: map<Id, Job>): set<Id> { set id <- jobs | jobs[id].state.Queued? }

  function OwnedIds(jobs: map<Id, Job>, owner: Owner): set<Id> {
    set id <- jobs | Active(jobs[id]) && owner in jobs[id].subscribers
  }

  function Sizes(artifacts: map<Id, Artifact>): map<Id, nat> { map id <- artifacts :: artifacts[id].size }

  function LeasesOf(leases: map<nat, Id>, id: Id): set<nat> { set l <- leases | leases[l] == id }

  // ---------------------------------------------------------------- the cache

  /** Unleased artifacts may go, together with their files; the byte count follows. */
  ghost predicate CacheShrinks(s: Cache, t: Cache) {
    && t == s.(artifacts := t.artifacts, bytes := t.bytes, files := t.files)
    && (forall id <- t.artifacts :: id in s.artifacts && t.artifacts[id] == s.artifacts[id])
    && (forall id <- s.artifacts :: id !in t.artifacts ==> s.artifacts[id].refs == 0)
    && (forall id <- t.artifacts :: id in s.files ==> id in t.files && t.files[id] == s.files[id])
    && t.bytes - Total(Sizes(t.artifacts)) == s.bytes - Total(Sizes(s.artifacts))
  }

  function FreshJobs(jobs: map<Id, Job>, now: Time): map<Id, Job> {
    map id <- jobs | Active(jobs[id]) || now - jobs[id].created <= JobMinutes :: jobs[id]
  }

  /** prune: drop stale artifacts and finished jobs, then enforce the capacity. */
  ghost predicate Pruned(s: State, now: Time, t: State) {
    t == s.(jobs := FreshJobs(s.jobs, now), cache := t.cache) && CacheShrinks(s.cache, t.cache)
  }

  /** publish, after its pruning: make room and store. On failure the cache may still have shrunk. */
  ghost predicate Published(c: Config, s: Cache, now: Time, id: Id, size: nat, digest: nat, ok: bool, t: Cache) {
    exists m: Cache :: CacheShrinks(s, m)
      && if ok then t == Stored(m, now, id, size, digest) && t.bytes <= c.cacheBytes && |t.artifacts| <= c.cacheCount
         else t == m
  }

  function Stored(m: Cache, now: Time, id: Id, size: nat, digest: nat): Cache {
    m.(files := m.files[id := size],
       bytes := m.bytes - (if id in m.artifacts then m.artifacts[id].size else 0) + size,
       artifacts := m.artifacts[id := Artifact(size, now, digest, 0)])
  }

  // ---------------------------------------------------------------- admission

  function Filtered(queue: seq<Id>, jobs: map<Id, Job>): (r: seq<Id>)
  {
    if queue == [] then []
    else if QueuedId(jobs, queue[0]) then [queue[0]] + Filtered(queue[1..], jobs)
    else Filtered(queue[1..], jobs)
  }

  /** An identity that already has work or bytes to join. */
  predicate Joinable(jobs: map<Id, Job>, made: set<Id>, id: Id) {
    id in jobs && (Active(jobs[id]) || (jobs[id].state.Ready? && id in made))
  }

  predicate Crowded(jobs: map<Id, Job>, made: set<Id>, owner: Owner, id: Id) {
    Joinable(jobs, made, id) && |jobs[id].subscribers| >= MaxSubscribers && owner !in jobs[id].subscribers
  }

  function FreshIds(jobs: map<Id, Job>, made: set<Id>, ids: seq<Id>): set<Id> {
    set id <- ids | !ActiveId(jobs, id) && id !in made
  }

  function AddedIds(jobs: map<Id, Job>, owner: Owner, ids: seq<Id>): set<Id> {
    set id <- ids | ActiveId(jobs, id) && owner !in jobs[id].subscribers
  }

  /** `made` are the identities with finished bytes. */
  predicate Busy(c: Config, jobs: map<Id, Job>, made: set<Id>, owner: Owner, ids: seq<Id>) {
    || (exists id <- ids :: Crowded(jobs, made, owner, id))
    || |QueuedIds(jobs)| + |FreshIds(jobs, made, ids)| > c.queue
    || |OwnedIds(jobs, owner)| + |FreshIds(jobs, made, ids)| + |AddedIds(jobs, owner, ids)| > OwnerJobs
    || |jobs| + |ids| > MaxJobs
  }

  /** The part of the state the registration loop works on. */
  datatype Book = Book(jobs: map<Id, Job>, queue: seq<Id>, nextSerial: nat)

  function Register(s: Book, made: set<Id>, now: Time, owner: Owner, id: Id): Book {
    if Joinable(s.jobs, made, id)
    then s.(jobs := s.jobs[id := s.jobs[id].(subscribers := s.jobs[id].subscribers + {owner})])
    else
      Book(s.jobs[id := Job(s.nextSerial, if id in made then Ready else Queued, {owner}, owner, now)],
           if id in made then s.queue else s.queue + [id],
           s.nextSerial + 1)
  }

  function RegisterAll(s: Book, made: set<Id>, now: Time, owner: Owner, ids: seq<Id>): Book
    decreases |ids|
  {
    if ids == [] then s else RegisterAll(Register(s, made, now, owner, ids[0]), made, now, owner, ids[1..])
  }

  function BookOf(s: State): Book { Book(s.jobs, s.queue, s.nextSerial) }

  /** Admit: prune and drop dead queue entries, then the whole batch or nothing. */
  ghost predicate Admitted(c: Config, s: State, now: Time, owner: Owner, ids: seq<Id>, ok: bool, t: State) {
    exists m: State :: Pruned(s, now, m) && AdmittedFrom(c, m.(queue := Filtered(m.queue, m.jobs)), now, owner, ids, ok, t)
  }

  ghost predicate AdmittedFrom(c: Config, f: State, now: Time, owner: Owner, ids: seq<Id>, ok: bool, t: State) {
    var made := f.cache.artifacts.Keys;
    && ok == (f.enabled && !f.closed && !Busy(c, f.jobs, made, owner, ids))
    && t == if !ok then f
            else
              var b := RegisterAll(BookOf(f), made, now, owner, ids);
              f.(jobs := b.jobs, queue := b.queue, nextSerial := b.nextSerial, wake := true)
  }

  // --------------------------------------------------- cancel, open and close

  function Cancel(jobs: map<Id, Job>, owner: Owner, id: Id): map<Id, Job> {
    if id !in jobs then jobs
    else
      var j := jobs[id].(subscribers := jobs[id].subscribers - {owner});
      jobs[id := if j.subscribers == {} && Active(j) then j.(state := Cancelled) else j]
  }

  predicate CanOpen(c: Config, s: Cache, now: Time, id: Id) {
    id in s.artifacts && now - s.artifacts[id].created <= c.maxAge && id in s.files
    && s.artifacts[id].refs < MaxRefs && s.open < MaxOpen
  }

  function Open(s: Cache, id: Id): Cache
    requires id in s.artifacts
  {
    var a := s.artifacts[id];
    s.(artifacts := s.artifacts[id := a.(refs := a.refs + 1)], open := s.open + 1,
       leases := s.leases[s.nextLease := id], nextLease := s.nextLease + 1)
  }

  /** Closing a lease twice releases it once. */
  function Close(s: Cache, lease: nat): Cache {
    if lease !in s.leases then s
    else
      var id := s.leases[lease];
      var a := if id in s.artifacts then s.artifacts[id] else Artifact(0, 0, 0, 0);
      s.(artifacts := s.artifacts[id := a.(refs := a.refs - 1)], open := s.open - 1, leases := s.leases - {lease})
  }

  // ---------------------------------------------------------------- the worker

  predicate Stale(j: Job, now: Time) { now - j.created > QueueAge }

  /** Jobs after the dequeue loop looked at queue[..n]: stale queued ones have expired. */
  function Aged(jobs: map<Id, Job>, seen: seq<Id>, now: Time): map<Id, Job> {
    map id <- jobs :: if id in seen && jobs[id].state.Queued? && Stale(jobs[id], now)
                      then jobs[id].(state := Expired) else jobs[id]
  }

  predicate Live(jobs: map<Id, Job>, now: Time, id: Id) { QueuedId(jobs, id) && !Stale(jobs[id], now) }

  predicate Other(jobs: map<Id, Job>, last: Option<Owner>, now: Time, id: Id) {
    Live(jobs, now, id) && Some(jobs[id].owner) != last
  }

  /** i is the first position of q that satisfies the test. */
  ghost predicate First(q: seq<Id>, test: Id -> bool, i: nat) {
    i < |q| && test(q[i]) && forall k: nat | k < i :: !test(q[k])
  }

  ghost predicate NoneOf(q: seq<Id>, test: Id -> bool) { forall k: nat | k < |q| :: !test(q[k]) }

  function Start(s: State, jobs: map<Id, Job>, i: nat): State
    requires i < |s.queue| && s.queue[i] in jobs
  {
    var id := s.queue[i];
    s.(jobs := jobs[id := jobs[id].(state := Running)],
       queue := s.queue[..i] + s.queue[i + 1..],
       last := Some(jobs[id].owner), worker := Rendering(id, jobs[id].serial))
  }

  ghost predicate FirstOther(s: State, now: Time, i: nat) {
    First(s.queue, (id: Id) => Other(s.jobs, s.last, now, id), i)
  }

  ghost predicate FirstLive(s: State, now: Time, i: nat) {
    First(s.queue, (id: Id) => Live(s.jobs, now, id), i)
  }

  /** Serve the first live entry of an owner other than the last one served. */
  ghost predicate ServesOther(s: State, now: Time, t: State) {
    exists i: nat :: FirstOther(s, now, i) && t == Start(s, Aged(s.jobs, s.queue[..i + 1], now), i)
  }

  /** Only the last owner has live entries: serve the first of them. */
  ghost predicate ServesSame(s: State, now: Time, t: State) {
    NoneOf(s.queue, (id: Id) => Other(s.jobs, s.last, now, id))
    && exists i: nat :: FirstLive(s, now, i) && t == Start(s, Aged(s.jobs, s.queue, now), i)
  }

  ghost predicate Drains(s: State, now: Time, t: State) {
    NoneOf(s.queue, (id: Id) => Live(s.jobs, now, id))
    && t == s.(jobs := Aged(s.jobs, s.queue, now), queue := [], worker := Waiting)
  }

  /** The dequeue section. Stale entries met on the way expire. */
  ghost predicate Dequeued(s: State, now: Time, t: State) {
    ServesOther(s, now, t) || ServesSame(s, now, t) || Drains(s, now, t)
  }

  function Settle(jobs: map<Id, Job>, id: Id, state: JobState): map<Id, Job>
    requires id in jobs
  {
    jobs[id := jobs[id].(state := state)]
  }

  predicate StillRunning(s: State, id: Id, serial: nat) {
    id in s.jobs && s.jobs[id].serial == serial && s.jobs[id].state.Running?
  }

  /** The section after rendering: publish and settle the job unless it was cancelled meanwhile.
      `failed` is the error known when the lock is taken, a deadline met by then included. `late`
      says that the deadline passes after that error was read and before the worker cancels its own
      context. Shutdown does not take the lock: `ended` says that it comes between the section's
      tests. */
  ghost predicate Finished(c: Config, s: State, now: Time, failed: bool, late: bool, ended: bool, size: nat, digest: nat, t: State) {
    s.worker.Rendering? &&
    var id, closed := s.worker.id, s.closed || ended;
    var next := if closed then Stopped else Draining;
    if !StillRunning(s, id, s.worker.serial) then t == s.(worker := next, closed := closed)
    else if failed || late || s.closed then
      t == s.(jobs := Settle(s.jobs, id, if failed || closed then Failed else Ready), worker := next, closed := closed)
    else
      exists ok: bool :: Published(c, s.cache, now, id, size, digest, ok, t.cache)
        && t == s.(jobs := Settle(FreshJobs(s.jobs, now), id, if ok && !closed then Ready else Failed), cache := t.cache,
                   worker := next, closed := closed)
  }

  // ---------------------------------------------------------------------- steps

  datatype Event =
    | AdmitE(owner: Owner, ids: seq<Id>)
    | CancelE(owner: Owner, id: Id)
    | OpenE(id: Id)
    | CloseE(lease: nat)
    | MaintainE
    | WakeE
    | DequeueE
    | FinishE(failed: bool, late: bool, ended: bool, size: nat, digest: nat)
    | EnableE(on: bool)
    | ShutdownE
    | StopE

  ghost predicate Step(c: Config, s: State, now: Time, e: Event, t: State) {
    match e
    case AdmitE(owner, ids) => 1 <= |ids| <= 4 && exists ok :: Admitted(c, s, now, owner, ids, ok, t)
    case CancelE(owner, id) => t == s.(jobs := Cancel(s.jobs, owner, id))
    case OpenE(id) => CanOpen(c, s.cache, now, id) && t == s.(cache := Open(s.cache, id))
    case CloseE(lease) => t == s.(cache := Close(s.cache, lease))
    case MaintainE => s.worker.Waiting? && Pruned(s, now, t)
    case WakeE => s.worker.Waiting? && s.wake && t == s.(wake := false, worker := Draining)
    case DequeueE => s.worker.Draining? && Dequeued(s, now, t)
    case FinishE(failed, late, ended, size, digest) => Finished(c, s, now, failed, late, ended, size, digest, t)
    case EnableE(on) => t == s.(enabled := on)
    case ShutdownE => t == s.(closed := true)
    case StopE => s.closed && (s.worker.Waiting? || s.worker.Draining?) && t == s.(worker := Stopped)
  }

  // ------------------------------------------------------------------ invariant

  ghost predicate CacheInv(c: Config, s: Cache) {
    && s.bytes == Total(Sizes(s.artifacts)) && s.bytes <= c.cacheBytes && |s.artifacts| <= c.cacheCount
    && (forall id <- s.artifacts :: s.artifacts[id].refs == |LeasesOf(s.leases, id)| && s.artifacts[id].refs <= MaxRefs
          && id in s.files)
    && (forall l <- s.leases :: s.leases[l] in s.artifacts && l < s.nextLease)
    && s.open == |s.leases| && s.open <= MaxOpen
  }

  /** A queued or running identity has no bytes yet. */
  ghost predicate Unmade(jobs: map<Id, Job>, made: set<Id>) {
    forall id <- jobs :: Active(jobs[id]) ==> id !in made
  }

  ghost predicate Distinct(q: seq<Id>) { forall i, k | 0 <= i < k < |q| :: q[i] != q[k] }

  /** Every queued job is in the queue exactly once. */
  ghost predicate Listed(jobs: map<Id, Job>, queue: seq<Id>) {
    Distinct(queue) && forall id <- jobs :: jobs[id].state.Queued? ==> id in queue
  }

  /** Only the job the worker holds is running, and a waiting worker with work has been woken. */
  ghost predicate WorkerInv(jobs: map<Id, Job>, nextSerial: nat, worker: Worker, wake: bool) {
    && (worker.Waiting? && QueuedIds(jobs) != {} ==> wake)
    && (forall id <- jobs :: jobs[id].serial < nextSerial)
    && (forall id <- jobs :: jobs[id].state.Running? ==> worker == Rendering(id, jobs[id].serial))
    && (worker.Rendering? ==> worker.serial < nextSerial)
  }

  ghost predicate LoadInv(c: Config, jobs: map<Id, Job>) {
    && |QueuedIds(jobs)| <= c.queue
    && (forall owner: Owner :: |OwnedIds(jobs, owner)| <= OwnerJobs)
    && (forall id <- jobs :: |jobs[id].subscribers| <= MaxSubscribers)
  }

  ghost predicate Inv(c: Config, s: State) {
    && CacheInv(c, s.cache) && Unmade(s.jobs, s.cache.artifacts.Keys)
    && Listed(s.jobs, s.queue) && WorkerInv(s.jobs, s.nextSerial, s.worker, s.wake) && LoadInv(c, s.jobs)
  }
}
