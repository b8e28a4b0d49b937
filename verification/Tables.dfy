/**
 The durable tables of the studio (schema.sql) and what each committed transaction does to them.

 Every function below is one transaction: it gives the tables after a commit, or None when the
 transaction aborts. Generations and River job numbers are drawn from counters, so that
 "fresh" means "not drawn before". Times are whole seconds.
 */
module Tables {
  import opened Basics

  type Time = int
  type Build = nat
  type JobId = nat
  type Generation = nat
  type WorkspaceId = nat
  type SampleId = nat

  datatype Tier = Preview | Download

  /** A rendition identity: a digest of recipe, tier and build, so the build is part of it. */
  datatype RequestId = RequestId(recipe: nat, tier: Tier, build: Build)

  /** Bucket keys are "request/generation.png". */
  datatype Key = Key(request: RequestId, generation: Generation)

  /** Complete PNG bytes: their digest (taken to be injective) and their length. */
  datatype Image = Image(digest: nat, size: nat)

  datatype Control = Control(enabled: bool, build: Build, epoch: nat)

  datatype Sample = Sample(id: SampleId, job: Option<RequestId>, download: Option<RequestId>, favourite: bool)
  datatype Workspace = Workspace(expires: Time, samples: set<Sample>, size: nat)

  datatype Outcome = WasQueued | WasRunning | WasReady | WasFailed | WasExpired | WasCancelled
  datatype Request = Request(
    job: Option<JobId>, generation: Generation, epoch: nat,
    outcome: Outcome, created: Time, firstStarted: Option<Time>)

  datatype Artifact = Artifact(key: Key, digest: nat, size: nat, expires: Time)

  datatype UploadState = Pending | Published | Deleting
  datatype Upload = Upload(
    request: RequestId, generation: Generation, size: nat, state: UploadState,
    created: Time, deleteAfter: Option<Time>, deletedAt: Option<Time>)

  datatype JobState = Available | Running | Retryable | Scheduled | JobPending | Completed | JobCancelled | Discarded
  datatype Job = Job(request: RequestId, state: JobState, attempt: nat)

  datatype Db = Db(
    control: Control,
    workspaces: map<WorkspaceId, Workspace>,
    requests: map<RequestId, Request>,
    interests: set<(WorkspaceId, RequestId)>,
    pins: map<(WorkspaceId, SampleId), RequestId>,
    artifacts: map<RequestId, Artifact>,
    uploads: map<Key, Upload>,
    jobs: map<JobId, Job>,
    nextJob: JobId,
    nextGeneration: Generation)

  /** The limits of the running release (limits.Policy) and its build. */
  datatype Policy = Policy(build: Build, outstanding: nat, visitorJobs: nat, queueAge: nat)

  const Hour: Time := 3600
  const Day: Time := 86400
  const MaxSubscribers: nat := 24
  const MaxImage: nat := 16777216
  const UploadBytes: nat := 0x8000_0000
  const UploadRows: nat := 5000
  const WorkspaceBytes: nat := 67108864
  const AggregateBytes: nat := 2097152
  const WorkspaceRows: nat := 1000

  predicate Active(s: JobState) { s !in {Completed, JobCancelled, Discarded} }

  // ---------------------------------------------------------------- queries

  predicate LiveWorkspace(db: Db, now: Time, w: WorkspaceId) {
    w in db.workspaces && db.workspaces[w].expires > now
  }

  predicate HasLiveInterest(db: Db, now: Time, r: RequestId) {
    exists i <- db.interests :: i.1 == r && LiveWorkspace(db, now, i.0)
  }

  predicate HasLivePin(db: Db, now: Time, r: RequestId) {
    exists p <- db.pins :: db.pins[p] == r && LiveWorkspace(db, now, p.0)
  }

  predicate Ready(db: Db, now: Time, r: RequestId) {
    r in db.artifacts && (db.artifacts[r].expires > now || HasLivePin(db, now, r))
  }

  predicate ActiveJob(db: Db, j: JobId) { j in db.jobs && Active(db.jobs[j].state) }

  predicate ActiveRequest(db: Db, r: RequestId) {
    r in db.requests && db.requests[r].job.Some? && ActiveJob(db, db.requests[r].job.value)
  }

  function ActiveJobs(jobs: map<JobId, Job>): set<JobId> { set j <- jobs | Active(jobs[j].state) }

  function Subscribers(interests: set<(WorkspaceId, RequestId)>, r: RequestId): set<WorkspaceId> {
    set i <- interests | i.1 == r :: i.0
  }

  function Others(db: Db, w: WorkspaceId, r: RequestId): set<WorkspaceId> { Subscribers(db.interests, r) - {w} }

  /** The unfinished renditions, other than r, that w subscribes to. */
  function Owned(db: Db, w: WorkspaceId, r: RequestId): set<RequestId> {
    set i <- db.interests | i.0 == w && i.1 != r && ActiveRequest(db, i.1) :: i.1
  }

  /** Sizes of the uploads that still count against storage: not yet confirmed deleted. */
  function Accounted(uploads: map<Key, Upload>): map<Key, nat> {
    map k <- uploads | uploads[k].deletedAt.None? :: uploads[k].size
  }

  function Sizes(ws: map<WorkspaceId, Workspace>): map<WorkspaceId, nat> { map w <- ws :: ws[w].size }

  // ---------------------------------------------------------------- queue.go

  /** QueueTx.Admit for one rendition: coalesce with live work or insert a job, then subscribe. */
  function AdmitOne(db: Db, p: Policy, now: Time, w: WorkspaceId, r: RequestId): Option<Db> {
    if !db.control.enabled || db.control.build != p.build || r.build != p.build then None
    else if |Others(db, w, r)| >= MaxSubscribers then None
    else if !Ready(db, now, r) && |Owned(db, w, r)| >= p.visitorJobs then None
    else if Ready(db, now, r) || ActiveRequest(db, r) then Some(Subscribe(db, w, r))
    else if |ActiveJobs(db.jobs)| >= p.outstanding then None
    else Some(Subscribe(Enqueue(db, now, r), w, r))
  }

  function Subscribe(db: Db, w: WorkspaceId, r: RequestId): Db {
    db.(interests := db.interests + {(w, r)})
  }

  /** A new River job and a request row carrying it, a fresh generation and the current epoch. */
  function Enqueue(db: Db, now: Time, r: RequestId): Db {
    db.(jobs := db.jobs[db.nextJob := Job(r, Available, 0)],
        requests := db.requests[r := Request(Some(db.nextJob), db.nextGeneration, db.control.epoch, WasQueued, now, None)],
        nextJob := db.nextJob + 1,
        nextGeneration := db.nextGeneration + 1)
  }

  /** QueueTx.Cancel: drop one interest; when none is left, rotate the generation and cancel the job. */
  function CancelOne(db: Db, w: WorkspaceId, r: RequestId): Db {
    var last := LeavesNone(db, w, r);
    db.(interests := db.interests - {(w, r)},
        requests := if last then db.requests[r := Fenced(db.requests[r], db.nextGeneration)] else db.requests,
        nextGeneration := if last then db.nextGeneration + 1 else db.nextGeneration,
        jobs := if last && db.requests[r].job.Some? then CancelJob(db.jobs, db.requests[r].job.value) else db.jobs)
  }

  /** Without w nobody is interested in the known request r. */
  predicate LeavesNone(db: Db, w: WorkspaceId, r: RequestId) {
    r in db.requests && Others(db, w, r) == {}
  }

  function Fenced(q: Request, g: Generation): Request {
    q.(generation := g, outcome := if q.outcome.WasQueued? || q.outcome.WasRunning? then WasCancelled else q.outcome)
  }

  function CancelJob(jobs: map<JobId, Job>, j: JobId): map<JobId, Job> {
    if j in jobs then jobs[j := RequestCancel(jobs[j])] else jobs
  }

  /** River's JobCancelTx: waiting jobs end at once, a running one only when its worker returns. */
  function RequestCancel(j: Job): Job {
    if Active(j.state) && !j.state.Running? then j.(state := JobCancelled) else j
  }

  function CancelAll(db: Db, pairs: seq<(WorkspaceId, RequestId)>): (d: Db)
    decreases |pairs|
  {
    if pairs == [] then db else CancelAll(CancelOne(db, pairs[0].0, pairs[0].1), pairs[1..])
  }

  // ----------------------------------------------------- studio/persistent.go

  /** What a studio operation asks of the queue while its transaction is open. */
  datatype QueueOp = Admit(request: RequestId) | Cancel(request: RequestId)

  function Operate(db: Db, p: Policy, now: Time, w: WorkspaceId, ops: seq<QueueOp>): (d: Option<Db>)
    ensures d.Some? ==> d.value.workspaces == db.workspaces
    decreases |ops|
  {
    if ops == [] then Some(db)
    else match ops[0]
      case Admit(r) =>
        var d := AdmitOne(db, p, now, w, r);
        if d.None? then None else Operate(d.value, p, now, w, ops[1..])
      case Cancel(r) => Operate(CancelOne(db, w, r), p, now, w, ops[1..])
  }

  /** Renditions a workspace still refers to. */
  function Keep(samples: set<Sample>): set<RequestId> {
    (set s <- samples | s.job.Some? :: s.job.value) + (set s <- samples | s.download.Some? :: s.download.value)
  }

  predicate Pinned(s: Sample) { s.favourite && s.job.Some? }

  function PinRows(w: WorkspaceId, samples: set<Sample>): map<(WorkspaceId, SampleId), RequestId>
    requires DistinctPins(samples)
  {
    map s <- samples | Pinned(s) :: (w, s.id) := s.job.value
  }

  /** The primary key of art_pins: one row per sample id. */
  predicate DistinctPins(samples: set<Sample>) {
    forall a <- samples, b <- samples :: Pinned(a) && Pinned(b) && a.id == b.id ==> a == b
  }

  function Obsolete(interests: set<(WorkspaceId, RequestId)>, w: WorkspaceId, samples: set<Sample>): set<RequestId> {
    set i <- interests | i.0 == w && i.1 !in Keep(samples) :: i.1
  }

  /** order lists the rows of a query, each once. */
  ghost predicate Enumerates<T(!new)>(order: seq<T>, rows: set<T>) {
    (forall x :: x in order <==> x in rows) && forall i, j :: 0 <= i < j < |order| ==> order[i] != order[j]
  }

  function PairWith(w: WorkspaceId, rs: seq<RequestId>): seq<(WorkspaceId, RequestId)> {
    seq(|rs|, i requires 0 <= i < |rs| => (w, rs[i]))
  }

  /** The closing part of Persistent.transaction: save the aggregate, rewrite pins, drop interests. */
  ghost function SaveWorkspace(
    db: Db, w: WorkspaceId, expires: Time, samples: set<Sample>, size: nat, order: seq<RequestId>): Option<Db>
    requires w in db.workspaces
  {
    if size > AggregateBytes || Total(Sizes(db.workspaces - {w})) + size > WorkspaceBytes then None
    else if !DistinctPins(samples) then None
    else if exists s <- samples :: Pinned(s) && s.job.value !in db.requests then None
    else
      var d := db.(workspaces := db.workspaces[w := Workspace(expires, samples, size)],
                   pins := (map p <- db.pins | p.0 != w :: db.pins[p]) + PinRows(w, samples));
      if !Enumerates(order, Obsolete(d.interests, w, samples)) then None
      else Some(CancelAll(d, PairWith(w, order)))
  }

  /** Persistent.transaction with write; clear is the variant of Persistent.Clear. */
  ghost function Write(
    db: Db, p: Policy, now: Time, w: WorkspaceId, ops: seq<QueueOp>,
    clear: bool, samples: set<Sample>, size: nat, order: seq<RequestId>): Option<Db>
  {
    if !LiveWorkspace(db, now, w) then None
    else
      var d := Operate(db, p, now, w, ops);
      if d.None? then None
      else SaveWorkspace(d.value, w, if clear then now else db.workspaces[w].expires,
                         if clear then {} else samples, size, order)
  }

  function CreateWorkspace(db: Db, now: Time, w: WorkspaceId): Option<Db> {
    if |db.workspaces| >= WorkspaceRows || w in db.workspaces then None
    else Some(db.(workspaces := db.workspaces[w := Workspace(now + 90 * Day, {}, 0)]))
  }

  function Touch(db: Db, now: Time, w: WorkspaceId): Option<Db> {
    if !LiveWorkspace(db, now, w) then None
    else Some(db.(workspaces := db.workspaces[w := db.workspaces[w].(expires := now + 90 * Day)]))
  }

  // ---------------------------------------------------------------- worker.go

  predicate Eligible(db: Db, j: JobId, attempt: nat) {
    j in db.jobs && db.jobs[j].state == Running && db.jobs[j].attempt == attempt
  }

  datatype BeginResult = Refused | Expired(db: Db) | Started(db: Db)

  /** Worker.begin for attempt number `attempt` of job j; a start takes a fresh generation. */
  function Begin(db: Db, p: Policy, now: Time, j: JobId, attempt: nat): BeginResult {
    if !Eligible(db, j, attempt) then Refused
    else
      var r := db.jobs[j].request;
      if r !in db.requests || db.requests[r].job != Some(j) || db.requests[r].epoch != db.control.epoch
         || !HasLiveInterest(db, now, r) || db.control.build != r.build || p.build != r.build then Refused
      else
        var q := db.requests[r];
        if (q.firstStarted.None? && q.created < now - p.queueAge)
           || (q.firstStarted.Some? && q.firstStarted.value < now - 300)
        then Expired(db.(requests := db.requests[r := q.(outcome := WasExpired)]))
        else Started(db.(
          requests := db.requests[r := q.(generation := db.nextGeneration, outcome := WasRunning,
                                          firstStarted := if q.firstStarted.Some? then q.firstStarted else Some(now))],
          nextGeneration := db.nextGeneration + 1))
  }

  /** Worker.terminal: only the generation that still owns the request may fail it. */
  function Terminal(db: Db, r: RequestId, g: Generation): Db {
    db.(requests := if r in db.requests && db.requests[r].generation == g
                    then db.requests[r := db.requests[r].(outcome := WasFailed)] else db.requests)
  }

  /** Worker.reserve: a pending upload row, within the storage bounds. */
  ghost function Reserve(db: Db, now: Time, j: JobId, k: Key, size: nat): Option<Db> {
    if k.request !in db.requests || db.requests[k.request].generation != k.generation
       || db.requests[k.request].job != Some(j) then None
    else if Total(Accounted(db.uploads)) + size > UploadBytes || |Accounted(db.uploads)| >= UploadRows then None
    else if k in db.uploads || size < 1 || size > MaxImage then None
    else Some(db.(uploads := db.uploads[k := Upload(k.request, k.generation, size, Pending, now, None, None)]))
  }

  predicate Authorized(db: Db, now: Time, j: JobId, k: Key, epoch: nat) {
    && k.request in db.requests
    && db.control.epoch == db.requests[k.request].epoch == epoch
    && db.control.build == k.request.build
    && db.requests[k.request].job == Some(j)
    && db.requests[k.request].generation == k.generation
    && HasLiveInterest(db, now, k.request)
  }

  /** Key k is published and the key it replaces is retired. */
  function Promote(uploads: map<Key, Upload>, artifacts: map<RequestId, Artifact>, now: Time, k: Key): map<Key, Upload> {
    var replaced := if k.request in artifacts && artifacts[k.request].key != k then {artifacts[k.request].key} else {};
    map u <- uploads ::
      if u == k then uploads[u].(state := Published)
      else if u in replaced then Retire(uploads[u], now + Hour)
      else uploads[u]
  }

  /** Worker.complete: publish key k for its request and finish the job, all or nothing. */
  function Complete(db: Db, now: Time, j: JobId, attempt: nat, epoch: nat, k: Key, image: Image): Option<Db> {
    if !Eligible(db, j, attempt) || !Authorized(db, now, j, k, epoch) then None
    else if k !in db.uploads || db.uploads[k].state != Pending || db.uploads[k].generation != k.generation then None
    else
      var r := k.request;
      Some(db.(
        uploads := Promote(db.uploads, db.artifacts, now, k),
        artifacts := db.artifacts[r := Artifact(k, image.digest, image.size, now + Day)],
        requests := db.requests[r := db.requests[r].(outcome := WasReady)],
        jobs := db.jobs[j := db.jobs[j].(state := Completed)]))
  }

  function Retire(u: Upload, deleteAfter: Time): Upload {
    u.(state := Deleting, deleteAfter := Some(deleteAfter))
  }

  // ----------------------------------------------------------- maintenance.go

  predicate PinlessExpired(db: Db, now: Time, r: RequestId) {
    r in db.artifacts && db.artifacts[r].expires <= now && !HasLivePin(db, now, r)
  }

  predicate Collectable(db: Db, now: Time, r: RequestId) {
    && r in db.requests
    && db.requests[r].created < now - Day
    && !ActiveRequest(db, r)
    && Subscribers(db.interests, r) == {}
    && r !in db.pins.Values
    && r !in db.artifacts
    && forall k <- db.uploads :: db.uploads[k].request != r
  }

  function SettleOutcomes(db: Db): Db {
    db.(requests := map r <- db.requests :: SettledRequest(db, r))
  }

  function SettledRequest(db: Db, r: RequestId): Request
    requires r in db.requests
  {
    var q := db.requests[r];
    if q.job.Some? && q.job.value in db.jobs && (q.outcome.WasQueued? || q.outcome.WasRunning?) then
      match db.jobs[q.job.value].state
      case Discarded => q.(outcome := WasFailed)
      case JobCancelled => q.(outcome := WasCancelled)
      case _ => q
    else q
  }

  /** Delete the chosen expired artifacts and retire their uploads. */
  function ExpireArtifacts(db: Db, now: Time, expired: set<RequestId>): Db
    requires forall r <- expired :: r in db.artifacts
  {
    var keys := set r <- expired :: db.artifacts[r].key;
    db.(artifacts := db.artifacts - expired,
        uploads := map u <- db.uploads :: if u in keys then Retire(db.uploads[u], now + Hour) else db.uploads[u])
  }

  predicate Abandoned(db: Db, now: Time, k: Key) {
    k in db.uploads && db.uploads[k].state == Pending && db.uploads[k].created < now - Hour
    && forall r <- db.artifacts :: db.artifacts[r].key != k
  }

  function RetireAbandoned(db: Db, now: Time): Db {
    db.(uploads := map u <- db.uploads :: if Abandoned(db, now, u) then Retire(db.uploads[u], now) else db.uploads[u])
  }

  predicate Tombstone(u: Upload, now: Time) {
    u.state == Deleting && u.deletedAt.Some? && u.deletedAt.value < now - 7 * Day && u.created < now - 8 * Day
  }

  function DropTombstones(db: Db, now: Time): Db {
    db.(uploads := map u <- db.uploads | !Tombstone(db.uploads[u], now) :: db.uploads[u])
  }

  function DropWorkspaces(db: Db, gone: set<WorkspaceId>): Db {
    db.(workspaces := db.workspaces - gone,
        pins := map p <- db.pins | p.0 !in gone :: db.pins[p])
  }

  /** The LIMIT 100 picks of one maintenance pass. */
  datatype Picks = Picks(
    lapsed: seq<(WorkspaceId, RequestId)>, workspaces: set<WorkspaceId>,
    artifacts: set<RequestId>, requests: set<RequestId>)

  /** Cancel interests of expired owners, then delete expired owners that have none left. */
  ghost function Lapse(db: Db, now: Time, picks: Picks): Option<Db> {
    if exists i <- picks.lapsed :: i !in db.interests || i.0 !in db.workspaces || LiveWorkspace(db, now, i.0) then None
    else
      var d := CancelAll(db, picks.lapsed);
      if exists w <- picks.workspaces :: w !in d.workspaces || LiveWorkspace(d, now, w)
                                         || exists i <- d.interests :: i.0 == w then None
      else Some(DropWorkspaces(d, picks.workspaces))
  }

  /** Expire artifacts, retire abandoned uploads, drop old tombstones and unreferenced requests. */
  ghost function Expire(db: Db, now: Time, picks: Picks): Option<Db> {
    if exists r <- picks.artifacts :: !PinlessExpired(db, now, r) then None
    else
      var d := DropTombstones(RetireAbandoned(ExpireArtifacts(db, now, picks.artifacts), now), now);
      if exists r <- picks.requests :: !Collectable(d, now, r) then None
      else Some(d.(requests := d.requests - picks.requests))
  }

  /** The transaction of Maintainer.Work, statement by statement. */
  ghost function Maintain(db: Db, now: Time, picks: Picks): Option<Db> {
    if |picks.lapsed| > 100 || |picks.workspaces| > 100 || |picks.artifacts| > 100 || |picks.requests| > 100 then None
    else
      var d := Lapse(db, now, picks);
      if d.None? then None else Expire(SettleOutcomes(d.value), now, picks)
  }

  /** After an object was deleted its row remembers the first deletion. */
  function MarkDeleted(db: Db, now: Time, k: Key): Db {
    db.(uploads := if k in db.uploads && db.uploads[k].state == Deleting
                   then db.uploads[k := Deleted(db.uploads[k], now)] else db.uploads)
  }

  function Deleted(u: Upload, now: Time): Upload {
    u.(deletedAt := if u.deletedAt.Some? then u.deletedAt else Some(now), deleteAfter := Some(now + Hour))
  }

  // ----------------------------------------------------- read.go, database.go

  /** DB.Missing: forget a pointer whose object is confirmed gone. */
  function Missing(db: Db, now: Time, r: RequestId, k: Key): Db {
    db.(artifacts := if r in db.artifacts && db.artifacts[r].key == k then db.artifacts - {r} else db.artifacts,
        uploads := if k in db.uploads then db.uploads[k := Retire(db.uploads[k], now)] else db.uploads)
  }

  /** DB.Activate: switch build and epoch, only when no render job is unfinished. */
  function Activate(db: Db, build: Build): Option<Db> {
    if ActiveJobs(db.jobs) != {} then None
    else Some(db.(control := db.control.(build := build, epoch := db.control.epoch + 1)))
  }

  function Enable(db: Db, on: bool): Db { db.(control := db.control.(enabled := on)) }
}
