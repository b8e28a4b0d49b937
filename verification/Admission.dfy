/** When the durable queue admits, begins and publishes, stated by the limits and invariants rather
    than by the tests: nothing is refused without cause, and nothing starts late. */
module Admission {
  import opened Basics
  import opened Tables
  import opened Protocol
  import opened ProtocolInvariants
  import opened ProtocolRuns
  import opened Retention
  import PublicationSafety

  // ------------------------------------------------------------------- admission

  /** The tables if w's wish for r were granted: join what is there, or add a job. */
  function Granted(db: Db, now: Time, w: WorkspaceId, r: RequestId): Db {
    if Ready(db, now, r) || ActiveRequest(db, r) then Subscribe(db, w, r) else Subscribe(Enqueue(db, now, r), w, r)
  }

  /** The unfinished renditions w is interested in. */
  function Unfinished(db: Db, w: WorkspaceId): set<RequestId> {
    set i <- db.interests | i.0 == w && ActiveRequest(db, i.1) :: i.1
  }

  /** The release that asks is the current one, and admission is switched on. */
  predicate Current(db: Db, p: Policy, r: RequestId) { db.control.enabled && db.control.build == p.build == r.build }

  /** All limits would still hold afterwards. */
  ghost predicate Within(db: Db, p: Policy, now: Time, w: WorkspaceId, r: RequestId) {
    var d := Granted(db, now, w, r);
    && |Subscribers(d.interests, r)| <= MaxSubscribers
    && (!Ready(db, now, r) ==> |Unfinished(d, w)| <= p.visitorJobs)
    && (!Ready(db, now, r) && !ActiveRequest(db, r) ==> |ActiveJobs(d.jobs)| <= p.outstanding)
  }

  lemma GrantedSubscribers(db: Db, now: Time, w: WorkspaceId, r: RequestId)
    ensures |Subscribers(Granted(db, now, w, r).interests, r)| == |Others(db, w, r)| + 1
  {
    var d := Granted(db, now, w, r);
    assert (w, r) in d.interests;
    assert Subscribers(d.interests, r) == Others(db, w, r) + {w};
  }

  lemma ActivityKept(db: Db, now: Time, w: WorkspaceId, r: RequestId, q: RequestId)
    requires References(db)
    ensures !Ready(db, now, r) ==> ActiveRequest(Granted(db, now, w, r), r)
    ensures q != r ==> (ActiveRequest(Granted(db, now, w, r), q) <==> ActiveRequest(db, q))
  {
  }

  lemma GrantedUnfinished(db: Db, now: Time, w: WorkspaceId, r: RequestId)
    requires References(db) && !Ready(db, now, r)
    ensures |Unfinished(Granted(db, now, w, r), w)| == |Owned(db, w, r)| + 1
  {
    var d := Granted(db, now, w, r);
    forall q: RequestId ensures q in Unfinished(d, w) <==> q in Owned(db, w, r) + {r} {
      ActivityKept(db, now, w, r, q);
      GrantedInterests(db, now, w, r, q);
      OwnedMember(db, w, r, q);
      UnfinishedMember(d, w, q);
    }
    assert Unfinished(d, w) == Owned(db, w, r) + {r};
  }

  lemma GrantedInterests(db: Db, now: Time, w: WorkspaceId, r: RequestId, q: RequestId)
    ensures (w, q) in Granted(db, now, w, r).interests <==> (w, q) in db.interests || q == r
  {
  }

  lemma OwnedMember(db: Db, w: WorkspaceId, r: RequestId, q: RequestId)
    ensures q in Owned(db, w, r) <==> (w, q) in db.interests && q != r && ActiveRequest(db, q)
  {
  }

  lemma UnfinishedMember(db: Db, w: WorkspaceId, q: RequestId)
    ensures q in Unfinished(db, w) <==> (w, q) in db.interests && ActiveRequest(db, q)
  {
  }

  lemma GrantedActive(db: Db, now: Time, w: WorkspaceId, r: RequestId)
    requires References(db) && !Ready(db, now, r) && !ActiveRequest(db, r)
    ensures |ActiveJobs(Granted(db, now, w, r).jobs)| == |ActiveJobs(db.jobs)| + 1
  {
    hide Ready, ActiveRequest, ActiveJobs;
    assert db.nextJob !in db.jobs;
    OneMoreActive(db.jobs, db.nextJob, Job(r, Available, 0));
  }

  lemma OneMoreActive(jobs: map<JobId, Job>, j: JobId, job: Job)
    requires j !in jobs && Active(job.state)
    ensures |ActiveJobs(jobs[j := job])| == |ActiveJobs(jobs)| + 1
  {
    assert ActiveJobs(jobs[j := job]) == ActiveJobs(jobs) + {j};
  }

  /** Main result: a wish is granted if and only if the current release asks, admission is on, and all
      limits hold afterwards; then a rendition that is ready or under way is joined without a second
      job. */
  lemma AdmittedExactly(db: Db, p: Policy, now: Time, w: WorkspaceId, r: RequestId)
    requires References(db)
    ensures AdmitOne(db, p, now, w, r)
      == if Current(db, p, r) && Within(db, p, now, w, r) then Some(Granted(db, now, w, r)) else None
  {
    hide Ready, ActiveRequest, Granted, Owned, Unfinished, ActiveJobs, Subscribers, References, Others;
    GrantedSubscribers(db, now, w, r);
    if !Ready(db, now, r) {
      GrantedUnfinished(db, now, w, r);
      if !ActiveRequest(db, r) { GrantedActive(db, now, w, r); }
    }
    GrantedIs(db, now, w, r);
  }

  lemma GrantedIs(db: Db, now: Time, w: WorkspaceId, r: RequestId)
    ensures Ready(db, now, r) || ActiveRequest(db, r) ==> Granted(db, now, w, r) == Subscribe(db, w, r)
    ensures !Ready(db, now, r) && !ActiveRequest(db, r) ==> Granted(db, now, w, r) == Subscribe(Enqueue(db, now, r), w, r)
  {
  }

  /** Whoever was admitted is served: the image is ready, or its one current job is under way; and
      nothing that was there changes. */
  lemma AdmittedIsServed(db: Db, p: Policy, now: Time, w: WorkspaceId, r: RequestId)
    requires References(db) && AdmitOne(db, p, now, w, r).Some?
    ensures var d := AdmitOne(db, p, now, w, r).value;
      && (w, r) in d.interests && (Ready(d, now, r) || ActiveRequest(d, r))
      && (Ready(db, now, r) || ActiveRequest(db, r) ==> d.jobs == db.jobs && d.requests == db.requests)
      && (forall q <- db.requests :: q in d.requests && (q != r ==> d.requests[q] == db.requests[q]))
      && (forall j <- db.jobs :: j in d.jobs && d.jobs[j] == db.jobs[j])
  {
    hide AdmitOne, Ready, ActiveRequest, Granted, Within, Current, References;
    AdmittedExactly(db, p, now, w, r);
    ActivityKept(db, now, w, r, r);
    GrantedInterests(db, now, w, r, r);
    GrantedKeeps(db, now, w, r);
    ReadyKept(db, now, w, r);
  }

  lemma GrantedKeeps(db: Db, now: Time, w: WorkspaceId, r: RequestId)
    requires References(db)
    ensures var d := Granted(db, now, w, r);
      && (Ready(db, now, r) || ActiveRequest(db, r) ==> d.jobs == db.jobs && d.requests == db.requests)
      && (forall q <- db.requests :: q in d.requests && (q != r ==> d.requests[q] == db.requests[q]))
      && (forall j <- db.jobs :: j in d.jobs && d.jobs[j] == db.jobs[j])
  {
    hide Ready, ActiveRequest;
  }

  lemma ReadyKept(db: Db, now: Time, w: WorkspaceId, r: RequestId)
    ensures Ready(Granted(db, now, w, r), now, r) <==> Ready(db, now, r)
  {
    hide ActiveRequest;
  }

  /** In every reachable state a request has at most one active job. */
  lemma OneJobEach(cap: nat, worlds: seq<World>, events: seq<Event>, i: nat, j: JobId, k: JobId)
    requires IsRun(cap, worlds, events) && i < |worlds|
    requires var jobs := worlds[i].db.jobs;
      j in jobs && k in jobs && Active(jobs[j].state) && Active(jobs[k].state) && jobs[j].request == jobs[k].request
    ensures j == k
  {
    hide Next, Initial;
    ActiveJobsCurrent(cap, worlds, events, i, j);
    ActiveJobsCurrent(cap, worlds, events, i, k);
  }

  /** While admission is off or another build is current, a write adds no interest and no job. */
  lemma {:induction false} OperateAddsNothing(db: Db, p: Policy, now: Time, w: WorkspaceId, ops: seq<QueueOp>)
    requires Operate(db, p, now, w, ops).Some? && !(db.control.enabled && db.control.build == p.build)
    ensures var d := Operate(db, p, now, w, ops).value; d.interests <= db.interests && d.jobs.Keys <= db.jobs.Keys
    decreases |ops|
  {
    if ops != [] {
      match ops[0]
      case Admit(r) => assert false;
      case Cancel(r) => OperateAddsNothing(CancelOne(db, w, r), p, now, w, ops[1..]);
    }
  }

  // ------------------------------------------------------------------------- cancel

  /** One of several subscribers leaves: its own interest goes, and nothing else changes. */
  lemma SharedCancelKeeps(db: Db, w: WorkspaceId, r: RequestId)
    requires Subscribers(db.interests, r) - {w} != {}
    ensures CancelOne(db, w, r) == db.(interests := db.interests - {(w, r)})
  {
  }

  /** The last one leaves: the request gets a generation never drawn before, and its job is over
      unless it is running. */
  lemma LastCancelFences(db: Db, w: WorkspaceId, r: RequestId)
    requires References(db) && r in db.requests && Subscribers(db.interests, r) <= {w}
    ensures var d := CancelOne(db, w, r);
      && !Wanted(d, r) && r in d.requests && db.nextGeneration <= d.requests[r].generation < d.nextGeneration
      && (ActiveRequest(d, r) ==> ActiveRequest(db, r) && db.jobs[db.requests[r].job.value].state.Running?)
      && !d.requests[r].outcome.WasQueued? && !d.requests[r].outcome.WasRunning?
      && (forall j <- db.jobs :: db.jobs[j].state.Running? || Some(j) != db.requests[r].job ==> j in d.jobs && d.jobs[j] == db.jobs[j])
      && (forall q <- db.requests :: q != r ==> q in d.requests && d.requests[q] == db.requests[q])
  {
    assert Others(db, w, r) == {};
    assert Subscribers(CancelOne(db, w, r).interests, r) == {};
  }

  // -------------------------------------------------------------------------- begin

  /** This is the attempt that River says is running. */
  predicate RunsAs(db: Db, j: JobId, number: nat) {
    j in db.jobs && db.jobs[j].state.Running? && db.jobs[j].attempt == number
  }

  /** Main result: in every reachable state an attempt is refused if and only if it is not the one that
      is running, no live workspace is interested, or the worker is of another build than the
      current one. */
  lemma BegunExactly(cap: nat, worlds: seq<World>, events: seq<Event>, i: nat, p: Policy, j: JobId, number: nat)
    requires IsRun(cap, worlds, events) && i < |worlds|
    ensures var db, now := worlds[i].db, worlds[i].now;
      Begin(db, p, now, j, number).Refused?
      <==> !RunsAs(db, j, number) || !HasLiveInterest(db, now, db.jobs[j].request) || p.build != db.control.build
  {
    hide Next, Initial, HasLiveInterest;
    if RunsAs(worlds[i].db, j, number) { ActiveJobsCurrent(cap, worlds, events, i, j); }
  }

  /** Whatever the tables hold, an attempt passes only under its own request's current job and epoch,
      and only when control row, rendition and worker are of one build. */
  lemma BegunFenced(db: Db, p: Policy, now: Time, j: JobId, number: nat)
    requires !Begin(db, p, now, j, number).Refused?
    ensures RunsAs(db, j, number) && db.jobs[j].request in db.requests
    ensures var r := db.jobs[j].request;
      && db.requests[r].job == Some(j) && db.requests[r].epoch == db.control.epoch
      && db.control.build == r.build == p.build && HasLiveInterest(db, now, r)
  {
    hide HasLiveInterest;
  }

  // ------------------------------------------------------------------- reservation

  /** Main result: an upload is reserved if and only if its generation and job own the request, its
      size is that of an image, its key is new, and the storage limits hold with it. */
  lemma ReservedExactly(db: Db, now: Time, j: JobId, k: Key, size: nat)
    ensures var after := db.uploads[k := Upload(k.request, k.generation, size, Pending, now, None, None)];
      Reserve(db, now, j, k, size).Some?
      <==> k.request in db.requests && db.requests[k.request].generation == k.generation && db.requests[k.request].job == Some(j)
           && 1 <= size <= 16 * 1024 * 1024 && k !in db.uploads
           && Total(Accounted(after)) <= 2 * 1024 * 1024 * 1024 && |Accounted(after)| <= 5000
  {
    var after := db.uploads[k := Upload(k.request, k.generation, size, Pending, now, None, None)];
    if k !in db.uploads {
      assert Accounted(after) == Accounted(db.uploads)[k := size];
      TotalInsert(Accounted(db.uploads), k, size);
    }
  }

  // ------------------------------------------------------------------- publication

  /** While an attempt owns its request, the request has its job and epoch. */
  lemma OwnerFacts(cap: nat, worlds: seq<World>, events: seq<Event>, j: nat, g: Generation)
    requires IsRun(cap, worlds, events) && j < |worlds| && g in worlds[j].attempts
    requires Owns(worlds[j].db, worlds[j].attempts[g].request, g)
    ensures var t, db := worlds[j].attempts[g], worlds[j].db;
      && db.requests[t.request].job == Some(t.job) && db.requests[t.request].epoch == t.epoch
      && (t.job in db.jobs ==> db.jobs[t.job].request == t.request)
  {
    hide Next, Initial, Wanted;
    var i := Began(cap, worlds, events, j, g);
    BegunFacts(worlds[i], events[i].policy, events[i].action, worlds[i + 1], g);
    AttemptStays(cap, worlds, events, i + 1, j, g);
    StepAt(cap, worlds, events, i);
    BeginFacts(worlds[i], events[i].policy, events[i].action, worlds[i + 1], g);
    RunHistory(cap, worlds, events, i + 1, j);
    KnownJob(cap, worlds, events, i + 1, worlds[i + 1].attempts[g].job);
  }

  lemma BegunFacts(w: World, p: Policy, a: Action, v: World, g: Generation)
    requires Next(w, p, a) == Some(v) && a.BeginA? && g !in w.attempts && g in v.attempts
    ensures var t := v.attempts[g];
      && t.request in v.db.requests && v.db.requests[t.request].job == Some(t.job) && v.db.requests[t.request].epoch == t.epoch
      && t.job in v.db.jobs && v.db.jobs[t.job].request == t.request
  {
  }

  lemma KnownJob(cap: nat, worlds: seq<World>, events: seq<Event>, i: nat, j: JobId)
    requires IsRun(cap, worlds, events) && i < |worlds| && j in worlds[i].db.jobs
    ensures j < worlds[i].db.nextJob
  {
    Reachable(cap, worlds, events, i);
  }

  /** Main result: in every reachable state an uploaded attempt is refused publication only if its job
      no longer runs as that attempt, it lost its request, no live workspace is interested, or its
      upload was retired. */
  lemma PublishedUnless(cap: nat, worlds: seq<World>, events: seq<Event>, i: nat, p: Policy, g: Generation)
    requires IsRun(cap, worlds, events) && i < |worlds| && g in worlds[i].attempts && worlds[i].attempts[g].phase.Uploaded?
    ensures var w, t := worlds[i], worlds[i].attempts[g];
      Next(w, p, CompleteA(g)).Some?
      <==> RunsAs(w.db, t.job, t.number) && Owns(w.db, t.request, g) && HasLiveInterest(w.db, w.now, t.request)
           && KeyOf(t, g) in w.db.uploads && w.db.uploads[KeyOf(t, g)].state == Pending
  {
    hide HasLiveInterest, Promote, Initial, Wanted;
    var w, t := worlds[i], worlds[i].attempts[g];
    if Owns(w.db, t.request, g) && Eligible(w.db, t.job, t.number) {
      OwnerFacts(cap, worlds, events, i, g);
      ActiveJobsCurrent(cap, worlds, events, i, t.job);
    }
    RowsNamed(cap, worlds, events, i, KeyOf(t, g));
  }

  /** Whatever the tables hold, nothing is published past a fence. */
  lemma PublishedFenced(db: Db, now: Time, j: JobId, number: nat, epoch: nat, k: Key, image: Image)
    requires Complete(db, now, j, number, epoch, k, image).Some?
    ensures RunsAs(db, j, number) && k.request in db.requests && HasLiveInterest(db, now, k.request)
    ensures var q := db.requests[k.request];
      q.job == Some(j) && q.generation == k.generation && q.epoch == epoch == db.control.epoch && k.request.build == db.control.build
  {
    hide HasLiveInterest, Promote;
  }

  /** Main result: once its job was started again, an attempt never publishes. */
  lemma NewestOnly(cap: nat, worlds: seq<World>, events: seq<Event>, i: nat, j: nat, g: Generation)
    requires IsRun(cap, worlds, events) && i <= j < |events| && g in worlds[i].attempts
    requires worlds[i].attempts[g].job in worlds[i].db.jobs
    requires worlds[i].db.jobs[worlds[i].attempts[g].job].attempt > worlds[i].attempts[g].number
    ensures events[j].action != CompleteA(g)
  {
    hide Next, Initial, Wanted;
    if events[j].action == CompleteA(g) {
      var t := worlds[i].attempts[g];
      StepAt(cap, worlds, events, j);
      AttemptStays(cap, worlds, events, i, j, g);
      CompletesEligible(worlds[j], events[j].policy, g, worlds[j + 1]);
      RunHistory(cap, worlds, events, i, j);
      KnownJob(cap, worlds, events, i, t.job);
      assert false;
    }
  }

  lemma CompletesEligible(w: World, p: Policy, g: Generation, v: World)
    requires Next(w, p, CompleteA(g)) == Some(v)
    ensures g in w.attempts && RunsAs(w.db, w.attempts[g].job, w.attempts[g].number)
  {
    hide HasLiveInterest, Promote;
  }

  lemma RowsNamed(cap: nat, worlds: seq<World>, events: seq<Event>, i: nat, k: Key)
    requires IsRun(cap, worlds, events) && i < |worlds|
    ensures k in worlds[i].db.uploads ==> worlds[i].db.uploads[k].generation == k.generation
  {
    Reachable(cap, worlds, events, i);
  }
}
