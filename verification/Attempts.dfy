/** When attempts start, and what a request's recorded outcome means. */
module Attempts {
  import opened Basics
  import opened Tables
  import opened Protocol
  import opened ProtocolInvariants
  import opened ProtocolRuns
  import opened Retention
  import PublicationSafety

  // ------------------------------------------------------------ dates of a request

  /** Job, admission and first start of r are as they were. */
  ghost predicate SameDates(db: Db, d: Db, r: RequestId) {
    && r in db.requests && r in d.requests && d.requests[r].job == db.requests[r].job
    && d.requests[r].created == db.requests[r].created && d.requests[r].firstStarted == db.requests[r].firstStarted
  }

  /** r was admitted now, under a job number never drawn before. */
  ghost predicate Admitted(db: Db, d: Db, now: Time, r: RequestId) {
    && r in d.requests && d.requests[r].job.Some? && db.nextJob <= d.requests[r].job.value < d.nextJob
    && (d.requests[r].job.value in d.jobs ==> d.jobs[d.requests[r].job.value].request == r)
    && d.requests[r].created == now && d.requests[r].firstStarted.None? && Fated(WasQueued, d.requests[r].outcome)
  }

  /** Jobs keep the request they were made for, and finished ones do not change. */
  ghost predicate JobsKeep(db: Db, d: Db) {
    && db.nextJob <= d.nextJob
    && forall j <- d.jobs :: j >= db.nextJob || (j in db.jobs && d.jobs[j].request == db.jobs[j].request
         && (!Active(db.jobs[j].state) ==> d.jobs[j] == db.jobs[j]))
  }

  /** The outcome stays, or work under way is given up. */
  predicate Fated(q: Outcome, t: Outcome) {
    t == q || ((q.WasQueued? || q.WasRunning?) && (t.WasCancelled? || t.WasFailed?))
  }

  ghost predicate Dated(db: Db, d: Db, now: Time) {
    JobsKeep(db, d)
    && forall r <- d.requests :: (SameDates(db, d, r) && Fated(db.requests[r].outcome, d.requests[r].outcome)) || Admitted(db, d, now, r)
  }

  /** The job a request names was made for it. */
  ghost predicate Named(db: Db) {
    forall r <- db.requests :: db.requests[r].job.Some? && db.requests[r].job.value in db.jobs ==>
      db.jobs[db.requests[r].job.value].request == r
  }

  lemma DatedChain(a: Db, b: Db, c: Db, now: Time)
    requires Dated(a, b, now) && Dated(b, c, now)
    ensures Dated(a, c, now)
  {
  }

  lemma CancelDated(db: Db, now: Time, w: WorkspaceId, r: RequestId)
    ensures Dated(db, CancelOne(db, w, r), now)
  {
  }

  lemma AdmitDated(db: Db, p: Policy, now: Time, w: WorkspaceId, r: RequestId)
    requires AdmitOne(db, p, now, w, r).Some?
    ensures Dated(db, AdmitOne(db, p, now, w, r).value, now)
  {
    assert AdmitOne(db, p, now, w, r).value in {Subscribe(db, w, r), Subscribe(Enqueue(db, now, r), w, r)};
    hide AdmitOne;
  }

  lemma {:induction false} CancelAllDated(db: Db, now: Time, pairs: seq<(WorkspaceId, RequestId)>)
    ensures Dated(db, CancelAll(db, pairs), now)
    decreases |pairs|
  {
    hide CancelOne, Dated;
    if pairs == [] {
      NothingDated(db, now);
    } else {
      var d := CancelOne(db, pairs[0].0, pairs[0].1);
      CancelDated(db, now, pairs[0].0, pairs[0].1);
      CancelAllDated(d, now, pairs[1..]);
      DatedChain(db, d, CancelAll(d, pairs[1..]), now);
    }
  }

  lemma NothingDated(db: Db, now: Time)
    ensures Dated(db, db, now)
  {
  }

  lemma {:induction false} OperateDated(db: Db, p: Policy, now: Time, w: WorkspaceId, ops: seq<QueueOp>)
    requires Operate(db, p, now, w, ops).Some?
    ensures Dated(db, Operate(db, p, now, w, ops).value, now)
    decreases |ops|
  {
    hide CancelOne, AdmitOne, Dated;
    if ops == [] {
      NothingDated(db, now);
    } else {
      var d := match ops[0]
        case Admit(r) => AdmitOne(db, p, now, w, r).value
        case Cancel(r) => CancelOne(db, w, r);
      match ops[0] {
        case Admit(r) => AdmitDated(db, p, now, w, r);
        case Cancel(r) => CancelDated(db, now, w, r);
      }
      OperateDated(d, p, now, w, ops[1..]);
      DatedChain(db, d, Operate(d, p, now, w, ops[1..]).value, now);
    }
  }

  lemma RowsDated(db: Db, d: Db, now: Time)
    requires d.requests == db.requests && d.nextJob == db.nextJob && d.jobs == db.jobs
    ensures Dated(db, d, now)
  {
  }

  lemma WriteDated(db: Db, p: Policy, now: Time, w: WorkspaceId, ops: seq<QueueOp>,
                   clear: bool, samples: set<Sample>, size: nat, order: seq<RequestId>)
    requires Write(db, p, now, w, ops, clear, samples, size, order).Some?
    ensures Dated(db, Write(db, p, now, w, ops, clear, samples, size, order).value, now)
  {
    hide Dated, Operate, CancelAll;
    var m := Operate(db, p, now, w, ops).value;
    var expires, kept := if clear then now else db.workspaces[w].expires, if clear then {} else samples;
    var d := m.(workspaces := m.workspaces[w := Workspace(expires, kept, size)],
                pins := (map q <- m.pins | q.0 != w :: m.pins[q]) + PinRows(w, kept));
    OperateDated(db, p, now, w, ops);
    RowsDated(m, d, now);
    CancelAllDated(d, now, PairWith(w, order));
    DatedChain(m, d, CancelAll(d, PairWith(w, order)), now);
    DatedChain(db, m, CancelAll(d, PairWith(w, order)), now);
  }

  lemma MaintainDated(db: Db, now: Time, picks: Picks)
    requires Maintain(db, now, picks).Some?
    ensures Dated(db, Maintain(db, now, picks).value, now)
  {
    hide Dated, CancelAll, Expire;
    CancelAllDated(db, now, picks.lapsed);
    var l := Lapse(db, now, picks).value;
    RowsDated(CancelAll(db, picks.lapsed), l, now);
    DatedChain(db, CancelAll(db, picks.lapsed), l, now);
    SettleDated(l, now);
    DatedChain(db, l, SettleOutcomes(l), now);
    ExpireDated(SettleOutcomes(l), now, picks);
    DatedChain(db, SettleOutcomes(l), Maintain(db, now, picks).value, now);
  }

  lemma SettleDated(db: Db, now: Time)
    ensures Dated(db, SettleOutcomes(db), now)
  {
  }

  lemma ExpireDated(db: Db, now: Time, picks: Picks)
    requires Expire(db, now, picks).Some?
    ensures Dated(db, Expire(db, now, picks).value, now)
  {
  }

  /** Action a starts an attempt of job j. */
  ghost predicate Starts(w: World, a: Action, v: World, j: JobId) { a.BeginA? && a.job == j && v.attempts != w.attempts }

  /** A start remembers when the job was first started. */
  ghost predicate StartsRow(w: World, a: Action, v: World, r: RequestId) {
    && a.BeginA? && Starts(w, a, v, a.job) && r in w.db.requests && r in v.db.requests
    && w.db.requests[r].job == v.db.requests[r].job == Some(a.job) && v.db.requests[r].created == w.db.requests[r].created
    && v.db.requests[r].outcome.WasRunning?
    && v.db.requests[r].firstStarted == (if w.db.requests[r].firstStarted.Some? then w.db.requests[r].firstStarted else Some(w.now))
  }

  /** How the dates of a request can change: not at all, by admission, or by a start of its job. */
  lemma DatesStep(w: World, p: Policy, a: Action, v: World, r: RequestId)
    requires Next(w, p, a) == Some(v) && r in v.db.requests && Named(w.db) && forall g <- w.attempts :: g < w.db.nextGeneration
    ensures JobsKeep(w.db, v.db)
    ensures SameDates(w.db, v.db, r) || Admitted(w.db, v.db, w.now, r) || StartsRow(w, a, v, r)
    ensures forall j: JobId :: Starts(w, a, v, j) && v.db.requests[r].job == Some(j) ==> StartsRow(w, a, v, r)
    ensures forall j: JobId :: Starts(w, a, v, j) ==> j in w.db.jobs
  {
    hide Next, SameDates, Admitted, StartsRow, Starts, JobsKeep, Named;
    match a
    case BeginA(j, number) => BeginDates(w, p, j, number, v, r);
    case WriteW(id, ops, clear, samples, size, order) => WriteDates(w, p, a, v, r);
    case MaintainA(picks) => MaintainDates(w, p, picks, v, r);
    case _ => OtherDates(w, p, a, v, r);
  }

  lemma WriteDates(w: World, p: Policy, a: Action, v: World, r: RequestId)
    requires Next(w, p, a) == Some(v) && a.WriteW? && r in v.db.requests
    ensures JobsKeep(w.db, v.db) && (SameDates(w.db, v.db, r) || Admitted(w.db, v.db, w.now, r))
    ensures forall j: JobId :: !Starts(w, a, v, j)
  {
    hide Write;
    WriteDated(w.db, p, w.now, a.w, a.ops, a.clear, a.samples, a.size, a.order);
  }

  lemma MaintainDates(w: World, p: Policy, picks: Picks, v: World, r: RequestId)
    requires Next(w, p, MaintainA(picks)) == Some(v) && r in v.db.requests
    ensures JobsKeep(w.db, v.db) && (SameDates(w.db, v.db, r) || Admitted(w.db, v.db, w.now, r))
    ensures forall j: JobId :: !Starts(w, MaintainA(picks), v, j)
  {
    hide Maintain;
    MaintainedWorld(w, p, MaintainA(picks), v);
    MaintainDated(w.db, w.now, picks);
  }

  lemma BeginDates(w: World, p: Policy, j: JobId, number: nat, v: World, r: RequestId)
    requires Next(w, p, BeginA(j, number)) == Some(v) && r in v.db.requests && Named(w.db)
    requires forall g <- w.attempts :: g < w.db.nextGeneration
    ensures JobsKeep(w.db, v.db) && (SameDates(w.db, v.db, r) || StartsRow(w, BeginA(j, number), v, r))
    ensures forall k: JobId :: Starts(w, BeginA(j, number), v, k) && v.db.requests[r].job == Some(k) ==> StartsRow(w, BeginA(j, number), v, r)
    ensures forall k: JobId :: Starts(w, BeginA(j, number), v, k) ==> k in w.db.jobs
  {
    hide HasLiveInterest;
    assert w.db.nextGeneration !in w.attempts;
  }

  lemma OtherDates(w: World, p: Policy, a: Action, v: World, r: RequestId)
    requires Next(w, p, a) == Some(v) && r in v.db.requests && !a.BeginA? && !a.WriteW? && !a.MaintainA?
    ensures JobsKeep(w.db, v.db) && SameDates(w.db, v.db, r)
    ensures forall j: JobId :: !Starts(w, a, v, j)
  {
    hide Next, Reserve;
    match a
    case ReserveA(g, image) => ReserveDates(w, p, g, image, v, r);
    case CompleteA(g) => CompleteDates(w, p, g, v, r);
    case RiverA(j, state) => RiverDates(w, p, a, v, r);
    case RiverClean(j) => RiverDates(w, p, a, v, r);
    case _ => PlainDates(w, p, a, v, r);
  }

  lemma ReserveDates(w: World, p: Policy, g: Generation, image: Image, v: World, r: RequestId)
    requires Next(w, p, ReserveA(g, image)) == Some(v) && r in v.db.requests
    ensures JobsKeep(w.db, v.db) && SameDates(w.db, v.db, r)
  {
    hide Reserve;
    ReserveFrame(w.db, w.now, w.attempts[g].job, KeyOf(w.attempts[g], g), image.size);
  }

  lemma RiverDates(w: World, p: Policy, a: Action, v: World, r: RequestId)
    requires Next(w, p, a) == Some(v) && r in v.db.requests && (a.RiverA? || a.RiverClean?)
    ensures JobsKeep(w.db, v.db) && SameDates(w.db, v.db, r)
  {
  }

  lemma PlainDates(w: World, p: Policy, a: Action, v: World, r: RequestId)
    requires Next(w, p, a) == Some(v) && r in v.db.requests && !a.BeginA? && !a.WriteW? && !a.MaintainA?
    requires !a.ReserveA? && !a.CompleteA? && !a.RiverA? && !a.RiverClean?
    ensures JobsKeep(w.db, v.db) && SameDates(w.db, v.db, r)
  {
    hide ActiveJobs, Ready;
  }

  lemma CompleteDates(w: World, p: Policy, g: Generation, v: World, r: RequestId)
    requires Next(w, p, CompleteA(g)) == Some(v) && r in v.db.requests
    ensures JobsKeep(w.db, v.db) && SameDates(w.db, v.db, r)
  {
    hide Promote, HasLiveInterest;
  }

  // -------------------------------------------------------------------------- runs

  lemma NamedStep(w: World, p: Policy, a: Action, v: World)
    requires Next(w, p, a) == Some(v) && Named(w.db) && References(w.db) && forall g <- w.attempts :: g < w.db.nextGeneration
    ensures Named(v.db)
  {
    hide Next, Starts;
    forall r <- v.db.requests
      ensures v.db.requests[r].job.Some? && v.db.requests[r].job.value in v.db.jobs ==> v.db.jobs[v.db.requests[r].job.value].request == r
    {
      DatesStep(w, p, a, v, r);
    }
  }

  lemma {:induction false} AllNamed(cap: nat, worlds: seq<World>, events: seq<Event>, n: nat)
    requires IsRun(cap, worlds, events) && n < |worlds|
    ensures Named(worlds[n].db)
  {
    hide Next, Linked, Reservations, Objects, Stored, Lists, Storage, Aggregates;
    if n > 0 {
      AllNamed(cap, worlds, events, n - 1);
      Reachable(cap, worlds, events, n - 1);
      NamedStep(worlds[n - 1], events[n - 1].policy, events[n - 1].action, worlds[n]);
    }
  }

  /** Job j was made by event i. */
  ghost predicate Enqueued(worlds: seq<World>, i: nat, j: JobId) {
    i + 1 < |worlds| && worlds[i].db.nextJob <= j < worlds[i + 1].db.nextJob
  }

  ghost predicate StartedAt(worlds: seq<World>, events: seq<Event>, k: nat, j: JobId)
    requires |worlds| == |events| + 1
  {
    k < |events| && Starts(worlds[k], events[k].action, worlds[k + 1], j)
  }

  ghost predicate NotStarted(worlds: seq<World>, events: seq<Event>, n: nat, j: JobId)
    requires |worlds| == |events| + 1
  {
    forall m | 0 <= m < n :: !StartedAt(worlds, events, m, j)
  }

  /** Event k, before n, is the first that started an attempt of job j. */
  ghost predicate FirstStart(worlds: seq<World>, events: seq<Event>, k: nat, n: nat, j: JobId)
    requires |worlds| == |events| + 1
  {
    k < n && StartedAt(worlds, events, k, j) && NotStarted(worlds, events, k, j)
  }

  ghost predicate EnqueuedThen(worlds: seq<World>, n: nat, j: JobId, created: Time) {
    exists i: nat :: i < n && Enqueued(worlds, i, j) && created == worlds[i].now
  }

  ghost predicate StartedThen(worlds: seq<World>, events: seq<Event>, n: nat, j: JobId, first: Time)
    requires |worlds| == |events| + 1
  {
    exists k: nat :: FirstStart(worlds, events, k, n, j) && first == worlds[k].now
  }

  /** The dates in the row are those of the job's admission and first start. */
  ghost predicate Truthful(worlds: seq<World>, events: seq<Event>, n: nat, q: Request)
    requires |worlds| == |events| + 1
  {
    q.job.Some? ==>
      && EnqueuedThen(worlds, n, q.job.value, q.created)
      && (q.firstStarted.None? ==> NotStarted(worlds, events, n, q.job.value))
      && (q.firstStarted.Some? ==> StartedThen(worlds, events, n, q.job.value, q.firstStarted.value))
  }

  lemma NotBefore(cap: nat, worlds: seq<World>, events: seq<Event>, n: nat, j: JobId)
    requires IsRun(cap, worlds, events) && n < |worlds| && j >= worlds[n].db.nextJob
    ensures NotStarted(worlds, events, n, j)
  {
    hide Next, Initial, Starts;
    forall m | 0 <= m < n ensures !StartedAt(worlds, events, m, j) {
      RunHistory(cap, worlds, events, m, n);
      Reachable(cap, worlds, events, m);
      StartsKnown(worlds[m], events[m].policy, events[m].action, worlds[m + 1], j);
    }
  }

  lemma StartsKnown(w: World, p: Policy, a: Action, v: World, j: JobId)
    requires Next(w, p, a) == Some(v) && References(w.db)
    ensures Starts(w, a, v, j) ==> j in w.db.jobs && j < w.db.nextJob
  {
  }

  lemma Extend(worlds: seq<World>, events: seq<Event>, n: nat, q: Request)
    requires |worlds| == |events| + 1 && n < |events| && Truthful(worlds, events, n, q)
    requires q.job.Some? && q.firstStarted.None? ==> !StartedAt(worlds, events, n, q.job.value)
    ensures Truthful(worlds, events, n + 1, q)
  {
    hide Starts, StartedAt, Enqueued;
    if q.job.Some? {
      var i: nat :| i < n && Enqueued(worlds, i, q.job.value) && q.created == worlds[i].now;
      if q.firstStarted.Some? {
        var k: nat :| FirstStart(worlds, events, k, n, q.job.value) && q.firstStarted.value == worlds[k].now;
        assert FirstStart(worlds, events, k, n + 1, q.job.value);
      }
    }
  }

  lemma TruthfulStep(cap: nat, worlds: seq<World>, events: seq<Event>, n: nat, r: RequestId)
    requires IsRun(cap, worlds, events) && n < |events| && r in worlds[n + 1].db.requests
    requires forall q <- worlds[n].db.requests :: Truthful(worlds, events, n, worlds[n].db.requests[q])
    ensures Truthful(worlds, events, n + 1, worlds[n + 1].db.requests[r])
  {
    hide Next, Initial, Starts, Truthful, Linked, Reservations, Objects, Stored, Lists, Storage, Aggregates;
    var w, v, q := worlds[n], worlds[n + 1], worlds[n + 1].db.requests[r];
    AllNamed(cap, worlds, events, n);
    Reachable(cap, worlds, events, n);
    DatesStep(w, events[n].policy, events[n].action, v, r);
    if SameDates(w.db, v.db, r) {
      SameTruth(worlds, events, n, w.db.requests[r], q);
      if !(q.job.Some? && q.firstStarted.None? && StartedAt(worlds, events, n, q.job.value)) { Extend(worlds, events, n, q); }
    } else if Admitted(w.db, v.db, w.now, r) {
      NotBefore(cap, worlds, events, n, q.job.value);
      StartsKnown(w, events[n].policy, events[n].action, v, q.job.value);
      AdmittedTruth(worlds, events, n, q);
    } else {
      StartedTruth(worlds, events, n, w.db.requests[r], q);
    }
  }

  lemma SameTruth(worlds: seq<World>, events: seq<Event>, n: nat, q: Request, t: Request)
    requires |worlds| == |events| + 1 && Truthful(worlds, events, n, q)
    requires t.job == q.job && t.created == q.created && t.firstStarted == q.firstStarted
    ensures Truthful(worlds, events, n, t)
  {
  }

  lemma AdmittedTruth(worlds: seq<World>, events: seq<Event>, n: nat, q: Request)
    requires |worlds| == |events| + 1 && n < |events| && q.job.Some? && Enqueued(worlds, n, q.job.value)
    requires q.created == worlds[n].now && q.firstStarted.None?
    requires NotStarted(worlds, events, n, q.job.value) && !StartedAt(worlds, events, n, q.job.value)
    ensures Truthful(worlds, events, n + 1, q)
  {
    hide Starts, StartedAt, Enqueued;
  }

  lemma StartedTruth(worlds: seq<World>, events: seq<Event>, n: nat, q: Request, t: Request)
    requires |worlds| == |events| + 1 && n < |events| && Truthful(worlds, events, n, q) && q.job.Some?
    requires StartedAt(worlds, events, n, q.job.value) && t.job == q.job && t.created == q.created
    requires t.firstStarted == if q.firstStarted.Some? then q.firstStarted else Some(worlds[n].now)
    ensures Truthful(worlds, events, n + 1, t)
  {
    hide Starts, StartedAt, Enqueued;
    var i: nat :| i < n && Enqueued(worlds, i, q.job.value) && q.created == worlds[i].now;
    if q.firstStarted.Some? {
      var k: nat :| FirstStart(worlds, events, k, n, q.job.value) && q.firstStarted.value == worlds[k].now;
      assert FirstStart(worlds, events, k, n + 1, q.job.value);
    } else {
      assert FirstStart(worlds, events, n, n + 1, q.job.value);
    }
  }

  lemma {:induction false} AllTruthful(cap: nat, worlds: seq<World>, events: seq<Event>, n: nat)
    requires IsRun(cap, worlds, events) && n < |worlds|
    ensures forall r <- worlds[n].db.requests :: Truthful(worlds, events, n, worlds[n].db.requests[r])
  {
    hide Next, Truthful;
    if n > 0 {
      AllTruthful(cap, worlds, events, n - 1);
      forall r <- worlds[n].db.requests ensures Truthful(worlds, events, n, worlds[n].db.requests[r]) {
        TruthfulStep(cap, worlds, events, n - 1, r);
      }
    }
  }

  // ------------------------------------------------------------------------ deadlines

  /** Job j may start at event n: for the first time within the queue's age limit since it was made,
      again within five minutes of its first start. */
  ghost predicate InTime(worlds: seq<World>, events: seq<Event>, n: nat, j: JobId, queueAge: nat)
    requires |worlds| == |events| + 1 && n < |worlds|
  {
    || (NotStarted(worlds, events, n, j) && exists i: nat :: i < n && Enqueued(worlds, i, j) && worlds[n].now <= worlds[i].now + queueAge)
    || (exists k: nat :: FirstStart(worlds, events, k, n, j) && worlds[n].now <= worlds[k].now + 300)
  }

  lemma EnqueuedOnce(cap: nat, worlds: seq<World>, events: seq<Event>, i: nat, k: nat, j: JobId)
    requires IsRun(cap, worlds, events) && Enqueued(worlds, i, j) && Enqueued(worlds, k, j)
    ensures i == k
  {
    hide Next, Initial;
    if i < k { RunHistory(cap, worlds, events, i + 1, k); }
    if k < i { RunHistory(cap, worlds, events, k + 1, i); }
  }

  /** The dates decide exactly as the history does. */
  lemma DatesDecide(cap: nat, worlds: seq<World>, events: seq<Event>, n: nat, q: Request, queueAge: nat)
    requires IsRun(cap, worlds, events) && n < |worlds| && q.job.Some? && Truthful(worlds, events, n, q)
    ensures InTime(worlds, events, n, q.job.value, queueAge)
      <==> if q.firstStarted.None? then worlds[n].now <= q.created + queueAge else worlds[n].now <= q.firstStarted.value + 300
  {
    hide Next, Initial, Starts, StartedAt, Enqueued;
    var j := q.job.value;
    var i: nat :| i < n && Enqueued(worlds, i, j) && q.created == worlds[i].now;
    forall m: nat | m < n && Enqueued(worlds, m, j) ensures worlds[m].now == q.created { EnqueuedOnce(cap, worlds, events, i, m, j); }
    if q.firstStarted.Some? {
      var k: nat :| FirstStart(worlds, events, k, n, j) && q.firstStarted.value == worlds[k].now;
      assert !NotStarted(worlds, events, n, j);
      forall m: nat | FirstStart(worlds, events, m, n, j) ensures m == k {
        assert !(m < k) && !(k < m);
      }
    }
  }

  /** Main result: an attempt that is not refused is started exactly when it is in time, counted from
      the admission of its job and from the job's first start; otherwise the request expires. */
  lemma StartsInTime(cap: nat, worlds: seq<World>, events: seq<Event>, n: nat, p: Policy, j: JobId, number: nat)
    requires IsRun(cap, worlds, events) && n < |worlds| && !Begin(worlds[n].db, p, worlds[n].now, j, number).Refused?
    ensures Begin(worlds[n].db, p, worlds[n].now, j, number).Started? <==> InTime(worlds, events, n, j, p.queueAge)
  {
    hide Next, Initial, InTime, Truthful, HasLiveInterest;
    AllTruthful(cap, worlds, events, n);
    var r := worlds[n].db.jobs[j].request;
    DatesDecide(cap, worlds, events, n, worlds[n].db.requests[r], p.queueAge);
  }

  // ------------------------------------------------------------------------ outcomes

  /** What the outcome of a request says: queued means never started, running means started, and
      ready means that its job has completed. */
  ghost predicate Honest(db: Db) {
    forall r <- db.requests :: HonestRow(db, db.requests[r])
  }

  ghost predicate HonestRow(db: Db, q: Request) {
    && (q.outcome.WasQueued? ==> q.firstStarted.None?) && (q.outcome.WasRunning? ==> q.firstStarted.Some?)
    && (q.outcome.WasReady? ==> q.job.Some? && (q.job.value in db.jobs ==> db.jobs[q.job.value].state == Completed))
  }

  /** Why the outcome of r is another one now. */
  ghost predicate Caused(w: World, a: Action, v: World, r: RequestId)
    requires r in v.db.requests
  {
    match v.db.requests[r].outcome
    case WasQueued => a.WriteW? && Admitted(w.db, v.db, w.now, r)
    case WasRunning => StartsRow(w, a, v, r)
    case WasReady => a.CompleteA? && a.g in w.attempts && w.attempts[a.g].request == r && Owns(w.db, r, a.g)
    case WasExpired => a.BeginA? && a.job in w.db.jobs && w.db.jobs[a.job].request == r && v.attempts == w.attempts
    case WasFailed =>
      (a.TerminalA? && a.g in w.attempts && w.attempts[a.g].request == r && Owns(w.db, r, a.g)) || a.MaintainA? || a.WriteW?
    case WasCancelled => a.WriteW? || a.MaintainA?
  }

  /** The outcome of a request changes only for its reason; a failure or success of an attempt counts
      only while the attempt owns the request. */
  lemma OutcomeStep(w: World, p: Policy, a: Action, v: World, r: RequestId)
    requires Next(w, p, a) == Some(v) && r in v.db.requests && forall g <- w.attempts :: g < w.db.nextGeneration
    ensures
      || (r in w.db.requests && v.db.requests[r].outcome == w.db.requests[r].outcome)
      || Caused(w, a, v, r)
      || (a.WriteW? && Admitted(w.db, v.db, w.now, r))
  {
    match a
    case WriteW(id, ops, clear, samples, size, order) => WriteCause(w, p, a, v, r);
    case MaintainA(picks) => MaintainCause(w, p, picks, v, r);
    case BeginA(j, number) => BeginCause(w, p, j, number, v, r);
    case _ => OtherCause(w, p, a, v, r);
  }

  lemma WriteCause(w: World, p: Policy, a: Action, v: World, r: RequestId)
    requires Next(w, p, a) == Some(v) && a.WriteW? && r in v.db.requests
    ensures (r in w.db.requests && v.db.requests[r].outcome == w.db.requests[r].outcome) || Caused(w, a, v, r) || Admitted(w.db, v.db, w.now, r)
  {
    hide Write;
    WriteDated(w.db, p, w.now, a.w, a.ops, a.clear, a.samples, a.size, a.order);
  }

  lemma MaintainCause(w: World, p: Policy, picks: Picks, v: World, r: RequestId)
    requires Next(w, p, MaintainA(picks)) == Some(v) && r in v.db.requests
    ensures (r in w.db.requests && v.db.requests[r].outcome == w.db.requests[r].outcome) || Caused(w, MaintainA(picks), v, r)
  {
    hide Maintain;
    MaintainedWorld(w, p, MaintainA(picks), v);
    MaintainDated(w.db, w.now, picks);
    MaintainJobs(w.db, w.now, picks);
  }

  lemma MaintainJobs(db: Db, now: Time, picks: Picks)
    requires Maintain(db, now, picks).Some?
    ensures Maintain(db, now, picks).value.nextJob == db.nextJob
  {
    CancelAllJobs(db, picks.lapsed);
  }

  lemma {:induction false} CancelAllJobs(db: Db, pairs: seq<(WorkspaceId, RequestId)>)
    ensures CancelAll(db, pairs).nextJob == db.nextJob
    decreases |pairs|
  {
    if pairs != [] { CancelAllJobs(CancelOne(db, pairs[0].0, pairs[0].1), pairs[1..]); }
  }

  lemma BeginCause(w: World, p: Policy, j: JobId, number: nat, v: World, r: RequestId)
    requires Next(w, p, BeginA(j, number)) == Some(v) && r in v.db.requests && forall g <- w.attempts :: g < w.db.nextGeneration
    ensures (r in w.db.requests && v.db.requests[r].outcome == w.db.requests[r].outcome) || Caused(w, BeginA(j, number), v, r)
  {
    hide HasLiveInterest;
    assert w.db.nextGeneration !in w.attempts;
  }

  lemma OtherCause(w: World, p: Policy, a: Action, v: World, r: RequestId)
    requires Next(w, p, a) == Some(v) && r in v.db.requests && !a.BeginA? && !a.WriteW? && !a.MaintainA?
    ensures (r in w.db.requests && v.db.requests[r].outcome == w.db.requests[r].outcome) || Caused(w, a, v, r)
  {
    hide Reserve, Promote, HasLiveInterest;
    if a.ReserveA? { ReserveFrame(w.db, w.now, w.attempts[a.g].job, KeyOf(w.attempts[a.g], a.g), a.image.size); }
  }

  lemma HonestStep(w: World, p: Policy, a: Action, v: World)
    requires Next(w, p, a) == Some(v) && Honest(w.db) && Named(w.db) && References(w.db) && forall g <- w.attempts :: g < w.db.nextGeneration
    ensures Honest(v.db)
  {
    hide Next, Starts;
    forall r <- v.db.requests ensures HonestRow(v.db, v.db.requests[r]) {
      DatesStep(w, p, a, v, r);
      OutcomeStep(w, p, a, v, r);
      if a.CompleteA? { CompletedJob(w, p, a.g, v); }
    }
  }

  lemma CompletedJob(w: World, p: Policy, g: Generation, v: World)
    requires Next(w, p, CompleteA(g)) == Some(v)
    ensures g in w.attempts
    ensures var t := w.attempts[g];
      t.request in v.db.requests && v.db.requests[t.request].job == Some(t.job) && t.job in v.db.jobs && v.db.jobs[t.job].state == Completed
  {
  }

  /** Main result: in every reachable state the outcomes of requests tell the truth. */
  lemma {:induction false} OutcomesHonest(cap: nat, worlds: seq<World>, events: seq<Event>, n: nat)
    requires IsRun(cap, worlds, events) && n < |worlds|
    ensures Honest(worlds[n].db)
  {
    hide Next, Linked, Reservations, Objects, Stored, Lists, Storage, Aggregates, HonestRow;
    if n > 0 {
      OutcomesHonest(cap, worlds, events, n - 1);
      Reachable(cap, worlds, events, n - 1);
      AllNamed(cap, worlds, events, n - 1);
      HonestStep(worlds[n - 1], events[n - 1].policy, events[n - 1].action, worlds[n]);
    }
  }
}
