/** Consequences over whole runs: safety in every reachable state, fencing, single publication. */
module ProtocolRuns {
  import opened Basics
  import opened Tables
  import opened Protocol
  import opened ProtocolInvariants
  import PublicationSafety
  import QueueSafety

  /** One event: an action performed by a process of the release described by `policy`. */
  datatype Event = Event(policy: Policy, action: Action)

  ghost predicate IsRun(cap: nat, worlds: seq<World>, events: seq<Event>) {
    && |worlds| == |events| + 1
    && Initial(worlds[0])
    && (forall i | 0 <= i < |events| :: events[i].policy.outstanding <= cap
          && Next(worlds[i], events[i].policy, events[i].action) == Some(worlds[i + 1]))
  }

  lemma InitialInv(w: World, cap: nat)
    requires Initial(w)
    ensures Inv(w, cap)
  {
    assert forall r: RequestId :: Subscribers(w.db.interests, r) == {};
    assert ActiveJobs(w.db.jobs) == {};
    assert Sizes(w.db.workspaces) == map[] && Accounted(w.db.uploads) == map[];
  }

  /** Main result: every state of every run satisfies the invariant. */
  lemma {:induction false} Reachable(cap: nat, worlds: seq<World>, events: seq<Event>, i: nat)
    requires IsRun(cap, worlds, events) && i < |worlds|
    ensures Inv(worlds[i], cap)
  {
    hide Next, Initial, Publication, Queue, Storage, Aggregates;
    if i == 0 {
      InitialInv(worlds[0], cap);
    } else {
      Reachable(cap, worlds, events, i - 1);
      var e := events[i - 1];
      PublicationSafety.PublicationPreserved(worlds[i - 1], e.policy, e.action, worlds[i]);
      QueueSafety.QueuePreserved(worlds[i - 1], cap, e.policy, e.action, worlds[i]);
    }
  }

  /** In every reachable state published uploads are exactly the keys artifacts point at, and
      an artifact's object holds the bytes its digest and size describe. */
  lemma PublishedExactly(cap: nat, worlds: seq<World>, events: seq<Event>, i: nat, r: RequestId, k: Key)
    requires IsRun(cap, worlds, events) && i < |worlds|
    ensures var db := worlds[i].db;
      (r in db.artifacts && db.artifacts[r].key == k)
      <==> (k in db.uploads && db.uploads[k].state == Published && db.uploads[k].request == r)
    ensures r in worlds[i].db.artifacts ==> var a := worlds[i].db.artifacts[r];
      a.key in worlds[i].bucket && worlds[i].bucket[a.key] == Image(a.digest, a.size)
  {
    Reachable(cap, worlds, events, i);
  }

  /** One event of a run, between states that satisfy the invariant. */
  lemma StepAt(cap: nat, worlds: seq<World>, events: seq<Event>, i: nat)
    requires IsRun(cap, worlds, events) && i < |events|
    ensures Next(worlds[i], events[i].policy, events[i].action) == Some(worlds[i + 1])
    ensures Publication(worlds[i]) && References(worlds[i].db)
  {
    Reachable(cap, worlds, events, i);
  }

  lemma StepRetains(w: World, p: Policy, a: Action, v: World, k: Key)
    requires Publication(w) && Next(w, p, a) == Some(v) && Retired(w, k)
    ensures Retired(v, k)
  {
    PublicationSafety.PublicationPreserved(w, p, a, v);
  }

  lemma RetiredUnlinked(w: World, k: Key)
    requires Publication(w)
    ensures k in w.db.uploads && w.db.uploads[k].state == Deleting ==> Retired(w, k)
    ensures Retired(w, k) ==> forall r <- w.db.artifacts :: w.db.artifacts[r].key != k
  {
  }

  lemma {:induction false} RetiredChain(worlds: seq<World>, i: nat, j: nat, k: Key)
    requires i <= j < |worlds| && Retired(worlds[i], k)
    requires forall n | 0 <= n < |worlds| - 1 :: Retired(worlds[n], k) ==> Retired(worlds[n + 1], k)
    ensures Retired(worlds[j], k)
    decreases j - i
  {
    if i < j { RetiredChain(worlds, i, j - 1, k); }
  }

  lemma RetiredForever(cap: nat, worlds: seq<World>, events: seq<Event>, i: nat, j: nat, k: Key)
    requires IsRun(cap, worlds, events) && i <= j < |worlds| && Retired(worlds[i], k)
    ensures Retired(worlds[j], k)
  {
    forall n | 0 <= n < |worlds| - 1 && Retired(worlds[n], k) ensures Retired(worlds[n + 1], k) {
      StepAt(cap, worlds, events, n);
      StepRetains(worlds[n], events[n].policy, events[n].action, worlds[n + 1], k);
    }
    RetiredChain(worlds, i, j, k);
  }

  /** Once an upload is marked deleting, its key is never published again. */
  lemma DeletingForever(cap: nat, worlds: seq<World>, events: seq<Event>, i: nat, j: nat, k: Key)
    requires IsRun(cap, worlds, events) && i <= j < |worlds|
    requires k in worlds[i].db.uploads && worlds[i].db.uploads[k].state == Deleting
    ensures k in worlds[j].db.uploads ==> worlds[j].db.uploads[k].state == Deleting
    ensures forall r <- worlds[j].db.artifacts :: worlds[j].db.artifacts[r].key != k
  {
    Reachable(cap, worlds, events, i);
    RetiredUnlinked(worlds[i], k);
    RetiredForever(cap, worlds, events, i, j, k);
    Reachable(cap, worlds, events, j);
    RetiredUnlinked(worlds[j], k);
  }

  /** The storage and queue bounds of every reachable state. */
  lemma BoundsEverywhere(cap: nat, worlds: seq<World>, events: seq<Event>, i: nat, r: RequestId)
    requires IsRun(cap, worlds, events) && i < |worlds|
    ensures var db := worlds[i].db;
      && |ActiveJobs(db.jobs)| <= cap
      && |Subscribers(db.interests, r)| <= 24
      && Total(Accounted(db.uploads)) <= 0x8000_0000 && |Accounted(db.uploads)| <= 5000
      && Total(Sizes(db.workspaces)) <= 67108864 && |db.workspaces| <= 1000
  {
    Reachable(cap, worlds, events, i);
  }

  /** After every committed write, and whatever else happens, a workspace's pins are exactly its
      favourite samples with jobs, and every interest belongs to a retained sample. */
  lemma PinsAndInterests(cap: nat, worlds: seq<World>, events: seq<Event>, i: nat, w: WorkspaceId, id: SampleId, r: RequestId)
    requires IsRun(cap, worlds, events) && i < |worlds| && w in worlds[i].db.workspaces
    ensures var db := worlds[i].db; var samples := db.workspaces[w].samples;
      && ((w, id) in db.pins && db.pins[(w, id)] == r <==> exists s <- samples :: s.id == id && s.favourite && s.job == Some(r))
      && ((w, r) in db.interests ==> exists s <- samples :: s.job == Some(r) || s.download == Some(r))
  {
    hide Next, Initial;
    Reachable(cap, worlds, events, i);
    FaithfulRows(worlds[i].db, w, id, r);
  }

  lemma FaithfulRows(db: Db, w: WorkspaceId, id: SampleId, r: RequestId)
    requires w in db.workspaces && Faithful(db, w)
    ensures var samples := db.workspaces[w].samples;
      && ((w, id) in db.pins && db.pins[(w, id)] == r <==> exists s <- samples :: s.id == id && s.favourite && s.job == Some(r))
      && ((w, r) in db.interests ==> exists s <- samples :: s.job == Some(r) || s.download == Some(r))
  {
    var samples := db.workspaces[w].samples;
    var rows := PinRows(w, samples);
    assert (w, id) in PinsOf(db.pins, w) <==> (w, id) in db.pins;
    if (w, id) in db.pins && db.pins[(w, id)] == r {
      assert (w, id) in rows && rows[(w, id)] == r;
      var s :| s in samples && Pinned(s) && (w, s.id) == (w, id);
    }
    if s :| s in samples && s.id == id && s.favourite && s.job == Some(r) {
      assert Pinned(s) && (w, id) in rows && rows[(w, id)] == r;
    }
    if (w, r) in db.interests { assert r !in Obsolete(db.interests, w, samples); }
  }

  /** Every active job is its request's current job and carries the current epoch and build. */
  lemma ActiveJobsCurrent(cap: nat, worlds: seq<World>, events: seq<Event>, i: nat, j: JobId)
    requires IsRun(cap, worlds, events) && i < |worlds|
    requires j in worlds[i].db.jobs && Active(worlds[i].db.jobs[j].state)
    ensures var db := worlds[i].db; var r := db.jobs[j].request;
      r in db.requests && db.requests[r].job == Some(j)
      && db.requests[r].epoch == db.control.epoch && r.build == db.control.build
  {
    Reachable(cap, worlds, events, i);
  }

  // ------------------------------------------------------------------- history

  /** Some workspace is interested in r. */
  ghost predicate Wanted(db: Db, r: RequestId) { Subscribers(db.interests, r) != {} }

  /** Request rows keep their job, epoch and some interest while they keep their generation,
      generations are replaced by fresh ones only, finished jobs stay finished, and neither a job's
      attempt number nor the epoch ever falls. */
  ghost predicate History(db: Db, d: Db) {
    && db.nextGeneration <= d.nextGeneration && db.nextJob <= d.nextJob && db.control.epoch <= d.control.epoch
    && (forall r <- d.requests :: d.requests[r].generation >= db.nextGeneration
          || (r in db.requests && d.requests[r].generation == db.requests[r].generation
              && d.requests[r].job == db.requests[r].job && d.requests[r].epoch == db.requests[r].epoch
              && (Wanted(db, r) ==> Wanted(d, r))))
    && (forall j <- d.jobs :: j >= db.nextJob
          || (j in db.jobs && d.jobs[j].request == db.jobs[j].request && d.jobs[j].attempt >= db.jobs[j].attempt
              && (Active(d.jobs[j].state) ==> Active(db.jobs[j].state))))
  }

  lemma HistoryChain(a: Db, b: Db, c: Db)
    requires History(a, b) && History(b, c)
    ensures History(a, c)
  {
  }

  lemma CancelHistory(db: Db, w: WorkspaceId, r: RequestId)
    ensures History(db, CancelOne(db, w, r))
  {
    var d := CancelOne(db, w, r);
    assert Subscribers(d.interests, r) == Others(db, w, r);
    forall q: RequestId | q != r ensures Subscribers(d.interests, q) == Subscribers(db.interests, q) {}
  }

  lemma {:induction false} CancelAllHistory(db: Db, pairs: seq<(WorkspaceId, RequestId)>)
    ensures History(db, CancelAll(db, pairs))
    decreases |pairs|
  {
    if pairs != [] {
      var d := CancelOne(db, pairs[0].0, pairs[0].1);
      CancelHistory(db, pairs[0].0, pairs[0].1);
      CancelAllHistory(d, pairs[1..]);
      HistoryChain(db, d, CancelAll(d, pairs[1..]));
    }
  }

  lemma AdmitHistory(db: Db, p: Policy, now: Time, w: WorkspaceId, r: RequestId)
    requires AdmitOne(db, p, now, w, r).Some?
    ensures History(db, AdmitOne(db, p, now, w, r).value)
  {
    hide History, Enqueue, Subscribe;
    SubscribeHistory(db, w, r);
    EnqueueHistory(db, now, r);
    SubscribeHistory(Enqueue(db, now, r), w, r);
    HistoryChain(db, Enqueue(db, now, r), Subscribe(Enqueue(db, now, r), w, r));
  }

  lemma SubscribeHistory(db: Db, w: WorkspaceId, r: RequestId)
    ensures History(db, Subscribe(db, w, r))
  {
  }

  lemma EnqueueHistory(db: Db, now: Time, r: RequestId)
    ensures History(db, Enqueue(db, now, r))
  {
  }

  lemma {:induction false} OperateHistory(db: Db, p: Policy, now: Time, w: WorkspaceId, ops: seq<QueueOp>)
    requires Operate(db, p, now, w, ops).Some?
    ensures History(db, Operate(db, p, now, w, ops).value)
    decreases |ops|
  {
    if ops != [] {
      var d := match ops[0]
        case Admit(r) => AdmitOne(db, p, now, w, r).value
        case Cancel(r) => CancelOne(db, w, r);
      match ops[0] {
        case Admit(r) => AdmitHistory(db, p, now, w, r);
        case Cancel(r) => CancelHistory(db, w, r);
      }
      OperateHistory(d, p, now, w, ops[1..]);
      HistoryChain(db, d, Operate(d, p, now, w, ops[1..]).value);
    }
  }

  lemma SaveHistory(db: Db, w: WorkspaceId, expires: Time, samples: set<Sample>, size: nat, order: seq<RequestId>)
    requires w in db.workspaces && SaveWorkspace(db, w, expires, samples, size, order).Some?
    ensures History(db, SaveWorkspace(db, w, expires, samples, size, order).value)
  {
    var m := QueueSafety.Saved(db, w, expires, samples, size);
    CancelAllHistory(m, PairWith(w, order));
    HistoryChain(db, m, CancelAll(m, PairWith(w, order)));
  }

  lemma WriteHistory(db: Db, p: Policy, now: Time, w: WorkspaceId, ops: seq<QueueOp>,
                     clear: bool, samples: set<Sample>, size: nat, order: seq<RequestId>)
    requires Write(db, p, now, w, ops, clear, samples, size, order).Some?
    ensures History(db, Write(db, p, now, w, ops, clear, samples, size, order).value)
  {
    OperateHistory(db, p, now, w, ops);
    var m := Operate(db, p, now, w, ops).value;
    SaveHistory(m, w, if clear then now else db.workspaces[w].expires, if clear then {} else samples, size, order);
    HistoryChain(db, m, Write(db, p, now, w, ops, clear, samples, size, order).value);
  }

  lemma LapseHistory(db: Db, now: Time, picks: Picks)
    requires Lapse(db, now, picks).Some?
    ensures History(db, Lapse(db, now, picks).value)
  {
    CancelAllHistory(db, picks.lapsed);
    HistoryChain(db, CancelAll(db, picks.lapsed), Lapse(db, now, picks).value);
  }

  lemma MaintainHistory(db: Db, now: Time, picks: Picks)
    requires Maintain(db, now, picks).Some?
    ensures History(db, Maintain(db, now, picks).value)
  {
    hide History, Lapse, Expire, SettleOutcomes;
    var d := Lapse(db, now, picks).value;
    LapseHistory(db, now, picks);
    SettleHistory(d);
    ExpireHistory(SettleOutcomes(d), now, picks);
    HistoryChain(db, d, SettleOutcomes(d));
    HistoryChain(db, SettleOutcomes(d), Maintain(db, now, picks).value);
  }

  lemma SettleHistory(db: Db)
    ensures History(db, SettleOutcomes(db))
  {
    hide Wanted;
    forall r <- db.requests ensures Wanted(db, r) == Wanted(SettleOutcomes(db), r) { SameWanted(db, SettleOutcomes(db), r); }
  }

  lemma ExpireHistory(db: Db, now: Time, picks: Picks)
    requires Expire(db, now, picks).Some?
    ensures History(db, Expire(db, now, picks).value)
  {
    hide Wanted, PinlessExpired, Collectable;
    var d := Expire(db, now, picks).value;
    forall r <- db.requests ensures Wanted(db, r) == Wanted(d, r) { SameWanted(db, d, r); }
  }

  lemma SameWanted(db: Db, d: Db, r: RequestId)
    requires d.interests == db.interests
    ensures Wanted(db, r) == Wanted(d, r)
  {
  }

  lemma CompleteHistory(db: Db, now: Time, j: JobId, number: nat, epoch: nat, k: Key, image: Image)
    requires References(db) && Complete(db, now, j, number, epoch, k, image).Some?
    ensures History(db, Complete(db, now, j, number, epoch, k, image).value)
  {
  }

  lemma ReserveHistory(db: Db, now: Time, j: JobId, k: Key, size: nat)
    requires References(db) && Reserve(db, now, j, k, size).Some?
    ensures History(db, Reserve(db, now, j, k, size).value)
  {
  }

  lemma CleanupHistory(db: Db, now: Time, r: RequestId, k: Key)
    requires References(db)
    ensures History(db, Missing(db, now, r, k)) && History(db, MarkDeleted(db, now, k))
  {
  }

  lemma WorkerHistory(w: World, p: Policy, a: Action, v: World)
    requires References(w.db) && Next(w, p, a) == Some(v)
    requires a.CompleteA? || a.ReserveA? || a.MissingA? || a.MarkA?
    ensures History(w.db, v.db)
  {
    hide History, Complete, Reserve, Missing, MarkDeleted;
    match a
    case CompleteA(g) =>
      var t := w.attempts[g];
      CompleteHistory(w.db, w.now, t.job, t.number, t.epoch, KeyOf(t, g), t.image);
    case ReserveA(g, image) => ReserveHistory(w.db, w.now, w.attempts[g].job, KeyOf(w.attempts[g], g), image.size);
    case MissingA(r, k) => CleanupHistory(w.db, w.now, r, k);
    case MarkA(k) => CleanupHistory(w.db, w.now, k.request, k);
  }

  lemma BeginHistory(db: Db, p: Policy, now: Time, j: JobId, number: nat)
    requires References(db)
    ensures match Begin(db, p, now, j, number)
      case Refused => true
      case Expired(d) => History(db, d)
      case Started(d) => History(db, d)
  {
  }

  lemma TerminalHistory(db: Db, r: RequestId, g: Generation)
    requires References(db)
    ensures History(db, Terminal(db, r, g))
  {
  }

  lemma AttemptHistory(w: World, p: Policy, a: Action, v: World)
    requires References(w.db) && Next(w, p, a) == Some(v) && (a.BeginA? || a.TerminalA?)
    ensures History(w.db, v.db)
  {
    hide History, Begin, Terminal;
    match a
    case BeginA(j, number) => BeginHistory(w.db, p, w.now, j, number);
    case TerminalA(g) => TerminalHistory(w.db, w.attempts[g].request, g);
  }

  lemma StepHistory(w: World, p: Policy, a: Action, v: World)
    requires References(w.db) && Next(w, p, a) == Some(v)
    ensures History(w.db, v.db)
  {
    if a.WriteW? {
      WriteHistory(w.db, p, w.now, a.w, a.ops, a.clear, a.samples, a.size, a.order);
    } else if a.MaintainA? {
      MaintainHistory(w.db, w.now, a.picks);
    } else if a.BeginA? || a.TerminalA? {
      AttemptHistory(w, p, a, v);
    } else if a.CompleteA? || a.ReserveA? || a.MissingA? || a.MarkA? {
      WorkerHistory(w, p, a, v);
    }
  }

  lemma {:induction false} ChainHistory(worlds: seq<World>, i: nat, j: nat)
    requires i <= j < |worlds|
    requires forall n | 0 <= n < |worlds| - 1 :: History(worlds[n].db, worlds[n + 1].db)
    requires forall n | 0 <= n < |worlds| :: History(worlds[n].db, worlds[n].db)
    ensures History(worlds[i].db, worlds[j].db)
    decreases j - i
  {
    if i < j {
      ChainHistory(worlds, i, j - 1);
      HistoryChain(worlds[i].db, worlds[j - 1].db, worlds[j].db);
    }
  }

  lemma RunHistory(cap: nat, worlds: seq<World>, events: seq<Event>, i: nat, j: nat)
    requires IsRun(cap, worlds, events) && i <= j < |worlds|
    ensures History(worlds[i].db, worlds[j].db)
  {
    forall n | 0 <= n < |worlds| ensures History(worlds[n].db, worlds[n].db) {
      Reachable(cap, worlds, events, n);
    }
    forall n | 0 <= n < |worlds| - 1 ensures History(worlds[n].db, worlds[n + 1].db) {
      StepAt(cap, worlds, events, n);
      StepHistory(worlds[n], events[n].policy, events[n].action, worlds[n + 1]);
    }
    ChainHistory(worlds, i, j);
  }

  // ------------------------------------------------------------------- fencing

  ghost predicate Owns(db: Db, r: RequestId, g: Generation) {
    r in db.requests && db.requests[r].generation == g
  }

  /** A generation that a request has lost is lost for good. */
  lemma LostForever(cap: nat, worlds: seq<World>, events: seq<Event>, i: nat, j: nat, r: RequestId, g: Generation)
    requires IsRun(cap, worlds, events) && i <= j < |worlds|
    requires g < worlds[i].db.nextGeneration
    ensures !Owns(worlds[i].db, r, g) ==> !Owns(worlds[j].db, r, g)
  {
    RunHistory(cap, worlds, events, i, j);
  }

  /** Main result: a request that nobody is interested in any more has lost the generation it had
      before the last interest was dropped, and never gets it back. */
  lemma DroppedForever(cap: nat, worlds: seq<World>, events: seq<Event>, i: nat, j: nat, k: nat, r: RequestId, g: Generation)
    requires IsRun(cap, worlds, events) && i <= j <= k < |worlds|
    requires Owns(worlds[i].db, r, g) && Wanted(worlds[i].db, r) && !Wanted(worlds[j].db, r)
    ensures !Owns(worlds[k].db, r, g)
  {
    hide Wanted;
    Reachable(cap, worlds, events, i);
    RunHistory(cap, worlds, events, i, j);
    LostForever(cap, worlds, events, j, k, r, g);
  }

  /** Attempts keep their identity once begun. */
  ghost predicate SameAttempt(w: World, v: World, g: Generation) {
    g in w.attempts ==> (g in v.attempts && v.attempts[g].job == w.attempts[g].job
      && v.attempts[g].request == w.attempts[g].request && v.attempts[g].epoch == w.attempts[g].epoch
      && v.attempts[g].number == w.attempts[g].number)
  }

  lemma StepAttempt(w: World, p: Policy, a: Action, v: World, g: Generation)
    requires Next(w, p, a) == Some(v) && forall h <- w.attempts :: h < w.db.nextGeneration
    ensures SameAttempt(w, v, g)
  {
    hide Next, SameAttempt;
    match a
    case BeginA(j, number) => BeginSame(w, p, j, number, v, g);
    case ReserveA(h, image) => ReserveSame(w, p, h, image, v, g);
    case _ => OtherSame(w, p, a, v, g);
  }

  lemma BeginSame(w: World, p: Policy, j: JobId, number: nat, v: World, g: Generation)
    requires Next(w, p, BeginA(j, number)) == Some(v) && forall h <- w.attempts :: h < w.db.nextGeneration
    ensures SameAttempt(w, v, g)
  {
    hide Begin;
  }

  lemma OtherSame(w: World, p: Policy, a: Action, v: World, g: Generation)
    requires Next(w, p, a) == Some(v) && !a.BeginA? && !a.ReserveA?
    ensures SameAttempt(w, v, g)
  {
    hide Write, Maintain, Touch, CreateWorkspace, Activate, Enable, Missing, MarkDeleted, Terminal, Complete;
  }

  lemma ReserveSame(w: World, p: Policy, h: Generation, image: Image, v: World, g: Generation)
    requires Next(w, p, ReserveA(h, image)) == Some(v)
    ensures SameAttempt(w, v, g)
  {
  }

  lemma {:induction false} AttemptChain(worlds: seq<World>, i: nat, j: nat, g: Generation)
    requires i <= j < |worlds|
    requires forall n | 0 <= n < |worlds| - 1 :: SameAttempt(worlds[n], worlds[n + 1], g)
    ensures SameAttempt(worlds[i], worlds[j], g)
    decreases j - i
  {
    if i < j { AttemptChain(worlds, i, j - 1, g); }
  }

  lemma AttemptStays(cap: nat, worlds: seq<World>, events: seq<Event>, i: nat, j: nat, g: Generation)
    requires IsRun(cap, worlds, events) && i <= j < |worlds|
    ensures SameAttempt(worlds[i], worlds[j], g)
  {
    forall n | 0 <= n < |worlds| - 1 ensures SameAttempt(worlds[n], worlds[n + 1], g) {
      StepAt(cap, worlds, events, n);
      StepAttempt(worlds[n], events[n].policy, events[n].action, worlds[n + 1], g);
    }
    AttemptChain(worlds, i, j, g);
  }

  /** Event i began the attempt named g. */
  ghost predicate Begins(worlds: seq<World>, events: seq<Event>, i: nat, g: Generation)
    requires |worlds| == |events| + 1 && i < |events|
  {
    events[i].action.BeginA? && g !in worlds[i].attempts && g in worlds[i + 1].attempts
  }

  lemma BeginFacts(w: World, p: Policy, a: Action, v: World, g: Generation)
    requires Next(w, p, a) == Some(v) && a.BeginA? && g !in w.attempts && g in v.attempts
    ensures v.db.control == w.db.control && v.attempts[g].epoch == w.db.control.epoch
    ensures g < v.db.nextGeneration && Owns(v.db, v.attempts[g].request, g)
    ensures HasLiveInterest(w.db, w.now, v.attempts[g].request) && Wanted(v.db, v.attempts[g].request)
  {
    LiveWanted(w.db, w.now, v.attempts[g].request);
  }

  lemma LiveWanted(db: Db, now: Time, r: RequestId)
    requires HasLiveInterest(db, now, r)
    ensures Wanted(db, r)
  {
    var i :| i in db.interests && i.1 == r && LiveWorkspace(db, now, i.0);
    assert i.0 in Subscribers(db.interests, r);
  }

  lemma CompleteFacts(w: World, p: Policy, g: Generation, v: World)
    requires Next(w, p, CompleteA(g)) == Some(v)
    ensures g in w.attempts
    ensures var t := w.attempts[g];
      && Owns(w.db, t.request, g)
      && w.db.requests[t.request].job == Some(t.job)
      && w.db.requests[t.request].epoch == t.epoch == w.db.control.epoch
      && HasLiveInterest(w.db, w.now, t.request)
      && t.job in w.db.jobs && Active(w.db.jobs[t.job].state)
      && t.job in v.db.jobs && !Active(v.db.jobs[t.job].state)
  {
  }

  /** Only begin creates attempts. */
  lemma OnlyBegins(w: World, p: Policy, a: Action, v: World, g: Generation)
    requires Next(w, p, a) == Some(v) && g !in w.attempts && g in v.attempts
    ensures a.BeginA?
  {
  }

  /** Every attempt of a run was begun by an earlier event. */
  lemma {:induction false} Began(cap: nat, worlds: seq<World>, events: seq<Event>, j: nat, g: Generation) returns (i: nat)
    requires IsRun(cap, worlds, events) && j < |worlds| && g in worlds[j].attempts
    ensures i < j && Begins(worlds, events, i, g)
  {
    hide Next;
    if g in worlds[j - 1].attempts {
      i := Began(cap, worlds, events, j - 1, g);
    } else {
      i := j - 1;
      OnlyBegins(worlds[i], events[i].policy, events[i].action, worlds[j], g);
    }
  }

  /** The request carries the attempt's generation and job, its epoch is the control row's, and
      somebody is interested in it. */
  ghost predicate Fenced(db: Db, t: Attempt, g: Generation) {
    && Owns(db, t.request, g) && Wanted(db, t.request) && db.requests[t.request].job == Some(t.job)
    && db.requests[t.request].epoch == t.epoch == db.control.epoch
  }

  ghost predicate AllFenced(worlds: seq<World>, i: nat, j: nat, g: Generation)
    requires i < j < |worlds| && g in worlds[j].attempts
  {
    && worlds[i].db.control.epoch == worlds[j].attempts[g].epoch
    && HasLiveInterest(worlds[i].db, worlds[i].now, worlds[j].attempts[g].request)
    && HasLiveInterest(worlds[j].db, worlds[j].now, worlds[j].attempts[g].request)
    && forall k | i < k <= j :: Fenced(worlds[k].db, worlds[j].attempts[g], g)
  }

  lemma FencedSince(cap: nat, worlds: seq<World>, events: seq<Event>, i: nat, j: nat, k: nat, g: Generation)
    requires IsRun(cap, worlds, events) && i < k <= j < |events|
    requires Begins(worlds, events, i, g) && events[j].action == CompleteA(g)
    ensures g in worlds[j].attempts && Fenced(worlds[k].db, worlds[j].attempts[g], g)
    ensures worlds[i].db.control.epoch == worlds[j].attempts[g].epoch
    ensures HasLiveInterest(worlds[i].db, worlds[i].now, worlds[j].attempts[g].request)
    ensures HasLiveInterest(worlds[j].db, worlds[j].now, worlds[j].attempts[g].request)
  {
    hide Next, Initial, Wanted;
    StepAt(cap, worlds, events, i);
    BeginFacts(worlds[i], events[i].policy, events[i].action, worlds[i + 1], g);
    StepAt(cap, worlds, events, j);
    CompleteFacts(worlds[j], events[j].policy, g, worlds[j + 1]);
    AttemptStays(cap, worlds, events, i + 1, j, g);
    RunHistory(cap, worlds, events, i + 1, k);
    RunHistory(cap, worlds, events, k, j);
    LostForever(cap, worlds, events, k, j, worlds[j].attempts[g].request, g);
  }

  /** Fencing: whatever an attempt publishes at event j, it was begun by an earlier event i, and ever
      since then the request kept this generation, this job, this epoch and at least one interested
      workspace, and the release was not switched; at both ends a live workspace was interested. */
  lemma Fencing(cap: nat, worlds: seq<World>, events: seq<Event>, j: nat, g: Generation)
    requires IsRun(cap, worlds, events) && j < |events| && events[j].action == CompleteA(g)
    ensures g in worlds[j].attempts
    ensures exists i: nat :: i < j && Begins(worlds, events, i, g) && AllFenced(worlds, i, j, g)
  {
    hide Next, Initial, Fenced, Begins;
    StepAt(cap, worlds, events, j);
    CompleteFacts(worlds[j], events[j].policy, g, worlds[j + 1]);
    var i := Began(cap, worlds, events, j, g);
    forall k | i < k <= j ensures Fenced(worlds[k].db, worlds[j].attempts[g], g) {
      FencedSince(cap, worlds, events, i, j, k, g);
    }
    FencedSince(cap, worlds, events, i, j, j, g);
  }

  /** A job publishes at most once over a whole run. */
  lemma PublishesOnce(cap: nat, worlds: seq<World>, events: seq<Event>, i: nat, j: nat, g: Generation, h: Generation)
    requires IsRun(cap, worlds, events) && i < j < |events|
    requires events[i].action == CompleteA(g) && events[j].action == CompleteA(h)
    ensures g in worlds[i].attempts && h in worlds[j].attempts
    ensures worlds[i].attempts[g].job != worlds[j].attempts[h].job
  {
    StepAt(cap, worlds, events, i);
    CompleteFacts(worlds[i], events[i].policy, g, worlds[i + 1]);
    StepAt(cap, worlds, events, j);
    CompleteFacts(worlds[j], events[j].policy, h, worlds[j + 1]);
    StepAt(cap, worlds, events, i + 1);
    RunHistory(cap, worlds, events, i + 1, j);
  }
}
