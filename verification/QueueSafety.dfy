/** Every action keeps the queue, storage and workspace invariants. */
module QueueSafety {
  import opened Basics
  import opened Tables
  import opened Protocol
  import opened ProtocolInvariants
  import PublicationSafety

  // -------------------------------------------------------- one queue operation

  /** Interests of other workspaces are untouched. */
  ghost predicate OthersKept(db: Db, d: Db, w: WorkspaceId) {
    forall i: (WorkspaceId, RequestId) :: i.0 != w ==> (i in d.interests <==> i in db.interests)
  }

  lemma FewerSubscribers(db: Db, d: Db)
    requires d.interests <= db.interests
    requires forall r: RequestId :: |Subscribers(db.interests, r)| <= MaxSubscribers
    ensures forall r: RequestId :: |Subscribers(d.interests, r)| <= MaxSubscribers
  {
    forall r: RequestId ensures |Subscribers(d.interests, r)| <= MaxSubscribers {
      SubsetSize(Subscribers(d.interests, r), Subscribers(db.interests, r));
    }
  }

  lemma FewerActive(db: Db, d: Db)
    requires forall j <- d.jobs :: Active(d.jobs[j].state) ==> j in db.jobs && Active(db.jobs[j].state)
    ensures |ActiveJobs(d.jobs)| <= |ActiveJobs(db.jobs)|
  {
    SubsetSize(ActiveJobs(d.jobs), ActiveJobs(db.jobs));
  }

  lemma BoundsStay(db: Db, d: Db, cap: nat)
    requires Bounds(db, cap) && d.interests <= db.interests && |d.workspaces| <= |db.workspaces|
    requires forall j <- d.jobs :: Active(d.jobs[j].state) ==> j in db.jobs && Active(db.jobs[j].state)
    ensures Bounds(d, cap)
  {
    FewerSubscribers(db, d);
    FewerActive(db, d);
  }

  lemma AggregatesStay(db: Db, d: Db)
    requires Aggregates(db) && d.interests <= db.interests
    requires forall w <- d.workspaces :: (w in db.workspaces && d.workspaces[w].samples == db.workspaces[w].samples
      && PinsOf(d.pins, w) == PinsOf(db.pins, w))
    ensures Aggregates(d)
  {
    forall w <- d.workspaces ensures Faithful(d, w) { StaysFaithful(db, d, w); }
  }

  lemma StaysFaithful(db: Db, d: Db, w: WorkspaceId)
    requires w in db.workspaces && w in d.workspaces && d.workspaces[w].samples == db.workspaces[w].samples
    requires Faithful(db, w) && PinsOf(d.pins, w) == PinsOf(db.pins, w)
    requires forall i <- d.interests :: i.0 == w ==> i in db.interests
    ensures Faithful(d, w)
  {
    assert Obsolete(d.interests, w, d.workspaces[w].samples) <= Obsolete(db.interests, w, db.workspaces[w].samples);
  }

  lemma SubscribeKeeps(db: Db, cap: nat, w: WorkspaceId, r: RequestId)
    requires Queue(db, cap) && w in db.workspaces && r in db.requests && |Others(db, w, r)| < MaxSubscribers
    ensures Queue(Subscribe(db, w, r), cap)
  {
    var d := Subscribe(db, w, r);
    forall q: RequestId ensures |Subscribers(d.interests, q)| <= MaxSubscribers {
      if q == r {
        assert Subscribers(d.interests, r) == Others(db, w, r) + {w};
      } else {
        assert Subscribers(d.interests, q) == Subscribers(db.interests, q);
      }
    }
    assert ActiveJobs(d.jobs) == ActiveJobs(db.jobs);
  }

  lemma EnqueueReferences(db: Db, now: Time, r: RequestId)
    requires References(db)
    ensures References(Enqueue(db, now, r))
  {
  }

  lemma EnqueueCurrent(db: Db, now: Time, r: RequestId)
    requires CurrentJobs(db) && !ActiveRequest(db, r) && r.build == db.control.build
    ensures CurrentJobs(Enqueue(db, now, r))
  {
  }

  lemma EnqueueKeeps(db: Db, cap: nat, now: Time, r: RequestId)
    requires Queue(db, cap) && !ActiveRequest(db, r) && |ActiveJobs(db.jobs)| < cap && r.build == db.control.build
    ensures Queue(Enqueue(db, now, r), cap)
  {
    EnqueueReferences(db, now, r);
    EnqueueCurrent(db, now, r);
    EnqueueBounds(db, cap, now, r);
  }

  lemma EnqueueBounds(db: Db, cap: nat, now: Time, r: RequestId)
    requires Bounds(db, cap) && |ActiveJobs(db.jobs)| < cap
    ensures Bounds(Enqueue(db, now, r), cap)
  {
    assert ActiveJobs(Enqueue(db, now, r).jobs) <= ActiveJobs(db.jobs) + {db.nextJob};
    SubsetSize(ActiveJobs(Enqueue(db, now, r).jobs), ActiveJobs(db.jobs) + {db.nextJob});
  }

  /** Admission respects the global and per-rendition bounds. */
  lemma AdmitKeeps(db: Db, cap: nat, p: Policy, now: Time, w: WorkspaceId, r: RequestId)
    requires Queue(db, cap) && w in db.workspaces && p.outstanding <= cap
    requires AdmitOne(db, p, now, w, r).Some?
    ensures Queue(AdmitOne(db, p, now, w, r).value, cap) && OthersKept(db, AdmitOne(db, p, now, w, r).value, w)
  {
    if Ready(db, now, r) || ActiveRequest(db, r) {
      SubscribeKeeps(db, cap, w, r);
    } else {
      EnqueueKeeps(db, cap, now, r);
      assert Others(Enqueue(db, now, r), w, r) == Others(db, w, r);
      SubscribeKeeps(Enqueue(db, now, r), cap, w, r);
    }
  }

  lemma CancelKeeps(db: Db, cap: nat, w: WorkspaceId, r: RequestId)
    requires Queue(db, cap)
    ensures Queue(CancelOne(db, w, r), cap) && OthersKept(db, CancelOne(db, w, r), w)
    ensures CancelOne(db, w, r).interests == db.interests - {(w, r)}
  {
    var d := CancelOne(db, w, r);
    CancelRows(db, w, r);
    assert References(d) by { CancelReferences(db, w, r); }
    assert CurrentJobs(d) by { CancelCurrent(db, w, r); }
    assert Bounds(d, cap) by { BoundsStay(db, d, cap); }
  }

  lemma CancelRows(db: Db, w: WorkspaceId, r: RequestId)
    ensures var d := CancelOne(db, w, r);
      && d.interests == db.interests - {(w, r)} && d.workspaces == db.workspaces && d.jobs.Keys == db.jobs.Keys
      && (forall j <- d.jobs :: (d.jobs[j].request == db.jobs[j].request
           && (Active(d.jobs[j].state) ==> Active(db.jobs[j].state))))
  {
  }

  lemma CancelRequests(db: Db, w: WorkspaceId, r: RequestId)
    ensures var d := CancelOne(db, w, r);
      && d.requests.Keys == db.requests.Keys && d.nextJob == db.nextJob && d.nextGeneration >= db.nextGeneration
      && (forall q <- d.requests :: (d.requests[q].job == db.requests[q].job && d.requests[q].epoch == db.requests[q].epoch
           && (d.requests[q].generation == db.requests[q].generation || d.requests[q].generation < d.nextGeneration)))
  {
  }

  lemma CancelReferences(db: Db, w: WorkspaceId, r: RequestId)
    requires References(db)
    ensures References(CancelOne(db, w, r))
  {
    CancelRows(db, w, r);
    CancelRequests(db, w, r);
    PublicationSafety.CancelOneFrame(db, w, r);
    ReferencesStay(db, CancelOne(db, w, r));
  }

  lemma ReferencesStay(db: Db, d: Db)
    requires References(db)
    requires d.interests <= db.interests && d.workspaces == db.workspaces && d.requests.Keys == db.requests.Keys
    requires d.pins == db.pins && d.artifacts == db.artifacts && d.jobs.Keys == db.jobs.Keys && d.nextJob == db.nextJob
    requires d.nextGeneration >= db.nextGeneration
    requires forall q <- d.requests :: d.requests[q].job == db.requests[q].job
    requires forall q <- d.requests ::
      d.requests[q].generation == db.requests[q].generation || d.requests[q].generation < d.nextGeneration
    ensures References(d)
  {
  }

  lemma CancelCurrent(db: Db, w: WorkspaceId, r: RequestId)
    requires CurrentJobs(db)
    ensures CurrentJobs(CancelOne(db, w, r))
  {
    CancelRows(db, w, r);
    CancelRequests(db, w, r);
  }

  lemma {:induction false} CancelAllKeeps(db: Db, cap: nat, pairs: seq<(WorkspaceId, RequestId)>)
    requires Queue(db, cap)
    ensures Queue(CancelAll(db, pairs), cap)
    ensures CancelAll(db, pairs).interests == db.interests - (set i <- pairs)
    decreases |pairs|
  {
    if pairs != [] {
      CancelKeeps(db, cap, pairs[0].0, pairs[0].1);
      CancelAllKeeps(CancelOne(db, pairs[0].0, pairs[0].1), cap, pairs[1..]);
      assert (set i <- pairs) == {pairs[0]} + (set i <- pairs[1..]);
    }
  }

  lemma {:induction false} OperateKeeps(db: Db, cap: nat, p: Policy, now: Time, w: WorkspaceId, ops: seq<QueueOp>)
    requires Queue(db, cap) && w in db.workspaces && p.outstanding <= cap
    requires Operate(db, p, now, w, ops).Some?
    ensures Queue(Operate(db, p, now, w, ops).value, cap) && OthersKept(db, Operate(db, p, now, w, ops).value, w)
    decreases |ops|
  {
    if ops != [] {
      match ops[0]
      case Admit(r) =>
        AdmitKeeps(db, cap, p, now, w, r);
        OperateKeeps(AdmitOne(db, p, now, w, r).value, cap, p, now, w, ops[1..]);
      case Cancel(r) =>
        CancelKeeps(db, cap, w, r);
        OperateKeeps(CancelOne(db, w, r), cap, p, now, w, ops[1..]);
    }
  }

  // ------------------------------------------------------- workspace transactions

  ghost function Saved(db: Db, w: WorkspaceId, expires: Time, samples: set<Sample>, size: nat): Db
    requires DistinctPins(samples)
  {
    db.(workspaces := db.workspaces[w := Workspace(expires, samples, size)],
        pins := (map p <- db.pins | p.0 != w :: db.pins[p]) + PinRows(w, samples))
  }

  lemma SavedKeeps(db: Db, cap: nat, w: WorkspaceId, expires: Time, samples: set<Sample>, size: nat)
    requires Queue(db, cap) && w in db.workspaces && DistinctPins(samples)
    requires forall s <- samples :: Pinned(s) ==> s.job.value in db.requests
    ensures Queue(Saved(db, w, expires, samples, size), cap)
  {
    var d := Saved(db, w, expires, samples, size);
    assert d.workspaces.Keys == db.workspaces.Keys;
    assert |d.workspaces| == |d.workspaces.Keys| == |db.workspaces|;
    assert forall q: RequestId :: Subscribers(d.interests, q) == Subscribers(db.interests, q);
    assert ActiveJobs(d.jobs) == ActiveJobs(db.jobs);
  }

  lemma SizesReplace(ws: map<WorkspaceId, Workspace>, w: WorkspaceId, x: Workspace)
    requires w in ws && Total(Sizes(ws - {w})) + x.size <= WorkspaceBytes
    ensures Total(Sizes(ws[w := x])) <= WorkspaceBytes
  {
    assert Sizes(ws[w := x]) == Sizes(ws - {w})[w := x.size];
    TotalInsert(Sizes(ws - {w}), w, x.size);
  }

  /** The closing cancellations remove exactly the interests no sample refers to. */
  lemma ObsoleteDropped(m: Db, d: Db, w: WorkspaceId, samples: set<Sample>, order: seq<RequestId>)
    requires Enumerates(order, Obsolete(m.interests, w, samples))
    requires d.interests == m.interests - (set i <- PairWith(w, order))
    ensures OthersKept(m, d, w) && Obsolete(d.interests, w, samples) == {} && d.interests <= m.interests
  {
    forall i: (WorkspaceId, RequestId) | i.0 == w && i.1 in order ensures i in PairWith(w, order) {
      var k :| 0 <= k < |order| && order[k] == i.1;
      assert PairWith(w, order)[k] == i;
    }
  }

  lemma SavedPins(db: Db, w: WorkspaceId, expires: Time, samples: set<Sample>, size: nat)
    requires DistinctPins(samples)
    ensures PinsOf(Saved(db, w, expires, samples, size).pins, w) == PinRows(w, samples)
    ensures forall o :: o != w ==> PinsOf(Saved(db, w, expires, samples, size).pins, o) == PinsOf(db.pins, o)
  {
  }

  /** After a committed write: pins are the favourites with jobs, interests belong to samples. */
  lemma SaveFaithful(db: Db, cap: nat, w: WorkspaceId, expires: Time, samples: set<Sample>, size: nat, order: seq<RequestId>)
    requires Queue(db, cap) && w in db.workspaces
    requires SaveWorkspace(db, w, expires, samples, size, order).Some?
    ensures var d := SaveWorkspace(db, w, expires, samples, size, order).value;
      && Queue(d, cap) && OthersKept(db, d, w)
      && d.workspaces == db.workspaces[w := Workspace(expires, samples, size)] && Faithful(d, w)
      && (forall o :: o != w ==> PinsOf(d.pins, o) == PinsOf(db.pins, o))
      && d.uploads == db.uploads
      && Total(Sizes(d.workspaces)) <= WorkspaceBytes
  {
    var m := Saved(db, w, expires, samples, size);
    SavedKeeps(db, cap, w, expires, samples, size);
    CancelAllKeeps(m, cap, PairWith(w, order));
    PublicationSafety.CancelAllFrame(m, PairWith(w, order));
    var d := CancelAll(m, PairWith(w, order));
    assert d == SaveWorkspace(db, w, expires, samples, size, order).value;
    ObsoleteDropped(m, d, w, samples, order);
    SavedPins(db, w, expires, samples, size);
    assert forall o :: PinsOf(d.pins, o) == PinsOf(m.pins, o);
    SizesReplace(db.workspaces, w, Workspace(expires, samples, size));
  }

  lemma OneFaithful(db: Db, d: Db, w: WorkspaceId)
    requires Aggregates(db) && w in db.workspaces && w in d.workspaces
    requires d.workspaces == db.workspaces[w := d.workspaces[w]]
    requires Faithful(d, w) && OthersKept(db, d, w)
    requires forall o :: o != w ==> PinsOf(d.pins, o) == PinsOf(db.pins, o)
    ensures Aggregates(d)
  {
    forall o <- d.workspaces ensures Faithful(d, o) {
      if o != w { StaysFaithful(db, d, o); }
    }
  }

  /** A committed write leaves the saved workspace faithful and every other one as it was. */
  lemma WriteSaves(db: Db, cap: nat, p: Policy, now: Time, w: WorkspaceId, ops: seq<QueueOp>,
                   clear: bool, samples: set<Sample>, size: nat, order: seq<RequestId>)
    requires Queue(db, cap) && p.outstanding <= cap
    requires Write(db, p, now, w, ops, clear, samples, size, order).Some?
    ensures var d := Write(db, p, now, w, ops, clear, samples, size, order).value;
      && Queue(d, cap) && d.uploads == db.uploads && Total(Sizes(d.workspaces)) <= WorkspaceBytes
      && w in db.workspaces && w in d.workspaces && d.workspaces == db.workspaces[w := d.workspaces[w]]
      && d.workspaces[w].samples == (if clear then {} else samples) && Faithful(d, w) && OthersKept(db, d, w)
      && (forall o :: o != w ==> PinsOf(d.pins, o) == PinsOf(db.pins, o))
  {
    OperateKeeps(db, cap, p, now, w, ops);
    PublicationSafety.OperateFrame(db, p, now, w, ops);
    var m := Operate(db, p, now, w, ops).value;
    SaveFaithful(m, cap, w, if clear then now else db.workspaces[w].expires, if clear then {} else samples, size, order);
  }

  // ------------------------------------------------------------- uploads and sizes

  /** Rows that vanish or get a deletion mark only lower the accounted storage. */
  lemma AccountedShrinks(old_: map<Key, Upload>, new_: map<Key, Upload>)
    requires forall k <- new_ :: new_[k].deletedAt.None? ==>
      k in old_ && old_[k].deletedAt.None? && new_[k].size <= old_[k].size
    ensures Total(Accounted(new_)) <= Total(Accounted(old_)) && |Accounted(new_)| <= |Accounted(old_)|
  {
    TotalMonotone(Accounted(new_), Accounted(old_));
    SubsetSize(Accounted(new_).Keys, Accounted(old_).Keys);
    assert |Accounted(new_)| == |Accounted(new_).Keys| && |Accounted(old_)| == |Accounted(old_).Keys|;
  }

  lemma ReserveStorage(db: Db, now: Time, j: JobId, k: Key, size: nat)
    requires Storage(db) && Reserve(db, now, j, k, size).Some?
    ensures Storage(Reserve(db, now, j, k, size).value)
  {
    var d := Reserve(db, now, j, k, size).value;
    assert Accounted(d.uploads) == Accounted(db.uploads)[k := size];
    TotalInsert(Accounted(db.uploads), k, size);
  }

  // ------------------------------------------------------------------ maintenance

  lemma DropReferences(db: Db, gone: set<WorkspaceId>)
    requires References(db) && forall w <- gone, i <- db.interests :: i.0 != w
    ensures References(DropWorkspaces(db, gone))
  {
  }

  lemma DropBounds(db: Db, cap: nat, gone: set<WorkspaceId>)
    requires Bounds(db, cap) && Storage(db)
    ensures Bounds(DropWorkspaces(db, gone), cap) && Storage(DropWorkspaces(db, gone))
  {
    var d := DropWorkspaces(db, gone);
    SubsetSize(d.workspaces.Keys, db.workspaces.Keys);
    assert |d.workspaces| == |d.workspaces.Keys| && |db.workspaces| == |db.workspaces.Keys|;
    BoundsStay(db, d, cap);
    TotalMonotone(Sizes(d.workspaces), Sizes(db.workspaces));
  }

  lemma DropKeeps(db: Db, cap: nat, gone: set<WorkspaceId>)
    requires Queue(db, cap) && Storage(db) && Aggregates(db)
    requires forall w <- gone, i <- db.interests :: i.0 != w
    ensures var d := DropWorkspaces(db, gone); Queue(d, cap) && Storage(d) && Aggregates(d)
  {
    DropReferences(db, gone);
    DropBounds(db, cap, gone);
    DropAggregates(db, gone);
  }

  lemma DropAggregates(db: Db, gone: set<WorkspaceId>)
    requires Aggregates(db)
    ensures Aggregates(DropWorkspaces(db, gone))
  {
    var d := DropWorkspaces(db, gone);
    forall w <- d.workspaces ensures PinsOf(d.pins, w) == PinsOf(db.pins, w) {}
    AggregatesStay(db, d);
  }

  /** Interests, pins, workspaces and each request's job and epoch are kept; jobs only finish. */
  ghost predicate SameQueue(db: Db, d: Db) {
    && d.control == db.control && d.workspaces == db.workspaces && d.pins == db.pins
    && d.interests == db.interests && d.nextJob == db.nextJob && d.nextGeneration >= db.nextGeneration
    && d.requests.Keys == db.requests.Keys
    && (forall r <- d.requests :: (d.requests[r].job == db.requests[r].job
          && d.requests[r].epoch == db.requests[r].epoch && d.requests[r].generation < d.nextGeneration))
    && (forall j <- d.jobs :: (j in db.jobs && d.jobs[j].request == db.jobs[j].request
          && (Active(d.jobs[j].state) ==> Active(db.jobs[j].state))))
    && (forall r <- d.artifacts :: r in d.requests)
  }

  lemma RowsKeep(db: Db, d: Db, cap: nat)
    requires Queue(db, cap) && Aggregates(db) && SameQueue(db, d)
    ensures Queue(d, cap) && Aggregates(d)
  {
    assert References(d);
    assert CurrentJobs(d);
    assert Bounds(d, cap) by { BoundsStay(db, d, cap); }
    assert Aggregates(d) by { AggregatesStay(db, d); }
  }

  lemma CollectKeeps(db: Db, cap: nat, now: Time, gone: set<RequestId>)
    requires Queue(db, cap) && Aggregates(db) && forall r <- gone :: Collectable(db, now, r)
    ensures Queue(db.(requests := db.requests - gone), cap) && Aggregates(db.(requests := db.requests - gone))
  {
    var d := db.(requests := db.requests - gone);
    assert References(d) by { CollectReferences(db, now, gone); }
    assert CurrentJobs(d) by { CollectCurrent(db, now, gone); }
    assert Bounds(d, cap) by { BoundsStay(db, d, cap); }
    assert Aggregates(d) by { AggregatesStay(db, d); }
  }

  lemma CollectReferences(db: Db, now: Time, gone: set<RequestId>)
    requires References(db) && forall r <- gone :: Collectable(db, now, r)
    ensures References(db.(requests := db.requests - gone))
  {
    forall i <- db.interests ensures i.1 !in gone { assert i.0 in Subscribers(db.interests, i.1); }
    forall p <- db.pins ensures db.pins[p] !in gone { assert db.pins[p] in db.pins.Values; }
  }

  lemma CollectCurrent(db: Db, now: Time, gone: set<RequestId>)
    requires CurrentJobs(db) && forall r <- gone :: Collectable(db, now, r)
    ensures CurrentJobs(db.(requests := db.requests - gone))
  {
    forall j <- db.jobs | Active(db.jobs[j].state) ensures db.jobs[j].request !in gone {
      assert ActiveRequest(db, db.jobs[j].request);
    }
  }

  lemma ExpiryQueue(db: Db, now: Time, expired: set<RequestId>)
    requires References(db) && forall r <- expired :: r in db.artifacts
    ensures SameQueue(db, DropTombstones(RetireAbandoned(ExpireArtifacts(db, now, expired), now), now))
  {
  }

  lemma ExpiryStorage(db: Db, now: Time, expired: set<RequestId>)
    requires Storage(db) && forall r <- expired :: r in db.artifacts
    ensures Storage(DropTombstones(RetireAbandoned(ExpireArtifacts(db, now, expired), now), now))
  {
    AccountedShrinks(db.uploads, DropTombstones(RetireAbandoned(ExpireArtifacts(db, now, expired), now), now).uploads);
  }

  lemma SettleQueue(db: Db)
    requires References(db)
    ensures SameQueue(db, SettleOutcomes(db))
  {
  }

  lemma CancelledAggregates(db: Db, cap: nat, pairs: seq<(WorkspaceId, RequestId)>)
    requires Queue(db, cap) && Storage(db) && Aggregates(db)
    ensures var d := CancelAll(db, pairs); Queue(d, cap) && Storage(d) && Aggregates(d)
  {
    CancelAllKeeps(db, cap, pairs);
    PublicationSafety.CancelAllFrame(db, pairs);
    AggregatesStay(db, CancelAll(db, pairs));
  }

  lemma LapseKeeps(db: Db, cap: nat, now: Time, picks: Picks)
    requires Queue(db, cap) && Storage(db) && Aggregates(db) && Lapse(db, now, picks).Some?
    ensures var d := Lapse(db, now, picks).value; Queue(d, cap) && Storage(d) && Aggregates(d)
  {
    hide Queue, Storage, Aggregates, CancelAll;
    CancelledAggregates(db, cap, picks.lapsed);
    DropKeeps(CancelAll(db, picks.lapsed), cap, picks.workspaces);
  }

  lemma ExpireKeeps(db: Db, cap: nat, now: Time, picks: Picks)
    requires Queue(db, cap) && Storage(db) && Aggregates(db) && Expire(db, now, picks).Some?
    ensures var d := Expire(db, now, picks).value; Queue(d, cap) && Storage(d) && Aggregates(d)
  {
    var d := DropTombstones(RetireAbandoned(ExpireArtifacts(db, now, picks.artifacts), now), now);
    ExpiryQueue(db, now, picks.artifacts);
    ExpiryStorage(db, now, picks.artifacts);
    RowsKeep(db, d, cap);
    CollectKeeps(d, cap, now, picks.requests);
  }

  lemma MaintainKeeps(db: Db, cap: nat, now: Time, picks: Picks)
    requires Queue(db, cap) && Storage(db) && Aggregates(db) && Maintain(db, now, picks).Some?
    ensures var d := Maintain(db, now, picks).value; Queue(d, cap) && Storage(d) && Aggregates(d)
  {
    LapseKeeps(db, cap, now, picks);
    var d := Lapse(db, now, picks).value;
    SettleQueue(d);
    RowsKeep(d, SettleOutcomes(d), cap);
    ExpireKeeps(SettleOutcomes(d), cap, now, picks);
  }

  // ------------------------------------------------------------- everything else

  lemma CreateBounds(db: Db, cap: nat, now: Time, w: WorkspaceId)
    requires Bounds(db, cap) && Storage(db) && CreateWorkspace(db, now, w).Some?
    ensures var d := CreateWorkspace(db, now, w).value; Bounds(d, cap) && Storage(d)
  {
    var d := CreateWorkspace(db, now, w).value;
    assert Sizes(d.workspaces) == Sizes(db.workspaces)[w := 0];
    TotalInsert(Sizes(db.workspaces), w, 0);
  }

  lemma CreateAggregates(db: Db, now: Time, w: WorkspaceId)
    requires References(db) && Aggregates(db) && CreateWorkspace(db, now, w).Some?
    ensures Aggregates(CreateWorkspace(db, now, w).value)
  {
    var d := CreateWorkspace(db, now, w).value;
    assert PinsOf(d.pins, w) == PinRows(w, {});
    assert Obsolete(d.interests, w, {}) == {};
    forall o <- d.workspaces ensures Faithful(d, o) {
      if o != w { StaysFaithful(db, d, o); }
    }
  }

  lemma CreateKeeps(db: Db, cap: nat, now: Time, w: WorkspaceId)
    requires Queue(db, cap) && Storage(db) && Aggregates(db) && CreateWorkspace(db, now, w).Some?
    ensures var d := CreateWorkspace(db, now, w).value; Queue(d, cap) && Storage(d) && Aggregates(d)
  {
    CreateBounds(db, cap, now, w);
    CreateAggregates(db, now, w);
  }

  lemma TouchBounds(db: Db, cap: nat, now: Time, w: WorkspaceId)
    requires Bounds(db, cap) && Storage(db) && Touch(db, now, w).Some?
    ensures var d := Touch(db, now, w).value; Bounds(d, cap) && Storage(d)
  {
    var d := Touch(db, now, w).value;
    assert d.workspaces.Keys == db.workspaces.Keys;
    assert |d.workspaces| == |d.workspaces.Keys| == |db.workspaces|;
    assert Sizes(d.workspaces) == Sizes(db.workspaces);
  }

  lemma TouchKeeps(db: Db, cap: nat, now: Time, w: WorkspaceId)
    requires Queue(db, cap) && Storage(db) && Aggregates(db) && Touch(db, now, w).Some?
    ensures var d := Touch(db, now, w).value; Queue(d, cap) && Storage(d) && Aggregates(d)
  {
    TouchBounds(db, cap, now, w);
    assert Aggregates(Touch(db, now, w).value) by { AggregatesStay(db, Touch(db, now, w).value); }
  }

  lemma ActivateKeeps(db: Db, cap: nat, build: Build)
    requires Queue(db, cap) && Aggregates(db) && Activate(db, build).Some?
    ensures Queue(Activate(db, build).value, cap) && Aggregates(Activate(db, build).value)
  {
    var d := Activate(db, build).value;
    assert forall j <- db.jobs :: !Active(db.jobs[j].state) by {
      forall j <- db.jobs ensures !Active(db.jobs[j].state) { assert j !in ActiveJobs(db.jobs); }
    }
    assert Bounds(d, cap) by { BoundsStay(db, d, cap); }
    assert forall o <- d.workspaces :: PinsOf(d.pins, o) == PinsOf(db.pins, o);
    assert Aggregates(d) by { AggregatesStay(db, d); }
  }

  lemma BeginQueue(db: Db, p: Policy, now: Time, j: JobId, number: nat)
    requires References(db)
    ensures match Begin(db, p, now, j, number)
      case Refused => true
      case Expired(d) => SameQueue(db, d) && d.uploads == db.uploads
      case Started(d) => SameQueue(db, d) && d.uploads == db.uploads
  {
  }

  lemma CompleteQueue(db: Db, now: Time, j: JobId, number: nat, epoch: nat, k: Key, image: Image)
    requires References(db) && Complete(db, now, j, number, epoch, k, image).Some?
    ensures SameQueue(db, Complete(db, now, j, number, epoch, k, image).value)
  {
  }

  lemma MissingQueue(db: Db, now: Time, r: RequestId, k: Key)
    requires References(db)
    ensures SameQueue(db, Missing(db, now, r, k))
  {
  }

  lemma MissingStorage(db: Db, now: Time, r: RequestId, k: Key)
    requires Storage(db)
    ensures Storage(Missing(db, now, r, k))
  {
    AccountedShrinks(db.uploads, Missing(db, now, r, k).uploads);
  }

  lemma CompleteStorage(db: Db, now: Time, j: JobId, number: nat, epoch: nat, k: Key, image: Image)
    requires Storage(db) && Complete(db, now, j, number, epoch, k, image).Some?
    ensures Storage(Complete(db, now, j, number, epoch, k, image).value)
  {
    AccountedShrinks(db.uploads, Complete(db, now, j, number, epoch, k, image).value.uploads);
  }

  lemma ReserveQueue(db: Db, now: Time, j: JobId, k: Key, size: nat)
    requires References(db) && Reserve(db, now, j, k, size).Some?
    ensures SameQueue(db, Reserve(db, now, j, k, size).value)
  {
  }

  lemma SameStorage(db: Db, d: Db)
    requires Storage(db) && SameQueue(db, d) && d.uploads == db.uploads
    ensures Storage(d)
  {
  }

  lemma WorkerKeeps(w: World, cap: nat, p: Policy, a: Action, v: World)
    requires Queue(w.db, cap) && Storage(w.db) && Aggregates(w.db) && Next(w, p, a) == Some(v)
    requires a.BeginA? || a.ReserveA? || a.CompleteA? || a.MissingA?
    ensures Queue(v.db, cap) && Storage(v.db) && Aggregates(v.db)
  {
    hide Begin, Reserve, Complete, Missing, Storage, References, CurrentJobs, Bounds, SameQueue;
    match a {
      case BeginA(j, number) =>
        BeginQueue(w.db, p, w.now, j, number);
        SameStorage(w.db, v.db);
      case ReserveA(g, image) =>
        ReserveQueue(w.db, w.now, w.attempts[g].job, KeyOf(w.attempts[g], g), image.size);
        ReserveStorage(w.db, w.now, w.attempts[g].job, KeyOf(w.attempts[g], g), image.size);
      case CompleteA(g) =>
        var t := w.attempts[g];
        CompleteQueue(w.db, w.now, t.job, t.number, t.epoch, KeyOf(t, g), t.image);
        CompleteStorage(w.db, w.now, t.job, t.number, t.epoch, KeyOf(t, g), t.image);
      case MissingA(r, k) =>
        MissingQueue(w.db, w.now, r, k);
        MissingStorage(w.db, w.now, r, k);
    }
    RowsKeep(w.db, v.db, cap);
  }

  lemma TerminalQueue(db: Db, r: RequestId, g: Generation)
    requires References(db)
    ensures SameQueue(db, Terminal(db, r, g))
  {
  }

  lemma TerminalKeeps(db: Db, cap: nat, r: RequestId, g: Generation)
    requires Queue(db, cap) && Storage(db) && Aggregates(db)
    ensures var d := Terminal(db, r, g); Queue(d, cap) && Storage(d) && Aggregates(d)
  {
    TerminalQueue(db, r, g);
    RowsKeep(db, Terminal(db, r, g), cap);
  }

  lemma MarkKeeps(db: Db, cap: nat, now: Time, k: Key)
    requires Queue(db, cap) && Storage(db) && Aggregates(db)
    ensures var d := MarkDeleted(db, now, k); Queue(d, cap) && Storage(d) && Aggregates(d)
  {
    MarkQueue(db, now, k);
    RowsKeep(db, MarkDeleted(db, now, k), cap);
  }

  lemma MarkQueue(db: Db, now: Time, k: Key)
    requires References(db) && Storage(db)
    ensures SameQueue(db, MarkDeleted(db, now, k)) && Storage(MarkDeleted(db, now, k))
  {
    assert Storage(MarkDeleted(db, now, k)) by { MarkStorage(db, now, k); }
  }

  lemma MarkStorage(db: Db, now: Time, k: Key)
    requires Storage(db)
    ensures Storage(MarkDeleted(db, now, k))
  {
    AccountedShrinks(db.uploads, MarkDeleted(db, now, k).uploads);
  }

  /** River may move an active job anywhere and forget a finished one. */
  lemma JobsKeep(db: Db, cap: nat, jobs: map<JobId, Job>)
    requires Queue(db, cap) && Storage(db) && Aggregates(db)
    requires forall j <- jobs :: (j in db.jobs && jobs[j].request == db.jobs[j].request
      && (Active(jobs[j].state) ==> Active(db.jobs[j].state)))
    ensures var d := db.(jobs := jobs); Queue(d, cap) && Storage(d) && Aggregates(d)
  {
    assert SameQueue(db, db.(jobs := jobs));
    RowsKeep(db, db.(jobs := jobs), cap);
  }

  lemma WorkspacePreserved(w: World, cap: nat, p: Policy, a: Action, v: World)
    requires Queue(w.db, cap) && Storage(w.db) && Aggregates(w.db)
    requires p.outstanding <= cap && Next(w, p, a) == Some(v)
    requires a.WriteW? || a.MaintainA? || a.CreateW? || a.TouchW?
    ensures Queue(v.db, cap) && Storage(v.db) && Aggregates(v.db)
  {
    hide Queue, Write, Maintain, CreateWorkspace, Touch;
    match a
    case WriteW(id, ops, clear, samples, size, order) =>
      WriteSaves(w.db, cap, p, w.now, id, ops, clear, samples, size, order);
      OneFaithful(w.db, v.db, id);
    case MaintainA(picks) => MaintainKeeps(w.db, cap, w.now, picks);
    case CreateW(id) => CreateKeeps(w.db, cap, w.now, id);
    case TouchW(id) => TouchKeeps(w.db, cap, w.now, id);
  }

  lemma ReleasePreserved(w: World, cap: nat, p: Policy, a: Action, v: World)
    requires Queue(w.db, cap) && Storage(w.db) && Aggregates(w.db) && Next(w, p, a) == Some(v)
    requires a.ActivateA? || a.EnableA?
    ensures Queue(v.db, cap) && Storage(v.db) && Aggregates(v.db)
  {
    hide Queue, Aggregates, Enable;
    match a
    case ActivateA(build) => ActivateKeeps(w.db, cap, build);
    case EnableA(on) => EnableKeeps(w.db, cap, on);
  }

  lemma EnableKeeps(db: Db, cap: nat, on: bool)
    requires Queue(db, cap) && Storage(db) && Aggregates(db)
    ensures var d := Enable(db, on); Queue(d, cap) && Storage(d) && Aggregates(d)
  {
    hide Aggregates;
    AggregatesStay(db, Enable(db, on));
  }

  lemma RowPreserved(w: World, cap: nat, p: Policy, a: Action, v: World)
    requires Queue(w.db, cap) && Storage(w.db) && Aggregates(w.db) && Next(w, p, a) == Some(v)
    requires a.TerminalA? || a.MarkA?
    ensures Queue(v.db, cap) && Storage(v.db) && Aggregates(v.db)
  {
    hide Queue, Storage, Aggregates, Terminal, MarkDeleted;
    match a
    case TerminalA(g) => TerminalKeeps(w.db, cap, w.attempts[g].request, g);
    case MarkA(k) => MarkKeeps(w.db, cap, w.now, k);
  }

  /** River's own transitions touch the job rows only, and never make a finished job active. */
  lemma RiverMoves(w: World, p: Policy, j: JobId, state: JobState, v: World)
    requires Next(w, p, RiverA(j, state)) == Some(v)
    ensures v.db == w.db.(jobs := v.db.jobs) && forall k <- v.db.jobs :: (k in w.db.jobs
      && v.db.jobs[k].request == w.db.jobs[k].request && (Active(v.db.jobs[k].state) ==> Active(w.db.jobs[k].state)))
  {
  }

  lemma RiverCleans(w: World, p: Policy, j: JobId, v: World)
    requires Next(w, p, RiverClean(j)) == Some(v)
    ensures v.db == w.db.(jobs := v.db.jobs) && forall k <- v.db.jobs :: k in w.db.jobs && v.db.jobs[k] == w.db.jobs[k]
  {
  }

  lemma RiverPreserved(w: World, cap: nat, p: Policy, a: Action, v: World)
    requires Queue(w.db, cap) && Storage(w.db) && Aggregates(w.db) && Next(w, p, a) == Some(v)
    requires a.RiverA? || a.RiverClean?
    ensures Queue(v.db, cap) && Storage(v.db) && Aggregates(v.db)
  {
    hide Next, Queue, Storage, Aggregates;
    if a.RiverA? { RiverMoves(w, p, a.job, a.state, v); } else { RiverCleans(w, p, a.job, v); }
    JobsKeep(w.db, cap, v.db.jobs);
  }

  /** Main result: bounds, job currency and faithful pins survive every action. */
  lemma QueuePreserved(w: World, cap: nat, p: Policy, a: Action, v: World)
    requires Queue(w.db, cap) && Storage(w.db) && Aggregates(w.db)
    requires p.outstanding <= cap && Next(w, p, a) == Some(v)
    ensures Queue(v.db, cap) && Storage(v.db) && Aggregates(v.db)
  {
    if a.WriteW? || a.MaintainA? || a.CreateW? || a.TouchW? {
      WorkspacePreserved(w, cap, p, a, v);
    } else if a.ActivateA? || a.EnableA? {
      ReleasePreserved(w, cap, p, a, v);
    } else if a.BeginA? || a.ReserveA? || a.CompleteA? || a.MissingA? {
      WorkerKeeps(w, cap, p, a, v);
    } else if a.TerminalA? || a.MarkA? {
      RowPreserved(w, cap, p, a, v);
    } else if a.RiverA? || a.RiverClean? {
      RiverPreserved(w, cap, p, a, v);
    } else {
      assert v.db == w.db;
    }
  }
}
