/** Every action keeps artifacts, uploads and bucket objects in agreement. */
module PublicationSafety {
  import opened Basics
  import opened Tables
  import opened Protocol
  import opened ProtocolInvariants

  /** What one action must achieve: publication stays sound and retired keys stay retired. */
  ghost predicate Keeps(w: World, v: World) {
    Publication(v) && Retains(w, v)
  }

  /** Attempts only move forward, and their bytes never change once reserved. */
  ghost predicate Forward(w: World, v: World) {
    forall g <- w.attempts :: g in v.attempts && v.attempts[g].request == w.attempts[g].request
      && (!w.attempts[g].phase.Begun? ==> !v.attempts[g].phase.Begun? && v.attempts[g].image == w.attempts[g].image)
  }

  lemma SpentStays(w: World, v: World)
    requires Forward(w, v)
    ensures forall k: Key :: Spent(w, k) ==> Spent(v, k)
  {
  }

  ghost predicate Retains(w: World, v: World) {
    forall k: Key :: Retired(w, k) ==> Retired(v, k)
  }

  /** Rows of d are rows of db, as they were or marked deleting. */
  ghost predicate Rows(db: Db, d: Db) {
    forall k <- d.uploads :: k in db.uploads
      && d.uploads[k].request == db.uploads[k].request && d.uploads[k].generation == db.uploads[k].generation
      && d.uploads[k].size == db.uploads[k].size
      && (d.uploads[k].state == db.uploads[k].state || d.uploads[k].state == Deleting)
  }

  lemma RowsRetain(w: World, v: World)
    requires Forward(w, v) && Rows(w.db, v.db)
    ensures Retains(w, v)
  {
    SpentStays(w, v);
  }

  lemma ReservationsStay(w: World, v: World)
    requires Reservations(w) && Forward(w, v) && Rows(w.db, v.db)
    ensures Reservations(v)
  {
    SpentStays(w, v);
  }

  lemma BytesStay(w: World, v: World)
    requires forall k <- w.bucket :: Spent(w, k) && w.bucket[k] == w.attempts[k.generation].image
    requires Forward(w, v)
    requires forall k <- v.bucket :: k in w.bucket && v.bucket[k] == w.bucket[k]
    ensures forall k <- v.bucket :: Spent(v, k) && v.bucket[k] == v.attempts[k.generation].image
  {
    SpentStays(w, v);
  }

  lemma ListsStay(w: World, v: World)
    requires Lists(w) && Forward(w, v) && Retains(w, v)
    requires v.doomed == w.doomed && v.listed == w.listed && v.orphans == w.orphans && v.held == w.held
    requires forall h <- w.held :: h.1 in v.db.uploads && v.db.uploads[h.1].state == Pending ==>
               h.1 in w.db.uploads && w.db.uploads[h.1].state == Pending
    ensures Lists(v)
  {
    SpentStays(w, v);
  }

  /** Transactions that leave artifacts and uploads alone do not disturb publication. */
  lemma OtherTables(w: World, d: Db)
    requires Publication(w)
    requires d.artifacts == w.db.artifacts && d.uploads == w.db.uploads
    requires d.nextGeneration >= w.db.nextGeneration
    ensures Keeps(w, w.(db := d))
  {
    SpentStays(w, w.(db := d));
  }

  // ------------------------------------------------- frames of the queue operations

  ghost predicate QueueFrame(db: Db, d: Db) {
    && d.artifacts == db.artifacts && d.uploads == db.uploads && d.control == db.control
    && d.workspaces == db.workspaces && d.pins == db.pins
    && d.nextJob >= db.nextJob && d.nextGeneration >= db.nextGeneration && d.requests.Keys >= db.requests.Keys
  }

  lemma CancelOneFrame(db: Db, w: WorkspaceId, r: RequestId)
    ensures QueueFrame(db, CancelOne(db, w, r))
  {
  }

  lemma {:induction false} CancelAllFrame(db: Db, pairs: seq<(WorkspaceId, RequestId)>)
    ensures QueueFrame(db, CancelAll(db, pairs))
    decreases |pairs|
  {
    if pairs != [] {
      CancelOneFrame(db, pairs[0].0, pairs[0].1);
      CancelAllFrame(CancelOne(db, pairs[0].0, pairs[0].1), pairs[1..]);
    }
  }

  lemma AdmitOneFrame(db: Db, p: Policy, now: Time, w: WorkspaceId, r: RequestId)
    requires AdmitOne(db, p, now, w, r).Some?
    ensures QueueFrame(db, AdmitOne(db, p, now, w, r).value)
  {
    assert AdmitOne(db, p, now, w, r).value in {Subscribe(db, w, r), Subscribe(Enqueue(db, now, r), w, r)};
  }

  lemma {:induction false} OperateFrame(db: Db, p: Policy, now: Time, w: WorkspaceId, ops: seq<QueueOp>)
    requires Operate(db, p, now, w, ops).Some?
    ensures QueueFrame(db, Operate(db, p, now, w, ops).value)
    decreases |ops|
  {
    if ops != [] {
      match ops[0]
      case Admit(r) =>
        AdmitOneFrame(db, p, now, w, r);
        OperateFrame(AdmitOne(db, p, now, w, r).value, p, now, w, ops[1..]);
      case Cancel(r) =>
        CancelOneFrame(db, w, r);
        OperateFrame(CancelOne(db, w, r), p, now, w, ops[1..]);
    }
  }

  lemma SaveFrame(db: Db, w: WorkspaceId, expires: Time, samples: set<Sample>, size: nat, order: seq<RequestId>)
    requires w in db.workspaces && SaveWorkspace(db, w, expires, samples, size, order).Some?
    ensures var d := SaveWorkspace(db, w, expires, samples, size, order).value;
      d.artifacts == db.artifacts && d.uploads == db.uploads && d.control == db.control
      && d.nextGeneration >= db.nextGeneration
  {
    var d := db.(workspaces := db.workspaces[w := Workspace(expires, samples, size)],
                 pins := (map p <- db.pins | p.0 != w :: db.pins[p]) + PinRows(w, samples));
    CancelAllFrame(d, PairWith(w, order));
  }

  lemma WriteFrame(db: Db, p: Policy, now: Time, w: WorkspaceId, ops: seq<QueueOp>,
                   clear: bool, samples: set<Sample>, size: nat, order: seq<RequestId>)
    requires Write(db, p, now, w, ops, clear, samples, size, order).Some?
    ensures var d := Write(db, p, now, w, ops, clear, samples, size, order).value;
      d.artifacts == db.artifacts && d.uploads == db.uploads && d.control == db.control
      && d.nextGeneration >= db.nextGeneration
  {
    OperateFrame(db, p, now, w, ops);
    var d := Operate(db, p, now, w, ops).value;
    SaveFrame(d, w, if clear then now else db.workspaces[w].expires, if clear then {} else samples, size, order);
  }

  // --------------------------------------------------------- retiring uploads

  /** Artifacts are removed together with retiring exactly their uploads, and any unpublished ones. */
  ghost predicate Retires(db: Db, d: Db) {
    && d.nextGeneration >= db.nextGeneration && Rows(db, d)
    && (forall r <- d.artifacts :: r in db.artifacts && d.artifacts[r] == db.artifacts[r])
    && (forall r <- d.artifacts :: (d.artifacts[r].key in d.uploads
          && d.uploads[d.artifacts[r].key].state == db.uploads[d.artifacts[r].key].state))
    && (forall k <- d.uploads :: d.uploads[k].state == Published ==> k.request in d.artifacts)
  }

  lemma RetireKeeps(w: World, d: Db)
    requires Publication(w) && Retires(w.db, d)
    ensures Keeps(w, w.(db := d))
  {
    hide Forward, Retains, Linked, Reservations, Objects, Stored, Lists;
    var v := w.(db := d);
    RetireFrame(w, d);
    RowsRetain(w, v);
    ReservationsStay(w, v);
    LinksStay(w.db, d);
    RetireStores(w, d);
    RetireLists(w, d);
  }

  lemma RetireFrame(w: World, d: Db)
    requires Retires(w.db, d)
    ensures Forward(w, w.(db := d)) && Rows(w.db, d) && d.nextGeneration >= w.db.nextGeneration
  {
  }

  lemma RetireStores(w: World, d: Db)
    requires Objects(w) && Stored(w) && Linked(w.db) && Retires(w.db, d)
    ensures Objects(w.(db := d)) && Stored(w.(db := d))
  {
    hide Spent;
    BytesStay(w, w.(db := d));
  }

  lemma RetireLists(w: World, d: Db)
    requires Lists(w) && Retires(w.db, d) && Retains(w, w.(db := d))
    ensures Lists(w.(db := d))
  {
    hide Spent, Retired, Retains;
    ListsStay(w, w.(db := d));
  }

  lemma LinksStay(db: Db, d: Db)
    requires Linked(db) && Retires(db, d)
    ensures Linked(d)
  {
  }

  lemma ExpireRetires(db: Db, now: Time, expired: set<RequestId>)
    requires Linked(db) && forall r <- expired :: r in db.artifacts
    ensures Retires(db, ExpireArtifacts(db, now, expired))
  {
  }

  lemma ExpireKeeps(w: World, now: Time, expired: set<RequestId>)
    requires Publication(w) && forall r <- expired :: r in w.db.artifacts
    ensures Keeps(w, w.(db := ExpireArtifacts(w.db, now, expired)))
  {
    hide ExpireArtifacts, Retires, Linked, Reservations, Objects, Stored, Lists, Keeps;
    ExpireRetires(w.db, now, expired);
    RetireKeeps(w, ExpireArtifacts(w.db, now, expired));
  }

  lemma AbandonRetires(db: Db, now: Time)
    requires Linked(db)
    ensures Retires(db, RetireAbandoned(db, now))
  {
  }

  lemma AbandonKeeps(w: World, now: Time)
    requires Publication(w)
    ensures Keeps(w, w.(db := RetireAbandoned(w.db, now)))
  {
    hide RetireAbandoned, Retires, Linked, Reservations, Objects, Stored, Lists, Keeps;
    AbandonRetires(w.db, now);
    RetireKeeps(w, RetireAbandoned(w.db, now));
  }

  lemma TombstonesRetire(db: Db, now: Time)
    requires Linked(db)
    ensures Retires(db, DropTombstones(db, now))
  {
  }

  lemma TombstonesKeep(w: World, now: Time)
    requires Publication(w)
    ensures Keeps(w, w.(db := DropTombstones(w.db, now)))
  {
    hide DropTombstones, Retires, Linked, Reservations, Objects, Stored, Lists, Keeps;
    TombstonesRetire(w.db, now);
    RetireKeeps(w, DropTombstones(w.db, now));
  }

  lemma MarkRetires(db: Db, now: Time, k: Key)
    requires Linked(db)
    ensures Retires(db, MarkDeleted(db, now, k))
  {
  }

  lemma MarkKeeps(w: World, now: Time, k: Key)
    requires Publication(w)
    ensures Keeps(w, w.(db := MarkDeleted(w.db, now, k)))
  {
    hide MarkDeleted, Retires, Linked, Reservations, Objects, Stored, Lists, Keeps;
    MarkRetires(w.db, now, k);
    RetireKeeps(w, MarkDeleted(w.db, now, k));
  }

  lemma MissingRetires(db: Db, now: Time, r: RequestId, k: Key)
    requires Linked(db) && k.request == r
    ensures Retires(db, Missing(db, now, r, k))
  {
    var d := Missing(db, now, r, k);
    assert forall q <- d.artifacts :: d.artifacts[q].key != k;
  }

  /** A reader's pointer is never pending, so forgetting it cannot strand an artifact. */
  lemma MissingKeeps(w: World, now: Time, r: RequestId, k: Key)
    requires Publication(w) && (r, k) in w.held
    ensures Keeps(w, w.(db := Missing(w.db, now, r, k)))
  {
    hide Missing, Retires, Linked, Reservations, Objects, Stored, Keeps;
    MissingRetires(w.db, now, r, k);
    RetireKeeps(w, Missing(w.db, now, r, k));
  }

  lemma LapseKeeps(w: World, picks: Picks)
    requires Publication(w) && Lapse(w.db, w.now, picks).Some?
    ensures Keeps(w, w.(db := SettleOutcomes(Lapse(w.db, w.now, picks).value)))
  {
    CancelAllFrame(w.db, picks.lapsed);
    OtherTables(w, SettleOutcomes(Lapse(w.db, w.now, picks).value));
  }

  lemma SweepKeeps(w: World, picks: Picks)
    requires Publication(w) && Expire(w.db, w.now, picks).Some?
    ensures Keeps(w, w.(db := Expire(w.db, w.now, picks).value))
  {
    var w3 := w.(db := ExpireArtifacts(w.db, w.now, picks.artifacts));
    ExpireKeeps(w, w.now, picks.artifacts);
    var w4 := w3.(db := RetireAbandoned(w3.db, w.now));
    AbandonKeeps(w3, w.now);
    var w5 := w4.(db := DropTombstones(w4.db, w.now));
    TombstonesKeep(w4, w.now);
    OtherTables(w5, w5.db.(requests := w5.db.requests - picks.requests));
  }

  lemma MaintainKeeps(w: World, picks: Picks)
    requires Publication(w) && Maintain(w.db, w.now, picks).Some?
    ensures Keeps(w, w.(db := Maintain(w.db, w.now, picks).value))
  {
    LapseKeeps(w, picks);
    SweepKeeps(w.(db := SettleOutcomes(Lapse(w.db, w.now, picks).value)), picks);
  }

  // ------------------------------------------------------------ worker attempts

  lemma StartKeeps(w: World, d: Db, t: Attempt)
    requires Publication(w) && t.phase.Begun?
    requires d.artifacts == w.db.artifacts && d.uploads == w.db.uploads
    requires d.nextGeneration == w.db.nextGeneration + 1
    ensures Keeps(w, w.(db := d, attempts := w.attempts[w.db.nextGeneration := t]))
  {
    assert w.db.nextGeneration !in w.attempts;
    SpentStays(w, w.(db := d, attempts := w.attempts[w.db.nextGeneration := t]));
  }

  lemma TerminalKeeps(w: World, g: Generation)
    requires Publication(w) && g in w.attempts && w.attempts[g].phase.Begun?
    ensures Keeps(w, w.(db := Terminal(w.db, w.attempts[g].request, g),
                        attempts := w.attempts[g := w.attempts[g].(phase := Finished)]))
  {
    SpentStays(w, w.(db := Terminal(w.db, w.attempts[g].request, g),
                     attempts := w.attempts[g := w.attempts[g].(phase := Finished)]));
  }

  ghost function AfterReserve(w: World, g: Generation, image: Image, u: Upload): World
    requires g in w.attempts
  {
    w.(db := w.db.(uploads := w.db.uploads[KeyOf(w.attempts[g], g) := u]),
       attempts := w.attempts[g := w.attempts[g].(phase := Reserved, image := image)])
  }

  lemma ReserveKeeps(w: World, g: Generation, image: Image, u: Upload)
    requires Publication(w) && g in w.attempts && w.attempts[g].phase.Begun?
    requires KeyOf(w.attempts[g], g) !in w.db.uploads
    requires u.request == w.attempts[g].request && u.generation == g && u.size == image.size && u.state == Pending
    ensures Keeps(w, AfterReserve(w, g, image, u))
  {
    hide Retains, Linked, Reservations, Objects, Stored, Lists;
    ReserveRows(w, g, image, u);
    ReserveObjects(w, g, image, u);
    ReserveLists(w, g, image, u);
    ReserveLinks(w, g, image, u);
  }

  lemma ReserveLinks(w: World, g: Generation, image: Image, u: Upload)
    requires Linked(w.db) && Stored(w) && g in w.attempts
    requires KeyOf(w.attempts[g], g) !in w.db.uploads && u.state == Pending
    ensures Linked(AfterReserve(w, g, image, u).db) && Stored(AfterReserve(w, g, image, u))
  {
  }

  lemma ReserveRows(w: World, g: Generation, image: Image, u: Upload)
    requires Reservations(w) && g in w.attempts && w.attempts[g].phase.Begun?
    requires u.request == w.attempts[g].request && u.generation == g && u.size == image.size
    ensures Reservations(AfterReserve(w, g, image, u))
  {
    SpentStays(w, AfterReserve(w, g, image, u));
  }

  lemma ReserveObjects(w: World, g: Generation, image: Image, u: Upload)
    requires Objects(w) && g in w.attempts && w.attempts[g].phase.Begun?
    ensures Objects(AfterReserve(w, g, image, u))
  {
    BytesStay(w, AfterReserve(w, g, image, u));
  }

  lemma ReserveLists(w: World, g: Generation, image: Image, u: Upload)
    requires Lists(w) && g in w.attempts && w.attempts[g].phase.Begun?
    ensures Lists(AfterReserve(w, g, image, u)) && Retains(w, AfterReserve(w, g, image, u))
  {
    var k, v := KeyOf(w.attempts[g], g), AfterReserve(w, g, image, u);
    SpentStays(w, v);
    assert !Spent(w, k);
    forall q: Key | Retired(w, q) ensures Retired(v, q) { assert q != k; }
    ListsStay(w, v);
  }

  ghost function AfterPut(w: World, g: Generation): World
    requires g in w.attempts
  {
    var t := w.attempts[g];
    w.(bucket := w.bucket[KeyOf(t, g) := t.image],
       attempts := w.attempts[g := t.(phase := if t.phase.Reserved? then Uploaded else t.phase)])
  }

  /** A put, even a late or repeated one, only ever writes the bytes its key stands for. */
  lemma PutKeeps(w: World, g: Generation)
    requires Publication(w) && g in w.attempts && !w.attempts[g].phase.Begun?
    ensures Keeps(w, AfterPut(w, g))
  {
    hide Retains, Linked, Reservations, Objects, Stored, Lists;
    var v := AfterPut(w, g);
    RowsRetain(w, v);
    ReservationsStay(w, v);
    PutLists(w, g);
    PutObjects(w, g);
    PutStores(w, g);
  }

  lemma PutLists(w: World, g: Generation)
    requires Lists(w) && g in w.attempts && !w.attempts[g].phase.Begun? && Retains(w, AfterPut(w, g))
    ensures Lists(AfterPut(w, g))
  {
    hide Spent, Retired, Retains;
    ListsStay(w, AfterPut(w, g));
  }

  lemma PutObjects(w: World, g: Generation)
    requires Objects(w) && g in w.attempts && !w.attempts[g].phase.Begun?
    ensures Objects(AfterPut(w, g))
  {
    var k, v := KeyOf(w.attempts[g], g), AfterPut(w, g);
    SpentStays(w, v);
    forall q <- v.bucket ensures Spent(v, q) && v.bucket[q] == v.attempts[q.generation].image {
      if q != k { assert Spent(w, q) && w.bucket[q] == w.attempts[q.generation].image; }
    }
  }

  lemma PutStores(w: World, g: Generation)
    requires Objects(w) && Stored(w) && g in w.attempts && !w.attempts[g].phase.Begun?
    ensures Stored(AfterPut(w, g))
  {
    var v := AfterPut(w, g);
    forall r <- v.db.artifacts
      ensures v.db.artifacts[r].key in v.bucket
        && v.bucket[v.db.artifacts[r].key] == Image(v.db.artifacts[r].digest, v.db.artifacts[r].size)
    {
      assert w.bucket[w.db.artifacts[r].key] == w.attempts[w.db.artifacts[r].key.generation].image;
    }
  }

  /** What completing key k did to the tables. */
  ghost predicate Promoted(db: Db, d: Db, k: Key, image: Image) {
    && d.uploads.Keys == db.uploads.Keys && d.nextGeneration == db.nextGeneration
    && k in db.uploads && db.uploads[k].state == Pending && d.uploads[k] == db.uploads[k].(state := Published)
    && (forall u <- d.uploads :: u != k ==>
          (d.uploads[u].state == db.uploads[u].state || d.uploads[u].state == Deleting)
          && d.uploads[u].size == db.uploads[u].size
          && d.uploads[u].request == db.uploads[u].request && d.uploads[u].generation == db.uploads[u].generation)
    && k.request in d.artifacts && d.artifacts[k.request].key == k
    && Image(d.artifacts[k.request].digest, d.artifacts[k.request].size) == image
    && (forall r <- d.artifacts :: r != k.request ==> r in db.artifacts && d.artifacts[r] == db.artifacts[r])
  }

  lemma CompletePromotes(db: Db, now: Time, t: Attempt, k: Key, d: Db)
    requires Linked(db) && Complete(db, now, t.job, t.number, t.epoch, k, t.image) == Some(d)
    requires forall u <- db.uploads :: db.uploads[u].request == u.request
    ensures Linked(d) && Promoted(db, d, k, t.image)
  {
    CompleteLinks(db, now, t, k, d);
    hide Linked;
  }

  lemma CompleteLinks(db: Db, now: Time, t: Attempt, k: Key, d: Db)
    requires Linked(db) && Complete(db, now, t.job, t.number, t.epoch, k, t.image) == Some(d)
    requires forall u <- db.uploads :: db.uploads[u].request == u.request
    ensures Linked(d)
  {
  }

  lemma CompleteRows(w: World, k: Key, image: Image, v: World)
    requires Reservations(w) && Lists(w) && Forward(w, v) && Promoted(w.db, v.db, k, image)
    requires v.doomed == w.doomed && v.listed == w.listed && v.orphans == w.orphans && v.held == w.held
    ensures Reservations(v) && Lists(v) && Retains(w, v)
  {
    SpentStays(w, v);
    forall q: Key | Retired(w, q) ensures Retired(v, q) { assert q != k; }
    ListsStay(w, v);
  }

  /** The published object was uploaded, hence is in place with the attempt's bytes. */
  lemma CompleteObjects(w: World, g: Generation, v: World)
    requires Objects(w) && Stored(w) && g in w.attempts && w.attempts[g].phase.Uploaded?
    requires v.bucket == w.bucket && v.attempts == w.attempts[g := w.attempts[g].(phase := Finished)]
    requires Promoted(w.db, v.db, KeyOf(w.attempts[g], g), w.attempts[g].image)
    ensures Objects(v) && Stored(v)
  {
    BytesStay(w, v);
    assert KeyOf(w.attempts[g], g) in w.bucket;
  }

  lemma CompleteKeeps(w: World, g: Generation, v: World)
    requires Publication(w) && g in w.attempts && w.attempts[g].phase.Uploaded?
    requires v.bucket == w.bucket && v.attempts == w.attempts[g := w.attempts[g].(phase := Finished)]
    requires v.doomed == w.doomed && v.listed == w.listed && v.orphans == w.orphans && v.held == w.held
    requires Linked(v.db) && Promoted(w.db, v.db, KeyOf(w.attempts[g], g), w.attempts[g].image)
    ensures Keeps(w, v)
  {
    hide Forward, Retains, Linked, Reservations, Objects, Stored, Lists, Promoted;
    CompleteFrame(w, g, v);
    CompleteObjects(w, g, v);
    CompleteRows(w, KeyOf(w.attempts[g], g), w.attempts[g].image, v);
  }

  lemma CompleteFrame(w: World, g: Generation, v: World)
    requires g in w.attempts && w.attempts[g].phase.Uploaded?
    requires v.attempts == w.attempts[g := w.attempts[g].(phase := Finished)]
    requires Promoted(w.db, v.db, KeyOf(w.attempts[g], g), w.attempts[g].image)
    ensures Forward(w, v) && v.attempts.Keys == w.attempts.Keys && v.db.nextGeneration == w.db.nextGeneration
  {
  }

  // ---------------------------------------------------------- maintainer, readers

  lemma ListsKeep(w: World, v: World)
    requires Publication(w)
    requires v.(doomed := w.doomed, listed := w.listed, orphans := w.orphans, held := w.held) == w
    requires forall k <- v.doomed :: k in w.doomed || (k in w.db.uploads && w.db.uploads[k].state == Deleting)
    requires forall k <- v.listed :: k in w.listed || k in w.bucket
    requires forall k <- v.orphans :: k in w.orphans || (k in w.listed && k !in w.db.uploads)
    requires forall h <- v.held :: h in w.held || (h.0 in w.db.artifacts && w.db.artifacts[h.0].key == h.1)
    ensures Keeps(w, v)
  {
    SpentStays(w, v);
  }

  /** Only retired keys are ever deleted from the bucket. */
  lemma DeleteKeeps(w: World, k: Key)
    requires Publication(w) && Retired(w, k)
    ensures Keeps(w, w.(bucket := w.bucket - {k}))
  {
    SpentStays(w, w.(bucket := w.bucket - {k}));
  }

  lemma TickKeeps(w: World, v: World)
    requires Publication(w) && v == w.(now := v.now)
    ensures Keeps(w, v)
  {
    SpentStays(w, v);
  }

  lemma TransactionKeeps(w: World, p: Policy, a: Action, v: World)
    requires Publication(w) && Next(w, p, a) == Some(v)
    requires a.Tick? || a.CreateW? || a.TouchW? || a.WriteW? || a.RiverA? || a.RiverClean? || a.MaintainA?
      || a.ActivateA? || a.EnableA?
    ensures Keeps(w, v)
  {
    hide Keeps, Linked, Reservations, Objects, Stored, Lists, Maintain, Write;
    if a.WriteW? {
      WriteFrame(w.db, p, w.now, a.w, a.ops, a.clear, a.samples, a.size, a.order);
      OtherTables(w, v.db);
    } else if a.MaintainA? {
      MaintainKeeps(w, a.picks);
    } else if a.Tick? {
      TickKeeps(w, v);
    } else {
      OtherTables(w, v.db);
    }
  }

  lemma AttemptKeeps(w: World, p: Policy, a: Action, v: World)
    requires Publication(w) && Next(w, p, a) == Some(v)
    requires a.BeginA? || a.TerminalA? || a.ReserveA? || a.PutA? || a.CompleteA?
    ensures Keeps(w, v)
  {
    hide Keeps, Linked, Objects, Stored, Lists, Promoted, Complete;
    match a
    case BeginA(j, number) =>
      if Begin(w.db, p, w.now, j, number).Started? {
        StartKeeps(w, v.db, v.attempts[w.db.nextGeneration]);
      } else {
        OtherTables(w, v.db);
      }
    case TerminalA(g) => TerminalKeeps(w, g);
    case ReserveA(g, image) => ReserveKeeps(w, g, image, v.db.uploads[KeyOf(w.attempts[g], g)]);
    case PutA(g) => PutKeeps(w, g);
    case CompleteA(g) =>
      CompletePromotes(w.db, w.now, w.attempts[g], KeyOf(w.attempts[g], g), v.db);
      CompleteKeeps(w, g, v);
  }

  lemma CleanupKeeps(w: World, p: Policy, a: Action, v: World)
    requires Publication(w) && Next(w, p, a) == Some(v)
    requires a.DeleteDoomed? || a.DeleteOrphan? || a.MarkA? || a.MissingA?
    ensures Keeps(w, v)
  {
    hide Keeps, Linked, Reservations, Objects, Stored, Retired, MarkDeleted, Missing;
    match a
    case DeleteDoomed(k) => DeleteKeeps(w, k);
    case DeleteOrphan(k) => DeleteKeeps(w, k);
    case MarkA(k) => MarkKeeps(w, w.now, k);
    case MissingA(r, k) => MissingKeeps(w, w.now, r, k);
  }

  lemma ReadingKeeps(w: World, p: Policy, a: Action, v: World)
    requires Publication(w) && Next(w, p, a) == Some(v)
    requires a.ReadDoomed? || a.ListObject? || a.FindOrphan? || a.ReadArtifact?
    ensures Keeps(w, v)
  {
    ListsKeep(w, v);
  }

  /** Main result: no interleaving of puts, completions, replacements, expiry and deletion breaks it. */
  lemma PublicationPreserved(w: World, p: Policy, a: Action, v: World)
    requires Publication(w) && Next(w, p, a) == Some(v)
    ensures Keeps(w, v)
  {
    if a.BeginA? || a.TerminalA? || a.ReserveA? || a.PutA? || a.CompleteA? {
      AttemptKeeps(w, p, a, v);
    } else if a.DeleteDoomed? || a.DeleteOrphan? || a.MarkA? || a.MissingA? {
      CleanupKeeps(w, p, a, v);
    } else if a.ReadDoomed? || a.ListObject? || a.FindOrphan? || a.ReadArtifact? {
      ReadingKeeps(w, p, a, v);
    } else {
      TransactionKeeps(w, p, a, v);
    }
  }
}
