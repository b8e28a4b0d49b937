/** How uploads, objects and request rows are reclaimed: never under a reader, never early, and not
    later than the next maintenance pass. */
module Reclaiming {
  import opened Basics
  import opened Tables
  import opened Protocol
  import opened ProtocolInvariants
  import opened ProtocolRuns
  import opened Retention
  import PublicationSafety

  // ------------------------------------------------------ uploads, step by step

  /** Only rows that are being deleted carry the time of a confirmed deletion. */
  ghost predicate Unmarked(db: Db) { forall k <- db.uploads :: db.uploads[k].deletedAt.Some? ==> db.uploads[k].state == Deleting }

  /** The image behind k is one of the chosen expired ones. */
  predicate Chosen(db: Db, picks: Picks, k: Key) { exists r <- picks.artifacts :: r in db.artifacts && db.artifacts[r].key == k }

  predicate Old(u: Upload, now: Time) { u.state == Pending && u.created < now - Hour }

  /** A tombstone goes; the upload of a chosen image is retired for an hour later, an abandoned one
      at once, and any other stays as it is. */
  ghost predicate Tidied(db: Db, d: Db, now: Time, picks: Picks, k: Key)
    requires k in db.uploads
  {
    var u := db.uploads[k];
    if Tombstone(u, now) then k !in d.uploads
    else
      k in d.uploads && d.uploads[k] ==
        if Chosen(db, picks, k) then Retire(u, now + Hour) else if Old(u, now) then Retire(u, now) else u
  }

  /** What one maintenance pass does to the upload k. */
  lemma MaintainUpload(db: Db, now: Time, picks: Picks, k: Key)
    requires Maintain(db, now, picks).Some? && k in db.uploads && Linked(db) && Unmarked(db)
    ensures Tidied(db, Maintain(db, now, picks).value, now, picks, k)
    ensures forall q <- Maintain(db, now, picks).value.uploads :: q in db.uploads
  {
    hide Lapse;
    LapseFrame(db, now, picks);
    var m := SettleOutcomes(Lapse(db, now, picks).value);
    ExpireUpload(m, now, picks, k);
  }

  lemma ExpireUpload(db: Db, now: Time, picks: Picks, k: Key)
    requires Expire(db, now, picks).Some? && k in db.uploads && Linked(db) && Unmarked(db)
    ensures Tidied(db, Expire(db, now, picks).value, now, picks, k)
    ensures forall q <- Expire(db, now, picks).value.uploads :: q in db.uploads
  {
    var d1 := ExpireArtifacts(db, now, picks.artifacts);
    ChosenRetired(db, now, picks, k);
    assert d1.uploads[k] == if Chosen(db, picks, k) then Retire(db.uploads[k], now + Hour) else db.uploads[k];
    if Old(db.uploads[k], now) {
      forall r <- d1.artifacts ensures d1.artifacts[r].key != k { assert db.artifacts[r].key in db.uploads; }
      assert Abandoned(d1, now, k);
    }
  }

  lemma ChosenRetired(db: Db, now: Time, picks: Picks, k: Key)
    requires k in db.uploads && forall r <- picks.artifacts :: r in db.artifacts
    ensures ExpireArtifacts(db, now, picks.artifacts).uploads[k]
      == if Chosen(db, picks, k) then Retire(db.uploads[k], now + Hour) else db.uploads[k]
  {
    var keys := set r <- picks.artifacts :: db.artifacts[r].key;
    if Chosen(db, picks, k) {
      var r :| r in picks.artifacts && r in db.artifacts && db.artifacts[r].key == k;
      assert k in keys;
    }
  }

  /** Action a replaces the image behind k by a new one. */
  ghost predicate Supersedes(w: World, a: Action, k: Key) {
    a.CompleteA? && a.g in w.attempts && w.attempts[a.g].request in w.db.artifacts && w.db.artifacts[w.attempts[a.g].request].key == k
  }

  /** Action a publishes the upload k. */
  ghost predicate Promotes(w: World, a: Action, k: Key) { a.CompleteA? && a.g in w.attempts && KeyOf(w.attempts[a.g], a.g) == k }

  /** Every way in which an upload row can change or go. */
  ghost predicate UploadMoves(w: World, a: Action, v: World, k: Key)
    requires k in w.db.uploads
  {
    var u := w.db.uploads[k];
    if a.MaintainA? && Tombstone(u, w.now) then k !in v.db.uploads
    else
      k in v.db.uploads && v.db.uploads[k] ==
        if Promotes(w, a, k) then u.(state := Published)
        else if Supersedes(w, a, k) then Retire(u, w.now + Hour)
        else if a.MaintainA? && Chosen(w.db, a.picks, k) then Retire(u, w.now + Hour)
        else if a.MaintainA? && Old(u, w.now) then Retire(u, w.now)
        else if a.MissingA? && a.k == k then Retire(u, w.now)
        else if a.MarkA? && a.k == k && u.state == Deleting then Deleted(u, w.now)
        else u
  }

  lemma UploadStep(w: World, p: Policy, a: Action, v: World, k: Key)
    requires Next(w, p, a) == Some(v) && k in w.db.uploads && Linked(w.db) && Unmarked(w.db)
    ensures UploadMoves(w, a, v, k)
  {
    hide Next, UploadMoves, Linked, Unmarked;
    match a
    case MaintainA(picks) => MaintainMoves(w, p, picks, v, k);
    case CompleteA(g) => CompleteMoves(w, p, g, v, k);
    case MissingA(r, q) => CleanupMoves(w, p, a, v, k);
    case MarkA(q) => CleanupMoves(w, p, a, v, k);
    case _ => OtherMoves(w, p, a, v, k);
  }

  lemma MaintainMoves(w: World, p: Policy, picks: Picks, v: World, k: Key)
    requires Next(w, p, MaintainA(picks)) == Some(v) && k in w.db.uploads && Linked(w.db) && Unmarked(w.db)
    ensures UploadMoves(w, MaintainA(picks), v, k)
  {
    hide Linked, Unmarked, Maintain, Chosen;
    MaintainedWorld(w, p, MaintainA(picks), v);
    MaintainUpload(w.db, w.now, picks, k);
  }

  lemma CompleteMoves(w: World, p: Policy, g: Generation, v: World, k: Key)
    requires Next(w, p, CompleteA(g)) == Some(v) && k in w.db.uploads
    ensures UploadMoves(w, CompleteA(g), v, k)
  {
    hide Eligible, Authorized;
  }

  lemma CleanupMoves(w: World, p: Policy, a: Action, v: World, k: Key)
    requires Next(w, p, a) == Some(v) && k in w.db.uploads && (a.MissingA? || a.MarkA?)
    ensures UploadMoves(w, a, v, k)
  {
  }

  lemma OtherMoves(w: World, p: Policy, a: Action, v: World, k: Key)
    requires Next(w, p, a) == Some(v) && k in w.db.uploads && !a.MaintainA? && !a.CompleteA? && !a.MissingA? && !a.MarkA?
    ensures UploadMoves(w, a, v, k)
  {
    OtherKeep(w, p, a, v, k);
  }

  lemma OtherKeep(w: World, p: Policy, a: Action, v: World, k: Key)
    requires Next(w, p, a) == Some(v) && k in w.db.uploads && !a.MaintainA? && !a.CompleteA? && !a.MissingA? && !a.MarkA?
    ensures k in v.db.uploads && v.db.uploads[k] == w.db.uploads[k]
  {
    hide Write, Begin, Reserve;
    match a
    case WriteW(id, ops, clear, samples, size, order) =>
      PublicationSafety.WriteFrame(w.db, p, w.now, id, ops, clear, samples, size, order);
    case BeginA(j, number) => BeginFrame(w.db, p, w.now, j, number);
    case ReserveA(g, image) => ReserveKeeps(w.db, w.now, w.attempts[g].job, KeyOf(w.attempts[g], g), image.size, k);
    case _ =>
  }

  lemma ReserveKeeps(db: Db, now: Time, j: JobId, k: Key, size: nat, q: Key)
    requires Reserve(db, now, j, k, size).Some?
    ensures var d := Reserve(db, now, j, k, size).value;
      && k !in db.uploads && d.uploads.Keys == db.uploads.Keys + {k}
      && d.uploads[k] == Upload(k.request, k.generation, size, Pending, now, None, None)
      && (q in db.uploads ==> q in d.uploads && d.uploads[q] == db.uploads[q])
  {
  }

  /** New rows are pending and come from a reservation. */
  lemma NewUpload(w: World, p: Policy, a: Action, v: World, k: Key)
    requires Next(w, p, a) == Some(v) && k !in w.db.uploads && k in v.db.uploads && Linked(w.db) && Unmarked(w.db)
    ensures a.ReserveA? && a.g in w.attempts && k == KeyOf(w.attempts[a.g], a.g)
    ensures v.db.uploads[k] == Upload(k.request, k.generation, a.image.size, Pending, w.now, None, None)
  {
    hide Next, Maintain, Linked, Unmarked;
    match a
    case ReserveA(g, image) => ReservesNew(w, p, g, image, v, k);
    case MaintainA(picks) =>
      MaintainedWorld(w, p, a, v);
      MaintainFrame(w.db, w.now, picks);
    case _ => SameRows(w, p, a, v);
  }

  lemma ReservesNew(w: World, p: Policy, g: Generation, image: Image, v: World, k: Key)
    requires Next(w, p, ReserveA(g, image)) == Some(v) && k !in w.db.uploads && k in v.db.uploads
    ensures g in w.attempts && k == KeyOf(w.attempts[g], g)
    ensures v.db.uploads[k] == Upload(k.request, k.generation, image.size, Pending, w.now, None, None)
  {
    hide Reserve;
    ReserveKeeps(w.db, w.now, w.attempts[g].job, KeyOf(w.attempts[g], g), image.size, k);
  }

  lemma SameRows(w: World, p: Policy, a: Action, v: World)
    requires Next(w, p, a) == Some(v) && !a.ReserveA? && !a.MaintainA?
    ensures v.db.uploads.Keys == w.db.uploads.Keys
  {
    hide Write, Begin, Eligible, Authorized, ActiveJobs, Ready;
    match a
    case WriteW(id, ops, clear, samples, size, order) =>
      PublicationSafety.WriteFrame(w.db, p, w.now, id, ops, clear, samples, size, order);
    case BeginA(j, number) => BeginFrame(w.db, p, w.now, j, number);
    case _ =>
  }

  lemma MaintainFrame(db: Db, now: Time, picks: Picks)
    requires Maintain(db, now, picks).Some?
    ensures forall k <- Maintain(db, now, picks).value.uploads :: k in db.uploads
  {
    hide Lapse;
    LapseFrame(db, now, picks);
  }

  lemma UnmarkedStep(w: World, p: Policy, a: Action, v: World)
    requires Next(w, p, a) == Some(v) && Linked(w.db) && Unmarked(w.db)
    ensures Unmarked(v.db)
  {
    hide Next, Tombstone, Linked, Chosen, Supersedes;
    forall k <- v.db.uploads ensures v.db.uploads[k].deletedAt.Some? ==> v.db.uploads[k].state == Deleting {
      if k in w.db.uploads {
        UploadStep(w, p, a, v, k);
        if Promotes(w, a, k) { PromotesPending(w, p, a.g, v); }
      } else {
        NewUpload(w, p, a, v, k);
      }
    }
  }

  lemma NoUploads(db: Db)
    requires db.uploads == map[]
    ensures Unmarked(db)
  {
  }

  lemma {:induction false} NothingMarked(cap: nat, worlds: seq<World>, events: seq<Event>, j: nat)
    requires IsRun(cap, worlds, events) && j < |worlds|
    ensures Unmarked(worlds[j].db)
  {
    hide Next, Unmarked, Queue, Storage, Aggregates;
    if j == 0 {
      NoUploads(worlds[0].db);
    } else {
      NothingMarked(cap, worlds, events, j - 1);
      Reachable(cap, worlds, events, j - 1);
      UnmarkedStep(worlds[j - 1], events[j - 1].policy, events[j - 1].action, worlds[j]);
    }
  }

  lemma PromotesPending(w: World, p: Policy, g: Generation, v: World)
    requires Next(w, p, CompleteA(g)) == Some(v)
    ensures g in w.attempts && KeyOf(w.attempts[g], g) in w.db.uploads && w.db.uploads[KeyOf(w.attempts[g], g)].state == Pending
  {
  }

  // --------------------------------------------------------------- readers' grace

  /** The object behind k is in place, and nobody may delete it before `until`. */
  ghost predicate Guarded(w: World, k: Key, until: Time, image: Image) {
    && k in w.bucket && w.bucket[k] == image && k in w.db.uploads && k !in w.doomed && k !in w.orphans
    && w.db.uploads[k].deletedAt.None? && GuardedRow(w.db.uploads[k], until)
  }

  predicate GuardedRow(u: Upload, until: Time) {
    u.state == Published || (u.state == Deleting && u.deleteAfter.Some? && u.deleteAfter.value >= until)
  }

  lemma PointedGuarded(w: World, r: RequestId, until: Time)
    requires Publication(w) && Unmarked(w.db) && r in w.db.artifacts
    ensures var k := w.db.artifacts[r].key; k in w.bucket && Guarded(w, k, until, w.bucket[k])
  {
  }

  /** The row of a guarded key stays guarded. */
  lemma GuardedRowStep(w: World, p: Policy, a: Action, v: World, k: Key, until: Time)
    requires Next(w, p, a) == Some(v) && Linked(w.db) && Unmarked(w.db) && k in w.db.uploads
    requires w.db.uploads[k].deletedAt.None? && GuardedRow(w.db.uploads[k], until) && k !in w.doomed
    requires w.now < until <= w.now + Hour && !(a.MissingA? && a.k == k)
    ensures k in v.db.uploads && v.db.uploads[k].deletedAt.None? && GuardedRow(v.db.uploads[k], until)
  {
    hide Next, Linked, Unmarked, Chosen, Supersedes;
    UploadStep(w, p, a, v, k);
    if Promotes(w, a, k) { PromotesPending(w, p, a.g, v); }
    if a.MarkA? { MarksDoomed(w, p, a.k, v); }
  }

  lemma MarksDoomed(w: World, p: Policy, k: Key, v: World)
    requires Next(w, p, MarkA(k)) == Some(v)
    ensures k in w.doomed
  {
  }

  /** The row of k is being deleted, and its time has come. */
  predicate Due(w: World, k: Key) {
    k in w.db.uploads && w.db.uploads[k].state == Deleting && w.db.uploads[k].deleteAfter.Some?
    && w.db.uploads[k].deleteAfter.value <= w.now
  }

  /** Maintenance deletes the object behind k. */
  predicate Deletes(w: World, a: Action, k: Key) {
    (a.DeleteDoomed? && a.k == k && k in w.doomed) || (a.DeleteOrphan? && a.k == k && k in w.orphans)
  }

  /** What an action does to the object and the lists. */
  lemma ObjectStep(w: World, p: Policy, a: Action, v: World, k: Key)
    requires Next(w, p, a) == Some(v) && k in w.bucket && Objects(w)
    ensures (k in v.bucket && v.bucket[k] == w.bucket[k]) || Deletes(w, a, k)
  {
    hide Next, Objects;
    match a
    case PutA(g) => PutObject(w, p, g, v, k);
    case _ => OtherObject(w, p, a, v, k);
  }

  lemma PutObject(w: World, p: Policy, g: Generation, v: World, k: Key)
    requires Next(w, p, PutA(g)) == Some(v) && k in w.bucket && Objects(w)
    ensures k in v.bucket && v.bucket[k] == w.bucket[k]
  {
  }

  lemma OtherObject(w: World, p: Policy, a: Action, v: World, k: Key)
    requires Next(w, p, a) == Some(v) && k in w.bucket && !a.PutA?
    ensures (k in v.bucket && v.bucket[k] == w.bucket[k]) || Deletes(w, a, k)
  {
    hide Write, Maintain, Begin, Reserve, Complete, Terminal, Missing, MarkDeleted, Activate, Enable, CreateWorkspace, Touch;
  }

  lemma ListsStep(w: World, p: Policy, a: Action, v: World, k: Key)
    requires Next(w, p, a) == Some(v)
    ensures k in v.doomed ==> k in w.doomed || Due(w, k)
    ensures k in v.orphans ==> k in w.orphans || k !in w.db.uploads
  {
    hide Write, Maintain, Begin, Reserve, Complete, Terminal, Missing, MarkDeleted, Activate, Enable, CreateWorkspace, Touch;
  }

  lemma GuardedStep(w: World, p: Policy, a: Action, v: World, k: Key, until: Time, image: Image)
    requires Next(w, p, a) == Some(v) && Publication(w) && Unmarked(w.db) && Guarded(w, k, until, image)
    requires w.now < until <= w.now + Hour && !(a.MissingA? && a.k == k)
    ensures Guarded(v, k, until, image)
  {
    hide Next, Linked, Reservations, Stored, Lists, Objects, Unmarked;
    GuardedRowStep(w, p, a, v, k, until);
    ObjectStep(w, p, a, v, k);
    ListsStep(w, p, a, v, k);
  }

  ghost predicate NeverReported(events: seq<Event>, i: nat, j: nat, k: Key)
    requires j <= |events|
  {
    forall n | i <= n < j :: !(events[n].action.MissingA? && events[n].action.k == k)
  }

  lemma {:induction false} GuardedOn(cap: nat, worlds: seq<World>, events: seq<Event>, i: nat, j: nat, k: Key, image: Image)
    requires IsRun(cap, worlds, events) && i <= j < |worlds| && Guarded(worlds[i], k, worlds[i].now + Hour, image)
    requires worlds[j].now < worlds[i].now + Hour && NeverReported(events, i, j, k)
    ensures Guarded(worlds[j], k, worlds[i].now + Hour, image)
    decreases j
  {
    hide Next, Guarded, Initial, Unmarked, Publication, Queue, Storage, Aggregates;
    if i < j {
      ClockRuns(cap, worlds, events, j - 1, j);
      ClockRuns(cap, worlds, events, i, j - 1);
      GuardedOn(cap, worlds, events, i, j - 1, k, image);
      Reachable(cap, worlds, events, j - 1);
      NothingMarked(cap, worlds, events, j - 1);
      GuardedStep(worlds[j - 1], events[j - 1].policy, events[j - 1].action, worlds[j], k, worlds[i].now + Hour, image);
    }
  }

  /** Main result: whoever has read which object holds an image can fetch these very bytes for an
      hour, whatever is published, expired, maintained or deleted meanwhile, unless the object is
      reported missing. */
  lemma ReadersGrace(cap: nat, worlds: seq<World>, events: seq<Event>, i: nat, j: nat, r: RequestId)
    requires IsRun(cap, worlds, events) && i <= j < |worlds| && r in worlds[i].db.artifacts
    requires worlds[j].now < worlds[i].now + Hour && NeverReported(events, i, j, worlds[i].db.artifacts[r].key)
    ensures var a := worlds[i].db.artifacts[r];
      a.key in worlds[j].bucket && worlds[j].bucket[a.key] == Image(a.digest, a.size)
  {
    hide Next, Initial, Queue, Storage, Aggregates;
    Reachable(cap, worlds, events, i);
    NothingMarked(cap, worlds, events, i);
    PointedGuarded(worlds[i], r, worlds[i].now + Hour);
    var k := worlds[i].db.artifacts[r].key;
    GuardedOn(cap, worlds, events, i, j, k, worlds[i].bucket[k]);
  }

  // ------------------------------------------------------- uploads under way

  /** The upload k is pending as it was reserved. */
  ghost predicate StillPending(db: Db, k: Key, u: Upload) { k in db.uploads && db.uploads[k] == u && u.state == Pending && u.deletedAt.None? }

  lemma PendingStep(w: World, p: Policy, a: Action, v: World, k: Key, u: Upload)
    requires Next(w, p, a) == Some(v) && Linked(w.db) && Unmarked(w.db) && StillPending(w.db, k, u)
    requires w.now <= u.created + Hour && !(a.MissingA? && a.k == k) && !Promotes(w, a, k)
    ensures StillPending(v.db, k, u)
  {
    hide Next, Unmarked;
    UploadStep(w, p, a, v, k);
  }

  ghost predicate NeverPromoted(worlds: seq<World>, events: seq<Event>, i: nat, j: nat, k: Key)
    requires |worlds| == |events| + 1 && j <= |events|
  {
    forall n | i <= n < j :: !Promotes(worlds[n], events[n].action, k)
  }

  lemma {:induction false} PendingOn(cap: nat, worlds: seq<World>, events: seq<Event>, i: nat, j: nat, k: Key, u: Upload)
    requires IsRun(cap, worlds, events) && i <= j < |worlds| && StillPending(worlds[i].db, k, u)
    requires worlds[j].now <= u.created + Hour && NeverReported(events, i, j, k) && NeverPromoted(worlds, events, i, j, k)
    ensures StillPending(worlds[j].db, k, u)
    decreases j
  {
    hide Next, Initial, StillPending, Unmarked, Queue, Storage, Aggregates, Promotes;
    if i < j {
      ClockRuns(cap, worlds, events, j - 1, j);
      PendingOn(cap, worlds, events, i, j - 1, k, u);
      Reachable(cap, worlds, events, j - 1);
      NothingMarked(cap, worlds, events, j - 1);
      PendingStep(worlds[j - 1], events[j - 1].policy, events[j - 1].action, worlds[j], k, u);
    }
  }

  lemma ReserveAdds(w: World, p: Policy, g: Generation, image: Image, v: World)
    requires Next(w, p, ReserveA(g, image)) == Some(v)
    ensures g in w.attempts
    ensures StillPending(v.db, KeyOf(w.attempts[g], g), Upload(w.attempts[g].request, g, image.size, Pending, w.now, None, None))
  {
  }

  /** Main result: a reserved upload is left alone for an hour, until it is published. */
  lemma PendingForAnHour(cap: nat, worlds: seq<World>, events: seq<Event>, i: nat, j: nat, g: Generation, image: Image)
    requires IsRun(cap, worlds, events) && i < j < |worlds| && events[i].action == ReserveA(g, image) && g in worlds[i].attempts
    requires var k := KeyOf(worlds[i].attempts[g], g);
      worlds[j].now <= worlds[i].now + Hour && NeverReported(events, i + 1, j, k) && NeverPromoted(worlds, events, i + 1, j, k)
    ensures var k := KeyOf(worlds[i].attempts[g], g);
      k in worlds[j].db.uploads && worlds[j].db.uploads[k].state == Pending
  {
    hide Next, Initial;
    ReserveAdds(worlds[i], events[i].policy, g, image, worlds[i + 1]);
    var t := worlds[i].attempts[g];
    PendingOn(cap, worlds, events, i + 1, j, KeyOf(t, g), Upload(t.request, g, image.size, Pending, worlds[i].now, None, None));
  }

  // -------------------------------------------------------------- storage and rows

  /** The bytes of an upload count until its deletion is confirmed. */
  lemma CountedUntilDeleted(w: World, p: Policy, a: Action, v: World, k: Key)
    requires Next(w, p, a) == Some(v) && Linked(w.db) && Unmarked(w.db) && k in Accounted(w.db.uploads)
    ensures k in Accounted(v.db.uploads) || (a == MarkA(k) && k in w.doomed && w.db.uploads[k].state == Deleting)
  {
    hide Next, Linked, Unmarked, Chosen, Supersedes;
    UploadStep(w, p, a, v, k);
    if a.MarkA? { MarksDoomed(w, p, a.k, v); }
  }

  /** A confirmed deletion is dated once, asks for another deletion an hour later, and its key is
      remembered for at least a week. */
  lemma DeletionRemembered(w: World, p: Policy, a: Action, v: World, k: Key)
    requires Next(w, p, a) == Some(v) && Linked(w.db) && Unmarked(w.db) && k in w.db.uploads && w.db.uploads[k].deletedAt.Some?
    ensures if k in v.db.uploads then v.db.uploads[k].deletedAt == w.db.uploads[k].deletedAt
      else a.MaintainA? && w.db.uploads[k].deletedAt.value < w.now - 7 * Day && w.db.uploads[k].created < w.now - 8 * Day
    ensures a == MarkA(k) ==> k in v.db.uploads && v.db.uploads[k].deleteAfter == Some(w.now + Hour)
  {
    hide Next, Linked, Chosen, Supersedes;
    UploadStep(w, p, a, v, k);
    if Promotes(w, a, k) { PromotesPending(w, p, a.g, v); }
  }

  /** Confirming a deletion dates it, once, and asks for the next one an hour later; only an upload
      that is being deleted is touched. */
  lemma DeletionConfirmed(w: World, p: Policy, k: Key, v: World)
    requires Next(w, p, MarkA(k)) == Some(v)
    ensures forall q <- w.db.uploads :: q in v.db.uploads && (q != k || !w.db.uploads[k].state.Deleting? ==> v.db.uploads[q] == w.db.uploads[q])
    ensures k in w.db.uploads && w.db.uploads[k].state.Deleting? ==>
      var u, t := w.db.uploads[k], v.db.uploads[k];
      t == u.(deletedAt := t.deletedAt, deleteAfter := Some(w.now + Hour))
      && t.deletedAt == Some(if u.deletedAt.Some? then u.deletedAt.value else w.now)
  {
  }

  /** Maintenance drops exactly the requests chosen: a day after their admission at the earliest, and
      only when nothing refers to them. */
  lemma RequestGoes(db: Db, now: Time, picks: Picks, r: RequestId)
    requires Maintain(db, now, picks).Some? && r in db.requests
    ensures r in picks.requests <==> r !in Maintain(db, now, picks).value.requests
    ensures r in picks.requests ==> db.requests[r].created < now - Day && Unreferred(Maintain(db, now, picks).value, db.requests[r], r)
  {
    hide Lapse;
    LapseRows(db, now, picks, r);
  }

  /** Nobody wants or pins r, it has no image and no upload, and its job is not under way. */
  ghost predicate Unreferred(d: Db, q: Request, r: RequestId) {
    && !Wanted(d, r) && r !in d.pins.Values && r !in d.artifacts && (forall k <- d.uploads :: d.uploads[k].request != r)
    && (q.job.Some? ==> !ActiveJob(d, q.job.value))
  }

  /** Nothing in lapsing touches when a request was admitted or which job it has. */
  lemma LapseRows(db: Db, now: Time, picks: Picks, r: RequestId)
    requires Lapse(db, now, picks).Some? && r in db.requests
    ensures var d := Lapse(db, now, picks).value;
      r in d.requests && d.requests[r].created == db.requests[r].created && d.requests[r].job == db.requests[r].job
  {
    CancelAllRows(db, picks.lapsed, r);
  }

  lemma {:induction false} CancelAllRows(db: Db, pairs: seq<(WorkspaceId, RequestId)>, r: RequestId)
    requires r in db.requests
    ensures var d := CancelAll(db, pairs);
      r in d.requests && d.requests[r].created == db.requests[r].created && d.requests[r].job == db.requests[r].job
    decreases |pairs|
  {
    if pairs != [] { CancelAllRows(CancelOne(db, pairs[0].0, pairs[0].1), pairs[1..], r); }
  }

  /** After maintenance no request claims to be queued or running under a job that River has given up:
      it is failed when the job was discarded, else cancelled. Other outcomes stay. */
  lemma NoneStuck(db: Db, now: Time, picks: Picks, r: RequestId)
    requires Maintain(db, now, picks).Some? && r in Maintain(db, now, picks).value.requests
    ensures r in db.requests && r in Lapse(db, now, picks).value.requests
    ensures var d, before := Maintain(db, now, picks).value, Lapse(db, now, picks).value.requests[r];
      var given := before.job.Some? && before.job.value in d.jobs && d.jobs[before.job.value].state in {Discarded, JobCancelled};
      var open := before.outcome in {WasQueued, WasRunning};
      d.requests[r] == before.(outcome := if !given || !open then before.outcome
                                          else if d.jobs[before.job.value].state.Discarded? then WasFailed else WasCancelled)
  {
    hide Lapse;
    LapseKeys(db, now, picks);
  }

  lemma LapseKeys(db: Db, now: Time, picks: Picks)
    requires Lapse(db, now, picks).Some?
    ensures Lapse(db, now, picks).value.requests.Keys == db.requests.Keys
  {
    CancelAllKeys(db, picks.lapsed);
  }

  lemma {:induction false} CancelAllKeys(db: Db, pairs: seq<(WorkspaceId, RequestId)>)
    ensures CancelAll(db, pairs).requests.Keys == db.requests.Keys
    decreases |pairs|
  {
    if pairs != [] { CancelAllKeys(CancelOne(db, pairs[0].0, pairs[0].1), pairs[1..]); }
  }

  /** An upload behind an image that stays is left alone, whatever its state and age, unless it was
      being deleted before. */
  lemma PointedKept(db: Db, now: Time, picks: Picks, r: RequestId)
    requires Maintain(db, now, picks).Some? && r in db.artifacts
    requires forall e <- picks.artifacts :: e in db.artifacts ==> db.artifacts[e].key != db.artifacts[r].key
    requires db.artifacts[r].key in db.uploads && !db.uploads[db.artifacts[r].key].state.Deleting?
    ensures var k := db.artifacts[r].key;
      k in Maintain(db, now, picks).value.uploads && Maintain(db, now, picks).value.uploads[k] == db.uploads[k]
  {
    hide Lapse, Expire;
    LapseFrame(db, now, picks);
    ExpirePointed(SettleOutcomes(Lapse(db, now, picks).value), now, picks, r);
  }

  lemma ExpirePointed(db: Db, now: Time, picks: Picks, r: RequestId)
    requires Expire(db, now, picks).Some? && r in db.artifacts
    requires forall e <- picks.artifacts :: e in db.artifacts ==> db.artifacts[e].key != db.artifacts[r].key
    requires db.artifacts[r].key in db.uploads && !db.uploads[db.artifacts[r].key].state.Deleting?
    ensures var k := db.artifacts[r].key;
      k in Expire(db, now, picks).value.uploads && Expire(db, now, picks).value.uploads[k] == db.uploads[k]
  {
    hide HasLivePin, Collectable;
    var k, d := db.artifacts[r].key, ExpireArtifacts(db, now, picks.artifacts);
    assert d.uploads[k] == db.uploads[k];
    assert r in d.artifacts && d.artifacts[r].key == k;
    assert !Abandoned(d, now, k);
    assert RetireAbandoned(d, now).uploads[k] == db.uploads[k];
  }
}
