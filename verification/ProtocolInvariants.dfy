/** What every reachable state of the publication protocol satisfies. */
module ProtocolInvariants {
  import opened Basics
  import opened Tables
  import opened Protocol

  // ------------------------------------------------- artifacts, uploads, bucket

  /** Published uploads and artifacts correspond one to one. */
  ghost predicate Linked(db: Db) {
    && (forall r <- db.artifacts :: var k := db.artifacts[r].key;
          k.request == r && k in db.uploads && db.uploads[k].state == Published && db.uploads[k].request == r)
    && (forall k <- db.uploads :: db.uploads[k].state == Published ==>
          k.request in db.artifacts && db.artifacts[k.request].key == k)
  }

  /** Generation and request of k belong to an attempt that is past its reservation. */
  ghost predicate Spent(w: World, k: Key) {
    k.generation in w.attempts && w.attempts[k.generation].request == k.request
    && !w.attempts[k.generation].phase.Begun?
  }

  /** Nobody can publish k any more. */
  ghost predicate Retired(w: World, k: Key) {
    Spent(w, k) && (k in w.db.uploads ==> w.db.uploads[k].state == Deleting)
  }

  /** Upload rows carry the identity and size of the attempt that reserved them. */
  ghost predicate Reservations(w: World) {
    forall k <- w.db.uploads :: Spent(w, k)
      && w.db.uploads[k].request == k.request && w.db.uploads[k].generation == k.generation
      && w.db.uploads[k].size == w.attempts[k.generation].image.size
  }

  /** Objects hold the bytes of their attempt, and an uploaded pending object is in place. */
  ghost predicate Objects(w: World) {
    && (forall k <- w.bucket :: Spent(w, k) && w.bucket[k] == w.attempts[k.generation].image)
    && (forall g <- w.attempts :: var k := KeyOf(w.attempts[g], g);
          w.attempts[g].phase.Uploaded? && k in w.db.uploads && w.db.uploads[k].state == Pending ==> k in w.bucket)
  }

  /** Every artifact names bytes that are in the bucket exactly as they were uploaded. */
  ghost predicate Stored(w: World) {
    forall r <- w.db.artifacts :: var a := w.db.artifacts[r];
      a.key in w.bucket && w.bucket[a.key] == Image(a.digest, a.size)
  }

  ghost predicate Lists(w: World) {
    && (forall k <- w.doomed :: Retired(w, k))
    && (forall k <- w.listed :: Spent(w, k))
    && (forall k <- w.orphans :: Retired(w, k))
    && (forall h <- w.held :: h.1.request == h.0 && Spent(w, h.1)
          && (h.1 in w.db.uploads ==> w.db.uploads[h.1].state != Pending))
  }

  ghost predicate Publication(w: World) {
    && Linked(w.db) && Reservations(w) && Objects(w) && Stored(w) && Lists(w)
    && (forall g <- w.attempts :: g < w.db.nextGeneration)
  }

  // ------------------------------------------------------------------ the queue

  /** Rows refer to existing rows (the foreign keys) and counters are ahead of every drawn number. */
  ghost predicate References(db: Db) {
    && (forall i <- db.interests :: i.0 in db.workspaces && i.1 in db.requests)
    && (forall p <- db.pins :: p.0 in db.workspaces && db.pins[p] in db.requests)
    && (forall r <- db.artifacts :: r in db.requests)
    && (forall r <- db.requests :: db.requests[r].generation < db.nextGeneration
          && (db.requests[r].job.Some? ==> db.requests[r].job.value < db.nextJob))
    && (forall j <- db.jobs :: j < db.nextJob)
  }

  /** An active job is the current job of its request, under the current epoch and build. */
  ghost predicate CurrentJobs(db: Db) {
    forall j <- db.jobs :: Active(db.jobs[j].state) ==>
      var r := db.jobs[j].request;
      r in db.requests && db.requests[r].job == Some(j)
      && db.requests[r].epoch == db.control.epoch && r.build == db.control.build
  }

  /** `cap` is the largest number of outstanding jobs any running release is configured for. */
  ghost predicate Bounds(db: Db, cap: nat) {
    && |ActiveJobs(db.jobs)| <= cap
    && (forall r: RequestId :: |Subscribers(db.interests, r)| <= MaxSubscribers)
    && |db.workspaces| <= WorkspaceRows
  }

  ghost predicate Queue(db: Db, cap: nat) {
    References(db) && CurrentJobs(db) && Bounds(db, cap)
  }

  /** Unconfirmed uploads and workspace aggregates stay within the configured storage. */
  ghost predicate Storage(db: Db) {
    && Total(Accounted(db.uploads)) <= UploadBytes
    && |Accounted(db.uploads)| <= UploadRows
    && Total(Sizes(db.workspaces)) <= WorkspaceBytes
  }

  // ----------------------------------------------------------------- workspaces

  ghost function PinsOf(pins: map<(WorkspaceId, SampleId), RequestId>, w: WorkspaceId): map<(WorkspaceId, SampleId), RequestId> {
    map p <- pins | p.0 == w :: pins[p]
  }

  /** Pins are exactly the favourites with a job; interests belong to retained samples. */
  ghost predicate Faithful(db: Db, w: WorkspaceId)
    requires w in db.workspaces
  {
    var samples := db.workspaces[w].samples;
    && DistinctPins(samples)
    && PinsOf(db.pins, w) == PinRows(w, samples)
    && Obsolete(db.interests, w, samples) == {}
  }

  ghost predicate Aggregates(db: Db) {
    forall w <- db.workspaces :: Faithful(db, w)
  }

  ghost predicate Inv(w: World, cap: nat) {
    Publication(w) && Queue(w.db, cap) && Storage(w.db) && Aggregates(w.db)
  }
}
