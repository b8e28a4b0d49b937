/**
 The publication protocol as a transition system: committed transactions on the tables, bucket
 operations between them, worker attempts and maintenance passes that may stall at any point.

 Lists a maintainer has read (`doomed`, `listed`, `orphans`) and pointers a reader holds
 (`held`) never shrink here, so every delay, crash and overlap of those processes is covered.
 */
module Protocol {
  import opened Basics
  import opened Tables

  datatype Phase = Begun | Reserved | Uploaded | Finished

  /** One execution of Worker.Work, named by its generation. */
  datatype Attempt = Attempt(job: JobId, number: nat, request: RequestId, epoch: nat, phase: Phase, image: Image)

  datatype World = World(
    now: Time,
    db: Db,
    bucket: map<Key, Image>,
    attempts: map<Generation, Attempt>,
    doomed: set<Key>,    // read by a maintenance pass: deleting and due
    listed: set<Key>,    // seen in a bucket listing by reconcile
    orphans: set<Key>,   // found without a row by reconcile
    held: set<(RequestId, Key)>)  // artifact pointers read by image requests

  datatype Action =
    | Tick(seconds: nat)
    | CreateW(w: WorkspaceId)
    | TouchW(w: WorkspaceId)
    | WriteW(w: WorkspaceId, ops: seq<QueueOp>, clear: bool, samples: set<Sample>, size: nat, order: seq<RequestId>)
    | BeginA(job: JobId, number: nat)
    | TerminalA(g: Generation)
    | ReserveA(g: Generation, image: Image)
    | PutA(g: Generation)
    | CompleteA(g: Generation)
    | RiverA(job: JobId, state: JobState)
    | RiverClean(job: JobId)
    | MaintainA(picks: Picks)
    | ReadDoomed(k: Key)
    | DeleteDoomed(k: Key)
    | MarkA(k: Key)
    | ListObject(k: Key)
    | FindOrphan(k: Key)
    | DeleteOrphan(k: Key)
    | ReadArtifact(r: RequestId)
    | MissingA(r: RequestId, k: Key)
    | ActivateA(build: Build)
    | EnableA(on: bool)

  function KeyOf(a: Attempt, g: Generation): Key { Key(a.request, g) }

  function WithDb(w: World, d: Option<Db>): Option<World> {
    if d.Some? then Some(w.(db := d.value)) else None
  }

  /** The world after an action, or None when it is not enabled or its transaction aborts. */
  ghost function Next(w: World, p: Policy, a: Action): Option<World> {
    match a
    case Tick(seconds) => Some(w.(now := w.now + seconds))
    case CreateW(id) => WithDb(w, CreateWorkspace(w.db, w.now, id))
    case TouchW(id) => WithDb(w, Touch(w.db, w.now, id))
    case WriteW(id, ops, clear, samples, size, order) =>
      WithDb(w, Write(w.db, p, w.now, id, ops, clear, samples, size, order))
    case BeginA(j, number) =>
      (match Begin(w.db, p, w.now, j, number)
       case Refused => None
       case Expired(d) => Some(w.(db := d))
       case Started(d) =>
         Some(w.(db := d, attempts := w.attempts[w.db.nextGeneration :=
                   Attempt(j, number, w.db.jobs[j].request, w.db.control.epoch, Begun, Image(0, 0))])))
    case TerminalA(g) =>
      if g !in w.attempts || !w.attempts[g].phase.Begun? then None
      else Some(w.(db := Terminal(w.db, w.attempts[g].request, g),
                   attempts := w.attempts[g := w.attempts[g].(phase := Finished)]))
    case ReserveA(g, image) =>
      if g !in w.attempts || !w.attempts[g].phase.Begun? then None
      else
        var t := w.attempts[g];
        var d := Reserve(w.db, w.now, t.job, KeyOf(t, g), image.size);
        if d.None? then None
        else Some(w.(db := d.value, attempts := w.attempts[g := t.(phase := Reserved, image := image)]))
    case PutA(g) =>
      // Also a repeated or late upload by an attempt that has moved on: same key, same bytes.
      if g !in w.attempts || w.attempts[g].phase.Begun? || w.attempts[g].image.size == 0 then None
      else
        var t := w.attempts[g];
        Some(w.(bucket := w.bucket[KeyOf(t, g) := t.image],
                attempts := w.attempts[g := t.(phase := if t.phase.Reserved? then Uploaded else t.phase)]))
    case CompleteA(g) =>
      if g !in w.attempts || !w.attempts[g].phase.Uploaded? then None
      else
        var t := w.attempts[g];
        var d := Complete(w.db, w.now, t.job, t.number, t.epoch, KeyOf(t, g), t.image);
        if d.None? then None
        else Some(w.(db := d.value, attempts := w.attempts[g := t.(phase := Finished)]))
    case RiverA(j, state) =>
      // Fetch, retry, rescue, timeout, cancellation: never out of a final state, and River itself
      // completes a job only after Worker.complete already did.
      if !ActiveJob(w.db, j) || state.Completed? then None
      else
        var job := w.db.jobs[j];
        var attempt := if state.Running? && !job.state.Running? then job.attempt + 1 else job.attempt;
        Some(w.(db := w.db.(jobs := w.db.jobs[j := job.(state := state, attempt := attempt)])))
    case RiverClean(j) =>
      if j !in w.db.jobs || ActiveJob(w.db, j) then None
      else Some(w.(db := w.db.(jobs := w.db.jobs - {j})))
    case MaintainA(picks) => WithDb(w, Maintain(w.db, w.now, picks))
    case ReadDoomed(k) =>
      if k !in w.db.uploads || w.db.uploads[k].state != Deleting
         || w.db.uploads[k].deleteAfter.None? || w.db.uploads[k].deleteAfter.value > w.now then None
      else Some(w.(doomed := w.doomed + {k}))
    case DeleteDoomed(k) => if k !in w.doomed then None else Some(w.(bucket := w.bucket - {k}))
    case MarkA(k) => if k !in w.doomed then None else Some(w.(db := MarkDeleted(w.db, w.now, k)))
    case ListObject(k) => if k !in w.bucket then None else Some(w.(listed := w.listed + {k}))
    case FindOrphan(k) =>
      if k !in w.listed || k in w.db.uploads then None else Some(w.(orphans := w.orphans + {k}))
    case DeleteOrphan(k) => if k !in w.orphans then None else Some(w.(bucket := w.bucket - {k}))
    case ReadArtifact(r) =>
      if !Ready(w.db, w.now, r) then None else Some(w.(held := w.held + {(r, w.db.artifacts[r].key)}))
    case MissingA(r, k) =>
      if (r, k) !in w.held then None
      else Some(w.(db := Missing(w.db, w.now, r, k)))
    case ActivateA(build) => WithDb(w, Activate(w.db, build))
    case EnableA(on) => Some(w.(db := Enable(w.db, on)))
  }

  ghost predicate Initial(w: World) {
    && w.db.workspaces == map[] && w.db.requests == map[] && w.db.interests == {} && w.db.pins == map[]
    && w.db.artifacts == map[] && w.db.uploads == map[] && w.db.jobs == map[]
    && w.bucket == map[] && w.attempts == map[]
    && w.doomed == {} && w.listed == {} && w.orphans == {} && w.held == {}
  }
}
