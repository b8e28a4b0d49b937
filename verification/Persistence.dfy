/**
 The transactions as they run: statement by statement updates of the table fields, each proved
 to have exactly the effect that Tables gives it. A method that reports failure either changed
 nothing or is rolled back by the transaction around it.
 */
module Persistence {
  import opened Basics
  import opened Tables

  /** Adds up a column, row by row. */
  method Sum<K(!new)>(m: map<K, nat>) returns (total: nat)
    ensures total == Total(m)
  {
    var rest := m;
    total := 0;
    while rest != map[]
      invariant rest.Keys <= m.Keys
      invariant total + Total(rest) == Total(m)
      decreases |rest|
    {
      var k :| k in rest;
      TotalSplit(rest, k);
      total := total + rest[k];
      rest := rest - {k};
    }
  }

  predicate PinsKnown(samples: set<Sample>, requests: map<RequestId, Request>) {
    forall s <- samples :: Pinned(s) ==> s.job.value in requests
  }

  predicate Lists(order: seq<RequestId>, rows: set<RequestId>)
    ensures Lists(order, rows) == Enumerates(order, rows)
  {
    (forall r <- order :: r in rows) && (forall r <- rows :: r in order)
    && forall i, j | 0 <= i < j < |order| :: order[i] != order[j]
  }

  lemma PinRowsGrow(w: WorkspaceId, done: set<Sample>, s: Sample)
    requires DistinctPins(done) && Pinned(s) && (w, s.id) !in PinRows(w, done)
    ensures DistinctPins(done + {s})
    ensures PinRows(w, done + {s}) == PinRows(w, done)[(w, s.id) := s.job.value]
  {
    forall a <- done | Pinned(a) ensures a.id != s.id { assert (w, a.id) in PinRows(w, done); }
  }

  lemma MergeUpdate<K, V>(others: map<K, V>, m: map<K, V>, k: K, v: V)
    ensures (others + m)[k := v] == others + m[k := v]
  {
  }

  lemma PinRowsSkip(w: WorkspaceId, done: set<Sample>, s: Sample)
    requires DistinctPins(done) && !Pinned(s)
    ensures DistinctPins(done + {s}) && PinRows(w, done + {s}) == PinRows(w, done)
  {
  }

  lemma PinClash(w: WorkspaceId, done: set<Sample>, s: Sample, samples: set<Sample>)
    requires DistinctPins(done) && Pinned(s) && (w, s.id) in PinRows(w, done)
    requires s !in done && s in samples && done <= samples
    ensures !DistinctPins(samples)
  {
  }

  class Database {
    var control: Control
    var workspaces: map<WorkspaceId, Workspace>
    var requests: map<RequestId, Request>
    var interests: set<(WorkspaceId, RequestId)>
    var pins: map<(WorkspaceId, SampleId), RequestId>
    var artifacts: map<RequestId, Artifact>
    var uploads: map<Key, Upload>
    var jobs: map<JobId, Job>
    var nextJob: JobId
    var nextGeneration: Generation

    function Rows(): Db
      reads this
    {
      Db(control, workspaces, requests, interests, pins, artifacts, uploads, jobs, nextJob, nextGeneration)
    }

    constructor (build: Build)
      ensures Rows() == Db(Control(false, build, 0), map[], map[], {}, map[], map[], map[], map[], 0, 0)
    {
      control := Control(false, build, 0);
      workspaces, requests, interests, pins := map[], map[], {}, map[];
      artifacts, uploads, jobs, nextJob, nextGeneration := map[], map[], map[], 0, 0;
    }

    /** Rollback puts every table back as the transaction found it. */
    method Rollback(d: Db)
      modifies this
      ensures Rows() == d
    {
      control, workspaces, requests, interests, pins := d.control, d.workspaces, d.requests, d.interests, d.pins;
      artifacts, uploads, jobs, nextJob, nextGeneration := d.artifacts, d.uploads, d.jobs, d.nextJob, d.nextGeneration;
    }

    // -------------------------------------------------------------- queue.go

    /** River's InsertTx and the upsert of the request row. */
    method InsertJob(now: Time, r: RequestId)
      modifies this
      ensures Rows() == Enqueue(old(Rows()), now, r)
    {
      var job := nextJob;
      nextJob := nextJob + 1;
      jobs := jobs[job := Job(r, Available, 0)];
      var generation := nextGeneration;
      nextGeneration := nextGeneration + 1;
      requests := requests[r := Request(Some(job), generation, control.epoch, WasQueued, now, None)];
    }

    /** One round of the loop in QueueTx.Admit. */
    method AdmitRequest(p: Policy, now: Time, w: WorkspaceId, r: RequestId) returns (ok: bool)
      modifies this
      ensures ok == AdmitOne(old(Rows()), p, now, w, r).Some?
      ensures Rows() == if ok then AdmitOne(old(Rows()), p, now, w, r).value else old(Rows())
    {
      var db := Rows();
      if !control.enabled || control.build != p.build || r.build != p.build { return false; }
      if |Others(db, w, r)| >= MaxSubscribers { return false; }
      var ready, active := Ready(db, now, r), ActiveRequest(db, r);
      if !ready {
        var owned := |Owned(db, w, r)|;
        if owned >= p.visitorJobs { return false; }
      }
      if !ready && !active {
        var outstanding := |ActiveJobs(db.jobs)|;
        if outstanding >= p.outstanding { return false; }
        InsertJob(now, r);
      }
      assert Rows() == if ready || active then db else Enqueue(db, now, r);
      interests := interests + {(w, r)};
      ok := true;
    }

    /** QueueTx.Cancel. */
    method CancelInterest(w: WorkspaceId, r: RequestId)
      modifies this
      ensures Rows() == CancelOne(old(Rows()), w, r)
    {
      interests := interests - {(w, r)};
      assert Subscribers(interests, r) == Others(old(Rows()), w, r);
      if r in requests && Subscribers(interests, r) == {} {
        var job := requests[r].job;
        requests := requests[r := Fenced(requests[r], nextGeneration)];
        nextGeneration := nextGeneration + 1;
        if job.Some? && job.value in jobs {
          jobs := jobs[job.value := RequestCancel(jobs[job.value])];
        }
      }
    }

    method CancelEach(pairs: seq<(WorkspaceId, RequestId)>)
      modifies this
      ensures Rows() == CancelAll(old(Rows()), pairs)
    {
      for i := 0 to |pairs|
        invariant CancelAll(Rows(), pairs[i..]) == CancelAll(old(Rows()), pairs)
      {
        assert pairs[i..][1..] == pairs[i + 1..];
        CancelInterest(pairs[i].0, pairs[i].1);
      }
    }

    // --------------------------------------------------- studio/persistent.go

    method Apply(p: Policy, now: Time, w: WorkspaceId, ops: seq<QueueOp>) returns (ok: bool)
      modifies this
      ensures ok == Operate(old(Rows()), p, now, w, ops).Some?
      ensures ok ==> Rows() == Operate(old(Rows()), p, now, w, ops).value
    {
      ok := true;
      for i := 0 to |ops|
        invariant ok && Operate(Rows(), p, now, w, ops[i..]) == Operate(old(Rows()), p, now, w, ops)
      {
        assert ops[i..][1..] == ops[i + 1..];
        match ops[i]
        case Admit(r) =>
          ok := AdmitRequest(p, now, w, r);
          if !ok { return; }
        case Cancel(r) => CancelInterest(w, r);
      }
    }

    /** One INSERT INTO art_pins, refused by the foreign key or the primary key. */
    method InsertPin(w: WorkspaceId, s: Sample, ghost others: map<(WorkspaceId, SampleId), RequestId>, ghost done: set<Sample>)
      returns (ok: bool)
      requires DistinctPins(done) && pins == others + PinRows(w, done) && (w, s.id) !in others
      modifies this`pins
      ensures ok == (Pinned(s) ==> s.job.value in requests && (w, s.id) !in PinRows(w, done))
      ensures ok ==> DistinctPins(done + {s}) && pins == others + PinRows(w, done + {s})
    {
      if Pinned(s) {
        if s.job.value !in requests || (w, s.id) in pins { return false; }
        assert (w, s.id) !in PinRows(w, done);
        PinRowsGrow(w, done, s);
        MergeUpdate(others, PinRows(w, done), (w, s.id), s.job.value);
        pins := pins[(w, s.id) := s.job.value];
      } else {
        PinRowsSkip(w, done, s);
      }
      ok := true;
    }

    /** The pin rows of the favourites, inserted one by one against both keys of the table. */
    method InsertPins(w: WorkspaceId, samples: set<Sample>) returns (ok: bool)
      requires forall p <- pins :: p.0 != w
      modifies this`pins
      ensures ok == (DistinctPins(samples) && PinsKnown(samples, requests))
      ensures ok ==> pins == old(pins) + PinRows(w, samples)
    {
      ghost var others := pins;
      var rest, done := samples, {};
      while rest != {}
        invariant rest + done == samples && rest !! done
        invariant DistinctPins(done) && PinsKnown(done, requests)
        invariant pins == others + PinRows(w, done)
      {
        var s :| s in rest;
        ok := InsertPin(w, s, others, done);
        if !ok {
          if s.job.value in requests { PinClash(w, done, s, samples); }
          return;
        }
        rest, done := rest - {s}, done + {s};
      }
      assert done == samples;
      ok := true;
    }

    /** Persistent.transaction with write: run the operation, save, rewrite pins, drop interests. */
    method WriteWorkspace(p: Policy, now: Time, w: WorkspaceId, ops: seq<QueueOp>, clear: bool,
                          samples: set<Sample>, size: nat, order: seq<RequestId>) returns (ok: bool)
      modifies this
      ensures ok == Write(old(Rows()), p, now, w, ops, clear, samples, size, order).Some?
      ensures Rows() == if ok then Write(old(Rows()), p, now, w, ops, clear, samples, size, order).value else old(Rows())
    {
      var before := Rows();
      if !LiveWorkspace(before, now, w) { return false; }
      ok := Apply(p, now, w, ops);
      if ok {
        ok := Save(w, if clear then now else before.workspaces[w].expires, if clear then {} else samples, size, order);
      }
      if !ok { Rollback(before); }
    }

    method Save(w: WorkspaceId, expires: Time, samples: set<Sample>, size: nat, order: seq<RequestId>) returns (ok: bool)
      requires w in workspaces
      modifies this
      ensures ok == SaveWorkspace(old(Rows()), w, expires, samples, size, order).Some?
      ensures ok ==> Rows() == SaveWorkspace(old(Rows()), w, expires, samples, size, order).value
    {
      var others := Sum(Sizes(workspaces - {w}));
      if size > AggregateBytes || others + size > WorkspaceBytes { return false; }
      workspaces := workspaces[w := Workspace(expires, samples, size)];
      pins := map p <- pins | p.0 != w :: pins[p];
      ok := InsertPins(w, samples);
      if !ok { return; }
      var obsolete := Obsolete(interests, w, samples);
      // The rows of the query arrive in some order, each once.
      if !Lists(order, obsolete) { return false; }
      CancelEach(PairWith(w, order));
    }

    // -------------------------------------------------------------- worker.go

    method BeginAttempt(p: Policy, now: Time, j: JobId, attempt: nat) returns (result: BeginResult)
      modifies this
      ensures result == Begin(old(Rows()), p, now, j, attempt)
      ensures Rows() == if result.Refused? then old(Rows()) else result.db
    {
      if !Eligible(Rows(), j, attempt) { return Refused; }
      var r := jobs[j].request;
      if r !in requests || requests[r].job != Some(j) || requests[r].epoch != control.epoch
         || !HasLiveInterest(Rows(), now, r) || control.build != r.build || p.build != r.build {
        return Refused;
      }
      var q := requests[r];
      if (q.firstStarted.None? && q.created < now - p.queueAge)
         || (q.firstStarted.Some? && q.firstStarted.value < now - 300) {
        requests := requests[r := q.(outcome := WasExpired)];
        return Expired(Rows());
      }
      var generation := nextGeneration;
      nextGeneration := nextGeneration + 1;
      requests := requests[r := q.(generation := generation, outcome := WasRunning,
                                   firstStarted := if q.firstStarted.Some? then q.firstStarted else Some(now))];
      result := Started(Rows());
    }

    method Fail(r: RequestId, g: Generation)
      modifies this`requests
      ensures Rows() == Terminal(old(Rows()), r, g)
    {
      if r in requests && requests[r].generation == g {
        requests := requests[r := requests[r].(outcome := WasFailed)];
      }
    }

    method ReserveUpload(now: Time, j: JobId, k: Key, size: nat) returns (ok: bool)
      modifies this`uploads
      ensures ok == Reserve(old(Rows()), now, j, k, size).Some?
      ensures Rows() == if ok then Reserve(old(Rows()), now, j, k, size).value else old(Rows())
    {
      if k.request !in requests || requests[k.request].generation != k.generation || requests[k.request].job != Some(j) {
        return false;
      }
      var used := Sum(Accounted(uploads));
      if used + size > UploadBytes || |Accounted(uploads)| >= UploadRows { return false; }
      if k in uploads || size < 1 || size > MaxImage { return false; }
      uploads := uploads[k := Upload(k.request, k.generation, size, Pending, now, None, None)];
      ok := true;
    }

    /** The updates of the upload rows in complete. */
    method PublishUpload(now: Time, k: Key)
      requires k in uploads
      modifies this`uploads
      ensures uploads == Promote(old(uploads), artifacts, now, k)
    {
      uploads := uploads[k := uploads[k].(state := Published)];
      // Replacement never overwrites the winner's object; the previous key is queued for deletion.
      if k.request in artifacts && artifacts[k.request].key != k && artifacts[k.request].key in uploads {
        var previous := artifacts[k.request].key;
        uploads := uploads[previous := Retire(uploads[previous], now + Hour)];
      }
    }

    method CompleteAttempt(now: Time, j: JobId, attempt: nat, epoch: nat, k: Key, image: Image) returns (ok: bool)
      modifies this
      ensures ok == Complete(old(Rows()), now, j, attempt, epoch, k, image).Some?
      ensures Rows() == if ok then Complete(old(Rows()), now, j, attempt, epoch, k, image).value else old(Rows())
    {
      hide HasLiveInterest, Promote;
      if !Eligible(Rows(), j, attempt) || !Authorized(Rows(), now, j, k, epoch) { return false; }
      if k !in uploads || uploads[k].state != Pending || uploads[k].generation != k.generation { return false; }
      PublishUpload(now, k);
      artifacts := artifacts[k.request := Artifact(k, image.digest, image.size, now + Day)];
      requests := requests[k.request := requests[k.request].(outcome := WasReady)];
      jobs := jobs[j := jobs[j].(state := Completed)];
      ok := true;
    }

    // --------------------------------------------------------- maintenance.go

    /** The transaction of Maintainer.Work; a pick outside its query's result rolls back. */
    method MaintainTables(now: Time, picks: Picks) returns (ok: bool)
      modifies this
      ensures ok == Maintain(old(Rows()), now, picks).Some?
      ensures Rows() == if ok then Maintain(old(Rows()), now, picks).value else old(Rows())
    {
      var before := Rows();
      if |picks.lapsed| > 100 || |picks.workspaces| > 100 || |picks.artifacts| > 100 || |picks.requests| > 100 {
        return false;
      }
      ok := LapseOwners(now, picks);
      if ok {
        requests := map r <- requests :: SettledRequest(Rows(), r);
        ok := ExpireRows(now, picks);
      }
      if !ok { Rollback(before); }
    }

    method LapseOwners(now: Time, picks: Picks) returns (ok: bool)
      modifies this
      ensures ok == Lapse(old(Rows()), now, picks).Some?
      ensures ok ==> Rows() == Lapse(old(Rows()), now, picks).value
    {
      if exists i <- picks.lapsed :: i !in interests || i.0 !in workspaces || LiveWorkspace(Rows(), now, i.0) {
        return false;
      }
      CancelEach(picks.lapsed);
      if exists w <- picks.workspaces :: w !in workspaces || LiveWorkspace(Rows(), now, w)
                                         || exists i <- interests :: i.0 == w {
        return false;
      }
      workspaces := workspaces - picks.workspaces;
      pins := map p <- pins | p.0 !in picks.workspaces :: pins[p];
      ok := true;
    }

    method ExpireRows(now: Time, picks: Picks) returns (ok: bool)
      modifies this
      ensures ok == Expire(old(Rows()), now, picks).Some?
      ensures ok ==> Rows() == Expire(old(Rows()), now, picks).value
    {
      if exists r <- picks.artifacts :: !PinlessExpired(Rows(), now, r) { return false; }
      ghost var start := Rows();
      var keys := set r <- picks.artifacts :: artifacts[r].key;
      artifacts := artifacts - picks.artifacts;
      uploads := map u <- uploads :: if u in keys then Retire(uploads[u], now + Hour) else uploads[u];
      assert Rows() == ExpireArtifacts(start, now, picks.artifacts);
      uploads := map u <- uploads :: if Abandoned(Rows(), now, u) then Retire(uploads[u], now) else uploads[u];
      assert Rows() == RetireAbandoned(ExpireArtifacts(start, now, picks.artifacts), now);
      uploads := map u <- uploads | !Tombstone(uploads[u], now) :: uploads[u];
      if exists r <- picks.requests :: !Collectable(Rows(), now, r) { return false; }
      requests := requests - picks.requests;
      ok := true;
    }

    method ConfirmDeleted(now: Time, k: Key)
      modifies this`uploads
      ensures Rows() == MarkDeleted(old(Rows()), now, k)
    {
      if k in uploads && uploads[k].state == Deleting {
        uploads := uploads[k := Deleted(uploads[k], now)];
      }
    }

    // --------------------------------------------------- read.go, database.go

    method ForgetMissing(now: Time, r: RequestId, k: Key)
      modifies this
      ensures Rows() == Missing(old(Rows()), now, r, k)
    {
      if r in artifacts && artifacts[r].key == k {
        artifacts := artifacts - {r};
      }
      if k in uploads {
        uploads := uploads[k := Retire(uploads[k], now)];
      }
    }

    method ActivateBuild(build: Build) returns (ok: bool)
      modifies this`control
      ensures ok == Activate(old(Rows()), build).Some?
      ensures Rows() == if ok then Activate(old(Rows()), build).value else old(Rows())
    {
      if |ActiveJobs(jobs)| != 0 { return false; }
      control := control.(build := build, epoch := control.epoch + 1);
      ok := true;
    }
  }
}
