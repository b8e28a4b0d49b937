/** What is kept and for how long: favourites, published images, objects still being read,
    workspaces, and what maintenance must and must not take away. */
module Retention {
  import opened Basics
  import opened Tables
  import opened Protocol
  import opened ProtocolInvariants
  import opened ProtocolRuns
  import PublicationSafety
  import QueueSafety

  // ------------------------------------------------------- what maintenance spares

  lemma {:induction false} CancelAllSpares(db: Db, pairs: seq<(WorkspaceId, RequestId)>, i: (WorkspaceId, RequestId))
    requires i !in pairs
    ensures i in CancelAll(db, pairs).interests <==> i in db.interests
    decreases |pairs|
  {
    if pairs != [] {
      assert i != pairs[0];
      CancelAllSpares(CancelOne(db, pairs[0].0, pairs[0].1), pairs[1..], i);
    }
  }

  /** Live workspaces keep their row, their interests and their pins. */
  lemma LapseSpares(db: Db, now: Time, picks: Picks, w: WorkspaceId)
    requires Lapse(db, now, picks).Some? && LiveWorkspace(db, now, w)
    ensures var d := Lapse(db, now, picks).value;
      && w in d.workspaces && d.workspaces[w] == db.workspaces[w]
      && (forall r: RequestId :: (w, r) in d.interests <==> (w, r) in db.interests)
      && (forall s: SampleId :: (w, s) in d.pins <==> (w, s) in db.pins)
      && (forall s: SampleId :: (w, s) in d.pins ==> d.pins[(w, s)] == db.pins[(w, s)])
  {
    PublicationSafety.CancelAllFrame(db, picks.lapsed);
    forall r: RequestId ensures (w, r) in CancelAll(db, picks.lapsed).interests <==> (w, r) in db.interests {
      CancelAllSpares(db, picks.lapsed, (w, r));
    }
  }

  lemma LapseFrame(db: Db, now: Time, picks: Picks)
    requires Lapse(db, now, picks).Some?
    ensures var d := Lapse(db, now, picks).value;
      && d.artifacts == db.artifacts && d.uploads == db.uploads
      && (forall w <- d.workspaces :: w in db.workspaces && d.workspaces[w] == db.workspaces[w])
      && (forall p <- d.pins :: p in db.pins && d.pins[p] == db.pins[p])
  {
    PublicationSafety.CancelAllFrame(db, picks.lapsed);
  }

  lemma ExpireFrame(db: Db, now: Time, picks: Picks)
    requires Expire(db, now, picks).Some?
    ensures var d := Expire(db, now, picks).value;
      d.workspaces == db.workspaces && d.interests == db.interests && d.pins == db.pins && d.jobs == db.jobs
  {
  }

  /** Main result: maintenance takes nothing from a workspace that has not expired. */
  lemma MaintainSparesLive(db: Db, now: Time, picks: Picks, w: WorkspaceId)
    requires Maintain(db, now, picks).Some? && LiveWorkspace(db, now, w)
    ensures var d := Maintain(db, now, picks).value;
      && w in d.workspaces && d.workspaces[w] == db.workspaces[w]
      && (forall r: RequestId :: (w, r) in d.interests <==> (w, r) in db.interests)
      && (forall s: SampleId :: (w, s) in d.pins <==> (w, s) in db.pins)
      && (forall s: SampleId :: (w, s) in d.pins ==> d.pins[(w, s)] == db.pins[(w, s)])
  {
    hide Lapse, Expire;
    LapseSpares(db, now, picks, w);
    ExpireFrame(SettleOutcomes(Lapse(db, now, picks).value), now, picks);
  }

  lemma PinsLive(db: Db, now: Time, picks: Picks, r: RequestId)
    requires Maintain(db, now, picks).Some?
    ensures HasLivePin(Maintain(db, now, picks).value, now, r) <==> HasLivePin(db, now, r)
  {
    hide Lapse, Expire;
    var m := SettleOutcomes(Lapse(db, now, picks).value);
    LapseFrame(db, now, picks);
    ExpireFrame(m, now, picks);
    if HasLivePin(db, now, r) {
      var p :| p in db.pins && db.pins[p] == r && LiveWorkspace(db, now, p.0);
      LapseSpares(db, now, picks, p.0);
      assert (p.0, p.1) in m.pins;
    }
  }

  lemma ExpireSpares(db: Db, now: Time, picks: Picks, r: RequestId)
    requires Expire(db, now, picks).Some? && r in db.artifacts
    ensures var d := Expire(db, now, picks).value;
      if r in picks.artifacts then r !in d.artifacts && db.artifacts[r].expires <= now && !HasLivePin(db, now, r)
      else r in d.artifacts && d.artifacts[r] == db.artifacts[r]
  {
  }

  /** Main result: an image goes in maintenance only when its day is over and no workspace that
      has not expired keeps it as a favourite; otherwise it stays as it is. */
  lemma MaintainSparesImages(db: Db, now: Time, picks: Picks, r: RequestId)
    requires Maintain(db, now, picks).Some? && r in db.artifacts
    ensures var d := Maintain(db, now, picks).value;
      if r in picks.artifacts then r !in d.artifacts && db.artifacts[r].expires <= now && !HasLivePin(db, now, r)
      else r in d.artifacts && d.artifacts[r] == db.artifacts[r]
  {
    hide Lapse, Expire, HasLivePin;
    var m := SettleOutcomes(Lapse(db, now, picks).value);
    LapseFrame(db, now, picks);
    ExpireSpares(m, now, picks, r);
    ExpireFrame(m, now, picks);
    PinsLive(db, now, picks, r);
    SamePins(m, Maintain(db, now, picks).value, now, r);
  }

  lemma SamePins(db: Db, d: Db, now: Time, r: RequestId)
    requires d.pins == db.pins && d.workspaces == db.workspaces
    ensures HasLivePin(d, now, r) <==> HasLivePin(db, now, r)
  {
  }

  // ------------------------------------------------------------ images, step by step

  /** What an action may do to the artifact of r. */
  ghost predicate Stays(w: World, v: World, r: RequestId)
    requires r in w.db.artifacts
  {
    r in v.db.artifacts && v.db.artifacts[r] == w.db.artifacts[r]
  }

  /** Action a publishes a new image of r. */
  ghost predicate Publishes(w: World, a: Action, v: World, r: RequestId) {
    && a.CompleteA? && a.g in w.attempts && w.attempts[a.g].request == r
    && r in v.db.artifacts && v.db.artifacts[r].key == Key(r, a.g) && v.db.artifacts[r].expires == w.now + Day
  }

  /** Maintenance takes the image of r, which is past its day and nobody's favourite. */
  ghost predicate Expires(w: World, a: Action, r: RequestId) {
    a.MaintainA? && r in w.db.artifacts && w.db.artifacts[r].expires <= w.now && !HasLivePin(w.db, w.now, r)
  }

  /** Every way in which an image can change or go. */
  lemma ImageStep(w: World, p: Policy, a: Action, v: World, r: RequestId)
    requires Next(w, p, a) == Some(v) && r in w.db.artifacts
    ensures Stays(w, v, r) || Publishes(w, a, v, r) || Expires(w, a, r) || (a.MissingA? && a.r == r && w.db.artifacts[r].key == a.k)
  {
    hide Next, HasLivePin, Maintain;
    match a
    case CompleteA(g) => CompleteImage(w, p, g, v, r);
    case MaintainA(picks) =>
      MaintainedWorld(w, p, a, v);
      MaintainSparesImages(w.db, w.now, picks, r);
    case MissingA(q, k) => MissingImage(w, p, q, k, v, r);
    case _ => SameImages(w, p, a, v);
  }

  lemma CompleteImage(w: World, p: Policy, g: Generation, v: World, r: RequestId)
    requires Next(w, p, CompleteA(g)) == Some(v) && r in w.db.artifacts
    ensures Stays(w, v, r) || Publishes(w, CompleteA(g), v, r)
  {
    hide Promote, Eligible, Authorized;
  }

  lemma MissingImage(w: World, p: Policy, q: RequestId, k: Key, v: World, r: RequestId)
    requires Next(w, p, MissingA(q, k)) == Some(v) && r in w.db.artifacts
    ensures Stays(w, v, r) || (q == r && w.db.artifacts[r].key == k)
  {
  }

  lemma SameImages(w: World, p: Policy, a: Action, v: World)
    requires Next(w, p, a) == Some(v) && !a.CompleteA? && !a.MaintainA? && !a.MissingA?
    ensures v.db.artifacts == w.db.artifacts
  {
    hide Write, Begin, Reserve, ActiveJobs, Ready;
    match a
    case WriteW(id, ops, clear, samples, size, order) =>
      PublicationSafety.WriteFrame(w.db, p, w.now, id, ops, clear, samples, size, order);
    case BeginA(j, number) => BeginFrame(w.db, p, w.now, j, number);
    case ReserveA(g, image) => ReserveFrame(w.db, w.now, w.attempts[g].job, KeyOf(w.attempts[g], g), image.size);
    case _ =>
  }

  lemma BeginFrame(db: Db, p: Policy, now: Time, j: JobId, number: nat)
    ensures match Begin(db, p, now, j, number)
      case Refused => true
      case Expired(d) => d == db.(requests := d.requests)
      case Started(d) => d == db.(requests := d.requests, nextGeneration := d.nextGeneration)
  {
  }

  lemma ReserveFrame(db: Db, now: Time, j: JobId, k: Key, size: nat)
    requires Reserve(db, now, j, k, size).Some?
    ensures var d := Reserve(db, now, j, k, size).value; d == db.(uploads := d.uploads)
  {
  }

  // -------------------------------------------------------------------- favourites

  /** Event n is a reader dropping r because an object was not found. */
  ghost predicate Drops(events: seq<Event>, n: nat, r: RequestId)
    requires n < |events|
  {
    events[n].action.MissingA? && events[n].action.r == r
  }

  ghost predicate NeverDropped(events: seq<Event>, i: nat, j: nat, r: RequestId)
    requires j <= |events|
  {
    forall n | i <= n < j :: !Drops(events, n, r)
  }

  /** A ready image that a live workspace keeps as a favourite stops being ready only when a reader
      drops it or when it is nobody's favourite any more. */
  lemma FavouriteStep(w: World, p: Policy, a: Action, v: World, r: RequestId)
    requires Next(w, p, a) == Some(v) && Ready(w.db, w.now, r) && HasLivePin(v.db, v.now, r)
    ensures Ready(v.db, v.now, r) || (a.MissingA? && a.r == r)
  {
    hide Next, HasLivePin, Maintain;
    ImageStep(w, p, a, v, r);
    if Expires(w, a, r) {
      MaintainedWorld(w, p, a, v);
      PinsLive(w.db, w.now, a.picks, r);
    }
  }

  lemma MaintainedWorld(w: World, p: Policy, a: Action, v: World)
    requires Next(w, p, a) == Some(v) && a.MaintainA?
    ensures Maintain(w.db, w.now, a.picks).Some? && v == w.(db := Maintain(w.db, w.now, a.picks).value)
  {
  }

  /** Main result: a favourite stays ready for as long as it is one, over any run, unless a reader
      reports its object gone. */
  lemma {:induction false} FavouriteKept(cap: nat, worlds: seq<World>, events: seq<Event>, i: nat, j: nat, r: RequestId)
    requires IsRun(cap, worlds, events) && i <= j < |worlds| && Ready(worlds[i].db, worlds[i].now, r)
    requires forall n | i < n <= j :: HasLivePin(worlds[n].db, worlds[n].now, r)
    requires NeverDropped(events, i, j, r)
    ensures Ready(worlds[j].db, worlds[j].now, r)
    decreases j
  {
    hide Next, Ready, HasLivePin, Initial;
    if i < j {
      FavouriteKept(cap, worlds, events, i, j - 1, r);
      FavouriteStep(worlds[j - 1], events[j - 1].policy, events[j - 1].action, worlds[j], r);
      assert !Drops(events, j - 1, r);
    }
  }

  // ---------------------------------------------------------------- published images

  lemma ClockStep(w: World, p: Policy, a: Action, v: World)
    requires Next(w, p, a) == Some(v)
    ensures v.now == if a.Tick? then w.now + a.seconds else w.now
  {
    hide Write, Maintain, Begin, Reserve, Complete, Terminal, Missing, MarkDeleted, Activate, Enable, CreateWorkspace, Touch;
  }

  lemma {:induction false} ClockRuns(cap: nat, worlds: seq<World>, events: seq<Event>, i: nat, j: nat)
    requires IsRun(cap, worlds, events) && i <= j < |worlds|
    ensures worlds[i].now <= worlds[j].now
    decreases j
  {
    hide Next, Initial;
    if i < j {
      ClockRuns(cap, worlds, events, i, j - 1);
      ClockStep(worlds[j - 1], events[j - 1].policy, events[j - 1].action, worlds[j]);
    }
  }

  /** The image of r is there and will not expire before `until`. */
  ghost predicate Lasts(w: World, r: RequestId, until: Time) { r in w.db.artifacts && w.db.artifacts[r].expires >= until }

  lemma {:induction false} LastsOn(cap: nat, worlds: seq<World>, events: seq<Event>, i: nat, j: nat, r: RequestId, until: Time)
    requires IsRun(cap, worlds, events) && i <= j < |worlds| && Lasts(worlds[i], r, until)
    requires worlds[j].now < until <= worlds[i].now + Day && NeverDropped(events, i, j, r)
    ensures Lasts(worlds[j], r, until)
    decreases j
  {
    hide Next, HasLivePin, Initial;
    if i < j {
      ClockRuns(cap, worlds, events, j - 1, j);
      ClockRuns(cap, worlds, events, i, j - 1);
      LastsOn(cap, worlds, events, i, j - 1, r, until);
      ImageStep(worlds[j - 1], events[j - 1].policy, events[j - 1].action, worlds[j], r);
      assert !Drops(events, j - 1, r);
    }
  }

  lemma CompletePublishes(w: World, p: Policy, g: Generation, v: World)
    requires Next(w, p, CompleteA(g)) == Some(v)
    ensures g in w.attempts && Publishes(w, CompleteA(g), v, w.attempts[g].request)
  {
  }

  /** Main result: a published image stays ready for a day, over any run, pinned or not, unless a
      reader reports its object gone. */
  lemma PublishedForADay(cap: nat, worlds: seq<World>, events: seq<Event>, i: nat, j: nat, g: Generation)
    requires IsRun(cap, worlds, events) && i < j < |worlds| && events[i].action == CompleteA(g) && g in worlds[i].attempts
    requires worlds[j].now < worlds[i].now + Day && NeverDropped(events, i + 1, j, worlds[i].attempts[g].request)
    ensures Ready(worlds[j].db, worlds[j].now, worlds[i].attempts[g].request)
  {
    hide Next, HasLivePin, Initial;
    CompletePublishes(worlds[i], events[i].policy, g, worlds[i + 1]);
    ClockRuns(cap, worlds, events, i, i + 1);
    LastsOn(cap, worlds, events, i + 1, j, worlds[i].attempts[g].request, worlds[i].now + Day);
  }

  // -------------------------------------------------------------------- workspaces

  lemma SaveRows(db: Db, w: WorkspaceId, expires: Time, samples: set<Sample>, size: nat, order: seq<RequestId>)
    requires w in db.workspaces && SaveWorkspace(db, w, expires, samples, size, order).Some?
    ensures SaveWorkspace(db, w, expires, samples, size, order).value.workspaces == db.workspaces[w := Workspace(expires, samples, size)]
  {
    var d := db.(workspaces := db.workspaces[w := Workspace(expires, samples, size)],
                 pins := (map p <- db.pins | p.0 != w :: db.pins[p]) + PinRows(w, samples));
    PublicationSafety.CancelAllFrame(d, PairWith(w, order));
  }

  lemma WriteRows(db: Db, p: Policy, now: Time, w: WorkspaceId, ops: seq<QueueOp>,
                  clear: bool, samples: set<Sample>, size: nat, order: seq<RequestId>)
    requires Write(db, p, now, w, ops, clear, samples, size, order).Some?
    ensures LiveWorkspace(db, now, w)
    ensures Write(db, p, now, w, ops, clear, samples, size, order).value.workspaces
      == db.workspaces[w := Workspace(if clear then now else db.workspaces[w].expires, if clear then {} else samples, size)]
  {
    hide SaveWorkspace, AdmitOne, CancelOne;
    var d := Operate(db, p, now, w, ops).value;
    SaveRows(d, w, if clear then now else db.workspaces[w].expires, if clear then {} else samples, size, order);
  }

  /** Action a ends the life of the workspace. */
  predicate Clears(a: Action, id: WorkspaceId) { a.WriteW? && a.w == id && a.clear }

  /** The workspace is there and will not expire before `until`. */
  predicate Open(w: World, id: WorkspaceId, until: Time) { id in w.db.workspaces && w.db.workspaces[id].expires >= until }

  lemma OpenStep(w: World, p: Policy, a: Action, v: World, id: WorkspaceId, until: Time)
    requires Next(w, p, a) == Some(v) && Open(w, id, until) && w.now < until <= w.now + 90 * Day && !Clears(a, id)
    ensures Open(v, id, until)
  {
    hide Write, Maintain, Begin, Reserve, Complete, Terminal, Missing, MarkDeleted, Activate, Enable;
    match a
    case WriteW(o, ops, clear, samples, size, order) => WriteRows(w.db, p, w.now, o, ops, clear, samples, size, order);
    case MaintainA(picks) => MaintainSparesLive(w.db, w.now, picks, id);
    case BeginA(j, number) => BeginFrame(w.db, p, w.now, j, number);
    case ReserveA(g, image) => ReserveFrame(w.db, w.now, w.attempts[g].job, KeyOf(w.attempts[g], g), image.size);
    case CompleteA(g) => SameWorkspaces(w, p, a, v);
    case TerminalA(g) => SameWorkspaces(w, p, a, v);
    case MissingA(r, k) => SameWorkspaces(w, p, a, v);
    case MarkA(k) => SameWorkspaces(w, p, a, v);
    case ActivateA(build) => SameWorkspaces(w, p, a, v);
    case EnableA(on) => SameWorkspaces(w, p, a, v);
    case _ =>
  }

  lemma SameWorkspaces(w: World, p: Policy, a: Action, v: World)
    requires Next(w, p, a) == Some(v)
    requires a.CompleteA? || a.TerminalA? || a.MissingA? || a.MarkA? || a.ActivateA? || a.EnableA?
    ensures v.db.workspaces == w.db.workspaces
  {
  }

  ghost predicate NeverCleared(events: seq<Event>, i: nat, j: nat, id: WorkspaceId)
    requires j <= |events|
  {
    forall n | i <= n < j :: !Clears(events[n].action, id)
  }

  lemma {:induction false} OpenOn(cap: nat, worlds: seq<World>, events: seq<Event>, i: nat, j: nat, id: WorkspaceId, until: Time)
    requires IsRun(cap, worlds, events) && i <= j < |worlds| && Open(worlds[i], id, until)
    requires worlds[j].now < until <= worlds[i].now + 90 * Day && NeverCleared(events, i, j, id)
    ensures Open(worlds[j], id, until)
    decreases j
  {
    hide Next, Open, Initial;
    if i < j {
      ClockRuns(cap, worlds, events, j - 1, j);
      ClockRuns(cap, worlds, events, i, j - 1);
      OpenOn(cap, worlds, events, i, j - 1, id, until);
      OpenStep(worlds[j - 1], events[j - 1].policy, events[j - 1].action, worlds[j], id, until);
    }
  }

  lemma Opens(w: World, p: Policy, a: Action, v: World, id: WorkspaceId)
    requires Next(w, p, a) == Some(v) && (a == CreateW(id) || a == TouchW(id))
    ensures v.now == w.now && Open(v, id, w.now + 90 * Day)
  {
  }

  /** Main result: a workspace lives for ninety days from every touch, over any run, unless its
      owner clears it. */
  lemma WorkspaceLives(cap: nat, worlds: seq<World>, events: seq<Event>, i: nat, j: nat, id: WorkspaceId)
    requires IsRun(cap, worlds, events) && i < j < |worlds| && (events[i].action == CreateW(id) || events[i].action == TouchW(id))
    requires worlds[j].now < worlds[i].now + 90 * Day && NeverCleared(events, i + 1, j, id)
    ensures LiveWorkspace(worlds[j].db, worlds[j].now, id)
  {
    hide Next, Initial;
    Opens(worlds[i], events[i].policy, events[i].action, worlds[i + 1], id);
    OpenOn(cap, worlds, events, i + 1, j, id, worlds[i].now + 90 * Day);
  }

  /** A cleared workspace has expired and leaves no samples, pins or interests behind. */
  lemma ClearedHasNothing(w: World, cap: nat, p: Policy, a: Action, v: World, id: WorkspaceId)
    requires Next(w, p, a) == Some(v) && Inv(w, cap) && p.outstanding <= cap && Clears(a, id)
    ensures !LiveWorkspace(v.db, v.now, id)
    ensures (forall r: RequestId :: (id, r) !in v.db.interests) && forall s: SampleId :: (id, s) !in v.db.pins
  {
    hide Write, Publication, Queue, Storage, Aggregates;
    WriteRows(w.db, p, w.now, id, a.ops, a.clear, a.samples, a.size, a.order);
    QueueSafety.WriteSaves(w.db, cap, p, w.now, id, a.ops, a.clear, a.samples, a.size, a.order);
    NothingLeft(v.db, id);
  }

  lemma NothingLeft(db: Db, id: WorkspaceId)
    requires id in db.workspaces && Faithful(db, id) && db.workspaces[id].samples == {}
    ensures (forall r: RequestId :: (id, r) !in db.interests) && forall s: SampleId :: (id, s) !in db.pins
  {
    forall r: RequestId ensures (id, r) !in db.interests {
      assert (id, r) in db.interests ==> r in Obsolete(db.interests, id, {});
    }
    forall s: SampleId ensures (id, s) !in db.pins {
      assert (id, s) in db.pins ==> (id, s) in PinsOf(db.pins, id);
    }
  }
}
