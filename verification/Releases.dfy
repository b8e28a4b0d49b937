/** Switching releases and switching admission off: what may still happen, and what never again. */
module Releases {
  import opened Basics
  import opened Tables
  import opened Protocol
  import opened ProtocolInvariants
  import opened ProtocolRuns
  import opened Admission
  import PublicationSafety

  // ---------------------------------------------------------------- the control row

  /** A release is activated exactly when no job is unfinished. It takes the next epoch, and admission
      stays as it was. */
  lemma ActivatedExactly(w: World, p: Policy, build: Build)
    ensures Next(w, p, ActivateA(build)).Some? <==> forall j <- w.db.jobs :: w.db.jobs[j].state in {Completed, JobCancelled, Discarded}
    ensures Next(w, p, ActivateA(build)).Some? ==>
      Next(w, p, ActivateA(build)).value == w.(db := w.db.(control := Control(w.db.control.enabled, build, w.db.control.epoch + 1)))
  {
    if ActiveJobs(w.db.jobs) != {} {
      var j :| j in ActiveJobs(w.db.jobs);
      assert w.db.jobs[j].state !in {Completed, JobCancelled, Discarded};
    } else {
      forall j <- w.db.jobs ensures w.db.jobs[j].state in {Completed, JobCancelled, Discarded} {
        assert j !in ActiveJobs(w.db.jobs);
      }
    }
  }

  /** Nothing else touches the control row, but for the switch itself. */
  ghost predicate ControlMoves(w: World, a: Action, v: World) {
    v.db.control == match a
      case ActivateA(build) => Control(w.db.control.enabled, build, w.db.control.epoch + 1)
      case EnableA(on) => w.db.control.(enabled := on)
      case _ => w.db.control
  }

  lemma ControlStep(w: World, p: Policy, a: Action, v: World)
    requires Next(w, p, a) == Some(v)
    ensures ControlMoves(w, a, v)
  {
    hide Next;
    match a
    case WriteW(id, ops, clear, samples, size, order) => WriteControl(w, p, a, v);
    case MaintainA(picks) => MaintainControl(w, p, picks, v);
    case ReserveA(g, image) => ReserveControl(w, p, g, image, v);
    case _ => OtherControl(w, p, a, v);
  }

  lemma WriteControl(w: World, p: Policy, a: Action, v: World)
    requires Next(w, p, a) == Some(v) && a.WriteW?
    ensures v.db.control == w.db.control
  {
    hide Write;
    PublicationSafety.WriteFrame(w.db, p, w.now, a.w, a.ops, a.clear, a.samples, a.size, a.order);
  }

  lemma {:induction false} CancelAllShrinks(db: Db, pairs: seq<(WorkspaceId, RequestId)>)
    ensures var d := CancelAll(db, pairs); d.control == db.control && d.interests <= db.interests && d.jobs.Keys == db.jobs.Keys
    decreases |pairs|
  {
    if pairs != [] { CancelAllShrinks(CancelOne(db, pairs[0].0, pairs[0].1), pairs[1..]); }
  }

  lemma MaintainShrinks(db: Db, now: Time, picks: Picks)
    requires Maintain(db, now, picks).Some?
    ensures var d := Maintain(db, now, picks).value;
      d.control == db.control && d.interests <= db.interests && d.jobs.Keys == db.jobs.Keys
  {
    hide CancelAll, PinlessExpired, Collectable;
    CancelAllShrinks(db, picks.lapsed);
  }

  lemma MaintainControl(w: World, p: Policy, picks: Picks, v: World)
    requires Next(w, p, MaintainA(picks)) == Some(v)
    ensures v.db.control == w.db.control
  {
    hide Maintain;
    MaintainShrinks(w.db, w.now, picks);
  }

  lemma ReserveControl(w: World, p: Policy, g: Generation, image: Image, v: World)
    requires Next(w, p, ReserveA(g, image)) == Some(v)
    ensures v.db == w.db.(uploads := v.db.uploads)
  {
    hide Accounted;
  }

  lemma OtherControl(w: World, p: Policy, a: Action, v: World)
    requires Next(w, p, a) == Some(v) && !a.WriteW? && !a.MaintainA? && !a.ReserveA?
    ensures ControlMoves(w, a, v)
  {
    hide HasLiveInterest, Ready, Promote, ActiveJobs;
  }

  /** Main result: an epoch belongs to one release. While it lasts no release is activated and the
      build stays, and epochs never come back. */
  lemma {:induction false} EpochNamesBuild(cap: nat, worlds: seq<World>, events: seq<Event>, i: nat, j: nat)
    requires IsRun(cap, worlds, events) && i <= j < |worlds|
    ensures var before, after := worlds[i].db.control, worlds[j].db.control;
      before.epoch <= after.epoch && (before.epoch == after.epoch <==> forall n | i <= n < j :: !events[n].action.ActivateA?)
      && (before.epoch == after.epoch ==> before.build == after.build)
    decreases j
  {
    hide Next, Initial;
    if i < j {
      EpochNamesBuild(cap, worlds, events, i, j - 1);
      StepAt(cap, worlds, events, j - 1);
      ControlStep(worlds[j - 1], events[j - 1].policy, events[j - 1].action, worlds[j]);
    }
  }

  /** Main result: once another release was activated, no attempt begun before it ever publishes. */
  lemma ReleaseFences(cap: nat, worlds: seq<World>, events: seq<Event>, i: nat, j: nat, g: Generation)
    requires IsRun(cap, worlds, events) && i < j < |events| && events[i].action.ActivateA? && g in worlds[i].attempts
    ensures events[j].action != CompleteA(g)
  {
    hide Next, Initial;
    if events[j].action == CompleteA(g) {
      var n := Began(cap, worlds, events, i, g);
      FencedSince(cap, worlds, events, n, j, i, g);
      FencedSince(cap, worlds, events, n, j, i + 1, g);
      StepAt(cap, worlds, events, i);
      ControlStep(worlds[i], events[i].policy, events[i].action, worlds[i + 1]);
      assert false;
    }
  }

  // -------------------------------------------------------------------- switched off

  /** No interest and no job is added. */
  ghost predicate AddsNothing(w: World, v: World) { v.db.interests <= w.db.interests && v.db.jobs.Keys <= w.db.jobs.Keys }

  lemma OffStep(w: World, p: Policy, a: Action, v: World)
    requires Next(w, p, a) == Some(v) && !w.db.control.enabled
    ensures AddsNothing(w, v)
  {
    hide Next;
    match a
    case WriteW(id, ops, clear, samples, size, order) => WriteOff(w, p, a, v);
    case MaintainA(picks) => MaintainOff(w, p, picks, v);
    case ReserveA(g, image) => ReserveControl(w, p, g, image, v);
    case _ => OtherOff(w, p, a, v);
  }

  lemma SaveShrinks(db: Db, w: WorkspaceId, expires: Time, samples: set<Sample>, size: nat, order: seq<RequestId>)
    requires w in db.workspaces && SaveWorkspace(db, w, expires, samples, size, order).Some?
    ensures SaveWorkspace(db, w, expires, samples, size, order).value.interests <= db.interests
    ensures SaveWorkspace(db, w, expires, samples, size, order).value.jobs.Keys == db.jobs.Keys
  {
    var d := db.(workspaces := db.workspaces[w := Workspace(expires, samples, size)],
                 pins := (map p <- db.pins | p.0 != w :: db.pins[p]) + PinRows(w, samples));
    CancelAllShrinks(d, PairWith(w, order));
  }

  lemma WriteOff(w: World, p: Policy, a: Action, v: World)
    requires Next(w, p, a) == Some(v) && a.WriteW? && !w.db.control.enabled
    ensures AddsNothing(w, v)
  {
    hide Operate, CancelAll;
    var d := Operate(w.db, p, w.now, a.w, a.ops).value;
    OperateAddsNothing(w.db, p, w.now, a.w, a.ops);
    SaveShrinks(d, a.w, if a.clear then w.now else w.db.workspaces[a.w].expires, if a.clear then {} else a.samples, a.size, a.order);
  }

  lemma MaintainOff(w: World, p: Policy, picks: Picks, v: World)
    requires Next(w, p, MaintainA(picks)) == Some(v)
    ensures AddsNothing(w, v)
  {
    hide Maintain;
    MaintainShrinks(w.db, w.now, picks);
  }

  lemma OtherOff(w: World, p: Policy, a: Action, v: World)
    requires Next(w, p, a) == Some(v) && !a.WriteW? && !a.MaintainA? && !a.ReserveA?
    ensures AddsNothing(w, v)
  {
    hide HasLiveInterest, Ready, Promote, ActiveJobs;
  }

  /** Main result: from the moment admission is switched off until it is switched on again, no visitor
      gains an interest and no job becomes active, so the unfinished jobs only get fewer. */
  lemma {:induction false} OffDrains(cap: nat, worlds: seq<World>, events: seq<Event>, i: nat, j: nat)
    requires IsRun(cap, worlds, events) && i < j < |worlds| && events[i].action == EnableA(false)
    requires forall n | i < n < j :: events[n].action != EnableA(true)
    ensures !worlds[j].db.control.enabled && worlds[j].db.interests <= worlds[i].db.interests
    ensures ActiveJobs(worlds[j].db.jobs) <= ActiveJobs(worlds[i].db.jobs)
    decreases j
  {
    hide Next, Initial, Active, Wanted;
    var n := j - 1;
    StepAt(cap, worlds, events, n);
    ControlStep(worlds[n], events[n].policy, events[n].action, worlds[j]);
    if i == n {
      SwitchOnly(worlds[i], events[i].policy, worlds[j]);
    } else {
      OffDrains(cap, worlds, events, i, n);
      OffStep(worlds[n], events[n].policy, events[n].action, worlds[j]);
      RunHistory(cap, worlds, events, n, j);
      FewerActive(worlds[n].db, worlds[j].db);
    }
  }

  lemma SwitchOnly(w: World, p: Policy, v: World)
    requires Next(w, p, EnableA(false)) == Some(v)
    ensures v.db.interests == w.db.interests && v.db.jobs == w.db.jobs
  {
  }

  lemma FewerActive(db: Db, d: Db)
    requires History(db, d) && d.jobs.Keys <= db.jobs.Keys && forall j <- db.jobs :: j < db.nextJob
    ensures ActiveJobs(d.jobs) <= ActiveJobs(db.jobs)
  {
    hide Active, Wanted;
  }
}
