/** Replays of generate and retry actions over whole runs of the studio. */
module StudioReplays {
  import opened Basics
  import opened Studio
  import opened StudioRuns

  // ------------------------------------------------------------------- the two logs

  /** The batches of an exploration and the actions that made them. */
  datatype Log = Log(batches: seq<Batch>, actions: seq<Action>)

  function LogOf(ws: Workspace, id: Id): Log {
    if id in ws.explorations then Log(ws.explorations[id].batches, ws.explorations[id].actions) else Log([], [])
  }

  function ParentOf(ws: Workspace, id: Id, batch: Id): seq<Id> {
    var batches := LogOf(ws, id).batches;
    var k := BatchAt(batches, batch);
    if k < |batches| && batches[k].parent.Some? then [batches[k].parent.value] else []
  }

  predicate Generative(e: Event) { e.GenerateE? || e.RetryE? || e.EnterE? }

  /** The action an event logs when its generation is admitted. */
  function MadeBy(ws: Workspace, e: Event): Action
    requires Generative(e) && (e.EnterE? && e.pick.Some? ==> e.pick.value in ws.explorations)
  {
    match e
    case GenerateE(_, _, action, body) => Action(action, body, ws.next)
    case RetryE(_, id, revision, action, batch) => Action(action, Body(revision, ParentOf(ws, id, batch), false), ws.next)
    case EnterE(_, _, pick, entry) =>
      if pick.Some? then Action(entry.id, Body(ws.explorations[pick.value].revision, [], false), ws.next)
      else Action(entry.id, Body(0, [], false), ws.next + 1)
  }

  /** A batch and its action are appended, and the logs cut to the last eight. */
  ghost predicate Appended(before: Log, after: Log, a: Action) {
    && |after.batches| > 0 && after.batches[|after.batches| - 1].id == a.batch
    && after.batches == Last(before.batches + [after.batches[|after.batches| - 1]])
    && after.actions == Last(before.actions + [a])
  }

  /** What a step does to the log of x: an admitted generation on it appends, anything else keeps. */
  ghost predicate LogMoves(ws: Workspace, t: Workspace, x: Id, grows: bool, a: Action) {
    if grows then Appended(LogOf(ws, x), LogOf(t, x), a) && ws.next <= a.batch < t.next
    else LogOf(t, x) == LogOf(ws, x)
  }

  lemma GeneratedAppends(x: Exploration, next: Id, w: World, proper: bool, action: Id, body: Body)
    ensures var o := Generated(x, next, w, proper, action, body);
      if o.admitted then
        Appended(Log(x.batches, x.actions), Log(o.x.batches, o.x.actions), Action(action, body, next)) && next < o.next && o.result == Ok(next)
      else o.x.batches == x.batches && o.x.actions == x.actions
  {
    hide Named, Kept, Drafts, Look;
  }

  lemma GenerateMoves(ws: Workspace, w: World, proper: bool, id: Id, action: Id, body: Body, x: Id)
    ensures var r := Generate(ws, w, proper, id, action, body);
      && LogMoves(ws, r.ws, x, r.ws.admitted > ws.admitted && x == id, Action(action, body, ws.next))
      && (r.ws.admitted > ws.admitted ==> r.result == Ok(ws.next))
  {
    hide Generated;
    if id in ws.explorations { GeneratedAppends(ws.explorations[id], ws.next, w, proper, action, body); }
  }

  lemma VisitedMoves(ws: Workspace, w: World, proper: bool, id: Id, chosen: Exploration, next: Id, e: Entry, x: Id)
    requires LogOf(ws, id) == Log(chosen.batches, chosen.actions) && ws.next <= next
    ensures var r := Visited(ws, w, proper, id, chosen, next, e);
      LogMoves(ws, r.ws, x, r.ws.admitted > ws.admitted && x == id, Action(e.id, Body(chosen.revision, [], false), next))
  {
    hide Generated;
    GeneratedAppends(chosen, next, w, proper, e.id, Body(chosen.revision, [], false));
    FreshSuccess(chosen, next, w, proper, e.id, Body(chosen.revision, [], false));
  }

  lemma RestoreMoves(ws: Workspace, fits: bool, recipes: seq<Recipe>, x: Id)
    ensures var t := Restore(ws, fits, recipes).ws; t.admitted == ws.admitted && LogOf(t, x) == LogOf(ws, x)
  {
    if |recipes| <= FAVOURITES && ws.explorations == map[] && fits {
      RestoredKeeps(ws.next, recipes);
      var (xs, n) := Restored(ws.next, recipes);
      if x in xs { assert Recovers(xs[x], n); }
    }
  }

  lemma QuietMoves(ws: Workspace, w: World, e: Event, x: Id)
    requires Enabled(ws, e) && !Generative(e) && !e.RestoreE? && forall id <- ws.explorations :: id < ws.next
    ensures var t := Apply(ws, w, e).ws; x in t.explorations ==> LogOf(t, x) == LogOf(ws, x)
  {
    hide Favourites, FirstWith, Stopped, Shown;
  }

  /** One event and the log of one exploration. */
  lemma ApplyMoves(ws: Workspace, w: World, e: Event, x: Id)
    requires Enabled(ws, e) && forall id <- ws.explorations :: id < ws.next
    ensures var t := Apply(ws, w, e).ws;
      x in t.explorations ==>
        if Generative(e) then LogMoves(ws, t, x, Targets(ws, e, x) && t.admitted > ws.admitted, MadeBy(ws, e))
        else LogOf(t, x) == LogOf(ws, x)
  {
    hide Generate, Visited, Logged, StillMade, Restore, LogMoves;
    match e
    case GenerateE(proper, id, action, body) => GenerateMoves(ws, w, proper, id, action, body, x);
    case RetryE(proper, id, revision, action, batch) =>
      GenerateMoves(ws, w, proper, id, action, Body(revision, ParentOf(ws, id, batch), false), x);
      Unmoved(ws, x, MadeBy(ws, e));
    case EnterE(valid, proper, pick, entry) =>
      Unmoved(ws, x, MadeBy(ws, e));
      if pick.Some? {
        VisitedMoves(ws, w, proper, pick.value, ws.explorations[pick.value].(style := entry.style, colour := entry.colour), ws.next, entry, x);
      } else {
        VisitedMoves(ws, w, proper, ws.next, Opened(entry), ws.next + 1, entry, x);
      }
    case RestoreE(fits, recipes) => RestoreMoves(ws, fits, recipes, x);
    case _ => QuietMoves(ws, w, e, x);
  }

  lemma Unmoved(ws: Workspace, x: Id, a: Action)
    ensures LogMoves(ws, ws, x, false, a)
  {
  }

  // -------------------------------------------------------------------------- runs

  /** Event i is a generation on exploration id that was admitted. */
  ghost predicate Grows(states: seq<Workspace>, events: seq<Event>, i: nat, id: Id)
    requires |states| == |events| + 1 && i < |events|
  {
    Targets(states[i], events[i], id) && states[i + 1].admitted > states[i].admitted
  }

  /** How many of the events i to j - 1 grew the exploration. */
  ghost function GrowsIn(states: seq<Workspace>, events: seq<Event>, i: nat, j: nat, id: Id): nat
    requires |states| == |events| + 1 && i <= j <= |events|
    decreases j - i
  {
    if i == j then 0 else GrowsIn(states, events, i, j - 1, id) + (if Grows(states, events, j - 1, id) then 1 else 0)
  }

  lemma {:induction false} GrowsFront(states: seq<Workspace>, events: seq<Event>, i: nat, j: nat, id: Id)
    requires |states| == |events| + 1 && i < j <= |events|
    ensures GrowsIn(states, events, i, j, id) == (if Grows(states, events, i, id) then 1 else 0) + GrowsIn(states, events, i + 1, j, id)
    decreases j - i
  {
    hide Grows;
    if i + 1 < j {
      GrowsFront(states, events, i, j - 1, id);
    } else {
      assert GrowsIn(states, events, i, i, id) == 0 == GrowsIn(states, events, j, j, id);
    }
  }

  /** Batch ids ascend and are all drawn before `next`. */
  ghost predicate Ascending(batches: seq<Batch>, next: Id) {
    && (forall i, k | 0 <= i < k < |batches| :: batches[i].id < batches[k].id)
    && (forall k | 0 <= k < |batches| :: batches[k].id < next)
  }

  /** One event of a run and the log of an exploration that is still there after it. */
  lemma RunMoves(states: seq<Workspace>, worlds: seq<World>, events: seq<Event>, i: nat, id: Id)
    requires IsRun(states, worlds, events) && i < |events| && id in states[i + 1].explorations
    ensures if Grows(states, events, i, id) then
              Generative(events[i]) && (events[i].EnterE? && events[i].pick.Some? ==> events[i].pick.value in states[i].explorations)
              && LogMoves(states[i], states[i + 1], id, true, MadeBy(states[i], events[i]))
            else LogOf(states[i + 1], id) == LogOf(states[i], id)
  {
    hide LogMoves, Apply;
    assert Step(states, worlds, events, i);
    IdsBelow(states, worlds, events, i);
    ApplyMoves(states[i], worlds[i], events[i], id);
    if !Grows(states, events, i, id) && Generative(events[i]) { StaysPut(states[i], states[i + 1], id, MadeBy(states[i], events[i])); }
  }

  lemma StaysPut(ws: Workspace, t: Workspace, id: Id, a: Action)
    requires LogMoves(ws, t, id, false, a)
    ensures LogOf(t, id) == LogOf(ws, id)
  {
  }

  lemma AppendAscends(before: seq<Batch>, after: seq<Batch>, next: Id, later: Id)
    requires Ascending(before, next) && |before| <= LOG && |after| > 0
    requires after == Last(before + [after[|after| - 1]]) && next <= after[|after| - 1].id < later
    ensures Ascending(after, later)
  {
  }

  lemma LaterAscends(batches: seq<Batch>, next: Id, later: Id)
    requires Ascending(batches, next) && next <= later
    ensures Ascending(batches, later)
  {
  }

  /** The logs of every reachable exploration, existing or not: ascending and of equal length. */
  lemma {:induction false} LogsInOrder(states: seq<Workspace>, worlds: seq<World>, events: seq<Event>, j: nat, id: Id)
    requires IsRun(states, worlds, events) && j < |states|
    ensures var l := LogOf(states[j], id); Ascending(l.batches, states[j].next) && |l.batches| == |l.actions| <= LOG
  {
    hide Ascending, Grows, Apply, Step;
    Equally(states, worlds, events, j, id);
    if id !in states[j].explorations {
      NoneAscend(states[j].next);
    } else {
      Equally(states, worlds, events, j - 1, id);
      LogsInOrder(states, worlds, events, j - 1, id);
      RunMoves(states, worlds, events, j - 1, id);
      RunOnward(states, worlds, events, j - 1, j);
      if Grows(states, events, j - 1, id) {
        AppendAscends(LogOf(states[j - 1], id).batches, LogOf(states[j], id).batches, states[j - 1].next, states[j].next);
      } else {
        LaterAscends(LogOf(states[j], id).batches, states[j - 1].next, states[j].next);
      }
    }
  }

  lemma NoneAscend(next: Id)
    ensures Ascending([], next)
  {
  }

  lemma Equally(states: seq<Workspace>, worlds: seq<World>, events: seq<Event>, j: nat, id: Id)
    requires IsRun(states, worlds, events) && j < |states|
    ensures var l := LogOf(states[j], id); |l.batches| == |l.actions| <= LOG
    ensures var l := LogOf(states[j], id); forall k | 0 <= k < |l.actions| :: l.actions[k].batch == l.batches[k].id
    ensures var l := LogOf(states[j], id); forall i, k | 0 <= i < k < |l.actions| :: l.actions[i].id != l.actions[k].id
  {
    Reachable(states, worlds, events, j);
    if id in states[j].explorations { assert XInv(states[j].explorations[id], states[j].next); }
  }

  /** An exploration that is there at i and at j is there in between. */
  lemma ThereBetween(states: seq<Workspace>, worlds: seq<World>, events: seq<Event>, i: nat, n: nat, j: nat, id: Id)
    requires IsRun(states, worlds, events) && i <= n <= j < |states|
    requires id in states[i].explorations && id in states[j].explorations
    ensures id in states[n].explorations
  {
    IdsBelow(states, worlds, events, i);
    RunOnward(states, worlds, events, i, n);
    RunOnward(states, worlds, events, n, j);
  }

  /** What stood m places from the end of the logs stands as many places further as were added. */
  ghost predicate Shifted(before: Log, after: Log, m: nat, c: nat) {
    && m < |before.batches| == |before.actions| && m + c < |after.batches| == |after.actions|
    && after.batches[|after.batches| - 1 - m - c] == before.batches[|before.batches| - 1 - m]
    && after.actions[|after.actions| - 1 - m - c] == before.actions[|before.actions| - 1 - m]
  }

  lemma ShiftedByOne(first: Log, before: Log, after: Log, a: Action, m: nat, c: nat)
    requires Shifted(first, before, m, c) && Appended(before, after, a) && |before.batches| <= LOG && m + c + 1 < LOG
    ensures Shifted(first, after, m, c + 1)
  {
  }

  lemma {:induction false} LogShift(states: seq<Workspace>, worlds: seq<World>, events: seq<Event>, i: nat, j: nat, id: Id, m: nat)
    requires IsRun(states, worlds, events) && i <= j <= |events| && id in states[j].explorations
    requires m < |LogOf(states[i], id).batches| && m + GrowsIn(states, events, i, j, id) < LOG
    ensures Shifted(LogOf(states[i], id), LogOf(states[j], id), m, GrowsIn(states, events, i, j, id))
    decreases j
  {
    hide Grows, Apply, Step, Appended, LogOf;
    Equally(states, worlds, events, i, id);
    if i < j {
      Known(states[i], id);
      ThereBetween(states, worlds, events, i, j - 1, j, id);
      LogShift(states, worlds, events, i, j - 1, id, m);
      Equally(states, worlds, events, j - 1, id);
      RunMoves(states, worlds, events, j - 1, id);
      if Grows(states, events, j - 1, id) {
        ShiftedByOne(LogOf(states[i], id), LogOf(states[j - 1], id), LogOf(states[j], id),
                     MadeBy(states[j - 1], events[j - 1]), m, GrowsIn(states, events, i, j - 1, id));
      }
    }
  }

  lemma Known(ws: Workspace, id: Id)
    requires |LogOf(ws, id).batches| > 0
    ensures id in ws.explorations
  {
  }

  /** The last batches, as many as were added, are newer than anything drawn before. */
  ghost predicate Newer(batches: seq<Batch>, c: nat, next: Id) {
    forall k | 0 <= k < |batches| && k >= |batches| - c :: batches[k].id >= next
  }

  lemma NewerByOne(before: Log, after: Log, a: Action, c: nat, next: Id)
    requires Newer(before.batches, c, next) && Appended(before, after, a) && |before.batches| <= LOG && a.batch >= next
    ensures Newer(after.batches, c + 1, next)
  {
  }

  lemma {:induction false} NewerSince(states: seq<Workspace>, worlds: seq<World>, events: seq<Event>, i: nat, j: nat, id: Id)
    requires IsRun(states, worlds, events) && i <= j <= |events| && id in states[i].explorations && id in states[j].explorations
    ensures Newer(LogOf(states[j], id).batches, GrowsIn(states, events, i, j, id), states[i].next)
    decreases j
  {
    hide Grows, Apply, Step, Appended, LogOf;
    if i < j {
      ThereBetween(states, worlds, events, i, j - 1, j, id);
      NewerSince(states, worlds, events, i, j - 1, id);
      Equally(states, worlds, events, j - 1, id);
      RunMoves(states, worlds, events, j - 1, id);
      RunOnward(states, worlds, events, i, j - 1);
      if Grows(states, events, j - 1, id) {
        NewerByOne(LogOf(states[j - 1], id), LogOf(states[j], id), MadeBy(states[j - 1], events[j - 1]),
                   GrowsIn(states, events, i, j - 1, id), states[i].next);
      }
    }
  }

  // ------------------------------------------------------------- repeated actions

  /** The generation of event i is among the last eight of its exploration, which is still there. */
  ghost predicate LiveOn(states: seq<Workspace>, events: seq<Event>, i: nat, j: nat, id: Id)
    requires |states| == |events| + 1 && j <= |events|
  {
    i < j && Grows(states, events, i, id) && GrowsIn(states, events, i + 1, j, id) < LOG && id in states[j].explorations
  }

  /** Its action stands at its place in the log. */
  lemma LiveLogged(states: seq<Workspace>, worlds: seq<World>, events: seq<Event>, i: nat, j: nat, id: Id)
    requires IsRun(states, worlds, events) && j <= |events| && LiveOn(states, events, i, j, id)
    ensures Generative(events[i]) && (events[i].EnterE? && events[i].pick.Some? ==> events[i].pick.value in states[i].explorations)
    ensures var l, c := LogOf(states[j], id), GrowsIn(states, events, i + 1, j, id);
      c < |l.actions| == |l.batches| && l.actions[|l.actions| - 1 - c] == MadeBy(states[i], events[i])
  {
    hide Apply, Step, Targets, GrowsIn;
    BornThere(states, worlds, events, i, id);
    RunMoves(states, worlds, events, i, id);
    Equally(states, worlds, events, i + 1, id);
    LogShift(states, worlds, events, i + 1, j, id, 0);
  }

  /** The exploration of an admitted generation is there right after it. */
  lemma BornThere(states: seq<Workspace>, worlds: seq<World>, events: seq<Event>, i: nat, id: Id)
    requires IsRun(states, worlds, events) && i < |events| && Grows(states, events, i, id)
    ensures id in states[i + 1].explorations
  {
    hide Apply;
    assert Step(states, worlds, events, i);
    IdsBelow(states, worlds, events, i);
    var ws, e := states[i], events[i];
    var revision := if e.GenerateE? then e.body.revision else if e.RetryE? then e.revision
                    else if e.pick.Some? then ws.explorations[id].revision else 0;
    AimedAdmits(ws, worlds[i], e, id, revision);
  }

  lemma KnownAction(ws: Workspace, id: Id)
    requires |LogOf(ws, id).actions| > 0
    ensures id in ws.explorations
  {
  }

  lemma ActionsMove(states: seq<Workspace>, worlds: seq<World>, events: seq<Event>, i: nat, id: Id)
    requires IsRun(states, worlds, events) && i < |events| && id in states[i + 1].explorations
    ensures var before, after := LogOf(states[i], id).actions, LogOf(states[i + 1], id).actions;
      if Grows(states, events, i, id) then
        Generative(events[i]) && (events[i].EnterE? && events[i].pick.Some? ==> events[i].pick.value in states[i].explorations)
        && after == Last(before + [MadeBy(states[i], events[i])])
      else after == before
  {
    hide Grows, Step, Apply, Last;
    RunMoves(states, worlds, events, i, id);
  }

  /** Cutting a log of at most eight after appending. */
  lemma LastCut<T>(before: seq<T>, after: seq<T>)
    requires |before| <= LOG
    ensures forall a :: after == Last(before + [a]) ==>
      after == if |before| == LOG then before[1..] + [a] else before + [a]
  {
  }

  /** And the log holds nothing else. */
  lemma {:induction false} LoggedLive(states: seq<Workspace>, worlds: seq<World>, events: seq<Event>, j: nat, id: Id, k: nat) returns (i: nat)
    requires IsRun(states, worlds, events) && j <= |events| && k < |LogOf(states[j], id).actions|
    ensures i < j && LiveOn(states, events, i, j, id) && GrowsIn(states, events, i + 1, j, id) == |LogOf(states[j], id).actions| - 1 - k
    ensures Generative(events[i]) && (events[i].EnterE? && events[i].pick.Some? ==> events[i].pick.value in states[i].explorations)
    ensures LogOf(states[j], id).actions[k] == MadeBy(states[i], events[i])
    decreases j
  {
    hide Apply, Step, Targets, MadeBy, LogOf, Last;
    KnownAction(states[j], id);
    Equally(states, worlds, events, j, id);
    Equally(states, worlds, events, j - 1, id);
    ActionsMove(states, worlds, events, j - 1, id);
    LastCut(LogOf(states[j - 1], id).actions, LogOf(states[j], id).actions);
    var before := LogOf(states[j - 1], id).actions;
    if !Grows(states, events, j - 1, id) {
      i := LoggedLive(states, worlds, events, j - 1, id, k);
    } else if k < |LogOf(states[j], id).actions| - 1 {
      i := LoggedLive(states, worlds, events, j - 1, id, if |before| == LOG then k + 1 else k);
    } else {
      i := j - 1;
    }
  }

  /** Main result: at any later point of a run, while its exploration is there and fewer than eight
      further generations were admitted on it, repeating a Generate answers the batch it answered
      first, which is still retained, or conflicts when the body differs, and changes nothing. */
  lemma RepeatedGenerate(states: seq<Workspace>, worlds: seq<World>, events: seq<Event>, i: nat, j: nat, id: Id, w: World, body: Body)
    requires IsRun(states, worlds, events) && j <= |events| && LiveOn(states, events, i, j, id)
    requires events[i].GenerateE? && |body.selected| <= 1
    ensures var first := Apply(states[i], worlds[i], events[i]).result;
      && first.Ok? && BatchAt(states[j].explorations[id].batches, first.id) < |states[j].explorations[id].batches|
      && Generate(states[j], w, true, id, events[i].action, body)
         == Reply(states[j], if body == events[i].body then first else Err(Conflict))
  {
    hide Generate, Generated, GrowsIn, Logged, Appended;
    LiveLogged(states, worlds, events, i, j, id);
    FirstAnswer(states, worlds, events, i, id);
    ReplayAt(states, worlds, events, j, id, w, body, |LogOf(states[j], id).actions| - 1 - GrowsIn(states, events, i + 1, j, id));
  }

  /** The admitted Generate or Retry answered the batch that it logged. */
  lemma FirstAnswer(states: seq<Workspace>, worlds: seq<World>, events: seq<Event>, i: nat, id: Id)
    requires IsRun(states, worlds, events) && i < |events| && Grows(states, events, i, id) && (events[i].GenerateE? || events[i].RetryE?)
    ensures Enabled(states[i], events[i]) && Apply(states[i], worlds[i], events[i]).result == Ok(MadeBy(states[i], events[i]).batch)
  {
    hide Generate, Logged, StillMade;
    assert Step(states, worlds, events, i);
    var ws, e := states[i], events[i];
    if e.GenerateE? {
      GenerateMoves(ws, worlds[i], e.proper, id, e.action, e.body, id);
    } else {
      GenerateMoves(ws, worlds[i], e.proper, id, e.action, Body(e.revision, ParentOf(ws, id, e.batch), false), id);
    }
  }

  /** Replay of the action at place k of the log. */
  lemma ReplayAt(states: seq<Workspace>, worlds: seq<World>, events: seq<Event>, j: nat, id: Id, w: World, body: Body, k: nat)
    requires IsRun(states, worlds, events) && j < |states| && k < |LogOf(states[j], id).actions| && |body.selected| <= 1
    ensures var l := LogOf(states[j], id);
      && BatchAt(l.batches, l.actions[k].batch) < |l.batches|
      && Generate(states[j], w, true, id, l.actions[k].id, body)
         == Reply(states[j], if body == l.actions[k].body then Ok(l.actions[k].batch) else Err(Conflict))
  {
    hide Generated;
    Reachable(states, worlds, events, j);
    Equally(states, worlds, events, j, id);
    var x := states[j].explorations[id];
    ReplayIsSafe(x, states[j].next, w, x.actions[k].id, body, k);
    assert states[j].explorations[id := x] == states[j].explorations;
    assert x.batches[k].id == x.actions[k].batch;
  }

  lemma GeneratedAdmits(x: Exploration, next: Id, w: World, proper: bool, action: Id, body: Body)
    ensures var o := Generated(x, next, w, proper, action, body);
      o.result.Ok? ==> (o.admitted <==> Logged(x.actions, action) == |x.actions|)
  {
  }

  ghost predicate HasLiveOn(states: seq<Workspace>, worlds: seq<World>, events: seq<Event>, j: nat, id: Id, action: Id)
    requires IsRun(states, worlds, events) && j <= |events|
  {
    exists i: nat :: i < j && LiveOn(states, events, i, j, id) && Makes(states, events, i, action)
  }

  ghost predicate Makes(states: seq<Workspace>, events: seq<Event>, i: nat, action: Id)
    requires |states| == |events| + 1 && i < |events|
  {
    && Generative(events[i]) && (events[i].EnterE? && events[i].pick.Some? ==> events[i].pick.value in states[i].explorations)
    && MadeBy(states[i], events[i]).id == action
  }

  /** Main result: a Generate that succeeds is admitted anew if and only if no live generation of
      the exploration used its action. */
  lemma NewGenerate(states: seq<Workspace>, worlds: seq<World>, events: seq<Event>, j: nat, id: Id, w: World, proper: bool, action: Id, body: Body)
    requires IsRun(states, worlds, events) && j <= |events| && Generate(states[j], w, proper, id, action, body).result.Ok?
    ensures Generate(states[j], w, proper, id, action, body).ws.admitted
      == states[j].admitted + (if HasLiveOn(states, worlds, events, j, id, action) then 0 else 1)
  {
    hide LiveOn, MadeBy, GrowsIn, Step, Generated;
    var actions := LogOf(states[j], id).actions;
    if Logged(actions, action) < |actions| {
      var i := LoggedLive(states, worlds, events, j, id, Logged(actions, action));
      assert Makes(states, events, i, action);
    }
    if id in states[j].explorations { GeneratedAdmits(states[j].explorations[id], states[j].next, w, proper, action, body); }
    if HasLiveOn(states, worlds, events, j, id, action) {
      var i: nat :| i < j && LiveOn(states, events, i, j, id) && Makes(states, events, i, action);
      LiveLogged(states, worlds, events, i, j, id);
      assert MadeBy(states[i], events[i]) in actions;
    }
  }

  // ------------------------------------------------------------- repeated retries

  /** An admitted Retry was made for the last batch of its exploration. */
  lemma RetriesLast(ws: Workspace, w: World, proper: bool, id: Id, revision: int, action: Id, batch: Id)
    requires Retry(ws, w, proper, id, revision, action, batch).ws.admitted > ws.admitted
    ensures var batches := LogOf(ws, id).batches; |batches| > 0 && batches[|batches| - 1].id == batch
  {
  }

  /** In an ascending list a batch is found where it stands. */
  lemma FoundAt(batches: seq<Batch>, next: Id, k: nat)
    requires Ascending(batches, next) && k < |batches|
    ensures BatchAt(batches, batches[k].id) == k
  {
  }

  lemma NotFound(batches: seq<Batch>, batch: Id, c: nat, next: Id)
    requires Newer(batches, c, next) && |batches| <= c && batch < next
    ensures BatchAt(batches, batch) == |batches|
  {
  }

  lemma ReplayedRetry(ws: Workspace, w: World, id: Id, revision: int, action: Id, batch: Id)
    requires Logged(LogOf(ws, id).actions, action) < |LogOf(ws, id).actions|
    requires BatchAt(LogOf(ws, id).batches, batch) < |LogOf(ws, id).batches|
    ensures Retry(ws, w, true, id, revision, action, batch) == Generate(ws, w, true, id, action, Body(revision, ParentOf(ws, id, batch), false))
  {
    hide Generate;
  }

  /** The batch it retried is dropped from the log. */
  lemma RetriedGone(states: seq<Workspace>, worlds: seq<World>, events: seq<Event>, i: nat, j: nat, id: Id)
    requires IsRun(states, worlds, events) && i < j <= |events| && Grows(states, events, i, id) && events[i].RetryE?
    requires id in states[i].explorations && id in states[j].explorations && GrowsIn(states, events, i, j, id) >= LOG
    requires LogOf(states[i], id).batches != []
    requires LogOf(states[i], id).batches[|LogOf(states[i], id).batches| - 1].id == events[i].batch
    ensures BatchAt(LogOf(states[j], id).batches, events[i].batch) == |LogOf(states[j], id).batches|
  {
    hide Grows, Step, BatchAt, LogOf;
    NewerSince(states, worlds, events, i, j, id);
    LogsInOrder(states, worlds, events, i, id);
    LogsInOrder(states, worlds, events, j, id);
    NotFound(LogOf(states[j], id).batches, events[i].batch, GrowsIn(states, events, i, j, id), states[i].next);
  }

  /** The batch it retried is retained with its parent. */
  lemma RetriedKept(states: seq<Workspace>, worlds: seq<World>, events: seq<Event>, i: nat, j: nat, id: Id)
    requires IsRun(states, worlds, events) && i < j <= |events| && Grows(states, events, i, id) && events[i].RetryE?
    requires id in states[j].explorations && GrowsIn(states, events, i, j, id) < LOG
    requires LogOf(states[i], id).batches != []
    requires LogOf(states[i], id).batches[|LogOf(states[i], id).batches| - 1].id == events[i].batch
    ensures BatchAt(LogOf(states[j], id).batches, events[i].batch) < |LogOf(states[j], id).batches|
    ensures ParentOf(states[j], id, events[i].batch) == ParentOf(states[i], id, events[i].batch)
  {
    hide Grows, Step, BatchAt, LogOf, GrowsIn;
    var before, after := LogOf(states[i], id).batches, LogOf(states[j], id).batches;
    LogShift(states, worlds, events, i, j, id, 0);
    LogsInOrder(states, worlds, events, i, id);
    LogsInOrder(states, worlds, events, j, id);
    FoundAt(before, states[i].next, |before| - 1);
    FoundAt(after, states[j].next, |after| - 1 - GrowsIn(states, events, i, j, id));
  }

  /** Main result: at any later point of a run, while its exploration is there, repeating a Retry
      answers the batch it answered first, as long as the batch it retried is retained, that is,
      through six further generations; from then on that batch is gone. It conflicts when the
      revision differs, and changes nothing in any case. */
  lemma RepeatedRetry(states: seq<Workspace>, worlds: seq<World>, events: seq<Event>, i: nat, j: nat, id: Id, w: World, revision: int)
    requires IsRun(states, worlds, events) && i < j <= |events| && Grows(states, events, i, id) && events[i].RetryE?
    requires id in states[j].explorations
    ensures var first := Apply(states[i], worlds[i], events[i]).result;
      && first.Ok?
      && Retry(states[j], w, true, id, revision, events[i].action, events[i].batch)
         == Reply(states[j], if GrowsIn(states, events, i + 1, j, id) + 1 >= LOG then Err(Gone)
                             else if revision == events[i].revision then first else Err(Conflict))
  {
    hide Generate, Generated, GrowsIn, Logged, Appended, Retry, Step, BatchAt, StillMade, Grows, LogOf;
    var e, c := events[i], GrowsIn(states, events, i + 1, j, id);
    Retried(states, worlds, events, i, id);
    FirstAnswer(states, worlds, events, i, id);
    GrowsFront(states, events, i, j, id);
    if c + 1 >= LOG {
      RetriedGone(states, worlds, events, i, j, id);
      GoneRetry(states[j], w, id, revision, e.action, e.batch);
    } else {
      RetriedKept(states, worlds, events, i, j, id);
      LiveLogged(states, worlds, events, i, j, id);
      var k := |LogOf(states[j], id).actions| - 1 - c;
      InLog(LogOf(states[j], id).actions, k);
      ReplayedRetry(states[j], w, id, revision, e.action, e.batch);
      ReplayAt(states, worlds, events, j, id, w, Body(revision, ParentOf(states[j], id, e.batch), false), k);
    }
  }

  lemma InLog(actions: seq<Action>, k: nat)
    requires k < |actions|
    ensures Logged(actions, actions[k].id) < |actions|
  {
  }

  lemma GoneRetry(ws: Workspace, w: World, id: Id, revision: int, action: Id, batch: Id)
    requires BatchAt(LogOf(ws, id).batches, batch) == |LogOf(ws, id).batches|
    ensures Retry(ws, w, true, id, revision, action, batch) == Reply(ws, Err(Gone))
  {
  }

  lemma Retried(states: seq<Workspace>, worlds: seq<World>, events: seq<Event>, i: nat, id: Id)
    requires IsRun(states, worlds, events) && i < |events| && Grows(states, events, i, id) && events[i].RetryE?
    ensures events[i].id == id && id in states[i].explorations && LogOf(states[i], id).batches != []
    ensures LogOf(states[i], id).batches[|LogOf(states[i], id).batches| - 1].id == events[i].batch
  {
    hide Retry;
    assert Step(states, worlds, events, i);
    var e := events[i];
    RetriesLast(states[i], worlds[i], e.proper, id, e.revision, e.action, e.batch);
  }
}
