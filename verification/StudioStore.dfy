/** The studio as it runs: loops, the in-place retention filter, and fields updated step by step. */
module StudioStore {
  import opened Basics
  import opened Planner
  import opened Studio
  import opened StudioRuns

  /** Whether the batch or one of its members is named. */
  method Names(batches: seq<Batch>) returns (keep: set<Id>)
    ensures keep == Named(batches)
  {
    keep := {};
    for i := 0 to |batches|
      invariant keep == Named(batches[..i])
    {
      var b := batches[i];
      assert batches[..i + 1][..i] == batches[..i];
      if b.parent.Some? { keep := keep + {b.parent.value}; }
      keep := keep + (set id <- b.samples);
    }
    assert batches[..|batches|] == batches;
  }

  /** The filter that compacts the kept samples to the front of their own array. */
  method Retain(a: array<Sample>, keep: set<Id>) returns (n: nat)
    modifies a
    ensures n <= a.Length && a[..n] == Kept(old(a[..]), keep)
  {
    n := 0;
    ghost var was := a[..];
    for i := 0 to a.Length
      invariant n <= i && a[..n] == Kept(was[..i], keep) && a[i..] == was[i..]
    {
      assert was[..i + 1][..i] == was[..i] && a[i] == was[i];
      assert a[i + 1..] == was[i + 1..];
      if a[i].favourite || a[i].id in keep {
        ghost var front := a[..n];
        a[n] := a[i];
        assert a[..n + 1] == front + [was[i]];
        n := n + 1;
      }
    }
    assert was[..a.Length] == was;
  }

  method Find(samples: seq<Sample>, id: Id) returns (k: nat)
    ensures k == FirstWith(samples, id)
  {
    for i := 0 to |samples|
      invariant forall n | 0 <= n < i :: samples[n].id != id
    {
      if samples[i].id == id { return i; }
    }
    k := |samples|;
  }

  method FindLogged(actions: seq<Action>, id: Id) returns (k: nat)
    ensures k == Logged(actions, id)
  {
    for i := 0 to |actions|
      invariant forall n | 0 <= n < i :: actions[n].id != id
    {
      if actions[i].id == id { return i; }
    }
    k := |actions|;
  }

  method FindBatch(batches: seq<Batch>, id: Id) returns (k: nat)
    ensures k == BatchAt(batches, id)
  {
    for i := 0 to |batches|
      invariant forall n | 0 <= n < i :: batches[n].id != id
    {
      if batches[i].id == id { return i; }
    }
    k := |batches|;
  }

  /** Some image of the batch is ready or still being made. */
  method AnyMade(samples: seq<Sample>, b: Batch, status: JobId -> JobState) returns (made: bool)
    ensures made == StillMade(samples, b, status)
  {
    for i := 0 to |samples|
      invariant forall n | 0 <= n < i ::
        !(samples[n].id in b.samples && (Shown(samples[n], status) == Ready || Unfinished(Shown(samples[n], status))))
    {
      if samples[i].id in b.samples {
        var s := Shown(samples[i], status);
        if s == Ready || Unfinished(s) { return true; }
      }
    }
    made := false;
  }

  /** Active: some sample or download is still being made. */
  method AnyActive(samples: seq<Sample>, status: JobId -> JobState) returns (active: bool)
    ensures active == Active(samples, status)
  {
    for i := 0 to |samples|
      invariant forall n | 0 <= n < i :: !Pending(samples[n], status)
    {
      if Pending(samples[i], status) { return true; }
    }
    active := false;
  }

  /** The last matching sample lends its style and colour. */
  method LookOf(x: Exploration, selected: seq<Id>) returns (style: string, colour: string)
    requires |selected| <= 1
    ensures (style, colour) == Look(x, selected)
  {
    style, colour := x.style, x.colour;
    if |selected| != 1 { return; }
    ghost var found := -1;
    for i := 0 to |x.samples|
      invariant -1 <= found < i && forall n | found < n < i :: x.samples[n].id != selected[0]
      invariant found >= 0 ==> x.samples[found].id == selected[0] && (style, colour) == (x.samples[found].style, x.samples[found].colour)
      invariant found < 0 ==> (style, colour) == (x.style, x.colour)
    {
      if x.samples[i].id == selected[0] {
        style, colour := x.samples[i].style, x.samples[i].colour;
        found := i;
      }
    }
    if found >= 0 {
      assert Knows(x.samples, selected[0]);
      PositionIs(x.samples, selected[0], found);
    }
  }

  lemma {:induction false} PositionIs(samples: seq<Sample>, id: Id, k: nat)
    requires k < |samples| && samples[k].id == id && forall n | k < n < |samples| :: samples[n].id != id
    ensures Knows(samples, id) && Position(samples, id) == k
  {
    var n := |samples| - 1;
    if k < n { PositionIs(samples[..n], id, k); }
  }

  method CountFavourites(samples: seq<Sample>) returns (n: nat)
    ensures n == Kind(samples)
  {
    n := 0;
    for i := 0 to |samples|
      invariant n == Kind(samples[..i])
    {
      assert samples[..i + 1][..i] == samples[..i];
      if samples[i].favourite { n := n + 1; }
    }
    assert samples[..|samples|] == samples;
  }

  method Filter(all: seq<Sample>, keep: set<Id>) returns (kept: seq<Sample>)
    ensures kept == Kept(all, keep)
  {
    var a := new Sample[|all|](i requires 0 <= i < |all| => all[i]);
    assert a[..] == all;
    var n := Retain(a, keep);
    kept := a[..n];
  }

  /** The end of generate: append, cut the logs to eight, filter the samples in place. */
  method Extend(x: Exploration, style: string, colour: string, drafts: seq<Sample>, b: Batch, a: Action) returns (y: Exploration)
    ensures y == Extended(x, (style, colour), drafts, b, a)
  {
    var batches := x.batches + [b];
    if |batches| > LOG { batches := batches[1..]; }
    var keep := Names(batches);
    var samples := Filter(x.samples + drafts, keep);
    var actions := x.actions + [a];
    if |actions| > LOG { actions := actions[1..]; }
    y := x.(samples := samples, batches := batches, actions := actions,
            style := style, colour := colour, round := x.round + 1, revision := x.revision + 1);
  }

  method Commit(x: Exploration, next: Id, job: nat -> JobId, seeds: seq<nat>, action: Id, body: Body) returns (y: Exploration)
    requires |body.selected| <= 1
    ensures y == Committed(x, next, job, seeds, action, body)
  {
    var style, colour := LookOf(x, body.selected);
    var drafts := Drafts(seeds, next + 1, (style, colour), job);
    y := Extend(x, style, colour, drafts, NewBatch(next, body, drafts), Action(action, body, next));
  }

  class Store {
    var explorations: map<Id, Exploration>
    var entries: seq<Entry>
    var next: Id
    var admitted: nat

    function Now(): Workspace
      reads this
    {
      Workspace(explorations, entries, next, admitted)
    }

    constructor ()
      ensures Now() == Workspace(map[], [], 0, 0)
    {
      explorations, entries, next, admitted := map[], [], 0, 0;
    }

    /** generate on an exploration that was found. */
    method GenerateIn(w: World, proper: bool, id: Id, action: Id, body: Body) returns (r: Result)
      requires id in explorations
      modifies this`explorations, this`next, this`admitted
      ensures var o := Generated(old(explorations[id]), old(next), w, proper, action, body);
        && explorations == old(explorations)[id := o.x] && next == o.next && r == o.result
        && admitted == old(admitted) + (if o.admitted then 1 else 0)
    {
      var x := explorations[id];
      assert explorations == explorations[id := x];
      if !proper || |body.selected| > 1 { return Err(Invalid); }
      var k := FindLogged(x.actions, action);
      if k < |x.actions| {
        if x.actions[k].body != body { return Err(Conflict); }
        return Ok(x.actions[k].batch);
      }
      if body.revision != x.revision { return Err(Conflict); }
      var active := AnyActive(x.samples, w.status);
      if active { return Err(Making); }
      if !body.different && |body.selected| == 1 {
        if !Knows(x.samples, body.selected[0]) { return Err(Invalid); }
      }
      var seeds := Plan(w.entropy, Seeds(x.samples));
      if !w.fits || !w.admits { return Err(Busy); }
      var y := Commit(x, next, w.job, seeds, action, body);
      explorations := explorations[id := y];
      r := Ok(next);
      next := next + 1 + |seeds|;
      admitted := admitted + 1;
    }

    method Generate(w: World, proper: bool, id: Id, action: Id, body: Body) returns (r: Result)
      modifies this
      ensures Reply(Now(), r) == Studio.Generate(old(Now()), w, proper, id, action, body)
    {
      if !proper || |body.selected| > 1 { return Err(Invalid); }
      if id !in explorations { return Err(Gone); }
      r := GenerateIn(w, proper, id, action, body);
    }

    /** Retry: the guards for a new admission apply only when the action is not a replay. */
    method Retry(w: World, proper: bool, id: Id, revision: int, action: Id, batch: Id) returns (r: Result)
      modifies this
      ensures Reply(Now(), r) == Studio.Retry(old(Now()), w, proper, id, revision, action, batch)
    {
      hide Generated;
      if id !in explorations { return Err(Gone); }
      var x := explorations[id];
      var k := FindBatch(x.batches, batch);
      if k == |x.batches| { return Err(Gone); }
      var parent := if x.batches[k].parent.Some? then [x.batches[k].parent.value] else [];
      var logged := FindLogged(x.actions, action);
      if logged == |x.actions| {
        if revision != x.revision || x.batches[|x.batches| - 1].id != batch { return Err(Conflict); }
        var made := AnyMade(x.samples, x.batches[k], w.status);
        if made { return Err(Invalid); }
      }
      r := Generate(w, proper, id, action, Body(revision, parent, false));
    }

    method Start(valid: bool, artwork: string, style: string, colour: string) returns (r: Result)
      modifies this
      ensures Reply(Now(), r) == Studio.Start(old(Now()), valid, artwork, style, colour)
    {
      if !valid { return Err(Invalid); }
      if |explorations| >= TABS { return Err(Busy); }
      explorations := explorations[next := Exploration(artwork, style, colour, 0, [], [], [], 0)];
      r := Ok(next);
      next := next + 1;
    }

    /** Choices are set before the generation and put back when it fails. */
    method Visit(w: World, proper: bool, id: Id, style: string, colour: string, action: Id) returns (r: Result, ghost o: Studio.Outcome)
      requires id in explorations
      modifies this`explorations, this`next, this`admitted
      ensures var x := old(explorations[id]).(style := style, colour := colour);
        o == Generated(x, old(next), w, proper, action, Body(x.revision, [], false))
      ensures r == o.result && next == o.next && admitted == old(admitted) + (if o.admitted then 1 else 0)
      ensures explorations == if r.Err? then old(explorations) else old(explorations)[id := o.x]
      ensures r.Err? ==> next == old(next) && admitted == old(admitted)
    {
      var oldStyle, oldColour := explorations[id].style, explorations[id].colour;
      var x := explorations[id].(style := style, colour := colour);
      explorations := explorations[id := x];
      FreshSuccess(x, next, w, proper, action, Body(x.revision, [], false));
      o := Generated(x, next, w, proper, action, Body(x.revision, [], false));
      r := GenerateIn(w, proper, id, action, Body(x.revision, [], false));
      if r.Err? {
        explorations := explorations[id := explorations[id].(style := oldStyle, colour := oldColour)];
        assert explorations == old(explorations);
      } else {
        assert explorations == old(explorations)[id := explorations[id]];
      }
    }

    method FindEntry(id: Id) returns (k: nat)
      ensures k == Entered(entries, id)
    {
      for i := 0 to |entries|
        invariant forall n | 0 <= n < i :: entries[n].id != id
      {
        if entries[i].id == id { return i; }
      }
      k := |entries|;
    }

    method Log(e: Entry)
      modifies this`entries
      ensures entries == Last(old(entries) + [e])
    {
      entries := entries + [e];
      if |entries| > LOG { entries := entries[1..]; }
    }

    /** Enter, where the art form has an exploration already. */
    method Reenter(w: World, proper: bool, id: Id, e: Entry) returns (r: Result)
      requires id in explorations
      modifies this
      ensures Reply(Now(), r) == Visited(old(Now()), w, proper, id, old(explorations[id]).(style := e.style, colour := e.colour), old(next), e)
    {
      ghost var o;
      r, o := Visit(w, proper, id, e.style, e.colour, e.id);
      if r.Ok? {
        Log(e.(exploration := id));
        r := Ok(id);
      }
    }

    /** Enter, where a fresh exploration is opened, and removed again on failure; then only its
        unused token is spent. */
    method EnterFresh(w: World, proper: bool, e: Entry) returns (r: Result)
      requires next !in explorations
      modifies this
      ensures var t := Visited(old(Now()), w, proper, old(next), Opened(e), old(next) + 1, e);
        && r == t.result && (r.Ok? ==> Now() == t.ws)
        && (r.Err? ==> t.ws == old(Now()) && Now() == old(Now()).(next := old(next) + 1))
    {
      hide Generated;
      var id := next;
      explorations := explorations[id := Exploration(e.artwork, "", "", 0, [], [], [], 0)];
      next := next + 1;
      ghost var o;
      r, o := Visit(w, proper, id, e.style, e.colour, e.id);
      assert o == Generated(Opened(e), id + 1, w, proper, e.id, Body(0, [], false));
      if r.Err? {
        explorations := explorations - {id};
        assert explorations == old(explorations);
      } else {
        Log(e.(exploration := id));
        r := Ok(id);
      }
    }

    /** Enter: a repeated form answers its exploration; otherwise the choices are tried out. */
    method Enter(w: World, valid: bool, proper: bool, pick: Option<Id>, e: Entry) returns (r: Result)
      requires (pick.Some? ==> pick.value in explorations) && next !in explorations
      modifies this
      ensures var t := Studio.Enter(old(Now()), w, valid, proper, pick, e);
        r == t.result && (r.Ok? ==> Now() == t.ws) && (r.Err? ==> Now().(next := old(next)) == old(Now()))
    {
      hide Generated;
      if !valid { return Err(Invalid); }
      var k := FindEntry(e.id);
      if k < |entries| {
        var known := entries[k];
        if known.artwork != e.artwork || known.style != e.style || known.colour != e.colour { return Err(Conflict); }
        return Ok(known.exploration);
      }
      FailedEnterLeavesNoTrace(Now(), w, valid, proper, pick, e);
      if pick.Some? {
        r := Reenter(w, proper, pick.value, e);
      } else if |explorations| >= TABS {
        r := Err(Busy);
      } else {
        r := EnterFresh(w, proper, e);
      }
    }

    method Choices(valid: bool, id: Id, revision: int, style: string, colour: string) returns (r: Result)
      modifies this`explorations
      ensures Reply(Now(), r) == Studio.Choices(old(Now()), valid, id, revision, style, colour)
    {
      if id !in explorations { return Err(Gone); }
      var x := explorations[id];
      if revision != x.revision { return Err(Conflict); }
      if !valid { return Err(Invalid); }
      explorations := explorations[id := x.(style := style, colour := colour, revision := x.revision + 1)];
      r := Ok(id);
    }

    /** Favourites of the whole workspace. */
    method Count() returns (n: nat)
      ensures n == Total(Favourites(explorations))
    {
      n := 0;
      var rest := explorations.Keys;
      ghost var done: map<Id, Exploration> := map[];
      assert Favourites(done) == map[];
      while rest != {}
        invariant rest <= explorations.Keys && done == map k | k in explorations && k !in rest :: explorations[k]
        invariant n == Total(Favourites(done))
      {
        var id :| id in rest;
        var k := CountFavourites(explorations[id].samples);
        FavouritesAdd(done, id, explorations[id]);
        rest := rest - {id};
        done := done[id := explorations[id]];
        n := n + k;
      }
      assert done == explorations;
    }

    method Favourite(id: Id, sample: Id, revision: int, on: bool) returns (r: Result)
      modifies this`explorations
      ensures Reply(Now(), r) == Studio.Favourite(old(Now()), id, sample, revision, on)
    {
      if id !in explorations { return Err(Gone); }
      var x := explorations[id];
      if x.revision != revision { return Err(Conflict); }
      var count := Count();
      var k := Find(x.samples, sample);
      if k == |x.samples| { return Err(Gone); }
      if on && !x.samples[k].favourite && count >= FAVOURITES { return Err(Invalid); }
      explorations := explorations[id :=
        x.(samples := x.samples[k := x.samples[k].(favourite := on)], revision := x.revision + 1)];
      r := Ok(id);
    }

    /** The loop of Cancel over all samples; `dropped` are its calls to the queue's own Cancel. */
    static method StopAll(all: seq<Sample>, members: seq<Id>, status: JobId -> JobState) returns (samples: seq<Sample>, dropped: seq<JobId>)
      ensures samples == Stopped(all, members, status)
      ensures dropped == Withdrawn(all, members, status)
    {
      samples, dropped := all, [];
      for i := 0 to |samples|
        invariant |samples| == |all|
        invariant forall k | 0 <= k < |samples| :: samples[k] == if k < i then Stopped(all, members, status)[k] else all[k]
        invariant dropped == Withdrawn(all[..i], members, status)
      {
        assert all[..i + 1][..i] == all[..i];
        if samples[i].id in members && Unfinished(StatusOf(status, samples[i].job)) {
          dropped := dropped + [samples[i].job.value];
          samples := samples[i := samples[i].(cancelled := true)];
        }
      }
      assert all[..|samples|] == all;
    }

    method Cancel(w: World, id: Id, revision: int, batch: Id) returns (r: Result, dropped: seq<JobId>)
      modifies this`explorations
      ensures Reply(Now(), r) == Studio.Cancel(old(Now()), w, id, revision, batch)
      ensures r.Err? ==> dropped == []
      ensures r.Ok? ==> id in old(explorations) && var x := old(explorations)[id];
        |x.batches| > 0 && dropped == Withdrawn(x.samples, x.batches[|x.batches| - 1].samples, w.status)
    {
      if id !in explorations { return Err(Gone), []; }
      var x := explorations[id];
      if x.revision != revision || |x.batches| == 0 || x.batches[|x.batches| - 1].id != batch { return Err(Conflict), []; }
      var samples;
      samples, dropped := StopAll(x.samples, x.batches[|x.batches| - 1].samples, w.status);
      explorations := explorations[id := x.(samples := samples, revision := x.revision + 1)];
      r := Ok(id);
    }

    method Download(w: World, id: Id, sample: Id) returns (r: Result)
      modifies this`explorations, this`admitted
      ensures Reply(Now(), r) == Studio.Download(old(Now()), w, id, sample)
    {
      if id !in explorations { return Err(Gone); }
      var x := explorations[id];
      var k := Find(x.samples, sample);
      if k == |x.samples| { return Err(Gone); }
      var a := x.samples[k];
      if a.download.Some? {
        var s := StatusOf(w.status, a.download);
        if Unfinished(s) || s == Ready { return Ok(id); }
      }
      if !w.admits { return Err(Busy); }
      explorations := explorations[id := x.(samples := x.samples[k := a.(download := Some(w.job(0)))])];
      admitted := admitted + 1;
      r := Ok(id);
    }
  }
}
