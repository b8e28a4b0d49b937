/** Every operation keeps the studio's bounds, and whole runs admit an action at most once. */
module StudioRuns {
  import opened Basics
  import opened Planner
  import opened Studio

  datatype Event =
    | GenerateE(proper: bool, id: Id, action: Id, body: Body)
    | RetryE(proper: bool, id: Id, revision: int, action: Id, batch: Id)
    | EnterE(valid: bool, proper: bool, pick: Option<Id>, entry: Entry)
    | ChoicesE(valid: bool, id: Id, revision: int, style: string, colour: string)
    | FavouriteE(id: Id, sample: Id, revision: int, on: bool)
    | CancelE(id: Id, revision: int, batch: Id)
    | DownloadE(id: Id, sample: Id)
    | StartE(valid: bool, artwork: string, style: string, colour: string)
    | RestoreE(fits: bool, recipes: seq<Recipe>)
    | ClearE

  /** The map iteration of Enter meets an exploration of the artwork when there is one. */
  ghost predicate Enabled(ws: Workspace, e: Event) {
    e.EnterE? ==>
      if e.pick.Some? then e.pick.value in ws.explorations && ws.explorations[e.pick.value].artwork == e.entry.artwork
      else forall id <- ws.explorations :: ws.explorations[id].artwork != e.entry.artwork
  }

  ghost function Apply(ws: Workspace, w: World, e: Event): Reply
    requires Enabled(ws, e)
  {
    match e
    case GenerateE(proper, id, action, body) => Generate(ws, w, proper, id, action, body)
    case RetryE(proper, id, revision, action, batch) => Retry(ws, w, proper, id, revision, action, batch)
    case EnterE(valid, proper, pick, entry) => Enter(ws, w, valid, proper, pick, entry)
    case ChoicesE(valid, id, revision, style, colour) => Choices(ws, valid, id, revision, style, colour)
    case FavouriteE(id, sample, revision, on) => Favourite(ws, id, sample, revision, on)
    case CancelE(id, revision, batch) => Cancel(ws, w, id, revision, batch)
    case DownloadE(id, sample) => Download(ws, w, id, sample)
    case StartE(valid, artwork, style, colour) => Start(ws, valid, artwork, style, colour)
    case RestoreE(fits, recipes) => Restore(ws, fits, recipes)
    case ClearE => Clear(ws)
  }

  // ------------------------------------------------------------ one operation each

  lemma Later(x: Exploration, next: Id, later: Id)
    requires XInv(x, next) && next <= later
    ensures XInv(x, later)
  {
  }

  lemma FavouritesBound(xs: map<Id, Exploration>, id: Id)
    requires id in xs && Total(Favourites(xs)) <= FAVOURITES
    ensures Kind(xs[id].samples) <= FAVOURITES
  {
    TotalAtLeast(Favourites(xs), id);
  }

  /** Replacing one exploration changes the favourites by that exploration's own change. */
  lemma FavouritesMove(xs: map<Id, Exploration>, id: Id, y: Exploration)
    requires id in xs
    ensures Total(Favourites(xs[id := y])) == Total(Favourites(xs)) - Kind(xs[id].samples) + Kind(y.samples)
  {
    TotalSplit(Favourites(xs), id);
    TotalSplit(Favourites(xs[id := y]), id);
    assert Favourites(xs[id := y]) - {id} == Favourites(xs) - {id};
  }

  lemma FavouritesAdd(xs: map<Id, Exploration>, id: Id, y: Exploration)
    requires id !in xs
    ensures Total(Favourites(xs[id := y])) == Total(Favourites(xs)) + Kind(y.samples)
  {
    assert Favourites(xs[id := y]) == Favourites(xs)[id := Kind(y.samples)];
    TotalInsert(Favourites(xs), id, Kind(y.samples));
  }

  /** The invariant with one exploration replaced or added. */
  lemma Replaced(ws: Workspace, id: Id, y: Exploration, next: Id, t: Workspace)
    requires Inv(ws) && next >= ws.next && id < next && XInv(y, next)
    requires t.explorations == ws.explorations[id := y] && t.next == next && |t.entries| <= LOG
    requires Total(Favourites(t.explorations)) <= FAVOURITES
    ensures Inv(t)
  {
    forall k <- t.explorations ensures XInv(t.explorations[k], next) && k < next {
      if k != id { Later(ws.explorations[k], ws.next, next); }
    }
  }

  lemma GenerateKeeps(ws: Workspace, w: World, proper: bool, id: Id, action: Id, body: Body)
    requires Inv(ws)
    ensures Inv(Generate(ws, w, proper, id, action, body).ws)
  {
    if proper && |body.selected| <= 1 && id in ws.explorations {
      var x := ws.explorations[id];
      FavouritesBound(ws.explorations, id);
      GeneratedKeeps(x, ws.next, w, proper, action, body);
      var o := Generated(x, ws.next, w, proper, action, body);
      FavouritesMove(ws.explorations, id, o.x);
      Replaced(ws, id, o.x, o.next, Generate(ws, w, proper, id, action, body).ws);
    }
  }

  /** A new exploration is in order and has no favourites. */
  lemma EmptyKeeps(x: Exploration, next: Id)
    requires x.samples == [] && x.batches == [] && x.actions == []
    ensures XInv(x, next) && Kind(x.samples) == 0
  {
  }

  /** Other choices do not matter to the invariant. */
  lemma ChosenKeeps(x: Exploration, next: Id, style: string, colour: string)
    requires XInv(x, next)
    ensures XInv(x.(style := style, colour := colour), next)
  {
  }

  /** A generation under new choices, on an exploration at hand or a fresh one. */
  lemma VisitedKeeps(ws: Workspace, w: World, proper: bool, id: Id, x: Exploration, next: Id, e: Entry)
    requires Inv(ws) && XInv(x, next) && next >= ws.next && id < next
    requires if id in ws.explorations then Kind(x.samples) == Kind(ws.explorations[id].samples) else Kind(x.samples) == 0
    ensures Inv(Visited(ws, w, proper, id, x, next, e).ws)
  {
    var t := Visited(ws, w, proper, id, x, next, e).ws;
    var body := Body(x.revision, [], false);
    var o := Generated(x, next, w, proper, e.id, body);
    if id in ws.explorations { FavouritesBound(ws.explorations, id); }
    GeneratedKeeps(x, next, w, proper, e.id, body);
    if o.result.Ok? {
      if id in ws.explorations { FavouritesMove(ws.explorations, id, o.x); } else { FavouritesAdd(ws.explorations, id, o.x); }
      Replaced(ws, id, o.x, o.next, t);
    }
  }

  lemma EnterKeeps(ws: Workspace, w: World, valid: bool, proper: bool, pick: Option<Id>, e: Entry)
    requires Inv(ws) && (pick.Some? ==> pick.value in ws.explorations)
    ensures Inv(Enter(ws, w, valid, proper, pick, e).ws)
  {
    hide Generated, XInv;
    if Entered(ws.entries, e.id) == |ws.entries| {
      if pick.Some? {
        ChosenKeeps(ws.explorations[pick.value], ws.next, e.style, e.colour);
        VisitedKeeps(ws, w, proper, pick.value, ws.explorations[pick.value].(style := e.style, colour := e.colour), ws.next, e);
      } else if |ws.explorations| < TABS {
        EmptyKeeps(Opened(e), ws.next + 1);
        VisitedKeeps(ws, w, proper, ws.next, Opened(e), ws.next + 1, e);
      }
    }
  }

  lemma RevisedKeeps(x: Exploration, next: Id, y: Exploration)
    requires XInv(x, next) && y.batches == x.batches && y.actions == x.actions && y.revision >= x.revision
    requires |y.samples| == |x.samples| && forall k | 0 <= k < |x.samples| :: y.samples[k].id == x.samples[k].id
    ensures XInv(y, next)
  {
    forall a <- y.samples ensures a.id < next {
      var k :| 0 <= k < |y.samples| && y.samples[k] == a;
      assert x.samples[k] in x.samples;
    }
    forall k | 0 <= k < |y.batches| ensures Holds(y.batches[k], y.samples) {
      HoldsRevised(y.batches[k], x.samples, y.samples);
    }
  }

  lemma HoldsRevised(b: Batch, s: seq<Sample>, t: seq<Sample>)
    requires Holds(b, s) && |t| == |s| && forall k | 0 <= k < |s| :: t[k].id == s[k].id
    ensures Holds(b, t)
  {
    forall i | 0 <= i < |b.samples| ensures Knows(t, b.samples[i]) {
      var k :| 0 <= k < |s| && s[k].id == b.samples[i];
      assert t[k].id == b.samples[i];
    }
    if b.checked && b.parent.Some? {
      var k :| 0 <= k < |s| && s[k].id == b.parent.value;
      assert t[k].id == b.parent.value;
    }
  }

  lemma {:induction false} SameKind(s: seq<Sample>, t: seq<Sample>)
    requires |s| == |t| && forall k | 0 <= k < |s| :: s[k].favourite == t[k].favourite
    ensures Kind(s) == Kind(t)
  {
    if s != [] { SameKind(s[..|s| - 1], t[..|t| - 1]); }
  }

  lemma {:induction false} MarkedKind(s: seq<Sample>, k: nat, on: bool)
    requires k < |s|
    ensures Kind(Marked(s, k, on)) == Kind(s) - (if s[k].favourite then 1 else 0) + (if on then 1 else 0)
  {
    var n := |s| - 1;
    var t := Marked(s, k, on);
    if k < n {
      MarkedKind(s[..n], k, on);
      assert t[..n] == Marked(s[..n], k, on);
    } else {
      assert t[..n] == s[..n];
    }
  }

  /** Operations on one exploration that keep ids, batches, log and favourites. */
  lemma QuietKeeps(ws: Workspace, id: Id, y: Exploration, t: Workspace)
    requires Inv(ws) && id in ws.explorations && t == ws.(explorations := ws.explorations[id := y], admitted := t.admitted)
    requires var x := ws.explorations[id];
      && y.batches == x.batches && y.actions == x.actions && y.revision >= x.revision && |y.samples| == |x.samples|
      && forall k | 0 <= k < |x.samples| :: y.samples[k].id == x.samples[k].id && y.samples[k].favourite == x.samples[k].favourite
    ensures Inv(t)
  {
    var x := ws.explorations[id];
    RevisedKeeps(x, ws.next, y);
    SameKind(x.samples, y.samples);
    FavouritesMove(ws.explorations, id, y);
    Replaced(ws, id, y, ws.next, t);
  }

  lemma FavouriteKeeps(ws: Workspace, id: Id, sample: Id, revision: int, on: bool)
    requires Inv(ws)
    ensures Inv(Favourite(ws, id, sample, revision, on).ws)
  {
    hide Inv, Marked;
    var t := Favourite(ws, id, sample, revision, on).ws;
    if t != ws {
      var x := ws.explorations[id];
      var k := FirstWith(x.samples, sample);
      MarkKeeps(ws, id, k, on, t);
    }
  }

  lemma MarkRevises(x: Exploration, next: Id, k: nat, on: bool)
    requires XInv(x, next) && k < |x.samples|
    ensures var y := x.(samples := Marked(x.samples, k, on), revision := x.revision + 1);
      XInv(y, next) && Kind(y.samples) == Kind(x.samples) - (if x.samples[k].favourite then 1 else 0) + (if on then 1 else 0)
  {
    RevisedKeeps(x, next, x.(samples := Marked(x.samples, k, on), revision := x.revision + 1));
    MarkedKind(x.samples, k, on);
  }

  lemma MarkKeeps(ws: Workspace, id: Id, k: nat, on: bool, t: Workspace)
    requires Inv(ws) && id in ws.explorations && k < |ws.explorations[id].samples|
    requires on && !ws.explorations[id].samples[k].favourite ==> Total(Favourites(ws.explorations)) < FAVOURITES
    requires var x := ws.explorations[id];
      t == ws.(explorations := ws.explorations[id := x.(samples := Marked(x.samples, k, on), revision := x.revision + 1)])
    ensures Inv(t)
  {
    hide XInv, Marked;
    var x := ws.explorations[id];
    var y := x.(samples := Marked(x.samples, k, on), revision := x.revision + 1);
    MarkRevises(x, ws.next, k, on);
    FavouritesMove(ws.explorations, id, y);
    Replaced(ws, id, y, ws.next, t);
  }

  ghost predicate AllRecovered(xs: map<Id, Exploration>, n: Id, count: nat) {
    Total(Favourites(xs)) == count && forall id <- xs :: id < n && Recovers(xs[id], n)
  }

  lemma JoinedKeeps(ys: map<Id, Exploration>, n: Id, count: nat, r: Recipe)
    requires AllRecovered(ys, n, count)
    ensures var (xs, m) := Joined(ys, n, r); m > n && AllRecovered(xs, m, count + 1)
  {
    var (xs, m) := Joined(ys, n, r);
    var home := Home(ys, r.artwork);
    if home.Some? {
      RecoveredKeeps(ys[home.value], r, n, n);
      FavouritesMove(ys, home.value, Recovered(ys[home.value], r, n));
    } else {
      var x := Exploration(r.artwork, "", "", 0, [], [], [], 0);
      RecoveredKeeps(x, r, n, n + 1);
      FavouritesAdd(ys, n, Recovered(x, r, n + 1));
    }
    forall k <- xs ensures k < m && Recovers(xs[k], m) {
      if k in ys && xs[k] == ys[k] { assert Recovers(ys[k], n); }
    }
  }

  lemma {:induction false} RestoredKeeps(next: Id, recipes: seq<Recipe>)
    ensures var (xs, n) := Restored(next, recipes); n >= next && AllRecovered(xs, n, |recipes|)
    decreases |recipes|
  {
    if recipes == [] {
      assert Favourites(map[]) == map[];
    } else {
      var init, r := recipes[..|recipes| - 1], recipes[|recipes| - 1];
      RestoredKeeps(next, init);
      var (ys, n) := Restored(next, init);
      JoinedKeeps(ys, n, |init|, r);
    }
  }

  /** A recovered exploration alone meets the invariant. */
  lemma RecoversInv(xs: map<Id, Exploration>, n: Id, count: nat, id: Id)
    requires AllRecovered(xs, n, count) && count <= FAVOURITES && id in xs
    ensures XInv(xs[id], n)
  {
    TotalAtLeast(Favourites(xs), id);
    assert Recovers(xs[id], n) && Favourites(xs)[id] == Kind(xs[id].samples);
  }

  /** A recovered exploration: favourites only, no batches, no log. */
  ghost predicate Recovers(x: Exploration, next: Id) {
    DistinctIds(x.samples) && Below(x.samples, next) && x.batches == [] && x.actions == [] && Kind(x.samples) == |x.samples|
  }

  lemma RecoveredKeeps(x: Exploration, r: Recipe, bound: Id, id: Id)
    requires Recovers(x, bound) && bound <= id
    ensures Recovers(Recovered(x, r, id), id + 1) && Kind(Recovered(x, r, id).samples) == Kind(x.samples) + 1
  {
    var a := Sample(id, "", "", r.seed, None, None, true, false);
    KindSnoc(x.samples, a);
    var t := x.samples + [a];
    forall i, k | 0 <= i < k < |t| ensures t[i].id != t[k].id {
      assert x.samples[i] in x.samples;
    }
    forall b <- t ensures b.id < id + 1 {
      if b in x.samples { assert b.id < bound; }
    }
  }

  lemma RestoreKeeps(ws: Workspace, fits: bool, recipes: seq<Recipe>)
    requires Inv(ws)
    ensures Inv(Restore(ws, fits, recipes).ws)
  {
    if |recipes| <= FAVOURITES && ws.explorations == map[] && fits {
      RestoredKeeps(ws.next, recipes);
      var (xs, n) := Restored(ws.next, recipes);
      forall id <- xs ensures XInv(xs[id], n) && id < n { RecoversInv(xs, n, |recipes|, id); }
    }
  }

  lemma ApplyKeeps(ws: Workspace, w: World, e: Event)
    requires Inv(ws) && Enabled(ws, e)
    ensures Inv(Apply(ws, w, e).ws)
  {
    var t := Apply(ws, w, e).ws;
    match e
    case GenerateE(proper, id, action, body) => GenerateKeeps(ws, w, proper, id, action, body);
    case RetryE(proper, id, revision, action, batch) => RetryKeeps(ws, w, proper, id, revision, action, batch);
    case EnterE(valid, proper, pick, entry) => EnterKeeps(ws, w, valid, proper, pick, entry);
    case ChoicesE(valid, id, revision, style, colour) =>
      if t != ws { QuietKeeps(ws, id, t.explorations[id], t); }
    case FavouriteE(id, sample, revision, on) => FavouriteKeeps(ws, id, sample, revision, on);
    case CancelE(id, revision, batch) => CancelKeeps(ws, w, id, revision, batch);
    case DownloadE(id, sample) => DownloadKeeps(ws, w, id, sample);
    case StartE(valid, artwork, style, colour) => StartKeeps(ws, valid, artwork, style, colour);
    case RestoreE(fits, recipes) => RestoreKeeps(ws, fits, recipes);
    case ClearE =>
      assert Favourites(map[]) == map[];
  }

  lemma CancelKeeps(ws: Workspace, w: World, id: Id, revision: int, batch: Id)
    requires Inv(ws)
    ensures Inv(Cancel(ws, w, id, revision, batch).ws)
  {
    var t := Cancel(ws, w, id, revision, batch).ws;
    if t != ws { QuietKeeps(ws, id, t.explorations[id], t); }
  }

  lemma DownloadKeeps(ws: Workspace, w: World, id: Id, sample: Id)
    requires Inv(ws)
    ensures Inv(Download(ws, w, id, sample).ws)
  {
    var t := Download(ws, w, id, sample).ws;
    if t != ws { QuietKeeps(ws, id, t.explorations[id], t); }
  }

  lemma RetryKeeps(ws: Workspace, w: World, proper: bool, id: Id, revision: int, action: Id, batch: Id)
    requires Inv(ws)
    ensures Inv(Retry(ws, w, proper, id, revision, action, batch).ws)
  {
    if id in ws.explorations {
      var x := ws.explorations[id];
      var k := BatchAt(x.batches, batch);
      if k < |x.batches| {
        var parent := if x.batches[k].parent.Some? then [x.batches[k].parent.value] else [];
        GenerateKeeps(ws, w, proper, id, action, Body(revision, parent, false));
      }
    }
  }

  lemma StartKeeps(ws: Workspace, valid: bool, artwork: string, style: string, colour: string)
    requires Inv(ws)
    ensures Inv(Start(ws, valid, artwork, style, colour).ws)
  {
    var t := Start(ws, valid, artwork, style, colour).ws;
    if t != ws {
      var x := Exploration(artwork, style, colour, 0, [], [], [], 0);
      EmptyKeeps(x, ws.next + 1);
      FavouritesAdd(ws.explorations, ws.next, x);
      Replaced(ws, ws.next, x, ws.next + 1, t);
    }
  }

  // -------------------------------------------------------------------------- runs

  ghost predicate IsRun(states: seq<Workspace>, worlds: seq<World>, events: seq<Event>) {
    && |states| == |events| + 1 && |worlds| == |events|
    && states[0].explorations == map[] && states[0].entries == []
    && forall i: nat | i < |events| :: Step(states, worlds, events, i)
  }

  ghost predicate Step(states: seq<Workspace>, worlds: seq<World>, events: seq<Event>, i: nat)
    requires |states| == |events| + 1 && |worlds| == |events| && i < |events|
  {
    Enabled(states[i], events[i]) && states[i + 1] == Apply(states[i], worlds[i], events[i]).ws
  }

  lemma EmptyInv(ws: Workspace)
    requires ws.explorations == map[] && ws.entries == []
    ensures Inv(ws)
  {
    assert Favourites(map[]) == map[];
  }

  lemma {:induction false} Reachable(states: seq<Workspace>, worlds: seq<World>, events: seq<Event>, i: nat)
    requires IsRun(states, worlds, events) && i < |states|
    ensures Inv(states[i])
  {
    hide Inv, Apply, Enabled;
    if i == 0 {
      EmptyInv(states[0]);
    } else {
      Reachable(states, worlds, events, i - 1);
      assert Step(states, worlds, events, i - 1);
      ApplyKeeps(states[i - 1], worlds[i - 1], events[i - 1]);
    }
  }

  /** Main result: the bounds of every reachable exploration, and the planner's success on it. */
  lemma WithinBounds(states: seq<Workspace>, worlds: seq<World>, events: seq<Event>, i: nat, id: Id, entropy: nat)
    requires IsRun(states, worlds, events) && i < |states| && id in states[i].explorations
    ensures var x := states[i].explorations[id];
      && |x.batches| <= 8 && |x.actions| <= 8 && |x.samples| <= 64
      && (forall k, n | 0 <= k < |x.batches| && 0 <= n < |x.batches[k].samples| :: Knows(x.samples, x.batches[k].samples[n]))
      && (forall k | 0 <= k < |x.batches| && x.batches[k].checked && x.batches[k].parent.Some? ::
            Knows(x.samples, x.batches[k].parent.value))
      && var seeds := Plan(entropy, Seeds(x.samples));
         |seeds| == 4 && DistinctSeeds(seeds) && forall k | 0 <= k < |x.samples| :: x.samples[k].seed !in seeds
    ensures Total(Favourites(states[i].explorations)) <= 24
  {
    Reachable(states, worlds, events, i);
    var x := states[i].explorations[id];
    FourNewSeeds(x, states[i].next, entropy);
    forall k | 0 <= k < |x.batches| ensures Holds(x.batches[k], x.samples) {}
  }

  // ------------------------------------------------------------- linear history

  /** An exploration keeps its revision or raises it; what left never returns. */
  ghost predicate Onward(s: Workspace, t: Workspace) {
    && s.next <= t.next && s.admitted <= t.admitted
    && forall id <- t.explorations :: id >= s.next || (id in s.explorations && s.explorations[id].revision <= t.explorations[id].revision)
  }

  lemma OnwardChain(a: Workspace, b: Workspace, c: Workspace)
    requires Onward(a, b) && Onward(b, c)
    ensures Onward(a, c)
  {
  }

  lemma {:induction false} RestoredIds(next: Id, recipes: seq<Recipe>)
    ensures var (xs, n) := Restored(next, recipes); n >= next && forall id <- xs :: id >= next
    decreases |recipes|
  {
    if recipes != [] { RestoredIds(next, recipes[..|recipes| - 1]); }
  }

  lemma GeneratedOnward(x: Exploration, next: Id, w: World, proper: bool, action: Id, body: Body)
    ensures var o := Generated(x, next, w, proper, action, body); o.next >= next && o.x.revision >= x.revision
  {
  }

  lemma GenerateOnward(ws: Workspace, w: World, proper: bool, id: Id, action: Id, body: Body)
    ensures Onward(ws, Generate(ws, w, proper, id, action, body).ws)
  {
    if id in ws.explorations { GeneratedOnward(ws.explorations[id], ws.next, w, proper, action, body); }
  }

  lemma RetryOnward(ws: Workspace, w: World, proper: bool, id: Id, revision: int, action: Id, batch: Id)
    ensures Onward(ws, Retry(ws, w, proper, id, revision, action, batch).ws)
  {
    if id in ws.explorations {
      var x := ws.explorations[id];
      var k := BatchAt(x.batches, batch);
      if k < |x.batches| {
        var parent := if x.batches[k].parent.Some? then [x.batches[k].parent.value] else [];
        GenerateOnward(ws, w, proper, id, action, Body(revision, parent, false));
      }
    }
  }

  lemma EnterOnward(ws: Workspace, w: World, valid: bool, proper: bool, pick: Option<Id>, e: Entry)
    requires pick.Some? ==> pick.value in ws.explorations
    ensures Onward(ws, Enter(ws, w, valid, proper, pick, e).ws)
  {
    hide Generated, Entered;
    if pick.Some? {
      var x := ws.explorations[pick.value].(style := e.style, colour := e.colour);
      GeneratedOnward(x, ws.next, w, proper, e.id, Body(x.revision, [], false));
    } else {
      GeneratedOnward(Opened(e), ws.next + 1, w, proper, e.id, Body(0, [], false));
    }
  }

  lemma RestoreOnward(ws: Workspace, fits: bool, recipes: seq<Recipe>)
    ensures Onward(ws, Restore(ws, fits, recipes).ws)
  {
    RestoredIds(ws.next, recipes);
  }

  lemma ApplyOnward(ws: Workspace, w: World, e: Event)
    requires Enabled(ws, e)
    ensures Onward(ws, Apply(ws, w, e).ws)
  {
    match e
    case GenerateE(proper, id, action, body) => GenerateOnward(ws, w, proper, id, action, body);
    case RetryE(proper, id, revision, action, batch) => RetryOnward(ws, w, proper, id, revision, action, batch);
    case EnterE(valid, proper, pick, entry) => EnterOnward(ws, w, valid, proper, pick, entry);
    case RestoreE(fits, recipes) => RestoreOnward(ws, fits, recipes);
    case _ =>
  }

  lemma {:induction false} OnwardRun(states: seq<Workspace>, i: nat, j: nat)
    requires i <= j < |states| && forall n: nat | n < |states| - 1 :: Onward(states[n], states[n + 1])
    ensures Onward(states[i], states[j])
    decreases j - i
  {
    if i < j {
      OnwardRun(states, i, j - 1);
      OnwardChain(states[i], states[j - 1], states[j]);
    }
  }

  lemma RunOnward(states: seq<Workspace>, worlds: seq<World>, events: seq<Event>, i: nat, j: nat)
    requires IsRun(states, worlds, events) && i <= j < |states|
    ensures Onward(states[i], states[j])
  {
    forall n: nat | n < |states| - 1 ensures Onward(states[n], states[n + 1]) {
      assert Step(states, worlds, events, n);
      ApplyOnward(states[n], worlds[n], events[n]);
    }
    OnwardRun(states, i, j);
  }

  /** The exploration that a Generate, Retry or Enter works on. */
  ghost predicate Targets(ws: Workspace, e: Event, id: Id) {
    match e
    case GenerateE(_, x, _, _) => x == id
    case RetryE(_, x, _, _, _) => x == id
    case EnterE(_, _, pick, _) => if pick.Some? then pick.value == id else ws.next == id
    case _ => false
  }

  /** The exploration and the revision that it is made against. */
  ghost predicate Aims(ws: Workspace, e: Event, id: Id, revision: int) {
    Targets(ws, e, id) &&
    match e
    case GenerateE(_, _, _, body) => body.revision == revision
    case RetryE(_, _, r, _, _) => r == revision
    case EnterE(_, _, pick, _) => if pick.Some? then id in ws.explorations && ws.explorations[id].revision == revision else revision == 0
    case _ => false
  }

  /** Event i made a generation against that revision, and it was admitted, not replayed. */
  ghost predicate Admits(states: seq<Workspace>, events: seq<Event>, i: nat, id: Id, revision: int)
    requires |states| == |events| + 1 && i < |events|
  {
    Aims(states[i], events[i], id, revision) && states[i + 1].admitted > states[i].admitted
  }

  /** The exploration was at that revision, or is new, and is one further now. */
  ghost predicate Advanced(ws: Workspace, t: Workspace, id: Id, revision: int) {
    && (if id in ws.explorations then ws.explorations[id].revision == revision else id == ws.next)
    && id in t.explorations && t.explorations[id].revision == revision + 1
  }

  lemma GenerateAdmits(ws: Workspace, w: World, proper: bool, id: Id, action: Id, body: Body)
    ensures var t := Generate(ws, w, proper, id, action, body).ws;
      t.admitted > ws.admitted ==> id in ws.explorations && Advanced(ws, t, id, body.revision)
  {
    if proper && |body.selected| <= 1 && id in ws.explorations {
      FreshSuccess(ws.explorations[id], ws.next, w, proper, action, body);
    }
  }

  lemma VisitedAdmits(ws: Workspace, w: World, proper: bool, id: Id, x: Exploration, next: Id, e: Entry)
    ensures var t := Visited(ws, w, proper, id, x, next, e).ws;
      t.admitted > ws.admitted ==> id in t.explorations && t.explorations[id].revision == x.revision + 1
  {
    FreshSuccess(x, next, w, proper, e.id, Body(x.revision, [], false));
  }

  lemma AimedAdmits(ws: Workspace, w: World, e: Event, id: Id, revision: int)
    requires Enabled(ws, e) && Aims(ws, e, id, revision) && Apply(ws, w, e).ws.admitted > ws.admitted
    requires forall x <- ws.explorations :: x < ws.next
    ensures Advanced(ws, Apply(ws, w, e).ws, id, revision)
  {
    hide Generated, Visited, Logged, BatchAt, StillMade;
    match e
    case GenerateE(proper, x, action, body) => GenerateAdmits(ws, w, proper, x, action, body);
    case RetryE(proper, x, r, action, batch) =>
      var y := ws.explorations[x];
      var k := BatchAt(y.batches, batch);
      var parent := if y.batches[k].parent.Some? then [y.batches[k].parent.value] else [];
      GenerateAdmits(ws, w, proper, x, action, Body(r, parent, false));
    case EnterE(valid, proper, pick, entry) =>
      if pick.Some? {
        VisitedAdmits(ws, w, proper, id, ws.explorations[id].(style := entry.style, colour := entry.colour), ws.next, entry);
      } else {
        VisitedAdmits(ws, w, proper, id, Opened(entry), ws.next + 1, entry);
      }
  }

  /** Main result: history is linear. Of all generations that Generate, Retry and Enter make against
      one revision of an exploration, over a whole run, at most one is ever admitted. */
  lemma NeverTwice(states: seq<Workspace>, worlds: seq<World>, events: seq<Event>, i: nat, j: nat, id: Id, revision: int)
    requires IsRun(states, worlds, events) && i < j < |events|
    requires Admits(states, events, i, id, revision)
    ensures !Admits(states, events, j, id, revision)
  {
    hide Apply, Enabled, Aims;
    assert Step(states, worlds, events, i) && Step(states, worlds, events, j);
    IdsBelow(states, worlds, events, i);
    IdsBelow(states, worlds, events, i + 1);
    IdsBelow(states, worlds, events, j);
    AimedAdmits(states[i], worlds[i], events[i], id, revision);
    RunOnward(states, worlds, events, i + 1, j);
    Raised(states[i + 1], states[j], id, revision);
    if Admits(states, events, j, id, revision) { AimedAdmits(states[j], worlds[j], events[j], id, revision); }
  }

  lemma IdsBelow(states: seq<Workspace>, worlds: seq<World>, events: seq<Event>, i: nat)
    requires IsRun(states, worlds, events) && i < |states|
    ensures forall id <- states[i].explorations :: id < states[i].next
  {
    Reachable(states, worlds, events, i);
  }

  /** Once past a revision, an exploration that is still there stays past it. */
  lemma Raised(t: Workspace, u: Workspace, id: Id, revision: int)
    requires Onward(t, u) && id in t.explorations && t.explorations[id].revision == revision + 1 && id < t.next
    ensures id in u.explorations ==> u.explorations[id].revision > revision
  {
  }

  /** A generate call repeated later in a run either answers its retained batch or fails; it never
      changes the workspace, unless the exploration has come back to that very revision. */
  lemma RepeatIsHarmless(ws: Workspace, w: World, id: Id, action: Id, body: Body)
    requires Inv(ws) && id in ws.explorations && body.revision < ws.explorations[id].revision && |body.selected| <= 1
    ensures var r := Generate(ws, w, true, id, action, body);
      var x := ws.explorations[id];
      && r.ws == ws
      && (r.result.Ok? ==> exists k :: 0 <= k < |x.actions| && x.actions[k] == Action(action, body, r.result.id) && x.batches[k].id == r.result.id)
      && ((forall k | 0 <= k < |x.actions| :: x.actions[k].id != action || x.actions[k].body != body) ==> r.result == Err(Conflict))
  {
    var x := ws.explorations[id];
    assert ws.explorations[id := x] == ws.explorations;
    var k := Logged(x.actions, action);
    if k < |x.actions| {
      assert x.actions[k].batch == x.batches[k].id;
    }
  }

  /** A failing Enter leaves no trace: choices restored, no fresh exploration, no entry, no admission. */
  lemma FailedEnterLeavesNoTrace(ws: Workspace, w: World, valid: bool, proper: bool, pick: Option<Id>, e: Entry)
    requires pick.Some? ==> pick.value in ws.explorations
    ensures var r := Enter(ws, w, valid, proper, pick, e); r.result.Err? ==> r.ws == ws
  {
  }

  // -------------------------------------------------------------- repeated entries

  /** Event i is an Enter that was new and succeeded, so that it is logged. */
  ghost predicate Logs(states: seq<Workspace>, worlds: seq<World>, events: seq<Event>, i: nat)
    requires |states| == |events| + 1 && |worlds| == |events| && i < |events|
  {
    && events[i].EnterE? && Enabled(states[i], events[i])
    && Entered(states[i].entries, events[i].entry.id) == |states[i].entries|
    && Apply(states[i], worlds[i], events[i]).result.Ok?
  }

  /** The exploration that event i led to. */
  ghost function Led(states: seq<Workspace>, worlds: seq<World>, events: seq<Event>, i: nat): Id
    requires |states| == |events| + 1 && |worlds| == |events| && i < |events| && Logs(states, worlds, events, i)
  {
    Apply(states[i], worlds[i], events[i]).result.id
  }

  /** How many of the events i to j - 1 were logged. */
  ghost function LogsIn(states: seq<Workspace>, worlds: seq<World>, events: seq<Event>, i: nat, j: nat): nat
    requires |states| == |events| + 1 && |worlds| == |events| && i <= j <= |events|
    decreases j - i
  {
    if i == j then 0 else LogsIn(states, worlds, events, i, j - 1) + (if Logs(states, worlds, events, j - 1) then 1 else 0)
  }

  /** The Enter of event i is among the last eight since the workspace was last cleared. */
  ghost predicate Live(states: seq<Workspace>, worlds: seq<World>, events: seq<Event>, i: nat, j: nat)
    requires |states| == |events| + 1 && |worlds| == |events| && j <= |events|
  {
    && i < j && Logs(states, worlds, events, i) && LogsIn(states, worlds, events, i + 1, j) < LOG
    && forall n | i < n < j :: !events[n].ClearE?
  }

  ghost predicate DistinctEntries(entries: seq<Entry>) {
    |entries| <= LOG && forall i, k | 0 <= i < k < |entries| :: entries[i].id != entries[k].id
  }

  /** How one event changes the log of entries. */
  lemma EntriesStep(states: seq<Workspace>, worlds: seq<World>, events: seq<Event>, i: nat)
    requires IsRun(states, worlds, events) && i < |events|
    ensures states[i + 1].entries ==
      if Logs(states, worlds, events, i) then Last(states[i].entries + [events[i].entry.(exploration := Led(states, worlds, events, i))])
      else if events[i].ClearE? then [] else states[i].entries
  {
    hide Generated, Entered, Logged, Restored, Favourites, Inv;
    assert Step(states, worlds, events, i);
  }

  lemma EnteredLast(entries: seq<Entry>, e: Entry)
    requires DistinctEntries(entries) && Entered(entries, e.id) == |entries|
    ensures DistinctEntries(Last(entries + [e]))
  {
    forall n | 0 <= n < |entries| ensures entries[n].id != e.id {}
  }

  lemma NoEntries()
    ensures DistinctEntries([])
  {
  }

  lemma {:induction false} EntriesDistinct(states: seq<Workspace>, worlds: seq<World>, events: seq<Event>, j: nat)
    requires IsRun(states, worlds, events) && j < |states|
    ensures DistinctEntries(states[j].entries)
  {
    hide Apply, Step, Entered, Led, Last, Enabled, DistinctEntries;
    NoEntries();
    if j > 0 {
      EntriesDistinct(states, worlds, events, j - 1);
      EntriesStep(states, worlds, events, j - 1);
      if Logs(states, worlds, events, j - 1) {
        var e := events[j - 1].entry.(exploration := Led(states, worlds, events, j - 1));
        EnteredLast(states[j - 1].entries, e);
      }
    }
  }

  lemma EntriesBounded(states: seq<Workspace>, worlds: seq<World>, events: seq<Event>, j: nat)
    requires IsRun(states, worlds, events) && j < |states|
    ensures |states[j].entries| <= LOG
  {
    EntriesDistinct(states, worlds, events, j);
  }

  /** A live entry stands at its place from the end of the log. */
  lemma {:induction false} LiveListed(states: seq<Workspace>, worlds: seq<World>, events: seq<Event>, i: nat, j: nat)
    requires IsRun(states, worlds, events) && j <= |events| && Live(states, worlds, events, i, j)
    ensures var entries, c := states[j].entries, LogsIn(states, worlds, events, i + 1, j);
      c < |entries| && entries[|entries| - 1 - c] == events[i].entry.(exploration := Led(states, worlds, events, i))
    decreases j
  {
    hide Apply, Step, Logs, Led;
    EntriesBounded(states, worlds, events, j - 1);
    EntriesStep(states, worlds, events, j - 1);
    if i < j - 1 { LiveListed(states, worlds, events, i, j - 1); }
  }

  /** And the log holds nothing else. */
  lemma {:induction false} ListedLive(states: seq<Workspace>, worlds: seq<World>, events: seq<Event>, j: nat, k: nat) returns (i: nat)
    requires IsRun(states, worlds, events) && j <= |events| && k < |states[j].entries|
    ensures i < j && Live(states, worlds, events, i, j) && LogsIn(states, worlds, events, i + 1, j) == |states[j].entries| - 1 - k
    ensures states[j].entries[k] == events[i].entry.(exploration := Led(states, worlds, events, i))
    decreases j
  {
    hide Apply, Led, Enabled, Entered, Step;
    EntriesBounded(states, worlds, events, j - 1);
    EntriesBounded(states, worlds, events, j);
    EntriesStep(states, worlds, events, j - 1);
    var before := states[j - 1].entries;
    if !Logs(states, worlds, events, j - 1) {
      i := ListedLive(states, worlds, events, j - 1, k);
    } else if k < |states[j].entries| - 1 {
      i := ListedLive(states, worlds, events, j - 1, if |before| == LOG then k + 1 else k);
    } else {
      i := j - 1;
    }
  }

  ghost predicate SameForm(a: Entry, b: Entry) { a.artwork == b.artwork && a.style == b.style && a.colour == b.colour }

  /** Main result: at any later point of the run, whatever has become of the workspace, repeating a
      live Enter answers its exploration, or conflicts when any part of a valid form differs, and
      changes and admits nothing. */
  lemma RepeatedEnter(states: seq<Workspace>, worlds: seq<World>, events: seq<Event>, i: nat, j: nat,
                      w: World, valid: bool, proper: bool, pick: Option<Id>, e: Entry)
    requires IsRun(states, worlds, events) && j <= |events| && Live(states, worlds, events, i, j)
    requires e.id == events[i].entry.id && (pick.Some? ==> pick.value in states[j].explorations)
    ensures Enter(states[j], w, valid, proper, pick, e)
      == Reply(states[j], if !valid then Err(Invalid)
                          else if SameForm(events[i].entry, e) then Ok(Led(states, worlds, events, i)) else Err(Conflict))
  {
    hide Visited, Live, LogsIn, Led, Logs;
    LiveBefore(states, worlds, events, i, j);
    LiveListed(states, worlds, events, i, j);
    EntriesDistinct(states, worlds, events, j);
    var entries := states[j].entries;
    var k := |entries| - 1 - LogsIn(states, worlds, events, i + 1, j);
    assert Entered(entries, e.id) == k;
  }

  lemma LiveBefore(states: seq<Workspace>, worlds: seq<World>, events: seq<Event>, i: nat, j: nat)
    requires IsRun(states, worlds, events) && j <= |events| && Live(states, worlds, events, i, j)
    ensures i < j && Logs(states, worlds, events, i)
  {
  }

  ghost predicate HasLive(states: seq<Workspace>, worlds: seq<World>, events: seq<Event>, j: nat, id: Id)
    requires |states| == |events| + 1 && |worlds| == |events| && j <= |events|
  {
    exists i: nat :: i < j && Live(states, worlds, events, i, j) && events[i].entry.id == id
  }

  /** An Enter is looked up in the log exactly when it repeats a live one. */
  lemma LiveExactly(states: seq<Workspace>, worlds: seq<World>, events: seq<Event>, j: nat, id: Id)
    requires IsRun(states, worlds, events) && j <= |events|
    ensures HasLive(states, worlds, events, j, id) <==> Entered(states[j].entries, id) < |states[j].entries|
  {
    hide LogsIn, Led, Apply, Enabled;
    var entries := states[j].entries;
    if Entered(entries, id) < |entries| {
      var i := ListedLive(states, worlds, events, j, Entered(entries, id));
      LiveBefore(states, worlds, events, i, j);
    }
    if HasLive(states, worlds, events, j, id) {
      var i: nat :| i < j && Live(states, worlds, events, i, j) && events[i].entry.id == id;
      LiveListed(states, worlds, events, i, j);
    }
  }

  /** Main result: an Enter that succeeds is admitted anew if and only if it repeats no live one. */
  lemma NewEnter(states: seq<Workspace>, worlds: seq<World>, events: seq<Event>, j: nat,
                 w: World, valid: bool, proper: bool, pick: Option<Id>, e: Entry)
    requires IsRun(states, worlds, events) && j <= |events| && (pick.Some? ==> pick.value in states[j].explorations)
    requires Enter(states[j], w, valid, proper, pick, e).result.Ok?
    ensures Enter(states[j], w, valid, proper, pick, e).ws.admitted
      == states[j].admitted + (if HasLive(states, worlds, events, j, e.id) then 0 else 1)
  {
    hide HasLive, Generated;
    var ws := states[j];
    LiveExactly(states, worlds, events, j, e.id);
    Reachable(states, worlds, events, j);
    if pick.Some? {
      OwnRevision(ws.explorations[pick.value].(style := e.style, colour := e.colour), ws.next, w, proper, e.id);
    } else {
      OwnRevision(Opened(e), ws.next + 1, w, proper, e.id);
    }
  }

  /** A generation against the exploration's own revision succeeds only by admission. */
  lemma OwnRevision(x: Exploration, next: Id, w: World, proper: bool, action: Id)
    requires forall k | 0 <= k < |x.actions| :: x.actions[k].body.revision < x.revision
    ensures var o := Generated(x, next, w, proper, action, Body(x.revision, [], false)); o.result.Ok? ==> o.admitted
  {
  }
}
