/** What each studio operation gives its visitor, and what it leaves alone. */
module StudioEffects {
  import opened Basics
  import opened Planner
  import opened Studio
  import opened StudioRuns

  // ---------------------------------------------------------------- a new generation

  /** The new image k of a generation: its own seed and render job, nothing else done to it yet. */
  function NewSample(next: Id, k: nat, look: (string, string), seed: nat, job: JobId): Sample {
    Sample(next + 1 + k, look.0, look.1, seed, Some(job), None, false, false)
  }

  /** Style and colour follow the chosen image, if it is still there, and else the current choices. */
  ghost predicate Follows(x: Exploration, selected: seq<Id>, look: (string, string)) {
    if |selected| == 1 && Knows(x.samples, selected[0])
    then exists a <- x.samples :: a.id == selected[0] && look == (a.style, a.colour)
    else look == (x.style, x.colour)
  }

  lemma LookFollows(x: Exploration, selected: seq<Id>)
    ensures Follows(x, selected, Look(x, selected))
  {
    if |selected| == 1 && Knows(x.samples, selected[0]) {
      var k := Position(x.samples, selected[0]);
      assert x.samples[k] in x.samples;
    }
  }

  lemma NewKept(samples: seq<Sample>, drafts: seq<Sample>, batches: seq<Batch>, b: Batch, k: nat)
    requires k < |drafts| && b.samples == IdsOf(drafts) && |batches| <= LOG
    ensures drafts[k] in Kept(samples + drafts, Named(Last(batches + [b])))
  {
    var all := Last(batches + [b]);
    assert all[|all| - 1] == b;
    assert b.samples[k] in Named(all);
    KeptExactly(samples + drafts, Named(all), drafts[k]);
    assert (samples + drafts)[|samples| + k] == drafts[k];
  }

  /** Main result: an admitted generation shows, for every planned seed, one new image with that seed
      and its own render job, under the style and colour it follows, named in order by the new
      batch. */
  lemma GeneratedSamples(x: Exploration, next: Id, w: World, proper: bool, action: Id, body: Body, k: nat)
    requires |x.batches| <= LOG && Generated(x, next, w, proper, action, body).admitted
    requires k < |Plan(w.entropy, Seeds(x.samples))|
    ensures var o, seeds := Generated(x, next, w, proper, action, body), Plan(w.entropy, Seeds(x.samples));
      var b := o.x.batches[|o.x.batches| - 1];
      && Follows(x, body.selected, (o.x.style, o.x.colour))
      && b.id == next && |b.samples| == |seeds| && b.samples[k] == next + 1 + k
      && b.parent == (if |body.selected| == 1 then Some(body.selected[0]) else None)
      && NewSample(next, k, (o.x.style, o.x.colour), seeds[k], w.job(k)) in o.x.samples
  {
    hide Kept, Named, Logged, Plan, Active, Follows, Look, Seeds;
    LookFollows(x, body.selected);
    var seeds := Plan(w.entropy, Seeds(x.samples));
    var drafts := Drafts(seeds, next + 1, Look(x, body.selected), w.job);
    NewKept(x.samples, drafts, x.batches, NewBatch(next, body, drafts), k);
  }

  /** Every other image it shows was there before, unchanged, and no favourite is missing. */
  lemma GeneratedKeepsOld(x: Exploration, next: Id, w: World, proper: bool, action: Id, body: Body, a: Sample)
    requires Below(x.samples, next) && |x.batches| <= LOG
    ensures var o := Generated(x, next, w, proper, action, body);
      && (a in o.x.samples && a.id <= next ==> a in x.samples) && (a in x.samples && a.favourite ==> a in o.x.samples)
  {
    hide Kept, Named, Logged, Plan, Active, Look;
    var o := Generated(x, next, w, proper, action, body);
    if o.admitted {
      var drafts := Drafts(Plan(w.entropy, Seeds(x.samples)), next + 1, Look(x, body.selected), w.job);
      KeptExactly(x.samples + drafts, Named(o.x.batches), a);
    }
  }

  /** The image or its download is on its way. */
  predicate InTheMaking(a: Sample, status: JobId -> JobState) {
    Shown(a, status) in {Queued, Running} || (a.download.Some? && status(a.download.value) in {Queued, Running})
  }

  lemma MakingIsPending(samples: seq<Sample>, status: JobId -> JobState)
    ensures Active(samples, status) <==> exists a <- samples :: InTheMaking(a, status)
  {
    hide Shown;
    if Active(samples, status) {
      var k :| 0 <= k < |samples| && Pending(samples[k], status);
      assert samples[k] in samples && InTheMaking(samples[k], status);
    }
    if a :| a in samples && InTheMaking(a, status) {
      var k :| 0 <= k < |samples| && samples[k] == a;
      assert Pending(samples[k], status);
    }
  }

  /** Main result: a new request is admitted if and only if it names the current revision, nothing of
      the exploration is being made, a chosen image is known unless something different is wanted,
      and neither the recipe budget nor the queue refuses. */
  lemma AdmittedExactly(x: Exploration, next: Id, w: World, action: Id, body: Body)
    requires Logged(x.actions, action) == |x.actions| && |body.selected| <= 1
    ensures Generated(x, next, w, true, action, body).admitted
      <==> body.revision == x.revision && (forall a <- x.samples :: !InTheMaking(a, w.status)) && w.fits && w.admits
           && (body.different || |body.selected| == 0 || exists a <- x.samples :: a.id == body.selected[0])
    ensures !Generated(x, next, w, true, action, body).admitted ==> Generated(x, next, w, true, action, body).result.Err?
  {
    hide Committed, Plan, InTheMaking, Active;
    MakingIsPending(x.samples, w.status);
    if |body.selected| == 1 { KnownSample(x.samples, body.selected[0]); }
  }

  lemma KnownSample(samples: seq<Sample>, id: Id)
    ensures Knows(samples, id) <==> exists a <- samples :: a.id == id
  {
    if a :| a in samples && a.id == id {
      var k :| 0 <= k < |samples| && samples[k] == a;
      assert samples[k].id == id;
    }
    if Knows(samples, id) {
      var k :| 0 <= k < |samples| && samples[k].id == id;
      assert samples[k] in samples;
    }
  }

  /** What is shown of an image: ready as soon as either rendition is, else cancelled if it was
      cancelled, else the state of its own job. */
  lemma ShownExactly(a: Sample, status: JobId -> JobState)
    ensures Shown(a, status).Ready? <==> (a.job.Some? && status(a.job.value).Ready?) || (a.download.Some? && status(a.download.value).Ready?)
    ensures !Shown(a, status).Ready? ==>
      Shown(a, status) == if a.cancelled then Cancelled else if a.job.Some? then status(a.job.value) else Expired
  {
  }

  // ------------------------------------------------------------------ other operations

  /** All but one exploration stay, entries and tokens too. */
  ghost predicate OnlyOne(ws: Workspace, t: Workspace, id: Id) {
    && id in ws.explorations && id in t.explorations && t.explorations == ws.explorations[id := t.explorations[id]]
    && t.entries == ws.entries && t.next == ws.next
  }

  /** New choices are taken over as they are, at the current revision, and nothing else changes. */
  lemma ChoicesTaken(ws: Workspace, valid: bool, id: Id, revision: int, style: string, colour: string)
    ensures var r := Choices(ws, valid, id, revision, style, colour);
      if id in ws.explorations && ws.explorations[id].revision == revision && valid then
        && r.result == Ok(id) && OnlyOne(ws, r.ws, id) && r.ws.admitted == ws.admitted
        && var x := r.ws.explorations[id];
           x.style == style && x.colour == colour && x.revision == revision + 1
           && x == ws.explorations[id].(style := x.style, colour := x.colour, revision := x.revision)
      else r.result.Err? && r.ws == ws
  {
  }

  /** A favourite is set or unset on exactly the sample asked for. */
  lemma FavouriteTaken(ws: Workspace, id: Id, sample: Id, revision: int, on: bool, a: Sample)
    requires Inv(ws) && Favourite(ws, id, sample, revision, on).result.Ok?
    ensures var r := Favourite(ws, id, sample, revision, on);
      && OnlyOne(ws, r.ws, id) && r.ws.admitted == ws.admitted
      && r.ws.explorations[id].revision == ws.explorations[id].revision + 1 == revision + 1
      && Knows(ws.explorations[id].samples, sample)
      && (a in r.ws.explorations[id].samples && a.id == sample ==> a.favourite == on)
      && (a.id != sample ==> (a in r.ws.explorations[id].samples <==> a in ws.explorations[id].samples))
  {
    hide Favourites;
    var x := ws.explorations[id];
    var k := FirstWith(x.samples, sample);
    var t := Marked(x.samples, k, on);
    assert XInv(x, ws.next);
    if a in t && a.id == sample {
      var n :| 0 <= n < |t| && t[n] == a;
      assert x.samples[n].id == sample;
    }
    if a.id != sample && a in x.samples {
      var n :| 0 <= n < |x.samples| && x.samples[n] == a;
      assert t[n] == a;
    }
    if a.id != sample && a in t {
      var n :| 0 <= n < |t| && t[n] == a;
      assert x.samples[n] == a;
    }
  }

  /** At the current revision a known sample is refused exactly when it is no favourite yet and there
      are twenty-four. */
  lemma FavouriteRefused(ws: Workspace, id: Id, sample: Id, revision: int, on: bool, a: Sample)
    requires Inv(ws) && id in ws.explorations && ws.explorations[id].revision == revision
    requires a in ws.explorations[id].samples && a.id == sample
    ensures Favourite(ws, id, sample, revision, on).result.Err? <==> on && !a.favourite && Total(Favourites(ws.explorations)) == 24
  {
    hide Lockstep, Retains, FourEach;
    var x := ws.explorations[id];
    var k :| 0 <= k < |x.samples| && x.samples[k] == a;
    assert XInv(x, ws.next);
    assert FirstWith(x.samples, sample) == k;
  }

  /** Cancel marks exactly the unfinished members of the last batch. */
  lemma CancelMarks(ws: Workspace, w: World, id: Id, revision: int, batch: Id, k: nat)
    requires Cancel(ws, w, id, revision, batch).result.Ok? && k < |ws.explorations[id].samples|
    ensures var r := Cancel(ws, w, id, revision, batch);
      var x, y := ws.explorations[id], r.ws.explorations[id];
      && OnlyOne(ws, r.ws, id) && r.ws.admitted == ws.admitted && y.revision == x.revision + 1 == revision + 1
      && x.batches[|x.batches| - 1].id == batch && y.batches == x.batches && y.actions == x.actions
      && |y.samples| == |x.samples|
      && y.samples[k] == (if x.samples[k].id in x.batches[|x.batches| - 1].samples && x.samples[k].job.Some?
                             && Unfinished(w.status(x.samples[k].job.value))
                          then x.samples[k].(cancelled := true) else x.samples[k])
  {
  }

  /** Downloading admits one larger rendition of the sample asked for, and never a second one while
      the first is wanted. */
  lemma DownloadTaken(ws: Workspace, w: World, id: Id, sample: Id, k: nat)
    requires Inv(ws) && Download(ws, w, id, sample).result.Ok? && k < |ws.explorations[id].samples|
    ensures var r := Download(ws, w, id, sample);
      var x, y := ws.explorations[id], r.ws.explorations[id];
      && OnlyOne(ws, r.ws, id) && Knows(x.samples, sample) && |y.samples| == |x.samples| && y == x.(samples := y.samples)
      && (x.samples[k].id != sample ==> y.samples[k] == x.samples[k])
      && (x.samples[k].id == sample ==>
            var live := x.samples[k].download.Some? && w.status(x.samples[k].download.value) in {Queued, Running, Ready};
            y.samples[k] == (if live then x.samples[k] else x.samples[k].(download := Some(w.job(0))))
            && r.ws.admitted == ws.admitted + (if live then 0 else 1))
  {
    hide Favourites;
    var x := ws.explorations[id];
    assert XInv(x, ws.next);
    assert ws.explorations[id := x] == ws.explorations;
    var n := FirstWith(x.samples, sample);
    assert x.samples[k].id == sample ==> k == n;
  }

  /** An admitted Retry is for the last batch, none of whose images is there or on its way, and makes
      a batch with the same parent. */
  lemma RetryNeeds(ws: Workspace, w: World, proper: bool, id: Id, revision: int, action: Id, batch: Id, a: Sample)
    requires Retry(ws, w, proper, id, revision, action, batch).ws.admitted > ws.admitted
    ensures id in ws.explorations && id in Retry(ws, w, proper, id, revision, action, batch).ws.explorations
    ensures var x, y := ws.explorations[id], Retry(ws, w, proper, id, revision, action, batch).ws.explorations[id];
      && |x.batches| > 0 && x.batches[|x.batches| - 1].id == batch && x.revision == revision
      && BatchAt(x.batches, batch) < |x.batches| && |y.batches| > 0
      && y.batches[|y.batches| - 1].parent == x.batches[BatchAt(x.batches, batch)].parent
      && (a in x.samples && a.id in x.batches[BatchAt(x.batches, batch)].samples ==> Shown(a, w.status) !in {Ready, Queued, Running})
  {
    hide Shown, Kept, Named, Plan, Drafts, Look;
    var x := ws.explorations[id];
    var b := x.batches[BatchAt(x.batches, batch)];
    if a in x.samples && a.id in b.samples {
      var k :| 0 <= k < |x.samples| && x.samples[k] == a;
      assert !StillMade(x.samples, b, w.status);
    }
  }

  /** A new Retry of a batch that is known conflicts unless it is the last one at the current revision,
      and is refused when one of its images is there or on its way; else it generates again from the
      batch's parent. */
  lemma RetryAnswers(ws: Workspace, w: World, proper: bool, id: Id, revision: int, action: Id, batch: Id, k: nat)
    requires id in ws.explorations && Logged(ws.explorations[id].actions, action) == |ws.explorations[id].actions|
    requires k == BatchAt(ws.explorations[id].batches, batch) < |ws.explorations[id].batches|
    ensures var x, r := ws.explorations[id], Retry(ws, w, proper, id, revision, action, batch);
      var parent := if x.batches[k].parent.Some? then [x.batches[k].parent.value] else [];
      if revision != x.revision || x.batches[|x.batches| - 1].id != batch then r == Refuse(ws, Conflict)
      else if exists a <- x.samples :: a.id in x.batches[k].samples && Shown(a, w.status) in {Ready, Queued, Running} then
        r == Refuse(ws, Invalid)
      else r == Generate(ws, w, proper, id, action, Body(revision, parent, false))
  {
    hide Shown, Generate;
    var x := ws.explorations[id];
    var b := x.batches[k];
    if StillMade(x.samples, b, w.status) {
      var n :| 0 <= n < |x.samples| && x.samples[n].id in b.samples
               && (Shown(x.samples[n], w.status) == Ready || Unfinished(Shown(x.samples[n], w.status)));
      assert x.samples[n] in x.samples;
    }
    if a :| a in x.samples && a.id in b.samples && Shown(a, w.status) in {Ready, Queued, Running} {
      var n :| 0 <= n < |x.samples| && x.samples[n] == a;
      assert x.samples[n].id in b.samples;
    }
  }

  /** A successful Enter of a new form leads to an exploration of that art form with the choices asked
      for, opened only while there is room, leaves the others alone and is logged. */
  lemma EnterTaken(ws: Workspace, w: World, valid: bool, proper: bool, pick: Option<Id>, e: Entry)
    requires Enabled(ws, EnterE(valid, proper, pick, e)) && Entered(ws.entries, e.id) == |ws.entries|
    requires Enter(ws, w, valid, proper, pick, e).result.Ok?
    ensures var r := Enter(ws, w, valid, proper, pick, e);
      && valid && r.result.id in r.ws.explorations
      && (if pick.Some? then r.result.id == pick.value else r.result.id == ws.next && |ws.explorations| < TABS)
      && (var x := r.ws.explorations[r.result.id]; x.artwork == e.artwork && x.style == e.style && x.colour == e.colour)
      && (forall id <- ws.explorations :: id != r.result.id ==> id in r.ws.explorations && r.ws.explorations[id] == ws.explorations[id])
      && r.ws.entries == Last(ws.entries + [e.(exploration := r.result.id)])
  {
    hide Kept, Named, Plan, Drafts, Logged, Active;
  }

  /** An exploration is opened empty, under a new name, when fewer than four are open. */
  lemma StartTaken(ws: Workspace, valid: bool, artwork: string, style: string, colour: string)
    requires Inv(ws)
    ensures var r := Start(ws, valid, artwork, style, colour);
      if valid && |ws.explorations| < 4 then
        && r.result.Ok? && r.result.id !in ws.explorations && r.ws.explorations.Keys == ws.explorations.Keys + {r.result.id}
        && (forall id <- ws.explorations :: r.ws.explorations[id] == ws.explorations[id])
        && r.ws.explorations[r.result.id] == Exploration(artwork, style, colour, 0, [], [], [], 0)
      else r.result.Err? && r.ws == ws
  {
  }

  // ------------------------------------------------------------------------- restoring

  /** The favourites of all explorations, as recipes. */
  ghost predicate Shows(xs: map<Id, Exploration>, r: Recipe) {
    exists id <- xs :: xs[id].artwork == r.artwork && exists a <- xs[id].samples :: a.seed == r.seed && a.favourite
  }

  ghost predicate OneEach(xs: map<Id, Exploration>) { forall i <- xs, k <- xs :: xs[i].artwork == xs[k].artwork ==> i == k }

  lemma JoinedShows(xs: map<Id, Exploration>, next: Id, r: Recipe, q: Recipe)
    requires forall id <- xs :: id < next
    ensures var (ys, n) := Joined(xs, next, r);
      n > next && (forall id <- ys :: id < n) && (Shows(ys, q) <==> Shows(xs, q) || q == r) && (OneEach(xs) ==> OneEach(ys))
  {
    hide Shows;
    var (ys, n) := Joined(xs, next, r);
    var home := Home(xs, r.artwork);
    if home.Some? {
      AddedShows(xs, home.value, xs[home.value], r, next, q);
    } else {
      AddedShows(xs, next, Exploration(r.artwork, "", "", 0, [], [], [], 0), r, next + 1, q);
    }
  }

  /** The exploration x under id gets r as one more favourite. */
  lemma AddedShows(xs: map<Id, Exploration>, id: Id, x: Exploration, r: Recipe, a: Id, q: Recipe)
    requires x.artwork == r.artwork && (if id in xs then x == xs[id] else x.samples == [])
    ensures Shows(xs[id := Recovered(x, r, a)], q) <==> Shows(xs, q) || q == r
  {
    var ys := xs[id := Recovered(x, r, a)];
    var added := Sample(a, "", "", r.seed, None, None, true, false);
    assert added in ys[id].samples;
    if Shows(xs, q) {
      var k :| k in xs && xs[k].artwork == q.artwork && exists s <- xs[k].samples :: s.seed == q.seed && s.favourite;
      var s :| s in xs[k].samples && s.seed == q.seed && s.favourite;
      assert k in ys && s in ys[k].samples;
    }
    if Shows(ys, q) && q != r {
      var k :| k in ys && ys[k].artwork == q.artwork && exists s <- ys[k].samples :: s.seed == q.seed && s.favourite;
      var s :| s in ys[k].samples && s.seed == q.seed && s.favourite;
      assert s == added || (k in xs && s in xs[k].samples);
    }
  }

  /** Main result: a restored workspace shows exactly the recipes it was given as favourites, in one
      exploration for each art form. */
  lemma {:induction false} RestoredShows(next: Id, recipes: seq<Recipe>, q: Recipe)
    ensures var (xs, n) := Restored(next, recipes);
      n >= next && (forall id <- xs :: id < n) && (Shows(xs, q) <==> q in recipes) && OneEach(xs)
    decreases |recipes|
  {
    if recipes != [] {
      var init, r := recipes[..|recipes| - 1], recipes[|recipes| - 1];
      RestoredShows(next, init, q);
      var (xs, n) := Restored(next, init);
      JoinedShows(xs, n, r, q);
      assert recipes == init + [r];
    }
  }
}
