/**
 The visitor's studio (internal/studio/studio.go): explorations with optimistic revisions, a replay
 log of generate actions, and bounded retention of batches, samples and favourites.
 */
module Studio {
  import opened Basics
  import opened Planner

  type Id = nat
  type JobId = nat

  datatype JobState = Queued | Running | Ready | Failed | Cancelled | Expired

  datatype Sample = Sample(
    id: Id, style: string, colour: string, seed: nat,
    job: Option<JobId>, download: Option<JobId>, favourite: bool, cancelled: bool)

  /** `checked` records that the parent was looked up (different = false); it is not stored. */
  datatype Batch = Batch(id: Id, parent: Option<Id>, samples: seq<Id>, checked: bool)

  /** What the digest of a generate request stands for. */
  datatype Body = Body(revision: int, selected: seq<Id>, different: bool)

  datatype Action = Action(id: Id, body: Body, batch: Id)

  datatype Exploration = Exploration(
    artwork: string, style: string, colour: string, revision: nat,
    batches: seq<Batch>, samples: seq<Sample>, actions: seq<Action>, round: nat)

  datatype Entry = Entry(id: Id, artwork: string, style: string, colour: string, exploration: Id)

  /** One workspace; `next` supplies fresh tokens, `admitted` counts render admissions. */
  datatype Workspace = Workspace(explorations: map<Id, Exploration>, entries: seq<Entry>, next: Id, admitted: nat)

  datatype Error = Gone | Conflict | Busy | Invalid | Making

  datatype Result = Ok(id: Id) | Err(error: Error)

  /**
   What the outside decides during one call: job states, whether the queue admits and under which
   names, the random entropy, whether pins, recipes and the recipe budget are in order.
   */
  datatype World = World(status: JobId -> JobState, admits: bool, job: nat -> JobId, entropy: nat, fits: bool)

  const LOG := 8
  const SAMPLES := 64
  const FAVOURITES := 24
  const TABS := 4

  // ------------------------------------------------------------------- one exploration

  function StatusOf(status: JobId -> JobState, job: Option<JobId>): JobState {
    if job.None? then Expired else status(job.value)
  }

  predicate Unfinished(s: JobState) { s.Queued? || s.Running? }

  /** The state snapshot shows for a sample. */
  function Shown(a: Sample, status: JobId -> JobState): JobState {
    var own := StatusOf(status, a.job);
    var s := if own != Ready && a.download.Some? && StatusOf(status, a.download) == Ready then Ready else own;
    if a.cancelled && s != Ready then Cancelled else s
  }

  predicate Pending(a: Sample, status: JobId -> JobState) {
    Unfinished(Shown(a, status)) || (a.download.Some? && Unfinished(StatusOf(status, a.download)))
  }

  predicate Active(samples: seq<Sample>, status: JobId -> JobState) {
    exists k :: 0 <= k < |samples| && Pending(samples[k], status)
  }

  predicate Knows(samples: seq<Sample>, id: Id) { exists k :: 0 <= k < |samples| && samples[k].id == id }

  /** The position of an action in the log, or its length. */
  function Logged(actions: seq<Action>, id: Id): (k: nat)
    ensures k <= |actions| && (k < |actions| ==> actions[k].id == id)
    ensures forall n | 0 <= n < k :: actions[n].id != id
  {
    if actions == [] || actions[0].id == id then 0
    else
      var k := Logged(actions[1..], id);
      assert forall n | 0 < n <= k && n < |actions| :: actions[n] == actions[1..][n - 1];
      k + 1
  }

  function Seeds(samples: seq<Sample>): (r: seq<nat>)
    ensures |r| == |samples| && forall k | 0 <= k < |r| :: r[k] == samples[k].seed
  {
    seq(|samples|, k requires 0 <= k < |samples| => samples[k].seed)
  }

  /** Style and colour of a generation: those of the chosen image, or the current choices. */
  function Look(x: Exploration, selected: seq<Id>): (string, string) {
    if |selected| == 1 && Knows(x.samples, selected[0]) then
      var k := Position(x.samples, selected[0]);
      (x.samples[k].style, x.samples[k].colour)
    else (x.style, x.colour)
  }

  /** The last sample with the id. */
  function Position(samples: seq<Sample>, id: Id): (k: nat)
    requires Knows(samples, id)
    ensures k < |samples| && samples[k].id == id
  {
    var n := |samples| - 1;
    if samples[n].id == id then n
    else
      assert Knows(samples[..n], id) by {
        var k :| 0 <= k < |samples| && samples[k].id == id;
        assert samples[..n][k].id == id;
      }
      Position(samples[..n], id)
  }

  /** New samples take the ids from `next` on. */
  function Drafts(seeds: seq<nat>, next: Id, look: (string, string), job: nat -> JobId): (r: seq<Sample>)
    ensures |r| == |seeds|
    ensures forall k | 0 <= k < |r| :: r[k].id == next + k && r[k].seed == seeds[k] && !r[k].favourite
  {
    seq(|seeds|, k requires 0 <= k < |seeds| =>
      Sample(next + k, look.0, look.1, seeds[k], Some(job(k)), None, false, false))
  }

  function IdsOf(samples: seq<Sample>): (r: seq<Id>)
    ensures |r| == |samples| && forall k | 0 <= k < |r| :: r[k] == samples[k].id
  {
    seq(|samples|, k requires 0 <= k < |samples| => samples[k].id)
  }

  function Last<T>(log: seq<T>): (r: seq<T>)
    ensures |log| <= LOG ==> r == log
    ensures |log| == LOG + 1 ==> r == log[1..]
  {
    if |log| > LOG then log[1..] else log
  }

  /** The ids the batches name. */
  ghost function Named(batches: seq<Batch>): (r: set<Id>)
    ensures forall k, i | 0 <= k < |batches| && 0 <= i < |batches[k].samples| :: batches[k].samples[i] in r
    ensures forall k | 0 <= k < |batches| && batches[k].parent.Some? :: batches[k].parent.value in r
  {
    if batches == [] then {}
    else
      var n := |batches| - 1;
      assert forall k | 0 <= k < n :: batches[..n][k] == batches[k];
      Named(batches[..n]) + Members(batches[n])
  }

  ghost function Members(b: Batch): set<Id> {
    (set id <- b.samples) + (if b.parent.Some? then {b.parent.value} else {})
  }

  /** The retention filter: favourites and named samples stay, in order. */
  ghost function Kept(samples: seq<Sample>, named: set<Id>): (r: seq<Sample>)
    ensures |r| <= |samples|
  {
    if samples == [] then []
    else
      var n := |samples| - 1;
      Kept(samples[..n], named) + (if samples[n].favourite || samples[n].id in named then [samples[n]] else [])
  }

  /** Append a batch and its samples, cut the logs, filter the samples. */
  ghost function Extended(x: Exploration, look: (string, string), drafts: seq<Sample>, b: Batch, a: Action): Exploration {
    var batches := Last(x.batches + [b]);
    x.(style := look.0, colour := look.1, revision := x.revision + 1, round := x.round + 1,
       batches := batches, samples := Kept(x.samples + drafts, Named(batches)), actions := Last(x.actions + [a]))
  }

  function NewBatch(next: Id, body: Body, drafts: seq<Sample>): Batch {
    Batch(next, if |body.selected| == 1 then Some(body.selected[0]) else None, IdsOf(drafts), !body.different)
  }

  /** The exploration after an admitted generation; the batch takes id `next`. */
  ghost function Committed(x: Exploration, next: Id, job: nat -> JobId, seeds: seq<nat>, action: Id, body: Body): Exploration {
    var look := Look(x, body.selected);
    var drafts := Drafts(seeds, next + 1, look, job);
    Extended(x, look, drafts, NewBatch(next, body, drafts), Action(action, body, next))
  }

  datatype Outcome = Outcome(x: Exploration, next: Id, admitted: bool, result: Result)

  /** generate: replay, revision, activity, selection, admission, in this order. */
  ghost function Generated(x: Exploration, next: Id, w: World, proper: bool, action: Id, body: Body): Outcome {
    var k := Logged(x.actions, action);
    if !proper || |body.selected| > 1 then Outcome(x, next, false, Err(Invalid))
    else if k < |x.actions| then
      Outcome(x, next, false, if x.actions[k].body == body then Ok(x.actions[k].batch) else Err(Conflict))
    else if body.revision != x.revision then Outcome(x, next, false, Err(Conflict))
    else if Active(x.samples, w.status) then Outcome(x, next, false, Err(Making))
    else if !body.different && |body.selected| == 1 && !Knows(x.samples, body.selected[0]) then
      Outcome(x, next, false, Err(Invalid))
    else if !w.fits || !w.admits then Outcome(x, next, false, Err(Busy))
    else
      var seeds := Plan(w.entropy, Seeds(x.samples));
      Outcome(Committed(x, next, w.job, seeds, action, body), next + 1 + |seeds|, true, Ok(next))
  }

  // ------------------------------------------------------------------------ invariants

  ghost predicate DistinctIds(samples: seq<Sample>) { forall i, k | 0 <= i < k < |samples| :: samples[i].id != samples[k].id }

  ghost predicate Below(samples: seq<Sample>, next: Id) { forall a <- samples :: a.id < next }

  /** Samples of retained batches, and looked-up parents, are still there. */
  ghost predicate Retains(batches: seq<Batch>, samples: seq<Sample>) {
    forall k | 0 <= k < |batches| :: Holds(batches[k], samples)
  }

  ghost predicate Holds(b: Batch, samples: seq<Sample>) {
    && (forall i | 0 <= i < |b.samples| :: Knows(samples, b.samples[i]))
    && (b.checked && b.parent.Some? ==> Knows(samples, b.parent.value))
  }

  /** Log and batches advance together; a logged action used an older revision. */
  ghost predicate Lockstep(batches: seq<Batch>, actions: seq<Action>, revision: nat) {
    && |actions| == |batches| <= LOG
    && (forall k | 0 <= k < |actions| :: actions[k].batch == batches[k].id && actions[k].body.revision < revision)
    && (forall i, k | 0 <= i < k < |actions| :: actions[i].id != actions[k].id)
  }

  ghost predicate FourEach(batches: seq<Batch>) { forall k | 0 <= k < |batches| :: |batches[k].samples| == WANTED }

  ghost predicate XInv(x: Exploration, next: Id) {
    && DistinctIds(x.samples) && Below(x.samples, next) && |x.samples| <= SAMPLES
    && Retains(x.batches, x.samples) && FourEach(x.batches) && Lockstep(x.batches, x.actions, x.revision)
  }

  ghost function Kind(samples: seq<Sample>): (n: nat)
    ensures n <= |samples|
  {
    if samples == [] then 0
    else Kind(samples[..|samples| - 1]) + (if samples[|samples| - 1].favourite then 1 else 0)
  }

  ghost function Favourites(xs: map<Id, Exploration>): map<Id, nat> { map id <- xs :: Kind(xs[id].samples) }

  ghost predicate Inv(ws: Workspace) {
    && (forall id <- ws.explorations :: XInv(ws.explorations[id], ws.next) && id < ws.next)
    && Total(Favourites(ws.explorations)) <= FAVOURITES
    && |ws.entries| <= LOG
  }

  // ----------------------------------------------------------- retention keeps the bounds

  lemma {:induction false} NamedSize(batches: seq<Batch>)
    requires FourEach(batches)
    ensures |Named(batches)| <= (WANTED + 1) * |batches|
  {
    if batches != [] {
      var n := |batches| - 1;
      NamedSize(batches[..n]);
      MembersSize(batches[n]);
      UnionSize(Named(batches[..n]), Members(batches[n]));
    }
  }

  lemma UnionSize(a: set<Id>, b: set<Id>)
    ensures |a + b| <= |a| + |b|
  {
    assert a + b == a + (b - a);
    SubsetSize(b - a, b);
  }

  lemma MembersSize(b: Batch)
    ensures |Members(b)| <= |b.samples| + 1
  {
    SetOfSize(b.samples);
    assert (set id <- b.samples) == SetOf(b.samples);
    UnionSize(SetOf(b.samples), if b.parent.Some? then {b.parent.value} else {});
  }

  /** Kept samples are favourites or carry different names out of `named`. */
  lemma {:induction false} KeptSize(samples: seq<Sample>, named: set<Id>)
    requires DistinctIds(samples)
    ensures |Kept(samples, named)| <= Kind(samples) + |named|
  {
    if samples != [] {
      var n := |samples| - 1;
      var a := samples[n];
      if a.favourite || a.id !in named {
        KeptSize(samples[..n], named);
      } else {
        KeptSize(samples[..n], named - {a.id});
        KeptAgrees(samples[..n], named, a.id);
      }
    }
  }

  /** Exactly the favourites and the named samples stay. */
  lemma {:induction false} KeptExactly(samples: seq<Sample>, named: set<Id>, a: Sample)
    ensures a in Kept(samples, named) <==> a in samples && (a.favourite || a.id in named)
  {
    if samples != [] {
      var n := |samples| - 1;
      KeptExactly(samples[..n], named, a);
      assert samples == samples[..n] + [samples[n]];
    }
  }

  lemma {:induction false} KeptAgrees(samples: seq<Sample>, named: set<Id>, id: Id)
    requires forall k | 0 <= k < |samples| :: samples[k].id != id
    ensures Kept(samples, named) == Kept(samples, named - {id})
  {
    if samples != [] { KeptAgrees(samples[..|samples| - 1], named, id); }
  }

  /** No favourite is lost. */
  lemma {:induction false} KeptKind(samples: seq<Sample>, named: set<Id>)
    ensures Kind(Kept(samples, named)) == Kind(samples)
  {
    if samples != [] {
      var n := |samples| - 1;
      KeptKind(samples[..n], named);
      var init := Kept(samples[..n], named);
      KindSnoc(init, samples[n]);
      assert init + [] == init;
    }
  }

  lemma KindSnoc(init: seq<Sample>, a: Sample)
    ensures Kind(init + [a]) == Kind(init) + (if a.favourite then 1 else 0)
  {
    assert (init + [a])[..|init|] == init;
  }

  lemma {:induction false} KeptDistinct(samples: seq<Sample>, named: set<Id>)
    requires DistinctIds(samples)
    ensures DistinctIds(Kept(samples, named))
  {
    if samples != [] {
      var n := |samples| - 1;
      KeptDistinct(samples[..n], named);
      var init := Kept(samples[..n], named);
      forall k | 0 <= k < |init| ensures init[k].id != samples[n].id {
        KeptExactly(samples[..n], named, init[k]);
        var j :| 0 <= j < n && samples[..n][j] == init[k];
      }
    }
  }

  lemma {:induction false} KindAppend(a: seq<Sample>, drafts: seq<Sample>)
    requires forall k | 0 <= k < |drafts| :: !drafts[k].favourite
    ensures Kind(a + drafts) == Kind(a)
  {
    if drafts == [] {
      assert a + drafts == a;
    } else {
      var n := |drafts| - 1;
      KindAppend(a, drafts[..n]);
      assert (a + drafts)[..|a| + n] == a + drafts[..n];
    }
  }

  lemma KnownKept(samples: seq<Sample>, named: set<Id>, id: Id)
    requires Knows(samples, id) && id in named
    ensures Knows(Kept(samples, named), id)
  {
    var k :| 0 <= k < |samples| && samples[k].id == id;
    KeptExactly(samples, named, samples[k]);
    var j :| 0 <= j < |Kept(samples, named)| && Kept(samples, named)[j] == samples[k];
  }

  lemma KnownAppend(samples: seq<Sample>, drafts: seq<Sample>, id: Id)
    ensures Knows(samples, id) || Knows(drafts, id) ==> Knows(samples + drafts, id)
  {
    var all := samples + drafts;
    if Knows(samples, id) {
      var k :| 0 <= k < |samples| && samples[k].id == id;
      assert all[k].id == id;
    } else if Knows(drafts, id) {
      var k :| 0 <= k < |drafts| && drafts[k].id == id;
      assert all[|samples| + k].id == id;
    }
  }

  lemma HoldsAppend(b: Batch, samples: seq<Sample>, drafts: seq<Sample>)
    requires Holds(b, samples)
    ensures Holds(b, samples + drafts)
  {
    forall i | 0 <= i < |b.samples| ensures Knows(samples + drafts, b.samples[i]) {
      KnownAppend(samples, drafts, b.samples[i]);
    }
    if b.parent.Some? { KnownAppend(samples, drafts, b.parent.value); }
  }

  /** What all batches hold survives the filter. */
  lemma RetainsKept(batches: seq<Batch>, samples: seq<Sample>)
    requires Retains(batches, samples)
    ensures Retains(batches, Kept(samples, Named(batches)))
  {
    forall k | 0 <= k < |batches| ensures Holds(batches[k], Kept(samples, Named(batches))) {
      var b := batches[k];
      assert Holds(b, samples);
      forall i | 0 <= i < |b.samples| ensures Knows(Kept(samples, Named(batches)), b.samples[i]) {
        KnownKept(samples, Named(batches), b.samples[i]);
      }
      if b.checked && b.parent.Some? { KnownKept(samples, Named(batches), b.parent.value); }
    }
  }

  lemma DraftsDistinct(samples: seq<Sample>, drafts: seq<Sample>, next: Id)
    requires DistinctIds(samples) && Below(samples, next)
    requires forall k | 0 <= k < |drafts| :: drafts[k].id == next + 1 + k
    ensures DistinctIds(samples + drafts) && Below(samples + drafts, next + 1 + |drafts|)
  {
    var all := samples + drafts;
    forall i, k | 0 <= i < k < |all| ensures all[i].id != all[k].id {
      if i < |samples| <= k { assert samples[i] in samples; }
    }
    forall a <- all ensures a.id < next + 1 + |drafts| {
      var k :| 0 <= k < |all| && all[k] == a;
      if k < |samples| { assert samples[k] in samples; }
    }
  }

  lemma LockstepAdvances(x: Exploration, b: Batch, a: Action)
    requires Lockstep(x.batches, x.actions, x.revision) && a.batch == b.id && a.body.revision == x.revision
    requires forall k | 0 <= k < |x.actions| :: x.actions[k].id != a.id
    ensures Lockstep(Last(x.batches + [b]), Last(x.actions + [a]), x.revision + 1)
  {
  }

  lemma FourAdvances(batches: seq<Batch>, b: Batch)
    requires FourEach(batches) && |b.samples| == WANTED
    ensures FourEach(Last(batches + [b]))
  {
  }

  lemma BatchesHold(batches: seq<Batch>, b: Batch, samples: seq<Sample>, drafts: seq<Sample>)
    requires Retains(batches, samples) && Holds(b, samples + drafts)
    ensures Retains(Last(batches + [b]), samples + drafts)
  {
    forall k | 0 <= k < |batches| ensures Holds(batches[k], samples + drafts) {
      HoldsAppend(batches[k], samples, drafts);
    }
  }

  /** The committed samples: distinct, within bounds, favourites unchanged, batches intact. */
  lemma SamplesCommitted(samples: seq<Sample>, drafts: seq<Sample>, batches: seq<Batch>, next: Id)
    requires DistinctIds(samples) && Below(samples, next) && Kind(samples) <= FAVOURITES
    requires forall k | 0 <= k < |drafts| :: drafts[k].id == next + 1 + k && !drafts[k].favourite
    requires Retains(batches, samples + drafts) && FourEach(batches) && |batches| <= LOG
    ensures var kept := Kept(samples + drafts, Named(batches));
      && DistinctIds(kept) && Below(kept, next + 1 + |drafts|) && |kept| <= SAMPLES
      && Retains(batches, kept) && Kind(kept) == Kind(samples)
  {
    var all, named := samples + drafts, Named(batches);
    DraftsDistinct(samples, drafts, next);
    KeptDistinct(all, named);
    forall a <- Kept(all, named) ensures a.id < next + 1 + |drafts| { KeptExactly(all, named, a); }
    KeptSize(all, named);
    NamedSize(batches);
    KindAppend(samples, drafts);
    KeptKind(all, named);
    RetainsKept(batches, all);
  }

  lemma NewBatchHolds(x: Exploration, drafts: seq<Sample>, b: Batch, body: Body)
    requires |body.selected| <= 1 && (!body.different && |body.selected| == 1 ==> Knows(x.samples, body.selected[0]))
    requires b.samples == IdsOf(drafts) && b.checked == !body.different
    requires b.parent == if |body.selected| == 1 then Some(body.selected[0]) else None
    ensures Holds(b, x.samples + drafts)
  {
    forall i | 0 <= i < |b.samples| ensures Knows(x.samples + drafts, b.samples[i]) {
      assert drafts[i].id == b.samples[i];
      assert Knows(drafts, b.samples[i]);
      KnownAppend(x.samples, drafts, b.samples[i]);
    }
    if b.checked && b.parent.Some? { KnownAppend(x.samples, drafts, b.parent.value); }
  }

  /** A committed generation keeps every invariant of the exploration and all its favourites. */
  lemma CommittedKeeps(x: Exploration, next: Id, job: nat -> JobId, seeds: seq<nat>, action: Id, body: Body)
    requires XInv(x, next) && Kind(x.samples) <= FAVOURITES && |seeds| == WANTED
    requires Logged(x.actions, action) == |x.actions| && body.revision == x.revision && |body.selected| <= 1
    requires !body.different && |body.selected| == 1 ==> Knows(x.samples, body.selected[0])
    ensures var y := Committed(x, next, job, seeds, action, body);
      XInv(y, next + 1 + |seeds|) && Kind(y.samples) == Kind(x.samples)
  {
    hide Kept, Named, Look, Retains, Lockstep, FourEach, DistinctIds, Below, Kind, Last;
    var drafts := Drafts(seeds, next + 1, Look(x, body.selected), job);
    var b := NewBatch(next, body, drafts);
    NewBatchHolds(x, drafts, b, body);
    BatchesHold(x.batches, b, x.samples, drafts);
    FourAdvances(x.batches, b);
    LockstepAdvances(x, b, Action(action, body, next));
    SamplesCommitted(x.samples, drafts, Last(x.batches + [b]), next);
  }

  /** With at most 64 samples the planner always finds four new distinct seeds. */
  lemma FourNewSeeds(x: Exploration, next: Id, entropy: nat)
    requires XInv(x, next)
    ensures var seeds := Plan(entropy, Seeds(x.samples));
      |seeds| == WANTED && DistinctSeeds(seeds) && forall k | 0 <= k < |x.samples| :: x.samples[k].seed !in seeds
  {
    ExactlyFour(entropy, Seeds(x.samples));
    forall k | 0 <= k < |x.samples| ensures x.samples[k].seed !in Plan(entropy, Seeds(x.samples)) {
      assert Seeds(x.samples)[k] == x.samples[k].seed;
    }
  }

  lemma GeneratedKeeps(x: Exploration, next: Id, w: World, proper: bool, action: Id, body: Body)
    requires XInv(x, next) && Kind(x.samples) <= FAVOURITES
    ensures var o := Generated(x, next, w, proper, action, body);
      XInv(o.x, o.next) && o.next >= next && Kind(o.x.samples) == Kind(x.samples)
  {
    FourNewSeeds(x, next, w.entropy);
    var o := Generated(x, next, w, proper, action, body);
    if o.admitted {
      CommittedKeeps(x, next, w.job, Plan(w.entropy, Seeds(x.samples)), action, body);
    }
  }

  // ------------------------------------------------------------------ replay safety

  /** Repeating a logged action changes nothing and admits nothing, at any later revision: it
      answers with the batch, which is still retained, or conflicts when the body differs. */
  lemma ReplayIsSafe(x: Exploration, next: Id, w: World, action: Id, body: Body, k: nat)
    requires XInv(x, next) && k < |x.actions| && x.actions[k].id == action && |body.selected| <= 1
    ensures var o := Generated(x, next, w, true, action, body);
      && o.x == x && o.next == next && !o.admitted
      && o.result == (if x.actions[k].body == body then Ok(x.batches[k].id) else Err(Conflict))
  {
    assert Logged(x.actions, action) == k;
  }

  /** An admission needs the current revision, raises it by one, and is logged with its batch. */
  lemma FreshSuccess(x: Exploration, next: Id, w: World, proper: bool, action: Id, body: Body)
    ensures var o := Generated(x, next, w, proper, action, body);
      o.admitted ==> && body.revision == x.revision && o.x.revision == x.revision + 1 && o.x.round == x.round + 1 && o.result == Ok(next)
                     && o.x.actions[|o.x.actions| - 1] == Action(action, body, next)
                     && o.x.batches[|o.x.batches| - 1].id == next
    ensures var o := Generated(x, next, w, proper, action, body);
      !o.admitted ==> o.x == x && o.next == next
  {
  }

  // ---------------------------------------------------------------- the whole workspace

  datatype Reply = Reply(ws: Workspace, result: Result)

  function Refuse(ws: Workspace, error: Error): Reply { Reply(ws, Err(error)) }

  /** Generate on one exploration of the workspace. */
  ghost function Generate(ws: Workspace, w: World, proper: bool, id: Id, action: Id, body: Body): Reply {
    if !proper || |body.selected| > 1 then Refuse(ws, Invalid)
    else if id !in ws.explorations then Refuse(ws, Gone)
    else
      var o := Generated(ws.explorations[id], ws.next, w, proper, action, body);
      Reply(ws.(explorations := ws.explorations[id := o.x], next := o.next,
                admitted := ws.admitted + (if o.admitted then 1 else 0)), o.result)
  }

  /** The position of an entry in the log of art form entries, or its length. */
  function Entered(entries: seq<Entry>, id: Id): (k: nat)
    ensures k <= |entries| && (k < |entries| ==> entries[k].id == id)
    ensures forall n | 0 <= n < k :: entries[n].id != id
  {
    if entries == [] || entries[0].id == id then 0
    else
      var k := Entered(entries[1..], id);
      assert forall n | 0 < n <= k && n < |entries| :: entries[n] == entries[1..][n - 1];
      k + 1
  }

  /** Enter's generation, on an exploration with the new choices set. */
  ghost function Visited(ws: Workspace, w: World, proper: bool, id: Id, chosen: Exploration, next: Id, e: Entry): Reply {
    Entering(ws, Generated(chosen, next, w, proper, e.id, Body(chosen.revision, [], false)), id, e.(exploration := id))
  }

  /** Enter: `valid` says that artwork, style and colour are known ones, and `pick` is the exploration
      of the artwork the map iteration comes upon, if any. */
  ghost function Enter(ws: Workspace, w: World, valid: bool, proper: bool, pick: Option<Id>, e: Entry): Reply
    requires pick.Some? ==> pick.value in ws.explorations
  {
    var k := Entered(ws.entries, e.id);
    if !valid then Refuse(ws, Invalid)
    else if k < |ws.entries| then
      var known := ws.entries[k];
      Reply(ws, if known.artwork == e.artwork && known.style == e.style && known.colour == e.colour then Ok(known.exploration) else Err(Conflict))
    else if pick.Some? then
      Visited(ws, w, proper, pick.value, ws.explorations[pick.value].(style := e.style, colour := e.colour), ws.next, e)
    else if |ws.explorations| >= TABS then Refuse(ws, Busy)
    else Visited(ws, w, proper, ws.next, Opened(e), ws.next + 1, e)
  }

  function Opened(e: Entry): Exploration { Exploration(e.artwork, e.style, e.colour, 0, [], [], [], 0) }

  /** The end of Enter: nothing on failure, the exploration and a log entry on success. */
  ghost function Entering(ws: Workspace, o: Outcome, id: Id, e: Entry): Reply {
    if o.result.Err? then Reply(ws, o.result)
    else
      Reply(Workspace(ws.explorations[id := o.x], Last(ws.entries + [e]), o.next, ws.admitted + (if o.admitted then 1 else 0)), Ok(id))
  }

  function Choices(ws: Workspace, valid: bool, id: Id, revision: int, style: string, colour: string): Reply {
    if id !in ws.explorations then Refuse(ws, Gone)
    else
      var x := ws.explorations[id];
      if revision != x.revision then Refuse(ws, Conflict)
      else if !valid then Refuse(ws, Invalid)
      else Reply(ws.(explorations := ws.explorations[id := x.(style := style, colour := colour, revision := x.revision + 1)]), Ok(id))
  }

  function BatchAt(batches: seq<Batch>, id: Id): (k: nat)
    ensures k <= |batches| && (k < |batches| ==> batches[k].id == id)
    ensures forall n | 0 <= n < k :: batches[n].id != id
  {
    if batches == [] || batches[0].id == id then 0
    else
      var k := BatchAt(batches[1..], id);
      assert forall n | 0 < n <= k && n < |batches| :: batches[n] == batches[1..][n - 1];
      k + 1
  }

  /** Some image of the batch is there or on its way. */
  predicate StillMade(samples: seq<Sample>, b: Batch, status: JobId -> JobState) {
    exists k :: 0 <= k < |samples| && samples[k].id in b.samples
      && (Shown(samples[k], status) == Ready || Unfinished(Shown(samples[k], status)))
  }

  ghost function Retry(ws: Workspace, w: World, proper: bool, id: Id, revision: int, action: Id, batch: Id): Reply {
    if id !in ws.explorations then Refuse(ws, Gone)
    else
      var x := ws.explorations[id];
      var k := BatchAt(x.batches, batch);
      if k == |x.batches| then Refuse(ws, Gone)
      else
        var parent := if x.batches[k].parent.Some? then [x.batches[k].parent.value] else [];
        if Logged(x.actions, action) == |x.actions| && (revision != x.revision || x.batches[|x.batches| - 1].id != batch)
        then Refuse(ws, Conflict)
        else if Logged(x.actions, action) == |x.actions| && StillMade(x.samples, x.batches[k], w.status)
        then Refuse(ws, Invalid)
        else Generate(ws, w, proper, id, action, Body(revision, parent, false))
  }

  ghost function Marked(samples: seq<Sample>, k: nat, on: bool): (r: seq<Sample>)
    requires k < |samples|
  {
    samples[k := samples[k].(favourite := on)]
  }

  function FirstWith(samples: seq<Sample>, id: Id): (k: nat)
    ensures k <= |samples| && (k < |samples| ==> samples[k].id == id)
    ensures forall n | 0 <= n < k :: samples[n].id != id
  {
    if samples == [] || samples[0].id == id then 0
    else
      var k := FirstWith(samples[1..], id);
      assert forall n | 0 < n <= k && n < |samples| :: samples[n] == samples[1..][n - 1];
      k + 1
  }

  ghost function Favourite(ws: Workspace, id: Id, sample: Id, revision: int, on: bool): Reply {
    if id !in ws.explorations then Refuse(ws, Gone)
    else
      var x := ws.explorations[id];
      var k := FirstWith(x.samples, sample);
      if x.revision != revision then Refuse(ws, Conflict)
      else if k == |x.samples| then Refuse(ws, Gone)
      else if on && !x.samples[k].favourite && Total(Favourites(ws.explorations)) >= FAVOURITES then Refuse(ws, Invalid)
      else
        Reply(ws.(explorations := ws.explorations[id :=
                    x.(samples := Marked(x.samples, k, on), revision := x.revision + 1)]), Ok(id))
  }

  /** Cancel: members of the last batch that are unfinished are marked. */
  function Stopped(samples: seq<Sample>, members: seq<Id>, status: JobId -> JobState): (r: seq<Sample>)
    ensures |r| == |samples|
    ensures forall k | 0 <= k < |r| :: r[k] == if samples[k].id in members && Unfinished(StatusOf(status, samples[k].job))
                                              then samples[k].(cancelled := true) else samples[k]
  {
    seq(|samples|, k requires 0 <= k < |samples| =>
      if samples[k].id in members && Unfinished(StatusOf(status, samples[k].job)) then samples[k].(cancelled := true) else samples[k])
  }

  /** The jobs whose interests Cancel withdraws from the queue: those of the samples it marks, in order. */
  function Withdrawn(samples: seq<Sample>, members: seq<Id>, status: JobId -> JobState): seq<JobId> {
    if samples == [] then []
    else
      var a := samples[|samples| - 1];
      Withdrawn(samples[..|samples| - 1], members, status)
      + (if a.job.Some? && Withdraws(a, members, status, a.job.value) then [a.job.value] else [])
  }

  predicate Withdraws(a: Sample, members: seq<Id>, status: JobId -> JobState, j: JobId) {
    a.id in members && a.job == Some(j) && Unfinished(status(j))
  }

  /** Exactly the unfinished jobs of the members are withdrawn. */
  lemma {:induction false} WithdrawnExactly(samples: seq<Sample>, members: seq<Id>, status: JobId -> JobState, j: JobId)
    ensures j in Withdrawn(samples, members, status)
      <==> exists a <- samples :: a.id in members && a.job == Some(j) && status(j) in {Queued, Running}
  {
    if samples != [] {
      var init, a := samples[..|samples| - 1], samples[|samples| - 1];
      WithdrawnExactly(init, members, status, j);
      assert samples == init + [a];
    }
  }

  function Cancel(ws: Workspace, w: World, id: Id, revision: int, batch: Id): Reply {
    if id !in ws.explorations then Refuse(ws, Gone)
    else
      var x := ws.explorations[id];
      if x.revision != revision || |x.batches| == 0 || x.batches[|x.batches| - 1].id != batch then Refuse(ws, Conflict)
      else
        var members := x.batches[|x.batches| - 1].samples;
        Reply(ws.(explorations := ws.explorations[id :=
                    x.(samples := Stopped(x.samples, members, w.status), revision := x.revision + 1)]), Ok(id))
  }

  function Download(ws: Workspace, w: World, id: Id, sample: Id): Reply {
    if id !in ws.explorations then Refuse(ws, Gone)
    else
      var x := ws.explorations[id];
      var k := FirstWith(x.samples, sample);
      if k == |x.samples| then Refuse(ws, Gone)
      else if x.samples[k].download.Some?
              && (var s := StatusOf(w.status, x.samples[k].download); Unfinished(s) || s == Ready) then Reply(ws, Ok(id))
      else if !w.admits then Refuse(ws, Busy)
      else
        Reply(ws.(explorations := ws.explorations[id := x.(samples := x.samples[k := x.samples[k].(download := Some(w.job(0)))])],
                  admitted := ws.admitted + 1), Ok(id))
  }

  function Start(ws: Workspace, valid: bool, artwork: string, style: string, colour: string): Reply {
    if !valid then Refuse(ws, Invalid)
    else if |ws.explorations| >= TABS then Refuse(ws, Busy)
    else
      Reply(ws.(explorations := ws.explorations[ws.next := Exploration(artwork, style, colour, 0, [], [], [], 0)],
                next := ws.next + 1), Ok(ws.next))
  }

  datatype Recipe = Recipe(artwork: string, seed: nat)

  /** The exploration of an artwork, if there is one already. */
  ghost function Home(xs: map<Id, Exploration>, artwork: string): (id: Option<Id>)
    ensures id.Some? ==> id.value in xs && xs[id.value].artwork == artwork
    ensures id.None? ==> forall k <- xs :: xs[k].artwork != artwork
  {
    if exists k :: k in xs && xs[k].artwork == artwork then
      var k :| k in xs && xs[k].artwork == artwork;
      Some(k)
    else None
  }

  /** One recovered recipe joins the exploration of its artwork, or opens one. */
  ghost function Joined(xs: map<Id, Exploration>, next: Id, r: Recipe): (map<Id, Exploration>, Id) {
    var home := Home(xs, r.artwork);
    if home.Some? then (xs[home.value := Recovered(xs[home.value], r, next)], next + 1)
    else (xs[next := Recovered(Exploration(r.artwork, "", "", 0, [], [], [], 0), r, next + 1)], next + 2)
  }

  /** Restore: one exploration per artwork, every recipe a favourite of its own. */
  ghost function Restored(next: Id, recipes: seq<Recipe>): (map<Id, Exploration>, Id) {
    if recipes == [] then (map[], next)
    else
      var (xs, n) := Restored(next, recipes[..|recipes| - 1]);
      Joined(xs, n, recipes[|recipes| - 1])
  }

  function Recovered(x: Exploration, r: Recipe, id: Id): Exploration {
    x.(samples := x.samples + [Sample(id, "", "", r.seed, None, None, true, false)])
  }

  /** `recipes` are the distinct valid ones of at most 24 records. */
  ghost function Restore(ws: Workspace, fits: bool, recipes: seq<Recipe>): Reply {
    if |recipes| > FAVOURITES then Refuse(ws, Invalid)
    else if ws.explorations != map[] then Refuse(ws, Invalid)
    else if !fits then Refuse(ws, Busy)
    else
      var (xs, next) := Restored(ws.next, recipes);
      Reply(ws.(explorations := xs, next := next), Ok(ws.next))
  }

  function Clear(ws: Workspace): Reply { Reply(ws.(explorations := map[], entries := []), Ok(0)) }
}
