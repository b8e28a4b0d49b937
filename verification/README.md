# Verified models of the generative art service

The service renders generative art for anonymous visitors: a web front end admits render
requests into a durable queue, renderers upload images to an object bucket and publish them
through SQL rows, and a maintainer expires and deletes what is no longer needed. Around that
sit an in-process render manager, a studio that keeps each visitor's choices, rate limits,
refresh notifications, and the geometry behind several art forms. This project models the parts
whose correctness rests on many functions together, and proves what they promise.

`dafny verify dfyconfig.toml` verifies everything.

## How the models are built

Each component has a specification (datatypes and functions that give the effect of one
operation), lemmas about that specification, and, where the program works by updating fields,
arrays or tables, a class or loop that is proved to have exactly the specified effect.

| component | specification | theorems | imperative form |
|---|---|---|---|
| durable publication protocol | `Tables`, `Protocol` | `ProtocolInvariants`, `PublicationSafety`, `QueueSafety`, `ProtocolRuns`, `Admission`, `Attempts`, `Releases`, `Retention`, `Reclaiming` | `Persistence` |
| in-process render manager | `RenderQueue` | `RenderQueueSafety`, `RenderQueueRuns`, `RenderSharing` | `RenderManager` |
| curved cells | `NearestCells`, `Foam`, `Merging` | the same files | the same files |
| circle grid and packing | `CircleIndex` | the same file | the same file |
| traits and candidate planner | `Traits`, `Planner` | the same files | the same files |
| studio | `Studio` | `Studio`, `StudioRuns`, `StudioReplays`, `StudioEffects` | `StudioStore` |
| token buckets | `RateLimit` | the same file | the same file |
| refresh notifications | `Notifications` | the same file | the same file |
| flame histogram | `Histogram` | the same file | the same file |

`Basics` holds an option type, sums over finite maps, and grids stored row by row.

The concurrent components are transition systems. In `Protocol` every committed transaction is one
step, and uploads, object deletions, reads of stale lists and River's own job transitions are
steps between them, so every interleaving of web writers, renderer attempts, the maintainer and
release switches is a run. In `RenderQueue` a step is one section under the manager's mutex. In
`Notifications` a broadcast hands out its tokens one channel at a time while commits, receives and
snapshots go on.

## Assumptions and abstractions

- A committed SQL transaction is atomic and isolated; a serialization abort is a step that does
  not happen. River never makes a finished job active again and reports a running job's attempt
  number faithfully. Generated identifiers and object keys are fresh, drawn from counters.
- Image bytes and digests are abstract, and digests are injective: a digest stands for the bytes.
  The digest of a generate action is the tuple of its fields.
- Lists that a stalled process has read (due deletions, bucket listings, suspected orphans, held
  artifact pointers) never shrink, which covers every delay and crash, and a reader may take an
  object for missing at any time, rightly or not. The one-hour age test on
  listed objects and the order of due deletions are dropped, which only allows more runs.
- Clocks are parameters. In the durable protocol and the studio they never step back; the clock of
  the shared token bucket may.
- Coordinates, weights and tokens are exact reals. The Euclidean length in `Foam` and `Merging` is
  any function that is at least as large as both components, and the computed square root of the
  area per site is a parameter.
- The identity of a job object behind the manager's map is a serial number, and files the operating
  system refuses to delete are a parameter.
- A random generator is the sequence of its uniform draws; map iteration order is arbitrary or a
  parameter.

## What the code does where its comments say otherwise

- `internal/geom/geom.go:29-37` says that `At` needs a cell at least as large as the largest
  radius. It does not: a circle is listed in every cell its bounding box touches, so the point's own
  cell always lists it. `CircleIndex.Index.At` is proved at any cell size.
- `FitsWithGap` (`internal/geom/geom.go:80-101`) agrees with the plain list further than for
  non-negative reach: whenever the radius plus the gap is at least minus one cell, and on a grid of
  at most two columns and rows always (`CircleIndex.SmallGridSees`). Below that the cells it looks at
  can miss a circle whose test succeeds because both sides are squared; `CircleIndex.SeesExact` says
  exactly when. A reach that far below zero asks for no distance at all, so the doc comment
  (`internal/geom/geom.go:78-79`) promises nothing there.
- The shared token bucket (`internal/persistence/read.go:77-117`) takes `now()` at the start of a
  transaction, so the clock may step back from one commit to the next, and a deleted row is forgotten.
  Its rate holds all the same while the clock steps back by at most d and the burst is regained within
  300 - 2d seconds, and not beyond (`RateLimit.SkewBound`, `RateLimit.SkewExact`): the row may be
  dated back by a denied access, and its deletion may be followed by an access on an earlier clock.
  The shipped rates tolerate 144 seconds (`RateLimit.ShippedOutlast`), while the timeouts of
  `internal/persistence/database.go:68-70` end a statement after 10 seconds and an idle transaction
  after 15.
- An eviction from the in-process limiter (`internal/web/web.go:833-859`) hands out no tokens if and
  only if the burst is at most five minutes' gain (`RateLimit.EvictionExact`), and the window bound
  needs that condition too (`RateLimit.WindowExact`).
- In the manager a job becomes `ready` without an image exactly when its deadline passes after the
  worker has read the context's error and before it cancels that context itself
  (`internal/renderjob/manager.go:340-343`), the render succeeded and there is no shutdown: the test
  in the locked section (`internal/renderjob/manager.go:346`) then skips publication without an error.
  An earlier deadline fails the job, and a later one no longer shows in the context.
  `RenderQueueSafety.ReadyWithoutImage` is the exact condition.

## Model

| member | source | states |
|---|---|---|
| ProtocolRuns.Reachable | internal/persistence/worker.go:60-111 | every state of every run of writers, attempts, maintainer, readers and release switches satisfies the inductive invariant of publication, queue, storage and workspaces |
| ProtocolRuns.PublishedExactly | internal/persistence/worker.go:234-283 | in every reachable state artifacts and published uploads correspond one to one, and each artifact's object is in the bucket with the bytes its digest and size describe |
| ProtocolRuns.DeletingForever | internal/persistence/maintenance.go:77-129 | an upload once marked deleting is never published again and no artifact ever points at it, whatever is delayed, repeated or lost |
| ProtocolRuns.BoundsEverywhere | internal/persistence/queue.go:74-115 | over all runs active jobs stay within the configured outstanding limit, a request has at most 24 interests, unconfirmed uploads at most 2 GiB and 5000 rows, workspaces at most 1000 rows and 64 MiB |
| ProtocolRuns.PinsAndInterests | internal/studio/persistent.go:145-207 | in every reachable state a workspace's pins are exactly its favourites with jobs and its interests all belong to retained samples |
| ProtocolRuns.ActiveJobsCurrent | internal/persistence/database.go:226-248 | every active job is the current job of its request and carries the current epoch and build, across release switches |
| ProtocolRuns.LostForever | internal/persistence/queue.go:166-191 | a generation that a request lost, by cancellation to zero, re-admission or a newer attempt, never comes back |
| ProtocolRuns.DroppedForever | internal/persistence/queue.go:166-191 | when the last interest in a request is dropped, its generation and every earlier one is lost to it for the rest of the run, so no attempt begun before can publish |
| ProtocolRuns.Fencing | internal/persistence/worker.go:128-178 | whatever an attempt publishes, an earlier event of the run began it, and at every moment since then its request carried its generation and job, somebody subscribed to the request, and its epoch equalled the control row's; a live workspace is interested at its begin and at its publication |
| ProtocolRuns.PublishesOnce | internal/persistence/worker.go:48-57 | two publications in one run never belong to the same job |
| PublicationSafety.PublicationPreserved | internal/persistence/maintenance.go:77-166 | every action keeps the correspondence of artifacts, uploads and bucket, and keeps retired keys retired |
| PublicationSafety.CompleteKeeps | internal/persistence/worker.go:234-284 | completing an attempt keeps the publication invariant: its own pending upload is promoted, the replaced one retired, and the bytes are in place |
| PublicationSafety.MissingKeeps | internal/persistence/read.go:33-49 | dropping an artifact whose object a reader did not find keeps the publication invariant, however late it happens |
| PublicationSafety.DeleteKeeps | internal/persistence/maintenance.go:119-129 | deleting an object from the bucket outside any transaction is safe because only retired keys are on the lists |
| QueueSafety.QueuePreserved | internal/persistence/queue.go:36-117 | every action keeps references, current jobs, bounds, storage and the faithfulness of every workspace's pins and interests |
| QueueSafety.WriteSaves | internal/studio/persistent.go:145-207 | a committed write leaves the saved workspace's pins and interests faithful to its samples and every other workspace untouched |
| QueueSafety.SaveFaithful | internal/studio/persistent.go:160-203 | rewriting pins and cancelling obsolete interests makes a workspace faithful whatever it was before |
| QueueSafety.ReserveStorage | internal/persistence/worker.go:218-231 | a reservation that passes the capacity test keeps accounted bytes and rows within their limits |
| Admission.AdmittedExactly | internal/persistence/queue.go:36-117 | a wish is granted if and only if admission is on, the release and rendition are of the current build, and no limit is broken once it is; a rendition that is ready or under way is joined without a second job |
| Admission.AdmittedIsServed | internal/persistence/queue.go:67-116 | whoever was admitted is subscribed to an image that is ready or to one current, active job, and nothing that was there changes |
| Admission.OneJobEach | internal/persistence/queue.go:74-115 | in every reachable state a request has at most one active job |
| Admission.SharedCancelKeeps | internal/persistence/queue.go:166-191 | when one of several subscribers leaves, its own interest goes and nothing else changes |
| Admission.LastCancelFences | internal/persistence/queue.go:166-191 | when the last one leaves, the request gets a generation never drawn before, its waiting job is over, and a running job and all other jobs and requests stay as they are |
| Admission.BegunExactly | internal/persistence/worker.go:128-158 | in every reachable state an attempt is refused its begin if and only if it is not the one that River runs, no live workspace is interested, or its worker is of another build than the current one |
| Admission.BegunFenced | internal/persistence/worker.go:136-148 | whatever the tables hold, an attempt passes begin only under its own request's current job and epoch, with control row, rendition and worker of one build |
| Admission.ReservedExactly | internal/persistence/worker.go:202-232 | an upload is reserved if and only if its generation and job own the request, its size is that of an image, its key is new, and the limits of 2 GiB and 5000 rows hold with it |
| Admission.PublishedUnless | internal/persistence/worker.go:234-284 | in every reachable state an uploaded attempt is refused publication only if its job no longer runs as that attempt, it lost its request, no live workspace is interested, or its upload was retired |
| Admission.PublishedFenced | internal/persistence/worker.go:234-258 | whatever the tables hold, nothing is published unless the attempt runs, owns its request under the control row's epoch and build, and a live workspace is interested |
| Admission.NewestOnly | internal/persistence/worker.go:48-57 | over any run an attempt whose job was started again never publishes |
| Releases.ActivatedExactly | internal/persistence/database.go:226-247 | a release is activated exactly when no job is unfinished; it takes the next epoch and leaves admission as it was |
| Releases.EpochNamesBuild | internal/persistence/database.go:239-246 | over any run an epoch belongs to one release: while it lasts none is activated and the build stays, and it never comes back |
| Releases.ReleaseFences | internal/persistence/database.go:225-247 | over any run, once another release was activated, no attempt begun before it publishes |
| Releases.OffDrains | internal/persistence/database.go:249-253 | over any run, from the moment admission is switched off until it is switched on, no visitor gains an interest and the unfinished jobs only get fewer |
| Attempts.StartsInTime | internal/persistence/worker.go:143-176 | over all runs an attempt that is not refused is started if and only if it comes within the queue age of its admission, when no attempt of the job was started before, or else within five minutes of the first start; if not, the request expires |
| Attempts.OutcomeStep | internal/persistence/worker.go:180-200 | a request's outcome changes only for its reason, and an attempt settles it only while it owns the request |
| Attempts.OutcomesHonest | internal/persistence/maintenance.go:74-76 | in every reachable state the recorded outcomes tell the truth about the job and the image |
| Retention.MaintainSparesLive | internal/persistence/maintenance.go:46-73 | maintenance takes neither row, interests nor pins from a workspace that has not expired |
| Retention.MaintainSparesImages | internal/persistence/maintenance.go:77-80 | maintenance removes an image only when its day is over and no live workspace pins it, and leaves all others as they are |
| Retention.FavouriteKept | internal/persistence/maintenance.go:77-80 | over any run a ready image stays ready for as long as a live workspace has it as a favourite, unless a reader reports its object missing |
| Retention.PublishedForADay | internal/persistence/worker.go:261-268 | over any run a published image stays ready for a day, pinned or not, unless a reader reports its object missing |
| Retention.WorkspaceLives | internal/studio/persistent.go:215-273 | over any run a workspace lives for ninety days from its creation and from every touch unless its visitor clears it |
| Retention.ClearedHasNothing | internal/studio/persistent.go:362-374 | a cleared workspace has expired and leaves no interests or pins behind |
| Reclaiming.MaintainUpload | internal/persistence/maintenance.go:77-95 | what one maintenance pass does to any upload row: retired an hour ahead with its expired image, retired at once when abandoned, dropped as an old tombstone, or left as it is |
| Reclaiming.PointedKept | internal/persistence/maintenance.go:77-83 | an upload behind an image that stays is left alone, whatever its state and age |
| Reclaiming.ReadersGrace | internal/persistence/maintenance.go:77-129 | whoever has read which object holds an image can fetch these very bytes for an hour, whatever is published, expired, maintained or deleted meanwhile, unless the object is reported missing |
| Reclaiming.PendingForAnHour | internal/persistence/maintenance.go:81-83 | a reserved upload is left alone for an hour, unless it is published |
| Reclaiming.CountedUntilDeleted | internal/persistence/worker.go:218-231 | the bytes of an upload count against storage until its deletion is confirmed |
| Reclaiming.DeletionRemembered | internal/persistence/maintenance.go:93-129 | a confirmed deletion is dated once, asks for another deletion an hour later, and its key is remembered for at least a week |
| Reclaiming.DeletionConfirmed | internal/persistence/maintenance.go:122-129 | confirming a deletion dates it once and asks for the next an hour later, and touches only an upload that is being deleted |
| Reclaiming.RequestGoes | internal/persistence/maintenance.go:96-98 | maintenance drops exactly the requests chosen, a day after their admission at the earliest and only when nothing refers to them |
| Reclaiming.NoneStuck | internal/persistence/maintenance.go:74-76 | maintenance settles a request that claims to be queued or running under a job that River has given up, as failed when the job was discarded and else as cancelled, and leaves all other outcomes |
| Persistence.Database.AdmitRequest | internal/persistence/queue.go:36-117 | admission changes the tables exactly as specified and reports failure exactly when a check fails |
| Persistence.Database.CancelInterest | internal/persistence/queue.go:166-191 | the tables change as the transaction does; what that means is SharedCancelKeeps, LastCancelFences and DroppedForever |
| Persistence.Database.WriteWorkspace | internal/studio/persistent.go:96-212 | a write commits all of its effects or none |
| Persistence.Database.BeginAttempt | internal/persistence/worker.go:128-178 | begin refuses, expires or starts an attempt under a fresh generation, as the rows decide |
| Persistence.Database.ReserveUpload | internal/persistence/worker.go:202-232 | a reservation succeeds exactly for the owning attempt within capacity |
| Persistence.Database.CompleteAttempt | internal/persistence/worker.go:234-284 | completion succeeds exactly when every fence holds, and then promotes, replaces and completes together |
| Persistence.Database.Fail | internal/persistence/worker.go:180-200 | a final error changes the outcome as the transaction does; who may is OutcomeStep |
| Persistence.Database.MaintainTables | internal/persistence/maintenance.go:27-102 | the expiries apply in the order of the statements, or nothing does; whom they spare is MaintainSparesLive and MaintainSparesImages, what they do to uploads MaintainUpload |
| Persistence.Database.ConfirmDeleted | internal/persistence/maintenance.go:122-129 | the row changes as the statement does; what that means is DeletionConfirmed |
| Persistence.Database.ForgetMissing | internal/persistence/read.go:33-49 | the pointer goes only if it still names this object, and the object's upload is retired at once |
| Persistence.Database.ActivateBuild | internal/persistence/database.go:226-247 | activation succeeds and changes the control row exactly as ActivatedExactly says |
| RenderQueueRuns.Reachable | internal/renderjob/manager.go:110-370 | every reachable manager state satisfies the invariant of cache, queue, worker and load |
| RenderQueueRuns.WithinLimits | internal/renderjob/manager.go:246-272 | over all runs the queue, owners, subscribers, single running job, cache bytes and count, leases per image and open leases stay within their limits, counters equal what they count, leased images stay with their files, and a queued or running identity has no image |
| RenderQueueRuns.NoLostWork | internal/renderjob/manager.go:289-334 | a queued job is in the queue exactly once, and a waiting worker with queued work has a token in its wake channel |
| RenderQueueRuns.BoundedBypass | internal/renderjob/manager.go:304-332 | a job with p queued jobs ahead waits through at most 2p + 1 dequeues under any arrivals |
| RenderQueueRuns.LeavesBy | internal/renderjob/manager.go:304-332 | a waiting job stops waiting only by being started while young enough, by expiring when too old, both in a dequeue, or by its last subscriber cancelling |
| RenderQueueSafety.StepKeeps | internal/renderjob/manager.go:110-370 | every locked section keeps the manager's invariant |
| RenderQueueSafety.AdmitKeeps | internal/renderjob/manager.go:110-205 | admission, granted or refused, keeps queue, load and wake token in order |
| RenderQueueSafety.OpenKeeps | internal/renderjob/manager.go:246-272 | a lease is counted per image and in total, within 32 and 64 |
| RenderQueueSafety.CloseKeeps | internal/renderjob/manager.go:264-272 | closing a lease, even twice, keeps the counts equal to the live leases |
| RenderQueueSafety.PublishKeeps | internal/renderjob/manager.go:396-440 | publishing, successful or not, keeps the byte count equal to the sizes and the cache within its limits |
| RenderQueueSafety.ReadyWithoutImage | internal/renderjob/manager.go:340-354 | a running job is settled as ready without an image if and only if its deadline passed between the reading of the error and the worker's own cancellation, nothing failed and nothing was shut down |
| RenderSharing.CancelledByLast | internal/renderjob/manager.go:229-244 | an active job becomes cancelled only in a Cancel by its last subscriber |
| RenderSharing.SharedCancelKeeps | internal/renderjob/manager.go:229-244 | when one of several subscribers cancels, its own subscription goes and nothing else changes |
| RenderSharing.LastCancelStops | internal/renderjob/manager.go:229-244 | when the last one cancels, work under way is stopped |
| RenderSharing.ActiveIsWanted | internal/renderjob/manager.go:229-244 | in every reachable state somebody is subscribed to every queued or running job |
| RenderSharing.ActiveFates | internal/renderjob/manager.go:289-366 | every step keeps an active job, and its state changes only for its reason: started while young enough, expired when too old, cancelled by its last subscriber, or settled by its own worker |
| RenderSharing.SubscriptionKept | internal/renderjob/manager.go:110-244 | a subscription to work under way ends only by the subscriber's own cancellation |
| RenderSharing.OffDrains | internal/renderjob/manager.go:104-142 | over any run, from a shutdown on, and from the moment admission is switched off until it is switched on, no job becomes active |
| RenderSharing.TokenTaken | internal/renderjob/manager.go:289-303 | the worker wakes only by the token in its channel, and takes it out |
| RenderSharing.IdleOnlyWithoutWork | internal/renderjob/manager.go:304-332 | a dequeue leaves the worker idle only when every queued job is too old |
| RenderSharing.OwnersTakeTurns | internal/renderjob/manager.go:304-332 | a dequeue starts the first waiting job of an owner other than the last one served, and only without one the first waiting job of all; so no owner is served twice in a row while another waits |
| RenderSharing.AdmittedServes | internal/renderjob/manager.go:178-205 | each identity of an admitted batch is then finished, or under way with the owner among its subscribers |
| RenderSharing.TurnedAwayExactly | internal/renderjob/manager.go:140-179 | a batch is turned away if and only if the manager is off or registering it would break a limit, and then nothing of it is registered |
| RenderSharing.EntryGoes | internal/renderjob/manager.go:452-468 | an entry goes or is replaced only when it is finished, after half an hour or because the image is asked for again |
| RenderSharing.OutcomeStays | internal/renderjob/manager.go:229-244 | a finished job keeps its outcome for as long as its entry is there |
| RenderSharing.PublishedImage | internal/renderjob/manager.go:396-440 | a published image is in the index as it was rendered, new and unleased, and in its file, and every other image of the index was there before |
| RenderSharing.OpenedExactly | internal/renderjob/manager.go:246-272 | a lease is possible exactly for an image that is there with its file, no older than allowed, while the counts with it stay within 32 and 64 |
| RenderManager.Manager.Admit | internal/renderjob/manager.go:110-205 | the batch is registered completely or not at all, as specified |
| RenderManager.Manager.RegisterOne | internal/renderjob/manager.go:180-200 | the busy return inside the second loop is unreachable, and each identity joins or creates exactly one job |
| RenderManager.Manager.Survey | internal/renderjob/manager.go:157-176 | the first loop finds exactly the crowded, new and joined identities of the batch |
| RenderManager.Manager.OpenLease | internal/renderjob/manager.go:246-272 | a lease is given exactly for a fresh image with a file and room for it |
| RenderManager.Manager.CloseLease | internal/renderjob/manager.go:264-272 | a lease is given back once, however often it is closed |
| RenderManager.Manager.CancelFor | internal/renderjob/manager.go:229-244 | one subscription goes, and active work without subscribers is cancelled; what that means is SharedCancelKeeps and LastCancelStops |
| RenderManager.Manager.Prune | internal/renderjob/manager.go:452-468 | pruning removes old finished jobs and every stale unleased image it can delete, nothing else while within capacity, and stops above capacity only when nothing can be evicted |
| RenderManager.Manager.EvictOldest | internal/renderjob/manager.go:483-496 | what is evicted is unleased and no younger than any unleased image that stays; it fails only when all is leased or the oldest file is stuck, and then changes nothing |
| RenderManager.Manager.MakeRoom | internal/renderjob/manager.go:405-412 | eviction goes oldest first, nothing goes when the image fits already, success means that it fits, and failure that nothing more can be evicted for it |
| RenderManager.Manager.Publish | internal/renderjob/manager.go:396-440 | a published image is stored with its size and digest, and a refusal has a stated reason |
| RenderManager.Manager.Scan | internal/renderjob/manager.go:305-320 | the position chosen is the first live entry of another owner, else the first live entry, and stale entries met have expired |
| RenderManager.Manager.Dequeue | internal/renderjob/manager.go:304-332 | one job is started or the queue is drained |
| RenderManager.Manager.Finish | internal/renderjob/manager.go:340-366 | a job settles only while the worker's own job object is still running; without a failure or shutdown it is ready exactly when its image is stored or its deadline passed too late to be an error, and a refusal has a stated reason |
| RenderManager.Manager.Reconcile | internal/renderjob/manager.go:498-548 | start-up indexes exactly the files that fit in name order, deletes the others, and establishes the cache invariant |
| NearestCells.NearestOfStream | internal/cells/cells.go:287-327 | after any stream of additions the buffer holds the nearest distinct cells, each with its least distance, in order, and all others are at least as far; its length is the number of cells or six |
| NearestCells.PutSummary | internal/cells/cells.go:301-320 | one addition keeps that summary, also for a cell evicted before |
| NearestCells.Near.Add | internal/cells/cells.go:301-320 | the in-place buffer changes as specified |
| NearestCells.Near.Up | internal/cells/cells.go:322-327 | the in-place exchange carries a slot forward as specified |
| Foam.New | internal/cells/cells.go:130-200 | the grid covers the canvas and all sites, every bucket lists exactly its sites, and the largest weight is known |
| Foam.SiteApart | internal/cells/cells.go:206-214 | a site r rings away from the query is at least (r - 1) bucket sizes away, also for queries outside the grid |
| Foam.Outside | internal/cells/cells.go:219-230 | once the floor of a ring passes a distance, all sites of that ring and beyond are farther |
| Foam.EarlyExit | internal/cells/cells.go:219-230 | stopping then leaves an answer faithful to all sites |
| Foam.Ring | internal/cells/cells.go:265-285 | a ring visits exactly the sites at that Chebyshev distance |
| Foam.Search | internal/cells/cells.go:215-230 | every cell is kept at its distance, or six nearer ones are, or it lies beyond the second cell by more than six times the larger of node and round |
| Foam.FirstIsNearest | internal/cells/cells.go:231-231 | slot 0 attains the least weighted distance over all sites |
| Foam.SecondIsNext | internal/cells/cells.go:232-235 | slot 1 attains the least weighted distance over the sites of all other cells |
| Foam.SlotIsExact | internal/cells/cells.go:248-262 | a slot within that range of the second cell carries its cell's exact distance |
| Foam.FaithfulIsBruteForce | internal/cells/cells.go:231-247 | a faithful answer is what a search over all sites gives |
| Foam.At | internal/cells/cells.go:215-263 | the lookup agrees with a search over all sites on cell, next cell and unrounded wall |
| Merging.SelectIsClosest | internal/cells/cells.go:386-408 | the selection is the reach closest other sites by distance and index, closest first |
| Merging.Nearest | internal/cells/cells.go:386-408 | the parallel slices end as that selection |
| Merging.Find | internal/cells/cells.go:425-431 | path halving terminates at the root and never changes the classes |
| Merging.Test | internal/cells/cells.go:454-459 | the size test on roots decides whether the classes fit together |
| Merging.Choose | internal/cells/cells.go:453-460 | the partner is the first nearest site's class that fits |
| Merging.UniteOne | internal/cells/cells.go:438-466 | the loop body computes one site's turn on the forest and keeps each root's size equal to its class size; whom that unites is RoundUnites and RoundRests |
| Merging.RoundUnites | internal/cells/cells.go:438-466 | a site whose draw is below the share unites its class with that of the nearest site it may join, and no other pair of sites changes |
| Merging.RoundRests | internal/cells/cells.go:438-463 | a site whose draw reaches the share, or that may join none of its nearest, changes nothing |
| Merging.RoundsCapped | internal/cells/cells.go:442-466 | no cell takes more than max(maxSites, 1) sites |
| Merging.RoundsInOnePiece | internal/cells/cells.go:446-466 | sites share a cell only through chains of nearest neighbours inside it |
| Merging.Compact | internal/cells/cells.go:467-479 | numbers are dense, in first-appearance order, and equal exactly within a class |
| Merging.Merge | internal/cells/cells.go:418-479 | the whole function yields the numbered classes after every site's turn; what those are is LobesAreSound and LobesFollowDraws |
| Merging.LobesAreSound | internal/cells/cells.go:410-417 | a cell of the result is capped and in one piece over the brute-force nearest lists |
| Merging.LobesFollowDraws | internal/cells/cells.go:436-466 | two sites share a cell only if cells may have two and some site of that cell drew below the share; a site that did ends with one of its nearest, or each of them is in a cell that would not have fitted |
| CircleIndex.Index.constructor | internal/geom/geom.go:38-50 | the grid covers the rectangle and lists nothing |
| CircleIndex.Index.Insert | internal/geom/geom.go:61-74 | the circle joins exactly the cells its box touches |
| CircleIndex.ColliderIsSeen | internal/geom/geom.go:82-88 | under the condition of SeesExact every collider is listed in a cell that is looked at, also outside the bounds |
| CircleIndex.Index.FitsWithGap | internal/geom/geom.go:80-101 | the loops answer what the cells looked at hold, never wrongly negative, and the same as the plain list under the condition of SeesExact, which holds whenever radius plus gap is at least minus one cell |
| CircleIndex.SeesExact | internal/geom/geom.go:80-101 | the answer equals that of the plain list for every set of circles if and only if on both axes the strips looked at cover all points within the negative reach, a test on grid, circle and gap alone |
| CircleIndex.SmallGridSees | internal/geom/geom.go:80-88 | on a grid of at most two columns and rows the condition always holds |
| CircleIndex.ContainerIsListed | internal/geom/geom.go:103-119 | a circle containing a point is listed in the point's cell at any cell size |
| CircleIndex.Index.At | internal/geom/geom.go:103-119 | the earliest inserted circle containing a covered point, or none; outside coverage none |
| CircleIndex.GrownPacks | internal/sketch/circles/pack.go:15-33 | the packing on the plain list is pairwise separated by the gap, inset from the edges and within the radius range |
| CircleIndex.AttemptAdds | internal/sketch/circles/pack.go:19-31 | every attempt adds its first fitting try behind the circles so far, and nothing only when each of its tries collides |
| CircleIndex.RadiusSchedule | internal/sketch/circles/pack.go:19-22 | the room for the radius shrinks with the square of the attempts that are left, from the whole range on |
| CircleIndex.PlacesReached | internal/sketch/circles/pack.go:23-27 | every place inside the margins is proposed by exactly one pair of draws |
| CircleIndex.Pack | internal/sketch/circles/pack.go:15-33 | with the grid index in place of the plain list exactly the same circles are packed, for non-negative radii and a gap that keeps the reach at minus one cell or more |
| Traits.DrawnByWeight | internal/trait/trait.go:89-110 | a value is drawn exactly on an interval as long as its weight |
| Traits.Draw | internal/trait/trait.go:89-118 | the loops draw that value and the fallback is never reached |
| Traits.Validate | internal/trait/trait.go:131-164 | a schema is accepted exactly when names, keys and values are present, distinct and drawable |
| Traits.DerivedAt | internal/trait/trait.go:166-172 | every dimension draws at its own position |
| Traits.AppendingKeepsDraws | internal/trait/trait.go:114-119 | appending dimensions never changes what a seed draws for the others |
| Traits.SetOverrides | internal/trait/options.go:106-117 | choices are taken over all together exactly when all are options |
| Traits.PinningKeepsOthers | internal/trait/options.go:92-98 | pinning a dimension leaves the others as the seed draws them, and valid pins give a valid complete set |
| Traits.BoostRaises | internal/trait/trait.go:183-218 | boosting never lowers a weight and never makes an undrawable value drawable |
| Traits.BoostExact | internal/trait/trait.go:183-218 | a named value that can be drawn rises by the strength for each liked set that has it, and every other value keeps its weight |
| Traits.BoostKeepsSpace | internal/trait/trait.go:183-218 | a boosted schema has the same dimensions and options and can be drawn from |
| Traits.Boost | internal/trait/trait.go:183-218 | the copying loops compute the boosted schema |
| Planner.PickedCount | internal/explore/explore.go:71-79 | the attempts yield as many seeds as are wanted or as are unseen |
| Planner.ExactlyFour | internal/explore/explore.go:71-105 | with at most 124 recent seeds there are always exactly four distinct new ones, across word wrap-around |
| Planner.FourNeeds124 | internal/explore/explore.go:71-82 | and 124 is exact: when the first 125 words to be tried are recent, three candidates come back |
| Planner.ProposalLegal | internal/explore/explore.go:80-103 | every candidate is complete, uses known options, obeys the pins and may itself be a parent |
| Planner.ParentsAreFollowed | internal/explore/explore.go:84-102 | candidates 0 and 1 name their parent and have its value in every unpinned dimension where it can be drawn, and the seed's own draw elsewhere |
| Planner.LiftedDraws | internal/explore/explore.go:96-102 | candidate 2 draws every unpinned dimension from the schema boosted by the parents |
| Planner.ExplorersDraw | internal/explore/explore.go:83-102 | all other candidates draw every unpinned dimension from the schema itself |
| Planner.WeightIs | internal/explore/explore.go:89-90 | the weight that decides is that of the first value of its name in the dimension of that name |
| Planner.EveryParentGuides | internal/explore/explore.go:86-87 | over as many rounds as there are parents every parent guides a candidate |
| Planner.Public | internal/explore/explore.go:47-106 | rejection happens exactly on the limits or an invalid set; otherwise seeds and candidates are as planned and legal |
| Studio.KeptExactly | internal/studio/studio.go:510-523 | the retention filter keeps exactly favourites and samples named by retained batches |
| Studio.SamplesCommitted | internal/studio/studio.go:493-531 | after retention samples are distinct, at most 64, contain all that batches name, and no favourite is lost |
| Studio.CommittedKeeps | internal/studio/studio.go:493-531 | an admitted generation keeps every invariant of its exploration |
| Studio.FourNewSeeds | internal/studio/studio.go:463-471 | the planner always finds four new distinct seeds for a reachable exploration |
| Studio.ReplayIsSafe | internal/studio/studio.go:404-412 | repeating a logged action answers its retained batch, or conflicts on a different body, and changes and admits nothing |
| Studio.FreshSuccess | internal/studio/studio.go:413-415 | an admission needs the current revision, raises it and the round by one and is logged with its batch; anything else changes nothing |
| StudioEffects.GeneratedSamples | internal/studio/studio.go:463-531 | an admitted generation shows, for each planned seed, one new image with that seed, its own render job and the style and colour of the chosen image if it is still there, else the current ones, named by the new batch together with its parent |
| StudioEffects.GeneratedKeepsOld | internal/studio/studio.go:510-523 | every other image shown was there before, unchanged, and no favourite is missing |
| StudioEffects.AdmittedExactly | internal/studio/studio.go:404-496 | a new request is admitted if and only if it names the current revision, no image of the exploration or its download is being made, a chosen image is known unless something different is wanted, and neither budget nor queue refuses |
| StudioEffects.ShownExactly | internal/studio/studio.go:205-240 | an image is shown as ready exactly when one of its renditions is, else as cancelled if it was, else as its own job stands |
| StudioEffects.ChoicesTaken | internal/studio/studio.go:311-329 | new choices are taken over as they are at the current revision, and nothing else changes; otherwise nothing does |
| StudioEffects.FavouriteTaken | internal/studio/studio.go:547-579 | the mark is set or unset on exactly the sample asked for |
| StudioEffects.FavouriteRefused | internal/studio/studio.go:547-579 | at the current revision a known sample is refused exactly when it is no favourite yet and there are twenty-four |
| StudioEffects.CancelMarks | internal/studio/studio.go:582-608 | exactly the unfinished members of the last batch are marked, and no batch or logged action changes |
| StudioEffects.DownloadTaken | internal/studio/studio.go:611-640 | one larger rendition of the sample asked for is admitted, and none while one is ready or on its way |
| StudioEffects.RetryNeeds | internal/studio/studio.go:332-372 | an admitted Retry is for the last batch, none of whose images is there or on its way, and keeps its parent |
| StudioEffects.RetryAnswers | internal/studio/studio.go:332-372 | a new Retry conflicts unless it names the last batch at the current revision, is refused when an image of that batch is there or on its way, and else generates again from its parent |
| StudioEffects.EnterTaken | internal/studio/studio.go:242-289 | a successful new Enter leads to an exploration of that art form with the choices asked for, and is logged with it |
| StudioEffects.StartTaken | internal/studio/studio.go:164-179 | an exploration opens empty under a new name exactly when the choices are known and fewer than four are open |
| StudioEffects.RestoredShows | internal/studio/studio.go:662-705 | a restored workspace shows exactly the recipes it was given as favourites, in one exploration for each art form |
| StudioRuns.WithinBounds | internal/studio/studio.go:463-531 | every reachable exploration has at most 8 batches and 64 samples, all samples of retained batches and all looked-up parents are present, a workspace has at most 24 favourites |
| StudioRuns.NeverTwice | internal/studio/studio.go:242-532 | over a whole run at most one generation against one revision of an exploration, be it by Generate, Retry or Enter, is ever admitted |
| StudioRuns.RepeatIsHarmless | internal/studio/studio.go:404-415 | a call with an outdated revision never changes the workspace, and succeeds only as a replay |
| StudioRuns.RepeatedEnter | internal/studio/studio.go:242-260 | at any later point of any run, repeating an Enter that is among the last eight logged since the last clear answers its exploration, or conflicts when artwork, style or colour differs, and changes and admits nothing; an unknown artwork, style or colour is refused before |
| StudioRuns.NewEnter | internal/studio/studio.go:242-289 | in a run an Enter that succeeds is admitted anew if and only if it repeats none of those entries |
| StudioReplays.RepeatedGenerate | internal/studio/studio.go:404-412 | at any later point of any run, while the exploration is there and fewer than eight generations were admitted on it since, repeating an admitted Generate answers the batch it answered first, which is retained, or conflicts on a different body, and changes nothing |
| StudioReplays.NewGenerate | internal/studio/studio.go:404-415 | in a run a Generate that succeeds is admitted anew if and only if none of those generations used its action |
| StudioReplays.RepeatedRetry | internal/studio/studio.go:332-372 | at any later point of any run, repeating an admitted Retry answers its first batch through six further generations, and finds the retried batch gone from then on; it conflicts on another revision and changes nothing |
| StudioRuns.FavouriteKeeps | internal/studio/studio.go:547-579 | toggling a favourite keeps the workspace within 24 |
| StudioRuns.RestoreKeeps | internal/studio/studio.go:662-705 | a restored workspace meets every invariant |
| StudioStore.Retain | internal/studio/studio.go:517-523 | the in-place filter leaves exactly the kept samples, in order, at the front of their own array |
| StudioStore.Commit | internal/studio/studio.go:493-531 | the loops and cuts at the end of generate compute the committed exploration; what it then shows is GeneratedSamples and GeneratedKeepsOld |
| StudioStore.Store.GenerateIn | internal/studio/studio.go:380-532 | generate changes the fields as the function Generated does on every path; when it admits is AdmittedExactly, what it shows GeneratedSamples |
| StudioStore.Store.Visit | internal/studio/studio.go:275-283 | choices are set before the generation and put back exactly when it fails |
| StudioStore.Store.EnterFresh | internal/studio/studio.go:268-283 | a fresh exploration is removed again when its first generation fails; only its unused token is spent |
| StudioStore.Store.Enter | internal/studio/studio.go:242-289 | an unknown form is refused first, a repeated form answers its exploration, and a failing Enter leaves no trace but an unused token |
| StudioStore.Store.Retry | internal/studio/studio.go:332-372 | the guards for a new admission apply only when the action is not a replay |
| StudioStore.Store.Favourite | internal/studio/studio.go:547-579 | the favourite count over all explorations decides, and one sample changes |
| StudioStore.Store.Cancel | internal/studio/studio.go:582-608 | exactly the unfinished members of the last batch are marked, and their jobs withdrawn from the queue in order |
| Studio.WithdrawnExactly | internal/studio/studio.go:595-604 | a job is withdrawn exactly when it is the unfinished job of a member of the batch |
| StudioStore.Store.Download | internal/studio/studio.go:611-640 | a second download of a live rendition admits nothing |
| RateLimit.AllowMoves | internal/web/web.go:833-859 | an access costs its own key one token if allowed and no other key anything, evictions included |
| RateLimit.AdmittedExactly | internal/web/web.go:833-859 | a known key is admitted exactly when the seconds waited times the minute's tokens make up what is missing, an unknown one exactly when a burst holds a token and there is room or a stale bucket |
| RateLimit.WindowBound | internal/web/web.go:833-859 | in any window the accesses granted to a key are at most its burst plus the gain of the elapsed time, evictions included |
| RateLimit.WindowExact | internal/web/web.go:833-859 | for every rate with a whole burst that bound holds on all runs in clock order if and only if the burst is at most five minutes' gain |
| RateLimit.RunCapacity | internal/web/web.go:839-847 | at most 10000 keys are ever held |
| RateLimit.EvictionExact | internal/web/web.go:839-844 | eviction hands out no tokens if and only if the burst is at most five minutes' gain |
| RateLimit.Limiter.Allow | internal/web/web.go:833-859 | the map and the answer change as specified |
| RateLimit.CommitOrderBound | internal/persistence/read.go:77-117 | in commit order, however far the clock steps back, grants between two granted accesses are covered by burst and clock difference while the row is in place |
| RateLimit.SkewBound | internal/persistence/read.go:77-117 | with a clock that steps back by at most d between commits, the same holds across deletions of the row when the burst is at most the gain of 300 - 2d seconds |
| RateLimit.SkewWindowBound | internal/persistence/read.go:77-117 | in any window of commits the grants are then at most burst plus the gain of the clock difference and twice the skew |
| RateLimit.SkewExact | internal/persistence/read.go:91-113 | for every rate with a whole burst that condition is exact: the bound holds on all runs of skew at most d if and only if the bucket refills within 300 - 2d seconds |
| RateLimit.ShippedOutlast | internal/limits/policy.go:41-52 | all shipped rates meet the condition exactly for skews up to 144 seconds |
| RateLimit.SharedWindowBound | internal/persistence/maintenance.go:84-86 | with a clock that never steps back the window bound holds across deletions by accesses and by the maintainer |
| RateLimit.SharedCapacity | internal/persistence/read.go:87-105 | the table never holds more than 10000 rows |
| RateLimit.SharedExactly | internal/persistence/read.go:77-117 | a full table without a stale row denies every key and stays as it was; otherwise a row decides by its token, and a key without one, or whose stale row goes, starts with a burst |
| RateLimit.Table.Allow | internal/persistence/read.go:77-117 | the transaction changes the rows as specified and a denial for lack of room changes nothing |
| Notifications.Reachable | internal/persistence/events.go:42-66 | every interleaving of commits, notifications, disconnects, broadcasts and streams keeps the token, broadcast and reach invariants |
| Notifications.NoLostRefresh | internal/web/events.go:68-91 | a stream waiting in its select whose snapshot predates a finished broadcast has a token |
| Notifications.DrainedCoversAll | internal/persistence/events.go:46-57 | once the listener is connected, resynced and drained every commit is covered |
| Notifications.RestIsCurrent | internal/web/events.go:78-91 | at rest every waiting stream has read the newest commit and announced the page as it is |
| Notifications.Hub.Broadcast | internal/persistence/events.go:30-39 | every subscriber ends with a token and none is added or dropped |
| Histogram.RunTotals | internal/flame/histogram.go:141-154 | any schedule leaves in each cell the sum of all that is aimed at it, modulo the word |
| Histogram.OrderDoesNotMatter | internal/flame/histogram.go:73-90 | every interleaving of the workers' atomic additions gives the same histogram |
| Histogram.Shares | internal/flame/histogram.go:70-79 | the eight shares add up to the samples and differ by at most one |
| Histogram.SplatConserves | internal/flame/histogram.go:126-139 | an interior splat adds its scaled weight to channel A within two units |
| Histogram.SplatIsBilinear | internal/flame/histogram.go:126-139 | every bin of the canvas is given the scaled and rounded part of the weight that its nearness to the point along both axes makes due, so each corner gets its own part |
| Histogram.SplatColours | internal/flame/histogram.go:141-154 | in every bin each colour channel is given its own part of the weight given there, to within half a unit |
| Histogram.SplatTinted | internal/flame/histogram.go:126-154 | a splat adds to no bin more colour than weight |
| Histogram.SplatWeighs | internal/flame/histogram.go:126-154 | a splat of weight at most one adds at most one unit of weight to any bin |
| Histogram.ColourBelowWeight | internal/flame/histogram.go:54-154 | in the finished histogram of fewer than 2^40 plotted points, under any interleaving, no colour channel exceeds the weight channel of its bin, and the weight is the exact sum |
| Histogram.ColourExact | internal/flame/histogram.go:54-154 | for every number of samples, shared out over the eight workers, that holds on all runs if and only if the number is below 2^40 |
| Histogram.BumpedTotals | internal/flame/histogram.go:141-154 | the arrays hold, cell by cell, the totals of the additions |
| Histogram.Bins.AddOne | internal/flame/histogram.go:141-154 | the four additions to one bin change the arrays as specified, or nothing on the skipped paths |
| Histogram.Bins.SplatAt | internal/flame/histogram.go:126-139 | the four corners change the arrays as the splat's additions do |

## Left out

- SQL text, PostgreSQL locking and isolation, River's scheduling, retries of serialization aborts: a committed transaction is one step.
- Durable `Status` (internal/persistence/queue.go:120-164) and the read-only counters: they change nothing.
- The durable limit on a visitor's jobs is modelled in admission but is no invariant, because the code skips it for requests that are ready.
- Rows of renderers, instances and monitor tables, bucket binding and health checks.
- JSON encoding and decoding of workspaces, recipe bytes and the 32 MiB recipe budget: admission of a generation may be refused by the outside.
- The additional render admission of `Persistent.Favourite` (internal/studio/persistent.go:311-337) and expiry of transient workspaces (internal/studio/studio.go:122-140).
- The recipe inside a sample: the studio keeps its style, colour and seed, the planner its traits; its palette (internal/studio/studio.go:475-488) is not modelled.
- Parents of batches generated with `different` are not looked up by the code, so nothing is claimed about them.
- The studio's explorations are values in a map that the store reassigns; sharing of pointers between calls is not captured.
- ProtocolRuns.BoundsEverywhere: the outstanding limit is the largest one any running release is configured for, because releases with different limits may overlap.
- Foam.At: the rounded part of the wall and the node measure, which use exponentials, are not modelled; floating-point rounding and NaN neither.
- Foam.New: the measuring of the cells at the end of build is omitted; nothing modelled here reads it.
- Persistence.Database.MaintainTables: the same transaction also deletes rows of rate buckets, renderers and instances; the rate buckets are RateLimit.Table.Cleanup, the others are not modelled.
- Foam.Ring: that no bucket is read twice is not stated, because reading one twice would not change the answer.
- CircleIndex.Pack: nothing is claimed of the circles for negative radii, or when the smallest radius plus the gap is below minus one cell; the draw raised to the power 1.5 is any number in [0, 1).
- Merging.Merge: the random stream is one draw per site, as the loop consumes it.
- RenderManager.Manager.Store: PNG decoding, child processes and file system errors are reduced to whether space and disk allow the file.
- Histogram.ColourBelowWeight: nothing is claimed from 2^40 points on, where a bin may wrap around; ColourExact says that the comparison can fail there.
- Planner.Public: with 125 to 128 recent seeds fewer than four candidates may come back; PickedCount says how many.
- Noise fields, colour spaces, brushes, relief, flame variations, camera framing, palettes and data tables: no crisp specification.
- The studio's Restore and Clear are modelled as functions only, and LocalBreed, flag parsing and file names of traits not at all.
- HTTP routing, cookies, templates, logging, object store client, command line, deployment and monitoring.
