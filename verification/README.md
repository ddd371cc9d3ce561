# Verified model of the image platform's job, money and pixel cores

This project models, in Dafny, the parts of the image-generation platform whose correctness
depends on many steps taken together, and proves what those parts promise.

**Jobs and money.** `Rows` holds the tables, `CostLedger` and `JobTransactions` say what each
database transaction does, and `Store` is the same transactions as a mutable store whose every
method is proved equal to its specification. `LedgerInvariants`, `BudgetRules` and `LateBilling`
prove the laws of the ledger over arbitrary runs. `Workers` is the system as a transition system:
any number of workers with stale snapshots, a captured reservation id and a program counter,
duplicate and retried deliveries, creates, cancels, admin retries, enqueue clean-ups and budget
edits, interleaved in any order. `Lifecycle` proves its invariants and the main results over every
run, `Delivery` what whole undisturbed deliveries, failures, retries and clean-ups achieve from any
state they may start in. `RouteWalk` is the provider walk under the billable-call cap, `PackFanout` the resumable pack
run, `Idempotency` the key table and the three create paths. `MoneyRuns` carries the laws of the ledger
over to every interleaving of `Workers`. `FailedAttempts` is what attempts that fail, race or come too
late leave behind, and what retries make of it; `LedgerColumns` and `RequestPaths` say over the columns of
the tables what each cost and request transaction decides and leaves.

**Pixels.** `Grid`, `Flood`, `EdgeBand` and `ChromaKey` are the chroma-key algorithms on arrays and
work lists: the backdrop flood proved to be 4-connected reachability, the edge band proved to be
exact Manhattan distance, the matte, the counts, the gates and the despill weights.

**Decisions.** `Compatibility` and `Retrieval` are the asset retrieval decision, `RateLimit` the
fixed-window limiter over a counter store with expiring keys, `LabelledText` and `HashPreimage` the
text the render hashes are taken over, `CutText` and `HashCollisions` exactly which requests share it.

How the source is read:

- A table is a sequence and a row's id its position, so a fresh id is the next position. One tenant
  is modelled; the tenant predicate of every query is taken as true. Amounts are whole numbers of
  1/10000 USD. Rows are scanned in table order, which for the latest cost event is insertion order.
- Each transaction is one atomic step; a failed statement or commit is a step that does nothing.
  The exception is the call cap in `RouteWalk`, where the count and the insert that follow each other
  outside any transaction are separate steps. A cost event or late reconcile that the worker only
  warns about when it fails may be lost, and the worker goes on.
- Prices, provider answers, storage, crash points, clocks and the queue's answer are inputs.
- Hue offsets and chroma magnitudes are inputs, and ratios and the matte's ramp are exact reals.
- Nested row and column loops over an image are written as one loop in the same row-major order.
- Asset ids in retrieval are integers: only their total order matters. The head of a stable sort is
  computed as the first least element, which `Retrieval.BestIsFirstLeast` shows it is.

Where the code does not do what its comments or documentation say, or a natural property fails, the
model follows the code:

- `docs/architecture/job-lifecycle.md` lines 47-48 list only queued and running jobs as cancellable;
  the code cancels a preview_ready job too, and so does the model.
- The comment on the edge band speaks of the nearest fully transparent pixel. Seeds must also belong to
  the flooded backdrop, and a rim pixel of faint or excessive chroma can be fully transparent without
  belonging to it. `ChromaKey.BandMeasuresTransparent` says exactly when the comment is right;
  `ChromaKey.FaintRimMisjudged` is an image, with the default options, for which it is not.
- The billable-call cap is described as a bound on a job's lifetime calls; count and insert are
  separate, so n racing workers can exceed it, by n - 1 calls and no more. It is a bound exactly when no
  two workers run the job at once (`RouteWalk.CapHoldsExactlyAlone`, `RouteWalk.RacesReachTheBound`).
- An identity's actual total is independent of the order in which bills arrive; its estimated total is
  not (`LateBilling.EstimateOrderDependence` gives the exact condition, `LateBilling.ReleasedThenBilled`
  a run).
- A late correction can be cut off at zero on a budget that has been reset since
  (`BudgetRules.AdjustClampsExactly`, `BudgetRules.ResetThenLowerBill`), and on no other
  (`MoneyRuns.ClampsNeedAReset`).
- A rejected pack run can report an existing item as missing (`PackFanout.RefusedReport` gives the exact
  condition, `PackFanout.ReusedReportedMissing` a pack).
- The comment at `internal/assets/artifact_hash.go` lines 76-79 says that ids carry no newlines. Nothing
  in the hash functions requires it, and the handlers ask of `world_id` only that it is not empty. A request
  whose ids do carry none shares its preimage with no other (`HashCollisions.ArtifactPreimageInjective`,
  `HashCollisions.GenerationPreimageInjective`). One with a newline does so only where the newline is
  followed by the label that separates two neighbouring ids, which `HashCollisions.ArtifactsCollideExactly`
  and `HashCollisions.GenerationsCollideExactly` state exactly.
- Fencing does not extend to pack items (`Lifecycle.StaleStep` gives the exact exception,
  `Lifecycle.StalePackItem` a run).

One property holds only because of a step elsewhere. A pack that requires a role twice would end with a
warning although nothing is missing (`PackFanout.ExactExactlyWhenDistinct`). The request handler removes
repeats before a pack is created (`internal/http/handlers/packs_handler.go` lines 127-143), so the ending is
exact for every pack the API creates (`PackFanout.RequestedPacksEndExactly`).

Verify with `dafny verify dfyconfig.toml`.

## Model

| member | source | states |
|---|---|---|
| `Lifecycle.ReservationsTrackJobs` | internal/jobs/worker.go:477-523 | In every reachable state of every interleaving a live job's current reservation is reserved, a completed job's reserved or committed, a failed or cancelled job's never committed; only the reservation a job points at can be reserved, and the job's actual cost is that reservation's. |
| `Lifecycle.AtMostOneDelivery` | internal/jobs/guarded_persist.go:65-266 | Over a single-image job's whole life, duplicate deliveries and admin retries included, at most one final and one preview asset are inserted, and final_asset_ids is non-empty exactly when the job is completed. |
| `Lifecycle.Fencing` | internal/jobs/worker.go:477-491 | After a retry has replaced the reservation a task carries, no step of that task changes a job row, a hold, another reservation, or a budget its own holds are not on, or inserts an asset of a single-image job; it can only bill and reconcile its own closed reservation. |
| `Lifecycle.StaleStep` | internal/jobs/repository.go:630-648 | The exact exception to fencing: a fenced step inserts an asset if and only if it is a pack item stored while the reopened job is running, because that lock checks the status alone. |
| `Lifecycle.StalePackItem` | internal/jobs/repository.go:630-648 | The exception does occur: from an empty system a run is given that leads to a stale pack worker whose next step stores an item of the reopened job. |
| `Lifecycle.RedeliveryCloses` | internal/jobs/worker.go:493-523 | Redelivering a terminal job's task drives its reservation to the terminal state that fits how the job ended; after any further actions of anyone the reservation is still in that state, and while the job has not been reopened under another one a redelivery changes nothing at all. |
| `Lifecycle.MoneyAddsUp` | internal/db/dbgen/cost_lifecycle.sql.go:300-353 | In every reachable state each budget's reserved amount is the sum of its open holds, nothing is spent below zero, and each identity's lifetime actual is the sum of what its jobs' reservations were charged. |
| `Lifecycle.EveryRun` | internal/jobs/worker.go:465-720 | The system invariant holds after any sequence of deliveries, worker steps, creates, cancels, retries, clean-ups and budget edits. |
| `Lifecycle.CancelKeeps` | internal/adminjobs/adminjobs.go:80-153 | A queued, running or previewed job is cancelled and its reservation released; a cancelled one stays closed; both change no other job row and no other reservation. A completed or failed job is refused and nothing changes. The invariants hold. |
| `Lifecycle.RetryKeeps` | internal/adminjobs/adminjobs.go:166-244 | A retry closes the old reservation and reopens the job, queued and with nothing delivered or charged, under a fresh reserved one, or it changes nothing; the invariants hold. |
| `Lifecycle.EnqueueCleanupKeeps` | internal/jobs/service.go:1326-1394 | The clean-up after a refused enqueue fails a queued, running or previewed job under its own reservation and releases that together, or changes nothing; the invariants hold. |
| `Delivery.UndisturbedFinal` | internal/jobs/worker.go:477-720 | An undisturbed delivery of a queued single-image job that is not preview-first, however many routes fail before one succeeds, completes it with exactly one final asset and charges each held budget the reported sum of all those calls, or the estimate. Retried deliveries of a running job are in Delivery.RetryResumes. |
| `Delivery.UndisturbedPreviewFirst` | internal/jobs/worker.go:866-1144 | The two-phase delivery, with any failed calls in either phase, ends with one preview and one final asset, and charges once for all calls. |
| `Delivery.UndisturbedResume` | internal/jobs/worker.go:422-463 | A job that already has its preview goes straight to the final render, with any failed calls before it. |
| `Delivery.WhoRenders` | internal/jobs/worker.go:376-463 | A delivered task reaches a provider call exactly when it carries the job's reservation and the row lets it: a queued job is claimed, a running one resumed by a retry alone, the final phase of a previewed one by its owner's retry or by whoever claims it first; on a live job every other delivery stops and writes nothing. |
| `Delivery.RetryResumes` | internal/jobs/worker.go:380-397 | A retried delivery of a running job, or of a previewed one whose final phase is claimed, completes it with one final asset and charges the reported sum of all calls, or the estimate. |
| `Delivery.RetryResumesPreview` | internal/jobs/worker.go:880-1030 | The same for a preview-first job left running before its preview: preview, final asset, one charge. |
| `Delivery.PackCloses` | internal/jobs/worker_pack.go:269-361 | A pack run that ends with anything delivered completes the job with those assets and charges the reported sum or the estimate; with nothing it fails the job and charges what was reported. |
| `FailedAttempts.RetriedAttemptCompletes` | internal/jobs/worker.go:590-640 | An attempt whose every route failed for now leaves the job running; the retried delivery completes it, and both attempts' calls are charged once. |
| `FailedAttempts.UnusableFails` | internal/jobs/worker.go:541-555 | A job whose route, pixel budget or references are unusable fails before any call, and its hold is returned. |
| `FailedAttempts.GivenUpFails` | internal/jobs/worker.go:1800-1829 | A walk given up for good fails a running or previewed job, which keeps its preview, and charges exactly what was reported. |
| `FailedAttempts.UnstorableFails` | internal/jobs/worker.go:612-640 | A rendered image that can never be stored is billed and fails the job. |
| `FailedAttempts.StopsForNow` | internal/jobs/worker.go:619-625 | A failure for now stops the worker with nothing written but its call's event; a failed pack item lets the pack go on. |
| `FailedAttempts.OneClaims` | internal/jobs/worker.go:382-415 | Of two deliveries that both read a queued job one claims it and the other stops, changing nothing. |
| `FailedAttempts.OneFinalizes` | internal/jobs/worker.go:422-463 | Of two first deliveries of a previewed job one renders the final image. |
| `FailedAttempts.LosersStop` | internal/db/dbgen/generation_jobs.sql.go:94-119 | A completion moves a running or previewed job of its own reservation, a failure a queued one as well; one that finds the job moved by someone else, like a claim that does, changes nothing and stops. |
| `FailedAttempts.WriteLeads` | internal/jobs/guarded_persist.go:65-266 | What a guarded write does and where the worker goes on, by the row it finds, for every phase and status. |
| `FailedAttempts.DiscardLeads` | internal/jobs/worker.go:765-822 | After a discarded output a late preview goes on to the final phase, a cancelled job's reservation is released, any other worker stops. |
| `Delivery.UnbilledFailureReturnsHold` | internal/jobs/worker.go:1800-1829 | After any number of failed calls that report no cost the job fails, every hold is returned and nothing is charged. |
| `Delivery.FailureCharges` | internal/jobs/worker.go:1759-1829 | A delivery whose every route fails, billed or not, leaves the job failed, the reservation released, and exactly the reported sum charged. |
| `Delivery.CleanupUndoesCreate` | internal/jobs/service.go:1326-1394 | The clean-up after a refused enqueue undoes the create: every budget is as before, up to the period reset the create did. |
| `RequestPaths.CleanupAlwaysUndoes` | internal/jobs/service.go:1326-1394 | The same in every reachable state of every interleaving, with no further hypothesis. |
| `RequestPaths.EventsStayLinked` | internal/jobs/worker.go:1759-1791 | In every reachable state every cost event belongs to a reservation that exists. |
| `RequestPaths.CreateOnColumns` | internal/jobs/service.go:511-560 | A create adds one job row and one reservation, linked; queued with the estimate held on exactly the enforced rows if affordable, otherwise failed and denied with no budget touched. |
| `RequestPaths.RetryOnColumns` | internal/adminjobs/adminjobs.go:166-244 | A retry succeeds exactly on a failed job that is affordable once its old hold is released, and then reopens it under a fresh reservation holding the estimate; every other outcome writes nothing. |
| `RequestPaths.CancelReturnsHold` | internal/adminjobs/adminjobs.go:80-153 | Cancelling a live job returns what its reservation held on every budget and charges what its calls reported. |
| `RequestPaths.ActionsOnRows` | internal/jobs/service.go:757-1004 | What each request adds to the job table, and that it moves no worker. |
| `Delivery.LatePreviewStillFinishes` | internal/jobs/worker.go:950-1010 | A worker that comes second with its preview bills it and goes on to the final render. |
| `Delivery.DiscardedOutputIsBilled` | internal/jobs/worker.go:765-822 | Provider output of any phase, packs included, that nobody can publish is billed and reconciled into a closed reservation; where the best-effort insert or reconcile fails, exactly what is then missing. |
| `Delivery.ClaimsAreExclusive` | internal/db/dbgen/generation_jobs.sql.go:94-119 | Whoever wins a claim, a terminal transition or a guarded write leaves its guard false for everyone after. |
| `Delivery.CreateIsReady` | internal/jobs/service.go:511-560 | A granted create leaves a job ready to run; a denied one leaves it failed, with no budget touched. |
| `Delivery.RetryIsReady` | internal/adminjobs/adminjobs.go:166-244 | A granted retry leaves the job as ready as a new one, under a reservation no earlier task carries, keeping its preview. |
| `BudgetRules.BudgetConservation` | internal/cost/cost.go:623-774 | Every run of reserves, finalizations, reconciles and edits keeps reserved equal to the open holds; until a reset, spent moves exactly with the actuals of the finalized holds, and identity totals exactly with their reservations. |
| `BudgetRules.OverrunBound` | internal/db/dbgen/cost.sql.go:225-249 | A budget with a fixed limit that starts within it never has reserved plus spent above the limit plus the accumulated overrun, over any run, resets included. |
| `BudgetRules.PreflightAllOrNothing` | internal/cost/cost.go:231-331 | A reservation is granted if and only if every enforced budget admits the amount once rolled over; a denial leaves every budget and hold as it was, lazy resets included, and a grant adds the amount and one hold to exactly the enforced budgets. |
| `BudgetRules.ReserveOnColumns` | internal/cost/cost.go:114-360 | The pre-flight over the columns: which budget rows it is held against, by tenant, scope type and scope id; the limit comparison with an elapsed daily or monthly window; granted exactly when there is a price and each of them lets the amount through; and every row it then leaves. |
| `BudgetRules.RolledOnce` | internal/db/dbgen/cost.sql.go:274-312 | A window resets a budget once: spending restarts at zero, holds survive, exceeded clears and a pause stays. |
| `BudgetRules.SelectedIsEnforced` | internal/cost/cost.go:336-360 | The selected budgets are exactly the tenant budgets plus those of the narrowest non-empty scope: token, else world, else user. BudgetRules.ReserveOnColumns says which column is compared with which identifier. |
| `BudgetRules.SettleNeverClamps` | internal/db/dbgen/cost_lifecycle.sql.go:33-54 | Under conservation the GREATEST(..., 0) of a commit never cuts a negative reserved amount off. |
| `BudgetRules.AdjustClampsExactly` | internal/db/dbgen/cost_lifecycle.sql.go:14-31 | A late correction is cut off on a budget if and only if it would take spent below zero. |
| `BudgetRules.ReconcileExactness` | internal/cost/cost.go:484-569 | A late correction keeps a budget's opening balance if and only if the clamp does not fire on it. |
| `BudgetRules.ClampTakesAReset` | internal/db/dbgen/cost_lifecycle.sql.go:14-31 | No correction is cut off on a budget that has not been reset since its opening balance was non-negative. |
| `BudgetRules.ResetThenLowerBill` | internal/db/dbgen/cost_lifecycle.sql.go:14-31 | With a reset it happens: commit 10, a new day's window, a late bill of 4; the correction of -6 is cut off at zero. |
| `BudgetRules.FirstWins` | internal/cost/cost.go:623-695 | Any sequence of commits and releases of a reservation has the effect of its first call. |
| `MoneyRuns.StepIsOps` | internal/jobs/worker.go:477-720 | Every action of the system moves budgets, holds, reservations and events exactly as a short list of cost transactions does. |
| `MoneyRuns.SpentIsExplained` | internal/db/dbgen/cost_lifecycle.sql.go:300-353 | In every interleaving, until a reset, a budget has spent its initial amount plus what its finalized holds were charged. |
| `MoneyRuns.LimitHolds` | internal/db/dbgen/cost.sql.go:225-249 | In every interleaving, resets included, a budget with a fixed limit never has reserved plus spent above the limit plus what actuals exceeded their holds by. |
| `MoneyRuns.ClampsNeedAReset` | internal/db/dbgen/cost_lifecycle.sql.go:14-31 | In every interleaving, until a reset of the budget, no late correction of any reservation is cut off on it. |
| `LateBilling.OrderIndependence` | internal/cost/cost.go:484-569 | For any interleaving of cost events, commits, releases and reconciles that ends caught up, all money rows equal those of the run in which every event came first. |
| `LateBilling.MovedByDue` | internal/cost/cost.go:623-774 | Each held budget and the identity have then moved by exactly the amount due, once per hold. |
| `LateBilling.SettledStays` | internal/db/dbgen/cost_lifecycle.sql.go:385-414 | A finalization or reconcile settles its reservation at the amount due, and no other transaction unsettles it except a new reported cost. |
| `LedgerColumns.FinalizeOnColumns` | internal/cost/cost.go:623-774 | A commit or release over every table: reservation, holds, budgets, the job's stamped actual and the identity totals; any other call changes nothing. |
| `LedgerColumns.ReconcileOnColumns` | internal/cost/cost.go:484-569 | A late reconcile over every table, budgets cut off at zero; any other call changes nothing. |
| `LedgerColumns.ReportedIsSum` | internal/db/dbgen/cost_lifecycle.sql.go:576-597 | What counts as reported: the job's own events for that reservation that carry a cost and are not inferred. |
| `LateBilling.FinalizeStamps` | internal/cost/cost.go:776-808 | The reservation's latest event, or a fallback event when it has none, carries the estimate, the ending and, where nothing was reported, the inferred charge; no other event changes. |
| `LateBilling.EstimateOrderDependence` | internal/db/dbgen/cost_lifecycle.sql.go:708-755 | The identity's estimated total, unlike the actual one, equals that of the run billed first if and only if the first transition commits, or a cost was reported before it or was in the ledger already, or none is ever reported. |
| `LateBilling.ReleasedThenBilled` | internal/db/dbgen/cost_lifecycle.sql.go:708-755 | The run that shows it: release, then a reported bill, then a reconcile; the estimated total is 0 where billing first gives the estimate, the actual total is the same. |
| `RouteWalk.WalkOutcome` | internal/jobs/worker.go:1430-1516 | A walk calls registered routes in order, each at most once, going on only after plain failures; each way it can end is characterized by the calls made and their answers. |
| `RouteWalk.CapUnderRaces` | internal/jobs/worker.go:1446-1479 | With n workers racing on one job the calls made never exceed the cap plus n - 1; one worker at a time never exceeds it. |
| `RouteWalk.CapHoldsExactlyAlone` | internal/jobs/worker.go:1446-1479 | The cap bounds the calls under every interleaving of n idle workers from a count within it if and only if n is at most 1, or the cap was already used up. |
| `RouteWalk.RacesReachTheBound` | internal/jobs/worker.go:1446-1479 | From any count below the cap any n workers can reach the cap plus n - 1: count and insert are separate statements. |
| `RouteWalk.CapCoversThePlan` | internal/jobs/worker.go:1531-1543 | The cap is three calls per priced unit or per pack role, whichever are more, at least one unit, and two for a preview-first job. |
| `Idempotency.KeyedOnce` | internal/db/dbgen/idempotency_keys.sql.go:24-75 | Over any run with a non-decreasing clock, while a record is live every later call under its key writes nothing and gets the same job, or a conflict when endpoint or hash differ. |
| `Idempotency.CreationRecorded` | internal/jobs/service.go:595-625 | The call that creates a job becomes its key's record, for 24 hours from its own clock. |
| `Idempotency.ExpiredNeverBlocks` | internal/db/dbgen/idempotency_keys.sql.go:57-75 | In every reachable state a call whose key has only an expired record creates a job and becomes the record. |
| `Idempotency.RunKeepsInv` | internal/db/dbgen/idempotency_keys.sql.go:57-75 | At most one record per (token, key), each naming an existing job, after any run. |
| `Idempotency.LiveRecordAnswers` | internal/jobs/service.go:467-490 | A live record answers the call on every create path and nothing is written. |
| `Idempotency.NoLiveRecordCreates` | internal/jobs/service.go:382-641 | Without a live record a call creates exactly one job and takes the key; only the cap refuses it, and then nothing is left behind. |
| `Idempotency.EnqueueOutcomes` | internal/jobs/service.go:382-641 | A call that meets no live record and no cap is accepted, with its job queued and the estimate held, exactly when it is affordable and the queue accepts; failed, released and undone exactly when the queue refuses; refused, for want of a price or of budget, exactly when it is not affordable. |
| `Idempotency.CapRefuses` | internal/jobs/service.go:492-509 | It is refused for concurrency exactly when the token has at least the cap's number of queued, running and previewed jobs. |
| `Idempotency.ReuseOutcome` | internal/jobs/service.go:757-1004 | A cache hit or all-hits pack lands as one completed job with the reused assets, no cost and no hold. |
| `Idempotency.ReplayTells` | internal/jobs/service.go:1064-1137 | What a replay answers, by the record and the job's present row. |
| `Idempotency.ReplayTooLate` | internal/jobs/service.go:1064-1104 | A record that expires before the replay read is reported as gone. |
| `Idempotency.RefusalsReplay` | internal/jobs/service.go:1105-1137 | The replay of a request its pre-flight refused is refused again, for the same reason. |
| `Idempotency.CapRespected` | internal/jobs/service.go:492-509 | An accepted job takes its token to the concurrency cap at most. |
| `Idempotency.LiveRecordKept` | internal/db/dbgen/idempotency_keys.sql.go:57-75 | A record live at the start of any transaction is still the key's record at its end. |
| `PackFanout.Resumable` | internal/jobs/worker_pack.go:198-267 | However often runs crash and repeat: at most one item per role, no provider call for a role that has one, none after the stored call. |
| `PackFanout.ResumedEndsExactly` | internal/jobs/worker_pack.go:269-361 | From a pack with unique items and distinct roles to generate, after any number of crashed runs, the run that finishes records delivered and missing roles exactly and ends completed, completed with warnings or failed as all, some or none were delivered. |
| `PackFanout.RequestedPacksEndExactly` | internal/http/handlers/packs_handler.go:127-143 | The same for every list of roles a request may carry, repeated roles included: the handler has removed the repeats. |
| `PackFanout.DistinctMeans` | internal/http/handlers/packs_handler.go:127-143 | The handler keeps every requested role exactly once, in the order of first occurrence. |
| `PackFanout.ExactExactlyWhenDistinct` | internal/jobs/worker_pack.go:205-267 | Why that matters: on a list as stored, the ending is exact whatever happens to the roles if and only if no role still to be generated occurs twice. |
| `PackFanout.DuplicatesWarn` | internal/jobs/worker_pack.go:223-267 | Otherwise a repeated role is called for twice, first with a stored item and then with a refused one, every role keeps one item, and the pack warns although nothing is missing. |
| `PackFanout.RefusedReport` | internal/jobs/worker_pack.go:237-255 | A rejected or capped run fails the job and records only the roles before the first refused one; that record is exact if and only if no later role had an item when the run began. |
| `PackFanout.RefusedExactly` | internal/jobs/worker_pack.go:237-255 | A run ends refused if and only if some position is the first whose role is generated and refused. |
| `PackFanout.CutOff` | internal/jobs/worker_pack.go:228-267 | How a run that ends early leaves the pack, by what ended it: a crash, another writer, a rejection or the cap. |
| `PackFanout.ClosingOrder` | internal/jobs/worker_pack.go:269-361 | The order of the closing writes, and what a run cut off between them leaves. |
| `PackFanout.FinishedStays` | internal/jobs/worker_pack.go:88-122 | A run on a completed or cancelled job changes nothing; on a failed one it fails the pack. |
| `PackFanout.CrashedFailureCorrected` | internal/jobs/worker_pack.go:93-105 | A run that crashed between failing the job and failing the pack is put right by any later delivery. |
| `PackFanout.PlanDecides` | internal/http/handlers/packs_handler.go:127-143 | A list is refused for an empty key anywhere, or for naming more than twelve keys, and planned otherwise. |
| `PackFanout.ReusedReportedMissing` | internal/jobs/worker_pack.go:237-255 | A pack that reuses its second role and whose first is rejected reports both as missing. |
| `Flood.FloodBackdrop` | internal/imaging/chromakey.go:492-531 | A pixel is marked exactly when a 4-connected walk of weak or strong pixels joins it to a strong border pixel; each pixel is queued at most once. |
| `EdgeBand.EdgeDistance` | internal/imaging/chromakey.go:443-486 | Each pixel's Manhattan distance to the nearest seed where it lies in [1, radius], and 0 everywhere else; no label exceeds radius + 1 on the way. |
| `ChromaKey.EnclosedStaysOpaque` | internal/imaging/chromakey.go:289-317 | A weak or strong pixel the flood does not reach keeps alpha 255. |
| `ChromaKey.BackdropOnColours` | internal/imaging/chromakey.go:231-262 | A pixel is cut out exactly when a 4-connected path of backdrop-coloured pixels joins it to a saturated border pixel of the key's hue, stated on hue offsets and chroma. |
| `ChromaKey.GatesInOrder` | internal/imaging/chromakey.go:264-355 | Which outcome an image gets: the four gates in order, each on the share of pixels it compares. |
| `ChromaKey.SoftOnlyAtTheRim` | internal/imaging/chromakey.go:289-317 | Outside the backdrop alpha is below 255 only on subject pixels 4-adjacent to it. |
| `ChromaKey.SoftMeansChromaOutOfBand` | internal/imaging/chromakey.go:241-257 | Such a pixel was kept out of the backdrop classes by its chroma, not its hue. |
| `ChromaKey.BandMeasuresBackdrop` | internal/imaging/chromakey.go:357-358 | The edge band's seeds are exactly the flooded pixels. |
| `ChromaKey.BandMeasuresTransparent` | internal/imaging/chromakey.go:439-454 | The band measures distance to every transparent pixel, as its comment says, if and only if no pixel that touches the backdrop from outside has a hue within the tolerance, or less than half a step of the ramp outside it (or the radius is below 1). |
| `ChromaKey.ClearRimPixelMarked` | internal/imaging/chromakey.go:439-454 | At such a pixel the band says 1 where the comment's distance is 0. |
| `ChromaKey.FaintRimMisjudged` | internal/imaging/chromakey.go:304-358 | A four-pixel image with a faint rim pixel passes every gate of the default options and gets such a band. |
| `ChromaKey.EnclosedCountsAsNear` | internal/imaging/chromakey.go:264-331 | Every enclosed key pixel of the second gate is also counted by the third. |
| `ChromaKey.DespillBand` | internal/imaging/chromakey.go:360-383 | Despill acts exactly on pixels that lost opacity or lie within the radius of the backdrop. |
| `ChromaKey.SoftAlphaRamps` | internal/imaging/chromakey.go:308-316 | The matte is 255 times the ramp, rounded, and never more transparent farther from the key. |
| `ChromaKey.WeightFades` | internal/imaging/chromakey.go:371-383 | Despill is full on and next to the cut and fades with distance and opacity. |
| `Retrieval.OrderIndependence` | internal/assets/retrieval.go:192-292 | With distinct ids the decision does not depend on the order or repetition of candidates. |
| `Retrieval.RelaxingKeepsHits` | internal/assets/retrieval.go:117-171 | Relaxing the policy never changes a hit already found: same asset, match type and score. |
| `Retrieval.PoliciesKeepPromises` | internal/assets/retrieval.go:41-171 | What each policy string promises: an exact hit as it is under all; generation without a look at candidates under none; a compatible, a preview or any usable candidate under the others, in that preference, and generation only when there is none; an error for anything else. |
| `Retrieval.SubstitutesAreSafe` | internal/assets/retrieval.go:192-319 | A substitute is a ready non-anchor asset of another key; an invalid one is served only under any_existing when nothing qualifies. |
| `Retrieval.GeneratesOnlyWhenForced` | internal/assets/retrieval.go:145-180 | Generation is required exactly when no candidate is usable under the policy. |
| `Retrieval.BestIsFirstLeast` | internal/assets/retrieval.go:275-292 | The winner is what a stable sort puts first: nothing precedes it and it precedes all before it. |
| `Retrieval.WinnerIsPreferred` | internal/assets/retrieval.go:275-292 | The winner has the highest tier, then score, then the lowest fallback rank, then the lowest id. |
| `Compatibility.StrictNeedsItsKey` | internal/assets/compatibility.go:45-93 | A strict or unknown variant, on either side, is matched by its own key and by nothing else. |
| `Compatibility.ScoresFollowTiers` | internal/assets/compatibility.go:75-225 | Scores rank as tiers do, and an exact verdict means equal keys. |
| `Compatibility.OneWaySubstitution` | internal/assets/compatibility.go:95-190 | Verdicts differ between the two directions only for establishing previews and fallback-unsafe faces. |
| `Compatibility.PlacesWithoutContradiction` | internal/assets/compatibility.go:157-225 | Differing places of one family substitute exactly when time, weather or crowd do not contradict. |
| `Compatibility.FacesWithoutContradiction` | internal/assets/compatibility.go:95-155 | Warm and tense never substitute for each other; a side profile is only ever a preview. |
| `Compatibility.FaceMatrix` | internal/assets/compatibility.go:95-155 | The whole matrix of faces between different keys, with every score. |
| `Compatibility.PlaceMatrix` | internal/assets/compatibility.go:157-225 | The whole matrix of places between different keys, with every score. |
| `Compatibility.UnknownIsStrict` | internal/assets/compatibility.go:75-93 | A key outside the vocabulary, or any other entity type, is matched by its own key only. |
| `RateLimit.CountersStayExact` | internal/ratelimit/redis.go:26-32 | Every counter holds the number of calls of its aligned window and does not expire inside it. |
| `RateLimit.AnswersByCounting` | internal/ratelimit/ratelimit.go:94-131 | The limiter answers as if it counted each aligned window itself. |
| `RateLimit.AnswerOnTheClock` | internal/ratelimit/ratelimit.go:94-131 | Admitted exactly when neither the calls of the clock minute nor those of the clock hour exceed their limit; each window's limit, remainder and reset second. |
| `RateLimit.ExpirySetOnce` | internal/ratelimit/redis.go:26-32 | A counter expires a window's length after the first call it counts. |
| `RateLimit.WindowBound` | internal/ratelimit/ratelimit.go:94-131 | No aligned minute or hour admits more than its limit. |
| `RateLimit.SlidingBound` | internal/ratelimit/ratelimit.go:14-18 | Any interval of one window's length admits at most twice the limit. |
| `RateLimit.SlidingBoundIsTight` | internal/ratelimit/ratelimit.go:14-18 | Twice the limit is reached across a window boundary, for every limit of either type where the other type's limit leaves room. |
| `RateLimit.RetryAfterIsLeast` | internal/ratelimit/ratelimit.go:116-129 | Retry-After is the least whole number of seconds after which the blocking window, the hour's if both block, has rolled over. |
| `HashCollisions.ArtifactsCollideExactly` | internal/assets/artifact_hash.go:66-94 | An artifact request shares its preimage with a request for another artifact if and only if, of two neighbouring identifiers, one contains the newline and label (with a one-line field before it where there is one) that separate them; at the very end of the variant key it does not count. |
| `HashCollisions.GenerationsCollideExactly` | internal/assets/generation_hash.go:86-121 | The same for generations, or the labels of another number of anchors occur in the identifiers' text in order. |
| `HashCollisions.RecountNeedsLabel` | internal/assets/generation_hash.go:94-103 | The last case needs the label of the anchor count inside some identifier. |
| `HashCollisions.ArtifactPreimageInjective` | internal/assets/artifact_hash.go:66-94 | A request whose identifiers carry no newline shares its preimage with no other request, whatever that one contains. |
| `HashCollisions.GenerationPreimageInjective` | internal/assets/generation_hash.go:86-121 | The same for generations, anchor count, order and content included. |
| `HashCollisions.NewlinesCollide` | internal/assets/generation_hash.go:86-121 | anchor_asset_id and derive_from, both supplied by the caller, can trade text for an identity without anchors. |
| `HashCollisions.ArtifactNewlinesCollide` | internal/assets/artifact_hash.go:76-79 | So can world_id and artifact_id. |
| `HashCollisions.VariantNewlinesCollide` | internal/assets/artifact_hash.go:76-79 | So can the quality tier and the variant key. |
| `HashCollisions.AnchorsCollide` | internal/assets/generation_hash.go:94-103 | A request without anchors and one with a single anchor can share a preimage. |
| `CutText.TwoCuttings` | internal/assets/artifact_hash.go:106-111 | Two different ways to cut one text at the same labels put a mark of the second inside free text of the first. |
| `HashPreimage.VocabulariesNeverMeet` | internal/assets/generation_hash.go:34-44 | A generation and an artifact never share a preimage, whatever their fields contain. |
| `HashPreimage.ArtifactLines` | internal/assets/artifact_hash.go:66-94 | The artifact text line by line, labels and defaults included. |
| `HashPreimage.GenerationLines` | internal/assets/generation_hash.go:86-121 | The generation text line by line, anchors numbered from 0. |
| `HashPreimage.QuantizeIsNearest` | internal/assets/generation_hash.go:108-118 | The pixel budget is the nearest hundredth, the even one of two equally near, and 4.00 when unset. |
| `LabelledText.HundredthsReadBack` | internal/assets/generation_hash.go:108-118 | Written with two decimals and read back, a budget is itself. |
| `LabelledText.RenderInjective` | internal/assets/artifact_hash.go:106-111 | Labelled, newline-ended lines determine their labels and values. |
| `LabelledText.NormalizeIsCanonical` | internal/assets/artifact_hash.go:96-104 | Normalizing twice changes nothing, and two texts normalize alike exactly when their words agree. |
| `LabelledText.NormalizeIsOneLine` | internal/assets/artifact_hash.go:96-104 | The normal form is one line with single blanks between words. |
| `Store.Store.Reserve` | internal/cost/cost.go:114-219 | The pre-flight transaction, equal to the specification the ledger laws are proved about; granted exactly when affordable over the columns. |
| `Store.Store.Finalize` | internal/cost/cost.go:623-774 | The guarded terminal transition of one reservation: equal to the specification the ledger laws are proved about. |
| `Store.Store.Reconcile` | internal/cost/cost.go:484-569 | Replaces a terminal reservation's actual by the reported sum and propagates the delta to budgets and identity: equal to its specification. |
| `Store.Store.InsertFinalAssetAndCompleteJob` | internal/jobs/guarded_persist.go:65-156 | Inserts the final asset and completes the job under the row lock, or reports why not. |
| `Store.Store.InsertPreviewAssetAndMarkPreviewReady` | internal/jobs/guarded_persist.go:175-266 | Inserts the preview and moves a running job to preview_ready, or reports why not. |
| `Store.Store.CreateJob` | internal/jobs/service.go:511-560 | The create transaction: job, reservation and the link; a denied pre-flight commits a failed job. |
| `Store.Store.EnqueueCleanup` | internal/jobs/service.go:1326-1394 | Fails the job and releases its reservation, guarded by the reservation. |
| `Store.Store.CancelJob` | internal/adminjobs/adminjobs.go:80-153 | Cancels a queued, running or previewed job and releases its reservation, closes a cancelled one again, and refuses a finished one. |
| `Store.Store.RetryJob` | internal/adminjobs/adminjobs.go:166-244 | Reopens a failed job on a new reservation, or reports the denial and leaves everything as it was; any other job is refused. |
| `RouteWalk.Attempts.GenerateWithFallback` | internal/jobs/worker.go:1430-1516 | The loop computes the specified walk. |
| `Idempotency.Service.InsertIdempotencyKey` | internal/db/dbgen/idempotency_keys.sql.go:57-92 | Inserts, or takes an expired row over in place; a live row wins. |
| `Idempotency.Service.CreateAndEnqueueJob` | internal/jobs/service.go:382-641 | Lookup, cap, create, reserve, record and enqueue, in that order; a lost race undoes all of it. |
| `Idempotency.Service.CreateCompletedJob` | internal/jobs/service.go:757-1004 | A cache hit or all-hits pack lands completed with its record, or neither. |
| `PackFanout.DedupVariants` | internal/http/handlers/packs_handler.go:127-143 | The handler's loop computes that list, or refuses an empty key or more than twelve distinct ones. |
| `PackFanout.PackJob.ProcessPack` | internal/jobs/worker_pack.go:65-361 | One delivery of the pack task, crash points included, equal to its specification; a run that finds the job moved by another writer stops and writes nothing more. |
| `ChromaKey.Matte` | internal/imaging/chromakey.go:289-317 | The alpha mask of the flooded image. |
| `ChromaKey.Key` | internal/imaging/chromakey.go:202-395 | The whole pipeline: errors, evidence, gates in order, and what a keyed image carries. |
| `Retrieval.Retrieve` | internal/assets/retrieval.go:117-171 | The whole decision, error cases included, and what each policy string serves from. |
| `RateLimit.Limiter.Allow` | internal/ratelimit/ratelimit.go:94-131 | Counts both windows and decides. |
| `HashPreimage.GenerationText` | internal/assets/generation_hash.go:86-117 | The builder writes the specified text, anchors in a loop. |
| `HashPreimage.ArtifactText` | internal/assets/artifact_hash.go:66-90 | The builder writes the specified text. |

## Left out

- Lifecycle: tasks without a reservation id and the lightweight repository fallbacks, which carry no fencing.
- Workers: a failed write of a transaction whose error the worker returns, which is a crash at that point.
- Lifecycle: that finishCancelled and the failure paths emit webhooks, and that attempts are recorded as succeeded or failed; neither is read by a modelled step.
- RouteWalk: what the call cap means inside the interleavings of Workers, where a provider walk is any sequence of billed failures ended by a success or by giving up.
- Idempotency.KeyedOnce: other transactions between a lost race and the replay read that follows it; the two read the same state here, at two instants.
- Idempotency: worker and admin transactions appear as arbitrary steps that insert no job; that an enqueue is refused after another worker has already moved the job is covered in Workers.
- PackFanout.Resumable: runs taken one at a time, without forced regeneration, whose supersede queries are not part of this model.
- PackFanout.PackJob.GeneratePackItem: a failed item counts as one provider call, whether or not it got that far, and the fallback walk inside a call is RouteWalk's.
- PackFanout.PackJob.ProcessPack: does not model cost events, reservations or the reservation guard of the pack's job writes, which are in Workers; of what another writer does it takes in the state it gives the job, not what that writer records on the pack.
- PackFanout.DedupVariants: template lookup and caller-authored prompts, which only choose the list it is given.
- RateLimit.CountersStayExact: one clock for the limiter and the store. It does not cover a delay between reading the clock and running the counter script that crosses a window boundary, several servers' clocks, and store errors, on which the caller fails open.
- Compatibility: the variant vocabularies, which are fixed data and enter as a parameter.
- Retrieval: the world-state safety filter, a stub that accepts everything.
- ChromaKey: colour arithmetic (chroma of a pixel, hue detection on the border, despill of a pixel), image decoding and floating-point rounding.
- HashPreimage: SHA-256, and NaN or infinite pixel budgets.
- worstCaseBillableUnits, same-price fallback selection and the price lookup: the estimate is an input of the create transaction.
- Supersede SQL, row-level security, HTTP handlers, authentication, storage, provider adapters, webhooks, telemetry, migrations and the playground.
