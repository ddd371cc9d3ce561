/** What each transaction on a generation job does, as functions of the tables.

A guard is the WHERE clause of a compare-and-set update; a transaction whose
guard is false leaves the tables as they are.
*/
module JobTransactions {
  import opened Rows
  import opened CostLedger

  predicate Live(s: JobStatus) {
    s in {Queued, Running, PreviewReady}
  }

  // Guarded status transitions ------------------------------------------------------

  predicate RunningGuard(db: Db, j: JobId, r: ReservationId) {
    JobAt(db, j, r) && db.jobs[j].status == Queued
  }

  function MarkRunning(db: Db, j: JobId, r: ReservationId): Db {
    if RunningGuard(db, j, r) then db.(jobs := db.jobs[j := db.jobs[j].(status := Running)]) else db
  }

  predicate ClaimGuard(db: Db, j: JobId, r: ReservationId) {
    JobAt(db, j, r) && db.jobs[j].status in {PreviewReady, Queued}
    && db.jobs[j].previewAssets != [] && db.jobs[j].finalAssets == [] && !db.jobs[j].finalizationClaimed
  }

  function ClaimPreviewFinalization(db: Db, j: JobId, r: ReservationId): Db {
    if !ClaimGuard(db, j, r) then db
    else
      var job := db.jobs[j];
      db.(jobs := db.jobs[j := job.(status := if job.status == Queued then Running else job.status, finalizationClaimed := true)])
  }

  predicate FailGuard(db: Db, j: JobId, r: ReservationId) {
    JobAt(db, j, r) && Live(db.jobs[j].status)
  }

  function MarkFailed(db: Db, j: JobId, r: ReservationId): Db {
    if FailGuard(db, j, r) then db.(jobs := db.jobs[j := db.jobs[j].(status := JobFailed)]) else db
  }

  predicate CompleteGuard(db: Db, j: JobId, r: ReservationId) {
    JobAt(db, j, r) && db.jobs[j].status in {Running, PreviewReady}
  }

  function MarkCompleted(db: Db, j: JobId, r: ReservationId, assets: seq<AssetId>): Db {
    if CompleteGuard(db, j, r) then db.(jobs := db.jobs[j := db.jobs[j].(status := Completed, finalAssets := assets)]) else db
  }

  // Guarded persistence ---------------------------------------------------------------

  /** NotActive is the error return for a job that is not running. */
  datatype PersistOutcome =
    | Persisted | SkippedCancelled | AlreadyCompleted | AlreadyPreviewReady | AlreadyTerminal | NotActive

  /** Outcome of the final write under the job row lock. */
  function FinalOutcome(db: Db, j: JobId, r: ReservationId): PersistOutcome {
    if !JobAt(db, j, r) then AlreadyTerminal
    else
      match db.jobs[j].status
      case Cancelled => SkippedCancelled
      case Completed => AlreadyCompleted
      case JobFailed => AlreadyTerminal
      case Running => Persisted
      case PreviewReady => Persisted
      case Queued => NotActive
  }

  function PreviewOutcome(db: Db, j: JobId, r: ReservationId): PersistOutcome {
    if !JobAt(db, j, r) then AlreadyTerminal
    else
      match db.jobs[j].status
      case Cancelled => SkippedCancelled
      case PreviewReady => AlreadyPreviewReady
      case Completed => AlreadyCompleted
      case JobFailed => AlreadyTerminal
      case Running => Persisted
      case Queued => NotActive
  }

  function CallEvent(j: JobId, r: ReservationId, cost: Option<nat>, status: EventStatus): CostEvent {
    CostEvent(j, r, None, cost, false, status)
  }

  /** insertFinalAssetAndCompleteJob */
  function PersistFinal(db: Db, j: JobId, r: ReservationId, cost: Option<nat>): Db {
    if FinalOutcome(db, j, r) != Persisted then db
    else db.(assets := db.assets + [Asset(j, FinalAsset)],
             jobs := db.jobs[j := db.jobs[j].(status := Completed, finalAssets := [|db.assets|])],
             events := db.events + [CallEvent(j, r, cost, EventCompleted)])
  }

  /** insertPreviewAssetAndMarkPreviewReady */
  function PersistPreview(db: Db, j: JobId, r: ReservationId, cost: Option<nat>): Db {
    if PreviewOutcome(db, j, r) != Persisted then db
    else db.(assets := db.assets + [Asset(j, PreviewAsset)],
             jobs := db.jobs[j := db.jobs[j].(status := PreviewReady, previewAssets := [|db.assets|])],
             events := db.events + [CallEvent(j, r, cost, EventCompleted)])
  }

  /** lockActivePackJob checks only that the job is running. */
  predicate PackItemGuard(db: Db, j: JobId) {
    j < |db.jobs| && db.jobs[j].status == Running
  }

  function PersistPackItem(db: Db, j: JobId, r: ReservationId, cost: Option<nat>): Db {
    if !PackItemGuard(db, j) then db
    else db.(assets := db.assets + [Asset(j, PackItemAsset)],
             events := db.events + [CallEvent(j, r, cost, EventCompleted)])
  }

  // Create, cancel, retry ----------------------------------------------------------------

  /** What a request fixes about its job for good. */
  datatype Request = Request(kind: JobKind, previewFirst: bool, identity: Option<IdentityId>, scope: Scope)

  function QueuedJob(q: Request): Job {
    Job(q.kind, q.previewFirst, q.identity, q.scope, Queued, None, [], [], false, None)
  }

  /** The create transaction: job, reservation and the link between them. */
  function Create(db: Db, q: Request, estimate: Option<nat>, clock: Clock): Db {
    var j := |db.jobs|;
    var reserved := Reserve(db.(jobs := db.jobs + [QueuedJob(q)]), j, q.scope, estimate, clock);
    var r := |db.reservations|;
    reserved.(jobs := db.jobs + [QueuedJob(q).(
      reservation := Some(r),
      status := if reserved.reservations[r].status == Reserved then Queued else JobFailed)])
  }

  /** A cache-hit or pack-reuse job is born completed, without a reservation. */
  function CreateCompleted(db: Db, q: Request, reused: seq<AssetId>): Db {
    db.(jobs := db.jobs + [QueuedJob(q).(status := Completed, finalAssets := reused, actualCost := Some(0))])
  }

  /** Clean-up after a failed enqueue: all or nothing, guarded by the reservation. */
  function EnqueueCleanup(db: Db, j: JobId, r: ReservationId): Db {
    if FailGuard(db, j, r) then FinalizeForJob(MarkFailed(db, j, r), j, ToReleased) else db
  }

  datatype AdminOutcome = Done | NotFound | InvalidState | ReservationDenied

  function CancelOutcome(db: Db, j: JobId): AdminOutcome {
    if j >= |db.jobs| then NotFound
    else if db.jobs[j].status in {Completed, JobFailed} then InvalidState
    else Done
  }

  function Cancel(db: Db, j: JobId): Db {
    if CancelOutcome(db, j) != Done then db
    else FinalizeForJob(db.(jobs := db.jobs[j := db.jobs[j].(status := Cancelled)]), j, ToReleased)
  }

  function RetryReservation(db: Db, j: JobId, estimate: Option<nat>, clock: Clock): Db
    requires j < |db.jobs|
  {
    Reserve(FinalizeForJob(db, j, ToReleased), j, db.jobs[j].scope, estimate, clock)
  }

  function RetryOutcome(db: Db, j: JobId, estimate: Option<nat>, clock: Clock): AdminOutcome {
    if j >= |db.jobs| then NotFound
    else if db.jobs[j].status != JobFailed then InvalidState
    else
      var out := RetryReservation(db, j, estimate, clock);
      if |db.reservations| < |out.reservations| && out.reservations[|db.reservations|].status == Reserved then Done else ReservationDenied
  }

  /** Reopen a failed job under a fresh reservation; a denial rolls everything back. */
  function Retry(db: Db, j: JobId, estimate: Option<nat>, clock: Clock): Db {
    if RetryOutcome(db, j, estimate, clock) != Done then db
    else
      var out := RetryReservation(db, j, estimate, clock);
      out.(jobs := out.jobs[j := out.jobs[j].(
        status := Queued, finalizationClaimed := false, finalAssets := [],
        reservation := Some(|db.reservations|), actualCost := None)])
  }
}
