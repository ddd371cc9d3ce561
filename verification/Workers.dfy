/** The job lifecycle as a transition system.

Every database transaction is one atomic step. A worker is a process with the
reservation id its task carries, the job snapshot it read first, and a program
counter that says which transaction comes next. Tasks may be delivered any
number of times, with any retry count, before or after anything else; a worker
may stop at any point; provider calls succeed, fail and bill as they like.
*/
module Workers {
  import opened Rows
  import opened CostLedger
  import opened JobTransactions

  datatype Phase = PreviewPhase | FinalPhase | PackPhase

  /** Where a worker goes on after recording a discarded provider success. */
  datatype After = ThenStop | ThenClaimFinal | ThenCheckCancelled

  datatype Pc =
    | Start
    | Claim
    | Plan
    | Generate(phase: Phase)
    | Persist(phase: Phase, cost: Option<nat>)
    | BillDiscarded(cost: Option<nat>, after: After)
    | ReconcileDiscarded(after: After)
    | CheckCancelled
    | ClaimFinal
    | CompletePack(assets: seq<AssetId>)
    | FailJob
    | CommitHold
    | ReleaseHold
    | Stopped

  /**
   * What the outside world does at a worker's next step. A cost event written outside a
   * transaction is best effort: `written` says whether it got there.
   */
  datatype Choice =
    | Proceed
    | Refuse                                      // unusable route, pixel budget or references
    | CallFailed(callCost: Option<nat>)           // a route failed, possibly billed
    | CallSucceeded(callCost: Option<nat>)
    | GiveUp(terminal: bool)                      // every route failed
    | StoreFailed(terminal: bool, written: bool)  // validation, upload or insert failed
    | FinishPack(delivered: seq<AssetId>, written: bool)
    | WriteFailed                                 // a best-effort write failed, and the worker goes on
    | Crash

  /** `task` is the reservation id in the queue payload. */
  datatype Worker = Worker(job: JobId, task: ReservationId, retry: nat, snapshot: Job, pc: Pc)

  function Goto(w: Worker, pc: Pc): Worker {
    w.(pc := pc)
  }

  predicate TwoPhase(job: Job) {
    job.kind == SingleImage && job.previewFirst
  }

  /** GetByID and the epoch check, then the terminal short-circuits. */
  function StepStart(db: Db, w: Worker): Worker {
    if !JobAt(db, w.job, w.task) then Goto(w, Stopped)
    else
      var job := db.jobs[w.job];
      var pc :=
        match job.status
        case Completed => CommitHold
        case JobFailed => ReleaseHold
        case Cancelled => ReleaseHold
        case _ => if TwoPhase(job) && job.previewAssets != [] then Plan else Claim;
      w.(snapshot := job, pc := pc)
  }

  /** claimQueuedJob */
  function StepClaim(db: Db, w: Worker): (Db, Worker) {
    if w.snapshot.status == Queued then
      (MarkRunning(db, w.job, w.task), Goto(w, if RunningGuard(db, w.job, w.task) then Plan else Stopped))
    else
      (db, Goto(w, if w.snapshot.status == Running && w.retry > 0 then Plan else Stopped))
  }

  function StepPlan(w: Worker, c: Choice): Worker {
    if c == Refuse then Goto(w, FailJob)
    else if c != Proceed then w
    else if w.snapshot.kind == Pack then Goto(w, Generate(PackPhase))
    else if !w.snapshot.previewFirst then Goto(w, Generate(FinalPhase))
    else if w.snapshot.previewAssets == [] then Goto(w, Generate(PreviewPhase))
    else Goto(w, ClaimFinal)
  }

  /** One provider call of generateWithFallback, or the end of the walk. */
  function StepGenerate(db: Db, w: Worker, phase: Phase, c: Choice): (Db, Worker) {
    match c
    case CallFailed(cost) => (InsertEvent(db, CallEvent(w.job, w.task, cost, EventFailed)), w)
    case CallSucceeded(cost) => (db, Goto(w, Persist(phase, cost)))
    case GiveUp(terminal) => (db, Goto(w, if terminal then FailJob else Stopped))
    case FinishPack(delivered, written) =>
      if phase != PackPhase then (db, w)
      else
        // The aggregate pack event, then the terminal transition.
        var event := CallEvent(w.job, w.task, None, if delivered == [] then EventFailed else EventCompleted);
        (if written then InsertEvent(db, event) else db, Goto(w, if delivered == [] then FailJob else CompletePack(delivered)))
    case _ => (db, w)
  }

  /** The write under the job row lock, and what each outcome leads to. */
  function StepPersist(db: Db, w: Worker, phase: Phase, cost: Option<nat>, c: Choice): (Db, Worker) {
    match c
    case StoreFailed(terminal, written) =>
      (if written then InsertEvent(db, CallEvent(w.job, w.task, cost, EventFailed)) else db,
       Goto(w, if terminal then FailJob else if phase == PackPhase then Generate(PackPhase) else Stopped))
    case Proceed =>
      match phase {
        case PackPhase =>
          (PersistPackItem(db, w.job, w.task, cost),
           Goto(w, if PackItemGuard(db, w.job) then Generate(PackPhase) else BillDiscarded(cost, ThenCheckCancelled)))
        case PreviewPhase =>
          var outcome := PreviewOutcome(db, w.job, w.task);
          if outcome == NotActive then (InsertEvent(db, CallEvent(w.job, w.task, cost, EventFailed)), Goto(w, Stopped))
          else (PersistPreview(db, w.job, w.task, cost), Goto(w, AfterPreview(outcome, cost)))
        case FinalPhase =>
          var outcome := FinalOutcome(db, w.job, w.task);
          if outcome == NotActive then (InsertEvent(db, CallEvent(w.job, w.task, cost, EventFailed)), Goto(w, Stopped))
          else (PersistFinal(db, w.job, w.task, cost), Goto(w, AfterFinal(outcome, cost)))
      }
    case _ => (db, w)
  }

  function AfterPreview(outcome: PersistOutcome, cost: Option<nat>): Pc {
    match outcome
    case Persisted => ClaimFinal
    case SkippedCancelled => BillDiscarded(cost, ThenCheckCancelled)
    case AlreadyPreviewReady => BillDiscarded(cost, ThenClaimFinal)
    case _ => BillDiscarded(cost, ThenStop)
  }

  function AfterFinal(outcome: PersistOutcome, cost: Option<nat>): Pc {
    match outcome
    case Persisted => CommitHold
    case SkippedCancelled => BillDiscarded(cost, ThenCheckCancelled)
    case _ => BillDiscarded(cost, ThenStop)
  }

  function Resume(after: After): Pc {
    match after
    case ThenStop => Stopped
    case ThenClaimFinal => ClaimFinal
    case ThenCheckCancelled => CheckCancelled
  }

  /** claimPreviewFinalization */
  function StepClaimFinal(db: Db, w: Worker): (Db, Worker) {
    if w.retry > 0 && (w.snapshot.status == Running || w.snapshot.finalizationClaimed) then
      (db, Goto(w, Generate(FinalPhase)))
    else
      (ClaimPreviewFinalization(db, w.job, w.task),
       Goto(w, if ClaimGuard(db, w.job, w.task) then Generate(FinalPhase) else Stopped))
  }

  /** finishCancelled re-reads the row: only a cancelled job is released. */
  function StepCheckCancelled(db: Db, w: Worker): Worker {
    Goto(w, if w.job < |db.jobs| && db.jobs[w.job].status == Cancelled then ReleaseHold else Stopped)
  }

  function StepWorker(db: Db, w: Worker, c: Choice): (Db, Worker) {
    if c == Crash then (db, Goto(w, Stopped))
    else
      match w.pc
      case Start => (db, StepStart(db, w))
      case Claim => StepClaim(db, w)
      case Plan => (db, StepPlan(w, c))
      case Generate(phase) => StepGenerate(db, w, phase, c)
      case Persist(phase, cost) => StepPersist(db, w, phase, cost, c)
      case BillDiscarded(cost, after) =>
        (if c == WriteFailed then db else InsertEvent(db, CallEvent(w.job, w.task, cost, EventCompleted)),
         Goto(w, ReconcileDiscarded(after)))
      case ReconcileDiscarded(after) =>
        (if c == WriteFailed then db else Reconcile(db, w.job, w.task), Goto(w, Resume(after)))
      case CheckCancelled => (db, StepCheckCancelled(db, w))
      case ClaimFinal => StepClaimFinal(db, w)
      case CompletePack(assets) =>
        (MarkCompleted(db, w.job, w.task, assets), Goto(w, if CompleteGuard(db, w.job, w.task) then CommitHold else Stopped))
      case FailJob =>
        (MarkFailed(db, w.job, w.task), Goto(w, if FailGuard(db, w.job, w.task) then ReleaseHold else Stopped))
      case CommitHold => (Finalize(db, w.job, w.task, ToCommitted), Goto(w, Stopped))
      case ReleaseHold => (Finalize(db, w.job, w.task, ToReleased), Goto(w, Stopped))
      case Stopped => (db, w)
  }

  // The whole system ----------------------------------------------------------------

  datatype Sys = Sys(db: Db, workers: seq<Worker>)

  datatype Action =
    | Deliver(job: JobId, task: ReservationId, retry: nat, blank: Job)
    | WorkerStep(who: nat, choice: Choice)
    | CreateJob(request: Request, estimate: Option<nat>, clock: Clock)
    | CacheHit(request: Request, reused: AssetId)
    | PackReuse(request: Request, items: seq<AssetId>)
    | EnqueueFailed(job: JobId, task: ReservationId)
    | CancelJob(job: JobId)
    | RetryJob(job: JobId, estimate: Option<nat>, clock: Clock)
    | EditBudget(budget: BudgetId, limit: int, status: BudgetStatus)

  function Step(s: Sys, a: Action): Sys {
    match a
    case Deliver(j, r, retry, blank) => s.(workers := s.workers + [Worker(j, r, retry, blank, Start)])
    case WorkerStep(i, c) =>
      if i >= |s.workers| then s
      else
        var (db, w) := StepWorker(s.db, s.workers[i], c);
        Sys(db, s.workers[i := w])
    case CreateJob(q, estimate, clock) => s.(db := Create(s.db, q, estimate, clock))
    case CacheHit(q, asset) => s.(db := CreateCompleted(s.db, q.(kind := SingleImage), [asset]))
    case PackReuse(q, items) => s.(db := CreateCompleted(s.db, q.(kind := Pack), items))
    case EnqueueFailed(j, r) => s.(db := EnqueueCleanup(s.db, j, r))
    case CancelJob(j) => s.(db := Cancel(s.db, j))
    case RetryJob(j, estimate, clock) => s.(db := Retry(s.db, j, estimate, clock))
    case EditBudget(b, limit, status) =>
      if b >= |s.db.budgets| then s
      else s.(db := s.db.(budgets := s.db.budgets[b := s.db.budgets[b].(limit := limit, status := status)]))
  }

  /** A system before any job: some budgets, nothing held, nothing spent below zero. */
  predicate Initial(s: Sys) {
    s.workers == [] && s.db == Db([], [], s.db.budgets, [], [], [], map[])
    && forall b :: 0 <= b < |s.db.budgets| ==> s.db.budgets[b].reserved == 0 && s.db.budgets[b].spent >= 0
  }

  function Exec(s: Sys, actions: seq<Action>): Sys {
    if |actions| == 0 then s else Step(Exec(s, actions[..|actions| - 1]), actions[|actions| - 1])
  }
}
