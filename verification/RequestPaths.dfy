/** The admin and create transactions said over the columns they read: which rows decide, and what
each outcome leaves. What an event may refer to is an invariant of every run.
*/
module RequestPaths {
  import opened Rows
  import opened CostLedger
  import opened JobTransactions
  import opened Workers
  import opened BudgetRules
  import LI = LedgerInvariants
  import LC = Lifecycle
  import LB = LateBilling
  import D = Delivery
  import M = MoneyRuns

  // Releasing -----------------------------------------------------------------------------

  /** Releasing the reservation of a failed or cancelled job: an open one is closed at what was reported, a closed one stays. */
  lemma ReleaseOnColumns(db: Db, j: JobId)
    requires LI.LedgerInv(db) && j < |db.jobs| && db.jobs[j].reservation.Some?
    ensures var r, out := db.jobs[j].reservation.value, FinalizeForJob(db, j, ToReleased);
      if r < |db.reservations| && db.reservations[r].job == j && db.reservations[r].status == Reserved then
        D.Charged(db, out, j, r, Released, ReportedTotal(db, j, r))
      else out == db
  {
    var r := db.jobs[j].reservation.value;
    if Finalizable(db, j, r) {
      D.FinalizeCharges(db, j, r, ToReleased);
    }
  }

  /** A cancel of a live job returns what its reservation held, and charges what its calls reported. */
  lemma CancelReturnsHold(db: Db, j: JobId, r: ReservationId)
    requires LC.JobInv(db) && LI.LedgerInv(db) && JobAt(db, j, r)
    requires db.jobs[j].status in {Queued, Running, PreviewReady}
    ensures r < |db.reservations| && D.Charged(db, Cancel(db, j), j, r, Released, ReportedTotal(db, j, r))
  {
    assert LC.JobOk(db, j);
    var marked := db.(jobs := db.jobs[j := db.jobs[j].(status := Cancelled)]);
    D.LaterFinalizeCharges(db, marked, j, r, ToReleased);
  }

  // Retrying ------------------------------------------------------------------------------

  /**
   * An admin retry: only a failed job can be retried, and it is exactly when, its old hold released,
   * it is affordable. It is then queued under a fresh reservation that holds the estimate on exactly
   * the rows it is held against. In every other case nothing at all is written.
   */
  lemma RetryOnColumns(db: Db, j: JobId, estimate: Option<nat>, clock: Clock, was: Db, out: Db)
    requires LC.JobInv(db) && LI.LedgerInv(db)
    requires was == FinalizeForJob(db, j, ToReleased) && out == Retry(db, j, estimate, clock)
    ensures RetryOutcome(db, j, estimate, clock) == NotFound <==> j >= |db.jobs|
    ensures RetryOutcome(db, j, estimate, clock) == InvalidState <==> j < |db.jobs| && db.jobs[j].status != JobFailed
    ensures RetryOutcome(db, j, estimate, clock) == ReservationDenied <==>
            j < |db.jobs| && db.jobs[j].status == JobFailed && !Affordable(was.budgets, db.jobs[j].scope, estimate, clock)
    ensures RetryOutcome(db, j, estimate, clock) == Done <==>
            j < |db.jobs| && db.jobs[j].status == JobFailed && Affordable(was.budgets, db.jobs[j].scope, estimate, clock)
    ensures RetryOutcome(db, j, estimate, clock) != Done ==> out == db
    ensures RetryOutcome(db, j, estimate, clock) == Done ==>
      && LC.Reopened(db, out, j) && |was.budgets| == |out.budgets| && |was.jobs| == |out.jobs| && out.assets == db.assets
      && out.jobs[j] == db.jobs[j].(status := Queued, finalizationClaimed := false, finalAssets := [],
                                    reservation := Some(|db.reservations|), actualCost := None)
      && out.reservations[|db.reservations|] == Reservation(j, estimate.value, estimate.value, None, Reserved)
      && (forall b :: 0 <= b < |was.budgets| ==>
            out.budgets[b] == if HeldAgainst(was.budgets, db.jobs[j].scope, b) then Holding(was.budgets[b], estimate.value, clock)
                              else was.budgets[b])
      && HoldsOnce(was, out, db.jobs[j].scope, estimate.value)
  {
    LC.RetryKeeps(db, j, estimate, clock);
    if j < |db.jobs| && db.jobs[j].status == JobFailed {
      LC.ReleaseForJobKeeps(db, j);
      ReserveOnColumns(was, j, db.jobs[j].scope, estimate, clock, RetryReservation(db, j, estimate, clock));
    }
  }

  // Creating ------------------------------------------------------------------------------

  /**
   * A create adds one job and one reservation and links them. Affordable, the job is queued, with the
   * estimate held on exactly the rows it is held against; otherwise it is failed, its reservation
   * denied, and no budget or hold changes.
   */
  lemma CreateOnColumns(db: Db, q: Request, estimate: Option<nat>, clock: Clock, out: Db)
    requires out == Create(db, q, estimate, clock)
    ensures var j, r, granted := |db.jobs|, |db.reservations|, Affordable(db.budgets, q.scope, estimate, clock);
      && out == db.(jobs := out.jobs, reservations := out.reservations, budgets := out.budgets, holds := out.holds)
      && out.jobs == db.jobs + [Job(q.kind, q.previewFirst, q.identity, q.scope, if granted then Queued else JobFailed,
                                    Some(r), [], [], false, None)]
      && out.reservations == db.reservations
                             + [if granted then Reservation(j, estimate.value, estimate.value, None, Reserved)
                                else Reservation(j, estimate.GetOr(0), 0, None, Denied)]
      && |out.budgets| == |db.budgets|
      && (forall b :: 0 <= b < |db.budgets| ==>
            out.budgets[b] == if granted && HeldAgainst(db.budgets, q.scope, b) then Holding(db.budgets[b], estimate.value, clock)
                              else db.budgets[b])
      && (if granted then HoldsOnce(db, out, q.scope, estimate.value) else out.holds == db.holds)
  {
    var withJob := db.(jobs := db.jobs + [QueuedJob(q)]);
    var reserved := Reserve(withJob, |db.jobs|, q.scope, estimate, clock);
    ReserveOnColumns(withJob, |db.jobs|, q.scope, estimate, clock, reserved);
  }

  // The rows each request adds --------------------------------------------------------------------

  /** Which actions add a job and what its row says at first; no request touches a worker, and a delivery adds just one. */
  lemma ActionsOnRows(s: Sys, a: Action)
    ensures var out := Step(s, a);
      && (a.CreateJob? ==> |out.db.jobs| == |s.db.jobs| + 1 && out.db.jobs[..|s.db.jobs|] == s.db.jobs
                           && out.db.jobs[|s.db.jobs|].status in {Queued, JobFailed})
      && (a.CacheHit? ==> out.db == s.db.(jobs := s.db.jobs + [Job(SingleImage, a.request.previewFirst, a.request.identity,
                                                                   a.request.scope, Completed, None, [], [a.reused], false, Some(0))]))
      && (a.PackReuse? ==> out.db == s.db.(jobs := s.db.jobs + [Job(Pack, a.request.previewFirst, a.request.identity,
                                                                    a.request.scope, Completed, None, [], a.items, false, Some(0))]))
      && (a.Deliver? ==> out.db == s.db && |out.workers| == |s.workers| + 1 && out.workers[..|s.workers|] == s.workers
                         && out.workers[|s.workers|].job == a.job && out.workers[|s.workers|].task == a.task
                         && out.workers[|s.workers|].retry == a.retry && out.workers[|s.workers|].pc == Start)
      && (!a.Deliver? && !a.WorkerStep? ==> out.workers == s.workers)
      && (!a.CreateJob? && !a.CacheHit? && !a.PackReuse? ==> |out.db.jobs| == |s.db.jobs|)
      && (a.EditBudget? && a.budget < |s.db.budgets| ==>
            out.db == s.db.(budgets := s.db.budgets[a.budget := s.db.budgets[a.budget].(limit := a.limit, status := a.status)]))
  {
    if a.RetryJob? && a.job < |s.db.jobs| {
      FinalizeKeepsJobFacts(s.db, a.job);
    }
  }

  /** An edit, a failed enqueue, a cancel and a retry are the transactions of their names. */
  lemma ActionsAreTransactions(s: Sys, j: JobId, r: ReservationId, estimate: Option<nat>, clock: Clock, q: Request)
    ensures Step(s, EnqueueFailed(j, r)).db == EnqueueCleanup(s.db, j, r) && Step(s, CancelJob(j)).db == Cancel(s.db, j)
    ensures Step(s, RetryJob(j, estimate, clock)).db == Retry(s.db, j, estimate, clock)
    ensures Step(s, CreateJob(q, estimate, clock)).db == Create(s.db, q, estimate, clock)
  {}

  // What events refer to --------------------------------------------------------------------

  /** Every cost event belongs to a reservation that exists. */
  ghost predicate EventsLinked(db: Db) {
    forall k :: 0 <= k < |db.events| ==> db.events[k].reservation < |db.reservations|
  }

  lemma OpKeepsLinks(db: Db, op: LedgerOp)
    requires EventsLinked(db) && (op.OpEvent? ==> op.event.reservation < |db.reservations|)
    ensures EventsLinked(Apply(db, op)) && |db.reservations| <= |Apply(db, op).reservations|
  {}

  lemma {:induction false} RunKeepsLinks(db: Db, ops: seq<LedgerOp>)
    requires EventsLinked(db)
    requires forall k :: 0 <= k < |ops| && ops[k].OpEvent? ==> ops[k].event.reservation < |db.reservations|
    ensures EventsLinked(Run(db, ops)) && |db.reservations| <= |Run(db, ops).reservations|
  {
    if |ops| != 0 {
      RunKeepsLinks(db, ops[..|ops| - 1]);
      OpKeepsLinks(Run(db, ops[..|ops| - 1]), ops[|ops| - 1]);
    }
  }

  /** A worker's events are its own task's, whose reservation exists. */
  lemma OwnEvents(s: Sys, a: Action)
    requires LC.SysInv(s)
    ensures forall k :: 0 <= k < |M.OpsOf(s, a)| && M.OpsOf(s, a)[k].OpEvent? ==>
              M.OpsOf(s, a)[k].event.reservation < |s.db.reservations|
  {
    if a.WorkerStep? && a.who < |s.workers| && !s.workers[a.who].pc.CommitHold? && !s.workers[a.who].pc.ReleaseHold?
       && !s.workers[a.who].pc.ReconcileDiscarded? {
      assert LC.WorkerInv(s.db, s.workers[a.who]);
      OwnEvent(s.db, s.workers[a.who], a.choice);
    }
  }

  lemma OwnEvent(db: Db, w: Worker, c: Choice)
    requires !w.pc.CommitHold? && !w.pc.ReleaseHold? && !w.pc.ReconcileDiscarded?
    ensures var out := StepWorker(db, w, c).0;
      |db.events| < |out.events| ==> out.events[|db.events|].reservation == w.task && w.pc !in {Start, Stopped}
  {}

  /** In every reachable state of every interleaving. */
  lemma {:induction false} EventsStayLinked(s: Sys, actions: seq<Action>)
    requires Initial(s)
    ensures EventsLinked(Exec(s, actions).db)
  {
    if |actions| != 0 {
      var init, a := actions[..|actions| - 1], actions[|actions| - 1];
      var before := Exec(s, init);
      EventsStayLinked(s, init);
      LC.EveryRun(s, init);
      OwnEvents(before, a);
      RunKeepsLinks(M.BaseOf(before, a), M.OpsOf(before, a));
      M.StepIsOps(before, a);
    }
  }

  lemma NothingReportedYet(db: Db, j: JobId)
    requires EventsLinked(db)
    ensures ReportedTotal(db, j, |db.reservations|).None?
  {
    LB.NothingReported(db.events, j, |db.reservations|, |db.events|);
  }

  /** A granted create whose enqueue is refused: its own job failed, its own reservation released, the rest as it was. */
  lemma CleanedUp(db: Db, q: Request, estimate: Option<nat>, clock: Clock, created: Db)
    requires LI.LedgerInv(db) && EventsLinked(db) && Affordable(db.budgets, q.scope, estimate, clock)
    requires created == Create(db, q, estimate, clock)
    ensures var j, r, out := |db.jobs|, |db.reservations|, EnqueueCleanup(created, |db.jobs|, |db.reservations|);
      && |out.jobs| == j + 1 && out.jobs[..j] == db.jobs && out.jobs[j] == created.jobs[j].(status := JobFailed)
      && |out.reservations| == r + 1 && out.reservations[..r] == db.reservations
      && out.reservations[r] == created.reservations[r].(status := Released)
      && |out.budgets| == |db.budgets|
      && forall b :: 0 <= b < |db.budgets| ==> out.budgets[b] in {db.budgets[b], RollOver(db.budgets[b], clock)}
  {
    var j, r := |db.jobs|, |db.reservations|;
    CreateOnColumns(db, q, estimate, clock, created);
    NothingReportedYet(db, j);
    D.CleanupUndoesCreate(db, q, estimate, clock);
    var failed := MarkFailed(created, j, r);
    assert ReportedTotal(failed, j, r).None? && Finalizable(failed, j, r);
    var out := Finalize(failed, j, r, ToReleased);
    assert out.jobs == failed.jobs && out.reservations == failed.reservations[r := failed.reservations[r].(status := Released)];
  }

  /** Wherever the system has got to, a create whose enqueue is refused is undone by its clean-up. */
  lemma CleanupAlwaysUndoes(s: Sys, actions: seq<Action>, q: Request, estimate: Option<nat>, clock: Clock)
    requires Initial(s)
    ensures var db := Exec(s, actions).db;
      var out := EnqueueCleanup(Create(db, q, estimate, clock), |db.jobs|, |db.reservations|);
      && |out.jobs| == |db.jobs| + 1 && out.jobs[|db.jobs|].status == JobFailed
      && |out.reservations| == |db.reservations| + 1
      && out.reservations[|db.reservations|].status in {Released, Denied} && out.reservations[|db.reservations|].actual.None?
      && |out.budgets| == |db.budgets|
      && forall b :: 0 <= b < |db.budgets| ==> out.budgets[b] in {db.budgets[b], RollOver(db.budgets[b], clock)}
  {
    LC.EveryRun(s, actions);
    EventsStayLinked(s, actions);
    NothingReportedYet(Exec(s, actions).db, |Exec(s, actions).db.jobs|);
    D.CleanupUndoesCreate(Exec(s, actions).db, q, estimate, clock);
  }
}
