/** What every step of the lifecycle keeps, and what that means for whole runs.

The proof is by rely and guarantee: `Evolves` is what any transaction may do to
the rows another worker knows about, every transaction is shown to stay within
it, and each worker's knowledge is stable under it.
*/
module Lifecycle {
  import opened Rows
  import opened CostLedger
  import opened JobTransactions
  import opened Workers
  import LI = LedgerInvariants

  // The invariant on the tables -----------------------------------------------------

  predicate OwnReservation(db: Db, j: JobId, r: ReservationId) {
    r < |db.reservations| && db.reservations[r].job == j
  }

  /** A live job's reservation is reserved; a completed job's is reserved or committed;
  a failed or cancelled job's is never committed. */
  predicate JobOk(db: Db, j: JobId)
    requires j < |db.jobs|
  {
    match db.jobs[j].reservation
    case None => db.jobs[j].status == Completed
    case Some(r) =>
      && OwnReservation(db, j, r)
      && (Live(db.jobs[j].status) ==> db.reservations[r].status == Reserved)
      && (db.jobs[j].status == Completed ==> db.reservations[r].status in {Reserved, Committed})
      && (db.jobs[j].status in {JobFailed, Cancelled} ==> db.reservations[r].status != Committed)
      && db.jobs[j].actualCost == db.reservations[r].actual
  }

  /** Only the reservation a job points at can be reserved. */
  predicate ReservationOk(db: Db, r: ReservationId)
    requires r < |db.reservations|
  {
    db.reservations[r].job < |db.jobs|
    && (db.reservations[r].status == Reserved ==> db.jobs[db.reservations[r].job].reservation == Some(r))
  }

  ghost predicate JobInv(db: Db) {
    && (forall j :: 0 <= j < |db.jobs| ==> JobOk(db, j))
    && (forall r :: 0 <= r < |db.reservations| ==> ReservationOk(db, r))
  }

  // The rely ------------------------------------------------------------------------

  predicate NotPastPreview(s: JobStatus) {
    s in {Queued, Running}
  }

  /** How a job row may change: identity fields are fixed, completed and cancelled are final,
  the reservation is replaced only by a fresh one, and within one reservation a failed job
  stays failed and no preview appears in front of a queued or running status. */
  predicate RowEvolves(o: Job, n: Job, firstFresh: ReservationId) {
    && n.kind == o.kind && n.previewFirst == o.previewFirst && n.identity == o.identity && n.scope == o.scope
    && (o.status in {Completed, Cancelled} ==> n.status == o.status && n.reservation == o.reservation)
    && (n.reservation != o.reservation ==> n.reservation.Some? && n.reservation.value >= firstFresh)
    && (n.reservation == o.reservation ==>
          && (o.status == JobFailed ==> n.status == JobFailed)
          && (NotPastPreview(n.status) ==> NotPastPreview(o.status) && (o.previewAssets == [] ==> n.previewAssets == [])))
  }

  ghost predicate Evolves(db: Db, db': Db) {
    && |db.jobs| <= |db'.jobs| && |db.reservations| <= |db'.reservations|
    && (forall j :: 0 <= j < |db.jobs| ==> RowEvolves(db.jobs[j], db'.jobs[j], |db.reservations|))
    && (forall r :: 0 <= r < |db.reservations| ==>
          && db'.reservations[r].job == db.reservations[r].job
          && (db.reservations[r].status != Reserved ==> db'.reservations[r].status == db.reservations[r].status))
  }

  // What a worker knows ---------------------------------------------------------------

  predicate Current(db: Db, w: Worker) {
    JobAt(db, w.job, w.task)
  }

  predicate PcOk(db: Db, w: Worker)
    requires w.job < |db.jobs|
  {
    var job := db.jobs[w.job];
    match w.pc
    case CommitHold => Current(db, w) && job.status == Completed
    case ReleaseHold => Current(db, w) ==> job.status in {JobFailed, Cancelled}
    case Generate(phase) => (phase == PackPhase <==> job.kind == Pack) && (phase == PreviewPhase ==> w.snapshot.previewAssets == [])
    case Persist(phase, _) => (phase == PackPhase <==> job.kind == Pack) && (phase == PreviewPhase ==> w.snapshot.previewAssets == [])
    case BillDiscarded(_, after) => after == ThenClaimFinal ==> job.kind == SingleImage
    case ReconcileDiscarded(after) => after == ThenClaimFinal ==> job.kind == SingleImage
    case ClaimFinal => job.kind == SingleImage
    case CompletePack(assets) => job.kind == Pack && assets != []
    case _ => true
  }

  predicate WorkerInv(db: Db, w: Worker) {
    w.pc in {Start, Stopped} ||
    (&& w.job < |db.jobs|
     && OwnReservation(db, w.job, w.task)
     && w.snapshot.kind == db.jobs[w.job].kind
     && w.snapshot.previewFirst == db.jobs[w.job].previewFirst
     && (w.snapshot.previewAssets == [] && Current(db, w) && NotPastPreview(db.jobs[w.job].status) ==> db.jobs[w.job].previewAssets == [])
     && PcOk(db, w))
  }

  lemma WorkerStable(db: Db, db': Db, w: Worker)
    requires WorkerInv(db, w) && Evolves(db, db')
    ensures WorkerInv(db', w)
  {
    if w.pc !in {Start, Stopped} {
      assert RowEvolves(db.jobs[w.job], db'.jobs[w.job], |db.reservations|);
    }
  }

  // Every transaction stays within the rely and keeps the job invariant ------------------

  /** The only thing finalization changes outside money: reservation r becomes terminal. */
  lemma FinalizeFrame(db: Db, j: JobId, r: ReservationId, t: Target)
    ensures var out := Finalize(db, j, r, t);
      && |out.jobs| == |db.jobs| && |out.reservations| == |db.reservations| && out.assets == db.assets
      && (forall k :: 0 <= k < |db.jobs| ==> out.jobs[k].(actualCost := db.jobs[k].actualCost) == db.jobs[k])
      && (forall k :: 0 <= k < |db.reservations| && k != r ==> out.reservations[k] == db.reservations[k])
      && (!Finalizable(db, j, r) ==> out == db)
      && (Finalizable(db, j, r) ==> out.reservations[r].job == j && out.reservations[r].status == StatusFor(t))
  {}

  lemma FinalizeEvolves(db: Db, j: JobId, r: ReservationId, t: Target)
    ensures Evolves(db, Finalize(db, j, r, t))
  {
    FinalizeFrame(db, j, r, t);
    var out := Finalize(db, j, r, t);
    forall k | 0 <= k < |db.jobs| ensures RowEvolves(db.jobs[k], out.jobs[k], |db.reservations|) {
      assert out.jobs[k].(actualCost := db.jobs[k].actualCost) == db.jobs[k];
    }
  }

  /** When committing or releasing r is in order. */
  predicate MayFinalize(db: Db, j: JobId, r: ReservationId, t: Target) {
    JobAt(db, j, r) ==>
      if t == ToCommitted then db.jobs[j].status == Completed else db.jobs[j].status in {JobFailed, Cancelled}
  }

  lemma FinalizeKeepsJobs(db: Db, j: JobId, r: ReservationId, t: Target)
    requires JobInv(db) && LI.RowsLinked(db) && MayFinalize(db, j, r, t)
    ensures JobInv(Finalize(db, j, r, t))
  {
    var out := Finalize(db, j, r, t);
    FinalizeFrame(db, j, r, t);
    if Finalizable(db, j, r) {
      assert ReservationOk(db, r);
      assert db.reservations[r].actual.None?;
      forall k | 0 <= k < |out.jobs| ensures JobOk(out, k) {
        assert JobOk(db, k);
        assert out.jobs[k].(actualCost := db.jobs[k].actualCost) == db.jobs[k];
      }
      forall k | 0 <= k < |out.reservations| ensures ReservationOk(out, k) {
        assert ReservationOk(db, k);
        assert out.jobs[db.reservations[k].job].(actualCost := db.jobs[db.reservations[k].job].actualCost) == db.jobs[db.reservations[k].job];
      }
    }
  }

  /** Reconciling replaces the actual of r, on its row and where its job still carries it, and nothing else. */
  lemma ReconcileFrame(db: Db, j: JobId, r: ReservationId)
    ensures var out := Reconcile(db, j, r);
      && |out.jobs| == |db.jobs| && |out.reservations| == |db.reservations|
      && out.assets == db.assets && out.holds == db.holds && out.events == db.events && |out.budgets| == |db.budgets|
      && (forall k :: 0 <= k < |db.jobs| ==> out.jobs[k].(actualCost := db.jobs[k].actualCost) == db.jobs[k])
      && (forall k :: 0 <= k < |db.jobs| && db.jobs[k].reservation != Some(r) ==> out.jobs[k] == db.jobs[k])
      && (forall k :: 0 <= k < |db.reservations| ==> out.reservations[k].(actual := db.reservations[k].actual) == db.reservations[k])
      && (forall k :: 0 <= k < |db.reservations| && k != r ==> out.reservations[k] == db.reservations[k])
      && (out != db ==> r < |db.reservations| && Reconcilable(db, j, r))
      && (out != db && JobAt(db, j, r) ==> out.jobs[j].actualCost == out.reservations[r].actual)
  {}

  lemma ReconcileKeepsJobs(db: Db, j: JobId, r: ReservationId)
    requires JobInv(db)
    ensures JobInv(Reconcile(db, j, r)) && Evolves(db, Reconcile(db, j, r)) && Reconcile(db, j, r).assets == db.assets
  {
    var out := Reconcile(db, j, r);
    ReconcileFrame(db, j, r);
    ActualReplaced(db, out, j, r);
  }

  lemma ActualReplaced(db: Db, out: Db, j: JobId, r: ReservationId)
    requires JobInv(db) && |out.jobs| == |db.jobs| && |out.reservations| == |db.reservations|
    requires forall k :: 0 <= k < |db.jobs| ==> out.jobs[k].(actualCost := db.jobs[k].actualCost) == db.jobs[k]
    requires forall k :: 0 <= k < |db.jobs| && db.jobs[k].reservation != Some(r) ==> out.jobs[k] == db.jobs[k]
    requires forall k :: 0 <= k < |db.reservations| ==> out.reservations[k].(actual := db.reservations[k].actual) == db.reservations[k]
    requires forall k :: 0 <= k < |db.reservations| && k != r ==> out.reservations[k] == db.reservations[k]
    requires out != db ==> r < |db.reservations| && Reconcilable(db, j, r)
    requires out != db && JobAt(db, j, r) ==> out.jobs[j].actualCost == out.reservations[r].actual
    ensures JobInv(out) && Evolves(db, out)
  {
    forall k | 0 <= k < |out.jobs| ensures JobOk(out, k) && RowEvolves(db.jobs[k], out.jobs[k], |db.reservations|) {
      assert JobOk(db, k);
      assert out.jobs[k].(actualCost := db.jobs[k].actualCost) == db.jobs[k];
    }
    forall k | 0 <= k < |out.reservations| ensures ReservationOk(out, k) {
      assert ReservationOk(db, k);
      assert out.reservations[k].(actual := db.reservations[k].actual) == db.reservations[k];
      var o := db.reservations[k].job;
      assert out.jobs[o].(actualCost := db.jobs[o].actualCost) == db.jobs[o];
    }
  }

  /** A job row updated in place, reservation and stamped actual untouched. */
  lemma StatusUpdateKeepsJobs(db: Db, db': Db, j: JobId, job: Job)
    requires JobInv(db) && j < |db.jobs| && db'.jobs == db.jobs[j := job] && db'.reservations == db.reservations
    requires job.reservation == db.jobs[j].reservation && job.actualCost == db.jobs[j].actualCost
    requires Live(db.jobs[j].status) && job.reservation.Some?
    requires RowEvolves(db.jobs[j], job, |db.reservations|)
    ensures JobInv(db') && Evolves(db, db')
  {
    forall k | 0 <= k < |db'.jobs| ensures JobOk(db', k) {
      assert JobOk(db, k);
    }
    forall k | 0 <= k < |db'.reservations| ensures ReservationOk(db', k) {
      assert ReservationOk(db, k);
    }
  }

  lemma SameRowsKeepsJobs(db: Db, db': Db)
    requires JobInv(db) && db'.jobs == db.jobs && db'.reservations == db.reservations
    ensures JobInv(db') && Evolves(db, db')
  {
    forall k | 0 <= k < |db'.jobs| ensures JobOk(db', k) {
      assert JobOk(db, k);
    }
    forall k | 0 <= k < |db'.reservations| ensures ReservationOk(db', k) {
      assert ReservationOk(db, k);
    }
  }

  /** The job after one compare-and-set transition of a worker. */
  lemma WorkerUpdatesKeepJobs(db: Db, j: JobId, r: ReservationId, cost: Option<nat>, items: seq<AssetId>)
    requires JobInv(db)
    ensures forall out :: out in {MarkRunning(db, j, r), ClaimPreviewFinalization(db, j, r), MarkFailed(db, j, r),
                                  MarkCompleted(db, j, r, items), PersistFinal(db, j, r, cost), PersistPreview(db, j, r, cost)} ==>
      JobInv(out) && Evolves(db, out)
  {
    SameRowsKeepsJobs(db, db);
    if JobAt(db, j, r) {
      assert JobOk(db, j);
      forall out | out in {MarkRunning(db, j, r), ClaimPreviewFinalization(db, j, r), MarkFailed(db, j, r),
                           MarkCompleted(db, j, r, items), PersistFinal(db, j, r, cost), PersistPreview(db, j, r, cost)} && out != db
        ensures JobInv(out) && Evolves(db, out)
      {
        StatusUpdateKeepsJobs(db, out, j, out.jobs[j]);
      }
    }
  }

  lemma ReserveFrame(db: Db, j: JobId, scope: Scope, estimate: Option<nat>, clock: Clock)
    ensures var out := Reserve(db, j, scope, estimate, clock);
      && out.jobs == db.jobs && out.assets == db.assets && |out.reservations| == |db.reservations| + 1
      && (forall k :: 0 <= k < |db.reservations| ==> out.reservations[k] == db.reservations[k])
      && out.reservations[|db.reservations|].job == j && out.reservations[|db.reservations|].actual.None?
      && out.reservations[|db.reservations|].status in {Reserved, Denied}
  {}

  lemma CreateKeepsJobs(db: Db, q: Request, estimate: Option<nat>, clock: Clock)
    requires JobInv(db)
    ensures JobInv(Create(db, q, estimate, clock)) && Evolves(db, Create(db, q, estimate, clock))
  {
    var out := Create(db, q, estimate, clock);
    ReserveFrame(db.(jobs := db.jobs + [QueuedJob(q)]), |db.jobs|, q.scope, estimate, clock);
    forall k | 0 <= k < |out.jobs| ensures JobOk(out, k) {
      assert k < |db.jobs| ==> JobOk(db, k);
    }
    forall k | 0 <= k < |out.reservations| ensures ReservationOk(out, k) {
      assert k < |db.reservations| ==> ReservationOk(db, k);
    }
  }

  lemma CreateCompletedKeepsJobs(db: Db, q: Request, reused: seq<AssetId>)
    requires JobInv(db)
    ensures JobInv(CreateCompleted(db, q, reused)) && Evolves(db, CreateCompleted(db, q, reused))
  {
    var out := CreateCompleted(db, q, reused);
    forall k | 0 <= k < |out.jobs| ensures JobOk(out, k) {
      assert k < |db.jobs| ==> JobOk(db, k);
    }
    forall k | 0 <= k < |out.reservations| ensures ReservationOk(out, k) {
      assert ReservationOk(db, k);
    }
  }

  lemma EvolvesTransitive(a: Db, b: Db, c: Db)
    requires JobInv(a) && Evolves(a, b) && Evolves(b, c)
    ensures Evolves(a, c)
  {
    forall j | 0 <= j < |a.jobs| ensures RowEvolves(a.jobs[j], c.jobs[j], |a.reservations|) {
      assert JobOk(a, j);
      assert RowEvolves(a.jobs[j], b.jobs[j], |a.reservations|) && RowEvolves(b.jobs[j], c.jobs[j], |b.reservations|);
    }
    forall r | 0 <= r < |a.reservations| ensures
      c.reservations[r].job == a.reservations[r].job
      && (a.reservations[r].status != Reserved ==> c.reservations[r].status == a.reservations[r].status)
    {
      assert b.reservations[r].job == a.reservations[r].job;
    }
  }

  /** Releasing the hold of a job that has just failed or been cancelled. */
  lemma ReleaseForJobKeeps(db: Db, j: JobId)
    requires JobInv(db) && LI.LedgerInv(db) && j < |db.jobs| && db.jobs[j].status in {JobFailed, Cancelled}
    ensures JobInv(FinalizeForJob(db, j, ToReleased)) && LI.LedgerInv(FinalizeForJob(db, j, ToReleased))
    ensures Evolves(db, FinalizeForJob(db, j, ToReleased))
    ensures var out := FinalizeForJob(db, j, ToReleased);
      && |out.jobs| == |db.jobs| && |out.reservations| == |db.reservations| && out.assets == db.assets
      && (forall k :: 0 <= k < |db.jobs| ==> out.jobs[k].(actualCost := db.jobs[k].actualCost) == db.jobs[k])
      && out.jobs[j].reservation.Some? && OwnReservation(out, j, out.jobs[j].reservation.value)
      && out.reservations[out.jobs[j].reservation.value].status in {Released, Denied}
  {
    assert JobOk(db, j);
    var r := db.jobs[j].reservation.value;
    FinalizeKeepsJobs(db, j, r, ToReleased);
    FinalizeEvolves(db, j, r, ToReleased);
    FinalizeFrame(db, j, r, ToReleased);
    LI.FinalizeConserves(db, j, r, ToReleased);
    assert FinalizeForJob(db, j, ToReleased).jobs[j].(actualCost := db.jobs[j].actualCost) == db.jobs[j];
  }

  /** The job has ended in a status that charges nothing, and its reservation with it. */
  predicate Closed(db: Db, j: JobId, status: JobStatus) {
    j < |db.jobs| && db.jobs[j].status == status && db.jobs[j].reservation.Some?
    && OwnReservation(db, j, db.jobs[j].reservation.value)
    && db.reservations[db.jobs[j].reservation.value].status in {Released, Denied}
  }

  /** The clean-up fails the job and releases its hold together, or does nothing. */
  lemma EnqueueCleanupKeeps(db: Db, j: JobId, r: ReservationId)
    requires JobInv(db) && LI.LedgerInv(db)
    ensures JobInv(EnqueueCleanup(db, j, r)) && LI.LedgerInv(EnqueueCleanup(db, j, r)) && Evolves(db, EnqueueCleanup(db, j, r))
    ensures var out := EnqueueCleanup(db, j, r);
            if j < |db.jobs| && db.jobs[j].reservation == Some(r) && db.jobs[j].status in {Queued, Running, PreviewReady}
            then Closed(out, j, JobFailed) && out.jobs[j].reservation == Some(r) && out.reservations[r].status == Released
            else out == db
  {
    SameRowsKeepsJobs(db, db);
    if FailGuard(db, j, r) {
      assert JobOk(db, j);
      WorkerUpdatesKeepJobs(db, j, r, None, []);
      ReleaseForJobKeeps(MarkFailed(db, j, r), j);
      EvolvesTransitive(db, MarkFailed(db, j, r), EnqueueCleanup(db, j, r));
    }
  }

  /**
   * A cancel ends a queued, running or previewed job and releases what it held, all in one; again on
   * a cancelled one it leaves it closed. A finished job it refuses, and changes nothing.
   */
  lemma CancelKeeps(db: Db, j: JobId)
    requires JobInv(db) && LI.LedgerInv(db)
    ensures JobInv(Cancel(db, j)) && LI.LedgerInv(Cancel(db, j)) && Evolves(db, Cancel(db, j))
    ensures j >= |db.jobs| ==> CancelOutcome(db, j) == NotFound && Cancel(db, j) == db
    ensures j < |db.jobs| ==> var out := Cancel(db, j);
      match db.jobs[j].status
      case Completed => CancelOutcome(db, j) == InvalidState && out == db
      case JobFailed => CancelOutcome(db, j) == InvalidState && out == db
      case Cancelled => CancelOutcome(db, j) == Done && ClosesOnly(db, out, j, Cancelled)
      case _ =>
        && CancelOutcome(db, j) == Done && ClosesOnly(db, out, j, Cancelled)
        && out.reservations[out.jobs[j].reservation.value].status == Released
  {
    SameRowsKeepsJobs(db, db);
    if CancelOutcome(db, j) == Done {
      assert JobOk(db, j);
      var marked := db.(jobs := db.jobs[j := db.jobs[j].(status := Cancelled)]);
      if db.jobs[j].status == Cancelled {
        SameRowsKeepsJobs(db, marked);
      } else {
        StatusUpdateKeepsJobs(db, marked, j, marked.jobs[j]);
      }
      ReleaseForJobKeeps(marked, j);
      FinalizeFrame(marked, j, db.jobs[j].reservation.value, ToReleased);
      EvolvesTransitive(db, marked, Cancel(db, j));
    }
  }

  /** The job has ended in that status, its reservation with it; of the job rows only its own changed, in no other column but the stamped actual. */
  ghost predicate ClosesOnly(db: Db, out: Db, j: JobId, status: JobStatus) {
    && Closed(out, j, status) && |out.jobs| == |db.jobs| && j < |db.jobs| && out.assets == db.assets
    && out.jobs[j] == db.jobs[j].(status := status, actualCost := out.jobs[j].actualCost)
    && (forall k :: 0 <= k < |db.jobs| && k != j ==> out.jobs[k].(actualCost := db.jobs[k].actualCost) == db.jobs[k])
    && |out.reservations| == |db.reservations|
    && (forall r :: 0 <= r < |db.reservations| && Some(r) != db.jobs[j].reservation ==> out.reservations[r] == db.reservations[r])
  }

  /** Linking a fresh reserved reservation to a failed job and queueing it again. */
  lemma Relinked(db: Db, held: Db, out: Db, j: JobId)
    requires JobInv(db) && j < |db.jobs| && db.jobs[j].status == JobFailed && held.jobs == db.jobs
    requires db.jobs[j].reservation.Some? && OwnReservation(db, j, db.jobs[j].reservation.value)
    requires db.reservations[db.jobs[j].reservation.value].status != Reserved
    requires |held.reservations| == |db.reservations| + 1 && held.reservations[..|db.reservations|] == db.reservations
    requires held.reservations[|db.reservations|].job == j && held.reservations[|db.reservations|].status == Reserved
    requires held.reservations[|db.reservations|].actual.None?
    requires out == held.(jobs := held.jobs[j := held.jobs[j].(status := Queued, finalizationClaimed := false, finalAssets := [],
                                                               reservation := Some(|db.reservations|), actualCost := None)])
    ensures JobInv(out) && Evolves(db, out)
  {
    forall k | 0 <= k < |db.reservations| ensures out.reservations[k] == db.reservations[k] {
      assert held.reservations[..|db.reservations|][k] == db.reservations[k];
    }
    forall k | 0 <= k < |out.jobs| ensures JobOk(out, k) {
      assert JobOk(db, k);
    }
    forall k | 0 <= k < |out.reservations| ensures ReservationOk(out, k) {
      assert k < |db.reservations| ==> ReservationOk(db, k);
    }
  }

  /** A reopened job: queued, nothing delivered or charged, under a fresh reserved reservation, the old one closed. */
  predicate Reopened(db: Db, out: Db, j: JobId) {
    && j < |db.jobs| && |out.jobs| == |db.jobs| && |out.reservations| == |db.reservations| + 1
    && db.jobs[j].reservation.Some? && db.jobs[j].reservation.value < |db.reservations|
    && out.reservations[db.jobs[j].reservation.value].status in {Released, Denied}
    && out.jobs[j].status == Queued && out.jobs[j].reservation == Some(|db.reservations|)
    && out.jobs[j].finalAssets == [] && out.jobs[j].actualCost.None? && !out.jobs[j].finalizationClaimed
    && out.reservations[|db.reservations|].job == j && out.reservations[|db.reservations|].status == Reserved
  }

  /** A retry releases the old reservation and links a fresh reserved one, or changes nothing. */
  lemma RetryKeeps(db: Db, j: JobId, estimate: Option<nat>, clock: Clock)
    requires JobInv(db) && LI.LedgerInv(db)
    ensures if RetryOutcome(db, j, estimate, clock) == Done then Reopened(db, Retry(db, j, estimate, clock), j)
            else Retry(db, j, estimate, clock) == db
    ensures JobInv(Retry(db, j, estimate, clock)) && LI.LedgerInv(Retry(db, j, estimate, clock)) && Evolves(db, Retry(db, j, estimate, clock))
  {
    SameRowsKeepsJobs(db, db);
    if RetryOutcome(db, j, estimate, clock) == Done {
      var released := FinalizeForJob(db, j, ToReleased);
      var held := RetryReservation(db, j, estimate, clock);
      var out := Retry(db, j, estimate, clock);
      ReleaseForJobKeeps(db, j);
      ReserveFrame(released, j, db.jobs[j].scope, estimate, clock);
      LI.ReserveKeepsInv(released, j, db.jobs[j].scope, estimate, clock);
      Relinked(released, held, out, j);
      EvolvesTransitive(db, released, out);
    }
  }

  // Assets ---------------------------------------------------------------------------------

  function CountAssets(assets: seq<Asset>, j: JobId, kind: AssetKind, n: nat): nat
    requires n <= |assets|
  {
    if n == 0 then 0 else CountAssets(assets, j, kind, n - 1) + if assets[n - 1] == Asset(j, kind) then 1 else 0
  }

  predicate Holds(assets: seq<Asset>, ids: seq<AssetId>, a: Asset) {
    |ids| == 1 && ids[0] < |assets| && assets[ids[0]] == a
  }

  /** A single-image job has inserted one final asset if it completed by generation and none
  otherwise, and its preview column lists exactly the previews it has ever inserted. */
  predicate AssetOk(db: Db, j: JobId)
    requires j < |db.jobs|
  {
    var job := db.jobs[j];
    && (job.finalAssets != [] ==> job.status == Completed)
    && (job.kind == SingleImage ==>
          && (job.status == Completed ==> |job.finalAssets| == 1)
          && (job.status == Completed && job.reservation.Some? ==> Holds(db.assets, job.finalAssets, Asset(j, FinalAsset)))
          && CountAssets(db.assets, j, FinalAsset, |db.assets|) == (if job.status == Completed && job.reservation.Some? then 1 else 0)
          && CountAssets(db.assets, j, PreviewAsset, |db.assets|) == |job.previewAssets|
          && (job.previewAssets != [] ==> Holds(db.assets, job.previewAssets, Asset(j, PreviewAsset))))
  }

  ghost predicate AssetInv(db: Db) {
    && (forall j :: 0 <= j < |db.jobs| ==> AssetOk(db, j))
    && (forall k :: 0 <= k < |db.assets| ==> db.assets[k].job < |db.jobs|)
  }

  /** What AssetOk reads of a job row. */
  predicate SameDelivery(o: Job, n: Job) {
    n.kind == o.kind && n.previewAssets == o.previewAssets && n.finalAssets == o.finalAssets
    && (n.status == Completed <==> o.status == Completed) && (n.reservation.Some? <==> o.reservation.Some?)
  }

  lemma {:induction false} CountNone(assets: seq<Asset>, j: JobId, kind: AssetKind, n: nat)
    requires n <= |assets| && forall k :: 0 <= k < n ==> assets[k] != Asset(j, kind)
    ensures CountAssets(assets, j, kind, n) == 0
  {
    if n != 0 {
      CountNone(assets, j, kind, n - 1);
    }
  }

  lemma {:induction false} CountPrefix(assets: seq<Asset>, a: Asset, j: JobId, kind: AssetKind, n: nat)
    requires n <= |assets|
    ensures CountAssets(assets + [a], j, kind, n) == CountAssets(assets, j, kind, n)
  {
    if n != 0 {
      CountPrefix(assets, a, j, kind, n - 1);
    }
  }

  lemma CountAppend(assets: seq<Asset>, a: Asset, j: JobId, kind: AssetKind)
    ensures CountAssets(assets + [a], j, kind, |assets| + 1)
         == CountAssets(assets, j, kind, |assets|) + if a == Asset(j, kind) then 1 else 0
  {
    CountPrefix(assets, a, j, kind, |assets|);
  }

  /** Rows that read the same, and new jobs that have inserted nothing, keep the asset invariant. */
  lemma DeliveryKept(db: Db, db': Db)
    requires AssetInv(db) && db'.assets == db.assets && |db.jobs| <= |db'.jobs|
    requires forall j :: 0 <= j < |db.jobs| ==> SameDelivery(db.jobs[j], db'.jobs[j])
    requires forall j :: |db.jobs| <= j < |db'.jobs| ==>
      var n := db'.jobs[j]; n.previewAssets == [] && if n.status == Completed then n.reservation.None? && (n.kind == SingleImage ==> |n.finalAssets| == 1) else n.finalAssets == []
    ensures AssetInv(db')
  {
    forall j | 0 <= j < |db'.jobs| ensures AssetOk(db', j) {
      if j < |db.jobs| {
        assert AssetOk(db, j) && SameDelivery(db.jobs[j], db'.jobs[j]);
      } else {
        CountNone(db.assets, j, FinalAsset, |db.assets|);
        CountNone(db.assets, j, PreviewAsset, |db.assets|);
      }
    }
  }

  /** One more asset, and at most its own job's row changed. */
  lemma AssetAdded(db: Db, db': Db, a: Asset)
    requires AssetInv(db) && a.job < |db.jobs| && db'.assets == db.assets + [a] && |db'.jobs| == |db.jobs|
    requires forall k :: 0 <= k < |db.jobs| && k != a.job ==> db'.jobs[k] == db.jobs[k]
    requires AssetOk(db', a.job)
    ensures AssetInv(db')
  {
    forall k | 0 <= k < |db'.jobs| ensures AssetOk(db', k) {
      if k != a.job {
        assert AssetOk(db, k);
        CountAppend(db.assets, a, k, FinalAsset);
        CountAppend(db.assets, a, k, PreviewAsset);
      }
    }
  }

  lemma PersistKeepsAssets(db: Db, j: JobId, r: ReservationId, cost: Option<nat>)
    requires AssetInv(db)
    ensures j < |db.jobs| && db.jobs[j].kind == SingleImage ==> AssetInv(PersistFinal(db, j, r, cost))
    ensures j < |db.jobs| && db.jobs[j].kind == SingleImage && (JobAt(db, j, r) && db.jobs[j].status == Running ==> db.jobs[j].previewAssets == [])
      ==> AssetInv(PersistPreview(db, j, r, cost))
    ensures j < |db.jobs| && db.jobs[j].kind == Pack ==> AssetInv(PersistPackItem(db, j, r, cost))
  {
    if j < |db.jobs| {
      assert AssetOk(db, j);
      forall kind, other { CountAppend(db.assets, Asset(j, kind), j, other); }
      if db.jobs[j].kind == SingleImage && FinalOutcome(db, j, r) == Persisted {
        AssetAdded(db, PersistFinal(db, j, r, cost), Asset(j, FinalAsset));
      }
      if db.jobs[j].kind == SingleImage && PreviewOutcome(db, j, r) == Persisted && db.jobs[j].previewAssets == [] {
        AssetAdded(db, PersistPreview(db, j, r, cost), Asset(j, PreviewAsset));
      }
      if db.jobs[j].kind == Pack && PackItemGuard(db, j) {
        AssetAdded(db, PersistPackItem(db, j, r, cost), Asset(j, PackItemAsset));
      }
    }
  }

  // Steps of the system --------------------------------------------------------------------

  ghost predicate DbInv(db: Db) {
    JobInv(db) && LI.LedgerInv(db) && AssetInv(db)
  }

  ghost predicate SysInv(s: Sys) {
    DbInv(s.db) && forall i :: 0 <= i < |s.workers| ==> WorkerInv(s.db, s.workers[i])
  }

  /** A transaction that touches no table of the ledger. */
  lemma LedgerUntouched(db: Db, db': Db)
    requires LI.LedgerInv(db)
    requires db'.budgets == db.budgets && db'.holds == db.holds && db'.reservations == db.reservations && |db'.jobs| >= |db.jobs|
    ensures LI.LedgerInv(db')
  {}

  lemma FinalizeKeeps(db: Db, j: JobId, r: ReservationId, t: Target)
    requires DbInv(db) && MayFinalize(db, j, r, t)
    ensures DbInv(Finalize(db, j, r, t)) && Evolves(db, Finalize(db, j, r, t))
  {
    var out := Finalize(db, j, r, t);
    FinalizeKeepsJobs(db, j, r, t);
    FinalizeEvolves(db, j, r, t);
    FinalizeFrame(db, j, r, t);
    LI.FinalizeConserves(db, j, r, t);
    forall k | 0 <= k < |db.jobs| ensures SameDelivery(db.jobs[k], out.jobs[k]) {
      assert out.jobs[k].(actualCost := db.jobs[k].actualCost) == db.jobs[k];
    }
    DeliveryKept(db, out);
  }

  lemma ReconcileKeeps(db: Db, j: JobId, r: ReservationId)
    requires DbInv(db)
    ensures DbInv(Reconcile(db, j, r)) && Evolves(db, Reconcile(db, j, r))
  {
    ReconcileKeepsJobs(db, j, r);
    LI.ReconcileConserves(db, j, r);
    DeliveryKept(db, Reconcile(db, j, r));
  }

  lemma EventKeeps(db: Db, e: CostEvent)
    requires DbInv(db)
    ensures DbInv(InsertEvent(db, e)) && Evolves(db, InsertEvent(db, e))
  {
    SameRowsKeepsJobs(db, InsertEvent(db, e));
    LedgerUntouched(db, InsertEvent(db, e));
    DeliveryKept(db, InsertEvent(db, e));
  }

  /** The compare-and-set updates that deliver nothing. */
  lemma StatusUpdateKeeps(db: Db, j: JobId, r: ReservationId)
    requires DbInv(db)
    ensures forall out :: out in {MarkRunning(db, j, r), ClaimPreviewFinalization(db, j, r), MarkFailed(db, j, r)} ==>
      DbInv(out) && Evolves(db, out)
  {
    WorkerUpdatesKeepJobs(db, j, r, None, []);
    forall out | out in {MarkRunning(db, j, r), ClaimPreviewFinalization(db, j, r), MarkFailed(db, j, r)}
      ensures DbInv(out) && Evolves(db, out)
    {
      LedgerUntouched(db, out);
      DeliveryKept(db, out);
    }
  }

  lemma CompletePackKeeps(db: Db, j: JobId, r: ReservationId, items: seq<AssetId>)
    requires DbInv(db) && j < |db.jobs| && db.jobs[j].kind == Pack
    ensures DbInv(MarkCompleted(db, j, r, items)) && Evolves(db, MarkCompleted(db, j, r, items))
  {
    var out := MarkCompleted(db, j, r, items);
    WorkerUpdatesKeepJobs(db, j, r, None, items);
    LedgerUntouched(db, out);
    forall k | 0 <= k < |out.jobs| ensures AssetOk(out, k) {
      assert AssetOk(db, k);
    }
  }

  lemma PersistKeeps(db: Db, j: JobId, r: ReservationId, cost: Option<nat>)
    requires DbInv(db) && j < |db.jobs|
    ensures db.jobs[j].kind == SingleImage ==> DbInv(PersistFinal(db, j, r, cost)) && Evolves(db, PersistFinal(db, j, r, cost))
    ensures db.jobs[j].kind == SingleImage && (JobAt(db, j, r) && db.jobs[j].status == Running ==> db.jobs[j].previewAssets == []) ==>
      DbInv(PersistPreview(db, j, r, cost)) && Evolves(db, PersistPreview(db, j, r, cost))
    ensures db.jobs[j].kind == Pack ==> DbInv(PersistPackItem(db, j, r, cost)) && Evolves(db, PersistPackItem(db, j, r, cost))
  {
    PersistKeepsAssets(db, j, r, cost);
    WorkerUpdatesKeepJobs(db, j, r, cost, []);
    SameRowsKeepsJobs(db, PersistPackItem(db, j, r, cost));
    LedgerUntouched(db, PersistFinal(db, j, r, cost));
    LedgerUntouched(db, PersistPreview(db, j, r, cost));
    LedgerUntouched(db, PersistPackItem(db, j, r, cost));
  }

  /** A step and what it must preserve. */
  ghost predicate Kept(db: Db, next: (Db, Worker)) {
    DbInv(next.0) && Evolves(db, next.0) && WorkerInv(next.0, next.1)
  }

  /** A transaction within the rely followed by a jump to a pc whose knowledge is in place. */
  lemma KeptByGoto(db: Db, db': Db, w: Worker, pc: Pc)
    requires WorkerInv(db, w) && w.pc !in {Start, Stopped} && DbInv(db') && Evolves(db, db')
    requires w.job < |db'.jobs| ==> pc in {Start, Stopped} || PcOk(db', Goto(w, pc))
    ensures Kept(db, (db', Goto(w, pc)))
  {
    WorkerStable(db, db', w);
  }

  lemma PersistPackKeeps(db: Db, w: Worker, cost: Option<nat>)
    requires DbInv(db) && WorkerInv(db, w) && w.pc == Persist(PackPhase, cost)
    ensures Kept(db, StepWorker(db, w, Proceed))
  {
    var (db', w') := StepWorker(db, w, Proceed);
    PersistKeeps(db, w.job, w.task, cost);
    KeptByGoto(db, db', w, w'.pc);
  }

  lemma PersistPreviewKeeps(db: Db, w: Worker, cost: Option<nat>)
    requires DbInv(db) && WorkerInv(db, w) && w.pc == Persist(PreviewPhase, cost)
    ensures Kept(db, StepWorker(db, w, Proceed))
  {
    var (db', w') := StepWorker(db, w, Proceed);
    if PreviewOutcome(db, w.job, w.task) == NotActive {
      EventKeeps(db, CallEvent(w.job, w.task, cost, EventFailed));
    } else {
      PersistKeeps(db, w.job, w.task, cost);
      assert RowEvolves(db.jobs[w.job], db'.jobs[w.job], |db.reservations|);
    }
    KeptByGoto(db, db', w, w'.pc);
  }

  lemma PersistFinalKeeps(db: Db, w: Worker, cost: Option<nat>)
    requires DbInv(db) && WorkerInv(db, w) && w.pc == Persist(FinalPhase, cost)
    ensures Kept(db, StepWorker(db, w, Proceed))
  {
    var (db', w') := StepWorker(db, w, Proceed);
    if FinalOutcome(db, w.job, w.task) == NotActive {
      EventKeeps(db, CallEvent(w.job, w.task, cost, EventFailed));
    } else {
      PersistKeeps(db, w.job, w.task, cost);
      assert RowEvolves(db.jobs[w.job], db'.jobs[w.job], |db.reservations|);
    }
    KeptByGoto(db, db', w, w'.pc);
  }

  /** A step that only inserts a cost event, or nothing at all. */
  lemma BillingStepKeeps(db: Db, w: Worker, c: Choice)
    requires DbInv(db) && WorkerInv(db, w) && (w.pc.Generate? || w.pc.BillDiscarded? || (w.pc.Persist? && c != Proceed))
    ensures Kept(db, StepWorker(db, w, c))
  {
    var (db', w') := StepWorker(db, w, c);
    if db' == db {
      SameRowsKeepsJobs(db, db);
    } else {
      EventKeeps(db, db'.events[|db.events|]);
      assert db' == InsertEvent(db, db'.events[|db.events|]);
    }
    KeptByGoto(db, db', w, w'.pc);
  }

  lemma TransitionStepKeeps(db: Db, w: Worker, c: Choice)
    requires DbInv(db) && WorkerInv(db, w) && (w.pc.Claim? || w.pc.Plan? || w.pc.ClaimFinal? || w.pc.FailJob? || w.pc.CheckCancelled?)
    ensures Kept(db, StepWorker(db, w, c))
  {
    var (db', w') := StepWorker(db, w, c);
    SameRowsKeepsJobs(db, db);
    StatusUpdateKeeps(db, w.job, w.task);
    KeptByGoto(db, db', w, w'.pc);
  }

  lemma ClosingStepKeeps(db: Db, w: Worker, c: Choice)
    requires DbInv(db) && WorkerInv(db, w) && (w.pc.CommitHold? || w.pc.ReleaseHold? || w.pc.ReconcileDiscarded? || w.pc.CompletePack?)
    ensures Kept(db, StepWorker(db, w, c))
  {
    var (db', w') := StepWorker(db, w, c);
    SameRowsKeepsJobs(db, db);
    if c != Crash {
      match w.pc {
        case CommitHold => FinalizeKeeps(db, w.job, w.task, ToCommitted);
        case ReleaseHold => FinalizeKeeps(db, w.job, w.task, ToReleased);
        case ReconcileDiscarded(_) =>
          if c != WriteFailed {
            ReconcileKeeps(db, w.job, w.task);
          }
        case CompletePack(items) => CompletePackKeeps(db, w.job, w.task, items);
      }
    }
    KeptByGoto(db, db', w, w'.pc);
  }

  /** Any step of any worker keeps the tables' invariant, stays within the rely, and leaves the
  worker knowing what its next step needs. */
  lemma StepWorkerKeeps(db: Db, w: Worker, c: Choice)
    requires DbInv(db) && WorkerInv(db, w)
    ensures Kept(db, StepWorker(db, w, c))
  {
    SameRowsKeepsJobs(db, db);
    match w.pc {
      case Start =>
        if JobAt(db, w.job, w.task) {
          assert JobOk(db, w.job);
        }
      case Stopped =>
      case Generate(_) => BillingStepKeeps(db, w, c);
      case BillDiscarded(_, _) => BillingStepKeeps(db, w, c);
      case Persist(phase, cost) =>
        if c != Proceed {
          BillingStepKeeps(db, w, c);
        } else {
          match phase {
            case PackPhase => PersistPackKeeps(db, w, cost);
            case PreviewPhase => PersistPreviewKeeps(db, w, cost);
            case FinalPhase => PersistFinalKeeps(db, w, cost);
          }
        }
      case Claim => TransitionStepKeeps(db, w, c);
      case Plan => TransitionStepKeeps(db, w, c);
      case ClaimFinal => TransitionStepKeeps(db, w, c);
      case FailJob => TransitionStepKeeps(db, w, c);
      case CheckCancelled => TransitionStepKeeps(db, w, c);
      case CommitHold => ClosingStepKeeps(db, w, c);
      case ReleaseHold => ClosingStepKeeps(db, w, c);
      case ReconcileDiscarded(_) => ClosingStepKeeps(db, w, c);
      case CompletePack(_) => ClosingStepKeeps(db, w, c);
    }
  }

  lemma CreateKeepsRest(db: Db, q: Request, estimate: Option<nat>, clock: Clock)
    requires DbInv(db)
    ensures LI.LedgerInv(Create(db, q, estimate, clock)) && AssetInv(Create(db, q, estimate, clock))
  {
    var out := Create(db, q, estimate, clock);
    var withJob := db.(jobs := db.jobs + [QueuedJob(q)]);
    ReserveFrame(withJob, |db.jobs|, q.scope, estimate, clock);
    LedgerUntouched(db, withJob);
    LI.ReserveKeepsInv(withJob, |db.jobs|, q.scope, estimate, clock);
    LedgerUntouched(Reserve(withJob, |db.jobs|, q.scope, estimate, clock), out);
    DeliveryKept(db, out);
  }

  lemma RequestPathKeeps(db: Db, a: Action)
    requires DbInv(db) && !a.Deliver? && !a.WorkerStep?
    ensures DbInv(Step(Sys(db, []), a).db) && Evolves(db, Step(Sys(db, []), a).db)
  {
    var out := Step(Sys(db, []), a).db;
    match a {
      case CreateJob(q, estimate, clock) =>
        CreateKeepsJobs(db, q, estimate, clock);
        CreateKeepsRest(db, q, estimate, clock);
      case CacheHit(q, asset) =>
        CreateCompletedKeepsJobs(db, q.(kind := SingleImage), [asset]);
        LedgerUntouched(db, out);
        DeliveryKept(db, out);
      case PackReuse(q, items) =>
        CreateCompletedKeepsJobs(db, q.(kind := Pack), items);
        LedgerUntouched(db, out);
        DeliveryKept(db, out);
      case EnqueueFailed(j, r) =>
        EnqueueCleanupKeeps(db, j, r);
        CleanupDelivery(db, j, r);
      case CancelJob(j) =>
        CancelKeeps(db, j);
        CancelDelivery(db, j);
      case RetryJob(j, estimate, clock) =>
        RetryKeeps(db, j, estimate, clock);
        RetryDelivery(db, j, estimate, clock);
      case EditBudget(b, limit, status) =>
        SameRowsKeepsJobs(db, out);
        DeliveryKept(db, out);
    }
  }

  lemma CleanupDelivery(db: Db, j: JobId, r: ReservationId)
    requires DbInv(db)
    ensures AssetInv(EnqueueCleanup(db, j, r))
  {
    var out := EnqueueCleanup(db, j, r);
    if FailGuard(db, j, r) {
      var marked := MarkFailed(db, j, r);
      FinalizeFrame(marked, j, r, ToReleased);
      forall k | 0 <= k < |db.jobs| ensures SameDelivery(db.jobs[k], out.jobs[k]) {
        assert out.jobs[k].(actualCost := marked.jobs[k].actualCost) == marked.jobs[k];
      }
      DeliveryKept(db, out);
    }
  }

  lemma CancelDelivery(db: Db, j: JobId)
    requires DbInv(db)
    ensures AssetInv(Cancel(db, j))
  {
    var out := Cancel(db, j);
    if CancelOutcome(db, j) == Done {
      assert JobOk(db, j);
      var marked := db.(jobs := db.jobs[j := db.jobs[j].(status := Cancelled)]);
      FinalizeFrame(marked, j, db.jobs[j].reservation.value, ToReleased);
      forall k | 0 <= k < |db.jobs| ensures SameDelivery(db.jobs[k], out.jobs[k]) {
        assert out.jobs[k].(actualCost := marked.jobs[k].actualCost) == marked.jobs[k];
      }
      DeliveryKept(db, out);
    }
  }

  lemma RetryDelivery(db: Db, j: JobId, estimate: Option<nat>, clock: Clock)
    requires DbInv(db)
    ensures AssetInv(Retry(db, j, estimate, clock))
  {
    var out := Retry(db, j, estimate, clock);
    if RetryOutcome(db, j, estimate, clock) == Done {
      assert JobOk(db, j) && AssetOk(db, j);
      var released := FinalizeForJob(db, j, ToReleased);
      FinalizeFrame(db, j, db.jobs[j].reservation.value, ToReleased);
      ReserveFrame(released, j, db.jobs[j].scope, estimate, clock);
      forall k | 0 <= k < |db.jobs| ensures SameDelivery(db.jobs[k], out.jobs[k]) {
        assert released.jobs[k].(actualCost := db.jobs[k].actualCost) == db.jobs[k];
      }
      DeliveryKept(db, out);
    }
  }

  /** Every step of the system keeps the invariant, whoever moves. */
  lemma StepKeeps(s: Sys, a: Action)
    requires SysInv(s)
    ensures SysInv(Step(s, a)) && Evolves(s.db, Step(s, a).db)
  {
    var out := Step(s, a);
    if a.WorkerStep? {
      if a.who < |s.workers| {
        StepWorkerKeeps(s.db, s.workers[a.who], a.choice);
      } else {
        SameRowsKeepsJobs(s.db, s.db);
      }
    } else if a.Deliver? {
      SameRowsKeepsJobs(s.db, s.db);
    } else {
      RequestPathKeeps(s.db, a);
      assert out == Sys(Step(Sys(s.db, []), a).db, s.workers);
    }
    forall i | 0 <= i < |out.workers| ensures WorkerInv(out.db, out.workers[i]) {
      if i < |s.workers| && !(a.WorkerStep? && a.who == i) {
        WorkerStable(s.db, out.db, s.workers[i]);
      }
    }
  }

  lemma {:induction false} EveryRun(s: Sys, actions: seq<Action>)
    requires SysInv(s)
    ensures SysInv(Exec(s, actions)) && Evolves(s.db, Exec(s, actions).db)
  {
    if |actions| == 0 {
      SameRowsKeepsJobs(s.db, s.db);
    } else {
      var before := Exec(s, actions[..|actions| - 1]);
      EveryRun(s, actions[..|actions| - 1]);
      StepKeeps(before, actions[|actions| - 1]);
      EvolvesTransitive(s.db, before.db, Exec(s, actions).db);
    }
  }

  // Main results ---------------------------------------------------------------------------

  /** In every reachable state of every interleaving: a live job's current reservation is
  reserved, a completed job's is reserved or committed, a failed or cancelled job's is never
  committed, a reserved reservation is the one its job points at, and the actual cost stamped
  on a job is that of its current reservation, never of one a retry replaced. */
  lemma ReservationsTrackJobs(s: Sys, actions: seq<Action>, j: JobId, r: ReservationId)
    requires Initial(s)
    requires var db := Exec(s, actions).db; r < |db.reservations| && db.reservations[r].job == j
    ensures var db := Exec(s, actions).db; var status := db.reservations[r].status;
      && j < |db.jobs|
      && (status == Reserved ==> db.jobs[j].reservation == Some(r))
      && (db.jobs[j].reservation == Some(r) ==> db.jobs[j].actualCost == db.reservations[r].actual)
      && (db.jobs[j].reservation == Some(r) ==>
            match db.jobs[j].status
            case Completed => status in {Reserved, Committed}
            case JobFailed => status != Committed
            case Cancelled => status != Committed
            case _ => status == Reserved)
  {
    EveryRun(s, actions);
    var db := Exec(s, actions).db;
    assert ReservationOk(db, r) && JobOk(db, j);
  }

  /** Over the whole life of a single-image job, retries and duplicate deliveries included: at
  most one final and one preview asset are ever inserted, final_asset_ids is non-empty exactly
  when the job is completed, and the columns point at the inserted assets. */
  lemma AtMostOneDelivery(s: Sys, actions: seq<Action>, j: JobId)
    requires Initial(s)
    requires var db := Exec(s, actions).db; j < |db.jobs| && db.jobs[j].kind == SingleImage
    ensures var db := Exec(s, actions).db; var job := db.jobs[j];
      && CountAssets(db.assets, j, FinalAsset, |db.assets|) <= 1
      && CountAssets(db.assets, j, PreviewAsset, |db.assets|) <= 1
      && (job.finalAssets != [] <==> job.status == Completed)
      && (job.status == Completed && job.reservation.Some? ==> Holds(db.assets, job.finalAssets, Asset(j, FinalAsset)))
      && (CountAssets(db.assets, j, PreviewAsset, |db.assets|) == 1 ==> Holds(db.assets, job.previewAssets, Asset(j, PreviewAsset)))
  {
    EveryRun(s, actions);
    assert AssetOk(Exec(s, actions).db, j);
  }

  // Fencing ----------------------------------------------------------------------------------

  /** A worker past its first read whose reservation has been replaced on the job. */
  predicate Stale(db: Db, w: Worker) {
    w.pc !in {Start, Stopped} && w.job < |db.jobs| && !JobAt(db, w.job, w.task)
  }

  /** All a fenced step may do: bill and reconcile its own, already closed reservation r. */
  ghost predicate OnlyBills(db: Db, db': Db, r: ReservationId) {
    && db'.jobs == db.jobs && db'.holds == db.holds
    && (db'.events == db.events || (|db'.events| == |db.events| + 1 && db'.events == db.events + [db'.events[|db.events|]]
                                    && db'.events[|db.events|].reservation == r))
    && |db'.reservations| == |db.reservations| && r < |db.reservations|
    && db.reservations[r].status != Reserved
    && db'.reservations == db.reservations[r := db.reservations[r].(actual := db'.reservations[r].actual)]
    && |db'.budgets| == |db.budgets|
    && forall b :: 0 <= b < |db.budgets| ==>
         && db'.budgets[b] == db.budgets[b].(spent := db'.budgets[b].spent)
         && (db'.budgets[b] != db.budgets[b] ==> exists k :: 0 <= k < |db.holds| && ClosedHold(db.holds[k], r) && db.holds[k].budget == b)
  }

  lemma {:induction false} AdjustOnlyHeld(budgets: seq<Budget>, holds: seq<Hold>, r: ReservationId, delta: int, n: nat, b: BudgetId)
    requires n <= |holds| && b < |budgets|
    ensures AdjustHolds(budgets, holds, r, delta, n)[b] == budgets[b].(spent := AdjustHolds(budgets, holds, r, delta, n)[b].spent)
    ensures AdjustHolds(budgets, holds, r, delta, n)[b] != budgets[b] ==>
      exists k :: 0 <= k < n && ClosedHold(holds[k], r) && holds[k].budget == b
  {
    if n != 0 {
      AdjustOnlyHeld(budgets, holds, r, delta, n - 1, b);
    }
  }

  lemma ReconcileOnlyBills(db: Db, j: JobId, r: ReservationId)
    requires JobInv(db) && OwnReservation(db, j, r) && !JobAt(db, j, r)
    ensures OnlyBills(db, Reconcile(db, j, r), r)
  {
    assert ReservationOk(db, r);
    var out := Reconcile(db, j, r);
    forall b | 0 <= b < |db.budgets|
      ensures out.budgets[b] == db.budgets[b].(spent := out.budgets[b].spent)
      ensures out.budgets[b] != db.budgets[b] ==> exists k :: 0 <= k < |db.holds| && ClosedHold(db.holds[k], r) && db.holds[k].budget == b
    {
      if out != db {
        AdjustOnlyHeld(db.budgets, db.holds, r, out.reservations[r].actual.value - db.reservations[r].actual.GetOr(0), |db.holds|, b);
      }
    }
  }

  /** Every guarded update of a stale task is refused, and its finalization finds its reservation closed. */
  lemma StaleRefused(db: Db, w: Worker)
    requires JobInv(db) && WorkerInv(db, w) && Stale(db, w)
    ensures OwnReservation(db, w.job, w.task) && db.reservations[w.task].status != Reserved
    ensures !FailGuard(db, w.job, w.task) && !CompleteGuard(db, w.job, w.task) && !RunningGuard(db, w.job, w.task)
    ensures !ClaimGuard(db, w.job, w.task) && !w.pc.CommitHold?
    ensures FinalOutcome(db, w.job, w.task) == PreviewOutcome(db, w.job, w.task) == AlreadyTerminal
    ensures Finalize(db, w.job, w.task, ToReleased) == db
  {
    assert ReservationOk(db, w.task);
  }

  /** What is left is to insert a cost event, to reconcile, or to store a pack item. */
  lemma StaleMoves(db: Db, w: Worker, c: Choice)
    requires JobInv(db) && WorkerInv(db, w) && Stale(db, w)
    ensures var out := StepWorker(db, w, c).0;
      || out == db || out == Reconcile(db, w.job, w.task)
      || (exists e: CostEvent :: e.reservation == w.task && out == InsertEvent(db, e))
      || (w.pc.Persist? && w.pc.phase == PackPhase && c == Proceed && out == PersistPackItem(db, w.job, w.task, w.pc.cost))
    ensures StepWorker(db, w, c).0.assets == db.assets
       <==> !(w.pc.Persist? && w.pc.phase == PackPhase && c == Proceed && PackItemGuard(db, w.job))
  {
    StaleRefused(db, w);
    var out := StepWorker(db, w, c).0;
    if c != Crash && (w.pc.BillDiscarded? || w.pc.Generate? || (w.pc.Persist? && c != Proceed)) && out != db {
      assert out == InsertEvent(db, out.events[|db.events|]);
    }
  }

  lemma StaleStep(db: Db, w: Worker, c: Choice)
    requires DbInv(db) && WorkerInv(db, w) && Stale(db, w)
    ensures OnlyBills(db, StepWorker(db, w, c).0, w.task)
    ensures StepWorker(db, w, c).0.assets == db.assets
       <==> !(w.pc.Persist? && w.pc.phase == PackPhase && c == Proceed && PackItemGuard(db, w.job))
  {
    StaleRefused(db, w);
    StaleMoves(db, w, c);
    ReconcileOnlyBills(db, w.job, w.task);
  }

  /** Fencing: once a retry has replaced the reservation a task carries, no step of that task
  changes any job row, any hold, any other reservation or the status of its own, and no budget its
  own holds are not on; it inserts no asset, except a pack item while the reopened job is running. */
  lemma Fencing(s: Sys, actions: seq<Action>, i: nat, c: Choice)
    requires Initial(s)
    requires i < |Exec(s, actions).workers| && Stale(Exec(s, actions).db, Exec(s, actions).workers[i])
    ensures var now := Exec(s, actions); var next := Step(now, WorkerStep(i, c));
      && OnlyBills(now.db, next.db, now.workers[i].task)
      && (now.db.jobs[now.workers[i].job].kind == SingleImage ==> next.db.assets == now.db.assets)
  {
    EveryRun(s, actions);
    StaleStep(Exec(s, actions).db, Exec(s, actions).workers[i], c);
  }

  ghost predicate Reaches(s: Sys, t: Sys) {
    exists actions :: Exec(s, actions) == t
  }

  lemma Onward(s: Sys, t: Sys, a: Action)
    requires Reaches(s, t)
    ensures Reaches(s, Step(t, a))
  {
    var actions :| Exec(s, actions) == t;
    assert (actions + [a])[..|actions|] == actions;
    assert Exec(s, actions + [a]) == Step(t, a);
  }

  /** A job table with one pack job and a worker, as they stand at the points of the run below. */
  ghost predicate PackAt(s: Sys, status: JobStatus, r: ReservationId, first: ReservationStatus, pc: Pc) {
    && |s.db.jobs| == 1 && s.db.jobs[0].kind == Pack && s.db.jobs[0].status == status && s.db.jobs[0].reservation == Some(r)
    && s.db.budgets == [] && s.db.holds == [] && s.db.assets == [] && |s.db.reservations| == r + 1
    && s.db.reservations[0].job == 0 && s.db.reservations[0].status == first
    && |s.workers| > 0 && s.workers[0].job == 0 && s.workers[0].task == 0 && s.workers[0].pc == pc
  }

  lemma NoBudgetsGrant(db: Db, j: JobId, scope: Scope, clock: Clock)
    requires db.budgets == []
    ensures Reserve(db, j, scope, Some(1), clock)
         == db.(reservations := db.reservations + [Reservation(j, 1, 1, None, Reserved)])
  {
    SelectedIds(db.budgets, scope);
    assert SelectedBudgets(db.budgets, scope) == [];
    assert db.holds + NewHolds([], |db.reservations|, 1) == db.holds;
  }

  lemma StartedPack(s: Sys, q: Request, blank: Job, clock: Clock) returns (t: Sys)
    requires s == Sys(Db([], [], [], [], [], [], map[]), []) && q.kind == Pack
    ensures Reaches(s, t) && PackAt(t, Queued, 0, Reserved, Start) && |t.workers| == 1
  {
    assert Exec(s, []) == s;
    NoBudgetsGrant(s.db.(jobs := s.db.jobs + [QueuedJob(q)]), 0, q.scope, clock);
    t := Step(s, CreateJob(q, Some(1), clock));
    Onward(s, s, CreateJob(q, Some(1), clock));
    Onward(s, t, Deliver(0, 0, 0, blank));
    t := Step(t, Deliver(0, 0, 0, blank));
  }

  /** A pack worker whose first image is rendered but not stored yet. */
  lemma RenderingPack(s: Sys, before: Sys) returns (t: Sys)
    requires Reaches(s, before) && PackAt(before, Queued, 0, Reserved, Start) && |before.workers| == 1
    ensures Reaches(s, t) && PackAt(t, Running, 0, Reserved, Persist(PackPhase, None)) && |t.workers| == 1
  {
    Onward(s, before, WorkerStep(0, Proceed));
    t := Step(before, WorkerStep(0, Proceed));
    assert PackAt(t, Queued, 0, Reserved, Claim) && t.workers[0].snapshot == t.db.jobs[0];
    Onward(s, t, WorkerStep(0, Proceed));
    t := Step(t, WorkerStep(0, Proceed));
    assert PackAt(t, Running, 0, Reserved, Plan) && t.workers[0].snapshot.kind == Pack;
    Onward(s, t, WorkerStep(0, Proceed));
    t := Step(t, WorkerStep(0, Proceed));
    Onward(s, t, WorkerStep(0, CallSucceeded(None)));
    t := Step(t, WorkerStep(0, CallSucceeded(None)));
  }

  /** The job is failed by an enqueue that reported an error after all, and retried. */
  lemma ReopenedPack(s: Sys, before: Sys, clock: Clock) returns (t: Sys)
    requires Reaches(s, before) && PackAt(before, Running, 0, Reserved, Persist(PackPhase, None)) && |before.workers| == 1
    ensures Reaches(s, t) && PackAt(t, Queued, 1, Released, Persist(PackPhase, None)) && |t.workers| == 1
  {
    Onward(s, before, EnqueueFailed(0, 0));
    t := Step(before, EnqueueFailed(0, 0));
    assert PackAt(t, JobFailed, 0, Released, Persist(PackPhase, None)) && |t.workers| == 1;
    NoBudgetsGrant(t.db, 0, t.db.jobs[0].scope, clock);
    assert FinalizeForJob(t.db, 0, ToReleased) == t.db;
    Onward(s, t, RetryJob(0, Some(1), clock));
    t := Step(t, RetryJob(0, Some(1), clock));
  }

  /** Its new task is claimed, so the job is running again. */
  lemma RunningAgain(s: Sys, before: Sys, blank: Job) returns (t: Sys)
    requires Reaches(s, before) && PackAt(before, Queued, 1, Released, Persist(PackPhase, None)) && |before.workers| == 1
    ensures Reaches(s, t) && PackAt(t, Running, 1, Released, Persist(PackPhase, None))
  {
    Onward(s, before, Deliver(0, 1, 0, blank));
    t := Step(before, Deliver(0, 1, 0, blank));
    Onward(s, t, WorkerStep(1, Proceed));
    t := Step(t, WorkerStep(1, Proceed));
    assert t.workers[1].pc == Claim && t.workers[1].snapshot.status == Queued;
    Onward(s, t, WorkerStep(1, Proceed));
    t := Step(t, WorkerStep(1, Proceed));
  }

  /** The exception does occur: a reachable state in which a stale pack worker stores an item of the reopened job. */
  lemma StalePackItem(s: Sys, q: Request, blank: Job, clock: Clock) returns (t: Sys)
    requires s == Sys(Db([], [], [], [], [], [], map[]), []) && q.kind == Pack
    ensures Initial(s) && Reaches(s, t) && |t.workers| > 0 && Stale(t.db, t.workers[0])
    ensures Step(t, WorkerStep(0, Proceed)).db.assets == t.db.assets + [Asset(0, PackItemAsset)]
  {
    t := StartedPack(s, q, blank, clock);
    t := RenderingPack(s, t);
    t := ReopenedPack(s, t, clock);
    t := RunningAgain(s, t, blank);
  }

  // Redelivery of a terminal job ---------------------------------------------------------------

  /** A delivered task run to its end on a terminal job: one read, one finalization. */
  function Redeliver(db: Db, j: JobId, r: ReservationId, retry: nat, blank: Job): Db {
    var (db1, w1) := StepWorker(db, Worker(j, r, retry, blank, Start), Proceed);
    StepWorker(db1, w1, Proceed).0
  }

  /** On a terminal job a redelivered task amounts to one finalization of its reservation. */
  lemma RedeliveryFinalizes(db: Db, j: JobId, r: ReservationId, retry: nat, blank: Job)
    requires JobAt(db, j, r) && !Live(db.jobs[j].status)
    ensures Redeliver(db, j, r, retry, blank) == Finalize(db, j, r, if db.jobs[j].status == Completed then ToCommitted else ToReleased)
  {}

  lemma ClosedStaysClosed(db: Db, j: JobId, r: ReservationId, t: Target)
    requires JobInv(db) && JobAt(db, j, r)
    requires if t == ToCommitted then db.jobs[j].status == Completed else db.jobs[j].status in {JobFailed, Cancelled}
    ensures var once := Finalize(db, j, r, t);
      && r < |once.reservations| && JobAt(once, j, r) && once.jobs[j].status == db.jobs[j].status
      && (t == ToCommitted ==> once.reservations[r].status == Committed)
      && (t == ToReleased ==> once.reservations[r].status in {Released, Denied})
      && Finalize(once, j, r, t) == once
  {
    assert JobOk(db, j);
    FinalizeFrame(db, j, r, t);
    var once := Finalize(db, j, r, t);
    assert once.jobs[j].(actualCost := db.jobs[j].actualCost) == db.jobs[j];
    FinalizeFrame(once, j, r, t);
  }

  /**
   * Redelivering the task of a terminal job closes its reservation the way the job ended. After any
   * further actions of anyone, as long as the job has not been reopened under another reservation,
   * redelivering it again changes nothing at all.
   */
  lemma RedeliveryCloses(s: Sys, actions: seq<Action>, j: JobId, r: ReservationId, retry: nat, blank: Job,
                         more: seq<Action>, retry': nat)
    requires Initial(s)
    requires var db := Exec(s, actions).db; JobAt(db, j, r) && !Live(db.jobs[j].status)
    ensures var now := Exec(s, actions);
      var once := Redeliver(now.db, j, r, retry, blank);
      var later := Exec(Sys(once, now.workers), more).db;
      && r < |once.reservations| && |once.reservations| <= |later.reservations|
      && (now.db.jobs[j].status == Completed ==> once.reservations[r].status == Committed)
      && (now.db.jobs[j].status != Completed ==> once.reservations[r].status in {Released, Denied})
      && later.reservations[r].status == once.reservations[r].status
      && (JobAt(later, j, r) ==> later.jobs[j].status == now.db.jobs[j].status && Redeliver(later, j, r, retry', blank) == later)
  {
    EveryRun(s, actions);
    var now := Exec(s, actions);
    var t := if now.db.jobs[j].status == Completed then ToCommitted else ToReleased;
    ClosedStaysClosed(now.db, j, r, t);
    RedeliveryFinalizes(now.db, j, r, retry, blank);
    LaterUnmoved(now, j, r, t, more);
    if JobAt(Exec(Sys(Finalize(now.db, j, r, t), now.workers), more).db, j, r) {
      RedeliveryFinalizes(Exec(Sys(Finalize(now.db, j, r, t), now.workers), more).db, j, r, retry', blank);
    }
  }

  /** Once the reservation of a terminal job is closed, nobody moves either, but by reopening the job. */
  lemma LaterUnmoved(now: Sys, j: JobId, r: ReservationId, t: Target, more: seq<Action>)
    requires SysInv(now) && JobAt(now.db, j, r)
    requires if t == ToCommitted then now.db.jobs[j].status == Completed else now.db.jobs[j].status in {JobFailed, Cancelled}
    ensures var once := Finalize(now.db, j, r, t);
      var later := Exec(Sys(once, now.workers), more).db;
      && r < |once.reservations| <= |later.reservations| && later.reservations[r].status == once.reservations[r].status
      && (JobAt(later, j, r) ==> later.jobs[j].status == now.db.jobs[j].status)
      && !Finalizable(later, j, r)
  {
    var once := Finalize(now.db, j, r, t);
    ClosedStaysClosed(now.db, j, r, t);
    FinalizeKeeps(now.db, j, r, t);
    forall i | 0 <= i < |now.workers| ensures WorkerInv(once, now.workers[i]) {
      WorkerStable(now.db, once, now.workers[i]);
    }
    EveryRun(Sys(once, now.workers), more);
    assert RowEvolves(once.jobs[j], Exec(Sys(once, now.workers), more).db.jobs[j], |once.reservations|);
  }

  // Money over whole runs ------------------------------------------------------------------------

  /** An identity's lifetime total is the sum of the actuals of its jobs' reservations. */
  ghost predicate IdentitiesBalanced(db: Db) {
    forall i: IdentityId :: LI.IdentityOpening(db, i) == 0
  }

  /** Steps that leave reservations and identity totals alone and change no job's identity. */
  lemma IdentitiesUntouched(db: Db, db': Db)
    requires DbInv(db) && Evolves(db, db') && IdentitiesBalanced(db)
    requires db'.reservations == db.reservations && db'.identities == db.identities
    ensures IdentitiesBalanced(db')
  {
    forall i: IdentityId ensures LI.IdentityOpening(db', i) == 0 {
      assert LI.IdentityOpening(db, i) == 0;
      forall j | 0 <= j < |db.jobs| ensures db'.jobs[j].identity == db.jobs[j].identity {
        assert RowEvolves(db.jobs[j], db'.jobs[j], |db.reservations|);
      }
      LI.SumIdentityJobs(db.jobs, db'.jobs, db.reservations, i, |db.reservations|);
    }
  }

  lemma FinalizeBalances(db: Db, j: JobId, r: ReservationId, t: Target)
    requires LI.LedgerInv(db) && IdentitiesBalanced(db)
    ensures IdentitiesBalanced(Finalize(db, j, r, t))
  {
    LI.FinalizeConserves(db, j, r, t);
    forall i: IdentityId ensures LI.IdentityOpening(Finalize(db, j, r, t), i) == 0 {
      assert LI.IdentityOpening(db, i) == 0;
    }
  }

  lemma ReserveBalances(db: Db, j: JobId, scope: Scope, estimate: Option<nat>, clock: Clock)
    requires LI.LedgerInv(db) && IdentitiesBalanced(db) && j < |db.jobs|
    ensures IdentitiesBalanced(Reserve(db, j, scope, estimate, clock))
  {
    LI.ReserveConserves(db, j, scope, estimate, clock);
    forall i: IdentityId ensures LI.IdentityOpening(Reserve(db, j, scope, estimate, clock), i) == 0 {
      assert LI.IdentityOpening(db, i) == 0;
    }
  }

  /** Rewriting job rows without touching identities keeps the totals balanced. */
  lemma JobsRewritten(db: Db, jobs: seq<Job>)
    requires LI.LedgerInv(db) && IdentitiesBalanced(db) && LI.SameIdentities(db.jobs, jobs)
    ensures IdentitiesBalanced(db.(jobs := jobs))
  {
    forall i: IdentityId ensures LI.IdentityOpening(db.(jobs := jobs), i) == 0 {
      assert LI.IdentityOpening(db, i) == 0;
      LI.SumIdentityJobs(db.jobs, jobs, db.reservations, i, |db.reservations|);
    }
  }

  lemma ReconcileBalances(db: Db, j: JobId, r: ReservationId)
    requires LI.LedgerInv(db) && IdentitiesBalanced(db)
    ensures IdentitiesBalanced(Reconcile(db, j, r))
  {
    LI.ReconcileConserves(db, j, r);
    forall i: IdentityId ensures LI.IdentityOpening(Reconcile(db, j, r), i) == 0 {
      assert LI.IdentityOpening(db, i) == 0;
    }
  }

  /** Only a worker's closing steps touch reservations or identity totals. */
  lemma LedgerRowsUntouched(db: Db, w: Worker, c: Choice)
    requires c == Crash || !(w.pc.CommitHold? || w.pc.ReleaseHold? || (w.pc.ReconcileDiscarded? && c != WriteFailed))
    ensures StepWorker(db, w, c).0.reservations == db.reservations && StepWorker(db, w, c).0.identities == db.identities
  {}

  lemma WorkerBalances(db: Db, w: Worker, c: Choice)
    requires DbInv(db) && WorkerInv(db, w) && IdentitiesBalanced(db)
    ensures IdentitiesBalanced(StepWorker(db, w, c).0)
  {
    StepWorkerKeeps(db, w, c);
    if c != Crash && (w.pc.CommitHold? || w.pc.ReleaseHold?) {
      FinalizeBalances(db, w.job, w.task, if w.pc.CommitHold? then ToCommitted else ToReleased);
    } else if c != Crash && c != WriteFailed && w.pc.ReconcileDiscarded? {
      ReconcileBalances(db, w.job, w.task);
    } else {
      LedgerRowsUntouched(db, w, c);
      IdentitiesUntouched(db, StepWorker(db, w, c).0);
    }
  }

  lemma CreateBalances(db: Db, q: Request, estimate: Option<nat>, clock: Clock)
    requires DbInv(db) && IdentitiesBalanced(db)
    ensures IdentitiesBalanced(Create(db, q, estimate, clock))
  {
    var withJob := db.(jobs := db.jobs + [QueuedJob(q)]);
    JobsRewritten(db, withJob.jobs);
    LedgerUntouched(db, withJob);
    ReserveBalances(withJob, |db.jobs|, q.scope, estimate, clock);
    ReserveFrame(withJob, |db.jobs|, q.scope, estimate, clock);
    LI.ReserveKeepsInv(withJob, |db.jobs|, q.scope, estimate, clock);
    JobsRewritten(Reserve(withJob, |db.jobs|, q.scope, estimate, clock), Create(db, q, estimate, clock).jobs);
  }

  lemma RetryBalances(db: Db, j: JobId, estimate: Option<nat>, clock: Clock)
    requires DbInv(db) && IdentitiesBalanced(db)
    ensures IdentitiesBalanced(Retry(db, j, estimate, clock))
  {
    if RetryOutcome(db, j, estimate, clock) == Done {
      assert JobOk(db, j);
      var released := FinalizeForJob(db, j, ToReleased);
      ReleaseForJobKeeps(db, j);
      FinalizeBalances(db, j, db.jobs[j].reservation.value, ToReleased);
      ReserveBalances(released, j, db.jobs[j].scope, estimate, clock);
      ReserveFrame(released, j, db.jobs[j].scope, estimate, clock);
      LI.ReserveKeepsInv(released, j, db.jobs[j].scope, estimate, clock);
      JobsRewritten(RetryReservation(db, j, estimate, clock), Retry(db, j, estimate, clock).jobs);
    }
  }

  lemma RequestPathBalances(db: Db, a: Action)
    requires DbInv(db) && IdentitiesBalanced(db) && !a.Deliver? && !a.WorkerStep?
    ensures IdentitiesBalanced(Step(Sys(db, []), a).db)
  {
    RequestPathKeeps(db, a);
    var out := Step(Sys(db, []), a).db;
    match a {
      case CreateJob(q, estimate, clock) =>
        CreateBalances(db, q, estimate, clock);
      case CacheHit(_, _) => IdentitiesUntouched(db, out);
      case PackReuse(_, _) => IdentitiesUntouched(db, out);
      case EditBudget(_, _, _) => IdentitiesUntouched(db, out);
      case EnqueueFailed(j, r) =>
        if FailGuard(db, j, r) {
          JobsRewritten(db, MarkFailed(db, j, r).jobs);
          LedgerUntouched(db, MarkFailed(db, j, r));
          FinalizeBalances(MarkFailed(db, j, r), j, r, ToReleased);
        }
      case CancelJob(j) =>
        if CancelOutcome(db, j) == Done {
          assert JobOk(db, j);
          var marked := db.(jobs := db.jobs[j := db.jobs[j].(status := Cancelled)]);
          JobsRewritten(db, marked.jobs);
          LedgerUntouched(db, marked);
          FinalizeBalances(marked, j, db.jobs[j].reservation.value, ToReleased);
        }
      case RetryJob(j, estimate, clock) =>
        RetryBalances(db, j, estimate, clock);
    }
  }

  lemma {:induction false} EveryRunBalances(s: Sys, actions: seq<Action>)
    requires Initial(s)
    ensures SysInv(Exec(s, actions)) && IdentitiesBalanced(Exec(s, actions).db)
  {
    EveryRun(s, actions);
    if |actions| != 0 {
      var before := Exec(s, actions[..|actions| - 1]);
      var a := actions[|actions| - 1];
      EveryRunBalances(s, actions[..|actions| - 1]);
      if a.WorkerStep? {
        if a.who < |before.workers| {
          WorkerBalances(before.db, before.workers[a.who], a.choice);
        }
      } else if !a.Deliver? {
        RequestPathBalances(before.db, a);
      }
    }
  }

  /** In every reachable state of every interleaving, each budget's reserved amount is the sum of
  its open holds, nothing is spent below zero, and each identity's lifetime actual total is the sum
  of what its jobs' reservations were actually charged, late corrections included. */
  lemma MoneyAddsUp(s: Sys, actions: seq<Action>)
    requires Initial(s)
    ensures var db := Exec(s, actions).db;
      && (forall b :: 0 <= b < |db.budgets| ==> db.budgets[b].reserved == LI.SumReserved(db.holds, b, |db.holds|) && db.budgets[b].spent >= 0)
      && (forall i: IdentityId :: TotalsOf(db.identities, i).actual == LI.SumIdentity(db.jobs, db.reservations, i, |db.reservations|))
  {
    EveryRunBalances(s, actions);
    var db := Exec(s, actions).db;
    forall i: IdentityId ensures TotalsOf(db.identities, i).actual == LI.SumIdentity(db.jobs, db.reservations, i, |db.reservations|) {
      assert LI.IdentityOpening(db, i) == 0;
    }
  }
}
