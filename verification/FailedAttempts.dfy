/** What an attempt that does not succeed leaves behind, and what a retried delivery makes of it. */
module FailedAttempts {
  import opened Rows
  import opened CostLedger
  import opened JobTransactions
  import opened Workers
  import opened Delivery
  import LI = LedgerInvariants

  /** The job failed for good, everything else of its row as it was, and its reservation closed at what was reported. */
  ghost predicate FailedFor(db: Db, out: Db, j: JobId, r: ReservationId, reported: Option<nat>)
    requires r < |db.reservations| && j < |db.jobs|
  {
    && |out.jobs| == |db.jobs| && out.assets == db.assets
    && out.jobs[j] == db.jobs[j].(status := JobFailed, actualCost := out.jobs[j].actualCost)
    && Charged(db, out, j, r, Released, reported)
  }

  lemma FailsFor(db: Db, later: Db, w: Worker, reported: Option<nat>)
    requires LI.LedgerInv(db) && JobAt(db, w.job, w.task) && Finalizable(db, w.job, w.task)
    requires db.jobs[w.job].status in {Queued, Running, PreviewReady} && later == db.(events := later.events)
    requires ReportedTotal(later, w.job, w.task) == reported
    ensures FailedFor(db, Advance(Advance((later, Goto(w, FailJob)), Proceed), Proceed).0, w.job, w.task, reported)
  {
    var marked := MarkFailed(later, w.job, w.task);
    assert Advance((later, Goto(w, FailJob)), Proceed) == (marked, Goto(w, ReleaseHold));
    LaterFinalizeCharges(db, marked, w.job, w.task, ToReleased);
    FinalizeLeavesJob(marked, w.job, w.task);
  }

  // Failures for good -----------------------------------------------------------------------

  /** A job whose route, pixel budget or references are unusable fails before any call, and its hold is returned. */
  lemma UnusableFails(db: Db, w: Worker)
    requires LI.LedgerInv(db) && w.pc == Plan && JobAt(db, w.job, w.task) && Finalizable(db, w.job, w.task)
    requires db.jobs[w.job].status in {Queued, Running, PreviewReady}
    ensures FailedFor(db, Advance(Advance(Advance((db, w), Refuse), Proceed), Proceed).0, w.job, w.task,
                      ReportedTotal(db, w.job, w.task))
  {
    assert Advance((db, w), Refuse) == (db, Goto(w, FailJob));
    FailsFor(db, db, w, ReportedTotal(db, w.job, w.task));
  }

  /** A walk given up for good, in the final phase of a previewed job too, which keeps its preview. */
  lemma GivenUpFails(db: Db, w: Worker, phase: Phase, failed: seq<Option<nat>>)
    requires LI.LedgerInv(db) && w.pc == Generate(phase) && JobAt(db, w.job, w.task) && Finalizable(db, w.job, w.task)
    requires db.jobs[w.job].status in {Running, PreviewReady}
    ensures FailedFor(db, Advance(Advance(Advance(Failing((db, w), failed), GiveUp(true)), Proceed), Proceed).0, w.job, w.task,
                      AddCosts(ReportedTotal(db, w.job, w.task), failed))
  {
    FailuresOnlyBill(db, w, phase, failed);
    var walked := Failing((db, w), failed).0;
    FailuresBilled(db, walked, w.job, w.task, failed);
    assert Advance((walked, w), GiveUp(true)) == (walked, Goto(w, FailJob));
    FailsFor(db, walked, w, ReportedTotal(walked, w.job, w.task));
  }

  /** A rendered image that cannot be stored, for good: the call is billed, unless its event is lost, and the job fails. */
  lemma UnstorableFails(db: Db, w: Worker, phase: Phase, cost: Option<nat>, written: bool)
    requires LI.LedgerInv(db) && w.pc == Persist(phase, cost) && JobAt(db, w.job, w.task) && Finalizable(db, w.job, w.task)
    requires db.jobs[w.job].status in {Running, PreviewReady}
    ensures FailedFor(db, Advance(Advance(Advance((db, w), StoreFailed(true, written)), Proceed), Proceed).0, w.job, w.task,
                      if written then AddCost(ReportedTotal(db, w.job, w.task), cost) else ReportedTotal(db, w.job, w.task))
  {
    var billed := if written then InsertEvent(db, CallEvent(w.job, w.task, cost, EventFailed)) else db;
    assert Advance((db, w), StoreFailed(true, written)) == (billed, Goto(w, FailJob));
    if written {
      Billed(db, billed, w.job, w.task, cost, EventFailed);
    }
    FailsFor(db, billed, w, ReportedTotal(billed, w.job, w.task));
  }

  // Failures for now ------------------------------------------------------------------------

  /** A failed attempt that may be retried stops with nothing written but its calls' events; a failed pack item lets the pack go on. */
  lemma StopsForNow(db: Db, w: Worker, phase: Phase, cost: Option<nat>, written: bool)
    ensures w.pc == Generate(phase) ==> Advance((db, w), GiveUp(false)) == (db, Goto(w, Stopped))
    ensures w.pc == Persist(phase, cost) ==>
      Advance((db, w), StoreFailed(false, written))
      == (if written then db.(events := db.events + [CallEvent(w.job, w.task, cost, EventFailed)]) else db,
          Goto(w, if phase == PackPhase then Generate(PackPhase) else Stopped))
  {}

  /**
   * An attempt whose every route failed for now, and the retried delivery that follows: one final
   * asset, and one charge of what all calls of both attempts reported, or of the estimate.
   */
  lemma RetriedAttemptCompletes(db: Db, j: JobId, r: ReservationId, retry: nat, blank: Job, first: seq<Option<nat>>,
                                second: seq<Option<nat>>, cost: Option<nat>)
    requires LI.LedgerInv(db) && Ready(db, j, r) && !db.jobs[j].previewFirst
    ensures
      var left := Advance(Failing(ToFirstCall(Delivered(db, j, r, retry, blank)), first), GiveUp(false));
      var out := Advance(CallAndStore(Failing(ToFirstCall(Delivered(left.0, j, r, retry + 1, blank)), second), cost), Proceed).0;
      && left.1.pc == Stopped && |left.0.jobs| == |db.jobs| && left.0.jobs[j].status == Running
      && |out.jobs| == |db.jobs| && out.jobs[j].status == Completed && out.jobs[j].finalAssets == [|db.assets|]
      && out.assets == db.assets + [Asset(j, FinalAsset)]
      && Charged(db, out, j, r, Committed,
                 Some(AddCost(AddCosts(AddCosts(ReportedTotal(db, j, r), first), second), cost).GetOr(db.reservations[r].estimated)))
  {
    var w := Worker(j, r, retry, db.jobs[j], Generate(FinalPhase));
    FirstCallReached(db, j, r, retry, blank);
    FailuresOnlyBill(MarkRunning(db, j, r), w, FinalPhase, first);
    var left := Failing((MarkRunning(db, j, r), w), first).0;
    FailuresBilled(db, left, j, r, first);
    StopsForNow(left, w, FinalPhase, None, false);
    LedgerKept(db, left);
    RetryResumes(left, j, r, retry + 1, blank, second, cost);
    SameCharge(db, left, Advance(CallAndStore(Failing(ToFirstCall(Delivered(left, j, r, retry + 1, blank)), second), cost), Proceed).0,
               j, r, Committed,
               Some(AddCost(AddCosts(ReportedTotal(left, j, r), second), cost).GetOr(left.reservations[r].estimated)));
  }

  lemma SameCharge(db: Db, left: Db, out: Db, j: JobId, r: ReservationId, status: ReservationStatus, due: Option<nat>)
    requires r < |left.reservations| && Charged(left, out, j, r, status, due)
    requires left.budgets == db.budgets && left.holds == db.holds && left.reservations == db.reservations
    ensures Charged(db, out, j, r, status, due)
  {}

  // Races -------------------------------------------------------------------------------------

  /** Another worker of the same task, at the same point, that has read the same. */
  predicate Rivals(db: Db, first: Worker, second: Worker) {
    first.job == second.job && first.task == second.task && first.pc == second.pc && first.job < |db.jobs|
    && first.snapshot == second.snapshot && first.retry == second.retry
  }

  /** Of two deliveries that both read a queued job, the first to claim it goes on; the other stops and changes nothing. */
  lemma OneClaims(db: Db, first: Worker, second: Worker)
    requires Rivals(db, first, second) && first.pc == Claim && first.snapshot.status == Queued
    requires JobAt(db, first.job, first.task) && db.jobs[first.job].status == Queued
    ensures var (now, winner) := Advance((db, first), Proceed);
      && winner.pc == Plan && now == db.(jobs := db.jobs[first.job := db.jobs[first.job].(status := Running)])
      && Advance((now, second), Proceed) == (now, Goto(second, Stopped))
  {}

  /** Of two first deliveries of a previewed job, one renders the final image. */
  lemma OneFinalizes(db: Db, first: Worker, second: Worker)
    requires Rivals(db, first, second) && first.pc == ClaimFinal && first.retry == 0
    requires JobAt(db, first.job, first.task) && db.jobs[first.job].status in {Queued, PreviewReady}
    requires db.jobs[first.job].previewAssets != [] && db.jobs[first.job].finalAssets == [] && !db.jobs[first.job].finalizationClaimed
    ensures var (now, winner) := Advance((db, first), Proceed);
      && winner.pc == Generate(FinalPhase) && Advance((now, second), Proceed) == (now, Goto(second, Stopped))
  {}

  /**
   * The closing transitions: a completion moves a running or previewed job of the task's own
   * reservation, a failure a queued one as well. One that finds the job moved by someone else, like a
   * claim that does, stops and changes nothing.
   */
  lemma LosersStop(db: Db, w: Worker, assets: seq<AssetId>)
    requires w.job < |db.jobs|
    ensures var row, own := db.jobs[w.job], db.jobs[w.job].reservation == Some(w.task);
      var stays := (db, Goto(w, Stopped));
      && (w.pc == Claim && w.snapshot.status == Queued && !(own && row.status == Queued) ==> Advance((db, w), Proceed) == stays)
      && (w.pc == ClaimFinal && w.retry == 0 && !(own && row.status in {Queued, PreviewReady} && row.previewAssets != []
                                                  && row.finalAssets == [] && !row.finalizationClaimed) ==>
            Advance((db, w), Proceed) == stays)
      && (w.pc == CompletePack(assets) ==>
            Advance((db, w), Proceed) ==
            if own && row.status in {Running, PreviewReady}
            then (db.(jobs := db.jobs[w.job := row.(status := Completed, finalAssets := assets)]), Goto(w, CommitHold)) else stays)
      && (w.pc == FailJob ==>
            Advance((db, w), Proceed) ==
            if own && row.status in {Queued, Running, PreviewReady}
            then (db.(jobs := db.jobs[w.job := row.(status := JobFailed)]), Goto(w, ReleaseHold)) else stays)
  {}

  // Output that cannot be published --------------------------------------------------------------

  /** Where a worker stands after its write, by the row it found. */
  lemma WriteLeads(db: Db, w: Worker, phase: Phase, cost: Option<nat>)
    requires w.pc == Persist(phase, cost) && w.job < |db.jobs|
    ensures var (out, next) := Advance((db, w), Proceed);
      var row, own := db.jobs[w.job], db.jobs[w.job].reservation == Some(w.task);
      var stored := [CallEvent(w.job, w.task, cost, EventCompleted)];
      match phase
      case FinalPhase =>
        if own && row.status in {Running, PreviewReady} then
          && next.pc == CommitHold && out == db.(jobs := out.jobs, assets := db.assets + [Asset(w.job, FinalAsset)], events := db.events + stored)
          && out.jobs == db.jobs[w.job := row.(status := Completed, finalAssets := [|db.assets|])]
        else if own && row.status == Queued then
          next.pc == Stopped && out == db.(events := db.events + [CallEvent(w.job, w.task, cost, EventFailed)])
        else out == db && next.pc == BillDiscarded(cost, if own && row.status == Cancelled then ThenCheckCancelled else ThenStop)
      case PreviewPhase =>
        if own && row.status == Running then
          && next.pc == ClaimFinal && out == db.(jobs := out.jobs, assets := db.assets + [Asset(w.job, PreviewAsset)], events := db.events + stored)
          && out.jobs == db.jobs[w.job := row.(status := PreviewReady, previewAssets := [|db.assets|])]
        else if own && row.status == Queued then
          next.pc == Stopped && out == db.(events := db.events + [CallEvent(w.job, w.task, cost, EventFailed)])
        else
          out == db && next.pc == BillDiscarded(cost, if own && row.status == Cancelled then ThenCheckCancelled
                                                      else if own && row.status == PreviewReady then ThenClaimFinal else ThenStop)
      case PackPhase =>
        if row.status == Running then
          next == Goto(w, Generate(PackPhase)) && out == db.(assets := db.assets + [Asset(w.job, PackItemAsset)], events := db.events + stored)
        else out == db && next.pc == BillDiscarded(cost, ThenCheckCancelled)
  {}

  /**
   * Where the recording of a discarded output leads: a preview that came second goes on to the final
   * phase; one found on a cancelled job sees to it that the reservation is released; any other stops.
   */
  lemma DiscardLeads(db: Db, w: Worker, cost: Option<nat>, after: After, recorded: bool, reconciled: bool)
    requires w.pc == BillDiscarded(cost, after) && w.job < |db.jobs|
    ensures var left := Advance(Advance((db, w), if recorded then Proceed else WriteFailed), if reconciled then Proceed else WriteFailed);
      && |left.0.jobs| == |db.jobs| && left.0.jobs[w.job].status == db.jobs[w.job].status && left.0.assets == db.assets
      && (after == ThenStop ==> left.1.pc == Stopped)
      && (after == ThenClaimFinal ==> left.1.pc == ClaimFinal)
      && (after == ThenCheckCancelled ==>
            var out := Advance(Advance(left, Proceed), Proceed);
            && out.1.pc == Stopped
            && out.0 == (if db.jobs[w.job].status == Cancelled then Finalize(left.0, w.job, w.task, ToReleased) else left.0))
  {
    var billed := Advance((db, w), if recorded then Proceed else WriteFailed);
    assert billed.1 == Goto(w, ReconcileDiscarded(after)) && billed.0.jobs == db.jobs && billed.0.assets == db.assets;
    var left := Advance(billed, if reconciled then Proceed else WriteFailed);
    assert left.1 == Goto(w, Resume(after));
  }
}
