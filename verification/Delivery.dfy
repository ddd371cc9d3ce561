/** Whole deliveries left undisturbed: what the transactions achieve together, from any state
in which they may start.
*/
module Delivery {
  import opened Rows
  import opened CostLedger
  import opened JobTransactions
  import opened Workers
  import LI = LedgerInvariants
  import LB = LateBilling

  // A delivery, step by step -----------------------------------------------------------

  function Advance(s: (Db, Worker), c: Choice): (Db, Worker) {
    StepWorker(s.0, s.1, c)
  }

  function Delivered(db: Db, j: JobId, r: ReservationId, retry: nat, blank: Job): (Db, Worker) {
    (db, Worker(j, r, retry, blank, Start))
  }

  /** Read, claim, plan: up to the first provider call. */
  function ToFirstCall(s: (Db, Worker)): (Db, Worker) {
    Advance(Advance(Advance(s, Proceed), Proceed), Proceed)
  }

  /** One successful provider call and the write of its result. */
  function CallAndStore(s: (Db, Worker), cost: Option<nat>): (Db, Worker) {
    Advance(Advance(s, CallSucceeded(cost)), Proceed)
  }

  /** A queued single-image job that holds an open reservation. */
  predicate Ready(db: Db, j: JobId, r: ReservationId) {
    JobAt(db, j, r) && db.jobs[j].status == Queued && db.jobs[j].kind == SingleImage && Finalizable(db, j, r)
  }

  lemma FirstCallReached(db: Db, j: JobId, r: ReservationId, retry: nat, blank: Job)
    requires Ready(db, j, r) && (db.jobs[j].previewFirst ==> db.jobs[j].previewAssets == [])
    ensures ToFirstCall(Delivered(db, j, r, retry, blank))
         == (MarkRunning(db, j, r),
             Worker(j, r, retry, db.jobs[j], Generate(if db.jobs[j].previewFirst then PreviewPhase else FinalPhase)))
  {
    var read := Advance(Delivered(db, j, r, retry, blank), Proceed);
    assert read == (db, Worker(j, r, retry, db.jobs[j], Claim));
    var claimed := Advance(read, Proceed);
    assert claimed == (MarkRunning(db, j, r), Worker(j, r, retry, db.jobs[j], Plan));
  }

  lemma FinalStored(db: Db, j: JobId, r: ReservationId, retry: nat, snapshot: Job, cost: Option<nat>)
    requires JobAt(db, j, r) && db.jobs[j].status in {Running, PreviewReady}
    ensures CallAndStore((db, Worker(j, r, retry, snapshot, Generate(FinalPhase))), cost)
         == (PersistFinal(db, j, r, cost), Worker(j, r, retry, snapshot, CommitHold))
  {
    assert FinalOutcome(db, j, r) == Persisted;
  }

  lemma PreviewStored(db: Db, j: JobId, r: ReservationId, retry: nat, snapshot: Job, cost: Option<nat>)
    requires JobAt(db, j, r) && db.jobs[j].status == Running
    ensures CallAndStore((db, Worker(j, r, retry, snapshot, Generate(PreviewPhase))), cost)
         == (PersistPreview(db, j, r, cost), Worker(j, r, retry, snapshot, ClaimFinal))
  {
    assert PreviewOutcome(db, j, r) == Persisted;
  }

  /** Routes that fail one after the other, each perhaps billed. */
  function Failing(s: (Db, Worker), costs: seq<Option<nat>>): (Db, Worker) {
    if costs == [] then s else Advance(Failing(s, costs[..|costs| - 1]), CallFailed(costs[|costs| - 1]))
  }

  function FailedCalls(j: JobId, r: ReservationId, costs: seq<Option<nat>>): seq<CostEvent> {
    seq(|costs|, k requires 0 <= k < |costs| => CallEvent(j, r, costs[k], EventFailed))
  }

  /** They leave the worker where it is and everything but the events as it was. */
  lemma {:induction false} FailuresOnlyBill(db: Db, w: Worker, phase: Phase, costs: seq<Option<nat>>)
    requires w.pc == Generate(phase)
    ensures Failing((db, w), costs) == (db.(events := db.events + FailedCalls(w.job, w.task, costs)), w)
  {
    var calls := FailedCalls(w.job, w.task, costs);
    if costs == [] {
      assert db.events + calls == db.events;
    } else {
      var n := |costs| - 1;
      FailuresOnlyBill(db, w, phase, costs[..n]);
      var before := FailedCalls(w.job, w.task, costs[..n]);
      assert calls == before + [CallEvent(w.job, w.task, costs[n], EventFailed)];
      assert db.events + calls == (db.events + before) + [CallEvent(w.job, w.task, costs[n], EventFailed)];
    }
  }

  // Money ------------------------------------------------------------------------------

  /** What has been reported once one more call is billed. */
  function AddCost(reported: Option<nat>, cost: Option<nat>): Option<nat> {
    if cost.Some? then Some(reported.GetOr(0) + cost.value) else reported
  }

  function AddCosts(reported: Option<nat>, costs: seq<Option<nat>>): Option<nat> {
    if costs == [] then reported else AddCost(AddCosts(reported, costs[..|costs| - 1]), costs[|costs| - 1])
  }

  lemma Billed(db: Db, db': Db, j: JobId, r: ReservationId, cost: Option<nat>, status: EventStatus)
    requires db'.events == db.events + [CallEvent(j, r, cost, status)]
    ensures ReportedTotal(db', j, r) == AddCost(ReportedTotal(db, j, r), cost)
  {
    LB.SameReported(db.events, db'.events, j, r, |db.events|);
  }

  lemma {:induction false} FailuresBilled(db: Db, db': Db, j: JobId, r: ReservationId, costs: seq<Option<nat>>)
    requires db'.events == db.events + FailedCalls(j, r, costs)
    ensures ReportedTotal(db', j, r) == AddCosts(ReportedTotal(db, j, r), costs)
    decreases |costs|
  {
    if costs == [] {
      assert db'.events == db.events;
    } else {
      var n := |costs| - 1;
      var before := db.(events := db.events + FailedCalls(j, r, costs[..n]));
      FailuresBilled(db, before, j, r, costs[..n]);
      assert db'.events == before.events + [CallEvent(j, r, costs[n], EventFailed)];
      Billed(before, db', j, r, costs[n], EventFailed);
    }
  }

  lemma {:induction false} NothingAdded(reported: Option<nat>, costs: seq<Option<nat>>)
    requires forall k :: 0 <= k < |costs| ==> costs[k].None?
    ensures AddCosts(reported, costs) == reported
  {
    if costs != [] {
      NothingAdded(reported, costs[..|costs| - 1]);
    }
  }

  /** The reservation closed at `due`, and every budget charged for it, once per hold. */
  ghost predicate Charged(was: Db, now: Db, j: JobId, r: ReservationId, status: ReservationStatus, due: Option<nat>)
    requires r < |was.reservations|
  {
    && |now.reservations| == |was.reservations| && |now.budgets| == |was.budgets|
    && now.reservations[r] == was.reservations[r].(status := status, actual := due)
    && (forall k :: 0 <= k < |was.reservations| && k != r ==> now.reservations[k] == was.reservations[k])
    && (forall b :: 0 <= b < |was.budgets| ==>
          now.budgets[b] == was.budgets[b].(
            reserved := was.budgets[b].reserved - LI.HeldBy(was.holds, r, b, |was.holds|),
            spent := was.budgets[b].spent + LI.PerOpenHold(was.holds, r, b, due.GetOr(0), |was.holds|)))
  }

  lemma FinalizeCharges(db: Db, j: JobId, r: ReservationId, t: Target)
    requires LI.LedgerInv(db) && Finalizable(db, j, r)
    ensures Charged(db, Finalize(db, j, r, t), j, r, StatusFor(t), FinalActual(db, j, r, t))
  {
    forall b | 0 <= b < |db.budgets| {
      LI.SettledBudget(db, r, FinalActual(db, j, r, t).GetOr(0), b);
    }
  }

  /** The ledger invariant reads nothing of a job but its identity. */
  lemma LedgerKept(db: Db, db': Db)
    requires LI.LedgerInv(db) && |db'.jobs| == |db.jobs|
    requires db'.budgets == db.budgets && db'.holds == db.holds && db'.reservations == db.reservations
    ensures LI.LedgerInv(db')
  {}

  /** Finalizing after steps that moved no money charges the ledger they started from. */
  lemma LaterFinalizeCharges(db: Db, later: Db, j: JobId, r: ReservationId, t: Target)
    requires LI.LedgerInv(db) && Finalizable(db, j, r) && |later.jobs| == |db.jobs|
    requires later.budgets == db.budgets && later.holds == db.holds && later.reservations == db.reservations
    ensures Charged(db, Finalize(later, j, r, t), j, r, StatusFor(t), FinalActual(later, j, r, t))
  {
    LedgerKept(db, later);
    FinalizeCharges(later, j, r, t);
  }

  /** The last step of a delivery: the reservation is committed at what was reported, else at the estimate. */
  lemma CommitCharges(db: Db, stored: Db, j: JobId, r: ReservationId, w: Worker, reported: Option<nat>)
    requires LI.LedgerInv(db) && Finalizable(db, j, r) && |stored.jobs| == |db.jobs| && j < |db.jobs|
    requires stored.budgets == db.budgets && stored.holds == db.holds && stored.reservations == db.reservations
    requires w.pc == CommitHold && w.job == j && w.task == r && ReportedTotal(stored, j, r) == reported
    ensures var out := Advance((stored, w), Proceed).0;
      && |out.jobs| == |stored.jobs| && out.jobs[j].(actualCost := stored.jobs[j].actualCost) == stored.jobs[j]
      && out.assets == stored.assets && Charged(db, out, j, r, Committed, Some(reported.GetOr(db.reservations[r].estimated)))
  {
    LaterFinalizeCharges(db, stored, j, r, ToCommitted);
  }

  // Main results -----------------------------------------------------------------------

  /**
   * A delivery of a queued job that nothing disturbs completes it with exactly one final asset,
   * however many routes fail first, and charges what was reported in all, or the estimate when
   * nothing was.
   */
  lemma UndisturbedFinal(db: Db, j: JobId, r: ReservationId, retry: nat, blank: Job, failed: seq<Option<nat>>, cost: Option<nat>)
    requires LI.LedgerInv(db) && Ready(db, j, r) && !db.jobs[j].previewFirst
    ensures
      var out := Advance(CallAndStore(Failing(ToFirstCall(Delivered(db, j, r, retry, blank)), failed), cost), Proceed).0;
      && |out.jobs| == |db.jobs| && out.jobs[j].status == Completed && out.jobs[j].finalAssets == [|db.assets|]
      && out.assets == db.assets + [Asset(j, FinalAsset)]
      && Charged(db, out, j, r, Committed,
                 Some(AddCost(AddCosts(ReportedTotal(db, j, r), failed), cost).GetOr(db.reservations[r].estimated)))
  {
    var w := Worker(j, r, retry, db.jobs[j], Generate(FinalPhase));
    FirstCallReached(db, j, r, retry, blank);
    FailuresOnlyBill(MarkRunning(db, j, r), w, FinalPhase, failed);
    var walked := Failing((MarkRunning(db, j, r), w), failed).0;
    var stored := PersistFinal(walked, j, r, cost);
    FinalStored(walked, j, r, retry, db.jobs[j], cost);
    FailuresBilled(db, walked, j, r, failed);
    Billed(walked, stored, j, r, cost, EventCompleted);
    CommitCharges(db, stored, j, r, Goto(w, CommitHold), AddCost(AddCosts(ReportedTotal(db, j, r), failed), cost));
  }

  /** The first half of a two-phase delivery: one preview, nothing charged yet. */
  lemma UndisturbedPreview(db: Db, j: JobId, r: ReservationId, retry: nat, blank: Job, failed: seq<Option<nat>>, cost: Option<nat>)
    returns (walked: Db)
    requires Ready(db, j, r) && db.jobs[j].previewFirst && db.jobs[j].previewAssets == []
    ensures CallAndStore(Failing(ToFirstCall(Delivered(db, j, r, retry, blank)), failed), cost)
         == (PersistPreview(walked, j, r, cost), Worker(j, r, retry, db.jobs[j], ClaimFinal))
    ensures walked == MarkRunning(db, j, r).(events := walked.events) && PreviewOutcome(walked, j, r) == Persisted
    ensures ReportedTotal(PersistPreview(walked, j, r, cost), j, r) == AddCost(AddCosts(ReportedTotal(db, j, r), failed), cost)
  {
    var w := Worker(j, r, retry, db.jobs[j], Generate(PreviewPhase));
    FirstCallReached(db, j, r, retry, blank);
    FailuresOnlyBill(MarkRunning(db, j, r), w, PreviewPhase, failed);
    walked := Failing((MarkRunning(db, j, r), w), failed).0;
    PreviewStored(walked, j, r, retry, db.jobs[j], cost);
    FailuresBilled(db, walked, j, r, failed);
    Billed(walked, PersistPreview(walked, j, r, cost), j, r, cost, EventCompleted);
  }

  /** The second half, from a claim that is free: one final asset, and the charge. */
  lemma UndisturbedSecond(db: Db, j: JobId, r: ReservationId, retry: nat, snapshot: Job, failed: seq<Option<nat>>, cost: Option<nat>)
    returns (stored: Db)
    requires ClaimGuard(db, j, r) && !(retry > 0 && (snapshot.status == Running || snapshot.finalizationClaimed))
    ensures CallAndStore(Failing(Advance((db, Worker(j, r, retry, snapshot, ClaimFinal)), Proceed), failed), cost)
         == (stored, Worker(j, r, retry, snapshot, CommitHold))
    ensures |stored.jobs| == |db.jobs| && stored.assets == db.assets + [Asset(j, FinalAsset)]
    ensures stored.jobs[j] == db.jobs[j].(status := Completed, finalAssets := [|db.assets|], finalizationClaimed := true)
    ensures stored.budgets == db.budgets && stored.holds == db.holds && stored.reservations == db.reservations
    ensures ReportedTotal(stored, j, r) == AddCost(AddCosts(ReportedTotal(db, j, r), failed), cost)
  {
    var w := Worker(j, r, retry, snapshot, Generate(FinalPhase));
    var claimed := ClaimPreviewFinalization(db, j, r);
    assert Advance((db, Worker(j, r, retry, snapshot, ClaimFinal)), Proceed) == (claimed, w);
    FailuresOnlyBill(claimed, w, FinalPhase, failed);
    var walked := Failing((claimed, w), failed).0;
    stored := PersistFinal(walked, j, r, cost);
    FinalStored(walked, j, r, retry, snapshot, cost);
    FailuresBilled(db, walked, j, r, failed);
    Billed(walked, stored, j, r, cost, EventCompleted);
  }

  /** The two-phase delivery: one preview, then one final asset, and one charge for all calls. */
  lemma UndisturbedPreviewFirst(db: Db, j: JobId, r: ReservationId, retry: nat, blank: Job,
                                failed: seq<Option<nat>>, first: Option<nat>, failed': seq<Option<nat>>, second: Option<nat>)
    requires LI.LedgerInv(db) && Ready(db, j, r) && db.jobs[j].previewFirst
    requires db.jobs[j].previewAssets == [] && db.jobs[j].finalAssets == [] && !db.jobs[j].finalizationClaimed
    ensures
      var previewed := CallAndStore(Failing(ToFirstCall(Delivered(db, j, r, retry, blank)), failed), first);
      var out := Advance(CallAndStore(Failing(Advance(previewed, Proceed), failed'), second), Proceed).0;
      && |previewed.0.jobs| == |db.jobs| && previewed.0.jobs[j].status == PreviewReady
      && |out.jobs| == |db.jobs| && out.jobs[j].status == Completed
      && out.jobs[j].previewAssets == [|db.assets|] && out.jobs[j].finalAssets == [|db.assets| + 1]
      && out.assets == db.assets + [Asset(j, PreviewAsset), Asset(j, FinalAsset)]
      && Charged(db, out, j, r, Committed,
                 Some(AddCost(AddCosts(AddCost(AddCosts(ReportedTotal(db, j, r), failed), first), failed'), second)
                      .GetOr(db.reservations[r].estimated)))
  {
    var walked := UndisturbedPreview(db, j, r, retry, blank, failed, first);
    var previewed := PersistPreview(walked, j, r, first);
    var stored := UndisturbedSecond(previewed, j, r, retry, db.jobs[j], failed', second);
    assert stored.assets == db.assets + [Asset(j, PreviewAsset), Asset(j, FinalAsset)];
    CommitCharges(db, stored, j, r, Worker(j, r, retry, db.jobs[j], CommitHold),
                  AddCost(AddCosts(AddCost(AddCosts(ReportedTotal(db, j, r), failed), first), failed'), second));
  }

  /** A job that already has its preview, a retried one say, goes straight to the final render. */
  lemma UndisturbedResume(db: Db, j: JobId, r: ReservationId, retry: nat, blank: Job, failed: seq<Option<nat>>, cost: Option<nat>)
    requires LI.LedgerInv(db) && Ready(db, j, r) && db.jobs[j].previewFirst
    requires db.jobs[j].previewAssets != [] && db.jobs[j].finalAssets == [] && !db.jobs[j].finalizationClaimed
    ensures
      var out := Advance(CallAndStore(Failing(ToFirstCall(Delivered(db, j, r, retry, blank)), failed), cost), Proceed).0;
      && |out.jobs| == |db.jobs| && out.jobs[j].status == Completed && out.jobs[j].previewAssets == db.jobs[j].previewAssets
      && out.assets == db.assets + [Asset(j, FinalAsset)]
      && Charged(db, out, j, r, Committed,
                 Some(AddCost(AddCosts(ReportedTotal(db, j, r), failed), cost).GetOr(db.reservations[r].estimated)))
  {
    var read := Advance(Delivered(db, j, r, retry, blank), Proceed);
    assert read == (db, Worker(j, r, retry, db.jobs[j], Plan));
    assert Advance(read, Proceed) == (db, Worker(j, r, retry, db.jobs[j], ClaimFinal));
    var stored := UndisturbedSecond(db, j, r, retry, db.jobs[j], failed, cost);
    CommitCharges(db, stored, j, r, Worker(j, r, retry, db.jobs[j], CommitHold),
                  AddCost(AddCosts(ReportedTotal(db, j, r), failed), cost));
  }

  // Which deliveries render, and which retries resume -------------------------------------

  /** Whether a delivery of the job's own task goes on to a provider call, read off the row and the retry count. */
  predicate Renders(job: Job, retry: nat) {
    if job.kind == SingleImage && job.previewFirst && job.previewAssets != [] then
      // The final phase of a previewed job: its owner's retry, or whoever claims it first.
      || (retry > 0 && (job.status == Running || (job.status in {Queued, PreviewReady} && job.finalizationClaimed)))
      || (job.status in {Queued, PreviewReady} && job.finalAssets == [] && !job.finalizationClaimed)
    else
      job.status == Queued || (job.status == Running && retry > 0)
  }

  /** The phase it renders. */
  function FirstPhase(job: Job): Phase {
    if job.kind == Pack then PackPhase
    else if job.previewFirst && job.previewAssets == [] then PreviewPhase
    else FinalPhase
  }

  /** The row as that delivery leaves it: a queued job runs, and the final phase of a previewed one is marked as claimed. */
  function ClaimedRow(job: Job): Job {
    var resumed := job.kind == SingleImage && job.previewFirst && job.previewAssets != [];
    job.(status := if job.status == Queued && !(resumed && job.finalizationClaimed) then Running else job.status,
         finalizationClaimed := job.finalizationClaimed || (resumed && job.status in {Queued, PreviewReady}))
  }

  /**
   * A delivered task reaches a provider call exactly when it carries the job's reservation and the
   * row lets it: a queued job is claimed, a running one is resumed by a retry and by nothing else. On
   * a live job every other delivery stops and leaves the tables as they are.
   */
  lemma WhoRenders(db: Db, j: JobId, r: ReservationId, retry: nat, blank: Job)
    requires j < |db.jobs|
    ensures var (out, w) := ToFirstCall(Delivered(db, j, r, retry, blank));
      && (w.pc.Generate? <==> db.jobs[j].reservation == Some(r) && Renders(db.jobs[j], retry))
      && (w.pc.Generate? ==> w == Worker(j, r, retry, db.jobs[j], Generate(FirstPhase(db.jobs[j]))))
      && (!w.pc.Generate? ==> w.pc == Stopped)
      && (db.jobs[j].reservation != Some(r) ==> out == db)
      && (Live(db.jobs[j].status) && !w.pc.Generate? ==> out == db)
      && (w.pc.Generate? ==> out == db.(jobs := db.jobs[j := ClaimedRow(db.jobs[j])]))
  {
    var read := Advance(Delivered(db, j, r, retry, blank), Proceed);
    var next := Advance(read, Proceed);
    assert JobAt(db, j, r) <==> db.jobs[j].reservation == Some(r);
    if JobAt(db, j, r) {
      assert read.0 == db && read.1.snapshot == db.jobs[j];
      assert db.jobs[j := db.jobs[j]] == db.jobs;
    }
  }

  /**
   * A retried delivery of a job that an earlier attempt left running, or previewed with its final
   * phase claimed, goes on where that attempt stopped: one final asset, and one charge of what was
   * reported in all, or of the estimate.
   */
  lemma RetryResumes(db: Db, j: JobId, r: ReservationId, retry: nat, blank: Job, failed: seq<Option<nat>>, cost: Option<nat>)
    requires LI.LedgerInv(db) && JobAt(db, j, r) && Finalizable(db, j, r) && db.jobs[j].kind == SingleImage && retry > 0
    requires || (db.jobs[j].status == Running && (db.jobs[j].previewFirst ==> db.jobs[j].previewAssets != []))
             || (db.jobs[j].status == PreviewReady && db.jobs[j].previewFirst && db.jobs[j].previewAssets != []
                 && db.jobs[j].finalizationClaimed)
    ensures
      var out := Advance(CallAndStore(Failing(ToFirstCall(Delivered(db, j, r, retry, blank)), failed), cost), Proceed).0;
      && |out.jobs| == |db.jobs| && out.jobs[j].status == Completed && out.jobs[j].finalAssets == [|db.assets|]
      && out.jobs[j].previewAssets == db.jobs[j].previewAssets && out.assets == db.assets + [Asset(j, FinalAsset)]
      && Charged(db, out, j, r, Committed,
                 Some(AddCost(AddCosts(ReportedTotal(db, j, r), failed), cost).GetOr(db.reservations[r].estimated)))
  {
    var w := Worker(j, r, retry, db.jobs[j], Generate(FinalPhase));
    ResumedCall(db, j, r, retry, blank);
    FailuresOnlyBill(db, w, FinalPhase, failed);
    var walked := Failing((db, w), failed).0;
    var stored := PersistFinal(walked, j, r, cost);
    FinalStored(walked, j, r, retry, db.jobs[j], cost);
    FailuresBilled(db, walked, j, r, failed);
    Billed(walked, stored, j, r, cost, EventCompleted);
    CommitCharges(db, stored, j, r, Goto(w, CommitHold), AddCost(AddCosts(ReportedTotal(db, j, r), failed), cost));
  }

  lemma ResumedCall(db: Db, j: JobId, r: ReservationId, retry: nat, blank: Job)
    requires JobAt(db, j, r) && db.jobs[j].kind == SingleImage && retry > 0
    requires db.jobs[j].status == Running || (db.jobs[j].status == PreviewReady && db.jobs[j].previewFirst
                                              && db.jobs[j].previewAssets != [] && db.jobs[j].finalizationClaimed)
    ensures ToFirstCall(Delivered(db, j, r, retry, blank))
         == (db, Worker(j, r, retry, db.jobs[j], Generate(FirstPhase(db.jobs[j]))))
  {
    var read := Advance(Delivered(db, j, r, retry, blank), Proceed);
    assert read.0 == db && read.1.snapshot == db.jobs[j];
    var next := Advance(read, Proceed);
    assert next.0 == db;
  }

  /** The same for one left running before its preview: the preview, then the final asset, then one charge. */
  lemma RetryResumesPreview(db: Db, j: JobId, r: ReservationId, retry: nat, blank: Job,
                            failed: seq<Option<nat>>, first: Option<nat>, failed': seq<Option<nat>>, second: Option<nat>)
    requires LI.LedgerInv(db) && JobAt(db, j, r) && Finalizable(db, j, r) && db.jobs[j].kind == SingleImage && retry > 0
    requires db.jobs[j].status == Running && db.jobs[j].previewFirst && db.jobs[j].previewAssets == []
    ensures
      var previewed := CallAndStore(Failing(ToFirstCall(Delivered(db, j, r, retry, blank)), failed), first);
      var out := Advance(CallAndStore(Failing(Advance(previewed, Proceed), failed'), second), Proceed).0;
      && |previewed.0.jobs| == |db.jobs| && previewed.0.jobs[j].status == PreviewReady
      && |out.jobs| == |db.jobs| && out.jobs[j].status == Completed
      && out.jobs[j].previewAssets == [|db.assets|] && out.jobs[j].finalAssets == [|db.assets| + 1]
      && out.assets == db.assets + [Asset(j, PreviewAsset), Asset(j, FinalAsset)]
      && Charged(db, out, j, r, Committed,
                 Some(AddCost(AddCosts(AddCost(AddCosts(ReportedTotal(db, j, r), failed), first), failed'), second)
                      .GetOr(db.reservations[r].estimated)))
  {
    var walked := ResumedPreview(db, j, r, retry, blank, failed, first);
    var previewed := PersistPreview(walked, j, r, first);
    var stored := ResumedSecond(previewed, j, r, retry, db.jobs[j], failed', second);
    assert stored.assets == db.assets + [Asset(j, PreviewAsset), Asset(j, FinalAsset)];
    CommitCharges(db, stored, j, r, Worker(j, r, retry, db.jobs[j], CommitHold),
                  AddCost(AddCosts(AddCost(AddCosts(ReportedTotal(db, j, r), failed), first), failed'), second));
  }

  lemma ResumedPreview(db: Db, j: JobId, r: ReservationId, retry: nat, blank: Job, failed: seq<Option<nat>>, cost: Option<nat>)
    returns (walked: Db)
    requires JobAt(db, j, r) && db.jobs[j].kind == SingleImage && retry > 0
    requires db.jobs[j].status == Running && db.jobs[j].previewFirst && db.jobs[j].previewAssets == []
    ensures CallAndStore(Failing(ToFirstCall(Delivered(db, j, r, retry, blank)), failed), cost)
         == (PersistPreview(walked, j, r, cost), Worker(j, r, retry, db.jobs[j], ClaimFinal))
    ensures walked == db.(events := walked.events) && PreviewOutcome(walked, j, r) == Persisted
    ensures ReportedTotal(PersistPreview(walked, j, r, cost), j, r) == AddCost(AddCosts(ReportedTotal(db, j, r), failed), cost)
  {
    var w := Worker(j, r, retry, db.jobs[j], Generate(PreviewPhase));
    ResumedCall(db, j, r, retry, blank);
    FailuresOnlyBill(db, w, PreviewPhase, failed);
    walked := Failing((db, w), failed).0;
    PreviewStored(walked, j, r, retry, db.jobs[j], cost);
    FailuresBilled(db, walked, j, r, failed);
    Billed(walked, PersistPreview(walked, j, r, cost), j, r, cost, EventCompleted);
  }

  /** The final phase of an attempt that read the job as running needs no claim. */
  lemma ResumedSecond(db: Db, j: JobId, r: ReservationId, retry: nat, snapshot: Job, failed: seq<Option<nat>>, cost: Option<nat>)
    returns (stored: Db)
    requires JobAt(db, j, r) && db.jobs[j].status == PreviewReady && retry > 0 && snapshot.status == Running
    ensures CallAndStore(Failing(Advance((db, Worker(j, r, retry, snapshot, ClaimFinal)), Proceed), failed), cost)
         == (stored, Worker(j, r, retry, snapshot, CommitHold))
    ensures |stored.jobs| == |db.jobs| && stored.assets == db.assets + [Asset(j, FinalAsset)]
    ensures stored.jobs[j] == db.jobs[j].(status := Completed, finalAssets := [|db.assets|])
    ensures stored.budgets == db.budgets && stored.holds == db.holds && stored.reservations == db.reservations
    ensures ReportedTotal(stored, j, r) == AddCost(AddCosts(ReportedTotal(db, j, r), failed), cost)
  {
    var w := Worker(j, r, retry, snapshot, Generate(FinalPhase));
    assert Advance((db, Worker(j, r, retry, snapshot, ClaimFinal)), Proceed) == (db, w);
    FailuresOnlyBill(db, w, FinalPhase, failed);
    var walked := Failing((db, w), failed).0;
    stored := PersistFinal(walked, j, r, cost);
    FinalStored(walked, j, r, retry, snapshot, cost);
    FailuresBilled(db, walked, j, r, failed);
    Billed(walked, stored, j, r, cost, EventCompleted);
  }

  /** One rendered pack item stored, or a failed one recorded, leaves a running pack's worker where it was. */
  lemma PackItemStored(db: Db, w: Worker, cost: Option<nat>)
    requires w.pc == Generate(PackPhase) && PackItemGuard(db, w.job)
    ensures var (out, next) := CallAndStore((db, w), cost);
      && next == w && out == db.(assets := db.assets + [Asset(w.job, PackItemAsset)],
                                 events := db.events + [CallEvent(w.job, w.task, cost, EventCompleted)])
      && ReportedTotal(out, w.job, w.task) == AddCost(ReportedTotal(db, w.job, w.task), cost)
  {
    Billed(db, CallAndStore((db, w), cost).0, w.job, w.task, cost, EventCompleted);
  }

  /**
   * The end of a pack run that nothing disturbs: with anything delivered the job completes with those
   * assets and is charged what was reported, or the estimate; with nothing it fails and is charged
   * what was reported.
   */
  lemma PackCloses(db: Db, w: Worker, delivered: seq<AssetId>, written: bool)
    requires LI.LedgerInv(db) && w.pc == Generate(PackPhase) && JobAt(db, w.job, w.task)
    requires db.jobs[w.job].status == Running && Finalizable(db, w.job, w.task)
    ensures var out := Advance(Advance(Advance((db, w), FinishPack(delivered, written)), Proceed), Proceed).0;
      var job, reported := db.jobs[w.job], ReportedTotal(db, w.job, w.task);
      && |out.jobs| == |db.jobs| && out.assets == db.assets
      && out.jobs[w.job].status == (if delivered != [] then Completed else JobFailed)
      && out.jobs[w.job].finalAssets == (if delivered != [] then delivered else job.finalAssets)
      && (if delivered != [] then
            Charged(db, out, w.job, w.task, Committed, Some(reported.GetOr(db.reservations[w.task].estimated)))
          else Charged(db, out, w.job, w.task, Released, reported))
  {
    var closing := Advance((db, w), FinishPack(delivered, written));
    var event := CallEvent(w.job, w.task, None, if delivered == [] then EventFailed else EventCompleted);
    var told := if written then InsertEvent(db, event) else db;
    assert closing == (told, Goto(w, if delivered == [] then FailJob else CompletePack(delivered)));
    if written {
      Billed(db, told, w.job, w.task, None, event.status);
    }
    if delivered != [] {
      PackCompletes(db, told, w, delivered);
    } else {
      PackFails(db, told, w);
    }
  }

  lemma PackCompletes(db: Db, told: Db, w: Worker, delivered: seq<AssetId>)
    requires LI.LedgerInv(db) && JobAt(db, w.job, w.task) && Finalizable(db, w.job, w.task) && delivered != []
    requires db.jobs[w.job].status == Running && told == db.(events := told.events)
    requires ReportedTotal(told, w.job, w.task) == ReportedTotal(db, w.job, w.task)
    ensures var out := Advance(Advance((told, Goto(w, CompletePack(delivered))), Proceed), Proceed).0;
      && |out.jobs| == |db.jobs| && out.assets == db.assets
      && out.jobs[w.job].status == Completed && out.jobs[w.job].finalAssets == delivered
      && Charged(db, out, w.job, w.task, Committed,
                 Some(ReportedTotal(db, w.job, w.task).GetOr(db.reservations[w.task].estimated)))
  {
    var done := MarkCompleted(told, w.job, w.task, delivered);
    CommitCharges(db, done, w.job, w.task, Goto(w, CommitHold), ReportedTotal(db, w.job, w.task));
  }

  lemma PackFails(db: Db, told: Db, w: Worker)
    requires LI.LedgerInv(db) && JobAt(db, w.job, w.task) && Finalizable(db, w.job, w.task)
    requires db.jobs[w.job].status == Running && told == db.(events := told.events)
    requires ReportedTotal(told, w.job, w.task) == ReportedTotal(db, w.job, w.task)
    ensures var out := Advance(Advance((told, Goto(w, FailJob)), Proceed), Proceed).0;
      && |out.jobs| == |db.jobs| && out.assets == db.assets
      && out.jobs[w.job].status == JobFailed && out.jobs[w.job].finalAssets == db.jobs[w.job].finalAssets
      && Charged(db, out, w.job, w.task, Released, ReportedTotal(db, w.job, w.task))
  {
    var failed := MarkFailed(told, w.job, w.task);
    assert Advance((told, Goto(w, FailJob)), Proceed) == (failed, Goto(w, ReleaseHold));
    LaterFinalizeCharges(db, failed, w.job, w.task, ToReleased);
    FinalizeLeavesJob(failed, w.job, w.task);
  }

  /** The walk is given up for good: the job is failed, then its hold released. */
  lemma GivesUp(db: Db, w: Worker, phase: Phase)
    requires w.pc == Generate(phase) && FailGuard(db, w.job, w.task)
    ensures Advance(Advance(Advance((db, w), GiveUp(true)), Proceed), Proceed)
         == (Finalize(MarkFailed(db, w.job, w.task), w.job, w.task, ToReleased), Goto(w, Stopped))
  {
    assert Advance((db, w), GiveUp(true)) == (db, Goto(w, FailJob));
    assert Advance((db, Goto(w, FailJob)), Proceed) == (MarkFailed(db, w.job, w.task), Goto(w, ReleaseHold));
  }

  /** What a terminal failure after some failed calls leaves: the job failed, and what was reported charged. */
  lemma FailureCharges(db: Db, j: JobId, r: ReservationId, retry: nat, blank: Job, failed: seq<Option<nat>>)
    requires LI.LedgerInv(db) && Ready(db, j, r)
    requires db.jobs[j].previewFirst ==> db.jobs[j].previewAssets == []
    ensures
      var walked := Failing(ToFirstCall(Delivered(db, j, r, retry, blank)), failed);
      var out := Advance(Advance(Advance(walked, GiveUp(true)), Proceed), Proceed).0;
      && |out.jobs| == |db.jobs| && out.jobs[j].status == JobFailed && out.assets == db.assets
      && Charged(db, out, j, r, Released, AddCosts(ReportedTotal(db, j, r), failed))
  {
    var phase := if db.jobs[j].previewFirst then PreviewPhase else FinalPhase;
    var w := Worker(j, r, retry, db.jobs[j], Generate(phase));
    FirstCallReached(db, j, r, retry, blank);
    FailuresOnlyBill(MarkRunning(db, j, r), w, phase, failed);
    var walked := Failing((MarkRunning(db, j, r), w), failed).0;
    FailuresBilled(db, walked, j, r, failed);
    var marked := MarkFailed(walked, j, r);
    GivesUp(walked, w, phase);
    LaterFinalizeCharges(db, marked, j, r, ToReleased);
    FinalizeLeavesJob(marked, j, r);
  }

  lemma FinalizeLeavesJob(db: Db, j: JobId, r: ReservationId)
    requires j < |db.jobs|
    ensures var out := Finalize(db, j, r, ToReleased);
            |out.jobs| == |db.jobs| && out.jobs[j].(actualCost := db.jobs[j].actualCost) == db.jobs[j] && out.assets == db.assets
  {}

  /** When every route fails unbilled the job fails, the hold is returned and nothing is charged. */
  lemma UnbilledFailureReturnsHold(db: Db, j: JobId, r: ReservationId, retry: nat, blank: Job, failed: seq<Option<nat>>)
    requires LI.LedgerInv(db) && Ready(db, j, r) && ReportedTotal(db, j, r).None?
    requires db.jobs[j].previewFirst ==> db.jobs[j].previewAssets == []
    requires forall k :: 0 <= k < |failed| ==> failed[k].None?
    ensures
      var walked := Failing(ToFirstCall(Delivered(db, j, r, retry, blank)), failed);
      var out := Advance(Advance(Advance(walked, GiveUp(true)), Proceed), Proceed).0;
      && |out.jobs| == |db.jobs| && out.jobs[j].status == JobFailed && out.assets == db.assets
      && Charged(db, out, j, r, Released, None)
  {
    FailureCharges(db, j, r, retry, blank, failed);
    NothingAdded(None, failed);
  }

  lemma {:induction false} NoHoldsBefore(holds: seq<Hold>, r: ReservationId, b: BudgetId, n: nat)
    requires n <= |holds| && forall k :: 0 <= k < n ==> holds[k].reservation != r
    ensures LI.HeldBy(holds, r, b, n) == 0
  {
    if n != 0 {
      NoHoldsBefore(holds, r, b, n - 1);
    }
  }

  lemma {:induction false} HeldByNew(holds: seq<Hold>, ids: seq<BudgetId>, r: ReservationId, amount: nat, b: BudgetId, n: nat)
    requires n <= |ids| && Distinct(ids) && forall k :: 0 <= k < |holds| ==> holds[k].reservation != r
    ensures LI.HeldBy(holds + NewHolds(ids, r, amount), r, b, |holds| + n) == if b in ids[..n] then amount else 0
  {
    var all := holds + NewHolds(ids, r, amount);
    if n == 0 {
      NoHoldsBefore(all, r, b, |holds|);
    } else {
      HeldByNew(holds, ids, r, amount, b, n - 1);
      assert all[|holds| + n - 1] == Hold(r, ids[n - 1], amount, HoldReserved);
      assert ids[..n] == ids[..n - 1] + [ids[n - 1]];
    }
  }

  lemma {:induction false} NothingCharged(holds: seq<Hold>, r: ReservationId, b: BudgetId, n: nat)
    requires n <= |holds|
    ensures LI.PerOpenHold(holds, r, b, 0, n) == 0
  {
    if n != 0 {
      NothingCharged(holds, r, b, n - 1);
    }
  }

  /** Releasing what a granted pre-flight held returns every budget to where it was. */
  lemma ReleaseUndoesReserve(db: Db, j: JobId, scope: Scope, amount: nat, clock: Clock, held: Db, b: BudgetId)
    requires LI.LedgerInv(db) && b < |db.budgets|
    requires LI.Granted(db, Reserve(db, j, scope, Some(amount), clock))
    requires LI.LedgerInv(held) && held.holds == Reserve(db, j, scope, Some(amount), clock).holds
    requires held.budgets == Reserve(db, j, scope, Some(amount), clock).budgets
    ensures SettleHolds(held.budgets, held.holds, |db.reservations|, 0, |held.holds|)[b]
         in {db.budgets[b], RollOver(db.budgets[b], clock)}
  {
    var r, ids := |db.reservations|, SelectedBudgets(db.budgets, scope);
    LI.GrantedReserve(db, j, scope, amount, clock);
    LI.SettledBudget(held, r, 0, b);
    HeldByNew(db.holds, ids, r, amount, b, |ids|);
    assert ids[..|ids|] == ids;
    NothingCharged(held.holds, r, b, |held.holds|);
  }

  /** The job and reservation the clean-up leaves. */
  lemma CleanupCloses(db: Db, q: Request, estimate: Option<nat>, clock: Clock)
    requires ReportedTotal(db, |db.jobs|, |db.reservations|).None?
    ensures
      var created := Create(db, q, estimate, clock);
      var out := EnqueueCleanup(created, |db.jobs|, |db.reservations|);
      && |out.jobs| == |db.jobs| + 1 && out.jobs[|db.jobs|].status == JobFailed
      && |out.reservations| == |db.reservations| + 1
      && out.reservations[|db.reservations|].status in {Released, Denied} && out.reservations[|db.reservations|].actual.None?
  {
    var created := Create(db, q, estimate, clock);
    var failed := MarkFailed(created, |db.jobs|, |db.reservations|);
    assert created.events == db.events && JobAt(created, |db.jobs|, |db.reservations|);
    FinalizeKeepsJobFacts(failed, |db.jobs|);
  }

  lemma GrantedCreateFailed(db: Db, q: Request, amount: nat, clock: Clock, failed: Db)
    requires LI.LedgerInv(db) && ReportedTotal(db, |db.jobs|, |db.reservations|).None?
    requires LI.Granted(db.(jobs := db.jobs + [QueuedJob(q)]),
                        Reserve(db.(jobs := db.jobs + [QueuedJob(q)]), |db.jobs|, q.scope, Some(amount), clock))
    requires failed == MarkFailed(Create(db, q, Some(amount), clock), |db.jobs|, |db.reservations|)
    ensures |failed.budgets| == |db.budgets|
    ensures forall b :: 0 <= b < |db.budgets| ==>
      SettleHolds(failed.budgets, failed.holds, |db.reservations|, 0, |failed.holds|)[b] in {db.budgets[b], RollOver(db.budgets[b], clock)}
  {
    var withJob := db.(jobs := db.jobs + [QueuedJob(q)]);
    LedgerWithJob(db, withJob);
    LI.GrantedReserve(withJob, |db.jobs|, q.scope, amount, clock);
    LI.ReserveKeepsInv(withJob, |db.jobs|, q.scope, Some(amount), clock);
    LedgerKept(Reserve(withJob, |db.jobs|, q.scope, Some(amount), clock), failed);
    forall b | 0 <= b < |db.budgets| {
      ReleaseUndoesReserve(withJob, |db.jobs|, q.scope, amount, clock, failed, b);
    }
  }

  /**
   * The clean-up after a refused enqueue undoes the create: the job is failed, its reservation
   * released, and every budget holds what it held before, up to the period reset the create did.
   */
  lemma CleanupUndoesCreate(db: Db, q: Request, estimate: Option<nat>, clock: Clock)
    requires LI.LedgerInv(db) && ReportedTotal(db, |db.jobs|, |db.reservations|).None?
    ensures
      var created := Create(db, q, estimate, clock);
      var out := EnqueueCleanup(created, |db.jobs|, |db.reservations|);
      && |out.jobs| == |db.jobs| + 1 && out.jobs[|db.jobs|].status == JobFailed
      && |out.reservations| == |db.reservations| + 1
      && out.reservations[|db.reservations|].status in {Released, Denied} && out.reservations[|db.reservations|].actual.None?
      && |out.budgets| == |db.budgets|
      && forall b :: 0 <= b < |db.budgets| ==> out.budgets[b] in {db.budgets[b], RollOver(db.budgets[b], clock)}
  {
    var j, r := |db.jobs|, |db.reservations|;
    var withJob := db.(jobs := db.jobs + [QueuedJob(q)]);
    CleanupCloses(db, q, estimate, clock);
    if LI.Granted(withJob, Reserve(withJob, j, q.scope, estimate, clock)) {
      GrantedCreateFailed(db, q, estimate.value, clock, MarkFailed(Create(db, q, estimate, clock), j, r));
    } else {
      LI.DeniedReserve(withJob, j, q.scope, estimate, clock);
    }
  }

  lemma LedgerWithJob(db: Db, db': Db)
    requires LI.LedgerInv(db) && db.jobs <= db'.jobs
    requires db'.budgets == db.budgets && db'.holds == db.holds && db'.reservations == db.reservations
    ensures LI.LedgerInv(db')
  {}

  /**
   * A retry that is not denied leaves the job exactly as ready as a newly created one, under a
   * reservation no earlier task carries, so an undisturbed delivery completes it.
   */
  lemma RetryIsReady(db: Db, j: JobId, estimate: Option<nat>, clock: Clock)
    requires RetryOutcome(db, j, estimate, clock) == Done && db.jobs[j].kind == SingleImage
    ensures
      var out := Retry(db, j, estimate, clock);
      && |out.jobs| == |db.jobs| && Ready(out, j, |db.reservations|)
      && out.jobs[j].finalAssets == [] && !out.jobs[j].finalizationClaimed
      && out.jobs[j].previewAssets == db.jobs[j].previewAssets
  {
    FinalizeKeepsJobFacts(db, j);
  }

  /** A granted create leaves a fresh job ready to run; a denied one leaves it failed for good. */
  lemma CreateIsReady(db: Db, q: Request, estimate: Option<nat>, clock: Clock)
    requires q.kind == SingleImage
    ensures
      var out := Create(db, q, estimate, clock);
      var j, r := |db.jobs|, |db.reservations|;
      && |out.jobs| == j + 1 && |out.reservations| == r + 1 && out.jobs[..j] == db.jobs && out.assets == db.assets
      && out.jobs[j].previewAssets == [] && out.jobs[j].finalAssets == [] && !out.jobs[j].finalizationClaimed
      && (if out.reservations[r].status == Reserved then Ready(out, j, r)
          else out.jobs[j].status == JobFailed && JobAt(out, j, r) && out.budgets == db.budgets && out.holds == db.holds)
  {
    var withJob := db.(jobs := db.jobs + [QueuedJob(q)]);
    if !LI.Granted(withJob, Reserve(withJob, |db.jobs|, q.scope, estimate, clock)) {
      LI.DeniedReserve(withJob, |db.jobs|, q.scope, estimate, clock);
    }
  }

  /** Whoever wins a claim or a terminal transition leaves its guard false for everyone after. */
  lemma ClaimsAreExclusive(db: Db, j: JobId, r: ReservationId, assets: seq<AssetId>, cost: Option<nat>)
    ensures RunningGuard(db, j, r) ==> !RunningGuard(MarkRunning(db, j, r), j, r)
    ensures ClaimGuard(db, j, r) ==> !ClaimGuard(ClaimPreviewFinalization(db, j, r), j, r)
    ensures FailGuard(db, j, r) ==> !FailGuard(MarkFailed(db, j, r), j, r) && !CompleteGuard(MarkFailed(db, j, r), j, r)
    ensures CompleteGuard(db, j, r) ==> !CompleteGuard(MarkCompleted(db, j, r, assets), j, r) && !FailGuard(MarkCompleted(db, j, r, assets), j, r)
    ensures FinalOutcome(db, j, r) == Persisted ==> FinalOutcome(PersistFinal(db, j, r, cost), j, r) == AlreadyCompleted
    ensures PreviewOutcome(db, j, r) == Persisted ==> PreviewOutcome(PersistPreview(db, j, r, cost), j, r) == AlreadyPreviewReady
  {}

  /** Whether a write finds the job unable to take it. */
  predicate Discards(db: Db, w: Worker)
    requires w.pc.Persist?
  {
    match w.pc.phase
    case FinalPhase => FinalOutcome(db, w.job, w.task) !in {Persisted, NotActive}
    case PreviewPhase => PreviewOutcome(db, w.job, w.task) !in {Persisted, NotActive}
    case PackPhase => !PackItemGuard(db, w.job)
  }

  /**
   * Provider output nobody can publish is still billed, and reconciled when its reservation is
   * closed. Both are best effort: a bill that is lost leaves the ledger as it was, and the
   * reconcile, where it works, takes in whatever was reported.
   */
  lemma DiscardedOutputIsBilled(db: Db, w: Worker, recorded: bool, reconciled: bool)
    requires w.pc.Persist? && Discards(db, w)
    ensures
      var billed := Advance(Advance((db, w), Proceed), if recorded then Proceed else WriteFailed);
      var out := Advance(billed, if reconciled then Proceed else WriteFailed).0;
      var reported := if recorded then AddCost(ReportedTotal(db, w.job, w.task), w.pc.cost) else ReportedTotal(db, w.job, w.task);
      && billed.0 == (if recorded then db.(events := db.events + [CallEvent(w.job, w.task, w.pc.cost, EventCompleted)]) else db)
      && ReportedTotal(out, w.job, w.task) == reported
      && (reconciled && Reconcilable(db, w.job, w.task) && reported.Some? ==>
            w.task < |out.reservations| && out.reservations[w.task].actual == reported)
      && (!reconciled ==> out == billed.0)
  {
    var discarded := Advance((db, w), Proceed);
    assert discarded.0 == db && discarded.1.pc.BillDiscarded? && discarded.1.pc.cost == w.pc.cost;
    if recorded {
      Billed(db, Advance(discarded, Proceed).0, w.job, w.task, w.pc.cost, EventCompleted);
    }
  }

  /** A worker that comes second with its preview bills it and goes on to the final render. */
  lemma LatePreviewStillFinishes(db: Db, w: Worker, second: Option<nat>)
    requires LI.LedgerInv(db) && w.pc.Persist? && w.pc.phase == PreviewPhase && JobAt(db, w.job, w.task)
    requires db.jobs[w.job].status == PreviewReady && ClaimGuard(db, w.job, w.task) && Finalizable(db, w.job, w.task)
    requires w.snapshot.status == Queued && !w.snapshot.finalizationClaimed
    ensures
      var claimed := Advance(Advance(Advance(Advance((db, w), Proceed), Proceed), Proceed), Proceed);
      var out := Advance(CallAndStore(claimed, second), Proceed).0;
      && |out.jobs| == |db.jobs| && out.jobs[w.job].status == Completed
      && out.jobs[w.job].previewAssets == db.jobs[w.job].previewAssets && out.assets == db.assets + [Asset(w.job, FinalAsset)]
      && w.task < |out.reservations| && out.reservations[w.task].status == Committed
  {
    var j, r, cost := w.job, w.task, w.pc.cost;
    var billed := InsertEvent(db, CallEvent(j, r, cost, EventCompleted));
    assert Advance((db, w), Proceed) == (db, Goto(w, BillDiscarded(cost, ThenClaimFinal)));
    assert Advance((db, Goto(w, BillDiscarded(cost, ThenClaimFinal))), Proceed) == (billed, Goto(w, ReconcileDiscarded(ThenClaimFinal)));
    assert Advance((billed, Goto(w, ReconcileDiscarded(ThenClaimFinal))), Proceed) == (billed, Goto(w, ClaimFinal));
    var claimed := ClaimPreviewFinalization(billed, j, r);
    assert Advance((billed, Goto(w, ClaimFinal)), Proceed) == (claimed, Goto(w, Generate(FinalPhase)));
    FinalStored(claimed, j, r, w.retry, w.snapshot, second);
    var stored := PersistFinal(claimed, j, r, second);
    assert Finalizable(stored, j, r);
  }
}
