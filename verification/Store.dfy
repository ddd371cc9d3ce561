/** The transactions as the program runs them: statement by statement over mutable
tables, with loops over budgets and holds and explicit rollback. Each method is
proved to leave exactly the tables its specification function describes.
*/
module Store {
  import opened Rows
  import L = CostLedger
  import T = JobTransactions
  import B = BudgetRules

  class Store {
    var jobs: seq<Job>
    var assets: seq<Asset>
    var budgets: seq<Budget>
    var holds: seq<Hold>
    var reservations: seq<Reservation>
    var events: seq<CostEvent>
    var identities: map<IdentityId, Totals>

    function State(): Db
      reads this
    {
      Db(jobs, assets, budgets, holds, reservations, events, identities)
    }

    constructor (budgets: seq<Budget>)
      ensures State() == Db([], [], budgets, [], [], [], map[])
    {
      jobs, assets, holds, reservations, events := [], [], [], [], [];
      this.budgets := budgets;
      identities := map[];
    }

    // Cost statements -------------------------------------------------------------

    /** SUM over reported actuals. */
    method SumReported(j: JobId, r: ReservationId) returns (total: Option<nat>)
      ensures total == L.ReportedTotal(State(), j, r)
    {
      total := None;
      for k := 0 to |events|
        invariant total == L.ReportedActual(events, j, r, k)
      {
        var e := events[k];
        if e.job == j && e.reservation == r && e.actual.Some? && !e.inferred {
          total := Some(total.GetOr(0) + e.actual.value);
        }
      }
    }

    /** selectBudgets: bucket the listed rows by scope, then keep the narrowest bucket. */
    method SelectBudgets(scope: Scope) returns (ids: seq<BudgetId>)
      ensures ids == L.SelectedBudgets(budgets, scope)
    {
      var tenant, token, world, user := [], [], [], [];
      for k := 0 to |budgets|
        invariant tenant == L.Matching(budgets, scope, TenantScope, k)
        invariant token == L.Matching(budgets, scope, TokenScope, k)
        invariant world == L.Matching(budgets, scope, WorldScope, k)
        invariant user == L.Matching(budgets, scope, UserScope, k)
      {
        var b := budgets[k];
        if b.tenant == scope.tenant && b.scopeId == L.ScopeIdFor(scope, b.scopeType) {
          match b.scopeType {
            case TenantScope => tenant := tenant + [k];
            case TokenScope => token := token + [k];
            case WorldScope => world := world + [k];
            case UserScope => user := user + [k];
          }
        }
      }
      ids := tenant;
      if |token| > 0 {
        ids := ids + token;
      } else if |world| > 0 {
        ids := ids + world;
      } else if |user| > 0 {
        ids := ids + user;
      }
    }

    method ResetBudgetPeriodIfElapsed(b: BudgetId, clock: Clock)
      requires b < |budgets|
      modifies this`budgets
      ensures budgets == old(budgets)[b := L.RollOver(old(budgets)[b], clock)]
    {
      var window := L.WindowStart(budgets[b].period, clock);
      if budgets[b].periodStart < window {
        var status := if budgets[b].status == Exceeded then Active else budgets[b].status;
        budgets := budgets[b := budgets[b].(periodStart := window, spent := 0, status := status)];
      }
    }

    method ReserveActiveBudget(b: BudgetId, amount: nat) returns (ok: bool)
      requires b < |budgets|
      modifies this`budgets
      ensures ok <==> old(budgets)[b].status == Active && L.Admits(old(budgets)[b], amount)
      ensures budgets == if ok then old(budgets)[b := old(budgets)[b].(reserved := old(budgets)[b].reserved + amount)] else old(budgets)
    {
      var row := budgets[b];
      ok := row.status == Active && row.reserved + row.spent + amount <= row.limit;
      if ok {
        budgets := budgets[b := row.(reserved := row.reserved + amount)];
      }
    }

    method ReservePausedBudget(b: BudgetId, amount: nat) returns (ok: bool)
      requires b < |budgets|
      modifies this`budgets
      ensures ok <==> old(budgets)[b].status == Paused
      ensures budgets == if ok then old(budgets)[b := old(budgets)[b].(reserved := old(budgets)[b].reserved + amount)] else old(budgets)
    {
      ok := budgets[b].status == Paused;
      if ok {
        budgets := budgets[b := budgets[b].(reserved := budgets[b].reserved + amount)];
      }
    }

    /** Hold on one budget: roll its period over, then try the status the listing showed
    first and the other one second. Which one is tried first makes no difference. */
    method HoldOnBudget(b: BudgetId, listedPaused: bool, amount: nat, clock: Clock) returns (ok: bool)
      requires b < |budgets|
      modifies this`budgets
      ensures ok <==> L.Admits(L.RollOver(old(budgets)[b], clock), amount)
      ensures var rolled := L.RollOver(old(budgets)[b], clock);
        budgets == old(budgets)[b := if ok then rolled.(reserved := rolled.reserved + amount) else rolled]
    {
      ResetBudgetPeriodIfElapsed(b, clock);
      if listedPaused {
        ok := ReservePausedBudget(b, amount);
        if !ok {
          ok := ReserveActiveBudget(b, amount);
        }
      } else {
        ok := ReserveActiveBudget(b, amount);
        if !ok {
          ok := ReservePausedBudget(b, amount);
        }
      }
    }

    /** reserveBudgets: hold on every selected budget inside a savepoint. */
    method ReserveBudgets(scope: Scope, amount: nat, r: ReservationId, clock: Clock) returns (held: bool)
      modifies this`budgets, this`holds
      ensures L.Within(L.SelectedBudgets(old(budgets), scope), |old(budgets)|)
      ensures var ids := L.SelectedBudgets(old(budgets), scope);
        match L.HoldOnAll(old(budgets), ids, |ids|, amount, clock)
        case Some(after) => held && budgets == after && holds == old(holds) + L.NewHolds(ids, r, amount)
        case None => !held && budgets == old(budgets) && holds == old(holds)
    {
      var ids := SelectBudgets(scope);
      L.SelectedIds(budgets, scope);
      var savedBudgets, savedHolds := budgets, holds;
      for k := 0 to |ids|
        invariant L.HoldOnAll(savedBudgets, ids, k, amount, clock) == Some(budgets)
        invariant holds == savedHolds + L.NewHolds(ids[..k], r, amount)
      {
        var ok := HoldOnBudget(ids[k], savedBudgets[ids[k]].status == Paused, amount, clock);
        if !ok {
          L.HoldStaysDenied(savedBudgets, ids, k + 1, |ids|, amount, clock);
          budgets, holds := savedBudgets, savedHolds;
          return false;
        }
        holds := holds + [Hold(r, ids[k], amount, HoldReserved)];
      }
      assert ids[..|ids|] == ids;
      held := true;
    }

    /** The pre-flight. */
    method Reserve(j: JobId, scope: Scope, estimate: Option<nat>, clock: Clock) returns (r: ReservationId, ok: bool)
      modifies this`budgets, this`holds, this`reservations
      ensures State() == L.Reserve(old(State()), j, scope, estimate, clock)
      ensures r == |old(reservations)| < |reservations| && (ok <==> reservations[r].status == Reserved)
      ensures ok <==> B.Affordable(old(budgets), scope, estimate, clock)
    {
      r := |reservations|;
      B.ReserveOnColumns(State(), j, scope, estimate, clock, L.Reserve(State(), j, scope, estimate, clock));
      if estimate.None? {
        reservations := reservations + [Reservation(j, 0, 0, None, Denied)];
        return r, false;
      }
      reservations := reservations + [Reservation(j, estimate.value, estimate.value, None, Reserved)];
      ok := ReserveBudgets(scope, estimate.value, r, clock);
      if !ok {
        reservations := reservations[r := reservations[r].(status := Denied, held := 0)];
      }
    }

    method StampLatestEvent(j: JobId, r: ReservationId, estimated: nat, actual: Option<nat>, status: EventStatus)
      modifies this`events
      ensures events == L.StampEvents(old(events), j, r, estimated, actual, status)
    {
      var observed := SumReported(j, r);
      var k: nat := |events|;
      while k > 0 && !L.EventOf(events[k - 1], j, r)
        invariant k <= |events|
        invariant L.Latest(events, j, r, |events|) == L.Latest(events, j, r, k)
      {
        k := k - 1;
      }
      if k == 0 {
        events := events + [CostEvent(j, r, Some(estimated), actual, true, status)];
      } else {
        var e := events[k - 1].(estimated := Some(estimated), status := status);
        events := events[k - 1 := if observed.Some? then e else e.(actual := actual, inferred := true)];
      }
    }

    /** Charge (or merely release) and mark every open hold of r. */
    method SettleReservedHolds(r: ReservationId, t: L.Target, charge: Option<nat>)
      modifies this`budgets, this`holds
      ensures budgets == L.SettleHolds(old(budgets), old(holds), r, charge.GetOr(0), |old(holds)|)
      ensures holds == L.MarkHolds(old(holds), r, t, |old(holds)|)
    {
      for k := 0 to |holds|
        invariant |holds| == |old(holds)| && |budgets| == |old(budgets)|
        invariant budgets == L.SettleHolds(old(budgets), old(holds), r, charge.GetOr(0), k)
        invariant holds == L.MarkHolds(old(holds), r, t, k)
      {
        var h := holds[k];
        if h.reservation == r && h.status == HoldReserved {
          if h.budget < |budgets| {
            var b := budgets[h.budget];
            if charge.Some? {
              budgets := budgets[h.budget := b.(reserved := Max(b.reserved - h.amount, 0), spent := b.spent + charge.value)];
            } else {
              budgets := budgets[h.budget := b.(reserved := Max(b.reserved - h.amount, 0))];
            }
          }
          holds := holds[k := h.(status := if t == L.ToCommitted then HoldCommitted else HoldReleased)];
        }
      }
    }

    /** finalizeInTxForReservation: commit or release one reservation. */
    method Finalize(j: JobId, r: ReservationId, t: L.Target)
      modifies this`jobs, this`budgets, this`holds, this`reservations, this`events, this`identities
      ensures State() == L.Finalize(old(State()), j, r, t)
    {
      if !(r < |reservations| && reservations[r].job == j && reservations[r].status == Reserved) {
        return;
      }
      var actual := SumReported(j, r);
      var row := reservations[r];
      if t == L.ToCommitted {
        if actual.None? {
          actual := Some(row.estimated);
        }
        reservations := reservations[r := row.(status := Committed, actual := actual)];
      } else {
        reservations := reservations[r := row.(status := Released, actual := actual)];
      }
      var partialCharge := t == L.ToReleased && actual.Some?;
      var charged := t == L.ToCommitted || partialCharge;
      SettleReservedHolds(r, t, if charged then actual else None);
      if charged {
        identities := L.AddTotals(identities, IdentityOf(jobs, j), row.estimated, actual.value);
        if j < |jobs| && jobs[j].reservation == Some(r) {
          jobs := jobs[j := jobs[j].(actualCost := actual)];
        }
      }
      StampLatestEvent(j, r, row.estimated, actual, if t == L.ToCommitted then EventSucceeded else EventFailed);
    }

    /** ReleaseInTx / CommitInTx: the reservation the job row points at. */
    method FinalizeForJob(j: JobId, t: L.Target)
      modifies this`jobs, this`budgets, this`holds, this`reservations, this`events, this`identities
      ensures State() == L.FinalizeForJob(old(State()), j, t)
    {
      if j < |jobs| && jobs[j].reservation.Some? {
        Finalize(j, jobs[j].reservation.value, t);
      }
    }

    method AdjustFinalizedHolds(r: ReservationId, delta: int)
      modifies this`budgets
      ensures budgets == L.AdjustHolds(old(budgets), holds, r, delta, |holds|)
    {
      for k := 0 to |holds|
        invariant |budgets| == |old(budgets)|
        invariant budgets == L.AdjustHolds(old(budgets), holds, r, delta, k)
      {
        var h := holds[k];
        if h.reservation == r && h.status != HoldReserved && h.budget < |budgets| {
          var b := budgets[h.budget];
          budgets := budgets[h.budget := b.(spent := Max(b.spent + delta, 0))];
        }
      }
    }

    /** ReconcileForReservation */
    method Reconcile(j: JobId, r: ReservationId)
      modifies this`jobs, this`budgets, this`reservations, this`identities
      ensures State() == L.Reconcile(old(State()), j, r)
    {
      if !(r < |reservations| && reservations[r].job == j && (reservations[r].status == Committed || reservations[r].status == Released)) {
        return;
      }
      var reported := SumReported(j, r);
      if reported.None? {
        return;
      }
      var delta := reported.value - reservations[r].actual.GetOr(0);
      reservations := reservations[r := reservations[r].(actual := reported)];
      if delta != 0 {
        AdjustFinalizedHolds(r, delta);
        identities := L.AddTotals(identities, IdentityOf(jobs, j), 0, delta);
      }
      if j < |jobs| && jobs[j].reservation == Some(r) {
        jobs := jobs[j := jobs[j].(actualCost := reported)];
      }
    }

    method InsertCostEvent(e: CostEvent)
      modifies this`events
      ensures State() == L.InsertEvent(old(State()), e)
    {
      events := events + [e];
    }

    // Job statements ---------------------------------------------------------------

    method MarkRunning(j: JobId, r: ReservationId) returns (ok: bool)
      modifies this`jobs
      ensures ok <==> T.RunningGuard(old(State()), j, r)
      ensures State() == T.MarkRunning(old(State()), j, r)
    {
      ok := j < |jobs| && jobs[j].reservation == Some(r) && jobs[j].status == Queued;
      if ok {
        jobs := jobs[j := jobs[j].(status := Running)];
      }
    }

    method ClaimPreviewFinalization(j: JobId, r: ReservationId) returns (ok: bool)
      modifies this`jobs
      ensures ok <==> T.ClaimGuard(old(State()), j, r)
      ensures State() == T.ClaimPreviewFinalization(old(State()), j, r)
    {
      ok := j < |jobs| && jobs[j].reservation == Some(r) && (jobs[j].status == PreviewReady || jobs[j].status == Queued)
        && |jobs[j].previewAssets| > 0 && |jobs[j].finalAssets| == 0 && !jobs[j].finalizationClaimed;
      if ok {
        if jobs[j].status == Queued {
          jobs := jobs[j := jobs[j].(status := Running)];
        }
        jobs := jobs[j := jobs[j].(finalizationClaimed := true)];
      }
    }

    method MarkFailed(j: JobId, r: ReservationId) returns (ok: bool)
      modifies this`jobs
      ensures ok <==> T.FailGuard(old(State()), j, r)
      ensures State() == T.MarkFailed(old(State()), j, r)
    {
      ok := j < |jobs| && jobs[j].reservation == Some(r) && T.Live(jobs[j].status);
      if ok {
        jobs := jobs[j := jobs[j].(status := JobFailed)];
      }
    }

    method MarkCompleted(j: JobId, r: ReservationId, finals: seq<AssetId>) returns (ok: bool)
      modifies this`jobs
      ensures ok <==> T.CompleteGuard(old(State()), j, r)
      ensures State() == T.MarkCompleted(old(State()), j, r, finals)
    {
      ok := j < |jobs| && jobs[j].reservation == Some(r) && (jobs[j].status == Running || jobs[j].status == PreviewReady);
      if ok {
        jobs := jobs[j := jobs[j].(status := Completed, finalAssets := finals)];
      }
    }

    /** Insert the final asset and complete the job under the job row lock. */
    method InsertFinalAssetAndCompleteJob(j: JobId, r: ReservationId, cost: Option<nat>) returns (outcome: T.PersistOutcome)
      modifies this`jobs, this`assets, this`events
      ensures outcome == T.FinalOutcome(old(State()), j, r)
      ensures State() == T.PersistFinal(old(State()), j, r, cost)
    {
      if !(j < |jobs| && jobs[j].reservation == Some(r)) {
        return T.AlreadyTerminal;
      }
      var status := jobs[j].status;
      if status == Cancelled {
        return T.SkippedCancelled;
      }
      if status == Completed {
        return T.AlreadyCompleted;
      }
      if status == JobFailed {
        return T.AlreadyTerminal;
      }
      if status != Running && status != PreviewReady {
        return T.NotActive;
      }
      var asset := |assets|;
      assets := assets + [Asset(j, FinalAsset)];
      var ok := MarkCompleted(j, r, [asset]);
      InsertCostEvent(T.CallEvent(j, r, cost, EventCompleted));
      outcome := T.Persisted;
    }

    /** Insert the preview asset and mark the job preview_ready under the job row lock. */
    method InsertPreviewAssetAndMarkPreviewReady(j: JobId, r: ReservationId, cost: Option<nat>) returns (outcome: T.PersistOutcome)
      modifies this`jobs, this`assets, this`events
      ensures outcome == T.PreviewOutcome(old(State()), j, r)
      ensures State() == T.PersistPreview(old(State()), j, r, cost)
    {
      if !(j < |jobs| && jobs[j].reservation == Some(r)) {
        return T.AlreadyTerminal;
      }
      var status := jobs[j].status;
      if status == Cancelled {
        return T.SkippedCancelled;
      }
      if status == PreviewReady {
        return T.AlreadyPreviewReady;
      }
      if status == Completed {
        return T.AlreadyCompleted;
      }
      if status == JobFailed {
        return T.AlreadyTerminal;
      }
      if status != Running {
        return T.NotActive;
      }
      var asset := |assets|;
      assets := assets + [Asset(j, PreviewAsset)];
      jobs := jobs[j := jobs[j].(status := PreviewReady, previewAssets := [asset])];
      InsertCostEvent(T.CallEvent(j, r, cost, EventCompleted));
      outcome := T.Persisted;
    }

    method InsertPackItem(j: JobId, r: ReservationId, cost: Option<nat>) returns (ok: bool)
      modifies this`assets, this`events
      ensures ok <==> T.PackItemGuard(old(State()), j)
      ensures State() == T.PersistPackItem(old(State()), j, r, cost)
    {
      ok := j < |jobs| && jobs[j].status == Running;
      if ok {
        assets := assets + [Asset(j, PackItemAsset)];
        InsertCostEvent(T.CallEvent(j, r, cost, EventCompleted));
      }
    }

    // Request path -------------------------------------------------------------------

    method CreateJob(q: T.Request, estimate: Option<nat>, clock: Clock) returns (j: JobId, r: ReservationId, ok: bool)
      modifies this`jobs, this`budgets, this`holds, this`reservations
      ensures State() == T.Create(old(State()), q, estimate, clock)
      ensures j == |old(jobs)| && r == |old(reservations)|
    {
      j := |jobs|;
      jobs := jobs + [T.QueuedJob(q)];
      r, ok := Reserve(j, q.scope, estimate, clock);
      jobs := jobs[j := jobs[j].(reservation := Some(r))];
      if !ok {
        var marked := MarkFailed(j, r);
      }
    }

    /** Clean-up after the queue refused the task. */
    method EnqueueCleanup(j: JobId, r: ReservationId) returns (ok: bool)
      modifies this`jobs, this`budgets, this`holds, this`reservations, this`events, this`identities
      ensures State() == T.EnqueueCleanup(old(State()), j, r)
    {
      ok := MarkFailed(j, r);
      if ok {
        FinalizeForJob(j, L.ToReleased);
      }
    }

    method CancelJob(j: JobId) returns (outcome: T.AdminOutcome)
      modifies this`jobs, this`budgets, this`holds, this`reservations, this`events, this`identities
      ensures outcome == T.CancelOutcome(old(State()), j)
      ensures State() == T.Cancel(old(State()), j)
      ensures outcome == T.Done <==> j < |old(jobs)| && old(jobs)[j].status in {Queued, Running, PreviewReady, Cancelled}
      ensures outcome == T.InvalidState <==> j < |old(jobs)| && old(jobs)[j].status in {Completed, JobFailed}
    {
      if j >= |jobs| {
        return T.NotFound;
      }
      match jobs[j].status {
        case Cancelled =>
          assert jobs[j := jobs[j].(status := Cancelled)] == jobs;
          FinalizeForJob(j, L.ToReleased);
          outcome := T.Done;
        case Queued | Running | PreviewReady =>
          jobs := jobs[j := jobs[j].(status := Cancelled)];
          FinalizeForJob(j, L.ToReleased);
          outcome := T.Done;
        case Completed | JobFailed =>
          outcome := T.InvalidState;
      }
    }

    /** Reopen a failed job; a denied reservation rolls the whole transaction back. */
    method RetryJob(j: JobId, estimate: Option<nat>, clock: Clock) returns (outcome: T.AdminOutcome, r: ReservationId)
      modifies this
      ensures outcome == T.RetryOutcome(old(State()), j, estimate, clock)
      ensures State() == T.Retry(old(State()), j, estimate, clock)
      ensures r == |old(reservations)|
      ensures outcome == T.InvalidState <==> j < |old(jobs)| && old(jobs)[j].status != JobFailed
    {
      r := |reservations|;
      if j >= |jobs| {
        return T.NotFound, r;
      }
      if jobs[j].status != JobFailed {
        return T.InvalidState, r;
      }
      var begin := State();
      L.FinalizeKeepsJobFacts(State(), j);
      FinalizeForJob(j, L.ToReleased);
      var newHold, ok := Reserve(j, jobs[j].scope, estimate, clock);
      if !ok {
        jobs, assets, budgets, holds := begin.jobs, begin.assets, begin.budgets, begin.holds;
        reservations, events, identities := begin.reservations, begin.events, begin.identities;
        return T.ReservationDenied, r;
      }
      jobs := jobs[j := jobs[j].(
        status := Queued, finalizationClaimed := false, finalAssets := [],
        reservation := Some(newHold), actualCost := None)];
      outcome := T.Done;
    }
  }
}
