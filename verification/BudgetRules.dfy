/** Laws over every run of cost transactions: conservation, the overrun bound,
all-or-nothing pre-flight and first-wins finalization.
*/
module BudgetRules {
  import opened Rows
  import opened CostLedger
  import opened LedgerInvariants

  /** One transaction against the ledger. An edit stands for an administrator
  changing a limit or status. */
  datatype LedgerOp =
    | OpReserve(j: JobId, scope: Scope, estimate: Option<nat>, clock: Clock)
    | OpEvent(event: CostEvent)
    | OpFinalize(j: JobId, r: ReservationId, target: Target)
    | OpReconcile(j: JobId, r: ReservationId)
    | OpEdit(b: BudgetId, limit: int, status: BudgetStatus)

  function Apply(db: Db, op: LedgerOp): Db {
    match op
    case OpReserve(j, scope, estimate, clock) => if j < |db.jobs| then Reserve(db, j, scope, estimate, clock) else db
    case OpEvent(e) => InsertEvent(db, e)
    case OpFinalize(j, r, t) => Finalize(db, j, r, t)
    case OpReconcile(j, r) => Reconcile(db, j, r)
    case OpEdit(b, limit, status) =>
      if b < |db.budgets| then db.(budgets := db.budgets[b := db.budgets[b].(limit := limit, status := status)]) else db
  }

  function Run(db: Db, ops: seq<LedgerOp>): Db {
    if |ops| == 0 then db else Apply(Run(db, ops[..|ops| - 1]), ops[|ops| - 1])
  }

  // Conservation ------------------------------------------------------------------

  lemma StepConserves(db: Db, op: LedgerOp)
    requires LedgerInv(db)
    ensures LedgerInv(Apply(db, op))
    ensures |Apply(db, op).budgets| == |db.budgets|
    ensures forall b :: 0 <= b < |db.budgets| && SpentOpening(db, b) >= 0 && !PeriodMoved(db, Apply(db, op), b) ==>
      SpentOpening(Apply(db, op), b) == SpentOpening(db, b)
    ensures forall i :: IdentityOpening(Apply(db, op), i) == IdentityOpening(db, i)
  {
    match op
    case OpReserve(j, scope, estimate, clock) =>
      if j < |db.jobs| {
        ReserveConserves(db, j, scope, estimate, clock);
      }
    case OpEvent(e) =>
    case OpFinalize(j, r, t) => FinalizeConserves(db, j, r, t);
    case OpReconcile(j, r) => ReconcileConserves(db, j, r);
    case OpEdit(b, limit, status) =>
  }

  /** No transaction of the run rolls budget b over to a new period. */
  predicate NoReset(db: Db, ops: seq<LedgerOp>, b: BudgetId) {
    |ops| == 0 || (NoReset(db, ops[..|ops| - 1], b) && !PeriodMoved(Run(db, ops[..|ops| - 1]), Run(db, ops), b))
  }

  /** Every run keeps reserved equal to the open holds, spending tied to the charges of
  finalized holds while no reset intervenes, and the identity total tied to the actuals. */
  lemma {:induction false} BudgetConservation(db: Db, ops: seq<LedgerOp>)
    requires LedgerInv(db)
    ensures LedgerInv(Run(db, ops))
    ensures |Run(db, ops).budgets| == |db.budgets|
    ensures forall b :: 0 <= b < |db.budgets| && SpentOpening(db, b) >= 0 && NoReset(db, ops, b) ==>
      SpentOpening(Run(db, ops), b) == SpentOpening(db, b)
    ensures forall i :: IdentityOpening(Run(db, ops), i) == IdentityOpening(db, i)
  {
    if |ops| != 0 {
      BudgetConservation(db, ops[..|ops| - 1]);
      StepConserves(Run(db, ops[..|ops| - 1]), ops[|ops| - 1]);
    }
  }

  // Clamps ------------------------------------------------------------------------

  /** The GREATEST of some hold of a finalization of r would cut a negative balance off. */
  ghost predicate SettleClamps(db: Db, r: ReservationId, charge: nat) {
    exists k :: 0 <= k < |db.holds| && OpenHold(db.holds[k], r) && db.holds[k].budget < |db.budgets|
      && SettleHolds(db.budgets, db.holds, r, charge, k)[db.holds[k].budget].reserved < db.holds[k].amount
  }

  /** The GREATEST of some hold of a reconciliation of r would do so on budget b. */
  ghost predicate AdjustClamps(db: Db, r: ReservationId, delta: int, b: BudgetId) {
    exists k :: 0 <= k < |db.holds| && ClosedHold(db.holds[k], r) && db.holds[k].budget == b && b < |db.budgets|
      && AdjustHolds(db.budgets, db.holds, r, delta, k)[b].spent + delta < 0
  }

  lemma SettleNeverClamps(db: Db, r: ReservationId, charge: nat)
    requires LedgerInv(db)
    ensures !SettleClamps(db, r, charge)
  {
    forall k | 0 <= k < |db.holds| && OpenHold(db.holds[k], r)
      ensures SettleHolds(db.budgets, db.holds, r, charge, k)[db.holds[k].budget].reserved >= db.holds[k].amount
    {
      var b := db.holds[k].budget;
      SettleClosedForm(db.budgets, db.holds, r, charge, k, b);
      HeldByBound(db.holds, r, b, k + 1, |db.holds|);
    }
  }

  /** A late delta is cut off on budget b exactly when it would take spent below zero. */
  lemma AdjustClampsExactly(db: Db, r: ReservationId, delta: int, b: BudgetId)
    requires LedgerInv(db) && b < |db.budgets|
    ensures AdjustClamps(db, r, delta, b) <==> db.budgets[b].spent + PerClosedHold(db.holds, r, b, delta, |db.holds|) < 0
  {
    if db.budgets[b].spent + PerClosedHold(db.holds, r, b, delta, |db.holds|) >= 0 {
      forall k | 0 <= k < |db.holds| && ClosedHold(db.holds[k], r) && db.holds[k].budget == b
        ensures AdjustHolds(db.budgets, db.holds, r, delta, k)[b].spent + delta >= 0
      {
        AdjustClosedForm(db.budgets, db.holds, r, delta, k, b);
        PerClosedHoldSign(db.holds, r, b, delta, k + 1, |db.holds|);
      }
    } else if !AdjustClamps(db, r, delta, b) {
      UnclampedSum(db.budgets, db.holds, r, delta, b, |db.holds|);
    }
  }

  lemma {:induction false} UnclampedSum(budgets: seq<Budget>, holds: seq<Hold>, r: ReservationId, delta: int, b: BudgetId, n: nat)
    requires n <= |holds| && b < |budgets| && budgets[b].spent >= 0
    requires forall k :: 0 <= k < n && ClosedHold(holds[k], r) && holds[k].budget == b ==>
      AdjustHolds(budgets, holds, r, delta, k)[b].spent + delta >= 0
    ensures AdjustHolds(budgets, holds, r, delta, n)[b].spent == budgets[b].spent + PerClosedHold(holds, r, b, delta, n) >= 0
  {
    if n != 0 {
      UnclampedSum(budgets, holds, r, delta, b, n - 1);
    }
  }

  /** Replacing the actual of a finalized reservation moves the opening balance of b exactly
  when the late delta is cut off. */
  lemma ReconcileExactness(db: Db, j: JobId, r: ReservationId, b: BudgetId)
    requires LedgerInv(db) && b < |db.budgets|
    requires Reconcilable(db, j, r) && ReportedTotal(db, j, r).Some?
    ensures SpentOpening(Reconcile(db, j, r), b) == SpentOpening(db, b)
       <==> db.budgets[b].spent
            + PerClosedHold(db.holds, r, b, ReportedTotal(db, j, r).value - db.reservations[r].actual.GetOr(0), |db.holds|) >= 0
  {
    var delta := ReportedTotal(db, j, r).value - db.reservations[r].actual.GetOr(0);
    ReconciledCharges(db, j, r, b);
    PerClosedHoldSign(db.holds, r, b, delta, |db.holds|, |db.holds|);
    if db.budgets[b].spent + PerClosedHold(db.holds, r, b, delta, |db.holds|) >= 0 {
      ReconciledRow(db, j, r, b);
    } else {
      AdjustKeeps(db.budgets, db.holds, r, delta, |db.holds|, b);
    }
  }

  /** The late delta of a reconcile: the reported sum less what was recorded. */
  function LateDelta(db: Db, j: JobId, r: ReservationId): int
    requires Reconcilable(db, j, r) && ReportedTotal(db, j, r).Some?
  {
    ReportedTotal(db, j, r).value - db.reservations[r].actual.GetOr(0)
  }

  /** Being cut off takes a reset: where none came since an opening that was not negative, no reconcile is cut off. */
  lemma ClampTakesAReset(db: Db, ops: seq<LedgerOp>, j: JobId, r: ReservationId, b: BudgetId)
    requires LedgerInv(db) && b < |db.budgets| && SpentOpening(db, b) >= 0 && NoReset(db, ops, b)
    requires Reconcilable(Run(db, ops), j, r) && ReportedTotal(Run(db, ops), j, r).Some?
    ensures !AdjustClamps(Run(db, ops), r, LateDelta(Run(db, ops), j, r), b)
  {
    BudgetConservation(db, ops);
    UnmovedNeverClamps(Run(db, ops), j, r, b);
  }

  lemma UnmovedNeverClamps(s: Db, j: JobId, r: ReservationId, b: BudgetId)
    requires LedgerInv(s) && b < |s.budgets| && SpentOpening(s, b) >= 0
    requires Reconcilable(s, j, r) && ReportedTotal(s, j, r).Some?
    ensures !AdjustClamps(s, r, LateDelta(s, j, r), b)
  {
    ReconcileConserves(s, j, r);
    ReconcileExactness(s, j, r, b);
    AdjustClampsExactly(s, r, LateDelta(s, j, r), b);
  }

  /** A ledger with one daily tenant budget and one job, nothing held or spent. */
  function DailyLedger(): Db {
    Db([Job(SingleImage, false, None, Scope(0, 0, 0, 0), Queued, None, [], [], false, None)], [],
       [Budget(0, TenantScope, 0, Daily, 0, Active, 100, 0, 0)], [], [], [], map[])
  }

  lemma OneBudgetSelected(budgets: seq<Budget>, scope: Scope)
    requires |budgets| == 1 && budgets[0].tenant == 0 && budgets[0].scopeType == TenantScope && budgets[0].scopeId == 0
    requires scope == Scope(0, 0, 0, 0)
    ensures SelectedBudgets(budgets, scope) == [0]
  {
    forall t ensures Matching(budgets, scope, t, 1) == if t == TenantScope then [0] else [] {
      assert Matching(budgets, scope, t, 0) == [];
    }
  }

  /** Pre-flight on a ledger whose one budget is selected and admits the amount. */
  lemma OneBudgetReserve(db: Db, scope: Scope, amount: nat, clock: Clock)
    requires |db.jobs| == 1 && |db.budgets| == 1 && SelectedBudgets(db.budgets, scope) == [0]
    requires Admits(RollOver(db.budgets[0], clock), amount)
    ensures Apply(db, OpReserve(0, scope, Some(amount), clock))
         == db.(reservations := db.reservations + [Reservation(0, amount, amount, None, Reserved)],
                budgets := [HeldOn(db.budgets[0], amount, clock)],
                holds := db.holds + [Hold(|db.reservations|, 0, amount, HoldReserved)])
  {
    assert HoldOnAll(db.budgets, [0], 0, amount, clock) == Some(db.budgets);
  }

  function DailyBudget(day: int, reserved: int, spent: int): Budget {
    Budget(0, TenantScope, 0, Daily, day, Active, 100, reserved, spent)
  }

  /** The tables the example below is read off. */
  ghost predicate Stands(db: Db, budget: Budget, holds: seq<Hold>, reservations: seq<Reservation>) {
    |db.jobs| == 1 && db.jobs[0].identity.None? && db.budgets == [budget] && db.holds == holds && db.reservations == reservations
  }

  lemma DailyLedgerBalanced()
    ensures LedgerInv(DailyLedger()) && SpentOpening(DailyLedger(), 0) == 0
  {}

  lemma FirstDay(db: Db, a: Db, scope: Scope, amount: nat, clock: Clock)
    requires db == DailyLedger() && scope == Scope(0, 0, 0, 0) && amount == 10 && clock == Clock(0, 0)
    requires a == Apply(db, OpReserve(0, scope, Some(amount), clock))
    ensures Stands(a, DailyBudget(0, 10, 0), [Hold(0, 0, 10, HoldReserved)], [Reservation(0, 10, 10, None, Reserved)])
    ensures a.events == []
  {
    OneBudgetSelected(db.budgets, scope);
    assert RollOver(db.budgets[0], clock) == db.budgets[0];
    OneBudgetReserve(db, scope, amount, clock);
  }

  lemma Charges(a: Db)
    requires Stands(a, DailyBudget(0, 10, 0), [Hold(0, 0, 10, HoldReserved)], [Reservation(0, 10, 10, None, Reserved)])
    requires a.events == []
    ensures Stands(Apply(a, OpFinalize(0, 0, ToCommitted)), DailyBudget(0, 0, 10), [Hold(0, 0, 10, HoldCommitted)],
                   [Reservation(0, 10, 10, Some(10), Committed)])
    ensures ReportedTotal(Apply(a, OpFinalize(0, 0, ToCommitted)), 0, 0).None?
  {
    StampEventsAdds(a);
    assert SettleHolds(a.budgets, a.holds, 0, 10, 1) == [Settle(a.budgets[0], 10, 10)];
  }

  lemma StampEventsAdds(a: Db)
    requires a.events == []
    ensures StampEvents(a.events, 0, 0, 10, Some(10), EventSucceeded) == [CostEvent(0, 0, Some(10), Some(10), true, EventSucceeded)]
    ensures ReportedActual([CostEvent(0, 0, Some(10), Some(10), true, EventSucceeded)], 0, 0, 1).None?
    ensures ReportedTotal(a, 0, 0).None?
  {}

  lemma NextDay(b: Db, c: Db, scope: Scope, amount: nat, clock: Clock)
    requires Stands(b, DailyBudget(0, 0, 10), [Hold(0, 0, 10, HoldCommitted)], [Reservation(0, 10, 10, Some(10), Committed)])
    requires scope == Scope(0, 0, 0, 0) && amount == 1 && clock == Clock(1, 0)
    requires c == Apply(b, OpReserve(0, scope, Some(amount), clock))
    ensures Stands(c, DailyBudget(1, 1, 0), [Hold(0, 0, 10, HoldCommitted), Hold(1, 0, 1, HoldReserved)],
                   [Reservation(0, 10, 10, Some(10), Committed), Reservation(0, 1, 1, None, Reserved)])
    ensures c.events == b.events && PeriodMoved(b, c, 0)
  {
    OneBudgetSelected(b.budgets, scope);
    assert RollOver(b.budgets[0], clock) == DailyBudget(1, 0, 0);
    OneBudgetReserve(b, scope, amount, clock);
  }

  lemma CutOff(d: Db)
    requires Stands(d, DailyBudget(1, 1, 0), [Hold(0, 0, 10, HoldCommitted), Hold(1, 0, 1, HoldReserved)],
                    [Reservation(0, 10, 10, Some(10), Committed), Reservation(0, 1, 1, None, Reserved)])
    requires ReportedTotal(d, 0, 0) == Some(4)
    ensures Reconcilable(d, 0, 0) && LateDelta(d, 0, 0) == -6 && AdjustClamps(d, 0, -6, 0)
    ensures |Apply(d, OpReconcile(0, 0)).budgets| == 1 && Apply(d, OpReconcile(0, 0)).budgets[0].spent == 0
  {
    assert AdjustHolds(d.budgets, d.holds, 0, -6, 0) == d.budgets;
    assert ClosedHold(d.holds[0], 0);
    assert AdjustHolds(d.budgets, d.holds, 0, -6, 1) == d.budgets[0 := d.budgets[0].(spent := 0)];
    assert AdjustHolds(d.budgets, d.holds, 0, -6, 2) == AdjustHolds(d.budgets, d.holds, 0, -6, 1);
  }

  /**
   * The run that shows it: charge 10, start the next day's window with a hold of 1, then report that
   * the charge was 4. The delta of -6 meets a budget that has spent nothing, and is cut off.
   */
  lemma ResetThenLowerBill(a: Db, b: Db, c: Db, d: Db)
    requires a == Apply(DailyLedger(), OpReserve(0, Scope(0, 0, 0, 0), Some(10), Clock(0, 0)))
    requires b == Apply(a, OpFinalize(0, 0, ToCommitted))
    requires c == Apply(b, OpReserve(0, Scope(0, 0, 0, 0), Some(1), Clock(1, 0)))
    requires d == Apply(c, OpEvent(CostEvent(0, 0, None, Some(4), false, EventCompleted)))
    ensures LedgerInv(DailyLedger()) && SpentOpening(DailyLedger(), 0) == 0 && PeriodMoved(b, c, 0)
    ensures Reconcilable(d, 0, 0) && ReportedTotal(d, 0, 0).Some? && LateDelta(d, 0, 0) == -6
    ensures AdjustClamps(d, 0, -6, 0) && |Apply(d, OpReconcile(0, 0)).budgets| == 1
    ensures Apply(d, OpReconcile(0, 0)).budgets[0].spent == 0
  {
    DailyLedgerBalanced();
    FirstDay(DailyLedger(), a, Scope(0, 0, 0, 0), 10, Clock(0, 0));
    Charges(a);
    NextDay(b, c, Scope(0, 0, 0, 0), 1, Clock(1, 0));
    EventReported(c, 4);
    CutOff(d);
  }

  lemma EventReported(c: Db, cost: nat)
    requires ReportedTotal(c, 0, 0).None?
    ensures ReportedTotal(Apply(c, OpEvent(CostEvent(0, 0, None, Some(cost), false, EventCompleted))), 0, 0) == Some(cost)
  {
    var e := CostEvent(0, 0, None, Some(cost), false, EventCompleted);
    SamePrefixReported(c.events, c.events + [e], |c.events|);
  }

  lemma {:induction false} SamePrefixReported(events: seq<CostEvent>, longer: seq<CostEvent>, n: nat)
    requires n <= |events| && events <= longer
    ensures ReportedActual(longer, 0, 0, n) == ReportedActual(events, 0, 0, n)
  {
    if n != 0 {
      SamePrefixReported(events, longer, n - 1);
    }
  }

  // The overrun bound ---------------------------------------------------------------

  /** Actual above held, over the open holds of r on b among the first n. */
  function OverHeld(holds: seq<Hold>, r: ReservationId, b: BudgetId, charge: nat, n: nat): nat
    requires n <= |holds|
  {
    if n == 0 then 0
    else OverHeld(holds, r, b, charge, n - 1)
         + if OpenHold(holds[n - 1], r) && holds[n - 1].budget == b then Max(charge - holds[n - 1].amount, 0) else 0
  }

  /** How much a transaction may push b beyond what was held: actual above held at
  finalization, and positive late deltas. */
  function Overrun(db: Db, op: LedgerOp, b: BudgetId): int {
    match op
    case OpFinalize(j, r, t) =>
      if Finalizable(db, j, r) then OverHeld(db.holds, r, b, FinalActual(db, j, r, t).GetOr(0), |db.holds|) else 0
    case OpReconcile(j, r) =>
      if Reconcilable(db, j, r) && ReportedTotal(db, j, r).Some?
      then PerClosedHold(db.holds, r, b, Max(ReportedTotal(db, j, r).value - db.reservations[r].actual.GetOr(0), 0), |db.holds|)
      else 0
    case _ => 0
  }

  function RunOverrun(db: Db, ops: seq<LedgerOp>, b: BudgetId): int {
    if |ops| == 0 then 0
    else RunOverrun(db, ops[..|ops| - 1], b) + Overrun(Run(db, ops[..|ops| - 1]), ops[|ops| - 1], b)
  }

  ghost predicate NotEdited(ops: seq<LedgerOp>, b: BudgetId) {
    forall k :: 0 <= k < |ops| ==> !(ops[k].OpEdit? && ops[k].b == b)
  }

  lemma {:induction false} OverHeldCovers(holds: seq<Hold>, r: ReservationId, b: BudgetId, charge: nat, n: nat)
    requires n <= |holds|
    ensures PerOpenHold(holds, r, b, charge, n) - HeldBy(holds, r, b, n) <= OverHeld(holds, r, b, charge, n)
  {
    if n != 0 {
      OverHeldCovers(holds, r, b, charge, n - 1);
    }
  }

  lemma {:induction false} AdjustAtMost(budgets: seq<Budget>, holds: seq<Hold>, r: ReservationId, delta: int, b: BudgetId, n: nat)
    requires n <= |holds| && b < |budgets| && budgets[b].spent >= 0
    ensures 0 <= AdjustHolds(budgets, holds, r, delta, n)[b].spent
              <= budgets[b].spent + PerClosedHold(holds, r, b, Max(delta, 0), n)
  {
    if n != 0 {
      AdjustAtMost(budgets, holds, r, delta, b, n - 1);
    }
  }

  /** Whether b enforces its limit and is over it by at most `over`. */
  predicate WithinLimit(db: Db, b: BudgetId, limit: int, over: int) {
    b < |db.budgets| && db.budgets[b].status != Paused && db.budgets[b].limit == limit
    && db.budgets[b].reserved + db.budgets[b].spent <= limit + over
  }

  lemma StepOverrun(db: Db, op: LedgerOp, b: BudgetId, limit: int, over: nat)
    requires LedgerInv(db) && WithinLimit(db, b, limit, over)
    requires !(op.OpEdit? && op.b == b)
    ensures Overrun(db, op, b) >= 0
    ensures WithinLimit(Apply(db, op), b, limit, over + Overrun(db, op, b))
  {
    match op
    case OpReserve(j, scope, estimate, clock) =>
      if j < |db.jobs| && Granted(db, Reserve(db, j, scope, estimate, clock)) {
        GrantedReserve(db, j, scope, estimate.value, clock);
        SelectedAdmitted(db, j, scope, estimate.value, clock);
      } else if j < |db.jobs| {
        DeniedReserve(db, j, scope, estimate, clock);
      }
    case OpEvent(e) =>
    case OpFinalize(j, r, t) =>
      if Finalizable(db, j, r) {
        SettledBudget(db, r, FinalActual(db, j, r, t).GetOr(0), b);
        OverHeldCovers(db.holds, r, b, FinalActual(db, j, r, t).GetOr(0), |db.holds|);
      }
    case OpReconcile(j, r) =>
      if Reconcilable(db, j, r) && ReportedTotal(db, j, r).Some? {
        var delta := ReportedTotal(db, j, r).value - db.reservations[r].actual.GetOr(0);
        PerClosedHoldSign(db.holds, r, b, Max(delta, 0), |db.holds|, |db.holds|);
        AdjustAtMost(db.budgets, db.holds, r, delta, b, |db.holds|);
        AdjustKeeps(db.budgets, db.holds, r, delta, |db.holds|, b);
      }
    case OpEdit(b', limit', status) =>
  }

  /** A run moves the excess by at most its own overrun. */
  lemma {:induction false} RunStaysWithin(db: Db, ops: seq<LedgerOp>, b: BudgetId, limit: int, over: nat)
    requires LedgerInv(db) && WithinLimit(db, b, limit, over) && NotEdited(ops, b)
    ensures RunOverrun(db, ops, b) >= 0
    ensures WithinLimit(Run(db, ops), b, limit, over + RunOverrun(db, ops, b))
  {
    if |ops| != 0 {
      var before := ops[..|ops| - 1];
      RunStaysWithin(db, before, b, limit, over);
      BudgetConservation(db, before);
      StepOverrun(Run(db, before), ops[|ops| - 1], b, limit, over + RunOverrun(db, before, b));
    }
  }

  /** A budget that enforces a fixed limit never exceeds it by more than the accumulated overrun. */
  lemma OverrunBound(db: Db, ops: seq<LedgerOp>, b: BudgetId, limit: int)
    requires LedgerInv(db) && WithinLimit(db, b, limit, 0) && NotEdited(ops, b)
    ensures RunOverrun(db, ops, b) >= 0
    ensures WithinLimit(Run(db, ops), b, limit, RunOverrun(db, ops, b))
  {
    RunStaysWithin(db, ops, b, limit, 0);
  }

  // Pre-flight is all-or-nothing -------------------------------------------------------

  lemma SelectedAdmitted(db: Db, j: JobId, scope: Scope, amount: nat, clock: Clock)
    ensures Granted(db, Reserve(db, j, scope, Some(amount), clock))
       <==> forall b :: b in SelectedBudgets(db.budgets, scope) ==> b < |db.budgets| && Admits(RollOver(db.budgets[b], clock), amount)
  {
    var ids := SelectedBudgets(db.budgets, scope);
    SelectedIds(db.budgets, scope);
    HoldOnAllMeaning(db.budgets, ids, |ids|, amount, clock);
    assert forall k :: 0 <= k < |ids| ==> ids[k] in ids;
  }

  ghost predicate AnyApplies(budgets: seq<Budget>, scope: Scope, t: ScopeType) {
    exists b :: 0 <= b < |budgets| && Applies(budgets[b], scope, t)
  }

  /** A budget is enforced iff it is a tenant budget of the request or sits at the
  narrowest scope that has any budget. */
  ghost predicate Enforced(budgets: seq<Budget>, scope: Scope, b: BudgetId) {
    && b < |budgets|
    && (|| Applies(budgets[b], scope, TenantScope)
        || Applies(budgets[b], scope, TokenScope)
        || (Applies(budgets[b], scope, WorldScope) && !AnyApplies(budgets, scope, TokenScope))
        || (Applies(budgets[b], scope, UserScope) && !AnyApplies(budgets, scope, TokenScope) && !AnyApplies(budgets, scope, WorldScope)))
  }

  lemma SelectedIsEnforced(budgets: seq<Budget>, scope: Scope, b: BudgetId)
    ensures b in SelectedBudgets(budgets, scope) <==> Enforced(budgets, scope, b)
  {
    forall t { MatchingIds(budgets, scope, t, |budgets|); }
    forall t ensures Matching(budgets, scope, t, |budgets|) != [] <==> AnyApplies(budgets, scope, t) {
      var ids := Matching(budgets, scope, t, |budgets|);
      if ids != [] {
        assert ids[0] in ids;
      }
    }
  }

  /** A window resets a budget once: spending restarts at zero, holds stay, a pause stays a pause. */
  lemma RolledOnce(b: Budget, clock: Clock)
    ensures var r := RollOver(b, clock);
      && RollOver(r, clock) == r && r.periodStart >= WindowStart(b.period, clock)
      && (r != b <==> b.periodStart < WindowStart(b.period, clock))
      && r.reserved == b.reserved && r.limit == b.limit && r.spent in {b.spent, 0} && (r != b ==> r.spent == 0)
      && (r.status == Paused <==> b.status == Paused) && (r != b ==> r.status != Exceeded)
  {}

  /** Granted iff every enforced budget admits the amount once rolled over. A grant raises exactly
  those budgets by that amount and opens exactly one hold on each; a denial changes no budget row,
  resets included, and opens no hold. */
  lemma PreflightAllOrNothing(db: Db, j: JobId, scope: Scope, estimate: Option<nat>, clock: Clock, out: Db)
    requires out == Reserve(db, j, scope, estimate, clock)
    ensures Granted(db, out) <==>
      && estimate.Some?
      && forall b :: 0 <= b < |db.budgets| && Enforced(db.budgets, scope, b) ==> Admits(RollOver(db.budgets[b], clock), estimate.value)
    ensures !Granted(db, out) ==> out.budgets == db.budgets && out.holds == db.holds
    ensures Granted(db, out) ==>
      && |out.budgets| == |db.budgets|
      && (forall b :: 0 <= b < |db.budgets| ==>
            out.budgets[b] == if Enforced(db.budgets, scope, b) then HeldOn(db.budgets[b], estimate.value, clock) else db.budgets[b])
      && out.holds == db.holds + NewHolds(SelectedBudgets(db.budgets, scope), |db.reservations|, estimate.value)
    ensures Distinct(SelectedBudgets(db.budgets, scope))
    ensures forall b :: b in SelectedBudgets(db.budgets, scope) <==> Enforced(db.budgets, scope, b)
  {
    SelectedIds(db.budgets, scope);
    forall b { SelectedIsEnforced(db.budgets, scope, b); }
    if estimate.Some? {
      SelectedAdmitted(db, j, scope, estimate.value, clock);
      if Granted(db, out) {
        GrantedReserve(db, j, scope, estimate.value, clock);
      }
    }
  }

  // Pre-flight on the columns alone ------------------------------------------------------

  /** A budget row of the tenant that caps one identifier. */
  predicate Caps(b: Budget, tenant: nat, t: ScopeType, id: nat) {
    b.tenant == tenant && b.scopeType == t && b.scopeId == id
  }

  ghost predicate AnyCaps(budgets: seq<Budget>, tenant: nat, t: ScopeType, id: nat) {
    exists b :: 0 <= b < |budgets| && Caps(budgets[b], tenant, t, id)
  }

  /** Which rows a request is held against: its tenant's, and those of the first of token, world and user that has any. */
  ghost predicate HeldAgainst(budgets: seq<Budget>, s: Scope, b: BudgetId) {
    && b < |budgets|
    && (|| Caps(budgets[b], s.tenant, TenantScope, s.tenant)
        || Caps(budgets[b], s.tenant, TokenScope, s.token)
        || (Caps(budgets[b], s.tenant, WorldScope, s.world) && !AnyCaps(budgets, s.tenant, TokenScope, s.token))
        || (Caps(budgets[b], s.tenant, UserScope, s.user) && !AnyCaps(budgets, s.tenant, TokenScope, s.token)
            && !AnyCaps(budgets, s.tenant, WorldScope, s.world)))
  }

  /** Whether the row's window is over at this clock. */
  predicate WindowOver(b: Budget, clock: Clock) {
    b.periodStart < match b.period case Daily => clock.day case Monthly => clock.month
  }

  /** Whether the row lets the amount through: a paused one always, any other within its limit, an elapsed window counting nothing spent. */
  predicate LetsThrough(b: Budget, amount: nat, clock: Clock) {
    match b.status
    case Paused => true
    case Active => b.reserved + (if WindowOver(b, clock) then 0 else b.spent) + amount <= b.limit
    case Exceeded => WindowOver(b, clock) && b.reserved + amount <= b.limit
  }

  /** The row once the amount is held on it. */
  function Holding(b: Budget, amount: nat, clock: Clock): Budget {
    if WindowOver(b, clock) then
      b.(periodStart := match b.period case Daily => clock.day case Monthly => clock.month,
         spent := 0, status := if b.status == Exceeded then Active else b.status, reserved := b.reserved + amount)
    else b.(reserved := b.reserved + amount)
  }

  lemma ColumnsDecide(budgets: seq<Budget>, s: Scope, b: BudgetId)
    ensures b in SelectedBudgets(budgets, s) <==> HeldAgainst(budgets, s, b)
  {
    SelectedIsEnforced(budgets, s, b);
    forall t, id | id == ScopeIdFor(s, t) ensures AnyCaps(budgets, s.tenant, t, id) <==> AnyApplies(budgets, s, t) {
      if k :| 0 <= k < |budgets| && Caps(budgets[k], s.tenant, t, id) {
        assert Applies(budgets[k], s, t);
      }
      if k :| 0 <= k < |budgets| && Applies(budgets[k], s, t) {
        assert Caps(budgets[k], s.tenant, t, id);
      }
    }
    assert AnyCaps(budgets, s.tenant, TokenScope, s.token) <==> AnyApplies(budgets, s, TokenScope);
    assert AnyCaps(budgets, s.tenant, WorldScope, s.world) <==> AnyApplies(budgets, s, WorldScope);
  }

  /** Whether a price exists and every row the request is held against lets it through. */
  ghost predicate Affordable(budgets: seq<Budget>, s: Scope, estimate: Option<nat>, clock: Clock) {
    estimate.Some? && forall b :: 0 <= b < |budgets| && HeldAgainst(budgets, s, b) ==> LetsThrough(budgets[b], estimate.value, clock)
  }

  lemma RowOnColumns(b: Budget, amount: nat, clock: Clock)
    ensures Admits(RollOver(b, clock), amount) <==> LetsThrough(b, amount, clock)
    ensures HeldOn(b, amount, clock) == Holding(b, amount, clock)
  {}

  lemma EnforcedOnColumns(budgets: seq<Budget>, s: Scope, b: BudgetId)
    ensures Enforced(budgets, s, b) <==> HeldAgainst(budgets, s, b)
  {
    SelectedIsEnforced(budgets, s, b);
    ColumnsDecide(budgets, s, b);
  }

  lemma GrantOnColumns(db: Db, j: JobId, s: Scope, estimate: Option<nat>, clock: Clock, out: Db)
    requires out == Reserve(db, j, s, estimate, clock)
    ensures Granted(db, out) <==> Affordable(db.budgets, s, estimate, clock)
  {
    PreflightAllOrNothing(db, j, s, estimate, clock, out);
    forall b: BudgetId ensures Enforced(db.budgets, s, b) <==> HeldAgainst(db.budgets, s, b) {
      EnforcedOnColumns(db.budgets, s, b);
    }
    if estimate.Some? {
      forall b: Budget ensures Admits(RollOver(b, clock), estimate.value) <==> LetsThrough(b, estimate.value, clock) {
        RowOnColumns(b, estimate.value, clock);
      }
    }
  }

  lemma BudgetsOnColumns(db: Db, j: JobId, s: Scope, amount: nat, clock: Clock, out: Db)
    requires out == Reserve(db, j, s, Some(amount), clock) && Granted(db, out)
    ensures |out.budgets| == |db.budgets|
    ensures forall b :: 0 <= b < |db.budgets| ==>
      out.budgets[b] == if HeldAgainst(db.budgets, s, b) then Holding(db.budgets[b], amount, clock) else db.budgets[b]
    ensures HoldsOnce(db, out, s, amount)
  {
    PreflightAllOrNothing(db, j, s, Some(amount), clock, out);
    NewHoldsOnce(db, out, s, amount);
    forall b | 0 <= b < |db.budgets|
      ensures out.budgets[b] == if HeldAgainst(db.budgets, s, b) then Holding(db.budgets[b], amount, clock) else db.budgets[b]
    {
      EnforcedOnColumns(db.budgets, s, b);
      RowOnColumns(db.budgets[b], amount, clock);
    }
  }

  lemma ReservationAdded(db: Db, j: JobId, s: Scope, estimate: Option<nat>, clock: Clock, out: Db)
    requires out == Reserve(db, j, s, estimate, clock)
    ensures out == db.(reservations := out.reservations, budgets := out.budgets, holds := out.holds)
    ensures Granted(db, out) ==>
      estimate.Some? && out.reservations == db.reservations + [Reservation(j, estimate.value, estimate.value, None, Reserved)]
    ensures !Granted(db, out) ==>
      && out.reservations == db.reservations + [Reservation(j, estimate.GetOr(0), 0, None, Denied)]
      && out.budgets == db.budgets && out.holds == db.holds
  {}

  /**
   * The pre-flight said over the columns: it grants exactly when there is a price and every row the
   * request is held against lets the amount through; then exactly those rows carry it, each with one
   * hold, and the reservation records it. Otherwise no budget and no hold changes.
   */
  lemma ReserveOnColumns(db: Db, j: JobId, s: Scope, estimate: Option<nat>, clock: Clock, out: Db)
    requires out == Reserve(db, j, s, estimate, clock)
    ensures out == db.(reservations := out.reservations, budgets := out.budgets, holds := out.holds)
    ensures Affordable(db.budgets, s, estimate, clock) ==>
      && out.reservations == db.reservations + [Reservation(j, estimate.value, estimate.value, None, Reserved)]
      && |out.budgets| == |db.budgets|
      && (forall b :: 0 <= b < |db.budgets| ==>
            out.budgets[b] == if HeldAgainst(db.budgets, s, b) then Holding(db.budgets[b], estimate.value, clock) else db.budgets[b])
      && HoldsOnce(db, out, s, estimate.value)
    ensures !Affordable(db.budgets, s, estimate, clock) ==>
      && out.reservations == db.reservations + [Reservation(j, estimate.GetOr(0), 0, None, Denied)]
      && out.budgets == db.budgets && out.holds == db.holds
  {
    GrantOnColumns(db, j, s, estimate, clock, out);
    ReservationAdded(db, j, s, estimate, clock, out);
    if Granted(db, out) {
      BudgetsOnColumns(db, j, s, estimate.value, clock, out);
    }
  }

  /** One new open hold of the amount on every row held against, and none elsewhere. */
  ghost predicate HoldsOnce(db: Db, out: Db, s: Scope, amount: nat) {
    && db.holds <= out.holds
    && (forall k :: |db.holds| <= k < |out.holds| ==>
          out.holds[k] == Hold(|db.reservations|, out.holds[k].budget, amount, HoldReserved)
          && HeldAgainst(db.budgets, s, out.holds[k].budget))
    && (forall k, l :: |db.holds| <= k < l < |out.holds| ==> out.holds[k].budget != out.holds[l].budget)
    && (forall b :: 0 <= b < |db.budgets| && HeldAgainst(db.budgets, s, b) ==>
          exists k :: |db.holds| <= k < |out.holds| && out.holds[k].budget == b)
  }

  lemma NewHoldsOnce(db: Db, out: Db, s: Scope, amount: nat)
    requires out.holds == db.holds + NewHolds(SelectedBudgets(db.budgets, s), |db.reservations|, amount)
    ensures HoldsOnce(db, out, s, amount)
  {
    var ids := SelectedBudgets(db.budgets, s);
    SelectedIds(db.budgets, s);
    assert forall k :: |db.holds| <= k < |out.holds| ==> out.holds[k].budget == ids[k - |db.holds|];
    forall k | |db.holds| <= k < |out.holds| ensures HeldAgainst(db.budgets, s, out.holds[k].budget) {
      assert ids[k - |db.holds|] in ids;
      ColumnsDecide(db.budgets, s, out.holds[k].budget);
    }
    forall b | 0 <= b < |db.budgets| && HeldAgainst(db.budgets, s, b)
      ensures exists k :: |db.holds| <= k < |out.holds| && out.holds[k].budget == b
    {
      ColumnsDecide(db.budgets, s, b);
      var i :| 0 <= i < |ids| && ids[i] == b;
      assert out.holds[|db.holds| + i].budget == b;
    }
  }

  // First-wins ---------------------------------------------------------------------------

  function FinalizeAll(db: Db, j: JobId, r: ReservationId, targets: seq<Target>): Db {
    if |targets| == 0 then db else Finalize(FinalizeAll(db, j, r, targets[..|targets| - 1]), j, r, targets[|targets| - 1])
  }

  /** Any sequence of commits and releases of a reservation is its first one, and it leaves
  the reservation terminal. */
  lemma {:induction false} FirstWins(db: Db, j: JobId, r: ReservationId, targets: seq<Target>)
    requires |targets| > 0
    ensures FinalizeAll(db, j, r, targets) == Finalize(db, j, r, targets[0])
    ensures Finalizable(db, j, r) ==> FinalizeAll(db, j, r, targets).reservations[r].status == StatusFor(targets[0])
    ensures !Finalizable(FinalizeAll(db, j, r, targets), j, r)
  {
    if |targets| == 1 {
      assert FinalizeAll(db, j, r, targets[..0]) == db;
    } else {
      FirstWins(db, j, r, targets[..|targets| - 1]);
    }
  }
}
