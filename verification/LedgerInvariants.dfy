/** Conservation: what every cost transaction keeps.

reserved_amount of a budget is the sum of its still-reserved holds, and
spent_amount moves exactly with the actuals of its finalized holds until a
period reset zeroes it.
*/
module LedgerInvariants {
  import opened Rows
  import opened CostLedger

  // Sums over the hold and reservation tables ----------------------------------

  function SumReserved(holds: seq<Hold>, b: BudgetId, n: nat): nat
    requires n <= |holds|
  {
    if n == 0 then 0
    else SumReserved(holds, b, n - 1)
         + if holds[n - 1].budget == b && holds[n - 1].status == HoldReserved then holds[n - 1].amount else 0
  }

  /** What a finalized hold has moved into its budget's spent amount. */
  function Charge(h: Hold, reservations: seq<Reservation>): nat {
    if h.status != HoldReserved && h.reservation < |reservations| then reservations[h.reservation].actual.GetOr(0) else 0
  }

  function SumCharged(holds: seq<Hold>, reservations: seq<Reservation>, b: BudgetId, n: nat): nat
    requires n <= |holds|
  {
    if n == 0 then 0
    else SumCharged(holds, reservations, b, n - 1)
         + if holds[n - 1].budget == b then Charge(holds[n - 1], reservations) else 0
  }

  function SumIdentity(jobs: seq<Job>, reservations: seq<Reservation>, i: IdentityId, n: nat): nat
    requires n <= |reservations|
  {
    if n == 0 then 0
    else SumIdentity(jobs, reservations, i, n - 1)
         + if IdentityOf(jobs, reservations[n - 1].job) == Some(i) then reservations[n - 1].actual.GetOr(0) else 0
  }

  // The ledger invariant ---------------------------------------------------------

  predicate HoldFollows(h: Hold, s: ReservationStatus) {
    match h.status
    case HoldReserved => s == Reserved
    case HoldCommitted => s == Committed
    case HoldReleased => s == Released
  }

  ghost predicate RowsLinked(db: Db) {
    && (forall k :: 0 <= k < |db.holds| ==>
          && db.holds[k].budget < |db.budgets|
          && db.holds[k].reservation < |db.reservations|
          && HoldFollows(db.holds[k], db.reservations[db.holds[k].reservation].status))
    && (forall r :: 0 <= r < |db.reservations| ==>
          && db.reservations[r].job < |db.jobs|
          && (db.reservations[r].status in {Reserved, Denied} ==> db.reservations[r].actual.None?)
          && (db.reservations[r].status == Committed ==> db.reservations[r].actual.Some?))
  }

  ghost predicate BudgetsBalanced(db: Db) {
    forall b :: 0 <= b < |db.budgets| ==>
      db.budgets[b].reserved == SumReserved(db.holds, b, |db.holds|) && db.budgets[b].spent >= 0
  }

  ghost predicate LedgerInv(db: Db) {
    RowsLinked(db) && BudgetsBalanced(db)
  }

  /** Spending not explained by finalized holds: the balance carried in. It is
  negative once a period reset has dropped charges of live reservations. */
  function SpentOpening(db: Db, b: BudgetId): int
    requires b < |db.budgets|
  {
    db.budgets[b].spent - SumCharged(db.holds, db.reservations, b, |db.holds|)
  }

  function IdentityOpening(db: Db, i: IdentityId): int {
    TotalsOf(db.identities, i).actual - SumIdentity(db.jobs, db.reservations, i, |db.reservations|)
  }

  // How the sums move ------------------------------------------------------------

  /** Held for r on b, among the open holds of the first n. */
  function HeldBy(holds: seq<Hold>, r: ReservationId, b: BudgetId, n: nat): nat
    requires n <= |holds|
  {
    if n == 0 then 0
    else HeldBy(holds, r, b, n - 1)
         + if OpenHold(holds[n - 1], r) && holds[n - 1].budget == b then holds[n - 1].amount else 0
  }

  /** `each` once for every open hold of r on b among the first n. */
  function PerOpenHold(holds: seq<Hold>, r: ReservationId, b: BudgetId, each: nat, n: nat): nat
    requires n <= |holds|
  {
    if n == 0 then 0
    else PerOpenHold(holds, r, b, each, n - 1)
         + if OpenHold(holds[n - 1], r) && holds[n - 1].budget == b then each else 0
  }

  /** `each` once for every closed hold of r on b among the first n. */
  function PerClosedHold(holds: seq<Hold>, r: ReservationId, b: BudgetId, each: int, n: nat): int
    requires n <= |holds|
  {
    if n == 0 then 0
    else PerClosedHold(holds, r, b, each, n - 1)
         + if ClosedHold(holds[n - 1], r) && holds[n - 1].budget == b then each else 0
  }

  lemma {:induction false} HeldByBound(holds: seq<Hold>, r: ReservationId, b: BudgetId, n: nat, m: nat)
    requires n <= m <= |holds|
    ensures HeldBy(holds, r, b, n) <= SumReserved(holds, b, m)
  {
    if m != 0 {
      if n == m {
        HeldByBound(holds, r, b, n - 1, m - 1);
      } else {
        HeldByBound(holds, r, b, n, m - 1);
      }
    }
  }

  /** With reserved amounts that cover the holds, no clamp fires while settling. */
  lemma {:induction false} SettleClosedForm(budgets: seq<Budget>, holds: seq<Hold>, r: ReservationId, charge: nat, n: nat, b: BudgetId)
    requires n <= |holds| && b < |budgets|
    requires budgets[b].reserved >= SumReserved(holds, b, |holds|)
    ensures SettleHolds(budgets, holds, r, charge, n)[b]
         == budgets[b].(reserved := budgets[b].reserved - HeldBy(holds, r, b, n),
                        spent := budgets[b].spent + PerOpenHold(holds, r, b, charge, n))
  {
    if n != 0 {
      SettleClosedForm(budgets, holds, r, charge, n - 1, b);
      HeldByBound(holds, r, b, n, |holds|);
    }
  }

  lemma {:induction false} SumReservedAfterMark(holds: seq<Hold>, r: ReservationId, t: Target, b: BudgetId, n: nat)
    requires n <= |holds|
    ensures SumReserved(MarkHolds(holds, r, t, |holds|), b, n) == SumReserved(holds, b, n) - HeldBy(holds, r, b, n)
  {
    if n != 0 {
      SumReservedAfterMark(holds, r, t, b, n - 1);
    }
  }

  lemma {:induction false} SumChargedAfterMark(
    holds: seq<Hold>, rows: seq<Reservation>, rows': seq<Reservation>, r: ReservationId, t: Target, b: BudgetId, n: nat)
    requires n <= |holds| && r < |rows| == |rows'|
    requires forall k :: 0 <= k < |rows| && k != r ==> rows'[k] == rows[k]
    requires forall k :: 0 <= k < |holds| && holds[k].reservation == r ==> holds[k].status == HoldReserved
    ensures SumCharged(MarkHolds(holds, r, t, |holds|), rows', b, n)
         == SumCharged(holds, rows, b, n) + PerOpenHold(holds, r, b, rows'[r].actual.GetOr(0), n)
  {
    if n != 0 {
      SumChargedAfterMark(holds, rows, rows', r, t, b, n - 1);
    }
  }

  lemma {:induction false} SumChargedAfterReprice(
    holds: seq<Hold>, rows: seq<Reservation>, rows': seq<Reservation>, r: ReservationId, b: BudgetId, n: nat)
    requires n <= |holds| && r < |rows| == |rows'|
    requires forall k :: 0 <= k < |rows| && k != r ==> rows'[k] == rows[k]
    ensures SumCharged(holds, rows', b, n)
         == SumCharged(holds, rows, b, n)
            + PerClosedHold(holds, r, b, rows'[r].actual.GetOr(0) - rows[r].actual.GetOr(0), n)
  {
    if n != 0 {
      SumChargedAfterReprice(holds, rows, rows', r, b, n - 1);
    }
  }

  lemma {:induction false} PerClosedHoldSign(holds: seq<Hold>, r: ReservationId, b: BudgetId, each: int, n: nat, m: nat)
    requires n <= m <= |holds|
    ensures each >= 0 ==> 0 <= PerClosedHold(holds, r, b, each, n)
    ensures each <= 0 ==> PerClosedHold(holds, r, b, each, m) <= PerClosedHold(holds, r, b, each, n) <= 0
  {
    if m != 0 {
      if n == m {
        PerClosedHoldSign(holds, r, b, each, n - 1, m - 1);
      } else {
        PerClosedHoldSign(holds, r, b, each, n, m - 1);
      }
    }
  }

  /** A late delta whose total leaves the budget non-negative meets no clamp on the way. */
  lemma {:induction false} AdjustClosedForm(budgets: seq<Budget>, holds: seq<Hold>, r: ReservationId, delta: int, n: nat, b: BudgetId)
    requires n <= |holds| && b < |budgets|
    requires budgets[b].spent >= 0
    requires budgets[b].spent + PerClosedHold(holds, r, b, delta, |holds|) >= 0
    ensures AdjustHolds(budgets, holds, r, delta, n)[b]
         == budgets[b].(spent := budgets[b].spent + PerClosedHold(holds, r, b, delta, n))
  {
    if n != 0 {
      AdjustClosedForm(budgets, holds, r, delta, n - 1, b);
      PerClosedHoldSign(holds, r, b, delta, n, |holds|);
    }
  }

  /** Whatever the deltas, only spent moves and it stays non-negative. */
  lemma {:induction false} AdjustKeeps(budgets: seq<Budget>, holds: seq<Hold>, r: ReservationId, delta: int, n: nat, b: BudgetId)
    requires n <= |holds| && b < |budgets|
    requires budgets[b].spent >= 0
    ensures var after := AdjustHolds(budgets, holds, r, delta, n)[b]; after.spent >= 0 && after.(spent := budgets[b].spent) == budgets[b]
  {
    if n != 0 {
      AdjustKeeps(budgets, holds, r, delta, n - 1, b);
    }
  }

  // Identity totals -----------------------------------------------------------------

  /** Job rows may change or be appended, as long as no job's identity does. */
  ghost predicate SameIdentities(jobs: seq<Job>, jobs': seq<Job>) {
    |jobs| <= |jobs'| && forall j :: 0 <= j < |jobs| ==> jobs'[j].identity == jobs[j].identity
  }

  lemma {:induction false} SumIdentityJobs(jobs: seq<Job>, jobs': seq<Job>, rows: seq<Reservation>, i: IdentityId, n: nat)
    requires n <= |rows| && SameIdentities(jobs, jobs')
    requires forall k :: 0 <= k < |rows| ==> rows[k].job < |jobs|
    ensures SumIdentity(jobs', rows, i, n) == SumIdentity(jobs, rows, i, n)
  {
    if n != 0 {
      SumIdentityJobs(jobs, jobs', rows, i, n - 1);
    }
  }

  lemma {:induction false} SumIdentityUpdate(jobs: seq<Job>, rows: seq<Reservation>, r: ReservationId, row: Reservation, i: IdentityId, n: nat)
    requires r < |rows| && n <= |rows| && row.job == rows[r].job
    ensures SumIdentity(jobs, rows[r := row], i, n)
         == SumIdentity(jobs, rows, i, n)
            + if r < n && IdentityOf(jobs, row.job) == Some(i) then row.actual.GetOr(0) - rows[r].actual.GetOr(0) else 0
  {
    if n != 0 {
      SumIdentityUpdate(jobs, rows, r, row, i, n - 1);
    }
  }

  lemma {:induction false} SumIdentityPrefix(jobs: seq<Job>, rows: seq<Reservation>, rows': seq<Reservation>, i: IdentityId, n: nat)
    requires n <= |rows| <= |rows'| && rows == rows'[..|rows|]
    ensures SumIdentity(jobs, rows', i, n) == SumIdentity(jobs, rows, i, n)
  {
    if n != 0 {
      SumIdentityPrefix(jobs, rows, rows', i, n - 1);
      assert rows'[n - 1] == rows[n - 1];
    }
  }

  // Commit and release ---------------------------------------------------------------

  lemma StampKeepsIdentities(jobs: seq<Job>, j: JobId, r: ReservationId, actual: Option<nat>)
    ensures SameIdentities(jobs, StampActual(jobs, j, r, actual))
  {}

  /** The budgets after any finalization, row by row, with no clamp. */
  lemma SettledBudget(db: Db, r: ReservationId, charge: nat, b: BudgetId)
    requires LedgerInv(db) && b < |db.budgets|
    ensures SettleHolds(db.budgets, db.holds, r, charge, |db.holds|)[b]
         == db.budgets[b].(reserved := db.budgets[b].reserved - HeldBy(db.holds, r, b, |db.holds|),
                           spent := db.budgets[b].spent + PerOpenHold(db.holds, r, b, charge, |db.holds|))
  {
    SettleClosedForm(db.budgets, db.holds, r, charge, |db.holds|, b);
  }

  lemma SettleKeepsInv(db: Db, j: JobId, r: ReservationId, t: Target, actual: Option<nat>)
    requires LedgerInv(db) && Finalizable(db, j, r)
    requires t == ToCommitted ==> actual.Some?
    ensures LedgerInv(SettleWith(db, j, r, t, actual))
  {
    var out := SettleWith(db, j, r, t, actual);
    forall b | 0 <= b < |out.budgets|
      ensures out.budgets[b].reserved == SumReserved(out.holds, b, |out.holds|) && out.budgets[b].spent >= 0
    {
      SettledBudget(db, r, actual.GetOr(0), b);
      SumReservedAfterMark(db.holds, r, t, b, |db.holds|);
    }
  }

  lemma SettleKeepsOpenings(db: Db, j: JobId, r: ReservationId, t: Target, actual: Option<nat>)
    requires LedgerInv(db) && Finalizable(db, j, r)
    ensures forall b :: 0 <= b < |db.budgets| ==> SpentOpening(SettleWith(db, j, r, t, actual), b) == SpentOpening(db, b)
    ensures forall i :: IdentityOpening(SettleWith(db, j, r, t, actual), i) == IdentityOpening(db, i)
  {
    var out := SettleWith(db, j, r, t, actual);
    forall b | 0 <= b < |db.budgets| ensures SpentOpening(out, b) == SpentOpening(db, b) {
      SettledBudget(db, r, actual.GetOr(0), b);
      SumChargedAfterMark(db.holds, db.reservations, out.reservations, r, t, b, |db.holds|);
    }
    forall i ensures IdentityOpening(out, i) == IdentityOpening(db, i) {
      StampKeepsIdentities(db.jobs, j, r, actual);
      SumIdentityJobs(db.jobs, out.jobs, out.reservations, i, |out.reservations|);
      SumIdentityUpdate(db.jobs, db.reservations, r, out.reservations[r], i, |db.reservations|);
    }
  }

  /** A commit or release keeps the invariant and every opening balance. */
  lemma FinalizeConserves(db: Db, j: JobId, r: ReservationId, t: Target)
    requires LedgerInv(db)
    ensures LedgerInv(Finalize(db, j, r, t))
    ensures forall b :: 0 <= b < |db.budgets| ==> SpentOpening(Finalize(db, j, r, t), b) == SpentOpening(db, b)
    ensures forall i :: IdentityOpening(Finalize(db, j, r, t), i) == IdentityOpening(db, i)
  {
    if Finalizable(db, j, r) {
      var actual := FinalActual(db, j, r, t);
      SettleKeepsInv(db, j, r, t, actual);
      SettleKeepsOpenings(db, j, r, t, actual);
    }
  }

  // Reconciliation -------------------------------------------------------------------

  lemma ReconcileKeepsInv(db: Db, j: JobId, r: ReservationId)
    requires LedgerInv(db)
    ensures LedgerInv(Reconcile(db, j, r))
  {
    var out := Reconcile(db, j, r);
    if out != db {
      var delta := out.reservations[r].actual.value - db.reservations[r].actual.GetOr(0);
      forall b | 0 <= b < |out.budgets|
        ensures out.budgets[b].reserved == SumReserved(out.holds, b, |out.holds|) && out.budgets[b].spent >= 0
      {
        AdjustKeeps(db.budgets, db.holds, r, delta, |db.holds|, b);
      }
    }
  }

  /** The charges explained by finalized holds after a reservation's actual is replaced. */
  lemma ReconciledCharges(db: Db, j: JobId, r: ReservationId, b: BudgetId)
    requires LedgerInv(db) && Reconcilable(db, j, r) && ReportedTotal(db, j, r).Some?
    ensures
      var out := Reconcile(db, j, r);
      SumCharged(out.holds, out.reservations, b, |out.holds|) == SumCharged(db.holds, db.reservations, b, |db.holds|)
        + PerClosedHold(db.holds, r, b, ReportedTotal(db, j, r).value - db.reservations[r].actual.GetOr(0), |db.holds|)
  {
    SumChargedAfterReprice(db.holds, db.reservations, Reconcile(db, j, r).reservations, r, b, |db.holds|);
  }

  /** A budget row after a reconcile whose total leaves it non-negative. */
  lemma ReconciledRow(db: Db, j: JobId, r: ReservationId, b: BudgetId)
    requires b < |db.budgets| && Reconcilable(db, j, r) && ReportedTotal(db, j, r).Some? && db.budgets[b].spent >= 0
    requires db.budgets[b].spent
      + PerClosedHold(db.holds, r, b, ReportedTotal(db, j, r).value - db.reservations[r].actual.GetOr(0), |db.holds|) >= 0
    ensures Reconcile(db, j, r).budgets[b] == db.budgets[b].(spent := db.budgets[b].spent
      + PerClosedHold(db.holds, r, b, ReportedTotal(db, j, r).value - db.reservations[r].actual.GetOr(0), |db.holds|))
  {
    var delta := ReportedTotal(db, j, r).value - db.reservations[r].actual.GetOr(0);
    if delta == 0 {
      PerClosedHoldSign(db.holds, r, b, 0, |db.holds|, |db.holds|);
    } else {
      AdjustClosedForm(db.budgets, db.holds, r, delta, |db.holds|, b);
    }
  }

  /** Spending of a budget with a non-negative opening is re-priced exactly: the clamp cannot fire. */
  lemma ReconciledBudget(db: Db, j: JobId, r: ReservationId, b: BudgetId)
    requires LedgerInv(db) && b < |db.budgets| && SpentOpening(db, b) >= 0
    requires Reconcilable(db, j, r) && ReportedTotal(db, j, r).Some?
    ensures var delta := ReportedTotal(db, j, r).value - db.reservations[r].actual.GetOr(0);
      Reconcile(db, j, r).budgets[b]
      == db.budgets[b].(spent := db.budgets[b].spent + PerClosedHold(db.holds, r, b, delta, |db.holds|))
    ensures SpentOpening(Reconcile(db, j, r), b) == SpentOpening(db, b)
  {
    ReconciledCharges(db, j, r, b);
    ChargesNonNegative(Reconcile(db, j, r).holds, Reconcile(db, j, r).reservations, b, |db.holds|);
    ReconciledRow(db, j, r, b);
  }

  lemma {:induction false} ChargesNonNegative(holds: seq<Hold>, reservations: seq<Reservation>, b: BudgetId, n: nat)
    requires n <= |holds|
    ensures SumCharged(holds, reservations, b, n) >= 0
  {
    if n != 0 {
      ChargesNonNegative(holds, reservations, b, n - 1);
    }
  }

  /** A reconcile keeps the invariant, every identity opening, and every non-negative budget opening. */
  lemma ReconcileConserves(db: Db, j: JobId, r: ReservationId)
    requires LedgerInv(db)
    ensures LedgerInv(Reconcile(db, j, r))
    ensures forall b :: 0 <= b < |db.budgets| && SpentOpening(db, b) >= 0 ==> SpentOpening(Reconcile(db, j, r), b) == SpentOpening(db, b)
    ensures forall i :: IdentityOpening(Reconcile(db, j, r), i) == IdentityOpening(db, i)
  {
    ReconcileKeepsInv(db, j, r);
    var out := Reconcile(db, j, r);
    if out != db {
      forall b | 0 <= b < |db.budgets| && SpentOpening(db, b) >= 0 ensures SpentOpening(out, b) == SpentOpening(db, b) {
        ReconciledBudget(db, j, r, b);
      }
      forall i ensures IdentityOpening(out, i) == IdentityOpening(db, i) {
        StampKeepsIdentities(db.jobs, j, r, out.reservations[r].actual);
        SumIdentityJobs(db.jobs, out.jobs, out.reservations, i, |out.reservations|);
        SumIdentityUpdate(db.jobs, db.reservations, r, out.reservations[r], i, |db.reservations|);
      }
    }
  }

  // Reservation ----------------------------------------------------------------------

  /** Holding on distinct budgets: each is rolled over, checked and raised on its own,
  so the outcome is all-or-nothing over the selected set. */
  lemma {:induction false} HoldOnAllMeaning(budgets: seq<Budget>, ids: seq<BudgetId>, n: nat, amount: nat, clock: Clock)
    requires n <= |ids| && Within(ids, |budgets|) && Distinct(ids)
    ensures HoldOnAll(budgets, ids, n, amount, clock).Some?
       <==> forall k :: 0 <= k < n ==> Admits(RollOver(budgets[ids[k]], clock), amount)
    ensures HoldOnAll(budgets, ids, n, amount, clock).Some? ==>
      var out := HoldOnAll(budgets, ids, n, amount, clock).value;
      forall b :: 0 <= b < |budgets| ==>
        out[b] == if b in ids[..n] then HeldOn(budgets[b], amount, clock) else budgets[b]
  {
    if n != 0 {
      HoldOnAllMeaning(budgets, ids, n - 1, amount, clock);
      assert ids[..n] == ids[..n - 1] + [ids[n - 1]];
      assert ids[n - 1] !in ids[..n - 1];
    }
  }

  /** A budget row with the reset applied if due and the amount held. */
  function HeldOn(b: Budget, amount: nat, clock: Clock): Budget {
    var rolled := RollOver(b, clock);
    rolled.(reserved := rolled.reserved + amount)
  }

  lemma {:induction false} SumReservedAppend(holds: seq<Hold>, ids: seq<BudgetId>, r: ReservationId, amount: nat, b: BudgetId, n: nat)
    requires n <= |ids| && Distinct(ids)
    ensures SumReserved(holds + NewHolds(ids, r, amount), b, |holds| + n)
         == SumReserved(holds, b, |holds|) + if b in ids[..n] then amount else 0
  {
    if n == 0 {
      SumReservedPrefix(holds, holds + NewHolds(ids, r, amount), b, |holds|);
    } else {
      SumReservedAppend(holds, ids, r, amount, b, n - 1);
      assert ids[..n] == ids[..n - 1] + [ids[n - 1]];
      assert ids[n - 1] !in ids[..n - 1];
    }
  }

  lemma {:induction false} SumReservedPrefix(holds: seq<Hold>, holds': seq<Hold>, b: BudgetId, n: nat)
    requires n <= |holds| <= |holds'| && forall k :: 0 <= k < |holds| ==> holds'[k] == holds[k]
    ensures SumReserved(holds', b, n) == SumReserved(holds, b, n)
  {
    if n != 0 {
      SumReservedPrefix(holds, holds', b, n - 1);
    }
  }

  /** Appended open holds and appended reservations charge nothing. */
  lemma {:induction false} SumChargedAppend(
    holds: seq<Hold>, holds': seq<Hold>, rows: seq<Reservation>, rows': seq<Reservation>, b: BudgetId, n: nat)
    requires |holds| <= |holds'| && n <= |holds'| && |rows| <= |rows'|
    requires forall k :: 0 <= k < |holds| ==> holds'[k] == holds[k] && holds[k].reservation < |rows|
    requires forall k :: |holds| <= k < |holds'| ==> holds'[k].status == HoldReserved
    requires forall k :: 0 <= k < |rows| ==> rows'[k] == rows[k]
    ensures SumCharged(holds', rows', b, n) == SumCharged(holds, rows, b, if n <= |holds| then n else |holds|)
  {
    if n != 0 {
      SumChargedAppend(holds, holds', rows, rows', b, n - 1);
    }
  }

  /** Whether the pre-flight that turned db into out got its hold. */
  predicate Granted(db: Db, out: Db) {
    |db.reservations| < |out.reservations| && out.reservations[|db.reservations|].status == Reserved
  }

  /** A granted pre-flight, row by row. */
  lemma GrantedReserve(db: Db, j: JobId, scope: Scope, amount: nat, clock: Clock)
    requires Granted(db, Reserve(db, j, scope, Some(amount), clock))
    ensures Within(SelectedBudgets(db.budgets, scope), |db.budgets|)
    ensures Distinct(SelectedBudgets(db.budgets, scope))
    ensures |Reserve(db, j, scope, Some(amount), clock).budgets| == |db.budgets|
    ensures forall b :: 0 <= b < |db.budgets| ==>
      Reserve(db, j, scope, Some(amount), clock).budgets[b]
      == if b in SelectedBudgets(db.budgets, scope) then HeldOn(db.budgets[b], amount, clock) else db.budgets[b]
    ensures Reserve(db, j, scope, Some(amount), clock).holds
         == db.holds + NewHolds(SelectedBudgets(db.budgets, scope), |db.reservations|, amount)
  {
    var ids := SelectedBudgets(db.budgets, scope);
    SelectedIds(db.budgets, scope);
    HoldOnAllMeaning(db.budgets, ids, |ids|, amount, clock);
    assert ids[..|ids|] == ids;
  }

  /** Anything but a granted pre-flight leaves budgets and holds alone. */
  lemma DeniedReserve(db: Db, j: JobId, scope: Scope, estimate: Option<nat>, clock: Clock)
    requires !Granted(db, Reserve(db, j, scope, estimate, clock))
    ensures Reserve(db, j, scope, estimate, clock) == db.(reservations := Reserve(db, j, scope, estimate, clock).reservations)
  {}

  lemma ReserveKeepsBalance(db: Db, j: JobId, scope: Scope, amount: nat, clock: Clock)
    requires LedgerInv(db) && Granted(db, Reserve(db, j, scope, Some(amount), clock))
    ensures BudgetsBalanced(Reserve(db, j, scope, Some(amount), clock))
  {
    var out := Reserve(db, j, scope, Some(amount), clock);
    GrantedReserve(db, j, scope, amount, clock);
    var ids := SelectedBudgets(db.budgets, scope);
    assert ids[..|ids|] == ids;
    forall b | 0 <= b < |out.budgets|
      ensures out.budgets[b].reserved == SumReserved(out.holds, b, |out.holds|) && out.budgets[b].spent >= 0
    {
      SumReservedAppend(db.holds, ids, |db.reservations|, amount, b, |ids|);
    }
  }

  lemma ReserveKeepsLinks(db: Db, j: JobId, scope: Scope, amount: nat, clock: Clock)
    requires LedgerInv(db) && j < |db.jobs| && Granted(db, Reserve(db, j, scope, Some(amount), clock))
    ensures RowsLinked(Reserve(db, j, scope, Some(amount), clock))
  {
    GrantedReserve(db, j, scope, amount, clock);
    var out := Reserve(db, j, scope, Some(amount), clock);
    assert forall k :: 0 <= k < |db.holds| ==> out.holds[k] == db.holds[k];
    assert forall k :: |db.holds| <= k < |out.holds| ==>
      out.holds[k] == NewHolds(SelectedBudgets(db.budgets, scope), |db.reservations|, amount)[k - |db.holds|];
  }

  lemma ReserveKeepsInv(db: Db, j: JobId, scope: Scope, estimate: Option<nat>, clock: Clock)
    requires LedgerInv(db) && j < |db.jobs|
    ensures LedgerInv(Reserve(db, j, scope, estimate, clock))
  {
    var out := Reserve(db, j, scope, estimate, clock);
    if Granted(db, out) {
      ReserveKeepsBalance(db, j, scope, estimate.value, clock);
      ReserveKeepsLinks(db, j, scope, estimate.value, clock);
    } else {
      DeniedReserve(db, j, scope, estimate, clock);
    }
  }

  predicate PeriodMoved(db: Db, out: Db, b: BudgetId) {
    b < |db.budgets| && b < |out.budgets| && out.budgets[b].periodStart != db.budgets[b].periodStart
  }

  lemma ReserveKeepsOpening(db: Db, j: JobId, scope: Scope, amount: nat, clock: Clock, b: BudgetId)
    requires LedgerInv(db) && Granted(db, Reserve(db, j, scope, Some(amount), clock))
    requires b < |db.budgets| && !PeriodMoved(db, Reserve(db, j, scope, Some(amount), clock), b)
    ensures b < |Reserve(db, j, scope, Some(amount), clock).budgets|
    ensures SpentOpening(Reserve(db, j, scope, Some(amount), clock), b) == SpentOpening(db, b)
  {
    var out := Reserve(db, j, scope, Some(amount), clock);
    GrantedReserve(db, j, scope, amount, clock);
    var added := NewHolds(SelectedBudgets(db.budgets, scope), |db.reservations|, amount);
    assert forall k :: |db.holds| <= k < |out.holds| ==> out.holds[k] == added[k - |db.holds|];
    SumChargedAppend(db.holds, out.holds, db.reservations, out.reservations, b, |out.holds|);
  }

  /** A pre-flight moves no opening balance except by a period reset it performs. */
  lemma ReserveConserves(db: Db, j: JobId, scope: Scope, estimate: Option<nat>, clock: Clock)
    requires LedgerInv(db) && j < |db.jobs|
    ensures LedgerInv(Reserve(db, j, scope, estimate, clock))
    ensures |Reserve(db, j, scope, estimate, clock).budgets| == |db.budgets|
    ensures forall b ::
      0 <= b < |db.budgets| && !PeriodMoved(db, Reserve(db, j, scope, estimate, clock), b) ==>
        SpentOpening(Reserve(db, j, scope, estimate, clock), b) == SpentOpening(db, b)
    ensures forall i :: IdentityOpening(Reserve(db, j, scope, estimate, clock), i) == IdentityOpening(db, i)
  {
    ReserveKeepsInv(db, j, scope, estimate, clock);
    var out := Reserve(db, j, scope, estimate, clock);
    assert |out.budgets| == |db.budgets|;
    forall b | 0 <= b < |db.budgets| && !PeriodMoved(db, out, b)
      ensures SpentOpening(out, b) == SpentOpening(db, b)
    {
      if Granted(db, out) {
        ReserveKeepsOpening(db, j, scope, estimate.value, clock, b);
      } else {
        DeniedReserve(db, j, scope, estimate, clock);
        SumChargedAppend(db.holds, db.holds, db.reservations, out.reservations, b, |db.holds|);
      }
    }
    forall i ensures IdentityOpening(out, i) == IdentityOpening(db, i) {
      SumIdentityPrefix(db.jobs, db.reservations, out.reservations, i, |db.reservations|);
    }
  }
}
