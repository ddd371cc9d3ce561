/** What each cost transaction does to the tables, as functions of the tables
before it. The methods of `Store` run the same transactions statement by
statement and are proved equal to these functions.
*/
module CostLedger {
  import opened Rows

  // Reported actuals ----------------------------------------------------------

  /** The events a SUM over provider-reported actuals ranges over. */
  predicate Reported(e: CostEvent, j: JobId, r: ReservationId) {
    e.job == j && e.reservation == r && e.actual.Some? && !e.inferred
  }

  /** SQL SUM over the first n events: None (NULL) when no event was reported. */
  function ReportedActual(events: seq<CostEvent>, j: JobId, r: ReservationId, n: nat): Option<nat>
    requires n <= |events|
  {
    if n == 0 then None
    else
      var before := ReportedActual(events, j, r, n - 1);
      if Reported(events[n - 1], j, r) then Some(before.GetOr(0) + events[n - 1].actual.value) else before
  }

  function ReportedTotal(db: Db, j: JobId, r: ReservationId): Option<nat> {
    ReportedActual(db.events, j, r, |db.events|)
  }

  function InsertEvent(db: Db, e: CostEvent): Db {
    db.(events := db.events + [e])
  }

  // Pre-flight reservation ------------------------------------------------------

  function WindowStart(period: Period, clock: Clock): int {
    match period
    case Daily => clock.day
    case Monthly => clock.month
  }

  /** The lazy period reset. */
  function RollOver(b: Budget, clock: Clock): Budget {
    var window := WindowStart(b.period, clock);
    if b.periodStart < window then
      b.(periodStart := window, spent := 0, status := if b.status == Exceeded then Active else b.status)
    else
      b
  }

  /** Whether the limit (or a paused status) lets the hold through. */
  predicate Admits(b: Budget, amount: nat) {
    b.status == Paused || (b.status == Active && b.reserved + b.spent + amount <= b.limit)
  }

  function ScopeIdFor(scope: Scope, t: ScopeType): nat {
    match t
    case TenantScope => scope.tenant
    case TokenScope => scope.token
    case WorldScope => scope.world
    case UserScope => scope.user
  }

  predicate Applies(b: Budget, scope: Scope, t: ScopeType) {
    b.tenant == scope.tenant && b.scopeType == t && b.scopeId == ScopeIdFor(scope, t)
  }

  /** Ids, among the first n budgets, of those that apply at one scope type. */
  function Matching(budgets: seq<Budget>, scope: Scope, t: ScopeType, n: nat): seq<BudgetId>
    requires n <= |budgets|
  {
    if n == 0 then []
    else
      var before := Matching(budgets, scope, t, n - 1);
      if Applies(budgets[n - 1], scope, t) then before + [n - 1] else before
  }

  /** Tenant budgets plus the narrowest non-empty scope: token, then world, then user. */
  function SelectedBudgets(budgets: seq<Budget>, scope: Scope): seq<BudgetId> {
    var token := Matching(budgets, scope, TokenScope, |budgets|);
    var world := Matching(budgets, scope, WorldScope, |budgets|);
    var user := Matching(budgets, scope, UserScope, |budgets|);
    var narrow := if token != [] then token else if world != [] then world else user;
    Matching(budgets, scope, TenantScope, |budgets|) + narrow
  }

  /** The budgets after holding `amount` on ids[..n] in turn; None when one denies. */
  function HoldOnAll(budgets: seq<Budget>, ids: seq<BudgetId>, n: nat, amount: nat, clock: Clock): (r: Option<seq<Budget>>)
    requires n <= |ids|
    requires Within(ids, |budgets|)
    ensures r.Some? ==> |r.value| == |budgets|
  {
    if n == 0 then Some(budgets)
    else
      match HoldOnAll(budgets, ids, n - 1, amount, clock)
      case None => None
      case Some(sofar) =>
        var b := RollOver(sofar[ids[n - 1]], clock);
        if Admits(b, amount) then Some(sofar[ids[n - 1] := b.(reserved := b.reserved + amount)]) else None
  }

  lemma {:induction false} HoldStaysDenied(budgets: seq<Budget>, ids: seq<BudgetId>, n: nat, m: nat, amount: nat, clock: Clock)
    requires n <= m <= |ids| && Within(ids, |budgets|)
    requires HoldOnAll(budgets, ids, n, amount, clock).None?
    ensures HoldOnAll(budgets, ids, m, amount, clock).None?
  {
    if n < m {
      HoldStaysDenied(budgets, ids, n, m - 1, amount, clock);
    }
  }

  function NewHolds(ids: seq<BudgetId>, r: ReservationId, amount: nat): seq<Hold> {
    seq(|ids|, k requires 0 <= k < |ids| => Hold(r, ids[k], amount, HoldReserved))
  }

  ghost predicate Within(ids: seq<BudgetId>, n: nat) {
    forall k :: 0 <= k < |ids| ==> ids[k] < n
  }

  ghost predicate Distinct<T>(ids: seq<T>) {
    forall k, l :: 0 <= k < l < |ids| ==> ids[k] != ids[l]
  }

  lemma {:induction false} MatchingIds(budgets: seq<Budget>, scope: Scope, t: ScopeType, n: nat)
    requires n <= |budgets|
    ensures forall b: BudgetId :: b in Matching(budgets, scope, t, n) <==> b < n && Applies(budgets[b], scope, t)
    ensures Within(Matching(budgets, scope, t, n), n)
    ensures Distinct(Matching(budgets, scope, t, n))
  {
    if n != 0 {
      MatchingIds(budgets, scope, t, n - 1);
    }
  }

  /** Exactly the budgets to enforce, each once. */
  lemma SelectedIds(budgets: seq<Budget>, scope: Scope)
    ensures Within(SelectedBudgets(budgets, scope), |budgets|)
    ensures Distinct(SelectedBudgets(budgets, scope))
  {
    MatchingIds(budgets, scope, TenantScope, |budgets|);
    MatchingIds(budgets, scope, TokenScope, |budgets|);
    MatchingIds(budgets, scope, WorldScope, |budgets|);
    MatchingIds(budgets, scope, UserScope, |budgets|);
    var tenant := Matching(budgets, scope, TenantScope, |budgets|);
    var narrow := SelectedBudgets(budgets, scope)[|tenant|..];
    assert SelectedBudgets(budgets, scope) == tenant + narrow;
    assert forall k, l :: 0 <= k < |tenant| && 0 <= l < |narrow| ==> tenant[k] in tenant && narrow[l] in narrow;
  }

  /** Pre-flight for job j: price it, hold it on every selected budget, record it.
  `estimate` is None when no usable price entry exists. The new reservation's
  id is |db.reservations|. */
  function Reserve(db: Db, j: JobId, scope: Scope, estimate: Option<nat>, clock: Clock): Db {
    var r := |db.reservations|;
    match estimate
    case None => db.(reservations := db.reservations + [Reservation(j, 0, 0, None, Denied)])
    case Some(amount) =>
      var ids := SelectedBudgets(db.budgets, scope);
      SelectedIds(db.budgets, scope);
      match HoldOnAll(db.budgets, ids, |ids|, amount, clock)
      case None => db.(reservations := db.reservations + [Reservation(j, amount, 0, None, Denied)])
      case Some(budgets) =>
        db.(reservations := db.reservations + [Reservation(j, amount, amount, None, Reserved)],
            budgets := budgets,
            holds := db.holds + NewHolds(ids, r, amount))
  }

  // Terminal transition -----------------------------------------------------------

  datatype Target = ToCommitted | ToReleased

  function StatusFor(t: Target): ReservationStatus {
    if t == ToCommitted then Committed else Released
  }

  function HoldStatusFor(t: Target): HoldStatus {
    if t == ToCommitted then HoldCommitted else HoldReleased
  }

  predicate OpenHold(h: Hold, r: ReservationId) {
    h.reservation == r && h.status == HoldReserved
  }

  /** One budget row after a hold of `amount` is charged `charge` (0 when it is only released). */
  function Settle(b: Budget, amount: nat, charge: nat): Budget {
    b.(reserved := Max(b.reserved - amount, 0), spent := b.spent + charge)
  }

  /** The budgets after the open holds of r among the first n are settled. */
  function SettleHolds(budgets: seq<Budget>, holds: seq<Hold>, r: ReservationId, charge: nat, n: nat): (out: seq<Budget>)
    requires n <= |holds|
    ensures |out| == |budgets|
  {
    if n == 0 then budgets
    else
      var sofar := SettleHolds(budgets, holds, r, charge, n - 1);
      var h := holds[n - 1];
      if OpenHold(h, r) && h.budget < |budgets| then sofar[h.budget := Settle(sofar[h.budget], h.amount, charge)] else sofar
  }

  /** The holds after those open for r among the first n are marked terminal. */
  function MarkHolds(holds: seq<Hold>, r: ReservationId, t: Target, n: nat): (out: seq<Hold>)
    requires n <= |holds|
    ensures |out| == |holds|
  {
    seq(|holds|, i requires 0 <= i < |holds| =>
      if i < n && OpenHold(holds[i], r) then holds[i].(status := HoldStatusFor(t)) else holds[i])
  }

  function StampActual(jobs: seq<Job>, j: JobId, r: ReservationId, actual: Option<nat>): (out: seq<Job>)
    ensures |out| == |jobs|
  {
    if j < |jobs| && jobs[j].reservation == Some(r) then jobs[j := jobs[j].(actualCost := actual)] else jobs
  }

  function AddTotals(identities: map<IdentityId, Totals>, who: Option<IdentityId>, estimated: int, actual: int): map<IdentityId, Totals> {
    match who
    case None => identities
    case Some(i) =>
      var t := TotalsOf(identities, i);
      identities[i := Totals(t.estimated + estimated, t.actual + actual)]
  }

  predicate EventOf(e: CostEvent, j: JobId, r: ReservationId) {
    e.job == j && e.reservation == r
  }

  /** Position of the newest event of (j, r) among the first n. */
  function Latest(events: seq<CostEvent>, j: JobId, r: ReservationId, n: nat): (k: Option<nat>)
    requires n <= |events|
    ensures k.Some? ==> k.value < n && EventOf(events[k.value], j, r)
    ensures k.None? ==> forall i :: 0 <= i < n ==> !EventOf(events[i], j, r)
  {
    if n == 0 then None
    else if EventOf(events[n - 1], j, r) then Some(n - 1)
    else Latest(events, j, r, n - 1)
  }

  /** finalizeCostEvent: stamp the newest event, or write the fallback one. */
  function StampEvents(events: seq<CostEvent>, j: JobId, r: ReservationId, estimated: nat, actual: Option<nat>, status: EventStatus): seq<CostEvent> {
    match Latest(events, j, r, |events|)
    case None => events + [CostEvent(j, r, Some(estimated), actual, true, status)]
    case Some(k) =>
      var e := events[k];
      if ReportedActual(events, j, r, |events|).Some?
      then events[k := e.(estimated := Some(estimated), status := status)]
      else events[k := e.(estimated := Some(estimated), actual := actual, inferred := true, status := status)]
  }

  predicate Finalizable(db: Db, j: JobId, r: ReservationId) {
    r < |db.reservations| && db.reservations[r].job == j && db.reservations[r].status == Reserved
  }

  /** The actual the transition records: the reported sum; else, on commit only, the estimate. */
  function FinalActual(db: Db, j: JobId, r: ReservationId, t: Target): Option<nat>
    requires Finalizable(db, j, r)
  {
    var reported := ReportedTotal(db, j, r);
    if reported.Some? then reported
    else if t == ToCommitted then Some(db.reservations[r].estimated)
    else None
  }

  /** The transition with a given actual; events aside. */
  function SettleWith(db: Db, j: JobId, r: ReservationId, t: Target, actual: Option<nat>): Db
    requires Finalizable(db, j, r)
  {
    var row := db.reservations[r];
    db.(reservations := db.reservations[r := row.(status := StatusFor(t), actual := actual)],
        budgets := SettleHolds(db.budgets, db.holds, r, actual.GetOr(0), |db.holds|),
        holds := MarkHolds(db.holds, r, t, |db.holds|),
        jobs := if actual.Some? then StampActual(db.jobs, j, r, actual) else db.jobs,
        identities := if actual.Some? then AddTotals(db.identities, IdentityOf(db.jobs, j), row.estimated, actual.value) else db.identities)
  }

  /** Commit or release of reservation r of job j. */
  function Finalize(db: Db, j: JobId, r: ReservationId, t: Target): Db {
    if !Finalizable(db, j, r) then db
    else
      var actual := FinalActual(db, j, r, t);
      SettleWith(db, j, r, t, actual).(
        events := StampEvents(db.events, j, r, db.reservations[r].estimated, actual,
                              if t == ToCommitted then EventSucceeded else EventFailed))
  }

  /** The request-path variant: whichever reservation the job row points at. */
  function FinalizeForJob(db: Db, j: JobId, t: Target): Db {
    if j < |db.jobs| && db.jobs[j].reservation.Some? then Finalize(db, j, db.jobs[j].reservation.value, t) else db
  }

  /** Finalization adds no reservation and changes nothing of a job but its stamped actual. */
  lemma FinalizeKeepsJobFacts(db: Db, j: JobId)
    ensures |FinalizeForJob(db, j, ToReleased).reservations| == |db.reservations|
    ensures |FinalizeForJob(db, j, ToReleased).jobs| == |db.jobs|
    ensures forall k :: 0 <= k < |db.jobs| ==>
      FinalizeForJob(db, j, ToReleased).jobs[k].(actualCost := db.jobs[k].actualCost) == db.jobs[k]
  {}

  // Late reconciliation --------------------------------------------------------------

  predicate ClosedHold(h: Hold, r: ReservationId) {
    h.reservation == r && h.status != HoldReserved
  }

  /** The budgets after a late delta is applied for the closed holds of r among the first n. */
  function AdjustHolds(budgets: seq<Budget>, holds: seq<Hold>, r: ReservationId, delta: int, n: nat): (out: seq<Budget>)
    requires n <= |holds|
    ensures |out| == |budgets|
  {
    if n == 0 then budgets
    else
      var sofar := AdjustHolds(budgets, holds, r, delta, n - 1);
      var h := holds[n - 1];
      if ClosedHold(h, r) && h.budget < |budgets|
      then sofar[h.budget := sofar[h.budget].(spent := Max(sofar[h.budget].spent + delta, 0))]
      else sofar
  }

  predicate Reconcilable(db: Db, j: JobId, r: ReservationId) {
    r < |db.reservations| && db.reservations[r].job == j && db.reservations[r].status in {Committed, Released}
  }

  /** Fold late reported actuals into a terminal reservation. */
  function Reconcile(db: Db, j: JobId, r: ReservationId): Db {
    var reported := ReportedTotal(db, j, r);
    if !Reconcilable(db, j, r) || reported.None? then db
    else
      var delta := reported.value - db.reservations[r].actual.GetOr(0);
      var stamped := db.(reservations := db.reservations[r := db.reservations[r].(actual := reported)],
                         jobs := StampActual(db.jobs, j, r, reported));
      if delta == 0 then stamped
      else stamped.(budgets := AdjustHolds(db.budgets, db.holds, r, delta, |db.holds|),
                    identities := AddTotals(db.identities, IdentityOf(db.jobs, j), 0, delta))
  }
}
