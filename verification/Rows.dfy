/** The database tables the job lifecycle and the cost ledger share.

A table is a sequence of rows and a row's id is its position, so a fresh id is
the next position. Amounts are whole numbers of 1/10000 USD, the grain of the
NUMERIC(14, 4) columns. Columns no modelled query reads are left out.
*/
module Rows {
  datatype Option<+T> = None | Some(value: T) {
    function GetOr(default: T): T {
      match this
      case Some(v) => v
      case None => default
    }
  }

  type JobId = nat
  type ReservationId = nat
  type BudgetId = nat
  type AssetId = nat
  type IdentityId = nat

  // generation_jobs ---------------------------------------------------------

  datatype JobStatus = Queued | Running | PreviewReady | Completed | JobFailed | Cancelled

  datatype JobKind = SingleImage | Pack

  /** The identifiers a budget can be scoped to. */
  datatype Scope = Scope(tenant: nat, token: nat, world: nat, user: nat)

  datatype Job = Job(
    kind: JobKind,
    previewFirst: bool,
    identity: Option<IdentityId>,
    scope: Scope,
    status: JobStatus,
    reservation: Option<ReservationId>,
    previewAssets: seq<AssetId>,
    finalAssets: seq<AssetId>,
    finalizationClaimed: bool,
    actualCost: Option<nat>)

  // visual_assets -----------------------------------------------------------

  datatype AssetKind = PreviewAsset | FinalAsset | PackItemAsset

  datatype Asset = Asset(job: JobId, kind: AssetKind)

  // cost_budgets, cost_reservations, cost_reservation_budget_holds -----------

  datatype ScopeType = TenantScope | TokenScope | WorldScope | UserScope

  datatype Period = Daily | Monthly

  datatype BudgetStatus = Active | Paused | Exceeded

  datatype Budget = Budget(
    tenant: nat,
    scopeType: ScopeType,
    scopeId: nat,
    period: Period,
    periodStart: int,
    status: BudgetStatus,
    limit: int,
    reserved: int,
    spent: int)

  datatype ReservationStatus = Reserved | Committed | Released | Denied

  datatype Reservation = Reservation(
    job: JobId,
    estimated: nat,
    held: nat,
    actual: Option<nat>,
    status: ReservationStatus)

  datatype HoldStatus = HoldReserved | HoldCommitted | HoldReleased

  datatype Hold = Hold(reservation: ReservationId, budget: BudgetId, amount: nat, status: HoldStatus)

  // generation_cost_events, identity_cost_ledger ------------------------------

  datatype EventStatus = EventCompleted | EventSucceeded | EventFailed

  /** `inferred` is the metadata flag actual_inferred_from_estimate. */
  datatype CostEvent = CostEvent(
    job: JobId,
    reservation: ReservationId,
    estimated: Option<nat>,
    actual: Option<nat>,
    inferred: bool,
    status: EventStatus)

  datatype Totals = Totals(estimated: int, actual: int)

  datatype Db = Db(
    jobs: seq<Job>,
    assets: seq<Asset>,
    budgets: seq<Budget>,
    holds: seq<Hold>,
    reservations: seq<Reservation>,
    events: seq<CostEvent>,
    identities: map<IdentityId, Totals>)

  /** Start of the current daily and monthly UTC windows. */
  datatype Clock = Clock(day: int, month: int)

  function Max(a: int, b: int): (m: int)
    ensures m >= a && m >= b && (m == a || m == b)
  {
    if a < b then b else a
  }

  /** Reads of rows that may not exist. */
  predicate JobAt(db: Db, j: JobId, r: ReservationId) {
    j < |db.jobs| && db.jobs[j].reservation == Some(r)
  }

  function IdentityOf(jobs: seq<Job>, j: JobId): Option<IdentityId> {
    if j < |jobs| then jobs[j].identity else None
  }

  function TotalsOf(identities: map<IdentityId, Totals>, i: IdentityId): Totals {
    if i in identities then identities[i] else Totals(0, 0)
  }
}
