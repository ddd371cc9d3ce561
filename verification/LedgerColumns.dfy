/** The terminal transition and the late reconcile said over the columns of every table they touch. */
module LedgerColumns {
  import opened Rows
  import opened CostLedger
  import LI = LedgerInvariants
  import LB = LateBilling

  // Sums ------------------------------------------------------------------------------------

  /** The positions of the costs a provider reported for r of job j: not inferred ones, and none but its own. */
  ghost function ReportedAt(events: seq<CostEvent>, j: JobId, r: ReservationId, n: nat): set<nat> {
    set k: nat | k < n && k < |events| && events[k].job == j && events[k].reservation == r
                 && events[k].actual.Some? && !events[k].inferred
  }

  /** Nothing is reported exactly when there is no such event, and one more such event adds its cost. */
  lemma ReportedIsSum(events: seq<CostEvent>, j: JobId, r: ReservationId, n: nat)
    requires n <= |events|
    ensures ReportedActual(events, j, r, n).None? <==> ReportedAt(events, j, r, n) == {}
    ensures n > 0 && n - 1 in ReportedAt(events, j, r, n) ==>
              ReportedActual(events, j, r, n) == Some(ReportedActual(events, j, r, n - 1).GetOr(0) + events[n - 1].actual.value)
    ensures n > 0 && n - 1 !in ReportedAt(events, j, r, n) ==>
              ReportedActual(events, j, r, n) == ReportedActual(events, j, r, n - 1)
  {
    LB.NothingReported(events, j, r, n);
    if ReportedAt(events, j, r, n) == {} {
      forall k: nat | k < n ensures !Reported(events[k], j, r) {
        assert k !in ReportedAt(events, j, r, n);
      }
    } else {
      var k :| k in ReportedAt(events, j, r, n);
      assert Reported(events[k], j, r);
    }
  }

  /** The holds of r on b that are open, and those that are closed, by position. */
  ghost function OpenAt(holds: seq<Hold>, r: ReservationId, b: BudgetId, n: nat): set<nat> {
    set k: nat | k < n && k < |holds| && holds[k].reservation == r && holds[k].budget == b && holds[k].status == HoldReserved
  }

  ghost function ClosedAt(holds: seq<Hold>, r: ReservationId, b: BudgetId, n: nat): set<nat> {
    set k: nat | k < n && k < |holds| && holds[k].reservation == r && holds[k].budget == b
                 && holds[k].status in {HoldCommitted, HoldReleased}
  }

  lemma OneMoreOf(each: int, n: nat)
    ensures each * (n + 1) == each * n + each
  {}

  lemma NextOpen(holds: seq<Hold>, r: ReservationId, b: BudgetId, n: nat)
    requires 0 < n <= |holds|
    ensures |OpenAt(holds, r, b, n)|
         == |OpenAt(holds, r, b, n - 1)| + if OpenHold(holds[n - 1], r) && holds[n - 1].budget == b then 1 else 0
  {
    var last := n - 1;
    assert OpenAt(holds, r, b, n) - {last} == OpenAt(holds, r, b, n - 1);
  }

  lemma NextClosed(holds: seq<Hold>, r: ReservationId, b: BudgetId, n: nat)
    requires 0 < n <= |holds|
    ensures |ClosedAt(holds, r, b, n)|
         == |ClosedAt(holds, r, b, n - 1)| + if ClosedHold(holds[n - 1], r) && holds[n - 1].budget == b then 1 else 0
  {
    var last := n - 1;
    assert ClosedAt(holds, r, b, n) - {last} == ClosedAt(holds, r, b, n - 1);
  }

  lemma {:induction false} PerOpenIsCount(holds: seq<Hold>, r: ReservationId, b: BudgetId, each: nat, n: nat)
    requires n <= |holds|
    ensures LI.PerOpenHold(holds, r, b, each, n) == each * |OpenAt(holds, r, b, n)|
  {
    if n != 0 {
      PerOpenIsCount(holds, r, b, each, n - 1);
      NextOpen(holds, r, b, n);
      OneMoreOf(each, |OpenAt(holds, r, b, n - 1)|);
    }
  }

  // The terminal transition -------------------------------------------------------------------

  /** What a transition charges: what was reported; else, on a commit, the estimate; else nothing. */
  function ChargeOf(reported: Option<nat>, committed: bool, estimated: nat): Option<nat> {
    if reported.Some? then reported else if committed then Some(estimated) else None
  }

  /** Whether a call for r on behalf of job j may close it. */
  predicate Closable(db: Db, j: JobId, r: ReservationId) {
    r < |db.reservations| && db.reservations[r].job == j && db.reservations[r].status == Reserved
  }

  /** Every open hold of r is closed, and no other hold changes. */
  ghost predicate HoldsClosed(was: seq<Hold>, now: seq<Hold>, r: ReservationId, committed: bool) {
    && |now| == |was|
    && forall k :: 0 <= k < |was| ==>
         now[k] == if was[k].reservation == r && was[k].status == HoldReserved
                   then was[k].(status := if committed then HoldCommitted else HoldReleased) else was[k]
  }

  /** Every open hold of r has left its budget's reserved amount and added the charge to what it spent. */
  ghost predicate BudgetsCharged(db: Db, now: seq<Budget>, r: ReservationId, charge: nat) {
    && |now| == |db.budgets|
    && forall b :: 0 <= b < |db.budgets| ==>
         now[b] == db.budgets[b].(reserved := db.budgets[b].reserved - LI.HeldBy(db.holds, r, b, |db.holds|),
                                  spent := db.budgets[b].spent + charge * |OpenAt(db.holds, r, b, |db.holds|)|)
  }

  /** The job carries the charge if r is still its reservation; no other row changes. */
  ghost predicate JobStamped(was: seq<Job>, now: seq<Job>, j: JobId, r: ReservationId, charge: Option<nat>) {
    && |now| == |was|
    && forall k :: 0 <= k < |was| ==>
         now[k] == if k == j && was[k].reservation == Some(r) && charge.Some? then was[k].(actualCost := charge) else was[k]
  }

  /** Only the identity of job j is charged. */
  ghost predicate Counted(db: Db, now: map<IdentityId, Totals>, j: JobId, estimated: int, charge: Option<int>) {
    forall i: IdentityId ::
      TotalsOf(now, i) ==
        if j < |db.jobs| && db.jobs[j].identity == Some(i) && charge.Some?
        then Totals(TotalsOf(db.identities, i).estimated + estimated, TotalsOf(db.identities, i).actual + charge.value)
        else TotalsOf(db.identities, i)
  }

  lemma SettlesHolds(db: Db, r: ReservationId, t: Target)
    ensures HoldsClosed(db.holds, MarkHolds(db.holds, r, t, |db.holds|), r, t == ToCommitted)
  {}

  lemma SettlesBudgets(db: Db, r: ReservationId, charge: nat)
    requires LI.LedgerInv(db)
    ensures BudgetsCharged(db, SettleHolds(db.budgets, db.holds, r, charge, |db.holds|), r, charge)
  {
    forall b | 0 <= b < |db.budgets|
      ensures SettleHolds(db.budgets, db.holds, r, charge, |db.holds|)[b]
           == db.budgets[b].(reserved := db.budgets[b].reserved - LI.HeldBy(db.holds, r, b, |db.holds|),
                             spent := db.budgets[b].spent + charge * |OpenAt(db.holds, r, b, |db.holds|)|)
    {
      LI.SettledBudget(db, r, charge, b);
      PerOpenIsCount(db.holds, r, b, charge, |db.holds|);
    }
  }

  lemma StampsJob(db: Db, j: JobId, r: ReservationId, charge: Option<nat>)
    ensures JobStamped(db.jobs, if charge.Some? then StampActual(db.jobs, j, r, charge) else db.jobs, j, r, charge)
  {}

  lemma CountsIdentity(db: Db, j: JobId, estimated: int, charge: Option<int>)
    ensures Counted(db, if charge.Some? then AddTotals(db.identities, IdentityOf(db.jobs, j), estimated, charge.value) else db.identities,
                    j, estimated, charge)
  {}

  /**
   * Commit or release of a reserved reservation of its own job: the reservation is closed at the
   * charge; so are its open holds, and their budgets charged; the job is stamped and its identity
   * counted. A call for any other reservation changes nothing.
   */
  lemma FinalizeOnColumns(db: Db, j: JobId, r: ReservationId, t: Target, out: Db)
    requires LI.LedgerInv(db) && out == Finalize(db, j, r, t)
    ensures !Closable(db, j, r) ==> out == db
    ensures Closable(db, j, r) ==>
      var row := db.reservations[r];
      var charge := ChargeOf(ReportedTotal(db, j, r), t == ToCommitted, row.estimated);
      && out.assets == db.assets
      && out.reservations == db.reservations[r := row.(status := if t == ToCommitted then Committed else Released, actual := charge)]
      && HoldsClosed(db.holds, out.holds, r, t == ToCommitted)
      && BudgetsCharged(db, out.budgets, r, charge.GetOr(0))
      && JobStamped(db.jobs, out.jobs, j, r, charge)
      && Counted(db, out.identities, j, row.estimated, charge)
  {
    if Closable(db, j, r) {
      var charge := FinalActual(db, j, r, t);
      SettlesHolds(db, r, t);
      SettlesBudgets(db, r, charge.GetOr(0));
      StampsJob(db, j, r, charge);
      CountsIdentity(db, j, db.reservations[r].estimated, charge);
    }
  }

  // The late reconcile --------------------------------------------------------------------------

  lemma {:induction false} AdjustCuts(budgets: seq<Budget>, holds: seq<Hold>, r: ReservationId, delta: int, n: nat, b: BudgetId)
    requires n <= |holds| && b < |budgets| && budgets[b].spent >= 0
    ensures AdjustHolds(budgets, holds, r, delta, n)[b]
         == budgets[b].(spent := Max(budgets[b].spent + delta * |ClosedAt(holds, r, b, n)|, 0))
  {
    if n != 0 {
      AdjustCuts(budgets, holds, r, delta, n - 1, b);
      NextClosed(holds, r, b, n);
      OneMore(delta, |ClosedAt(holds, r, b, n - 1)|, budgets[b].spent);
    }
  }

  lemma OneMore(delta: int, n: nat, spent: int)
    requires spent >= 0
    ensures Max(Max(spent + delta * n, 0) + delta, 0) == Max(spent + delta * (n + 1), 0)
  {
    OneMoreOf(delta, n);
    if delta >= 0 {
      assert delta * n >= 0;
    } else {
      assert delta * n <= 0;
    }
  }

  /** Whether a late reconcile of r on behalf of job j has something to do. */
  predicate Correctable(db: Db, j: JobId, r: ReservationId) {
    r < |db.reservations| && db.reservations[r].job == j && db.reservations[r].status in {Committed, Released}
    && ReportedTotal(db, j, r).Some?
  }

  /** Every closed hold of r moves its budget's spending by delta, which is never taken below zero. */
  ghost predicate BudgetsCorrected(db: Db, now: seq<Budget>, r: ReservationId, delta: int) {
    && |now| == |db.budgets|
    && forall b :: 0 <= b < |db.budgets| ==>
         now[b] == db.budgets[b].(spent := Max(db.budgets[b].spent + delta * |ClosedAt(db.holds, r, b, |db.holds|)|, 0))
  }

  lemma CorrectsBudgets(db: Db, r: ReservationId, delta: int)
    requires LI.LedgerInv(db)
    ensures BudgetsCorrected(db, AdjustHolds(db.budgets, db.holds, r, delta, |db.holds|), r, delta)
    ensures delta == 0 ==> BudgetsCorrected(db, db.budgets, r, delta)
  {
    forall b | 0 <= b < |db.budgets|
      ensures AdjustHolds(db.budgets, db.holds, r, delta, |db.holds|)[b]
           == db.budgets[b].(spent := Max(db.budgets[b].spent + delta * |ClosedAt(db.holds, r, b, |db.holds|)|, 0))
    {
      AdjustCuts(db.budgets, db.holds, r, delta, |db.holds|, b);
    }
  }

  /**
   * A reconcile of a committed or released reservation for which something was reported: it and its
   * job, if it still is the job's, carry the reported sum, and budgets and identity move by the
   * difference to what was recorded before. Any other call changes nothing.
   */
  lemma ReconcileOnColumns(db: Db, j: JobId, r: ReservationId, out: Db)
    requires LI.LedgerInv(db) && out == Reconcile(db, j, r)
    ensures !Correctable(db, j, r) ==> out == db
    ensures Correctable(db, j, r) ==>
      var reported := ReportedTotal(db, j, r);
      var delta := reported.value - db.reservations[r].actual.GetOr(0);
      && out == db.(reservations := out.reservations, jobs := out.jobs, budgets := out.budgets, identities := out.identities)
      && out.reservations == db.reservations[r := db.reservations[r].(actual := reported)]
      && BudgetsCorrected(db, out.budgets, r, delta)
      && JobStamped(db.jobs, out.jobs, j, r, reported)
      && Counted(db, out.identities, j, 0, Some(delta))
  {
    if Correctable(db, j, r) {
      var delta := ReportedTotal(db, j, r).value - db.reservations[r].actual.GetOr(0);
      CorrectsBudgets(db, r, delta);
      StampsJob(db, j, r, ReportedTotal(db, j, r));
      CountsIdentity(db, j, 0, Some(delta));
    }
  }
}
