/** Late provider billing: whatever order cost events, the terminal transition and
reconciliations come in, the money ends up in the same place.
*/
module LateBilling {
  import opened Rows
  import opened CostLedger
  import opened LedgerInvariants
  import opened BudgetRules

  // The stamp never enters the sum ---------------------------------------------------

  lemma {:induction false} SameReported(events: seq<CostEvent>, events': seq<CostEvent>, j: JobId, r: ReservationId, n: nat)
    requires n <= |events| && n <= |events'|
    requires forall k :: 0 <= k < n ==> (Reported(events[k], j, r) <==> Reported(events'[k], j, r))
    requires forall k :: 0 <= k < n && Reported(events[k], j, r) ==> events'[k].actual == events[k].actual
    ensures ReportedActual(events', j, r, n) == ReportedActual(events, j, r, n)
  {
    if n != 0 {
      SameReported(events, events', j, r, n - 1);
    }
  }

  lemma {:induction false} NothingReported(events: seq<CostEvent>, j: JobId, r: ReservationId, n: nat)
    requires n <= |events|
    ensures ReportedActual(events, j, r, n).None? <==> forall k :: 0 <= k < n ==> !Reported(events[k], j, r)
  {
    if n != 0 {
      NothingReported(events, j, r, n - 1);
    }
  }

  /** Finalizing stamps an estimate or a fallback event, and no sum of reported actuals changes. */
  lemma StampKeepsReported(
    events: seq<CostEvent>, j: JobId, r: ReservationId, estimated: nat, actual: Option<nat>, status: EventStatus, j': JobId, r': ReservationId)
    ensures var out := StampEvents(events, j, r, estimated, actual, status);
      ReportedActual(out, j', r', |out|) == ReportedActual(events, j', r', |events|)
  {
    var out := StampEvents(events, j, r, estimated, actual, status);
    NothingReported(events, j, r, |events|);
    SameReported(events, out, j', r', |events|);
  }

  /** No event of (j, r) after position k. */
  predicate IsLatest(events: seq<CostEvent>, j: JobId, r: ReservationId, k: nat) {
    k < |events| && events[k].job == j && events[k].reservation == r
    && forall i :: k < i < |events| ==> !(events[i].job == j && events[i].reservation == r)
  }

  lemma {:induction false} LatestIsLatest(events: seq<CostEvent>, j: JobId, r: ReservationId, n: nat)
    requires n <= |events| && forall i :: n <= i < |events| ==> !(events[i].job == j && events[i].reservation == r)
    ensures match Latest(events, j, r, n)
            case Some(k) => IsLatest(events, j, r, k)
            case None => forall i :: 0 <= i < |events| ==> !(events[i].job == j && events[i].reservation == r)
  {
    if n != 0 && !EventOf(events[n - 1], j, r) {
      LatestIsLatest(events, j, r, n - 1);
    }
  }

  /**
   * What finalizing writes to the cost events: the reservation's latest event, or a fallback event when
   * it has none, carries the estimate and says how the reservation ended; and, where no call reported a
   * cost, the charge, marked as inferred. No other event changes.
   */
  lemma FinalizeStamps(db: Db, j: JobId, r: ReservationId, t: Target, k: nat)
    requires Finalizable(db, j, r)
    ensures var out := Finalize(db, j, r, t).events;
      var ended := if t == ToCommitted then EventSucceeded else EventFailed;
      var estimated, reported := Some(db.reservations[r].estimated), ReportedTotal(db, j, r);
      var charge := if reported.Some? then reported else if t == ToCommitted then estimated else None;
      && (IsLatest(db.events, j, r, k) ==>
            |out| == |db.events| && (forall i :: 0 <= i < |out| && i != k ==> out[i] == db.events[i])
            && out[k] == if reported.Some? then db.events[k].(estimated := estimated, status := ended)
                         else db.events[k].(estimated := estimated, actual := charge, inferred := true, status := ended))
      && ((forall i :: 0 <= i < |db.events| ==> !(db.events[i].job == j && db.events[i].reservation == r)) ==>
            out == db.events + [CostEvent(j, r, estimated, charge, true, ended)])
  {
    LatestIsLatest(db.events, j, r, |db.events|);
    NothingReported(db.events, j, r, |db.events|);
  }

  lemma TransactionsKeepReported(db: Db, op: LedgerOp, j: JobId, r: ReservationId)
    requires !(op.OpEvent? && Reported(op.event, j, r))
    ensures ReportedTotal(Apply(db, op), j, r) == ReportedTotal(db, j, r)
  {
    match op
    case OpReserve(_, _, _, _) =>
    case OpEvent(e) => SameReported(db.events, db.events + [e], j, r, |db.events|);
    case OpFinalize(j', r', t) =>
      if Finalizable(db, j', r') {
        StampKeepsReported(db.events, j', r', db.reservations[r'].estimated, FinalActual(db, j', r', t),
                           if t == ToCommitted then EventSucceeded else EventFailed, j, r);
      }
    case OpReconcile(_, _) =>
    case OpEdit(_, _, _) =>
  }

  // Settled reservations ---------------------------------------------------------------

  /** What a terminal reservation is charged once billing has caught up. */
  function Due(reported: Option<nat>, status: ReservationStatus, estimated: nat): Option<nat> {
    if reported.Some? then reported else if status == Committed then Some(estimated) else None
  }

  predicate Settled(db: Db, j: JobId, r: ReservationId) {
    Reconcilable(db, j, r)
    && db.reservations[r].actual == Due(ReportedTotal(db, j, r), db.reservations[r].status, db.reservations[r].estimated)
  }

  /** In any ledger, among transactions of any other reservations: a finalization settles its
  reservation, so does a reconcile once something was reported, and only a further reported
  event of the same reservation can unsettle it. */
  lemma SettledStays(db: Db, op: LedgerOp, j: JobId, r: ReservationId)
    ensures Finalizable(db, j, r) && op.OpFinalize? && op.j == j && op.r == r ==> Settled(Apply(db, op), j, r)
    ensures Reconcilable(db, j, r) && op == OpReconcile(j, r) && ReportedTotal(db, j, r).Some? ==> Settled(Apply(db, op), j, r)
    ensures Settled(db, j, r) && !(op.OpEvent? && Reported(op.event, j, r)) ==> Settled(Apply(db, op), j, r)
  {
    if !(op.OpEvent? && Reported(op.event, j, r)) {
      TransactionsKeepReported(db, op, j, r);
    }
  }

  // One reservation's billing, in any order ---------------------------------------------

  datatype BillOp = Bill(cost: Option<nat>) | Finish(target: Target) | Catchup

  function AsLedgerOp(op: BillOp, j: JobId, r: ReservationId): LedgerOp {
    match op
    case Bill(cost) => OpEvent(CostEvent(j, r, None, cost, false, EventCompleted))
    case Finish(t) => OpFinalize(j, r, t)
    case Catchup => OpReconcile(j, r)
  }

  function BillRun(db: Db, j: JobId, r: ReservationId, ops: seq<BillOp>): Db {
    if |ops| == 0 then db else Apply(BillRun(db, j, r, ops[..|ops| - 1]), AsLedgerOp(ops[|ops| - 1], j, r))
  }

  /** The target of the first commit or release, if there is one. */
  function FirstTarget(ops: seq<BillOp>): Option<Target> {
    if |ops| == 0 then None
    else
      var before := FirstTarget(ops[..|ops| - 1]);
      if before.None? && ops[|ops| - 1].Finish? then Some(ops[|ops| - 1].target) else before
  }

  /** Whether a reported cost arrived after the terminal transition with no reconcile since. */
  predicate Behind(ops: seq<BillOp>) {
    |ops| != 0 &&
    match ops[|ops| - 1]
    case Bill(cost) => Behind(ops[..|ops| - 1]) || (cost.Some? && FirstTarget(ops[..|ops| - 1]).Some?)
    case Finish(_) => Behind(ops[..|ops| - 1])
    case Catchup => false
  }

  /** The same costs, all billed first. */
  function BillsOnly(ops: seq<BillOp>): seq<BillOp> {
    if |ops| == 0 then []
    else
      var before := BillsOnly(ops[..|ops| - 1]);
      if ops[|ops| - 1].Bill? then before + [ops[|ops| - 1]] else before
  }

  function BilledFirst(ops: seq<BillOp>): seq<BillOp>
    requires FirstTarget(ops).Some?
  {
    BillsOnly(ops) + [Finish(FirstTarget(ops).value)]
  }

  /** Two ledgers agree on every row money is read from: budgets, holds, reservations, the
  actual stamped on jobs, and identity actual totals. */
  ghost predicate SameMoney(a: Db, b: Db) {
    && a.budgets == b.budgets && a.holds == b.holds && a.reservations == b.reservations && a.jobs == b.jobs
    && forall i: IdentityId :: TotalsOf(a.identities, i).actual == TotalsOf(b.identities, i).actual
  }

  lemma {:induction false} Repriced(holds: seq<Hold>, r: ReservationId, t: Target, b: BudgetId, was: nat, now: nat, n: nat)
    requires n <= |holds|
    requires forall k :: 0 <= k < |holds| && holds[k].reservation == r ==> holds[k].status == HoldReserved
    ensures PerOpenHold(holds, r, b, now, n)
         == PerOpenHold(holds, r, b, was, n) + PerClosedHold(MarkHolds(holds, r, t, |holds|), r, b, now - was, n)
  {
    if n != 0 {
      Repriced(holds, r, t, b, was, now, n - 1);
    }
  }

  lemma RepricedBudget(db: Db, s: Db, r: ReservationId, t: Target, was: nat, now: nat, b: BudgetId)
    requires LedgerInv(db) && b < |db.budgets| && r < |db.reservations| && db.reservations[r].status == Reserved
    requires s.budgets == SettleHolds(db.budgets, db.holds, r, was, |db.holds|)
    requires s.holds == MarkHolds(db.holds, r, t, |db.holds|)
    ensures (if now == was then s.budgets else AdjustHolds(s.budgets, s.holds, r, now - was, |s.holds|))[b]
         == SettleHolds(db.budgets, db.holds, r, now, |db.holds|)[b]
  {
    SettledBudget(db, r, was, b);
    SettledBudget(db, r, now, b);
    Repriced(db.holds, r, t, b, was, now, |db.holds|);
    if now != was {
      AdjustClosedForm(s.budgets, s.holds, r, now - was, |s.holds|, b);
    }
  }

  /** Adding the charge and then the late delta is adding the corrected charge. */
  lemma RepricedIdentity(start: map<IdentityId, Totals>, now: map<IdentityId, Totals>, who: Option<IdentityId>,
                         estimated: int, was: Option<nat>, actual: nat, i: IdentityId)
    requires forall k: IdentityId ::
      (TotalsOf(now, k).actual == TotalsOf(if was.Some? then AddTotals(start, who, estimated, was.value) else start, k).actual)
    ensures TotalsOf(if actual == was.GetOr(0) then now else AddTotals(now, who, 0, actual - was.GetOr(0)), i).actual
         == TotalsOf(AddTotals(start, who, estimated, actual), i).actual
  {
    assert TotalsOf(now, i).actual == TotalsOf(if was.Some? then AddTotals(start, who, estimated, was.value) else start, i).actual;
  }

  /** Reconciling a finalized ledger gives the rows a finalization with the right actual would have. */
  lemma ReconcileReprices(db: Db, s: Db, j: JobId, r: ReservationId, t: Target, was: Option<nat>)
    requires LedgerInv(db) && Finalizable(db, j, r) && SameMoney(s, SettleWith(db, j, r, t, was))
    requires ReportedTotal(s, j, r).Some?
    ensures SameMoney(Reconcile(s, j, r), SettleWith(db, j, r, t, ReportedTotal(s, j, r)))
  {
    var now := ReportedTotal(s, j, r).value;
    var out := Reconcile(s, j, r);
    var want := SettleWith(db, j, r, t, Some(now));
    forall b | 0 <= b < |db.budgets| ensures out.budgets[b] == want.budgets[b] {
      RepricedBudget(db, s, r, t, was.GetOr(0), now, b);
    }
    forall i: IdentityId ensures TotalsOf(out.identities, i).actual == TotalsOf(want.identities, i).actual {
      RepricedIdentity(db.identities, s.identities, IdentityOf(db.jobs, j), db.reservations[r].estimated, was, now, i);
    }
  }

  /** The state of the ledger at any point of the run. */
  ghost predicate Progress(db: Db, s: Db, j: JobId, r: ReservationId, target: Option<Target>, behind: bool)
    requires Finalizable(db, j, r)
  {
    match target
    case None => s == db.(events := s.events)
    case Some(t) =>
      && r < |s.reservations|
      && SameMoney(s, SettleWith(db, j, r, t, s.reservations[r].actual))
      && (!behind ==> s.reservations[r].actual == Due(ReportedTotal(s, j, r), StatusFor(t), db.reservations[r].estimated))
      && (ReportedTotal(s, j, r).None? ==> s.reservations[r].actual == Due(None, StatusFor(t), db.reservations[r].estimated))
  }

  lemma {:induction false} RunProgress(db: Db, j: JobId, r: ReservationId, ops: seq<BillOp>)
    requires LedgerInv(db) && Finalizable(db, j, r)
    ensures Progress(db, BillRun(db, j, r, ops), j, r, FirstTarget(ops), Behind(ops))
  {
    if |ops| != 0 {
      var before := ops[..|ops| - 1];
      var op := ops[|ops| - 1];
      var s := BillRun(db, j, r, before);
      RunProgress(db, j, r, before);
      if op.Bill? && op.cost.Some? {
        SameReported(s.events, Apply(s, AsLedgerOp(op, j, r)).events, j, r, |s.events|);
      } else {
        TransactionsKeepReported(s, AsLedgerOp(op, j, r), j, r);
      }
      if op.Catchup? && FirstTarget(before).Some? && ReportedTotal(s, j, r).Some? {
        ReconcileReprices(db, s, j, r, FirstTarget(before).value, s.reservations[r].actual);
      }
    }
  }

  /** One more operation moves the sum of reported actuals by the bill it is, from any ledger. */
  lemma StepReported(s: Db, c: Db, op: BillOp, j: JobId, r: ReservationId)
    requires ReportedTotal(s, j, r) == ReportedTotal(c, j, r)
    ensures ReportedTotal(Apply(s, AsLedgerOp(op, j, r)), j, r)
         == ReportedTotal(if op.Bill? then Apply(c, AsLedgerOp(op, j, r)) else c, j, r)
  {
    if op.Bill? {
      var e := AsLedgerOp(op, j, r).event;
      SameReported(s.events, s.events + [e], j, r, |s.events|);
      SameReported(c.events, c.events + [e], j, r, |c.events|);
    } else {
      TransactionsKeepReported(s, AsLedgerOp(op, j, r), j, r);
    }
  }

  lemma {:induction false} ReportedOfBills(db: Db, j: JobId, r: ReservationId, ops: seq<BillOp>)
    ensures ReportedTotal(BillRun(db, j, r, ops), j, r) == ReportedTotal(BillRun(db, j, r, BillsOnly(ops)), j, r)
  {
    if |ops| != 0 {
      var before := ops[..|ops| - 1];
      var op := ops[|ops| - 1];
      ReportedOfBills(db, j, r, before);
      StepReported(BillRun(db, j, r, before), BillRun(db, j, r, BillsOnly(before)), op, j, r);
      if op.Bill? {
        assert BillsOnly(ops)[..|BillsOnly(ops)| - 1] == BillsOnly(before);
      }
    }
  }

  lemma {:induction false} BillsOnlyIsBills(ops: seq<BillOp>)
    ensures FirstTarget(BillsOnly(ops)).None? && !Behind(BillsOnly(ops))
  {
    if |ops| != 0 {
      BillsOnlyIsBills(ops[..|ops| - 1]);
      if ops[|ops| - 1].Bill? {
        assert BillsOnly(ops)[..|BillsOnly(ops)| - 1] == BillsOnly(ops[..|ops| - 1]);
      }
    }
  }

  /** Order independence: a run with at least one commit or release that has caught up with the
  reported costs leaves every money row as if all costs had been billed before it. */
  lemma OrderIndependence(db: Db, j: JobId, r: ReservationId, ops: seq<BillOp>)
    requires LedgerInv(db) && Finalizable(db, j, r)
    requires FirstTarget(ops).Some? && !Behind(ops)
    ensures SameMoney(BillRun(db, j, r, ops), BillRun(db, j, r, BilledFirst(ops)))
    ensures Settled(BillRun(db, j, r, ops), j, r)
    ensures ReportedTotal(BillRun(db, j, r, ops), j, r) == ReportedTotal(BillRun(db, j, r, BilledFirst(ops)), j, r)
  {
    var bills := BillsOnly(ops);
    var first := BilledFirst(ops);
    RunProgress(db, j, r, ops);
    RunProgress(db, j, r, first);
    ReportedOfBills(db, j, r, ops);
    BillsOnlyIsBills(ops);
    assert first[..|first| - 1] == bills;
    TransactionsKeepReported(BillRun(db, j, r, bills), OpFinalize(j, r, FirstTarget(ops).value), j, r);
  }

  /** How far the run moved each budget and the identity: by exactly the amount due, once per hold. */
  lemma MovedByDue(db: Db, j: JobId, r: ReservationId, ops: seq<BillOp>)
    requires LedgerInv(db) && Finalizable(db, j, r)
    requires FirstTarget(ops).Some? && !Behind(ops)
    ensures r < |BillRun(db, j, r, ops).reservations| && |BillRun(db, j, r, ops).budgets| == |db.budgets|
    ensures forall b :: 0 <= b < |db.budgets| ==>
      BillRun(db, j, r, ops).budgets[b]
      == db.budgets[b].(reserved := db.budgets[b].reserved - HeldBy(db.holds, r, b, |db.holds|),
                        spent := db.budgets[b].spent
                                 + PerOpenHold(db.holds, r, b, BillRun(db, j, r, ops).reservations[r].actual.GetOr(0), |db.holds|))
    ensures forall i: IdentityId ::
      TotalsOf(BillRun(db, j, r, ops).identities, i).actual
      == TotalsOf(db.identities, i).actual
         + if IdentityOf(db.jobs, j) == Some(i) then BillRun(db, j, r, ops).reservations[r].actual.GetOr(0) else 0
  {
    var out := BillRun(db, j, r, ops);
    RunProgress(db, j, r, ops);
    forall b | 0 <= b < |db.budgets|
      ensures out.budgets[b] == db.budgets[b].(reserved := db.budgets[b].reserved - HeldBy(db.holds, r, b, |db.holds|),
                                               spent := db.budgets[b].spent + PerOpenHold(db.holds, r, b, out.reservations[r].actual.GetOr(0), |db.holds|))
    {
      SettledBudget(db, r, out.reservations[r].actual.GetOr(0), b);
    }
  }

  // The one total that does depend on the order ------------------------------------------

  /** Whether the transition itself charged anything: a commit, or a release with a reported cost. */
  predicate ChargedAtFinish(db: Db, j: JobId, r: ReservationId, ops: seq<BillOp>) {
    |ops| != 0 &&
    var before := ops[..|ops| - 1];
    var op := ops[|ops| - 1];
    || ChargedAtFinish(db, j, r, before)
    || (op.Finish? && FirstTarget(before).None? && (op.target == ToCommitted || ReportedTotal(BillRun(db, j, r, before), j, r).Some?))
  }

  /** One operation moves the identity's estimated total only by the first transition that charges. */
  lemma EstimateStep(s: Db, op: BillOp, j: JobId, r: ReservationId, i: IdentityId)
    ensures TotalsOf(Apply(s, AsLedgerOp(op, j, r)).identities, i).estimated
         == TotalsOf(s.identities, i).estimated
            + if op.Finish? && Finalizable(s, j, r) && (op.target == ToCommitted || ReportedTotal(s, j, r).Some?)
                 && IdentityOf(s.jobs, j) == Some(i) then s.reservations[r].estimated else 0
  {}

  lemma StillFinalizable(db: Db, s: Db, j: JobId, r: ReservationId, target: Option<Target>, behind: bool)
    requires Finalizable(db, j, r) && Progress(db, s, j, r, target, behind)
    ensures Finalizable(s, j, r) <==> target.None?
    ensures r < |s.reservations| && s.reservations[r].estimated == db.reservations[r].estimated
    ensures IdentityOf(s.jobs, j) == IdentityOf(db.jobs, j)
  {}

  /** The identity's estimated total moves by the estimate exactly when the transition charged. */
  lemma {:induction false} EstimatedMoves(db: Db, j: JobId, r: ReservationId, ops: seq<BillOp>, i: IdentityId)
    requires LedgerInv(db) && Finalizable(db, j, r)
    ensures TotalsOf(BillRun(db, j, r, ops).identities, i).estimated
         == TotalsOf(db.identities, i).estimated
            + if IdentityOf(db.jobs, j) == Some(i) && ChargedAtFinish(db, j, r, ops) then db.reservations[r].estimated else 0
    ensures ChargedAtFinish(db, j, r, ops) ==> FirstTarget(ops).Some?
  {
    if |ops| != 0 {
      var before := ops[..|ops| - 1];
      var s := BillRun(db, j, r, before);
      EstimatedMoves(db, j, r, before, i);
      RunProgress(db, j, r, before);
      StillFinalizable(db, s, j, r, FirstTarget(before), Behind(before));
      EstimateStep(s, ops[|ops| - 1], j, r, i);
    }
  }

  lemma {:induction false} ChargedImpliesKnown(db: Db, j: JobId, r: ReservationId, ops: seq<BillOp>)
    requires LedgerInv(db) && Finalizable(db, j, r) && FirstTarget(ops).Some?
    ensures FirstTarget(ops) == Some(ToCommitted) ==> ChargedAtFinish(db, j, r, ops)
    ensures FirstTarget(ops) == Some(ToReleased) && ChargedAtFinish(db, j, r, ops) ==> ReportedTotal(BillRun(db, j, r, ops), j, r).Some?
  {
    var before := ops[..|ops| - 1];
    var op := ops[|ops| - 1];
    var s := BillRun(db, j, r, before);
    if FirstTarget(before).Some? {
      ChargedImpliesKnown(db, j, r, before);
    } else if ChargedAtFinish(db, j, r, before) {
      EstimatedMoves(db, j, r, before, 0);
    }
    if op.Bill? && op.cost.Some? {
      SameReported(s.events, Apply(s, AsLedgerOp(op, j, r)).events, j, r, |s.events|);
    } else {
      TransactionsKeepReported(s, AsLedgerOp(op, j, r), j, r);
    }
  }

  predicate BillsReported(op: BillOp) {
    op.Bill? && op.cost.Some?
  }

  /** Some bill carries a reported cost. */
  ghost predicate AnyReported(ops: seq<BillOp>) {
    exists k :: 0 <= k < |ops| && BillsReported(ops[k])
  }

  /** Some such bill comes before every commit and release. */
  ghost predicate ReportedEarly(ops: seq<BillOp>) {
    exists k :: 0 <= k < |ops| && BillsReported(ops[k]) && forall i :: 0 <= i < k ==> !ops[i].Finish?
  }

  lemma AnyStep(before: seq<BillOp>, op: BillOp)
    ensures AnyReported(before + [op]) <==> AnyReported(before) || BillsReported(op)
  {
    var ops := before + [op];
    if k :| 0 <= k < |before| && BillsReported(before[k]) {
      assert BillsReported(ops[k]);
    }
    assert ops[|before|] == op;
    assert forall k :: 0 <= k < |before| ==> ops[k] == before[k];
  }

  lemma EarlyStep(before: seq<BillOp>, op: BillOp, finished: bool)
    requires finished <==> exists i :: 0 <= i < |before| && before[i].Finish?
    ensures ReportedEarly(before + [op]) <==> ReportedEarly(before) || (!finished && BillsReported(op))
  {
    var ops := before + [op];
    assert ops[|before|] == op;
    assert forall k :: 0 <= k < |before| ==> ops[k] == before[k];
    if k :| 0 <= k < |before| && BillsReported(before[k]) && forall i :: 0 <= i < k ==> !before[i].Finish? {
      assert BillsReported(ops[k]);
    }
  }

  lemma {:induction false} FirstTargetMeans(ops: seq<BillOp>)
    ensures FirstTarget(ops).Some? <==> exists i :: 0 <= i < |ops| && ops[i].Finish?
  {
    if |ops| != 0 {
      FirstTargetMeans(ops[..|ops| - 1]);
      assert ops == ops[..|ops| - 1] + [ops[|ops| - 1]];
    }
  }

  /** What is reported in the end is what was in the ledger or billed; before the transition, what was billed early. */
  lemma {:induction false} ReportedAfter(db: Db, j: JobId, r: ReservationId, ops: seq<BillOp>)
    ensures ReportedTotal(BillRun(db, j, r, ops), j, r).Some? <==> ReportedTotal(db, j, r).Some? || AnyReported(ops)
    ensures FirstTarget(ops).None? ==> (AnyReported(ops) <==> ReportedEarly(ops))
  {
    if |ops| != 0 {
      var before, op := ops[..|ops| - 1], ops[|ops| - 1];
      var s := BillRun(db, j, r, before);
      ReportedAfter(db, j, r, before);
      assert ops == before + [op];
      FirstTargetMeans(before);
      AnyStep(before, op);
      EarlyStep(before, op, FirstTarget(before).Some?);
      if op.Bill? && op.cost.Some? {
        SameReported(s.events, Apply(s, AsLedgerOp(op, j, r)).events, j, r, |s.events|);
      } else {
        TransactionsKeepReported(s, AsLedgerOp(op, j, r), j, r);
      }
    }
  }

  /** The transition charges exactly when it commits, or a cost was reported by then. */
  lemma {:induction false} ChargedMeans(db: Db, j: JobId, r: ReservationId, ops: seq<BillOp>)
    requires FirstTarget(ops).Some?
    ensures ChargedAtFinish(db, j, r, ops) <==>
            FirstTarget(ops) == Some(ToCommitted) || ReportedTotal(db, j, r).Some? || ReportedEarly(ops)
  {
    var before, op := ops[..|ops| - 1], ops[|ops| - 1];
    assert ops == before + [op];
    FirstTargetMeans(before);
    EarlyStep(before, op, FirstTarget(before).Some?);
    if FirstTarget(before).Some? {
      ChargedMeans(db, j, r, before);
    } else {
      ReportedAfter(db, j, r, before);
      NotYetCharged(db, j, r, before);
    }
  }

  lemma {:induction false} NotYetCharged(db: Db, j: JobId, r: ReservationId, ops: seq<BillOp>)
    requires FirstTarget(ops).None?
    ensures !ChargedAtFinish(db, j, r, ops)
  {
    if |ops| != 0 {
      NotYetCharged(db, j, r, ops[..|ops| - 1]);
    }
  }

  /**
   * Unlike the actual total, the identity's estimated total depends on the order: it is that of
   * the run billed first exactly when the first transition commits, or a reported cost was there
   * before it, or none ever comes. A release that is billed late loses its estimate.
   */
  lemma EstimateOrderDependence(db: Db, j: JobId, r: ReservationId, ops: seq<BillOp>, i: IdentityId)
    requires LedgerInv(db) && Finalizable(db, j, r) && FirstTarget(ops).Some?
    requires IdentityOf(db.jobs, j) == Some(i) && db.reservations[r].estimated > 0
    ensures TotalsOf(BillRun(db, j, r, ops).identities, i).estimated
         == TotalsOf(BillRun(db, j, r, BilledFirst(ops)).identities, i).estimated
       <==> FirstTarget(ops) == Some(ToCommitted) || ReportedTotal(db, j, r).Some? || ReportedEarly(ops) || !AnyReported(ops)
  {
    var bills, first := BillsOnly(ops), BilledFirst(ops);
    BillsOnlyIsBills(ops);
    assert first[..|first| - 1] == bills;
    EstimatedMoves(db, j, r, ops, i);
    EstimatedMoves(db, j, r, first, i);
    EstimatedMoves(db, j, r, bills, i);
    ReportedOfBills(db, j, r, ops);
    ReportedAfter(db, j, r, ops);
    ChargedMeans(db, j, r, ops);
  }

  /** A ledger with one job of one identity, its reservation still open. */
  function OpenLedger(estimated: nat): Db {
    Db([Job(SingleImage, false, Some(0), Scope(0, 0, 0, 0), Running, Some(0), [], [], false, None)], [], [], [],
       [Reservation(0, estimated, estimated, None, Reserved)], [], map[])
  }

  lemma OpenLedgerBilled(estimated: nat, cost: nat)
    ensures LedgerInv(OpenLedger(estimated)) && Finalizable(OpenLedger(estimated), 0, 0)
    ensures ReportedTotal(OpenLedger(estimated), 0, 0).None?
    ensures ReportedTotal(BillRun(OpenLedger(estimated), 0, 0, [Bill(Some(cost))]), 0, 0) == Some(cost)
  {
    var db := OpenLedger(estimated);
    var e := AsLedgerOp(Bill(Some(cost)), 0, 0).event;
    assert [Bill(Some(cost))][..0] == [];
    assert BillRun(db, 0, 0, [Bill(Some(cost))]).events == [e];
    assert ReportedActual([e], 0, 0, 0) == None;
  }

  lemma ReleaseThenBill(ops: seq<BillOp>, cost: nat)
    requires ops == [Finish(ToReleased), Bill(Some(cost)), Catchup]
    ensures FirstTarget(ops) == Some(ToReleased) && !Behind(ops) && BillsOnly(ops) == [Bill(Some(cost))]
    ensures BilledFirst(ops) == [Bill(Some(cost)), Finish(ToReleased)]
    ensures AnyReported(ops) && !ReportedEarly(ops) && ReportedEarly(BilledFirst(ops))
  {
    var one, two := [ops[0]], [ops[0], ops[1]];
    assert one[..|one| - 1] == [] && two[..|two| - 1] == one && ops[..|ops| - 1] == two;
    assert two[|two| - 1] == Bill(Some(cost)) && !two[|two| - 1].Finish?;
    assert FirstTarget([]) == None && BillsOnly([]) == [];
    assert FirstTarget(one) == Some(ToReleased) && BillsOnly(one) == [];
    assert FirstTarget(two) == FirstTarget(one);
    assert BillsOnly(two) == BillsOnly(one) + [two[|two| - 1]];
    assert BillsReported(ops[1]) && BillsReported(BilledFirst(ops)[0]);
  }

  /** The run that shows it: release, then a reported bill, then a reconcile. */
  lemma ReleasedThenBilled(estimated: nat, cost: nat, ops: seq<BillOp>)
    requires estimated > 0 && ops == [Finish(ToReleased), Bill(Some(cost)), Catchup]
    ensures LedgerInv(OpenLedger(estimated)) && FirstTarget(ops).Some? && !Behind(ops)
    ensures TotalsOf(BillRun(OpenLedger(estimated), 0, 0, ops).identities, 0) == Totals(0, cost)
    ensures TotalsOf(BillRun(OpenLedger(estimated), 0, 0, BilledFirst(ops)).identities, 0) == Totals(estimated, cost)
  {
    var db := OpenLedger(estimated);
    var out := BillRun(db, 0, 0, ops);
    OpenLedgerBilled(estimated, cost);
    ReleaseThenBill(ops, cost);
    OrderIndependence(db, 0, 0, ops);
    ReportedOfBills(db, 0, 0, ops);
    MovedByDue(db, 0, 0, ops);
    EstimatedMoves(db, 0, 0, ops, 0);
    EstimatedMoves(db, 0, 0, BilledFirst(ops), 0);
    ChargedMeans(db, 0, 0, ops);
    FirstTargetMeans(BilledFirst(ops));
    assert BilledFirst(ops)[1].Finish?;
    ChargedMeans(db, 0, 0, BilledFirst(ops));
  }
}
