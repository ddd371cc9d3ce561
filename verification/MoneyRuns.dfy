/** The laws of the ledger over whole runs of the system. Each action of anyone moves budgets, holds,
reservations and events as a few cost transactions would, so what holds of every run of those holds
of every interleaving.
*/
module MoneyRuns {
  import opened Rows
  import opened CostLedger
  import opened JobTransactions
  import opened Workers
  import opened BudgetRules
  import LI = LedgerInvariants
  import LC = Lifecycle

  // An action as cost transactions ---------------------------------------------------------

  ghost predicate SameLedger(a: Db, b: Db) {
    a.budgets == b.budgets && a.holds == b.holds && a.reservations == b.reservations && a.events == b.events
  }

  function WorkerOps(db: Db, w: Worker, c: Choice): seq<LedgerOp> {
    if c == Crash then []
    else if w.pc.CommitHold? then [OpFinalize(w.job, w.task, ToCommitted)]
    else if w.pc.ReleaseHold? then [OpFinalize(w.job, w.task, ToReleased)]
    else if w.pc.ReconcileDiscarded? then (if c == WriteFailed then [] else [OpReconcile(w.job, w.task)])
    else
      var out := StepWorker(db, w, c).0;
      if |db.events| < |out.events| then [OpEvent(out.events[|db.events|])] else []
  }

  /** The release of whatever reservation the job points at. */
  function ReleaseOps(db: Db, j: JobId): seq<LedgerOp> {
    if j < |db.jobs| && db.jobs[j].reservation.Some? then [OpFinalize(j, db.jobs[j].reservation.value, ToReleased)] else []
  }

  function OpsOf(s: Sys, a: Action): seq<LedgerOp> {
    match a
    case Deliver(_, _, _, _) => []
    case WorkerStep(i, c) => if i < |s.workers| then WorkerOps(s.db, s.workers[i], c) else []
    case CreateJob(q, estimate, clock) => [OpReserve(|s.db.jobs|, q.scope, estimate, clock)]
    case CacheHit(_, _) => []
    case PackReuse(_, _) => []
    case EnqueueFailed(j, r) => if FailGuard(s.db, j, r) then [OpFinalize(j, r, ToReleased)] else []
    case CancelJob(j) => if CancelOutcome(s.db, j) == Done then ReleaseOps(s.db, j) else []
    case RetryJob(j, estimate, clock) =>
      if RetryOutcome(s.db, j, estimate, clock) == Done then
        ReleaseOps(s.db, j) + [OpReserve(j, s.db.jobs[j].scope, estimate, clock)]
      else []
    case EditBudget(b, limit, status) => [OpEdit(b, limit, status)]
  }

  /** The tables they run on: a create reserves for a job row it has just inserted. */
  function BaseOf(s: Sys, a: Action): Db {
    if a.CreateJob? then s.db.(jobs := s.db.jobs + [QueuedJob(a.request)]) else s.db
  }

  lemma RunOne(db: Db, op: LedgerOp)
    ensures Run(db, [op]) == Apply(db, op)
  {
    assert [op][..0] == [];
    assert Run(db, [op][..|[op]| - 1]) == db;
  }

  lemma RunAppend(db: Db, ops: seq<LedgerOp>, op: LedgerOp)
    ensures Run(db, ops + [op]) == Apply(Run(db, ops), op)
  {
    assert (ops + [op])[..|ops|] == ops;
  }

  /** Job rows are no part of what a finalization does to the ledger. */
  lemma FinalizeSame(a: Db, b: Db, j: JobId, r: ReservationId, t: Target)
    requires SameLedger(a, b)
    ensures SameLedger(Finalize(a, j, r, t), Finalize(b, j, r, t))
  {}

  lemma WorkerStepIsOps(db: Db, w: Worker, c: Choice)
    ensures SameLedger(StepWorker(db, w, c).0, Run(db, WorkerOps(db, w, c)))
  {
    var ops := WorkerOps(db, w, c);
    if ops != [] {
      assert ops == [ops[0]];
      RunOne(db, ops[0]);
    }
    if c != Crash && !w.pc.CommitHold? && !w.pc.ReleaseHold? && !w.pc.ReconcileDiscarded? {
      OtherStepsInsertOne(db, w, c);
    }
  }

  lemma OtherStepsInsertOne(db: Db, w: Worker, c: Choice)
    requires !w.pc.CommitHold? && !w.pc.ReleaseHold? && !w.pc.ReconcileDiscarded?
    ensures var out := StepWorker(db, w, c).0;
      && out.budgets == db.budgets && out.holds == db.holds && out.reservations == db.reservations
      && (out.events == db.events || (|out.events| == |db.events| + 1 && out.events == db.events + [out.events[|db.events|]]))
  {}

  lemma ReleaseIsOps(db: Db, marked: Db, j: JobId)
    requires SameLedger(db, marked) && |marked.jobs| == |db.jobs|
    requires j < |db.jobs| && marked.jobs[j].reservation == db.jobs[j].reservation
    ensures SameLedger(FinalizeForJob(marked, j, ToReleased), Run(db, ReleaseOps(db, j)))
  {
    if db.jobs[j].reservation.Some? {
      RunOne(db, OpFinalize(j, db.jobs[j].reservation.value, ToReleased));
      FinalizeSame(marked, db, j, db.jobs[j].reservation.value, ToReleased);
    }
  }

  lemma RetryIsOps(s: Sys, j: JobId, estimate: Option<nat>, clock: Clock)
    requires RetryOutcome(s.db, j, estimate, clock) == Done
    ensures SameLedger(Retry(s.db, j, estimate, clock), Run(s.db, OpsOf(s, RetryJob(j, estimate, clock))))
  {
    var db := s.db;
    RunAppend(db, ReleaseOps(db, j), OpReserve(j, db.jobs[j].scope, estimate, clock));
    if db.jobs[j].reservation.Some? {
      RunOne(db, OpFinalize(j, db.jobs[j].reservation.value, ToReleased));
    }
    assert Run(db, ReleaseOps(db, j)) == FinalizeForJob(db, j, ToReleased);
    FinalizeKeepsJobFacts(db, j);
  }

  /** Every action of anyone does to the ledger what the transactions listed for it do. */
  lemma StepIsOps(s: Sys, a: Action)
    ensures SameLedger(Step(s, a).db, Run(BaseOf(s, a), OpsOf(s, a)))
  {
    match a {
      case Deliver(_, _, _, _) =>
      case WorkerStep(i, c) =>
        if i < |s.workers| {
          WorkerStepIsOps(s.db, s.workers[i], c);
        }
      case CreateJob(q, estimate, clock) => RunOne(BaseOf(s, a), OpReserve(|s.db.jobs|, q.scope, estimate, clock));
      case CacheHit(_, _) =>
      case PackReuse(_, _) =>
      case EnqueueFailed(j, r) =>
        if FailGuard(s.db, j, r) {
          ReleaseIsOps(s.db, MarkFailed(s.db, j, r), j);
        }
      case CancelJob(j) =>
        if CancelOutcome(s.db, j) == Done {
          ReleaseIsOps(s.db, s.db.(jobs := s.db.jobs[j := s.db.jobs[j].(status := Cancelled)]), j);
        }
      case RetryJob(j, estimate, clock) =>
        if RetryOutcome(s.db, j, estimate, clock) == Done {
          RetryIsOps(s, j, estimate, clock);
        }
      case EditBudget(b, limit, status) => RunOne(s.db, OpEdit(b, limit, status));
    }
  }

  // Whole runs ------------------------------------------------------------------------------

  /** No action of the run rolls budget b over to a new period. */
  predicate NeverReset(s: Sys, actions: seq<Action>, b: BudgetId) {
    |actions| == 0 ||
    (NeverReset(s, actions[..|actions| - 1], b)
     && !LI.PeriodMoved(Exec(s, actions[..|actions| - 1]).db, Exec(s, actions).db, b))
  }

  /** How much the run pushes b beyond what was held. */
  function TotalOverrun(s: Sys, actions: seq<Action>, b: BudgetId): int {
    if |actions| == 0 then 0
    else
      var before, a := Exec(s, actions[..|actions| - 1]), actions[|actions| - 1];
      TotalOverrun(s, actions[..|actions| - 1], b) + RunOverrun(BaseOf(before, a), OpsOf(before, a), b)
  }

  ghost predicate NeverEdited(actions: seq<Action>, b: BudgetId) {
    forall k :: 0 <= k < |actions| ==> !(actions[k].EditBudget? && actions[k].budget == b)
  }

  lemma BaseInv(s: Sys, a: Action)
    requires LI.LedgerInv(s.db)
    ensures LI.LedgerInv(BaseOf(s, a)) && SameLedger(BaseOf(s, a), s.db)
  {
    LC.LedgerUntouched(s.db, BaseOf(s, a));
  }

  lemma NoMoveNoReset(db: Db, ops: seq<LedgerOp>, op: LedgerOp, b: BudgetId)
    requires NoReset(db, ops, b) && !LI.PeriodMoved(Run(db, ops), Run(db, ops + [op]), b)
    ensures NoReset(db, ops + [op], b)
  {
    assert (ops + [op])[..|ops|] == ops;
  }

  lemma {:induction false} SettleKeepsPeriod(budgets: seq<Budget>, holds: seq<Hold>, r: ReservationId, charge: nat, n: nat, b: BudgetId)
    requires n <= |holds| && b < |budgets|
    ensures SettleHolds(budgets, holds, r, charge, n)[b].periodStart == budgets[b].periodStart
  {
    if n != 0 {
      SettleKeepsPeriod(budgets, holds, r, charge, n - 1, b);
    }
  }

  lemma FinalizeKeepsPeriod(db: Db, j: JobId, r: ReservationId, t: Target, b: BudgetId)
    ensures !LI.PeriodMoved(db, Finalize(db, j, r, t), b)
  {
    if Finalizable(db, j, r) && b < |db.budgets| {
      SettleKeepsPeriod(db.budgets, db.holds, r, FinalActual(db, j, r, t).GetOr(0), |db.holds|, b);
    }
  }

  lemma OneNoReset(db: Db, op: LedgerOp, b: BudgetId)
    requires !LI.PeriodMoved(db, Run(db, [op]), b)
    ensures NoReset(db, [op], b)
  {
    assert [op] == [] + [op];
    NoMoveNoReset(db, [], op, b);
  }

  lemma TwoNoReset(db: Db, j: JobId, r: ReservationId, op: LedgerOp, b: BudgetId)
    requires !LI.PeriodMoved(db, Run(db, [OpFinalize(j, r, ToReleased), op]), b)
    ensures NoReset(db, [OpFinalize(j, r, ToReleased), op], b)
  {
    var first := OpFinalize(j, r, ToReleased);
    RunOne(db, first);
    FinalizeKeepsPeriod(db, j, r, ToReleased, b);
    OneNoReset(db, first, b);
    assert [first, op] == [first] + [op];
    FinalizeKeepsBudgets(db, j, r, ToReleased);
    NoMoveNoReset(db, [first], op, b);
  }

  lemma FinalizeKeepsBudgets(db: Db, j: JobId, r: ReservationId, t: Target)
    ensures |Finalize(db, j, r, t).budgets| == |db.budgets|
  {}

  /** An action that moves no period is a run of transactions that reset nothing. */
  lemma StepNoReset(s: Sys, a: Action, b: BudgetId)
    requires !LI.PeriodMoved(s.db, Step(s, a).db, b)
    ensures NoReset(BaseOf(s, a), OpsOf(s, a), b)
  {
    StepIsOps(s, a);
    OpsNoReset(BaseOf(s, a), OpsOf(s, a), b);
  }

  lemma OpsNoReset(db: Db, ops: seq<LedgerOp>, b: BudgetId)
    requires !LI.PeriodMoved(db, Run(db, ops), b)
    requires |ops| > 1 ==> |ops| == 2 && ops[0].OpFinalize? && ops[0].target == ToReleased
    ensures NoReset(db, ops, b)
  {
    if |ops| == 1 {
      assert ops == [ops[0]];
      OneNoReset(db, ops[0], b);
    } else if |ops| > 1 {
      assert ops == [OpFinalize(ops[0].j, ops[0].r, ToReleased), ops[1]];
      TwoNoReset(db, ops[0].j, ops[0].r, ops[1], b);
    }
  }

  lemma StepKeepsOpening(s: Sys, a: Action, b: BudgetId)
    requires LI.LedgerInv(s.db) && b < |s.db.budgets| && LI.SpentOpening(s.db, b) >= 0
    requires !LI.PeriodMoved(s.db, Step(s, a).db, b)
    ensures b < |Step(s, a).db.budgets| && LI.SpentOpening(Step(s, a).db, b) == LI.SpentOpening(s.db, b)
  {
    BaseInv(s, a);
    StepNoReset(s, a, b);
    StepIsOps(s, a);
    BudgetConservation(BaseOf(s, a), OpsOf(s, a));
  }

  lemma {:induction false} OpeningKept(s: Sys, actions: seq<Action>, b: BudgetId)
    requires LC.SysInv(s) && b < |s.db.budgets| && LI.SpentOpening(s.db, b) >= 0 && NeverReset(s, actions, b)
    ensures LC.SysInv(Exec(s, actions)) && b < |Exec(s, actions).db.budgets|
    ensures LI.SpentOpening(Exec(s, actions).db, b) == LI.SpentOpening(s.db, b)
  {
    LC.EveryRun(s, actions);
    if |actions| != 0 {
      OpeningKept(s, actions[..|actions| - 1], b);
      StepKeepsOpening(Exec(s, actions[..|actions| - 1]), actions[|actions| - 1], b);
    }
  }

  // Main results ------------------------------------------------------------------------------

  /**
   * Conservation over every interleaving: until a period reset, a budget has spent what it had
   * spent at first plus what its finalized holds were charged, late corrections included.
   */
  lemma SpentIsExplained(s: Sys, actions: seq<Action>, b: BudgetId)
    requires Initial(s) && b < |s.db.budgets| && NeverReset(s, actions, b)
    ensures var db := Exec(s, actions).db;
      && b < |db.budgets|
      && db.budgets[b].spent == s.db.budgets[b].spent + LI.SumCharged(db.holds, db.reservations, b, |db.holds|)
  {
    LC.EveryRun(s, []);
    assert LI.SpentOpening(s.db, b) == s.db.budgets[b].spent;
    OpeningKept(s, actions, b);
  }

  /** Until a reset no reconcile, of any reservation and at any point, is cut off at zero. */
  lemma ClampsNeedAReset(s: Sys, actions: seq<Action>, j: JobId, r: ReservationId, b: BudgetId)
    requires Initial(s) && b < |s.db.budgets| && NeverReset(s, actions, b)
    requires var db := Exec(s, actions).db; Reconcilable(db, j, r) && ReportedTotal(db, j, r).Some?
    ensures var db := Exec(s, actions).db; !AdjustClamps(db, r, LateDelta(db, j, r), b)
  {
    LC.EveryRun(s, []);
    assert LI.SpentOpening(s.db, b) == s.db.budgets[b].spent;
    OpeningKept(s, actions, b);
    UnmovedNeverClamps(Exec(s, actions).db, j, r, b);
  }

  /**
   * The overrun bound over every interleaving: a budget that enforces a limit nobody edits never has
   * more reserved and spent than the limit and what the actuals exceeded their holds by.
   */
  lemma {:induction false} LimitHolds(s: Sys, actions: seq<Action>, b: BudgetId, limit: int)
    requires LC.SysInv(s) && WithinLimit(s.db, b, limit, 0) && NeverEdited(actions, b)
    ensures TotalOverrun(s, actions, b) >= 0
    ensures WithinLimit(Exec(s, actions).db, b, limit, TotalOverrun(s, actions, b))
  {
    if |actions| != 0 {
      var init, a := actions[..|actions| - 1], actions[|actions| - 1];
      var before := Exec(s, init);
      LimitHolds(s, init, b, limit);
      LC.EveryRun(s, init);
      BaseInv(before, a);
      NotEditedBy(before, a, b);
      RunStaysWithin(BaseOf(before, a), OpsOf(before, a), b, limit, TotalOverrun(s, init, b));
      StepIsOps(before, a);
    }
  }

  lemma NotEditedBy(s: Sys, a: Action, b: BudgetId)
    requires !(a.EditBudget? && a.budget == b)
    ensures NotEdited(OpsOf(s, a), b)
  {}
}
