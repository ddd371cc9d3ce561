/**
 * The provider walk of one generation: the primary route, then its same-price fallbacks, under
 * a cap on the provider calls a job may ever bill. The attempt rows are the counter; a route
 * is called right after its row is inserted. What a provider answers is an input.
 */
module RouteWalk {
  import opened Rows

  datatype Error = ProviderError(code: nat) | ContentRejected | CapReached | Unavailable

  datatype Reply = Success | Failure(code: nat) | Rejection

  datatype Outcome = Won(route: nat) | Lost(error: Error)

  const MAX_BILLABLE_CALLS_PER_UNIT := 3

  /** Three calls per unit the reservation priced; the payload's own shape is the floor. */
  function BillableCallCap(units: int, packRoles: nat, previewFirst: bool): nat {
    var shaped := Max(units, packRoles);
    var phased := if previewFirst && shaped < 2 then 2 else shaped;
    Max(phased, 1) * MAX_BILLABLE_CALLS_PER_UNIT
  }

  lemma CapCoversThePlan(units: int, packRoles: nat, previewFirst: bool)
    ensures var cap := BillableCallCap(units, packRoles, previewFirst);
            && cap >= 3 && cap >= 3 * units && cap >= 3 * packRoles && (previewFirst ==> cap >= 6)
            && (cap == 3 || cap == 3 * units || cap == 3 * packRoles || (previewFirst && cap == 6))
  {}

  // One walk --------------------------------------------------------------------------

  /** `calls` are the positions of the routes called so far; `done` ends the loop early. */
  datatype Walk = Walk(attempts: nat, calls: seq<nat>, last: Option<Error>, anyAdapter: bool, done: Option<Outcome>)

  function Visit(w: Walk, cap: nat, k: nat, registered: bool, reply: Reply): Walk {
    if w.done.Some? || !registered then w
    else if w.attempts >= cap then
      w.(anyAdapter := true, done := Some(Lost(w.last.GetOr(CapReached))))
    else
      var called := w.(attempts := w.attempts + 1, calls := w.calls + [k], anyAdapter := true);
      match reply
      case Success => called.(done := Some(Won(k)))
      case Rejection => called.(done := Some(Lost(ContentRejected)))
      case Failure(code) => called.(last := Some(ProviderError(code)))
  }

  function WalkTo(attempts: nat, cap: nat, registered: seq<bool>, replies: seq<Reply>, k: nat): Walk
    requires k <= |registered| == |replies|
  {
    if k == 0 then Walk(attempts, [], None, false, None)
    else Visit(WalkTo(attempts, cap, registered, replies, k - 1), cap, k - 1, registered[k - 1], replies[k - 1])
  }

  function OutcomeOf(w: Walk): Outcome {
    match w.done
    case Some(o) => o
    case None => if !w.anyAdapter then Lost(Unavailable) else Lost(w.last.GetOr(Unavailable))
  }

  function Generate(attempts: nat, cap: nat, registered: seq<bool>, replies: seq<Reply>): (nat, seq<nat>, Outcome)
    requires |registered| == |replies|
  {
    var w := WalkTo(attempts, cap, registered, replies, |registered|);
    (w.attempts, w.calls, OutcomeOf(w))
  }

  ghost predicate AnyRegistered(registered: seq<bool>, k: nat)
    requires k <= |registered|
  {
    exists r: nat :: r < k && registered[r]
  }

  /** The calls of a walk that has looked at the first k routes: registered ones, in order, within the cap. */
  ghost predicate Listed(w: Walk, attempts: nat, cap: nat, registered: seq<bool>, k: nat)
    requires k <= |registered|
  {
    && w.attempts == attempts + |w.calls|
    && (w.calls != [] ==> w.attempts <= cap)
    && (forall i :: 0 <= i < |w.calls| ==> w.calls[i] < k && registered[w.calls[i]])
    && (forall i, j :: 0 <= i < j < |w.calls| ==> w.calls[i] < w.calls[j])
    && (w.anyAdapter <==> AnyRegistered(registered, k))
    && (w.done.Some? ==> w.anyAdapter)
  }

  /** What was answered: only the last call can have been anything but a failure. */
  ghost predicate Answered(w: Walk, cap: nat, registered: seq<bool>, replies: seq<Reply>, k: nat)
    requires k <= |registered| == |replies|
  {
    && (forall i :: 0 <= i < |w.calls| ==> w.calls[i] < |replies|)
    && (forall i :: 0 <= i < |w.calls| - 1 ==> replies[w.calls[i]].Failure?)
    && (w.last.Some? ==> w.last.value.ProviderError?)
    && (w.done.None? ==>
          && (forall r: nat :: r < k && registered[r] ==> r in w.calls)
          && (if w.calls == [] then w.last.None?
              else w.last.Some? && replies[w.calls[|w.calls| - 1]] == Failure(w.last.value.code)))
    && (w.done.Some? ==> Closed(w, cap, replies))
  }

  /** Why a walk ended before its last route. */
  ghost predicate Closed(w: Walk, cap: nat, replies: seq<Reply>) {
    w.anyAdapter && w.done.Some? &&
    match w.done.value
    case Won(r) => w.calls != [] && w.calls[|w.calls| - 1] == r && r < |replies| && replies[r] == Success
    case Lost(ContentRejected) => w.calls != [] && w.calls[|w.calls| - 1] < |replies| && replies[w.calls[|w.calls| - 1]] == Rejection
    case Lost(CapReached) => w.calls == [] && w.attempts >= cap
    case Lost(ProviderError(c)) =>
      w.calls != [] && w.attempts == cap && w.calls[|w.calls| - 1] < |replies| && replies[w.calls[|w.calls| - 1]] == Failure(c)
    case Lost(Unavailable) => false
  }

  lemma VisitListed(w: Walk, v: Walk, attempts: nat, cap: nat, registered: seq<bool>, k: nat, reply: Reply)
    requires k < |registered| && Listed(w, attempts, cap, registered, k) && v == Visit(w, cap, k, registered[k], reply)
    ensures Listed(v, attempts, cap, registered, k + 1)
  {
    assert AnyRegistered(registered, k + 1) <==> AnyRegistered(registered, k) || registered[k];
  }

  lemma VisitAnswered(w: Walk, v: Walk, attempts: nat, cap: nat, registered: seq<bool>, replies: seq<Reply>, k: nat)
    requires k < |registered| == |replies| && Listed(w, attempts, cap, registered, k)
    requires Answered(w, cap, registered, replies, k) && v == Visit(w, cap, k, registered[k], replies[k])
    ensures Answered(v, cap, registered, replies, k + 1)
  {
    if w.done.Some? {
    } else if !registered[k] {
    } else if w.attempts >= cap {
    } else {
      CallAnswered(w, v, cap, registered, replies, k);
    }
  }

  lemma CallAnswered(w: Walk, v: Walk, cap: nat, registered: seq<bool>, replies: seq<Reply>, k: nat)
    requires k < |registered| == |replies| && w.done.None? && registered[k] && w.attempts < cap
    requires Answered(w, cap, registered, replies, k) && v == Visit(w, cap, k, registered[k], replies[k])
    ensures Answered(v, cap, registered, replies, k + 1)
  {
    assert v.calls == w.calls + [k] && v.anyAdapter;
    assert w.calls != [] ==> replies[w.calls[|w.calls| - 1]].Failure?;
    forall i | 0 <= i < |v.calls| - 1 ensures replies[v.calls[i]].Failure? {
      assert v.calls[i] == w.calls[i];
    }
    if v.done.None? {
      forall r: nat | r < k + 1 && registered[r] ensures r in v.calls {
        assert v.calls[|w.calls|] == k;
        if r < k {
          assert r in w.calls;
        }
      }
    }
  }

  lemma {:induction false} WalksOrderly(attempts: nat, cap: nat, registered: seq<bool>, replies: seq<Reply>, k: nat)
    returns (w: Walk)
    requires k <= |registered| == |replies|
    ensures w == WalkTo(attempts, cap, registered, replies, k)
    ensures Listed(w, attempts, cap, registered, k) && Answered(w, cap, registered, replies, k)
  {
    if k == 0 {
      w := Walk(attempts, [], None, false, None);
    } else {
      var before := WalksOrderly(attempts, cap, registered, replies, k - 1);
      w := Visit(before, cap, k - 1, registered[k - 1], replies[k - 1]);
      VisitListed(before, w, attempts, cap, registered, k - 1, replies[k - 1]);
      VisitAnswered(before, w, attempts, cap, registered, replies, k - 1);
    }
  }

  // Main results ----------------------------------------------------------------------

  /**
   * A walk calls registered routes in order, each at most once, goes on only after plain
   * failures, and ends: won by its last call; with a rejection that nothing follows; at the
   * cap; with no adapter at all; or with the last failure, every registered route tried.
   */
  lemma WalkOutcome(attempts: nat, cap: nat, registered: seq<bool>, replies: seq<Reply>)
    requires |registered| == |replies|
    ensures
      var (billed, calls, out) := Generate(attempts, cap, registered, replies);
      && billed == attempts + |calls|
      && (calls != [] ==> billed <= cap)
      && (forall i :: 0 <= i < |calls| ==> calls[i] < |registered| && registered[calls[i]])
      && (forall i, j :: 0 <= i < j < |calls| ==> calls[i] < calls[j])
      && (forall i :: 0 <= i < |calls| - 1 ==> replies[calls[i]].Failure?)
      && (out == Lost(Unavailable) <==> !AnyRegistered(registered, |registered|))
      && (out == Lost(CapReached) <==> AnyRegistered(registered, |registered|) && attempts >= cap)
      && match out
         case Won(r) => calls != [] && calls[|calls| - 1] == r && replies[r] == Success
         case Lost(ContentRejected) => calls != [] && replies[calls[|calls| - 1]] == Rejection
         case Lost(ProviderError(c)) =>
           && calls != [] && replies[calls[|calls| - 1]] == Failure(c)
           && (billed == cap || forall r: nat :: r < |registered| && registered[r] ==> r in calls)
         case _ => calls == []
  {
    var w := WalksOrderly(attempts, cap, registered, replies, |registered|);
    if w.done.None? && w.anyAdapter {
      var r: nat :| r < |registered| && registered[r];
      assert r in w.calls;
    }
    if w.calls == [] && w.anyAdapter {
      CapStopsFirst(attempts, cap, registered, replies, |registered|);
    }
  }

  /** With the cap already used up no call is made. */
  lemma {:induction false} CapStopsFirst(attempts: nat, cap: nat, registered: seq<bool>, replies: seq<Reply>, k: nat)
    requires k <= |registered| == |replies|
    ensures attempts >= cap ==> WalkTo(attempts, cap, registered, replies, k).calls == []
  {
    if k > 0 {
      CapStopsFirst(attempts, cap, registered, replies, k - 1);
    }
    var w := WalksOrderly(attempts, cap, registered, replies, k);
  }

  // The cap over a job's life ---------------------------------------------------------

  datatype Visitor = Idle | Cleared

  /** A worker reads the count and is cleared to call, calls, or gives up; any may interleave. */
  datatype Move = Check(worker: nat) | Call(worker: nat) | Leave(worker: nat)

  datatype Shared = Shared(attempts: nat, workers: seq<Visitor>)

  function Act(s: Shared, cap: nat, m: Move): Shared {
    if m.worker >= |s.workers| then s
    else
      match m
      case Check(i) => if s.attempts < cap then s.(workers := s.workers[i := Cleared]) else s
      case Call(i) =>
        if s.workers[i] == Cleared then Shared(s.attempts + 1, s.workers[i := Idle]) else s
      case Leave(i) => s.(workers := s.workers[i := Idle])
  }

  function Acts(s: Shared, cap: nat, moves: seq<Move>): Shared {
    if moves == [] then s else Act(Acts(s, cap, moves[..|moves| - 1]), cap, moves[|moves| - 1])
  }

  function ClearedCount(workers: seq<Visitor>): nat {
    if workers == [] then 0
    else ClearedCount(workers[..|workers| - 1]) + if workers[|workers| - 1] == Cleared then 1 else 0
  }

  lemma {:induction false} ClearedUpdate(workers: seq<Visitor>, i: nat, v: Visitor)
    requires i < |workers|
    ensures ClearedCount(workers[i := v])
         == ClearedCount(workers) - (if workers[i] == Cleared then 1 else 0) + (if v == Cleared then 1 else 0)
    ensures ClearedCount(workers) <= |workers|
  {
    var n := |workers| - 1;
    if i < n {
      ClearedUpdate(workers[..n], i, v);
      assert workers[i := v][..n] == workers[..n][i := v];
    } else {
      assert workers[i := v][..n] == workers[..n];
      ClearedAtMost(workers[..n]);
    }
  }

  lemma {:induction false} ClearedAtMost(workers: seq<Visitor>)
    ensures ClearedCount(workers) <= |workers|
  {
    if workers != [] {
      ClearedAtMost(workers[..|workers| - 1]);
    }
  }

  /** Calls made plus calls cleared stay below the cap plus the workers that can race for it. */
  lemma {:induction false} CapUnderRaces(s: Shared, cap: nat, moves: seq<Move>)
    requires s.attempts <= cap && ClearedCount(s.workers) == 0
    ensures var t := Acts(s, cap, moves);
            && |t.workers| == |s.workers|
            && t.attempts <= Max(cap, cap + |s.workers| - 1)
            && (ClearedCount(t.workers) > 0 ==> t.attempts + ClearedCount(t.workers) <= cap + |s.workers| - 1)
  {
    if moves != [] {
      var init, m := moves[..|moves| - 1], moves[|moves| - 1];
      CapUnderRaces(s, cap, init);
      var t := Acts(s, cap, init);
      ClearedAtMost(t.workers);
      if m.worker < |t.workers| {
        ClearedUpdate(t.workers, m.worker, Cleared);
        ClearedUpdate(t.workers, m.worker, Idle);
        ClearedAtMost(t.workers[m.worker := Cleared]);
      }
    }
  }

  /** n workers of which those from `lo` up to `hi` have been cleared to call. */
  function Racing(n: nat, lo: nat, hi: nat): seq<Visitor> {
    seq(n, i requires 0 <= i < n => if lo <= i < hi then Cleared else Idle)
  }

  lemma {:induction false} NoneCleared(n: nat, lo: nat)
    ensures ClearedCount(Racing(n, lo, lo)) == 0
  {
    if n > 0 {
      NoneCleared(n - 1, lo);
      assert Racing(n, lo, lo)[..n - 1] == Racing(n - 1, lo, lo);
    }
  }

  lemma OneMove(s: Shared, cap: nat, moves: seq<Move>, m: Move)
    ensures Acts(s, cap, moves + [m]) == Act(Acts(s, cap, moves), cap, m)
  {
    assert (moves + [m])[..|moves|] == moves;
  }

  /** One worker alone brings the count up to one below the cap. */
  lemma {:induction false} RisesAlone(start: nat, k: nat, cap: nat, n: nat) returns (moves: seq<Move>)
    requires start <= k < cap && n > 0
    ensures Acts(Shared(start, Racing(n, 0, 0)), cap, moves) == Shared(k, Racing(n, 0, 0))
  {
    moves := [];
    if start < k {
      var s := Shared(start, Racing(n, 0, 0));
      moves := RisesAlone(start, k - 1, cap, n);
      OneMove(s, cap, moves, Check(0));
      OneMove(s, cap, moves + [Check(0)], Call(0));
      assert Racing(n, 0, 0)[0 := Cleared][0 := Idle] == Racing(n, 0, 0);
      moves := moves + [Check(0)] + [Call(0)];
    }
  }

  /** At one below the cap every worker is still cleared, one after the other. */
  lemma {:induction false} AllCleared(s: Shared, cap: nat, before: seq<Move>, n: nat, k: nat) returns (moves: seq<Move>)
    requires k <= n && cap > 0 && Acts(s, cap, before) == Shared(cap - 1, Racing(n, 0, 0))
    ensures Acts(s, cap, moves) == Shared(cap - 1, Racing(n, 0, k))
  {
    moves := before;
    if k > 0 {
      moves := AllCleared(s, cap, before, n, k - 1);
      OneMove(s, cap, moves, Check(k - 1));
      assert Racing(n, 0, k - 1)[k - 1 := Cleared] == Racing(n, 0, k);
      moves := moves + [Check(k - 1)];
    }
  }

  /** And then every one of them calls. */
  lemma {:induction false} AllCall(s: Shared, cap: nat, before: seq<Move>, n: nat, k: nat) returns (moves: seq<Move>)
    requires k <= n && cap > 0 && Acts(s, cap, before) == Shared(cap - 1, Racing(n, 0, n))
    ensures Acts(s, cap, moves) == Shared(cap - 1 + k, Racing(n, k, n))
  {
    moves := before;
    if k > 0 {
      moves := AllCall(s, cap, before, n, k - 1);
      OneMove(s, cap, moves, Call(k - 1));
      assert Racing(n, k - 1, n)[k - 1 := Idle] == Racing(n, k, n);
      moves := moves + [Call(k - 1)];
    }
  }

  /** The bound of `CapUnderRaces` is reached: from any count below the cap, by any number of workers. */
  lemma RacesReachTheBound(start: nat, cap: nat, n: nat) returns (moves: seq<Move>)
    requires start < cap && n > 0
    ensures Acts(Shared(start, Racing(n, 0, 0)), cap, moves).attempts == cap + n - 1
  {
    var s := Shared(start, Racing(n, 0, 0));
    moves := RisesAlone(start, cap - 1, cap, n);
    moves := AllCleared(s, cap, moves, n, n);
    moves := AllCall(s, cap, moves, n, n);
  }

  ghost predicate NeverExceeds(s: Shared, cap: nat) {
    forall moves :: Acts(s, cap, moves).attempts <= cap
  }

  /**
   * The cap bounds the calls of a job's life exactly when no two workers run it at once. The
   * one other case is a cap that was used up before they came.
   */
  lemma CapHoldsExactlyAlone(start: nat, cap: nat, n: nat)
    requires start <= cap
    ensures NeverExceeds(Shared(start, Racing(n, 0, 0)), cap) <==> n <= 1 || start == cap
  {
    var s := Shared(start, Racing(n, 0, 0));
    NoneCleared(n, 0);
    if n > 1 && start < cap {
      var moves := RacesReachTheBound(start, cap, n);
      assert Acts(s, cap, moves).attempts > cap;
    }
    forall moves ensures n <= 1 ==> Acts(s, cap, moves).attempts <= cap {
      CapUnderRaces(s, cap, moves);
    }
    forall moves ensures start == cap ==> Acts(s, cap, moves).attempts <= cap {
      if start == cap {
        UsedUp(s, cap, moves);
      }
    }
  }

  /** A cap already used up clears nobody. */
  lemma {:induction false} UsedUp(s: Shared, cap: nat, moves: seq<Move>)
    requires s.attempts >= cap && forall i :: 0 <= i < |s.workers| ==> s.workers[i] == Idle
    ensures Acts(s, cap, moves) == s
  {
    if moves != [] {
      UsedUp(s, cap, moves[..|moves| - 1]);
      var m := moves[|moves| - 1];
      assert m.worker < |s.workers| ==> s.workers[m.worker := Idle] == s.workers;
    }
  }

  // The worker ------------------------------------------------------------------------

  class Attempts {
    var rows: nat

    method GenerateWithFallback(cap: nat, registered: seq<bool>, replies: seq<Reply>)
      returns (calls: seq<nat>, out: Outcome)
      requires |registered| == |replies|
      modifies this
      ensures (rows, calls, out) == Generate(old(rows), cap, registered, replies)
    {
      calls := [];
      var last: Option<Error> := None;
      var anyAdapter := false;
      var k: nat := 0;
      while k < |registered|
        invariant k <= |registered|
        invariant WalkTo(old(rows), cap, registered, replies, k) == Walk(rows, calls, last, anyAdapter, None)
      {
        if registered[k] {
          anyAdapter := true;
          if rows >= cap {
            out := Lost(last.GetOr(CapReached));
            DoneStays(old(rows), cap, registered, replies, k + 1);
            return;
          }
          rows := rows + 1;
          calls := calls + [k];
          match replies[k] {
            case Success =>
              out := Won(k);
              DoneStays(old(rows), cap, registered, replies, k + 1);
              return;
            case Rejection =>
              out := Lost(ContentRejected);
              DoneStays(old(rows), cap, registered, replies, k + 1);
              return;
            case Failure(code) =>
              last := Some(ProviderError(code));
          }
        }
        k := k + 1;
      }
      out := if !anyAdapter then Lost(Unavailable) else Lost(last.GetOr(Unavailable));
    }
  }

  lemma {:induction false} DoneStays(attempts: nat, cap: nat, registered: seq<bool>, replies: seq<Reply>, k: nat)
    requires k <= |registered| == |replies| && WalkTo(attempts, cap, registered, replies, k).done.Some?
    ensures WalkTo(attempts, cap, registered, replies, |registered|) == WalkTo(attempts, cap, registered, replies, k)
    decreases |registered| - k
  {
    if k < |registered| {
      DoneStays(attempts, cap, registered, replies, k + 1);
    }
  }
}
