/**
 * Idempotent job creation: the key table and the three create paths over the shared
 * database. `now` is the database clock of the create transaction, `later` that of the
 * replay read that may follow it, `app` the application clock that dates a new record.
 */
module Idempotency {
  import opened Rows
  import T = JobTransactions
  import B = BudgetRules
  import L = CostLedger
  import LI = LedgerInvariants
  import D = Delivery
  import P = RequestPaths

  type Time = int

  const TTL := 86_400

  datatype Reason = NoPriceEntry | BudgetExceeded | OtherFailure

  /** A row of idempotency_keys. */
  datatype Row = Row(token: nat, key: string, endpoint: string, hash: string, job: JobId, expires: Time)

  /** `codes` is the error_code column of the jobs that have one. */
  datatype State = State(db: Db, codes: map<JobId, Reason>, rows: seq<Row>)

  datatype Path =
    | Enqueue(estimate: Option<nat>, clock: Clock, maxConcurrent: int, queueAccepts: bool)
    | CacheHit(asset: AssetId)
    | PackReuse(assets: seq<AssetId>)

  datatype Call = Call(path: Path, request: T.Request, key: string, endpoint: string, hash: string,
                       now: Time, later: Time, app: Time)

  datatype Result =
    | Accepted(job: JobId)
    | Reused(job: JobId)
    | Refused(job: JobId, reason: Reason)
    | EnqueueFailed(job: JobId)
    | TooManyJobs
    | Conflict
    | RecordGone
    | Replayed(job: JobId, status: JobStatus)
    | RefusedAgain(job: JobId, reason: Reason)

  // The key table ---------------------------------------------------------------------

  /** The position of the row with this (token, key), or |rows|. */
  function Find(rows: seq<Row>, token: nat, key: string): (k: nat)
    ensures k <= |rows|
    ensures k < |rows| ==> rows[k].token == token && rows[k].key == key
    ensures forall i :: 0 <= i < k ==> !(rows[i].token == token && rows[i].key == key)
  {
    if rows == [] || (rows[0].token == token && rows[0].key == key) then 0
    else 1 + Find(rows[1..], token, key)
  }

  function Live(rows: seq<Row>, token: nat, key: string, now: Time): Option<Row> {
    var k := Find(rows, token, key);
    if k < |rows| && rows[k].expires > now then Some(rows[k]) else None
  }

  /** Insert, or take over an expired row in place; a live row wins and nothing is written. */
  function Inserted(rows: seq<Row>, row: Row, now: Time): Option<seq<Row>> {
    var k := Find(rows, row.token, row.key);
    if k == |rows| then Some(rows + [row])
    else if rows[k].expires <= now then Some(rows[k := row])
    else None
  }

  function Purged(rows: seq<Row>, now: Time): seq<Row> {
    if rows == [] then []
    else (if rows[0].expires < now then [] else [rows[0]]) + Purged(rows[1..], now)
  }

  // The create paths ------------------------------------------------------------------

  predicate Occupies(s: JobStatus) {
    s in {JobStatus.Queued, Running, PreviewReady}
  }

  function LiveJobs(jobs: seq<Job>, token: nat): nat {
    if jobs == [] then 0
    else LiveJobs(jobs[..|jobs| - 1], token)
         + if jobs[|jobs| - 1].scope.token == token && Occupies(jobs[|jobs| - 1].status) then 1 else 0
  }

  /** What a record answers to a request that bears its key. */
  function ReplayOf(s: State, row: Row, endpoint: string, hash: string): Result {
    if row.endpoint != endpoint || row.hash != hash then Conflict
    else if row.job >= |s.db.jobs| then RecordGone
    else if s.db.jobs[row.job].status == JobFailed && row.job in s.codes && s.codes[row.job] != OtherFailure
    then RefusedAgain(row.job, s.codes[row.job])
    else Replayed(row.job, s.db.jobs[row.job].status)
  }

  /** The replay read, in a transaction of its own. */
  function Replay(s: State, c: Call): Result {
    match Live(s.rows, c.request.scope.token, c.key, c.later)
    case Some(row) => ReplayOf(s, row, c.endpoint, c.hash)
    case None => RecordGone
  }

  function NewRow(c: Call, j: JobId): Row {
    Row(c.request.scope.token, c.key, c.endpoint, c.hash, j, c.app + TTL)
  }

  /** The key table after job j was created under the call's key, unless a live record wins. */
  function Recorded(rows: seq<Row>, c: Call, j: JobId): Option<seq<Row>> {
    if c.key == "" then Some(rows) else Inserted(rows, NewRow(c, j), c.now)
  }

  predicate OverCap(s: State, c: Call)
    requires c.path.Enqueue?
  {
    c.path.maxConcurrent > 0 && LiveJobs(s.db.jobs, c.request.scope.token) >= c.path.maxConcurrent
  }

  function CreateQueued(s: State, c: Call, rows: seq<Row>): (State, Result)
    requires c.path.Enqueue?
  {
    var j, r := |s.db.jobs|, |s.db.reservations|;
    var db := T.Create(s.db, c.request, c.path.estimate, c.path.clock);
    if db.jobs[j].status == JobFailed then
      var reason := if c.path.estimate.None? then NoPriceEntry else BudgetExceeded;
      (State(db, s.codes[j := reason], rows), Refused(j, reason))
    else if c.path.queueAccepts then (State(db, s.codes, rows), Accepted(j))
    else (State(T.EnqueueCleanup(db, j, r), s.codes[j := OtherFailure], rows), EnqueueFailed(j))
  }

  function CreateAndEnqueue(s: State, c: Call): (State, Result)
    requires c.path.Enqueue?
  {
    if c.key != "" && Live(s.rows, c.request.scope.token, c.key, c.now).Some? then (s, Replay(s, c))
    else if OverCap(s, c) then (s, TooManyJobs)
    else
      match Recorded(s.rows, c, |s.db.jobs|)
      case None => (s, Replay(s, c))
      case Some(rows) => CreateQueued(s, c, rows)
  }

  function ReusedAssets(p: Path): seq<AssetId>
    requires !p.Enqueue?
  {
    match p
    case CacheHit(a) => [a]
    case PackReuse(as_) => as_
  }

  function CreateReused(s: State, c: Call): (State, Result)
    requires !c.path.Enqueue?
  {
    match Recorded(s.rows, c, |s.db.jobs|)
    case None => (s, Replay(s, c))
    case Some(rows) =>
      (State(T.CreateCompleted(s.db, c.request, ReusedAssets(c.path)), s.codes, rows), Reused(|s.db.jobs|))
  }

  function Create(s: State, c: Call): (State, Result) {
    if c.path.Enqueue? then CreateAndEnqueue(s, c) else CreateReused(s, c)
  }

  // One call --------------------------------------------------------------------------

  ghost predicate UniqueKeys(rows: seq<Row>) {
    forall i, k :: 0 <= i < k < |rows| ==> !(rows[i].token == rows[k].token && rows[i].key == rows[k].key)
  }

  /** At most one record per (token, key), and each names a job that exists. */
  ghost predicate Inv(s: State) {
    UniqueKeys(s.rows) && forall k :: 0 <= k < |s.rows| ==> s.rows[k].job < |s.db.jobs|
  }

  predicate Creates(r: Result) {
    r.Accepted? || r.Reused? || r.Refused? || r.EnqueueFailed?
  }

  lemma {:induction false} FindFirst(rows: seq<Row>, token: nat, key: string, k: nat)
    requires k <= |rows|
    requires k < |rows| ==> rows[k].token == token && rows[k].key == key
    requires forall i :: 0 <= i < k ==> !(rows[i].token == token && rows[i].key == key)
    ensures Find(rows, token, key) == k
  {
    if k > 0 {
      assert rows != [] && !(rows[0].token == token && rows[0].key == key);
      FindFirst(rows[1..], token, key, k - 1);
    }
  }

  /** Writing one key leaves what is found under every other key as it was. */
  lemma InsertedFinds(rows: seq<Row>, row: Row, now: Time, token: nat, key: string)
    requires Inserted(rows, row, now).Some?
    ensures
      var after := Inserted(rows, row, now).value;
      var k, f := Find(rows, token, key), Find(after, token, key);
      if token == row.token && key == row.key then f < |after| && after[f] == row
      else if k < |rows| then f < |after| && after[f] == rows[k] else f == |after|
  {
    var after, w := Inserted(rows, row, now).value, Find(rows, row.token, row.key);
    var k := Find(rows, token, key);
    if token == row.token && key == row.key {
      FindFirst(after, token, key, k);
    } else if k < |rows| {
      FindFirst(after, token, key, k);
    } else {
      FindFirst(after, token, key, |after|);
    }
  }

  lemma InsertedUnique(rows: seq<Row>, row: Row, now: Time)
    requires UniqueKeys(rows) && Inserted(rows, row, now).Some?
    ensures UniqueKeys(Inserted(rows, row, now).value)
  {
    var w := Find(rows, row.token, row.key);
  }

  /** The database a create transaction leaves has exactly one more job. */
  lemma CreateAddsOneJob(db: Db, q: T.Request, estimate: Option<nat>, clock: Clock)
    ensures |T.Create(db, q, estimate, clock).jobs| == |db.jobs| + 1
  {}

  lemma CleanupKeepsJobCount(db: Db, j: JobId, r: ReservationId)
    ensures |T.EnqueueCleanup(db, j, r).jobs| == |db.jobs|
  {}

  /** A live record answers the call and nothing is written, on every path. */
  lemma LiveRecordAnswers(s: State, c: Call)
    requires c.key != "" && Live(s.rows, c.request.scope.token, c.key, c.now).Some?
    ensures Create(s, c) == (s, Replay(s, c))
  {}

  /**
   * Without a live record, an expired one included, the call creates exactly one job and
   * becomes the key's record; only the concurrency cap can refuse it, and then leaves nothing.
   */
  lemma NoLiveRecordCreates(s: State, c: Call)
    requires c.key == "" || Live(s.rows, c.request.scope.token, c.key, c.now).None?
    ensures
      var (after, r) := Create(s, c);
      if c.path.Enqueue? && OverCap(s, c) then after == s && r == TooManyJobs
      else
        && Creates(r) && r.job == |s.db.jobs| && |after.db.jobs| == |s.db.jobs| + 1
        && Some(after.rows) == Recorded(s.rows, c, |s.db.jobs|)
  {
    if c.path.Enqueue? && !OverCap(s, c) {
      var db := T.Create(s.db, c.request, c.path.estimate, c.path.clock);
      CreateAddsOneJob(s.db, c.request, c.path.estimate, c.path.clock);
      CleanupKeepsJobCount(db, |s.db.jobs|, |s.db.reservations|);
    }
  }

  // Runs ------------------------------------------------------------------------------

  /** A create call, another writer's transaction that inserts no job, or the expiry sweep. */
  datatype Action = Submit(call: Call) | Elsewhere(db: Db, codes: map<JobId, Reason>, at: Time) | Purge(at: Time)

  function When(a: Action): Time {
    match a
    case Submit(c) => c.now
    case Elsewhere(_, _, t) => t
    case Purge(t) => t
  }

  function Until(a: Action): Time {
    if a.Submit? then a.call.later else When(a)
  }

  predicate Possible(s: State, a: Action) {
    a.Elsewhere? ==> |a.db.jobs| == |s.db.jobs|
  }

  function After(s: State, a: Action): State {
    match a
    case Submit(c) => Create(s, c).0
    case Elsewhere(db, codes, _) => s.(db := db, codes := codes)
    case Purge(t) => s.(rows := Purged(s.rows, t))
  }

  ghost predicate Steps(states: seq<State>, run: seq<Action>, i: nat) {
    && i + 1 < |states| && i < |run|
    && When(run[i]) <= Until(run[i])
    && Possible(states[i], run[i])
    && states[i + 1] == After(states[i], run[i])
  }

  /** A run and the states it passes through, under a clock that never goes back. */
  ghost predicate IsRun(states: seq<State>, run: seq<Action>) {
    && |states| == |run| + 1 && Inv(states[0])
    && (forall i: nat :: i < |run| ==> Steps(states, run, i))
    && (forall i, k :: 0 <= i < k < |run| ==> Until(run[i]) <= When(run[k]))
  }

  lemma {:induction false} PurgedRows(rows: seq<Row>, now: Time)
    requires UniqueKeys(rows)
    ensures UniqueKeys(Purged(rows, now))
    ensures forall r :: r in Purged(rows, now) <==> r in rows && r.expires >= now
  {
    if rows != [] {
      var first, rest, kept := rows[0], rows[1..], Purged(rows[1..], now);
      PurgedRows(rest, now);
      assert forall r :: r in rows <==> r == first || r in rest;
      forall k | 0 <= k < |kept| ensures !(kept[k].token == first.token && kept[k].key == first.key) {
        assert kept[k] in rest;
        var l :| 0 <= l < |rest| && rest[l] == kept[k];
        assert rows[l + 1] == kept[k];
      }
    }
  }

  lemma PurgedFinds(rows: seq<Row>, now: Time, token: nat, key: string)
    requires UniqueKeys(rows) && Find(rows, token, key) < |rows| && rows[Find(rows, token, key)].expires >= now
    ensures Find(Purged(rows, now), token, key) < |Purged(rows, now)|
    ensures Purged(rows, now)[Find(Purged(rows, now), token, key)] == rows[Find(rows, token, key)]
  {
    PurgedRows(rows, now);
    var row, kept := rows[Find(rows, token, key)], Purged(rows, now);
    assert row in kept;
    var k :| 0 <= k < |kept| && kept[k] == row;
    FindFirst(kept, token, key, k);
  }

  lemma StepKeepsInv(s: State, a: Action)
    requires Inv(s) && Possible(s, a)
    ensures Inv(After(s, a))
  {
    match a
    case Submit(c) =>
      if c.key != "" && Live(s.rows, c.request.scope.token, c.key, c.now).Some? {
        LiveRecordAnswers(s, c);
      } else {
        NoLiveRecordCreates(s, c);
        if c.key != "" && Creates(Create(s, c).1) {
          InsertedUnique(s.rows, NewRow(c, |s.db.jobs|), c.now);
        }
      }
    case Elsewhere(_, _, _) =>
    case Purge(t) =>
      PurgedRows(s.rows, t);
      forall k | 0 <= k < |Purged(s.rows, t)| ensures Purged(s.rows, t)[k].job < |s.db.jobs| {
        assert Purged(s.rows, t)[k] in s.rows;
      }
  }

  lemma {:induction false} RunKeepsInv(states: seq<State>, run: seq<Action>, n: nat)
    requires n <= |run| && IsRun(states, run)
    ensures Inv(states[n])
  {
    if n > 0 {
      RunKeepsInv(states, run, n - 1);
      assert Steps(states, run, n - 1);
      StepKeepsInv(states[n - 1], run[n - 1]);
    }
  }

  /** This row is its key's record. */
  ghost predicate Held(rows: seq<Row>, row: Row) {
    var f := Find(rows, row.token, row.key);
    f < |rows| && rows[f] == row
  }

  /** A record that is live when a step begins is still the key's record when it ends. */
  lemma LiveRecordKept(s: State, a: Action, row: Row)
    requires Inv(s) && Possible(s, a) && Held(s.rows, row) && row.expires > When(a)
    ensures Held(After(s, a).rows, row)
  {
    match a
    case Submit(c) =>
      if c.key != "" && Live(s.rows, c.request.scope.token, c.key, c.now).Some? {
        LiveRecordAnswers(s, c);
      } else {
        NoLiveRecordCreates(s, c);
        if c.key != "" && Creates(Create(s, c).1) {
          InsertedFinds(s.rows, NewRow(c, |s.db.jobs|), c.now, row.token, row.key);
        }
      }
    case Elsewhere(_, _, _) =>
    case Purge(t) =>
      PurgedFinds(s.rows, t, row.token, row.key);
  }

  /** The call that creates a job becomes its key's record, for a day. */
  lemma CreationRecorded(s: State, c: Call)
    requires c.key != "" && Creates(Create(s, c).1)
    ensures Held(Create(s, c).0.rows, NewRow(c, |s.db.jobs|)) && Create(s, c).1.job == |s.db.jobs|
    ensures NewRow(c, |s.db.jobs|) == Row(c.request.scope.token, c.key, c.endpoint, c.hash, |s.db.jobs|, c.app + 24 * 60 * 60)
  {
    var row := NewRow(c, |s.db.jobs|);
    if Live(s.rows, row.token, row.key, c.now).Some? {
      LiveRecordAnswers(s, c);
    } else {
      NoLiveRecordCreates(s, c);
      InsertedFinds(s.rows, row, c.now, row.token, row.key);
    }
  }

  lemma StaysHeld(states: seq<State>, run: seq<Action>, n: nat, row: Row)
    requires IsRun(states, run) && n < |run| && Held(states[n].rows, row) && When(run[n]) < row.expires
    ensures Held(states[n + 1].rows, row)
  {
    RunKeepsInv(states, run, n);
    assert Steps(states, run, n);
    LiveRecordKept(states[n], run[n], row);
  }

  /** A record stays its key's until it expires. */
  lemma {:induction false} RecordLasts(states: seq<State>, run: seq<Action>, m: nat, n: nat, row: Row)
    requires IsRun(states, run) && m <= n <= |run| && Held(states[m].rows, row)
    requires forall q :: m <= q < n ==> When(run[q]) < row.expires
    ensures Held(states[n].rows, row)
  {
    if m < n {
      RecordLasts(states, run, m, n - 1, row);
      StaysHeld(states, run, n - 1, row);
    }
  }

  // Main results ----------------------------------------------------------------------

  /** What a later call under the key of `first` must be answered, when `first` created job j. */
  ghost predicate Answers(r: Result, first: Call, j: JobId, again: Call) {
    if again.endpoint == first.endpoint && again.hash == first.hash
    then (r.Replayed? || r.RefusedAgain?) && r.job == j
    else r == Conflict
  }

  lemma HeldAnswers(s: State, first: Call, j: JobId, again: Call)
    requires Inv(s) && Held(s.rows, NewRow(first, j)) && first.key != ""
    requires again.request.scope.token == first.request.scope.token && again.key == first.key
    requires again.now <= again.later < first.app + TTL
    ensures Create(s, again).0 == s && Answers(Create(s, again).1, first, j, again)
  {
    LiveRecordAnswers(s, again);
  }

  /**
   * Over any run with a non-decreasing clock: while the record that call i made is live, every
   * later call under its key writes nothing, and gets that job back when endpoint and hash
   * agree and a conflict when they do not.
   */
  lemma KeyedOnce(states: seq<State>, run: seq<Action>, i: nat, k: nat, first: Call, again: Call)
    requires IsRun(states, run) && i < k < |run| && run[i] == Submit(first) && run[k] == Submit(again)
    requires first.key != "" && Creates(Create(states[i], first).1)
    requires again.request.scope.token == first.request.scope.token && again.key == first.key
    requires again.later < first.app + TTL
    ensures states[k + 1] == states[k]
    ensures Answers(Create(states[k], again).1, first, Create(states[i], first).1.job, again)
  {
    var j := |states[i].db.jobs|;
    assert Steps(states, run, k);
    StillHeld(states, run, i, k, first, again);
    RunKeepsInv(states, run, k);
    HeldAnswers(states[k], first, j, again);
  }

  lemma StillHeld(states: seq<State>, run: seq<Action>, i: nat, k: nat, first: Call, again: Call)
    requires IsRun(states, run) && i < k < |run| && run[i] == Submit(first) && run[k] == Submit(again)
    requires first.key != "" && Creates(Create(states[i], first).1) && again.later < first.app + TTL
    ensures Held(states[k].rows, NewRow(first, |states[i].db.jobs|)) && Create(states[i], first).1.job == |states[i].db.jobs|
  {
    assert Steps(states, run, i) && Steps(states, run, k);
    CreationRecorded(states[i], first);
    forall m | i < m < k ensures When(run[m]) < first.app + TTL {
      assert Steps(states, run, m);
    }
    RecordLasts(states, run, i + 1, k, NewRow(first, |states[i].db.jobs|));
  }

  /** In every reachable state a call whose key has no live record, only an expired one, creates a job. */
  lemma ExpiredNeverBlocks(states: seq<State>, run: seq<Action>, k: nat, c: Call, row: Row)
    requires IsRun(states, run) && k < |run| && run[k] == Submit(c)
    requires Held(states[k].rows, row) && row.expires <= c.now
    requires row.token == c.request.scope.token && row.key == c.key
    requires c.path.Enqueue? ==> !OverCap(states[k], c)
    ensures Creates(Create(states[k], c).1) && |states[k + 1].db.jobs| == |states[k].db.jobs| + 1
    ensures c.key != "" ==> Held(states[k + 1].rows, NewRow(c, |states[k].db.jobs|))
  {
    assert Steps(states, run, k);
    NoLiveRecordCreates(states[k], c);
    if c.key != "" {
      CreationRecorded(states[k], c);
    }
  }

  /** A replay of a request its budget refused is refused again, for the same reason. */
  lemma RefusalsReplay(s: State, c: Call, d: Call)
    requires c.key != "" && Create(s, c).1.Refused?
    requires d.request.scope.token == c.request.scope.token && d.key == c.key && d.now <= d.later < c.app + TTL
    requires d.endpoint == c.endpoint && d.hash == c.hash
    ensures Create(Create(s, c).0, d) == (Create(s, c).0, RefusedAgain(Create(s, c).1.job, Create(s, c).1.reason))
  {
    CreationRecorded(s, c);
    LiveRecordAnswers(Create(s, c).0, d);
  }

  /** What is counted against the cap: the token's jobs that are queued, running or previewed. */
  ghost function Waiting(jobs: seq<Job>, token: nat): set<nat> {
    set i: nat | i < |jobs| && jobs[i].scope.token == token && jobs[i].status in {JobStatus.Queued, Running, PreviewReady}
  }

  lemma {:induction false} LiveJobsMeans(jobs: seq<Job>, token: nat)
    ensures LiveJobs(jobs, token) == |Waiting(jobs, token)|
  {
    if jobs != [] {
      var init, last := jobs[..|jobs| - 1], |jobs| - 1;
      LiveJobsMeans(init, token);
      assert Waiting(init, token) == Waiting(jobs, token) - {last};
    }
  }

  /** A call without a live record is refused for concurrency exactly when the cap is on and reached, and leaves nothing. */
  lemma CapRefuses(s: State, c: Call)
    requires c.path.Enqueue? && (c.key == "" || Live(s.rows, c.request.scope.token, c.key, c.now).None?)
    ensures Create(s, c).1 == TooManyJobs <==>
            c.path.maxConcurrent > 0 && |Waiting(s.db.jobs, c.request.scope.token)| >= c.path.maxConcurrent
    ensures Create(s, c).1 == TooManyJobs ==> Create(s, c).0 == s
  {
    LiveJobsMeans(s.db.jobs, c.request.scope.token);
    NoLiveRecordCreates(s, c);
  }

  /** A cache hit or an all-hits pack lands as one completed job that shows the reused assets, costs nothing and holds nothing. */
  lemma ReuseOutcome(s: State, c: Call)
    requires !c.path.Enqueue? && (c.key == "" || Live(s.rows, c.request.scope.token, c.key, c.now).None?)
    ensures var (after, r) := Create(s, c);
      && r == Reused(|s.db.jobs|) && after.codes == s.codes
      && after.db == s.db.(jobs := s.db.jobs + [Job(c.request.kind, c.request.previewFirst, c.request.identity, c.request.scope,
                                                    Completed, None, [], if c.path.CacheHit? then [c.path.asset] else c.path.assets,
                                                    false, Some(0))])
  {
    NoLiveRecordCreates(s, c);
  }

  /** What a replay tells: the job with its present status, but the refusal again where its pre-flight refused it. */
  lemma ReplayTells(s: State, c: Call, row: Row)
    requires Held(s.rows, row) && row.token == c.request.scope.token && row.key == c.key && c.key != ""
    requires c.now <= c.later < row.expires && row.job < |s.db.jobs|
    ensures Create(s, c).0 == s
    ensures Create(s, c).1 ==
      if row.endpoint != c.endpoint || row.hash != c.hash then Conflict
      else if s.db.jobs[row.job].status == JobFailed && row.job in s.codes && s.codes[row.job] in {NoPriceEntry, BudgetExceeded}
      then RefusedAgain(row.job, s.codes[row.job])
      else Replayed(row.job, s.db.jobs[row.job].status)
  {
    LiveRecordAnswers(s, c);
  }

  /** A record that expires between the lookup and the replay read has nothing left to tell. */
  lemma ReplayTooLate(s: State, c: Call, row: Row)
    requires Held(s.rows, row) && row.token == c.request.scope.token && row.key == c.key && c.key != ""
    requires c.now < row.expires <= c.later
    ensures Create(s, c) == (s, RecordGone)
  {
    LiveRecordAnswers(s, c);
  }

  /** The job and reservation an enqueue call leaves, and the budgets. */
  ghost predicate Submitted(s: State, after: State, c: Call, job: JobStatus, reservation: ReservationStatus)
    requires c.path.Enqueue?
  {
    var j, r := |s.db.jobs|, |s.db.reservations|;
    && |after.db.jobs| == j + 1 && (forall k :: 0 <= k < j ==> after.db.jobs[k] == s.db.jobs[k])
    && after.db.jobs[j].status == job && after.db.jobs[j].reservation == Some(r)
    && after.db.jobs[j].kind == c.request.kind && after.db.jobs[j].previewFirst == c.request.previewFirst
    && after.db.jobs[j].identity == c.request.identity && after.db.jobs[j].scope == c.request.scope
    && |after.db.reservations| == r + 1 && (forall k :: 0 <= k < r ==> after.db.reservations[k] == s.db.reservations[k])
    && after.db.reservations[r].job == j && after.db.reservations[r].status == reservation
    && after.db.reservations[r].actual.None?
  }

  /**
   * What an enqueue call that meets neither a live record nor the cap comes to. Affordable and
   * accepted by the queue: the job is queued and its estimate held. Affordable and refused: the job is
   * failed, its reservation released and every budget back, up to the period reset. Not affordable: the
   * job is failed, its reservation denied and no budget touched, for want of a price or of budget.
   */
  lemma EnqueueOutcomes(s: State, c: Call, after: State, result: Result)
    requires c.path.Enqueue? && LI.LedgerInv(s.db) && P.EventsLinked(s.db)
    requires c.key == "" || Live(s.rows, c.request.scope.token, c.key, c.now).None?
    requires c.path.maxConcurrent <= 0 || |Waiting(s.db.jobs, c.request.scope.token)| < c.path.maxConcurrent
    requires (after, result) == Create(s, c)
    ensures var j := |s.db.jobs|;
      var granted := B.Affordable(s.db.budgets, c.request.scope, c.path.estimate, c.path.clock);
      if granted && c.path.queueAccepts then
        && result == Accepted(j) && Submitted(s, after, c, JobStatus.Queued, Reserved) && after.codes == s.codes
        && |after.db.budgets| == |s.db.budgets|
        && forall b :: 0 <= b < |s.db.budgets| ==>
             after.db.budgets[b] == if B.HeldAgainst(s.db.budgets, c.request.scope, b)
                                    then B.Holding(s.db.budgets[b], c.path.estimate.value, c.path.clock) else s.db.budgets[b]
      else if granted then
        && result == EnqueueFailed(j) && Submitted(s, after, c, JobFailed, Released) && after.codes == s.codes[j := OtherFailure]
        && |after.db.budgets| == |s.db.budgets|
        && forall b :: 0 <= b < |s.db.budgets| ==> after.db.budgets[b] in {s.db.budgets[b], L.RollOver(s.db.budgets[b], c.path.clock)}
      else
        var reason := if c.path.estimate.None? then NoPriceEntry else BudgetExceeded;
        && result == Refused(j, reason) && Submitted(s, after, c, JobFailed, Denied) && after.codes == s.codes[j := reason]
        && after.db.budgets == s.db.budgets && after.db.holds == s.db.holds
  {
    LiveJobsMeans(s.db.jobs, c.request.scope.token);
    NoLiveRecordCreates(s, c);
    var created := T.Create(s.db, c.request, c.path.estimate, c.path.clock);
    P.CreateOnColumns(s.db, c.request, c.path.estimate, c.path.clock, created);
    if B.Affordable(s.db.budgets, c.request.scope, c.path.estimate, c.path.clock) && !c.path.queueAccepts {
      P.CleanedUp(s.db, c.request, c.path.estimate, c.path.clock, created);
    }
  }

  /** The concurrency cap: an accepted job is counted, and takes its token to the cap at most. */
  lemma CapRespected(s: State, c: Call)
    requires c.path.Enqueue? && Create(s, c).1.Accepted?
    ensures LiveJobs(Create(s, c).0.db.jobs, c.request.scope.token) == LiveJobs(s.db.jobs, c.request.scope.token) + 1
    ensures c.path.maxConcurrent > 0 ==>
              LiveJobs(Create(s, c).0.db.jobs, c.request.scope.token) <= c.path.maxConcurrent
  {
    if c.key != "" && Live(s.rows, c.request.scope.token, c.key, c.now).Some? {
      LiveRecordAnswers(s, c);
    } else {
      var jobs := Create(s, c).0.db.jobs;
      assert jobs[..|jobs| - 1] == s.db.jobs;
    }
  }

  // The service -----------------------------------------------------------------------

  class Service {
    var db: Db
    var codes: map<JobId, Reason>
    var rows: seq<Row>

    ghost function Now(): State
      reads this
    {
      State(db, codes, rows)
    }

    method FindRow(token: nat, key: string) returns (k: nat)
      ensures k == Find(rows, token, key)
    {
      k := 0;
      while k < |rows| && !(rows[k].token == token && rows[k].key == key)
        invariant k <= |rows|
        invariant forall i :: 0 <= i < k ==> !(rows[i].token == token && rows[i].key == key)
      {
        k := k + 1;
      }
      FindFirst(rows, token, key, k);
    }

    method GetIdempotencyKey(token: nat, key: string, now: Time) returns (row: Option<Row>)
      ensures row == Live(rows, token, key, now)
    {
      var k := FindRow(token, key);
      row := if k < |rows| && rows[k].expires > now then Some(rows[k]) else None;
    }

    method InsertIdempotencyKey(row: Row, now: Time) returns (won: bool)
      modifies this`rows
      ensures won <==> Inserted(old(rows), row, now).Some?
      ensures rows == Inserted(old(rows), row, now).GetOr(old(rows))
    {
      var k := FindRow(row.token, row.key);
      won := true;
      if k == |rows| {
        rows := rows + [row];
      } else if rows[k].expires <= now {
        rows := rows[k := row];
      } else {
        won := false;
      }
    }

    method DeleteExpiredIdempotencyKeys(now: Time)
      modifies this`rows
      ensures rows == Purged(old(rows), now)
    {
      var kept: seq<Row> := [];
      var i := 0;
      while i < |rows|
        invariant 0 <= i <= |rows| && rows == old(rows)
        invariant Purged(rows, now) == kept + Purged(rows[i..], now)
      {
        assert rows[i..][1..] == rows[i + 1..];
        if rows[i].expires >= now {
          kept := kept + [rows[i]];
        }
        i := i + 1;
      }
      rows := kept;
    }

    method CountLive(token: nat) returns (n: nat)
      ensures n == LiveJobs(db.jobs, token)
    {
      n := 0;
      var i := 0;
      while i < |db.jobs|
        invariant 0 <= i <= |db.jobs| && n == LiveJobs(db.jobs[..i], token)
      {
        assert db.jobs[..i + 1][..i] == db.jobs[..i];
        if db.jobs[i].scope.token == token && Occupies(db.jobs[i].status) {
          n := n + 1;
        }
        i := i + 1;
      }
      assert db.jobs[..i] == db.jobs;
    }

    method ReplayExisting(c: Call) returns (r: Result)
      ensures r == Replay(Now(), c)
    {
      var row := GetIdempotencyKey(c.request.scope.token, c.key, c.later);
      if row.None? {
        return RecordGone;
      }
      var existing := row.value;
      if existing.endpoint != c.endpoint || existing.hash != c.hash {
        return Conflict;
      }
      if existing.job >= |db.jobs| {
        return RecordGone;
      }
      var job := db.jobs[existing.job];
      if job.status == JobFailed && existing.job in codes && codes[existing.job] != OtherFailure {
        return RefusedAgain(existing.job, codes[existing.job]);
      }
      return Replayed(existing.job, job.status);
    }

    /** Lock, replay, cap, create, reserve, record; a lost race undoes all of it. */
    method CreateAndEnqueueJob(c: Call) returns (r: Result)
      requires c.path.Enqueue?
      modifies this
      ensures (Now(), r) == CreateAndEnqueue(old(Now()), c)
    {
      if c.key != "" {
        var live := GetIdempotencyKey(c.request.scope.token, c.key, c.now);
        if live.Some? {
          r := ReplayExisting(c);
          return;
        }
      }
      if c.path.maxConcurrent > 0 {
        var count := CountLive(c.request.scope.token);
        if count >= c.path.maxConcurrent {
          return TooManyJobs;
        }
      }
      var before := db;
      var j, res := |db.jobs|, |db.reservations|;
      db := T.Create(db, c.request, c.path.estimate, c.path.clock);
      if c.key != "" {
        var won := InsertIdempotencyKey(NewRow(c, j), c.now);
        if !won {
          db := before;
          r := ReplayExisting(c);
          return;
        }
      }
      if db.jobs[j].status == JobFailed {
        var reason := if c.path.estimate.None? then NoPriceEntry else BudgetExceeded;
        codes := codes[j := reason];
        return Refused(j, reason);
      }
      if !c.path.queueAccepts {
        db := T.EnqueueCleanup(db, j, res);
        codes := codes[j := OtherFailure];
        return EnqueueFailed(j);
      }
      return Accepted(j);
    }

    /** A cache hit or an all-hits pack: the completed job and its record, or neither. */
    method CreateCompletedJob(c: Call) returns (r: Result)
      requires !c.path.Enqueue?
      modifies this
      ensures (Now(), r) == CreateReused(old(Now()), c)
    {
      var before := db;
      var j := |db.jobs|;
      db := T.CreateCompleted(db, c.request, ReusedAssets(c.path));
      if c.key != "" {
        var won := InsertIdempotencyKey(NewRow(c, j), c.now);
        if !won {
          db := before;
          r := ReplayExisting(c);
          return;
        }
      }
      return Reused(j);
    }
  }
}
