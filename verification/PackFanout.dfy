/**
 * Pack fan-out: one run generates the roles that have no item yet, stores each in a
 * transaction of its own, and settles the pack. Runs may crash anywhere and are repeated,
 * one at a time, until the job is terminal. What providers, storage and other writers do is
 * an input: one outcome per role, and the point at which the run ends.
 */
module PackFanout {
  type Role = string

  datatype Item = Item(role: Role, asset: nat)

  datatype PackStatus = Planned | InProgress | PackCompleted | CompletedWithWarnings | PackFailed

  datatype JobState = Active | JobCompleted | JobFailed | JobCancelled

  /** One provider call, and whether its image became the role's item. */
  datatype Attempt = Attempt(role: Role, stored: bool)

  datatype Pack = Pack(
    items: seq<Item>,
    status: PackStatus,
    delivered: seq<Role>,
    missing: seq<Role>,
    job: JobState,
    finals: seq<nat>,
    log: seq<Attempt>)

  datatype Outcome =
    | Produced(asset: nat)
    | ItemFailed
    | PolicyRejected
    | CapReached
    | NoLongerActive(now: JobState)
    | CrashBefore
    | CrashDuring

  /** A stopped run found that another writer had moved the job, and to which state. */
  datatype Halt = Going | Refused | Stopped(now: JobState) | Crashed

  datatype Loop = Loop(
    items: seq<Item>,
    log: seq<Attempt>,
    succeeded: seq<nat>,
    delivered: seq<Role>,
    failed: nat,
    halt: Halt)

  // Items -----------------------------------------------------------------------------

  predicate Has(items: seq<Item>, role: Role) {
    exists k :: 0 <= k < |items| && items[k].role == role
  }

  /** The asset recorded for a role; a role has at most one item. */
  function AssetOf(items: seq<Item>, role: Role): nat
    requires Has(items, role)
  {
    if items[|items| - 1].role == role then items[|items| - 1].asset else AssetOf(items[..|items| - 1], role)
  }

  /** The required roles that have an item, in the required order. */
  function Having(required: seq<Role>, items: seq<Item>): seq<Role> {
    if required == [] then []
    else
      var last := required[|required| - 1];
      Having(required[..|required| - 1], items) + if Has(items, last) then [last] else []
  }

  function Lacking(required: seq<Role>, items: seq<Item>): seq<Role> {
    if required == [] then []
    else
      var last := required[|required| - 1];
      Lacking(required[..|required| - 1], items) + if Has(items, last) then [] else [last]
  }

  /** The assets of the required roles that have an item, in the required order. */
  function AssetsOf(required: seq<Role>, items: seq<Item>): seq<nat> {
    if required == [] then []
    else
      var last := required[|required| - 1];
      AssetsOf(required[..|required| - 1], items) + if Has(items, last) then [AssetOf(items, last)] else []
  }

  /** The required roles that are not among the delivered ones, in the required order. */
  function MissingRoles(required: seq<Role>, delivered: seq<Role>): seq<Role> {
    if required == [] then []
    else
      var last := required[|required| - 1];
      MissingRoles(required[..|required| - 1], delivered) + if last in delivered then [] else [last]
  }

  // One run ---------------------------------------------------------------------------

  /** One role: `start` is the item list the run read before its loop. */
  function Cell(l: Loop, start: seq<Item>, role: Role, o: Outcome): Loop {
    if l.halt != Going then l
    else if Has(start, role) then
      l.(succeeded := l.succeeded + [AssetOf(start, role)], delivered := l.delivered + [role])
    else
      match o
      case Produced(asset) =>
        if Has(l.items, role) then
          // UNIQUE (asset_pack_id, variant_key) refuses the second item.
          l.(log := l.log + [Attempt(role, false)], failed := l.failed + 1)
        else
          l.(items := l.items + [Item(role, asset)], log := l.log + [Attempt(role, true)],
             succeeded := l.succeeded + [asset], delivered := l.delivered + [role])
      case ItemFailed => l.(log := l.log + [Attempt(role, false)], failed := l.failed + 1)
      case PolicyRejected => l.(log := l.log + [Attempt(role, false)], halt := Refused)
      case CapReached => l.(halt := Refused)
      case NoLongerActive(now) => l.(log := l.log + [Attempt(role, false)], halt := Stopped(now))
      case CrashBefore => l.(halt := Crashed)
      case CrashDuring => l.(log := l.log + [Attempt(role, false)], halt := Crashed)
  }

  /** The loop after the first k roles. */
  function FanOut(p: Pack, required: seq<Role>, outcomes: seq<Outcome>, k: nat): Loop
    requires k <= |required| == |outcomes|
  {
    if k == 0 then Loop(p.items, p.log, [], [], 0, Going)
    else Cell(FanOut(p, required, outcomes, k - 1), p.items, required[k - 1], outcomes[k - 1])
  }

  function SettledStatus(l: Loop): PackStatus {
    if l.succeeded == [] then PackFailed else if l.failed > 0 then CompletedWithWarnings else PackCompleted
  }

  /** The three closing writes, of which a run performs the first `writes`. */
  function Settle(p: Pack, l: Loop, required: seq<Role>, writes: nat): Pack {
    var told := p.(delivered := l.delivered, missing := MissingRoles(required, l.delivered));
    if writes == 0 then p
    else if l.halt == Refused then
      if writes == 1 then told
      else if writes == 2 then told.(job := JobFailed)
      else told.(job := JobFailed, status := PackFailed)
    else
      var marked := told.(status := SettledStatus(l));
      if writes == 1 then told
      else if writes == 2 then marked
      else if l.succeeded == [] then marked.(job := JobFailed)
      else marked.(job := JobCompleted, finals := l.succeeded)
  }

  /**
   * A whole run; `writes` >= 3 when it does not crash among its closing writes. A stopped run
   * writes nothing more: the job is in the state the other writer gave it.
   */
  function Run(p: Pack, required: seq<Role>, outcomes: seq<Outcome>, writes: nat): Pack
    requires |outcomes| == |required|
  {
    match p.job
    case JobCompleted => p
    case JobFailed => p.(status := PackFailed)
    case JobCancelled => p
    case Active =>
      var l := FanOut(p, required, outcomes, |required|);
      var looped := p.(status := InProgress, items := l.items, log := l.log);
      match l.halt
      case Crashed => looped
      case Stopped(now) => looped.(job := now)
      case _ => Settle(looped, l, required, writes)
  }

  // What one loop keeps ---------------------------------------------------------------

  ghost predicate UniqueRoles(items: seq<Item>) {
    forall i, k :: 0 <= i < k < |items| ==> items[i].role != items[k].role
  }

  /** No two entries of `required` that still lack an item name the same role. */
  ghost predicate FreshDistinct(required: seq<Role>, items: seq<Item>) {
    forall i, k :: 0 <= i < k < |required| && required[i] == required[k] ==> Has(items, required[i])
  }

  /** The log since `start`: no call for a role that had an item, none after a stored one. */
  ghost predicate Frugal(start: seq<Item>, log: seq<Attempt>) {
    && (forall i :: 0 <= i < |log| ==> !Has(start, log[i].role))
    && (forall i, k :: 0 <= i < k < |log| && log[i].role == log[k].role ==> !log[i].stored)
  }

  /** Items are the ones at the start and one per stored call since. */
  ghost predicate Accounted(start: seq<Item>, items: seq<Item>, log: seq<Attempt>) {
    && start <= items && UniqueRoles(items)
    && (forall k :: |start| <= k < |items| ==> Attempt(items[k].role, true) in log)
    && (forall i :: 0 <= i < |log| && log[i].stored ==> Has(items, log[i].role))
  }

  lemma HasPrefix(a: seq<Item>, b: seq<Item>, role: Role)
    requires a <= b && Has(a, role)
    ensures Has(b, role)
  {
    var k :| 0 <= k < |a| && a[k].role == role;
    assert b[k].role == role;
  }

  lemma HasAppended(items: seq<Item>, item: Item, role: Role)
    ensures Has(items + [item], role) <==> Has(items, role) || item.role == role
  {
    var longer := items + [item];
    if Has(items, role) {
      HasPrefix(items, longer, role);
    }
    assert longer[|items|] == item;
    if k :| 0 <= k < |longer| && longer[k].role == role && k < |items| {
      assert items[k].role == role;
    }
  }

  /** Appending a role's item changes no other role's asset. */
  lemma AssetAppended(items: seq<Item>, item: Item, role: Role)
    ensures item.role == role ==> Has(items + [item], role) && AssetOf(items + [item], role) == item.asset
    ensures item.role != role && Has(items, role) ==>
              Has(items + [item], role) && AssetOf(items + [item], role) == AssetOf(items, role)
  {
    HasAppended(items, item, role);
    assert (items + [item])[..|items|] == items;
  }

  /** One role's step, when its role has no item or had one when the run began. */
  lemma CellKeeps(base: seq<Item>, l: Loop, start: seq<Item>, role: Role, o: Outcome)
    requires base <= start <= l.items && Accounted(base, l.items, l.log) && Frugal(base, l.log)
    requires Has(start, role) || !Has(l.items, role)
    ensures var c := Cell(l, start, role, o);
            start <= c.items && Accounted(base, c.items, c.log) && Frugal(base, c.log)
  {
    if l.halt == Going && !Has(start, role) {
      if Has(base, role) {
        HasPrefix(base, start, role);
      }
      CallKeepsFrugal(base, l, role, o.Produced?);
      if o.Produced? {
        StoreKeepsAccounted(base, l, role, o.asset);
      } else {
        FailedCallKeepsAccounted(base, l, role);
      }
    }
  }

  lemma CallKeepsFrugal(base: seq<Item>, l: Loop, role: Role, stored: bool)
    requires Accounted(base, l.items, l.log) && Frugal(base, l.log) && !Has(base, role) && !Has(l.items, role)
    ensures Frugal(base, l.log + [Attempt(role, stored)])
  {}

  lemma FailedCallKeepsAccounted(base: seq<Item>, l: Loop, role: Role)
    requires Accounted(base, l.items, l.log)
    ensures Accounted(base, l.items, l.log + [Attempt(role, false)])
  {
    var log := l.log + [Attempt(role, false)];
    forall k | |base| <= k < |l.items| ensures Attempt(l.items[k].role, true) in log {
      assert Attempt(l.items[k].role, true) in l.log;
    }
  }

  lemma StoreKeepsAccounted(base: seq<Item>, l: Loop, role: Role, asset: nat)
    requires Accounted(base, l.items, l.log) && !Has(l.items, role)
    ensures Accounted(base, l.items + [Item(role, asset)], l.log + [Attempt(role, true)])
  {
    var items, log := l.items + [Item(role, asset)], l.log + [Attempt(role, true)];
    forall k | |base| <= k < |items| ensures Attempt(items[k].role, true) in log {
      assert k < |l.items| ==> Attempt(l.items[k].role, true) in l.log;
      assert log[|l.log|] == Attempt(role, true);
    }
    forall i | 0 <= i < |log| && log[i].stored ensures Has(items, log[i].role) {
      HasAppended(l.items, Item(role, asset), log[i].role);
    }
  }

  /** A loop's items and calls so far; items it stored belong to roles it has already walked. */
  ghost predicate Kept(base: seq<Item>, start: seq<Item>, walked: seq<Role>, l: Loop) {
    && start <= l.items && Accounted(base, l.items, l.log) && Frugal(base, l.log)
    && forall r :: Has(l.items, r) && !Has(start, r) ==> r in walked
  }

  lemma CellKept(base: seq<Item>, start: seq<Item>, walked: seq<Role>, l: Loop, role: Role, o: Outcome)
    requires base <= start && Kept(base, start, walked, l)
    requires Has(start, role) || !Has(l.items, role)
    ensures Kept(base, start, walked + [role], Cell(l, start, role, o))
  {
    CellKeeps(base, l, start, role, o);
    forall r | Has(Cell(l, start, role, o).items, r) && !Has(start, r) ensures r in walked + [role] {
      CellStores(l, start, role, o, r);
    }
  }

  lemma {:induction false} FanOutKept(base: seq<Item>, p: Pack, required: seq<Role>, outcomes: seq<Outcome>, k: nat) returns (l: Loop)
    requires k <= |required| == |outcomes| && base <= p.items && FreshDistinct(required, p.items)
    requires Accounted(base, p.items, p.log) && Frugal(base, p.log)
    ensures l == FanOut(p, required, outcomes, k) && Kept(base, p.items, required[..k], l)
  {
    if k == 0 {
      l := Loop(p.items, p.log, [], [], 0, Going);
    } else {
      var before := FanOutKept(base, p, required, outcomes, k - 1);
      OneMoreKept(base, p, required, outcomes[k - 1], before, k - 1);
      l := Cell(before, p.items, required[k - 1], outcomes[k - 1]);
    }
  }

  lemma FanOutKeeps(base: seq<Item>, p: Pack, required: seq<Role>, outcomes: seq<Outcome>, k: nat)
    requires k <= |required| == |outcomes| && base <= p.items && FreshDistinct(required, p.items)
    requires Accounted(base, p.items, p.log) && Frugal(base, p.log)
    ensures Kept(base, p.items, required[..k], FanOut(p, required, outcomes, k))
  {
    var l := FanOutKept(base, p, required, outcomes, k);
  }

  lemma OneMoreKept(base: seq<Item>, p: Pack, required: seq<Role>, o: Outcome, l: Loop, k: nat)
    requires k < |required| && base <= p.items && FreshDistinct(required, p.items)
    requires Kept(base, p.items, required[..k], l)
    ensures Kept(base, p.items, required[..k + 1], Cell(l, p.items, required[k], o))
  {
    StillLacking(p, required, l, k);
    CellKept(base, p.items, required[..k], l, required[k], o);
    assert required[..k + 1] == required[..k] + [required[k]];
  }

  /** The role at position k has an item only if it had one when the run began. */
  lemma StillLacking(p: Pack, required: seq<Role>, l: Loop, k: nat)
    requires k < |required| && FreshDistinct(required, p.items)
    requires forall r :: Has(l.items, r) && !Has(p.items, r) ==> r in required[..k]
    ensures Has(p.items, required[k]) || !Has(l.items, required[k])
  {}

  lemma CellStores(l: Loop, start: seq<Item>, role: Role, o: Outcome, r: Role)
    requires Has(Cell(l, start, role, o).items, r)
    ensures Has(l.items, r) || r == role
  {
    if o.Produced? {
      HasAppended(l.items, Item(role, o.asset), r);
    }
  }

  // Repeated runs ---------------------------------------------------------------------

  datatype Try = Try(outcomes: seq<Outcome>, writes: nat)

  function Runs(p: Pack, required: seq<Role>, tries: seq<Try>): Pack
    requires forall t :: t in tries ==> |t.outcomes| == |required|
  {
    if tries == [] then p
    else
      var last := tries[|tries| - 1];
      Run(Runs(p, required, tries[..|tries| - 1]), required, last.outcomes, last.writes)
  }

  lemma RunKeeps(base: seq<Item>, p: Pack, required: seq<Role>, outcomes: seq<Outcome>, writes: nat)
    requires |required| == |outcomes| && base <= p.items && FreshDistinct(required, p.items)
    requires Accounted(base, p.items, p.log) && Frugal(base, p.log)
    ensures var q := Run(p, required, outcomes, writes);
            p.items <= q.items && Accounted(base, q.items, q.log) && Frugal(base, q.log)
  {
    FanOutKeeps(base, p, required, outcomes, |required|);
  }

  lemma FreshDistinctGrows(required: seq<Role>, a: seq<Item>, b: seq<Item>)
    requires FreshDistinct(required, a) && a <= b
    ensures FreshDistinct(required, b)
  {
    forall i, k | 0 <= i < k < |required| && required[i] == required[k] ensures Has(b, required[i]) {
      HasPrefix(a, b, required[i]);
    }
  }

  /**
   * However often a pack's run crashes and is repeated: every role has at most one item, a
   * role that had one at the start is never generated, and no call follows the stored one.
   */
  lemma {:induction false} Resumable(p: Pack, required: seq<Role>, tries: seq<Try>)
    requires forall t :: t in tries ==> |t.outcomes| == |required|
    requires p.log == [] && UniqueRoles(p.items) && FreshDistinct(required, p.items)
    ensures var q := Runs(p, required, tries);
            && p.items <= q.items && UniqueRoles(q.items) && FreshDistinct(required, q.items)
            && Accounted(p.items, q.items, q.log) && Frugal(p.items, q.log)
  {
    if tries != [] {
      var last, init := tries[|tries| - 1], tries[..|tries| - 1];
      assert last in tries && forall t :: t in init ==> t in tries;
      Resumable(p, required, init);
      var before := Runs(p, required, init);
      RunKeeps(p.items, before, required, last.outcomes, last.writes);
      FreshDistinctGrows(required, before.items, Run(before, required, last.outcomes, last.writes).items);
    }
  }

  // How a finished run ends -----------------------------------------------------------

  lemma {:induction false} Partition(required: seq<Role>, items: seq<Item>)
    ensures multiset(Having(required, items)) + multiset(Lacking(required, items)) == multiset(required)
    ensures |AssetsOf(required, items)| == |Having(required, items)|
    ensures forall r :: r in Having(required, items) <==> r in required && Has(items, r)
    ensures forall r :: r in Lacking(required, items) <==> r in required && !Has(items, r)
  {
    if required != [] {
      var init, last := required[..|required| - 1], required[|required| - 1];
      Partition(init, items);
      assert required == init + [last];
    }
  }

  lemma {:induction false} MissingIsLacking(required: seq<Role>, whole: seq<Role>, items: seq<Item>)
    requires forall r :: r in required ==> r in whole
    ensures MissingRoles(required, Having(whole, items)) == Lacking(required, items)
  {
    if required != [] {
      var init, last := required[..|required| - 1], required[|required| - 1];
      assert last in required && forall r :: r in init ==> r in required;
      MissingIsLacking(init, whole, items);
      Partition(whole, items);
    }
  }

  /** Storing a role's item leaves what is said about other roles alone. */
  lemma {:induction false} AppendedElsewhere(required: seq<Role>, items: seq<Item>, item: Item)
    requires item.role !in required
    ensures Having(required, items + [item]) == Having(required, items)
    ensures Lacking(required, items + [item]) == Lacking(required, items)
    ensures AssetsOf(required, items + [item]) == AssetsOf(required, items)
  {
    if required != [] {
      var init, last := required[..|required| - 1], required[|required| - 1];
      assert last in required && forall r :: r in init ==> r in required;
      AppendedElsewhere(init, items, item);
      HasAppended(items, item, last);
      AssetAppended(items, item, last);
    }
  }

  /** What a loop that has walked `walked` without halting has counted. */
  ghost predicate Tallied(l: Loop, walked: seq<Role>) {
    && l.delivered == Having(walked, l.items)
    && l.succeeded == AssetsOf(walked, l.items)
    && l.failed == |Lacking(walked, l.items)|
  }

  lemma TallyCell(l: Loop, start: seq<Item>, walked: seq<Role>, role: Role, o: Outcome)
    requires start <= l.items && Tallied(l, walked)
    requires Has(start, role) || (!Has(l.items, role) && role !in walked)
    requires Has(start, role) ==> AssetOf(start, role) == AssetOf(l.items, role) && Has(l.items, role)
    requires Cell(l, start, role, o).halt == Going
    ensures Tallied(Cell(l, start, role, o), walked + [role])
  {
    var c := Cell(l, start, role, o);
    assert (walked + [role])[..|walked|] == walked;
    if !Has(start, role) && o.Produced? {
      AppendedElsewhere(walked, l.items, Item(role, o.asset));
      AssetAppended(l.items, Item(role, o.asset), role);
    }
  }

  lemma {:induction false} AssetStays(a: seq<Item>, b: seq<Item>, role: Role)
    requires a <= b && UniqueRoles(b) && Has(a, role)
    ensures Has(b, role) && AssetOf(a, role) == AssetOf(b, role)
  {
    HasPrefix(a, b, role);
    if |a| < |b| {
      var init, last := b[..|b| - 1], b[|b| - 1];
      AssetStays(a, init, role);
      assert b == init + [last];
      var k :| 0 <= k < |a| && a[k].role == role;
      assert b[k].role == role;
    } else {
      assert a == b;
    }
  }

  lemma {:induction false} FanOutTallied(p: Pack, required: seq<Role>, outcomes: seq<Outcome>, k: nat)
    requires k <= |required| == |outcomes| && FreshDistinct(required, p.items)
    requires Accounted(p.items, p.items, []) && FanOut(p.(log := []), required, outcomes, k).halt == Going
    ensures Tallied(FanOut(p.(log := []), required, outcomes, k), required[..k])
  {
    if k > 0 {
      var q := p.(log := []);
      var l, role := FanOut(q, required, outcomes, k - 1), required[k - 1];
      FanOutTallied(p, required, outcomes, k - 1);
      FanOutKeeps(p.items, q, required, outcomes, k - 1);
      assert required[..k] == required[..k - 1] + [role];
      if Has(p.items, role) {
        AssetStays(p.items, l.items, role);
      } else {
        assert role !in required[..k - 1];
      }
      TallyCell(l, p.items, required[..k - 1], role, outcomes[k - 1]);
    }
  }

  lemma CellApart(l: Loop, m: Loop, before: seq<Attempt>, start: seq<Item>, role: Role, o: Outcome)
    requires l == m.(log := before + m.log)
    ensures Cell(l, start, role, o) == Cell(m, start, role, o).(log := before + Cell(m, start, role, o).log)
  {
    forall a: Attempt ensures before + m.log + [a] == before + (m.log + [a]) {}
  }

  /** The log only grows; nothing else of the loop depends on what it held before. */
  lemma {:induction false} LogIsApart(p: Pack, required: seq<Role>, outcomes: seq<Outcome>, k: nat)
    requires k <= |required| == |outcomes|
    ensures var l, m := FanOut(p, required, outcomes, k), FanOut(p.(log := []), required, outcomes, k);
            l == m.(log := p.log + m.log)
  {
    if k > 0 {
      LogIsApart(p, required, outcomes, k - 1);
      CellApart(FanOut(p, required, outcomes, k - 1), FanOut(p.(log := []), required, outcomes, k - 1), p.log,
                p.items, required[k - 1], outcomes[k - 1]);
    }
  }

  /** How many roles were delivered decides the status: all, some or none. */
  function StatusFor(required: seq<Role>, items: seq<Item>): PackStatus {
    if Having(required, items) == [] then PackFailed
    else if Lacking(required, items) == [] then PackCompleted
    else CompletedWithWarnings
  }

  /** The closing state of a run that walked every role and performed its closing writes. */
  ghost predicate SettledExactly(q: Pack, required: seq<Role>) {
    && q.delivered == Having(required, q.items)
    && q.missing == Lacking(required, q.items)
    && q.status == StatusFor(required, q.items)
    && (q.job == JobCompleted <==> q.delivered != [])
    && (q.job == JobFailed <==> q.delivered == [])
    && (q.job == JobCompleted ==> q.finals == AssetsOf(required, q.items))
  }

  lemma SettlesExactly(p: Pack, l: Loop, required: seq<Role>, writes: nat)
    requires writes >= 3 && l.halt == Going && p.items == l.items && p.job == Active && Tallied(l, required)
    ensures SettledExactly(Settle(p, l, required, writes), required)
  {
    Partition(required, l.items);
    MissingIsLacking(required, required, l.items);
  }

  lemma FinishesExactly(p: Pack, required: seq<Role>, outcomes: seq<Outcome>, writes: nat)
    requires |required| == |outcomes| && p.job == Active && writes >= 3
    requires UniqueRoles(p.items) && FreshDistinct(required, p.items)
    requires FanOut(p, required, outcomes, |required|).halt == Going
    ensures SettledExactly(Run(p, required, outcomes, writes), required)
  {
    var l := FanOut(p, required, outcomes, |required|);
    LogIsApart(p, required, outcomes, |required|);
    FanOutTallied(p, required, outcomes, |required|);
    assert required[..|required|] == required;
    SettlesExactly(p.(status := InProgress, items := l.items, log := l.log), l, required, writes);
  }

  /** A pack whose runs crashed any number of times still ends exactly, in the run that finishes. */
  lemma ResumedEndsExactly(p: Pack, required: seq<Role>, tries: seq<Try>, outcomes: seq<Outcome>, writes: nat)
    requires forall t :: t in tries ==> |t.outcomes| == |required|
    requires p.log == [] && UniqueRoles(p.items) && FreshDistinct(required, p.items)
    requires |outcomes| == |required| && writes >= 3 && Runs(p, required, tries).job == Active
    requires FanOut(Runs(p, required, tries), required, outcomes, |required|).halt == Going
    ensures SettledExactly(Run(Runs(p, required, tries), required, outcomes, writes), required)
  {
    Resumable(p, required, tries);
    FinishesExactly(Runs(p, required, tries), required, outcomes, writes);
  }

  // Runs cut off ----------------------------------------------------------------------

  /** The first role that is generated with such an outcome that the run ends there. */
  ghost predicate EndsAt(items: seq<Item>, required: seq<Role>, outcomes: seq<Outcome>, h: nat) {
    && h < |required| == |outcomes| && !Has(items, required[h]) && !outcomes[h].Produced? && !outcomes[h].ItemFailed?
    && forall k :: 0 <= k < h ==> Has(items, required[k]) || outcomes[k].Produced? || outcomes[k].ItemFailed?
  }

  /**
   * How a run that ends early leaves the pack: what was stored so far is kept; a crash leaves the job
   * active, to be delivered again; a job another writer moved stays as that writer left it; neither
   * records anything. The call that ended it was made, unless the run crashed before it or the cap
   * refused it.
   */
  lemma CutOff(p: Pack, required: seq<Role>, outcomes: seq<Outcome>, writes: nat, h: nat)
    requires |outcomes| == |required| && p.job == Active && EndsAt(p.items, required, outcomes, h)
    ensures var l, q := FanOut(p, required, outcomes, h), Run(p, required, outcomes, writes);
      && l.halt == Going && q.items == l.items
      && q.log == l.log + (if outcomes[h].CrashBefore? || outcomes[h].CapReached? then [] else [Attempt(required[h], false)])
      && match outcomes[h]
         case CrashBefore => q == p.(status := InProgress, items := q.items, log := q.log)
         case CrashDuring => q == p.(status := InProgress, items := q.items, log := q.log)
         case NoLongerActive(now) => q == p.(status := InProgress, items := q.items, log := q.log, job := now)
         case _ => writes >= 3 ==> q.job == JobFailed && q.status == PackFailed && q.finals == p.finals && q.delivered == l.delivered
  {
    CutLoop(p, required, outcomes, h);
    var m := FanOut(p, required, outcomes, |required|);
    if m.halt == Refused && writes >= 3 {
      RefusedSettles(p.(status := InProgress, items := m.items, log := m.log), m, required, writes);
    }
  }

  lemma CutLoop(p: Pack, required: seq<Role>, outcomes: seq<Outcome>, h: nat)
    requires |outcomes| == |required| && EndsAt(p.items, required, outcomes, h)
    ensures var l, m := FanOut(p, required, outcomes, h), FanOut(p, required, outcomes, |required|);
      && l.halt == Going && m.items == l.items && m.delivered == l.delivered
      && m.log == l.log + (if outcomes[h].CrashBefore? || outcomes[h].CapReached? then [] else [Attempt(required[h], false)])
      && m.halt == match outcomes[h]
                   case CrashBefore => Crashed
                   case CrashDuring => Crashed
                   case NoLongerActive(now) => Stopped(now)
                   case _ => Refused
  {
    GoesOn(p, required, outcomes, h);
    HaltedStays(p, required, outcomes, h + 1);
  }

  /**
   * The order of the closing writes: the lists of roles first, and while the job is still active; then,
   * where the run walked every role, the pack's status before the job's, so that a run cut off between
   * them is repeated; where it was refused, the job's before the pack's.
   */
  lemma ClosingOrder(p: Pack, required: seq<Role>, outcomes: seq<Outcome>)
    requires |outcomes| == |required| && p.job == Active
    requires FanOut(p, required, outcomes, |required|).halt in {Going, Refused}
    ensures var l := FanOut(p, required, outcomes, |required|);
      var walked := p.(status := InProgress, items := l.items, log := l.log);
      var listed := walked.(delivered := l.delivered, missing := MissingRoles(required, l.delivered));
      && Run(p, required, outcomes, 0) == walked
      && Run(p, required, outcomes, 1) == listed
      && (l.halt == Going ==> Run(p, required, outcomes, 2) == listed.(status := Run(p, required, outcomes, 3).status))
      && (l.halt == Refused ==> Run(p, required, outcomes, 2) == listed.(job := JobFailed))
  {}

  // Runs on a finished job -------------------------------------------------------------

  /** A run on a completed or cancelled job changes nothing; on a failed one it makes sure the pack is failed too, and no more. */
  lemma FinishedStays(p: Pack, required: seq<Role>, outcomes: seq<Outcome>, writes: nat)
    requires |outcomes| == |required| && p.job != Active
    ensures Run(p, required, outcomes, writes) == if p.job == JobFailed then p.(status := PackFailed) else p
  {}

  /**
   * A run that crashed between failing the job and failing the pack is put right by any later
   * delivery: the pack ends as it would have, and the lists of roles stay as they were recorded.
   */
  lemma CrashedFailureCorrected(p: Pack, required: seq<Role>, outcomes: seq<Outcome>, later: seq<Outcome>, writes: nat)
    requires |outcomes| == |later| == |required| && p.job == Active
    requires FanOut(p, required, outcomes, |required|).halt == Refused
    ensures Run(p, required, outcomes, 2).job == JobFailed && Run(p, required, outcomes, 2).status == InProgress
    ensures Run(Run(p, required, outcomes, 2), required, later, writes) == Run(p, required, outcomes, 3)
  {}

  // Repeated roles --------------------------------------------------------------------

  function AllProduced(n: nat): seq<Outcome> {
    seq(n, _ => Produced(0))
  }

  /** Some role was generated and stored, then generated again for an item that was refused. */
  ghost predicate PaidTwice(log: seq<Attempt>) {
    exists i, k :: 0 <= i < k < |log| && log[i].role == log[k].role && log[i].stored && !log[k].stored
  }

  ghost predicate Walked(p: Pack, required: seq<Role>, l: Loop, k: nat)
    requires k <= |required|
  {
    && l.halt == Going && Accounted(p.items, l.items, l.log)
    && (forall j :: 0 <= j < k ==> Has(l.items, required[j]))
    && (if k == 0 then l.items == p.items else l.succeeded != [])
    && (!FreshDistinct(required[..k], p.items) ==> l.failed > 0 && PaidTwice(l.log))
  }

  lemma PaidTwiceGrows(log: seq<Attempt>, more: Attempt)
    requires PaidTwice(log)
    ensures PaidTwice(log + [more])
  {
    var i, k :| 0 <= i < k < |log| && log[i].role == log[k].role && log[i].stored && !log[k].stored;
    var longer := log + [more];
    assert longer[i].role == longer[k].role && longer[i].stored && !longer[k].stored;
  }

  lemma HasAt(items: seq<Item>, j: nat)
    requires j < |items|
    ensures Has(items, items[j].role)
  {}

  lemma NewItem(a: seq<Item>, b: seq<Item>, role: Role) returns (j: nat)
    requires a <= b && Has(b, role) && !Has(a, role)
    ensures |a| <= j < |b| && b[j].role == role
  {
    j :| j < |b| && b[j].role == role;
    if j < |a| {
      HasAt(a, j);
    }
  }

  /** A role that got its item in this run is paid for again. */
  lemma SecondCall(p: Pack, l: Loop, role: Role)
    requires Accounted(p.items, l.items, l.log) && Has(l.items, role) && !Has(p.items, role)
    ensures PaidTwice(l.log + [Attempt(role, false)])
  {
    var j := NewItem(p.items, l.items, role);
    var i :| 0 <= i < |l.log| && l.log[i] == Attempt(role, true);
    var longer := l.log + [Attempt(role, false)];
    assert longer[i].role == longer[|l.log|].role && longer[i].stored && !longer[|l.log|].stored;
  }

  lemma ProducedAccounted(p: Pack, l: Loop, role: Role)
    requires l.halt == Going && Accounted(p.items, l.items, l.log)
    ensures var c := Cell(l, p.items, role, Produced(0));
            c.halt == Going && Accounted(p.items, c.items, c.log) && Has(c.items, role)
    ensures l.items == p.items || l.succeeded != [] ==> Cell(l, p.items, role, Produced(0)).succeeded != []
    ensures forall r :: Has(l.items, r) ==> Has(Cell(l, p.items, role, Produced(0)).items, r)
  {
    forall r ensures Has(l.items + [Item(role, 0)], r) <==> Has(l.items, r) || r == role {
      HasAppended(l.items, Item(role, 0), r);
    }
    if Has(p.items, role) {
      HasPrefix(p.items, l.items, role);
    } else if Has(l.items, role) {
      FailedCallKeepsAccounted(p.items, l, role);
    } else {
      StoreKeepsAccounted(p.items, l, role, 0);
    }
  }

  lemma ProducedRepeats(p: Pack, required: seq<Role>, l: Loop, k: nat)
    requires k < |required| && Walked(p, required, l, k) && !FreshDistinct(required[..k + 1], p.items)
    ensures var c := Cell(l, p.items, required[k], Produced(0));
            c.failed > 0 && PaidTwice(c.log)
  {
    var role := required[k];
    if FreshDistinct(required[..k], p.items) {
      RepeatIsLast(required, p.items, k);
      SecondCall(p, l, role);
    } else {
      PaidTwiceGrows(l.log, Attempt(role, false));
      PaidTwiceGrows(l.log, Attempt(role, true));
    }
  }

  lemma ProducedStep(p: Pack, required: seq<Role>, l: Loop, k: nat)
    requires k < |required| && Walked(p, required, l, k)
    ensures Walked(p, required, Cell(l, p.items, required[k], Produced(0)), k + 1)
  {
    ProducedAccounted(p, l, required[k]);
    if !FreshDistinct(required[..k + 1], p.items) {
      ProducedRepeats(p, required, l, k);
    } else {
      FreshDistinctPrefix(required, k, p.items);
    }
  }

  lemma FreshDistinctPrefix(required: seq<Role>, k: nat, items: seq<Item>)
    requires k < |required| && FreshDistinct(required[..k + 1], items)
    ensures FreshDistinct(required[..k], items)
  {
    forall i, j | 0 <= i < j < k && required[..k][i] == required[..k][j] ensures Has(items, required[..k][i]) {
      assert required[..k + 1][i] == required[..k + 1][j];
    }
  }

  /** If a repeat of a lacking role first shows at position k, that role occurs before k. */
  lemma RepeatIsLast(required: seq<Role>, items: seq<Item>, k: nat)
    requires k < |required| && FreshDistinct(required[..k], items) && !FreshDistinct(required[..k + 1], items)
    ensures !Has(items, required[k]) && exists i :: 0 <= i < k && required[i] == required[k]
  {
    forall i, j | 0 <= i < j < k && required[i] == required[j] ensures Has(items, required[i]) {
      assert required[..k][i] == required[..k][j];
    }
    var i, j :| 0 <= i < j < k + 1 && required[..k + 1][i] == required[..k + 1][j] && !Has(items, required[..k + 1][i]);
    assert required[i] == required[j] && !Has(items, required[i]);
  }

  lemma {:induction false} AllProducedWalk(p: Pack, required: seq<Role>, k: nat)
    requires k <= |required| && UniqueRoles(p.items) && p.log == []
    ensures Walked(p, required, FanOut(p, required, AllProduced(|required|), k), k)
  {
    if k > 0 {
      AllProducedWalk(p, required, k - 1);
      ProducedStep(p, required, FanOut(p, required, AllProduced(|required|), k - 1), k - 1);
    }
  }

  lemma AllProducedLoop(p: Pack, required: seq<Role>, l: Loop)
    requires required != [] && UniqueRoles(p.items) && !FreshDistinct(required, p.items)
    requires l == FanOut(p, required, AllProduced(|required|), |required|)
    ensures l.halt == Going && l.failed > 0 && l.succeeded != [] && UniqueRoles(l.items)
    ensures Lacking(required, l.items) == [] && Having(required, l.items) == required
    ensures p.log <= l.log && PaidTwice(l.log[|p.log|..])
  {
    AllProducedWalk(p.(log := []), required, |required|);
    LogIsApart(p, required, AllProduced(|required|), |required|);
    assert required[..|required|] == required;
    assert l.log[|p.log|..] == FanOut(p.(log := []), required, AllProduced(|required|), |required|).log;
    AllHave(required, l.items);
  }

  /**
   * A role required twice and not yet delivered is generated twice, its second item refused:
   * nothing is lacking, yet the pack warns.
   */
  lemma DuplicatesWarn(p: Pack, required: seq<Role>)
    requires p.job == Active && required != [] && UniqueRoles(p.items) && !FreshDistinct(required, p.items)
    ensures FanOut(p, required, AllProduced(|required|), |required|).halt == Going
    ensures var q := Run(p, required, AllProduced(|required|), 3);
            && q.status == CompletedWithWarnings && Lacking(required, q.items) == [] && Having(required, q.items) != []
            && UniqueRoles(q.items) && p.log <= q.log && PaidTwice(q.log[|p.log|..])
  {
    AllProducedLoop(p, required, FanOut(p, required, AllProduced(|required|), |required|));
  }

  lemma {:induction false} AllHave(required: seq<Role>, items: seq<Item>)
    requires forall j :: 0 <= j < |required| ==> Has(items, required[j])
    ensures Lacking(required, items) == [] && Having(required, items) == required
  {
    if required != [] {
      AllHave(required[..|required| - 1], items);
    }
  }

  lemma EmptyOrMember<T>(s: seq<T>)
    ensures s == [] || s[0] in s
  {}

  ghost predicate AlwaysExact(p: Pack, required: seq<Role>) {
    forall outcomes: seq<Outcome> ::
      |outcomes| == |required| && FanOut(p, required, outcomes, |required|).halt == Going ==>
        SettledExactly(Run(p, required, outcomes, 3), required)
  }

  /**
   * The ending matches what was delivered, whatever happens to each role, exactly when no role
   * still to be generated is required twice: otherwise the second occurrence is paid for,
   * refused by the unique key, and reported as a warning on a pack that lacks nothing.
   */
  lemma ExactExactlyWhenDistinct(p: Pack, required: seq<Role>)
    requires p.job == Active && UniqueRoles(p.items) && required != []
    ensures FreshDistinct(required, p.items) <==> AlwaysExact(p, required)
  {
    if FreshDistinct(required, p.items) {
      forall outcomes: seq<Outcome>
        | |outcomes| == |required| && FanOut(p, required, outcomes, |required|).halt == Going
        ensures SettledExactly(Run(p, required, outcomes, 3), required)
      {
        FinishesExactly(p, required, outcomes, 3);
      }
    } else {
      DuplicatesWarn(p, required);
    }
  }

  // Runs cut short --------------------------------------------------------------------

  /** The first position whose role is generated and rejected, or refused by the call cap; every generated role before it went on. */
  ghost predicate RefusedAt(items: seq<Item>, required: seq<Role>, outcomes: seq<Outcome>, h: nat) {
    && h < |required| == |outcomes|
    && !Has(items, required[h]) && (outcomes[h].PolicyRejected? || outcomes[h].CapReached?)
    && forall k :: 0 <= k < h ==> Has(items, required[k]) || outcomes[k].Produced? || outcomes[k].ItemFailed?
  }

  lemma {:induction false} GoesOn(p: Pack, required: seq<Role>, outcomes: seq<Outcome>, k: nat)
    requires k <= |required| == |outcomes|
    requires forall j :: 0 <= j < k ==> Has(p.items, required[j]) || outcomes[j].Produced? || outcomes[j].ItemFailed?
    ensures FanOut(p, required, outcomes, k).halt == Going
  {
    if k > 0 {
      GoesOn(p, required, outcomes, k - 1);
    }
  }

  lemma {:induction false} HaltsSomewhere(p: Pack, required: seq<Role>, outcomes: seq<Outcome>, k: nat) returns (h: nat)
    requires k <= |required| == |outcomes| && FanOut(p, required, outcomes, k).halt != Going
    ensures h < k && FanOut(p, required, outcomes, h + 1).halt == FanOut(p, required, outcomes, k).halt
    ensures FanOut(p, required, outcomes, h).halt == Going
  {
    if FanOut(p, required, outcomes, k - 1).halt == Going {
      h := k - 1;
    } else {
      h := HaltsSomewhere(p, required, outcomes, k - 1);
    }
  }

  lemma {:induction false} WentOn(p: Pack, required: seq<Role>, outcomes: seq<Outcome>, k: nat)
    requires k <= |required| == |outcomes| && FanOut(p, required, outcomes, k).halt == Going
    ensures forall j :: 0 <= j < k ==> Has(p.items, required[j]) || outcomes[j].Produced? || outcomes[j].ItemFailed?
  {
    if k > 0 {
      WentOn(p, required, outcomes, k - 1);
    }
  }

  lemma RefusedLoop(p: Pack, required: seq<Role>, outcomes: seq<Outcome>, h: nat)
    requires |required| == |outcomes| && RefusedAt(p.items, required, outcomes, h)
    ensures var l, m := FanOut(p, required, outcomes, h), FanOut(p, required, outcomes, |required|);
            && l.halt == Going && m.halt == Refused && m.items == l.items
            && m.delivered == l.delivered && m.succeeded == l.succeeded && m.failed == l.failed
  {
    GoesOn(p, required, outcomes, h);
    HaltedStays(p, required, outcomes, h + 1);
  }

  lemma RefusedSomewhere(p: Pack, required: seq<Role>, outcomes: seq<Outcome>) returns (h: nat)
    requires |required| == |outcomes| && FanOut(p, required, outcomes, |required|).halt == Refused
    ensures RefusedAt(p.items, required, outcomes, h)
  {
    h := HaltsSomewhere(p, required, outcomes, |required|);
    WentOn(p, required, outcomes, h);
  }

  /** The loop ends refused exactly when some position is the first refused one. */
  lemma RefusedExactly(p: Pack, required: seq<Role>, outcomes: seq<Outcome>)
    requires |required| == |outcomes|
    ensures FanOut(p, required, outcomes, |required|).halt == Refused <==>
            exists h :: RefusedAt(p.items, required, outcomes, h)
  {
    if FanOut(p, required, outcomes, |required|).halt == Refused {
      var h := RefusedSomewhere(p, required, outcomes);
    }
    if h: nat :| RefusedAt(p.items, required, outcomes, h) {
      RefusedLoop(p, required, outcomes, h);
    }
  }

  lemma {:induction false} HavingSplit(front: seq<Role>, back: seq<Role>, items: seq<Item>)
    ensures Having(front + back, items) == Having(front, items) + Having(back, items)
  {
    if back == [] {
      assert front + back == front;
    } else {
      var init := back[..|back| - 1];
      assert (front + back)[..|front + back| - 1] == front + init;
      HavingSplit(front, init, items);
    }
  }

  lemma RestHaving(required: seq<Role>, h: nat, items: seq<Item>)
    requires h <= |required|
    ensures Having(required[..h], items) == Having(required, items) <==>
            forall k :: h <= k < |required| ==> !Has(items, required[k])
  {
    var front, back := required[..h], required[h..];
    assert required == front + back;
    HavingSplit(front, back, items);
    Partition(back, items);
    EmptyOrMember(Having(back, items));
    forall k | h <= k < |required| && Has(items, required[k]) ensures required[k] in Having(back, items) {
      assert back[k - h] == required[k];
    }
  }

  /** From the first refused position on, a role has an item after the loop only if it had one before. */
  lemma LaterUntouched(p: Pack, required: seq<Role>, outcomes: seq<Outcome>, h: nat, k: nat)
    requires p.log == [] && UniqueRoles(p.items) && FreshDistinct(required, p.items)
    requires RefusedAt(p.items, required, outcomes, h) && h <= k < |required|
    ensures Has(FanOut(p, required, outcomes, h).items, required[k]) <==> Has(p.items, required[k])
  {
    FanOutKeeps(p.items, p, required, outcomes, h);
    var l := FanOut(p, required, outcomes, h);
    if Has(p.items, required[k]) {
      HasPrefix(p.items, l.items, required[k]);
    }
  }

  /**
   * A refused run fails the job and records as delivered only the roles before the first refused
   * one; that record is exact if and only if no later role had an item when the run began.
   */
  lemma RefusedReport(p: Pack, required: seq<Role>, outcomes: seq<Outcome>, writes: nat, h: nat)
    requires |required| == |outcomes| && p.job == Active && writes >= 3
    requires UniqueRoles(p.items) && FreshDistinct(required, p.items) && RefusedAt(p.items, required, outcomes, h)
    ensures var q := Run(p, required, outcomes, writes);
            && q.job == JobFailed && q.status == PackFailed
            && q.delivered == Having(required[..h], q.items) && q.missing == MissingRoles(required, q.delivered)
            && (q.delivered == Having(required, q.items) <==> forall k :: h < k < |required| ==> !Has(p.items, required[k]))
  {
    var q := p.(log := []);
    LogIsApart(p, required, outcomes, |required|);
    RefusedLoop(q, required, outcomes, h);
    FanOutTallied(p, required, outcomes, h);
    var items := FanOut(q, required, outcomes, h).items;
    forall k | h <= k < |required| ensures Has(items, required[k]) <==> Has(p.items, required[k]) {
      LaterUntouched(q, required, outcomes, h, k);
    }
    RestHaving(required, h, items);
    var l := FanOut(p, required, outcomes, |required|);
    RefusedSettles(p.(status := InProgress, items := items, log := l.log), l, required, writes);
  }

  lemma RefusedSettles(p: Pack, l: Loop, required: seq<Role>, writes: nat)
    requires l.halt == Refused && writes >= 3
    ensures Settle(p, l, required, writes)
         == p.(delivered := l.delivered, missing := MissingRoles(required, l.delivered), job := JobFailed, status := PackFailed)
  {}

  /** A pack that reuses its second role and whose first is rejected reports both as missing. */
  lemma ReusedReportedMissing(p: Pack, a: Role, b: Role, o: Outcome)
    requires a != b && p.job == Active && p.items == [Item(b, 7)]
    ensures var q := Run(p, [a, b], [PolicyRejected, o], 3);
            q.job == JobFailed && Having([a, b], q.items) == [b] && q.delivered == [] && q.missing == [a, b]
  {
    var required, outcomes := [a, b], [PolicyRejected, o];
    HasAt(p.items, 0);
    OneOfTwo(a, b, p.items);
    assert RefusedAt(p.items, required, outcomes, 0);
    RefusedReport(p, required, outcomes, 3, 0);
    RefusedLoop(p, required, outcomes, 0);
    assert required[..0] == [];
  }

  lemma OneOfTwo(a: Role, b: Role, items: seq<Item>)
    requires !Has(items, a) && Has(items, b)
    ensures Having([a, b], items) == [b] && MissingRoles([a, b], []) == [a, b]
  {
    assert [a, b][..1] == [a] && [a][..0] == [];
    assert Having([a], items) == [];
    assert MissingRoles([a], []) == MissingRoles([a][..0], []) + [a] == [a];
  }

  // Requested roles -------------------------------------------------------------------

  const MAX_PACK_VARIANTS := 12

  datatype Plan = Roles(roles: seq<Role>) | EmptyKey | TooMany

  /** The first occurrence of every role, in order. */
  function Distinct(source: seq<Role>): seq<Role> {
    if source == [] then []
    else
      var seen, last := Distinct(source[..|source| - 1]), source[|source| - 1];
      if last in seen then seen else seen + [last]
  }

  function PlanOf(source: seq<Role>): Plan {
    if "" in source then EmptyKey
    else if |Distinct(source)| > MAX_PACK_VARIANTS then TooMany
    else Roles(Distinct(source))
  }

  /** No role twice, none lost, none added, each where it first occurred; and once is enough. */
  lemma {:induction false} DistinctMeans(source: seq<Role>, k: nat)
    requires k <= |source|
    ensures var d := Distinct(source);
            && (forall i, j :: 0 <= i < j < |d| ==> d[i] != d[j])
            && (forall r :: r in d <==> r in source)
            && Distinct(source[..k]) <= d
  {
    if source != [] {
      var init, last := source[..|source| - 1], source[|source| - 1];
      assert source == init + [last];
      if k == |source| {
        assert source[..k] == source;
        DistinctMeans(init, 0);
      } else {
        assert source[..k] == init[..k];
        DistinctMeans(init, k);
      }
    }
  }

  /** The keys a request names. */
  ghost function Named(source: seq<Role>): set<Role> {
    set r | r in source
  }

  lemma {:induction false} DistinctCounts(source: seq<Role>)
    ensures |Distinct(source)| == |Named(source)|
  {
    if source != [] {
      var init, last := source[..|source| - 1], source[|source| - 1];
      DistinctCounts(init);
      DistinctMeans(init, 0);
      assert source == init + [last];
      assert Named(source) == Named(init) + {last};
    }
  }

  /** A list is refused for an empty key anywhere in it, else for naming more than twelve keys; else it is planned. */
  lemma PlanDecides(source: seq<Role>)
    ensures PlanOf(source) == EmptyKey <==> exists k :: 0 <= k < |source| && source[k] == ""
    ensures PlanOf(source) == TooMany <==> (forall k :: 0 <= k < |source| ==> source[k] != "") && |Named(source)| > 12
    ensures PlanOf(source).Roles? <==> (forall k :: 0 <= k < |source| ==> source[k] != "") && |Named(source)| <= 12
  {
    DistinctCounts(source);
  }

  /** Whatever list a request carries, a pack planned from it ends exactly: its roles are distinct. */
  lemma RequestedPacksEndExactly(p: Pack, source: seq<Role>, tries: seq<Try>, outcomes: seq<Outcome>, writes: nat)
    requires PlanOf(source).Roles? && p.log == [] && UniqueRoles(p.items)
    requires forall t :: t in tries ==> |t.outcomes| == |Distinct(source)|
    requires |outcomes| == |Distinct(source)| && writes >= 3 && Runs(p, PlanOf(source).roles, tries).job == Active
    requires FanOut(Runs(p, PlanOf(source).roles, tries), PlanOf(source).roles, outcomes, |outcomes|).halt == Going
    ensures SettledExactly(Run(Runs(p, PlanOf(source).roles, tries), PlanOf(source).roles, outcomes, writes), PlanOf(source).roles)
  {
    DistinctMeans(source, 0);
    ResumedEndsExactly(p, PlanOf(source).roles, tries, outcomes, writes);
  }

  method DedupVariants(source: seq<Role>) returns (plan: Plan)
    ensures plan == PlanOf(source)
  {
    var out := [];
    var i := 0;
    while i < |source|
      invariant 0 <= i <= |source| && "" !in source[..i] && out == Distinct(source[..i])
    {
      assert source[..i + 1] == source[..i] + [source[i]];
      if source[i] == "" {
        return EmptyKey;
      }
      if source[i] !in out {
        out := out + [source[i]];
      }
      i := i + 1;
    }
    assert source[..i] == source;
    plan := if |out| > MAX_PACK_VARIANTS then TooMany else Roles(out);
  }

  // The worker ------------------------------------------------------------------------

  class PackJob {
    var items: seq<Item>
    var status: PackStatus
    var delivered: seq<Role>
    var missing: seq<Role>
    var job: JobState
    var finals: seq<nat>
    var log: seq<Attempt>

    ghost function Now(): Pack
      reads this
    {
      Pack(items, status, delivered, missing, job, finals, log)
    }

    method Missing(required: seq<Role>, have: seq<Role>) returns (lacking: seq<Role>)
      ensures lacking == MissingRoles(required, have)
    {
      lacking := [];
      var i := 0;
      while i < |required|
        invariant 0 <= i <= |required| && lacking == MissingRoles(required[..i], have)
      {
        assert required[..i + 1][..i] == required[..i];
        if required[i] !in have {
          lacking := lacking + [required[i]];
        }
        i := i + 1;
      }
      assert required[..i] == required;
    }

    /** One variant end to end: the provider call, then asset and item in one transaction that reads the job's state. */
    method GeneratePackItem(role: Role, o: Outcome) returns (stored: bool, halt: Halt)
      modifies this`items, this`log, this`job
      ensures var l := Cell(Loop(old(items), old(log), [], [], 0, Going), [], role, o);
              && items == l.items && log == l.log && halt == l.halt
              && job == (if halt.Stopped? then halt.now else old(job))
              && stored == (o.Produced? && l.failed == 0)
    {
      stored, halt := false, Going;
      match o
      case CrashBefore =>
        halt := Crashed;
      case CapReached =>
        halt := Refused;
      case CrashDuring =>
        log := log + [Attempt(role, false)];
        halt := Crashed;
      case PolicyRejected =>
        log := log + [Attempt(role, false)];
        halt := Refused;
      case NoLongerActive(now) =>
        log := log + [Attempt(role, false)];
        halt := Stopped(now);
        job := now;
      case ItemFailed =>
        log := log + [Attempt(role, false)];
      case Produced(asset) =>
        var k := 0;
        while k < |items| && items[k].role != role
          invariant k <= |items| && forall j :: 0 <= j < k ==> items[j].role != role
        {
          k := k + 1;
        }
        stored := k == |items|;
        log := log + [Attempt(role, stored)];
        if stored {
          items := items + [Item(role, asset)];
        }
    }

    /** One delivery of the pack task. */
    method ProcessPack(required: seq<Role>, outcomes: seq<Outcome>, writes: nat)
      requires |outcomes| == |required|
      modifies this
      ensures Now() == Run(old(Now()), required, outcomes, writes)
    {
      if job == JobCompleted || job == JobCancelled {
        return;
      }
      if job == JobFailed {
        status := PackFailed;
        return;
      }
      status := InProgress;
      ghost var p := old(Now());
      var start := items;
      var succeeded, have, failed, halt := [], [], 0, Going;
      var i: nat := 0;
      while i < |required| && halt == Going
        invariant i <= |required| && start == p.items && (halt == Going || i > 0)
        invariant FanOut(p, required, outcomes, i) == Loop(items, log, succeeded, have, failed, halt)
        invariant Now() == p.(status := InProgress, items := items, log := log,
                              job := if halt.Stopped? then halt.now else p.job)
      {
        var role := required[i];
        if Has(start, role) {
          succeeded := succeeded + [AssetOf(start, role)];
          have := have + [role];
        } else {
          var stored: bool;
          stored, halt := GeneratePackItem(role, outcomes[i]);
          if stored {
            succeeded := succeeded + [outcomes[i].asset];
            have := have + [role];
          } else if halt == Going {
            failed := failed + 1;
          }
        }
        i := i + 1;
      }
      HaltedStays(p, required, outcomes, i);
      if halt == Crashed || halt.Stopped? {
        return;
      }
      CloseRun(required, Loop(items, log, succeeded, have, failed, halt), writes);
    }

    /** The closing writes, in the order of the branch that is taken. */
    method CloseRun(required: seq<Role>, l: Loop, writes: nat)
      modifies this`status, this`delivered, this`missing, this`job, this`finals
      ensures Now() == Settle(old(Now()), l, required, writes)
    {
      if writes == 0 {
        return;
      }
      delivered := l.delivered;
      missing := Missing(required, l.delivered);
      if writes == 1 {
        return;
      }
      if l.halt == Refused {
        job := JobFailed;
        if writes > 2 {
          status := PackFailed;
        }
        return;
      }
      status := SettledStatus(l);
      if writes == 2 {
        return;
      }
      if |l.succeeded| == 0 {
        job := JobFailed;
      } else {
        job := JobCompleted;
        finals := l.succeeded;
      }
    }
  }

  lemma {:induction false} HaltedStays(p: Pack, required: seq<Role>, outcomes: seq<Outcome>, k: nat)
    requires k <= |required| == |outcomes|
    requires k == |required| || FanOut(p, required, outcomes, k).halt != Going
    ensures FanOut(p, required, outcomes, |required|) == FanOut(p, required, outcomes, k)
    decreases |required| - k
  {
    if k < |required| {
      HaltedStays(p, required, outcomes, k + 1);
    }
  }
}
