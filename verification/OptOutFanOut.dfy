/** A STOP's fan-out: one task opts a phone out merchant by merchant, retries itself
    a bounded number of times with what failed, and may be redelivered after a crash. */
module OptOutFanOut {
  import opened Common
  import S = Sales

  type MerchantId = S.MerchantId
  type Customers = map<S.Phone, S.Customer>

  /** The numbers and merchants a STOP is resolved with. `mapped` are the merchants
      with a location on the shared number. */
  datatype Directory = Directory(
    sharedNumbers: set<string>, ownNumbers: map<string, MerchantId>, merchants: seq<MerchantId>, mapped: set<MerchantId>)

  type Books = map<MerchantId, Customers>

  const OPT_OUT_MAX_RETRIES := 5
  const LOGGED_IDS_CAP := 20

  predicate DistinctIds(ids: seq<MerchantId>) { forall i, j :: 0 <= i < j < |ids| ==> ids[i] != ids[j] }

  function ResolveTargets(d: Directory, number: string): (bool, seq<MerchantId>) {
    if number in d.sharedNumbers then (true, d.merchants)
    else (false, if number in d.ownNumbers then [d.ownNumbers[number]] else [])
  }

  /** On the shared number only a merchant that uses it, and knows the phone, is concerned. */
  predicate Concerned(d: Directory, b: Books, m: MerchantId, phone: S.Phone, shared: bool) {
    m in b && phone in b[m] && (shared ==> m in d.mapped)
  }

  /** opt_out_inbound_for_merchant. */
  function OptOutFor(d: Directory, b: Books, m: MerchantId, phone: S.Phone, shared: bool, now: S.Time): Books {
    if Concerned(d, b, m, phone, shared) then b[m := S.OptOut(b[m], phone, now)] else b
  }

  // --- one run ---

  /** What one run meets. */
  datatype Run = Run(lookupFails: bool, failing: set<MerchantId>, now: S.Time)

  /** `wanted` None means every target. */
  datatype Task =
    | Queued(wanted: Option<set<MerchantId>>, retries: nat)
    | Done
    | GaveUp(failed: Option<seq<MerchantId>>)

  function Keep(ids: seq<MerchantId>, wanted: set<MerchantId>): seq<MerchantId>
    decreases |ids|
  {
    if ids == [] then []
    else
      var last := ids[|ids| - 1];
      Keep(ids[..|ids| - 1], wanted) + if last in wanted then [last] else []
  }

  function Universe(d: Directory, number: string, wanted: Option<set<MerchantId>>): seq<MerchantId> {
    var all := ResolveTargets(d, number).1;
    if wanted.Some? then Keep(all, wanted.value) else all
  }

  /** The loop: the books after it, and who failed, in order. */
  function Sweep(d: Directory, b: Books, ids: seq<MerchantId>, phone: S.Phone, shared: bool, r: Run): (Books, seq<MerchantId>)
    decreases |ids|
  {
    if ids == [] then (b, [])
    else
      var last := ids[|ids| - 1];
      var (books, failed) := Sweep(d, b, ids[..|ids| - 1], phone, shared, r);
      if last in r.failing then (books, failed + [last]) else (OptOutFor(d, books, last, phone, shared, r.now), failed)
  }

  function Retry(failed: Option<seq<MerchantId>>, retries: nat): Task {
    if retries >= OPT_OUT_MAX_RETRIES then GaveUp(failed)
    else Queued(if failed.Some? then Some(set m | m in failed.value) else None, retries + 1)
  }

  function FanOut(d: Directory, b: Books, number: string, phone: S.Phone, wanted: Option<set<MerchantId>>, retries: nat, r: Run): (Books, Task) {
    if r.lookupFails then (b, Retry(None, retries))
    else
      var (books, failed) := Sweep(d, b, Universe(d, number, wanted), phone, ResolveTargets(d, number).0, r);
      (books, if failed == [] then Done else Retry(Some(failed), retries))
  }

  /** What the error log says when a run gives up: a capped list of ids, and the full count. */
  function LoggedIds(failed: seq<MerchantId>): seq<MerchantId> {
    if |failed| <= LOGGED_IDS_CAP then failed else failed[..LOGGED_IDS_CAP]
  }

  class FanOutTask {
    const directory: Directory
    var books: Books
    var task: Task

    constructor (d: Directory, b: Books, t: Task)
      ensures directory == d && books == b && task == t
    {
      directory, books, task := d, b, t;
    }

    method RetryFanOut(failed: Option<seq<MerchantId>>, retries: nat)
      modifies this`task
      ensures task == Retry(failed, retries)
    {
      if retries >= OPT_OUT_MAX_RETRIES {
        task := GaveUp(failed);
        return;
      }
      var ids: Option<set<MerchantId>> := None;
      if failed.Some? { ids := Some(set m | m in failed.value); }
      task := Queued(ids, retries + 1);
    }

    method FanOutInboundOptOut(number: string, phone: S.Phone, r: Run)
      requires task.Queued?
      modifies this
      ensures (books, task) == FanOut(directory, old(books), number, phone, old(task.wanted), old(task.retries), r)
    {
      var wanted, retries := task.wanted, task.retries;
      if r.lookupFails {
        RetryFanOut(None, retries);
        return;
      }
      var (shared, universe) := ResolveTargets(directory, number);
      if wanted.Some? { universe := Keep(universe, wanted.value); }
      var failed: seq<MerchantId> := [];
      for i := 0 to |universe|
        invariant (books, failed) == Sweep(directory, old(books), universe[..i], phone, shared, r)
      {
        var merchant := universe[i];
        assert universe[..i + 1][..i] == universe[..i];
        if merchant in r.failing {
          failed := failed + [merchant];
        } else if Concerned(directory, books, merchant, phone, shared) {
          books := books[merchant := S.OptOut(books[merchant], phone, r.now)];
        }
      }
      assert universe[..|universe|] == universe;
      if failed != [] { RetryFanOut(Some(failed), retries); } else { task := Done; }
    }
  }

  // --- what one sweep does ---

  lemma {:induction false} KeepIsFilter(ids: seq<MerchantId>, wanted: set<MerchantId>)
    ensures forall m :: m in Keep(ids, wanted) <==> m in ids && m in wanted
    ensures DistinctIds(ids) ==> DistinctIds(Keep(ids, wanted))
    decreases |ids|
  {
    if ids != [] {
      var n := |ids| - 1;
      KeepIsFilter(ids[..n], wanted);
      assert ids == ids[..n] + [ids[n]];
      if DistinctIds(ids) { assert ids[n] !in ids[..n]; }
    }
  }

  /** The customer row is as it must be once the merchant was handled. */
  predicate Settled(d: Directory, b: Books, m: MerchantId, phone: S.Phone, shared: bool) {
    Concerned(d, b, m, phone, shared) ==> b[m][phone].optedOut
  }

  /** How later books may differ: only the phone's row, only at a merchant that is
      concerned, only from not opted out to opted out. */
  predicate OnlyOptsOut(d: Directory, b: Books, later: Books, targets: seq<MerchantId>, phone: S.Phone, shared: bool) {
    && later.Keys == b.Keys
    && (forall m :: m in b ==> later[m].Keys == b[m].Keys)
    && (forall m, p :: m in b && p in b[m] && later[m][p] != b[m][p] ==>
          && m in targets && p == phone && (shared ==> m in d.mapped)
          && !b[m][p].optedOut && later[m][p].optedOut
          && later[m][p].(optedOut := false, optedOutAt := b[m][p].optedOutAt) == b[m][p])
  }

  lemma {:induction false} SweepReports(d: Directory, b: Books, ids: seq<MerchantId>, phone: S.Phone, shared: bool, r: Run)
    ensures var failed := Sweep(d, b, ids, phone, shared, r).1;
            (forall m :: m in failed <==> m in ids && m in r.failing) && (DistinctIds(ids) ==> DistinctIds(failed))
    decreases |ids|
  {
    hide OptOutFor;
    if ids != [] {
      var n := |ids| - 1;
      SweepReports(d, b, ids[..n], phone, shared, r);
      assert ids == ids[..n] + [ids[n]];
      if DistinctIds(ids) {
        assert ids[n] !in ids[..n];
        assert ids[n] !in Sweep(d, b, ids[..n], phone, shared, r).1;
        assert DistinctIds(ids[..n]);
      }
    }
  }

  lemma HandlingSettles(d: Directory, b: Books, m: MerchantId, phone: S.Phone, shared: bool, now: S.Time, targets: seq<MerchantId>)
    ensures var books := OptOutFor(d, b, m, phone, shared, now);
            && Settled(d, books, m, phone, shared)
            && (forall n :: Settled(d, b, n, phone, shared) ==> Settled(d, books, n, phone, shared))
            && (m in targets ==> OnlyOptsOut(d, b, books, targets, phone, shared))
  {
  }

  lemma OptsOutTwice(d: Directory, b: Books, b1: Books, b2: Books, targets: seq<MerchantId>, phone: S.Phone, shared: bool)
    requires OnlyOptsOut(d, b, b1, targets, phone, shared) && OnlyOptsOut(d, b1, b2, targets, phone, shared)
    ensures OnlyOptsOut(d, b, b2, targets, phone, shared)
  {
    forall m: MerchantId, p: S.Phone | m in b && p in b[m] && b2[m][p] != b[m][p]
      ensures && m in targets && p == phone && (shared ==> m in d.mapped)
              && !b[m][p].optedOut && b2[m][p].optedOut
              && b2[m][p].(optedOut := false, optedOutAt := b[m][p].optedOutAt) == b[m][p]
    {
      if b1[m][p] == b[m][p] { assert b2[m][p] != b1[m][p]; } else { assert b2[m][p] == b1[m][p]; }
    }
  }

  lemma {:induction false} SweepSettles(d: Directory, b: Books, ids: seq<MerchantId>, phone: S.Phone, shared: bool, r: Run, targets: seq<MerchantId>)
    requires forall m :: m in ids ==> m in targets
    ensures var books := Sweep(d, b, ids, phone, shared, r).0;
            && (forall m :: m in ids && m !in r.failing ==> Settled(d, books, m, phone, shared))
            && (forall m :: Settled(d, b, m, phone, shared) ==> Settled(d, books, m, phone, shared))
            && OnlyOptsOut(d, b, books, targets, phone, shared)
    decreases |ids|
  {
    if ids != [] {
      hide OptOutFor, Settled;
      var n := |ids| - 1;
      SweepSettles(d, b, ids[..n], phone, shared, r, targets);
      hide OnlyOptsOut;
      assert ids == ids[..n] + [ids[n]];
      var before := Sweep(d, b, ids[..n], phone, shared, r).0;
      HandlingSettles(d, before, ids[n], phone, shared, r.now, targets);
      if ids[n] !in r.failing { OptsOutTwice(d, b, before, OptOutFor(d, before, ids[n], phone, shared, r.now), targets, phone, shared); }
    }
  }

  /** Handling a settled merchant again changes nothing, at any later time. */
  lemma HandlingAgainChangesNothing(d: Directory, b: Books, m: MerchantId, phone: S.Phone, shared: bool, now: S.Time)
    ensures Settled(d, b, m, phone, shared) <==> OptOutFor(d, b, m, phone, shared, now) == b
  {
    if Concerned(d, b, m, phone, shared) && !b[m][phone].optedOut {
      assert OptOutFor(d, b, m, phone, shared, now)[m][phone].optedOut;
    }
  }

  /** A redelivered or manually re-driven run over merchants that are all settled,
      any number of times each, leaves every row - and the first opted_out_at. */
  lemma {:induction false} RedeliveryChangesNothing(d: Directory, b: Books, ids: seq<MerchantId>, phone: S.Phone, shared: bool, r: Run)
    requires forall m :: m in ids ==> Settled(d, b, m, phone, shared)
    ensures Sweep(d, b, ids, phone, shared, r).0 == b
    decreases |ids|
  {
    if ids != [] {
      var n := |ids| - 1;
      assert ids[n] in ids;
      RedeliveryChangesNothing(d, b, ids[..n], phone, shared, r);
      HandlingAgainChangesNothing(d, b, ids[n], phone, shared, r.now);
    }
  }

  // --- the chain ---

  /** `queue` holds the live messages and `reports` what the runs that gave up logged
      and raised; `handled` are the merchants some run handled without an exception,
      `runs` counts completed runs and `lost` the acknowledgements lost after one. */
  datatype World = World(
    d: Directory, number: string, phone: S.Phone, b: Books,
    queue: seq<Task>, reports: seq<Task>, handled: set<MerchantId>, runs: nat, lost: nat)

  /** A worker takes any live message. It completes the run and acknowledges it; or
      completes it, publishes its retry and dies before the acknowledgement, so that
      the message is redelivered beside the retry; or dies after `k` merchants. */
  datatype Step = Complete(i: nat, r: Run) | Unacknowledged(i: nat, r: Run) | Crash(i: nat, r: Run, k: nat)

  function Prefix(ids: seq<MerchantId>, k: nat): seq<MerchantId> { if k <= |ids| then ids[..k] else ids }

  function Without(q: seq<Task>, i: nat): seq<Task>
    requires i < |q|
  {
    q[..i] + q[i + 1..]
  }

  function Targets(w: World): seq<MerchantId> { ResolveTargets(w.d, w.number).1 }

  function Shared(w: World): bool { ResolveTargets(w.d, w.number).0 }

  /** One completed run of message t, leaving `rest` in the queue beside what it publishes. */
  function Deliver(w: World, t: Task, rest: seq<Task>, r: Run): World
    requires t.Queued?
  {
    var (books, result) := FanOut(w.d, w.b, w.number, w.phone, t.wanted, t.retries, r);
    w.(b := books, runs := w.runs + 1,
       queue := rest + if result.Queued? then [result] else [],
       reports := w.reports + if result.GaveUp? then [result] else [],
       handled := if r.lookupFails then w.handled
                  else w.handled + set m | m in Universe(w.d, w.number, t.wanted) && m !in r.failing)
  }

  function Next(w: World, s: Step): World {
    if s.i >= |w.queue| || !w.queue[s.i].Queued? then w
    else
      var t := w.queue[s.i];
      match s
      case Complete(i, r) => Deliver(w, t, Without(w.queue, i), r)
      case Unacknowledged(i, r) => Deliver(w, t, w.queue, r).(lost := w.lost + 1)
      case Crash(i, r, k) =>
        if r.lookupFails then w
        else
          var part := Prefix(Universe(w.d, w.number, t.wanted), k);
          w.(b := Sweep(w.d, w.b, part, w.phone, Shared(w), r).0, handled := w.handled + set m | m in part && m !in r.failing)
  }

  function RunAll(w: World, steps: seq<Step>): World
    decreases |steps|
  {
    if steps == [] then w else RunAll(Next(w, steps[0]), steps[1..])
  }

  predicate Initial(w: World) {
    w.queue == [Queued(None, 0)] && w.reports == [] && w.handled == {} && w.runs == 0 && w.lost == 0 && DistinctIds(w.d.merchants)
  }

  /** The message still asks for the merchant, or the report names it. */
  predicate Names(t: Task, m: MerchantId) {
    match t
    case Queued(wanted, _) => wanted.None? || m in wanted.value
    case Done => false
    case GaveUp(failed) => failed.None? || m in failed.value
  }

  ghost predicate Named(w: World, m: MerchantId) {
    exists t :: (t in w.queue || t in w.reports) && Names(t, m)
  }

  /** How many runs a message's chain has left. */
  function Left(t: Task): nat {
    if t.Queued? && t.retries <= OPT_OUT_MAX_RETRIES then OPT_OUT_MAX_RETRIES + 1 - t.retries else 0
  }

  function Budget(q: seq<Task>): nat { if q == [] then 0 else Left(q[0]) + Budget(q[1..]) }

  lemma {:induction false} BudgetJoins(a: seq<Task>, b: seq<Task>)
    ensures Budget(a + b) == Budget(a) + Budget(b)
  {
    if a == [] {
      assert a + b == b;
    } else {
      assert (a + b)[1..] == a[1..] + b;
      BudgetJoins(a[1..], b);
    }
  }

  lemma BudgetWithout(q: seq<Task>, i: nat)
    requires i < |q|
    ensures Budget(q) == Budget(Without(q, i)) + Left(q[i])
  {
    assert q == q[..i] + ([q[i]] + q[i + 1..]);
    BudgetJoins(q[..i], [q[i]] + q[i + 1..]);
    BudgetJoins([q[i]], q[i + 1..]);
    BudgetJoins(q[..i], q[i + 1..]);
  }

  // --- the invariant ---

  predicate QueueSound(q: seq<Task>) { forall t :: t in q ==> t.Queued? && t.retries <= OPT_OUT_MAX_RETRIES }

  predicate ReportsSound(w: World) {
    forall t :: t in w.reports ==>
      t.GaveUp? && (t.failed.Some? ==> DistinctIds(t.failed.value) && forall m :: m in t.failed.value ==> m in Targets(w))
  }

  predicate Bounded(w: World) { w.runs + Budget(w.queue) <= 6 * (w.lost + 1) }

  ghost predicate Inv(w: World) {
    && (forall m :: m in Targets(w) ==> m in w.handled || Named(w, m))
    && (forall m :: m in w.handled ==> Settled(w.d, w.b, m, w.phone, Shared(w)))
    && QueueSound(w.queue) && ReportsSound(w) && Bounded(w) && DistinctIds(Targets(w))
  }

  lemma SweepPart(w: World, ids: seq<MerchantId>, r: Run)
    requires forall m :: m in w.handled ==> Settled(w.d, w.b, m, w.phone, Shared(w))
    ensures var books := Sweep(w.d, w.b, ids, w.phone, Shared(w), r).0;
            && (forall m :: m in w.handled ==> Settled(w.d, books, m, w.phone, Shared(w)))
            && (forall m :: m in ids && m !in r.failing ==> Settled(w.d, books, m, w.phone, Shared(w)))
  {
    SweepSettles(w.d, w.b, ids, w.phone, Shared(w), r, ids);
  }

  /** A merchant the message asks for is handled by the run, or named by its outcome. */
  lemma FanOutCovers(w: World, t: Task, r: Run, m: MerchantId)
    requires t.Queued? && m in Targets(w) && Names(t, m)
    ensures || (!r.lookupFails && m in Universe(w.d, w.number, t.wanted) && m !in r.failing)
            || Names(FanOut(w.d, w.b, w.number, w.phone, t.wanted, t.retries, r).1, m)
  {
    hide OptOutFor;
    if t.wanted.Some? { KeepIsFilter(Targets(w), t.wanted.value); }
    SweepReports(w.d, w.b, Universe(w.d, w.number, t.wanted), w.phone, Shared(w), r);
  }

  lemma DeliverCovers(w: World, t: Task, rest: seq<Task>, r: Run, m: MerchantId)
    requires t.Queued? && m in Targets(w) && (m in w.handled || Named(w, m))
    requires forall u :: u in w.queue ==> u == t || u in rest
    ensures m in Deliver(w, t, rest, r).handled || Named(Deliver(w, t, rest, r), m)
  {
    var w' := Deliver(w, t, rest, r);
    var result := FanOut(w.d, w.b, w.number, w.phone, t.wanted, t.retries, r).1;
    hide FanOut, Universe;
    if m !in w.handled {
      var u :| (u in w.queue || u in w.reports) && Names(u, m);
      if u == t {
        FanOutCovers(w, t, r, m);
        if Names(result, m) { assert result in w'.queue || result in w'.reports; }
      } else {
        assert u in w'.queue || u in w'.reports;
      }
    }
  }

  /** What a run publishes or reports. */
  lemma FanOutOutcome(w: World, t: Task, r: Run)
    requires t.Queued? && t.retries <= OPT_OUT_MAX_RETRIES && DistinctIds(Targets(w))
    ensures var result := FanOut(w.d, w.b, w.number, w.phone, t.wanted, t.retries, r).1;
            && (result.Queued? ==> result.retries == t.retries + 1 <= OPT_OUT_MAX_RETRIES)
            && (result.GaveUp? && result.failed.Some? ==>
                  DistinctIds(result.failed.value) && forall m :: m in result.failed.value ==> m in Targets(w))
  {
    hide OptOutFor;
    if t.wanted.Some? { KeepIsFilter(Targets(w), t.wanted.value); }
    SweepReports(w.d, w.b, Universe(w.d, w.number, t.wanted), w.phone, Shared(w), r);
  }

  lemma DeliverBounded(w: World, t: Task, rest: seq<Task>, r: Run, lost: nat)
    requires t.Queued? && t.retries <= OPT_OUT_MAX_RETRIES && DistinctIds(Targets(w)) && QueueSound(rest) && ReportsSound(w)
    requires w.runs + Budget(rest) + Left(t) <= 6 * (lost + 1)
    ensures var w' := Deliver(w, t, rest, r).(lost := lost); QueueSound(w'.queue) && ReportsSound(w') && Bounded(w')
  {
    var result := FanOut(w.d, w.b, w.number, w.phone, t.wanted, t.retries, r).1;
    FanOutOutcome(w, t, r);
    hide FanOut, Universe;
    if result.Queued? { BudgetJoins(rest, [result]); }
    assert rest + [] == rest;
  }

  lemma DeliverSettles(w: World, t: Task, rest: seq<Task>, r: Run)
    requires t.Queued? && forall m :: m in w.handled ==> Settled(w.d, w.b, m, w.phone, Shared(w))
    ensures var w' := Deliver(w, t, rest, r);
            forall m :: m in w'.handled ==> Settled(w'.d, w'.b, m, w'.phone, Shared(w'))
  {
    hide Settled, Sweep, Universe;
    var universe := Universe(w.d, w.number, t.wanted);
    SweepPart(w, universe, r);
    var w' := Deliver(w, t, rest, r);
    assert w'.b == if r.lookupFails then w.b else Sweep(w.d, w.b, universe, w.phone, Shared(w), r).0;
    assert Shared(w') == Shared(w);
  }

  lemma DeliverKeeps(w: World, t: Task, rest: seq<Task>, r: Run, lost: nat)
    requires Inv(w) && t in w.queue
    requires QueueSound(rest) && forall u :: u in w.queue ==> u == t || u in rest
    requires w.runs + Budget(rest) + Left(t) <= 6 * (lost + 1)
    ensures Inv(Deliver(w, t, rest, r).(lost := lost))
  {
    var w' := Deliver(w, t, rest, r).(lost := lost);
    DeliverBounded(w, t, rest, r, lost);
    DeliverSettles(w, t, rest, r);
    forall m | m in Targets(w') ensures m in w'.handled || Named(w', m) {
      DeliverCovers(w, t, rest, r, m);
      NamedIgnoresLost(Deliver(w, t, rest, r), lost, m);
    }
    hide Named, Settled, Deliver, ReportsSound, Bounded, DistinctIds;
    assert w'.d == w.d && w'.number == w.number && w'.phone == w.phone by { DeliverFixes(w, t, rest, r); }
  }

  lemma DeliverFixes(w: World, t: Task, rest: seq<Task>, r: Run)
    requires t.Queued?
    ensures var w' := Deliver(w, t, rest, r); w'.d == w.d && w'.number == w.number && w'.phone == w.phone
  {
  }

  lemma NamedIgnoresLost(w: World, lost: nat, m: MerchantId)
    ensures Named(w, m) == Named(w.(lost := lost), m)
  {
  }

  lemma CrashKeeps(w: World, i: nat, r: Run, k: nat)
    requires Inv(w) && i < |w.queue|
    ensures Inv(Next(w, Crash(i, r, k)))
  {
    hide Settled, Sweep, Universe, DistinctIds, Names, Budget;
    var w' := Next(w, Crash(i, r, k));
    SweepPart(w, Prefix(Universe(w.d, w.number, w.queue[i].wanted), k), r);
    forall m | m in Targets(w) ensures m in w'.handled || Named(w', m) {
      assert m in w.handled || Named(w, m);
    }
  }

  lemma NextKeeps(w: World, s: Step)
    requires Inv(w)
    ensures Inv(Next(w, s))
    ensures Next(w, s).d == w.d && Next(w, s).number == w.number && Next(w, s).phone == w.phone
  {
    if s.i < |w.queue| {
      var t := w.queue[s.i];
      BudgetWithout(w.queue, s.i);
      match s
      case Complete(i, r) => DeliverKeeps(w, t, Without(w.queue, i), r, w.lost); DeliverFixes(w, t, Without(w.queue, i), r);
      case Unacknowledged(i, r) => DeliverKeeps(w, t, w.queue, r, w.lost + 1); DeliverFixes(w, t, w.queue, r);
      case Crash(i, r, k) => CrashKeeps(w, i, r, k);
      hide Settled, Sweep, Universe, DistinctIds, Deliver, Names, Inv;
    }
  }

  lemma InitialKeeps(w: World)
    requires Initial(w)
    ensures Inv(w)
  {
    assert Budget(w.queue) == 6;
    forall m | m in Targets(w) ensures Named(w, m) { assert w.queue[0] in w.queue && Names(w.queue[0], m); }
  }

  lemma {:induction false} RunKeeps(w: World, steps: seq<Step>)
    requires Inv(w)
    ensures Inv(RunAll(w, steps))
    ensures RunAll(w, steps).d == w.d && RunAll(w, steps).number == w.number && RunAll(w, steps).phone == w.phone
    decreases |steps|
  {
    hide Inv, Next;
    if steps != [] {
      NextKeeps(w, steps[0]);
      RunKeeps(Next(w, steps[0]), steps[1..]);
    }
  }

  // --- the promises ---

  /** However lookups, merchants, workers and acknowledgements fail: a target that is
      not settled is still asked for by a live message or named by a report - so once
      no message is live and no report names it, it is settled. A chain whose
      acknowledgements all arrive completes at most six runs, and each one lost after
      a publish adds at most six. */
  lemma ChainLosesNobody(w: World, steps: seq<Step>, m: MerchantId)
    requires Initial(w) && m in Targets(w)
    ensures var e := RunAll(w, steps);
            && (Settled(w.d, e.b, m, w.phone, Shared(w)) || Named(e, m))
            && e.runs <= 6 * (e.lost + 1)
  {
    InitialKeeps(w);
    RunKeeps(w, steps);
    hide Settled, Named, RunAll;
  }

  /** The chain ends: after that many completed runs no message is live. */
  lemma ChainEnds(w: World, steps: seq<Step>)
    requires Initial(w) && RunAll(w, steps).runs >= 6 * (RunAll(w, steps).lost + 1)
    ensures RunAll(w, steps).queue == []
  {
    InitialKeeps(w);
    RunKeeps(w, steps);
    BudgetCounts(RunAll(w, steps).queue);
    hide RunAll, Named, Settled;
  }

  lemma {:induction false} BudgetCounts(q: seq<Task>)
    requires QueueSound(q)
    ensures |q| <= Budget(q)
  {
    if q != [] {
      assert q[0] in q;
      BudgetCounts(q[1..]);
    }
  }

  /** A whole chain touches nothing but the phone's rows at concerned targets, and a
      row already opted out keeps its first time. */
  lemma {:induction false} ChainOnlyOptsOut(w: World, steps: seq<Step>)
    ensures OnlyOptsOut(w.d, w.b, RunAll(w, steps).b, Targets(w), w.phone, Shared(w))
    decreases |steps|
  {
    if steps != [] {
      var w1 := Next(w, steps[0]);
      StepOnlyOptsOut(w, steps[0]);
      ChainOnlyOptsOut(w1, steps[1..]);
      OptsOutTwice(w.d, w.b, w1.b, RunAll(w1, steps[1..]).b, Targets(w), w.phone, Shared(w));
    }
  }

  lemma StepOnlyOptsOut(w: World, s: Step)
    ensures Next(w, s).d == w.d && Next(w, s).number == w.number && Next(w, s).phone == w.phone
    ensures OnlyOptsOut(w.d, w.b, Next(w, s).b, Targets(w), w.phone, Shared(w))
  {
    if s.i < |w.queue| && w.queue[s.i].Queued? && !s.r.lookupFails {
      var t := w.queue[s.i];
      var universe := Universe(w.d, w.number, t.wanted);
      if t.wanted.Some? { KeepIsFilter(Targets(w), t.wanted.value); }
      var ids := if s.Crash? then Prefix(universe, s.k) else universe;
      assert forall m :: m in ids ==> m in Targets(w);
      SweepSettles(w.d, w.b, ids, w.phone, Shared(w), s.r, Targets(w));
    }
  }

  /** The merchants a run goes through: all of them for the shared number, else the
      own number's merchant. */
  predicate Listed(d: Directory, number: string, m: MerchantId) {
    if number in d.sharedNumbers then m in d.merchants else number in d.ownNumbers && m == d.ownNumbers[number]
  }

  /** On the shared number, only those that have a location on it are reached. */
  predicate Reaches(w: World, m: MerchantId) {
    Listed(w.d, w.number, m) && (w.number in w.d.sharedNumbers ==> m in w.d.mapped)
  }

  /** A run that cannot look its targets up changes nothing and asks for everyone
      again; any other asks again for exactly the merchants it was to handle and that
      failed; after the fifth retry the same merchants are reported instead. */
  lemma RetriesExactlyTheFailed(
      d: Directory, b: Books, number: string, phone: S.Phone, wanted: Option<set<MerchantId>>, retries: nat, r: Run)
    ensures var (books, t) := FanOut(d, b, number, phone, wanted, retries, r);
            var failed := set m | m in r.failing && Listed(d, number, m) && (wanted.Some? ==> m in wanted.value);
            if r.lookupFails then books == b && t == if retries < 5 then Queued(None, retries + 1) else GaveUp(None)
            else if failed == {} then t.Done?
            else if retries < 5 then t == Queued(Some(failed), retries + 1)
            else t.GaveUp? && t.failed.Some? && forall m :: m in t.failed.value <==> m in failed
  {
    hide OptOutFor, Sweep;
    var ids := Universe(d, number, wanted);
    if wanted.Some? { KeepIsFilter(ResolveTargets(d, number).1, wanted.value); }
    SweepReports(d, b, ids, phone, ResolveTargets(d, number).0, r);
    var failed := Sweep(d, b, ids, phone, ResolveTargets(d, number).0, r).1;
    var asked := set m | m in r.failing && Listed(d, number, m) && (wanted.Some? ==> m in wanted.value);
    forall m ensures m in failed <==> m in asked {}
    if failed != [] {
      assert failed[0] in asked;
      if retries < 5 { assert Retry(Some(failed), retries).wanted.value == asked; }
    }
  }

  /** The step is a run that got past its lookup, with no failure at this merchant. */
  predicate Ran(w: World, s: Step, m: MerchantId) {
    s.i < |w.queue| && w.queue[s.i].Queued? && !s.r.lookupFails && m !in s.r.failing
  }

  /** One merchant's row of the phone, by the run's clock. */
  lemma HandlingMeans(d: Directory, b: Books, m: MerchantId, phone: S.Phone, shared: bool, now: S.Time, n: MerchantId, p: S.Phone)
    requires n in b && p in b[n]
    ensures var books := OptOutFor(d, b, m, phone, shared, now);
            && n in books && p in books[n]
            && books[n][p] == if n == m && p == phone && (!shared || m in d.mapped) && !b[n][p].optedOut
                              then b[n][p].(optedOut := true, optedOutAt := Some(now)) else b[n][p]
  {
  }

  lemma {:induction false} SweepTimes(d: Directory, b: Books, ids: seq<MerchantId>, phone: S.Phone, shared: bool, r: Run, m: MerchantId, p: S.Phone)
    requires m in b && p in b[m]
    ensures var books := Sweep(d, b, ids, phone, shared, r).0;
            && m in books && p in books[m]
            && (books[m][p] == b[m][p] ||
                  (m !in r.failing && !b[m][p].optedOut && books[m][p] == b[m][p].(optedOut := true, optedOutAt := Some(r.now))))
    decreases |ids|
  {
    hide OptOutFor;
    if ids != [] {
      var n := |ids| - 1;
      SweepTimes(d, b, ids[..n], phone, shared, r, m, p);
      HandlingMeans(d, Sweep(d, b, ids[..n], phone, shared, r).0, ids[n], phone, shared, r.now, m, p);
    }
  }

  lemma StepTimes(w: World, s: Step, m: MerchantId, p: S.Phone)
    requires m in w.b && p in w.b[m]
    ensures var b := Next(w, s).b;
            && m in b && p in b[m]
            && (b[m][p] == w.b[m][p] ||
                  (Ran(w, s, m) && !w.b[m][p].optedOut && b[m][p] == w.b[m][p].(optedOut := true, optedOutAt := Some(s.r.now))))
  {
    hide Sweep, Universe;
    if s.i < |w.queue| && w.queue[s.i].Queued? && !s.r.lookupFails {
      var universe := Universe(w.d, w.number, w.queue[s.i].wanted);
      var ids := if s.Crash? then Prefix(universe, s.k) else universe;
      SweepTimes(w.d, w.b, ids, w.phone, Shared(w), s.r, m, p);
    }
  }

  /** The row was opted out, and nothing else of it changed, by one run's clock. */
  ghost predicate OptedOutDuring(w: World, steps: seq<Step>, m: MerchantId, was: S.Customer, row: S.Customer) {
    exists k: nat :: k < |steps| && Ran(RunAll(w, steps[..k]), steps[k], m) &&
                row == was.(optedOut := true, optedOutAt := Some(steps[k].r.now))
  }

  lemma {:induction false} ChainTimes(w: World, steps: seq<Step>, m: MerchantId, p: S.Phone)
    requires m in w.b && p in w.b[m]
    ensures var b := RunAll(w, steps).b;
            && m in b && p in b[m]
            && (b[m][p] == w.b[m][p] ||
                  (!w.b[m][p].optedOut && OptedOutDuring(w, steps, m, w.b[m][p], b[m][p])))
    decreases |steps|
  {
    hide Next, Ran;
    if steps != [] {
      var w1 := Next(w, steps[0]);
      StepTimes(w, steps[0], m, p);
      ChainTimes(w1, steps[1..], m, p);
      if w1.b[m][p] != w.b[m][p] {
        assert steps[..0] == [];
      } else if RunAll(w, steps).b[m][p] != w.b[m][p] {
        var k :| 0 <= k < |steps[1..]| && Ran(RunAll(w1, steps[1..][..k]), steps[1..][k], m) &&
          RunAll(w, steps).b[m][p] == w.b[m][p].(optedOut := true, optedOutAt := Some(steps[1..][k].r.now));
        assert steps[..k + 1][0] == steps[0] && steps[..k + 1][1..] == steps[1..][..k] && steps[1..][k] == steps[k + 1];
        assert RunAll(w, steps[..k + 1]) == RunAll(w1, steps[1..][..k]);
      }
    }
  }

  /** Every customer row after any chain. Rows of other phones, of merchants the STOP
      does not reach, and rows already opted out are as they were. A row it reaches is
      opted out at the time of a run that did not fail at its merchant, unless a live message or
      a report still names its merchant: with none left, every such row is opted out. */
  lemma StopOptsOutExactly(w: World, steps: seq<Step>, m: MerchantId, p: S.Phone)
    requires Initial(w) && m in w.b && p in w.b[m]
    ensures var e := RunAll(w, steps);
            && m in e.b && p in e.b[m]
            && (if p != w.phone || !Reaches(w, m) || w.b[m][p].optedOut then e.b[m][p] == w.b[m][p]
                else if e.b[m][p].optedOut then
                  OptedOutDuring(w, steps, m, w.b[m][p], e.b[m][p])
                else Named(e, m) && e.b[m][p] == w.b[m][p])
  {
    ChainTimes(w, steps, m, p);
    ChainOnlyOptsOut(w, steps);
    if Reaches(w, m) { ChainLosesNobody(w, steps, m); }
    hide RunAll, Named, OptedOutDuring;
  }

  // --- what the error log names ---

  predicate LogNamesAll(t: Task) {
    t.GaveUp? && t.failed.Some? ==> forall m :: m in t.failed.value ==> m in LoggedIds(t.failed.value)
  }

  /** One report's log names all its failures exactly when there are at most twenty;
      beyond that it names twenty and counts the rest. */
  lemma LogNamesEveryFailure(w: World, steps: seq<Step>, t: Task)
    requires Initial(w) && t in RunAll(w, steps).reports
    ensures t.GaveUp? && (t.failed.Some? ==> (LogNamesAll(t) <==> |t.failed.value| <= LOGGED_IDS_CAP))
  {
    InitialKeeps(w);
    RunKeeps(w, steps);
    if t.failed.Some? && |t.failed.value| > LOGGED_IDS_CAP { LongLogMisses(t.failed.value); }
  }

  lemma {:induction false} SmallerThanTargets(ids: seq<MerchantId>, targets: seq<MerchantId>)
    requires DistinctIds(ids) && forall m :: m in ids ==> m in targets
    ensures |ids| <= |targets|
    decreases |ids|
  {
    if ids != [] {
      var n := |ids| - 1;
      assert ids[n] in ids;
      var k :| 0 <= k < |targets| && targets[k] == ids[n];
      var others := targets[..k] + targets[k + 1..];
      forall m | m in ids[..n] ensures m in others {
        var i :| 0 <= i < n && ids[i] == m;
        assert m in ids;
        var j :| 0 <= j < |targets| && targets[j] == m;
        assert if j < k then others[j] == m else others[j - 1] == m;
      }
      SmallerThanTargets(ids[..n], others);
    }
  }

  /** Every call to every target fails, in every run of the chain. */
  function AllFail(targets: seq<MerchantId>, n: nat): seq<Step> {
    if n == 0 then [] else [Complete(0, Run(false, set m | m in targets, 0))] + AllFail(targets, n - 1)
  }

  lemma {:induction false} SweepAllFails(d: Directory, b: Books, ids: seq<MerchantId>, phone: S.Phone, shared: bool, r: Run)
    requires forall m :: m in ids ==> m in r.failing
    ensures Sweep(d, b, ids, phone, shared, r) == (b, ids)
    decreases |ids|
  {
    if ids != [] {
      var n := |ids| - 1;
      assert ids[n] in ids;
      SweepAllFails(d, b, ids[..n], phone, shared, r);
      assert ids == ids[..n] + [ids[n]];
    }
  }

  lemma {:induction false} KeepsAll(ids: seq<MerchantId>, wanted: set<MerchantId>)
    requires forall m :: m in ids ==> m in wanted
    ensures Keep(ids, wanted) == ids
    decreases |ids|
  {
    if ids != [] {
      var n := |ids| - 1;
      assert ids[n] in ids;
      KeepsAll(ids[..n], wanted);
      assert ids == ids[..n] + [ids[n]];
    }
  }

  lemma AllFailStep(w: World, wanted: Option<set<MerchantId>>, k: nat)
    requires k <= OPT_OUT_MAX_RETRIES && w.queue == [Queued(wanted, k)] && w.reports == [] && Targets(w) != []
    requires wanted.None? || wanted.value == set m | m in Targets(w)
    ensures var all := set m | m in Targets(w);
            var w' := Next(w, Complete(0, Run(false, all, 0)));
            && Targets(w') == Targets(w) && w'.runs == w.runs + 1
            && (if k < OPT_OUT_MAX_RETRIES then w'.queue == [Queued(Some(all), k + 1)] && w'.reports == []
                else w'.queue == [] && w'.reports == [GaveUp(Some(Targets(w)))])
  {
    var targets := Targets(w);
    var r := Run(false, set m | m in targets, 0);
    if wanted.Some? { KeepsAll(targets, wanted.value); }
    SweepAllFails(w.d, w.b, targets, w.phone, Shared(w), r);
    hide Keep, Sweep;
    assert Without(w.queue, 0) == [];
  }

  lemma {:induction false} AllFailReports(w: World, wanted: Option<set<MerchantId>>, k: nat)
    requires k <= OPT_OUT_MAX_RETRIES && w.queue == [Queued(wanted, k)] && w.reports == [] && Targets(w) != []
    requires wanted.None? || wanted.value == set m | m in Targets(w)
    ensures var e := RunAll(w, AllFail(Targets(w), 6 - k));
            e.reports == [GaveUp(Some(Targets(w)))] && e.queue == [] && e.runs == w.runs + 6 - k
    decreases 6 - k
  {
    hide Next, Targets;
    var targets := Targets(w);
    var all := set m | m in targets;
    var steps := AllFail(targets, 6 - k);
    assert steps[0] == Complete(0, Run(false, all, 0)) && steps[1..] == AllFail(targets, 5 - k);
    AllFailStep(w, wanted, k);
    var w1 := Next(w, steps[0]);
    if k < OPT_OUT_MAX_RETRIES {
      AllFailReports(w1, Some(all), k + 1);
    } else {
      assert AllFail(targets, 0) == [];
    }
  }

  /** The error log of a chain that gives up names every merchant that failed, in
      every run, if and only if the STOP has at most twenty targets. */
  lemma LogIsEnoughExactly(w: World)
    requires Initial(w)
    ensures (forall steps, t :: t in RunAll(w, steps).reports ==> LogNamesAll(t)) <==> |Targets(w)| <= LOGGED_IDS_CAP
  {
    InitialKeeps(w);
    var targets := Targets(w);
    if |targets| <= LOGGED_IDS_CAP {
      forall steps, t | t in RunAll(w, steps).reports ensures LogNamesAll(t) {
        RunKeeps(w, steps);
        if t.GaveUp? && t.failed.Some? { SmallerThanTargets(t.failed.value, targets); }
      }
    } else {
      AllFailReports(w, None, 0);
      LongLogMisses(targets);
      var t := GaveUp(Some(targets));
      assert t in RunAll(w, AllFail(targets, 6)).reports && !LogNamesAll(t);
    }
  }

  lemma LongLogMisses(ids: seq<MerchantId>)
    requires DistinctIds(ids) && |ids| > LOGGED_IDS_CAP
    ensures !LogNamesAll(GaveUp(Some(ids)))
  {
    var missed := ids[LOGGED_IDS_CAP];
    assert missed in ids && missed !in ids[..LOGGED_IDS_CAP];
  }

  /** A STOP to the shared number of twenty-one merchants. */
  function TwentyOne(): World {
    World(Directory({"number"}, map[], seq(21, i => i), {}), "number", "+10000000000", map[],
          [Queued(None, 0)], [], {}, 0, 0)
  }

  /** Six runs in which every merchant fails leave a log without the last one. */
  lemma TwentyOneAreTooMany()
    ensures var w := TwentyOne();
            var e := RunAll(w, AllFail(Targets(w), 6));
            && Initial(w) && e.runs == 6 && e.queue == []
            && e.reports == [GaveUp(Some(Targets(w)))] && 20 in Targets(w) && 20 !in LoggedIds(Targets(w))
  {
    var w := TwentyOne();
    assert Targets(w)[20] == 20;
    AllFailReports(w, None, 0);
  }
}
