/** What each locked step of the sync does to a Subscription row, as functions on
    the row. The class Subscription refines them; the run theorems use them. */
module BillingSnapshot {
  import opened Common
  import opened BillingTypes

  /** A step's result: the row as saved, and the SnapshotResult flags. `advanced`
      says that a new paid period was taken. */
  datatype Applied = Applied(row: Row, changed: bool, settled: bool, advanced: bool)

  function Unsettled(r: Row): Applied { Applied(r, false, false, false) }

  function Audit(r: Row, a: Action): Row { r.(log := r.log + [a]) }

  // --- the main subscription ---

  function TakePlan(r: Row, plan: Plan): Row {
    r.(plan := plan, pending := if r.pending == Some(plan) then None else r.pending)
  }

  function ClearGrace(r: Row): Row { r.(pastDueAt := None, dunning := None) }

  predicate SamePeriod(r: Row, start: Time) {
    r.status.Active? && r.periodStart == Some(start)
  }

  /** Provider `active`. `isSwitch` marks the call made by a replacement switch. */
  function ApplyActive(r: Row, e: Entity, invoices: Option<seq<Invoice>>, plan: Plan, isSwitch: bool): Applied {
    var start, end := FromUnix(e.currentStart), FromUnix(e.currentEnd);
    if start.None? || end.None? || end.value <= start.value then Unsettled(r)
    else if SamePeriod(r, start.value) then
      if r.plan != plan then Applied(Audit(TakePlan(r, plan), PlanChanged), true, true, false)
      else if r.pending == Some(plan) then Applied(r.(pending := None), true, true, false)
      else Applied(r, false, true, false)
    else if PeriodPaid(e, invoices).None? then Unsettled(r)
    else Applied(TakePaidPeriod(r, plan, start.value, end.value, isSwitch), true, true, true)
  }

  /** A proven paid period: the plan and the period are taken and the row is ACTIVE. */
  function TakePaidPeriod(r: Row, plan: Plan, start: Time, end: Time, isSwitch: bool): Row {
    var taken := TakePlan(r, plan).(periodStart := Some(start), periodEnd := Some(end));
    var planChange := if r.plan != plan then [PlanChanged] else [];
    match r.status
    case Active => taken.(log := r.log + planChange)
    case PastDue =>
      ClearGrace(taken).(status := Active, log := r.log + [Recovered] + if isSwitch then planChange else [])
    case _ => taken.(status := Active, cancelAtEnd := false, log := r.log + [Activated])
  }

  /** Provider `pending` or `halted`: an ACTIVE row enters the grace period. */
  function ApplyPaymentFailed(r: Row, now: Time): Row {
    if r.status.Active?
    then Audit(r.(status := PastDue, pastDueAt := Some(now), dunning := Some(0)), WentPastDue)
    else r
  }

  /** Rule 5: only an ACTIVE row with a committed replacement defers the old terminal status. */
  predicate CommittedDowngrade(r: Row) {
    r.status.Active? && r.repl.Some? && r.committedAt.Some?
  }

  predicate GraceOver(r: Row, now: Time) {
    r.pastDueAt.Some? && now >= r.pastDueAt.value + GRACE
  }

  function ApplyTerminal(r: Row, now: Time): Row {
    match r.status
    case Active => Audit(r.(status := Cancelled), WasCancelled)
    case PastDue =>
      if GraceOver(r, now) then Audit(ClearGrace(r).(status := Expired), WasExpired)
      else Audit(ClearGrace(r).(status := Cancelled), WasCancelled)
    case _ => r
  }

  // --- the replacement's departure ---

  /** The re-read of the replacement: None when it failed, names another
      subscription or carries no status. */
  function Refetch(r: Row, answer: Option<Entity>): Option<Entity> {
    if answer.Some? && answer.value.id == r.repl && answer.value.status.Some? then answer else None
  }

  /** The local move to the retired slot. The replacement's events are closed. */
  function Retire(r: Row, e: Entity, env: Env): Row
    requires r.repl.Some?
  {
    var target := if r.replPlan.Some? then r.replPlan else LookupPlan(env, e.planId);
    r.(retired := r.repl, retiredKind := Some(AbandonedReplacement),
       repl := None, replPlan := None, replExpires := None, committedAt := None, confirmedAt := None,
       pending := if target.Some? && r.pending == target then None else r.pending,
       log := r.log + [ReplacementAbandoned], marks := r.marks + [r.repl.value])
  }

  datatype AbandonTest = WhenNotActive | WhenFailedOrLapsed(now: Time, expires: Option<Time>)

  predicate Abandonable(t: AbandonTest, s: ProviderStatus) {
    match t
    case WhenNotActive => NotActive(s)
    case WhenFailedOrLapsed(now, expires) =>
      Failed(s) || (s.PCreated? && expires.Some? && now >= expires.value)
  }

  /** Whether the row can give up its replacement, given its re-read. */
  predicate Abandons(r: Row, test: AbandonTest, reread: Option<Entity>) {
    && r.repl.Some? && r.committedAt.None? && r.retired.None?
    && reread.Some? && reread.value.status.Some? && Abandonable(test, reread.value.status.value)
  }

  function AbandonUnlessActive(r: Row, test: AbandonTest, reread: Option<Entity>, env: Env): Row {
    if Abandons(r, test, reread) then Retire(r, reread.value, env) else r
  }

  // --- one snapshot of the main subscription ---

  function Snapshot(r: Row, e: Entity, invoices: Option<seq<Invoice>>, started: Time, env: Env, replAnswer: Option<Entity>): Applied {
    var plan := LookupPlan(env, e.planId);
    if e.id.None? || e.id.value == "" || r.ref != e.id then Unsettled(r)
    else if r.syncedAt.Some? && started <= r.syncedAt.value then Unsettled(r)
    else if plan.None? || e.status.None? then Unsettled(r)
    else
      var status := e.status.value;
      var a := SnapshotByStatus(r, e, invoices, plan.value, env, replAnswer);
      a.(row := a.row.(
        providerStatus := Some(Recorded(status)), syncedAt := Some(started),
        usage := OpenIf(a, e.id.value), stamps := a.row.stamps + [Stamp(e.id.value, started)]))
  }

  /** A new paid period opens its UsageRecord in the same transaction. */
  function OpenIf(a: Applied, ref: Ref): seq<Opening> {
    if a.advanced && a.row.periodStart.Some? && a.row.periodEnd.Some?
    then a.row.usage + [Opening(ref, a.row.periodStart.value, a.row.periodEnd.value)]
    else a.row.usage
  }

  /** The effect of the status itself, before the fetch is stamped on the row. */
  function SnapshotByStatus(r: Row, e: Entity, invoices: Option<seq<Invoice>>, plan: Plan, env: Env, replAnswer: Option<Entity>): Applied
    requires e.status.Some?
  {
    var status := e.status.value;
    if status.PActive? then ApplyActive(r, e, invoices, plan, false)
    else
      var moved :=
        if status.PPending? || status.PHalted? then ApplyPaymentFailed(r, env.now)
        else if Terminal(status) && !CommittedDowngrade(r) then ApplyTerminal(r, env.now)
        else r;
      if moved == r then Applied(r, false, true, false)
      else Applied(AbandonUnlessActive(moved, WhenNotActive, Refetch(moved, replAnswer), env), true, true, false)
  }

  // --- one snapshot of the replacement ---

  function ReplacementSnapshot(r: Row, e: Entity, invoices: Option<seq<Invoice>>, started: Time, env: Env, answer: Option<Entity>): Applied {
    if e.id.None? || e.id.value == "" || r.repl != e.id || e.status.None? then Unsettled(r)
    else
      var status := e.status.value;
      if status.PActive? then ReplacementActive(r, e, invoices, started, env)
      else if r.committedAt.Some? then
        if Failed(status) then ClearFailedCommitted(r, env, answer) else Applied(r, false, true, false)
      else
        var test := if r.status.Active? then WhenFailedOrLapsed(env.now, r.replExpires) else WhenNotActive;
        if !Abandonable(test, status) then Applied(r, false, true, false)
        else if Abandons(r, test, Refetch(r, answer))
        then Applied(AbandonUnlessActive(r, test, Refetch(r, answer), env), true, true, false)
        else Unsettled(r)
  }

  function ClearFailedCommitted(r: Row, env: Env, answer: Option<Entity>): Applied {
    var reread := Refetch(r, answer);
    if reread.Some? && Failed(reread.value.status.value) && r.retired.None? && r.repl.Some?
    then Applied(Retire(r, reread.value, env), true, true, false)
    else Unsettled(r)
  }

  function ReplacementActive(r: Row, e: Entity, invoices: Option<seq<Invoice>>, started: Time, env: Env): Applied {
    var plan := LookupPlan(env, e.planId);
    if PeriodPaid(e, invoices).None? || plan.None? then Unsettled(r)
    else match r.status
      case Cancelled => Applied(if PaidAfterEnd in r.log then r else Audit(r, PaidAfterEnd), false, true, false)
      case Expired => Applied(if PaidAfterEnd in r.log then r else Audit(r, PaidAfterEnd), false, true, false)
      case Incomplete => Unsettled(r)
      case _ => Switch(r, e, invoices, plan.value, started)
  }

  /** The switch: the replacement becomes the current subscription and the old
      one retires, only together with a new paid period. */
  function Switch(r: Row, e: Entity, invoices: Option<seq<Invoice>>, plan: Plan, started: Time): Applied {
    var start := FromUnix(e.currentStart);
    var a := ApplyActive(r, e, invoices, plan, true);
    if r.repl.None? || start.None? || start == r.periodStart || r.retired.Some? || !a.advanced then Unsettled(r)
    else
      Applied(
        a.row.(retired := r.ref, retiredKind := Some(SwitchedOld), ref := r.repl,
               repl := None, replPlan := None, replExpires := None, committedAt := None, confirmedAt := None,
               pending := None, cancelAtEnd := false,
               providerStatus := if e.status.Some? then Some(Recorded(e.status.value)) else None,
               syncedAt := Some(started),
               usage := OpenIf(a, r.repl.value), stamps := a.row.stamps + [Stamp(r.repl.value, started)],
               marks := r.marks + if r.ref.Some? then [r.ref.value] else []),
        true, true, true)
  }

  // --- the downgrade commit point ---

  predicate IsDowngrade(r: Row) {
    r.replPlan.Some? && r.replPlan.value.price < r.plan.price
  }

  predicate CommitCandidate(r: Row) {
    r.status.Active? && r.repl.Some? && r.committedAt.None?
  }

  /** Every check of the commit verification; a missing gate, setting or field fails it. */
  predicate DowngradeVerified(r: Row, e: Entity, env: Env) {
    var margin := Window(env.downgradeWindow);
    && env.startGate && env.expiryGate && margin.Some?
    && e.status == Some(PAuthenticated)
    && r.replPlan.Some? && e.planId == r.replPlan.value.providerId
    && r.periodEnd.Some? && e.startField == r.periodEnd
    && r.replExpires.Some? && e.expiryField == r.replExpires
    && env.now < r.replExpires.value
    && env.now < r.periodEnd.value - margin.value
  }

  /** T1: the row afterwards, and whether the commit marker was written. */
  function CommitT1(r: Row, env: Env, answer: Option<Entity>): (Row, bool) {
    var reread := Refetch(r, answer);
    if !CommitCandidate(r) || !IsDowngrade(r) || reread.None? || reread.value.status != Some(PAuthenticated)
    then (r, false)
    else if DowngradeVerified(r, reread.value, env)
    then (Audit(r.(committedAt := Some(env.now)), ReplacementCommitted), true)
    else (AbandonUnlessActive(r, WhenNotActive, reread, env), false)
  }

  predicate StandsCommitted(r: Row, prior: Ref, repl: Ref) {
    r.ref == Some(prior) && r.repl == Some(repl) && r.committedAt.Some?
  }

  /** T2 after a confirmed cancel of the old subscription. */
  function CommitT2Confirmed(r: Row, prior: Ref, repl: Ref, now: Time): Row {
    if StandsCommitted(r, prior, repl) then r.(confirmedAt := Some(now)) else r
  }

  /** T2 after a definite refusal: the marker goes, then the replacement if it can. */
  function CommitT2Refused(r: Row, prior: Ref, repl: Ref, env: Env, answer: Option<Entity>): Row {
    if StandsCommitted(r, prior, repl) then
      var cleared := r.(committedAt := None);
      AbandonUnlessActive(cleared, WhenNotActive, Refetch(cleared, answer), env)
    else r
  }

  predicate NeedsReissue(r: Row) {
    r.status.Active? && r.repl.Some? && r.committedAt.Some? && r.confirmedAt.None?
  }

  function ReissueConfirmed(r: Row, prior: Ref, repl: Ref, now: Time): Row {
    if StandsCommitted(r, prior, repl) && r.confirmedAt.None? then r.(confirmedAt := Some(now)) else r
  }

  // --- the retired slot ---

  function ClearRetired(r: Row, ref: Ref): Row {
    if r.retired == Some(ref) then r.(retired := None, retiredKind := None, marks := r.marks + [ref]) else r
  }

  // --- dunning ---

  /** One checkpoint step of the grace period. */
  function AdvanceDunning(r: Row, now: Time): Row {
    if !r.status.PastDue? || r.pastDueAt.None? || r.dunning.None? then r
    else if GraceOver(r, now) then Audit(ClearGrace(r).(status := Expired), WasExpired)
    else
      var due := if now >= r.pastDueAt.value + 6 * DAY then 6 else if now >= r.pastDueAt.value + 3 * DAY then 3 else 0;
      if due > 0 && r.dunning.value < due then Audit(r.(dunning := Some(due)), DunningCheckpoint(due)) else r
  }
}
