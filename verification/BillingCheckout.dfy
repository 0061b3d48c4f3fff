/** The OWNER's requests: checkout, cancel and cancel-replacement. Each runs under
    the row lock in one transaction, so it is one step on the row; the provider's
    answers to the calls it makes are inputs. */
module BillingCheckout {
  import opened Common
  import opened BillingTypes
  import opened BillingSnapshot

  datatype Refusal =
    | RefusedPastDue | RefusedCancelling | RefusedActivating | RefusedUnchanged
    | RefusedUnsupportedChange | RefusedProviderState | RefusedPlanUnsupported
    | RefusedNotConfigured | RefusedUnavailable
    | RefusedInProgress | RefusedNoCreditAck
    | RefusedReplacementActivating | RefusedReplacementCommitted | RefusedNotCancellable

  /** A request's outcome. The row is what the transaction leaves even when the
      request is refused; `ended` holds the refs it cancelled at the provider at once. */
  datatype Reply = Reply(row: Row, refusal: Option<Refusal>, created: bool, ended: set<Ref>)

  function Refuse(r: Row, why: Refusal): Reply { Reply(r, Some(why), false, {}) }

  function Done(r: Row): Reply { Reply(r, None, false, {}) }

  /** The answer to a plan update of the current subscription. */
  datatype UpdateAnswer = Updated(entity: Entity) | Rejected(unsupported: bool) | NoAnswer

  /** Every provider answer a request may consume, in the order of its phases.
      None is a failed, refused or unreadable call. */
  datatype Answers = Answers(
    current: Option<Entity>, invoices: Option<seq<Invoice>>, invoicesFail: bool,
    replacement: Option<Entity>, replacementLater: Option<Entity>,
    update: UpdateAnswer, updateInvoices: Option<seq<Invoice>>, updateInvoicesFail: bool,
    started: Time, updateStarted: Time,
    cancelOk: bool, created: Option<Entity>,
    endCancelOk: bool, cancelAnswer: Option<Entity>)

  // --- reconcile ---

  predicate WellFormed(r: Row, e: Option<Entity>) {
    e.Some? && e.value.id == r.ref && e.value.status.Some?
  }

  /** Invoices are fetched only for an `active` answer about another period or a row that is not ACTIVE. */
  predicate InvoicesNeeded(status: Status, periodStart: Option<Time>, e: Entity) {
    && e.status == Some(PActive)
    && !(status.Active? && periodStart.Some? && FromUnix(e.currentStart) == periodStart)
  }

  /** The row after a request's reconcile, or None when a provider call failed. */
  function Reconcile(r: Row, a: Answers, env: Env): Option<Row> {
    if !WellFormed(r, a.current) then None
    else
      var needed := InvoicesNeeded(r.status, r.periodStart, a.current.value);
      if needed && a.invoicesFail then None
      else Some(Snapshot(r, a.current.value, if needed then a.invoices else None, a.started, env, a.replacement).row)
  }

  // --- storing a new provider subscription ---

  function StoreNew(r: Row, plan: Plan, e: Entity): Row
    requires e.id.Some?
  {
    Audit(
      r.(plan := plan, status := Incomplete, ref := e.id,
         providerStatus := if e.status.Some? then Some(Recorded(e.status.value)) else None,
         pending := None, cancelAtEnd := false, syncedAt := None, periodStart := None, periodEnd := None),
      CheckoutStarted)
  }

  /** The row inserted by a first checkout before the provider is called. */
  function BlankRow(plan: Plan): Row {
    Row(Incomplete, plan, None, false, None, None, None, None, None, None, None,
        None, None, None, None, None, None, None, [], [], [], [])
  }

  predicate Storable(e: Option<Entity>) {
    e.Some? && e.value.id.Some? && ValidRef(e.value.id.value)
  }

  /** The D2 guard: the row without its replacement, or the refusal. */
  function ClearReplacement(r: Row, answer: Option<Entity>, env: Env): Result<Row, Refusal> {
    var reread := Refetch(r, answer);
    if r.repl.None? then Ok(r)
    else if Abandons(r, WhenNotActive, reread) then Ok(Retire(r, reread.value, env))
    else if r.committedAt.Some? then Err(RefusedProviderState)
    else if reread.None? then Err(RefusedUnavailable)
    else if reread.value.status == Some(PActive) then Err(RefusedReplacementActivating)
    else Err(RefusedProviderState)
  }

  /** Replace the row's provider subscription: all or nothing on the row, but a
      cancel that succeeded before a failed create has still happened. */
  function ReplaceProvider(r: Row, plan: Plan, cancelCurrent: bool, a: Answers, env: Env): Reply {
    match ClearReplacement(r, a.replacementLater, env)
    case Err(why) => Refuse(r, why)
    case Ok(cleared) =>
      if cancelCurrent && !a.cancelOk then Refuse(r, RefusedUnavailable)
      else
        var ended := if cancelCurrent && r.ref.Some? then {r.ref.value} else {};
        if !Storable(a.created) then Reply(r, Some(RefusedUnavailable), false, ended)
        else Reply(StoreNew(cleared, plan, a.created.value), None, true, ended)
  }

  // --- checkout ---

  /** What the old subscription's period and the settings allow for a new
      replacement: its expiry, or the refusal. */
  function ReplacementExpiry(r: Row, upgrade: bool, env: Env): Result<Time, Refusal> {
    var window := Window(if upgrade then env.upgradeWindow else env.downgradeWindow);
    if window.None? then Err(RefusedNotConfigured)
    else if upgrade then Ok(env.now + window.value)
    else if !env.startGate || r.periodEnd.None? || env.now >= r.periodEnd.value - window.value
    then Err(RefusedUnsupportedChange)
    else Ok(r.periodEnd.value - window.value - 1)
  }

  function StartReplacement(r: Row, plan: Plan, upgrade: bool, ack: bool, a: Answers, env: Env): Reply {
    match ReplacementExpiry(r, upgrade, env)
    case Err(why) => Refuse(r, why)
    case Ok(expires) =>
      if r.retired.Some? then Refuse(r, RefusedInProgress)
      else if upgrade && !ack then Refuse(r, RefusedNoCreditAck)
      else if !Storable(a.created) || a.created.value.id == r.ref then Refuse(r, RefusedUnavailable)
      else
        Reply(
          Audit(
            r.(repl := a.created.value.id, replPlan := Some(plan), replExpires := Some(expires),
               pending := if upgrade then r.pending else Some(plan)),
            ReplacementStarted),
          None, true, {})
  }

  function CheckoutActive(r: Row, plan: Plan, ack: bool, a: Answers, env: Env): Reply {
    if r.cancelAtEnd then Refuse(r, RefusedCancelling)
    else if plan == r.plan || plan.price == r.plan.price then Refuse(r, RefusedUnchanged)
    else if r.pending == Some(plan) then Done(r)
    else
      var upgrade := plan.price > r.plan.price;
      match a.update
      case NoAnswer => Refuse(r, RefusedUnavailable)
      case Rejected(unsupported) =>
        if unsupported && (if upgrade then env.upgradeOn else env.downgradeOn)
        then StartReplacement(r, plan, upgrade, ack, a, env)
        else Refuse(r, RefusedUnsupportedChange)
      case Updated(e) =>
        if !upgrade then Done(Audit(r.(pending := Some(plan)), PlanChanged))
        else if !WellFormed(r, Some(e)) then Refuse(r, RefusedUnavailable)
        else
          var needed := InvoicesNeeded(r.status, r.periodStart, e);
          if needed && a.updateInvoicesFail then Refuse(r, RefusedUnavailable)
          else Done(Snapshot(r, e, if needed then a.updateInvoices else None, a.updateStarted, env, a.replacementLater).row)
  }

  function CheckoutIncomplete(r: Row, e: Option<Entity>, plan: Plan, a: Answers, env: Env): Reply {
    if e.None? || e.value.status.None? || Terminal(e.value.status.value) then ReplaceProvider(r, plan, false, a, env)
    else if e.value.planId == plan.providerId then Done(r)
    else if e.value.status.value.PCreated? then ReplaceProvider(r, plan, true, a, env)
    else Refuse(r, RefusedActivating)
  }

  function CheckoutEnded(r: Row, e: Option<Entity>, plan: Plan, a: Answers, env: Env): Reply {
    if e.None? || e.value.status.None? || Terminal(e.value.status.value) then ReplaceProvider(r, plan, false, a, env)
    else if MayBeCancelled(e.value.status.value) then ReplaceProvider(r, plan, true, a, env)
    else Refuse(r, RefusedProviderState)
  }

  /** Whether checkout goes on after its reconcile. */
  function ProviderStateRefusal(e: Entity, env: Env): Option<Refusal> {
    if e.status.None? || e.status.value.PPaused? || e.status.value.POther? then Some(RefusedProviderState)
    else if LookupPlan(env, e.planId).None? then Some(RefusedPlanUnsupported)
    else None
  }

  function CheckoutByStatus(r: Row, before: Status, e: Option<Entity>, plan: Plan, ack: bool, a: Answers, env: Env): Reply {
    match r.status
    case Active =>
      if !before.Active? && r.plan == plan then Done(r) else CheckoutActive(r, plan, ack, a, env)
    case Incomplete => CheckoutIncomplete(r, e, plan, a, env)
    case PastDue => Refuse(r, RefusedPastDue)
    case _ => CheckoutEnded(r, e, plan, a, env)
  }

  /** POST /billing/checkout on an existing row, for an offered plan. */
  function StartCheckout(r: Row, plan: Plan, ack: bool, a: Answers, env: Env): Reply {
    if r.status.PastDue? then Refuse(r, RefusedPastDue)
    else if r.status.Active? && r.repl.Some? then
      if r.replPlan == Some(plan) then Done(r) else Refuse(r, RefusedInProgress)
    else if r.ref.None? then
      if r.status.Active? then Refuse(r, RefusedProviderState)
      else CheckoutByStatus(r, r.status, None, plan, ack, a, env)
    else
      match Reconcile(r, a, env)
      case None => Refuse(r, RefusedUnavailable)
      case Some(reconciled) =>
        if reconciled.status.PastDue? then Refuse(reconciled, RefusedPastDue)
        else
          var refusal := ProviderStateRefusal(a.current.value, env);
          if refusal.Some? then Refuse(reconciled, refusal.value)
          else CheckoutByStatus(reconciled, r.status, a.current, plan, ack, a, env)
  }

  // --- cancel ---

  /** Cancel a pending replacement at the provider where it must be, then retire it. */
  function CancelAndRetire(r: Row, refuseCommitted: bool, a: Answers, env: Env): Reply
    requires r.repl.Some?
  {
    var reread := Refetch(r, a.replacementLater);
    if refuseCommitted && r.committedAt.Some? then Refuse(r, RefusedReplacementCommitted)
    else if reread.None? then Refuse(r, RefusedUnavailable)
    else
      var status := reread.value.status.value;
      if status.PActive? then Refuse(r, RefusedReplacementActivating)
      else if !NotActive(status) || r.retired.Some? then Refuse(r, RefusedProviderState)
      else if (status.PCreated? || status.PAuthenticated?) && !a.cancelOk then Refuse(r, RefusedUnavailable)
      else
        Reply(Retire(r, reread.value, env), None, false,
              if status.PCreated? || status.PAuthenticated? then {r.repl.value} else {})
  }

  function CancelReplacement(r: Row, a: Answers, env: Env): Reply {
    if r.repl.None? then Done(r) else CancelAndRetire(r, true, a, env)
  }

  /** Local first: the row is CANCELLED whatever the provider then answers. */
  function CancelPastDue(r: Row, a: Answers, env: Env): Reply {
    var ended := Audit(ClearGrace(r).(status := Cancelled), CancellationRequested);
    var row := AbandonUnlessActive(ended, WhenNotActive, Refetch(ended, a.replacementLater), env);
    if r.ref.Some? && r.providerStatus.Some? && MayBeCancelled(r.providerStatus.value) && a.endCancelOk then
      Reply(
        if a.cancelAnswer.Some? && a.cancelAnswer.value.status.Some?
        then row.(providerStatus := Some(Recorded(a.cancelAnswer.value.status.value)))
        else row,
        None, false, {r.ref.value})
    else Done(row)
  }

  function CancelCurrent(r: Row, a: Answers, env: Env): Reply {
    if r.status.PastDue? then CancelPastDue(r, a, env)
    else if r.cancelAtEnd then Done(r)
    else if r.ref.None? then Refuse(r, RefusedProviderState)
    else
      match Reconcile(r, a, env)
      case None => Refuse(r, RefusedUnavailable)
      case Some(reconciled) =>
        match reconciled.status
        case Active =>
          if a.current.value.status == Some(PPaused) then Refuse(reconciled, RefusedProviderState)
          else if !a.endCancelOk then Refuse(reconciled, RefusedUnavailable)
          else Done(Audit(reconciled.(cancelAtEnd := true), CancellationRequested))
        case PastDue => CancelPastDue(reconciled, a, env)
        case _ => Refuse(reconciled, RefusedNotCancellable)
  }

  /** POST /billing/subscription/cancel. */
  function CancelSubscription(r: Row, a: Answers, env: Env): Reply {
    if r.status.Incomplete? || r.status.Cancelled? || r.status.Expired? then Refuse(r, RefusedNotCancellable)
    else if r.repl.Some? then
      var first := CancelAndRetire(r, false, a, env);
      if first.refusal.Some? then first
      else
        var second := CancelCurrent(first.row, a, env);
        second.(ended := first.ended + second.ended)
    else CancelCurrent(r, a, env)
  }
}
