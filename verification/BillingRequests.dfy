/** What the OWNER's requests promise, in terms of the row, the request and the
    provider's answers: a checkout creates what was asked for, a cancel cancels. */
module BillingRequests {
  import opened Common
  import opened BillingTypes
  import opened BillingSnapshot
  import opened BillingCheckout
  import opened BillingInvariants
  import opened BillingEffects
  import opened BillingWorld
  import opened BillingMeaning

  // --- cancel ---

  /** The row the cancel of the current subscription starts from. */
  function WithoutReplacement(r: Row, a: Answers, env: Env): Row {
    if r.repl.Some? then CancelAndRetire(r, false, a, env).row else r
  }

  /** The request finds the row PAST_DUE, or its reconcile makes it so. */
  predicate FoundPastDue(r: Row, a: Answers, env: Env) {
    var first := WithoutReplacement(r, a, env);
    || first.status == PastDue
    || (first.status == Active && !first.cancelAtEnd && Reconcile(first, a, env).Some? && Reconcile(first, a, env).value.status == PastDue)
  }

  /** The reconcile of an ACTIVE row leaves the flag as it is. */
  lemma ReconcileKeepsFlag(r: Row, a: Answers, env: Env)
    requires Good(r) && Reconcile(r, a, env).Some? && (r.status == Active || r.status == PastDue)
    ensures Reconcile(r, a, env).value.cancelAtEnd == r.cancelAtEnd
  {
    var e := a.current.value;
    var invoices := if InvoicesNeeded(r.status, r.periodStart, e) then a.invoices else None;
    hide Snapshot, Good, Grants, Refreshes, StatusAfter;
    if Applies(r, e, a.started, env) { MainMeans(r, e, invoices, a.started, env, a.replacement); }
    else { MainIgnores(r, e, invoices, a.started, env, a.replacement); }
  }

  lemma RetiringKeepsFlag(r: Row, a: Answers, env: Env)
    requires Good(r) && r.repl.Some?
    ensures var reply := CancelAndRetire(r, false, a, env);
            && reply.row.cancelAtEnd == r.cancelAtEnd && reply.row.status == r.status && Good(reply.row)
            && (reply.refusal.None? ==> reply.row.repl.None?)
            && (reply.refusal.Some? ==> reply.row == r)
  {
    CancelAndRetireGood(r, false, a, env);
  }

  lemma PastDueCancels(r: Row, a: Answers, env: Env)
    ensures var reply := CancelPastDue(r, a, env);
            && reply.refusal.None? && reply.row.status == Cancelled && reply.row.pastDueAt.None? && reply.row.dunning.None?
            && reply.row.cancelAtEnd == r.cancelAtEnd
            && reply.row.providerStatus == (if reply.ended != {} && a.cancelAnswer.Some? && a.cancelAnswer.value.status.Some?
                                            then Some(Recorded(a.cancelAnswer.value.status.value)) else r.providerStatus)
            && (reply.ended == if r.ref.Some? && a.endCancelOk
                                  && (r.providerStatus == Some(PCreated) || r.providerStatus == Some(PPending)
                                      || r.providerStatus == Some(PHalted) || r.providerStatus == Some(PActive))
                               then {r.ref.value} else {})
  {
  }

  /** A granted cancel cancels: at once exactly when the row is, or is found, past due
      - CANCELLED with its grace cleared - and otherwise at the period's end, flagged
      on a row that stays ACTIVE. A refused one leaves the flag alone. */
  lemma CancelCancels(r: Row, a: Answers, env: Env)
    requires Good(r)
    ensures var reply := CancelSubscription(r, a, env);
            && (reply.refusal.None? ==>
                  && (reply.row.status == Cancelled || (reply.row.status == Active && reply.row.cancelAtEnd))
                  && (reply.row.status == Cancelled <==> FoundPastDue(r, a, env))
                  && (reply.row.status == Cancelled ==> reply.row.pastDueAt.None? && reply.row.dunning.None?))
            && (reply.refusal.Some? ==> reply.row.cancelAtEnd == r.cancelAtEnd)
  {
    hide CancelAndRetire, Reconcile, CancelPastDue, Good;
    if r.repl.Some? { RetiringKeepsFlag(r, a, env); }
    var first := WithoutReplacement(r, a, env);
    PastDueCancels(first, a, env);
    if Reconcile(first, a, env).Some? && (first.status == Active || first.status == PastDue) {
      ReconcileKeepsFlag(first, a, env);
      PastDueCancels(Reconcile(first, a, env).value, a, env);
    }
  }

  /** Exactly when an ACTIVE row without a replacement is flagged: the reconcile
      answered and left it ACTIVE and not paused, and the provider accepted. */
  lemma FlagsExactly(r: Row, a: Answers, env: Env)
    requires Good(r) && r.status == Active && r.repl.None? && !r.cancelAtEnd
    ensures var reply := CancelSubscription(r, a, env);
            (reply.refusal.None? && reply.row.cancelAtEnd) <==>
              && r.ref.Some? && Reconcile(r, a, env).Some? && Reconcile(r, a, env).value.status == Active
              && a.current.value.status != Some(PPaused) && a.endCancelOk
  {
    hide Reconcile, CancelPastDue, Good;
    PastDueCancels(r, a, env);
    if Reconcile(r, a, env).Some? {
      ReconcileKeepsFlag(r, a, env);
      PastDueCancels(Reconcile(r, a, env).value, a, env);
    }
  }

  /** A request on a row that is already cancelling changes nothing and asks nobody. */
  lemma CancelIsIdempotent(r: Row, a: Answers, env: Env)
    requires r.status == Active && r.cancelAtEnd && r.repl.None?
    ensures CancelSubscription(r, a, env) == Reply(r, None, false, {})
  {
  }

  /** Cancelling a replacement: granted exactly when it can be read, is not active,
      and - while it could still be paid - the provider cancelled it. */
  lemma RetiresExactly(r: Row, refuseCommitted: bool, a: Answers, env: Env)
    requires Good(r) && r.repl.Some?
    ensures var reply := CancelAndRetire(r, refuseCommitted, a, env);
            var asked := a.replacementLater;
            if && !(refuseCommitted && r.committedAt.Some?) && Reread(r, asked) && InactiveStatus(asked.value.status.value)
               && (asked.value.status == Some(PCreated) || asked.value.status == Some(PAuthenticated) ==> a.cancelOk)
            then
              && reply.refusal.None? && DroppedInto(r, reply.row)
              && reply.ended == (if asked.value.status == Some(PCreated) || asked.value.status == Some(PAuthenticated)
                                 then {r.repl.value} else {})
            else reply.refusal.Some? && reply.row == r && reply.ended == {}
  {
  }

  // --- checkout: a replacement ---

  /** What the settings allow for a replacement, written out: an upgrade waits for the
      window from now, a downgrade must be authorized a window before the period ends. */
  predicate WindowOpen(r: Row, upgrade: bool, env: Env) {
    if upgrade then env.upgradeWindow.Some? && env.upgradeWindow.value > 0
    else
      && env.downgradeWindow.Some? && env.downgradeWindow.value > 0 && env.startGate
      && r.periodEnd.Some? && env.now < r.periodEnd.value - env.downgradeWindow.value
  }

  /** A plan change the provider cannot do in place creates a replacement exactly when
      every guard passes, with the plan, expiry and pending plan that were asked for;
      nothing else of the row changes. */
  lemma ReplacementIsAsAsked(r: Row, plan: Plan, ack: bool, a: Answers, env: Env)
    requires r.status == Active && r.retired.None? && !r.cancelAtEnd
    ensures var reply := CheckoutActive(r, plan, ack, a, env);
            var upgrade := plan.price > r.plan.price;
            && (reply.created <==>
                  && plan.price != r.plan.price && r.pending != Some(plan)
                  && a.update == Rejected(true) && (if upgrade then env.upgradeOn else env.downgradeOn)
                  && WindowOpen(r, upgrade, env) && (upgrade ==> ack)
                  && Storable(a.created) && a.created.value.id != r.ref)
            && (reply.created ==>
                  && reply.refusal.None? && reply.ended == {}
                  && reply.row == r.(repl := a.created.value.id, replPlan := Some(plan),
                       replExpires := Some(if upgrade then env.now + env.upgradeWindow.value
                                           else r.periodEnd.value - env.downgradeWindow.value - 1),
                       pending := if upgrade then r.pending else Some(plan),
                       log := r.log + [ReplacementStarted]))
  {
    hide Snapshot;
  }

  /** A downgrade the provider takes at once is only recorded as pending. */
  lemma DowngradeIsPending(r: Row, plan: Plan, ack: bool, a: Answers, env: Env)
    requires r.status == Active && !r.cancelAtEnd && plan.price < r.plan.price && r.pending != Some(plan) && a.update.Updated?
    ensures CheckoutActive(r, plan, ack, a, env)
         == Reply(r.(pending := Some(plan), log := r.log + [PlanChanged]), None, false, {})
  {
  }

  /** The answers a checkout of an ACTIVE row gives without a provider's plan change:
      the plan that was just activated, a subscription that is ending, the same plan or
      price, a downgrade asked for before, and a provider that does not answer. */
  lemma ActiveAnswersExactly(r: Row, before: Status, e: Option<Entity>, plan: Plan, ack: bool, a: Answers, env: Env)
    requires r.status == Active
    ensures var reply := CheckoutByStatus(r, before, e, plan, ack, a, env);
            if before != Active && r.plan == plan then reply == Reply(r, None, false, {})
            else if r.cancelAtEnd then reply == Reply(r, Some(RefusedCancelling), false, {})
            else if r.plan == plan || r.plan.price == plan.price then reply == Reply(r, Some(RefusedUnchanged), false, {})
            else if r.pending == Some(plan) then reply == Reply(r, None, false, {})
            else
              && reply == CheckoutActive(r, plan, ack, a, env)
              && (a.update == NoAnswer || a.update == Rejected(false) ==> reply.row == r && reply.refusal.Some? && !reply.created)
  {
    hide Snapshot, StartReplacement;
  }

  /** An upgrade the provider takes at once is reconciled from its own answer, and from
      nothing but a paid invoice for the period it names. */
  lemma UpgradeIsReconciled(r: Row, plan: Plan, ack: bool, a: Answers, env: Env)
    requires r.status == Active && !r.cancelAtEnd && plan.price > r.plan.price && r.pending != Some(plan) && a.update.Updated?
    ensures var reply, answer := CheckoutActive(r, plan, ack, a, env), a.update.entity;
            && !reply.created && reply.ended == {}
            && (reply.refusal.None? ==>
                  && answer.id == r.ref && answer.status.Some?
                  && reply.row == Snapshot(r, answer, a.updateInvoices, a.updateStarted, env, a.replacementLater).row)
            && (reply.refusal.Some? ==>
                  && reply.row == r
                  && (answer.id != r.ref || answer.status.None? || (answer.status == Some(PActive) && a.updateInvoicesFail)))
  {
    hide TakePaidPeriod, ApplyPaymentFailed, ApplyTerminal, AbandonUnlessActive, PeriodPaid;
  }

  // --- checkout: a new subscription ---

  /** The provider's subscription may be cancelled to make room. */
  predicate Replaceable(status: Status, s: ProviderStatus) {
    if status == Incomplete then s == PCreated
    else s == PCreated || s == PPending || s == PHalted || s == PActive
  }

  /** Nothing pending, or a replacement that is uncommitted and re-read as inactive. */
  predicate CanClear(r: Row, a: Answers) {
    r.repl.None? || (r.committedAt.None? && Reread(r, a.replacementLater) && InactiveStatus(a.replacementLater.value.status.value))
  }

  /** A checkout on an INCOMPLETE or ended row: the current subscription counts as gone
      when the provider says so, else it must be cancelled at once first. */
  predicate Resets(r: Row, e: Option<Entity>, plan: Plan, a: Answers) {
    var gone := e.None? || e.value.status.None? || EndedStatus(e.value.status.value);
    && (gone || (Replaceable(r.status, e.value.status.value)
                 && (r.status == Incomplete ==> e.value.planId != plan.providerId) && a.cancelOk))
    && CanClear(r, a) && Storable(a.created)
  }

  lemma ResetIsAsAsked(r: Row, before: Status, e: Option<Entity>, plan: Plan, ack: bool, a: Answers, env: Env)
    requires Good(r) && (r.status == Incomplete || r.status == Cancelled || r.status == Expired)
    ensures var reply := CheckoutByStatus(r, before, e, plan, ack, a, env);
            var gone := e.None? || e.value.status.None? || EndedStatus(e.value.status.value);
            && (reply.created <==> Resets(r, e, plan, a))
            && (reply.created ==>
                  && reply.refusal.None?
                  && reply.ended == (if !gone && r.ref.Some? then {r.ref.value} else {})
                  && reply.row.status == Incomplete && reply.row.ref == a.created.value.id && reply.row.plan == plan
                  && reply.row.pending == None && !reply.row.cancelAtEnd && reply.row.syncedAt == None
                  && reply.row.periodStart == None && reply.row.periodEnd == None && reply.row.repl == None
                  && reply.row.retired == (if r.repl.Some? then r.repl else r.retired)
                  && reply.row.usage == r.usage && CheckoutStarted in reply.row.log)
            && (!reply.created ==> reply.row == r)
  {
    hide Snapshot, CheckoutActive;
  }

  /** Why a pending replacement stops a reset: a committed one always; otherwise one
      that cannot be read, that is active, or whose status is not understood. */
  lemma PendingStopsReset(r: Row, plan: Plan, cancelCurrent: bool, a: Answers, env: Env)
    requires Good(r) && r.repl.Some?
    ensures var reply, asked := ReplaceProvider(r, plan, cancelCurrent, a, env), a.replacementLater;
            && (r.committedAt.Some? ==> reply == Reply(r, Some(RefusedProviderState), false, {}))
            && (r.committedAt.None? && !Reread(r, asked) ==> reply == Reply(r, Some(RefusedUnavailable), false, {}))
            && (r.committedAt.None? && Reread(r, asked) && asked.value.status == Some(PActive) ==>
                  reply == Reply(r, Some(RefusedReplacementActivating), false, {}))
            && (r.committedAt.None? && Reread(r, asked) && asked.value.status != Some(PActive) && !InactiveStatus(asked.value.status.value) ==>
                  reply == Reply(r, Some(RefusedProviderState), false, {}))
  {
    hide Retire, StoreNew;
  }

  // --- reconcile and dispatch ---

  /** Leaving the invoices unfetched where they are not needed never changes what the
      reconcile makes of the row. */
  lemma ReconcileIsTheFullSnapshot(r: Row, a: Answers, env: Env)
    requires Reconcile(r, a, env).Some?
    ensures a.current.Some? && a.current.value.id == r.ref && a.current.value.status.Some?
    ensures Reconcile(r, a, env).value == Snapshot(r, a.current.value, a.invoices, a.started, env, a.replacement).row
  {
    hide TakePaidPeriod, ApplyPaymentFailed, ApplyTerminal, AbandonUnlessActive, PeriodPaid;
  }

  /** It fails exactly when an answer is missing: the subscription's, or - for an
      active one that may grant a period - the invoices'. */
  lemma ReconcileFailsExactly(r: Row, a: Answers, env: Env)
    ensures Reconcile(r, a, env).None? <==>
              || a.current.None? || a.current.value.id != r.ref || a.current.value.status.None?
              || (a.invoicesFail && a.current.value.status == Some(PActive)
                  && !(r.status == Active && r.periodStart.Some? && a.current.value.currentStart == r.periodStart
                       && -62135596800 <= r.periodStart.value <= 253402300799))
  {
    hide Snapshot;
  }

  /** No checkout touches a past-due row, or an ACTIVE one with a replacement pending. */
  lemma CheckoutStops(r: Row, plan: Plan, ack: bool, a: Answers, env: Env)
    requires r.status == PastDue || (r.status == Active && r.repl.Some?)
    ensures var reply := StartCheckout(r, plan, ack, a, env);
            && reply.row == r && !reply.created && reply.ended == {}
            && (reply.refusal.None? <==> r.status == Active && r.replPlan == Some(plan))
  {
  }

  /** A checkout of an existing subscription creates another only after a reconcile
      that answered, left the row not past due, and shows a known plan and a status
      the service understands. */
  lemma CreatesOnlyReconciled(r: Row, plan: Plan, ack: bool, a: Answers, env: Env)
    requires r.ref.Some? && StartCheckout(r, plan, ack, a, env).created
    ensures Reconcile(r, a, env).Some? && Reconcile(r, a, env).value.status != PastDue && r.status != PastDue
    ensures KnownPlan(env, a.current.value) && a.current.value.status != Some(PPaused) && !a.current.value.status.value.POther?
    ensures StartCheckout(r, plan, ack, a, env)
         == CheckoutByStatus(Reconcile(r, a, env).value, r.status, a.current, plan, ack, a, env)
  {
    hide Snapshot, CheckoutByStatus;
  }

  // --- the sweep's owed cancel ---

  /** An ended row's subscription is cancelled at the provider exactly when it may still
      bill, by its last recorded status, and the call succeeds. */
  lemma OwedCancelsExactly(w: World, env: Env, ok: bool)
    ensures Next(w, Act(env, OwedCall(ok))).ended
         == w.ended + if && ok && (w.row.status == Cancelled || w.row.status == Expired) && w.row.ref.Some?
                         && (w.row.providerStatus == Some(PCreated) || w.row.providerStatus == Some(PPending)
                             || w.row.providerStatus == Some(PHalted) || w.row.providerStatus == Some(PActive))
                      then {w.row.ref.value} else {}
  {
    hide Snapshot, ReplacementSnapshot, CommitStep1, StartCheckout, CancelSubscription, CancelReplacement, AdvanceDunning,
         CommitT2Refused;
  }
}
