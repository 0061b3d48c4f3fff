/** What every single step keeps of the row's shape: the CHECK constraints, the slot
    discipline and the provider references. */
module BillingInvariants {
  import opened Common
  import opened BillingTypes
  import opened BillingSnapshot
  import opened BillingCheckout

  predicate Good(r: Row) { Checks(r) && SlotDiscipline(r) }

  /** What a step that talks about the row's own subscriptions may do with the
      slots: the current ref stays, the replacement stays or moves to the retired slot. */
  predicate KeepsSlots(r: Row, r': Row) {
    && r'.ref == r.ref
    && ((r'.repl == r.repl && r'.retired == r.retired && r'.retiredKind == r.retiredKind) ||
        (r.repl.Some? && r.retired.None? && r'.repl.None? && r'.retired == r.repl &&
         r'.retiredKind == Some(AbandonedReplacement)))
  }

  // --- the parts of a snapshot ---

  lemma RetireGood(r: Row, e: Entity, env: Env)
    requires Good(r) && r.repl.Some?
    ensures Good(Retire(r, e, env)) && KeepsSlots(r, Retire(r, e, env))
  {
  }

  lemma AbandonGood(r: Row, test: AbandonTest, reread: Option<Entity>, env: Env)
    requires Good(r)
    ensures Good(AbandonUnlessActive(r, test, reread, env)) && KeepsSlots(r, AbandonUnlessActive(r, test, reread, env))
  {
  }

  lemma TakePaidPeriodGood(r: Row, plan: Plan, start: Time, end: Time, isSwitch: bool)
    requires Good(r) && start < end
    ensures var r' := TakePaidPeriod(r, plan, start, end, isSwitch);
            && Good(r')
            && r'.ref == r.ref && r'.repl == r.repl && r'.retired == r.retired && r'.retiredKind == r.retiredKind
  {
  }

  lemma ActiveGood(r: Row, e: Entity, invoices: Option<seq<Invoice>>, plan: Plan, isSwitch: bool)
    requires Good(r)
    ensures var a := ApplyActive(r, e, invoices, plan, isSwitch);
            && Good(a.row)
            && a.row.ref == r.ref && a.row.repl == r.repl && a.row.retired == r.retired && a.row.retiredKind == r.retiredKind
  {
    hide TakePaidPeriod, PeriodPaid;
    var start, end := FromUnix(e.currentStart), FromUnix(e.currentEnd);
    if start.Some? && end.Some? && start.value < end.value {
      TakePaidPeriodGood(r, plan, start.value, end.value, isSwitch);
    }
  }

  lemma PaymentFailedGood(r: Row, now: Time)
    requires Good(r)
    ensures Good(ApplyPaymentFailed(r, now)) && KeepsSlots(r, ApplyPaymentFailed(r, now))
  {
  }

  lemma TerminalGood(r: Row, now: Time)
    requires Good(r)
    ensures Good(ApplyTerminal(r, now)) && KeepsSlots(r, ApplyTerminal(r, now))
  {
  }

  lemma ByStatusGood(r: Row, e: Entity, invoices: Option<seq<Invoice>>, plan: Plan, env: Env, answer: Option<Entity>)
    requires Good(r) && e.status.Some?
    ensures Good(SnapshotByStatus(r, e, invoices, plan, env, answer).row)
    ensures KeepsSlots(r, SnapshotByStatus(r, e, invoices, plan, env, answer).row)
  {
    hide ApplyActive, ApplyPaymentFailed, ApplyTerminal, AbandonUnlessActive, Refetch, CommittedDowngrade, Good;
    ActiveGood(r, e, invoices, plan, false);
    PaymentFailedGood(r, env.now);
    TerminalGood(r, env.now);
    var failed, ended := ApplyPaymentFailed(r, env.now), ApplyTerminal(r, env.now);
    AbandonGood(failed, WhenNotActive, Refetch(failed, answer), env);
    AbandonGood(ended, WhenNotActive, Refetch(ended, answer), env);
  }

  lemma SnapshotGood(r: Row, e: Entity, invoices: Option<seq<Invoice>>, started: Time, env: Env, answer: Option<Entity>)
    requires Good(r)
    ensures var r' := Snapshot(r, e, invoices, started, env, answer).row;
            Good(r') && KeepsSlots(r, r')
  {
    var plan := LookupPlan(env, e.planId);
    if plan.Some? && e.status.Some? { ByStatusGood(r, e, invoices, plan.value, env, answer); }
  }

  // --- the replacement's steps ---

  /** The switch moves every slot one place: replacement to current, current to retired. */
  predicate Switched(r: Row, r': Row) {
    r.repl.Some? && r.retired.None? && r'.ref == r.repl && r'.repl.None? && r'.retired == r.ref &&
    r'.retiredKind == Some(SwitchedOld)
  }

  lemma SwitchGood(r: Row, e: Entity, invoices: Option<seq<Invoice>>, plan: Plan, started: Time)
    requires Good(r)
    ensures var r' := Switch(r, e, invoices, plan, started).row;
            Good(r') && (r' == r || Switched(r, r'))
  {
    ActiveGood(r, e, invoices, plan, true);
  }

  lemma ReplacementActiveGood(r: Row, e: Entity, invoices: Option<seq<Invoice>>, started: Time, env: Env)
    requires Good(r)
    ensures var r' := ReplacementActive(r, e, invoices, started, env).row;
            Good(r') && (KeepsSlots(r, r') || Switched(r, r'))
  {
    hide Switch;
    var plan := LookupPlan(env, e.planId);
    if plan.Some? { SwitchGood(r, e, invoices, plan.value, started); }
  }

  lemma ClearFailedGood(r: Row, env: Env, answer: Option<Entity>)
    requires Good(r)
    ensures var r' := ClearFailedCommitted(r, env, answer).row; Good(r') && KeepsSlots(r, r')
  {
    var reread := Refetch(r, answer);
    if r.repl.Some? && reread.Some? { RetireGood(r, reread.value, env); }
  }

  lemma ReplacementSnapshotGood(r: Row, e: Entity, invoices: Option<seq<Invoice>>, started: Time, env: Env, answer: Option<Entity>)
    requires Good(r)
    ensures var r' := ReplacementSnapshot(r, e, invoices, started, env, answer).row;
            Good(r') && (KeepsSlots(r, r') || Switched(r, r'))
  {
    hide ReplacementActive, ClearFailedCommitted, AbandonUnlessActive, Good, Abandonable;
    ReplacementActiveGood(r, e, invoices, started, env);
    ClearFailedGood(r, env, answer);
    AbandonGood(r, WhenNotActive, Refetch(r, answer), env);
    AbandonGood(r, WhenFailedOrLapsed(env.now, r.replExpires), Refetch(r, answer), env);
  }

  lemma CommitT1Good(r: Row, env: Env, answer: Option<Entity>)
    requires Good(r)
    ensures var r' := CommitT1(r, env, answer).0; Good(r') && KeepsSlots(r, r')
  {
    AbandonGood(r, WhenNotActive, Refetch(r, answer), env);
  }

  /** The refused T2 keeps the constraints exactly when no confirmation of the same
      cancel was recorded in the meantime, or the replacement can be given up. */
  lemma CommitT2RefusedGood(r: Row, prior: Ref, repl: Ref, env: Env, answer: Option<Entity>)
    requires Good(r)
    ensures var r' := CommitT2Refused(r, prior, repl, env, answer);
            && KeepsSlots(r, r')
            && (Good(r') <==>
                !StandsCommitted(r, prior, repl) || r.confirmedAt.None? ||
                Abandons(r.(committedAt := None), WhenNotActive, Refetch(r, answer)))
  {
    var cleared := r.(committedAt := None);
    var reread := Refetch(cleared, answer);
    if Abandons(cleared, WhenNotActive, reread) && r.confirmedAt.Some? {
      assert Retire(cleared, reread.value, env) == Retire(cleared.(confirmedAt := None), reread.value, env);
      RetireGood(cleared.(confirmedAt := None), reread.value, env);
    } else if r.confirmedAt.None? {
      AbandonGood(cleared, WhenNotActive, reread, env);
    }
  }

  // --- the requests ---

  /** No remembered ref is dropped, except into `gone`. */
  ghost predicate Remembers(r: Row, r': Row, gone: set<Ref>) {
    forall x :: Holds(r, x) ==> Holds(r', x) || x in gone
  }

  /** Only this created subscription may be new in a slot. */
  ghost predicate Introduces(r: Row, r': Row, created: Option<Entity>) {
    forall x :: Holds(r', x) ==> Holds(r, x) || (created.Some? && created.value.id == Some(x))
  }

  /** The retired slot keeps its ref and kind, or is empty, or takes the replacement as an abandoned one. */
  predicate KindKept(r: Row, r': Row) {
    || r'.retired.None?
    || (r'.retired == r.retired && r'.retiredKind == r.retiredKind)
    || (r'.retired == r.repl && r'.retiredKind == Some(AbandonedReplacement))
  }

  /** The ref an answer reports as ended for good. */
  function TerminalIn(e: Option<Entity>): set<Ref> {
    if e.Some? && e.value.id.Some? && e.value.status.Some? && Terminal(e.value.status.value) then {e.value.id.value} else {}
  }

  lemma ClearReplacementGood(r: Row, answer: Option<Entity>, env: Env)
    requires Good(r)
    ensures var c := ClearReplacement(r, answer, env);
            c.Ok? ==> Good(c.value) && KeepsSlots(r, c.value) && c.value.repl.None? && c.value.status == r.status &&
                      c.value.usage == r.usage && c.value.stamps == r.stamps
  {
    hide Good;
    var reread := Refetch(r, answer);
    if r.repl.Some? && reread.Some? { RetireGood(r, reread.value, env); }
  }

  lemma StoreNewGood(r: Row, plan: Plan, e: Entity)
    requires Good(r) && r.repl.None? && !r.status.Active? && !r.status.PastDue? && e.id.Some?
    ensures Good(StoreNew(r, plan, e))
  {
  }

  lemma ReplaceProviderGood(r: Row, plan: Plan, cancelCurrent: bool, a: Answers, env: Env)
    requires Good(r) && !r.status.Active? && !r.status.PastDue?
    requires cancelCurrent || r.ref.None? || r.ref.value in TerminalIn(a.current)
    ensures var reply := ReplaceProvider(r, plan, cancelCurrent, a, env);
            && Good(reply.row)
            && Remembers(r, reply.row, reply.ended + TerminalIn(a.current))
            && KindKept(r, reply.row)
            && Introduces(r, reply.row, a.created)
  {
    hide Good, ClearReplacement;
    ClearReplacementGood(r, a.replacementLater, env);
    var c := ClearReplacement(r, a.replacementLater, env);
    if c.Ok? && Storable(a.created) { StoreNewGood(c.value, plan, a.created.value); }
    var reply := ReplaceProvider(r, plan, cancelCurrent, a, env);
    forall x | Holds(r, x) ensures Holds(reply.row, x) || x in reply.ended + TerminalIn(a.current) {
      if reply.refusal.None? && r.ref != Some(x) {
        assert Holds(c.value, x);
        assert reply.row.retired == c.value.retired;
      }
    }
  }

  /** Starting a replacement keeps the constraints always, and forgets no ref
      exactly when none was pending (the created id being new). */
  lemma StartReplacementGood(r: Row, plan: Plan, upgrade: bool, ack: bool, a: Answers, env: Env)
    requires Good(r) && r.status.Active? && r.ref.Some?
    ensures var reply := StartReplacement(r, plan, upgrade, ack, a, env);
            && Good(reply.row)
            && KindKept(r, reply.row)
            && Introduces(r, reply.row, a.created)
            && reply.ended == {}
            && (reply.created ==> Storable(a.created))
            && (reply.created && r.repl != a.created.value.id ==> (Remembers(r, reply.row, {}) <==> r.repl.None?))
            && (!reply.created ==> reply.row == r)
  {
    var reply := StartReplacement(r, plan, upgrade, ack, a, env);
    if reply.created && r.repl.Some? && r.repl != a.created.value.id {
      assert Holds(r, r.repl.value) && !Holds(reply.row, r.repl.value);
    }
  }

  lemma SlotsKept(r: Row, r': Row, created: Option<Entity>)
    requires KeepsSlots(r, r')
    ensures Remembers(r, r', {}) && Introduces(r, r', created) && KindKept(r, r')
  {
  }

  lemma SameSlots(r: Row)
    ensures KeepsSlots(r, r)
  {
  }

  lemma CheckoutActiveGood(r: Row, plan: Plan, ack: bool, a: Answers, env: Env)
    requires Good(r) && r.status.Active? && r.ref.Some?
    ensures var reply := CheckoutActive(r, plan, ack, a, env);
            && Good(reply.row)
            && Introduces(r, reply.row, a.created)
            && KindKept(r, reply.row)
            && (!(r.repl.Some? && reply.created) ==> Remembers(r, reply.row, {}))
  {
    hide StartReplacement, Snapshot, Good, KeepsSlots, Remembers, Introduces, KindKept;
    var upgrade := plan.price > r.plan.price;
    StartReplacementGood(r, plan, upgrade, ack, a, env);
    SameSlots(r);
    if a.update.Updated? {
      var e := a.update.entity;
      SnapshotGood(r, e, None, a.updateStarted, env, a.replacementLater);
      SnapshotGood(r, e, a.updateInvoices, a.updateStarted, env, a.replacementLater);
      PendingGood(r, plan);
    }
    var r' := CheckoutActive(r, plan, ack, a, env).row;
    if KeepsSlots(r, r') { SlotsKept(r, r', a.created); }
    if r.repl.None? { ForgetsNothing(r, plan, upgrade, ack, a, env); }
  }

  lemma ForgetsNothing(r: Row, plan: Plan, upgrade: bool, ack: bool, a: Answers, env: Env)
    requires r.repl.None?
    ensures Remembers(r, StartReplacement(r, plan, upgrade, ack, a, env).row, {})
  {
  }

  lemma PendingGood(r: Row, plan: Plan)
    requires Good(r)
    ensures Good(Audit(r.(pending := Some(plan)), PlanChanged))
    ensures KeepsSlots(r, Audit(r.(pending := Some(plan)), PlanChanged))
  {
  }

  /** The reconcile of a request found the row ACTIVE with a replacement still
      pending: the one state in which checkout overwrites a replacement. */
  predicate StartsOver(r: Row, a: Answers, env: Env) {
    && !r.status.Active? && !r.status.PastDue? && r.ref.Some?
    && Reconcile(r, a, env).Some?
    && Reconcile(r, a, env).value.status.Active? && Reconcile(r, a, env).value.repl.Some?
  }

  /** The request's reconcile turns an ended row ACTIVE again: a fresh, well-formed
      `active` answer of a known plan with a paid period. */
  predicate Reactivates(r: Row, a: Answers, env: Env) {
    && (r.status.Cancelled? || r.status.Expired?) && r.ref.Some? && r.ref.value != ""
    && WellFormed(r, a.current) && a.current.value.status == Some(PActive) && !a.invoicesFail
    && (r.syncedAt.Some? ==> r.syncedAt.value < a.started)
    && LookupPlan(env, a.current.value.planId).Some?
    && FromUnix(a.current.value.currentStart).Some? && FromUnix(a.current.value.currentEnd).Some?
    && a.current.value.currentStart.value < a.current.value.currentEnd.value
    && PeriodPaid(a.current.value, a.invoices).Some?
  }

  /** Which checkouts overwrite a pending replacement, in terms of the row and the
      answers alone: an ended row still holds one, the reconcile reactivates it, and
      the requested plan change then passes every guard up to the creation. */
  predicate Overwrites(r: Row, plan: Plan, ack: bool, a: Answers, env: Env) {
    && r.repl.Some? && Reactivates(r, a, env)
    && (var current := LookupPlan(env, a.current.value.planId).value;
        var upgrade := plan.price > current.price;
        && plan.price != current.price && r.pending != Some(plan)
        && a.update == Rejected(true) && (if upgrade then env.upgradeOn else env.downgradeOn)
        && Window(if upgrade then env.upgradeWindow else env.downgradeWindow).Some?
        && (if upgrade then ack
            else env.startGate && env.now < a.current.value.currentEnd.value - Window(env.downgradeWindow).value)
        && Storable(a.created) && a.created.value.id != r.ref)
  }

  lemma ReactivatesExactly(r: Row, a: Answers, env: Env)
    requires Good(r)
    ensures StartsOver(r, a, env) <==> r.repl.Some? && Reactivates(r, a, env)
    ensures StartsOver(r, a, env) ==>
              var e := a.current.value;
              var plan := LookupPlan(env, e.planId).value;
              var rec := Reconcile(r, a, env).value;
              && rec.plan == plan && rec.pending == (if r.pending == Some(plan) then None else r.pending) && !rec.cancelAtEnd
              && rec.ref == r.ref && rec.repl == r.repl && rec.retired.None? && rec.periodEnd == e.currentEnd
  {
    hide AbandonUnlessActive, PeriodPaid, Retire;
  }

  lemma CreatesExactly(r: Row, plan: Plan, ack: bool, a: Answers, env: Env)
    requires r.status.Active? && r.retired.None? && !r.cancelAtEnd
    ensures var upgrade := plan.price > r.plan.price;
            CheckoutActive(r, plan, ack, a, env).created <==>
              && plan.price != r.plan.price && r.pending != Some(plan)
              && a.update == Rejected(true) && (if upgrade then env.upgradeOn else env.downgradeOn)
              && ReplacementExpiry(r, upgrade, env).Ok? && (upgrade ==> ack)
              && Storable(a.created) && a.created.value.id != r.ref
  {
    hide Snapshot;
  }

  /** The checkout starts over and creates exactly when it overwrites. */
  lemma OverwritesExactly(r: Row, plan: Plan, ack: bool, a: Answers, env: Env)
    requires Good(r)
    ensures Overwrites(r, plan, ack, a, env) <==> StartsOver(r, a, env) && StartCheckout(r, plan, ack, a, env).created
  {
    hide CheckoutActive, Reconcile, Good;
    ReactivatesExactly(r, a, env);
    if StartsOver(r, a, env) {
      var rec := Reconcile(r, a, env).value;
      CreatesExactly(rec, plan, ack, a, env);
      assert StartCheckout(r, plan, ack, a, env) == CheckoutByStatus(rec, r.status, a.current, plan, ack, a, env);
    }
  }

  lemma ReconcileGood(r: Row, a: Answers, env: Env)
    requires Good(r) && Reconcile(r, a, env).Some?
    ensures Good(Reconcile(r, a, env).value) && KeepsSlots(r, Reconcile(r, a, env).value)
    ensures WellFormed(r, a.current)
    ensures r.ref.Some? && Terminal(a.current.value.status.value) ==> TerminalIn(a.current) == {r.ref.value}
  {
    hide Snapshot, Good;
    SnapshotGood(r, a.current.value, None, a.started, env, a.replacement);
    SnapshotGood(r, a.current.value, a.invoices, a.started, env, a.replacement);
  }

  lemma CheckoutByStatusGood(r: Row, before: Status, e: Option<Entity>, plan: Plan, ack: bool, a: Answers, env: Env)
    requires Good(r) && (r.status.Active? ==> r.ref.Some?)
    requires if e.None? then r.ref.None? else e == a.current && e.value.id == r.ref && e.value.status.Some? && r.ref.Some?
    ensures var reply := CheckoutByStatus(r, before, e, plan, ack, a, env);
            && Good(reply.row)
            && KindKept(r, reply.row)
            && Introduces(r, reply.row, a.created)
            && (!(r.status.Active? && r.repl.Some? && reply.created) ==> Remembers(r, reply.row, reply.ended + TerminalIn(a.current)))
  {
    hide CheckoutActive, ReplaceProvider, Good;
    if r.status.Active? {
      CheckoutActiveGood(r, plan, ack, a, env);
    } else if !r.status.PastDue? {
      ReplaceProviderGood(r, plan, true, a, env);
      if e.None? || Terminal(e.value.status.value) { ReplaceProviderGood(r, plan, false, a, env); }
    }
  }

  /** A checkout keeps the constraints always, and forgets a ref that was neither
      cancelled at once nor reported terminal only when it overwrites. */
  lemma StartCheckoutGood(r: Row, plan: Plan, ack: bool, a: Answers, env: Env)
    requires Good(r)
    ensures var reply := StartCheckout(r, plan, ack, a, env);
            && Good(reply.row)
            && KindKept(r, reply.row)
            && Introduces(r, reply.row, a.created)
            && (!Overwrites(r, plan, ack, a, env) ==> Remembers(r, reply.row, reply.ended + TerminalIn(a.current)))
  {
    hide CheckoutByStatus, Reconcile, Good, Overwrites;
    OverwritesExactly(r, plan, ack, a, env);
    if r.ref.None? {
      if !r.status.Active? { CheckoutByStatusGood(r, r.status, None, plan, ack, a, env); }
    } else if Reconcile(r, a, env).Some? {
      ReconcileGood(r, a, env);
      CheckoutByStatusGood(Reconcile(r, a, env).value, r.status, a.current, plan, ack, a, env);
    }
  }

  lemma CancelAndRetireGood(r: Row, refuseCommitted: bool, a: Answers, env: Env)
    requires Good(r) && r.repl.Some?
    ensures var reply := CancelAndRetire(r, refuseCommitted, a, env);
            Good(reply.row) && KeepsSlots(r, reply.row) && (reply.refusal.None? ==> reply.row.repl.None?)
  {
    hide Good;
    var reread := Refetch(r, a.replacementLater);
    if reread.Some? { RetireGood(r, reread.value, env); }
  }

  lemma CancelPastDueGood(r: Row, a: Answers, env: Env)
    requires Good(r) && r.status.PastDue?
    ensures var reply := CancelPastDue(r, a, env);
            Good(reply.row) && KeepsSlots(r, reply.row)
  {
    hide AbandonUnlessActive;
    var ended := Audit(ClearGrace(r).(status := Cancelled), CancellationRequested);
    AbandonGood(ended, WhenNotActive, Refetch(ended, a.replacementLater), env);
  }

  lemma CancelCurrentGood(r: Row, a: Answers, env: Env)
    requires Good(r) && (r.status.Active? || r.status.PastDue?) && r.repl.None?
    ensures var reply := CancelCurrent(r, a, env);
            Good(reply.row) && KeepsSlots(r, reply.row) && reply.row.repl.None?
  {
    hide CancelPastDue, Reconcile, Good;
    if r.status.PastDue? {
      CancelPastDueGood(r, a, env);
    } else if Reconcile(r, a, env).Some? {
      ReconcileGood(r, a, env);
      var reconciled := Reconcile(r, a, env).value;
      if reconciled.status.PastDue? { CancelPastDueGood(reconciled, a, env); }
      FlagGood(reconciled);
    }
  }

  lemma FlagGood(r: Row)
    requires Good(r)
    ensures Good(Audit(r.(cancelAtEnd := true), CancellationRequested))
  {
  }

  lemma CancelSubscriptionGood(r: Row, a: Answers, env: Env)
    requires Good(r)
    ensures var reply := CancelSubscription(r, a, env);
            Good(reply.row) && KeepsSlots(r, reply.row)
  {
    hide CancelAndRetire, CancelCurrent, Good;
    if r.repl.None? {
      if r.status.Active? || r.status.PastDue? { CancelCurrentGood(r, a, env); }
    } else {
      CancelAndRetireGood(r, false, a, env);
      CancelAndRetireStatus(r, false, a, env);
      var first := CancelAndRetire(r, false, a, env).row;
      if first.repl.None? && (first.status.Active? || first.status.PastDue?) { CancelCurrentGood(first, a, env); }
    }
  }

  lemma CancelAndRetireStatus(r: Row, refuseCommitted: bool, a: Answers, env: Env)
    requires r.repl.Some?
    ensures CancelAndRetire(r, refuseCommitted, a, env).row.status == r.status
  {
  }

  // --- dunning and the retired slot ---

  lemma AdvanceDunningGood(r: Row, now: Time)
    requires Good(r)
    ensures Good(AdvanceDunning(r, now)) && KeepsSlots(r, AdvanceDunning(r, now))
  {
  }

  lemma ClearRetiredGood(r: Row, ref: Ref)
    requires Good(r)
    ensures Good(ClearRetired(r, ref)) && Remembers(r, ClearRetired(r, ref), {ref}) && Introduces(r, ClearRetired(r, ref), None)
  {
  }
}
