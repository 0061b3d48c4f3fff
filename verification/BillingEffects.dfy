/** What every single step keeps of the row's history: paid proofs, the order of
    snapshots and the commit marker of a pending replacement. */
module BillingEffects {
  import opened Common
  import opened BillingTypes
  import opened BillingSnapshot
  import opened BillingCheckout
  import opened BillingInvariants

  type Proofs = set<(Ref, Time)>

  /** The proof one answer carries, if its invoices contain a qualifying one. */
  function ProofOf(e: Option<Entity>, invoices: Option<seq<Invoice>>): Proofs {
    if e.Some? && PeriodPaid(e.value, invoices).Some? then {(e.value.id.value, e.value.currentStart.value)} else {}
  }

  /** An entitled row (the seed's, without a provider reference, aside) and every
      UsageRecord rest on a paid proof. */
  predicate Paid(r: Row, proofs: Proofs) {
    && ((r.status.Active? || r.status.PastDue?) && r.ref.Some? && r.periodStart.Some? ==>
          (r.ref.value, r.periodStart.value) in proofs)
    && (forall o :: o in r.usage ==> (o.ref, o.start) in proofs)
  }

  /** Snapshots of one subscription apply in strictly increasing fetch order, and
      the row remembers the last one of its current subscription. */
  predicate Ordered(r: Row) {
    && (forall i, j :: 0 <= i < j < |r.stamps| && r.stamps[i].ref == r.stamps[j].ref ==>
          r.stamps[i].started < r.stamps[j].started)
    && (forall s :: s in r.stamps ==>
          Some(s.ref) != r.repl &&
          (Some(s.ref) == r.ref ==> r.syncedAt.Some? && s.started <= r.syncedAt.value))
  }

  predicate Kept(r: Row, proofs: Proofs) { Paid(r, proofs) && Ordered(r) }

  predicate Entitled(r: Row) { r.status.Active? || r.status.PastDue? }

  /** A replacement that stays pending keeps its pair and its marker. */
  predicate SameMarker(r: Row, r': Row) {
    r'.repl.Some? ==> r'.repl == r.repl && r'.ref == r.ref && r'.committedAt == r.committedAt && r'.confirmedAt == r.confirmedAt
  }

  /** Only the row's own subscriptions are stamped. */
  ghost predicate StampsKnown(r: Row, r': Row) {
    forall s :: s in r'.stamps ==> s in r.stamps || Some(s.ref) == r.ref || Some(s.ref) == r.repl
  }

  /** A step that applies no snapshot and grants nothing. */
  predicate Quiet(r: Row, r': Row) {
    && r'.ref == r.ref && r'.usage == r.usage && r'.stamps == r.stamps && r'.syncedAt == r.syncedAt
    && r'.periodStart == r.periodStart
    && (r'.repl.Some? ==> r'.repl == r.repl)
    && (Entitled(r') ==> Entitled(r))
  }

  predicate Mild(r: Row, r': Row) { Quiet(r, r') && SameMarker(r, r') }

  lemma QuietKeeps(r: Row, r': Row, proofs: Proofs)
    requires Quiet(r, r') && Kept(r, proofs)
    ensures Kept(r', proofs)
  {
  }

  // --- steps that are mild ---

  lemma RetireMild(r: Row, e: Entity, env: Env)
    requires r.repl.Some?
    ensures Mild(r, Retire(r, e, env))
  {
  }

  lemma AbandonMild(r: Row, test: AbandonTest, reread: Option<Entity>, env: Env)
    ensures Mild(r, AbandonUnlessActive(r, test, reread, env))
  {
  }

  lemma LocalMild(r: Row, now: Time)
    ensures Mild(r, ApplyPaymentFailed(r, now)) && Mild(r, ApplyTerminal(r, now)) && Mild(r, AdvanceDunning(r, now))
  {
  }

  lemma ClearRetiredMild(r: Row, ref: Ref)
    ensures Mild(r, ClearRetired(r, ref))
  {
  }

  // --- the main snapshot ---

  /** An applied snapshot: stamped in fetch order, and either nothing new is granted
      or a paid proof for the new period came with it. */
  predicate Snapped(r: Row, r': Row, e: Entity, invoices: Option<seq<Invoice>>, started: Time) {
    && e.id.Some? && r.ref == e.id && r'.ref == r.ref
    && (r.syncedAt.Some? ==> r.syncedAt.value < started) && r'.syncedAt == Some(started)
    && r'.stamps == r.stamps + [Stamp(e.id.value, started)]
    && SameMarker(r, r')
    && GrantsOnlyPaid(r, r', e, invoices)
  }

  predicate GrantsOnlyPaid(r: Row, r': Row, e: Entity, invoices: Option<seq<Invoice>>) {
    if PeriodPaid(e, invoices).Some? && r'.periodStart == e.currentStart && r'.periodEnd.Some? && r'.periodStart.Some? && r'.status.Active?
    then r'.usage == r.usage || r'.usage == r.usage + [Opening(e.id.value, r'.periodStart.value, r'.periodEnd.value)]
    else r'.usage == r.usage && r'.periodStart == r.periodStart && (Entitled(r') ==> Entitled(r))
  }

  lemma TakePaidPeriodEffect(r: Row, plan: Plan, start: Time, end: Time, isSwitch: bool)
    ensures var r' := TakePaidPeriod(r, plan, start, end, isSwitch);
            && r'.ref == r.ref && r'.usage == r.usage && r'.stamps == r.stamps && r'.syncedAt == r.syncedAt
            && SameMarker(r, r') && r'.repl == r.repl
            && r'.periodStart == Some(start) && r'.periodEnd == Some(end) && r'.status.Active?
  {
  }

  lemma ActiveEffect(r: Row, e: Entity, invoices: Option<seq<Invoice>>, plan: Plan, isSwitch: bool)
    ensures var a := ApplyActive(r, e, invoices, plan, isSwitch);
            && a.row.ref == r.ref && a.row.usage == r.usage && a.row.stamps == r.stamps && a.row.syncedAt == r.syncedAt
            && SameMarker(r, a.row) && a.row.repl == r.repl
            && (if a.advanced
                then PeriodPaid(e, invoices).Some? && a.row.periodStart == e.currentStart && a.row.status.Active? &&
                     a.row.periodStart.Some? && a.row.periodEnd.Some?
                else a.row.periodStart == r.periodStart && a.row.status == r.status)
  {
    hide TakePaidPeriod, PeriodPaid;
    var start, end := FromUnix(e.currentStart), FromUnix(e.currentEnd);
    if start.Some? && end.Some? { TakePaidPeriodEffect(r, plan, start.value, end.value, isSwitch); }
  }

  lemma ByStatusEffect(r: Row, e: Entity, invoices: Option<seq<Invoice>>, plan: Plan, env: Env, answer: Option<Entity>)
    requires e.status.Some?
    ensures var a := SnapshotByStatus(r, e, invoices, plan, env, answer);
            if a.advanced
            then PeriodPaid(e, invoices).Some? && a.row.periodStart == e.currentStart && a.row.status.Active? &&
                 a.row.periodStart.Some? && a.row.periodEnd.Some? && SameMarker(r, a.row) &&
                 a.row.ref == r.ref && a.row.usage == r.usage && a.row.stamps == r.stamps
            else Mild(r, a.row)
  {
    hide ApplyActive, AbandonUnlessActive, ApplyPaymentFailed, ApplyTerminal, PeriodPaid;
    ActiveEffect(r, e, invoices, plan, false);
    LocalMild(r, env.now);
    var failed, ended := ApplyPaymentFailed(r, env.now), ApplyTerminal(r, env.now);
    AbandonMild(failed, WhenNotActive, Refetch(failed, answer), env);
    AbandonMild(ended, WhenNotActive, Refetch(ended, answer), env);
  }

  lemma SnapshotEffect(r: Row, e: Entity, invoices: Option<seq<Invoice>>, started: Time, env: Env, answer: Option<Entity>)
    ensures var r' := Snapshot(r, e, invoices, started, env, answer).row;
            r' == r || Snapped(r, r', e, invoices, started)
  {
    hide SnapshotByStatus, PeriodPaid;
    var plan := LookupPlan(env, e.planId);
    if plan.Some? && e.status.Some? { ByStatusEffect(r, e, invoices, plan.value, env, answer); }
  }

  lemma SnapshotKeeps(r: Row, e: Entity, invoices: Option<seq<Invoice>>, started: Time, env: Env, answer: Option<Entity>, proofs: Proofs)
    requires Kept(r, proofs) && (r.repl.Some? ==> r.repl != r.ref) && ProofOf(Some(e), invoices) <= proofs
    ensures var r' := Snapshot(r, e, invoices, started, env, answer).row;
            Kept(r', proofs) && SameMarker(r, r') && StampsKnown(r, r')
  {
    hide Snapshot;
    SnapshotEffect(r, e, invoices, started, env, answer);
  }

  // --- the replacement ---

  /** The switch grants only what the replacement's own paid proof covers. */
  lemma SwitchKeeps(r: Row, e: Entity, invoices: Option<seq<Invoice>>, plan: Plan, started: Time, proofs: Proofs)
    requires Kept(r, proofs) && e.id == r.repl && ProofOf(Some(e), invoices) <= proofs
    ensures var r' := Switch(r, e, invoices, plan, started).row;
            Kept(r', proofs) && (r' == r || r'.repl.None?) && StampsKnown(r, r')
  {
    hide ApplyActive, PeriodPaid;
    ActiveEffect(r, e, invoices, plan, true);
  }

  lemma ReplacementActiveKeeps(r: Row, e: Entity, invoices: Option<seq<Invoice>>, started: Time, env: Env, proofs: Proofs)
    requires Kept(r, proofs) && e.id == r.repl && ProofOf(Some(e), invoices) <= proofs
    ensures var r' := ReplacementActive(r, e, invoices, started, env).row;
            Kept(r', proofs) && SameMarker(r, r') && StampsKnown(r, r')
  {
    hide Switch, ProofOf;
    var plan := LookupPlan(env, e.planId);
    if plan.Some? { SwitchKeeps(r, e, invoices, plan.value, started, proofs); }
  }

  lemma ClearFailedMild(r: Row, env: Env, answer: Option<Entity>)
    ensures Mild(r, ClearFailedCommitted(r, env, answer).row)
  {
    hide Retire;
    var reread := Refetch(r, answer);
    if r.repl.Some? && reread.Some? { RetireMild(r, reread.value, env); }
  }

  lemma ReplacementSnapshotKeeps(r: Row, e: Entity, invoices: Option<seq<Invoice>>, started: Time, env: Env, answer: Option<Entity>, proofs: Proofs)
    requires Kept(r, proofs) && ProofOf(Some(e), invoices) <= proofs
    ensures var r' := ReplacementSnapshot(r, e, invoices, started, env, answer).row;
            Kept(r', proofs) && SameMarker(r, r') && StampsKnown(r, r')
  {
    hide ReplacementActive, ClearFailedCommitted, AbandonUnlessActive, Abandonable, ProofOf, Kept;
    var test := if r.status.Active? then WhenFailedOrLapsed(env.now, r.replExpires) else WhenNotActive;
    AbandonMild(r, test, Refetch(r, answer), env);
    ClearFailedMild(r, env, answer);
    var r' := ReplacementSnapshot(r, e, invoices, started, env, answer).row;
    if e.id == r.repl && r.repl.Some? { ReplacementActiveKeeps(r, e, invoices, started, env, proofs); }
    if Mild(r, r') { QuietKeeps(r, r', proofs); }
  }

  // --- the commit steps ---

  lemma CommitQuiet(r: Row, prior: Ref, repl: Ref, env: Env, answer: Option<Entity>)
    ensures Quiet(r, CommitT1(r, env, answer).0)
    ensures !CommitT1(r, env, answer).1 ==> SameMarker(r, CommitT1(r, env, answer).0)
    ensures Quiet(r, CommitT2Confirmed(r, prior, repl, env.now))
    ensures Quiet(r, CommitT2Refused(r, prior, repl, env, answer))
    ensures Quiet(r, ReissueConfirmed(r, prior, repl, env.now))
  {
    hide AbandonUnlessActive;
    AbandonMild(r, WhenNotActive, Refetch(r, answer), env);
    var cleared := r.(committedAt := None);
    AbandonMild(cleared, WhenNotActive, Refetch(cleared, answer), env);
  }

  // --- the requests ---

  /** The ids a request stores are new: the provider never reuses one. */
  predicate Fresh(r: Row, created: Option<Entity>) {
    created.Some? && created.value.id.Some? ==>
      !Holds(r, created.value.id.value) && forall s :: s in r.stamps ==> s.ref != created.value.id.value
  }

  /** The pending replacement is the same with the same marker, or a newly created
      one; that one is unmarked unless it overwrote another. */
  predicate MarkerOrNew(r: Row, r': Row, created: Option<Entity>, over: bool) {
    || SameMarker(r, r')
    || (created.Some? && r'.repl == created.value.id && r'.ref == r.ref && (!over ==> r'.committedAt.None?))
  }

  lemma ReplaceProviderKeeps(r: Row, plan: Plan, cancelCurrent: bool, a: Answers, env: Env, proofs: Proofs)
    requires Good(r) && Kept(r, proofs) && Fresh(r, a.created)
    ensures var r' := ReplaceProvider(r, plan, cancelCurrent, a, env).row;
            Kept(r', proofs) && SameMarker(r, r') && StampsKnown(r, r')
  {
    hide ClearReplacement, Good;
    ClearReplacementGood(r, a.replacementLater, env);
  }

  lemma StartReplacementKeeps(r: Row, plan: Plan, upgrade: bool, ack: bool, a: Answers, env: Env, proofs: Proofs)
    requires Good(r) && Kept(r, proofs) && Fresh(r, a.created)
    ensures var reply := StartReplacement(r, plan, upgrade, ack, a, env);
            Kept(reply.row, proofs) && MarkerOrNew(r, reply.row, a.created, r.repl.Some? && reply.created) && StampsKnown(r, reply.row)
  {
  }

  lemma NoInvoicesNoProof(e: Option<Entity>)
    ensures ProofOf(e, None) == {}
  {
  }

  function CheckoutProofs(a: Answers): Proofs {
    ProofOf(a.current, a.invoices)
    + if a.update.Updated? then ProofOf(Some(a.update.entity), a.updateInvoices) else {}
  }

  lemma GoodDiffers(r: Row)
    requires Good(r)
    ensures r.repl.Some? ==> r.repl != r.ref
  {
  }

  lemma PendingMild(r: Row, plan: Plan)
    ensures Mild(r, Audit(r.(pending := Some(plan)), PlanChanged))
  {
  }

  lemma CheckoutActiveKeeps(r: Row, plan: Plan, ack: bool, a: Answers, env: Env, proofs: Proofs)
    requires Good(r) && Kept(r, proofs) && Fresh(r, a.created) && CheckoutProofs(a) <= proofs
    ensures var reply := CheckoutActive(r, plan, ack, a, env);
            Kept(reply.row, proofs) && MarkerOrNew(r, reply.row, a.created, r.repl.Some? && reply.created) && StampsKnown(r, reply.row)
  {
    hide StartReplacement, Snapshot, ProofOf, Good, Kept, Fresh;
    StartReplacementKeeps(r, plan, plan.price > r.plan.price, ack, a, env, proofs);
    if a.update.Updated? {
      var e := a.update.entity;
      GoodDiffers(r);
      NoInvoicesNoProof(Some(e));
      SnapshotKeeps(r, e, None, a.updateStarted, env, a.replacementLater, proofs);
      SnapshotKeeps(r, e, a.updateInvoices, a.updateStarted, env, a.replacementLater, proofs);
      PendingMild(r, plan);
      QuietKeeps(r, Audit(r.(pending := Some(plan)), PlanChanged), proofs);
    }
  }

  lemma ReconcileKeeps(r: Row, a: Answers, env: Env, proofs: Proofs)
    requires Good(r) && Kept(r, proofs) && ProofOf(a.current, a.invoices) <= proofs
    requires Reconcile(r, a, env).Some?
    ensures var r' := Reconcile(r, a, env).value;
            Good(r') && Kept(r', proofs) && r'.ref == r.ref && SameMarker(r, r') && (Fresh(r, a.created) ==> Fresh(r', a.created)) && StampsKnown(r, r')
  {
    hide Snapshot, ProofOf, Good, Kept;
    GoodDiffers(r);
    ReconcileGood(r, a, env);
    var e := a.current.value;
    NoInvoicesNoProof(Some(e));
    var needed := InvoicesNeeded(r.status, r.periodStart, e);
    SnapshotKeeps(r, e, if needed then a.invoices else None, a.started, env, a.replacement, proofs);
    SnapshotEffect(r, e, if needed then a.invoices else None, a.started, env, a.replacement);
  }

  lemma CheckoutByStatusKeeps(r: Row, before: Status, e: Option<Entity>, plan: Plan, ack: bool, a: Answers, env: Env, proofs: Proofs)
    requires Good(r) && Kept(r, proofs) && Fresh(r, a.created) && CheckoutProofs(a) <= proofs
    ensures var reply := CheckoutByStatus(r, before, e, plan, ack, a, env);
            && Kept(reply.row, proofs) && StampsKnown(r, reply.row)
            && MarkerOrNew(r, reply.row, a.created, r.status.Active? && r.repl.Some? && reply.created)
  {
    hide CheckoutActive, ReplaceProvider, Good, Kept, Fresh, CheckoutProofs;
    CheckoutActiveKeeps(r, plan, ack, a, env, proofs);
    ReplaceProviderKeeps(r, plan, true, a, env, proofs);
    ReplaceProviderKeeps(r, plan, false, a, env, proofs);
  }

  lemma StartCheckoutKeeps(r: Row, plan: Plan, ack: bool, a: Answers, env: Env, proofs: Proofs)
    requires Good(r) && Kept(r, proofs) && Fresh(r, a.created) && CheckoutProofs(a) <= proofs
    ensures var r' := StartCheckout(r, plan, ack, a, env).row;
            Kept(r', proofs) && MarkerOrNew(r, r', a.created, Overwrites(r, plan, ack, a, env)) && StampsKnown(r, r')
  {
    hide CheckoutByStatus, Reconcile, Good, Kept, Fresh, ProofOf, Overwrites;
    OverwritesExactly(r, plan, ack, a, env);
    CheckoutByStatusKeeps(r, r.status, None, plan, ack, a, env, proofs);
    if Reconcile(r, a, env).Some? {
      ReconcileKeeps(r, a, env, proofs);
      CheckoutByStatusKeeps(Reconcile(r, a, env).value, r.status, a.current, plan, ack, a, env, proofs);
    }
  }

  /** What an overwriting checkout leaves: the created subscription in the place of
      the pending one, with the pending one's commit marker; nothing was ended. */
  lemma OverwriteEffect(r: Row, plan: Plan, ack: bool, a: Answers, env: Env)
    requires Good(r) && Overwrites(r, plan, ack, a, env)
    ensures var reply := StartCheckout(r, plan, ack, a, env);
            && reply.row.status.Active? && reply.row.ref == r.ref && reply.row.repl == a.created.value.id && reply.row.retired.None?
            && reply.row.committedAt == r.committedAt && reply.row.confirmedAt == r.confirmedAt
            && reply.ended == {} && TerminalIn(a.current) == {}
  {
    hide Reconcile, StartReplacement, Overwrites;
    OverwritesExactly(r, plan, ack, a, env);
    ReactivatesExactly(r, a, env);
    var rec := Reconcile(r, a, env).value;
    ReconcileMarker(r, a, env);
    StartedRow(rec, plan, plan.price > rec.plan.price, ack, a, env);
  }

  lemma ReconcileMarker(r: Row, a: Answers, env: Env)
    requires Reconcile(r, a, env).Some?
    ensures SameMarker(r, Reconcile(r, a, env).value)
  {
    hide Snapshot;
    var needed := InvoicesNeeded(r.status, r.periodStart, a.current.value);
    SnapshotEffect(r, a.current.value, if needed then a.invoices else None, a.started, env, a.replacement);
  }

  lemma StartedRow(r: Row, plan: Plan, upgrade: bool, ack: bool, a: Answers, env: Env)
    ensures var reply := StartReplacement(r, plan, upgrade, ack, a, env);
            && reply.ended == {}
            && (reply.created ==>
                  && reply.row.status == r.status
                  && reply.row.ref == r.ref && reply.row.repl == a.created.value.id && reply.row.retired == r.retired
                  && r.retired.None? && reply.row.committedAt == r.committedAt && reply.row.confirmedAt == r.confirmedAt)
  {
  }

  lemma CancelAndRetireMild(r: Row, refuseCommitted: bool, a: Answers, env: Env)
    requires r.repl.Some?
    ensures Mild(r, CancelAndRetire(r, refuseCommitted, a, env).row)
  {
    hide Retire;
    var reread := Refetch(r, a.replacementLater);
    if reread.Some? { RetireMild(r, reread.value, env); }
  }

  lemma CancelPastDueMild(r: Row, a: Answers, env: Env)
    ensures Mild(r, CancelPastDue(r, a, env).row)
  {
    hide AbandonUnlessActive;
    var ended := Audit(ClearGrace(r).(status := Cancelled), CancellationRequested);
    AbandonMild(ended, WhenNotActive, Refetch(ended, a.replacementLater), env);
  }

  lemma CancelCurrentKeeps(r: Row, a: Answers, env: Env, proofs: Proofs)
    requires Good(r) && Kept(r, proofs) && ProofOf(a.current, a.invoices) <= proofs
    ensures var r' := CancelCurrent(r, a, env).row;
            Kept(r', proofs) && SameMarker(r, r') && StampsKnown(r, r')
  {
    hide CancelPastDue, Reconcile, Good, ProofOf, Kept;
    CancelPastDueMild(r, a, env);
    QuietKeeps(r, CancelPastDue(r, a, env).row, proofs);
    if Reconcile(r, a, env).Some? {
      ReconcileKeeps(r, a, env, proofs);
      var reconciled := Reconcile(r, a, env).value;
      CancelPastDueMild(reconciled, a, env);
      QuietKeeps(reconciled, CancelPastDue(reconciled, a, env).row, proofs);
      QuietKeeps(reconciled, Audit(reconciled.(cancelAtEnd := true), CancellationRequested), proofs);
    }
  }

  lemma CancelSubscriptionKeeps(r: Row, a: Answers, env: Env, proofs: Proofs)
    requires Good(r) && Kept(r, proofs) && ProofOf(a.current, a.invoices) <= proofs
    ensures var r' := CancelSubscription(r, a, env).row;
            Kept(r', proofs) && SameMarker(r, r') && StampsKnown(r, r')
  {
    hide CancelAndRetire, CancelCurrent, Good, ProofOf, Kept;
    CancelCurrentKeeps(r, a, env, proofs);
    if r.repl.Some? {
      CancelAndRetireMild(r, false, a, env);
      CancelAndRetireGood(r, false, a, env);
      var first := CancelAndRetire(r, false, a, env).row;
      QuietKeeps(r, first, proofs);
      CancelCurrentKeeps(first, a, env, proofs);
    }
  }
}
