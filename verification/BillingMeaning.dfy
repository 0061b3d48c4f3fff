/** What the sync steps do, column by column and test by test, in terms of the row, the
    answers and the settings alone. Nothing here is said through the step functions'
    own helpers, so each statement is a second, independent account of a step. */
module BillingMeaning {
  import opened Common
  import opened BillingTypes
  import opened BillingSnapshot
  import opened BillingCheckout
  import opened BillingInvariants
  import opened BillingEffects
  import opened BillingWorld
  import opened BillingRun

  // --- the vocabulary, written out ---

  predicate EndedStatus(s: ProviderStatus) { s == PCancelled || s == PCompleted || s == PExpired }

  predicate FailedStatus(s: ProviderStatus) { s == PPending || s == PHalted || s == PCancelled || s == PExpired }

  predicate InactiveStatus(s: ProviderStatus) { s == PCreated || s == PAuthenticated || FailedStatus(s) }

  /** A fully paid invoice of this subscription, with a payment, whose billing window
      holds the start of the current period. */
  predicate Covers(e: Entity, i: Invoice) {
    && e.id.Some? && e.currentStart.Some?
    && i.subscriptionId == e.id && i.status == Some("paid") && i.amountDue == Some(0)
    && i.paymentId.Some? && i.paymentId.value != ""
    && i.billingStart.Some? && i.billingEnd.Some?
    && i.billingStart.value <= e.currentStart.value && e.currentStart.value < i.billingEnd.value
  }

  predicate ProvenPaid(e: Entity, invoices: Option<seq<Invoice>>) {
    invoices.Some? && exists k :: 0 <= k < |invoices.value| && Covers(e, invoices.value[k])
  }

  /** A period datetime can hold, of positive length. */
  predicate UsablePeriod(e: Entity) {
    && e.currentStart.Some? && e.currentEnd.Some?
    && -62135596800 <= e.currentStart.value && e.currentStart.value < e.currentEnd.value && e.currentEnd.value <= 253402300799
  }

  predicate KnownPlan(env: Env, e: Entity) { e.planId.Some? && e.planId.value in env.catalogue }

  function PlanNamed(env: Env, e: Entity): Plan
    requires KnownPlan(env, e)
  {
    env.catalogue[e.planId.value]
  }

  /** A re-read that names the pending replacement and has a status. */
  predicate Reread(r: Row, answer: Option<Entity>) {
    answer.Some? && r.repl.Some? && answer.value.id == r.repl && answer.value.status.Some?
  }

  lemma ProvenPaidExactly(e: Entity, invoices: Option<seq<Invoice>>)
    ensures PeriodPaid(e, invoices).Some? <==> ProvenPaid(e, invoices)
  {
    if invoices.Some? && e.id.Some? && e.currentStart.Some? {
      FirstQualifyingIsFirst(e.id.value, e.currentStart.value, invoices.value);
      if k :| 0 <= k < |invoices.value| && Covers(e, invoices.value[k]) {
        assert Qualifies(e.id.value, e.currentStart.value, invoices.value[k]);
      }
      if k :| 0 <= k < |invoices.value| && Qualifies(e.id.value, e.currentStart.value, invoices.value[k]) {
        assert Covers(e, invoices.value[k]);
      }
    }
  }

  // --- the main snapshot ---

  /** The answer is about the row's subscription, newer than the last one applied, of
      a plan the table knows, and has a status. */
  predicate Applies(r: Row, e: Entity, started: Time, env: Env) {
    && e.id.Some? && e.id.value != "" && r.ref == e.id
    && (r.syncedAt.Some? ==> r.syncedAt.value < started)
    && KnownPlan(env, e) && e.status.Some?
  }

  predicate SameActivePeriod(r: Row, e: Entity) { r.status == Active && r.periodStart == e.currentStart }

  /** The answer grants a new period. */
  predicate Grants(r: Row, e: Entity, invoices: Option<seq<Invoice>>) {
    e.status == Some(PActive) && UsablePeriod(e) && !SameActivePeriod(r, e) && ProvenPaid(e, invoices)
  }

  /** The answer's plan is taken: with a new paid period, or inside the present one. */
  predicate Refreshes(r: Row, e: Entity, invoices: Option<seq<Invoice>>) {
    e.status == Some(PActive) && UsablePeriod(e) && (SameActivePeriod(r, e) || ProvenPaid(e, invoices))
  }

  function StatusAfter(r: Row, e: Entity, invoices: Option<seq<Invoice>>, now: Time): Status
    requires e.status.Some?
  {
    var s := e.status.value;
    if Grants(r, e, invoices) then Active
    else if (s == PPending || s == PHalted) && r.status == Active then PastDue
    else if EndedStatus(s) && r.status == Active then
      if r.repl.Some? && r.committedAt.Some? then Active else Cancelled
    else if EndedStatus(s) && r.status == PastDue then
      if r.pastDueAt.Some? && now >= r.pastDueAt.value + 7 * 86400 then Expired else Cancelled
    else r.status
  }

  lemma MainIgnores(r: Row, e: Entity, invoices: Option<seq<Invoice>>, started: Time, env: Env, answer: Option<Entity>)
    requires !Applies(r, e, started, env)
    ensures var a := Snapshot(r, e, invoices, started, env, answer); a.row == r && !a.settled && !a.changed
  {
    hide ApplyActive, ApplyPaymentFailed, ApplyTerminal, AbandonUnlessActive;
  }

  lemma ActiveMeans(r: Row, e: Entity, invoices: Option<seq<Invoice>>, plan: Plan, isSwitch: bool)
    requires e.status == Some(PActive)
    ensures var a := ApplyActive(r, e, invoices, plan, isSwitch);
            && a.advanced == Grants(r, e, invoices) && a.settled == Refreshes(r, e, invoices)
            && a.row.repl == r.repl && a.row.replPlan == r.replPlan && a.row.committedAt == r.committedAt
            && a.row.confirmedAt == r.confirmedAt && a.row.retired == r.retired && a.row.marks == r.marks && a.row.usage == r.usage
            && a.row.ref == r.ref && a.row.retiredKind == r.retiredKind && a.row.replExpires == r.replExpires
            && (!a.settled ==> a.row == r)
            && (a.settled ==>
                  && a.row.plan == plan && a.row.pending == (if r.pending == Some(plan) then None else r.pending))
            && (a.settled && !a.advanced ==>
                  && a.row.status == r.status && a.row.periodStart == r.periodStart && a.row.periodEnd == r.periodEnd
                  && a.row.cancelAtEnd == r.cancelAtEnd && a.row.pastDueAt == r.pastDueAt && a.row.dunning == r.dunning)
            && (a.advanced ==>
                  && a.row.status == Active && a.row.periodStart == e.currentStart && a.row.periodEnd == e.currentEnd
                  && a.row.cancelAtEnd == (r.cancelAtEnd && (r.status == Active || r.status == PastDue))
                  && a.row.pastDueAt == (if r.status == PastDue then None else r.pastDueAt)
                  && a.row.dunning == (if r.status == PastDue then None else r.dunning))
  {
    hide PeriodPaid, ProvenPaid;
    ProvenPaidExactly(e, invoices);
  }

  /** Status, plan, period, grace and flag after an applied answer. */
  predicate MainColumns(r: Row, r': Row, e: Entity, invoices: Option<seq<Invoice>>, env: Env)
    requires e.status.Some? && KnownPlan(env, e)
  {
    var grants := Grants(r, e, invoices);
    && r'.ref == r.ref && r'.status == StatusAfter(r, e, invoices, env.now)
    && r'.plan == (if Refreshes(r, e, invoices) then PlanNamed(env, e) else r.plan)
    && r'.periodStart == (if grants then e.currentStart else r.periodStart)
    && r'.periodEnd == (if grants then e.currentEnd else r.periodEnd)
    && r'.cancelAtEnd == (r.cancelAtEnd && (grants ==> r.status == Active || r.status == PastDue))
    && r'.pastDueAt == (if r'.status != PastDue then None else if r.status == Active then Some(env.now) else r.pastDueAt)
    && r'.dunning == (if r'.status != PastDue then None else if r.status == Active then Some(0) else r.dunning)
  }

  /** Where a moved-out-of-ACTIVE or ended row lets its replacement go. */
  predicate MainDrops(r: Row, e: Entity, invoices: Option<seq<Invoice>>, env: Env, answer: Option<Entity>)
    requires e.status.Some?
  {
    && !e.status.value.PActive? && StatusAfter(r, e, invoices, env.now) != r.status
    && r.committedAt.None? && Reread(r, answer) && InactiveStatus(answer.value.status.value)
  }

  lemma ActiveColumns(r: Row, e: Entity, invoices: Option<seq<Invoice>>, env: Env, answer: Option<Entity>)
    requires Good(r) && KnownPlan(env, e) && e.status == Some(PActive)
    ensures var a := SnapshotByStatus(r, e, invoices, PlanNamed(env, e), env, answer);
            && MainColumns(r, a.row, e, invoices, env) && SlotsUntouched(r, a.row) && a.row.usage == r.usage
            && a.settled == Refreshes(r, e, invoices) && a.advanced == Grants(r, e, invoices)
  {
    hide ApplyActive, ProvenPaid, UsablePeriod;
    ActiveMeans(r, e, invoices, PlanNamed(env, e), false);
  }

  /** After the status moved, the replacement goes under its own test. */
  lemma AbandonedColumns(r: Row, moved: Row, e: Entity, invoices: Option<seq<Invoice>>, env: Env, answer: Option<Entity>)
    requires Good(moved) && KnownPlan(env, e) && e.status.Some? && !e.status.value.PActive? && moved.status != r.status
    requires MainColumns(r, moved, e, invoices, env) && SlotsUntouched(r, moved) && moved.pending == r.pending && moved.usage == r.usage
    ensures var r' := AbandonUnlessActive(moved, WhenNotActive, Refetch(moved, answer), env);
            && MainColumns(r, r', e, invoices, env) && r'.usage == r.usage
            && (if MainDrops(r, e, invoices, env, answer) then DroppedInto(r, r') else SlotsUntouched(r, r'))
  {
    hide AbandonUnlessActive, StatusAfter, Grants, Refreshes, Good;
    AbandonTouches(moved, WhenNotActive, Refetch(moved, answer), env);
    AbandonMeans(moved, Refetch(moved, answer), env);
  }

  /** A row that did not move keeps its replacement. */
  lemma SettledColumns(r: Row, moved: Row, e: Entity, invoices: Option<seq<Invoice>>, env: Env, answer: Option<Entity>)
    requires Good(moved) && KnownPlan(env, e) && e.status.Some? && !e.status.value.PActive? && (moved != r <==> moved.status != r.status)
    requires MainColumns(r, moved, e, invoices, env) && SlotsUntouched(r, moved) && moved.pending == r.pending && moved.usage == r.usage
    ensures var r' := if moved == r then r else AbandonUnlessActive(moved, WhenNotActive, Refetch(moved, answer), env);
            && MainColumns(r, r', e, invoices, env) && r'.usage == r.usage
            && (if MainDrops(r, e, invoices, env, answer) then DroppedInto(r, r') else SlotsUntouched(r, r'))
  {
    hide AbandonUnlessActive, StatusAfter, Grants, Refreshes, Good, DroppedInto, SlotsUntouched, Refetch;
    if moved != r { AbandonedColumns(r, moved, e, invoices, env, answer); }
  }

  lemma Untouched(r: Row)
    ensures SlotsUntouched(r, r)
  {
  }

  lemma MovedColumns(r: Row, e: Entity, invoices: Option<seq<Invoice>>, env: Env, answer: Option<Entity>)
    requires Good(r) && KnownPlan(env, e) && e.status.Some? && !e.status.value.PActive?
    ensures var a := SnapshotByStatus(r, e, invoices, PlanNamed(env, e), env, answer);
            && MainColumns(r, a.row, e, invoices, env) && a.row.usage == r.usage && a.settled && !a.advanced
            && (if MainDrops(r, e, invoices, env, answer) then DroppedInto(r, a.row) else SlotsUntouched(r, a.row))
  {
    hide AbandonUnlessActive, ApplyActive, ApplyPaymentFailed, ApplyTerminal, Good, MainColumns, MainDrops,
         DroppedInto, SlotsUntouched, Refetch, CommittedDowngrade;
    var failed, ended := ApplyPaymentFailed(r, env.now), ApplyTerminal(r, env.now);
    LocalSlots(r, env.now);
    PaymentFailedGood(r, env.now);
    TerminalGood(r, env.now);
    LocalColumns(r, e, invoices, env);
    Untouched(r);
    var s := e.status.value;
    var moved := if s.PPending? || s.PHalted? then failed else if EndedStatus(s) && !CommittedDowngrade(r) then ended else r;
    SettledColumns(r, moved, e, invoices, env, answer);
  }

  lemma LocalSlots(r: Row, now: Time)
    ensures var failed, ended := ApplyPaymentFailed(r, now), ApplyTerminal(r, now);
            && SlotsUntouched(r, failed) && SlotsUntouched(r, ended)
            && failed.pending == r.pending && ended.pending == r.pending && failed.usage == r.usage && ended.usage == r.usage
  {
  }

  lemma FailedColumns(r: Row, e: Entity, invoices: Option<seq<Invoice>>, env: Env)
    requires Good(r) && KnownPlan(env, e) && (e.status == Some(PPending) || e.status == Some(PHalted))
    ensures MainColumns(r, ApplyPaymentFailed(r, env.now), e, invoices, env)
    ensures ApplyPaymentFailed(r, env.now) != r <==> ApplyPaymentFailed(r, env.now).status != r.status
  {
    hide ProvenPaid, UsablePeriod;
  }

  lemma EndedColumns(r: Row, e: Entity, invoices: Option<seq<Invoice>>, env: Env)
    requires Good(r) && KnownPlan(env, e) && e.status.Some? && EndedStatus(e.status.value)
    ensures MainColumns(r, if CommittedDowngrade(r) then r else ApplyTerminal(r, env.now), e, invoices, env)
    ensures ApplyTerminal(r, env.now) != r <==> ApplyTerminal(r, env.now).status != r.status
  {
    hide ProvenPaid, UsablePeriod;
  }

  lemma LocalColumns(r: Row, e: Entity, invoices: Option<seq<Invoice>>, env: Env)
    requires Good(r) && KnownPlan(env, e) && e.status.Some? && !e.status.value.PActive?
    ensures var s := e.status.value;
            && (s.PPending? || s.PHalted? ==> MainColumns(r, ApplyPaymentFailed(r, env.now), e, invoices, env)
                                              && (ApplyPaymentFailed(r, env.now) != r <==> ApplyPaymentFailed(r, env.now).status != r.status))
            && (EndedStatus(s) && !CommittedDowngrade(r) ==>
                  && MainColumns(r, ApplyTerminal(r, env.now), e, invoices, env)
                  && (ApplyTerminal(r, env.now) != r <==> ApplyTerminal(r, env.now).status != r.status))
            && (EndedStatus(s) && CommittedDowngrade(r) ==> MainColumns(r, r, e, invoices, env))
            && (!FailedStatus(s) && !EndedStatus(s) ==> MainColumns(r, r, e, invoices, env))
            && (StatusAfter(r, e, invoices, env.now) != r.status ==>
                  s.PPending? || s.PHalted? || (EndedStatus(s) && !CommittedDowngrade(r)))
  {
    if e.status.value.PPending? || e.status.value.PHalted? { FailedColumns(r, e, invoices, env); }
    if EndedStatus(e.status.value) { EndedColumns(r, e, invoices, env); }
    hide ProvenPaid, UsablePeriod, ApplyPaymentFailed, ApplyTerminal;
  }

  /** An applied answer, column by column: status, plan, period, grace and flag; the
      fetch is stamped, and a granted period opens its UsageRecord. */
  lemma MainMeans(r: Row, e: Entity, invoices: Option<seq<Invoice>>, started: Time, env: Env, answer: Option<Entity>)
    requires Good(r) && Applies(r, e, started, env)
    ensures var a := Snapshot(r, e, invoices, started, env, answer);
            && a.settled == (e.status == Some(PActive) ==> Refreshes(r, e, invoices))
            && MainColumns(r, a.row, e, invoices, env)
            && a.row.providerStatus == Some(Recorded(e.status.value)) && a.row.syncedAt == Some(started)
            && a.row.usage == (if Grants(r, e, invoices)
                               then r.usage + [Opening(e.id.value, e.currentStart.value, e.currentEnd.value)] else r.usage)
            && (if MainDrops(r, e, invoices, env, answer) then DroppedInto(r, a.row) else SlotsUntouched(r, a.row))
  {
    if e.status.value.PActive? { ActiveColumns(r, e, invoices, env, answer); } else { MovedColumns(r, e, invoices, env, answer); }
    hide SnapshotByStatus, ProvenPaid, Good;
  }

  /** Dropping the replacement touches only its own columns, the pending plan and the retired slot. */
  lemma AbandonTouches(r: Row, test: AbandonTest, reread: Option<Entity>, env: Env)
    ensures var r' := AbandonUnlessActive(r, test, reread, env);
            && r'.status == r.status && r'.plan == r.plan && r'.periodStart == r.periodStart && r'.periodEnd == r.periodEnd
            && r'.cancelAtEnd == r.cancelAtEnd && r'.pastDueAt == r.pastDueAt && r'.dunning == r.dunning
            && r'.ref == r.ref && r'.usage == r.usage && r'.providerStatus == r.providerStatus && r'.syncedAt == r.syncedAt
            && r'.stamps == r.stamps
  {
  }

  /** The columns of a dropped replacement. */
  predicate DroppedInto(r: Row, r': Row) {
    && r.repl.Some? && r'.retired == r.repl && r'.retiredKind == Some(AbandonedReplacement)
    && r'.repl == None && r'.replPlan == None && r'.replExpires == None && r'.committedAt == None && r'.confirmedAt == None
    && r'.marks == r.marks + [r.repl.value]
    && r'.pending == (if r.replPlan.Some? && r.pending == r.replPlan then None else r.pending)
  }

  predicate SlotsUntouched(r: Row, r': Row) {
    && r'.retired == r.retired && r'.retiredKind == r.retiredKind && r'.repl == r.repl && r'.replPlan == r.replPlan
    && r'.replExpires == r.replExpires && r'.committedAt == r.committedAt && r'.confirmedAt == r.confirmedAt
    && r'.marks == r.marks
  }

  lemma AbandonMeans(r: Row, reread: Option<Entity>, env: Env)
    requires Good(r)
    ensures var r' := AbandonUnlessActive(r, WhenNotActive, reread, env);
            if r.repl.Some? && r.committedAt.None? && reread.Some? && reread.value.status.Some? && InactiveStatus(reread.value.status.value)
            then DroppedInto(r, r')
            else r' == r
  {
  }

  // --- the replacement ---

  /** The tests of a switch. */
  predicate Switches(r: Row, e: Entity, invoices: Option<seq<Invoice>>, env: Env) {
    && r.repl.Some? && r.repl.value != "" && e.id == r.repl && e.status == Some(PActive)
    && (r.status == Active || r.status == PastDue)
    && KnownPlan(env, e) && UsablePeriod(e) && ProvenPaid(e, invoices) && r.periodStart != e.currentStart
  }

  /** The switched row: the new current subscription with its plan and paid period, the
      old one retired as one that must still be cancelled, everything else cleared. */
  predicate SwitchedRow(r: Row, e: Entity, started: Time, env: Env, r': Row) {
    && KnownPlan(env, e) && e.currentStart.Some? && e.currentEnd.Some? && r.repl.Some?
    && r'.ref == r.repl && r'.retired == r.ref && r'.retiredKind == Some(SwitchedOld)
    && r'.status == Active && r'.plan == PlanNamed(env, e) && r'.periodStart == e.currentStart && r'.periodEnd == e.currentEnd
    && r'.repl == None && r'.replPlan == None && r'.replExpires == None && r'.committedAt == None && r'.confirmedAt == None
    && r'.pending == None && !r'.cancelAtEnd && r'.pastDueAt == None && r'.dunning == None
    && r'.providerStatus == Some(PActive) && r'.syncedAt == Some(started)
    && r'.usage == r.usage + [Opening(r.repl.value, e.currentStart.value, e.currentEnd.value)]
    && (r.ref.Some? ==> r'.marks == r.marks + [r.ref.value])
  }

  lemma SwitchMeans(r: Row, e: Entity, invoices: Option<seq<Invoice>>, started: Time, env: Env)
    requires Good(r) && r.repl.Some? && e.id == r.repl && e.status == Some(PActive) && KnownPlan(env, e) && r.retired.None?
    requires r.status == Active || r.status == PastDue
    ensures var r' := Switch(r, e, invoices, PlanNamed(env, e), started).row;
            if UsablePeriod(e) && ProvenPaid(e, invoices) && r.periodStart != e.currentStart
            then SwitchedRow(r, e, started, env, r')
            else r' == r
  {
    hide ApplyActive, ProvenPaid;
    ActiveMeans(r, e, invoices, PlanNamed(env, e), true);
  }

  /** A replacement's answer changes the current subscription exactly when the tests
      hold, and then leaves the whole row as described. */
  lemma ReplacementSwitchesExactly(r: Row, e: Entity, invoices: Option<seq<Invoice>>, started: Time, env: Env, answer: Option<Entity>)
    requires Good(r)
    ensures var r' := ReplacementSnapshot(r, e, invoices, started, env, answer).row;
            && (r'.ref != r.ref <==> Switches(r, e, invoices, env))
            && (Switches(r, e, invoices, env) ==> SwitchedRow(r, e, started, env, r'))
  {
    hide Switch, AbandonUnlessActive, Retire, PeriodPaid, ProvenPaid, Abandonable, SwitchedRow;
    ProvenPaidExactly(e, invoices);
    GoodDiffers(r);
    if r.repl.Some? {
      GoodPending(r);
      if r.repl.Some? && e.id == r.repl && e.status == Some(PActive) && KnownPlan(env, e) && (r.status.Active? || r.status.PastDue?) {
        SwitchMeans(r, e, invoices, started, env);
        SwitchedNames(r, e, started, env, Switch(r, e, invoices, PlanNamed(env, e), started).row);
      }
      AbandonTouches(r, WhenNotActive, Refetch(r, answer), env);
      AbandonTouches(r, WhenFailedOrLapsed(env.now, r.replExpires), Refetch(r, answer), env);
      if Refetch(r, answer).Some? { RetireKeepsRef(r, answer.value, env); }
    }
  }

  lemma SwitchedNames(r: Row, e: Entity, started: Time, env: Env, r': Row)
    ensures SwitchedRow(r, e, started, env, r') ==> r'.ref == r.repl
  {
  }

  lemma RetireKeepsRef(r: Row, e: Entity, env: Env)
    requires r.repl.Some?
    ensures Retire(r, e, env).ref == r.ref
  {
  }

  /** What lets an uncommitted replacement go while the row is ACTIVE. */
  predicate FailedOrLapsed(r: Row, s: ProviderStatus, now: Time) {
    FailedStatus(s) || (s == PCreated && r.replExpires.Some? && now >= r.replExpires.value)
  }

  /** A replacement's answer drops it exactly when both the answer and the re-read say
      so: failed, if it is committed; failed or past its expiry, on an ACTIVE row;
      anything but active, on any other row. */
  lemma ReplacementDropsExactly(r: Row, e: Entity, invoices: Option<seq<Invoice>>, started: Time, env: Env, answer: Option<Entity>)
    requires Good(r) && e.status.Some? && !e.status.value.PActive?
    ensures var r' := ReplacementSnapshot(r, e, invoices, started, env, answer).row;
            var s := e.status.value;
            if && r.repl.Some? && r.repl.value != "" && e.id == r.repl && Reread(r, answer)
               && (var again := answer.value.status.value;
                   if r.committedAt.Some? then FailedStatus(s) && FailedStatus(again)
                   else if r.status == Active then FailedOrLapsed(r, s, env.now) && FailedOrLapsed(r, again, env.now)
                   else InactiveStatus(s) && InactiveStatus(again))
            then DroppedInto(r, r')
            else r' == r
  {
  }

  lemma ActiveSettles(r: Row, e: Entity, invoices: Option<seq<Invoice>>, started: Time, env: Env)
    requires Good(r) && r.repl.Some? && r.repl.value != "" && e.id == r.repl && e.status == Some(PActive)
    ensures ReplacementActive(r, e, invoices, started, env).settled <==>
              || Switches(r, e, invoices, env)
              || ((r.status == Cancelled || r.status == Expired) && KnownPlan(env, e) && ProvenPaid(e, invoices))
  {
    hide PeriodPaid, ProvenPaid, ApplyActive;
    ProvenPaidExactly(e, invoices);
    GoodPending(r);
    if KnownPlan(env, e) { ActiveMeans(r, e, invoices, PlanNamed(env, e), true); }
  }

  /** When a replacement's fetch settles: an active answer must switch, or find the row
      ended; a dropping answer must be confirmed by the re-read; any other settles. */
  lemma ReplacementSettlesExactly(r: Row, e: Entity, invoices: Option<seq<Invoice>>, started: Time, env: Env, answer: Option<Entity>)
    requires Good(r)
    ensures ReplacementSnapshot(r, e, invoices, started, env, answer).settled <==>
              && r.repl.Some? && r.repl.value != "" && e.id == r.repl && e.status.Some?
              && (var s := e.status.value;
                  if s == PActive then
                    || Switches(r, e, invoices, env)
                    || ((r.status == Cancelled || r.status == Expired) && KnownPlan(env, e) && ProvenPaid(e, invoices))
                  else if r.committedAt.Some? then
                    FailedStatus(s) ==> Reread(r, answer) && FailedStatus(answer.value.status.value)
                  else if r.status == Active then
                    FailedOrLapsed(r, s, env.now) ==> Reread(r, answer) && FailedOrLapsed(r, answer.value.status.value, env.now)
                  else InactiveStatus(s) ==> Reread(r, answer) && InactiveStatus(answer.value.status.value))
  {
    hide AbandonUnlessActive, Retire, ReplacementActive, ProvenPaid, UsablePeriod;
    if r.repl.Some? {
      GoodPending(r);
      if r.repl.value != "" && e.id == r.repl && e.status == Some(PActive) { ActiveSettles(r, e, invoices, started, env); }
    }
  }

  /** A replacement paid after the row ended is reported once, and changes nothing else. */
  lemma PaidAfterEndOnce(r: Row, e: Entity, invoices: Option<seq<Invoice>>, started: Time, env: Env, answer: Option<Entity>)
    requires Good(r) && (r.status == Cancelled || r.status == Expired) && e.status == Some(PActive)
    ensures var r' := ReplacementSnapshot(r, e, invoices, started, env, answer).row;
            if r.repl.Some? && r.repl.value != "" && e.id == r.repl && KnownPlan(env, e) && ProvenPaid(e, invoices) && PaidAfterEnd !in r.log
            then r' == r.(log := r.log + [PaidAfterEnd])
            else r' == r
  {
    hide PeriodPaid, ProvenPaid;
    ProvenPaidExactly(e, invoices);
  }

  // --- the retired slot ---

  /** Every step's effect on the retired slot. */
  lemma NextRetires(w: World, act: Act)
    requires RowInv(w) && NewId(w, act)
    ensures var r, r' := w.row, Next(w, act).row;
            if act.step.Replacement? && r'.ref != r.ref then Switched(r, r') else KindKept(r, r')
  {
    hide RowInv, Good, Kept, Snapshot, ReplacementSnapshot, CommitT1, CommitT2Refused, CommitT2Confirmed, ReissueConfirmed,
         ClearRetired, StartCheckout, CancelSubscription, CancelAndRetire, AdvanceDunning, CloseDeparted, NeedsReissue,
         KeepsSlots, Switched, KindKept, Introduces, Remembers, DowngradeVerified;
    InvRow(w);
    var r, env := w.row, act.env;
    SameSlots(r);
    SlotsKept(r, r, None);
    match act.step
    case Main(e, invoices, started, answer) =>
      SnapshotGood(r, e, invoices, started, env, answer);
      SlotsKept(r, Next(w, act).row, None);
    case Replacement(e, invoices, started, answer) =>
      ReplacementSnapshotGood(r, e, invoices, started, env, answer);
      SwitchedOrKept(r, Next(w, act).row);
    case T1(answer) => CommitT1Good(r, env, answer); SlotsKept(r, CommitT1(r, env, answer).0, None);
    case T2(answer) =>
      if w.worker.Answered? {
        CommitT2RefusedGood(r, w.worker.prior, w.worker.repl, env, answer);
        ConfirmGood(r, w.worker.prior, w.worker.repl, env.now);
        SlotsKept(r, Next(w, act).row, None);
      }
    case FinishReissue =>
      if w.worker.Reissued? {
        ConfirmGood(r, w.worker.prior, w.worker.repl, env.now);
        SlotsKept(r, Next(w, act).row, None);
      }
    case DropRetired(ref) => ClearedKind(r, ref);
    case Checkout(plan, ack, a) => StartCheckoutGood(r, plan, ack, a, env);
    case Cancel(a) => CancelSubscriptionGood(r, a, env); SlotsKept(r, Next(w, act).row, None);
    case CancelPending(a) =>
      if r.repl.Some? { CancelAndRetireGood(r, true, a, env); SlotsKept(r, Next(w, act).row, None); }
    case Dunning => AdvanceDunningGood(r, env.now); SlotsKept(r, Next(w, act).row, None);
    case OwedRecord(ref, status) => SlotsKept(r, r.(providerStatus := Some(Recorded(status))), None) by { RecordedSlots(r, status); }
    case _ =>
  }

  lemma RecordedSlots(r: Row, status: ProviderStatus)
    ensures KeepsSlots(r, r.(providerStatus := Some(Recorded(status))))
  {
  }

  lemma ClearedKind(r: Row, ref: Ref)
    ensures KindKept(r, ClearRetired(r, ref))
  {
  }

  lemma SwitchedOrKept(r: Row, r': Row)
    requires Good(r) && (KeepsSlots(r, r') || Switched(r, r'))
    ensures if r'.ref != r.ref then Switched(r, r') else KindKept(r, r')
  {
  }

  /** The sweep of the retired slot cancels its subscription exactly when a fetch of it
      shows it not ended, the cancel succeeds, and it is the old side of a switch or
      not yet paid for. */
  lemma AskCancelsExactly(w: World, env: Env, fetched: Option<Entity>, cancelled: Option<Option<ProviderStatus>>, x: Ref)
    requires w.row.retired == Some(x) && x !in w.ended
    ensures x in Next(w, Act(env, AskRetired(fetched, cancelled))).ended <==>
              && w.row.retiredKind.Some? && fetched.Some? && fetched.value.id == Some(x) && fetched.value.status.Some?
              && !EndedStatus(fetched.value.status.value) && cancelled.Some?
              && (w.row.retiredKind == Some(SwitchedOld) || fetched.value.status.value == PCreated || fetched.value.status.value == PAuthenticated)
  {
    hide Snapshot, ReplacementSnapshot, CommitStep1, StartCheckout, CancelSubscription, CancelReplacement, AdvanceDunning, CommitT2Refused;
  }

  /** A subscription that a switch replaced is always cancelled: whatever status short
      of an end its next fetch shows, a successful cancel ends it. */
  lemma SwitchedIsCancelled(w: World, act: Act, env: Env, fetched: Entity, result: Option<ProviderStatus>, x: Ref)
    requires RowInv(w) && NewId(w, act) && act.step.Replacement? && Next(w, act).row.ref != w.row.ref && w.row.ref == Some(x)
    requires fetched.id == Some(x) && fetched.status.Some? && !EndedStatus(fetched.status.value)
    ensures x in Next(Next(w, act), Act(env, AskRetired(Some(fetched), Some(result)))).ended
  {
    hide RowInv, NewId, Next;
    NextRetires(w, act);
    var w1 := Next(w, act);
    if x !in w1.ended { AskCancelsExactly(w1, env, Some(fetched), Some(result), x); } else { EndedGrows(w1, env, Some(fetched), Some(result)); }
  }

  lemma EndedGrows(w: World, env: Env, fetched: Option<Entity>, cancelled: Option<Option<ProviderStatus>>)
    ensures w.ended <= Next(w, Act(env, AskRetired(fetched, cancelled))).ended
  {
    hide Snapshot, ReplacementSnapshot, CommitStep1, StartCheckout, CancelSubscription, CancelReplacement, AdvanceDunning, CommitT2Refused;
  }

  /** A subscription that any other step retired is cancelled only while it is created
      or authenticated: one the merchant may be paying for is left alone. */
  lemma AbandonedIsSpared(w: World, act: Act, env: Env, fetched: Option<Entity>, cancelled: Option<Option<ProviderStatus>>, x: Ref)
    requires RowInv(w) && NewId(w, act) && !(act.step.Replacement? && Next(w, act).row.ref != w.row.ref)
    requires w.row.retired != Some(x) && Next(w, act).row.retired == Some(x) && x !in Next(w, act).ended
    ensures x in Next(Next(w, act), Act(env, AskRetired(fetched, cancelled))).ended <==>
              && fetched.Some? && fetched.value.id == Some(x) && cancelled.Some?
              && (fetched.value.status == Some(PCreated) || fetched.value.status == Some(PAuthenticated))
  {
    hide RowInv, NewId, Next;
    NextRetires(w, act);
    AskCancelsExactly(Next(w, act), env, fetched, cancelled, x);
  }

  /** The retired slot is emptied by name, only once the provider was seen to have ended
      that subscription; its events are closed and nothing else of the row changes. */
  lemma DropsRetiredExactly(w: World, env: Env, x: Ref)
    ensures Next(w, Act(env, DropRetired(x))).row
         == if x in w.terminal && w.row.retired == Some(x)
            then w.row.(retired := None, retiredKind := None, marks := w.row.marks + [x]) else w.row
  {
    hide Snapshot, ReplacementSnapshot, CommitStep1, StartCheckout, CancelSubscription, CancelReplacement, AdvanceDunning, CommitT2Refused;
  }
}
