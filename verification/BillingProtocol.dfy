/** The downgrade commit protocol: what its marker means, when it can go, and what a
    crash leaves for the next sweep. */
module BillingProtocol {
  import opened Common
  import opened BillingTypes
  import opened BillingSnapshot
  import opened BillingCheckout
  import opened BillingInvariants
  import opened BillingEffects
  import opened BillingWorld
  import opened BillingRun
  import opened BillingMeaning

  // --- schedule only after the marker ---

  /** In every run without an inherited open marker, every pair whose old subscription
      was ever scheduled to end had its marker made durable, and before: whatever the
      next step is, a pair it schedules is already marked, and still marked if pending. */
  lemma ScheduledOnlyAfterMarker(w: World, acts: seq<Act>, act: Act, pair: (Ref, Ref))
    requires Initial(w) && NewIds(w, acts) && InheritsNoneOpen(w, acts)
    ensures var now := Run(w, acts);
            && (pair in now.scheduled ==> pair in now.marked)
            && (pair in Next(now, act).scheduled && pair !in now.scheduled ==>
                  && pair in now.marked && StillMarked(now.row, pair.0, pair.1)
                  && (act.step.CallCancel? || act.step.CallReissue?))
  {
    hide Initial, NewIds, InheritsNoneOpen, RowInv, Next, Run;
    InitialKeeps(w);
    RunKeeps(w, acts);
    RunKeepsOpenMarker(w, acts);
    SchedulingStep(Run(w, acts), act, pair);
  }

  /** In every run without an inherited marker, the row's marker is one a verification
      wrote for its present pair, and its confirmation follows a real schedule of it. */
  lemma MarkerNamesItsPair(w: World, acts: seq<Act>)
    requires Initial(w) && NewIds(w, acts) && InheritsNone(w, acts)
    ensures var now := Run(w, acts);
            && (now.row.committedAt.Some? ==>
                  now.row.ref.Some? && now.row.repl.Some? && (now.row.ref.value, now.row.repl.value) in now.marked)
            && (now.row.confirmedAt.Some? ==>
                  now.row.ref.Some? && now.row.repl.Some? && (now.row.ref.value, now.row.repl.value) in now.scheduled)
  {
    hide Initial, NewIds, InheritsNone, RowInv, Run;
    InitialKeeps(w);
    RunKeepsMarker(w, acts);
  }

  lemma SchedulingStep(w: World, act: Act, pair: (Ref, Ref))
    requires RowInv(w)
    ensures pair in Next(w, act).scheduled && pair !in w.scheduled ==>
              && (act.step.CallCancel? || act.step.CallReissue?)
              && pair in PairOf(w.worker) && StillMarked(w.row, pair.0, pair.1)
  {
    hide Good, Kept, NoneLost, Remembered, Snapshot, ReplacementSnapshot, CommitT1, CommitT2Refused, AdvanceDunning,
         StartCheckout, CancelSubscription, CancelReplacement, NeedsReissue;
  }

  /** Everything a commit needs, written out: an idle worker, an ACTIVE row with an
      uncommitted replacement for a cheaper plan, and a re-read of that replacement
      that is authorized for exactly this plan, start and expiry, before both the
      expiry and the cutoff, with both field gates and the window configured. */
  predicate MayCommit(w: World, answer: Option<Entity>, env: Env) {
    var r := w.row;
    && w.worker.Idle? && r.status == Active && r.repl.Some? && r.ref.Some? && r.committedAt == None
    && r.replPlan.Some? && r.replPlan.value.price < r.plan.price
    && answer.Some? && answer.value.id == r.repl && answer.value.status == Some(PAuthenticated)
    && answer.value.planId == r.replPlan.value.providerId
    && env.startGate && r.periodEnd.Some? && answer.value.startField == r.periodEnd
    && env.expiryGate && r.replExpires.Some? && answer.value.expiryField == r.replExpires
    && env.now < r.replExpires.value
    && env.downgradeWindow.Some? && env.downgradeWindow.value > 0 && env.now < r.periodEnd.value - env.downgradeWindow.value
  }

  predicate WritesMarker(w: World, w': World) { w.row.committedAt.None? && w'.row.committedAt.Some? }

  /** A step writes a marker if and only if it is a T1 that may commit. It then marks
      exactly that pair, at that instant, and goes on to the first call. */
  lemma MarksExactly(w: World, act: Act)
    requires RowInv(w) && NewId(w, act)
    ensures WritesMarker(w, Next(w, act)) <==> act.step.T1? && MayCommit(w, act.step.answer, act.env)
    ensures WritesMarker(w, Next(w, act)) ==>
              var pair := (w.row.ref.value, w.row.repl.value);
              && Next(w, act).row == w.row.(committedAt := Some(act.env.now), log := w.row.log + [ReplacementCommitted])
              && Next(w, act).marked == w.marked + {pair} && Next(w, act).worker == MustCancel(pair.0, pair.1)
  {
    hide RowInv, Next, NewId, Overwriting;
    if act.step.T1? {
      CommitMarksExactly(w, act.env, act.step.answer);
    } else {
      OnlyT1Writes(w, act);
    }
  }

  /** A pair is newly marked only by that T1. */
  lemma MarkedOnlyWhenVerified(w: World, act: Act, pair: (Ref, Ref))
    requires pair in Next(w, act).marked && pair !in w.marked
    ensures act.step.T1? && MayCommit(w, act.step.answer, act.env)
    ensures pair == (w.row.ref.value, w.row.repl.value) && Next(w, act).row.committedAt == Some(act.env.now)
  {
    hide Snapshot, ReplacementSnapshot, CommitT2Refused, AdvanceDunning, StartCheckout, CancelSubscription,
         CancelReplacement, NeedsReissue, AbandonUnlessActive;
  }

  lemma CommitMarksExactly(w: World, env: Env, answer: Option<Entity>)
    requires RowInv(w)
    ensures var w' := Next(w, Act(env, T1(answer)));
            && (WritesMarker(w, w') <==> MayCommit(w, answer, env))
            && (WritesMarker(w, w') ==>
                  var pair := (w.row.ref.value, w.row.repl.value);
                  && w'.row == w.row.(committedAt := Some(env.now), log := w.row.log + [ReplacementCommitted])
                  && w'.marked == w.marked + {pair} && w'.worker == MustCancel(pair.0, pair.1))
  {
    InvRow(w);
    GoodMarker(w.row);
    hide RowInv, Good, Snapshot, ReplacementSnapshot, CommitT2Refused, AdvanceDunning, StartCheckout, CancelSubscription,
         CancelReplacement, NeedsReissue, Retire, CloseDeparted;
  }

  lemma OnlyT1Writes(w: World, act: Act)
    requires RowInv(w) && NewId(w, act) && !act.step.T1?
    ensures !WritesMarker(w, Next(w, act))
  {
    hide RowInv, Snapshot, ReplacementSnapshot, CommitT1, CommitT2Refused, CommitT2Confirmed, AdvanceDunning, StartCheckout,
         CancelSubscription, CancelReplacement, ClearRetired, RowStep, Settles, Careful, NewId, Overwriting, Good;
    var env := act.env;
    InvRow(w);
    match act.step
    case Main(e, invoices, started, answer) => MainCareful(w, env, e, invoices, started, answer); CarefulWritesNone(w, Next(w, act));
    case Replacement(e, invoices, started, answer) =>
      ReplacementCareful(w, env, e, invoices, started, answer);
      CarefulWritesNone(w, Next(w, act));
    case Cancel(a) => CancelCareful(w, env, a); CarefulWritesNone(w, Next(w, act));
    case CancelPending(a) => CancelPendingCareful(w, env, a); CarefulWritesNone(w, Next(w, act));
    case Dunning => DunningCareful(w, env); CarefulWritesNone(w, Next(w, act));
    case DropRetired(ref) => if ref in w.terminal { DropRetiredCareful(w, env, ref); CarefulWritesNone(w, Next(w, act)); }
    case Checkout(plan, ack, a) => CheckoutWritesNone(w, act);
    case T2(answer) =>
      if w.worker.Answered? {
        RefusedMarker(w.row, w.worker.prior, w.worker.repl, env, answer);
        ConfirmedMarker(w.row, w.worker.prior, w.worker.repl, env.now);
      }
    case FinishReissue => if w.worker.Reissued? { ConfirmedMarker(w.row, w.worker.prior, w.worker.repl, env.now); }
    case _ =>
  }

  lemma CarefulWritesNone(w: World, w': World)
    requires Careful(w, w')
    ensures !WritesMarker(w, w')
  {
    GoodMarker(w'.row);
    hide Good, Kept, Settles;
  }

  lemma CheckoutWritesNone(w: World, act: Act)
    requires RowInv(w) && NewId(w, act) && act.step.Checkout?
    ensures !WritesMarker(w, Next(w, act))
  {
    hide RowInv, NewId, Next, Overwriting, Kept, Settles;
    CheckoutMoves(w, act);
    GoodMarker(Next(w, act).row);
    if Overwriting(w, act) { OverwritingSettles(w, act); }
    hide Good;
  }

  lemma ConfirmedMarker(r: Row, prior: Ref, repl: Ref, now: Time)
    ensures CommitT2Confirmed(r, prior, repl, now).committedAt == r.committedAt
    ensures ReissueConfirmed(r, prior, repl, now).committedAt == r.committedAt
  {
  }

  /** An authorized downgrade that may not commit is given up: the replacement leaves
      its slot for the retired one, whose sweep cancels it. */
  lemma UnverifiedIsDropped(w: World, env: Env, answer: Entity)
    requires RowInv(w) && w.worker.Idle? && w.row.status == Active && w.row.repl.Some? && w.row.committedAt == None
    requires w.row.replPlan.Some? && w.row.replPlan.value.price < w.row.plan.price
    requires answer.id == w.row.repl && answer.status == Some(PAuthenticated) && !MayCommit(w, Some(answer), env)
    ensures DroppedInto(w.row, Next(w, Act(env, T1(Some(answer)))).row)
    ensures Next(w, Act(env, T1(Some(answer)))).worker.Idle?
  {
    InvRow(w);
    GoodMarker(w.row);
    GoodPending(w.row);
    AbandonMeans(w.row, Some(answer), env);
    hide RowInv, Good, Snapshot, ReplacementSnapshot, CommitT2Refused, AdvanceDunning, StartCheckout, CancelSubscription,
         CancelReplacement, NeedsReissue, AbandonUnlessActive, CloseDeparted, DroppedInto;
  }

  /** Every other T1 - no candidate, an upgrade's replacement, an unreadable or not
      authorized re-read - changes nothing. */
  lemma OtherT1IsNoOp(w: World, env: Env, answer: Option<Entity>)
    requires RowInv(w) && w.worker.Idle?
    requires !(w.row.status == Active && w.row.repl.Some? && w.row.committedAt == None
               && w.row.replPlan.Some? && w.row.replPlan.value.price < w.row.plan.price
               && answer.Some? && answer.value.id == w.row.repl && answer.value.status == Some(PAuthenticated))
    ensures Next(w, Act(env, T1(answer))).row == w.row && Next(w, Act(env, T1(answer))).worker.Idle?
  {
    hide RowInv, Snapshot, ReplacementSnapshot, CommitT2Refused, AdvanceDunning, StartCheckout, CancelSubscription,
         CancelReplacement, NeedsReissue, AbandonUnlessActive, CloseDeparted;
  }

  /** T2, written out. The row must still stand at the worker's pair with its marker.
      A confirmation is then recorded; a refusal clears the marker and, if the re-read
      says the replacement is created, authenticated, failed or ended, drops it. */
  lemma T2Means(w: World, env: Env, answer: Option<Entity>)
    requires RowInv(w) && w.worker.Answered?
    ensures var r, w' := w.row, Next(w, Act(env, T2(answer)));
            && w'.worker.Idle?
            && (if r.ref != Some(w.worker.prior) || r.repl != Some(w.worker.repl) || r.committedAt.None? then w'.row == r
                else if w.worker.confirmed then w'.row == r.(confirmedAt := Some(env.now))
                else if Reread(r, answer) && InactiveStatus(answer.value.status.value) then DroppedInto(r, w'.row)
                else w'.row == r.(committedAt := None))
  {
    InvRow(w);
    if w.row.repl.Some? {
      var cleared := w.row.(committedAt := None);
      if w.row.repl == Some(w.worker.repl) && !w.worker.confirmed {
        assert w.row.confirmedAt.None?;
        ClearedGood(w.row);
        AbandonMeans(cleared, Refetch(cleared, answer), env);
      }
    }
    hide RowInv, Good, Snapshot, ReplacementSnapshot, CommitT1, AdvanceDunning, StartCheckout, CancelSubscription,
         CancelReplacement, NeedsReissue, AbandonUnlessActive, CloseDeparted;
  }

  lemma ClearedGood(r: Row)
    requires Good(r) && r.confirmedAt.None?
    ensures Good(r.(committedAt := None))
  {
  }

  // --- the marker's only ways out ---

  predicate MarkerStays(r: Row, r': Row) {
    r.committedAt.Some? ==> r'.committedAt == r.committedAt
  }

  lemma SnapshotMarkerStays(r: Row, e: Entity, invoices: Option<seq<Invoice>>, started: Time, env: Env, answer: Option<Entity>)
    ensures MarkerStays(r, Snapshot(r, e, invoices, started, env, answer).row)
  {
    hide ApplyActive, ApplyPaymentFailed, ApplyTerminal, AbandonUnlessActive;
    var plan := LookupPlan(env, e.planId);
    if plan.Some? { ActiveKeepsMarker(r, e, invoices, plan.value); }
    PartsKeepMarker(r, env);
    var failed, ended := ApplyPaymentFailed(r, env.now), ApplyTerminal(r, env.now);
    AbandonKeepsMarker(failed, Refetch(failed, answer), env);
    AbandonKeepsMarker(ended, Refetch(ended, answer), env);
  }

  lemma ActiveKeepsMarker(r: Row, e: Entity, invoices: Option<seq<Invoice>>, plan: Plan)
    ensures ApplyActive(r, e, invoices, plan, false).row.committedAt == r.committedAt
  {
    hide PeriodPaid;
  }

  lemma PartsKeepMarker(r: Row, env: Env)
    ensures ApplyPaymentFailed(r, env.now).committedAt == r.committedAt && ApplyTerminal(r, env.now).committedAt == r.committedAt
  {
  }

  lemma AbandonKeepsMarker(r: Row, reread: Option<Entity>, env: Env)
    ensures AbandonUnlessActive(r, WhenNotActive, reread, env).committedAt == r.committedAt
  {
  }

  lemma CheckoutMarkerStays(r: Row, plan: Plan, ack: bool, a: Answers, env: Env)
    ensures MarkerStays(r, StartCheckout(r, plan, ack, a, env).row)
  {
    hide Reconcile, CheckoutByStatus;
    ByStatusMarkerStays(r, r.status, None, plan, ack, a, env);
    if Reconcile(r, a, env).Some? {
      ReconcileMarkerStays(r, a, env);
      ByStatusMarkerStays(Reconcile(r, a, env).value, r.status, a.current, plan, ack, a, env);
    }
  }

  lemma ReconcileMarkerStays(r: Row, a: Answers, env: Env)
    requires Reconcile(r, a, env).Some?
    ensures MarkerStays(r, Reconcile(r, a, env).value)
  {
    hide Snapshot;
    SnapshotMarkerStays(r, a.current.value, None, a.started, env, a.replacement);
    SnapshotMarkerStays(r, a.current.value, a.invoices, a.started, env, a.replacement);
  }

  lemma ByStatusMarkerStays(r: Row, before: Status, e: Option<Entity>, plan: Plan, ack: bool, a: Answers, env: Env)
    ensures MarkerStays(r, CheckoutByStatus(r, before, e, plan, ack, a, env).row)
  {
    hide ReplaceProvider, CheckoutActive;
    ReplaceMarkerStays(r, plan, true, a, env);
    ReplaceMarkerStays(r, plan, false, a, env);
    ActiveMarkerStays(r, plan, ack, a, env);
  }

  lemma ReplaceMarkerStays(r: Row, plan: Plan, cancelCurrent: bool, a: Answers, env: Env)
    ensures MarkerStays(r, ReplaceProvider(r, plan, cancelCurrent, a, env).row)
  {
    hide Retire;
  }

  lemma ActiveMarkerStays(r: Row, plan: Plan, ack: bool, a: Answers, env: Env)
    ensures MarkerStays(r, CheckoutActive(r, plan, ack, a, env).row)
  {
    hide Snapshot;
    if a.update.Updated? {
      SnapshotMarkerStays(r, a.update.entity, None, a.updateStarted, env, a.replacementLater);
      SnapshotMarkerStays(r, a.update.entity, a.updateInvoices, a.updateStarted, env, a.replacementLater);
    }
  }

  /** A replacement snapshot drops the marker only by switching on a paid proof, or
      when the re-read reports the replacement failed. */
  lemma ReplacementMarkerExit(r: Row, e: Entity, invoices: Option<seq<Invoice>>, started: Time, env: Env, answer: Option<Entity>)
    requires Good(r)
    ensures var r' := ReplacementSnapshot(r, e, invoices, started, env, answer).row;
            r.committedAt.Some? && r'.committedAt.None? ==>
              || (Switched(r, r') && e.id == r.repl && PeriodPaid(e, invoices).Some?)
              || (r'.retired == r.repl && Refetch(r, answer).Some? && Failed(answer.value.status.value))
  {
    hide PeriodPaid, ApplyActive, Abandonable;
    ActiveEffect(r, e, invoices, r.plan, true);
    var plan := LookupPlan(env, e.planId);
    if plan.Some? { ActiveEffect(r, e, invoices, plan.value, true); }
  }

  /** The marker goes only on a paid switch, a provider-reported failure, the
      merchant's own cancel, or a definite refusal of the first call - and after
      such a refusal the old subscription was never scheduled to end. */
  lemma MarkerGoesOnlyFor(w: World, act: Act)
    requires RowInv(w)
    ensures w.row.committedAt.Some? && Next(w, act).row.committedAt.None? ==>
      || (act.step.Replacement? && Switched(w.row, Next(w, act).row) && PeriodPaid(act.step.e, act.step.invoices).Some?)
      || (act.step.Replacement? && Refetch(w.row, act.step.answer).Some? && Failed(act.step.answer.value.status.value))
      || (act.step.Cancel? && Next(w, act).row.retired == w.row.repl)
      || (act.step.T2? && w.worker.Answered? && !w.worker.confirmed &&
          w.row.ref == Some(w.worker.prior) && w.row.repl == Some(w.worker.repl) &&
          (w.worker.prior, w.worker.repl) !in Next(w, act).scheduled)
  {
    hide Good, Kept, NoneLost, Remembered, Snapshot, ReplacementSnapshot, StartCheckout, CancelSubscription,
         CancelAndRetire, NeedsReissue, CloseDeparted, PeriodPaid, Retire, Refetch, DowngradeVerified, Switched;
    InvRow(w);
    var env := act.env;
    match act.step
    case Main(e, invoices, started, answer) => SnapshotMarkerStays(w.row, e, invoices, started, env, answer);
    case Replacement(e, invoices, started, answer) => ReplacementMarkerExit(w.row, e, invoices, started, env, answer);
    case Checkout(plan, ack, a) => CheckoutMarkerStays(w.row, plan, ack, a, env);
    case Cancel(a) => CancelMarkerExit(w.row, a, env);
    case CancelPending(a) => PendingMarkerStays(w.row, a, env);
    case T1(answer) =>
    case _ =>
  }

  lemma PendingMarkerStays(r: Row, a: Answers, env: Env)
    ensures MarkerStays(r, CancelReplacement(r, a, env).row)
  {
    hide Retire;
  }

  lemma CancelMarkerExit(r: Row, a: Answers, env: Env)
    requires Good(r)
    ensures var r' := CancelSubscription(r, a, env).row;
            r.committedAt.Some? && r'.committedAt.None? ==> r'.retired == r.repl
  {
    hide CancelAndRetire, CancelCurrent, Good;
    CancelSubscriptionGood(r, a, env);
    GoodMarker(r);
    if r.repl.Some? {
      RetiresOrRefuses(r, a, env);
    }
    MarkerNeedsPending(r, a, env);
  }

  lemma MarkerNeedsPending(r: Row, a: Answers, env: Env)
    requires Good(r)
    ensures var r' := CancelSubscription(r, a, env).row; r'.repl.Some? && r'.repl == r.repl ==> MarkerStays(r, r')
  {
    hide CancelSubscription;
    CancelSubscriptionMarker(r, a, env);
  }

  lemma CancelSubscriptionMarker(r: Row, a: Answers, env: Env)
    requires Good(r)
    ensures SameMarker(r, CancelSubscription(r, a, env).row)
  {
    hide CancelAndRetire, CancelCurrent, Good;
    if r.repl.Some? {
      CancelAndRetireMild(r, false, a, env);
      CancelAndRetireGood(r, false, a, env);
      CancelAndRetireStatus(r, false, a, env);
      var first := CancelAndRetire(r, false, a, env).row;
      if first.repl.None? && Entitled(first) { CancelCurrentGood(first, a, env); }
    } else if Entitled(r) {
      CancelCurrentGood(r, a, env);
    }
  }

  lemma RetiresOrRefuses(r: Row, a: Answers, env: Env)
    requires r.repl.Some?
    ensures var reply := CancelAndRetire(r, false, a, env);
            reply.refusal.Some? ==> reply.row == r
  {
  }

  // --- while the marker stands ---

  lemma CommittedStays(r: Row, env: Env, e: Entity, invoices: Option<seq<Invoice>>, started: Time, answer: Option<Entity>)
    requires CommittedDowngrade(r) && e.status.Some? && Terminal(e.status.value)
    ensures var r' := Snapshot(r, e, invoices, started, env, answer).row;
            || r' == r
            || (r.ref.Some? && r' == r.(providerStatus := e.status, syncedAt := Some(started), stamps := r.stamps + [Stamp(r.ref.value, started)]))
  {
    hide ApplyTerminal, ApplyActive, AbandonUnlessActive, Refetch;
  }

  /** Rule 5: while a committed replacement stands on an ACTIVE row, a terminal
      answer for the old subscription only stamps the fetch. */
  lemma TerminalDoesNotMoveCommitted(w: World, env: Env, e: Entity, invoices: Option<seq<Invoice>>, started: Time, answer: Option<Entity>)
    requires CommittedDowngrade(w.row) && e.status.Some? && Terminal(e.status.value)
    ensures var r' := Next(w, Act(env, Main(e, invoices, started, answer))).row;
            || r' == w.row
            || r' == w.row.(providerStatus := e.status, syncedAt := Some(started), stamps := w.row.stamps + [Stamp(w.row.ref.value, started)])
  {
    hide Snapshot, ReplacementSnapshot, StartCheckout, CancelSubscription, CancelReplacement, CommitStep1, CommitT2Refused,
         AdvanceDunning, AskAboutRetired, NeedsReissue, CloseDeparted, MarkMain, CommittedDowngrade;
    CommittedStays(w.row, env, e, invoices, started, answer);
  }

  // --- crash recovery ---

  /** One sweep over an authenticated replacement: its snapshot, the commit attempt,
      then the re-issue. */
  function Sweep(env: Env, e: Entity, started: Time, again: Option<Entity>, outcome: CallOutcome): seq<Act> {
    [Act(env, Replacement(e, None, started, None)), Act(env, T1(again)), Act(env, BeginReissue),
     Act(env, CallReissue(outcome)), Act(env, FinishReissue)]
  }

  lemma SweepLeavesCommitted(w: World, env: Env, e: Entity, started: Time, again: Option<Entity>)
    requires RowInv(w) && w.worker.Idle? && NeedsReissue(w.row) && e.id == w.row.repl && e.status == Some(PAuthenticated)
    ensures var w1 := Next(w, Act(env, Replacement(e, None, started, None)));
            w1.row == w.row && w1.worker.Idle? && w1.scheduled == w.scheduled && Next(w1, Act(env, T1(again))).row == w.row &&
            Next(w1, Act(env, T1(again))).worker.Idle? && Next(w1, Act(env, T1(again))).scheduled == w.scheduled
  {
    hide Good, Kept, Snapshot, StartCheckout, CancelSubscription, CancelReplacement, CommitT2Refused,
         AdvanceDunning, AskAboutRetired, ReplacementActive, ClearFailedCommitted, AbandonUnlessActive,
         CloseDeparted, MarkReplacement;
  }

  /** A committed pair whose cancel is unconfirmed - whatever crash or timeout left it
      so - is re-issued by the next sweep that finds the replacement authenticated:
      the old subscription is scheduled again, a confirmed answer is recorded, and
      any other answer leaves the marker for the sweep after it. */
  lemma NextSweepReissues(w: World, env: Env, e: Entity, started: Time, again: Option<Entity>, outcome: CallOutcome)
    requires RowInv(w) && w.worker.Idle? && NeedsReissue(w.row) && e.id == w.row.repl && e.status == Some(PAuthenticated)
    ensures var w' := Run(w, Sweep(env, e, started, again, outcome));
            && w.row.ref.Some? && w'.worker.Idle?
            && (outcome.Confirmed? || outcome.UnknownApplied? ==> (w.row.ref.value, w.row.repl.value) in w'.scheduled)
            && (outcome.Confirmed? ==> w'.row == w.row.(confirmedAt := Some(env.now)))
            && (!outcome.Confirmed? ==> w'.row == w.row)
  {
    hide Good, Kept, Snapshot, ReplacementSnapshot, StartCheckout, CancelSubscription, CancelReplacement,
         CommitStep1, CommitT2Refused, AdvanceDunning, AskAboutRetired, CloseDeparted;
    var acts := Sweep(env, e, started, again, outcome);
    GoodMarker(w.row);
    SweepLeavesCommitted(w, env, e, started, again);
    var w2 := Next(Next(w, acts[0]), acts[1]);
    var w3 := Next(w2, acts[2]);
    assert w3.worker == MustReissue(w.row.ref.value, w.row.repl.value) && w3.row == w.row;
    var w4 := Next(w3, acts[3]);
    assert w4.row == w.row;
    FiveSteps(w, acts, [w, Next(w, acts[0]), w2, w3, w4, Next(w4, acts[4])]);
  }

  lemma FiveSteps(w: World, acts: seq<Act>, trace: seq<World>)
    requires |acts| == 5 && |trace| == 6 && trace[0] == w
    requires trace[1] == Next(trace[0], acts[0]) && trace[2] == Next(trace[1], acts[1]) && trace[3] == Next(trace[2], acts[2])
    requires trace[4] == Next(trace[3], acts[3]) && trace[5] == Next(trace[4], acts[4])
    ensures Run(w, acts) == trace[5]
  {
    hide Next, NewId, Run;
    TraceIsRun(w, acts, trace);
  }

  // --- why one worker ---

  /** With a second worker the refusal no longer means "never scheduled": it re-issues
      and confirms the cancel between the first worker's refused call and its T2. The
      refused T2 then leaves a confirmation without a marker, which the database
      refuses - unless its re-read lets the replacement be dropped altogether. */
  lemma SecondWorkerBreaksRefusal(r: Row, prior: Ref, repl: Ref, env: Env, answer: Option<Entity>)
    requires Good(r) && StandsCommitted(r, prior, repl) && NeedsReissue(r)
    ensures Good(ReissueConfirmed(r, prior, repl, env.now))
    ensures Checks(CommitT2Refused(ReissueConfirmed(r, prior, repl, env.now), prior, repl, env, answer)) <==>
              Refetch(r, answer).Some? && NotActive(answer.value.status.value)
    ensures Good(CommitT2Refused(r, prior, repl, env, answer))
  {
    hide Retire;
    ConfirmGood(r, prior, repl, env.now);
    CommitT2RefusedGood(ReissueConfirmed(r, prior, repl, env.now), prior, repl, env, answer);
    CommitT2RefusedGood(r, prior, repl, env, answer);
    CommitT2RefusedSlots(ReissueConfirmed(r, prior, repl, env.now), prior, repl, env, answer);
  }

  /** The refused T2 can break a constraint, never the slot discipline. */
  lemma CommitT2RefusedSlots(r: Row, prior: Ref, repl: Ref, env: Env, answer: Option<Entity>)
    requires Good(r)
    ensures SlotDiscipline(CommitT2Refused(r, prior, repl, env, answer))
  {
  }
}
