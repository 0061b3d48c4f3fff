/** The webhook inbox: which events a step may mark as processed. */
module BillingEvents {
  import opened Common
  import opened BillingTypes
  import opened BillingSnapshot
  import opened BillingCheckout
  import opened BillingInvariants
  import opened BillingEffects
  import opened BillingWorld
  import opened BillingRun
  import opened BillingLostRun

  /** A subscription that enters or leaves the retired slot has its events closed. */
  predicate MovesMarked(r: Row, r': Row) {
    && (r'.retired.Some? && r'.retired != r.retired ==> r'.retired.value in NewMarks(r, r'))
    && (r.retired.Some? && r'.retired != r.retired ==> r.retired.value in NewMarks(r, r'))
  }

  /** The refs a step closes the events of were in a slot before and are not the
      live replacement afterwards, and every ref that moves is among them. */
  ghost predicate Departs(r: Row, r': Row) {
    && r.marks <= r'.marks && MovesMarked(r, r')
    && (forall m :: m in NewMarks(r, r') ==> Holds(r, m) && r'.repl != Some(m))
  }

  lemma Stays(r: Row, r': Row)
    requires r'.marks == r.marks && r'.retired == r.retired
    ensures Departs(r, r')
  {
  }

  lemma RetireDeparts(r: Row, e: Entity, env: Env)
    requires r.repl.Some? && r.retired.None?
    ensures Retire(r, e, env).marks == r.marks + [r.repl.value] && Retire(r, e, env).repl.None? && Departs(r, Retire(r, e, env))
  {
    var r' := Retire(r, e, env);
    assert r'.marks[|r.marks|..] == [r.repl.value];
  }

  lemma AbandonDeparts(r: Row, test: AbandonTest, reread: Option<Entity>, env: Env)
    ensures Departs(r, AbandonUnlessActive(r, test, reread, env))
  {
    hide Retire;
    if Abandons(r, test, reread) { RetireDeparts(r, reread.value, env); }
  }

  lemma PartsStay(r: Row, e: Entity, invoices: Option<seq<Invoice>>, plan: Plan, isSwitch: bool, now: Time)
    ensures ApplyActive(r, e, invoices, plan, isSwitch).row.marks == r.marks && ApplyActive(r, e, invoices, plan, isSwitch).row.retired == r.retired
    ensures ApplyPaymentFailed(r, now).marks == r.marks && ApplyPaymentFailed(r, now).ref == r.ref && ApplyPaymentFailed(r, now).repl == r.repl && ApplyPaymentFailed(r, now).retired == r.retired
    ensures ApplyTerminal(r, now).marks == r.marks && ApplyTerminal(r, now).ref == r.ref && ApplyTerminal(r, now).repl == r.repl && ApplyTerminal(r, now).retired == r.retired
    ensures AdvanceDunning(r, now).marks == r.marks && AdvanceDunning(r, now).retired == r.retired
  {
    hide PeriodPaid;
  }

  lemma SnapshotDeparts(r: Row, e: Entity, invoices: Option<seq<Invoice>>, started: Time, env: Env, answer: Option<Entity>)
    ensures Departs(r, Snapshot(r, e, invoices, started, env, answer).row)
  {
    hide ApplyActive, ApplyPaymentFailed, ApplyTerminal, AbandonUnlessActive;
    var plan := LookupPlan(env, e.planId);
    if plan.Some? {
      PartsStay(r, e, invoices, plan.value, false, env.now);
      var failed, ended := ApplyPaymentFailed(r, env.now), ApplyTerminal(r, env.now);
      AbandonDeparts(failed, WhenNotActive, Refetch(failed, answer), env);
      AbandonDeparts(ended, WhenNotActive, Refetch(ended, answer), env);
    }
  }

  lemma SwitchDeparts(r: Row, e: Entity, invoices: Option<seq<Invoice>>, plan: Plan, started: Time)
    ensures Departs(r, Switch(r, e, invoices, plan, started).row)
  {
    hide ApplyActive, OpenIf;
    PartsStay(r, e, invoices, plan, true, 0);
    var r' := Switch(r, e, invoices, plan, started).row;
    assert r.ref.Some? ==> (r.marks + [r.ref.value])[|r.marks|..] == [r.ref.value];
  }

  lemma ReplacementDeparts(r: Row, e: Entity, invoices: Option<seq<Invoice>>, started: Time, env: Env, answer: Option<Entity>)
    ensures Departs(r, ReplacementSnapshot(r, e, invoices, started, env, answer).row)
  {
    hide Switch, AbandonUnlessActive, Retire, Abandonable, PeriodPaid, Departs;
    Stays(r, r);
    Stays(r, Audit(r, PaidAfterEnd));
    var plan := LookupPlan(env, e.planId);
    if plan.Some? { SwitchDeparts(r, e, invoices, plan.value, started); }
    AbandonDeparts(r, WhenNotActive, Refetch(r, answer), env);
    AbandonDeparts(r, WhenFailedOrLapsed(env.now, r.replExpires), Refetch(r, answer), env);
    var reread := Refetch(r, answer);
    if r.repl.Some? && r.retired.None? && reread.Some? { RetireDeparts(r, reread.value, env); }
  }

  lemma CommitDeparts(r: Row, prior: Ref, repl: Ref, env: Env, answer: Option<Entity>)
    ensures Departs(r, CommitT1(r, env, answer).0) && Departs(r, CommitT2Refused(r, prior, repl, env, answer))
  {
    hide AbandonUnlessActive, DowngradeVerified;
    AbandonDeparts(r, WhenNotActive, Refetch(r, answer), env);
    var cleared := r.(committedAt := None);
    AbandonDeparts(cleared, WhenNotActive, Refetch(cleared, answer), env);
  }

  lemma ClearDeparts(r: Row, ref: Ref)
    requires Good(r)
    ensures Departs(r, ClearRetired(r, ref))
  {
    assert (r.marks + [ref])[|r.marks|..] == [ref];
  }

  lemma MovesTwice(r: Row, r1: Row, r2: Row)
    requires r.marks <= r1.marks <= r2.marks && MovesMarked(r, r1) && MovesMarked(r1, r2)
    ensures MovesMarked(r, r2)
  {
    forall m | m in NewMarks(r, r1) || m in NewMarks(r1, r2) ensures m in NewMarks(r, r2) {
      if m in NewMarks(r, r1) {
        var i :| |r.marks| <= i < |r1.marks| && r1.marks[i] == m;
        assert r2.marks[i] == m;
      } else {
        var i :| |r1.marks| <= i < |r2.marks| && r2.marks[i] == m;
      }
    }
  }

  /** Two stages of one request. */
  lemma DepartsTwice(r: Row, r1: Row, r2: Row, created: Option<Entity>)
    requires Departs(r, r1) && Departs(r1, r2) && Introduces(r, r1, None)
    requires r2.repl == r1.repl || r2.repl.None? || (created.Some? && r2.repl == created.value.id)
    requires created.Some? && created.value.id.Some? ==> !Holds(r, created.value.id.value)
    ensures Departs(r, r2)
  {
    MovesTwice(r, r1, r2);
    forall m | m in NewMarks(r, r2) ensures Holds(r, m) && r2.repl != Some(m) {
      var i :| |r.marks| <= i < |r2.marks| && r2.marks[i] == m;
      if i < |r1.marks| {
        assert r1.marks[i] == m;
        assert m in NewMarks(r, r1);
      } else {
        assert m in NewMarks(r1, r2);
      }
    }
  }

  lemma ReplaceDeparts(r: Row, plan: Plan, cancelCurrent: bool, a: Answers, env: Env)
    ensures Departs(r, ReplaceProvider(r, plan, cancelCurrent, a, env).row)
  {
    hide Retire;
    var reread := Refetch(r, a.replacementLater);
    if r.repl.Some? && r.retired.None? && reread.Some? { RetireDeparts(r, reread.value, env); }
  }

  lemma ActiveDeparts(r: Row, plan: Plan, ack: bool, a: Answers, env: Env)
    ensures Departs(r, CheckoutActive(r, plan, ack, a, env).row)
  {
    hide Snapshot;
    if a.update.Updated? {
      SnapshotDeparts(r, a.update.entity, None, a.updateStarted, env, a.replacementLater);
      SnapshotDeparts(r, a.update.entity, a.updateInvoices, a.updateStarted, env, a.replacementLater);
    }
  }

  lemma ByStatusDeparts(r: Row, before: Status, e: Option<Entity>, plan: Plan, ack: bool, a: Answers, env: Env)
    ensures Departs(r, CheckoutByStatus(r, before, e, plan, ack, a, env).row)
  {
    hide ReplaceProvider, CheckoutActive;
    ReplaceDeparts(r, plan, true, a, env);
    ReplaceDeparts(r, plan, false, a, env);
    ActiveDeparts(r, plan, ack, a, env);
  }

  lemma ReconcileDeparts(r: Row, a: Answers, env: Env)
    requires Reconcile(r, a, env).Some?
    ensures Departs(r, Reconcile(r, a, env).value)
  {
    hide Snapshot;
    SnapshotDeparts(r, a.current.value, None, a.started, env, a.replacement);
    SnapshotDeparts(r, a.current.value, a.invoices, a.started, env, a.replacement);
  }

  lemma CheckoutDeparts(r: Row, plan: Plan, ack: bool, a: Answers, env: Env, proofs: Proofs)
    requires Good(r) && Kept(r, proofs) && Fresh(r, a.created) && CheckoutProofs(a) <= proofs
    ensures Departs(r, StartCheckout(r, plan, ack, a, env).row)
  {
    hide Reconcile, CheckoutByStatus, Good, Kept, ProofOf, Departs, Introduces, KeepsSlots;
    Stays(r, r);
    ByStatusDeparts(r, r.status, None, plan, ack, a, env);
    if Reconcile(r, a, env).Some? {
      var rec := Reconcile(r, a, env).value;
      ReconcileDeparts(r, a, env);
      ReconcileGood(r, a, env);
      SlotsRemembered(r, rec);
      ReconcileKeeps(r, a, env, proofs);
      ByStatusDeparts(rec, r.status, a.current, plan, ack, a, env);
      CheckoutByStatusKeeps(rec, r.status, a.current, plan, ack, a, env, proofs);
      var r2 := CheckoutByStatus(rec, r.status, a.current, plan, ack, a, env).row;
      DepartsTwice(r, rec, r2, a.created);
    }
  }

  lemma CancelAndRetireDeparts(r: Row, refuseCommitted: bool, a: Answers, env: Env)
    requires r.repl.Some?
    ensures Departs(r, CancelAndRetire(r, refuseCommitted, a, env).row)
  {
    hide Retire;
    var reread := Refetch(r, a.replacementLater);
    if r.retired.None? && reread.Some? { RetireDeparts(r, reread.value, env); }
  }

  lemma CancelCurrentDeparts(r: Row, a: Answers, env: Env)
    requires Good(r) && Entitled(r) && r.repl.None?
    ensures Departs(r, CancelCurrent(r, a, env).row) && CancelCurrent(r, a, env).row.repl.None?
  {
    hide Reconcile, CancelPastDue, Good, Departs, KeepsSlots, Introduces;
    CancelCurrentGood(r, a, env);
    Stays(r, r);
    PastDueStays(r, a, env);
    Stays(r, CancelPastDue(r, a, env).row);
    if Reconcile(r, a, env).Some? {
      var rec := Reconcile(r, a, env).value;
      ReconcileDeparts(r, a, env);
      ReconcileGood(r, a, env);
      SlotsRemembered(r, rec);
      NothingPending(r, rec);
      PastDueStays(rec, a, env);
      Stays(rec, CancelPastDue(rec, a, env).row);
      Stays(rec, Audit(rec.(cancelAtEnd := true), CancellationRequested));
      DepartsTwice(r, rec, CancelPastDue(rec, a, env).row, None);
      DepartsTwice(r, rec, Audit(rec.(cancelAtEnd := true), CancellationRequested), None);
    }
  }

  lemma NothingPending(r: Row, r': Row)
    requires KeepsSlots(r, r') && r.repl.None?
    ensures r'.repl.None?
  {
  }

  lemma PastDueStays(r: Row, a: Answers, env: Env)
    requires r.repl.None?
    ensures CancelPastDue(r, a, env).row.marks == r.marks && CancelPastDue(r, a, env).row.repl.None?
    ensures CancelPastDue(r, a, env).row.retired == r.retired
  {
  }

  lemma CancelDeparts(r: Row, a: Answers, env: Env)
    requires Good(r)
    ensures Departs(r, CancelSubscription(r, a, env).row)
  {
    hide CancelAndRetire, CancelCurrent, Good, Departs, KeepsSlots, Introduces;
    Stays(r, r);
    if r.repl.None? {
      if Entitled(r) { CancelCurrentDeparts(r, a, env); }
    } else {
      CancelAndRetireDeparts(r, false, a, env);
      CancelAndRetireGood(r, false, a, env);
      CancelAndRetireStatus(r, false, a, env);
      var first := CancelAndRetire(r, false, a, env).row;
      SlotsRemembered(r, first);
      if first.repl.None? && Entitled(first) {
        CancelCurrentDeparts(first, a, env);
        DepartsTwice(r, first, CancelCurrent(first, a, env).row, None);
      }
    }
  }

  /** Every step closes only departed refs' events. */
  lemma StepDeparts(w: World, act: Act)
    requires RowInv(w) && NewId(w, act)
    ensures Departs(w.row, Next(w, act).row)
  {
    hide RowInv, Good, Kept, Departs, Snapshot, ReplacementSnapshot, CommitT1, CommitT2Refused, ClearRetired,
         StartCheckout, CancelSubscription, CancelAndRetire, AdvanceDunning, CloseDeparted, NeedsReissue,
         StandsCommitted, Fresh, CheckoutProofs;
    InvRow(w);
    var env := act.env;
    Stays(w.row, w.row);
    match act.step
    case Main(e, invoices, started, answer) => SnapshotDeparts(w.row, e, invoices, started, env, answer);
    case Replacement(e, invoices, started, answer) => ReplacementDeparts(w.row, e, invoices, started, env, answer);
    case T1(answer) => CommitDeparts(w.row, "", "", env, answer);
    case T2(answer) =>
      if w.worker.Answered? {
        CommitDeparts(w.row, w.worker.prior, w.worker.repl, env, answer);
        Stays(w.row, CommitT2Confirmed(w.row, w.worker.prior, w.worker.repl, env.now));
      }
    case FinishReissue =>
      if w.worker.Reissued? { Stays(w.row, ReissueConfirmed(w.row, w.worker.prior, w.worker.repl, env.now)); }
    case DropRetired(ref) => ClearDeparts(w.row, ref);
    case Checkout(plan, ack, a) =>
      NewIdIsFresh(w, a.created);
      PaidGrows(w.row, w.proofs, w.proofs + CheckoutProofs(a));
      CheckoutDeparts(w.row, plan, ack, a, env, w.proofs + CheckoutProofs(a));
    case Cancel(a) => CancelDeparts(w.row, a, env);
    case CancelPending(a) => if w.row.repl.Some? { CancelAndRetireDeparts(w.row, true, a, env); }
    case Dunning =>
      PartsStay(w.row, Entity(None, None, None, None, None, None, None), None, w.row.plan, false, env.now);
      Stays(w.row, AdvanceDunning(w.row, env.now));
    case OwedRecord(ref, status) => Stays(w.row, w.row.(providerStatus := Some(Recorded(status))));
    case _ =>
  }

  // --- the promises ---

  /** How far the worker's clock, at its fetch, ran ahead of the web host's, at the event. */
  function Skew(e: Event, started: Time, trueStart: Time): int {
    (started - trueStart) - (e.createdAt - e.receivedAt)
  }

  predicate Closed(w: World, w': World, id: nat) {
    id in w.inbox && id in w'.inbox && !w.inbox[id].done && w'.inbox[id].done
  }

  /** The fetched answer was reconciled and persisted. */
  predicate MainSettles(r: Row, act: Act)
    requires act.step.Main?
  {
    Snapshot(r, act.step.e, act.step.invoices, act.step.started, act.env, act.step.answer).settled
  }

  predicate ReplacementSettles(r: Row, act: Act)
    requires act.step.Replacement?
  {
    ReplacementSnapshot(r, act.step.e, act.step.invoices, act.step.started, act.env, act.step.answer).settled
  }

  /** Exactly which events are closed after a step: those that were, those a settled
      sync could have observed - a main sync all but the live replacement's, a
      replacement sync only that replacement's - and those of departed subscriptions. */
  predicate ClosesExactly(w: World, act: Act, id: nat)
    requires id in w.inbox
  {
    var e, r' := w.inbox[id], Next(w, act).row;
    && id in Next(w, act).inbox
    && Next(w, act).inbox[id] == e.(done :=
         || e.done || e.ref in NewMarks(w.row, r')
         || (act.step.Main? && MainSettles(w.row, act) && e.createdAt < act.step.started - 5 && r'.repl != Some(e.ref))
         || (act.step.Replacement? && ReplacementSettles(w.row, act) && e.createdAt < act.step.started - 5 && act.step.e.id == Some(e.ref)))
  }

  lemma SyncClosesExactly(w: World, act: Act, id: nat)
    requires id in w.inbox && (act.step.Main? || act.step.Replacement?)
    ensures ClosesExactly(w, act, id)
  {
    hide Snapshot, ReplacementSnapshot, CommitStep1, CommitT2Refused, ClearRetired, StartCheckout, CancelSubscription,
         CancelReplacement, AdvanceDunning, AskAboutRetired, TerminalIn, ProofOf;
  }

  lemma EventsClosedExactly(w: World, act: Act, id: nat)
    requires id in w.inbox
    ensures ClosesExactly(w, act, id)
  {
    hide Snapshot, ReplacementSnapshot, CommitT1, CommitT2Refused, ClearRetired, StartCheckout,
         CancelSubscription, CancelReplacement, AdvanceDunning, NeedsReissue, StandsCommitted, CheckoutProofs,
         CommitT2Confirmed, ReissueConfirmed, MainSettles, ReplacementSettles, SlotSet;
    if act.step.Main? || act.step.Replacement? {
      SyncClosesExactly(w, act, id);
    } else {
      NothingNew(w.row);
    }
  }

  lemma NothingNew(r: Row)
    ensures NewMarks(r, r) == []
  {
  }

  /** The events of a subscription that enters or leaves the retired slot are closed in that very step. */
  lemma DepartedEventsAreClosed(w: World, act: Act, id: nat)
    requires RowInv(w) && NewId(w, act) && id in w.inbox
    ensures var x, was, now := Some(w.inbox[id].ref), w.row.retired, Next(w, act).row.retired;
            was != now && (was == x || now == x) ==> id in Next(w, act).inbox && Next(w, act).inbox[id].done
  {
    hide RowInv, Next, NewId, NewMarks, MainSettles, ReplacementSettles;
    StepDeparts(w, act);
    EventsClosedExactly(w, act, id);
  }

  /** A step closes an event only as the settled main sync (never the live
      replacement's), as the settled sync of that very replacement, or because the
      event's subscription left its slot. */
  lemma EventsClosedOnlyFor(w: World, act: Act, id: nat)
    requires RowInv(w) && NewId(w, act) && Closed(w, Next(w, act), id)
    ensures var e := w.inbox[id];
            var r' := Next(w, act).row;
            || (act.step.Main? && MainSettles(w.row, act) && e.createdAt < act.step.started - EVENT_CLOCK_SKEW && r'.repl != Some(e.ref))
            || (act.step.Replacement? && ReplacementSettles(w.row, act) &&
                e.createdAt < act.step.started - EVENT_CLOCK_SKEW && act.step.e.id == Some(e.ref))
            || (Holds(w.row, e.ref) && r'.repl != Some(e.ref) && e.ref in NewMarks(w.row, r'))
  {
    hide RowInv, Next, NewId, NewMarks, MainSettles, ReplacementSettles, MovesMarked;
    StepDeparts(w, act);
    EventsClosedExactly(w, act, id);
  }

  /** An event of the live replacement is closed only by the settled sync of that
      replacement, or in the step in which it stops being the live one. */
  lemma LiveReplacementEvents(w: World, act: Act, id: nat)
    requires RowInv(w) && NewId(w, act)
    ensures Closed(w, Next(w, act), id) && w.row.repl == Some(w.inbox[id].ref) ==>
              || (act.step.Replacement? && ReplacementSettles(w.row, act) && act.step.e.id == w.row.repl)
              || Next(w, act).row.repl != w.row.repl
  {
    hide RowInv, Next, NewId, Holds;
    if Closed(w, Next(w, act), id) { EventsClosedOnlyFor(w, act, id); }
  }

  /** Within the margin, an event closed by a settled sync was truly received before
      that sync's fetch began. */
  lemma ClosedEventsWereObserved(w: World, act: Act, id: nat, trueStart: Time)
    requires RowInv(w) && NewId(w, act) && Closed(w, Next(w, act), id)
    requires act.step.Main? || act.step.Replacement?
    requires Skew(w.inbox[id], act.step.started, trueStart) <= EVENT_CLOCK_SKEW
    ensures w.inbox[id].receivedAt < trueStart || w.inbox[id].ref in NewMarks(w.row, Next(w, act).row)
  {
    hide RowInv, Next, NewId, Holds;
    EventsClosedOnlyFor(w, act, id);
    StepDeparts(w, act);
  }

  /** A reachable settled sync that closes an event received only after its fetch
      began, with clocks `skew` apart. */
  ghost predicate Unobserved(w: World, acts: seq<Act>, act: Act, id: nat, trueStart: Time, skew: int) {
    && Initial(w) && NewIds(w, acts) && NewId(Run(w, acts), act)
    && (act.step.Main? || act.step.Replacement?)
    && (var now := Run(w, acts);
        && Closed(now, Next(now, act), id) && now.inbox[id].ref !in NewMarks(now.row, Next(now, act).row)
        && Skew(now.inbox[id], act.step.started, trueStart) == skew
        && now.inbox[id].receivedAt >= trueStart)
  }

  lemma MarginHolds(w: World, acts: seq<Act>, act: Act, id: nat, trueStart: Time, skew: int)
    requires skew <= EVENT_CLOCK_SKEW
    ensures !Unobserved(w, acts, act, id, trueStart, skew)
  {
    hide RowInv, Initial, NewIds, NewId, Next, Run, Closed;
    if Unobserved(w, acts, act, id, trueStart, skew) {
      InitialKeeps(w);
      RunKeeps(w, acts);
      ClosedEventsWereObserved(Run(w, acts), act, id, trueStart);
    }
  }

  /** The run beyond the margin: the event of a first checkout's subscription arrives,
      by the true clock, `skew` seconds after time 0; the fetch began at 6. */
  function Arrival(skew: int): seq<Act> {
    [Act(At(1), Receive(0, Event("s1", 0, skew, false)))]
  }

  const LATE_SYNC := Act(At(10), Main(Said("s1", PCreated, 0, 0), None, EVENT_CLOCK_SKEW + 1, None))

  lemma MarginFails(skew: int)
    requires skew > EVENT_CLOCK_SKEW
    ensures Unobserved(Start(), Arrival(skew), LATE_SYNC, 0, EVENT_CLOCK_SKEW + 1, skew)
  {
    hide ReplacementSnapshot, CommitStep1, AskAboutRetired, CommitT2Refused, NeedsReissue, AdvanceDunning,
         CancelSubscription, CancelReplacement, StartCheckout, Retire, ApplyActive, ApplyTerminal, ApplyPaymentFailed,
         AbandonUnlessActive, PeriodPaid, Initial;
    StartIsInitial();
    var w1 := Next(Start(), Arrival(skew)[0]);
    assert w1.row == Start().row && w1.inbox == map[0 := Event("s1", 0, skew, false)];
    TraceIsRun(Start(), Arrival(skew), [Start(), w1]);
    var w2 := Next(w1, LATE_SYNC);
    assert Snapshot(w1.row, Said("s1", PCreated, 0, 0), None, EVENT_CLOCK_SKEW + 1, At(10), None).settled;
    assert w2.row.marks == w1.row.marks;
  }

  /** The five-second margin is exact: no reachable settled sync closes an event it
      could not have observed, for clocks `skew` apart, if and only if the skew is
      within the margin. */
  lemma MarginIsExact(skew: int)
    ensures (forall w, acts, act, id, trueStart :: !Unobserved(w, acts, act, id, trueStart, skew)) <==> skew <= EVENT_CLOCK_SKEW
  {
    hide Unobserved;
    if skew > EVENT_CLOCK_SKEW {
      MarginFails(skew);
    } else {
      forall w, acts, act, id, trueStart ensures !Unobserved(w, acts, act, id, trueStart, skew) {
        MarginHolds(w, acts, act, id, trueStart, skew);
      }
    }
  }
}
