/** A concrete run, with one worker and no crash, in which a replacement inherits the
    commit marker of the one it overwrites. A downgrade is committed and its cancel
    times out; the row expires; a checkout of a dearer plan reactivates it and creates
    a second replacement. The next sweep takes that for a committed pair and schedules
    the current subscription's end, although no verification ever saw the pair. */
module BillingInheritedRun {
  import opened Common
  import opened BillingTypes
  import opened BillingSnapshot
  import opened BillingCheckout
  import opened BillingInvariants
  import opened BillingEffects
  import opened BillingWorld
  import opened BillingRun
  import opened BillingLostRun

  function On(now: Time): Env {
    Env(now, map["p1" := STARTER, "p2" := GROWTH, "p3" := PRO], Some(10), Some(10), true, true, true, true)
  }

  function Current(status: ProviderStatus, start: int, end: int): Entity {
    Entity(Some("s1"), Some("p2"), Some(status), Some(start), Some(end), None, None)
  }

  /** The authorized downgrade replacement, as T1 re-reads it. */
  function Authorized(): Entity {
    Entity(Some("s2"), Some("p1"), Some(PAuthenticated), None, None, Some(200), Some(189))
  }

  function Inheriting(): seq<Act> {
    [Act(On(100), Main(Current(PActive, 100, 200), PaidFor(100, 200), 1, None)),
     Act(On(110), Checkout(STARTER, false, Upgrade(Current(PActive, 100, 200), None, 2, "s2"))),
     Act(On(120), T1(Some(Authorized()))),
     Act(On(121), CallCancel(UnknownLost)),
     Act(On(130), Main(Current(PHalted, 100, 200), None, 3, None)),
     Act(On(130 + GRACE), Dunning),
     Act(On(140 + GRACE), Checkout(PRO, true, Upgrade(Current(PActive, 300, 400), PaidFor(300, 400), 4, "s3"))),
     Act(On(150 + GRACE), BeginReissue),
     Act(On(150 + GRACE), CallReissue(Confirmed))]
  }

  function Begin(): World {
    var row := StoreNew(BlankRow(GROWTH), GROWTH, Current(PCreated, 0, 0));
    World(row, map[], SlotSet(row), {}, {}, {}, Idle, {}, {})
  }

  /** What the run needs to know of a state between its steps. */
  predicate Facts(w: World, status: Status, start: Time, synced: Time) {
    && w.row.status == status && w.row.ref == Some("s1") && w.row.retired.None? && w.row.plan == GROWTH
    && !w.row.cancelAtEnd && w.row.syncedAt == Some(synced) && w.row.confirmedAt.None?
    && w.row.periodStart == Some(start) && w.row.periodEnd == Some(start + 100)
    && w.scheduled == {}
  }

  predicate Pending(w: World, committed: bool) {
    && w.row.repl == Some("s2") && w.row.replPlan == Some(STARTER) && w.row.replExpires == Some(189)
    && w.row.pending == Some(STARTER) && w.row.committedAt.Some? == committed
    && w.marked == (if committed then {("s1", "s2")} else {}) && "s3" !in w.stored
  }

  lemma Activates()
    ensures var w := Next(Begin(), Inheriting()[0]);
            Facts(w, Active, 100, 1) && w.row.repl.None? && w.row.pending.None? && w.row.committedAt.None? &&
            w.worker.Idle? && w.marked == {} && w.stored == {"s1"}
  {
    hide ReplacementSnapshot, CommitStep1, AskAboutRetired, CommitT2Refused, NeedsReissue, AdvanceDunning,
         CancelSubscription, CancelReplacement, StartCheckout, Retire, CloseDeparted;
    assert Qualifies("s1", 100, PaidFor(100, 200).value[0]);
    assert Snapshot(Begin().row, Current(PActive, 100, 200), PaidFor(100, 200), 1, On(100), None).advanced;
  }

  lemma StartsDowngrade(w: World)
    requires Facts(w, Active, 100, 1) && w.row.repl.None? && w.row.pending.None? && w.row.committedAt.None?
    requires w.worker.Idle? && w.marked == {} && w.stored == {"s1"}
    ensures NewId(w, Inheriting()[1])
    ensures var w' := Next(w, Inheriting()[1]); Facts(w', Active, 100, 2) && Pending(w', false) && w'.worker.Idle?
  {
    hide ReplaceProvider, ReplacementSnapshot, CommitStep1, AskAboutRetired, CommitT2Refused, NeedsReissue,
         AdvanceDunning, CancelSubscription, CancelReplacement, CheckoutIncomplete, CheckoutEnded,
         AbandonUnlessActive, CloseDeparted;
    Valid("s2");
    var a := Inheriting()[1].step.a;
    var r1 := Reconcile(w.row, a, On(110)).value;
    assert r1 == w.row.(providerStatus := Some(PActive), syncedAt := Some(2), stamps := w.row.stamps + [Stamp("s1", 2)]);
    assert StartCheckout(w.row, STARTER, false, a, On(110)) == CheckoutActive(r1, STARTER, false, a, On(110));
    assert CheckoutActive(r1, STARTER, false, a, On(110)) == StartReplacement(r1, STARTER, false, false, a, On(110));
  }

  lemma CommitsDowngrade(w: World)
    requires Facts(w, Active, 100, 2) && Pending(w, false) && w.worker.Idle?
    ensures var w' := Next(w, Inheriting()[2]); Facts(w', Active, 100, 2) && Pending(w', true) && w'.worker == MustCancel("s1", "s2")
  {
    hide Snapshot, ReplacementSnapshot, AskAboutRetired, CommitT2Refused, NeedsReissue, AdvanceDunning,
         CancelSubscription, CancelReplacement, StartCheckout, Retire, CloseDeparted;
  }

  lemma TimesOut(w: World)
    requires Facts(w, Active, 100, 2) && Pending(w, true) && w.worker == MustCancel("s1", "s2")
    ensures var w' := Next(w, Inheriting()[3]); Facts(w', Active, 100, 2) && Pending(w', true) && w'.worker.Idle?
  {
    hide Snapshot, ReplacementSnapshot, CommitStep1, AskAboutRetired, CommitT2Refused, AdvanceDunning,
         CancelSubscription, CancelReplacement, StartCheckout;
  }

  lemma FallsPastDue(w: World)
    requires Facts(w, Active, 100, 2) && Pending(w, true) && w.worker.Idle?
    ensures var w' := Next(w, Inheriting()[4]);
            && Facts(w', PastDue, 100, 3) && Pending(w', true) && w'.worker.Idle?
            && w'.row.pastDueAt == Some(130) && w'.row.dunning == Some(0)
  {
    hide ReplacementSnapshot, CommitStep1, AskAboutRetired, CommitT2Refused, NeedsReissue, AdvanceDunning,
         CancelSubscription, CancelReplacement, StartCheckout, ApplyActive, Retire, CloseDeparted;
    assert !Terminal(PHalted);
  }

  lemma Expires(w: World)
    requires Facts(w, PastDue, 100, 3) && Pending(w, true) && w.worker.Idle?
    requires w.row.pastDueAt == Some(130) && w.row.dunning == Some(0)
    ensures var w' := Next(w, Inheriting()[5]); Facts(w', Expired, 100, 3) && Pending(w', true) && w'.worker.Idle?
  {
    hide Snapshot, ReplacementSnapshot, CommitStep1, AskAboutRetired, CommitT2Refused, NeedsReissue,
         CancelSubscription, CancelReplacement, StartCheckout, CloseDeparted;
  }

  lemma Reactivates(r: Row)
    requires r.status.Expired? && r.ref == Some("s1") && r.repl == Some("s2") && r.retired.None? && r.plan == GROWTH
    requires r.pending == Some(STARTER) && r.syncedAt == Some(3) && r.committedAt.Some? && r.confirmedAt.None?
    ensures var rec := Reconcile(r, Inheriting()[6].step.a, On(140 + GRACE));
            && rec.Some? && rec.value.status.Active? && rec.value.plan == GROWTH && rec.value.pending == Some(STARTER)
            && rec.value.ref == Some("s1") && rec.value.repl == Some("s2") && rec.value.retired.None? && !rec.value.cancelAtEnd
            && rec.value.committedAt.Some? && rec.value.confirmedAt.None?
  {
    hide ReplacementSnapshot, AbandonUnlessActive, Next;
    assert Qualifies("s1", 300, PaidFor(300, 400).value[0]);
  }

  lemma CreatesSecond(r: Row)
    requires r.status.Active? && r.ref == Some("s1") && r.repl == Some("s2") && r.retired.None? && r.plan == GROWTH
    requires r.pending == Some(STARTER) && !r.cancelAtEnd && r.committedAt.Some? && r.confirmedAt.None?
    ensures var r' := CheckoutActive(r, PRO, true, Inheriting()[6].step.a, On(140 + GRACE)).row;
            && r'.status.Active? && r'.ref == Some("s1") && r'.repl == Some("s3") && r'.committedAt.Some? && r'.confirmedAt.None?
  {
    hide Snapshot, Next;
    Valid("s3");
  }

  lemma InheritsMarker(w: World)
    requires Facts(w, Expired, 100, 3) && Pending(w, true) && w.worker.Idle?
    ensures NewId(w, Inheriting()[6])
    ensures var w' := Next(w, Inheriting()[6]);
            && w'.row.ref == Some("s1") && w'.row.repl == Some("s3") && NeedsReissue(w'.row)
            && w'.worker.Idle? && w'.marked == {("s1", "s2")}
  {
    hide Reconcile, CheckoutActive, Snapshot, ReplacementSnapshot, ReplaceProvider, CommitStep1, AskAboutRetired,
         CommitT2Refused, AdvanceDunning, CancelSubscription, CancelReplacement, CheckoutIncomplete, CheckoutEnded,
         CloseDeparted, CheckoutProofs;
    var a := Inheriting()[6].step.a;
    var env := On(140 + GRACE);
    Reactivates(w.row);
    var r1 := Reconcile(w.row, a, env).value;
    CreatesSecond(r1);
    assert StartCheckout(w.row, PRO, true, a, env) == CheckoutActive(r1, PRO, true, a, env);
  }

  lemma SchedulesUnmarked(w: World)
    requires w.row.ref == Some("s1") && w.row.repl == Some("s3") && NeedsReissue(w.row) && w.worker.Idle?
    requires w.marked == {("s1", "s2")}
    ensures var w' := Next(Next(w, Inheriting()[7]), Inheriting()[8]);
            ("s1", "s3") in w'.scheduled && w'.marked == {("s1", "s2")}
  {
    hide Snapshot, ReplacementSnapshot, CommitStep1, AskAboutRetired, CommitT2Refused, AdvanceDunning,
         CancelSubscription, CancelReplacement, StartCheckout, NeedsReissue;
  }

  lemma BeginIsInitial()
    ensures Initial(Begin())
  {
    Valid("s1");
    assert Storable(Some(Current(PCreated, 0, 0)));
  }

  /** The run is legal, and at its end the provider has been asked to end the current
      subscription for a pair that no transaction ever marked. */
  lemma TheRunSchedulesUnmarked()
    ensures Initial(Begin()) && NewIds(Begin(), Inheriting())
    ensures var w := Run(Begin(), Inheriting()); ("s1", "s3") in w.scheduled && ("s1", "s3") !in w.marked
  {
    hide Next, Run, NewIds, Initial, Facts, Pending, NeedsReissue;
    BeginIsInitial();
    var acts := Inheriting();
    var w1 := Next(Begin(), acts[0]);
    Activates();
    var w2 := Next(w1, acts[1]);
    StartsDowngrade(w1);
    var w3 := Next(w2, acts[2]);
    CommitsDowngrade(w2);
    var w4 := Next(w3, acts[3]);
    TimesOut(w3);
    var w5 := Next(w4, acts[4]);
    FallsPastDue(w4);
    var w6 := Next(w5, acts[5]);
    Expires(w5);
    var w7 := Next(w6, acts[6]);
    InheritsMarker(w6);
    var w8 := Next(w7, acts[7]);
    SchedulesUnmarked(w7);
    TraceIsRun(Begin(), acts, [Begin(), w1, w2, w3, w4, w5, w6, w7, w8, Next(w8, acts[8])]);
  }
}
