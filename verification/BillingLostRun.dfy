/** A concrete run in which a pending replacement is overwritten and forgotten. The
    row expires by dunning while its replacement cannot be read; the provider then
    reports the old subscription active and paid again, and one checkout both
    reactivates the row and creates a second replacement. */
module BillingLostRun {
  import opened Common
  import opened BillingTypes
  import opened BillingSnapshot
  import opened BillingCheckout
  import opened BillingInvariants
  import opened BillingEffects
  import opened BillingWorld
  import opened BillingRun

  const STARTER := Plan(1, 10, 100, Some("p1"))
  const GROWTH := Plan(2, 20, 200, Some("p2"))
  const PRO := Plan(3, 30, 300, Some("p3"))

  function At(now: Time): Env {
    Env(now, map["p1" := STARTER, "p2" := GROWTH, "p3" := PRO], Some(1000), None, true, false, false, false)
  }

  function Said(id: Ref, status: ProviderStatus, start: int, end: int): Entity {
    Entity(Some(id), Some("p1"), Some(status), Some(start), Some(end), None, None)
  }

  function PaidFor(start: int, end: int): Option<seq<Invoice>> {
    Some([Invoice(Some("s1"), Some("paid"), Some(0), Some("pay_1"), Some(start), Some(end))])
  }

  /** The provider's answers to one upgrade checkout whose plan update it cannot do. */
  function Upgrade(current: Entity, invoices: Option<seq<Invoice>>, started: Time, id: Ref): Answers {
    Answers(Some(current), invoices, false, None, None, Rejected(true), None, false, started, started,
            false, Some(Entity(Some(id), None, Some(PCreated), None, None, None, None)), false, None)
  }

  function Losing(): seq<Act> {
    [Act(At(100), Main(Said("s1", PActive, 100, 200), PaidFor(100, 200), 1, None)),
     Act(At(110), Checkout(GROWTH, true, Upgrade(Said("s1", PActive, 100, 200), None, 2, "s2"))),
     Act(At(120), Main(Said("s1", PHalted, 100, 200), None, 3, None)),
     Act(At(120 + GRACE), Dunning),
     Act(At(130 + GRACE), Checkout(PRO, true, Upgrade(Said("s1", PActive, 300, 400), PaidFor(300, 400), 4, "s3")))]
  }

  function Start(): World {
    var row := StoreNew(BlankRow(STARTER), STARTER, Said("s1", PCreated, 0, 0));
    World(row, map[], SlotSet(row), {}, {}, {}, Idle, {}, {})
  }

  lemma Valid(id: Ref)
    requires |id| == 2 && id[0] == 's' && '0' <= id[1] <= '9'
    ensures ValidRef(id)
  {
  }

  /** What the run needs to know of a state between its steps. */
  predicate Facts(w: World, status: Status, repl: Option<Ref>, start: Time, synced: Time) {
    && w.row.status == status && w.row.ref == Some("s1") && w.row.repl == repl && w.row.retired.None? && w.row.committedAt.None?
    && w.row.plan == STARTER && w.row.pending.None? && !w.row.cancelAtEnd
    && w.row.syncedAt == Some(synced) && w.row.periodStart == Some(start) && w.row.periodEnd == Some(start + 100)
    && w.terminal == {} && w.ended == {} && w.stored == (if repl.None? then {"s1"} else {"s1", "s2"})
  }

  lemma Activates()
    ensures Facts(Next(Start(), Losing()[0]), Active, None, 100, 1)
  {
    hide ReplacementSnapshot, CommitStep1, AskAboutRetired, CommitT2Refused, NeedsReissue, AdvanceDunning,
         CancelSubscription, CancelReplacement, StartCheckout, Retire, CloseDeparted;
    var e := Said("s1", PActive, 100, 200);
    assert Qualifies("s1", 100, PaidFor(100, 200).value[0]);
    assert Snapshot(Start().row, e, PaidFor(100, 200), 1, At(100), None).advanced;
  }

  /** The first upgrade, on the row. */
  lemma UpgradesRow(r: Row)
    requires r.status.Active? && r.ref == Some("s1") && r.repl.None? && r.retired.None? && r.plan == STARTER && r.pending.None?
    requires !r.cancelAtEnd && r.syncedAt == Some(1) && r.periodStart == Some(100) && r.periodEnd == Some(200)
    ensures var reply := StartCheckout(r, GROWTH, true, Losing()[1].step.a, At(110));
            && reply.row == r.(repl := Some("s2"), replPlan := Some(GROWTH), replExpires := Some(1110), syncedAt := Some(2),
                               providerStatus := Some(PActive), stamps := reply.row.stamps, log := reply.row.log)
            && reply.ended == {}
  {
    hide ReplaceProvider, CheckoutIncomplete, CheckoutEnded, AbandonUnlessActive, Next;
    Valid("s2");
    var a := Losing()[1].step.a;
    var r1 := Reconcile(r, a, At(110)).value;
    assert r1 == r.(providerStatus := Some(PActive), syncedAt := Some(2), stamps := r.stamps + [Stamp("s1", 2)]);
    assert CheckoutActive(r1, GROWTH, true, a, At(110)) == StartReplacement(r1, GROWTH, true, true, a, At(110));
  }

  lemma StartsReplacement(w: World)
    requires Facts(w, Active, None, 100, 1)
    ensures NewId(w, Losing()[1]) && Facts(Next(w, Losing()[1]), Active, Some("s2"), 100, 2)
  {
    hide StartCheckout, Snapshot, ReplacementSnapshot, CommitStep1, AskAboutRetired, CommitT2Refused, NeedsReissue,
         AdvanceDunning, CancelSubscription, CancelReplacement, CloseDeparted, CheckoutProofs;
    UpgradesRow(w.row);
  }

  lemma FallsPastDue(w: World)
    requires Facts(w, Active, Some("s2"), 100, 2)
    ensures var w' := Next(w, Losing()[2]);
            Facts(w', PastDue, Some("s2"), 100, 3) && w'.row.pastDueAt == Some(120) && w'.row.dunning == Some(0)
  {
    hide ReplacementSnapshot, CommitStep1, AskAboutRetired, CommitT2Refused, NeedsReissue, AdvanceDunning,
         CancelSubscription, CancelReplacement, StartCheckout, ApplyActive, Retire, CloseDeparted;
    assert !Terminal(PHalted);
  }

  lemma Expires(w: World)
    requires Facts(w, PastDue, Some("s2"), 100, 3) && w.row.pastDueAt == Some(120) && w.row.dunning == Some(0)
    ensures Facts(Next(w, Losing()[3]), Expired, Some("s2"), 100, 3)
  {
  }

  lemma Reactivates(r: Row)
    requires r.status.Expired? && r.ref == Some("s1") && r.repl == Some("s2") && r.retired.None? && r.plan == STARTER
    requires r.pending.None? && r.syncedAt == Some(3)
    ensures var rec := Reconcile(r, Losing()[4].step.a, At(130 + GRACE));
            && rec.Some? && rec.value.status.Active? && rec.value.plan == STARTER && rec.value.pending.None?
            && rec.value.ref == Some("s1") && rec.value.repl == Some("s2") && rec.value.retired.None? && !rec.value.cancelAtEnd
  {
    hide ReplacementSnapshot, AbandonUnlessActive, Next;
    assert Qualifies("s1", 300, PaidFor(300, 400).value[0]);
  }

  lemma CreatesSecond(r: Row)
    requires r.status.Active? && r.ref == Some("s1") && r.repl == Some("s2") && r.retired.None? && r.plan == STARTER
    requires r.pending.None? && !r.cancelAtEnd
    ensures var r' := CheckoutActive(r, PRO, true, Losing()[4].step.a, At(130 + GRACE)).row;
            r'.ref == Some("s1") && r'.repl == Some("s3") && r'.retired.None?
    ensures CheckoutActive(r, PRO, true, Losing()[4].step.a, At(130 + GRACE)).ended == {}
  {
    hide Snapshot, Next;
    Valid("s3");
  }

  lemma StartsOverAndLoses(w: World)
    requires Facts(w, Expired, Some("s2"), 100, 3)
    ensures var w' := Next(w, Losing()[4]); NewId(w, Losing()[4]) && !NoneLost(w')
  {
    hide Reconcile, CheckoutActive, Snapshot, ReplacementSnapshot, ReplaceProvider, CommitStep1, AskAboutRetired,
         CommitT2Refused, NeedsReissue, AdvanceDunning, CancelSubscription, CancelReplacement, CheckoutIncomplete,
         CheckoutEnded, CloseDeparted, CheckoutProofs;
    var a := Losing()[4].step.a;
    var env := At(130 + GRACE);
    Reactivates(w.row);
    var r1 := Reconcile(w.row, a, env).value;
    CreatesSecond(r1);
    assert StartCheckout(w.row, PRO, true, a, env) == CheckoutActive(r1, PRO, true, a, env);
    var w' := Next(w, Losing()[4]);
    assert "s2" in w'.stored && !Holds(w'.row, "s2") && "s2" !in w'.terminal && "s2" !in w'.ended;
  }

  /** The run is legal, and it loses the first replacement: it is in no slot, and
      the provider neither ended it nor was asked to. */
  lemma TheRunLoses()
    ensures Initial(Start()) && NewIds(Start(), Losing())
    ensures !NoneLost(Run(Start(), Losing()))
  {
    hide Next, NoneLost, Run, NewIds, Initial, Facts;
    StartIsInitial();
    var w1 := Next(Start(), Losing()[0]);
    Activates();
    var w2 := Next(w1, Losing()[1]);
    StartsReplacement(w1);
    var w3 := Next(w2, Losing()[2]);
    FallsPastDue(w2);
    var w4 := Next(w3, Losing()[3]);
    Expires(w3);
    StartsOverAndLoses(w4);
    TraceIsRun(Start(), Losing(), [Start(), w1, w2, w3, w4, Next(w4, Losing()[4])]);
  }

  lemma StartIsInitial()
    ensures Initial(Start())
  {
    Valid("s1");
    assert Storable(Some(Said("s1", PCreated, 0, 0)));
  }
}
