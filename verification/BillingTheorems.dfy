/** The billing engine's promises, over whole runs and over any step of a run. */
module BillingTheorems {
  import opened Common
  import opened BillingTypes
  import opened BillingSnapshot
  import opened BillingCheckout
  import opened BillingInvariants
  import opened BillingEffects
  import opened BillingWorld
  import opened BillingRun

  // --- every run ---

  lemma EveryRun(w: World, acts: seq<Act>)
    requires Initial(w) && NewIds(w, acts)
    ensures RowInv(Run(w, acts))
  {
    hide RowInv, Initial, NewIds, Run;
    InitialKeeps(w);
    RunKeeps(w, acts);
  }

  /** Every CHECK constraint holds, and a pending replacement implies a current
      subscription, a free retired slot and a row past its first payment. */
  lemma RowsStayValid(w: World, acts: seq<Act>)
    requires Initial(w) && NewIds(w, acts)
    ensures var r := Run(w, acts).row; Checks(r) && (r.repl.Some? ==> r.retired.None? && r.ref.Some? && !r.status.Incomplete?)
  {
    hide Initial, NewIds, Run, Kept, Checks;
    EveryRun(w, acts);
  }

  /** An ACTIVE or PAST_DUE row of a provider subscription, and every UsageRecord,
      rest on a paid invoice seen for that subscription and period start. */
  lemma EntitlementIsPaid(w: World, acts: seq<Act>)
    requires Initial(w) && NewIds(w, acts)
    ensures var w' := Run(w, acts);
            && (Entitled(w'.row) && w'.row.ref.Some? ==>
                  w'.row.periodStart.Some? && (w'.row.ref.value, w'.row.periodStart.value) in w'.proofs)
            && (forall o :: o in w'.row.usage ==> (o.ref, o.start) in w'.proofs)
  {
    hide Initial, NewIds, Run, Ordered;
    EveryRun(w, acts);
  }

  /** Of one subscription, snapshots apply in strictly increasing fetch order. */
  lemma SnapshotsApplyInOrder(w: World, acts: seq<Act>, i: nat, j: nat)
    requires Initial(w) && NewIds(w, acts)
    requires i < j < |Run(w, acts).row.stamps| && Run(w, acts).row.stamps[i].ref == Run(w, acts).row.stamps[j].ref
    ensures Run(w, acts).row.stamps[i].started < Run(w, acts).row.stamps[j].started
  {
    hide Initial, NewIds, Run, Good, Paid;
    EveryRun(w, acts);
  }

  /** The branches that guard an occupied retired slot are dead code on every
      reachable row: without them abandon, clear, switch and cancel do the same. */
  lemma OccupiedSlotBranchesAreDead(w: World, acts: seq<Act>, test: AbandonTest, answer: Option<Entity>, env: Env,
                                    e: Entity, invoices: Option<seq<Invoice>>, plan: Plan, started: Time,
                                    refuseCommitted: bool, a: Answers)
    requires Initial(w) && NewIds(w, acts) && Run(w, acts).row.repl.Some?
    ensures var r := Run(w, acts).row;
            var reread := Refetch(r, answer);
            var start := FromUnix(e.currentStart);
            && (Abandons(r, test, reread) <==>
                  r.committedAt.None? && reread.Some? && Abandonable(test, reread.value.status.value))
            && (ClearFailedCommitted(r, env, answer).changed <==> reread.Some? && Failed(reread.value.status.value))
            && (Switch(r, e, invoices, plan, started).changed <==>
                  start.Some? && start != r.periodStart && ApplyActive(r, e, invoices, plan, true).advanced)
            && (CancelAndRetire(r, refuseCommitted, a, env).refusal.None? <==>
                  var asked := Refetch(r, a.replacementLater);
                  && !(refuseCommitted && r.committedAt.Some?) && asked.Some? && NotActive(asked.value.status.value)
                  && (asked.value.status.value.PCreated? || asked.value.status.value.PAuthenticated? ==> a.cancelOk))
  {
    hide Initial, NewIds, Run, Retire, ApplyActive, Abandonable, OpenIf, Checks;
    RowsStayValid(w, acts);
  }

  // --- what the overwriting checkouts cost ---

  /** In every run in which no checkout loses a replacement, every provider
      subscription ever stored is still in a slot, or ended at the provider. */
  lemma NoSubscriptionIsLost(w: World, acts: seq<Act>, x: Ref)
    requires Initial(w) && NewIds(w, acts) && LosesNone(w, acts) && x in Run(w, acts).stored
    ensures var w' := Run(w, acts); Holds(w'.row, x) || x in w'.terminal || x in w'.ended
  {
    hide Initial, NewIds, LosesNone, Run, Good, Kept;
    InitialKeeps(w);
    RunLosesNone(w, acts);
  }

  /** That exclusion is exact: a step loses a subscription if and only if it is a
      checkout that overwrites a replacement the provider has not ended. */
  lemma StepLosesExactly(w: World, act: Act)
    requires RowInv(w) && NoneLost(w) && NewId(w, act)
    ensures NoneLost(Next(w, act)) <==> !Loses(w, act)
  {
    hide RowInv, Next, NewId, Overwriting;
    if Loses(w, act) {
      CreatedOverwrites(w, act);
      OverwritingSettles(w, act);
      var lost := w.row.repl.value;
      PendingStored(w, act);
      assert !Holds(Next(w, act).row, lost);
    } else {
      NextLosesNone(w, act);
    }
  }

  lemma CreatedOverwrites(w: World, act: Act)
    requires Overwriting(w, act)
    ensures act.step.Checkout? && w.row.repl.Some? && w.row.ref.Some?
  {
    hide PeriodPaid, LookupPlan;
  }

  lemma PendingStored(w: World, act: Act)
    requires RowInv(w) && Overwriting(w, act)
    ensures w.row.repl.Some? && w.row.repl.value in w.stored && w.row.repl != w.row.ref
    ensures w.row.repl.value in Next(w, act).stored
  {
    hide Kept, StartCheckout, Reactivates, CheckoutProofs, CloseDeparted, PeriodPaid;
    CreatedOverwrites(w, act);
    assert Holds(w.row, w.row.repl.value);
    GoodPending(w.row);
  }

  /** A checkout leaves the marker unsound - committed for a pair no verification
      ever saw - if and only if it overwrites a committed replacement. Whether that
      one had already ended does not matter. */
  lemma MarkerBreaksExactly(w: World, act: Act)
    requires RowInv(w) && MarkerSound(w) && NewId(w, act)
    ensures MarkerSound(Next(w, act)) <==> !Inherits(w, act)
  {
    hide RowInv, Next, NewId, Overwriting;
    if Inherits(w, act) {
      CreatedOverwrites(w, act);
      OverwritingSettles(w, act);
      MarkedAreStored(w);
      assert Next(w, act).marked == w.marked by { CheckoutMarksNothing(w, act); }
    } else {
      NextKeepsMarker(w, act);
    }
  }

  /** For an open marker - one whose cancel is not confirmed - the overwritten
      replacement's own confirmation must be missing too. */
  lemma OpenMarkerBreaksExactly(w: World, act: Act)
    requires RowInv(w) && OpenMarkerSound(w) && NewId(w, act)
    ensures OpenMarkerSound(Next(w, act)) <==> !InheritsOpen(w, act)
  {
    hide RowInv, Next, NewId, Overwriting;
    if InheritsOpen(w, act) {
      CreatedOverwrites(w, act);
      OverwritingSettles(w, act);
      MarkedAreStored(w);
      CheckoutMarksNothing(w, act);
    } else {
      NextKeepsOpenMarker(w, act);
    }
  }

  /** The next sweep's re-issue, whatever the worker was at before. */
  function NextReissue(env: Env): seq<Act> {
    [Act(env, Crash), Act(env, BeginReissue), Act(env, CallReissue(Confirmed))]
  }

  lemma Reissues(w: World, env: Env)
    requires NeedsReissue(w.row) && w.row.ref.Some?
    ensures var w' := Run(w, NextReissue(env));
            w'.marked == w.marked && (w.row.ref.value, w.row.repl.value) in w'.scheduled
  {
    hide Run, Snapshot, ReplacementSnapshot, CommitStep1, AskAboutRetired, CommitT2Refused, AdvanceDunning, StartCheckout,
         CancelSubscription, CancelReplacement, NeedsReissue;
    var acts := NextReissue(env);
    var w1 := Next(w, acts[0]);
    var w2 := Next(w1, acts[1]);
    TraceIsRun(w, acts, [w, w1, w2, Next(w2, acts[2])]);
  }

  lemma ReissueIsNoCheckout(w: World, env: Env)
    ensures NewIds(w, NextReissue(env)) && InheritsNoneOpen(w, NextReissue(env))
  {
    hide Next;
    var acts := NextReissue(env);
    var w1 := Next(w, acts[0]);
    var w2 := Next(w1, acts[1]);
    var w3 := Next(w2, acts[2]);
    assert acts[1..][0] == acts[1] && acts[1..][1..] == acts[2..] && acts[2..][0] == acts[2] && acts[2..][1..] == [];
    assert NewIds(w3, []) && InheritsNoneOpen(w3, []);
    assert NewIds(w2, acts[2..]) && InheritsNoneOpen(w2, acts[2..]);
    assert NewIds(w1, acts[1..]) && InheritsNoneOpen(w1, acts[1..]);
  }

  /** The exclusion of the protocol theorem is exact: after a step, the next sweep's
      re-issue schedules a pair that was never marked if and only if that step was a
      checkout that inherited an open marker. */
  lemma SchedulesUnmarkedExactly(w: World, act: Act, env: Env)
    requires RowInv(w) && OpenMarkerSound(w) && NewId(w, act)
    ensures var after := Run(Next(w, act), NextReissue(env));
            after.scheduled <= after.marked <==> !InheritsOpen(w, act)
  {
    hide RowInv, OpenMarkerSound, Next, NewId, Overwriting, Run, NewIds, InheritsNoneOpen, NextReissue;
    var w1 := Next(w, act);
    if InheritsOpen(w, act) {
      CreatedOverwrites(w, act);
      OverwritingSettles(w, act);
      MarkedAreStored(w);
      CheckoutMarksNothing(w, act);
      Reissues(w1, env);
    } else {
      NextKeeps(w, act);
      NextKeepsOpenMarker(w, act);
      ReissueIsNoCheckout(w1, env);
      RunKeepsOpenMarker(w1, NextReissue(env));
      ScheduledAreMarked(Run(w1, NextReissue(env)));
    }
  }

  lemma ScheduledAreMarked(w: World)
    requires OpenMarkerSound(w)
    ensures w.scheduled <= w.marked
  {
  }

  lemma MarkedAreStored(w: World)
    requires RowInv(w)
    ensures forall p :: p in w.marked ==> p.1 in w.stored
  {
    hide Good, Kept;
  }

  lemma CheckoutMarksNothing(w: World, act: Act)
    requires act.step.Checkout?
    ensures Next(w, act).marked == w.marked
  {
    hide StartCheckout;
  }
}
