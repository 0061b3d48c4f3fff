/** Every step keeps the row invariant; each step but the overwriting checkouts loses
    nothing and keeps the marker sound. So every reachable state of every run is so. */
module BillingRun {
  import opened Common
  import opened BillingTypes
  import opened BillingSnapshot
  import opened BillingCheckout
  import opened BillingInvariants
  import opened BillingEffects
  import opened BillingWorld

  // --- steps on the row ---

  ghost predicate NewRepl(w: World, r': Row) { r'.repl.Some? && r'.repl.value !in w.stored }

  /** A step that moves the row within the rules: the pending replacement keeps its
      pair and marker, or is a new one. */
  ghost predicate RowStep(w: World, w': World) {
    && w' == w.(row := w'.row, inbox := w'.inbox, stored := w.stored + SlotSet(w'.row),
                terminal := w'.terminal, ended := w'.ended, proofs := w'.proofs)
    && w.terminal <= w'.terminal && w.ended <= w'.ended
    && Good(w'.row) && Kept(w'.row, w'.proofs) && StampsKnown(w.row, w'.row)
    && (SameMarker(w.row, w'.row) || NewRepl(w, w'.row))
  }

  /** Every ref the step drops from the row is settled. */
  ghost predicate Settles(w: World, w': World) { Remembers(w.row, w'.row, w'.terminal + w'.ended) }

  /** A new replacement starts without a marker. */
  predicate StartsUnmarked(w: World, w': World) {
    SameMarker(w.row, w'.row) || (w'.row.committedAt.None? && w'.row.confirmedAt.None?)
  }

  /** The row invariant, and with it each of the other three parts that held. */
  ghost predicate Preserves(w: World, w': World) {
    && RowInv(w')
    && (NoneLost(w) ==> NoneLost(w'))
    && (MarkerSound(w) ==> MarkerSound(w'))
    && (OpenMarkerSound(w) ==> OpenMarkerSound(w'))
  }

  lemma RowStepKeeps(w: World, w': World)
    requires RowInv(w) && RowStep(w, w')
    ensures RowInv(w')
  {
    hide Good, Kept;
    GoodMarker(w'.row);
    GoodMarker(w.row);
  }

  lemma RowStepLosesNone(w: World, w': World)
    requires NoneLost(w) && RowStep(w, w') && Settles(w, w')
    ensures NoneLost(w')
  {
    hide Good, Kept;
    forall x | x in w'.stored ensures Holds(w'.row, x) || x in w'.terminal || x in w'.ended {
      if x !in SlotSet(w'.row) { assert x in w.stored; }
    }
  }

  lemma RowStepKeepsMarker(w: World, w': World)
    requires RowInv(w) && RowStep(w, w') && StartsUnmarked(w, w')
    ensures MarkerSound(w) ==> MarkerSound(w')
    ensures OpenMarkerSound(w) ==> OpenMarkerSound(w')
  {
    hide Good, Kept;
    GoodMarker(w'.row);
  }

  lemma SlotsRemembered(r: Row, r': Row)
    requires KeepsSlots(r, r') || Switched(r, r')
    ensures Remembers(r, r', {}) && Introduces(r, r', None)
  {
  }

  lemma GoodMarker(r: Row)
    requires Good(r)
    ensures r.repl.Some? ==> r.ref.Some?
    ensures r.committedAt.Some? ==> r.repl.Some?
    ensures r.confirmedAt.Some? ==> r.committedAt.Some?
  {
  }

  lemma PaidGrows(r: Row, small: Proofs, large: Proofs)
    requires Kept(r, small) && small <= large
    ensures Kept(r, large)
  {
  }

  lemma InvRow(w: World)
    requires RowInv(w)
    ensures Good(w.row) && Kept(w.row, w.proofs)
  {
    hide Good, Kept;
  }

  lemma RemembersMore(r: Row, r': Row, gone: set<Ref>, more: set<Ref>)
    requires Remembers(r, r', gone) && gone <= more
    ensures Remembers(r, r', more)
  {
  }

  /** What Main, Replacement, Cancel, CancelPending, Dunning, OwedRecord and DropRetired do. */
  ghost predicate Careful(w: World, w': World) { RowStep(w, w') && Settles(w, w') && SameMarker(w.row, w'.row) }

  lemma MainCareful(w: World, env: Env, e: Entity, invoices: Option<seq<Invoice>>, started: Time, answer: Option<Entity>)
    requires RowInv(w)
    ensures Careful(w, Next(w, Act(env, Main(e, invoices, started, answer))))
  {
    hide Snapshot, ReplacementSnapshot, CloseDeparted, RowInv, Good, Kept, ProofOf, MarkMain, StampsKnown, SameMarker,
         KeepsSlots, TerminalIn, Holds, Remembers, CommitStep1, AskAboutRetired, CommitT2Refused, NeedsReissue,
         AdvanceDunning;
    var r' := Snapshot(w.row, e, invoices, started, env, answer).row;
    var w0 := Saw(w, Some(e), ProofOf(Some(e), invoices));
    InvRow(w);
    SnapshotGood(w.row, e, invoices, started, env, answer);
    PaidGrows(w.row, w.proofs, w0.proofs);
    GoodDiffers(w.row);
    SnapshotKeeps(w.row, e, invoices, started, env, answer, w0.proofs);
    SlotsRemembered(w.row, r');
    RemembersMore(w.row, r', {}, w0.terminal + w0.ended);
  }

  lemma ReplacementCareful(w: World, env: Env, e: Entity, invoices: Option<seq<Invoice>>, started: Time, answer: Option<Entity>)
    requires RowInv(w)
    ensures Careful(w, Next(w, Act(env, Replacement(e, invoices, started, answer))))
  {
    hide Snapshot, ReplacementSnapshot, CloseDeparted, RowInv, Good, Kept, ProofOf, MarkReplacement, StampsKnown,
         SameMarker, KeepsSlots, Switched, TerminalIn, Holds, Remembers, CommitStep1, AskAboutRetired,
         CommitT2Refused, NeedsReissue, AdvanceDunning;
    var r' := ReplacementSnapshot(w.row, e, invoices, started, env, answer).row;
    var w0 := Saw(w, Some(e), ProofOf(Some(e), invoices));
    InvRow(w);
    ReplacementSnapshotGood(w.row, e, invoices, started, env, answer);
    PaidGrows(w.row, w.proofs, w0.proofs);
    ReplacementSnapshotKeeps(w.row, e, invoices, started, env, answer, w0.proofs);
    SlotsRemembered(w.row, r');
    RemembersMore(w.row, r', {}, w0.terminal + w0.ended);
  }

  /** The created id is new to the row as well. */
  lemma NewIdIsFresh(w: World, created: Option<Entity>)
    requires RowInv(w) && (created.Some? && created.value.id.Some? ==> created.value.id.value !in w.stored)
    ensures Fresh(w.row, created)
  {
    hide Good, Kept;
  }

  /** Every checkout moves the row within the rules; one that does not overwrite also
      settles what it drops and starts its replacement unmarked. */
  lemma CheckoutMoves(w: World, act: Act)
    requires RowInv(w) && NewId(w, act) && act.step.Checkout?
    ensures RowStep(w, Next(w, act))
    ensures !Overwriting(w, act) ==> Settles(w, Next(w, act)) && StartsUnmarked(w, Next(w, act))
  {
    hide StartCheckout, CloseDeparted, RowInv, Good, Kept, StampsKnown, SameMarker, CheckoutProofs, Fresh, TerminalIn,
         Remembers, Introduces, Overwrites, Snapshot, ReplacementSnapshot, CommitStep1, AskAboutRetired,
         CommitT2Refused, NeedsReissue, AdvanceDunning, Holds;
    var plan, ack, a, env := act.step.plan, act.step.ack, act.step.a, act.env;
    var reply := StartCheckout(w.row, plan, ack, a, env);
    var w1 := Saw(w, a.current, CheckoutProofs(a));
    var w0 := w1.(ended := w1.ended + reply.ended);
    InvRow(w);
    StartCheckoutGood(w.row, plan, ack, a, env);
    PaidGrows(w.row, w.proofs, w0.proofs);
    NewIdIsFresh(w, a.created);
    StartCheckoutKeeps(w.row, plan, ack, a, env, w0.proofs);
    NewMarker(w, reply.row, a.created, Overwrites(w.row, plan, ack, a, env));
    if !Overwriting(w, act) {
      RemembersMore(w.row, reply.row, reply.ended + TerminalIn(a.current), w0.terminal + w0.ended);
    }
  }

  lemma NewMarker(w: World, r': Row, created: Option<Entity>, over: bool)
    requires Good(r') && MarkerOrNew(w.row, r', created, over)
    requires created.Some? && created.value.id.Some? ==> created.value.id.value !in w.stored
    ensures SameMarker(w.row, r') || NewRepl(w, r')
    ensures !over ==> SameMarker(w.row, r') || (r'.committedAt.None? && r'.confirmedAt.None?)
  {
  }

  lemma CancelCareful(w: World, env: Env, a: Answers)
    requires RowInv(w)
    ensures Careful(w, Next(w, Act(env, Cancel(a))))
  {
    hide CancelSubscription, CloseDeparted, RowInv, Good, Kept, StampsKnown, SameMarker, ProofOf, TerminalIn,
         Remembers, Introduces, KeepsSlots, Snapshot, ReplacementSnapshot, CommitStep1, AskAboutRetired,
         CommitT2Refused, NeedsReissue, AdvanceDunning, Holds;
    var reply := CancelSubscription(w.row, a, env);
    var w1 := Saw(w, a.current, ProofOf(a.current, a.invoices));
    var w0 := w1.(ended := w1.ended + reply.ended);
    InvRow(w);
    CancelSubscriptionGood(w.row, a, env);
    PaidGrows(w.row, w.proofs, w0.proofs);
    CancelSubscriptionKeeps(w.row, a, env, w0.proofs);
    SlotsRemembered(w.row, reply.row);
    RemembersMore(w.row, reply.row, {}, w0.terminal + w0.ended);
  }

  /** A step that only moves the row mildly, whatever else the provider answered. */
  lemma MildCareful(w: World, w0: World, r': Row)
    requires RowInv(w) && Good(r') && Mild(w.row, r') && KeepsSlots(w.row, r')
    requires w0 == w.(terminal := w0.terminal, ended := w0.ended)
    requires w.terminal <= w0.terminal && w.ended <= w0.ended
    ensures Careful(w, Move(w0, r'))
  {
    hide Good, Kept, CloseDeparted, Holds, Remembers;
    QuietKeeps(w.row, r', w.proofs);
    SlotsRemembered(w.row, r');
    RemembersMore(w.row, r', {}, w0.terminal + w0.ended);
  }

  lemma CancelPendingCareful(w: World, env: Env, a: Answers)
    requires RowInv(w)
    ensures Careful(w, Next(w, Act(env, CancelPending(a))))
  {
    hide CancelAndRetire, Move, RowInv, Good, Kept, Mild, TerminalIn, KeepsSlots, Snapshot, ReplacementSnapshot,
         CommitStep1, AskAboutRetired, CommitT2Refused, NeedsReissue, AdvanceDunning, Holds, Careful;
    var reply := CancelReplacement(w.row, a, env);
    InvRow(w);
    if w.row.repl.Some? {
      CancelAndRetireGood(w.row, true, a, env);
      CancelAndRetireMild(w.row, true, a, env);
    } else {
      SelfMild(w.row);
    }
    var w1 := Saw(w, a.current, {});
    MildCareful(w, w1.(ended := w1.ended + reply.ended), reply.row);
  }

  lemma SelfMild(r: Row)
    ensures Mild(r, r) && KeepsSlots(r, r)
  {
  }

  lemma DunningCareful(w: World, env: Env)
    requires RowInv(w)
    ensures Careful(w, Next(w, Act(env, Dunning)))
  {
    hide AdvanceDunning, Move, RowInv, Good, Mild, KeepsSlots, Snapshot, ReplacementSnapshot, CommitStep1,
         AskAboutRetired, CommitT2Refused, NeedsReissue, Holds, Careful;
    InvRow(w);
    AdvanceDunningGood(w.row, env.now);
    LocalMild(w.row, env.now);
    MildCareful(w, w, AdvanceDunning(w.row, env.now));
  }

  lemma OwedRecordCareful(w: World, env: Env, ref: Ref, status: ProviderStatus)
    requires RowInv(w) && w.row.ref == Some(ref)
    ensures Careful(w, Next(w, Act(env, OwedRecord(ref, status))))
  {
    hide Move, RowInv, Snapshot, ReplacementSnapshot, CommitStep1, AskAboutRetired, CommitT2Refused, NeedsReissue, Holds,
         Careful;
    InvRow(w);
    MildCareful(w, w, w.row.(providerStatus := Some(Recorded(status))));
  }

  lemma DropRetiredCareful(w: World, env: Env, ref: Ref)
    requires RowInv(w) && ref in w.terminal
    ensures Careful(w, Next(w, Act(env, DropRetired(ref))))
  {
    hide ClearRetired, CloseDeparted, RowInv, Good, Kept, Mild, Remembers, Introduces, Snapshot, ReplacementSnapshot,
         CommitStep1, AskAboutRetired, CommitT2Refused, NeedsReissue, Holds;
    var r' := ClearRetired(w.row, ref);
    InvRow(w);
    ClearRetiredGood(w.row, ref);
    ClearRetiredMild(w.row, ref);
    MildQuiet(w.row, r', w.proofs);
    RemembersMore(w.row, r', {ref}, w.terminal + w.ended);
  }

  lemma MildQuiet(r: Row, r': Row, proofs: Proofs)
    requires Mild(r, r') && Kept(r, proofs)
    ensures Kept(r', proofs) && SameMarker(r, r') && StampsKnown(r, r')
  {
    QuietKeeps(r, r', proofs);
  }

  // --- steps that leave the row alone ---

  /** More may be known settled, and the inbox may change. */
  predicate OnlyLearns(w: World, w': World) {
    && w' == w.(inbox := w'.inbox, terminal := w'.terminal, ended := w'.ended)
    && w.terminal <= w'.terminal && w.ended <= w'.ended
  }

  lemma LearningKeeps(w: World, w': World)
    requires OnlyLearns(w, w')
    ensures RowInv(w) ==> RowInv(w')
    ensures NoneLost(w) ==> NoneLost(w')
    ensures MarkerSound(w) ==> MarkerSound(w')
    ensures OpenMarkerSound(w) ==> OpenMarkerSound(w')
  {
    hide Good, Kept, Holds, StillMarked;
  }

  // --- the commit protocol's steps ---

  lemma RefusedMarker(r: Row, prior: Ref, repl: Ref, env: Env, answer: Option<Entity>)
    ensures var r' := CommitT2Refused(r, prior, repl, env, answer);
            if StandsCommitted(r, prior, repl)
            then r'.committedAt.None? && r'.ref == r.ref && (r'.repl == r.repl || r'.repl.None?) &&
                 (r.confirmedAt.None? ==> r'.confirmedAt.None?)
            else r' == r
  {
  }

  lemma ConfirmGood(r: Row, prior: Ref, repl: Ref, now: Time)
    requires Good(r)
    ensures Good(CommitT2Confirmed(r, prior, repl, now)) && KeepsSlots(r, CommitT2Confirmed(r, prior, repl, now))
    ensures Good(ReissueConfirmed(r, prior, repl, now)) && KeepsSlots(r, ReissueConfirmed(r, prior, repl, now))
  {
  }

  lemma T1Keeps(w: World, env: Env, answer: Option<Entity>)
    requires RowInv(w)
    ensures var w' := CommitStep1(w, env, answer);
            Preserves(w, w')
  {
    var result := CommitT1(w.row, env, answer);
    CommitT1Good(w.row, env, answer);
    CommitQuiet(w.row, "", "", env, answer);
    GoodMarker(w.row);
    GoodMarker(result.0);
    hide Good, Kept, DowngradeVerified, AbandonUnlessActive, CloseDeparted, Quiet, KeepsSlots, IsDowngrade, Refetch,
         NoneLost, Careful, SameMarker;
    if w.worker.Idle? {
      if result.1 {
        MarkedKeeps(w, env, result.0);
      } else {
        MildCareful(w, w, result.0);
        CarefulKeeps(w, Move(w, result.0));
      }
    }
  }

  /** The commit: only the marker and the audit change. */
  lemma MarkedKeeps(w: World, env: Env, r': Row)
    requires RowInv(w) && w.worker.Idle? && Good(r') && w.row.repl.Some? && w.row.ref.Some? && w.row.committedAt.None?
    requires r' == w.row.(committedAt := r'.committedAt, log := r'.log) && r'.committedAt.Some?
    ensures var pair := (w.row.ref.value, w.row.repl.value);
            var w' := Move(w, r').(worker := MustCancel(pair.0, pair.1), marked := w.marked + {pair});
            Preserves(w, w')
  {
    QuietKeeps(w.row, r', w.proofs);
    GoodMarker(w.row);
    hide Good, Kept, CloseDeparted;
    assert Holds(w.row, w.row.ref.value) && Holds(w.row, w.row.repl.value);
  }

  lemma CarefulKeeps(w: World, w': World)
    requires RowInv(w) && Careful(w, w')
    ensures Preserves(w, w')
  {
    hide RowInv, NoneLost, MarkerSound, OpenMarkerSound, RowStep, Settles, SameMarker;
    RowStepKeeps(w, w');
    if NoneLost(w) { RowStepLosesNone(w, w'); }
    RowStepKeepsMarker(w, w');
  }

  /** After the worker's last transaction of a pair it is idle again. */
  lemma FinishedKeeps(w: World, r': Row)
    requires RowInv(w) && !w.worker.Idle? && Good(r') && Quiet(w.row, r') && KeepsSlots(w.row, r')
    requires r'.repl.Some? && r'.committedAt.None? ==> (r'.ref.value, r'.repl.value) !in w.scheduled
    requires r'.committedAt.Some? ==> w.row.committedAt.Some? && r'.repl == w.row.repl && r'.ref == w.row.ref
    requires r'.committedAt.Some? && r'.confirmedAt.None? ==> w.row.confirmedAt.None?
    requires MarkerSound(w) && r'.confirmedAt.Some? ==>
               r'.repl.Some? && r'.ref.Some? && (r'.ref.value, r'.repl.value) in w.scheduled
    ensures var w' := Move(w.(worker := Idle), r');
            Preserves(w, w')
  {
    QuietKeeps(w.row, r', w.proofs);
    SlotsRemembered(w.row, r');
    GoodMarker(r');
    hide Good, Kept, CloseDeparted;
    var w' := Move(w.(worker := Idle), r');
    if NoneLost(w) {
      forall x | x in w'.stored ensures Holds(r', x) || x in w'.terminal || x in w'.ended {
        if x !in SlotSet(r') { assert x in w.stored; }
      }
    }
  }

  lemma T2Keeps(w: World, env: Env, answer: Option<Entity>)
    requires RowInv(w)
    ensures var w' := Next(w, Act(env, T2(answer)));
            Preserves(w, w')
  {
    if w.worker.Answered? {
      var prior, repl := w.worker.prior, w.worker.repl;
      GoodMarker(w.row);
      CommitQuiet(w.row, prior, repl, env, answer);
      if w.worker.confirmed {
        ConfirmGood(w.row, prior, repl, env.now);
        hide Good, Kept, CloseDeparted, NoneLost, Quiet, KeepsSlots;
        FinishedKeeps(w, CommitT2Confirmed(w.row, prior, repl, env.now));
      } else {
        CommitT2RefusedGood(w.row, prior, repl, env, answer);
        RefusedMarker(w.row, prior, repl, env, answer);
        hide Good, Kept, CloseDeparted, NoneLost, Quiet, KeepsSlots, CommitT2Refused, Abandons, AbandonUnlessActive;
        FinishedKeeps(w, CommitT2Refused(w.row, prior, repl, env, answer));
      }
    }
  }

  lemma FinishReissueKeeps(w: World, env: Env)
    requires RowInv(w)
    ensures var w' := Next(w, Act(env, FinishReissue));
            Preserves(w, w')
  {
    if w.worker.Reissued? {
      var prior, repl := w.worker.prior, w.worker.repl;
      GoodMarker(w.row);
      CommitQuiet(w.row, prior, repl, env, None);
      ConfirmGood(w.row, prior, repl, env.now);
      hide Good, Kept, CloseDeparted, NoneLost, Quiet, KeepsSlots;
      FinishedKeeps(w, ReissueConfirmed(w.row, prior, repl, env.now));
    }
  }

  /** Calls, a crash and the start of a re-issue leave the row alone. */
  lemma CallsKeep(w: World, act: Act)
    requires RowInv(w) && (act.step.CallCancel? || act.step.CallReissue? || act.step.BeginReissue? || act.step.Crash?)
    ensures var w' := Next(w, act);
            Preserves(w, w')
  {
    hide Good, Kept, Snapshot, ReplacementSnapshot, CommitStep1, AskAboutRetired, AdvanceDunning, CommitT2Refused;
    InvRow(w);
    GoodMarker(w.row);
    if w.row.repl.Some? { assert Holds(w.row, w.row.ref.value) && Holds(w.row, w.row.repl.value); }
  }

  // --- every step ---

  /** Every step but a checkout keeps all three parts. */
  lemma OtherStepKeeps(w: World, act: Act)
    requires RowInv(w) && !act.step.Checkout?
    ensures Preserves(w, Next(w, act))
  {
    hide RowInv, NoneLost, MarkerSound, OpenMarkerSound, Careful, Snapshot, ReplacementSnapshot, CommitStep1, AdvanceDunning,
         CommitT2Refused, StartCheckout, CancelSubscription, CancelReplacement;
    var env, w' := act.env, Next(w, act);
    match act.step
    case Main(e, invoices, started, answer) => MainCareful(w, env, e, invoices, started, answer); CarefulKeeps(w, w');
    case Replacement(e, invoices, started, answer) => ReplacementCareful(w, env, e, invoices, started, answer); CarefulKeeps(w, w');
    case T1(answer) => T1Keeps(w, env, answer);
    case T2(answer) => T2Keeps(w, env, answer);
    case FinishReissue => FinishReissueKeeps(w, env);
    case AskRetired(fetched, cancelled) => LearningKeeps(w, w');
    case DropRetired(ref) => if ref in w.terminal { DropRetiredCareful(w, env, ref); CarefulKeeps(w, w'); }
    case Cancel(a) => CancelCareful(w, env, a); CarefulKeeps(w, w');
    case CancelPending(a) => CancelPendingCareful(w, env, a); CarefulKeeps(w, w');
    case Dunning => DunningCareful(w, env); CarefulKeeps(w, w');
    case OwedCall(ok) => LearningKeeps(w, w');
    case OwedRecord(ref, status) => if w.row.ref == Some(ref) { OwedRecordCareful(w, env, ref, status); CarefulKeeps(w, w'); }
    case Receive(id, event) => LearningKeeps(w, w');
    case _ => CallsKeep(w, act);
  }

  /** Every step keeps the row invariant, overwriting checkouts included. */
  lemma NextKeeps(w: World, act: Act)
    requires RowInv(w) && NewId(w, act)
    ensures RowInv(Next(w, act))
  {
    hide RowInv, NoneLost, MarkerSound, OpenMarkerSound, Next, NewId, Overwriting, RowStep;
    if act.step.Checkout? {
      CheckoutMoves(w, act);
      RowStepKeeps(w, Next(w, act));
    } else {
      OtherStepKeeps(w, act);
    }
  }

  /** Every step that does not lose its replacement loses nothing. */
  lemma NextLosesNone(w: World, act: Act)
    requires RowInv(w) && NoneLost(w) && NewId(w, act) && !Loses(w, act)
    ensures NoneLost(Next(w, act))
  {
    hide RowInv, NoneLost, MarkerSound, OpenMarkerSound, Next, NewId, Overwriting, RowStep, Settles;
    if act.step.Checkout? {
      CheckoutMoves(w, act);
      if Overwriting(w, act) { OverwritingSettles(w, act); }
      RowStepLosesNone(w, Next(w, act));
    } else {
      OtherStepKeeps(w, act);
    }
  }

  /** An overwriting checkout learns of no end, and drops just the pending replacement. */
  lemma OverwritingSettles(w: World, act: Act)
    requires RowInv(w) && NewId(w, act) && Overwriting(w, act)
    ensures var w' := Next(w, act);
            && w'.terminal == w.terminal && w'.ended == w.ended
            && w'.row.status.Active? && w'.row.ref == w.row.ref && NewRepl(w, w'.row)
            && w'.row.retired.None? && w.row.retired.None?
            && w'.row.committedAt == w.row.committedAt && w'.row.confirmedAt == w.row.confirmedAt
            && (w.row.repl.value in w.terminal + w.ended ==> Settles(w, w'))
  {
    hide RowInv, StartCheckout, Overwrites, CloseDeparted, CheckoutProofs, TerminalIn, Good, Kept, Snapshot,
         ReplacementSnapshot, CommitStep1, AskAboutRetired, CommitT2Refused, NeedsReissue, AdvanceDunning;
    var plan, ack, a, env := act.step.plan, act.step.ack, act.step.a, act.env;
    InvRow(w);
    OverwriteEffect(w.row, plan, ack, a, env);
    CreatedIsStorable(w.row, plan, ack, a, env);
    GoodPending(w.row);
  }

  lemma CreatedIsStorable(r: Row, plan: Plan, ack: bool, a: Answers, env: Env)
    requires Overwrites(r, plan, ack, a, env)
    ensures r.repl.Some? && Storable(a.created)
  {
    hide Reactivates, PeriodPaid;
  }

  lemma GoodPending(r: Row)
    requires Good(r) && r.repl.Some?
    ensures r.retired.None? && r.repl != r.ref
  {
  }

  /** Every step that inherits no marker keeps the marker sound. */
  lemma NextKeepsMarker(w: World, act: Act)
    requires RowInv(w) && MarkerSound(w) && NewId(w, act) && !Inherits(w, act)
    ensures MarkerSound(Next(w, act))
  {
    hide RowInv, NoneLost, MarkerSound, OpenMarkerSound, Next, NewId, Overwriting, RowStep;
    if act.step.Checkout? {
      CheckoutMoves(w, act);
      if Overwriting(w, act) {
        OverwritingSettles(w, act);
        InvRow(w);
        GoodMarker(w.row);
      }
      RowStepKeepsMarker(w, Next(w, act));
    } else {
      OtherStepKeeps(w, act);
    }
  }

  /** Every step that inherits no open marker keeps the open markers sound. */
  lemma NextKeepsOpenMarker(w: World, act: Act)
    requires RowInv(w) && OpenMarkerSound(w) && NewId(w, act) && !InheritsOpen(w, act)
    ensures OpenMarkerSound(Next(w, act))
  {
    hide RowInv, NoneLost, MarkerSound, OpenMarkerSound, Next, NewId, Overwriting, RowStep;
    if act.step.Checkout? {
      CheckoutMoves(w, act);
      if Overwriting(w, act) {
        OverwritingSettles(w, act);
        InvRow(w);
        GoodMarker(w.row);
        ConfirmedIsClosed(w, act);
      } else {
        RowStepKeepsMarker(w, Next(w, act));
      }
    } else {
      OtherStepKeeps(w, act);
    }
  }

  /** A replacement that starts unmarked, or with an inherited confirmation, is not open. */
  lemma ConfirmedIsClosed(w: World, act: Act)
    requires OpenMarkerSound(w) && Overwriting(w, act)
    requires Next(w, act).row.committedAt.None? || Next(w, act).row.confirmedAt.Some?
    ensures OpenMarkerSound(Next(w, act))
  {
    hide StartCheckout, Overwrites, CloseDeparted, CheckoutProofs;
  }

  // --- whole runs ---

  /** The states a run passes through. */
  ghost predicate Traces(w: World, acts: seq<Act>, trace: seq<World>) {
    && |trace| == |acts| + 1 && trace[0] == w
    && forall k :: 0 <= k < |acts| ==> trace[k + 1] == Next(trace[k], acts[k])
  }

  lemma {:induction false} TraceIsRun(w: World, acts: seq<Act>, trace: seq<World>)
    requires Traces(w, acts, trace)
    ensures Run(w, acts) == trace[|acts|]
    ensures (forall k :: 0 <= k < |acts| ==> NewId(trace[k], acts[k])) ==> NewIds(w, acts)
    decreases |acts|
  {
    hide Next, NewId;
    if acts != [] {
      var rest, tail := acts[1..], trace[1..];
      forall k | 0 <= k < |rest| ensures tail[k + 1] == Next(tail[k], rest[k]) {
        assert trace[k + 2] == Next(trace[k + 1], acts[k + 1]);
      }
      TraceIsRun(tail[0], rest, tail);
      if forall k :: 0 <= k < |acts| ==> NewId(trace[k], acts[k]) {
        forall k | 0 <= k < |rest| ensures NewId(tail[k], rest[k]) {
          assert NewId(trace[k + 1], acts[k + 1]);
        }
        assert NewIdsOn(w, acts[0], rest);
      }
      assert Run(w, acts) == RunOn(w, acts[0], rest);
    }
  }

  lemma InitialKeeps(w: World)
    requires Initial(w)
    ensures RowInv(w) && NoneLost(w) && MarkerSound(w) && OpenMarkerSound(w)
  {
  }

  lemma {:induction false} RunKeeps(w: World, acts: seq<Act>)
    requires RowInv(w) && NewIds(w, acts)
    ensures RowInv(Run(w, acts))
    decreases |acts|
  {
    hide RowInv, Next, NewId;
    if acts != [] {
      NextKeeps(w, acts[0]);
      RunKeeps(Next(w, acts[0]), acts[1..]);
    }
  }

  lemma {:induction false} RunLosesNone(w: World, acts: seq<Act>)
    requires RowInv(w) && NoneLost(w) && NewIds(w, acts) && LosesNone(w, acts)
    ensures NoneLost(Run(w, acts))
    decreases |acts|
  {
    hide RowInv, NoneLost, Next, NewId, Loses;
    if acts != [] {
      NextKeeps(w, acts[0]);
      NextLosesNone(w, acts[0]);
      RunLosesNone(Next(w, acts[0]), acts[1..]);
    }
  }

  lemma {:induction false} RunKeepsMarker(w: World, acts: seq<Act>)
    requires RowInv(w) && MarkerSound(w) && NewIds(w, acts) && InheritsNone(w, acts)
    ensures MarkerSound(Run(w, acts))
    decreases |acts|
  {
    hide RowInv, MarkerSound, Next, NewId, Inherits;
    if acts != [] {
      NextKeeps(w, acts[0]);
      NextKeepsMarker(w, acts[0]);
      RunKeepsMarker(Next(w, acts[0]), acts[1..]);
    }
  }

  lemma {:induction false} RunKeepsOpenMarker(w: World, acts: seq<Act>)
    requires RowInv(w) && OpenMarkerSound(w) && NewIds(w, acts) && InheritsNoneOpen(w, acts)
    ensures OpenMarkerSound(Run(w, acts))
    decreases |acts|
  {
    hide RowInv, OpenMarkerSound, Next, NewId, InheritsOpen;
    if acts != [] {
      NextKeeps(w, acts[0]);
      NextKeepsOpenMarker(w, acts[0]);
      RunKeepsOpenMarker(Next(w, acts[0]), acts[1..]);
    }
  }
}
