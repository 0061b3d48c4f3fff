/** Whole runs of the billing engine: every locked transaction, provider call, crash
    and webhook is one step, in any order and with any provider answers. One sync
    worker drives the downgrade commit; requests and the other tasks interleave. */
module BillingWorld {
  import opened Common
  import opened BillingTypes
  import opened BillingSnapshot
  import opened BillingCheckout
  import opened BillingInvariants
  import opened BillingEffects

  /** A webhook in the inbox. `createdAt` is the web host's clock; `receivedAt` is the true time. */
  datatype Event = Event(ref: Ref, createdAt: Time, receivedAt: Time, done: bool)

  datatype CallOutcome = Confirmed | RefusedCall | UnknownApplied | UnknownLost

  /** Where the sync worker is inside the commit protocol, with the (old, replacement) pair. */
  datatype Worker =
    | Idle
    | MustCancel(prior: Ref, repl: Ref)
    | Answered(prior: Ref, repl: Ref, confirmed: bool)
    | MustReissue(prior: Ref, repl: Ref)
    | Reissued(prior: Ref, repl: Ref)

  /** The row and the inbox; what really happened at the provider and in the past:
      refs ever stored, refs it reported terminal, immediate cancels that succeeded,
      paid proofs seen, pairs ever marked committed, and pairs whose old
      subscription the commit path has scheduled to end. */
  datatype World = World(
    row: Row, inbox: map<nat, Event>,
    stored: set<Ref>, terminal: set<Ref>, ended: set<Ref>, proofs: Proofs,
    worker: Worker, marked: set<(Ref, Ref)>, scheduled: set<(Ref, Ref)>)

  datatype Step =
    | Main(e: Entity, invoices: Option<seq<Invoice>>, started: Time, answer: Option<Entity>)
    | Replacement(e: Entity, invoices: Option<seq<Invoice>>, started: Time, answer: Option<Entity>)
    | T1(answer: Option<Entity>) | CallCancel(outcome: CallOutcome) | T2(answer: Option<Entity>)
    | BeginReissue | CallReissue(outcome: CallOutcome) | FinishReissue
    | Crash
    | AskRetired(fetched: Option<Entity>, cancelled: Option<Option<ProviderStatus>>)
    | DropRetired(ref: Ref)
    | Checkout(plan: Plan, ack: bool, a: Answers)
    | Cancel(a: Answers)
    | CancelPending(a: Answers)
    | Dunning
    | OwedCall(ok: bool)
    | OwedRecord(ref: Ref, status: ProviderStatus)
    | Receive(id: nat, event: Event)

  datatype Act = Act(env: Env, step: Step)

  function SlotSet(r: Row): set<Ref> {
    (if r.ref.Some? then {r.ref.value} else {})
    + (if r.repl.Some? then {r.repl.value} else {})
    + (if r.retired.Some? then {r.retired.value} else {})
  }

  // --- the inbox ---

  /** The refs whose events a step closed. */
  function NewMarks(r: Row, r': Row): seq<Ref> {
    if |r.marks| <= |r'.marks| then r'.marks[|r.marks|..] else []
  }

  /** Close the events that name a ref which left the row in this step. */
  function CloseDeparted(inbox: map<nat, Event>, r: Row, r': Row): map<nat, Event> {
    map id | id in inbox ::
      if inbox[id].ref in NewMarks(r, r') then inbox[id].(done := true) else inbox[id]
  }

  /** A settled main sync marks what its fetch could have observed, except the live replacement's events. */
  function MarkMain(inbox: map<nat, Event>, started: Time, live: Option<Ref>): map<nat, Event> {
    map id | id in inbox ::
      if inbox[id].createdAt < started - EVENT_CLOCK_SKEW && Some(inbox[id].ref) != live
      then inbox[id].(done := true) else inbox[id]
  }

  /** A settled replacement sync marks only that replacement's own events. */
  function MarkReplacement(inbox: map<nat, Event>, started: Time, ref: Option<Ref>): map<nat, Event> {
    map id | id in inbox ::
      if inbox[id].createdAt < started - EVENT_CLOCK_SKEW && Some(inbox[id].ref) == ref
      then inbox[id].(done := true) else inbox[id]
  }

  // --- one step ---

  function Move(w: World, row: Row): World {
    w.(row := row, stored := w.stored + SlotSet(row), inbox := CloseDeparted(w.inbox, w.row, row))
  }

  function Saw(w: World, e: Option<Entity>, proofs: Proofs): World {
    w.(terminal := w.terminal + TerminalIn(e), proofs := w.proofs + proofs)
  }

  function Request(w: World, reply: Reply, a: Answers, proofs: Proofs): World {
    var w1 := Saw(w, a.current, proofs);
    Move(w1.(ended := w1.ended + reply.ended), reply.row)
  }

  function Next(w: World, act: Act): World {
    var env := act.env;
    match act.step
    case Main(e, invoices, started, answer) =>
      var result := Snapshot(w.row, e, invoices, started, env, answer);
      var w1 := Move(Saw(w, Some(e), ProofOf(Some(e), invoices)), result.row);
      if result.settled then w1.(inbox := MarkMain(w1.inbox, started, w1.row.repl)) else w1
    case Replacement(e, invoices, started, answer) =>
      var result := ReplacementSnapshot(w.row, e, invoices, started, env, answer);
      var w1 := Move(Saw(w, Some(e), ProofOf(Some(e), invoices)), result.row);
      if result.settled then w1.(inbox := MarkReplacement(w1.inbox, started, e.id)) else w1
    case T1(answer) => CommitStep1(w, env, answer)
    case CallCancel(outcome) =>
      if !w.worker.MustCancel? then w
      else
        var pair := (w.worker.prior, w.worker.repl);
        w.(scheduled := if outcome.Confirmed? || outcome.UnknownApplied? then w.scheduled + {pair} else w.scheduled,
           worker := if outcome.Confirmed? then Answered(pair.0, pair.1, true)
                     else if outcome.RefusedCall? then Answered(pair.0, pair.1, false) else Idle)
    case T2(answer) =>
      if !w.worker.Answered? then w
      else
        Move(w.(worker := Idle),
          if w.worker.confirmed then CommitT2Confirmed(w.row, w.worker.prior, w.worker.repl, env.now)
          else CommitT2Refused(w.row, w.worker.prior, w.worker.repl, env, answer))
    case BeginReissue =>
      if w.worker.Idle? && NeedsReissue(w.row) && w.row.ref.Some?
      then w.(worker := MustReissue(w.row.ref.value, w.row.repl.value)) else w
    case CallReissue(outcome) =>
      if !w.worker.MustReissue? then w
      else
        var pair := (w.worker.prior, w.worker.repl);
        w.(scheduled := if outcome.Confirmed? || outcome.UnknownApplied? then w.scheduled + {pair} else w.scheduled,
           worker := if outcome.Confirmed? then Reissued(pair.0, pair.1) else Idle)
    case FinishReissue =>
      if !w.worker.Reissued? then w
      else Move(w.(worker := Idle), ReissueConfirmed(w.row, w.worker.prior, w.worker.repl, env.now))
    case Crash => w.(worker := Idle)
    case AskRetired(fetched, cancelled) => AskAboutRetired(w, fetched, cancelled)
    case DropRetired(ref) => if ref in w.terminal then Move(w, ClearRetired(w.row, ref)) else w
    case Checkout(plan, ack, a) => Request(w, StartCheckout(w.row, plan, ack, a, env), a, CheckoutProofs(a))
    case Cancel(a) => Request(w, CancelSubscription(w.row, a, env), a, ProofOf(a.current, a.invoices))
    case CancelPending(a) => Request(w, CancelReplacement(w.row, a, env), a, {})
    case Dunning => Move(w, AdvanceDunning(w.row, env.now))
    case OwedCall(ok) =>
      if ok && (w.row.status.Cancelled? || w.row.status.Expired?) && w.row.ref.Some? &&
         w.row.providerStatus.Some? && MayBeCancelled(w.row.providerStatus.value)
      then w.(ended := w.ended + {w.row.ref.value}) else w
    case OwedRecord(ref, status) =>
      if w.row.ref == Some(ref) then Move(w, w.row.(providerStatus := Some(Recorded(status)))) else w
    case Receive(id, event) =>
      if id !in w.inbox && (w.row.ref == Some(event.ref) || w.row.repl == Some(event.ref))
      then w.(inbox := w.inbox[id := event.(done := false)]) else w
  }

  function CommitStep1(w: World, env: Env, answer: Option<Entity>): World {
    var result := CommitT1(w.row, env, answer);
    if !w.worker.Idle? then w
    else if result.1 && w.row.ref.Some? && w.row.repl.Some? then
      Move(w, result.0).(
        worker := MustCancel(w.row.ref.value, w.row.repl.value),
        marked := w.marked + {(w.row.ref.value, w.row.repl.value)})
    else Move(w, result.0)
  }

  /** The retired subscription is fetched and, where its kind allows, cancelled at once. */
  function AskAboutRetired(w: World, fetched: Option<Entity>, cancelled: Option<Option<ProviderStatus>>): World {
    if w.row.retired.None? || w.row.retiredKind.None? || fetched.None? ||
       fetched.value.id != w.row.retired || fetched.value.status.None? then w
    else if Terminal(fetched.value.status.value) then Saw(w, fetched, {})
    else if !RetiredMayBeCancelled(w.row.retiredKind.value, fetched.value.status.value) || cancelled.None? then w
    else
      var w1 := w.(ended := w.ended + {w.row.retired.value});
      if cancelled.value.Some? && Terminal(cancelled.value.value)
      then w1.(terminal := w1.terminal + {w.row.retired.value}) else w1
  }

  // --- runs ---

  /** The environment's part: a created subscription has a new id. */
  predicate NewId(w: World, act: Act) {
    act.step.Checkout? && act.step.a.created.Some? && act.step.a.created.value.id.Some? ==>
      act.step.a.created.value.id.value !in w.stored
  }

  predicate Overwriting(w: World, act: Act) {
    act.step.Checkout? && Overwrites(w.row, act.step.plan, act.step.ack, act.step.a, act.env)
  }

  /** A checkout that overwrites a replacement the provider has not ended. */
  predicate Loses(w: World, act: Act) {
    Overwriting(w, act) && w.row.repl.value !in w.terminal + w.ended
  }

  /** A checkout that overwrites a committed replacement, and so inherits its marker. */
  predicate Inherits(w: World, act: Act) {
    Overwriting(w, act) && w.row.committedAt.Some?
  }

  /** The inherited marker is still open: its cancel is not confirmed, so the next sweep acts on it. */
  predicate InheritsOpen(w: World, act: Act) {
    Inherits(w, act) && w.row.confirmedAt.None?
  }

  function Run(w: World, acts: seq<Act>): World
    decreases |acts|, 0
  {
    if acts == [] then w else RunOn(w, acts[0], acts[1..])
  }

  /** One step, then the rest. */
  function RunOn(w: World, act: Act, rest: seq<Act>): World
    decreases |rest|, 1
  {
    Run(Next(w, act), rest)
  }

  predicate NewIds(w: World, acts: seq<Act>)
    decreases |acts|, 0
  {
    acts == [] || NewIdsOn(w, acts[0], acts[1..])
  }

  predicate NewIdsOn(w: World, act: Act, rest: seq<Act>)
    decreases |rest|, 1
  {
    NewId(w, act) && NewIds(Next(w, act), rest)
  }

  /** No checkout of the run loses a replacement. */
  predicate LosesNone(w: World, acts: seq<Act>)
    decreases |acts|, 0
  {
    acts == [] || LosesNoneOn(w, acts[0], acts[1..])
  }

  predicate LosesNoneOn(w: World, act: Act, rest: seq<Act>)
    decreases |rest|, 1
  {
    !Loses(w, act) && LosesNone(Next(w, act), rest)
  }

  /** No checkout of the run inherits a commit marker. */
  predicate InheritsNone(w: World, acts: seq<Act>)
    decreases |acts|, 0
  {
    acts == [] || InheritsNoneOn(w, acts[0], acts[1..])
  }

  predicate InheritsNoneOn(w: World, act: Act, rest: seq<Act>)
    decreases |rest|, 1
  {
    !Inherits(w, act) && InheritsNone(Next(w, act), rest)
  }

  /** No checkout of the run inherits an open commit marker. */
  predicate InheritsNoneOpen(w: World, acts: seq<Act>)
    decreases |acts|, 0
  {
    acts == [] || InheritsNoneOpenOn(w, acts[0], acts[1..])
  }

  predicate InheritsNoneOpenOn(w: World, act: Act, rest: seq<Act>)
    decreases |rest|, 1
  {
    !InheritsOpen(w, act) && InheritsNoneOpen(Next(w, act), rest)
  }

  /** A run starts with the first checkout, or with the dev seed's row, which has no
      provider reference. */
  ghost predicate Initial(w: World) {
    && w == World(w.row, map[], SlotSet(w.row), {}, {}, {}, Idle, {}, {})
    && (FirstCheckout(w.row) || SeedRow(w.row))
  }

  ghost predicate FirstCheckout(r: Row) {
    exists plan: Plan, e: Entity :: Storable(Some(e)) && r == StoreNew(BlankRow(plan), plan, e)
  }

  predicate SeedRow(r: Row) {
    && Checks(r) && r.status.Active? && r.ref.None? && r.repl.None? && r.retired.None?
    && r.log == [] && r.marks == [] && r.usage == [] && r.stamps == []
  }

  // --- the invariants ---

  /** The pair the worker is at. */
  function PairOf(k: Worker): set<(Ref, Ref)> { if k.Idle? then {} else {(k.prior, k.repl)} }

  /** What the row, its history and the worker name was stored once. */
  ghost predicate Remembered(w: World) {
    && (forall x :: Holds(w.row, x) ==> x in w.stored)
    && (forall s :: s in w.row.stamps ==> s.ref in w.stored)
    && (forall p :: p in w.marked ==> p.0 in w.stored && p.1 in w.stored)
    && (forall p :: p in w.scheduled ==> p.0 in w.stored && p.1 in w.stored)
    && (!w.worker.Idle? ==> w.worker.prior in w.stored && w.worker.repl in w.stored)
  }

  predicate StillMarked(r: Row, prior: Ref, repl: Ref) {
    r.repl == Some(repl) ==> r.ref == Some(prior) && r.committedAt.Some?
  }

  /** An uncommitted pending pair was never scheduled. */
  predicate PendingSound(w: World) {
    w.row.repl.Some? && w.row.ref.Some? && w.row.committedAt.None? ==> (w.row.ref.value, w.row.repl.value) !in w.scheduled
  }

  /** Until its first call the pair is unscheduled and unconfirmed, and so it stays
      after a definite refusal. */
  predicate WorkerSafe(w: World) {
    && (!w.worker.Idle? ==> StillMarked(w.row, w.worker.prior, w.worker.repl))
    && (w.worker.MustCancel? || (w.worker.Answered? && !w.worker.confirmed) ==>
          && (w.worker.prior, w.worker.repl) !in w.scheduled
          && (w.row.repl == Some(w.worker.repl) ==> w.row.confirmedAt.None?))
  }

  /** Every step keeps this, whatever the run. */
  ghost predicate RowInv(w: World) {
    && Good(w.row) && Kept(w.row, w.proofs) && Remembered(w) && PendingSound(w) && WorkerSafe(w)
  }

  /** No provider subscription is lost. */
  ghost predicate NoneLost(w: World) {
    forall x :: x in w.stored ==> Holds(w.row, x) || x in w.terminal || x in w.ended
  }

  /** An open marker belongs to the row's own pair, and only marked pairs were or will be scheduled. */
  predicate OpenMarkerSound(w: World) {
    && (w.row.committedAt.Some? && w.row.confirmedAt.None? ==>
          w.row.repl.Some? && w.row.ref.Some? && (w.row.ref.value, w.row.repl.value) in w.marked)
    && w.scheduled <= w.marked
    && PairOf(w.worker) <= w.marked
  }

  /** The marker and the confirmation belong to the row's own pair, and only marked pairs were scheduled. */
  predicate MarkerSound(w: World) {
    && (w.row.committedAt.Some? ==> w.row.repl.Some? && w.row.ref.Some? && (w.row.ref.value, w.row.repl.value) in w.marked)
    && (w.row.confirmedAt.Some? ==> w.row.repl.Some? && w.row.ref.Some? && (w.row.ref.value, w.row.repl.value) in w.scheduled)
    && w.scheduled <= w.marked
    && PairOf(w.worker) <= w.marked
    && ((w.worker.Answered? && w.worker.confirmed) || w.worker.Reissued? ==> PairOf(w.worker) <= w.scheduled)
  }
}
