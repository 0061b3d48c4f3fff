/** The billing vocabulary: plans, provider answers, the Subscription row and
    the pure classifications on them. Instants are whole seconds. */
module BillingTypes {
  import opened Common

  type Ref = string
  type Time = int

  const DAY: int := 86400
  const GRACE: int := 7 * DAY
  const EVENT_CLOCK_SKEW: int := 5
  // The range datetime.fromtimestamp accepts (years 1 to 9999).
  const MIN_UNIX: int := -62135596800
  const MAX_UNIX: int := 253402300799

  datatype Plan = Plan(id: nat, price: nat, quota: nat, providerId: Option<string>)

  datatype Status = Incomplete | Active | PastDue | Cancelled | Expired

  datatype RetiredKind = SwitchedOld | AbandonedReplacement

  datatype ProviderStatus =
    | PCreated | PAuthenticated | PActive | PPending | PHalted
    | PCancelled | PCompleted | PExpired | PPaused | POther(text: string)

  /** A provider subscription as one API answer reports it. A missing or
      mistyped member is None, so a malformed answer is representable. */
  datatype Entity = Entity(
    id: Option<Ref>, planId: Option<string>, status: Option<ProviderStatus>,
    currentStart: Option<int>, currentEnd: Option<int>,
    startField: Option<int>, expiryField: Option<int>)

  datatype Invoice = Invoice(
    subscriptionId: Option<Ref>, status: Option<string>, amountDue: Option<int>,
    paymentId: Option<string>, billingStart: Option<int>, billingEnd: Option<int>)

  /** What one call reads besides the row: the clock, the plan table and the settings. */
  datatype Env = Env(
    now: Time, catalogue: map<string, Plan>,
    upgradeWindow: Option<int>, downgradeWindow: Option<int>,
    upgradeOn: bool, downgradeOn: bool,
    startGate: bool, expiryGate: bool)

  datatype Action =
    | CheckoutStarted | PlanChanged | CancellationRequested | Activated | WentPastDue
    | DunningCheckpoint(stage: int) | Recovered | WasCancelled | WasExpired
    | ReplacementStarted | ReplacementCommitted | ReplacementAbandoned | PaidAfterEnd

  /** A UsageRecord opened, and the subscription whose paid period opened it. */
  datatype Opening = Opening(ref: Ref, start: Time, end: Time)

  /** A snapshot applied to the row: which subscription, and when its fetch began. */
  datatype Stamp = Stamp(ref: Ref, started: Time)

  /** One billing_subscription row, with what its steps wrote elsewhere: `log` is
      the audit rows that name it, `marks` the departed refs whose inbox events were
      closed, `usage` the UsageRecords opened and `stamps` the snapshots applied. */
  datatype Row = Row(
    status: Status, plan: Plan, pending: Option<Plan>, cancelAtEnd: bool,
    periodStart: Option<Time>, periodEnd: Option<Time>, ref: Option<Ref>,
    pastDueAt: Option<Time>, dunning: Option<int>,
    providerStatus: Option<ProviderStatus>, syncedAt: Option<Time>,
    repl: Option<Ref>, replPlan: Option<Plan>, replExpires: Option<Time>,
    committedAt: Option<Time>, confirmedAt: Option<Time>,
    retired: Option<Ref>, retiredKind: Option<RetiredKind>,
    log: seq<Action>, marks: seq<Ref>, usage: seq<Opening>, stamps: seq<Stamp>)

  predicate IsRefChar(c: char) {
    'A' <= c <= 'Z' || 'a' <= c <= 'z' || '0' <= c <= '9' || c == '_'
  }

  /** The one format check before a provider id is stored. */
  predicate ValidRef(r: Ref) {
    1 <= |r| <= 64 && forall i :: 0 <= i < |r| ==> IsRefChar(r[i])
  }

  predicate Terminal(s: ProviderStatus) {
    s.PCancelled? || s.PCompleted? || s.PExpired?
  }

  predicate MayBeCancelled(s: ProviderStatus) {
    s.PCreated? || s.PPending? || s.PHalted? || s.PActive?
  }

  predicate Failed(s: ProviderStatus) {
    s.PPending? || s.PHalted? || s.PCancelled? || s.PExpired?
  }

  /** The statuses in which an uncommitted replacement of an ended or past-due row is dropped. */
  predicate NotActive(s: ProviderStatus) {
    s.PCreated? || s.PAuthenticated? || Failed(s)
  }

  /** The kind-aware rule for the retired slot. */
  predicate RetiredMayBeCancelled(kind: RetiredKind, s: ProviderStatus) {
    !Terminal(s) && (kind.SwitchedOld? || s.PCreated? || s.PAuthenticated?)
  }

  /** The provider_status column holds 16 characters. */
  function Recorded(s: ProviderStatus): ProviderStatus {
    match s
    case POther(text) => POther(if |text| <= 16 then text else text[..16])
    case _ => s
  }

  function FromUnix(v: Option<int>): (t: Option<Time>) {
    if v.Some? && MIN_UNIX <= v.value <= MAX_UNIX then v else None
  }

  function LookupPlan(env: Env, planId: Option<string>): Option<Plan> {
    if planId.Some? && planId.value in env.catalogue then Some(env.catalogue[planId.value]) else None
  }

  /** A configured window must be a positive number of seconds. */
  function Window(setting: Option<int>): Option<int> {
    if setting.Some? && setting.value > 0 then setting else None
  }

  // --- the paid-entitlement rule ---

  predicate Qualifies(ref: Ref, start: int, i: Invoice) {
    && i.subscriptionId == Some(ref)
    && i.status == Some("paid")
    && i.amountDue == Some(0)
    && i.paymentId.Some? && i.paymentId.value != ""
    && i.billingStart.Some? && i.billingEnd.Some?
    && i.billingStart.value <= start < i.billingEnd.value
  }

  function FirstQualifying(ref: Ref, start: int, invoices: seq<Invoice>): Option<Invoice> {
    if invoices == [] then None
    else if Qualifies(ref, start, invoices[0]) then Some(invoices[0])
    else FirstQualifying(ref, start, invoices[1..])
  }

  /** current_period_paid: the invoice that proves the entity's current period is paid. */
  function PeriodPaid(e: Entity, invoices: Option<seq<Invoice>>): Option<Invoice> {
    if invoices.Some? && e.id.Some? && e.currentStart.Some?
    then FirstQualifying(e.id.value, e.currentStart.value, invoices.value)
    else None
  }

  lemma {:induction false} FirstQualifyingIsFirst(ref: Ref, start: int, invoices: seq<Invoice>)
    ensures FirstQualifying(ref, start, invoices).None? <==>
            forall k :: 0 <= k < |invoices| ==> !Qualifies(ref, start, invoices[k])
    ensures FirstQualifying(ref, start, invoices).Some? ==>
            exists k :: 0 <= k < |invoices| && Qualifies(ref, start, invoices[k]) &&
              FirstQualifying(ref, start, invoices).value == invoices[k] &&
              forall j :: 0 <= j < k ==> !Qualifies(ref, start, invoices[j])
  {
    if invoices != [] {
      var rest := invoices[1..];
      FirstQualifyingIsFirst(ref, start, rest);
      if !Qualifies(ref, start, invoices[0]) {
        forall k | 0 <= k < |invoices| && FirstQualifying(ref, start, rest).None?
          ensures !Qualifies(ref, start, invoices[k])
        {
          if k > 0 { assert invoices[k] == rest[k - 1]; }
        }
        if FirstQualifying(ref, start, rest).Some? {
          var k :| 0 <= k < |rest| && Qualifies(ref, start, rest[k]) &&
                   FirstQualifying(ref, start, rest).value == rest[k] &&
                   forall j :: 0 <= j < k ==> !Qualifies(ref, start, rest[j]);
          assert invoices[k + 1] == rest[k];
          forall j | 0 <= j < k + 1 ensures !Qualifies(ref, start, invoices[j]) {
            if j > 0 { assert invoices[j] == rest[j - 1]; }
          }
        }
      }
    }
  }

  // --- the row's database constraints ---

  /** Every CHECK constraint of the table, by column group. */
  predicate ChecksPeriod(r: Row) {
    && (r.status.Incomplete? || (r.periodStart.Some? && r.periodEnd.Some?))
    && (r.periodStart.Some? && r.periodEnd.Some? ==> r.periodStart.value < r.periodEnd.value)
  }

  predicate ChecksGrace(r: Row) {
    && (r.status.PastDue? <==> r.pastDueAt.Some?)
    && (r.dunning.Some? <==> r.pastDueAt.Some?)
    && (r.dunning.Some? ==> r.dunning.value in {0, 3, 6})
  }

  predicate ChecksReplacement(r: Row) {
    && (r.repl.Some? ==> r.repl != r.ref)
    && (r.repl.Some? <==> r.replExpires.Some?)
    && (r.repl.Some? <==> r.replPlan.Some?)
    && (r.committedAt.Some? ==> r.repl.Some?)
    && (r.confirmedAt.Some? ==> r.committedAt.Some?)
    && (r.retired.Some? <==> r.retiredKind.Some?)
  }

  predicate Checks(r: Row) {
    ChecksPeriod(r) && ChecksGrace(r) && ChecksReplacement(r)
  }

  /** What no constraint states but every reachable row satisfies. */
  predicate SlotDiscipline(r: Row) {
    && (r.repl.Some? ==> r.retired.None?)
    && (r.status.Incomplete? ==> r.repl.None?)
    && (r.repl.Some? ==> r.ref.Some?)
  }

  /** The row still remembers this provider reference. */
  predicate Holds(r: Row, x: Ref) {
    r.ref == Some(x) || r.repl == Some(x) || r.retired == Some(x)
  }
}
