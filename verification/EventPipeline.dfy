/** The event inbox: at-least-once deliveries become sales. `State` is what is
    committed; each function below is one transaction. */
module EventPipeline {
  import opened Common
  import opened Sales
  import LM = LocationMappings

  datatype IntegrationStatus = Connected | Error | Disconnected

  datatype Integration = Integration(owner: MerchantId, status: IntegrationStatus, mappings: LM.Table)

  datatype Status = Received | Processed | Failed | DeadLetter | Cancelled

  /** UNIQUE(integration, external_event_id). */
  datatype EventKey = EventKey(integration: IntegrationId, externalId: string)

  /** The row, and two histories beside it: when each attempt began, and the
      Transaction a successful attempt found or made. */
  datatype Event = Event(
    status: Status, receivedAt: Time, updatedAt: Time, processedAt: Option<Time>, attempts: nat,
    error: Option<string>, location: Option<LocationId>,
    tries: seq<Time>, sale: Option<Key>)

  /** `creators` remembers which event's attempt inserted each Transaction. */
  datatype State = State(
    merchant: MerchantId, integrations: map<IntegrationId, Integration>, events: map<EventKey, Event>,
    db: Db, creators: map<Key, EventKey>)

  const MAX_EVENT_ATTEMPTS := 5
  const RETRY_BASE := 300
  const STALE_RECEIVED_AFTER := 600

  const SAFE_ERRORS: set<string> := {
    "ADAPTER_NOT_FOUND", "PAYLOAD_INVALID", "INVALID_PHONE", "INVALID_CURRENCY", "INVALID_AMOUNT",
    "INVALID_OCCURRED_AT", "INVALID_EXTERNAL_TRANSACTION_ID", "LOCATION_UNRESOLVED", "PROCESSING_ERROR"}

  /** The exceptions an attempt can end with; a payload error carries any code. */
  datatype Failure = AdapterMissing | BadPayload(code: string) | Unresolved | Other

  function SafeError(f: Failure): string {
    match f
    case AdapterMissing => "ADAPTER_NOT_FOUND"
    case BadPayload(code) => if code in SAFE_ERRORS then code else "PAYLOAD_INVALID"
    case Unresolved => "LOCATION_UNRESOLVED"
    case Other => "PROCESSING_ERROR"
  }

  function Pow2(n: nat): nat { if n == 0 then 1 else 2 * Pow2(n - 1) }

  predicate IsDue(e: Event, now: Time) {
    e.updatedAt <= now - RETRY_BASE * Pow2(if e.attempts == 0 then 0 else e.attempts - 1)
  }

  predicate Terminal(status: Status) { status.Processed? || status.DeadLetter? || status.Cancelled? }

  // --- one attempt ---

  /** What one attempt meets: the adapter's answer, the resolved location's merchant, database faults. */
  datatype Attempt = Attempt(parsed: Result<Sale, Failure>, locationOwner: MerchantId, fault: Fault)

  datatype Booked = Booked(location: LocationId, key: Key, created: bool)

  /** The savepoint: parse, resolve, record - all of it, or an exception and nothing. */
  function Book(s: State, i: IntegrationId, a: Attempt): (Db, Result<Booked, Failure>)
    requires i in s.integrations
  {
    if a.parsed.Err? then (s.db, Err(a.parsed.error))
    else
      var found := LM.Resolve(s.integrations[i].mappings, a.parsed.value.externalLocation);
      if found.None? then (s.db, Err(Unresolved))
      else
        var place := Location(found.value, a.locationOwner);
        var (db, r) := RecordSale(s.db, s.merchant, s.integrations[i].owner, i, place, a.parsed.value, a.fault);
        match r
        case Ok(created) => (db, Ok(Booked(found.value, KeyOf(a.parsed.value, place), created)))
        case Err(e) => (db, Err(if e.InvalidPhone? then BadPayload("INVALID_PHONE") else Other))
  }

  function AfterFailure(e: Event, f: Failure, now: Time, saved: Time): Event {
    e.(attempts := e.attempts + 1, error := Some(SafeError(f)),
       status := if e.attempts + 1 >= MAX_EVENT_ATTEMPTS then DeadLetter else Failed,
       updatedAt := saved, tries := e.tries + [now])
  }

  function AfterSuccess(e: Event, b: Booked, now: Time, saved: Time): Event {
    e.(status := Processed, location := Some(b.location), processedAt := Some(saved), error := None,
       updatedAt := saved, tries := e.tries + [now], sale := Some(b.key))
  }

  /** Whether an attempt is made at all. */
  predicate Skips(e: Event, now: Time) { Terminal(e.status) || (e.status.Failed? && !IsDue(e, now)) }

  /** process_event: `now` is the due check's clock reading, `delay` the time until the row is saved. */
  function Process(s: State, key: EventKey, a: Attempt, now: Time, delay: nat): State {
    if key !in s.events || key.integration !in s.integrations then s
    else
      var e := s.events[key];
      if Skips(e, now) then s
      else if s.integrations[key.integration].status.Disconnected? then
        s.(events := s.events[key := e.(status := Cancelled, updatedAt := now + delay)])
      else
        var (db, r) := Book(s, key.integration, a);
        Finish(s, key, db, r, now, now + delay)
  }

  /** The event row as the attempt leaves it. */
  function Finish(s: State, key: EventKey, db: Db, r: Result<Booked, Failure>, now: Time, saved: Time): State
    requires key in s.events
  {
    match r
    case Err(f) => s.(db := db, events := s.events[key := AfterFailure(s.events[key], f, now, saved)])
    case Ok(b) =>
      s.(db := db, events := s.events[key := AfterSuccess(s.events[key], b, now, saved)],
         creators := if b.created then s.creators[b.key := key] else s.creators)
  }

  // --- deliveries and disconnects ---

  datatype Refusal = WrongTenantContext | IntegrationDisconnected

  function NewEvent(now: Time): Event { Event(Received, now, now, None, 0, None, None, [], None) }

  /** record_event reads the status its caller read, which a disconnect may have overtaken. */
  function Receive(s: State, key: EventKey, seen: IntegrationStatus, now: Time): (State, Result<bool, Refusal>) {
    if key.integration !in s.integrations || s.integrations[key.integration].owner != s.merchant then (s, Err(WrongTenantContext))
    else if seen.Disconnected? then (s, Err(IntegrationDisconnected))
    else if key in s.events then (s, Ok(false))
    else (s.(events := s.events[key := NewEvent(now)]), Ok(true))
  }

  function CancelPending(e: Event, now: Time): Event {
    if e.status.Received? || e.status.Failed? then e.(status := Cancelled, updatedAt := now) else e
  }

  function Disconnect(s: State, i: IntegrationId, now: Time): State {
    if i !in s.integrations || s.integrations[i].status.Disconnected? then s
    else
      s.(integrations := s.integrations[i := s.integrations[i].(status := Disconnected, mappings := LM.Deactivate(s.integrations[i].mappings))],
         events := map k | k in s.events :: if k.integration == i then CancelPending(s.events[k], now) else s.events[k])
  }

  predicate Due(e: Event, now: Time) {
    || (e.status.Received? && e.receivedAt < now - STALE_RECEIVED_AFTER)
    || (e.status.Failed? && IsDue(e, now))
  }

  /** The rows and the ledger, changed in place. */
  class Inbox {
    const ledger: Ledger
    var integrations: map<IntegrationId, Integration>
    var events: map<EventKey, Event>
    ghost var creators: map<Key, EventKey>

    constructor (l: Ledger, s: State)
      requires l.merchant == s.merchant && l.Contents() == s.db
      ensures ledger == l && Contents() == s
    {
      ledger, integrations, events, creators := l, s.integrations, s.events, s.creators;
    }

    ghost function Contents(): State
      reads this, ledger
    {
      State(ledger.merchant, integrations, events, ledger.Contents(), creators)
    }

    method RecordEvent(key: EventKey, seen: IntegrationStatus, now: Time) returns (r: Result<bool, Refusal>)
      modifies this
      ensures (Contents(), r) == Receive(old(Contents()), key, seen, now)
    {
      if key.integration !in integrations || integrations[key.integration].owner != ledger.merchant {
        return Err(WrongTenantContext);
      }
      if seen.Disconnected? { return Err(IntegrationDisconnected); }
      if key in events { return Ok(false); }
      events := events[key := Event(Received, now, now, None, 0, None, None, [], None)];
      return Ok(true);
    }

    method BookSale(i: IntegrationId, a: Attempt) returns (r: Result<Booked, Failure>)
      requires i in integrations
      modifies ledger
      ensures (ledger.Contents(), r) == Book(old(Contents()), i, a)
    {
      if a.parsed.Err? { return Err(a.parsed.error); }
      var sale := a.parsed.value;
      var found := LM.Resolve(integrations[i].mappings, sale.externalLocation);
      if found.None? { return Err(Unresolved); }
      var place := Location(found.value, a.locationOwner);
      var recorded := ledger.RecordSaleAtomically(integrations[i].owner, i, place, sale, a.fault);
      match recorded
      case Ok(created) => return Ok(Booked(found.value, KeyOf(sale, place), created));
      case Err(e) => return Err(if e.InvalidPhone? then BadPayload("INVALID_PHONE") else Other);
    }

    method RecordFailure(key: EventKey, f: Failure, now: Time, delay: nat)
      requires key in events
      modifies this`events
      ensures events == old(events)[key := AfterFailure(old(events)[key], f, now, now + delay)]
    {
      var event := events[key];
      event := event.(attempts := event.attempts + 1, tries := event.tries + [now]);
      event := event.(error := Some(SafeError(f)));
      event := event.(status := if event.attempts >= MAX_EVENT_ATTEMPTS then DeadLetter else Failed);
      event := event.(updatedAt := now + delay);
      events := events[key := event];
    }

    method ProcessEvent(key: EventKey, a: Attempt, now: Time, delay: nat)
      modifies this, ledger
      ensures Contents() == Process(old(Contents()), key, a, now, delay)
    {
      if key !in events || key.integration !in integrations { return; }
      var event := events[key];
      if event.status.Processed? || event.status.DeadLetter? || event.status.Cancelled? { return; }
      if event.status.Failed? && !IsDue(event, now) { return; }
      if integrations[key.integration].status.Disconnected? {
        event := event.(status := Cancelled, updatedAt := now + delay);
        events := events[key := event];
        return;
      }
      var booked := BookSale(key.integration, a);
      if booked.Err? {
        RecordFailure(key, booked.error, now, delay);
        return;
      }
      event := event.(status := Processed);
      event := event.(location := Some(booked.value.location));
      event := event.(processedAt := Some(now + delay));
      event := event.(error := None, updatedAt := now + delay, tries := event.tries + [now], sale := Some(booked.value.key));
      events := events[key := event];
      if booked.value.created { creators := creators[booked.value.key := key]; }
    }

    method DisconnectIntegration(i: IntegrationId, now: Time)
      modifies this
      ensures Contents() == Disconnect(old(Contents()), i, now)
    {
      if i !in integrations || integrations[i].status.Disconnected? { return; }
      var row := integrations[i].(status := Disconnected);
      row := row.(mappings := LM.Deactivate(row.mappings));
      integrations := integrations[i := row];
      events := map k | k in events :: if k.integration == i then CancelPending(events[k], now) else events[k];
    }

    /** The candidates are the unlocked FAILED and RECEIVED rows. */
    method DueEventIds(candidates: seq<EventKey>, now: Time) returns (due: seq<EventKey>)
      requires forall i :: 0 <= i < |candidates| ==>
                 candidates[i] in events && (events[candidates[i]].status.Failed? || events[candidates[i]].status.Received?)
      requires forall i, j :: 0 <= i < j < |candidates| ==> candidates[i] != candidates[j]
      ensures forall k :: k in due <==> k in candidates && Due(events[k], now)
      ensures forall i, j :: 0 <= i < j < |due| ==> due[i] != due[j]
    {
      due := [];
      for i := 0 to |candidates|
        invariant forall k :: k in due <==> k in candidates[..i] && Due(events[k], now)
        invariant forall j, k :: 0 <= j < k < |due| ==> due[j] != due[k]
      {
        var event := events[candidates[i]];
        assert candidates[i] !in candidates[..i];
        if event.status.Received? {
          if event.receivedAt < now - STALE_RECEIVED_AFTER { due := due + [candidates[i]]; }
        } else if IsDue(event, now) {
          due := due + [candidates[i]];
        }
      }
    }
  }

  // --- runs ---

  datatype Step =
    | Connect(i: IntegrationId, owner: MerchantId)
    | Remap(i: IntegrationId, change: LM.Operation)
    | Deliver(key: EventKey, seen: IntegrationStatus, now: Time)
    | Attempting(key: EventKey, a: Attempt, now: Time, delay: nat)
    | ApiSale(key: EventKey, a: Attempt, now: Time, delay: nat)
    | Disconnecting(i: IntegrationId, now: Time)
    | Stopping(phone: Phone, now: Time)

  /** A duplicate task, a redelivery or a sweep is one more step; a crash inside a
      transaction is no step. ApiSale records and processes in one transaction. */
  function Next(s: State, step: Step): State {
    match step
    case Connect(i, owner) =>
      if i in s.integrations then s else s.(integrations := s.integrations[i := Integration(owner, Connected, map[])])
    case Remap(i, change) =>
      if i !in s.integrations then s
      else s.(integrations := s.integrations[i := s.integrations[i].(mappings := LM.Apply(s.integrations[i].mappings, change))])
    case Deliver(key, seen, now) => Receive(s, key, seen, now).0
    case Attempting(key, a, now, delay) => Process(s, key, a, now, delay)
    case ApiSale(key, a, now, delay) =>
      var (s1, r) := Receive(s, key, Connected, now);
      if r == Ok(true) then Process(s1, key, a, now, delay) else s1
    case Disconnecting(i, now) => Disconnect(s, i, now)
    case Stopping(phone, now) => s.(db := s.db.(customers := OptOut(s.db.customers, phone, now)))
  }

  function Run(s: State, steps: seq<Step>): State
    decreases |steps|
  {
    if steps == [] then s else Run(Next(s, steps[0]), steps[1..])
  }

  predicate Initial(s: State) {
    s.integrations == map[] && s.events == map[] && s.db == Db(map[], map[]) && s.creators == map[]
  }

  // --- the invariant ---

  predicate AttemptsMatch(e: Event) {
    && (e.status.Received? ==> e.attempts == 0 && e.error.None?)
    && (e.status.Failed? ==> 1 <= e.attempts <= 4)
    && (e.status.DeadLetter? ==> e.attempts == 5)
    && (e.status.Processed? || e.status.Cancelled? ==> e.attempts <= 4)
    && (e.status.Failed? || e.status.DeadLetter? ==> e.error.Some? && e.error.value in SAFE_ERRORS)
    && (e.status.Processed? ==> e.error.None?)
    && |e.tries| == e.attempts + if e.status.Processed? then 1 else 0
  }

  /** Attempt k + 1 began at least 5 * (2^k - 1) minutes after the first. */
  predicate Spaced(tries: seq<Time>) {
    forall k :: 0 <= k < |tries| ==> tries[k] - tries[0] >= RETRY_BASE * (Pow2(k) - 1)
  }

  predicate SaleExists(s: State, e: Event) {
    e.status.Processed? ==>
      && e.location.Some? && e.sale.Some? && e.sale.value.location == e.location.value
      && e.sale.value in s.db.transactions
  }

  predicate EventInv(s: State, key: EventKey)
    requires key in s.events
  {
    var e := s.events[key];
    && AttemptsMatch(e)
    && Spaced(e.tries)
    && (e.tries != [] ==> e.tries[|e.tries| - 1] <= e.updatedAt || !e.status.Failed?)
    && SaleExists(s, e)
  }

  /** Every Transaction was inserted by one attempt, of the event it is PROCESSED for. */
  predicate CreatorInv(s: State, k: Key)
    requires k in s.db.transactions
  {
    && k in s.creators && s.creators[k] in s.events
    && s.events[s.creators[k]].status.Processed?
    && s.events[s.creators[k]].sale == Some(k)
    && s.db.transactions[k].integration == s.creators[k].integration
  }

  predicate Inv(s: State) {
    && (forall key :: key in s.events ==> EventInv(s, key))
    && (forall k :: k in s.db.transactions ==> CreatorInv(s, k))
    && Agrees(s.db)
  }

  lemma SpacedSnoc(e: Event, now: Time)
    requires AttemptsMatch(e) && Spaced(e.tries)
    requires e.status.Received? || (e.status.Failed? && IsDue(e, now) && e.tries[|e.tries| - 1] <= e.updatedAt)
    ensures Spaced(e.tries + [now])
  {
    var tries := e.tries + [now];
    forall k | 0 <= k < |tries| ensures tries[k] - tries[0] >= RETRY_BASE * (Pow2(k) - 1) {
      if k < |e.tries| {
        assert tries[k] == e.tries[k];
      } else if k > 0 {
        assert tries[0] == e.tries[0] && tries[k - 1] == e.tries[k - 1];
        assert Pow2(k) == 2 * Pow2(k - 1);
      }
    }
  }

  /** What one attempt does to the tables: on failure nothing; on success it finds
      its Transaction, or adds that one. */
  predicate Books(s: State, i: IntegrationId, db: Db, r: Result<Booked, Failure>) {
    && (r.Err? ==> db == s.db)
    && (r.Ok? ==>
          && r.value.key.location == r.value.location
          && r.value.key in db.transactions
          && (r.value.created <==> r.value.key !in s.db.transactions)
          && (r.value.created ==> db.transactions == s.db.transactions[r.value.key := db.transactions[r.value.key]]
                                  && db.transactions[r.value.key].integration == i)
          && (!r.value.created ==> db.transactions == s.db.transactions))
    && (Agrees(s.db) ==> Agrees(db))
  }

  lemma BookEffect(s: State, i: IntegrationId, a: Attempt)
    requires i in s.integrations
    ensures Books(s, i, Book(s, i, a).0, Book(s, i, a).1)
  {
    if a.parsed.Ok? {
      var found := LM.Resolve(s.integrations[i].mappings, a.parsed.value.externalLocation);
      if found.Some? && Agrees(s.db) {
        RecordSaleKeepsCounters(s.db, s.merchant, s.integrations[i].owner, i, Location(found.value, a.locationOwner), a.parsed.value, a.fault);
      }
    }
  }

  lemma FailureKeeps(e: Event, f: Failure, now: Time, delay: nat)
    requires AttemptsMatch(e) && Spaced(e.tries) && !Skips(e, now)
    requires e.tries != [] ==> e.tries[|e.tries| - 1] <= e.updatedAt || !e.status.Failed?
    ensures var e' := AfterFailure(e, f, now, now + delay);
            AttemptsMatch(e') && Spaced(e'.tries) && e'.tries[|e'.tries| - 1] <= e'.updatedAt && !e'.status.Processed?
  {
    SpacedSnoc(e, now);
    hide IsDue, Spaced;
  }

  lemma SuccessKeeps(e: Event, b: Booked, now: Time, delay: nat)
    requires AttemptsMatch(e) && Spaced(e.tries) && !Skips(e, now)
    requires e.tries != [] ==> e.tries[|e.tries| - 1] <= e.updatedAt || !e.status.Failed?
    ensures var e' := AfterSuccess(e, b, now, now + delay);
            AttemptsMatch(e') && Spaced(e'.tries)
  {
    SpacedSnoc(e, now);
    hide IsDue, Spaced;
  }

  /** The rows an attempt does not name keep what is known of them. */
  lemma OtherRowsKeep(s: State, s': State, key: EventKey, k: EventKey)
    requires Inv(s) && k in s.events && k != key && k in s'.events && s'.events[k] == s.events[k]
    requires forall t :: t in s.db.transactions ==> t in s'.db.transactions
    ensures EventInv(s', k)
  {
    hide Agrees, Spaced, AttemptsMatch, CreatorInv;
    assert EventInv(s, k);
  }

  /** An attempt's own row, as it is left. */
  lemma FinishKeepsRow(s: State, key: EventKey, db: Db, r: Result<Booked, Failure>, now: Time, delay: nat)
    requires key in s.events && EventInv(s, key) && !Skips(s.events[key], now) && Books(s, key.integration, db, r)
    ensures EventInv(Finish(s, key, db, r, now, now + delay), key)
  {
    if r.Err? {
      FailureKeeps(s.events[key], r.error, now, delay);
    } else {
      SuccessKeeps(s.events[key], r.value, now, delay);
      BookedNames(s.events[key], r.value, now, now + delay);
    }
    hide Agrees, Spaced, AttemptsMatch, AfterFailure, AfterSuccess, Skips;
  }

  /** The Transactions' own invariant, after an attempt. */
  lemma FinishKeepsCreator(s: State, key: EventKey, db: Db, r: Result<Booked, Failure>, now: Time, saved: Time, k: Key)
    requires key in s.events && !s.events[key].status.Processed? && Books(s, key.integration, db, r) && k in db.transactions
    requires k in s.db.transactions ==> CreatorInv(s, k)
    ensures CreatorInv(Finish(s, key, db, r, now, saved), k)
  {
    hide Agrees, EventInv;
  }

  lemma ProcessKeeps(s: State, key: EventKey, a: Attempt, now: Time, delay: nat)
    requires Inv(s)
    ensures Inv(Process(s, key, a, now, delay))
  {
    hide Inv, Finish, Book, IsDue;
    if key in s.events && key.integration in s.integrations && !Skips(s.events[key], now) {
      if s.integrations[key.integration].status.Disconnected? {
        CancelKeeps(s, key, now, now + delay);
      } else {
        var (db, r) := Book(s, key.integration, a);
        BookEffect(s, key.integration, a);
        FinishKeeps(s, key, db, r, now, delay);
      }
    }
  }

  lemma FinishKeeps(s: State, key: EventKey, db: Db, r: Result<Booked, Failure>, now: Time, delay: nat)
    requires Inv(s) && key in s.events && !s.events[key].status.Processed? && !Skips(s.events[key], now)
    requires Books(s, key.integration, db, r)
    ensures Inv(Finish(s, key, db, r, now, now + delay))
  {
    hide Agrees, EventInv, CreatorInv, Skips, AfterFailure, AfterSuccess;
    var s' := Finish(s, key, db, r, now, now + delay);
    forall k | k in s'.events ensures EventInv(s', k) {
      if k != key { OtherRowsKeep(s, s', key, k); } else { FinishKeepsRow(s, key, db, r, now, delay); }
    }
    forall k | k in s'.db.transactions ensures CreatorInv(s', k) {
      FinishKeepsCreator(s, key, db, r, now, now + delay, k);
    }
  }

  lemma CancelKeeps(s: State, key: EventKey, now: Time, at: Time)
    requires Inv(s) && key in s.events && !Skips(s.events[key], now)
    ensures Inv(s.(events := s.events[key := s.events[key].(status := Cancelled, updatedAt := at)]))
  {
    hide Agrees, Spaced, IsDue;
    var s' := s.(events := s.events[key := s.events[key].(status := Cancelled, updatedAt := at)]);
    forall k | k in s'.events ensures EventInv(s', k) { assert EventInv(s, k); }
    forall k | k in s'.db.transactions ensures CreatorInv(s', k) { assert CreatorInv(s, k); }
  }

  lemma BookedNames(e: Event, b: Booked, now: Time, saved: Time)
    ensures var e' := AfterSuccess(e, b, now, saved);
            e'.status.Processed? && e'.location == Some(b.location) && e'.sale == Some(b.key)
  {
  }

  lemma RecordKeeps(s: State, key: EventKey, seen: IntegrationStatus, now: Time)
    requires Inv(s)
    ensures Inv(Receive(s, key, seen, now).0)
  {
    hide Agrees;
    var s' := Receive(s, key, seen, now).0;
    forall k | k in s'.db.transactions ensures CreatorInv(s', k) { assert CreatorInv(s, k); }
    forall k | k in s'.events ensures EventInv(s', k) {
      if k in s.events { assert EventInv(s, k); }
    }
  }

  lemma DisconnectKeeps(s: State, i: IntegrationId, now: Time)
    requires Inv(s)
    ensures Inv(Disconnect(s, i, now))
  {
    hide Agrees, Spaced;
    var s' := Disconnect(s, i, now);
    forall k | k in s'.db.transactions ensures CreatorInv(s', k) { assert CreatorInv(s, k); }
    forall k | k in s'.events ensures EventInv(s', k) { assert EventInv(s, k); }
  }

  /** Every step keeps the invariant. */
  lemma NextKeeps(s: State, step: Step)
    requires Inv(s)
    ensures Inv(Next(s, step))
  {
    hide Process, Receive, Disconnect, Agrees, EventInv, CreatorInv;
    match step
    case Attempting(key, a, now, delay) => ProcessKeeps(s, key, a, now, delay);
    case Deliver(key, seen, now) => RecordKeeps(s, key, seen, now);
    case ApiSale(key, a, now, delay) =>
      RecordKeeps(s, key, Connected, now);
      ProcessKeeps(Receive(s, key, Connected, now).0, key, a, now, delay);
    case Disconnecting(i, now) => DisconnectKeeps(s, i, now);
    case _ => QuietKeeps(s, step);
  }

  lemma QuietKeeps(s: State, step: Step)
    requires Inv(s) && (step.Connect? || step.Remap? || step.Stopping?)
    ensures Inv(Next(s, step))
  {
    hide Agrees, Spaced;
    var s' := Next(s, step);
    if step.Stopping? { OptOutKeepsCounters(s.db, step.phone, step.now); }
    forall k | k in s'.db.transactions ensures CreatorInv(s', k) { assert CreatorInv(s, k); }
    forall k | k in s'.events ensures EventInv(s', k) { assert EventInv(s, k); }
  }

  lemma {:induction false} RunKeeps(s: State, steps: seq<Step>)
    requires Inv(s)
    ensures Inv(Run(s, steps))
    decreases |steps|
  {
    hide Inv, Next;
    if steps != [] {
      NextKeeps(s, steps[0]);
      RunKeeps(Next(s, steps[0]), steps[1..]);
    }
  }

  lemma InitialInv(s: State)
    requires Initial(s)
    ensures Inv(s)
  {
  }

  // --- the promises ---

  /** In every run: RECEIVED has no attempt, FAILED one to four, DEAD_LETTER exactly
      five; stored error codes come from the fixed table; and an event is never
      attempted more than five times. */
  lemma AttemptsFollowStatus(s: State, steps: seq<Step>, key: EventKey)
    requires Initial(s) && key in Run(s, steps).events
    ensures AttemptsMatch(Run(s, steps).events[key])
    ensures |Run(s, steps).events[key].tries| <= 5
  {
    hide Next;
    InitialInv(s);
    RunKeeps(s, steps);
    assert EventInv(Run(s, steps), key);
  }

  /** In every run attempt k + 1 of an event begins at least 5 * (2^k - 1) minutes after attempt 1. */
  lemma RetriesAreSpaced(s: State, steps: seq<Step>, key: EventKey, k: nat)
    requires Initial(s) && key in Run(s, steps).events && k < |Run(s, steps).events[key].tries|
    ensures var tries := Run(s, steps).events[key].tries;
            tries[k] - tries[0] >= 5 * 60 * (Pow2(k) - 1)
  {
    hide Next;
    InitialInv(s);
    RunKeeps(s, steps);
    assert EventInv(Run(s, steps), key);
  }

  /** In every run: a PROCESSED event's Transaction exists at its location; every
      Transaction was inserted for exactly one PROCESSED event, of its own
      integration; and the customers' counters agree with the table. */
  lemma SalesAreExactlyOnce(s: State, steps: seq<Step>)
    requires Initial(s)
    ensures var now := Run(s, steps);
            && (forall key :: key in now.events && now.events[key].status.Processed? ==> SaleExists(now, now.events[key]))
            && (forall k :: k in now.db.transactions ==> CreatorInv(now, k))
            && (forall j, k :: j in now.db.transactions && k in now.db.transactions && now.creators[j] == now.creators[k] ==> j == k)
            && Agrees(now.db)
  {
    hide Next, Agrees;
    InitialInv(s);
    RunKeeps(s, steps);
    var now := Run(s, steps);
    forall key | key in now.events && now.events[key].status.Processed? ensures SaleExists(now, now.events[key]) {
      assert EventInv(now, key);
    }
    forall j, k | j in now.db.transactions && k in now.db.transactions && now.creators[j] == now.creators[k] ensures j == k {
      assert CreatorInv(now, j) && CreatorInv(now, k);
    }
  }

  /** PROCESSED, DEAD_LETTER and CANCELLED rows never change again. */
  lemma {:induction false} TerminalIsAbsorbing(s: State, steps: seq<Step>, key: EventKey)
    requires key in s.events && Terminal(s.events[key].status)
    ensures key in Run(s, steps).events && Run(s, steps).events[key] == s.events[key]
    decreases |steps|
  {
    if steps != [] {
      TerminalStays(s, steps[0], key);
      TerminalIsAbsorbing(Next(s, steps[0]), steps[1..], key);
    }
  }

  lemma TerminalStays(s: State, step: Step, key: EventKey)
    requires key in s.events && Terminal(s.events[key].status)
    ensures key in Next(s, step).events && Next(s, step).events[key] == s.events[key]
  {
    hide Book, AfterFailure, AfterSuccess, IsDue;
  }

  /** A failed, skipped or cancelled attempt leaves sales, customers and counters as they were. */
  lemma FailedAttemptLeavesSales(s: State, key: EventKey, a: Attempt, now: Time, delay: nat)
    ensures var s' := Process(s, key, a, now, delay);
            s'.db == s.db || (key in s.events && !Terminal(s.events[key].status) && key in s'.events && s'.events[key].status.Processed?)
  {
    if key in s.events && key.integration in s.integrations {
      hide Book, IsDue, Agrees;
      BookEffect(s, key.integration, a);
    }
  }

  /** An event becomes PROCESSED only when its own sale is in the table, at the
      location the mappings resolve it to: the row already there under that
      location and transaction id, or else exactly this sale; nothing else is sold. */
  lemma ProcessedMeansRecorded(s: State, key: EventKey, a: Attempt, now: Time, delay: nat)
    requires key in s.events && !Terminal(s.events[key].status)
    requires Process(s, key, a, now, delay).events[key].status.Processed?
    ensures key.integration in s.integrations && !s.integrations[key.integration].status.Disconnected? && a.parsed.Ok?
    ensures var s' := Process(s, key, a, now, delay);
            var sale := a.parsed.value;
            var place := LM.Resolve(s.integrations[key.integration].mappings, sale.externalLocation);
            && place.Some? && s'.events[key].location == place
            && s'.events[key].sale == Some(Key(place.value, sale.externalId))
            && s'.db.transactions == map[Key(place.value, sale.externalId) :=
                   Transaction(if sale.phone.Some? && sale.phone.value != "" then sale.phone else None, key.integration,
                               sale.amount, sale.currency, sale.payment, sale.occurredAt)] + s.db.transactions
            && s'.events[key].error.None? && s'.events[key].processedAt == Some(now + delay)
  {
    hide IsDue, LM.Resolve;
  }

  /** A delivery that was recorded before - in whatever state it is now - changes nothing. */
  lemma DuplicateDeliveryIsNoOp(s: State, steps: seq<Step>, key: EventKey, seen: IntegrationStatus, now: Time)
    requires key in s.events
    ensures Receive(Run(s, steps), key, seen, now).0 == Run(s, steps)
  {
    EventsStay(s, steps, key);
  }

  lemma {:induction false} EventsStay(s: State, steps: seq<Step>, key: EventKey)
    requires key in s.events
    ensures key in Run(s, steps).events
    decreases |steps|
  {
    if steps != [] {
      assert key in Next(s, steps[0]).events by { hide Book, AfterFailure, AfterSuccess, IsDue; }
      EventsStay(Next(s, steps[0]), steps[1..], key);
    }
  }

  function SalesFrom(s: State, i: IntegrationId): set<Key> {
    set k | k in s.db.transactions && s.db.transactions[k].integration == i
  }

  lemma AttemptAddsNoSale(s: State, key: EventKey, a: Attempt, now: Time, delay: nat, i: IntegrationId)
    requires i in s.integrations && s.integrations[i].status.Disconnected?
    ensures SalesFrom(Process(s, key, a, now, delay), i) == SalesFrom(s, i)
  {
    if key in s.events && key.integration in s.integrations {
      hide Book, IsDue, AfterFailure, AfterSuccess, Agrees;
      BookEffect(s, key.integration, a);
    }
  }

  lemma DisconnectedStep(s: State, step: Step, i: IntegrationId)
    requires i in s.integrations && s.integrations[i].status.Disconnected?
    ensures var s' := Next(s, step);
            i in s'.integrations && s'.integrations[i].status.Disconnected? && SalesFrom(s', i) == SalesFrom(s, i)
  {
    hide Book, IsDue, AfterFailure, AfterSuccess;
    var s' := Next(s, step);
    if step.Attempting? {
      AttemptAddsNoSale(s, step.key, step.a, step.now, step.delay, i);
    } else if step.ApiSale? {
      AttemptAddsNoSale(Receive(s, step.key, Connected, step.now).0, step.key, step.a, step.now, step.delay, i);
      assert SalesFrom(Receive(s, step.key, Connected, step.now).0, i) == SalesFrom(s, i);
    } else {
      assert s'.db.transactions == s.db.transactions;
    }
  }

  /** Once an integration is DISCONNECTED no delivery, retry or sweep adds a sale to it. */
  lemma {:induction false} NoSaleAfterDisconnect(s: State, steps: seq<Step>, i: IntegrationId)
    requires i in s.integrations && s.integrations[i].status.Disconnected?
    ensures SalesFrom(Run(s, steps), i) == SalesFrom(s, i)
    decreases |steps|
  {
    hide Next, SalesFrom;
    if steps != [] {
      DisconnectedStep(s, steps[0], i);
      NoSaleAfterDisconnect(Next(s, steps[0]), steps[1..], i);
    }
  }

  /** The backoff and the staleness, in seconds: a FAILED event waits 5 minutes times 2
      per attempt after the first; a RECEIVED one is swept after ten minutes. */
  lemma DueExactly(e: Event, now: Time)
    ensures Due(e, now) <==>
              || (e.status == Received && now - e.receivedAt > 10 * 60)
              || (e.status == Failed && now - e.updatedAt >= 5 * 60 * Pow2(if e.attempts > 1 then e.attempts - 1 else 0))
  {
  }

  /** Which code is stored for which failure. */
  lemma SafeErrorMeans(f: Failure)
    ensures SafeError(f) == (match f
      case AdapterMissing => "ADAPTER_NOT_FOUND"
      case Unresolved => "LOCATION_UNRESOLVED"
      case Other => "PROCESSING_ERROR"
      case BadPayload(code) =>
        if code == "PAYLOAD_INVALID" || code == "INVALID_PHONE" || code == "INVALID_CURRENCY" || code == "INVALID_AMOUNT"
           || code == "INVALID_OCCURRED_AT" || code == "INVALID_EXTERNAL_TRANSACTION_ID"
           || code == "ADAPTER_NOT_FOUND" || code == "LOCATION_UNRESOLVED" || code == "PROCESSING_ERROR"
        then code else "PAYLOAD_INVALID")
  {
  }

  /** Why an attempt that is made fails, in the order the code finds out. */
  function WhyNot(s: State, i: IntegrationId, a: Attempt): Option<Failure>
    requires i in s.integrations
  {
    if a.parsed.Err? then Some(a.parsed.error)
    else
      var found := LM.Resolve(s.integrations[i].mappings, a.parsed.value.externalLocation);
      if found.None? then Some(Unresolved)
      else
        var refused := WhyRefused(s.db, s.merchant, s.integrations[i].owner, Location(found.value, a.locationOwner), a.parsed.value, a.fault);
        if refused.None? then None
        else if refused.value == InvalidPhone then Some(BadPayload("INVALID_PHONE"))
        else Some(Other)
  }

  /** An attempt fails exactly for one of those reasons, stores that reason's code and
      counts itself; the fifth failure is the last. */
  lemma AttemptFailsExactly(s: State, key: EventKey, a: Attempt, now: Time, delay: nat)
    requires key in s.events && key.integration in s.integrations && !Skips(s.events[key], now)
    requires !s.integrations[key.integration].status.Disconnected?
    ensures var why := WhyNot(s, key.integration, a);
            var e, e' := s.events[key], Process(s, key, a, now, delay).events[key];
            if why.None? then e'.status == Processed && e'.attempts == e.attempts
            else
              && e'.error == Some(SafeError(why.value)) && e'.attempts == e.attempts + 1
              && e'.status == (if e.attempts + 1 >= 5 then DeadLetter else Failed)
              && e'.updatedAt == now + delay && e'.location == e.location && e'.processedAt == e.processedAt
  {
    hide IsDue, LM.Resolve, SafeError;
    if a.parsed.Ok? {
      var found := LM.Resolve(s.integrations[key.integration].mappings, a.parsed.value.externalLocation);
      if found.Some? {
        SaleIsStoredAsItIs(s.db, s.merchant, s.integrations[key.integration].owner, key.integration,
                           Location(found.value, a.locationOwner), a.parsed.value, a.fault);
      }
    }
    hide RecordSale, WhyRefused;
  }

  /** A new delivery starts as RECEIVED, now, with nothing attempted; whoever delivers
      it must be the integration's own merchant and have seen it not disconnected. */
  lemma DeliveryMeans(s: State, key: EventKey, seen: IntegrationStatus, now: Time)
    ensures var (s', r) := Receive(s, key, seen, now);
            var mine := key.integration in s.integrations && s.integrations[key.integration].owner == s.merchant;
            && (r == Ok(true) <==> mine && seen != Disconnected && key !in s.events)
            && (r == Ok(false) <==> mine && seen != Disconnected && key in s.events)
            && (r == Err(IntegrationDisconnected) <==> mine && seen == Disconnected)
            && s' == if r == Ok(true)
                     then s.(events := s.events[key := Event(Received, now, now, None, 0, None, None, [], None)]) else s
  {
  }

  /** A disconnect cancels exactly its own pending events, and touches no other. */
  lemma DisconnectCancelsExactly(s: State, i: IntegrationId, now: Time, key: EventKey)
    requires key in s.events
    ensures var s' := Disconnect(s, i, now);
            var e := s.events[key];
            && key in s'.events && s'.db == s.db
            && (if i in s.integrations && s.integrations[i].status != Disconnected && key.integration == i
                   && (e.status == Received || e.status == Failed)
                then s'.events[key] == e.(status := Cancelled, updatedAt := now)
                else s'.events[key] == e)
            && (i in s.integrations ==>
                  && i in s'.integrations && s'.integrations[i].status == Disconnected
                  && s'.integrations[i].owner == s.integrations[i].owner)
            && (forall j :: j in s.integrations && j != i ==> j in s'.integrations && s'.integrations[j] == s.integrations[j])
  {
  }

  /** A FAILED row the sweep returns is really attempted by the retry it enqueues,
      however late that runs, unless something else finished or retried the event
      first; and a row not yet due is not. */
  lemma SweepAndAttemptAgree(e: Event, swept: Time, now: Time)
    requires swept <= now
    ensures Due(e, swept) ==> !Skips(e, now)
    ensures e.status.Failed? && !Due(e, swept) ==> Skips(e, swept)
  {
  }

  /** An attempt that is not skipped ends in a terminal status or uses one of the
      five attempts, so retries always come to an end. */
  lemma AttemptsMakeProgress(s: State, key: EventKey, a: Attempt, now: Time, delay: nat)
    requires key in s.events && key.integration in s.integrations && !Skips(s.events[key], now)
    ensures var e' := Process(s, key, a, now, delay).events[key];
            || Terminal(e'.status)
            || (e'.status.Failed? && e'.attempts == s.events[key].attempts + 1 < MAX_EVENT_ATTEMPTS)
  {
    hide Book, IsDue;
  }
}
