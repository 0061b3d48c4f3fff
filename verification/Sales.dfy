/** One merchant's sales: the Transaction table, its customers and the counters
    cached on each customer. The unique keys are the keys of the two maps. */
module Sales {
  import opened Common

  type Time = int
  type Phone = string
  type MerchantId = nat
  type LocationId = nat
  type IntegrationId = nat

  datatype Customer = Customer(
    name: Option<string>, firstSeen: Option<Time>, lastSeen: Option<Time>, total: nat,
    optedOut: bool, optedOutAt: Option<Time>)

  /** A normalized sale; `amount` is in hundredths. */
  datatype Sale = Sale(
    externalId: string, amount: nat, currency: string, occurredAt: Time,
    phone: Option<Phone>, name: Option<string>, payment: Option<string>, externalLocation: Option<string>)

  datatype Location = Location(id: LocationId, merchant: MerchantId)

  datatype Key = Key(location: LocationId, externalId: string)

  datatype Transaction = Transaction(
    customer: Option<Phone>, integration: IntegrationId, amount: nat, currency: string,
    payment: Option<string>, occurredAt: Time)

  datatype Db = Db(customers: map<Phone, Customer>, transactions: map<Key, Transaction>)

  datatype SaleError = InvalidPhone | WrongTenant | DatabaseError

  /** What else may raise while a sale is recorded, and at which statement. */
  datatype Fault = NoFault | PhoneRefused | CustomerFails | InsertFails | CountersFail

  predicate HasPhone(sale: Sale) { sale.phone.Some? && sale.phone.value != "" }

  function KeyOf(sale: Sale, location: Location): Key { Key(location.id, sale.externalId) }

  function RowOf(sale: Sale, integration: IntegrationId): Transaction {
    Transaction(if HasPhone(sale) then sale.phone else None, integration, sale.amount, sale.currency, sale.payment, sale.occurredAt)
  }

  function Least(seen: Option<Time>, at: Time): Option<Time> {
    if seen.Some? && seen.value <= at then seen else Some(at)
  }

  function Greatest(seen: Option<Time>, at: Time): Option<Time> {
    if seen.Some? && at <= seen.value then seen else Some(at)
  }

  function WithCustomer(customers: map<Phone, Customer>, phone: Phone, name: Option<string>): map<Phone, Customer> {
    if phone in customers then customers else customers[phone := Customer(name, None, None, 0, false, None)]
  }

  function Counted(c: Customer, at: Time): Customer {
    c.(total := c.total + 1, firstSeen := Least(c.firstSeen, at), lastSeen := Greatest(c.lastSeen, at))
  }

  /** The sale as one transaction: everything it writes, or an error and nothing. */
  function RecordSale(db: Db, merchant: MerchantId, owner: MerchantId, integration: IntegrationId,
                      location: Location, sale: Sale, fault: Fault): (Db, Result<bool, SaleError>) {
    var key := KeyOf(sale, location);
    var created := key !in db.transactions;
    var customers := if HasPhone(sale) then WithCustomer(db.customers, sale.phone.value, sale.name) else db.customers;
    if HasPhone(sale) && fault.PhoneRefused? then (db, Err(InvalidPhone))
    else if HasPhone(sale) && fault.CustomerFails? then (db, Err(DatabaseError))
    else if location.merchant != merchant || owner != merchant then (db, Err(WrongTenant))
    else if fault.InsertFails? || (fault.CountersFail? && created && HasPhone(sale)) then (db, Err(DatabaseError))
    else if !created then (Db(customers, db.transactions), Ok(false))
    else
      (Db(if HasPhone(sale) then customers[sale.phone.value := Counted(customers[sale.phone.value], sale.occurredAt)] else customers,
          db.transactions[key := RowOf(sale, integration)]), Ok(true))
  }

  /** UPDATE ... WHERE opted_out = false. */
  function OptOut(customers: map<Phone, Customer>, phone: Phone, now: Time): map<Phone, Customer> {
    if phone in customers && !customers[phone].optedOut
    then customers[phone := customers[phone].(optedOut := true, optedOutAt := Some(now))]
    else customers
  }

  datatype OptOutError = UnknownSource | NotExactlyOne

  const OPT_OUT_SOURCES := {"INBOUND_KEYWORD", "MANUAL"}

  /** The two tables, updated in place inside one merchant's tenant context. */
  class Ledger {
    const merchant: MerchantId
    var customers: map<Phone, Customer>
    var transactions: map<Key, Transaction>

    constructor (m: MerchantId, db: Db)
      ensures merchant == m && Contents() == db
    {
      merchant, customers, transactions := m, db.customers, db.transactions;
    }

    function Contents(): Db reads this { Db(customers, transactions) }

    /** Insert, or read again when UNIQUE(merchant, phone) refuses the insert. */
    method GetOrCreateCustomer(phone: Phone, name: Option<string>, fault: Fault) returns (r: Result<bool, SaleError>)
      modifies this`customers
      ensures r.Err? <==> fault.PhoneRefused? || fault.CustomerFails?
      ensures r.Err? ==> r.error == (if fault.PhoneRefused? then InvalidPhone else DatabaseError) && customers == old(customers)
      ensures r.Ok? ==> customers == WithCustomer(old(customers), phone, name) && r.value == (phone !in old(customers))
    {
      if fault.PhoneRefused? { return Err(InvalidPhone); }
      if fault.CustomerFails? { return Err(DatabaseError); }
      if phone in customers { return Ok(false); }
      customers := customers[phone := Customer(name, None, None, 0, false, None)];
      return Ok(true);
    }

    /** record_sale up to its first exception; the caller's block rolls back. */
    method WriteSale(owner: MerchantId, integration: IntegrationId, location: Location, sale: Sale, fault: Fault)
      returns (r: Result<bool, SaleError>)
      modifies this
      ensures r == RecordSale(old(Contents()), merchant, owner, integration, location, sale, fault).1
      ensures r.Ok? ==> Contents() == RecordSale(old(Contents()), merchant, owner, integration, location, sale, fault).0
    {
      if HasPhone(sale) {
        var customer := GetOrCreateCustomer(sale.phone.value, sale.name, fault);
        if customer.Err? { return Err(customer.error); }
      }
      if location.merchant != merchant || owner != merchant { return Err(WrongTenant); }
      if fault.InsertFails? { return Err(DatabaseError); }
      var created := KeyOf(sale, location) !in transactions;
      if created { transactions := transactions[KeyOf(sale, location) := RowOf(sale, integration)]; }
      if created && HasPhone(sale) {
        if fault.CountersFail? { return Err(DatabaseError); }
        var row := customers[sale.phone.value];
        customers := customers[sale.phone.value := row.(total := row.total + 1,
                                                        firstSeen := Least(row.firstSeen, sale.occurredAt),
                                                        lastSeen := Greatest(row.lastSeen, sale.occurredAt))];
      }
      return Ok(created);
    }

    /** Either the customer, the Transaction and the counters all commit, or nothing does. */
    method RecordSaleAtomically(owner: MerchantId, integration: IntegrationId, location: Location, sale: Sale, fault: Fault)
      returns (r: Result<bool, SaleError>)
      modifies this
      ensures (Contents(), r) == RecordSale(old(Contents()), merchant, owner, integration, location, sale, fault)
    {
      var savepoint := Contents();
      r := WriteSale(owner, integration, location, sale, fault);
      if r.Err? { customers, transactions := savepoint.customers, savepoint.transactions; }
    }

    /** Exactly one of `phone` and `customer` names the row; the answer is that row. */
    method OptOutCustomer(phone: Option<Phone>, customer: Option<Phone>, source: string, now: Time)
      returns (r: Result<Option<Customer>, OptOutError>)
      modifies this`customers
      ensures r.Err? <==> source !in OPT_OUT_SOURCES || phone.Some? == customer.Some?
      ensures r.Err? ==> customers == old(customers)
      ensures r.Ok? ==>
        var who := if phone.Some? then phone.value else customer.value;
        && customers == OptOut(old(customers), who, now)
        && r.value == if who in customers then Some(customers[who]) else None
    {
      if source !in OPT_OUT_SOURCES { return Err(UnknownSource); }
      if phone.Some? == customer.Some? { return Err(NotExactlyOne); }
      var who := if customer.Some? then customer.value else phone.value;
      if who !in customers { return Ok(None); }
      if !customers[who].optedOut {
        customers := customers[who := customers[who].(optedOut := true, optedOutAt := Some(now))];
      }
      return Ok(Some(customers[who]));
    }
  }

  // --- what is stored ---

  predicate GivesPhone(sale: Sale) { sale.phone.Some? && sale.phone.value != "" }

  /** Why recording a sale fails, in the order the code finds out. */
  function WhyRefused(db: Db, merchant: MerchantId, owner: MerchantId, location: Location, sale: Sale, fault: Fault): Option<SaleError> {
    if GivesPhone(sale) && fault == PhoneRefused then Some(InvalidPhone)
    else if GivesPhone(sale) && fault == CustomerFails then Some(DatabaseError)
    else if location.merchant != merchant || owner != merchant then Some(WrongTenant)
    else if fault == InsertFails then Some(DatabaseError)
    else if fault == CountersFail && GivesPhone(sale) && Key(location.id, sale.externalId) !in db.transactions then Some(DatabaseError)
    else None
  }

  /** A sale is stored as it is: its own amount, currency, payment method, time and
      customer, under its integration, at Key(location, external id) - unless that key
      is taken. No other Transaction changes, and a refused sale changes nothing. */
  lemma SaleIsStoredAsItIs(db: Db, merchant: MerchantId, owner: MerchantId, integration: IntegrationId,
                           location: Location, sale: Sale, fault: Fault)
    ensures var (after, r) := RecordSale(db, merchant, owner, integration, location, sale, fault);
            var key := Key(location.id, sale.externalId);
            && (WhyRefused(db, merchant, owner, location, sale, fault).Some? ==>
                  after == db && r == Err(WhyRefused(db, merchant, owner, location, sale, fault).value))
            && (WhyRefused(db, merchant, owner, location, sale, fault).None? ==>
                  && r == Ok(key !in db.transactions)
                  && (key in db.transactions ==> after.transactions == db.transactions)
                  && (key !in db.transactions ==>
                        after.transactions == db.transactions[key :=
                          Transaction(if GivesPhone(sale) then sale.phone else None, integration, sale.amount, sale.currency,
                                      sale.payment, sale.occurredAt)]))
  {
  }

  /** A customer comes into being with the sale's phone and name, nothing seen and not
      opted out; the sale then moves that customer's counters and nothing else. */
  lemma CustomerIsStoredAsItIs(db: Db, merchant: MerchantId, owner: MerchantId, integration: IntegrationId,
                               location: Location, sale: Sale, fault: Fault)
    requires WhyRefused(db, merchant, owner, location, sale, fault).None?
    ensures var after := RecordSale(db, merchant, owner, integration, location, sale, fault).0;
            var key := Key(location.id, sale.externalId);
            && (!GivesPhone(sale) ==> after.customers == db.customers)
            && (GivesPhone(sale) ==>
                  var was := if sale.phone.value in db.customers then db.customers[sale.phone.value]
                             else Customer(sale.name, None, None, 0, false, None);
                  var at := sale.occurredAt;
                  after.customers == db.customers[sale.phone.value :=
                    if key in db.transactions then was
                    else was.(total := was.total + 1,
                              firstSeen := Some(if was.firstSeen.Some? && was.firstSeen.value < at then was.firstSeen.value else at),
                              lastSeen := Some(if was.lastSeen.Some? && was.lastSeen.value > at then was.lastSeen.value else at))])
  {
  }

  /** An opt-out flags the customer now, once; a customer nobody sold to does not come into being. */
  lemma OptOutMeans(customers: map<Phone, Customer>, phone: Phone, now: Time)
    ensures var after := OptOut(customers, phone, now);
            && after.Keys == customers.Keys
            && (forall p :: p in customers && p != phone ==> after[p] == customers[p])
            && (phone in customers ==>
                  after[phone] == if customers[phone].optedOut then customers[phone]
                                  else customers[phone].(optedOut := true, optedOutAt := Some(now)))
  {
  }

  // --- the counters and the table ---

  function SalesOf(db: Db, phone: Phone): set<Key> {
    set k | k in db.transactions && db.transactions[k].customer == Some(phone)
  }

  predicate IsEarliest(db: Db, keys: set<Key>, at: Option<Time>)
    requires keys <= db.transactions.Keys
  {
    if keys == {} then at.None?
    else
      && at.Some?
      && (exists k :: k in keys && db.transactions[k].occurredAt == at.value)
      && (forall k :: k in keys ==> at.value <= db.transactions[k].occurredAt)
  }

  predicate IsLatest(db: Db, keys: set<Key>, at: Option<Time>)
    requires keys <= db.transactions.Keys
  {
    if keys == {} then at.None?
    else
      && at.Some?
      && (exists k :: k in keys && db.transactions[k].occurredAt == at.value)
      && (forall k :: k in keys ==> db.transactions[k].occurredAt <= at.value)
  }

  /** The cached counters are what the table says. */
  predicate CountersRight(db: Db, phone: Phone)
    requires phone in db.customers
  {
    var c := db.customers[phone];
    var keys := SalesOf(db, phone);
    c.total == |keys| && IsEarliest(db, keys, c.firstSeen) && IsLatest(db, keys, c.lastSeen)
  }

  predicate Agrees(db: Db) {
    && (forall phone :: phone in db.customers ==> CountersRight(db, phone))
    && (forall k :: k in db.transactions && db.transactions[k].customer.Some? ==> db.transactions[k].customer.value in db.customers)
  }

  /** Adding a customer's sale moves the three counters together. */
  lemma OneMoreSale(db: Db, key: Key, row: Transaction, phone: Phone)
    requires Agrees(db) && phone in db.customers && key !in db.transactions && row.customer == Some(phone)
    ensures var after := Db(db.customers[phone := Counted(db.customers[phone], row.occurredAt)], db.transactions[key := row]);
            CountersRight(after, phone)
  {
    var c := db.customers[phone];
    var after := Db(db.customers[phone := Counted(c, row.occurredAt)], db.transactions[key := row]);
    var keys := SalesOf(db, phone);
    assert SalesOf(after, phone) == keys + {key};
    assert CountersRight(db, phone);
    if c.firstSeen.Some? {
      var first :| first in keys && db.transactions[first].occurredAt == c.firstSeen.value;
      assert first in SalesOf(after, phone) && key in SalesOf(after, phone);
      var last :| last in keys && db.transactions[last].occurredAt == c.lastSeen.value;
      assert last in SalesOf(after, phone);
    } else {
      assert key in SalesOf(after, phone);
    }
  }

  /** Another customer's sale, or a sale without a phone, leaves a customer's counters right. */
  lemma OtherSale(db: Db, after: Db, phone: Phone)
    requires Agrees(db) && phone in db.customers && phone in after.customers
    requires var c := db.customers[phone]; var d := after.customers[phone];
             c.total == d.total && c.firstSeen == d.firstSeen && c.lastSeen == d.lastSeen
    requires SalesOf(after, phone) == SalesOf(db, phone)
    requires forall k :: k in db.transactions ==> k in after.transactions && after.transactions[k] == db.transactions[k]
    ensures CountersRight(after, phone)
  {
    assert CountersRight(db, phone);
  }

  /** The sale that creates its customer. */
  lemma FirstSale(db: Db, after: Db, key: Key, phone: Phone, name: Option<string>, row: Transaction)
    requires Agrees(db) && phone !in db.customers && row.customer == Some(phone)
    requires var c := Customer(name, None, None, 0, false, None);
             if key in db.transactions then after == Db(db.customers[phone := c], db.transactions)
             else after == Db(db.customers[phone := Counted(c, row.occurredAt)], db.transactions[key := row])
    ensures CountersRight(after, phone)
  {
    assert SalesOf(db, phone) == {};
    if key in db.transactions {
      assert SalesOf(after, phone) == {};
    } else {
      assert SalesOf(after, phone) == {key};
      assert key in SalesOf(after, phone);
    }
  }

  lemma RecordSaleKeepsCounters(db: Db, merchant: MerchantId, owner: MerchantId, integration: IntegrationId,
                                location: Location, sale: Sale, fault: Fault)
    requires Agrees(db)
    ensures Agrees(RecordSale(db, merchant, owner, integration, location, sale, fault).0)
  {
    var after := RecordSale(db, merchant, owner, integration, location, sale, fault).0;
    var key := KeyOf(sale, location);
    hide CountersRight, Counted;
    forall phone | phone in after.customers ensures CountersRight(after, phone) {
      if phone !in db.customers {
        FirstSale(db, after, key, phone, sale.name, RowOf(sale, integration));
      } else if key in after.transactions && key !in db.transactions && after.transactions[key].customer == Some(phone) {
        OneMoreSale(db, key, RowOf(sale, integration), phone);
      } else {
        assert SalesOf(after, phone) == SalesOf(db, phone);
        OtherSale(db, after, phone);
      }
    }
  }

  lemma OptOutKeepsCounters(db: Db, phone: Phone, now: Time)
    requires Agrees(db)
    ensures Agrees(db.(customers := OptOut(db.customers, phone, now)))
  {
    var after := db.(customers := OptOut(db.customers, phone, now));
    forall p | p in after.customers ensures CountersRight(after, p) {
      assert SalesOf(after, p) == SalesOf(db, p);
      OtherSale(db, after, p);
    }
  }

  /** The counters say nothing but the table: two histories that end with the same
      Transactions end with the same counters, in whatever order the sales came. */
  lemma CountersFollowTheTable(a: Db, b: Db, phone: Phone)
    requires Agrees(a) && Agrees(b) && a.transactions == b.transactions
    requires phone in a.customers && phone in b.customers
    ensures a.customers[phone].total == b.customers[phone].total
    ensures a.customers[phone].firstSeen == b.customers[phone].firstSeen
    ensures a.customers[phone].lastSeen == b.customers[phone].lastSeen
  {
    assert SalesOf(a, phone) == SalesOf(b, phone);
    assert CountersRight(a, phone) && CountersRight(b, phone);
  }

  // --- runs ---

  /** Duplicates, phoneless sales and rolled-back attempts are all RecordSale operations. */
  datatype Operation =
    | Record(merchant: MerchantId, owner: MerchantId, integration: IntegrationId, location: Location, sale: Sale, fault: Fault)
    | Stop(phone: Phone, now: Time)

  function Apply(db: Db, o: Operation): Db {
    match o
    case Record(merchant, owner, integration, location, sale, fault) =>
      RecordSale(db, merchant, owner, integration, location, sale, fault).0
    case Stop(phone, now) => db.(customers := OptOut(db.customers, phone, now))
  }

  function Run(db: Db, ops: seq<Operation>): Db
    decreases |ops|
  {
    if ops == [] then db else Run(Apply(db, ops[0]), ops[1..])
  }

  /** After any sequence of sales and opt-outs every customer's counters are the
      count, minimum and maximum over the customer's Transactions. */
  lemma {:induction false} CountersAgree(db: Db, ops: seq<Operation>)
    requires Agrees(db)
    ensures Agrees(Run(db, ops))
    decreases |ops|
  {
    if ops != [] {
      match ops[0]
      case Record(merchant, owner, integration, location, sale, fault) =>
        RecordSaleKeepsCounters(db, merchant, owner, integration, location, sale, fault);
        CountersAgree(Apply(db, ops[0]), ops[1..]);
      case Stop(phone, now) =>
        OptOutKeepsCounters(db, phone, now);
        CountersAgree(Apply(db, ops[0]), ops[1..]);
    }
  }

  /** What later operations may never do to a row that is already there. */
  predicate Extends(db: Db, later: Db) {
    && (forall k :: k in db.transactions ==> k in later.transactions && later.transactions[k] == db.transactions[k])
    && (forall p :: p in db.customers ==>
          && p in later.customers
          && later.customers[p].name == db.customers[p].name
          && db.customers[p].total <= later.customers[p].total
          && (db.customers[p].optedOut ==> later.customers[p].optedOut && later.customers[p].optedOutAt == db.customers[p].optedOutAt))
  }

  /** A Transaction is never rewritten, a name is set only on create, a count never
      falls, and an opt-out and its first time survive every later sale and STOP. */
  lemma {:induction false} RowsAreNeverRewritten(db: Db, ops: seq<Operation>)
    ensures Extends(db, Run(db, ops))
    decreases |ops|
  {
    if ops != [] {
      assert Extends(db, Apply(db, ops[0]));
      RowsAreNeverRewritten(Apply(db, ops[0]), ops[1..]);
    }
  }

  /** Delivering a recorded sale again, after anything that happened between, adds
      no Transaction and moves no counter: it can only create an empty customer. */
  lemma DuplicateIsNoOp(db: Db, ops: seq<Operation>, o: Operation, duplicate: Operation)
    requires o.Record? && RecordSale(db, o.merchant, o.owner, o.integration, o.location, o.sale, o.fault).1.Ok?
    requires duplicate.Record? && KeyOf(duplicate.sale, duplicate.location) == KeyOf(o.sale, o.location)
    ensures var now := Run(Apply(db, o), ops);
            var after := Apply(now, duplicate);
            && after.transactions == now.transactions
            && (forall p :: p in now.customers ==> p in after.customers && after.customers[p] == now.customers[p])
            && (forall p :: p in after.customers && p !in now.customers ==>
                  after.customers[p].total == 0 && duplicate.sale.phone == Some(p))
  {
    RowsAreNeverRewritten(Apply(db, o), ops);
  }

  /** An opt-out and a sale commute - neither waits for, nor loses, the other - except
      when it is that very sale that creates the customer. */
  lemma OptOutCommutesWithSale(db: Db, o: Operation, phone: Phone, now: Time)
    requires o.Record?
    ensures Apply(Apply(db, o), Stop(phone, now)) == Apply(Apply(db, Stop(phone, now)), o)
       <==> phone in db.customers || phone !in Apply(db, o).customers
  {
    hide KeyOf, RowOf, Least, Greatest;
    var sold, stopped := Apply(db, o), Apply(db, Stop(phone, now));
    if phone in db.customers {
      assert sold.transactions == Apply(stopped, o).transactions;
      assert Apply(sold, Stop(phone, now)).customers == Apply(stopped, o).customers;
    } else if phone in sold.customers {
      assert !sold.customers[phone].optedOut;
      assert Apply(sold, Stop(phone, now)).customers[phone].optedOut;
      assert stopped == db;
    }
  }
}
