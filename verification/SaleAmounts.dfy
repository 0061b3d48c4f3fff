/** The normalized sale: what SaleCreated accepts, and that an accepted amount fits
    the DecimalField(12, 2) column exactly. Amounts are finite decimals. */
module SaleAmounts {
  import opened Common
  import S = Sales
  import EP = EventPipeline

  type Digit = d: int | 0 <= d <= 9

  /** Decimal.as_tuple() of a finite value. */
  datatype Decimal = Decimal(negative: bool, digits: seq<Digit>, exponent: int)

  const MAX_DIGITS := 12
  const DECIMAL_PLACES := 2

  /** Decimals hold no leading zero: the coefficient of zero is the one digit 0. */
  predicate Canonical(d: Decimal) {
    |d.digits| >= 1 && (|d.digits| > 1 ==> d.digits[0] != 0)
  }

  predicate FitsDecimal(d: Decimal, maxDigits: int, places: int) {
    var fraction := if d.exponent > 0 then 0 else -d.exponent;
    var whole :=
      if d.exponent > 0 then |d.digits| + d.exponent
      else if |d.digits| - fraction > 1 then |d.digits| - fraction else 1;
    fraction <= places && whole <= maxDigits - places
  }

  function Pow10(n: nat): (p: nat)
    ensures p >= 1
  {
    if n == 0 then 1 else 10 * Pow10(n - 1)
  }

  function Coefficient(digits: seq<Digit>): nat {
    if digits == [] then 0 else 10 * Coefficient(digits[..|digits| - 1]) + digits[|digits| - 1]
  }

  function Scale(exponent: int): real {
    if exponent >= 0 then Pow10(exponent) as real else 1.0 / Pow10(-exponent) as real
  }

  function Magnitude(d: Decimal): real { Coefficient(d.digits) as real * Scale(d.exponent) }

  function Value(d: Decimal): real { if d.negative then -Magnitude(d) else Magnitude(d) }

  lemma {:induction false} PowAdds(a: nat, b: nat)
    ensures Pow10(a + b) == Pow10(a) * Pow10(b)
  {
    if a > 0 { PowAdds(a - 1, b); }
  }

  lemma PowGrows(a: nat, b: nat)
    requires a <= b
    ensures Pow10(a) <= Pow10(b)
  {
    PowAdds(a, b - a);
  }

  lemma {:induction false} CoefficientBounds(digits: seq<Digit>)
    ensures Coefficient(digits) < Pow10(|digits|)
    ensures digits != [] && digits[0] != 0 ==> Pow10(|digits| - 1) <= Coefficient(digits)
    decreases |digits|
  {
    if digits != [] { CoefficientBounds(digits[..|digits| - 1]); }
  }

  lemma DivideBelow(c: nat, m: nat, p: nat)
    requires p > 0
    ensures c as real * (1.0 / p as real) < m as real <==> c < m * p
  {
    var x := c as real * (1.0 / p as real);
    assert (1.0 / p as real) * p as real == 1.0;
    assert x * p as real == c as real;
    assert (m * p) as real == m as real * p as real;
    if x < m as real { assert x * p as real < m as real * p as real; }
    if x >= m as real { assert x * p as real >= m as real * p as real; }
  }

  /** c * 10^e < 10^k, cleared of fractions. */
  predicate Below(c: nat, e: int, k: nat) {
    if e >= 0 then c * Pow10(e) < Pow10(k) else c < Pow10(k - e)
  }

  lemma TimesBelow(c: nat, m: nat, p: nat)
    ensures c as real * p as real < m as real <==> c * p < m
  {
    assert (c * p) as real == c as real * p as real;
  }

  lemma BelowMeans(c: nat, e: int, k: nat)
    ensures c as real * Scale(e) < Pow10(k) as real <==> Below(c, e, k)
  {
    hide Pow10;
    if e < 0 {
      PowAdds(k, -e);
      DivideBelow(c, Pow10(k), Pow10(-e));
    } else {
      TimesBelow(c, Pow10(k), Pow10(e));
    }
  }

  /** A coefficient of n digits scaled by 10^e is below 10^k exactly when n + e <= k. */
  lemma DigitsBound(n: nat, c: nat, e: int, k: nat)
    requires n >= 1 && Pow10(n - 1) <= c < Pow10(n)
    ensures n + e <= k <==> Below(c, e, k)
  {
    hide Pow10;
    if e >= 0 {
      DigitsBoundScaled(n, c, e, k);
    } else if n + e <= k {
      PowGrows(n, k - e);
    } else {
      PowGrows(k - e, n - 1);
    }
  }

  lemma DigitsBoundScaled(n: nat, c: nat, e: nat, k: nat)
    requires n >= 1 && Pow10(n - 1) <= c < Pow10(n)
    ensures n + e <= k <==> c * Pow10(e) < Pow10(k)
  {
    hide Pow10;
    if n + e <= k {
      PowAdds(n, e);
      PowGrows(n + e, k);
      Monotone(c + 1, Pow10(n), Pow10(e));
    } else {
      PowAdds(n - 1, e);
      PowGrows(k, n - 1 + e);
      Monotone(Pow10(n - 1), c, Pow10(e));
    }
  }

  /** The digit count is the size: the value is below 10^10 exactly when at most ten
      digits stand before the point. */
  lemma DigitsAreSize(d: Decimal)
    requires Canonical(d) && Coefficient(d.digits) > 0
    ensures |d.digits| + d.exponent <= 10 <==> Magnitude(d) < Pow10(10) as real
  {
    hide Pow10, Coefficient, Scale, Below;
    LeadingDigit(d);
    BelowMeans(Coefficient(d.digits), d.exponent, 10);
    DigitsBound(|d.digits|, Coefficient(d.digits), d.exponent, 10);
  }

  lemma LeadingDigit(d: Decimal)
    requires Canonical(d) && Coefficient(d.digits) > 0
    ensures Pow10(|d.digits| - 1) <= Coefficient(d.digits) < Pow10(|d.digits|)
  {
    if |d.digits| == 1 { assert d.digits[..0] == []; }
    CoefficientBounds(d.digits);
  }

  lemma Monotone(a: nat, b: nat, p: nat)
    requires a <= b
    ensures a * p <= b * p
  {
  }

  /** The digit test is the bound it stands for: at most two decimals and a value
      below 10^10. Zero is written with one digit, so its exponent decides alone:
      0E+10 and beyond are refused although zero would fit. */
  lemma FitsIsExact(d: Decimal)
    requires Canonical(d)
    ensures FitsDecimal(d, MAX_DIGITS, DECIMAL_PLACES) <==>
              && d.exponent >= -2
              && (if Coefficient(d.digits) > 0 then Magnitude(d) < Pow10(10) as real else d.exponent <= 9)
  {
    var n := |d.digits|;
    if Coefficient(d.digits) > 0 {
      DigitsAreSize(d);
    } else {
      CoefficientBounds(d.digits);
      assert n == 1;
    }
  }

  /** The value in hundredths, when it has no smaller part. */
  function Hundredths(d: Decimal): nat
    requires d.exponent >= -2
  {
    Coefficient(d.digits) * Pow10(d.exponent + 2)
  }

  lemma HundredthsAreTheValue(d: Decimal)
    requires d.exponent >= -2
    ensures Magnitude(d) == Hundredths(d) as real / 100.0
  {
    hide Coefficient;
    var c, e := Coefficient(d.digits), d.exponent;
    assert Pow10(1) == 10 && Pow10(2) == 100;
    if e >= 0 {
      PowAdds(e, 2);
      hide Pow10;
      HundredTimes(c, Pow10(e));
    } else if e == -1 {
      assert Scale(e) == 1.0 / 10.0;
    } else {
      assert Scale(e) == 1.0 / 100.0;
    }
  }

  lemma HundredTimes(c: nat, p: nat)
    ensures (c * (p * 100)) as real / 100.0 == c as real * p as real
  {
    assert c * (p * 100) == 100 * (c * p);
    assert (c * p) as real == c as real * p as real;
  }

  // --- construction ---

  /** The constructor's arguments; the regular expressions and str.strip are its callers' booleans. */
  datatype Raw = Raw(
    externalId: string, amount: Option<Decimal>, currency: string, currencyMatches: bool,
    occurredAt: Option<S.Time>, hasTimezone: bool,
    phone: Option<S.Phone>, phoneBlank: bool, phoneMatches: bool,
    name: Option<string>, payment: Option<string>, externalLocation: Option<string>)

  predicate TooLong(s: Option<string>, limit: nat) { s.Some? && |s.value| > limit }

  /** amount < 0 in Python: false of a negative zero. */
  predicate IsNegative(d: Decimal) { Value(d) < 0.0 }

  /** __post_init__, with the field it normalizes; Err is the PayloadValidationError's code. */
  function Construct(r: Raw): Result<S.Sale, string> {
    var phone := if r.phone.Some? && r.phoneBlank then None else r.phone;
    if r.externalId == "" || |r.externalId| > 255 then Err("INVALID_EXTERNAL_TRANSACTION_ID")
    else if phone.Some? && !r.phoneMatches then Err("INVALID_PHONE")
    else if TooLong(r.name, 255) then Err("PAYLOAD_INVALID")
    else if TooLong(r.payment, 32) then Err("PAYLOAD_INVALID")
    else if r.amount.None? || IsNegative(r.amount.value) then Err("INVALID_AMOUNT")
    else if !FitsDecimal(r.amount.value, MAX_DIGITS, DECIMAL_PLACES) then Err("PAYLOAD_INVALID")
    else if !r.currencyMatches then Err("INVALID_CURRENCY")
    else if r.occurredAt.None? || !r.hasTimezone then Err("INVALID_OCCURRED_AT")
    else Ok(S.Sale(r.externalId, Hundredths(r.amount.value), r.currency, r.occurredAt.value, phone, r.name, r.payment, r.externalLocation))
  }

  /** Every sale that constructs from a finite amount is n / 100 with 0 <= n < 10^12,
      so the column stores it unchanged, and its other fields fit theirs. */
  lemma AmountIsStoredExactly(r: Raw)
    requires r.amount.Some? ==> Canonical(r.amount.value)
    requires Construct(r).Ok?
    ensures var sale := Construct(r).value;
            && Value(r.amount.value) == sale.amount as real / 100.0
            && 0 <= sale.amount < Pow10(12)
            && 0 < |sale.externalId| <= 255 && !TooLong(sale.name, 255) && !TooLong(sale.payment, 32)
  {
    var d := r.amount.value;
    HundredthsAreTheValue(d);
    FitsIsExact(d);
    PowAdds(10, 2);
    assert Pow10(1) == 10 && Pow10(2) == 100;
    hide FitsDecimal, Scale, Coefficient, Pow10;
    if Coefficient(d.digits) > 0 {
      assert Pow10(12) == Pow10(10) * 100;
      assert Hundredths(d) as real / 100.0 < Pow10(10) as real;
    }
  }

  /** Exactly which arguments construct, the amount's test read as its bound. */
  lemma ConstructsExactly(r: Raw)
    requires r.amount.Some? ==> Canonical(r.amount.value)
    ensures Construct(r).Ok? <==>
              && 0 < |r.externalId| <= 255
              && (r.phone.Some? ==> r.phoneBlank || r.phoneMatches)
              && !TooLong(r.name, 255) && !TooLong(r.payment, 32)
              && r.amount.Some? && Value(r.amount.value) >= 0.0 && r.amount.value.exponent >= -2
              && (Value(r.amount.value) == 0.0 ==> r.amount.value.exponent <= 9)
              && Value(r.amount.value) < Pow10(10) as real
              && r.currencyMatches && r.occurredAt.Some? && r.hasTimezone
  {
    hide FitsDecimal, Coefficient, Hundredths, Magnitude, Canonical;
    if r.amount.Some? {
      var d := r.amount.value;
      FitsIsExact(d);
      MagnitudeSign(d);
    }
  }

  lemma MagnitudeSign(d: Decimal)
    ensures Magnitude(d) >= 0.0
    ensures Magnitude(d) == 0.0 <==> Coefficient(d.digits) == 0
  {
    assert Scale(d.exponent) > 0.0;
    PositiveProduct(Coefficient(d.digits), Scale(d.exponent));
  }

  lemma PositiveProduct(c: nat, s: real)
    requires s > 0.0
    ensures c as real * s >= 0.0
    ensures c as real * s == 0.0 <==> c == 0
  {
  }

  /** A zero the column could store, refused for its exponent: 0E+10. */
  lemma ZeroIsRefused(r: Raw)
    requires r.amount == Some(Decimal(false, [0], 10))
    ensures Canonical(r.amount.value) && Value(r.amount.value) == 0.0
    ensures !FitsDecimal(r.amount.value, MAX_DIGITS, DECIMAL_PLACES) && Construct(r).Err?
  {
    var d := r.amount.value;
    assert d.digits[..0] == [];
    assert Coefficient(d.digits) == 0;
    MagnitudeSign(d);
    hide Scale, Pow10;
  }

  /** A refused sale's code is one the event inbox stores as it is. */
  lemma RefusalsAreSafe(r: Raw)
    requires Construct(r).Err?
    ensures EP.SafeError(EP.BadPayload(Construct(r).error)) == Construct(r).error
  {
  }

  /** What the adapter hands to an attempt on this payload. */
  function Normalized(r: Raw): Result<S.Sale, EP.Failure> {
    match Construct(r)
    case Ok(sale) => Ok(sale)
    case Err(code) => Err(EP.BadPayload(code))
  }

  /** An attempt on a payload the constructor refuses stores the constructor's own
      code on the event, uses one of its five attempts and sells nothing. */
  lemma RefusedPayloadIsRecorded(s: EP.State, key: EP.EventKey, r: Raw, owner: S.MerchantId, fault: S.Fault, now: S.Time, delay: nat)
    requires Construct(r).Err?
    requires key in s.events && key.integration in s.integrations && !s.integrations[key.integration].status.Disconnected?
    requires !EP.Skips(s.events[key], now)
    ensures var s' := EP.Process(s, key, EP.Attempt(Normalized(r), owner, fault), now, delay);
            && s'.db == s.db
            && s'.events[key].error == Some(Construct(r).error)
            && s'.events[key].attempts == s.events[key].attempts + 1
            && (s'.events[key].status.DeadLetter? <==> s'.events[key].attempts >= EP.MAX_EVENT_ATTEMPTS)
            && (s'.events[key].status.Failed? || s'.events[key].status.DeadLetter?)
  {
    RefusalsAreSafe(r);
    hide Construct, EP.SafeError, EP.Skips;
  }

  /** What a payload becomes: every field its own, a blank phone none. */
  lemma ConstructedColumns(r: Raw)
    requires Construct(r).Ok?
    ensures var sale := Construct(r).value;
            && sale.externalId == r.externalId && sale.currency == r.currency && Some(sale.occurredAt) == r.occurredAt
            && sale.phone == (if r.phone.Some? && r.phoneBlank then None else r.phone)
            && sale.name == r.name && sale.payment == r.payment && sale.externalLocation == r.externalLocation
  {
  }

  /** From the payload to the column: the Transaction an attempt inserts holds exactly
      the amount the payload named. */
  lemma InsertedRowHoldsTheValue(s: EP.State, key: EP.EventKey, r: Raw, owner: S.MerchantId, fault: S.Fault, now: S.Time, delay: nat,
                                 k: S.Key)
    requires r.amount.Some? ==> Canonical(r.amount.value)
    requires key in s.events && !EP.Terminal(s.events[key].status)
    requires EP.Process(s, key, EP.Attempt(Normalized(r), owner, fault), now, delay).events[key].status.Processed?
    requires k !in s.db.transactions && k in EP.Process(s, key, EP.Attempt(Normalized(r), owner, fault), now, delay).db.transactions
    ensures r.amount.Some?
    ensures var row := EP.Process(s, key, EP.Attempt(Normalized(r), owner, fault), now, delay).db.transactions[k];
            row.amount as real / 100.0 == Value(r.amount.value) && row.currency == r.currency && Some(row.occurredAt) == r.occurredAt
  {
    EP.ProcessedMeansRecorded(s, key, EP.Attempt(Normalized(r), owner, fault), now, delay);
    AmountIsStoredExactly(r);
    ConstructedColumns(r);
    hide EP.Process, Construct, Value;
  }
}
