/** The deterministic validator (services/decision/src/validators.py): cents arithmetic,
    hard stops and the guarantee that malformed content is never less escalated. */
module Validators {
  import opened Wrappers
  import opened Collections
  import opened Money

  /** A field of the invoice: not there, a finite number, or anything else. */
  datatype Field = Absent | Number(value: real) | Unusable {
    function OrZero(): Field {
      if Absent? then Number(0.0) else this
    }
  }

  datatype LineItem = NotADict | Line(quantity: Field, unitPrice: Field)

  datatype LineItems = NotAList | Items(items: seq<LineItem>)

  /** `attendees` is None unless it is an int (a bool is not). */
  datatype Invoice = Invoice(
    currency: string, total: Field, taxAmount: Field, lineItems: LineItems,
    receiptPresent: bool, vendorKnown: bool, category: string, attendees: Option<int>)

  datatype Thresholds = Thresholds(
    ceilingCents: int, trustedCeilingCents: int, minConfidence: real,
    saasMonthlyCapCents: int, mealsPerAttendeeCents: int)

  /** When the decimal context lets a product or a conversion to cents through. */
  datatype Arithmetic = Arithmetic(multiplies: (real, real) -> bool, fits: Converts) {
    function Product(a: real, b: real): real {
      if multiplies(a, b) then a * b else 0.0
    }

    function Cents(dollars: real): int {
      ToCents(fits, dollars).GetOr(0)
    }
  }

  datatype Inputs = Inputs(invoice: Invoice, fxRates: map<string, Field>, thresholds: Thresholds, arith: Arithmetic)

  /** `malformed` stands for the notes about unusable fields. */
  datatype ValidationResult = ValidationResult(usdCents: int, hardStops: seq<string>, malformed: seq<string>)

  const FX_LIMIT_CENTS := 100000
  const RECEIPT_LIMIT_CENTS := 2500
  const TRAVEL_LIMIT_CENTS := 150000

  /** The documented order of the hard stops. */
  const RULES: seq<string> := [
    "GLOBAL-MALFORMED", "GLOBAL-FX", "GLOBAL-MATH", "GLOBAL-RECEIPT", "GLOBAL-VENDOR", "MEAL-01", "TRAVEL-02"]

  // ----- what the validator is to decide

  /** The 0 placeholder stands in for anything that is not a number. */
  function Value(f: Field): real {
    if f.Number? then f.value else 0.0
  }

  predicate Foreign(x: Inputs) {
    x.invoice.currency != "USD"
  }

  /** A foreign currency with a rate. */
  predicate Converted(x: Inputs) {
    Foreign(x) && x.invoice.currency in x.fxRates
  }

  function ConvertedDollars(x: Inputs): real
    requires Converted(x)
  {
    x.arith.Product(Value(x.invoice.total), Value(x.fxRates[x.invoice.currency]))
  }

  function UsdCents(x: Inputs): int {
    x.arith.Cents(if Converted(x) then ConvertedDollars(x) else Value(x.invoice.total))
  }

  predicate LineOk(item: LineItem, arith: Arithmetic) {
    && item.Line? && item.quantity.OrZero().Number? && item.unitPrice.OrZero().Number?
    && arith.multiplies(Value(item.quantity), Value(item.unitPrice))
    && arith.fits(arith.Product(Value(item.quantity), Value(item.unitPrice)))
  }

  predicate AllOk(items: seq<LineItem>, arith: Arithmetic) {
    forall item | item in items :: LineOk(item, arith)
  }

  function LineCents(item: LineItem, arith: Arithmetic): int {
    if item.Line? then arith.Cents(arith.Product(Value(item.quantity), Value(item.unitPrice))) else 0
  }

  function SumCents(items: seq<LineItem>, arith: Arithmetic): int {
    if items == [] then 0 else SumCents(items[..|items| - 1], arith) + LineCents(items[|items| - 1], arith)
  }

  function Lines(x: Inputs): seq<LineItem> {
    if x.invoice.lineItems.Items? then x.invoice.lineItems.items else []
  }

  /** The field cannot be used as an amount. */
  ghost predicate Bad(x: Inputs, field: string) {
    || (field == "total" &&
         (|| !x.invoice.total.Number? || !x.arith.fits(Value(x.invoice.total))
          || (Converted(x) && (!x.arith.multiplies(Value(x.invoice.total), Value(x.fxRates[x.invoice.currency]))
                               || !x.arith.fits(ConvertedDollars(x))))))
    || (field == "fxRate" && Converted(x) && !x.fxRates[x.invoice.currency].Number?)
    || (field == "lineItems" && (x.invoice.lineItems.NotAList? || !AllOk(Lines(x), x.arith)))
    || (field == "taxAmount" && (!x.invoice.taxAmount.OrZero().Number? || !x.arith.fits(Value(x.invoice.taxAmount))))
  }

  /** Whether the hard stop number `k` of the documented order applies. */
  ghost predicate Fires(x: Inputs, k: nat) {
    var usd := UsdCents(x);
    || (k == 0 && exists field :: Bad(x, field))
    || (k == 1 && Foreign(x) && (!Converted(x) || usd > FX_LIMIT_CENTS || usd > x.thresholds.ceilingCents))
    || (k == 2 && SumCents(Lines(x), x.arith) + x.arith.Cents(Value(x.invoice.taxAmount)) != x.arith.Cents(Value(x.invoice.total)))
    || (k == 3 && usd > RECEIPT_LIMIT_CENTS && !x.invoice.receiptPresent)
    || (k == 4 && !x.invoice.vendorKnown)
    || (k == 5 && x.invoice.category == "meals" && !(x.invoice.attendees.Some? && x.invoice.attendees.value >= 1))
    || (k == 6 && x.invoice.category == "travel" && usd > TRAVEL_LIMIT_CENTS)
  }

  /** The rules from `lo` to `hi - 1` that apply, in order. */
  ghost function Firing(x: Inputs, lo: nat, hi: nat): seq<string>
    requires lo <= hi <= |RULES|
  {
    if lo == hi then [] else Firing(x, lo, hi - 1) + if Fires(x, hi - 1) then [RULES[hi - 1]] else []
  }

  lemma {:induction false} FiringFromFirst(x: Inputs, hi: nat)
    requires 1 <= hi <= |RULES|
    ensures Firing(x, 0, hi) == (if Fires(x, 0) then [RULES[0]] else []) + Firing(x, 1, hi)
  {
    if hi > 1 {
      FiringFromFirst(x, hi - 1);
    } else {
      assert Firing(x, 0, 0) == [];
    }
  }

  // ----- what the amount is

  /** With nothing malformed, the amount is the total in cents, times the rate of a foreign
      currency that has one, up to half a cent. */
  lemma ConversionBound(x: Inputs)
    requires forall field :: !Bad(x, field)
    ensures x.invoice.total.Number?
    ensures x.invoice.currency == "USD" || x.invoice.currency !in x.fxRates ==>
      -0.5 <= UsdCents(x) as real - x.invoice.total.value * 100.0 <= 0.5
    ensures x.invoice.currency != "USD" && x.invoice.currency in x.fxRates ==>
      && x.fxRates[x.invoice.currency].Number?
      && -0.5 <= UsdCents(x) as real - x.invoice.total.value * x.fxRates[x.invoice.currency].value * 100.0 <= 0.5
  {
    assert !Bad(x, "total") && !Bad(x, "fxRate");
    if x.invoice.currency != "USD" && x.invoice.currency in x.fxRates {
      HalfCentOff(x.invoice.total.value * x.fxRates[x.invoice.currency].value);
    } else {
      HalfCentOff(x.invoice.total.value);
    }
    hide RoundHalfUp;
  }

  // ----- the validator

  function Flag(malformed: seq<string>, field: string): (r: seq<string>)
    ensures forall f :: f in r <==> f in malformed || f == field
    ensures NoRepeats(malformed) ==> NoRepeats(r)
  {
    if field in malformed then malformed else malformed + [field]
  }

  method SafeDecimal(f: Field, field: string, malformed: seq<string>) returns (d: real, flagged: seq<string>)
    ensures d == Value(f)
    ensures flagged == if f.Number? then malformed else Flag(malformed, field)
  {
    if f.Number? { return f.value, malformed; }
    d, flagged := 0.0, Flag(malformed, field);
  }

  method SafeMul(a: real, b: real, arith: Arithmetic, field: string, malformed: seq<string>)
    returns (d: real, flagged: seq<string>)
    ensures d == arith.Product(a, b)
    ensures flagged == if arith.multiplies(a, b) then malformed else Flag(malformed, field)
  {
    if arith.multiplies(a, b) { return a * b, malformed; }
    d, flagged := 0.0, Flag(malformed, field);
  }

  method SafeCents(d: real, arith: Arithmetic, field: string, malformed: seq<string>)
    returns (cents: int, flagged: seq<string>)
    ensures cents == arith.Cents(d)
    ensures flagged == if arith.fits(d) then malformed else Flag(malformed, field)
  {
    if arith.fits(d) { return RoundHalfUp(d * 100.0), malformed; }
    cents, flagged := 0, Flag(malformed, field);
  }

  /** What the conversion step finds bad: the total and the rate. */
  ghost predicate BadTotalOrRate(x: Inputs, field: string) {
    (field == "total" || field == "fxRate") && Bad(x, field)
  }

  /** Step 1: the amount in USD cents, and whether the currency stops the invoice. */
  method ConvertToUsd(x: Inputs) returns (usd: int, fx: bool, malformed: seq<string>)
    ensures usd == UsdCents(x) && (fx <==> Fires(x, 1))
    ensures forall f :: f in malformed ==> BadTotalOrRate(x, f)
    ensures forall f :: BadTotalOrRate(x, f) ==> f in malformed || (f == "total" && !x.arith.fits(Value(x.invoice.total)))
    ensures NoRepeats(malformed)
  {
    var total, rate, dollars: real;
    fx := false;
    total, malformed := SafeDecimal(x.invoice.total, "total", []);
    if x.invoice.currency == "USD" {
      usd, malformed := SafeCents(total, x.arith, "total", malformed);
    } else if x.invoice.currency !in x.fxRates {
      fx := true;
      usd, malformed := SafeCents(total, x.arith, "total", malformed);
    } else {
      rate, malformed := SafeDecimal(x.fxRates[x.invoice.currency], "fxRate", malformed);
      dollars, malformed := SafeMul(total, rate, x.arith, "total", malformed);
      usd, malformed := SafeCents(dollars, x.arith, "total", malformed);
      fx := usd > FX_LIMIT_CENTS || usd > x.thresholds.ceilingCents;
    }
  }

  /** One line item in cents; anything wrong with it flags `lineItems`, once. */
  method ItemCents(item: LineItem, arith: Arithmetic, malformed: seq<string>) returns (cents: int, flagged: seq<string>)
    ensures cents == LineCents(item, arith)
    ensures flagged == if LineOk(item, arith) then malformed else Flag(malformed, "lineItems")
  {
    if item.NotADict? { return 0, Flag(malformed, "lineItems"); }
    var quantity, unitPrice, itemTotal: real;
    quantity, flagged := SafeDecimal(item.quantity.OrZero(), "lineItems", malformed);
    unitPrice, flagged := SafeDecimal(item.unitPrice.OrZero(), "lineItems", flagged);
    itemTotal, flagged := SafeMul(quantity, unitPrice, arith, "lineItems", flagged);
    cents, flagged := SafeCents(itemTotal, arith, "lineItems", flagged);
  }

  lemma LinesAreBadIff(x: Inputs)
    ensures Bad(x, "lineItems") <==> x.invoice.lineItems.NotAList? || !AllOk(Lines(x), x.arith)
    ensures forall malformed :: Flag(Flag(malformed, "lineItems"), "lineItems") == Flag(malformed, "lineItems")
  {
  }

  /** Step 2, the loop: the sum of the line items in cents. */
  method AddLines(x: Inputs, already: seq<string>) returns (sum: int, malformed: seq<string>)
    ensures sum == SumCents(Lines(x), x.arith)
    ensures malformed == if Bad(x, "lineItems") then Flag(already, "lineItems") else already
  {
    LinesAreBadIff(x);
    hide LineOk, LineCents, Bad, Flag;
    malformed := if x.invoice.lineItems.NotAList? then Flag(already, "lineItems") else already;
    ghost var start := malformed;
    var items := Lines(x);
    sum := 0;
    for k := 0 to |items|
      invariant sum == SumCents(items[..k], x.arith)
      invariant malformed == if AllOk(items[..k], x.arith) then start else Flag(start, "lineItems")
    {
      assert items[..k + 1] == items[..k] + [items[k]];
      var cents;
      cents, malformed := ItemCents(items[k], x.arith, malformed);
      sum := sum + cents;
    }
    assert items[..|items|] == items;
  }

  lemma AmountIs(x: Inputs, malformed: seq<string>)
    requires forall f :: f in malformed <==> Bad(x, f)
    ensures malformed == [] && (x.invoice.currency == "USD" || x.invoice.currency !in x.fxRates) ==>
      x.invoice.total.Number? && -0.5 <= UsdCents(x) as real - x.invoice.total.value * 100.0 <= 0.5
    ensures malformed == [] && x.invoice.currency != "USD" && x.invoice.currency in x.fxRates ==>
      && x.invoice.total.Number? && x.fxRates[x.invoice.currency].Number?
      && -0.5 <= UsdCents(x) as real - x.invoice.total.value * x.fxRates[x.invoice.currency].value * 100.0 <= 0.5
  {
    if malformed == [] { ConversionBound(x); }
    hide UsdCents, Bad;
  }

  /** `validate`: the hard stops are the documented rules that apply, in the documented order,
      and the fields reported are exactly the unusable ones. If there are none, the amount is the
      total in cents, at its rate, up to half a cent. */
  method Validate(x: Inputs) returns (r: ValidationResult)
    ensures r.usdCents == UsdCents(x)
    ensures r.hardStops == Firing(x, 0, |RULES|)
    ensures NoRepeats(r.malformed) && forall f :: f in r.malformed <==> Bad(x, f)
    ensures r.malformed == [] && (x.invoice.currency == "USD" || x.invoice.currency !in x.fxRates) ==>
      x.invoice.total.Number? && -0.5 <= r.usdCents as real - x.invoice.total.value * 100.0 <= 0.5
    ensures r.malformed == [] && x.invoice.currency != "USD" && x.invoice.currency in x.fxRates ==>
      && x.invoice.total.Number? && x.fxRates[x.invoice.currency].Number?
      && -0.5 <= r.usdCents as real - x.invoice.total.value * x.fxRates[x.invoice.currency].value * 100.0 <= 0.5
  {
    var sum, tax, taxCents, totalCents;
    var usd, fx, malformed := ConvertToUsd(x);
    sum, malformed := AddLines(x, malformed);
    tax, malformed := SafeDecimal(x.invoice.taxAmount.OrZero(), "taxAmount", malformed);
    taxCents, malformed := SafeCents(tax, x.arith, "taxAmount", malformed);
    totalCents, malformed := SafeCents(Value(x.invoice.total), x.arith, "total", malformed);
    var hardStops := Stops(x, usd, fx, sum + taxCents, totalCents);
    assert forall f :: f in malformed <==> Bad(x, f);
    if malformed != [] {
      assert Bad(x, malformed[0]);
      hardStops := ["GLOBAL-MALFORMED"] + hardStops;
    }
    FiringFromFirst(x, |RULES|);
    AmountIs(x, malformed);
    r := ValidationResult(usd, hardStops, malformed);
  }

  /** The rules after the first, checked one by one. */
  method Stops(x: Inputs, usd: int, fx: bool, calculatedCents: int, totalCents: int) returns (hardStops: seq<string>)
    requires usd == UsdCents(x) && (fx <==> Fires(x, 1))
    requires calculatedCents == SumCents(Lines(x), x.arith) + x.arith.Cents(Value(x.invoice.taxAmount))
    requires totalCents == x.arith.Cents(Value(x.invoice.total))
    ensures hardStops == Firing(x, 1, |RULES|)
  {
    hardStops := if fx then ["GLOBAL-FX"] else [];
    assert hardStops == Firing(x, 1, 2);
    if calculatedCents != totalCents { hardStops := hardStops + ["GLOBAL-MATH"]; }
    assert hardStops == Firing(x, 1, 3);
    if usd > RECEIPT_LIMIT_CENTS && !x.invoice.receiptPresent { hardStops := hardStops + ["GLOBAL-RECEIPT"]; }
    assert hardStops == Firing(x, 1, 4);
    if !x.invoice.vendorKnown { hardStops := hardStops + ["GLOBAL-VENDOR"]; }
    assert hardStops == Firing(x, 1, 5);
    if x.invoice.category == "meals" && (x.invoice.attendees.None? || x.invoice.attendees.value < 1) {
      hardStops := hardStops + ["MEAL-01"];
    }
    assert hardStops == Firing(x, 1, 6);
    if x.invoice.category == "travel" && usd > TRAVEL_LIMIT_CENTS { hardStops := hardStops + ["TRAVEL-02"]; }
  }
}
