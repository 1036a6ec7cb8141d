/** What the validator's result guarantees (services/decision/src/validators.py). */
module ValidatorLaws {
  import opened Wrappers
  import opened Money
  import opened Validators

  // ----- the shape of the hard stops

  /** Position of the `k`th stop of `Firing(x, lo, hi)` in the documented order. */
  ghost function RuleAt(x: Inputs, lo: nat, hi: nat, k: nat): (rule: nat)
    requires lo <= hi <= |RULES| && k < |Firing(x, lo, hi)|
    ensures lo <= rule < hi && Fires(x, rule) && Firing(x, lo, hi)[k] == RULES[rule]
  {
    if Fires(x, hi - 1) && k == |Firing(x, lo, hi)| - 1 then hi - 1 else RuleAt(x, lo, hi - 1, k)
  }

  lemma {:induction false} RulesInOrder(x: Inputs, lo: nat, hi: nat, k: nat, l: nat)
    requires lo <= hi <= |RULES| && k < l < |Firing(x, lo, hi)|
    ensures RuleAt(x, lo, hi, k) < RuleAt(x, lo, hi, l)
  {
    if !(Fires(x, hi - 1) && l == |Firing(x, lo, hi)| - 1) {
      RulesInOrder(x, lo, hi - 1, k, l);
    }
  }

  lemma {:induction false} FiringComplete(x: Inputs, lo: nat, hi: nat, rule: nat)
    requires lo <= rule < hi <= |RULES| && Fires(x, rule)
    ensures RULES[rule] in Firing(x, lo, hi)
  {
    if rule < hi - 1 { FiringComplete(x, lo, hi - 1, rule); }
  }

  /** A rule is among the hard stops exactly when it applies, and they are a subsequence of the
      documented order without repeats. */
  lemma StopsFollowTheRules(x: Inputs, rule: nat, k: nat, l: nat)
    requires rule < |RULES| && k < |Firing(x, 0, |RULES|)| && l < |Firing(x, 0, |RULES|)|
    ensures var stops := Firing(x, 0, |RULES|);
      && (RULES[rule] in stops <==> Fires(x, rule))
      && (k < l ==> exists a: nat, b: nat :: a < b < |RULES| && stops[k] == RULES[a] && stops[l] == RULES[b])
      && (stops[k] == stops[l] ==> k == l)
  {
    var stops := Firing(x, 0, |RULES|);
    if k < l { RulesInOrder(x, 0, |RULES|, k, l); }
    if l < k { RulesInOrder(x, 0, |RULES|, l, k); }
    StopIff(x, rule);
  }

  lemma StopIff(x: Inputs, rule: nat)
    requires rule < |RULES|
    ensures RULES[rule] in Firing(x, 0, |RULES|) <==> Fires(x, rule)
  {
    var stops := Firing(x, 0, |RULES|);
    if Fires(x, rule) { FiringComplete(x, 0, |RULES|, rule); }
    if RULES[rule] in stops {
      var k :| 0 <= k < |stops| && stops[k] == RULES[rule];
      assert RULES[RuleAt(x, 0, |RULES|, k)] == RULES[rule];
    }
  }

  lemma NoStopsIff(x: Inputs)
    ensures Firing(x, 0, |RULES|) == [] <==> forall rule | 0 <= rule < |RULES| :: !Fires(x, rule)
  {
    forall rule: nat | rule < |RULES| ensures RULES[rule] in Firing(x, 0, |RULES|) <==> Fires(x, rule) {
      StopIff(x, rule);
    }
    if Firing(x, 0, |RULES|) != [] {
      var rule := RuleAt(x, 0, |RULES|, 0);
    }
  }

  // ----- how far a reconciled invoice can be off

  /** The line items in exact cents. */
  ghost function ExactCents(items: seq<LineItem>): real
    requires forall item | item in items :: item.Line?
  {
    if items == [] then 0.0
    else
      var item := items[|items| - 1];
      ExactCents(items[..|items| - 1]) + Value(item.quantity) * Value(item.unitPrice) * 100.0
  }

  /** Each rounding is off by at most half a cent, and by all of it only away from zero. */
  lemma {:induction false} LinesAreHalfCentsOff(items: seq<LineItem>, arith: Arithmetic)
    requires AllOk(items, arith)
    ensures forall item | item in items :: item.Line?
    ensures var n, off := |items| as real, SumCents(items, arith) as real - ExactCents(items);
      && -n / 2.0 <= off <= n / 2.0
      && (off == n / 2.0 ==> SumCents(items, arith) >= |items|)
      && (off == -n / 2.0 ==> SumCents(items, arith) <= 0 - |items|)
    decreases |items|
  {
    if items != [] {
      var item := items[|items| - 1];
      assert item in items && LineOk(item, arith);
      LinesAreHalfCentsOff(items[..|items| - 1], arith);
      HalfCentOff(Value(item.quantity) * Value(item.unitPrice));
    }
  }

  /** Items, tax and total of an invoice with `n` line items that neither GLOBAL-MALFORMED nor
      GLOBAL-MATH stops agree to less than (n + 2) / 2 cents, with exact products. */
  lemma ReconciliationBound(x: Inputs)
    requires !Fires(x, 0) && !Fires(x, 2)
    ensures AllOk(Lines(x), x.arith) && forall item | item in Lines(x) :: item.Line?
    ensures var off := ExactCents(Lines(x)) + Value(x.invoice.taxAmount) * 100.0 - Value(x.invoice.total) * 100.0;
      var n := |Lines(x)| as real;
      -(n + 2.0) / 2.0 < off < (n + 2.0) / 2.0
  {
    assert !Bad(x, "lineItems") && !Bad(x, "taxAmount") && !Bad(x, "total");
    LinesAreHalfCentsOff(Lines(x), x.arith);
    HalfCentOff(Value(x.invoice.taxAmount));
    HalfCentOff(Value(x.invoice.total));
    Reconciled(SumCents(Lines(x), x.arith), ExactCents(Lines(x)), |Lines(x)|,
               Value(x.invoice.taxAmount) * 100.0, Value(x.invoice.total) * 100.0);
  }

  /** The arithmetic of ReconciliationBound: all errors extreme would put the total on both sides of zero. */
  lemma Reconciled(sum: int, exact: real, n: nat, tax: real, total: real)
    requires var off := sum as real - exact;
      && -(n as real) / 2.0 <= off <= n as real / 2.0
      && (off == n as real / 2.0 ==> sum >= n) && (off == -(n as real) / 2.0 ==> sum <= 0 - n)
    requires var off := RoundHalfUp(tax) as real - tax;
      -0.5 <= off <= 0.5 && (off == 0.5 ==> RoundHalfUp(tax) >= 1) && (off == -0.5 ==> RoundHalfUp(tax) <= -1)
    requires var off := RoundHalfUp(total) as real - total;
      -0.5 <= off <= 0.5 && (off == 0.5 ==> RoundHalfUp(total) >= 1) && (off == -0.5 ==> RoundHalfUp(total) <= -1)
    requires sum + RoundHalfUp(tax) == RoundHalfUp(total)
    ensures -(n as real + 2.0) / 2.0 < exact + tax - total < (n as real + 2.0) / 2.0
  {
    hide RoundHalfUp;
    var a, b, c := sum as real - exact, RoundHalfUp(tax) as real - tax, RoundHalfUp(total) as real - total;
    assert exact + tax - total == c - a - b;
  }

  /** An invoice whose amounts are whole cents and add up exactly is not stopped by GLOBAL-MATH. */
  lemma ExactPasses(x: Inputs, taxCents: int, totalCents: int)
    requires !Fires(x, 0) && (forall item | item in Lines(x) :: WholeCents(item))
    requires Value(x.invoice.taxAmount) * 100.0 == taxCents as real && Value(x.invoice.total) * 100.0 == totalCents as real
    requires AllOk(Lines(x), x.arith) && ExactCents(Lines(x)) + taxCents as real == totalCents as real
    ensures !Fires(x, 2)
  {
    assert !Bad(x, "taxAmount") && !Bad(x, "total");
    WholeCentsSum(Lines(x), x.arith);
    RoundHalfUpIsNearest(taxCents as real, taxCents);
    RoundHalfUpIsNearest(totalCents as real, totalCents);
    hide RoundHalfUp;
  }

  ghost predicate WholeCents(item: LineItem) {
    item.Line? && var cents := Value(item.quantity) * Value(item.unitPrice) * 100.0; cents == cents.Floor as real
  }

  lemma WholeLine(item: LineItem, arith: Arithmetic)
    requires LineOk(item, arith) && WholeCents(item)
    ensures LineCents(item, arith) as real == Value(item.quantity) * Value(item.unitPrice) * 100.0
  {
    var dollars := Value(item.quantity) * Value(item.unitPrice);
    assert arith.Product(Value(item.quantity), Value(item.unitPrice)) == dollars;
    RoundHalfUpIsNearest(dollars * 100.0, (dollars * 100.0).Floor);
    hide RoundHalfUp;
  }

  lemma {:induction false} WholeCentsSum(items: seq<LineItem>, arith: Arithmetic)
    requires AllOk(items, arith) && forall item | item in items :: WholeCents(item)
    ensures SumCents(items, arith) as real == ExactCents(items)
    decreases |items|
  {
    if items != [] {
      var item := items[|items| - 1];
      assert item in items && LineOk(item, arith) && WholeCents(item);
      WholeCentsSum(items[..|items| - 1], arith);
      WholeLine(item, arith);
      hide LineCents, WholeCents;
    }
  }

  // ----- the rules, one by one

  /** An amount that may be missing. */
  predicate Optional(f: Field) {
    f.Absent? || f.Number?
  }

  predicate Multiplies(a: real, b: real, arith: Arithmetic) {
    arith.multiplies(a, b) && arith.fits(a * b)
  }

  /** A missing quantity or price counts as 0. */
  ghost predicate UsableItem(item: LineItem, arith: Arithmetic) {
    && item.Line? && Optional(item.quantity) && Optional(item.unitPrice)
    && Multiplies(if item.quantity.Number? then item.quantity.value else 0.0,
                  if item.unitPrice.Number? then item.unitPrice.value else 0.0, arith)
  }

  /** Malformed is: a total that is missing or no amount, a rate, tax amount or line item that is
      there and is none, or an amount or product out of range. */
  lemma WellFormedIff(x: Inputs)
    ensures (forall field :: !Bad(x, field)) <==>
      && x.invoice.total.Number? && x.arith.fits(x.invoice.total.value)
      && (x.invoice.currency != "USD" && x.invoice.currency in x.fxRates ==>
            && x.fxRates[x.invoice.currency].Number?
            && Multiplies(x.invoice.total.value, x.fxRates[x.invoice.currency].value, x.arith))
      && x.invoice.lineItems.Items? && (forall item | item in x.invoice.lineItems.items :: UsableItem(item, x.arith))
      && Optional(x.invoice.taxAmount) && x.arith.fits(if x.invoice.taxAmount.Number? then x.invoice.taxAmount.value else 0.0)
  {
    assert !Bad(x, "total") && !Bad(x, "fxRate") && !Bad(x, "lineItems") && !Bad(x, "taxAmount") <==> forall field :: !Bad(x, field);
    if x.invoice.total.Number? && Converted(x) && x.fxRates[x.invoice.currency].Number? {
      ProductFits(x.arith, x.invoice.total.value, x.fxRates[x.invoice.currency].value);
    }
    forall item | item in Lines(x) ensures LineOk(item, x.arith) <==> UsableItem(item, x.arith) {
      if item.Line? { ProductFits(x.arith, Value(item.quantity), Value(item.unitPrice)); }
    }
    hide LineOk, UsableItem, Multiplies;
  }

  lemma ProductFits(arith: Arithmetic, a: real, b: real)
    ensures arith.multiplies(a, b) && arith.fits(arith.Product(a, b)) <==> Multiplies(a, b, arith)
  {
    if arith.multiplies(a, b) { assert arith.Product(a, b) == a * b; }
  }

  /** When each rule stops an invoice. */
  lemma StopsAre(x: Inputs)
    ensures var stops, usd, i := Firing(x, 0, |RULES|), UsdCents(x), x.invoice;
      && ("GLOBAL-MALFORMED" in stops <==> exists field :: Bad(x, field))
      && ("GLOBAL-FX" in stops <==>
            i.currency != "USD" && (i.currency !in x.fxRates || usd > 100000 || usd > x.thresholds.ceilingCents))
      && ("GLOBAL-RECEIPT" in stops <==> usd > 2500 && !i.receiptPresent)
      && ("GLOBAL-VENDOR" in stops <==> !i.vendorKnown)
      && ("MEAL-01" in stops <==> i.category == "meals" && (i.attendees.None? || i.attendees.value < 1))
      && ("TRAVEL-02" in stops <==> i.category == "travel" && usd > 150000)
  {
    StopIff(x, 0);
    StopIff(x, 1);
    StopIff(x, 3);
    StopIff(x, 4);
    StopIff(x, 5);
    StopIff(x, 6);
    hide Firing, UsdCents, Bad;
  }
}
