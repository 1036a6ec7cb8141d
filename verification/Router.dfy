/** The deterministic router (services/decision/src/router.py): the agent recommends, the
    router decides. */
module Router {
  import opened Wrappers
  import opened Contracts
  import opened Validators
  import ValidatorLaws

  datatype AgentRecommendation = AgentRecommendation(
    recommendation: string, confidence: real, policyViolations: seq<string>, fraudSignals: seq<string>, reasoning: string)

  datatype RouterDecision = RouterDecision(route: Route, violations: seq<string>, effectiveCeilingCents: int)

  function Least(a: int, b: int): int {
    if b < a then b else a
  }

  /** The category cap, if there is one. */
  function Cap(thresholds: Thresholds, category: string, attendees: Option<int>): Option<int> {
    if category == "saas" then Some(thresholds.saasMonthlyCapCents)
    else if category == "meals" && attendees.Some? && attendees.value >= 1 then
      Some(attendees.value * thresholds.mealsPerAttendeeCents)
    else None
  }

  function EffectiveCeiling(thresholds: Thresholds, trusted: bool, category: string, attendees: Option<int>): int {
    var base := if trusted then thresholds.trustedCeilingCents else thresholds.ceilingCents;
    var cap := Cap(thresholds, category, attendees);
    if cap.Some? then Least(base, cap.value) else base
  }

  function RouteInvoice(duplicate: bool, validation: ValidationResult, agent: Option<AgentRecommendation>,
                        thresholds: Thresholds, trusted: bool, invoice: Invoice): RouterDecision
  {
    var effective := EffectiveCeiling(thresholds, trusted, invoice.category, invoice.attendees);
    if duplicate then RouterDecision(Duplicate, ["GLOBAL-DUP"], effective)
    else if agent.None? then RouterDecision(HumanReview, ["AGENT-UNAVAILABLE"] + validation.hardStops, effective)
    else
      var a := agent.value;
      if "MEAL-03" in a.policyViolations then RouterDecision(Reject, ["MEAL-03"], effective)
      else if validation.hardStops != [] || a.fraudSignals != [] then
        RouterDecision(HumanReview, validation.hardStops + a.fraudSignals + a.policyViolations, effective)
      else if validation.usdCents > effective then RouterDecision(HumanReview, ["AUTONOMY-CEILING"], effective)
      else if a.confidence < thresholds.minConfidence then RouterDecision(HumanReview, ["AUTONOMY-CONFIDENCE"], effective)
      else if a.policyViolations != [] then RouterDecision(HumanReview, a.policyViolations, effective)
      else RouterDecision(AutoApprove, [], effective)
  }

  // ----- what no agent can change

  /** auto < human < reject; a duplicate is none of them. */
  function Severity(r: Route): nat {
    match r
    case AutoApprove => 0
    case HumanReview => 1
    case Reject => 2
    case Duplicate => 3
  }

  /** `b` complains at least as much as `a` and is at most as sure. */
  ghost predicate AtLeastAsWary(a: AgentRecommendation, b: AgentRecommendation) {
    && (forall v | v in a.policyViolations :: v in b.policyViolations)
    && (forall f | f in a.fraudSignals :: f in b.fraudSignals)
    && b.confidence <= a.confidence
  }

  /** More violations or fraud signals, or less confidence, never widen the outcome. */
  lemma RoutesAreMonotone(duplicate: bool, validation: ValidationResult, a: AgentRecommendation, b: AgentRecommendation,
                          thresholds: Thresholds, trusted: bool, invoice: Invoice)
    requires AtLeastAsWary(a, b)
    ensures Severity(RouteInvoice(duplicate, validation, Some(a), thresholds, trusted, invoice).route)
         <= Severity(RouteInvoice(duplicate, validation, Some(b), thresholds, trusted, invoice).route)
  {
    if a.policyViolations != [] { assert a.policyViolations[0] in b.policyViolations; }
    if a.fraudSignals != [] { assert a.fraudSignals[0] in b.fraudSignals; }
  }

  /** The agent that always approves with full confidence. */
  const ALWAYS_APPROVE := AgentRecommendation("approve", 1.0, [], [], "")

  /** No agent, present or not, gets further than the one that always approves, as long as
      confidences are at most 1. */
  lemma AlwaysApproveIsMostPermissive(duplicate: bool, validation: ValidationResult, agent: Option<AgentRecommendation>,
                                      thresholds: Thresholds, trusted: bool, invoice: Invoice)
    requires agent.Some? ==> agent.value.confidence <= 1.0
    ensures Severity(RouteInvoice(duplicate, validation, Some(ALWAYS_APPROVE), thresholds, trusted, invoice).route)
         <= Severity(RouteInvoice(duplicate, validation, agent, thresholds, trusted, invoice).route)
  {
    if agent.Some? {
      RoutesAreMonotone(duplicate, validation, ALWAYS_APPROVE, agent.value, thresholds, trusted, invoice);
    }
  }

  /** Whether any agent at all (with a confidence up to 1) can get an invoice auto-approved is
      decided without it: no duplicate, no hard stop, within the ceiling, and a confidence floor
      that can be met. */
  lemma AutoReachableIff(duplicate: bool, validation: ValidationResult, thresholds: Thresholds, trusted: bool, invoice: Invoice)
    ensures (exists agent: AgentRecommendation :: agent.confidence <= 1.0
               && RouteInvoice(duplicate, validation, Some(agent), thresholds, trusted, invoice).route.AutoApprove?)
      <==> && !duplicate && validation.hardStops == [] && thresholds.minConfidence <= 1.0
           && validation.usdCents <= EffectiveCeiling(thresholds, trusted, invoice.category, invoice.attendees)
  {
    if RouteInvoice(duplicate, validation, Some(ALWAYS_APPROVE), thresholds, trusted, invoice).route.AutoApprove? {
      assert ALWAYS_APPROVE.confidence <= 1.0;
    }
  }

  /** An auto-approval needs the agent's full consent as well, and nothing else; every other
      outcome names its reasons, and human review hides no hard stop. */
  lemma ReasonsAreGiven(duplicate: bool, validation: ValidationResult, agent: Option<AgentRecommendation>,
                        thresholds: Thresholds, trusted: bool, invoice: Invoice)
    ensures var d := RouteInvoice(duplicate, validation, agent, thresholds, trusted, invoice);
      && (d.route.AutoApprove? <==>
            && !duplicate && validation.hardStops == [] && validation.usdCents <= d.effectiveCeilingCents
            && agent.Some? && agent.value.policyViolations == [] && agent.value.fraudSignals == []
            && thresholds.minConfidence <= agent.value.confidence)
      && (d.route.AutoApprove? <==> d.violations == [])
      && (d.route.Duplicate? <==> duplicate) && (d.route.Duplicate? ==> d.violations == ["GLOBAL-DUP"])
      && (d.route.Reject? <==> !duplicate && agent.Some? && "MEAL-03" in agent.value.policyViolations)
      && (d.route.Reject? ==> d.violations == ["MEAL-03"])
      && (d.route.HumanReview? ==>
            && (forall stop | stop in validation.hardStops :: stop in d.violations)
            && (agent.None? ==> d.violations == ["AGENT-UNAVAILABLE"] + validation.hardStops)
            && (agent.Some? && (validation.hardStops != [] || agent.value.fraudSignals != []) ==>
                  d.violations == validation.hardStops + agent.value.fraudSignals + agent.value.policyViolations)
            && (agent.Some? && validation.hardStops == [] && agent.value.fraudSignals == [] ==>
                  d.violations == if validation.usdCents > d.effectiveCeilingCents then ["AUTONOMY-CEILING"]
                                  else if agent.value.confidence < thresholds.minConfidence then ["AUTONOMY-CONFIDENCE"]
                                  else agent.value.policyViolations))
  {
    if agent.Some? && "MEAL-03" in agent.value.policyViolations { assert agent.value.policyViolations != []; }
  }

  /** The ceiling is the tighter of the vendor's base, trusted or not, and the cap of the category,
      which only saas and meals with a headcount have. */
  lemma CeilingIs(thresholds: Thresholds, trusted: bool, category: string, attendees: Option<int>)
    ensures var c := EffectiveCeiling(thresholds, trusted, category, attendees);
      var base := if trusted then thresholds.trustedCeilingCents else thresholds.ceilingCents;
      && c <= base
      && (category == "saas" ==> c <= thresholds.saasMonthlyCapCents && (c == base || c == thresholds.saasMonthlyCapCents))
      && (category == "meals" && attendees.Some? && attendees.value >= 1 ==>
            var cap := attendees.value * thresholds.mealsPerAttendeeCents; c <= cap && (c == base || c == cap))
      && (category != "saas" && (category != "meals" || attendees.None? || attendees.value < 1) ==> c == base)
  {
  }

  // ----- validator and router together

  /** `v` is the validator's answer for `x`. */
  ghost predicate ValidationOf(x: Inputs, v: ValidationResult) {
    v.usdCents == UsdCents(x) && v.hardStops == Firing(x, 0, |RULES|)
  }

  /** Every auto-approval, whatever the agent says: well-formed, reconciled, receipted, a known
      vendor, within the trusted or standard ceiling and within its category cap; in a foreign
      currency worth at most $1,000 and at most the standard ceiling at its rate, even for a
      trusted vendor. */
  lemma AutoApprovalIsSafe(x: Inputs, v: ValidationResult, agent: Option<AgentRecommendation>, duplicate: bool, trusted: bool)
    requires ValidationOf(x, v)
    requires RouteInvoice(duplicate, v, agent, x.thresholds, trusted, x.invoice).route.AutoApprove?
    ensures !duplicate && (forall field :: !Bad(x, field)) && !Fires(x, 2) && x.invoice.vendorKnown && x.invoice.total.Number?
    ensures var usd, t := v.usdCents, x.thresholds;
      && usd <= (if trusted then t.trustedCeilingCents else t.ceilingCents)
      && (x.invoice.currency == "USD" ==> -0.5 <= usd as real - x.invoice.total.value * 100.0 <= 0.5)
      && (usd > 2500 ==> x.invoice.receiptPresent)
      && (x.invoice.category == "saas" ==> usd <= t.saasMonthlyCapCents)
      && (x.invoice.category == "meals" ==>
            x.invoice.attendees.Some? && x.invoice.attendees.value >= 1
            && usd <= x.invoice.attendees.value * t.mealsPerAttendeeCents)
      && (x.invoice.category == "travel" ==> usd <= 150000)
    ensures x.invoice.currency != "USD" ==>
      && x.invoice.currency in x.fxRates && x.fxRates[x.invoice.currency].Number?
      && v.usdCents <= Least(100000, x.thresholds.ceilingCents)
      && x.invoice.total.value * x.fxRates[x.invoice.currency].value * 100.0 <= Least(100000, x.thresholds.ceilingCents) as real + 0.5
  {
    ValidatorLaws.NoStopsIff(x);
    assert !Fires(x, 0) && !Fires(x, 1) && !Fires(x, 2) && !Fires(x, 3) && !Fires(x, 4) && !Fires(x, 5) && !Fires(x, 6);
    ConversionBound(x);
    hide UsdCents, Bad;
  }

  /** Any unusable field means human eyes, for every agent that does not reject. */
  lemma MalformedIsEscalated(x: Inputs, v: ValidationResult, agent: Option<AgentRecommendation>, trusted: bool, field: string)
    requires ValidationOf(x, v) && Bad(x, field)
    ensures var d := RouteInvoice(false, v, agent, x.thresholds, trusted, x.invoice);
      d.route.Reject? || (d.route.HumanReview? && "GLOBAL-MALFORMED" in d.violations)
  {
    assert Fires(x, 0);
    ValidatorLaws.StopIff(x, 0);
  }
}
