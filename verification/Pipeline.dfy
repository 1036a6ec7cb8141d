/** The decision pipeline (services/decision/src/pipeline.py): fingerprint, validation, agent,
    router, publish. The agent's answer and the fate of the publish are the adversary's. */
module Pipeline {
  import opened Wrappers
  import opened Contracts
  import opened Money
  import opened Fingerprint
  import opened Validators
  import opened Router

  /** The submitted invoice: what the fingerprint, the validator and the payload take from it. */
  datatype SubmittedInvoice = SubmittedInvoice(
    vendor: string, number: string, totalText: string, invoice: Invoice, scenario: string, department: string)
  {
    function Identity(): Submission {
      Submission(vendor, number, if invoice.total.Number? then Some(invoice.total.value) else None, totalText)
    }
  }

  /** What a published decision was made from. */
  datatype Basis = Basis(submitted: SubmittedInvoice, fp: string, duplicate: bool, inputs: Inputs, validation: ValidationResult,
                         agent: Option<AgentRecommendation>, trusted: bool)

  function Payload(meta: EventMeta, b: Basis): DecisionMadePayload {
    var d := RouteInvoice(b.duplicate, b.validation, b.agent, b.inputs.thresholds, b.trusted, b.inputs.invoice);
    DecisionMadePayload(
      meta, d.route,
      if b.agent.Some? then b.agent.value.recommendation else "n/a",
      if b.agent.Some? then Some(b.agent.value.confidence) else None,
      d.violations, if b.agent.Some? then b.agent.value.reasoning else "",
      b.validation.usdCents, d.effectiveCeilingCents, b.submitted.scenario, b.submitted.department)
  }

  /** What the payload says: what the router decides, the submission's own labels, its amount, the
      ceiling it was held against, and what the agent said, if it was asked and answered. */
  ghost predicate Says(p: DecisionMadePayload, meta: EventMeta, s: SubmittedInvoice, x: Inputs, trusted: bool,
                       duplicate: bool, agent: Option<AgentRecommendation>)
  {
    && (var v := ValidationResult(UsdCents(x), Firing(x, 0, |RULES|), []);
        var d := RouteInvoice(duplicate, v, agent, x.thresholds, trusted, x.invoice);
        p.route == d.route && p.violations == d.violations)
    && p.meta == meta && p.scenario == s.scenario && p.department == s.department
    && p.usdCents == UsdCents(x)
    && p.ceilingCents == EffectiveCeiling(x.thresholds, trusted, x.invoice.category, x.invoice.attendees)
    && (agent.None? ==> p.recommendation == "n/a" && p.confidence.None?)
    && (agent.Some? ==> p.recommendation == agent.value.recommendation && p.confidence == Some(agent.value.confidence))
    && (p.route.AutoApprove? ==> agent.Some? && p.reasoning == agent.value.reasoning)
  }

  lemma PayloadSays(meta: EventMeta, b: Basis)
    requires ValidationOf(b.inputs, b.validation)
    ensures Says(Payload(meta, b), meta, b.submitted, b.inputs, b.trusted, b.duplicate, b.agent)
  {
    hide EffectiveCeiling, UsdCents, Firing;
  }

  /** `p` came out of the gates: it is the payload of a validated basis, and a duplicate is a
      fingerprint that another invoice owns. */
  ghost predicate Decided(p: DecisionMadePayload, b: Basis, owners: map<string, string>) {
    && b.fp in owners && (b.duplicate <==> owners[b.fp] != p.meta.invoiceId) && (b.duplicate ==> b.agent.None?)
    && b.inputs.invoice == b.submitted.invoice && ValidationOf(b.inputs, b.validation)
    && p == Payload(p.meta, b)
  }

  /** The decisions a pipeline published, each with its basis. */
  ghost predicate History(published: seq<DecisionMadePayload>, bases: seq<Basis>, owners: map<string, string>) {
    |bases| == |published| && forall k | 0 <= k < |published| :: Decided(published[k], bases[k], owners)
  }

  class DecisionPipeline {
    var owners: map<string, string>
    /** The vendor and category of each invoice, for the trust a completed payment earns. */
    var remembered: map<string, (string, string)>
    var published: seq<DecisionMadePayload>
    const hash: Hash
    const arith: Arithmetic
    /** The basis of each published decision, and the invoices the agent was asked about. */
    ghost var bases: seq<Basis>
    ghost var asked: seq<string>

    ghost predicate Valid()
      reads this
    {
      && History(published, bases, owners)
      && forall b | b in bases :: b.fp == FingerprintOf(b.submitted.Identity(), arith.fits, hash)
    }

    constructor (hash: Hash, arith: Arithmetic)
      ensures Valid() && this.hash == hash && this.arith == arith && owners == map[] && published == []
    {
      this.hash, this.arith, owners, remembered, published, bases, asked := hash, arith, map[], map[], [], [], [];
    }

    /** Gate 1, with no other submission of the fingerprint in between (Fingerprint has those). */
    method CheckAndRegister(fp: string, id: string) returns (first: bool)
      requires Valid()
      modifies this`owners
      ensures Valid()
      ensures owners == if fp in old(owners) then old(owners) else old(owners)[fp := id]
      ensures first <==> owners[fp] == id
    {
      if fp !in owners {
        owners := owners[fp := id];
      }
      first := owners[fp] == id;
    }

    /** `handle_submission`: `answer` is what the agent would say (None: provider unavailable).
        Duplicates never reach the agent, and what is published is what the gates decided. */
    method HandleSubmission(meta: EventMeta, s: SubmittedInvoice, fxRates: map<string, Field>, thresholds: Thresholds,
                            trusted: bool, answer: Option<AgentRecommendation>, publishOk: bool)
      returns (r: Option<DecisionMadePayload>)
      requires Valid()
      modifies this
      ensures Valid()
      ensures var fp := FingerprintOf(s.Identity(), arith.fits, hash);
        && owners == (if fp in old(owners) then old(owners) else old(owners)[fp := meta.invoiceId])
        && asked == old(asked) + (if owners[fp] == meta.invoiceId then [meta.invoiceId] else [])
      ensures remembered == old(remembered)[meta.invoiceId := (s.vendor, s.invoice.category)]
      ensures r.Some? <==> publishOk
      ensures r.None? ==> published == old(published) && bases == old(bases)
      ensures r.Some? ==>
        && published == old(published) + [r.value] && |bases| == |old(bases)| + 1 && bases == old(bases) + [bases[|old(bases)|]]
        && var b := bases[|old(bases)|];
           && r.value == Payload(meta, b) && b.submitted == s
           && b.fp == FingerprintOf(s.Identity(), arith.fits, hash) && b.inputs == Inputs(s.invoice, fxRates, thresholds, arith)
           && b.trusted == trusted && b.agent == (if b.duplicate then None else answer)
      ensures r.Some? ==> Says(r.value, meta, s, Inputs(s.invoice, fxRates, thresholds, arith), trusted,
                               owners[FingerprintOf(s.Identity(), arith.fits, hash)] != meta.invoiceId,
                               if owners[FingerprintOf(s.Identity(), arith.fits, hash)] == meta.invoiceId then answer else None)
    {
      var fp := FingerprintOf(s.Identity(), arith.fits, hash);
      var first := CheckAndRegister(fp, meta.invoiceId);
      var x := Inputs(s.invoice, fxRates, thresholds, arith);
      var validation := Validate(x);
      remembered := remembered[meta.invoiceId := (s.vendor, s.invoice.category)];
      var agent := None;
      if first {
        agent := answer;
        asked := asked + [meta.invoiceId];
      }
      ghost var b := Basis(s, fp, !first, x, validation, agent, trusted);
      var decision := RouteInvoice(!first, validation, agent, thresholds, trusted, s.invoice);
      var result := DecisionMadePayload(
        meta, decision.route,
        if agent.Some? then agent.value.recommendation else "n/a",
        if agent.Some? then Some(agent.value.confidence) else None,
        decision.violations, if agent.Some? then agent.value.reasoning else "",
        validation.usdCents, decision.effectiveCeilingCents, s.scenario, s.department);
      if !publishOk { return None; }
      assert result == Payload(result.meta, b);
      PayloadSays(meta, b);
      hide UsdCents, EffectiveCeiling, Firing, Payload, Says;
      published, bases := published + [result], bases + [b];
      r := Some(result);
    }
  }

  // ----- what is published

  /** Two invoices with one fingerprint are never both routed past `duplicate`. */
  lemma OneInvoicePerFingerprint(pipeline: DecisionPipeline, k: nat, l: nat)
    requires pipeline.Valid() && k < |pipeline.published| && l < |pipeline.published|
    requires pipeline.bases[k].fp == pipeline.bases[l].fp
    requires !pipeline.published[k].route.Duplicate? && !pipeline.published[l].route.Duplicate?
    ensures pipeline.published[k].meta.invoiceId == pipeline.published[l].meta.invoiceId
  {
    assert Decided(pipeline.published[k], pipeline.bases[k], pipeline.owners);
    assert Decided(pipeline.published[l], pipeline.bases[l], pipeline.owners);
  }

  /** So of all submissions with one vendor, number and amount in cents, one invoice at most is
      decided on; the others are duplicates. */
  lemma SameInvoiceDecidedOnce(pipeline: DecisionPipeline, k: nat, l: nat)
    requires pipeline.Valid() && k < |pipeline.published| && l < |pipeline.published|
    requires var a, b := pipeline.bases[k].submitted, pipeline.bases[l].submitted;
      && a.vendor == b.vendor && a.number == b.number && a.invoice.total.Number? && b.invoice.total.Number?
      && ToCents(pipeline.arith.fits, a.invoice.total.value).Some?
      && ToCents(pipeline.arith.fits, a.invoice.total.value) == ToCents(pipeline.arith.fits, b.invoice.total.value)
    requires pipeline.published[k].meta.invoiceId != pipeline.published[l].meta.invoiceId
    ensures pipeline.published[k].route.Duplicate? || pipeline.published[l].route.Duplicate?
  {
    var a, b := pipeline.bases[k], pipeline.bases[l];
    assert a in pipeline.bases && b in pipeline.bases;
    assert FingerprintOf(a.submitted.Identity(), pipeline.arith.fits, pipeline.hash)
        == FingerprintOf(b.submitted.Identity(), pipeline.arith.fits, pipeline.hash);
    if !pipeline.published[k].route.Duplicate? && !pipeline.published[l].route.Duplicate? {
      OneInvoicePerFingerprint(pipeline, k, l);
    }
  }

  /** A published auto-approval is within the ceiling it publishes, and what it was made from was
      well-formed, reconciled, of a known vendor, receipted above $25 and, in a foreign currency,
      at most $1,000. */
  lemma PublishedAutoIsSafe(p: DecisionMadePayload, b: Basis, owners: map<string, string>)
    requires Decided(p, b, owners) && p.route.AutoApprove?
    ensures p.usdCents == UsdCents(b.inputs) && p.usdCents <= p.ceilingCents && owners[b.fp] == p.meta.invoiceId
    ensures (forall field :: !Bad(b.inputs, field)) && !Fires(b.inputs, 2) && b.inputs.invoice.vendorKnown
    ensures p.usdCents > 2500 ==> b.inputs.invoice.receiptPresent
    ensures b.inputs.invoice.currency != "USD" ==> p.usdCents <= 100000
  {
    AutoApprovalIsSafe(b.inputs, b.validation, b.agent, b.duplicate, b.trusted);
  }
}
