/** The decision, approval, payment and audit services together. */
module EndToEnd {
  import opened Wrappers
  import opened Runs
  import opened Contracts
  import opened Validators
  import opened Pipeline
  import PaymentSaga
  import PaymentService
  import PaymentSubscriber
  import AuditTrail
  import AuditTheorems
  import Approval
  import ApprovalAuthority

  /** The payment service's own ceiling check never turns down what the pipeline auto-approved:
      a first delivery opens the saga exactly when the amount is positive, and what it comes to is
      never a ceiling violation. */
  lemma PaymentAcceptsAutoApprovals(published: seq<DecisionMadePayload>, bases: seq<Basis>, owners: map<string, string>,
                                    k: nat, injection: bool, b: PaymentService.Books, freshRef: string)
    requires History(published, bases, owners) && k < |published| && published[k].route.AutoApprove?
    requires published[k].meta.invoiceId !in b.sagas
    ensures var p := published[k];
      PaymentSaga.FirstPc(None, p.usdCents, PaymentSubscriber.OnDecision(p).AsRequest(injection))
      == if p.usdCents > 0 then PaymentSaga.WriteStarted else PaymentSaga.WriteCompensated(PaymentSaga.InvalidAmount)
    ensures var p := published[k];
      var r := PaymentSaga.Request(p.meta.correlationId, p.department, p.usdCents, p.scenario, true, Some(p.ceilingCents), injection);
      var saga := PaymentService.Settled(b, p.meta.invoiceId, r, freshRef).sagas[p.meta.invoiceId];
      && saga.failureReason != Some(PaymentSaga.CeilingViolation)
      && (saga.failureReason == Some(PaymentSaga.InvalidAmount) <==> p.usdCents <= 0)
  {
    PublishedAutoIsSafe(published[k], bases[k], owners);
    hide Decided;
  }

  // ----- audit

  /** How audit sees a decision. */
  ghost function Audited(p: DecisionMadePayload, at: int): AuditTrail.AuditEvent {
    AuditTrail.AuditEvent(p.meta.correlationId, p.meta.invoiceId, at,
                          AuditTrail.DecisionMade(p.route, p.usdCents, p.ceilingCents))
  }

  /** When all auto decisions are the pipeline's, `ceiling_violations` is empty in every run. */
  lemma NoCeilingViolations(published: seq<DecisionMadePayload>, bases: seq<Basis>, owners: map<string, string>,
                            s0: AuditTrail.State, trace: seq<AuditTrail.Action>)
    requires History(published, bases, owners)
    requires AuditTrail.Init(s0) && Run(AuditTrail.Step, s0, trace).Some?
    requires forall id | id in s0.sent && s0.sent[id].Auto() :: exists p, at :: p in published && s0.sent[id] == Audited(p, at)
    ensures AuditTrail.Violations(Run(AuditTrail.Step, s0, trace).value.index) == []
  {
    forall id | id in s0.sent && s0.sent[id].Auto() ensures s0.sent[id].payload.usdCents <= s0.sent[id].payload.ceilingCents {
      var p, at :| p in published && s0.sent[id] == Audited(p, at);
      var k :| 0 <= k < |published| && published[k] == p;
      PublishedAutoIsSafe(p, bases[k], owners);
    }
    AuditTheorems.CompliantMeansEmpty(s0, trace);
  }

  // ----- approval

  /** How the approval service sees a decision. */
  ghost function Escalated(d: DecisionMadePayload, at: int): Approval.Event {
    Approval.Event(d.meta.invoiceId, d.meta.correlationId, d.route.HumanReview?,
                   Approval.Decision(d.usdCents, d.violations, d.recommendation, d.confidence, d.reasoning,
                                     d.scenario, d.department, at))
  }

  /** The payload tells the resolution `r`. */
  ghost predicate Tells(p: ApprovalResolvedPayload, r: Approval.Resolution) {
    && p.meta.invoiceId == r.i && p.meta.correlationId == r.correlationId
    && p.approverId == r.approver && p.comment == r.comment
    && p.usdCents == r.usdCents && p.scenario == r.scenario && p.department == r.department
    && match p.verdict
       case Approved => r.status.Approved?
       case Rejected => r.status.Rejected?
       case NeedsInfo => r.status.NeedsInfo?
  }

  /** The run of an approval service that is fed these decisions and no others. */
  ghost predicate FedBy(published: seq<DecisionMadePayload>, s0: Approval.State, trace: seq<Approval.Action>) {
    && Approval.Init(s0) && Run(Approval.Step, s0, trace).Some?
    && forall id | id in s0.sent :: exists d, at :: d in published && s0.sent[id] == Escalated(d, at)
  }

  /** The broker took the payload from the approval service, acknowledged or not. */
  ghost predicate Sent(s: Approval.State, p: ApprovalResolvedPayload) {
    exists r :: (r in s.published || r in s.unacked) && Tells(p, r)
  }

  /** `d` asked for human review of what `p` is about. */
  ghost predicate AskedForReview(d: DecisionMadePayload, p: ApprovalResolvedPayload) {
    && d.route.HumanReview? && d.meta.invoiceId == p.meta.invoiceId
    && d.usdCents == p.usdCents && d.department == p.department && d.scenario == p.scenario
  }

  /** The figures of a verdict event are those of a decision that was published and asked for human
      review of that invoice. */
  lemma VerdictsAreOnDecisions(published: seq<DecisionMadePayload>, s0: Approval.State, trace: seq<Approval.Action>,
                               p: ApprovalResolvedPayload)
    requires FedBy(published, s0, trace) && Sent(Run(Approval.Step, s0, trace).value, p)
    ensures exists d :: d in published && AskedForReview(d, p)
  {
    var s := Run(Approval.Step, s0, trace).value;
    var r :| (r in s.published || r in s.unacked) && Tells(p, r);
    var m, c, v, n, id, first, creator := ApprovalAuthority.ResolutionsAreBacked(s0, trace, r);
    var d, at :| d in published && s0.sent[id] == Escalated(d, at);
    assert AskedForReview(d, p);
  }

  // ----- payment

  /** The basis of an auto-approval: what was submitted is well-formed, reconciled, of a known vendor,
      and worth the amount decided on, which is within the ceiling. */
  ghost predicate SoundBasis(b: Basis, p: DecisionMadePayload) {
    && b.inputs.invoice == b.submitted.invoice && p.usdCents == UsdCents(b.inputs) && p.usdCents <= p.ceilingCents
    && (forall field :: !Bad(b.inputs, field)) && !Fires(b.inputs, 2) && b.submitted.invoice.vendorKnown
    && (p.usdCents > 2500 ==> b.submitted.invoice.receiptPresent)
    && p.department == b.submitted.department && p.scenario == b.submitted.scenario
  }

  /** Money may move for `e`: decision number `k`, published as an auto-approval on a sound basis, or
      an approved verdict on decision number `k`, published for human review. */
  ghost predicate Authorizes(published: seq<DecisionMadePayload>, bases: seq<Basis>, k: nat, e: PaymentSubscriber.Trigger)
    requires |bases| == |published|
  {
    k < |published| &&
    match e
    case OnDecision(p) => p == published[k] && p.route.AutoApprove? && SoundBasis(bases[k], p)
    case OnVerdict(p) => p.verdict.Approved? && AskedForReview(published[k], p)
  }

  /** Whatever was paid, in any interleaving with any crashes, carries out a decision that was
      published: as an auto-approval on a sound submission, or for human review and then approved;
      for that invoice, in that amount and from that department. */
  lemma MoneyMovesOnAuthority(published: seq<DecisionMadePayload>, bases: seq<Basis>, owners: map<string, string>,
                              a0: Approval.State, approvals: seq<Approval.Action>,
                              s0: PaymentSaga.State, trace: seq<PaymentSaga.Action>, seed: map<string, int>,
                              sent: set<PaymentSubscriber.Trigger>, i: string)
    requires History(published, bases, owners) && FedBy(published, a0, approvals)
    requires PaymentSaga.Init(s0, seed) && Run(PaymentSaga.Step, s0, trace).Some?
    requires PaymentSubscriber.Authorized(trace, sent)
    requires forall e | e in sent && e.OnDecision? :: e.decision in published
    requires forall e | e in sent && e.OnVerdict? :: Sent(Run(Approval.Step, a0, approvals).value, e.resolution)
    requires var s := Run(PaymentSaga.Step, s0, trace).value; i in s.sagas && s.sagas[i].state.Paid?
    ensures exists e, k: nat :: e in sent && e.Meta().invoiceId == i && Authorizes(published, bases, k, e)
                                && PaymentSubscriber.CarriesOut(Run(PaymentSaga.Step, s0, trace).value.sagas[i], e)
  {
    PaymentSubscriber.PaidOnlyIfAuthorized(s0, trace, seed, sent, i);
    var saga := Run(PaymentSaga.Step, s0, trace).value.sagas[i];
    var e :| e in sent && e.Wanted() && e.Meta().invoiceId == i && PaymentSubscriber.CarriesOut(saga, e);
    var k := AuthorityOf(published, bases, owners, a0, approvals, e);
    assert Authorizes(published, bases, k, e);
  }

  lemma AuthorityOf(published: seq<DecisionMadePayload>, bases: seq<Basis>, owners: map<string, string>,
                    a0: Approval.State, approvals: seq<Approval.Action>, e: PaymentSubscriber.Trigger) returns (k: nat)
    requires History(published, bases, owners) && FedBy(published, a0, approvals) && e.Wanted()
    requires e.OnDecision? ==> e.decision in published
    requires e.OnVerdict? ==> Sent(Run(Approval.Step, a0, approvals).value, e.resolution)
    ensures Authorizes(published, bases, k, e)
  {
    if e.OnDecision? {
      k :| 0 <= k < |published| && published[k] == e.decision;
      PublishedAutoIsSafe(published[k], bases[k], owners);
    } else {
      VerdictsAreOnDecisions(published, a0, approvals, e.resolution);
      var d :| d in published && AskedForReview(d, e.resolution);
      k :| 0 <= k < |published| && published[k] == d;
    }
  }
}
