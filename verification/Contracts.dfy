/** The payloads the services exchange (libs/afcommon/afcommon/contracts.py, events.py). */
module Contracts {
  import opened Wrappers

  datatype Route = AutoApprove | HumanReview | Reject | Duplicate

  datatype Verdict = Approved | Rejected | NeedsInfo

  datatype EventMeta = EventMeta(eventId: string, invoiceId: string, correlationId: string)

  datatype DecisionMadePayload = DecisionMadePayload(
    meta: EventMeta, route: Route, recommendation: string, confidence: Option<real>,
    violations: seq<string>, reasoning: string, usdCents: int, ceilingCents: int,
    scenario: string, department: string)

  datatype ApprovalResolvedPayload = ApprovalResolvedPayload(
    meta: EventMeta, verdict: Verdict, approverId: string, comment: string,
    usdCents: int, scenario: string, department: string)

  datatype PaymentCompletedPayload = PaymentCompletedPayload(meta: EventMeta, amountCents: int)

  datatype PaymentFailedPayload = PaymentFailedPayload(meta: EventMeta, reason: string)
}
