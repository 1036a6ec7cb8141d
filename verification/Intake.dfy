/** The invoice status machine and the dashboard counters
    (services/intake/src/status.py, subscriptions.py, repo.py, api.py).

    `Step` runs event handlers and resubmissions one at a time; a submission is two steps,
    because it publishes between its two saves and events may arrive in between. */
module Intake {
  import opened Wrappers
  import opened Runs
  import opened Contracts
  import opened Text

  datatype Status =
    | Submitted | Evaluating | PendingApproval | NeedingInfo | Cleared
    | Refused | Duplicated | Paid | PaymentFailed | SubmitFailed
  {
    predicate Absorbing() {
      Refused? || Duplicated? || Paid? || PaymentFailed? || SubmitFailed?
    }
  }

  datatype Record = Record(
    correlationId: string, submission: string, status: Status, route: Option<Route>, decidedBy: Option<string>, reasoning: string)

  datatype Event =
    | InvoiceSubmitted(meta: EventMeta)
    | DecisionMade(decision: DecisionMadePayload)
    | ApprovalResolved(resolution: ApprovalResolvedPayload)
    | PaymentCompleted(completion: PaymentCompletedPayload)
    | PaymentFailure(failure: PaymentFailedPayload)
  {
    function Meta(): EventMeta {
      match this
      case InvoiceSubmitted(m) => m
      case DecisionMade(p) => p.meta
      case ApprovalResolved(p) => p.meta
      case PaymentCompleted(p) => p.meta
      case PaymentFailure(p) => p.meta
    }
  }

  /** `dashboard:counters`; a key that is not there yet counts as 0. */
  datatype Counters = Counters(
    submitted: int,
    decidedAuto: int, decidedHuman: int, decidedReject: int, decidedDuplicate: int,
    verdictApproved: int, verdictRejected: int, verdictNeedsInfo: int,
    paid: int, paidAutoCents: int, paidHumanCents: int, paymentFailed: int)

  const NO_COUNTS := Counters(0, 0, 0, 0, 0, 0, 0, 0, 0, 0, 0, 0)

  const ROUTER := "router"

  // ----- the transitions

  function DecisionTarget(r: Route): Status {
    match r
    case AutoApprove => Cleared
    case HumanReview => PendingApproval
    case Reject => Refused
    case Duplicate => Duplicated
  }

  function VerdictTarget(v: Verdict): Status {
    match v
    case Approved => Cleared
    case Rejected => Refused
    case NeedsInfo => NeedingInfo
  }

  /** `apply_*`: None is the IllegalTransition exception. */
  function Transition(r: Record, e: Event): Option<Record> {
    match e
    case InvoiceSubmitted(_) => None
    case DecisionMade(p) =>
      if r.status != Evaluating then None
      else Some(r.(status := DecisionTarget(p.route), route := Some(p.route), reasoning := p.reasoning,
                   decidedBy := if p.route.HumanReview? then None else Some(ROUTER)))
    case ApprovalResolved(p) =>
      if r.status != PendingApproval then None
      else Some(r.(status := VerdictTarget(p.verdict),
                   decidedBy := if p.verdict.NeedsInfo? then r.decidedBy else Some(p.approverId),
                   reasoning := if p.comment != "" then Strip(r.reasoning + "\nApprover: " + p.comment) else r.reasoning))
    case PaymentCompleted(_) =>
      if r.status != Cleared then None else Some(r.(status := Paid))
    case PaymentFailure(p) =>
      if r.status != Cleared then None
      else Some(r.(status := PaymentFailed, reasoning := Strip(r.reasoning + "\nPayment failed: " + p.reason)))
  }

  function CountDecision(c: Counters, r: Route): Counters {
    match r
    case AutoApprove => c.(decidedAuto := c.decidedAuto + 1)
    case HumanReview => c.(decidedHuman := c.decidedHuman + 1)
    case Reject => c.(decidedReject := c.decidedReject + 1)
    case Duplicate => c.(decidedDuplicate := c.decidedDuplicate + 1)
  }

  function CountVerdict(c: Counters, v: Verdict): Counters {
    match v
    case Approved => c.(verdictApproved := c.verdictApproved + 1)
    case Rejected => c.(verdictRejected := c.verdictRejected + 1)
    case NeedsInfo => c.(verdictNeedsInfo := c.verdictNeedsInfo + 1)
  }

  /** The bucket goes by who decided: the router's own, or a human's. */
  function CountPayment(c: Counters, decidedBy: Option<string>, cents: int): Counters {
    if decidedBy == Some(ROUTER) then c.(paid := c.paid + 1, paidAutoCents := c.paidAutoCents + cents)
    else c.(paid := c.paid + 1, paidHumanCents := c.paidHumanCents + cents)
  }

  /** The counters after event `e` moved a record to `updated`. */
  function Counted(c: Counters, e: Event, updated: Record): Counters {
    match e
    case InvoiceSubmitted(_) => c
    case DecisionMade(p) => CountDecision(c, p.route)
    case ApprovalResolved(p) => CountVerdict(c, p.verdict)
    case PaymentCompleted(p) => CountPayment(c, updated.decidedBy, p.amountCents)
    case PaymentFailure(_) => c.(paymentFailed := c.paymentFailed + 1)
  }

  // ----- the steps

  /** A payment-completed event that moved a record to `paid`, with the route it had. */
  datatype Payment = Payment(invoice: string, amountCents: int, auto: bool)

  /** `submitting` are the submissions between their two saves; `resubmits` and `payments` are history. */
  datatype State = State(
    records: map<string, Record>, marks: set<string>, counters: Counters,
    submitting: set<string>, resubmits: nat, payments: seq<Payment>)

  datatype Action =
    | SubmitBegin(i: string, correlationId: string, submission: string)
    | SubmitEnd(i: string, publishOk: bool)
    | Resubmit(i: string, submission: string)
    | Deliver(e: Event)

  /** What `e` makes of the record of its invoice; None when it does not apply. */
  function Applied(s: State, e: Event): Option<Record> {
    if e.Meta().invoiceId in s.records then Transition(s.records[e.Meta().invoiceId], e) else None
  }

  function PaymentsOf(e: Event, updated: Record): seq<Payment> {
    if e.PaymentCompleted? then [Payment(e.Meta().invoiceId, e.completion.amountCents, updated.route == Some(AutoApprove))]
    else []
  }

  /** A fresh event: marked, and applied to its record and the counters if it applies. */
  function Delivered(s: State, e: Event): State {
    match Applied(s, e)
    case None => s.(marks := s.marks + {e.Meta().eventId})
    case Some(updated) =>
      s.(marks := s.marks + {e.Meta().eventId},
         records := s.records[e.Meta().invoiceId := updated],
         counters := Counted(s.counters, e, updated),
         payments := s.payments + PaymentsOf(e, updated))
  }

  function Step(s: State, a: Action): Option<State> {
    match a
    case SubmitBegin(i, correlationId, submission) =>
      if i in s.records then None
      else Some(s.(records := s.records[i := Record(correlationId, submission, Submitted, None, None, "")],
                   submitting := s.submitting + {i}))
    case SubmitEnd(i, publishOk) =>
      if i !in s.submitting || i !in s.records then None
      else if !publishOk then
        Some(s.(records := s.records[i := s.records[i].(status := SubmitFailed)], submitting := s.submitting - {i}))
      else
        Some(s.(records := s.records[i := s.records[i].(status := Evaluating)], submitting := s.submitting - {i},
                counters := s.counters.(submitted := s.counters.submitted + 1)))
    case Resubmit(i, submission) =>
      if i !in s.records || s.records[i].status != NeedingInfo then Some(s)
      else Some(s.(records := s.records[i := s.records[i].(submission := submission, status := Evaluating)],
                   resubmits := s.resubmits + 1))
    case Deliver(e) =>
      if e.Meta().eventId in s.marks then Some(s) else Some(Delivered(s, e))
  }

  ghost predicate Init(s: State) {
    s == State(map[], {}, NO_COUNTS, {}, 0, [])
  }
}
