/** The intake handlers and endpoints as the service runs them (services/intake/src/api.py,
    subscriptions.py, repo.py): each call takes exactly the steps of Intake, so the laws of
    IntakeLaws hold of the dashboard after every call. */
module IntakeService {
  import opened Wrappers
  import opened Runs
  import opened Contracts
  import opened Intake
  import opened IntakeLaws
  import opened Text

  datatype Response = Accepted202(status: Status) | NotFound404 | Conflict409(status: Status) | Unavailable503 | Error500

  ghost function Start(): State {
    State(map[], {}, NO_COUNTS, {}, 0, [])
  }

  /** Only records that are there are between their two saves. */
  lemma OnlyKnownSubmitting(trace: seq<Action>, s: State, i: string)
    requires LeadsTo(Step, Start(), trace, s)
    ensures i in s.submitting ==> i in s.records
  {
    RunKeepsInv(Start(), trace);
    hide LawHolds, PaidOnce, BucketsAddUp, Step;
  }

  /** The record an applied event leaves: its status, and the decision, the approver's comment or
      the reason of a failed payment in so many words. */
  ghost predicate Tells(r: Record, was: Record, e: Event) {
    && r.correlationId == was.correlationId && r.submission == was.submission
    && match e
       case InvoiceSubmitted(_) => false
       case DecisionMade(p) =>
         && (r.status.Cleared? <==> p.route.AutoApprove?) && (r.status.PendingApproval? <==> p.route.HumanReview?)
         && (r.status.Refused? <==> p.route.Reject?) && (r.status.Duplicated? <==> p.route.Duplicate?)
         && r.route == Some(p.route) && r.reasoning == p.reasoning
         && r.decidedBy == (if p.route.HumanReview? then None else Some("router"))
       case ApprovalResolved(p) =>
         && (r.status.Cleared? <==> p.verdict.Approved?) && (r.status.Refused? <==> p.verdict.Rejected?)
         && (r.status.NeedingInfo? <==> p.verdict.NeedsInfo?) && r.route == was.route
         && r.decidedBy == (if p.verdict.NeedsInfo? then was.decidedBy else Some(p.approverId))
         && r.reasoning == (if p.comment == "" then was.reasoning else Strip(was.reasoning + "\nApprover: " + p.comment))
       case PaymentCompleted(_) => r.status.Paid? && r.route == was.route && r.decidedBy == was.decidedBy && r.reasoning == was.reasoning
       case PaymentFailure(p) =>
         && r.status.PaymentFailed? && r.route == was.route && r.decidedBy == was.decidedBy
         && r.reasoning == Strip(was.reasoning + "\nPayment failed: " + p.reason)
  }

  lemma TransitionTells(r: Record, e: Event)
    ensures Transition(r, e).Some? <==>
      match e
      case InvoiceSubmitted(_) => false
      case DecisionMade(_) => r.status.Evaluating?
      case ApprovalResolved(_) => r.status.PendingApproval?
      case PaymentCompleted(_) => r.status.Cleared?
      case PaymentFailure(_) => r.status.Cleared?
    ensures Transition(r, e).Some? ==> Tells(Transition(r, e).value, r, e)
  {
  }

  class IntakeService {
    var records: map<string, Record>
    var marks: set<string>
    var counters: Counters
    /** History: submissions between their saves, resubmissions, applied payments, all steps. */
    ghost var submitting: set<string>
    ghost var resubmits: nat
    ghost var payments: seq<Payment>
    ghost var trace: seq<Action>

    ghost function Now(): State
      reads this
    {
      State(records, marks, counters, submitting, resubmits, payments)
    }

    ghost predicate Valid()
      reads this
    {
      LeadsTo(Step, Start(), trace, Now())
    }

    constructor ()
      ensures Valid() && trace == [] && records == map[] && counters == NO_COUNTS
    {
      records, marks, counters, submitting, resubmits, payments, trace := map[], {}, NO_COUNTS, {}, 0, [], [];
    }

    /** The first save of a submission. */
    method SaveSubmitted(i: string, correlationId: string, submission: string) returns (record: Record)
      requires Valid() && i !in records
      modifies this
      ensures Valid() && trace == old(trace) + [SubmitBegin(i, correlationId, submission)]
      ensures record == Record(correlationId, submission, Submitted, None, None, "") && records == old(records)[i := record]
      ensures marks == old(marks) && counters == old(counters) && submitting == old(submitting) + {i}
    {
      OneMore(Step, Start(), trace, Now(), SubmitBegin(i, correlationId, submission));
      hide LeadsTo;
      record := Record(correlationId, submission, Submitted, None, None, "");
      records := records[i := record];
      submitting, trace := submitting + {i}, trace + [SubmitBegin(i, correlationId, submission)];
    }

    /** The second save, of the handler's own copy, and the count of an accepted submission. */
    method SaveOutcome(i: string, record: Record, publishOk: bool)
      requires Valid() && i in submitting && i in records && records[i] == record
      modifies this
      ensures Valid() && trace == old(trace) + [SubmitEnd(i, publishOk)]
      ensures records == old(records)[i := record.(status := if publishOk then Evaluating else SubmitFailed)]
      ensures counters == if publishOk then old(counters).(submitted := old(counters).submitted + 1) else old(counters)
      ensures marks == old(marks) && submitting == old(submitting) - {i}
    {
      OneMore(Step, Start(), trace, Now(), SubmitEnd(i, publishOk));
      hide LeadsTo;
      submitting, trace := submitting - {i}, trace + [SubmitEnd(i, publishOk)];
      if publishOk {
        records := records[i := record.(status := Evaluating)];
        counters := counters.(submitted := counters.submitted + 1);
      } else {
        records := records[i := record.(status := SubmitFailed)];
      }
    }

    /** `submit`: saved as `submitted`, published, saved again as `evaluating` or `submit_failed`. */
    method Submit(i: string, correlationId: string, submission: string, publishOk: bool) returns (r: Response)
      requires Valid() && i !in records
      modifies this
      ensures Valid() && trace == old(trace) + [SubmitBegin(i, correlationId, submission)] + [SubmitEnd(i, publishOk)]
      ensures r == if publishOk then Accepted202(Evaluating) else Unavailable503
      ensures marks == old(marks) && submitting == old(submitting)
      ensures records == old(records)[i := Record(correlationId, submission, if publishOk then Evaluating else SubmitFailed, None, None, "")]
      ensures counters == if publishOk then old(counters).(submitted := old(counters).submitted + 1) else old(counters)
    {
      OnlyKnownSubmitting(trace, Now(), i);
      hide LeadsTo, Step;
      var record := SaveSubmitted(i, correlationId, submission);
      SaveOutcome(i, record, publishOk);
      r := if publishOk then Accepted202(Evaluating) else Unavailable503;
    }

    /** `resubmit`: only from `needs_info`; the save stands even when the publish fails. */
    method Resubmit(i: string, submission: string, publishOk: bool) returns (r: Response)
      requires Valid()
      modifies this
      ensures Valid() && trace == old(trace) + [Action.Resubmit(i, submission)] && marks == old(marks) && counters == old(counters)
      ensures r == NotFound404 <==> i !in old(records)
      ensures i in old(records) && old(records)[i].status != NeedingInfo ==> r == Conflict409(old(records)[i].status)
      ensures r.NotFound404? || r.Conflict409? ==> records == old(records)
      ensures i in old(records) && old(records)[i].status == NeedingInfo ==>
        && r == (if publishOk then Accepted202(Evaluating) else Error500)
        && records == old(records)[i := old(records)[i].(submission := submission, status := Evaluating)]
    {
      OneMore(Step, Start(), trace, Now(), Action.Resubmit(i, submission));
      trace := trace + [Action.Resubmit(i, submission)];
      if i !in records { return NotFound404; }
      var record := records[i];
      if record.status != NeedingInfo { return Conflict409(record.status); }
      records := records[i := record.(submission := submission, status := Evaluating)];
      resubmits := resubmits + 1;
      r := if publishOk then Accepted202(Evaluating) else Error500;
    }

    /** Any of the five event handlers: first time only, the record moves if the event applies,
        and exactly then the counters do. */
    method OnEvent(e: Event) returns (updated: Option<Record>)
      requires Valid()
      modifies this
      ensures Valid() && trace == old(trace) + [Deliver(e)] && Some(Now()) == Step(old(Now()), Deliver(e))
      ensures marks == old(marks) + {e.Meta().eventId}
      ensures updated == if e.Meta().eventId !in old(marks) && e.Meta().invoiceId in old(records)
                         then Transition(old(records)[e.Meta().invoiceId], e) else None
      ensures updated.Some? <==>
        && e.Meta().eventId !in old(marks) && e.Meta().invoiceId in old(records)
        && (match e
            case InvoiceSubmitted(_) => false
            case DecisionMade(_) => old(records)[e.Meta().invoiceId].status.Evaluating?
            case ApprovalResolved(_) => old(records)[e.Meta().invoiceId].status.PendingApproval?
            case PaymentCompleted(_) => old(records)[e.Meta().invoiceId].status.Cleared?
            case PaymentFailure(_) => old(records)[e.Meta().invoiceId].status.Cleared?)
      ensures updated.Some? ==> Tells(updated.value, old(records)[e.Meta().invoiceId], e)
      ensures updated.None? ==> records == old(records) && counters == old(counters)
      ensures updated.Some? ==> records == old(records)[e.Meta().invoiceId := updated.value]
                                && counters == Counted(old(counters), e, updated.value)
    {
      hide LeadsTo, Counted, Transition, Tells;
      OneMore(Step, Start(), trace, Now(), Deliver(e));
      trace := trace + [Deliver(e)];
      var i := e.Meta().invoiceId;
      if e.Meta().eventId in marks {
        assert marks == marks + {e.Meta().eventId};
        return None;
      }
      marks := marks + {e.Meta().eventId};
      if i !in records { return None; }
      TransitionTells(records[i], e);
      updated := Transition(records[i], e);
      if updated.None? { return; }
      records := records[i := updated.value];
      counters := Counted(counters, e, updated.value);
      payments := payments + PaymentsOf(e, updated.value);
    }
  }

  /** After any sequence of calls the dashboard counts exactly the records there are. */
  lemma DashboardIsExact(intake: IntakeService)
    requires intake.Valid()
    ensures PopulationCounted(intake.records, intake.counters, intake.resubmits)
    ensures intake.counters.paidAutoCents + intake.counters.paidHumanCents == Amounts(intake.payments)
  {
    PopulationLaws(Start(), intake.trace);
    PaidCentsAreCounted(Start(), intake.trace);
  }
}
