/** Conservation laws between the invoice population and the dashboard counters, over arbitrary
    duplicate, unknown and out-of-order events. */
module IntakeLaws {
  import opened Wrappers
  import opened Collections
  import opened Runs
  import opened Sums
  import opened Contracts
  import opened Text
  import opened Intake

  // ----- populations

  ghost function In(r: Option<Record>, group: set<Status>): int {
    if r.Some? && r.value.status in group then 1 else 0
  }

  /** How many invoices have a status in `group`. */
  ghost function Population(records: map<string, Record>, group: set<Status>): int {
    Sum(records.Keys, i => In(Lookup(records, i), group))
  }

  lemma PopulationAfter(records: map<string, Record>, i: string, r: Record, group: set<Status>)
    ensures Population(records[i := r], group) == Population(records, group) - In(Lookup(records, i), group) + In(Some(r), group)
  {
    var f := (j: string) => In(Lookup(records, j), group);
    var g := (j: string) => In(Lookup(records[i := r], j), group);
    SumUpdate(records.Keys, f, g, i);
    assert records[i := r].Keys == records.Keys + {i};
    assert Sum(records.Keys, f) == Population(records, group);
    assert Sum(records[i := r].Keys, g) == Population(records[i := r], group);
  }

  // ----- the laws

  datatype Law =
    | EvaluatingLaw | PendingLaw | NeedingInfoLaw | ClearedLaw | RefusedLaw | DuplicateLaw | PaidLaw | PaymentFailedLaw

  ghost function Group(law: Law): set<Status> {
    match law
    case EvaluatingLaw => {Evaluating}
    case PendingLaw => {PendingApproval}
    case NeedingInfoLaw => {NeedingInfo}
    case ClearedLaw => {Cleared, Paid, PaymentFailed}
    case RefusedLaw => {Refused}
    case DuplicateLaw => {Duplicated}
    case PaidLaw => {Paid}
    case PaymentFailedLaw => {PaymentFailed}
  }

  function Decided(c: Counters): int {
    c.decidedAuto + c.decidedHuman + c.decidedReject + c.decidedDuplicate
  }

  function Verdicts(c: Counters): int {
    c.verdictApproved + c.verdictRejected + c.verdictNeedsInfo
  }

  /** What the counters say about the size of the group. */
  ghost function Tally(law: Law, c: Counters, resubmits: int): int {
    match law
    case EvaluatingLaw => c.submitted + resubmits - Decided(c)
    case PendingLaw => c.decidedHuman - Verdicts(c)
    case NeedingInfoLaw => c.verdictNeedsInfo - resubmits
    case ClearedLaw => c.decidedAuto + c.verdictApproved
    case RefusedLaw => c.decidedReject + c.verdictRejected
    case DuplicateLaw => c.decidedDuplicate
    case PaidLaw => c.paid
    case PaymentFailedLaw => c.paymentFailed
  }

  ghost predicate LawHolds(s: State, law: Law) {
    Population(s.records, Group(law)) == Tally(law, s.counters, s.resubmits)
  }

  /** A step that writes one record keeps a law if the counters move by what the population does. */
  lemma OneWriteKeepsLaw(s: State, t: State, i: string, u: Record, law: Law)
    requires LawHolds(s, law) && t.records == s.records[i := u]
    requires Tally(law, t.counters, t.resubmits) - Tally(law, s.counters, s.resubmits)
          == In(Some(u), Group(law)) - In(Lookup(s.records, i), Group(law))
    ensures LawHolds(t, law)
  {
    hide Tally, Group, In;
    PopulationAfter(s.records, i, u, Group(law));
  }

  /** An event changes the counters of each law by what it changes in the population. */
  lemma DeliveryBalances(c: Counters, resubmits: int, r: Record, e: Event, law: Law)
    requires Transition(r, e).Some?
    ensures var u := Transition(r, e).value;
      Tally(law, Counted(c, e, u), resubmits) - Tally(law, c, resubmits) == In(Some(u), Group(law)) - In(Some(r), Group(law))
  {
    hide Strip;
  }

  lemma DeliveryKeepsLaw(s: State, e: Event, law: Law)
    requires LawHolds(s, law)
    ensures LawHolds(Delivered(s, e), law)
  {
    var i := e.Meta().invoiceId;
    if Applied(s, e).Some? {
      DeliveryBalances(s.counters, s.resubmits, s.records[i], e, law);
      hide Transition, Counted, LawHolds, Tally, Group, In;
      OneWriteKeepsLaw(s, Delivered(s, e), i, Applied(s, e).value, law);
    }
  }

  lemma StepKeepsLaw(s: State, a: Action, law: Law)
    requires LawHolds(s, law) && SubmittingOk(s) && Step(s, a).Some?
    ensures LawHolds(Step(s, a).value, law)
  {
    var t := Step(s, a).value;
    if a.Deliver? {
      DeliveryKeepsLaw(s, a.e, law);
    } else {
      hide LawHolds;
      if t.records != s.records {
        OneWriteKeepsLaw(s, t, a.i, t.records[a.i], law);
      }
    }
  }

  /** The submissions in flight are the records with status `submitted`. */
  ghost predicate SubmittingOk(s: State) {
    forall i :: i in s.submitting <==> i in s.records && s.records[i].status == Submitted
  }

  lemma TransitionStatus(r: Record, e: Event)
    requires Transition(r, e).Some?
    ensures !r.status.Absorbing() && r.status != Submitted && Transition(r, e).value.status != Submitted
    ensures (r.status == Cleared || r.status == PendingApproval || r.status == Evaluating)
    ensures Transition(r, e).value.status == Paid <==> e.PaymentCompleted?
  {
  }

  lemma StepKeepsSubmitting(s: State, a: Action)
    requires SubmittingOk(s) && Step(s, a).Some?
    ensures SubmittingOk(Step(s, a).value)
  {
    if a.Deliver? && Applied(s, a.e).Some? {
      TransitionStatus(s.records[a.e.Meta().invoiceId], a.e);
    }
    hide Transition, Counted;
  }

  // ----- the money

  function Amounts(payments: seq<Payment>): int {
    if payments == [] then 0 else Amounts(payments[..|payments| - 1]) + payments[|payments| - 1].amountCents
  }

  function AutoAmounts(payments: seq<Payment>): int {
    if payments == [] then 0
    else AutoAmounts(payments[..|payments| - 1]) + if payments[|payments| - 1].auto then payments[|payments| - 1].amountCents else 0
  }

  ghost predicate PaidFor(payments: seq<Payment>, i: string) {
    exists k :: 0 <= k < |payments| && payments[k].invoice == i
  }

  /** The applied payments are those of the paid invoices, one each. */
  ghost predicate PaidOnce(records: map<string, Record>, payments: seq<Payment>) {
    && (forall k | 0 <= k < |payments| :: payments[k].invoice in records && records[payments[k].invoice].status == Paid)
    && (forall k, l | 0 <= k < l < |payments| :: payments[k].invoice != payments[l].invoice)
    && (forall i | i in records && records[i].status == Paid :: PaidFor(payments, i))
  }

  ghost predicate BucketsAddUp(s: State) {
    s.counters.paidAutoCents + s.counters.paidHumanCents == Amounts(s.payments)
  }

  lemma AmountsSnoc(payments: seq<Payment>, p: Payment)
    ensures Amounts(payments + [p]) == Amounts(payments) + p.amountCents
    ensures AutoAmounts(payments + [p]) == AutoAmounts(payments) + if p.auto then p.amountCents else 0
  {
    assert (payments + [p])[..|payments + [p]| - 1] == payments;
  }

  lemma PaidOnceAfter(records: map<string, Record>, payments: seq<Payment>, i: string, u: Record, more: seq<Payment>)
    requires PaidOnce(records, payments)
    requires i in records ==> records[i].status != Paid
    requires if u.status == Paid then |more| == 1 && more[0].invoice == i else more == []
    ensures PaidOnce(records[i := u], payments + more)
  {
    forall j | j in records[i := u] && records[i := u][j].status == Paid ensures PaidFor(payments + more, j) {
      if j == i {
        assert (payments + more)[|payments|].invoice == i;
      } else {
        assert PaidFor(payments, j);
        var k :| 0 <= k < |payments| && payments[k].invoice == j;
        assert (payments + more)[k].invoice == j;
      }
    }
  }

  lemma CentsMove(c: Counters, e: Event, u: Record, payments: seq<Payment>)
    requires c.paidAutoCents + c.paidHumanCents == Amounts(payments)
    ensures var t := Counted(c, e, u); t.paidAutoCents + t.paidHumanCents == Amounts(payments + PaymentsOf(e, u))
  {
    var more := PaymentsOf(e, u);
    if e.PaymentCompleted? {
      var p := Payment(e.Meta().invoiceId, e.completion.amountCents, u.route == Some(AutoApprove));
      assert more == [p];
      AmountsSnoc(payments, p);
    } else {
      assert payments + more == payments;
    }
    hide Amounts, PaymentsOf;
  }

  lemma DeliveryKeepsMoney(s: State, e: Event)
    requires PaidOnce(s.records, s.payments) && BucketsAddUp(s)
    ensures PaidOnce(Delivered(s, e).records, Delivered(s, e).payments) && BucketsAddUp(Delivered(s, e))
  {
    var i := e.Meta().invoiceId;
    if Applied(s, e).Some? {
      var u := Applied(s, e).value;
      TransitionStatus(s.records[i], e);
      hide Transition, PaidOnce, Amounts, Counted;
      PaidOnceAfter(s.records, s.payments, i, u, PaymentsOf(e, u));
      CentsMove(s.counters, e, u, s.payments);
    }
  }

  lemma StepKeepsMoney(s: State, a: Action)
    requires PaidOnce(s.records, s.payments) && BucketsAddUp(s) && SubmittingOk(s) && Step(s, a).Some?
    ensures var t := Step(s, a).value; PaidOnce(t.records, t.payments) && BucketsAddUp(t)
  {
    if a.Deliver? {
      DeliveryKeepsMoney(s, a.e);
    } else {
      var t := Step(s, a).value;
      hide PaidOnce;
      if t.records != s.records {
        PaidOnceAfter(s.records, s.payments, a.i, t.records[a.i], []);
        assert s.payments + [] == s.payments;
      }
    }
  }

  ghost predicate Inv(s: State) {
    && (forall law :: LawHolds(s, law))
    && SubmittingOk(s)
    && PaidOnce(s.records, s.payments) && BucketsAddUp(s)
  }

  lemma StepKeepsInv(s: State, a: Action)
    requires Inv(s) && Step(s, a).Some?
    ensures Inv(Step(s, a).value)
  {
    hide Step, LawHolds, SubmittingOk, PaidOnce, BucketsAddUp;
    var t := Step(s, a).value;
    StepKeepsMoney(s, a);
    StepKeepsSubmitting(s, a);
    forall law ensures LawHolds(t, law) { StepKeepsLaw(s, a, law); }
  }

  lemma EmptyPopulation(group: set<Status>)
    ensures Population(map[], group) == 0
  {
    var none: map<string, Record> := map[];
    assert none.Keys == {};
  }

  lemma InitialLaw(s0: State, law: Law)
    requires Init(s0)
    ensures LawHolds(s0, law)
  {
    hide Population, Group;
    EmptyPopulation(Group(law));
  }

  lemma InitiallyInv(s0: State)
    requires Init(s0)
    ensures Inv(s0)
  {
    forall law ensures LawHolds(s0, law) { InitialLaw(s0, law); }
    hide LawHolds;
  }

  lemma RunKeepsInv(s0: State, trace: seq<Action>)
    requires Init(s0) && Run(Step, s0, trace).Some?
    ensures Inv(Run(Step, s0, trace).value)
  {
    InitiallyInv(s0);
    hide Step, Inv;
    forall s, a | Inv(s) && Step(s, a).Some? ensures Inv(Step(s, a).value) { StepKeepsInv(s, a); }
    InvariantOfRun(Step, Inv, s0, trace);
  }

  // ----- the theorems

  /** The laws, spelled out. */
  ghost predicate PopulationCounted(records: map<string, Record>, c: Counters, resubmits: int) {
    && c.submitted + resubmits == Population(records, {Evaluating}) + Decided(c)
    && c.decidedHuman == Population(records, {PendingApproval}) + Verdicts(c)
    && c.verdictNeedsInfo == Population(records, {NeedingInfo}) + resubmits
    && c.decidedAuto + c.verdictApproved == Population(records, {Cleared, Paid, PaymentFailed})
    && c.decidedReject + c.verdictRejected == Population(records, {Refused})
    && c.decidedDuplicate == Population(records, {Duplicated})
    && c.paid == Population(records, {Paid})
    && c.paymentFailed == Population(records, {PaymentFailed})
  }

  lemma SpelledOut(s: State)
    requires forall law :: LawHolds(s, law)
    ensures PopulationCounted(s.records, s.counters, s.resubmits)
  {
    hide Population;
    assert LawHolds(s, EvaluatingLaw) && LawHolds(s, PendingLaw) && LawHolds(s, NeedingInfoLaw) && LawHolds(s, ClearedLaw);
    assert LawHolds(s, RefusedLaw) && LawHolds(s, DuplicateLaw) && LawHolds(s, PaidLaw) && LawHolds(s, PaymentFailedLaw);
  }

  /** At the end of every run the counters agree with the population of the records. */
  lemma PopulationLaws(s0: State, trace: seq<Action>)
    requires Init(s0) && Run(Step, s0, trace).Some?
    ensures var s := Run(Step, s0, trace).value; PopulationCounted(s.records, s.counters, s.resubmits)
  {
    hide Step, LawHolds, PopulationCounted;
    RunKeepsInv(s0, trace);
    SpelledOut(Run(Step, s0, trace).value);
  }

  /** Every paid cent is in one of the two buckets, for an invoice that is paid and was paid once. */
  lemma PaidCentsAreCounted(s0: State, trace: seq<Action>)
    requires Init(s0) && Run(Step, s0, trace).Some?
    ensures var s := Run(Step, s0, trace).value; PaidOnce(s.records, s.payments) && BucketsAddUp(s)
  {
    RunKeepsInv(s0, trace);
  }

  ghost predicate KeepsAbsorbed(s: State, t: State) {
    forall i | i in s.records && s.records[i].status.Absorbing() :: i in t.records && t.records[i] == s.records[i]
  }

  lemma StepKeepsAbsorbed(s: State, a: Action)
    requires SubmittingOk(s) && Step(s, a).Some?
    ensures KeepsAbsorbed(s, Step(s, a).value)
  {
    if a.Deliver? && Applied(s, a.e).Some? {
      TransitionStatus(s.records[a.e.Meta().invoiceId], a.e);
    }
    hide Transition, Counted;
  }

  /** Rejected, duplicate, paid, payment-failed and submit-failed records never change again. */
  lemma AbsorbingIsFinal(s0: State, before: seq<Action>, after: seq<Action>)
    requires Init(s0) && Run(Step, s0, before).Some? && Run(Step, Run(Step, s0, before).value, after).Some?
    ensures KeepsAbsorbed(Run(Step, s0, before).value, Run(Step, Run(Step, s0, before).value, after).value)
  {
    RunKeepsInv(s0, before);
    hide Step, LawHolds, PaidOnce, BucketsAddUp;
    forall s, a | SubmittingOk(s) && Step(s, a).Some?
      ensures SubmittingOk(Step(s, a).value) && KeepsAbsorbed(s, Step(s, a).value) {
      StepKeepsSubmitting(s, a);
      StepKeepsAbsorbed(s, a);
    }
    hide SubmittingOk;
    RelationOfRun(Step, SubmittingOk, KeepsAbsorbed, Run(Step, s0, before).value, after);
  }

  // ----- whose money the buckets hold

  predicate ByRouterNamesake(a: Action) {
    a.Deliver? && a.e.ApprovalResolved? && a.e.resolution.approverId == ROUTER
  }

  /** No approver goes by the router's name. */
  ghost predicate NoNamesake(trace: seq<Action>) {
    forall a | a in trace :: !ByRouterNamesake(a)
  }

  /** A pending record was sent to humans; a cleared one is booked as the router's exactly when
      it was auto-approved. */
  ghost predicate RecordAttributed(r: Record) {
    && (r.status == Cleared ==> (r.decidedBy == Some(ROUTER) <==> r.route == Some(AutoApprove)))
    && (r.status == PendingApproval ==> r.route == Some(HumanReview))
  }

  ghost predicate AttributionOk(s: State) {
    && (forall i | i in s.records :: RecordAttributed(s.records[i]))
    && s.counters.paidAutoCents == AutoAmounts(s.payments)
  }

  lemma TransitionAttributed(r: Record, e: Event)
    requires RecordAttributed(r) && Transition(r, e).Some? && !ByRouterNamesake(Deliver(e))
    ensures RecordAttributed(Transition(r, e).value)
  {
  }

  lemma PaymentAttributed(c: Counters, r: Record, e: Event, payments: seq<Payment>)
    requires RecordAttributed(r) && Transition(r, e).Some? && c.paidAutoCents == AutoAmounts(payments)
    ensures var u := Transition(r, e).value; Counted(c, e, u).paidAutoCents == AutoAmounts(payments + PaymentsOf(e, u))
  {
    var u := Transition(r, e).value;
    var more := PaymentsOf(e, u);
    if e.PaymentCompleted? {
      var p := Payment(e.Meta().invoiceId, e.completion.amountCents, u.route == Some(AutoApprove));
      assert more == [p];
      AmountsSnoc(payments, p);
    } else {
      assert payments + more == payments;
    }
    hide Amounts, AutoAmounts, PaymentsOf;
  }

  lemma StepKeepsAttribution(s: State, a: Action)
    requires AttributionOk(s) && Step(s, a).Some? && !ByRouterNamesake(a)
    ensures AttributionOk(Step(s, a).value)
  {
    if a.Deliver? && Applied(s, a.e).Some? {
      var r := s.records[a.e.Meta().invoiceId];
      TransitionAttributed(r, a.e);
      PaymentAttributed(s.counters, r, a.e, s.payments);
      hide Transition, Counted, RecordAttributed;
      assert RecordAttributed(Applied(s, a.e).value);
    }
  }

  lemma {:induction false} RunKeepsAttribution(s: State, trace: seq<Action>)
    requires AttributionOk(s) && Run(Step, s, trace).Some? && NoNamesake(trace)
    ensures AttributionOk(Run(Step, s, trace).value)
    decreases |trace|
  {
    hide Step, AttributionOk;
    if trace != [] {
      assert trace[0] in trace;
      StepKeepsAttribution(s, trace[0]);
      RunKeepsAttribution(Step(s, trace[0]).value, trace[1..]);
    }
  }

  /** `paid_auto_cents` is what was paid on auto-approvals and `paid_human_cents` the rest, as
      long as no approver is called "router". */
  lemma BucketsFollowRoutes(s0: State, trace: seq<Action>)
    requires Init(s0) && Run(Step, s0, trace).Some? && NoNamesake(trace)
    ensures var s := Run(Step, s0, trace).value;
      && s.counters.paidAutoCents == AutoAmounts(s.payments)
      && s.counters.paidHumanCents == Amounts(s.payments) - AutoAmounts(s.payments)
  {
    RunKeepsInv(s0, trace);
    RunKeepsAttribution(s0, trace);
  }

  /** One verdict decides: payment of an approved record goes to the human bucket exactly when
      the approver's id is not "router". */
  lemma BucketRightIff(c: Counters, r: Record, p: ApprovalResolvedPayload, paid: PaymentCompletedPayload)
    requires r.status == PendingApproval && p.verdict.Approved? && paid.amountCents > 0
    ensures var cleared := Transition(r, ApprovalResolved(p));
      && cleared.Some? && Transition(cleared.value, PaymentCompleted(paid)).Some?
      && var after := Counted(c, PaymentCompleted(paid), Transition(cleared.value, PaymentCompleted(paid)).value);
         (after.paidHumanCents == c.paidHumanCents + paid.amountCents <==> p.approverId != ROUTER)
  {
  }

  // ----- the submission window

  /** A decision that arrives before the submission's second save is lost: it is marked and acked
      without effect, and delivering it again after the save changes nothing. */
  lemma EarlyDecisionIsLost(s: State, e: Event)
    requires SubmittingOk(s) && e.DecisionMade? && e.Meta().eventId !in s.marks && e.Meta().invoiceId in s.submitting
    ensures var i := e.Meta().invoiceId;
      var t := Run(Step, s, [Deliver(e)] + ([SubmitEnd(i, true)] + ([Deliver(e)] + [])));
      && t.Some? && i in t.value.records && t.value.records[i].status == Evaluating
      && e.Meta().eventId in t.value.marks && t.value.counters == s.counters.(submitted := s.counters.submitted + 1)
  {
    var i := e.Meta().invoiceId;
    var s1 := Step(s, Deliver(e)).value;
    assert Applied(s, e).None?;
    var s2 := Step(s1, SubmitEnd(i, true)).value;
    assert Step(s2, Deliver(e)) == Some(s2);
    hide Step;
    RunCons(Step, s2, Deliver(e), []);
    RunCons(Step, s1, SubmitEnd(i, true), [Deliver(e)] + []);
    RunCons(Step, s, Deliver(e), [SubmitEnd(i, true)] + ([Deliver(e)] + []));
  }

  /** A first-time decision takes effect exactly when the record is being evaluated by then. */
  lemma DecisionAppliesIff(s: State, e: Event)
    requires e.DecisionMade? && e.Meta().eventId !in s.marks
    ensures var t := Step(s, Deliver(e)).value; var i := e.Meta().invoiceId;
      Decided(t.counters) == Decided(s.counters) + (if i in s.records && s.records[i].status == Evaluating then 1 else 0)
  {
  }
}
