/** Where what the approval service holds and sends comes from
    (services/approval/src/api.py, subscriptions.py). */
module ApprovalAuthority {
  import opened Wrappers
  import opened Collections
  import opened Runs
  import opened Approval
  import opened ApprovalSafety

  /** The step saves a new escalation of `i` for event `id` ... */
  ghost predicate Creates(s: State, a: Action, i: string, id: string) {
    && a.DeliveryStep? && Lookup(s.deliveries, a.c) == Some(Delivery(id, Saving))
    && id in s.sent && s.sent[id].invoice == i && i !in s.records
  }

  /** ... or reopens one that was sent back. */
  ghost predicate Reopens(s: State, a: Action, i: string, id: string) {
    && a.DeliveryStep? && Lookup(s.deliveries, a.c) == Some(Delivery(id, Reopening))
    && id in s.sent && s.sent[id].invoice == i && i in s.records && s.records[i].status.NeedsInfo?
  }

  ghost predicate Takes(s: State, a: Action, i: string, id: string) {
    Creates(s, a, i, id) || Reopens(s, a, i, id)
  }

  /** Where the decision and the correlation id in a record come from. */
  lemma RecordMoves(s: State, a: Action, i: string)
    requires Step(s, a).Some? && i in Step(s, a).value.records
    ensures var t := Step(s, a).value;
      && t.sent == s.sent
      && (forall id | Takes(s, a, i, id) :: t.records[i].decision == s.sent[id].decision)
      && (forall id | Creates(s, a, i, id) :: t.records[i].correlationId == s.sent[id].correlationId)
      && ((forall id :: !Takes(s, a, i, id)) ==> i in s.records && t.records[i].decision == s.records[i].decision)
      && ((forall id :: !Creates(s, a, i, id)) ==> i in s.records && t.records[i].correlationId == s.records[i].correlationId)
  {
    if a.DeliveryStep? {
      DeliveryRecords(s, a, i);
    } else {
      OtherRecords(s, a, i);
    }
    hide Step;
  }

  lemma DeliveryRecords(s: State, a: Action, i: string)
    requires a.DeliveryStep? && Step(s, a).Some? && i in Step(s, a).value.records
    ensures var t := Step(s, a).value;
      && t.sent == s.sent
      && (forall id | Takes(s, a, i, id) :: t.records[i].decision == s.sent[id].decision)
      && (forall id | Creates(s, a, i, id) :: t.records[i].correlationId == s.sent[id].correlationId)
      && ((forall id :: !Takes(s, a, i, id)) ==> i in s.records && t.records[i].decision == s.records[i].decision)
      && ((forall id :: !Creates(s, a, i, id)) ==> i in s.records && t.records[i].correlationId == s.records[i].correlationId)
  {
    var id := s.deliveries[a.c].id;
    assert Takes(s, a, i, id)
        || (i in s.records && Step(s, a).value.records[i] == s.records[i]);
  }

  lemma OtherRecords(s: State, a: Action, i: string)
    requires !a.DeliveryStep? && Step(s, a).Some? && i in Step(s, a).value.records
    ensures var t := Step(s, a).value;
      && t.sent == s.sent && i in s.records
      && t.records[i].decision == s.records[i].decision && t.records[i].correlationId == s.records[i].correlationId
  {
  }

  // ----- positions in a run

  /** The state before step `n` of a run. */
  ghost function At(s0: State, trace: seq<Action>, n: nat): State
    requires n <= |trace|
  {
    Run(Step, s0, trace[..n]).GetOr(s0)
  }

  /** Of the first `k` steps of the run, step `n` is the last one that created or reopened the
      escalation of `i`; it did so for event `id`. */
  ghost predicate LastTaken(s0: State, trace: seq<Action>, k: nat, n: nat, i: string, id: string) {
    && n < k <= |trace| && Takes(At(s0, trace, n), trace[n], i, id)
    && forall m: nat, x | n < m < k :: !Takes(At(s0, trace, m), trace[m], i, x)
  }

  ghost predicate DeliveriesReviewed(s: State) {
    forall c | c in s.deliveries :: s.deliveries[c].id in s.sent && s.sent[s.deliveries[c].id].humanReview
  }

  lemma DeliveriesStayReviewed(s: State, a: Action)
    requires DeliveriesReviewed(s) && Step(s, a).Some?
    ensures DeliveriesReviewed(Step(s, a).value)
  {
    var t := Step(s, a).value;
    forall c | c in t.deliveries ensures t.deliveries[c].id in t.sent && t.sent[t.deliveries[c].id].humanReview {
      StepMovesDeliveries(s, a, c);
    }
  }

  /** The events are fixed, and only those that ask for human review are in hand. */
  lemma RunKeepsReviewed(s0: State, trace: seq<Action>)
    requires Init(s0) && Run(Step, s0, trace).Some?
    ensures DeliveriesReviewed(Run(Step, s0, trace).value) && Run(Step, s0, trace).value.sent == s0.sent
  {
    var inv := (s: State) => DeliveriesReviewed(s) && s.sent == s0.sent;
    forall s, a | inv(s) && Step(s, a).Some? ensures inv(Step(s, a).value) {
      DeliveriesStayReviewed(s, a);
      StepMovesDeliveries(s, a, 0);
    }
    InvariantOfRun(Step, inv, s0, trace);
  }

  lemma StepInto(s0: State, trace: seq<Action>, k: nat)
    requires Init(s0) && Run(Step, s0, trace).Some? && 0 < k <= |trace|
    ensures var s := At(s0, trace, k - 1);
      Step(s, trace[k - 1]) == Some(At(s0, trace, k)) && DeliveriesReviewed(s) && s.sent == s0.sent
  {
    RunAt(Step, s0, trace, k - 1);
    RunKeepsReviewed(s0, trace[..k - 1]);
  }

  /** At every moment of every run, an escalation holds the decision of the event that last created
      or reopened it, which asked for human review of that invoice. */
  lemma {:induction false} DecisionIsLatest(s0: State, trace: seq<Action>, k: nat, i: string) returns (n: nat, id: string)
    requires Init(s0) && Run(Step, s0, trace).Some? && k <= |trace| && i in At(s0, trace, k).records
    ensures LastTaken(s0, trace, k, n, i, id)
    ensures id in s0.sent && s0.sent[id].humanReview && s0.sent[id].invoice == i
    ensures At(s0, trace, k).records[i].decision == s0.sent[id].decision
    decreases k
  {
    assert k > 0;
    StepInto(s0, trace, k);
    var s, a := At(s0, trace, k - 1), trace[k - 1];
    RecordMoves(s, a, i);
    hide Step, At;
    if x :| Takes(s, a, i, x) {
      n, id := k - 1, x;
    } else {
      hide Takes;
      n, id := DecisionIsLatest(s0, trace, k - 1, i);
    }
  }

  /** Its correlation id is that of the event that created it. */
  lemma {:induction false} CorrelationIsFirst(s0: State, trace: seq<Action>, k: nat, i: string) returns (n: nat, id: string)
    requires Init(s0) && Run(Step, s0, trace).Some? && k <= |trace| && i in At(s0, trace, k).records
    ensures n < k && Creates(At(s0, trace, n), trace[n], i, id)
    ensures id in s0.sent && At(s0, trace, k).records[i].correlationId == s0.sent[id].correlationId
    decreases k
  {
    assert k > 0;
    StepInto(s0, trace, k);
    var s, a := At(s0, trace, k - 1), trace[k - 1];
    RecordMoves(s, a, i);
    hide Step, At;
    if x :| Creates(s, a, i, x) {
      n, id := k - 1, x;
    } else {
      n, id := CorrelationIsFirst(s0, trace, k - 1, i);
    }
  }

  // ----- whose verdict a resolution tells

  /** At step `m` of the run verdict call `c` resolved a pending escalation with `v`, as `resolved`. */
  ghost predicate ResolvedAt(s0: State, trace: seq<Action>, m: nat, c: nat, v: Verdict, resolved: Escalation) {
    && m < |trace| && trace[m] == SubmitVerdict(c, v) && !v.status.Pending?
    && var s := At(s0, trace, m);
       && v.i in s.records && s.records[v.i].status.Pending?
       && resolved == Escalation(s.records[v.i].correlationId, v.status, s.records[v.i].decision,
                                 Some(v.approver), Some(v.now), v.comment)
  }

  lemma {:induction false} CallBegan(s0: State, trace: seq<Action>, k: nat, c: nat) returns (m: nat)
    requires Init(s0) && Run(Step, s0, trace).Some? && k <= |trace| && c in At(s0, trace, k).verdicts
    ensures m < k && var call := At(s0, trace, k).verdicts[c]; ResolvedAt(s0, trace, m, c, call.v, call.resolved)
    decreases k
  {
    assert k > 0;
    StepInto(s0, trace, k);
    var s := At(s0, trace, k - 1);
    StepMovesCalls(s, trace[k - 1], c);
    hide Step;
    if c in s.verdicts {
      m := CallBegan(s0, trace, k - 1, c);
    } else {
      m := k - 1;
    }
  }

  /** What is sent is built from the record of the call that sends it. */
  lemma SendsMove(s: State, a: Action, r: Resolution)
    requires Step(s, a).Some? && (r in Step(s, a).value.published || r in Step(s, a).value.unacked)
    ensures || r in s.published || r in s.unacked
            || ((a.PublishOk? || a.PublishUnacked?) && a.c in s.verdicts
                && var v, e := s.verdicts[a.c].v, s.verdicts[a.c].resolved;
                   r == Resolution(v.i, e.correlationId, e.status, e.resolvedBy.GetOr(""), e.comment,
                                   e.decision.usdCents, e.decision.scenario, e.decision.department))
  {
  }

  /** Every event the broker ever took tells of a call that resolved its record. */
  lemma {:induction false} SentByCall(s0: State, trace: seq<Action>, k: nat, r: Resolution)
    returns (m: nat, c: nat, v: Verdict, e: Escalation)
    requires Init(s0) && Run(Step, s0, trace).Some? && k <= |trace|
    requires r in At(s0, trace, k).published || r in At(s0, trace, k).unacked
    ensures ResolvedAt(s0, trace, m, c, v, e)
    ensures r == Resolution(v.i, e.correlationId, v.status, v.approver, v.comment,
                            e.decision.usdCents, e.decision.scenario, e.decision.department)
    decreases k
  {
    assert k > 0;
    StepInto(s0, trace, k);
    var s := At(s0, trace, k - 1);
    SendsMove(s, trace[k - 1], r);
    hide Step;
    if r in s.published || r in s.unacked {
      m, c, v, e := SentByCall(s0, trace, k - 1, r);
    } else {
      c := trace[k - 1].c;
      v, e := s.verdicts[c].v, s.verdicts[c].resolved;
      m := CallBegan(s0, trace, k - 1, c);
    }
  }

  /** In every run, each resolution the broker ever took, acknowledged or not, tells a verdict that was
      given on a pending escalation of that invoice, in the approver's words. Its amount, scenario and
      department are those of event `id`: the one that had last created or reopened the escalation,
      asking for human review of it. Its correlation id is that of the event that created it. */
  lemma ResolutionsAreBacked(s0: State, trace: seq<Action>, r: Resolution)
    returns (m: nat, c: nat, v: Verdict, n: nat, id: string, first: nat, creator: string)
    requires Init(s0) && Run(Step, s0, trace).Some?
    requires r in Run(Step, s0, trace).value.published || r in Run(Step, s0, trace).value.unacked
    ensures m < |trace| && trace[m] == SubmitVerdict(c, v) && v.i == r.i && v.status == r.status
            && v.approver == r.approver && v.comment == r.comment
    ensures r.i in At(s0, trace, m).records && At(s0, trace, m).records[r.i].status.Pending?
    ensures LastTaken(s0, trace, m, n, r.i, id)
    ensures id in s0.sent && s0.sent[id].humanReview && s0.sent[id].invoice == r.i
    ensures var d := s0.sent[id].decision; r.usdCents == d.usdCents && r.scenario == d.scenario && r.department == d.department
    ensures first < m && Creates(At(s0, trace, first), trace[first], r.i, creator)
    ensures creator in s0.sent && r.correlationId == s0.sent[creator].correlationId
  {
    assert trace[..|trace|] == trace;
    var e;
    m, c, v, e := SentByCall(s0, trace, |trace|, r);
    n, id := DecisionIsLatest(s0, trace, m, v.i);
    first, creator := CorrelationIsFirst(s0, trace, m, v.i);
  }

  // ----- what is evicted

  lemma EvictionsMove(s: State, a: Action, c: nat)
    requires Step(s, a).Some? && c in Step(s, a).value.evictions
    ensures var i := Step(s, a).value.evictions[c];
      || Lookup(s.evictions, c) == Some(i)
      || (a == EvictRead(c, i) && i in s.records && !s.records[i].status.Pending?)
  {
  }

  /** In every run, an id that is about to be evicted was read when its record was resolved. */
  lemma {:induction false} EvictionsReadResolved(s0: State, trace: seq<Action>, k: nat, c: nat) returns (m: nat)
    requires Init(s0) && Run(Step, s0, trace).Some? && k <= |trace| && c in At(s0, trace, k).evictions
    ensures var i := At(s0, trace, k).evictions[c];
      && m < k && trace[m] == EvictRead(c, i)
      && i in At(s0, trace, m).records && !At(s0, trace, m).records[i].status.Pending?
    decreases k
  {
    assert k > 0;
    StepInto(s0, trace, k);
    var s := At(s0, trace, k - 1);
    EvictionsMove(s, trace[k - 1], c);
    hide Step;
    if Lookup(s.evictions, c) == Some(At(s0, trace, k).evictions[c]) {
      m := EvictionsReadResolved(s0, trace, k - 1, c);
    } else {
      m := k - 1;
    }
  }
}
