/** The payment service's two event handlers (services/payment/src/subscriptions.py):
    filter, mark, run the saga, forget on failure. */
module PaymentSubscriber {
  import opened Wrappers
  import opened Collections
  import opened Runs
  import opened Contracts
  import opened PaymentSaga
  import opened PaymentService
  import SagaSafety
  import SagaTheorems

  /** An inbound event of either topic. */
  datatype Trigger = OnDecision(decision: DecisionMadePayload) | OnVerdict(resolution: ApprovalResolvedPayload) {
    function Meta(): EventMeta {
      if OnDecision? then decision.meta else resolution.meta
    }

    /** The filter: only these events may ever move money. */
    predicate Wanted() {
      if OnDecision? then decision.route.AutoApprove? else resolution.verdict.Approved?
    }

    /** The arguments `handle` gets; `injection` is the provider's flag at that time. */
    function AsRequest(injection: bool): Request {
      match this
      case OnDecision(p) =>
        Request(p.meta.correlationId, p.department, p.usdCents, p.scenario, true, Some(p.ceilingCents), injection)
      case OnVerdict(p) =>
        Request(p.meta.correlationId, p.department, p.usdCents, p.scenario, false, None, injection)
    }
  }

  datatype Outcome = Acked | Raised | Crashed

  /** Every saga call was begun for a wanted event of that invoice. */
  ghost predicate Authorized(trace: seq<Action>, sent: set<Trigger>) {
    forall i, r | Begin(i, r) in trace ::
      exists e, injection :: e in sent && e.Wanted() && e.Meta().invoiceId == i && r == e.AsRequest(injection)
  }

  /** The saga carries out what `e` asked for: its amount within its ceiling, its department, its correlation id. */
  ghost predicate CarriesOut(saga: SagaRecord, e: Trigger) {
    && saga.correlationId == e.Meta().correlationId && 0 < saga.amountCents
    && match e
       case OnDecision(p) => saga.amountCents == p.usdCents <= p.ceilingCents && saga.department == p.department
       case OnVerdict(p) => saga.amountCents == p.usdCents && saga.department == p.department
  }

  lemma AuthorizedGrows(trace: seq<Action>, sent: set<Trigger>, e: Trigger)
    requires Authorized(trace, sent)
    ensures Authorized(trace, sent + {e})
  {
    forall i, r | Begin(i, r) in trace
      ensures exists x, injection :: x in sent + {e} && x.Wanted() && x.Meta().invoiceId == i && r == x.AsRequest(injection)
    {
      var x, injection :| x in sent && x.Wanted() && x.Meta().invoiceId == i && r == x.AsRequest(injection);
      assert x in sent + {e};
    }
  }

  // ----- whose request a saga carries out

  ghost predicate Begun(s: State, trace: seq<Action>) {
    && (forall i | i in s.calls :: Begin(i, s.calls[i].request) in trace)
    && (forall i | i in s.openedBy :: Begin(i, s.openedBy[i]) in trace)
  }

  lemma StepKeepsBegun(s: State, a: Action, trace: seq<Action>)
    requires Begun(s, trace) && Step(s, a).Some?
    ensures Begun(Step(s, a).value, trace + [a])
  {
    SlotRequests(s, a);
    hide EffectOf, Begun;
    BegunAfter(s, a, EffectOf(s, a).value, trace);
  }

  lemma BegunAfter(s: State, a: Action, e: Effect, trace: seq<Action>)
    requires Begun(s, trace)
    requires e.slot.call.Some? ==> (a.Begin? && a.request == e.slot.call.value.request)
                                   || (s.At(a.i).call.Some? && s.At(a.i).call.value.request == e.slot.call.value.request)
    requires e.slot.openedBy == s.At(a.i).openedBy
             || (s.At(a.i).call.Some? && e.slot.openedBy == Some(s.At(a.i).call.value.request))
    ensures Begun(Apply(s, a.i, e), trace + [a])
  {
  }

  /** A call keeps its request, and only the request of the call in flight opens a saga. */
  lemma SlotRequests(s: State, a: Action)
    requires Step(s, a).Some?
    ensures var before, after := s.At(a.i), EffectOf(s, a).value.slot;
      && (after.call.Some? ==> (a.Begin? && a.request == after.call.value.request)
                               || (before.call.Some? && before.call.value.request == after.call.value.request))
      && (after.openedBy == before.openedBy
          || (before.call.Some? && after.openedBy == Some(before.call.value.request)))
  {
    if a.Advance? {
      var c := s.At(a.i).call.value;
      AdvanceKeepsRequest(a.i, s.At(a.i), c, Lookup(s.budgets, c.department), a.freshRef);
    }
    hide AdvanceCall;
  }

  lemma AdvanceKeepsRequest(i: string, slot: Slot, c: Call, left: Option<int>, freshRef: string)
    ensures var after := AdvanceCall(i, slot, c, left, freshRef).slot;
      && (after.call.Some? ==> after.call.value.request == c.request)
      && (after.openedBy == slot.openedBy || after.openedBy == Some(c.request))
  {
    hide MarkedRecord, AfterMarker;
  }

  lemma {:induction false} RunKeepsBegun(s: State, done: seq<Action>, rest: seq<Action>)
    requires Begun(s, done) && Run(Step, s, rest).Some?
    ensures Begun(Run(Step, s, rest).value, done + rest)
    decreases |rest|
  {
    hide Step, Begun;
    if rest == [] {
      assert done + rest == done;
    } else {
      StepKeepsBegun(s, rest[0], done);
      RunKeepsBegun(Step(s, rest[0]).value, done + [rest[0]], rest[1..]);
      assert done + rest == done + [rest[0]] + rest[1..];
    }
  }

  /** Money moves only on authority: a saga that passed its opening checks carries out an
      auto-approved decision within that decision's own ceiling, or an approved verdict, for
      that invoice. */
  lemma PaidOnlyIfAuthorized(s0: State, trace: seq<Action>, seed: map<string, int>, sent: set<Trigger>, i: string)
    requires Init(s0, seed) && Run(Step, s0, trace).Some? && Authorized(trace, sent)
    requires var s := Run(Step, s0, trace).value; i in s.sagas && !s.sagas[i].state.Compensated?
    ensures exists e :: e in sent && e.Wanted() && e.Meta().invoiceId == i
                        && CarriesOut(Run(Step, s0, trace).value.sagas[i], e)
  {
    RunKeepsBegun(s0, [], trace);
    assert [] + trace == trace;
    SagaTheorems.OpenedWithinCeiling(s0, trace, seed, i);
    var s := Run(Step, s0, trace).value;
    assert Begin(i, s.openedBy[i]) in trace;
    var e, injection :| e in sent && e.Wanted() && e.Meta().invoiceId == i && s.openedBy[i] == e.AsRequest(injection);
    assert CarriesOut(s.sagas[i], e);
  }

  /** Whatever the provider has a payment reference for was authorized. */
  lemma ProviderPaysOnlyAuthorized(s0: State, trace: seq<Action>, seed: map<string, int>, sent: set<Trigger>, i: string)
    requires Init(s0, seed) && Run(Step, s0, trace).Some? && Authorized(trace, sent)
    requires i in Run(Step, s0, trace).value.provider
    ensures i in Run(Step, s0, trace).value.sagas
    ensures exists e :: e in sent && e.Wanted() && e.Meta().invoiceId == i
  {
    SagaTheorems.ProviderAgrees(s0, trace, seed, i);
    PaidOnlyIfAuthorized(s0, trace, seed, sent, i);
  }

  lemma {:induction false} AdvancesAreOf(i: string, freshRef: string, k: nat, a: Action)
    requires a in Advances(i, freshRef, k)
    ensures a == Advance(i, freshRef)
  {
    if a in Advances(i, freshRef, k - 1) { AdvancesAreOf(i, freshRef, k - 1, a); }
  }

  // ----- what the call of one invoice leaves of finished sagas

  ghost predicate Finished(sagas: map<string, SagaRecord>, i: string) {
    i in sagas && sagas[i].state.Terminal()
  }

  lemma OneStepKeepsFinished(s: State, a: Action, j: string)
    requires Step(s, a).Some? && Finished(s.sagas, j) && (a.i == j ==> j !in s.calls)
    ensures Finished(Step(s, a).value.sagas, j) && (a.i == j ==> j !in Step(s, a).value.calls)
  {
    var e := EffectOf(s, a).value;
    assert a.i == j ==> e.slot == s.At(j);
  }

  /** Steps of one invoice, from a moment without its call in flight, end no finished saga. */
  lemma {:induction false} FinishedStays(s: State, more: seq<Action>, i: string, j: string)
    requires Run(Step, s, more).Some? && (forall a | a in more :: a.i == i)
    requires Finished(s.sagas, j) && (i == j ==> j !in s.calls)
    ensures Finished(Run(Step, s, more).value.sagas, j)
    decreases |more|
  {
    if more != [] {
      assert more[0] in more;
      OneStepKeepsFinished(s, more[0], j);
      FinishedStays(Step(s, more[0]).value, more[1..], i, j);
    }
  }

  /** The same of a call as the service runs it. */
  lemma CallKeepsFinished(start: State, before: seq<Action>, s: State, after: seq<Action>, t: State,
                          i: string, request: Request, freshRef: string, k: nat, j: string)
    requires LeadsTo(Step, start, before, s) && LeadsTo(Step, start, after, t) && i !in s.calls
    requires var begun := before + [Begin(i, request)] + Advances(i, freshRef, k);
      after == begun || after == begun + [Halt(i)]
    requires Finished(s.sagas, j)
    ensures Finished(t.sagas, j)
  {
    hide Step, Finished, LeadsTo;
    var more := after[|before|..];
    assert after == before + more;
    StepsOfCall(more, i, request, freshRef, k);
    LeadsOn(Step, start, before, s, more, t);
    FinishedStays(s, more, i, j);
  }

  lemma StepsOfCall(more: seq<Action>, i: string, request: Request, freshRef: string, k: nat)
    requires more == [Begin(i, request)] + Advances(i, freshRef, k) || more == [Begin(i, request)] + Advances(i, freshRef, k) + [Halt(i)]
    ensures forall a | a in more :: a.i == i
  {
    forall a | a in more ensures a.i == i {
      if a in Advances(i, freshRef, k) { AdvancesAreOf(i, freshRef, k, a); }
    }
  }

  /** The marks are those of the events in `taken`, whose sagas are finished but for the abandoned. */
  ghost predicate MarksOk(marks: set<string>, taken: set<Trigger>, abandoned: set<Trigger>, sagas: map<string, SagaRecord>) {
    && abandoned <= taken
    && (forall e | e in taken :: e.Meta().eventId in marks)
    && (forall id | id in marks :: exists e :: e in taken && e.Meta().eventId == id)
    && (forall e | e in taken :: e in abandoned || Finished(sagas, e.Meta().invoiceId))
  }

  /** A wanted event with a new id was handled: it set its mark, and `kept` it; `ended` is its saga. */
  lemma MarksStayOk(marks: set<string>, taken: set<Trigger>, abandoned: set<Trigger>, sagas: map<string, SagaRecord>,
                    e: Trigger, after: map<string, SagaRecord>, ended: bool)
    requires MarksOk(marks, taken, abandoned, sagas) && e.Meta().eventId !in marks
    ensures e !in taken
    requires forall j | Finished(sagas, j) :: Finished(after, j)
    requires ended ==> Finished(after, e.Meta().invoiceId)
    ensures MarksOk(marks, taken, abandoned, after)
    ensures MarksOk(marks + {e.Meta().eventId}, taken + {e}, if ended then abandoned else abandoned + {e}, after)
  {
    hide Finished;
    forall id | id in marks + {e.Meta().eventId} ensures exists x :: x in taken + {e} && x.Meta().eventId == id {
      if id in marks {
        var x :| x in taken && x.Meta().eventId == id;
        assert x in taken + {e};
      } else {
        assert e in taken + {e};
      }
    }
  }

  class PaymentSubscriber {
    const service: PaymentService
    var marks: set<string>
    /** The events delivered so far; those among them that set their mark and kept it; and those of
        these whose delivery ended before its saga, in a crash or with a forget that failed. */
    ghost var sent: set<Trigger>
    ghost var taken: set<Trigger>
    ghost var abandoned: set<Trigger>

    ghost predicate Valid()
      reads this, service
    {
      && service.Valid() && Authorized(service.trace, sent) && taken <= sent
      && MarksOk(marks, taken, abandoned, service.sagas)
    }

    constructor (service: PaymentService)
      requires service.Valid() && service.trace == []
      ensures Valid() && this.service == service && marks == {} && sent == {} && taken == {} && abandoned == {}
    {
      this.service := service;
      marks, sent, taken, abandoned := {}, {}, {}, {};
    }

    /** Either handler. `n` says after how many steps the saga stops (8 reach its end); such a
        stop is an exception, or with `crash` the end of the process. A filtered or repeated
        event touches nothing; an acked one left its payment settled; a failed one whose
        forget worked is unmarked, so that the redelivery counts; any other leaves its mark. */
    method OnEvent(e: Trigger, injection: bool, freshRef: string, n: nat, crash: bool, forgetOk: bool)
      returns (r: Outcome)
      requires Valid() && e.Meta().invoiceId !in service.state.calls && freshRef !in service.provider.Values
      modifies this, service
      ensures Valid() && sent == old(sent) + {e} && e.Meta().invoiceId !in service.state.calls
      ensures !e.Wanted() || e.Meta().eventId in old(marks) ==>
        r == Acked && marks == old(marks) && taken == old(taken) && abandoned == old(abandoned) && unchanged(service)
      ensures e.Wanted() && e.Meta().eventId !in old(marks) ==>
        && marks == (if r == Raised && forgetOk then old(marks) else old(marks) + {e.Meta().eventId})
        && taken == (if r == Raised && forgetOk then old(taken) else old(taken) + {e})
        && abandoned == (if r == Crashed || (r == Raised && !forgetOk) then old(abandoned) + {e} else old(abandoned))
        && old(service.trace) + [Begin(e.Meta().invoiceId, e.AsRequest(injection))] <= service.trace
        && (r == Acked ==> Finished(service.sagas, e.Meta().invoiceId))
      ensures (e.OnDecision? && e.decision.route != AutoApprove) || (e.OnVerdict? && e.resolution.verdict != Approved) ==>
        r == Acked && marks == old(marks) && unchanged(service)
      ensures r == Acked && e.OnDecision? && e.decision.route == AutoApprove && e.Meta().eventId !in old(marks) ==>
        var p := e.decision;
        service.Now() == Settled(
          old(service.Now()), p.meta.invoiceId,
          Request(p.meta.correlationId, p.department, p.usdCents, p.scenario, true, Some(p.ceilingCents), injection), freshRef)
      ensures r == Acked && e.OnVerdict? && e.resolution.verdict == Approved && e.Meta().eventId !in old(marks) ==>
        var p := e.resolution;
        service.Now() == Settled(
          old(service.Now()), p.meta.invoiceId,
          Request(p.meta.correlationId, p.department, p.usdCents, p.scenario, false, None, injection), freshRef)
      ensures n >= 8 ==>
        && r == Acked
        && (Finished(service.sagas, e.Meta().invoiceId) <==>
              old(Finished(service.sagas, e.Meta().invoiceId)) || (e.Wanted() && e.Meta().eventId !in old(marks)))
    {
      AuthorizedGrows(service.trace, sent, e);
      hide MarksOk, Finished, Authorized, LeadsTo, Settled;
      sent := sent + {e};
      if !e.Wanted() || e.Meta().eventId in marks { return Acked; }
      var result := RunSaga(e, injection, freshRef, n);
      MarksStayOk(marks, taken, abandoned, old(service.sagas), e, service.sagas, result.Returned?);
      r := KeepMark(e, result.Returned?, crash, forgetOk);
    }

    /** Mark and, if the saga ended by an exception, the attempt to forget the mark. */
    method KeepMark(e: Trigger, ended: bool, crash: bool, forgetOk: bool) returns (r: Outcome)
      requires e.Meta().eventId !in marks && e !in taken
      modifies this`marks, this`taken, this`abandoned
      ensures r == if ended then Acked else if crash then Crashed else Raised
      ensures marks == if r == Raised && forgetOk then old(marks) else old(marks) + {e.Meta().eventId}
      ensures taken == if r == Raised && forgetOk then old(taken) else old(taken) + {e}
      ensures abandoned == if r == Crashed || (r == Raised && !forgetOk) then old(abandoned) + {e} else old(abandoned)
    {
      var id := e.Meta().eventId;
      marks, taken := marks + {id}, taken + {e};
      if ended { return Acked; }
      if crash {
        abandoned := abandoned + {e};
        return Crashed;
      }
      if forgetOk {
        marks, taken := marks - {id}, taken - {e};
      } else {
        abandoned := abandoned + {e};
      }
      r := Raised;
    }

    /** The saga of a marked event: whatever becomes of the call, no finished saga is unfinished. */
    method RunSaga(e: Trigger, injection: bool, freshRef: string, n: nat) returns (result: HandleResult)
      requires service.Valid() && Authorized(service.trace, sent) && e in sent && e.Wanted()
      requires e.Meta().invoiceId !in service.state.calls && freshRef !in service.provider.Values
      modifies service
      ensures service.Valid() && Authorized(service.trace, sent) && e.Meta().invoiceId !in service.state.calls
      ensures old(service.trace) + [Begin(e.Meta().invoiceId, e.AsRequest(injection))] <= service.trace
      ensures forall j | old(Finished(service.sagas, j)) :: Finished(service.sagas, j)
      ensures result.Returned? ==> Finished(service.sagas, e.Meta().invoiceId)
      ensures n >= 8 ==> result.Returned?
      ensures result.Returned? ==>
        service.Now() == Settled(old(service.Now()), e.Meta().invoiceId, e.AsRequest(injection), freshRef)
    {
      var i, request := e.Meta().invoiceId, e.AsRequest(injection);
      ghost var before, s := service.trace, service.state;
      ghost var k;
      result, k := service.Handle(i, request, freshRef, n);
      StillAuthorized(before, service.trace, sent, e, injection, i, freshRef, k);
      forall j | Finished(s.sagas, j) ensures Finished(service.sagas, j) {
        CallKeepsFinished(service.Start(), before, s, service.trace, service.state, i, request, freshRef, k, j);
      }
      hide LeadsTo, Authorized, Settled;
    }
  }

  /** Event ids identify events. */
  ghost predicate UniqueIds(sent: set<Trigger>) {
    forall a, b | a in sent && b in sent && a.Meta().eventId == b.Meta().eventId :: a == b
  }

  /** When an unfinished saga can no longer be resumed by a wanted event it was delivered: every
      redelivery is acked as a duplicate if and only if that delivery crashed after its mark, or
      failed and could not take its mark back. Any other redelivery finishes it. */
  lemma StuckIff(subscriber: PaymentSubscriber, e: Trigger)
    requires subscriber.Valid() && UniqueIds(subscriber.sent) && e in subscriber.sent && e.Wanted()
    requires !Finished(subscriber.service.sagas, e.Meta().invoiceId)
    ensures e.Meta().eventId in subscriber.marks <==> e in subscriber.abandoned
  {
    if e.Meta().eventId in subscriber.marks {
      var owner :| owner in subscriber.taken && owner.Meta().eventId == e.Meta().eventId;
      assert owner == e;
    }
  }

  /** One call for a wanted event adds one authorized `Begin`. */
  lemma StillAuthorized(before: seq<Action>, after: seq<Action>, sent: set<Trigger>, e: Trigger, injection: bool,
                        i: string, freshRef: string, k: nat)
    requires Authorized(before, sent) && e in sent && e.Wanted() && i == e.Meta().invoiceId
    requires var begun := before + [Begin(i, e.AsRequest(injection))] + Advances(i, freshRef, k);
      after == begun || after == begun + [Halt(i)]
    ensures Authorized(after, sent)
  {
    forall j, r | Begin(j, r) in after && Begin(j, r) !in before ensures j == i && r == e.AsRequest(injection) {
      if Begin(j, r) in Advances(i, freshRef, k) { AdvancesAreOf(i, freshRef, k, Begin(j, r)); }
    }
  }
}
