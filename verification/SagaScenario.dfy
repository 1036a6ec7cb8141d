/** What uninterrupted and interrupted deliveries do, exactly; and a run that overspends. */
module SagaScenario {
  import opened Wrappers
  import opened Collections
  import opened Runs
  import opened Sums
  import opened PaymentSaga
  import opened SagaSafety
  import opened SagaTheorems

  lemma AssignTwice<T>(m: map<string, T>, k: string, v: Option<T>, w: Option<T>)
    ensures Assign(Assign(m, k, v), k, w) == Assign(m, k, w)
  {
  }

  lemma ApplyTwice(s: State, i: string, e: Effect, f: Effect)
    requires e.credit == 0 || f.credit == 0 || e.department == f.department
    ensures Apply(Apply(s, i, e), i, f)
         == Apply(s, i, Effect(f.slot, if f.credit == 0 then e.department else f.department, e.credit + f.credit,
                               e.events + f.events, e.stops + f.stops))
  {
    AssignTwice(s.sagas, i, e.slot.saga, f.slot.saga);
    AssignTwice(s.provider, i, e.slot.ref, f.slot.ref);
    AssignTwice(s.calls, i, e.slot.call, f.slot.call);
    AssignTwice(s.openedBy, i, e.slot.openedBy, f.slot.openedBy);
    hide Assign;
    var g := Effect(f.slot, if f.credit == 0 then e.department else f.department, e.credit + f.credit,
                    e.events + f.events, e.stops + f.stops);
    assert Apply(Apply(s, i, e), i, f).budgets == Apply(s, i, g).budgets;
    assert s.events + e.events + f.events == s.events + (e.events + f.events);
    assert s.stops + e.stops + f.stops == s.stops + (e.stops + f.stops);
  }

  /** `trace` leads from `s` to `s` with effect `e` on invoice `i`. */
  ghost predicate Does(s: State, i: string, trace: seq<Action>, e: Effect) {
    Run(Step, s, trace) == Some(Apply(s, i, e))
  }

  /** No call is stopped. */
  ghost predicate StopFree(trace: seq<Action>) {
    forall a | a in trace :: !a.Halt?
  }

  lemma DoesFirst(s: State, i: string, a: Action, e: Effect)
    requires a.i == i && EffectOf(s, a) == Some(e)
    ensures Does(s, i, [a], e)
  {
    assert [a] + [] == [a];
    RunCons(Step, s, a, []);
  }

  lemma DoesOneMore(s: State, i: string, trace: seq<Action>, e: Effect, a: Action, f: Effect)
    requires Does(s, i, trace, e) && a.i == i && EffectOf(Apply(s, i, e), a) == Some(f)
    requires e.credit == 0 || f.credit == 0 || e.department == f.department
    ensures Does(s, i, trace + [a],
                 Effect(f.slot, if f.credit == 0 then e.department else f.department, e.credit + f.credit,
                        e.events + f.events, e.stops + f.stops))
  {
    RunSnoc(Step, s, trace, a);
    ApplyTwice(s, i, e, f);
  }

  function RecordOf(r: Request, state: SagaState, ref: Option<string>): SagaRecord {
    SagaRecord(r.correlationId, state, r.department, r.amountCents, ref, None)
  }

  function CallOf(r: Request, pc: Pc): Call {
    Call(r.correlationId, r.department, r.amountCents, r, pc)
  }

  /** One uninterrupted step of the call in `e.slot`, summed up in `g`. */
  lemma Steps(s: State, i: string, trace: seq<Action>, e: Effect, freshRef: string, g: Effect)
    requires Does(s, i, trace, e) && e.slot.call.Some?
    requires e.slot.call.value.pc.RegisterPayment? ==> freshRef !in Apply(s, i, e).provider.Values
    requires var c := e.slot.call.value;
      var f := AdvanceCall(i, e.slot, c, Lookup(Apply(s, i, e).budgets, c.department), freshRef);
      && (e.credit == 0 || f.credit == 0 || e.department == f.department) && g.credit == e.credit + f.credit
      && g.slot == f.slot && g.events == e.events + f.events && g.stops == e.stops + f.stops
      && (g.credit != 0 ==> g.department == if f.credit == 0 then e.department else f.department)
    ensures Does(s, i, trace + [Advance(i, freshRef)], g)
  {
    var c := e.slot.call.value;
    var f := AdvanceCall(i, e.slot, c, Lookup(Apply(s, i, e).budgets, c.department), freshRef);
    ApplyFrame(s, i, e, i);
    DoesOneMore(s, i, trace, e, Advance(i, freshRef), f);
  }

  /** A fresh invoice whose amount is positive, within the ceiling and covered is reserved:
      one debit, and nothing else moves. */
  lemma ReserveFresh(s: State, i: string, r: Request, freshRef: string) returns (trace: seq<Action>)
    requires s.At(i) == Slot(None, None, None, None) && 0 < r.amountCents && !r.OverCeiling(r.amountCents)
    requires r.department in s.budgets && s.budgets[r.department] >= r.amountCents
    ensures StopFree(trace)
    ensures Does(s, i, trace, Effect(Slot(Some(RecordOf(r, Reserved, None)), None, Some(CallOf(r, LookUpPayment)), Some(r)),
                                     r.department, -r.amountCents, [], []))
  {
    var started, reserved := Some(RecordOf(r, Started, None)), Some(RecordOf(r, Reserved, None));
    var e0 := Effect(Slot(None, None, Some(CallOf(r, WriteStarted)), None), "", 0, [], []);
    var e1 := Effect(Slot(started, None, Some(CallOf(r, ReserveBudget)), Some(r)), "", 0, [], []);
    var e2 := Effect(Slot(started, None, Some(CallOf(r, WriteReserved)), Some(r)), r.department, -r.amountCents, [], []);
    var e3 := Effect(Slot(reserved, None, Some(CallOf(r, LookUpPayment)), Some(r)), r.department, -r.amountCents, [], []);
    trace := [Begin(i, r)];
    assert EffectOf(s, Begin(i, r)) == Some(e0);
    assert Does(s, i, trace, e0);
    Steps(s, i, trace, e0, freshRef, e1);
    trace := trace + [Advance(i, freshRef)];
    Steps(s, i, trace, e1, freshRef, e2);
    trace := trace + [Advance(i, freshRef)];
    Steps(s, i, trace, e2, freshRef, e3);
    trace := trace + [Advance(i, freshRef)];
  }

  /** The provider is asked: its reference is the one it has, or the fresh one. */
  lemma ReachReference(s: State, i: string, c: Call, freshRef: string, t0: seq<Action>, e0: Effect)
    returns (trace: seq<Action>, ref: string)
    requires Does(s, i, t0, e0) && StopFree(t0) && e0.slot.call == Some(c) && c.pc.LookUpPayment? && !c.request.Declines()
    requires e0.slot.ref.None? ==> freshRef !in s.provider.Values && s.At(i).ref.None?
    ensures StopFree(trace) && ref == e0.slot.ref.GetOr(freshRef)
    ensures Does(s, i, trace, e0.(slot := e0.slot.(ref := Some(ref), call := Some(c.(pc := ReadRemaining(ref))))))
  {
    hide Does;
    ref := e0.slot.ref.GetOr(freshRef);
    var e1 := e0.(slot := e0.slot.(call := Some(c.(pc := RegisterPayment))));
    var e2 := e0.(slot := e0.slot.(ref := Some(ref), call := Some(c.(pc := ReadRemaining(ref)))));
    if e0.slot.ref.Some? {
      Steps(s, i, t0, e0, freshRef, e2);
      trace := t0 + [Advance(i, freshRef)];
    } else {
      Steps(s, i, t0, e0, freshRef, e1);
      assert Apply(s, i, e1).provider == s.provider;
      Steps(s, i, t0 + [Advance(i, freshRef)], e1, freshRef, e2);
      trace := t0 + [Advance(i, freshRef)] + [Advance(i, freshRef)];
    }
  }

  /** What an uninterrupted call leaves of a reserved saga. */
  ghost function PaidSlot(slot: Slot, record: SagaRecord, ref: string): Slot {
    Slot(Some(record.(state := Paid, paymentRef := Some(ref))), Some(ref), None, slot.openedBy)
  }

  /** The completion a call announces from a reserved saga, with `left` of the budget. */
  ghost function Completion(i: string, record: SagaRecord, left: Option<int>): Event {
    PaymentCompleted(i, record.correlationId, record.amountCents, left, record.department)
  }

  /** From a reference on: read-out and marker; the event is still to come. */
  lemma MarkPaid(s: State, i: string, record: SagaRecord, c: Call, ref: string, freshRef: string, t0: seq<Action>, e0: Effect)
    returns (trace: seq<Action>)
    requires Does(s, i, t0, e0) && StopFree(t0) && e0.slot.call == Some(c) && c.pc == ReadRemaining(ref)
    requires e0.slot.saga == Some(record) && e0.slot.ref == Some(ref) && e0.events == []
    ensures StopFree(trace)
    ensures var event := Completion(i, record, Lookup(Apply(s, i, e0).budgets, c.department));
      Does(s, i, trace, e0.(slot := PaidSlot(e0.slot, record, ref).(call := Some(c.(pc := Publish(event))))))
  {
    hide Does;
    var left := Lookup(Apply(s, i, e0).budgets, c.department);
    var paid := record.(state := Paid, paymentRef := Some(ref));
    var e1 := e0.(slot := e0.slot.(call := Some(c.(pc := WritePaid(ref, left)))));
    var e2 := e0.(slot := e0.slot.(saga := Some(paid), call := Some(c.(pc := Publish(Completion(i, record, left))))));
    Steps(s, i, t0, e0, freshRef, e1);
    Steps(s, i, t0 + [Advance(i, freshRef)], e1, freshRef, e2);
    trace := t0 + [Advance(i, freshRef)] + [Advance(i, freshRef)];
  }

  /** From a reserved saga an uninterrupted, undeclined call marks it paid: the provider's
      reference, or else the fresh one, is recorded, and the budget is not touched again. */
  lemma ReachPaid(s: State, i: string, record: SagaRecord, c: Call, freshRef: string, t0: seq<Action>, e0: Effect)
    returns (trace: seq<Action>, ref: string)
    requires Does(s, i, t0, e0) && StopFree(t0) && e0.slot.saga == Some(record) && e0.events == []
    requires e0.slot.call == Some(c) && c.pc.LookUpPayment? && !c.request.Declines()
    requires e0.slot.ref.None? ==> freshRef !in s.provider.Values && s.At(i).ref.None?
    ensures StopFree(trace) && ref == e0.slot.ref.GetOr(freshRef)
    ensures var event := Completion(i, record, Lookup(Apply(s, i, e0).budgets, c.department));
      Does(s, i, trace, e0.(slot := PaidSlot(e0.slot, record, ref).(call := Some(c.(pc := Publish(event))))))
  {
    hide Does;
    var t1, r := ReachReference(s, i, c, freshRef, t0, e0);
    ref := r;
    var c1 := c.(pc := ReadRemaining(ref));
    var e1 := e0.(slot := e0.slot.(ref := Some(ref), call := Some(c1)));
    trace := MarkPaid(s, i, record, c1, ref, freshRef, t1, e1);
  }

  /** And then it tells: one event goes out. */
  lemma PayReserved(s: State, i: string, record: SagaRecord, c: Call, freshRef: string, t0: seq<Action>, e0: Effect)
    returns (trace: seq<Action>, ref: string)
    requires Does(s, i, t0, e0) && StopFree(t0) && e0.slot.saga == Some(record) && e0.events == []
    requires e0.slot.call == Some(c) && c.pc.LookUpPayment? && !c.request.Declines()
    requires e0.slot.ref.None? ==> freshRef !in s.provider.Values && s.At(i).ref.None?
    ensures StopFree(trace) && ref == e0.slot.ref.GetOr(freshRef)
    ensures Does(s, i, trace, e0.(
      slot := PaidSlot(e0.slot, record, ref),
      events := [Completion(i, record, Lookup(Apply(s, i, e0).budgets, c.department))]))
  {
    hide Does;
    var t1, r := ReachPaid(s, i, record, c, freshRef, t0, e0);
    ref := r;
    var event := Completion(i, record, Lookup(Apply(s, i, e0).budgets, c.department));
    var e1 := e0.(slot := PaidSlot(e0.slot, record, ref).(call := Some(c.(pc := Publish(event)))));
    Steps(s, i, t1, e1, freshRef, e0.(slot := PaidSlot(e0.slot, record, ref), events := [event]));
    trace := t1 + [Advance(i, freshRef)];
  }

  /** An uninterrupted delivery of a covered fresh invoice debits its amount once, registers
      one payment, and publishes exactly its completion with what is left. */
  lemma PayFresh(s: State, i: string, r: Request, freshRef: string) returns (trace: seq<Action>)
    requires s.At(i) == Slot(None, None, None, None) && 0 < r.amountCents && !r.OverCeiling(r.amountCents)
    requires r.department in s.budgets && s.budgets[r.department] >= r.amountCents
    requires !r.Declines() && freshRef !in s.provider.Values
    ensures StopFree(trace)
    ensures Does(s, i, trace,
      Effect(Slot(Some(RecordOf(r, Paid, Some(freshRef))), Some(freshRef), None, Some(r)), r.department, -r.amountCents,
             [PaymentCompleted(i, r.correlationId, r.amountCents,
                               Some(s.budgets[r.department] - r.amountCents), r.department)], []))
  {
    var t0 := ReserveFresh(s, i, r, freshRef);
    var e0 := Effect(Slot(Some(RecordOf(r, Reserved, None)), None, Some(CallOf(r, LookUpPayment)), Some(r)),
                     r.department, -r.amountCents, [], []);
    var t1, ref := PayReserved(s, i, RecordOf(r, Reserved, None), CallOf(r, LookUpPayment), freshRef, t0, e0);
    trace := t1;
  }

  /** A declined payment of a covered fresh invoice, stopped right after the budget was
      credited back: the record still says `reserved`. */
  lemma DeclineThenStop(s: State, i: string, r: Request, freshRef: string) returns (trace: seq<Action>)
    requires s.At(i) == Slot(None, None, None, None) && 0 < r.amountCents && !r.OverCeiling(r.amountCents)
    requires r.department in s.budgets && s.budgets[r.department] >= r.amountCents && r.Declines()
    ensures Does(s, i, trace, Effect(Slot(Some(RecordOf(r, Reserved, None)), None, None, Some(r)), "", 0, [],
                                     [AfterRelease(r.department, r.amountCents)]))
  {
    trace := ReserveFresh(s, i, r, freshRef);
    var slot := Slot(Some(RecordOf(r, Reserved, None)), None, Some(CallOf(r, LookUpPayment)), Some(r));
    var e0 := Effect(slot, r.department, -r.amountCents, [], []);
    var e1 := e0.(slot := slot.(call := Some(CallOf(r, ReleaseBudget))));
    var e2 := Effect(slot.(call := Some(CallOf(r, WriteCompensated(PaymentDeclined)))), r.department, 0, [], []);
    Steps(s, i, trace, e0, freshRef, e1);
    trace := trace + [Advance(i, freshRef)];
    Steps(s, i, trace, e1, freshRef, e2);
    trace := trace + [Advance(i, freshRef)];
    ApplyFrame(s, i, e2, i);
    assert e2.stops + [AfterRelease(r.department, r.amountCents)] == [AfterRelease(r.department, r.amountCents)];
    DoesOneMore(s, i, trace, e2, Halt(i), Effect(slot.(call := None), "", 0, [], [AfterRelease(r.department, r.amountCents)]));
    trace := trace + [Halt(i)];
  }

  /** An uninterrupted declined delivery leaves no trace in any budget: the saga is
      compensated, nothing is registered, and exactly its failure is published. */
  lemma DeclineRestores(s: State, i: string, r: Request, freshRef: string) returns (trace: seq<Action>)
    requires s.At(i) == Slot(None, None, None, None) && 0 < r.amountCents && !r.OverCeiling(r.amountCents)
    requires r.department in s.budgets && s.budgets[r.department] >= r.amountCents && r.Declines()
    ensures var record := RecordOf(r, Compensated, None).(failureReason := Some(PaymentDeclined));
      Does(s, i, trace, Effect(Slot(Some(record), None, None, Some(r)), "", 0,
                               [PaymentFailed(i, r.correlationId, PaymentDeclined, true)], []))
  {
    hide Does;
    trace := ReserveFresh(s, i, r, freshRef);
    var slot := Slot(Some(RecordOf(r, Reserved, None)), None, Some(CallOf(r, LookUpPayment)), Some(r));
    var record := RecordOf(r, Compensated, None).(failureReason := Some(PaymentDeclined));
    var event := PaymentFailed(i, r.correlationId, PaymentDeclined, true);
    var e0 := Effect(slot, r.department, -r.amountCents, [], []);
    var e1 := e0.(slot := slot.(call := Some(CallOf(r, ReleaseBudget))));
    var e2 := Effect(slot.(call := Some(CallOf(r, WriteCompensated(PaymentDeclined)))), r.department, 0, [], []);
    var e3 := e2.(slot := Slot(Some(record), None, Some(CallOf(r, Publish(event))), Some(r)));
    Steps(s, i, trace, e0, freshRef, e1);
    trace := trace + [Advance(i, freshRef)];
    Steps(s, i, trace, e1, freshRef, e2);
    trace := trace + [Advance(i, freshRef)];
    Steps(s, i, trace, e2, freshRef, e3);
    trace := trace + [Advance(i, freshRef)];
    Steps(s, i, trace, e3, freshRef, Effect(e3.slot.(call := None), "", 0, [event], []));
    trace := trace + [Advance(i, freshRef)];
  }

  // ----- resuming from `started`

  /** A redelivery of an invoice left at `started` asks the budget: the step of `ReserveBudget`. */
  lemma ResumeReaches(s: State, i: string, record: SagaRecord, r: Request, freshRef: string)
    requires Resumable(s, i, record, r)
    ensures Does(s, i, [Begin(i, r)], Effect(s.At(i).(call := Some(ResumedAt(record, r, ReserveBudget))), "", 0, [], []))
  {
    var e := Effect(s.At(i).(call := Some(ResumedAt(record, r, ReserveBudget))), "", 0, [], []);
    assert EffectOf(s, Begin(i, r)) == Some(e);
    DoesFirst(s, i, Begin(i, r), e);
  }

  function ResumedAt(record: SagaRecord, r: Request, pc: Pc): Call {
    Call(record.correlationId, record.department, record.amountCents, r, pc)
  }

  /** One delivery that is not interrupted: it begins and takes `k` steps. */
  ghost function Delivery(i: string, r: Request, freshRef: string, k: nat): seq<Action> {
    if k == 0 then [Begin(i, r)] else Delivery(i, r, freshRef, k - 1) + [Advance(i, freshRef)]
  }

  ghost predicate Resumable(s: State, i: string, record: SagaRecord, r: Request) {
    && s.At(i) == Slot(Some(record), None, None, s.At(i).openedBy) && record.state.Started?
    && 0 < record.amountCents && !(r.autoRoute && r.ceilingCents.Some? && record.amountCents > r.ceilingCents.value)
  }

  /** A covered resumption up to the provider's record: one debit, the marker `reserved`, one payment. */
  lemma ResumeExecutes(s: State, i: string, record: SagaRecord, r: Request, freshRef: string)
    requires Resumable(s, i, record, r)
    requires !(r.injection && "payment-failure" <= r.scenario) && freshRef !in s.provider.Values
    requires record.department in s.budgets && record.amountCents <= s.budgets[record.department]
    ensures Does(s, i, Delivery(i, r, freshRef, 4),
                 Effect(Slot(Some(record.(state := Reserved)), Some(freshRef), Some(ResumedAt(record, r, ReadRemaining(freshRef))),
                             s.At(i).openedBy), record.department, -record.amountCents, [], []))
  {
    hide Does;
    ResumeReaches(s, i, record, r, freshRef);
    var d, amount, opener := record.department, record.amountCents, s.At(i).openedBy;
    var reserved := Some(record.(state := Reserved));
    var e0 := Effect(s.At(i).(call := Some(ResumedAt(record, r, ReserveBudget))), "", 0, [], []);
    var e1 := Effect(s.At(i).(call := Some(ResumedAt(record, r, WriteReserved))), d, -amount, [], []);
    var e2 := e1.(slot := Slot(reserved, None, Some(ResumedAt(record, r, LookUpPayment)), opener));
    var e3 := e1.(slot := Slot(reserved, None, Some(ResumedAt(record, r, RegisterPayment)), opener));
    var e4 := e1.(slot := Slot(reserved, Some(freshRef), Some(ResumedAt(record, r, ReadRemaining(freshRef))), opener));
    Steps(s, i, Delivery(i, r, freshRef, 0), e0, freshRef, e1);
    Steps(s, i, Delivery(i, r, freshRef, 1), e1, freshRef, e2);
    Steps(s, i, Delivery(i, r, freshRef, 2), e2, freshRef, e3);
    assert Apply(s, i, e3).provider == s.provider;
    Steps(s, i, Delivery(i, r, freshRef, 3), e3, freshRef, e4);
  }

  /** The rest of it: read-out, marker, event. */
  lemma ResumeTells(s: State, i: string, record: SagaRecord, r: Request, freshRef: string, e: Effect)
    requires e.slot.saga == Some(record.(state := Reserved)) && e.slot.ref == Some(freshRef) && e.events == []
    requires e.slot.call == Some(ResumedAt(record, r, ReadRemaining(freshRef))) && Does(s, i, Delivery(i, r, freshRef, 4), e)
    ensures var left := Lookup(Apply(s, i, e).budgets, record.department);
      Does(s, i, Delivery(i, r, freshRef, 7), e.(
        slot := e.slot.(saga := Some(record.(state := Paid, paymentRef := Some(freshRef))), call := None),
        events := [PaymentCompleted(i, record.correlationId, record.amountCents, left, record.department)]))
  {
    hide Does;
    var left := Lookup(Apply(s, i, e).budgets, record.department);
    var event := PaymentCompleted(i, record.correlationId, record.amountCents, left, record.department);
    var paid := e.slot.(saga := Some(record.(state := Paid, paymentRef := Some(freshRef))));
    var e1 := e.(slot := e.slot.(call := Some(ResumedAt(record, r, WritePaid(freshRef, left)))));
    var e2 := e.(slot := paid.(call := Some(ResumedAt(record, r, Publish(event)))));
    Steps(s, i, Delivery(i, r, freshRef, 4), e, freshRef, e1);
    Steps(s, i, Delivery(i, r, freshRef, 5), e1, freshRef, e2);
    Steps(s, i, Delivery(i, r, freshRef, 6), e2, freshRef, e.(slot := paid.(call := None), events := [event]));
  }

  /** A saga left at `started`, wherever its first delivery stopped, is taken up where it was: if the
      department has the amount, an uninterrupted redelivery that is not declined debits it once,
      registers one payment, leaves `paid` and tells it. */
  lemma ResumeStarted(s: State, i: string, record: SagaRecord, r: Request, freshRef: string)
    requires Resumable(s, i, record, r)
    requires !(r.injection && "payment-failure" <= r.scenario) && freshRef !in s.provider.Values
    requires record.department in s.budgets && record.amountCents <= s.budgets[record.department]
    ensures Run(Step, s, Delivery(i, r, freshRef, 7)).Some?
    ensures var t := Run(Step, s, Delivery(i, r, freshRef, 7)).value;
      && t.sagas == s.sagas[i := record.(state := Paid, paymentRef := Some(freshRef))]
      && t.budgets == s.budgets[record.department := s.budgets[record.department] - record.amountCents]
      && t.provider == s.provider[i := freshRef] && t.calls == s.calls
      && t.events == s.events + [PaymentCompleted(i, record.correlationId, record.amountCents,
                                                  Some(s.budgets[record.department] - record.amountCents), record.department)]
  {
    hide Does, Delivery;
    ResumeExecutes(s, i, record, r, freshRef);
    var d, amount := record.department, record.amountCents;
    var e := Effect(Slot(Some(record.(state := Reserved)), Some(freshRef), Some(ResumedAt(record, r, ReadRemaining(freshRef))),
                         s.At(i).openedBy), d, -amount, [], []);
    ResumeTells(s, i, record, r, freshRef, e);
    var left := Lookup(Apply(s, i, e).budgets, d);
    assert left == Some(s.budgets[d] - amount);
    hide Apply, Step;
    DoneBy(s, i, Delivery(i, r, freshRef, 7), e.(
      slot := e.slot.(saga := Some(record.(state := Paid, paymentRef := Some(freshRef))), call := None),
      events := [PaymentCompleted(i, record.correlationId, amount, left, d)]));
  }

  lemma DoneBy(s: State, i: string, trace: seq<Action>, e: Effect)
    requires Does(s, i, trace, e) && s.At(i).call.None? && e.slot.call.None?
    ensures Run(Step, s, trace).Some?
    ensures var t := Run(Step, s, trace).value;
      && t.sagas == Assign(s.sagas, i, e.slot.saga) && t.provider == Assign(s.provider, i, e.slot.ref)
      && t.calls == s.calls && t.events == s.events + e.events
      && t.budgets == if e.credit != 0 && e.department in s.budgets
                      then s.budgets[e.department := s.budgets[e.department] + e.credit] else s.budgets
  {
  }

  /** And if the department has not, it rejects the saga, moves no money and tells that. */
  lemma ResumeStartedShort(s: State, i: string, record: SagaRecord, r: Request, freshRef: string)
    requires Resumable(s, i, record, r)
    requires record.department !in s.budgets || s.budgets[record.department] < record.amountCents
    ensures Run(Step, s, Delivery(i, r, freshRef, 3)).Some?
    ensures var t := Run(Step, s, Delivery(i, r, freshRef, 3)).value;
      && t.sagas == s.sagas[i := record.(state := RejectedInsufficientBudget, failureReason := Some(InsufficientBudget))]
      && t.budgets == s.budgets && t.provider == s.provider && t.calls == s.calls
      && t.events == s.events + [PaymentFailed(i, record.correlationId, InsufficientBudget, false)]
  {
    hide Does;
    ResumeReaches(s, i, record, r, freshRef);
    var rejected := record.(state := RejectedInsufficientBudget, failureReason := Some(InsufficientBudget));
    var event := PaymentFailed(i, record.correlationId, InsufficientBudget, false);
    var e0 := Effect(s.At(i).(call := Some(ResumedAt(record, r, ReserveBudget))), "", 0, [], []);
    var e1 := Effect(s.At(i).(call := Some(ResumedAt(record, r, WriteRejected))), "", 0, [], []);
    var e2 := Effect(s.At(i).(saga := Some(rejected), call := Some(ResumedAt(record, r, Publish(event)))), "", 0, [], []);
    var e3 := Effect(s.At(i).(saga := Some(rejected)), "", 0, [event], []);
    Steps(s, i, Delivery(i, r, freshRef, 0), e0, freshRef, e1);
    Steps(s, i, Delivery(i, r, freshRef, 1), e1, freshRef, e2);
    Steps(s, i, Delivery(i, r, freshRef, 2), e2, freshRef, e3);
    hide Delivery;
    DoneBy(s, i, Delivery(i, r, freshRef, 3), e3);
  }

  // The run that overspends: "a" is declined and stopped after its release, "b" takes the
  // credited budget, then "a" is redelivered without the decline and pays as well.

  const DECLINED := Request("c", "d", 100, "payment-failure", false, None, true)
  const PLAIN := Request("c", "d", 100, "", false, None, true)

  ghost function S0(): State {
    State(map[], map["d" := 100], map[], [], map[], [], map[])
  }

  ghost function S1(): State {
    State(map["a" := RecordOf(DECLINED, Reserved, None)], map["d" := 100], map[], [], map[],
          [AfterRelease("d", 100)], map["a" := DECLINED])
  }

  ghost function S2(): State {
    State(map["a" := RecordOf(DECLINED, Reserved, None), "b" := RecordOf(PLAIN, Paid, Some("r2"))],
          map["d" := 0], map["b" := "r2"], [PaymentCompleted("b", "c", 100, Some(0), "d")], map[],
          [AfterRelease("d", 100)], map["a" := DECLINED, "b" := PLAIN])
  }

  ghost function S3(): State {
    State(map["a" := RecordOf(DECLINED, Paid, Some("r3")), "b" := RecordOf(PLAIN, Paid, Some("r2"))],
          map["d" := 0], map["a" := "r3", "b" := "r2"],
          [PaymentCompleted("b", "c", 100, Some(0), "d"), PaymentCompleted("a", "c", 100, Some(0), "d")], map[],
          [AfterRelease("d", 100)], map["a" := DECLINED, "b" := PLAIN])
  }

  lemma Same(s: State, t: State)
    requires s.sagas == t.sagas && s.budgets == t.budgets && s.provider == t.provider && s.events == t.events
    requires s.calls == t.calls && s.stops == t.stops && s.openedBy == t.openedBy
    ensures s == t
  {
  }

  lemma FirstDelivery() returns (trace: seq<Action>)
    ensures Run(Step, S0(), trace) == Some(S1())
  {
    assert "payment-failure"[..15] == "payment-failure";
    trace := DeclineThenStop(S0(), "a", DECLINED, "r1");
    Same(Run(Step, S0(), trace).value, S1());
  }

  lemma SecondDelivery() returns (trace: seq<Action>)
    ensures Run(Step, S1(), trace) == Some(S2())
  {
    trace := PayFresh(S1(), "b", PLAIN, "r2");
    Same(Run(Step, S1(), trace).value, S2());
  }

  lemma ThirdDelivery() returns (trace: seq<Action>)
    ensures Run(Step, S2(), trace) == Some(S3())
  {
    var call := CallOf(DECLINED, LookUpPayment).(request := PLAIN);
    var e := Effect(S2().At("a").(call := Some(call)), "", 0, [], []);
    assert EffectOf(S2(), Begin("a", PLAIN)) == Some(e);
    assert Does(S2(), "a", [Begin("a", PLAIN)], e);
    var t1, ref := PayReserved(S2(), "a", RecordOf(DECLINED, Reserved, None), call, "r3", [Begin("a", PLAIN)], e);
    trace := t1;
    Same(Run(Step, S2(), trace).value, S3());
  }

  /** The stop after `release` is not safe: this run, with that one stop, pays 200 cents
      out of a budget of 100. */
  lemma ThirdWindowOverspends() returns (trace: seq<Action>)
    ensures Init(S0(), map["d" := 100]) && Run(Step, S0(), trace) == Some(S3())
    ensures S3().calls == map[] && S3().stops == [AfterRelease("d", 100)] && TotalPaid(S3(), "d") == 200
  {
    var t1 := FirstDelivery();
    var t2 := SecondDelivery();
    var t3 := ThirdDelivery();
    RunConcat(Step, S0(), t1, t2);
    RunConcat(Step, S0(), t1 + t2, t3);
    trace := t1 + t2 + t3;
    TwoPaid(S3());
  }

  lemma TwoPaid(s: State)
    requires s.sagas.Keys == {"a", "b"} && PaidBy(s.At("a"), "d") == 100 && PaidBy(s.At("b"), "d") == 100
    ensures TotalPaid(s, "d") == 200
  {
    var paid := (i: string) => PaidBy(s.At(i), "d");
    SumRemove(s.sagas.Keys, paid, "a");
    SumRemove(s.sagas.Keys - {"a"}, paid, "b");
    assert s.sagas.Keys - {"a"} - {"b"} == {};
    assert Sum(s.sagas.Keys, paid) == TotalPaid(s, "d");
  }
}
