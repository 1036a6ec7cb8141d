/** The payment saga (services/payment/src/saga.py) over the budgets and the payment
    provider (services/payment/src/provider.py).

    `Step` is the protocol: calls of `handle` for different invoices interleave freely,
    each advances by one durable write or read at a time, and may stop (crash or
    exception) at any point; a redelivery is another `Begin`. One invoice has at most
    one call in flight. A debit or credit of a budget is one step: Budgets proves that
    of the loops. */
module PaymentSaga {
  import opened Wrappers
  import opened Collections
  import opened Runs

  datatype SagaState = Started | Reserved | Paid | Compensated | RejectedInsufficientBudget {
    predicate Terminal() {
      Paid? || Compensated? || RejectedInsufficientBudget?
    }
  }

  datatype Reason = InsufficientBudget | CeilingViolation | PaymentDeclined | InvalidAmount

  datatype SagaRecord = SagaRecord(
    correlationId: string, state: SagaState, department: string, amountCents: int,
    paymentRef: Option<string>, failureReason: Option<Reason>)

  /** The arguments of `handle`; `injection` is the provider's flag at that time. */
  datatype Request = Request(
    correlationId: string, department: string, amountCents: int, scenario: string,
    autoRoute: bool, ceilingCents: Option<int>, injection: bool)
  {
    predicate Declines() {
      injection && |scenario| >= 15 && scenario[..15] == "payment-failure"
    }

    predicate OverCeiling(amount: int) {
      autoRoute && ceilingCents.Some? && amount > ceilingCents.value
    }
  }

  datatype Event =
    | PaymentCompleted(invoice: string, correlationId: string, amountCents: int, remaining: Option<int>, department: string)
    | PaymentFailed(invoice: string, correlationId: string, reason: Reason, compensated: bool)

  /** What a call of `handle` does next. */
  datatype Pc =
    | WriteStarted
    | ReserveBudget
    | WriteRejected
    | WriteReserved
    | LookUpPayment
    | RegisterPayment
    | ReleaseBudget
    | WriteCompensated(reason: Reason)
    | ReadRemaining(ref: string)
    | WritePaid(ref: string, remaining: Option<int>)
    | Publish(event: Event)

  /** The local variables of a call. */
  datatype Call = Call(correlationId: string, department: string, amountCents: int, request: Request, pc: Pc)

  /** A stop that leaves something undone: money moved and no marker says so, or the terminal
      marker is there and its event is not. */
  datatype Stop =
    | AfterReserve(department: string, amountCents: int)
    | AfterRelease(department: string, amountCents: int)
    | BeforePublish(invoice: string)

  /** What one invoice owns: its durable saga record, the provider's record, its call in
      flight and, as history, the request whose call wrote `started`. */
  datatype Slot = Slot(saga: Option<SagaRecord>, ref: Option<string>, call: Option<Call>, openedBy: Option<Request>)

  /** The durable data, the published events and the calls in flight, plus the stops so far. */
  datatype State = State(
    sagas: map<string, SagaRecord>, budgets: map<string, int>, provider: map<string, string>,
    events: seq<Event>, calls: map<string, Call>, stops: seq<Stop>, openedBy: map<string, Request>)
  {
    function At(i: string): Slot {
      Slot(Lookup(sagas, i), Lookup(provider, i), Lookup(calls, i), Lookup(openedBy, i))
    }
  }

  /** What one step does: the invoice's new slot, cents credited to `department`, events, stops. */
  datatype Effect = Effect(slot: Slot, department: string, credit: int, events: seq<Event>, stops: seq<Stop>)

  datatype Action = Begin(i: string, request: Request) | Advance(i: string, freshRef: string) | Halt(i: string)

  function Assign<T>(m: map<string, T>, k: string, v: Option<T>): map<string, T> {
    if v.Some? then m[k := v.value] else m - {k}
  }

  /** The record `_transition` writes: a new one, or the old one with the state, and the
      reference and reason if given, replaced. */
  function Transition(saga: Option<SagaRecord>, call: Call, state: SagaState,
                      ref: Option<string>, reason: Option<Reason>): SagaRecord
  {
    var base := if saga.Some? then saga.value
                else SagaRecord(call.correlationId, state, call.department, call.amountCents, None, None);
    base.(state := state,
          paymentRef := if ref.Some? then ref else base.paymentRef,
          failureReason := if reason.Some? then reason else base.failureReason)
  }

  /** Where a call starts, from the durable record (steps 1 to 2 of `handle`). */
  function FirstPc(record: Option<SagaRecord>, amount: int, r: Request): Pc {
    if amount <= 0 then WriteCompensated(InvalidAmount)
    else if r.OverCeiling(amount) && !(record.Some? && record.value.state.Reserved?) then WriteCompensated(CeilingViolation)
    else if record.None? then WriteStarted
    else if record.value.state.Started? then ReserveBudget
    else LookUpPayment
  }

  /** A durable record overrides what this delivery carries. */
  function Opening(record: Option<SagaRecord>, r: Request): Call {
    if record.Some? then
      var rec := record.value;
      Call(rec.correlationId, rec.department, rec.amountCents, r, FirstPc(record, rec.amountCents, r))
    else Call(r.correlationId, r.department, r.amountCents, r, FirstPc(record, r.amountCents, r))
  }

  function Goto(slot: Slot, c: Call, pc: Pc): Effect {
    Effect(slot.(call := Some(c.(pc := pc))), c.department, 0, [], [])
  }

  predicate IsMarker(pc: Pc) {
    pc.WriteStarted? || pc.WriteRejected? || pc.WriteReserved? || pc.WriteCompensated? || pc.WritePaid?
  }

  /** The record the marker at `c.pc` leaves: what `handle` passes to `_transition` there. */
  function MarkedRecord(saga: Option<SagaRecord>, c: Call): SagaRecord
    requires IsMarker(c.pc)
  {
    match c.pc
    case WriteStarted => Transition(saga, c, Started, None, None)
    case WriteRejected => Transition(saga, c, RejectedInsufficientBudget, None, Some(InsufficientBudget))
    case WriteReserved => Transition(saga, c, Reserved, None, None)
    case WriteCompensated(reason) => Transition(saga, c, Compensated, None, Some(reason))
    case WritePaid(ref, _) => Transition(saga, c, Paid, Some(ref), None)
  }

  /** What follows a marker: a terminal one is published, from the record just written. */
  function AfterMarker(i: string, pc: Pc, rec: SagaRecord): Pc
    requires IsMarker(pc)
  {
    match pc
    case WriteStarted => ReserveBudget
    case WriteRejected => Publish(PaymentFailed(i, rec.correlationId, InsufficientBudget, false))
    case WriteReserved => LookUpPayment
    case WriteCompensated(reason) => Publish(PaymentFailed(i, rec.correlationId, reason, reason.PaymentDeclined?))
    case WritePaid(_, remaining) =>
      Publish(PaymentCompleted(i, rec.correlationId, rec.amountCents, remaining, rec.department))
  }

  /** One step of call `c` of invoice `i`; `left` is what its department has left. */
  function AdvanceCall(i: string, slot: Slot, c: Call, left: Option<int>, freshRef: string): Effect {
    if IsMarker(c.pc) then
      var rec := MarkedRecord(slot.saga, c);
      var opener := if c.pc.WriteStarted? then Some(c.request) else slot.openedBy;
      Goto(slot.(saga := Some(rec), openedBy := opener), c, AfterMarker(i, c.pc, rec))
    else match c.pc
      case ReserveBudget =>
        if left.Some? && left.value >= c.amountCents then Goto(slot, c, WriteReserved).(credit := -c.amountCents)
        else Goto(slot, c, WriteRejected)
      case LookUpPayment =>
        if slot.ref.Some? then Goto(slot, c, ReadRemaining(slot.ref.value))
        else if c.request.Declines() then Goto(slot, c, ReleaseBudget)
        else Goto(slot, c, RegisterPayment)
      case RegisterPayment =>
        if slot.ref.Some? then Goto(slot, c, ReadRemaining(slot.ref.value))
        else Goto(slot.(ref := Some(freshRef)), c, ReadRemaining(freshRef))
      case ReleaseBudget =>
        Goto(slot, c, WriteCompensated(PaymentDeclined)).(credit := if left.Some? then c.amountCents else 0)
      case ReadRemaining(ref) => Goto(slot, c, WritePaid(ref, left))
      case Publish(event) => Effect(slot.(call := None), c.department, 0, [event], [])
  }

  /** What a stop leaves on the books. */
  function StopsOf(c: Call): seq<Stop> {
    if c.pc.WriteReserved? then [AfterReserve(c.department, c.amountCents)]
    else if c.pc == WriteCompensated(PaymentDeclined) then [AfterRelease(c.department, c.amountCents)]
    else if c.pc.Publish? then [BeforePublish(c.pc.event.invoice)]
    else []
  }

  function EffectOf(s: State, a: Action): Option<Effect> {
    var slot := s.At(a.i);
    match a
    case Begin(i, r) =>
      if slot.call.Some? then None
      else if slot.saga.Some? && slot.saga.value.state.Terminal() then Some(Effect(slot, "", 0, [], []))
      else Some(Effect(slot.(call := Some(Opening(slot.saga, r))), "", 0, [], []))
    case Advance(i, freshRef) =>
      if slot.call.None? || (slot.call.value.pc.RegisterPayment? && freshRef in s.provider.Values) then None
      else Some(AdvanceCall(i, slot, slot.call.value, Lookup(s.budgets, slot.call.value.department), freshRef))
    case Halt(i) =>
      if slot.call.None? then None
      else Some(Effect(slot.(call := None), "", 0, [], StopsOf(slot.call.value)))
  }

  function Apply(s: State, i: string, e: Effect): State {
    State(
      Assign(s.sagas, i, e.slot.saga),
      if e.credit != 0 && e.department in s.budgets
      then s.budgets[e.department := s.budgets[e.department] + e.credit] else s.budgets,
      Assign(s.provider, i, e.slot.ref),
      s.events + e.events,
      Assign(s.calls, i, e.slot.call),
      s.stops + e.stops,
      Assign(s.openedBy, i, e.slot.openedBy))
  }

  function Step(s: State, a: Action): Option<State> {
    match EffectOf(s, a)
    case None => None
    case Some(e) => Some(Apply(s, a.i, e))
  }

  ghost predicate Init(s: State, seed: map<string, int>) {
    && (forall d | d in seed :: seed[d] >= 0)
    && s == State(map[], seed, map[], [], map[], [], map[])
  }
}
