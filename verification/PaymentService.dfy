/** `PaymentSaga.handle` as the service runs it: successive writes to its stores
    (services/payment/src/saga.py, services/payment/src/provider.py). Each write is one
    step of the protocol, so what SagaSafety proves of runs holds of the service. */
module PaymentService {
  import opened Wrappers
  import opened Collections
  import opened Runs
  import opened PaymentSaga

  datatype HandleResult = Returned(record: SagaRecord) | Stopped

  /** `k` steps of the call of `i`. */
  ghost function Advances(i: string, freshRef: string, k: nat): seq<Action> {
    if k == 0 then [] else Advances(i, freshRef, k - 1) + [Advance(i, freshRef)]
  }

  /** The state one step of call `c` of `i` leads to. */
  ghost function Next(s: State, i: string, c: Call, freshRef: string): State {
    Apply(s, i, AdvanceCall(i, s.At(i), c, Lookup(s.budgets, c.department), freshRef))
  }

  /** What an effect leaves as it is, the store keeps as it is. */
  lemma ApplyWrites(s: State, i: string, e: Effect)
    ensures var t := Apply(s, i, e);
      && (e.slot.saga == Lookup(s.sagas, i) ==> t.sagas == s.sagas)
      && (e.slot.ref == Lookup(s.provider, i) ==> t.provider == s.provider)
      && (e.slot.call == Lookup(s.calls, i) ==> t.calls == s.calls)
      && (e.slot.openedBy == Lookup(s.openedBy, i) ==> t.openedBy == s.openedBy)
      && (e.events == [] ==> t.events == s.events) && (e.stops == [] ==> t.stops == s.stops)
      && Lookup(t.calls, i) == e.slot.call
  {
  }

  /** What a step of call `c` does to the slot, field by field. */
  lemma StepEffect(i: string, slot: Slot, c: Call, left: Option<int>, freshRef: string)
    ensures var e := AdvanceCall(i, slot, c, left, freshRef);
      && e.slot.saga == (if IsMarker(c.pc) then Some(MarkedRecord(slot.saga, c)) else slot.saga)
      && e.slot.ref == (if c.pc.RegisterPayment? && slot.ref.None? then Some(freshRef) else slot.ref)
      && e.events == (if c.pc.Publish? then [c.pc.event] else [])
      && e.department == c.department
  {
    hide Transition;
  }

  /** Which store a step writes, store by store. */
  lemma NextWrites(s: State, i: string, c: Call, freshRef: string)
    ensures var e, t := AdvanceCall(i, s.At(i), c, Lookup(s.budgets, c.department), freshRef), Next(s, i, c, freshRef);
      && t.sagas == (if IsMarker(c.pc) then s.sagas[i := MarkedRecord(Lookup(s.sagas, i), c)] else s.sagas)
      && t.provider == (if c.pc.RegisterPayment? && i !in s.provider then s.provider[i := freshRef] else s.provider)
      && t.events == (if c.pc.Publish? then s.events + [c.pc.event] else s.events)
      && t.budgets == (if e.credit != 0 && c.department in s.budgets
                       then s.budgets[c.department := s.budgets[c.department] + e.credit] else s.budgets)
      && Lookup(t.calls, i) == e.slot.call
  {
    var e := AdvanceCall(i, s.At(i), c, Lookup(s.budgets, c.department), freshRef);
    StepEffect(i, s.At(i), c, Lookup(s.budgets, c.department), freshRef);
    hide AdvanceCall, MarkedRecord;
    ApplyWrites(s, i, e);
  }

  lemma OneMoreStep(start: State, trace: seq<Action>, s: State, i: string, c: Call, freshRef: string)
    requires LeadsTo(Step, start, trace, s) && Lookup(s.calls, i) == Some(c)
    requires c.pc.RegisterPayment? ==> freshRef !in s.provider.Values
    ensures LeadsTo(Step, start, trace + [Advance(i, freshRef)], Next(s, i, c, freshRef))
  {
    RunSnoc(Step, start, trace, Advance(i, freshRef));
  }

  lemma OneMoreStop(start: State, trace: seq<Action>, s: State, i: string, c: Call)
    requires LeadsTo(Step, start, trace, s) && Lookup(s.calls, i) == Some(c)
    ensures LeadsTo(Step, start, trace + [Halt(i)], Apply(s, i, Effect(s.At(i).(call := None), "", 0, [], StopsOf(c))))
  {
    RunSnoc(Step, start, trace, Halt(i));
  }

  /** A delivery opens a call, unless the durable record is terminal already. */
  lemma OneMoreDelivery(start: State, trace: seq<Action>, s: State, i: string, r: Request)
    requires LeadsTo(Step, start, trace, s) && i !in s.calls
    ensures LeadsTo(Step, start, trace + [Begin(i, r)], Opened(s, i, r))
  {
    RunSnoc(Step, start, trace, Begin(i, r));
    ApplyWrites(s, i, EffectOf(s, Begin(i, r)).value);
  }

  ghost function Opened(s: State, i: string, r: Request): State {
    if i in s.sagas && s.sagas[i].state.Terminal() then s
    else s.(calls := s.calls[i := Opening(Lookup(s.sagas, i), r)])
  }

  // ----- what a delivery comes to

  /** What the service has on its books. */
  datatype Books = Books(sagas: map<string, SagaRecord>, budgets: map<string, int>, provider: map<string, string>, events: seq<Event>)

  /** Invoice `i` ends as `saga` and `event` is told; no other saga and no money is touched. */
  function Close(b: Books, i: string, saga: SagaRecord, event: Event): Books {
    b.(sagas := b.sagas[i := saga], events := b.events + [event])
  }

  /** The deal of invoice `i`: that of its record, once it has one. */
  function Deal(b: Books, i: string, r: Request): SagaRecord {
    if i in b.sagas then b.sagas[i]
    else SagaRecord(r.correlationId, Started, r.department, r.amountCents, None, None)
  }

  /** The deal a call works on. */
  function DealOf(record: Option<SagaRecord>, c: Call): SagaRecord {
    if record.Some? then record.value
    else SagaRecord(c.correlationId, Started, c.department, c.amountCents, None, None)
  }

  function Refuse(b: Books, i: string, deal: SagaRecord, state: SagaState, reason: Reason, compensated: bool): Books {
    Close(b, i, deal.(state := state, failureReason := Some(reason)), PaymentFailed(i, deal.correlationId, reason, compensated))
  }

  function Pay(b: Books, i: string, deal: SagaRecord, ref: string): Books {
    Close(b, i, deal.(state := Paid, paymentRef := Some(ref)),
          PaymentCompleted(i, deal.correlationId, deal.amountCents, Lookup(b.budgets, deal.department), deal.department))
  }

  /** The payment of a reserved deal. A payment made earlier counts; a declined one is given back. */
  function Executed(b: Books, i: string, deal: SagaRecord, r: Request, freshRef: string): Books {
    var d := deal.department;
    if i in b.provider then Pay(b, i, deal, b.provider[i])
    else if r.injection && "payment-failure" <= r.scenario then
      Refuse(b.(budgets := if d in b.budgets then b.budgets[d := b.budgets[d] + deal.amountCents] else b.budgets),
             i, deal, Compensated, PaymentDeclined, true)
    else Pay(b.(provider := b.provider[i := freshRef]), i, deal, freshRef)
  }

  /** The reservation of a deal that is not reserved yet, and the payment: money moves only if the
      department has it. */
  function Reserving(b: Books, i: string, deal: SagaRecord, r: Request, freshRef: string): Books {
    var d := deal.department;
    if d in b.budgets && deal.amountCents <= b.budgets[d] then
      Executed(b.(budgets := b.budgets[d := b.budgets[d] - deal.amountCents]), i, deal, r, freshRef)
    else Refuse(b, i, deal, RejectedInsufficientBudget, InsufficientBudget, false)
  }

  /** What a delivery that runs to its end leaves, from what there was before it. */
  function Settled(b: Books, i: string, r: Request, freshRef: string): Books {
    var deal := Deal(b, i, r);
    if deal.state.Paid? || deal.state.Compensated? || deal.state.RejectedInsufficientBudget? then b
    else if deal.amountCents <= 0 then Refuse(b, i, deal, Compensated, InvalidAmount, false)
    else if deal.state.Reserved? then Executed(b, i, deal, r, freshRef)
    else if r.autoRoute && r.ceilingCents.Some? && deal.amountCents > r.ceilingCents.value then
      Refuse(b, i, deal, Compensated, CeilingViolation, false)
    else Reserving(b, i, deal, r, freshRef)
  }

  /** A marker on the way changes nothing of the outcome. */
  lemma MarkersPass(b: Books, i: string, c: Call, r: Request, freshRef: string)
    requires c.pc.WriteStarted? || c.pc.WriteReserved?
    ensures var deal, rec := DealOf(Lookup(b.sagas, i), c), MarkedRecord(Lookup(b.sagas, i), c);
      var marked := b.(sagas := b.sagas[i := rec]);
      && rec == deal.(state := if c.pc.WriteStarted? then Started else Reserved)
      && Executed(marked, i, rec, r, freshRef) == Executed(b, i, deal, r, freshRef)
      && Reserving(marked, i, rec, r, freshRef) == Reserving(b, i, deal, r, freshRef)
  {
    var deal, rec := DealOf(Lookup(b.sagas, i), c), MarkedRecord(Lookup(b.sagas, i), c);
    hide Executed, Reserving;
    MarksPass(b, i, deal, rec, r, freshRef);
    ReservingPasses(b, i, deal, rec, r, freshRef);
  }

  lemma ReservingPasses(b: Books, i: string, deal: SagaRecord, rec: SagaRecord, r: Request, freshRef: string)
    requires rec == deal.(state := rec.state)
    ensures Reserving(b.(sagas := b.sagas[i := rec]), i, rec, r, freshRef) == Reserving(b, i, deal, r, freshRef)
  {
    var d := deal.department;
    if d in b.budgets && deal.amountCents <= b.budgets[d] {
      MarksPass(b.(budgets := b.budgets[d := b.budgets[d] - deal.amountCents]), i, deal, rec, r, freshRef);
      hide Executed, Refuse;
    } else {
      AssignOver(b.sagas, i, rec, deal.(state := RejectedInsufficientBudget, failureReason := Some(InsufficientBudget)));
      hide Executed;
    }
  }

  lemma AssignOver<T>(m: map<string, T>, k: string, v: T, w: T)
    ensures m[k := v][k := w] == m[k := w]
  {
  }

  lemma MarksPass(b: Books, i: string, deal: SagaRecord, rec: SagaRecord, r: Request, freshRef: string)
    requires rec == deal.(state := rec.state)
    ensures Executed(b.(sagas := b.sagas[i := rec]), i, rec, r, freshRef) == Executed(b, i, deal, r, freshRef)
  {
    AssignOver(b.sagas, i, rec, Executed(b, i, deal, r, freshRef).sagas[i]);
  }

  class PaymentService {
    var sagas: map<string, SagaRecord>
    var budgets: map<string, int>
    var provider: map<string, string>
    var events: seq<Event>
    /** The seeded budgets, the protocol steps taken so far and the state they lead to
        (which may hold calls of other invoices in flight). */
    ghost const seed: map<string, int>
    ghost var trace: seq<Action>
    ghost var state: State

    ghost function Start(): State {
      State(map[], seed, map[], [], map[], [], map[])
    }

    /** The service's data are those of a run of the protocol. */
    ghost predicate Valid()
      reads this
    {
      && sagas == state.sagas && budgets == state.budgets && provider == state.provider && events == state.events
      && LeadsTo(Step, Start(), trace, state)
    }

    ghost function Now(): Books
      reads this
    {
      Books(sagas, budgets, provider, events)
    }

    /** The call of `i` works on this deal. */
    ghost predicate Handles(i: string, c: Call, deal: SagaRecord)
      reads this
    {
      && Running(i, c) && deal == DealOf(Lookup(sagas, i), c)
      && deal.department == c.department && deal.amountCents == c.amountCents
    }

    ghost predicate Running(i: string, c: Call)
      reads this
    {
      Valid() && Lookup(state.calls, i) == Some(c)
    }

    constructor (budgets: map<string, int>)
      ensures Valid() && seed == budgets && trace == []
    {
      this.sagas, this.budgets, this.provider, this.events := map[], budgets, map[], [];
      seed, trace, state := budgets, [], State(map[], budgets, map[], [], map[], [], map[]);
    }

    /** `_transition`. */
    method WriteMarker(i: string, c: Call, freshRef: string) returns (next: Call)
      requires Running(i, c)
      requires IsMarker(c.pc)
      modifies this
      ensures Running(i, next) && trace == old(trace) + [Advance(i, freshRef)]
      ensures Now() == old(Now()).(sagas := old(sagas)[i := MarkedRecord(old(Lookup(sagas, i)), c)])
      ensures next == c.(pc := AfterMarker(i, c.pc, sagas[i]))
      ensures next.pc.Publish? <==> c.pc.WriteRejected? || c.pc.WriteCompensated? || c.pc.WritePaid?
      ensures next.pc.Publish? ==> i in sagas && sagas[i].state.Terminal()
    {
      OneMoreStep(Start(), trace, state, i, c, freshRef);
      NextWrites(state, i, c, freshRef);
      hide LeadsTo, Next;
      var rec := MarkedRecord(Lookup(sagas, i), c);
      sagas := sagas[i := rec];
      next := c.(pc := AfterMarker(i, c.pc, rec));
      state, trace := Next(state, i, c, freshRef), trace + [Advance(i, freshRef)];
    }

    method PublishEvent(i: string, c: Call, freshRef: string)
      requires Running(i, c) && c.pc.Publish?
      modifies this
      ensures Valid() && trace == old(trace) + [Advance(i, freshRef)]
      ensures i !in state.calls && Now() == old(Now()).(events := old(events) + [c.pc.event])
    {
      OneMoreStep(Start(), trace, state, i, c, freshRef);
      NextWrites(state, i, c, freshRef);
      hide LeadsTo, Next;
      events := events + [c.pc.event];
      state, trace := Next(state, i, c, freshRef), trace + [Advance(i, freshRef)];
    }

    method DebitBudget(i: string, c: Call, freshRef: string) returns (next: Call)
      requires Running(i, c) && c.pc.ReserveBudget?
      modifies this
      ensures Running(i, next) && trace == old(trace) + [Advance(i, freshRef)]
      ensures if c.department in old(budgets) && old(budgets)[c.department] >= c.amountCents
              then next == c.(pc := WriteReserved)
                   && Now() == old(Now()).(budgets := old(budgets)[c.department := old(budgets)[c.department] - c.amountCents])
              else next == c.(pc := WriteRejected) && Now() == old(Now())
    {
      OneMoreStep(Start(), trace, state, i, c, freshRef);
      NextWrites(state, i, c, freshRef);
      hide LeadsTo, Next;
      next := c.(pc := WriteRejected);
      if c.department in budgets && budgets[c.department] >= c.amountCents {
        budgets := budgets[c.department := budgets[c.department] - c.amountCents];
        next := c.(pc := WriteReserved);
      }
      state, trace := Next(state, i, c, freshRef), trace + [Advance(i, freshRef)];
    }

    method CreditBudget(i: string, c: Call, freshRef: string) returns (next: Call)
      requires Running(i, c) && c.pc.ReleaseBudget?
      modifies this
      ensures Running(i, next) && trace == old(trace) + [Advance(i, freshRef)]
      ensures next == c.(pc := WriteCompensated(PaymentDeclined))
      ensures Now() == old(Now()).(
        budgets := if c.department in old(budgets)
                   then old(budgets)[c.department := old(budgets)[c.department] + c.amountCents] else old(budgets))
    {
      OneMoreStep(Start(), trace, state, i, c, freshRef);
      NextWrites(state, i, c, freshRef);
      hide LeadsTo, Next;
      if c.department in budgets {
        budgets := budgets[c.department := budgets[c.department] + c.amountCents];
      }
      next := c.(pc := WriteCompensated(PaymentDeclined));
      state, trace := Next(state, i, c, freshRef), trace + [Advance(i, freshRef)];
    }

    /** The provider's first read and its failure injection. */
    method LookUp(i: string, c: Call, freshRef: string) returns (next: Call)
      requires Running(i, c) && c.pc.LookUpPayment?
      modifies this
      ensures Running(i, next) && trace == old(trace) + [Advance(i, freshRef)] && Now() == old(Now())
      ensures next == c.(pc := if i in provider then ReadRemaining(provider[i])
                               else if c.request.injection && "payment-failure" <= c.request.scenario then ReleaseBudget
                               else RegisterPayment)
    {
      OneMoreStep(Start(), trace, state, i, c, freshRef);
      NextWrites(state, i, c, freshRef);
      hide LeadsTo, Next;
      next := c.(pc := if i in provider then ReadRemaining(provider[i])
                       else if c.request.Declines() then ReleaseBudget else RegisterPayment);
      state, trace := Next(state, i, c, freshRef), trace + [Advance(i, freshRef)];
    }

    /** The provider's first write; a reference already there wins. */
    method Register(i: string, c: Call, freshRef: string) returns (next: Call)
      requires Running(i, c) && c.pc.RegisterPayment? && freshRef !in provider.Values
      modifies this
      ensures Running(i, next) && trace == old(trace) + [Advance(i, freshRef)]
      ensures i in provider && next == c.(pc := ReadRemaining(provider[i]))
      ensures Now() == old(Now()).(provider := if i in old(provider) then old(provider) else old(provider)[i := freshRef])
    {
      OneMoreStep(Start(), trace, state, i, c, freshRef);
      NextWrites(state, i, c, freshRef);
      hide LeadsTo, Next;
      if i !in provider {
        provider := provider[i := freshRef];
      }
      next := c.(pc := ReadRemaining(provider[i]));
      state, trace := Next(state, i, c, freshRef), trace + [Advance(i, freshRef)];
    }

    method GetRemaining(i: string, c: Call, freshRef: string) returns (next: Call)
      requires Running(i, c) && c.pc.ReadRemaining?
      modifies this
      ensures Running(i, next) && trace == old(trace) + [Advance(i, freshRef)]
      ensures next == c.(pc := WritePaid(c.pc.ref, Lookup(budgets, c.department))) && Now() == old(Now())
    {
      OneMoreStep(Start(), trace, state, i, c, freshRef);
      NextWrites(state, i, c, freshRef);
      hide LeadsTo, Next;
      next := c.(pc := WritePaid(c.pc.ref, Lookup(budgets, c.department)));
      state, trace := Next(state, i, c, freshRef), trace + [Advance(i, freshRef)];
    }

    /** A crash or an exception: the local variables are gone. */
    method Stop(i: string, c: Call)
      requires Running(i, c)
      modifies this
      ensures Valid() && trace == old(trace) + [Halt(i)] && i !in state.calls && Now() == old(Now())
    {
      OneMoreStop(Start(), trace, state, i, c);
      hide LeadsTo;
      state, trace := Apply(state, i, Effect(state.At(i).(call := None), "", 0, [], StopsOf(c))), trace + [Halt(i)];
    }

    /** The call of `i` is over after `k` steps since `since`: it was stopped, or it returned
        the durable terminal record. */
    ghost predicate Ended(since: seq<Action>, i: string, freshRef: string, k: nat, r: HandleResult)
      reads this
    {
      && Valid() && i !in state.calls
      && match r
         case Stopped => trace == since + Advances(i, freshRef, k) + [Halt(i)]
         case Returned(record) =>
           trace == since + Advances(i, freshRef, k) && Lookup(sagas, i) == Some(record) && record.state.Terminal()
    }

    /** The terminal marker, then its event. */
    method Conclude(i: string, c: Call, freshRef: string, n: nat, ghost since: seq<Action>, ghost k: nat)
      returns (r: HandleResult, ghost j: nat)
      requires Running(i, c) && trace == since + Advances(i, freshRef, k)
      requires c.pc.WriteRejected? || c.pc.WriteCompensated? || c.pc.WritePaid?
      modifies this
      ensures Ended(since, i, freshRef, j, r)
      ensures j <= k + n && (r.Stopped? ==> j == k + n) && (n >= 2 ==> r.Returned?)
      ensures r.Returned? ==>
        var b, deal := old(Now()), DealOf(old(Lookup(sagas, i)), c);
        match c.pc
        case WriteRejected => Now() == Refuse(b, i, deal, RejectedInsufficientBudget, InsufficientBudget, false)
        case WriteCompensated(reason) => Now() == Refuse(b, i, deal, Compensated, reason, reason.PaymentDeclined?)
        case WritePaid(ref, left) =>
          Now() == Close(b, i, deal.(state := Paid, paymentRef := Some(ref)),
                         PaymentCompleted(i, deal.correlationId, deal.amountCents, left, deal.department))
        case _ => true
    {
      hide LeadsTo;
      if n == 0 {
        Stop(i, c);
        return Stopped, k;
      }
      var c1 := WriteMarker(i, c, freshRef);
      if n == 1 {
        Stop(i, c1);
        return Stopped, k + 1;
      }
      assert trace == since + Advances(i, freshRef, k + 1);
      PublishEvent(i, c1, freshRef);
      r, j := Returned(sagas[i]), k + 2;
    }

    /** Budget read-out, then the marker `paid`. */
    method Complete(i: string, c: Call, freshRef: string, n: nat, ghost since: seq<Action>, ghost k: nat)
      returns (r: HandleResult, ghost j: nat)
      requires Running(i, c) && trace == since + Advances(i, freshRef, k) && c.pc.ReadRemaining?
      requires Handles(i, c, DealOf(Lookup(sagas, i), c))
      modifies this
      ensures Ended(since, i, freshRef, j, r)
      ensures j <= k + n && (r.Stopped? ==> j == k + n) && (n >= 3 ==> r.Returned?)
      ensures r.Returned? ==> Now() == Pay(old(Now()), i, DealOf(old(Lookup(sagas, i)), c), c.pc.ref)
    {
      hide LeadsTo;
      if n == 0 {
        Stop(i, c);
        return Stopped, k;
      }
      var c1 := GetRemaining(i, c, freshRef);
      r, j := Conclude(i, c1, freshRef, n - 1, since, k + 1);
    }

    /** Step 4: execute the payment, or give the reservation back when it is declined. */
    method Execute(i: string, c: Call, freshRef: string, n: nat, ghost since: seq<Action>, ghost k: nat)
      returns (r: HandleResult, ghost j: nat)
      requires Running(i, c) && trace == since + Advances(i, freshRef, k)
      requires c.pc.LookUpPayment? && freshRef !in provider.Values
      requires Handles(i, c, DealOf(Lookup(sagas, i), c))
      modifies this
      ensures Ended(since, i, freshRef, j, r)
      ensures j <= k + n && (r.Stopped? ==> j == k + n) && (n >= 5 ==> r.Returned?)
      ensures r.Returned? ==> Now() == Executed(old(Now()), i, DealOf(old(Lookup(sagas, i)), c), c.request, freshRef)
    {
      hide LeadsTo, Pay, Refuse;
      if n == 0 {
        Stop(i, c);
        return Stopped, k;
      }
      var c1 := LookUp(i, c, freshRef);
      if c1.pc.ReadRemaining? {
        r, j := Complete(i, c1, freshRef, n - 1, since, k + 1);
        return;
      }
      if n == 1 {
        Stop(i, c1);
        return Stopped, k + 1;
      }
      if c1.pc.ReleaseBudget? {
        var c2 := CreditBudget(i, c1, freshRef);
        r, j := Conclude(i, c2, freshRef, n - 2, since, k + 2);
      } else {
        var c2 := Register(i, c1, freshRef);
        r, j := Complete(i, c2, freshRef, n - 2, since, k + 2);
      }
    }

    /** The end of step 3: the marker `reserved`, then the payment. */
    method Commit(i: string, c: Call, freshRef: string, n: nat, ghost since: seq<Action>, ghost k: nat)
      returns (r: HandleResult, ghost j: nat)
      requires Running(i, c) && trace == since + Advances(i, freshRef, k)
      requires c.pc.WriteReserved? && freshRef !in provider.Values
      requires Handles(i, c, DealOf(Lookup(sagas, i), c))
      modifies this
      ensures Ended(since, i, freshRef, j, r)
      ensures j <= k + n && (r.Stopped? ==> j == k + n) && (n >= 6 ==> r.Returned?)
      ensures r.Returned? ==> Now() == Executed(old(Now()), i, DealOf(old(Lookup(sagas, i)), c), c.request, freshRef)
    {
      hide LeadsTo;
      if n == 0 {
        Stop(i, c);
        return Stopped, k;
      }
      MarkersPass(Now(), i, c, c.request, freshRef);
      hide Executed, MarkedRecord;
      var c1 := WriteMarker(i, c, freshRef);
      r, j := Execute(i, c1, freshRef, n - 1, since, k + 1);
    }

    /** Step 3: reserve the budget, then execute. */
    method Reserve(i: string, c: Call, freshRef: string, n: nat, ghost since: seq<Action>, ghost k: nat)
      returns (r: HandleResult, ghost j: nat)
      requires Running(i, c) && trace == since + Advances(i, freshRef, k)
      requires c.pc.ReserveBudget? && freshRef !in provider.Values
      requires Handles(i, c, DealOf(Lookup(sagas, i), c))
      modifies this
      ensures Ended(since, i, freshRef, j, r)
      ensures j <= k + n && (r.Stopped? ==> j == k + n) && (n >= 7 ==> r.Returned?)
      ensures r.Returned? ==> Now() == Reserving(old(Now()), i, DealOf(old(Lookup(sagas, i)), c), c.request, freshRef)
    {
      hide LeadsTo, Executed, Refuse;
      if n == 0 {
        Stop(i, c);
        return Stopped, k;
      }
      var c1 := DebitBudget(i, c, freshRef);
      if c1.pc.WriteRejected? {
        r, j := Conclude(i, c1, freshRef, n - 1, since, k + 1);
      } else {
        r, j := Commit(i, c1, freshRef, n - 1, since, k + 1);
      }
    }

    /** Step 2 for a new invoice: the marker `started`, then the reservation. */
    method BeginSaga(i: string, c: Call, freshRef: string, n: nat, ghost since: seq<Action>)
      returns (r: HandleResult, ghost j: nat)
      requires Running(i, c) && trace == since
      requires c.pc.WriteStarted? && freshRef !in provider.Values
      requires Handles(i, c, DealOf(Lookup(sagas, i), c))
      modifies this
      ensures Ended(since, i, freshRef, j, r)
      ensures j <= n && (r.Stopped? ==> j == n) && (n >= 8 ==> r.Returned?)
      ensures r.Returned? ==> Now() == Reserving(old(Now()), i, DealOf(old(Lookup(sagas, i)), c), c.request, freshRef)
    {
      hide LeadsTo;
      assert trace == since + Advances(i, freshRef, 0);
      if n == 0 {
        Stop(i, c);
        return Stopped, 0;
      }
      MarkersPass(Now(), i, c, c.request, freshRef);
      hide Executed, Reserving, MarkedRecord;
      var c1 := WriteMarker(i, c, freshRef);
      r, j := Reserve(i, c1, freshRef, n - 1, since, 1);
    }

    /** The read at the top of `handle`: None when the record is terminal already. */
    method Open(i: string, request: Request) returns (c: Option<Call>)
      requires Valid() && i !in state.calls
      modifies this
      ensures Valid() && trace == old(trace) + [Begin(i, request)]
      ensures Now() == old(Now())
      ensures c.None? <==> i in sagas && sagas[i].state.Terminal()
      ensures c.None? ==> i !in state.calls
      ensures c.Some? ==> Running(i, c.value) && c.value == Opening(Lookup(sagas, i), request)
    {
      OneMoreDelivery(Start(), trace, state, i, request);
      hide LeadsTo;
      var record := Lookup(sagas, i);
      c := if record.Some? && record.value.state.Terminal() then None else Some(Opening(record, request));
      state, trace := Opened(state, i, request), trace + [Begin(i, request)];
    }

    /** `handle`, stopped after `n` steps (a crash or an exception; 8 steps always reach the
        end): it takes the protocol's steps for this delivery and no other, what it returns is
        the durable terminal record, and what it leaves by then is `Settled`. `freshRef` is the payment reference the
        provider would draw. */
    method Handle(i: string, request: Request, freshRef: string, n: nat) returns (r: HandleResult, ghost k: nat)
      requires Valid() && i !in state.calls && freshRef !in provider.Values
      modifies this
      ensures Ended(old(trace) + [Begin(i, request)], i, freshRef, k, r)
      ensures k <= n && (r.Stopped? ==> k == n) && (n >= 8 ==> r.Returned?)
      ensures r.Returned? ==> Now() == Settled(old(Now()), i, request, freshRef)
    {
      hide LeadsTo, Executed, Reserving, Refuse;
      k := 0;
      var record := Lookup(sagas, i);
      var opening := Open(i, request);
      ghost var since := trace;
      assert trace == since + Advances(i, freshRef, 0);
      hide Advances;
      if opening.None? {
        r := Returned(record.value);
        return;
      }
      var c := opening.value;
      if c.amountCents <= 0 {
        r, k := Conclude(i, c, freshRef, n, since, 0);
      } else if request.OverCeiling(c.amountCents) && !(record.Some? && record.value.state.Reserved?) {
        r, k := Conclude(i, c, freshRef, n, since, 0);
      } else if record.None? {
        r, k := BeginSaga(i, c, freshRef, n, since);
      } else if record.value.state.Started? {
        r, k := Reserve(i, c, freshRef, n, since, 0);
      } else {
        r, k := Execute(i, c, freshRef, n, since, 0);
      }
    }
  }
}
