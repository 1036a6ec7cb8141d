/** What every interleaving of saga calls keeps, through crashes and redeliveries. */
module SagaSafety {
  import opened Wrappers
  import opened Collections
  import opened Runs
  import opened Sums
  import opened PaymentSaga

  /** The published event tells what the durable record says. */
  ghost predicate Agrees(e: Event, rec: SagaRecord) {
    && e.correlationId == rec.correlationId
    && match e
       case PaymentCompleted(_, _, amount, _, dept) =>
         rec.state.Paid? && amount == rec.amountCents && dept == rec.department
       case PaymentFailed(_, _, reason, compensated) =>
         && (rec.state.Compensated? || rec.state.RejectedInsufficientBudget?)
         && rec.failureReason == Some(reason)
         && compensated == reason.PaymentDeclined?
         && (rec.state.RejectedInsufficientBudget? <==> reason.InsufficientBudget?)
  }

  ghost predicate Published(events: seq<Event>, i: string) {
    exists k :: 0 <= k < |events| && events[k].invoice == i
  }

  /** The durable record, the provider's record and the opening request fit together.
      `known` says whether the record's department has a budget. */
  ghost predicate RecordOk(slot: Slot, known: set<string>) {
    && (slot.ref.Some? ==> slot.saga.Some? && (slot.saga.value.state.Reserved? || slot.saga.value.state.Paid?))
    && (slot.openedBy.Some? ==> slot.saga.Some?)
    && (slot.saga.Some? ==>
      var rec := slot.saga.value;
      && (!rec.state.Compensated? ==> slot.openedBy.Some?)
      && (rec.state.Reserved? || rec.state.Paid? ==> rec.department in known)
      && (if rec.state.Paid? then slot.ref.Some? && rec.paymentRef == slot.ref else rec.paymentRef == None)
      && (slot.openedBy.Some? ==>
        var r := slot.openedBy.value;
        && rec.correlationId == r.correlationId && rec.department == r.department && rec.amountCents == r.amountCents
        && rec.amountCents > 0 && !r.OverCeiling(rec.amountCents)))
  }

  ghost predicate InState(slot: Slot, state: SagaState) {
    slot.saga.Some? && slot.saga.value.state == state
  }

  /** The local variables of a call agree with the durable data at every point. */
  ghost predicate CallOk(i: string, slot: Slot, known: set<string>, published: bool)
    requires slot.call.Some?
  {
    var c := slot.call.value;
    && !published
    && (slot.saga.Some? ==>
      var rec := slot.saga.value;
      c.correlationId == rec.correlationId && c.department == rec.department && c.amountCents == rec.amountCents)
    && match c.pc
       case WriteStarted =>
         slot.saga.None? && c.amountCents > 0 && !c.request.OverCeiling(c.amountCents)
         && c.correlationId == c.request.correlationId && c.department == c.request.department
         && c.amountCents == c.request.amountCents
       case ReserveBudget => InState(slot, Started)
       case WriteRejected => InState(slot, Started)
       case WriteReserved => InState(slot, Started) && c.department in known
       case LookUpPayment => InState(slot, Reserved)
       case RegisterPayment => InState(slot, Reserved) && slot.ref.None?
       case ReleaseBudget => InState(slot, Reserved) && slot.ref.None?
       case WriteCompensated(reason) =>
         && !reason.InsufficientBudget? && slot.ref.None?
         && (if reason.PaymentDeclined? then InState(slot, Reserved) else slot.saga.None? || InState(slot, Started))
       case ReadRemaining(ref) => InState(slot, Reserved) && slot.ref == Some(ref)
       case WritePaid(ref, _) => InState(slot, Reserved) && slot.ref == Some(ref)
       case Publish(event) =>
         slot.saga.Some? && slot.saga.value.state.Terminal() && event.invoice == i && Agrees(event, slot.saga.value)
  }

  ghost predicate SlotOk(i: string, slot: Slot, known: set<string>, published: bool) {
    && RecordOk(slot, known)
    && (slot.call.Some? ==> CallOk(i, slot, known, published))
    && (published ==> slot.saga.Some? && slot.saga.value.state.Terminal())
  }

  /** Every published event agrees with the durable record, and no invoice has two. */
  ghost predicate EventsOk(s: State) {
    && (forall k | 0 <= k < |s.events| ::
          s.events[k].invoice in s.sagas && Agrees(s.events[k], s.sagas[s.events[k].invoice]))
    && (forall k, l | 0 <= k < l < |s.events| :: s.events[k].invoice != s.events[l].invoice)
  }

  /** The cents of department `d` an invoice holds: reserved or paid for good, or already
      debited and about to be marked; not those a running call has credited back. */
  ghost function HeldBy(slot: Slot, d: string): int {
    (if slot.saga.Some? && slot.saga.value.department == d
        && (slot.saga.value.state.Reserved? || slot.saga.value.state.Paid?)
        && !(slot.call.Some? && slot.call.value.pc == WriteCompensated(PaymentDeclined))
     then slot.saga.value.amountCents else 0)
    + (if slot.call.Some? && slot.call.value.pc.WriteReserved? && slot.call.value.department == d
       then slot.call.value.amountCents else 0)
  }

  /** Cents of `d` debited by calls that stopped before they marked it. */
  ghost function Lost(stops: seq<Stop>, d: string): int {
    if stops == [] then 0
    else Lost(stops[..|stops| - 1], d)
         + var x := stops[|stops| - 1]; if x.AfterReserve? && x.department == d then x.amountCents else 0
  }

  /** Cents of `d` credited back by calls that stopped before they marked it. */
  ghost function Gained(stops: seq<Stop>, d: string): int {
    if stops == [] then 0
    else Gained(stops[..|stops| - 1], d)
         + var x := stops[|stops| - 1]; if x.AfterRelease? && x.department == d then x.amountCents else 0
  }

  ghost function Ids(s: State): set<string> {
    s.sagas.Keys + s.calls.Keys
  }

  /** The holdings of `d` over all invoices. */
  ghost function TotalHeld(s: State, d: string): int {
    Sum(Ids(s), i => HeldBy(s.At(i), d))
  }

  ghost predicate LedgerOk(s: State, seed: map<string, int>, d: string) {
    d in seed && d in s.budgets ==>
      && s.budgets[d] >= 0
      && s.budgets[d] == seed[d] - TotalHeld(s, d) - Lost(s.stops, d) + Gained(s.stops, d)
  }

  ghost predicate Inv(s: State, seed: map<string, int>) {
    && s.budgets.Keys == seed.Keys
    && (forall i :: SlotOk(i, s.At(i), seed.Keys, Published(s.events, i)))
    && EventsOk(s)
    && (forall k | 0 <= k < |s.stops| :: s.stops[k].BeforePublish? || s.stops[k].amountCents > 0)
    && (forall d :: LedgerOk(s, seed, d))
  }

  // ----- one step, seen from its own invoice

  /** What the first marker fixes for good. */
  ghost predicate SameDeal(a: SagaRecord, b: SagaRecord) {
    a.department == b.department && a.amountCents == b.amountCents && a.correlationId == b.correlationId
  }

  /** A step keeps the slot sound, publishes at most the one agreeing event, and leaves the
      deal, a payment reference and a terminal record alone. */
  ghost predicate EffectSound(i: string, slot: Slot, e: Effect, known: set<string>, published: bool) {
    && SlotOk(i, e.slot, known, published || e.events != [])
    && (e.events == [] || (|e.events| == 1 && !published && e.events[0].invoice == i
                           && e.slot.saga.Some? && Agrees(e.events[0], e.slot.saga.value)))
    && (slot.saga.Some? ==> e.slot.saga.Some? && SameDeal(slot.saga.value, e.slot.saga.value))
    && (slot.ref.Some? ==> e.slot.ref == slot.ref)
    && (slot.saga.Some? && slot.saga.value.state.Terminal() ==> e.slot.saga == slot.saga)
  }

  /** A step credits exactly what the invoice stops holding, up to a recorded stop, and
      debits no more than is left. */
  ghost predicate EffectBalances(slot: Slot, e: Effect, d: string, left: Option<int>) {
    && (if d == e.department then e.credit else 0)
       == HeldBy(slot, d) - HeldBy(e.slot, d) - Lost(e.stops, d) + Gained(e.stops, d)
    && (e.credit < 0 ==> left.Some? && left.value + e.credit >= 0)
    && |e.stops| <= 1
  }

  lemma MarkerSound(i: string, slot: Slot, c: Call, left: Option<int>, freshRef: string, known: set<string>, published: bool)
    requires SlotOk(i, slot, known, published) && slot.call == Some(c) && IsMarker(c.pc)
    ensures EffectSound(i, slot, AdvanceCall(i, slot, c, left, freshRef), known, published)
  {
    match c.pc
    case WriteStarted =>
    case WriteRejected =>
    case WriteReserved =>
    case WriteCompensated(_) =>
    case WritePaid(_, _) =>
  }

  lemma AdvanceSound(i: string, slot: Slot, c: Call, left: Option<int>, freshRef: string, known: set<string>, published: bool)
    requires SlotOk(i, slot, known, published) && slot.call == Some(c)
    requires left.Some? <==> c.department in known
    ensures EffectSound(i, slot, AdvanceCall(i, slot, c, left, freshRef), known, published)
  {
    hide MarkedRecord, AfterMarker;
    match c.pc
    case ReserveBudget =>
    case LookUpPayment =>
    case RegisterPayment =>
    case ReleaseBudget =>
    case ReadRemaining(_) =>
    case Publish(_) =>
    case _ => MarkerSound(i, slot, c, left, freshRef, known, published);
  }

  lemma AdvanceBalances(i: string, slot: Slot, c: Call, left: Option<int>, freshRef: string, known: set<string>,
                        published: bool, d: string)
    requires SlotOk(i, slot, known, published) && slot.call == Some(c)
    requires (left.Some? <==> c.department in known) && d in known
    ensures EffectBalances(slot, AdvanceCall(i, slot, c, left, freshRef), d, left)
  {
    match c.pc
    case WriteStarted =>
    case ReserveBudget =>
    case WriteRejected =>
    case WriteReserved =>
    case LookUpPayment =>
    case RegisterPayment =>
    case ReleaseBudget =>
    case WriteCompensated(_) =>
    case ReadRemaining(_) =>
    case WritePaid(_, _) =>
    case Publish(_) =>
  }

  lemma ActionSound(s: State, a: Action, known: set<string>)
    requires s.budgets.Keys == known && EffectOf(s, a).Some?
    requires SlotOk(a.i, s.At(a.i), known, Published(s.events, a.i))
    ensures EffectSound(a.i, s.At(a.i), EffectOf(s, a).value, known, Published(s.events, a.i))
  {
    if a.Advance? {
      var c := s.At(a.i).call.value;
      AdvanceSound(a.i, s.At(a.i), c, Lookup(s.budgets, c.department), a.freshRef, known, Published(s.events, a.i));
    }
  }

  lemma ActionBalances(s: State, a: Action, d: string)
    requires EffectOf(s, a).Some? && d in s.budgets
    requires SlotOk(a.i, s.At(a.i), s.budgets.Keys, Published(s.events, a.i))
    ensures var e := EffectOf(s, a).value;
      EffectBalances(s.At(a.i), e, d, Lookup(s.budgets, e.department))
  {
    var slot := s.At(a.i);
    match a
    case Begin(_, _) =>
    case Advance(i, freshRef) =>
      var c := slot.call.value;
      AdvanceBalances(i, slot, c, Lookup(s.budgets, c.department), freshRef, s.budgets.Keys, Published(s.events, i), d);
    case Halt(_) =>
      var stops := StopsOf(slot.call.value);
      if stops != [] { assert stops[..0] == []; }
  }

  // ----- one step, seen from the whole state

  lemma ApplyFrame(s: State, i: string, e: Effect, j: string)
    ensures Apply(s, i, e).At(j) == if j == i then e.slot else s.At(j)
    ensures Apply(s, i, e).budgets.Keys == s.budgets.Keys
  {
  }

  lemma PublishedAfter(events: seq<Event>, more: seq<Event>, i: string, j: string)
    requires more == [] || (|more| == 1 && more[0].invoice == i)
    ensures Published(events + more, j) <==> Published(events, j) || (j == i && more != [])
  {
    if Published(events, j) {
      var k :| 0 <= k < |events| && events[k].invoice == j;
      assert (events + more)[k].invoice == j;
    }
    if more != [] {
      assert (events + more)[|events|].invoice == i;
    }
  }

  lemma SlotsStayOk(s: State, a: Action, seed: map<string, int>, j: string)
    requires Inv(s, seed) && Step(s, a).Some?
    ensures var t := Step(s, a).value; SlotOk(j, t.At(j), seed.Keys, Published(t.events, j))
  {
    var e := EffectOf(s, a).value;
    ActionSound(s, a, seed.Keys);
    ApplyFrame(s, a.i, e, j);
    PublishedAfter(s.events, e.events, a.i, j);
  }

  lemma EventsStayOk(s: State, a: Action, seed: map<string, int>)
    requires Inv(s, seed) && Step(s, a).Some?
    ensures EventsOk(Step(s, a).value)
  {
    var e := EffectOf(s, a).value;
    var t := Apply(s, a.i, e);
    ActionSound(s, a, seed.Keys);
    forall k | 0 <= k < |t.events|
      ensures t.events[k].invoice in t.sagas && Agrees(t.events[k], t.sagas[t.events[k].invoice])
    {
      var j := t.events[k].invoice;
      ApplyFrame(s, a.i, e, j);
      if k < |s.events| {
        assert t.events[k] == s.events[k] && SlotOk(j, s.At(j), seed.Keys, true);
      }
      assert t.At(j).saga == Lookup(t.sagas, j);
    }
    forall k, l | 0 <= k < l < |t.events| ensures t.events[k].invoice != t.events[l].invoice {
      assert t.events[k] == s.events[k];
    }
  }

  lemma StopTotals(stops: seq<Stop>, more: seq<Stop>, d: string)
    requires |more| <= 1
    ensures Lost(stops + more, d) == Lost(stops, d) + Lost(more, d)
    ensures Gained(stops + more, d) == Gained(stops, d) + Gained(more, d)
  {
    if more == [] {
      assert stops + more == stops;
    } else {
      assert (stops + more)[..|stops + more| - 1] == stops;
      assert more[..0] == [];
    }
  }

  lemma HeldMoves(s: State, i: string, t: State, d: string)
    requires forall j | j != i :: t.At(j) == s.At(j)
    requires Ids(s) + {i} == Ids(t) + {i}
    ensures TotalHeld(t, d) == TotalHeld(s, d) - HeldBy(s.At(i), d) + HeldBy(t.At(i), d)
  {
    var f := (j: string) => HeldBy(s.At(j), d);
    var g := (j: string) => HeldBy(t.At(j), d);
    assert (i !in Ids(s) ==> f(i) == 0) && (i !in Ids(t) ==> g(i) == 0);
    hide HeldBy;
    SumUpdate(Ids(s), f, g, i);
    SumUpdate(Ids(t), g, g, i);
    assert Sum(Ids(s), f) == TotalHeld(s, d);
    assert Sum(Ids(t), g) == TotalHeld(t, d);
  }

  lemma LedgerAfter(s: State, i: string, e: Effect, seed: map<string, int>, d: string)
    requires LedgerOk(s, seed, d) && EffectBalances(s.At(i), e, d, Lookup(s.budgets, e.department))
    requires d in seed && d in s.budgets
    ensures LedgerOk(Apply(s, i, e), seed, d)
  {
    var t := Apply(s, i, e);
    forall j ensures t.At(j) == if j == i then e.slot else s.At(j) {
      ApplyFrame(s, i, e, j);
    }
    HeldMoves(s, i, t, d);
    StopTotals(s.stops, e.stops, d);
  }

  lemma LedgerStaysOk(s: State, a: Action, seed: map<string, int>, d: string)
    requires s.budgets.Keys == seed.Keys && SlotOk(a.i, s.At(a.i), seed.Keys, Published(s.events, a.i))
    requires LedgerOk(s, seed, d) && Step(s, a).Some?
    ensures LedgerOk(Step(s, a).value, seed, d)
  {
    if d in seed {
      ActionBalances(s, a, d);
      LedgerAfter(s, a.i, EffectOf(s, a).value, seed, d);
    }
  }

  lemma StepKeepsInv(s: State, a: Action, seed: map<string, int>)
    requires Inv(s, seed) && Step(s, a).Some?
    ensures Inv(Step(s, a).value, seed)
  {
    var t := Step(s, a).value;
    EventsStayOk(s, a, seed);
    forall j ensures SlotOk(j, t.At(j), seed.Keys, Published(t.events, j)) {
      SlotsStayOk(s, a, seed, j);
    }
    assert SlotOk(a.i, s.At(a.i), seed.Keys, Published(s.events, a.i));
    forall d ensures LedgerOk(t, seed, d) {
      LedgerStaysOk(s, a, seed, d);
    }
  }

  lemma RunKeepsInv(s0: State, trace: seq<Action>, seed: map<string, int>)
    requires Init(s0, seed) && Run(Step, s0, trace).Some?
    ensures Inv(Run(Step, s0, trace).value, seed)
  {
    forall d ensures LedgerOk(s0, seed, d) {
      assert Ids(s0) == {};
    }
    var inv := (s: State) => Inv(s, seed);
    forall s, a | inv(s) && Step(s, a).Some? ensures inv(Step(s, a).value) {
      StepKeepsInv(s, a, seed);
    }
    InvariantOfRun(Step, inv, s0, trace);
  }
}
