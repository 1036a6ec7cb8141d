/** The payment guarantees, over every interleaving, crash and redelivery. */
module SagaTheorems {
  import opened Wrappers
  import opened Runs
  import opened Sums
  import opened PaymentSaga
  import opened SagaSafety

  ghost function CommittedBy(slot: Slot, d: string): int {
    if slot.saga.Some? && slot.saga.value.department == d && (slot.saga.value.state.Reserved? || slot.saga.value.state.Paid?)
    then slot.saga.value.amountCents else 0
  }

  ghost function PaidBy(slot: Slot, d: string): int {
    if slot.saga.Some? && slot.saga.value.department == d && slot.saga.value.state.Paid?
    then slot.saga.value.amountCents else 0
  }

  /** The cents of `d` of sagas durably `reserved` or `paid`. */
  ghost function Committed(s: State, d: string): int {
    Sum(s.sagas.Keys, i => CommittedBy(s.At(i), d))
  }

  /** The cents of `d` of sagas durably `paid`. */
  ghost function TotalPaid(s: State, d: string): int {
    Sum(s.sagas.Keys, i => PaidBy(s.At(i), d))
  }

  /** No stop hit the window between a committed `release` and its marker. */
  ghost predicate NoStopAfterRelease(s: State) {
    forall k | 0 <= k < |s.stops| :: !s.stops[k].AfterRelease?
  }

  /** Whenever no call is in flight, what is left of a budget is the seed minus what is
      reserved or paid, minus a debit per stop before the `reserved` marker, plus a credit
      per stop before the `compensated` marker. */
  lemma SagaLedger(s0: State, trace: seq<Action>, seed: map<string, int>, d: string)
    requires Init(s0, seed) && Run(Step, s0, trace).Some? && d in seed
    requires Run(Step, s0, trace).value.calls == map[]
    ensures var s := Run(Step, s0, trace).value;
      && d in s.budgets && s.budgets[d] >= 0
      && s.budgets[d] == seed[d] - Committed(s, d) - Lost(s.stops, d) + Gained(s.stops, d)
  {
    RunKeepsInv(s0, trace, seed);
    var s := Run(Step, s0, trace).value;
    assert LedgerOk(s, seed, d);
    assert Ids(s) == s.sagas.Keys;
    var held := (i: string) => HeldBy(s.At(i), d);
    var committed := (i: string) => CommittedBy(s.At(i), d);
    SumCongruent(s.sagas.Keys, held, committed);
    assert Sum(Ids(s), held) == TotalHeld(s, d);
  }

  /** Money is conserved exactly when what stops before the `reserved` marker lost is what stops
      before the `compensated` marker gained. */
  lemma ConservedIff(s0: State, trace: seq<Action>, seed: map<string, int>, d: string)
    requires Init(s0, seed) && Run(Step, s0, trace).Some? && d in seed
    requires Run(Step, s0, trace).value.calls == map[]
    ensures var s := Run(Step, s0, trace).value;
      d in s.budgets && (s.budgets[d] == seed[d] - Committed(s, d) <==> Lost(s.stops, d) == Gained(s.stops, d))
  {
    SagaLedger(s0, trace, seed, d);
  }

  lemma {:induction false} StopsAreSigned(stops: seq<Stop>, d: string)
    requires forall k | 0 <= k < |stops| :: stops[k].BeforePublish? || stops[k].amountCents > 0
    ensures Lost(stops, d) >= 0 && Gained(stops, d) >= 0
    ensures (forall k | 0 <= k < |stops| :: !stops[k].AfterRelease?) ==> Gained(stops, d) == 0
    ensures stops == [] ==> Lost(stops, d) == 0
  {
    if stops != [] { StopsAreSigned(stops[..|stops| - 1], d); }
  }

  /** At every moment, calls in flight or not, the department has paid at most its seed, as long
      as stops have gained it no more than they lost it. */
  lemma PaidWithinSeed(s0: State, trace: seq<Action>, seed: map<string, int>, d: string)
    requires Init(s0, seed) && Run(Step, s0, trace).Some? && d in seed
    requires var s := Run(Step, s0, trace).value; Gained(s.stops, d) <= Lost(s.stops, d)
    ensures TotalPaid(Run(Step, s0, trace).value, d) <= seed[d]
  {
    RunKeepsInv(s0, trace, seed);
    var s := Run(Step, s0, trace).value;
    assert LedgerOk(s, seed, d);
    PaidIsHeld(s, seed, d);
  }

  /** Never overspent without a stop in the window after a `release`. */
  lemma NeverOverspent(s0: State, trace: seq<Action>, seed: map<string, int>, d: string)
    requires Init(s0, seed) && Run(Step, s0, trace).Some? && d in seed
    requires NoStopAfterRelease(Run(Step, s0, trace).value)
    ensures TotalPaid(Run(Step, s0, trace).value, d) <= seed[d]
  {
    RunKeepsInv(s0, trace, seed);
    StopsAreSigned(Run(Step, s0, trace).value.stops, d);
    PaidWithinSeed(s0, trace, seed, d);
  }

  lemma PaidIsHeldBy(i: string, slot: Slot, known: set<string>, published: bool, d: string)
    requires SlotOk(i, slot, known, published)
    ensures 0 <= PaidBy(slot, d) <= HeldBy(slot, d)
  {
  }

  lemma PaidIsHeld(s: State, seed: map<string, int>, d: string)
    requires forall i :: SlotOk(i, s.At(i), seed.Keys, Published(s.events, i))
    ensures TotalPaid(s, d) <= TotalHeld(s, d)
  {
    var paid := (i: string) => PaidBy(s.At(i), d);
    var held := (i: string) => HeldBy(s.At(i), d);
    forall i ensures 0 <= paid(i) <= held(i) {
      PaidIsHeldBy(i, s.At(i), seed.Keys, Published(s.events, i), d);
    }
    hide SlotOk;
    SumMonotone(Ids(s), paid, held);
    PadWithZeros(s.sagas.Keys, s.calls.Keys, paid);
    assert Sum(Ids(s), paid) == Sum(s.sagas.Keys, paid);
    assert Sum(Ids(s), held) == TotalHeld(s, d);
  }

  lemma {:induction false} PadWithZeros<K>(a: set<K>, b: set<K>, f: K -> int)
    requires forall k | k in b && k !in a :: f(k) == 0
    ensures Sum(a + b, f) == Sum(a, f)
    decreases |b|
  {
    if b == {} {
      assert a + b == a;
    } else {
      var k :| k in b;
      PadWithZeros(a, b - {k}, f);
      SumUpdate(a + (b - {k}), f, f, k);
      assert a + b == a + (b - {k}) + {k};
    }
  }

  /** Provider and saga agree at every moment, through every crash. */
  lemma ProviderAgrees(s0: State, trace: seq<Action>, seed: map<string, int>, i: string)
    requires Init(s0, seed) && Run(Step, s0, trace).Some?
    ensures var s := Run(Step, s0, trace).value;
      && (i in s.provider ==> i in s.sagas && (s.sagas[i].state.Reserved? || s.sagas[i].state.Paid?))
      && (i in s.sagas && s.sagas[i].state.Paid? ==> i in s.provider && s.sagas[i].paymentRef == Some(s.provider[i]))
      && (i in s.sagas && (s.sagas[i].state.Compensated? || s.sagas[i].state.RejectedInsufficientBudget?) ==>
            i !in s.provider && s.sagas[i].paymentRef == None)
  {
    RunKeepsInv(s0, trace, seed);
    var s := Run(Step, s0, trace).value;
    assert SlotOk(i, s.At(i), seed.Keys, Published(s.events, i));
  }

  /** At most one payment event per invoice is ever published, and only once the durable
      record is terminal and says the same. */
  lemma OnePaymentEvent(s0: State, trace: seq<Action>, seed: map<string, int>, k: nat, l: nat)
    requires Init(s0, seed) && Run(Step, s0, trace).Some?
    requires var s := Run(Step, s0, trace).value; k < |s.events| && l < |s.events|
    ensures var s := Run(Step, s0, trace).value;
      var i := s.events[k].invoice;
      && (k != l ==> s.events[l].invoice != i)
      && i in s.sagas && s.sagas[i].state.Terminal() && Agrees(s.events[k], s.sagas[i])
  {
    RunKeepsInv(s0, trace, seed);
    var s := Run(Step, s0, trace).value;
    if k < l { assert s.events[k].invoice != s.events[l].invoice; }
  }

  /** What never changes once it is there. */
  ghost predicate Preserves(s: State, t: State) {
    && (forall i | i in s.sagas ::
          && i in t.sagas && t.sagas[i].department == s.sagas[i].department
          && t.sagas[i].amountCents == s.sagas[i].amountCents && t.sagas[i].correlationId == s.sagas[i].correlationId
          && (s.sagas[i].state.Terminal() ==> t.sagas[i] == s.sagas[i]))
    && (forall i | i in s.provider :: i in t.provider && t.provider[i] == s.provider[i])
    && s.events <= t.events && s.stops <= t.stops
  }

  ghost predicate SlotPreserves(slot: Slot, t: Slot) {
    && (slot.saga.Some? ==> t.saga.Some? && SameDeal(slot.saga.value, t.saga.value)
                            && (slot.saga.value.state.Terminal() ==> t.saga == slot.saga))
    && (slot.ref.Some? ==> t.ref == slot.ref)
  }

  lemma ApplyPreserves(s: State, i: string, e: Effect)
    requires SlotPreserves(s.At(i), e.slot)
    ensures Preserves(s, Apply(s, i, e))
  {
  }

  lemma StepPreserves(s: State, a: Action, seed: map<string, int>)
    requires Inv(s, seed) && Step(s, a).Some?
    ensures Preserves(s, Step(s, a).value)
  {
    assert SlotOk(a.i, s.At(a.i), seed.Keys, Published(s.events, a.i));
    ActionSound(s, a, seed.Keys);
    hide EffectOf, SlotOk, Apply, EventsOk;
    ApplyPreserves(s, a.i, EffectOf(s, a).value);
  }

  /** Terminal records and payment references are final, and department, amount and
      correlation id are fixed by the first marker, whatever later deliveries carry. */
  lemma DurableFactsAreFinal(s0: State, before: seq<Action>, after: seq<Action>, seed: map<string, int>)
    requires Init(s0, seed) && Run(Step, s0, before).Some?
    requires Run(Step, Run(Step, s0, before).value, after).Some?
    ensures Preserves(Run(Step, s0, before).value, Run(Step, Run(Step, s0, before).value, after).value)
  {
    RunKeepsInv(s0, before, seed);
    var inv := (s: State) => Inv(s, seed);
    forall s, a | inv(s) && Step(s, a).Some?
      ensures inv(Step(s, a).value) && Preserves(s, Step(s, a).value)
    {
      StepKeepsInv(s, a, seed);
      StepPreserves(s, a, seed);
    }
    RelationOfRun(Step, inv, Preserves, Run(Step, s0, before).value, after);
  }

  /** A saga that left the starting block was opened by a request for a positive amount
      which, if automatic, is within that request's own ceiling; the saga carries its amount,
      department and correlation id. */
  lemma OpenedWithinCeiling(s0: State, trace: seq<Action>, seed: map<string, int>, i: string)
    requires Init(s0, seed) && Run(Step, s0, trace).Some?
    requires var s := Run(Step, s0, trace).value; i in s.sagas && !s.sagas[i].state.Compensated?
    ensures var s := Run(Step, s0, trace).value;
      && i in s.openedBy && s.sagas[i].amountCents == s.openedBy[i].amountCents
      && s.sagas[i].department == s.openedBy[i].department && s.sagas[i].correlationId == s.openedBy[i].correlationId
      && 0 < s.sagas[i].amountCents
      && (s.openedBy[i].autoRoute && s.openedBy[i].ceilingCents.Some? ==>
            s.sagas[i].amountCents <= s.openedBy[i].ceilingCents.value)
  {
    RunKeepsInv(s0, trace, seed);
    var s := Run(Step, s0, trace).value;
    assert SlotOk(i, s.At(i), seed.Keys, Published(s.events, i));
  }
}
