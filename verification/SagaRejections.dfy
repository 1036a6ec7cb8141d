/** Why a payment was not made: the step of the run that decided it. */
module SagaRejections {
  import opened Wrappers
  import opened Collections
  import opened Runs
  import opened PaymentSaga
  import opened SagaSafety

  /** The action `a`, taken in `s`, gives invoice `i`, of `amount` cents of `dept`, the reason not to
      be paid: its call finds the budget short; or the provider has no payment and declines; or a
      delivery finds the amount not positive, or above its ceiling and not reserved. */
  ghost predicate Decides(s: State, a: Action, i: string, reason: Reason, dept: string, amount: int) {
    a.i == i &&
    match reason
    case InsufficientBudget =>
      && a.Advance? && i in s.calls && s.calls[i].pc.ReserveBudget?
      && (dept !in s.budgets || s.budgets[dept] < amount)
    case PaymentDeclined =>
      && a.Advance? && i in s.calls && s.calls[i].pc.LookUpPayment? && i !in s.provider
      && s.calls[i].request.injection && "payment-failure" <= s.calls[i].request.scenario
    case InvalidAmount => a.Begin? && amount <= 0
    case CeilingViolation =>
      && a.Begin? && a.request.autoRoute && a.request.ceilingCents.Some? && amount > a.request.ceilingCents.value
      && !(i in s.sagas && s.sagas[i].state.Reserved?)
  }

  ghost predicate Marked(rec: SagaRecord, reason: Reason) {
    if reason.InsufficientBudget? then rec.state.RejectedInsufficientBudget?
    else rec.state.Compensated? && rec.failureReason == Some(reason)
  }

  /** The slot is marked, or its call is about to mark it. */
  ghost predicate Turned(slot: Slot, reason: Reason, dept: string, amount: int) {
    || (slot.saga.Some? && Marked(slot.saga.value, reason)
        && slot.saga.value.department == dept && slot.saga.value.amountCents == amount)
    || (slot.call.Some? && slot.call.value.department == dept && slot.call.value.amountCents == amount
        && match slot.call.value.pc
           case WriteRejected => reason.InsufficientBudget?
           case WriteCompensated(r) => r == reason && !reason.InsufficientBudget?
           case ReleaseBudget => reason.PaymentDeclined?
           case _ => false)
  }

  /** Only a deciding step turns a saga down. */
  lemma OneStepDecides(s: State, a: Action, seed: map<string, int>, i: string, reason: Reason, dept: string, amount: int)
    requires Inv(s, seed) && Step(s, a).Some? && Turned(Step(s, a).value.At(i), reason, dept, amount)
    ensures Turned(s.At(i), reason, dept, amount) || Decides(s, a, i, reason, dept, amount)
  {
    var e := EffectOf(s, a).value;
    assert SlotOk(a.i, s.At(a.i), seed.Keys, Published(s.events, a.i));
    if a.i == i {
      assert Step(s, a).value.At(i) == e.slot;
      if a.Advance? {
        var c := s.calls[i];
        AdvanceDecides(i, s.At(i), c, Lookup(s.budgets, c.department), a.freshRef, reason, dept, amount);
      } else if a.Begin? {
        hide Marked, SlotOk;
      }
    } else {
      assert Step(s, a).value.At(i) == s.At(i);
    }
  }

  lemma AdvanceDecides(i: string, slot: Slot, c: Call, left: Option<int>, freshRef: string,
                       reason: Reason, dept: string, amount: int)
    requires slot.call == Some(c) && Turned(AdvanceCall(i, slot, c, left, freshRef).slot, reason, dept, amount)
    requires slot.saga.Some? ==> c.department == slot.saga.value.department && c.amountCents == slot.saga.value.amountCents
    ensures || Turned(slot, reason, dept, amount)
            || (c.pc.ReserveBudget? && reason.InsufficientBudget? && c.department == dept && c.amountCents == amount
                && (left.None? || left.value < amount))
            || (c.pc.LookUpPayment? && reason.PaymentDeclined? && slot.ref.None?
                && c.request.injection && "payment-failure" <= c.request.scenario)
  {
  }

  lemma {:induction false} TurnedByStep(s0: State, trace: seq<Action>, seed: map<string, int>, i: string,
                                        reason: Reason, dept: string, amount: int) returns (n: nat)
    requires Init(s0, seed) && Run(Step, s0, trace).Some?
    requires Turned(Run(Step, s0, trace).value.At(i), reason, dept, amount)
    ensures n < |trace| && Run(Step, s0, trace[..n]).Some?
    ensures Decides(Run(Step, s0, trace[..n]).value, trace[n], i, reason, dept, amount)
    decreases |trace|
  {
    n := |trace| - 1;
    RunAt(Step, s0, trace, n);
    assert trace[..n + 1] == trace;
    var s := Run(Step, s0, trace[..n]).value;
    RunKeepsInv(s0, trace[..n], seed);
    OneStepDecides(s, trace[n], seed, i, reason, dept, amount);
    hide Decides, Turned, Step, Inv;
    if Turned(s.At(i), reason, dept, amount) {
      var m := TurnedByStep(s0, trace[..n], seed, i, reason, dept, amount);
      assert trace[..n][..m] == trace[..m];
      n := m;
    }
  }

  /** A saga ends rejected only if its call asked the budget and the department did not have the
      amount at that step; no other way leads there. */
  lemma RejectedOnlyIfShort(s0: State, trace: seq<Action>, seed: map<string, int>, i: string) returns (n: nat)
    requires Init(s0, seed) && Run(Step, s0, trace).Some?
    requires var s := Run(Step, s0, trace).value; i in s.sagas && s.sagas[i].state.RejectedInsufficientBudget?
    ensures n < |trace| && Run(Step, s0, trace[..n]).Some? && trace[n].Advance? && trace[n].i == i
    ensures var budgets, saga := Run(Step, s0, trace[..n]).value.budgets, Run(Step, s0, trace).value.sagas[i];
      saga.department !in budgets || budgets[saga.department] < saga.amountCents
  {
    var saga := Run(Step, s0, trace).value.sagas[i];
    n := TurnedByStep(s0, trace, seed, i, InsufficientBudget, saga.department, saga.amountCents);
  }

  ghost predicate Named(s: State) {
    forall i | i in s.sagas && s.sagas[i].state.Compensated? ::
      s.sagas[i].failureReason.Some? && !s.sagas[i].failureReason.value.InsufficientBudget?
  }

  ghost predicate NamedRecord(saga: Option<SagaRecord>) {
    saga.Some? && saga.value.state.Compensated? ==>
      saga.value.failureReason.Some? && !saga.value.failureReason.value.InsufficientBudget?
  }

  lemma EffectNames(s: State, a: Action, seed: map<string, int>)
    requires SlotOk(a.i, s.At(a.i), seed.Keys, Published(s.events, a.i)) && NamedRecord(s.At(a.i).saga) && EffectOf(s, a).Some?
    ensures NamedRecord(EffectOf(s, a).value.slot.saga)
  {
  }

  lemma StepKeepsNamed(s: State, a: Action, seed: map<string, int>)
    requires Inv(s, seed) && Named(s) && Step(s, a).Some?
    ensures Named(Step(s, a).value)
  {
    EffectNames(s, a, seed);
    hide EffectOf, SlotOk;
  }

  lemma ReasonsAreNamed(s0: State, trace: seq<Action>, seed: map<string, int>)
    requires Init(s0, seed) && Run(Step, s0, trace).Some?
    ensures Named(Run(Step, s0, trace).value)
  {
    RunKeepsInv(s0, [], seed);
    var inv := (s: State) => Inv(s, seed) && Named(s);
    forall s, a | inv(s) && Step(s, a).Some? ensures inv(Step(s, a).value) {
      StepKeepsInv(s, a, seed);
      StepKeepsNamed(s, a, seed);
    }
    InvariantOfRun(Step, inv, s0, trace);
  }

  /** A compensated saga names its reason, and a step of the run gave it that reason. */
  lemma CompensatedOnlyFor(s0: State, trace: seq<Action>, seed: map<string, int>, i: string) returns (n: nat)
    requires Init(s0, seed) && Run(Step, s0, trace).Some?
    requires var s := Run(Step, s0, trace).value; i in s.sagas && s.sagas[i].state.Compensated?
    ensures var saga := Run(Step, s0, trace).value.sagas[i];
      && saga.failureReason.Some? && !saga.failureReason.value.InsufficientBudget?
      && n < |trace| && Run(Step, s0, trace[..n]).Some?
      && Decides(Run(Step, s0, trace[..n]).value, trace[n], i, saga.failureReason.value, saga.department, saga.amountCents)
  {
    ReasonsAreNamed(s0, trace, seed);
    var saga := Run(Step, s0, trace).value.sagas[i];
    n := TurnedByStep(s0, trace, seed, i, saga.failureReason.value, saga.department, saga.amountCents);
  }
}
