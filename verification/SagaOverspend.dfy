/** When a department can be overspent: exactly when stops have gained it more than they lost it. */
module SagaOverspend {
  import opened Wrappers
  import opened Collections
  import opened Runs
  import opened Sums
  import opened PaymentSaga
  import opened SagaSafety
  import opened SagaTheorems
  import opened SagaScenario

  // ----- without stops nothing more is gained or lost

  lemma {:induction false} StopFreeKeepsStops(s: State, trace: seq<Action>)
    requires Run(Step, s, trace).Some? && StopFree(trace)
    ensures Run(Step, s, trace).value.stops == s.stops
    decreases |trace|
  {
    if trace != [] {
      assert trace[0] in trace;
      OneStepKeepsStops(s, trace[0]);
      StopFreeKeepsStops(Step(s, trace[0]).value, trace[1..]);
    }
  }

  lemma OneStepKeepsStops(s: State, a: Action)
    requires Step(s, a).Some? && !a.Halt?
    ensures Step(s, a).value.stops == s.stops
  {
    assert EffectOf(s, a).value.stops == [];
  }

  // ----- names that are not taken

  lemma {:induction false} LongerThanAll(taken: set<string>) returns (n: nat)
    ensures forall x | x in taken :: |x| < n
    decreases |taken|
  {
    n := 0;
    if taken != {} {
      var x :| x in taken;
      var m := LongerThanAll(taken - {x});
      n := m + |x| + 1;
      forall y | y in taken ensures |y| < n {
        assert y == x || y in taken - {x};
      }
    }
  }

  lemma NotTaken(taken: set<string>) returns (x: string)
    ensures x !in taken
  {
    var n := LongerThanAll(taken);
    x := seq(n, _ => 'x');
  }

  // ----- the overspending continuation

  /** The reserved sagas of `d`. */
  ghost function ReservedOf(s: State, d: string): set<string> {
    set i | i in s.sagas && s.sagas[i].state.Reserved? && s.sagas[i].department == d
  }

  /** Between deliveries: what a continuation starts from and ends in. */
  ghost predicate Between(s0: State, trace: seq<Action>, seed: map<string, int>, s: State) {
    Init(s0, seed) && Run(Step, s0, trace) == Some(s) && s.calls == map[]
  }

  /** A redelivery that does not decline and has no ceiling. */
  ghost function Redelivery(record: SagaRecord): Request {
    Request(record.correlationId, record.department, record.amountCents, "", false, None, false)
  }

  /** Redelivering a reserved saga pays it, out of no budget. */
  lemma Repay(s: State, i: string) returns (trace: seq<Action>, e: Effect)
    requires i in s.sagas && s.sagas[i].state.Reserved? && s.sagas[i].amountCents > 0 && s.calls == map[]
    ensures StopFree(trace) && Does(s, i, trace, e)
    ensures e.credit == 0 && e.stops == [] && e.slot.call.None?
    ensures e.slot.saga.Some? && e.slot.saga.value.state.Paid?
  {
    var record := s.sagas[i];
    var r := Redelivery(record);
    var freshRef := NotTaken(s.provider.Values);
    var c := Call(record.correlationId, record.department, record.amountCents, r, LookUpPayment);
    var e0 := Effect(s.At(i).(call := Some(c)), "", 0, [], []);
    assert Opening(Some(record), r) == c;
    assert EffectOf(s, Begin(i, r)) == Some(e0);
    DoesFirst(s, i, Begin(i, r), e0);
    hide Does;
    var t, ref := PayReserved(s, i, record, c, freshRef, [Begin(i, r)], e0);
    trace := t;
    e := e0.(slot := PaidSlot(e0.slot, record, ref),
             events := [Completion(i, record, Lookup(Apply(s, i, e0).budgets, c.department))]);
  }

  lemma AppliedPayment(s: State, i: string, e: Effect, d: string)
    requires s.calls == map[] && e.stops == [] && e.slot.call.None?
    requires e.slot.saga.Some? && e.slot.saga.value.state.Paid?
    ensures var t := Apply(s, i, e);
      t.calls == map[] && t.stops == s.stops && ReservedOf(t, d) == ReservedOf(s, d) - {i}
  {
  }

  lemma ReservedIsPositive(s0: State, trace: seq<Action>, seed: map<string, int>, s: State, i: string)
    requires Between(s0, trace, seed, s) && i in s.sagas && s.sagas[i].state.Reserved?
    ensures s.sagas[i].amountCents > 0
  {
    OpenedWithinCeiling(s0, trace, seed, i);
  }

  lemma RepayOne(s0: State, before: seq<Action>, seed: map<string, int>, s: State, d: string, i: string)
    returns (trace: seq<Action>, t: State)
    requires Between(s0, before, seed, s) && i in ReservedOf(s, d)
    ensures StopFree(trace) && Run(Step, s, trace) == Some(t) && Between(s0, before + trace, seed, t)
    ensures t.stops == s.stops && ReservedOf(t, d) == ReservedOf(s, d) - {i}
  {
    ReservedIsPositive(s0, before, seed, s, i);
    var steps, e := Repay(s, i);
    AppliedPayment(s, i, e, d);
    RunConcat(Step, s0, before, steps);
    trace, t := steps, Apply(s, i, e);
  }

  /** Every reserved saga of `d` is redelivered and paid. */
  lemma {:induction false} RepayAll(s0: State, before: seq<Action>, seed: map<string, int>, s: State, d: string)
    returns (after: seq<Action>, t: State)
    requires Between(s0, before, seed, s)
    ensures StopFree(after) && Run(Step, s, after) == Some(t) && Between(s0, before + after, seed, t)
    ensures t.stops == s.stops && ReservedOf(t, d) == {}
    decreases |ReservedOf(s, d)|
  {
    hide Step, ReservedOf;
    after, t := [], s;
    if ReservedOf(s, d) == {} {
      assert before + [] == before;
    } else {
      var i :| i in ReservedOf(s, d);
      var trace, u := RepayOne(s0, before, seed, s, d, i);
      var rest, v := RepayAll(s0, before + trace, seed, u, d);
      RunConcat(Step, s, trace, rest);
      assert before + trace + rest == before + (trace + rest);
      after, t := trace + rest, v;
    }
  }

  /** One fresh invoice takes all that is left. */
  lemma SpendTheRest(s0: State, before: seq<Action>, seed: map<string, int>, s: State, d: string)
    returns (after: seq<Action>, t: State)
    requires Between(s0, before, seed, s) && d in s.budgets && s.budgets[d] > 0 && ReservedOf(s, d) == {}
    ensures StopFree(after) && Run(Step, s, after) == Some(t) && Between(s0, before + after, seed, t)
    ensures t.stops == s.stops && ReservedOf(t, d) == {} && d in t.budgets && t.budgets[d] == 0
  {
    var x := NotTaken(s.sagas.Keys + s.provider.Keys + s.openedBy.Keys);
    var freshRef := NotTaken(s.provider.Values);
    var r := Request("", d, s.budgets[d], "", false, None, false);
    assert s.At(x) == Slot(None, None, None, None);
    after := PayFresh(s, x, r, freshRef);
    t := Run(Step, s, after).value;
    RunConcat(Step, s0, before, after);
    var e := Effect(Slot(Some(RecordOf(r, Paid, Some(freshRef))), Some(freshRef), None, Some(r)), r.department, -r.amountCents,
                    [PaymentCompleted(x, r.correlationId, r.amountCents,
                                      Some(s.budgets[r.department] - r.amountCents), r.department)], []);
    AppliedPayment(s, x, e, d);
  }

  /** With nothing of `d` reserved and nothing left, all that was committed is paid. */
  lemma AllCommittedIsPaid(s: State, d: string)
    requires ReservedOf(s, d) == {}
    ensures TotalPaid(s, d) == Committed(s, d)
  {
    var paid := (i: string) => PaidBy(s.At(i), d);
    var committed := (i: string) => CommittedBy(s.At(i), d);
    forall i | i in s.sagas ensures paid(i) == committed(i) {
      assert i !in ReservedOf(s, d);
    }
    SumCongruent(s.sagas.Keys, paid, committed);
    assert Sum(s.sagas.Keys, paid) == TotalPaid(s, d) && Sum(s.sagas.Keys, committed) == Committed(s, d);
  }

  lemma SpendAll(s0: State, before: seq<Action>, seed: map<string, int>, s: State, d: string)
    returns (after: seq<Action>, t: State)
    requires Between(s0, before, seed, s) && d in seed
    ensures StopFree(after) && Run(Step, s, after) == Some(t) && Between(s0, before + after, seed, t)
    ensures t.stops == s.stops && ReservedOf(t, d) == {} && d in t.budgets && t.budgets[d] == 0
  {
    hide Step, ReservedOf, Committed;
    var a1, u := RepayAll(s0, before, seed, s, d);
    SagaLedger(s0, before + a1, seed, d);
    if u.budgets[d] == 0 { return a1, u; }
    var a2, v := SpendTheRest(s0, before + a1, seed, u, d);
    RunConcat(Step, s, a1, a2);
    assert before + a1 + a2 == before + (a1 + a2);
    after, t := a1 + a2, v;
  }

  /** A stop-free continuation can pay more than the seed: repay what is reserved, then spend what is left. */
  lemma Overspends(s0: State, before: seq<Action>, seed: map<string, int>, s: State, d: string) returns (after: seq<Action>)
    requires Between(s0, before, seed, s) && d in seed && Gained(s.stops, d) > Lost(s.stops, d)
    ensures StopFree(after) && Run(Step, s, after).Some? && TotalPaid(Run(Step, s, after).value, d) > seed[d]
  {
    var trace, t := SpendAll(s0, before, seed, s, d);
    after := trace;
    SagaLedger(s0, before + after, seed, d);
    AllCommittedIsPaid(t, d);
  }

  /** Never overspend, exactly: from a reachable moment with no call in flight, deliveries without
      any further stop can overspend department `d` if and only if stops so far have gained it more
      than they lost it. */
  lemma OverspendIff(s0: State, before: seq<Action>, seed: map<string, int>, s: State, d: string)
    requires Between(s0, before, seed, s) && d in seed
    ensures (exists after :: StopFree(after) && Run(Step, s, after).Some? && TotalPaid(Run(Step, s, after).value, d) > seed[d])
       <==> Gained(s.stops, d) > Lost(s.stops, d)
  {
    if Gained(s.stops, d) > Lost(s.stops, d) {
      var after := Overspends(s0, before, seed, s, d);
    } else {
      forall after | StopFree(after) && Run(Step, s, after).Some? ensures TotalPaid(Run(Step, s, after).value, d) <= seed[d] {
        RunConcat(Step, s0, before, after);
        StopFreeKeepsStops(s, after);
        PaidWithinSeed(s0, before + after, seed, d);
      }
    }
  }
}
