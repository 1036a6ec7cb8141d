/** Whether a finished saga told the other services: its event is out unless a stop came between
    the terminal marker and the publish (services/payment/src/saga.py). */
module SagaEvents {
  import opened Wrappers
  import opened Collections
  import opened Runs
  import opened PaymentSaga
  import opened SagaSafety
  import opened SagaScenario

  /** A stop cut the call of `i` off between its terminal marker and its event. */
  ghost predicate Silenced(stops: seq<Stop>, i: string) {
    exists k :: 0 <= k < |stops| && stops[k] == BeforePublish(i)
  }

  ghost function One(b: bool): nat {
    if b then 1 else 0
  }

  /** A terminal saga is about to tell, has told, or was silenced: exactly one of the three. */
  ghost predicate TellsOnce(slot: Slot, published: bool, silenced: bool) {
    One(published) + One(silenced) + One(slot.call.Some? && slot.call.value.pc.Publish?)
    == One(slot.saga.Some? && slot.saga.value.state.Terminal())
  }

  ghost predicate Inv(s: State, seed: map<string, int>) {
    SagaSafety.Inv(s, seed) && forall i :: TellsOnce(s.At(i), Published(s.events, i), Silenced(s.stops, i))
  }

  /** A call about to publish stands at a terminal record, and no other call does. */
  lemma CallAtTerminal(i: string, slot: Slot, known: set<string>, published: bool)
    requires SlotOk(i, slot, known, published) && slot.call.Some?
    ensures slot.call.value.pc.Publish? <==> slot.saga.Some? && slot.saga.value.state.Terminal()
    ensures slot.call.value.pc.Publish? ==> slot.call.value.pc.event.invoice == i
  {
  }

  lemma AdvanceTells(i: string, slot: Slot, c: Call, left: Option<int>, freshRef: string, known: set<string>,
                     published: bool, silenced: bool)
    requires SlotOk(i, slot, known, published) && slot.call == Some(c) && TellsOnce(slot, published, silenced)
    requires SlotOk(i, AdvanceCall(i, slot, c, left, freshRef).slot, known,
                    published || AdvanceCall(i, slot, c, left, freshRef).events != [])
    ensures var e := AdvanceCall(i, slot, c, left, freshRef);
      TellsOnce(e.slot, published || e.events != [], silenced)
  {
    var e := AdvanceCall(i, slot, c, left, freshRef);
    CallAtTerminal(i, slot, known, published);
    if e.slot.call.Some? { CallAtTerminal(i, e.slot, known, published || e.events != []); }
    assert e.events != [] <==> c.pc.Publish?;
    assert e.slot.call.None? <==> c.pc.Publish?;
    hide SlotOk;
    assert c.pc.Publish? ==> e.slot.saga == slot.saga;
  }

  lemma SilencedAfter(stops: seq<Stop>, more: seq<Stop>, i: string)
    requires |more| <= 1
    ensures Silenced(stops + more, i) <==> Silenced(stops, i) || more == [BeforePublish(i)]
  {
    if Silenced(stops, i) {
      var k :| 0 <= k < |stops| && stops[k] == BeforePublish(i);
      assert (stops + more)[k] == BeforePublish(i);
    }
    if more == [BeforePublish(i)] {
      assert (stops + more)[|stops|] == BeforePublish(i);
    }
  }

  /** The slot of the step's own invoice keeps telling once. */
  lemma EffectTells(s: State, a: Action, seed: map<string, int>)
    requires Inv(s, seed) && EffectOf(s, a).Some?
    ensures var e := EffectOf(s, a).value;
      && |e.stops| <= 1 && (e.stops != [] && e.stops[0].BeforePublish? ==> e.stops == [BeforePublish(a.i)])
      && TellsOnce(e.slot, Published(s.events, a.i) || e.events != [], Silenced(s.stops, a.i) || e.stops == [BeforePublish(a.i)])
  {
    var slot := s.At(a.i);
    assert SlotOk(a.i, slot, seed.Keys, Published(s.events, a.i));
    assert TellsOnce(slot, Published(s.events, a.i), Silenced(s.stops, a.i));
    ActionSound(s, a, seed.Keys);
    match a
    case Begin(_, _) =>
    case Advance(i, freshRef) =>
      var c := slot.call.value;
      AdvanceTells(i, slot, c, Lookup(s.budgets, c.department), freshRef, seed.Keys, Published(s.events, i), Silenced(s.stops, i));
    case Halt(i) =>
      CallAtTerminal(i, slot, seed.Keys, Published(s.events, i));
  }

  lemma StepKeepsInv(s: State, a: Action, seed: map<string, int>)
    requires Inv(s, seed) && Step(s, a).Some?
    ensures Inv(Step(s, a).value, seed)
  {
    var e := EffectOf(s, a).value;
    var t := Step(s, a).value;
    SagaSafety.StepKeepsInv(s, a, seed);
    EffectTells(s, a, seed);
    assert SlotOk(a.i, s.At(a.i), seed.Keys, Published(s.events, a.i));
    ActionSound(s, a, seed.Keys);
    forall j ensures TellsOnce(t.At(j), Published(t.events, j), Silenced(t.stops, j)) {
      hide SagaSafety.Inv, EffectOf, SlotOk, TellsOnce;
      ApplyFrame(s, a.i, e, j);
      PublishedAfter(s.events, e.events, a.i, j);
      SilencedAfter(s.stops, e.stops, j);
    }
  }

  lemma RunKeepsInv(s0: State, trace: seq<Action>, seed: map<string, int>)
    requires Init(s0, seed) && Run(Step, s0, trace).Some?
    ensures Inv(Run(Step, s0, trace).value, seed)
  {
    SagaSafety.RunKeepsInv(s0, [], seed);
    var inv := (s: State) => Inv(s, seed);
    forall s, a | inv(s) && Step(s, a).Some? ensures inv(Step(s, a).value) { StepKeepsInv(s, a, seed); }
    InvariantOfRun(Step, inv, s0, trace);
  }

  /** The event of a terminal saga with no call in flight is out if and only if no stop came
      between its terminal marker and the publish; no redelivery ever makes up for it. */
  lemma EventIsOutIff(s0: State, trace: seq<Action>, seed: map<string, int>, i: string)
    requires Init(s0, seed) && Run(Step, s0, trace).Some?
    requires var s := Run(Step, s0, trace).value; i in s.sagas && s.sagas[i].state.Terminal() && i !in s.calls
    ensures var s := Run(Step, s0, trace).value; Published(s.events, i) <==> !Silenced(s.stops, i)
  {
    RunKeepsInv(s0, trace, seed);
    var s := Run(Step, s0, trace).value;
    assert TellsOnce(s.At(i), Published(s.events, i), Silenced(s.stops, i));
  }

  /** So the event can be lost for good: the delivery of any covered fresh invoice, stopped before
      its publish, has paid and told nobody, and whatever is delivered for it again does nothing. */
  lemma EventIsLost(s: State, i: string, r: Request, freshRef: string, again: Request) returns (trace: seq<Action>)
    requires s.At(i) == Slot(None, None, None, None) && 0 < r.amountCents && !r.OverCeiling(r.amountCents)
    requires r.department in s.budgets && s.budgets[r.department] >= r.amountCents
    requires !r.Declines() && freshRef !in s.provider.Values
    ensures Run(Step, s, trace).Some?
    ensures var t := Run(Step, s, trace).value;
      && t.At(i) == Slot(Some(RecordOf(r, Paid, Some(freshRef))), Some(freshRef), None, Some(r))
      && r.department in t.budgets && t.budgets[r.department] == s.budgets[r.department] - r.amountCents
      && t.events == s.events && t.stops == s.stops + [BeforePublish(i)]
      && Step(t, Begin(i, again)) == Some(t)
  {
    var t0 := ReserveFresh(s, i, r, freshRef);
    var record, c := RecordOf(r, Reserved, None), CallOf(r, LookUpPayment);
    var e0 := Effect(Slot(Some(record), None, Some(c), Some(r)), r.department, -r.amountCents, [], []);
    var t1, ref := ReachPaid(s, i, record, c, freshRef, t0, e0);
    var event := Completion(i, record, Lookup(Apply(s, i, e0).budgets, c.department));
    var paid := PaidSlot(e0.slot, record, ref);
    var e1 := e0.(slot := paid.(call := Some(c.(pc := Publish(event)))));
    ApplyFrame(s, i, e1, i);
    assert EffectOf(Apply(s, i, e1), Halt(i)) == Some(Effect(paid, "", 0, [], [BeforePublish(i)]));
    DoesOneMore(s, i, t1, e1, Halt(i), Effect(paid, "", 0, [], [BeforePublish(i)]));
    trace := t1 + [Halt(i)];
    var t := Run(Step, s, trace).value;
    AgainDoesNothing(t, i, again);
  }

  lemma AgainDoesNothing(t: State, i: string, again: Request)
    requires t.At(i).call.None? && t.At(i).saga.Some? && t.At(i).saga.value.state.Terminal()
    ensures Step(t, Begin(i, again)) == Some(t)
  {
    var u := Apply(t, i, Effect(t.At(i), "", 0, [], []));
    assert Assign(t.sagas, i, Lookup(t.sagas, i)) == t.sagas && Assign(t.provider, i, Lookup(t.provider, i)) == t.provider;
    assert Assign(t.calls, i, Lookup(t.calls, i)) == t.calls && Assign(t.openedBy, i, Lookup(t.openedBy, i)) == t.openedBy;
    assert t.events + [] == t.events && t.stops + [] == t.stops;
    Same(u, t);
  }
}
