/** The approval subscriber follows the dedupe protocol: every run of the service is, seen
    through its marks and deliveries, a run of Dedupe (services/approval/src/subscriptions.py). */
module ApprovalDedupe {
  import opened Wrappers
  import opened Runs
  import opened Approval
  import opened ApprovalSafety
  import Dedupe

  ghost function View(d: Delivery): Dedupe.Delivery {
    Dedupe.Delivery(d.id, if d.pc.Forgetting? then Dedupe.Failing else Dedupe.Body)
  }

  ghost predicate Seen(s: State, d: Dedupe.State) {
    && d.marks == s.marks
    && d.running == map c | c in s.deliveries :: View(s.deliveries[c])
  }

  lemma OneStep(d: Dedupe.State, a: Dedupe.Action)
    requires Dedupe.Step(d, a).Some?
    ensures Run(Dedupe.Step, d, [a]) == Dedupe.Step(d, a)
  {
    assert [a][1..] == [];
  }

  lemma DeliverSimulates(s: State, c: nat, id: string, d: Dedupe.State) returns (trace: seq<Dedupe.Action>)
    requires Step(s, Deliver(c, id)).Some? && Seen(s, d)
    ensures Run(Dedupe.Step, d, trace).Some? && Seen(Step(s, Deliver(c, id)).value, Run(Dedupe.Step, d, trace).value)
  {
    var t := Step(s, Deliver(c, id)).value;
    var look := Dedupe.Look(c, id, s.sent[id].humanReview);
    var d1 := Dedupe.Step(d, look).value;
    if !s.sent[id].humanReview || id in s.marks {
      OneStep(d, look);
      trace := [look];
    } else {
      var d2 := Dedupe.Step(d1, Dedupe.Mark(c)).value;
      assert d2.running == map k | k in t.deliveries :: View(t.deliveries[k]);
      OneStep(d1, Dedupe.Mark(c));
      RunCons(Dedupe.Step, d, look, [Dedupe.Mark(c)]);
      trace := [look] + [Dedupe.Mark(c)];
    }
  }

  /** What a later step of delivery `c` is to the dedupe protocol; None leaves it where it is. */
  ghost function Mirror(a: Action, ended: bool): Option<Dedupe.Action> {
    match a
    case DeliveryStep(c) => if ended then Some(Dedupe.Finish(c)) else None
    case DeliveryFail(c) => Some(Dedupe.Fail(c))
    case Forget(c) => Some(Dedupe.Forget(c))
    case ForgetFail(c) => Some(Dedupe.ForgetFail(c))
    case KillDelivery(c) => Some(Dedupe.Kill(c))
    case _ => None
  }

  /** A body step changes only how far its own delivery is, or ends it. */
  lemma BodyStepIs(s: State, c: nat)
    requires Step(s, DeliveryStep(c)).Some?
    ensures var t := Step(s, DeliveryStep(c)).value;
      && c in s.deliveries && !s.deliveries[c].pc.Forgetting? && t.marks == s.marks
      && (t.deliveries == s.deliveries - {c}
          || (c in t.deliveries && t.deliveries == s.deliveries[c := t.deliveries[c]]
              && t.deliveries[c].id == s.deliveries[c].id && !t.deliveries[c].pc.Forgetting?))
  {
  }

  lemma BodyStepSimulates(s: State, c: nat, d: Dedupe.State)
    requires Step(s, DeliveryStep(c)).Some? && Seen(s, d)
    ensures var t := Step(s, DeliveryStep(c)).value;
      if c in t.deliveries then Seen(t, d)
      else Dedupe.Step(d, Dedupe.Finish(c)).Some? && Seen(t, Dedupe.Step(d, Dedupe.Finish(c)).value)
  {
    BodyStepIs(s, c);
    hide Step;
  }

  /** What the verdict and eviction steps leave alone. */
  lemma OtherStepSimulates(s: State, a: Action)
    requires Step(s, a).Some? && !a.Deliver? && Mirror(a, true).None?
    ensures Step(s, a).value.deliveries == s.deliveries && Step(s, a).value.marks == s.marks
  {
  }

  lemma EndingSimulates(s: State, a: Action, d: Dedupe.State)
    requires Step(s, a).Some? && Seen(s, d) && (a.DeliveryFail? || a.Forget? || a.ForgetFail? || a.KillDelivery?)
    ensures var b := Mirror(a, true).value;
      Dedupe.Step(d, b).Some? && Seen(Step(s, a).value, Dedupe.Step(d, b).value)
  {
  }

  lemma MoveSimulates(s: State, a: Action, d: Dedupe.State)
    requires Step(s, a).Some? && Seen(s, d) && !a.Deliver?
    ensures var t := Step(s, a).value;
      match Mirror(a, a.c !in t.deliveries)
      case None => Seen(t, d)
      case Some(b) => Dedupe.Step(d, b).Some? && Seen(t, Dedupe.Step(d, b).value)
  {
    if a.DeliveryStep? {
      BodyStepSimulates(s, a.c, d);
    } else if Mirror(a, true).Some? {
      EndingSimulates(s, a, d);
    } else {
      OtherStepSimulates(s, a);
    }
    hide Step, Dedupe.Step;
  }

  lemma StepSimulates(s: State, a: Action, d: Dedupe.State) returns (trace: seq<Dedupe.Action>)
    requires Step(s, a).Some? && Seen(s, d)
    ensures Run(Dedupe.Step, d, trace).Some? && Seen(Step(s, a).value, Run(Dedupe.Step, d, trace).value)
  {
    hide Step, Seen;
    if a.Deliver? {
      trace := DeliverSimulates(s, a.c, a.id, d);
    } else {
      MoveSimulates(s, a, d);
      trace := [];
      if b :| Mirror(a, a.c !in Step(s, a).value.deliveries) == Some(b) {
        OneStep(d, b);
        trace := [b];
      }
    }
  }

  lemma RunSimulates(s: State, trace: seq<Action>, d: Dedupe.State) returns (mirrored: seq<Dedupe.Action>)
    requires Run(Step, s, trace).Some? && Seen(s, d)
    ensures Run(Dedupe.Step, d, mirrored).Some? && Seen(Run(Step, s, trace).value, Run(Dedupe.Step, d, mirrored).value)
    decreases |trace|
  {
    mirrored := [];
    if trace != [] {
      var first := StepSimulates(s, trace[0], d);
      var d1 := Run(Dedupe.Step, d, first).value;
      var rest := RunSimulates(Step(s, trace[0]).value, trace[1..], d1);
      RunConcat(Dedupe.Step, d, first, rest);
      mirrored := first + rest;
    }
  }

  /** At most one delivery of a decision-made event is inside the handler body, and its
      mark is set all that time. */
  lemma OneDeliveryPerEvent(s0: State, trace: seq<Action>, c: nat, d: nat)
    requires Init(s0) && Run(Step, s0, trace).Some?
    requires var s := Run(Step, s0, trace).value; c in s.deliveries && d in s.deliveries
    ensures var s := Run(Step, s0, trace).value;
      && s.deliveries[c].id in s.marks
      && (s.deliveries[c].id == s.deliveries[d].id ==> c == d)
  {
    var d0 := Dedupe.State({}, map[], []);
    var mirrored := RunSimulates(s0, trace, d0);
    var s := Run(Step, s0, trace).value;
    Dedupe.AtMostOnce(d0, mirrored, s.deliveries[c].id, c, d, 0, 0);
  }
}
