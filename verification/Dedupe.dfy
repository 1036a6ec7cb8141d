/** Mark, process, forget on failure: the wrapper every subscriber puts around its body
    (libs/afcommon/afcommon/dedupe.py and the subscribers), for any number of deliveries. */
module Dedupe {
  import opened Wrappers
  import opened Runs

  /** `Marking`: the first read found no mark. `Body`: this delivery set the mark.
      `Failing`: the body raised and the mark is about to be forgotten. */
  datatype Phase = Marking | Body | Failing

  datatype Delivery = Delivery(id: string, phase: Phase)

  /** `finished` lists the event ids whose body ran to its end, in order. */
  datatype State = State(marks: set<string>, running: map<nat, Delivery>, finished: seq<string>)

  /** `wanted` is the subscriber's own filter on the payload. */
  datatype Action =
    | Look(c: nat, id: string, wanted: bool)
    | Mark(c: nat)
    | Finish(c: nat)
    | Fail(c: nat)
    | Forget(c: nat)
    | ForgetFail(c: nat)
    | Kill(c: nat)

  function Step(s: State, a: Action): Option<State> {
    match a
    case Look(c, id, wanted) =>
      if c in s.running then None
      else if !wanted || id in s.marks then Some(s)
      else Some(s.(running := s.running[c := Delivery(id, Marking)]))
    case Mark(c) =>
      if c !in s.running || !s.running[c].phase.Marking? then None
      else if s.running[c].id in s.marks then Some(s.(running := s.running - {c}))
      else Some(s.(marks := s.marks + {s.running[c].id}, running := s.running[c := s.running[c].(phase := Body)]))
    case Finish(c) =>
      if c !in s.running || !s.running[c].phase.Body? then None
      else Some(s.(running := s.running - {c}, finished := s.finished + [s.running[c].id]))
    case Fail(c) =>
      if c !in s.running || !s.running[c].phase.Body? then None
      else Some(s.(running := s.running[c := s.running[c].(phase := Failing)]))
    case Forget(c) =>
      if c !in s.running || !s.running[c].phase.Failing? then None
      else Some(s.(marks := s.marks - {s.running[c].id}, running := s.running - {c}))
    case ForgetFail(c) =>
      if c !in s.running || !s.running[c].phase.Failing? then None
      else Some(s.(running := s.running - {c}))
    case Kill(c) =>
      if c !in s.running then None else Some(s.(running := s.running - {c}))
  }

  ghost predicate Init(s: State) {
    s == State({}, map[], [])
  }

  /** Delivery `c` owns the mark of `id`. */
  ghost predicate Owns(s: State, c: nat, id: string) {
    c in s.running && s.running[c].id == id && !s.running[c].phase.Marking?
  }

  ghost predicate Inv(s: State) {
    && (forall c, id :: Owns(s, c, id) ==> id in s.marks && id !in s.finished)
    && (forall c, d, id :: Owns(s, c, id) && Owns(s, d, id) ==> c == d)
    && (forall id | id in s.finished :: id in s.marks)
    && (forall k, l | 0 <= k < l < |s.finished| :: s.finished[k] != s.finished[l])
  }

  lemma StepKeepsInv(s: State, a: Action)
    requires Inv(s) && Step(s, a).Some?
    ensures Inv(Step(s, a).value)
  {
    var t := Step(s, a).value;
    forall c, id | Owns(t, c, id) && !Owns(s, c, id) ensures a.Mark? && a.c == c && id !in s.marks { }
    if a.Forget? || a.Finish? {
      assert Owns(s, a.c, s.running[a.c].id);
    }
  }

  lemma RunKeepsInv(s: State, trace: seq<Action>)
    requires Inv(s) && Run(Step, s, trace).Some?
    ensures Inv(Run(Step, s, trace).value)
  {
    forall x, a | Inv(x) && Step(x, a).Some? ensures Inv(Step(x, a).value) {
      StepKeepsInv(x, a);
    }
    InvariantOfRun(Step, Inv, s, trace);
  }

  /** At most one delivery of an event is inside the body at a time, none once it has
      completed, and it completes at most once, whatever bodies and forgets fail. */
  lemma AtMostOnce(s0: State, trace: seq<Action>, id: string, c: nat, d: nat, k: nat, l: nat)
    requires Init(s0) && Run(Step, s0, trace).Some?
    ensures var s := Run(Step, s0, trace).value;
      && (Owns(s, c, id) && Owns(s, d, id) ==> c == d)
      && (Owns(s, c, id) ==> id in s.marks && id !in s.finished)
      && (k < |s.finished| && l < |s.finished| && s.finished[k] == s.finished[l] ==> k == l)
  {
    RunKeepsInv(s0, trace);
  }

  /** A completed event stays marked: no later delivery of it does anything. */
  lemma CompletedStaysMarked(s0: State, trace: seq<Action>, more: seq<Action>, id: string)
    requires Init(s0) && Run(Step, s0, trace).Some? && id in Run(Step, s0, trace).value.finished
    requires Run(Step, Run(Step, s0, trace).value, more).Some?
    ensures id in Run(Step, Run(Step, s0, trace).value, more).value.marks
  {
    RunKeepsInv(s0, trace);
    var s := Run(Step, s0, trace).value;
    var inv := (x: State) => Inv(x) && id in x.finished;
    forall x, a | inv(x) && Step(x, a).Some? ensures inv(Step(x, a).value) {
      StepKeepsInv(x, a);
    }
    InvariantOfRun(Step, inv, s, more);
  }
}
