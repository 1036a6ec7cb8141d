/** The approval guarantees, and the two orders in which they fail. */
module ApprovalTheorems {
  import opened Wrappers
  import opened Collections
  import opened Runs
  import opened Approval
  import opened ApprovalSafety

  /** No call or delivery is in flight on `i`. */
  ghost predicate Quiet(s: State, i: string) {
    && (forall c | c in s.verdicts :: s.verdicts[c].v.i != i)
    && (forall c | c in s.deliveries :: s.deliveries[c].id in s.sent && s.sent[s.deliveries[c].id].invoice != i)
  }

  ghost function QueueOkFor(i: string): State -> bool {
    (s: State) => QueueOk(s, i)
  }

  ghost function StrandsFor(i: string): (State, Action) -> bool {
    (s: State, a: Action) => Strands(s, a, i)
  }

  /** In any run whatever, an escalation stays in the queue, or covered, throughout if and only if
      no step takes it out while it is pending and nothing will put it back. */
  lemma QueueHoldsIff(s0: State, trace: seq<Action>, i: string)
    requires Init(s0) && Run(Step, s0, trace).Some?
    ensures Throughout(Step, s0, trace, QueueOkFor(i)) <==> Never(Step, s0, trace, StrandsFor(i))
    ensures Never(Step, s0, trace, StrandsFor(i)) ==> QueueOk(Run(Step, s0, trace).value, i)
  {
    var inv := (s: State) => NoRepeats(s.queue);
    forall s, a | inv(s) && Step(s, a).Some?
      ensures inv(Step(s, a).value)
      ensures QueueOkFor(i)(s) ==> (!QueueOkFor(i)(Step(s, a).value) <==> StrandsFor(i)(s, a))
    {
      QueueHasNoRepeats(s, a);
      if QueueOk(s, i) { QueueBreaksIff(s, a, i); }
      hide Step, QueueOk, NoRepeats, Strands;
    }
    hide Step, QueueOk, Strands;
    HoldsIff(Step, inv, QueueOkFor(i), StrandsFor(i), s0, trace);
  }

  /** So in every run without such a step: a pending escalation with nothing in flight is in the
      queue, or its event is unmarked and owed a redelivery, or a failed rollback or forget was
      logged, or a call was killed. */
  lemma QueueAgreement(s0: State, trace: seq<Action>, i: string)
    requires Init(s0) && Run(Step, s0, trace).Some? && Never(Step, s0, trace, StrandsFor(i))
    requires var s := Run(Step, s0, trace).value; IsPending(s, i) && Quiet(s, i)
    ensures var s := Run(Step, s0, trace).value;
      || i in s.queue
      || (exists id :: id in s.owed && id in s.sent && s.sent[id].invoice == i)
      || i in s.loud || i in s.unforgotten || i in s.killed
  {
    QueueHoldsIff(s0, trace, i);
    hide Step;
  }

  ghost function MisdeliversFor(i: string): (State, Action) -> bool {
    (s: State, a: Action) => Misdelivers(s, a, i)
  }

  ghost function DeliveredOkFor(i: string): State -> bool {
    (s: State) => DeliveredOk(s, i)
  }

  /** In any run whatever, "resolved means delivered" holds of `i` throughout if and only if no step
      acknowledges a resolution that the record has left behind. */
  lemma DeliveredHoldsIff(s0: State, trace: seq<Action>, i: string)
    requires Init(s0) && Run(Step, s0, trace).Some?
    ensures Throughout(Step, s0, trace, DeliveredOkFor(i)) <==> Never(Step, s0, trace, MisdeliversFor(i))
    ensures Never(Step, s0, trace, MisdeliversFor(i)) ==> DeliveredOk(Run(Step, s0, trace).value, i)
  {
    forall s, a | DeliveredOk(s, i) && Step(s, a).Some? ensures !DeliveredOk(Step(s, a).value, i) <==> Misdelivers(s, a, i) {
      DeliveryBreaksIff(s, a, i);
    }
    assert DeliveredOk(s0, i);
    hide Step, DeliveredOk, Misdelivers;
    HoldsIff(Step, (s: State) => true, DeliveredOkFor(i), MisdeliversFor(i), s0, trace);
  }

  /** Resolved means delivered: once no publish or rollback is in flight, a resolved record
      is told, field by field, by the last approval-resolved event whose publish was
      acknowledged for it, unless its rollback failed loudly or its call was killed. */
  lemma ResolvedMeansDelivered(s0: State, trace: seq<Action>, i: string)
    requires Init(s0) && Run(Step, s0, trace).Some? && Never(Step, s0, trace, MisdeliversFor(i))
    requires var s := Run(Step, s0, trace).value; Settled(s, i) && i !in s.loud && i !in s.killed
    ensures var s := Run(Step, s0, trace).value;
      LastPublished(s.published, i) == Some(ResolutionOf(i, s.records[i]))
  {
    DeliveredHoldsIff(s0, trace, i);
    hide Step;
  }

  /** As long as no record is reopened under a verdict call, every call between its resolution and
      its end holds its record alone, no step misdelivers, and only stale evictions strand. */
  lemma CalmRunsAreSafe(s0: State, trace: seq<Action>, i: string)
    requires Init(s0) && Run(Step, s0, trace).Some? && Never(Step, s0, trace, ReopensUnderVerdict)
    ensures HoldersOk(Run(Step, s0, trace).value) && Never(Step, s0, trace, MisdeliversFor(i))
    ensures Never(Step, s0, trace, StaleEviction) ==> Never(Step, s0, trace, StrandsFor(i))
  {
    forall s, a | HoldersOk(s) && Step(s, a).Some? && !ReopensUnderVerdict(s, a) ensures HoldersOk(Step(s, a).value) {
      forall c ensures HolderOk(Step(s, a).value, c) { HoldersStayOk(s, a, c); }
    }
    HoldsUnless(Step, HoldersOk, ReopensUnderVerdict, s0, trace);
    forall n | 0 <= n < |trace| && Run(Step, s0, trace[..n]).Some?
      ensures !Misdelivers(Run(Step, s0, trace[..n]).value, trace[n], i)
      ensures !StaleEviction(Run(Step, s0, trace[..n]).value, trace[n]) ==> !Strands(Run(Step, s0, trace[..n]).value, trace[n], i)
    {
      var s := Run(Step, s0, trace[..n]).value;
      RunAt(Step, s0, trace, n);
      assert HoldersOk(s);
      HoldersNeverMisdeliver(s, trace[n], i);
      OnlyStaleEvictionsStrand(s, trace[n], i);
    }
    hide Step, HoldersOk, Misdelivers, Strands, StaleEviction;
  }

  /** However many approvers race and however many publishes fail, in any run whatever at most one
      publish per invoice is acknowledged, plus one per reopening. */
  lemma PublishedOncePerReview(s0: State, trace: seq<Action>, i: string)
    requires Init(s0) && Run(Step, s0, trace).Some?
    ensures var s := Run(Step, s0, trace).value;
      Publishes(s.published, i) <= 1 + Reopens(s.reopens, i)
  {
    var inv := (s: State) => CountOk(s, i);
    forall s, a | inv(s) && Step(s, a).Some? ensures inv(Step(s, a).value) { CountStaysOk(s, a, i); }
    assert CountOk(s0, i) by { assert Flights(s0, i) == {}; }
    InvariantOfRun(Step, inv, s0, trace);
  }

  /** Without an unacknowledged one, that is all that is ever out. */
  lemma OutOncePerReview(s0: State, trace: seq<Action>, i: string)
    requires Init(s0) && Run(Step, s0, trace).Some?
    requires forall r | r in Run(Step, s0, trace).value.unacked :: r.i != i
    ensures var s := Run(Step, s0, trace).value;
      Publishes(s.published + s.unacked, i) <= 1 + Reopens(s.reopens, i)
  {
    PublishedOncePerReview(s0, trace, i);
    NoneOf(Run(Step, s0, trace).value.published, Run(Step, s0, trace).value.unacked, i);
  }

  lemma {:induction false} NoneOf(p: seq<Resolution>, more: seq<Resolution>, i: string)
    requires forall r | r in more :: r.i != i
    ensures Publishes(p + more, i) == Publishes(p, i)
    decreases |more|
  {
    if more == [] {
      assert p + more == p;
    } else {
      var rest := more[..|more| - 1];
      assert (p + more)[..|p + more| - 1] == p + rest && more[|more| - 1] in more;
      NoneOf(p, rest, i);
    }
  }

  /** `i` is approved or rejected and settled in `s`, and so it stays. */
  ghost predicate StaysFinal(i: string, s: State, t: State) {
    Settled(s, i) && (s.records[i].status.Approved? || s.records[i].status.Rejected?) ==>
      Settled(t, i) && t.records[i] == s.records[i]
  }

  lemma StepStaysFinal(i: string, s: State, a: Action)
    requires Step(s, a).Some?
    ensures StaysFinal(i, s, Step(s, a).value)
  {
    var t := Step(s, a).value;
    if Settled(s, i) && (s.records[i].status.Approved? || s.records[i].status.Rejected?) {
      RecordMoves(s, a, i);
      if InFlight(t, i) { FlightStarts(s, a, i); }
    }
  }

  /** A settled approval or rejection never changes again, in any run whatever. */
  lemma VerdictsAreFinal(i: string, s: State, trace: seq<Action>)
    requires Run(Step, s, trace).Some?
    ensures StaysFinal(i, s, Run(Step, s, trace).value)
  {
    var all := (x: State) => true;
    var rel := (x: State, y: State) => StaysFinal(i, x, y);
    forall x, a | Step(x, a).Some? ensures rel(x, Step(x, a).value) {
      StepStaysFinal(i, x, a);
    }
    RelationOfRun(Step, all, rel, s, trace);
  }

  // ----- what can undo a delivered verdict

  /** The record is resolved as its last published resolution says. */
  ghost predicate CarriesLast(s: State, i: string) {
    i in s.records && !s.records[i].status.Pending? && LastPublished(s.published, i) == Some(ResolutionOf(i, s.records[i]))
  }

  /** A rollback of a verdict call for `i`, a reopening, or the publish of another resolution. */
  ghost predicate Undoes(s: State, a: Action, i: string) {
    || (a.Revert? && a.c in s.verdicts && s.verdicts[a.c].v.i == i)
    || (Handles(s, a, i) && s.deliveries[a.c].pc.Reopening? && i in s.records && s.records[i].status.NeedsInfo?)
    || (a.PublishOk? && a.c in s.verdicts && s.verdicts[a.c].v.i == i
        && i in s.records && ResolutionOf(i, s.verdicts[a.c].resolved) != ResolutionOf(i, s.records[i]))
  }

  /** Exactly when a step, of any run whatever, parts a record from its last published resolution. */
  lemma VerdictUndoneIff(s: State, a: Action, i: string)
    requires Step(s, a).Some? && CarriesLast(s, i)
    ensures !CarriesLast(Step(s, a).value, i) <==> Undoes(s, a, i)
  {
    RecordMoves(s, a, i);
    if a.PublishOk? {
      var call := s.verdicts[a.c];
      PublishAppends(s.published, ResolutionOf(call.v.i, call.resolved), i);
    }
    hide LastPublished;
  }

  // ----- the two undefended orders, run

  const DECISION := Decision(100, [], "approve", None, "", "", "d", 0)
  const FIRST_EVENT := Event("i", "k", true, DECISION)
  const SECOND_EVENT := Event("i", "k", true, DECISION)

  ghost function Fresh(): State {
    State(map["e" := FIRST_EVENT, "f" := SECOND_EVENT], map[], [], {}, map[], map[], map[], [], [], {}, [], {}, {}, {})
  }

  /** `i` is pending, nobody is working on it, nothing was logged, and it is in no queue. */
  ghost predicate Stranded(s: State, i: string) {
    && IsPending(s, i) && i !in s.queue && !Covered(s, i)
    && s.verdicts == map[] && s.deliveries == map[] && s.evictions == map[]
  }

  lemma Chain(s: State, a: Action, t: State, rest: seq<Action>, last: State)
    requires Step(s, a) == Some(t) && Run(Step, t, rest) == Some(last)
    ensures Run(Step, s, [a] + rest) == Some(last)
  {
    RunCons(Step, s, a, rest);
  }

  /** Three steps in a row. */
  lemma Three(s: State, a: Action, b: Action, c: Action, t: State, u: State, v: State)
    requires Step(s, a) == Some(t) && Step(t, b) == Some(u) && Step(u, c) == Some(v)
    ensures Run(Step, s, [a, b, c]) == Some(v)
  {
    hide Step;
    Chain(u, c, v, [], v);
    Chain(t, b, u, [c], v);
    assert [b] + [c] == [b, c] && [a] + [b, c] == [a, b, c];
    Chain(s, a, t, [b, c], v);
  }

  /** Nothing is owed, logged, killed or out unacknowledged. */
  ghost predicate Clean(s: State) {
    s.owed == {} && s.loud == {} && s.unforgotten == {} && s.killed == {} && s.sent == Fresh().sent && s.unacked == []
  }

  /** The event "e" is delivered: its invoice is pending and queued. */
  lemma Escalate() returns (s: State)
    ensures Run(Step, Fresh(), [Deliver(0, "e"), DeliveryStep(0), DeliveryStep(0)]) == Some(s)
    ensures s.records == map["i" := FromDecision(FIRST_EVENT)] && s.queue == ["i"] && s.marks == {"e"} && Clean(s)
    ensures s.published == [] && s.verdicts == map[] && s.deliveries == map[] && s.evictions == map[]
  {
    var s1 := Step(Fresh(), Deliver(0, "e")).value;
    var s2 := Step(s1, DeliveryStep(0)).value;
    s := Step(s2, DeliveryStep(0)).value;
    Three(Fresh(), Deliver(0, "e"), DeliveryStep(0), DeliveryStep(0), s1, s2, s);
  }

  lemma FailUnderEviction(s: State, v: Verdict) returns (t: State)
    requires s.records == map["i" := FromDecision(FIRST_EVENT)] && s.queue == ["i"] && Clean(s)
    requires s.verdicts == map[] && s.deliveries == map[] && s.evictions == map[]
    requires v.i == "i" && v.status.Approved?
    ensures Run(Step, s, [SubmitVerdict(1, v), EvictRead(2, "i"), PublishFail(1)]) == Some(t)
    ensures t.records.Keys == {"i"} && t.queue == ["i"] && Clean(t)
    ensures t.verdicts == map[1 := VerdictCall(v, Resolve(FromDecision(FIRST_EVENT), v).value, Reverting)] && t.deliveries == map[] && t.evictions == map[2 := "i"]
  {
    var s1 := Step(s, SubmitVerdict(1, v)).value;
    var s2 := Step(s1, EvictRead(2, "i")).value;
    t := Step(s2, PublishFail(1)).value;
    Three(s, SubmitVerdict(1, v), EvictRead(2, "i"), PublishFail(1), s1, s2, t);
  }

  lemma RollBackThenEvict(s: State, v: Verdict, resolved: Escalation) returns (t: State)
    requires s.records.Keys == {"i"} && s.queue == ["i"] && Clean(s) && v.i == "i"
    requires s.verdicts == map[1 := VerdictCall(v, resolved, Reverting)] && s.deliveries == map[] && s.evictions == map[2 := "i"]
    ensures Run(Step, s, [Revert(1), Requeue(1), EvictWrite(2)]) == Some(t) && Stranded(t, "i")
  {
    var s1 := Step(s, Revert(1)).value;
    var s2 := Step(s1, Requeue(1)).value;
    t := Step(s2, EvictWrite(2)).value;
    Three(s, Revert(1), Requeue(1), EvictWrite(2), s1, s2, t);
    assert s2.queue == ["i"] && t.queue == [];
  }

  /** An eviction decided while a verdict was in flight lands after that verdict was rolled
      back and re-queued: the escalation is pending and invisible, and nothing was logged. */
  lemma StaleEvictionStrands() returns (trace: seq<Action>)
    ensures Init(Fresh()) && Run(Step, Fresh(), trace).Some? && Stranded(Run(Step, Fresh(), trace).value, "i")
  {
    var v := Verdict("i", Approved, "ann", "", 1);
    var s := Escalate();
    var t := FailUnderEviction(s, v);
    var u := RollBackThenEvict(t, v, Resolve(FromDecision(FIRST_EVENT), v).value);
    hide Step;
    var ta := [Deliver(0, "e"), DeliveryStep(0), DeliveryStep(0)];
    var tb := [SubmitVerdict(1, v), EvictRead(2, "i"), PublishFail(1)];
    var tc := [Revert(1), Requeue(1), EvictWrite(2)];
    RunConcat(Step, s, tb, tc);
    RunConcat(Step, Fresh(), ta, tb + tc);
    trace := ta + (tb + tc);
  }

  /** What a send-back of the escalated invoice writes. */
  ghost function SentBack(v: Verdict): Escalation {
    FromDecision(FIRST_EVENT).(status := v.status, resolvedBy := Some(v.approver), resolvedAt := Some(v.now), comment := v.comment)
  }

  lemma SendBackAndRedecide(s: State, v: Verdict) returns (t: State)
    requires s.records == map["i" := FromDecision(FIRST_EVENT)] && s.queue == ["i"] && s.marks == {"e"} && Clean(s)
    requires s.verdicts == map[] && s.deliveries == map[] && s.evictions == map[]
    requires v.i == "i" && v.status.NeedsInfo?
    ensures Run(Step, s, [SubmitVerdict(1, v), Deliver(2, "f"), DeliveryStep(2)]) == Some(t)
    ensures t.records == map["i" := SentBack(v)] && t.queue == ["i"] && Clean(t) && t.published == s.published
    ensures t.verdicts == map[1 := VerdictCall(v, SentBack(v), Publishing)]
    ensures t.deliveries == map[2 := Delivery("f", Looking)] && t.evictions == map[]
  {
    var s1 := Step(s, SubmitVerdict(1, v)).value;
    var s2 := Step(s1, Deliver(2, "f")).value;
    t := Step(s2, DeliveryStep(2)).value;
    Three(s, SubmitVerdict(1, v), Deliver(2, "f"), DeliveryStep(2), s1, s2, t);
  }

  /** The new decision reopens the record and queues it, while call 1 is still publishing. */
  lemma Reopen(s: State, v: Verdict) returns (t: State)
    requires s.records == map["i" := SentBack(v)] && v.status.NeedsInfo? && s.queue == ["i"] && Clean(s)
    requires s.verdicts == map[1 := VerdictCall(v, SentBack(v), Publishing)]
    requires s.deliveries == map[2 := Delivery("f", Looking)] && s.evictions == map[]
    ensures Run(Step, s, [DeliveryStep(2), DeliveryStep(2), DeliveryStep(2)]) == Some(t)
    ensures t.records.Keys == {"i"} && t.records["i"].status.Pending? && t.queue == ["i"] && Clean(t) && t.published == s.published
    ensures t.verdicts == s.verdicts && t.deliveries == map[] && t.evictions == map[]
  {
    var s1 := Step(s, DeliveryStep(2)).value;
    var s2 := Step(s1, DeliveryStep(2)).value;
    t := Step(s2, DeliveryStep(2)).value;
    Three(s, DeliveryStep(2), DeliveryStep(2), DeliveryStep(2), s1, s2, t);
    assert t.deliveries == map[];
  }

  /** Up to here both runs below agree: "i" is pending again, and call 1 still publishes its send-back. */
  lemma ReopenedWhilePublishing(v: Verdict) returns (trace: seq<Action>, t: State)
    requires v.i == "i" && v.status.NeedsInfo?
    ensures Run(Step, Fresh(), trace) == Some(t)
    ensures t.records.Keys == {"i"} && t.records["i"].status.Pending? && t.queue == ["i"] && Clean(t) && t.published == []
    ensures t.verdicts == map[1 := VerdictCall(v, SentBack(v), Publishing)] && t.deliveries == map[] && t.evictions == map[]
  {
    var s := Escalate();
    var s1 := SendBackAndRedecide(s, v);
    t := Reopen(s1, v);
    hide Step;
    var ta := [Deliver(0, "e"), DeliveryStep(0), DeliveryStep(0)];
    var tb := [SubmitVerdict(1, v), Deliver(2, "f"), DeliveryStep(2)];
    var tc := [DeliveryStep(2), DeliveryStep(2), DeliveryStep(2)];
    RunConcat(Step, s, tb, tc);
    RunConcat(Step, Fresh(), ta, tb + tc);
    trace := ta + (tb + tc);
  }

  /** The dequeue of the finished send-back removes the reopened escalation. */
  lemma ReopenDuringVerdictStrands() returns (trace: seq<Action>)
    ensures Init(Fresh()) && Run(Step, Fresh(), trace).Some? && Stranded(Run(Step, Fresh(), trace).value, "i")
  {
    var v := Verdict("i", NeedsInfo, "ann", "", 1);
    var before, s := ReopenedWhilePublishing(v);
    var s1 := Step(s, PublishOk(1)).value;
    var t := Step(s1, Dequeue(1)).value;
    Chain(s1, Dequeue(1), t, [], t);
    Chain(s, PublishOk(1), s1, [Dequeue(1)], t);
    RunConcat(Step, Fresh(), before, [PublishOk(1)] + [Dequeue(1)]);
    trace := before + ([PublishOk(1)] + [Dequeue(1)]);
    assert s1.queue == ["i"] && t.queue == [] && t.verdicts == map[];
  }

  /** An approval is given and published while call 1 still publishes its send-back. */
  lemma ApprovedMeanwhile(s: State, v: Verdict, w: Verdict) returns (t: State)
    requires s.records.Keys == {"i"} && s.records["i"].status.Pending? && Clean(s) && s.published == []
    requires s.verdicts == map[1 := VerdictCall(v, SentBack(v), Publishing)]
    requires v.i == "i" && v.status.NeedsInfo? && w.i == "i" && w.status.Approved?
    ensures Run(Step, s, [SubmitVerdict(3, w)] + [PublishOk(3)]) == Some(t)
    ensures t.records.Keys == {"i"} && t.records["i"].status.Approved? && Clean(t)
    ensures |t.published| == 1 && t.published[0].i == "i" && t.published[0].status.Approved?
    ensures t.verdicts.Keys == {1, 3} && t.verdicts[1] == VerdictCall(v, SentBack(v), Publishing) && t.verdicts[3].pc.Dequeuing?
  {
    var s1 := Step(s, SubmitVerdict(3, w)).value;
    t := Step(s1, PublishOk(3)).value;
    Chain(s1, PublishOk(3), t, [], t);
    Chain(s, SubmitVerdict(3, w), s1, [PublishOk(3)], t);
  }

  /** The rollback of the send-back undoes the approval that was given and published after the
      reopening: the record is pending although its approval is out. */
  lemma RevertUndoesLaterVerdict() returns (trace: seq<Action>)
    ensures Init(Fresh()) && Run(Step, Fresh(), trace).Some?
    ensures var s := Run(Step, Fresh(), trace).value;
      && IsPending(s, "i") && s.loud == {}
      && LastPublished(s.published, "i").Some? && LastPublished(s.published, "i").value.status.Approved?
  {
    var v, w := Verdict("i", NeedsInfo, "ann", "", 1), Verdict("i", Approved, "bob", "", 2);
    var before, s := ReopenedWhilePublishing(v);
    var s1 := ApprovedMeanwhile(s, v, w);
    var s2 := Step(s1, PublishFail(1)).value;
    var t := Step(s2, Revert(1)).value;
    PublishAppends([], s1.published[0], "i");
    assert [] + [s1.published[0]] == s1.published == t.published;
    Chain(s2, Revert(1), t, [], t);
    Chain(s1, PublishFail(1), s2, [Revert(1)], t);
    hide Step;
    var ta, tb := [SubmitVerdict(3, w)] + [PublishOk(3)], [PublishFail(1)] + [Revert(1)];
    RunConcat(Step, s, ta, tb);
    RunConcat(Step, Fresh(), before, ta + tb);
    trace := before + (ta + tb);
  }

  /** Acknowledged late, the send-back is the last word out on a record that is approved and settled. */
  lemma LatePublishMisdelivers() returns (trace: seq<Action>)
    ensures Init(Fresh()) && Run(Step, Fresh(), trace).Some?
    ensures var s := Run(Step, Fresh(), trace).value;
      && Settled(s, "i") && s.records["i"].status.Approved? && s.loud == {} && s.killed == {}
      && LastPublished(s.published, "i").Some? && LastPublished(s.published, "i").value.status.NeedsInfo?
  {
    var v, w := Verdict("i", NeedsInfo, "ann", "", 1), Verdict("i", Approved, "bob", "", 2);
    var before, s := ReopenedWhilePublishing(v);
    var s1 := ApprovedMeanwhile(s, v, w);
    var t := Step(s1, PublishOk(1)).value;
    PublishAppends(s1.published, ResolutionOf("i", SentBack(v)), "i");
    Chain(s1, PublishOk(1), t, [], t);
    hide Step;
    var ta := [SubmitVerdict(3, w)] + [PublishOk(3)];
    RunConcat(Step, s, ta, [PublishOk(1)]);
    RunConcat(Step, Fresh(), before, ta + [PublishOk(1)]);
    trace := before + (ta + [PublishOk(1)]);
  }

  // ----- a publish the broker takes and does not acknowledge

  lemma UnacknowledgedThenPending(s: State, v: Verdict) returns (t: State)
    requires s.records == map["i" := FromDecision(FIRST_EVENT)] && s.queue == ["i"] && Clean(s) && s.published == []
    requires s.verdicts == map[] && s.deliveries == map[] && v.i == "i" && v.status.Approved?
    ensures Run(Step, s, [SubmitVerdict(1, v), PublishUnacked(1), Revert(1)]) == Some(t)
    ensures t.records.Keys == {"i"} && IsPending(t, "i") && t.queue == ["i"] && t.loud == {} && t.published == []
    ensures |t.unacked| == 1 && t.unacked[0].status.Approved? && t.verdicts.Keys == {1} && t.verdicts[1].v == v
            && t.verdicts[1].pc.Requeueing?
  {
    var s1 := Step(s, SubmitVerdict(1, v)).value;
    var s2 := Step(s1, PublishUnacked(1)).value;
    t := Step(s2, Revert(1)).value;
    Three(s, SubmitVerdict(1, v), PublishUnacked(1), Revert(1), s1, s2, t);
  }

  lemma ThenRejected(s: State, v: Verdict, w: Verdict) returns (t: State)
    requires s.records.Keys == {"i"} && IsPending(s, "i") && s.queue == ["i"] && s.loud == {} && s.published == []
    requires s.verdicts.Keys == {1} && s.verdicts[1].v == v && s.verdicts[1].pc.Requeueing?
    requires v.i == "i" && w.i == "i" && w.status.Rejected?
    ensures Run(Step, s, [Requeue(1), SubmitVerdict(2, w), PublishOk(2)]) == Some(t)
    ensures t.loud == {} && t.unacked == s.unacked && "i" in t.records && t.records["i"].status.Rejected?
    ensures |t.published| == 1 && t.published[0].status.Rejected?
  {
    var s1 := Step(s, Requeue(1)).value;
    var s2 := Step(s1, SubmitVerdict(2, w)).value;
    t := Step(s2, PublishOk(2)).value;
    Three(s, Requeue(1), SubmitVerdict(2, w), PublishOk(2), s1, s2, t);
  }

  /** The approval the broker took unacknowledged was rolled back, the next verdict rejects, and
      both are out: a resolution is final only once a publish is acknowledged. */
  lemma UnacknowledgedContradicts() returns (trace: seq<Action>)
    ensures Init(Fresh()) && Run(Step, Fresh(), trace).Some?
    ensures var s := Run(Step, Fresh(), trace).value;
      && s.loud == {} && "i" in s.records && s.records["i"].status.Rejected?
      && |s.unacked| == 1 && s.unacked[0].status.Approved? && |s.published| == 1 && s.published[0].status.Rejected?
  {
    var v, w := Verdict("i", Approved, "ann", "", 1), Verdict("i", Rejected, "bob", "", 2);
    var s := Escalate();
    var t := UnacknowledgedThenPending(s, v);
    var u := ThenRejected(t, v, w);
    hide Step;
    var ta := [Deliver(0, "e"), DeliveryStep(0), DeliveryStep(0)];
    var tb := [SubmitVerdict(1, v), PublishUnacked(1), Revert(1)];
    var tc := [Requeue(1), SubmitVerdict(2, w), PublishOk(2)];
    RunConcat(Step, s, tb, tc);
    RunConcat(Step, Fresh(), ta, tb + tc);
    trace := ta + (tb + tc);
  }
}
