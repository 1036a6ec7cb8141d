/** The approval service: verdicts, the pending queue and escalations
    (services/approval/src/api.py, subscriptions.py, repo.py).

    `Step` is the protocol at its suspension points: any number of verdict calls, event
    deliveries and queue evictions interleave, publishes and store calls fail at will,
    and processes may be killed. */
module Approval {
  import opened Wrappers
  import opened Collections
  import opened Runs

  datatype Status = Pending | Approved | Rejected | NeedsInfo

  /** The fields an escalation takes from its decision-made event. */
  datatype Decision = Decision(
    usdCents: int, violations: seq<string>, recommendation: string, confidence: Option<real>,
    reasoning: string, scenario: string, department: string, escalatedAt: int)

  datatype Escalation = Escalation(
    correlationId: string, status: Status, decision: Decision,
    resolvedBy: Option<string>, resolvedAt: Option<int>, comment: string)

  /** A decision-made event; ids identify events. */
  datatype Event = Event(invoice: string, correlationId: string, humanReview: bool, decision: Decision)

  /** What a verdict call asks for; a verdict is never `Pending`. */
  datatype Verdict = Verdict(i: string, status: Status, approver: string, comment: string, now: int)

  datatype VerdictPc = Publishing | Reverting | Requeueing | Dequeuing

  /** `resolved` is the record as the call wrote it; the event is built from that. */
  datatype VerdictCall = VerdictCall(v: Verdict, resolved: Escalation, pc: VerdictPc)

  datatype DeliveryPc = Saving | Looking | Reopening | Queueing | Forgetting

  datatype Delivery = Delivery(id: string, pc: DeliveryPc)

  /** An approval-resolved event. */
  datatype Resolution = Resolution(
    i: string, correlationId: string, status: Status, approver: string, comment: string,
    usdCents: int, scenario: string, department: string)

  /** `sent` are the events by id. `published` are the events the broker took and acknowledged;
      the rest is history: events it took while the service saw an error, ids it owes a redelivery, reopened invoices, rollbacks that failed (logged critical), forgets that
      failed (logged), and invoices one of whose calls was killed. */
  datatype State = State(
    sent: map<string, Event>, records: map<string, Escalation>, queue: seq<string>, marks: set<string>,
    verdicts: map<nat, VerdictCall>, deliveries: map<nat, Delivery>, evictions: map<nat, string>,
    published: seq<Resolution>, unacked: seq<Resolution>,
    owed: set<string>, reopens: seq<string>, loud: set<string>, unforgotten: set<string>, killed: set<string>)

  datatype Action =
    | SubmitVerdict(c: nat, v: Verdict)
    | PublishOk(c: nat) | PublishFail(c: nat) | PublishUnacked(c: nat)
    | Revert(c: nat) | Requeue(c: nat) | RollbackFail(c: nat)
    | Dequeue(c: nat) | DequeueFail(c: nat)
    | KillVerdict(c: nat)
    | Deliver(c: nat, id: string)
    | DeliveryStep(c: nat) | DeliveryFail(c: nat)
    | Forget(c: nat) | ForgetFail(c: nat)
    | KillDelivery(c: nat)
    | EvictRead(c: nat, i: string) | EvictWrite(c: nat)

  // ----- the pure transforms

  /** `add_to_queue`: append unless present. */
  function AddToQueue(q: seq<string>, i: string): (r: seq<string>)
    ensures forall j :: j in r <==> j in q || j == i
    ensures NoRepeats(q) ==> NoRepeats(r)
  {
    if i in q then q else q + [i]
  }

  /** `remove_from_queue`: drop the first occurrence. */
  function RemoveFromQueue(q: seq<string>, i: string): (r: seq<string>) {
    if q == [] then []
    else if q[0] == i then q[1..]
    else [q[0]] + RemoveFromQueue(q[1..], i)
  }

  /** Only `i` can leave, and without repeats it does. */
  lemma {:induction false} RemoveIsExact(q: seq<string>, i: string)
    ensures forall j | j != i :: j in RemoveFromQueue(q, i) <==> j in q
    ensures forall j | j in RemoveFromQueue(q, i) :: j in q
    ensures NoRepeats(q) ==> NoRepeats(RemoveFromQueue(q, i)) && i !in RemoveFromQueue(q, i)
  {
    if q != [] {
      assert q == [q[0]] + q[1..];
      if q[0] != i {
        RemoveIsExact(q[1..], i);
        var r := RemoveFromQueue(q, i);
        if NoRepeats(q) {
          assert NoRepeats(q[1..]);
          forall k, l | 0 <= k < l < |r| ensures r[k] != r[l] {
            assert r[l] in RemoveFromQueue(q[1..], i);
            if k == 0 { assert r[l] in q[1..]; }
          }
        }
      }
    }
  }

  /** It is the first occurrence that goes, and the rest keep their order. */
  lemma {:induction false} RemoveCutsOut(a: seq<string>, i: string, b: seq<string>)
    requires i !in a
    ensures RemoveFromQueue(a, i) == a && RemoveFromQueue(a + [i] + b, i) == a + b
  {
    if a == [] {
      assert [] + [i] + b == [i] + b && ([i] + b)[1..] == b;
    } else {
      RemoveCutsOut(a[1..], i, b);
      assert (a + [i] + b)[1..] == a[1..] + [i] + b;
      assert a + b == [a[0]] + (a[1..] + b);
    }
  }

  function FromDecision(e: Event): Escalation {
    Escalation(e.correlationId, Pending, e.decision, None, None, "")
  }

  /** The transform of a verdict: only a pending record can be resolved. */
  function Resolve(esc: Escalation, v: Verdict): Option<Escalation> {
    if esc.status != Pending then None
    else Some(esc.(status := v.status, resolvedBy := Some(v.approver), resolvedAt := Some(v.now), comment := v.comment))
  }

  /** The event that tells of a resolved record. */
  function ResolutionOf(i: string, esc: Escalation): Resolution {
    Resolution(i, esc.correlationId, esc.status, esc.resolvedBy.GetOr(""), esc.comment,
               esc.decision.usdCents, esc.decision.scenario, esc.decision.department)
  }

  /** The rollback transform: unconditionally pending again. */
  function Reverted(esc: Escalation): Escalation {
    esc.(status := Pending, resolvedBy := None, resolvedAt := None, comment := "")
  }

  /** The reopen transform: only a record sent back can be reopened; it takes the new decision. */
  function Reopened(esc: Escalation, e: Event): Option<Escalation> {
    if esc.status != NeedsInfo then None
    else Some(esc.(status := Pending, decision := e.decision, resolvedBy := None, resolvedAt := None, comment := ""))
  }

  // ----- the steps

  /** The next step of verdict call `c`. */
  function OnVerdict(s: State, a: Action, c: nat): Option<State> {
    if c !in s.verdicts then None
    else
    var call := s.verdicts[c];
    var i := call.v.i;
    var rest := s.verdicts - {c};
    match a
    case PublishOk(_) =>
      if !call.pc.Publishing? then None
      else Some(s.(published := s.published + [ResolutionOf(i, call.resolved)],
                   verdicts := s.verdicts[c := call.(pc := Dequeuing)]))
    case PublishFail(_) =>
      if !call.pc.Publishing? then None
      else Some(s.(verdicts := s.verdicts[c := call.(pc := Reverting)]))
    case PublishUnacked(_) =>
      if !call.pc.Publishing? then None
      else Some(s.(unacked := s.unacked + [ResolutionOf(i, call.resolved)],
                   verdicts := s.verdicts[c := call.(pc := Reverting)]))
    case Revert(_) =>
      if !call.pc.Reverting? || i !in s.records then None
      else Some(s.(records := s.records[i := Reverted(s.records[i])], verdicts := s.verdicts[c := call.(pc := Requeueing)]))
    case Requeue(_) =>
      if !call.pc.Requeueing? then None
      else Some(s.(queue := AddToQueue(s.queue, i), verdicts := rest))
    case RollbackFail(_) =>
      if !call.pc.Reverting? && !call.pc.Requeueing? then None
      else Some(s.(loud := s.loud + {i}, verdicts := rest))
    case Dequeue(_) =>
      if !call.pc.Dequeuing? then None
      else Some(s.(queue := RemoveFromQueue(s.queue, i), verdicts := rest))
    case DequeueFail(_) =>
      if !call.pc.Dequeuing? then None
      else Some(s.(verdicts := rest))
    case KillVerdict(_) => Some(s.(killed := s.killed + {i}, verdicts := rest))
    case _ => None
  }

  function AfterSaving(s: State, c: nat, d: Delivery, e: Event): State {
    if e.invoice !in s.records then
      s.(records := s.records[e.invoice := FromDecision(e)], deliveries := s.deliveries[c := d.(pc := Queueing)])
    else s.(deliveries := s.deliveries[c := d.(pc := Looking)])
  }

  function AfterLooking(s: State, c: nat, d: Delivery, e: Event): State {
    if e.invoice in s.records && s.records[e.invoice].status.Pending? then
      s.(deliveries := s.deliveries[c := d.(pc := Queueing)])
    else if e.invoice in s.records && s.records[e.invoice].status.NeedsInfo? then
      s.(deliveries := s.deliveries[c := d.(pc := Reopening)])
    else s.(deliveries := s.deliveries - {c})
  }

  function AfterReopening(s: State, c: nat, d: Delivery, e: Event): State {
    if e.invoice in s.records && Reopened(s.records[e.invoice], e).Some? then
      s.(records := s.records[e.invoice := Reopened(s.records[e.invoice], e).value],
         reopens := s.reopens + [e.invoice],
         deliveries := s.deliveries[c := d.(pc := Queueing)])
    else s.(deliveries := s.deliveries - {c})
  }

  /** The next step of delivery `c`. */
  function OnDelivery(s: State, a: Action, c: nat): Option<State> {
    if c !in s.deliveries || s.deliveries[c].id !in s.sent then None
    else
    var d := s.deliveries[c];
    var e := s.sent[d.id];
    var rest := s.deliveries - {c};
    match a
    case DeliveryStep(_) =>
      (match d.pc
       case Saving => Some(AfterSaving(s, c, d, e))
       case Looking => Some(AfterLooking(s, c, d, e))
       case Reopening => Some(AfterReopening(s, c, d, e))
       case Queueing => Some(s.(queue := AddToQueue(s.queue, e.invoice), deliveries := rest))
       case Forgetting => None)
    case DeliveryFail(_) =>
      if d.pc.Forgetting? then None else Some(s.(deliveries := s.deliveries[c := d.(pc := Forgetting)]))
    case Forget(_) =>
      if !d.pc.Forgetting? then None
      else Some(s.(marks := s.marks - {d.id}, owed := s.owed + {d.id}, deliveries := rest))
    case ForgetFail(_) =>
      if !d.pc.Forgetting? then None
      else Some(s.(unforgotten := s.unforgotten + {e.invoice}, deliveries := rest))
    case KillDelivery(_) => Some(s.(killed := s.killed + {e.invoice}, deliveries := rest))
    case _ => None
  }

  function Step(s: State, a: Action): Option<State> {
    match a
    case SubmitVerdict(c, v) =>
      if c in s.verdicts || v.status.Pending? then None
      else if v.i !in s.records || Resolve(s.records[v.i], v).None? then Some(s)
      else Some(s.(records := s.records[v.i := Resolve(s.records[v.i], v).value],
                   verdicts := s.verdicts[c := VerdictCall(v, Resolve(s.records[v.i], v).value, Publishing)]))
    case Deliver(c, id) =>
      if c in s.deliveries || id !in s.sent then None
      else if !s.sent[id].humanReview || id in s.marks then Some(s)
      else Some(s.(marks := s.marks + {id}, owed := s.owed - {id},
                   deliveries := s.deliveries[c := Delivery(id, Saving)]))
    case EvictRead(c, i) =>
      if c in s.evictions then None
      else if i !in s.records || s.records[i].status.Pending? then Some(s)
      else Some(s.(evictions := s.evictions[c := i]))
    case EvictWrite(c) =>
      if c !in s.evictions then None
      else Some(s.(queue := RemoveFromQueue(s.queue, s.evictions[c]), evictions := s.evictions - {c}))
    case DeliveryStep(c) => OnDelivery(s, a, c)
    case DeliveryFail(c) => OnDelivery(s, a, c)
    case Forget(c) => OnDelivery(s, a, c)
    case ForgetFail(c) => OnDelivery(s, a, c)
    case KillDelivery(c) => OnDelivery(s, a, c)
    case PublishOk(c) => OnVerdict(s, a, c)
    case PublishFail(c) => OnVerdict(s, a, c)
    case PublishUnacked(c) => OnVerdict(s, a, c)
    case Revert(c) => OnVerdict(s, a, c)
    case Requeue(c) => OnVerdict(s, a, c)
    case RollbackFail(c) => OnVerdict(s, a, c)
    case Dequeue(c) => OnVerdict(s, a, c)
    case DequeueFail(c) => OnVerdict(s, a, c)
    case KillVerdict(c) => OnVerdict(s, a, c)
  }

  ghost predicate Init(s: State) {
    s == State(s.sent, map[], [], {}, map[], map[], map[], [], [], {}, [], {}, {}, {})
  }

  // ----- calls in flight, and two orders of steps

  /** A verdict call between its resolution and the end of its publish or rollback. */
  ghost predicate InFlight(s: State, i: string) {
    exists c :: c in s.verdicts && s.verdicts[c].v.i == i && (s.verdicts[c].pc.Publishing? || s.verdicts[c].pc.Reverting?)
  }

  /** A verdict call that resolved the record and has not undone that. */
  ghost predicate Holds(s: State, c: nat, i: string) {
    c in s.verdicts && s.verdicts[c].v.i == i && !s.verdicts[c].pc.Requeueing?
  }

  /** The two orders the service does not defend against: reopening a record while a verdict call
      that resolved it is still running ... */
  ghost predicate ReopensUnderVerdict(s: State, a: Action) {
    && a.DeliveryStep? && a.c in s.deliveries && s.deliveries[a.c].pc.Reopening? && s.deliveries[a.c].id in s.sent
    && exists c :: Holds(s, c, s.sent[s.deliveries[a.c].id].invoice)
  }

  /** ... and evicting on a read that is out of date. */
  ghost predicate StaleEviction(s: State, a: Action) {
    && a.EvictWrite? && a.c in s.evictions
    && (s.evictions[a.c] !in s.records || s.records[s.evictions[a.c]].status.Pending?)
  }
}
