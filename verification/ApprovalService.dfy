/** The approval handlers as the service runs them, write by write
    (services/approval/src/api.py, subscriptions.py, repo.py). Each write is one step of
    the protocol, so what ApprovalSafety proves of runs holds of the service. */
module ApprovalService {
  import opened Wrappers
  import opened Collections
  import opened Runs
  import opened StableSort
  import opened Approval
  import opened ApprovalSafety

  datatype Response =
    | Ok200(view: Escalation)
    | NotFound404
    | Conflict409(view: Escalation)
    | Unavailable503
    | Error500

  datatype Outcome = Acked | Raised

  /** What becomes of a publish; `Unacknowledged`: the broker took it and the service saw an error. */
  datatype Fate = Acknowledged | Refused | Unacknowledged

  ghost function FailedPublish(fate: Fate, c: nat): Action {
    if fate.Refused? then PublishFail(c) else PublishUnacked(c)
  }

  /** What the handler does with `e` when nothing fails: escalate, re-queue, reopen, or nothing. */
  function RecordsAfter(records: map<string, Escalation>, e: Event): map<string, Escalation> {
    if e.invoice !in records then records[e.invoice := FromDecision(e)]
    else if Reopened(records[e.invoice], e).Some? then records[e.invoice := Reopened(records[e.invoice], e).value]
    else records
  }

  function QueueAfter(records: map<string, Escalation>, queue: seq<string>, e: Event): seq<string> {
    if e.invoice in records && (records[e.invoice].status.Approved? || records[e.invoice].status.Rejected?) then queue
    else AddToQueue(queue, e.invoice)
  }

  /** Field by field: what is handled is escalated anew, reopened on the new decision, or left alone. */
  lemma HandledAs(records: map<string, Escalation>, queue: seq<string>, e: Event)
    ensures var i, after := e.invoice, RecordsAfter(records, e);
      && (i !in records ==> after == records[i := Escalation(e.correlationId, Pending, e.decision, None, None, "")])
      && (i in records && records[i].status.NeedsInfo? ==>
            after == records[i := Escalation(records[i].correlationId, Pending, e.decision, None, None, "")])
      && (i in records && !records[i].status.NeedsInfo? ==> after == records)
      && QueueAfter(records, queue, e)
         == if i in queue || (i in records && (records[i].status.Approved? || records[i].status.Rejected?))
            then queue else queue + [i]
  {
  }

  lemma OldestFirst(items: seq<Escalation>)
    ensures var r := Sort(items, ByEscalation);
      && (forall k, l | 0 <= k < l < |r| :: r[k].decision.escalatedAt <= r[l].decision.escalatedAt)
      && (forall k :: WithKey(r, ByEscalation, k) == WithKey(items, ByEscalation, k))
  {
    SortIsStable(items, ByEscalation, 0);
    forall k ensures WithKey(Sort(items, ByEscalation), ByEscalation, k) == WithKey(items, ByEscalation, k) {
      SortIsStable(items, ByEscalation, k);
    }
  }

  class ApprovalService {
    var records: map<string, Escalation>
    var queue: seq<string>
    var marks: set<string>
    /** The events by id, the steps taken so far and the protocol state they lead to
        (which may hold other calls in flight). */
    const sent: map<string, Event>
    ghost var trace: seq<Action>
    ghost var state: State

    ghost function Start(): State {
      State(sent, map[], [], {}, map[], map[], map[], [], [], {}, [], {}, {}, {})
    }

    ghost predicate Valid()
      reads this
    {
      && records == state.records && queue == state.queue && marks == state.marks && sent == state.sent
      && LeadsTo(Step, Start(), trace, state)
    }

    constructor (sent: map<string, Event>)
      ensures Valid() && this.sent == sent && trace == [] && Init(state)
    {
      this.sent := sent;
      records, queue, marks, trace := map[], [], {}, [];
      state := State(sent, map[], [], {}, map[], map[], map[], [], [], {}, [], {}, {}, {});
    }

    /** The protocol takes step `a`; the caller performs its write. */
    ghost method Take(a: Action)
      requires Valid() && Step(state, a).Some?
      modifies this`trace, this`state
      ensures trace == old(trace) + [a] && Some(state) == Step(old(state), a) && LeadsTo(Step, Start(), trace, state)
    {
      OneMore(Step, Start(), trace, state, a);
      state, trace := Step(state, a).value, trace + [a];
    }

    /** `repo.resolve` with the verdict transform; None when the record is missing or no longer pending. */
    method ResolveRecord(ghost c: nat, v: Verdict) returns (resolved: Option<Escalation>)
      requires Valid() && c !in state.verdicts && !v.status.Pending?
      modifies this
      ensures Valid() && trace == old(trace) + [Action.SubmitVerdict(c, v)] && queue == old(queue) && marks == old(marks)
      ensures resolved == if v.i in old(records) then Resolve(old(records)[v.i], v) else None
      ensures records == if resolved.Some? then old(records)[v.i := resolved.value] else old(records)
      ensures resolved.Some? ==> c in state.verdicts && state.verdicts[c] == VerdictCall(v, resolved.value, Publishing)
      ensures state.published == old(state.published) && state.unacked == old(state.unacked)
    {
      Take(Action.SubmitVerdict(c, v));
      hide LeadsTo;
      resolved := if v.i in records then Resolve(records[v.i], v) else None;
      if resolved.Some? {
        records := records[v.i := resolved.value];
      }
    }

    /** The compensation of a failed publish: pending again, then queued again; `ok` false
        is a store failure in either write. */
    method RollBack(ghost c: nat, v: Verdict, revertOk: bool, requeueOk: bool) returns (r: Response)
      requires Valid() && c in state.verdicts && state.verdicts[c].v == v && state.verdicts[c].pc.Reverting? && v.i in records
      modifies this
      ensures Valid() && marks == old(marks)
      ensures r == if revertOk && requeueOk then Unavailable503 else Error500
      ensures records == if revertOk then old(records)[v.i := Reverted(old(records)[v.i])] else old(records)
      ensures queue == if revertOk && requeueOk then AddToQueue(old(queue), v.i) else old(queue)
      ensures trace == old(trace) + (if !revertOk then [RollbackFail(c)]
                                     else if !requeueOk then [Revert(c), RollbackFail(c)] else [Revert(c), Requeue(c)])
      ensures v.i in state.loud <==> v.i in old(state.loud) || !revertOk || !requeueOk
      ensures state.published == old(state.published) && state.unacked == old(state.unacked)
    {
      if !revertOk {
        Take(RollbackFail(c));
        return Error500;
      }
      Take(Revert(c));
      records := records[v.i := Reverted(records[v.i])];
      if !requeueOk {
        Take(RollbackFail(c));
        return Error500;
      }
      Take(Requeue(c));
      queue := AddToQueue(queue, v.i);
      r := Unavailable503;
    }

    /** `submit_verdict`. The flags script the adversary: the fate of the publish and whether each
        store write succeeds. Record, queue, answer and steps are spelled out for every case. */
    method SubmitVerdict(ghost c: nat, v: Verdict, fate: Fate, revertOk: bool, requeueOk: bool, dequeueOk: bool)
      returns (r: Response)
      requires Valid() && c !in state.verdicts && !v.status.Pending?
      modifies this
      ensures Valid() && marks == old(marks)
      ensures r.NotFound404? <==> v.i !in old(records)
      ensures r.Conflict409? <==> v.i in old(records) && !old(records)[v.i].status.Pending?
      ensures r.Conflict409? ==> r.view == old(records)[v.i]
      ensures r.NotFound404? || r.Conflict409? ==>
        records == old(records) && queue == old(queue) && trace == old(trace) + [Action.SubmitVerdict(c, v)]
      ensures r.NotFound404? || r.Conflict409? ==> state.published == old(state.published) && state.unacked == old(state.unacked)
      ensures r.Ok200? ==>
        && fate.Acknowledged?
        && (var was := old(records)[v.i];
            && r.view == Escalation(was.correlationId, v.status, was.decision, Some(v.approver), Some(v.now), v.comment)
            && state.published == old(state.published)
                 + [Resolution(v.i, was.correlationId, v.status, v.approver, v.comment,
                               was.decision.usdCents, was.decision.scenario, was.decision.department)])
        && records == old(records)[v.i := r.view]
        && queue == (if dequeueOk then RemoveFromQueue(old(queue), v.i) else old(queue))
        && trace == old(trace) + [Action.SubmitVerdict(c, v), PublishOk(c), if dequeueOk then Dequeue(c) else DequeueFail(c)]
      ensures r.Unavailable503? || r.Error500? ==>
        && !fate.Acknowledged? && (r.Unavailable503? <==> revertOk && requeueOk) && state.published == old(state.published)
        && (var was := old(records)[v.i];
            && records == old(records)[v.i :=
                 if revertOk then Escalation(was.correlationId, Pending, was.decision, None, None, "")
                 else Escalation(was.correlationId, v.status, was.decision, Some(v.approver), Some(v.now), v.comment)]
            && state.unacked == old(state.unacked)
                 + (if fate.Refused? then []
                    else [Resolution(v.i, was.correlationId, v.status, v.approver, v.comment,
                                     was.decision.usdCents, was.decision.scenario, was.decision.department)]))
      ensures r.Unavailable503? ==>
        && queue == (if v.i in old(queue) then old(queue) else old(queue) + [v.i])
        && trace == old(trace) + [Action.SubmitVerdict(c, v), FailedPublish(fate, c), Revert(c), Requeue(c)]
      ensures r.Error500? ==>
        && v.i in state.loud && queue == old(queue)
        && trace == old(trace) + [Action.SubmitVerdict(c, v), FailedPublish(fate, c)]
                    + (if !revertOk then [RollbackFail(c)] else [Revert(c), RollbackFail(c)])
    {
      hide LeadsTo, Step, RemoveFromQueue;
      var resolved := ResolveRecord(c, v);
      if resolved.None? {
        if v.i !in records { return NotFound404; }
        return Conflict409(records[v.i]);
      }
      r := PublishResolved(c, v, resolved.value, fate, revertOk, requeueOk, dequeueOk);
    }

    /** The second half: publish, then dequeue or roll back. */
    method PublishResolved(ghost c: nat, v: Verdict, resolved: Escalation, fate: Fate,
                           revertOk: bool, requeueOk: bool, dequeueOk: bool) returns (r: Response)
      requires Valid() && c in state.verdicts && state.verdicts[c] == VerdictCall(v, resolved, Publishing)
      requires v.i in records && records[v.i] == resolved
      modifies this
      ensures Valid() && marks == old(marks)
      ensures r == if fate.Acknowledged? then Ok200(resolved) else if revertOk && requeueOk then Unavailable503 else Error500
      ensures records == if fate.Acknowledged? || !revertOk then old(records) else old(records)[v.i := Reverted(resolved)]
      ensures queue == if fate.Acknowledged? then (if dequeueOk then RemoveFromQueue(old(queue), v.i) else old(queue))
                       else if revertOk && requeueOk then AddToQueue(old(queue), v.i) else old(queue)
      ensures trace == old(trace)
                       + (if fate.Acknowledged? then [PublishOk(c), if dequeueOk then Dequeue(c) else DequeueFail(c)]
                          else [FailedPublish(fate, c)]
                               + (if !revertOk then [RollbackFail(c)]
                                  else if !requeueOk then [Revert(c), RollbackFail(c)] else [Revert(c), Requeue(c)]))
      ensures r.Error500? ==> v.i in state.loud
      ensures state.published == old(state.published) + (if fate.Acknowledged? then [ResolutionOf(v.i, resolved)] else [])
      ensures state.unacked == old(state.unacked) + (if fate.Unacknowledged? then [ResolutionOf(v.i, resolved)] else [])
    {
      hide LeadsTo, RemoveFromQueue, AddToQueue, ResolutionOf;
      if !fate.Acknowledged? {
        Take(FailedPublish(fate, c));
        r := RollBack(c, v, revertOk, requeueOk);
        return;
      }
      Take(PublishOk(c));
      if dequeueOk {
        Take(Dequeue(c));
        queue := RemoveFromQueue(queue, v.i);
      } else {
        Take(DequeueFail(c));
      }
      r := Ok200(resolved);
    }

    /** Any exception after the mark: forget it, so that the broker's redelivery counts again. */
    method CompensateForget(ghost c: nat, id: string, forgetOk: bool)
      requires Valid() && id in sent && c in state.deliveries && state.deliveries[c].id == id
      requires !state.deliveries[c].pc.Forgetting?
      modifies this
      ensures Valid() && records == old(records) && queue == old(queue) && c !in state.deliveries
      ensures marks == if forgetOk then old(marks) - {id} else old(marks)
      ensures if forgetOk then id in state.owed else sent[id].invoice in state.unforgotten
      ensures trace == old(trace) + [DeliveryFail(c), if forgetOk then Forget(c) else ForgetFail(c)]
    {
      Take(DeliveryFail(c));
      if forgetOk {
        Take(Forget(c));
        marks := marks - {id};
      } else {
        Take(ForgetFail(c));
      }
    }

    /** Delivery `c` of `id` stands at `pc`. */
    ghost predicate At(c: nat, id: string, pc: DeliveryPc)
      reads this
    {
      Valid() && id in sent && c in state.deliveries && state.deliveries[c] == Delivery(id, pc)
    }

    /** `repo.save_new`: True when it created the escalation. */
    method SaveNew(ghost c: nat, id: string) returns (created: bool)
      requires At(c, id, Saving)
      modifies this
      ensures At(c, id, if created then Queueing else Looking) && queue == old(queue) && marks == old(marks)
      ensures created == (sent[id].invoice !in old(records))
      ensures records == if created then old(records)[sent[id].invoice := FromDecision(sent[id])] else old(records)
    {
      Take(DeliveryStep(c));
      hide LeadsTo;
      created := sent[id].invoice !in records;
      if created {
        records := records[sent[id].invoice := FromDecision(sent[id])];
      }
    }

    /** The read that tells the three kinds of existing record apart. */
    method LookAt(ghost c: nat, id: string) returns (status: Status)
      requires At(c, id, Looking) && sent[id].invoice in records
      modifies this
      ensures records == old(records) && queue == old(queue) && marks == old(marks) && status == records[sent[id].invoice].status
      ensures match status
        case Pending => At(c, id, Queueing)
        case NeedsInfo => At(c, id, Reopening)
        case _ => Valid() && c !in state.deliveries
    {
      Take(DeliveryStep(c));
      hide LeadsTo;
      status := records[sent[id].invoice].status;
    }

    /** `repo.resolve` with the reopen transform. */
    method ReopenRecord(ghost c: nat, id: string)
      requires At(c, id, Reopening) && sent[id].invoice in records && records[sent[id].invoice].status.NeedsInfo?
      modifies this
      ensures At(c, id, Queueing) && queue == old(queue) && marks == old(marks)
      ensures records == old(records)[sent[id].invoice := Reopened(old(records)[sent[id].invoice], sent[id]).value]
    {
      Take(DeliveryStep(c));
      hide LeadsTo;
      var i := sent[id].invoice;
      records := records[i := Reopened(records[i], sent[id]).value];
    }

    method QueueUp(ghost c: nat, id: string)
      requires At(c, id, Queueing)
      modifies this
      ensures Valid() && c !in state.deliveries && records == old(records) && marks == old(marks)
      ensures queue == AddToQueue(old(queue), sent[id].invoice)
    {
      Take(DeliveryStep(c));
      hide LeadsTo;
      queue := AddToQueue(queue, sent[id].invoice);
    }

    /** The body of the handler, failing before its write number `failAt` if it gets that far;
        `over` says that it ran to its end. A failure leaves the queue alone and the record
        either untouched or complete. */
    method Body(ghost c: nat, id: string, failAt: nat) returns (over: bool)
      requires At(c, id, Saving)
      modifies this
      ensures Valid() && marks == old(marks)
      ensures over ==> c !in state.deliveries && records == RecordsAfter(old(records), sent[id])
                       && queue == QueueAfter(old(records), old(queue), sent[id])
      ensures !over ==> c in state.deliveries && state.deliveries[c].id == id && !state.deliveries[c].pc.Forgetting?
                        && (records == old(records) || records == RecordsAfter(old(records), sent[id])) && queue == old(queue)
      ensures failAt >= 4 ==> over
    {
      hide LeadsTo, Step;
      if failAt == 0 { return false; }
      var created := SaveNew(c, id);
      var steps := 1;
      if !created {
        if failAt == 1 { return false; }
        var status := LookAt(c, id);
        steps := 2;
        if status.NeedsInfo? {
          if failAt == 2 { return false; }
          ReopenRecord(c, id);
          steps := 3;
        } else if !status.Pending? {
          return true;
        }
      }
      if failAt == steps { return false; }
      QueueUp(c, id);
      over := true;
    }

    /** `on_decision_made`: filter, mark, body, forget on failure. An acked event of a new invoice
        escalates it, one of an invoice sent back reopens it with the new decision, and any other
        leaves the record; a failed one leaves the record untouched or complete. */
    method OnDecisionMade(ghost c: nat, id: string, failAt: nat, forgetOk: bool) returns (r: Outcome)
      requires Valid() && id in sent && c !in state.deliveries
      modifies this
      ensures Valid() && c !in state.deliveries
      ensures !sent[id].humanReview || id in old(marks) ==>
        r == Acked && records == old(records) && queue == old(queue) && marks == old(marks)
      ensures sent[id].humanReview && id !in old(marks) && r == Acked ==>
        var i, e := sent[id].invoice, sent[id];
        && marks == old(marks) + {id}
        && (i !in old(records) ==>
              records == old(records)[i := Escalation(e.correlationId, Pending, e.decision, None, None, "")])
        && (i in old(records) && old(records)[i].status.NeedsInfo? ==>
              records == old(records)[i := Escalation(old(records)[i].correlationId, Pending, e.decision, None, None, "")])
        && (i in old(records) && !old(records)[i].status.NeedsInfo? ==> records == old(records))
        && queue == if i in old(queue) || (i in old(records) && (old(records)[i].status.Approved? || old(records)[i].status.Rejected?))
                    then old(queue) else old(queue) + [i]
      ensures r == Raised ==>
        && (records == old(records) || records == RecordsAfter(old(records), sent[id]))
        && queue == old(queue) && (if forgetOk then id !in marks && id in state.owed else sent[id].invoice in state.unforgotten)
      ensures failAt >= 4 ==> r == Acked
    {
      Take(Deliver(c, id));
      if !sent[id].humanReview || id in marks { return Acked; }
      marks := marks + {id};
      HandledAs(records, queue, sent[id]);
      hide RecordsAfter, QueueAfter, LeadsTo, Step;
      var over := Body(c, id, failAt);
      if over { return Acked; }
      CompensateForget(c, id, forgetOk);
      r := Raised;
    }

    /** The self-healing removal of an id whose record reads back as resolved. */
    method Evict(ghost c: nat, i: string)
      requires Valid() && c !in state.evictions && i in records && !records[i].status.Pending?
      modifies this
      ensures Valid() && c !in state.evictions && records == old(records) && marks == old(marks)
      ensures queue == RemoveFromQueue(old(queue), i)
      ensures trace == old(trace) + [EvictRead(c, i), EvictWrite(c)]
    {
      Take(EvictRead(c, i));
      Take(EvictWrite(c));
      queue := RemoveFromQueue(queue, i);
    }

    /** The loop of `get_queue`: what it shows, in queue order, and what it evicts. */
    method Collect(ghost c: nat, unreadable: set<string>) returns (items: seq<Escalation>)
      requires Valid() && c !in state.evictions
      modifies this
      ensures Valid() && records == old(records) && marks == old(marks) && NoRepeats(queue)
      ensures forall i :: i in queue <==> i in old(queue) && !Resolved(records, unreadable, i)
      ensures items == Shown(records, old(queue), unreadable)
    {
      RunHasNoRepeats(Start(), trace);
      hide LeadsTo;
      var ids := queue;
      items := [];
      for n := 0 to |ids|
        invariant Valid() && c !in state.evictions && records == old(records) && marks == old(marks) && NoRepeats(queue)
        invariant forall i :: i in queue <==> i in ids && !(i in ids[..n] && Resolved(records, unreadable, i))
        invariant items == Shown(records, ids[..n], unreadable)
      {
        var i := ids[n];
        assert ids[..n + 1] == ids[..n] + [i];
        ShownSnoc(records, ids[..n], i, unreadable);
        if Resolved(records, unreadable, i) {
          RemoveIsExact(queue, i);
          Evict(c, i);
        } else if i !in unreadable && i in records {
          items := items + [records[i]];
        }
      }
      assert ids[..|ids|] == ids;
    }

    /** `get_queue`, with the records in `unreadable` missing from this pass: every readable
        pending escalation in the queue is shown, oldest first, every readable resolved one is
        evicted, and nothing else leaves the index. */
    method GetQueue(ghost c: nat, unreadable: set<string>) returns (items: seq<Escalation>)
      requires Valid() && c !in state.evictions
      modifies this
      ensures Valid() && records == old(records) && marks == old(marks) && NoRepeats(queue)
      ensures forall i :: i in queue <==>
        i in old(queue) && (i in unreadable || i !in records || records[i].status.Pending?)
      ensures forall k, l | 0 <= k < l < |items| :: items[k].decision.escalatedAt <= items[l].decision.escalatedAt
      ensures multiset(items) == multiset(Shown(records, old(queue), unreadable))
      ensures forall k :: WithKey(items, ByEscalation, k) == WithKey(Shown(records, old(queue), unreadable), ByEscalation, k)
    {
      var shown := Collect(c, unreadable);
      hide LeadsTo;
      OldestFirst(shown);
      items := Sort(shown, ByEscalation);
      assert forall k :: WithKey(items, ByEscalation, k) == WithKey(shown, ByEscalation, k);
      hide WithKey, Sort;
    }
  }

  /** The record definitely reads back as resolved. */
  predicate Resolved(records: map<string, Escalation>, unreadable: set<string>, i: string) {
    i !in unreadable && i in records && !records[i].status.Pending?
  }

  /** The readable pending escalations of `ids`, in order. */
  ghost function Shown(records: map<string, Escalation>, ids: seq<string>, unreadable: set<string>): seq<Escalation> {
    if ids == [] then []
    else
      var i := ids[|ids| - 1];
      Shown(records, ids[..|ids| - 1], unreadable)
      + if i !in unreadable && i in records && records[i].status.Pending? then [records[i]] else []
  }

  lemma ShownSnoc(records: map<string, Escalation>, ids: seq<string>, i: string, unreadable: set<string>)
    ensures Shown(records, ids + [i], unreadable)
         == Shown(records, ids, unreadable) + if i !in unreadable && i in records && records[i].status.Pending? then [records[i]] else []
  {
    assert (ids + [i])[..|ids + [i]| - 1] == ids;
  }

  function ByEscalation(e: Escalation): int {
    e.decision.escalatedAt
  }
}
