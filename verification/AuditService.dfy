/** The audit service's own operations, write by write (services/audit/src/trail.py,
    services/audit/src/subscriptions.py). Each write is one step of AuditTrail, so what
    AuditTheorems proves of runs holds of the service. */
module AuditService {
  import opened Wrappers
  import opened Runs
  import opened StableSort
  import opened AuditTrail
  import opened Contracts
  import Dedupe

  datatype Outcome = Acked | Raised

  /** What recording an event leaves, whatever was there. */
  function TrailsAfter(trails: map<string, seq<Entry>>, id: string, e: AuditEvent): map<string, seq<Entry>> {
    trails[e.correlationId := AppendEntry(TrailAt(trails, e.correlationId), Entry(id, e))]
  }

  function IndexAfter(index: seq<Row>, e: AuditEvent): seq<Row> {
    if e.Auto() then AppendRow(index, RowOf(e)) else index
  }

  /** A replay after a failure between the two writes ends where a clean delivery ends. */
  lemma ReplayIsHarmless(trails: map<string, seq<Entry>>, index: seq<Row>, id: string, e: AuditEvent)
    ensures TrailsAfter(TrailsAfter(trails, id, e), id, e) == TrailsAfter(trails, id, e)
    ensures IndexAfter(IndexAfter(index, e), e) == IndexAfter(index, e)
  {
    assert HasId(TrailAt(TrailsAfter(trails, id, e), e.correlationId), id);
  }

  function ByTime(x: Entry): int {
    x.event.occurredAt
  }

  class AuditService {
    var trails: map<string, seq<Entry>>
    var index: seq<Row>
    var marks: set<string>
    /** The events by id, the steps taken so far and the protocol state they lead to
        (which may hold other deliveries in flight). */
    const sent: map<string, AuditEvent>
    ghost var trace: seq<Action>
    ghost var state: State

    ghost function Start(): State {
      State(sent, Dedupe.State({}, map[], []), map[], map[], [])
    }

    ghost predicate Valid()
      reads this
    {
      && trails == state.trails && index == state.index && marks == state.dedupe.marks && sent == state.sent
      && LeadsTo(Step, Start(), trace, state)
    }

    /** Delivery `c` of `id` is inside its body, at `stage`. */
    ghost predicate At(c: nat, id: string, stage: Stage)
      reads this
    {
      && Valid() && id in sent && c in state.dedupe.running && c in state.stage
      && state.dedupe.running[c] == Dedupe.Delivery(id, Dedupe.Body) && state.stage[c] == stage
    }

    constructor (sent: map<string, AuditEvent>)
      ensures Valid() && this.sent == sent && trace == [] && Init(state)
    {
      this.sent := sent;
      trails, index, marks, trace := map[], [], {}, [];
      state := State(sent, Dedupe.State({}, map[], []), map[], map[], []);
    }

    /** The protocol takes step `a`; the caller performs its write. */
    ghost method Take(a: Action)
      requires Valid() && Step(state, a).Some?
      modifies this`trace, this`state
      ensures trace == old(trace) + [a] && Some(state) == Step(old(state), a) && LeadsTo(Step, Start(), trace, state)
    {
      OneMore(Step, Start(), trace, state, a);
      state, trace := Step(state, a).value, trace + [a];
    }

    /** `append`: idempotent by event id. */
    method AppendEvent(ghost c: nat, id: string)
      requires At(c, id, Appending)
      modifies this
      ensures At(c, id, if sent[id].Auto() then Indexing else Recorded)
      ensures index == old(index) && marks == old(marks) && trails == TrailsAfter(old(trails), id, sent[id])
      ensures trace == old(trace) + [Append(c)]
    {
      Take(Append(c));
      hide LeadsTo;
      var e := sent[id];
      trails := trails[e.correlationId := AppendEntry(TrailAt(trails, e.correlationId), Entry(id, e))];
    }

    /** `append_auto_approval`: idempotent by invoice id. */
    method AppendAutoApproval(ghost c: nat, id: string)
      requires At(c, id, Indexing) && sent[id].Auto()
      modifies this
      ensures At(c, id, Recorded)
      ensures trails == old(trails) && marks == old(marks) && index == AppendRow(old(index), RowOf(sent[id]))
      ensures trace == old(trace) + [Index(c)]
    {
      Take(Index(c));
      hide LeadsTo;
      index := AppendRow(index, RowOf(sent[id]));
    }

    /** `_compensate_forget`. */
    method CompensateForget(ghost c: nat, id: string, ghost stage: Stage, forgetOk: bool)
      requires At(c, id, stage)
      modifies this
      ensures Valid() && c !in state.dedupe.running && trails == old(trails) && index == old(index)
      ensures marks == if forgetOk then old(marks) - {id} else old(marks)
    {
      Take(Protocol(Dedupe.Fail(c)));
      if forgetOk {
        Take(Protocol(Dedupe.Forget(c)));
        marks := marks - {id};
      } else {
        Take(Protocol(Dedupe.ForgetFail(c)));
      }
    }

    /** `first_time`: True when this delivery set the mark. */
    method FirstTime(ghost c: nat, id: string) returns (first: bool)
      requires Valid() && id in sent && c !in state.dedupe.running
      modifies this
      ensures first == (id !in old(marks)) && trails == old(trails) && index == old(index)
      ensures if first then At(c, id, Appending) && marks == old(marks) + {id}
              else Valid() && c !in state.dedupe.running && marks == old(marks)
    {
      Take(Protocol(Dedupe.Look(c, id, true)));
      first := id !in marks;
      if first {
        Take(Protocol(Dedupe.Mark(c)));
        marks := marks + {id};
      }
    }

    /** `_record`, with its write number `failAt` failing if it gets that far: a duplicate changes
        nothing, an acked delivery recorded its event, and a failed one recorded a part of it
        and, if the forget works, is not marked. */
    method Record(ghost c: nat, id: string, failAt: nat, forgetOk: bool) returns (r: Outcome)
      requires Valid() && id in sent && c !in state.dedupe.running
      modifies this
      ensures Valid() && c !in state.dedupe.running
      ensures id in old(marks) ==> r == Acked && trails == old(trails) && index == old(index) && marks == old(marks)
      ensures id !in old(marks) && r == Acked ==>
        && trails == TrailsAfter(old(trails), id, sent[id]) && index == IndexAfter(old(index), sent[id])
        && marks == old(marks) + {id} && id in state.dedupe.finished
      ensures r == Raised ==>
        && trails == (if failAt == 0 then old(trails) else TrailsAfter(old(trails), id, sent[id])) && index == old(index)
        && marks == (if forgetOk then old(marks) else old(marks) + {id})
      ensures r == Raised <==> id !in old(marks) && (failAt == 0 || (failAt == 1 && sent[id].Auto()))
    {
      hide LeadsTo;
      var first := FirstTime(c, id);
      if !first { return Acked; }
      if failAt == 0 {
        CompensateForget(c, id, Appending, forgetOk);
        return Raised;
      }
      AppendEvent(c, id);
      if sent[id].Auto() {
        if failAt == 1 {
          CompensateForget(c, id, Indexing, forgetOk);
          return Raised;
        }
        AppendAutoApproval(c, id);
      }
      Take(Protocol(Dedupe.Finish(c)));
      r := Acked;
    }

    /** `get_trail`: every recorded event of the correlation id, oldest first, ties as recorded. */
    method GetTrail(corr: string) returns (entries: seq<Entry>)
      ensures multiset(entries) == multiset(TrailAt(trails, corr))
      ensures forall k, l | 0 <= k < l < |entries| :: entries[k].event.occurredAt <= entries[l].event.occurredAt
      ensures forall k :: WithKey(entries, ByTime, k) == WithKey(TrailAt(trails, corr), ByTime, k)
    {
      var recorded := TrailAt(trails, corr);
      SortIsStable(recorded, ByTime, 0);
      forall k ensures WithKey(Sort(recorded, ByTime), ByTime, k) == WithKey(recorded, ByTime, k) {
        SortIsStable(recorded, ByTime, k);
      }
      entries := Sort(recorded, ByTime);
    }

    /** `ceiling_violations`: the rows over their ceiling, in order. */
    method CeilingViolations() returns (r: seq<Row>)
      ensures r == Violations(index) && forall x :: x in r <==> x in index && x.usdCents > x.ceilingCents
    {
      r := [];
      for k := 0 to |index|
        invariant r == Violations(index[..k])
      {
        assert index[..k + 1][..k] == index[..k];
        if index[k].Violates() { r := r + [index[k]]; }
      }
      assert index[..|index|] == index;
    }
  }
}
