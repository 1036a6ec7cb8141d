/** The audit trail and its index of auto-approvals, fed by deliveries that may fail at
    either write (services/audit/src/trail.py, services/audit/src/subscriptions.py).

    `Step` wraps the dedupe protocol: inside its body a delivery appends to the trail and,
    for an auto-approval, to the index. Each append is one `cas_update`. */
module AuditTrail {
  import opened Wrappers
  import opened Runs
  import opened Contracts
  import Dedupe

  datatype Payload =
    | InvoiceSubmitted
    | DecisionMade(route: Route, usdCents: int, ceilingCents: int)
    | ApprovalResolved
    | PaymentCompleted
    | PaymentFailed

  datatype AuditEvent = AuditEvent(correlationId: string, invoice: string, occurredAt: int, payload: Payload) {
    predicate Auto() {
      payload.DecisionMade? && payload.route.AutoApprove?
    }
  }

  datatype Entry = Entry(eventId: string, event: AuditEvent)

  datatype Row = Row(correlationId: string, invoice: string, usdCents: int, ceilingCents: int) {
    predicate Violates() {
      usdCents > ceilingCents
    }
  }

  function RowOf(e: AuditEvent): Row
    requires e.Auto()
  {
    Row(e.correlationId, e.invoice, e.payload.usdCents, e.payload.ceilingCents)
  }

  /** What a delivery inside its body does next. */
  datatype Stage = Appending | Indexing | Recorded

  /** `sent` are the events by id: event ids identify payloads. */
  datatype State = State(
    sent: map<string, AuditEvent>, dedupe: Dedupe.State, stage: map<nat, Stage>,
    trails: map<string, seq<Entry>>, index: seq<Row>)

  datatype Action = Protocol(d: Dedupe.Action) | Append(c: nat) | Index(c: nat)

  // ----- the two append-only lists

  predicate HasId(trail: seq<Entry>, id: string) {
    exists x :: x in trail && x.eventId == id
  }

  predicate HasInvoice(index: seq<Row>, i: string) {
    exists r :: r in index && r.invoice == i
  }

  function TrailAt(trails: map<string, seq<Entry>>, corr: string): seq<Entry> {
    if corr in trails then trails[corr] else []
  }

  function AppendEntry(trail: seq<Entry>, x: Entry): (r: seq<Entry>)
    ensures trail <= r && HasId(r, x.eventId)
  {
    if HasId(trail, x.eventId) then trail
    else
      assert x in trail + [x];
      trail + [x]
  }

  /** The row itself gets in exactly when its invoice had none. */
  function AppendRow(index: seq<Row>, row: Row): (r: seq<Row>)
    ensures index <= r && HasInvoice(r, row.invoice)
    ensures row in r <==> row in index || !HasInvoice(index, row.invoice)
  {
    if HasInvoice(index, row.invoice) then index
    else
      assert row in index + [row];
      index + [row]
  }

  /** `ceiling_violations`: the offending rows, in order. */
  function Violations(index: seq<Row>): (r: seq<Row>)
    ensures forall x :: x in r <==> x in index && x.usdCents > x.ceilingCents
  {
    if index == [] then []
    else
      var rest := Violations(index[..|index| - 1]);
      var x := index[|index| - 1];
      assert index == index[..|index| - 1] + [x];
      if x.Violates() then rest + [x] else rest
  }

  // ----- the steps

  predicate InBody(s: State, c: nat) {
    c in s.dedupe.running && s.dedupe.running[c].phase.Body? && s.dedupe.running[c].id in s.sent && c in s.stage
  }

  function EventOf(s: State, c: nat): AuditEvent
    requires InBody(s, c)
  {
    s.sent[s.dedupe.running[c].id]
  }

  function Step(s: State, a: Action): Option<State> {
    match a
    case Protocol(d) =>
      if d.Look? && (!d.wanted || d.id !in s.sent) then None
      else if d.Finish? && (d.c !in s.stage || !s.stage[d.c].Recorded?) then None
      else (match Dedupe.Step(s.dedupe, d)
            case None => None
            case Some(after) =>
              Some(s.(dedupe := after, stage := if d.Mark? then s.stage[d.c := Appending] else s.stage)))
    case Append(c) =>
      if !InBody(s, c) || !s.stage[c].Appending? then None
      else
        var e := EventOf(s, c);
        var entry := Entry(s.dedupe.running[c].id, e);
        Some(s.(trails := s.trails[e.correlationId := AppendEntry(TrailAt(s.trails, e.correlationId), entry)],
                stage := s.stage[c := if e.Auto() then Indexing else Recorded]))
    case Index(c) =>
      if !InBody(s, c) || !s.stage[c].Indexing? || !EventOf(s, c).Auto() then None
      else Some(s.(index := AppendRow(s.index, RowOf(EventOf(s, c))), stage := s.stage[c := Recorded]))
  }

  ghost predicate Init(s: State) {
    s == State(s.sent, Dedupe.State({}, map[], []), map[], map[], [])
  }

  // ----- what every step keeps

  /** The event is in the trail of its correlation id. */
  ghost predicate InTrail(s: State, id: string) {
    id in s.sent && Entry(id, s.sent[id]) in TrailAt(s.trails, s.sent[id].correlationId)
  }

  /** Everything the handler owes event `id` is done. */
  ghost predicate FullyRecorded(s: State, id: string) {
    && InTrail(s, id)
    && (s.sent[id].payload.DecisionMade? && s.sent[id].payload.route == AutoApprove ==> HasInvoice(s.index, s.sent[id].invoice))
  }

  /** Every entry is an event that was sent, in its own trail, once. */
  ghost predicate TrailOk(sent: map<string, AuditEvent>, corr: string, trail: seq<Entry>) {
    && (forall x | x in trail :: x.eventId in sent && x.event == sent[x.eventId] && x.event.correlationId == corr)
    && (forall k, l | 0 <= k < l < |trail| :: trail[k].eventId != trail[l].eventId)
  }

  /** The row is the projection of an auto-approval in the trail. */
  ghost predicate Backed(s: State, row: Row) {
    exists id :: InTrail(s, id) && s.sent[id].correlationId == row.correlationId && s.sent[id].invoice == row.invoice
      && s.sent[id].payload == DecisionMade(AutoApprove, row.usdCents, row.ceilingCents)
  }

  ghost predicate IndexOk(s: State) {
    && (forall row | row in s.index :: Backed(s, row))
    && (forall k, l | 0 <= k < l < |s.index| :: s.index[k].invoice != s.index[l].invoice)
  }

  ghost predicate StageOk(s: State, c: nat) {
    c in s.dedupe.running ==>
      && s.dedupe.running[c].id in s.sent
      && (s.dedupe.running[c].phase.Body? ==>
            && c in s.stage
            && (s.stage[c].Indexing? ==> InTrail(s, s.dedupe.running[c].id))
            && (s.stage[c].Recorded? ==> FullyRecorded(s, s.dedupe.running[c].id)))
  }

  ghost predicate Inv(s: State) {
    && Dedupe.Inv(s.dedupe)
    && (forall corr :: TrailOk(s.sent, corr, TrailAt(s.trails, corr)))
    && IndexOk(s)
    && (forall c :: StageOk(s, c))
    && (forall id | id in s.dedupe.finished :: FullyRecorded(s, id))
  }

  /** Append-only: trails and index only grow at their ends. */
  ghost predicate Grows(s: State, t: State) {
    && t.sent == s.sent && s.index <= t.index
    && (forall corr :: TrailAt(s.trails, corr) <= TrailAt(t.trails, corr))
  }

  lemma StepGrows(s: State, a: Action)
    requires Step(s, a).Some?
    ensures Grows(s, Step(s, a).value)
  {
  }

  lemma GrowsKeeps(s: State, t: State, id: string)
    requires Grows(s, t)
    ensures InTrail(s, id) ==> InTrail(t, id)
    ensures FullyRecorded(s, id) ==> FullyRecorded(t, id)
  {
    if InTrail(s, id) {
      var corr := s.sent[id].correlationId;
      assert TrailAt(s.trails, corr) <= TrailAt(t.trails, corr);
    }
  }

  /** With faithful trails, an id that is there is there with its event. */
  lemma AppendedIsInTrail(s: State, c: nat)
    requires Inv(s) && Step(s, Append(c)).Some?
    ensures InTrail(Step(s, Append(c)).value, s.dedupe.running[c].id)
    ensures forall corr :: TrailOk(s.sent, corr, TrailAt(Step(s, Append(c)).value.trails, corr))
  {
    var e := EventOf(s, c);
    var before := TrailAt(s.trails, e.correlationId);
    assert TrailOk(s.sent, e.correlationId, before);
    var t := Step(s, Append(c)).value;
    forall corr ensures TrailOk(s.sent, corr, TrailAt(t.trails, corr)) {
      assert TrailOk(s.sent, corr, TrailAt(s.trails, corr));
    }
  }

  lemma IndexStaysOk(s: State, a: Action)
    requires Inv(s) && Step(s, a).Some?
    ensures IndexOk(Step(s, a).value)
  {
    var t := Step(s, a).value;
    StepGrows(s, a);
    forall row | row in t.index ensures Backed(t, row) {
      if row in s.index {
        assert Backed(s, row);
        var id :| InTrail(s, id) && s.sent[id].correlationId == row.correlationId && s.sent[id].invoice == row.invoice
          && s.sent[id].payload == DecisionMade(AutoApprove, row.usdCents, row.ceilingCents);
        GrowsKeeps(s, t, id);
      } else {
        assert StageOk(s, a.c);
        GrowsKeeps(s, t, s.dedupe.running[a.c].id);
      }
    }
  }

  lemma StageStaysOk(s: State, a: Action, c: nat)
    requires Inv(s) && Step(s, a).Some?
    ensures StageOk(Step(s, a).value, c)
  {
    var t := Step(s, a).value;
    StepGrows(s, a);
    assert StageOk(s, c);
    if c in s.dedupe.running {
      GrowsKeeps(s, t, s.dedupe.running[c].id);
      if a.Append? && a.c == c { AppendedIsInTrail(s, c); }
    }
  }

  lemma FinishedStayRecorded(s: State, a: Action, id: string)
    requires Inv(s) && Step(s, a).Some? && id in Step(s, a).value.dedupe.finished
    ensures FullyRecorded(Step(s, a).value, id)
  {
    var t := Step(s, a).value;
    StepGrows(s, a);
    if id !in s.dedupe.finished {
      assert StageOk(s, a.d.c);
    }
    GrowsKeeps(s, t, id);
  }

  lemma StepKeepsInv(s: State, a: Action)
    requires Inv(s) && Step(s, a).Some?
    ensures Inv(Step(s, a).value)
  {
    var t := Step(s, a).value;
    if a.Protocol? { Dedupe.StepKeepsInv(s.dedupe, a.d); }
    if a.Append? { AppendedIsInTrail(s, a.c); }
    IndexStaysOk(s, a);
    forall c ensures StageOk(t, c) { StageStaysOk(s, a, c); }
    forall id | id in t.dedupe.finished ensures FullyRecorded(t, id) { FinishedStayRecorded(s, a, id); }
  }

  lemma RunKeepsInv(s0: State, trace: seq<Action>)
    requires Init(s0) && Run(Step, s0, trace).Some?
    ensures Inv(Run(Step, s0, trace).value)
  {
    forall s, a | Inv(s) && Step(s, a).Some? ensures Inv(Step(s, a).value) {
      StepKeepsInv(s, a);
    }
    InvariantOfRun(Step, Inv, s0, trace);
  }
}
