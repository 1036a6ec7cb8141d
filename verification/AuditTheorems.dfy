/** What the audit trail promises, over every interleaving of deliveries, replays and failures. */
module AuditTheorems {
  import opened Wrappers
  import opened Runs
  import opened AuditTrail
  import opened Contracts
  import Dedupe

  /** Every trail, and the index, is a prefix of what it becomes later. */
  lemma TrailsOnlyGrow(s0: State, before: seq<Action>, after: seq<Action>, corr: string)
    requires Init(s0) && Run(Step, s0, before).Some? && Run(Step, Run(Step, s0, before).value, after).Some?
    ensures var s, t := Run(Step, s0, before).value, Run(Step, Run(Step, s0, before).value, after).value;
      TrailAt(s.trails, corr) <= TrailAt(t.trails, corr) && s.index <= t.index
  {
    forall s, a | Step(s, a).Some? ensures Grows(s, Step(s, a).value) { StepGrows(s, a); }
    RelationOfRun(Step, (s: State) => true, Grows, Run(Step, s0, before).value, after);
  }

  /** Each event is recorded at most once, in its own trail, as it was sent. */
  lemma TrailsAreFaithful(s0: State, trace: seq<Action>, corr: string, other: string, k: nat, l: nat)
    requires Init(s0) && Run(Step, s0, trace).Some?
    requires var s := Run(Step, s0, trace).value; k < |TrailAt(s.trails, corr)| && l < |TrailAt(s.trails, other)|
    ensures var s := Run(Step, s0, trace).value;
      var x, y := TrailAt(s.trails, corr)[k], TrailAt(s.trails, other)[l];
      && x.eventId in s.sent && x.event == s.sent[x.eventId] && x.event.correlationId == corr
      && (x.eventId == y.eventId ==> corr == other && k == l)
  {
    RunKeepsInv(s0, trace);
    var s := Run(Step, s0, trace).value;
    assert TrailOk(s.sent, corr, TrailAt(s.trails, corr)) && TrailOk(s.sent, other, TrailAt(s.trails, other));
    assert TrailAt(s.trails, other)[l] in TrailAt(s.trails, other);
  }

  /** At most one row per invoice, and each is an auto-approval that is in the trail. */
  lemma IndexIsFaithful(s0: State, trace: seq<Action>, k: nat, l: nat)
    requires Init(s0) && Run(Step, s0, trace).Some?
    requires var s := Run(Step, s0, trace).value; k < |s.index| && l < |s.index|
    ensures var s := Run(Step, s0, trace).value;
      && Backed(s, s.index[k])
      && (s.index[k].invoice == s.index[l].invoice ==> k == l)
  {
    RunKeepsInv(s0, trace);
    var s := Run(Step, s0, trace).value;
    assert s.index[k] in s.index;
  }

  /** A delivery acked after running its body left its event in the trail and, for an
      auto-approval, its invoice in the index. */
  lemma AckedIsRecorded(s0: State, trace: seq<Action>, id: string)
    requires Init(s0) && Run(Step, s0, trace).Some? && id in Run(Step, s0, trace).value.dedupe.finished
    ensures FullyRecorded(Run(Step, s0, trace).value, id)
  {
    RunKeepsInv(s0, trace);
  }

  /** Nothing over its ceiling was auto-approved: nothing is reported. */
  lemma CompliantMeansEmpty(s0: State, trace: seq<Action>)
    requires Init(s0) && Run(Step, s0, trace).Some?
    requires forall id | id in s0.sent && s0.sent[id].payload.DecisionMade? && s0.sent[id].payload.route == AutoApprove ::
               s0.sent[id].payload.usdCents <= s0.sent[id].payload.ceilingCents
    ensures Violations(Run(Step, s0, trace).value.index) == []
  {
    RunKeepsInv(s0, trace);
    SentIsFixed(s0, trace);
    var s := Run(Step, s0, trace).value;
    forall row | row in s.index ensures row.usdCents <= row.ceilingCents {
      assert Backed(s, row);
    }
    NoneReported(s.index);
  }

  lemma {:induction false} NoneReported(index: seq<Row>)
    requires forall row | row in index :: row.usdCents <= row.ceilingCents
    ensures Violations(index) == []
  {
    if index != [] { NoneReported(index[..|index| - 1]); }
  }

  lemma SentIsFixed(s0: State, trace: seq<Action>)
    requires Run(Step, s0, trace).Some?
    ensures Run(Step, s0, trace).value.sent == s0.sent
  {
    forall s, a | Step(s, a).Some? ensures Grows(s, Step(s, a).value) { StepGrows(s, a); }
    RelationOfRun(Step, (s: State) => true, Grows, s0, trace);
  }

  /** The event is an auto-approval of more than its ceiling. */
  ghost predicate OverCeiling(e: AuditEvent) {
    e.payload.DecisionMade? && e.payload.route == AutoApprove && e.payload.usdCents > e.payload.ceilingCents
  }

  /** The converse, exactly: an auto-approval over its ceiling is reported for good if its row
      was there or its invoice had no row when the handler came to write it, and otherwise never. */
  lemma ViolationReportedIff(s0: State, before: seq<Action>, c: nat, after: seq<Action>)
    requires Init(s0) && Run(Step, s0, before).Some?
    requires Step(Run(Step, s0, before).value, Index(c)).Some?
    requires Run(Step, Step(Run(Step, s0, before).value, Index(c)).value, after).Some?
    requires OverCeiling(EventOf(Run(Step, s0, before).value, c))
    ensures var s := Run(Step, s0, before).value;
      var e := EventOf(s, c);
      var row := Row(e.correlationId, e.invoice, e.payload.usdCents, e.payload.ceilingCents);
      var later := Run(Step, Step(s, Index(c)).value, after).value;
      row in Violations(later.index) <==> row in s.index || !HasInvoice(s.index, row.invoice)
  {
    var s := Run(Step, s0, before).value;
    var t := Step(s, Index(c)).value;
    var row := RowOf(EventOf(s, c));
    RunKeepsInv(s0, before);
    StepKeepsInv(s, Index(c));
    LaterIndex(t, after, row);
    assert HasInvoice(t.index, row.invoice);
  }

  /** A row gets in only with the first row of its invoice. */
  lemma LaterIndex(s: State, after: seq<Action>, row: Row)
    requires Inv(s) && HasInvoice(s.index, row.invoice) && Run(Step, s, after).Some?
    ensures row in Run(Step, s, after).value.index <==> row in s.index
  {
    var t := Run(Step, s, after).value;
    forall x, a | Inv(x) && Step(x, a).Some? ensures Inv(Step(x, a).value) && Grows(x, Step(x, a).value) {
      StepKeepsInv(x, a);
      StepGrows(x, a);
    }
    InvariantOfRun(Step, Inv, s, after);
    RelationOfRun(Step, Inv, Grows, s, after);
    hide Step;
    if row in t.index {
      var k :| 0 <= k < |s.index| && s.index[k].invoice == row.invoice;
      var l :| 0 <= l < |t.index| && t.index[l] == row;
      assert t.index[k] == s.index[k];
    }
  }

  /** Step `n` of the run is the write of the index by a delivery of `id`. */
  ghost predicate WroteAt(s0: State, trace: seq<Action>, n: nat, id: string) {
    && n < |trace| && trace[n].Index? && Run(Step, s0, trace[..n]).Some?
    && var s := Run(Step, s0, trace[..n]).value;
       InBody(s, trace[n].c) && Step(s, trace[n]).Some? && s.dedupe.running[trace[n].c].id == id
  }

  /** The handler is through with `id`: acked, or about to be. */
  ghost predicate Through(s: State, id: string) {
    id in s.dedupe.finished || exists c :: InBody(s, c) && s.stage[c].Recorded? && s.dedupe.running[c].id == id
  }

  lemma BecomesThrough(s: State, a: Action, id: string)
    requires Step(s, a).Some? && id in s.sent && s.sent[id].Auto()
    requires Through(Step(s, a).value, id) && !Through(s, id)
    ensures a.Index? && InBody(s, a.c) && s.dedupe.running[a.c].id == id
  {
    var t := Step(s, a).value;
    if id in t.dedupe.finished {
      assert a.Protocol? && a.d.Finish?;
      assert id in s.sent && s.dedupe.running[a.d.c].id == id;
      assert InBody(s, a.d.c);
    } else {
      var c :| InBody(t, c) && t.stage[c].Recorded? && t.dedupe.running[c].id == id;
      assert InBody(s, c);
    }
  }

  /** Every acked auto-approval came to its write of the index. */
  lemma {:induction false} AckedWroteItsRow(s0: State, trace: seq<Action>, id: string) returns (n: nat)
    requires Init(s0) && Run(Step, s0, trace).Some? && id in s0.sent && s0.sent[id].Auto()
    requires Through(Run(Step, s0, trace).value, id)
    ensures WroteAt(s0, trace, n, id)
    decreases |trace|
  {
    n := |trace| - 1;
    RunAt(Step, s0, trace, n);
    assert trace[..n + 1] == trace;
    SentIsFixed(s0, trace[..n]);
    var s := Run(Step, s0, trace[..n]).value;
    if Through(s, id) {
      var m := AckedWroteItsRow(s0, trace[..n], id);
      assert trace[..n][..m] == trace[..m];
      n := m;
    } else {
      BecomesThrough(s, trace[n], id);
    }
  }

  /** So for every acked auto-approval over its ceiling: it is reported exactly when, at its
      write, its row was there or its invoice had none. */
  lemma AckedViolationReportedIff(s0: State, trace: seq<Action>, id: string) returns (n: nat)
    requires Init(s0) && Run(Step, s0, trace).Some? && id in Run(Step, s0, trace).value.dedupe.finished
    requires id in s0.sent && OverCeiling(s0.sent[id])
    ensures WroteAt(s0, trace, n, id)
    ensures var index, e := Run(Step, s0, trace[..n]).value.index, s0.sent[id];
      var row := Row(e.correlationId, e.invoice, e.payload.usdCents, e.payload.ceilingCents);
      row in Violations(Run(Step, s0, trace).value.index) <==> row in index || !HasInvoice(index, row.invoice)
  {
    n := AckedWroteItsRow(s0, trace, id);
    RunAt(Step, s0, trace, n);
    SentIsFixed(s0, trace[..n]);
    ViolationReportedIff(s0, trace[..n], trace[n].c, trace[n + 1..]);
  }

  /** So every acked violation is reported as long as an invoice is auto-approved once, or
      always with the same figures. */
  lemma ViolationIsReported(s0: State, trace: seq<Action>, id: string)
    requires Init(s0) && Run(Step, s0, trace).Some? && id in Run(Step, s0, trace).value.dedupe.finished
    requires id in s0.sent && OverCeiling(s0.sent[id])
    requires forall j | j in s0.sent && s0.sent[j].payload.DecisionMade? && s0.sent[j].payload.route == AutoApprove
                        && s0.sent[j].invoice == s0.sent[id].invoice ::
               s0.sent[j].payload == s0.sent[id].payload && s0.sent[j].correlationId == s0.sent[id].correlationId
    ensures var e := s0.sent[id];
      Row(e.correlationId, e.invoice, e.payload.usdCents, e.payload.ceilingCents)
      in Violations(Run(Step, s0, trace).value.index)
  {
    RunKeepsInv(s0, trace);
    SentIsFixed(s0, trace);
    assert FullyRecorded(Run(Step, s0, trace).value, id);
    var s := Run(Step, s0, trace).value;
    forall r | r in s.index && r.invoice == s0.sent[id].invoice ensures r == RowOf(s0.sent[id]) {
      assert Backed(s, r);
    }
  }

  /** The deliveries of one event, seen through the dedupe protocol. */
  ghost function Protocols(trace: seq<Action>): seq<Dedupe.Action> {
    if trace == [] then []
    else (if trace[0].Protocol? then [trace[0].d] else []) + Protocols(trace[1..])
  }

  lemma OneStepFollows(s: State, a: Action)
    requires Step(s, a).Some?
    ensures if a.Protocol? then Dedupe.Step(s.dedupe, a.d) == Some(Step(s, a).value.dedupe)
            else Step(s, a).value.dedupe == s.dedupe
  {
    hide Dedupe.Step;
  }

  /** Audit follows the dedupe protocol: its runs are runs of Dedupe. */
  lemma {:induction false} FollowsDedupe(s: State, trace: seq<Action>)
    requires Run(Step, s, trace).Some?
    ensures Run(Dedupe.Step, s.dedupe, Protocols(trace)) == Some(Run(Step, s, trace).value.dedupe)
    decreases |trace|
  {
    if trace != [] {
      OneStepFollows(s, trace[0]);
      hide Step, Dedupe.Step;
      FollowsDedupe(Step(s, trace[0]).value, trace[1..]);
      if trace[0].Protocol? {
        RunCons(Dedupe.Step, s.dedupe, trace[0].d, Protocols(trace[1..]));
      } else {
        assert Protocols(trace) == Protocols(trace[1..]);
      }
    }
  }

  /** At most one delivery of an event is between its mark and its ack, and at most one ends. */
  lemma OneRecorderPerEvent(s0: State, trace: seq<Action>, c: nat, d: nat)
    requires Init(s0) && Run(Step, s0, trace).Some?
    requires var s := Run(Step, s0, trace).value; InBody(s, c) && InBody(s, d)
    ensures var s := Run(Step, s0, trace).value;
      var id := s.dedupe.running[c].id;
      && id in s.dedupe.marks && id !in s.dedupe.finished
      && (id == s.dedupe.running[d].id ==> c == d)
  {
    FollowsDedupe(s0, trace);
    var s := Run(Step, s0, trace).value;
    Dedupe.AtMostOnce(s0.dedupe, Protocols(trace), s.dedupe.running[c].id, c, d, 0, 0);
    assert Dedupe.Owns(s.dedupe, c, s.dedupe.running[c].id);
    assert Dedupe.Owns(s.dedupe, d, s.dedupe.running[d].id);
  }

  // ----- the projection is keyed by invoice, not by event

  const FIRST_APPROVAL := AuditEvent("corr", "inv", 0, DecisionMade(AutoApprove, 100, 25000))
  const SECOND_APPROVAL := AuditEvent("corr", "inv", 1, DecisionMade(AutoApprove, 30000, 25000))

  function Deliver(c: nat, id: string): seq<Action> {
    [Protocol(Dedupe.Look(c, id, true)), Protocol(Dedupe.Mark(c)), Append(c), Index(c), Protocol(Dedupe.Finish(c))]
  }

  lemma FiveSteps(s: State, a: seq<Action>, s1: State, s2: State, s3: State, s4: State, s5: State)
    requires |a| == 5
    requires Step(s, a[0]) == Some(s1) && Step(s1, a[1]) == Some(s2) && Step(s2, a[2]) == Some(s3)
    requires Step(s3, a[3]) == Some(s4) && Step(s4, a[4]) == Some(s5)
    ensures Run(Step, s, a) == Some(s5)
  {
    hide Step;
    assert a == [a[0]] + ([a[1]] + ([a[2]] + ([a[3]] + ([a[4]] + []))));
    RunCons(Step, s4, a[4], []);
    RunCons(Step, s3, a[3], [a[4]] + []);
    RunCons(Step, s2, a[2], [a[3]] + ([a[4]] + []));
    RunCons(Step, s1, a[1], [a[2]] + ([a[3]] + ([a[4]] + [])));
    RunCons(Step, s, a[0], [a[1]] + ([a[2]] + ([a[3]] + ([a[4]] + []))));
  }

  /** One clean delivery, for an event whose id is new to its trail. */
  lemma CleanDelivery(s: State, c: nat, id: string)
    requires id in s.sent && s.sent[id].Auto() && id !in s.dedupe.marks && c !in s.dedupe.running
    ensures var r := Run(Step, s, Deliver(c, id));
      && r.Some? && r.value.sent == s.sent
      && r.value.dedupe.running == s.dedupe.running && r.value.dedupe.marks == s.dedupe.marks + {id}
      && r.value.dedupe.finished == s.dedupe.finished + [id]
      && r.value.index == AppendRow(s.index, RowOf(s.sent[id]))
  {
    var a := Deliver(c, id);
    var s1 := Step(s, a[0]).value;
    var s2 := Step(s1, a[1]).value;
    var s3 := Step(s2, a[2]).value;
    var s4 := Step(s3, a[3]).value;
    var s5 := Step(s4, a[4]).value;
    assert s5.dedupe.running == s.dedupe.running;
    FiveSteps(s, a, s1, s2, s3, s4, s5);
  }

  /** Two clean deliveries in a row. */
  lemma TwoDeliveries(s: State, a: string, b: string)
    requires a in s.sent && s.sent[a].Auto() && b in s.sent && s.sent[b].Auto() && a != b
    requires s.dedupe == Dedupe.State({}, map[], [])
    ensures var r := Run(Step, s, Deliver(0, a) + Deliver(1, b));
      && r.Some? && r.value.sent == s.sent && r.value.dedupe.finished == [a, b]
      && r.value.index == AppendRow(AppendRow(s.index, RowOf(s.sent[a])), RowOf(s.sent[b]))
  {
    hide Step, Deliver;
    CleanDelivery(s, 0, a);
    var s1 := Run(Step, s, Deliver(0, a)).value;
    CleanDelivery(s1, 1, b);
    RunConcat(Step, s, Deliver(0, a), Deliver(1, b));
  }

  /** With two auto-approvals of one invoice, the second one's violation goes unreported
      although it was acked: an empty list is then no proof of compliance. */
  lemma SecondApprovalIsNotIndexed()
    ensures exists s0: State, trace: seq<Action> ::
      && Init(s0) && Run(Step, s0, trace).Some?
      && var s := Run(Step, s0, trace).value;
      && "b" in s.sent && OverCeiling(s.sent["b"]) && "b" in s.dedupe.finished
      && Violations(s.index) == []
  {
    hide Step, Deliver, Violations;
    var s0 := State(map["a" := FIRST_APPROVAL, "b" := SECOND_APPROVAL], Dedupe.State({}, map[], []), map[], map[], []);
    var trace := Deliver(0, "a") + Deliver(1, "b");
    TwoDeliveries(s0, "a", "b");
    var s := Run(Step, s0, trace).value;
    var row := RowOf(FIRST_APPROVAL);
    assert s.index == [row] by {
      assert !HasInvoice([], row.invoice);
      assert [] + [row] == [row] && row in [row];
    }
    NoneReported(s.index);
    assert Init(s0);
  }
}
